/** What still reaches a session that was closed, or that the routing table no longer leads to. */
module EngineClosing {
  import opened Wire
  import opened Engine
  import opened EngineInvariant
  import opened EngineRuns
  import F = Framing
  import P = Packets
  import S = Sessions
  import ST = SetTransactions

  /** No entry of the table leads to session `w`. */
  ghost predicate NoEntry(table: map<u32, nat>, w: nat) {
    forall id :: id in table ==> table[id] != w
  }

  /** The PDU that was looked up for session `w` and is not in its queue yet. */
  function AtItsDoor(d: Dispatcher, w: nat): (q: seq<nat>) {
    if d.Entering? && d.worker == w then [d.pdu] else []
  }

  /** All that session `w` has accepted, and what stands at its door. */
  function Bound(s: State, w: nat): (q: seq<nat>)
    requires w < |s.workers|
  {
    s.workers[w].accepted + AtItsDoor(s.dispatcher, w)
  }

  /** Nothing new comes to the session, and nothing it has handled is undone. */
  ghost predicate NothingNew(s: State, t: State, w: nat) {
    && w < |s.workers| && w < |t.workers|
    && Bound(t, w) <= Bound(s, w) && s.workers[w].handled <= t.workers[w].handled
  }

  lemma SameSession(s: State, t: State, w: nat)
    requires w < |s.workers| && w < |t.workers| && t.workers[w].accepted == s.workers[w].accepted
    requires s.workers[w].handled <= t.workers[w].handled
    requires AtItsDoor(t.dispatcher, w) == AtItsDoor(s.dispatcher, w) || AtItsDoor(t.dispatcher, w) == []
    ensures NothingNew(s, t, w)
  {
    assert s.workers[w].accepted + [] == s.workers[w].accepted;
  }

  lemma ThreadsBringNothing(s: State, step: Step, w: nat)
    requires Enabled(s, step) && w < |s.workers|
    requires || step.Connect? || step.Arrive? || step.SubmitRefusal? || step.AbandonReceiver? || step.Hand?
             || step.SubmitDenial? || step.AbandonDispatcher? || step.Write? || step.SendOwn?
             || step.SetTable? || step.CloseClient?
    ensures NothingNew(s, Do(s, step), w)
  {
    SameSession(s, Do(s, step), w);
  }

  lemma DispatchBringsNothing(s: State, w: nat)
    requires Enabled(s, Dispatch) && w < |s.workers| && NoEntry(s.table, w)
    ensures NothingNew(s, DoDispatch(s), w)
  {
    SameSession(s, DoDispatch(s), w);
  }

  lemma EnqueueBringsNothing(s: State, w: nat)
    requires Enabled(s, Enqueue) && w < |s.workers|
    ensures NothingNew(s, Do(s, Enqueue), w)
  {
    var t := Do(s, Enqueue);
    if s.dispatcher.worker == w {
      assert t.workers[w].accepted + [] == s.workers[w].accepted + [s.dispatcher.pdu];
    } else {
      SameSession(s, t, w);
    }
  }

  lemma SessionsBringNothing(s: State, step: Step, w: nat)
    requires Enabled(s, step) && w < |s.workers|
    requires step.Take? || step.SubmitReply? || step.AbandonReply? || step.AddSession? || step.CloseSession?
    ensures NothingNew(s, Do(s, step), w)
  {
    SameSession(s, Do(s, step), w);
  }

  lemma ConcludeBringsNothing(s: State, v: nat, e: ST.Event, o: S.Outcome, w: nat)
    requires v < |s.workers| && s.workers[v].current.Handling? && s.workers[v].current.pdu < |s.places|
    requires w < |s.workers|
    ensures NothingNew(s, Conclude(s, v, e, o), w)
  {
    SameSession(s, Conclude(s, v, e, o), w);
  }

  lemma StepBringsNothing(s: State, step: Step, w: nat)
    requires Enabled(s, step) && w < |s.workers| && NoEntry(s.table, w)
    ensures NothingNew(s, Do(s, step), w)
  {
    if step.Dispatch? {
      DispatchBringsNothing(s, w);
    } else if step.Enqueue? {
      EnqueueBringsNothing(s, w);
    } else if step.Handle? {
      var e := EventFor(s, step.w, step.oracle);
      ConcludeBringsNothing(s, step.w, e, OutcomeOf(s.workers[step.w], e), w);
    } else if step.Take? || step.SubmitReply? || step.AbandonReply? || step.AddSession? || step.CloseSession? {
      SessionsBringNothing(s, step, w);
    } else {
      ThreadsBringNothing(s, step, w);
    }
  }

  lemma {:induction false} NothingNewAfter(states: seq<State>, steps: seq<Step>, m: nat, n: nat, w: nat)
    requires Run(states, steps) && m <= n < |states| && w < |states[m].workers|
    requires forall k :: m <= k < n ==> NoEntry(states[k].table, w)
    ensures NothingNew(states[m], states[n], w)
  {
    if m < n {
      NothingNewAfter(states, steps, m, n - 1, w);
      assert Follows(states[n - 1], steps[n - 1], states[n - 1 + 1]);
      StepBringsNothing(states[n - 1], steps[n - 1], w);
    }
  }

  /**
   * While no entry of the table leads to a session, be it closed or not, its handler gets, in
   * order, none but the PDU that was in hand when the last entry went, those that were queued, at
   * most 16, and the one that was at its door. Nothing that is dispatched later reaches it.
   */
  lemma OnlyWhatWasThere(states: seq<State>, steps: seq<Step>, m: nat, n: nat, w: nat)
    requires Run(states, steps) && m <= n < |states| && w < |states[m].workers|
    requires forall k :: m <= k < n ==> NoEntry(states[k].table, w)
    ensures w < |states[n].workers|
    ensures var x, y := states[m].workers[w], states[n].workers[w];
            && x.handled <= y.handled
            && y.handled <= x.handled + Unhandled(x.current) + x.queue + AtItsDoor(states[m].dispatcher, w)
            && |y.handled| <= |x.handled| + 1 + 16 + 1
  {
    NothingNewAfter(states, steps, m, n, w);
    RunKeeps(states, steps, m);
    RunKeeps(states, steps, n);
    HandledWithin(states[m].workers[w], states[n].workers[w], AtItsDoor(states[m].dispatcher, w),
                  AtItsDoor(states[n].dispatcher, w));
  }

  lemma HandledWithin(x: Worker, y: Worker, door: seq<nat>, left: seq<nat>)
    requires InOrder(x) && InOrder(y) && y.accepted + left <= x.accepted + door && |door| <= 1
    ensures y.handled <= x.handled + Unhandled(x.current) + x.queue + door
    ensures |y.handled| <= |x.handled| + 1 + 16 + 1
  {
    var bound := x.accepted + door;
    assert y.handled <= y.accepted;
    assert y.accepted <= y.accepted + left;
  }

  // --------------------------------------------------------------- a witness

  ghost predicate Occurs(s: State) {
    exists states, steps :: Run(states, steps) && states[|steps|] == s
  }

  lemma InitialOccurs()
    ensures Occurs(INITIAL)
  {
    var states: seq<State>, steps: seq<Step> := [INITIAL], [];
    assert Run(states, steps) && states[|steps|] == INITIAL;
  }

  lemma OccursNext(s: State, step: Step)
    requires Occurs(s) && Enabled(s, step)
    ensures Occurs(Do(s, step))
  {
    var states, steps :| Run(states, steps) && states[|steps|] == s;
    var t := Do(s, step);
    assert Follows(states[|steps|], step, t);
    Extend(states, steps, step, t);
    assert (states + [t])[|steps + [step]|] == t;
  }

  /** One session, with nothing in its past and nothing to do. */
  ghost predicate OneFresh(s: State) {
    && |s.workers| == 1 && s.workers[0].queue == [] && s.workers[0].current.Idle?
    && s.workers[0].handled == [] && s.workers[0].accepted == []
    && s.transmitter.Free?
  }

  ghost predicate Waiting(s: State, h: F.Read) {
    OneFresh(s) && s.arrivals == [h] && |s.places| == 1
  }

  lemma OpenOccurs(kind: S.Kind, id: u32) returns (s: State)
    ensures Occurs(s) && OneFresh(s) && s.table == map[id := 0] && s.arrivals == [] && s.places == []
    ensures s.receiver.Reading? && s.dispatcher.Ready? && s.unread == []
  {
    InitialOccurs();
    OccursNext(INITIAL, AddSession(kind));
    s := Do(INITIAL, AddSession(kind));
    OccursNext(s, SetTable(map[id := 0]));
    s := Do(s, SetTable(map[id := 0]));
  }

  lemma OfferedOccurs(kind: S.Kind, stream: Octets) returns (s: State)
    requires F.ReadFrame(stream).Frame?
    ensures Occurs(s) && Waiting(s, F.ReadFrame(stream)) && s.table == map[F.ReadFrame(stream).header.sessionID := 0]
    ensures s.receiver == Offering(0) && s.dispatcher.Ready?
  {
    s := OpenOccurs(kind, F.ReadFrame(stream).header.sessionID);
    OccursNext(s, Connect(stream));
    s := Do(s, Connect(stream));
    OccursNext(s, Arrive);
    s := Do(s, Arrive);
  }

  lemma AtDoorOccurs(kind: S.Kind, stream: Octets) returns (s: State)
    requires F.ReadFrame(stream).Frame? && F.ReadFrame(stream).header.typ != P.RESPONSE
    ensures Occurs(s) && Waiting(s, F.ReadFrame(stream)) && s.dispatcher == Entering(0, 0)
  {
    s := OfferedOccurs(kind, stream);
    OccursNext(s, Hand);
    s := Do(s, Hand);
    OccursNext(s, Dispatch);
    s := Do(s, Dispatch);
  }

  lemma ClosedOccurs(kind: S.Kind, stream: Octets) returns (s: State)
    requires F.ReadFrame(stream).Frame? && F.ReadFrame(stream).header.typ != P.RESPONSE
    ensures Occurs(s) && Waiting(s, F.ReadFrame(stream)) && s.dispatcher == Entering(0, 0)
    ensures s.workers[0].closed && s.table == map[]
  {
    s := AtDoorOccurs(kind, stream);
    OccursNext(s, SetTable(map[]));
    s := Do(s, SetTable(map[]));
    OccursNext(s, CloseSession(0));
    s := Do(s, CloseSession(0));
  }

  /** In hand of session 0, which is closed and has handled nothing yet. */
  ghost predicate InHandOfClosed(s: State) {
    && |s.workers| == 1 && s.workers[0].closed && s.table == map[]
    && s.workers[0].handled == [] && s.workers[0].current == Handling(0)
    && |s.arrivals| == 1 && s.arrivals[0].Frame? && |s.places| == 1
  }

  lemma TakenAfterClose(s: State) returns (u: State)
    requires Occurs(s) && |s.arrivals| == 1 && Waiting(s, s.arrivals[0]) && s.arrivals[0].Frame?
    requires s.dispatcher == Entering(0, 0) && s.workers[0].closed && s.table == map[]
    ensures Enabled(s, Enqueue) && Enabled(Do(s, Enqueue), Take(0)) && u == Do(Do(s, Enqueue), Take(0))
    ensures Occurs(u) && InHandOfClosed(u)
  {
    OccursNext(s, Enqueue);
    var q := Do(s, Enqueue);
    OccursNext(q, Take(0));
    u := Do(q, Take(0));
  }

  /**
   * Any request may come to be handled by a session that is closed and that no entry leads to: it
   * was at the door when the session was closed, and both the queue and the session went on.
   */
  lemma ClosedSessionMayHandle(kind: S.Kind, stream: Octets, oracle: S.Oracle) returns (s: State, t: State)
    requires F.ReadFrame(stream).Frame? && F.ReadFrame(stream).header.typ != P.RESPONSE
    ensures Occurs(s) && |s.workers| == 1 && s.workers[0].closed && s.table == map[] && s.workers[0].handled == []
    ensures Occurs(t) && |t.workers| == 1 && t.workers[0].closed && t.table == map[] && t.workers[0].handled == [0]
    ensures Enabled(s, Enqueue) && Enabled(Do(s, Enqueue), Take(0))
    ensures var u := Do(Do(s, Enqueue), Take(0)); Enabled(u, Handle(0, oracle)) && t == Do(u, Handle(0, oracle))
  {
    s := ClosedOccurs(kind, stream);
    var u := TakenAfterClose(s);
    OccursNext(u, Handle(0, oracle));
    t := Do(u, Handle(0, oracle));
    var e := EventFor(u, 0, oracle);
    ConcludedAfterClose(u, e, OutcomeOf(u.workers[0], e));
  }

  lemma ConcludedAfterClose(u: State, e: ST.Event, o: S.Outcome)
    requires InHandOfClosed(u)
    ensures var t := Conclude(u, 0, e, o);
            |t.workers| == 1 && t.workers[0].closed && t.table == map[] && t.workers[0].handled == [0]
  {
  }
}
