/** Where PDUs come from, connection by connection, and why each is answered as it is. */
module EngineOrigins {
  import opened Wire
  import opened Engine
  import opened EngineInvariant
  import F = Framing
  import P = Packets
  import S = Sessions
  import ST = SetTransactions

  // ---------------------------------------------------------------- frames

  ghost predicate SameInput(s: State, t: State) {
    t.connections == s.connections && t.unread == s.unread && t.arrivals == s.arrivals
  }

  lemma ThreadInput(s: State, step: Step)
    requires Enabled(s, step)
    requires || step.SubmitRefusal? || step.AbandonReceiver? || step.Hand? || step.SubmitDenial?
             || step.AbandonDispatcher? || step.Write? || step.SendOwn? || step.SetTable? || step.CloseClient?
    ensures SameInput(s, Do(s, step)) && Do(s, step).looked == s.looked
  {
  }

  lemma QueueInput(s: State, step: Step)
    requires Enabled(s, step) && (step.Enqueue? || step.Take? || step.AddSession?)
    ensures SameInput(s, Do(s, step)) && Do(s, step).looked == s.looked
  {
  }

  lemma WorkerInput(s: State, step: Step)
    requires Enabled(s, step) && (step.SubmitReply? || step.AbandonReply? || step.CloseSession?)
    ensures SameInput(s, Do(s, step)) && Do(s, step).looked == s.looked
  {
  }

  lemma ConcludeInput(s: State, w: nat, e: ST.Event, o: S.Outcome)
    requires w < |s.workers| && s.workers[w].current.Handling? && s.workers[w].current.pdu < |s.places|
    ensures SameInput(s, Conclude(s, w, e, o)) && Conclude(s, w, e, o).looked == s.looked
  {
  }

  lemma DispatchInput(s: State)
    requires Enabled(s, Dispatch)
    ensures SameInput(s, DoDispatch(s))
  {
  }

  /** Only the receiver takes in anything, and only the dispatcher looks anything up. */
  lemma InputOf(s: State, step: Step)
    requires Enabled(s, step) && !step.Connect? && !step.Arrive?
    ensures SameInput(s, Do(s, step)) && (!step.Dispatch? ==> Do(s, step).looked == s.looked)
  {
    if step.Dispatch? {
      DispatchInput(s);
    } else if step.Handle? {
      var e := EventFor(s, step.w, step.oracle);
      ConcludeInput(s, step.w, e, OutcomeOf(s.workers[step.w], e));
    } else if step.Enqueue? || step.Take? || step.AddSession? {
      QueueInput(s, step);
    } else if step.SubmitReply? || step.AbandonReply? || step.CloseSession? {
      WorkerInput(s, step);
    } else {
      ThreadInput(s, step);
    }
  }

  // ----------------------------------------------------------- connections

  function PartEnd(connections: seq<Connection>, arrived: nat, c: nat): (n: nat) {
    if c + 1 < |connections| then connections[c + 1].start else arrived
  }

  /** What was read of a stream is all the frame reader finds in it. */
  ghost predicate Complete(part: seq<F.Read>, stream: Octets) {
    part == F.ReadAll(stream).results && F.ReadAll(stream).last.Ended?
  }

  /** What was read of a stream and what is still unread add up to it. */
  ghost predicate Partial(part: seq<F.Read>, stream: Octets, unread: Octets) {
    && part + F.ReadAll(unread).results == F.ReadAll(stream).results
    && F.ReadAll(unread).last == F.ReadAll(stream).last
  }

  /**
   * The PDUs of connection `c` are those the frame reader finds in its octets: all of them for a
   * connection that was replaced, and all but those still unread for the current one.
   */
  ghost predicate PartFed(connections: seq<Connection>, arrivals: seq<F.Read>, unread: Octets, c: nat)
    requires c < |connections|
  {
    var start, end := connections[c].start, PartEnd(connections, |arrivals|, c);
    && start <= end <= |arrivals|
    && (if c + 1 < |connections| then Complete(arrivals[start..end], connections[c].stream)
        else Partial(arrivals[start..end], connections[c].stream, unread))
  }

  ghost predicate Fed(connections: seq<Connection>, arrivals: seq<F.Read>, unread: Octets) {
    && (forall c :: 0 <= c < |connections| ==> PartFed(connections, arrivals, unread, c))
    && (if connections == [] then arrivals == [] && unread == [] else connections[0].start == 0)
  }

  lemma NothingLeft(unread: Octets)
    requires F.ReadFrame(unread).Ended?
    ensures F.ReadAll(unread).results == [] && F.ReadAll(unread).last.Ended?
  {
  }

  lemma CompleteNow(part: seq<F.Read>, stream: Octets, unread: Octets)
    requires Partial(part, stream, unread) && F.ReadFrame(unread).Ended?
    ensures Complete(part, stream)
  {
    NothingLeft(unread);
    assert part + [] == part;
  }

  lemma PartConnected(connections: seq<Connection>, arrivals: seq<F.Read>, unread: Octets, stream: Octets, c: nat)
    requires c < |connections| && PartFed(connections, arrivals, unread, c) && F.ReadFrame(unread).Ended?
    ensures PartFed(connections + [Connection(stream, |arrivals|)], arrivals, stream, c)
  {
    var more := connections + [Connection(stream, |arrivals|)];
    var start, end := connections[c].start, PartEnd(connections, |arrivals|, c);
    assert more[c] == connections[c] && PartEnd(more, |arrivals|, c) == end;
    if c + 1 == |connections| {
      CompleteNow(arrivals[start..end], connections[c].stream, unread);
    }
  }

  lemma PartialFromStart(stream: Octets)
    ensures Partial([], stream, stream)
  {
    assert [] + F.ReadAll(stream).results == F.ReadAll(stream).results;
  }

  lemma NewPart(connections: seq<Connection>, arrivals: seq<F.Read>, stream: Octets)
    ensures PartFed(connections + [Connection(stream, |arrivals|)], arrivals, stream, |connections|)
  {
    PartialFromStart(stream);
    assert arrivals[|arrivals|..|arrivals|] == [];
  }

  lemma ConnectFeeds(connections: seq<Connection>, arrivals: seq<F.Read>, unread: Octets, stream: Octets)
    requires Fed(connections, arrivals, unread) && F.ReadFrame(unread).Ended?
    ensures Fed(connections + [Connection(stream, |arrivals|)], arrivals, stream)
  {
    var more := connections + [Connection(stream, |arrivals|)];
    forall c | 0 <= c < |more|
      ensures PartFed(more, arrivals, stream, c)
    {
      if c < |connections| {
        PartConnected(connections, arrivals, unread, stream, c);
      } else {
        NewPart(connections, arrivals, stream);
      }
    }
  }

  lemma SliceGrows(a: seq<F.Read>, r: F.Read, start: nat, end: nat)
    requires start <= end <= |a|
    ensures (a + [r])[start..end] == a[start..end]
    ensures (a + [r])[start..|a| + 1] == a[start..|a|] + [r]
  {
  }

  lemma PartialOn(part: seq<F.Read>, stream: Octets, unread: Octets)
    requires Partial(part, stream, unread) && F.ReadFrame(unread).Answerable()
    ensures Partial(part + [F.ReadFrame(unread)], stream, unread[F.ReadFrame(unread).size..])
  {
    F.ReadOn(part, unread);
  }

  lemma OldPartGrows(connections: seq<Connection>, arrivals: seq<F.Read>, unread: Octets, c: nat, r: F.Read,
                     rest: Octets)
    requires c + 1 < |connections| && PartFed(connections, arrivals, unread, c)
    ensures PartFed(connections, arrivals + [r], rest, c)
  {
    SliceGrows(arrivals, r, connections[c].start, PartEnd(connections, |arrivals|, c));
  }

  lemma LastPartGrows(connections: seq<Connection>, arrivals: seq<F.Read>, c: nat, r: F.Read, rest: Octets)
    requires c + 1 == |connections| && connections[c].start <= |arrivals|
    requires Partial(arrivals[connections[c].start..|arrivals|] + [r], connections[c].stream, rest)
    ensures PartFed(connections, arrivals + [r], rest, c)
  {
    var start, more := connections[c].start, arrivals + [r];
    SliceGrows(arrivals, r, start, |arrivals|);
    assert PartEnd(connections, |more|, c) == |arrivals| + 1;
    PartialIs(more[start..|arrivals| + 1], arrivals[start..|arrivals|] + [r], connections[c].stream, rest);
  }

  lemma PartialIs(part: seq<F.Read>, same: seq<F.Read>, stream: Octets, unread: Octets)
    requires part == same && Partial(same, stream, unread)
    ensures Partial(part, stream, unread)
  {
  }

  lemma PartArrived(connections: seq<Connection>, arrivals: seq<F.Read>, unread: Octets, c: nat)
    requires c < |connections| && PartFed(connections, arrivals, unread, c) && F.ReadFrame(unread).Answerable()
    ensures PartFed(connections, arrivals + [F.ReadFrame(unread)], unread[F.ReadFrame(unread).size..], c)
  {
    var r := F.ReadFrame(unread);
    if c + 1 < |connections| {
      OldPartGrows(connections, arrivals, unread, c, r, unread[r.size..]);
    } else {
      PartialOn(arrivals[connections[c].start..|arrivals|], connections[c].stream, unread);
      LastPartGrows(connections, arrivals, c, r, unread[r.size..]);
    }
  }

  lemma ArriveFeeds(connections: seq<Connection>, arrivals: seq<F.Read>, unread: Octets)
    requires Fed(connections, arrivals, unread) && F.ReadFrame(unread).Answerable()
    ensures Fed(connections, arrivals + [F.ReadFrame(unread)], unread[F.ReadFrame(unread).size..])
  {
    forall c | 0 <= c < |connections|
      ensures PartFed(connections, arrivals + [F.ReadFrame(unread)], unread[F.ReadFrame(unread).size..], c)
    {
      PartArrived(connections, arrivals, unread, c);
    }
  }

  lemma StepFeeds(s: State, step: Step)
    requires Fed(s.connections, s.arrivals, s.unread) && Enabled(s, step)
    ensures Fed(Do(s, step).connections, Do(s, step).arrivals, Do(s, step).unread)
  {
    match step
    case Connect(stream) => ConnectFeeds(s.connections, s.arrivals, s.unread, stream);
    case Arrive => ArriveFeeds(s.connections, s.arrivals, s.unread);
    case _ => InputOf(s, step);
  }

  // --------------------------------------------------------------- lookups

  /** What the dispatcher has found out about a PDU, from where it is. */
  ghost predicate LookedAt(p: Place, i: nat, looked: map<nat, Option<nat>>) {
    match p
    case Offered => i !in looked
    case Refused => i !in looked
    case Routed => i !in looked
    case Denied => i in looked && looked[i] == None
    case AtDoor(w) => i in looked && looked[i] == Some(w)
    case Queued(w) => i in looked && looked[i] == Some(w)
    case InHand(w) => i in looked && looked[i] == Some(w)
    case Replied(w) => i in looked && looked[i] == Some(w)
    case Lost(Some(w)) => i in looked && looked[i] == Some(w)
    case _ => true
  }

  /** Who answers a PDU, and why. */
  ghost predicate Rightly(e: Sent, arrivals: seq<F.Read>, looked: map<nat, Option<nat>>) {
    && e.pdu < |arrivals|
    && match e.author
       case ByReceiver => arrivals[e.pdu].Malformed?
       case ByDispatcher => arrivals[e.pdu].Frame? && e.pdu in looked && looked[e.pdu] == None
       case ByWorker(w) => arrivals[e.pdu].Frame? && e.pdu in looked && looked[e.pdu] == Some(w)
  }

  ghost predicate Looked(s: State) {
    && |s.places| == |s.arrivals|
    && (forall i: nat :: i < |s.places| ==> LookedAt(s.places[i], i, s.looked))
    && (forall k :: 0 <= k < |s.sent| ==> Rightly(s.sent[k], s.arrivals, s.looked))
    && (forall i :: i in s.looked ==> i < |s.arrivals|)
  }

  /** A PDU moves on without being looked up. */
  lemma MoveKeepsLooked(s: State, t: State, i: nat, q: Place)
    requires Looked(s) && i < |s.places| && t.places == s.places[i := q] && LookedAt(q, i, s.looked)
    requires t.arrivals == s.arrivals && t.looked == s.looked && t.sent == s.sent
    ensures Looked(t)
  {
  }

  lemma SubmitKeepsLooked(s: State, t: State, e: Sent)
    requires Looked(s) && e.pdu < |s.places| && t.places == s.places[e.pdu := Answered]
    requires Rightly(e, s.arrivals, s.looked) && t.sent == s.sent + [e]
    requires t.arrivals == s.arrivals && t.looked == s.looked
    ensures Looked(t)
  {
  }

  lemma LookupKeepsLooked(s: State, t: State, i: nat, found: Option<nat>, q: Place)
    requires Looked(s) && i < |s.places| && t.places == s.places[i := q] && t.looked == s.looked[i := found]
    requires i !in s.looked && LookedAt(q, i, t.looked) && t.arrivals == s.arrivals && t.sent == s.sent
    requires forall k :: 0 <= k < |s.sent| ==> s.sent[k].pdu != i
    ensures Looked(t)
  {
  }

  lemma ArriveKeepsLooked(s: State, t: State, r: F.Read, p: Place)
    requires Looked(s) && t.arrivals == s.arrivals + [r] && t.places == s.places + [p]
    requires p.Offered? || p.Refused? || p.Silent? || p == Lost(None)
    requires t.looked == s.looked && t.sent == s.sent
    ensures Looked(t)
  {
  }

  lemma SameKeepsLooked(s: State, t: State)
    requires Looked(s) && t.arrivals == s.arrivals && t.places == s.places && t.looked == s.looked && t.sent == s.sent
    ensures Looked(t)
  {
  }

  lemma ReceiverLooks(s: State, step: Step)
    requires Inv(s) && Looked(s) && Enabled(s, step) && (step.SubmitRefusal? || step.AbandonReceiver? || step.Hand?)
    ensures Looked(Do(s, step))
  {
    var i, t := s.receiver.pdu, Do(s, step);
    ReceiverAt(s);
    assert Fits(s.places[i], s.arrivals[i], s) && LookedAt(s.places[i], i, s.looked);
    if step.SubmitRefusal? {
      SubmitKeepsLooked(s, t, t.sent[|s.sent|]);
    } else {
      MoveKeepsLooked(s, t, i, if step.Hand? then Routed else Lost(None));
    }
  }

  lemma NotSent(s: State, i: nat)
    requires Accounted(s.sent, s.places, s.arrivals) && i < |s.places| && !s.places[i].Answered?
    ensures forall k :: 0 <= k < |s.sent| ==> s.sent[k].pdu != i
  {
    forall k | 0 <= k < |s.sent|
      ensures s.sent[k].pdu != i
    {
      assert SentFits(s.sent[k], s.places, s.arrivals);
    }
  }

  lemma DispatchEffect(s: State)
    requires Enabled(s, Dispatch)
    ensures var i, t := s.dispatcher.pdu, DoDispatch(s);
            && t.arrivals == s.arrivals && t.sent == s.sent
            && i < |t.places| && t.places == s.places[i := t.places[i]]
            && var h := s.arrivals[i].header;
               if h.typ == P.RESPONSE then t.looked == s.looked && t.places[i].Silent?
               else t.looked == s.looked[i := Lookup(s.table, h.sessionID)] && LookedAt(t.places[i], i, t.looked)
  {
    DispatchPlace(s);
  }

  lemma DispatchPlace(s: State)
    requires Enabled(s, Dispatch)
    ensures var i, t := s.dispatcher.pdu, DoDispatch(s);
            i < |t.places| && t.places == s.places[i := t.places[i]]
  {
  }

  lemma DispatchLooks(s: State)
    requires Inv(s) && Looked(s) && Enabled(s, Dispatch)
    ensures Looked(DoDispatch(s))
  {
    var i, t := s.dispatcher.pdu, DoDispatch(s);
    DispatcherAt(s);
    DispatchEffect(s);
    assert LookedAt(s.places[i], i, s.looked);
    if s.arrivals[i].header.typ == P.RESPONSE {
      MoveKeepsLooked(s, t, i, Silent);
    } else {
      NotSent(s, i);
      LookupKeepsLooked(s, t, i, Lookup(s.table, s.arrivals[i].header.sessionID), t.places[i]);
    }
  }

  lemma DispatcherLooks(s: State, step: Step)
    requires Inv(s) && Looked(s) && Enabled(s, step)
    requires step.SubmitDenial? || step.AbandonDispatcher? || step.Enqueue?
    ensures Looked(Do(s, step))
  {
    var i, t := s.dispatcher.pdu, Do(s, step);
    DispatcherAt(s);
    assert Fits(s.places[i], s.arrivals[i], s) && LookedAt(s.places[i], i, s.looked);
    if step.SubmitDenial? {
      SubmitKeepsLooked(s, t, t.sent[|s.sent|]);
    } else {
      MoveKeepsLooked(s, t, i, t.places[i]);
    }
  }

  lemma TakeLooks(s: State, w: nat)
    requires Inv(s) && Looked(s) && Enabled(s, Take(w))
    ensures Looked(Do(s, Take(w)))
  {
    var i := s.workers[w].queue[0];
    WorkerAt(s, w);
    assert i in s.workers[w].queue;
    assert LookedAt(s.places[i], i, s.looked);
    MoveKeepsLooked(s, Do(s, Take(w)), i, InHand(w));
  }

  lemma ConcludeLooks(s: State, w: nat, e: ST.Event, o: S.Outcome)
    requires Placed(s) && Looked(s) && w < |s.workers| && s.workers[w].current.Handling?
    requires s.workers[w].current.pdu < |s.places|
    ensures Looked(Conclude(s, w, e, o))
  {
    var i, t := s.workers[w].current.pdu, Conclude(s, w, e, o);
    WorkerAt(s, w);
    assert LookedAt(s.places[i], i, s.looked);
    MoveKeepsLooked(s, t, i, if o.reply.Some? then Replied(w) else Silent);
  }

  lemma ReplyLooks(s: State, step: Step)
    requires Inv(s) && Looked(s) && Enabled(s, step) && (step.SubmitReply? || step.AbandonReply?)
    ensures Looked(Do(s, step))
  {
    var i, t := s.workers[step.w].current.pdu, Do(s, step);
    WorkerAt(s, step.w);
    assert Fits(s.places[i], s.arrivals[i], s) && LookedAt(s.places[i], i, s.looked);
    if step.SubmitReply? {
      SubmitKeepsLooked(s, t, t.sent[|s.sent|]);
    } else {
      MoveKeepsLooked(s, t, i, Lost(None));
    }
  }

  lemma ArriveLooks(s: State)
    requires Inv(s) && Looked(s) && Enabled(s, Arrive)
    ensures Looked(Do(s, Arrive))
  {
    var t := Do(s, Arrive);
    ArriveKeepsLooked(s, t, F.ReadFrame(s.unread), t.places[|s.places|]);
  }

  lemma SettingLooks(s: State, step: Step)
    requires Looked(s) && Enabled(s, step)
    requires || step.Connect? || step.Write? || step.SendOwn? || step.AddSession? || step.SetTable?
             || step.CloseSession? || step.CloseClient?
    ensures Looked(Do(s, step))
  {
    SameKeepsLooked(s, Do(s, step));
  }

  lemma StepLooks(s: State, step: Step)
    requires Inv(s) && Looked(s) && Enabled(s, step)
    ensures Looked(Do(s, step))
  {
    match step
    case Arrive => ArriveLooks(s);
    case SubmitRefusal => ReceiverLooks(s, step);
    case AbandonReceiver => ReceiverLooks(s, step);
    case Hand => ReceiverLooks(s, step);
    case Dispatch => DispatchLooks(s);
    case SubmitDenial => DispatcherLooks(s, step);
    case AbandonDispatcher => DispatcherLooks(s, step);
    case Enqueue => DispatcherLooks(s, step);
    case Take(w) => TakeLooks(s, w);
    case Handle(w, oracle) =>
      var e := EventFor(s, w, oracle);
      ConcludeLooks(s, w, e, OutcomeOf(s.workers[w], e));
    case SubmitReply(_) => ReplyLooks(s, step);
    case AbandonReply(_) => ReplyLooks(s, step);
    case _ => SettingLooks(s, step);
  }

  // --------------------------------------------------------- all of it

  ghost predicate Sound(s: State) {
    Inv(s) && Looked(s) && Fed(s.connections, s.arrivals, s.unread)
  }

  lemma StepKeepsSound(s: State, step: Step)
    requires Sound(s) && Enabled(s, step)
    ensures Sound(Do(s, step))
  {
    StepKeeps(s, step);
    StepLooks(s, step);
    StepFeeds(s, step);
  }
}
