/** Whole runs of the engine: one answer per request, in order, and always to the end. */
module EngineRuns {
  import opened Wire
  import opened Engine
  import opened EngineInvariant
  import opened EngineOrigins
  import F = Framing
  import S = Sessions
  import ST = SetTransactions

  ghost predicate Follows(s: State, step: Step, t: State) {
    Enabled(s, step) && t == Do(s, step)
  }

  /** A run: any interleaving of enabled steps from a fresh client. */
  ghost predicate Run(states: seq<State>, steps: seq<Step>) {
    && |states| == |steps| + 1
    && states[0] == INITIAL
    && forall i :: 0 <= i < |steps| ==> Follows(states[i], steps[i], states[i + 1])
  }

  lemma {:induction false} RunKeeps(states: seq<State>, steps: seq<Step>, n: nat)
    requires Run(states, steps) && n < |states|
    ensures Sound(states[n])
  {
    if n > 0 {
      RunKeeps(states, steps, n - 1);
      assert Follows(states[n - 1], steps[n - 1], states[n - 1 + 1]);
      StepKeepsSound(states[n - 1], steps[n - 1]);
    } else {
      InitialSound();
    }
  }

  lemma InitialSound()
    ensures Sound(INITIAL)
  {
  }

  /** The receiver, the dispatcher or a session answers, each exactly when it should. */
  ghost predicate AuthoredRightly(e: Sent, r: F.Read, looked: map<nat, Option<nat>>) {
    && (e.author.ByReceiver? <==> r.Malformed?)
    && (e.author.ByDispatcher? <==> r.Frame? && e.pdu in looked && looked[e.pdu].None?)
    && forall w: nat :: e.author == ByWorker(w) <==> r.Frame? && e.pdu in looked && looked[e.pdu] == Some(w)
  }

  /**
   * In every state of every run, every frame handed to the transmitter is a Response to a PDU
   * received, with its session, transaction and packet ids; no PDU has two; CleanupSet and
   * Response PDUs have none. It says parseError, 266, and comes from the receiver exactly when the
   * PDU did not parse; it says notOpen, 257, and comes from the dispatcher exactly when that found
   * no session; and it says what a session's history determines as its answer exactly when that is
   * the session the dispatcher found. What it says is what a reader gets, whatever follows.
   */
  lemma AtMostOneAnswer(states: seq<State>, steps: seq<Step>, n: nat, rest: Octets)
    requires Run(states, steps) && n < |states|
    ensures var s := states[n];
            && (forall j, k :: 0 <= j < k < |s.sent| ==> s.sent[j].pdu != s.sent[k].pdu)
            && (forall k :: 0 <= k < |s.sent| ==> Rightful(s, s.sent[k]) && Telling(s, s.sent[k], rest))
  {
    RunKeeps(states, steps, n);
    forall k | 0 <= k < |states[n].sent|
      ensures Rightful(states[n], states[n].sent[k]) && Telling(states[n], states[n].sent[k], rest)
    {
      SentIsRightful(states[n], k);
      SentIsTelling(states[n], k, rest);
    }
  }

  /** The frame says what the m-th event in a session's past is answered with. */
  ghost predicate SaysEvent(e: Sent, x: Worker, m: nat, rest: Octets) {
    && m < |x.events| == |x.handled| && x.handled[m] == e.pdu
    && match ST.At(x.kind, x.events, m).reply
       case Some(reply) => Says(e.frame, x.events[m].header, reply.packet, rest)
       case None => false
  }

  ghost predicate Telling(s: State, e: Sent, rest: Octets)
    requires e.pdu < |s.arrivals| && s.arrivals[e.pdu].Answerable()
  {
    match e.author
    case ByReceiver => DeliversError(e.frame, s.arrivals[e.pdu].header, 266, rest)
    case ByDispatcher => DeliversError(e.frame, s.arrivals[e.pdu].header, 257, rest)
    case ByWorker(w) => w < |s.workers| && exists m: nat :: SaysEvent(e, s.workers[w], m, rest)
  }

  lemma EventIsSaid(e: Sent, x: Worker, m: nat, rest: Octets)
    requires AnswersEvent(e, x, m)
    ensures SaysEvent(e, x, m, rest)
  {
    var v, before := x.events[m], ST.Remembered(x.kind, x.events[..m]);
    S.ReplyEchoes(x.kind, before, v.header, v.packet, v.oracle);
    FrameSays(ST.At(x.kind, x.events, m).reply.value, v.header, rest);
  }

  lemma SentIsTelling(s: State, k: nat, rest: Octets)
    requires Sound(s) && k < |s.sent|
    ensures s.sent[k].pdu < |s.arrivals| && s.arrivals[s.sent[k].pdu].Answerable() && Telling(s, s.sent[k], rest)
  {
    var e := s.sent[k];
    assert SentFits(e, s.places, s.arrivals) && Authored(e, s.workers, s.arrivals);
    match e.author
    case ByReceiver => ErrorFrameSays(s.arrivals[e.pdu].header, 266, rest);
    case ByDispatcher => ErrorFrameSays(s.arrivals[e.pdu].header, 257, rest);
    case ByWorker(w) =>
      var m: nat :| AnswersEvent(e, s.workers[w], m);
      EventIsSaid(e, s.workers[w], m, rest);
  }

  ghost predicate Rightful(s: State, e: Sent) {
    && e.pdu < |s.arrivals| && s.arrivals[e.pdu].Answerable()
    && Echoes(e.frame, s.arrivals[e.pdu].header) && Expects(s.arrivals[e.pdu])
    && Authored(e, s.workers, s.arrivals) && AuthoredRightly(e, s.arrivals[e.pdu], s.looked)
  }

  lemma SentIsRightful(s: State, k: nat)
    requires Sound(s) && k < |s.sent|
    ensures Rightful(s, s.sent[k])
  {
    var e := s.sent[k];
    assert SentFits(e, s.places, s.arrivals) && Rightly(e, s.arrivals, s.looked);
    assert Fits(s.places[e.pdu], s.arrivals[e.pdu], s);
    assert Authored(e, s.workers, s.arrivals);
  }

  /** What arrived and what was found stay as they are. */
  ghost predicate Grows(s: State, t: State) {
    && s.arrivals <= t.arrivals
    && forall i :: i in s.looked ==> i in t.looked && t.looked[i] == s.looked[i]
  }

  lemma {:induction false} GrowsOn(states: seq<State>, m: nat, n: nat)
    requires m <= n < |states| && forall k :: m <= k < n ==> Grows(states[k], states[k + 1])
    ensures Grows(states[m], states[n])
  {
    if m < n {
      GrowsOn(states, m, n - 1);
      assert Grows(states[n - 1], states[n - 1 + 1]);
    }
  }

  lemma StepGrows(states: seq<State>, steps: seq<Step>, k: nat)
    requires Run(states, steps) && k < |steps|
    ensures Grows(states[k], states[k + 1])
  {
    RunKeeps(states, steps, k);
    assert Follows(states[k], steps[k], states[k + 1]);
    forall i | i in states[k].looked
      ensures i in states[k + 1].looked && states[k + 1].looked[i] == states[k].looked[i]
    {
      StepKeepsLookup(states[k], steps[k], i);
    }
    StepKeepsArrivals(states[k], steps[k]);
  }

  lemma RunGrows(states: seq<State>, steps: seq<Step>, m: nat, n: nat)
    requires Run(states, steps) && m <= n < |states|
    ensures Grows(states[m], states[n])
  {
    forall k | m <= k < n
      ensures Grows(states[k], states[k + 1])
    {
      StepGrows(states, steps, k);
    }
    GrowsOn(states, m, n);
  }

  lemma StepKeepsLookup(s: State, step: Step, i: nat)
    requires Sound(s) && Enabled(s, step) && i in s.looked
    ensures i in Do(s, step).looked && Do(s, step).looked[i] == s.looked[i]
  {
    if step.Dispatch? {
      DispatcherAt(s);
      assert LookedAt(s.places[s.dispatcher.pdu], s.dispatcher.pdu, s.looked);
      DispatchEffect(s);
    } else if step.Connect? || step.Arrive? {
      assert Do(s, step).looked == s.looked;
    } else {
      InputOf(s, step);
    }
  }

  /**
   * What decides is the routing table at the moment of the dispatch: a PDU dispatched then is
   * answered, if ever, by the session found under its session id, or with notOpen if none was.
   */
  lemma DispatchDecides(states: seq<State>, steps: seq<Step>, m: nat, n: nat, k: nat)
    requires Run(states, steps) && m < n < |states| && steps[m].Dispatch? && k < |states[n].sent|
    requires states[m].dispatcher.Routing? && states[n].sent[k].pdu == states[m].dispatcher.pdu
    ensures var e, s := states[n].sent[k], states[m];
            && e.pdu < |s.arrivals| && s.arrivals[e.pdu].Frame?
            && e.author == match Lookup(s.table, s.arrivals[e.pdu].header.sessionID)
                           case Some(w) => ByWorker(w)
                           case None => ByDispatcher
  {
    var i, s := states[m].dispatcher.pdu, states[m];
    RunKeeps(states, steps, m);
    DispatcherAt(s);
    assert Fits(s.places[i], s.arrivals[i], s);
    assert Follows(states[m], steps[m], states[m + 1]);
    RunKeeps(states, steps, n);
    SentIsRightful(states[n], k);
    DispatchEffect(s);
    RunGrows(states, steps, m + 1, n);
    RunGrows(states, steps, m, n);
  }

  lemma StepKeepsArrivals(s: State, step: Step)
    requires Enabled(s, step)
    ensures s.arrivals <= Do(s, step).arrivals
  {
    if !step.Connect? && !step.Arrive? {
      InputOf(s, step);
    }
  }

  /**
   * In every state of every run the PDUs of a connection are those the frame reader finds in its
   * octets, in order: all of them once the connection was replaced or has no more frame to read.
   */
  lemma ConnectionsAreRead(states: seq<State>, steps: seq<Step>, n: nat, c: nat)
    requires Run(states, steps) && n < |states| && c < |states[n].connections|
    ensures var s := states[n];
            var start, end := s.connections[c].start, PartEnd(s.connections, |s.arrivals|, c);
            var results := F.ReadAll(s.connections[c].stream).results;
            && start <= end <= |s.arrivals|
            && s.arrivals[start..end] <= results
            && (c + 1 < |s.connections| || !F.ReadFrame(s.unread).Answerable() ==> s.arrivals[start..end] == results)
  {
    RunKeeps(states, steps, n);
    PartIsRead(states[n], c);
  }

  lemma PartIsRead(s: State, c: nat)
    requires Sound(s) && c < |s.connections|
    ensures var start, end := s.connections[c].start, PartEnd(s.connections, |s.arrivals|, c);
            var results := F.ReadAll(s.connections[c].stream).results;
            && start <= end <= |s.arrivals|
            && s.arrivals[start..end] <= results
            && (c + 1 < |s.connections| || !F.ReadFrame(s.unread).Answerable() ==> s.arrivals[start..end] == results)
  {
    assert PartFed(s.connections, s.arrivals, s.unread, c);
    var start, end := s.connections[c].start, PartEnd(s.connections, |s.arrivals|, c);
    if c + 1 == |s.connections| {
      ReadSoFar(s.arrivals[start..end], s.connections[c].stream, s.unread);
    }
  }

  lemma ReadSoFar(part: seq<F.Read>, stream: Octets, unread: Octets)
    requires Partial(part, stream, unread)
    ensures part <= F.ReadAll(stream).results
    ensures !F.ReadFrame(unread).Answerable() ==> part == F.ReadAll(stream).results
  {
    assert part + [] == part;
  }

  /** There is nothing to read and nothing under way, except perhaps in sessions that were closed. */
  ghost predicate Quiet(s: State) {
    && s.receiver.Reading? && !F.ReadFrame(s.unread).Answerable()
    && s.dispatcher.Ready? && s.transmitter.Free?
    && forall w :: 0 <= w < |s.workers| && !s.workers[w].closed ==>
         s.workers[w].current.Idle? && s.workers[w].queue == []
  }

  /** The PDU was routed to a session that is closed, be it before or after. */
  ghost predicate Stranded(s: State, i: nat) {
    && i < |s.places|
    && exists w: nat :: w < |s.workers| && s.workers[w].closed
                        && s.places[i] in {Queued(w), InHand(w), Replied(w), Lost(Some(w))}
  }

  ghost predicate AnsweredOnce(s: State, i: nat) {
    && WasSent(s.sent, i)
    && forall j, k :: 0 <= j < |s.sent| && 0 <= k < |s.sent| && s.sent[j].pdu == s.sent[k].pdu == i ==> j == k
  }

  lemma QuietPlace(s: State, i: nat)
    requires Inv(s) && !s.closed && Quiet(s) && i < |s.places|
    ensures s.places[i].Answered? || s.places[i].Silent? || Stranded(s, i)
  {
    var p := s.places[i];
    assert Located(s, i, p) && Fits(p, s.arrivals[i], s);
    if p.Queued? || p.InHand? || p.Replied? {
      assert s.workers[p.worker].closed;
    } else if p.Lost? {
      assert p.closed.Some?;
      assert s.workers[p.closed.value].closed;
    }
  }

  /**
   * Once the queues have drained, with the client open, every PDU that expects a response has
   * exactly one, unless it was left to a session since closed, and every other PDU has none.
   */
  lemma ExactlyOneAnswer(states: seq<State>, steps: seq<Step>, n: nat, i: nat)
    requires Run(states, steps) && n < |states|
    requires var s := states[n]; !s.closed && Quiet(s) && i < |s.arrivals|
    ensures var s := states[n];
            && s.arrivals[i].Answerable()
            && (Expects(s.arrivals[i]) ==> AnsweredOnce(s, i) || Stranded(s, i))
            && (Expects(s.arrivals[i]) && (forall w :: 0 <= w < |s.workers| ==> !s.workers[w].closed) ==>
                  AnsweredOnce(s, i))
            && (!Expects(s.arrivals[i]) ==> !WasSent(s.sent, i))
  {
    RunKeeps(states, steps, n);
    AtMostOneAnswer(states, steps, n, []);
    QuietPlace(states[n], i);
    assert Fits(states[n].places[i], states[n].arrivals[i], states[n]);
  }

  /**
   * In every state of every run: the requests a session has handled, then the one in hand, then
   * those queued, are those accepted for it, in arrival order, and at most 16 are queued. The
   * responses it submitted are in that same order; with the client open they are missing only for
   * a request that expects none and the one being replied to.
   */
  lemma SessionOrder(states: seq<State>, steps: seq<Step>, n: nat, w: nat)
    requires Run(states, steps) && n < |states| && w < |states[n].workers|
    ensures var s, x := states[n], states[n].workers[w];
            && Increasing(x.accepted)
            && x.handled + Unhandled(x.current) + x.queue == x.accepted
            && |x.queue| <= 16
            && SentBy(s.sent, w) == AnsweredOf(x.handled, s.places)
            && Increasing(SentBy(s.sent, w))
            && (!s.closed ==> forall i :: i in x.handled ==>
                  && i < |s.arrivals| && s.arrivals[i].Answerable()
                  && (i in SentBy(s.sent, w) || !Expects(s.arrivals[i]) || (x.current.Replying? && x.current.pdu == i)))
  {
    RunKeeps(states, steps, n);
    var s, x := states[n], states[n].workers[w];
    HandledIncreasing(x);
    AnsweredIncreasing(x.handled, s.places);
    if !s.closed {
      forall i | i in x.handled
        ensures i < |s.arrivals| && s.arrivals[i].Answerable()
        ensures i in SentBy(s.sent, w) || !Expects(s.arrivals[i]) || (x.current.Replying? && x.current.pdu == i)
      {
        HandledFate(s, w, i);
      }
    }
  }

  /** With fewer queued, a PDU that was routed to a session is accepted, whatever else is the case. */
  lemma AcceptsSixteen(states: seq<State>, steps: seq<Step>, n: nat)
    requires Run(states, steps) && n < |states| && states[n].dispatcher.Entering?
    ensures var s, w := states[n], states[n].dispatcher.worker;
            w < |s.workers| && (Enabled(s, Enqueue) <==> |s.workers[w].queue| < 16)
  {
    RunKeeps(states, steps, n);
    DispatcherAt(states[n]);
    assert Fits(states[n].places[states[n].dispatcher.pdu], states[n].arrivals[states[n].dispatcher.pdu], states[n]);
  }

  lemma HandledFate(s: State, w: nat, i: nat)
    requires Inv(s) && !s.closed && w < |s.workers| && i in s.workers[w].handled
    ensures i < |s.arrivals| && s.arrivals[i].Answerable()
    ensures i in SentBy(s.sent, w) || !Expects(s.arrivals[i])
         || (s.workers[w].current.Replying? && s.workers[w].current.pdu == i)
  {
    var x := s.workers[w];
    var k :| 0 <= k < |x.handled| && x.handled[k] == i;
    assert InTurn(s.sent, w, x.handled, s.places);
    assert Fits(s.places[i], s.arrivals[i], s) && Located(s, i, s.places[i]);
    if s.places[i].Answered? {
      AnsweredHas(x.handled, s.places, k);
    }
  }

  lemma {:induction false} AnsweredHas(q: seq<nat>, places: seq<Place>, k: nat)
    requires k < |q| && q[k] < |places| && places[q[k]].Answered?
    ensures q[k] in AnsweredOf(q, places)
  {
    if k < |q| - 1 {
      AnsweredHas(q[..|q| - 1], places, k);
    }
  }

  lemma {:induction false} AnsweredFrom(q: seq<nat>, places: seq<Place>)
    ensures forall i :: i in AnsweredOf(q, places) ==> i in q
  {
    if q != [] {
      AnsweredFrom(q[..|q| - 1], places);
    }
  }

  lemma {:induction false} AnsweredIncreasing(q: seq<nat>, places: seq<Place>)
    requires Increasing(q)
    ensures Increasing(AnsweredOf(q, places))
  {
    if q != [] {
      var before := q[..|q| - 1];
      AnsweredIncreasing(before, places);
      AnsweredFrom(before, places);
      var a := AnsweredOf(before, places);
      assert forall k :: 0 <= k < |a| ==> a[k] in before;
    }
  }

  /**
   * A session's history is that of the requests it handled, and decides all it remembers and all
   * its frames say: the theorems on answers and on set transactions apply to every session of
   * every run.
   */
  lemma SessionHistory(states: seq<State>, steps: seq<Step>, n: nat, w: nat, rest: Octets)
    requires Run(states, steps) && n < |states| && w < |states[n].workers|
    ensures HistoryDecides(states[n], w, rest)
  {
    RunKeeps(states, steps, n);
    RecordedDecides(states[n], w, rest);
  }

  ghost predicate HistoryDecides(s: State, w: nat, rest: Octets)
    requires w < |s.workers|
  {
    var x := s.workers[w];
    && x.pending == ST.Remembered(x.kind, x.events)
    && |x.events| == |x.handled|
    && (forall k :: 0 <= k < |x.events| ==> SameRequest(x.events[k], s.arrivals, x.handled[k]))
    && (forall k :: 0 <= k < |s.sent| && s.sent[k].author == ByWorker(w) ==>
          exists m: nat :: SaysEvent(s.sent[k], x, m, rest))
  }

  lemma RecordedDecides(s: State, w: nat, rest: Octets)
    requires Recorded(s) && w < |s.workers|
    ensures HistoryDecides(s, w, rest)
  {
    assert Historic(s.workers[w], s.arrivals);
    forall k | 0 <= k < |s.sent| && s.sent[k].author == ByWorker(w)
      ensures exists m: nat :: SaysEvent(s.sent[k], s.workers[w], m, rest)
    {
      assert Authored(s.sent[k], s.workers, s.arrivals);
      var m: nat :| AnswersEvent(s.sent[k], s.workers[w], m);
      EventIsSaid(s.sent[k], s.workers[w], m, rest);
    }
  }

  // --------------------------------------------------------------- progress

  /** Steps of the client's own threads; the rest is what the master agent and the program do. */
  predicate Internal(step: Step) {
    && !step.Connect? && !step.SendOwn? && !step.AddSession? && !step.SetTable?
    && !step.CloseSession? && !step.CloseClient?
  }

  /** How many steps a PDU may still take, counting the writing of its response. */
  function Rank(p: Place): (r: nat) {
    match p
    case Offered => 7
    case Routed => 6
    case AtDoor(_) => 5
    case Queued(_) => 4
    case InHand(_) => 3
    case Refused => 2
    case Denied => 2
    case Replied(_) => 2
    case _ => 0
  }

  function Left(places: seq<Place>): (n: nat) {
    if places == [] then 0 else Left(places[..|places| - 1]) + Rank(places[|places| - 1])
  }

  function Underway(s: State): (n: nat) {
    Left(s.places) + (if s.transmitter.Writing? then 1 else 0)
  }

  /** A bound on the steps to come: a frame takes more octets than its PDU takes steps. */
  function Remaining(s: State): (n: nat) {
    Underway(s) + |s.unread|
  }

  lemma {:induction false} LeftAfterMove(places: seq<Place>, i: nat, q: Place)
    requires i < |places|
    ensures Left(places[i := q]) == Left(places) - Rank(places[i]) + Rank(q)
  {
    var n := |places| - 1;
    if i < n {
      LeftAfterMove(places[..n], i, q);
      assert places[i := q][..n] == places[..n][i := q];
    } else {
      assert places[i := q][..n] == places[..n];
    }
  }

  /** A PDU moves on; handing its response over also sets the transmitter to work. */
  lemma Moved(s: State, t: State, i: nat, q: Place)
    requires i < |s.places| && t.places == s.places[i := q]
    requires if q.Answered? then Rank(s.places[i]) == 2
             else t.transmitter == s.transmitter && Rank(q) < Rank(s.places[i])
    requires s.transmitter.Writing? ==> t.transmitter == s.transmitter
    ensures q.Answered? ==> Left(t.places) + 2 == Left(s.places)
    ensures s.transmitter.Free? || t.transmitter == s.transmitter ==> Underway(t) < Underway(s)
  {
    LeftAfterMove(s.places, i, q);
  }

  lemma ReceiverAdvances(s: State, step: Step)
    requires Placed(s) && Enabled(s, step) && (step.SubmitRefusal? || step.AbandonReceiver? || step.Hand?)
    ensures Underway(Do(s, step)) < Underway(s)
  {
    ReceiverAt(s);
    var q := if step.SubmitRefusal? then Answered else if step.Hand? then Routed else Lost(None);
    Moved(s, Do(s, step), s.receiver.pdu, q);
  }

  lemma DispatchAdvances(s: State)
    requires Placed(s) && Enabled(s, Dispatch)
    ensures Underway(DoDispatch(s)) < Underway(s)
  {
    DispatcherAt(s);
    var i := s.dispatcher.pdu;
    Moved(s, DoDispatch(s), i, DoDispatch(s).places[i]);
  }

  lemma DispatcherAdvances(s: State, step: Step)
    requires Placed(s) && Enabled(s, step)
    requires step.SubmitDenial? || step.AbandonDispatcher? || step.Enqueue?
    ensures Underway(Do(s, step)) < Underway(s)
  {
    DispatcherAt(s);
    var i := s.dispatcher.pdu;
    Moved(s, Do(s, step), i, Do(s, step).places[i]);
  }

  lemma TakeAdvances(s: State, w: nat)
    requires Placed(s) && Enabled(s, Take(w))
    ensures Underway(Do(s, Take(w))) < Underway(s)
  {
    WorkerAt(s, w);
    assert s.workers[w].queue[0] in s.workers[w].queue;
    Moved(s, Do(s, Take(w)), s.workers[w].queue[0], InHand(w));
  }

  lemma ConcludeAdvances(s: State, w: nat, e: ST.Event, o: S.Outcome)
    requires Placed(s) && w < |s.workers| && s.workers[w].current.Handling? && s.workers[w].current.pdu < |s.places|
    ensures Underway(Conclude(s, w, e, o)) < Underway(s)
  {
    WorkerAt(s, w);
    Moved(s, Conclude(s, w, e, o), s.workers[w].current.pdu, if o.reply.Some? then Replied(w) else Silent);
  }

  lemma ReplyAdvances(s: State, step: Step)
    requires Placed(s) && Enabled(s, step) && (step.SubmitReply? || step.AbandonReply?)
    ensures Underway(Do(s, step)) < Underway(s)
  {
    WorkerAt(s, step.w);
    Moved(s, Do(s, step), s.workers[step.w].current.pdu, if step.SubmitReply? then Answered else Lost(None));
  }

  lemma WorkerAdvances(s: State, step: Step)
    requires Placed(s) && Enabled(s, step)
    requires step.Take? || step.Handle? || step.SubmitReply? || step.AbandonReply?
    ensures Underway(Do(s, step)) < Underway(s)
  {
    if step.Take? {
      TakeAdvances(s, step.w);
    } else if step.Handle? {
      var e := EventFor(s, step.w, step.oracle);
      ConcludeAdvances(s, step.w, e, OutcomeOf(s.workers[step.w], e));
    } else {
      ReplyAdvances(s, step);
    }
  }

  lemma InternalAdvances(s: State, step: Step)
    requires Placed(s) && Enabled(s, step) && Internal(step) && !step.Arrive?
    ensures Underway(Do(s, step)) < Underway(s)
  {
    if step.SubmitRefusal? || step.AbandonReceiver? || step.Hand? {
      ReceiverAdvances(s, step);
    } else if step.Dispatch? {
      DispatchAdvances(s);
    } else if step.SubmitDenial? || step.AbandonDispatcher? || step.Enqueue? {
      DispatcherAdvances(s, step);
    } else if !step.Write? {
      WorkerAdvances(s, step);
    }
  }

  /** There is no new connection, and nothing was opened or closed. */
  ghost predicate Undisturbed(s: State, t: State) {
    && t.connections == s.connections && t.closed == s.closed && |t.workers| == |s.workers|
    && forall w :: 0 <= w < |s.workers| ==> t.workers[w].closed == s.workers[w].closed
  }

  lemma ThreadUndisturbed(s: State, step: Step)
    requires Enabled(s, step)
    requires || step.SubmitRefusal? || step.AbandonReceiver? || step.Hand?
             || step.SubmitDenial? || step.AbandonDispatcher? || step.Write? || step.Arrive?
    ensures Undisturbed(s, Do(s, step))
  {
    assert Do(s, step).workers == s.workers;
  }

  lemma QueueUndisturbed(s: State, step: Step)
    requires Enabled(s, step) && (step.Dispatch? || step.Enqueue? || step.Take?)
    ensures Undisturbed(s, Do(s, step))
  {
  }

  lemma ConcludeUndisturbed(s: State, w: nat, e: ST.Event, o: S.Outcome)
    requires w < |s.workers| && s.workers[w].current.Handling? && s.workers[w].current.pdu < |s.places|
    ensures Undisturbed(s, Conclude(s, w, e, o))
  {
  }

  lemma ReplyUndisturbed(s: State, step: Step)
    requires Enabled(s, step) && (step.SubmitReply? || step.AbandonReply?)
    ensures Undisturbed(s, Do(s, step))
  {
  }

  lemma InternalUndisturbed(s: State, step: Step)
    requires Enabled(s, step) && Internal(step)
    ensures Undisturbed(s, Do(s, step))
  {
    if step.Handle? {
      var e := EventFor(s, step.w, step.oracle);
      ConcludeUndisturbed(s, step.w, e, OutcomeOf(s.workers[step.w], e));
    } else if step.SubmitReply? || step.AbandonReply? {
      ReplyUndisturbed(s, step);
    } else if step.Dispatch? || step.Enqueue? || step.Take? {
      QueueUndisturbed(s, step);
    } else {
      ThreadUndisturbed(s, step);
    }
  }

  lemma LeftAppend(places: seq<Place>, p: Place)
    ensures Left(places + [p]) == Left(places) + Rank(p)
  {
    assert (places + [p])[..|places|] == places;
  }

  lemma ReadAdds(s: State, r: F.Read)
    requires r.Answerable() && 20 <= r.size <= |s.unread|
    ensures var t := DoArrive(s, r);
            && |t.arrivals| == |s.arrivals| + 1 && Underway(t) <= Underway(s) + 7
            && |t.unread| + 20 <= |s.unread|
  {
    LeftAppend(s.places, DoArrive(s, r).places[|s.places|]);
  }

  lemma ArriveAdds(s: State)
    requires Enabled(s, Arrive)
    ensures var t := Do(s, Arrive);
            && |t.arrivals| == |s.arrivals| + 1 && Underway(t) <= Underway(s) + 7
            && |t.unread| + 20 <= |s.unread|
  {
    ReadAdds(s, F.ReadFrame(s.unread));
  }

  /** Every step of the client's own threads uses up work, and only what arrives brings any. */
  lemma InternalStep(states: seq<State>, steps: seq<Step>, i: nat)
    requires Run(states, steps) && i < |steps| && Internal(steps[i])
    ensures var s, t := states[i], states[i + 1];
            && |s.arrivals| <= |t.arrivals| && Underway(t) < Underway(s) + 8 * (|t.arrivals| - |s.arrivals|)
            && Remaining(t) < Remaining(s) && Undisturbed(s, t)
  {
    RunKeeps(states, steps, i);
    assert Follows(states[i], steps[i], states[i + 1]);
    InternalUndisturbed(states[i], steps[i]);
    if steps[i].Arrive? {
      ArriveAdds(states[i]);
    } else {
      InternalAdvances(states[i], steps[i]);
      InputOf(states[i], steps[i]);
    }
  }

  /** An outside step adds no work but the writing of a request of the client's own. */
  lemma ExternalAdds(s: State, step: Step)
    requires Enabled(s, step) && !Internal(step)
    ensures var t := Do(s, step);
            |t.arrivals| == |s.arrivals| && Underway(t) == Underway(s) + (if step.SendOwn? then 1 else 0)
  {
  }

  lemma ExternalStep(states: seq<State>, steps: seq<Step>, i: nat)
    requires Run(states, steps) && i < |steps| && !Internal(steps[i])
    ensures var s, t := states[i], states[i + 1];
            |t.arrivals| == |s.arrivals| && Underway(t) == Underway(s) + (if steps[i].SendOwn? then 1 else 0)
  {
    assert Follows(states[i], steps[i], states[i + 1]);
    ExternalAdds(states[i], steps[i]);
  }

  lemma UndisturbedTransitive(s: State, t: State, u: State)
    requires Undisturbed(s, t) && Undisturbed(t, u)
    ensures Undisturbed(s, u)
  {
  }

  function CountInternal(steps: seq<Step>, n: nat): (c: nat)
    requires n <= |steps|
  {
    if n == 0 then 0 else CountInternal(steps, n - 1) + (if Internal(steps[n - 1]) then 1 else 0)
  }

  function CountOwn(steps: seq<Step>, n: nat): (c: nat)
    requires n <= |steps|
  {
    if n == 0 then 0 else CountOwn(steps, n - 1) + (if steps[n - 1].SendOwn? then 1 else 0)
  }

  /** What a step costs is paid for by what arrives and by the client's own requests. */
  ghost predicate Pays(s: State, step: Step, t: State) {
    Underway(t) + 8 * |s.arrivals| + (if Internal(step) then 1 else 0)
    <= Underway(s) + 8 * |t.arrivals| + (if step.SendOwn? then 1 else 0)
  }

  lemma {:induction false} SumOfPays(states: seq<State>, steps: seq<Step>, n: nat)
    requires |states| == |steps| + 1 && n <= |steps| && states[0] == INITIAL
    requires forall k :: 0 <= k < |steps| ==> Pays(states[k], steps[k], states[k + 1])
    ensures CountInternal(steps, n) + Underway(states[n]) <= 8 * |states[n].arrivals| + CountOwn(steps, n)
  {
    if n > 0 {
      SumOfPays(states, steps, n - 1);
      assert Pays(states[n - 1], steps[n - 1], states[n - 1 + 1]);
    }
  }

  /**
   * The client's threads cannot run on for ever: they take at most eight steps per PDU received,
   * its reading included, and one per request of the client's own.
   */
  lemma WorkIsBounded(states: seq<State>, steps: seq<Step>, n: nat)
    requires Run(states, steps) && n < |states|
    ensures CountInternal(steps, n) + Underway(states[n]) <= 8 * |states[n].arrivals| + CountOwn(steps, n)
  {
    forall k | 0 <= k < |steps|
      ensures Pays(states[k], steps[k], states[k + 1])
    {
      if Internal(steps[k]) {
        InternalStep(states, steps, k);
      } else {
        ExternalStep(states, steps, k);
      }
    }
    SumOfPays(states, steps, n);
  }

  /** The step needs no session that was closed to act. */
  predicate OfOpenThread(s: State, step: Step) {
    && Internal(step)
    && (step.Take? || step.Handle? || step.SubmitReply? ==> step.w < |s.workers| && !s.workers[step.w].closed)
  }

  lemma WorkerCanStep(s: State, w: nat, oracle: S.Oracle) returns (step: Step)
    requires Inv(s) && s.transmitter.Free? && w < |s.workers| && !s.workers[w].closed
    requires !s.workers[w].current.Idle? || s.workers[w].queue != []
    ensures Enabled(s, step) && OfOpenThread(s, step)
    ensures step.Handle? ==> step.oracle == oracle
  {
    var x := s.workers[w];
    WorkerAt(s, w);
    if x.current.Idle? {
      assert x.queue[0] in x.queue;
      assert Fits(s.places[x.queue[0]], s.arrivals[x.queue[0]], s);
      step := Take(w);
    } else {
      assert Fits(s.places[x.current.pdu], s.arrivals[x.current.pdu], s);
      step := if x.current.Handling? then Handle(w, oracle) else SubmitReply(w);
    }
  }

  lemma DispatcherCanStep(s: State, oracle: S.Oracle) returns (step: Step)
    requires Inv(s) && s.transmitter.Free? && !s.dispatcher.Ready?
    ensures Enabled(s, step) && OfOpenThread(s, step)
    ensures step.Handle? ==> step.oracle == oracle
  {
    DispatcherAt(s);
    var i := s.dispatcher.pdu;
    assert Fits(s.places[i], s.arrivals[i], s);
    if !s.dispatcher.Entering? {
      step := if s.dispatcher.Routing? then Dispatch else SubmitDenial;
    } else {
      var w := s.dispatcher.worker;
      assert InOrder(s.workers[w]);
      if |s.workers[w].queue| < QUEUE_SIZE {
        step := Enqueue;
      } else if s.workers[w].closed {
        step := AbandonDispatcher;
      } else {
        step := WorkerCanStep(s, w, oracle);
      }
    }
  }

  /**
   * The threads never block one another: until all is quiet, one of them can step, even when the
   * dispatcher waits on a full queue or all of them on the transmitter, and whatever a handler
   * that is to be called will answer.
   */
  lemma AlwaysProgress(states: seq<State>, steps: seq<Step>, n: nat, oracle: S.Oracle) returns (step: Step)
    requires Run(states, steps) && n < |states| && !Quiet(states[n])
    ensures Enabled(states[n], step) && OfOpenThread(states[n], step)
    ensures step.Handle? ==> step.oracle == oracle
  {
    RunKeeps(states, steps, n);
    var s := states[n];
    if s.transmitter.Writing? {
      step := Write;
    } else if !s.dispatcher.Ready? {
      step := DispatcherCanStep(s, oracle);
    } else if !s.receiver.Reading? {
      ReceiverAt(s);
      assert Fits(s.places[s.receiver.pdu], s.arrivals[s.receiver.pdu], s);
      step := if s.receiver.Offering? then Hand else SubmitRefusal;
    } else if F.ReadFrame(s.unread).Answerable() {
      step := Arrive;
    } else {
      var w: nat :| w < |s.workers| && !s.workers[w].closed
                    && (!s.workers[w].current.Idle? || s.workers[w].queue != []);
      step := WorkerCanStep(s, w, oracle);
    }
  }

  // ----------------------------------------------------------- continuations

  /** No thread can step, other than those of sessions that were closed. */
  ghost predicate Stuck(s: State) {
    forall step :: OfOpenThread(s, step) ==> !Enabled(s, step)
  }

  /** The run goes on, by steps of the client's own threads alone. */
  ghost predicate GoesOn(states: seq<State>, steps: seq<Step>, more: seq<State>, taken: seq<Step>) {
    && Run(states, steps) && Run(more, taken)
    && states <= more && steps <= taken
    && forall i :: |steps| <= i < |taken| ==> Internal(taken[i])
  }

  lemma StuckIsQuiet(states: seq<State>, steps: seq<Step>)
    requires Run(states, steps) && Stuck(states[|steps|])
    ensures Quiet(states[|steps|])
  {
    if !Quiet(states[|steps|]) {
      var step := AlwaysProgress(states, steps, |steps|, S.Oracle((_: nat) => S.Nothing, (_: nat) => S.Accept));
    }
  }

  ghost predicate Declines(s: State, t: State) {
    Remaining(t) < Remaining(s) && Undisturbed(s, t)
  }

  lemma {:induction false} DeclineIsBounded(states: seq<State>, m: nat, n: nat)
    requires m <= n < |states| && forall i :: m <= i < n ==> Declines(states[i], states[i + 1])
    ensures Undisturbed(states[m], states[n]) && n - m + Remaining(states[n]) <= Remaining(states[m])
  {
    if m < n {
      DeclineIsBounded(states, m, n - 1);
      assert Declines(states[n - 1], states[n - 1 + 1]);
      UndisturbedTransitive(states[m], states[n - 1], states[n]);
    }
  }

  /**
   * However a run goes on by steps of the client's own threads, whichever they take and whatever
   * handlers answer: it cannot take more steps than remain, and where it cannot go on all is quiet.
   */
  lemma EveryContinuationDrains(states: seq<State>, steps: seq<Step>, more: seq<State>, taken: seq<Step>)
    requires GoesOn(states, steps, more, taken)
    ensures |taken| - |steps| <= Remaining(states[|steps|])
    ensures Undisturbed(states[|steps|], more[|taken|])
    ensures Stuck(more[|taken|]) ==> Quiet(more[|taken|])
  {
    forall i | |steps| <= i < |taken|
      ensures Declines(more[i], more[i + 1])
    {
      InternalStep(more, taken, i);
    }
    DeclineIsBounded(more, |steps|, |taken|);
    assert more[|steps|] == states[|steps|];
    if Stuck(more[|taken|]) {
      StuckIsQuiet(more, taken);
    }
  }

  /** Everything the connection delivered was read, and each PDU that expects a response has exactly one. */
  ghost predicate Served(s: State, c: nat)
    requires c < |s.connections|
  {
    var start, end := s.connections[c].start, PartEnd(s.connections, |s.arrivals|, c);
    && start <= end <= |s.arrivals|
    && s.arrivals[start..end] == F.ReadAll(s.connections[c].stream).results
    && forall i: nat :: start <= i < end ==>
         s.arrivals[i].Answerable() && (if Expects(s.arrivals[i]) then AnsweredOnce(s, i) else !WasSent(s.sent, i))
  }

  /**
   * No request is forgotten: with the client and all sessions open, however a run goes on by the
   * client's own threads, where it cannot go on every frame in the octets of every connection was
   * read, and each PDU that expects a response has exactly one, and every other none.
   */
  lemma EveryRequestIsAnswered(states: seq<State>, steps: seq<Step>, more: seq<State>, taken: seq<Step>, c: nat)
    requires GoesOn(states, steps, more, taken) && Stuck(more[|taken|])
    requires !states[|steps|].closed && c < |states[|steps|].connections|
    requires forall w :: 0 <= w < |states[|steps|].workers| ==> !states[|steps|].workers[w].closed
    ensures more[|taken|].connections == states[|steps|].connections && Served(more[|taken|], c)
  {
    EveryContinuationDrains(states, steps, more, taken);
    ConnectionsAreRead(more, taken, |taken|, c);
    var s := more[|taken|];
    forall i: nat | i < |s.arrivals|
      ensures s.arrivals[i].Answerable() && (if Expects(s.arrivals[i]) then AnsweredOnce(s, i) else !WasSent(s.sent, i))
    {
      ExactlyOneAnswer(more, taken, |taken|, i);
    }
  }

  lemma Extend(states: seq<State>, steps: seq<Step>, step: Step, t: State)
    requires Run(states, steps) && Follows(states[|steps|], step, t)
    ensures Run(states + [t], steps + [step])
  {
    var more, taken := states + [t], steps + [step];
    forall i | 0 <= i < |taken|
      ensures Follows(more[i], taken[i], more[i + 1])
    {
      if i < |steps| {
        assert Follows(states[i], steps[i], states[i + 1]);
      }
    }
  }

  /** A run goes on by one step of its own threads. */
  lemma OneMore(states: seq<State>, steps: seq<Step>, oracle: S.Oracle) returns (t: State, step: Step)
    requires Run(states, steps) && !Quiet(states[|steps|])
    ensures Internal(step) && (step.Handle? ==> step.oracle == oracle)
    ensures Run(states + [t], steps + [step]) && Remaining(t) < Remaining(states[|steps|])
  {
    var n := |steps|;
    step := AlwaysProgress(states, steps, n, oracle);
    t := Do(states[n], step);
    Extend(states, steps, step, t);
    assert (states + [t])[n] == states[n] && (states + [t])[n + 1] == t;
    InternalStep(states + [t], steps + [step], n);
  }

  /** Whatever handlers are going to answer, call by call, a run can go on until all is quiet. */
  lemma Drains(states: seq<State>, steps: seq<Step>, answers: nat -> S.Oracle)
      returns (more: seq<State>, taken: seq<Step>)
    requires Run(states, steps)
    ensures GoesOn(states, steps, more, taken) && Quiet(more[|taken|])
    ensures forall i :: |steps| <= i < |taken| && taken[i].Handle? ==> taken[i].oracle == answers(i)
    decreases Remaining(states[|steps|])
  {
    more, taken := states, steps;
    if !Quiet(states[|steps|]) {
      var t, step := OneMore(states, steps, answers(|steps|));
      more, taken := Drains(states + [t], steps + [step], answers);
      assert taken[|steps|] == step;
    }
  }
}
