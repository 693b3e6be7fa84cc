/**
 * Requests and their responses (client.go): packet ids, the pending table, and the one-slot
 * channels, as a system of interleaved steps of callers, timers, Close and the dispatcher.
 */
module Correlation {
  import opened Wire

  /** A response as it arrives; the token tells arrivals apart. */
  datatype Message = Message(packetID: u32, token: nat)

  datatype Outcome = Answered(response: Message) | TimedOut | ClientClosed | Unencodable

  /** How far one call of `request` has come. `Leaving` is before the deferred removal, `Returned` after it. */
  datatype Phase = Allocated | Registered | Waiting | Leaving(outcome: Outcome) | Returned(outcome: Outcome)

  /** `slot` is the call's buffered channel. */
  datatype Call = Call(id: u32, phase: Phase, slot: Option<Message>)

  datatype Delivery = Delivery(call: nat, message: Message)

  datatype State = State(
    nextPacketID: u32,
    calls: seq<Call>,
    pending: map<u32, nat>,
    /** The dispatcher between taking a pending entry and sending on its channel. */
    held: Option<Delivery>,
    arrived: nat,
    log: seq<Delivery>,
    closed: bool)

  datatype Step =
    | Issue
    | FailEncode(k: nat)
    | Register(k: nat)
    | Transmit(k: nat)
    | RefuseTransmit(k: nat)
    | Receive(k: nat)
    | TimeOut(k: nat)
    | NoticeClose(k: nat)
    | Finish(k: nat)
    | Arrive(packetID: u32)
    | Deliver
    | Close

  const INITIAL := State(0, [], map[], None, 0, [], false)

  predicate Live(c: Call) {
    !c.phase.Returned?
  }

  /** The assumption: no call stays open while 2^32 later ones are issued. */
  ghost predicate WindowOpen(s: State) {
    forall k :: 0 <= k < |s.calls| && Live(s.calls[k]) ==> |s.calls| - k < TWO32
  }

  predicate At(s: State, k: nat, phase: Phase) {
    k < |s.calls| && s.calls[k].phase == phase
  }

  ghost predicate Enabled(s: State, step: Step) {
    match step
    case Issue => WindowOpen(s)
    case FailEncode(k) => At(s, k, Allocated)
    case Register(k) => At(s, k, Allocated)
    case Transmit(k) => At(s, k, Registered)
    case RefuseTransmit(k) => At(s, k, Registered) && s.closed
    case Receive(k) => At(s, k, Waiting) && s.calls[k].slot.Some?
    case TimeOut(k) => At(s, k, Waiting)
    case NoticeClose(k) => At(s, k, Waiting) && s.closed
    case Finish(k) => k < |s.calls| && s.calls[k].phase.Leaving?
    case Arrive(_) => s.held.None?
    case Deliver => s.held.Some? && s.held.value.call < |s.calls| && s.calls[s.held.value.call].slot.None?
    case Close => true
  }

  function SetPhase(s: State, k: nat, phase: Phase): (t: State)
    requires k < |s.calls|
  {
    s.(calls := s.calls[k := s.calls[k].(phase := phase)])
  }

  function Do(s: State, step: Step): (t: State)
    requires Enabled(s, step) || step.Issue?
  {
    match step
    case Issue =>
      s.(nextPacketID := (s.nextPacketID + 1) % TWO32, calls := s.calls + [Call(s.nextPacketID, Allocated, None)])
    case FailEncode(k) => SetPhase(s, k, Returned(Unencodable))
    case Register(k) => SetPhase(s, k, Registered).(pending := s.pending[s.calls[k].id := k])
    case Transmit(k) => SetPhase(s, k, Waiting)
    case RefuseTransmit(k) => SetPhase(s, k, Leaving(ClientClosed))
    case Receive(k) =>
      s.(calls := s.calls[k := Call(s.calls[k].id, Leaving(Answered(s.calls[k].slot.value)), None)])
    case TimeOut(k) => SetPhase(s, k, Leaving(TimedOut))
    case NoticeClose(k) => SetPhase(s, k, Leaving(ClientClosed))
    case Finish(k) =>
      SetPhase(s, k, Returned(s.calls[k].phase.outcome)).(pending := s.pending - {s.calls[k].id})
    case Arrive(id) =>
      var t := s.(arrived := s.arrived + 1);
      if id in s.pending
      then t.(pending := s.pending - {id}, held := Some(Delivery(s.pending[id], Message(id, s.arrived))))
      else t
    case Deliver =>
      var d := s.held.value;
      s.(held := None, log := s.log + [d], calls := s.calls[d.call := s.calls[d.call].(slot := Some(d.message))])
    case Close => s.(closed := true)
  }

  // ------------------------------------------------------------ invariant

  /** Ids count the calls, and open calls are recent enough to have different ones. */
  ghost predicate Ids(s: State) {
    && s.nextPacketID == |s.calls| % TWO32
    && (forall k :: 0 <= k < |s.calls| ==> s.calls[k].id == k % TWO32)
    && (forall k :: 0 <= k < |s.calls| && Live(s.calls[k]) ==> |s.calls| - k <= TWO32)
  }

  /** Something was, or is about to be, put on the call's channel. */
  ghost predicate Reached(s: State, k: nat) {
    (s.held.Some? && s.held.value.call == k) || exists d :: d in s.log && d.call == k
  }

  /** An entry belongs to an open, registered call no response has been taken for. */
  ghost predicate Entries(s: State) {
    forall id :: id in s.pending ==>
      && s.pending[id] < |s.calls|
      && s.calls[s.pending[id]].id == id
      && !s.calls[s.pending[id]].phase.Allocated? && Live(s.calls[s.pending[id]])
      && !Reached(s, s.pending[id])
  }

  /** A call between registering and returning has its entry, unless a response was taken for it. */
  ghost predicate Awaited(s: State) {
    forall k: nat :: Expecting(s, k) ==> s.calls[k].id in s.pending && s.pending[s.calls[k].id] == k
  }

  /** The call is registered and has not returned, and no response was taken for it. */
  ghost predicate Expecting(s: State, k: nat) {
    k < |s.calls| && !s.calls[k].phase.Allocated? && Live(s.calls[k]) && !Reached(s, k)
  }

  ghost predicate Matches(s: State, d: Delivery) {
    && d.call < |s.calls| && s.calls[d.call].id == d.message.packetID
    && !s.calls[d.call].phase.Allocated?
    && d.message.token < s.arrived
  }

  /** Deliveries match their call, and no two share a call or a response. */
  ghost predicate Deliveries(s: State) {
    && (forall d :: d in s.log ==> Matches(s, d))
    && (forall i, j :: 0 <= i < j < |s.log| ==>
          s.log[i].call != s.log[j].call && s.log[i].message.token != s.log[j].message.token)
    && (s.held.Some? ==>
          && Matches(s, s.held.value)
          && s.calls[s.held.value.call].slot.None?
          && forall d :: d in s.log ==> d.call != s.held.value.call && d.message.token != s.held.value.message.token)
  }

  /** What is on a channel or was returned from it was delivered to that very call. */
  ghost predicate Answers(s: State) {
    forall k :: 0 <= k < |s.calls| ==>
      && (s.calls[k].slot.Some? ==> Delivery(k, s.calls[k].slot.value) in s.log)
      && (AnswerOf(s.calls[k]).Some? ==> Delivery(k, AnswerOf(s.calls[k]).value) in s.log)
  }

  function AnswerOf(c: Call): (m: Option<Message>) {
    if (c.phase.Leaving? || c.phase.Returned?) && c.phase.outcome.Answered?
    then Some(c.phase.outcome.response) else None
  }

  ghost predicate Inv(s: State) {
    Ids(s) && Entries(s) && Awaited(s) && Deliveries(s) && Answers(s)
  }

  lemma DistinctIds(s: State, j: nat, k: nat)
    requires Ids(s) && j < |s.calls| && k < |s.calls| && j != k
    requires Live(s.calls[j]) && Live(s.calls[k])
    ensures s.calls[j].id != s.calls[k].id
  {
    var a, b := if j < k then j else k, if j < k then k else j;
    CloseResiduesDiffer(a, b);
  }

  lemma CloseResiduesDiffer(a: nat, b: nat)
    requires a < b < a + TWO32
    ensures a % TWO32 != b % TWO32
  {
    assert b - a == TWO32 * (b / TWO32 - a / TWO32) + (b % TWO32 - a % TWO32);
  }

  lemma IssueKeeps(s: State)
    requires Inv(s) && WindowOpen(s)
    ensures Inv(Do(s, Issue))
  {
    var t := Do(s, Issue);
    assert forall k :: 0 <= k < |s.calls| ==> t.calls[k] == s.calls[k];
    assert forall k: nat :: Reached(t, k) == Reached(s, k);
    NextID(|s.calls|);
  }

  lemma NextID(n: nat)
    ensures (n % TWO32 + 1) % TWO32 == (n + 1) % TWO32
  {
  }

  /** The phase changes that touch neither a channel nor the pending table. */
  ghost predicate Quiet(from': Phase, to': Phase) {
    || (from'.Allocated? && to' == Returned(Unencodable))
    || (from'.Registered? && to'.Waiting?)
    || ((from'.Registered? || from'.Waiting?) && to'.Leaving? && !to'.outcome.Answered?)
  }

  lemma QuietKeeps(s: State, k: nat, phase: Phase)
    requires Inv(s) && k < |s.calls| && Quiet(s.calls[k].phase, phase)
    ensures Inv(SetPhase(s, k, phase))
  {
    var t := SetPhase(s, k, phase);
    assert forall j: nat :: Reached(t, j) == Reached(s, j);
    assert forall j :: 0 <= j < |s.calls| && j != k ==> t.calls[j] == s.calls[j];
    assert Ids(t);
    assert Entries(t);
    assert Awaited(t);
    assert Deliveries(t);
  }

  lemma RegisterKeeps(s: State, k: nat)
    requires Inv(s) && Enabled(s, Register(k))
    ensures Inv(Do(s, Register(k)))
  {
    var t := Do(s, Register(k));
    assert forall j: nat :: Reached(t, j) == Reached(s, j);
    assert !Reached(s, k);
    forall j: nat | j < |s.calls| && j != k && Live(s.calls[j])
      ensures s.calls[j].id != s.calls[k].id
    {
      DistinctIds(s, j, k);
    }
  }

  lemma ReceiveKeeps(s: State, k: nat)
    requires Inv(s) && Enabled(s, Receive(k))
    ensures Inv(Do(s, Receive(k)))
  {
    var t := Do(s, Receive(k));
    assert forall j: nat :: Reached(t, j) == Reached(s, j);
  }

  lemma FinishKeeps(s: State, k: nat)
    requires Inv(s) && Enabled(s, Finish(k))
    ensures Inv(Do(s, Finish(k)))
  {
    var t := Do(s, Finish(k));
    assert forall j: nat :: Reached(t, j) == Reached(s, j);
    forall j: nat | j < |s.calls| && j != k && Live(s.calls[j])
      ensures s.calls[j].id != s.calls[k].id
    {
      DistinctIds(s, j, k);
    }
  }

  lemma ArriveKeeps(s: State, id: u32)
    requires Inv(s) && Enabled(s, Arrive(id))
    ensures Inv(Do(s, Arrive(id)))
  {
    var t := Do(s, Arrive(id));
    assert forall j: nat :: Reached(t, j) <==> Reached(s, j) || (id in s.pending && j == s.pending[id]);
  }

  lemma DeliverKeeps(s: State)
    requires Inv(s) && Enabled(s, Deliver)
    ensures Inv(Do(s, Deliver))
  {
    var t, d := Do(s, Deliver), s.held.value;
    assert forall e :: e in t.log <==> e in s.log || e == d;
    assert d in t.log;
    assert forall j: nat :: Reached(t, j) == Reached(s, j);
  }

  lemma StepKeeps(s: State, step: Step)
    requires Inv(s) && Enabled(s, step)
    ensures Inv(Do(s, step))
  {
    match step
    case Issue => IssueKeeps(s);
    case Register(k) => RegisterKeeps(s, k);
    case Receive(k) => ReceiveKeeps(s, k);
    case Finish(k) => FinishKeeps(s, k);
    case Arrive(id) => ArriveKeeps(s, id);
    case Deliver => DeliverKeeps(s);
    case Close => assert forall j: nat :: Reached(Do(s, Close), j) == Reached(s, j);
    case FailEncode(k) => QuietKeeps(s, k, Returned(Unencodable));
    case Transmit(k) => QuietKeeps(s, k, Waiting);
    case RefuseTransmit(k) => QuietKeeps(s, k, Leaving(ClientClosed));
    case TimeOut(k) => QuietKeeps(s, k, Leaving(TimedOut));
    case NoticeClose(k) => QuietKeeps(s, k, Leaving(ClientClosed));
  }

  // ----------------------------------------------------------------- runs

  /** A run: any interleaving of enabled steps from a fresh client. */
  ghost predicate Run(states: seq<State>, steps: seq<Step>) {
    && |states| == |steps| + 1
    && states[0] == INITIAL
    && forall i :: 0 <= i < |steps| ==> Enabled(states[i], steps[i]) && states[i + 1] == Do(states[i], steps[i])
  }

  lemma {:induction false} RunKeeps(states: seq<State>, steps: seq<Step>, n: nat)
    requires Run(states, steps) && n < |states|
    ensures Inv(states[n])
  {
    if n > 0 {
      RunKeeps(states, steps, n - 1);
      StepKeeps(states[n - 1], steps[n - 1]);
    }
  }

  /** No two of the messages delivered went to the same call, or were the same response. */
  ghost predicate OneToOne(log: seq<Delivery>) {
    forall d, e :: d in log && e in log && d != e ==> d.call != e.call && d.message.token != e.message.token
  }

  /**
   * Correlation safety, in every state of every run: each call is sent at most one response and
   * each response goes to at most one call; what a call returns is a response sent to it, with its
   * own packet id; a call that returned has no pending entry; and the dispatcher's send never
   * finds the one slot of the channel taken.
   */
  lemma Correlated(states: seq<State>, steps: seq<Step>, n: nat)
    requires Run(states, steps) && n < |states|
    ensures var s := states[n];
            && OneToOne(s.log)
            && (forall i, j :: 0 <= i < j < |s.log| ==> s.log[i] != s.log[j])
            && (forall k :: 0 <= k < |s.calls| && AnswerOf(s.calls[k]).Some? ==>
                  && AnswerOf(s.calls[k]).value.packetID == s.calls[k].id
                  && Delivery(k, AnswerOf(s.calls[k]).value) in s.log)
            && (forall k, id :: 0 <= k < |s.calls| && s.calls[k].phase.Returned? && id in s.pending ==>
                  s.pending[id] != k)
            && (s.held.Some? ==> Enabled(s, Deliver))
  {
    RunKeeps(states, steps, n);
    var s := states[n];
    forall d, e | d in s.log && e in s.log && d != e
      ensures d.call != e.call && d.message.token != e.message.token
    {
      var i :| 0 <= i < |s.log| && s.log[i] == d;
      var j :| 0 <= j < |s.log| && s.log[j] == e;
      assert i < j || j < i;
    }
  }

  /**
   * A response is taken exactly when a call expects one under its id, and it is taken for that
   * call, which no longer has an entry then. Any other, late or unmatched, changes nothing.
   */
  lemma ArrivalRouting(states: seq<State>, steps: seq<Step>, n: nat, id: u32)
    requires Run(states, steps) && n < |states| && Enabled(states[n], Arrive(id))
    ensures var s, t := states[n], Do(states[n], Arrive(id));
            && (t.held.Some? <==> exists k: nat :: Expecting(s, k) && s.calls[k].id == id)
            && (t.held.None? ==> t == s.(arrived := s.arrived + 1))
            && forall k: nat :: Expecting(s, k) && s.calls[k].id == id ==>
                 t == s.(arrived := s.arrived + 1, pending := s.pending - {id},
                         held := Some(Delivery(k, Message(id, s.arrived))))
  {
    RunKeeps(states, steps, n);
    var s := states[n];
    if id in s.pending {
      assert Expecting(s, s.pending[id]);
    }
  }

  /** What a call returned is never changed by later steps. */
  lemma ReturnedStays(states: seq<State>, steps: seq<Step>, m: nat, n: nat, k: nat)
    requires Run(states, steps) && m <= n < |states|
    requires k < |states[m].calls| && states[m].calls[k].phase.Returned?
    ensures k < |states[n].calls| && states[n].calls[k].phase == states[m].calls[k].phase
  {
    if m < n {
      ReturnedStays(states, steps, m, n - 1, k);
    }
  }

  /**
   * Why the window is assumed: were call k still waiting when 2^32 others have been issued, the
   * next one would get its id and take over its entry, so that no response could reach k.
   */
  lemma WindowNeeded(s: State, k: nat)
    requires Inv(s) && At(s, k, Waiting) && !Reached(s, k) && |s.calls| - k == TWO32
    ensures var n := |s.calls|;
            var t := Do(Do(s, Issue), Register(n));
            && t.calls[n].id == t.calls[k].id
            && t.pending[t.calls[k].id] == n
            && forall id :: id in t.pending ==> t.pending[id] != k
  {
    SameResidue(k);
    var t := Do(s, Issue);
    assert t.calls[k] == s.calls[k] && t.calls[|s.calls|].id == s.calls[k].id;
  }

  lemma SameResidue(a: nat)
    ensures (a + TWO32) % TWO32 == a % TWO32
  {
  }

  // ------------------------------------------------- the window can be filled

  ghost predicate Occurs(s: State) {
    exists states, steps :: Run(states, steps) && states[|steps|] == s
  }

  lemma OccursNext(s: State, step: Step)
    requires Occurs(s) && Enabled(s, step)
    ensures Occurs(Do(s, step))
  {
    var states, steps :| Run(states, steps) && states[|steps|] == s;
    var more, taken := states + [Do(s, step)], steps + [step];
    assert Run(more, taken) && more[|taken|] == Do(s, step);
  }

  /** The first call waits, and `n` more have been issued. */
  ghost predicate FirstWaits(s: State, n: nat) {
    && |s.calls| == n + 1 && s.nextPacketID == (n + 1) % TWO32 && s.held.None? && s.log == []
    && At(s, 0, Waiting)
  }

  lemma FirstWaitsOccurs() returns (s: State)
    ensures Occurs(s) && FirstWaits(s, 0)
  {
    assert Run([INITIAL], []) && [INITIAL][0] == INITIAL;
    OccursNext(INITIAL, Issue);
    s := Do(INITIAL, Issue);
    OccursNext(s, Register(0));
    s := Do(s, Register(0));
    OccursNext(s, Transmit(0));
    s := Do(s, Transmit(0));
  }

  lemma IssueGoesOn(s: State, n: nat)
    requires FirstWaits(s, n) && n + 1 < TWO32
    ensures Enabled(s, Issue) && FirstWaits(Do(s, Issue), n + 1)
  {
  }

  lemma {:induction false} ManyOccur(n: nat) returns (s: State)
    requires n < TWO32
    ensures Occurs(s) && FirstWaits(s, n)
  {
    if n == 0 {
      s := FirstWaitsOccurs();
    } else {
      var before := ManyOccur(n - 1);
      IssueGoesOn(before, n - 1);
      OccursNext(before, Issue);
      s := Do(before, Issue);
    }
  }

  /** A run does come to where the window is full, and issuing once more would cut the first call off. */
  lemma WindowFills() returns (s: State)
    ensures Occurs(s) && At(s, 0, Waiting) && |s.calls| == TWO32 && !Enabled(s, Issue)
    ensures var n := |s.calls|;
            var t := Do(Do(s, Issue), Register(n));
            && t.calls[n].id == t.calls[0].id
            && t.pending[t.calls[0].id] == n
            && forall id :: id in t.pending ==> t.pending[id] != 0
  {
    s := ManyOccur(TWO32 - 1);
    var states, steps :| Run(states, steps) && states[|steps|] == s;
    RunKeeps(states, steps, |steps|);
    assert !Reached(s, 0);
    WindowNeeded(s, 0);
  }
}
