/**
 * The error channel (client.go): any number of `reportError` and `Close` calls, and the consumer,
 * as interleaved steps over a reader/writer lock, a once and a buffered channel.
 */
module ErrorChannel {
  import opened Wire

  const CAPACITY := 10

  /** A report: before the read lock, holding it, past the test of `errorClosed`, about to unlock, returned. */
  datatype Report = Outside | Reading | Sending | Reported | Returned

  /**
   * A close: before the once, inside it, holding the write lock, `errorClosed` set, channel
   * closed, unlocked, and past the once.
   */
  datatype Closing = Calling | Inside | Writing | Flagged | Shut | Unlocked | Past

  /** What the program did to the channel, in order. */
  datatype Action = Sent(report: nat) | ClosedChannel | Received(report: nat)

  /** `sync.Once`, and which call runs it. */
  datatype Once = Fresh | Running(runner: nat) | Ran

  datatype State = State(
    reports: seq<Report>,
    closes: seq<Closing>,
    once: Once,
    readers: set<nat>,
    writer: Option<nat>,
    errorClosed: bool,
    buffer: seq<nat>,
    /** The `done` channel, which `Close` closes first. */
    done: bool,
    log: seq<Action>)

  datatype Step =
    | StartReport
    | LockRead(k: nat)
    | TestClosed(k: nat)
    | Send(k: nat)
    | UnlockRead(k: nat)
    | StartClose
    | Enter(k: nat)
    | Skip(k: nat)
    | Lock(k: nat)
    | Flag(k: nat)
    | CloseChannel(k: nat)
    | Unlock(k: nat)
    | Leave(k: nat)
    | Consume

  const INITIAL := State([], [], Fresh, {}, None, false, [], false, [])

  predicate ReportAt(s: State, k: nat, r: Report) {
    k < |s.reports| && s.reports[k] == r
  }

  predicate CloseAt(s: State, k: nat, c: Closing) {
    k < |s.closes| && s.closes[k] == c
  }

  /** The guards are those of the lock, the once and the consumer. Sending and closing have none. */
  predicate Enabled(s: State, step: Step) {
    match step
    case StartReport => true
    case LockRead(k) => ReportAt(s, k, Outside) && s.writer.None?
    case TestClosed(k) => ReportAt(s, k, Reading)
    case Send(k) => ReportAt(s, k, Sending)
    case UnlockRead(k) => ReportAt(s, k, Reported)
    case StartClose => true
    case Enter(k) => CloseAt(s, k, Calling) && s.once == Fresh
    case Skip(k) => CloseAt(s, k, Calling) && s.once == Ran
    case Lock(k) => CloseAt(s, k, Inside) && s.writer.None? && s.readers == {}
    case Flag(k) => CloseAt(s, k, Writing)
    case CloseChannel(k) => CloseAt(s, k, Flagged)
    case Unlock(k) => CloseAt(s, k, Shut)
    case Leave(k) => CloseAt(s, k, Unlocked)
    case Consume => s.buffer != []
  }

  function SetReport(s: State, k: nat, r: Report): (t: State)
    requires k < |s.reports|
  {
    s.(reports := s.reports[k := r])
  }

  function SetClose(s: State, k: nat, c: Closing): (t: State)
    requires k < |s.closes|
  {
    s.(closes := s.closes[k := c])
  }

  function Do(s: State, step: Step): (t: State)
    requires Enabled(s, step)
  {
    match step
    case StartReport => s.(reports := s.reports + [Outside])
    case LockRead(k) => SetReport(s, k, Reading).(readers := s.readers + {k})
    case TestClosed(k) => SetReport(s, k, if s.errorClosed then Reported else Sending)
    case Send(k) =>
      var t := SetReport(s, k, Reported);
      if |s.buffer| < CAPACITY then t.(buffer := s.buffer + [k], log := s.log + [Sent(k)]) else t
    case UnlockRead(k) => SetReport(s, k, Returned).(readers := s.readers - {k})
    case StartClose => s.(closes := s.closes + [Calling])
    case Enter(k) => SetClose(s, k, Inside).(once := Running(k), done := true)
    case Skip(k) => SetClose(s, k, Past)
    case Lock(k) => SetClose(s, k, Writing).(writer := Some(k))
    case Flag(k) => SetClose(s, k, Flagged).(errorClosed := true)
    case CloseChannel(k) => SetClose(s, k, Shut).(log := s.log + [ClosedChannel])
    case Unlock(k) => SetClose(s, k, Unlocked).(writer := None)
    case Leave(k) => SetClose(s, k, Past).(once := Ran)
    case Consume => s.(buffer := s.buffer[1..], log := s.log + [Received(s.buffer[0])])
  }

  // ------------------------------------------------------------ invariant

  ghost predicate Holds(c: Closing) {
    c.Writing? || c.Flagged? || c.Shut?
  }

  /** The lock is held by exactly those between locking and unlocking, never by both kinds. */
  ghost predicate Locks(s: State) {
    && (forall k :: 0 <= k < |s.reports| ==> (k in s.readers <==> !s.reports[k].Outside? && !s.reports[k].Returned?))
    && (forall k :: k in s.readers ==> k < |s.reports|)
    && (s.writer.Some? ==> s.readers == {})
  }

  ghost predicate Busy(c: Closing) {
    !c.Calling? && !c.Past?
  }

  /** The one close inside the once, when there is one, and what it has done so far. */
  ghost predicate Onces(s: State) {
    && (forall k :: 0 <= k < |s.closes| && Busy(s.closes[k]) ==> s.once == Running(k))
    && (forall k :: 0 <= k < |s.closes| && s.closes[k].Past? ==> s.once == Ran)
    && (s.once.Running? ==> s.once.runner < |s.closes| && Busy(s.closes[s.once.runner]))
    && s.done == !s.once.Fresh?
    && s.writer == (if s.once.Running? && Holds(s.closes[s.once.runner]) then Some(s.once.runner) else None)
    && s.errorClosed == (s.once.Ran? || (s.once.Running? && s.closes[s.once.runner] in {Flagged, Shut, Unlocked}))
    && (ClosedChannel in s.log) == (s.once.Ran? || (s.once.Running? && s.closes[s.once.runner] in {Shut, Unlocked}))
  }

  /** A report that is about to send has seen `errorClosed` unset, and it still is. */
  ghost predicate SafeToSend(s: State) {
    forall k :: 0 <= k < |s.reports| && s.reports[k].Sending? ==> !s.errorClosed
  }

  ghost predicate ClosedOnce(log: seq<Action>) {
    forall i, j :: 0 <= i < j < |log| && log[i].ClosedChannel? ==> !log[j].ClosedChannel?
  }

  ghost predicate NoSendAfterClose(log: seq<Action>) {
    forall i, j :: 0 <= i < j < |log| && log[i].ClosedChannel? ==> !log[j].Sent?
  }

  ghost predicate Inv(s: State) {
    Locks(s) && Onces(s) && SafeToSend(s) && History(s.log, s.buffer)
  }

  ghost predicate History(log: seq<Action>, buffer: seq<nat>) {
    && ClosedOnce(log) && NoSendAfterClose(log) && |buffer| <= CAPACITY
    && SentIn(log) == ReceivedIn(log) + buffer
  }

  ghost function SentIn(log: seq<Action>): (r: seq<nat>) {
    if log == [] then []
    else SentIn(log[..|log| - 1]) + (if log[|log| - 1].Sent? then [log[|log| - 1].report] else [])
  }

  ghost function ReceivedIn(log: seq<Action>): (r: seq<nat>) {
    if log == [] then []
    else ReceivedIn(log[..|log| - 1]) + (if log[|log| - 1].Received? then [log[|log| - 1].report] else [])
  }

  lemma Logged(log: seq<Action>, a: Action)
    ensures SentIn(log + [a]) == SentIn(log) + (if a.Sent? then [a.report] else [])
    ensures ReceivedIn(log + [a]) == ReceivedIn(log) + (if a.Received? then [a.report] else [])
  {
    assert (log + [a])[..|log|] == log;
  }

  lemma SentHistory(log: seq<Action>, buffer: seq<nat>, k: nat)
    requires History(log, buffer) && ClosedChannel !in log && |buffer| < CAPACITY
    ensures History(log + [Sent(k)], buffer + [k])
  {
    Logged(log, Sent(k));
  }

  lemma ReceivedHistory(log: seq<Action>, buffer: seq<nat>)
    requires History(log, buffer) && buffer != []
    ensures History(log + [Received(buffer[0])], buffer[1..])
  {
    Logged(log, Received(buffer[0]));
  }

  lemma ClosedHistory(log: seq<Action>, buffer: seq<nat>)
    requires History(log, buffer) && ClosedChannel !in log
    ensures History(log + [ClosedChannel], buffer)
  {
    Logged(log, ClosedChannel);
  }

  lemma ReportKeeps(s: State, step: Step)
    requires Inv(s) && Enabled(s, step)
    requires step.StartReport? || step.LockRead? || step.TestClosed? || step.UnlockRead?
    ensures Inv(Do(s, step))
  {
  }

  lemma SendKeeps(s: State, k: nat)
    requires Inv(s) && Enabled(s, Send(k))
    ensures Inv(Do(s, Send(k)))
  {
    if |s.buffer| < CAPACITY {
      SentHistory(s.log, s.buffer, k);
    }
  }

  lemma ConsumeKeeps(s: State)
    requires Inv(s) && Enabled(s, Consume)
    ensures Inv(Do(s, Consume))
  {
    ReceivedHistory(s.log, s.buffer);
  }

  lemma OnceKeeps(s: State, step: Step)
    requires Inv(s) && Enabled(s, step) && (step.StartClose? || step.Enter? || step.Skip? || step.Leave?)
    ensures Inv(Do(s, step))
  {
  }

  lemma WriterKeeps(s: State, step: Step)
    requires Inv(s) && Enabled(s, step) && (step.Lock? || step.Flag? || step.Unlock?)
    ensures Inv(Do(s, step))
  {
  }

  lemma CloseChannelKeeps(s: State, k: nat)
    requires Inv(s) && Enabled(s, CloseChannel(k))
    ensures Inv(Do(s, CloseChannel(k)))
  {
    ClosedHistory(s.log, s.buffer);
    assert ClosedChannel in Do(s, CloseChannel(k)).log;
  }

  lemma StepKeeps(s: State, step: Step)
    requires Inv(s) && Enabled(s, step)
    ensures Inv(Do(s, step))
  {
    match step
    case Send(k) => SendKeeps(s, k);
    case Consume => ConsumeKeeps(s);
    case CloseChannel(k) => CloseChannelKeeps(s, k);
    case StartReport => ReportKeeps(s, step);
    case LockRead(_) => ReportKeeps(s, step);
    case TestClosed(_) => ReportKeeps(s, step);
    case UnlockRead(_) => ReportKeeps(s, step);
    case Lock(_) => WriterKeeps(s, step);
    case Flag(_) => WriterKeeps(s, step);
    case Unlock(_) => WriterKeeps(s, step);
    case _ => OnceKeeps(s, step);
  }

  // ----------------------------------------------------------------- runs

  ghost predicate Run(states: seq<State>, steps: seq<Step>) {
    && |states| == |steps| + 1
    && states[0] == INITIAL
    && forall i :: 0 <= i < |steps| ==> Enabled(states[i], steps[i]) && states[i + 1] == Do(states[i], steps[i])
  }

  lemma {:induction false} RunKeeps(states: seq<State>, steps: seq<Step>, n: nat)
    requires Run(states, steps) && n < |states|
    ensures Inv(states[n])
  {
    if n > 0 {
      RunKeeps(states, steps, n - 1);
      StepKeeps(states[n - 1], steps[n - 1]);
    }
  }

  /**
   * In every state of every run: the channel was closed at most once, nothing was sent after it
   * was closed, at most ten reports are buffered, and what was sent is, in order, what was received
   * and then what is buffered. Once any `Close` has returned the channel is closed.
   */
  lemma NoSendAfterCloseEver(states: seq<State>, steps: seq<Step>, n: nat)
    requires Run(states, steps) && n < |states|
    ensures var s := states[n];
            && ClosedOnce(s.log) && NoSendAfterClose(s.log)
            && |s.buffer| <= CAPACITY
            && SentIn(s.log) == ReceivedIn(s.log) + s.buffer
            && ((exists k :: 0 <= k < |s.closes| && s.closes[k].Past?) ==> ClosedChannel in s.log)
  {
    RunKeeps(states, steps, n);
  }

  /** The steps of calls already begun; the consumer need not run for these to go on. */
  predicate Internal(step: Step) {
    !step.StartReport? && !step.StartClose? && !step.Consume?
  }

  ghost predicate Idle(s: State) {
    && (forall k :: 0 <= k < |s.reports| ==> s.reports[k].Returned?)
    && (forall k :: 0 <= k < |s.closes| ==> s.closes[k].Past?)
  }

  /** No deadlock: unless every call has returned, one of them can take a step, even if nobody consumes. */
  lemma NoDeadlock(states: seq<State>, steps: seq<Step>, n: nat) returns (step: Step)
    requires Run(states, steps) && n < |states| && !Idle(states[n])
    ensures Internal(step) && Enabled(states[n], step)
  {
    RunKeeps(states, steps, n);
    var s := states[n];
    if k: nat :| k < |s.reports| && !s.reports[k].Returned? && !s.reports[k].Outside? {
      step := ReportStep(s.reports[k], k);
    } else if s.once.Running? {
      assert s.readers == {};
      step := CloseStep(s.closes[s.once.runner], s.once.runner);
    } else if k: nat :| k < |s.reports| && s.reports[k].Outside? {
      step := LockRead(k);
    } else {
      var k: nat :| k < |s.closes| && !s.closes[k].Past?;
      step := if s.once.Fresh? then Enter(k) else Skip(k);
    }
  }

  /** The next step of a report holding the lock, and of the close inside the once. */
  function ReportStep(r: Report, k: nat): (step: Step) {
    if r.Reading? then TestClosed(k) else if r.Sending? then Send(k) else UnlockRead(k)
  }

  function CloseStep(c: Closing, k: nat): (step: Step) {
    if c.Inside? then Lock(k)
    else if c.Writing? then Flag(k)
    else if c.Flagged? then CloseChannel(k)
    else if c.Shut? then Unlock(k)
    else Leave(k)
  }

  // ------------------------------------------------------------ what is sent

  /** The report tested `errorClosed` and found it unset. */
  ghost predicate TestedOpen(states: seq<State>, steps: seq<Step>, n: nat, k: nat)
    requires Run(states, steps) && n <= |steps|
  {
    exists i :: 0 <= i < n && steps[i] == TestClosed(k) && !states[i].errorClosed
  }

  /** The report's send found room in the buffer. */
  ghost predicate FoundRoom(states: seq<State>, steps: seq<Step>, n: nat, k: nat)
    requires Run(states, steps) && n <= |steps|
  {
    exists i :: 0 <= i < n && steps[i] == Send(k) && |states[i].buffer| < 10
  }

  /** How far a report is, and what it has done. */
  ghost predicate Fate(r: Report, tested: bool, tried: bool, room: bool, sent: bool) {
    match r
    case Outside => !tested && !tried && !room && !sent
    case Reading => !tested && !tried && !room && !sent
    case Sending => tested && !tried && !room && !sent
    case _ => tested == tried && room == sent && (room ==> tried)
  }

  ghost predicate Fates(states: seq<State>, steps: seq<Step>, n: nat)
    requires Run(states, steps) && n <= |steps|
  {
    && (forall k: nat :: k < |states[n].reports| ==>
          Fate(states[n].reports[k], TestedOpen(states, steps, n, k), Send(k) in steps[..n],
               FoundRoom(states, steps, n, k), Sent(k) in states[n].log))
    && (forall k: nat :: k >= |states[n].reports| ==>
          !TestedOpen(states, steps, n, k) && Send(k) !in steps[..n]
          && !FoundRoom(states, steps, n, k) && Sent(k) !in states[n].log)
  }

  lemma TestedNext(states: seq<State>, steps: seq<Step>, n: nat, k: nat)
    requires Run(states, steps) && n < |steps|
    ensures TestedOpen(states, steps, n + 1, k) <==>
              TestedOpen(states, steps, n, k) || (steps[n] == TestClosed(k) && !states[n].errorClosed)
    ensures FoundRoom(states, steps, n + 1, k) <==>
              FoundRoom(states, steps, n, k) || (steps[n] == Send(k) && |states[n].buffer| < 10)
    ensures Send(k) in steps[..n + 1] <==> Send(k) in steps[..n] || steps[n] == Send(k)
  {
    assert steps[..n + 1] == steps[..n] + [steps[n]];
    if TestedOpen(states, steps, n + 1, k) {
      var i :| 0 <= i < n + 1 && steps[i] == TestClosed(k) && !states[i].errorClosed;
      assert i < n || i == n;
    }
    if FoundRoom(states, steps, n + 1, k) {
      var i :| 0 <= i < n + 1 && steps[i] == Send(k) && |states[i].buffer| < 10;
      assert i < n || i == n;
    }
  }

  predicate OfReport(step: Step, k: nat) {
    step == LockRead(k) || step == TestClosed(k) || step == Send(k) || step == UnlockRead(k)
  }

  lemma OtherReport(s: State, step: Step, k: nat)
    requires Enabled(s, step) && k < |s.reports| && !OfReport(step, k)
    ensures k < |Do(s, step).reports| && Do(s, step).reports[k] == s.reports[k]
    ensures Sent(k) in Do(s, step).log <==> Sent(k) in s.log
  {
  }

  lemma NoReport(s: State, step: Step, k: nat)
    requires Enabled(s, step) && k >= |s.reports|
    ensures !OfReport(step, k) && (Sent(k) in Do(s, step).log <==> Sent(k) in s.log)
    ensures |s.reports| <= |Do(s, step).reports|
    ensures k < |Do(s, step).reports| ==> Do(s, step).reports[k] == Outside
  {
  }

  lemma OwnReport(s: State, step: Step, k: nat, tested: bool, tried: bool, room: bool)
    requires Enabled(s, step) && OfReport(step, k) && k < |s.reports|
    requires Fate(s.reports[k], tested, tried, room, Sent(k) in s.log)
    ensures k < |Do(s, step).reports|
    ensures Fate(Do(s, step).reports[k], tested || (step == TestClosed(k) && !s.errorClosed), tried || step == Send(k),
                 room || (step == Send(k) && |s.buffer| < 10), Sent(k) in Do(s, step).log)
  {
  }

  lemma StepFates(states: seq<State>, steps: seq<Step>, n: nat, k: nat)
    requires Run(states, steps) && n < |steps| && Fates(states, steps, n)
    ensures if k < |states[n + 1].reports|
            then Fate(states[n + 1].reports[k], TestedOpen(states, steps, n + 1, k), Send(k) in steps[..n + 1],
                      FoundRoom(states, steps, n + 1, k), Sent(k) in states[n + 1].log)
            else !TestedOpen(states, steps, n + 1, k) && Send(k) !in steps[..n + 1]
                 && !FoundRoom(states, steps, n + 1, k) && Sent(k) !in states[n + 1].log
  {
    TestedNext(states, steps, n, k);
    assert Enabled(states[n], steps[n]) && states[n + 1] == Do(states[n], steps[n]);
    if k >= |states[n].reports| {
      NoReport(states[n], steps[n], k);
    } else if OfReport(steps[n], k) {
      OwnReport(states[n], steps[n], k, TestedOpen(states, steps, n, k), Send(k) in steps[..n],
                FoundRoom(states, steps, n, k));
    } else {
      OtherReport(states[n], steps[n], k);
    }
  }

  lemma {:induction false} RunFates(states: seq<State>, steps: seq<Step>, n: nat)
    requires Run(states, steps) && n <= |steps|
    ensures Fates(states, steps, n)
  {
    if n > 0 {
      RunFates(states, steps, n - 1);
      forall k: nat
        ensures if k < |states[n].reports|
                then Fate(states[n].reports[k], TestedOpen(states, steps, n, k), Send(k) in steps[..n],
                          FoundRoom(states, steps, n, k), Sent(k) in states[n].log)
                else !TestedOpen(states, steps, n, k) && Send(k) !in steps[..n]
                     && !FoundRoom(states, steps, n, k) && Sent(k) !in states[n].log
      {
        StepFates(states, steps, n - 1, k);
      }
    }
  }

  /**
   * What reporting comes to, in every run: a report that has returned tried to send exactly when it
   * found the channel not yet marked closed, and its error was sent exactly when it then found
   * fewer than ten buffered.
   */
  lemma ReportIsSent(states: seq<State>, steps: seq<Step>, n: nat, k: nat)
    requires Run(states, steps) && n <= |steps| && k < |states[n].reports| && states[n].reports[k].Returned?
    ensures (exists i :: 0 <= i < n && steps[i] == TestClosed(k) && !states[i].errorClosed) <==> Send(k) in steps[..n]
    ensures (exists i :: 0 <= i < n && steps[i] == Send(k) && |states[i].buffer| < 10) <==> Sent(k) in states[n].log
  {
    RunFates(states, steps, n);
    assert Fate(states[n].reports[k], TestedOpen(states, steps, n, k), Send(k) in steps[..n],
                FoundRoom(states, steps, n, k), Sent(k) in states[n].log);
  }

  lemma FlagMarks(s: State, step: Step)
    requires Enabled(s, step)
    ensures Do(s, step).errorClosed <==> s.errorClosed || step.Flag?
  {
  }

  /** The channel is marked closed exactly when some close has come to that. */
  lemma {:induction false} MarkedByClose(states: seq<State>, steps: seq<Step>, n: nat)
    requires Run(states, steps) && n <= |steps|
    ensures states[n].errorClosed <==> exists i :: 0 <= i < n && steps[i].Flag?
  {
    if n > 0 {
      MarkedByClose(states, steps, n - 1);
      FlagMarks(states[n - 1], steps[n - 1]);
    }
  }
}
