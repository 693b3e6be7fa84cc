/** What became of each call (client.go, `request`), from the steps that were taken for it. */
module CallOutcomes {
  import opened Wire
  import opened Correlation

  /** The steps that decide a call's outcome. */
  predicate Decides(step: Step, k: nat) {
    || step == Receive(k) || step == TimeOut(k) || step == NoticeClose(k)
    || step == RefuseTransmit(k) || step == FailEncode(k)
  }

  function OutcomeOf(c: Call): (o: Option<Outcome>) {
    match c.phase
    case Leaving(o) => Some(o)
    case Returned(o) => Some(o)
    case _ => None
  }

  /** How far a call is, and with what outcome, is what the steps taken for it say. */
  ghost predicate Traced(c: Call, past: seq<Step>, k: nat) {
    && (Register(k) in past <==> !c.phase.Allocated? && OutcomeOf(c) != Some(Unencodable))
    && (FailEncode(k) in past <==> OutcomeOf(c) == Some(Unencodable))
    && (Transmit(k) in past <==>
          c.phase.Waiting? || (OutcomeOf(c).Some? && OutcomeOf(c) != Some(Unencodable) && RefuseTransmit(k) !in past))
    && (Receive(k) in past <==> OutcomeOf(c).Some? && OutcomeOf(c).value.Answered?)
    && (TimeOut(k) in past <==> OutcomeOf(c) == Some(TimedOut))
    && (NoticeClose(k) in past || RefuseTransmit(k) in past <==> OutcomeOf(c) == Some(ClientClosed))
    && (Finish(k) in past || FailEncode(k) in past <==> c.phase.Returned?)
  }

  /** No step was taken for a call not issued yet. */
  ghost predicate Untouched(past: seq<Step>, k: nat) {
    && Register(k) !in past && Transmit(k) !in past && Finish(k) !in past
    && Receive(k) !in past && TimeOut(k) !in past && NoticeClose(k) !in past
    && RefuseTransmit(k) !in past && FailEncode(k) !in past
  }

  /** What was sent to a call is on its channel, until the call takes it as its answer. */
  ghost predicate Held(s: State) {
    forall d :: d in s.log ==>
      d.call < |s.calls| && (s.calls[d.call].slot == Some(d.message) || AnswerOf(s.calls[d.call]) == Some(d.message))
  }

  ghost predicate Follows(s: State, past: seq<Step>) {
    && (forall k: nat :: k < |s.calls| ==> Traced(s.calls[k], past, k))
    && (forall k: nat :: k >= |s.calls| ==> Untouched(past, k))
    && (s.closed <==> Close in past)
    && Held(s)
  }

  predicate About(step: Step, k: nat) {
    Decides(step, k) || step == Register(k) || step == Transmit(k) || step == Finish(k)
  }

  lemma TracedElsewhere(c: Call, d: Call, past: seq<Step>, step: Step, k: nat)
    requires Traced(c, past, k) && !About(step, k) && d.phase == c.phase
    ensures Traced(d, past + [step], k)
  {
  }

  lemma UntouchedElsewhere(past: seq<Step>, step: Step, k: nat)
    requires Untouched(past, k) && !About(step, k)
    ensures Untouched(past + [step], k)
  {
  }

  /** A step taken for one call. */
  lemma TracedStep(s: State, past: seq<Step>, step: Step, k: nat)
    requires k < |s.calls| && Traced(s.calls[k], past, k) && About(step, k) && Enabled(s, step)
    ensures k < |Do(s, step).calls| && Traced(Do(s, step).calls[k], past + [step], k)
  {
  }

  /** The other calls are as they were. */
  lemma OthersStay(s: State, step: Step, j: nat)
    requires Enabled(s, step) && j < |s.calls| && !About(step, j)
    ensures j < |Do(s, step).calls| && Do(s, step).calls[j].phase == s.calls[j].phase
  {
  }

  lemma NewCall(s: State, past: seq<Step>)
    requires Untouched(past, |s.calls|)
    ensures Traced(Do(s, Issue).calls[|s.calls|], past + [Issue], |s.calls|)
  {
    UntouchedElsewhere(past, Issue, |s.calls|);
  }

  lemma CallFollows(s: State, past: seq<Step>, step: Step, k: nat)
    requires Follows(s, past) && Enabled(s, step) && k < |Do(s, step).calls|
    ensures Traced(Do(s, step).calls[k], past + [step], k)
  {
    if k == |s.calls| {
      NewCall(s, past);
    } else if About(step, k) {
      TracedStep(s, past, step, k);
    } else {
      OthersStay(s, step, k);
      TracedElsewhere(s.calls[k], Do(s, step).calls[k], past, step, k);
    }
  }

  /** A step concerns a call that was issued, and none is issued but by `Issue`. */
  lemma OnlyIssued(s: State, step: Step)
    requires Enabled(s, step)
    ensures |s.calls| <= |Do(s, step).calls|
    ensures forall k: nat :: About(step, k) ==> k < |s.calls|
    ensures Do(s, step).closed <==> s.closed || step == Close
  {
  }

  lemma HeldOn(s: State, step: Step)
    requires Held(s) && Enabled(s, step) && !step.Deliver? && !step.Receive?
    ensures Held(Do(s, step))
  {
  }

  lemma HeldDelivered(s: State)
    requires Held(s) && Enabled(s, Deliver)
    ensures Held(Do(s, Deliver))
  {
  }

  lemma HeldReceived(s: State, k: nat)
    requires Held(s) && Enabled(s, Receive(k))
    ensures Held(Do(s, Receive(k)))
  {
  }

  lemma StepFollows(s: State, past: seq<Step>, step: Step)
    requires Follows(s, past) && Enabled(s, step)
    ensures Follows(Do(s, step), past + [step])
  {
    var t := Do(s, step);
    OnlyIssued(s, step);
    forall k: nat | k < |t.calls|
      ensures Traced(t.calls[k], past + [step], k)
    {
      CallFollows(s, past, step, k);
    }
    forall k: nat | k >= |t.calls|
      ensures Untouched(past + [step], k)
    {
      UntouchedElsewhere(past, step, k);
    }
    match step
    case Deliver => HeldDelivered(s);
    case Receive(k) => HeldReceived(s, k);
    case _ => HeldOn(s, step);
  }

  lemma {:induction false} RunFollows(states: seq<State>, steps: seq<Step>, n: nat)
    requires Run(states, steps) && n < |states|
    ensures Follows(states[n], steps[..n])
  {
    if n > 0 {
      RunFollows(states, steps, n - 1);
      StepFollows(states[n - 1], steps[..n - 1], steps[n - 1]);
      assert steps[..n] == steps[..n - 1] + [steps[n - 1]];
    }
  }

  /**
   * What a call returns is what happened to it, in every run: its answer exactly when it received
   * one, which is what was sent to it; a timeout exactly when that fired; that the client is closed
   * exactly when it noticed the close, which took place, while waiting or while handing over its
   * request; and that the request cannot be encoded exactly when that failed.
   */
  lemma OutcomeIsWhatHappened(states: seq<State>, steps: seq<Step>, n: nat, k: nat)
    requires Run(states, steps) && n < |states| && k < |states[n].calls| && states[n].calls[k].phase.Returned?
    ensures var o, past, s := states[n].calls[k].phase.outcome, steps[..n], states[n];
            && (o.Answered? <==> Receive(k) in past)
            && (o.TimedOut? <==> TimeOut(k) in past)
            && (o.ClientClosed? <==> NoticeClose(k) in past || RefuseTransmit(k) in past)
            && (o.Unencodable? <==> FailEncode(k) in past)
            && (o.Answered? ==> Delivery(k, o.response) in s.log && o.response.packetID == s.calls[k].id)
            && (s.closed <==> Close in past)
  {
    RunFollows(states, steps, n);
    Correlated(states, steps, n);
    assert Traced(states[n].calls[k], steps[..n], k);
  }

  /** Nothing sent to a call is lost: it is on the call's channel or is the call's answer. */
  lemma DeliveredStays(states: seq<State>, steps: seq<Step>, n: nat, d: Delivery)
    requires Run(states, steps) && n < |states| && d in states[n].log
    ensures var s := states[n];
            && d.call < |s.calls|
            && (s.calls[d.call].slot == Some(d.message) || AnswerOf(s.calls[d.call]) == Some(d.message))
  {
    RunFollows(states, steps, n);
  }

  /** A close that nobody asked for is noticed by nobody. */
  lemma NoticedCloseHappened(states: seq<State>, steps: seq<Step>, n: nat, k: nat)
    requires Run(states, steps) && n < |steps| && (steps[n] == NoticeClose(k) || steps[n] == RefuseTransmit(k))
    ensures Close in steps[..n]
  {
    RunFollows(states, steps, n);
    assert Enabled(states[n], steps[n]);
  }

  /** Until it is decided, a call that transmitted its request waits, and takes what was sent to it if it can. */
  lemma UndecidedWaits(states: seq<State>, steps: seq<Step>, n: nat, k: nat)
    requires Run(states, steps) && n < |states| && k < |states[n].calls| && Transmit(k) in steps[..n]
    requires forall step :: Decides(step, k) ==> step !in steps[..n]
    ensures At(states[n], k, Waiting)
    ensures (exists d :: d in states[n].log && d.call == k) ==> Enabled(states[n], Receive(k))
  {
    RunFollows(states, steps, n);
    var c, past := states[n].calls[k], steps[..n];
    assert Traced(c, past, k);
    assert Decides(Receive(k), k) && Decides(TimeOut(k), k) && Decides(NoticeClose(k), k);
    assert Decides(RefuseTransmit(k), k) && Decides(FailEncode(k), k);
  }
}
