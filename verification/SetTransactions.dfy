/** Histories of set transactions (section 7.2.4 of RFC 2741) over whole runs of a session. */
module SetTransactions {
  import opened Wire
  import opened Sessions
  import opened SessionAnswers
  import H = Headers
  import P = Packets

  /** One request a session handles, and how the handler behaves on it. */
  datatype Event = Event(header: H.Header, packet: P.Packet, oracle: Oracle)

  /** The bindings remembered after a run; reconnecting does not clear them, so a run may span it. */
  function Remembered(kind: Kind, events: seq<Event>): (pending: Pending) {
    if events == [] then map[]
    else
      var before := Remembered(kind, events[..|events| - 1]);
      var e := events[|events| - 1];
      Handle(kind, before, e.header, e.packet, e.oracle).pending
  }

  /** What the session does on event `i` of a run. */
  function At(kind: Kind, events: seq<Event>, i: nat): (o: Outcome)
    requires i < |events|
  {
    Handle(kind, Remembered(kind, events[..i]), events[i].header, events[i].packet, events[i].oracle)
  }

  // -------------------------------------------------------------- history

  /** A TestSet of `t` that the handler accepted in full. */
  ghost predicate Accepts(e: Event, t: u32) {
    && e.packet.TestSet? && e.header.transactionID == t
    && NoFailure(SetFails(e.oracle), |e.packet.variables|)
  }

  ghost predicate Cleans(e: Event, t: u32) {
    e.packet.CleanupSet? && e.header.transactionID == t
  }

  /** Event `i` is the most recent fully accepted TestSet of `t`, and no CleanupSet of `t` came since. */
  ghost predicate Current(events: seq<Event>, t: u32, i: nat) {
    && i < |events| && Accepts(events[i], t)
    && forall k :: i < k < |events| ==> !Accepts(events[k], t) && !Cleans(events[k], t)
  }

  lemma StepRemembers(pending: Pending, e: Event, t: u32)
    ensures var after := Handle(TwoPhase, pending, e.header, e.packet, e.oracle).pending;
            && (Accepts(e, t) ==> t in after && after[t] == Requests(e.packet.variables))
            && (Cleans(e, t) ==> t !in after)
            && (!Accepts(e, t) && !Cleans(e, t) ==>
                  (t in after <==> t in pending) && (t in pending ==> after[t] == pending[t]))
  {
  }

  /** What is remembered for `t` is exactly its most recent fully accepted TestSet not yet cleaned up. */
  lemma {:induction false} RememberedIsCurrent(events: seq<Event>, t: u32)
    ensures t in Remembered(TwoPhase, events) <==> exists i: nat :: Current(events, t, i)
    ensures forall i: nat :: Current(events, t, i) ==>
              t in Remembered(TwoPhase, events)
              && Remembered(TwoPhase, events)[t] == Requests(events[i].packet.variables)
  {
    if events != [] {
      var n := |events| - 1;
      var before, e := events[..n], events[n];
      RememberedIsCurrent(before, t);
      StepRemembers(Remembered(TwoPhase, before), e, t);
      if Accepts(e, t) {
        assert Current(events, t, n);
      } else if !Cleans(e, t) {
        CurrentBefore(events, t);
        if t in Remembered(TwoPhase, before) {
          var i: nat :| Current(before, t, i);
          assert Current(events, t, i);
        }
      }
    }
  }

  lemma CurrentBefore(events: seq<Event>, t: u32)
    requires events != []
    requires !Accepts(events[|events| - 1], t) && !Cleans(events[|events| - 1], t)
    ensures forall i: nat :: Current(events, t, i) ==>
              Current(events[..|events| - 1], t, i) && events[..|events| - 1][i] == events[i]
    ensures forall i: nat :: Current(events[..|events| - 1], t, i) ==> Current(events, t, i)
  {
    var before := events[..|events| - 1];
    assert forall k :: 0 <= k < |before| ==> before[k] == events[k];
  }

  /**
   * In any interleaving of transactions, a CommitSet or UndoSet of `t` calls the handler exactly
   * once, with the ordered bindings of the most recent fully accepted TestSet of `t` since its
   * last CleanupSet, unless there is none or it is empty, when the handler is not called.
   */
  lemma SecondPhaseCalls(events: seq<Event>, n: nat)
    requires n < |events| && (events[n].packet.CommitSet? || events[n].packet.UndoSet?)
    ensures var t, calls := events[n].header.transactionID, At(TwoPhase, events, n).calls;
            && (forall i: nat :: Current(events[..n], t, i) && events[i].packet.variables != [] ==>
                  var requests := Requests(events[i].packet.variables);
                  calls == [if events[n].packet.CommitSet? then CallCommitSet(requests) else CallUndoSet(requests)])
            && ((forall i: nat :: Current(events[..n], t, i) ==> events[i].packet.variables == []) ==> calls == [])
  {
    var t := events[n].header.transactionID;
    RememberedIsCurrent(events[..n], t);
    if t in Remembered(TwoPhase, events[..n]) {
      var i: nat :| Current(events[..n], t, i);
      assert events[..n][i] == events[i];
    }
  }

  /**
   * What is answered: no error when the handler is not called or accepts, commitFailed, 14, when
   * it rejects a CommitSet and undoFailed, 15, when it rejects an UndoSet.
   */
  lemma SecondPhaseAnswers(kind: Kind, events: seq<Event>, n: nat)
    requires n < |events| && (events[n].packet.CommitSet? || events[n].packet.UndoSet?)
    ensures var o, e := At(kind, events, n), events[n];
            && o.reply.Some? && |o.calls| <= 1
            && (o.calls == [] || e.oracle.verdict(0).Accept? ==> IsError(o.reply.value.packet, 0, 0))
            && (o.calls != [] && e.oracle.verdict(0).Reject? ==>
                  IsError(o.reply.value.packet, if e.packet.CommitSet? then 14 else 15, 0))
  {
  }

  lemma SecondPhaseOnlyCalls(kind: Kind, pending: Pending, h: H.Header, oracle: Oracle, commit: bool)
    ensures forall c :: c in HandleSecondPhase(kind, pending, h, oracle, commit).calls ==>
              kind == TwoPhase && (if commit then c.CallCommitSet? else c.CallUndoSet?)
  {
  }

  lemma FirstPhaseNeverCommits(kind: Kind, pending: Pending, e: Event)
    requires !e.packet.CommitSet? && !e.packet.UndoSet?
    ensures forall c :: c in Handle(kind, pending, e.header, e.packet, e.oracle).calls ==>
              !c.CallCommitSet? && !c.CallUndoSet?
  {
  }

  /** Only CommitSet and UndoSet requests reach the handler's second phase. */
  lemma OnlySecondPhaseCommits(events: seq<Event>, n: nat, kind: Kind)
    requires n < |events|
    ensures forall c :: c in At(kind, events, n).calls && (c.CallCommitSet? || c.CallUndoSet?) ==>
              kind == TwoPhase && (if c.CallCommitSet? then events[n].packet.CommitSet? else events[n].packet.UndoSet?)
  {
    var e, before := events[n], Remembered(kind, events[..n]);
    if e.packet.CommitSet? || e.packet.UndoSet? {
      SecondPhaseOnlyCalls(kind, before, e.header, e.oracle, e.packet.CommitSet?);
    } else {
      FirstPhaseNeverCommits(kind, before, e);
    }
  }

  // --------------------------------------------------------- independence

  /** The events of one transaction. */
  function Only(events: seq<Event>, t: u32): (own: seq<Event>) {
    if events == [] then []
    else
      var e := events[|events| - 1];
      Only(events[..|events| - 1], t) + (if e.header.transactionID == t then [e] else [])
  }

  lemma OnlyStep(events: seq<Event>, t: u32)
    requires events != []
    ensures var n := |events| - 1;
            var own, before := Only(events, t), Only(events[..n], t);
            if events[n].header.transactionID == t
            then own != [] && own[|own| - 1] == events[n] && own[..|own| - 1] == before
            else own == before
  {
  }

  /** What the session does for one transaction, event by event: its replies and handler calls. */
  datatype Act = Act(reply: Option<Reply>, calls: seq<Call>)

  function Acts(kind: Kind, events: seq<Event>, t: u32): (acts: seq<Act>) {
    if events == [] then []
    else
      var n := |events| - 1;
      var o := At(kind, events, n);
      Acts(kind, events[..n], t) + (if events[n].header.transactionID == t then [Act(o.reply, o.calls)] else [])
  }

  lemma StepKeepsOthers(kind: Kind, pending: Pending, e: Event, t: u32)
    requires e.header.transactionID != t
    ensures SameFor(Handle(kind, pending, e.header, e.packet, e.oracle).pending, pending, t)
  {
  }

  ghost predicate SameFor(a: Pending, b: Pending, t: u32) {
    (t in a <==> t in b) && (t in a ==> a[t] == b[t])
  }

  ghost predicate SameOutcome(x: Outcome, y: Outcome, t: u32) {
    x.reply == y.reply && x.calls == y.calls && SameFor(x.pending, y.pending, t)
  }

  lemma SecondPhaseDependsOnOwn(kind: Kind, a: Pending, b: Pending, h: H.Header, oracle: Oracle, commit: bool)
    requires SameFor(a, b, h.transactionID)
    ensures SameOutcome(HandleSecondPhase(kind, a, h, oracle, commit), HandleSecondPhase(kind, b, h, oracle, commit),
                        h.transactionID)
  {
  }

  lemma FirstPhaseDependsOnOwn(kind: Kind, a: Pending, b: Pending, e: Event)
    requires SameFor(a, b, e.header.transactionID) && !e.packet.CommitSet? && !e.packet.UndoSet?
    ensures SameOutcome(Handle(kind, a, e.header, e.packet, e.oracle), Handle(kind, b, e.header, e.packet, e.oracle),
                        e.header.transactionID)
  {
  }

  lemma StepDependsOnOwn(kind: Kind, a: Pending, b: Pending, e: Event)
    requires SameFor(a, b, e.header.transactionID)
    ensures SameOutcome(Handle(kind, a, e.header, e.packet, e.oracle), Handle(kind, b, e.header, e.packet, e.oracle),
                        e.header.transactionID)
  {
    if e.packet.CommitSet? || e.packet.UndoSet? {
      SecondPhaseDependsOnOwn(kind, a, b, e.header, e.oracle, e.packet.CommitSet?);
    } else {
      FirstPhaseDependsOnOwn(kind, a, b, e);
    }
  }

  lemma {:induction false} RememberedForOwn(kind: Kind, events: seq<Event>, t: u32)
    ensures SameFor(Remembered(kind, events), Remembered(kind, Only(events, t)), t)
  {
    if events != [] {
      var n := |events| - 1;
      var before, e := events[..n], events[n];
      RememberedForOwn(kind, before, t);
      OnlyStep(events, t);
      if e.header.transactionID == t {
        StepDependsOnOwn(kind, Remembered(kind, before), Remembered(kind, Only(before, t)), e);
      } else {
        StepKeepsOthers(kind, Remembered(kind, before), e, t);
      }
    }
  }

  /**
   * Transactions do not interfere: the replies and handler calls for `t` in any run equal those
   * of the run with every other transaction left out.
   */
  lemma {:induction false} TransactionsIndependent(kind: Kind, events: seq<Event>, t: u32)
    ensures Acts(kind, events, t) == Acts(kind, Only(events, t), t)
  {
    if events != [] {
      var n := |events| - 1;
      var before, e := events[..n], events[n];
      TransactionsIndependent(kind, before, t);
      OnlyStep(events, t);
      if e.header.transactionID == t {
        RememberedForOwn(kind, before, t);
        StepDependsOnOwn(kind, Remembered(kind, before), Remembered(kind, Only(before, t)), e);
      }
    }
  }
}
