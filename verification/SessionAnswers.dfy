/** What each kind of request is answered, with the numbers of RFC 2741 and of SNMP written out. */
module SessionAnswers {
  import opened Wire
  import opened Sessions
  import Oids
  import H = Headers
  import OI = ObjectIdentifiers
  import P = Packets
  import SR = SearchRanges
  import VB = VarBinds

  /** The code a failure is reported with: the handler's own, unless that is none, and genErr otherwise. */
  ghost predicate Reports(error: u16, failure: Failure) {
    if failure.code.Some? && failure.code.value != 0 then error == failure.code.value else error == 5
  }

  /** A response without bindings. */
  ghost predicate IsError(p: P.Packet, error: u16, index: u16) {
    p == P.Response(0, error, index, [])
  }

  /** The response to a request whose j-th part was the first to fail. */
  ghost predicate FailedAt(p: P.Packet, j: nat, failure: Failure) {
    p.Response? && Reports(p.error, failure) && IsError(p, p.error, (j + 1) % 0x1_0000)
  }

  // ----------------------------------------------------------- Get, GetNext

  ghost predicate RangeFails(kind: Kind, oracle: Oracle, k: nat) {
    kind != NoHandler && oracle.answer(k).Failed?
  }

  ghost predicate FirstRange(kind: Kind, oracle: Oracle, n: nat, j: nat) {
    j < n && RangeFails(kind, oracle, j) && forall k: nat :: k < j ==> !RangeFails(kind, oracle, k)
  }

  ghost predicate NoRangeFails(kind: Kind, oracle: Oracle, n: nat) {
    forall k: nat :: k < n ==> !RangeFails(kind, oracle, k)
  }

  /** The binding for a range: what the handler names, or the OID asked for and an exception. */
  ghost predicate Binds(v: VB.Variable, kind: Kind, a: GetAnswer, requested: Oids.OID, exception: u16) {
    if kind != NoHandler && a.Named? then v == VB.Variable(a.typ, OI.ObjectIdentifier(0, 0, a.oid), a.value)
    else v == VB.Variable(exception, OI.ObjectIdentifier(0, 0, requested), VB.Nil)
  }

  ghost predicate AllBound(kind: Kind, ranges: seq<SR.Range>, oracle: Oracle, p: P.Packet, calls: nat, exception: u16) {
    && p.Response? && p.upTime == 0 && p.error == 0 && p.index == 0 && |p.variables| == |ranges|
    && calls == (if kind == NoHandler then 0 else |ranges|)
    && forall k: nat :: k < |ranges| ==>
         Binds(p.variables[k], kind, oracle.answer(k), ranges[k].start.GetIdentifier(), exception)
  }

  /** How ranges are answered: `exception` is what stands for a name the handler does not have. */
  ghost predicate RangesReplied(kind: Kind, ranges: seq<SR.Range>, oracle: Oracle, p: P.Packet, calls: nat,
                                exception: u16)
  {
    && (NoRangeFails(kind, oracle, |ranges|) ==> AllBound(kind, ranges, oracle, p, calls, exception))
    && forall j: nat :: FirstRange(kind, oracle, |ranges|, j) ==>
         FailedAt(p, j, oracle.answer(j).failure) && calls == j + 1
  }

  lemma ReachedRange(kind: Kind, oracle: Oracle, n: nat)
    ensures var j := Reached(GetFails(kind, oracle), 0, n);
            && (j == n <==> NoRangeFails(kind, oracle, n))
            && forall f: nat :: FirstRange(kind, oracle, n, f) ==> f == j < n
  {
    var j := Reached(GetFails(kind, oracle), 0, n);
    forall k: nat
      ensures GetFails(kind, oracle)(k) == RangeFails(kind, oracle, k)
    {
    }
    assert j < n ==> RangeFails(kind, oracle, j);
    forall f: nat | FirstRange(kind, oracle, n, f)
      ensures f == j < n
    {
      assert f < j ==> !RangeFails(kind, oracle, f);
    }
  }

  lemma RangesReply(kind: Kind, next: bool, h: H.Header, ranges: seq<SR.Range>, oracle: Oracle)
    ensures var r := HandleRanges(kind, next, h, ranges, oracle);
            RangesReplied(kind, ranges, oracle, r.0.packet, |r.1|, if next then 130 else 128)
  {
    ReachedRange(kind, oracle, |ranges|);
    if NoRangeFails(kind, oracle, |ranges|) {
      AllRangesBound(kind, next, h, ranges, oracle);
    } else {
      FirstRangeFails(kind, next, h, ranges, oracle);
    }
  }

  lemma AllRangesBound(kind: Kind, next: bool, h: H.Header, ranges: seq<SR.Range>, oracle: Oracle)
    requires Reached(GetFails(kind, oracle), 0, |ranges|) == |ranges|
    ensures var r := HandleRanges(kind, next, h, ranges, oracle);
            AllBound(kind, ranges, oracle, r.0.packet, |r.1|, if next then 130 else 128)
  {
    var p := HandleRanges(kind, next, h, ranges, oracle).0.packet;
    forall k: nat | k < |ranges|
      ensures Binds(p.variables[k], kind, oracle.answer(k), ranges[k].start.GetIdentifier(), if next then 130 else 128)
    {
      RangeBound(kind, next, ranges[k], oracle, k);
    }
  }

  lemma RangeBound(kind: Kind, next: bool, r: SR.Range, oracle: Oracle, k: nat)
    ensures Binds(RangeBinding(next, r, AnswerFor(kind, oracle, k)), kind, oracle.answer(k),
                  r.start.GetIdentifier(), if next then 130 else 128)
  {
  }

  lemma FirstRangeFails(kind: Kind, next: bool, h: H.Header, ranges: seq<SR.Range>, oracle: Oracle)
    requires Reached(GetFails(kind, oracle), 0, |ranges|) < |ranges|
    ensures var r, j := HandleRanges(kind, next, h, ranges, oracle), Reached(GetFails(kind, oracle), 0, |ranges|);
            FailedAt(r.0.packet, j, oracle.answer(j).failure) && |r.1| == j + 1
  {
  }

  lemma RangeCalls(kind: Kind, next: bool, h: H.Header, ranges: seq<SR.Range>, oracle: Oracle)
    ensures var calls := HandleRanges(kind, next, h, ranges, oracle).1;
            && |calls| <= |ranges|
            && forall k :: 0 <= k < |calls| ==>
                 calls[k] == if next then CallGetNext(ranges[k].start.GetIdentifier(), ranges[k].start.incl != 0,
                                                      ranges[k].ending.GetIdentifier())
                             else CallGet(ranges[k].start.GetIdentifier())
  {
  }

  lemma HandlingRanges(kind: Kind, pending: Pending, h: H.Header, ranges: seq<SR.Range>, oracle: Oracle)
    ensures var r := HandleRanges(kind, false, h, ranges, oracle);
            Handle(kind, pending, h, P.Get(ranges), oracle) == Outcome(Some(r.0), pending, r.1)
    ensures var r := HandleRanges(kind, true, h, ranges, oracle);
            Handle(kind, pending, h, P.GetNext(ranges), oracle) == Outcome(Some(r.0), pending, r.1)
  {
  }

  /**
   * A Get asks the handler for the OID each range starts with, and answers noSuchObject, 128, for
   * one it does not name.
   */
  lemma GetIsAnswered(kind: Kind, pending: Pending, h: H.Header, ranges: seq<SR.Range>, oracle: Oracle)
    ensures var o := Handle(kind, pending, h, P.Get(ranges), oracle);
            && o.pending == pending && o.reply.Some? && |o.calls| <= |ranges|
            && RangesReplied(kind, ranges, oracle, o.reply.value.packet, |o.calls|, 128)
            && forall k :: 0 <= k < |o.calls| ==> o.calls[k] == CallGet(ranges[k].start.GetIdentifier())
  {
    HandlingRanges(kind, pending, h, ranges, oracle);
    RangesReply(kind, false, h, ranges, oracle);
    RangeCalls(kind, false, h, ranges, oracle);
  }

  /**
   * A GetNext asks for the first OID after the start, or from the start if that is included, and
   * before the end, and answers endOfMibView, 130, if the handler names none.
   */
  lemma GetNextIsAnswered(kind: Kind, pending: Pending, h: H.Header, ranges: seq<SR.Range>, oracle: Oracle)
    ensures var o := Handle(kind, pending, h, P.GetNext(ranges), oracle);
            && o.pending == pending && o.reply.Some? && |o.calls| <= |ranges|
            && RangesReplied(kind, ranges, oracle, o.reply.value.packet, |o.calls|, 130)
            && forall k :: 0 <= k < |o.calls| ==>
                 o.calls[k] == CallGetNext(ranges[k].start.GetIdentifier(), ranges[k].start.incl != 0,
                                           ranges[k].ending.GetIdentifier())
  {
    HandlingRanges(kind, pending, h, ranges, oracle);
    RangesReply(kind, true, h, ranges, oracle);
    RangeCalls(kind, true, h, ranges, oracle);
  }

  // ---------------------------------------------------------------- TestSet

  ghost predicate FirstRejected(oracle: Oracle, n: nat, j: nat) {
    j < n && oracle.verdict(j).Reject? && forall k: nat :: k < j ==> oracle.verdict(k).Accept?
  }

  ghost predicate NoneRejected(oracle: Oracle, n: nat) {
    forall k: nat :: k < n ==> oracle.verdict(k).Accept?
  }

  /** The request the handler gets for a binding. */
  ghost predicate Asks(r: SetRequest, v: VB.Variable) {
    r.oid == v.name.GetIdentifier() && r.typ == v.typ && r.value == v.value
  }

  ghost predicate AsksAll(rs: seq<SetRequest>, vs: seq<VB.Variable>) {
    |rs| == |vs| && forall k :: 0 <= k < |vs| ==> Asks(rs[k], vs[k])
  }

  /** A two-phase handler is asked to test a binding, any other to set it. */
  ghost predicate SetCalls(kind: Kind, calls: seq<Call>, vs: seq<VB.Variable>) {
    && |calls| <= |vs|
    && forall k :: 0 <= k < |calls| ==>
         if kind == TwoPhase then calls[k].CallTestSet? && Asks(calls[k].request, vs[k])
         else calls[k].CallSet? && Asks(calls[k].request, vs[k])
  }

  lemma ReachedReject(oracle: Oracle, n: nat)
    ensures var j := Reached(SetFails(oracle), 0, n);
            && (j == n <==> NoneRejected(oracle, n))
            && forall f: nat :: FirstRejected(oracle, n, f) ==> f == j < n
  {
    var j := Reached(SetFails(oracle), 0, n);
    assert forall k: nat :: SetFails(oracle)(k) == oracle.verdict(k).Reject?;
    assert j < n ==> oracle.verdict(j).Reject?;
    forall f: nat | FirstRejected(oracle, n, f)
      ensures f == j < n
    {
      assert f < j ==> oracle.verdict(f).Accept?;
    }
  }

  lemma TestSetReply(kind: Kind, h: H.Header, vs: seq<VB.Variable>, oracle: Oracle)
    requires kind != NoHandler
    ensures var r := HandleTestSet(kind, h, Requests(vs), oracle);
            && SetCalls(kind, r.1, vs)
            && (NoneRejected(oracle, |vs|) ==> IsError(r.0.packet, 0, 0) && |r.1| == |vs|)
            && forall j: nat :: FirstRejected(oracle, |vs|, j) ==>
                 FailedAt(r.0.packet, j, oracle.verdict(j).failure) && |r.1| == j + 1
  {
    ReachedReject(oracle, |vs|);
  }

  lemma HandlingTestSet(kind: Kind, pending: Pending, h: H.Header, vs: seq<VB.Variable>, oracle: Oracle)
    requires kind != NoHandler
    ensures var o, r := Handle(kind, pending, h, P.TestSet(vs), oracle), HandleTestSet(kind, h, Requests(vs), oracle);
            && o.reply == Some(r.0) && o.calls == r.1
            && o.pending == if kind == TwoPhase && NoneRejected(oracle, |vs|)
                            then pending[h.transactionID := Requests(vs)] else pending
  {
    ReachedReject(oracle, |vs|);
  }

  /**
   * A TestSet goes to the handler binding by binding up to the first it rejects, and is answered
   * with that failure or none. The bindings are remembered if none is rejected, by a two-phase
   * session only.
   */
  lemma TestSetIsAnswered(kind: Kind, pending: Pending, h: H.Header, vs: seq<VB.Variable>, oracle: Oracle)
    requires kind != NoHandler
    ensures var o := Handle(kind, pending, h, P.TestSet(vs), oracle);
            && o.reply.Some? && SetCalls(kind, o.calls, vs)
            && (NoneRejected(oracle, |vs|) ==> IsError(o.reply.value.packet, 0, 0) && |o.calls| == |vs|)
            && (forall j: nat :: FirstRejected(oracle, |vs|, j) ==>
                  FailedAt(o.reply.value.packet, j, oracle.verdict(j).failure) && |o.calls| == j + 1)
            && (if kind == TwoPhase && NoneRejected(oracle, |vs|)
                then exists rs :: AsksAll(rs, vs) && o.pending == pending[h.transactionID := rs]
                else o.pending == pending)
  {
    HandlingTestSet(kind, pending, h, vs, oracle);
    TestSetReply(kind, h, vs, oracle);
    assert AsksAll(Requests(vs), vs);
  }

  /** Without a handler it is refused with notWritable, 17. */
  lemma TestSetIsRefused(pending: Pending, h: H.Header, vs: seq<VB.Variable>, oracle: Oracle)
    ensures var o := Handle(NoHandler, pending, h, P.TestSet(vs), oracle);
            o.reply.Some? && IsError(o.reply.value.packet, 17, 0) && o.calls == [] && o.pending == pending
  {
  }

  /** Any other PDU is answered with genErr, 5, if its type is one of requests, and with processingError, 268. */
  lemma OthersAreRefused(kind: Kind, pending: Pending, h: H.Header, p: P.Packet, oracle: Oracle)
    requires !p.Get? && !p.GetNext? && !p.TestSet? && !p.CommitSet? && !p.UndoSet? && !p.CleanupSet?
    ensures var o := Handle(kind, pending, h, p, oracle);
            && o.pending == pending && o.calls == [] && o.reply.Some?
            && IsError(o.reply.value.packet, if 5 <= h.typ <= 11 then 5 else 268, 0)
  {
  }
}
