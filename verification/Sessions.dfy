/** Handling one session's requests (session.go): what is answered, called and remembered. */
module Sessions {
  import opened Wire
  import Oids
  import H = Headers
  import OI = ObjectIdentifiers
  import P = Packets
  import SR = SearchRanges
  import VB = VarBinds

  const ERROR_NONE: u16 := 0
  const GEN_ERR: u16 := 5
  const COMMIT_FAILED: u16 := 14
  const UNDO_FAILED: u16 := 15
  const NOT_WRITABLE: u16 := 17
  const NOT_OPEN: u16 := 257
  const PARSE_ERROR: u16 := 266
  const PROCESSING_ERROR: u16 := 268

  datatype SetRequest = SetRequest(oid: Oids.OID, typ: u16, value: VB.Value)

  /** A session may have no handler, one with `Set` only, or one implementing `SetHandler`. */
  datatype Kind = NoHandler | OnePhase | TwoPhase

  /** A handler's error: the `pdu.Error` it is or wraps, if any. */
  datatype Failure = Failure(code: Option<u16>)

  datatype GetAnswer =
    | Named(oid: Oids.OID, typ: u16, value: VB.Value)
    | Nothing
    | Failed(failure: Failure)

  datatype Verdict = Accept | Reject(failure: Failure)

  /**
   * What the handler does on a request: its answer to the j-th call it gets. Any handler, with
   * whatever state of its own, behaves on any one request as some oracle.
   */
  datatype Oracle = Oracle(answer: nat -> GetAnswer, verdict: nat -> Verdict)

  datatype Call =
    | CallGet(oid: Oids.OID)
    | CallGetNext(start: Oids.OID, includeStart: bool, ending: Oids.OID)
    | CallSet(request: SetRequest)
    | CallTestSet(request: SetRequest)
    | CallCommitSet(requests: seq<SetRequest>)
    | CallUndoSet(requests: seq<SetRequest>)

  type Pending = map<u32, seq<SetRequest>>

  datatype Reply = Reply(header: H.Header, packet: P.Packet)

  /** What handling a request comes to. */
  datatype Outcome = Outcome(reply: Option<Reply>, pending: Pending, calls: seq<Call>)

  function ErrorOr(failure: Failure, fallback: u16): (e: u16)
    requires fallback != ERROR_NONE
    ensures e != ERROR_NONE
    ensures failure.code.Some? && failure.code.value != ERROR_NONE ==> e == failure.code.value
    ensures failure.code.None? || failure.code.value == ERROR_NONE ==> e == fallback
  {
    if failure.code.Some? && failure.code.value != ERROR_NONE then failure.code.value else fallback
  }

  function UnsupportedError(typ: byte): (e: u16) {
    if P.GET <= typ <= P.CLEANUP_SET then GEN_ERR else PROCESSING_ERROR
  }

  function ReplyHeader(h: H.Header): (r: H.Header) {
    H.Header(0, 0, 0, h.sessionID, h.transactionID, h.packetID, 0)
  }

  function ErrorReply(h: H.Header, error: u16, index: u16): (r: Reply) {
    Reply(ReplyHeader(h), P.Response(0, error, index, []))
  }

  // ----------------------------------------------------------- Get, GetNext

  /** The call made for a range. */
  function RangeCall(next: bool, r: SR.Range): (c: Call) {
    if next then CallGetNext(r.start.GetIdentifier(), r.start.GetInclude(), r.ending.GetIdentifier())
    else CallGet(r.start.GetIdentifier())
  }

  /** The binding for a range: what the handler named, or the requested OID and an exception. */
  function RangeBinding(next: bool, r: SR.Range, a: GetAnswer): (v: VB.Variable) {
    if a.Named? then VB.Variable(a.typ, OI.Plain(a.oid), a.value)
    else VB.Variable(if next then VB.END_OF_MIB_VIEW else VB.NO_SUCH_OBJECT, OI.Plain(r.start.GetIdentifier()), VB.Nil)
  }

  /** Which calls for a range fail; without a handler there are none. */
  function GetFails(kind: Kind, oracle: Oracle): (fails: nat -> bool) {
    (k: nat) => kind != NoHandler && oracle.answer(k).Failed?
  }

  function SetFails(oracle: Oracle): (fails: nat -> bool) {
    (k: nat) => oracle.verdict(k).Reject?
  }

  function AnswerFor(kind: Kind, oracle: Oracle, k: nat): (a: GetAnswer) {
    if kind == NoHandler then Nothing else oracle.answer(k)
  }

  /** `j` is the first of the first `n` calls to fail. */
  ghost predicate FirstFailure(fails: nat -> bool, n: nat, j: nat) {
    j < n && fails(j) && forall k: nat :: k < j ==> !fails(k)
  }

  ghost predicate NoFailure(fails: nat -> bool, n: nat) {
    forall k: nat :: k < n ==> !fails(k)
  }

  /**
   * First-failure semantics: one binding per range in its position and one call per range, or the
   * first failure's error and one-based index modulo 2^16, no bindings, and no call after it.
   */
  ghost predicate RangesAnswered(kind: Kind, next: bool, h: H.Header, ranges: seq<SR.Range>, oracle: Oracle,
                                 reply: Reply, calls: seq<Call>)
  {
    var fails := GetFails(kind, oracle);
    && reply.header == ReplyHeader(h)
    && reply.packet.Response? && reply.packet.upTime == 0
    && |calls| <= |ranges| && (forall k :: 0 <= k < |calls| ==> calls[k] == RangeCall(next, ranges[k]))
    && (NoFailure(fails, |ranges|) ==>
          && reply.packet.error == ERROR_NONE && reply.packet.index == 0
          && |calls| == (if kind == NoHandler then 0 else |ranges|)
          && |reply.packet.variables| == |ranges|
          && forall k :: 0 <= k < |ranges| ==>
               reply.packet.variables[k] == RangeBinding(next, ranges[k], AnswerFor(kind, oracle, k)))
    && (forall j: nat :: FirstFailure(fails, |ranges|, j) ==>
          && reply.packet.error == ErrorOr(oracle.answer(j).failure, GEN_ERR)
          && reply.packet.index == (j + 1) % 0x1_0000
          && reply.packet.variables == []
          && |calls| == j + 1)
  }

  /** The same for the bindings of a TestSet; its response never carries bindings. */
  ghost predicate BindingsTested(kind: Kind, h: H.Header, requests: seq<SetRequest>, oracle: Oracle,
                                 reply: Reply, calls: seq<Call>)
    requires kind != NoHandler
  {
    var fails := SetFails(oracle);
    && reply.header == ReplyHeader(h)
    && reply.packet.Response? && reply.packet.upTime == 0 && reply.packet.variables == []
    && |calls| <= |requests|
    && (forall k :: 0 <= k < |calls| ==> calls[k] == SetCall(kind, requests[k]))
    && (NoFailure(fails, |requests|) ==>
          reply.packet.error == ERROR_NONE && reply.packet.index == 0 && |calls| == |requests|)
    && (forall j: nat :: FirstFailure(fails, |requests|, j) ==>
          && reply.packet.error == ErrorOr(oracle.verdict(j).failure, GEN_ERR)
          && reply.packet.index == (j + 1) % 0x1_0000
          && |calls| == j + 1)
  }

  function Requests(vs: seq<VB.Variable>): (rs: seq<SetRequest>)
    ensures |rs| == |vs|
    ensures forall i :: 0 <= i < |vs| ==> rs[i] == SetRequest(vs[i].name.GetIdentifier(), vs[i].typ, vs[i].value)
  {
    seq(|vs|, i requires 0 <= i < |vs| => SetRequest(vs[i].name.GetIdentifier(), vs[i].typ, vs[i].value))
  }

  // ---------------------------------------------------------- specification

  /** How many of the first `n` calls the handler gets: up to and including the first that fails. */
  function Reached(fails: nat -> bool, i: nat, n: nat): (j: nat)
    requires i <= n
    ensures i <= j <= n
    ensures forall k: nat :: i <= k < j ==> !fails(k)
    ensures j < n ==> fails(j)
    decreases n - i
  {
    if i == n || fails(i) then i else Reached(fails, i + 1, n)
  }

  /** The outcome as a function of the request, the bindings remembered, and the handler's answers. */
  function HandleRanges(kind: Kind, next: bool, h: H.Header, ranges: seq<SR.Range>, oracle: Oracle)
    : (r: (Reply, seq<Call>))
  {
    var n := |ranges|;
    var j := Reached(GetFails(kind, oracle), 0, n);
    var made := if kind == NoHandler then 0 else if j < n then j + 1 else n;
    var calls := seq(made, k requires 0 <= k < made => RangeCall(next, ranges[k]));
    if j < n then (ErrorReply(h, ErrorOr(oracle.answer(j).failure, GEN_ERR), (j + 1) % 0x1_0000), calls)
    else
      var variables := seq(n, k requires 0 <= k < n => RangeBinding(next, ranges[k], AnswerFor(kind, oracle, k)));
      (Reply(ReplyHeader(h), P.Response(0, ERROR_NONE, 0, variables)), calls)
  }

  function HandleTestSet(kind: Kind, h: H.Header, requests: seq<SetRequest>, oracle: Oracle): (r: (Reply, seq<Call>))
    requires kind != NoHandler
  {
    var n := |requests|;
    var j := Reached(SetFails(oracle), 0, n);
    var made := if j < n then j + 1 else n;
    var calls := seq(made, k requires 0 <= k < made => SetCall(kind, requests[k]));
    if j < n then (ErrorReply(h, ErrorOr(oracle.verdict(j).failure, GEN_ERR), (j + 1) % 0x1_0000), calls)
    else (ErrorReply(h, ERROR_NONE, 0), calls)
  }

  function AllAccepted(requests: seq<SetRequest>, oracle: Oracle): (b: bool)
    ensures b <==> NoFailure(SetFails(oracle), |requests|)
  {
    Reached(SetFails(oracle), 0, |requests|) == |requests|
  }

  /** CommitSet and UndoSet: the handler is called only with bindings to apply. */
  function HandleSecondPhase(kind: Kind, pending: Pending, h: H.Header, oracle: Oracle, commit: bool): (o: Outcome) {
    if kind != TwoPhase || h.transactionID !in pending || pending[h.transactionID] == [] then
      Outcome(Some(ErrorReply(h, ERROR_NONE, 0)), pending, [])
    else
      var requests := pending[h.transactionID];
      var failed := if commit then COMMIT_FAILED else UNDO_FAILED;
      var error := if oracle.verdict(0).Reject? then failed else ERROR_NONE;
      var call := if commit then CallCommitSet(requests) else CallUndoSet(requests);
      Outcome(Some(ErrorReply(h, error, 0)), pending, [call])
  }

  function Handle(kind: Kind, pending: Pending, h: H.Header, p: P.Packet, oracle: Oracle): (o: Outcome) {
    match p
    case Get(ranges) =>
      var r := HandleRanges(kind, false, h, ranges, oracle);
      Outcome(Some(r.0), pending, r.1)
    case GetNext(ranges) =>
      var r := HandleRanges(kind, true, h, ranges, oracle);
      Outcome(Some(r.0), pending, r.1)
    case TestSet(vs) =>
      if kind == NoHandler then Outcome(Some(ErrorReply(h, NOT_WRITABLE, 0)), pending, [])
      else
        var requests := Requests(vs);
        var r := HandleTestSet(kind, h, requests, oracle);
        var remembered := kind == TwoPhase && AllAccepted(requests, oracle);
        Outcome(Some(r.0), if remembered then pending[h.transactionID := requests] else pending, r.1)
    case CommitSet => HandleSecondPhase(kind, pending, h, oracle, true)
    case UndoSet => HandleSecondPhase(kind, pending, h, oracle, false)
    case CleanupSet => Outcome(None, pending - {h.transactionID}, [])
    case _ => Outcome(Some(ErrorReply(h, UnsupportedError(h.typ), 0)), pending, [])
  }

  /** Every request but CleanupSet is answered, by a Response with the request's three ids. */
  lemma ReplyEchoes(kind: Kind, pending: Pending, h: H.Header, p: P.Packet, oracle: Oracle)
    ensures var reply := Handle(kind, pending, h, p, oracle).reply;
            && (reply.None? <==> p.CleanupSet?)
            && (reply.Some? ==> reply.value.header == ReplyHeader(h) && reply.value.packet.Response?)
  {
  }

  lemma ReachedIsFirst(fails: nat -> bool, n: nat)
    ensures var j := Reached(fails, 0, n);
            && (NoFailure(fails, n) <==> j == n)
            && forall f: nat :: FirstFailure(fails, n, f) <==> f == j < n
  {
    var j := Reached(fails, 0, n);
    forall f: nat | FirstFailure(fails, n, f)
      ensures f == j
    {
      assert f < j ==> !fails(f);
    }
  }

  lemma RangesFirstFailure(kind: Kind, next: bool, h: H.Header, ranges: seq<SR.Range>, oracle: Oracle)
    ensures var r := HandleRanges(kind, next, h, ranges, oracle);
            RangesAnswered(kind, next, h, ranges, oracle, r.0, r.1)
  {
    ReachedIsFirst(GetFails(kind, oracle), |ranges|);
  }

  lemma TestSetFirstFailure(kind: Kind, h: H.Header, requests: seq<SetRequest>, oracle: Oracle)
    requires kind != NoHandler
    ensures var r := HandleTestSet(kind, h, requests, oracle);
            BindingsTested(kind, h, requests, oracle, r.0, r.1)
  {
    ReachedIsFirst(SetFails(oracle), |requests|);
  }

  lemma RangesFailAt(kind: Kind, next: bool, h: H.Header, ranges: seq<SR.Range>, oracle: Oracle, j: nat,
                     made: seq<Call>)
    requires kind != NoHandler && FirstFailure(GetFails(kind, oracle), |ranges|, j)
    requires |made| == j + 1 && forall k :: 0 <= k <= j ==> made[k] == RangeCall(next, ranges[k])
    ensures HandleRanges(kind, next, h, ranges, oracle)
         == (ErrorReply(h, ErrorOr(oracle.answer(j).failure, GEN_ERR), (j + 1) % 0x1_0000), made)
  {
    ReachedIsFirst(GetFails(kind, oracle), |ranges|);
    assert made == HandleRanges(kind, next, h, ranges, oracle).1;
  }

  lemma RangesSucceed(kind: Kind, next: bool, h: H.Header, ranges: seq<SR.Range>, oracle: Oracle,
                      variables: seq<VB.Variable>, made: seq<Call>)
    requires NoFailure(GetFails(kind, oracle), |ranges|)
    requires |variables| == |ranges|
    requires forall k :: 0 <= k < |ranges| ==> variables[k] == RangeBinding(next, ranges[k], AnswerFor(kind, oracle, k))
    requires |made| == if kind == NoHandler then 0 else |ranges|
    requires forall k :: 0 <= k < |made| ==> made[k] == RangeCall(next, ranges[k])
    ensures HandleRanges(kind, next, h, ranges, oracle)
         == (Reply(ReplyHeader(h), P.Response(0, ERROR_NONE, 0, variables)), made)
  {
    ReachedIsFirst(GetFails(kind, oracle), |ranges|);
    var r := HandleRanges(kind, next, h, ranges, oracle);
    assert variables == r.0.packet.variables;
    assert made == r.1;
  }

  function SetCall(kind: Kind, request: SetRequest): (c: Call) {
    if kind == TwoPhase then CallTestSet(request) else CallSet(request)
  }

  lemma TestSetFailAt(kind: Kind, h: H.Header, requests: seq<SetRequest>, oracle: Oracle, j: nat, made: seq<Call>)
    requires kind != NoHandler && FirstFailure(SetFails(oracle), |requests|, j)
    requires |made| == j + 1 && forall k :: 0 <= k <= j ==> made[k] == SetCall(kind, requests[k])
    ensures !AllAccepted(requests, oracle)
    ensures HandleTestSet(kind, h, requests, oracle)
         == (ErrorReply(h, ErrorOr(oracle.verdict(j).failure, GEN_ERR), (j + 1) % 0x1_0000), made)
  {
    ReachedIsFirst(SetFails(oracle), |requests|);
    assert made == HandleTestSet(kind, h, requests, oracle).1;
  }

  lemma TestSetSucceed(kind: Kind, h: H.Header, requests: seq<SetRequest>, oracle: Oracle, made: seq<Call>)
    requires kind != NoHandler && NoFailure(SetFails(oracle), |requests|)
    requires |made| == |requests| && forall k :: 0 <= k < |made| ==> made[k] == SetCall(kind, requests[k])
    ensures AllAccepted(requests, oracle)
    ensures HandleTestSet(kind, h, requests, oracle) == (ErrorReply(h, ERROR_NONE, 0), made)
  {
    ReachedIsFirst(SetFails(oracle), |requests|);
    assert made == HandleTestSet(kind, h, requests, oracle).1;
  }

  // ------------------------------------------------------------ the session

  class Session {
    const kind: Kind
    var pending: Pending
    /** Every call the handler has had. */
    var calls: seq<Call>

    constructor (kind: Kind)
      ensures this.kind == kind && pending == map[] && calls == []
    {
      this.kind, pending, calls := kind, map[], [];
    }

    method AnswerRanges(next: bool, h: H.Header, ranges: seq<SR.Range>, oracle: Oracle) returns (reply: Reply)
      modifies this`calls
      ensures var r := HandleRanges(kind, next, h, ranges, oracle);
              reply == r.0 && calls == old(calls) + r.1
    {
      var variables: seq<VB.Variable> := [];
      ghost var made: seq<Call> := [];
      var index := 0;
      while index < |ranges|
        invariant 0 <= index <= |ranges| && |variables| == index
        invariant NoFailure(GetFails(kind, oracle), index)
        invariant forall k :: 0 <= k < index ==>
                    variables[k] == RangeBinding(next, ranges[k], AnswerFor(kind, oracle, k))
        invariant calls == old(calls) + made
        invariant |made| == if kind == NoHandler then 0 else index
        invariant forall k :: 0 <= k < |made| ==> made[k] == RangeCall(next, ranges[k])
      {
        var exception := RangeBinding(next, ranges[index], Nothing);
        if kind == NoHandler {
          variables := variables + [exception];
          index := index + 1;
          continue;
        }
        calls := calls + [RangeCall(next, ranges[index])];
        made := made + [RangeCall(next, ranges[index])];
        var answer := oracle.answer(index);
        if answer.Failed? {
          reply := ErrorReply(h, ErrorOr(answer.failure, GEN_ERR), (index + 1) % 0x1_0000);
          RangesFailAt(kind, next, h, ranges, oracle, index, made);
          return;
        }
        if answer.Nothing? {
          variables := variables + [exception];
        } else {
          variables := variables + [VB.Variable(answer.typ, OI.Plain(answer.oid), answer.value)];
        }
        index := index + 1;
      }
      RangesSucceed(kind, next, h, ranges, oracle, variables, made);
      reply := Reply(ReplyHeader(h), P.Response(0, ERROR_NONE, 0, variables));
    }

    method TestBindings(h: H.Header, vs: seq<VB.Variable>, oracle: Oracle)
        returns (reply: Reply, accepted: Option<seq<SetRequest>>)
      requires kind != NoHandler
      modifies this`calls
      ensures var r := HandleTestSet(kind, h, Requests(vs), oracle);
              reply == r.0 && calls == old(calls) + r.1
      ensures accepted == if AllAccepted(Requests(vs), oracle) then Some(Requests(vs)) else None
    {
      ghost var requests := Requests(vs);
      var collected: seq<SetRequest> := [];
      ghost var made: seq<Call> := [];
      var i := 0;
      while i < |vs|
        invariant 0 <= i <= |vs| && |collected| == i == |made|
        invariant NoFailure(SetFails(oracle), i)
        invariant forall k :: 0 <= k < i ==> collected[k] == requests[k]
        invariant calls == old(calls) + made
        invariant forall k :: 0 <= k < i ==> made[k] == SetCall(kind, requests[k])
      {
        var req := SetRequest(vs[i].name.GetIdentifier(), vs[i].typ, vs[i].value);
        var call := SetCall(kind, req);
        calls := calls + [call];
        made := made + [call];
        var verdict := oracle.verdict(i);
        if verdict.Reject? {
          TestSetFailAt(kind, h, requests, oracle, i, made);
          return ErrorReply(h, ErrorOr(verdict.failure, GEN_ERR), (i + 1) % 0x1_0000), None;
        }
        collected := collected + [req];
        i := i + 1;
      }
      assert collected == requests;
      TestSetSucceed(kind, h, requests, oracle, made);
      return ErrorReply(h, ERROR_NONE, 0), Some(collected);
    }

    method AnswerTestSet(h: H.Header, vs: seq<VB.Variable>, oracle: Oracle) returns (reply: Reply)
      modifies this
      ensures var o := Handle(kind, old(pending), h, P.TestSet(vs), oracle);
              Some(reply) == o.reply && pending == o.pending && calls == old(calls) + o.calls
    {
      if kind == NoHandler {
        return ErrorReply(h, NOT_WRITABLE, 0);
      }
      var accepted;
      reply, accepted := TestBindings(h, vs, oracle);
      if kind == TwoPhase && accepted.Some? {
        pending := pending[h.transactionID := accepted.value];
      }
    }

    method TakePending(transactionID: u32, remove: bool) returns (reqs: seq<SetRequest>)
      modifies this`pending
      ensures reqs == if transactionID in old(pending) then old(pending)[transactionID] else []
      ensures pending == if remove then old(pending) - {transactionID} else old(pending)
    {
      reqs := if transactionID in pending then pending[transactionID] else [];
      if remove {
        pending := pending - {transactionID};
      }
    }

    method AnswerSecondPhase(h: H.Header, oracle: Oracle, commit: bool) returns (reply: Reply)
      modifies this
      ensures var o := HandleSecondPhase(kind, old(pending), h, oracle, commit);
              Some(reply) == o.reply && pending == o.pending && calls == old(calls) + o.calls
    {
      reply := ErrorReply(h, ERROR_NONE, 0);
      if kind != TwoPhase {
        return;
      }
      var reqs := TakePending(h.transactionID, false);
      if |reqs| == 0 {
        return;
      }
      calls := calls + [if commit then CallCommitSet(reqs) else CallUndoSet(reqs)];
      if oracle.verdict(0).Reject? {
        reply := ErrorReply(h, if commit then COMMIT_FAILED else UNDO_FAILED, 0);
      }
    }

    method HandleRequest(h: H.Header, p: P.Packet, oracle: Oracle) returns (reply: Option<Reply>)
      modifies this
      ensures var o := Handle(kind, old(pending), h, p, oracle);
              reply == o.reply && pending == o.pending && calls == old(calls) + o.calls
    {
      match p
      case Get(ranges) =>
        var r := AnswerRanges(false, h, ranges, oracle);
        reply := Some(r);
      case GetNext(ranges) =>
        var r := AnswerRanges(true, h, ranges, oracle);
        reply := Some(r);
      case TestSet(vs) =>
        var r := AnswerTestSet(h, vs, oracle);
        reply := Some(r);
      case CommitSet =>
        var r := AnswerSecondPhase(h, oracle, true);
        reply := Some(r);
      case UndoSet =>
        var r := AnswerSecondPhase(h, oracle, false);
        reply := Some(r);
      case CleanupSet =>
        var dropped := TakePending(h.transactionID, true);
        reply := None;
      case _ =>
        reply := Some(ErrorReply(h, UnsupportedError(h.typ), 0));
    }
  }
}
