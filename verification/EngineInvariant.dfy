/** What every step of the engine keeps, layer by layer: order, places, fates, frames, histories. */
module EngineInvariant {
  import opened Wire
  import opened Engine
  import F = Framing
  import H = Headers
  import P = Packets
  import S = Sessions
  import ST = SetTransactions

  // ------------------------------------------------------------------ order

  ghost predicate Increasing(q: seq<nat>) {
    forall i, j :: 0 <= i < j < |q| ==> q[i] < q[j]
  }

  function Unhandled(c: Current): (q: seq<nat>) {
    if c.Handling? then [c.pdu] else []
  }

  /** A session's part: nothing is lost or reordered between acceptance and handling. */
  ghost predicate InOrder(x: Worker) {
    && Increasing(x.accepted)
    && x.accepted == x.handled + Unhandled(x.current) + x.queue
    && (x.current.Replying? ==> x.handled != [] && x.handled[|x.handled| - 1] == x.current.pdu)
    && |x.queue| <= QUEUE_SIZE
  }

  /** Everything a session has accepted came before this. */
  function Front(s: State): (n: nat) {
    if !s.dispatcher.Ready? then s.dispatcher.pdu
    else if !s.receiver.Reading? then s.receiver.pdu
    else |s.arrivals|
  }

  ghost predicate Below(q: seq<nat>, n: nat) {
    forall k :: 0 <= k < |q| ==> q[k] < n
  }

  ghost predicate Ordered(s: State) {
    && (forall w :: 0 <= w < |s.workers| ==> InOrder(s.workers[w]) && Below(s.workers[w].accepted, Front(s)))
    && (!s.receiver.Reading? ==> s.receiver.pdu + 1 == |s.arrivals|)
    && (!s.dispatcher.Ready? ==> s.dispatcher.pdu < |s.arrivals|)
    && (!s.dispatcher.Ready? && !s.receiver.Reading? ==> s.dispatcher.pdu < s.receiver.pdu)
    && (s.dispatcher.Entering? ==> s.dispatcher.worker < |s.workers|)
    && (forall id :: id in s.table ==> s.table[id] < |s.workers|)
  }

  lemma WorkerKeepsOrder(x: Worker, y: Worker)
    requires InOrder(x)
    requires || (x.current.Idle? && x.queue != [] && y == x.(queue := x.queue[1..], current := Handling(x.queue[0])))
             || (x.current.Handling? && y.handled == x.handled + [x.current.pdu]
                 && y.queue == x.queue && y.accepted == x.accepted
                 && (y.current.Idle? || (y.current.Replying? && y.current.pdu == x.current.pdu)))
             || (x.current.Replying? && y == x.(current := Idle))
             || y == x.(closed := true)
    ensures InOrder(y) && y.accepted == x.accepted
  {
    if x.current.Idle? && x.queue != [] {
      assert x.queue == [x.queue[0]] + x.queue[1..];
    }
  }

  lemma EnqueueKeepsOrder(x: Worker, i: nat)
    requires InOrder(x) && Below(x.accepted, i) && |x.queue| < QUEUE_SIZE
    ensures InOrder(x.(queue := x.queue + [i], accepted := x.accepted + [i]))
    ensures Below(x.accepted + [i], i + 1)
  {
  }

  /** A step that changes no session and does not let an earlier PDU in. */
  lemma ThreadsKeepOrder(s: State, t: State)
    requires Ordered(s) && t.workers == s.workers && t.table == s.table && Front(s) <= Front(t)
    requires !t.receiver.Reading? ==> t.receiver.pdu + 1 == |t.arrivals|
    requires !t.dispatcher.Ready? ==> t.dispatcher.pdu < |t.arrivals|
    requires !t.dispatcher.Ready? && !t.receiver.Reading? ==> t.dispatcher.pdu < t.receiver.pdu
    requires t.dispatcher.Entering? ==> t.dispatcher.worker < |t.workers|
    ensures Ordered(t)
  {
  }

  lemma OneWorkerKeepsOrder(s: State, t: State, w: nat)
    requires Ordered(s) && w < |s.workers| == |t.workers| && t.workers == s.workers[w := t.workers[w]]
    requires InOrder(t.workers[w]) && t.workers[w].accepted == s.workers[w].accepted
    requires t.table == s.table && t.receiver == s.receiver && t.dispatcher == s.dispatcher && t.arrivals == s.arrivals
    ensures Ordered(t)
  {
  }

  // ----------------------------------------------------------------- places

  predicate Settled(p: Place) {
    p.Answered? || p.Silent? || p.Lost?
  }

  /** The thread or queue that `p` stands for has PDU `i`. */
  ghost predicate Located(s: State, i: nat, p: Place) {
    match p
    case Offered => s.receiver == Offering(i)
    case Refused => s.receiver == Refusing(i)
    case Routed => s.dispatcher == Routing(i)
    case Denied => s.dispatcher == Denying(i)
    case AtDoor(w) => s.dispatcher == Entering(i, w)
    case Queued(w) => w < |s.workers| && i in s.workers[w].queue
    case InHand(w) => w < |s.workers| && s.workers[w].current == Handling(i)
    case Replied(w) => w < |s.workers| && s.workers[w].current.Replying? && s.workers[w].current.pdu == i
    case _ => true
  }

  /** Every PDU is at exactly one place, and every thread and queue has only PDUs that are there. */
  ghost predicate Placed(s: State) {
    && |s.places| == |s.arrivals|
    && (forall i: nat :: i < |s.places| ==> Located(s, i, s.places[i]))
    && (forall i: nat, p :: Located(s, i, p) && !Settled(p) ==> i < |s.places| && s.places[i] == p)
  }

  ghost predicate SameElsewhere(s: State, t: State, i: nat) {
    forall j: nat, p :: j != i ==> (Located(t, j, p) <==> Located(s, j, p))
  }

  /** A step that moves one PDU and disturbs no other. */
  lemma MoveKeepsPlaced(s: State, t: State, i: nat, q: Place)
    requires Placed(s) && i < |s.places| && t.places == s.places[i := q] && |t.arrivals| == |s.arrivals|
    requires SameElsewhere(s, t, i) && Located(t, i, q)
    requires forall p :: Located(t, i, p) && !Settled(p) ==> p == q
    ensures Placed(t)
  {
  }

  lemma ReceiverMoves(s: State, t: State, i: nat, q: Place)
    requires Placed(s) && !s.receiver.Reading? && i == s.receiver.pdu
    requires i < |s.places| && t.places == s.places[i := q] && |t.arrivals| == |s.arrivals|
    requires t.receiver.Reading? && t.workers == s.workers
    requires if s.dispatcher.Ready? && t.dispatcher == Routing(i) then q == Routed
             else t.dispatcher == s.dispatcher && Settled(q)
    ensures Placed(t)
  {
    assert Located(s, i, if s.receiver.Offering? then Offered else Refused);
    assert SameElsewhere(s, t, i);
    MoveKeepsPlaced(s, t, i, q);
  }

  function PlaceAt(d: Dispatcher): (p: Place)
    requires !d.Ready?
  {
    match d
    case Routing(_) => Routed
    case Denying(_) => Denied
    case Entering(_, w) => AtDoor(w)
  }

  lemma DispatcherMoves(s: State, t: State, i: nat, q: Place)
    requires Placed(s) && !s.dispatcher.Ready? && i == s.dispatcher.pdu
    requires i < |s.places| && t.places == s.places[i := q] && |t.arrivals| == |s.arrivals|
    requires t.receiver == s.receiver && t.workers == s.workers
    requires if t.dispatcher.Ready? then Settled(q) else t.dispatcher.pdu == i && q == PlaceAt(t.dispatcher)
    ensures Placed(t)
  {
    assert Located(s, i, PlaceAt(s.dispatcher));
    assert SameElsewhere(s, t, i);
    MoveKeepsPlaced(s, t, i, q);
  }

  lemma DispatcherEnqueues(s: State, t: State, i: nat, w: nat)
    requires Placed(s) && s.dispatcher == Entering(i, w) && w < |s.workers|
    requires i < |s.places| && t.places == s.places[i := Queued(w)] && |t.arrivals| == |s.arrivals|
    requires t.receiver == s.receiver && t.dispatcher.Ready?
    requires |t.workers| == |s.workers| && t.workers == s.workers[w := t.workers[w]]
    requires t.workers[w].current == s.workers[w].current && t.workers[w].queue == s.workers[w].queue + [i]
    ensures Placed(t)
  {
    assert Located(s, i, AtDoor(w));
    assert SameElsewhere(s, t, i);
    MoveKeepsPlaced(s, t, i, Queued(w));
  }

  lemma WorkerTakes(s: State, t: State, i: nat, w: nat)
    requires Placed(s) && w < |s.workers| && s.workers[w].queue != [] && s.workers[w].queue[0] == i
    requires s.workers[w].current.Idle? && i !in s.workers[w].queue[1..]
    requires i < |s.places| && t.places == s.places[i := InHand(w)] && |t.arrivals| == |s.arrivals|
    requires t.receiver == s.receiver && t.dispatcher == s.dispatcher
    requires |t.workers| == |s.workers| && t.workers == s.workers[w := t.workers[w]]
    requires t.workers[w].current == Handling(i) && t.workers[w].queue == s.workers[w].queue[1..]
    ensures Placed(t)
  {
    var q := s.workers[w].queue;
    assert q == [i] + q[1..];
    assert Located(s, i, Queued(w));
    assert SameElsewhere(s, t, i);
    MoveKeepsPlaced(s, t, i, InHand(w));
  }

  function PlaceOf(c: Current, w: nat): (p: Place)
    requires !c.Idle?
  {
    if c.Handling? then InHand(w) else Replied(w)
  }

  lemma WorkerMoves(s: State, t: State, i: nat, w: nat, q: Place)
    requires Placed(s) && w < |s.workers| && !s.workers[w].current.Idle? && s.workers[w].current.pdu == i
    requires i < |s.places| && t.places == s.places[i := q] && |t.arrivals| == |s.arrivals|
    requires t.receiver == s.receiver && t.dispatcher == s.dispatcher
    requires |t.workers| == |s.workers| && t.workers == s.workers[w := t.workers[w]]
    requires t.workers[w].queue == s.workers[w].queue
    requires if t.workers[w].current.Idle? then Settled(q)
             else t.workers[w].current.pdu == i && q == PlaceOf(t.workers[w].current, w)
    ensures Placed(t)
  {
    assert Located(s, i, PlaceOf(s.workers[w].current, w));
    assert SameElsewhere(s, t, i);
    MoveKeepsPlaced(s, t, i, q);
  }

  // ------------------------------------------------------------------ fates

  /** What is known of a PDU from where it is. */
  ghost predicate Fits(p: Place, r: F.Read, s: State) {
    r.Answerable() &&
    match p
    case Offered => r.Frame?
    case Routed => r.Frame?
    case Refused => r.Malformed? && Expects(r)
    case Denied => r.Frame? && Expects(r)
    case AtDoor(_) => r.Frame? && r.header.typ != P.RESPONSE
    case Queued(_) => r.Frame? && r.header.typ != P.RESPONSE
    case InHand(_) => r.Frame? && r.header.typ != P.RESPONSE
    case Replied(_) => r.Frame? && Expects(r)
    case Answered => Expects(r)
    case Silent => !Expects(r)
    case Lost(None) => s.closed
    case Lost(Some(w)) => s.closed || (w < |s.workers| && s.workers[w].closed)
  }

  predicate Typed(r: F.Read) {
    r.Frame? ==> P.TypeOf(r.packet) == r.header.typ && (r.header.typ == P.CLEANUP_SET ==> r.packet.CleanupSet?)
  }

  ghost predicate Fated(s: State) {
    && |s.places| == |s.arrivals|
    && (forall i :: 0 <= i < |s.arrivals| ==> Typed(s.arrivals[i]))
    && (forall i :: 0 <= i < |s.places| ==> Fits(s.places[i], s.arrivals[i], s))
    && (forall w :: 0 <= w < |s.workers| ==> Echoing(s.workers[w].current, s.arrivals))
  }

  ghost predicate Echoing(c: Current, arrivals: seq<F.Read>) {
    c.Replying? ==>
      c.pdu < |arrivals| && arrivals[c.pdu].Answerable() && Replies(c.reply, arrivals[c.pdu].header)
  }

  /** Closing is for good. */
  ghost predicate StaysClosed(s: State, t: State) {
    && (s.closed ==> t.closed)
    && |s.workers| <= |t.workers|
    && forall w :: 0 <= w < |s.workers| && s.workers[w].closed ==> t.workers[w].closed
  }

  lemma FitsStays(s: State, t: State, p: Place, r: F.Read)
    requires StaysClosed(s, t) && Fits(p, r, s)
    ensures Fits(p, r, t)
  {
  }

  lemma MoveKeepsFated(s: State, t: State, i: nat, q: Place)
    requires Fated(s) && StaysClosed(s, t) && t.arrivals == s.arrivals
    requires i < |s.places| && t.places == s.places[i := q] && Fits(q, s.arrivals[i], t)
    requires forall w :: 0 <= w < |t.workers| ==> Echoing(t.workers[w].current, t.arrivals)
    ensures Fated(t)
  {
    forall j | 0 <= j < |t.places|
      ensures Fits(t.places[j], t.arrivals[j], t)
    {
      if j != i {
        FitsStays(s, t, s.places[j], s.arrivals[j]);
      }
    }
  }

  lemma ControlKeepsFated(s: State, t: State)
    requires Fated(s) && StaysClosed(s, t) && t.arrivals == s.arrivals && t.places == s.places
    requires forall w :: 0 <= w < |t.workers| ==> Echoing(t.workers[w].current, t.arrivals)
    ensures Fated(t)
  {
    forall j | 0 <= j < |t.places|
      ensures Fits(t.places[j], t.arrivals[j], t)
    {
      FitsStays(s, t, s.places[j], s.arrivals[j]);
    }
  }

  lemma ArriveKeepsFated(s: State, t: State, r: F.Read, p: Place)
    requires Fated(s) && StaysClosed(s, t) && t.arrivals == s.arrivals + [r] && t.places == s.places + [p]
    requires t.workers == s.workers && Typed(r) && Fits(p, r, t)
    ensures Fated(t)
  {
    forall j | 0 <= j < |s.places|
      ensures Fits(t.places[j], t.arrivals[j], t)
    {
      FitsStays(s, t, s.places[j], s.arrivals[j]);
    }
  }

  // ----------------------------------------------------------------- frames

  ghost predicate WasSent(sent: seq<Sent>, i: nat) {
    exists k :: 0 <= k < |sent| && sent[k].pdu == i
  }

  ghost predicate SentFits(e: Sent, places: seq<Place>, arrivals: seq<F.Read>) {
    && e.pdu < |places| && places[e.pdu].Answered?
    && e.pdu < |arrivals| && arrivals[e.pdu].Answerable() && Echoes(e.frame, arrivals[e.pdu].header)
  }

  /** The PDUs answered are those with a frame sent, and it is one frame. */
  ghost predicate OneEach(sent: seq<Sent>, places: seq<Place>) {
    && (forall j, k :: 0 <= j < k < |sent| ==> sent[j].pdu != sent[k].pdu)
    && (forall i: nat :: i < |places| && places[i].Answered? ==> WasSent(sent, i))
  }

  ghost predicate Accounted(sent: seq<Sent>, places: seq<Place>, arrivals: seq<F.Read>) {
    OneEach(sent, places) && forall k :: 0 <= k < |sent| ==> SentFits(sent[k], places, arrivals)
  }

  lemma MoveKeepsAccounted(sent: seq<Sent>, places: seq<Place>, arrivals: seq<F.Read>, i: nat, q: Place)
    requires Accounted(sent, places, arrivals) && i < |places| && !places[i].Answered? && !q.Answered?
    ensures Accounted(sent, places[i := q], arrivals)
  {
  }

  lemma ArriveKeepsAccounted(sent: seq<Sent>, places: seq<Place>, arrivals: seq<F.Read>, p: Place, r: F.Read)
    requires Accounted(sent, places, arrivals) && |places| == |arrivals| && !p.Answered?
    ensures Accounted(sent, places + [p], arrivals + [r])
  {
  }

  lemma SubmitKeepsOneEach(sent: seq<Sent>, places: seq<Place>, e: Sent)
    requires OneEach(sent, places) && e.pdu < |places|
    requires forall k :: 0 <= k < |sent| ==> sent[k].pdu != e.pdu
    ensures OneEach(sent + [e], places[e.pdu := Answered])
  {
    var after := sent + [e];
    assert after[|sent|].pdu == e.pdu;
    forall i: nat | i < |places| && i != e.pdu && places[i].Answered?
      ensures WasSent(after, i)
    {
      var k :| 0 <= k < |sent| && sent[k].pdu == i;
      assert after[k].pdu == i;
    }
  }

  lemma SubmitKeepsAccounted(sent: seq<Sent>, places: seq<Place>, arrivals: seq<F.Read>, e: Sent)
    requires Accounted(sent, places, arrivals) && e.pdu < |places| == |arrivals| && !places[e.pdu].Answered?
    requires arrivals[e.pdu].Answerable() && Echoes(e.frame, arrivals[e.pdu].header)
    ensures Accounted(sent + [e], places[e.pdu := Answered], arrivals)
  {
    SubmitKeepsOneEach(sent, places, e);
  }

  // -------------------------------------------------------------- histories

  ghost predicate SameRequest(e: ST.Event, arrivals: seq<F.Read>, i: nat) {
    i < |arrivals| && arrivals[i].Frame? && e.header == arrivals[i].header && e.packet == arrivals[i].packet
  }

  /** What a session remembers and answers is what its history of requests determines. */
  ghost predicate Historic(x: Worker, arrivals: seq<F.Read>) {
    && |x.events| == |x.handled|
    && (forall k :: 0 <= k < |x.events| ==> SameRequest(x.events[k], arrivals, x.handled[k]))
    && x.pending == ST.Remembered(x.kind, x.events)
    && (x.current.Replying? ==>
          x.events != [] && ST.At(x.kind, x.events, |x.events| - 1).reply == Some(x.current.reply))
  }

  lemma HandleKeepsHistoric(x: Worker, y: Worker, arrivals: seq<F.Read>, i: nat, e: ST.Event)
    requires Historic(x, arrivals) && SameRequest(e, arrivals, i)
    requires y.kind == x.kind && y.events == x.events + [e] && y.handled == x.handled + [i]
    requires var o := S.Handle(x.kind, x.pending, e.header, e.packet, e.oracle);
             y.pending == o.pending && (y.current.Replying? ==> o.reply == Some(y.current.reply))
    ensures Historic(y, arrivals)
  {
    assert (x.events + [e])[..|x.events|] == x.events;
  }

  /** Later events do not change what was done before. */
  lemma AtStays(kind: S.Kind, events: seq<ST.Event>, e: ST.Event, n: nat)
    requires n < |events|
    ensures ST.At(kind, events + [e], n) == ST.At(kind, events, n)
  {
    assert (events + [e])[..n] == events[..n];
  }

  /** The n-th request of a session was answered with this frame. */
  ghost predicate AnswersEvent(e: Sent, x: Worker, n: nat) {
    && n < |x.events| == |x.handled| && x.handled[n] == e.pdu
    && match ST.At(x.kind, x.events, n).reply
       case Some(reply) => e.frame == FrameOf(reply)
       case None => false
  }

  ghost predicate Authored(e: Sent, workers: seq<Worker>, arrivals: seq<F.Read>) {
    match e.author
    case ByReceiver => FromError(e, arrivals, S.PARSE_ERROR)
    case ByDispatcher => FromError(e, arrivals, S.NOT_OPEN)
    case ByWorker(w) => w < |workers| && exists n: nat :: AnswersEvent(e, workers[w], n)
  }

  ghost predicate FromError(e: Sent, arrivals: seq<F.Read>, error: u16) {
    && e.pdu < |arrivals| && arrivals[e.pdu].Answerable()
    && e.frame == FrameOf(S.ErrorReply(arrivals[e.pdu].header, error, 0))
  }

  /** The only change to a session's past is one more event. */
  ghost predicate Extends(x: Worker, y: Worker) {
    y.kind == x.kind && ((y.events == x.events && y.handled == x.handled)
    || (exists e, i :: y.events == x.events + [e] && y.handled == x.handled + [i]))
  }

  lemma AnswersStays(e: Sent, x: Worker, y: Worker, n: nat)
    requires AnswersEvent(e, x, n) && Extends(x, y)
    ensures AnswersEvent(e, y, n)
  {
    if y.events != x.events {
      AtStays(x.kind, x.events, y.events[|x.events|], n);
      assert y.events == x.events + [y.events[|x.events|]];
    }
  }

  lemma AuthoredStays(e: Sent, before: seq<Worker>, after: seq<Worker>, arrivals: seq<F.Read>, more: seq<F.Read>)
    requires Authored(e, before, arrivals) && |before| <= |after|
    requires forall w :: 0 <= w < |before| ==> Extends(before[w], after[w])
    ensures Authored(e, after, arrivals + more)
  {
    if e.author.ByWorker? {
      var w := e.author.worker;
      var n: nat :| AnswersEvent(e, before[w], n);
      AnswersStays(e, before[w], after[w], n);
    }
  }

  // ---------------------------------------------------------- answers in order

  /** What a session submitted, in order. */
  ghost function SentBy(sent: seq<Sent>, w: nat): (r: seq<nat>) {
    if sent == [] then []
    else
      var e := sent[|sent| - 1];
      SentBy(sent[..|sent| - 1], w) + (if e.author == ByWorker(w) then [e.pdu] else [])
  }

  /** Those of `q` that have been answered. */
  ghost function AnsweredOf(q: seq<nat>, places: seq<Place>): (r: seq<nat>) {
    if q == [] then []
    else
      var i := q[|q| - 1];
      AnsweredOf(q[..|q| - 1], places) + (if i < |places| && places[i].Answered? then [i] else [])
  }

  /** Where the PDUs a session has handled can be. */
  ghost predicate Behind(q: seq<nat>, w: nat, places: seq<Place>) {
    forall k :: 0 <= k < |q| ==>
      q[k] < |places| && (places[q[k]] in {Answered, Silent, Lost(None), Replied(w)})
  }

  ghost predicate InTurn(sent: seq<Sent>, w: nat, handled: seq<nat>, places: seq<Place>) {
    SentBy(sent, w) == AnsweredOf(handled, places) && Behind(handled, w, places)
  }

  lemma SentByAppend(sent: seq<Sent>, e: Sent, w: nat)
    ensures SentBy(sent + [e], w) == SentBy(sent, w) + (if e.author == ByWorker(w) then [e.pdu] else [])
  {
    assert (sent + [e])[..|sent|] == sent;
  }

  lemma AnsweredAppend(q: seq<nat>, i: nat, places: seq<Place>)
    ensures AnsweredOf(q + [i], places)
         == AnsweredOf(q, places) + (if i < |places| && places[i].Answered? then [i] else [])
  {
    assert (q + [i])[..|q|] == q;
  }

  /** Only whether the PDUs of `q` are answered matters. */
  lemma {:induction false} AnsweredSame(q: seq<nat>, before: seq<Place>, after: seq<Place>)
    requires forall k :: 0 <= k < |q| ==>
               ((q[k] < |before| && before[q[k]].Answered?) <==> (q[k] < |after| && after[q[k]].Answered?))
    ensures AnsweredOf(q, before) == AnsweredOf(q, after)
  {
    if q != [] {
      AnsweredSame(q[..|q| - 1], before, after);
    }
  }

  /** A PDU elsewhere moves. */
  lemma OtherKeepsInTurn(sent: seq<Sent>, w: nat, handled: seq<nat>, places: seq<Place>, i: nat, q: Place)
    requires InTurn(sent, w, handled, places) && i < |places|
    requires !Settled(places[i]) && places[i] != Replied(w)
    ensures InTurn(sent, w, handled, places[i := q])
  {
    AnsweredSame(handled, places, places[i := q]);
  }

  /** A session hears its own PDU off. */
  lemma HandleKeepsInTurn(sent: seq<Sent>, w: nat, handled: seq<nat>, places: seq<Place>, i: nat, q: Place)
    requires InTurn(sent, w, handled, places) && i < |places| && places[i] == InHand(w)
    requires q.Silent? || q == Replied(w)
    ensures InTurn(sent, w, handled + [i], places[i := q])
  {
    OtherKeepsInTurn(sent, w, handled, places, i, q);
    AnsweredAppend(handled, i, places[i := q]);
  }

  lemma AbandonKeepsInTurn(sent: seq<Sent>, w: nat, handled: seq<nat>, places: seq<Place>, i: nat)
    requires InTurn(sent, w, handled, places) && i < |places| && places[i] == Replied(w)
    ensures InTurn(sent, w, handled, places[i := Lost(None)])
  {
    AnsweredSame(handled, places, places[i := Lost(None)]);
  }

  /** The last PDU it handled is the one a session answers. */
  lemma ReplyKeepsInTurn(sent: seq<Sent>, w: nat, handled: seq<nat>, places: seq<Place>, e: Sent)
    requires InTurn(sent, w, handled, places) && e.author == ByWorker(w)
    requires handled != [] && handled[|handled| - 1] == e.pdu
    requires Increasing(handled) && e.pdu < |places| && places[e.pdu] == Replied(w)
    ensures InTurn(sent + [e], w, handled, places[e.pdu := Answered])
  {
    var n := |handled| - 1;
    var before, after := handled[..n], places[e.pdu := Answered];
    SentByAppend(sent, e, w);
    AnsweredSame(before, places, after);
    assert handled == before + [e.pdu];
    AnsweredAppend(before, e.pdu, places);
    AnsweredAppend(before, e.pdu, after);
  }

  // --------------------------------------------------------- the whole of it

  ghost predicate Recorded(s: State) {
    && (forall w :: 0 <= w < |s.workers| ==> Historic(s.workers[w], s.arrivals))
    && (forall k :: 0 <= k < |s.sent| ==> Authored(s.sent[k], s.workers, s.arrivals))
  }

  ghost predicate Turned(s: State) {
    forall w :: 0 <= w < |s.workers| ==> InTurn(s.sent, w, s.workers[w].handled, s.places)
  }

  ghost predicate Inv(s: State) {
    && Ordered(s) && Placed(s) && Fated(s)
    && Accounted(s.sent, s.places, s.arrivals)
    && Recorded(s) && Turned(s)
  }

  lemma RecordedGrows(s: State, t: State, news: seq<Sent>, more: seq<F.Read>)
    requires Recorded(s) && t.sent == s.sent + news && t.arrivals == s.arrivals + more && |s.workers| <= |t.workers|
    requires forall k :: 0 <= k < |news| ==> Authored(news[k], t.workers, t.arrivals)
    requires forall w :: 0 <= w < |s.workers| ==> Extends(s.workers[w], t.workers[w])
    requires forall w :: 0 <= w < |t.workers| ==> Historic(t.workers[w], t.arrivals)
    ensures Recorded(t)
  {
    forall k | 0 <= k < |t.sent|
      ensures Authored(t.sent[k], t.workers, t.arrivals)
    {
      if k < |s.sent| {
        AuthoredStays(s.sent[k], s.workers, t.workers, s.arrivals, more);
      }
    }
  }

  /** Some change that concerns no session's past. */
  lemma RecordedStays(s: State, t: State)
    requires Recorded(s) && t.sent == s.sent && t.arrivals == s.arrivals && |t.workers| == |s.workers|
    requires forall w :: 0 <= w < |s.workers| ==> SamePast(s.workers[w], t.workers[w])
    ensures Recorded(t)
  {
    assert t.sent == s.sent + [] && t.arrivals == s.arrivals + [];
    RecordedGrows(s, t, [], []);
  }

  ghost predicate SamePast(x: Worker, y: Worker) {
    && y.kind == x.kind && y.events == x.events && y.handled == x.handled && y.pending == x.pending
    && (y.current.Replying? ==> y.current == x.current)
  }

  lemma AuthoredSame(e: Sent, before: seq<Worker>, after: seq<Worker>, arrivals: seq<F.Read>)
    requires Authored(e, before, arrivals) && |after| == |before|
    requires forall w :: 0 <= w < |before| ==> SamePast(before[w], after[w])
    ensures Authored(e, after, arrivals)
  {
    assert arrivals + [] == arrivals;
    AuthoredStays(e, before, after, arrivals, []);
  }

  lemma SubmitKeepsRecorded(s: State, t: State, e: Sent)
    requires Recorded(s) && t.sent == s.sent + [e] && t.arrivals == s.arrivals && |t.workers| == |s.workers|
    requires forall w :: 0 <= w < |s.workers| ==> SamePast(s.workers[w], t.workers[w])
    requires Authored(e, s.workers, s.arrivals)
    ensures Recorded(t)
  {
    AuthoredSame(e, s.workers, t.workers, s.arrivals);
    assert t.arrivals == s.arrivals + [];
    RecordedGrows(s, t, [e], []);
  }

  lemma HistoricStays(x: Worker, arrivals: seq<F.Read>, more: seq<F.Read>)
    requires Historic(x, arrivals)
    ensures Historic(x, arrivals + more)
  {
  }

  lemma MoveKeepsTurned(s: State, t: State, i: nat, q: Place)
    requires Turned(s) && t.sent == s.sent && |t.workers| == |s.workers|
    requires forall w :: 0 <= w < |s.workers| ==> t.workers[w].handled == s.workers[w].handled
    requires i < |s.places| && t.places == s.places[i := q] && !Settled(s.places[i]) && !s.places[i].Replied?
    ensures Turned(t)
  {
    forall w: nat | w < |s.workers|
      ensures InTurn(t.sent, w, t.workers[w].handled, t.places)
    {
      OtherKeepsInTurn(s.sent, w, s.workers[w].handled, s.places, i, q);
    }
  }

  lemma SubmitKeepsTurned(s: State, t: State, e: Sent)
    requires Turned(s) && t.sent == s.sent + [e] && t.workers == s.workers && !e.author.ByWorker?
    requires e.pdu < |s.places| && t.places == s.places[e.pdu := Answered]
    requires !Settled(s.places[e.pdu]) && !s.places[e.pdu].Replied?
    ensures Turned(t)
  {
    forall w: nat | w < |s.workers|
      ensures InTurn(t.sent, w, t.workers[w].handled, t.places)
    {
      OtherKeepsInTurn(s.sent, w, s.workers[w].handled, s.places, e.pdu, Answered);
      SentByAppend(s.sent, e, w);
    }
  }

  // ------------------------------------------------------------- each step

  lemma ReceiverAt(s: State)
    requires Placed(s) && !s.receiver.Reading?
    ensures s.receiver.pdu < |s.places| == |s.arrivals|
    ensures s.places[s.receiver.pdu] == if s.receiver.Offering? then Offered else Refused
  {
    assert Located(s, s.receiver.pdu, if s.receiver.Offering? then Offered else Refused);
  }

  lemma DispatcherAt(s: State)
    requires Placed(s) && !s.dispatcher.Ready?
    ensures s.dispatcher.pdu < |s.places| == |s.arrivals|
    ensures s.places[s.dispatcher.pdu] == PlaceAt(s.dispatcher)
  {
    assert Located(s, s.dispatcher.pdu, PlaceAt(s.dispatcher));
  }

  lemma WorkerAt(s: State, w: nat)
    requires Placed(s) && w < |s.workers|
    ensures var c := s.workers[w].current;
            !c.Idle? ==> c.pdu < |s.places| == |s.arrivals| && s.places[c.pdu] == PlaceOf(c, w)
    ensures forall i :: i in s.workers[w].queue ==> i < |s.places| && s.places[i] == Queued(w)
  {
    var c := s.workers[w].current;
    assert !c.Idle? ==> Located(s, c.pdu, PlaceOf(c, w));
    assert forall i :: i in s.workers[w].queue ==> Located(s, i, Queued(w));
  }

  /** A thread other than a session moves a PDU without answering it. */
  lemma ThreadMoves(s: State, t: State, i: nat, q: Place)
    requires Inv(s) && i < |s.places|
    requires t == s.(places := s.places[i := q], receiver := t.receiver, dispatcher := t.dispatcher, looked := t.looked)
    requires !Settled(s.places[i]) && !s.places[i].Replied? && !q.Answered? && Fits(q, s.arrivals[i], t)
    ensures Fated(t) && Accounted(t.sent, t.places, t.arrivals) && Recorded(t) && Turned(t)
  {
    MoveKeepsFated(s, t, i, q);
    MoveKeepsAccounted(s.sent, s.places, s.arrivals, i, q);
    RecordedStays(s, t);
    MoveKeepsTurned(s, t, i, q);
  }

  /** A thread other than a session hands over an error response. */
  ghost predicate Denies(s: State, t: State, e: Sent, error: u16) {
    && e.pdu < |s.places| && (s.places[e.pdu].Refused? || s.places[e.pdu].Denied?)
    && (e.author == if error == S.PARSE_ERROR then ByReceiver else ByDispatcher)
    && (error == S.PARSE_ERROR || error == S.NOT_OPEN) && FromError(e, s.arrivals, error)
    && t == s.(places := s.places[e.pdu := Answered], sent := s.sent + [e], transmitter := t.transmitter,
               receiver := t.receiver, dispatcher := t.dispatcher)
  }

  lemma ErrorEchoes(e: Sent, arrivals: seq<F.Read>, error: u16)
    requires FromError(e, arrivals, error)
    ensures Echoes(e.frame, arrivals[e.pdu].header)
  {
    FrameEchoes(S.ErrorReply(arrivals[e.pdu].header, error, 0), arrivals[e.pdu].header);
  }

  lemma DenialKeepsFrames(s: State, t: State, e: Sent, error: u16)
    requires Fated(s) && Accounted(s.sent, s.places, s.arrivals) && Denies(s, t, e, error)
    ensures Fated(t) && Accounted(t.sent, t.places, t.arrivals)
  {
    ErrorEchoes(e, s.arrivals, error);
    assert Fits(s.places[e.pdu], s.arrivals[e.pdu], s);
    MoveKeepsFated(s, t, e.pdu, Answered);
    SubmitKeepsAccounted(s.sent, s.places, s.arrivals, e);
  }

  lemma DenialKeepsPast(s: State, t: State, e: Sent, error: u16)
    requires Recorded(s) && Turned(s) && Denies(s, t, e, error)
    ensures Recorded(t) && Turned(t)
  {
    SubmitKeepsRecorded(s, t, e);
    SubmitKeepsTurned(s, t, e);
  }

  lemma ArriveKeeps(s: State)
    requires Inv(s) && Enabled(s, Arrive)
    ensures Inv(Do(s, Arrive))
  {
    ReadIsTyped(s.unread);
    ReadKeeps(s, F.ReadFrame(s.unread));
  }

  lemma ReadIsTyped(stream: Octets)
    ensures Typed(F.ReadFrame(stream))
  {
    var r := F.ReadFrame(stream);
    if r.Frame? {
      var payload := stream[H.HEADER_SIZE..H.HEADER_SIZE + H.Decode(stream).payloadLength];
      P.DecodeKeepsType(r.header.typ, payload, H.OrderOf(r.header.flags));
    }
  }

  lemma ReadKeeps(s: State, r: F.Read)
    requires Inv(s) && s.receiver.Reading? && r.Answerable() && r.size <= |s.unread| && Typed(r)
    ensures Inv(DoArrive(s, r))
  {
    var t := DoArrive(s, r);
    var n, p := |s.arrivals|, t.places[|s.places|];
    ThreadsKeepOrder(s, t);
    ArriveKeepsPlaced(s, t, p, r);
    ArriveKeepsFated(s, t, r, p);
    ArriveKeepsAccounted(s.sent, s.places, s.arrivals, p, r);
    ArriveKeepsRecorded(s, t, r);
    ArriveKeepsTurned(s, t, p);
  }

  lemma ArriveKeepsPlaced(s: State, t: State, p: Place, r: F.Read)
    requires Placed(s) && s.receiver.Reading? && t.places == s.places + [p] && t.arrivals == s.arrivals + [r]
    requires t.workers == s.workers && t.dispatcher == s.dispatcher
    requires p.Offered? || p.Refused? || Settled(p)
    requires t.receiver == if p.Offered? then Offering(|s.places|)
                           else if p.Refused? then Refusing(|s.places|) else Reading
    ensures Placed(t)
  {
    var n := |s.places|;
    forall i: nat, q | Located(t, i, q) && !Settled(q)
      ensures i < |t.places| && t.places[i] == q
    {
      if !q.Offered? && !q.Refused? {
        assert Located(s, i, q);
      }
    }
    forall i: nat | i < |t.places|
      ensures Located(t, i, t.places[i])
    {
      if i < n {
        assert Located(s, i, s.places[i]);
      }
    }
  }

  lemma ArriveKeepsRecorded(s: State, t: State, r: F.Read)
    requires Recorded(s) && t.sent == s.sent && t.arrivals == s.arrivals + [r] && t.workers == s.workers
    ensures Recorded(t)
  {
    forall w | 0 <= w < |t.workers|
      ensures Historic(t.workers[w], t.arrivals)
    {
      HistoricStays(s.workers[w], s.arrivals, [r]);
    }
    assert t.sent == s.sent + [];
    RecordedGrows(s, t, [], [r]);
  }

  lemma ArriveKeepsTurned(s: State, t: State, p: Place)
    requires Turned(s) && t.sent == s.sent && t.workers == s.workers && t.places == s.places + [p]
    ensures Turned(t)
  {
    forall w: nat | w < |s.workers|
      ensures InTurn(t.sent, w, t.workers[w].handled, t.places)
    {
      AnsweredSame(s.workers[w].handled, s.places, t.places);
    }
  }

  lemma SubmitRefusalKeeps(s: State)
    requires Inv(s) && Enabled(s, SubmitRefusal)
    ensures Inv(Do(s, SubmitRefusal))
  {
    var i, t := s.receiver.pdu, Do(s, SubmitRefusal);
    ReceiverAt(s);
    ThreadsKeepOrder(s, t);
    ReceiverMoves(s, t, i, Answered);
    var e := t.sent[|s.sent|];
    DenialKeepsFrames(s, t, e, S.PARSE_ERROR);
    DenialKeepsPast(s, t, e, S.PARSE_ERROR);
  }

  lemma AbandonReceiverKeeps(s: State)
    requires Inv(s) && Enabled(s, AbandonReceiver)
    ensures Inv(Do(s, AbandonReceiver))
  {
    var i, t := s.receiver.pdu, Do(s, AbandonReceiver);
    ReceiverAt(s);
    ThreadsKeepOrder(s, t);
    ReceiverMoves(s, t, i, Lost(None));
    ThreadMoves(s, t, i, Lost(None));
  }

  lemma HandKeeps(s: State)
    requires Inv(s) && Enabled(s, Hand)
    ensures Inv(Do(s, Hand))
  {
    var i, t := s.receiver.pdu, Do(s, Hand);
    ReceiverAt(s);
    ThreadsKeepOrder(s, t);
    ReceiverMoves(s, t, i, Routed);
    ThreadMoves(s, t, i, Routed);
  }

  /** Where the dispatcher may send a PDU. */
  ghost predicate Directs(s: State, t: State, i: nat, q: Place) {
    && i < |s.places| == |s.arrivals| && Known(s, i)
    && t == s.(places := s.places[i := q], dispatcher := t.dispatcher, looked := t.looked)
    && Fits(q, s.arrivals[i], t)
    && (if t.dispatcher.Ready? then q.Silent? || q.Lost?
        else t.dispatcher.pdu == i && q == PlaceAt(t.dispatcher)
             && (t.dispatcher.Entering? ==> t.dispatcher.worker < |s.workers|))
  }

  lemma DispatchDirects(s: State)
    requires Ordered(s) && Placed(s) && Fated(s) && Enabled(s, Dispatch)
    ensures var i, t := s.dispatcher.pdu, DoDispatch(s); i < |t.places| && Directs(s, t, i, t.places[i])
  {
    var i := s.dispatcher.pdu;
    DispatcherAt(s);
    assert Fits(s.places[i], s.arrivals[i], s);
  }

  lemma DirectKeeps(s: State, t: State, i: nat, q: Place)
    requires Inv(s) && !s.dispatcher.Ready? && i == s.dispatcher.pdu && Directs(s, t, i, q)
    ensures Inv(t)
  {
    DispatcherAt(s);
    ThreadsKeepOrder(s, t);
    DispatcherMoves(s, t, i, q);
    ThreadMoves(s, t, i, q);
  }

  lemma DispatchKeeps(s: State)
    requires Inv(s) && Enabled(s, Dispatch)
    ensures Inv(Do(s, Dispatch))
  {
    DispatchDirects(s);
    DirectKeeps(s, DoDispatch(s), s.dispatcher.pdu, DoDispatch(s).places[s.dispatcher.pdu]);
  }

  lemma SubmitDenialKeeps(s: State)
    requires Inv(s) && Enabled(s, SubmitDenial)
    ensures Inv(Do(s, SubmitDenial))
  {
    var i, t := s.dispatcher.pdu, Do(s, SubmitDenial);
    DispatcherAt(s);
    ThreadsKeepOrder(s, t);
    DispatcherMoves(s, t, i, Answered);
    var e := t.sent[|s.sent|];
    DenialKeepsFrames(s, t, e, S.NOT_OPEN);
    DenialKeepsPast(s, t, e, S.NOT_OPEN);
  }

  lemma AbandonDispatcherKeeps(s: State)
    requires Inv(s) && Enabled(s, AbandonDispatcher)
    ensures Inv(Do(s, AbandonDispatcher))
  {
    var i, t := s.dispatcher.pdu, Do(s, AbandonDispatcher);
    DirectKeeps(s, t, i, t.places[i]);
  }

  /** Only session `w` changes, and it does not open again. */
  ghost predicate OnlyWorker(s: State, t: State, w: nat) {
    && w < |s.workers| == |t.workers| && t.workers == s.workers[w := t.workers[w]]
    && (s.workers[w].closed ==> t.workers[w].closed)
    && t.arrivals == s.arrivals && t.closed == s.closed
  }

  lemma WorkerMoveKeepsFated(s: State, t: State, i: nat, w: nat, q: Place)
    requires Fated(s) && OnlyWorker(s, t, w) && i < |s.places| && t.places == s.places[i := q]
    requires Fits(q, s.arrivals[i], t) && Echoing(t.workers[w].current, t.arrivals)
    ensures Fated(t)
  {
    forall v | 0 <= v < |t.workers|
      ensures Echoing(t.workers[v].current, t.arrivals)
    {
      assert v != w ==> t.workers[v] == s.workers[v];
    }
    MoveKeepsFated(s, t, i, q);
  }

  /** A session's queue or hands change, but not its past. */
  lemma QueueMovesFated(s: State, t: State, i: nat, w: nat, q: Place)
    requires Fated(s) && OnlyWorker(s, t, w) && i < |s.places| && t.places == s.places[i := q]
    requires t.workers[w].current.Replying? ==> t.workers[w].current == s.workers[w].current
    requires (s.places[i].AtDoor? || s.places[i].Queued?) && (q.Queued? || q.InHand?)
    ensures Fated(t)
  {
    assert Fits(s.places[i], s.arrivals[i], s) && Echoing(s.workers[w].current, s.arrivals);
    WorkerMoveKeepsFated(s, t, i, w, q);
  }

  lemma QueueMovesPast(s: State, t: State, i: nat, w: nat, q: Place)
    requires Recorded(s) && Turned(s) && OnlyWorker(s, t, w) && t.sent == s.sent
    requires i < |s.places| && t.places == s.places[i := q] && SamePast(s.workers[w], t.workers[w])
    requires s.places[i].AtDoor? || s.places[i].Queued?
    ensures Recorded(t) && Turned(t)
  {
    forall v | 0 <= v < |s.workers|
      ensures SamePast(s.workers[v], t.workers[v])
    {
      assert v != w ==> t.workers[v] == s.workers[v];
    }
    RecordedStays(s, t);
    MoveKeepsTurned(s, t, i, q);
  }

  lemma QueueMoves(s: State, t: State, i: nat, w: nat, q: Place)
    requires Fated(s) && Accounted(s.sent, s.places, s.arrivals) && Recorded(s) && Turned(s)
    requires OnlyWorker(s, t, w) && t.sent == s.sent && i < |s.places| && t.places == s.places[i := q]
    requires SamePast(s.workers[w], t.workers[w])
    requires s.places[i].AtDoor? || s.places[i].Queued?
    requires q.Queued? || q.InHand?
    ensures Fated(t) && Accounted(t.sent, t.places, t.arrivals) && Recorded(t) && Turned(t)
  {
    QueueMovesFated(s, t, i, w, q);
    MoveKeepsAccounted(s.sent, s.places, s.arrivals, i, q);
    QueueMovesPast(s, t, i, w, q);
  }

  lemma EnqueueKeeps(s: State)
    requires Inv(s) && Enabled(s, Enqueue)
    ensures Inv(Do(s, Enqueue))
  {
    var i, w, t := s.dispatcher.pdu, s.dispatcher.worker, Do(s, Enqueue);
    DispatcherAt(s);
    EnqueueKeepsOrder(s.workers[w], i);
    AcceptKeepsOrder(s, t, i, w);
    DispatcherEnqueues(s, t, i, w);
    QueueMoves(s, t, i, w, Queued(w));
  }

  lemma AcceptKeepsOrder(s: State, t: State, i: nat, w: nat)
    requires Ordered(s) && s.dispatcher == Entering(i, w) && OnlyWorker(s, t, w)
    requires InOrder(t.workers[w]) && t.workers[w].accepted == s.workers[w].accepted + [i]
    requires t.table == s.table && t.receiver == s.receiver && t.dispatcher.Ready?
    ensures Ordered(t)
  {
  }

  lemma TakeKeeps(s: State, w: nat)
    requires Inv(s) && Enabled(s, Take(w))
    ensures Inv(Do(s, Take(w)))
  {
    var x, t := s.workers[w], Do(s, Take(w));
    var i := x.queue[0];
    WorkerAt(s, w);
    HeadOnce(x);
    WorkerKeepsOrder(x, t.workers[w]);
    OneWorkerKeepsOrder(s, t, w);
    WorkerTakes(s, t, i, w);
    QueueMoves(s, t, i, w, InHand(w));
  }

  lemma HandleKeeps(s: State, w: nat, oracle: S.Oracle)
    requires Inv(s) && Enabled(s, Handle(w, oracle))
    ensures Inv(Do(s, Handle(w, oracle)))
  {
    var e := EventFor(s, w, oracle);
    HandlingOwes(s, w, oracle);
    ConcludeKeeps(s, w, e, OutcomeOf(s.workers[w], e));
    HandleKeepsRecorded(s, w, oracle);
  }

  lemma HandlingOwes(s: State, w: nat, oracle: S.Oracle)
    requires Placed(s) && Fated(s) && Enabled(s, Handle(w, oracle))
    ensures var e := EventFor(s, w, oracle); Owes(e.header, OutcomeOf(s.workers[w], e))
  {
    var i := s.workers[w].current.pdu;
    WorkerAt(s, w);
    assert Fits(s.places[i], s.arrivals[i], s) && Typed(s.arrivals[i]);
    OutcomeReplies(s.workers[w], EventFor(s, w, oracle));
  }

  /** What concluding does to the session's past. */
  lemma ConcludeWorker(s: State, w: nat, e: ST.Event, o: S.Outcome)
    requires w < |s.workers| && s.workers[w].current.Handling? && s.workers[w].current.pdu < |s.places|
    ensures var x, t := s.workers[w], Conclude(s, w, e, o);
            && OnlyWorker(s, t, w) && t.sent == s.sent
            && var y := t.workers[w];
               && y.kind == x.kind && y.events == x.events + [e] && y.handled == x.handled + [x.current.pdu]
               && y.pending == o.pending && (y.current.Replying? ==> o.reply == Some(y.current.reply))
  {
  }

  lemma HandleKeepsRecorded(s: State, w: nat, oracle: S.Oracle)
    requires Recorded(s) && Enabled(s, Handle(w, oracle))
    ensures var e := EventFor(s, w, oracle); Recorded(Conclude(s, w, e, OutcomeOf(s.workers[w], e)))
  {
    var x, e := s.workers[w], EventFor(s, w, oracle);
    var o := OutcomeOf(x, e);
    ConcludeWorker(s, w, e, o);
    HandledRecorded(s, Conclude(s, w, e, o), w, e, o);
  }

  lemma HandledRecorded(s: State, t: State, w: nat, e: ST.Event, o: S.Outcome)
    requires Recorded(s) && OnlyWorker(s, t, w) && t.sent == s.sent && s.workers[w].current.Handling?
    requires o == OutcomeOf(s.workers[w], e) && SameRequest(e, s.arrivals, s.workers[w].current.pdu)
    requires var x, y := s.workers[w], t.workers[w];
             && y.kind == x.kind && y.events == x.events + [e] && y.handled == x.handled + [x.current.pdu]
             && y.pending == o.pending && (y.current.Replying? ==> o.reply == Some(y.current.reply))
    ensures Recorded(t)
  {
    var i := s.workers[w].current.pdu;
    HandleKeepsHistoric(s.workers[w], t.workers[w], s.arrivals, i, e);
    EventRecorded(s, t, w, i, e);
  }

  /** A request that expects a response gets one with its ids; a CleanupSet gets none. */
  ghost predicate Owes(h: H.Header, o: S.Outcome) {
    (o.reply.Some? <==> F.ExpectsResponse(h.typ)) && (o.reply.Some? ==> Replies(o.reply.value, h))
  }

  lemma OutcomeReplies(x: Worker, e: ST.Event)
    requires P.TypeOf(e.packet) == e.header.typ != P.RESPONSE
    requires e.header.typ == P.CLEANUP_SET ==> e.packet.CleanupSet?
    ensures Owes(e.header, OutcomeOf(x, e))
  {
    S.ReplyEchoes(x.kind, x.pending, e.header, e.packet, e.oracle);
  }

  /** What handling does to the session and the PDU. */
  lemma ConcludeEffect(s: State, w: nat, e: ST.Event, o: S.Outcome)
    requires w < |s.workers| && s.workers[w].current.Handling? && s.workers[w].current.pdu < |s.places| == |s.arrivals|
    requires var r := s.arrivals[s.workers[w].current.pdu]; r.Frame? && r.header == e.header && Owes(e.header, o)
    ensures var i, t := s.workers[w].current.pdu, Conclude(s, w, e, o);
            i < |t.places| && Concludes(s, t, w, i, t.places[i])
  {
  }

  ghost predicate Handled(x: Worker, y: Worker, w: nat, i: nat, q: Place, r: F.Read) {
    && y.kind == x.kind && y.handled == x.handled + [i]
    && y.queue == x.queue && y.accepted == x.accepted && y.closed == x.closed
    && r.Frame?
    && (if y.current.Idle? then q == Silent && !Expects(r)
        else y.current.Replying? && y.current.pdu == i && q == Replied(w)
             && Expects(r) && Replies(y.current.reply, r.header))
  }

  /** The PDU in hand becomes part of the past of session `w`. */
  ghost predicate Concludes(s: State, t: State, w: nat, i: nat, q: Place) {
    && OnlyWorker(s, t, w) && t.receiver == s.receiver && t.dispatcher == s.dispatcher
    && t.table == s.table && t.sent == s.sent
    && s.workers[w].current == Handling(i) && i < |s.places| == |s.arrivals| && t.places == s.places[i := q]
    && Handled(s.workers[w], t.workers[w], w, i, q, s.arrivals[i])
  }

  lemma ConcludeKeepsThreads(s: State, t: State, w: nat, i: nat, q: Place)
    requires Ordered(s) && Placed(s) && Concludes(s, t, w, i, q)
    ensures Ordered(t) && Placed(t)
  {
    WorkerKeepsOrder(s.workers[w], t.workers[w]);
    OneWorkerKeepsOrder(s, t, w);
    WorkerMoves(s, t, i, w, q);
  }

  lemma ConcludeKeepsFates(s: State, t: State, w: nat, i: nat, q: Place)
    requires Fated(s) && Accounted(s.sent, s.places, s.arrivals) && Turned(s) && Concludes(s, t, w, i, q)
    requires s.places[i] == InHand(w)
    ensures Fated(t) && Accounted(t.sent, t.places, t.arrivals) && Turned(t)
  {
    WorkerMoveKeepsFated(s, t, i, w, q);
    MoveKeepsAccounted(s.sent, s.places, s.arrivals, i, q);
    HandleKeepsTurned(s, t, w, i, q);
  }

  lemma ConcludeKeeps(s: State, w: nat, e: ST.Event, o: S.Outcome)
    requires Ordered(s) && Placed(s) && Fated(s) && Accounted(s.sent, s.places, s.arrivals) && Turned(s)
    requires w < |s.workers| && s.workers[w].current.Handling? && s.workers[w].current.pdu < |s.places| == |s.arrivals|
    requires var r := s.arrivals[s.workers[w].current.pdu]; r.Frame? && r.header == e.header && Owes(e.header, o)
    ensures var t := Conclude(s, w, e, o);
            Ordered(t) && Placed(t) && Fated(t) && Accounted(t.sent, t.places, t.arrivals) && Turned(t)
  {
    var i, t := s.workers[w].current.pdu, Conclude(s, w, e, o);
    WorkerAt(s, w);
    ConcludeEffect(s, w, e, o);
    ConcludeKeepsThreads(s, t, w, i, t.places[i]);
    ConcludeKeepsFates(s, t, w, i, t.places[i]);
  }

  lemma EventRecorded(s: State, t: State, w: nat, i: nat, e: ST.Event)
    requires Recorded(s) && OnlyWorker(s, t, w) && t.sent == s.sent && Historic(t.workers[w], s.arrivals)
    requires t.workers[w].kind == s.workers[w].kind
    requires t.workers[w].events == s.workers[w].events + [e] && t.workers[w].handled == s.workers[w].handled + [i]
    ensures Recorded(t)
  {
    assert t.sent == s.sent + [] && t.arrivals == s.arrivals + [];
    forall v | 0 <= v < |s.workers|
      ensures Extends(s.workers[v], t.workers[v]) && Historic(t.workers[v], t.arrivals)
    {
      assert v != w ==> t.workers[v] == s.workers[v];
    }
    RecordedGrows(s, t, [], []);
  }

  lemma HandleKeepsTurned(s: State, t: State, w: nat, i: nat, q: Place)
    requires Turned(s) && OnlyWorker(s, t, w) && t.sent == s.sent
    requires i < |s.places| && s.places[i] == InHand(w) && t.places == s.places[i := q]
    requires q == Silent || q == Replied(w)
    requires t.workers[w].handled == s.workers[w].handled + [i]
    ensures Turned(t)
  {
    forall v: nat | v < |s.workers|
      ensures InTurn(t.sent, v, t.workers[v].handled, t.places)
    {
      if v == w {
        HandleKeepsInTurn(s.sent, w, s.workers[w].handled, s.places, i, q);
      } else {
        OtherKeepsInTurn(s.sent, v, s.workers[v].handled, s.places, i, q);
      }
    }
  }

  /** The head of a queue is in it once. */
  lemma HeadOnce(x: Worker)
    requires InOrder(x) && x.queue != []
    ensures x.queue[0] !in x.queue[1..]
  {
    var n := |x.accepted| - |x.queue|;
    assert forall k :: 0 <= k < |x.queue| ==> x.queue[k] == x.accepted[n + k];
  }

  lemma HandledIncreasing(x: Worker)
    requires InOrder(x)
    ensures Increasing(x.handled)
  {
    assert forall k :: 0 <= k < |x.handled| ==> x.handled[k] == x.accepted[k];
  }

  lemma SubmitReplyKeeps(s: State, w: nat)
    requires Inv(s) && Enabled(s, SubmitReply(w))
    ensures Inv(Do(s, SubmitReply(w)))
  {
    var x, t := s.workers[w], Do(s, SubmitReply(w));
    var i := x.current.pdu;
    var e := Sent(i, ByWorker(w), FrameOf(x.current.reply));
    WorkerAt(s, w);
    WorkerKeepsOrder(x, t.workers[w]);
    OneWorkerKeepsOrder(s, t, w);
    WorkerMoves(s, t, i, w, Answered);
    ReplyKeepsFrames(s, t, w, e);
    ReplyKeepsPast(s, t, w, e);
  }

  /** Session `w` hands over the frame it was about to send. */
  ghost predicate HandsOver(s: State, t: State, w: nat, e: Sent) {
    && OnlyWorker(s, t, w) && t.workers[w] == s.workers[w].(current := Idle)
    && s.workers[w].current.Replying?
    && e == Sent(s.workers[w].current.pdu, ByWorker(w), FrameOf(s.workers[w].current.reply))
    && e.pdu < |s.places| && s.places[e.pdu] == Replied(w)
    && t.sent == s.sent + [e] && t.places == s.places[e.pdu := Answered]
  }

  lemma ReplyKeepsFrames(s: State, t: State, w: nat, e: Sent)
    requires Fated(s) && Accounted(s.sent, s.places, s.arrivals) && HandsOver(s, t, w, e)
    ensures Fated(t) && Accounted(t.sent, t.places, t.arrivals)
  {
    var c := s.workers[w].current;
    assert Fits(s.places[e.pdu], s.arrivals[e.pdu], s) && Echoing(c, s.arrivals);
    FrameEchoes(c.reply, s.arrivals[e.pdu].header);
    WorkerMoveKeepsFated(s, t, e.pdu, w, Answered);
    SubmitKeepsAccounted(s.sent, s.places, s.arrivals, e);
  }

  lemma ReplyKeepsPast(s: State, t: State, w: nat, e: Sent)
    requires Ordered(s) && Recorded(s) && Turned(s) && HandsOver(s, t, w, e)
    ensures Recorded(t) && Turned(t)
  {
    LastAnswers(s.workers[w], e, s.arrivals);
    SubmitKeepsRecorded(s, t, e);
    ReplyKeepsTurned(s, t, w, e);
  }

  /** What a session is replying with answers the last request it handled. */
  lemma LastAnswers(x: Worker, e: Sent, arrivals: seq<F.Read>)
    requires InOrder(x) && Historic(x, arrivals) && x.current.Replying?
    requires e.pdu == x.current.pdu && e.frame == FrameOf(x.current.reply)
    ensures AnswersEvent(e, x, |x.events| - 1)
  {
  }

  lemma ReplyKeepsTurned(s: State, t: State, w: nat, e: Sent)
    requires Turned(s) && Ordered(s) && OnlyWorker(s, t, w) && t.workers[w].handled == s.workers[w].handled
    requires s.workers[w].current.Replying? && s.workers[w].current.pdu == e.pdu && e.author == ByWorker(w)
    requires e.pdu < |s.places| && s.places[e.pdu] == Replied(w)
    requires t.sent == s.sent + [e] && t.places == s.places[e.pdu := Answered]
    ensures Turned(t)
  {
    forall v: nat | v < |s.workers|
      ensures InTurn(t.sent, v, t.workers[v].handled, t.places)
    {
      if v == w {
        HandledIncreasing(s.workers[w]);
        ReplyKeepsInTurn(s.sent, w, s.workers[w].handled, s.places, e);
      } else {
        OtherKeepsInTurn(s.sent, v, s.workers[v].handled, s.places, e.pdu, Answered);
        SentByAppend(s.sent, e, v);
      }
    }
  }

  lemma AbandonReplyKeeps(s: State, w: nat)
    requires Inv(s) && Enabled(s, AbandonReply(w))
    ensures Inv(Do(s, AbandonReply(w)))
  {
    var x, t := s.workers[w], Do(s, AbandonReply(w));
    var i := x.current.pdu;
    WorkerAt(s, w);
    WorkerKeepsOrder(x, t.workers[w]);
    OneWorkerKeepsOrder(s, t, w);
    WorkerMoves(s, t, i, w, Lost(None));
    AbandonKeepsRest(s, t, w, i);
  }

  lemma AbandonKeepsTurned(s: State, t: State, w: nat, i: nat)
    requires Turned(s) && OnlyWorker(s, t, w) && t.workers[w].handled == s.workers[w].handled
    requires i < |s.places| && s.places[i] == Replied(w) && t.sent == s.sent && t.places == s.places[i := Lost(None)]
    ensures Turned(t)
  {
    forall v: nat | v < |s.workers|
      ensures InTurn(t.sent, v, t.workers[v].handled, t.places)
    {
      if v == w {
        AbandonKeepsInTurn(s.sent, w, s.workers[w].handled, s.places, i);
      } else {
        OtherKeepsInTurn(s.sent, v, s.workers[v].handled, s.places, i, Lost(None));
      }
    }
  }

  lemma AbandonKeepsRest(s: State, t: State, w: nat, i: nat)
    requires Fated(s) && Accounted(s.sent, s.places, s.arrivals) && Recorded(s) && Turned(s)
    requires OnlyWorker(s, t, w) && t.workers[w] == s.workers[w].(current := Idle) && s.closed
    requires i < |s.places| && s.places[i] == Replied(w) && t.sent == s.sent && t.places == s.places[i := Lost(None)]
    ensures Fated(t) && Accounted(t.sent, t.places, t.arrivals) && Recorded(t) && Turned(t)
  {
    assert Fits(s.places[i], s.arrivals[i], s);
    WorkerMoveKeepsFated(s, t, i, w, Lost(None));
    MoveKeepsAccounted(s.sent, s.places, s.arrivals, i, Lost(None));
    RecordedStays(s, t);
    AbandonKeepsTurned(s, t, w, i);
  }

  // ------------------------------------------------------ sessions come and go

  lemma {:induction false} NothingSentBy(sent: seq<Sent>, w: nat)
    requires forall k :: 0 <= k < |sent| ==> sent[k].author != ByWorker(w)
    ensures SentBy(sent, w) == []
  {
    if sent != [] {
      NothingSentBy(sent[..|sent| - 1], w);
    }
  }

  /** Where the PDUs are depends on the queues and hands of the sessions. */
  lemma SameThreadsKeepPlaced(s: State, t: State)
    requires Placed(s) && t.places == s.places && t.arrivals == s.arrivals
    requires t.receiver == s.receiver && t.dispatcher == s.dispatcher && |s.workers| <= |t.workers|
    requires forall w :: 0 <= w < |s.workers| ==>
               t.workers[w].queue == s.workers[w].queue && t.workers[w].current == s.workers[w].current
    requires forall w :: |s.workers| <= w < |t.workers| ==> t.workers[w].queue == [] && t.workers[w].current.Idle?
    ensures Placed(t)
  {
    assert forall j: nat, p :: Located(t, j, p) <==> Located(s, j, p);
  }

  lemma AddSessionKeeps(s: State, kind: S.Kind)
    requires Inv(s)
    ensures Inv(Do(s, AddSession(kind)))
  {
    var t := Do(s, AddSession(kind));
    AddKeepsOrder(s, t);
    SameThreadsKeepPlaced(s, t);
    ControlKeepsFated(s, t);
    AddKeepsRecorded(s, t, kind);
    NewWorkerIsNoAuthor(s);
    AddKeepsTurned(s, t);
  }

  lemma AddKeepsOrder(s: State, t: State)
    requires Ordered(s) && |t.workers| == |s.workers| + 1 && t.workers == s.workers + [t.workers[|s.workers|]]
    requires var x := t.workers[|s.workers|]; x.accepted == x.handled == x.queue == [] && x.current.Idle?
    requires t == s.(workers := t.workers)
    ensures Ordered(t)
  {
  }

  lemma AddKeepsRecorded(s: State, t: State, kind: S.Kind)
    requires Recorded(s) && t.workers == s.workers + [Worker(kind, map[], [], Idle, false, [], [], [])]
    requires t.sent == s.sent && t.arrivals == s.arrivals
    ensures Recorded(t)
  {
    assert t.sent == s.sent + [] && t.arrivals == s.arrivals + [];
    RecordedGrows(s, t, [], []);
  }

  lemma AddKeepsTurned(s: State, t: State)
    requires Turned(s) && |t.workers| == |s.workers| + 1 && t.workers[|s.workers|].handled == []
    requires forall w :: 0 <= w < |s.workers| ==> t.workers[w] == s.workers[w]
    requires forall k :: 0 <= k < |s.sent| ==> s.sent[k].author != ByWorker(|s.workers|)
    requires t.sent == s.sent && t.places == s.places
    ensures Turned(t)
  {
    NothingSentBy(s.sent, |s.workers|);
  }

  lemma NewWorkerIsNoAuthor(s: State)
    requires Recorded(s)
    ensures forall k :: 0 <= k < |s.sent| ==> s.sent[k].author != ByWorker(|s.workers|)
  {
    assert forall k :: 0 <= k < |s.sent| ==> Authored(s.sent[k], s.workers, s.arrivals);
  }

  lemma CloseSessionKeeps(s: State, w: nat)
    requires Inv(s) && w < |s.workers|
    ensures Inv(Do(s, CloseSession(w)))
  {
    var t := Do(s, CloseSession(w));
    WorkerKeepsOrder(s.workers[w], t.workers[w]);
    OneWorkerKeepsOrder(s, t, w);
    CloseKeepsRest(s, t, w);
  }

  lemma ClosingOnly(s: State, t: State, w: nat)
    requires w < |s.workers| && t == SetWorker(s, w, s.workers[w].(closed := true))
    ensures |t.workers| == |s.workers| && StaysClosed(s, t)
    ensures forall v :: 0 <= v < |s.workers| ==>
              && SamePast(s.workers[v], t.workers[v])
              && t.workers[v].queue == s.workers[v].queue && t.workers[v].current == s.workers[v].current
  {
  }

  lemma CloseKeepsRest(s: State, t: State, w: nat)
    requires Placed(s) && Fated(s) && Recorded(s) && Turned(s) && w < |s.workers|
    requires t == SetWorker(s, w, s.workers[w].(closed := true))
    ensures Placed(t) && Fated(t) && Recorded(t) && Turned(t)
  {
    ClosingOnly(s, t, w);
    SameThreadsKeepPlaced(s, t);
    ControlKeepsFated(s, t);
    RecordedStays(s, t);
    TurnedStays(s, t);
  }

  lemma TurnedStays(s: State, t: State)
    requires Turned(s) && t.sent == s.sent && t.places == s.places && |t.workers| == |s.workers|
    requires forall v :: 0 <= v < |s.workers| ==> SamePast(s.workers[v], t.workers[v])
    ensures Turned(t)
  {
  }

  /** A change that concerns no PDU and no session. */
  lemma SameThreadsKeep(s: State, t: State)
    requires Inv(s) && t.arrivals == s.arrivals && t.places == s.places && t.sent == s.sent && t.workers == s.workers
    requires t.receiver == s.receiver && t.dispatcher == s.dispatcher && (s.closed ==> t.closed)
    requires forall id :: id in t.table ==> t.table[id] < |t.workers|
    ensures Inv(t)
  {
    SameThreadsKeepPlaced(s, t);
    ControlKeepsFated(s, t);
    RecordedStays(s, t);
    TurnedStays(s, t);
  }

  lemma SettingKeeps(s: State, step: Step)
    requires Inv(s) && Enabled(s, step)
    requires step.Connect? || step.SetTable? || step.CloseClient? || step.Write? || step.SendOwn?
    ensures Inv(Do(s, step))
  {
    SameThreadsKeep(s, Do(s, step));
  }

  lemma StepKeeps(s: State, step: Step)
    requires Inv(s) && Enabled(s, step)
    ensures Inv(Do(s, step))
  {
    match step
    case Connect(_) => SettingKeeps(s, step);
    case Arrive => ArriveKeeps(s);
    case SubmitRefusal => SubmitRefusalKeeps(s);
    case AbandonReceiver => AbandonReceiverKeeps(s);
    case Hand => HandKeeps(s);
    case Dispatch => DispatchKeeps(s);
    case SubmitDenial => SubmitDenialKeeps(s);
    case Enqueue => EnqueueKeeps(s);
    case AbandonDispatcher => AbandonDispatcherKeeps(s);
    case Take(w) => TakeKeeps(s, w);
    case Handle(w, oracle) => HandleKeeps(s, w, oracle);
    case SubmitReply(w) => SubmitReplyKeeps(s, w);
    case AbandonReply(w) => AbandonReplyKeeps(s, w);
    case AddSession(kind) => AddSessionKeeps(s, kind);
    case Write => SettingKeeps(s, step);
    case SendOwn => SettingKeeps(s, step);
    case SetTable(_) => SettingKeeps(s, step);
    case CloseSession(w) => CloseSessionKeeps(s, w);
    case CloseClient => SettingKeeps(s, step);
  }
}
