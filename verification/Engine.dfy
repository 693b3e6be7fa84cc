/**
 * The engine (client.go, session.go): the receiver, the dispatcher and one worker per session, as
 * interleaved steps. Every PDU is followed from the connection to the frame that answers it.
 */
module Engine {
  import opened Wire
  import F = Framing
  import H = Headers
  import P = Packets
  import S = Sessions
  import ST = SetTransactions

  const QUEUE_SIZE := 16

  // ---------------------------------------------------------------- sending

  /** What `send` puts on the wire: the packet, or a genErr response when it cannot be encoded. */
  function FrameOf(reply: S.Reply): (frame: Octets) {
    match F.Encode(reply.header, reply.packet, Little)
    case Ok(data) => data
    case Err =>
      match F.Encode(S.ReplyHeader(reply.header), GenErr(), Little)
      case Ok(data) => data
      case Err => []
  }

  /** The frame is a Response with the ids of the request it answers. */
  predicate Echoes(frame: Octets, request: H.Header) {
    && |frame| >= H.HEADER_SIZE
    && var h := H.Decode(frame);
       && h.version == H.VERSION && h.typ == P.RESPONSE
       && h.sessionID == request.sessionID && h.transactionID == request.transactionID && h.packetID == request.packetID
  }

  /** A reply that handling may produce: its header echoes the request. */
  predicate Replies(reply: S.Reply, request: H.Header) {
    reply.header == S.ReplyHeader(request) && reply.packet.Response?
  }

  /** The responses the library builds itself always encode, so that `send` always has a frame. */
  lemma ErrorsEncode(h: H.Header, error: u16, index: u16)
    ensures F.Encode(h, P.Response(0, error, index, []), Little).Ok?
  {
  }

  lemma FrameEchoes(reply: S.Reply, request: H.Header)
    requires Replies(reply, request)
    ensures Echoes(FrameOf(reply), request)
  {
    if F.Encode(reply.header, reply.packet, Little).Ok? {
      F.FrameHeader(reply.header, reply.packet, Little);
    } else {
      ErrorsEncode(S.ReplyHeader(reply.header), S.GEN_ERR, 0);
      F.FrameHeader(S.ReplyHeader(reply.header), GenErr(), Little);
    }
  }

  function GenErr(): (p: P.Packet) {
    P.Response(0, S.GEN_ERR, 0, [])
  }

  lemma GenErrEncodes()
    ensures match P.Encode(GenErr(), Little)
            case Ok(payload) => |payload| == 8
            case Err => false
    ensures P.Normal(GenErr()) == GenErr() && P.Readable(GenErr())
  {
  }

  predicate SameIDs(g: H.Header, h: H.Header) {
    g.sessionID == h.sessionID && g.transactionID == h.transactionID && g.packetID == h.packetID
  }

  /** A reader finds the frame's packet, in normal form, under the ids it was sent with. */
  lemma ReadsBack(h: H.Header, p: P.Packet, payload: Octets, rest: Octets) returns (g: H.Header)
    requires H.OrderOf(h.flags) == Little && P.Readable(p)
    requires P.Encode(p, Little) == Ok(payload) && |payload| <= H.MAX_PAYLOAD_LENGTH
    ensures match F.Encode(h, p, Little)
            case Ok(f) => F.ReadFrame(f + rest) == F.Frame(g, P.Normal(p), |f|) && SameIDs(g, h)
            case Err => false
  {
    F.FrameRoundTrip(h, p, payload, rest);
    g := F.Stamped(h, p, payload);
  }

  lemma FallbackFrame(reply: S.Reply)
    requires F.Encode(reply.header, reply.packet, Little).Err?
    ensures match F.Encode(S.ReplyHeader(reply.header), GenErr(), Little)
            case Ok(f) => FrameOf(reply) == f
            case Err => false
  {
    GenErrEncodes();
  }

  /** An answer that cannot be encoded is replaced by one that a reader takes for a genErr response. */
  lemma FallbackIsGenErr(reply: S.Reply, rest: Octets) returns (g: H.Header)
    requires F.Encode(reply.header, reply.packet, Little).Err?
    ensures F.ReadFrame(FrameOf(reply) + rest) == F.Frame(g, GenErr(), |FrameOf(reply)|) && SameIDs(g, reply.header)
  {
    GenErrEncodes();
    FallbackFrame(reply);
    g := ReadsBack(S.ReplyHeader(reply.header), GenErr(), P.Encode(GenErr(), Little).value, rest);
  }

  // ------------------------------------------------------- what a frame says

  /** A reader of the frame, whatever follows it, gets this packet under the ids of the request. */
  ghost predicate Delivers(frame: Octets, request: H.Header, p: P.Packet, rest: Octets) {
    match F.ReadFrame(frame + rest)
    case Frame(g, q, size) => q == p && size == |frame| && SameIDs(g, request)
    case _ => false
  }

  /** A reader gets this error, without index and bindings. */
  ghost predicate DeliversError(frame: Octets, request: H.Header, error: u16, rest: Octets) {
    match F.ReadFrame(frame + rest)
    case Frame(g, q, size) =>
      && size == |frame| && SameIDs(g, request)
      && q.Response? && q.upTime == 0 && q.error == error && q.index == 0 && q.variables == []
    case _ => false
  }

  /** The ids of the request, everything else being for the encoder to fill in. */
  function HeaderFor(request: H.Header): (h: H.Header) {
    H.Header(0, 0, 0, request.sessionID, request.transactionID, request.packetID, 0)
  }

  /**
   * The frame is the packet encoded under the ids of the request, and is read back as the packet's
   * normal form when it is not too long to be read; a packet that does not encode goes out as genErr, 5.
   */
  ghost predicate Says(frame: Octets, request: H.Header, p: P.Packet, rest: Octets) {
    match P.Encode(p, Little)
    case Ok(payload) =>
      && F.Encode(HeaderFor(request), p, Little) == Ok(frame)
      && (|payload| <= 0x10_0000 ==> Delivers(frame, request, P.Normal(p), rest))
    case Err => DeliversError(frame, request, 5, rest)
  }

  lemma FrameIsEncoding(reply: S.Reply, payload: Octets)
    requires P.Encode(reply.packet, Little) == Ok(payload)
    ensures F.Encode(reply.header, reply.packet, Little) == Ok(FrameOf(reply))
  {
  }

  lemma ReadsAs(h: H.Header, p: P.Packet, payload: Octets, frame: Octets, rest: Octets)
    requires H.OrderOf(h.flags) == Little && P.Readable(p)
    requires P.Encode(p, Little) == Ok(payload) && |payload| <= 0x10_0000
    requires F.Encode(h, p, Little) == Ok(frame)
    ensures Delivers(frame, h, P.Normal(p), rest)
  {
    var g := ReadsBack(h, p, payload, rest);
  }

  lemma EncodedSays(reply: S.Reply, request: H.Header, payload: Octets, rest: Octets)
    requires Replies(reply, request) && P.Encode(reply.packet, Little) == Ok(payload)
    ensures F.Encode(reply.header, reply.packet, Little) == Ok(FrameOf(reply))
    ensures |payload| <= 0x10_0000 ==> Delivers(FrameOf(reply), request, P.Normal(reply.packet), rest)
  {
    FrameIsEncoding(reply, payload);
    if |payload| <= 0x10_0000 {
      ReadsAs(reply.header, reply.packet, payload, FrameOf(reply), rest);
    }
  }

  lemma UnencodableSays(reply: S.Reply, request: H.Header, rest: Octets)
    requires Replies(reply, request) && P.Encode(reply.packet, Little).Err?
    ensures DeliversError(FrameOf(reply), request, 5, rest)
  {
    var g := FallbackIsGenErr(reply, rest);
    GenErrIs();
  }

  lemma GenErrIs()
    ensures var p := GenErr(); p.Response? && p.upTime == 0 && p.error == 5 && p.index == 0 && p.variables == []
  {
  }

  lemma FrameSays(reply: S.Reply, request: H.Header, rest: Octets)
    requires Replies(reply, request)
    ensures Says(FrameOf(reply), request, reply.packet, rest)
  {
    match P.Encode(reply.packet, Little)
    case Ok(payload) => EncodedSays(reply, request, payload, rest);
    case Err => UnencodableSays(reply, request, rest);
  }

  /** The response to a request that was refused, as it is before it is encoded. */
  lemma ErrorEncodes(p: P.Packet)
    requires p.Response? && p.upTime == 0 && p.variables == []
    ensures match P.Encode(p, Little)
            case Ok(payload) => |payload| == 8
            case Err => false
    ensures P.Normal(p) == p
  {
  }

  lemma ErrorFrameSays(request: H.Header, error: u16, rest: Octets)
    ensures DeliversError(FrameOf(S.ErrorReply(request, error, 0)), request, error, rest)
  {
    var reply := S.ErrorReply(request, error, 0);
    ErrorEncodes(reply.packet);
    EncodedSays(reply, request, P.Encode(reply.packet, Little).value, rest);
  }

  // ------------------------------------------------------------------ state

  /** A PDU is known by its arrival number. */
  datatype Receiver = Reading | Offering(pdu: nat) | Refusing(pdu: nat)

  datatype Dispatcher = Ready | Routing(pdu: nat) | Denying(pdu: nat) | Entering(pdu: nat, worker: nat)

  datatype Current = Idle | Handling(pdu: nat) | Replying(pdu: nat, reply: S.Reply)

  /** A session: its queue, what it is busy with, and its history. */
  datatype Worker = Worker(
    kind: S.Kind,
    pending: S.Pending,
    queue: seq<nat>,
    current: Current,
    closed: bool,
    accepted: seq<nat>,
    handled: seq<nat>,
    events: seq<ST.Event>)

  /** The transmitter waits for a frame or is writing one, of a response or of a request of the client's own. */
  datatype Transmitter = Free | Writing

  datatype Author = ByReceiver | ByDispatcher | ByWorker(worker: nat)

  datatype Sent = Sent(pdu: nat, author: Author, frame: Octets)

  /** Where a PDU is, or what became of it; only closing the client or its session loses one. */
  datatype Place =
    | Offered | Refused
    | Routed | Denied | AtDoor(worker: nat)
    | Queued(worker: nat)
    | InHand(worker: nat) | Replied(worker: nat)
    | Answered | Silent | Lost(closed: Option<nat>)

  /** All the octets a connection ever delivers, and how many PDUs had arrived before it. */
  datatype Connection = Connection(stream: Octets, start: nat)

  datatype State = State(
    connections: seq<Connection>,
    /** What the receiver has not read yet of the current connection. */
    unread: Octets,
    arrivals: seq<F.Read>,
    places: seq<Place>,
    receiver: Receiver,
    dispatcher: Dispatcher,
    workers: seq<Worker>,
    table: map<u32, nat>,
    /** What the dispatcher found in the table, PDU by PDU. */
    looked: map<nat, Option<nat>>,
    transmitter: Transmitter,
    sent: seq<Sent>,
    closed: bool)

  const INITIAL := State([], [], [], [], Reading, Ready, [], map[], map[], Free, [], false)

  datatype Step =
    | Connect(stream: Octets)
    | Arrive
    | SubmitRefusal
    | AbandonReceiver
    | Hand
    | Dispatch
    | SubmitDenial
    | Enqueue
    | AbandonDispatcher
    | Take(w: nat)
    | Handle(w: nat, oracle: S.Oracle)
    | SubmitReply(w: nat)
    | AbandonReply(w: nat)
    | Write
    | SendOwn
    | AddSession(kind: S.Kind)
    | SetTable(table: map<u32, nat>)
    | CloseSession(w: nat)
    | CloseClient

  // ------------------------------------------------------------------ steps

  predicate IsFrame(s: State, i: nat) {
    i < |s.arrivals| && s.arrivals[i].Frame? && i < |s.places|
  }

  predicate Known(s: State, i: nat) {
    i < |s.arrivals| && s.arrivals[i].Answerable() && i < |s.places|
  }

  predicate Enabled(s: State, step: Step) {
    match step
    case Connect(_) => s.receiver.Reading? && F.ReadFrame(s.unread).Ended?
    case Arrive => s.receiver.Reading? && F.ReadFrame(s.unread).Answerable()
    case SubmitRefusal => s.transmitter.Free? && s.receiver.Refusing? && Known(s, s.receiver.pdu)
    case AbandonReceiver => !s.receiver.Reading? && s.closed && Known(s, s.receiver.pdu)
    case Hand => s.receiver.Offering? && s.dispatcher.Ready? && Known(s, s.receiver.pdu)
    case Dispatch => s.dispatcher.Routing? && Known(s, s.dispatcher.pdu)
    case SubmitDenial => s.transmitter.Free? && s.dispatcher.Denying? && Known(s, s.dispatcher.pdu)
    case Enqueue =>
      && s.dispatcher.Entering? && Known(s, s.dispatcher.pdu)
      && s.dispatcher.worker < |s.workers| && |s.workers[s.dispatcher.worker].queue| < QUEUE_SIZE
    case AbandonDispatcher =>
      || (s.dispatcher.Denying? && s.closed && Known(s, s.dispatcher.pdu))
      || (s.dispatcher.Entering? && Known(s, s.dispatcher.pdu) && s.dispatcher.worker < |s.workers|
          && (s.closed || s.workers[s.dispatcher.worker].closed))
    case Take(w) =>
      w < |s.workers| && s.workers[w].current.Idle? && s.workers[w].queue != [] && Known(s, s.workers[w].queue[0])
    case Handle(w, _) => w < |s.workers| && s.workers[w].current.Handling? && IsFrame(s, s.workers[w].current.pdu)
    case SubmitReply(w) =>
      s.transmitter.Free? && w < |s.workers| && s.workers[w].current.Replying? && Known(s, s.workers[w].current.pdu)
    case AbandonReply(w) =>
      w < |s.workers| && s.workers[w].current.Replying? && s.closed && Known(s, s.workers[w].current.pdu)
    case Write => s.transmitter.Writing?
    case SendOwn => s.transmitter.Free?
    case AddSession(_) => true
    case SetTable(table) => forall id :: id in table ==> table[id] < |s.workers|
    case CloseSession(w) => w < |s.workers|
    case CloseClient => true
  }

  predicate Expects(r: F.Read)
    requires r.Answerable()
  {
    F.ExpectsResponse(r.header.typ)
  }

  function Move(s: State, i: nat, p: Place): (t: State)
    requires i < |s.places|
  {
    s.(places := s.places[i := p])
  }

  /** Handing a frame to the transmitter, on a channel without buffer. */
  function Submit(s: State, i: nat, author: Author, reply: S.Reply): (t: State)
    requires i < |s.places|
  {
    Move(s, i, Answered).(transmitter := Writing, sent := s.sent + [Sent(i, author, FrameOf(reply))])
  }

  function SetWorker(s: State, w: nat, x: Worker): (t: State)
    requires w < |s.workers|
  {
    s.(workers := s.workers[w := x])
  }

  function DoArrive(s: State, r: F.Read): (t: State)
    requires r.Answerable() && r.size <= |s.unread|
  {
    var n := |s.arrivals|;
    var place := match F.EventOf(r)
      case Deliver(_, _) => Offered
      case AnswerParseError(_) => if s.closed then Lost(None) else Refused
      case Swallow(_) => Silent;
    s.(unread := s.unread[r.size..],
       arrivals := s.arrivals + [r],
       places := s.places + [place],
       receiver := if place == Offered then Offering(n) else if place == Refused then Refusing(n) else Reading)
  }

  function DoDispatch(s: State): (t: State)
    requires Enabled(s, Dispatch)
  {
    var i := s.dispatcher.pdu;
    var h := s.arrivals[i].header;
    if h.typ == P.RESPONSE then Move(s, i, Silent).(dispatcher := Ready)
    else
      var found := Lookup(s.table, h.sessionID);
      var t := s.(looked := s.looked[i := found]);
      match found
      case Some(w) => Move(t, i, AtDoor(w)).(dispatcher := Entering(i, w))
      case None =>
        if F.ExpectsResponse(h.typ) then Move(t, i, Denied).(dispatcher := Denying(i))
        else Move(t, i, Silent).(dispatcher := Ready)
  }

  function Lookup(table: map<u32, nat>, id: u32): (found: Option<nat>) {
    if id in table then Some(table[id]) else None
  }

  /** The PDU in hand becomes part of the session's past. */
  function Conclude(s: State, w: nat, e: ST.Event, o: S.Outcome): (t: State)
    requires w < |s.workers| && s.workers[w].current.Handling? && s.workers[w].current.pdu < |s.places|
  {
    var x := s.workers[w];
    var i := x.current.pdu;
    var y := x.(pending := o.pending, handled := x.handled + [i], events := x.events + [e]);
    match o.reply
    case Some(reply) => SetWorker(Move(s, i, Replied(w)), w, y.(current := Replying(i, reply)))
    case None => SetWorker(Move(s, i, Silent), w, y.(current := Idle))
  }

  function EventFor(s: State, w: nat, oracle: S.Oracle): (e: ST.Event)
    requires Enabled(s, Handle(w, oracle))
  {
    var r := s.arrivals[s.workers[w].current.pdu];
    ST.Event(r.header, r.packet, oracle)
  }

  function OutcomeOf(x: Worker, e: ST.Event): (o: S.Outcome) {
    S.Handle(x.kind, x.pending, e.header, e.packet, e.oracle)
  }

  function Do(s: State, step: Step): (t: State)
    requires Enabled(s, step)
  {
    match step
    case Connect(stream) => s.(connections := s.connections + [Connection(stream, |s.arrivals|)], unread := stream)
    case Arrive => DoArrive(s, F.ReadFrame(s.unread))
    case SubmitRefusal =>
      var i := s.receiver.pdu;
      Submit(s, i, ByReceiver, S.ErrorReply(s.arrivals[i].header, S.PARSE_ERROR, 0)).(receiver := Reading)
    case AbandonReceiver => Move(s, s.receiver.pdu, Lost(None)).(receiver := Reading)
    case Hand =>
      var i := s.receiver.pdu;
      Move(s, i, Routed).(receiver := Reading, dispatcher := Routing(i))
    case Dispatch => DoDispatch(s)
    case SubmitDenial =>
      var i := s.dispatcher.pdu;
      Submit(s, i, ByDispatcher, S.ErrorReply(s.arrivals[i].header, S.NOT_OPEN, 0)).(dispatcher := Ready)
    case Enqueue =>
      var i, w := s.dispatcher.pdu, s.dispatcher.worker;
      var x := s.workers[w];
      var y := x.(queue := x.queue + [i], accepted := x.accepted + [i]);
      SetWorker(Move(s, i, Queued(w)), w, y).(dispatcher := Ready)
    case AbandonDispatcher =>
      var why := if s.dispatcher.Denying? then None else Some(s.dispatcher.worker);
      Move(s, s.dispatcher.pdu, Lost(why)).(dispatcher := Ready)
    case Take(w) =>
      var x := s.workers[w];
      var i := x.queue[0];
      SetWorker(Move(s, i, InHand(w)), w, x.(queue := x.queue[1..], current := Handling(i)))
    case Handle(w, oracle) =>
      var e := EventFor(s, w, oracle);
      Conclude(s, w, e, OutcomeOf(s.workers[w], e))
    case SubmitReply(w) =>
      var x := s.workers[w];
      SetWorker(Submit(s, x.current.pdu, ByWorker(w), x.current.reply), w, x.(current := Idle))
    case AbandonReply(w) =>
      var x := s.workers[w];
      SetWorker(Move(s, x.current.pdu, Lost(None)), w, x.(current := Idle))
    case Write => s.(transmitter := Free)
    case SendOwn => s.(transmitter := Writing)
    case AddSession(kind) => s.(workers := s.workers + [Worker(kind, map[], [], Idle, false, [], [], [])])
    case SetTable(table) => s.(table := table)
    case CloseSession(w) => SetWorker(s, w, s.workers[w].(closed := true))
    case CloseClient => s.(closed := true)
  }
}
