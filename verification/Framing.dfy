/** Frames: assembling them (pdu/header_packet.go) and reading them off a stream (client.go). */
module Framing {
  import opened Wire
  import H = Headers
  import P = Packets
  import VB = VarBinds
  import VBL = VarBindLists

  /** The header a frame goes out with: version, type and payload length are overwritten. */
  function Stamped(h: H.Header, p: P.Packet, payload: Octets): (s: H.Header) {
    h.(version := H.VERSION, typ := P.TypeOf(p), payloadLength := ToUint32(|payload|))
  }

  function Encode(h: H.Header, p: P.Packet, order: Order): (r: Result<Octets>) {
    var payload :- P.Encode(p, order);
    Ok(H.Encode(Stamped(h, p, payload)) + payload)
  }

  class HeaderPacket {
    const header: H.HeaderRecord
    const packet: P.Packet

    constructor (header: H.HeaderRecord, packet: P.Packet)
      ensures this.header == header && this.packet == packet
    {
      this.header, this.packet := header, packet;
    }

    /** An unencodable packet leaves the header alone. */
    method MarshalBinary() returns (r: Result<Octets>)
      modifies header
      ensures r == Encode(old(header.Fields()), packet, Little)
      ensures header.Fields() == match P.Encode(packet, Little)
                                 case Ok(payload) => Stamped(old(header.Fields()), packet, payload)
                                 case Err => old(header.Fields())
    {
      var payload := P.Encode(packet, Little);
      if payload.Err? {
        return Err;
      }
      header.version := 1;
      header.typ := P.TypeOf(packet);
      header.payloadLength := ToUint32(|payload.value|);
      r := Ok(H.Encode(header.Fields()) + payload.value);
    }
  }

  // -------------------------------------------------------------- reading

  /** What one call of the frame reader gives, and how many octets it took off the stream. */
  datatype Read =
    | Frame(header: H.Header, packet: P.Packet, size: nat)
    | Malformed(header: H.Header, size: nat)
    | Ended
    | Untrusted
  {
    predicate Answerable() {
      Frame? || Malformed?
    }
  }

  /** `readHeaderPacket` on the octets still to come. */
  function ReadFrame(stream: Octets): (r: Read)
    ensures r.Answerable() ==> H.HEADER_SIZE <= r.size <= |stream|
  {
    if |stream| < H.HEADER_SIZE then Ended
    else
      var h := H.Decode(stream);
      if !H.Plausible(h.payloadLength) then Untrusted
      else if |stream| < H.HEADER_SIZE + h.payloadLength then Ended
      else ReadBody(h, stream[H.HEADER_SIZE..H.HEADER_SIZE + h.payloadLength])
  }

  /** A rejected header has its payload skipped; an accepted one has it decoded in its own order. */
  function ReadBody(h: H.Header, payload: Octets): (r: Read) {
    if !H.Validate(h) then Malformed(h, H.HEADER_SIZE + |payload|)
    else
      match P.Decode(h.typ, payload, H.OrderOf(h.flags))
      case Ok(p) => Frame(h, p, H.HEADER_SIZE + |payload|)
      case Err => Malformed(h, H.HEADER_SIZE + |payload|)
  }

  /** The reader itself, statement by statement, over what is left in the buffer. */
  method ReadHeaderPacket(stream: Octets) returns (r: Read)
    ensures r == ReadFrame(stream)
  {
    if |stream| < H.HEADER_SIZE {
      return Ended;
    }
    var headerBytes, rest := stream[..H.HEADER_SIZE], stream[H.HEADER_SIZE..];
    assert headerBytes + rest == stream;
    H.DecodeLocal(headerBytes, rest);
    var header := new H.HeaderRecord(H.Header(0, 0, 0, 0, 0, 0, 0));
    var ok := header.UnmarshalBinary(headerBytes);
    var length := header.payloadLength;
    if !ok {
      if length % 4 != 0 || length > H.MAX_PAYLOAD_LENGTH {
        return Untrusted;
      }
      if |rest| < length {
        return Ended;
      }
      return Malformed(header.Fields(), H.HEADER_SIZE + length);
    }
    if |rest| < length {
      return Ended;
    }
    var packetBytes := rest[..length];
    assert packetBytes == stream[H.HEADER_SIZE..H.HEADER_SIZE + length];
    var packet := P.Decode(header.typ, packetBytes, H.OrderOf(header.flags));
    if packet.Err? {
      return Malformed(header.Fields(), H.HEADER_SIZE + length);
    }
    return Frame(header.Fields(), packet.value, H.HEADER_SIZE + length);
  }

  datatype Transcript = Transcript(results: seq<Read>, last: Read)

  /** Reading on until the stream ends or can no longer be trusted. */
  function ReadAll(stream: Octets): (t: Transcript)
    ensures forall i :: 0 <= i < |t.results| ==> t.results[i].Answerable()
    ensures !t.last.Answerable()
    decreases |stream|
  {
    var r := ReadFrame(stream);
    if !r.Answerable() then Transcript([], r)
    else
      var rest := ReadAll(stream[r.size..]);
      rest.(results := [r] + rest.results)
  }

  /** One PDU, whole: its length, in its own byte order, is plausible and is the length it has. */
  ghost predicate IsFrame(f: Octets) {
    && |f| >= H.HEADER_SIZE
    && H.Plausible(H.Decode(f).payloadLength)
    && |f| == H.HEADER_SIZE + H.Decode(f).payloadLength
  }

  ghost function Concat(frames: seq<Octets>): (s: Octets) {
    if frames == [] then [] else frames[0] + Concat(frames[1..])
  }

  /** Each frame read on its own. */
  ghost function ReadEach(frames: seq<Octets>): (results: seq<Read>)
    ensures |results| == |frames|
    ensures forall i :: 0 <= i < |frames| ==> results[i] == ReadFrame(frames[i])
  {
    seq(|frames|, i requires 0 <= i < |frames| => ReadFrame(frames[i]))
  }

  /** What is read from a frame depends on that frame alone, and takes exactly its octets. */
  lemma ReadLocal(f: Octets, rest: Octets)
    requires IsFrame(f)
    ensures ReadFrame(f + rest) == ReadFrame(f)
    ensures ReadFrame(f).Answerable() && ReadFrame(f).size == |f|
  {
    var n := H.HEADER_SIZE + H.Decode(f).payloadLength;
    H.DecodeLocal(f, rest);
    assert (f + rest)[H.HEADER_SIZE..n] == f[H.HEADER_SIZE..n];
  }

  lemma ReadAllCons(f: Octets, rest: Octets)
    requires IsFrame(f)
    ensures ReadAll(f + rest).results == [ReadFrame(f)] + ReadAll(rest).results
    ensures ReadAll(f + rest).last == ReadAll(rest).last
  {
    ReadLocal(f, rest);
    assert (f + rest)[|f|..] == rest;
  }

  lemma EachCons(frames: seq<Octets>, after: seq<Read>)
    requires frames != []
    ensures ReadEach(frames) + after == [ReadFrame(frames[0])] + (ReadEach(frames[1..]) + after)
  {
  }

  lemma ReadFirst(first: Octets, more: seq<Octets>, tail: Octets)
    requires IsFrame(first)
    ensures ReadAll(Concat([first] + more) + tail).results
         == [ReadFrame(first)] + ReadAll(Concat(more) + tail).results
    ensures ReadAll(Concat([first] + more) + tail).last == ReadAll(Concat(more) + tail).last
  {
    SplitCons(first, more, tail);
    ReadAllCons(first, Concat(more) + tail);
  }

  /**
   * Framing never drifts: a stream of frames gives one result per frame, in order, each depending
   * on its frame only, whatever versions and payloads the frames have, and then the tail is read.
   */
  lemma {:induction false} NeverDrifts(frames: seq<Octets>, tail: Octets)
    requires forall i :: 0 <= i < |frames| ==> IsFrame(frames[i])
    ensures ReadAll(Concat(frames) + tail).results == ReadEach(frames) + ReadAll(tail).results
    ensures ReadAll(Concat(frames) + tail).last == ReadAll(tail).last
  {
    if frames == [] {
      assert Concat(frames) + tail == tail;
    } else {
      var more := frames[1..];
      assert frames == [frames[0]] + more;
      ReadFirst(frames[0], more, tail);
      NeverDrifts(more, tail);
      EachCons(frames, ReadAll(tail).results);
    }
  }

  /** The frames the reader finds in a stream, and where it stops. */
  ghost function FramesOf(stream: Octets): (frames: seq<Octets>)
    decreases |stream|
  {
    var r := ReadFrame(stream);
    if !r.Answerable() then [] else [stream[..r.size]] + FramesOf(stream[r.size..])
  }

  lemma FoundSize(stream: Octets)
    requires ReadFrame(stream).Answerable()
    ensures |stream| >= H.HEADER_SIZE && H.Plausible(H.Decode(stream).payloadLength)
    ensures ReadFrame(stream).size == H.HEADER_SIZE + H.Decode(stream).payloadLength
  {
  }

  lemma FoundIsFrame(stream: Octets)
    requires ReadFrame(stream).Answerable()
    ensures IsFrame(stream[..ReadFrame(stream).size])
  {
    FoundSize(stream);
    H.DecodePrefix(stream, ReadFrame(stream).size);
  }

  lemma WhyStopped(tail: Octets)
    ensures ReadFrame(tail) == Untrusted <==>
              |tail| >= H.HEADER_SIZE && !H.Plausible(H.Decode(tail).payloadLength)
  {
  }

  lemma SplitStep(stream: Octets, tail: Octets)
    requires ReadFrame(stream).Answerable()
    requires var after := stream[ReadFrame(stream).size..]; after == Concat(FramesOf(after)) + tail
    ensures stream == Concat(FramesOf(stream)) + tail
  {
    var n := ReadFrame(stream).size;
    var first, after := stream[..n], stream[n..];
    SplitCons(first, FramesOf(after), tail);
    assert stream == first + after;
  }

  /**
   * Any stream at all splits into whole frames and a tail on which the reader stops, either since
   * the tail is too short or since its header's length is not plausible.
   */
  lemma {:induction false} EveryStreamSplits(stream: Octets) returns (tail: Octets)
    ensures stream == Concat(FramesOf(stream)) + tail
    ensures forall f :: f in FramesOf(stream) ==> IsFrame(f)
    ensures !ReadFrame(tail).Answerable() && ReadFrame(tail) == ReadAll(stream).last
    ensures ReadFrame(tail) == Untrusted <==>
              |tail| >= H.HEADER_SIZE && !H.Plausible(H.Decode(tail).payloadLength)
    decreases |stream|
  {
    if !ReadFrame(stream).Answerable() {
      tail := stream;
      WhyStopped(tail);
      assert Concat([]) + tail == stream;
    } else {
      FoundIsFrame(stream);
      tail := EveryStreamSplits(stream[ReadFrame(stream).size..]);
      SplitStep(stream, tail);
    }
  }

  lemma SplitCons(first: Octets, rest: seq<Octets>, tail: Octets)
    ensures Concat([first] + rest) + tail == first + (Concat(rest) + tail)
  {
    assert ([first] + rest)[1..] == rest;
  }

  // ------------------------------------------------------------ round trip

  /** A header and the payload it announces make a frame, and are read back from it. */
  lemma Assembled(g: H.Header, payload: Octets, rest: Octets)
    requires g.payloadLength == |payload| && H.Plausible(g.payloadLength)
    ensures ReadFrame(H.Encode(g) + payload + rest) == ReadBody(g, payload)
  {
    var f := H.Encode(g) + payload;
    H.RoundTrip(g, payload);
    ReadLocal(f, rest);
    assert f[H.HEADER_SIZE..H.HEADER_SIZE + |payload|] == payload;
  }

  lemma TruncatedStaysAligned(n: nat)
    requires n % 4 == 0
    ensures n % TWO32 % 4 == 0
  {
    assert n % TWO32 == n - TWO32 * (n / TWO32);
  }

  /**
   * Every encoded frame carries its packet's type and ids and a payload length that is a multiple
   * of four, namely the length modulo 2^32 of the payload that follows.
   */
  lemma FrameHeader(h: H.Header, p: P.Packet, order: Order)
    requires Encode(h, p, order).Ok?
    ensures var payload := P.Encode(p, order).value;
            && H.Decode(Encode(h, p, order).value) == Stamped(h, p, payload)
            && Stamped(h, p, payload).payloadLength % 4 == 0
            && |Encode(h, p, order).value| == H.HEADER_SIZE + |payload|
  {
    var payload := P.Encode(p, order).value;
    H.RoundTrip(Stamped(h, p, payload), payload);
    P.EncodeAligned(p, order);
    TruncatedStaysAligned(|payload|);
  }

  /**
   * When the payload is written in the order the flags declare, the reader recovers the ids and
   * the packet in normal form and leaves the following octets unread exactly when the payload is
   * not too long. The library writes payloads in `Little`, so for its own frames this is when the
   * flag is clear.
   */
  lemma FrameRoundTrip(h: H.Header, p: P.Packet, payload: Octets, rest: Octets)
    requires P.Encode(p, H.OrderOf(h.flags)) == Ok(payload) && P.Readable(p)
    ensures match Encode(h, p, H.OrderOf(h.flags))
            case Ok(f) =>
              ReadFrame(f + rest) == Frame(Stamped(h, p, payload), P.Normal(p), |f|)
              <==> |payload| <= H.MAX_PAYLOAD_LENGTH
            case Err => false
  {
    if |payload| <= H.MAX_PAYLOAD_LENGTH {
      ShortFrame(h, p, payload, rest);
    } else {
      TooLong(h, p, payload, rest);
    }
  }

  lemma ShortFrame(h: H.Header, p: P.Packet, payload: Octets, rest: Octets)
    requires P.Encode(p, H.OrderOf(h.flags)) == Ok(payload)
    requires P.Readable(p) && |payload| <= H.MAX_PAYLOAD_LENGTH
    ensures match Encode(h, p, H.OrderOf(h.flags))
            case Ok(f) => ReadFrame(f + rest) == Frame(Stamped(h, p, payload), P.Normal(p), |f|)
            case Err => false
  {
    OwnFrame(h, p, payload, H.OrderOf(h.flags));
    StampedShort(h, p, payload);
    RightOrderRead(Stamped(h, p, payload), p, payload, rest);
  }

  lemma RightOrderRead(g: H.Header, p: P.Packet, payload: Octets, rest: Octets)
    requires H.Validate(g) && P.Readable(p) && g.typ == P.TypeOf(p) && g.payloadLength == |payload|
    requires P.Encode(p, H.OrderOf(g.flags)) == Ok(payload)
    ensures ReadFrame(H.Encode(g) + payload + rest) == Frame(g, P.Normal(p), H.HEADER_SIZE + |payload|)
  {
    ShortIsRepresentable(p, H.OrderOf(g.flags));
    P.RoundTrip(p, H.OrderOf(g.flags));
    BodyOutcome(g, payload);
    Assembled(g, payload, rest);
  }

  /**
   * What becomes of a frame with a longer payload, of whatever packet and in whatever order: the
   * stream is untrusted, or, when the truncated length happens to be plausible, the reader takes
   * only so much of the payload and goes on to read the rest of it as frames.
   */
  lemma TooLong(h: H.Header, p: P.Packet, payload: Octets, rest: Octets)
    requires P.Encode(p, H.OrderOf(h.flags)) == Ok(payload) && |payload| > H.MAX_PAYLOAD_LENGTH
    ensures match Encode(h, p, H.OrderOf(h.flags))
            case Ok(f) =>
              var r, n := ReadFrame(f + rest), ToUint32(|payload|);
              if n > H.MAX_PAYLOAD_LENGTH then r == Untrusted
              else r.Answerable() && r.size == H.HEADER_SIZE + n < |f|
            case Err => false
  {
    var g := Stamped(h, p, payload);
    P.EncodeAligned(p, H.OrderOf(h.flags));
    TruncatedStaysAligned(|payload|);
    TooLongBody(g, payload, rest);
  }

  lemma TooLongBody(g: H.Header, payload: Octets, rest: Octets)
    requires g.payloadLength == ToUint32(|payload|) && g.payloadLength % 4 == 0
    requires |payload| > H.MAX_PAYLOAD_LENGTH
    ensures var r := ReadFrame(H.Encode(g) + payload + rest);
            if g.payloadLength > H.MAX_PAYLOAD_LENGTH then r == Untrusted
            else r.Answerable() && r.size == H.HEADER_SIZE + g.payloadLength && g.payloadLength < |payload|
  {
    H.RoundTrip(g, payload + rest);
    assert H.Encode(g) + payload + rest == H.Encode(g) + (payload + rest);
  }

  lemma OwnFrame(h: H.Header, p: P.Packet, payload: Octets, order: Order)
    requires P.Encode(p, order) == Ok(payload)
    ensures Encode(h, p, order) == Ok(H.Encode(Stamped(h, p, payload)) + payload)
    ensures |payload| % 4 == 0
  {
    P.EncodeAligned(p, order);
  }

  /**
   * Under a header with the flag set the library's own frames have little-endian payloads that are
   * read as big-endian ones. The packet comes back exactly when nothing in it depends on the order;
   * any other has its numbers swapped or, when it has bindings, is answered with parseError.
   */
  lemma FlagSetFrame(h: H.Header, p: P.Packet, payload: Octets, rest: Octets)
    requires H.OrderOf(h.flags) == Big && P.Readable(p)
    requires P.Encode(p, Little) == Ok(payload) && |payload| <= H.MAX_PAYLOAD_LENGTH
    ensures match Encode(h, p, Little)
            case Ok(f) => ReadFrame(f + rest) == BodyRead(Stamped(h, p, payload), P.Swapped(p), |f|)
            case Err => false
    ensures P.Swapped(p) == Ok(P.Normal(p)) <==> P.OrderFree(p)
  {
    var g := Stamped(h, p, payload);
    OwnFrame(h, p, payload, Little);
    StampedShort(h, p, payload);
    FlagSetRead(g, p, payload, rest);
    P.SwappedIsNormal(p);
  }

  /** What a payload that decodes, or does not, is read as. */
  function BodyRead(g: H.Header, decoded: Result<P.Packet>, size: nat): (r: Read) {
    match decoded
    case Ok(p) => Frame(g, p, size)
    case Err => Malformed(g, size)
  }

  lemma StampedShort(h: H.Header, p: P.Packet, payload: Octets)
    requires |payload| <= H.MAX_PAYLOAD_LENGTH && |payload| % 4 == 0
    ensures var g := Stamped(h, p, payload);
            H.Validate(g) && g.flags == h.flags && g.typ == P.TypeOf(p) && g.payloadLength == |payload|
  {
  }

  lemma FlagSetRead(g: H.Header, p: P.Packet, payload: Octets, rest: Octets)
    requires H.Validate(g) && H.OrderOf(g.flags) == Big
    requires P.Readable(p) && g.typ == P.TypeOf(p) && g.payloadLength == |payload|
    requires P.Encode(p, Little) == Ok(payload)
    ensures ReadFrame(H.Encode(g) + payload + rest) == BodyRead(g, P.Swapped(p), H.HEADER_SIZE + |payload|)
  {
    P.WrongOrder(p, payload);
    BodyOutcome(g, payload);
    Assembled(g, payload, rest);
  }

  lemma BodyOutcome(g: H.Header, payload: Octets)
    requires H.Validate(g)
    ensures ReadBody(g, payload) == BodyRead(g, P.Decode(g.typ, payload, H.OrderOf(g.flags)), H.HEADER_SIZE + |payload|)
  {
  }

  lemma {:induction false} ShortListIsRepresentable(vs: seq<VB.Variable>, order: Order)
    requires VBL.Encode(vs, order).Ok? && |VBL.Encode(vs, order).value| < TWO32
    ensures VBL.Representable(vs)
  {
    if vs != [] {
      VBL.EncodeCons(vs, order);
      ShortListIsRepresentable(vs[1..], order);
      assert vs == [vs[0]] + vs[1..];
    }
  }

  lemma ShortIsRepresentable(p: P.Packet, order: Order)
    requires P.Encode(p, order).Ok? && |P.Encode(p, order).value| < TWO32
    ensures VBL.Representable(P.ListOf(p))
  {
    P.EncodableList(p, order);
    if p.TestSet? || p.Response? {
      ShortListIsRepresentable(P.ListOf(p), order);
    }
  }

  /** The reader never panics: the payloads it decodes are too short for any slice bound to wrap. */
  lemma ReaderNeverPanics(stream: Octets)
    requires |stream| >= H.HEADER_SIZE && H.Validate(H.Decode(stream))
    requires |stream| >= H.HEADER_SIZE + H.Decode(stream).payloadLength
    ensures var h := H.Decode(stream);
            !P.Panics(h.typ, stream[H.HEADER_SIZE..H.HEADER_SIZE + h.payloadLength], H.OrderOf(h.flags))
  {
    var h := H.Decode(stream);
    P.NeverPanics(h.typ, stream[H.HEADER_SIZE..H.HEADER_SIZE + h.payloadLength], H.OrderOf(h.flags));
  }

  // ------------------------------------------------------------- receiver

  /** What the receiver does with each PDU. */
  datatype Event =
    | Deliver(header: H.Header, packet: P.Packet)
    | AnswerParseError(header: H.Header)
    | Swallow(header: H.Header)

  predicate ExpectsResponse(typ: byte) {
    typ != P.CLEANUP_SET && typ != P.RESPONSE
  }

  function EventOf(r: Read): (e: Event)
    requires r.Answerable()
  {
    match r
    case Frame(h, p, _) => Deliver(h, p)
    case Malformed(h, _) => if ExpectsResponse(h.typ) then AnswerParseError(h) else Swallow(h)
  }

  /** One more frame off the stream: what was read and what is still to be read add up as before. */
  lemma ReadOn(results: seq<Read>, unread: Octets)
    requires ReadFrame(unread).Answerable()
    ensures var r := ReadFrame(unread);
            var rest := ReadAll(unread[r.size..]);
            && results + ReadAll(unread).results == results + [r] + rest.results
            && ReadAll(unread).last == rest.last
  {
    var r := ReadFrame(unread);
    var rest := ReadAll(unread[r.size..]).results;
    assert results + ([r] + rest) == results + [r] + rest;
  }

  /** The receiver's loop over one connection: exactly one event per PDU, in order. */
  method RunReceiver(stream: Octets) returns (events: seq<Event>, last: Read)
    ensures |events| == |ReadAll(stream).results| && last == ReadAll(stream).last
    ensures forall i :: 0 <= i < |events| ==> events[i] == EventOf(ReadAll(stream).results[i])
  {
    events := [];
    var unread := stream;
    ghost var results: seq<Read> := [];
    last := ReadHeaderPacket(unread);
    while last.Answerable()
      invariant last == ReadFrame(unread)
      invariant ReadAll(stream).results == results + ReadAll(unread).results
      invariant ReadAll(stream).last == ReadAll(unread).last
      invariant |events| == |results|
      invariant forall i :: 0 <= i < |events| ==> results[i].Answerable() && events[i] == EventOf(results[i])
      decreases |unread|
    {
      if last.Frame? {
        events := events + [Deliver(last.header, last.packet)];
      } else if ExpectsResponse(last.header.typ) {
        events := events + [AnswerParseError(last.header)];
      } else {
        events := events + [Swallow(last.header)];
      }
      ReadOn(results, unread);
      results := results + [last];
      unread := unread[last.size..];
      last := ReadHeaderPacket(unread);
    }
  }
}
