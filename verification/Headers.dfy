/** The PDU header of section 6.1 of RFC 2741 (pdu/header.go, pdu/flags.go). */
module Headers {
  import opened Wire

  const HEADER_SIZE := 20
  const VERSION: byte := 1
  const MAX_PAYLOAD_LENGTH := 0x10_0000

  datatype Header = Header(
    version: byte,
    typ: byte,
    flags: byte,
    sessionID: u32,
    transactionID: u32,
    packetID: u32,
    payloadLength: u32)

  /** Bit 4 of the flags, NETWORK_BYTE_ORDER. */
  function OrderOf(flags: byte): (order: Order) {
    if flags / 16 % 2 == 1 then Big else Little
  }

  function Encode(h: Header): (s: Octets)
    ensures |s| == HEADER_SIZE
  {
    var order := OrderOf(h.flags);
    [h.version, h.typ, h.flags, 0]
    + (Put(h.sessionID, 4, order)
       + (Put(h.transactionID, 4, order)
          + (Put(h.packetID, 4, order) + Put(h.payloadLength, 4, order))))
  }

  /** The multi-octet fields in the order this very header declares. */
  function Decode(data: Octets): (h: Header)
    requires |data| >= HEADER_SIZE
  {
    var order := OrderOf(data[2]);
    Header(data[0], data[1], data[2],
           Get32(data[4..], order), Get32(data[8..], order), Get32(data[12..], order), Get32(data[16..], order))
  }

  /** A length at which the next PDU can be found. */
  predicate Plausible(length: u32) {
    length % 4 == 0 && length <= MAX_PAYLOAD_LENGTH
  }

  predicate Validate(h: Header) {
    h.version == VERSION && Plausible(h.payloadLength)
  }

  lemma TwoWords(a: u32, b: u32, rest: Octets, order: Order)
    ensures var s := Put(a, 4, order) + (Put(b, 4, order) + rest);
            Get32(s, order) == a && Get32(s[4..], order) == b && s[8..] == rest
  {
    Get32Put(a, order, Put(b, 4, order) + rest);
    Get32Put(b, order, rest);
    var s := Put(a, 4, order) + (Put(b, 4, order) + rest);
    assert s[8..] == s[4..][4..];
  }

  lemma Associate(head: Octets, a: Octets, b: Octets, c: Octets, d: Octets, rest: Octets)
    requires |head| == 4
    ensures var s := head + (a + (b + (c + d))) + rest; s[4..] == a + (b + (c + (d + rest)))
  {
  }

  lemma FourWords(s: Octets, a: u32, b: u32, c: u32, d: u32, rest: Octets, order: Order)
    requires |s| >= 20
    requires s[4..] == Put(a, 4, order) + (Put(b, 4, order) + (Put(c, 4, order) + (Put(d, 4, order) + rest)))
    ensures Get32(s[4..], order) == a && Get32(s[8..], order) == b
    ensures Get32(s[12..], order) == c && Get32(s[16..], order) == d
  {
    var tail := Put(c, 4, order) + (Put(d, 4, order) + rest);
    TwoWords(a, b, tail, order);
    TwoWords(c, d, rest, order);
    assert s[8..] == s[4..][4..] && s[12..] == s[4..][8..] && s[16..] == s[12..][4..];
  }

  /** Every header comes back in its own byte order, whatever follows it. */
  lemma RoundTrip(h: Header, rest: Octets)
    ensures Decode(Encode(h) + rest) == h
  {
    var order := OrderOf(h.flags);
    Associate([h.version, h.typ, h.flags, 0], Put(h.sessionID, 4, order), Put(h.transactionID, 4, order),
              Put(h.packetID, 4, order), Put(h.payloadLength, 4, order), rest);
    FourWords(Encode(h) + rest, h.sessionID, h.transactionID, h.packetID, h.payloadLength, rest, order);
  }

  lemma DecodeLocal(data: Octets, rest: Octets)
    requires |data| >= HEADER_SIZE
    ensures Decode(data + rest) == Decode(data)
  {
    var s := data + rest;
    assert s[4..][..4] == data[4..][..4] && s[8..][..4] == data[8..][..4];
    assert s[12..][..4] == data[12..][..4] && s[16..][..4] == data[16..][..4];
  }

  lemma DecodePrefix(data: Octets, n: nat)
    requires HEADER_SIZE <= n <= |data|
    ensures Decode(data[..n]) == Decode(data)
  {
    assert data[..n] + data[n..] == data;
    DecodeLocal(data[..n], data[n..]);
  }

  /** The record the reader fills in. */
  class HeaderRecord {
    var version: byte
    var typ: byte
    var flags: byte
    var sessionID: u32
    var transactionID: u32
    var packetID: u32
    var payloadLength: u32

    constructor (h: Header)
      ensures Fields() == h
    {
      version, typ, flags := h.version, h.typ, h.flags;
      sessionID, transactionID, packetID := h.sessionID, h.transactionID, h.packetID;
      payloadLength := h.payloadLength;
    }

    function Fields(): (h: Header)
      reads this
    {
      Header(version, typ, flags, sessionID, transactionID, packetID, payloadLength)
    }

    /** All fields are filled in before they are validated, so they can be read after a rejection. */
    method UnmarshalBinary(data: Octets) returns (ok: bool)
      modifies this
      ensures |data| < HEADER_SIZE ==> !ok && Fields() == old(Fields())
      ensures |data| >= HEADER_SIZE ==> Fields() == Decode(data) && ok == Validate(Decode(data))
    {
      if |data| < HEADER_SIZE {
        return false;
      }
      version, typ, flags := data[0], data[1], data[2];
      var order := OrderOf(flags);
      var buffer := data[4..];
      sessionID := Get32(buffer, order);
      transactionID := Get32(buffer[4..], order);
      packetID := Get32(buffer[8..], order);
      payloadLength := Get32(buffer[12..], order);
      assert buffer[4..] == data[8..] && buffer[8..] == data[12..] && buffer[12..] == data[16..];
      ok := version == VERSION && payloadLength % 4 == 0 && payloadLength <= MAX_PAYLOAD_LENGTH;
    }
  }
}
