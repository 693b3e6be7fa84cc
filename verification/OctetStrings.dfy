/** The Octet String of section 5.3 of RFC 2741 (pdu/octet_string.go). */
module OctetStrings {
  import opened Wire

  /** Zero octets needed to bring `length` up to a multiple of four. */
  function Padding(length: nat): (n: nat)
    ensures n < 4
  {
    (4 - length % 4) % 4
  }

  lemma PaddingAligns(length: nat)
    ensures (length + Padding(length)) % 4 == 0
    ensures Padding(length) == 0 <==> length % 4 == 0
  {
  }

  function ByteSize(textLength: nat): (n: nat)
    ensures n >= 4 + textLength
  {
    4 + textLength + Padding(textLength)
  }

  /** The length field is `uint32(len(text))`, which truncates. */
  function Encode(text: Octets, order: Order): (s: Octets)
    ensures |s| == ByteSize(|text|)
  {
    Put(ToUint32(|text|), 4, order) + text + Zeros(Padding(|text|))
  }

  /** Texts shorter than this end, four octets on, at a 32-bit number. */
  const LIMIT := TWO32 - 4

  /** Where the octets end: a 32-bit sum, which wraps for the last four lengths. */
  function End(length: u32): (n: u32) {
    if 4 + length < TWO32 then 4 + length else 4 + length - TWO32
  }

  lemma EndWraps(length: u32)
    ensures End(length) == (4 + length) % TWO32
  {
  }

  /** The length field is there, and so are the octets it announces. */
  predicate Complete(data: Octets, order: Order) {
    |data| >= 4 && Get32(data, order) <= |data| - 4
  }

  /** The octets are there, but the wrapped end lies before their start: the slice expression panics. */
  predicate Panics(data: Octets, order: Order) {
    Complete(data, order) && End(Get32(data, order)) < 4
  }

  /** Looks for the octets only, never for their padding. Both an error and a panic are `Err`. */
  function Decode(data: Octets, order: Order): (r: Result<Octets>)
    ensures r.Ok? ==> |r.value| < LIMIT && 4 + |r.value| <= |data|
  {
    if !Complete(data, order) || Panics(data, order) then Err
    else Ok(data[4..End(Get32(data, order))])
  }

  lemma SliceOfRest(data: Octets, tail: Octets, n: nat)
    requires |data| >= 4 && data[4..] == tail && n <= |tail|
    ensures data[4..4 + n] == tail[..n]
  {
  }

  lemma DecodePrefixed(n: u32, tail: Octets, order: Order)
    requires n <= |tail|
    ensures Decode(Put(n, 4, order) + tail, order) == if n < LIMIT then Ok(tail[..n]) else Err
    ensures Panics(Put(n, 4, order) + tail, order) <==> n >= LIMIT
  {
    var data := Put(n, 4, order) + tail;
    Get32Put(n, order, tail);
    if n < LIMIT {
      SliceOfRest(data, tail, n);
    }
  }

  lemma Associate(length: Octets, text: Octets, pad: Octets, rest: Octets, n: nat)
    requires n <= |text|
    ensures length + text + pad + rest == length + (text + (pad + rest))
    ensures (text + (pad + rest))[..n] == text[..n]
  {
  }

  /** What the truncated length field leaves of a text, unless it makes the decoder panic. */
  function Truncated(text: Octets): (r: Result<Octets>)
    ensures r.Ok? ==> r.value == text[..ToUint32(|text|)]
  {
    var n := ToUint32(|text|);
    if n < LIMIT then Ok(text[..n]) else Err
  }

  /** What comes back is as many of the octets written as the length field says. */
  lemma DecodeEncode(text: Octets, rest: Octets, order: Order)
    ensures Decode(Encode(text, order) + rest, order) == Truncated(text)
    ensures Panics(Encode(text, order) + rest, order) <==> Truncated(text).Err?
  {
    var n := ToUint32(|text|);
    var pad := Zeros(Padding(|text|));
    Associate(Put(n, 4, order), text, pad, rest, n);
    DecodePrefixed(n, text + (pad + rest), order);
  }

  /** A text survives the trip exactly when its end is a 32-bit number. */
  lemma RoundTrip(text: Octets, rest: Octets, order: Order)
    ensures Decode(Encode(text, order) + rest, order) == Ok(text) <==> |text| < LIMIT
  {
    DecodeEncode(text, rest, order);
    TruncatedIsWhole(text);
  }

  lemma TruncatedIsWhole(text: Octets)
    ensures Truncated(text) == Ok(text) <==> |text| < LIMIT
  {
    assert text[..|text|] == text;
  }

  /** The shortest text that fits its length field and does not come back: its end wraps to zero. */
  lemma WrapExample(rest: Octets, order: Order)
    ensures var text := Zeros(TWO32 - 4);
            && ToUint32(|text|) == |text| && End(|text|) == 0
            && Panics(Encode(text, order) + rest, order)
  {
    DecodeEncode(Zeros(TWO32 - 4), rest, order);
  }

  /** No data that is itself shorter than 2^32 makes the sum wrap. */
  lemma NeverPanics(data: Octets, order: Order)
    requires |data| < TWO32
    ensures !Panics(data, order)
    ensures Complete(data, order) ==> End(Get32(data, order)) == 4 + Get32(data, order) <= |data|
  {
  }

  /** On aligned data the padding is there too, although it is not looked for. */
  lemma DecodeWithinAligned(data: Octets, order: Order)
    requires |data| % 4 == 0
    requires Decode(data, order).Ok?
    ensures ByteSize(|Decode(data, order).value|) <= |data|
    ensures 4 + |Decode(data, order).value| == End(Get32(data, order))
  {
    PaddingAligns(|Decode(data, order).value|);
  }

  lemma Prefix(length: Octets, text: Octets, pad: Octets)
    requires |length| == 4
    ensures (length + text + pad)[..4 + |text|] == length + text
  {
  }

  /** Cutting off the padding changes nothing, although the text then counts as longer than the data. */
  lemma PaddingNotChecked(text: Octets, order: Order)
    ensures Decode(Encode(text, order)[..4 + |text|], order) == Decode(Encode(text, order), order)
    ensures |text| % 4 != 0 ==> ByteSize(|text|) > 4 + |text|
  {
    var n := ToUint32(|text|);
    Prefix(Put(n, 4, order), text, Zeros(Padding(|text|)));
    DecodePrefixed(n, text, order);
    DecodeEncode(text, [], order);
    assert Encode(text, order) + [] == Encode(text, order);
    PaddingAligns(|text|);
  }

  method MarshalBinary(text: Octets) returns (buffer: Octets)
    ensures buffer == Encode(text, Little)
  {
    buffer := Put(ToUint32(|text|), 4, Little);
    buffer := buffer + text;
    var i := Padding(|text|);
    while i > 0
      invariant buffer + Zeros(i) == Encode(text, Little)
    {
      buffer := buffer + [0];
      i := i - 1;
    }
  }
}
