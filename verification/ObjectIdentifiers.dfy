/** The Object Identifier of section 5.1 of RFC 2741 (pdu/object_identifier.go). */
module ObjectIdentifiers {
  import opened Wire
  import opened Oids

  const MAX_SUBIDENTIFIERS := 128

  datatype ObjectIdentifier = ObjectIdentifier(prefix: byte, incl: byte, subids: seq<u32>) {
    function ByteSize(): (n: nat)
      ensures n >= 4
    {
      4 + 4 * |subids|
    }

    /** The OID meant, with a non-zero prefix byte standing for 1.3.6.1.prefix. */
    function GetIdentifier(): (oid: OID) {
      (if prefix != 0 then [1, 3, 6, 1, prefix] else []) + subids
    }

    function SetIdentifier(oid: OID): (o: ObjectIdentifier) {
      this.(subids := oid)
    }

    predicate GetInclude() {
      incl != 0
    }
  }

  const NULL_OID := ObjectIdentifier(0, 0, [])

  /** The identifier a fresh record has after `SetIdentifier`. */
  function Plain(oid: OID): (o: ObjectIdentifier)
    ensures o.GetIdentifier() == oid
  {
    assert [] + oid == oid;
    NULL_OID.SetIdentifier(oid)
  }

  function EncodeSubids(subids: seq<u32>, order: Order): (s: Octets)
    ensures |s| == 4 * |subids|
  {
    if subids == [] then [] else Put(subids[0], 4, order) + EncodeSubids(subids[1..], order)
  }

  function DecodeSubids(data: Octets, count: nat, order: Order): (subids: seq<u32>)
    requires |data| >= 4 * count
    ensures |subids| == count
    decreases count
  {
    if count == 0 then [] else [Get32(data, order)] + DecodeSubids(data[4..], count - 1, order)
  }

  function Encode(o: ObjectIdentifier, order: Order): (r: Result<Octets>)
    ensures r.Ok? <==> |o.subids| <= MAX_SUBIDENTIFIERS
    ensures r.Ok? ==> |r.value| == o.ByteSize()
  {
    if |o.subids| > MAX_SUBIDENTIFIERS then Err
    else Ok([|o.subids|, o.prefix, o.incl, 0] + EncodeSubids(o.subids, order))
  }

  function Decode(data: Octets, order: Order): (r: Result<ObjectIdentifier>)
    ensures r.Ok? ==> r.value.ByteSize() <= |data| && |r.value.subids| <= MAX_SUBIDENTIFIERS
  {
    if |data| < 4 then Err
    else
      var count: nat := data[0];
      if count > MAX_SUBIDENTIFIERS || |data| < 4 + count * 4 then Err
      else Ok(ObjectIdentifier(data[1], data[2], DecodeSubids(data[4..], count, order)))
  }

  lemma EncodeSubidsCons(subids: seq<u32>, rest: Octets, order: Order)
    requires subids != []
    ensures EncodeSubids(subids, order) + rest
         == Put(subids[0], 4, order) + (EncodeSubids(subids[1..], order) + rest)
  {
    ThreeParts(Put(subids[0], 4, order), EncodeSubids(subids[1..], order), rest);
  }

  lemma DecodeSubidsCons(first: Octets, tail: Octets, count: nat, order: Order)
    requires |first| == 4 && |tail| >= 4 * count
    ensures DecodeSubids(first + tail, count + 1, order)
         == [Get32(first + tail, order)] + DecodeSubids(tail, count, order)
  {
    assert (first + tail)[4..] == tail;
  }

  lemma {:induction false} SubidsRoundTrip(subids: seq<u32>, rest: Octets, order: Order)
    ensures DecodeSubids(EncodeSubids(subids, order) + rest, |subids|, order) == subids
  {
    if subids != [] {
      var tail := EncodeSubids(subids[1..], order) + rest;
      EncodeSubidsCons(subids, rest, order);
      DecodeSubidsCons(Put(subids[0], 4, order), tail, |subids| - 1, order);
      Get32Put(subids[0], order, tail);
      SubidsRoundTrip(subids[1..], rest, order);
      assert subids == [subids[0]] + subids[1..];
    }
  }

  /** Self-delimiting: decoding the encoding gives the identifier back, whatever follows it. */
  lemma RoundTrip(o: ObjectIdentifier, rest: Octets, order: Order)
    requires Encode(o, order).Ok?
    ensures Decode(Encode(o, order).value + rest, order) == Ok(o)
  {
    var body := EncodeSubids(o.subids, order);
    Layout([|o.subids|, o.prefix, o.incl, 0], body, rest);
    SubidsRoundTrip(o.subids, rest, order);
    DecodeParts(Encode(o, order).value + rest, body + rest, o, order);
  }

  lemma Layout(head: Octets, body: Octets, rest: Octets)
    requires |head| == 4
    ensures var data := head + body + rest;
            data[0] == head[0] && data[1] == head[1] && data[2] == head[2] && data[4..] == body + rest
  {
  }

  lemma DecodeParts(data: Octets, tail: Octets, o: ObjectIdentifier, order: Order)
    requires |data| >= 4 && data[4..] == tail
    requires data[0] == |o.subids| <= MAX_SUBIDENTIFIERS && data[1] == o.prefix && data[2] == o.incl
    requires |tail| >= 4 * |o.subids| && DecodeSubids(tail, |o.subids|, order) == o.subids
    ensures Decode(data, order) == Ok(o)
  {
  }

  // ------------------------------------------------------- the wrong order

  function SwapAll(subids: seq<u32>): (swapped: seq<u32>)
    ensures |swapped| == |subids|
    ensures forall i :: 0 <= i < |subids| ==> swapped[i] == Swap32(subids[i])
  {
    seq(|subids|, i requires 0 <= i < |subids| => Swap32(subids[i]))
  }

  function Swapped(o: ObjectIdentifier): (s: ObjectIdentifier) {
    o.(subids := SwapAll(o.subids))
  }

  ghost predicate AllSymmetric(o: ObjectIdentifier) {
    forall i :: 0 <= i < |o.subids| ==> Symmetric(o.subids[i], 4)
  }

  lemma SwapCons(subids: seq<u32>)
    requires subids != []
    ensures SwapAll(subids) == [Swap32(subids[0])] + SwapAll(subids[1..])
  {
  }

  lemma {:induction false} SubidsSwapped(subids: seq<u32>, rest: Octets)
    ensures DecodeSubids(EncodeSubids(subids, Little) + rest, |subids|, Big) == SwapAll(subids)
  {
    if subids != [] {
      var tail := EncodeSubids(subids[1..], Little) + rest;
      EncodeSubidsCons(subids, rest, Little);
      DecodeSubidsCons(Put(subids[0], 4, Little), tail, |subids| - 1, Big);
      Get32Swapped(subids[0], tail);
      SubidsSwapped(subids[1..], rest);
      SwapCons(subids);
    }
  }

  /** A little-endian identifier read as a big-endian one always parses, with its sub-identifiers swapped. */
  lemma WrongOrder(o: ObjectIdentifier, rest: Octets)
    requires Encode(o, Little).Ok?
    ensures Decode(Encode(o, Little).value + rest, Big) == Ok(Swapped(o))
  {
    var body := EncodeSubids(o.subids, Little);
    Layout([|o.subids|, o.prefix, o.incl, 0], body, rest);
    SubidsSwapped(o.subids, rest);
    DecodeParts(Encode(o, Little).value + rest, body + rest, Swapped(o), Big);
  }

  lemma SwapFixes(o: ObjectIdentifier)
    ensures Swapped(o) == o <==> AllSymmetric(o)
  {
    forall i | 0 <= i < |o.subids|
      ensures SwapAll(o.subids)[i] == o.subids[i] <==> Symmetric(o.subids[i], 4)
    {
      Swap32Fixes(o.subids[i]);
    }
    if AllSymmetric(o) {
      assert SwapAll(o.subids) == o.subids;
    }
  }

  lemma {:induction false} SubidsReencode(data: Octets, count: nat, order: Order)
    requires |data| >= 4 * count
    ensures EncodeSubids(DecodeSubids(data, count, order), order) == data[..4 * count]
    decreases count
  {
    if count > 0 {
      SubidsReencode(data[4..], count - 1, order);
      PutGet(data[..4], order);
      assert data[..4 * count] == data[..4] + data[4..][..4 * (count - 1)];
    }
  }

  /** Only the reserved octet is lost: re-encoding a decoded identifier restores all others. */
  lemma Reencode(data: Octets, order: Order)
    requires Decode(data, order).Ok?
    ensures var o := Decode(data, order).value;
            Encode(o, order) == Ok(data[..o.ByteSize()][3 := 0])
  {
    var o := Decode(data, order).value;
    var count: nat := data[0];
    SubidsReencode(data[4..], count, order);
    assert data[..o.ByteSize()] == data[..4] + data[4..][..4 * count];
    assert data[..o.ByteSize()][3 := 0] == [count, o.prefix, o.incl, 0] + EncodeSubids(o.subids, order);
  }

  method MarshalBinary(o: ObjectIdentifier) returns (r: Result<Octets>)
    ensures r == Encode(o, Little)
  {
    if |o.subids| > MAX_SUBIDENTIFIERS {
      return Err;
    }
    var buffer: Octets := [|o.subids|, o.prefix, o.incl, 0];
    var i := 0;
    while i < |o.subids|
      invariant 0 <= i <= |o.subids|
      invariant buffer + EncodeSubids(o.subids[i..], Little) == Encode(o, Little).value
    {
      assert o.subids[i..][1..] == o.subids[i + 1..];
      buffer := buffer + Put(o.subids[i], 4, Little);
      i := i + 1;
    }
    assert buffer + EncodeSubids([], Little) == buffer;
    r := Ok(buffer);
  }

  lemma NextSubid(data: Octets, offset: nat, left: nat, order: Order, whole: seq<u32>, subids: seq<u32>)
    requires left > 0 && offset + 4 * left <= |data|
    requires whole == subids + DecodeSubids(data[offset..], left, order)
    ensures whole == subids + [Get32(data[offset..], order)] + DecodeSubids(data[offset + 4..], left - 1, order)
  {
    var rest := data[offset..];
    assert rest[4..] == data[offset + 4..];
    var more := DecodeSubids(rest[4..], left - 1, order);
    assert subids + ([Get32(rest, order)] + more) == subids + [Get32(rest, order)] + more;
  }

  method ReadSubids(data: Octets, count: nat, order: Order) returns (subids: seq<u32>)
    requires |data| >= 4 + count * 4
    ensures subids == DecodeSubids(data[4..], count, order)
  {
    subids := [];
    var index, offset := 0, 4;
    ghost var whole, left := DecodeSubids(data[4..], count, order), count;
    while index < count
      invariant 0 <= index <= count && offset == 4 + index * 4 && left == count - index
      invariant offset + 4 * left <= |data|
      invariant whole == subids + DecodeSubids(data[offset..], left, order)
    {
      NextSubid(data, offset, left, order, whole, subids);
      subids := subids + [Get32(data[offset..], order)];
      index, offset, left := index + 1, offset + 4, left - 1;
    }
    assert subids + [] == subids;
  }

  method UnmarshalBinaryOrder(data: Octets, order: Order) returns (r: Result<ObjectIdentifier>)
    ensures r == Decode(data, order)
  {
    if |data| < 4 {
      return Err;
    }
    var count: nat := data[0];
    if count > MAX_SUBIDENTIFIERS {
      return Err;
    }
    if |data| < 4 + count * 4 {
      return Err;
    }
    var subids := ReadSubids(data, count, order);
    r := Ok(ObjectIdentifier(data[1], data[2], subids));
  }
}
