/** SearchRange and SearchRangeList, section 5.2 of RFC 2741 (pdu/range.go, pdu/ranges.go). */
module SearchRanges {
  import opened Wire
  import W = Walks
  import OI = ObjectIdentifiers

  datatype Range = Range(start: OI.ObjectIdentifier, ending: OI.ObjectIdentifier) {
    function ByteSize(): (n: nat)
      ensures n >= 8
    {
      start.ByteSize() + ending.ByteSize()
    }

    /** The ending OID's include octet is always sent as zero. */
    function Normal(): (r: Range) {
      this.(ending := ending.(incl := 0))
    }
  }

  function Encode(r: Range, order: Order): (e: Result<Octets>)
    ensures e.Ok? ==> |e.value| == r.ByteSize()
  {
    var startBytes :- OI.Encode(r.start, order);
    var endBytes :- OI.Encode(r.Normal().ending, order);
    Ok(startBytes + endBytes)
  }

  function Decode(data: Octets, order: Order): (r: Result<Range>)
    ensures r.Ok? ==> r.value.ByteSize() <= |data|
  {
    var start :- OI.Decode(data, order);
    var ending :- OI.Decode(data[start.ByteSize()..], order);
    Ok(Range(start, ending))
  }

  lemma RoundTrip(r: Range, rest: Octets, order: Order)
    requires Encode(r, order).Ok?
    ensures Decode(Encode(r, order).value + rest, order) == Ok(r.Normal())
  {
    var startBytes := OI.Encode(r.start, order).value;
    var endBytes := OI.Encode(r.Normal().ending, order).value;
    ThreeParts(startBytes, endBytes, rest);
    OI.RoundTrip(r.start, endBytes + rest, order);
    OI.RoundTrip(r.Normal().ending, rest, order);
  }

  function EncodeList(rs: seq<Range>, order: Order): (e: Result<Octets>) {
    if rs == [] then Ok([])
    else
      var first :- Encode(rs[0], order);
      Prepend(first, EncodeList(rs[1..], order))
  }

  function DecodeList(data: Octets, order: Order): (r: Result<seq<Range>>)
    decreases |data|
  {
    if data == [] then Ok([])
    else
      var first :- Decode(data, order);
      Prepend([first], DecodeList(data[first.ByteSize()..], order))
  }

  function NormalList(rs: seq<Range>): (ns: seq<Range>)
    ensures |ns| == |rs|
    ensures forall i :: 0 <= i < |rs| ==> ns[i] == rs[i].Normal()
  {
    seq(|rs|, i requires 0 <= i < |rs| => rs[i].Normal())
  }

  lemma EncodeCons(rs: seq<Range>, order: Order)
    requires rs != [] && EncodeList(rs, order).Ok?
    ensures Encode(rs[0], order).Ok? && EncodeList(rs[1..], order).Ok?
    ensures EncodeList(rs, order).value == Encode(rs[0], order).value + EncodeList(rs[1..], order).value
  {
  }

  lemma DecodeCons(front: Octets, rest: Octets, r: Range, order: Order)
    requires Decode(front + rest, order) == Ok(r) && |front| == r.ByteSize()
    ensures DecodeList(front + rest, order) == Prepend([r], DecodeList(rest, order))
  {
    assert (front + rest)[r.ByteSize()..] == rest;
  }

  lemma NormalCons(rs: seq<Range>)
    requires rs != []
    ensures NormalList(rs) == [rs[0].Normal()] + NormalList(rs[1..])
  {
  }

  lemma {:induction false} ListRoundTrip(rs: seq<Range>, order: Order)
    requires EncodeList(rs, order).Ok?
    ensures DecodeList(EncodeList(rs, order).value, order) == Ok(NormalList(rs))
  {
    if rs != [] {
      EncodeCons(rs, order);
      var first, rest := Encode(rs[0], order).value, EncodeList(rs[1..], order).value;
      RoundTrip(rs[0], rest, order);
      DecodeCons(first, rest, rs[0].Normal(), order);
      ListRoundTrip(rs[1..], order);
      NormalCons(rs);
    }
  }

  // ------------------------------------------------------- the wrong order

  function Swapped(r: Range): (s: Range) {
    Range(OI.Swapped(r.start), OI.Swapped(r.ending))
  }

  function SwapList(rs: seq<Range>): (swapped: seq<Range>)
    ensures |swapped| == |rs|
    ensures forall i :: 0 <= i < |rs| ==> swapped[i] == Swapped(rs[i].Normal())
  {
    seq(|rs|, i requires 0 <= i < |rs| => Swapped(rs[i].Normal()))
  }

  ghost predicate Symmetric(r: Range) {
    OI.AllSymmetric(r.start) && OI.AllSymmetric(r.ending)
  }

  lemma WrongOrder(r: Range, rest: Octets)
    requires Encode(r, Little).Ok?
    ensures Decode(Encode(r, Little).value + rest, Big) == Ok(Swapped(r.Normal()))
  {
    var startBytes := OI.Encode(r.start, Little).value;
    var endBytes := OI.Encode(r.Normal().ending, Little).value;
    ThreeParts(startBytes, endBytes, rest);
    OI.WrongOrder(r.start, endBytes + rest);
    OI.WrongOrder(r.Normal().ending, rest);
  }

  lemma SwapCons(rs: seq<Range>)
    requires rs != []
    ensures SwapList(rs) == [Swapped(rs[0].Normal())] + SwapList(rs[1..])
  {
  }

  /** A little-endian list read as a big-endian one always parses, with its sub-identifiers swapped. */
  lemma {:induction false} ListWrongOrder(rs: seq<Range>)
    requires EncodeList(rs, Little).Ok?
    ensures DecodeList(EncodeList(rs, Little).value, Big) == Ok(SwapList(rs))
  {
    if rs != [] {
      EncodeCons(rs, Little);
      var first, rest := Encode(rs[0], Little).value, EncodeList(rs[1..], Little).value;
      WrongOrder(rs[0], rest);
      DecodeCons(first, rest, Swapped(rs[0].Normal()), Big);
      ListWrongOrder(rs[1..]);
      SwapCons(rs);
    }
  }

  lemma SwapFixes(rs: seq<Range>)
    ensures SwapList(rs) == NormalList(rs) <==> forall i :: 0 <= i < |rs| ==> Symmetric(rs[i])
  {
    forall i | 0 <= i < |rs|
      ensures SwapList(rs)[i] == NormalList(rs)[i] <==> Symmetric(rs[i])
    {
      OI.SwapFixes(rs[i].start);
      OI.SwapFixes(rs[i].Normal().ending);
    }
    if forall i :: 0 <= i < |rs| ==> Symmetric(rs[i]) {
      assert SwapList(rs) == NormalList(rs);
    }
  }

  lemma {:induction false} EncodeAligned(rs: seq<Range>, order: Order) returns (k: nat)
    requires EncodeList(rs, order).Ok?
    ensures |EncodeList(rs, order).value| == 4 * k
  {
    k := 0;
    if rs != [] {
      var rest := EncodeAligned(rs[1..], order);
      k := 2 + |rs[0].start.subids| + |rs[0].ending.subids| + rest;
    }
  }

  function Reader(order: Order): (read: W.Reader<Range>) {
    data => match Decode(data, order)
            case Ok(r) => Ok(W.Item(r, r.ByteSize()))
            case Err => Err
  }

  function Whole(order: Order): (whole: Octets -> Result<seq<Range>>) {
    data => DecodeList(data, order)
  }

  /** The list is what a walk over its ranges gives. */
  lemma DecodesByWalking(order: Order)
    ensures W.Decodes(Reader(order), Whole(order))
  {
    forall data
      ensures W.DecodesAt(Reader(order), Whole(order), data)
    {
      DecodesAt(data, order);
    }
  }

  lemma DecodesAt(data: Octets, order: Order)
    ensures W.DecodesAt(Reader(order), Whole(order), data)
  {
    if data != [] && Decode(data, order).Ok? {
      var n := Decode(data, order).value.ByteSize();
      assert n == |data| ==> data[n..] == [];
    }
  }

  /** The receiver of the list's encoder and decoder. */
  class Ranges {
    var ranges: seq<Range>

    constructor (ranges: seq<Range>)
      ensures this.ranges == ranges
    {
      this.ranges := ranges;
    }

    method MarshalBinary() returns (r: Result<Octets>)
      ensures r == EncodeList(ranges, Little)
    {
      var result: Octets := [];
      var index := 0;
      PrependEmpty(EncodeList(ranges, Little));
      while index < |ranges|
        invariant 0 <= index <= |ranges|
        invariant EncodeList(ranges, Little) == Prepend(result, EncodeList(ranges[index..], Little))
      {
        var data := Encode(ranges[index], Little);
        assert ranges[index..][1..] == ranges[index + 1..];
        if data.Err? {
          return Err;
        }
        PrependAssociative(result, data.value, EncodeList(ranges[index + 1..], Little));
        result := result + data.value;
        index := index + 1;
      }
      assert result + [] == result;
      r := Ok(result);
    }

    /**
     * The ranges are those of the walk up to where it cannot go on, which is `offset`: on success
     * the end of the data.
     */
    method UnmarshalBinaryOrder(data: Octets, order: Order) returns (ok: bool, offset: nat, ghost ends: seq<nat>)
      modifies this
      ensures W.IsWalk(Reader(order), data, ranges, ends)
      ensures offset == ends[|ranges|] && W.Stops(Reader(order), data, offset)
      ensures ok == (offset == |data|) == DecodeList(data, order).Ok?
      ensures ok ==> DecodeList(data, order) == Ok(ranges)
      ensures offset <= |data| && 8 * |ranges| <= offset
    {
      ranges := [];
      offset := 0;
      ends := [0];
      DecodesByWalking(order);
      while offset < |data|
        invariant 0 <= offset <= |data| && 8 * |ranges| <= offset
        invariant W.IsWalk(Reader(order), data, ranges, ends) && offset == ends[|ranges|]
      {
        var rng := Decode(data[offset..], order);
        if rng.Err? {
          W.WalkDecides(Reader(order), Whole(order), data, ranges, ends);
          return false, offset, ends;
        }
        var next := offset + rng.value.ByteSize();
        W.Goes(Reader(order), data, ranges, ends, rng.value, next);
        ranges := ranges + [rng.value];
        offset := next;
        ends := ends + [next];
      }
      W.WalkDecides(Reader(order), Whole(order), data, ranges, ends);
      ok := true;
    }
  }
}
