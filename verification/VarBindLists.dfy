/** The VarBindList walk (pdu/variables.go) and what a list keeps through the codec. */
module VarBindLists {
  import opened Wire
  import OI = ObjectIdentifiers
  import Oids
  import VB = VarBinds
  import W = Walks

  function Encode(vs: seq<VB.Variable>, order: Order): (r: Result<Octets>) {
    if vs == [] then Ok([])
    else
      var first :- VB.Encode(vs[0], order);
      Prepend(first, Encode(vs[1..], order))
  }

  /** A binding whose padding is missing at the very end of the data takes more octets than there are. */
  function Decode(data: Octets, order: Order): (r: Result<seq<VB.Variable>>)
    decreases |data|
  {
    if data == [] then Ok([])
    else
      var first :- VB.Decode(data, order);
      if first.size >= |data| then Ok([first.variable])
      else Prepend([first.variable], Decode(data[first.size..], order))
  }

  function Normal(vs: seq<VB.Variable>): (ns: seq<VB.Variable>)
    ensures |ns| == |vs|
  {
    if vs == [] then [] else [VB.Normal(vs[0])] + Normal(vs[1..])
  }

  lemma {:induction false} NormalAt(vs: seq<VB.Variable>, i: nat)
    requires i < |vs|
    ensures Normal(vs)[i] == VB.Normal(vs[i])
  {
    if i > 0 {
      NormalAt(vs[1..], i - 1);
    }
  }

  ghost predicate Representable(vs: seq<VB.Variable>) {
    forall i :: 0 <= i < |vs| ==> VB.Representable(vs[i])
  }

  lemma EncodeCons(vs: seq<VB.Variable>, order: Order)
    requires vs != [] && Encode(vs, order).Ok?
    ensures VB.Encode(vs[0], order).Ok? && Encode(vs[1..], order).Ok?
    ensures Encode(vs, order).value == VB.Encode(vs[0], order).value + Encode(vs[1..], order).value
  {
  }

  lemma {:induction false} EncodableAt(vs: seq<VB.Variable>, i: nat, order: Order)
    requires i < |vs| && Encode(vs, order).Ok?
    ensures VB.Encode(vs[i], order).Ok?
  {
    EncodeCons(vs, order);
    if i > 0 {
      EncodableAt(vs[1..], i - 1, order);
    }
  }

  /** One encoding after another, when there are both. */
  function Join(a: Result<Octets>, b: Result<Octets>): (r: Result<Octets>) {
    if a.Ok? && b.Ok? then Ok(a.value + b.value) else Err
  }

  lemma JoinAssociative(a: Result<Octets>, b: Result<Octets>, c: Result<Octets>)
    ensures Join(Join(a, b), c) == Join(a, Join(b, c))
  {
    if a.Ok? && b.Ok? && c.Ok? {
      assert a.value + b.value + c.value == a.value + (b.value + c.value);
    }
  }

  lemma JoinFirst(vs: seq<VB.Variable>, order: Order)
    requires vs != []
    ensures Encode(vs, order) == Join(VB.Encode(vs[0], order), Encode(vs[1..], order))
  {
  }

  lemma JoinNothing(a: Result<Octets>)
    ensures Join(Ok([]), a) == a == Join(a, Ok([]))
  {
    if a.Ok? {
      assert [] + a.value == a.value == a.value + [];
    }
  }

  /** A list with a binding added encodes if both do, to the one encoding after the other. */
  lemma {:induction false} EncodeAppend(vs: seq<VB.Variable>, v: VB.Variable, order: Order)
    ensures Encode(vs + [v], order) == Join(Encode(vs, order), VB.Encode(v, order))
  {
    var more := vs + [v];
    JoinFirst(more, order);
    JoinNothing(VB.Encode(v, order));
    if vs == [] {
      assert more[1..] == [];
    } else {
      assert more[1..] == vs[1..] + [v];
      EncodeAppend(vs[1..], v, order);
      JoinFirst(vs, order);
      JoinAssociative(VB.Encode(vs[0], order), Encode(vs[1..], order), VB.Encode(v, order));
    }
  }

  /** Adding to a list adds to what comes back, and to nothing else. */
  lemma AddComesBack(vs: seq<VB.Variable>, v: VB.Variable, order: Order)
    requires Encode(vs, order).Ok? && VB.Encode(v, order).Ok?
    ensures var data := Encode(vs, order).value + VB.Encode(v, order).value;
            && Encode(vs + [v], order) == Ok(data)
            && (Representable(vs) && VB.Representable(v) <==> Decode(data, order) == Ok(Normal(vs) + [VB.Normal(v)]))
  {
    EncodeAppend(vs, v, order);
    RoundTrip(vs + [v], order);
    NormalAppend(vs, v);
    assert Representable(vs + [v]) <==> Representable(vs) && VB.Representable(v) by {
      RepresentableAppend(vs, v);
    }
  }

  lemma RepresentableAppend(vs: seq<VB.Variable>, v: VB.Variable)
    ensures Representable(vs + [v]) <==> Representable(vs) && VB.Representable(v)
  {
    var more := vs + [v];
    assert more[|vs|] == v && forall i :: 0 <= i < |vs| ==> more[i] == vs[i];
  }

  lemma NormalAppend(vs: seq<VB.Variable>, v: VB.Variable)
    ensures Normal(vs + [v]) == Normal(vs) + [VB.Normal(v)]
  {
    forall i | 0 <= i <= |vs|
      ensures Normal(vs + [v])[i] == (Normal(vs) + [VB.Normal(v)])[i]
    {
      NormalAt(vs + [v], i);
      if i < |vs| {
        NormalAt(vs, i);
      }
    }
  }

  /** One step of the walk: the first binding comes off and the rest starts where it ended. */
  lemma DecodeCons(front: Octets, rest: Octets, v: VB.Variable, order: Order)
    requires VB.Decode(front + rest, order) == Ok(VB.Decoded(v, |front|))
    ensures Decode(front + rest, order) == Prepend([v], Decode(rest, order))
  {
    assert (front + rest)[|front|..] == rest;
    assert rest == [] ==> [v] + [] == [v];
  }

  lemma ConsInjective(v: VB.Variable, r: Result<seq<VB.Variable>>, vs: seq<VB.Variable>)
    ensures Prepend([v], r) == Ok([v] + vs) <==> r == Ok(vs)
  {
    if r.Ok? && [v] + r.value == [v] + vs {
      assert r.value == ([v] + r.value)[1..] == vs;
    }
  }

  lemma FirstDecides(data: Octets, order: Order, vs: seq<VB.Variable>)
    requires data != [] && vs != []
    requires !VB.DecodesTo(data, order, vs[0])
    ensures Decode(data, order) != Ok(vs)
  {
  }

  lemma RepresentableCons(vs: seq<VB.Variable>)
    requires vs != []
    ensures Representable(vs) <==> VB.Representable(vs[0]) && Representable(vs[1..])
  {
    assert vs == [vs[0]] + vs[1..];
  }

  /**
   * Decoding the concatenated encoding of any encodable list, in the same byte order, gives the
   * list element by element in normal form, exactly when every text ends, four octets on, at a 32-bit number.
   */
  lemma {:induction false} RoundTrip(vs: seq<VB.Variable>, order: Order)
    requires Encode(vs, order).Ok?
    ensures Representable(vs) <==> Decode(Encode(vs, order).value, order) == Ok(Normal(vs))
  {
    if vs != [] {
      EncodeCons(vs, order);
      RepresentableCons(vs);
      var first, rest := VB.Encode(vs[0], order).value, Encode(vs[1..], order).value;
      if VB.Representable(vs[0]) {
        VB.RoundTrip(vs[0], rest, order);
        DecodeCons(first, rest, VB.Normal(vs[0]), order);
        RoundTrip(vs[1..], order);
        ConsInjective(VB.Normal(vs[0]), Decode(rest, order), Normal(vs[1..]));
      } else {
        VB.RoundTripFails(vs[0], rest, order);
        FirstDecides(first + rest, order, Normal(vs));
      }
    }
  }

  lemma WrongOrder(vs: seq<VB.Variable>)
    requires Encode(vs, Little).Ok?
    ensures Decode(Encode(vs, Little).value, Big).Ok? <==> vs == []
  {
    if vs != [] {
      EncodeCons(vs, Little);
      VB.WrongOrder(vs[0], Encode(vs[1..], Little).value);
    }
  }

  // ---------------------------------------------------------- fixed point

  lemma {:induction false} EncodeNormal(vs: seq<VB.Variable>, order: Order)
    ensures Encode(Normal(vs), order) == Encode(vs, order)
  {
    if vs != [] {
      VB.EncodeNormal(vs[0], order);
      EncodeNormal(vs[1..], order);
      assert Normal(vs)[1..] == Normal(vs[1..]);
    }
  }

  function Unmapped(vs: seq<VB.Variable>): (us: seq<VB.Variable>)
    ensures |us| == |vs|
    ensures forall i :: 0 <= i < |vs| ==> us[i] == VB.Unmapped(vs[i])
  {
    seq(|vs|, i requires 0 <= i < |vs| => VB.Unmapped(vs[i]))
  }

  /** What every binding of a decoded list satisfies. */
  ghost predicate FromWire(v: VB.Variable) {
    && VB.Representable(v)
    && (VB.DataOf(v.typ, v.value).Ok? ==> VB.Normal(v) == VB.Unmapped(v))
  }

  lemma {:induction false} DecodedFromWire(data: Octets, order: Order)
    requires Decode(data, order).Ok?
    ensures forall i :: 0 <= i < |Decode(data, order).value| ==> FromWire(Decode(data, order).value[i])
    decreases |data|
  {
    if data != [] {
      VB.DecodeGivesNormal(data, order);
      var first := VB.Decode(data, order).value;
      if first.size < |data| {
        DecodedFromWire(data[first.size..], order);
      }
    }
  }

  /**
   * One pass reaches a fixed point. Whatever octets a list was decoded from, in whichever order:
   * if the list re-encodes, decoding that gives the list again except that IPv4-mapped addresses
   * are down to four octets, and encoding the result gives the same octets once more.
   */
  lemma FixedPoint(data: Octets, order: Order, order': Order)
    requires Decode(data, order).Ok?
    requires Encode(Decode(data, order).value, order').Ok?
    ensures var vs := Decode(data, order).value;
            var data' := Encode(vs, order').value;
            && Decode(data', order') == Ok(Unmapped(vs))
            && Encode(Unmapped(vs), order') == Ok(data')
  {
    var vs := Decode(data, order).value;
    DecodedFromWire(data, order);
    RoundTrip(vs, order');
    forall i | 0 <= i < |vs|
      ensures Normal(vs)[i] == Unmapped(vs)[i]
    {
      NormalAt(vs, i);
      EncodableAt(vs, i, order');
    }
    assert Normal(vs) == Unmapped(vs);
    EncodeNormal(vs, order');
  }

  // ------------------------------------------------------ exact consumption

  lemma {:induction false} EncodeAligned(vs: seq<VB.Variable>, order: Order) returns (k: nat)
    requires Encode(vs, order).Ok?
    ensures |Encode(vs, order).value| == 4 * k
  {
    k := 0;
    if vs != [] {
      EncodeCons(vs, order);
      var first := VB.EncodeAligned(vs[0], order);
      var rest := EncodeAligned(vs[1..], order);
      k := first + rest;
    }
  }

  function Reader(order: Order): (read: W.Reader<VB.Variable>) {
    data => match VB.Decode(data, order)
            case Ok(d) => Ok(W.Item(d.variable, d.size))
            case Err => Err
  }

  function Whole(order: Order): (whole: Octets -> Result<seq<VB.Variable>>) {
    data => Decode(data, order)
  }

  /** The list is what a walk over its bindings gives. */
  lemma DecodesByWalking(order: Order)
    ensures W.Decodes(Reader(order), Whole(order))
  {
    forall data
      ensures W.DecodesAt(Reader(order), Whole(order), data)
    {
      DecodesAt(data, order);
    }
  }

  lemma DecodesAt(data: Octets, order: Order)
    ensures W.DecodesAt(Reader(order), Whole(order), data)
  {
    if data != [] && VB.Decode(data, order).Ok? {
      var first := VB.Decode(data, order).value;
      W.PrependLast([first.variable]);
    }
  }

  /** The receiver of the list's encoder and decoder. */
  class Variables {
    var bindings: seq<VB.Variable>

    constructor (bindings: seq<VB.Variable>)
      ensures this.bindings == bindings
    {
      this.bindings := bindings;
    }

    /** The list goes on encoding as before, with the new binding's encoding at the end. */
    method Add(oid: Oids.OID, typ: u16, value: VB.Value)
      modifies this
      ensures bindings == old(bindings) + [VB.Variable(typ, OI.Plain(oid), value)]
      ensures var v := VB.Variable(typ, OI.Plain(oid), value);
              forall order :: Encode(bindings, order) == Join(old(Encode(bindings, order)), VB.Encode(v, order))
    {
      var v := VB.Variable(typ, OI.Plain(oid), value);
      forall order
        ensures Encode(bindings + [v], order) == Join(Encode(bindings, order), VB.Encode(v, order))
      {
        EncodeAppend(bindings, v, order);
      }
      bindings := bindings + [v];
    }

    method MarshalBinary() returns (r: Result<Octets>)
      ensures r == Encode(bindings, Little)
    {
      var result: Octets := [];
      var index := 0;
      PrependEmpty(Encode(bindings, Little));
      while index < |bindings|
        invariant 0 <= index <= |bindings|
        invariant Encode(bindings, Little) == Prepend(result, Encode(bindings[index..], Little))
      {
        var data := VB.Encode(bindings[index], Little);
        assert bindings[index..][1..] == bindings[index + 1..];
        if data.Err? {
          return Err;
        }
        PrependAssociative(result, data.value, Encode(bindings[index + 1..], Little));
        result := result + data.value;
        index := index + 1;
      }
      assert result + [] == result;
      r := Ok(result);
    }

    /**
     * The bindings are those of the walk up to where it cannot go on, which is `offset`: on
     * success past the last octet, and on aligned data exactly there.
     */
    method UnmarshalBinaryOrder(data: Octets, order: Order) returns (ok: bool, offset: nat, ghost ends: seq<nat>)
      modifies this
      ensures W.IsWalk(Reader(order), data, bindings, ends)
      ensures offset == ends[|bindings|] && W.Stops(Reader(order), data, offset)
      ensures ok == (offset >= |data|) == Decode(data, order).Ok?
      ensures ok ==> Decode(data, order) == Ok(bindings)
      ensures |data| % 4 == 0 ==> offset <= |data|
      ensures 8 * |bindings| <= offset
    {
      bindings := [];
      offset := 0;
      ends := [0];
      ghost var words, taken := |data| / 4, 0;
      DecodesByWalking(order);
      while offset < |data|
        invariant 8 * |bindings| <= offset
        invariant |data| == 4 * words ==> offset <= |data| && offset == 4 * taken
        invariant W.IsWalk(Reader(order), data, bindings, ends) && offset == ends[|bindings|]
        decreases |data| - offset
      {
        var variable := VB.Decode(data[offset..], order);
        if variable.Err? {
          W.WalkDecides(Reader(order), Whole(order), data, bindings, ends);
          return false, offset, ends;
        }
        var next := offset + variable.value.size;
        if |data| == 4 * words {
          ghost var k := VB.DecodeWithinAligned(data[offset..], order, words - taken);
          taken := taken + k;
        }
        W.Goes(Reader(order), data, bindings, ends, variable.value.variable, next);
        bindings := bindings + [variable.value.variable];
        offset := next;
        ends := ends + [next];
      }
      W.WalkDecides(Reader(order), Whole(order), data, bindings, ends);
      ok := true;
    }
  }

  // ---------------------------------------------------------------- panics

  /** Some binding the walk gets to makes its decoder panic. */
  predicate Panics(data: Octets, order: Order)
    decreases |data|
  {
    data != []
    && (VB.Panics(data, order)
        || match VB.Decode(data, order)
           case Ok(first) => first.size < |data| && Panics(data[first.size..], order)
           case Err => false)
  }

  /** Decoding a list shorter than 2^32 octets never panics: every slice bound is in range. */
  lemma {:induction false} NeverPanics(data: Octets, order: Order)
    requires |data| < TWO32
    ensures !Panics(data, order)
    decreases |data|
  {
    if data != [] {
      VB.NeverPanics(data, order);
      if VB.Decode(data, order).Ok? && VB.Decode(data, order).value.size < |data| {
        NeverPanics(data[VB.Decode(data, order).value.size..], order);
      }
    }
  }
}
