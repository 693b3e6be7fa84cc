/**
 * The wire format of sections 5 and 6 of RFC 2741, octet by octet: where each field lies, in which
 * order its octets are, and the numbers that stand for types and errors.
 */
module Layouts {
  import opened Wire
  import F = Framing
  import H = Headers
  import OI = ObjectIdentifiers
  import OS = OctetStrings
  import P = Packets
  import SR = SearchRanges
  import VB = VarBinds
  import VBL = VarBindLists

  // --------------------------------------------------------------- numbers

  /** Two octets, the most significant first or last. */
  function Half(d: Octets, at: nat, msbFirst: bool): (n: nat)
    requires at + 2 <= |d|
  {
    var first: nat, second: nat := d[at], d[at + 1];
    if msbFirst then 256 * first + second else 256 * second + first
  }

  function Word(d: Octets, at: nat, msbFirst: bool): (n: nat)
    requires at + 4 <= |d|
  {
    if msbFirst then Half(d, at, true) * 0x1_0000 + Half(d, at + 2, true)
    else Half(d, at + 2, false) * 0x1_0000 + Half(d, at, false)
  }

  function Long(d: Octets, at: nat, msbFirst: bool): (n: nat)
    requires at + 8 <= |d|
  {
    if msbFirst then Word(d, at, true) * 0x1_0000_0000 + Word(d, at + 4, true)
    else Word(d, at + 4, false) * 0x1_0000_0000 + Word(d, at, false)
  }

  lemma GetOne(s: Octets, order: Order)
    requires |s| == 1
    ensures Get(s, order) == s[0]
  {
    assert s[1..] == [] && s[..0] == [];
    assert Get([], order) == 0;
  }

  lemma GetTwo(s: Octets)
    requires |s| == 2
    ensures Get(s, Big) == Half(s, 0, true)
    ensures Get(s, Little) == Half(s, 0, false)
  {
    GetOne(s[1..], Little);
    GetOne(s[..1], Big);
  }

  /** Numbers in two halves. */
  lemma {:induction false} GetSplit(s: Octets, t: Octets)
    ensures Get(s + t, Big) == Get(s, Big) * Pow256(|t|) + Get(t, Big)
    decreases |t|
  {
    if t == [] {
      assert s + t == s;
    } else {
      var n := |t| - 1;
      assert (s + t)[..|s + t| - 1] == s + t[..n];
      GetSplit(s, t[..n]);
      Distribute(Get(s, Big), Pow256(n), Get(t[..n], Big), t[n]);
    }
  }

  lemma Distribute(a: nat, p: nat, b: nat, c: nat)
    ensures c + 256 * (a * p + b) == a * (256 * p) + (c + 256 * b)
  {
  }

  lemma {:induction false} GetSplitLittle(s: Octets, t: Octets)
    ensures Get(s + t, Little) == Get(t, Little) * Pow256(|s|) + Get(s, Little)
    decreases |s|
  {
    if s == [] {
      assert s + t == t;
    } else {
      assert (s + t)[1..] == s[1..] + t;
      GetSplitLittle(s[1..], t);
      Distribute(Get(t, Little), Pow256(|s| - 1), Get(s[1..], Little), s[0]);
    }
  }

  /** The closed forms of the library's readers of integers, in both orders. */
  lemma Get16Is(d: Octets, order: Order)
    requires |d| >= 2
    ensures Get16(d, order) == Half(d, 0, order == Big)
  {
    GetTwo(d[..2]);
  }

  lemma Get32Is(d: Octets, order: Order)
    requires |d| >= 4
    ensures Get32(d, order) == Word(d, 0, order == Big)
  {
    var s, t := d[..2], d[2..4];
    assert d[..4] == s + t;
    Pow256Widths();
    GetTwo(s);
    GetTwo(t);
    GetSplit(s, t);
    GetSplitLittle(s, t);
  }

  lemma Get64Is(d: Octets, order: Order)
    requires |d| >= 8
    ensures Get64(d, order) == Long(d, 0, order == Big)
  {
    var s, t := d[..4], d[4..8];
    assert d[..8] == s + t;
    Pow256Widths();
    assert s[..4] == s && t[..4] == t;
    Get32Is(s, order);
    Get32Is(t, order);
    GetSplit(s, t);
    GetSplitLittle(s, t);
    WordMoves(d, t, 4, order == Big);
  }

  /** A field is the same wherever it is looked at from. */
  lemma WordMoves(d: Octets, t: Octets, at: nat, msbFirst: bool)
    requires |t| >= 4 && at + |t| <= |d| && d[at..at + |t|] == t
    ensures Word(t, 0, msbFirst) == Word(d, at, msbFirst)
  {
    assert forall i :: 0 <= i < |t| ==> t[i] == d[at..at + |t|][i] == d[at + i];
  }

  lemma HalfAt(d: Octets, at: nat, order: Order)
    requires at + 2 <= |d|
    ensures Get16(d[at..], order) == Half(d, at, order == Big)
  {
    Get16Is(d[at..], order);
  }

  lemma WordAt(d: Octets, at: nat, order: Order)
    requires at + 4 <= |d|
    ensures Get32(d[at..], order) == Word(d, at, order == Big)
  {
    Get32Is(d[at..], order);
  }

  lemma LongAt(d: Octets, at: nat, order: Order)
    requires at + 8 <= |d|
    ensures Get64(d[at..], order) == Long(d, at, order == Big)
  {
    Get64Is(d[at..], order);
  }

  // --------------------------------------------------------------- headers

  /** NETWORK_BYTE_ORDER, bit 4 of the flags. */
  predicate NetworkOrder(flags: byte) {
    (flags / 16) % 2 == 1
  }

  /** Section 6.1: version, type, flags, a reserved octet, three ids and the length of the payload. */
  lemma HeaderLayout(d: Octets)
    requires |d| >= 20
    ensures var h, net := H.Decode(d), NetworkOrder(d[2]);
            && h.version == d[0] && h.typ == d[1] && h.flags == d[2]
            && h.sessionID == Word(d, 4, net) && h.transactionID == Word(d, 8, net)
            && h.packetID == Word(d, 12, net) && h.payloadLength == Word(d, 16, net)
    ensures H.OrderOf(d[2]) == if NetworkOrder(d[2]) then Big else Little
  {
    var order := H.OrderOf(d[2]);
    WordAt(d, 4, order);
    WordAt(d, 8, order);
    WordAt(d, 12, order);
    WordAt(d, 16, order);
  }

  /** As written: the header in the order its own flags declare, with the reserved octet zero. */
  lemma HeaderOctets(h: H.Header)
    ensures var e, net := H.Encode(h), NetworkOrder(h.flags);
            && |e| == 20 && e[0] == h.version && e[1] == h.typ && e[2] == h.flags && e[3] == 0
            && Word(e, 4, net) == h.sessionID && Word(e, 8, net) == h.transactionID
            && Word(e, 12, net) == h.packetID && Word(e, 16, net) == h.payloadLength
  {
    var e := H.Encode(h);
    H.RoundTrip(h, []);
    assert e + [] == e;
    HeaderLayout(e);
  }

  /** What becomes of a stream, from the octets of the next header. */
  lemma StreamLayout(d: Octets)
    ensures |d| < 20 ==> F.ReadFrame(d).Ended?
    ensures |d| >= 20 ==>
              var length := Word(d, 16, NetworkOrder(d[2]));
              && (F.ReadFrame(d).Untrusted? <==> length % 4 != 0 || length > 0x10_0000)
              && (F.ReadFrame(d).Answerable() <==> length % 4 == 0 && length <= 0x10_0000 && |d| >= 20 + length)
              && (F.ReadFrame(d).Answerable() ==>
                    F.ReadFrame(d).size == 20 + length && F.ReadFrame(d).header == H.Decode(d))
              && (F.ReadFrame(d).Frame? ==> d[0] == 1)
  {
    if |d| >= 20 {
      HeaderLayout(d);
    }
  }

  /** A frame of version 1 is decoded as its type says, in the order its flags say. */
  lemma BodyLayout(d: Octets)
    requires |d| >= 20 && F.ReadFrame(d).Answerable()
    ensures var h := H.Decode(d);
            && |d| >= 20 + h.payloadLength
            && var decoded := P.Decode(d[1], d[20..20 + h.payloadLength], if NetworkOrder(d[2]) then Big else Little);
               if d[0] == 1 && decoded.Ok? then F.ReadFrame(d) == F.Frame(h, decoded.value, 20 + h.payloadLength)
               else F.ReadFrame(d) == F.Malformed(h, 20 + h.payloadLength)
  {
    HeaderLayout(d);
  }

  // ---------------------------------------------------- object identifiers

  lemma {:induction false} SubidAt(d: Octets, count: nat, order: Order, i: nat)
    requires |d| >= 4 * count && i < count
    ensures OI.DecodeSubids(d, count, order)[i] == Word(d, 4 * i, order == Big)
    decreases count
  {
    if i == 0 {
      Get32Is(d, order);
    } else {
      var rest := d[4..];
      SubidAt(rest, count - 1, order, i - 1);
      WordShifts(d, rest, i, order == Big);
    }
  }

  lemma WordShifts(d: Octets, rest: Octets, i: nat, msbFirst: bool)
    requires i > 0 && |d| >= 4 * i + 4 && rest == d[4..]
    ensures Word(rest, 4 * (i - 1), msbFirst) == Word(d, 4 * i, msbFirst)
  {
  }

  /** How many octets the identifier at the front of the data takes, if it is one. */
  function OidSize(d: Octets): (n: nat)
    requires |d| >= 1
  {
    var count: nat := d[0];
    4 + 4 * count
  }

  predicate HasOid(d: Octets) {
    |d| >= 4 && d[0] <= 128 && |d| >= OidSize(d)
  }

  /** Section 5.1: the number of sub-identifiers, a prefix, an include field, a reserved octet, the words. */
  lemma OidLayout(d: Octets, order: Order)
    ensures OI.Decode(d, order).Ok? <==> HasOid(d)
    ensures HasOid(d) ==>
              var o := OI.Decode(d, order).value;
              && |o.subids| == d[0] && o.prefix == d[1] && o.incl == d[2] && o.ByteSize() == OidSize(d)
              && forall i :: 0 <= i < |o.subids| ==> o.subids[i] == Word(d, 4 + 4 * i, order == Big)
  {
    if HasOid(d) {
      var o, rest := OI.Decode(d, order).value, d[4..];
      forall i | 0 <= i < |o.subids|
        ensures o.subids[i] == Word(d, 4 + 4 * i, order == Big)
      {
        SubidAt(rest, |o.subids|, order, i);
        WordShifts(d, rest, i + 1, order == Big);
      }
    }
  }

  /** A prefix p stands for 1.3.6.1.p; what the library itself builds has none. */
  lemma IdentifierMeans(o: OI.ObjectIdentifier)
    ensures o.prefix == 0 ==> o.GetIdentifier() == o.subids
    ensures o.prefix != 0 ==>
              && |o.GetIdentifier()| == 5 + |o.subids|
              && o.GetIdentifier()[0] == 1 && o.GetIdentifier()[1] == 3 && o.GetIdentifier()[2] == 6
              && o.GetIdentifier()[3] == 1 && o.GetIdentifier()[4] == o.prefix
              && o.GetIdentifier()[5..] == o.subids
    ensures o.GetInclude() <==> o.incl != 0
    ensures OI.Plain(o.subids) == OI.ObjectIdentifier(0, 0, o.subids)
  {
    assert [] + o.subids == o.subids;
  }

  /** As written, with the reserved octet zero. */
  ghost predicate IsOidOctets(e: Octets, o: OI.ObjectIdentifier, msbFirst: bool) {
    && |e| == 4 + 4 * |o.subids| && e[0] == |o.subids| && e[1] == o.prefix && e[2] == o.incl && e[3] == 0
    && forall i :: 0 <= i < |o.subids| ==> Word(e, 4 + 4 * i, msbFirst) == o.subids[i]
  }

  lemma OidOctets(o: OI.ObjectIdentifier, order: Order)
    ensures OI.Encode(o, order).Ok? <==> |o.subids| <= 128
    ensures OI.Encode(o, order).Ok? ==> IsOidOctets(OI.Encode(o, order).value, o, order == Big)
  {
    if |o.subids| <= 128 {
      var e := OI.Encode(o, order).value;
      OI.RoundTrip(o, [], order);
      assert e + [] == e;
      OidLayout(e, order);
      ReservedIsZero([|o.subids|, o.prefix, o.incl, 0], OI.EncodeSubids(o.subids, order));
    }
  }

  lemma ReservedIsZero(head: Octets, body: Octets)
    requires |head| == 4 && head[3] == 0
    ensures (head + body)[3] == 0
  {
  }

  // --------------------------------------------------------- octet strings

  /** The text is there, and its end is a 32-bit number. */
  predicate HasText(d: Octets, msbFirst: bool) {
    |d| >= 4 && Word(d, 0, msbFirst) <= |d| - 4 && Word(d, 0, msbFirst) < 0xffff_fffc
  }

  /** Section 5.3: the number of octets, then these. */
  lemma TextLayout(d: Octets, order: Order)
    ensures OS.Decode(d, order).Ok? <==> HasText(d, order == Big)
    ensures HasText(d, order == Big) ==> OS.Decode(d, order) == Ok(d[4..4 + Word(d, 0, order == Big)])
  {
    if |d| >= 4 {
      Get32Is(d, order);
    }
  }

  lemma Pieces(a: Octets, b: Octets, pad: Octets)
    requires |a| == 4 && forall i :: 0 <= i < |pad| ==> pad[i] == 0
    ensures var d := a + b + pad;
            && d == a + (b + pad) && d[4..4 + |b|] == b
            && forall i :: 4 + |b| <= i < |d| ==> d[i] == 0
  {
  }

  lemma PutWord(w: u32, rest: Octets, order: Order)
    ensures Word(Put(w, 4, order) + rest, 0, order == Big) == w
  {
    Get32Put(w, order, rest);
    Get32Is(Put(w, 4, order) + rest, order);
  }

  lemma TextSize(n: nat)
    ensures OS.ByteSize(n) % 4 == 0 && 4 + n <= OS.ByteSize(n) < 8 + n
  {
    OS.PaddingAligns(n);
  }

  lemma Untruncated(n: nat)
    requires n < 0x1_0000_0000
    ensures ToUint32(n) == n
  {
  }

  /** As written: the length, the octets, and zeros up to the next multiple of four. */
  ghost predicate IsTextOctets(e: Octets, text: Octets, msbFirst: bool) {
    && |e| % 4 == 0 && 4 + |text| <= |e| < 8 + |text|
    && Word(e, 0, msbFirst) == |text| && e[4..4 + |text|] == text
    && forall i :: 4 + |text| <= i < |e| ==> e[i] == 0
  }

  lemma TextPieces(length: Octets, text: Octets, pad: Octets, msbFirst: bool)
    requires |length| == 4 && forall i :: 0 <= i < |pad| ==> pad[i] == 0
    requires |length + text + pad| % 4 == 0 && |pad| < 4
    requires Word(length + (text + pad), 0, msbFirst) == |text|
    ensures IsTextOctets(length + text + pad, text, msbFirst)
  {
    Pieces(length, text, pad);
  }

  lemma TextOctets(text: Octets, order: Order)
    requires |text| < 0x1_0000_0000
    ensures IsTextOctets(OS.Encode(text, order), text, order == Big)
  {
    TextSize(|text|);
    Untruncated(|text|);
    var pad := Zeros(OS.Padding(|text|));
    PutWord(|text|, text + pad, order);
    TextPieces(Put(|text|, 4, order), text, pad, order == Big);
  }

  // --------------------------------------------------------- search ranges

  /** Section 5.2: where the search starts, then where it ends. */
  lemma RangeLayout(d: Octets, order: Order)
    ensures SR.Decode(d, order).Ok? <==> HasOid(d) && HasOid(d[OidSize(d)..])
    ensures SR.Decode(d, order).Ok? ==>
              && Ok(SR.Decode(d, order).value.start) == OI.Decode(d, order)
              && Ok(SR.Decode(d, order).value.ending) == OI.Decode(d[OidSize(d)..], order)
  {
    OidLayout(d, order);
    if HasOid(d) {
      OidLayout(d[OidSize(d)..], order);
    }
  }

  // -------------------------------------------------------------- bindings

  predicate IsNone(typ: nat) {
    typ == 5 || typ == 128 || typ == 129 || typ == 130
  }

  predicate IsWord(typ: nat) {
    typ == 2 || typ == 65 || typ == 66 || typ == 67
  }

  predicate IsText(typ: nat) {
    typ == 4 || typ == 64 || typ == 68
  }

  /** The data of a binding of this type is there. */
  predicate HasData(typ: nat, d: Octets, msbFirst: bool) {
    || IsNone(typ) || (IsWord(typ) && |d| >= 4) || (typ == 70 && |d| >= 8)
    || (IsText(typ) && HasText(d, msbFirst)) || (typ == 6 && HasOid(d))
  }

  /** Two's complement. */
  function Signed(w: u32): (i: int) {
    if w < 0x8000_0000 then w else w - 0x1_0000_0000
  }

  /** The value section 5.4 gives to the data, by the number of the type. */
  ghost predicate Means(typ: nat, d: Octets, order: Order, v: VB.Value)
    requires HasData(typ, d, order == Big)
  {
    var msb := order == Big;
    if IsNone(typ) then v == VB.Nil
    else if typ == 2 then v.Int32? && v.i == Signed(Word(d, 0, msb))
    else if typ == 65 || typ == 66 then v.Uint32? && v.u == Word(d, 0, msb)
    else if typ == 67 then v.Duration? && v.ns == Word(d, 0, msb) * 10_000_000
    else if typ == 70 then v.Uint64? && v.w == Long(d, 0, msb)
    else if typ == 4 then v.Str? && v.octets == d[4..4 + Word(d, 0, msb)]
    else if typ == 68 then v.Bytes? && v.octets == d[4..4 + Word(d, 0, msb)]
    else if typ == 64 then v.IP? && v.octets == d[4..4 + Word(d, 0, msb)]
    else v.Oid? && v.oid == OI.Decode(d, order).value.GetIdentifier()
  }

  lemma DataLayout(typ: u16, d: Octets, order: Order)
    ensures VB.DecodeData(typ, d, order).Ok? <==> HasData(typ, d, order == Big)
    ensures HasData(typ, d, order == Big) ==> Means(typ, d, order, VB.ValueOf(typ, VB.DecodeData(typ, d, order).value))
  {
    if VB.WordData(typ) {
      WordMeans(typ, d, order);
    } else if typ == 70 {
      LongMeans(d, order);
    } else if VB.TextData(typ) {
      TextLayout(d, order);
    } else if typ == 6 {
      OidLayout(d, order);
    }
  }

  lemma WordMeans(typ: u16, d: Octets, order: Order)
    requires VB.WordData(typ)
    ensures VB.DecodeData(typ, d, order).Ok? <==> HasData(typ, d, order == Big)
    ensures HasData(typ, d, order == Big) ==> Means(typ, d, order, VB.ValueOf(typ, VB.DecodeData(typ, d, order).value))
  {
    if |d| >= 4 {
      Get32Is(d, order);
    }
  }

  lemma LongMeans(d: Octets, order: Order)
    ensures VB.DecodeData(70, d, order).Ok? <==> HasData(70, d, order == Big)
    ensures HasData(70, d, order == Big) ==> Means(70, d, order, VB.ValueOf(70, VB.DecodeData(70, d, order).value))
  {
    if |d| >= 8 {
      Get64Is(d, order);
    }
  }

  /** The data of a binding: after the type, two reserved octets and the name. */
  function DataAt(d: Octets): (data: Octets)
    requires |d| >= 4 && HasOid(d[4..])
  {
    d[4..][OidSize(d[4..])..]
  }

  /** Section 5.4: the type, two reserved octets, the name, and data as the type says. */
  lemma BindingLayout(d: Octets, order: Order)
    ensures VB.Decode(d, order).Ok? <==>
              |d| >= 4 && HasOid(d[4..]) && HasData(Half(d, 0, order == Big), DataAt(d), order == Big)
    ensures VB.Decode(d, order).Ok? ==>
              var v := VB.Decode(d, order).value.variable;
              && v.typ == Half(d, 0, order == Big) && Ok(v.name) == OI.Decode(d[4..], order)
              && Means(v.typ, DataAt(d), order, v.value)
  {
    if |d| >= 4 {
      Get16Is(d, order);
      OidLayout(d[4..], order);
      if HasOid(d[4..]) {
        DataLayout(Get16(d, order), DataAt(d), order);
      }
    }
  }

  // ---------------------------------------------------- bindings as written

  /** Four octets, or the last four of sixteen that begin with ten zeros and two octets of ones. */
  predicate IsAddress(x: Octets) {
    |x| == 4 || (|x| == 16 && (forall i :: 0 <= i < 10 ==> x[i] == 0) && x[10] == 255 && x[11] == 255)
  }

  /** Which values the library can write for each type. */
  ghost predicate Writable(typ: nat, v: VB.Value) {
    || IsNone(typ)
    || (typ == 2 && v.Int32?)
    || ((typ == 65 || typ == 66) && v.Uint32?)
    || (typ == 67 && (v.Uint32? || (v.Duration? && v.ns >= 0)))
    || (typ == 70 && v.Uint64?)
    || ((typ == 4 || typ == 68) && (v.Str? || v.Bytes?))
    || (typ == 64 && (v.Str? || v.Bytes? || v.IP?) && IsAddress(v.octets))
    || (typ == 6 && (v.Oid? || v.Uint32s? || (v.Str? && VB.Oids.Parse(v.octets).Ok?)))
  }

  /** The OID that a value of type 6 names. */
  function OidNamed(v: VB.Value): (oid: seq<u32>)
    requires v.Oid? || v.Uint32s? || (v.Str? && VB.Oids.Parse(v.octets).Ok?)
  {
    if v.Str? then VB.Oids.Parse(v.octets).value else v.oid
  }

  /** An address as it is written: four octets. */
  function Address(x: Octets): (a: Octets)
    requires IsAddress(x)
    ensures |a| == 4
  {
    if |x| == 4 then x else x[12..]
  }

  /** The octets section 5.4 asks for, by the number of the type; a text beyond 2^32 octets is not pinned. */
  ghost predicate Written(typ: nat, v: VB.Value, d: Octets, msbFirst: bool)
    requires Writable(typ, v)
  {
    if IsNone(typ) then d == []
    else if typ == 2 then |d| == 4 && Signed(Word(d, 0, msbFirst)) == v.i
    else if typ == 65 || typ == 66 then |d| == 4 && Word(d, 0, msbFirst) == v.u
    else if typ == 67 then
      |d| == 4 && Word(d, 0, msbFirst) == if v.Uint32? then v.u else (v.ns / 10_000_000) % 0x1_0000_0000
    else if typ == 70 then |d| == 8 && Long(d, 0, msbFirst) == v.w
    else if typ == 64 then IsTextOctets(d, Address(v.octets), msbFirst)
    else if typ == 4 || typ == 68 then |v.octets| < 0x1_0000_0000 ==> IsTextOctets(d, v.octets, msbFirst)
    else IsOidOctets(d, OI.ObjectIdentifier(0, 0, OidNamed(v)), msbFirst)
  }

  lemma SignedWraps(i: i32)
    ensures Signed(ToUint32(i)) == i
  {
  }

  lemma PutLong(w: u64, order: Order)
    ensures Long(Put(w, 8, order), 0, order == Big) == w
  {
    Get64Put(w, order, []);
    assert Put(w, 8, order) + [] == Put(w, 8, order);
    Get64Is(Put(w, 8, order), order);
  }

  lemma WordAlone(w: u32, order: Order)
    ensures Word(Put(w, 4, order), 0, order == Big) == w
  {
    PutWord(w, [], order);
    assert Put(w, 4, order) + [] == Put(w, 4, order);
  }

  lemma AddressIs(x: Octets)
    ensures VB.To4(x) == if IsAddress(x) then Ok(Address(x)) else Err
  {
    var mapped := Zeros(10) + [0xff, 0xff];
    if |x| == 16 {
      assert x[..12] == mapped <==> forall i :: 0 <= i < 12 ==> x[i] == mapped[i];
    }
  }

  /** Which data stands for a value. */
  lemma DataFor(typ: u16, v: VB.Value)
    ensures VB.DataOf(typ, v).Ok? <==> Writable(typ, v)
    ensures Writable(typ, v) ==>
              var d := VB.DataOf(typ, v).value;
              && (IsNone(typ) ==> d.Empty?)
              && (typ == 2 ==> d.Word? && Signed(d.word) == v.i)
              && (typ == 65 || typ == 66 ==> d.Word? && d.word == v.u)
              && (typ == 67 ==> d.Word? && d.word == if v.Uint32? then v.u else (v.ns / 10_000_000) % 0x1_0000_0000)
              && (typ == 70 ==> d.Long? && d.long == v.w)
              && (typ == 64 ==> d == VB.Text(Address(v.octets)))
              && (typ == 4 || typ == 68 ==> d == VB.Text(v.octets))
              && (typ == 6 ==> d == VB.Ident(OI.ObjectIdentifier(0, 0, OidNamed(v))))
  {
    if v.Int32? {
      SignedWraps(v.i);
    } else if v.Str? || v.Bytes? || v.IP? {
      AddressIs(v.octets);
    }
  }

  lemma DataOctets(d: VB.Data, order: Order)
    requires VB.EncodeData(d, order).Ok?
    ensures var e := VB.EncodeData(d, order).value;
            && (d.Empty? ==> e == [])
            && (d.Word? ==> |e| == 4 && Word(e, 0, order == Big) == d.word)
            && (d.Long? ==> |e| == 8 && Long(e, 0, order == Big) == d.long)
            && (d.Text? && |d.text| < 0x1_0000_0000 ==> IsTextOctets(e, d.text, order == Big))
            && (d.Ident? ==> IsOidOctets(e, d.ident, order == Big))
  {
    match d
    case Empty =>
    case Word(w) => WordAlone(w, order);
    case Long(l) => PutLong(l, order);
    case Text(t) =>
      if |t| < 0x1_0000_0000 {
        TextOctets(t, order);
      }
    case Ident(o) => OidOctets(o, order);
  }

  lemma ValueOctets(typ: u16, v: VB.Value, order: Order)
    requires Writable(typ, v) && VB.DataOf(typ, v).Ok? && VB.EncodeData(VB.DataOf(typ, v).value, order).Ok?
    ensures Written(typ, v, VB.EncodeData(VB.DataOf(typ, v).value, order).value, order == Big)
  {
    DataFor(typ, v);
    DataOctets(VB.DataOf(typ, v).value, order);
  }

  lemma BindingPieces(typ: Octets, name: Octets, value: Octets)
    requires |typ| == 2
    ensures var e := typ + [0, 0] + name + value;
            && e == typ + ([0, 0] + name + value) && e[2] == 0 && e[3] == 0
            && e[4..4 + |name|] == name && e[4 + |name|..] == value
  {
  }

  lemma PutHalf(x: u16, rest: Octets, order: Order)
    ensures Half(Put(x, 2, order) + rest, 0, order == Big) == x
  {
    Get16Put(x, order, rest);
    Get16Is(Put(x, 2, order) + rest, order);
  }

  /** Section 5.4 as the library writes it: which bindings encode, and to which octets. */
  lemma BindingOctets(v: VB.Variable, order: Order)
    ensures VB.Encode(v, order).Ok? <==>
              && |v.name.subids| <= 128 && Writable(v.typ, v.value)
              && (v.typ == 6 ==> |OidNamed(v.value)| <= 128)
    ensures VB.Encode(v, order).Ok? ==>
              var e, n := VB.Encode(v, order).value, 4 + 4 * |v.name.subids|;
              && |e| >= 4 + n && Half(e, 0, order == Big) == v.typ && e[2] == 0 && e[3] == 0
              && IsOidOctets(e[4..4 + n], v.name, order == Big)
              && Written(v.typ, v.value, e[4 + n..], order == Big)
  {
    OidOctets(v.name, order);
    DataFor(v.typ, v.value);
    if Writable(v.typ, v.value) && v.typ == 6 {
      OidOctets(OI.ObjectIdentifier(0, 0, OidNamed(v.value)), order);
    }
    if VB.Encode(v, order).Ok? {
      BindingIs(v, order);
    }
  }

  lemma BindingIs(v: VB.Variable, order: Order)
    requires VB.Encode(v, order).Ok? && Writable(v.typ, v.value)
    ensures var e, n := VB.Encode(v, order).value, 4 + 4 * |v.name.subids|;
            && |e| >= 4 + n && Half(e, 0, order == Big) == v.typ && e[2] == 0 && e[3] == 0
            && IsOidOctets(e[4..4 + n], v.name, order == Big)
            && Written(v.typ, v.value, e[4 + n..], order == Big)
  {
    var name := OI.Encode(v.name, order).value;
    var value := VB.EncodeData(VB.DataOf(v.typ, v.value).value, order).value;
    OidOctets(v.name, order);
    ValueOctets(v.typ, v.value, order);
    BindingPieces(Put(v.typ, 2, order), name, value);
    PutHalf(v.typ, [0, 0] + name + value, order);
  }

  // -------------------------------------------------------------- payloads

  /** Section 6.2.16: the time, an error and an index in half a word each, and bindings. */
  lemma ResponseLayout(d: Octets, order: Order)
    requires |d| >= 8
    ensures match P.Decode(18, d, order)
            case Ok(p) =>
              && p.Response? && p.upTime == Word(d, 0, order == Big) * 10_000_000
              && p.error == Half(d, 4, order == Big) && p.index == Half(d, 6, order == Big)
              && VBL.Decode(d[8..], order) == Ok(p.variables)
            case Err => VBL.Decode(d[8..], order).Err?
  {
    Get32Is(d, order);
    HalfAt(d, 4, order);
    HalfAt(d, 6, order);
  }

  /** Section 6.1: which number stands for which PDU, of those that are read. */
  lemma TypeNumbers(typ: byte, d: Octets, order: Order)
    requires P.Decode(typ, d, order).Ok?
    ensures var p := P.Decode(typ, d, order).value;
            && (typ == 5 <==> p.Get?) && (typ == 6 <==> p.GetNext?) && (typ == 8 <==> p.TestSet?)
            && (typ == 9 <==> p.CommitSet?) && (typ == 10 <==> p.UndoSet?) && (typ == 11 <==> p.CleanupSet?)
            && (typ == 12 <==> p.Notify?) && (typ == 18 <==> p.Response?)
    ensures F.ExpectsResponse(typ) <==> typ != 11 && typ != 18
  {
  }

  /** Which payloads of each are accepted; those of types not implemented are not looked at. */
  lemma AcceptedPayloads(typ: byte, d: Octets, order: Order)
    ensures P.Decode(typ, d, order).Ok? <==>
              && (typ == 5 || typ == 6 ==> SR.DecodeList(d, order).Ok?)
              && (typ == 8 || typ == 12 ==> VBL.Decode(d, order).Ok?)
              && (typ == 9 || typ == 10 || typ == 11 ==> d == [])
              && (typ == 18 ==> |d| >= 8 && VBL.Decode(d[8..], order).Ok?)
    ensures P.Decode(typ, d, order).Ok? && typ != 5 && typ != 6 && !(8 <= typ <= 12) && typ != 18 ==>
              P.Decode(typ, d, order) == Ok(P.Unsupported(typ))
  {
  }

  /** And of those that are sent. */
  lemma SentNumbers(p: P.Packet)
    ensures P.TypeOf(p) == match p
                           case Open(_, _, _) => 1
                           case Close(_) => 2
                           case Register(_, _, _) => 3
                           case Unregister(_, _) => 4
                           case Get(_) => 5
                           case GetNext(_) => 6
                           case TestSet(_) => 8
                           case CommitSet => 9
                           case UndoSet => 10
                           case CleanupSet => 11
                           case Notify(_, _) => 12
                           case Response(_, _, _, _) => 18
                           case Unsupported(t) => t
  {
  }

  lemma HeadAndTail(head: Octets, a: Octets, b: Octets)
    requires |head| == 4
    ensures var e := head + a + b; e[..4] == head && e[4..4 + |a|] == a && e[4 + |a|..] == b
    ensures (head + a)[..4] == head && (head + a)[4..] == a
  {
  }

  /** Sections 6.2.1 to 6.2.4, as the library writes them: a timeout of at most 255 seconds, and so on. */
  lemma OpenOctets(timeout: i64, id: OI.ObjectIdentifier, description: Octets, order: Order)
    requires |description| < 0x1_0000_0000
    ensures P.EncodeOpen(timeout, id, description, order).Ok? <==>
              0 <= timeout <= 255_000_000_000 && |id.subids| <= 128
    ensures P.EncodeOpen(timeout, id, description, order).Ok? ==>
              var e, n := P.EncodeOpen(timeout, id, description, order).value, 4 + 4 * |id.subids|;
              && |e| >= 4 + n && e[..4] == [timeout / 1_000_000_000, 0, 0, 0]
              && IsOidOctets(e[4..4 + n], id, order == Big)
              && IsTextOctets(e[4 + n..], description, order == Big)
  {
    OidOctets(id, order);
    TextOctets(description, order);
    if 0 <= timeout <= 255_000_000_000 && |id.subids| <= 128 {
      HeadAndTail([timeout / 1_000_000_000, 0, 0, 0], OI.Encode(id, order).value, OS.Encode(description, order));
    }
  }

  lemma CloseOctets(reason: byte, order: Order)
    ensures P.Encode(P.Close(reason), order) == Ok([reason, 0, 0, 0])
  {
  }

  lemma RegisterOctets(timeout: i64, priority: byte, subtree: OI.ObjectIdentifier, order: Order)
    ensures P.EncodeRegister(timeout, priority, subtree, order).Ok? <==>
              0 <= timeout <= 255_000_000_000 && |subtree.subids| <= 128
    ensures P.EncodeRegister(timeout, priority, subtree, order).Ok? ==>
              var e := P.EncodeRegister(timeout, priority, subtree, order).value;
              && |e| >= 4 && e[..4] == [timeout / 1_000_000_000, priority, 0, 0]
              && IsOidOctets(e[4..], subtree, order == Big)
  {
    OidOctets(subtree, order);
    if 0 <= timeout <= 255_000_000_000 && |subtree.subids| <= 128 {
      HeadAndTail([timeout / 1_000_000_000, priority, 0, 0], OI.Encode(subtree, order).value, []);
    }
  }

  lemma UnregisterOctets(priority: byte, subtree: OI.ObjectIdentifier, order: Order)
    ensures P.EncodeUnregister(priority, subtree, order).Ok? <==> |subtree.subids| <= 128
    ensures P.EncodeUnregister(priority, subtree, order).Ok? ==>
              var e := P.EncodeUnregister(priority, subtree, order).value;
              && |e| >= 4 && e[..4] == [0, priority, 0, 0] && IsOidOctets(e[4..], subtree, order == Big)
  {
    OidOctets(subtree, order);
    if |subtree.subids| <= 128 {
      HeadAndTail([0, priority, 0, 0], OI.Encode(subtree, order).value, []);
    }
  }
}
