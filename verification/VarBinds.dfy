/** VarBind and VarBindList, section 5.4 of RFC 2741 (pdu/variable.go, pdu/variables.go). */
module VarBinds {
  import opened Wire
  import Oids
  import OI = ObjectIdentifiers
  import OS = OctetStrings

  const INTEGER: u16 := 2
  const OCTET_STRING: u16 := 4
  const NULL: u16 := 5
  const OBJECT_IDENTIFIER: u16 := 6
  const IP_ADDRESS: u16 := 64
  const COUNTER32: u16 := 65
  const GAUGE32: u16 := 66
  const TIME_TICKS: u16 := 67
  const VT_OPAQUE: u16 := 68
  const COUNTER64: u16 := 70
  const NO_SUCH_OBJECT: u16 := 128
  const NO_SUCH_INSTANCE: u16 := 129
  const END_OF_MIB_VIEW: u16 := 130

  /** One hundredth of a second, in nanoseconds. */
  const TICK := 10_000_000

  /** What a handler may put in `Variable.Value`, by dynamic type; `Other` is any type not named here. */
  datatype Value =
    | Nil
    | Int32(i: i32)
    | Uint32(u: u32)
    | Uint64(w: u64)
    | Duration(ns: i64)
    | Str(octets: Octets)
    | Bytes(octets: Octets)
    | IP(octets: Octets)
    | Oid(oid: Oids.OID)
    | Uint32s(oid: Oids.OID)
    | Other

  datatype Variable = Variable(typ: u16, name: OI.ObjectIdentifier, value: Value)

  /** The data that follows `v.name` on the wire. */
  datatype Data =
    | Empty
    | Word(word: u32)
    | Long(long: u64)
    | Text(text: Octets)
    | Ident(ident: OI.ObjectIdentifier)

  predicate NoData(typ: u16) {
    typ == NULL || typ == NO_SUCH_OBJECT || typ == NO_SUCH_INSTANCE || typ == END_OF_MIB_VIEW
  }

  predicate WordData(typ: u16) {
    typ == INTEGER || typ == COUNTER32 || typ == GAUGE32 || typ == TIME_TICKS
  }

  predicate TextData(typ: u16) {
    typ == OCTET_STRING || typ == VT_OPAQUE || typ == IP_ADDRESS
  }

  // -------------------------------------------------------------- encoding

  /** `net.IP.To4`: four octets, or sixteen holding an IPv4-mapped address. */
  function To4(ip: Octets): (v4: Result<Octets>)
    ensures v4.Ok? ==> |v4.value| == 4
  {
    if |ip| == 4 then Ok(ip)
    else if |ip| == 16 && ip[..12] == Zeros(10) + [0xff, 0xff] then Ok(ip[12..])
    else Err
  }

  /** The case analysis of `marshalValue` and its helpers: a value of the wrong dynamic type is an error. */
  function DataOf(typ: u16, v: Value): (r: Result<Data>) {
    if NoData(typ) then Ok(Empty)
    else if typ == INTEGER then (if v.Int32? then Ok(Word(ToUint32(v.i))) else Err)
    else if typ == COUNTER32 || typ == GAUGE32 then (if v.Uint32? then Ok(Word(v.u)) else Err)
    else if typ == COUNTER64 then (if v.Uint64? then Ok(Long(v.w)) else Err)
    else if typ == TIME_TICKS then
      (if v.Duration? && v.ns >= 0 then Ok(Word(ToUint32(v.ns / TICK)))
       else if v.Uint32? then Ok(Word(v.u)) else Err)
    else if typ == OCTET_STRING || typ == VT_OPAQUE then
      (if v.Str? || v.Bytes? then Ok(Text(v.octets)) else Err)
    else if typ == IP_ADDRESS then
      if v.IP? || v.Bytes? || v.Str? then
        var v4 :- To4(v.octets);
        Ok(Text(v4))
      else Err
    else if typ == OBJECT_IDENTIFIER then
      if v.Oid? || v.Uint32s? then Ok(Ident(OI.Plain(v.oid)))
      else if v.Str? then
        var oid :- Oids.Parse(v.octets);
        Ok(Ident(OI.Plain(oid)))
      else Err
    else Err
  }

  function EncodeData(d: Data, order: Order): (r: Result<Octets>)
    ensures r.Ok? ==> |r.value| == DataSize(d)
  {
    match d
    case Empty => Ok([])
    case Word(w) => Ok(Put(w, 4, order))
    case Long(l) => Ok(Put(l, 8, order))
    case Text(t) => Ok(OS.Encode(t, order))
    case Ident(o) => OI.Encode(o, order)
  }

  function DataSize(d: Data): (n: nat) {
    match d
    case Empty => 0
    case Word(_) => 4
    case Long(_) => 8
    case Text(t) => OS.ByteSize(|t|)
    case Ident(o) => o.ByteSize()
  }

  function Encode(v: Variable, order: Order): (r: Result<Octets>)
    ensures r.Ok? ==> DataOf(v.typ, v.value).Ok?
    ensures r.Ok? ==> |r.value| == 4 + v.name.ByteSize() + DataSize(DataOf(v.typ, v.value).value)
  {
    var nameBytes :- OI.Encode(v.name, order);
    var data :- DataOf(v.typ, v.value);
    var valueBytes :- EncodeData(data, order);
    Ok(Put(v.typ, 2, order) + [0, 0] + nameBytes + valueBytes)
  }

  // -------------------------------------------------------------- decoding

  function DecodeData(typ: u16, data: Octets, order: Order): (r: Result<Data>) {
    if NoData(typ) then Ok(Empty)
    else if WordData(typ) then (if |data| < 4 then Err else Ok(Word(Get32(data, order))))
    else if typ == COUNTER64 then (if |data| < 8 then Err else Ok(Long(Get64(data, order))))
    else if TextData(typ) then
      var text :- OS.Decode(data, order);
      Ok(Text(text))
    else if typ == OBJECT_IDENTIFIER then
      var ident :- OI.Decode(data, order);
      Ok(Ident(ident))
    else Err
  }

  /** The dynamic type the decoder gives each syntax. */
  function ValueOf(typ: u16, d: Data): (v: Value) {
    match d
    case Empty => Nil
    case Word(w) =>
      if typ == INTEGER then Int32(ToInt32(w))
      else if typ == TIME_TICKS then Duration(w * TICK)
      else Uint32(w)
    case Long(l) => Uint64(l)
    case Text(t) => if typ == OCTET_STRING then Str(t) else if typ == VT_OPAQUE then Bytes(t) else IP(t)
    case Ident(o) => Oid(o.GetIdentifier())
  }

  datatype Decoded = Decoded(variable: Variable, size: nat)

  /** One VarBind off the front of `data`, and the number of octets it takes. */
  function Decode(data: Octets, order: Order): (r: Result<Decoded>)
    ensures r.Ok? ==> r.value.size >= 8
  {
    if |data| < 4 then Err
    else
      var typ := Get16(data, order);
      var name :- OI.Decode(data[4..], order);
      var value :- DecodeData(typ, data[4..][name.ByteSize()..], order);
      Ok(Decoded(Variable(typ, name, ValueOf(typ, value)), 4 + name.ByteSize() + DataSize(value)))
  }

  // ------------------------------------------------------------ round trip

  /** The dynamic type of an encodable value fixes the shape of its data. */
  ghost predicate Shape(typ: u16, d: Data) {
    match d
    case Empty => NoData(typ)
    case Word(_) => WordData(typ)
    case Long(_) => typ == COUNTER64
    case Text(_) => TextData(typ)
    case Ident(_) => typ == OBJECT_IDENTIFIER
  }

  ghost predicate ShortText(d: Data) {
    d.Text? ==> |d.text| < OS.LIMIT
  }

  /** What comes back of the data: a text is cut to what its length field says. */
  function Truncated(d: Data): (r: Result<Data>) {
    if d.Text? then
      var text :- OS.Truncated(d.text);
      Ok(Text(text))
    else Ok(d)
  }

  lemma TruncatedIsWhole(d: Data)
    ensures Truncated(d) == Ok(d) <==> ShortText(d)
  {
    if d.Text? {
      OS.TruncatedIsWhole(d.text);
    }
  }

  lemma DataRoundTrip(typ: u16, d: Data, rest: Octets, order: Order)
    requires Shape(typ, d) && EncodeData(d, order).Ok?
    ensures DecodeData(typ, EncodeData(d, order).value + rest, order) == Truncated(d)
  {
    match d
    case Empty =>
    case Word(w) => Get32Put(w, order, rest);
    case Long(l) => Get64Put(l, order, rest);
    case Text(t) => OS.DecodeEncode(t, rest, order);
    case Ident(o) => OI.RoundTrip(o, rest, order);
  }

  /**
   * The form in which an encodable binding comes back: TimeTicks as whole ticks modulo 2^32,
   * IpAddress as four octets, an OID given as text as that OID, and text of the decoder's kind.
   */
  function Normal(v: Variable): (n: Variable) {
    match DataOf(v.typ, v.value)
    case Ok(d) => v.(value := ValueOf(v.typ, d))
    case Err => v
  }

  /** A caller's check: the text ends, four octets on, at a 32-bit number. */
  ghost predicate Representable(v: Variable) {
    (v.typ == OCTET_STRING || v.typ == VT_OPAQUE) && (v.value.Str? || v.value.Bytes?) ==> |v.value.octets| < OS.LIMIT
  }

  ghost predicate DecodesTo(data: Octets, order: Order, v: Variable) {
    match Decode(data, order)
    case Ok(d) => d.variable == v
    case Err => false
  }

  lemma DataShape(v: Variable)
    requires DataOf(v.typ, v.value).Ok?
    ensures Shape(v.typ, DataOf(v.typ, v.value).value)
    ensures ShortText(DataOf(v.typ, v.value).value) <==> Representable(v)
  {
  }

  lemma DecodeByParts(data: Octets, tail: Octets, order: Order, typ: u16, name: OI.ObjectIdentifier)
    requires |data| >= 4
    requires Get16(data, order) == typ
    requires OI.Decode(data[4..], order) == Ok(name)
    requires data[4..][name.ByteSize()..] == tail
    ensures Decode(data, order)
         == match DecodeData(typ, tail, order)
            case Ok(d) => Ok(Decoded(Variable(typ, name, ValueOf(typ, d)), 4 + name.ByteSize() + DataSize(d)))
            case Err => Err
  {
  }

  lemma TextDecides(typ: u16, d: Data, e: Data)
    requires d.Text? && d != e && Shape(typ, d) && Shape(typ, e)
    ensures ValueOf(typ, d) != ValueOf(typ, e)
  {
  }

  lemma DecodeDataShape(typ: u16, data: Octets, order: Order)
    ensures var r := DecodeData(typ, data, order); r.Ok? ==> Shape(typ, r.value) && ShortText(r.value)
  {
  }

  lemma Slices(typ: Octets, name: Octets, value: Octets, rest: Octets)
    requires |typ| == 2
    ensures var data := typ + [0, 0] + name + value + rest;
            && data == typ + ([0, 0] + name + value + rest)
            && data[4..] == name + (value + rest)
            && data[4..][|name|..] == value + rest
  {
  }

  lemma EncodeParts(v: Variable, rest: Octets, order: Order)
    requires Encode(v, order).Ok?
    ensures var data := Encode(v, order).value + rest;
            && Get16(data, order) == v.typ
            && OI.Decode(data[4..], order) == Ok(v.name)
            && data[4..][v.name.ByteSize()..] == EncodeData(DataOf(v.typ, v.value).value, order).value + rest
  {
    var nameBytes := OI.Encode(v.name, order).value;
    var valueBytes := EncodeData(DataOf(v.typ, v.value).value, order).value;
    Slices(Put(v.typ, 2, order), nameBytes, valueBytes, rest);
    Get16Put(v.typ, order, [0, 0] + nameBytes + valueBytes + rest);
    OI.RoundTrip(v.name, valueBytes + rest, order);
  }

  /**
   * What an encoded binding decodes to, whatever follows: its name and type, the value its data
   * stands for, a text being cut to what its length field says, and the size of that.
   */
  lemma DecodeEncode(v: Variable, rest: Octets, order: Order)
    requires Encode(v, order).Ok?
    ensures Decode(Encode(v, order).value + rest, order)
         == match Truncated(DataOf(v.typ, v.value).value)
            case Ok(d) => Ok(Decoded(v.(value := ValueOf(v.typ, d)), 4 + v.name.ByteSize() + DataSize(d)))
            case Err => Err
  {
    var d := DataOf(v.typ, v.value).value;
    EncodeParts(v, rest, order);
    DataShape(v);
    DataRoundTrip(v.typ, d, rest, order);
    DecodeByParts(Encode(v, order).value + rest, EncodeData(d, order).value + rest, order, v.typ, v.name);
  }

  /**
   * In either byte order, decoding the encoding of a binding gives its normal form and takes
   * exactly the octets written, whatever follows them.
   */
  lemma RoundTrip(v: Variable, rest: Octets, order: Order)
    requires Encode(v, order).Ok? && Representable(v)
    ensures Decode(Encode(v, order).value + rest, order) == Ok(Decoded(Normal(v), |Encode(v, order).value|))
  {
    DecodeEncode(v, rest, order);
    DataShape(v);
    TruncatedIsWhole(DataOf(v.typ, v.value).value);
    var r := Decode(Encode(v, order).value + rest, order);
    assert r.value.variable == Normal(v);
    assert r.value.size == |Encode(v, order).value|;
  }

  /** A text too long for that never comes back. */
  lemma RoundTripFails(v: Variable, rest: Octets, order: Order)
    requires Encode(v, order).Ok? && !Representable(v)
    ensures !DecodesTo(Encode(v, order).value + rest, order, Normal(v))
  {
    var d := DataOf(v.typ, v.value).value;
    DecodeEncode(v, rest, order);
    DataShape(v);
    TruncatedIsWhole(d);
    if Truncated(d).Ok? {
      TextDecides(v.typ, d, Truncated(d).value);
    }
  }

  /** Normalising first does not change what is written, in either byte order. */
  lemma EncodeNormal(v: Variable, order: Order)
    ensures Encode(Normal(v), order) == Encode(v, order)
  {
    if DataOf(v.typ, v.value).Ok? {
      NormalKeepsData(v);
    }
  }

  lemma NormalKeepsData(v: Variable)
    requires DataOf(v.typ, v.value).Ok?
    ensures DataOf(v.typ, Normal(v).value) == DataOf(v.typ, v.value)
  {
    var d := DataOf(v.typ, v.value).value;
    match d
    case Empty =>
    case Word(w) => assert ToUint32(w * TICK / TICK) == w;
    case Long(l) =>
    case Text(t) =>
    case Ident(o) => assert OI.Plain(o.GetIdentifier()) == o;
  }

  /** The one thing encoding changes about a decoded binding: an IPv4-mapped address loses its prefix. */
  function Unmapped(v: Variable): (u: Variable) {
    if v.typ == IP_ADDRESS && v.value.IP? && |v.value.octets| == 16 && To4(v.value.octets).Ok?
    then v.(value := IP(To4(v.value.octets).value))
    else v
  }

  lemma DecodedIsNormal(typ: u16, name: OI.ObjectIdentifier, d: Data)
    requires Shape(typ, d) && ShortText(d)
    ensures var v := Variable(typ, name, ValueOf(typ, d));
            && Representable(v)
            && (DataOf(v.typ, v.value).Ok? ==> Normal(v) == Unmapped(v))
  {
    match d
    case Empty =>
    case Word(w) => assert ToUint32(w * TICK / TICK) == w;
    case Long(l) =>
    case Text(t) =>
    case Ident(o) =>
  }

  lemma DecodeGivesNormal(data: Octets, order: Order)
    requires Decode(data, order).Ok?
    ensures var v := Decode(data, order).value.variable;
            && Representable(v)
            && (DataOf(v.typ, v.value).Ok? ==> Normal(v) == Unmapped(v))
  {
    var typ := Get16(data, order);
    var name := OI.Decode(data[4..], order).value;
    var tail := data[4..][name.ByteSize()..];
    DecodeDataShape(typ, tail, order);
    DecodedIsNormal(typ, name, DecodeData(typ, tail, order).value);
  }

  lemma DataFitsAligned(typ: u16, data: Octets, order: Order, words: nat)
    requires |data| == 4 * words
    requires DecodeData(typ, data, order).Ok?
    ensures DataSize(DecodeData(typ, data, order).value) <= 4 * words
  {
    if TextData(typ) {
      WordsAlign(|data|, words);
      OS.DecodeWithinAligned(data, order);
    }
  }

  lemma DataWords(d: Data) returns (k: nat)
    ensures DataSize(d) == 4 * k
  {
    match d
    case Empty => k := 0;
    case Word(_) => k := 1;
    case Long(_) => k := 2;
    case Text(t) =>
      OS.PaddingAligns(|t|);
      k := 1 + (|t| + OS.Padding(|t|)) / 4;
    case Ident(o) => k := 1 + |o.subids|;
  }

  lemma SizeOf(data: Octets, order: Order, typ: u16, name: OI.ObjectIdentifier, d: Data)
    requires |data| >= 4 && Get16(data, order) == typ && OI.Decode(data[4..], order) == Ok(name)
    requires DecodeData(typ, data[4..][name.ByteSize()..], order) == Ok(d)
    ensures Decode(data, order).Ok?
    ensures Decode(data, order).value.size == 4 + name.ByteSize() + DataSize(d)
  {
  }

  /** On aligned data a binding never takes octets that are not there, although padding is not looked for. */
  lemma DecodeWithinAligned(data: Octets, order: Order, words: nat) returns (k: nat)
    requires |data| == 4 * words
    requires Decode(data, order).Ok?
    ensures Decode(data, order).value.size == 4 * k
    ensures k <= words
  {
    var typ := Get16(data, order);
    var name := OI.Decode(data[4..], order).value;
    var tail := data[4..][name.ByteSize()..];
    var left := words - 2 - |name.subids|;
    DataFitsAligned(typ, tail, order, left);
    var d := DecodeData(typ, tail, order).value;
    var dataWords := DataWords(d);
    SizeOf(data, order, typ, name, d);
    k := dataWords + 2 + |name.subids|;
  }

  lemma EncodeAligned(v: Variable, order: Order) returns (k: nat)
    requires Encode(v, order).Ok?
    ensures |Encode(v, order).value| == 4 * k
  {
    k := DataWords(DataOf(v.typ, v.value).value);
    k := k + 2 + |v.name.subids|;
  }

  lemma KnownType(typ: u16, v: Value)
    requires DataOf(typ, v).Ok?
    ensures 0 < typ < 256
    ensures forall data, order :: DecodeData(typ * 256, data, order) == Err
  {
  }

  lemma SwappedType(typ: u16, rest: Octets)
    requires 0 < typ < 256
    ensures Get16(Put(typ, 2, Little) + rest, Big) == typ * 256
  {
    var s := Put(typ, 2, Little);
    assert s == [typ % 256] + Put(typ / 256, 1, Little);
    assert Put(typ / 256, 1, Little) == [0] + Put(0, 0, Little);
    assert (s + rest)[..2] == [typ, 0];
    assert [typ, 0][..1] == [typ];
    assert Get([typ], Big) == typ + 256 * Get([], Big);
  }

  /** Every syntax has a type below 256, so a binding read in the wrong order never parses. */
  lemma WrongOrder(v: Variable, rest: Octets)
    requires Encode(v, Little).Ok?
    ensures Decode(Encode(v, Little).value + rest, Big).Err?
  {
    var nameBytes := OI.Encode(v.name, Little).value;
    var valueBytes := EncodeData(DataOf(v.typ, v.value).value, Little).value;
    Slices(Put(v.typ, 2, Little), nameBytes, valueBytes, rest);
    KnownType(v.typ, v.value);
    SwappedType(v.typ, [0, 0] + nameBytes + valueBytes + rest);
  }

  // ---------------------------------------------------------------- panics

  /** The decoder of the binding's text panics; no other part of the decoder can. */
  predicate Panics(data: Octets, order: Order) {
    && |data| >= 4 && TextData(Get16(data, order))
    && match OI.Decode(data[4..], order)
       case Ok(name) => OS.Panics(data[4..][name.ByteSize()..], order)
       case Err => false
  }

  lemma NeverPanics(data: Octets, order: Order)
    requires |data| < TWO32
    ensures !Panics(data, order)
  {
    if |data| >= 4 && OI.Decode(data[4..], order).Ok? {
      OS.NeverPanics(data[4..][OI.Decode(data[4..], order).value.ByteSize()..], order);
    }
  }

  /** An encoded binding makes the decoder panic exactly when its length field is one of the last four numbers. */
  lemma EncodedPanics(v: Variable, rest: Octets, order: Order)
    requires Encode(v, order).Ok?
    ensures Panics(Encode(v, order).value + rest, order) <==> Truncated(DataOf(v.typ, v.value).value).Err?
  {
    var d := DataOf(v.typ, v.value).value;
    EncodeParts(v, rest, order);
    DataShape(v);
    if d.Text? {
      OS.DecodeEncode(d.text, rest, order);
    }
  }
}
