/** PDU payloads: pdu/response.go, pdu/notify.go and the packet types around them. */
module Packets {
  import opened Wire
  import Oids
  import OI = ObjectIdentifiers
  import OS = OctetStrings
  import SR = SearchRanges
  import VB = VarBinds
  import VBL = VarBindLists

  const OPEN: byte := 1
  const CLOSE: byte := 2
  const REGISTER: byte := 3
  const UNREGISTER: byte := 4
  const GET: byte := 5
  const GET_NEXT: byte := 6
  const TEST_SET: byte := 8
  const COMMIT_SET: byte := 9
  const UNDO_SET: byte := 10
  const CLEANUP_SET: byte := 11
  const NOTIFY: byte := 12
  const RESPONSE: byte := 18

  const SECOND := 1_000_000_000
  const MAX_TIMEOUT := 255 * SECOND

  datatype Packet =
    | Open(timeout: i64, id: OI.ObjectIdentifier, description: Octets)
    | Close(reason: byte)
    | Register(timeout: i64, priority: byte, subtree: OI.ObjectIdentifier)
    | Unregister(priority: byte, subtree: OI.ObjectIdentifier)
    | Get(ranges: seq<SR.Range>)
    | GetNext(ranges: seq<SR.Range>)
    | TestSet(variables: seq<VB.Variable>)
    | CommitSet
    | UndoSet
    | CleanupSet
    | Notify(timestamp: i64, variables: seq<VB.Variable>)
    | Response(upTime: i64, error: u16, index: u16, variables: seq<VB.Variable>)
    | Unsupported(packetType: byte)

  function TypeOf(p: Packet): (t: byte) {
    match p
    case Open(_, _, _) => OPEN
    case Close(_) => CLOSE
    case Register(_, _, _) => REGISTER
    case Unregister(_, _) => UNREGISTER
    case Get(_) => GET
    case GetNext(_) => GET_NEXT
    case TestSet(_) => TEST_SET
    case CommitSet => COMMIT_SET
    case UndoSet => UNDO_SET
    case CleanupSet => CLEANUP_SET
    case Notify(_, _) => NOTIFY
    case Response(_, _, _, _) => RESPONSE
    case Unsupported(t) => t
  }

  // ---------------------------------------------------------- notifications

  /** sysUpTime.0 */
  function SysUpTime(): (oid: Oids.OID) {
    [1, 3, 6, 1, 2, 1, 1, 3, 0]
  }

  /** snmpTrapOID.0 */
  function SnmpTrapOID(): (oid: Oids.OID) {
    [1, 3, 6, 1, 6, 3, 1, 1, 4, 1, 0]
  }

  /** The code asks whether `CompareOIDs` gives 0; see `CompareDecides`. */
  predicate Names(v: VB.Variable, oid: Oids.OID) {
    v.name.GetIdentifier() == oid
  }

  lemma CompareDecides(v: VB.Variable, oid: Oids.OID)
    ensures Oids.Cmp(v.name.GetIdentifier(), oid) == 0 <==> Names(v, oid)
  {
    Oids.CmpAntisymmetric(v.name.GetIdentifier(), oid);
  }

  predicate HasSysUpTime(vs: seq<VB.Variable>) {
    |vs| > 0 && Names(vs[0], SysUpTime())
  }

  /** The list as it goes on the wire, with sysUpTime.0 made from the timestamp when needed. */
  function VarBindList(timestamp: i64, vs: seq<VB.Variable>): (list: seq<VB.Variable>) {
    if timestamp == 0 || HasSysUpTime(vs) then vs
    else [VB.Variable(VB.TIME_TICKS, OI.Plain(SysUpTime()), VB.Duration(timestamp))] + vs
  }

  predicate ValidNotify(vs: seq<VB.Variable>) {
    var trapOIDIndex := if HasSysUpTime(vs) then 1 else 0;
    |vs| > trapOIDIndex && Names(vs[trapOIDIndex], SnmpTrapOID())
  }

  /** Section 6.2.10 of RFC 2741: snmpTrapOID.0 first, or second after sysUpTime.0. */
  ghost predicate NotifyShape(vs: seq<VB.Variable>) {
    || (|vs| >= 1 && Names(vs[0], SnmpTrapOID()))
    || (|vs| >= 2 && Names(vs[0], SysUpTime()) && Names(vs[1], SnmpTrapOID()))
  }

  lemma ValidNotifyIsShape(vs: seq<VB.Variable>)
    ensures ValidNotify(vs) <==> NotifyShape(vs)
  {
    assert |SysUpTime()| != |SnmpTrapOID()|;
  }

  /** The timestamp a decoded list gives. */
  function TimestampOf(vs: seq<VB.Variable>): (timestamp: i64) {
    if HasSysUpTime(vs) && vs[0].value.Duration? then vs[0].value.ns else 0
  }

  // ------------------------------------------------------------- payloads

  function Ticks(d: i64): (t: u32) {
    ToUint32(TruncDiv(d, VB.TICK))
  }

  function EncodeOpen(timeout: i64, id: OI.ObjectIdentifier, description: Octets, order: Order): (r: Result<Octets>) {
    if timeout < 0 || timeout > MAX_TIMEOUT then Err
    else
      var idBytes :- OI.Encode(id, order);
      Ok([timeout / SECOND, 0, 0, 0] + idBytes + OS.Encode(description, order))
  }

  function EncodeRegister(timeout: i64, priority: byte, subtree: OI.ObjectIdentifier, order: Order)
    : (r: Result<Octets>)
  {
    if timeout < 0 || timeout > MAX_TIMEOUT then Err
    else
      var subtreeBytes :- OI.Encode(subtree, order);
      Ok([timeout / SECOND, priority, 0, 0] + subtreeBytes)
  }

  function EncodeUnregister(priority: byte, subtree: OI.ObjectIdentifier, order: Order): (r: Result<Octets>) {
    var subtreeBytes :- OI.Encode(subtree, order);
    Ok([0, priority, 0, 0] + subtreeBytes)
  }

  function EncodeNotify(timestamp: i64, vs: seq<VB.Variable>, order: Order): (r: Result<Octets>) {
    var list := VarBindList(timestamp, vs);
    if ValidNotify(list) then VBL.Encode(list, order) else Err
  }

  function EncodeResponse(upTime: i64, error: u16, index: u16, vs: seq<VB.Variable>, order: Order)
    : (r: Result<Octets>)
  {
    var vBytes :- VBL.Encode(vs, order);
    Ok(Put(Ticks(upTime), 4, order) + (Put(error, 2, order) + (Put(index, 2, order) + vBytes)))
  }

  /** The payload in a given order; the library itself always writes `Little`. */
  function Encode(p: Packet, order: Order): (r: Result<Octets>) {
    match p
    case Open(timeout, id, description) => EncodeOpen(timeout, id, description, order)
    case Close(reason) => Ok([reason, 0, 0, 0])
    case Register(timeout, priority, subtree) => EncodeRegister(timeout, priority, subtree, order)
    case Unregister(priority, subtree) => EncodeUnregister(priority, subtree, order)
    case Get(ranges) => SR.EncodeList(ranges, order)
    case GetNext(ranges) => SR.EncodeList(ranges, order)
    case TestSet(vs) => VBL.Encode(vs, order)
    case CommitSet => Ok([])
    case UndoSet => Ok([])
    case CleanupSet => Ok([])
    case Notify(timestamp, vs) => EncodeNotify(timestamp, vs, order)
    case Response(upTime, error, index, vs) => EncodeResponse(upTime, error, index, vs, order)
    case Unsupported(_) => Ok([])
  }

  function DecodeResponse(data: Octets, order: Order): (r: Result<Packet>) {
    if |data| < 8 then Err
    else
      var vs :- VBL.Decode(data[8..], order);
      Ok(Response(Get32(data, order) * VB.TICK, Get16(data[4..], order), Get16(data[6..], order), vs))
  }

  function NotifyOf(vs: seq<VB.Variable>): (p: Packet) {
    Notify(TimestampOf(vs), vs)
  }

  function DecodeNotify(data: Octets, order: Order): (r: Result<Packet>) {
    var vs :- VBL.Decode(data, order);
    Ok(NotifyOf(vs))
  }

  /** `packetForType` and the decoder of the packet it gives. */
  function Decode(typ: byte, data: Octets, order: Order): (r: Result<Packet>) {
    if typ == RESPONSE then DecodeResponse(data, order)
    else if typ == GET then
      var ranges :- SR.DecodeList(data, order);
      Ok(Get(ranges))
    else if typ == GET_NEXT then
      var ranges :- SR.DecodeList(data, order);
      Ok(GetNext(ranges))
    else if typ == TEST_SET then
      var vs :- VBL.Decode(data, order);
      Ok(TestSet(vs))
    else if typ == COMMIT_SET then (if data == [] then Ok(CommitSet) else Err)
    else if typ == UNDO_SET then (if data == [] then Ok(UndoSet) else Err)
    else if typ == CLEANUP_SET then (if data == [] then Ok(CleanupSet) else Err)
    else if typ == NOTIFY then DecodeNotify(data, order)
    else Ok(Unsupported(typ))
  }

  lemma DecodeKeepsType(typ: byte, data: Octets, order: Order)
    requires Decode(typ, data, order).Ok?
    ensures TypeOf(Decode(typ, data, order).value) == typ
  {
  }

  // ----------------------------------------------------------- round trips

  /** The packets the reader gets from a master agent. */
  predicate Readable(p: Packet) {
    p.Get? || p.GetNext? || p.TestSet? || p.CommitSet? || p.UndoSet? || p.CleanupSet? || p.Response?
  }

  function ListOf(p: Packet): (vs: seq<VB.Variable>) {
    match p
    case TestSet(vs) => vs
    case Response(_, _, _, vs) => vs
    case _ => []
  }

  /** How a packet comes back: its bindings or ranges in normal form, its times in whole ticks. */
  function Normal(p: Packet): (n: Packet) {
    match p
    case Get(ranges) => Get(SR.NormalList(ranges))
    case GetNext(ranges) => GetNext(SR.NormalList(ranges))
    case TestSet(vs) => TestSet(VBL.Normal(vs))
    case Response(upTime, error, index, vs) => Response(Ticks(upTime) * VB.TICK, error, index, VBL.Normal(vs))
    case _ => p
  }

  lemma ResponseLayout(a: Octets, b: Octets, c: Octets, rest: Octets)
    requires |a| == 4 && |b| == 2 && |c| == 2
    ensures var data := a + (b + (c + rest)); data[4..] == b + (c + rest) && data[6..] == c + rest && data[8..] == rest
  {
  }

  lemma ResponseRoundTrip(upTime: u32, error: u16, index: u16, vBytes: Octets, order: Order)
    ensures var data := Put(upTime, 4, order) + (Put(error, 2, order) + (Put(index, 2, order) + vBytes));
            && Get32(data, order) == upTime && Get16(data[4..], order) == error
            && Get16(data[6..], order) == index && data[8..] == vBytes
  {
    var a, b, c := Put(upTime, 4, order), Put(error, 2, order), Put(index, 2, order);
    ResponseLayout(a, b, c, vBytes);
    Get32Put(upTime, order, b + (c + vBytes));
    Get16Put(error, order, c + vBytes);
    Get16Put(index, order, vBytes);
  }

  lemma EncodableList(p: Packet, order: Order)
    requires Encode(p, order).Ok?
    ensures VBL.Encode(ListOf(p), order).Ok?
  {
  }

  lemma ResponseBack(upTime: i64, error: u16, index: u16, vs: seq<VB.Variable>, order: Order)
    requires EncodeResponse(upTime, error, index, vs, order).Ok?
    ensures VBL.Representable(vs) <==>
              DecodeResponse(EncodeResponse(upTime, error, index, vs, order).value, order)
              == Ok(Response(Ticks(upTime) * VB.TICK, error, index, VBL.Normal(vs)))
  {
    VBL.RoundTrip(vs, order);
    ResponseRoundTrip(Ticks(upTime), error, index, VBL.Encode(vs, order).value, order);
  }

  lemma NotifyBack(timestamp: i64, vs: seq<VB.Variable>, order: Order)
    requires EncodeNotify(timestamp, vs, order).Ok?
    ensures DecodeNotify(EncodeNotify(timestamp, vs, order).value, order)
            == Ok(NotifyOf(VBL.Normal(VarBindList(timestamp, vs))))
            <==> VBL.Representable(VarBindList(timestamp, vs))
  {
    VBL.RoundTrip(VarBindList(timestamp, vs), order);
  }

  ghost predicate ComesBack(p: Packet, order: Order)
    requires Encode(p, order).Ok?
  {
    Decode(TypeOf(p), Encode(p, order).value, order) == Ok(Normal(p))
  }

  lemma EncodeOfResponse(p: Packet, order: Order)
    requires p.Response?
    ensures Encode(p, order) == EncodeResponse(p.upTime, p.error, p.index, p.variables, order)
    ensures Normal(p) == Response(Ticks(p.upTime) * VB.TICK, p.error, p.index, VBL.Normal(p.variables))
  {
  }

  lemma DecodeOfResponse(data: Octets, order: Order)
    ensures Decode(RESPONSE, data, order) == DecodeResponse(data, order)
  {
  }

  lemma ResponseComesBack(p: Packet, order: Order)
    requires p.Response? && Encode(p, order).Ok?
    ensures ComesBack(p, order) <==> VBL.Representable(p.variables)
  {
    EncodeOfResponse(p, order);
    DecodeOfResponse(Encode(p, order).value, order);
    ResponseBack(p.upTime, p.error, p.index, p.variables, order);
  }

  lemma TestSetComesBack(p: Packet, order: Order)
    requires p.TestSet? && Encode(p, order).Ok?
    ensures ComesBack(p, order) <==> VBL.Representable(p.variables)
  {
    VBL.RoundTrip(p.variables, order);
  }

  lemma RangesComeBack(p: Packet, order: Order)
    requires (p.Get? || p.GetNext?) && Encode(p, order).Ok?
    ensures ComesBack(p, order)
  {
    SR.ListRoundTrip(p.ranges, order);
  }

  lemma EmptyComesBack(p: Packet, order: Order)
    requires p.CommitSet? || p.UndoSet? || p.CleanupSet?
    ensures ComesBack(p, order)
  {
  }

  /**
   * A payload that encodes comes back in normal form, in either byte order, exactly when every text
   * in its bindings ends, four octets on, at a 32-bit number.
   */
  lemma RoundTrip(p: Packet, order: Order)
    requires Readable(p) && Encode(p, order).Ok?
    ensures ComesBack(p, order) <==> VBL.Representable(ListOf(p))
  {
    if p.Response? {
      ResponseComesBack(p, order);
    } else if p.TestSet? {
      TestSetComesBack(p, order);
    } else if p.Get? || p.GetNext? {
      RangesComeBack(p, order);
    } else {
      EmptyComesBack(p, order);
    }
  }

  // ------------------------------------------------------- the wrong order

  /** What a little-endian payload is read as in big-endian order, if it parses at all. */
  function Swapped(p: Packet): (r: Result<Packet>) {
    match p
    case Get(ranges) => Ok(Get(SR.SwapList(ranges)))
    case GetNext(ranges) => Ok(GetNext(SR.SwapList(ranges)))
    case TestSet(vs) => if vs == [] then Ok(p) else Err
    case Response(upTime, error, index, vs) =>
      if vs == [] then Ok(Response(Swap32(Ticks(upTime)) * VB.TICK, Swap16(error), Swap16(index), [])) else Err
    case _ => Ok(p)
  }

  /** Nothing in the payload depends on the byte order: a caller's check. */
  ghost predicate OrderFree(p: Packet) {
    match p
    case Get(ranges) => forall i :: 0 <= i < |ranges| ==> SR.Symmetric(ranges[i])
    case GetNext(ranges) => forall i :: 0 <= i < |ranges| ==> SR.Symmetric(ranges[i])
    case TestSet(vs) => vs == []
    case Response(upTime, error, index, vs) =>
      vs == [] && Symmetric(Ticks(upTime), 4) && Symmetric(error, 2) && Symmetric(index, 2)
    case _ => true
  }

  lemma ResponseSwapped(upTime: u32, error: u16, index: u16, vBytes: Octets)
    ensures var data := Put(upTime, 4, Little) + (Put(error, 2, Little) + (Put(index, 2, Little) + vBytes));
            && Get32(data, Big) == Swap32(upTime) && Get16(data[4..], Big) == Swap16(error)
            && Get16(data[6..], Big) == Swap16(index) && data[8..] == vBytes
  {
    var a, b, c := Put(upTime, 4, Little), Put(error, 2, Little), Put(index, 2, Little);
    ResponseLayout(a, b, c, vBytes);
    Get32Swapped(upTime, b + (c + vBytes));
    Get16Swapped(error, c + vBytes);
    Get16Swapped(index, vBytes);
  }

  lemma ListWrongOrder(vs: seq<VB.Variable>)
    requires VBL.Encode(vs, Little).Ok?
    ensures VBL.Decode(VBL.Encode(vs, Little).value, Big) == if vs == [] then Ok([]) else Err
  {
    VBL.WrongOrder(vs);
  }

  lemma ResponseWrongOrder(p: Packet, payload: Octets)
    requires p.Response? && Encode(p, Little) == Ok(payload)
    ensures DecodeResponse(payload, Big) == Swapped(p)
  {
    ListWrongOrder(p.variables);
    ResponseSwapped(Ticks(p.upTime), p.error, p.index, VBL.Encode(p.variables, Little).value);
  }

  /** How the library's payloads read in the wrong order, for every kind that is read. */
  lemma WrongOrder(p: Packet, payload: Octets)
    requires Readable(p) && Encode(p, Little) == Ok(payload)
    ensures Decode(TypeOf(p), payload, Big) == Swapped(p)
  {
    if p.Response? {
      DecodeOfResponse(payload, Big);
      ResponseWrongOrder(p, payload);
    } else if p.TestSet? {
      ListWrongOrder(p.variables);
    } else if p.Get? || p.GetNext? {
      SR.ListWrongOrder(p.ranges);
    }
  }

  lemma TicksFix(t: u32, u: u32)
    ensures t * VB.TICK == u * VB.TICK <==> t == u
  {
  }

  /** They read right exactly when nothing in them depends on the order. */
  lemma SwappedIsNormal(p: Packet)
    requires Readable(p)
    ensures Swapped(p) == Ok(Normal(p)) <==> OrderFree(p)
  {
    if p.Get? || p.GetNext? {
      SR.SwapFixes(p.ranges);
    } else if p.Response? {
      Swap32Fixes(Ticks(p.upTime));
      Swap16Fixes(p.error);
      Swap16Fixes(p.index);
      TicksFix(Swap32(Ticks(p.upTime)), Ticks(p.upTime));
    }
  }

  lemma TimestampIsInList(list: seq<VB.Variable>)
    ensures VarBindList(TimestampOf(list), list) == list
  {
  }

  lemma NormalKeepsShape(list: seq<VB.Variable>)
    ensures NotifyShape(VBL.Normal(list)) <==> NotifyShape(list)
  {
  }

  lemma ReencodeNotify(list: seq<VB.Variable>, order: Order)
    requires NotifyShape(list)
    ensures EncodeNotify(TimestampOf(list), list, order) == VBL.Encode(list, order)
  {
    TimestampIsInList(list);
    ValidNotifyIsShape(list);
  }

  /**
   * A notification that encodes has the shape section 6.2.10 of RFC 2741 asks for, and so has its
   * normal form, which encodes to the same octets, whatever the timestamp. The normal form is what
   * comes back exactly when every text ends, four octets on, at a 32-bit number.
   */
  lemma NotifyNormalForm(timestamp: i64, vs: seq<VB.Variable>, order: Order)
    requires EncodeNotify(timestamp, vs, order).Ok?
    ensures var list := VarBindList(timestamp, vs);
            var back := VBL.Normal(list);
            var data := EncodeNotify(timestamp, vs, order).value;
            && NotifyShape(list) && NotifyShape(back)
            && EncodeNotify(TimestampOf(back), back, order) == Ok(data)
            && (DecodeNotify(data, order) == Ok(Notify(TimestampOf(back), back)) <==> VBL.Representable(list))
  {
    var list := VarBindList(timestamp, vs);
    ValidNotifyIsShape(list);
    NotifyBack(timestamp, vs, order);
    var back := VBL.Normal(list);
    NormalKeepsShape(list);
    ReencodeNotify(back, order);
    VBL.EncodeNormal(list, order);
  }

  /** Which lists are accepted, number by number: snmpTrapOID.0 first, or second after sysUpTime.0. */
  lemma AcceptedNotify(vs: seq<VB.Variable>)
    ensures ValidNotify(vs) <==>
              || (|vs| >= 1 && vs[0].name.GetIdentifier() == [1, 3, 6, 1, 6, 3, 1, 1, 4, 1, 0])
              || (|vs| >= 2 && vs[0].name.GetIdentifier() == [1, 3, 6, 1, 2, 1, 1, 3, 0]
                  && vs[1].name.GetIdentifier() == [1, 3, 6, 1, 6, 3, 1, 1, 4, 1, 0])
  {
    ValidNotifyIsShape(vs);
  }

  /** The binding that conveys a timestamp, as it comes back: sysUpTime.0 in whole ticks modulo 2^32. */
  function Stamp(timestamp: nat): (v: VB.Variable) {
    VB.Variable(67, OI.ObjectIdentifier(0, 0, [1, 3, 6, 1, 2, 1, 1, 3, 0]),
                VB.Duration(timestamp / 10_000_000 % 0x1_0000_0000 * 10_000_000))
  }

  predicate Conveyed(timestamp: i64, vs: seq<VB.Variable>) {
    timestamp != 0 && (vs == [] || vs[0].name.GetIdentifier() != [1, 3, 6, 1, 2, 1, 1, 3, 0])
  }

  lemma StampIsNormal(timestamp: i64)
    requires timestamp > 0
    ensures VB.Normal(VB.Variable(VB.TIME_TICKS, OI.Plain(SysUpTime()), VB.Duration(timestamp))) == Stamp(timestamp)
    ensures VB.Representable(VB.Variable(VB.TIME_TICKS, OI.Plain(SysUpTime()), VB.Duration(timestamp)))
  {
  }

  lemma NegativeTicks(timestamp: i64, name: OI.ObjectIdentifier, order: Order)
    requires timestamp < 0
    ensures VB.Encode(VB.Variable(VB.TIME_TICKS, name, VB.Duration(timestamp)), order).Err?
  {
    assert VB.DataOf(VB.TIME_TICKS, VB.Duration(timestamp)).Err?;
  }

  lemma FirstRefused(vs: seq<VB.Variable>, order: Order)
    requires vs != [] && VB.Encode(vs[0], order).Err?
    ensures VBL.Encode(vs, order).Err?
  {
  }

  lemma NegativeIsRefused(timestamp: i64, vs: seq<VB.Variable>, order: Order)
    requires timestamp < 0 && Conveyed(timestamp, vs)
    ensures EncodeNotify(timestamp, vs, order).Err?
  {
    NegativeTicks(timestamp, OI.Plain(SysUpTime()), order);
    FirstRefused(VarBindList(timestamp, vs), order);
  }

  /**
   * A timestamp goes out as a first binding of its own, unless it is zero or the list begins with
   * sysUpTime.0 already; a negative one is refused. It is read back as that binding and as the
   * notification's timestamp.
   */
  lemma TimestampIsConveyed(timestamp: i64, vs: seq<VB.Variable>, order: Order)
    requires EncodeNotify(timestamp, vs, order).Ok? && VBL.Representable(vs) && Conveyed(timestamp, vs)
    ensures timestamp > 0
    ensures DecodeNotify(EncodeNotify(timestamp, vs, order).value, order)
         == Ok(Notify(Stamp(timestamp).value.ns, [Stamp(timestamp)] + VBL.Normal(vs)))
  {
    if timestamp < 0 {
      NegativeIsRefused(timestamp, vs, order);
    }
    StampIsNormal(timestamp);
    var first := VB.Variable(VB.TIME_TICKS, OI.Plain(SysUpTime()), VB.Duration(timestamp));
    var list := VarBindList(timestamp, vs);
    assert list == [first] + vs;
    VBL.RepresentableCons(list);
    assert list[1..] == vs;
    NotifyBack(timestamp, vs, order);
    assert VBL.Normal(list) == [Stamp(timestamp)] + VBL.Normal(vs);
    StampIsRead(timestamp, VBL.Normal(vs));
  }

  lemma StampIsRead(timestamp: nat, vs: seq<VB.Variable>)
    ensures TimestampOf([Stamp(timestamp)] + vs) == Stamp(timestamp).value.ns
  {
    assert Stamp(timestamp).name.GetIdentifier() == [] + SysUpTime();
  }

  /** Otherwise the bindings are the notification's own. */
  lemma NoStampIsAdded(timestamp: i64, vs: seq<VB.Variable>, order: Order)
    requires EncodeNotify(timestamp, vs, order).Ok? && VBL.Representable(vs) && !Conveyed(timestamp, vs)
    ensures match DecodeNotify(EncodeNotify(timestamp, vs, order).value, order)
            case Ok(p) =>
              && p.Notify? && p.variables == VBL.Normal(vs)
              && p.timestamp == (if |vs| > 0 && vs[0].name.GetIdentifier() == [1, 3, 6, 1, 2, 1, 1, 3, 0]
                                    && p.variables[0].value.Duration? then p.variables[0].value.ns else 0)
            case Err => false
  {
    NotifyBack(timestamp, vs, order);
    AcceptedNotify(vs);
  }

  lemma OpenWords(timeout: i64, id: OI.ObjectIdentifier, description: Octets, order: Order) returns (k: nat)
    requires EncodeOpen(timeout, id, description, order).Ok?
    ensures |EncodeOpen(timeout, id, description, order).value| == 4 * k
  {
    k := VB.DataWords(VB.Text(description));
    k := 2 + |id.subids| + k;
  }

  lemma RegisterWords(timeout: i64, priority: byte, subtree: OI.ObjectIdentifier, order: Order) returns (k: nat)
    ensures EncodeRegister(timeout, priority, subtree, order).Ok? ==>
              |EncodeRegister(timeout, priority, subtree, order).value| == 4 * k
    ensures EncodeUnregister(priority, subtree, order).Ok? ==>
              |EncodeUnregister(priority, subtree, order).value| == 4 * k
  {
    k := 2 + |subtree.subids|;
  }

  lemma FixedWords(p: Packet, order: Order) returns (k: nat)
    requires Encode(p, order).Ok? && (p.Open? || p.Close? || p.Register? || p.Unregister?)
    ensures |Encode(p, order).value| == 4 * k
  {
    match p
    case Open(timeout, id, description) => k := OpenWords(timeout, id, description, order);
    case Close(_) => k := 1;
    case Register(timeout, priority, subtree) => k := RegisterWords(timeout, priority, subtree, order);
    case Unregister(priority, subtree) => k := RegisterWords(0, priority, subtree, order);
  }

  lemma ListWords(p: Packet, order: Order) returns (k: nat)
    requires Encode(p, order).Ok? && (p.Get? || p.GetNext? || p.TestSet? || p.Notify? || p.Response?)
    ensures |Encode(p, order).value| == 4 * k
  {
    match p
    case Get(ranges) => k := SR.EncodeAligned(ranges, order);
    case GetNext(ranges) => k := SR.EncodeAligned(ranges, order);
    case TestSet(vs) => k := VBL.EncodeAligned(vs, order);
    case Notify(timestamp, vs) => k := VBL.EncodeAligned(VarBindList(timestamp, vs), order);
    case Response(upTime, error, index, vs) => k := ResponseWords(upTime, error, index, vs, order);
  }

  lemma EncodeWords(p: Packet, order: Order) returns (k: nat)
    requires Encode(p, order).Ok?
    ensures |Encode(p, order).value| == 4 * k
  {
    if p.Open? || p.Close? || p.Register? || p.Unregister? {
      k := FixedWords(p, order);
    } else if p.Get? || p.GetNext? || p.TestSet? || p.Notify? || p.Response? {
      k := ListWords(p, order);
    } else {
      k := 0;
    }
  }

  lemma ResponseWords(upTime: i64, error: u16, index: u16, vs: seq<VB.Variable>, order: Order) returns (k: nat)
    requires EncodeResponse(upTime, error, index, vs, order).Ok?
    ensures |EncodeResponse(upTime, error, index, vs, order).value| == 4 * k
  {
    k := VBL.EncodeAligned(vs, order);
    k := k + 2;
  }

  /** Section 6.1 of RFC 2741: a payload length is always a multiple of four. */
  lemma EncodeAligned(p: Packet, order: Order)
    requires Encode(p, order).Ok?
    ensures |Encode(p, order).value| % 4 == 0
  {
    var k := EncodeWords(p, order);
    WordsAlign(|Encode(p, order).value|, k);
  }

  /** The decoder of the payload panics. */
  predicate Panics(typ: byte, data: Octets, order: Order) {
    if typ == RESPONSE then |data| >= 8 && VBL.Panics(data[8..], order)
    else (typ == TEST_SET || typ == NOTIFY) && VBL.Panics(data, order)
  }

  lemma NeverPanics(typ: byte, data: Octets, order: Order)
    requires |data| < TWO32
    ensures !Panics(typ, data, order)
  {
    VBL.NeverPanics(data, order);
    if |data| >= 8 {
      VBL.NeverPanics(data[8..], order);
    }
  }
}
