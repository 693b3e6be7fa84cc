/** The list handler (list_handler.go): a sorted slice and a map keyed by text, as one ordered map. */
module ListHandlers {
  import opened Wire
  import opened Oids
  import VB = VarBinds

  class ListItem {
    var typ: u16
    var value: VB.Value

    constructor ()
      ensures typ == 0 && value == VB.Nil
    {
      typ, value := 0, VB.Nil;
    }
  }

  /** What `Get` and `GetNext` answer; a nil OID is `Nothing`. */
  datatype Answer =
    | Named(oid: OID, typ: u16, value: VB.Value)
    | Nothing

  /** Inside the search range [start, ending), an empty ending OID meaning no upper bound. */
  predicate Within(oid: OID, start: OID, includeStart: bool, ending: OID) {
    && (Cmp(start, oid) < 0 || (Cmp(start, oid) == 0 && includeStart))
    && (ending == [] || Cmp(ending, oid) > 0)
  }

  method OidWithin(oid: OID, start: OID, includeStart: bool, ending: OID) returns (within: bool)
    ensures within == Within(oid, start, includeStart, ending)
  {
    var startCompare := CompareOIDs(start, oid);
    if startCompare > 0 || (startCompare == 0 && !includeStart) {
      return false;
    }
    if |ending| == 0 {
      return true;
    }
    var endingCompare := CompareOIDs(ending, oid);
    return endingCompare > 0;
  }

  /** One OID comes before another in lexicographic order. */
  ghost predicate Before(a: OID, b: OID) {
    exists k: nat :: PartAt(a, b, k)
  }

  /** The range in terms of that order: from the start, included or not, up to but not including the end. */
  lemma WithinIsBetween(oid: OID, start: OID, includeStart: bool, ending: OID)
    ensures Within(oid, start, includeStart, ending) <==>
              (Before(start, oid) || (start == oid && includeStart)) && (ending == [] || Before(oid, ending))
  {
    CmpIsLexicographic(start, oid);
    CmpIsLexicographic(oid, ending);
    CmpAntisymmetric(start, oid);
    CmpAntisymmetric(ending, oid);
    CmpAntisymmetric(oid, ending);
  }

  /** The least stored OID satisfying the range, if there is one. */
  ghost predicate IsNext(oids: seq<OID>, start: OID, includeStart: bool, ending: OID, found: Option<OID>) {
    match found
    case Some(oid) =>
      && oid in oids && Within(oid, start, includeStart, ending)
      && forall other :: other in oids && Within(other, start, includeStart, ending) ==> Cmp(oid, other) <= 0
    case None =>
      forall other :: other in oids ==> !Within(other, start, includeStart, ending)
  }

  /** The printed forms of the OIDs. */
  ghost function PrintedSet(oids: seq<OID>): (texts: set<Octets>) {
    if oids == [] then {} else {Print(oids[0])} + PrintedSet(oids[1..])
  }

  lemma {:induction false} PrintedIsStored(oids: seq<OID>, oid: OID)
    ensures Print(oid) in PrintedSet(oids) <==> oid in oids
  {
    if oids != [] {
      PrintedIsStored(oids[1..], oid);
      assert oids == [oids[0]] + oids[1..];
      if Print(oids[0]) == Print(oid) {
        PrintInjective(oids[0], oid);
      }
    }
  }

  lemma {:induction false} PrintedHasSource(oids: seq<OID>, text: Octets)
    ensures text in PrintedSet(oids) <==> exists oid :: oid in oids && Print(oid) == text
  {
    if oids != [] {
      PrintedHasSource(oids[1..], text);
      assert oids == [oids[0]] + oids[1..];
    }
  }

  lemma MembersAfterAppend(oids: seq<OID>, oid: OID, more: seq<OID>)
    requires multiset(more) == multiset(oids + [oid])
    ensures forall o :: o in more <==> o in oids || o == oid
  {
    forall o
      ensures o in more <==> o in oids || o == oid
    {
      assert o in more <==> o in multiset(more);
      assert o in oids + [oid] <==> o in multiset(oids + [oid]);
    }
  }

  lemma PrintedSetAdds(oids: seq<OID>, oid: OID, more: seq<OID>)
    requires multiset(more) == multiset(oids + [oid])
    ensures PrintedSet(more) == PrintedSet(oids) + {Print(oid)}
  {
    MembersAfterAppend(oids, oid, more);
    forall text
      ensures text in PrintedSet(more) <==> text in PrintedSet(oids) + {Print(oid)}
    {
      PrintedHasSource(oids, text);
      PrintedHasSource(more, text);
    }
  }

  lemma OccursTwice(s: seq<OID>, i: nat, j: nat)
    requires i < j < |s| && s[i] == s[j]
    ensures multiset(s)[s[i]] >= 2
  {
    assert s == s[..j] + s[j..];
    assert s[i] in multiset(s[..j]) && s[j] in multiset(s[j..]);
  }

  lemma StrictHasNoDuplicates(s: seq<OID>, oid: OID)
    requires StrictlySorted(s)
    ensures multiset(s)[oid] <= 1
  {
    if oid in s {
      var i :| 0 <= i < |s| && s[i] == oid;
      assert s == s[..i] + [s[i]] + s[i + 1..];
      CmpAntisymmetric(oid, oid);
      assert oid !in s[..i] && oid !in s[i + 1..];
    }
  }

  lemma AppendHasNoDuplicates(oids: seq<OID>, oid: OID, other: OID)
    requires StrictlySorted(oids) && oid !in oids
    ensures multiset(oids + [oid])[other] <= 1
  {
    StrictHasNoDuplicates(oids, other);
    assert oid !in multiset(oids);
  }

  /** Sorting a list to which an OID not yet there was appended gives a strictly sorted list again. */
  lemma SortedAfterAppend(oids: seq<OID>, oid: OID, more: seq<OID>)
    requires StrictlySorted(oids) && oid !in oids
    requires Sorted(more) && multiset(more) == multiset(oids + [oid])
    ensures StrictlySorted(more)
  {
    forall i, j | 0 <= i < j < |more|
      ensures Cmp(more[i], more[j]) < 0
    {
      if Cmp(more[i], more[j]) == 0 {
        CmpAntisymmetric(more[i], more[j]);
        OccursTwice(more, i, j);
        AppendHasNoDuplicates(oids, oid, more[i]);
        assert false;
      }
    }
  }

  // ------------------------------------------------------------------ walk

  /** The stored OIDs above `start`, in order. */
  ghost function Above(oids: seq<OID>, start: OID): (above: seq<OID>) {
    if oids == [] then []
    else (if Cmp(start, oids[0]) < 0 then [oids[0]] else []) + Above(oids[1..], start)
  }

  lemma {:induction false} AboveMembers(oids: seq<OID>, start: OID)
    ensures forall oid :: oid in Above(oids, start) <==> oid in oids && Cmp(start, oid) < 0
  {
    if oids != [] {
      AboveMembers(oids[1..], start);
      assert oids == [oids[0]] + oids[1..];
    }
  }

  lemma ConsStrict(x: OID, rest: seq<OID>)
    requires StrictlySorted(rest) && forall o :: o in rest ==> Cmp(x, o) < 0
    ensures StrictlySorted([x] + rest)
  {
  }

  /** Complete, in lexicographic order, and without repetition. */
  lemma {:induction false} AboveIsExact(oids: seq<OID>, start: OID)
    requires StrictlySorted(oids)
    ensures forall oid :: oid in Above(oids, start) <==> oid in oids && Cmp(start, oid) < 0
    ensures StrictlySorted(Above(oids, start))
  {
    AboveMembers(oids, start);
    if oids != [] {
      AboveIsExact(oids[1..], start);
      ConsStrict(oids[0], Above(oids[1..], start));
    }
  }

  lemma {:induction false} AllAbove(oids: seq<OID>, start: OID)
    requires forall i :: 0 <= i < |oids| ==> Cmp(start, oids[i]) < 0
    ensures Above(oids, start) == oids
  {
    if oids != [] {
      AllAbove(oids[1..], start);
    }
  }

  lemma {:induction false} NoneAbove(oids: seq<OID>, start: OID)
    requires IsNext(oids, start, false, [], None)
    ensures Above(oids, start) == []
  {
    if oids != [] {
      assert oids == [oids[0]] + oids[1..];
      assert !Within(oids[0], start, false, []);
      NoneAbove(oids[1..], start);
    }
  }

  lemma AllOfRest(oids: seq<OID>, start: OID)
    requires StrictlySorted(oids) && oids != [] && Cmp(start, oids[0]) <= 0
    ensures Above(oids[1..], start) == oids[1..]
  {
    var rest := oids[1..];
    forall i | 0 <= i < |rest|
      ensures Cmp(start, rest[i]) < 0
    {
      assert rest[i] == oids[i + 1];
      CmpTransitive(start, oids[0], rest[i]);
    }
    AllAbove(rest, start);
  }

  lemma NextIsFirst(oids: seq<OID>, start: OID, next: OID)
    requires StrictlySorted(oids) && IsNext(oids, start, false, [], Some(next))
    requires oids != [] && Cmp(start, oids[0]) < 0
    ensures next == oids[0]
  {
    assert oids[0] in oids && Within(oids[0], start, false, []);
    var k :| 0 <= k < |oids| && oids[k] == next;
    CmpAntisymmetric(oids[0], next);
  }

  lemma NextIsLater(oids: seq<OID>, start: OID, next: OID)
    requires IsNext(oids, start, false, [], Some(next)) && oids != [] && Cmp(start, oids[0]) >= 0
    ensures IsNext(oids[1..], start, false, [], Some(next)) && Cmp(oids[0], next) < 0
  {
    assert oids == [oids[0]] + oids[1..];
    CmpAntisymmetric(start, oids[0]);
    CmpTransitive(oids[0], start, next);
  }

  lemma AboveFirst(oids: seq<OID>, start: OID)
    requires StrictlySorted(oids) && oids != [] && Cmp(start, oids[0]) < 0
    ensures Above(oids, start) == [oids[0]] + Above(oids, oids[0])
  {
    AllOfRest(oids, start);
    CmpAntisymmetric(oids[0], oids[0]);
    AllOfRest(oids, oids[0]);
    assert [] + oids[1..] == oids[1..];
  }

  lemma AboveLater(oids: seq<OID>, start: OID)
    requires oids != [] && Cmp(start, oids[0]) >= 0
    ensures Above(oids, start) == Above(oids[1..], start)
  {
    assert [] + Above(oids[1..], start) == Above(oids[1..], start);
  }

  /** One step of the walk takes the first of the OIDs still above the cursor. */
  lemma {:induction false} AboveStep(oids: seq<OID>, start: OID, next: OID)
    requires StrictlySorted(oids) && IsNext(oids, start, false, [], Some(next))
    ensures Above(oids, start) == [next] + Above(oids, next)
  {
    assert oids != [];
    if Cmp(start, oids[0]) < 0 {
      NextIsFirst(oids, start, next);
      AboveFirst(oids, start);
    } else {
      NextIsLater(oids, start, next);
      TailStrict(oids);
      AboveStep(oids[1..], start, next);
      AboveLater(oids, start);
      CmpAntisymmetric(oids[0], next);
      AboveLater(oids, next);
    }
  }

  lemma TailStrict(oids: seq<OID>)
    requires StrictlySorted(oids) && oids != []
    ensures StrictlySorted(oids[1..])
  {
  }

  // --------------------------------------------------------- ordered map

  type Content = (u16, VB.Value)

  /** The slice and, text by text, what the map's items hold. */
  datatype View = View(oids: seq<OID>, texts: map<Octets, Content>)

  /**
   * The two structures agree: the slice is strictly sorted, so has no duplicates, and the keys
   * are exactly the printed forms of its OIDs.
   */
  ghost predicate Agrees(v: View) {
    StrictlySorted(v.oids) && v.texts.Keys == PrintedSet(v.oids)
  }

  /** The ordered map the handler stands for. */
  ghost function Contents(v: View): (m: map<OID, Content>) {
    map oid | oid in v.oids && Print(oid) in v.texts :: v.texts[Print(oid)]
  }

  datatype Op =
    | Add(text: Octets)
    | Set(oid: OID, typ: u16, value: VB.Value)

  /** What each operation does to the two structures. */
  function Apply(v: View, op: Op): (w: View) {
    match op
    case Add(text) =>
      if text in v.texts || Parse(text).Err? then v
      else View(Sort(v.oids + [Parse(text).value]), v.texts[text := (0, VB.Nil)])
    case Set(oid, t, value) =>
      if Print(oid) in v.texts then v.(texts := v.texts[Print(oid) := (t, value)]) else v
  }

  /** What each operation means for an ordered map. */
  ghost function Meant(m: map<OID, Content>, op: Op): (n: map<OID, Content>) {
    match op
    case Add(text) => if Parse(text).Err? || Parse(text).value in m then m else m[Parse(text).value := (0, VB.Nil)]
    case Set(oid, t, value) => if oid in m then m[oid := (t, value)] else m
  }

  function Lookup(v: View, oid: OID): (a: Answer) {
    if Print(oid) in v.texts then Named(oid, v.texts[Print(oid)].0, v.texts[Print(oid)].1) else Nothing
  }

  lemma AgreeingKeys(v: View, oid: OID)
    requires Agrees(v)
    ensures Print(oid) in v.texts <==> oid in v.oids
    ensures oid in Contents(v) <==> oid in v.oids
  {
    PrintedIsStored(v.oids, oid);
  }

  lemma LookupIsContents(v: View, oid: OID)
    requires Agrees(v)
    ensures Lookup(v, oid) == if oid in Contents(v) then Named(oid, Contents(v)[oid].0, Contents(v)[oid].1) else Nothing
  {
    AgreeingKeys(v, oid);
  }

  lemma ContentAt(v: View, oid: OID)
    ensures oid in Contents(v) <==> oid in v.oids && Print(oid) in v.texts
    ensures oid in Contents(v) ==> Contents(v)[oid] == v.texts[Print(oid)]
  {
  }

  lemma ContentAfterPut(v: View, oid: OID, c: Content, w: View, other: OID)
    requires forall o :: o in w.oids <==> o in v.oids || o == oid
    requires w.texts == v.texts[Print(oid) := c]
    ensures var m, n := Contents(w), Contents(v)[oid := c];
            (other in m <==> other in n) && (other in m ==> m[other] == n[other])
  {
    ContentAt(v, other);
    ContentAt(w, other);
    if Print(other) == Print(oid) {
      PrintInjective(other, oid);
    }
  }

  /** Adding or replacing the content of one OID under its printed form. */
  lemma ContentsAfterPut(v: View, oid: OID, c: Content, w: View)
    requires forall o :: o in w.oids <==> o in v.oids || o == oid
    requires w.texts == v.texts[Print(oid) := c]
    ensures Contents(w) == Contents(v)[oid := c]
  {
    var m, n := Contents(w), Contents(v)[oid := c];
    forall other
      ensures (other in m <==> other in n) && (other in m ==> m[other] == n[other])
    {
      ContentAfterPut(v, oid, c, w, other);
    }
    assert m.Keys == n.Keys;
  }

  lemma SetIsMeant(v: View, oid: OID, t: u16, value: VB.Value)
    requires Agrees(v)
    ensures var w := Apply(v, Set(oid, t, value));
            Agrees(w) && Contents(w) == Meant(Contents(v), Set(oid, t, value))
  {
    AgreeingKeys(v, oid);
    if Print(oid) in v.texts {
      var w := Apply(v, Set(oid, t, value));
      assert w.texts.Keys == v.texts.Keys;
      ContentsAfterPut(v, oid, (t, value), w);
    }
  }

  lemma AddMembers(oids: seq<OID>, oid: OID, more: seq<OID>)
    requires more == Sort(oids + [oid])
    ensures PrintedSet(more) == PrintedSet(oids) + {Print(oid)}
    ensures forall o :: o in more <==> o in oids || o == oid
    ensures StrictlySorted(oids) && oid !in oids ==> StrictlySorted(more)
  {
    SortSorts(oids + [oid]);
    MembersAfterAppend(oids, oid, more);
    PrintedSetAdds(oids, oid, more);
    if StrictlySorted(oids) && oid !in oids {
      SortedAfterAppend(oids, oid, more);
    }
  }

  lemma SameNewKey(keys: set<Octets>, text: Octets, printed: Octets)
    requires text !in keys
    ensures keys + {text} == keys + {printed} <==> text == printed
  {
    assert text in keys + {text};
  }

  lemma KeysAfterAdd(v: View, text: Octets, oid: OID)
    requires Agrees(v) && text !in v.texts && Parse(text) == Ok(oid)
    ensures var w := View(Sort(v.oids + [oid]), v.texts[text := (0, VB.Nil)]); Agrees(w) <==> Print(oid) == text
  {
    AgreeingKeys(v, oid);
    AddMembers(v.oids, oid, Sort(v.oids + [oid]));
    SameNewKey(v.texts.Keys, text, Print(oid));
    assert v.texts[text := (0, VB.Nil)].Keys == v.texts.Keys + {text};
  }

  /** Adding a new text keeps the structures in agreement exactly when the text is canonical. */
  lemma AddAgrees(v: View, text: Octets)
    requires Agrees(v)
    ensures Agrees(Apply(v, Add(text))) <==> text in v.texts || Parse(text).Err? || Canonical(text)
  {
    if text !in v.texts && Parse(text).Ok? {
      PrintParse(text);
      KeysAfterAdd(v, text, Parse(text).value);
    }
  }

  lemma AddIsMeant(v: View, text: Octets)
    requires Agrees(v) && (Parse(text).Ok? ==> Canonical(text))
    ensures Contents(Apply(v, Add(text))) == Meant(Contents(v), Add(text))
  {
    if Parse(text).Ok? {
      var oid := Parse(text).value;
      PrintParse(text);
      AgreeingKeys(v, oid);
      if text !in v.texts {
        AddMembers(v.oids, oid, Sort(v.oids + [oid]));
        ContentsAfterPut(v, oid, (0, VB.Nil), Apply(v, Add(text)));
      }
    }
  }

  /** The texts a caller may add: those that parse have no superfluous leading zero. */
  ghost predicate CanonicalAdds(ops: seq<Op>) {
    forall op :: op in ops && op.Add? && Parse(op.text).Ok? ==> Canonical(op.text)
  }

  function Run(ops: seq<Op>): (v: View) {
    if ops == [] then View([], map[]) else Apply(Run(ops[..|ops| - 1]), ops[|ops| - 1])
  }

  ghost function RunMeant(ops: seq<Op>): (m: map<OID, Content>) {
    if ops == [] then map[] else Meant(RunMeant(ops[..|ops| - 1]), ops[|ops| - 1])
  }

  /** A text that parses and is not canonical is the printed form of nothing. */
  lemma NonCanonicalDisagrees(v: View, text: Octets)
    requires text in v.texts && Parse(text).Ok? && !Canonical(text)
    ensures !Agrees(v)
  {
    PrintedHasSource(v.oids, text);
    if oid :| oid in v.oids && Print(oid) == text {
      ParsePrint(oid);
    }
  }

  /** Every text added that parses stays a key for good. */
  lemma {:induction false} AddedStays(ops: seq<Op>, op: Op)
    requires op in ops && op.Add? && Parse(op.text).Ok?
    ensures op.text in Run(ops).texts
  {
    var before, last := ops[..|ops| - 1], ops[|ops| - 1];
    assert ops == before + [last];
    if op in before {
      AddedStays(before, op);
    }
  }

  lemma {:induction false} CanonicalRunRefines(ops: seq<Op>)
    requires CanonicalAdds(ops)
    ensures Agrees(Run(ops)) && Contents(Run(ops)) == RunMeant(ops)
  {
    if ops == [] {
      assert Contents(Run(ops)).Keys == {};
    } else {
      var before, op := ops[..|ops| - 1], ops[|ops| - 1];
      CanonicalRunRefines(before);
      match op
      case Add(text) =>
        AddAgrees(Run(before), text);
        AddIsMeant(Run(before), text);
      case Set(oid, t, value) =>
        SetIsMeant(Run(before), oid, t, value);
    }
  }

  /**
   * After any sequence of Adds and Sets the two structures agree exactly when no text added had a
   * superfluous leading zero, and then the handler is the ordered map it stands for.
   */
  lemma RunRefines(ops: seq<Op>)
    ensures Agrees(Run(ops)) <==> CanonicalAdds(ops)
    ensures CanonicalAdds(ops) ==> Contents(Run(ops)) == RunMeant(ops)
  {
    if CanonicalAdds(ops) {
      CanonicalRunRefines(ops);
    } else {
      var op :| op in ops && op.Add? && Parse(op.text).Ok? && !Canonical(op.text);
      AddedStays(ops, op);
      NonCanonicalDisagrees(Run(ops), op.text);
    }
  }

  // ---------------------------------------------------------- the handler

  /** `append` and `SortOIDs`. */
  method AppendSorted(oids: seq<OID>, oid: OID) returns (more: seq<OID>)
    ensures more == Sort(oids + [oid])
  {
    var appended := oids + [oid];
    var a := new OID[|appended|](i requires 0 <= i < |appended| => appended[i]);
    assert a[..] == appended;
    SortOIDs(a);
    more := a[..];
  }

  class ListHandler {
    var oids: seq<OID>
    var items: map<Octets, ListItem>

    constructor ()
      ensures Valid() && State() == Run([])
    {
      oids, items := [], map[];
    }

    /** No two keys share an item; every method keeps this, whatever texts are added. */
    ghost predicate Valid()
      reads this
    {
      forall s, t :: s in items && t in items && s != t ==> items[s] != items[t]
    }

    ghost function State(): (v: View)
      reads this, items.Values
    {
      View(oids, map text | text in items :: (items[text].typ, items[text].value))
    }

    /** Setting an OID the list does not hold is a no-op. */
    method Set(oid: OID, t: u16, value: VB.Value)
      requires Valid()
      modifies items.Values
      ensures Valid() && items == old(items)
      ensures State() == Apply(old(State()), Op.Set(oid, t, value))
    {
      var text := String(oid);
      if text !in items {
        return;
      }
      var item := items[text];
      item.typ := t;
      item.value := value;
      assert State().texts == old(State().texts)[text := (t, value)];
    }

    /** Null stands for the panic on a text that does not parse. */
    method Add(oid: Octets) returns (item: ListItem?)
      requires Valid()
      modifies this
      ensures Valid() && State() == Apply(old(State()), Op.Add(oid))
      ensures item == null <==> oid !in old(items) && Parse(oid).Err?
      ensures item != null ==> oid in items && items[oid] == item
      ensures forall text :: text in old(items) ==> text in items && items[text] == old(items)[text]
    {
      if oid in items {
        return items[oid];
      }
      var parsed := ParseOID(oid);
      if parsed.Err? {
        return null;
      }
      oids := AppendSorted(oids, parsed.value);
      item := AddItem(oid);
    }

    /** A fresh item under a new key. */
    method AddItem(text: Octets) returns (item: ListItem)
      requires Valid() && text !in items
      modifies this`items
      ensures Valid() && items == old(items)[text := item]
      ensures State().texts == old(State().texts)[text := (0, VB.Nil)]
    {
      item := new ListItem();
      items := items[text := item];
    }

    method Get(oid: OID) returns (a: Answer)
      ensures a == Lookup(State(), oid)
    {
      var text := String(oid);
      if text !in items {
        return Nothing;
      }
      return Named(oid, items[text].typ, items[text].value);
    }

    /** The first stored OID in the range is looked up, even when the map has lost it. */
    method GetNext(start: OID, includeStart: bool, ending: OID) returns (a: Answer)
      ensures a == NextOf(State(), start, includeStart, ending)
    {
      var i := 0;
      assert oids[0..] == oids;
      while i < |oids|
        invariant 0 <= i <= |oids|
        invariant FirstWithin(oids[i..], start, includeStart, ending) == FirstWithin(oids, start, includeStart, ending)
      {
        var within := OidWithin(oids[i], start, includeStart, ending);
        if within {
          a := Get(oids[i]);
          return;
        }
        assert oids[i..][1..] == oids[i + 1..];
        i := i + 1;
      }
      return Nothing;
    }
  }

  /** What GetNext answers. */
  function NextOf(v: View, start: OID, includeStart: bool, ending: OID): (a: Answer) {
    match FirstWithin(v.oids, start, includeStart, ending)
    case Some(oid) => Lookup(v, oid)
    case None => Nothing
  }

  function FirstWithin(oids: seq<OID>, start: OID, includeStart: bool, ending: OID): (found: Option<OID>) {
    if oids == [] then None
    else if Within(oids[0], start, includeStart, ending) then Some(oids[0])
    else FirstWithin(oids[1..], start, includeStart, ending)
  }

  /** On a sorted slice the first OID in the range is the least. */
  lemma {:induction false} FirstIsNext(oids: seq<OID>, start: OID, includeStart: bool, ending: OID)
    requires Sorted(oids)
    ensures IsNext(oids, start, includeStart, ending, FirstWithin(oids, start, includeStart, ending))
  {
    if oids != [] {
      FirstIsNext(oids[1..], start, includeStart, ending);
      assert oids == [oids[0]] + oids[1..];
      CmpAntisymmetric(oids[0], oids[0]);
    }
  }

  /** GetNext in terms of the ordered map: the least OID in the range with its content. */
  lemma NextIsContents(v: View, start: OID, includeStart: bool, ending: OID)
    requires Agrees(v)
    ensures var found := FirstWithin(v.oids, start, includeStart, ending);
            && IsNext(v.oids, start, includeStart, ending, found)
            && (found.Some? ==>
                  && found.value in Contents(v)
                  && var content := Contents(v)[found.value];
                     Lookup(v, found.value) == Named(found.value, content.0, content.1))
  {
    FirstIsNext(v.oids, start, includeStart, ending);
    var found := FirstWithin(v.oids, start, includeStart, ending);
    if found.Some? {
      AgreeingKeys(v, found.value);
    }
  }

  /** The master agent's walk: the OID returned is fed back, excluded, with no upper bound. */
  method Walk(handler: ListHandler, start: OID) returns (visited: seq<OID>)
    requires Agrees(handler.State())
    ensures visited == Above(handler.oids, start)
  {
    visited := [];
    var cursor := start;
    NextIsContents(handler.State(), cursor, false, []);
    var a := handler.GetNext(cursor, false, []);
    while a.Named?
      invariant IsNext(handler.oids, cursor, false, [], if a.Named? then Some(a.oid) else None)
      invariant visited + Above(handler.oids, cursor) == Above(handler.oids, start)
      decreases |Above(handler.oids, cursor)|
    {
      AboveStep(handler.oids, cursor, a.oid);
      visited := visited + [a.oid];
      cursor := a.oid;
      NextIsContents(handler.State(), cursor, false, []);
      a := handler.GetNext(cursor, false, []);
    }
    NoneAbove(handler.oids, cursor);
  }

  // ------------------------------------------------- answers, text by text

  /** What an ordered map answers to Get and GetNext. */
  ghost predicate IsAnswer(m: map<OID, Content>, oid: OID, a: Answer) {
    a == if oid in m then Named(oid, m[oid].0, m[oid].1) else Nothing
  }

  ghost predicate IsNextIn(m: map<OID, Content>, start: OID, includeStart: bool, ending: OID, a: Answer) {
    match a
    case Named(oid, t, value) =>
      && oid in m && m[oid] == (t, value) && Within(oid, start, includeStart, ending)
      && forall other :: other in m && Within(other, start, includeStart, ending) ==> Cmp(oid, other) <= 0
    case Nothing =>
      forall other :: other in m ==> !Within(other, start, includeStart, ending)
  }

  ghost predicate Answers(v: View, m: map<OID, Content>) {
    && (forall oid :: IsAnswer(m, oid, Lookup(v, oid)))
    && (forall start, includeStart, ending ::
          IsNextIn(m, start, includeStart, ending, NextOf(v, start, includeStart, ending)))
  }

  /** The text parses, and is not how its OID is printed. */
  predicate NonCanonical(op: Op) {
    op.Add? && Parse(op.text).Ok? && !Canonical(op.text)
  }

  /** Each Add of non-canonical text comes after an Add of the canonical text of the same OID. */
  ghost predicate Shadowed(ops: seq<Op>) {
    forall i :: 0 <= i < |ops| && NonCanonical(ops[i]) ==> Add(Print(Parse(ops[i].text).value)) in ops[..i]
  }

  /** The structures may hold an OID or its text more than once, but they name what the map holds. */
  ghost predicate Covers(v: View, m: map<OID, Content>) {
    Sorted(v.oids) && (forall oid :: CoversOid(v, m, oid)) && (forall text :: CoversText(v, m, text))
  }

  ghost predicate CoversOid(v: View, m: map<OID, Content>, oid: OID) {
    && (oid in v.oids <==> oid in m) && (Print(oid) in v.texts <==> oid in m)
    && (oid in m ==> m[oid] == v.texts[Print(oid)])
  }

  ghost predicate CoversText(v: View, m: map<OID, Content>, text: Octets) {
    text in v.texts ==> Parse(text).Ok? && Parse(text).value in m
  }

  lemma CoversNext(v: View, m: map<OID, Content>, start: OID, includeStart: bool, ending: OID)
    requires Covers(v, m)
    ensures IsNextIn(m, start, includeStart, ending, NextOf(v, start, includeStart, ending))
  {
    FirstIsNext(v.oids, start, includeStart, ending);
    var found := FirstWithin(v.oids, start, includeStart, ending);
    if found.Some? {
      assert CoversOid(v, m, found.value);
    }
    forall other | other in m
      ensures other in v.oids
    {
      assert CoversOid(v, m, other);
    }
  }

  lemma CoversAnswers(v: View, m: map<OID, Content>)
    requires Covers(v, m)
    ensures Answers(v, m)
  {
    forall oid
      ensures IsAnswer(m, oid, Lookup(v, oid))
    {
      assert CoversOid(v, m, oid);
    }
    forall start, includeStart, ending
      ensures IsNextIn(m, start, includeStart, ending, NextOf(v, start, includeStart, ending))
    {
      CoversNext(v, m, start, includeStart, ending);
    }
  }

  /** Adding or replacing the content of one OID under its printed form. */
  lemma PutCovers(v: View, m: map<OID, Content>, oid: OID, more: seq<OID>, c: Content)
    requires Covers(v, m) && oid != []
    requires Sorted(more) && forall o :: o in more <==> o in v.oids || o == oid
    ensures Covers(View(more, v.texts[Print(oid) := c]), m[oid := c])
  {
    var w, n := View(more, v.texts[Print(oid) := c]), m[oid := c];
    forall other
      ensures CoversOid(w, n, other)
    {
      PutCoversOid(v, m, oid, more, c, other);
    }
    forall text
      ensures CoversText(w, n, text)
    {
      assert CoversText(v, m, text);
      ParsePrint(oid);
    }
  }

  lemma PutCoversOid(v: View, m: map<OID, Content>, oid: OID, more: seq<OID>, c: Content, other: OID)
    requires CoversOid(v, m, other) && forall o :: o in more <==> o in v.oids || o == oid
    ensures CoversOid(View(more, v.texts[Print(oid) := c]), m[oid := c], other)
  {
    if Print(other) == Print(oid) {
      PrintInjective(other, oid);
    }
  }

  lemma ShadowedAddCovers(v: View, m: map<OID, Content>, text: Octets, more: seq<OID>, c: Content)
    requires Covers(v, m) && NonCanonical(Add(text)) && Parse(text).value in m
    requires Sorted(more) && forall o :: o in more <==> o in v.oids || o == Parse(text).value
    ensures Covers(View(more, v.texts[text := c]), m)
  {
    var w := View(more, v.texts[text := c]);
    forall other
      ensures CoversOid(w, m, other)
    {
      assert CoversOid(v, m, other);
      NotPrinted(text, other);
    }
    forall key
      ensures CoversText(w, m, key)
    {
      assert CoversText(v, m, key);
    }
  }

  lemma NotPrinted(text: Octets, oid: OID)
    requires NonCanonical(Add(text))
    ensures Print(oid) != text
  {
    ParsePrint(oid);
  }

  lemma SetCovers(v: View, m: map<OID, Content>, oid: OID, t: u16, value: VB.Value)
    requires Covers(v, m)
    ensures Covers(Apply(v, Set(oid, t, value)), Meant(m, Set(oid, t, value)))
  {
    assert CoversOid(v, m, oid);
    if oid in m {
      assert CoversText(v, m, Print(oid));
      ParsePrint(oid);
      PutCovers(v, m, oid, v.oids, (t, value));
    }
  }

  lemma NewTextCovers(v: View, m: map<OID, Content>, text: Octets, oid: OID, more: seq<OID>)
    requires Covers(v, m) && text !in v.texts && Parse(text) == Ok(oid)
    requires NonCanonical(Add(text)) ==> oid in m
    requires Sorted(more) && forall o :: o in more <==> o in v.oids || o == oid
    ensures Covers(View(more, v.texts[text := (0, VB.Nil)]), if oid in m then m else m[oid := (0, VB.Nil)])
  {
    PrintParse(text);
    if Canonical(text) {
      assert CoversOid(v, m, oid);
      PutCovers(v, m, oid, more, (0, VB.Nil));
    } else {
      ShadowedAddCovers(v, m, text, more, (0, VB.Nil));
    }
  }

  lemma AddCovers(v: View, m: map<OID, Content>, text: Octets)
    requires Covers(v, m) && (NonCanonical(Add(text)) ==> Parse(text).value in m)
    ensures Covers(Apply(v, Add(text)), Meant(m, Add(text)))
  {
    if text in v.texts {
      assert CoversText(v, m, text);
    } else if Parse(text).Ok? {
      var oid := Parse(text).value;
      var more := Sort(v.oids + [oid]);
      SortSorts(v.oids + [oid]);
      MembersAfterAppend(v.oids, oid, more);
      NewTextCovers(v, m, text, oid, more);
    }
  }

  /** The keys are the texts added that parse. */
  lemma {:induction false} KeysAreAdded(ops: seq<Op>, text: Octets)
    ensures text in Run(ops).texts <==> Add(text) in ops && Parse(text).Ok?
  {
    if ops != [] {
      var before, last := ops[..|ops| - 1], ops[|ops| - 1];
      assert ops == before + [last];
      KeysAreAdded(before, text);
    }
  }

  lemma {:induction false} AddedIsMeant(ops: seq<Op>, text: Octets)
    requires Add(text) in ops && Parse(text).Ok?
    ensures Parse(text).value in RunMeant(ops)
  {
    var before, last := ops[..|ops| - 1], ops[|ops| - 1];
    assert ops == before + [last];
    if last != Add(text) {
      AddedIsMeant(before, text);
    }
  }

  lemma ShadowIsMeant(before: seq<Op>, text: Octets)
    requires Parse(text).Ok? && Add(Print(Parse(text).value)) in before
    ensures Parse(text).value in RunMeant(before)
  {
    var oid := Parse(text).value;
    PrintParse(text);
    ParsePrint(oid);
    AddedIsMeant(before, Print(oid));
  }

  lemma ShadowedBefore(ops: seq<Op>)
    requires ops != [] && Shadowed(ops)
    ensures Shadowed(ops[..|ops| - 1])
    ensures NonCanonical(ops[|ops| - 1]) ==> Add(Print(Parse(ops[|ops| - 1].text).value)) in ops[..|ops| - 1]
  {
    var before := ops[..|ops| - 1];
    forall i | 0 <= i < |before| && NonCanonical(before[i])
      ensures Add(Print(Parse(before[i].text).value)) in before[..i]
    {
      assert before[i] == ops[i] && before[..i] == ops[..i];
    }
  }

  lemma {:induction false} ShadowedCovers(ops: seq<Op>)
    requires Shadowed(ops)
    ensures Covers(Run(ops), RunMeant(ops))
  {
    if ops == [] {
      assert forall oid :: CoversOid(Run(ops), RunMeant(ops), oid);
    } else {
      var before, last := ops[..|ops| - 1], ops[|ops| - 1];
      ShadowedBefore(ops);
      ShadowedCovers(before);
      match last
      case Add(text) =>
        if NonCanonical(last) {
          ShadowIsMeant(before, text);
        }
        AddCovers(Run(before), RunMeant(before), text);
      case Set(oid, t, value) =>
        SetCovers(Run(before), RunMeant(before), oid, t, value);
    }
  }

  lemma {:induction false} ShadowedPrefix(ops: seq<Op>, n: nat)
    requires n <= |ops| && Shadowed(ops)
    ensures Shadowed(ops[..n])
  {
    forall i | 0 <= i < n && NonCanonical(ops[..n][i])
      ensures Add(Print(Parse(ops[..n][i].text).value)) in ops[..n][..i]
    {
      assert ops[..n][i] == ops[i] && ops[..n][..i] == ops[..i];
    }
  }

  /** An Add of non-canonical text on its own is answered as if it had not been. */
  lemma UnshadowedFails(before: seq<Op>, op: Op)
    requires NonCanonical(op) && Add(Print(Parse(op.text).value)) !in before
    ensures !Answers(Run(before + [op]), RunMeant(before + [op]))
  {
    var oid, ops := Parse(op.text).value, before + [op];
    PrintParse(op.text);
    KeysAreAdded(ops, Print(oid));
    AddedIsMeant(ops, op.text);
    assert !IsAnswer(RunMeant(ops), oid, Lookup(Run(ops), oid));
  }

  /**
   * Get and GetNext answer as the ordered map does after every step of a history if and only if
   * each Add of non-canonical text comes after an Add of the canonical text of the same OID.
   */
  lemma AnswersIffShadowed(ops: seq<Op>)
    ensures (forall n: nat :: n <= |ops| ==> Answers(Run(ops[..n]), RunMeant(ops[..n]))) <==> Shadowed(ops)
  {
    if Shadowed(ops) {
      forall n: nat | n <= |ops|
        ensures Answers(Run(ops[..n]), RunMeant(ops[..n]))
      {
        ShadowedPrefix(ops, n);
        ShadowedCovers(ops[..n]);
        CoversAnswers(Run(ops[..n]), RunMeant(ops[..n]));
      }
    } else {
      var i :| 0 <= i < |ops| && NonCanonical(ops[i]) && Add(Print(Parse(ops[i].text).value)) !in ops[..i];
      UnshadowedFails(ops[..i], ops[i]);
      assert ops[..i + 1] == ops[..i] + [ops[i]];
    }
  }
}
