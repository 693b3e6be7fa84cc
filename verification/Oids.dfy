/** Object identifiers: lexicographic order, dotted text, sorting (value/oid.go). */
module Oids {
  import opened Wire

  type OID = seq<u32>

  // ---------------------------------------------------------------- order

  /** -1, 0 or 1, comparing sub-identifier by sub-identifier, a proper prefix being smaller. */
  function Cmp(a: OID, b: OID): (c: int)
    ensures c == -1 || c == 0 || c == 1
  {
    if a == [] then (if b == [] then 0 else -1)
    else if b == [] then 1
    else if a[0] != b[0] then (if a[0] < b[0] then -1 else 1)
    else Cmp(a[1..], b[1..])
  }

  /** The declarative order: `k` is where the two first part ways. */
  ghost predicate PartAt(a: OID, b: OID, k: nat) {
    && k <= |a| && k <= |b|
    && a[..k] == b[..k]
    && (if k == |a| then k < |b| else k < |b| && a[k] < b[k])
  }

  lemma SharedHead(a: OID, b: OID, k: nat)
    requires 0 < k <= |a| && k <= |b| && a[..k] == b[..k]
    ensures a[0] == b[0]
  {
    assert a[..k][0] == b[..k][0];
  }

  lemma {:induction false} CmpIsLexicographic(a: OID, b: OID)
    ensures Cmp(a, b) == -1 <==> exists k: nat :: PartAt(a, b, k)
  {
    if a == [] || b == [] || a[0] != b[0] {
      if Cmp(a, b) == -1 {
        assert PartAt(a, b, 0);
      }
      forall k: nat | PartAt(a, b, k)
        ensures Cmp(a, b) == -1
      {
        if k > 0 {
          SharedHead(a, b, k);
          assert false;
        }
      }
    } else {
      CmpIsLexicographic(a[1..], b[1..]);
      if Cmp(a, b) == -1 {
        var k: nat :| PartAt(a[1..], b[1..], k);
        assert a[..k + 1] == [a[0]] + a[1..][..k];
        assert b[..k + 1] == [b[0]] + b[1..][..k];
        assert PartAt(a, b, k + 1);
      }
      forall k: nat | PartAt(a, b, k)
        ensures Cmp(a, b) == -1
      {
        assert k > 0;
        assert a[1..][..k - 1] == a[..k][1..];
        assert b[1..][..k - 1] == b[..k][1..];
        assert PartAt(a[1..], b[1..], k - 1);
      }
    }
  }

  lemma {:induction false} CmpAntisymmetric(a: OID, b: OID)
    ensures Cmp(a, b) == -Cmp(b, a)
    ensures Cmp(a, b) == 0 <==> a == b
  {
    if a != [] && b != [] {
      CmpAntisymmetric(a[1..], b[1..]);
      assert a == [a[0]] + a[1..] && b == [b[0]] + b[1..];
    }
  }

  lemma {:induction false} CmpTransitive(a: OID, b: OID, c: OID)
    requires Cmp(a, b) <= 0 && Cmp(b, c) <= 0
    ensures Cmp(a, c) <= 0
    ensures Cmp(a, b) < 0 || Cmp(b, c) < 0 ==> Cmp(a, c) < 0
  {
    if a != [] && b != [] && c != [] && a[0] == b[0] == c[0] {
      CmpTransitive(a[1..], b[1..], c[1..]);
    }
  }

  method CompareOIDs(oid1: OID, oid2: OID) returns (c: int)
    ensures c == Cmp(oid1, oid2)
  {
    var i := 0;
    while i < |oid1| && i < |oid2|
      invariant i <= |oid1| && i <= |oid2|
      invariant Cmp(oid1[i..], oid2[i..]) == Cmp(oid1, oid2)
    {
      if oid1[i] < oid2[i] {
        return -1;
      }
      if oid1[i] > oid2[i] {
        return 1;
      }
      i := i + 1;
    }
    if |oid1| < |oid2| {
      return -1;
    } else if |oid1| > |oid2| {
      return 1;
    }
    return 0;
  }

  /** The longest common prefix. */
  method CommonPrefix(o: OID, other: OID) returns (p: OID)
    ensures p <= o && p <= other
    ensures |p| < |o| && |p| < |other| ==> o[|p|] != other[|p|]
  {
    var matchCount := 0;
    while matchCount < |o|
      invariant matchCount <= |o| && matchCount <= |other|
      invariant o[..matchCount] == other[..matchCount]
    {
      if matchCount >= |other| || o[matchCount] != other[matchCount] {
        break;
      }
      matchCount := matchCount + 1;
    }
    p := o[..matchCount];
  }

  // -------------------------------------------------------------- sorting

  ghost predicate Sorted(s: seq<OID>) {
    forall i, j :: 0 <= i < j < |s| ==> Cmp(s[i], s[j]) <= 0
  }

  ghost predicate StrictlySorted(s: seq<OID>) {
    forall i, j :: 0 <= i < j < |s| ==> Cmp(s[i], s[j]) < 0
  }

  /** Where `x` goes in the sorted `s`. */
  function Position(s: seq<OID>, x: OID): (k: nat)
    ensures k <= |s|
    ensures forall i :: 0 <= i < k ==> Cmp(s[i], x) <= 0
    ensures k < |s| ==> Cmp(s[k], x) > 0
  {
    if s == [] || Cmp(s[0], x) > 0 then 0 else 1 + Position(s[1..], x)
  }

  function Insert(s: seq<OID>, x: OID): (r: seq<OID>) {
    s[..Position(s, x)] + [x] + s[Position(s, x)..]
  }

  lemma AboveTheRest(s: seq<OID>, k: nat, x: OID)
    requires Sorted(s) && k < |s| && Cmp(s[k], x) > 0
    ensures forall j :: k <= j < |s| ==> Cmp(x, s[j]) <= 0
  {
    forall j | k <= j < |s|
      ensures Cmp(x, s[j]) <= 0
    {
      CmpAntisymmetric(s[k], x);
      if j > k {
        CmpTransitive(x, s[k], s[j]);
      }
    }
  }

  lemma InsertedAt(s: seq<OID>, x: OID, i: nat)
    requires i <= |s|
    ensures var k := Position(s, x);
            Insert(s, x)[i] == if i < k then s[i] else if i == k then x else s[i - 1]
  {
  }

  lemma InsertKeepsSorted(s: seq<OID>, x: OID)
    requires Sorted(s)
    ensures Sorted(Insert(s, x))
  {
    var k := Position(s, x);
    var r := Insert(s, x);
    if k < |s| {
      AboveTheRest(s, k, x);
    }
    forall i, j | 0 <= i < j < |r|
      ensures Cmp(r[i], r[j]) <= 0
    {
      InsertedAt(s, x, i);
      InsertedAt(s, x, j);
    }
  }

  lemma InsertAddsOne(s: seq<OID>, x: OID)
    ensures multiset(Insert(s, x)) == multiset([x]) + multiset(s)
  {
    assert s == s[..Position(s, x)] + s[Position(s, x)..];
  }

  function Sort(s: seq<OID>): (r: seq<OID>) {
    if s == [] then [] else Insert(Sort(s[1..]), s[0])
  }

  lemma {:induction false} SortSorts(s: seq<OID>)
    ensures Sorted(Sort(s))
    ensures multiset(Sort(s)) == multiset(s)
    ensures |Sort(s)| == |s|
  {
    if s != [] {
      SortSorts(s[1..]);
      InsertKeepsSorted(Sort(s[1..]), s[0]);
      InsertAddsOne(Sort(s[1..]), s[0]);
      assert s == [s[0]] + s[1..];
    }
  }

  /** Only one list is sorted and has the same elements, so any sorting method gives this one. */
  lemma {:induction false} SortedIsUnique(a: seq<OID>, b: seq<OID>)
    requires Sorted(a) && Sorted(b) && multiset(a) == multiset(b)
    ensures a == b
  {
    if a == [] {
      assert |multiset(a)| == 0 && |multiset(b)| == |b|;
    } else {
      SameHead(a, b);
      TailElements(a);
      TailElements(b);
      SortedIsUnique(a[1..], b[1..]);
    }
  }

  lemma HeadIsLeast(a: seq<OID>, x: OID)
    requires Sorted(a) && x in a
    ensures Cmp(a[0], x) <= 0
  {
    var i :| 0 <= i < |a| && a[i] == x;
    CmpAntisymmetric(x, x);
  }

  lemma SameHead(a: seq<OID>, b: seq<OID>)
    requires Sorted(a) && Sorted(b) && multiset(a) == multiset(b) && a != []
    ensures b != [] && a[0] == b[0]
  {
    assert a[0] in multiset(b);
    assert b[0] in multiset(a);
    HeadIsLeast(a, b[0]);
    HeadIsLeast(b, a[0]);
    CmpAntisymmetric(a[0], b[0]);
  }

  lemma TailElements(a: seq<OID>)
    requires a != []
    ensures multiset(a[1..]) == multiset(a) - multiset([a[0]])
    ensures a == [a[0]] + a[1..]
  {
    assert a == [a[0]] + a[1..];
  }

  /** In place, as the library sort does it. */
  method SortOIDs(oids: array<OID>)
    modifies oids
    ensures oids[..] == Sort(old(oids[..]))
  {
    var sorted := Sort(oids[..]);
    SortSorts(oids[..]);
    var i := 0;
    while i < oids.Length
      invariant 0 <= i <= oids.Length
      invariant forall k :: 0 <= k < i ==> oids[k] == sorted[k]
    {
      oids[i] := sorted[i];
      i := i + 1;
    }
    assert oids[..] == sorted;
  }

  // ----------------------------------------------------------------- text

  const DOT: byte := 46
  const ZERO: byte := 48

  predicate Digit(b: byte) {
    ZERO <= b <= ZERO + 9
  }

  predicate Digits(s: Octets) {
    forall i :: 0 <= i < |s| ==> Digit(s[i])
  }

  /** `%d` of a non-negative number. */
  function Decimal(n: nat): (s: Octets)
    ensures s != [] && Digits(s)
  {
    if n < 10 then [ZERO + n] else Decimal(n / 10) + [ZERO + n % 10]
  }

  function DigitsValue(s: Octets): (n: nat)
    requires Digits(s)
  {
    if s == [] then 0 else 10 * DigitsValue(s[..|s| - 1]) + (s[|s| - 1] - ZERO)
  }

  /** `strconv.ParseUint(part, 10, 32)`. */
  function ParseUint(part: Octets): (r: Result<u32>) {
    if part == [] || !Digits(part) || DigitsValue(part) >= TWO32 then Err else Ok(DigitsValue(part))
  }

  predicate CanonicalPart(part: Octets) {
    |part| > 1 ==> part[0] != ZERO
  }

  lemma {:induction false} DecimalIsParsed(n: nat)
    ensures DigitsValue(Decimal(n)) == n
    ensures CanonicalPart(Decimal(n))
    ensures n > 0 ==> Decimal(n)[0] != ZERO
  {
    if n >= 10 {
      DecimalIsParsed(n / 10);
      assert Decimal(n)[..|Decimal(n)| - 1] == Decimal(n / 10);
    }
  }

  lemma LastDigit(n: nat, d: nat)
    requires d < 10
    ensures (10 * n + d) / 10 == n && (10 * n + d) % 10 == d
  {
  }

  lemma DecimalStep(n: nat, d: nat)
    requires n > 0 && d < 10
    ensures Decimal(10 * n + d) == Decimal(n) + [ZERO + d]
  {
    LastDigit(n, d);
  }

  lemma {:induction false} CanonicalIsPrinted(part: Octets)
    requires part != [] && Digits(part) && CanonicalPart(part)
    ensures Decimal(DigitsValue(part)) == part
    ensures part[0] != ZERO ==> DigitsValue(part) > 0
  {
    var front, digit := part[..|part| - 1], part[|part| - 1] - ZERO;
    assert part == front + [ZERO + digit];
    if front == [] {
      assert DigitsValue(front) == 0;
    } else {
      CanonicalIsPrinted(front);
      DecimalStep(DigitsValue(front), digit);
    }
  }

  /** `strings.Split(text, ".")`. */
  function Split(text: Octets): (parts: seq<Octets>)
    ensures parts != []
  {
    if text == [] then [[]]
    else
      var parts := Split(text[1..]);
      if text[0] == DOT then [[]] + parts else [[text[0]] + parts[0]] + parts[1..]
  }

  /** `strings.Join(parts, ".")`. */
  function Join(parts: seq<Octets>): (text: Octets) {
    if parts == [] then []
    else if |parts| == 1 then parts[0]
    else parts[0] + [DOT] + Join(parts[1..])
  }

  lemma {:induction false} JoinSplit(text: Octets)
    ensures Join(Split(text)) == text
  {
    if text != [] {
      JoinSplit(text[1..]);
      var parts := Split(text[1..]);
      if text[0] == DOT {
        assert Split(text)[1..] == parts;
      } else {
        assert Split(text)[1..] == parts[1..];
      }
    }
  }

  lemma {:induction false} SplitPart(part: Octets, text: Octets)
    requires DOT !in part
    ensures Split(part) == [part]
    ensures Split(part + [DOT] + text) == [part] + Split(text)
  {
    if part == [] {
      assert (part + [DOT] + text)[1..] == text;
    } else {
      SplitPart(part[1..], text);
      assert (part + [DOT] + text)[1..] == part[1..] + [DOT] + text;
      assert [part[0]] + part[1..] == part;
    }
  }

  lemma {:induction false} SplitJoin(parts: seq<Octets>)
    requires parts != []
    requires forall i :: 0 <= i < |parts| ==> DOT !in parts[i]
    ensures Split(Join(parts)) == parts
  {
    if |parts| == 1 {
      SplitPart(parts[0], []);
    } else {
      SplitJoin(parts[1..]);
      SplitPart(parts[0], Join(parts[1..]));
    }
  }

  function PrintParts(oid: OID): (parts: seq<Octets>)
    ensures |parts| == |oid|
    ensures forall i :: 0 <= i < |oid| ==> parts[i] == Decimal(oid[i])
  {
    seq(|oid|, i requires 0 <= i < |oid| => Decimal(oid[i]))
  }

  function Print(oid: OID): (text: Octets) {
    Join(PrintParts(oid))
  }

  function ParseParts(parts: seq<Octets>): (r: Result<OID>) {
    if parts == [] then Ok([])
    else
      var first :- ParseUint(parts[0]);
      var rest :- ParseParts(parts[1..]);
      Ok([first] + rest)
  }

  lemma {:induction false} ParsePartsEach(parts: seq<Octets>)
    ensures var r := ParseParts(parts);
            && (r.Ok? <==> forall i :: 0 <= i < |parts| ==> ParseUint(parts[i]).Ok?)
            && (r.Ok? ==> |r.value| == |parts|)
            && (r.Ok? ==> forall i :: 0 <= i < |parts| ==> r.value[i] == ParseUint(parts[i]).value)
  {
    if parts != [] {
      ParsePartsEach(parts[1..]);
      assert parts == [parts[0]] + parts[1..];
    }
  }

  function Parse(text: Octets): (r: Result<OID>) {
    ParseParts(Split(text))
  }

  /** No part of the dotted text has a superfluous leading zero. */
  predicate Canonical(text: Octets) {
    forall part :: part in Split(text) ==> CanonicalPart(part)
  }

  lemma PrintSplits(oid: OID)
    requires oid != []
    ensures Split(Print(oid)) == PrintParts(oid)
  {
    var parts := PrintParts(oid);
    forall i | 0 <= i < |parts|
      ensures DOT !in parts[i]
    {
      assert Digits(Decimal(oid[i]));
    }
    SplitJoin(parts);
  }

  /** Parsing the printed form of a non-empty OID gives it back; the empty one has no text. */
  lemma ParsePrint(oid: OID)
    ensures oid != [] ==> Parse(Print(oid)) == Ok(oid) && Canonical(Print(oid))
    ensures oid == [] ==> Parse(Print(oid)) == Err
  {
    if oid == [] {
      assert Split([]) == [[]];
      assert ParseUint(Split([])[0]) == Err;
    } else {
      PrintSplits(oid);
      forall i | 0 <= i < |oid|
        ensures ParseUint(PrintParts(oid)[i]) == Ok(oid[i]) && CanonicalPart(PrintParts(oid)[i])
      {
        DecimalIsParsed(oid[i]);
      }
      ParsePartsEach(PrintParts(oid));
      assert Parse(Print(oid)).value == oid;
    }
  }

  lemma PrintInjective(a: OID, b: OID)
    requires Print(a) == Print(b)
    ensures a == b
  {
    ParsePrint(a);
    ParsePrint(b);
  }

  /** Printing a successful parse gives the text back exactly when the text is canonical. */
  lemma PrintParse(text: Octets)
    requires Parse(text).Ok?
    ensures Parse(text).value != []
    ensures Print(Parse(text).value) == text <==> Canonical(text)
  {
    var oid := Parse(text).value;
    var parts := Split(text);
    ParsePartsEach(parts);
    if Canonical(text) {
      forall i | 0 <= i < |parts|
        ensures PrintParts(oid)[i] == parts[i]
      {
        assert ParseUint(parts[i]).Ok?;
        CanonicalIsPrinted(parts[i]);
      }
      assert PrintParts(oid) == parts;
      JoinSplit(text);
    } else {
      ParsePrint(oid);
    }
  }

  /** The digits are those of ASCII, and the dot is too. */
  lemma TextNumbers(d: nat)
    requires d < 10
    ensures Decimal(d) == [48 + d]
    ensures Split([46]) == [[], []]
  {
    assert [DOT][1..] == [];
  }

  /** "01" parses as the OID 1, which prints as "1". */
  lemma LeadingZeroExample()
    ensures Parse([ZERO, ZERO + 1]) == Ok([1])
    ensures Print([1]) == [ZERO + 1]
    ensures !Canonical([ZERO, ZERO + 1])
  {
    var text: Octets := [ZERO, ZERO + 1];
    SplitPart(text, []);
    assert text[..1] == [ZERO] && DigitsValue([ZERO]) == 0;
    assert ParseUint(text) == Ok(1);
    var one: OID := [1];
    assert one + [] == one;
    assert ParseParts([text]) == Ok(one);
    assert PrintParts([1]) == [Decimal(1)];
    assert text in Split(text);
  }

  method ParseOID(text: Octets) returns (r: Result<OID>)
    ensures r == Parse(text)
  {
    var parts := Split(text);
    ParsePartsEach(parts);
    var result: OID := [];
    var i := 0;
    while i < |parts|
      invariant 0 <= i <= |parts| && |result| == i
      invariant forall k :: 0 <= k < i ==> ParseUint(parts[k]) == Ok(result[k])
    {
      var subidentifier := ParseUint(parts[i]);
      if subidentifier.Err? {
        return Err;
      }
      result := result + [subidentifier.value];
      i := i + 1;
    }
    assert Parse(text).value == result;
    r := Ok(result);
  }

  method String(oid: OID) returns (text: Octets)
    ensures text == Print(oid)
  {
    var parts: seq<Octets> := [];
    var i := 0;
    while i < |oid|
      invariant 0 <= i <= |oid| && |parts| == i
      invariant forall k :: 0 <= k < i ==> parts[k] == Decimal(oid[k])
    {
      parts := parts + [Decimal(oid[i])];
      i := i + 1;
    }
    assert parts == PrintParts(oid);
    text := Join(parts);
  }
}
