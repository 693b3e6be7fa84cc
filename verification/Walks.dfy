/** Walking over a list of self-delimiting items (pdu/variables.go, pdu/ranges.go). */
module Walks {
  import opened Wire

  /** One item off the front of the data, and how many octets it takes. */
  datatype Item<T> = Item(value: T, size: nat)

  type Reader<!T> = Octets -> Result<Item<T>>

  /** What is left of the data at an offset that may lie past its end. */
  function Rest(data: Octets, offset: nat): (rest: Octets) {
    if offset < |data| then data[offset..] else []
  }

  /** One step of a walk: an item lies between `offset` and `next`. */
  ghost predicate WalksOn<T>(read: Reader<T>, data: Octets, offset: nat, v: T, next: nat) {
    offset < |data| && offset < next && read(data[offset..]) == Ok(Item(v, next - offset))
  }

  /** The items are read one after another from the start of the data, each ending where `ends` says. */
  ghost predicate IsWalk<T>(read: Reader<T>, data: Octets, items: seq<T>, ends: seq<nat>) {
    && |ends| == |items| + 1 && ends[0] == 0
    && forall i :: 0 <= i < |items| ==> WalksOn(read, data, ends[i], items[i], ends[i + 1])
  }

  /** The walk cannot go on: the data is used up, or what is left does not parse. */
  ghost predicate Stops<T>(read: Reader<T>, data: Octets, offset: nat) {
    offset >= |data| || read(data[offset..]).Err?
  }

  lemma Goes<T>(read: Reader<T>, data: Octets, items: seq<T>, ends: seq<nat>, v: T, next: nat)
    requires IsWalk(read, data, items, ends) && WalksOn(read, data, ends[|items|], v, next)
    ensures IsWalk(read, data, items + [v], ends + [next])
  {
  }

  lemma SameStep<T>(read: Reader<T>, data: Octets, offset: nat, v: T, next: nat, w: T, after: nat)
    requires WalksOn(read, data, offset, v, next) && WalksOn(read, data, offset, w, after)
    ensures v == w && next == after
  {
  }

  lemma {:induction false} SameWalk<T>(read: Reader<T>, data: Octets, a: seq<T>, aEnds: seq<nat>,
                                       b: seq<T>, bEnds: seq<nat>, n: nat)
    requires IsWalk(read, data, a, aEnds) && IsWalk(read, data, b, bEnds) && n <= |a| && n <= |b|
    ensures aEnds[n] == bEnds[n] && a[..n] == b[..n]
  {
    if n > 0 {
      var m := n - 1;
      SameWalk(read, data, a, aEnds, b, bEnds, m);
      SameStep(read, data, aEnds[m], a[m], aEnds[m + 1], b[m], bEnds[m + 1]);
      assert a[..n] == a[..m] + [a[m]] && b[..n] == b[..m] + [b[m]];
    }
  }

  lemma NotYet<T>(read: Reader<T>, data: Octets, a: seq<T>, ends: seq<nat>, n: nat)
    requires IsWalk(read, data, a, ends) && n < |a|
    ensures !Stops(read, data, ends[n])
  {
    assert WalksOn(read, data, ends[n], a[n], ends[n + 1]);
  }

  /** The data decides how far a walk gets: two that cannot go on have the same items and the same end. */
  lemma WalkIsUnique<T>(read: Reader<T>, data: Octets, a: seq<T>, aEnds: seq<nat>, b: seq<T>, bEnds: seq<nat>)
    requires IsWalk(read, data, a, aEnds) && Stops(read, data, aEnds[|a|])
    requires IsWalk(read, data, b, bEnds) && Stops(read, data, bEnds[|b|])
    ensures a == b && aEnds[|a|] == bEnds[|b|]
  {
    var n := if |a| < |b| then |a| else |b|;
    if |a| < |b| {
      NotYet(read, data, b, bEnds, n);
    } else if |b| < |a| {
      NotYet(read, data, a, aEnds, n);
    }
    SameWalk(read, data, a, aEnds, b, bEnds, n);
    assert |a| == |b|;
    assert a[..n] == a && b[..n] == b;
  }

  // --------------------------------------------------------- whole lists

  /** What decoding a whole list comes to, given how the rest of it is decoded. */
  function Decoding<T>(read: Reader<T>, whole: Octets -> Result<seq<T>>, data: Octets): (r: Result<seq<T>>) {
    if data == [] then Ok([])
    else
      match read(data)
      case Ok(item) => Prepend([item.value], whole(Rest(data, item.size)))
      case Err => Err
  }

  /** `whole` decodes lists of what `read` reads. */
  ghost predicate Decodes<T(!new)>(read: Reader<T>, whole: Octets -> Result<seq<T>>) {
    forall data :: DecodesAt(read, whole, data)
  }

  ghost predicate DecodesAt<T>(read: Reader<T>, whole: Octets -> Result<seq<T>>, data: Octets) {
    whole(data) == Decoding(read, whole, data)
  }

  lemma RestOfRest(data: Octets, offset: nat, next: nat)
    requires offset < |data| && offset < next
    ensures Rest(data[offset..], next - offset) == Rest(data, next)
  {
    if next < |data| {
      assert data[offset..][next - offset..] == data[next..];
    }
  }

  lemma Step<T(!new)>(read: Reader<T>, whole: Octets -> Result<seq<T>>, data: Octets, offset: nat, v: T, next: nat)
    requires Decodes(read, whole) && WalksOn(read, data, offset, v, next)
    ensures whole(Rest(data, offset)) == Prepend([v], whole(Rest(data, next)))
  {
    RestOfRest(data, offset, next);
    assert DecodesAt(read, whole, data[offset..]);
  }

  lemma Stop<T(!new)>(read: Reader<T>, whole: Octets -> Result<seq<T>>, data: Octets, offset: nat)
    requires Decodes(read, whole) && Stops(read, data, offset)
    ensures whole(Rest(data, offset)) == if offset >= |data| then Ok([]) else Err
  {
    assert DecodesAt(read, whole, Rest(data, offset));
  }

  /** What the rest of the data decodes to, item by item. */
  ghost function Rests<T>(whole: Octets -> Result<seq<T>>, data: Octets, ends: seq<nat>): (rs: seq<Result<seq<T>>>)
    ensures |rs| == |ends|
    ensures forall i :: 0 <= i < |ends| ==> rs[i] == whole(Rest(data, ends[i]))
  {
    seq(|ends|, i requires 0 <= i < |ends| => whole(Rest(data, ends[i])))
  }

  lemma Chain<T(!new)>(read: Reader<T>, whole: Octets -> Result<seq<T>>, data: Octets, items: seq<T>, ends: seq<nat>)
    requires Decodes(read, whole) && IsWalk(read, data, items, ends)
    ensures whole(data) == Prepend(items, whole(Rest(data, ends[|items|])))
  {
    var rs := Rests(whole, data, ends);
    forall i | 0 <= i < |items|
      ensures rs[i] == Prepend([items[i]], rs[i + 1])
    {
      Step(read, whole, data, ends[i], items[i], ends[i + 1]);
    }
    PrependChain(rs, items, |items|);
    assert items[..|items|] == items && Rest(data, 0) == data;
  }

  lemma PrependLast<T>(items: seq<T>)
    ensures Prepend(items, Ok([])) == Ok(items)
  {
    assert items + [] == items;
  }

  /** A walk that cannot go on has decoded the list, if it got to the end, and otherwise the list does not decode. */
  lemma WalkDecides<T(!new)>(read: Reader<T>, whole: Octets -> Result<seq<T>>, data: Octets,
                             items: seq<T>, ends: seq<nat>)
    requires Decodes(read, whole) && IsWalk(read, data, items, ends) && Stops(read, data, ends[|items|])
    ensures whole(data) == if ends[|items|] >= |data| then Ok(items) else Err
  {
    Chain(read, whole, data, items, ends);
    Stop(read, whole, data, ends[|items|]);
    PrependLast(items);
  }
}
