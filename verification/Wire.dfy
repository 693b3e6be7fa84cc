/** Fixed-width integers, the two byte orders of an AgentX PDU, and results. */
module Wire {

  type byte = x: int | 0 <= x < 0x100
  type u16 = x: int | 0 <= x < 0x1_0000
  type u32 = x: int | 0 <= x < 0x1_0000_0000
  type u64 = x: int | 0 <= x < 0x1_0000_0000_0000_0000
  type i32 = x: int | -0x8000_0000 <= x < 0x8000_0000
  type i64 = x: int | -0x8000_0000_0000_0000 <= x < 0x8000_0000_0000_0000

  const TWO32 := 0x1_0000_0000

  /** A Go string or byte slice. */
  type Octets = seq<byte>

  datatype Option<+T> = None | Some(value: T)

  /** The outcome of a call that returns a value and an `error`; the message is not modelled. */
  datatype Result<+T> = Ok(value: T) | Err {
    predicate IsFailure() {
      Err?
    }
    function PropagateFailure<U>(): Result<U>
      requires Err?
    {
      Err
    }
    function Extract(): T
      requires Ok?
    {
      value
    }
  }

  ghost predicate NoDuplicates<T>(s: seq<T>) {
    forall i, j :: 0 <= i < j < |s| ==> s[i] != s[j]
  }

  /** Puts what is already built in front of the rest, if there is a rest. */
  function Prepend<T>(front: seq<T>, r: Result<seq<T>>): (p: Result<seq<T>>) {
    if r.Err? then Err else Ok(front + r.value)
  }

  lemma PrependEmpty<T>(r: Result<seq<T>>)
    ensures Prepend([], r) == r
  {
    assert r.Ok? ==> [] + r.value == r.value;
  }

  lemma PrependAssociative<T>(a: seq<T>, b: seq<T>, r: Result<seq<T>>)
    ensures Prepend(a, Prepend(b, r)) == Prepend(a + b, r)
  {
    assert r.Ok? ==> a + (b + r.value) == a + b + r.value;
  }

  /** Two pieces and what follows them. */
  lemma ThreeParts(a: Octets, b: Octets, c: Octets)
    ensures a + b + c == a + (b + c)
    ensures (a + (b + c))[|a|..] == b + c
  {
  }

  lemma WordsAlign(n: nat, words: nat)
    requires n == 4 * words
    ensures n % 4 == 0
  {
  }

  /** Results each of which puts one item in front of the next. */
  lemma {:induction false} PrependChain<T>(rs: seq<Result<seq<T>>>, items: seq<T>, n: nat)
    requires |rs| == |items| + 1 && n <= |items|
    requires forall i :: 0 <= i < |items| ==> rs[i] == Prepend([items[i]], rs[i + 1])
    ensures rs[0] == Prepend(items[..n], rs[n])
  {
    if n == 0 {
      PrependEmpty(rs[0]);
      assert items[..0] == [];
    } else {
      PrependChain(rs, items, n - 1);
      PrependAssociative(items[..n - 1], [items[n - 1]], rs[n]);
      assert items[..n] == items[..n - 1] + [items[n - 1]];
    }
  }

  /** Little-endian, or the network byte order of section 6.1 of RFC 2741. */
  datatype Order = Little | Big

  ghost function Pow256(n: nat): (p: nat)
    ensures p > 0
  {
    if n == 0 then 1 else 256 * Pow256(n - 1)
  }

  lemma Pow256Widths()
    ensures Pow256(2) == 0x1_0000
    ensures Pow256(4) == TWO32
    ensures Pow256(8) == 0x1_0000_0000_0000_0000
  {
    assert Pow256(4) == 256 * (256 * (256 * (256 * Pow256(0))));
    assert Pow256(8) == 256 * (256 * (256 * (256 * Pow256(4))));
  }

  /** The low `n` octets of `x`. */
  function Put(x: nat, n: nat, order: Order): (s: Octets)
    ensures |s| == n
    decreases n
  {
    if n == 0 then []
    else if order == Little then [x % 256] + Put(x / 256, n - 1, order)
    else Put(x / 256, n - 1, order) + [x % 256]
  }

  function Get(s: Octets, order: Order): (x: nat)
    ensures x < Pow256(|s|)
    decreases |s|
  {
    if s == [] then 0
    else if order == Little then s[0] + 256 * Get(s[1..], order)
    else s[|s| - 1] + 256 * Get(s[..|s| - 1], order)
  }

  lemma {:induction false} GetPut(x: nat, n: nat, order: Order)
    requires x < Pow256(n)
    ensures Get(Put(x, n, order), order) == x
    decreases n
  {
    if n > 0 {
      GetPut(x / 256, n - 1, order);
      var s := Put(x, n, order);
      if order == Little {
        assert s[1..] == Put(x / 256, n - 1, order);
      } else {
        assert s[..n - 1] == Put(x / 256, n - 1, order);
      }
    }
  }

  lemma {:induction false} PutGet(s: Octets, order: Order)
    ensures Put(Get(s, order), |s|, order) == s
    decreases |s|
  {
    if s != [] {
      if order == Little {
        PutGet(s[1..], order);
        PutOctet(s[0], Get(s[1..], order), |s| - 1);
      } else {
        var n := |s| - 1;
        PutGet(s[..n], order);
        PutOctet(s[n], Get(s[..n], order), n);
      }
    }
  }

  lemma PutOctet(low: byte, high: nat, n: nat)
    ensures Put(low + 256 * high, n + 1, Little) == [low] + Put(high, n, Little)
    ensures Put(low + 256 * high, n + 1, Big) == Put(high, n, Big) + [low]
  {
    LowOctet(low, high);
  }

  lemma LowOctet(low: byte, high: nat)
    ensures (low + 256 * high) % 256 == low && (low + 256 * high) / 256 == high
  {
  }

  /** `order.Uint16`, `order.Uint32` and `order.Uint64` on the front of a buffer. */
  function Get16(data: Octets, order: Order): (x: u16)
    requires |data| >= 2
  {
    Pow256Widths();
    Get(data[..2], order)
  }

  function Get32(data: Octets, order: Order): (x: u32)
    requires |data| >= 4
  {
    Pow256Widths();
    Get(data[..4], order)
  }

  function Get64(data: Octets, order: Order): (x: u64)
    requires |data| >= 8
  {
    Pow256Widths();
    Get(data[..8], order)
  }

  /** Reading an integer back off the front of a buffer gives the integer written there. */
  lemma GetPutFront(x: nat, n: nat, order: Order, rest: Octets)
    requires x < Pow256(n)
    ensures (Put(x, n, order) + rest)[..n] == Put(x, n, order)
    ensures (Put(x, n, order) + rest)[n..] == rest
    ensures Get((Put(x, n, order) + rest)[..n], order) == x
  {
    GetPut(x, n, order);
  }

  lemma Get16Put(x: u16, order: Order, rest: Octets)
    ensures Get16(Put(x, 2, order) + rest, order) == x
  {
    Pow256Widths();
    GetPutFront(x, 2, order, rest);
  }

  lemma Get32Put(x: u32, order: Order, rest: Octets)
    ensures Get32(Put(x, 4, order) + rest, order) == x
    ensures (Put(x, 4, order) + rest)[4..] == rest
  {
    Pow256Widths();
    GetPutFront(x, 4, order, rest);
  }

  lemma Get64Put(x: u64, order: Order, rest: Octets)
    ensures Get64(Put(x, 8, order) + rest, order) == x
  {
    Pow256Widths();
    GetPutFront(x, 8, order, rest);
  }

  /** The number's octets are the same in both orders. */
  predicate Symmetric(x: nat, n: nat) {
    Put(x, n, Little) == Put(x, n, Big)
  }

  /** A little-endian number read as a big-endian one. */
  function Swap16(x: u16): (y: u16) {
    Get16(Put(x, 2, Little), Big)
  }

  function Swap32(x: u32): (y: u32) {
    Get32(Put(x, 4, Little), Big)
  }

  lemma SwapIsSymmetric(x: nat, n: nat)
    requires x < Pow256(n)
    ensures Get(Put(x, n, Little), Big) == x <==> Symmetric(x, n)
  {
    PutGet(Put(x, n, Little), Big);
    GetPut(x, n, Big);
  }

  lemma Swap16Fixes(x: u16)
    ensures Swap16(x) == x <==> Symmetric(x, 2)
  {
    Pow256Widths();
    assert Put(x, 2, Little)[..2] == Put(x, 2, Little);
    SwapIsSymmetric(x, 2);
  }

  lemma Swap32Fixes(x: u32)
    ensures Swap32(x) == x <==> Symmetric(x, 4)
  {
    Pow256Widths();
    assert Put(x, 4, Little)[..4] == Put(x, 4, Little);
    SwapIsSymmetric(x, 4);
  }

  lemma Get16Swapped(x: u16, rest: Octets)
    ensures Get16(Put(x, 2, Little) + rest, Big) == Swap16(x)
  {
    assert (Put(x, 2, Little) + rest)[..2] == Put(x, 2, Little)[..2];
  }

  lemma Get32Swapped(x: u32, rest: Octets)
    ensures Get32(Put(x, 4, Little) + rest, Big) == Swap32(x)
    ensures (Put(x, 4, Little) + rest)[4..] == rest
  {
    assert (Put(x, 4, Little) + rest)[..4] == Put(x, 4, Little)[..4];
  }

  /** Go's conversion between `int32` and `uint32`. */
  function ToUint32(x: int): (r: u32) {
    x % TWO32
  }

  function ToInt32(x: u32): (r: i32)
    ensures ToUint32(r) == x
  {
    if x < 0x8000_0000 then x else x - TWO32
  }

  /** Go's integer division, which truncates towards zero. */
  function TruncDiv(x: int, y: int): (q: int)
    requires y > 0
    ensures x >= 0 ==> q * y <= x < q * y + y && q >= 0
    ensures x < 0 ==> q * y - y < x <= q * y && q <= 0
  {
    if x >= 0 then x / y else -((-x) / y)
  }

  function Zeros(n: nat): (s: Octets)
    ensures |s| == n
  {
    seq(n, _ => 0)
  }
}
