/** Go's 64-bit integers, whose sums wrap. */
module Int64 {

  const MAX_INT64 := 0x7fff_ffff_ffff_ffff

  type int64 = x: int | -0x8000_0000_0000_0000 <= x <= MAX_INT64

  /** The number in range that differs from `x` by a multiple of 2^64. */
  function Wrap(x: int): int64 {
    var m := x % 0x1_0000_0000_0000_0000;
    if m <= MAX_INT64 then m else m - 0x1_0000_0000_0000_0000
  }

  lemma InRange(x: int64)
    ensures Wrap(x) == x
  {}

  lemma WrapShift(x: int, k: int)
    ensures Wrap(x - k * 0x1_0000_0000_0000_0000) == Wrap(x)
  {
    var n := 0x1_0000_0000_0000_0000;
    var q, r := x / n, x % n;
    assert x - k * n == (q - k) * n + r && 0 <= r < n;
    assert (x - k * n) % n == r;
  }

  lemma WrapIs(x: int) returns (k: int)
    ensures Wrap(x) == x - k * 0x1_0000_0000_0000_0000
  {
    var n := 0x1_0000_0000_0000_0000;
    k := if x % n <= MAX_INT64 then x / n else x / n + 1;
  }

  /** Wrapping a term first does not change where a sum ends up. */
  lemma WrapTerm(x: int, y: int)
    ensures Wrap(Wrap(x) + y) == Wrap(x + y)
  {
    hide Wrap;
    var k := WrapIs(x);
    WrapShift(x + y, k);
  }
}
