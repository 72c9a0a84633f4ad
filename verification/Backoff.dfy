/** The retry delay of the daemon loop (internal/daemon/loop.go, backoff), on 64-bit
    durations that wrap. */
module Backoff {
  import opened Int64
  import opened Powers

  type Duration = int64

  /** `n` rounds of doubling, stopping at or above `max`. */
  function Grow(delay: Duration, max: Duration, n: nat): Duration
    decreases n
  {
    if n == 0 || delay >= max then delay else Grow(Wrap(delay * 2), max, n - 1)
  }

  function Cap(delay: Duration, max: Duration): Duration {
    if delay > max then max else delay
  }

  function Delay(min: Duration, max: Duration, fails: nat): Duration {
    Cap(Grow(min, max, if fails == 0 then 0 else fails - 1), max)
  }

  method Compute(min: Duration, max: Duration, fails: nat) returns (delay: Duration)
    ensures delay == Delay(min, max, fails)
  {
    ghost var rounds := if fails == 0 then 0 else fails - 1;
    delay := min;
    var i := 1;
    while i < fails && delay < max
      invariant 1 <= i <= rounds + 1
      invariant Grow(min, max, rounds) == Grow(delay, max, rounds + 1 - i)
    {
      delay := Wrap(delay * 2);
      i := i + 1;
    }
    if delay > max {
      delay := max;
    }
  }

  // ---------------------------------------------------------------------------
  // When the delay is the capped power of two
  // ---------------------------------------------------------------------------

  function Ideal(min: Duration, max: Duration, fails: nat): int
    requires fails >= 1
  {
    var d := min * Pow2(fails - 1);
    if d > max then max else d
  }

  /** The last doubling of `min` that fits 64 bits, and the number of doublings it takes. */
  function Top(min: Duration): (t: Duration)
    requires min >= 1
    ensures t >= min && t * 2 > MAX_INT64
    decreases MAX_INT64 - min
  {
    if min * 2 > MAX_INT64 then min else Top(min * 2)
  }

  ghost function Doublings(min: Duration): nat
    requires min >= 1
    decreases MAX_INT64 - min
  {
    if min * 2 > MAX_INT64 then 0 else 1 + Doublings(min * 2)
  }

  lemma WrapFits(d: Duration)
    requires 1 <= d
    ensures d * 2 <= MAX_INT64 ==> Wrap(d * 2) == d * 2
    ensures d * 2 > MAX_INT64 ==> Wrap(d * 2) < 0
  {}

  ghost function Scaled(d: int, n: nat): int { d * Pow2(n) }

  lemma ScaledNext(d: nat, n: nat)
    ensures Scaled(d, 0) == d && Scaled(d, n) >= d
    ensures n >= 1 ==> Scaled(d, n) == Scaled(d * 2, n - 1)
  {}

  lemma {:induction false} GrowExact(delay: Duration, max: Duration, n: nat)
    requires 1 <= delay && 1 <= max <= Top(delay)
    ensures Cap(Grow(delay, max, n), max) == if Scaled(delay, n) > max then max else Scaled(delay, n)
    decreases n
  {
    hide Wrap, Scaled;
    ScaledNext(delay, n);
    if n > 0 && delay < max {
      WrapFits(delay);
      GrowExact(delay * 2, max, n - 1);
    }
  }

  lemma AtLeastOnce(a: nat, p: nat)
    requires p >= 1
    ensures a * p >= a
  {}

  lemma {:induction false} GrowOverflows(delay: Duration, max: Duration)
    requires 1 <= delay && max > Top(delay)
    ensures Grow(delay, max, Doublings(delay) + 1) < 0
    decreases MAX_INT64 - delay
  {
    hide Wrap;
    WrapFits(delay);
    if delay * 2 > MAX_INT64 {
      assert Grow(delay, max, 1) == Grow(Wrap(delay * 2), max, 0);
    } else {
      GrowOverflows(delay * 2, max);
    }
  }

  /** Every delay is min(max, min * 2^(fails-1)) exactly when `max` is at most the last
      doubling of `min` that fits 64 bits. */
  lemma DelayExact(min: Duration, max: Duration)
    requires min >= 1 && max >= 1
    ensures (forall fails: nat :: fails >= 1 ==> Delay(min, max, fails) == Ideal(min, max, fails)) <==> max <= Top(min)
  {
    if max <= Top(min) {
      forall fails: nat | fails >= 1
        ensures Delay(min, max, fails) == Ideal(min, max, fails)
      {
        GrowExact(min, max, fails - 1);
      }
    } else {
      var fails := Doublings(min) + 2;
      GrowOverflows(min, max);
      AtLeastOnce(min, Pow2(fails - 1));
      assert Delay(min, max, fails) != Ideal(min, max, fails);
    }
  }

  /** Under that bound a delay is positive, at most `max`, and never shrinks as failures
      accumulate. */
  lemma DelayMonotone(min: Duration, max: Duration, fails: nat, more: nat)
    requires 1 <= min && 1 <= max <= Top(min) && 1 <= fails <= more
    ensures 1 <= Delay(min, max, fails) <= Delay(min, max, more) <= max
  {
    GrowExact(min, max, fails - 1);
    GrowExact(min, max, more - 1);
    Pow2Mono(fails - 1, more - 1);
    Scale(min, Pow2(fails - 1), Pow2(more - 1));
    AtLeastOnce(min, Pow2(fails - 1));
  }

  lemma Scale(a: nat, p: nat, q: nat)
    requires p <= q
    ensures a * p <= a * q
  {}
}
