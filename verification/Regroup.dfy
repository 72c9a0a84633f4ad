/** Regrouping a byte string into symbols of another width
    (internal/crypto/rootkey.go, bech32ConvertBits). */
module Regroup {
  import opened Powers
  import opened Wrappers

  type byte = x: int | 0 <= x < 256

  datatype Error = ValueOutOfRange

  /** The number whose base-2^width digits, most significant first, are `s`. */
  ghost function Value(s: seq<byte>, width: nat): nat {
    if s == [] then 0 else Value(s[..|s| - 1], width) * Pow2(width) + s[|s| - 1]
  }

  ghost predicate Digits(s: seq<byte>, width: nat) {
    forall i :: 0 <= i < |s| ==> s[i] < Pow2(width)
  }

  // ---------------------------------------------------------------------------
  // Arithmetic of powers of two
  // ---------------------------------------------------------------------------

  lemma MulAtLeast(k: int, d: nat)
    ensures k >= 1 ==> k * d >= d
    ensures k <= -1 ==> k * d <= 0 - d
  {}

  lemma Quotient(n: nat, d: nat)
    requires d >= 1
    ensures n / d >= 0 && (n / d == 0 <==> n < d)
  {}

  lemma DivModUnique(n: nat, q: nat, r: nat, d: nat)
    requires n == q * d + r && r < d
    ensures n / d == q && n % d == r
  {
    var k := n / d - q;
    assert k * d == n / d * d - q * d;
    MulAtLeast(k, d);
  }

  /** A two-digit number with digits below `p` and `q` is below `p * q`. */
  lemma TwoDigits(hi: nat, lo: nat, p: nat, q: nat)
    requires hi < p && lo < q
    ensures hi * q + lo < p * q
  {
    MulAtLeast(p - hi, q);
    assert (p - hi) * q == p * q - hi * q;
  }

  lemma Carry(hi: int, mid: int, p: int, q: int, d: int)
    requires d == q * p
    ensures hi * d + mid * p == (hi * q + mid) * p
  {}

  lemma DivModIs(n: nat, d: nat)
    requires d >= 1
    ensures n == n / d * d + n % d && n % d < d && n / d >= 0
  {}

  lemma LowestPart(x: nat, hi: nat, mid: nat, low: nat, p: nat, q: nat, d: nat)
    requires x == hi * d + (mid * p + low) && d == q * p && low < p
    ensures x % p == low
  {
    Carry(hi, mid, p, q, d);
    assert x == (hi * q + mid) * p + low;
    DivModUnique(x, hi * q + mid, low, p);
  }

  /** Dropping high digits first does not change the low ones. */
  lemma ModMod(x: nat, p: nat, q: nat, d: nat)
    requires p >= 1 && q >= 1 && d == q * p && d >= 1
    ensures x % d % p == x % p
  {
    DivModIs(x, d);
    DivModIs(x % d, p);
    LowestPart(x, x / d, x % d / p, x % d % p, p, q, d);
  }

  /** The low two digits of a three-digit number with digits `hi`, `mid`, `low`. */
  lemma LowDigits(acc: nat, q: nat, hi: nat, mid: nat, low: nat, b: nat, t: nat, d: nat)
    requires acc == q * b + low && q == hi * t + mid && low < b && mid < t && d == t * b
    ensures d >= 1 && acc % d == mid * b + low
  {
    TwoDigits(mid, low, t, b);
    assert q * b == hi * d + mid * b by {
      Carry(hi, mid, b, t, d);
    }
    DivModUnique(acc, hi, mid * b + low, d);
  }

  /** Splitting the digit below `t` above the low part below `b`. */
  lemma SplitMod(acc: nat, b: nat, t: nat, d: nat)
    requires b >= 1 && t >= 1 && d == t * b && d >= 1
    ensures acc % d == acc / b % t * b + acc % b
  {
    var q := acc / b;
    LowDigits(acc, q, q / t, q % t, acc % b, b, t, d);
  }

  lemma ScaleMod(acc: nat, b: nat, f: nat, d: nat)
    requires b >= 1 && f >= 1 && d == b * f && d >= 1
    ensures acc * f % d == acc % b * f
  {
    LowDigits(acc * f, acc, acc / b, acc % b, 0, f, b, d);
  }

  lemma AddBelow(x: nat, v: nat, d: nat)
    requires d >= 1 && x % d + v < d
    ensures (x + v) % d == x % d + v
  {
    DivModUnique(x + v, x / d, x % d + v, d);
  }

  /** Shifting a digit into the low part of an accumulator that wraps at w * d. */
  lemma ShiftInMod(acc: nat, v: nat, b: nat, f: nat, d: nat, w: nat, m: nat)
    requires b >= 1 && v < f && d == b * f && d >= 1 && w >= 1 && m == w * d && m >= 1
    ensures (acc * f % m + v) % d == acc % b * f + v
  {
    ScaleMod(acc, b, f, d);
    ModMod(acc * f, d, w, m);
    TwoDigits(acc % b, v, b, f);
    AddBelow(acc * f % m, v, d);
  }

  /** Shifting in `v` below the low `bits` bits of an accumulator that wraps at 2^32. */
  lemma ShiftIn(acc: nat, v: nat, bits: nat, from: nat)
    requires v < Pow2(from) && bits + from <= 32
    ensures (acc * Pow2(from) % Pow2(32) + v) % Pow2(bits + from) == acc % Pow2(bits) * Pow2(from) + v
  {
    hide Pow2;
    Pow2Add(bits, from);
    Pow2Add(32 - bits - from, bits + from);
    ShiftInMod(acc, v, Pow2(bits), Pow2(from), Pow2(bits + from), Pow2(32 - bits - from), Pow2(32));
  }

  /** The low `bits + to` bits are the next `to`-bit digit and the low `bits` bits. */
  lemma TakeOut(acc: nat, bits: nat, to: nat)
    ensures acc % Pow2(bits + to) == acc / Pow2(bits) % Pow2(to) * Pow2(bits) + acc % Pow2(bits)
  {
    Pow2Add(to, bits);
    SplitMod(acc, Pow2(bits), Pow2(to), Pow2(bits + to));
  }

  // ---------------------------------------------------------------------------
  // The conversion
  // ---------------------------------------------------------------------------

  /** `out` are the digits of `data` at width `to`: with padding the last digit is filled
      with zero bits, without it the bits that do not fill a digit are dropped. */
  ghost predicate Regrouped(data: seq<byte>, from: nat, out: seq<byte>, to: nat, pad: bool)
    requires to >= 1
  {
    var have, got := BitCount(|data|, from), BitCount(|out|, to);
    && Digits(out, to)
    && if pad
       then have <= got < have + to && Value(out, to) == Value(data, from) * Pow2(got - have)
       else got <= have < got + to && Value(out, to) == Value(data, from) / Pow2(have - got)
  }

  lemma ModAtMost(x: nat, d: nat)
    requires d >= 1
    ensures x % d <= x
  {}

  lemma MaskLow(x: nat, to: nat)
    requires to <= 8
    ensures x % 256 % Pow2(to) == x % Pow2(to) < 256
  {
    assert Pow2(8) == 256;
    hide Pow2;
    Pow2Add(8 - to, to);
    ModMod(x, Pow2(to), Pow2(8 - to), 256);
    ModAtMost(x % 256, Pow2(to));
  }

  /** The byte conversion followed by the mask of the low `to` bits. */
  function MaskedByte(x: nat, to: nat): (b: byte)
    requires to <= 8
    ensures b == x % Pow2(to)
  {
    MaskLow(x, to);
    x % 256 % Pow2(to)
  }

  lemma EmptyValue(width: nat)
    ensures Value([], width) == 0
  {}

  lemma ValueSnoc(s: seq<byte>, b: byte, width: nat)
    ensures Value(s + [b], width) == Value(s, width) * Pow2(width) + b
  {}

  /** A 32-bit word shifted left, wrapping, and shifted right. */
  function Shl(w: nat, k: nat): (r: nat) { w * Pow2(k) % Pow2(32) }

  function Shr(w: nat, k: nat): (r: nat) {
    Quotient(w, Pow2(k));
    w / Pow2(k)
  }

  /** The digits written so far and the low `bits` bits of the accumulator are the
      number read so far. */
  ghost predicate Holds(read: nat, written: nat, acc: nat, bits: nat) {
    read == written * Pow2(bits) + acc % Pow2(bits)
  }

  ghost function BitCount(digits: nat, width: nat): nat { digits * width }

  lemma NoBits(width: nat)
    ensures BitCount(0, width) == 0
  {}

  lemma Pow2Zero()
    ensures Pow2(0) == 1
  {}

  lemma Fits(n: nat, width: nat)
    ensures Shr(n, width) == 0 <==> n < Pow2(width)
  {
    Quotient(n, Pow2(width));
  }

  lemma BitCountNext(digits: nat, width: nat)
    ensures BitCount(digits + 1, width) == BitCount(digits, width) + width
  {}

  lemma AbsorbDigit(read: nat, written: nat, acc: nat, digit: nat, bits: nat, from: nat)
    requires digit < Pow2(from) && bits + from <= 32 && Holds(read, written, acc, bits)
    ensures Holds(read * Pow2(from) + digit, written, Shl(acc, from) + digit, bits + from)
  {
    hide Pow2;
    ShiftIn(acc, digit, bits, from);
    Pow2Add(bits, from);
    Carry(written, acc % Pow2(bits), Pow2(from), Pow2(bits), Pow2(bits + from));
  }

  lemma Emit(read: nat, written: nat, digit: nat, low: nat, b: nat, t: nat, d: nat)
    requires d == t * b && read == written * d + (digit * b + low)
    ensures read == (written * t + digit) * b + low
  {}

  lemma EmitDigit(read: nat, written: nat, acc: nat, bits: nat, to: nat)
    requires Holds(read, written, acc, bits + to)
    ensures Holds(read, written * Pow2(to) + Shr(acc, bits) % Pow2(to), acc, bits)
  {
    hide Pow2;
    TakeOut(acc, bits, to);
    Pow2Add(to, bits);
    Emit(read, written, acc / Pow2(bits) % Pow2(to), acc % Pow2(bits), Pow2(bits), Pow2(to), Pow2(bits + to));
  }

  lemma PadDigit(read: nat, written: nat, acc: nat, bits: nat, to: nat)
    requires 0 < bits <= to <= 8 && Holds(read, written, acc, bits)
    ensures written * Pow2(to) + Shl(acc, to - bits) % Pow2(to) == read * Pow2(to - bits)
  {
    hide Pow2;
    var gap := Pow2(to - bits);
    Pow2Add(bits, to - bits);
    Pow2Add(32 - to, to);
    ModMod(acc * gap, Pow2(to), Pow2(32 - to), Pow2(32));
    ScaleMod(acc, Pow2(bits), gap, Pow2(to));
    Carry(written, acc % Pow2(bits), gap, Pow2(bits), Pow2(to));
  }

  lemma NothingPending(read: nat, written: nat, acc: nat)
    ensures Holds(read, written, acc, 0) <==> read == written
  {}

  lemma DropPending(read: nat, written: nat, acc: nat, bits: nat)
    requires Holds(read, written, acc, bits)
    ensures read / Pow2(bits) == written
  {
    DivModUnique(read, written, acc % Pow2(bits), Pow2(bits));
  }

  /** The accumulator is a 32-bit word that wraps; it is never masked. The or of the
      shifted accumulator with a digit below 2^from is their sum, since the low `from`
      bits of the shifted word are zero. */
  method ConvertBits(data: seq<byte>, from: nat, to: nat, pad: bool) returns (r: Result<seq<byte>, Error>)
    requires 1 <= from <= 8 && 1 <= to <= 8
    ensures r.Failure? <==> !Digits(data, from)
    ensures r.Success? ==> Regrouped(data, from, r.value, to, pad)
  {
    hide Pow2, Holds, BitCount, Shl, Shr, Value;
    var out: seq<byte> := [];
    var acc: nat, bits: nat := 0, 0;
    NothingPending(0, 0, acc);
    EmptyValue(from);
    EmptyValue(to);
    NoBits(from);
    NoBits(to);
    for n := 0 to |data|
      invariant bits < to && BitCount(|out|, to) + bits == BitCount(n, from)
      invariant Digits(data[..n], from) && Digits(out, to)
      invariant Holds(Value(data[..n], from), Value(out, to), acc, bits)
    {
      var value := data[n];
      Fits(value, from);
      if Shr(value, from) != 0 {
        return Failure(ValueOutOfRange);
      }
      assert data[..n + 1] == data[..n] + [value];
      ValueSnoc(data[..n], value, from);
      AbsorbDigit(Value(data[..n], from), Value(out, to), acc, value, bits, from);
      acc := Shl(acc, from) + value;
      bits := bits + from;
      BitCountNext(n, from);
      while bits >= to
        invariant bits <= 15 && BitCount(|out|, to) + bits == BitCount(n + 1, from) && Digits(out, to)
        invariant Holds(Value(data[..n + 1], from), Value(out, to), acc, bits)
      {
        bits := bits - to;
        EmitDigit(Value(data[..n + 1], from), Value(out, to), acc, bits, to);
        var b := MaskedByte(Shr(acc, bits), to);
        ValueSnoc(out, b, to);
        BitCountNext(|out|, to);
        out := out + [b];
      }
    }
    assert data[..|data|] == data;
    if pad && bits > 0 {
      PadDigit(Value(data, from), Value(out, to), acc, bits, to);
      var b := MaskedByte(Shl(acc, to - bits), to);
      ValueSnoc(out, b, to);
      BitCountNext(|out|, to);
      out := out + [b];
    } else if pad {
      NothingPending(Value(data, from), Value(out, to), acc);
      Pow2Zero();
    } else {
      DropPending(Value(data, from), Value(out, to), acc, bits);
    }
    return Success(out);
  }

  // ---------------------------------------------------------------------------
  // Regrouping there and back
  // ---------------------------------------------------------------------------

  lemma {:induction false} ValueInjective(a: seq<byte>, b: seq<byte>, width: nat)
    requires |a| == |b| && Digits(a, width) && Digits(b, width)
    requires Value(a, width) == Value(b, width)
    ensures a == b
  {
    if a != [] {
      var n := |a| - 1;
      var v := Value(a, width);
      DivModUnique(v, Value(a[..n], width), a[n], Pow2(width));
      DivModUnique(v, Value(b[..n], width), b[n], Pow2(width));
      ValueInjective(a[..n], b[..n], width);
      assert a == a[..n] + [a[n]] && b == b[..n] + [b[n]];
    }
  }

  /** At most one sequence is the regrouping of `data`. */
  lemma RegroupedUnique(data: seq<byte>, from: nat, a: seq<byte>, b: seq<byte>, to: nat, pad: bool)
    requires to >= 1 && Regrouped(data, from, a, to, pad) && Regrouped(data, from, b, to, pad)
    ensures a == b
  {
    MulAtLeast(|a| - |b|, to);
    assert (|a| - |b|) * to == |a| * to - |b| * to;
    ValueInjective(a, b, to);
  }

  /** Regrouping to a narrower width with padding is undone, and only undone to `data`,
      by regrouping back without padding. */
  lemma RoundTrip(data: seq<byte>, from: nat, mid: seq<byte>, to: nat, back: seq<byte>)
    requires 1 <= to <= from && Digits(data, from) && Regrouped(data, from, mid, to, true)
    ensures Regrouped(mid, to, back, from, false) <==> back == data
  {
    var p := BitCount(|mid|, to) - BitCount(|data|, from);
    DivModUnique(Value(mid, to), Value(data, from), 0, Pow2(p));
    if Regrouped(mid, to, back, from, false) {
      RegroupedUnique(mid, to, back, data, from, false);
    }
  }
}
