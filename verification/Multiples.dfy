/** What the checksum of internal/crypto/rootkey.go does not see: exactly the multiples of its
    generator polynomial. */
module Multiples {
  import opened Polymod
  import opened Bech32

  /** The product of two elements of GF(32), as a symbol. */
  ghost function Scale(c: bv8, g: bv32): (r: bv8)
    requires g < 32
    ensures r < 32 && r as bv32 == GfMul(c as bv32, g)
  {
    ProductSmall(c as bv32, g, 5);
    Narrow(GfMul(c as bv32, g))
  }

  function Narrow(w: bv32): (r: bv8)
    requires w < 32
    ensures r < 32 && r as bv32 == w
  {
    (w & 31) as bv8
  }

  /** The seven coefficients of `c` times the generator. */
  ghost function Scaled(c: bv8): (s: Symbols)
    ensures |s| == 7
  {
    [c, Scale(c, 29), Scale(c, 22), Scale(c, 20), Scale(c, 21), Scale(c, 29), Scale(c, 18)]
  }

  function Zeros(n: nat): (z: Symbols)
    ensures |z| == n && AllZero(z)
  {
    seq(n, _ => 0)
  }

  /** The product of the polynomial with coefficients `q`, the highest first, and the
      generator: one more coefficient `c` makes it x times what it was, plus `c`. */
  ghost function Multiple(q: Symbols): (d: Symbols)
    ensures |d| == |q| + 6
    decreases |q|
  {
    if q == [] then Zeros(6)
    else
      var n := |q| - 1;
      XorSymbols(Multiple(q[..n]) + [0], Zeros(n) + Scaled(q[n]))
  }

  // ---------------------------------------------------------------------------
  // Multiples are not seen
  // ---------------------------------------------------------------------------

  lemma ScaledUnseen(c: bv8)
    requires c < 32
    ensures Fold(0, Scaled(c)) == 0
  {
    hide Scale, GfMul, Xor, Step, Pack;
    var s, top := Scaled(c), c as bv32;
    FoldSix(s[..6]);
    assert s[..6][0] == c && s[..|s| - 1] == s[..6];
    StepMultipliesByX(top, GfMul(top, 29), GfMul(top, 22), GfMul(top, 20), GfMul(top, 21), GfMul(top, 29), s[6]);
    XorUnit(Pack(GfMul(top, 29), GfMul(top, 22), GfMul(top, 20), GfMul(top, 21), GfMul(top, 29), GfMul(top, 18)));
  }

  lemma {:induction false} MultipleUnseen(q: Symbols)
    requires AllSymbols(q)
    ensures Fold(0, Multiple(q)) == 0
    decreases |q|
  {
    hide Multiple, Scaled, Step, Xor, Fold, XorSymbols;
    if q == [] {
      MultipleOfNothing();
      ZeroRun(Zeros(6));
    } else {
      var n := |q| - 1;
      var m, s := Multiple(q[..n]), Scaled(q[n]);
      MultipleUnseen(q[..n]);
      assert q[..n] + [q[n]] == q;
      MultipleNext(q[..n], q[n]);
      FoldLinear(0, 0, m + [0], Zeros(n) + s);
      FoldAppend(0, Zeros(n), s);
      ZeroRun(Zeros(n));
      ScaledUnseen(q[n]);
      FoldLast(m, 0);
      StepZero();
      XorUnit(0);
    }
  }

  lemma MultipleOfNothing()
    ensures Multiple([]) == Zeros(6)
  {}

  lemma MultipleNext(q: Symbols, c: bv8)
    ensures Multiple(q + [c]) == XorSymbols(Multiple(q) + [0], Zeros(|q|) + Scaled(c))
  {
    hide XorSymbols, Scaled;
    assert (q + [c])[..|q|] == q;
  }

  lemma FoldLast(d: Symbols, v: bv8)
    ensures Fold(0, d + [v]) == Step(Fold(0, d), v)
  {
    hide Step;
    assert (d + [v])[..|d|] == d;
  }

  // ---------------------------------------------------------------------------
  // Division with remainder
  // ---------------------------------------------------------------------------

  function Plus(a: bv8, b: bv8): bv8 { a ^ b }

  lemma PlusAt(a: Symbols, b: Symbols, i: nat)
    requires |a| == |b| && i < |a|
    ensures XorSymbols(a, b)[i] == Plus(a[i], b[i])
  {}

  lemma PackLinear(a: Symbols, b: Symbols)
    requires |a| == |b| == 6 && AllSymbols(a) && AllSymbols(b)
    ensures PackSymbols(XorSymbols(a, b)) == Xor(PackSymbols(a), PackSymbols(b))
  {
    Difference(a, b);
    hide Fold, PackSymbols, XorSymbols, Xor;
    FoldSix(a);
    FoldSix(b);
    FoldSix(XorSymbols(a, b));
    FoldLinear(0, 0, a, b);
    XorUnit(0);
  }

  /** The remainder after one more symbol. */
  ghost function Remainder(r: Symbols, v: bv8): Symbols
    requires |r| == 6
    ensures |Remainder(r, v)| == 6
  {
    XorSymbols(r[1..] + [v], Scaled(r[0])[1..])
  }

  lemma ShiftedPack(r: Symbols, v: bv8)
    requires |r| == 6
    ensures PackSymbols(r[1..] + [v])
      == Pack(r[1] as bv32, r[2] as bv32, r[3] as bv32, r[4] as bv32, r[5] as bv32, v as bv32)
  {
    hide Pack;
  }

  lemma ScaledPack(c: bv8)
    ensures
      var t := c as bv32;
      PackSymbols(Scaled(c)[1..])
      == Pack(GfMul(t, 29), GfMul(t, 22), GfMul(t, 20), GfMul(t, 21), GfMul(t, 29), GfMul(t, 18))
  {
    hide Pack, GfMul, Scale;
  }

  lemma ScaledSymbols(c: bv8)
    requires c < 32
    ensures AllSymbols(Scaled(c)[1..])
  {
    hide Scale;
  }

  lemma WideSymbol(c: bv8)
    requires c < 32
    ensures c as bv32 < 32
  {}

  lemma StepDivides(r: Symbols, v: bv8)
    requires |r| == 6 && AllSymbols(r) && v < 32
    ensures Step(PackSymbols(r), v) == PackSymbols(Remainder(r, v)) && AllSymbols(Remainder(r, v))
  {
    hide Scaled, Scale, GfMul, Xor, Step, Pack, XorSymbols;
    var a, b := r[1..] + [v], Scaled(r[0])[1..];
    forall i | 0 <= i < 6 ensures r[i] as bv32 < 32 { WideSymbol(r[i]); }
    StepMultipliesByX(r[0] as bv32, r[1] as bv32, r[2] as bv32, r[3] as bv32, r[4] as bv32, r[5] as bv32, v);
    ShiftedPack(r, v);
    ScaledPack(r[0]);
    ScaledSymbols(r[0]);
    PackLinear(a, b);
    Difference(a, b);
  }

  lemma PlusUnit(a: bv8)
    ensures Plus(a, a) == 0 && Plus(a, 0) == a && Plus(0, a) == a
  {}

  lemma PlusComm(a: bv8, b: bv8)
    ensures Plus(a, b) == Plus(b, a)
  {}

  lemma PlusAssoc(a: bv8, b: bv8, c: bv8)
    ensures Plus(Plus(a, b), c) == Plus(a, Plus(b, c))
  {}

  lemma PlusCancels(m: bv8, r: bv8, s: bv8)
    ensures Plus(m, r) == Plus(Plus(m, s), Plus(r, s))
  {
    hide Plus;
    PlusAssoc(m, s, Plus(r, s));
    PlusComm(r, s);
    PlusAssoc(s, s, r);
    PlusUnit(s);
    PlusUnit(r);
  }

  /** Coefficient `i` of the dividend, of the product with one more coefficient, and of the
      remainder, given those of the product `m` so far, of the remainder `r` so far, of the
      new multiple `s` and the new symbol `v`. */
  ghost function DividendAt(m: Symbols, n: nat, r: Symbols, v: bv8, i: nat): bv8
    requires |m| == n + 6 && |r| == 6 && i <= n + 6
  {
    if i < n then Plus(m[i], 0) else if i < n + 6 then Plus(m[i], r[i - n]) else v
  }

  ghost function ProductAt(m: Symbols, n: nat, s: Symbols, i: nat): bv8
    requires |m| == n + 6 && |s| == 7 && i <= n + 6
  {
    if i < n then Plus(m[i], 0) else if i < n + 6 then Plus(m[i], s[i - n]) else Plus(0, s[6])
  }

  ghost function RemainderAt(n: nat, r: Symbols, v: bv8, s: Symbols, i: nat): bv8
    requires |r| == 6 && |s| == 7 && i <= n + 6
  {
    if i <= n then 0 else Plus(if i < n + 6 then r[i - n] else v, s[i - n])
  }

  lemma DividendIs(m: Symbols, n: nat, r: Symbols, v: bv8, i: nat)
    requires |m| == n + 6 && |r| == 6 && i <= n + 6
    ensures (XorSymbols(m, Zeros(n) + r) + [v])[i] == DividendAt(m, n, r, v, i)
  {
    hide XorSymbols;
    if i < n + 6 { PlusAt(m, Zeros(n) + r, i); }
  }

  lemma ProductIs(m: Symbols, n: nat, s: Symbols, i: nat)
    requires |m| == n + 6 && |s| == 7 && i <= n + 6
    ensures XorSymbols(m + [0], Zeros(n) + s)[i] == ProductAt(m, n, s, i)
  {
    hide XorSymbols;
    PlusAt(m + [0], Zeros(n) + s, i);
  }

  lemma RemainderIs(n: nat, r: Symbols, v: bv8, i: nat)
    requires |r| == 6 && i <= n + 6
    ensures (Zeros(n + 1) + Remainder(r, v))[i] == RemainderAt(n, r, v, Scaled(r[0]), i)
  {
    hide XorSymbols, Scaled, Plus;
    if i > n { PlusAt(r[1..] + [v], Scaled(r[0])[1..], i - n - 1); }
  }

  lemma Agree(m: Symbols, n: nat, r: Symbols, v: bv8, s: Symbols, i: nat)
    requires |m| == n + 6 && |r| == 6 && |s| == 7 && s[0] == r[0] && i <= n + 6
    ensures DividendAt(m, n, r, v, i) == Plus(ProductAt(m, n, s, i), RemainderAt(n, r, v, s, i))
  {
    hide Plus;
    if i <= n {
      PlusUnit(ProductAt(m, n, s, i));
    } else if i < n + 6 {
      PlusCancels(m[i], r[i - n], s[i - n]);
    } else {
      PlusCancels(0, v, s[6]);
      PlusUnit(v);
    }
  }

  lemma LongerAt(q: Symbols, r: Symbols, v: bv8, i: nat)
    requires |r| == 6 && i <= |q| + 6
    ensures DividendAt(Multiple(q), |q|, r, v, i)
      == Plus(Multiple(q + [r[0]])[i], RemainderAt(|q|, r, v, Scaled(r[0]), i))
  {
    hide *;
    var s := Scaled(r[0]);
    MultipleNext(q, r[0]);
    ScaledFirst(r[0]);
    ProductIs(Multiple(q), |q|, s, i);
    Agree(Multiple(q), |q|, r, v, s, i);
  }

  lemma ScaledFirst(c: bv8)
    ensures Scaled(c)[0] == c
  {}

  /** One more symbol of the dividend, and one more of the quotient. */
  lemma Longer(q: Symbols, r: Symbols, v: bv8)
    requires |r| == 6
    ensures XorSymbols(Multiple(q), Zeros(|q|) + r) + [v]
      == XorSymbols(Multiple(q + [r[0]]), Zeros(|q| + 1) + Remainder(r, v))
  {
    hide Multiple, XorSymbols, Remainder, DividendAt, RemainderAt, Scaled, Zeros, Plus;
    var p, rest := Multiple(q + [r[0]]), Zeros(|q| + 1) + Remainder(r, v);
    var left, right := XorSymbols(Multiple(q), Zeros(|q|) + r) + [v], XorSymbols(p, rest);
    assert |left| == |right| == |q| + 7;
    forall i | 0 <= i < |q| + 7 ensures left[i] == right[i] {
      DividendIs(Multiple(q), |q|, r, v, i);
      LongerAt(q, r, v, i);
      RemainderIs(|q|, r, v, i);
      PlusAt(p, rest, i);
    }
  }

  /** Every word is a multiple of the generator plus six symbols, and these are what is left as
      its checksum state. */
  lemma {:induction false} Division(d: Symbols) returns (q: Symbols, r: Symbols)
    requires |d| >= 6 && AllSymbols(d)
    ensures AllSymbols(q) && |q| == |d| - 6 && AllSymbols(r) && |r| == 6
    ensures d == XorSymbols(Multiple(q), Zeros(|q|) + r) && Fold(0, d) == PackSymbols(r)
    decreases |d|
  {
    hide Fold, Step, Multiple, PackSymbols, XorSymbols, Remainder;
    if |d| == 6 {
      q, r := [], d;
      FoldSix(d);
      ZerosPlus(Zeros(6), d);
      MultipleOfNothing();
      assert Zeros(0) + d == d;
    } else {
      var n := |d| - 1;
      var d', v := d[..n], d[n];
      var q', r' := Division(d');
      StepDivides(r', v);
      Longer(q', r', v);
      FoldLast(d', v);
      q, r := q' + [r'[0]], Remainder(r', v);
      assert d == d' + [v];
    }
  }

  lemma NoRemainder(q: Symbols, r: Symbols)
    requires |r| == 6 && AllSymbols(r) && PackSymbols(r) == 0
    ensures XorSymbols(Multiple(q), Zeros(|q|) + r) == Multiple(q)
  {
    hide Multiple, PackSymbols, XorSymbols;
    NothingLeft(r);
    PlusZeros(Multiple(q), Zeros(|q|) + r);
  }

  lemma NothingLeft(r: Symbols)
    requires |r| == 6 && AllSymbols(r) && PackSymbols(r) == 0
    ensures AllZero(r)
  {
    hide Fold;
    FoldSix(r);
    WindowStored(r);
  }

  lemma PlusZeros(c: Symbols, zeros: Symbols)
    requires |zeros| == |c| && AllZero(zeros)
    ensures XorSymbols(c, zeros) == c
  {}

  // ---------------------------------------------------------------------------
  // What the checksum does not see
  // ---------------------------------------------------------------------------

  /** Two words of one length leave the same checksum state exactly when their difference is a
      multiple of the generator polynomial over GF(32): words shorter than the checksum only
      when they are equal. */
  lemma UnseenExactly(a: Symbols, b: Symbols)
    requires |a| == |b| && AllSymbols(a) && AllSymbols(b)
    ensures |a| < 6 ==> (Fold(1, a) == Fold(1, b) <==> a == b)
    ensures |a| >= 6 ==>
      (Fold(1, a) == Fold(1, b) <==>
       exists q: Symbols :: AllSymbols(q) && |q| + 6 == |a| && XorSymbols(a, b) == Multiple(q))
  {
    hide Fold, Multiple, Xor, PackSymbols;
    var d := XorSymbols(a, b);
    Difference(a, b);
    FoldLinear(1, 1, a, b);
    XorUnit(1);
    XorCancel(Fold(1, a), Fold(1, b));
    if |a| < 6 {
      BurstDetected(a, b, 0);
    } else if Fold(0, d) == 0 {
      var q, r := Division(d);
      NoRemainder(q, r);
    } else {
      forall q: Symbols | AllSymbols(q) && |q| + 6 == |a| ensures d != Multiple(q) {
        MultipleUnseen(q);
      }
    }
  }

  lemma TimesOne(b: bv32)
    ensures GfMul(1, b) == b
  {
    assert Bit(1, 0) && !Bit(1, 1) && !Bit(1, 2) && !Bit(1, 3) && !Bit(1, 4);
    XorUnit(b);
    XorUnit(0);
    hide Bit, Times, Xor;
    assert Product(1, b, 0) == 0;
    assert Product(1, b, 1) == b;
    assert Product(1, b, 2) == b;
    assert Product(1, b, 3) == b;
    assert Product(1, b, 4) == b;
  }

  /** Six is the longest burst the checksum always detects: the generator itself is a
      difference of seven consecutive symbols that it does not see. */
  lemma SevenSymbolsEscape(zeros: Symbols)
    requires |zeros| == 7 && AllZero(zeros)
    ensures
      var g: Symbols := [1, 29, 22, 20, 21, 29, 18];
      g != zeros && Fold(1, g) == Fold(1, zeros)
  {
    var g: Symbols := [1, 29, 22, 20, 21, 29, 18];
    ScaledUnseen(1);
    TimesOne(29);
    TimesOne(22);
    TimesOne(20);
    TimesOne(21);
    TimesOne(18);
    hide Fold, Xor, GfMul;
    assert Scaled(1) == g;
    FoldLinear(1, 0, zeros, g);
    ZerosPlus(zeros, g);
    XorUnit(1);
    XorUnit(Fold(1, zeros));
  }
}
