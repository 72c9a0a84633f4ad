/** The checksum of BIP-173 as internal/crypto/rootkey.go computes it: a 30-bit
    BCH remainder over 5-bit symbols. */
module Polymod {

  // Symbols are bytes, as in the source; a well-formed symbol is below 32.
  type Symbols = seq<bv8>

  const GENERATOR: seq<bv32> := [0x3b6a57b2, 0x26508e6d, 0x1ea119fa, 0x3d4233dd, 0x2a1462b3]

  ghost predicate AllSymbols(s: Symbols) {
    forall i :: 0 <= i < |s| ==> s[i] < 32
  }

  // Exclusive or and bit selection are named so that proofs can hide them and
  // reason by equality alone.
  function Xor(a: bv32, b: bv32): bv32 { a ^ b }

  predicate Bit(w: bv32, i: nat)
    requires i < 32
  {
    (w >> i) & 1 == 1
  }

  lemma XorUnit(a: bv32)
    ensures Xor(a, a) == 0 && Xor(a, 0) == a && Xor(0, a) == a
  {}

  lemma XorComm(a: bv32, b: bv32)
    ensures Xor(a, b) == Xor(b, a)
  {}

  lemma XorAssoc(a: bv32, b: bv32, c: bv32)
    ensures Xor(Xor(a, b), c) == Xor(a, Xor(b, c))
  {}

  lemma XorSwap(a: bv32, b: bv32, c: bv32, d: bv32)
    ensures Xor(Xor(a, b), Xor(c, d)) == Xor(Xor(a, c), Xor(b, d))
  {
    hide Xor;
    XorAssoc(a, b, Xor(c, d));
    XorAssoc(b, c, d);
    XorComm(b, c);
    XorAssoc(c, b, d);
    XorAssoc(a, c, Xor(b, d));
  }

  lemma XorCancel(a: bv32, b: bv32)
    ensures Xor(a, b) == 0 <==> a == b
    ensures Xor(a, Xor(a, b)) == b
  {
    hide Xor;
    XorAssoc(a, a, b);
    XorUnit(a);
    XorUnit(b);
  }

  // ---------------------------------------------------------------------------
  // The checksum loop and its specification
  // ---------------------------------------------------------------------------

  ghost function Tap(on: bool, word: bv32): bv32 { if on then word else 0 }

  /** The generator words selected by the first `count` bits of `top`, xor-ed together. */
  ghost function Feedback(top: bv32, count: nat): bv32
    requires count <= 5
  {
    if count == 0 then 0
    else Xor(Feedback(top, count - 1), Tap(Bit(top, count - 1), GENERATOR[count - 1]))
  }

  function Shift(chk: bv32, v: bv8): bv32 { Xor((chk & 0x1ffffff) << 5, v as bv32) }

  ghost function Step(chk: bv32, v: bv8): bv32 { Xor(Shift(chk, v), Feedback(chk >> 25, 5)) }

  /** The checksum state after feeding `s` to state `chk`. */
  ghost function Fold(chk: bv32, s: Symbols): bv32 {
    if s == [] then chk else Step(Fold(chk, s[..|s| - 1]), s[|s| - 1])
  }

  method Bech32Polymod(values: Symbols) returns (chk: bv32)
    ensures chk == Fold(1, values)
  {
    hide Xor, Bit, Shift;
    chk := 1;
    for n := 0 to |values|
      invariant chk == Fold(1, values[..n])
    {
      var v := values[n];
      var top := chk >> 25;
      ghost var shifted := Shift(chk, v);
      chk := Shift(chk, v);
      XorUnit(chk);
      for i := 0 to 5
        invariant chk == Xor(shifted, Feedback(top, i))
      {
        XorUnit(Feedback(top, i));
        XorAssoc(shifted, Feedback(top, i), GENERATOR[i]);
        if Bit(top, i) {
          chk := Xor(chk, GENERATOR[i]);
        }
      }
      assert values[..n + 1][..n] == values[..n];
    }
    assert values[..|values|] == values;
  }

  // ---------------------------------------------------------------------------
  // Linearity over GF(2)
  // ---------------------------------------------------------------------------

  lemma BitOf(w: bv32, i: nat)
    requires i < 5
    ensures Bit(w, i) <==> w & [1, 2, 4, 8, 16][i] != 0
  {}

  lemma MaskLinear(x: bv32, y: bv32)
    ensures Xor(x, y) & 1 != 0 <==> (x & 1 != 0) != (y & 1 != 0)
    ensures Xor(x, y) & 2 != 0 <==> (x & 2 != 0) != (y & 2 != 0)
    ensures Xor(x, y) & 4 != 0 <==> (x & 4 != 0) != (y & 4 != 0)
    ensures Xor(x, y) & 8 != 0 <==> (x & 8 != 0) != (y & 8 != 0)
    ensures Xor(x, y) & 16 != 0 <==> (x & 16 != 0) != (y & 16 != 0)
  {}

  lemma BitLinear(x: bv32, y: bv32, i: nat)
    requires i < 5
    ensures Bit(Xor(x, y), i) <==> Bit(x, i) != Bit(y, i)
  {
    hide Xor, Bit;
    BitOf(x, i);
    BitOf(y, i);
    BitOf(Xor(x, y), i);
    MaskLinear(x, y);
  }

  lemma TapLinear(p: bool, q: bool, word: bv32)
    ensures Tap(p != q, word) == Xor(Tap(p, word), Tap(q, word))
  {
    hide Xor;
    XorUnit(word);
    XorUnit(0);
  }

  lemma {:induction false} FeedbackLinear(x: bv32, y: bv32, count: nat)
    requires count <= 5
    ensures Feedback(Xor(x, y), count) == Xor(Feedback(x, count), Feedback(y, count))
  {
    hide Tap, Xor, Bit;
    if count == 0 {
      XorUnit(0);
    } else {
      var i := count - 1;
      FeedbackLinear(x, y, i);
      BitLinear(x, y, i);
      TapLinear(Bit(x, i), Bit(y, i), GENERATOR[i]);
      XorSwap(Feedback(x, i), Feedback(y, i), Tap(Bit(x, i), GENERATOR[i]), Tap(Bit(y, i), GENERATOR[i]));
    }
  }

  lemma WordShifts(x: bv32, y: bv32)
    ensures (Xor(x, y) & 0x1ffffff) << 5 == Xor((x & 0x1ffffff) << 5, (y & 0x1ffffff) << 5)
    ensures Xor(x, y) >> 25 == Xor(x >> 25, y >> 25)
  {}

  lemma ShiftLinear(x: bv32, y: bv32, u: bv8, v: bv8)
    ensures Shift(Xor(x, y), u ^ v) == Xor(Shift(x, u), Shift(y, v))
  {}

  lemma StepLinear(x: bv32, y: bv32, u: bv8, v: bv8)
    ensures Step(Xor(x, y), u ^ v) == Xor(Step(x, u), Step(y, v))
  {
    hide Xor, Feedback, Shift;
    ShiftLinear(x, y, u, v);
    WordShifts(x, y);
    FeedbackLinear(x >> 25, y >> 25, 5);
    XorSwap(Shift(x, u), Shift(y, v), Feedback(x >> 25, 5), Feedback(y >> 25, 5));
  }

  ghost function XorSymbols(a: Symbols, b: Symbols): (d: Symbols)
    requires |a| == |b|
    ensures |d| == |a|
  {
    seq(|a|, i requires 0 <= i < |a| => a[i] ^ b[i])
  }

  /** The checksum is linear in the pair (state, symbols). */
  lemma {:induction false} FoldLinear(x: bv32, y: bv32, a: Symbols, b: Symbols)
    requires |a| == |b|
    ensures Fold(Xor(x, y), XorSymbols(a, b)) == Xor(Fold(x, a), Fold(y, b))
  {
    hide Xor, Step;
    if a != [] {
      var n := |a| - 1;
      FoldLinear(x, y, a[..n], b[..n]);
      StepLinear(Fold(x, a[..n]), Fold(y, b[..n]), a[n], b[n]);
      assert XorSymbols(a, b)[..n] == XorSymbols(a[..n], b[..n]);
    }
  }

  // ---------------------------------------------------------------------------
  // An independent reading of the generator words: one step multiplies by x
  // modulo g(x) = x^6 + 29x^5 + 22x^4 + 20x^3 + 21x^2 + 29x + 18 over GF(32)
  // ---------------------------------------------------------------------------

  lemma {:induction false} FeedbackWords(top: bv32)
    requires top < 32
    ensures Feedback(top, 5) ==
      (if top & 1 != 0 then 0x3b6a57b2 else 0) ^
      (if top & 2 != 0 then 0x26508e6d else 0) ^
      (if top & 4 != 0 then 0x1ea119fa else 0) ^
      (if top & 8 != 0 then 0x3d4233dd else 0) ^
      (if top & 16 != 0 then 0x2a1462b3 else 0)
  {
    hide Bit;
    BitOf(top, 0);
    BitOf(top, 1);
    BitOf(top, 2);
    BitOf(top, 3);
    BitOf(top, 4);
    assert Feedback(top, 0) == 0;
    assert Feedback(top, 1) == Xor(Feedback(top, 0), Tap(Bit(top, 0), GENERATOR[0]));
    assert Feedback(top, 2) == Xor(Feedback(top, 1), Tap(Bit(top, 1), GENERATOR[1]));
    assert Feedback(top, 3) == Xor(Feedback(top, 2), Tap(Bit(top, 2), GENERATOR[2]));
  }

  /** Multiplication by the element 2 of GF(32) = GF(2)[a] / (a^5 + a^3 + 1). */
  ghost function Double(e: bv32): bv32 {
    ((e << 1) & 31) ^ (if e & 16 != 0 then 9 else 0)
  }

  /** Multiplication by 2^i. */
  ghost function Times(e: bv32, i: nat): bv32 {
    if i == 0 then e else Double(Times(e, i - 1))
  }

  ghost function Term(a: bv32, b: bv32, i: nat): bv32
    requires i < 5
  {
    Tap(Bit(a, i), Times(b, i))
  }

  /** The sum of the multiples of `b` that the first `n` bits of `a` select. */
  ghost function Product(a: bv32, b: bv32, n: nat): bv32
    requires n <= 5
  {
    if n == 0 then 0 else Xor(Product(a, b, n - 1), Term(a, b, n - 1))
  }

  ghost function GfMul(a: bv32, b: bv32): bv32 { Product(a, b, 5) }

  /** Six elements of GF(32), the coefficient of x^5 first, in 30 bits. */
  ghost function Pack(c5: bv32, c4: bv32, c3: bv32, c2: bv32, c1: bv32, c0: bv32): bv32 {
    (c5 << 25) | (c4 << 20) | (c3 << 15) | (c2 << 10) | (c1 << 5) | c0
  }

  /** The coefficients of g(x) below x^6, each multiplied by 2^i. */
  ghost function Column(i: nat): bv32 {
    Pack(Times(29, i), Times(22, i), Times(20, i), Times(21, i), Times(29, i), Times(18, i))
  }

  lemma TimesTwice(e: bv32)
    ensures Times(e, 0) == e && Times(e, 1) == Double(e) && Times(e, 2) == Double(Double(e))
    ensures Times(e, 3) == Double(Double(Double(e))) && Times(e, 4) == Double(Double(Double(Double(e))))
  {
    hide Double;
  }

  /** The five generator words are these columns. */
  lemma GeneratorColumns()
    ensures forall i :: 0 <= i < 5 ==> GENERATOR[i] == Column(i)
  {
    TimesTwice(29);
    TimesTwice(22);
    TimesTwice(20);
    TimesTwice(21);
    TimesTwice(18);
    hide Times;
    assert GENERATOR[0] == Column(0);
    assert GENERATOR[1] == Column(1);
    assert GENERATOR[2] == Column(2);
    assert GENERATOR[3] == Column(3);
    assert GENERATOR[4] == Column(4);
  }

  lemma PackXor(a5: bv32, a4: bv32, a3: bv32, a2: bv32, a1: bv32, a0: bv32,
                b5: bv32, b4: bv32, b3: bv32, b2: bv32, b1: bv32, b0: bv32)
    requires a5 < 32 && a4 < 32 && a3 < 32 && a2 < 32 && a1 < 32 && a0 < 32
    requires b5 < 32 && b4 < 32 && b3 < 32 && b2 < 32 && b1 < 32 && b0 < 32
    ensures Pack(Xor(a5, b5), Xor(a4, b4), Xor(a3, b3), Xor(a2, b2), Xor(a1, b1), Xor(a0, b0))
      == Xor(Pack(a5, a4, a3, a2, a1, a0), Pack(b5, b4, b3, b2, b1, b0))
  {}

  lemma XorSmall(a: bv32, b: bv32)
    ensures a < 32 && b < 32 ==> Xor(a, b) < 32
  {}

  lemma DoubleSmall(e: bv32)
    ensures Double(e) < 32
  {}

  lemma TermSmall(top: bv32, b: bv32, i: nat)
    requires b < 32 && i < 5
    ensures Term(top, b, i) < 32
  {
    hide Double, Bit;
    if i > 0 { DoubleSmall(Times(b, i - 1)); }
  }

  lemma PackZero()
    ensures Pack(0, 0, 0, 0, 0, 0) == 0
  {}

  /** Six coefficients at once, each multiplied by 2^i where bit i of `top` is set. */
  ghost function Selected(top: bv32, i: nat): bv32
    requires i < 5
  {
    Pack(Term(top, 29, i), Term(top, 22, i), Term(top, 20, i), Term(top, 21, i), Term(top, 29, i), Term(top, 18, i))
  }

  lemma SelectedIs(top: bv32, i: nat)
    requires i < 5
    ensures Selected(top, i) == Tap(Bit(top, i), GENERATOR[i])
  {
    hide Bit, Times, Xor, Pack;
    GeneratorColumns();
    PackZero();
  }

  lemma {:induction false} ProductSmall(top: bv32, b: bv32, n: nat)
    requires b < 32 && n <= 5
    ensures Product(top, b, n) < 32
  {
    hide Xor, Term;
    if n > 0 {
      ProductSmall(top, b, n - 1);
      TermSmall(top, b, n - 1);
      XorSmall(Product(top, b, n - 1), Term(top, b, n - 1));
    }
  }

  lemma {:induction false} FeedbackIsProduct(top: bv32, n: nat)
    requires n <= 5
    ensures Feedback(top, n) == Pack(Product(top, 29, n), Product(top, 22, n), Product(top, 20, n),
                                     Product(top, 21, n), Product(top, 29, n), Product(top, 18, n))
  {
    hide Xor, Term, Pack, Tap, Bit;
    if n == 0 {
      PackZero();
    } else {
      var m := n - 1;
      FeedbackIsProduct(top, m);
      SelectedIs(top, m);
      forall b | b < 32 ensures Product(top, b, m) < 32 && Term(top, b, m) < 32 {
        ProductSmall(top, b, m);
        TermSmall(top, b, m);
      }
      PackXor(Product(top, 29, m), Product(top, 22, m), Product(top, 20, m),
              Product(top, 21, m), Product(top, 29, m), Product(top, 18, m),
              Term(top, 29, m), Term(top, 22, m), Term(top, 20, m),
              Term(top, 21, m), Term(top, 29, m), Term(top, 18, m));
    }
  }

  /** What is fed back is the leading coefficient times g(x), below x^6. */
  lemma FeedbackIsMultiple(top: bv32)
    ensures Feedback(top, 5) == Pack(GfMul(top, 29), GfMul(top, 22), GfMul(top, 20),
                                     GfMul(top, 21), GfMul(top, 29), GfMul(top, 18))
  {
    hide Feedback, Product, Pack;
    FeedbackIsProduct(top, 5);
  }

  lemma ShiftPacked(p5: bv32, p4: bv32, p3: bv32, p2: bv32, p1: bv32, p0: bv32, v: bv8)
    requires p5 < 32 && p4 < 32 && p3 < 32 && p2 < 32 && p1 < 32 && p0 < 32 && v < 32
    ensures Pack(p5, p4, p3, p2, p1, p0) >> 25 == p5
    ensures Shift(Pack(p5, p4, p3, p2, p1, p0), v) == Pack(p4, p3, p2, p1, p0, v as bv32)
  {}

  /** p(x) becomes p(x) * x + v, reduced by adding p5 * g(x) below x^6. */
  lemma StepMultipliesByX(p5: bv32, p4: bv32, p3: bv32, p2: bv32, p1: bv32, p0: bv32, v: bv8)
    requires p5 < 32 && p4 < 32 && p3 < 32 && p2 < 32 && p1 < 32 && p0 < 32 && v < 32
    ensures Step(Pack(p5, p4, p3, p2, p1, p0), v) ==
      Xor(Pack(p4, p3, p2, p1, p0, v as bv32),
          Pack(GfMul(p5, 29), GfMul(p5, 22), GfMul(p5, 20), GfMul(p5, 21), GfMul(p5, 29), GfMul(p5, 18)))
  {
    hide Xor, Shift, Feedback, GfMul, Pack;
    ShiftPacked(p5, p4, p3, p2, p1, p0, v);
    FeedbackIsMultiple(p5);
  }

  // ---------------------------------------------------------------------------
  // The state space: 30 bits, and no step forgets a non-zero state
  // ---------------------------------------------------------------------------

  lemma StepRange(chk: bv32, v: bv8)
    requires chk < 0x40000000 && v < 32
    ensures Step(chk, v) < 0x40000000
  {
    var top := chk >> 25;
    FeedbackWords(top);
    hide Feedback;
  }

  lemma StepInjectiveAtZero(chk: bv32)
    requires chk < 0x40000000 && Step(chk, 0) == 0
    ensures chk == 0
  {
    var top := chk >> 25;
    FeedbackWords(top);
    hide Feedback;
  }

  lemma StepBelowFeedback(chk: bv32, v: bv8)
    requires chk < 0x2000000 && v < 32
    ensures Step(chk, v) == (chk << 5) | (v as bv32)
  {
    var top := chk >> 25;
    FeedbackWords(top);
    hide Feedback;
  }

  lemma {:induction false} FoldRange(chk: bv32, s: Symbols)
    requires chk < 0x40000000 && AllSymbols(s)
    ensures Fold(chk, s) < 0x40000000
  {
    hide Step;
    if s != [] {
      var n := |s| - 1;
      FoldRange(chk, s[..n]);
      StepRange(Fold(chk, s[..n]), s[n]);
    }
  }

  lemma {:induction false} FoldAppend(chk: bv32, s: Symbols, t: Symbols)
    ensures Fold(chk, s + t) == Fold(Fold(chk, s), t)
  {
    hide Step;
    if t == [] {
      assert s + t == s;
    } else {
      var n := |t| - 1;
      FoldAppend(chk, s, t[..n]);
      assert (s + t)[..|s + t| - 1] == s + t[..n];
    }
  }

  // ---------------------------------------------------------------------------
  // Burst detection
  // ---------------------------------------------------------------------------

  /** The states that `k` symbols can reach from the zero state before feedback sets in. */
  ghost predicate Reached(chk: bv32, k: nat)
    requires k <= 6
  {
    chk < [0x1, 0x20, 0x400, 0x8000, 0x100000, 0x2000000, 0x40000000][k]
  }

  lemma NothingReached(chk: bv32)
    ensures Reached(chk, 0) <==> chk == 0
  {}

  lemma ReachGrows(k: nat, chk: bv32, v: bv8)
    requires k < 6 && Reached(chk, k) && v < 32
    ensures chk < 0x2000000
    ensures Reached((chk << 5) | (v as bv32), k + 1)
    ensures (chk << 5) | (v as bv32) == 0 ==> chk == 0 && v == 0
  {}

  lemma StepReach(k: nat, chk: bv32, v: bv8)
    requires k < 6 && Reached(chk, k) && v < 32
    ensures Reached(Step(chk, v), k + 1)
    ensures Step(chk, v) == 0 ==> chk == 0 && v == 0
  {
    ReachGrows(k, chk, v);
    hide Step, Reached;
    StepBelowFeedback(chk, v);
  }

  lemma StepZero()
    ensures Step(0, 0) == 0
  {}

  ghost predicate AllZero(s: Symbols) {
    forall i :: 0 <= i < |s| ==> s[i] == 0
  }

  lemma {:induction false} ZeroRun(s: Symbols)
    requires AllZero(s)
    ensures Fold(0, s) == 0
  {
    hide Step;
    StepZero();
    if s != [] {
      ZeroRun(s[..|s| - 1]);
    }
  }

  /** From the zero state, up to six symbols are stored verbatim. */
  lemma {:induction false} WindowStored(w: Symbols)
    requires |w| <= 6 && AllSymbols(w)
    ensures Reached(Fold(0, w), |w|)
    ensures Fold(0, w) == 0 ==> AllZero(w)
  {
    hide Step, Reached;
    NothingReached(0);
    if w != [] {
      var n := |w| - 1;
      WindowStored(w[..n]);
      StepReach(n, Fold(0, w[..n]), w[n]);
    }
  }

  /** A non-zero difference confined to six consecutive symbols never cancels out. */
  lemma {:induction false} BurstNeverCancels(before: Symbols, window: Symbols, after: Symbols)
    requires AllZero(before) && |window| <= 6 && AllSymbols(window) && AllZero(after)
    requires Fold(0, before + window + after) == 0
    ensures AllZero(window)
  {
    hide Step;
    if after == [] {
      assert before + window + after == before + window;
      FoldAppend(0, before, window);
      ZeroRun(before);
      WindowStored(window);
    } else {
      var n := |after| - 1;
      var d := before + window + after[..n];
      assert (before + window + after)[..|d|] == d;
      FoldRange(0, d);
      StepInjectiveAtZero(Fold(0, d));
      BurstNeverCancels(before, window, after[..n]);
    }
  }

  lemma Difference(a: Symbols, b: Symbols)
    requires |a| == |b| && AllSymbols(a) && AllSymbols(b)
    ensures AllSymbols(XorSymbols(a, b))
    ensures forall i :: 0 <= i < |a| ==> (XorSymbols(a, b)[i] == 0 <==> a[i] == b[i])
  {}

  lemma DifferenceFold(a: Symbols, b: Symbols)
    requires |a| == |b| && Fold(1, a) == Fold(1, b)
    ensures Fold(0, XorSymbols(a, b)) == 0
  {
    FoldLinear(1, 1, a, b);
    XorUnit(1);
    XorUnit(Fold(1, a));
  }

  ghost predicate DifferOnlyIn(a: Symbols, b: Symbols, lo: nat, hi: nat) {
    && |a| == |b|
    && forall i :: 0 <= i < |a| && !(lo <= i < hi) ==> a[i] == b[i]
  }

  lemma BurstWindow(d: Symbols, lo: nat, hi: nat)
    requires AllSymbols(d) && lo <= hi <= |d| && hi <= lo + 6 && Fold(0, d) == 0
    requires forall i :: 0 <= i < |d| && !(lo <= i < hi) ==> d[i] == 0
    ensures AllZero(d)
  {
    hide Fold;
    assert d == d[..lo] + d[lo..hi] + d[hi..];
    BurstNeverCancels(d[..lo], d[lo..hi], d[hi..]);
    forall i | lo <= i < hi
      ensures d[i] == 0
    {
      assert d[i] == d[lo..hi][i - lo];
    }
  }

  /** Two words that differ only inside six consecutive symbols have the same checksum
      state exactly when they are equal, at any length. */
  lemma BurstDetected(a: Symbols, b: Symbols, lo: nat)
    requires AllSymbols(a) && AllSymbols(b) && DifferOnlyIn(a, b, lo, lo + 6)
    ensures Fold(1, a) == Fold(1, b) <==> a == b
  {
    if Fold(1, a) == Fold(1, b) {
      Difference(a, b);
      DifferenceFold(a, b);
      hide Fold, XorSymbols;
      var n := |a|;
      BurstWindow(XorSymbols(a, b), if lo <= n then lo else n, if lo + 6 <= n then lo + 6 else n);
    }
  }
}
