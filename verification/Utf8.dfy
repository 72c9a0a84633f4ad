/** Texts as the bytes Go keeps them in, which are their UTF-8 form (RFC 3629, section 3). */
module Utf8 {
  import opened SortedStrings

  /** How many bytes a character takes. */
  function Width(c: char): (n: nat)
    ensures 1 <= n <= 4
  {
    if c as int < 0x80 then 1 else if c as int < 0x800 then 2 else if c as int < 0x10000 then 3 else 4
  }

  /** A lead byte that tells the length, and six bits in each byte after it. */
  function Encode(c: char): (bytes: seq<nat>)
    ensures |bytes| == Width(c)
  {
    var n := c as int;
    if n < 0x80 then [n]
    else if n < 0x800 then [0xc0 + n / 64, 0x80 + n % 64]
    else if n < 0x10000 then [0xe0 + n / 4096, 0x80 + n / 64 % 64, 0x80 + n % 64]
    else [0xf0 + n / 262144, 0x80 + n / 4096 % 64, 0x80 + n / 64 % 64, 0x80 + n % 64]
  }

  function EncodeAll(s: string): seq<nat> {
    if s == [] then [] else Encode(s[0]) + EncodeAll(s[1..])
  }

  lemma EncodeOne(c: char)
    ensures EncodeAll([c]) == Encode(c)
  {
    assert [c][1..] == [];
  }

  /** The bytes agree up to place `n`, where `a` ends or has the lower byte. */
  ghost predicate LowerBytes(a: seq<nat>, b: seq<nat>, n: nat) {
    n <= |a| && n < |b| && a[..n] == b[..n] && (n == |a| || a[n] < b[n])
  }

  /** How Go compares strings. */
  ghost predicate BytesLess(a: seq<nat>, b: seq<nat>) {
    exists n: nat :: LowerBytes(a, b, n)
  }

  lemma BytesAsymmetric(a: seq<nat>, b: seq<nat>)
    requires BytesLess(a, b)
    ensures a != b && !BytesLess(b, a)
  {
    var n: nat :| LowerBytes(a, b, n);
    assert forall i :: 0 <= i < n ==> a[..n][i] == a[i] == b[i];
    forall m: nat ensures !LowerBytes(b, a, m) {
    }
  }

  /** The bytes of a greater character differ from those of a lower one in some place, and
      are greater in the first. */
  ghost predicate Diverge(a: seq<nat>, b: seq<nat>, n: nat) {
    n < |a| && n < |b| && a[..n] == b[..n] && a[n] < b[n]
  }

  lemma Quotients(n: int, m: int)
    requires 0 <= n <= m
    ensures n / 64 <= m / 64 && n / 4096 <= m / 4096 && n / 262144 <= m / 262144
  {}

  lemma Remainders(n: int, m: int)
    requires 0 <= n < m && n / 64 == m / 64
    ensures n % 64 < m % 64
  {}

  lemma LeadsDiverge(c: char, d: char)
    requires c < d && Width(c) < Width(d)
    ensures Diverge(Encode(c), Encode(d), 0)
  {}

  lemma TwoDiverge(c: char, d: char) returns (n: nat)
    requires c < d && Width(c) == Width(d) <= 2
    ensures Diverge(Encode(c), Encode(d), n)
  {
    var x, y := c as int, d as int;
    Quotients(x, y);
    n := 0;
    if Width(c) == 2 && x / 64 == y / 64 {
      Remainders(x, y);
      n := 1;
    }
  }

  lemma ThreeDiverge(c: char, d: char) returns (n: nat)
    requires c < d && Width(c) == Width(d) == 3
    ensures Diverge(Encode(c), Encode(d), n)
  {
    var x, y := c as int, d as int;
    Quotients(x, y);
    assert x / 4096 == x / 64 / 64 && y / 4096 == y / 64 / 64;
    if x / 4096 < y / 4096 {
      n := 0;
    } else if x / 64 < y / 64 {
      Remainders(x / 64, y / 64);
      n := 1;
    } else {
      Remainders(x, y);
      n := 2;
    }
  }

  lemma FourDiverge(c: char, d: char) returns (n: nat)
    requires c < d && Width(c) == Width(d) == 4
    ensures Diverge(Encode(c), Encode(d), n)
  {
    var x, y := c as int, d as int;
    Quotients(x, y);
    assert x / 4096 == x / 64 / 64 && y / 4096 == y / 64 / 64;
    assert x / 262144 == x / 4096 / 64 && y / 262144 == y / 4096 / 64;
    if x / 262144 < y / 262144 {
      n := 0;
    } else if x / 4096 < y / 4096 {
      Remainders(x / 4096, y / 4096);
      n := 1;
    } else if x / 64 < y / 64 {
      Remainders(x / 64, y / 64);
      n := 2;
    } else {
      Remainders(x, y);
      n := 3;
    }
  }

  lemma CharsDiverge(c: char, d: char) returns (n: nat)
    requires c < d
    ensures Diverge(Encode(c), Encode(d), n)
  {
    hide Encode, Diverge;
    if Width(c) < Width(d) {
      LeadsDiverge(c, d);
      n := 0;
    } else if Width(c) <= 2 {
      n := TwoDiverge(c, d);
    } else if Width(c) == 3 {
      n := ThreeDiverge(c, d);
    } else {
      n := FourDiverge(c, d);
    }
  }

  lemma {:induction false} EncodeSplit(s: string, n: nat)
    requires n <= |s|
    ensures EncodeAll(s) == EncodeAll(s[..n]) + EncodeAll(s[n..])
  {
    hide Encode;
    if n == 0 {
      assert s[..0] == [] && s[0..] == s;
    } else {
      EncodeSplit(s[1..], n - 1);
      assert s[..n][1..] == s[1..][..n - 1] && s[1..][n - 1..] == s[n..];
    }
  }

  lemma Common(p: seq<nat>, a: seq<nat>, b: seq<nat>, n: nat)
    requires LowerBytes(a, b, n)
    ensures LowerBytes(p + a, p + b, |p| + n)
  {
    assert (p + a)[..|p| + n] == p + a[..n] && (p + b)[..|p| + n] == p + b[..n];
  }

  lemma LessKeeps(a: string, b: string)
    requires Less(a, b)
    ensures BytesLess(EncodeAll(a), EncodeAll(b))
  {
    LessExactly(a, b);
    hide Less;
    var n: nat :| LowerAt(a, b, n);
    EncodeSplit(a, n);
    EncodeSplit(b, n);
    var ra, rb := EncodeAll(a[n..]), EncodeAll(b[n..]);
    assert rb == Encode(b[n]) + EncodeAll(b[n..][1..]);
    var m := 0;
    if n < |a| {
      m := CharsDiverge(a[n], b[n]);
      assert ra == Encode(a[n]) + EncodeAll(a[n..][1..]);
      assert ra[..m] == Encode(a[n])[..m] && rb[..m] == Encode(b[n])[..m];
    }
    assert LowerBytes(ra, rb, m);
    Common(EncodeAll(a[..n]), ra, rb, m);
  }

  /** Comparing texts character by character is comparing their bytes. */
  lemma OrderOfBytes(a: string, b: string)
    ensures Less(a, b) <==> BytesLess(EncodeAll(a), EncodeAll(b))
  {
    hide Less, EncodeAll;
    LessTotal(a, b);
    if Less(a, b) {
      LessKeeps(a, b);
    } else if Less(b, a) {
      LessKeeps(b, a);
      BytesAsymmetric(EncodeAll(b), EncodeAll(a));
    } else if BytesLess(EncodeAll(a), EncodeAll(b)) {
      BytesAsymmetric(EncodeAll(a), EncodeAll(b));
    }
  }
}
