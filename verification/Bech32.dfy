/** The Bech32 encoding of BIP-173 (internal/crypto/rootkey.go): human-readable part,
    separator, data symbols, checksum. */
module Bech32 {
  import opened Wrappers
  import opened Polymod
  import opened Regroup

  const CHARSET := "qpzry9x8gf2tvdw0s3jn54khce6mua7l"

  const SEPARATOR := '1'

  /** Strings here are sequences of bytes, one to a character. */
  ghost predicate Bytes(s: string) {
    forall i :: 0 <= i < |s| ==> s[i] < 256 as char
  }

  ghost predicate Ascii(s: string) {
    forall i :: 0 <= i < |s| ==> s[i] < 128 as char
  }

  // ---------------------------------------------------------------------------
  // Bytes and symbols
  // ---------------------------------------------------------------------------

  /** The machine word for a number. Counting up to it is a conversion that takes the solver
      no search. */
  function ToSymbol(v: byte): (b: bv8)
    ensures b as int == v
  {
    if v == 0 then 0 else ToSymbol(v - 1) + 1
  }

  function ToSymbols(s: seq<byte>): (r: Symbols)
    ensures |r| == |s| && forall i :: 0 <= i < |s| ==> r[i] == ToSymbol(s[i])
  {
    seq(|s|, i requires 0 <= i < |s| => ToSymbol(s[i]))
  }

  lemma ToSymbolsInjective(a: seq<byte>, b: seq<byte>)
    requires ToSymbols(a) == ToSymbols(b)
    ensures a == b
  {
    hide ToSymbol;
    assert |a| == |ToSymbols(a)| == |b|;
    forall i | 0 <= i < |a| ensures a[i] == b[i] {
      assert ToSymbols(a)[i] == ToSymbols(b)[i];
    }
  }

  lemma SmallSymbol(b: bv8)
    ensures b as int < 32 ==> b < 32
  {}

  lemma FiveBitDigits(s: seq<byte>)
    requires Digits(s, 5)
    ensures AllSymbols(ToSymbols(s))
  {
    hide ToSymbol;
    forall i | 0 <= i < |s| ensures ToSymbols(s)[i] < 32 {
      SmallSymbol(ToSymbol(s[i]));
    }
  }

  // ---------------------------------------------------------------------------
  // The human-readable part
  // ---------------------------------------------------------------------------

  function HrpByte(c: char): bv8
    requires c < 256 as char
  {
    ToSymbol(c as int)
  }

  function HighBits(b: bv8): bv8 { b >> 5 }

  function LowBits(b: bv8): bv8 { b & 31 }

  ghost function HrpHigh(hrp: string): Symbols
    requires Bytes(hrp)
  {
    seq(|hrp|, i requires 0 <= i < |hrp| => HighBits(HrpByte(hrp[i])))
  }

  ghost function HrpLow(hrp: string): Symbols
    requires Bytes(hrp)
  {
    seq(|hrp|, i requires 0 <= i < |hrp| => LowBits(HrpByte(hrp[i])))
  }

  ghost function HrpExpanded(hrp: string): Symbols
    requires Bytes(hrp)
  {
    HrpHigh(hrp) + [0] + HrpLow(hrp)
  }

  lemma HrpExpandedSymbols(hrp: string)
    requires Bytes(hrp)
    ensures AllSymbols(HrpExpanded(hrp))
  {}

  lemma SplitBits(b: bv8)
    ensures LowBits(b) < 32 && 32 * (HighBits(b) as int) + LowBits(b) as int == b as int
  {}

  /** `high` and `low` are quotient and remainder of `c` by 32. */
  ghost predicate Splits(c: char, high: bv8, low: bv8) {
    low < 32 && 32 * (high as int) + low as int == c as int
  }

  /** What the expansion is: the quotients of the character codes by 32, a zero, and the
      remainders. */
  lemma ExpansionIs(hrp: string)
    requires Bytes(hrp)
    ensures
      var n, e := |hrp|, HrpExpanded(hrp);
      |e| == 2 * n + 1 && e[n] == 0 && forall i :: 0 <= i < n ==> Splits(hrp[i], e[i], e[n + 1 + i])
  {
    hide HighBits, LowBits, ToSymbol;
    var n, e := |hrp|, HrpExpanded(hrp);
    forall i | 0 <= i < n ensures Splits(hrp[i], e[i], e[n + 1 + i]) {
      SplitBits(HrpByte(hrp[i]));
    }
  }

  lemma SplitsDetermine(c: char, d: char, high: bv8, low: bv8)
    requires Splits(c, high, low) && Splits(d, high, low)
    ensures c == d
  {
    assert c as int == d as int;
  }

  /** So no two prefixes share an expansion. */
  lemma ExpansionInjective(a: string, b: string)
    requires Bytes(a) && Bytes(b) && HrpExpanded(a) == HrpExpanded(b)
    ensures a == b
  {
    ExpansionIs(a);
    ExpansionIs(b);
    hide HrpExpanded, Splits;
    var n, e := |a|, HrpExpanded(a);
    assert n == |b|;
    forall i | 0 <= i < n ensures a[i] == b[i] {
      SplitsDetermine(a[i], b[i], e[i], e[n + 1 + i]);
    }
  }

  method HrpExpand(hrp: string) returns (out: Symbols)
    requires Bytes(hrp)
    ensures out == HrpExpanded(hrp)
  {
    out := [];
    for i := 0 to |hrp|
      invariant out == HrpHigh(hrp)[..i]
    {
      out := out + [HighBits(HrpByte(hrp[i]))];
    }
    out := out + [0];
    for i := 0 to |hrp|
      invariant out == HrpHigh(hrp) + [0] + HrpLow(hrp)[..i]
    {
      out := out + [LowBits(HrpByte(hrp[i]))];
    }
  }

  // ---------------------------------------------------------------------------
  // The checksum
  // ---------------------------------------------------------------------------

  const ZEROS: Symbols := [0, 0, 0, 0, 0, 0]

  function ShiftedRight(w: bv32, k: nat): bv32
    requires k <= 32
  {
    w >> k
  }

  function LowFive(w: bv32): bv8 { (w & 0xff) as bv8 & 31 }

  /** The five bits of `mod` that become checksum symbol `i`. */
  function Group(mod: bv32, i: nat): bv8
    requires i < 6
  {
    LowFive(ShiftedRight(mod, 5 * (5 - i)))
  }

  ghost function Groups(mod: bv32): Symbols {
    [Group(mod, 0), Group(mod, 1), Group(mod, 2), Group(mod, 3), Group(mod, 4), Group(mod, 5)]
  }

  lemma LowFiveValue(w: bv32)
    ensures LowFive(w) < 32 && LowFive(w) as bv32 == w & 31
  {}

  lemma ShiftedBy(w: bv32)
    ensures ShiftedRight(w, 25) == w >> 25 && ShiftedRight(w, 20) == w >> 20 && ShiftedRight(w, 15) == w >> 15
    ensures ShiftedRight(w, 10) == w >> 10 && ShiftedRight(w, 5) == w >> 5 && ShiftedRight(w, 0) == w
  {}

  lemma GroupValues(mod: bv32)
    ensures AllSymbols(Groups(mod))
    ensures PackSymbols(Groups(mod)) ==
      Pack((mod >> 25) & 31, (mod >> 20) & 31, (mod >> 15) & 31, (mod >> 10) & 31, (mod >> 5) & 31, mod & 31)
  {
    ShiftedBy(mod);
    hide ShiftedRight, LowFive, Pack;
    LowFiveValue(mod >> 25);
    LowFiveValue(mod >> 20);
    LowFiveValue(mod >> 15);
    LowFiveValue(mod >> 10);
    LowFiveValue(mod >> 5);
    LowFiveValue(mod);
  }

  ghost function PackSymbols(c: Symbols): bv32
    requires |c| == 6
  {
    Pack(c[0] as bv32, c[1] as bv32, c[2] as bv32, c[3] as bv32, c[4] as bv32, c[5] as bv32)
  }

  lemma UnpackPack(mod: bv32)
    requires mod < 0x40000000
    ensures Pack((mod >> 25) & 31, (mod >> 20) & 31, (mod >> 15) & 31, (mod >> 10) & 31, (mod >> 5) & 31, mod & 31)
      == mod
  {}

  lemma GroupsPack(mod: bv32)
    requires mod < 0x40000000
    ensures AllSymbols(Groups(mod)) && PackSymbols(Groups(mod)) == mod
  {
    hide Group, Pack;
    GroupValues(mod);
    UnpackPack(mod);
  }

  lemma PackInjective(a: Symbols, b: Symbols)
    requires |a| == |b| == 6 && AllSymbols(a) && AllSymbols(b) && PackSymbols(a) == PackSymbols(b)
    ensures a == b
  {}

  ghost function Appended(w: bv32, c: bv8): bv32 { (w << 5) | (c as bv32) }

  /** Six symbols fed to the zero state are stored verbatim. */
  lemma FoldSix(c: Symbols)
    requires |c| == 6 && AllSymbols(c)
    ensures Fold(0, c) == PackSymbols(c)
  {
    hide Step, Appended, Pack;
    FoldOne(c, 0);
    FoldOne(c, 1);
    FoldOne(c, 2);
    FoldOne(c, 3);
    FoldOne(c, 4);
    FoldOne(c, 5);
    PackSteps(c[0], c[1], c[2], c[3], c[4], c[5]);
    assert c[..6] == c && c[..0] == [];
  }

  lemma FoldOne(c: Symbols, k: nat)
    requires |c| == 6 && AllSymbols(c) && k < 6
    ensures Fold(0, c[..k + 1]) == Appended(Fold(0, c[..k]), c[k])
  {
    hide Step, Reached;
    var before := Fold(0, c[..k]);
    assert c[..k + 1][..k] == c[..k];
    WindowStored(c[..k]);
    ReachGrows(k, before, c[k]);
    StepBelowFeedback(before, c[k]);
  }

  lemma PackSteps(c0: bv8, c1: bv8, c2: bv8, c3: bv8, c4: bv8, c5: bv8)
    requires c0 < 32 && c1 < 32 && c2 < 32 && c3 < 32 && c4 < 32 && c5 < 32
    ensures Appended(Appended(Appended(Appended(Appended(Appended(0, c0), c1), c2), c3), c4), c5)
      == Pack(c0 as bv32, c1 as bv32, c2 as bv32, c3 as bv32, c4 as bv32, c5 as bv32)
  {}

  lemma ZerosPlus(zeros: Symbols, c: Symbols)
    requires |zeros| == |c| && AllZero(zeros)
    ensures XorSymbols(zeros, c) == c
  {}

  lemma FlipLowBit(m: bv32)
    requires m < 0x40000000
    ensures Xor(m, 1) < 0x40000000
  {}

  /** The checksum symbols for the words `p`. */
  ghost function ChecksumFor(p: Symbols): Symbols {
    Groups(Xor(Fold(1, p + ZEROS), 1))
  }

  lemma ChecksumLinear(p: Symbols, c: Symbols)
    requires |c| == 6 && AllSymbols(c)
    ensures Fold(1, p + c) == Xor(Fold(1, p + ZEROS), PackSymbols(c))
  {
    var s := Fold(1, p);
    FoldAppend(1, p, ZEROS);
    FoldAppend(1, p, c);
    FoldLinear(s, 0, ZEROS, c);
    FoldSix(c);
    hide Fold, PackSymbols, Xor;
    ZerosPlus(ZEROS, c);
    XorUnit(s);
  }

  lemma ChecksumRange(p: Symbols)
    requires AllSymbols(p)
    ensures Xor(Fold(1, p + ZEROS), 1) < 0x40000000
  {
    FoldRange(1, p + ZEROS);
    FlipLowBit(Fold(1, p + ZEROS));
  }

  /** Appending six symbols makes the checksum state 1 exactly when they are the checksum. */
  lemma ChecksumValid(p: Symbols, c: Symbols)
    requires AllSymbols(p) && |c| == 6 && AllSymbols(c)
    ensures AllSymbols(ChecksumFor(p))
    ensures Fold(1, p + c) == 1 <==> c == ChecksumFor(p)
  {
    var m := Fold(1, p + ZEROS);
    ChecksumLinear(p, c);
    ChecksumRange(p);
    GroupsPack(Xor(m, 1));
    hide Fold, Groups, PackSymbols, Xor;
    XorCancel(m, PackSymbols(c));
    XorCancel(m, 1);
    if PackSymbols(c) == Xor(m, 1) {
      PackInjective(c, Groups(Xor(m, 1)));
    }
  }

  lemma ChecksumSix(p: Symbols)
    requires AllSymbols(p)
    ensures |ChecksumFor(p)| == 6 && AllSymbols(ChecksumFor(p))
  {
    ChecksumRange(p);
    GroupsPack(Xor(Fold(1, p + ZEROS), 1));
  }

  method Bech32Checksum(hrp: string, data: Symbols) returns (out: Symbols)
    requires Bytes(hrp)
    ensures out == ChecksumFor(HrpExpanded(hrp) + data)
  {
    hide Fold, Xor, Group;
    var values := HrpExpand(hrp);
    values := values + data;
    values := values + [0, 0, 0, 0, 0, 0];
    var mod := Bech32Polymod(values);
    mod := Xor(mod, 1);
    out := [];
    for i := 0 to 6
      invariant out == Groups(mod)[..i]
    {
      out := out + [Group(mod, i)];
    }
  }

  // ---------------------------------------------------------------------------
  // Encoding, and what the encoded string means to a BIP-173 reader
  // ---------------------------------------------------------------------------

  function LowerChar(c: char): char {
    if 'A' <= c <= 'Z' then c + 32 as char else c
  }

  function ToLower(s: string): (r: string)
    ensures |r| == |s| && (Ascii(s) ==> Ascii(r))
  {
    seq(|s|, i requires 0 <= i < |s| => LowerChar(s[i]))
  }

  function Char(v: bv8): char
    requires v < 32
  {
    SymbolIndex(v);
    CHARSET[v as int]
  }

  lemma SymbolIndex(v: bv8)
    ensures v < 32 ==> 0 <= v as int < 32
  {}

  ghost function Chars(s: Symbols): string
    requires AllSymbols(s)
  {
    seq(|s|, i requires 0 <= i < |s| => Char(s[i]))
  }

  /** The value of a charset character. */
  function CharValue(c: char): nat {
    match c
    case 'q' => 0 case 'p' => 1 case 'z' => 2 case 'r' => 3 case 'y' => 4 case '9' => 5 case 'x' => 6 case '8' => 7
    case 'g' => 8 case 'f' => 9 case '2' => 10 case 't' => 11 case 'v' => 12
    case 'd' => 13 case 'w' => 14 case '0' => 15
    case 's' => 16 case '3' => 17 case 'j' => 18 case 'n' => 19 case '5' => 20
    case '4' => 21 case 'k' => 22 case 'h' => 23
    case 'c' => 24 case 'e' => 25 case '6' => 26 case 'm' => 27 case 'u' => 28
    case 'a' => 29 case '7' => 30 case 'l' => 31
    case _ => 32
  }

  lemma CharsetInverse(k: nat)
    requires k < 32
    ensures CharValue(CHARSET[k]) == k
  {}

  lemma CharsInjective(a: Symbols, b: Symbols)
    requires AllSymbols(a) && AllSymbols(b) && Chars(a) == Chars(b)
    ensures a == b
  {
    hide CharValue;
    assert |a| == |Chars(a)| == |Chars(b)| == |b|;
    forall i | 0 <= i < |a|
      ensures a[i] == b[i]
    {
      assert Chars(a)[i] == Chars(b)[i];
      CharInjective(a[i], b[i]);
    }
  }

  lemma CharInverse(v: bv8)
    requires v < 32
    ensures CharValue(Char(v)) == v as int < 32
  {
    SymbolIndex(v);
    CharsetInverse(v as int);
  }

  lemma CharInjective(v: bv8, w: bv8)
    requires v < 32 && w < 32
    ensures Char(v) == Char(w) <==> v == w
    ensures Char(v) != SEPARATOR
  {
    assert CharValue(SEPARATOR) == 32;
    hide CharValue, Char;
    CharInverse(v);
    CharInverse(w);
  }

  /** `s` is the human-readable part, the separator and the characters of `symbols`, whose
      last six are a valid checksum. */
  ghost predicate Checked(s: string, hrp: string, symbols: Symbols) {
    && Bytes(hrp) && AllSymbols(symbols) && |symbols| >= 6
    && s == hrp + [SEPARATOR] + Chars(symbols)
    && Fold(1, HrpExpanded(hrp) + symbols) == 1
  }

  /** A BIP-173 reader accepts `s` as the bytes `data` under `hrp`. */
  ghost predicate Decodes(s: string, hrp: string, data: seq<byte>) {
    exists values: seq<byte>, checksum: Symbols ::
      |checksum| == 6 && Checked(s, hrp, ToSymbols(values) + checksum) && Regrouped(values, 5, data, 8, false)
  }

  lemma EncodedDecodes(hrp: string, data: seq<byte>, values: seq<byte>)
    requires Bytes(hrp) && Regrouped(data, 8, values, 5, true)
    ensures AllSymbols(ToSymbols(values))
    ensures var p := HrpExpanded(hrp) + ToSymbols(values);
      |ChecksumFor(p)| == 6 && AllSymbols(ChecksumFor(p)) &&
      Decodes(hrp + [SEPARATOR] + Chars(ToSymbols(values) + ChecksumFor(p)), hrp, data)
  {
    FiveBitDigits(values);
    HrpExpandedSymbols(hrp);
    EightBitDigits(data);
    RoundTrip(data, 8, values, 5, data);
    hide Regrouped, Fold, Char, ChecksumFor;
    var symbols := ToSymbols(values);
    var p := HrpExpanded(hrp) + symbols;
    ChecksumSix(p);
    ChecksumValid(p, ChecksumFor(p));
    var word := symbols + ChecksumFor(p);
    assert HrpExpanded(hrp) + word == p + ChecksumFor(p);
    assert Checked(hrp + [SEPARATOR] + Chars(word), hrp, word);
  }

  /** `lower` is the lower-casing of strings, of which only what it does to ASCII is known
      here. */
  method Bech32Encode(hrp: string, data: seq<byte>, lower: string -> string) returns (r: Result<string, Error>)
    requires Bytes(lower(hrp)) && (Ascii(hrp) ==> lower(hrp) == ToLower(hrp))
    ensures r.Success? && Decodes(r.value, lower(hrp), data)
    ensures Ascii(hrp) ==> Decodes(r.value, ToLower(hrp), data)
  {
    hide Regrouped, Fold, Char, ChecksumFor, Decodes;
    EightBitDigits(data);
    var converted := ConvertBits(data, 8, 5, true);
    var values := ToSymbols(converted.value);
    var prefix := lower(hrp);
    EncodedDecodes(prefix, data, converted.value);
    var checksum := Bech32Checksum(prefix, values);
    var out := prefix + [SEPARATOR];
    for i := 0 to |values|
      invariant out == prefix + [SEPARATOR] + Chars(values)[..i]
    {
      out := out + [Char(values[i])];
    }
    ghost var head := out;
    for i := 0 to |checksum|
      invariant out == head + Chars(checksum)[..i]
    {
      out := out + [Char(checksum[i])];
    }
    assert Chars(values + checksum) == Chars(values) + Chars(checksum);
    assert out == prefix + [SEPARATOR] + Chars(values + checksum);
    return Success(out);
  }

  lemma EightBitDigits(data: seq<byte>)
    ensures Digits(data, 8)
  {}

  lemma LastSeparator(s: string, hrp: string, symbols: Symbols)
    requires AllSymbols(symbols) && s == hrp + [SEPARATOR] + Chars(symbols)
    ensures |s| == |hrp| + 1 + |symbols| && s[|hrp|] == SEPARATOR && s[..|hrp|] == hrp
    ensures forall k :: |hrp| < k < |s| ==> s[k] != SEPARATOR && s[k] == Char(symbols[k - |hrp| - 1])
  {}

  /** The separator is the last one in the string, so it splits the string in one way. */
  lemma SplitUnique(s: string, h1: string, a: Symbols, h2: string, b: Symbols)
    requires AllSymbols(a) && AllSymbols(b)
    requires s == h1 + [SEPARATOR] + Chars(a) && s == h2 + [SEPARATOR] + Chars(b)
    ensures h1 == h2 && a == b
  {
    hide Char;
    LastSeparator(s, h1, a);
    LastSeparator(s, h2, b);
    assert Chars(a) == s[|h1| + 1..] && Chars(b) == s[|h2| + 1..];
    CharsInjective(a, b);
  }

  /** A string is read in at most one way; with Bech32Encode's postcondition, encoding is
      injective up to the case of the human-readable part. */
  lemma DecodesUnique(s: string, h1: string, d1: seq<byte>, h2: string, d2: seq<byte>)
    requires Decodes(s, h1, d1) && Decodes(s, h2, d2)
    ensures h1 == h2 && d1 == d2
  {
    var v1: seq<byte>, c1: Symbols :| |c1| == 6 && Checked(s, h1, ToSymbols(v1) + c1) && Regrouped(v1, 5, d1, 8, false);
    var v2: seq<byte>, c2: Symbols :| |c2| == 6 && Checked(s, h2, ToSymbols(v2) + c2) && Regrouped(v2, 5, d2, 8, false);
    hide Regrouped, Fold, Char;
    SplitUnique(s, h1, ToSymbols(v1) + c1, h2, ToSymbols(v2) + c2);
    assert ToSymbols(v1) == (ToSymbols(v1) + c1)[..|v1|];
    assert ToSymbols(v2) == (ToSymbols(v2) + c2)[..|v2|];
    ToSymbolsInjective(v1, v2);
    RegroupedUnique(v1, 5, d1, d2, 8, false);
  }

  /** Damaging up to six consecutive characters after the separator, without inventing a
      new separator, never yields another string that a reader accepts. */
  lemma DamageRejected(s: string, hrp: string, data: seq<byte>, t: string, lo: nat, h: string, d: seq<byte>)
    requires Decodes(s, hrp, data)
    requires |t| == |s| && t != s && |hrp| < lo
    requires forall i :: 0 <= i < |s| && !(lo <= i < lo + 6) ==> t[i] == s[i]
    requires forall i :: lo <= i < lo + 6 && i < |t| ==> t[i] != SEPARATOR
    ensures !Decodes(t, h, d)
  {
    if Decodes(t, h, d) {
      var v1: seq<byte>, c1: Symbols :| |c1| == 6 && Checked(s, hrp, ToSymbols(v1) + c1);
      var v2: seq<byte>, c2: Symbols :| |c2| == 6 && Checked(t, h, ToSymbols(v2) + c2);
      SameCheckedWord(s, hrp, ToSymbols(v1) + c1, t, h, ToSymbols(v2) + c2, lo);
    }
  }

  lemma SameCheckedWord(s: string, hrp: string, a: Symbols, t: string, h: string, b: Symbols, lo: nat)
    requires Checked(s, hrp, a) && Checked(t, h, b) && |t| == |s| && |hrp| < lo
    requires forall i :: 0 <= i < |s| && !(lo <= i < lo + 6) ==> t[i] == s[i]
    requires forall i :: lo <= i < lo + 6 && i < |t| ==> t[i] != SEPARATOR
    ensures s == t
  {
    hide Fold, Char;
    LastSeparator(s, hrp, a);
    LastSeparator(t, h, b);
    assert h == hrp;
    var e := HrpExpanded(hrp);
    HrpExpandedSymbols(hrp);
    var start := |e| + lo - |hrp| - 1;
    forall i | 0 <= i < |a| && !(start <= |e| + i < start + 6)
      ensures a[i] == b[i]
    {
      var k := |hrp| + 1 + i;
      assert t[k] == s[k];
      CharInjective(a[i], b[i]);
    }
    BurstDetected(e + a, e + b, start);
    assert a == (e + a)[|e|..] && b == (e + b)[|e|..];
  }

  // ---------------------------------------------------------------------------
  // A published vector
  // ---------------------------------------------------------------------------

  /** The generator words that the five bits of `top` select. */
  ghost function Words(top: bv32): bv32 {
    (if top & 1 != 0 then 0x3b6a57b2 else 0) ^
    (if top & 2 != 0 then 0x26508e6d else 0) ^
    (if top & 4 != 0 then 0x1ea119fa else 0) ^
    (if top & 8 != 0 then 0x3d4233dd else 0) ^
    (if top & 16 != 0 then 0x2a1462b3 else 0)
  }

  ghost function Stepped(chk: bv32, v: bv8): bv32 { Xor(Shift(chk, v), Words(chk >> 25)) }

  lemma TopFive(chk: bv32)
    ensures chk < 0x40000000 ==> chk >> 25 < 32
  {}

  lemma Feeds(s: Symbols, v: bv8, t: Symbols, chk: bv32, next: bv32)
    requires Fold(1, s) == chk && chk < 0x40000000 && t == s + [v] && next == Stepped(chk, v)
    ensures Fold(1, t) == next
  {
    hide Xor, Shift, Feedback;
    assert t[..|s|] == s;
    TopFive(chk);
    FeedbackWords(chk >> 25);
  }

  /** A test vector of BIP-173: a reader accepts it as no data under the prefix "a". */
  lemma PublishedVector()
    ensures Decodes("a12uel5l", "a", [])
  {
    var word: Symbols := [10, 28, 25, 31, 20, 31];
    assert HrpExpanded("a") == [3, 0, 1] by {
      ExpansionIs("a");
      hide HrpExpanded;
      var e := HrpExpanded("a");
      SplitsDigits('a', e[0], e[2]);
    }
    VectorChecksum();
    assert ToSymbols([]) + word == word;
    assert Chars(word) == "2uel5l" by { CharsOf(word); }
    assert Checked("a12uel5l", "a", word);
    NothingRegrouped();
  }

  lemma SplitsDigits(c: char, high: bv8, low: bv8)
    requires c == 'a' && Splits(c, high, low)
    ensures high == 3 && low == 1
  {}

  lemma NothingRegrouped()
    ensures Regrouped([], 5, [], 8, false)
  {}

  lemma CharsOf(word: Symbols)
    requires word == [10, 28, 25, 31, 20, 31]
    ensures Chars(word) == "2uel5l"
  {}

  lemma FoldNothing()
    ensures Fold(1, []) == 1
  {}

  lemma VectorChecksum()
    ensures Fold(1, [3, 0, 1] + [10, 28, 25, 31, 20, 31]) == 1
  {
    FoldNothing();
    hide Fold;
    Feeds([], 3, [3], 1, 0x23);
    Feeds([3], 0, [3, 0], 0x23, 0x460);
    Feeds([3, 0], 1, [3, 0, 1], 0x460, 0x8c01);
    Feeds([3, 0, 1], 10, [3, 0, 1, 10], 0x8c01, 0x11802a);
    Feeds([3, 0, 1, 10], 28, [3, 0, 1, 10, 28], 0x11802a, 0x230055c);
    Feeds([3, 0, 1, 10, 28], 25, [3, 0, 1, 10, 28, 25], 0x230055c, 0x3d6afc2b);
    Feeds([3, 0, 1, 10, 28, 25], 31, [3, 0, 1, 10, 28, 25, 31], 0x3d6afc2b, 0x2f84386);
    Feeds([3, 0, 1, 10, 28, 25, 31], 20, [3, 0, 1, 10, 28, 25, 31, 20], 0x2f84386, 0x24622766);
    Feeds([3, 0, 1, 10, 28, 25, 31, 20], 31, [3, 0, 1] + [10, 28, 25, 31, 20, 31], 0x24622766, 1);
  }
}
