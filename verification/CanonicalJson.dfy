/** The canonical JSON encoding that capsules are hashed in (internal/capsule/canonical.go),
    and that a reader of RFC 8259 text finds in it what was written. */
module CanonicalJson {
  import opened Wrappers
  import opened SortedStrings
  import opened JsonText

  // ---------------------------------------------------------------------------
  // Strings
  // ---------------------------------------------------------------------------

  function HexDigit(n: nat): char
    requires n < 16
  {
    "0123456789abcdef"[n]
  }

  function Hex4(n: nat): (h: string)
    requires n < 0x10000
    ensures |h| == 4
  {
    [HexDigit(n / 0x1000), HexDigit(n / 0x100 % 16), HexDigit(n / 16 % 16), HexDigit(n % 16)]
  }

  /** Characters written as a numeric escape: controls without a short form, those that mean
      something to HTML, and the two line separators JavaScript does not allow. */
  predicate Numeric(c: char) {
    || (c < ' ' && c != '\n' && c != '\r' && c != '\t' && c as int != 8 && c as int != 12)
    || c == '<' || c == '>' || c == '&' || c as int == 0x2028 || c as int == 0x2029
  }

  function Escape(c: char): string {
    if c == '"' then "\\\""
    else if c == '\\' then "\\\\"
    else if c as int == 8 then "\\b"
    else if c as int == 12 then "\\f"
    else if c == '\n' then "\\n"
    else if c == '\r' then "\\r"
    else if c == '\t' then "\\t"
    else if Numeric(c) then "\\u" + Hex4(c as int)
    else [c]
  }

  function EscapeAll(s: string): string {
    if s == [] then [] else Escape(s[0]) + EscapeAll(s[1..])
  }

  function Quote(s: string): string {
    "\"" + EscapeAll(s) + "\""
  }

  /** A character that may stand in a string as it is. */
  predicate Harmless(c: char) {
    c >= ' ' && c != '<' && c != '>' && c != '&' && c as int != 0x2028 && c as int != 0x2029
  }

  /** Where a reader that knows only that a backslash protects what follows it finds the
      closing quote. */
  function ClosingQuote(s: string): nat {
    if s == [] || s[0] == '"' then 0
    else if s[0] == '\\' && |s| >= 2 then 2 + ClosingQuote(s[2..])
    else 1 + ClosingQuote(s[1..])
  }

  /** Escaping leaves no quote that would end the string early, and nothing that would break
      the line or be taken for markup. */
  lemma {:induction false} EscapeAllIsSafe(s: string, rest: string)
    ensures ClosingQuote(EscapeAll(s) + "\"" + rest) == |EscapeAll(s)|
    ensures forall i :: 0 <= i < |EscapeAll(s)| ==> Harmless(EscapeAll(s)[i])
  {
    hide Escape, Harmless, ClosingQuote;
    if s == [] {
      assert EscapeAll(s) + "\"" + rest == "\"" + rest;
      QuoteFirst(rest);
    } else {
      EscapeAllIsSafe(s[1..], rest);
      EscapeIsSafe(s[0]);
      EscapeHidesQuote(s[0], EscapeAll(s[1..]) + "\"" + rest);
      assert EscapeAll(s) + "\"" + rest == Escape(s[0]) + (EscapeAll(s[1..]) + "\"" + rest);
    }
  }

  lemma QuoteFirst(rest: string)
    ensures ClosingQuote("\"" + rest) == 0
  {}

  lemma EscapeIsSafe(c: char)
    ensures forall i :: 0 <= i < |Escape(c)| ==> Harmless(Escape(c)[i])
    ensures Escape(c) != [] && Escape(c)[0] != '"'
  {
    HexDigitsAreHarmless();
  }

  lemma HexDigitsAreHarmless()
    ensures forall n: nat :: n < 16 ==> Harmless(HexDigit(n)) && HexDigit(n) != '"' && HexDigit(n) != '\\'
  {}

  lemma Hex4IsHarmless(n: nat)
    requires n < 0x10000
    ensures forall i :: 0 <= i < 4 ==> Hex4(n)[i] != '"' && Hex4(n)[i] != '\\'
  {
    HexDigitsAreHarmless();
  }

  lemma EscapeHidesQuote(c: char, rest: string)
    ensures ClosingQuote(Escape(c) + rest) == |Escape(c)| + ClosingQuote(rest)
  {
    hide Hex4;
    var s := Escape(c) + rest;
    if Escape(c) == [c] {
      assert s[1..] == rest;
    } else if Escape(c)[1] != 'u' {
      assert s[2..] == rest;
    } else {
      var h := Hex4(c as int);
      Hex4IsHarmless(c as int);
      assert s[2..] == h + rest;
      HexSkipped(h, rest);
    }
  }

  lemma PlainSkipped(c: char, rest: string)
    requires c != '"' && c != '\\'
    ensures ClosingQuote([c] + rest) == 1 + ClosingQuote(rest)
  {}

  lemma HexSkipped(h: string, rest: string)
    requires |h| == 4 && forall i :: 0 <= i < 4 ==> h[i] != '"' && h[i] != '\\'
    ensures ClosingQuote(h + rest) == 4 + ClosingQuote(rest)
  {
    hide ClosingQuote;
    PlainSkipped(h[3], rest);
    PlainSkipped(h[2], [h[3]] + rest);
    PlainSkipped(h[1], [h[2]] + ([h[3]] + rest));
    PlainSkipped(h[0], [h[1]] + ([h[2]] + ([h[3]] + rest)));
    assert h + rest == [h[0]] + ([h[1]] + ([h[2]] + ([h[3]] + rest)));
  }

  lemma HexDigitReads(n: nat)
    requires n < 16
    ensures HexDigitValue(HexDigit(n)) == Some(n)
  {}

  lemma HexPlaces(n: nat)
    ensures 0x1000 * (n / 0x1000) + 0x100 * (n / 0x100 % 16) + 0x10 * (n / 16 % 16) + n % 16 == n
  {
    assert n == 16 * (n / 16) + n % 16;
    assert n / 16 == 16 * (n / 0x100) + n / 16 % 16;
    assert n / 0x100 == 16 * (n / 0x1000) + n / 0x100 % 16;
  }

  lemma HexReads(n: nat, rest: string)
    requires n < 0x10000
    ensures HexValue(Hex4(n) + rest) == Some(n)
  {
    hide HexDigit, HexDigitValue;
    HexDigitReads(n / 0x1000);
    HexDigitReads(n / 0x100 % 16);
    HexDigitReads(n / 16 % 16);
    HexDigitReads(n % 16);
    HexPlaces(n);
  }

  lemma UnescapeEscape(c: char, rest: string)
    ensures Escape(c) + rest != [] && Unescape(Escape(c) + rest) == Some((c, |Escape(c)|))
  {
    hide Hex4, HexValue;
    var s := Escape(c) + rest;
    if Escape(c) == [c] {
      assert s[0] == c;
    } else if Escape(c)[1] != 'u' {
      assert s[0] == '\\' && s[1] == Escape(c)[1];
    } else {
      HexReads(c as int, rest);
      assert Escape(c) == "\\u" + Hex4(c as int);
      assert s[2..] == Hex4(c as int) + rest;
    }
  }

  /** A reader finds in a quoted string just the string. */
  lemma {:induction false} TextReads(s: string, rest: string)
    ensures ReadText(EscapeAll(s) + "\"" + rest) == Some((s, rest))
  {
    hide Escape, Unescape;
    var all := EscapeAll(s) + "\"" + rest;
    if s == [] {
      assert all == "\"" + rest && all[1..] == rest;
    } else {
      var tail := EscapeAll(s[1..]) + "\"" + rest;
      assert all == Escape(s[0]) + tail;
      EscapeIsSafe(s[0]);
      UnescapeEscape(s[0], tail);
      assert all[|Escape(s[0])|..] == tail;
      TextReads(s[1..], rest);
      assert s == [s[0]] + s[1..];
    }
  }

  /** One can tell from what follows an opening quote where the string ends and what it is. */
  lemma EscapeAllUnique(a: string, b: string, ra: string, rb: string)
    requires EscapeAll(a) + "\"" + ra == EscapeAll(b) + "\"" + rb
    ensures a == b && ra == rb
  {
    TextReads(a, ra);
    TextReads(b, rb);
  }

  /** And from a number that something separates from what follows, where it ends. */
  lemma LiteralUnique(a: string, b: string, ra: string, rb: string)
    requires NumberLiteral(a) && NumberLiteral(b) && Follows(ra) && Follows(rb)
    requires a + ra == b + rb
    ensures a == b && ra == rb
  {
    NumberEnds(a, ra);
    NumberEnds(b, rb);
    assert (a + ra)[..|a|] == a && (b + rb)[..|b|] == b;
    assert (a + ra)[|a|..] == ra && (b + rb)[|b|..] == rb;
  }

  // ---------------------------------------------------------------------------
  // Documents
  // ---------------------------------------------------------------------------

  ghost function Print(t: Tree): string
    decreases t, if t.Obj? then |t.fields.Keys| + 1 else 0
  {
    match t
    case Null => "null"
    case Bool(b) => if b then "true" else "false"
    case Num(literal) => literal
    case Str(text) => Quote(text)
    case Arr(items) => "[" + PrintItems(items) + "]"
    case Obj(fields) => "{" + PrintFields(t, SortedKeys(fields.Keys)) + "}"
  }

  ghost function PrintItems(items: seq<Tree>): string
    decreases items
  {
    if items == [] then []
    else if |items| == 1 then Print(items[0])
    else Print(items[0]) + "," + PrintItems(items[1..])
  }

  ghost function PrintField(t: Tree, k: string): string
    requires t.Obj? && k in t.fields
    decreases t, 0
  {
    Quote(k) + ":" + Print(t.fields[k])
  }

  ghost function PrintFields(t: Tree, ks: seq<string>): string
    requires t.Obj? && forall k :: k in ks ==> k in t.fields
    decreases t, |ks|
  {
    if ks == [] then []
    else if |ks| == 1 then PrintField(t, ks[0])
    else PrintField(t, ks[0]) + "," + PrintFields(t, ks[1..])
  }

  /** Every number in the document has the literal of a number. */
  ghost predicate WellFormed(t: Tree)
    decreases t
  {
    match t
    case Num(literal) => NumberLiteral(literal)
    case Arr(items) => forall i :: 0 <= i < |items| ==> WellFormed(items[i])
    case Obj(fields) => forall k :: k in fields ==> WellFormed(fields[k])
    case _ => true
  }

  // ---------------------------------------------------------------------------
  // A reader finds in the encoding what was encoded
  // ---------------------------------------------------------------------------

  /** The encoding of a value begins with no white space and no closing bracket. */
  ghost predicate Opens(s: string) {
    s != [] && !Space(s[0]) && s[0] != ']' && s[0] != '}'
  }

  lemma PrintOpens(t: Tree)
    requires WellFormed(t)
    ensures Opens(Print(t))
  {
    hide NumberLiteral;
    if t.Num? { LiteralStarts(t.literal); }
  }

  ghost function ItemsTail(items: seq<Tree>, rest: string): (tail: string)
    requires items != []
    ensures Follows(tail) && Trim(tail) == tail
  {
    if |items| == 1 then "]" + rest else "," + PrintItems(items[1..]) + "]" + rest
  }

  lemma RegroupLast(a: string, close: string, rest: string)
    ensures a + close + rest == a + (close + rest)
  {}

  lemma RegroupMore(a: string, more: string, close: string, rest: string)
    ensures a + "," + more + close + rest == a + ("," + more + close + rest)
  {}

  lemma RegroupField(e: string, p: string, rest: string)
    ensures "\"" + e + "\"" + ":" + p + rest == "\"" + (e + "\"" + (":" + (p + rest)))
  {}

  lemma ItemsSplit(items: seq<Tree>, rest: string)
    requires items != []
    ensures PrintItems(items) + "]" + rest == Print(items[0]) + ItemsTail(items, rest)
  {
    hide Print;
    if |items| == 1 {
      RegroupLast(Print(items[0]), "]", rest);
    } else {
      RegroupMore(Print(items[0]), PrintItems(items[1..]), "]", rest);
    }
  }

  ghost function FieldsTail(t: Tree, ks: seq<string>, rest: string): (tail: string)
    requires t.Obj? && ks != [] && forall k :: k in ks ==> k in t.fields
    ensures Follows(tail) && Trim(tail) == tail
  {
    if |ks| == 1 then "}" + rest else "," + PrintFields(t, ks[1..]) + "}" + rest
  }

  lemma FieldFirst(t: Tree, ks: seq<string>, rest: string)
    requires t.Obj? && ks != [] && forall k :: k in ks ==> k in t.fields
    ensures PrintFields(t, ks) + "}" + rest == PrintField(t, ks[0]) + FieldsTail(t, ks, rest)
  {
    hide Print, PrintField;
    if |ks| == 1 {
      RegroupLast(PrintField(t, ks[0]), "}", rest);
    } else {
      RegroupMore(PrintField(t, ks[0]), PrintFields(t, ks[1..]), "}", rest);
    }
  }

  lemma FieldsSplit(t: Tree, ks: seq<string>, rest: string)
    requires t.Obj? && ks != [] && forall k :: k in ks ==> k in t.fields
    ensures PrintFields(t, ks) + "}" + rest
      == "\"" + (EscapeAll(ks[0]) + "\"" + (":" + (Print(t.fields[ks[0]]) + FieldsTail(t, ks, rest))))
  {
    hide Print, EscapeAll, PrintFields, FieldsTail;
    FieldFirst(t, ks, rest);
    RegroupField(EscapeAll(ks[0]), Print(t.fields[ks[0]]), FieldsTail(t, ks, rest));
  }

  lemma OpensOn(s: string, rest: string)
    requires Opens(s)
    ensures Opens(s + rest) && Trim(s + rest) == s + rest
  {}

  lemma {:induction false} ItemsRead(items: seq<Tree>, rest: string)
    requires items != [] && forall i :: 0 <= i < |items| ==> WellFormed(items[i])
    ensures
      var s := PrintItems(items) + "]" + rest;
      Opens(s) && Trim(s) == s && ReadItems(s) == Some((items, rest))
    decreases items, 0
  {
    hide Print, PrintItems, WellFormed, Trim, Opens, ReadValue;
    var s, tail := PrintItems(items) + "]" + rest, ItemsTail(items, rest);
    ItemsSplit(items, rest);
    PrintReads(items[0], tail);
    PrintOpens(items[0]);
    OpensOn(Print(items[0]), tail);
    if |items| == 1 {
      assert tail[1..] == rest && items == [items[0]];
    } else {
      assert tail[1..] == PrintItems(items[1..]) + "]" + rest;
      ItemsRead(items[1..], rest);
      assert items == [items[0]] + items[1..];
    }
  }

  /** The fields of those names. */
  ghost function Fields(t: Tree, ks: seq<string>): map<string, Tree>
    requires t.Obj? && forall k :: k in ks ==> k in t.fields
  {
    map k | k in ks :: t.fields[k]
  }

  lemma {:induction false} FieldReads(t: Tree, k: string, rest: string)
    requires t.Obj? && WellFormed(t) && k in t.fields && Follows(rest)
    ensures
      var s := "\"" + (EscapeAll(k) + "\"" + (":" + (Print(t.fields[k]) + rest)));
      Opens(s) && Trim(s) == s && ReadField(s) == Some(((k, t.fields[k]), rest))
    decreases t, 0
  {
    hide Print, EscapeAll, ReadText, ReadValue;
    var v := Print(t.fields[k]) + rest;
    var s := "\"" + (EscapeAll(k) + "\"" + (":" + v));
    assert s[1..] == EscapeAll(k) + "\"" + (":" + v);
    TextReads(k, ":" + v);
    assert (":" + v)[1..] == v;
    PrintReads(t.fields[k], rest);
    PrintOpens(t.fields[k]);
    OpensOn(Print(t.fields[k]), rest);
  }

  lemma {:induction false} FieldsRead(t: Tree, ks: seq<string>, rest: string)
    requires t.Obj? && WellFormed(t) && ks != [] && forall k :: k in ks ==> k in t.fields
    ensures
      var s := PrintFields(t, ks) + "}" + rest;
      Opens(s) && Trim(s) == s && ReadFields(s) == Some((Fields(t, ks), rest))
    decreases t, |ks|
  {
    hide Print, EscapeAll, PrintFields, WellFormed, Trim, Opens, ReadField;
    var s, tail := PrintFields(t, ks) + "}" + rest, FieldsTail(t, ks, rest);
    FieldsSplit(t, ks, rest);
    FieldReads(t, ks[0], tail);
    if |ks| == 1 {
      assert tail[1..] == rest;
      assert Fields(t, ks) == map[ks[0] := t.fields[ks[0]]];
    } else {
      assert tail[1..] == PrintFields(t, ks[1..]) + "}" + rest;
      FieldsRead(t, ks[1..], rest);
      assert Fields(t, ks) == map[ks[0] := t.fields[ks[0]]] + Fields(t, ks[1..]);
    }
  }

  /** A reader of RFC 8259 text finds in the encoding of a document, followed by anything that
      may follow a value, just the document and what follows. */
  lemma {:induction false} PrintReads(t: Tree, rest: string)
    requires WellFormed(t) && Follows(rest)
    ensures ReadValue(Print(t) + rest) == Some((t, rest))
    decreases t, 1 + if t.Obj? then |t.fields.Keys| else 0
  {
    hide Print, PrintItems, PrintFields, ReadValue, ReadItems, ReadFields, Opens, Trim, NumberLiteral, SortedKeys;
    PrintCases(t);
    match t
    case Null => NullReads(rest);
    case Bool(b) => BoolReads(b, rest);
    case Num(literal) => NumReads(literal, rest);
    case Str(text) => StrReads(text, rest);
    case Arr(items) =>
      if items != [] { ItemsRead(items, rest); }
      ArrReads(items, PrintItems(items), rest);
    case Obj(fields) =>
      var ks := SortedKeys(fields.Keys);
      if ks != [] { FieldsRead(t, ks, rest); }
      assert Fields(t, ks) == fields;
      ObjReads(fields, PrintFields(t, ks), rest);
  }

  lemma PrintCases(t: Tree)
    ensures t.Null? ==> Print(t) == "null"
    ensures t.Bool? ==> Print(t) == if t.b then "true" else "false"
    ensures t.Num? ==> Print(t) == t.literal
    ensures t.Str? ==> Print(t) == Quote(t.text)
    ensures t.Arr? ==> Print(t) == "[" + PrintItems(t.items) + "]" && (t.items == [] ==> PrintItems(t.items) == [])
    ensures t.Obj? ==> Print(t) == "{" + PrintFields(t, SortedKeys(t.fields.Keys)) + "}"
    ensures t.Obj? && t.fields == map[] ==> PrintFields(t, SortedKeys(t.fields.Keys)) == []
  {}

  lemma NullReads(rest: string)
    ensures ReadValue("null" + rest) == Some((Null, rest))
  {
    assert ("null" + rest)[4..] == rest;
  }

  lemma StrReads(text: string, rest: string)
    ensures ReadValue(Quote(text) + rest) == Some((Str(text), rest))
  {
    hide EscapeAll, ReadText;
    TextReads(text, rest);
    assert (Quote(text) + rest)[1..] == EscapeAll(text) + "\"" + rest;
  }

  lemma ArrReads(items: seq<Tree>, inside: string, rest: string)
    requires
      if items == [] then inside == []
      else
        var s := inside + "]" + rest;
        Opens(s) && Trim(s) == s && ReadItems(s) == Some((items, rest))
    ensures ReadValue("[" + inside + "]" + rest) == Some((Arr(items), rest))
  {
    hide ReadItems;
    var s := "[" + inside + "]" + rest;
    assert s[1..] == inside + "]" + rest;
    if items == [] {
      assert s[1..] == "]" + rest && s[1..][1..] == rest;
    }
  }

  lemma ObjReads(fields: map<string, Tree>, inside: string, rest: string)
    requires
      if fields == map[] then inside == []
      else
        var s := inside + "}" + rest;
        Opens(s) && Trim(s) == s && ReadFields(s) == Some((fields, rest))
    ensures ReadValue("{" + inside + "}" + rest) == Some((Obj(fields), rest))
  {
    hide ReadFields;
    var s := "{" + inside + "}" + rest;
    assert s[1..] == inside + "}" + rest;
    if fields == map[] {
      assert s[1..] == "}" + rest && s[1..][1..] == rest;
    }
  }

  lemma BoolReads(b: bool, rest: string)
    ensures ReadValue((if b then "true" else "false") + rest) == Some((Bool(b), rest))
  {
    var s := (if b then "true" else "false") + rest;
    assert s[if b then 4 else 5..] == rest;
  }

  lemma NumReads(literal: string, rest: string)
    requires NumberLiteral(literal) && Follows(rest)
    ensures ReadValue(literal + rest) == Some((Num(literal), rest))
  {
    hide NumberLength;
    var s := literal + rest;
    LiteralStarts(literal);
    NumberEnds(literal, rest);
    assert s[0] == literal[0] && s[..|literal|] == literal && s[|literal|..] == rest;
  }

  /** So a whole encoding is JSON, and says what was encoded. */
  lemma DocumentReads(t: Tree)
    requires WellFormed(t)
    ensures ReadDocument(Print(t)) == Some(t)
  {
    hide Print, ReadValue;
    PrintReads(t, "");
    PrintOpens(t);
    OpensOn(Print(t), "");
    assert Print(t) + "" == Print(t);
  }

  /** From the encoding of a document, followed by nothing or by what may follow a value, one
      can tell the document and where its encoding ends. */
  lemma PrintUnique(a: Tree, b: Tree, ra: string, rb: string)
    requires WellFormed(a) && WellFormed(b) && Follows(ra) && Follows(rb)
    requires Print(a) + ra == Print(b) + rb
    ensures a == b && ra == rb
  {
    PrintReads(a, ra);
    PrintReads(b, rb);
  }

  /** Different documents have different encodings. */
  lemma PrintInjective(a: Tree, b: Tree)
    requires WellFormed(a) && WellFormed(b)
    ensures Print(a) == Print(b) <==> a == b
  {
    DocumentReads(a);
    DocumentReads(b);
  }

  // ---------------------------------------------------------------------------
  // Writing it
  // ---------------------------------------------------------------------------

  class Buffer {
    var text: string

    constructor ()
      ensures text == ""
    {
      text := "";
    }

    method Write(s: string)
      modifies this
      ensures text == old(text) + s
    {
      text := text + s;
    }
  }

  /** What is still to be written of a list before element `i`. */
  ghost function ItemsFrom(items: seq<Tree>, i: nat): string
    requires i <= |items|
  {
    if i == 0 then PrintItems(items)
    else if i < |items| then "," + PrintItems(items[i..])
    else []
  }

  lemma ItemsFromNext(items: seq<Tree>, i: nat)
    requires i < |items|
    ensures ItemsFrom(items, i) == (if i == 0 then [] else ",") + Print(items[i]) + ItemsFrom(items, i + 1)
  {}

  ghost function FieldsFrom(t: Tree, ks: seq<string>, i: nat): string
    requires t.Obj? && i <= |ks| && forall k :: k in ks ==> k in t.fields
  {
    if i == 0 then PrintFields(t, ks)
    else if i < |ks| then "," + PrintFields(t, ks[i..])
    else []
  }

  lemma FieldsFromNext(t: Tree, ks: seq<string>, i: nat)
    requires t.Obj? && i < |ks| && forall k :: k in ks ==> k in t.fields
    ensures FieldsFrom(t, ks, i)
      == (if i == 0 then [] else ",") + (Quote(ks[i]) + (":" + (Print(t.fields[ks[i]]) + FieldsFrom(t, ks, i + 1))))
  {
    hide Print, Quote;
    assert ks[0..] == ks;
    assert ks[i..][0] == ks[i] && ks[i..][1..] == ks[i + 1..];
    var q, p, rest := Quote(ks[i]), Print(t.fields[ks[i]]), FieldsFrom(t, ks, i + 1);
    assert PrintField(t, ks[i]) + rest == q + (":" + (p + rest));
  }

  lemma Cat(a: string, b: string, c: string)
    ensures a + b + c == a + (b + c)
  {}

  lemma CatItem(before: string, sep: string, p: string, rest: string)
    ensures before + (sep + p + rest) == before + sep + p + rest
    ensures sep == [] ==> before + sep == before
  {}

  lemma CatField(before: string, sep: string, q: string, p: string, rest: string)
    ensures before + (sep + (q + (":" + (p + rest)))) == before + sep + q + ":" + p + rest
    ensures sep == [] ==> before + sep == before
  {}

  /** However the objects in `v` are walked, what is appended is the encoding of `v`. */
  method WriteCanonical(buf: Buffer, v: Tree)
    modifies buf
    ensures buf.text == old(buf.text) + Print(v)
    decreases v
  {
    match v {
    case Null =>
      buf.Write("null");
    case Bool(b) =>
      buf.Write(if b then "true" else "false");
    case Str(text) =>
      buf.Write(Quote(text));
    case Num(literal) =>
      buf.Write(literal);
    case Arr(items) =>
      WriteItems(buf, items);
    case Obj(fields) =>
      WriteFields(buf, v);
    }
  }

  method WriteItems(buf: Buffer, items: seq<Tree>)
    modifies buf
    ensures buf.text == old(buf.text) + ("[" + PrintItems(items) + "]")
    decreases items
  {
    hide Print, PrintItems, ItemsFrom;
    buf.Write("[");
    ghost var start := old(buf.text);
    Cat(start, "[", PrintItems(items));
    NothingLeft(items);
    for i := 0 to |items|
      invariant buf.text + ItemsFrom(items, i) == start + ("[" + PrintItems(items))
    {
      ItemsFromNext(items, i);
      ghost var before := buf.text;
      if i > 0 {
        buf.Write(",");
      }
      WriteCanonical(buf, items[i]);
      CatItem(before, if i == 0 then [] else ",", Print(items[i]), ItemsFrom(items, i + 1));
    }
    assert buf.text == buf.text + ItemsFrom(items, |items|);
    buf.Write("]");
    Cat(start, "[" + PrintItems(items), "]");
  }

  lemma NothingLeft(items: seq<Tree>)
    ensures ItemsFrom(items, |items|) == [] && ItemsFrom(items, 0) == PrintItems(items)
  {}

  method WriteFields(buf: Buffer, v: Tree)
    requires v.Obj?
    modifies buf
    ensures buf.text == old(buf.text) + ("{" + PrintFields(v, SortedKeys(v.fields.Keys)) + "}")
    decreases v, 0
  {
    hide Print, PrintFields, Quote, FieldsFrom;
    var keys := KeysInOrder(v.fields.Keys);
    buf.Write("{");
    ghost var start := old(buf.text);
    Cat(start, "{", PrintFields(v, keys));
    NoFieldLeft(v, keys);
    for i := 0 to |keys|
      invariant buf.text + FieldsFrom(v, keys, i) == start + ("{" + PrintFields(v, keys))
    {
      FieldsFromNext(v, keys, i);
      ghost var before := buf.text;
      if i > 0 {
        buf.Write(",");
      }
      buf.Write(Quote(keys[i]));
      buf.Write(":");
      WriteCanonical(buf, v.fields[keys[i]]);
      CatField(before, if i == 0 then [] else ",", Quote(keys[i]), Print(v.fields[keys[i]]),
        FieldsFrom(v, keys, i + 1));
    }
    assert buf.text == buf.text + FieldsFrom(v, keys, |keys|);
    buf.Write("}");
    Cat(start, "{" + PrintFields(v, keys), "}");
  }

  lemma NoFieldLeft(t: Tree, ks: seq<string>)
    requires t.Obj? && forall k :: k in ks ==> k in t.fields
    ensures FieldsFrom(t, ks, |ks|) == [] && FieldsFrom(t, ks, 0) == PrintFields(t, ks)
  {}
}
