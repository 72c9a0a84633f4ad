/** A reader of JSON text, after RFC 8259: sections 2 to 5 (values, objects, arrays), section 6
    (numbers) and section 7 (strings). It says what a text means without reference to how any
    program writes it. */
module JsonText {
  import opened Wrappers

  /** A decoded document. Numbers keep their literal; objects have no order. */
  datatype Tree =
    | Null
    | Bool(b: bool)
    | Num(literal: string)
    | Str(text: string)
    | Arr(items: seq<Tree>)
    | Obj(fields: map<string, Tree>)

  predicate Space(c: char) { c == ' ' || c == '\t' || c == '\n' || c == '\r' }

  function Trim(s: string): (r: string)
    ensures |r| <= |s|
  {
    if s != [] && Space(s[0]) then Trim(s[1..]) else s
  }

  // ---------------------------------------------------------------------------
  // Numbers
  // ---------------------------------------------------------------------------

  predicate Digit(c: char) { '0' <= c <= '9' }

  function DigitCount(s: string): (n: nat)
    ensures n <= |s|
  {
    if s != [] && Digit(s[0]) then 1 + DigitCount(s[1..]) else 0
  }

  /** No digit may follow a leading zero. */
  function IntegerLength(s: string): (n: nat)
    ensures n <= |s|
  {
    if s != [] && s[0] == '0' then 1 else DigitCount(s)
  }

  function FractionLength(s: string): (n: nat)
    ensures n <= |s|
  {
    if |s| >= 2 && s[0] == '.' && Digit(s[1]) then 1 + DigitCount(s[1..]) else 0
  }

  function ExponentLength(s: string): (n: nat)
    ensures n <= |s|
  {
    if s == [] || (s[0] != 'e' && s[0] != 'E') then 0
    else
      var sign := if |s| >= 2 && (s[1] == '+' || s[1] == '-') then 2 else 1;
      var digits := DigitCount(s[sign..]);
      if digits == 0 then 0 else sign + digits
  }

  /** The length of the number that `s` begins with, or nothing. */
  function NumberLength(s: string): (n: nat)
    ensures n <= |s|
  {
    var sign := if s != [] && s[0] == '-' then 1 else 0;
    var digits := IntegerLength(s[sign..]);
    if digits == 0 then 0
    else
      var whole := sign + digits;
      var more := whole + FractionLength(s[whole..]);
      more + ExponentLength(s[more..])
  }

  predicate NumberLiteral(s: string) {
    s != [] && NumberLength(s) == |s|
  }

  /** The number that decimal digits denote. */
  function DigitsValue(s: string): int {
    if s == [] then 0 else 10 * DigitsValue(s[..|s| - 1]) + (s[|s| - 1] as int - '0' as int)
  }

  // ---------------------------------------------------------------------------
  // Strings
  // ---------------------------------------------------------------------------

  function HexDigitValue(c: char): Option<nat> {
    if '0' <= c <= '9' then Some(c as int - '0' as int)
    else if 'a' <= c <= 'f' then Some(c as int - 'a' as int + 10)
    else if 'A' <= c <= 'F' then Some(c as int - 'A' as int + 10)
    else None
  }

  /** The number that the four digits of a numeric escape at the start of `s` denote. */
  function HexValue(s: string): Option<nat> {
    if |s| < 4 then None
    else
      match (HexDigitValue(s[0]), HexDigitValue(s[1]), HexDigitValue(s[2]), HexDigitValue(s[3]))
      case (Some(a), Some(b), Some(c), Some(d)) => Some(0x1000 * a + 0x100 * b + 0x10 * c + d)
      case _ => None
  }

  /** A numeric escape at the start of `s`, or two of them that are a surrogate pair: the
      character, and its length. */
  function NumericEscape(s: string): (r: Option<(char, nat)>)
    requires |s| >= 2
    ensures r.Some? ==> 0 < r.value.1 <= |s|
  {
    match HexValue(s[2..])
    case None => None
    case Some(v) =>
      if v < 0xd800 || 0xe000 <= v < 0x10000 then Some((v as char, 6))
      else if 0xd800 <= v < 0xdc00 && |s| >= 8 && s[6..8] == "\\u" then
        match HexValue(s[8..])
        case None => None
        case Some(w) =>
          if 0xdc00 <= w < 0xe000 then Some(((0x10000 + 0x400 * (v - 0xd800) + (w - 0xdc00)) as char, 12)) else None
      else None
  }

  /** The character that `s`, the inside of a string, begins with, and how much of `s` that is. */
  function Unescape(s: string): (r: Option<(char, nat)>)
    requires s != []
    ensures r.Some? ==> 0 < r.value.1 <= |s|
  {
    if s[0] != '\\' then if s[0] < ' ' then None else Some((s[0], 1))
    else if |s| < 2 then None
    else
      match s[1]
      case '"' => Some(('"', 2))
      case '\\' => Some(('\\', 2))
      case '/' => Some(('/', 2))
      case 'b' => Some((8 as char, 2))
      case 'f' => Some((12 as char, 2))
      case 'n' => Some(('\n', 2))
      case 'r' => Some(('\r', 2))
      case 't' => Some(('\t', 2))
      case 'u' => NumericEscape(s)
      case _ => None
  }

  /** The text of a string, and what follows its closing quote; `s` follows the opening one. */
  function ReadText(s: string): (r: Option<(string, string)>)
    ensures r.Some? ==> |r.value.1| < |s|
  {
    if s == [] then None
    else if s[0] == '"' then Some(("", s[1..]))
    else
      match Unescape(s)
      case None => None
      case Some((c, n)) =>
        match ReadText(s[n..])
        case None => None
        case Some((text, rest)) => Some(([c] + text, rest))
  }

  // ---------------------------------------------------------------------------
  // Values
  // ---------------------------------------------------------------------------

  /** The value that `s` begins with, and what follows it. */
  function ReadValue(s: string): (r: Option<(Tree, string)>)
    ensures r.Some? ==> |r.value.1| < |s|
    decreases |s|, 0
  {
    if s == [] then None
    else if s[0] == '"' then
      match ReadText(s[1..])
      case None => None
      case Some((text, rest)) => Some((Str(text), rest))
    else if s[0] == '[' then
      var inside := Trim(s[1..]);
      if inside != [] && inside[0] == ']' then Some((Arr([]), inside[1..]))
      else
        match ReadItems(inside)
        case None => None
        case Some((items, rest)) => Some((Arr(items), rest))
    else if s[0] == '{' then
      var inside := Trim(s[1..]);
      if inside != [] && inside[0] == '}' then Some((Obj(map[]), inside[1..]))
      else
        match ReadFields(inside)
        case None => None
        case Some((fields, rest)) => Some((Obj(fields), rest))
    else if "null" <= s then Some((Null, s[4..]))
    else if "true" <= s then Some((Bool(true), s[4..]))
    else if "false" <= s then Some((Bool(false), s[5..]))
    else
      var n := NumberLength(s);
      if n == 0 then None else Some((Num(s[..n]), s[n..]))
  }

  /** The items up to the closing bracket, of which there are some. */
  function ReadItems(s: string): (r: Option<(seq<Tree>, string)>)
    ensures r.Some? ==> |r.value.1| < |s|
    decreases |s|, 1
  {
    match ReadValue(s)
    case None => None
    case Some((item, after)) =>
      var next := Trim(after);
      if next == [] then None
      else if next[0] == ']' then Some(([item], next[1..]))
      else if next[0] == ',' then
        match ReadItems(Trim(next[1..]))
        case None => None
        case Some((items, rest)) => Some(([item] + items, rest))
      else None
  }

  /** A name, its colon and its value. */
  function ReadField(s: string): (r: Option<((string, Tree), string)>)
    ensures r.Some? ==> |r.value.1| < |s|
    decreases |s|, 0
  {
    if s == [] || s[0] != '"' then None
    else
      match ReadText(s[1..])
      case None => None
      case Some((name, after)) =>
        var colon := Trim(after);
        if colon == [] || colon[0] != ':' then None
        else
          match ReadValue(Trim(colon[1..]))
          case None => None
          case Some((value, rest)) => Some(((name, value), rest))
  }

  /** The fields up to the closing brace, of which there are some. A later field counts for an
      earlier one of its name. */
  function ReadFields(s: string): (r: Option<(map<string, Tree>, string)>)
    ensures r.Some? ==> |r.value.1| < |s|
    decreases |s|, 1
  {
    match ReadField(s)
    case None => None
    case Some(((name, value), after)) =>
      var next := Trim(after);
      if next == [] then None
      else if next[0] == '}' then Some((map[name := value], next[1..]))
      else if next[0] == ',' then
        match ReadFields(Trim(next[1..]))
        case None => None
        case Some((fields, rest)) => Some((map[name := value] + fields, rest))
      else None
  }

  /** What a whole text says. */
  function ReadDocument(s: string): Option<Tree> {
    match ReadValue(Trim(s))
    case None => None
    case Some((t, rest)) => if Trim(rest) == [] then Some(t) else None
  }

  // ---------------------------------------------------------------------------
  // Where a number ends
  // ---------------------------------------------------------------------------

  /** What can follow a value: nothing, white space, or a separator. */
  predicate Follows(rest: string) {
    rest == [] || Space(rest[0]) || rest[0] == ',' || rest[0] == ']' || rest[0] == '}'
  }

  lemma {:induction false} DigitsEnd(s: string, rest: string)
    requires Follows(rest)
    ensures DigitCount(s + rest) == DigitCount(s)
  {
    if s == [] {
      assert s + rest == rest;
    } else {
      DigitsEnd(s[1..], rest);
      assert (s + rest)[1..] == s[1..] + rest;
    }
  }

  lemma DropEnd(s: string, rest: string, n: nat)
    requires n <= |s|
    ensures (s + rest)[n..] == s[n..] + rest
  {}

  lemma FractionEnds(s: string, rest: string)
    requires Follows(rest)
    ensures FractionLength(s + rest) == FractionLength(s)
  {
    hide DigitCount;
    if s == [] {
      assert s + rest == rest;
    } else if |s| == 1 {
      assert rest != [] ==> (s + rest)[1] == rest[0];
    } else {
      assert (s + rest)[0] == s[0] && (s + rest)[1] == s[1];
      DropEnd(s, rest, 1);
      DigitsEnd(s[1..], rest);
    }
  }

  lemma ExponentEnds(s: string, rest: string)
    requires Follows(rest)
    ensures ExponentLength(s + rest) == ExponentLength(s)
  {
    hide DigitCount;
    if s == [] {
      assert s + rest == rest;
    } else {
      var sign := if |s| >= 2 && (s[1] == '+' || s[1] == '-') then 2 else 1;
      assert |s| == 1 && rest != [] ==> (s + rest)[1] == rest[0];
      DropEnd(s, rest, sign);
      DigitsEnd(s[sign..], rest);
    }
  }

  lemma IntegerEnds(s: string, rest: string)
    requires Follows(rest)
    ensures IntegerLength(s + rest) == IntegerLength(s)
  {
    if s == [] { assert s + rest == rest; }
    DigitsEnd(s, rest);
  }

  /** What follows a value is not read as part of a number. */
  lemma NumberEnds(s: string, rest: string)
    requires Follows(rest)
    ensures NumberLength(s + rest) == NumberLength(s)
  {
    hide IntegerLength, FractionLength, ExponentLength;
    assert s == [] ==> s + rest == rest;
    var sign := if s != [] && s[0] == '-' then 1 else 0;
    assert sign == if s + rest != [] && (s + rest)[0] == '-' then 1 else 0;
    DropEnd(s, rest, sign);
    IntegerEnds(s[sign..], rest);
    var whole := sign + IntegerLength(s[sign..]);
    DropEnd(s, rest, whole);
    FractionEnds(s[whole..], rest);
    var more := whole + FractionLength(s[whole..]);
    DropEnd(s, rest, more);
    ExponentEnds(s[more..], rest);
  }

  /** A number begins with a sign or a digit. */
  lemma LiteralStarts(s: string)
    requires NumberLiteral(s)
    ensures s != [] && (s[0] == '-' || Digit(s[0]))
  {}

  lemma {:induction false} AllCounted(s: string)
    requires forall i :: 0 <= i < |s| ==> Digit(s[i])
    ensures DigitCount(s) == |s|
  {
    if s != [] { AllCounted(s[1..]); }
  }

  /** Digits are a number unless the first of several is zero. */
  lemma DigitsAreLiteral(s: string)
    requires s != [] && (forall i :: 0 <= i < |s| ==> Digit(s[i])) && (|s| == 1 || s[0] != '0')
    ensures NumberLiteral(s)
  {
    hide DigitCount;
    assert s[0..] == s && s[|s|..] == [];
    AllCounted(s);
    assert IntegerLength(s) == |s|;
  }
}
