/** A JSON document as the token stream a decoder yields, and skipping one value of it
    (internal/capability/mcp_json.go). */
module JsonStream {
  import opened Wrappers

  const MAX_DEPTH: nat := 8

  datatype Token = Delim(c: char) | Str(text: string) | Num(literal: string) | Bool(b: bool) | Null

  /** A document. Members keep their order, and a name may repeat. */
  datatype Json =
    | JNull
    | JBool(b: bool)
    | JNum(literal: string)
    | JStr(text: string)
    | JArr(items: seq<Json>)
    | JObj(members: seq<Member>)

  datatype Member = Member(name: string, value: Json)

  // ---------------------------------------------------------------------------
  // The tokens of a document
  // ---------------------------------------------------------------------------

  ghost function Tokens(j: Json): (ts: seq<Token>)
    ensures ts != [] && !Closes(ts[0])
    decreases j
  {
    match j
    case JNull => [Null]
    case JBool(b) => [Bool(b)]
    case JNum(n) => [Num(n)]
    case JStr(s) => [Str(s)]
    case JArr(items) => [Delim('[')] + ItemTokens(items) + [Delim(']')]
    case JObj(members) => [Delim('{')] + MemberTokens(members) + [Delim('}')]
  }

  ghost function ItemTokens(items: seq<Json>): seq<Token>
    decreases items
  {
    if items == [] then [] else Tokens(items[0]) + ItemTokens(items[1..])
  }

  ghost function MemberTokens(members: seq<Member>): seq<Token>
    decreases members
  {
    if members == [] then []
    else [Str(members[0].name)] + Tokens(members[0].value) + MemberTokens(members[1..])
  }

  predicate Closes(t: Token) { t == Delim('}') || t == Delim(']') }

  /** `ts` is what `stream` holds at `pos`. */
  ghost predicate Holds(stream: seq<Token>, pos: nat, ts: seq<Token>) {
    pos + |ts| <= |stream| && stream[pos..pos + |ts|] == ts
  }

  lemma HoldsSplit(stream: seq<Token>, pos: nat, a: seq<Token>, b: seq<Token>)
    ensures Holds(stream, pos, a + b) <==> Holds(stream, pos, a) && Holds(stream, pos + |a|, b)
  {
    if Holds(stream, pos, a + b) {
      assert stream[pos..pos + |a + b|][..|a|] == stream[pos..pos + |a|];
      assert stream[pos..pos + |a + b|][|a|..] == stream[pos + |a|..pos + |a| + |b|];
    }
    if Holds(stream, pos, a) && Holds(stream, pos + |a|, b) {
      assert stream[pos..pos + |a + b|] == stream[pos..pos + |a|] + stream[pos + |a|..pos + |a| + |b|];
    }
  }

  lemma HoldsHead(stream: seq<Token>, pos: nat, ts: seq<Token>)
    requires ts != [] && Holds(stream, pos, ts)
    ensures pos < |stream| && stream[pos] == ts[0]
  {}

  /** Where a decoder stands after `i` of the members: the rest of them and the brace. */
  ghost function Rest(members: seq<Member>, i: nat): (ts: seq<Token>)
    requires i <= |members|
    ensures ts != []
  {
    MemberTokens(members[i..]) + [Delim('}')]
  }

  /** Standing before member `i`, the decoder sees its name and then its value, or the
      closing brace. */
  lemma AtMember(stream: seq<Token>, pos: nat, members: seq<Member>, i: nat)
    requires i <= |members| && Holds(stream, pos, Rest(members, i))
    ensures pos < |stream| && (Closes(stream[pos]) <==> i == |members|)
    ensures i == |members| ==> stream[pos] == Delim('}') && |Rest(members, i)| == 1
    ensures i < |members| ==>
      && stream[pos] == Str(members[i].name)
      && Holds(stream, pos + 1, Tokens(members[i].value))
      && Holds(stream, pos + 1 + |Tokens(members[i].value)|, Rest(members, i + 1))
      && |Rest(members, i)| == 1 + |Tokens(members[i].value)| + |Rest(members, i + 1)|
  {
    HoldsHead(stream, pos, Rest(members, i));
    if i < |members| {
      var name, value := [Str(members[i].name)], Tokens(members[i].value);
      assert members[i..][0] == members[i] && members[i..][1..] == members[i + 1..];
      assert Rest(members, i) == name + (value + Rest(members, i + 1));
      HoldsSplit(stream, pos, name, value + Rest(members, i + 1));
      HoldsSplit(stream, pos + 1, value, Rest(members, i + 1));
    }
  }

  ghost function RestItems(items: seq<Json>, i: nat): (ts: seq<Token>)
    requires i <= |items|
    ensures ts != []
  {
    ItemTokens(items[i..]) + [Delim(']')]
  }

  lemma AtItem(stream: seq<Token>, pos: nat, items: seq<Json>, i: nat)
    requires i <= |items| && Holds(stream, pos, RestItems(items, i))
    ensures pos < |stream| && (Closes(stream[pos]) <==> i == |items|)
    ensures i == |items| ==> stream[pos] == Delim(']') && |RestItems(items, i)| == 1
    ensures i < |items| ==>
      && Holds(stream, pos, Tokens(items[i]))
      && Holds(stream, pos + |Tokens(items[i])|, RestItems(items, i + 1))
      && |RestItems(items, i)| == |Tokens(items[i])| + |RestItems(items, i + 1)|
  {
    HoldsHead(stream, pos, RestItems(items, i));
    if i < |items| {
      var value := Tokens(items[i]);
      assert items[i..][0] == items[i] && items[i..][1..] == items[i + 1..];
      assert RestItems(items, i) == value + RestItems(items, i + 1);
      HoldsSplit(stream, pos, value, RestItems(items, i + 1));
    }
  }

  /** An opening delimiter is followed by everything inside it. */
  lemma AtOpen(stream: seq<Token>, pos: nat, j: Json)
    requires Holds(stream, pos, Tokens(j))
    ensures pos < |stream| && stream[pos] == Tokens(j)[0]
    ensures j.JObj? ==> Holds(stream, pos + 1, Rest(j.members, 0)) && |Tokens(j)| == 1 + |Rest(j.members, 0)|
    ensures j.JArr? ==> Holds(stream, pos + 1, RestItems(j.items, 0)) && |Tokens(j)| == 1 + |RestItems(j.items, 0)|
  {
    HoldsHead(stream, pos, Tokens(j));
    if j.JObj? {
      assert j.members[0..] == j.members;
      assert Tokens(j) == [Delim('{')] + Rest(j.members, 0);
      HoldsSplit(stream, pos, [Delim('{')], Rest(j.members, 0));
    } else if j.JArr? {
      assert j.items[0..] == j.items;
      assert Tokens(j) == [Delim('[')] + RestItems(j.items, 0);
      HoldsSplit(stream, pos, [Delim('[')], RestItems(j.items, 0));
    }
  }

  // ---------------------------------------------------------------------------
  // The document at a position
  // ---------------------------------------------------------------------------

  /** No document's tokens start with another document's. */
  lemma {:induction false} TokensUnique(stream: seq<Token>, pos: nat, a: Json, b: Json)
    requires Holds(stream, pos, Tokens(a)) && Holds(stream, pos, Tokens(b))
    ensures a == b
    decreases a
  {
    hide Holds;
    AtOpen(stream, pos, a);
    AtOpen(stream, pos, b);
    if a.JObj? && b.JObj? {
      MembersUnique(stream, pos + 1, a.members, b.members, 0);
    } else if a.JArr? && b.JArr? {
      ItemsUnique(stream, pos + 1, a.items, b.items, 0);
    }
  }

  lemma {:induction false} MembersUnique(stream: seq<Token>, pos: nat, a: seq<Member>, b: seq<Member>, i: nat)
    requires i <= |a| && i <= |b| && a[..i] == b[..i]
    requires Holds(stream, pos, Rest(a, i)) && Holds(stream, pos, Rest(b, i))
    ensures a == b
    decreases a, |a| - i
  {
    hide Holds, Rest;
    AtMember(stream, pos, a, i);
    AtMember(stream, pos, b, i);
    if i < |a| {
      TokensUnique(stream, pos + 1, a[i].value, b[i].value);
      assert a[i] == b[i];
      assert a[..i + 1] == a[..i] + [a[i]] && b[..i + 1] == b[..i] + [b[i]];
      MembersUnique(stream, pos + 1 + |Tokens(a[i].value)|, a, b, i + 1);
    } else {
      assert a[..i] == a && b[..i] == b;
    }
  }

  lemma {:induction false} ItemsUnique(stream: seq<Token>, pos: nat, a: seq<Json>, b: seq<Json>, i: nat)
    requires i <= |a| && i <= |b| && a[..i] == b[..i]
    requires Holds(stream, pos, RestItems(a, i)) && Holds(stream, pos, RestItems(b, i))
    ensures a == b
    decreases a, |a| - i
  {
    hide Holds, RestItems;
    AtItem(stream, pos, a, i);
    AtItem(stream, pos, b, i);
    if i < |a| {
      TokensUnique(stream, pos, a[i], b[i]);
      assert a[..i + 1] == a[..i] + [a[i]] && b[..i + 1] == b[..i] + [b[i]];
      ItemsUnique(stream, pos + |Tokens(a[i])|, a, b, i + 1);
    } else {
      assert a[..i] == a && b[..i] == b;
    }
  }

  ghost function Size(j: Json): (n: nat)
    ensures n > 0
  {
    |Tokens(j)|
  }

  /** The document whose tokens start at `pos`, if one does. */
  ghost function Doc(stream: seq<Token>, pos: nat): (j: Option<Json>)
    ensures j.Some? ==> Holds(stream, pos, Tokens(j.value))
    ensures (exists v :: Holds(stream, pos, Tokens(v))) ==> j.Some?
  {
    if exists v :: Holds(stream, pos, Tokens(v)) then
      var v :| Holds(stream, pos, Tokens(v));
      Some(v)
    else None
  }

  lemma DocIs(stream: seq<Token>, pos: nat, j: Json)
    requires Holds(stream, pos, Tokens(j))
    ensures Doc(stream, pos) == Some(j)
  {
    TokensUnique(stream, pos, j, Doc(stream, pos).value);
  }

  /** The first token tells an object, an array and a scalar apart. */
  lemma FirstToken(stream: seq<Token>, pos: nat)
    requires Doc(stream, pos).Some?
    ensures pos < |stream|
    ensures stream[pos] == Delim('{') <==> Doc(stream, pos).value.JObj?
    ensures stream[pos] == Delim('[') <==> Doc(stream, pos).value.JArr?
    ensures stream[pos].Delim? ==> stream[pos].c == '{' || stream[pos].c == '['
  {}

  /** The document a scalar token is. */
  function Scalar(t: Token): (j: Json)
    requires !t.Delim?
    ensures !j.JObj? && !j.JArr?
  {
    match t
    case Null => JNull
    case Bool(b) => JBool(b)
    case Num(n) => JNum(n)
    case Str(s) => JStr(s)
  }

  lemma ScalarDoc(stream: seq<Token>, pos: nat)
    requires pos < |stream| && !stream[pos].Delim?
    ensures Doc(stream, pos) == Some(Scalar(stream[pos])) && Size(Scalar(stream[pos])) == 1
  {}

  // ---------------------------------------------------------------------------
  // Inside an object
  // ---------------------------------------------------------------------------

  /** From `start` to `pos` the stream holds an opening brace and exactly `ms`. */
  ghost predicate Read(stream: seq<Token>, start: nat, ms: seq<Member>, pos: nat)
    decreases |ms|
  {
    if ms == [] then
      start < |stream| && stream[start] == Delim('{') && pos == start + 1
    else
      var m := ms[|ms| - 1];
      && start + 1 + Size(m.value) <= pos <= |stream|
      && Read(stream, start, ms[..|ms| - 1], pos - 1 - Size(m.value))
      && stream[pos - 1 - Size(m.value)] == Str(m.name)
      && Doc(stream, pos - Size(m.value)) == Some(m.value)
  }

  lemma ReadNone(stream: seq<Token>, start: nat)
    requires start < |stream| && stream[start] == Delim('{')
    ensures Read(stream, start, [], start + 1)
  {}

  lemma ReadOne(stream: seq<Token>, start: nat, ms: seq<Member>, pos: nat, name: string, value: Json)
    requires Read(stream, start, ms, pos)
    requires start <= pos < |stream| && stream[pos] == Str(name) && Doc(stream, pos + 1) == Some(value)
    ensures Read(stream, start, ms + [Member(name, value)], pos + 1 + Size(value))
  {}

  lemma RestFirst(m: Member, tail: seq<Member>)
    ensures Rest([m] + tail, 0) == [Str(m.name)] + (Tokens(m.value) + Rest(tail, 0))
  {
    hide Tokens;
    var longer := [m] + tail;
    assert tail[0..] == tail && longer[0..] == longer && longer[1..] == tail;
    assert MemberTokens(longer) + [Delim('}')]
      == [Str(m.name)] + (Tokens(m.value) + (MemberTokens(tail) + [Delim('}')]));
  }

  lemma OneHeld(stream: seq<Token>, pos: nat)
    requires pos < |stream|
    ensures Holds(stream, pos, [stream[pos]])
  {}

  lemma JoinMember(stream: seq<Token>, pos: nat, m: Member, tail: seq<Member>)
    requires pos < |stream| && stream[pos] == Str(m.name) && Holds(stream, pos + 1, Tokens(m.value))
    requires Holds(stream, pos + 1 + Size(m.value), Rest(tail, 0))
    ensures Holds(stream, pos, Rest([m] + tail, 0))
    ensures |Rest([m] + tail, 0)| == 1 + Size(m.value) + |Rest(tail, 0)|
  {
    hide Holds, Tokens, Rest;
    RestFirst(m, tail);
    HoldsSplit(stream, pos + 1, Tokens(m.value), Rest(tail, 0));
    OneHeld(stream, pos);
    HoldsSplit(stream, pos, [Str(m.name)], Tokens(m.value) + Rest(tail, 0));
  }

  lemma JoinObject(stream: seq<Token>, start: nat, ms: seq<Member>)
    requires start < |stream| && stream[start] == Delim('{') && Holds(stream, start + 1, Rest(ms, 0))
    ensures Holds(stream, start, Tokens(JObj(ms))) && Size(JObj(ms)) == 1 + |Rest(ms, 0)|
  {
    hide Holds;
    ObjectTokens(ms);
    OneHeld(stream, start);
    HoldsSplit(stream, start, [Delim('{')], Rest(ms, 0));
  }

  lemma ObjectTokens(ms: seq<Member>)
    ensures Tokens(JObj(ms)) == [Delim('{')] + Rest(ms, 0)
  {
    var tokens := MemberTokens(ms);
    assert ms[0..] == ms;
    assert [Delim('{')] + tokens + [Delim('}')] == [Delim('{')] + (tokens + [Delim('}')]);
  }

  /** A brace after the members read makes them the whole object. */
  lemma {:induction false} ReadClosed(stream: seq<Token>, start: nat, ms: seq<Member>, tail: seq<Member>, pos: nat)
    requires Read(stream, start, ms, pos) && Holds(stream, pos, Rest(tail, 0))
    ensures Holds(stream, start, Tokens(JObj(ms + tail)))
    ensures start + Size(JObj(ms + tail)) == pos + |Rest(tail, 0)|
    decreases |ms|
  {
    hide Holds, Rest, Size, Tokens, Doc;
    if ms == [] {
      JoinObject(stream, start, tail);
      assert ms + tail == tail;
    } else {
      var n, m := |ms| - 1, ms[|ms| - 1];
      var p := pos - 1 - Size(m.value);
      JoinMember(stream, p, m, tail);
      ReadClosed(stream, start, ms[..n], [m] + tail, p);
      assert ms[..n] + ([m] + tail) == ms + tail;
    }
  }

  lemma ObjectRead(stream: seq<Token>, start: nat, ms: seq<Member>, pos: nat)
    requires Read(stream, start, ms, pos) && start <= pos < |stream| && stream[pos] == Delim('}')
    ensures Doc(stream, start) == Some(JObj(ms)) && start + Size(JObj(ms)) == pos + 1
  {
    assert Rest([], 0) == [Delim('}')];
    assert stream[pos..pos + 1] == Rest([], 0);
    ReadClosed(stream, start, ms, [], pos);
    assert ms + [] == ms;
    DocIs(stream, start, JObj(ms));
  }

  /** What has been read is how the document at `start`, if there is one, begins. */
  lemma {:induction false} ReadBegins(stream: seq<Token>, start: nat, ms: seq<Member>, pos: nat, all: seq<Member>)
    requires Read(stream, start, ms, pos) && Doc(stream, start) == Some(JObj(all))
    ensures |ms| <= |all| && all[..|ms|] == ms && Holds(stream, pos, Rest(all, |ms|))
    decreases |ms|
  {
    hide Holds, Rest, Size, Tokens, Doc;
    if ms == [] {
      AtOpen(stream, start, JObj(all));
    } else {
      var n, m := |ms| - 1, ms[|ms| - 1];
      var p := pos - 1 - Size(m.value);
      ReadBegins(stream, start, ms[..n], p, all);
      AtMember(stream, p, all, n);
      DocIs(stream, p + 1, all[n].value);
      SizeIs(m.value);
      assert all[..n + 1] == all[..n] + [all[n]];
    }
  }

  lemma SizeIs(j: Json)
    ensures Size(j) == |Tokens(j)|
  {}

  /** Inside a document, the decoder sees its next member, or its closing brace. */
  lemma ReadNext(stream: seq<Token>, start: nat, ms: seq<Member>, pos: nat)
    requires Read(stream, start, ms, pos) && Doc(stream, start).Some?
    ensures Doc(stream, start).value.JObj? && pos < |stream|
    ensures Closes(stream[pos]) ==> stream[pos] == Delim('}')
    ensures !Closes(stream[pos]) ==>
      && |ms| < |Doc(stream, start).value.members|
      && Doc(stream, start).value.members[..|ms|] == ms
      && stream[pos] == Str(Doc(stream, start).value.members[|ms|].name)
      && Doc(stream, pos + 1) == Some(Doc(stream, start).value.members[|ms|].value)
  {
    hide Holds, Rest;
    ReadStart(stream, start, ms, pos);
    FirstToken(stream, start);
    var all := Doc(stream, start).value.members;
    ReadBegins(stream, start, ms, pos, all);
    AtMember(stream, pos, all, |ms|);
    if |ms| < |all| {
      DocIs(stream, pos + 1, all[|ms|].value);
    }
  }

  lemma {:induction false} ReadStart(stream: seq<Token>, start: nat, ms: seq<Member>, pos: nat)
    requires Read(stream, start, ms, pos)
    ensures start < pos <= |stream| && stream[start] == Delim('{')
    decreases |ms|
  {
    if ms != [] {
      ReadStart(stream, start, ms[..|ms| - 1], pos - 1 - Size(ms[|ms| - 1].value));
    }
  }

  // ---------------------------------------------------------------------------
  // Inside an array
  // ---------------------------------------------------------------------------

  ghost predicate ReadItems(stream: seq<Token>, start: nat, js: seq<Json>, pos: nat)
    decreases |js|
  {
    if js == [] then
      start < |stream| && stream[start] == Delim('[') && pos == start + 1
    else
      var j := js[|js| - 1];
      && start + Size(j) <= pos <= |stream|
      && ReadItems(stream, start, js[..|js| - 1], pos - Size(j))
      && Doc(stream, pos - Size(j)) == Some(j)
  }

  lemma ReadNoItem(stream: seq<Token>, start: nat)
    requires start < |stream| && stream[start] == Delim('[')
    ensures ReadItems(stream, start, [], start + 1)
  {}

  lemma ReadOneItem(stream: seq<Token>, start: nat, js: seq<Json>, pos: nat, value: Json)
    requires ReadItems(stream, start, js, pos)
    requires start <= pos < |stream| && Doc(stream, pos) == Some(value)
    ensures ReadItems(stream, start, js + [value], pos + Size(value))
  {}

  lemma RestItemsFirst(j: Json, tail: seq<Json>)
    ensures RestItems([j] + tail, 0) == Tokens(j) + RestItems(tail, 0)
  {
    hide Tokens;
    var longer := [j] + tail;
    assert tail[0..] == tail && longer[0..] == longer && longer[1..] == tail;
    assert ItemTokens(longer) + [Delim(']')] == Tokens(j) + (ItemTokens(tail) + [Delim(']')]);
  }

  lemma JoinItem(stream: seq<Token>, pos: nat, j: Json, tail: seq<Json>)
    requires Holds(stream, pos, Tokens(j)) && Holds(stream, pos + Size(j), RestItems(tail, 0))
    ensures Holds(stream, pos, RestItems([j] + tail, 0))
    ensures |RestItems([j] + tail, 0)| == Size(j) + |RestItems(tail, 0)|
  {
    hide Holds, Tokens, RestItems;
    RestItemsFirst(j, tail);
    HoldsSplit(stream, pos, Tokens(j), RestItems(tail, 0));
  }

  lemma JoinArray(stream: seq<Token>, start: nat, js: seq<Json>)
    requires start < |stream| && stream[start] == Delim('[') && Holds(stream, start + 1, RestItems(js, 0))
    ensures Holds(stream, start, Tokens(JArr(js))) && Size(JArr(js)) == 1 + |RestItems(js, 0)|
  {
    assert js[0..] == js;
    assert stream[start..start + 1] == [Delim('[')];
    HoldsSplit(stream, start, [Delim('[')], RestItems(js, 0));
    assert Tokens(JArr(js)) == [Delim('[')] + RestItems(js, 0);
  }

  lemma {:induction false} ReadItemsClosed(stream: seq<Token>, start: nat, js: seq<Json>, tail: seq<Json>, pos: nat)
    requires ReadItems(stream, start, js, pos) && Holds(stream, pos, RestItems(tail, 0))
    ensures Holds(stream, start, Tokens(JArr(js + tail)))
    ensures start + Size(JArr(js + tail)) == pos + |RestItems(tail, 0)|
    decreases |js|
  {
    hide Holds, RestItems, Size, Tokens, Doc;
    if js == [] {
      JoinArray(stream, start, tail);
      assert js + tail == tail;
    } else {
      var n, j := |js| - 1, js[|js| - 1];
      JoinItem(stream, pos - Size(j), j, tail);
      ReadItemsClosed(stream, start, js[..n], [j] + tail, pos - Size(j));
      assert js[..n] + ([j] + tail) == js + tail;
    }
  }

  lemma ArrayRead(stream: seq<Token>, start: nat, js: seq<Json>, pos: nat)
    requires ReadItems(stream, start, js, pos) && start <= pos < |stream| && stream[pos] == Delim(']')
    ensures Doc(stream, start) == Some(JArr(js)) && start + Size(JArr(js)) == pos + 1
  {
    assert RestItems([], 0) == [Delim(']')];
    assert stream[pos..pos + 1] == RestItems([], 0);
    ReadItemsClosed(stream, start, js, [], pos);
    assert js + [] == js;
    DocIs(stream, start, JArr(js));
  }

  lemma {:induction false} ReadItemsBegin(stream: seq<Token>, start: nat, js: seq<Json>, pos: nat, all: seq<Json>)
    requires ReadItems(stream, start, js, pos) && Doc(stream, start) == Some(JArr(all))
    ensures |js| <= |all| && all[..|js|] == js && Holds(stream, pos, RestItems(all, |js|))
    decreases |js|
  {
    hide Holds, RestItems, Size, Tokens, Doc;
    if js == [] {
      AtOpen(stream, start, JArr(all));
    } else {
      var n, j := |js| - 1, js[|js| - 1];
      var p := pos - Size(j);
      ReadItemsBegin(stream, start, js[..n], p, all);
      AtItem(stream, p, all, n);
      AtOpen(stream, p, j);
      DocIs(stream, p, all[n]);
      SizeIs(j);
      assert all[..n + 1] == all[..n] + [all[n]];
    }
  }

  lemma ReadNextItem(stream: seq<Token>, start: nat, js: seq<Json>, pos: nat)
    requires ReadItems(stream, start, js, pos) && Doc(stream, start).Some?
    ensures Doc(stream, start).value.JArr? && pos < |stream|
    ensures Closes(stream[pos]) ==> stream[pos] == Delim(']')
    ensures !Closes(stream[pos]) ==>
      && |js| < |Doc(stream, start).value.items|
      && Doc(stream, start).value.items[..|js|] == js
      && Doc(stream, pos) == Some(Doc(stream, start).value.items[|js|])
  {
    hide Holds, RestItems;
    ReadItemsStart(stream, start, js, pos);
    FirstToken(stream, start);
    var all := Doc(stream, start).value.items;
    ReadItemsBegin(stream, start, js, pos, all);
    AtItem(stream, pos, all, |js|);
    if |js| < |all| {
      DocIs(stream, pos, all[|js|]);
    }
  }

  lemma {:induction false} ReadItemsStart(stream: seq<Token>, start: nat, js: seq<Json>, pos: nat)
    requires ReadItems(stream, start, js, pos)
    ensures start < pos <= |stream| && stream[start] == Delim('[')
    decreases |js|
  {
    if js != [] {
      ReadItemsStart(stream, start, js[..|js| - 1], pos - Size(js[|js| - 1]));
    }
  }

  // ---------------------------------------------------------------------------
  // Depth
  // ---------------------------------------------------------------------------

  /** Every node of `j` is within `levels` levels, `j` itself being the first. */
  ghost predicate WithinDepth(j: Json, levels: nat)
    decreases levels, 0
  {
    levels > 0 &&
    match j
    case JArr(items) => ItemsWithin(items, levels - 1)
    case JObj(members) => MembersWithin(members, levels - 1)
    case _ => true
  }

  ghost predicate ItemsWithin(items: seq<Json>, levels: nat)
    decreases levels, 1
  {
    forall i :: 0 <= i < |items| ==> WithinDepth(items[i], levels)
  }

  ghost predicate MembersWithin(members: seq<Member>, levels: nat)
    decreases levels, 1
  {
    forall i :: 0 <= i < |members| ==> WithinDepth(members[i].value, levels)
  }

  /** How many levels are left at `depth`. */
  function Levels(depth: nat): nat {
    if depth < MAX_DEPTH then MAX_DEPTH - depth else 0
  }

  /** A document starts at `pos` and has no node too deep to be skipped. */
  ghost predicate Skippable(stream: seq<Token>, pos: nat, depth: nat) {
    Doc(stream, pos).Some? && WithinDepth(Doc(stream, pos).value, Levels(depth))
  }

  lemma ScalarWithin(j: Json, levels: nat)
    requires levels > 0 && !j.JObj? && !j.JArr?
    ensures WithinDepth(j, levels)
  {}

  lemma AllWithin(ms: seq<Member>, js: seq<Json>, levels: nat)
    requires ms == [] && js == []
    ensures MembersWithin(ms, levels) && ItemsWithin(js, levels)
  {}

  lemma OneMoreWithin(ms: seq<Member>, m: Member, levels: nat)
    requires MembersWithin(ms, levels) && WithinDepth(m.value, levels)
    ensures MembersWithin(ms + [m], levels)
  {}

  lemma OneMoreItemWithin(js: seq<Json>, j: Json, levels: nat)
    requires ItemsWithin(js, levels) && WithinDepth(j, levels)
    ensures ItemsWithin(js + [j], levels)
  {}

  lemma ObjectWithin(ms: seq<Member>, levels: nat)
    requires levels > 0 && MembersWithin(ms, levels - 1)
    ensures WithinDepth(JObj(ms), levels)
  {}

  lemma ArrayWithin(js: seq<Json>, levels: nat)
    requires levels > 0 && ItemsWithin(js, levels - 1)
    ensures WithinDepth(JArr(js), levels)
  {}

  lemma MemberTooDeep(stream: seq<Token>, start: nat, ms: seq<Member>, pos: nat, depth: nat)
    requires Read(stream, start, ms, pos) && pos < |stream| && !Closes(stream[pos])
    requires depth < MAX_DEPTH && !Skippable(stream, pos + 1, depth + 1)
    ensures !Skippable(stream, start, depth)
  {
    hide Read, Doc, Holds;
    if Doc(stream, start).Some? {
      ReadNext(stream, start, ms, pos);
      var j := Doc(stream, start).value;
      assert !MembersWithin(j.members, Levels(depth) - 1) by {
        assert !WithinDepth(j.members[|ms|].value, Levels(depth) - 1);
      }
    }
  }

  lemma ItemTooDeep(stream: seq<Token>, start: nat, js: seq<Json>, pos: nat, depth: nat)
    requires ReadItems(stream, start, js, pos) && pos < |stream| && !Closes(stream[pos])
    requires depth < MAX_DEPTH && !Skippable(stream, pos, depth + 1)
    ensures !Skippable(stream, start, depth)
  {
    hide ReadItems, Doc, Holds;
    if Doc(stream, start).Some? {
      ReadNextItem(stream, start, js, pos);
      var j := Doc(stream, start).value;
      assert !ItemsWithin(j.items, Levels(depth) - 1) by {
        assert !WithinDepth(j.items[|js|], Levels(depth) - 1);
      }
    }
  }

  // ---------------------------------------------------------------------------
  // Skipping, one member or item at a time
  // ---------------------------------------------------------------------------

  /** From `start` on, an opening brace and the members `ms` have been skipped. */
  ghost predicate InObject(stream: seq<Token>, start: nat, ms: seq<Member>, pos: nat, depth: nat)
    requires depth < MAX_DEPTH
  {
    Read(stream, start, ms, pos) && MembersWithin(ms, Levels(depth) - 1)
  }

  lemma ObjectOpens(stream: seq<Token>, start: nat, depth: nat)
    requires depth < MAX_DEPTH && start < |stream| && stream[start] == Delim('{')
    ensures InObject(stream, start, [], start + 1, depth)
  {
    ReadNone(stream, start);
    AllWithin([], [], Levels(depth) - 1);
  }

  /** Where the object goes on, it must do so with a name and a value that can be skipped. */
  lemma ObjectGoesOn(stream: seq<Token>, start: nat, ms: seq<Member>, pos: nat, depth: nat)
    requires depth < MAX_DEPTH && InObject(stream, start, ms, pos, depth) && pos < |stream| && !Closes(stream[pos])
    ensures
      if stream[pos].Str? && Skippable(stream, pos + 1, depth + 1) then
        var value := Doc(stream, pos + 1).value;
        InObject(stream, start, ms + [Member(stream[pos].text, value)], pos + 1 + Size(value), depth)
      else
        !Skippable(stream, start, depth)
  {
    hide Read, Doc, WithinDepth, MembersWithin, Size, Holds, Tokens;
    ReadStart(stream, start, ms, pos);
    if stream[pos].Str? && Skippable(stream, pos + 1, depth + 1) {
      var value := Doc(stream, pos + 1).value;
      ReadOne(stream, start, ms, pos, stream[pos].text, value);
      OneMoreWithin(ms, Member(stream[pos].text, value), Levels(depth) - 1);
    } else {
      if Doc(stream, start).Some? { ReadNext(stream, start, ms, pos); }
      if stream[pos].Str? { MemberTooDeep(stream, start, ms, pos, depth); }
    }
  }

  /** Where it does not go on, it must end. */
  lemma ObjectEnds(stream: seq<Token>, start: nat, ms: seq<Member>, pos: nat, depth: nat)
    requires depth < MAX_DEPTH && InObject(stream, start, ms, pos, depth)
    requires pos >= |stream| || Closes(stream[pos])
    ensures
      if pos < |stream| && stream[pos] == Delim('}') then
        Skippable(stream, start, depth) && start + Size(Doc(stream, start).value) == pos + 1
      else
        !Skippable(stream, start, depth)
  {
    hide Read, Doc, WithinDepth, MembersWithin, Size, Holds, Tokens;
    ReadStart(stream, start, ms, pos);
    if pos < |stream| && stream[pos] == Delim('}') {
      ObjectRead(stream, start, ms, pos);
      ObjectWithin(ms, Levels(depth));
    } else if Doc(stream, start).Some? {
      ReadNext(stream, start, ms, pos);
    }
  }

  ghost predicate InArray(stream: seq<Token>, start: nat, js: seq<Json>, pos: nat, depth: nat)
    requires depth < MAX_DEPTH
  {
    ReadItems(stream, start, js, pos) && ItemsWithin(js, Levels(depth) - 1)
  }

  lemma ArrayOpens(stream: seq<Token>, start: nat, depth: nat)
    requires depth < MAX_DEPTH && start < |stream| && stream[start] == Delim('[')
    ensures InArray(stream, start, [], start + 1, depth)
  {
    ReadNoItem(stream, start);
    AllWithin([], [], Levels(depth) - 1);
  }

  lemma ArrayGoesOn(stream: seq<Token>, start: nat, js: seq<Json>, pos: nat, depth: nat)
    requires depth < MAX_DEPTH && InArray(stream, start, js, pos, depth) && pos < |stream| && !Closes(stream[pos])
    ensures
      if Skippable(stream, pos, depth + 1) then
        var value := Doc(stream, pos).value;
        InArray(stream, start, js + [value], pos + Size(value), depth)
      else
        !Skippable(stream, start, depth)
  {
    hide ReadItems, Doc, WithinDepth, ItemsWithin, Size, Holds, Tokens;
    ReadItemsStart(stream, start, js, pos);
    if Skippable(stream, pos, depth + 1) {
      var value := Doc(stream, pos).value;
      ReadOneItem(stream, start, js, pos, value);
      OneMoreItemWithin(js, value, Levels(depth) - 1);
    } else {
      ItemTooDeep(stream, start, js, pos, depth);
    }
  }

  lemma ArrayEnds(stream: seq<Token>, start: nat, js: seq<Json>, pos: nat, depth: nat)
    requires depth < MAX_DEPTH && InArray(stream, start, js, pos, depth)
    requires pos >= |stream| || Closes(stream[pos])
    ensures
      if pos < |stream| && stream[pos] == Delim(']') then
        Skippable(stream, start, depth) && start + Size(Doc(stream, start).value) == pos + 1
      else
        !Skippable(stream, start, depth)
  {
    hide ReadItems, Doc, WithinDepth, ItemsWithin, Size, Holds, Tokens;
    ReadItemsStart(stream, start, js, pos);
    if pos < |stream| && stream[pos] == Delim(']') {
      ArrayRead(stream, start, js, pos);
      ArrayWithin(js, Levels(depth));
    } else if Doc(stream, start).Some? {
      ReadNextItem(stream, start, js, pos);
    }
  }

  lemma SkippableIsDoc(stream: seq<Token>, pos: nat, depth: nat)
    requires Skippable(stream, pos, depth)
    ensures Doc(stream, pos).Some?
  {}

  /** A scalar is its own first token, and nothing else starts with another one. */
  lemma FirstTokenSkips(stream: seq<Token>, start: nat, depth: nat)
    requires depth < MAX_DEPTH && start < |stream|
    ensures !stream[start].Delim? ==>
      Skippable(stream, start, depth) && start + Size(Doc(stream, start).value) == start + 1
    ensures stream[start].Delim? && stream[start].c !in {'{', '['} ==> !Skippable(stream, start, depth)
  {
    hide Doc, WithinDepth, Size, Holds, Tokens;
    if !stream[start].Delim? {
      ScalarDoc(stream, start);
      ScalarWithin(Scalar(stream[start]), Levels(depth));
    } else if Doc(stream, start).Some? {
      FirstToken(stream, start);
    }
  }

  // ---------------------------------------------------------------------------
  // The decoder
  // ---------------------------------------------------------------------------

  /** A cursor over the tokens. Input that stops being JSON yields the tokens before the
      fault and then only errors; `clean` says that it ended without a fault. */
  class Decoder {
    const stream: seq<Token>
    const clean: bool
    var pos: nat

    constructor (stream: seq<Token>, clean: bool)
      ensures this.stream == stream && this.clean == clean && pos == 0
    {
      this.stream, this.clean, pos := stream, clean, 0;
    }

    /** Whether nothing is left: the next token is the end of the input. */
    method AtEnd() returns (ok: bool)
      modifies this
      ensures ok <==> clean && old(pos) >= |stream|
    {
      var t := Token();
      return t.None? && clean;
    }

    predicate More()
      reads this
    {
      pos < |stream| && !Closes(stream[pos])
    }

    method Token() returns (t: Option<Token>)
      modifies this
      ensures old(pos) >= |stream| ==> t.None? && pos == old(pos)
      ensures old(pos) < |stream| ==> t == Some(stream[old(pos)]) && pos == old(pos) + 1
    {
      if pos >= |stream| {
        return None;
      }
      t := Some(stream[pos]);
      pos := pos + 1;
    }

    method ObjectKey() returns (key: Option<string>)
      modifies this
      ensures key.Some? <==> old(pos) < |stream| && stream[old(pos)].Str?
      ensures key.Some? ==> key.value == stream[old(pos)].text
      ensures pos == if old(pos) < |stream| then old(pos) + 1 else old(pos)
    {
      var t := Token();
      if t.None? || !t.value.Str? {
        return None;
      }
      return Some(t.value.text);
    }

    /** Consumes one value. This succeeds exactly when a document starts here and has no
        node deeper than allowed, and then consumes all of it. */
    method SkipValue(depth: nat) returns (ok: bool)
      modifies this
      ensures pos >= old(pos) && (ok ==> pos <= |stream|)
      ensures ok <==> Skippable(stream, old(pos), depth)
      ensures ok ==> pos == old(pos) + Size(Doc(stream, old(pos)).value)
      decreases |stream| - pos, 0
    {
      hide Size, Doc;
      if depth >= MAX_DEPTH {
        return false;
      }
      if Doc(stream, pos).Some? { FirstToken(stream, pos); }
      var t := Token();
      if t.None? {
        return false;
      }
      ok := SkipToken(t.value, depth);
    }

    /** Consumes the rest of the value whose first token `t` was just read. */
    method SkipToken(t: Token, depth: nat) returns (ok: bool)
      requires depth < MAX_DEPTH && 0 < pos <= |stream| && stream[pos - 1] == t
      modifies this
      ensures pos >= old(pos) && (ok ==> pos <= |stream|)
      ensures ok <==> Skippable(stream, old(pos) - 1, depth)
      ensures ok ==> pos == old(pos) - 1 + Size(Doc(stream, old(pos) - 1).value)
      decreases |stream| - pos, 1
    {
      hide Size, Doc, Skippable, InObject, InArray, Holds, Tokens;
      ghost var start := pos - 1;
      FirstTokenSkips(stream, start, depth);
      if !t.Delim? {
        return true;
      }
      if t.c == '{' {
        ghost var ms: seq<Member> := [];
        ObjectOpens(stream, start, depth);
        while More()
          invariant start < pos <= |stream| && InObject(stream, start, ms, pos, depth)
          decreases |stream| - pos
        {
          ObjectGoesOn(stream, start, ms, pos, depth);
          ghost var here := pos;
          var key := ObjectKey();
          if key.None? {
            return false;
          }
          ok := SkipValue(depth + 1);
          if !ok {
            return false;
          }
          SkippableIsDoc(stream, here + 1, depth + 1);
          ms := ms + [Member(key.value, Doc(stream, here + 1).value)];
        }
        ObjectEnds(stream, start, ms, pos, depth);
        var end := Token();
        return end == Some(Delim('}'));
      } else if t.c == '[' {
        ghost var js: seq<Json> := [];
        ArrayOpens(stream, start, depth);
        while More()
          invariant start < pos <= |stream| && InArray(stream, start, js, pos, depth)
          decreases |stream| - pos
        {
          ArrayGoesOn(stream, start, js, pos, depth);
          ghost var here := pos;
          ok := SkipValue(depth + 1);
          if !ok {
            return false;
          }
          SkippableIsDoc(stream, here, depth + 1);
          js := js + [Doc(stream, here).value];
        }
        ArrayEnds(stream, start, js, pos, depth);
        var end := Token();
        return end == Some(Delim(']'));
      }
      return false;
    }
  }
}
