/** The fidelity report of a capsule (internal/capsule/fidelity.go). Counts and sizes are 64-bit
    integers, whose sums wrap. */
module Fidelity {
  import opened Int64
  import opened SortedStrings
  import opened Utf8

  /** Five classes, from best to worst, and whatever else a string field may hold. */
  datatype Portability = Exact | Normalized | Summarized | Referenced | Omitted | Other(text: string)

  function Rank(p: Portability): int {
    match p
    case Exact => 0
    case Normalized => 1
    case Summarized => 2
    case Referenced => 3
    case Omitted => 4
    case Other(_) => -1
  }

  predicate Valid(p: Portability) { !p.Other? }

  predicate Worse(a: Portability, b: Portability) { Rank(a) > Rank(b) }

  /** The classes, each worse than those before it. */
  const CLASSES := [Exact, Normalized, Summarized, Referenced, Omitted]

  lemma ClassesAreValid(p: Portability)
    ensures Valid(p) <==> p in CLASSES
  {
    assert forall i :: 0 <= i < |CLASSES| ==> Valid(CLASSES[i]);
    assert Valid(p) ==> CLASSES[Rank(p)] == p;
  }

  lemma WorseExactly(a: Portability, b: Portability)
    requires Valid(a) && Valid(b)
    ensures Worse(a, b) <==> exists i, j :: 0 <= i < j < |CLASSES| && CLASSES[i] == b && CLASSES[j] == a
  {
    assert forall i :: 0 <= i < |CLASSES| ==> Rank(CLASSES[i]) == i;
    assert CLASSES[Rank(a)] == a && CLASSES[Rank(b)] == b;
  }

  datatype Component = Component(name: string, portability: Portability, count: int64, bytes: int64, reason: string)

  datatype Block = Block(kind: string, text: string, path: string)

  datatype Event = Event(
    id: string, order: int, actor: string, kind: string, callId: string, linkedCallId: string,
    portability: Portability, reason: string, blocks: seq<Block>, redactions: nat)

  datatype Report = Report(overall: Portability, mode: string, components: seq<Component>)

  const STRUCTURED_HANDOFF := "structured_handoff"

  function ComponentName(e: Event): string {
    if e.kind == "message" then
      if e.actor == "user" then "user_messages"
      else if e.actor == "assistant" then "assistant_messages"
      else if e.actor == "harness" then "harness_messages"
      else "messages"
    else if e.kind == "tool_call" then "tool_calls"
    else if e.kind == "tool_result" then "tool_results"
    else if e.kind == "attachment" then "attachments"
    else if e.kind == "summary" then "summaries"
    else if e.kind == "checkpoint" then "checkpoints"
    else e.kind
  }

  predicate KnownKind(kind: string) {
    kind in {"message", "tool_call", "tool_result", "attachment", "summary", "checkpoint", "metadata", "unknown"}
  }

  predicate KnownActor(actor: string) { actor in {"user", "assistant", "harness"} }

  /** Events of known kinds are counted together exactly if they are of one kind and, if they
      are messages, of one actor, or both of some other. */
  lemma CountedTogether(e: Event, f: Event)
    requires KnownKind(e.kind) && KnownKind(f.kind)
    ensures ComponentName(e) == ComponentName(f) <==>
      && e.kind == f.kind
      && (e.kind == "message" ==> e.actor == f.actor || (!KnownActor(e.actor) && !KnownActor(f.actor)))
  {}

  /** The length of a text in bytes. */
  function Utf8Length(s: string): nat {
    if s == [] then 0 else Utf8Length(s[..|s| - 1]) + Width(s[|s| - 1])
  }

  lemma {:induction false} Utf8LengthIs(s: string)
    ensures Utf8Length(s) == |EncodeAll(s)|
  {
    if s != [] {
      var n := |s| - 1;
      Utf8LengthIs(s[..n]);
      EncodeSplit(s, n);
      assert s[n..] == [s[n]];
      EncodeOne(s[n]);
    }
  }

  function TextBytes(blocks: seq<Block>): nat {
    if blocks == [] then 0 else TextBytes(blocks[..|blocks| - 1]) + Utf8Length(blocks[|blocks| - 1].text)
  }

  function AsComponent(e: Event): Component {
    Component(ComponentName(e), e.portability, 1, Wrap(TextBytes(e.blocks)), e.reason)
  }

  function AsComponents(events: seq<Event>): (cs: seq<Component>)
    ensures |cs| == |events|
  {
    seq(|events|, i requires 0 <= i < |events| => AsComponent(events[i]))
  }

  /** Everything that is merged, in the order it is merged. */
  function Inputs(events: seq<Event>, included: seq<Component>): seq<Component> {
    included + AsComponents(events)
  }

  /** Inputs without a name, or of no known class, are passed over. */
  predicate Accepted(c: Component) { c.name != "" && Valid(c.portability) }

  // ---------------------------------------------------------------------------
  // What the report says
  // ---------------------------------------------------------------------------

  predicate Counts(c: Component, name: string) { Accepted(c) && c.name == name }

  ghost predicate Names(cs: seq<Component>, name: string) {
    exists i :: 0 <= i < |cs| && Counts(cs[i], name)
  }

  function CountOf(cs: seq<Component>, name: string): int {
    if cs == [] then 0
    else CountOf(cs[..|cs| - 1], name) + if Counts(cs[|cs| - 1], name) then cs[|cs| - 1].count else 0
  }

  function BytesOf(cs: seq<Component>, name: string): int {
    if cs == [] then 0
    else BytesOf(cs[..|cs| - 1], name) + if Counts(cs[|cs| - 1], name) then cs[|cs| - 1].bytes else 0
  }

  /** `p` is the worst class among the inputs called `name`. */
  ghost predicate Worst(cs: seq<Component>, name: string, p: Portability) {
    && (exists i :: 0 <= i < |cs| && Counts(cs[i], name) && cs[i].portability == p)
    && forall i :: 0 <= i < |cs| && Counts(cs[i], name) ==> Rank(cs[i].portability) <= Rank(p)
  }

  /** `c` sums up the inputs of its name. */
  ghost predicate Sums(cs: seq<Component>, c: Component) {
    && c.name != "" && Names(cs, c.name)
    && c.count == Wrap(CountOf(cs, c.name)) && c.bytes == Wrap(BytesOf(cs, c.name))
    && Worst(cs, c.name, c.portability)
  }

  ghost predicate OverallOf(components: seq<Component>, p: Portability) {
    if components == [] then p == Exact
    else
      && (exists i :: 0 <= i < |components| && components[i].portability == p)
      && forall i :: 0 <= i < |components| ==> Rank(components[i].portability) <= Rank(p)
  }

  function NamesIn(components: seq<Component>): (names: seq<string>)
    ensures |names| == |components|
  {
    seq(|components|, i requires 0 <= i < |components| => components[i].name)
  }

  /** One component for each name, in order, summing up the inputs, and the worst of all. */
  ghost predicate Aggregates(cs: seq<Component>, r: Report) {
    && Sorted(NamesIn(r.components))
    && (forall i :: 0 <= i < |r.components| ==> Sums(cs, r.components[i]))
    && (forall name :: Names(cs, name) ==> name in NamesIn(r.components))
    && OverallOf(r.components, r.overall) && r.mode == STRUCTURED_HANDOFF
  }

  // ---------------------------------------------------------------------------
  // Merging
  // ---------------------------------------------------------------------------

  function Merge(m: map<string, Component>, c: Component): map<string, Component> {
    if !Accepted(c) then m
    else if c.name !in m then m[c.name := c]
    else
      var cur := m[c.name];
      var worse := Worse(c.portability, cur.portability);
      m[c.name := Component(c.name, if worse then c.portability else cur.portability,
                            Wrap(cur.count + c.count), Wrap(cur.bytes + c.bytes),
                            if worse && c.reason != "" then c.reason else cur.reason)]
  }

  function MergeAll(cs: seq<Component>): map<string, Component> {
    if cs == [] then map[] else Merge(MergeAll(cs[..|cs| - 1]), cs[|cs| - 1])
  }

  /** Only what has a name and one of the five classes is merged. */
  lemma PassedOver(m: map<string, Component>, c: Component)
    ensures if c.name == "" || c.portability !in CLASSES then Merge(m, c) == m else c.name in Merge(m, c)
  {
    ClassesAreValid(c.portability);
  }

  ghost predicate MergedOk(cs: seq<Component>, m: map<string, Component>) {
    forall name :: (name in m <==> Names(cs, name)) && (name in m ==> m[name].name == name && Sums(cs, m[name]))
  }

  lemma AppendOne(cs: seq<Component>, c: Component, name: string)
    ensures CountOf(cs + [c], name) == CountOf(cs, name) + if Counts(c, name) then c.count else 0
    ensures BytesOf(cs + [c], name) == BytesOf(cs, name) + if Counts(c, name) then c.bytes else 0
    ensures Names(cs + [c], name) <==> Names(cs, name) || Counts(c, name)
  {}

  lemma WorstOne(cs: seq<Component>, c: Component, name: string, p: Portability)
    requires Worst(cs, name, p)
    ensures !Counts(c, name) ==> Worst(cs + [c], name, p)
    ensures Counts(c, name) ==> Worst(cs + [c], name, if Worse(c.portability, p) then c.portability else p)
  {
    var all := cs + [c];
    var i :| 0 <= i < |cs| && Counts(cs[i], name) && cs[i].portability == p;
    assert all[i] == cs[i] && all[|cs|] == c;
  }

  lemma WorstAlone(cs: seq<Component>, c: Component)
    requires Accepted(c) && !Names(cs, c.name)
    ensures Worst(cs + [c], c.name, c.portability)
    ensures CountOf(cs, c.name) == 0 && BytesOf(cs, c.name) == 0
  {
    var all := cs + [c];
    assert all[|cs|] == c;
    forall i | 0 <= i < |cs| ensures !Counts(all[i], c.name) { assert all[i] == cs[i]; }
    NoneNoSum(cs, c.name);
  }

  lemma {:induction false} NoneNoSum(cs: seq<Component>, name: string)
    requires !Names(cs, name)
    ensures CountOf(cs, name) == 0 && BytesOf(cs, name) == 0
  {
    if cs != [] {
      var n := |cs| - 1;
      assert cs == cs[..n] + [cs[n]];
      AppendOne(cs[..n], cs[n], name);
      NoneNoSum(cs[..n], name);
    }
  }

  /** One more input keeps the table right. */
  lemma MergeKeeps(cs: seq<Component>, m: map<string, Component>, c: Component)
    requires MergedOk(cs, m)
    ensures MergedOk(cs + [c], Merge(m, c))
  {
    hide CountOf, BytesOf, Names, Worst, Wrap;
    var m' := Merge(m, c);
    forall name ensures (name in m' <==> Names(cs + [c], name))
      && (name in m' ==> m'[name].name == name && Sums(cs + [c], m'[name])) {
      AppendOne(cs, c, name);
      if name in m {
        WorstOne(cs, c, name, m[name].portability);
        WrapTerm(CountOf(cs, name), c.count);
        WrapTerm(BytesOf(cs, name), c.bytes);
      } else if Counts(c, name) {
        WorstAlone(cs, c);
        InRange(c.count);
        InRange(c.bytes);
      }
    }
  }

  /** The first `k` inputs have been merged into `m`. */
  ghost predicate Merged(all: seq<Component>, k: nat, m: map<string, Component>) {
    k <= |all| && MergedOk(all[..k], m) && m == MergeAll(all[..k])
  }

  lemma MergedStep(all: seq<Component>, k: nat, m: map<string, Component>)
    requires Merged(all, k, m) && k < |all|
    ensures Merged(all, k + 1, Merge(m, all[k]))
  {
    assert all[..k + 1] == all[..k] + [all[k]];
    assert all[..k + 1][..k] == all[..k];
    MergeKeeps(all[..k], m, all[k]);
  }

  /** `out` lists the table's components by name. */
  ghost predicate Lists(m: map<string, Component>, names: seq<string>, out: seq<Component>) {
    |out| <= |names| && forall i :: 0 <= i < |out| ==> names[i] in m && out[i] == m[names[i]]
  }

  lemma Reported(all: seq<Component>, m: map<string, Component>, out: seq<Component>, overall: Portability)
    requires Merged(all, |all|, m) && Lists(m, SortedKeys(m.Keys), out) && |out| == |m.Keys|
    requires OverallOf(out, overall)
    ensures Aggregates(all, Report(overall, STRUCTURED_HANDOFF, out))
    ensures NamesIn(out) == SortedKeys(m.Keys)
  {
    hide CountOf, BytesOf, Names, Worst, OverallOf;
    var names := SortedKeys(m.Keys);
    assert all[..|all|] == all;
    forall i | 0 <= i < |out| ensures NamesIn(out)[i] == names[i] {
      assert names[i] in m;
    }
    assert NamesIn(out) == names;
  }

  method AggregateFidelity(events: seq<Event>, included: seq<Component>) returns (r: Report)
    ensures Aggregates(Inputs(events, included), r)
    ensures Lists(MergeAll(Inputs(events, included)), NamesIn(r.components), r.components)
  {
    hide MergedOk, MergeAll, Merge, Aggregates, OverallOf;
    ghost var all := Inputs(events, included);
    var byName: map<string, Component> := map[];
    MergedNone();
    assert all[..0] == [];
    for i := 0 to |included|
      invariant Merged(all, i, byName)
    {
      MergedStep(all, i, byName);
      byName := Merge(byName, included[i]);
    }
    for i := 0 to |events|
      invariant Merged(all, |included| + i, byName)
    {
      MergedStep(all, |included| + i, byName);
      var bytes := EventBytes(events[i]);
      byName := Merge(byName, Component(ComponentName(events[i]), events[i].portability, 1, bytes, events[i].reason));
    }
    assert all[..|all|] == all;
    var names := KeysInOrder(byName.Keys);
    var out: seq<Component> := [];
    var overall, have := Exact, false;
    OverallNone();
    for i := 0 to |names|
      invariant |out| == i && Lists(byName, names, out)
      invariant OverallOf(out, overall) && have == (i > 0)
    {
      var a := byName[names[i]];
      OverallOne(out, overall, a);
      out := out + [a];
      if !have || Worse(a.portability, overall) {
        overall, have := a.portability, true;
      }
    }
    Reported(all, byName, out, overall);
    return Report(overall, STRUCTURED_HANDOFF, out);
  }

  lemma OverallNone()
    ensures OverallOf([], Exact)
  {}

  method EventBytes(e: Event) returns (n: int64)
    ensures n == Wrap(TextBytes(e.blocks))
  {
    hide Wrap, Utf8Length;
    n := 0;
    InRange(0);
    for i := 0 to |e.blocks|
      invariant n == Wrap(TextBytes(e.blocks[..i]))
    {
      assert e.blocks[..i + 1][..i] == e.blocks[..i];
      WrapTerm(TextBytes(e.blocks[..i]), Utf8Length(e.blocks[i].text));
      n := Wrap(n + Utf8Length(e.blocks[i].text));
    }
    assert e.blocks[..|e.blocks|] == e.blocks;
  }

  lemma MergedNone()
    ensures MergedOk([], map[]) && MergeAll([]) == map[]
  {}

  lemma OverallOne(cs: seq<Component>, p: Portability, c: Component)
    requires OverallOf(cs, p)
    ensures OverallOf(cs + [c], if cs == [] || Worse(c.portability, p) then c.portability else p)
  {
    var all := cs + [c];
    assert all[|cs|] == c;
    if cs != [] {
      var i :| 0 <= i < |cs| && cs[i].portability == p;
      assert all[i] == cs[i];
    }
  }

  method WorstOfComponents(components: seq<Component>) returns (worst: Portability)
    ensures OverallOf(components, worst)
  {
    if |components| == 0 {
      return Exact;
    }
    worst := components[0].portability;
    for i := 1 to |components|
      invariant OverallOf(components[..i], worst)
    {
      assert components[..i + 1] == components[..i] + [components[i]];
      OverallOne(components[..i], worst, components[i]);
      if Worse(components[i].portability, worst) {
        worst := components[i].portability;
      }
    }
    assert components[..|components|] == components;
  }

  // ---------------------------------------------------------------------------
  // Order does not matter
  // ---------------------------------------------------------------------------

  lemma {:induction false} SumsAppend(a: seq<Component>, b: seq<Component>, name: string)
    ensures CountOf(a + b, name) == CountOf(a, name) + CountOf(b, name)
    ensures BytesOf(a + b, name) == BytesOf(a, name) + BytesOf(b, name)
    decreases |b|
  {
    if b == [] {
      assert a + b == a;
    } else {
      var n := |b| - 1;
      assert a + b == (a + b[..n]) + [b[n]] && b == b[..n] + [b[n]];
      SumsAppend(a, b[..n], name);
      AppendOne(a + b[..n], b[n], name);
    }
  }

  lemma SumsWithout(b: seq<Component>, i: nat, name: string)
    requires i < |b|
    ensures
      var rest, c := b[..i] + b[i + 1..], b[i];
      && multiset(rest) == multiset(b) - multiset{c}
      && CountOf(b, name) == CountOf(rest, name) + (if Counts(c, name) then c.count else 0)
      && BytesOf(b, name) == BytesOf(rest, name) + (if Counts(c, name) then c.bytes else 0)
  {
    hide CountOf, BytesOf, Counts;
    assert b == b[..i] + [b[i]] + b[i + 1..];
    AppendOne(b[..i], b[i], name);
    SumsAppend(b[..i] + [b[i]], b[i + 1..], name);
    SumsAppend(b[..i], b[i + 1..], name);
  }

  lemma {:induction false} SumsPermuted(a: seq<Component>, b: seq<Component>, name: string)
    requires multiset(a) == multiset(b)
    ensures CountOf(a, name) == CountOf(b, name) && BytesOf(a, name) == BytesOf(b, name)
    decreases |a|
  {
    hide CountOf, BytesOf, Counts;
    if a == [] {
      assert b == [] by { assert |multiset(b)| == |b|; }
    } else {
      var n := |a| - 1;
      assert a[..n] + a[n + 1..] == a[..n];
      assert a[n] in multiset(b);
      var i :| 0 <= i < |b| && b[i] == a[n];
      SumsWithout(a, n, name);
      SumsWithout(b, i, name);
      SumsPermuted(a[..n], b[..i] + b[i + 1..], name);
    }
  }

  lemma MembersPermuted(a: seq<Component>, b: seq<Component>, i: nat)
    requires multiset(a) == multiset(b) && i < |a|
    ensures exists j :: 0 <= j < |b| && b[j] == a[i]
  {
    assert a[i] in multiset(b);
  }

  lemma NamesPermuted(a: seq<Component>, b: seq<Component>, name: string)
    requires multiset(a) == multiset(b) && Names(a, name)
    ensures Names(b, name)
  {
    var i :| 0 <= i < |a| && Counts(a[i], name);
    MembersPermuted(a, b, i);
  }

  lemma WorstPermuted(a: seq<Component>, b: seq<Component>, name: string, p: Portability, q: Portability)
    requires multiset(a) == multiset(b) && Worst(a, name, p) && Worst(b, name, q)
    ensures p == q
  {
    var i :| 0 <= i < |a| && Counts(a[i], name) && a[i].portability == p;
    var j :| 0 <= j < |b| && Counts(b[j], name) && b[j].portability == q;
    MembersPermuted(a, b, i);
    MembersPermuted(b, a, j);
  }

  /** Two reports that differ in the reasons given at most. */
  ghost predicate SameFigures(r: Report, r': Report) {
    && r.overall == r'.overall && r.mode == r'.mode && |r.components| == |r'.components|
    && forall i :: 0 <= i < |r.components| ==> r'.components[i].(reason := r.components[i].reason) == r.components[i]
  }

  /** The names, classes, counts and sizes reported do not depend on the order of the inputs,
      whether events or components. */
  lemma OrderDoesNotMatter(a: seq<Component>, b: seq<Component>, r: Report, r': Report)
    requires multiset(a) == multiset(b) && Aggregates(a, r) && Aggregates(b, r')
    ensures SameFigures(r, r')
  {
    hide CountOf, BytesOf, Worst, OverallOf;
    var ns, ns' := NamesIn(r.components), NamesIn(r'.components);
    SameNames(a, b, r, r');
    SameNames(b, a, r', r);
    assert Elements(ns) == Elements(ns');
    SortedUnique(ns, ns');
    forall i | 0 <= i < |r.components|
      ensures r'.components[i].(reason := r.components[i].reason) == r.components[i]
    {
      var c, c' := r.components[i], r'.components[i];
      assert ns[i] == c.name && ns'[i] == c'.name;
      assert Sums(a, c) && Sums(b, c');
      SumsPermuted(a, b, c.name);
      WorstPermuted(a, b, c.name, c.portability, c'.portability);
    }
    forall i | 0 <= i < |r.components| ensures Valid(r.components[i].portability) {
      SumsAccepted(a, r.components[i]);
    }
    SameOverall(r, r');
  }

  lemma SumsAccepted(cs: seq<Component>, c: Component)
    requires Sums(cs, c)
    ensures Accepted(c)
  {}

  lemma SameNames(a: seq<Component>, b: seq<Component>, r: Report, r': Report)
    requires multiset(a) == multiset(b) && Aggregates(a, r) && Aggregates(b, r')
    ensures Elements(NamesIn(r.components)) <= Elements(NamesIn(r'.components))
  {
    forall name | name in NamesIn(r.components) ensures name in NamesIn(r'.components) {
      var i :| 0 <= i < |r.components| && NamesIn(r.components)[i] == name;
      assert Sums(a, r.components[i]);
      NamesPermuted(a, b, name);
    }
  }

  lemma SameOverall(r: Report, r': Report)
    requires OverallOf(r.components, r.overall) && OverallOf(r'.components, r'.overall)
    requires |r.components| == |r'.components|
    requires forall i :: 0 <= i < |r.components| ==>
      r'.components[i].(reason := r.components[i].reason) == r.components[i] && Valid(r.components[i].portability)
    ensures r.overall == r'.overall
  {}

  // ---------------------------------------------------------------------------
  // Nothing is gained or lost
  // ---------------------------------------------------------------------------

  function Totals(cs: seq<Component>): (int, int) {
    if cs == [] then (0, 0)
    else
      var (count, bytes) := Totals(cs[..|cs| - 1]);
      var c := cs[|cs| - 1];
      if Accepted(c) then (count + c.count, bytes + c.bytes) else (count, bytes)
  }

  /** The same, name by name. */
  function TotalsOver(names: seq<string>, cs: seq<Component>): (int, int) {
    if names == [] then (0, 0)
    else
      var (count, bytes) := TotalsOver(names[..|names| - 1], cs);
      var name := names[|names| - 1];
      (count + CountOf(cs, name), bytes + BytesOf(cs, name))
  }

  lemma {:induction false} TotalsOverOne(names: seq<string>, cs: seq<Component>, c: Component)
    requires Sorted(names)
    ensures TotalsOver(names, cs + [c])
      == if Accepted(c) && c.name in names
         then (TotalsOver(names, cs).0 + c.count, TotalsOver(names, cs).1 + c.bytes)
         else TotalsOver(names, cs)
    decreases |names|
  {
    hide CountOf, BytesOf;
    if names != [] {
      var n := |names| - 1;
      var name := names[n];
      TotalsOverOne(names[..n], cs, c);
      AppendOne(cs, c, name);
      forall i | 0 <= i < n ensures names[i] != name { LessAsymmetric(names[i], name); }
      assert name !in names[..n];
      assert c.name in names <==> c.name in names[..n] || c.name == name;
    }
  }

  lemma {:induction false} TotalsByName(names: seq<string>, cs: seq<Component>)
    requires Sorted(names) && forall i :: 0 <= i < |cs| && Accepted(cs[i]) ==> cs[i].name in names
    ensures TotalsOver(names, cs) == Totals(cs)
    decreases |cs|
  {
    if cs == [] {
      TotalsOverNone(names);
    } else {
      var n := |cs| - 1;
      TotalsByName(names, cs[..n]);
      TotalsOverOne(names, cs[..n], cs[n]);
      assert cs == cs[..n] + [cs[n]];
    }
  }

  lemma {:induction false} TotalsOverNone(names: seq<string>)
    ensures TotalsOver(names, []) == (0, 0)
  {
    if names != [] { TotalsOverNone(names[..|names| - 1]); }
  }

  /** Congruent modulo 2^64. */
  predicate Same(a: (int, int), b: (int, int)) {
    Wrap(a.0) == Wrap(b.0) && Wrap(a.1) == Wrap(b.1)
  }

  /** No sum the report names is out of range. */
  ghost predicate Fit(cs: seq<Component>, components: seq<Component>) {
    forall i :: 0 <= i < |components| ==>
      components[i].count == CountOf(cs, components[i].name) && components[i].bytes == BytesOf(cs, components[i].name)
  }

  lemma SameNext(a: (int, int), b: (int, int), x: (int, int), y: (int, int))
    requires Same(a, b) && Same(x, y)
    ensures Same((a.0 + x.0, a.1 + x.1), (b.0 + y.0, b.1 + y.1))
  {
    hide Wrap;
    WrapTerms(a.0, x.0, b.0, y.0);
    WrapTerms(a.1, x.1, b.1, y.1);
  }

  lemma WrapTerms(a: int, x: int, b: int, y: int)
    requires Wrap(a) == Wrap(b) && Wrap(x) == Wrap(y)
    ensures Wrap(a + x) == Wrap(b + y)
  {
    hide Wrap;
    WrapTerm(a, x);
    WrapTerm(b, x);
    WrapTerm(x, b);
    WrapTerm(y, b);
  }

  lemma SumsSame(cs: seq<Component>, c: Component)
    requires Sums(cs, c)
    ensures Same((c.count, c.bytes), (CountOf(cs, c.name), BytesOf(cs, c.name)))
  {
    hide Wrap, CountOf, BytesOf, Worst, Names;
    InRange(c.count);
    InRange(c.bytes);
  }

  lemma NoTotals(cs: seq<Component>)
    ensures Totals([]) == TotalsOver(NamesIn([]), cs) && Same(Totals([]), TotalsOver(NamesIn([]), cs))
  {}

  lemma {:induction false} TotalsReported(cs: seq<Component>, components: seq<Component>)
    requires forall i :: 0 <= i < |components| ==> Sums(cs, components[i])
    ensures Same(Totals(components), TotalsOver(NamesIn(components), cs))
    ensures Fit(cs, components) ==> Totals(components) == TotalsOver(NamesIn(components), cs)
    decreases |components|
  {
    hide Wrap, CountOf, BytesOf, Worst, Names, Same, Sums;
    if components == [] {
      NoTotals(cs);
    } else {
      var n := |components| - 1;
      var c := components[n];
      TotalsReported(cs, components[..n]);
      SumsAccepted(cs, c);
      assert NamesIn(components)[..n] == NamesIn(components[..n]);
      SumsSame(cs, c);
      SameNext(Totals(components[..n]), TotalsOver(NamesIn(components[..n]), cs), (c.count, c.bytes),
        (CountOf(cs, c.name), BytesOf(cs, c.name)));
      assert Fit(cs, components) ==> Fit(cs, components[..n]);
    }
  }

  /** The report adds up to what was accepted, in number and in size: modulo 2^64, and exactly
      if no sum it names is out of range. */
  lemma TotalsConserved(cs: seq<Component>, r: Report)
    requires Aggregates(cs, r)
    ensures Same(Totals(r.components), Totals(cs))
    ensures Fit(cs, r.components) ==> Totals(r.components) == Totals(cs)
  {
    hide Wrap;
    forall i | 0 <= i < |cs| && Accepted(cs[i]) ensures cs[i].name in NamesIn(r.components) {
      assert Counts(cs[i], cs[i].name);
    }
    TotalsReported(cs, r.components);
    TotalsByName(NamesIn(r.components), cs);
  }

  // ---------------------------------------------------------------------------
  // Aggregating again
  // ---------------------------------------------------------------------------

  /** Components of different names pass through merging as they are. */
  lemma {:induction false} MergeDistinct(cs: seq<Component>)
    requires Sorted(NamesIn(cs)) && forall i :: 0 <= i < |cs| ==> Accepted(cs[i])
    ensures MergeAll(cs).Keys == Elements(NamesIn(cs))
    ensures Lists(MergeAll(cs), NamesIn(cs), cs)
    decreases |cs|
  {
    hide Accepted, Less, Elements, Merge;
    if cs != [] {
      var n := |cs| - 1;
      var ns := NamesIn(cs);
      assert NamesIn(cs[..n]) == ns[..n];
      MergeDistinct(cs[..n]);
      LastIsNew(ns);
      MergeNew(MergeAll(cs[..n]), cs[n]);
      ListsOne(MergeAll(cs[..n]), ns, cs);
    } else {
      NoElements();
    }
  }

  lemma NoElements()
    ensures Elements([]) == {}
  {}

  lemma ListsOne(m: map<string, Component>, ns: seq<string>, cs: seq<Component>)
    requires |ns| == |cs| && cs != [] && ns[|cs| - 1] !in m
    requires Lists(m, ns[..|cs| - 1], cs[..|cs| - 1]) && m.Keys == Elements(ns[..|cs| - 1])
    ensures Lists(m[ns[|cs| - 1] := cs[|cs| - 1]], ns, cs)
    ensures m[ns[|cs| - 1] := cs[|cs| - 1]].Keys == Elements(ns)
  {}

  lemma LastIsNew(ns: seq<string>)
    requires Sorted(ns) && ns != []
    ensures ns[|ns| - 1] !in Elements(ns[..|ns| - 1])
  {
    forall i | 0 <= i < |ns| - 1 ensures ns[i] != ns[|ns| - 1] { LessAsymmetric(ns[i], ns[|ns| - 1]); }
  }

  lemma MergeNew(m: map<string, Component>, c: Component)
    requires Accepted(c) && c.name !in m
    ensures Merge(m, c) == m[c.name := c]
  {}

  lemma SameNamesAgain(cs: seq<Component>, r: Report, again: Report)
    requires Aggregates(cs, r) && Aggregates(r.components, again)
    ensures NamesIn(again.components) == NamesIn(r.components)
  {
    hide Sums, Less, OverallOf, Names;
    forall i | 0 <= i < |r.components| ensures Accepted(r.components[i]) { SumsAccepted(cs, r.components[i]); }
    var ns, ns' := NamesIn(r.components), NamesIn(again.components);
    forall name ensures name in Elements(ns) <==> name in Elements(ns') {
      NamedIs(r.components, name);
      SumsNamed(r.components, again.components, name);
    }
    SortedUnique(ns, ns');
  }

  /** Aggregating a report's components gives the report back, reasons included. */
  lemma AggregatingAgain(cs: seq<Component>, r: Report, again: Report)
    requires Aggregates(cs, r)
    requires Aggregates(Inputs([], r.components), again)
    requires Lists(MergeAll(Inputs([], r.components)), NamesIn(again.components), again.components)
    ensures again == r
  {
    hide Sums, Less, OverallOf, Names, MergeAll, Accepted;
    assert Inputs([], r.components) == r.components;
    forall i | 0 <= i < |r.components| ensures Accepted(r.components[i]) && Valid(r.components[i].portability) {
      SumsAccepted(cs, r.components[i]);
      AcceptedValid(r.components[i]);
    }
    SameNamesAgain(cs, r, again);
    MergeDistinct(r.components);
    assert |NamesIn(again.components)| == |NamesIn(r.components)|;
    assert again.components == r.components;
    SameOverall(r, again);
  }

  lemma AcceptedValid(c: Component)
    requires Accepted(c)
    ensures Valid(c.portability)
  {}

  lemma NamedIs(cs: seq<Component>, name: string)
    requires forall i :: 0 <= i < |cs| ==> Accepted(cs[i])
    ensures name in NamesIn(cs) <==> Names(cs, name)
  {
    if name in NamesIn(cs) {
      var i :| 0 <= i < |cs| && NamesIn(cs)[i] == name;
      assert Counts(cs[i], name);
    }
    if Names(cs, name) {
      var i :| 0 <= i < |cs| && Counts(cs[i], name);
      assert NamesIn(cs)[i] == name;
    }
  }

  lemma SumsNamed(cs: seq<Component>, components: seq<Component>, name: string)
    requires forall i :: 0 <= i < |components| ==> Sums(cs, components[i])
    requires forall n :: Names(cs, n) ==> n in NamesIn(components)
    ensures name in NamesIn(components) <==> Names(cs, name)
  {}

  // ---------------------------------------------------------------------------
  // When the order matters to the reason given
  // ---------------------------------------------------------------------------

  /** The reason reported for `name`. */
  function ReasonOf(cs: seq<Component>, name: string): string
    requires name in MergeAll(cs)
  {
    MergeAll(cs)[name].reason
  }

  lemma MergedIs(cs: seq<Component>, name: string)
    ensures name in MergeAll(cs) <==> Names(cs, name)
    ensures name in MergeAll(cs) ==> Worst(cs, name, MergeAll(cs)[name].portability)
  {
    MergeAllOk(cs);
  }

  lemma {:induction false} MergeAllOk(cs: seq<Component>)
    ensures MergedOk(cs, MergeAll(cs))
    decreases |cs|
  {
    if cs == [] {
      MergedNone();
    } else {
      var n := |cs| - 1;
      MergeAllOk(cs[..n]);
      MergeKeeps(cs[..n], MergeAll(cs[..n]), cs[n]);
      assert cs == cs[..n] + [cs[n]];
    }
  }

  /** `c` is one of the inputs called `name`, and none of these is worse. */
  ghost predicate IsWorst(cs: seq<Component>, name: string, c: Component) {
    Counts(c, name) && NoneWorse(cs, name, c.portability)
  }

  ghost predicate NoneWorse(cs: seq<Component>, name: string, p: Portability) {
    forall i :: 0 <= i < |cs| && Counts(cs[i], name) ==> Rank(cs[i].portability) <= Rank(p)
  }

  /** Once the worst class has been reached the reason stands. */
  lemma {:induction false} ReasonStands(first: seq<Component>, rest: seq<Component>, name: string)
    requires name in MergeAll(first)
    requires forall i :: 0 <= i < |rest| && Counts(rest[i], name) ==>
      Rank(rest[i].portability) <= Rank(MergeAll(first)[name].portability)
    ensures name in MergeAll(first + rest)
    ensures MergeAll(first + rest)[name].portability == MergeAll(first)[name].portability
    ensures ReasonOf(first + rest, name) == ReasonOf(first, name)
    decreases |rest|
  {
    if rest == [] {
      assert first + rest == first;
    } else {
      var n := |rest| - 1;
      assert (first + rest)[..|first + rest| - 1] == first + rest[..n];
      ReasonStands(first, rest[..n], name);
    }
  }

  /** An input is moved to the front. */
  function Front(cs: seq<Component>, i: nat): (r: seq<Component>)
    requires i < |cs|
    ensures multiset(r) == multiset(cs)
  {
    assert cs == cs[..i] + [cs[i]] + cs[i + 1..];
    [cs[i]] + (cs[..i] + cs[i + 1..])
  }

  lemma MergeOne(c: Component)
    requires Accepted(c)
    ensures MergeAll([c]) == map[c.name := c]
  {
    assert [c][..0] == [];
  }

  /** A worst input that comes first has its reason reported. */
  lemma WorstFirst(cs: seq<Component>, i: nat, name: string)
    requires i < |cs| && IsWorst(cs, name, cs[i])
    ensures name in MergeAll(Front(cs, i)) && ReasonOf(Front(cs, i), name) == cs[i].reason
  {
    var rest := cs[..i] + cs[i + 1..];
    MergeOne(cs[i]);
    forall j | 0 <= j < |rest| && Counts(rest[j], name)
      ensures Rank(rest[j].portability) <= Rank(cs[i].portability)
    {
      assert rest[j] == if j < i then cs[j] else cs[j + 1];
    }
    ReasonStands([cs[i]], rest, name);
  }

  lemma TwoMerged(x: Component, w: Component)
    requires Accepted(x) && Accepted(w) && x.name == w.name && Worse(w.portability, x.portability) && w.reason == ""
    ensures
      var m := MergeAll([x, w]);
      x.name in m && m[x.name].reason == x.reason && m[x.name].portability == w.portability
  {
    MergeOne(x);
    assert [x, w][..1] == [x];
  }

  /** All but the first and the one at `p`. */
  function Others(cs: seq<Component>, p: nat): seq<Component>
    requires 0 < p < |cs|
  {
    cs[1..p] + cs[p + 1..]
  }

  lemma FrontTwice(cs: seq<Component>, p: nat)
    requires 0 < p < |cs|
    ensures Front(cs, p) == [cs[p], cs[0]] + Others(cs, p)
    ensures forall q :: 0 <= q < |Others(cs, p)| ==> Others(cs, p)[q] in multiset(cs)
  {
    assert cs[..p] == [cs[0]] + cs[1..p];
    var others := Others(cs, p);
    forall q | 0 <= q < |others| ensures others[q] in multiset(cs) {
      assert others[q] == if q < p - 1 then cs[q + 1] else cs[q + 2];
    }
  }

  /** And so has any other, if a worst one without a reason comes next. */
  lemma SilentWorstNext(cs: seq<Component>, i: nat, j: nat, name: string) returns (r: seq<Component>)
    requires i < |cs| && j < |cs| && Counts(cs[i], name) && IsWorst(cs, name, cs[j])
    requires Rank(cs[i].portability) < Rank(cs[j].portability) && cs[j].reason == ""
    ensures multiset(r) == multiset(cs) && name in MergeAll(r) && ReasonOf(r, name) == cs[i].reason
  {
    hide MergeAll;
    var x, w := cs[i], cs[j];
    var once := Front(cs, j);
    assert once[0] == w && x in multiset(once);
    var p :| 0 <= p < |once| && once[p] == x;
    hide Front;
    FrontTwice(once, p);
    r := Front(once, p);
    var others := Others(once, p);
    TwoMerged(x, w);
    forall q | 0 <= q < |others| && Counts(others[q], name)
      ensures Rank(others[q].portability) <= Rank(w.portability)
    {
      MembersOf(cs, once, others[q]);
    }
    ReasonStands([x, w], others, name);
  }

  lemma MembersOf(cs: seq<Component>, r: seq<Component>, c: Component)
    requires multiset(r) == multiset(cs) && c in multiset(r)
    ensures exists i :: 0 <= i < |cs| && cs[i] == c
  {
    assert c in multiset(cs);
  }

  /** All worst inputs of the name give `reason`, and if that is none, all inputs do. */
  ghost predicate Agreed(cs: seq<Component>, name: string, reason: string) {
    && (forall i :: 0 <= i < |cs| && IsWorst(cs, name, cs[i]) ==> cs[i].reason == reason)
    && (reason == "" ==> forall i :: 0 <= i < |cs| && Counts(cs[i], name) ==> cs[i].reason == "")
  }

  lemma AgreedPermuted(cs: seq<Component>, r: seq<Component>, name: string, reason: string)
    requires multiset(r) == multiset(cs) && Agreed(cs, name, reason)
    ensures Agreed(r, name, reason)
  {
    forall i | 0 <= i < |r| ensures exists j :: 0 <= j < |cs| && cs[j] == r[i] { MembersPermuted(r, cs, i); }
    forall i | 0 <= i < |r| && IsWorst(r, name, r[i]) ensures r[i].reason == reason {
      var j :| 0 <= j < |cs| && cs[j] == r[i];
      forall m | 0 <= m < |cs| && Counts(cs[m], name) ensures Rank(cs[m].portability) <= Rank(cs[j].portability) {
        MembersPermuted(cs, r, m);
      }
      assert IsWorst(cs, name, cs[j]);
    }
  }

  /** Where the worst inputs agree, theirs is the reason reported, or, of the inputs merged
      so far, none has reached the worst class. */
  lemma {:induction false} AgreedReason(cs: seq<Component>, name: string, reason: string, n: nat)
    requires n <= |cs| && Agreed(cs, name, reason) && name in MergeAll(cs[..n])
    ensures
      var m := MergeAll(cs[..n])[name];
      m.reason == reason || (reason != "" && !NoneWorse(cs, name, m.portability))
    decreases n
  {
    hide MergeAll;
    MergedIs(cs[..n], name);
    assert n > 0;
    var c := cs[n - 1];
    assert cs[..n][..n - 1] == cs[..n - 1] && cs[..n][n - 1] == c;
    LastMerged(cs[..n]);
    if name in MergeAll(cs[..n - 1]) { AgreedReason(cs, name, reason, n - 1); }
    if Counts(c, name) && !IsWorst(cs, name, c) {
      var i :| 0 <= i < |cs| && Counts(cs[i], name) && Rank(cs[i].portability) > Rank(c.portability);
    }
  }

  lemma LastMerged(cs: seq<Component>)
    requires cs != []
    ensures MergeAll(cs) == Merge(MergeAll(cs[..|cs| - 1]), cs[|cs| - 1])
  {}

  lemma AgreedIsReported(cs: seq<Component>, name: string, reason: string)
    requires Names(cs, name) && Agreed(cs, name, reason)
    ensures name in MergeAll(cs) && ReasonOf(cs, name) == reason
  {
    MergedIs(cs, name);
    assert cs[..|cs|] == cs;
    AgreedReason(cs, name, reason, |cs|);
  }

  /** Merged in any order, the inputs give `name` the same reason. */
  ghost predicate OrderFree(cs: seq<Component>, name: string)
    requires name in MergeAll(cs)
  {
    forall r :: multiset(r) == multiset(cs) ==> name in MergeAll(r) && ReasonOf(r, name) == ReasonOf(cs, name)
  }

  lemma AgreedIsEnough(cs: seq<Component>, name: string, reason: string)
    requires Names(cs, name) && Agreed(cs, name, reason)
    ensures name in MergeAll(cs) && OrderFree(cs, name)
  {
    hide MergeAll;
    AgreedIsReported(cs, name, reason);
    forall r | multiset(r) == multiset(cs) ensures name in MergeAll(r) && ReasonOf(r, name) == ReasonOf(cs, name) {
      NamesPermuted(cs, r, name);
      AgreedPermuted(cs, r, name, reason);
      AgreedIsReported(r, name, reason);
    }
  }

  lemma OrderFreeMeansAgreed(cs: seq<Component>, name: string) returns (reason: string)
    requires Names(cs, name) && name in MergeAll(cs) && OrderFree(cs, name)
    ensures Agreed(cs, name, reason)
  {
    hide MergeAll, Front;
    MergedIs(cs, name);
    var i :| 0 <= i < |cs| && Counts(cs[i], name) && cs[i].portability == MergeAll(cs)[name].portability;
    WorstFirst(cs, i, name);
    reason := cs[i].reason;
    forall j | 0 <= j < |cs| && IsWorst(cs, name, cs[j]) ensures cs[j].reason == reason {
      WorstFirst(cs, j, name);
    }
    if reason == "" {
      forall j | 0 <= j < |cs| && Counts(cs[j], name) ensures cs[j].reason == "" {
        if !IsWorst(cs, name, cs[j]) {
          var r := SilentWorstNext(cs, j, i, name);
        }
      }
    }
  }

  /** The reason reported for a name does not depend on the order of the inputs exactly if the
      worst of its inputs all give the same reason, or none of its inputs gives any. */
  lemma ReasonsAgreeExactly(cs: seq<Component>, name: string)
    requires Names(cs, name)
    ensures name in MergeAll(cs)
    ensures OrderFree(cs, name) <==> exists reason :: Agreed(cs, name, reason)
  {
    hide MergeAll, OrderFree, Agreed;
    MergedIs(cs, name);
    if OrderFree(cs, name) {
      var reason := OrderFreeMeansAgreed(cs, name);
    } else {
      forall reason ensures !Agreed(cs, name, reason) {
        if Agreed(cs, name, reason) { AgreedIsEnough(cs, name, reason); }
      }
    }
  }

  /** Two inputs of one name: their order matters unless their reasons are the same, or the
      strictly worse one gives a reason. */
  lemma TwoReasonsAgreeExactly(a: Component, b: Component)
    requires Accepted(a) && Accepted(b) && a.name == b.name
    ensures a.name in MergeAll([a, b]) && a.name in MergeAll([b, a])
    ensures ReasonOf([a, b], a.name) == ReasonOf([b, a], a.name) <==>
      || a.reason == b.reason
      || (Worse(a.portability, b.portability) && a.reason != "")
      || (Worse(b.portability, a.portability) && b.reason != "")
  {
    MergeOne(a);
    MergeOne(b);
    assert [a, b][..1] == [a] && [b, a][..1] == [b];
  }
}
