/** The order of strings, and sorting distinct strings by it. Go compares bytes; that comparing
    characters is the same is shown in Utf8. */
module SortedStrings {

  predicate Less(a: string, b: string) {
    b != [] && (a == [] || a[0] < b[0] || (a[0] == b[0] && Less(a[1..], b[1..])))
  }

  /** The texts agree up to place `n`, where `a` ends or has the lower character. */
  ghost predicate LowerAt(a: string, b: string, n: nat) {
    n <= |a| && n < |b| && a[..n] == b[..n] && (n == |a| || a[n] < b[n])
  }

  /** What the order is, read off the two texts without walking them. */
  lemma {:induction false} LessExactly(a: string, b: string)
    ensures Less(a, b) <==> exists n: nat :: LowerAt(a, b, n)
  {
    if a == [] || b == [] || a[0] != b[0] {
      assert Less(a, b) ==> LowerAt(a, b, 0);
      assert forall n: nat | LowerAt(a, b, n) :: n > 0 ==> a[..n][0] == b[..n][0];
    } else {
      LessExactly(a[1..], b[1..]);
      forall n: nat ensures LowerAt(a, b, n + 1) <==> LowerAt(a[1..], b[1..], n) {
        LowerBeyond(a, b, n);
      }
      assert !LowerAt(a, b, 0);
      if n: nat :| LowerAt(a, b, n) {
        assert LowerAt(a[1..], b[1..], n - 1);
      }
    }
  }

  lemma LowerBeyond(a: string, b: string, n: nat)
    requires a != [] && b != [] && a[0] == b[0]
    ensures LowerAt(a, b, n + 1) <==> LowerAt(a[1..], b[1..], n)
  {
    if n < |a| && n < |b| {
      assert a[..n + 1] == [a[0]] + a[1..][..n] && b[..n + 1] == [b[0]] + b[1..][..n];
    }
  }

  lemma {:induction false} LessIrreflexive(a: string)
    ensures !Less(a, a)
  {
    if a != [] { LessIrreflexive(a[1..]); }
  }

  lemma {:induction false} LessTotal(a: string, b: string)
    ensures a == b || Less(a, b) || Less(b, a)
  {
    if a != [] && b != [] && a[0] == b[0] {
      LessTotal(a[1..], b[1..]);
      assert a == [a[0]] + a[1..] && b == [b[0]] + b[1..];
    }
  }

  lemma {:induction false} LessTransitive(a: string, b: string, c: string)
    requires Less(a, b) && Less(b, c)
    ensures Less(a, c)
  {
    if a != [] && a[0] == b[0] == c[0] {
      LessTransitive(a[1..], b[1..], c[1..]);
    }
  }

  lemma LessAsymmetric(a: string, b: string)
    requires Less(a, b)
    ensures !Less(b, a) && a != b
  {}

  function Elements(s: seq<string>): set<string> { set k | k in s }

  /** Every element is below all later ones, so none repeats. */
  ghost predicate Sorted(s: seq<string>) {
    forall i, j :: 0 <= i < j < |s| ==> Less(s[i], s[j])
  }

  ghost predicate Distinct(s: seq<string>) {
    forall i, j :: 0 <= i < j < |s| ==> s[i] != s[j]
  }

  lemma {:induction false} ElementCount(s: seq<string>)
    requires Distinct(s)
    ensures |Elements(s)| == |s|
  {
    if s != [] {
      var n := |s| - 1;
      ElementCount(s[..n]);
      assert Elements(s) == Elements(s[..n]) + {s[n]};
    }
  }

  lemma SortedDistinct(s: seq<string>)
    requires Sorted(s)
    ensures Distinct(s) && |Elements(s)| == |s|
  {
    forall i, j | 0 <= i < j < |s|
      ensures s[i] != s[j]
    {
      LessAsymmetric(s[i], s[j]);
    }
    ElementCount(s);
  }

  /** A set has one sorted listing. */
  lemma {:induction false} SortedUnique(a: seq<string>, b: seq<string>)
    requires Sorted(a) && Sorted(b) && Elements(a) == Elements(b)
    ensures a == b
  {
    SortedDistinct(a);
    SortedDistinct(b);
    if a != [] {
      var n := |a| - 1;
      SameLast(a, b);
      assert Elements(a[..n]) == Elements(a) - {a[n]} == Elements(b[..n]);
      SortedUnique(a[..n], b[..n]);
      assert a == a[..n] + [a[n]] && b == b[..n] + [b[n]];
    }
  }

  lemma SameLast(a: seq<string>, b: seq<string>)
    requires Sorted(a) && Sorted(b) && Elements(a) == Elements(b) && |a| == |b| > 0
    ensures a[|a| - 1] == b[|b| - 1]
  {
    var n := |a| - 1;
    assert a[n] in Elements(b) && b[n] in Elements(a);
    if a[n] != b[n] {
      var i :| 0 <= i < n && b[i] == a[n];
      var j :| 0 <= j < n && a[j] == b[n];
      LessAsymmetric(a[j], a[n]);
    }
  }

  function Insert(k: string, s: seq<string>): seq<string> {
    if s == [] || Less(k, s[0]) then [k] + s else [s[0]] + Insert(k, s[1..])
  }

  /** Sorting distinct strings. */
  function Sort(s: seq<string>): seq<string> {
    if s == [] then [] else Insert(s[0], Sort(s[1..]))
  }

  lemma {:induction false} InsertSorts(k: string, s: seq<string>)
    requires Sorted(s) && k !in s
    ensures Sorted(Insert(k, s)) && Elements(Insert(k, s)) == Elements(s) + {k}
  {
    if s == [] {
    } else if Less(k, s[0]) {
      forall j | 0 < j < |s|
        ensures Less(k, s[j])
      {
        LessTransitive(k, s[0], s[j]);
      }
    } else {
      LessTotal(k, s[0]);
      var rest := Insert(k, s[1..]);
      InsertSorts(k, s[1..]);
      forall x | x in rest
        ensures Less(s[0], x)
      {
        assert x in Elements(rest);
      }
      assert Elements([s[0]] + rest) == {s[0]} + Elements(rest);
      assert Elements(s) == {s[0]} + Elements(s[1..]);
    }
  }

  lemma {:induction false} SortSorts(s: seq<string>)
    requires Distinct(s)
    ensures Sorted(Sort(s)) && Elements(Sort(s)) == Elements(s) && |Sort(s)| == |s|
  {
    if s != [] {
      SortSorts(s[1..]);
      assert s[0] !in Elements(Sort(s[1..]));
      InsertSorts(s[0], Sort(s[1..]));
      assert Elements(s) == {s[0]} + Elements(s[1..]);
      SortedDistinct(Sort(s));
      ElementCount(s);
    }
  }

  lemma {:induction false} SortedExists(keys: set<string>)
    ensures exists s :: Sorted(s) && Elements(s) == keys
    decreases |keys|
  {
    if keys == {} {
      assert Sorted([]) && Elements([]) == keys;
    } else {
      var k :| k in keys;
      SortedExists(keys - {k});
      var s :| Sorted(s) && Elements(s) == keys - {k};
      assert k !in s by { assert k !in Elements(s); }
      InsertSorts(k, s);
      assert Elements(Insert(k, s)) == keys;
    }
  }

  /** The keys in order. */
  ghost function SortedKeys(keys: set<string>): (s: seq<string>)
    ensures Sorted(s) && Elements(s) == keys && |s| == |keys|
    ensures forall k :: k in s <==> k in keys
  {
    SortedExists(keys);
    var s :| Sorted(s) && Elements(s) == keys;
    SortedDistinct(s);
    assert forall k :: k in s <==> k in Elements(s);
    s
  }

  /** The keys of a table, taken in any order and then sorted. */
  method KeysInOrder(table: set<string>) returns (keys: seq<string>)
    ensures keys == SortedKeys(table)
  {
    var rest := table;
    keys := [];
    while rest != {}
      invariant rest <= table && Distinct(keys) && Elements(keys) == table - rest
      decreases |rest|
    {
      var k :| k in rest;
      assert k !in keys by { assert k !in Elements(keys); }
      assert Elements(keys + [k]) == Elements(keys) + {k};
      rest := rest - {k};
      keys := keys + [k];
    }
    SortSorts(keys);
    keys := Sort(keys);
    SortedUnique(keys, SortedKeys(table));
  }
}
