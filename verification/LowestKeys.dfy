/** Keeping the 256 lowest keys of a table without sorting all of them
    (internal/capability/mcp_toml.go, boundedSortedMapKeys). */
module LowestKeys {
  import opened SortedStrings

  const MAX_ENTRIES: nat := 256

  /** `kept` are among `keys`, 256 at most, and below every key left out. */
  ghost predicate Lowest(keys: set<string>, kept: set<string>) {
    && kept <= keys
    && |kept| == (if |keys| < 256 then |keys| else 256)
    && forall k, left :: k in kept && left in keys - kept ==> Less(k, left)
  }

  /** The lowest keys are determined by the table alone. */
  lemma LowestUnique(keys: set<string>, a: set<string>, b: set<string>)
    requires Lowest(keys, a) && Lowest(keys, b)
    ensures a == b
  {
    if a != b {
      SameSizeDiffer(a, b);
      SameSizeDiffer(b, a);
      var x :| x in a - b;
      var y :| y in b - a;
      LessAsymmetric(x, y);
    }
  }

  lemma SameSizeDiffer(a: set<string>, b: set<string>)
    requires |a| == |b| && a != b
    ensures a - b != {}
  {
    if a - b == {} {
      forall x | x in a
        ensures x in b
      {
        assert x !in a - b;
      }
      SubsetSize(a, b);
    }
  }

  lemma SubsetSize(a: set<string>, b: set<string>)
    requires a <= b && |a| == |b|
    ensures a == b
  {
    assert |b| == |a| + |b - a| by { assert b == a + (b - a); }
  }

  /** The index of the greatest of `names`. */
  method GreatestIndex(names: seq<string>) returns (top: nat)
    requires names != [] && Distinct(names)
    ensures top < |names|
    ensures forall i :: 0 <= i < |names| && i != top ==> Less(names[i], names[top])
  {
    top := 0;
    for i := 1 to |names|
      invariant top < i
      invariant forall j :: 0 <= j < i && j != top ==> Less(names[j], names[top])
    {
      LessTotal(names[top], names[i]);
      if Less(names[top], names[i]) {
        forall j | 0 <= j < i
          ensures Less(names[j], names[i])
        {
          if j != top { LessTransitive(names[j], names[top], names[i]); }
        }
        top := i;
      }
    }
  }

  /** Offering `name` to a full selection: it replaces the greatest entry if it is lower. */
  lemma Offered(seen: set<string>, names: seq<string>, top: nat, name: string)
    requires Distinct(names) && Lowest(seen, Elements(names)) && name !in seen
    requires |names| == MAX_ENTRIES && top < |names|
    requires forall i :: 0 <= i < |names| && i != top ==> Less(names[i], names[top])
    ensures Less(name, names[top]) ==>
      Distinct(names[top := name]) && Lowest(seen + {name}, Elements(names[top := name]))
    ensures !Less(name, names[top]) ==> Lowest(seen + {name}, Elements(names))
  {
    hide Less;
    var held := Elements(names);
    ElementCount(names);
    assert |seen| >= MAX_ENTRIES;
    LessTotal(name, names[top]);
    assert names[top] in held;
    if Less(name, names[top]) {
      var now := Elements(names[top := name]);
      Replaced(names, top, name);
      forall k, left | k in now && left in seen + {name} - now
        ensures Less(k, left)
      {
        if left != names[top] {
          assert Less(names[top], left);
          LessTransitive(name, names[top], left);
        }
      }
    } else {
      forall k | k in held
        ensures Less(k, name)
      {
        var i :| 0 <= i < |names| && names[i] == k;
        if i != top { LessTransitive(k, names[top], name); }
      }
    }
  }

  lemma Replaced(names: seq<string>, top: nat, name: string)
    requires Distinct(names) && top < |names| && name !in names
    ensures Distinct(names[top := name])
    ensures Elements(names[top := name]) == Elements(names) - {names[top]} + {name}
    ensures |Elements(names[top := name])| == |names|
  {
    var r := names[top := name];
    forall k
      ensures k in r <==> (k in names && k != names[top]) || k == name
    {
      if k in names && k != names[top] {
        var i :| 0 <= i < |names| && names[i] == k;
        assert r[i] == k;
      }
      assert r[top] == name;
    }
    ElementCount(r);
  }

  /** A selection that is not full yet takes the name in. */
  lemma TakenIn(seen: set<string>, names: seq<string>, name: string)
    requires Distinct(names) && Lowest(seen, Elements(names)) && name !in seen && |names| < MAX_ENTRIES
    ensures Distinct(names + [name]) && Lowest(seen + {name}, Elements(names + [name]))
  {
    ElementCount(names);
    SubsetSize(Elements(names), seen);
    assert name !in names by { assert name !in Elements(names); }
    ElementCount(names + [name]);
    assert Elements(names + [name]) == Elements(names) + {name};
  }

  /** The sorted lowest keys, whatever order the table is walked in. */
  method BoundedSortedMapKeys(keys: set<string>) returns (sorted: seq<string>, truncated: bool)
    ensures Sorted(sorted) && Lowest(keys, Elements(sorted))
    ensures truncated <==> |keys| > 256
  {
    var names: seq<string> := [];
    var rest := keys;
    ghost var seen: set<string> := {};
    assert Elements(names) == {};
    hide Less, Lowest, Distinct, Sorted, Elements, Sort;
    NothingSeen();
    while rest != {}
      invariant seen + rest == keys && seen !! rest
      invariant |names| <= MAX_ENTRIES && Distinct(names) && Lowest(seen, Elements(names))
      decreases |rest|
    {
      var name :| name in rest;
      rest := rest - {name};
      if |names| < MAX_ENTRIES {
        TakenIn(seen, names, name);
        names := names + [name];
      } else {
        var top := GreatestIndex(names);
        Offered(seen, names, top, name);
        if Less(name, names[top]) {
          names := names[top := name];
        }
      }
      seen := seen + {name};
    }
    assert seen == keys;
    SortSorts(names);
    return Sort(names), |keys| > MAX_ENTRIES;
  }

  lemma NothingSeen()
    ensures Distinct([]) && Lowest({}, {})
  {}

  /** The result does not depend on the order the table was walked in. */
  lemma SelectionUnique(keys: set<string>, a: seq<string>, b: seq<string>)
    requires Sorted(a) && Lowest(keys, Elements(a)) && Sorted(b) && Lowest(keys, Elements(b))
    ensures a == b
  {
    LowestUnique(keys, Elements(a), Elements(b));
    SortedUnique(a, b);
  }
}
