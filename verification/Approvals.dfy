/** Notifying once per pairing or revocation request (internal/daemon/loop.go, approvals). */
module Approvals {

  /** One poll of the control plane: an error, or the listed request ids. */
  datatype Poll = Unreachable | Listed(pairings: seq<string>, revocations: seq<string>)

  // ---------------------------------------------------------------------------
  // What one poll does
  // ---------------------------------------------------------------------------

  function Prefixed(prefix: string, ids: seq<string>): (r: seq<string>)
    ensures |r| == |ids|
  {
    if ids == [] then [] else [prefix + ids[0]] + Prefixed(prefix, ids[1..])
  }

  /** The keys a listing names, pairings first. */
  function Keys(poll: Poll): seq<string>
    requires poll.Listed?
  {
    Prefixed("pair:", poll.pairings) + Prefixed("revoke:", poll.revocations)
  }

  function KeySet(keys: seq<string>): set<string> { set k | k in keys }

  /** The keys not seen before, each at its first position. */
  function Fresh(keys: seq<string>, seen: set<string>): seq<string> {
    if keys == [] then []
    else if keys[0] in seen then Fresh(keys[1..], seen)
    else [keys[0]] + Fresh(keys[1..], seen + {keys[0]})
  }

  function SeenAfter(seen: set<string>, poll: Poll): set<string> {
    if poll.Unreachable? then seen else KeySet(Keys(poll))
  }

  function ShownBy(seen: set<string>, poll: Poll): seq<string> {
    if poll.Unreachable? then [] else Fresh(Keys(poll), seen)
  }

  /** The source's field `seen`, and the notifications shown so far. */
  class Poller {
    const notifier: bool
    var seen: set<string>
    var shown: seq<string>

    constructor (notifier: bool)
      ensures this.notifier == notifier && seen == {} && shown == []
    {
      this.notifier := notifier;
      seen, shown := {}, [];
    }

    method Scan(prefix: string, ids: seq<string>, current: set<string>) returns (current': set<string>)
      modifies this
      ensures current' == current + KeySet(Prefixed(prefix, ids))
      ensures seen == old(seen) + KeySet(Prefixed(prefix, ids))
      ensures shown == old(shown) + if notifier then Fresh(Prefixed(prefix, ids), old(seen)) else []
    {
      hide Fresh, KeySet, Scanned;
      ghost var keys, seen0, shown0 := Prefixed(prefix, ids), seen, shown;
      current' := current;
      NothingScanned(notifier, keys, current, seen, shown);
      for i := 0 to |ids|
        invariant Scanned(notifier, keys, i, current, seen0, shown0, current', seen, shown)
      {
        PrefixedAt(prefix, ids, i);
        OneScanned(notifier, keys, i, current, seen0, shown0, current', seen, shown);
        var key := prefix + ids[i];
        current' := current' + {key};
        if key !in seen {
          seen := seen + {key};
          if notifier {
            shown := shown + [key];
          }
        }
      }
      AllScanned(notifier, keys, current, seen0, shown0, current', seen, shown);
    }

    method Forget(current: set<string>)
      modifies this`seen
      ensures seen == old(seen) * current
    {
      var rest := seen;
      while rest != {}
        invariant rest <= old(seen)
        invariant seen == rest + (old(seen) - rest) * current
        decreases |rest|
      {
        var id :| id in rest;
        rest := rest - {id};
        if id !in current {
          seen := seen - {id};
        }
      }
    }

    method Approvals(poll: Poll)
      modifies this
      ensures seen == SeenAfter(old(seen), poll)
      ensures shown == old(shown) + if notifier then ShownBy(old(seen), poll) else []
    {
      if poll.Unreachable? {
        return;
      }
      hide Fresh, KeySet, Prefixed, Scanned;
      var current := Scan("pair:", poll.pairings, {});
      current := Scan("revoke:", poll.revocations, current);
      FreshAppend(Prefixed("pair:", poll.pairings), Prefixed("revoke:", poll.revocations), old(seen));
      KeysSplit(poll);
      ghost var pairs, revokes := Prefixed("pair:", poll.pairings), Prefixed("revoke:", poll.revocations);
      ListedKept(old(seen), KeySet(pairs), KeySet(revokes));
      BothShown(notifier, old(shown), Fresh(pairs, old(seen)), Fresh(revokes, old(seen) + KeySet(pairs)));
      Forget(current);
    }
  }

  lemma ListedKept(seen: set<string>, a: set<string>, b: set<string>)
    ensures (seen + a + b) * ({} + a + b) == a + b
  {}

  lemma BothShown(notifier: bool, shown: seq<string>, a: seq<string>, b: seq<string>)
    ensures shown + (if notifier then a else []) + (if notifier then b else [])
      == shown + if notifier then a + b else []
  {}

  /** Where a scan stands after `i` of the keys. */
  ghost predicate Scanned(notifier: bool, keys: seq<string>, i: nat, current: set<string>, seen: set<string>,
      shown: seq<string>, current': set<string>, seen': set<string>, shown': seq<string>)
  {
    && i <= |keys| && current' == current + KeySet(keys[..i]) && seen' == seen + KeySet(keys[..i])
    && shown' + (if notifier then Fresh(keys[i..], seen') else []) == shown + if notifier then Fresh(keys, seen) else []
  }

  lemma NothingScanned(notifier: bool, keys: seq<string>, current: set<string>, seen: set<string>, shown: seq<string>)
    ensures Scanned(notifier, keys, 0, current, seen, shown, current, seen, shown)
  {
    assert keys[0..] == keys && KeySet(keys[..0]) == {};
  }

  lemma OneScanned(notifier: bool, keys: seq<string>, i: nat, current: set<string>, seen: set<string>,
      shown: seq<string>, current': set<string>, seen': set<string>, shown': seq<string>)
    requires Scanned(notifier, keys, i, current, seen, shown, current', seen', shown') && i < |keys|
    ensures
      var key := keys[i];
      Scanned(notifier, keys, i + 1, current, seen, shown, current' + {key}, seen' + {key},
              if key in seen' || !notifier then shown' else shown' + [key])
    ensures keys[i] in seen' ==> seen' + {keys[i]} == seen'
  {
    var key := keys[i];
    assert keys[..i + 1] == keys[..i] + [key];
    assert KeySet(keys[..i + 1]) == KeySet(keys[..i]) + {key};
    assert keys[i..][0] == key && keys[i..][1..] == keys[i + 1..];
    if notifier && key !in seen' {
      assert shown' + Fresh(keys[i..], seen') == (shown' + [key]) + Fresh(keys[i + 1..], seen' + {key});
    }
    assert key in seen' ==> seen' + {key} == seen';
  }

  lemma AllScanned(notifier: bool, keys: seq<string>, current: set<string>, seen: set<string>, shown: seq<string>,
                   current': set<string>, seen': set<string>, shown': seq<string>)
    requires Scanned(notifier, keys, |keys|, current, seen, shown, current', seen', shown')
    ensures current' == current + KeySet(keys) && seen' == seen + KeySet(keys)
    ensures shown' == shown + if notifier then Fresh(keys, seen) else []
  {
    assert keys[..|keys|] == keys && keys[|keys|..] == [] && shown' + [] == shown';
  }

  lemma KeysSplit(poll: Poll)
    requires poll.Listed?
    ensures KeySet(Keys(poll)) == KeySet(Prefixed("pair:", poll.pairings))
      + KeySet(Prefixed("revoke:", poll.revocations))
  {}

  lemma PrefixedAt(prefix: string, ids: seq<string>, i: nat)
    requires i < |ids|
    ensures Prefixed(prefix, ids)[i] == prefix + ids[i]
  {
    if i > 0 { PrefixedAt(prefix, ids[1..], i - 1); }
  }

  lemma {:induction false} FreshAppend(a: seq<string>, b: seq<string>, seen: set<string>)
    ensures Fresh(a + b, seen) == Fresh(a, seen) + Fresh(b, seen + KeySet(a))
  {
    if a == [] {
      assert a + b == b && seen + KeySet(a) == seen;
    } else {
      assert (a + b)[1..] == a[1..] + b;
      var next := seen + {a[0]};
      FreshAppend(a[1..], b, if a[0] in seen then seen else next);
      assert seen + KeySet(a) == next + KeySet(a[1..]);
      assert a[0] in seen ==> next == seen;
    }
  }

  // ---------------------------------------------------------------------------
  // Runs of polls
  // ---------------------------------------------------------------------------

  function SeenAfterAll(seen: set<string>, polls: seq<Poll>): set<string>
    decreases |polls|
  {
    if polls == [] then seen else SeenAfterAll(SeenAfter(seen, polls[0]), polls[1..])
  }

  function ShownByAll(seen: set<string>, polls: seq<Poll>): seq<string>
    decreases |polls|
  {
    if polls == [] then [] else ShownBy(seen, polls[0]) + ShownByAll(SeenAfter(seen, polls[0]), polls[1..])
  }

  function Occurrences(s: seq<string>, k: string): nat {
    multiset(s)[k]
  }

  datatype Request = Pairing(id: string) | Revocation(id: string)

  /** What a request is remembered and shown as. */
  function KeyOf(r: Request): string {
    match r
    case Pairing(id) => "pair:" + id
    case Revocation(id) => "revoke:" + id
  }

  predicate Lists(poll: Poll, r: Request)
    requires poll.Listed?
  {
    match r
    case Pairing(id) => id in poll.pairings
    case Revocation(id) => id in poll.revocations
  }

  /** How often `r` goes from absent to listed across the successful polls. */
  function Appearances(r: Request, listed: bool, polls: seq<Poll>): nat
    decreases |polls|
  {
    if polls == [] then 0
    else if polls[0].Unreachable? then Appearances(r, listed, polls[1..])
    else (if Lists(polls[0], r) && !listed then 1 else 0) + Appearances(r, Lists(polls[0], r), polls[1..])
  }

  /** Whether the last successful poll listed `r`. */
  function ListedLast(r: Request, listed: bool, polls: seq<Poll>): bool
    decreases |polls|
  {
    if polls == [] then listed
    else ListedLast(r, if polls[0].Unreachable? then listed else Lists(polls[0], r), polls[1..])
  }

  lemma {:induction false} FreshOnce(keys: seq<string>, seen: set<string>, k: string)
    ensures Occurrences(Fresh(keys, seen), k) == if k in keys && k !in seen then 1 else 0
  {
    if keys != [] {
      var tail := Fresh(keys[1..], seen + {keys[0]});
      FreshOnce(keys[1..], seen, k);
      FreshOnce(keys[1..], seen + {keys[0]}, k);
      assert multiset([keys[0]] + tail) == multiset{keys[0]} + multiset(tail);
      assert keys == [keys[0]] + keys[1..];
    }
  }

  /** The pairing and revocation keys of one id are told apart. */
  lemma KeyKindsDisjoint(p: string, r: string)
    ensures "pair:" + p != "revoke:" + r
  {
    assert ("pair:" + p)[0] == 'p' && ("revoke:" + r)[0] == 'r';
  }

  /** So no two requests share a key. */
  lemma KeyInjective(r: Request, q: Request)
    requires KeyOf(r) == KeyOf(q)
    ensures r == q
  {
    KeyKindsDisjoint(r.id, q.id);
    KeyKindsDisjoint(q.id, r.id);
    var n := if r.Pairing? then 5 else 7;
    assert KeyOf(r)[n..] == r.id && KeyOf(q)[n..] == q.id;
  }

  lemma {:induction false} PrefixedHas(prefix: string, ids: seq<string>, k: string)
    ensures k in Prefixed(prefix, ids) <==> exists i :: 0 <= i < |ids| && k == prefix + ids[i]
  {
    forall i | 0 <= i < |ids| ensures Prefixed(prefix, ids)[i] == prefix + ids[i] {
      PrefixedAt(prefix, ids, i);
    }
  }

  /** A listing names the keys of the requests in it. */
  lemma KeysAre(poll: Poll, r: Request)
    requires poll.Listed?
    ensures KeyOf(r) in Keys(poll) <==> Lists(poll, r)
  {
    hide Prefixed;
    var k := KeyOf(r);
    PrefixedHas("pair:", poll.pairings, k);
    PrefixedHas("revoke:", poll.revocations, k);
    forall id | k == "pair:" + id ensures r == Pairing(id) { KeyInjective(r, Pairing(id)); }
    forall id | k == "revoke:" + id ensures r == Revocation(id) { KeyInjective(r, Revocation(id)); }
  }

  /** Over any run of polls a request is shown once per appearance, and what is remembered
      is what the last successful poll listed. */
  lemma {:induction false} NotifiedOncePerAppearance(seen: set<string>, polls: seq<Poll>, r: Request)
    ensures Occurrences(ShownByAll(seen, polls), KeyOf(r)) == Appearances(r, KeyOf(r) in seen, polls)
    ensures KeyOf(r) in SeenAfterAll(seen, polls) <==> ListedLast(r, KeyOf(r) in seen, polls)
    decreases |polls|
  {
    hide KeyOf, Keys, Lists;
    if polls != [] {
      var next := SeenAfter(seen, polls[0]);
      NotifiedOncePerAppearance(next, polls[1..], r);
      var now, later := ShownBy(seen, polls[0]), ShownByAll(next, polls[1..]);
      assert multiset(now + later) == multiset(now) + multiset(later);
      if polls[0].Listed? {
        KeysAre(polls[0], r);
        FreshOnce(Keys(polls[0]), seen, KeyOf(r));
      }
    }
  }
}
