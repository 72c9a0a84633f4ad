/** Pull and push settle: repeating them does nothing, and push uploads exactly what is new
    (internal/cli/commands_impl.go). */
module SyncConvergence {
  import opened Wrappers
  import opened SyncMachine
  import opened SyncCommands

  // ---------------------------------------------------------------------------
  // Pull
  // ---------------------------------------------------------------------------

  /** The session is here, and the snapshot in the manifest is the one last synced. */
  ghost predicate Settled(d: Device, rs: map<Key, Record>, man: map<Key, Id>, k: Key) {
    k in man && k in d.files && k in rs && rs[k].remoteRev == man[k] && rs[k].localRev.Some?
  }

  function PullAll(l: Locker, d: Device, ks: seq<Key>, inUse: set<Key>): Device {
    DoStartPull(l, d, d.profile, true, ks, inUse)
  }

  function PushAll(l: Locker, d: Device, ks: seq<Key>): Device {
    DoStartPush(l, d, d.profile, true, ks)
  }

  /** A pull --all in progress, between two sessions. */
  ghost predicate PlainPull(d: Device) {
    Listed(d.run) && d.run.pull.all && d.run.pull.stage == Deciding
  }

  /** One session further. */
  ghost predicate PullsOn(l: Locker, d: Device, d': Device)
    requires d.run.Pulling? && d.run.pull.todo != [] && Listed(d.run) && d'.run.Pulling?
  {
    var pull, k, rest := d.run.pull, d.run.pull.todo[0], d.run.pull.Next();
    var id, fork := pull.man[k], Fork("active", k, pull.man[k]);
    && d'.run.profile == d.run.profile && Listed(d'.run)
    && (|| (&& k in pull.locals && k !in pull.forks && k in d.files && UpToDate(pull, k)
            && d' == d.(run := Pulling(d.run.profile, rest)))
        || (&& k in pull.locals && k !in pull.forks && k in d.files && pull.all && !UpToDate(pull, k)
            && (k !in pull.state || pull.state[k].localRev != Some(d.files[k]))
            && d' == d.(run := Pulling(d.run.profile, rest.(conflicts := pull.conflicts + {k}))))
        || (&& k in pull.forks && id in l.snapshots
            && d' == d.(files := if fork in d.files then d.files else d.files[fork := l.snapshots[id].content],
                        run := Pulling(d.run.profile, rest)))
        || (&& k !in pull.forks && !(k in pull.locals && UpToDate(pull, k)) && id in l.snapshots
            && var c := l.snapshots[id].content;
            d' == d.(files := d.files[k := c],
                     run := Pulling(d.run.profile, rest.(state := pull.state[k := Record(Some(c), id)],
                                                         restored := pull.restored + [k])))))
  }

  /** Pull ends, or gets one session further. */
  lemma PullFurther(l: Locker, d: Device, faults: set<Key>) returns (d': Device)
    requires Listed(d.run) && d.run.pull.todo != [] && d.run.pull.stage == Deciding
    ensures
      || (&& PullRun(l, d, faults) == Pulled(Stopped(d), d.run.pull.restored, d.run.pull.conflicts, true)
          && d' == d
          && (d.run.pull.todo[0] !in d.run.pull.locals || d.run.pull.todo[0] in d.run.pull.forks
              || d.run.pull.todo[0] !in d.files || !UpToDate(d.run.pull, d.run.pull.todo[0]))
          && (d.run.pull.todo[0] in d.run.pull.forks ==>
            d.run.pull.todo[0] in faults || d.run.pull.man[d.run.pull.todo[0]] !in l.snapshots))
      || (&& d'.run.Pulling? && PullsOn(l, d, d') && PullRun(l, d, faults) == PullRun(l, d', faults)
          && (d.run.pull.todo[0] in d.run.pull.forks ==> d.run.pull.todo[0] !in faults))
  {
    hide PullRun;
    NextAhead(d.run.profile, d.run.pull);
    var p, pull, k, next := d.run.profile, d.run.pull, d.run.pull.todo[0], d.run.pull.Next();
    PullItem(l, d, faults);
    RestoreItem(l, d.(run := Pulling(p, pull.(stage := Cleared))), faults);
    d' := d;
    if k in pull.locals && k !in pull.forks && k !in d.files {
    } else if k in pull.locals && k !in pull.forks && UpToDate(pull, k) {
      d' := d.(run := Pulling(p, next));
    } else if k in pull.locals && k !in pull.forks
      && (k !in pull.state || pull.state[k].localRev != Some(d.files[k])) {
      if pull.all { d' := d.(run := Pulling(p, next.(conflicts := pull.conflicts + {k}))); }
    } else if k !in faults && pull.man[k] in l.snapshots {
      var c, fork := l.snapshots[pull.man[k]].content, Fork("active", k, pull.man[k]);
      d' := if k in pull.forks then
        d.(files := if fork in d.files then d.files else d.files[fork := c], run := Pulling(p, next))
      else
        d.(files := d.files[k := c],
           run := Pulling(p, next.(state := pull.state[k := Record(Some(c), pull.man[k])],
                                   restored := pull.restored + [k])));
    }
  }

  lemma StillListed(l: Locker, d: Device, d': Device)
    requires Listed(d.run) && d.run.pull.todo != [] && d'.run.Pulling? && PullsOn(l, d, d')
    ensures
      && Listed(d'.run) && d'.run.pull.todo == d.run.pull.todo[1..] && d'.run.pull.stage == Deciding
      && d.run.pull.todo == [d.run.pull.todo[0]] + d'.run.pull.todo
      && d'.run.pull.man == d.run.pull.man && d'.run.pull.forks == d.run.pull.forks
      && d'.run.pull.locals == d.run.pull.locals && d'.run.pull.all == d.run.pull.all
  {
  }

  /** A pull --all that does not fail settles every session it neither forks nor reports. */
  lemma {:induction false} PullSettles(l: Locker, d: Device, faults: set<Key>)
    requires PlainPull(d)
    requires forall k :: k in d.run.pull.man && k !in d.run.pull.forks ==>
      k in d.run.pull.todo || k in d.run.pull.conflicts || Settled(d, d.run.pull.state, d.run.pull.man, k)
    ensures
      var r := PullRun(l, d, faults);
      !r.failed ==> forall k :: k in d.run.pull.man && k !in d.run.pull.forks ==>
        k in r.conflicts || Settled(r.device, r.device.records, d.run.pull.man, k)
    decreases |d.run.pull.todo|
  {
    hide PullRun;
    if d.run.pull.todo == [] {
      PullDone(l, d, faults);
    } else {
      var d' := PullFurther(l, d, faults);
      if d' != d {
        StillListed(l, d, d');
        PullSettles(l, d', faults);
      }
    }
  }

  /** The fork that pull makes of a session in use. */
  predicate ForkOf(f: Key, man: map<Key, Id>, ks: seq<Key>, forks: set<Key>) {
    f.Fork? && f.kind == "active" && f.source in ks && f.source in forks && f.source in man
      && f.snapshot == man[f.source]
  }

  /** `files'` are `files` and forks of those sessions, or all of them. */
  ghost predicate Beside(l: Locker, files: map<Key, Content>, files': map<Key, Content>, man: map<Key, Id>,
      ks: seq<Key>, forks: set<Key>, all: bool) {
    && (forall f :: f in files ==> f in files' && files'[f] == files[f])
    && (forall f :: f in files' && f !in files ==>
      ForkOf(f, man, ks, forks) && f.snapshot in l.snapshots && files'[f] == l.snapshots[f.snapshot].content)
    && (all ==> forall f :: ForkOf(f, man, ks, forks) ==> f in files')
  }

  /** A session that is to be forked meets an error. */
  ghost predicate Hits(l: Locker, man: map<Key, Id>, ks: seq<Key>, forks: set<Key>, faults: set<Key>) {
    exists k :: k in ks && k in forks && (k in faults || (k in man && man[k] !in l.snapshots))
  }

  lemma BesideNext(l: Locker, files: map<Key, Content>, files1: map<Key, Content>, files': map<Key, Content>,
      man: map<Key, Id>, ks: seq<Key>, forks: set<Key>, all: bool)
    requires ks != [] && ks[0] in man && Beside(l, files1, files', man, ks[1..], forks, all)
    requires
      var fork := Fork("active", ks[0], man[ks[0]]);
      if ks[0] in forks then
        && man[ks[0]] in l.snapshots
        && files1 == if fork in files then files else files[fork := l.snapshots[man[ks[0]]].content]
      else files1 == files
    ensures Beside(l, files, files', man, ks, forks, all)
  {
    assert ks == [ks[0]] + ks[1..];
  }

  /** Nothing is left to do for settled sessions, but to fork those in use. */
  lemma {:induction false} PullIdles(l: Locker, d: Device, faults: set<Key>)
    requires PlainPull(d) && d.run.pull.restored == [] && d.run.pull.state == d.records
    requires forall k :: k in d.run.pull.todo ==>
      k in d.run.pull.locals && Settled(d, d.run.pull.state, d.run.pull.man, k)
    ensures
      var pull, r := d.run.pull, PullRun(l, d, faults);
      && r.device == d.(files := r.device.files, run := Idle) && r.restored == [] && r.conflicts == pull.conflicts
      && (r.failed <==> Hits(l, pull.man, pull.todo, pull.forks, faults))
      && Beside(l, d.files, r.device.files, pull.man, pull.todo, pull.forks, !r.failed)
    decreases |d.run.pull.todo|
  {
    hide PullRun, Beside;
    var pull := d.run.pull;
    if pull.todo == [] {
      PullDone(l, d, faults);
      NothingBeside(l, d.files, pull.man, pull.forks, true);
    } else {
      assert pull.todo[0] in pull.todo;
      var d' := PullFurther(l, d, faults);
      if d' == d {
        StillBeside(l, d.files, pull.man, pull.todo, pull.forks);
      } else {
        StillListed(l, d, d');
        assert d.files.Keys <= d'.files.Keys && d'.run.pull.state == pull.state;
        forall k | k in d'.run.pull.todo ensures k in pull.locals && Settled(d', pull.state, pull.man, k) {
          assert k in pull.todo;
        }
        PullIdles(l, d', faults);
        BesideNext(l, d.files, d'.files, PullRun(l, d', faults).device.files, pull.man, pull.todo, pull.forks,
          !PullRun(l, d', faults).failed);
      }
    }
  }

  lemma NothingBeside(l: Locker, files: map<Key, Content>, man: map<Key, Id>, forks: set<Key>, all: bool)
    ensures Beside(l, files, files, man, [], forks, all)
  {}

  lemma StillBeside(l: Locker, files: map<Key, Content>, man: map<Key, Id>, ks: seq<Key>, forks: set<Key>)
    ensures Beside(l, files, files, man, ks, forks, false)
  {}

  /** Pulling sessions that are all settled restores none of them in place, reports none, and
      leaves every file and every record as it is, whichever of them are in use. It fails
      exactly if it cannot fork one of those; and if it does not, it leaves the device as it
      was exactly if each of them already has its fork. */
  lemma SettledPullExactly(l: Locker, d: Device, ks: seq<Key>, inUse: set<Key>, faults: set<Key>)
    requires d.run.Idle? && forall k :: k in ks ==> Settled(d, d.records, l.Manifest(d.profile), k)
    ensures Listed(PullAll(l, d, ks, inUse).run)
    ensures
      var man, r := l.Manifest(d.profile), PullRun(l, PullAll(l, d, ks, inUse), faults);
      && r.restored == [] && r.conflicts == {} && r.device == d.(files := r.device.files)
      && (forall f :: f in d.files ==> f in r.device.files && r.device.files[f] == d.files[f])
      && (r.failed <==> Hits(l, man, ks, inUse, faults))
      && (!r.failed ==>
        (r.device == d <==> forall k :: k in ks && k in inUse ==> Fork("active", k, man[k]) in d.files))
  {
    hide PullRun;
    PullStarts(l, d, d.profile, true, ks, inUse);
    var start := PullAll(l, d, ks, inUse);
    PullIdles(l, start, faults);
    var man, r, forks := l.Manifest(d.profile), PullRun(l, start, faults), start.run.pull.forks;
    assert forall k :: k in ks ==> (k in inUse <==> k in forks);
    if !r.failed { UnchangedExactly(l, d.files, r.device.files, man, ks, forks); }
  }

  lemma UnchangedExactly(l: Locker, files: map<Key, Content>, files': map<Key, Content>, man: map<Key, Id>,
      ks: seq<Key>, forks: set<Key>)
    requires Beside(l, files, files', man, ks, forks, true) && forall k :: k in ks ==> k in man
    ensures files' == files <==> forall k :: k in ks && k in forks ==> Fork("active", k, man[k]) in files
  {
    if forall k :: k in ks && k in forks ==> Fork("active", k, man[k]) in files {
      forall f | f in files' && ForkOf(f, man, ks, forks) ensures f in files {
        assert f == Fork("active", f.source, man[f.source]);
      }
    } else {
      var k :| k in ks && k in forks && Fork("active", k, man[k]) !in files;
      assert ForkOf(Fork("active", k, man[k]), man, ks, forks);
    }
  }

  /** In particular when pulling again what a pull --all has neither forked nor reported,
      whatever the user edited meanwhile. */
  lemma SecondPullExactly(l: Locker, d: Device, all: seq<Key>, inUse: set<Key>, faults: set<Key>,
      d2: Device, ks2: seq<Key>, inUse2: set<Key>, faults2: set<Key>)
    requires d.run.Idle? && forall k :: k in all <==> k in l.Manifest(d.profile)
    requires PullAll(l, d, all, inUse).run.Pulling?
    requires
      var first := PullRun(l, PullAll(l, d, all, inUse), faults);
      && !first.failed && d2.run.Idle? && d2.profile == d.profile && d2.records == first.device.records
      && first.device.files.Keys <= d2.files.Keys
      && forall k :: k in ks2 ==>
        k in l.Manifest(d.profile) && k !in first.conflicts && !(k in inUse && k in d.files)
    ensures Listed(PullAll(l, d2, ks2, inUse2).run)
    ensures
      var man, r := l.Manifest(d.profile), PullRun(l, PullAll(l, d2, ks2, inUse2), faults2);
      && r.restored == [] && r.conflicts == {} && r.device == d2.(files := r.device.files)
      && (forall f :: f in d2.files ==> f in r.device.files && r.device.files[f] == d2.files[f])
      && (r.failed <==> Hits(l, man, ks2, inUse2, faults2))
      && (!r.failed ==>
        (r.device == d2 <==> forall k :: k in ks2 && k in inUse2 ==> Fork("active", k, man[k]) in d2.files))
  {
    hide PullRun, Hits;
    PullStarts(l, d, d.profile, true, all, inUse);
    PullSettles(l, PullAll(l, d, all, inUse), faults);
    SettledPullExactly(l, d2, ks2, inUse2, faults2);
  }

  // ---------------------------------------------------------------------------
  // Push
  // ---------------------------------------------------------------------------

  ghost predicate Distinct(ks: seq<Key>) {
    forall i, j :: 0 <= i < j < |ks| ==> ks[i] != ks[j]
  }

  /** What the manifest of `l` says of `k` is what `man` says. */
  ghost predicate SameHead(l: Locker, p: Profile, man: map<Key, Id>, k: Key) {
    l.Head(p, k) == if k in man then Some(man[k]) else None
  }

  /** The session is exactly what was last synced. */
  ghost predicate Current(d: Device, rs: map<Key, Record>, man: map<Key, Id>, k: Key) {
    k in d.files && k in rs && k in man && rs[k] == Record(Some(d.files[k]), man[k])
  }

  ghost predicate Uploads(d: Device, man: map<Key, Id>, k: Key) {
    !Current(d, d.records, man, k) && Base(d.records, k) == if k in man then Some(man[k]) else None
  }

  ghost predicate Clashes(d: Device, man: map<Key, Id>, k: Key) {
    Base(d.records, k) != if k in man then Some(man[k]) else None
  }

  /** A push --all in progress, between two sessions: the ones ahead are present, and neither
      their heads nor their records have changed since it began. */
  ghost predicate PlainPush(l: Locker, d: Device) {
    && d.run.Pushing? && d.run.push.all && d.run.push.hashed.None? && Distinct(d.run.push.todo)
    && d.run.push.loaded == d.records
    && forall k :: k in d.run.push.todo ==>
      && k in d.files && SameHead(l, d.run.profile, d.run.push.man, k)
      && (k in d.run.push.state <==> k in d.records)
      && (k in d.records ==> d.run.push.state[k] == d.records[k])
  }

  /** What push comes to for `k`: done before, or still ahead. */
  ghost predicate Settles(l: Locker, d: Device, r: Pushed, k: Key)
    requires d.run.Pushing?
  {
    var push := d.run.push;
    && (k in r.uploaded <==> k in push.uploaded || (k in push.todo && Uploads(d, push.man, k)))
    && (k in r.conflicts <==> k in push.conflicts || (k in push.todo && Clashes(d, push.man, k)))
    && (if k in push.todo && Uploads(d, push.man, k) then
          && k in d.files && k in r.device.records && r.locker.Head(d.run.profile, k).Some?
          && r.device.records[k] == Record(Some(d.files[k]), r.locker.Head(d.run.profile, k).value)
        else
          && r.locker.Head(d.run.profile, k) == l.Head(d.run.profile, k)
          && (k in r.device.records <==> k in push.state)
          && (k in push.state ==> r.device.records[k] == push.state[k]))
  }

  lemma DistinctTail(ks: seq<Key>)
    requires Distinct(ks) && ks != []
    ensures Distinct(ks[1..]) && ks[0] !in ks[1..]
    ensures forall k :: k in ks <==> k == ks[0] || k in ks[1..]
  {}

  lemma AdvanceHeads(l: Locker, p: Profile, k: Key, c: Content, j: Key)
    ensures l.Advance(p, k, c).Head(p, j) == if j == k then Some(l.next) else l.Head(p, j)
  {}

  /** One session further. */
  ghost function PushNext(l: Locker, d: Device): (Locker, Device)
    requires PlainPush(l, d) && d.run.push.todo != []
  {
    var push, k, p := d.run.push, d.run.push.todo[0], d.run.profile;
    var rest := push.(todo := push.todo[1..]);
    if Uploads(d, push.man, k) then
      (l.Advance(p, k, d.files[k]),
       d.(run := Pushing(p, rest.(state := push.state[k := Record(Some(d.files[k]), l.next)],
                                 uploaded := push.uploaded + [k]))))
    else if Clashes(d, push.man, k) then
      (l, d.(run := Pushing(p, rest.(conflicts := push.conflicts + {k}))))
    else
      (l, d.(run := Pushing(p, rest)))
  }

  lemma PushNextIs(l: Locker, d: Device)
    requires PlainPush(l, d) && d.run.push.todo != []
    ensures
      var (l', d') := PushNext(l, d);
      d'.run.Pushing? && PushRun(l, d, map[]) == PushRun(l', d', map[])
  {
    hide PushRun, Distinct;
    var k := d.run.push.todo[0];
    assert k in d.run.push.todo;
    PushItem(l, d, map[]);
  }

  lemma PushNextPlain(l: Locker, d: Device)
    requires PlainPush(l, d) && d.run.push.todo != []
    ensures var (l', d') := PushNext(l, d); PlainPush(l', d')
  {
    var (l', d') := PushNext(l, d);
    DistinctTail(d.run.push.todo);
    var k := d.run.push.todo[0];
    forall j | j in d'.run.push.todo ensures SameHead(l', d.run.profile, d.run.push.man, j) {
      assert SameHead(l, d.run.profile, d.run.push.man, j);
      AdvanceHeads(l, d.run.profile, k, d.files[k], j);
    }
  }

  /** How one session further differs, as far as `j` is concerned. */
  ghost predicate Further(l: Locker, d: Device, l': Locker, d': Device, j: Key)
  {
    && d.run.Pushing? && d'.run.Pushing? && d.run.push.todo != []
    && d'.files == d.files && d'.run.profile == d.run.profile && d'.profile == d.profile && d'.records == d.records
    && var push, push', k := d.run.push, d'.run.push, d.run.push.todo[0];
    && var up := Uploads(d, push.man, k);
    && push'.man == push.man && k !in push'.todo && (j in push.todo <==> j == k || j in push'.todo)
    && (k in d.files || !up)
    && (j in push'.uploaded <==> j in push.uploaded || (up && j == k))
    && (j in push'.conflicts <==> j in push.conflicts || (Clashes(d, push.man, k) && j == k))
    && push'.state == (if up then push.state[k := Record(Some(d.files[k]), l.next)] else push.state)
    && l'.Head(d.run.profile, j) == if up && j == k then Some(l.next) else l.Head(d.run.profile, j)
  }

  lemma NextIsFurther(l: Locker, d: Device, j: Key)
    requires PlainPush(l, d) && d.run.push.todo != []
    ensures Further(l, d, PushNext(l, d).0, PushNext(l, d).1, j)
  {
    DistinctTail(d.run.push.todo);
    var k := d.run.push.todo[0];
    AdvanceHeads(l, d.run.profile, k, d.files[k], j);
    BaseStays(d, d, k);
  }

  lemma SettlesEarlier(l: Locker, d: Device, l': Locker, d': Device, r: Pushed, j: Key)
    requires Further(l, d, l', d', j) && Settles(l', d', r, j)
    ensures Settles(l, d, r, j)
  {
    BaseStays(d, d', j);
    hide Current, Uploads, Clashes;
  }

  lemma BaseStays(d: Device, d': Device, j: Key)
    requires d'.records == d.records && d'.files == d.files
    ensures forall man :: (Uploads(d', man, j) <==> Uploads(d, man, j)) && (Clashes(d', man, j) <==> Clashes(d, man, j))
    ensures forall man :: Uploads(d, man, j) ==> !Clashes(d, man, j)
  {}

  lemma {:induction false} PushSettles(l: Locker, d: Device)
    requires d.run.Pushing? && PlainPush(l, d)
    ensures
      var r := PushRun(l, d, map[]);
      && !r.failed && r.device.run.Idle? && r.device.files == d.files && r.device.profile == d.profile
      && forall k :: Settles(l, d, r, k)
    decreases |d.run.push.todo|
  {
    hide PushRun, PlainPush, Settles, Further;
    if d.run.push.todo == [] {
      PushDone(l, d, map[]);
      NothingAhead(l, d, PushRun(l, d, map[]));
    } else {
      PushNextIs(l, d);
      PushNextPlain(l, d);
      var (l', d') := PushNext(l, d);
      PushSettles(l', d');
      forall j ensures Settles(l, d, PushRun(l, d, map[]), j) {
        NextIsFurther(l, d, j);
        SettlesEarlier(l, d, l', d', PushRun(l, d, map[]), j);
      }
    }
  }

  lemma NothingAhead(l: Locker, d: Device, r: Pushed)
    requires d.run.Pushing? && d.run.push.todo == []
    requires r == Pushed(l, d.(records := d.run.push.state, run := Idle), d.run.push.uploaded, d.run.push.conflicts,
      false)
    ensures forall k :: Settles(l, d, r, k)
  {}

  lemma PushStarts(l: Locker, d: Device, ks: seq<Key>)
    requires d.run.Idle? && Distinct(ks) && forall k :: k in ks ==> k in d.files
    ensures PlainPush(l, PushAll(l, d, ks))
  {}

  /** The device never synced the session and the manifest does not list it. */
  ghost predicate NewHere(d: Device, man: map<Key, Id>, k: Key) {
    k !in man && k !in d.records
  }

  /** Edited since it was synced with what the manifest lists. */
  ghost predicate EditedHere(d: Device, man: map<Key, Id>, k: Key) {
    && k in man && k in d.files && k in d.records
    && d.records[k].remoteRev == man[k] && d.records[k].localRev != Some(d.files[k])
  }

  /** The manifest lists another snapshot than the one last synced. */
  ghost predicate MovedOn(d: Device, man: map<Key, Id>, k: Key) {
    k in man && (k !in d.records || d.records[k].remoteRev != man[k])
  }

  /** What a push --all that nothing interferes with uploads, and what it reports: the
      sessions the device never synced and the manifest does not list, those edited since
      they were synced with what the manifest lists; and those whose head is another than
      the one last synced. */
  lemma PushOutcome(l: Locker, d: Device, ks: seq<Key>, k: Key)
    requires d.run.Idle? && Distinct(ks) && forall j :: j in ks ==> j in d.files
    ensures PushAll(l, d, ks).run.Pushing?
    ensures
      var r, man := PushRun(l, PushAll(l, d, ks), map[]), l.Manifest(d.profile);
      && !r.failed
      && (k in r.uploaded <==> k in ks && (NewHere(d, man, k) || EditedHere(d, man, k)))
      && (k in r.conflicts <==> k in ks && (if k in man then MovedOn(d, man, k) else k in d.records))
  {
    hide PushRun;
    var d' := PushAll(l, d, ks);
    PushStarts(l, d, ks);
    PushSettles(l, d');
    assert Settles(l, d', PushRun(l, d', map[]), k);
  }

  /** After a pull --all that forked nothing, failed at nothing and reported no conflict, and
      whatever edits then followed, push --all uploads exactly the sessions that the manifest
      does not list and the device never synced, and those edited since they were synced. */
  lemma PushAfterPull(l: Locker, d: Device, all: seq<Key>, faults: set<Key>, d2: Device, ks: seq<Key>, k: Key)
    requires d.run.Idle? && forall j :: j in all <==> j in l.Manifest(d.profile)
    requires PullAll(l, d, all, {}).run.Pulling?
    requires
      var pulled := PullRun(l, PullAll(l, d, all, {}), faults);
      !pulled.failed && pulled.conflicts == {} && d2.run.Idle? && d2.profile == d.profile
      && d2.records == pulled.device.records
    requires Distinct(ks) && forall j :: j in ks ==> j in d2.files
    ensures PushAll(l, d2, ks).run.Pushing?
    ensures
      var r, man := PushRun(l, PushAll(l, d2, ks), map[]), l.Manifest(d.profile);
      && (k in man ==> k in d2.records)
      && (k in r.uploaded <==>
        k in ks && (NewHere(d2, man, k) || (k in man && d2.records[k].localRev != Some(d2.files[k]))))
      && (k in r.conflicts <==> k in ks && k !in man && k in d2.records)
  {
    hide PushRun, PullRun;
    PullStarts(l, d, d.profile, true, all, {});
    PullSettles(l, PullAll(l, d, all, {}), faults);
    PushOutcome(l, d2, ks, k);
  }

  /** Pushing again what was just pushed without conflict uploads nothing. */
  lemma SecondPushDoesNothing(l: Locker, d: Device, ks: seq<Key>)
    requires d.run.Idle? && Distinct(ks) && forall j :: j in ks ==> j in d.files
    requires PushAll(l, d, ks).run.Pushing?
    requires PushRun(l, PushAll(l, d, ks), map[]).conflicts == {}
    ensures
      var first := PushRun(l, PushAll(l, d, ks), map[]);
      PushAll(first.locker, first.device, ks).run.Pushing? &&
      var second := PushRun(first.locker, PushAll(first.locker, first.device, ks), map[]);
      !second.failed && second.uploaded == [] && second.conflicts == {}
  {
    hide PushRun;
    var d' := PushAll(l, d, ks);
    PushStarts(l, d, ks);
    PushSettles(l, d');
    var first := PushRun(l, d', map[]);
    PushStarts(first.locker, first.device, ks);
    var second := PushRun(first.locker, PushAll(first.locker, first.device, ks), map[]);
    PushSettles(first.locker, PushAll(first.locker, first.device, ks));
    assert second.uploaded == [] || second.uploaded[0] in second.uploaded;
    forall k ensures k !in second.uploaded && k !in second.conflicts {
      PushOutcome(first.locker, first.device, ks, k);
      assert Settles(l, d', first, k);
    }
  }

  // ---------------------------------------------------------------------------
  // Commands that fail half way
  // ---------------------------------------------------------------------------

  /** The sessions pull has restored so far are in its state. */
  ghost predicate Recorded(rs: map<Key, Record>, man: map<Key, Id>, ks: seq<Key>) {
    forall k :: k in ks ==> k in man && k in rs && rs[k].remoteRev == man[k] && rs[k].localRev.Some?
  }

  /** Whether or not pull gets to its end, what it restored is on record afterwards, so the
      next pull does not take it for a divergence. */
  lemma {:induction false} PullKeepsProgress(l: Locker, d: Device, faults: set<Key>)
    requires Listed(d.run) && d.run.pull.stage == Deciding
      && Recorded(d.run.pull.state, d.run.pull.man, d.run.pull.restored)
    ensures Recorded(PullRun(l, d, faults).device.records, d.run.pull.man, PullRun(l, d, faults).restored)
    decreases |d.run.pull.todo|
  {
    hide PullRun;
    if d.run.pull.todo == [] {
      PullDone(l, d, faults);
    } else {
      var d' := PullFurther(l, d, faults);
      if d' != d {
        StillListed(l, d, d');
        PullKeepsProgress(l, d', faults);
      }
    }
  }

  /** A push that fails saves nothing of what it uploaded. */
  lemma {:induction false} FailedPushRecordsNothing(l: Locker, d: Device, faults: map<Key, bool>)
    requires d.run.Pushing? && d.run.push.hashed.None?
    ensures
      var r := PushRun(l, d, faults);
      r.failed ==> r.device == d.(run := Idle)
    decreases |d.run.push.todo|
  {
    hide PushRun;
    var p, push := d.run.profile, d.run.push;
    if push.todo == [] {
      PushDone(l, d, faults);
    } else {
      var k, rest := push.todo[0], push.(todo := push.todo[1..]);
      PushItem(l, d, faults);
      if k in d.files && Unchanged(d, push, k) {
        FailedPushRecordsNothing(l, d.(run := Pushing(p, rest)), faults);
      } else if k in d.files && k !in faults && l.Head(p, k) == Base(push.loaded, k) {
        FailedPushRecordsNothing(l.Advance(p, k, d.files[k]),
          d.(run := Pushing(p, rest.(state := push.state[k := Record(Some(d.files[k]), l.next)],
            uploaded := push.uploaded + [k]))), faults);
      } else if k in d.files && k !in faults && push.all {
        FailedPushRecordsNothing(l, d.(run := Pushing(p, rest.(conflicts := push.conflicts + {k}))), faults);
      }
    }
  }

  /** So a session that such a push had uploaded is reported by the next push as having
      diverged, and its head stays as it is, until the conflict is resolved. */
  lemma LostRecordConflicts(l: Locker, d: Device, k: Key, orphan: bool)
    requires d.run.Idle? && k in d.files && Base(d.records, k) != Some(l.next)
    requires l.Head(d.profile, k) == Base(d.records, k)
    ensures
      var l1 := l.Advance(d.profile, k, d.files[k]);
      var (l2, d2) := DoPushUpload(l1, DoPushHash(PushAll(l1, d, [k])), orphan);
      d2.run.Pushing? && d2.run.push.conflicts == {k} && l2.Head(d.profile, k) == Some(l.next)
  {}

  // ---------------------------------------------------------------------------
  // Resolving conflicts
  // ---------------------------------------------------------------------------

  /** Keep-local puts the local version on top of the head, whatever that is, and leaves the
      session as just synced. */
  lemma KeepLocalSettles(l: Locker, d: Device, k: Key)
    requires d.run.Idle? && k in d.files
    ensures
      var (l', d1) := DoKeepLocalPush(l, DoExport(d, d.profile, k));
      var d' := DoSaveLoaded(d1);
      && l'.Head(d.profile, k) == Some(l.next)
      && l'.snapshots == l.snapshots[l.next := Snapshot(d.profile, k, d.files[k], l.Head(d.profile, k))]
      && d'.files == d.files && d'.run.Idle?
      && Current(d', d'.records, l'.Manifest(d.profile), k)
      && forall j :: j != k ==>
        l'.Head(d.profile, j) == l.Head(d.profile, j) && Base(d'.records, j) == Base(d.records, j)
  {}

  /** Keep-remote leaves the session as just synced with the head, and touches no other. */
  lemma KeepRemoteSettles(l: Locker, d: Device, k: Key)
    requires d.run.Idle? && k in l.Manifest(d.profile) && l.Manifest(d.profile)[k] in l.snapshots
    ensures
      var d' := DoSaveLoaded(DoKeepRemoteRecord(DoKeepRemoteRestore(l, d, d.profile, k, false)));
      && Current(d', d'.records, l.Manifest(d.profile), k)
      && d'.files == d.files[k := l.snapshots[l.Manifest(d.profile)[k]].content]
      && d'.records - {k} == d.records - {k}
  {}

  /** Keep-both leaves the session, its record and so its conflict alone, and puts the head
      beside it. */
  lemma KeepBothForks(l: Locker, d: Device, k: Key)
    requires d.run.Idle? && k in l.Manifest(d.profile) && l.Manifest(d.profile)[k] in l.snapshots
    ensures
      var id := l.Manifest(d.profile)[k];
      var fork := Fork("remote", k, id);
      var d' := DoSaveLoaded(DoKeepRemoteRecord(DoKeepRemoteRestore(l, d, d.profile, k, true)));
      && fork != k
      && d'.files == d.files[fork := l.snapshots[id].content]
      && d'.records == d.records[fork := Record(Some(l.snapshots[id].content), id)]
  {}

  // ---------------------------------------------------------------------------
  // The first push
  // ---------------------------------------------------------------------------

  /** Verifying after a first push, undisturbed, leaves the home as the push does. The push has
      saved its records by then, and the command keeps the lock until it has saved them again. */
  lemma VerifyingChangesNothing(l: Locker, d: Device)
    requires d.run.Pushing? && d.run.push.todo == []
    ensures
      var state, saved, loaded := d.run.push.state, DoPushFinish(d, true), DoVerifyLoad(DoPushFinish(d, true));
      saved.records == loaded.records == state && !saved.run.Idle? && loaded.run == Saving(d.run.profile, state)
    ensures
      DoAll(l, d, [PushFinish(true), VerifyLoad, SaveLoaded]) == DoAll(l, d, [PushFinish(false)])
      == (l, d.(records := d.run.push.state, run := Idle))
  {
    var d1 := DoPushFinish(d, true);
    var d2 := DoVerifyLoad(d1);
    var actions := [PushFinish(true), VerifyLoad, SaveLoaded];
    assert actions[1..] == [VerifyLoad, SaveLoaded] && actions[1..][1..] == [SaveLoaded];
    assert DoAll(l, d2, actions[1..][1..]) == (l, DoSaveLoaded(d2));
    assert DoAll(l, d1, actions[1..]) == DoAll(l, d2, actions[1..][1..]);
    assert DoAll(l, d, [PushFinish(false)]) == (l, DoPushFinish(d, false));
  }

  /** A command that dies leaves files and records as they are, and the lock to the next. */
  lemma CrashFreesTheLock(l: Locker, d: Device, cmd: nat)
    requires cmd in d.waiting
    ensures
      var (l', d') := Do(l, d, Crash);
      l' == l && d'.files == d.files && d'.records == d.records && Free(d', cmd)
  {}

  // ---------------------------------------------------------------------------
  // The commands are runs of the machine
  // ---------------------------------------------------------------------------

  lemma {:induction false} PushRunsTheMachine(l: Locker, d: Device, faults: map<Key, bool>)
      returns (actions: seq<Action>)
    requires d.run.Pushing?
    ensures DoAll(l, d, actions) == (PushRun(l, d, faults).locker, PushRun(l, d, faults).device)
    decreases ToPush(d.run.push)
  {
    hide DoPushHash, DoPushFail, DoPushUpload, DoPushFinish, ToPush;
    var push := d.run.push;
    var a :=
      if push.todo == [] then PushFinish(false)
      else if push.hashed.None? then PushHash
      else if push.todo[0] in faults then PushFail(faults[push.todo[0]])
      else PushUpload(false);
    var (l', d') := Do(l, d, a);
    actions := [];
    if push.todo != [] && d'.run.Pushing? {
      PushStepAhead(l, d, faults);
      actions := PushRunsTheMachine(l', d', faults);
    }
    assert ([a] + actions)[1..] == actions;
    actions := [a] + actions;
  }

  lemma {:induction false} PullRunsTheMachine(l: Locker, d: Device, faults: set<Key>) returns (actions: seq<Action>)
    requires Listed(d.run)
    ensures DoAll(l, d, actions) == (l, PullRun(l, d, faults).device)
    decreases Ahead(d.run.pull)
  {
    hide DoPullDecide, DoPullRestore, DoPullRecord, DoPullFail, DoPullFinish;
    var pull := d.run.pull;
    var a :=
      if pull.todo == [] then PullFinish
      else match pull.stage
        case Deciding => PullDecide
        case Cleared => if pull.todo[0] in faults then PullFail else PullRestore
        case Placed => PullRecord;
    actions := [];
    var d' := Do(l, d, a).1;
    if pull.todo != [] && d'.run.Pulling? {
      StepAhead(l, d, faults);
      actions := PullRunsTheMachine(l, d', faults);
    }
    assert ([a] + actions)[1..] == actions;
    actions := [a] + actions;
  }
}
