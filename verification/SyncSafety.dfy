/** No edit is lost, over every interleaving of every device's steps, but under a command that
    was looking at it. */
module SyncSafety {
  import opened Wrappers
  import opened SyncMachine

  // ---------------------------------------------------------------------------
  // What happened to a device's sessions
  // ---------------------------------------------------------------------------

  /** Histories the program does not keep. `edits` is the newest content the user gave each
      session, and `lost` the sessions whose newest content was overwritten by a restore that
      went wrong; `touched` says that the file a command has looked at changed since, and
      `created` are the sessions edited since pull listed the local ones. A record is tainted
      if it was last written when the file had been touched. `profiles` are those the
      configuration has named. */
  datatype History = History(
    edits: map<Key, Content>, lost: set<Key>, touched: bool, created: set<Key>,
    tainted: set<(Key, Record)>, profiles: set<Profile>)

  /** A command has looked at `k`'s file, or put it there, and will act on what it knows. */
  predicate Watched(d: Device, k: Key) {
    match d.run
    case Pushing(_, push) => push.todo != [] && k == push.todo[0] && push.hashed.Some?
    case Pulling(_, pull) => pull.todo != [] && k == pull.todo[0] && k !in pull.forks && pull.stage != Deciding
    case KeepLocal(_, key, _) => k == key
    case KeepRemote(_, target, _) => k == target
    case _ => false
  }

  function Mark(tainted: set<(Key, Record)>, k: Key, r: Record, touched: bool): set<(Key, Record)> {
    if touched then tainted + {(k, r)} else tainted - {(k, r)}
  }

  predicate Uploads(l: Locker, d: Device) {
    && d.run.Pushing? && d.run.push.todo != [] && d.run.push.hashed.Some? && d.run.push.todo[0] in d.files
    && l.Head(d.run.profile, d.run.push.todo[0]) == Base(d.run.push.loaded, d.run.push.todo[0])
  }

  /** Pull is about to restore the session it is at over the local file. */
  predicate Restores(l: Locker, d: Device) {
    && d.run.Pulling? && d.run.pull.todo != [] && d.run.pull.stage == Cleared
    && d.run.pull.todo[0] in d.run.pull.man && d.run.pull.man[d.run.pull.todo[0]] in l.snapshots
    && d.run.pull.todo[0] !in d.run.pull.forks
  }

  /** That restore goes wrong: the file is not the one pull looked at, or the record pull
      compared it with was written when the file was not the one that was synced. */
  predicate Unguarded(l: Locker, d: Device, h: History)
    requires Restores(l, d)
  {
    var k, state := d.run.pull.todo[0], d.run.pull.state;
    k in d.files && (h.touched || (k in d.run.pull.locals && k in state && (k, state[k]) in h.tainted))
  }

  predicate Records(d: Device) {
    && d.run.Pulling? && d.run.pull.todo != [] && d.run.pull.stage == Placed
    && d.run.pull.todo[0] in d.files && d.run.pull.todo[0] in d.run.pull.man
  }

  predicate RestoresHead(l: Locker, d: Device, cmd: nat, k: Key) {
    && Free(d, cmd) && k in l.Manifest(d.waiting[cmd]) && l.Manifest(d.waiting[cmd])[k] in l.snapshots
  }

  /** Keep-both is about to overwrite a fork that is no longer what it was forked from. */
  predicate OverwritesFork(l: Locker, d: Device, cmd: nat, k: Key)
    requires RestoresHead(l, d, cmd, k)
  {
    var id := l.Manifest(d.waiting[cmd])[k];
    var fork := Fork("remote", k, id);
    fork in d.files && d.files[fork] != l.snapshots[id].content
  }

  function Track(l: Locker, d: Device, h: History, a: Action): History {
    match a
    case Edit(k, c) =>
      h.(edits := h.edits[k := c], lost := h.lost - {k}, touched := h.touched || Watched(d, k),
        created := h.created + {k})
    case Delete(k) => h.(edits := h.edits - {k}, lost := h.lost - {k})
    case InitConfig(init) => h.(profiles := h.profiles + {DoInitConfig(d, init).profile})
    case StartPush(cmd, _, _) => if Free(d, cmd) then h.(touched := false) else h
    case PushHash => if d.run.Pushing? && d.run.push.hashed.None? then h.(touched := false) else h
    case PushUpload(_) =>
      if !Uploads(l, d) then h
      else h.(tainted := Mark(h.tainted, d.run.push.todo[0], Record(d.run.push.hashed, l.next), h.touched))
    case StartPull(cmd, _, _, _) => if Free(d, cmd) then h.(created := {}, touched := false) else h
    case PullDecide =>
      if d.run.Pulling? && d.run.pull.todo != [] && d.run.pull.stage == Deciding then
        h.(touched := d.run.pull.todo[0] !in d.run.pull.locals && d.run.pull.todo[0] in h.created)
      else h
    case PullRestore =>
      if !Restores(l, d) then h
      else h.(touched := false, lost := if Unguarded(l, d, h) then h.lost + {d.run.pull.todo[0]} else h.lost)
    case PullRecord =>
      if !Records(d) then h
      else
        var k := d.run.pull.todo[0];
        h.(tainted := Mark(h.tainted, k, Record(Some(d.files[k]), d.run.pull.man[k]), h.touched))
    case Export(cmd, _) => if Free(d, cmd) then h.(touched := false) else h
    case KeepLocalPush =>
      if !d.run.KeepLocal? || d.run.key !in d.files then h
      else h.(tainted := Mark(h.tainted, d.run.key, Record(Some(d.files[d.run.key]), l.next), h.touched))
    case KeepRemoteRestore(cmd, k, both) =>
      if !RestoresHead(l, d, cmd, k) then h
      else if !both then h.(touched := false, edits := h.edits - {k}, lost := h.lost - {k})
      else
        h.(touched := false,
           lost := if OverwritesFork(l, d, cmd, k) then h.lost + {Fork("remote", k, l.Manifest(d.waiting[cmd])[k])}
           else h.lost)
    case KeepRemoteRecord =>
      if !d.run.KeepRemote? || d.run.target !in d.files then h
      else h.(tainted := Mark(h.tainted, d.run.target, Record(Some(d.files[d.run.target]), d.run.id), h.touched))
    case _ => h
  }

  /** The history of device `name` over a run. */
  function HistoryOf(w: World, events: seq<Event>, name: string): History
    requires name in w.devices
    decreases |events|
  {
    if events == [] then History(map[], {}, false, {}, {}, {w.devices[name].profile})
    else
      var before, e := events[..|events| - 1], events[|events| - 1];
      var h, at := HistoryOf(w, before, name), After(w, before);
      if e.device == name && name in at.devices then Track(at.locker, at.devices[name], h, e.action) else h
  }

  // ---------------------------------------------------------------------------
  // The invariant
  // ---------------------------------------------------------------------------

  /** `s`, under `id`, is a snapshot of session `k`, or the one `k` was forked from. */
  ghost predicate Belongs(k: Key, id: Id, s: Snapshot) {
    s.key == k || (k.Fork? && k.source == s.key && k.snapshot == id)
  }

  /** Some snapshot of that session, in a locker the device has synced with, holds `c`. */
  ghost predicate Saved(l: Locker, profiles: set<Profile>, k: Key, c: Content) {
    exists id :: id in l.snapshots && SavedAs(l.snapshots[id], id, profiles, k, c)
  }

  ghost predicate SavedAs(s: Snapshot, id: Id, profiles: set<Profile>, k: Key, c: Content) {
    s.content == c && s.profile in profiles && Belongs(k, id, s)
  }

  ghost predicate Extends(l: Locker, l': Locker) {
    l.snapshots.Keys <= l'.snapshots.Keys && forall id :: id in l.snapshots ==> l'.snapshots[id] == l.snapshots[id]
  }

  /** A manifest names snapshots of its own profile and sessions. */
  ghost predicate ManifestOk(l: Locker, p: Profile, man: map<Key, Id>) {
    forall k :: k in man ==>
      man[k] in l.snapshots && l.snapshots[man[k]].profile == p && l.snapshots[man[k]].key == k
  }

  ghost predicate LockerOk(l: Locker) {
    && (forall p :: ManifestOk(l, p, l.Manifest(p)))
    && (forall id :: id in l.snapshots ==> id < l.next)
  }

  /** A record of `k` names a snapshot of `k`, or the one `k` was forked from, in a locker the
      device has synced with. */
  ghost predicate Known(l: Locker, profiles: set<Profile>, k: Key, r: Record) {
    r.remoteRev in l.snapshots && l.snapshots[r.remoteRev].profile in profiles
      && Belongs(k, r.remoteRev, l.snapshots[r.remoteRev])
  }

  /** The local revision it recorded is the content of that snapshot. */
  ghost predicate Faithful(l: Locker, r: Record) {
    r.localRev.Some? ==> r.remoteRev in l.snapshots && l.snapshots[r.remoteRev].content == r.localRev.value
  }

  ghost predicate RecordsOk(l: Locker, profiles: set<Profile>, tainted: set<(Key, Record)>, rs: map<Key, Record>) {
    forall k :: k in rs ==> Known(l, profiles, k, rs[k]) && ((k, rs[k]) !in tainted ==> Faithful(l, rs[k]))
  }

  ghost predicate PushOk(l: Locker, d: Device, h: History, push: Push) {
    && RecordsOk(l, h.profiles, h.tainted, push.state)
    && (push.hashed.Some? && push.todo != [] && !h.touched && push.todo[0] in d.files ==>
      d.files[push.todo[0]] == push.hashed.value)
  }

  /** Pull found the local file to be what it has on record, if it compared them. */
  ghost predicate Compared(pull: Pull) {
    pull.todo != [] && pull.stage == Cleared && pull.todo[0] in pull.locals && pull.todo[0] !in pull.forks ==>
      pull.todo[0] in pull.state && pull.state[pull.todo[0]].localRev.Some?
  }

  /** What pull knows of the file of the session it is at, unless that was touched. */
  ghost predicate AtOk(l: Locker, d: Device, h: History, pull: Pull) {
    pull.todo != [] && pull.todo[0] !in pull.forks && pull.todo[0] in d.files && !h.touched ==>
      var k, c := pull.todo[0], d.files[pull.todo[0]];
      && (pull.stage == Cleared && k in pull.locals ==> k in pull.state && pull.state[k].localRev == Some(c))
      && (pull.stage == Cleared && k !in pull.locals ==> Saved(l, h.profiles, k, c))
      && (pull.stage == Placed && k in pull.man && pull.man[k] in l.snapshots ==> c == l.snapshots[pull.man[k]].content)
  }

  /** A file that was not there when pull began was put there by this pull, or by the user. */
  ghost predicate AheadOk(l: Locker, d: Device, h: History, pull: Pull, k: Key) {
    k !in pull.locals && k !in h.created && k in d.files ==> Saved(l, h.profiles, k, d.files[k])
  }

  ghost predicate PullOk(l: Locker, d: Device, h: History, p: Profile, pull: Pull) {
    && RecordsOk(l, h.profiles, h.tainted, pull.state) && ManifestOk(l, p, pull.man)
    && (pull.todo != [] && pull.stage == Placed ==> pull.todo[0] !in pull.forks)
    && (forall k :: k in pull.todo ==> k in pull.man)
    && Compared(pull) && AtOk(l, d, h, pull)
    && forall k :: AheadOk(l, d, h, pull, k)
  }

  ghost predicate RunOk(l: Locker, d: Device, h: History) {
    match d.run
    case Idle => true
    case Pushing(p, push) => p in h.profiles && PushOk(l, d, h, push)
    case Verifying(p) => p in h.profiles
    case Pulling(p, pull) => p in h.profiles && PullOk(l, d, h, p, pull)
    case KeepLocal(p, k, exported) => p in h.profiles && (!h.touched && k in d.files ==> d.files[k] == exported)
    case KeepRemote(p, k, id) =>
      && p in h.profiles && Known(l, h.profiles, k, Record(None, id))
      && (!h.touched && k in d.files ==> d.files[k] == l.snapshots[id].content)
    case Saving(p, state) => p in h.profiles && RecordsOk(l, h.profiles, h.tainted, state)
  }

  /** What the other commands and re-initializations under way hold. */
  ghost predicate OthersOk(l: Locker, d: Device, h: History) {
    && (forall cmd :: cmd in d.waiting ==> d.waiting[cmd] in h.profiles)
    && (forall i :: i in d.inits && !d.inits[i].Begun? ==>
      RecordsOk(l, h.profiles, h.tainted, d.inits[i].records))
  }

  /** The newest content the user gave `k` is in its file or in a snapshot of it. */
  ghost predicate Kept(l: Locker, d: Device, h: History, k: Key) {
    k in h.edits ==> (k in d.files && d.files[k] == h.edits[k]) || Saved(l, h.profiles, k, h.edits[k])
  }

  ghost predicate EditsOk(l: Locker, d: Device, h: History) {
    forall k :: k !in h.lost ==> Kept(l, d, h, k)
  }

  ghost predicate DeviceOk(l: Locker, d: Device, h: History) {
    && d.profile in h.profiles && RecordsOk(l, h.profiles, h.tainted, d.records)
    && RunOk(l, d, h) && OthersOk(l, d, h) && EditsOk(l, d, h)
  }

  // ---------------------------------------------------------------------------
  // The locker
  // ---------------------------------------------------------------------------

  lemma UploadKeeps(l: Locker, p: Profile, k: Key, c: Content)
    requires LockerOk(l)
    ensures LockerOk(l.Upload(p, k, c)) && Extends(l, l.Upload(p, k, c))
  {
    var l' := l.Upload(p, k, c);
    forall q ensures ManifestOk(l', q, l'.Manifest(q)) {
      assert ManifestOk(l, q, l.Manifest(q));
    }
  }

  lemma AdvanceKeeps(l: Locker, p: Profile, k: Key, c: Content)
    requires LockerOk(l)
    ensures LockerOk(l.Advance(p, k, c)) && Extends(l, l.Advance(p, k, c))
    ensures
      var l' := l.Advance(p, k, c);
      l'.snapshots[l.next] == Snapshot(p, k, c, l.Head(p, k))
  {
    UploadKeeps(l, p, k, c);
    var l' := l.Advance(p, k, c);
    forall q ensures ManifestOk(l', q, l'.Manifest(q)) {
      assert ManifestOk(l.Upload(p, k, c), q, l.Manifest(q));
    }
  }

  /** Whatever a device does, snapshots stay as they are. */
  lemma LockerKeeps(l: Locker, d: Device, a: Action)
    requires LockerOk(l)
    ensures LockerOk(Do(l, d, a).0) && Extends(l, Do(l, d, a).0)
  {
    hide LockerOk;
    match a
    case PushUpload(orphan) => PushLockerKeeps(l, d);
    case PushFail(advanced) => PushLockerKeeps(l, d);
    case KeepLocalPush =>
      if d.run.KeepLocal? { AdvanceKeeps(l, d.run.profile, d.run.key, d.run.exported); }
    case _ =>
  }

  lemma PushLockerKeeps(l: Locker, d: Device)
    requires LockerOk(l)
    ensures d.run.Pushing? && d.run.push.todo != [] && d.run.push.todo[0] in d.files ==>
      var p, k := d.run.profile, d.run.push.todo[0];
      && LockerOk(l.Upload(p, k, d.files[k])) && Extends(l, l.Upload(p, k, d.files[k]))
      && LockerOk(l.Advance(p, k, d.files[k])) && Extends(l, l.Advance(p, k, d.files[k]))
  {
    if d.run.Pushing? && d.run.push.todo != [] && d.run.push.todo[0] in d.files {
      UploadKeeps(l, d.run.profile, d.run.push.todo[0], d.files[d.run.push.todo[0]]);
      AdvanceKeeps(l, d.run.profile, d.run.push.todo[0], d.files[d.run.push.todo[0]]);
    }
  }

  lemma SavedStays(l: Locker, l': Locker, profiles: set<Profile>, profiles': set<Profile>, k: Key, c: Content)
    requires Extends(l, l') && Saved(l, profiles, k, c) && profiles <= profiles'
    ensures Saved(l', profiles', k, c)
  {
    var id :| id in l.snapshots && SavedAs(l.snapshots[id], id, profiles, k, c);
    assert SavedAs(l'.snapshots[id], id, profiles', k, c);
  }

  lemma RecordsStay(l: Locker, l': Locker, profiles: set<Profile>, profiles': set<Profile>,
      tainted: set<(Key, Record)>, rs: map<Key, Record>)
    requires Extends(l, l') && RecordsOk(l, profiles, tainted, rs) && profiles <= profiles'
    ensures RecordsOk(l', profiles', tainted, rs)
  {
    forall k | k in rs ensures Known(l', profiles', k, rs[k]) && ((k, rs[k]) !in tainted ==> Faithful(l', rs[k])) {
      assert Known(l, profiles, k, rs[k]);
    }
  }

  /** What one device relies on survives whatever other devices upload, and a change of the
      configuration. */
  lemma OthersUnharmed(l: Locker, l': Locker, d: Device, h: History, profiles: set<Profile>)
    requires Extends(l, l') && DeviceOk(l, d, h) && h.profiles <= profiles
    ensures DeviceOk(l', d, h.(profiles := profiles))
  {
    hide Known, Faithful, SavedAs, Saved, RecordsOk, RunOk;
    var h' := h.(profiles := profiles);
    forall k, c | Saved(l, h.profiles, k, c) ensures Saved(l', profiles, k, c) {
      SavedStays(l, l', h.profiles, profiles, k, c);
    }
    forall rs | RecordsOk(l, h.profiles, h.tainted, rs) ensures RecordsOk(l', profiles, h.tainted, rs) {
      RecordsStay(l, l', h.profiles, profiles, h.tainted, rs);
    }
    RunStays(l, l', d, h, profiles);
    forall k | k !in h.lost ensures Kept(l', d, h', k) {
      assert Kept(l, d, h, k);
    }
  }

  lemma RunStays(l: Locker, l': Locker, d: Device, h: History, profiles: set<Profile>)
    requires Extends(l, l') && RunOk(l, d, h) && h.profiles <= profiles
    requires forall k, c :: Saved(l, h.profiles, k, c) ==> Saved(l', profiles, k, c)
    requires forall rs :: RecordsOk(l, h.profiles, h.tainted, rs) ==> RecordsOk(l', profiles, h.tainted, rs)
    ensures RunOk(l', d, h.(profiles := profiles))
  {
    hide Saved, RecordsOk;
    if d.run.Pulling? {
      forall k ensures AheadOk(l', d, h.(profiles := profiles), d.run.pull, k) {
        assert AheadOk(l, d, h, d.run.pull, k);
      }
    }
  }

  // ---------------------------------------------------------------------------
  // Every step keeps the invariant
  // ---------------------------------------------------------------------------

  /** A step that touches neither files nor edits. */
  lemma SameFiles(l: Locker, d: Device, h: History, d': Device, h': History)
    requires EditsOk(l, d, h)
    requires d'.files == d.files && h'.edits == h.edits && h'.lost == h.lost && h.profiles <= h'.profiles
    ensures EditsOk(l, d', h')
  {
    hide SavedAs;
    forall j | j !in h'.lost ensures Kept(l, d', h', j) {
      assert Kept(l, d, h, j);
      if j in h.edits && Saved(l, h.profiles, j, h.edits[j]) {
        SavedStays(l, l, h.profiles, h'.profiles, j, h.edits[j]);
      }
    }
  }

  /** Nor what others hold, but for a command that has got the lock. */
  lemma SameOthers(l: Locker, d: Device, h: History, d': Device, h': History)
    requires OthersOk(l, d, h) && d'.inits == d.inits && h'.tainted == h.tainted && h'.profiles == h.profiles
    requires d'.waiting == d.waiting || exists cmd :: d'.waiting == d.waiting - {cmd}
    ensures OthersOk(l, d', h')
  {}

  lemma WaitingKnown(l: Locker, d: Device, h: History, cmd: nat)
    requires OthersOk(l, d, h) && cmd in d.waiting
    ensures d.waiting[cmd] in h.profiles
  {}

  /** Overwriting a file loses no edit if what it held is saved. */
  lemma Overwritten(l: Locker, d: Device, h: History, k: Key, c: Content, d': Device, h': History)
    requires EditsOk(l, d, h) && d'.files == d.files[k := c] && h'.profiles == h.profiles
    requires h'.edits == h.edits || h'.edits == h.edits - {k}
    requires h.lost - {k} <= h'.lost && (k in h'.edits ==> h.lost <= h'.lost)
    requires k in d.files && k in h'.edits && k !in h'.lost ==> Saved(l, h.profiles, k, d.files[k])
    ensures EditsOk(l, d', h')
  {
    hide Saved;
    forall j | j !in h'.lost ensures Kept(l, d', h', j) {
      if j != k || k in h'.edits { assert Kept(l, d, h, j); }
    }
  }

  lemma RecordsMarked(l: Locker, profiles: set<Profile>, tainted: set<(Key, Record)>, rs: map<Key, Record>,
      k: Key, r: Record, touched: bool)
    requires RecordsOk(l, profiles, tainted, rs) && (!touched ==> Faithful(l, r))
    ensures RecordsOk(l, profiles, Mark(tainted, k, r, touched), rs)
    ensures Known(l, profiles, k, r) ==> RecordsOk(l, profiles, Mark(tainted, k, r, touched), rs[k := r])
  {}

  lemma OthersMarked(l: Locker, d: Device, h: History, k: Key, r: Record)
    requires OthersOk(l, d, h) && (!h.touched ==> Faithful(l, r))
    ensures OthersOk(l, d, h.(tainted := Mark(h.tainted, k, r, h.touched)))
  {
    hide RecordsOk;
    forall i | i in d.inits && !d.inits[i].Begun?
      ensures RecordsOk(l, h.profiles, Mark(h.tainted, k, r, h.touched), d.inits[i].records)
    {
      RecordsMarked(l, h.profiles, h.tainted, d.inits[i].records, k, r, h.touched);
    }
  }

  /** A record is written: what is tainted changes, and nothing else a device relies on. */
  lemma Marked(l: Locker, d: Device, h: History, k: Key, r: Record)
    requires DeviceOk(l, d, h) && (!h.touched ==> Faithful(l, r))
    ensures DeviceOk(l, d, h.(tainted := Mark(h.tainted, k, r, h.touched)))
  {
    hide OthersOk, Known, Faithful, Saved, RecordsOk, ManifestOk, EditsOk;
    var h' := h.(tainted := Mark(h.tainted, k, r, h.touched));
    forall rs | RecordsOk(l, h.profiles, h.tainted, rs) ensures RecordsOk(l, h.profiles, h'.tainted, rs) {
      RecordsMarked(l, h.profiles, h.tainted, rs, k, r, h.touched);
    }
    SameFiles(l, d, h, d, h');
    assert OthersOk(l, d, h') by { OthersMarked(l, d, h, k, r); }
    if d.run.Pulling? {
      forall j ensures AheadOk(l, d, h', d.run.pull, j) {
        assert AheadOk(l, d, h, d.run.pull, j);
      }
    }
  }

  lemma EditKeeps(l: Locker, d: Device, h: History, k: Key, c: Content)
    requires DeviceOk(l, d, h)
    ensures DeviceOk(l, DoEdit(d, k, c), Track(l, d, h, Edit(k, c)))
  {
    hide OthersOk, RecordsOk, Known, Saved, ManifestOk;
    var d', h' := DoEdit(d, k, c), Track(l, d, h, Edit(k, c));
    SameOthers(l, d, h, d', h');
    if d.run.Pulling? {
      forall j ensures AheadOk(l, d', h', d.run.pull, j) {
        assert AheadOk(l, d, h, d.run.pull, j);
      }
    }
    forall j | j !in h'.lost ensures Kept(l, d', h', j) {
      if j != k { assert Kept(l, d, h, j); }
    }
  }

  lemma DeleteKeeps(l: Locker, d: Device, h: History, k: Key)
    requires DeviceOk(l, d, h)
    ensures DeviceOk(l, DoDelete(d, k), Track(l, d, h, Delete(k)))
  {
    hide OthersOk, RecordsOk, Known, Saved, ManifestOk;
    var d', h' := DoDelete(d, k), Track(l, d, h, Delete(k));
    SameOthers(l, d, h, d', h');
    if d.run.Pulling? {
      forall j ensures AheadOk(l, d', h', d.run.pull, j) {
        assert AheadOk(l, d, h, d.run.pull, j);
      }
    }
    forall j | j !in h'.lost ensures Kept(l, d', h', j) {
      if j != k { assert Kept(l, d, h, j); }
    }
  }

  lemma InitsKeep(l: Locker, d: Device, h: History, a: Action)
    requires LockerOk(l) && DeviceOk(l, d, h)
    requires a.InitBegin? || a.InitCarry? || a.InitConfig? || a.InitState? || a.InitCrash? || a.Open? || a.Quit?
    ensures DeviceOk(l, Do(l, d, a).1, Track(l, d, h, a))
  {
    hide Known, Faithful, EditsOk, Saved, RecordsOk, RunOk;
    var d', h' := Do(l, d, a).1, Track(l, d, h, a);
    OthersUnharmed(l, l, d, h, h'.profiles);
    SameFiles(l, d, h', d', h');
    NothingIsOk(l, h'.profiles, h'.tainted);
    SameRun(l, d, d', h');
  }

  lemma NothingIsOk(l: Locker, profiles: set<Profile>, tainted: set<(Key, Record)>)
    ensures RecordsOk(l, profiles, tainted, map[])
  {}

  lemma SameRun(l: Locker, d: Device, d': Device, h: History)
    requires RunOk(l, d, h) && d'.run == d.run && d'.files == d.files
    ensures RunOk(l, d', h)
  {
    hide Saved, RecordsOk, ManifestOk, Known;
    if d.run.Pulling? {
      forall j ensures AheadOk(l, d', h, d.run.pull, j) {
        assert AheadOk(l, d, h, d.run.pull, j);
      }
    }
  }

  lemma StartsKeep(l: Locker, d: Device, h: History, a: Action)
    requires LockerOk(l) && DeviceOk(l, d, h) && (a.StartPush? || a.Crash? || a.Export?)
    ensures DeviceOk(l, Do(l, d, a).1, Track(l, d, h, a))
  {
    hide OthersOk, Known, Faithful, EditsOk, Saved, RecordsOk, ManifestOk, AtOk, AheadOk, LockerOk;
    SameFiles(l, d, h, Do(l, d, a).1, Track(l, d, h, a));
    SameOthers(l, d, h, Do(l, d, a).1, Track(l, d, h, a));
    if (a.StartPush? || a.Export?) && a.cmd in d.waiting { WaitingKnown(l, d, h, a.cmd); }
  }

  lemma StartPullKeeps(l: Locker, d: Device, h: History, a: Action)
    requires LockerOk(l) && DeviceOk(l, d, h) && a.StartPull?
    ensures DeviceOk(l, Do(l, d, a).1, Track(l, d, h, a))
  {
    hide OthersOk, Known, Faithful, EditsOk, Saved, RecordsOk;
    SameFiles(l, d, h, Do(l, d, a).1, Track(l, d, h, a));
    SameOthers(l, d, h, Do(l, d, a).1, Track(l, d, h, a));
    if Free(d, a.cmd) {
      WaitingKnown(l, d, h, a.cmd);
      assert ManifestOk(l, d.waiting[a.cmd], l.Manifest(d.waiting[a.cmd]));
    }
  }

  /** The step ends pull before it has gone through all sessions. */
  predicate Stops(l: Locker, d: Device, a: Action) {
    d.run.Pulling? && (a.PullDecide? || a.PullRestore? || a.PullRecord? || a.PullFail?) && Do(l, d, a).1.run.Idle?
  }

  lemma StopKeeps(l: Locker, d: Device, h: History, a: Action)
    requires DeviceOk(l, d, h) && Stops(l, d, a)
    ensures DeviceOk(l, Do(l, d, a).1, Track(l, d, h, a))
  {
    hide OthersOk, Known, Faithful, EditsOk, Saved, AtOk, AheadOk, Compared, RecordsOk, Do;
    StoppedIs(l, d, a);
    StoppedHistory(l, d, h, a);
    SameFiles(l, d, h, Stopped(d), Track(l, d, h, a));
    SameOthers(l, d, h, Stopped(d), Track(l, d, h, a));
  }

  lemma StoppedHistory(l: Locker, d: Device, h: History, a: Action)
    requires Stops(l, d, a)
    ensures Track(l, d, h, a) == h.(touched := Track(l, d, h, a).touched)
  {}

  lemma EndsKeep(l: Locker, d: Device, h: History, a: Action)
    requires DeviceOk(l, d, h) && !Stops(l, d, a)
    requires a.PushFinish? || a.VerifyLoad? || a.PullFinish? || a.PullFail? || a.SaveLoaded?
    ensures Do(l, d, a).0 == l
    ensures DeviceOk(l, Do(l, d, a).1, Track(l, d, h, a))
  {
    hide OthersOk, Known, Faithful, EditsOk, Saved, AtOk, AheadOk, Compared, RecordsOk;
    SameFiles(l, d, h, Do(l, d, a).1, Track(l, d, h, a));
    SameOthers(l, d, h, Do(l, d, a).1, Track(l, d, h, a));
  }

  lemma StoppedIs(l: Locker, d: Device, a: Action)
    requires Stops(l, d, a)
    ensures Do(l, d, a) == (l, Stopped(d))
  {}

  predicate Hashed(d: Device, push: Push) {
    && d.run.Pushing? && push.state == d.run.push.state
    && (push.hashed.Some? ==>
      push.todo != [] && push.todo[0] in d.files && push.hashed.value == d.files[push.todo[0]])
  }

  /** What push knows after looking at a file. */
  lemma HashShape(d: Device)
    ensures DoPushHash(d) == d.(run := DoPushHash(d).run)
    ensures
      var d' := DoPushHash(d);
      d' != d ==>
        && d.run.Pushing? && d.run.push.hashed.None?
        && (d'.run.Idle? || (d'.run.Pushing? && d'.run.profile == d.run.profile && Hashed(d, d'.run.push)))
  {}

  lemma PushHashKeeps(l: Locker, d: Device, h: History)
    requires DeviceOk(l, d, h)
    ensures DeviceOk(l, DoPushHash(d), Track(l, d, h, PushHash))
  {
    hide OthersOk, EditsOk, RecordsOk, ManifestOk, Saved, Known, DoPushHash;
    var d', h' := DoPushHash(d), Track(l, d, h, PushHash);
    HashShape(d);
    SameFiles(l, d, h, d', h');
    SameOthers(l, d, h, d', h');
    if d' == d { Untouched(l, d, h); }
  }

  lemma Untouched(l: Locker, d: Device, h: History)
    requires DeviceOk(l, d, h) && DoPushHash(d) == d
    ensures DeviceOk(l, d, Track(l, d, h, PushHash))
  {
    hide OthersOk, EditsOk, RecordsOk, ManifestOk, Saved, Known;
    SameFiles(l, d, h, d, Track(l, d, h, PushHash));
    SameOthers(l, d, h, d, Track(l, d, h, PushHash));
  }

  /** A push that does not upload either ends or goes on to the next session. */
  lemma RefusedShape(l: Locker, d: Device, orphan: bool)
    requires !Uploads(l, d)
    ensures
      var d' := DoPushUpload(l, d, orphan).1;
      && d' == d.(run := d'.run)
      && (d' == d || d'.run.Idle?
          || (d.run.Pushing? && d'.run.Pushing? && d'.run.profile == d.run.profile
              && d'.run.push.state == d.run.push.state && d'.run.push.hashed.None?))
  {}

  lemma PushUploadKeeps(l: Locker, d: Device, h: History, orphan: bool)
    requires LockerOk(l) && DeviceOk(l, d, h)
    ensures DeviceOk(DoPushUpload(l, d, orphan).0, DoPushUpload(l, d, orphan).1, Track(l, d, h, PushUpload(orphan)))
  {
    hide OthersOk, EditsOk, LockerOk, RecordsOk, ManifestOk, Saved, Known, DoPushUpload;
    var l', d', h' := DoPushUpload(l, d, orphan).0, DoPushUpload(l, d, orphan).1, Track(l, d, h, PushUpload(orphan));
    LockerKeeps(l, d, PushUpload(orphan));
    OthersUnharmed(l, l', d, h, h.profiles);
    if Uploads(l, d) {
      UploadRecorded(l, d, h, orphan);
    } else {
      RefusedShape(l, d, orphan);
      SameFiles(l', d, h, d', h');
      SameOthers(l', d, h, d', h');
    }
  }

  lemma UploadRecorded(l: Locker, d: Device, h: History, orphan: bool)
    requires LockerOk(l) && Uploads(l, d) && DeviceOk(DoPushUpload(l, d, orphan).0, d, h)
    ensures DeviceOk(DoPushUpload(l, d, orphan).0, DoPushUpload(l, d, orphan).1, Track(l, d, h, PushUpload(orphan)))
  {
    hide OthersOk, EditsOk, LockerOk, RecordsOk, ManifestOk, Saved;
    var l', d', h' := DoPushUpload(l, d, orphan).0, DoPushUpload(l, d, orphan).1, Track(l, d, h, PushUpload(orphan));
    var push, k, r := d.run.push, d.run.push.todo[0], Record(d.run.push.hashed, l.next);
    AdvanceKeeps(l, d.run.profile, k, d.files[k]);
    Marked(l', d, h, k, r);
    RecordsMarked(l', h.profiles, h.tainted, push.state, k, r, h.touched);
    SameFiles(l', d, h', d', h');
    SameOthers(l', d, h', d', h');
  }

  lemma PushFailKeeps(l: Locker, d: Device, h: History, advanced: bool)
    requires LockerOk(l) && DeviceOk(l, d, h)
    ensures DeviceOk(DoPushFail(l, d, advanced).0, DoPushFail(l, d, advanced).1, Track(l, d, h, PushFail(advanced)))
  {
    hide OthersOk, EditsOk, LockerOk, RecordsOk;
    LockerKeeps(l, d, PushFail(advanced));
    OthersUnharmed(l, DoPushFail(l, d, advanced).0, d, h, h.profiles);
    SameFiles(DoPushFail(l, d, advanced).0, d, h, DoPushFail(l, d, advanced).1, h);
    SameOthers(DoPushFail(l, d, advanced).0, d, h, DoPushFail(l, d, advanced).1, h);
  }

  /** What pull decides about the session it is at, unless it ends. */
  lemma DecideShape(l: Locker, d: Device)
    requires d.run.Pulling? && !Stops(l, d, PullDecide) && DoPullDecide(d) != d
    ensures
      var pull, d' := d.run.pull, DoPullDecide(d);
      && pull.todo != [] && pull.stage == Deciding && d'.run.Pulling? && d' == d.(run := d'.run)
      && d'.run.profile == d.run.profile
      && var pull' := d'.run.pull;
      && pull'.state == pull.state && pull'.man == pull.man && pull'.locals == pull.locals && pull'.forks == pull.forks
      && (pull'.stage == Deciding ==> pull'.todo == pull.todo[1..])
      && (pull'.stage != Deciding ==>
        && pull'.todo == pull.todo && pull'.stage == Cleared
        && (pull.todo[0] in pull.forks || pull.todo[0] !in pull.locals
            || (pull.todo[0] in d.files && pull.todo[0] in pull.state
                && pull.state[pull.todo[0]].localRev == Some(d.files[pull.todo[0]]))))
  {}

  lemma PullDecideKeeps(l: Locker, d: Device, h: History)
    requires DeviceOk(l, d, h) && !Stops(l, d, PullDecide)
    ensures DeviceOk(l, DoPullDecide(d), Track(l, d, h, PullDecide))
  {
    hide OthersOk, EditsOk, ManifestOk, RecordsOk, Saved, DoPullDecide;
    var d', h' := DoPullDecide(d), Track(l, d, h, PullDecide);
    if !d.run.Pulling? || d' == d {
      NothingDecided(l, d, h);
    } else {
      DecideShape(l, d);
      SameFiles(l, d, h, d', h');
      SameOthers(l, d, h, d', h');
      forall k ensures AheadOk(l, d', h', d'.run.pull, k) {
        assert AheadOk(l, d, h, d.run.pull, k);
      }
      assert AheadOk(l, d, h, d.run.pull, d.run.pull.todo[0]);
    }
  }

  lemma NothingDecided(l: Locker, d: Device, h: History)
    requires DeviceOk(l, d, h) && !Stops(l, d, PullDecide) && (!d.run.Pulling? || DoPullDecide(d) == d)
    ensures DoPullDecide(d) == d && Track(l, d, h, PullDecide) == h
  {
    if d.run.Pulling? && d.run.pull.todo != [] { assert d.run.pull.todo[0] in d.run.pull.man; }
  }

  /** In place, a guarded restore goes only over content that a snapshot of the session holds. */
  lemma GuardedIsSaved(l: Locker, d: Device, h: History)
    requires DeviceOk(l, d, h) && Restores(l, d) && !Unguarded(l, d, h)
    ensures
      var pull, k := d.run.pull, d.run.pull.todo[0];
      k in d.files ==>
        && Saved(l, h.profiles, k, d.files[k])
        && (k in pull.locals ==>
          && k in pull.state && pull.state[k].remoteRev in l.snapshots
          && l.snapshots[pull.state[k].remoteRev].content == d.files[k])
  {
    var pull, k := d.run.pull, d.run.pull.todo[0];
    if k in d.files && k in pull.locals {
      var r := pull.state[k];
      assert Known(l, h.profiles, k, r) && Faithful(l, r);
      assert SavedAs(l.snapshots[r.remoteRev], r.remoteRev, h.profiles, k, d.files[k]);
    }
  }

  lemma PullRestoreKeeps(l: Locker, d: Device, h: History)
    requires DeviceOk(l, d, h) && !Stops(l, d, PullRestore)
    ensures DeviceOk(l, DoPullRestore(l, d), Track(l, d, h, PullRestore))
  {
    hide OthersOk, EditsOk, Known, Faithful, RecordsOk, Belongs, Saved, ManifestOk;
    if d.run.Pulling? && d.run.pull.todo != [] && d.run.pull.stage == Cleared {
      var pull, k := d.run.pull, d.run.pull.todo[0];
      var d', h' := DoPullRestore(l, d), Track(l, d, h, PullRestore);
      SameOthers(l, d, h, d', h');
      assert k in pull.man && pull.man[k] in l.snapshots;
      var id := pull.man[k];
      var c, fork := l.snapshots[id].content, Fork("active", k, id);
      SnapshotIsSaved(l, d.run.profile, h.profiles, pull.man, k);
      if k !in pull.forks {
        if !Unguarded(l, d, h) { GuardedIsSaved(l, d, h); }
        Overwritten(l, d, h, k, c, d', h');
      } else if fork !in d.files {
        Overwritten(l, d, h, fork, c, d', h');
      } else {
        SameFiles(l, d, h, d', h');
      }
      forall j ensures AheadOk(l, d', h', d'.run.pull, j) {
        assert AheadOk(l, d, h, pull, j);
      }
    }
  }

  /** What a manifest lists is a snapshot of the session and of every fork made from it. */
  lemma SnapshotIsSaved(l: Locker, p: Profile, profiles: set<Profile>, man: map<Key, Id>, k: Key)
    requires ManifestOk(l, p, man) && k in man && p in profiles
    ensures
      var c := l.snapshots[man[k]].content;
      Saved(l, profiles, k, c) && forall kind :: Saved(l, profiles, Fork(kind, k, man[k]), c)
  {
    var id, s := man[k], l.snapshots[man[k]];
    assert SavedAs(s, id, profiles, k, s.content);
    forall kind ensures Saved(l, profiles, Fork(kind, k, id), s.content) {
      assert SavedAs(s, id, profiles, Fork(kind, k, id), s.content);
    }
  }

  lemma PullRecordKeeps(l: Locker, d: Device, h: History)
    requires DeviceOk(l, d, h) && !Stops(l, d, PullRecord)
    ensures DeviceOk(l, DoPullRecord(d), Track(l, d, h, PullRecord))
  {
    hide OthersOk, EditsOk, RecordsOk, Saved;
    var d', h' := DoPullRecord(d), Track(l, d, h, PullRecord);
    SameFiles(l, d, h, d', h');
    if !Records(d) { SameOthers(l, d, h, d', h'); }
    if Records(d) {
      var pull, k := d.run.pull, d.run.pull.todo[0];
      var r := Record(Some(d.files[k]), pull.man[k]);
      Marked(l, d, h, k, r);
      SameOthers(l, d, h', d', h');
      RecordsMarked(l, h.profiles, h.tainted, pull.state, k, r, h.touched);
      forall j ensures AheadOk(l, d', h', d'.run.pull, j) {
        assert AheadOk(l, d, h, pull, j);
      }
    }
  }

  lemma KeepLocalKeeps(l: Locker, d: Device, h: History)
    requires LockerOk(l) && DeviceOk(l, d, h)
    ensures DeviceOk(DoKeepLocalPush(l, d).0, DoKeepLocalPush(l, d).1, Track(l, d, h, KeepLocalPush))
  {
    hide OthersOk, EditsOk, LockerOk, RecordsOk;
    if d.run.KeepLocal? {
      var l', k := DoKeepLocalPush(l, d).0, d.run.key;
      AdvanceKeeps(l, d.run.profile, k, d.run.exported);
      OthersUnharmed(l, l', d, h, h.profiles);
      SameFiles(l', d, h, DoKeepLocalPush(l, d).1, Track(l, d, h, KeepLocalPush));
      if k !in d.files { SameOthers(l', d, h, DoKeepLocalPush(l, d).1, h); }
      if k in d.files {
        var r := Record(Some(d.files[k]), l.next);
        Marked(l', d, h, k, r);
        SameOthers(l', d, Track(l, d, h, KeepLocalPush), DoKeepLocalPush(l, d).1, Track(l, d, h, KeepLocalPush));
        RecordsMarked(l', h.profiles, h.tainted, d.records, k, r, h.touched);
      }
    }
  }

  lemma KeepRemoteKeeps(l: Locker, d: Device, h: History, a: Action)
    requires LockerOk(l) && DeviceOk(l, d, h) && a.KeepRemoteRestore?
    ensures DeviceOk(l, Do(l, d, a).1, Track(l, d, h, a))
  {
    hide OthersOk, EditsOk, RecordsOk;
    SameOthers(l, d, h, Do(l, d, a).1, Track(l, d, h, a));
    if RestoresHead(l, d, a.cmd, a.k) {
      var p, k := d.waiting[a.cmd], a.k;
      WaitingKnown(l, d, h, a.cmd);
      assert ManifestOk(l, p, l.Manifest(p));
      var id := l.Manifest(p)[k];
      SnapshotIsSaved(l, p, h.profiles, l.Manifest(p), k);
      Overwritten(l, d, h, Target(k, id, a.both), l.snapshots[id].content, Do(l, d, a).1, Track(l, d, h, a));
    } else {
      SameFiles(l, d, h, Do(l, d, a).1, Track(l, d, h, a));
    }
  }

  lemma KeepRemoteRecordKeeps(l: Locker, d: Device, h: History)
    requires DeviceOk(l, d, h)
    ensures DeviceOk(l, DoKeepRemoteRecord(d), Track(l, d, h, KeepRemoteRecord))
  {
    hide OthersOk, EditsOk, RecordsOk;
    SameFiles(l, d, h, DoKeepRemoteRecord(d), Track(l, d, h, KeepRemoteRecord));
    var h' := Track(l, d, h, KeepRemoteRecord);
    if !d.run.KeepRemote? || d.run.target !in d.files { SameOthers(l, d, h, DoKeepRemoteRecord(d), h'); }
    if d.run.KeepRemote? && d.run.target in d.files {
      var r := Record(Some(d.files[d.run.target]), d.run.id);
      Marked(l, d, h, d.run.target, r);
      SameOthers(l, d, h', DoKeepRemoteRecord(d), h');
      RecordsMarked(l, h.profiles, h.tainted, d.records, d.run.target, r, h.touched);
    }
  }

  /** Every step of a device keeps what it relies on. */
  lemma StepKeepsInv(l: Locker, d: Device, h: History, a: Action)
    requires LockerOk(l) && DeviceOk(l, d, h)
    ensures DeviceOk(Do(l, d, a).0, Do(l, d, a).1, Track(l, d, h, a))
  {
    hide LockerOk, DeviceOk, Track, Stops;
    if Stops(l, d, a) {
      StopKeeps(l, d, h, a);
      StoppedIs(l, d, a);
    } else {
      match a
      case Edit(k, c) => EditKeeps(l, d, h, k, c);
      case Delete(k) => DeleteKeeps(l, d, h, k);
      case PushHash => PushHashKeeps(l, d, h);
      case PushUpload(orphan) => PushUploadKeeps(l, d, h, orphan);
      case PushFail(advanced) => PushFailKeeps(l, d, h, advanced);
      case PushFinish(_) => EndsKeep(l, d, h, a);
      case VerifyLoad => EndsKeep(l, d, h, a);
      case PullDecide => PullDecideKeeps(l, d, h);
      case PullRestore => PullRestoreKeeps(l, d, h);
      case PullRecord => PullRecordKeeps(l, d, h);
      case PullFail => EndsKeep(l, d, h, a);
      case PullFinish => EndsKeep(l, d, h, a);
      case KeepLocalPush => KeepLocalKeeps(l, d, h);
      case KeepRemoteRestore(_, _, _) => KeepRemoteKeeps(l, d, h, a);
      case KeepRemoteRecord => KeepRemoteRecordKeeps(l, d, h);
      case SaveLoaded => EndsKeep(l, d, h, a);
      case StartPush(_, _, _) => StartsKeep(l, d, h, a);
      case StartPull(_, _, _, _) => StartPullKeeps(l, d, h, a);
      case Export(_, _) => StartsKeep(l, d, h, a);
      case Crash => StartsKeep(l, d, h, a);
      case _ => InitsKeep(l, d, h, a);
    }
  }

  lemma {:induction false} LockerAlwaysOk(w: World, events: seq<Event>)
    requires LockerOk(w.locker)
    ensures LockerOk(After(w, events).locker) && After(w, events).devices.Keys == w.devices.Keys
    decreases |events|
  {
    hide LockerOk, Do;
    if events != [] {
      var before, e := events[..|events| - 1], events[|events| - 1];
      LockerAlwaysOk(w, before);
      var at := After(w, before);
      if e.device in at.devices { LockerKeeps(at.locker, at.devices[e.device], e.action); }
    }
  }

  lemma StartOk(w: World)
    requires Initial(w)
    ensures LockerOk(w.locker)
    ensures forall name :: name in w.devices ==> DeviceOk(w.locker, w.devices[name], HistoryOf(w, [], name))
  {
    assert forall p :: w.locker.Manifest(p) == map[];
  }

  /** So does every interleaving of the steps of any number of devices. */
  lemma {:induction false} RunKeepsInv(w: World, events: seq<Event>, name: string)
    requires Initial(w) && name in w.devices
    ensures
      var w' := After(w, events);
      name in w'.devices && LockerOk(w'.locker) && DeviceOk(w'.locker, w'.devices[name], HistoryOf(w, events, name))
    decreases |events|
  {
    hide LockerOk, DeviceOk, Do, Track;
    StartOk(w);
    if events != [] {
      var before, e := events[..|events| - 1], events[|events| - 1];
      RunKeepsInv(w, before, name);
      var at, h := After(w, before), HistoryOf(w, before, name);
      if e.device in at.devices {
        LockerKeeps(at.locker, at.devices[e.device], e.action);
        if e.device == name {
          StepKeepsInv(at.locker, at.devices[name], h, e.action);
        } else {
          OthersUnharmed(at.locker, Do(at.locker, at.devices[e.device], e.action).0, at.devices[name], h, h.profiles);
        }
      }
    }
  }

  // ---------------------------------------------------------------------------
  // Main results
  // ---------------------------------------------------------------------------

  /** Whatever the devices do, and however their steps interleave, the newest content the
      user gave a session is still in its file or in an immutable snapshot of that session (or
      of the one it was forked from), in a locker the device has synced with, unless a restore
      that went wrong has overwritten it since the user gave it. */
  lemma NoLostEdits(w: World, events: seq<Event>, name: string, k: Key)
    requires Initial(w) && name in w.devices
    ensures
      var w', h := After(w, events), HistoryOf(w, events, name);
      && name in w'.devices
      && var d := w'.devices[name];
      k in h.edits && k !in h.lost ==>
        (k in d.files && d.files[k] == h.edits[k]) || Saved(w'.locker, h.profiles, k, h.edits[k])
  {
    RunKeepsInv(w, events, name);
    var w', h := After(w, events), HistoryOf(w, events, name);
    assert k !in h.lost ==> Kept(w'.locker, w'.devices[name], h, k);
  }

  /** What restores go wrong: pull's over a file changed since pull looked at it, or compared
      with a tainted record; and keep-both's over a fork that was edited. A new edit of the
      session, deleting it, or giving its local version up ends the matter. */
  lemma LostExactly(l: Locker, d: Device, h: History, a: Action, k: Key)
    ensures k in Track(l, d, h, a).lost <==>
      || (&& k in h.lost && !(a.Edit? && a.k == k) && !(a.Delete? && a.k == k)
          && !(a.KeepRemoteRestore? && !a.both && a.k == k && RestoresHead(l, d, a.cmd, k)))
      || (a.PullRestore? && Restores(l, d) && d.run.pull.todo[0] == k && Unguarded(l, d, h))
      || (&& a.KeepRemoteRestore? && a.both && RestoresHead(l, d, a.cmd, a.k) && OverwritesFork(l, d, a.cmd, a.k)
          && k == Fork("remote", a.k, l.Manifest(d.waiting[a.cmd])[a.k]))
  {
    hide Do;
  }

  /** Only an edit touches the file a command has looked at. */
  lemma TouchedExactly(l: Locker, d: Device, h: History, a: Action)
    requires !h.touched && Track(l, d, h, a).touched
    ensures
      || (a.Edit? && Watched(d, a.k))
      || (a.PullDecide? && d.run.Pulling? && d.run.pull.todo != []
          && d.run.pull.todo[0] !in d.run.pull.locals && d.run.pull.todo[0] in h.created)
  {}

  /** Whenever pull replaces a session in place whose file was not touched, against a record
      that is not tainted, the content it overwrites is that of the very snapshot the device
      last synced that session with. */
  lemma OverwritesOnlySynced(w: World, events: seq<Event>, name: string)
    requires Initial(w) && name in w.devices
    ensures
      var w', h := After(w, events), HistoryOf(w, events, name);
      && name in w'.devices
      && var l, d := w'.locker, w'.devices[name];
      Restores(l, d) && !Unguarded(l, d, h) && d.run.pull.todo[0] in d.files
        && d.run.pull.todo[0] in d.run.pull.locals ==>
        var pull, k := d.run.pull, d.run.pull.todo[0];
        && k in pull.state && pull.state[k].remoteRev in l.snapshots
        && l.snapshots[pull.state[k].remoteRev].content == d.files[k]
        && l.snapshots[pull.state[k].remoteRev].profile in h.profiles
  {
    RunKeepsInv(w, events, name);
    var w', h := After(w, events), HistoryOf(w, events, name);
    if Restores(w'.locker, w'.devices[name]) && !Unguarded(w'.locker, w'.devices[name], h) {
      GuardedIsSaved(w'.locker, w'.devices[name], h);
    }
  }

  // ---------------------------------------------------------------------------
  // Heads
  // ---------------------------------------------------------------------------

  /** `id` was pushed on top of `from`, directly or not. */
  ghost predicate Descends(l: Locker, id: Id, from: Id)
    decreases id
  {
    || id == from
    || (id in l.snapshots && l.snapshots[id].parent.Some? && l.snapshots[id].parent.value < id
        && Descends(l, l.snapshots[id].parent.value, from))
  }

  lemma {:induction false} DescendsStays(l: Locker, l': Locker, id: Id, from: Id)
    requires Extends(l, l') && Descends(l, id, from)
    ensures Descends(l', id, from)
    decreases id
  {
    if id != from { DescendsStays(l, l', l.snapshots[id].parent.value, from); }
  }

  /** From `l` to `l'`, nothing but the head of `k` moved, to a snapshot on top of it. */
  ghost predicate Moved(l: Locker, l': Locker, p: Profile, k: Key) {
    && l.next in l'.snapshots && l'.snapshots[l.next].parent == l.Head(p, k)
    && l'.snapshots[l.next].key == k && l'.Head(p, k) == Some(l.next)
  }

  lemma AdvanceMoves(l: Locker, q: Profile, j: Key, c: Content, p: Profile, k: Key)
    ensures l.Advance(q, j, c).Head(p, k) != l.Head(p, k) ==> p == q && k == j
    ensures Moved(l, l.Advance(q, j, c), q, j)
    ensures l.Upload(q, j, c).Head(p, k) == l.Head(p, k)
  {}

  /** A step changes a head only to a new snapshot whose parent is the old head. */
  lemma HeadAdvances(l: Locker, d: Device, a: Action, p: Profile, k: Key)
    requires LockerOk(l)
    ensures
      var l' := Do(l, d, a).0;
      l'.Head(p, k) != l.Head(p, k) ==>
        && l'.Head(p, k) == Some(l.next) && l.next !in l.snapshots && l.next in l'.snapshots
        && l'.snapshots[l.next].parent == l.Head(p, k) && l'.snapshots[l.next].key == k
        && !d.run.Idle? && d.run.profile == p
  {
    hide LockerOk;
    NextUnused(l);
    if d.run.Pushing? && d.run.push.todo != [] && d.run.push.todo[0] in d.files {
      AdvanceMoves(l, d.run.profile, d.run.push.todo[0], d.files[d.run.push.todo[0]], p, k);
    } else if d.run.KeepLocal? {
      AdvanceMoves(l, d.run.profile, d.run.key, d.run.exported, p, k);
    }
    if a.PushUpload? || a.PushFail? {
      PushUploadsHere(l, d, a);
    } else if a.KeepLocalPush? {
    } else {
      OnlyPushesUpload(l, d, a);
    }
  }

  /** A push leaves the locker alone, adds a snapshot or moves a head. */
  lemma PushUploadsHere(l: Locker, d: Device, a: Action)
    requires a.PushUpload? || a.PushFail?
    ensures
      var l' := Do(l, d, a).0;
      l' == l || (&& d.run.Pushing? && d.run.push.todo != [] && d.run.push.todo[0] in d.files
                  && var k := d.run.push.todo[0];
                     l' == l.Upload(d.run.profile, k, d.files[k]) || l' == l.Advance(d.run.profile, k, d.files[k]))
  {}

  lemma OnlyPushesUpload(l: Locker, d: Device, a: Action)
    requires !a.PushUpload? && !a.PushFail? && !a.KeepLocalPush?
    ensures Do(l, d, a).0 == l
  {}

  /** And push replaces a head only where it is the snapshot the device had on record when the
      push began. */
  lemma PushReplacesOnlySynced(l: Locker, d: Device, orphan: bool, p: Profile, k: Key)
    requires LockerOk(l) && l.Head(p, k).Some?
    ensures DoPushUpload(l, d, orphan).0.Head(p, k) != l.Head(p, k) ==>
      d.run.Pushing? && k in d.run.push.loaded && Some(d.run.push.loaded[k].remoteRev) == l.Head(p, k)
  {
    hide LockerOk;
  }

  lemma NextUnused(l: Locker)
    requires LockerOk(l)
    ensures l.next !in l.snapshots
    ensures forall p, k :: l.Head(p, k).Some? ==> l.Head(p, k).value in l.snapshots && l.Head(p, k).value < l.next
  {}

  /** The history of a session is a line: whatever was its head at some time is, ever after,
      an ancestor of its head. No device's push replaces work it was not based on. */
  lemma {:induction false} HeadsNeverForgotten(w: World, events: seq<Event>, n: nat, p: Profile, k: Key)
    requires LockerOk(w.locker) && n <= |events| && After(w, events[..n]).locker.Head(p, k).Some?
    ensures
      var l := After(w, events).locker;
      l.Head(p, k).Some? && Descends(l, l.Head(p, k).value, After(w, events[..n]).locker.Head(p, k).value)
    decreases |events|
  {
    if n == |events| {
      assert events[..n] == events;
    } else {
      var before := events[..|events| - 1];
      var e := events[|events| - 1];
      assert before[..n] == events[..n];
      HeadsNeverForgotten(w, before, n, p, k);
      LockerAlwaysOk(w, before);
      StepDescends(After(w, before), e, p, k, After(w, events[..n]).locker.Head(p, k).value);
    }
  }

  lemma StepDescends(w: World, e: Event, p: Profile, k: Key, from: Id)
    requires LockerOk(w.locker) && w.locker.Head(p, k).Some? && Descends(w.locker, w.locker.Head(p, k).value, from)
    ensures
      var l := Step(w, e).locker;
      l.Head(p, k).Some? && Descends(l, l.Head(p, k).value, from)
  {
    hide LockerOk, Do;
    var l, l' := w.locker, Step(w, e).locker;
    LockerKeeps(l, if e.device in w.devices then w.devices[e.device] else Fresh(""), e.action);
    DescendsStays(l, l', l.Head(p, k).value, from);
    NextUnused(l);
    if e.device in w.devices {
      HeadAdvances(l, w.devices[e.device], e.action, p, k);
    }
  }

  /** The record keep-both leaves for its fork names a snapshot the manifest does not list
      under the fork, so pushing the fork is a conflict until that is resolved. */
  lemma ForkRecordConflicts(l: Locker, d: Device, k: Key, orphan: bool)
    requires d.run.Idle? && k in d.files && k in d.records && l.Head(d.profile, k).None?
    ensures
      var (l', d') := DoPushUpload(l, DoPushHash(DoStartPush(l, d, d.profile, true, [k])), orphan);
      d'.run.Pushing? && d'.run.push.conflicts == {k} && d'.run.push.uploaded == [] && l'.manifests == l.manifests
  {}
}
