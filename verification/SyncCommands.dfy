/** Push and pull as the commands run them, and what a push or a pull that nothing interferes
    with comes to (internal/cli/commands_impl.go). */
module SyncCommands {
  import opened Wrappers
  import opened SyncMachine

  // ---------------------------------------------------------------------------
  // A command run on its own
  // ---------------------------------------------------------------------------

  datatype Pushed = Pushed(locker: Locker, device: Device, uploaded: seq<Key>, conflicts: set<Key>, failed: bool)

  function ToPush(push: Push): nat {
    2 * |push.todo| + if push.hashed.None? then 1 else 0
  }

  function PushStep(l: Locker, d: Device, faults: map<Key, bool>): (Locker, Device)
    requires d.run.Pushing? && d.run.push.todo != []
  {
    var push := d.run.push;
    if push.hashed.None? then (l, DoPushHash(d))
    else if push.todo[0] in faults then DoPushFail(l, d, faults[push.todo[0]])
    else DoPushUpload(l, d, false)
  }

  lemma HashAhead(d: Device)
    requires d.run.Pushing? && d.run.push.todo != [] && d.run.push.hashed.None?
    ensures DoPushHash(d).run.Pushing? ==> ToPush(DoPushHash(d).run.push) < ToPush(d.run.push)
  {}

  lemma UploadAhead(l: Locker, d: Device)
    requires d.run.Pushing? && d.run.push.todo != [] && d.run.push.hashed.Some?
    ensures DoPushUpload(l, d, false).1.run.Pushing? ==>
      ToPush(DoPushUpload(l, d, false).1.run.push) < ToPush(d.run.push)
  {}

  lemma PushStepAhead(l: Locker, d: Device, faults: map<Key, bool>)
    requires d.run.Pushing? && d.run.push.todo != []
    ensures PushStep(l, d, faults).1.run.Pushing? ==> ToPush(PushStep(l, d, faults).1.run.push) < ToPush(d.run.push)
  {
    hide DoPushHash, DoPushUpload, ToPush;
    if d.run.push.hashed.None? { HashAhead(d); } else { UploadAhead(l, d); }
  }

  /** The steps of a push in progress until it ends. `faults` are the sessions whose upload
      meets some other error, with whether it had advanced the manifest by then. */
  function PushRun(l: Locker, d: Device, faults: map<Key, bool>): Pushed
    requires d.run.Pushing?
    decreases ToPush(d.run.push)
  {
    var push := d.run.push;
    if push.todo == [] then
      Pushed(l, DoPushFinish(d, false), push.uploaded, push.conflicts, false)
    else
      PushStepAhead(l, d, faults);
      var (l', d') := PushStep(l, d, faults);
      if d'.run.Pushing? then PushRun(l', d', faults)
      else Pushed(l', d', push.uploaded, push.conflicts, true)
  }

  datatype Pulled = Pulled(device: Device, restored: seq<Key>, conflicts: set<Key>, failed: bool)

  /** Every session pull has to go through is in its manifest. */
  predicate Listed(run: Run) {
    run.Pulling? && forall k :: k in run.pull.todo ==> k in run.pull.man
  }

  function Ahead(pull: Pull): nat {
    3 * |pull.todo| + match pull.stage case Deciding => 2 case Cleared => 1 case Placed => 0
  }

  function PullStep(l: Locker, d: Device, faults: set<Key>): Device
    requires Listed(d.run) && d.run.pull.todo != []
  {
    match d.run.pull.stage
    case Deciding => DoPullDecide(d)
    case Cleared => if d.run.pull.todo[0] in faults then DoPullFail(d) else DoPullRestore(l, d)
    case Placed => DoPullRecord(d)
  }

  lemma NextAhead(p: Profile, pull: Pull)
    requires Listed(Pulling(p, pull)) && pull.todo != []
    ensures Listed(Pulling(p, pull.Next())) && Ahead(pull.Next()) < Ahead(pull)
  {}

  lemma DecideAhead(d: Device)
    requires Listed(d.run) && d.run.pull.todo != [] && d.run.pull.stage == Deciding
    ensures DoPullDecide(d).run.Pulling? ==>
      Listed(DoPullDecide(d).run) && Ahead(DoPullDecide(d).run.pull) < Ahead(d.run.pull)
  {
    NextAhead(d.run.profile, d.run.pull);
    hide Stopped;
  }

  lemma RestoreAhead(l: Locker, d: Device)
    requires Listed(d.run) && d.run.pull.todo != [] && d.run.pull.stage == Cleared
    ensures DoPullRestore(l, d).run.Pulling? ==>
      Listed(DoPullRestore(l, d).run) && Ahead(DoPullRestore(l, d).run.pull) < Ahead(d.run.pull)
  {
    NextAhead(d.run.profile, d.run.pull);
    hide Stopped;
  }

  lemma StepAhead(l: Locker, d: Device, faults: set<Key>)
    requires Listed(d.run) && d.run.pull.todo != []
    ensures PullStep(l, d, faults).run.Pulling? ==>
      Listed(PullStep(l, d, faults).run) && Ahead(PullStep(l, d, faults).run.pull) < Ahead(d.run.pull)
  {
    hide DoPullDecide, DoPullRestore;
    match d.run.pull.stage
    case Deciding => DecideAhead(d);
    case Cleared => RestoreAhead(l, d);
    case Placed => NextAhead(d.run.profile, d.run.pull);
  }

  /** The steps of a pull in progress until it ends. `faults` are the sessions whose restore
      meets an error. */
  function PullRun(l: Locker, d: Device, faults: set<Key>): Pulled
    requires Listed(d.run)
    decreases Ahead(d.run.pull)
  {
    var pull := d.run.pull;
    if pull.todo == [] then
      Pulled(DoPullFinish(d), pull.restored, pull.conflicts, false)
    else
      StepAhead(l, d, faults);
      var d' := PullStep(l, d, faults);
      if d'.run.Pulling? then PullRun(l, d', faults)
      else Pulled(d', pull.restored, pull.conflicts, true)
  }

  // ---------------------------------------------------------------------------
  // One session at a time
  // ---------------------------------------------------------------------------

  /** The session was last synced as it is now, on both sides. */
  predicate Unchanged(d: Device, push: Push, k: Key) {
    && k in d.files && k in push.state && k in push.man
    && push.state[k] == Record(Some(d.files[k]), push.man[k])
  }

  lemma PushDone(l: Locker, d: Device, faults: map<Key, bool>)
    requires d.run.Pushing? && d.run.push.todo == []
    ensures PushRun(l, d, faults)
      == Pushed(l, d.(records := d.run.push.state, run := Idle), d.run.push.uploaded, d.run.push.conflicts, false)
  {}

  lemma PushItem(l: Locker, d: Device, faults: map<Key, bool>)
    requires d.run.Pushing? && d.run.push.todo != [] && d.run.push.hashed.None?
    ensures
      var push, k, p := d.run.push, d.run.push.todo[0], d.run.profile;
      var rest := push.(todo := push.todo[1..]);
      PushRun(l, d, faults)
      == if k !in d.files then Pushed(l, d.(run := Idle), push.uploaded, push.conflicts, true)
         else if Unchanged(d, push, k) then PushRun(l, d.(run := Pushing(p, rest)), faults)
         else if k in faults then
           Pushed(if faults[k] && l.Head(p, k) == Base(push.loaded, k) then l.Advance(p, k, d.files[k]) else l,
                  d.(run := Idle), push.uploaded, push.conflicts, true)
         else if l.Head(p, k) == Base(push.loaded, k) then
           PushRun(l.Advance(p, k, d.files[k]),
                   d.(run := Pushing(p, rest.(state := push.state[k := Record(Some(d.files[k]), l.next)],
                                           uploaded := push.uploaded + [k]))), faults)
         else if push.all then
           PushRun(l, d.(run := Pushing(p, rest.(conflicts := push.conflicts + {k}))), faults)
         else Pushed(l, d.(run := Idle), push.uploaded, push.conflicts, true)
  {
    var d' := DoPushHash(d);
    if d'.run.Pushing? && d'.run.push.hashed.Some? {
      assert d' == d.(run := Pushing(d.run.profile, d.run.push.(hashed := Some(d.files[d.run.push.todo[0]]))));
    }
  }

  lemma PullStarts(l: Locker, d: Device, p: Profile, every: bool, ks: seq<Key>, inUse: set<Key>)
    requires forall k :: k in ks ==> k in l.Manifest(p)
    ensures DoStartPull(l, d, p, every, ks, inUse)
      == d.(run := Pulling(p, SyncMachine.Pull(
           every, d.records, l.Manifest(p), ks, d.files.Keys, inUse * d.files.Keys, Deciding, [], {})))
  {}

  lemma PullDone(l: Locker, d: Device, faults: set<Key>)
    requires d.run.Pulling? && d.run.pull.todo == []
    ensures PullRun(l, d, faults)
      == Pulled(d.(records := d.run.pull.state, run := Idle), d.run.pull.restored, d.run.pull.conflicts, false)
  {}

  /** Whether pull --all has nothing to do for a session it is not to fork. */
  predicate UpToDate(pull: Pull, k: Key)
    requires k in pull.man
  {
    pull.all && k in pull.state && pull.state[k].remoteRev == pull.man[k] && pull.state[k].localRev.Some?
  }

  lemma PullItem(l: Locker, d: Device, faults: set<Key>)
    requires Listed(d.run) && d.run.pull.todo != [] && d.run.pull.stage == Deciding
    ensures
      var pull, k := d.run.pull, d.run.pull.todo[0];
      var next, stopped := pull.Next(), Pulled(Stopped(d), pull.restored, pull.conflicts, true);
      if k in pull.locals && k !in pull.forks && k !in d.files then
        PullRun(l, d, faults) == stopped
      else if k in pull.locals && k !in pull.forks && UpToDate(pull, k) then
        PullRun(l, d, faults) == PullRun(l, d.(run := Pulling(d.run.profile, next)), faults)
      else if k in pull.locals && k !in pull.forks
        && (k !in pull.state || pull.state[k].localRev != Some(d.files[k])) then
        PullRun(l, d, faults)
        == if pull.all then
            PullRun(l, d.(run := Pulling(d.run.profile, next.(conflicts := pull.conflicts + {k}))), faults)
          else stopped
      else
        PullRun(l, d, faults) == PullRun(l, d.(run := Pulling(d.run.profile, pull.(stage := Cleared))), faults)
  {}

  lemma RestoreItem(l: Locker, d: Device, faults: set<Key>)
    requires Listed(d.run) && d.run.pull.todo != [] && d.run.pull.stage == Cleared
    ensures
      var pull, k := d.run.pull, d.run.pull.todo[0];
      var next, fork, id := pull.Next(), Fork("active", k, pull.man[k]), pull.man[k];
      if k in faults || id !in l.snapshots then
        PullRun(l, d, faults) == Pulled(Stopped(d), pull.restored, pull.conflicts, true)
      else if k in pull.forks then
        PullRun(l, d, faults)
        == PullRun(l, d.(files := if fork in d.files then d.files else d.files[fork := l.snapshots[id].content],
                         run := Pulling(d.run.profile, next)), faults)
      else
        var c := l.snapshots[id].content;
        PullRun(l, d, faults)
        == PullRun(l, d.(files := d.files[k := c],
                         run := Pulling(d.run.profile, next.(state := pull.state[k := Record(Some(c), id)],
                                              restored := pull.restored + [k]))), faults)
  {
    StepAhead(l, d, faults);
    NextAhead(d.run.profile, d.run.pull);
    var d' := PullStep(l, d, faults);
    if d'.run.Pulling? && d'.run.pull.stage == Placed {
      StepAhead(l, d', faults);
    }
  }

  // ---------------------------------------------------------------------------
  // The commands
  // ---------------------------------------------------------------------------

  /** The storage behind the lockers. */
  class Storage {
    var locker: Locker

    constructor (locker: Locker)
      ensures this.locker == locker
    {
      this.locker := locker;
    }
  }

  class Home {
    var profile: Profile
    var files: map<Key, Content>
    var records: map<Key, Record>

    constructor (profile: Profile, files: map<Key, Content>, records: map<Key, Record>)
      ensures this.profile == profile && this.files == files && this.records == records
    {
      this.profile, this.files, this.records := profile, files, records;
    }

    ghost function View(run: Run): Device
      reads this
    {
      Device(profile, files, records, run, map[], map[])
    }

    /** The home in the middle of a push, or a pull, between two sessions. */
    ghost function PushAt(every: bool, state: map<Key, Record>, man: map<Key, Id>, todo: seq<Key>,
        uploaded: seq<Key>, conflicts: set<Key>): Device
      reads this
    {
      View(Pushing(profile, SyncMachine.Push(every, records, state, man, todo, None, uploaded, conflicts)))
    }

    ghost function PullAt(every: bool, state: map<Key, Record>, man: map<Key, Id>, todo: seq<Key>,
        locals: set<Key>, forks: set<Key>, restored: seq<Key>, conflicts: set<Key>): Device
      reads this
    {
      View(Pulling(profile,
                   SyncMachine.Pull(every, state, man, todo, locals, forks, Deciding, restored, conflicts)))
    }

    /** Pushes the sessions `ks`. The state is saved only when the whole command succeeds. */
    method Push(storage: Storage, every: bool, ks: seq<Key>, faults: map<Key, bool>)
      returns (uploaded: seq<Key>, conflicted: set<Key>, failed: bool)
      modifies this, storage
      ensures
        var l, d := old(storage.locker), old(View(Idle));
        var r := PushRun(l, DoStartPush(l, d, d.profile, every, ks), faults);
        && storage.locker == r.locker && View(Idle) == r.device
        && uploaded == r.uploaded && conflicted == r.conflicts && failed == r.failed
    {
      hide PushRun;
      var state := records;
      var man := storage.locker.Manifest(profile);
      ghost var result := PushRun(storage.locker, PushAt(every, state, man, ks, [], {}), faults);
      uploaded, conflicted := [], {};
      for i := 0 to |ks|
        invariant files == old(files) && records == old(records) && profile == old(profile)
        invariant result == PushRun(storage.locker, PushAt(every, state, man, ks[i..], uploaded, conflicted), faults)
      {
        var k := ks[i];
        PushItem(storage.locker, PushAt(every, state, man, ks[i..], uploaded, conflicted), faults);
        assert ks[i..][0] == k && ks[i..][1..] == ks[i + 1..];
        if k !in files {
          return uploaded, conflicted, true;
        }
        var localHash := files[k];
        if k in state && k in man && state[k].localRev == Some(localHash) && state[k].remoteRev == man[k] {
          continue;
        }
        var base := if k in records then Some(records[k].remoteRev) else None;
        var current := storage.locker.Head(profile, k);
        if k in faults {
          if faults[k] && current == base {
            storage.locker := storage.locker.Advance(profile, k, files[k]);
          }
          return uploaded, conflicted, true;
        }
        if current != base {
          if !every {
            return uploaded, conflicted, true;
          }
          conflicted := conflicted + {k};
        } else {
          var id := storage.locker.next;
          storage.locker := storage.locker.Advance(profile, k, files[k]);
          uploaded := uploaded + [k];
          state := state[k := Record(Some(localHash), id)];
        }
      }
      assert ks[|ks|..] == [];
      PushDone(storage.locker, PushAt(every, state, man, [], uploaded, conflicted), faults);
      records := state;
      failed := false;
    }

    /** Pulls the sessions `ks` of the manifest. Those `inUse` are restored beside the local
        file. What was restored is saved even when a later session fails. */
    method Pull(storage: Storage, every: bool, ks: seq<Key>, inUse: set<Key>, faults: set<Key>)
      returns (restored: seq<Key>, conflicted: set<Key>, failed: bool)
      requires forall k :: k in ks ==> k in storage.locker.Manifest(profile)
      modifies this
      ensures
        var l, d := storage.locker, old(View(Idle));
        var r := PullRun(l, DoStartPull(l, d, d.profile, every, ks, inUse), faults);
        && View(Idle) == r.device
        && restored == r.restored && conflicted == r.conflicts && failed == r.failed
    {
      hide PullRun, DoStartPull;
      var man := storage.locker.Manifest(profile);
      var state, locals := records, files.Keys;
      var forks := inUse * locals;
      PullStarts(storage.locker, View(Idle), profile, every, ks, inUse);
      ghost var result := PullRun(storage.locker,
          DoStartPull(storage.locker, View(Idle), profile, every, ks, inUse), faults);
      restored, conflicted := [], {};
      for i := 0 to |ks|
        invariant records == old(records) && profile == old(profile)
        invariant result == PullRun(storage.locker,
          PullAt(every, state, man, ks[i..], locals, forks, restored, conflicted), faults)
      {
        var k := ks[i];
        ghost var pull := SyncMachine.Pull(every, state, man, ks[i..], locals, forks, Deciding, restored, conflicted);
        PullItem(storage.locker, View(Pulling(profile, pull)), faults);
        RestoreItem(storage.locker, View(Pulling(profile, pull.(stage := Cleared))), faults);
        assert ks[i..][0] == k && ks[i..][1..] == ks[i + 1..];
        if k in locals && k !in forks {
          if k !in files {
            records := if restored != [] then state else records;
            return restored, conflicted, true;
          }
          var localHash := files[k];
          if every && k in state && state[k].remoteRev == man[k] && state[k].localRev.Some? {
            continue;
          }
          if k !in state || state[k].localRev != Some(localHash) {
            if !every {
              records := if restored != [] then state else records;
              return restored, conflicted, true;
            }
            conflicted := conflicted + {k};
            continue;
          }
        }
        if k in faults || man[k] !in storage.locker.snapshots {
          records := if restored != [] then state else records;
          return restored, conflicted, true;
        }
        var content := storage.locker.snapshots[man[k]].content;
        if k in forks {
          var fork := Fork("active", k, man[k]);
          if fork !in files {
            files := files[fork := content];
          }
        } else {
          files := files[k := content];
          state := state[k := Record(Some(content), man[k])];
          restored := restored + [k];
        }
      }
      assert ks[|ks|..] == [];
      PullDone(storage.locker, PullAt(every, state, man, [], locals, forks, restored, conflicted), faults);
      records := state;
      failed := false;
    }
  }
}
