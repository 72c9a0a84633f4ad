/** Several devices sharing lockers of immutable snapshots, one step at a time
    (internal/cli/commands_impl.go, internal/sync/push.go). A revision is a hash of the
    content; hashes are taken to be injective, so here a revision is the content itself. */
module SyncMachine {
  import opened Wrappers

  type Id = nat
  type Content = string
  type Profile = string

  /** A session. The identity of a fork is derived from what it was forked from. */
  datatype Key = Root(id: string) | Fork(kind: string, source: Key, snapshot: Id)

  /** What a device last synced: a local revision and the snapshot it went with. */
  datatype Record = Record(localRev: Option<Content>, remoteRev: Id)

  datatype Snapshot = Snapshot(profile: Profile, key: Key, content: Content, parent: Option<Id>)

  /** The storage all devices share. A manifest maps each session of a profile to its
      newest snapshot. Snapshot identifiers are never used twice. */
  datatype Locker = Locker(snapshots: map<Id, Snapshot>, manifests: map<Profile, map<Key, Id>>, next: Id)
  {
    function Manifest(p: Profile): map<Key, Id> {
      if p in manifests then manifests[p] else map[]
    }

    function Head(p: Profile, k: Key): Option<Id> {
      if k in Manifest(p) then Some(Manifest(p)[k]) else None
    }

    /** An upload whose manifest update fails leaves the snapshot behind. */
    function Upload(p: Profile, k: Key, c: Content): Locker {
      this.(snapshots := snapshots[next := Snapshot(p, k, c, Head(p, k))], next := next + 1)
    }

    function Advance(p: Profile, k: Key, c: Content): Locker {
      Upload(p, k, c).(manifests := manifests[p := Manifest(p)[k := next]])
    }
  }

  /** Where pull stands with the session it is working on: before looking at the local file,
      about to restore over it, or restored but not yet hashed and recorded. */
  datatype Stage = Deciding | Cleared | Placed

  /** Push and pull keep a copy of the records and of the manifest while they work through
      `todo`. `all` tells --all from a single --session. Push decides on the records as it
      has `loaded` them, and will save `state`. */
  datatype Push = Push(
    all: bool, loaded: map<Key, Record>, state: map<Key, Record>, man: map<Key, Id>, todo: seq<Key>,
    hashed: Option<Content>, uploaded: seq<Key>, conflicts: set<Key>)

  datatype Pull = Pull(
    all: bool, state: map<Key, Record>, man: map<Key, Id>, todo: seq<Key>,
    locals: set<Key>, forks: set<Key>, stage: Stage, restored: seq<Key>, conflicts: set<Key>)
  {
    function Next(): Pull
      requires todo != []
    {
      this.(todo := todo[1..], stage := Deciding)
    }
  }

  /** The command that holds the lock of a device's home, with the profile it found in the
      configuration before it took that lock. A first push goes on to verify what it uploaded,
      and then loads and saves once more. `Saving` is the end of that, and of a conflict
      resolution, which has loaded the records, added its own and is about to save them. */
  datatype Run =
    | Idle
    | Pushing(profile: Profile, push: Push)
    | Verifying(profile: Profile)
    | Pulling(profile: Profile, pull: Pull)
    | KeepLocal(profile: Profile, key: Key, exported: Content)
    | KeepRemote(profile: Profile, target: Key, id: Id)
    | Saving(profile: Profile, state: map<Key, Record>)

  /** A re-initialization, which takes no lock: it has compared the profile with the one in the
      configuration, has read the records it keeps, or has saved the configuration. */
  datatype Reinit =
    | Begun(profile: Profile, keep: bool)
    | Carrying(profile: Profile, records: map<Key, Record>)
    | Configured(profile: Profile, records: map<Key, Record>, moved: bool)

  /** `profile` is what the configuration says and `records` what the state file says;
      `waiting` are the commands that have read the configuration but do not have the lock. */
  datatype Device = Device(
    profile: Profile, files: map<Key, Content>, records: map<Key, Record>, run: Run,
    waiting: map<nat, Profile>, inits: map<nat, Reinit>)

  /** The command goes on, or ends. */
  predicate GoesOn(run: Run, run': Run) {
    || run'.Idle?
    || (&& !run.Idle? && run'.profile == run.profile
        && (run.Pushing? <==> run'.Pushing?) && (run.Pulling? <==> run'.Pulling?)
        && (run.Pulling? ==> run'.pull.locals == run.pull.locals))
  }

  datatype Action =
    | Edit(k: Key, c: Content)
    | Delete(k: Key)
    | InitBegin(init: nat, p: Profile, hop: bool)
    | InitCarry(init: nat)
    | InitConfig(init: nat)
    | InitState(init: nat)
    | InitCrash(init: nat)
    | Open(cmd: nat)
    | Quit(cmd: nat)
    | StartPush(cmd: nat, every: bool, ks: seq<Key>)
    | PushHash
    | PushUpload(orphan: bool)
    | PushFail(advanced: bool)
    | PushFinish(verifies: bool)
    | VerifyLoad
    | StartPull(cmd: nat, every: bool, ks: seq<Key>, inUse: set<Key>)
    | PullDecide
    | PullRestore
    | PullRecord
    | PullFail
    | PullFinish
    | Crash
    | Export(cmd: nat, k: Key)
    | KeepLocalPush
    | KeepRemoteRestore(cmd: nat, k: Key, both: bool)
    | KeepRemoteRecord
    | SaveLoaded

  function Base(rs: map<Key, Record>, k: Key): Option<Id> {
    if k in rs then Some(rs[k].remoteRev) else None
  }

  // ---------------------------------------------------------------------------
  // The user
  // ---------------------------------------------------------------------------

  function DoEdit(d: Device, k: Key, c: Content): Device {
    d.(files := d.files[k := c])
  }

  function DoDelete(d: Device, k: Key): Device {
    d.(files := d.files - {k})
  }

  // ---------------------------------------------------------------------------
  // Re-initialization
  // ---------------------------------------------------------------------------

  /** Only a re-initialization for the hosted locker keeps records, and only for the profile
      the configuration names already. */
  function DoInitBegin(d: Device, init: nat, p: Profile, hop: bool): Device {
    if init in d.inits then d else d.(inits := d.inits[init := Begun(p, hop && d.profile == p)])
  }

  function DoInitCarry(d: Device, init: nat): Device {
    if init !in d.inits || !d.inits[init].Begun? then d
    else
      var i := d.inits[init];
      d.(inits := d.inits[init := Carrying(i.profile, if i.keep then d.records else map[])])
  }

  /** The configuration is saved first, and the records after it. */
  function DoInitConfig(d: Device, init: nat): Device {
    if init !in d.inits || !d.inits[init].Carrying? then d
    else
      var i := d.inits[init];
      d.(profile := i.profile, inits := d.inits[init := Configured(i.profile, i.records, i.profile != d.profile)])
  }

  function DoInitState(d: Device, init: nat): Device {
    if init !in d.inits || !d.inits[init].Configured? then d
    else d.(records := d.inits[init].records, inits := d.inits - {init})
  }

  function DoInitCrash(d: Device, init: nat): Device {
    d.(inits := d.inits - {init})
  }

  // ---------------------------------------------------------------------------
  // The lock
  // ---------------------------------------------------------------------------

  /** A command reads the configuration, and then waits for the lock. */
  function DoOpen(d: Device, cmd: nat): Device {
    if cmd in d.waiting then d else d.(waiting := d.waiting[cmd := d.profile])
  }

  function DoQuit(d: Device, cmd: nat): Device {
    d.(waiting := d.waiting - {cmd})
  }

  /** The command can have the lock. */
  predicate Free(d: Device, cmd: nat) {
    d.run.Idle? && cmd in d.waiting
  }

  // ---------------------------------------------------------------------------
  // Push
  // ---------------------------------------------------------------------------

  function DoStartPush(l: Locker, d: Device, p: Profile, every: bool, ks: seq<Key>): Device {
    d.(run := Pushing(p, Push(every, d.records, d.records, l.Manifest(p), ks, None, [], {})))
  }

  /** Hashing the file; a session that is what was last synced, on both sides, is skipped. */
  function DoPushHash(d: Device): (d': Device)
    ensures d' == d.(run := d'.run) && GoesOn(d.run, d'.run)
  {
    if !d.run.Pushing? || d.run.push.todo == [] || d.run.push.hashed.Some? then d
    else
      var push, p := d.run.push, d.run.profile;
      var k := push.todo[0];
      if k !in d.files then d.(run := Idle)
      else if k in push.state && k in push.man
              && push.state[k].localRev == Some(d.files[k]) && push.state[k].remoteRev == push.man[k] then
        d.(run := Pushing(p, push.(todo := push.todo[1..])))
      else
        d.(run := Pushing(p, push.(hashed := Some(d.files[k]))))
  }

  /** Exporting the file and uploading it, if the head is the snapshot last synced. */
  function DoPushUpload(l: Locker, d: Device, orphan: bool): (r: (Locker, Device))
    ensures r.1 == d.(run := r.1.run) && GoesOn(d.run, r.1.run)
  {
    if !d.run.Pushing? || d.run.push.todo == [] || d.run.push.hashed.None? then (l, d)
    else
      var push, p := d.run.push, d.run.profile;
      var k := push.todo[0];
      if k !in d.files then (l, d.(run := Idle))
      else if l.Head(p, k) == Base(push.loaded, k) then
        (l.Advance(p, k, d.files[k]),
         d.(run := Pushing(p, push.(state := push.state[k := Record(push.hashed, l.next)], todo := push.todo[1..],
                                    hashed := None, uploaded := push.uploaded + [k]))))
      else
        (if orphan then l.Upload(p, k, d.files[k]) else l,
         if push.all then
           d.(run := Pushing(p, push.(todo := push.todo[1..], hashed := None, conflicts := push.conflicts + {k})))
         else d.(run := Idle))
  }

  /** Any other error ends the command without saving anything, possibly with the session
      already advanced in the manifest. */
  function DoPushFail(l: Locker, d: Device, advanced: bool): (r: (Locker, Device))
    ensures r.1 == d.(run := r.1.run) && GoesOn(d.run, r.1.run)
  {
    if !d.run.Pushing? || d.run.push.todo == [] then (l, d)
    else
      var k, p := d.run.push.todo[0], d.run.profile;
      (if advanced && d.run.push.hashed.Some? && k in d.files && l.Head(p, k) == Base(d.run.push.loaded, k)
       then l.Advance(p, k, d.files[k]) else l,
       d.(run := Idle))
  }

  function DoPushFinish(d: Device, verifies: bool): Device {
    if !d.run.Pushing? || d.run.push.todo != [] then d
    else d.(records := d.run.push.state, run := if verifies then Verifying(d.run.profile) else Idle)
  }

  function DoVerifyLoad(d: Device): Device {
    if !d.run.Verifying? then d else d.(run := Saving(d.run.profile, d.records))
  }

  // ---------------------------------------------------------------------------
  // Pull
  // ---------------------------------------------------------------------------

  /** `ks` are the manifest's sessions that were asked for, and `inUse` those that an agent
      has open here and that are to be forked. */
  function DoStartPull(l: Locker, d: Device, p: Profile, every: bool, ks: seq<Key>, inUse: set<Key>): Device {
    var man := l.Manifest(p);
    if exists k :: k in ks && k !in man then d
    else d.(run := Pulling(p, Pull(every, d.records, man, ks, d.files.Keys, inUse * d.files.Keys, Deciding, [], {})))
  }

  /** Ending pull early saves what it has restored. */
  function Stopped(d: Device): Device
    requires d.run.Pulling?
  {
    d.(records := if d.run.pull.restored != [] then d.run.pull.state else d.records, run := Idle)
  }

  /** Whether to skip, report a conflict, or go on and restore. */
  function DoPullDecide(d: Device): (d': Device)
    ensures d' == d.(records := d'.records, run := d'.run) && GoesOn(d.run, d'.run)
    ensures d'.records != d.records ==> d.run.Pulling? && d'.run.Idle? && d.run.pull.restored != []
  {
    if !d.run.Pulling? || d.run.pull.todo == [] || d.run.pull.stage != Deciding
      || d.run.pull.todo[0] !in d.run.pull.man then d
    else
      var pull := d.run.pull;
      var k := pull.todo[0];
      if k !in pull.locals || k in pull.forks then d.(run := Pulling(d.run.profile, pull.(stage := Cleared)))
      else if k !in d.files then Stopped(d)
      else if pull.all && k in pull.state && pull.state[k].remoteRev == pull.man[k] && pull.state[k].localRev.Some? then
        d.(run := Pulling(d.run.profile, pull.Next()))
      else if k !in pull.state || pull.state[k].localRev != Some(d.files[k]) then
        if pull.all then d.(run := Pulling(d.run.profile, pull.Next().(conflicts := pull.conflicts + {k})))
        else Stopped(d)
      else
        d.(run := Pulling(d.run.profile, pull.(stage := Cleared)))
  }

  /** Restoring beside a session in use, unless that fork is already there, or in place. */
  function DoPullRestore(l: Locker, d: Device): (d': Device)
    ensures d' == d.(files := d'.files, records := d'.records, run := d'.run) && GoesOn(d.run, d'.run)
    ensures d'.records != d.records ==> d.run.Pulling? && d'.run.Idle? && d.run.pull.restored != []
  {
    if !d.run.Pulling? || d.run.pull.todo == [] || d.run.pull.stage != Cleared
      || d.run.pull.todo[0] !in d.run.pull.man then d
    else
      var pull := d.run.pull;
      var k := pull.todo[0];
      if pull.man[k] !in l.snapshots then Stopped(d)
      else
        var c := l.snapshots[pull.man[k]].content;
        if k in pull.forks then
          var fork := Fork("active", k, pull.man[k]);
          d.(files := if fork in d.files then d.files else d.files[fork := c],
             run := Pulling(d.run.profile, pull.Next()))
        else
          d.(files := d.files[k := c], run := Pulling(d.run.profile, pull.(stage := Placed)))
  }

  function DoPullRecord(d: Device): (d': Device)
    ensures d' == d.(records := d'.records, run := d'.run) && GoesOn(d.run, d'.run)
    ensures d'.records != d.records ==> d.run.Pulling? && d'.run.Idle? && d.run.pull.restored != []
  {
    if !d.run.Pulling? || d.run.pull.todo == [] || d.run.pull.stage != Placed
      || d.run.pull.todo[0] !in d.run.pull.man then d
    else
      var pull := d.run.pull;
      var k := pull.todo[0];
      if k !in d.files then Stopped(d)
      else
        d.(run := Pulling(d.run.profile, pull.Next().(
             state := pull.state[k := Record(Some(d.files[k]), pull.man[k])], restored := pull.restored + [k])))
  }

  function DoPullFail(d: Device): (d': Device)
    ensures d' == d.(records := d'.records, run := d'.run) && GoesOn(d.run, d'.run)
    ensures d'.records != d.records ==> d.run.Pulling? && d'.run.Idle? && d.run.pull.restored != []
  {
    if !d.run.Pulling? then d else Stopped(d)
  }

  function DoPullFinish(d: Device): Device {
    if !d.run.Pulling? || d.run.pull.todo != [] then d else d.(records := d.run.pull.state, run := Idle)
  }

  // ---------------------------------------------------------------------------
  // Conflict resolution
  // ---------------------------------------------------------------------------

  function DoExport(d: Device, p: Profile, k: Key): Device {
    if k !in d.files then d else d.(run := KeepLocal(p, k, d.files[k]))
  }

  /** Pushing what was exported on top of whatever the head is, and then hashing the file. */
  function DoKeepLocalPush(l: Locker, d: Device): (r: (Locker, Device))
    ensures r.1 == d.(run := r.1.run) && GoesOn(d.run, r.1.run)
  {
    if !d.run.KeepLocal? then (l, d)
    else
      var k, p := d.run.key, d.run.profile;
      (l.Advance(p, k, d.run.exported),
       d.(run := if k in d.files then Saving(p, d.records[k := Record(Some(d.files[k]), l.next)]) else Idle))
  }

  /** Where keep-remote or keep-both puts the snapshot `id` of `k`. */
  function Target(k: Key, id: Id, both: bool): Key {
    if both then Fork("remote", k, id) else k
  }

  /** Restoring the head over the session, which gives up the local version, or beside it. */
  function DoKeepRemoteRestore(l: Locker, d: Device, p: Profile, k: Key, both: bool): Device {
    var head := l.Head(p, k);
    if head.None? || head.value !in l.snapshots then d
    else
      var target := Target(k, head.value, both);
      d.(files := d.files[target := l.snapshots[head.value].content], run := KeepRemote(p, target, head.value))
  }

  function DoKeepRemoteRecord(d: Device): (d': Device)
    ensures d' == d.(run := d'.run) && GoesOn(d.run, d'.run)
  {
    if !d.run.KeepRemote? then d
    else
      var k := d.run.target;
      d.(run := if k in d.files then Saving(d.run.profile, d.records[k := Record(Some(d.files[k]), d.run.id)])
                else Idle)
  }

  function DoSaveLoaded(d: Device): Device {
    if !d.run.Saving? then d else d.(records := d.run.state, run := Idle)
  }

  // ---------------------------------------------------------------------------
  // Steps
  // ---------------------------------------------------------------------------

  function Do(l: Locker, d: Device, a: Action): (Locker, Device) {
    match a
    case Edit(k, c) => (l, DoEdit(d, k, c))
    case Delete(k) => (l, DoDelete(d, k))
    case InitBegin(init, p, hop) => (l, DoInitBegin(d, init, p, hop))
    case InitCarry(init) => (l, DoInitCarry(d, init))
    case InitConfig(init) => (l, DoInitConfig(d, init))
    case InitState(init) => (l, DoInitState(d, init))
    case InitCrash(init) => (l, DoInitCrash(d, init))
    case Open(cmd) => (l, DoOpen(d, cmd))
    case Quit(cmd) => (l, DoQuit(d, cmd))
    case StartPush(cmd, every, ks) =>
      (l, if Free(d, cmd) then DoStartPush(l, DoQuit(d, cmd), d.waiting[cmd], every, ks) else d)
    case PushHash => (l, DoPushHash(d))
    case PushUpload(orphan) => DoPushUpload(l, d, orphan)
    case PushFail(advanced) => DoPushFail(l, d, advanced)
    case PushFinish(verifies) => (l, DoPushFinish(d, verifies))
    case VerifyLoad => (l, DoVerifyLoad(d))
    case StartPull(cmd, every, ks, inUse) =>
      (l, if Free(d, cmd) then DoStartPull(l, DoQuit(d, cmd), d.waiting[cmd], every, ks, inUse) else d)
    case PullDecide => (l, DoPullDecide(d))
    case PullRestore => (l, DoPullRestore(l, d))
    case PullRecord => (l, DoPullRecord(d))
    case PullFail => (l, DoPullFail(d))
    case PullFinish => (l, DoPullFinish(d))
    case Crash => (l, d.(run := Idle))
    case Export(cmd, k) => (l, if Free(d, cmd) then DoExport(DoQuit(d, cmd), d.waiting[cmd], k) else d)
    case KeepLocalPush => DoKeepLocalPush(l, d)
    case KeepRemoteRestore(cmd, k, both) =>
      (l, if Free(d, cmd) then DoKeepRemoteRestore(l, DoQuit(d, cmd), d.waiting[cmd], k, both) else d)
    case KeepRemoteRecord => (l, DoKeepRemoteRecord(d))
    case SaveLoaded => (l, DoSaveLoaded(d))
  }

  function DoAll(l: Locker, d: Device, actions: seq<Action>): (Locker, Device)
    decreases |actions|
  {
    if actions == [] then (l, d)
    else
      var (l', d') := Do(l, d, actions[0]);
      DoAll(l', d', actions[1..])
  }

  datatype World = World(locker: Locker, devices: map<string, Device>)

  datatype Event = Event(device: string, action: Action)

  function Step(w: World, e: Event): World {
    if e.device !in w.devices then w
    else
      var (l, d) := Do(w.locker, w.devices[e.device], e.action);
      World(l, w.devices[e.device := d])
  }

  function After(w: World, events: seq<Event>): World
    decreases |events|
  {
    if events == [] then w
    else Step(After(w, events[..|events| - 1]), events[|events| - 1])
  }

  /** A device that has never synced and holds no session. */
  function Fresh(p: Profile): Device {
    Device(p, map[], map[], Idle, map[], map[])
  }

  /** The start of every run: an empty store and fresh devices. */
  ghost predicate Initial(w: World) {
    && w.locker == Locker(map[], map[], 0)
    && forall name :: name in w.devices ==> w.devices[name] == Fresh(w.devices[name].profile)
  }
}
