/** Re-initialization takes no lock, and a command reads the configuration before it takes
    its own. When the records of a home name the locker it is configured for, all the same
    (internal/cli/commands_impl.go). */
module SyncHomes {
  import opened Wrappers
  import opened SyncMachine
  import opened SyncSafety

  // ---------------------------------------------------------------------------
  // Records of one locker
  // ---------------------------------------------------------------------------

  /** All these records name snapshots of the locker of `p`. */
  ghost predicate NamesLocker(l: Locker, p: Profile, rs: map<Key, Record>) {
    forall k :: k in rs ==> NamesIn(l, p, rs[k])
  }

  ghost predicate NamesIn(l: Locker, p: Profile, r: Record) {
    r.remoteRev in l.snapshots && l.snapshots[r.remoteRev].profile == p
  }

  /** Records that name one locker name no other, unless there are none. */
  lemma OneLocker(l: Locker, p: Profile, q: Profile, rs: map<Key, Record>)
    requires NamesLocker(l, p, rs)
    ensures NamesLocker(l, q, rs) <==> q == p || rs == map[]
  {
    if rs != map[] {
      var k :| k in rs;
      assert NamesIn(l, p, rs[k]);
    }
  }

  lemma NamesStay(l: Locker, l': Locker, p: Profile, rs: map<Key, Record>)
    requires Extends(l, l') && NamesLocker(l, p, rs)
    ensures NamesLocker(l', p, rs)
  {
    forall k | k in rs ensures NamesIn(l', p, rs[k]) {
      assert NamesIn(l, p, rs[k]);
    }
  }

  /** What the running command knows and will save names the locker it works with. */
  ghost predicate Straight(l: Locker, run: Run) {
    match run
    case Pushing(p, push) => NamesLocker(l, p, push.state)
    case Pulling(p, pull) => NamesLocker(l, p, pull.state) && ManifestOk(l, p, pull.man)
    case KeepRemote(p, _, id) => NamesIn(l, p, Record(None, id))
    case Saving(p, state) => NamesLocker(l, p, state)
    case _ => true
  }

  lemma StraightStays(l: Locker, l': Locker, run: Run)
    requires Extends(l, l') && Straight(l, run)
    ensures Straight(l', run)
  {
    hide NamesLocker;
    match run
    case Pushing(p, push) => NamesStay(l, l', p, push.state);
    case Pulling(p, pull) => NamesStay(l, l', p, pull.state);
    case Saving(p, state) => NamesStay(l, l', p, state);
    case _ =>
  }

  /** The step in which a command loads the records; it works with profile `p`. */
  predicate Loads(l: Locker, d: Device, a: Action) {
    match a
    case StartPush(cmd, _, _) => Free(d, cmd)
    case StartPull(cmd, _, _, _) => Free(d, cmd)
    case VerifyLoad => d.run.Verifying?
    case KeepLocalPush => d.run.KeepLocal?
    case KeepRemoteRecord => d.run.KeepRemote?
    case _ => false
  }

  function LoaderOf(l: Locker, d: Device, a: Action): Profile
    requires Loads(l, d, a)
  {
    if a.StartPush? || a.StartPull? then d.waiting[a.cmd] else d.run.profile
  }

  /** The step in which it saves them. */
  predicate Saves(l: Locker, d: Device, a: Action) {
    match a
    case PushFinish(_) => d.run.Pushing? && d.run.push.todo == []
    case PullFinish => d.run.Pulling? && d.run.pull.todo == []
    case SaveLoaded => d.run.Saving?
    case _ => Stops(l, d, a) && d.run.pull.restored != []
  }

  lemma AdvanceNames(l: Locker, p: Profile, k: Key, c: Content, rs: map<Key, Record>, r: Record)
    requires LockerOk(l) && NamesLocker(l, p, rs) && r.remoteRev == l.next
    ensures NamesLocker(l.Advance(p, k, c), p, rs[k := r])
  {
    AdvanceKeeps(l, p, k, c);
    NamesStay(l, l.Advance(p, k, c), p, rs);
  }

  /** The step does not load records of another locker. */
  ghost predicate LoadsOwn(l: Locker, d: Device, a: Action) {
    Loads(l, d, a) ==> NamesLocker(l, LoaderOf(l, d, a), d.records)
  }

  lemma PushStaysStraight(l: Locker, d: Device, a: Action)
    requires LockerOk(l) && Straight(l, d.run) && LoadsOwn(l, d, a)
    requires a.StartPush? || a.PushHash? || a.PushUpload? || a.PushFail? || a.PushFinish? || a.VerifyLoad?
    ensures Straight(Do(l, d, a).0, Do(l, d, a).1.run)
  {
    hide LockerOk, NamesLocker, ManifestOk;
    LockerKeeps(l, d, a);
    StraightStays(l, Do(l, d, a).0, d.run);
    if a.PushUpload? && Uploads(l, d) {
      var k, push := d.run.push.todo[0], d.run.push;
      AdvanceNames(l, d.run.profile, k, d.files[k], push.state, Record(push.hashed, l.next));
    }
  }

  lemma PullStaysStraight(l: Locker, d: Device, a: Action)
    requires LockerOk(l) && Straight(l, d.run) && LoadsOwn(l, d, a)
    requires a.StartPull? || a.PullDecide? || a.PullRestore? || a.PullRecord? || a.PullFail? || a.PullFinish?
    ensures Straight(l, Do(l, d, a).1.run)
  {
    hide LockerOk, NamesLocker, ManifestOk;
    if a.StartPull? && Free(d, a.cmd) {
      ManifestsOk(l, d.waiting[a.cmd]);
    } else if a.PullRecord? && Records(d) {
      var k, pull := d.run.pull.todo[0], d.run.pull;
      PullNames(l, d.run.profile, pull, k, Record(Some(d.files[k]), pull.man[k]));
    }
  }

  lemma ResolveStaysStraight(l: Locker, d: Device, a: Action)
    requires LockerOk(l) && Straight(l, d.run) && LoadsOwn(l, d, a)
    requires a.Export? || a.KeepLocalPush? || a.KeepRemoteRestore? || a.KeepRemoteRecord? || a.SaveLoaded?
    ensures Straight(Do(l, d, a).0, Do(l, d, a).1.run)
  {
    hide LockerOk, NamesLocker, ManifestOk;
    LockerKeeps(l, d, a);
    StraightStays(l, Do(l, d, a).0, d.run);
    if a.KeepLocalPush? && d.run.KeepLocal? && d.run.key in d.files {
      AdvanceNames(l, d.run.profile, d.run.key, d.run.exported, d.records, Record(Some(d.files[d.run.key]), l.next));
    } else if a.KeepRemoteRestore? && Free(d, a.cmd) {
      ManifestsOk(l, d.waiting[a.cmd]);
      HeadNames(l, d.waiting[a.cmd], a.k);
    } else if a.KeepRemoteRecord? && d.run.KeepRemote? && d.run.target in d.files {
      RecordNames(l, d.run.profile, d.records, d.run.target, Record(Some(d.files[d.run.target]), d.run.id));
    }
  }

  /** A command that is straight stays so, whatever it does and whatever happens on the
      device, and one that loads records of its own locker becomes so. */
  lemma StepStaysStraight(l: Locker, d: Device, a: Action)
    requires LockerOk(l) && Straight(l, d.run) && LoadsOwn(l, d, a)
    ensures Straight(Do(l, d, a).0, Do(l, d, a).1.run)
  {
    hide LockerOk, LoadsOwn, Straight;
    match a
    case StartPush(_, _, _) => PushStaysStraight(l, d, a);
    case PushHash => PushStaysStraight(l, d, a);
    case PushUpload(_) => PushStaysStraight(l, d, a);
    case PushFail(_) => PushStaysStraight(l, d, a);
    case PushFinish(_) => PushStaysStraight(l, d, a);
    case VerifyLoad => PushStaysStraight(l, d, a);
    case StartPull(_, _, _, _) => PullStaysStraight(l, d, a);
    case PullDecide => PullStaysStraight(l, d, a);
    case PullRestore => PullStaysStraight(l, d, a);
    case PullRecord => PullStaysStraight(l, d, a);
    case PullFail => PullStaysStraight(l, d, a);
    case PullFinish => PullStaysStraight(l, d, a);
    case Export(_, _) => ResolveStaysStraight(l, d, a);
    case KeepLocalPush => ResolveStaysStraight(l, d, a);
    case KeepRemoteRestore(_, _, _) => ResolveStaysStraight(l, d, a);
    case KeepRemoteRecord => ResolveStaysStraight(l, d, a);
    case SaveLoaded => ResolveStaysStraight(l, d, a);
    case _ => IdleIsStraight(l, d, a);
  }

  lemma IdleIsStraight(l: Locker, d: Device, a: Action)
    requires Straight(l, d.run)
    requires a.Edit? || a.Delete? || a.InitBegin? || a.InitCarry? || a.InitConfig? || a.InitState? || a.InitCrash?
      || a.Open? || a.Quit? || a.Crash?
    ensures Straight(Do(l, d, a).0, Do(l, d, a).1.run)
  {
    assert Do(l, d, a).1.run == d.run || Do(l, d, a).1.run.Idle?;
  }

  lemma ManifestsOk(l: Locker, p: Profile)
    requires LockerOk(l)
    ensures ManifestOk(l, p, l.Manifest(p))
  {}

  lemma HeadNames(l: Locker, p: Profile, k: Key)
    requires ManifestOk(l, p, l.Manifest(p))
    ensures l.Head(p, k).Some? ==> NamesIn(l, p, Record(None, l.Head(p, k).value))
  {}

  lemma RecordNames(l: Locker, p: Profile, rs: map<Key, Record>, k: Key, r: Record)
    requires NamesLocker(l, p, rs) && NamesIn(l, p, r)
    ensures NamesLocker(l, p, rs[k := r])
  {}

  lemma PullNames(l: Locker, p: Profile, pull: Pull, k: Key, r: Record)
    requires NamesLocker(l, p, pull.state) && ManifestOk(l, p, pull.man) && k in pull.man && r.remoteRev == pull.man[k]
    ensures NamesLocker(l, p, pull.state[k := r])
  {}

  // ---------------------------------------------------------------------------
  // What a command saves
  // ---------------------------------------------------------------------------

  /** The last command of device `name` to load the records loaded those of its own locker. */
  ghost predicate LoadedOwn(w: World, events: seq<Event>, name: string)
    decreases |events|
  {
    if events == [] then true
    else
      var before, e := events[..|events| - 1], events[|events| - 1];
      var at := After(w, before);
      if e.device == name && name in at.devices && Loads(at.locker, at.devices[name], e.action) then
        NamesLocker(at.locker, LoaderOf(at.locker, at.devices[name], e.action), at.devices[name].records)
      else LoadedOwn(w, before, name)
  }

  predicate HoldsRecords(run: Run) {
    run.Pushing? || run.Pulling? || run.Saving?
  }

  lemma HoldsAfterLoading(l: Locker, d: Device, a: Action)
    ensures Loads(l, d, a) ==> !HoldsRecords(d.run)
    ensures !HoldsRecords(Do(l, d, a).1.run) && (HoldsRecords(d.run) || Loads(l, d, a)) ==>
      Do(l, d, a).1.run.Idle? || Do(l, d, a).1.run.Verifying?
  {}

  lemma {:induction false} LoadedOwnIsStraight(w: World, events: seq<Event>, name: string)
    requires Initial(w) && name in w.devices
    ensures
      var w' := After(w, events);
      && name in w'.devices
      && (LoadedOwn(w, events, name) || !HoldsRecords(w'.devices[name].run) ==>
        Straight(w'.locker, w'.devices[name].run))
    decreases |events|
  {
    hide LockerOk, Do, NamesLocker, Loads, HoldsRecords;
    StartOk(w);
    if events != [] {
      var before, e := events[..|events| - 1], events[|events| - 1];
      LockerAlwaysOk(w, before);
      LoadedOwnIsStraight(w, before, name);
      var at := After(w, before);
      if e.device == name {
        var l, d := at.locker, at.devices[name];
        HoldsAfterLoading(l, d, e.action);
        IdleStraight(Do(l, d, e.action).0);
        if (LoadedOwn(w, before, name) || !HoldsRecords(d.run)) && LoadsOwn(l, d, e.action) {
          StepStaysStraight(l, d, e.action);
        }
      } else if e.device in at.devices {
        LockerKeeps(at.locker, at.devices[e.device], e.action);
        if LoadedOwn(w, before, name) || !HoldsRecords(at.devices[name].run) {
          StraightStays(at.locker, Do(at.locker, at.devices[e.device], e.action).0, at.devices[name].run);
        }
      }
    }
  }

  lemma IdleStraight(l: Locker)
    ensures Straight(l, Idle) && forall p :: Straight(l, Verifying(p))
  {}

  lemma SavedIsOwn(l: Locker, d: Device, a: Action)
    requires Saves(l, d, a) && Straight(l, d.run)
    ensures
      var (l', d') := Do(l, d, a);
      !d.run.Idle? && l' == l && d'.profile == d.profile && NamesLocker(l, d.run.profile, d'.records)
  {
    hide NamesLocker, ManifestOk;
    if Stops(l, d, a) { StoppedIs(l, d, a); }
  }

  /** In every run: when a command saves the records, after loading those of its own locker
      and whatever happened since, the records in the file name the locker the home is
      configured for exactly if that is still the one the command works with, or there are
      none. */
  lemma SavesThisLockerExactly(w: World, events: seq<Event>, name: string, a: Action)
    requires Initial(w) && name in w.devices && LoadedOwn(w, events, name)
    ensures
      var w' := After(w, events);
      && name in w'.devices
      && var l, d := w'.locker, w'.devices[name];
      Saves(l, d, a) ==>
        var (l', d') := Do(l, d, a);
        && !d.run.Idle?
        && (NamesLocker(l', d'.profile, d'.records) <==> d'.profile == d.run.profile || d'.records == map[])
  {
    hide Do, NamesLocker, Straight, Saves;
    LoadedOwnIsStraight(w, events, name);
    var l, d := After(w, events).locker, After(w, events).devices[name];
    if Saves(l, d, a) {
      SavedIsOwn(l, d, a);
      OneLocker(l, d.run.profile, d.profile, Do(l, d, a).1.records);
    }
  }

  // ---------------------------------------------------------------------------
  // Runs in which re-initializations keep out of the way
  // ---------------------------------------------------------------------------

  predicate Moves(i: Reinit) {
    i.Configured? && i.moved
  }

  /** A re-initialization has saved another profile, and not yet the records that go with it. */
  predicate Moving(d: Device) {
    exists i :: i in d.inits && Moves(d.inits[i])
  }

  /** A re-initialization changes the profile while another command or re-initialization is
      under way, ends before it has saved the records, or one of them begins before that. */
  predicate Collides(d: Device, a: Action) {
    match a
    case InitConfig(i) =>
      && i in d.inits && d.inits[i].Carrying? && d.inits[i].profile != d.profile
      && (d.waiting != map[] || !d.run.Idle? || d.inits.Keys != {i})
    case InitBegin(_, _, _) => Moving(d)
    case Open(_) => Moving(d)
    case InitCrash(i) => i in d.inits && Moves(d.inits[i])
    case _ => false
  }

  /** No re-initialization of this device collides with anything. */
  ghost predicate Orderly(w: World, events: seq<Event>, name: string)
    decreases |events|
  {
    events == []
    || (var before, e := events[..|events| - 1], events[|events| - 1];
        && Orderly(w, before, name)
        && (e.device == name && name in After(w, before).devices ==>
          !Collides(After(w, before).devices[name], e.action)))
  }

  ghost predicate InitInOrder(l: Locker, d: Device, i: Reinit) {
    match i
    case Begun(p, keep) => keep ==> p == d.profile
    case Carrying(p, rs) => NamesLocker(l, p, rs)
    case Configured(p, rs, moved) => p == d.profile && NamesLocker(l, p, rs)
  }

  ghost predicate InOrder(l: Locker, d: Device) {
    && (forall i :: i in d.inits ==> InitInOrder(l, d, d.inits[i]))
    && (Moving(d) ==> d.waiting == map[] && d.run.Idle? && forall i, j :: i in d.inits && j in d.inits ==> i == j)
    && (!Moving(d) ==> NamesLocker(l, d.profile, d.records))
    && (forall cmd :: cmd in d.waiting ==> d.waiting[cmd] == d.profile)
    && Straight(l, d.run) && (!d.run.Idle? ==> d.run.profile == d.profile)
  }

  lemma InOrderStays(l: Locker, l': Locker, d: Device)
    requires Extends(l, l') && InOrder(l, d)
    ensures InOrder(l', d)
  {
    hide NamesLocker, Straight;
    StraightStays(l, l', d.run);
    forall i | i in d.inits ensures InitInOrder(l', d, d.inits[i]) {
      assert InitInOrder(l, d, d.inits[i]);
      if !d.inits[i].Begun? { NamesStay(l, l', d.inits[i].profile, d.inits[i].records); }
    }
    if !Moving(d) { NamesStay(l, l', d.profile, d.records); }
  }

  /** A command gets the lock. */
  predicate Takes(d: Device, a: Action) {
    (a.StartPush? || a.StartPull? || a.Export? || a.KeepRemoteRestore?) && Free(d, a.cmd)
  }

  /** What a step of a command does to a home: the records change only when it saves them,
      and the profile it works with is the one it found. */
  ghost predicate CommandStep(d: Device, a: Action, d': Device) {
    && d'.profile == d.profile && d'.inits == d.inits
    && d'.waiting == (if Takes(d, a) || a.Quit? then d.waiting - {a.cmd} else d.waiting)
    && (if Takes(d, a) then d'.run.Idle? || d'.run.profile == d.waiting[a.cmd]
        else d'.run.Idle? || (!d.run.Idle? && d'.run.profile == d.run.profile))
  }

  lemma PushShape(l: Locker, d: Device, a: Action)
    requires a.StartPush? || a.PushHash? || a.PushUpload? || a.PushFail? || a.PushFinish? || a.VerifyLoad?
    ensures CommandStep(d, a, Do(l, d, a).1)
    ensures Do(l, d, a).1.records != d.records ==> Saves(l, d, a)
  {
    hide DoPushHash, DoPushUpload, DoPushFail;
  }

  lemma StartPullShape(l: Locker, d: Device, a: Action)
    requires a.StartPull?
    ensures CommandStep(d, a, Do(l, d, a).1)
    ensures Do(l, d, a).1.records == d.records
  {}

  lemma PullShape(l: Locker, d: Device, a: Action)
    requires a.PullDecide? || a.PullRestore? || a.PullRecord? || a.PullFail? || a.PullFinish?
    ensures CommandStep(d, a, Do(l, d, a).1)
    ensures Do(l, d, a).1.records != d.records ==> Saves(l, d, a)
  {
    hide DoPullDecide, DoPullRestore, DoPullRecord, DoPullFail;
  }

  lemma ResolveShape(l: Locker, d: Device, a: Action)
    requires a.Export? || a.KeepLocalPush? || a.KeepRemoteRestore? || a.KeepRemoteRecord? || a.SaveLoaded?
    ensures CommandStep(d, a, Do(l, d, a).1)
    ensures Do(l, d, a).1.records != d.records ==> Saves(l, d, a)
  {
    hide DoKeepLocalPush, DoKeepRemoteRecord;
  }

  lemma OtherShape(l: Locker, d: Device, a: Action)
    requires a.Edit? || a.Delete? || a.Quit? || a.Crash?
    ensures CommandStep(d, a, Do(l, d, a).1)
    ensures Do(l, d, a).1.records == d.records
  {}

  predicate OfInit(a: Action) {
    a.InitBegin? || a.InitCarry? || a.InitConfig? || a.InitState? || a.InitCrash? || a.Open?
  }

  lemma CommandShape(l: Locker, d: Device, a: Action)
    requires !OfInit(a)
    ensures CommandStep(d, a, Do(l, d, a).1)
    ensures Do(l, d, a).1.records != d.records ==> Saves(l, d, a)
  {
    hide CommandStep, Do;
    match a
    case StartPush(_, _, _) => PushShape(l, d, a);
    case PushHash => PushShape(l, d, a);
    case PushUpload(_) => PushShape(l, d, a);
    case PushFail(_) => PushShape(l, d, a);
    case PushFinish(_) => PushShape(l, d, a);
    case VerifyLoad => PushShape(l, d, a);
    case StartPull(_, _, _, _) => StartPullShape(l, d, a);
    case PullDecide => PullShape(l, d, a);
    case PullRestore => PullShape(l, d, a);
    case PullRecord => PullShape(l, d, a);
    case PullFail => PullShape(l, d, a);
    case PullFinish => PullShape(l, d, a);
    case Edit(_, _) => OtherShape(l, d, a);
    case Delete(_) => OtherShape(l, d, a);
    case Quit(_) => OtherShape(l, d, a);
    case Crash => OtherShape(l, d, a);
    case _ => ResolveShape(l, d, a);
  }

  lemma LoadsInOrder(l: Locker, d: Device, a: Action)
    requires InOrder(l, d)
    ensures LoadsOwn(l, d, a)
  {
    hide NamesLocker, Straight;
  }

  lemma CommandKeepsOrder(l: Locker, d: Device, a: Action)
    requires LockerOk(l) && InOrder(l, d) && !OfInit(a)
    ensures InOrder(Do(l, d, a).0, Do(l, d, a).1)
  {
    hide LockerOk, Do, NamesLocker, Straight, Saves;
    var (l', d') := Do(l, d, a);
    LockerKeeps(l, d, a);
    InOrderStays(l, l', d);
    CommandShape(l, d, a);
    LoadsInOrder(l, d, a);
    StepStaysStraight(l, d, a);
    if Saves(l, d, a) { SavedIsOwn(l, d, a); }
  }

  lemma InitConfigKeepsOrder(l: Locker, d: Device, i: nat)
    requires InOrder(l, d) && !Collides(d, InitConfig(i)) && i in d.inits && d.inits[i].Carrying?
    ensures InOrder(l, DoInitConfig(d, i))
  {
    hide NamesLocker, Straight;
    var d' := DoInitConfig(d, i);
    assert InitInOrder(l, d, d.inits[i]);
    if d'.profile == d.profile {
      forall j | j in d'.inits ensures InitInOrder(l, d', d'.inits[j]) && (Moves(d'.inits[j]) ==> Moves(d.inits[j])) {
        if j != i { assert InitInOrder(l, d, d.inits[j]); }
      }
    } else {
      assert forall j :: j in d.inits.Keys ==> j == i;
      assert InitInOrder(l, d', d'.inits[i]) && Moves(d'.inits[i]);
    }
  }

  lemma InitStateKeepsOrder(l: Locker, d: Device, i: nat)
    requires InOrder(l, d) && i in d.inits && d.inits[i].Configured?
    ensures InOrder(l, DoInitState(d, i))
  {
    hide NamesLocker, Straight;
    assert InitInOrder(l, d, d.inits[i]);
  }

  lemma InitKeepsOrder(l: Locker, d: Device, a: Action)
    requires InOrder(l, d) && OfInit(a) && !Collides(d, a)
    ensures Do(l, d, a).0 == l && InOrder(l, Do(l, d, a).1)
  {
    hide NamesLocker, Straight, InOrder;
    match a
    case InitConfig(i) => if i in d.inits && d.inits[i].Carrying? { InitConfigKeepsOrder(l, d, i); }
    case InitState(i) => if i in d.inits && d.inits[i].Configured? { InitStateKeepsOrder(l, d, i); }
    case _ => BeginKeepsOrder(l, d, a);
  }

  lemma BeginKeepsOrder(l: Locker, d: Device, a: Action)
    requires InOrder(l, d) && !Collides(d, a) && (a.InitBegin? || a.InitCarry? || a.InitCrash? || a.Open?)
    ensures Do(l, d, a).0 == l && InOrder(l, Do(l, d, a).1)
  {
    hide NamesLocker, Straight;
    NothingNames(l);
    var d' := Do(l, d, a).1;
    forall j | j in d'.inits ensures InitInOrder(l, d', d'.inits[j]) && (Moves(d'.inits[j]) ==> Moving(d)) {
      if j in d.inits { assert InitInOrder(l, d, d.inits[j]); }
    }
    if Moving(d) {
      var i :| i in d.inits && Moves(d.inits[i]);
      assert i in d'.inits && Moves(d'.inits[i]);
    }
  }

  lemma NothingNames(l: Locker)
    ensures forall p :: NamesLocker(l, p, map[])
  {}

  lemma {:induction false} OrderlyIsInOrder(w: World, events: seq<Event>, name: string)
    requires Initial(w) && name in w.devices && Orderly(w, events, name)
    ensures name in After(w, events).devices && InOrder(After(w, events).locker, After(w, events).devices[name])
    decreases |events|
  {
    hide LockerOk, Do, InOrder, Collides;
    StartOk(w);
    if events == [] {
      StartInOrder(w, name);
    } else {
      var before, e := events[..|events| - 1], events[|events| - 1];
      LockerAlwaysOk(w, before);
      OrderlyIsInOrder(w, before, name);
      var at := After(w, before);
      if e.device == name {
        if OfInit(e.action) {
          InitKeepsOrder(at.locker, at.devices[name], e.action);
        } else {
          CommandKeepsOrder(at.locker, at.devices[name], e.action);
        }
      } else if e.device in at.devices {
        LockerKeeps(at.locker, at.devices[e.device], e.action);
        InOrderStays(at.locker, Do(at.locker, at.devices[e.device], e.action).0, at.devices[name]);
      }
    }
  }

  lemma StartInOrder(w: World, name: string)
    requires Initial(w) && name in w.devices
    ensures InOrder(w.locker, w.devices[name])
  {}

  /** In such a run, records always name snapshots of the locker the home is configured for,
      but for the moment in which a re-initialization has saved its configuration only. */
  lemma RecordsNameThisLocker(w: World, events: seq<Event>, name: string, k: Key)
    requires Initial(w) && name in w.devices && Orderly(w, events, name) && name in After(w, events).devices
    requires k in After(w, events).devices[name].records && !Moving(After(w, events).devices[name])
    ensures
      var w' := After(w, events);
      var d := w'.devices[name];
      && d.records[k].remoteRev in w'.locker.snapshots
      && w'.locker.snapshots[d.records[k].remoteRev].profile == d.profile
      && Belongs(k, d.records[k].remoteRev, w'.locker.snapshots[d.records[k].remoteRev])
  {
    OrderlyIsInOrder(w, events, name);
    RunKeepsInv(w, events, name);
    var l, d := After(w, events).locker, After(w, events).devices[name];
    assert NamesIn(l, d.profile, d.records[k]);
    assert Known(l, HistoryOf(w, events, name).profiles, k, d.records[k]);
  }

  /** And what pull replaces in place, of a session it compared, was last synced with the
      locker it restores from. */
  lemma RestoresOverThisLocker(w: World, events: seq<Event>, name: string)
    requires Initial(w) && name in w.devices && Orderly(w, events, name)
    ensures
      var w' := After(w, events);
      && name in w'.devices
      && var l, d := w'.locker, w'.devices[name];
      Restores(l, d) && d.run.pull.todo[0] in d.run.pull.locals ==>
        var pull, k := d.run.pull, d.run.pull.todo[0];
        && d.run.profile == d.profile && k in pull.state
        && NamesIn(l, d.profile, pull.state[k])
  {
    OrderlyIsInOrder(w, events, name);
    RunKeepsInv(w, events, name);
  }
}
