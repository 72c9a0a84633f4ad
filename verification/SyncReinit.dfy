/** What a re-initialization does to the records of a home, and to the push and the pull that
    come after it (internal/cli/commands_impl.go, initHosted and carriedSyncState). */
module SyncReinit {
  import opened SyncMachine
  import opened SyncCommands
  import opened SyncConvergence

  // ---------------------------------------------------------------------------
  // A re-initialization that nothing disturbs
  // ---------------------------------------------------------------------------

  ghost function Undisturbed(init: nat, p: Profile, hop: bool): seq<Action> {
    [InitBegin(init, p, hop), InitCarry(init), InitConfig(init), InitState(init)]
  }

  /** The home is configured for `p`. It has the records it had if it was for `p` before, and
      the locker is the hosted one; otherwise it has none. Nothing else changes. */
  lemma ReinitIs(l: Locker, d: Device, init: nat, p: Profile, hop: bool)
    requires init !in d.inits
    ensures DoAll(l, d, Undisturbed(init, p, hop))
      == (l, d.(profile := p, records := if hop && p == d.profile then d.records else map[]))
  {
    var d1 := DoInitBegin(d, init, p, hop);
    var d2 := DoInitCarry(d1, init);
    var d3 := DoInitConfig(d2, init);
    var d4 := DoInitState(d3, init);
    assert d4.inits == d.inits;
    var all := Undisturbed(init, p, hop);
    assert all[1..] == [InitCarry(init), InitConfig(init), InitState(init)];
    assert all[1..][1..] == [InitConfig(init), InitState(init)];
    assert all[1..][1..][1..] == [InitState(init)];
    assert DoAll(l, d3, [InitState(init)]) == (l, d4);
    assert DoAll(l, d2, all[1..][1..]) == DoAll(l, d3, all[1..][1..][1..]);
    assert DoAll(l, d1, all[1..]) == DoAll(l, d2, all[1..][1..]);
  }

  /** A re-initialization for the hosted locker already in use is not noticed by the push and
      the pull after it: they upload, report and restore what they would have without it. */
  lemma SameLockerUnnoticed(l: Locker, d: Device, init: nat, ks: seq<Key>, lost: map<Key, bool>,
      inUse: set<Key>, faults: set<Key>)
    requires init !in d.inits && d.run.Idle? && forall k :: k in ks ==> k in l.Manifest(d.profile)
    ensures Listed(PullAll(l, d, ks, inUse).run)
    ensures
      var (l', d') := DoAll(l, d, Undisturbed(init, d.profile, true));
      && PushAll(l', d', ks) == PushAll(l, d, ks) && PullAll(l', d', ks, inUse) == PullAll(l, d, ks, inUse)
      && PushRun(l', PushAll(l', d', ks), lost) == PushRun(l, PushAll(l, d, ks), lost)
      && PullRun(l', PullAll(l', d', ks, inUse), faults) == PullRun(l, PullAll(l, d, ks, inUse), faults)
  {
    hide PushRun, PullRun;
    ReinitIs(l, d, init, d.profile, true);
    PullStarts(l, d, d.profile, true, ks, inUse);
    assert DoAll(l, d, Undisturbed(init, d.profile, true)) == (l, d);
  }

  /** After any other one, a push --all uploads exactly the sessions that the locker does not
      have, and reports all those it has. */
  lemma OtherwiseReported(l: Locker, d: Device, init: nat, p: Profile, hop: bool, ks: seq<Key>, k: Key)
    requires init !in d.inits && d.run.Idle? && Distinct(ks) && forall j :: j in ks ==> j in d.files
    requires !hop || p != d.profile
    ensures
      var (l', d') := DoAll(l, d, Undisturbed(init, p, hop));
      && PushAll(l', d', ks).run.Pushing?
      && var r := PushRun(l', PushAll(l', d', ks), map[]);
        && !r.failed && (k in r.uploaded <==> k in ks && k !in l.Manifest(p))
        && (k in r.conflicts <==> k in ks && k in l.Manifest(p))
  {
    hide PushRun;
    ReinitIs(l, d, init, p, hop);
    PushOutcome(l, d.(profile := p, records := map[]), ks, k);
  }

  // ---------------------------------------------------------------------------
  // Any run
  // ---------------------------------------------------------------------------

  lemma {:induction false} DeviceStays(w: World, events: seq<Event>, name: string)
    requires name in w.devices
    ensures name in After(w, events).devices
    decreases |events|
  {
    if events != [] {
      DeviceStays(w, events[..|events| - 1], name);
    }
  }

  /** The home after the first `i` events. */
  ghost function HomeAt(w: World, events: seq<Event>, name: string, i: nat): Device
    requires name in w.devices && i <= |events|
  {
    DeviceStays(w, events[..i], name);
    After(w, events[..i]).devices[name]
  }

  /** Event `i` is the beginning of the re-initialization `init` that is still under way. */
  ghost predicate BeganAt(w: World, events: seq<Event>, name: string, init: nat, i: nat)
    requires name in w.devices
  {
    && i < |events| && events[i].device == name
    && events[i].action.InitBegin? && events[i].action.init == init && init !in HomeAt(w, events, name, i).inits
    && forall x :: i < x <= |events| ==> init in HomeAt(w, events, name, x).inits
  }

  /** It is for the hosted locker that the home was configured for when it began. */
  ghost predicate Keeps(w: World, events: seq<Event>, name: string, i: nat)
    requires name in w.devices && i < |events| && events[i].action.InitBegin?
  {
    events[i].action.hop && events[i].action.p == HomeAt(w, events, name, i).profile
  }

  /** Event `j` is where it read the records. */
  ghost predicate CarriedAt(events: seq<Event>, name: string, init: nat, i: nat, j: nat) {
    && i < j < |events| && events[j] == Event(name, InitCarry(init))
    && forall x :: i < x < j ==> events[x] != Event(name, InitCarry(init))
  }

  ghost predicate NotCarried(events: seq<Event>, name: string, init: nat, i: nat) {
    forall x :: i < x < |events| ==> events[x] != Event(name, InitCarry(init))
  }

  ghost predicate Told(w: World, events: seq<Event>, name: string, init: nat, i: nat, r: Reinit)
    requires name in w.devices && i < |events| && events[i].action.InitBegin?
  {
    && r.profile == events[i].action.p
    && match r
       case Begun(_, keep) => keep == Keeps(w, events, name, i) && NotCarried(events, name, init, i)
       case _ => exists j ::
         && CarriedAt(events, name, init, i, j)
         && r.records == if Keeps(w, events, name, i) then HomeAt(w, events, name, j).records else map[]
  }

  lemma Earlier(w: World, events: seq<Event>, e: Event, name: string, i: nat)
    requires name in w.devices && i <= |events|
    ensures HomeAt(w, events + [e], name, i) == HomeAt(w, events, name, i)
  {
    assert (events + [e])[..i] == events[..i];
  }

  lemma Last(w: World, events: seq<Event>, e: Event, name: string)
    requires name in w.devices
    ensures name in After(w, events).devices && name in After(w, events + [e]).devices
    ensures HomeAt(w, events, name, |events|) == After(w, events).devices[name]
    ensures HomeAt(w, events + [e], name, |events| + 1) == After(w, events + [e]).devices[name]
    ensures After(w, events + [e]) == Step(After(w, events), e)
  {
    assert events[..|events|] == events;
    DeviceStays(w, events, name);
    DeviceStays(w, events + [e], name);
    assert (events + [e])[..|events|] == events && (events + [e])[..|events| + 1] == events + [e];
  }

  lemma AllEarlier(w: World, events: seq<Event>, e: Event, name: string)
    requires name in w.devices
    ensures forall i :: 0 <= i <= |events| ==> HomeAt(w, events + [e], name, i) == HomeAt(w, events, name, i)
  {
    forall i | 0 <= i <= |events| ensures HomeAt(w, events + [e], name, i) == HomeAt(w, events, name, i) {
      Earlier(w, events, e, name, i);
    }
  }

  /** The re-initialization is under way after one more event. */
  ghost predicate GoesOnWith(w: World, events: seq<Event>, e: Event, name: string, init: nat)
    requires name in w.devices
  {
    init in HomeAt(w, events + [e], name, |events| + 1).inits
  }

  lemma StillTold(w: World, events: seq<Event>, e: Event, name: string, init: nat, i: nat, r: Reinit)
    requires name in w.devices && BeganAt(w, events, name, init, i) && Told(w, events, name, init, i, r)
    requires GoesOnWith(w, events, e, name, init) && (r.Begun? ==> e != Event(name, InitCarry(init)))
    ensures BeganAt(w, events + [e], name, init, i) && Told(w, events + [e], name, init, i, r)
  {
    hide HomeAt;
    var all := events + [e];
    AllEarlier(w, events, e, name);
    assert all[i] == events[i];
    if !r.Begun? {
      var j :| && CarriedAt(events, name, init, i, j)
               && r.records == if Keeps(w, events, name, i) then HomeAt(w, events, name, j).records else map[];
      assert CarriedAt(all, name, init, i, j);
    }
  }

  lemma BeginTold(w: World, events: seq<Event>, name: string, init: nat, p: Profile, hop: bool)
    requires name in w.devices && init !in HomeAt(w, events, name, |events|).inits
    requires GoesOnWith(w, events, Event(name, InitBegin(init, p, hop)), name, init)
    ensures
      var all, d := events + [Event(name, InitBegin(init, p, hop))], HomeAt(w, events, name, |events|);
      && BeganAt(w, all, name, init, |events|)
      && Told(w, all, name, init, |events|, Begun(p, hop && d.profile == p))
  {
    hide HomeAt;
    AllEarlier(w, events, Event(name, InitBegin(init, p, hop)), name);
  }

  lemma CarryTold(w: World, events: seq<Event>, name: string, init: nat, i: nat, r: Reinit)
    requires name in w.devices && BeganAt(w, events, name, init, i) && Told(w, events, name, init, i, r) && r.Begun?
    requires GoesOnWith(w, events, Event(name, InitCarry(init)), name, init)
    ensures
      var all, d := events + [Event(name, InitCarry(init))], HomeAt(w, events, name, |events|);
      && BeganAt(w, all, name, init, i)
      && Told(w, all, name, init, i, Carrying(r.profile, if r.keep then d.records else map[]))
  {
    hide HomeAt;
    var e := Event(name, InitCarry(init));
    var all := events + [e];
    AllEarlier(w, events, e, name);
    assert all[i] == events[i];
    assert CarriedAt(all, name, init, i, |events|);
  }

  lemma ConfigTold(w: World, events: seq<Event>, name: string, init: nat, i: nat, r: Reinit, moved: bool)
    requires name in w.devices && BeganAt(w, events, name, init, i) && Told(w, events, name, init, i, r) && r.Carrying?
    ensures Told(w, events, name, init, i, Configured(r.profile, r.records, moved))
  {
    hide HomeAt;
  }

  predicate OfInit(a: Action) {
    a.InitBegin? || a.InitCarry? || a.InitConfig? || a.InitState? || a.InitCrash?
  }

  lemma InitsStay(l: Locker, d: Device, a: Action)
    requires !OfInit(a)
    ensures Do(l, d, a).1.inits == d.inits
  {
    hide DoPushHash, DoPushUpload, DoPushFail, DoPullDecide, DoPullRestore, DoPullRecord, DoPullFail,
      DoKeepLocalPush, DoKeepRemoteRecord;
  }

  /** What an action does to a re-initialization. */
  lemma InitNext(l: Locker, d: Device, a: Action, init: nat)
    ensures
      var d' := Do(l, d, a).1;
      init in d'.inits ==>
        if init !in d.inits then
          a.InitBegin? && a.init == init && d'.inits[init] == Begun(a.p, a.hop && d.profile == a.p)
        else if a == InitCarry(init) && d.inits[init].Begun? then
          d'.inits[init] == Carrying(d.inits[init].profile, if d.inits[init].keep then d.records else map[])
        else if a == InitConfig(init) && d.inits[init].Carrying? then
          d'.inits[init] == Configured(d.inits[init].profile, d.inits[init].records,
                                       d.inits[init].profile != d.profile)
        else d'.inits[init] == d.inits[init]
  {
    if !OfInit(a) {
      hide Do;
      InitsStay(l, d, a);
    }
  }

  lemma NothingYet(w: World, events: seq<Event>, name: string, init: nat)
    requires name in w.devices && init !in w.devices[name].inits && init in HomeAt(w, events, name, |events|).inits
    ensures events != []
  {}

  /** Whatever else goes on, the records that a re-initialization holds and will save are those
      the home had when it read them, if it is for the hosted locker that the home was
      configured for when it began, and none otherwise. */
  lemma {:induction false} HoldsWhatItRead(w: World, events: seq<Event>, name: string, init: nat) returns (i: nat)
    requires name in w.devices && init !in w.devices[name].inits
    requires init in HomeAt(w, events, name, |events|).inits
    ensures BeganAt(w, events, name, init, i)
    ensures Told(w, events, name, init, i, HomeAt(w, events, name, |events|).inits[init])
    decreases |events|
  {
    hide HomeAt, Told, BeganAt, CarriedAt, Do;
    NothingYet(w, events, name, init);
    var before, e := events[..|events| - 1], events[|events| - 1];
    assert events == before + [e];
    Last(w, before, e, name);
    var at := After(w, before);
    var d, d' := HomeAt(w, before, name, |before|), HomeAt(w, events, name, |events|);
    if e.device != name {
      assert d' == d;
      i := HoldsWhatItRead(w, before, name, init);
      StillTold(w, before, e, name, init, i, d.inits[init]);
    } else {
      InitNext(at.locker, d, e.action, init);
      if init !in d.inits {
        i := |before|;
        BeginTold(w, before, name, init, e.action.p, e.action.hop);
      } else {
        i := HoldsWhatItRead(w, before, name, init);
        if e.action == InitCarry(init) && d.inits[init].Begun? {
          CarryTold(w, before, name, init, i, d.inits[init]);
        } else {
          StillTold(w, before, e, name, init, i, d.inits[init]);
          if e.action == InitConfig(init) && d.inits[init].Carrying? {
            ConfigTold(w, events, name, init, i, d.inits[init], d'.inits[init].moved);
          }
        }
      }
    }
  }

  /** What it saves at last is therefore just that. */
  lemma SavesWhatItRead(w: World, events: seq<Event>, name: string, init: nat) returns (i: nat, j: nat)
    requires name in w.devices && init !in w.devices[name].inits
    requires
      var d := HomeAt(w, events, name, |events|);
      init in d.inits && d.inits[init].Configured?
    ensures BeganAt(w, events, name, init, i) && CarriedAt(events, name, init, i, j)
    ensures HomeAt(w, events + [Event(name, InitState(init))], name, |events| + 1).records
      == if Keeps(w, events, name, i) then HomeAt(w, events, name, j).records else map[]
  {
    hide HomeAt;
    i := HoldsWhatItRead(w, events, name, init);
    var d := HomeAt(w, events, name, |events|);
    j :| && CarriedAt(events, name, init, i, j)
         && d.inits[init].records == if Keeps(w, events, name, i) then HomeAt(w, events, name, j).records else map[];
    Last(w, events, Event(name, InitState(init)), name);
  }
}
