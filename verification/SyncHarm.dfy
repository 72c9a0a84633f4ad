/** Runs of two devices, from their very start, in which an edit that fell into one of the
    windows ends up nowhere (internal/cli/commands_impl.go). */
module SyncHarm {
  import opened Wrappers
  import opened SyncMachine
  import opened SyncWindows

  // ---------------------------------------------------------------------------
  // Telling a run as turns of one device after another
  // ---------------------------------------------------------------------------

  function Turn(name: string, actions: seq<Action>): (events: seq<Event>)
    ensures |events| == |actions|
  {
    seq(|actions|, i requires 0 <= i < |actions| => Event(name, actions[i]))
  }

  function Then(w: World, name: string, actions: seq<Action>): World
    requires name in w.devices
  {
    var (l, d) := DoAll(w.locker, w.devices[name], actions);
    World(l, w.devices[name := d])
  }

  lemma {:induction false} TurnIsARun(w: World, events: seq<Event>, name: string, actions: seq<Action>)
    requires name in After(w, events).devices
    ensures After(w, events + Turn(name, actions)) == Then(After(w, events), name, actions)
    decreases |actions|
  {
    hide Do;
    var at := After(w, events);
    if actions == [] {
      assert events + Turn(name, []) == events;
      assert at.devices[name := at.devices[name]] == at.devices;
    } else {
      var e := Event(name, actions[0]);
      assert (events + [e])[..|events|] == events;
      assert After(w, events + [e]) == Step(at, e);
      TurnIsARun(w, events + [e], name, actions[1..]);
      assert events + Turn(name, actions) == (events + [e]) + Turn(name, actions[1..]);
    }
  }

  /** `x` was the last thing the user gave `k` on `name`, and is neither in its file nor in
      any snapshot at all. */
  ghost predicate Gone(w: World, events: seq<Event>, name: string, k: Key, x: Content) {
    && NewestEdit(events, name, k, x) && name in After(w, events).devices
    && (k in After(w, events).devices[name].files ==> After(w, events).devices[name].files[k] != x)
    && forall id :: id in After(w, events).locker.snapshots ==> After(w, events).locker.snapshots[id].content != x
  }

  // ---------------------------------------------------------------------------
  // Turns
  // ---------------------------------------------------------------------------

  lemma DoOne(l: Locker, d: Device, a: Action, rest: seq<Action>)
    ensures DoAll(l, d, [a] + rest) == DoAll(Do(l, d, a).0, Do(l, d, a).1, rest)
  {
    assert ([a] + rest)[1..] == rest;
  }

  lemma OneAction(l: Locker, d: Device, a: Action)
    ensures DoAll(l, d, [a]) == Do(l, d, a)
  {
    DoOne(l, d, a, []);
    assert [a] + [] == [a];
  }

  lemma TwoActions(l: Locker, d: Device, a: Action, b: Action)
    ensures DoAll(l, d, [a, b]) == Do(Do(l, d, a).0, Do(l, d, a).1, b)
  {
    hide Do;
    DoOne(l, d, a, [b]);
    OneAction(Do(l, d, a).0, Do(l, d, a).1, b);
    assert [a] + [b] == [a, b];
  }

  lemma ThreeActions(l: Locker, d: Device, a: Action, b: Action, c: Action)
    ensures
      var (l1, d1) := Do(l, d, a);
      var (l2, d2) := Do(l1, d1, b);
      DoAll(l, d, [a, b, c]) == Do(l2, d2, c)
  {
    hide Do;
    DoOne(l, d, a, [b, c]);
    TwoActions(Do(l, d, a).0, Do(l, d, a).1, b, c);
    assert [a] + [b, c] == [a, b, c];
  }

  /** Giving the session a content and pushing that on top of whatever the head is. */
  function Put(k: Key, c: Content): seq<Action> { [Edit(k, c), Open(0), Export(0, k), KeepLocalPush, SaveLoaded] }

  /** A command that finds no other one waiting. */
  predicate Alone(d: Device) {
    d.run.Idle? && d.waiting == map[]
  }

  lemma OpenResult(d: Device)
    requires Alone(d)
    ensures DoOpen(d, 0) == d.(waiting := map[0 := d.profile]) && Free(DoOpen(d, 0), 0)
    ensures DoQuit(DoOpen(d, 0), 0) == d && DoOpen(d, 0).waiting[0] == d.profile
  {}

  lemma KeepLocalResult(l: Locker, d: Device, k: Key)
    requires d.run.KeepLocal? && d.run.key == k && k in d.files
    ensures DoAll(l, d, [KeepLocalPush, SaveLoaded])
      == (l.Advance(d.run.profile, k, d.run.exported),
          d.(run := Idle, records := d.records[k := Record(Some(d.files[k]), l.next)]))
  {
    hide DoAll;
    TwoActions(l, d, KeepLocalPush, SaveLoaded);
  }

  lemma ExportIs(l: Locker, d: Device, k: Key)
    requires Alone(d) && k in d.files
    ensures Do(l, DoOpen(d, 0), Export(0, k)) == (l, d.(run := KeepLocal(d.profile, k, d.files[k])))
  {
    OpenResult(d);
  }

  /** The last three steps of that. */
  lemma ExportedResult(l: Locker, d: Device, k: Key)
    requires Alone(d) && k in d.files
    ensures DoAll(l, DoOpen(d, 0), [Export(0, k), KeepLocalPush, SaveLoaded])
      == (l.Advance(d.profile, k, d.files[k]),
          d.(records := d.records[k := Record(Some(d.files[k]), l.next)]))
  {
    hide DoAll, Do;
    ExportIs(l, d, k);
    DoOne(l, DoOpen(d, 0), Export(0, k), [KeepLocalPush, SaveLoaded]);
    KeepLocalResult(l, d.(run := KeepLocal(d.profile, k, d.files[k])), k);
    assert [Export(0, k)] + [KeepLocalPush, SaveLoaded] == [Export(0, k), KeepLocalPush, SaveLoaded];
  }

  lemma PutResult(l: Locker, d: Device, k: Key, c: Content)
    requires Alone(d)
    ensures DoAll(l, d, Put(k, c))
      == (l.Advance(d.profile, k, c), d.(files := d.files[k := c], records := d.records[k := Record(Some(c), l.next)]))
  {
    hide DoAll, Alone;
    var d1, rest := DoEdit(d, k, c), [Export(0, k), KeepLocalPush, SaveLoaded];
    assert Put(k, c) == [Edit(k, c)] + ([Open(0)] + rest);
    DoOne(l, d, Edit(k, c), [Open(0)] + rest);
    DoOne(l, d1, Open(0), rest);
    assert Alone(d1) by { AloneStays(d, d1); }
    ExportedResult(l, d1, k);
  }

  lemma AloneStays(d: Device, d': Device)
    requires Alone(d) && d'.run == d.run && d'.waiting == d.waiting
    ensures Alone(d')
  {}

  /** A pull of one session, up to the point where it is about to restore it. */
  function Look(k: Key): seq<Action> { [Open(0), StartPull(0, true, [k], {}), PullDecide] }

  function Looked(l: Locker, d: Device, k: Key, stage: Stage): Device {
    d.(run := Pulling(d.profile, Pull(true, d.records, l.Manifest(d.profile), [k], d.files.Keys, {}, stage, [], {})))
  }

  lemma LookResult(l: Locker, d: Device, k: Key)
    requires Alone(d) && k in l.Manifest(d.profile)
    requires k in d.files ==>
      k in d.records && d.records[k].localRev == Some(d.files[k]) && d.records[k].remoteRev != l.Manifest(d.profile)[k]
    ensures DoAll(l, d, Look(k)) == (l, Looked(l, d, k, Cleared))
  {
    hide DoAll;
    OpenResult(d);
    ThreeActions(l, d, Open(0), StartPull(0, true, [k], {}), PullDecide);
    assert {} * d.files.Keys == {};
    assert DoStartPull(l, d, d.profile, true, [k], {}) == Looked(l, d, k, Deciding);
  }

  /** The restore itself, whatever has become of the file since. */
  lemma RestoreResult(l: Locker, d: Device, k: Key, files: map<Key, Content>)
    requires k in l.Manifest(d.profile) && l.Manifest(d.profile)[k] in l.snapshots
    ensures
      var c := l.snapshots[l.Manifest(d.profile)[k]].content;
      DoPullRestore(l, Looked(l, d, k, Cleared).(files := files)) == Looked(l, d, k, Placed).(files := files[k := c])
  {}

  /** And the end of a pull that has restored one session. */
  lemma EndResult(l: Locker, d: Device, k: Key)
    requires d.run.Pulling? && d.run.pull.todo == [k] && d.run.pull.stage == Placed
    requires k in d.run.pull.man && k in d.files
    ensures DoAll(l, d, [PullRecord, PullFinish])
      == (l, d.(run := Idle, records := d.run.pull.state[k := Record(Some(d.files[k]), d.run.pull.man[k])]))
  {
    hide DoAll;
    TwoActions(l, d, PullRecord, PullFinish);
  }

  lemma FinishResult(l: Locker, d: Device, k: Key, files: map<Key, Content>)
    requires d.run.Idle? && k in l.Manifest(d.profile) && k in files
    ensures
      DoAll(l, Looked(l, d, k, Placed).(files := files), [PullRecord, PullFinish])
      == (l, d.(files := files, records := d.records[k := Record(Some(files[k]), l.Manifest(d.profile)[k])]))
  {
    hide DoAll;
    EndResult(l, Looked(l, d, k, Placed).(files := files), k);
  }

  /** Turns that do not touch what the user last gave the session. */
  lemma NewestStays(events: seq<Event>, name: string, k: Key, x: Content, who: string, actions: seq<Action>)
    requires NewestEdit(events, name, k, x)
    requires forall i :: 0 <= i < |actions| ==> !Supersedes(Event(who, actions[i]), name, k)
    ensures NewestEdit(events + Turn(who, actions), name, k, x)
  {
    var all := events + Turn(who, actions);
    var i :| 0 <= i < |events| && events[i] == Event(name, Edit(k, x))
      && forall j :: i < j < |events| ==> !Supersedes(events[j], name, k);
    assert all[i] == events[i];
    forall j | i < j < |all| ensures !Supersedes(all[j], name, k) {
      if j < |events| {
        assert all[j] == events[j];
      } else {
        assert all[j] == Event(who, actions[j - |events|]);
      }
    }
  }

  lemma NewestNow(events: seq<Event>, name: string, k: Key, x: Content)
    ensures NewestEdit(events + Turn(name, [Edit(k, x)]), name, k, x)
  {
    assert (events + Turn(name, [Edit(k, x)]))[|events|] == Event(name, Edit(k, x));
  }

  // ---------------------------------------------------------------------------
  // The stage
  // ---------------------------------------------------------------------------

  const S: Key := Root("s")

  /** Two devices that have done nothing yet. */
  function Start(): World {
    World(Locker(map[], map[], 0), map["a" := Fresh("p"), "b" := Fresh("p")])
  }

  ghost predicate Unsaved(l: Locker, x: Content) {
    forall id :: id in l.snapshots ==> l.snapshots[id].content != x
  }

  /** Two devices at rest, with `l` as their storage. */
  ghost predicate AtRest(w: World, l: Locker) {
    && w.locker == l && "a" in w.devices && "b" in w.devices
    && w.devices["a"].profile == "p" && Alone(w.devices["a"])
    && w.devices["b"].profile == "p" && w.devices["b"].waiting == map[]
  }

  /** Device a puts `c` on top of the head; device b is where it was. */
  lemma PutByA(w: World, events: seq<Event>, c: Content)
    requires AtRest(After(w, events), After(w, events).locker)
    ensures
      var at, w' := After(w, events), After(w, events + Turn("a", Put(S, c)));
      AtRest(w', at.locker.Advance("p", S, c)) && w'.devices["b"] == at.devices["b"]
  {
    hide DoAll;
    TurnIsARun(w, events, "a", Put(S, c));
    var at := After(w, events);
    PutResult(at.locker, at.devices["a"], S, c);
  }

  /** Device b takes a turn. */
  lemma TurnByB(w: World, events: seq<Event>, actions: seq<Action>)
    requires AtRest(After(w, events), After(w, events).locker)
    ensures
      var at, w' := After(w, events), After(w, events + Turn("b", actions));
      var (l, d) := DoAll(at.locker, at.devices["b"], actions);
      && w'.locker == l && "b" in w'.devices && w'.devices["b"] == d
      && (d.profile == "p" && d.waiting == map[] ==> AtRest(w', l))
  {
    hide DoAll;
    TurnIsARun(w, events, "b", actions);
  }

  /** Where the locker stands after some puts. */
  lemma Advanced(l: Locker, c: Content, x: Content)
    requires Unsaved(l, x) && c != x
    ensures
      var l' := l.Advance("p", S, c);
      && Unsaved(l', x) && S in l'.Manifest("p") && l'.Manifest("p")[S] == l.next && l.next in l'.snapshots
      && l'.snapshots[l.next].content == c && l'.next == l.next + 1
  {}

  /** A device whose file and record both say "x", which no snapshot holds, while the head is
      another: a pull like any other ends it. */
  lemma Finale(w: World, events: seq<Event>) returns (all: seq<Event>)
    requires AtRest(After(w, events), After(w, events).locker) && NewestEdit(events, "b", S, "x")
    requires
      var l, d := After(w, events).locker, After(w, events).devices["b"];
      && d.run.Idle? && S in d.files && d.files[S] == "x" && S in d.records && d.records[S].localRev == Some("x")
      && S in l.Manifest("p") && l.Manifest("p")[S] in l.snapshots && d.records[S].remoteRev != l.Manifest("p")[S]
      && Unsaved(l, "x")
    ensures Gone(w, all, "b", S, "x")
  {
    hide DoAll, Do;
    var l, d := After(w, events).locker, After(w, events).devices["b"];
    TurnByB(w, events, Look(S));
    LookResult(l, d, S);
    var mid := events + Turn("b", Look(S));
    TurnByB(w, mid, [PullRestore]);
    OneAction(l, Looked(l, d, S, Cleared), PullRestore);
    RestoreIs(l, Looked(l, d, S, Cleared));
    RestoreResult(l, d, S, d.files);
    all := mid + Turn("b", [PullRestore]);
    NewestStays(events, "b", S, "x", "b", Look(S));
    NewestStays(mid, "b", S, "x", "b", [PullRestore]);
  }

  lemma RestoreIs(l: Locker, d: Device)
    ensures Do(l, d, PullRestore) == (l, DoPullRestore(l, d))
  {}

  // ---------------------------------------------------------------------------
  // The runs
  // ---------------------------------------------------------------------------

  /** a puts "1" there first. */
  lemma First() returns (events: seq<Event>)
    ensures
      var w' := After(Start(), events);
      && AtRest(w', Start().locker.Advance("p", S, "1")) && w'.devices["b"] == Fresh("p")
      && Unsaved(w'.locker, "x") && S in w'.locker.Manifest("p") && w'.locker.Manifest("p")[S] == 0
      && 0 in w'.locker.snapshots && w'.locker.snapshots[0].content == "1" && w'.locker.next == 1
  {
    assert After(Start(), []) == Start();
    PutByA(Start(), [], "1");
    events := [] + Turn("a", Put(S, "1"));
    Advanced(Start().locker, "1", "x");
  }

  /** And b has pulled it, but not recorded that yet. */
  lemma Pulled() returns (events: seq<Event>)
    ensures
      var w' := After(Start(), events);
      var l := w'.locker;
      && AtRest(w', l) && Unsaved(l, "x") && S in l.Manifest("p") && l.Manifest("p")[S] == 0 && l.next == 1
      && 0 in l.snapshots && l.snapshots[0].content == "1"
      && w'.devices["b"] == Looked(l, Fresh("p"), S, Placed).(files := map[S := "1"])
  {
    hide DoAll, Do;
    var w := Start();
    var e1 := First();
    var l := After(w, e1).locker;
    TurnByB(w, e1, Look(S));
    LookResult(l, Fresh("p"), S);
    var e2 := e1 + Turn("b", Look(S));
    TurnByB(w, e2, [PullRestore]);
    OneAction(l, Looked(l, Fresh("p"), S, Cleared), PullRestore);
    RestoreIs(l, Looked(l, Fresh("p"), S, Cleared));
    RestoreResult(l, Fresh("p"), S, map[]);
    events := e2 + Turn("b", [PullRestore]);
  }

  /** The user of b edits the session, whatever b is doing. */
  lemma EditByB(w: World, events: seq<Event>, c: Content)
    requires AtRest(After(w, events), After(w, events).locker)
    ensures
      var at, w' := After(w, events), After(w, events + Turn("b", [Edit(S, c)]));
      && AtRest(w', at.locker) && w'.devices["b"] == DoEdit(at.devices["b"], S, c)
      && NewestEdit(events + Turn("b", [Edit(S, c)]), "b", S, c)
  {
    hide DoAll;
    TurnByB(w, events, [Edit(S, c)]);
    OneAction(After(w, events).locker, After(w, events).devices["b"], Edit(S, c));
    NewestNow(events, "b", S, c);
  }

  /** Then a puts "2" there, and what b's file and record say, "x", is overwritten. */
  lemma ThenOverwritten(events: seq<Event>) returns (all: seq<Event>)
    requires
      var w' := After(Start(), events);
      && AtRest(w', w'.locker)
      && var l, d := w'.locker, w'.devices["b"];
      && Unsaved(l, "x") && d.run.Idle? && NewestEdit(events, "b", S, "x")
      && S in d.files && d.files[S] == "x" && S in d.records && d.records[S].localRev == Some("x")
      && d.records[S].remoteRev < l.next
    ensures Gone(Start(), all, "b", S, "x")
  {
    PutByA(Start(), events, "2");
    NewestStays(events, "b", S, "x", "a", Put(S, "2"));
    Advanced(After(Start(), events).locker, "2", "x");
    all := Finale(Start(), events + Turn("a", Put(S, "2")));
  }

  /** b has synced "1", a has put "2" there, and b is about to pull that. */
  lemma Outdated() returns (events: seq<Event>, d: Device)
    ensures
      var w' := After(Start(), events);
      var l := w'.locker;
      && AtRest(w', l) && Unsaved(l, "x") && w'.devices["b"] == Looked(l, d, S, Cleared) && d.profile == "p"
      && S in l.Manifest("p") && l.Manifest("p")[S] in l.snapshots && l.snapshots[l.Manifest("p")[S]].content == "2"
  {
    hide DoAll, Do;
    var w := Start();
    var e1 := Pulled();
    var l := After(w, e1).locker;
    TurnByB(w, e1, [PullRecord, PullFinish]);
    FinishResult(l, Fresh("p"), S, map[S := "1"]);
    var e2 := e1 + Turn("b", [PullRecord, PullFinish]);
    PutByA(w, e2, "2");
    Advanced(l, "2", "x");
    var e3 := e2 + Turn("a", Put(S, "2"));
    d := After(w, e3).devices["b"];
    TurnByB(w, e3, Look(S));
    LookResult(After(w, e3).locker, d, S);
    events := e3 + Turn("b", Look(S));
  }

  /** Between pull's look and its restore: the edit is overwritten at once. */
  lemma EditUnderPull() returns (events: seq<Event>)
    ensures Initial(Start()) && Gone(Start(), events, "b", S, "x")
  {
    hide DoAll, Do;
    var w := Start();
    var e1, d := Outdated();
    var l := After(w, e1).locker;
    EditByB(w, e1, "x");
    var e2 := e1 + Turn("b", [Edit(S, "x")]);
    TurnByB(w, e2, [PullRestore]);
    OneAction(l, After(w, e2).devices["b"], PullRestore);
    RestoreIs(l, After(w, e2).devices["b"]);
    assert After(w, e2).devices["b"] == Looked(l, d, S, Cleared).(files := d.files[S := "x"]);
    RestoreResult(l, d, S, d.files[S := "x"]);
    NewestStays(e2, "b", S, "x", "b", [PullRestore]);
    events := e2 + Turn("b", [PullRestore]);
  }

  /** Between pull's restore and its hash: the edit goes on record as what was synced, and the
      next pull overwrites it. */
  lemma EditBeforePullHashes() returns (events: seq<Event>)
    ensures Gone(Start(), events, "b", S, "x")
  {
    hide DoAll, Do;
    var w := Start();
    var e1 := Pulled();
    var l := After(w, e1).locker;
    EditByB(w, e1, "x");
    var e2 := e1 + Turn("b", [Edit(S, "x")]);
    TurnByB(w, e2, [PullRecord, PullFinish]);
    assert After(w, e2).devices["b"] == Looked(l, Fresh("p"), S, Placed).(files := map[S := "1"][S := "x"]);
    FinishResult(l, Fresh("p"), S, map[S := "1"][S := "x"]);
    NewestStays(e2, "b", S, "x", "b", [PullRecord, PullFinish]);
    events := ThenOverwritten(e2 + Turn("b", [PullRecord, PullFinish]));
  }

  function RestoreHead(both: bool): seq<Action> { [Open(0), KeepRemoteRestore(0, S, both)] }

  lemma RestoreHeadResult(l: Locker, d: Device, both: bool)
    requires Alone(d) && S in l.Manifest(d.profile) && l.Manifest(d.profile)[S] in l.snapshots
    ensures
      var id := l.Manifest(d.profile)[S];
      DoAll(l, d, RestoreHead(both))
      == (l, d.(files := d.files[Target(S, id, both) := l.snapshots[id].content],
        run := KeepRemote(d.profile, Target(S, id, both), id)))
  {
    hide DoAll;
    OpenResult(d);
    TwoActions(l, d, Open(0), KeepRemoteRestore(0, S, both));
  }

  lemma RecordHeadResult(l: Locker, d: Device)
    requires d.run.KeepRemote? && d.run.target in d.files
    ensures DoAll(l, d, [KeepRemoteRecord, SaveLoaded])
      == (l, d.(run := Idle, records := d.records[d.run.target := Record(Some(d.files[d.run.target]), d.run.id)]))
  {
    hide DoAll;
    TwoActions(l, d, KeepRemoteRecord, SaveLoaded);
  }

  /** Between keep-remote's restore and its hash: the same. */
  lemma EditBeforeKeepRemoteHashes() returns (events: seq<Event>)
    ensures Gone(Start(), events, "b", S, "x")
  {
    hide DoAll, Do;
    var w := Start();
    var e1 := First();
    var l := After(w, e1).locker;
    TurnByB(w, e1, RestoreHead(false));
    RestoreHeadResult(l, Fresh("p"), false);
    var e2 := e1 + Turn("b", RestoreHead(false));
    EditByB(w, e2, "x");
    var e3 := e2 + Turn("b", [Edit(S, "x")]);
    TurnByB(w, e3, [KeepRemoteRecord, SaveLoaded]);
    RecordHeadResult(l, After(w, e3).devices["b"]);
    NewestStays(e3, "b", S, "x", "b", [KeepRemoteRecord, SaveLoaded]);
    events := ThenOverwritten(e3 + Turn("b", [KeepRemoteRecord, SaveLoaded]));
  }

  lemma ExportResult(l: Locker, d: Device)
    requires Alone(d) && S in d.files
    ensures DoAll(l, d, [Open(0), Export(0, S)]) == (l, d.(run := KeepLocal(d.profile, S, d.files[S])))
  {
    hide DoAll;
    OpenResult(d);
    TwoActions(l, d, Open(0), Export(0, S));
  }

  /** Between keep-local's export and its hash: what was exported is pushed, but the edit goes
      on record, and the next pull overwrites it. */
  lemma EditBeforeKeepLocalHashes() returns (events: seq<Event>)
    ensures Gone(Start(), events, "b", S, "x")
  {
    hide DoAll, Do;
    var w := Start();
    var e1 := First();
    EditByB(w, e1, "y");
    var e2 := e1 + Turn("b", [Edit(S, "y")]);
    TurnByB(w, e2, [Open(0), Export(0, S)]);
    ExportResult(After(w, e2).locker, After(w, e2).devices["b"]);
    var e3 := e2 + Turn("b", [Open(0), Export(0, S)]);
    EditByB(w, e3, "x");
    var e4 := e3 + Turn("b", [Edit(S, "x")]);
    TurnByB(w, e4, [KeepLocalPush, SaveLoaded]);
    KeepLocalResult(After(w, e4).locker, After(w, e4).devices["b"], S);
    Advanced(After(w, e4).locker, "y", "x");
    NewestStays(e4, "b", S, "x", "b", [KeepLocalPush, SaveLoaded]);
    events := ThenOverwritten(e4 + Turn("b", [KeepLocalPush, SaveLoaded]));
  }

  /** A push of a session never synced, up to the point where its file has been hashed. */
  function Hash(): seq<Action> { [Open(0), StartPush(0, true, [S]), PushHash] }

  lemma HashResult(l: Locker, d: Device)
    requires Alone(d) && S in d.files && d.records == map[] && l.Manifest(d.profile) == map[]
    ensures DoAll(l, d, Hash())
      == (l, d.(run := Pushing(d.profile, Push(true, map[], map[], map[], [S], Some(d.files[S]), [], {}))))
  {
    hide DoAll;
    OpenResult(d);
    ThreeActions(l, d, Open(0), StartPush(0, true, [S]), PushHash);
    assert DoStartPush(l, d, d.profile, true, [S])
      == d.(run := Pushing(d.profile, Push(true, map[], map[], map[], [S], None, [], {})));
  }

  /** And the rest of that push. */
  lemma UploadResult(l: Locker, d: Device, h: Content)
    requires d.run == Pushing(d.profile, Push(true, map[], map[], map[], [S], Some(h), [], {}))
    requires S in d.files && l.Manifest(d.profile) == map[]
    ensures DoAll(l, d, [PushUpload(false), PushFinish(false)])
      == (l.Advance(d.profile, S, d.files[S]), d.(run := Idle, records := map[S := Record(Some(h), l.next)]))
  {
    hide DoAll;
    TwoActions(l, d, PushUpload(false), PushFinish(false));
    var l1, d1 := Do(l, d, PushUpload(false)).0, Do(l, d, PushUpload(false)).1;
    assert l1 == l.Advance(d.profile, S, d.files[S]);
    assert d1.run.push == Push(true, map[], map[S := Record(Some(h), l.next)], map[], [], None, [S], {});
  }

  /** Between push's hash and its export: the edit is uploaded, but what was hashed goes on
      record. Returning to that is what the next pull overwrites. */
  lemma ReturnAfterPush() returns (events: seq<Event>)
    ensures Gone(Start(), events, "b", S, "x")
  {
    hide DoAll, Do;
    var w := Start();
    var hash, upload := Hash(), [PushUpload(false), PushFinish(false)];
    assert After(w, []) == w;
    EditByB(w, [], "x");
    var e1 := [] + Turn("b", [Edit(S, "x")]);
    TurnByB(w, e1, hash);
    HashResult(w.locker, After(w, e1).devices["b"]);
    var e2 := e1 + Turn("b", hash);
    EditByB(w, e2, "y");
    var e3 := e2 + Turn("b", [Edit(S, "y")]);
    TurnByB(w, e3, upload);
    UploadResult(w.locker, After(w, e3).devices["b"], "x");
    Advanced(w.locker, "y", "x");
    var e4 := e3 + Turn("b", upload);
    EditByB(w, e4, "x");
    events := ThenOverwritten(e4 + Turn("b", [Edit(S, "x")]));
  }

  lemma EditForkResult(l: Locker, d: Device, k: Key, c: Content)
    ensures DoAll(l, d, [Edit(k, c)]) == (l, DoEdit(d, k, c))
  {
    OneAction(l, d, Edit(k, c));
  }

  /** And keep-both, asked for again, overwrites the fork it made, although that was edited. */
  lemma EditedForkOverwritten() returns (events: seq<Event>)
    ensures Gone(Start(), events, "b", Fork("remote", S, 0), "x")
  {
    hide DoAll, Do;
    var w, fork := Start(), Fork("remote", S, 0);
    var e1 := First();
    var l := After(w, e1).locker;
    TurnByB(w, e1, RestoreHead(true));
    RestoreHeadResult(l, Fresh("p"), true);
    var e2 := e1 + Turn("b", RestoreHead(true));
    TurnByB(w, e2, [KeepRemoteRecord, SaveLoaded]);
    RecordHeadResult(l, After(w, e2).devices["b"]);
    var e3 := e2 + Turn("b", [KeepRemoteRecord, SaveLoaded]);
    TurnByB(w, e3, [Edit(fork, "x")]);
    EditForkResult(l, After(w, e3).devices["b"], fork, "x");
    NewestNow(e3, "b", fork, "x");
    var e4 := e3 + Turn("b", [Edit(fork, "x")]);
    TurnByB(w, e4, RestoreHead(true));
    RestoreHeadResult(l, After(w, e4).devices["b"], true);
    NewestStays(e4, "b", fork, "x", "b", RestoreHead(true));
    events := e4 + Turn("b", RestoreHead(true));
  }

  // ---------------------------------------------------------------------------
  // Re-initialization at the wrong time
  // ---------------------------------------------------------------------------

  /** Two devices that are to share one locker, and one with another. */
  function Company(): World {
    World(Locker(map[], map[], 0), map["a" := Fresh("p"), "b" := Fresh("p"), "c" := Fresh("q")])
  }

  ghost predicate At(w: World, l: Locker, a: Device, b: Device, c: Device) {
    && w.locker == l && "a" in w.devices && "b" in w.devices && "c" in w.devices
    && w.devices["a"] == a && w.devices["b"] == b && w.devices["c"] == c
  }

  lemma TurnOf(w: World, events: seq<Event>, name: string, l: Locker, a: Device, b: Device, c: Device,
      actions: seq<Action>)
    requires At(After(w, events), l, a, b, c) && name in {"a", "b", "c"}
    ensures
      var at := After(w, events).devices;
      && name in at
      && var (l', d) := DoAll(l, at[name], actions);
      At(After(w, events + Turn(name, actions)), l', if name == "a" then d else a, if name == "b" then d else b,
        if name == "c" then d else c)
  {
    hide DoAll;
    TurnIsARun(w, events, name, actions);
  }

  /** A re-initialization with another profile, at one go but for its last step. */
  function Reinitialize(p: Profile): seq<Action> { [InitBegin(0, p, true), InitCarry(0), InitConfig(0)] }

  lemma ReinitResult(l: Locker, d: Device, p: Profile)
    requires d.inits == map[] && p != d.profile
    ensures DoAll(l, d, Reinitialize(p)) == (l, d.(profile := p, inits := map[0 := Configured(p, map[], true)]))
  {
    hide DoAll;
    ThreeActions(l, d, InitBegin(0, p, true), InitCarry(0), InitConfig(0));
    var begun, carrying := Begun(p, false), Carrying(p, map[]);
    assert DoInitBegin(d, 0, p, true) == d.(inits := map[0 := begun]);
    assert DoInitCarry(d.(inits := map[0 := begun]), 0) == d.(inits := map[0 := carrying]);
    assert DoInitConfig(d.(inits := map[0 := carrying]), 0)
      == d.(profile := p, inits := map[0 := Configured(p, map[], true)]);
  }

  lemma LastStepResult(l: Locker, d: Device, p: Profile)
    requires d.inits == map[0 := Configured(p, map[], true)]
    ensures DoAll(l, d, [InitState(0)]) == (l, d.(records := map[], inits := map[]))
    ensures DoAll(l, d, [InitCrash(0)]) == (l, d.(inits := map[]))
  {
    OneAction(l, d, InitState(0));
    OneAction(l, d, InitCrash(0));
  }

  /** What the two lockers come to hold. */
  function Stocked(): Locker {
    Locker(map[], map[], 0).Advance("p", S, "1").Advance("q", S, "2")
  }

  lemma StockedIs()
    ensures
      var l := Stocked();
      && S in l.Manifest("p") && l.Manifest("p")[S] == 0 && S in l.Manifest("q") && l.Manifest("q")[S] == 1
      && 0 in l.snapshots && l.snapshots[0] == Snapshot("p", S, "1", None)
      && 1 in l.snapshots && l.snapshots[1] == Snapshot("q", S, "2", None)
  {}

  /** a puts "1" into one locker, and c puts "2" into the other. */
  lemma BothPut() returns (events: seq<Event>, a: Device, c: Device)
    ensures At(After(Company(), events), Stocked(), a, Fresh("p"), c)
  {
    hide DoAll, Do, Stocked;
    var w, l0 := Company(), Company().locker;
    assert At(After(w, []), l0, Fresh("p"), Fresh("p"), Fresh("q"));
    TurnOf(w, [], "a", l0, Fresh("p"), Fresh("p"), Fresh("q"), Put(S, "1"));
    PutResult(l0, Fresh("p"), S, "1");
    var e1, l1 := [] + Turn("a", Put(S, "1")), l0.Advance("p", S, "1");
    a := DoAll(l0, Fresh("p"), Put(S, "1")).1;
    TurnOf(w, e1, "c", l1, a, Fresh("p"), Fresh("q"), Put(S, "2"));
    PutResult(l1, Fresh("q"), S, "2");
    events := e1 + Turn("c", Put(S, "2"));
    c := DoAll(l1, Fresh("q"), Put(S, "2")).1;
    assert Stocked() == l1.Advance("q", S, "2") by { StockedBy(); }
  }

  lemma StockedBy()
    ensures Stocked() == Company().locker.Advance("p", S, "1").Advance("q", S, "2")
  {}

  /** And b has pulled "1", but not recorded that yet. */
  function HalfWay(): Device {
    Looked(Stocked(), Fresh("p"), S, Placed).(files := map[S := "1"])
  }

  lemma ThenPulled() returns (events: seq<Event>, a: Device, c: Device)
    ensures At(After(Company(), events), Stocked(), a, HalfWay(), c)
  {
    hide DoAll, Do, Stocked;
    StockedIs();
    var w, l := Company(), Stocked();
    var e1;
    e1, a, c := BothPut();
    TurnOf(w, e1, "b", l, a, Fresh("p"), c, Look(S));
    LookResult(l, Fresh("p"), S);
    var e2 := e1 + Turn("b", Look(S));
    TurnOf(w, e2, "b", l, a, Looked(l, Fresh("p"), S, Cleared), c, [PullRestore]);
    OneAction(l, Looked(l, Fresh("p"), S, Cleared), PullRestore);
    RestoreIs(l, Looked(l, Fresh("p"), S, Cleared));
    RestoreResult(l, Fresh("p"), S, map[]);
    events := e2 + Turn("b", [PullRestore]);
  }

  /** A home that is configured for one locker, with a record that names the other. */
  function Mixed(): Device {
    Device("q", map[S := "1"], map[S := Record(Some("1"), 0)], Idle, map[], map[])
  }

  lemma ThenMixed() returns (events: seq<Event>, a: Device, c: Device)
    ensures At(After(Company(), events), Stocked(), a, Mixed(), c)
  {
    hide DoAll, Do, Stocked;
    StockedIs();
    var w, l, d0 := Company(), Stocked(), HalfWay();
    var e1;
    e1, a, c := ThenPulled();
    TurnOf(w, e1, "b", l, a, d0, c, Reinitialize("q"));
    ReinitResult(l, d0, "q");
    var e2, d1 := e1 + Turn("b", Reinitialize("q")), DoAll(l, d0, Reinitialize("q")).1;
    TurnOf(w, e2, "b", l, a, d1, c, [InitState(0)]);
    LastStepResult(l, d1, "q");
    var e3, d2 := e2 + Turn("b", [InitState(0)]), d1.(records := map[], inits := map[]);
    TurnOf(w, e3, "b", l, a, d2, c, [PullRecord, PullFinish]);
    EndResult(l, d2, S);
    events := e3 + Turn("b", [PullRecord, PullFinish]);
  }

  /** While b is about to record what it pulled from one locker, its home is re-initialized
      for the other. Then b records that all the same, and its records name the wrong
      locker. */
  lemma InitUnderPull() returns (events: seq<Event>)
    ensures Initial(Company())
    ensures
      var w := After(Company(), events);
      && "b" in w.devices && w.devices["b"] == Mixed() && Mixed().profile == "q" && Mixed().records[S].remoteRev == 0
      && 0 in w.locker.snapshots && w.locker.snapshots[0].profile == "p"
  {
    StockedIs();
    var a, c;
    events, a, c := ThenMixed();
  }

  /** The next pull then takes the session for one it last synced there, and overwrites it with
      what somebody else put there, without a conflict. */
  lemma OverwrittenUnreported() returns (events: seq<Event>)
    ensures
      var w := After(Company(), events);
      && "b" in w.devices && w.devices["b"].files == map[S := "2"] && w.devices["b"].profile == "q"
      && w.devices["b"].run.Pulling? && w.devices["b"].run.pull.conflicts == {}
  {
    hide DoAll, Do, Stocked;
    StockedIs();
    var w, l, d := Company(), Stocked(), Mixed();
    var mixed, a, c := ThenMixed();
    TurnOf(w, mixed, "b", l, a, d, c, Look(S));
    LookResult(l, d, S);
    var e4 := mixed + Turn("b", Look(S));
    TurnOf(w, e4, "b", l, a, Looked(l, d, S, Cleared), c, [PullRestore]);
    OneAction(l, Looked(l, d, S, Cleared), PullRestore);
    RestoreIs(l, Looked(l, d, S, Cleared));
    RestoreResult(l, d, S, map[S := "1"]);
    events := e4 + Turn("b", [PullRestore]);
  }

  /** The same when the re-initialization ends between saving its configuration and saving the
      records. */
  lemma InitCutShort() returns (mixed: seq<Event>)
    ensures
      var w := After(Company(), mixed);
      && "b" in w.devices && w.devices["b"].run.Idle? && w.devices["b"].inits == map[]
      && w.devices["b"].profile == "q" && w.devices["b"].records == map[S := Record(Some("1"), 0)]
      && 0 in w.locker.snapshots && w.locker.snapshots[0].profile == "p"
  {
    hide DoAll, Do, Stocked;
    StockedIs();
    var w, l, d0 := Company(), Stocked(), HalfWay();
    var e1, a, c := ThenPulled();
    TurnOf(w, e1, "b", l, a, d0, c, [PullRecord, PullFinish]);
    EndResult(l, d0, S);
    var e2, d1 := e1 + Turn("b", [PullRecord, PullFinish]), DoAll(l, d0, [PullRecord, PullFinish]).1;
    TurnOf(w, e2, "b", l, a, d1, c, Reinitialize("q"));
    ReinitResult(l, d1, "q");
    var e3, d2 := e2 + Turn("b", Reinitialize("q")), DoAll(l, d1, Reinitialize("q")).1;
    TurnOf(w, e3, "b", l, a, d2, c, [InitCrash(0)]);
    LastStepResult(l, d2, "q");
    mixed := e3 + Turn("b", [InitCrash(0)]);
  }
}
