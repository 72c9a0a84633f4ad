/** The windows between looking at a session file and acting on it: exactly when an edit that
    falls into one comes to harm, and runs in which it does (internal/cli/commands_impl.go). */
module SyncWindows {
  import opened Wrappers
  import opened SyncMachine
  import opened SyncSafety

  // ---------------------------------------------------------------------------
  // When a record says what was synced
  // ---------------------------------------------------------------------------

  /** The record a command writes is faithful exactly if the file did not change in its window:
      push's, between hashing the file and exporting it, and what was exported is in the
      snapshot either way; pull's, between restoring the file and hashing it; keep-local's,
      between exporting and hashing; and keep-remote's and keep-both's, as pull's. */
  lemma RecordsFaithfulExactly(l: Locker, d: Device, orphan: bool)
    ensures Uploads(l, d) ==>
      var k, r := d.run.push.todo[0], DoPushUpload(l, d, orphan);
      && r.1.run.Pushing? && k in r.1.run.push.state
      && r.0.snapshots[l.next].content == d.files[k] && r.0.snapshots[l.next].key == k
      && (Faithful(r.0, r.1.run.push.state[k]) <==> d.files[k] == d.run.push.hashed.value)
    ensures Records(d) && d.run.pull.man[d.run.pull.todo[0]] in l.snapshots ==>
      var k, d' := d.run.pull.todo[0], DoPullRecord(d);
      && d'.run.Pulling? && k in d'.run.pull.state
      && (Faithful(l, d'.run.pull.state[k]) <==> d.files[k] == l.snapshots[d.run.pull.man[k]].content)
    ensures d.run.KeepLocal? && d.run.key in d.files ==>
      var k, r := d.run.key, DoKeepLocalPush(l, d);
      && r.1.run.Saving? && k in r.1.run.state
      && (Faithful(r.0, r.1.run.state[k]) <==> d.files[k] == d.run.exported)
    ensures d.run.KeepRemote? && d.run.target in d.files && d.run.id in l.snapshots ==>
      var k, d' := d.run.target, DoKeepRemoteRecord(d);
      && d'.run.Saving? && k in d'.run.state
      && (Faithful(l, d'.run.state[k]) <==> d.files[k] == l.snapshots[d.run.id].content)
  {}

  // ---------------------------------------------------------------------------
  // When a restore overwrites what was synced
  // ---------------------------------------------------------------------------

  /** The file is what is on record. */
  predicate AsRecorded(d: Device, r: Record, k: Key) {
    k in d.files && r.localRev == Some(d.files[k])
  }

  /** What is on record is what the snapshot on record holds. */
  predicate RecordedAsSynced(l: Locker, r: Record) {
    r.remoteRev in l.snapshots && r.localRev == Some(l.snapshots[r.remoteRev].content)
  }

  /** The file is what the snapshot on record holds. */
  predicate AsSynced(l: Locker, d: Device, r: Record, k: Key) {
    k in d.files && r.remoteRev in l.snapshots && d.files[k] == l.snapshots[r.remoteRev].content
  }

  /** In every run, when pull is about to restore over a session that was here when it began:
      the file is what is on record unless it was touched since pull looked at it, and what is
      on record is what was synced unless the record is tainted. What pull overwrites is the
      snapshot on record exactly if both hold, provided not both have failed. */
  lemma RestoreOverwritesSyncedExactly(w: World, events: seq<Event>, name: string)
    requires Initial(w) && name in w.devices
    ensures
      var w', h := After(w, events), HistoryOf(w, events, name);
      && name in w'.devices
      && var l, d := w'.locker, w'.devices[name];
      Restores(l, d) && d.run.pull.todo[0] in d.run.pull.locals && d.run.pull.todo[0] in d.files ==>
        var pull, k := d.run.pull, d.run.pull.todo[0];
        && k in pull.state
        && var r := pull.state[k];
        && (!h.touched ==> AsRecorded(d, r, k))
        && ((k, r) !in h.tainted ==> RecordedAsSynced(l, r))
        && (AsRecorded(d, r, k) || RecordedAsSynced(l, r) ==>
          (AsSynced(l, d, r, k) <==> AsRecorded(d, r, k) && RecordedAsSynced(l, r)))
  {
    RunKeepsInv(w, events, name);
    var w', h := After(w, events), HistoryOf(w, events, name);
    var l, d := w'.locker, w'.devices[name];
    if Restores(l, d) && d.run.pull.todo[0] in d.run.pull.locals {
      var r := d.run.pull.state[d.run.pull.todo[0]];
      assert Known(l, h.profiles, d.run.pull.todo[0], r);
      assert (d.run.pull.todo[0], r) !in h.tainted ==> Faithful(l, r);
    }
  }

  /** The same for keep-both, when it is about to restore over the fork it once made. */
  lemma KeepBothOverwritesSyncedExactly(w: World, events: seq<Event>, name: string, cmd: nat, k: Key)
    requires Initial(w) && name in w.devices
    ensures
      var w', h := After(w, events), HistoryOf(w, events, name);
      && name in w'.devices
      && var l, d := w'.locker, w'.devices[name];
      RestoresHead(l, d, cmd, k) ==>
        var id := l.Manifest(d.waiting[cmd])[k];
        var fork := Fork("remote", k, id);
        fork in d.records && d.records[fork].remoteRev == id && d.records[fork].localRev.Some? ==>
          var r := d.records[fork];
          && (AsRecorded(d, r, fork) || RecordedAsSynced(l, r) ==>
            (AsSynced(l, d, r, fork) <==> AsRecorded(d, r, fork) && RecordedAsSynced(l, r)))
          && ((fork, r) !in h.tainted ==> RecordedAsSynced(l, r))
          && (fork in d.files ==> (OverwritesFork(l, d, cmd, k) <==> !AsSynced(l, d, r, fork)))
  {
    RunKeepsInv(w, events, name);
    var w', h := After(w, events), HistoryOf(w, events, name);
    var l, d := w'.locker, w'.devices[name];
    if RestoresHead(l, d, cmd, k) {
      var fork := Fork("remote", k, l.Manifest(d.waiting[cmd])[k]);
      if fork in d.records {
        assert Known(l, h.profiles, fork, d.records[fork]);
        assert (fork, d.records[fork]) !in h.tainted ==> Faithful(l, d.records[fork]);
      }
    }
  }

  // ---------------------------------------------------------------------------
  // The newest edit
  // ---------------------------------------------------------------------------

  /** `e` replaces or withdraws what the user last gave `k`. */
  predicate Supersedes(e: Event, name: string, k: Key) {
    e.device == name
    && match e.action
       case Edit(j, _) => j == k
       case Delete(j) => j == k
       case KeepRemoteRestore(_, j, both) => j == k && !both
       case _ => false
  }

  /** In the run `events`, `c` is what the user last gave session `k` on device `name`. */
  ghost predicate NewestEdit(events: seq<Event>, name: string, k: Key, c: Content) {
    exists i ::
      && 0 <= i < |events| && events[i] == Event(name, Edit(k, c))
      && forall j :: i < j < |events| ==> !Supersedes(events[j], name, k)
  }

  lemma {:induction false} NewestEditIsKnown(w: World, events: seq<Event>, name: string, k: Key, c: Content)
    requires name in w.devices && NewestEdit(events, name, k, c)
    ensures k in HistoryOf(w, events, name).edits && HistoryOf(w, events, name).edits[k] == c
    decreases |events|
  {
    hide Do, Track;
    var n := |events| - 1;
    var before, e := events[..n], events[n];
    NamesStay(w, before);
    var at, h := After(w, before), HistoryOf(w, before, name);
    if Supersedes(e, name, k) {
      assert e == Event(name, Edit(k, c));
      EditIsTracked(at.locker, at.devices[name], h, k, c);
    } else {
      var i :| 0 <= i < |events| && events[i] == Event(name, Edit(k, c))
        && forall j :: i < j < |events| ==> !Supersedes(events[j], name, k);
      assert Supersedes(events[i], name, k);
      assert i < n && before[i] == events[i];
      assert forall j :: i < j < n ==> !Supersedes(before[j], name, k);
      NewestEditIsKnown(w, before, name, k, c);
      if e.device == name { OthersLeaveEdits(at.locker, at.devices[name], h, e, k); }
    }
  }

  lemma EditIsTracked(l: Locker, d: Device, h: History, k: Key, c: Content)
    ensures Track(l, d, h, Edit(k, c)).edits == h.edits[k := c]
  {}

  lemma OthersLeaveEdits(l: Locker, d: Device, h: History, e: Event, k: Key)
    requires !Supersedes(e, e.device, k) && k in h.edits
    ensures k in Track(l, d, h, e.action).edits && Track(l, d, h, e.action).edits[k] == h.edits[k]
  {
    hide Do;
  }

  lemma {:induction false} NamesStay(w: World, events: seq<Event>)
    ensures After(w, events).devices.Keys == w.devices.Keys
    decreases |events|
  {
    hide Do;
    if events != [] { NamesStay(w, events[..|events| - 1]); }
  }

  /** In terms of the run alone: what the user last gave a session is in its file or saved,
      unless a restore that went wrong overwrote it. */
  lemma NewestEditKept(w: World, events: seq<Event>, name: string, k: Key, c: Content)
    requires Initial(w) && name in w.devices && NewestEdit(events, name, k, c)
    requires k !in HistoryOf(w, events, name).lost
    ensures
      var w' := After(w, events);
      && name in w'.devices
      && ((k in w'.devices[name].files && w'.devices[name].files[k] == c)
          || Saved(w'.locker, HistoryOf(w, events, name).profiles, k, c))
  {
    NewestEditIsKnown(w, events, name, k, c);
    NoLostEdits(w, events, name, k);
  }

  // ---------------------------------------------------------------------------
  // Runs in which nothing falls into a window
  // ---------------------------------------------------------------------------

  /** The step puts an edit under a command: on the session it has looked at, or on one it has
      yet to restore and did not find when it began; or it is keep-both over an edited fork. */
  predicate FallsIn(l: Locker, d: Device, a: Action) {
    match a
    case Edit(k, _) => Watched(d, k) || (d.run.Pulling? && k !in d.run.pull.locals)
    case KeepRemoteRestore(cmd, k, both) => both && RestoresHead(l, d, cmd, k) && OverwritesFork(l, d, cmd, k)
    case _ => false
  }

  ghost predicate Quiet(w: World, events: seq<Event>, name: string) {
    forall i :: 0 <= i < |events| && events[i].device == name && name in After(w, events[..i]).devices ==>
      !FallsIn(After(w, events[..i]).locker, After(w, events[..i]).devices[name], events[i].action)
  }

  ghost predicate Clean(d: Device, h: History) {
    && h.lost == {} && !h.touched && h.tainted == {}
    && (d.run.Pulling? ==> forall k :: k in h.created ==> k in d.run.pull.locals)
  }

  lemma LocalsStay(l: Locker, d: Device, a: Action)
    ensures Do(l, d, a).1.run.Pulling? ==>
      (a.StartPull? && Free(d, a.cmd)) || (d.run.Pulling? && Do(l, d, a).1.run.pull.locals == d.run.pull.locals)
  {
    hide DoPushHash, DoPushUpload, DoPushFail, DoKeepLocalPush, DoKeepRemoteRecord;
  }

  lemma StepStaysClean(l: Locker, d: Device, h: History, a: Action)
    requires Clean(d, h) && !FallsIn(l, d, a)
    ensures Clean(Do(l, d, a).1, Track(l, d, h, a))
  {
    hide Do;
    LocalsStay(l, d, a);
    forall k ensures k !in Track(l, d, h, a).lost { LostExactly(l, d, h, a, k); }
    if Track(l, d, h, a).touched { TouchedExactly(l, d, h, a); }
  }

  lemma {:induction false} QuietStaysClean(w: World, events: seq<Event>, name: string)
    requires Initial(w) && name in w.devices && Quiet(w, events, name)
    ensures name in After(w, events).devices && Clean(After(w, events).devices[name], HistoryOf(w, events, name))
    decreases |events|
  {
    hide Do, Track, Clean, FallsIn;
    if events == [] {
      FreshIsClean(w, name);
    } else {
      var n := |events| - 1;
      forall i | 0 <= i < n && events[..n][i].device == name && name in After(w, events[..n][..i]).devices
        ensures !FallsIn(After(w, events[..n][..i]).locker, After(w, events[..n][..i]).devices[name],
          events[..n][i].action)
      {
        assert events[..n][..i] == events[..i];
      }
      QuietStaysClean(w, events[..n], name);
      var at, e := After(w, events[..n]), events[n];
      if e.device == name {
        StepStaysClean(at.locker, at.devices[name], HistoryOf(w, events[..n], name), e.action);
      }
    }
  }

  lemma FreshIsClean(w: World, name: string)
    requires Initial(w) && name in w.devices
    ensures Clean(After(w, []).devices[name], HistoryOf(w, [], name))
  {}

  /** In a run in which nothing falls into a window on a device, none of its edits is ever
      lost, whatever other devices do. */
  lemma QuietLosesNothing(w: World, events: seq<Event>, name: string, k: Key, c: Content)
    requires Initial(w) && name in w.devices && Quiet(w, events, name) && NewestEdit(events, name, k, c)
    ensures
      var w' := After(w, events);
      && name in w'.devices
      && ((k in w'.devices[name].files && w'.devices[name].files[k] == c)
          || Saved(w'.locker, HistoryOf(w, events, name).profiles, k, c))
  {
    QuietStaysClean(w, events, name);
    NewestEditKept(w, events, name, k, c);
  }
}
