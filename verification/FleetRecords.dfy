/** The enrolment record of a device over its runs: what its histories say as long as no save
    undoes another, what a command falls back on without an answer, and the runs in which that
    fails (internal/cli/account.go, internal/cli/keyring_floor.go). */
module FleetRecords {
  import opened Wrappers
  import opened Keyring
  import opened KeyringFloor
  import opened Fleet

  // ---------------------------------------------------------------------------
  // The histories
  // ---------------------------------------------------------------------------

  function Max(s: seq<nat>): nat {
    if s == [] then 0 else Raised(Max(s[..|s| - 1]), s[|s| - 1])
  }

  /** A keyring this device may have recorded. */
  ghost predicate Genuine(signed: set<Header>, a: Account, k: Keyring) {
    k.Parses() && k.accountKey == a.accountKey && Authentic(k, signed)
  }

  /** `k'` was appended to from `k`, or is `k`. */
  ghost predicate Appended(k: Keyring, k': Keyring) {
    k.current <= k'.current && AgreeUpTo(k, k', k.current)
  }

  /** The record is what the histories say. */
  ghost predicate DeviceOk(account: Key, signed: set<Header>, d: Device) {
    match d.account
    case None => d.accepted == [] && d.floors == []
    case Some(a) =>
      && ValidAccount(a) && d.accepted != []
      && (forall i :: 0 <= i < |d.accepted| ==> Genuine(signed, a, d.accepted[i]))
      && var last := d.accepted[|d.accepted| - 1];
      && last.current == a.generation && last.Recipient(a.generation) == a.recipient
      && (a.accountKey == account ==> forall i, j :: 0 <= i < j < |d.accepted| ==>
        Appended(d.accepted[i], d.accepted[j]))
      && a.confirmed == Max(d.floors)
  }

  /** The record has not changed since the command loaded it, or is to be replaced anyhow. */
  ghost predicate FreshSave(d: Device, id: nat) {
    id in d.commands && d.commands[id].write.Some? ==>
      d.commands[id].write.value.note.OfEnrolment? || d.commands[id].write.value.base == d.account
  }

  /** On this device, no command saves a record it loaded before another save changed it. */
  ghost predicate FreshSaves(w: World, events: seq<Event>, name: string)
    decreases |events|
  {
    events == []
    || (var before, e := events[..|events| - 1], events[|events| - 1];
        && FreshSaves(w, before, name)
        && (e.Save? && e.device == name && name in After(w, before).devices ==>
          FreshSave(After(w, before).devices[name], e.id)))
  }

  predicate Replaces(e: Event, name: string) {
    (e.Save? || e.Forget?) && e.device == name
  }

  /** Only saving and forgetting change the record, and what a command is about to save was
      made from the record as it is when the command loads it. */
  lemma LoadsCurrent(w: World, e: Event, name: string, id: nat)
    requires name in w.devices && !Replaces(e, name) && FreshSave(w.devices[name], id)
    ensures
      && name in Step(w, e).devices && FreshSave(Step(w, e).devices[name], id)
      && Step(w, e).devices[name].account == w.devices[name].account
  {
    hide Uses, Rolls, RecordAllows, Joins, Recovers;
    OthersStay(w, e);
  }

  /** So a command's save is fresh if nobody else saves on that device between its load and
      that. */
  lemma {:induction false} UndisturbedIsFresh(w: World, events: seq<Event>, m: nat, name: string, id: nat)
    requires m <= |events| && name in After(w, events[..m]).devices
    requires FreshSave(After(w, events[..m]).devices[name], id)
    requires forall i :: m <= i < |events| ==> !Replaces(events[i], name)
    ensures name in After(w, events).devices && FreshSave(After(w, events).devices[name], id)
    decreases |events|
  {
    hide Step, FreshSave;
    if m == |events| {
      assert events[..m] == events;
    } else {
      var before := events[..|events| - 1];
      assert before[..m] == events[..m];
      forall i | m <= i < |before| ensures !Replaces(before[i], name) { assert before[i] == events[i]; }
      UndisturbedIsFresh(w, before, m, name, id);
      LoadsCurrent(After(w, before), events[|events| - 1], name, id);
    }
  }

  /** What a save undoes, exactly, of what others have recorded since the load. */
  lemma SaveUndoesExactly(w: World, name: string, id: nat)
    requires Inv(w) && name in w.devices && id in w.devices[name].commands
    requires w.devices[name].account.Some? && w.devices[name].commands[id].write.Some?
    requires !w.devices[name].commands[id].write.value.note.OfEnrolment?
    ensures
      var d, d' := w.devices[name], Step(w, Save(name, id)).devices[name];
      var write, a := d.commands[id].write.value, d.account.value;
      && d'.account.Some? && write.base.Some?
      && var b, a' := write.base.value, d'.account.value;
      && (a'.generation < a.generation <==>
        a.generation > if write.note.OfKeyring? then write.note.k.current else b.generation)
      && (a'.confirmed < a.confirmed <==>
        a.confirmed > if write.note.OfFloor? then write.note.generation else b.confirmed)
      && (b == a ==> a'.generation >= a.generation && a'.confirmed >= a.confirmed)
  {
    BaseValid(w.signed, w.devices[name]);
    assert CommandOk(w.signed, w.devices[name].commands[id]);
  }

  lemma HistoryGrows(account: Key, signed: set<Header>, signed': set<Header>, d: Device, d': Device)
    requires DeviceOk(account, signed, d) && signed <= signed'
    requires d'.account == d.account && d'.accepted == d.accepted && d'.floors == d.floors
    ensures DeviceOk(account, signed', d')
  {}

  lemma MaxAppend(s: seq<nat>, n: nat)
    ensures Max(s + [n]) == Raised(Max(s), n)
  {
    assert (s + [n])[..|s|] == s;
  }

  lemma ConfirmedKeeps(account: Key, signed: set<Header>, d: Device, n: nat, d': Device)
    requires DeviceOk(account, signed, d) && d.account.Some?
    requires d'.account == Remembered(d.account, n) && d'.accepted == d.accepted && d'.floors == d.floors + [n]
    ensures DeviceOk(account, signed, d')
  {
    MaxAppend(d.floors, n);
  }

  /** Recording a keyring that goes on from the record keeps the history append-only. */
  lemma ObservedKeeps(account: Key, signed: set<Header>, d: Device, k: Keyring, d': Device)
    requires DeviceOk(account, signed, d) && k.Parses() && FreshRecipients(account, signed)
    requires d.account.Some? && Continues(d.account.value, signed, k)
    requires d'.account == Moved(d.account, k) && d'.accepted == d.accepted + [k] && d'.floors == d.floors
    ensures DeviceOk(account, signed, d')
  {
    var a, n := d.account.value, |d.accepted|;
    var all, last := d.accepted + [k], d.accepted[n - 1];
    assert Genuine(signed, a, last);
    if a.accountKey == account {
      OneGenerationPinsHistory(last, k, signed, a.generation);
      forall i, j | 0 <= i < j < |all| ensures Appended(all[i], all[j]) {
        if j == n && i < n - 1 {
          assert Appended(d.accepted[i], last);
          assert Appended(last, k);
        }
      }
    }
  }

  lemma SaveKeeps(account: Key, signed: set<Header>, d: Device, id: nat)
    requires DeviceOk(account, signed, d) && BaseOk(signed, d) && FreshRecipients(account, signed)
    requires id in d.commands && d.commands[id].write.Some? && FreshSave(d, id)
    ensures DeviceOk(account, signed, DoSave(d, id))
  {
    hide DeviceOk, FreshRecipients, Authentic;
    assert CommandOk(signed, d.commands[id]);
    var d' := DoSave(d, id);
    match d.commands[id].write.value.note
    case OfFloor(n) => ConfirmedKeeps(account, signed, d, n, d');
    case OfKeyring(k) => ObservedKeeps(account, signed, d, k, d');
    case OfEnrolment(k) => EnrolledOk(account, signed, d', k);
  }

  lemma EnrolledOk(account: Key, signed: set<Header>, d: Device, k: Keyring)
    requires k.Parses() && Authentic(k, signed) && d.accepted == [k] && d.floors == []
    requires d.account == Some(Account(k.current, k.Recipient(k.current), k.accountKey, 0))
    ensures DeviceOk(account, signed, d)
  {}

  /** Recording what is on record already. */
  lemma ObservingKeeps(account: Key, signed: set<Header>, d: Device, id: nat, floor: Floor, stage: Stage, k: Keyring)
    requires DeviceOk(account, signed, d) && FreshRecipients(account, signed) && k.Parses()
    requires RecordAllows(d.account, floor, k, signed) && (d.account.Some? ==> ValidAccount(d.account.value))
    ensures DeviceOk(account, signed, Observing(d, id, floor, stage, k))
  {
    hide DeviceOk, FreshRecipients, Authentic;
    var d' := Observing(d, id, floor, stage, k);
    if d.account.Some? && ObserveWrite(d.account, k).None? {
      ObservedKeeps(account, signed, d, k, d');
    } else {
      HistoryGrows(account, signed, signed, d, d');
    }
  }

  lemma RememberingKeeps(account: Key, signed: set<Header>, d: Device, id: nat, floor: Floor, stage: Stage, n: nat)
    requires DeviceOk(account, signed, d)
    ensures DeviceOk(account, signed, Remembering(d, id, floor, stage, n))
  {
    hide DeviceOk;
    var d' := Remembering(d, id, floor, stage, n);
    if d.account.Some? && RememberWrite(d.account, n).None? {
      ConfirmedKeeps(account, signed, d, n, d');
    } else {
      HistoryGrows(account, signed, signed, d, d');
    }
  }

  lemma GoingOnKeeps(w: World, e: Event)
    requires Inv(w) && GoesOn(e) && Ready(w, e.device, e.id) && DeviceOk(w.account, w.signed, w.devices[e.device])
    ensures DeviceOk(w.account, w.signed, StepReady(w, w.devices[e.device], e).devices[e.device])
  {
    hide DeviceOk, BaseOk, FreshRecipients, Rolling, Enrols, MayAct;
    var d := w.devices[e.device];
    BaseValid(w.signed, d);
    var c, d' := d.commands[e.id], StepReady(w, d, e).devices[e.device];
    assert CommandOk(w.signed, c);
    if e.Use? && Accepting(d, e.id, e.k, e.opens, w.signed) {
      ObservingKeeps(w.account, w.signed, d, e.id, c.floor, Done, e.k);
    } else if e.Observe? && Observes(d, e.id, w.signed) {
      ObservingKeeps(w.account, w.signed, d, e.id, c.floor, Recorded(c.stage.k.current), c.stage.k);
    } else if e.Remember? && c.stage.Due? {
      RememberingKeeps(w.account, w.signed, d, e.id, c.floor, Done, c.stage.generation);
    } else {
      HistoryGrows(w.account, w.signed, w.signed, d, d');
    }
  }

  lemma StepKeepsHistory(w: World, e: Event, name: string)
    requires Inv(w) && name in w.devices && DeviceOk(w.account, w.signed, w.devices[name])
    requires e.Save? && e.device == name ==> FreshSave(w.devices[name], e.id)
    ensures name in Step(w, e).devices && DeviceOk(w.account, Step(w, e).signed, Step(w, e).devices[name])
  {
    hide DeviceOk, StepReady, DoSave;
    StepKeepsInv(w, e);
    OthersStay(w, e);
    var w', d := Step(w, e), w.devices[name];
    var d' := w'.devices[name];
    if OfDevice(e, name) {
      if GoesOn(e) && Ready(w, name, e.id) {
        GoingOnKeeps(w, e);
      } else if e.Ask? && Asks(w, name, e.id, e.answer) && e.answer.Live? {
        RememberingKeeps(w.account, w.signed, d, e.id, Floor(true, FloorOf(d.account, e.answer), SourceOf(e.answer)),
          Asked, e.answer.generation);
      } else if e.Save? && e.id in d.commands && d.commands[e.id].write.Some? {
        SaveKeeps(w.account, w.signed, d, e.id);
      } else if e.Forget? {
        ForgottenOk(w.account, w.signed, d');
      } else {
        HistoryGrows(w.account, w.signed, w.signed, d, d');
      }
      HistoryGrows(w.account, w.signed, w'.signed, d', d');
    } else {
      HistoryGrows(w.account, w.signed, w'.signed, d, d');
    }
  }

  lemma ForgottenOk(account: Key, signed: set<Header>, d: Device)
    requires d.account.None? && d.accepted == [] && d.floors == []
    ensures DeviceOk(account, signed, d)
  {}

  lemma {:induction false} FreshKeepsHistory(w: World, founder: string, events: seq<Event>, name: string)
    requires Initial(w, founder) && name in w.devices && FreshSaves(w, events, name)
    ensures
      var w' := After(w, events);
      && name in w'.devices && w'.account == w.account && Inv(w')
      && DeviceOk(w.account, w'.signed, w'.devices[name])
    decreases |events|
  {
    hide DeviceOk, Inv, Step, FreshSave;
    InitialInv(w, founder);
    RunKeepsInv(w, events);
    if events == [] {
      InitialHistory(w, founder, name);
    } else {
      var before := events[..|events| - 1];
      RunKeepsInv(w, before);
      FreshKeepsHistory(w, founder, before, name);
      StepKeepsHistory(After(w, before), events[|events| - 1], name);
    }
  }

  lemma InitialHistory(w: World, founder: string, name: string)
    requires Initial(w, founder) && name in w.devices
    ensures DeviceOk(w.account, w.signed, w.devices[name])
  {}

  /** Between enrolments, what a device that pinned the account's key accepts only grows, and
      the recorded generation with it, unless a save undid another: each keyring still holds,
      unchanged, every generation up to the current one of each keyring accepted before. */
  lemma AcceptedHistoryIsAppendOnly(w: World, founder: string, events: seq<Event>, name: string, i: nat, j: nat)
    requires Initial(w, founder) && name in w.devices && FreshSaves(w, events, name)
    requires name in After(w, events).devices
    requires
      var d := After(w, events).devices[name];
      d.account.Some? && d.account.value.accountKey == w.account && i < j < |d.accepted|
    ensures
      var d := After(w, events).devices[name];
      d.accepted[i].current <= d.accepted[j].current <= d.account.value.generation
      && forall g :: 1 <= g <= d.accepted[i].current ==> d.accepted[i].Recipient(g) == d.accepted[j].Recipient(g)
  {
    FreshKeepsHistory(w, founder, events, name);
    HistoryAppended(w.account, After(w, events).signed, After(w, events).devices[name], i, j);
  }

  lemma HistoryAppended(account: Key, signed: set<Header>, d: Device, i: nat, j: nat)
    requires DeviceOk(account, signed, d) && d.account.Some? && d.account.value.accountKey == account
    requires i < j < |d.accepted|
    ensures d.accepted[i].current <= d.accepted[j].current <= d.account.value.generation
    ensures AgreeUpTo(d.accepted[i], d.accepted[j], d.accepted[i].current)
  {
    assert Appended(d.accepted[i], d.accepted[j]);
    if j < |d.accepted| - 1 { assert Appended(d.accepted[j], d.accepted[|d.accepted| - 1]); }
  }

  ghost predicate ReachesAll(n: nat, floors: seq<nat>) {
    forall i :: 0 <= i < |floors| ==> n >= floors[i]
  }

  lemma {:induction false} MaxIsMax(s: seq<nat>)
    ensures forall i :: 0 <= i < |s| ==> s[i] <= Max(s)
    decreases |s|
  {
    if s != [] {
      var n := |s| - 1;
      MaxIsMax(s[..n]);
      forall i | 0 <= i < |s| ensures s[i] <= Max(s) {
        if i < n { assert s[..n][i] == s[i]; }
      }
    }
  }

  lemma {:induction false} MaxIsMember(s: seq<nat>)
    ensures Max(s) == 0 || exists i :: 0 <= i < |s| && s[i] == Max(s)
    decreases |s|
  {
    if s != [] {
      var n := |s| - 1;
      MaxIsMember(s[..n]);
      if Max(s) != s[n] && Max(s) != 0 {
        var i :| 0 <= i < |s[..n]| && s[..n][i] == Max(s[..n]);
        assert s[i] == Max(s);
      } else if Max(s) != 0 {
        assert s[n] == Max(s);
      }
    }
  }

  /** The floor a device falls back on is the highest confirmed to it and recorded since it
      enrolled, unless a save undid another. */
  lemma FallbackIsHighestConfirmed(w: World, founder: string, events: seq<Event>, name: string)
    requires Initial(w, founder) && name in w.devices && FreshSaves(w, events, name)
    ensures
      var w' := After(w, events);
      && name in w'.devices
      && var d := w'.devices[name];
      && FloorOf(d.account, NotServed) == Max(d.floors)
      && (forall n: nat :: n >= Max(d.floors) <==> ReachesAll(n, d.floors))
      && (Max(d.floors) == 0 || exists i :: 0 <= i < |d.floors| && d.floors[i] == Max(d.floors))
  {
    FreshKeepsHistory(w, founder, events, name);
    var d := After(w, events).devices[name];
    FallbackIsMax(w.account, After(w, events).signed, d);
    MaxIsMax(d.floors);
    MaxIsMember(d.floors);
    forall n: nat ensures n >= Max(d.floors) <==> ReachesAll(n, d.floors) {}
  }

  lemma FallbackIsMax(account: Key, signed: set<Header>, d: Device)
    requires DeviceOk(account, signed, d)
    ensures ConfirmedTo(d.account) == Max(d.floors)
  {}

  /** No step but a save changes the account key a record pins; one that does is for another
      enrolment, or was made from a record that has been replaced meanwhile. */
  lemma PinnedKeyStays(w: World, e: Event, name: string)
    requires Inv(w) && name in w.devices && w.devices[name].account.Some?
    ensures name in Step(w, e).devices
    ensures
      var d, d' := w.devices[name], Step(w, e).devices[name];
      d'.account.Some? && d'.account.value.accountKey != d.account.value.accountKey ==>
        && e.Save? && e.device == name && e.id in d.commands && d.commands[e.id].write.Some?
        && var write := d.commands[e.id].write.value;
        write.note.OfEnrolment? || write.base != d.account
  {
    hide Uses, Rolls, RecordAllows, Joins, Recovers;
    OthersStay(w, e);
    BaseValid(w.signed, w.devices[name]);
    assert e.Save? && e.device == name && e.id in w.devices[name].commands ==>
      CommandOk(w.signed, w.devices[name].commands[e.id]);
  }

  /** And what enrolling from the recovery code is about to save pins the account's own. */
  lemma RecoveryPinsAccount(w: World, e: Event)
    requires e.Recover? && Ready(w, e.device, e.id) && Enrols(w, w.devices[e.device], e) && w.account != NO_KEY
    ensures
      var d' := Step(w, e).devices[e.device];
      e.id in d'.commands && d'.commands[e.id].write.Some?
      && d'.commands[e.id].write.value.account.accountKey == w.account
  {}

  // ---------------------------------------------------------------------------
  // Where the control plane gives no answer
  // ---------------------------------------------------------------------------

  /** Command `id` of `device` loads its record at step `j` of the run. */
  ghost predicate LoadsAt(w: World, events: seq<Event>, j: nat, device: string, id: nat) {
    && j < |events| && events[j] == Load(device, id) && Ready(After(w, events[..j]), device, id)
    && After(w, events[..j]).devices[device].commands[id].stage.Asked?
    && forall i :: j < i < |events| ==> !Again(events[i], device, id)
  }

  /** And acts on what it loaded then. */
  lemma {:induction false} AnchorStands(w: World, events: seq<Event>, j: nat, device: string, id: nat)
    requires LoadsAt(w, events, j, device, id)
    ensures
      var loaded, now := After(w, events[..j]), After(w, events);
      && device in loaded.devices && device in now.devices
      && (id in now.devices[device].commands ==>
        var c := now.devices[device].commands[id];
        !c.stage.Asked?
        && (c.stage.Anchored? ==> c.stage.anchor == AnchorOf(loaded.devices[device].account, c.floor)))
    decreases |events|
  {
    hide Step;
    var before, e := events[..|events| - 1], events[|events| - 1];
    if j == |events| - 1 {
      assert before == events[..j];
      LoadAnchors(After(w, before), device, id);
    } else {
      assert before[..j] == events[..j] && before[j] == events[j];
      forall i | j < i < |before| ensures !Again(before[i], device, id) { assert before[i] == events[i]; }
      AnchorStands(w, before, j, device, id);
      OthersStay(After(w, before), e);
      if id in After(w, events).devices[device].commands { CommandStays(After(w, before), e, device, id); }
    }
  }

  lemma LoadAnchors(w: World, device: string, id: nat)
    requires Ready(w, device, id) && w.devices[device].commands[id].stage.Asked?
    ensures
      var w' := Step(w, Load(device, id));
      && device in w'.devices && id in w'.devices[device].commands
      && var c := w'.devices[device].commands[id];
      c.stage == Anchored(AnchorOf(w.devices[device].account, c.floor))
  {}

  lemma AllowsExactly(a: Account, floor: Floor, k: Keyring, signed: set<Header>)
    requires ValidAccount(a) && floor.decided
    ensures MayAct(AnchorFromAccount(a, floor), k, signed)
      <==> Continues(a, signed, k) && k.current >= floor.generation
  {}

  /** What a command accepts that got no answer when it asked, at step `m`, and loaded its
      record at step `j`: exactly the keyrings signed throughout that reach the floor the
      record held at `m`, and go on from the record as it was at `j` and as it is now, as far
      as there was one and is one. The floor is the highest confirmed by then, unless a save
      undid another. */
  lemma UnansweredAcceptsExactly(w: World, founder: string, events: seq<Event>, m: nat, j: nat, name: string, id: nat,
      k: Keyring, opens: bool)
    requires Initial(w, founder) && name in w.devices
    requires Begins(w, events, m, name, id, NotServed) && m < j && LoadsAt(w, events, j, name, id)
    requires Ready(After(w, events), name, id) && After(w, events).devices[name].commands[id].stage.Anchored?
    ensures name in After(w, events[..m]).devices && name in After(w, events[..j]).devices
    ensures
      var now, asked := After(w, events), After(w, events[..m]).devices[name];
      var loaded, account := After(w, events[..j]).devices[name].account, now.devices[name].account;
      Accepts(now, Use(name, id, k, opens), k) <==>
        && opens && k.Parses() && Authentic(k, now.signed) && k.current >= ConfirmedTo(asked.account)
        && (loaded.Some? ==> Continues(loaded.value, now.signed, k))
        && (account.Some? ==> Continues(account.value, now.signed, k))
    ensures
      var asked := After(w, events[..m]).devices[name];
      FreshSaves(w, events[..m], name) ==>
        (k.current >= ConfirmedTo(asked.account) <==> ReachesAll(k.current, asked.floors))
  {
    hide MayAct, Step, Inv;
    InitialInv(w, founder);
    RunKeepsInv(w, events);
    RunKeepsInv(w, events[..j]);
    RunKeepsInv(w, events[..m]);
    AnswerStands(w, events, m, name, id, NotServed);
    AnchorStands(w, events, j, name, id);
    var now, loaded := After(w, events), After(w, events[..j]).devices[name].account;
    var floor := now.devices[name].commands[id].floor;
    RecordIsValid(now, name);
    RecordIsValid(After(w, events[..j]), name);
    if loaded.Some? {
      AllowsExactly(loaded.value, floor, k, now.signed);
    } else {
      UnanchoredExactly(floor, k, now.signed);
    }
    if now.devices[name].account.Some? { AllowsExactly(now.devices[name].account.value, floor, k, now.signed); }
    if FreshSaves(w, events[..m], name) {
      FallbackIsHighestConfirmed(w, founder, events[..m], name);
    }
  }

  lemma UnanchoredExactly(floor: Floor, k: Keyring, signed: set<Header>)
    requires floor.decided
    ensures MayAct(Anchor(0, NO_KEY, NO_KEY, floor), k, signed)
      <==> Authentic(k, signed) && k.current >= floor.generation
  {}

  lemma RecordIsValid(w: World, name: string)
    requires Inv(w) && name in w.devices
    ensures w.devices[name].account.Some? ==> ValidAccount(w.devices[name].account.value)
  {}

  /** The device enrols anew, or forgets its enrolment. */
  predicate Reenrols(w: World, e: Event, name: string) {
    && name in w.devices
    && (e == Forget(name)
        || (&& e.Save? && e.device == name && e.id in w.devices[name].commands
            && w.devices[name].commands[e.id].write.Some?
            && w.devices[name].commands[e.id].write.value.note.OfEnrolment?))
  }

  lemma StepExtends(w: World, e: Event, name: string)
    requires Inv(w) && name in w.devices && w.devices[name].account.Some? && !Reenrols(w, e, name)
    requires e.Save? && e.device == name ==> FreshSave(w.devices[name], e.id)
    ensures
      var d, d' := w.devices[name], Step(w, e).devices[name];
      d'.account.Some? && d'.account.value.accountKey == d.account.value.accountKey && d.accepted <= d'.accepted
  {
    hide Uses, Rolls, RecordAllows, Joins, Recovers;
    OthersStay(w, e);
    PinnedKeyStays(w, e, name);
  }

  lemma {:induction false} HistoryExtends(w: World, founder: string, events: seq<Event>, j: nat, name: string)
    requires Initial(w, founder) && name in w.devices && FreshSaves(w, events, name) && j <= |events|
    requires name in After(w, events[..j]).devices && After(w, events[..j]).devices[name].account.Some?
    requires forall i :: j <= i < |events| ==> !Reenrols(After(w, events[..i]), events[i], name)
    ensures FreshSaves(w, events[..j], name) && name in After(w, events).devices
    ensures
      var d, d' := After(w, events[..j]).devices[name], After(w, events).devices[name];
      d'.account.Some? && d'.account.value.accountKey == d.account.value.accountKey && d.accepted <= d'.accepted
    decreases |events|
  {
    hide Step, Inv, FreshSave;
    if j == |events| {
      assert events[..j] == events;
    } else {
      var before := events[..|events| - 1];
      assert before[..j] == events[..j];
      forall i | j <= i < |before| ensures !Reenrols(After(w, before[..i]), before[i], name) {
        assert before[..i] == events[..i] && before[i] == events[i];
      }
      HistoryExtends(w, founder, before, j, name);
      InitialInv(w, founder);
      RunKeepsInv(w, before);
      OthersStay(After(w, before), events[|events| - 1]);
      StepExtends(After(w, before), events[|events| - 1], name);
    }
  }

  /** Of the two records the one now is enough where the key pinned is the account's: what goes
      on from that goes on from the one loaded earlier, if the device did not enrol anew in
      between, and no save undid another. */
  lemma RecordNowSuffices(w: World, founder: string, events: seq<Event>, j: nat, name: string, k: Keyring)
    requires Initial(w, founder) && name in w.devices && FreshSaves(w, events, name) && j <= |events|
    requires name in After(w, events[..j]).devices && After(w, events[..j]).devices[name].account.Some?
    requires After(w, events[..j]).devices[name].account.value.accountKey == w.account
    requires forall i :: j <= i < |events| ==> !Reenrols(After(w, events[..i]), events[i], name)
    ensures name in After(w, events).devices && After(w, events).devices[name].account.Some?
    ensures
      var now, signed := After(w, events).devices[name].account.value, After(w, events).signed;
      Continues(now, signed, k) ==> Continues(After(w, events[..j]).devices[name].account.value, signed, k)
  {
    hide DeviceOk, Inv, Reenrols, FreshSaves;
    HistoryExtends(w, founder, events, j, name);
    FreshKeepsHistory(w, founder, events, name);
    FreshKeepsHistory(w, founder, events[..j], name);
    var w', d, d' := After(w, events), After(w, events[..j]).devices[name], After(w, events).devices[name];
    SignedIsFresh(w');
    if Continues(d'.account.value, w'.signed, k) {
      EarlierContinues(w.account, After(w, events[..j]).signed, w'.signed, d, d', k);
    }
  }

  lemma SignedIsFresh(w: World)
    requires Inv(w)
    ensures FreshRecipients(w.account, w.signed)
  {}

  lemma EarlierContinues(account: Key, signed: set<Header>, signed': set<Header>, d: Device, d': Device, k: Keyring)
    requires DeviceOk(account, signed, d) && DeviceOk(account, signed', d') && FreshRecipients(account, signed')
    requires d.account.Some? && d'.account.Some? && d.account.value.accountKey == account
    requires d'.account.value.accountKey == account && d.accepted <= d'.accepted
    requires Continues(d'.account.value, signed', k)
    ensures Continues(d.account.value, signed', k)
  {
    hide FreshRecipients, Authentic;
    var a, a', n := d.account.value, d'.account.value, |d.accepted| - 1;
    var last, last' := d'.accepted[n], d'.accepted[|d'.accepted| - 1];
    assert last == d.accepted[n];
    assert Genuine(signed', a', last');
    OneGenerationPinsHistory(k, last', signed', a'.generation);
    assert n == |d'.accepted| - 1 || Appended(last, last');
  }

  /** Apart from which generation it says is current, `k` is what the command and its device
      ask for, and long enough. */
  ghost predicate Admits(anchor: Anchor, account: Option<Account>, signed: set<Header>, k: Keyring) {
    && k.Parses() && Authentic(k, signed) && |k.recipients| >= anchor.floor.generation
    && (anchor.accountKey == NO_KEY || k.accountKey == anchor.accountKey)
    && (anchor.generation != 0 ==> k.Recipient(anchor.generation) == anchor.recipient)
    && (account.Some? ==>
      k.accountKey == account.value.accountKey && k.Recipient(account.value.generation) == account.value.recipient)
  }

  /** The lowest generation such a command accepts. */
  function Lowest(anchor: Anchor, account: Option<Account>): nat {
    Raised(Raised(1, anchor.floor.generation),
           Raised(anchor.generation, if account.Some? then account.value.generation else 0))
  }

  /** Which generation is current is not signed. */
  lemma CurrentIsUnsigned(k: Keyring, n: nat, signed: set<Header>)
    requires Authentic(k, signed)
    ensures Authentic(k.(current := n), signed)
  {
    forall g | 1 <= g <= |k.recipients| ensures k.(current := n).HeaderOf(g) in signed {
      assert k.HeaderOf(g) in signed;
    }
  }

  /** When a command can be made to accept a keyring below the account's floor, in any run and
      whatever it was told and loaded: exactly if the floor it was told, the generation it
      loaded and the one on record now are all below the account's floor, and some signed
      keyring goes on from both records and reaches the floor it was told. */
  lemma OldKeyringGetsThroughExactly(w: World, founder: string, events: seq<Event>, name: string, id: nat)
    requires Initial(w, founder) && Ready(After(w, events), name, id)
    requires After(w, events).devices[name].commands[id].stage.Anchored?
    ensures
      var now, d := After(w, events), After(w, events).devices[name];
      var anchor := d.commands[id].stage.anchor;
      (exists k: Keyring :: k.current < now.floor && Accepts(now, Use(name, id, k, true), k)) <==>
        Lowest(anchor, d.account) < now.floor && exists k: Keyring :: Admits(anchor, d.account, now.signed, k)
  {
    InitialInv(w, founder);
    RunKeepsInv(w, events);
    var now, d := After(w, events), After(w, events).devices[name];
    BaseValid(now.signed, d);
    assert CommandOk(now.signed, d.commands[id]);
    var anchor := d.commands[id].stage.anchor;
    if Lowest(anchor, d.account) < now.floor && exists k: Keyring :: Admits(anchor, d.account, now.signed, k) {
      var k0: Keyring :| Admits(anchor, d.account, now.signed, k0);
      var k := k0.(current := Lowest(anchor, d.account));
      CurrentIsUnsigned(k0, k.current, now.signed);
      assert Accepts(now, Use(name, id, k, true), k);
    }
    forall k: Keyring | k.current < now.floor && Accepts(now, Use(name, id, k, true), k)
      ensures Lowest(anchor, d.account) < now.floor && Admits(anchor, d.account, now.signed, k)
    {}
  }

  /** Such a keyring there is, at any rate, for a command that loaded the record as it is now,
      if the floor it was told does not exceed the recorded generation. */
  lemma RecordedKeyringAdmitted(w: World, founder: string, events: seq<Event>, name: string, floor: Floor)
    requires Initial(w, founder) && name in w.devices && FreshSaves(w, events, name)
    requires name in After(w, events).devices && After(w, events).devices[name].account.Some?
    requires floor.generation <= After(w, events).devices[name].account.value.generation
    ensures
      var now, d := After(w, events), After(w, events).devices[name];
      exists k: Keyring :: Admits(AnchorOf(d.account, floor), d.account, now.signed, k)
  {
    hide DeviceOk, Admits, FreshSaves, Inv;
    FreshKeepsHistory(w, founder, events, name);
    LastAdmitted(w.account, After(w, events).signed, After(w, events).devices[name], floor);
  }

  lemma LastAdmitted(account: Key, signed: set<Header>, d: Device, floor: Floor)
    requires DeviceOk(account, signed, d) && d.account.Some? && floor.generation <= d.account.value.generation
    ensures exists k: Keyring :: Admits(AnchorOf(d.account, floor), d.account, signed, k)
  {
    hide Authentic;
    var last := d.accepted[|d.accepted| - 1];
    assert Genuine(signed, d.account.value, last);
    assert Admits(AnchorOf(d.account, floor), d.account, signed, last);
  }

  // ---------------------------------------------------------------------------
  // A command on its own
  // ---------------------------------------------------------------------------

  /** The step, and then the save it prepared, if any. */
  function AndSave(w: World, e: Event): World
    requires e.Ask? || GoesOn(e)
  {
    Step(Step(w, e), Save(e.device, e.id))
  }

  /** Asking comes to what `KeyringFloor.Home.LoadAnchor` says. */
  lemma AskedAlone(w: World, device: string, id: nat, answer: Answer)
    requires Asks(w, device, id, answer)
    ensures
      var account, w' := w.devices[device].account, Step(AndSave(w, Ask(device, id, answer)), Load(device, id));
      && device in w'.devices && id in w'.devices[device].commands
      && w'.devices[device].account == AfterAnswer(account, answer)
      && w'.devices[device].commands[id].stage == Anchored(AnchorFor(account, answer))
  {
    var w1 := Step(w, Ask(device, id, answer));
    var w2 := Step(w1, Save(device, id));
    assert Ready(w2, device, id) && w2.devices[device].commands[id].stage == Asked;
    assert w2.devices[device].account == AfterAnswer(w.devices[device].account, answer);
  }

  /** Using a keyring comes to what `KeyringFloor.Home.Use` says. */
  lemma UsedAlone(w: World, device: string, id: nat, k: Keyring, opens: bool)
    requires Ready(w, device, id) && w.devices[device].commands[id].stage.Anchored? && k.Parses()
    ensures
      var d, w' := w.devices[device], AndSave(w, Use(device, id, k, opens));
      && device in w'.devices
      && w'.devices[device].account
         == if Uses(d.account, d.commands[id].stage.anchor, k, opens, w.signed) then Moved(d.account, k) else d.account
  {
    hide Uses;
  }

  /** Enrolling comes to what `KeyringFloor.Home.Join` and `Recover` say. */
  lemma EnrolledAlone(w: World, e: Event)
    requires (e.Join? || e.Recover?) && Ready(w, e.device, e.id) && Enrols(w, w.devices[e.device], e)
    ensures
      var w' := AndSave(AndSave(w, e), Remember(e.device, e.id));
      && e.device in w'.devices
      && w'.devices[e.device].account == Some(KeyringFloor.Enrolled(e.k, w.devices[e.device].commands[e.id].floor))
  {
    hide Joins, Recovers;
    var w1 := AndSave(w, e);
    var floor := w.devices[e.device].commands[e.id].floor;
    assert Ready(w1, e.device, e.id) && w1.devices[e.device].commands[e.id].stage == Due(floor.generation);
  }

  /** Revoking comes to what `KeyringFloor.Home.Revoke` says. */
  lemma RevokedAlone(w: World, e: Event, raise: Raise)
    requires e.Revoke? && Ready(w, e.device, e.id) && Rolling(w, w.devices[e.device], e)
    ensures
      var d, w1 := w.devices[e.device], Step(w, e);
      var updated, signed := Updated(e.k, e.again, w.next), SignedAfter(e.k, e.again, w.next, w.signed);
      var observed := RecordAllows(d.account, d.commands[e.id].floor, updated, signed);
      var w2 := Step(AndSave(w1, Observe(e.device, e.id)), Tell(e.device, e.id, raise));
      var w' := AndSave(w2, Remember(e.device, e.id));
      && e.device in w'.devices && w'.signed == signed
      && w'.floor == (if observed && (raise == Carried || raise == Confirmed) then Raised(w.floor, updated.current)
                      else w.floor)
      && w'.devices[e.device].account
         == (if !observed then d.account
             else if raise == Carried then Remembered(Moved(d.account, updated), w'.floor)
             else Moved(d.account, updated))
  {
    hide Rolling, RecordAllows;
    var updated, signed := Updated(e.k, e.again, w.next), SignedAfter(e.k, e.again, w.next, w.signed);
    var w1 := Step(w, e);
    var d1 := w1.devices[e.device];
    assert w1.signed == signed && d1.commands[e.id].stage == RolledOver(updated) && Ready(w1, e.device, e.id);
    ObservedAlone(w1, e.device, e.id, raise);
  }

  lemma ObservedAlone(w: World, device: string, id: nat, raise: Raise)
    requires Ready(w, device, id) && w.devices[device].commands[id].stage.RolledOver?
    ensures
      var d, k := w.devices[device], w.devices[device].commands[id].stage.k;
      var observed := RecordAllows(d.account, d.commands[id].floor, k, w.signed);
      var w' := AndSave(Step(AndSave(w, Observe(device, id)), Tell(device, id, raise)), Remember(device, id));
      && device in w'.devices && w'.signed == w.signed
      && w'.floor == (if observed && (raise == Carried || raise == Confirmed) then Raised(w.floor, k.current)
                      else w.floor)
      && w'.devices[device].account
         == (if !observed then d.account
             else if raise == Carried then Remembered(Moved(d.account, k), w'.floor)
             else Moved(d.account, k))
  {
    hide RecordAllows;
    var d, k := w.devices[device], w.devices[device].commands[id].stage.k;
    var w1 := AndSave(w, Observe(device, id));
    assert Ready(w1, device, id);
    if RecordAllows(d.account, d.commands[id].floor, k, w.signed) {
      assert w1.devices[device].account == Moved(d.account, k);
      assert w1.devices[device].commands[id].stage == Recorded(k.current);
    } else {
      assert w1.devices[device].commands[id].stage == Done && w1.devices[device].account == d.account;
    }
    TellAndRemember(w1, device, id, raise);
  }

  lemma TellAndRemember(w: World, device: string, id: nat, raise: Raise)
    requires Ready(w, device, id) && (StageOf(w.devices[device], id).Recorded? || StageOf(w.devices[device], id).Done?)
    ensures
      var stage, account := StageOf(w.devices[device], id), w.devices[device].account;
      var w' := AndSave(Step(w, Tell(device, id, raise)), Remember(device, id));
      && device in w'.devices && w'.signed == w.signed
      && w'.floor == (if stage.Recorded? && (raise == Carried || raise == Confirmed)
                      then Raised(w.floor, stage.generation) else w.floor)
      && w'.devices[device].account
         == (if stage.Recorded? && raise == Carried then Remembered(account, w'.floor) else account)
  {
    var w1 := Step(w, Tell(device, id, raise));
    assert Ready(w1, device, id);
  }
}
