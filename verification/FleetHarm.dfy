/** Runs of two devices, from the account's creation: one in which an old keyring gets through
    where the control plane gives no answer, and two in which one save of a device's record
    undoes another (internal/cli/account.go, internal/cli/keyring_floor.go). */
module FleetHarm {
  import opened Wrappers
  import opened Keyring
  import opened KeyringFloor
  import opened Fleet
  import opened FleetRecords

  lemma AfterOne(w: World, events: seq<Event>, e: Event)
    ensures After(w, events + [e]) == Step(After(w, events), e)
  {
    assert (events + [e])[..|events|] == events;
  }

  // ---------------------------------------------------------------------------
  // The stage
  // ---------------------------------------------------------------------------

  const H1 := Header(1, 1, 1, 0, NO_KEY)
  const H2 := Header(1, 2, 2, 1, 1)
  const K1 := Keyring(1, [1], 1)
  const K2 := Keyring(1, [1, 2], 2)

  /** The account has just been created on a; b has not enrolled. */
  function Start(): World {
    World(1, {H1}, 2, 0, map["a" := Device(Some(Account(1, 1, 1, 0)), map[], [K1], []), "b" := FRESH])
  }

  ghost predicate At(w: World, signed: set<Header>, next: Key, floor: nat, a: Device, b: Device) {
    && w.account == 1 && w.signed == signed && w.next == next && w.floor == floor
    && "a" in w.devices && "b" in w.devices && w.devices["a"] == a && w.devices["b"] == b
  }

  lemma Signed()
    ensures Authentic(K1, {H1}) && Authentic(K1, {H1, H2}) && Authentic(K2, {H1, H2})
    ensures K1.Parses() && K2.Parses()
    ensures Rolled(K1, 2) == K2 && RolledHeader(K1, 2) == H2 && {H1} + {H2} == {H1, H2}
  {
    assert K1.HeaderOf(1) == H1 && K2.HeaderOf(1) == H1 && K2.HeaderOf(2) == H2;
  }

  const FIRST := Account(1, 1, 1, 0)
  const TOLD := Floor(true, 0, LastConfirmed)

  /** Device a with command 0 so far. */
  function With(a: Device, stage: Stage, write: Option<Write>): Device {
    a.(commands := a.commands[0 := Command(TOLD, stage, write)])
  }

  lemma WithAgain(a: Device, stage: Stage, write: Option<Write>, stage': Stage, write': Option<Write>)
    ensures With(With(a, stage, write), stage', write') == With(a, stage', write')
  {}

  /** The first two steps of revoking a device from a, without an answer. */
  lemma ALoads(w: World, a: Device, b: Device)
    requires At(w, {H1}, 2, w.floor, a, b) && a.account == Some(FIRST) && 0 !in a.commands
    ensures At(Step(Step(w, Ask("a", 0, NotServed)), Load("a", 0)), {H1}, 2, w.floor,
      With(a, Anchored(AnchorFromAccount(FIRST, TOLD)), None), b)
  {
    assert Asks(w, "a", 0, NotServed);
    var w1 := Step(w, Ask("a", 0, NotServed));
    assert At(w1, {H1}, 2, w.floor, With(a, Asked, None), b);
    assert Ready(w1, "a", 0);
    WithAgain(a, Asked, None, Anchored(AnchorFromAccount(FIRST, TOLD)), None);
  }

  /** The keyring is rolled over. */
  lemma ARolls(w: World, a: Device, b: Device)
    requires At(w, {H1}, 2, w.floor, With(a, Anchored(AnchorFromAccount(FIRST, TOLD)), None), b)
    ensures At(Step(w, Revoke("a", 0, K1, true, None)), {H1, H2}, 3, w.floor, With(a, RolledOver(K2), None), b)
  {
    Signed();
    var e := Revoke("a", 0, K1, true, None);
    assert Ready(w, "a", 0) && Rolling(w, w.devices["a"], e);
    WithAgain(a, Anchored(AnchorFromAccount(FIRST, TOLD)), None, RolledOver(K2), None);
  }

  /** And is about to be recorded. */
  lemma AObserves(w: World, a: Device, b: Device)
    requires At(w, {H1, H2}, 3, w.floor, With(a, RolledOver(K2), None), b) && a.account == Some(FIRST)
    ensures At(Step(w, Observe("a", 0)), {H1, H2}, 3, w.floor,
      With(a, Recorded(2), Some(Write(Some(FIRST), Account(2, 2, 1, 0), OfKeyring(K2)))), b)
  {
    Signed();
    var d := w.devices["a"];
    assert Ready(w, "a", 0) && Observes(d, 0, w.signed);
    WithAgain(a, RolledOver(K2), None, Recorded(2), Some(Write(Some(FIRST), Account(2, 2, 1, 0), OfKeyring(K2))));
  }

  /** All of that. */
  function Rollover(): seq<Event> {
    [Ask("a", 0, NotServed)] + [Load("a", 0)] + [Revoke("a", 0, K1, true, None)] + [Observe("a", 0)]
  }

  lemma ARollsOver(w: World, events: seq<Event>, a: Device, b: Device, floor: nat)
    requires At(After(w, events), {H1}, 2, floor, a, b) && a.account == Some(FIRST) && 0 !in a.commands
    ensures At(After(w, events + Rollover()), {H1, H2}, 3, floor,
      With(a, Recorded(2), Some(Write(Some(FIRST), Account(2, 2, 1, 0), OfKeyring(K2)))), b)
  {
    hide Step;
    var e1 := events + [Ask("a", 0, NotServed)];
    var e2 := e1 + [Load("a", 0)];
    var e3 := e2 + [Revoke("a", 0, K1, true, None)];
    AfterOne(w, events, Ask("a", 0, NotServed));
    AfterOne(w, e1, Load("a", 0));
    ALoads(After(w, events), a, b);
    AfterOne(w, e2, Revoke("a", 0, K1, true, None));
    ARolls(After(w, e2), a, b);
    AfterOne(w, e3, Observe("a", 0));
    AObserves(After(w, e3), a, b);
    assert events + Rollover() == e3 + [Observe("a", 0)];
  }

  // ---------------------------------------------------------------------------
  // An old keyring gets through
  // ---------------------------------------------------------------------------

  /** b has joined. */
  const JOINED := Device(Some(FIRST), map[0 := Command(Floor(true, 0, Source.ControlPlane), Due(0), None)], [K1], [])

  lemma BJoins(w: World, a: Device)
    requires At(w, {H1}, 2, 0, a, FRESH)
    ensures
      At(Step(Step(Step(w, Ask("b", 0, Live(0))), Join("b", 0, K1, true, 1, 1)), Save("b", 0)), {H1}, 2, 0, a, JOINED)
  {
    Signed();
    var floor := Floor(true, 0, Source.ControlPlane);
    var w1 := Step(w, Ask("b", 0, Live(0)));
    assert At(w1, {H1}, 2, 0, a, FRESH.(commands := map[0 := Command(floor, Asked, None)]));
    var w2 := Step(w1, Join("b", 0, K1, true, 1, 1));
    assert Enrols(w1, w1.devices["b"], Join("b", 0, K1, true, 1, 1));
    var write := Write(None, FIRST, OfEnrolment(K1));
    assert At(w2, {H1}, 2, 0, a, FRESH.(commands := map[0 := Command(floor, Due(0), Some(write))]));
  }

  /** a, which has rolled the keyring over, records that and tells the control plane. */
  lemma ATells(w: World, a: Device, b: Device, write: Write)
    requires At(w, {H1, H2}, 3, w.floor, With(a, Recorded(2), Some(write)), b) && w.floor <= 2
    ensures
      var w' := Step(Step(w, Save("a", 0)), Tell("a", 0, Carried));
      "a" in w'.devices && At(w', {H1, H2}, 3, 2, w'.devices["a"], b)
  {
    var w1 := Step(w, Save("a", 0));
    assert "a" in w1.devices && Ready(w1, "a", 0) && StageOf(w1.devices["a"], 0) == Recorded(2);
  }

  /** A command that is enrolled with the first keyring asks, gets no answer, and loads its
      record; it then accepts the first keyring. */
  lemma AcceptsFirst(w: World, device: string, id: nat)
    requires device in w.devices && id !in w.devices[device].commands && Authentic(K1, w.signed)
    requires w.devices[device].account.Some?
    requires
      var a := w.devices[device].account.value;
      a.generation == 1 && a.recipient == 1 && a.accountKey == 1 && a.confirmed <= 1
    ensures
      var w' := Step(Step(w, Ask(device, id, NotServed)), Load(device, id));
      && Accepts(w', Use(device, id, K1, true), K1) && w'.floor == w.floor
      && w'.devices[device].accepted == w.devices[device].accepted
      && w'.devices[device].account == w.devices[device].account
  {
    Signed();
    assert Asks(w, device, id, NotServed);
    var w1 := Step(w, Ask(device, id, NotServed));
    assert Ready(w1, device, id) && w1.devices[device].commands[id].stage == Asked;
    var w2 := Step(w1, Load(device, id));
    assert Ready(w2, device, id) && StageOf(w2.devices[device], id).Anchored?;
  }

  /** One joins, the other then revokes a third and the floor is raised, and the first, asking
      without an answer, accepts the keyring from before the revocation. */
  lemma OldKeyringGetsThroughInARun() returns (events: seq<Event>, e: Event)
    ensures Initial(Start(), "a") && Accepts(After(Start(), events), e, K1)
    ensures K1.current < After(Start(), events).floor
  {
    hide Step, Accepts;
    var w := Start();
    var a := w.devices["a"];
    assert After(w, []) == w;
    AfterOne(w, [], Ask("b", 0, Live(0)));
    AfterOne(w, [] + [Ask("b", 0, Live(0))], Join("b", 0, K1, true, 1, 1));
    AfterOne(w, [] + [Ask("b", 0, Live(0))] + [Join("b", 0, K1, true, 1, 1)], Save("b", 0));
    var e1 := [] + [Ask("b", 0, Live(0))] + [Join("b", 0, K1, true, 1, 1)] + [Save("b", 0)];
    BJoins(w, a);
    ARollsOver(w, e1, a, JOINED, 0);
    var e2 := e1 + Rollover();
    var e3 := e2 + [Save("a", 0)];
    var e4 := e3 + [Tell("a", 0, Carried)];
    AfterOne(w, e2, Save("a", 0));
    AfterOne(w, e3, Tell("a", 0, Carried));
    ATells(After(w, e2), a, JOINED, Write(Some(FIRST), Account(2, 2, 1, 0), OfKeyring(K2)));
    var e5 := e4 + [Ask("b", 1, NotServed)];
    AfterOne(w, e4, Ask("b", 1, NotServed));
    AfterOne(w, e5, Load("b", 1));
    Signed();
    AcceptsFirst(After(w, e4), "b", 1);
    events := e5 + [Load("b", 1)];
    e := Use("b", 1, K1, true);
  }

  // ---------------------------------------------------------------------------
  // One save undoes another
  // ---------------------------------------------------------------------------

  /** Command 1 of a is told that the floor is 1, and is about to record that. */
  function Telling(a: Device): Device {
    a.(commands := a.commands[1 :=
      Command(Floor(true, 1, Source.ControlPlane), Asked, Some(Write(Some(FIRST), Account(1, 1, 1, 1), OfFloor(1))))])
  }

  lemma AIsTold(w: World, a: Device, b: Device)
    requires At(w, w.signed, w.next, 1, a, b) && a.account == Some(FIRST) && 1 !in a.commands
    ensures At(Step(w, Ask("a", 1, Live(1))), w.signed, w.next, 1, Telling(a), b)
  {
    assert Asks(w, "a", 1, Live(1));
  }

  lemma IsReported(w: World, a: Device, b: Device)
    requires At(w, w.signed, w.next, 0, a, b)
    ensures At(Step(w, Report(1)), w.signed, w.next, 1, a, b)
  {}

  /** Both commands save: first command `i`, then the other. */
  lemma BothSave(w: World, a: Device, b: Device, i: nat)
    requires i < 2 && a.account == Some(FIRST) && a.accepted == [K1] && a.floors == []
    requires a.commands.Keys == {0, 1} && a.commands[0].write.Some? && a.commands[1].write.Some?
    requires a.commands[0].write.value == Write(Some(FIRST), Account(2, 2, 1, 0), OfKeyring(K2))
    requires a.commands[1].write.value == Write(Some(FIRST), Account(1, 1, 1, 1), OfFloor(1))
    requires At(w, w.signed, w.next, w.floor, a, b)
    ensures
      var w1 := Step(w, Save("a", i));
      var w2 := Step(w1, Save("a", 1 - i));
      && "a" in w1.devices && "a" in w2.devices && "b" in w2.devices && w2.signed == w.signed && w2.floor == w.floor
      && var d1, d2 := w1.devices["a"], w2.devices["a"];
      && d2.accepted == [K1, K2] && d2.floors == [1] && d2.commands.Keys == {0, 1}
      && d1.account == Some(if i == 0 then Account(2, 2, 1, 0) else Account(1, 1, 1, 1))
      && d2.account == Some(if i == 0 then Account(1, 1, 1, 1) else Account(2, 2, 1, 0))
  {}

  /** A floor is being remembered while a device is revoked: the recorded generation falls
      back. */
  lemma GenerationFallsBack() returns (before: seq<Event>)
    ensures Initial(Start(), "a")
    ensures
      var w, w' := After(Start(), before), After(Start(), before + [Save("a", 1)]);
      && "a" in w.devices && w.devices["a"].account == Some(Account(2, 2, 1, 0))
      && "a" in w'.devices && w'.devices["a"].account == Some(Account(1, 1, 1, 1))
      && w'.devices["a"].accepted == [K1, K2] && w'.devices["a"].commands.Keys == {0, 1}
      && w'.signed == {H1, H2}
  {
    hide Step;
    var w := Start();
    var a, b := w.devices["a"], w.devices["b"];
    assert After(w, []) == w;
    AfterOne(w, [], Report(1));
    IsReported(w, a, b);
    var e1 := [] + [Report(1)];
    AfterOne(w, e1, Ask("a", 1, Live(1)));
    AIsTold(After(w, e1), a, b);
    var e2 := e1 + [Ask("a", 1, Live(1))];
    ARollsOver(w, e2, Telling(a), b, 1);
    var e3 := e2 + Rollover();
    BothSave(After(w, e3), After(w, e3).devices["a"], b, 0);
    AfterOne(w, e3, Save("a", 0));
    before := e3 + [Save("a", 0)];
    AfterOne(w, before, Save("a", 1));
  }

  /** And the next command, asking without an answer, accepts the keyring from before the
      revocation, which this device had itself left behind. */
  lemma OldKeyringAcceptedAgain() returns (events: seq<Event>)
    ensures
      var d := After(Start(), events).devices;
      "a" in d && d["a"].accepted == [K1, K2, K1]
  {
    hide Step, Accepts;
    var w := Start();
    var before := GenerationFallsBack();
    var e3 := before + [Save("a", 1)];
    Signed();
    AcceptsFirst(After(w, e3), "a", 2);
    AfterOne(w, e3, Ask("a", 2, NotServed));
    var e4 := e3 + [Ask("a", 2, NotServed)];
    AfterOne(w, e4, Load("a", 2));
    var e5 := e4 + [Load("a", 2)];
    AfterOne(w, e5, Use("a", 2, K1, true));
    AcceptanceIsRecorded(After(w, e5), "a", 2);
    events := e5 + [Use("a", 2, K1, true)];
  }

  lemma AcceptanceIsRecorded(w: World, device: string, id: nat)
    requires Accepts(w, Use(device, id, K1, true), K1)
    requires w.devices[device].account == Some(Account(1, 1, 1, 1))
    ensures
      var w' := Step(w, Use(device, id, K1, true));
      device in w'.devices && w'.devices[device].accepted == w.devices[device].accepted + [K1]
  {}

  /** The other way round, a confirmed floor is lost: what the device falls back on is lower
      than what was confirmed to it and recorded. */
  lemma FloorFallsBack() returns (before: seq<Event>)
    ensures
      var w, w' := After(Start(), before), After(Start(), before + [Save("a", 0)]);
      && "a" in w.devices && FloorOf(w.devices["a"].account, NotServed) == 1
      && "a" in w'.devices && FloorOf(w'.devices["a"].account, NotServed) == 0
      && w'.devices["a"].floors == [1] && Max(w'.devices["a"].floors) == 1
  {
    hide Step;
    var w := Start();
    var a, b := w.devices["a"], w.devices["b"];
    assert After(w, []) == w;
    ARollsOver(w, [], a, b, 0);
    var e1 := [] + Rollover();
    var a1 := After(w, e1).devices["a"];
    AfterOne(w, e1, Report(1));
    IsReported(After(w, e1), a1, b);
    var e2 := e1 + [Report(1)];
    AfterOne(w, e2, Ask("a", 1, Live(1)));
    AIsTold(After(w, e2), a1, b);
    var e3 := e2 + [Ask("a", 1, Live(1))];
    BothSave(After(w, e3), Telling(a1), b, 1);
    AfterOne(w, e3, Save("a", 1));
    before := e3 + [Save("a", 1)];
    AfterOne(w, before, Save("a", 0));
    MaxAppend([], 1);
    assert [] + [1] == [1];
  }
}
