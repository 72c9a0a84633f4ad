/** All devices of one account, its control plane, and someone who can put any genuine keyring
    back into storage: what no interleaving of their steps can bring about
    (internal/cli/account.go, internal/cli/keyring_floor.go, internal/cli/pairing.go). */
module Fleet {
  import opened Wrappers
  import opened Keyring
  import opened KeyringFloor

  /** What a save of the enrolment record is for. */
  datatype Note = OfFloor(generation: nat) | OfKeyring(k: Keyring) | OfEnrolment(k: Keyring)

  /** A record about to be saved. It was made from the record as it was when it was loaded,
      and nothing keeps others from saving theirs meanwhile. */
  datatype Write = Write(base: Option<Account>, account: Account, note: Note)

  /** How far a command is: it has asked for the floor; it has loaded the record that goes
      with it; it has rolled the keyring over, has recorded what that has become, or has yet
      to remember a floor. */
  datatype Stage = Asked | Anchored(anchor: Anchor) | RolledOver(k: Keyring) | Recorded(generation: nat)
    | Due(generation: nat) | Done

  /** A command, with the floor it was told, and the record it is about to save. */
  datatype Command = Command(floor: Floor, stage: Stage, write: Option<Write>)

  /** A device, with its commands, and two histories since it last enrolled: the keyrings it
      accepted and recorded, and the floors that were confirmed to it and recorded. */
  datatype Device = Device(
    account: Option<Account>, commands: map<nat, Command>, accepted: seq<Keyring>, floors: seq<nat>)

  /** `account` is the key the recovery code derives, `signed` every header signed so far,
      under that key or another, and `next` the first root key never used. */
  datatype World = World(account: Key, signed: set<Header>, next: Key, floor: nat, devices: map<string, Device>)

  /** Between any two steps of a command anything may happen, also on the same device. Storage
      is at the adversary's mercy: each command names the keyring it was handed. */
  datatype Event =
    | Ask(device: string, id: nat, answer: Answer)
    | Load(device: string, id: nat)
    | Use(device: string, id: nat, k: Keyring, opens: bool)
    | Revoke(device: string, id: nat, k: Keyring, opens: bool, again: Option<Keyring>)
    | Observe(device: string, id: nat)
    | Tell(device: string, id: nat, raise: Raise)
    | Remember(device: string, id: nat)
    | Join(device: string, id: nat, k: Keyring, opens: bool, generation: nat, relayed: Key)
    | Recover(device: string, id: nat, k: Keyring, opens: bool)
    | Save(device: string, id: nat)
    | Drop(device: string, id: nat)
    | Forget(device: string)
    | Sign(header: Header)
    | Report(generation: nat)

  // ---------------------------------------------------------------------------
  // The record
  // ---------------------------------------------------------------------------

  /** Remembering a floor: a load, and a save if the recorded one is lower. */
  function RememberWrite(account: Option<Account>, n: nat): Option<Write> {
    if account.Some? && account.value.confirmed < n then
      Some(Write(account, account.value.(confirmed := n), OfFloor(n)))
    else None
  }

  /** Recording a keyring: a load, and a save unless that is what is on record. */
  function ObserveWrite(account: Option<Account>, k: Keyring): Option<Write> {
    if account.None?
      || (account.value.generation == k.current && account.value.recipient == k.Recipient(k.current)) then None
    else Some(Write(account, Moved(account, k).value, OfKeyring(k)))
  }

  /** The command has loaded the record, to remember a floor. */
  function Remembering(d: Device, id: nat, floor: Floor, stage: Stage, n: nat): Device {
    var write := RememberWrite(d.account, n);
    d.(commands := d.commands[id := Command(floor, stage, write)],
       floors := if write.None? && d.account.Some? then d.floors + [n] else d.floors)
  }

  /** The command has loaded the record, which allows `k`, to record that. */
  function Observing(d: Device, id: nat, floor: Floor, stage: Stage, k: Keyring): Device {
    var write := ObserveWrite(d.account, k);
    d.(commands := d.commands[id := Command(floor, stage, write)],
       accepted := if write.None? && d.account.Some? then d.accepted + [k] else d.accepted)
  }

  /** Enrolment starts the histories over. */
  function DoSave(d: Device, id: nat): Device
    requires id in d.commands && d.commands[id].write.Some?
  {
    var w := d.commands[id].write.value;
    var saved := d.(account := Some(w.account), commands := d.commands[id := d.commands[id].(write := None)]);
    match w.note
    case OfFloor(n) => saved.(floors := d.floors + [n])
    case OfKeyring(k) => saved.(accepted := d.accepted + [k])
    case OfEnrolment(k) => saved.(accepted := [k], floors := [])
  }

  // ---------------------------------------------------------------------------
  // Steps
  // ---------------------------------------------------------------------------

  /** The control plane is honest: a live answer is its floor. */
  predicate Asks(w: World, device: string, id: nat, answer: Answer) {
    && device in w.devices && id !in w.devices[device].commands && !answer.Failed?
    && (answer.Live? ==> answer.generation == w.floor)
  }

  /** The command has nothing to save. */
  predicate Ready(w: World, device: string, id: nat) {
    device in w.devices && id in w.devices[device].commands && w.devices[device].commands[id].write.None?
  }

  function DoAsk(d: Device, id: nat, answer: Answer): Device {
    var floor := Floor(true, FloorOf(d.account, answer), SourceOf(answer));
    if answer.Live? then Remembering(d, id, floor, Asked, answer.generation)
    else d.(commands := d.commands[id := Command(floor, Asked, None)])
  }

  function StageOf(d: Device, id: nat): Stage {
    if id in d.commands then d.commands[id].stage else Done
  }

  function To(d: Device, id: nat, stage: Stage): Device
    requires id in d.commands
  {
    d.(commands := d.commands[id := d.commands[id].(stage := stage)])
  }

  function AnchorOf(account: Option<Account>, floor: Floor): Anchor {
    if account.Some? then AnchorFromAccount(account.value, floor) else Anchor(0, NO_KEY, NO_KEY, floor)
  }

  function DoLoad(d: Device, id: nat): Device
    requires id in d.commands
  {
    if !d.commands[id].stage.Asked? then d else To(d, id, Anchored(AnchorOf(d.account, d.commands[id].floor)))
  }

  predicate Accepting(d: Device, id: nat, k: Keyring, opens: bool, signed: set<Header>) {
    StageOf(d, id).Anchored? && k.Parses() && Uses(d.account, StageOf(d, id).anchor, k, opens, signed)
  }

  function DoUse(d: Device, id: nat, k: Keyring, opens: bool, signed: set<Header>): Device
    requires id in d.commands
  {
    if Accepting(d, id, k, opens, signed) then Observing(d, id, d.commands[id].floor, Done, k) else To(d, id, Done)
  }

  predicate Rolling(w: World, d: Device, e: Event)
    requires e.Revoke?
  {
    StageOf(d, e.id).Anchored? && e.k.Parses() && (e.again.Some? ==> e.again.value.Parses())
    && Rolls(StageOf(d, e.id).anchor, e.k, w.account, e.opens, w.signed)
  }

  function DoRevoke(w: World, d: Device, e: Event): Device
    requires e.Revoke? && e.id in d.commands
  {
    To(d, e.id, if Rolling(w, d, e) then RolledOver(Updated(e.k, e.again, w.next)) else Done)
  }

  predicate Observes(d: Device, id: nat, signed: set<Header>) {
    && id in d.commands && d.commands[id].stage.RolledOver?
    && RecordAllows(d.account, d.commands[id].floor, d.commands[id].stage.k, signed)
  }

  function DoObserve(d: Device, id: nat, signed: set<Header>): Device
    requires id in d.commands
  {
    if !Observes(d, id, signed) then To(d, id, Done)
    else
      var k := d.commands[id].stage.k;
      Observing(d, id, d.commands[id].floor, Recorded(k.current), k)
  }

  function FloorBy(w: World, d: Device, id: nat, raise: Raise): nat {
    if StageOf(d, id).Recorded? && (raise == Carried || raise == Confirmed) then
      Raised(w.floor, StageOf(d, id).generation)
    else w.floor
  }

  function DoTell(w: World, d: Device, id: nat, raise: Raise): Device
    requires id in d.commands
  {
    To(d, id, if StageOf(d, id).Recorded? && raise == Carried then Due(FloorBy(w, d, id, raise)) else Done)
  }

  function DoRemember(d: Device, id: nat): Device
    requires id in d.commands
  {
    if !d.commands[id].stage.Due? then d
    else Remembering(d, id, d.commands[id].floor, Done, d.commands[id].stage.generation)
  }

  predicate Enrols(w: World, d: Device, e: Event)
    requires e.Join? || e.Recover?
  {
    && e.id in d.commands && d.commands[e.id].stage.Asked? && e.k.Parses()
    && match e
       case Join(_, id, k, opens, generation, relayed) =>
         Joins(d.commands[id].floor, k, generation, relayed, opens, w.signed)
       case Recover(_, id, k, opens) => Recovers(d.commands[id].floor, k, w.account, opens, w.signed)
  }

  /** A record of the keyring is saved over whatever is there, and then the floor is
      remembered, which only now has a record to be in. */
  function DoEnrol(w: World, d: Device, e: Event): Device
    requires (e.Join? || e.Recover?) && e.id in d.commands
  {
    if !Enrols(w, d, e) then To(d, e.id, Done)
    else
      var floor := d.commands[e.id].floor;
      var account := Account(e.k.current, e.k.Recipient(e.k.current), e.k.accountKey, 0);
      d.(commands := d.commands[e.id :=
        Command(floor, Due(floor.generation), Some(Write(d.account, account, OfEnrolment(e.k))))])
  }

  function Put(w: World, device: string, d: Device): World {
    w.(devices := w.devices[device := d])
  }

  predicate GoesOn(e: Event) {
    e.Load? || e.Use? || e.Revoke? || e.Observe? || e.Tell? || e.Remember? || e.Join? || e.Recover?
  }

  /** A step of a command that has nothing to save. */
  function StepReady(w: World, d: Device, e: Event): World
    requires GoesOn(e) && e.id in d.commands
  {
    match e
    case Load(device, id) => Put(w, device, DoLoad(d, id))
    case Use(device, id, k, opens) => Put(w, device, DoUse(d, id, k, opens, w.signed))
    case Revoke(device, id, k, _, again) =>
      Put(w, device, DoRevoke(w, d, e)).(
        signed := if Rolling(w, d, e) then SignedAfter(k, again, w.next, w.signed) else w.signed, next := w.next + 1)
    case Observe(device, id) => Put(w, device, DoObserve(d, id, w.signed))
    case Tell(device, id, raise) => Put(w, device, DoTell(w, d, id, raise)).(floor := FloorBy(w, d, id, raise))
    case Remember(device, id) => Put(w, device, DoRemember(d, id))
    case _ => Put(w, e.device, DoEnrol(w, d, e))
  }

  function Step(w: World, e: Event): World {
    match e
    case Ask(device, id, answer) =>
      if !Asks(w, device, id, answer) then w else Put(w, device, DoAsk(w.devices[device], id, answer))
    case Save(device, id) =>
      if device !in w.devices || id !in w.devices[device].commands || w.devices[device].commands[id].write.None?
      then w else Put(w, device, DoSave(w.devices[device], id))
    case Drop(device, id) =>
      if device !in w.devices then w
      else Put(w, device, w.devices[device].(commands := w.devices[device].commands - {id}))
    case Forget(device) =>
      if device !in w.devices then w
      else Put(w, device, w.devices[device].(account := None, accepted := [], floors := []))
    case Sign(header) =>
      if header.accountKey == w.account then w else w.(signed := w.signed + {header})
    case Report(generation) =>
      w.(floor := Raised(w.floor, generation))
    case _ =>
      if !Ready(w, e.device, e.id) then w else StepReady(w, w.devices[e.device], e)
  }

  function After(w: World, events: seq<Event>): World
    decreases |events|
  {
    if events == [] then w else Step(After(w, events[..|events| - 1]), events[|events| - 1])
  }

  /** A device that has not enrolled. */
  const FRESH := Device(None, map[], [], [])

  /** The account has just been created on one device. */
  ghost predicate Initial(w: World, founder: string) {
    && w.account != NO_KEY && w.next == 2 && w.floor == 0
    && w.signed == {Header(w.account, 1, 1, 0, NO_KEY)}
    && founder in w.devices
    && w.devices[founder]
       == Device(Some(Account(1, 1, w.account, 0)), map[], [Keyring(w.account, [1], 1)], [])
    && forall name :: name in w.devices && name != founder ==> w.devices[name] == FRESH
  }

  // ---------------------------------------------------------------------------
  // What always holds
  // ---------------------------------------------------------------------------

  ghost predicate SignedOk(w: World) {
    && w.account != NO_KEY && w.next != NO_KEY && FreshRecipients(w.account, w.signed)
    && forall h :: h in w.signed && h.accountKey == w.account ==> h.recipient < w.next
  }

  /** `k` is a keyring under the record's key that holds the recorded generation and goes on
      from there. */
  ghost predicate Continues(a: Account, signed: set<Header>, k: Keyring) {
    k.accountKey == a.accountKey && Authentic(k, signed) && k.current >= a.generation
      && k.Recipient(a.generation) == a.recipient
  }

  /** A record about to be saved is the one loaded but for what it is saved for. */
  ghost predicate WriteOk(signed: set<Header>, w: Write) {
    && (w.base.Some? ==> ValidAccount(w.base.value))
    && match w.note
       case OfFloor(n) =>
         w.base.Some? && w.account == w.base.value.(confirmed := n) && w.base.value.confirmed < n
       case OfKeyring(k) =>
         w.base.Some? && k.Parses() && Some(w.account) == Moved(w.base, k) && Continues(w.base.value, signed, k)
       case OfEnrolment(k) =>
         k.Parses() && Authentic(k, signed)
         && w.account == Account(k.current, k.Recipient(k.current), k.accountKey, 0)
  }

  ghost predicate CommandOk(signed: set<Header>, c: Command) {
    && c.floor.decided && (c.write.Some? ==> WriteOk(signed, c.write.value))
    && match c.stage
       case Anchored(a) => a.floor == c.floor && (a.generation != 0 ==> a.recipient != NO_KEY && a.accountKey != NO_KEY)
       case RolledOver(k) => k.Parses()
       case _ => true
  }

  ghost predicate BaseOk(signed: set<Header>, d: Device) {
    && (d.account.Some? ==> ValidAccount(d.account.value))
    && forall id :: id in d.commands ==> CommandOk(signed, d.commands[id])
  }

  ghost predicate Inv(w: World) {
    SignedOk(w) && forall name :: name in w.devices ==> BaseOk(w.signed, w.devices[name])
  }

  lemma BaseGrows(signed: set<Header>, signed': set<Header>, d: Device)
    requires BaseOk(signed, d) && signed <= signed'
    ensures BaseOk(signed', d)
  {}

  /** Only command `id` got further, or the record and the histories changed. */
  lemma OneCommand(signed: set<Header>, d: Device, id: nat, c: Command, d': Device)
    requires BaseOk(signed, d) && d'.commands == d.commands[id := c] && CommandOk(signed, c)
    requires d'.account.Some? ==> ValidAccount(d'.account.value)
    ensures BaseOk(signed, d')
  {}

  lemma RememberingBase(signed: set<Header>, d: Device, id: nat, floor: Floor, stage: Stage, n: nat)
    requires BaseOk(signed, d) && floor.decided && !stage.Anchored? && !stage.RolledOver?
    ensures BaseOk(signed, Remembering(d, id, floor, stage, n))
  {
    OneCommand(signed, d, id, Command(floor, stage, RememberWrite(d.account, n)), Remembering(d, id, floor, stage, n));
  }

  lemma ObservingBase(signed: set<Header>, d: Device, id: nat, floor: Floor, stage: Stage, k: Keyring)
    requires BaseOk(signed, d) && floor.decided && !stage.Anchored? && !stage.RolledOver?
    requires k.Parses() && RecordAllows(d.account, floor, k, signed)
    ensures BaseOk(signed, Observing(d, id, floor, stage, k))
  {
    hide BaseOk;
    assert d.account.Some? ==> ValidAccount(d.account.value) by { assert BaseOk(signed, d); BaseValid(signed, d); }
    OneCommand(signed, d, id, Command(floor, stage, ObserveWrite(d.account, k)), Observing(d, id, floor, stage, k));
  }

  lemma BaseValid(signed: set<Header>, d: Device)
    requires BaseOk(signed, d)
    ensures d.account.Some? ==> ValidAccount(d.account.value)
    ensures forall id :: id in d.commands ==> CommandOk(signed, d.commands[id])
  {}

  lemma SaveBase(signed: set<Header>, d: Device, id: nat)
    requires BaseOk(signed, d) && id in d.commands && d.commands[id].write.Some?
    ensures BaseOk(signed, DoSave(d, id))
  {
    assert CommandOk(signed, d.commands[id]);
    OneCommand(signed, d, id, d.commands[id].(write := None), DoSave(d, id));
  }

  lemma ReadyBase(w: World, d: Device, e: Event)
    requires Inv(w) && GoesOn(e) && !e.Revoke? && e.device in w.devices && w.devices[e.device] == d
    requires e.id in d.commands && d.commands[e.id].write.None?
    ensures BaseOk(w.signed, StepReady(w, d, e).devices[e.device])
  {
    hide BaseOk, MayAct, Rolling;
    BaseValid(w.signed, d);
    var c, d' := d.commands[e.id], StepReady(w, d, e).devices[e.device];
    match e {
    case Use(_, id, k, opens) =>
      if Accepting(d, id, k, opens, w.signed) { ObservingBase(w.signed, d, id, c.floor, Done, k); }
    case Observe(_, id) =>
      if Observes(d, id, w.signed) {
        ObservingBase(w.signed, d, id, c.floor, Recorded(c.stage.k.current), c.stage.k);
      }
    case Remember(_, id) =>
      if c.stage.Due? { RememberingBase(w.signed, d, id, c.floor, Done, c.stage.generation); }
    case _ =>
    }
    if (e.Join? || e.Recover?) && Enrols(w, d, e) { EnrolBase(w, d, e); }
    if d'.commands == d.commands[e.id := d'.commands[e.id]] && d'.account == d.account
      && CommandOk(w.signed, d'.commands[e.id]) {
      OneCommand(w.signed, d, e.id, d'.commands[e.id], d');
    }
  }

  lemma EnrolBase(w: World, d: Device, e: Event)
    requires (e.Join? || e.Recover?) && Enrols(w, d, e) && BaseOk(w.signed, d)
    ensures BaseOk(w.signed, DoEnrol(w, d, e))
  {
    OneCommand(w.signed, d, e.id, DoEnrol(w, d, e).commands[e.id], DoEnrol(w, d, e));
  }

  lemma RevokeBase(w: World, d: Device, e: Event)
    requires Inv(w) && e.Revoke? && e.device in w.devices && w.devices[e.device] == d
    requires e.id in d.commands && d.commands[e.id].write.None?
    ensures
      var w' := StepReady(w, d, e);
      w.signed <= w'.signed && SignedOk(w') && BaseOk(w.signed, w'.devices[e.device])
  {
    BaseValid(w.signed, d);
    OneCommand(w.signed, d, e.id, DoRevoke(w, d, e).commands[e.id], DoRevoke(w, d, e));
  }

  predicate OfDevice(e: Event, name: string) {
    !e.Sign? && !e.Report? && e.device == name
  }

  lemma OthersStay(w: World, e: Event)
    ensures Step(w, e).devices.Keys == w.devices.Keys
    ensures forall name :: name in w.devices && !OfDevice(e, name) ==> Step(w, e).devices[name] == w.devices[name]
  {
    hide DoAsk, DoLoad, DoUse, DoRevoke, DoObserve, DoTell, DoRemember, DoEnrol, DoSave, Rolling, FloorBy;
  }

  lemma DropBase(signed: set<Header>, d: Device, id: nat)
    requires BaseOk(signed, d)
    ensures BaseOk(signed, d.(commands := d.commands - {id}))
    ensures BaseOk(signed, d.(account := None, accepted := [], floors := []))
  {}

  lemma AskBase(signed: set<Header>, d: Device, id: nat, answer: Answer)
    requires BaseOk(signed, d)
    ensures BaseOk(signed, DoAsk(d, id, answer))
  {
    hide BaseOk;
    BaseValid(signed, d);
    var floor := Floor(true, FloorOf(d.account, answer), SourceOf(answer));
    if answer.Live? {
      RememberingBase(signed, d, id, floor, Asked, answer.generation);
    } else {
      OneCommand(signed, d, id, Command(floor, Asked, None), DoAsk(d, id, answer));
    }
  }

  lemma SignsOk(w: World, h: Header)
    requires SignedOk(w) && h.accountKey != w.account
    ensures SignedOk(w.(signed := w.signed + {h}))
  {}

  /** Every step, races or not. */
  lemma StepKeepsInv(w: World, e: Event)
    requires Inv(w)
    ensures Inv(Step(w, e)) && w.signed <= Step(w, e).signed && w.floor <= Step(w, e).floor
  {
    hide BaseOk, SignedOk, DoAsk, DoLoad, DoUse, DoRevoke, DoObserve, DoTell, DoRemember, DoEnrol, DoSave, Rolling;
    var w' := Step(w, e);
    OthersStay(w, e);
    if GoesOn(e) {
      if Ready(w, e.device, e.id) {
        if e.Revoke? { RevokeBase(w, w.devices[e.device], e); } else { ReadyBase(w, w.devices[e.device], e); }
      }
    } else {
      match e {
      case Ask(device, id, answer) =>
        if Asks(w, device, id, answer) { AskBase(w.signed, w.devices[device], id, answer); }
      case Save(device, id) =>
        if device in w.devices && id in w.devices[device].commands && w.devices[device].commands[id].write.Some? {
          SaveBase(w.signed, w.devices[device], id);
        }
      case Drop(device, id) => if device in w.devices { DropBase(w.signed, w.devices[device], id); }
      case Forget(device) => if device in w.devices { DropBase(w.signed, w.devices[device], 0); }
      case Sign(h) => if h.accountKey != w.account { SignsOk(w, h); }
      case _ =>
      }
    }
    if w'.signed == w.signed && w'.next == w.next && w'.account == w.account { FloorDoesNotMatter(w, w'); }
    forall name | name in w'.devices ensures BaseOk(w'.signed, w'.devices[name]) {
      if OfDevice(e, name) {
        BaseGrows(w.signed, w'.signed, w'.devices[name]);
      } else {
        BaseGrows(w.signed, w'.signed, w.devices[name]);
      }
    }
  }

  lemma FloorDoesNotMatter(w: World, w': World)
    requires SignedOk(w) && w'.account == w.account && w'.signed == w.signed && w'.next == w.next
    ensures SignedOk(w')
  {}

  lemma {:induction false} RunKeepsInv(w: World, events: seq<Event>)
    requires Inv(w)
    ensures Inv(After(w, events)) && After(w, events).account == w.account
    ensures After(w, events).devices.Keys == w.devices.Keys
    decreases |events|
  {
    hide Inv;
    if events != [] {
      var before := events[..|events| - 1];
      RunKeepsInv(w, before);
      StepKeepsInv(After(w, before), events[|events| - 1]);
      OthersStay(After(w, before), events[|events| - 1]);
      AccountStays(After(w, before), events[|events| - 1]);
    }
  }

  lemma AccountStays(w: World, e: Event)
    ensures Step(w, e).account == w.account
  {
    hide DoAsk, DoLoad, DoUse, DoRevoke, DoObserve, DoTell, DoRemember, DoEnrol, DoSave, Rolling, FloorBy;
  }

  lemma InitialInv(w: World, founder: string)
    requires Initial(w, founder)
    ensures Inv(w)
  {}

  // ---------------------------------------------------------------------------
  // No rollback
  // ---------------------------------------------------------------------------

  /** The step accepts `k`. A revocation accepts the keyring it rolls over, and, with a record,
      what that has become. */
  ghost predicate Accepts(w: World, e: Event, k: Keyring) {
    && GoesOn(e) && Ready(w, e.device, e.id)
    && var d := w.devices[e.device];
    match e
    case Use(_, id, k', opens) => k' == k && Accepting(d, id, k, opens, w.signed)
    case Revoke(_, _, k', _, _) => k' == k && Rolling(w, d, e)
    case Observe(_, id) => d.account.Some? && Observes(d, id, w.signed) && k == d.commands[id].stage.k
    case Join(_, _, k', _, _, _) => k' == k && Enrols(w, d, e)
    case Recover(_, _, k', _) => k' == k && Enrols(w, d, e)
    case _ => false
  }

  /** Command `id` of `device` begins at step `m` of the run, and gets that answer. */
  ghost predicate Begins(w: World, events: seq<Event>, m: nat, device: string, id: nat, answer: Answer) {
    && m < |events| && events[m] == Ask(device, id, answer) && Asks(After(w, events[..m]), device, id, answer)
    && forall i :: m < i < |events| ==> !Again(events[i], device, id)
  }

  predicate Again(e: Event, device: string, id: nat) {
    e.Ask? && e.device == device && e.id == id
  }

  lemma {:induction false} FloorNeverFalls(w: World, events: seq<Event>, n: nat)
    requires Inv(w) && n <= |events|
    ensures After(w, events[..n]).floor <= After(w, events).floor
    decreases |events|
  {
    hide Inv;
    if n == |events| {
      assert events[..n] == events;
    } else {
      var before := events[..|events| - 1];
      assert before[..n] == events[..n];
      FloorNeverFalls(w, before, n);
      RunKeepsInv(w, before);
      StepKeepsInv(After(w, before), events[|events| - 1]);
    }
  }

  /** A command's floor stays what it was told, and its anchor what it loaded. */
  lemma CommandStays(w: World, e: Event, device: string, id: nat)
    requires device in w.devices && !Again(e, device, id) && id in Step(w, e).devices[device].commands
    ensures id in w.devices[device].commands
    ensures
      var c, c' := w.devices[device].commands[id], Step(w, e).devices[device].commands[id];
      && c'.floor == c.floor && StageGoes(c.stage, c'.stage)
      && (c'.stage.Anchored? && !c.stage.Anchored? ==> e == Load(device, id) && Ready(w, device, id))
      && (c'.stage.Anchored? && !c.stage.Anchored? ==>
        c'.stage.anchor == AnchorOf(w.devices[device].account, c.floor))
  {
    hide Uses, Rolls, RecordAllows, Joins, Recovers;
    OthersStay(w, e);
  }

  /** The ways a command can go on. */
  predicate StageGoes(s: Stage, s': Stage) {
    match s'
    case Asked => s.Asked?
    case Anchored(_) => s == s' || s.Asked?
    case RolledOver(_) => s == s' || s.Anchored?
    case Recorded(n) => s == s' || (s.RolledOver? && s.k.current == n)
    case Due(_) => s == s' || s.Recorded? || s.Asked?
    case Done => true
  }

  /** What a command was told stands until it ends, whatever others do meanwhile. */
  lemma {:induction false} AnswerStands(w: World, events: seq<Event>, m: nat, device: string, id: nat, answer: Answer)
    requires Begins(w, events, m, device, id, answer)
    ensures
      var asked, now := After(w, events[..m]), After(w, events);
      && device in asked.devices && device in now.devices
      && (id in now.devices[device].commands ==>
        now.devices[device].commands[id].floor
        == Floor(true, FloorOf(asked.devices[device].account, answer), SourceOf(answer)))
    decreases |events|
  {
    hide Step, Asks;
    var before, e := events[..|events| - 1], events[|events| - 1];
    if m == |events| - 1 {
      assert before == events[..m];
      AsksFloor(After(w, before), device, id, answer);
    } else {
      assert before[..m] == events[..m] && before[m] == events[m];
      forall i | m < i < |before| ensures !Again(before[i], device, id) { assert before[i] == events[i]; }
      AnswerStands(w, before, m, device, id, answer);
      OthersStay(After(w, before), e);
      if id in After(w, events).devices[device].commands { CommandStays(After(w, before), e, device, id); }
    }
  }

  lemma AsksFloor(w: World, device: string, id: nat, answer: Answer)
    requires Asks(w, device, id, answer)
    ensures
      var w' := Step(w, Ask(device, id, answer));
      && device in w.devices && device in w'.devices && id in w'.devices[device].commands
      && w'.devices[device].commands[id].floor
         == Floor(true, FloorOf(w.devices[device].account, answer), SourceOf(answer))
  {}

  lemma AcceptedReachesFloor(w: World, e: Event, k: Keyring)
    requires Inv(w) && Accepts(w, e, k)
    ensures k.current >= w.devices[e.device].commands[e.id].floor.generation
  {
    BaseValid(w.signed, w.devices[e.device]);
    assert CommandOk(w.signed, w.devices[e.device].commands[e.id]);
  }

  /** Once the account's floor has reached some generation, no command on any device that asks
      the control plane after that, and is answered, accepts a keyring below it: not on a
      device that joins or recovers, not on one that never read that generation, and whatever
      happens on any device between the answer and the keyring, saves of its record included. */
  lemma NoRollbackAnywhere(w: World, founder: string, events: seq<Event>, n: nat, m: nat, answer: Answer,
      e: Event, k: Keyring)
    requires Initial(w, founder) && Accepts(After(w, events), e, k)
    requires n <= m && Begins(w, events, m, e.device, e.id, answer) && answer.Live?
    ensures k.current >= After(w, events[..n]).floor
  {
    hide Inv;
    InitialInv(w, founder);
    RunKeepsInv(w, events);
    assert events[..m][..n] == events[..n];
    FloorNeverFalls(w, events[..m], n);
    AnswerStands(w, events, m, e.device, e.id, answer);
    AcceptedReachesFloor(After(w, events), e, k);
  }

  /** Command `id` of `device` rolls the keyring over at step `r`, and tells the control plane
      so at step `i`. */
  ghost predicate RevokesAndTells(w: World, events: seq<Event>, r: nat, i: nat) {
    && r < i < |events| && events[r].Revoke? && events[i].Tell?
    && events[i].device == events[r].device && events[i].id == events[r].id
    && (events[i].raise == Carried || events[i].raise == Confirmed)
    && Accepts(After(w, events[..r]), events[r], events[r].k)
    && (forall j :: r < j < i ==> !Again(events[j], events[r].device, events[r].id))
    && var at := After(w, events[..i]);
    Ready(at, events[r].device, events[r].id) && at.devices[events[r].device].commands[events[r].id].stage.Recorded?
  }

  /** A rollover is recorded as what it was. */
  lemma {:induction false} RolloverStands(w: World, events: seq<Event>, r: nat)
    requires r < |events| && events[r].Revoke? && Accepts(After(w, events[..r]), events[r], events[r].k)
    requires forall j :: r < j < |events| ==> !Again(events[j], events[r].device, events[r].id)
    ensures
      var d := events[r].device;
      var now, k := After(w, events), Updated(events[r].k, events[r].again, After(w, events[..r]).next);
      d in now.devices
      && (events[r].id in now.devices[d].commands ==>
        match now.devices[d].commands[events[r].id].stage
        case RolledOver(k') => k' == k
        case Recorded(n) => n == k.current
        case Due(_) => true
        case Done => true
        case _ => false)
    decreases |events|
  {
    hide Step, Accepts;
    var before, e := events[..|events| - 1], events[|events| - 1];
    if r == |events| - 1 {
      assert before == events[..r];
      RevokeRolls(After(w, before), e);
    } else {
      assert before[..r] == events[..r] && before[r] == events[r];
      forall j | r < j < |before| ensures !Again(before[j], events[r].device, events[r].id) {
        assert before[j] == events[j];
      }
      RolloverStands(w, before, r);
      OthersStay(After(w, before), e);
      if events[r].id in After(w, events).devices[events[r].device].commands {
        CommandStays(After(w, before), e, events[r].device, events[r].id);
      }
    }
  }

  lemma RevokeRolls(w: World, e: Event)
    requires e.Revoke? && Accepts(w, e, e.k)
    ensures
      var w' := Step(w, e);
      && e.device in w'.devices && e.id in w'.devices[e.device].commands
      && w'.devices[e.device].commands[e.id].stage == RolledOver(Updated(e.k, e.again, w.next))
  {}

  lemma TellRaises(w: World, e: Event)
    requires e.Tell? && (e.raise == Carried || e.raise == Confirmed) && Ready(w, e.device, e.id)
    requires w.devices[e.device].commands[e.id].stage.Recorded?
    ensures Step(w, e).floor >= w.devices[e.device].commands[e.id].stage.generation
  {}

  /** In particular after a revocation that told the control plane, made then or found made
      already: every command that asks after that, and is answered, accepts only keyrings that
      have reached the generation the revocation left. */
  lemma RevocationReachesEveryone(w: World, founder: string, events: seq<Event>, r: nat, i: nat, m: nat,
      answer: Answer, e: Event, k: Keyring)
    requires Initial(w, founder) && Accepts(After(w, events), e, k) && RevokesAndTells(w, events, r, i)
    requires i < m && Begins(w, events, m, e.device, e.id, answer) && answer.Live?
    ensures k.current >= Updated(events[r].k, events[r].again, After(w, events[..r]).next).current
    ensures events[r].again.None? ==> k.current > |events[r].k.recipients|
  {
    hide Accepts, Begins, Step;
    var before := events[..i];
    assert events[..i + 1][..i] == before && before[..r] == events[..r] && before[r] == events[r];
    RolloverStands(w, before, r);
    TellRaises(After(w, before), events[i]);
    NoRollbackAnywhere(w, founder, events, i + 1, m, answer, e, k);
  }
}
