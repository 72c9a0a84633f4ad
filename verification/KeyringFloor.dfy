/** The account-wide key generation floor and the enrolment record a device keeps
    (internal/cli/keyring_floor.go, internal/cli/account.go, internal/cli/pairing.go). */
module KeyringFloor {
  import opened Wrappers
  import opened Keyring

  /** How asking the control plane for the floor went. */
  datatype Answer = Live(generation: nat) | NotServed | Failed | NotHop

  /** How telling it of a new generation went. A request from the console is confirmed
      instead, which raises the floor too but leaves nothing to remember; a deployment may
      not carry a floor at all. */
  datatype Raise = Carried | Confirmed | NotCarried | Fails

  /** Ends of a command: accepted the keyring, refused it, or stopped for another reason. */
  datatype Outcome = Accepted | Refused(why: Refusal) | Stopped

  function Raised(a: nat, b: nat): (m: nat)
    ensures m >= a && m >= b && (m == a || m == b)
  {
    if a < b then b else a
  }

  // ---------------------------------------------------------------------------
  // The record
  // ---------------------------------------------------------------------------

  /** The floor recorded only rises, and needs a record to be in. */
  function Remembered(account: Option<Account>, generation: nat): Option<Account> {
    if account.Some? then Some(account.value.(confirmed := Raised(account.value.confirmed, generation))) else None
  }

  function ConfirmedTo(account: Option<Account>): nat {
    if account.Some? then account.value.confirmed else 0
  }

  /** The generation a command's floor stands at, given the answer it got. */
  function FloorOf(account: Option<Account>, answer: Answer): nat {
    match answer
    case Live(n) => n
    case NotServed => ConfirmedTo(account)
    case _ => 0
  }

  function AfterAnswer(account: Option<Account>, answer: Answer): Option<Account> {
    if answer.Live? then Remembered(account, answer.generation) else account
  }

  function SourceOf(answer: Answer): Source {
    match answer
    case Live(_) => ControlPlane
    case NotServed => LastConfirmed
    case _ => NoControlPlane
  }

  /** The anchor of a command that got `answer`. A device with no record has none of its own. */
  function AnchorFor(account: Option<Account>, answer: Answer): Anchor {
    var floor := Floor(true, FloorOf(account, answer), SourceOf(answer));
    if account.Some? then AnchorFromAccount(account.value, floor) else Anchor(0, NO_KEY, NO_KEY, floor)
  }

  /** Only the generation and its recipient ever move, and they move to the keyring's. */
  function Moved(account: Option<Account>, k: Keyring): Option<Account> {
    if account.Some? then Some(account.value.(generation := k.current, recipient := k.Recipient(k.current))) else None
  }

  /** The record, if there is one, has no objection to `k`. */
  predicate RecordAllows(account: Option<Account>, floor: Floor, k: Keyring, signed: set<Header>) {
    account.Some? ==> MayAct(AnchorFromAccount(account.value, floor), k, signed)
  }

  /** What a command acts on: a keyring its anchor allows, and that the record, which may have
      moved since the anchor was taken from it, still allows. */
  predicate Uses(account: Option<Account>, anchor: Anchor, k: Keyring, opens: bool, signed: set<Header>) {
    opens && MayAct(anchor, k, signed) && RecordAllows(account, anchor.floor, k, signed)
  }

  /** Joining needs both channels to agree: the relayed root key is that of the generation
      the approval names, which is the keyring's current one. */
  predicate Joins(floor: Floor, k: Keyring, generation: nat, relayed: Key, opens: bool, signed: set<Header>) {
    && opens && k.current == generation && k.Recipient(k.current) == relayed
    && MayAct(Anchor(0, NO_KEY, NO_KEY, floor), k, signed)
  }

  predicate Recovers(floor: Floor, k: Keyring, accountKey: Key, opens: bool, signed: set<Header>) {
    opens && MayAct(Anchor(0, NO_KEY, accountKey, floor), k, signed)
  }

  /** A fresh enrolment records the keyring, and the floor, which only now has a record. */
  function Enrolled(k: Keyring, floor: Floor): Account {
    Account(k.current, k.Recipient(k.current), k.accountKey, floor.generation)
  }

  // ---------------------------------------------------------------------------
  // Revoking
  // ---------------------------------------------------------------------------

  /** The rollover is made: the keyring may be acted on, and the recovery code derives the
      key it is signed by. */
  predicate Rolls(anchor: Anchor, k: Keyring, accountKey: Key, opens: bool, signed: set<Header>) {
    opens && k.accountKey == accountKey && MayAct(anchor, k, signed)
  }

  /** What the keyring has become: rolled over, or, where the rollover turned out to have
      been made already, what is read `again`. */
  function Updated(k: Keyring, again: Option<Keyring>, newKey: Key): Keyring {
    if again.Some? then again.value else Rolled(k, newKey)
  }

  function SignedAfter(k: Keyring, again: Option<Keyring>, newKey: Key, signed: set<Header>): set<Header> {
    if again.Some? then signed else signed + {RolledHeader(k, newKey)}
  }

  // ---------------------------------------------------------------------------
  // A device's home
  // ---------------------------------------------------------------------------

  class ControlPlane {
    var floor: nat

    constructor ()
      ensures floor == 0
    {
      floor := 0;
    }
  }

  class Home {
    var account: Option<Account>

    constructor ()
      ensures account.None?
    {
      account := None;
    }

    method Remember(floor: Floor)
      modifies this
      ensures account == if floor.decided then Remembered(old(account), floor.generation) else old(account)
    {
      if !floor.decided || floor.generation <= 0 {
        return;
      }
      if account.None? {
        return;
      }
      if account.value.confirmed >= floor.generation {
        return;
      }
      account := Some(account.value.(confirmed := floor.generation));
    }

    method Confirm(answer: Answer) returns (floor: Option<Floor>)
      modifies this
      ensures floor.None? <==> answer.Failed?
      ensures floor.Some? ==> floor.value == Floor(true, FloorOf(old(account), answer), SourceOf(answer))
      ensures account == AfterAnswer(old(account), answer)
    {
      match answer
      case NotHop =>
        return Some(Floor(true, 0, NoControlPlane));
      case Failed =>
        return None;
      case NotServed =>
        if account.None? {
          return Some(Floor(true, 0, LastConfirmed));
        }
        return Some(Floor(true, account.value.confirmed, LastConfirmed));
      case Live(n) =>
        Remember(Floor(true, n, ControlPlane));
        return Some(Floor(true, n, ControlPlane));
    }

    /** The anchor of one command: the floor as the control plane answers, and the record. */
    method LoadAnchor(answer: Answer) returns (anchor: Option<Anchor>)
      modifies this
      ensures anchor.None? <==> answer.Failed?
      ensures anchor.Some? ==> anchor.value == AnchorFor(old(account), answer)
      ensures account == AfterAnswer(old(account), answer)
    {
      var floor := Confirm(answer);
      if floor.None? {
        return None;
      }
      if account.None? {
        return Some(Anchor(0, NO_KEY, NO_KEY, floor.value));
      }
      return Some(AnchorFromAccount(account.value, floor.value));
    }

    method Observe(floor: Floor, k: Keyring, signed: set<Header>) returns (refusal: Option<Refusal>)
      modifies this
      ensures refusal.None? <==> RecordAllows(old(account), floor, k, signed)
      ensures account == if refusal.None? then Moved(old(account), k) else old(account)
      ensures refusal.Some? ==> Justified(refusal.value, AnchorFromAccount(old(account).value, floor), k, signed)
    {
      if account.None? {
        return None;
      }
      refusal := Check(AnchorFromAccount(account.value, floor), k, signed);
      CheckExactly(AnchorFromAccount(account.value, floor), k, signed);
      if refusal.Some? {
        return;
      }
      var recipient := k.Recipient(k.current);
      if account.value.generation == k.current && account.value.recipient == recipient {
        return;
      }
      account := Some(account.value.(generation := k.current, recipient := recipient));
    }

    /** Acting on a keyring: check it against the anchor, unwrap it, record it. `opens` tells
        whether this device's wraps open. */
    method Use(anchor: Anchor, k: Keyring, opens: bool, signed: set<Header>) returns (outcome: Outcome)
      modifies this
      ensures outcome == Accepted <==> Uses(old(account), anchor, k, opens, signed)
      ensures account == if outcome == Accepted then Moved(old(account), k) else old(account)
      ensures outcome == Accepted ==> opens && k.current >= anchor.floor.generation
      ensures outcome == Accepted && old(account).Some? ==>
        k.current >= old(account).value.generation && account.value.accountKey == old(account).value.accountKey
    {
      CheckExactly(anchor, k, signed);
      var refusal := Check(anchor, k, signed);
      if refusal.Some? {
        return Refused(refusal.value);
      }
      if !opens {
        return Stopped;
      }
      refusal := Observe(anchor.floor, k, signed);
      if refusal.Some? {
        return Refused(refusal.value);
      }
      return Accepted;
    }

    /** Revoking a device: roll the keyring over, record what it has become, and only then
        raise the floor. `observed` says that it has been recorded. */
    method Revoke(plane: ControlPlane, anchor: Anchor, k: Keyring, again: Option<Keyring>, newKey: Key,
                  accountKey: Key, opens: bool, raise: Raise, signed: set<Header>)
      returns (outcome: Outcome, observed: bool)
      modifies this, plane
      ensures
        var updated, signed' := Updated(k, again, newKey), SignedAfter(k, again, newKey, signed);
        && (observed <==>
          Rolls(anchor, k, accountKey, opens, signed) && RecordAllows(old(account), anchor.floor, updated, signed'))
        && (outcome == Accepted <==> observed && raise != Fails)
        && plane.floor == (if observed && (raise == Carried || raise == Confirmed) then
          Raised(old(plane.floor), updated.current)
                           else old(plane.floor))
        && account == (if !observed then old(account)
                       else if raise == Carried then Remembered(Moved(old(account), updated), plane.floor)
                       else Moved(old(account), updated))
      ensures outcome == Accepted ==> opens && k.accountKey == accountKey && k.current >= anchor.floor.generation
      ensures plane.floor >= old(plane.floor)
      ensures plane.floor > old(plane.floor) ==> observed && (account.Some? ==> plane.floor == account.value.generation)
    {
      observed := false;
      CheckExactly(anchor, k, signed);
      var refusal := Check(anchor, k, signed);
      if refusal.Some? {
        return Refused(refusal.value), false;
      }
      if !opens || k.accountKey != accountKey {
        return Stopped, false;
      }
      var updated := if again.Some? then again.value else Rolled(k, newKey);
      refusal := Observe(anchor.floor, updated, SignedAfter(k, again, newKey, signed));
      if refusal.Some? {
        return Refused(refusal.value), false;
      }
      observed := true;
      match raise
      case Fails =>
        return Stopped, true;
      case NotCarried =>
        return Accepted, true;
      case Confirmed =>
        plane.floor := Raised(plane.floor, updated.current);
        return Accepted, true;
      case Carried =>
        plane.floor := Raised(plane.floor, updated.current);
        Remember(Floor(true, plane.floor, ControlPlane));
        return Accepted, true;
    }

    /** Joining: the approval names a generation and relays its root key. */
    method Join(floor: Floor, k: Keyring, generation: nat, relayed: Key, opens: bool, signed: set<Header>)
      returns (outcome: Outcome)
      modifies this
      ensures outcome == Accepted <==> Joins(floor, k, generation, relayed, opens, signed)
      ensures account == if outcome == Accepted then Some(Enrolled(k, floor)) else old(account)
      ensures outcome == Accepted ==>
        && opens && account.value.generation == generation >= floor.generation
        && account.value.recipient == relayed && account.value.confirmed == floor.generation
    {
      if k.current != generation {
        return Stopped;
      }
      CheckExactly(Anchor(0, NO_KEY, NO_KEY, floor), k, signed);
      var refusal := Check(Anchor(0, NO_KEY, NO_KEY, floor), k, signed);
      if refusal.Some? {
        return Refused(refusal.value);
      }
      if !opens || k.Recipient(k.current) != relayed {
        return Stopped;
      }
      account := Some(Account(k.current, k.Recipient(k.current), k.accountKey, 0));
      Remember(floor);
      return Accepted;
    }

    /** Enrolling from the recovery code, which derives the account key. */
    method Recover(floor: Floor, k: Keyring, accountKey: Key, opens: bool, signed: set<Header>)
        returns (outcome: Outcome)
      modifies this
      ensures outcome == Accepted <==> Recovers(floor, k, accountKey, opens, signed)
      ensures account == if outcome == Accepted then Some(Enrolled(k, floor)) else old(account)
      ensures outcome == Accepted && accountKey != NO_KEY ==>
        && opens && account.value.generation == k.current >= floor.generation
        && account.value.accountKey == accountKey && account.value.confirmed == floor.generation
    {
      CheckExactly(Anchor(0, NO_KEY, accountKey, floor), k, signed);
      var refusal := Check(Anchor(0, NO_KEY, accountKey, floor), k, signed);
      if refusal.Some? {
        return Refused(refusal.value);
      }
      if !opens {
        return Stopped;
      }
      account := Some(Account(k.current, k.Recipient(k.current), k.accountKey, 0));
      Remember(floor);
      return Accepted;
    }
  }
}
