/** A keyring as a chain of signed generations, and the check every command makes before it
    acts on one (internal/keyring/keyring.go, internal/cli/account.go,
    internal/cli/keyring_floor.go). */
module Keyring {
  import opened Wrappers

  /** Public keys. None is written NO_KEY. */
  type Key = nat
  const NO_KEY: Key := 0

  /** What the signature of a generation covers, as far as the chain goes: the account key it
      is under, the generation's number and root-key recipient, and those of the generation
      it follows. */
  datatype Header = Header(accountKey: Key, number: nat, recipient: Key, prevNumber: nat, prevRecipient: Key)

  /** Generation n is `recipients[n - 1]`. The object publishes an account key and a current
      generation. */
  datatype Keyring = Keyring(accountKey: Key, recipients: seq<Key>, current: nat)
  {
    /** The recipient of generation `n`, if there is such a generation. */
    function Recipient(n: nat): Key {
      if 1 <= n <= |recipients| then recipients[n - 1] else NO_KEY
    }

    /** What parsing a stored keyring establishes, beside signatures. */
    predicate Parses() {
      1 <= current <= |recipients| && forall i :: 0 <= i < |recipients| ==> recipients[i] != NO_KEY
    }

    function HeaderOf(n: nat): Header
      requires 1 <= n
    {
      Header(accountKey, n, Recipient(n), n - 1, Recipient(n - 1))
    }
  }

  datatype Source = LocalRecord | ControlPlane | LastConfirmed | NoControlPlane

  datatype Floor = Floor(decided: bool, generation: nat, source: Source)

  /** The enrolment record. */
  datatype Account = Account(generation: nat, recipient: Key, accountKey: Key, confirmed: nat)

  predicate ValidAccount(a: Account) {
    a.generation >= 1 && a.recipient != NO_KEY && a.accountKey != NO_KEY
  }

  datatype Anchor = Anchor(generation: nat, recipient: Key, accountKey: Key, floor: Floor)

  datatype Refusal =
    | Unauthenticated
    | KeyMismatch
    | Undecided
    | RolledBack(saw: nat, floor: nat, source: Source)
    | AnchorBroken
    | Rewritten(generation: nat)

  function AnchorFromAccount(a: Account, floor: Floor): Anchor {
    Anchor(a.generation, a.recipient, a.accountKey, floor)
  }

  /** Every generation carries a signature under the account key the object publishes.
      `signed` are the headers that have been signed at all. */
  predicate Authentic(k: Keyring, signed: set<Header>) {
    k.accountKey != NO_KEY && forall n :: 1 <= n <= |k.recipients| ==> k.HeaderOf(n) in signed
  }

  function VerifyGenerations(k: Keyring, pinned: Key, signed: set<Header>): Option<Refusal> {
    if k.accountKey == NO_KEY then Some(Unauthenticated)
    else if pinned != NO_KEY && pinned != k.accountKey then Some(KeyMismatch)
    else if !Authentic(k, signed) then Some(Unauthenticated)
    else None
  }

  function CheckKeyGenerationFloor(observed: nat, floor: nat, source: Source): Option<Refusal> {
    if observed < floor then Some(RolledBack(observed, floor, source)) else None
  }

  function Check(a: Anchor, k: Keyring, signed: set<Header>): Option<Refusal> {
    var verified := VerifyGenerations(k, a.accountKey, signed);
    var global := CheckKeyGenerationFloor(k.current, a.floor.generation, a.floor.source);
    var localFloor := CheckKeyGenerationFloor(k.current, a.generation, LocalRecord);
    if verified.Some? then verified
    else if !a.floor.decided then Some(Undecided)
    else if global.Some? then global
    else if a.generation == 0 then None
    else if a.recipient == NO_KEY || a.accountKey == NO_KEY then Some(AnchorBroken)
    else if localFloor.Some? then localFloor
    else if k.Recipient(a.generation) != a.recipient then Some(Rewritten(a.generation))
    else None
  }

  /** What a command holding the anchor `a` may act on: a keyring signed throughout, under the
      pinned key if one is pinned, not below the floor that was decided on, and, with a
      record, not below its generation and still naming its root key there. */
  predicate MayAct(a: Anchor, k: Keyring, signed: set<Header>) {
    && Authentic(k, signed) && (a.accountKey == NO_KEY || k.accountKey == a.accountKey)
    && a.floor.decided && k.current >= a.floor.generation
    && (a.generation != 0 ==>
      && a.recipient != NO_KEY && a.accountKey != NO_KEY
      && k.current >= a.generation && k.Recipient(a.generation) == a.recipient)
  }

  /** A refusal says what is wrong. */
  predicate Justified(r: Refusal, a: Anchor, k: Keyring, signed: set<Header>) {
    match r
    case Unauthenticated => !Authentic(k, signed)
    case KeyMismatch => a.accountKey != NO_KEY && k.accountKey != a.accountKey
    case Undecided => !a.floor.decided
    case RolledBack(saw, floor, source) =>
      saw == k.current < floor && (floor == a.floor.generation || floor == a.generation)
    case AnchorBroken => a.generation != 0 && (a.recipient == NO_KEY || a.accountKey == NO_KEY)
    case Rewritten(n) => n == a.generation != 0 && k.Recipient(n) != a.recipient
  }

  /** The check refuses exactly what may not be acted on, and for a reason that holds. */
  lemma CheckExactly(a: Anchor, k: Keyring, signed: set<Header>)
    ensures Check(a, k, signed).None? <==> MayAct(a, k, signed)
    ensures Check(a, k, signed).Some? ==> Justified(Check(a, k, signed).value, a, k, signed)
  {}

  /** With a record, that is exactly this. */
  lemma CheckAccepts(a: Account, floor: Floor, k: Keyring, signed: set<Header>)
    requires ValidAccount(a)
    ensures Check(AnchorFromAccount(a, floor), k, signed).None? <==>
      && k.accountKey == a.accountKey && Authentic(k, signed)
      && floor.decided && k.current >= floor.generation && k.current >= a.generation
      && k.Recipient(a.generation) == a.recipient
  {}

  /** Revoking appends a generation with a fresh root key and makes it current. Its signature
      names the generation that was current. */
  function Rolled(k: Keyring, newKey: Key): Keyring {
    Keyring(k.accountKey, k.recipients + [newKey], |k.recipients| + 1)
  }

  function RolledHeader(k: Keyring, newKey: Key): Header {
    Header(k.accountKey, |k.recipients| + 1, newKey, k.current, k.Recipient(k.current))
  }

  /** The keyring rolled over has one generation more, which is current and is the fresh root
      key's; and it verifies exactly when the generation it was based on was the last. */
  lemma RolledVerifies(k: Keyring, newKey: Key, signed: set<Header>)
    requires k.Parses() && Authentic(k, signed) && newKey != NO_KEY
    requires forall h :: h in signed ==> h.recipient != newKey
    ensures Rolled(k, newKey).Parses() && Rolled(k, newKey).accountKey == k.accountKey
    ensures Rolled(k, newKey).current == |k.recipients| + 1 && Rolled(k, newKey).Recipient(|k.recipients| + 1) == newKey
    ensures Authentic(Rolled(k, newKey), signed + {RolledHeader(k, newKey)}) <==> k.current == |k.recipients|
    ensures AgreeUpTo(k, Rolled(k, newKey), |k.recipients|)
  {
    var k', top := Rolled(k, newKey), |k.recipients| + 1;
    assert forall n :: 1 <= n <= |k.recipients| ==> k'.HeaderOf(n) == k.HeaderOf(n);
    assert k'.HeaderOf(top).recipient == newKey;
    assert k'.HeaderOf(top).prevNumber == |k.recipients|;
  }

  // ---------------------------------------------------------------------------
  // The chain
  // ---------------------------------------------------------------------------

  /** Each generation signed under `account` started with a fresh root key, so no two headers
      signed under it name the same recipient. */
  ghost predicate FreshRecipients(account: Key, signed: set<Header>) {
    forall h, h' ::
      (h in signed && h' in signed && h.accountKey == account && h'.accountKey == account
       && h.recipient == h'.recipient)
      ==> h == h'
  }

  /** Both keyrings have the generations up to `n`, with the same root keys. */
  ghost predicate AgreeUpTo(k: Keyring, k': Keyring, n: nat) {
    n <= |k.recipients| && n <= |k'.recipients| && forall g :: 1 <= g <= n ==> k.Recipient(g) == k'.Recipient(g)
  }

  /** A header names the generation before it, so two authentic keyrings of one account that
      agree on one generation agree on every earlier one. */
  lemma {:induction false} OneGenerationPinsHistory(k: Keyring, k': Keyring, signed: set<Header>, g: nat)
    requires k.accountKey == k'.accountKey && FreshRecipients(k.accountKey, signed)
    requires Authentic(k, signed) && Authentic(k', signed)
    requires g <= |k.recipients| && g <= |k'.recipients| && k.Recipient(g) == k'.Recipient(g)
    ensures AgreeUpTo(k, k', g)
    decreases g
  {
    if g > 0 {
      var h, h' := k.HeaderOf(g), k'.HeaderOf(g);
      assert h in signed && h' in signed;
      OneGenerationPinsHistory(k, k', signed, g - 1);
    }
  }

  /** Different accounts' recipients, or generations, never coincide under one account: a
      recipient found at generation `n` is found nowhere else. */
  lemma RecipientNamesGeneration(k: Keyring, k': Keyring, signed: set<Header>, n: nat, m: nat)
    requires k.accountKey == k'.accountKey && FreshRecipients(k.accountKey, signed)
    requires Authentic(k, signed) && Authentic(k', signed)
    requires 1 <= n <= |k.recipients| && 1 <= m <= |k'.recipients|
    requires k.Recipient(n) == k'.Recipient(m)
    ensures n == m
  {
    assert k.HeaderOf(n) in signed && k'.HeaderOf(m) in signed;
  }
}
