/** The daemon's event loop (internal/daemon/loop.go, Run): debounced pushes, backoff
    after failures, scheduled pulls and polls.

    Time advances only while the loop is idle and never past an armed deadline; pushes,
    pulls and polls are instantaneous. */
module DaemonLoop {
  import opened Backoff
  import opened Wrappers

  const SECOND: Duration := 1_000_000_000
  const HEARTBEAT_EVERY: Duration := 60 * SECOND

  datatype Options = Options(debounce: Duration, maxDebounce: Duration, pullEvery: Duration,
                             approvalsEvery: Duration, backoffMin: Duration, backoffMax: Duration,
                             hosted: bool) {
    /** The production default wherever an interval is missing. */
    function Filled(): Options {
      Options(
        if debounce <= 0 then 3 * SECOND else debounce,
        if maxDebounce <= 0 then 30 * SECOND else maxDebounce,
        if pullEvery <= 0 then 30 * SECOND else pullEvery,
        if approvalsEvery <= 0 then 60 * SECOND else approvalsEvery,
        if backoffMin <= 0 then 5 * SECOND else backoffMin,
        if backoffMax <= 0 then 600 * SECOND else backoffMax,
        hosted)
    }

    predicate Positive() {
      debounce > 0 && maxDebounce > 0 && pullEvery > 0 && approvalsEvery > 0 && backoffMin > 0 && backoffMax > 0
    }

    /** No doubling of the backoff wraps (Backoff.DelayExact). */
    predicate NoWrap()
      requires Positive()
    {
      backoffMax <= Top(backoffMin)
    }
  }

  /** How one push or pull ended. */
  datatype Outcome = Done | Conflict | Locked | Failed

  datatype Input =
    | Change(at: int)
    | WatcherClosed(at: int)
    | PushTimer(at: int, outcome: Outcome)
    | PullTimer(at: int, outcome: Outcome)
    | ApprovalsTimer(at: int)
    | HeartbeatTimer(at: int)

  /** The loop's fields, its armed deadlines and the time of the last event. An absent
      `notBefore` is the zero time. */
  datatype State = State(now: int, watching: bool, dirty: bool, firstDirty: int, notBefore: Option<int>,
                         pushFails: nat, pullFails: nat, pushDue: Option<int>, pullDue: int,
                         approvalsDue: Option<int>, heartbeatDue: int)

  // ---------------------------------------------------------------------------
  // What each event does
  // ---------------------------------------------------------------------------

  function Retry(o: Options, outcome: Outcome, fails: nat): Duration {
    if outcome.Locked? then o.backoffMin else Delay(o.backoffMin, o.backoffMax, fails)
  }

  function PullDue(o: Options, outcome: Outcome, fails: nat, now: int): int {
    now + match outcome { case Done => o.pullEvery case Conflict => o.pullEvery case _ => Retry(o, outcome, fails + 1) }
  }

  function PullFails(outcome: Outcome, fails: nat): nat {
    if outcome.Done? || outcome.Conflict? then 0 else fails + 1
  }

  function Dirtied(s: State, now: int): State {
    s.(dirty := true, firstDirty := if s.dirty then s.firstDirty else now)
  }

  /** How long a change that arrived at `now` waits before the push. */
  function Wait(o: Options, s: State, now: int): int {
    var quiet := if now - s.firstDirty >= o.maxDebounce then 0 else o.debounce;
    if s.notBefore.Some? && s.notBefore.value - now > quiet then s.notBefore.value - now else quiet
  }

  function Pushed(o: Options, s: State, outcome: Outcome, now: int): State {
    if outcome.Done? || outcome.Conflict? then
      s.(dirty := false, firstDirty := now, pushFails := 0, notBefore := None, pushDue := None)
    else
      var delay := Retry(o, outcome, s.pushFails + 1);
      s.(firstDirty := now, pushFails := s.pushFails + 1, notBefore := Some(now + delay),
         pushDue := if delay > 0 then Some(now + delay) else None)
  }

  function Next(o: Options, s: State, e: Input): State {
    var t := s.(now := e.at);
    match e
    case Change(now) =>
      var d := Dirtied(t, now);
      d.(pushDue := Some(now + Wait(o, d, now)))
    case WatcherClosed(_) => t.(watching := false)
    case PushTimer(now, outcome) => if t.dirty then Pushed(o, t, outcome, now) else t.(pushDue := None)
    case PullTimer(now, outcome) =>
      t.(pullFails := PullFails(outcome, s.pullFails), pullDue := PullDue(o, outcome, s.pullFails, now))
    case ApprovalsTimer(now) => t.(approvalsDue := if o.hosted then Some(now + o.approvalsEvery) else None)
    case HeartbeatTimer(now) => t.(heartbeatDue := now + HEARTBEAT_EVERY)
  }

  /** The start-up pass: one pull, one poll, and a push for whatever changed meanwhile. */
  function Initial(o: Options, now: int, firstPull: Outcome): State {
    State(now, true, true, now, None, 0, PullFails(firstPull, 0), Some(now + o.debounce),
          PullDue(o, firstPull, 0, now), if o.hosted then Some(now + o.approvalsEvery) else None,
          now + HEARTBEAT_EVERY)
  }

  // ---------------------------------------------------------------------------
  // The loop as written
  // ---------------------------------------------------------------------------

  class Loop {
    const opts: Options
    var dirty: bool
    var firstDirty: int
    var notBefore: Option<int>
    var pushFails: nat
    var pullFails: nat
    var now: int
    var watching: bool
    var pushT: Option<int>
    var pullT: int
    var approvalsT: Option<int>
    var heartbeatT: int

    ghost function View(): State
      reads this
    {
      State(now, watching, dirty, firstDirty, notBefore, pushFails, pullFails, pushT, pullT, approvalsT, heartbeatT)
    }

    constructor (given: Options, now: int, firstPull: Outcome)
      ensures opts == given.Filled() && View() == Initial(opts, now, firstPull)
    {
      opts := given.Filled();
      this.now, watching := now, true;
      dirty, firstDirty, notBefore, pushFails, pullFails := false, 0, None, 0, 0;
      pushT, approvalsT, heartbeatT, pullT := None, None, 0, 0;
      new;
      pullT := Pull(firstPull, now);
      approvalsT := Approvals(now);
      MarkDirty(now);
      pushT := Some(now + opts.debounce);
      heartbeatT := now + HEARTBEAT_EVERY;
    }

    method MarkDirty(now: int)
      modifies this`dirty, this`firstDirty
      ensures View() == Dirtied(old(View()), now)
    {
      if !dirty {
        firstDirty := now;
      }
      dirty := true;
    }

    method PushDelay(now: int) returns (delay: int)
      ensures delay == Wait(opts, View(), now)
    {
      delay := opts.debounce;
      if now - firstDirty >= opts.maxDebounce {
        delay := 0;
      }
      if notBefore.Some? {
        var wait := notBefore.value - now;
        if wait > delay {
          delay := wait;
        }
      }
    }

    method RetryDelay(outcome: Outcome, fails: nat) returns (delay: Duration)
      ensures delay == Retry(opts, outcome, fails)
    {
      delay := Compute(opts.backoffMin, opts.backoffMax, fails);
      if outcome.Locked? {
        delay := opts.backoffMin;
      }
    }

    method Push(outcome: Outcome, now: int) returns (retry: Duration)
      modifies this`dirty, this`firstDirty, this`notBefore, this`pushFails
      ensures View().(pushDue := if retry > 0 then Some(now + retry) else None)
        == Pushed(opts, old(View()), outcome, now)
    {
      firstDirty := now;
      match outcome
      case Done =>
        dirty, pushFails, notBefore := false, 0, None;
        return 0;
      case Conflict =>
        dirty, pushFails, notBefore := false, 0, None;
        return 0;
      case _ =>
        pushFails := pushFails + 1;
        var delay := RetryDelay(outcome, pushFails);
        notBefore := Some(now + delay);
        return delay;
    }

    method Pull(outcome: Outcome, now: int) returns (due: int)
      modifies this`pullFails
      ensures due == PullDue(opts, outcome, old(pullFails), now) && pullFails == PullFails(outcome, old(pullFails))
    {
      var next := opts.pullEvery;
      match outcome {
        case Done => pullFails := 0;
        case Conflict => pullFails := 0;
        case _ =>
          pullFails := pullFails + 1;
          next := RetryDelay(outcome, pullFails);
      }
      return now + next;
    }

    method Approvals(now: int) returns (due: Option<int>)
      ensures due.Some? <==> opts.hosted
      ensures due.Some? ==> due.value - now == opts.approvalsEvery
    {
      if !opts.hosted {
        return None;
      }
      return Some(now + opts.approvalsEvery);
    }

    /** One round of the select statement. */
    method Handle(e: Input)
      modifies this
      ensures View() == Next(opts, old(View()), e)
    {
      now := e.at;
      match e
      case Change(at) =>
        MarkDirty(at);
        var delay := PushDelay(at);
        pushT := Some(at + delay);
      case WatcherClosed(_) =>
        watching := false;
      case PushTimer(at, outcome) =>
        pushT := None;
        if dirty {
          var retry := Push(outcome, at);
          if retry > 0 {
            pushT := Some(at + retry);
          }
        }
      case PullTimer(at, outcome) =>
        pullT := Pull(outcome, at);
      case ApprovalsTimer(at) =>
        approvalsT := Approvals(at);
      case HeartbeatTimer(at) =>
        heartbeatT := at + HEARTBEAT_EVERY;
    }

    method Run(events: seq<Input>)
      modifies this
      ensures View() == After(opts, old(View()), events)
    {
      for i := 0 to |events|
        invariant View() == After(opts, old(View()), events[..i])
      {
        Handle(events[i]);
        assert events[..i + 1][..i] == events[..i];
      }
      assert events[..|events|] == events;
    }
  }

  // ---------------------------------------------------------------------------
  // Runs
  // ---------------------------------------------------------------------------

  ghost function After(o: Options, s: State, events: seq<Input>): State {
    if events == [] then s else Next(o, After(o, s, events[..|events| - 1]), events[|events| - 1])
  }

  ghost predicate NotPast(due: Option<int>, at: int) { due.Some? ==> at <= due.value }

  /** `e` can happen next: its timer is armed and due, and no armed deadline is skipped. */
  ghost predicate Enabled(s: State, e: Input) {
    && s.now <= e.at
    && NotPast(s.pushDue, e.at) && e.at <= s.pullDue && NotPast(s.approvalsDue, e.at) && e.at <= s.heartbeatDue
    && match e
       case Change(_) => s.watching
       case WatcherClosed(_) => s.watching
       case PushTimer(at, _) => s.pushDue == Some(at)
       case PullTimer(at, _) => s.pullDue == at
       case ApprovalsTimer(at) => s.approvalsDue == Some(at)
       case HeartbeatTimer(at) => s.heartbeatDue == at
  }

  ghost predicate Feasible(o: Options, s: State, events: seq<Input>) {
    forall i :: 0 <= i < |events| ==> Enabled(After(o, s, events[..i]), events[i])
  }

  /** `s` is an idle state of some run of the daemon. */
  ghost predicate Reachable(o: Options, s: State) {
    exists start: int, firstPull: Outcome, events: seq<Input> ::
      Feasible(o, Initial(o, start, firstPull), events) && s == After(o, Initial(o, start, firstPull), events)
  }

  function Max(a: int, b: int): int { if a >= b then a else b }

  /** The latest a push attempt may start once the store is dirty. */
  ghost function PushBound(o: Options, s: State): int {
    var quiet := s.firstDirty + o.maxDebounce + o.debounce;
    if s.notBefore.Some? then Max(quiet, s.notBefore.value) else quiet
  }

  ghost predicate Inv(o: Options, s: State) {
    && (s.dirty <==> s.pushDue.Some?)
    && (s.pushDue.Some? ==>
         && s.now <= s.pushDue.value <= PushBound(o, s)
         && (s.notBefore.Some? ==> s.notBefore.value <= s.pushDue.value))
    && s.firstDirty <= s.now <= s.pullDue && s.now <= s.heartbeatDue && NotPast(s.approvalsDue, s.now)
    && (s.notBefore.Some? ==> s.pushFails >= 1 && s.notBefore.value <= s.firstDirty + Max(o.backoffMin, o.backoffMax))
    && (s.approvalsDue.Some? <==> o.hosted)
  }

  lemma RetryPositive(o: Options, outcome: Outcome, fails: nat)
    requires o.Positive() && o.NoWrap() && fails >= 1
    ensures 1 <= Retry(o, outcome, fails) <= Max(o.backoffMin, o.backoffMax)
  {
    DelayMonotone(o.backoffMin, o.backoffMax, fails, fails);
  }

  lemma StepKeepsInv(o: Options, s: State, e: Input)
    requires o.Positive() && o.NoWrap() && Inv(o, s) && Enabled(s, e)
    ensures Inv(o, Next(o, s, e))
  {
    hide Delay;
    if e.PushTimer? {
      RetryPositive(o, e.outcome, s.pushFails + 1);
    } else if e.PullTimer? {
      RetryPositive(o, e.outcome, s.pullFails + 1);
    }
  }

  lemma FeasiblePrefix(o: Options, s: State, events: seq<Input>)
    requires Feasible(o, s, events) && events != []
    ensures Feasible(o, s, events[..|events| - 1])
    ensures Enabled(After(o, s, events[..|events| - 1]), events[|events| - 1])
  {
    var n := |events| - 1;
    forall i | 0 <= i < n
      ensures Enabled(After(o, s, events[..n][..i]), events[..n][i])
    {
      assert events[..n][..i] == events[..i];
    }
  }

  lemma {:induction false} RunKeepsInv(o: Options, s: State, events: seq<Input>)
    requires o.Positive() && o.NoWrap() && Inv(o, s) && Feasible(o, s, events)
    ensures Inv(o, After(o, s, events))
  {
    if events != [] {
      var n := |events| - 1;
      FeasiblePrefix(o, s, events);
      RunKeepsInv(o, s, events[..n]);
      StepKeepsInv(o, After(o, s, events[..n]), events[n]);
    }
  }

  // ---------------------------------------------------------------------------
  // What holds in every run
  // ---------------------------------------------------------------------------

  /** In every reachable idle state the push timer is armed exactly when the store is
      dirty, no later than the bound, and never before the backoff allows. */
  lemma PushDeadlineBounded(given: Options, s: State)
    requires given.Filled().NoWrap() && Reachable(given.Filled(), s)
    ensures var o := given.Filled();
      && (s.dirty <==> s.pushDue.Some?)
      && (s.dirty ==> s.now <= s.pushDue.value <= PushBound(o, s))
      && (s.dirty && s.notBefore.Some? ==> s.notBefore.value <= s.pushDue.value)
      && (s.dirty ==>
        s.pushDue.value - s.firstDirty <= Max(o.maxDebounce + o.debounce, Max(o.backoffMin, o.backoffMax)))
  {
    var o := given.Filled();
    var start: int, firstPull: Outcome, events: seq<Input> :|
      Feasible(o, Initial(o, start, firstPull), events) && s == After(o, Initial(o, start, firstPull), events);
    RetryPositive(o, firstPull, 1);
    hide Delay;
    RunKeepsInv(o, Initial(o, start, firstPull), events);
  }

  ghost predicate NoPush(events: seq<Input>) {
    forall i :: 0 <= i < |events| ==> !events[i].PushTimer?
  }

  lemma NoAttempt(o: Options, s: State, e: Input)
    requires !e.PushTimer?
    ensures Next(o, s, e).notBefore == s.notBefore && Next(o, s, e).pushFails == s.pushFails
    ensures s.dirty ==> Next(o, s, e).dirty && Next(o, s, e).firstDirty == s.firstDirty
  {}

  /** Between push attempts the backoff stands and a dirty store stays dirty since the
      same instant, whatever else happens. */
  lemma {:induction false} BetweenAttempts(o: Options, s: State, events: seq<Input>)
    requires o.Positive() && o.NoWrap() && Inv(o, s) && Feasible(o, s, events) && NoPush(events)
    ensures var t := After(o, s, events);
      && Inv(o, t) && t.notBefore == s.notBefore && t.pushFails == s.pushFails
      && (s.dirty ==> t.dirty && t.firstDirty == s.firstDirty)
  {
    hide Inv, Feasible, Next;
    RunKeepsInv(o, s, events);
    if events != [] {
      var n := |events| - 1;
      FeasiblePrefix(o, s, events);
      BetweenAttempts(o, s, events[..n]);
      NoAttempt(o, After(o, s, events[..n]), events[n]);
    }
  }

  /** However long changes keep arriving, time does not pass the bound without a push
      attempt. */
  lemma ChangesCannotPostpone(o: Options, s: State, events: seq<Input>)
    requires o.Positive() && o.NoWrap() && Inv(o, s) && s.dirty && Feasible(o, s, events) && NoPush(events)
    ensures After(o, s, events).now <= PushBound(o, s)
  {
    BetweenAttempts(o, s, events);
  }

  /** After a failed attempt the next one starts no earlier than its backoff and no later
      than the backoff or a full debounce window, whatever happens in between. */
  lemma AttemptSpacing(o: Options, s: State, failed: Input, events: seq<Input>, again: Input)
    requires o.Positive() && o.NoWrap() && Inv(o, s) && Enabled(s, failed)
    requires failed.PushTimer? && (failed.outcome.Failed? || failed.outcome.Locked?)
    requires Feasible(o, Next(o, s, failed), events) && NoPush(events)
    requires again.PushTimer? && Enabled(After(o, Next(o, s, failed), events), again)
    ensures var delay := Retry(o, failed.outcome, s.pushFails + 1);
      delay <= again.at - failed.at <= Max(delay, o.maxDebounce + o.debounce)
  {
    StepKeepsInv(o, s, failed);
    hide Delay;
    BetweenAttempts(o, Next(o, s, failed), events);
  }

  /** The production intervals: three seconds of quiet, half a minute at most, and so on. They
      satisfy the bound. */
  lemma DefaultsNeverWrap(hosted: bool)
    ensures
      var o := Options(0, 0, 0, 0, 0, 0, hosted).Filled();
      && o == Options(3_000_000_000, 30_000_000_000, 30_000_000_000, 60_000_000_000, 5_000_000_000,
                      600_000_000_000, hosted)
      && o.NoWrap()
  {}

  /** Every interval is filled in, and only those missing. */
  lemma FilledIn(given: Options)
    ensures given.Filled().Positive() && given.Filled().hosted == given.hosted
    ensures given.Positive() ==> given.Filled() == given
    ensures given.debounce > 0 ==> given.Filled().debounce == given.debounce
    ensures given.maxDebounce > 0 ==> given.Filled().maxDebounce == given.maxDebounce
    ensures given.pullEvery > 0 ==> given.Filled().pullEvery == given.pullEvery
    ensures given.approvalsEvery > 0 ==> given.Filled().approvalsEvery == given.approvalsEvery
    ensures given.backoffMin > 0 ==> given.Filled().backoffMin == given.backoffMin
    ensures given.backoffMax > 0 ==> given.Filled().backoffMax == given.backoffMax
  {}

  // ---------------------------------------------------------------------------
  // Exactly when the push timer follows the dirty flag
  // ---------------------------------------------------------------------------

  lemma {:induction false} AfterAppend(o: Options, s: State, events: seq<Input>, more: seq<Input>)
    ensures After(o, s, events + more) == After(o, After(o, s, events), more)
    decreases |more|
  {
    if more == [] {
      assert events + more == events;
    } else {
      var n := |more| - 1;
      assert (events + more)[..|events + more| - 1] == events + more[..n];
      AfterAppend(o, s, events, more[..n]);
    }
  }

  lemma FeasibleAppend(o: Options, s: State, events: seq<Input>, more: seq<Input>)
    requires Feasible(o, s, events) && Feasible(o, After(o, s, events), more)
    ensures Feasible(o, s, events + more)
  {
    hide EnabledAt, Feasible;
    var all := events + more;
    forall i | 0 <= i < |all| ensures EnabledAt(o, s, all, i) {
      if i < |events| {
        EarlierEnabled(o, s, events, more, i);
      } else {
        LaterEnabled(o, s, events, more, i - |events|);
      }
    }
    EachEnabled(o, s, all);
  }

  ghost predicate EnabledAt(o: Options, s: State, events: seq<Input>, i: int) {
    0 <= i < |events| && Enabled(After(o, s, events[..i]), events[i])
  }

  lemma EachEnabled(o: Options, s: State, events: seq<Input>)
    requires forall i :: 0 <= i < |events| ==> EnabledAt(o, s, events, i)
    ensures Feasible(o, s, events)
  {
    hide After, Enabled;
    forall i | 0 <= i < |events| ensures Enabled(After(o, s, events[..i]), events[i]) {
      assert EnabledAt(o, s, events, i);
    }
  }

  lemma EarlierEnabled(o: Options, s: State, events: seq<Input>, more: seq<Input>, i: nat)
    requires i < |events| && Feasible(o, s, events)
    ensures EnabledAt(o, s, events + more, i)
  {
    hide After, Enabled;
    assert (events + more)[..i] == events[..i] && (events + more)[i] == events[i];
  }

  lemma Cut<T>(a: seq<T>, b: seq<T>, j: nat)
    requires j < |b|
    ensures (a + b)[..|a| + j] == a + b[..j] && (a + b)[|a| + j] == b[j]
  {}

  lemma LaterEnabled(o: Options, s: State, events: seq<Input>, more: seq<Input>, j: nat)
    requires j < |more| && Feasible(o, After(o, s, events), more)
    ensures EnabledAt(o, s, events + more, |events| + j)
  {
    hide After, Enabled;
    var all, i := events + more, |events| + j;
    Cut(events, more, j);
    AfterAppend(o, s, events, more[..j]);
  }

  lemma OneEvent(o: Options, s: State, e: Input)
    requires Enabled(s, e)
    ensures Feasible(o, s, [e]) && After(o, s, [e]) == Next(o, s, e)
  {
    assert [e][..0] == [];
  }

  /** No deadline is in the past. */
  ghost predicate TimersAhead(o: Options, s: State) {
    && NotPast(s.pushDue, s.now) && s.now <= s.pullDue && s.now <= s.heartbeatDue && NotPast(s.approvalsDue, s.now)
    && (s.approvalsDue.Some? <==> o.hosted)
  }

  /** How far the other timers are behind the push timer. */
  ghost function Behind(s: State): nat
    requires s.pushDue.Some?
  {
    var due := s.pushDue.value;
    Max(0, due - s.pullDue) + Max(0, due - s.heartbeatDue)
    + if s.approvalsDue.Some? then Max(0, due - s.approvalsDue.value) else 0
  }

  /** The timer that is due first, if it is due before the push. */
  ghost function FirstDue(s: State): (e: Input)
    requires s.pushDue.Some? && Behind(s) > 0
  {
    var first := if s.pullDue <= s.heartbeatDue then s.pullDue else s.heartbeatDue;
    if s.approvalsDue.Some? && s.approvalsDue.value < first then ApprovalsTimer(s.approvalsDue.value)
    else if first == s.pullDue then PullTimer(first, Done)
    else HeartbeatTimer(first)
  }

  lemma FirstDueFires(o: Options, s: State)
    requires o.Positive() && TimersAhead(o, s) && s.pushDue.Some? && Behind(s) > 0
    ensures
      var e := FirstDue(s);
      var t := Next(o, s, e);
      && Enabled(s, e) && TimersAhead(o, t) && t.pushDue == s.pushDue && Behind(t) < Behind(s)
      && t.dirty == s.dirty && t.pushFails == s.pushFails
  {}

  /** Nothing but time stands between an armed push timer and its firing: letting the other
      timers fire as they come due is a run that leads there. */
  lemma {:induction false} PushComesDue(o: Options, s: State) returns (events: seq<Input>)
    requires o.Positive() && TimersAhead(o, s) && s.pushDue.Some?
    ensures
      var t := After(o, s, events);
      && Feasible(o, s, events) && TimersAhead(o, t) && Enabled(t, PushTimer(s.pushDue.value, Failed))
      && t.pushDue == s.pushDue && t.dirty == s.dirty && t.pushFails == s.pushFails
    decreases Behind(s)
  {
    hide Next;
    if Behind(s) == 0 {
      events := [];
    } else {
      var e := FirstDue(s);
      FirstDueFires(o, s);
      OneEvent(o, s, e);
      var rest := PushComesDue(o, Next(o, s, e));
      FeasibleAppend(o, s, [e], rest);
      AfterAppend(o, s, [e], rest);
      events := [e] + rest;
    }
  }

  lemma PushFails(o: Options, s: State)
    requires TimersAhead(o, s) && s.dirty && s.pushDue.Some? && Enabled(s, PushTimer(s.pushDue.value, Failed))
    ensures
      var t := Next(o, s, PushTimer(s.pushDue.value, Failed));
      && TimersAhead(o, t) && t.dirty && t.pushFails == s.pushFails + 1
      && (t.pushDue.Some? <==> Delay(o.backoffMin, o.backoffMax, t.pushFails) > 0)
  {
    hide Delay;
  }

  /** A store whose pushes keep failing comes to have no timer once a delay is not positive. */
  lemma {:induction false} FailingRunStops(o: Options, s: State, fails: nat) returns (events: seq<Input>)
    requires o.Positive() && TimersAhead(o, s) && s.dirty && s.pushDue.Some?
    requires s.pushFails < fails && Delay(o.backoffMin, o.backoffMax, fails) <= 0
    ensures Feasible(o, s, events) && After(o, s, events).dirty && After(o, s, events).pushDue.None?
    decreases fails - s.pushFails
  {
    hide Delay, Next, Enabled, Feasible, TimersAhead;
    var before := PushComesDue(o, s);
    var due := After(o, s, before);
    var e := PushTimer(s.pushDue.value, Failed);
    PushFails(o, due);
    OneEvent(o, due, e);
    FeasibleAppend(o, s, before, [e]);
    AfterAppend(o, s, before, [e]);
    events := before + [e];
    var failed := Next(o, due, e);
    if failed.pushDue.Some? {
      var rest := FailingRunStops(o, failed, fails);
      FeasibleAppend(o, s, events, rest);
      AfterAppend(o, s, events, rest);
      events := events + rest;
    }
  }

  lemma StartsAhead(o: Options, start: int)
    requires o.Positive()
    ensures
      var s := Initial(o, start, Done);
      TimersAhead(o, s) && s.dirty && s.pushDue.Some? && s.pushFails == 0
  {}

  /** In every run the push timer is armed exactly while the store is dirty, if and only if no
      doubling of the backoff wraps: otherwise pushes that keep failing lead to a dirty store
      that nothing will push until the next change. */
  lemma TimerFollowsDirtyExactly(given: Options)
    ensures
      var o := given.Filled();
      (forall s :: Reachable(o, s) ==> (s.dirty <==> s.pushDue.Some?)) <==> o.NoWrap()
  {
    var o := given.Filled();
    if o.NoWrap() {
      forall s | Reachable(o, s)
        ensures s.dirty <==> s.pushDue.Some?
      {
        PushDeadlineBounded(given, s);
      }
    } else {
      hide Delay;
      var s := Initial(o, 0, Done);
      StartsAhead(o, 0);
      DelayWraps(o);
      var events := FailingRunStops(o, s, Doublings(o.backoffMin) + 2);
      assert Reachable(o, After(o, s, events));
    }
  }

  lemma DelayWraps(o: Options)
    requires o.Positive() && !o.NoWrap()
    ensures Delay(o.backoffMin, o.backoffMax, Doublings(o.backoffMin) + 2) < 0
  {
    GrowOverflows(o.backoffMin, o.backoffMax);
  }
}
