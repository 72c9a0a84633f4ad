/** When the daemon pushes and pulls (internal/daemon/loop.go), told from what has happened
    since it started rather than from the loop's fields. */
module DaemonTiming {
  import opened Backoff
  import opened DaemonLoop
  import opened Wrappers

  /** A push or a pull that was made. */
  datatype Attempt = Attempt(at: int, outcome: Outcome)

  // ---------------------------------------------------------------------------
  // What has happened
  // ---------------------------------------------------------------------------

  ghost function Pushes(events: seq<Input>): seq<Attempt> {
    if events == [] then []
    else
      var n := |events| - 1;
      if events[n].PushTimer? then Pushes(events[..n]) + [Attempt(events[n].at, events[n].outcome)]
      else Pushes(events[..n])
  }

  /** The pull at start-up and the scheduled ones. */
  ghost function Pulls(first: Attempt, events: seq<Input>): seq<Attempt> {
    if events == [] then [first]
    else
      var n := |events| - 1;
      if events[n].PullTimer? then Pulls(first, events[..n]) + [Attempt(events[n].at, events[n].outcome)]
      else Pulls(first, events[..n])
  }

  /** The times of the changes since the last push attempt, or since the start. */
  ghost function Waiting(events: seq<Input>): seq<int> {
    if events == [] then []
    else
      var n := |events| - 1;
      if events[n].PushTimer? then []
      else if events[n].Change? then Waiting(events[..n]) + [events[n].at]
      else Waiting(events[..n])
  }

  /** The last time `which` events happened, or the start. */
  ghost function LastOf(which: Input -> bool, start: int, events: seq<Input>): int {
    if events == [] then start
    else if which(events[|events| - 1]) then events[|events| - 1].at
    else LastOf(which, start, events[..|events| - 1])
  }

  /** A conflict is recorded and not retried. */
  predicate Settled(outcome: Outcome) { outcome == Done || outcome == Conflict }

  ghost predicate FailedLast(attempts: seq<Attempt>) {
    attempts != [] && !Settled(attempts[|attempts| - 1].outcome)
  }

  /** How many attempts in a row have failed. */
  ghost function Streak(attempts: seq<Attempt>): nat {
    if FailedLast(attempts) then 1 + Streak(attempts[..|attempts| - 1]) else 0
  }

  /** The earliest retry: a short wait while another process holds the lock, and one that
      grows with every failure otherwise. */
  ghost function RetryAt(o: Options, attempts: seq<Attempt>): int
    requires FailedLast(attempts)
  {
    var last := attempts[|attempts| - 1];
    last.at + if last.outcome == Locked then o.backoffMin else Delay(o.backoffMin, o.backoffMax, Streak(attempts))
  }

  /** Something waits to be pushed: what changed before the start, what the last attempt
      failed on, or a change since. */
  ghost predicate Pending(pushes: seq<Attempt>, waiting: seq<int>) {
    pushes == [] || FailedLast(pushes) || waiting != []
  }

  /** Since when something waits, every attempt counting as a new beginning. */
  ghost function Since(start: int, pushes: seq<Attempt>, waiting: seq<int>): int
    requires Pending(pushes, waiting)
  {
    if pushes == [] then start else if FailedLast(pushes) then pushes[|pushes| - 1].at else waiting[0]
  }

  /** The last change found something waiting for the longest time allowed. */
  ghost predicate Overdue(o: Options, start: int, pushes: seq<Attempt>, waiting: seq<int>)
    requires waiting != []
  {
    waiting[|waiting| - 1] - Since(start, pushes, waiting) >= o.maxDebounce
  }

  /** When the push is due: a debounce after the last change, at once if that change came
      when it was overdue, and in no case before the retry a failure allows. */
  ghost function DueAt(o: Options, start: int, pushes: seq<Attempt>, waiting: seq<int>): int
    requires Pending(pushes, waiting)
  {
    if waiting == [] then
      if pushes == [] then start + o.debounce else RetryAt(o, pushes)
    else
      var last := waiting[|waiting| - 1];
      var quiet := if Overdue(o, start, pushes, waiting) then last else last + o.debounce;
      if FailedLast(pushes) then Max(quiet, RetryAt(o, pushes)) else quiet
  }

  /** When the next pull is due: on schedule after one that settled, earlier or later after
      one that failed. */
  ghost function NextPull(o: Options, pulls: seq<Attempt>): int
    requires pulls != []
  {
    if FailedLast(pulls) then RetryAt(o, pulls) else pulls[|pulls| - 1].at + o.pullEvery
  }

  // ---------------------------------------------------------------------------
  // The loop's fields hold just that
  // ---------------------------------------------------------------------------

  ghost predicate PushesAgree(o: Options, start: int, pushes: seq<Attempt>, waiting: seq<int>, s: State) {
    && s.pushFails == Streak(pushes)
    && s.notBefore == (if FailedLast(pushes) then Some(RetryAt(o, pushes)) else None)
    && (s.dirty <==> Pending(pushes, waiting))
    && (s.dirty ==> s.firstDirty == Since(start, pushes, waiting))
    && (s.pushDue.Some? ==> s.dirty && s.pushDue.value == DueAt(o, start, pushes, waiting))
    && forall i :: 0 <= i < |waiting| ==> waiting[i] <= waiting[|waiting| - 1] <= s.now
  }

  ghost predicate PullsAgree(o: Options, pulls: seq<Attempt>, s: State) {
    pulls != [] && s.pullFails == Streak(pulls) && s.pullDue == NextPull(o, pulls)
  }

  lemma StreakNext(attempts: seq<Attempt>, a: Attempt)
    ensures Streak(attempts + [a]) == if Settled(a.outcome) then 0 else Streak(attempts) + 1
    ensures FailedLast(attempts + [a]) == !Settled(a.outcome)
  {
    assert (attempts + [a])[..|attempts|] == attempts;
  }

  lemma RetryNext(o: Options, attempts: seq<Attempt>, a: Attempt)
    requires !Settled(a.outcome)
    ensures FailedLast(attempts + [a]) && RetryAt(o, attempts + [a]) == a.at + Retry(o, a.outcome, Streak(attempts) + 1)
  {
    StreakNext(attempts, a);
  }

  lemma ChangeAgrees(o: Options, start: int, pushes: seq<Attempt>, waiting: seq<int>, s: State, e: Input)
    requires o.Positive() && PushesAgree(o, start, pushes, waiting, s) && e.Change? && s.now <= e.at
    ensures PushesAgree(o, start, pushes, waiting + [e.at], Next(o, s, e))
  {
    hide Streak, RetryAt;
    var more := waiting + [e.at];
    assert Since(start, pushes, more) == if Pending(pushes, waiting) then Since(start, pushes, waiting) else e.at;
  }

  lemma PushAgrees(o: Options, start: int, pushes: seq<Attempt>, waiting: seq<int>, s: State, e: Input)
    requires PushesAgree(o, start, pushes, waiting, s) && e.PushTimer? && s.pushDue == Some(e.at)
    ensures PushesAgree(o, start, pushes + [Attempt(e.at, e.outcome)], [], Next(o, s, e))
  {
    var a := Attempt(e.at, e.outcome);
    StreakNext(pushes, a);
    if !Settled(e.outcome) { RetryNext(o, pushes, a); }
    hide Streak, RetryAt, Retry;
  }

  lemma PullAgrees(o: Options, pulls: seq<Attempt>, s: State, e: Input)
    requires PullsAgree(o, pulls, s) && e.PullTimer?
    ensures PullsAgree(o, pulls + [Attempt(e.at, e.outcome)], Next(o, s, e))
  {
    var a := Attempt(e.at, e.outcome);
    StreakNext(pulls, a);
    if !Settled(e.outcome) { RetryNext(o, pulls, a); }
    hide Streak, RetryAt, Retry;
  }

  lemma {:induction false} RunAgrees(o: Options, start: int, firstPull: Outcome, events: seq<Input>)
    requires o.Positive() && Feasible(o, Initial(o, start, firstPull), events)
    ensures
      var s := After(o, Initial(o, start, firstPull), events);
      && PushesAgree(o, start, Pushes(events), Waiting(events), s)
      && PullsAgree(o, Pulls(Attempt(start, firstPull), events), s)
  {
    var first := Attempt(start, firstPull);
    if events == [] {
      StreakNext([], first);
      assert [] + [first] == [first];
      if !Settled(firstPull) { RetryNext(o, [], first); }
    } else {
      var n := |events| - 1;
      var e := events[n];
      FeasiblePrefix(o, Initial(o, start, firstPull), events);
      RunAgrees(o, start, firstPull, events[..n]);
      var s := After(o, Initial(o, start, firstPull), events[..n]);
      var pushes, waiting, pulls := Pushes(events[..n]), Waiting(events[..n]), Pulls(first, events[..n]);
      hide PushesAgree, PullsAgree;
      OneMore(o, start, pushes, waiting, pulls, s, e);
    }
  }

  /** What other events leave alone. */
  lemma OthersStay(o: Options, s: State, e: Input)
    ensures
      var t := Next(o, s, e);
      && t.now == e.at
      && (!e.Change? && !e.PushTimer? ==>
        && t.pushFails == s.pushFails && t.notBefore == s.notBefore && t.pushDue == s.pushDue
        && t.dirty == s.dirty && t.firstDirty == s.firstDirty)
      && (!e.PullTimer? ==> t.pullFails == s.pullFails && t.pullDue == s.pullDue)
      && t.approvalsDue == (if e.ApprovalsTimer? then if o.hosted then Some(e.at + o.approvalsEvery) else None
                            else s.approvalsDue)
      && t.heartbeatDue == if e.HeartbeatTimer? then e.at + 60 * SECOND else s.heartbeatDue
  {
    hide Retry;
  }

  lemma OneMore(o: Options, start: int, pushes: seq<Attempt>, waiting: seq<int>, pulls: seq<Attempt>, s: State,
      e: Input)
    requires o.Positive() && Enabled(s, e) && PushesAgree(o, start, pushes, waiting, s) && PullsAgree(o, pulls, s)
    ensures PushesAgree(o, start,
      if e.PushTimer? then pushes + [Attempt(e.at, e.outcome)] else pushes,
      if e.PushTimer? then [] else if e.Change? then waiting + [e.at] else waiting, Next(o, s, e))
    ensures PullsAgree(o, if e.PullTimer? then pulls + [Attempt(e.at, e.outcome)] else pulls, Next(o, s, e))
  {
    hide Next, Streak, RetryAt, Since, DueAt, NextPull;
    OthersStay(o, s, e);
    if e.Change? {
      ChangeAgrees(o, start, pushes, waiting, s, e);
    } else if e.PushTimer? {
      PushAgrees(o, start, pushes, waiting, s, e);
    } else if e.PullTimer? {
      PullAgrees(o, pulls, s, e);
    }
  }

  // ---------------------------------------------------------------------------
  // What holds in every run
  // ---------------------------------------------------------------------------

  /** Every push is made at the one time the history gives, and a push that no change has
      re-armed comes a full debounce after the start. */
  lemma PushTimeExactly(given: Options, start: int, firstPull: Outcome, events: seq<Input>, again: Input)
    requires Feasible(given.Filled(), Initial(given.Filled(), start, firstPull), events) && again.PushTimer?
    requires Enabled(After(given.Filled(), Initial(given.Filled(), start, firstPull), events), again)
    ensures Pending(Pushes(events), Waiting(events))
    ensures again.at == DueAt(given.Filled(), start, Pushes(events), Waiting(events))
    ensures Pushes(events) == [] && Waiting(events) == [] ==> again.at == start + given.Filled().debounce
  {
    RunAgrees(given.Filled(), start, firstPull, events);
  }

  /** No push is made within a debounce of a change it takes with it, if and only if the last
      of them did not come when the push was overdue, or a failure holds the push back. */
  lemma DebouncedExactly(given: Options, start: int, firstPull: Outcome, events: seq<Input>, again: Input)
    requires Feasible(given.Filled(), Initial(given.Filled(), start, firstPull), events) && again.PushTimer?
    requires Enabled(After(given.Filled(), Initial(given.Filled(), start, firstPull), events), again)
    requires Waiting(events) != []
    ensures
      var o, pushes, waiting := given.Filled(), Pushes(events), Waiting(events);
      && (forall i :: 0 <= i < |waiting| ==> waiting[i] <= again.at)
      && ((forall i :: 0 <= i < |waiting| ==> again.at - waiting[i] >= o.debounce) <==>
          || !Overdue(o, start, pushes, waiting)
          || (FailedLast(pushes) && RetryAt(o, pushes) - waiting[|waiting| - 1] >= o.debounce))
  {
    RunAgrees(given.Filled(), start, firstPull, events);
    hide RetryAt, Since;
    var waiting := Waiting(events);
    assert waiting[|waiting| - 1] <= again.at;
  }

  /** Every pull is made at the one time the history gives. */
  lemma PullTimeExactly(given: Options, start: int, firstPull: Outcome, events: seq<Input>, again: Input)
    requires Feasible(given.Filled(), Initial(given.Filled(), start, firstPull), events) && again.PullTimer?
    requires Enabled(After(given.Filled(), Initial(given.Filled(), start, firstPull), events), again)
    ensures Pulls(Attempt(start, firstPull), events) != []
    ensures again.at == NextPull(given.Filled(), Pulls(Attempt(start, firstPull), events))
  {
    RunAgrees(given.Filled(), start, firstPull, events);
  }

  ghost predicate Poll(e: Input) { e.ApprovalsTimer? }

  ghost predicate Beat(e: Input) { e.HeartbeatTimer? }

  lemma {:induction false} SteadyTimers(o: Options, start: int, firstPull: Outcome, events: seq<Input>)
    requires Feasible(o, Initial(o, start, firstPull), events)
    ensures
      var s := After(o, Initial(o, start, firstPull), events);
      && s.approvalsDue == (if o.hosted then Some(LastOf(Poll, start, events) + o.approvalsEvery) else None)
      && s.heartbeatDue == LastOf(Beat, start, events) + 60 * SECOND
  {
    if events != [] {
      hide Next, Enabled, Feasible;
      FeasiblePrefix(o, Initial(o, start, firstPull), events);
      SteadyTimers(o, start, firstPull, events[..|events| - 1]);
      OthersStay(o, After(o, Initial(o, start, firstPull), events[..|events| - 1]), events[|events| - 1]);
    }
  }
}
