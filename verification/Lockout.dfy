/**
  The failed-login guard of one identifier: an attempt counter with a sliding TTL and a lock.
  Both are cells of the cache; requests come one after another.
 */
module Lockout {
  import opened Prelude
  import opened Redis

  const MAX_FAILED: nat := 5
  const LOCKOUT: Time := 900 * SECOND

  /** The awaited calls of one login, in program order. */
  datatype LoginCalls = LoginCalls(
    exists_: Await, get: Await, read: Await, put: Await, count: Await, lock: Await, clear: Await)
  {
    predicate Ordered() {
      exists_.at <= get.at <= read.at <= put.at <= count.at <= lock.at <= clear.at
    }

    predicate Working() {
      && exists_.reply.Answered? && get.reply.Answered? && put.reply.Answered?
      && count.reply.Answered? && lock.reply.Answered? && clear.reply.Answered?
    }
  }

  /** How the password check ends; it is not reached for unknown users or on infrastructure errors. */
  datatype Verdict = Aborted | Wrong | Right

  datatype Attempt = Attempt(calls: LoginCalls, verdict: Verdict)

  datatype Guard = Guard(lock: Cell, attempts: Cell)

  /** The lock check; a failing cache lets the login proceed. */
  predicate Rejected(g: Guard, c: LoginCalls) {
    ExistsReply(g.lock, c.exists_) == Some(true)
  }

  /** The count the service acts on; a failing cache counts as zero. */
  function Count(g: Guard, c: LoginCalls): nat {
    var n := CountReply(g.attempts, c.count);
    if n.Some? then n.value else 0
  }

  function Guarded(g: Guard, a: Attempt): Guard {
    var c := a.calls;
    if Rejected(g, c) then g
    else match a.verdict
      case Aborted => g
      case Right => g.(attempts := AfterDelete(g.attempts, c.clear))
      case Wrong =>
        var counted := AfterIncrementWithTtl(g.attempts, LOCKOUT, c.count);
        if Count(g, c) >= MAX_FAILED
        then Guard(AfterSet(g.lock, Flag(true), LOCKOUT, c.lock), AfterDelete(counted, c.clear))
        else g.(attempts := counted)
  }

  predicate CountedFailure(g: Guard, a: Attempt) {
    !Rejected(g, a.calls) && a.verdict == Wrong && a.calls.count.reply.Applied()
  }

  function RunGuard(g: Guard, run: seq<Attempt>): Guard
    decreases |run|
  {
    if run == [] then g else RunGuard(Guarded(g, run[0]), run[1..])
  }

  /** When each counted failure of a run was counted. */
  function Failures(g: Guard, run: seq<Attempt>): seq<Time>
    decreases |run|
  {
    if run == [] then []
    else (if CountedFailure(g, run[0]) then [run[0].calls.count.at] else []) + Failures(Guarded(g, run[0]), run[1..])
  }

  /** Non-overlapping requests on a working cache, the first not before `now`. */
  ghost predicate Orderly(run: seq<Attempt>, now: Time)
    decreases |run|
  {
    run != [] ==>
      && run[0].calls.Ordered() && run[0].calls.Working() && now <= run[0].calls.exists_.at
      && Orderly(run[1..], run[0].calls.clear.at)
  }

  // ---- Reachable guards ---------------------------------------------------------------------------

  /**
    The counter never rests at five, always carries a TTL set at its last failure, and was started
    afresh after the lock, if there is one, ran out.
   */
  predicate Settled(g: Guard, now: Time) {
    && (g.attempts.Some? ==>
         && g.attempts.value.value.Number? && 1 <= g.attempts.value.value.n < MAX_FAILED
         && g.attempts.value.expiry.Some? && g.attempts.value.expiry.value <= now + LOCKOUT)
    && (g.lock.Some? ==> g.lock.value.expiry.Some?)
    && (g.lock.Some? && g.attempts.Some? ==>
         g.attempts.value.expiry.value >= g.lock.value.expiry.value + LOCKOUT)
  }

  lemma GuardedSettled(g: Guard, a: Attempt, now: Time)
    requires Settled(g, now) && a.calls.Ordered() && a.calls.Working() && now <= a.calls.exists_.at
    ensures Settled(Guarded(g, a), a.calls.clear.at)
  {
  }

  lemma {:induction false} RunSettled(g: Guard, run: seq<Attempt>, now: Time) returns (end: Time)
    requires Settled(g, now) && Orderly(run, now)
    ensures Settled(RunGuard(g, run), end) && now <= end
    ensures forall later: seq<Attempt> :: Orderly(run + later, now) ==> Orderly(later, end)
    decreases |run|
  {
    if run == [] {
      end := now;
      assert forall later: seq<Attempt> :: run + later == later;
    } else {
      GuardedSettled(g, run[0], now);
      end := RunSettled(Guarded(g, run[0]), run[1..], run[0].calls.clear.at);
      forall later: seq<Attempt> | Orderly(run + later, now)
        ensures Orderly(later, end)
      {
        assert (run + later)[1..] == run[1..] + later;
      }
    }
  }

  /** While the lock is in force there is no counter, so the first failure after it counts as one. */
  lemma LockExpiresClean(before: seq<Attempt>, a: Attempt)
    requires Orderly(before + [a], 0)
    ensures var g := RunGuard(Guard(None, None), before);
            && (Rejected(g, a.calls) ==> g.attempts.None?)
            && (Rejected(g, a.calls) ==> Guarded(g, a) == g)
  {
    OrderlyPrefix(before, [a], 0);
    var end := RunSettled(Guard(None, None), before, 0);
    assert Orderly([a], end);
  }

  lemma {:induction false} OrderlyPrefix(run: seq<Attempt>, later: seq<Attempt>, now: Time)
    requires Orderly(run + later, now)
    ensures Orderly(run, now)
    decreases |run|
  {
    if run != [] {
      assert (run + later)[1..] == run[1..] + later;
      OrderlyPrefix(run[1..], later, run[0].calls.clear.at);
    }
  }

  // ---- The failure rate ----------------------------------------------------------------------------

  ghost predicate Spaced(f: seq<Time>) {
    forall i :: 0 <= i && i + MAX_FAILED < |f| ==> f[i + MAX_FAILED] >= f[i] + LOCKOUT
  }

  ghost predicate Rising(f: seq<Time>, now: Time) {
    && (forall i, j :: 0 <= i < j < |f| ==> f[i] <= f[j])
    && (forall i :: 0 <= i < |f| ==> f[i] <= now)
  }

  /** What the guard remembers of the failures so far. */
  ghost predicate Remembers(g: Guard, past: seq<Time>) {
    var n := |past|;
    if g.attempts.Some? && g.attempts.value.value.Number? then
      var k := g.attempts.value.value.n;
      && (n >= 1 ==> g.attempts.value.expiry == Some(past[n - 1] + LOCKOUT))
      && (n > k >= 1 ==> past[n - k] >= past[n - k - 1] + LOCKOUT)
    else
      n >= 1 ==> g.lock.Some? && g.lock.value.expiry.Some? && g.lock.value.expiry.value >= past[n - 1] + LOCKOUT
  }

  lemma FailureSpaced(g: Guard, past: seq<Time>, a: Attempt, now: Time)
    requires Settled(g, now) && Rising(past, now) && Remembers(g, past)
    requires a.calls.Ordered() && a.calls.Working() && now <= a.calls.exists_.at && CountedFailure(g, a)
    ensures var n := |past|; n >= MAX_FAILED ==> a.calls.count.at >= past[n - MAX_FAILED] + LOCKOUT
  {
  }

  lemma FailureRemembered(g: Guard, past: seq<Time>, a: Attempt, now: Time)
    requires Settled(g, now) && Rising(past, now) && Remembers(g, past)
    requires a.calls.Ordered() && a.calls.Working() && now <= a.calls.exists_.at && CountedFailure(g, a)
    ensures Remembers(Guarded(g, a), past + [a.calls.count.at])
  {
  }

  lemma ExtendSpaced(past: seq<Time>, t: Time, now: Time, later: Time)
    requires Spaced(past) && Rising(past, now) && now <= t <= later
    requires |past| >= MAX_FAILED ==> t >= past[|past| - MAX_FAILED] + LOCKOUT
    ensures Spaced(past + [t]) && Rising(past + [t], later)
  {
  }

  lemma Uncounted(g: Guard, a: Attempt)
    requires a.calls.Working() && a.verdict != Right && !CountedFailure(g, a)
    ensures Guarded(g, a) == g
  {
  }

  /** The counted failures so far are spaced, and the guard remembers the recent ones. */
  ghost predicate Tracked(g: Guard, past: seq<Time>, now: Time) {
    Settled(g, now) && Rising(past, now) && Spaced(past) && Remembers(g, past)
  }

  lemma StepTracked(g: Guard, past: seq<Time>, a: Attempt, now: Time)
    requires Tracked(g, past, now) && a.verdict != Right
    requires a.calls.Ordered() && a.calls.Working() && now <= a.calls.exists_.at
    ensures Tracked(Guarded(g, a), if CountedFailure(g, a) then past + [a.calls.count.at] else past, a.calls.clear.at)
  {
    GuardedSettled(g, a, now);
    if CountedFailure(g, a) {
      FailureSpaced(g, past, a, now);
      FailureRemembered(g, past, a, now);
      ExtendSpaced(past, a.calls.count.at, now, a.calls.clear.at);
    } else {
      Uncounted(g, a);
    }
  }

  /** `past` followed by the counted failures of a run. */
  ghost function Record(past: seq<Time>, g: Guard, run: seq<Attempt>): seq<Time>
    decreases |run|
  {
    if run == [] then past
    else Record(if CountedFailure(g, run[0]) then past + [run[0].calls.count.at] else past, Guarded(g, run[0]), run[1..])
  }

  lemma {:induction false} RecordAppends(past: seq<Time>, g: Guard, run: seq<Attempt>)
    ensures Record(past, g, run) == past + Failures(g, run)
    decreases |run|
  {
    if run != [] {
      RecordAppends(if CountedFailure(g, run[0]) then past + [run[0].calls.count.at] else past, Guarded(g, run[0]), run[1..]);
    }
  }

  lemma {:induction false} RunSpaced(g: Guard, past: seq<Time>, run: seq<Attempt>, now: Time)
    requires Tracked(g, past, now) && Orderly(run, now)
    requires forall i :: 0 <= i < |run| ==> run[i].verdict != Right
    ensures Spaced(Record(past, g, run))
    decreases |run|
  {
    if run != [] {
      var a := run[0];
      StepTracked(g, past, a, now);
      RunSpaced(Guarded(g, a), if CountedFailure(g, a) then past + [a.calls.count.at] else past, run[1..], a.calls.clear.at);
    }
  }

  lemma {:induction false} SpacedApart(f: seq<Time>, i: nat, n: nat)
    requires Spaced(f) && i + MAX_FAILED * n < |f|
    ensures f[i + MAX_FAILED * n] >= f[i] + LOCKOUT * n
  {
    if n > 0 {
      SpacedApart(f, i, n - 1);
      assert f[i + MAX_FAILED * (n - 1) + MAX_FAILED] >= f[i + MAX_FAILED * (n - 1)] + LOCKOUT;
    }
  }

  /**
    After any orderly history, in any stretch without a successful login, every 5n + 1 counted
    failures of one identifier span at least 900n seconds.
   */
  lemma FailureRate(before: seq<Attempt>, stretch: seq<Attempt>, i: nat, n: nat)
    requires Orderly(before + stretch, 0)
    requires forall k :: 0 <= k < |stretch| ==> stretch[k].verdict != Right
    ensures var f := Failures(RunGuard(Guard(None, None), before), stretch);
            i + 5 * n < |f| ==> f[i + 5 * n] >= f[i] + 900 * SECOND * n
  {
    OrderlyPrefix(before, stretch, 0);
    var end := RunSettled(Guard(None, None), before, 0);
    var g := RunGuard(Guard(None, None), before);
    RunSpaced(g, [], stretch, end);
    RecordAppends([], g, stretch);
    assert [] + Failures(g, stretch) == Failures(g, stretch);
    if i + 5 * n < |Failures(g, stretch)| {
      SpacedApart(Failures(g, stretch), i, n);
    }
  }
}
