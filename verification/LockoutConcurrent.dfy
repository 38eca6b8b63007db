/**
  The failed-login guard of one identifier with several logins in flight: the lock check, the count, the
  lock and the clearing of the counter are separate calls. Requests of one identifier are alike, so it is
  enough to count how many stand where. The cache answers, and requests run to their end.
 */
module LockoutConcurrent {
  import opened Prelude
  import opened Redis
  import opened Lockout

  /**
    Requests past the lock check, those that counted a fifth or later failure and are about to lock, and
    those about to clear the counter; how many failures were counted, and whether a lock was set.
   */
  datatype Flight = Flight(now: Time, guard: Guard, passed: nat, locking: nat, clearing: nat, counted: nat, locked: bool)
  {
    function InFlight(): nat {
      passed + locking + clearing
    }
  }

  datatype Step =
    | Check(at: Time)
    | Leave(at: Time)
    | Fail(at: Time)
    | Lock(at: Time)
    | Clear(at: Time)

  /** A call that the cache carries out and answers at `at`. */
  function Works(at: Time): Await {
    Await(at, Answered)
  }

  function FailEffect(f: Flight, at: Time): Flight
    requires f.passed > 0
  {
    var n := CountReply(f.guard.attempts, Works(at));
    var counted := f.(passed := f.passed - 1, counted := f.counted + 1,
                      guard := f.guard.(attempts := AfterIncrementWithTtl(f.guard.attempts, LOCKOUT, Works(at))));
    if n.Some? && n.value >= MAX_FAILED then counted.(locking := f.locking + 1) else counted
  }

  /** There is a request to take the step. */
  predicate Ready(f: Flight, step: Step) {
    match step
    case Check(_) => true
    case Leave(_) => f.passed > 0
    case Fail(_) => f.passed > 0
    case Lock(_) => f.locking > 0
    case Clear(_) => f.clearing > 0
  }

  function Effect(f: Flight, step: Step): Flight
    requires Ready(f, step)
  {
    match step
    case Check(at) => if Live(f.guard.lock, at) then f else f.(passed := f.passed + 1)
    case Leave(_) => f.(passed := f.passed - 1)
    case Fail(at) => FailEffect(f, at)
    case Lock(at) =>
      f.(locking := f.locking - 1, clearing := f.clearing + 1, locked := true,
         guard := f.guard.(lock := AfterSet(f.guard.lock, Flag(true), LOCKOUT, Works(at))))
    case Clear(at) =>
      f.(clearing := f.clearing - 1, guard := f.guard.(attempts := AfterDelete(f.guard.attempts, Works(at))))
  }

  /** At most `c` logins are in flight, and time does not run backwards. */
  predicate Enabled(f: Flight, step: Step, c: nat) {
    f.now <= step.at && Ready(f, step) && (step.Check? ==> f.InFlight() < c)
  }

  function Next(f: Flight, step: Step, c: nat): Flight {
    if Enabled(f, step, c) then Effect(f.(now := step.at), step) else f
  }

  function Run(f: Flight, steps: seq<Step>, c: nat): Flight
    decreases |steps|
  {
    if steps == [] then f else Run(Next(f, steps[0], c), steps[1..], c)
  }

  /** No lock and no counter in force, and nothing in flight. */
  predicate Clean(f: Flight) {
    && !Live(f.guard.lock, f.now) && !Live(f.guard.attempts, f.now)
    && f.InFlight() == 0 && f.counted == 0 && !f.locked
  }

  /** Until a lock is set the counter shows every failure, and each from the fifth on is waiting to lock. */
  ghost predicate Unlocked(f: Flight, start: Time) {
    && f.clearing == 0 && !Live(f.guard.lock, f.now) && f.counted <= MAX_FAILED - 1 + f.locking
    && (if f.counted == 0 then !Live(f.guard.attempts, f.now)
        else && f.guard.attempts.Some? && f.guard.attempts.value.value == Number(f.counted)
             && f.guard.attempts.value.expiry.Some? && f.guard.attempts.value.expiry.value >= start + LOCKOUT)
  }

  /** From then on only those already past the check can still count. */
  ghost predicate LockedIn(f: Flight, start: Time, c: nat) {
    && f.guard.lock.Some? && f.guard.lock.value.expiry.Some? && f.guard.lock.value.expiry.value >= start + LOCKOUT
    && f.counted + f.passed <= MAX_FAILED - 1 + c
  }

  ghost predicate Inv(f: Flight, start: Time, c: nat) {
    start <= f.now && f.InFlight() <= c && if f.locked then LockedIn(f, start, c) else Unlocked(f, start)
  }

  lemma StepKeepsInv(f: Flight, step: Step, start: Time, c: nat)
    requires Inv(f, start, c) && step.at < start + LOCKOUT
    ensures Inv(Next(f, step, c), start, c)
  {
  }

  lemma {:induction false} RunKeepsInv(f: Flight, steps: seq<Step>, start: Time, c: nat)
    requires Inv(f, start, c) && forall k :: 0 <= k < |steps| ==> steps[k].at < start + LOCKOUT
    ensures Inv(Run(f, steps, c), start, c)
    decreases |steps|
  {
    if steps != [] {
      StepKeepsInv(f, steps[0], start, c);
      RunKeepsInv(Next(f, steps[0], c), steps[1..], start, c);
    }
  }

  /**
    In every interleaving of at most `c` logins at a time without a success, at most 4 + c failures are
    counted in the 900 s from a clean guard on; one at a time that is five.
   */
  lemma FailuresInFlight(f: Flight, steps: seq<Step>, c: nat)
    requires Clean(f) && forall k :: 0 <= k < |steps| ==> steps[k].at < f.now + 900 * SECOND
    ensures Run(f, steps, c).counted <= 4 + c
  {
    RunKeepsInv(f, steps, f.now, c);
  }

  // ---- The bound is reached -------------------------------------------------------------------------

  lemma {:induction false} RunAppend(f: Flight, a: seq<Step>, b: seq<Step>, c: nat)
    ensures Run(f, a + b, c) == Run(Run(f, a, c), b, c)
    decreases |a|
  {
    if a == [] {
      assert a + b == b;
    } else {
      assert (a + b)[1..] == a[1..] + b;
      RunAppend(Next(f, a[0], c), a[1..], b, c);
    }
  }

  /** `n` failures counted, `p` requests past the check, `l` about to lock, all at time 0. */
  function At(n: nat, p: nat, l: nat): Flight {
    Flight(0, Guard(None, if n == 0 then None else Some(Entry(Number(n), Some(LOCKOUT)))), p, l, 0, n, false)
  }

  lemma RunCons(f: Flight, a: Step, rest: seq<Step>, c: nat)
    ensures Run(f, [a] + rest, c) == Run(Next(f, a, c), rest, c)
  {
    assert ([a] + rest)[1..] == rest;
  }

  lemma {:induction false} ManyChecks(n: nat, p: nat, k: nat, c: nat) returns (steps: seq<Step>)
    requires p + k <= c
    ensures Run(At(n, p, 0), steps, c) == At(n, p + k, 0)
    ensures forall i :: 0 <= i < |steps| ==> steps[i].at == 0
    decreases k
  {
    if k == 0 {
      steps := [];
    } else {
      assert Next(At(n, p, 0), Check(0), c) == At(n, p + 1, 0);
      var rest := ManyChecks(n, p + 1, k - 1, c);
      RunCons(At(n, p, 0), Check(0), rest, c);
      steps := [Check(0)] + rest;
    }
  }

  lemma OneFail(n: nat, p: nat, l: nat, c: nat)
    requires p > 0
    ensures Next(At(n, p, l), Fail(0), c) == At(n + 1, p - 1, if n + 1 >= MAX_FAILED then l + 1 else l)
  {
  }

  lemma {:induction false} ManyFails(n: nat, k: nat, l: nat, c: nat) returns (steps: seq<Step>)
    requires n >= MAX_FAILED - 1
    ensures Run(At(n, k, l), steps, c) == At(n + k, 0, l + k)
    ensures forall i :: 0 <= i < |steps| ==> steps[i].at == 0
    decreases k
  {
    if k == 0 {
      steps := [];
    } else {
      OneFail(n, k, l, c);
      var rest := ManyFails(n + 1, k - 1, l + 1, c);
      RunCons(At(n, k, l), Fail(0), rest, c);
      steps := [Fail(0)] + rest;
    }
  }

  lemma FailOnce(n: nat, c: nat) returns (steps: seq<Step>)
    requires n + 1 < MAX_FAILED && c > 0
    ensures Run(At(n, 0, 0), steps, c) == At(n + 1, 0, 0)
    ensures forall i :: 0 <= i < |steps| ==> steps[i].at == 0
  {
    var check := ManyChecks(n, 0, 1, c);
    OneFail(n, 1, 0, c);
    RunCons(At(n, 1, 0), Fail(0), [], c);
    assert [Fail(0)] + [] == [Fail(0)];
    RunAppend(At(n, 0, 0), check, [Fail(0)], c);
    steps := check + [Fail(0)];
  }

  lemma {:induction false} FailOneByOne(n: nat, c: nat) returns (steps: seq<Step>)
    requires n < MAX_FAILED && c > 0
    ensures Run(At(0, 0, 0), steps, c) == At(n, 0, 0)
    ensures forall i :: 0 <= i < |steps| ==> steps[i].at == 0
  {
    if n == 0 {
      steps := [];
    } else {
      var front := FailOneByOne(n - 1, c);
      var once := FailOnce(n - 1, c);
      RunAppend(At(0, 0, 0), front, once, c);
      steps := front + once;
    }
  }

  /** For every c there is such a run that counts 4 + c failures in an instant. */
  lemma FailuresInFlightReached(c: nat) returns (steps: seq<Step>)
    requires c > 0
    ensures Clean(At(0, 0, 0)) && (forall k :: 0 <= k < |steps| ==> steps[k].at == 0)
    ensures Run(At(0, 0, 0), steps, c).counted == 4 + c
  {
    var four := FailOneByOne(4, c);
    var checks := ManyChecks(4, 0, c, c);
    var fails := ManyFails(4, c, 0, c);
    RunAppend(At(4, 0, 0), checks, fails, c);
    RunAppend(At(0, 0, 0), four, checks + fails, c);
    steps := four + (checks + fails);
  }

  // ---- One login at a time ----------------------------------------------------------------------------

  /** The calls of one login that does not succeed. */
  function LoginSteps(g: Guard, a: Attempt): seq<Step> {
    [Check(a.calls.exists_.at)]
    + if Rejected(g, a.calls) then []
      else if a.verdict != Wrong then [Leave(a.calls.get.at)]
      else [Fail(a.calls.count.at)] + if Count(g, a.calls) >= MAX_FAILED then [Lock(a.calls.lock.at), Clear(a.calls.clear.at)] else []
  }

  /** Nothing else being in flight, a login moves the guard as the sequential machine does, and counts what that counts. */
  lemma LoginIsAFlight(f: Flight, a: Attempt, c: nat)
    requires f.InFlight() == 0 && c > 0 && f.now <= a.calls.exists_.at
    requires a.verdict != Right && a.calls.Ordered() && a.calls.Working()
    ensures var f' := Run(f, LoginSteps(f.guard, a), c);
            && f'.guard == Guarded(f.guard, a) && f'.InFlight() == 0
            && f'.counted == f.counted + if CountedFailure(f.guard, a) then 1 else 0
  {
    var check := Check(a.calls.exists_.at);
    var rest := LoginSteps(f.guard, a)[1..];
    assert LoginSteps(f.guard, a) == [check] + rest;
    RunCons(f, check, rest, c);
    var f1 := Next(f, check, c);
    if Rejected(f.guard, a.calls) {
      assert rest == [] && f1.guard == f.guard;
    } else if a.verdict != Wrong {
      RunCons(f1, Leave(a.calls.get.at), [], c);
    } else {
      FailIsAFlight(f1, a, c);
    }
  }

  lemma FailIsAFlight(f: Flight, a: Attempt, c: nat)
    requires f.passed == 1 && f.locking == 0 && f.clearing == 0 && f.now <= a.calls.count.at && a.calls.Ordered() && a.calls.Working()
    ensures var fail := Fail(a.calls.count.at);
            var steps := [fail] + if Count(f.guard, a.calls) >= MAX_FAILED then [Lock(a.calls.lock.at), Clear(a.calls.clear.at)] else [];
            var f' := Run(f, steps, c);
            var counted := AfterIncrementWithTtl(f.guard.attempts, LOCKOUT, a.calls.count);
            && f'.guard == (if Count(f.guard, a.calls) >= MAX_FAILED
                            then Guard(AfterSet(f.guard.lock, Flag(true), LOCKOUT, a.calls.lock), AfterDelete(counted, a.calls.clear))
                            else f.guard.(attempts := counted))
            && f'.InFlight() == 0 && f'.counted == f.counted + 1
  {
    var fail, lock, clear := Fail(a.calls.count.at), Lock(a.calls.lock.at), Clear(a.calls.clear.at);
    var f1 := Next(f, fail, c);
    if Count(f.guard, a.calls) >= MAX_FAILED {
      RunCons(f, fail, [lock, clear], c);
      assert [lock, clear] == [lock] + [clear] && [clear] == [clear] + [];
      RunCons(f1, lock, [clear], c);
      RunCons(Next(f1, lock, c), clear, [], c);
    } else {
      RunCons(f, fail, [], c);
    }
  }
}
