/**
  Verification emails of one user with several resend requests in flight: checking the cooldown, sending
  and arming the cooldown are separate calls. Requests of one user are alike, so it is enough to count
  how many stand where. The cache answers, and requests run to their end.
 */
module ResendConcurrent {
  import opened Prelude
  import opened Redis
  import opened Resend

  /** Requests past the cooldown check, requests that have sent their email and will arm, and the emails so far. */
  datatype Flight = Flight(now: Time, cooldown: Cell, passed: nat, arming: nat, emails: seq<Time>)

  datatype Step =
    | Check(at: Time)
    | Leave(at: Time)
    | Send(at: Time)
    | Arm(at: Time)

  /** There is a request to take the step. */
  predicate Ready(f: Flight, step: Step) {
    match step
    case Check(_) => true
    case Leave(_) => f.passed > 0
    case Send(_) => f.passed > 0
    case Arm(_) => f.arming > 0
  }

  function Effect(f: Flight, step: Step): Flight
    requires Ready(f, step)
  {
    match step
    case Check(at) => if Live(f.cooldown, at) then f else f.(passed := f.passed + 1)
    case Leave(_) => f.(passed := f.passed - 1)
    case Send(at) => f.(passed := f.passed - 1, arming := f.arming + 1, emails := f.emails + [at])
    case Arm(at) => f.(arming := f.arming - 1, cooldown := AfterSet(f.cooldown, Flag(true), COOLDOWN, Await(at, Answered)))
  }

  /** At most `c` requests are in flight, and time does not run backwards. */
  predicate Enabled(f: Flight, step: Step, c: nat) {
    f.now <= step.at && Ready(f, step) && (step.Check? ==> f.passed + f.arming < c)
  }

  function Next(f: Flight, step: Step, c: nat): Flight {
    if Enabled(f, step, c) then Effect(f.(now := step.at), step) else f
  }

  function Run(f: Flight, steps: seq<Step>, c: nat): Flight
    decreases |steps|
  {
    if steps == [] then f else Run(Next(f, steps[0], c), steps[1..], c)
  }

  /** Any c + 1 emails span at least a minute. */
  ghost predicate Spread(emails: seq<Time>, c: nat) {
    forall i :: 0 <= i && i + c < |emails| ==> emails[i + c] >= emails[i] + 60 * SECOND
  }

  /** Either all requests that sent from `m` on are still to arm, or the cooldown outlives that email by a minute. */
  ghost predicate Covered(f: Flight, m: nat)
    requires m < |f.emails|
  {
    |f.emails| - m <= f.arming
    || (f.cooldown.Some? && f.cooldown.value.expiry.Some? && f.cooldown.value.expiry.value >= f.emails[m] + COOLDOWN)
  }

  /** Within a minute of an email, it, those after it and those that may follow are at most c. */
  ghost predicate Few(f: Flight, m: nat, c: nat)
    requires m < |f.emails|
  {
    f.now < f.emails[m] + COOLDOWN ==> |f.emails| - m + f.passed <= c
  }

  ghost predicate Inv(f: Flight, c: nat) {
    && f.passed + f.arming <= c && Spread(f.emails, c)
    && (forall m :: 0 <= m < |f.emails| ==> f.emails[m] <= f.now && Covered(f, m) && Few(f, m, c))
  }

  lemma CheckKeepsInv(f: Flight, at: Time, c: nat)
    requires Inv(f, c) && Enabled(f, Check(at), c)
    ensures Inv(Next(f, Check(at), c), c)
  {
    var f' := Next(f, Check(at), c);
    forall m | 0 <= m < |f.emails|
      ensures Covered(f', m) && Few(f', m, c)
    {
      assert Covered(f, m) && Few(f, m, c);
    }
  }

  lemma SendKeepsInv(f: Flight, at: Time, c: nat)
    requires Inv(f, c) && Enabled(f, Send(at), c)
    ensures Inv(Next(f, Send(at), c), c)
  {
    var f' := Next(f, Send(at), c);
    var n := |f.emails|;
    forall m | 0 <= m <= n
      ensures Covered(f', m) && Few(f', m, c)
    {
      assert m < n ==> Covered(f, m) && Few(f, m, c);
    }
    if n >= c > 0 {
      assert Few(f, n - c, c);
    }
  }

  lemma StepKeepsInv(f: Flight, step: Step, c: nat)
    requires Inv(f, c)
    ensures Inv(Next(f, step, c), c)
  {
    if Enabled(f, step, c) {
      match step
      case Check(at) => CheckKeepsInv(f, at, c);
      case Send(at) => SendKeepsInv(f, at, c);
      case _ =>
        var f' := Next(f, step, c);
        forall m | 0 <= m < |f.emails|
          ensures Covered(f', m) && Few(f', m, c)
        {
          assert Covered(f, m) && Few(f, m, c);
        }
    }
  }

  lemma {:induction false} RunKeepsInv(f: Flight, steps: seq<Step>, c: nat)
    requires Inv(f, c)
    ensures Inv(Run(f, steps, c), c)
    decreases |steps|
  {
    if steps != [] {
      StepKeepsInv(f, steps[0], c);
      RunKeepsInv(Next(f, steps[0], c), steps[1..], c);
    }
  }

  /**
    In every interleaving of at most `c` requests at a time, whatever the cooldown was at the start, any
    c + 1 emails to one user span at least 60 s: at most c a minute.
   */
  lemma EmailsInFlight(now: Time, cooldown: Cell, steps: seq<Step>, c: nat)
    ensures Spread(Run(Flight(now, cooldown, 0, 0, []), steps, c).emails, c)
  {
    RunKeepsInv(Flight(now, cooldown, 0, 0, []), steps, c);
  }

  // ---- The bound is reached -------------------------------------------------------------------------

  lemma {:induction false} RunAppend(f: Flight, a: seq<Step>, b: seq<Step>, c: nat)
    ensures Run(f, a + b, c) == Run(Run(f, a, c), b, c)
    decreases |a|
  {
    if a == [] {
      assert a + b == b;
    } else {
      assert (a + b)[1..] == a[1..] + b;
      RunAppend(Next(f, a[0], c), a[1..], b, c);
    }
  }

  lemma RunCons(f: Flight, a: Step, rest: seq<Step>, c: nat)
    ensures Run(f, [a] + rest, c) == Run(Next(f, a, c), rest, c)
  {
    assert ([a] + rest)[1..] == rest;
  }

  /** `p` requests past the check and `e` emails sent, all at time 0. */
  function At(p: nat, e: nat): Flight {
    Flight(0, None, p, e, seq(e, _ => 0))
  }

  lemma {:induction false} ManyChecks(p: nat, k: nat, c: nat) returns (steps: seq<Step>)
    requires p + k <= c
    ensures Run(At(p, 0), steps, c) == At(p + k, 0)
    decreases k
  {
    if k == 0 {
      steps := [];
    } else {
      assert Next(At(p, 0), Check(0), c) == At(p + 1, 0);
      var rest := ManyChecks(p + 1, k - 1, c);
      RunCons(At(p, 0), Check(0), rest, c);
      steps := [Check(0)] + rest;
    }
  }

  lemma {:induction false} ManySends(k: nat, e: nat, c: nat) returns (steps: seq<Step>)
    ensures Run(At(k, e), steps, c) == At(0, e + k)
    decreases k
  {
    if k == 0 {
      steps := [];
    } else {
      assert Next(At(k, e), Send(0), c) == At(k - 1, e + 1);
      var rest := ManySends(k - 1, e + 1, c);
      RunCons(At(k, e), Send(0), rest, c);
      steps := [Send(0)] + rest;
    }
  }

  /** For every c there is such a run that sends c emails in an instant. */
  lemma EmailsInFlightReached(c: nat) returns (steps: seq<Step>)
    ensures Run(Flight(0, None, 0, 0, []), steps, c).emails == seq(c, _ => 0)
  {
    assert At(0, 0) == Flight(0, None, 0, 0, []);
    var checks := ManyChecks(0, c, c);
    var sends := ManySends(c, 0, c);
    RunAppend(At(0, 0), checks, sends, c);
    steps := checks + sends;
  }

  // ---- One request at a time --------------------------------------------------------------------------

  /** The calls of one request on the cooldown and the mail. */
  function RequestSteps(s: Subject, fresh_: string, calls: Calls): seq<Step> {
    if !calls.state.reply.Answered? || s.row.emailVerified then []
    else [Check(calls.exists_.at)]
         + if CoolingDown(s, calls) then []
           else if Resent(s, fresh_, calls).1.None? then [Leave(calls.setToken.at)]
           else [Send(calls.publish.at), Arm(calls.arm.at)]
  }

  /** Nothing else being in flight, a request moves the cooldown and sends as the sequential machine does. */
  lemma RequestIsAFlight(f: Flight, s: Subject, fresh_: string, calls: Calls, c: nat)
    requires f.passed == 0 && f.arming == 0 && c > 0 && f.cooldown == s.cooldown && f.now <= calls.state.at
    requires calls.Ordered() && calls.CacheWorks()
    ensures var f' := Run(f, RequestSteps(s, fresh_, calls), c);
            var (s', email) := Resent(s, fresh_, calls);
            && f'.cooldown == s'.cooldown && f'.passed == 0 && f'.arming == 0
            && f'.emails == f.emails + if email.Some? then [email.value.at] else []
  {
    if calls.state.reply.Answered? && !s.row.emailVerified {
      var check := Check(calls.exists_.at);
      var rest := RequestSteps(s, fresh_, calls)[1..];
      assert RequestSteps(s, fresh_, calls) == [check] + rest;
      RunCons(f, check, rest, c);
      var f1 := Next(f, check, c);
      if CoolingDown(s, calls) {
        assert rest == [];
      } else if Resent(s, fresh_, calls).1.None? {
        RunCons(f1, Leave(calls.setToken.at), [], c);
      } else {
        var send, arm := Send(calls.publish.at), Arm(calls.arm.at);
        assert [send, arm] == [send] + [arm] && [arm] == [arm] + [];
        RunCons(f1, send, [arm], c);
        RunCons(Next(f1, send, c), arm, [], c);
      }
    }
  }
}
