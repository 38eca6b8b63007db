/** The Chain Bridge client: submission with a timeout and exponential backoff, and the confirmation poll. */
module Blockchain {
  import opened Prelude

  const ATTEMPT_TIMEOUT: Time := 15 * SECOND
  const POLL_INTERVAL: Time := 750
  const POLL_COUNT: nat := 20
  const REQUEST_BUDGET: Time := 40 * SECOND

  /** `max_attempts` in the provider: one retry. */
  const MAX_RETRIES: nat := 1

  /** How one RPC would end if left alone: a signature or an error, after some time. */
  datatype Rpc = Rpc(signature: Option<string>, took: Time)

  predicate TimedOut(r: Rpc) {
    r.took > ATTEMPT_TIMEOUT
  }

  predicate Succeeds(r: Rpc) {
    r.signature.Some? && !TimedOut(r)
  }

  function Duration(r: Rpc): (t: Time)
    ensures t <= ATTEMPT_TIMEOUT
  {
    if TimedOut(r) then ATTEMPT_TIMEOUT else r.took
  }

  function Pow2(n: nat): (p: nat)
    ensures p >= 1
  {
    if n == 0 then 1 else 2 * Pow2(n - 1)
  }

  /** `2u64.pow(attempt)` seconds, wrapping as an unsigned 64-bit product does. */
  function Backoff(attempt: nat): Time {
    Pow2(attempt) % 0x1_0000_0000_0000_0000 * SECOND
  }

  /** Time spent when the first `n` attempts have been made and all but the last were followed by a backoff. */
  function Elapsed(rpc: nat -> Rpc, n: nat): Time {
    if n == 0 then 0
    else if n == 1 then Duration(rpc(0))
    else Elapsed(rpc, n - 1) + Backoff(n - 1) + Duration(rpc(n - 1))
  }

  /** Each further attempt adds the doubled wait and the time it takes, cut off at 15 s. */
  lemma ElapsedAdds(rpc: nat -> Rpc, n: nat)
    requires n < 64
    ensures var took := if rpc(n).took > 15 * SECOND then 15 * SECOND else rpc(n).took;
            Elapsed(rpc, n + 1) == if n == 0 then took else Elapsed(rpc, n) + Pow2(n) * SECOND + took
  {
    if n > 0 {
      BackoffExact(n);
    }
  }

  lemma BackoffBound(attempt: nat)
    ensures Backoff(attempt) <= Pow2(attempt) * SECOND
  {
  }

  lemma {:induction false} ElapsedBound(rpc: nat -> Rpc, n: nat)
    requires n >= 1
    ensures Elapsed(rpc, n) <= (15 * n + Pow2(n) - 2) * SECOND
  {
    if n > 1 {
      ElapsedBound(rpc, n - 1);
      BackoffBound(n - 1);
    }
  }

  /**
    The provider's loop, for any retry limit: it ends, submits at most maxRetries + 1 times, returns
    the signature of the first attempt that succeeds or an error when none does, and takes at most
    15 (m + 1) + 2^(m+1) - 2 seconds.
   */
  method RegisterUserOnChain(maxRetries: nat, rpc: nat -> Rpc)
    returns (result: Option<string>, submissions: nat, elapsed: Time)
    ensures 1 <= submissions <= maxRetries + 1
    ensures forall k :: 0 <= k < submissions - 1 ==> rpc(k).signature.None? || rpc(k).took > 15 * SECOND
    ensures var last := rpc(submissions - 1);
            result == if last.took <= 15 * SECOND then last.signature else None
    ensures result.None? ==> submissions == maxRetries + 1
    ensures elapsed == Elapsed(rpc, submissions)
    ensures elapsed <= (15 * (maxRetries + 1) + Pow2(maxRetries + 1) - 2) * SECOND
  {
    var attempts := 0;
    submissions, elapsed := 0, 0;
    while true
      invariant attempts <= maxRetries && submissions == attempts
      invariant forall k :: 0 <= k < attempts ==> !Succeeds(rpc(k))
      invariant elapsed == if attempts == 0 then 0 else Elapsed(rpc, attempts) + Backoff(attempts)
      decreases maxRetries - attempts
    {
      var call := rpc(attempts);
      submissions := submissions + 1;
      elapsed := elapsed + Duration(call);
      ElapsedBound(rpc, submissions);
      Pow2Monotone(submissions, maxRetries + 1);
      if Succeeds(call) {
        result := call.signature;
        return;
      }
      if attempts >= maxRetries {
        result := None;
        return;
      }
      attempts := attempts + 1;
      elapsed := elapsed + Backoff(attempts);
    }
  }

  lemma {:induction false} Pow2Monotone(a: nat, b: nat)
    requires a <= b
    ensures Pow2(a) <= Pow2(b)
    decreases b
  {
    if a < b {
      Pow2Monotone(a, b - 1);
    }
  }

  /** `confirm_registered`: polls until the account is seen, twenty times at most, and sleeps after each miss. */
  method ConfirmRegistered(programValid: bool, sees: nat -> bool) returns (confirmed: bool, polls: nat, slept: Time)
    ensures confirmed <==> programValid && exists k :: 0 <= k < 20 && sees(k)
    ensures confirmed ==> 1 <= polls <= 20
    ensures programValid && !confirmed ==> polls == 20
    ensures forall k :: 0 <= k < polls ==> (sees(k) <==> confirmed && k == polls - 1)
    ensures slept == (if confirmed then polls - 1 else polls) * 750 <= 15 * SECOND
  {
    polls, slept := 0, 0;
    if !programValid {
      return false, polls, slept;
    }
    while polls < POLL_COUNT
      invariant polls <= POLL_COUNT && slept == polls * POLL_INTERVAL
      invariant forall j :: 0 <= j < polls ==> !sees(j)
    {
      polls := polls + 1;
      if sees(polls - 1) {
        return true, polls, slept;
      }
      slept := slept + POLL_INTERVAL;
    }
    return false, polls, slept;
  }

  /** As configured, the retry loop alone stays inside the request budget. */
  lemma RetryWithinBudget(rpc: nat -> Rpc, submissions: nat)
    requires 1 <= submissions <= MAX_RETRIES + 1
    ensures submissions <= 2 && Elapsed(rpc, submissions) <= 32 * SECOND < REQUEST_BUDGET == 40 * SECOND
  {
  }

  /** Every attempt takes all the time it may. */
  function Slowest(n: nat): nat -> Rpc {
    (k: nat) => if k + 1 < n then Rpc(None, ATTEMPT_TIMEOUT + 1) else Rpc(Some("signature"), ATTEMPT_TIMEOUT)
  }

  /** The bound on n attempts is reached for every n up to 64, where the backoff first wraps. */
  lemma ElapsedReached(n: nat)
    requires 1 <= n <= 64
    ensures Elapsed(Slowest(n), n) == (15 * n + Pow2(n) - 2) * SECOND
  {
    SlowElapsed(Slowest(n), n);
  }

  lemma {:induction false} Pow2Sum(a: nat, b: nat)
    ensures Pow2(a + b) == Pow2(a) * Pow2(b)
  {
    if a > 0 {
      Pow2Sum(a - 1, b);
    }
  }

  lemma Pow2Of64()
    ensures Pow2(64) == 0x1_0000_0000_0000_0000
  {
    assert Pow2(8) == 256;
    Pow2Sum(8, 8);
    Pow2Sum(16, 16);
    Pow2Sum(32, 32);
  }

  lemma BackoffExact(attempt: nat)
    requires attempt < 64
    ensures Backoff(attempt) == Pow2(attempt) * SECOND
  {
    Pow2Monotone(attempt + 1, 64);
    Pow2Of64();
  }

  lemma {:induction false} SlowElapsed(rpc: nat -> Rpc, n: nat)
    requires 1 <= n <= 64 && forall k :: 0 <= k < n ==> Duration(rpc(k)) == ATTEMPT_TIMEOUT
    ensures Elapsed(rpc, n) == (15 * n + Pow2(n) - 2) * SECOND
  {
    if n > 1 {
      SlowElapsed(rpc, n - 1);
      BackoffExact(n - 1);
    }
  }

  /** A request with this many submissions and this many missed polls can take longer than its budget. */
  ghost predicate CanOverrun(submissions: nat, misses: nat) {
    exists rpc: nat -> Rpc :: Elapsed(rpc, submissions) + misses * POLL_INTERVAL > REQUEST_BUDGET
  }

  /** Retries and poll together can overrun the budget exactly when there was a retry and at least eleven polls missed. */
  lemma OverrunIff(submissions: nat, misses: nat)
    requires 1 <= submissions <= MAX_RETRIES + 1 && misses <= POLL_COUNT
    ensures CanOverrun(submissions, misses) <==> submissions == 2 && misses >= 11
  {
    ElapsedReached(submissions);
    assert Pow2(1) == 2 && Pow2(2) == 4;
    forall rpc: nat -> Rpc
      ensures Elapsed(rpc, submissions) <= Elapsed(Slowest(submissions), submissions)
    {
      ElapsedBound(rpc, submissions);
    }
  }

  /** So a slow second attempt followed by an unanswered poll overruns it: the request is cut off in between. */
  lemma RetryAndPollOverrun() returns (rpc: nat -> Rpc)
    ensures rpc(0).took > 15 * SECOND && rpc(1).signature.Some? && rpc(1).took <= 15 * SECOND
    ensures Elapsed(rpc, 2) == 32 * SECOND
    ensures Elapsed(rpc, 2) + 20 * 750 > 40 * SECOND
    ensures CanOverrun(2, 20)
  {
    OverrunIff(2, POLL_COUNT);
    rpc := Slowest(2);
    ElapsedReached(2);
    assert Pow2(2) == 4;
  }
}
