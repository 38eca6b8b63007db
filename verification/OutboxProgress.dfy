/**
  No starvation: however many newer rows keep arriving, and even if Kafka never takes an event,
  one worker whose fetches and marks reach the table settles every row within a bounded number of ticks.
 */
module OutboxProgress {
  import opened Prelude
  import opened Events
  import opened Outbox

  ghost predicate Healthy(env: TickEnv) {
    env.fetch.Answered? && forall k: nat :: env.rows(k).mark.Applied()
  }

  /** No pending row before `n` has used up its attempts. */
  ghost predicate SoundBefore(t: Table, n: nat) {
    forall i: RowId :: i < n && IsPending(t, i) ==> t[i].attempts < 10
  }

  function RunTicks(d: Drain, ticks: seq<TickEnv>): Drain
    decreases |ticks|
  {
    if ticks == [] then d else RunTicks(Tick(d, ticks[0]), ticks[1..])
  }

  /** A handled row was delivered, or spent one attempt and is given up after the last. */
  predicate Advanced(before: Row, after: Row) {
    || after == before.(status := PROCESSED)
    || after == before.(attempts := before.attempts + 1,
                        status := if before.attempts + 1 >= 10 then FAILED else PENDING)
  }

  lemma HandleRow(d: Drain, i: RowId, env: RowEnv, r: RowId)
    requires i < |d.table| && r < |d.table| && env.mark.Applied()
    ensures var t := Handle(d, i, env).table;
            if r == i then Advanced(d.table[r], t[r]) else t[r] == d.table[r]
  {
  }

  lemma {:induction false} HandleAllRow(d: Drain, batch: seq<RowId>, env: nat -> RowEnv, r: RowId)
    requires forall k :: 0 <= k < |batch| ==> batch[k] < |d.table|
    requires forall j, k :: 0 <= j < k < |batch| ==> batch[j] < batch[k]
    requires forall k: nat :: env(k).mark.Applied()
    requires r < |d.table|
    ensures var t := HandleAll(d, batch, env).table;
            if r in batch then Advanced(d.table[r], t[r]) else t[r] == d.table[r]
  {
    if batch != [] {
      var last := |batch| - 1;
      var front := batch[..last];
      assert batch == front + [batch[last]];
      HandleAllRow(d, front, env, r);
      HandleRow(HandleAll(d, front, env), batch[last], env(last), r);
    }
  }

  /** One healthy tick advances every fetched row and leaves every other row alone. */
  lemma TickRow(d: Drain, env: TickEnv, r: RowId)
    requires Healthy(env) && r < |d.table|
    ensures |Tick(d, env).table| >= |d.table|
    ensures if r in Fetch(InsertedAll(d.table, env.before), 100)
            then Advanced(d.table[r], Tick(d, env).table[r]) else Tick(d, env).table[r] == d.table[r]
  {
    var d0 := d.(table := InsertedAll(d.table, env.before));
    HandleAllRow(d0, Fetch(d0.table, BATCH_SIZE), env.rows, r);
  }

  // ---- Which rows are fetched -----------------------------------------------------------------

  ghost function Older(t: Table, r: RowId): set<RowId> {
    set k: RowId | k < r && IsPending(t, k)
  }

  ghost function Members(ids: seq<RowId>): set<RowId> {
    set r | r in ids
  }

  lemma {:induction false} DistinctCount(ids: seq<RowId>)
    requires forall j, k :: 0 <= j < k < |ids| ==> ids[j] < ids[k]
    ensures |Members(ids)| == |ids|
  {
    if ids == [] {
      assert Members(ids) == {};
    } else {
      var front, last := ids[..|ids| - 1], ids[|ids| - 1];
      DistinctCount(front);
      assert ids == front + [last];
      assert Members(ids) == Members(front) + {last};
      assert last !in front;
    }
  }

  lemma OlderCount(t: Table, i: nat)
    requires i <= |t|
    ensures |Older(t, i)| == |PendingBefore(t, i)|
  {
    DistinctCount(PendingBefore(t, i));
    assert Older(t, i) == Members(PendingBefore(t, i));
  }

  /** The batch is exactly the pending rows with fewer than `n` older pending rows. */
  lemma FetchIsOldest(t: Table, n: nat, r: RowId)
    ensures r in Fetch(t, n) <==> IsPending(t, r) && |Older(t, r)| < n
  {
    if IsPending(t, r) {
      OlderCount(t, r);
      PendingPrefix(t, r + 1, |t|);
      var all, mine := PendingBefore(t, |t|), |PendingBefore(t, r)|;
      assert PendingBefore(t, r + 1)[mine] == r;
      assert all[mine] == r;
      if mine >= n {
        assert forall k :: 0 <= k < n && k < |all| ==> all[k] < all[mine];
      }
    }
  }

  /** Rows inserted later do not change which older rows are pending. */
  lemma OlderUnderInsert(t: Table, payloads: seq<Json>, r: RowId)
    requires r < |t|
    ensures Older(InsertedAll(t, payloads), r) == Older(t, r)
    ensures IsPending(InsertedAll(t, payloads), r) == IsPending(t, r)
  {
  }

  lemma TickKeepsSound(d: Drain, env: TickEnv, r: RowId)
    requires Healthy(env) && r < |d.table|
    requires SoundBefore(d.table, r + 1)
    ensures forall i: RowId :: i <= r && IsPending(Tick(d, env).table, i) ==>
              IsPending(d.table, i) && Tick(d, env).table[i].attempts < MAX_ATTEMPTS
  {
    var t' := Tick(d, env).table;
    forall i: RowId | i <= r && IsPending(t', i)
      ensures IsPending(d.table, i) && t'[i].attempts < MAX_ATTEMPTS
    {
      TickRow(d, env, i);
      FetchIsOldest(InsertedAll(d.table, env.before), BATCH_SIZE, i);
    }
  }

  // ---- First bound: the attempts left to the row and everything older --------------------------

  function AttemptsLeft(t: Table, i: RowId): nat {
    if IsPending(t, i) && t[i].attempts < 10 then 10 - t[i].attempts else 0
  }

  /** Attempts left to the rows before `n`. */
  function Work(t: Table, n: nat): nat {
    if n == 0 then 0 else Work(t, n - 1) + AttemptsLeft(t, n - 1)
  }

  lemma TickSpendsAttempt(d: Drain, env: TickEnv, r: RowId)
    requires Healthy(env) && r < |d.table| && SoundBefore(d.table, r + 1)
    ensures AttemptsLeft(Tick(d, env).table, r)
         <= AttemptsLeft(d.table, r) - if r in Fetch(InsertedAll(d.table, env.before), BATCH_SIZE) then 1 else 0
  {
    TickRow(d, env, r);
    FetchIsOldest(InsertedAll(d.table, env.before), BATCH_SIZE, r);
  }

  /** Some row before `n` is fetched. */
  ghost predicate FetchedBefore(d: Drain, env: TickEnv, n: nat) {
    exists q: RowId :: q < n && q in Fetch(InsertedAll(d.table, env.before), BATCH_SIZE)
  }

  lemma FetchedUpTo(d: Drain, env: TickEnv, n: nat)
    requires n > 0 && FetchedBefore(d, env, n)
    ensures FetchedBefore(d, env, n - 1) || n - 1 in Fetch(InsertedAll(d.table, env.before), BATCH_SIZE)
  {
    var q: RowId :| q < n && q in Fetch(InsertedAll(d.table, env.before), BATCH_SIZE);
    assert q < n - 1 ==> FetchedBefore(d, env, n - 1);
  }

  lemma {:induction false} TickSpendsWork(d: Drain, env: TickEnv, n: nat)
    requires Healthy(env) && n <= |d.table| && SoundBefore(d.table, n)
    ensures Work(Tick(d, env).table, n) + (if FetchedBefore(d, env, n) then 1 else 0) <= Work(d.table, n)
  {
    if n > 0 {
      TickSpendsWork(d, env, n - 1);
      TickSpendsAttempt(d, env, n - 1);
      if FetchedBefore(d, env, n) {
        FetchedUpTo(d, env, n);
      }
    }
  }

  /** Some row up to a pending row is fetched. */
  lemma {:induction false} SomethingFetched(t: Table, r: RowId)
    requires IsPending(t, r)
    ensures exists q: RowId :: q <= r && q in Fetch(t, BATCH_SIZE)
    decreases r
  {
    FetchIsOldest(t, BATCH_SIZE, r);
    if |Older(t, r)| >= BATCH_SIZE {
      var q: RowId :| q in Older(t, r);
      SomethingFetched(t, q);
    }
  }

  /** A row that is not pending stays so under the single worker. */
  lemma {:induction false} SettledStays(d: Drain, r: RowId, ticks: seq<TickEnv>)
    requires r < |d.table| && !IsPending(d.table, r)
    requires forall k :: 0 <= k < |ticks| ==> Healthy(ticks[k])
    ensures r < |RunTicks(d, ticks).table| && RunTicks(d, ticks).table[r] == d.table[r]
    decreases |ticks|
  {
    if ticks != [] {
      TickRow(d, ticks[0], r);
      FetchIsOldest(InsertedAll(d.table, ticks[0].before), BATCH_SIZE, r);
      SettledStays(Tick(d, ticks[0]), r, ticks[1..]);
    }
  }

  /** A row is settled within as many ticks as it and all older pending rows have attempts left. */
  lemma {:induction false} NoStarvation(d: Drain, r: RowId, ticks: seq<TickEnv>)
    requires r < |d.table|
    requires SoundBefore(d.table, r + 1)
    requires forall k :: 0 <= k < |ticks| ==> Healthy(ticks[k])
    requires |ticks| >= Work(d.table, r + 1)
    ensures r < |RunTicks(d, ticks).table| && !IsPending(RunTicks(d, ticks).table, r)
    decreases |ticks|
  {
    if !IsPending(d.table, r) {
      SettledStays(d, r, ticks);
    } else {
      var env := ticks[0];
      SomethingFetched(InsertedAll(d.table, env.before), r);
      TickSpendsWork(d, env, r + 1);
      TickKeepsSound(d, env, r);
      TickRow(d, env, r);
      NoStarvation(Tick(d, env), r, ticks[1..]);
    }
  }

  // ---- Second bound: ten ticks per hundred older pending rows ----------------------------------

  lemma OlderShrinks(d: Drain, env: TickEnv, r: RowId)
    requires Healthy(env) && r < |d.table|
    ensures Older(Tick(d, env).table, r) <= Older(d.table, r)
  {
    var t' := Tick(d, env).table;
    forall k: RowId | k in Older(t', r)
      ensures k in Older(d.table, r)
    {
      TickRow(d, env, k);
      FetchIsOldest(InsertedAll(d.table, env.before), BATCH_SIZE, k);
    }
  }

  lemma SubsetCount<T>(a: set<T>, b: set<T>)
    requires a <= b
    ensures |a| <= |b| && |b - a| == |b| - |a|
  {
  }

  /** A row among the hundred oldest is in every batch, so it lasts as long as its attempts. */
  lemma {:induction false} OldestHundred(d: Drain, r: RowId, ticks: seq<TickEnv>)
    requires IsPending(d.table, r) ==> d.table[r].attempts < MAX_ATTEMPTS && |Older(d.table, r)| < BATCH_SIZE
    requires r < |d.table|
    requires forall k :: 0 <= k < |ticks| ==> Healthy(ticks[k])
    requires |ticks| >= AttemptsLeft(d.table, r)
    ensures r < |RunTicks(d, ticks).table| && !IsPending(RunTicks(d, ticks).table, r)
    decreases |ticks|
  {
    if !IsPending(d.table, r) {
      SettledStays(d, r, ticks);
    } else {
      var env := ticks[0];
      OlderUnderInsert(d.table, env.before, r);
      FetchIsOldest(InsertedAll(d.table, env.before), BATCH_SIZE, r);
      TickRow(d, env, r);
      OlderShrinks(d, env, r);
      SubsetCount(Older(Tick(d, env).table, r), Older(d.table, r));
      OldestHundred(Tick(d, env), r, ticks[1..]);
    }
  }

  /** Over a run, rows before `r` are only ever settled, and no attempt budget is exceeded. */
  lemma {:induction false} RunKeepsSound(d: Drain, r: RowId, ticks: seq<TickEnv>)
    requires r < |d.table|
    requires SoundBefore(d.table, r + 1)
    requires forall k :: 0 <= k < |ticks| ==> Healthy(ticks[k])
    ensures |RunTicks(d, ticks).table| >= |d.table|
    ensures forall i: RowId :: i <= r && IsPending(RunTicks(d, ticks).table, i) ==>
              IsPending(d.table, i) && RunTicks(d, ticks).table[i].attempts < MAX_ATTEMPTS
    decreases |ticks|
  {
    if ticks != [] {
      TickRow(d, ticks[0], r);
      TickKeepsSound(d, ticks[0], r);
      RunKeepsSound(Tick(d, ticks[0]), r, ticks[1..]);
    }
  }

  lemma {:induction false} RunSplit(d: Drain, a: seq<TickEnv>, b: seq<TickEnv>)
    ensures RunTicks(d, a + b) == RunTicks(RunTicks(d, a), b)
    decreases |a|
  {
    if a == [] {
      assert a + b == b;
    } else {
      assert (a + b)[0] == a[0] && (a + b)[1..] == a[1..] + b;
      RunSplit(Tick(d, a[0]), a[1..], b);
    }
  }

  /** Ten ticks settle the hundred oldest pending rows. */
  lemma TenTicksClearAHundred(d: Drain, r: RowId, ticks: seq<TickEnv>)
    requires IsPending(d.table, r) && |Older(d.table, r)| >= 100
    requires SoundBefore(d.table, r + 1)
    requires |ticks| == 10 && forall k :: 0 <= k < |ticks| ==> Healthy(ticks[k])
    ensures |Older(RunTicks(d, ticks).table, r)| <= |Older(d.table, r)| - 100
  {
    var t, t' := d.table, RunTicks(d, ticks).table;
    var q := RowOfRank(t, r, BATCH_SIZE);
    RunKeepsSound(d, r, ticks);
    forall k: RowId | k in Older(t', r)
      ensures k in Older(t, r) - Older(t, q)
    {
      if k in Older(t, q) {
        RankBelow(t, k, q);
        OldestHundred(d, k, ticks);
      }
    }
    SubsetCount(Older(t, q), Older(t, r));
    SubsetCount(Older(t', r), Older(t, r) - Older(t, q));
  }

  lemma RankBelow(t: Table, k: RowId, q: RowId)
    requires k in Older(t, q)
    ensures |Older(t, k)| < |Older(t, q)|
  {
    SubsetCount(Older(t, k) + {k}, Older(t, q));
  }

  /** Ranks take every value up to the rank of `r`. */
  lemma {:induction false} RowOfRank(t: Table, r: RowId, n: nat) returns (q: RowId)
    requires n <= |Older(t, r)|
    ensures q <= r && |Older(t, q)| == n
  {
    if n == |Older(t, r)| {
      q := r;
    } else {
      assert r > 0 by {
        assert r == 0 ==> Older(t, r) == {};
      }
      assert Older(t, r) == Older(t, r - 1) + (if IsPending(t, r - 1) then {r - 1} else {});
      q := RowOfRank(t, r - 1, n);
    }
  }

  lemma HundredFewer(m: nat, m': nat)
    requires m' + BATCH_SIZE <= m
    ensures MAX_ATTEMPTS * (m / BATCH_SIZE + 1) >= MAX_ATTEMPTS * (m' / BATCH_SIZE + 1) + MAX_ATTEMPTS
  {
  }

  /** A row with m older pending rows is settled within 10 * (m / 100 + 1) ticks. */
  lemma {:induction false} NoStarvationByRank(d: Drain, r: RowId, ticks: seq<TickEnv>)
    requires r < |d.table|
    requires SoundBefore(d.table, r + 1)
    requires forall k :: 0 <= k < |ticks| ==> Healthy(ticks[k])
    requires |ticks| >= 10 * (|Older(d.table, r)| / 100 + 1)
    ensures r < |RunTicks(d, ticks).table| && !IsPending(RunTicks(d, ticks).table, r)
    decreases |ticks|
  {
    if !IsPending(d.table, r) {
      SettledStays(d, r, ticks);
    } else if |Older(d.table, r)| < BATCH_SIZE {
      OldestHundred(d, r, ticks);
    } else {
      var first, rest := ticks[..MAX_ATTEMPTS], ticks[MAX_ATTEMPTS..];
      assert ticks == first + rest;
      RunSplit(d, first, rest);
      RunKeepsSound(d, r, first);
      TenTicksClearAHundred(d, r, first);
      HundredFewer(|Older(d.table, r)|, |Older(RunTicks(d, first).table, r)|);
      NoStarvationByRank(RunTicks(d, first), r, rest);
    }
  }
}
