/** Fault-free runs of one worker: Kafka receives the enqueued events in order, once each. */
module OutboxDelivery {
  import opened Prelude
  import opened Events
  import opened Outbox
  import opened OutboxProgress

  ghost predicate AllDecodable(js: seq<Json>) {
    forall k :: 0 <= k < |js| ==> Decode(js[k]).Some?
  }

  /** What `enqueue` writes can be read back. */
  lemma EnqueuedIsDecodable(events: seq<Event>)
    ensures AllDecodable(Encoded(events))
  {
    forall k | 0 <= k < |events|
      ensures Decode(Encode(events[k])).Some?
    {
      EventRoundTrip(events[k]);
    }
  }

  ghost predicate FaultFreeRow(env: RowEnv) {
    AllDecodable(env.arrivals) && env.publish.Answered? && env.mark.Answered?
  }

  ghost predicate FaultFree(env: TickEnv) {
    env.fetch.Answered? && AllDecodable(env.before) && forall k: nat :: FaultFreeRow(env.rows(k))
  }

  /** The first `n` rows are delivered, in order and once each; the others wait, untouched. */
  ghost predicate DeliveredUpTo(d: Drain, n: nat) {
    && n <= |d.table| && |d.log| == n
    && (forall i :: 0 <= i < |d.table| ==> Decode(d.table[i].payload).Some? && d.table[i].attempts == 0)
    && (forall i :: 0 <= i < n ==>
         d.table[i].status == PROCESSED && Decode(d.table[i].payload) == Some(d.log[i]))
    && (forall i :: n <= i < |d.table| ==> d.table[i].status == PENDING)
  }

  lemma InsertKeepsDelivered(d: Drain, n: nat, payloads: seq<Json>)
    requires DeliveredUpTo(d, n) && AllDecodable(payloads)
    ensures DeliveredUpTo(d.(table := InsertedAll(d.table, payloads)), n)
  {
    var t := InsertedAll(d.table, payloads);
    forall i | 0 <= i < |t|
      ensures Decode(t[i].payload).Some? && t[i].attempts == 0 && (i >= n ==> t[i].status == PENDING)
    {
      if i >= |d.table| {
        assert t[i] == Row(payloads[i - |d.table|], PENDING, 0);
      }
    }
  }

  lemma HandleDelivers(d: Drain, n: nat, env: RowEnv)
    requires DeliveredUpTo(d, n) && n < |d.table| && FaultFreeRow(env)
    ensures DeliveredUpTo(Handle(d, n, env), n + 1)
  {
    InsertKeepsDelivered(d, n, env.arrivals);
    var t := InsertedAll(d.table, env.arrivals);
    assert Decode(t[n].payload).Some?;
  }

  lemma {:induction false} HandleAllDelivers(d: Drain, n: nat, batch: seq<RowId>, env: nat -> RowEnv)
    requires DeliveredUpTo(d, n) && n + |batch| <= |d.table|
    requires forall k :: 0 <= k < |batch| ==> batch[k] == n + k
    requires forall k: nat :: FaultFreeRow(env(k))
    ensures DeliveredUpTo(HandleAll(d, batch, env), n + |batch|)
  {
    if batch != [] {
      var last := |batch| - 1;
      var d' := HandleAll(d, batch[..last], env);
      HandleAllDelivers(d, n, batch[..last], env);
      HandleDelivers(d', n + last, env(last));
    }
  }

  lemma {:induction false} PendingSuffix(t: Table, n: nat, i: nat)
    requires n <= i <= |t|
    requires forall k :: 0 <= k < n ==> t[k].status == PROCESSED
    requires forall k :: n <= k < |t| ==> t[k].status == PENDING
    ensures PendingBefore(t, i) == seq(i - n, k => n + k)
    decreases i
  {
    if i > n {
      PendingSuffix(t, n, i - 1);
    } else {
      NonePending(t, i);
    }
  }

  lemma {:induction false} NonePending(t: Table, i: nat)
    requires i <= |t| && forall k :: 0 <= k < i ==> t[k].status != PENDING
    ensures PendingBefore(t, i) == []
  {
    if i > 0 {
      NonePending(t, i - 1);
    }
  }

  /** One fault-free tick delivers the next hundred waiting rows, or all of them. */
  lemma TickDelivers(d: Drain, n: nat, env: TickEnv) returns (n': nat)
    requires DeliveredUpTo(d, n) && FaultFree(env)
    ensures DeliveredUpTo(Tick(d, env), n')
    ensures n' >= n && (n' >= n + 100 || n' >= |d.table|)
  {
    var d0 := d.(table := InsertedAll(d.table, env.before));
    InsertKeepsDelivered(d, n, env.before);
    PendingSuffix(d0.table, n, |d0.table|);
    var batch := Fetch(d0.table, BATCH_SIZE);
    HandleAllDelivers(d0, n, batch, env.rows);
    n' := n + |batch|;
  }

  /**
    In every fault-free run from an empty outbox, with rows arriving at any moment, Kafka's log is
    the decoded payloads of the first n rows in created_at order, exactly the PROCESSED ones, and no
    attempt is ever counted: the undecodable branch is never taken. Every tick but the last adds 100.
   */
  lemma {:induction false} FaultFreeDelivery(d: Drain, n: nat, ticks: seq<TickEnv>) returns (n': nat)
    requires DeliveredUpTo(d, n)
    requires forall k :: 0 <= k < |ticks| ==> FaultFree(ticks[k])
    ensures DeliveredUpTo(RunTicks(d, ticks), n')
    ensures n' >= n && (n' >= n + 100 * |ticks| || n' >= |d.table|)
    decreases |ticks|
  {
    if ticks == [] {
      n' := n;
    } else {
      var m := TickDelivers(d, n, ticks[0]);
      assert |Tick(d, ticks[0]).table| >= |d.table|;
      n' := FaultFreeDelivery(Tick(d, ticks[0]), m, ticks[1..]);
    }
  }

  /** What reaches Kafka for a row written by `enqueue(e)` is `e`, save that a null payload is dropped. */
  lemma DeliveredEvent(d: Drain, n: nat, i: nat, e: Event)
    requires DeliveredUpTo(d, n) && i < n && d.table[i].payload == Encode(e)
    ensures d.log[i] == Normal(e)
    ensures d.log[i] == e <==> e.data != Some(Null)
  {
  }

  // ---- From enqueue to Kafka -------------------------------------------------------------------------

  function Payloads(t: Table): seq<Json> {
    seq(|t|, i requires 0 <= i < |t| => t[i].payload)
  }

  /** What arrives while the first `n` rows of a batch are handled. */
  function RowArrivals(rows: nat -> RowEnv, n: nat): seq<Json> {
    if n == 0 then [] else RowArrivals(rows, n - 1) + rows(n - 1).arrivals
  }

  function TickArrivals(d: Drain, env: TickEnv): seq<Json> {
    env.before
    + (if env.fetch.Answered? then RowArrivals(env.rows, |Fetch(InsertedAll(d.table, env.before), BATCH_SIZE)|) else [])
  }

  /** Everything enqueued during a run, in order. */
  function Arrivals(d: Drain, ticks: seq<TickEnv>): seq<Json>
    decreases |ticks|
  {
    if ticks == [] then [] else TickArrivals(d, ticks[0]) + Arrivals(Tick(d, ticks[0]), ticks[1..])
  }

  lemma HandlePayloads(d: Drain, i: RowId, env: RowEnv)
    requires i < |d.table|
    ensures Payloads(Handle(d, i, env).table) == Payloads(d.table) + env.arrivals
  {
    var t := InsertedAll(d.table, env.arrivals);
    assert forall k :: 0 <= k < |env.arrivals| ==> t[|d.table| + k].payload == env.arrivals[k];
  }

  lemma {:induction false} HandleAllPayloads(d: Drain, batch: seq<RowId>, env: nat -> RowEnv)
    requires forall k :: 0 <= k < |batch| ==> batch[k] < |d.table|
    ensures Payloads(HandleAll(d, batch, env).table) == Payloads(d.table) + RowArrivals(env, |batch|)
  {
    if batch != [] {
      var last := |batch| - 1;
      var d' := HandleAll(d, batch[..last], env);
      HandleAllPayloads(d, batch[..last], env);
      HandlePayloads(d', batch[last], env(last));
      Regrouped(Payloads(d.table), RowArrivals(env, last), env(last).arrivals);
    }
  }

  lemma InsertPayloads(t: Table, payloads: seq<Json>)
    ensures Payloads(InsertedAll(t, payloads)) == Payloads(t) + payloads
  {
    var t' := InsertedAll(t, payloads);
    assert forall k :: 0 <= k < |payloads| ==> t'[|t| + k].payload == payloads[k];
  }

  lemma Regrouped(a: seq<Json>, b: seq<Json>, c: seq<Json>)
    ensures a + b + c == a + (b + c)
  {
  }

  lemma TickPayloads(d: Drain, env: TickEnv)
    ensures Payloads(Tick(d, env).table) == Payloads(d.table) + TickArrivals(d, env)
  {
    var d0 := d.(table := InsertedAll(d.table, env.before));
    InsertPayloads(d.table, env.before);
    if env.fetch.Answered? {
      var batch := Fetch(d0.table, BATCH_SIZE);
      HandleAllPayloads(d0, batch, env.rows);
      Regrouped(Payloads(d.table), env.before, RowArrivals(env.rows, |batch|));
    } else {
      assert env.before + [] == env.before;
    }
  }

  /** No payload is lost, altered or reordered on its way into the table. */
  lemma {:induction false} RunPayloads(d: Drain, ticks: seq<TickEnv>)
    ensures Payloads(RunTicks(d, ticks).table) == Payloads(d.table) + Arrivals(d, ticks)
    decreases |ticks|
  {
    if ticks != [] {
      TickPayloads(d, ticks[0]);
      RunPayloads(Tick(d, ticks[0]), ticks[1..]);
    }
  }

  /**
    End to end: in a fault-free run from the empty outbox in which `events` are enqueued at any moments,
    Kafka receives Normal(events[0]), Normal(events[1]), .. in this order and once each; and whatever was
    enqueued in the first part of the run has been received once the second part has a tick per hundred.
   */
  lemma EnqueuedReachKafka(events: seq<Event>, before: seq<TickEnv>, after: seq<TickEnv>) returns (n: nat)
    requires forall k :: 0 <= k < |before| ==> FaultFree(before[k])
    requires forall k :: 0 <= k < |after| ==> FaultFree(after[k])
    requires var start := Drain([], []);
             Arrivals(start, before) + Arrivals(RunTicks(start, before), after) == Encoded(events)
             && 100 * |after| >= |Arrivals(start, before)|
    ensures |Arrivals(Drain([], []), before)| <= n <= |events|
    ensures RunTicks(RunTicks(Drain([], []), before), after).log == Normalised(events[..n])
  {
    var start := Drain([], []);
    assert DeliveredUpTo(start, 0);
    var n1 := FaultFreeDelivery(start, 0, before);
    var middle := RunTicks(start, before);
    n := FaultFreeDelivery(middle, n1, after);
    PayloadsFromEmpty(before, after);
    LogIsNormal(RunTicks(middle, after), n, events);
  }

  lemma PayloadsFromEmpty(before: seq<TickEnv>, after: seq<TickEnv>)
    ensures var middle := RunTicks(Drain([], []), before);
            && |middle.table| == |Arrivals(Drain([], []), before)|
            && Payloads(RunTicks(middle, after).table) == Arrivals(Drain([], []), before) + Arrivals(middle, after)
  {
    RunPayloads(Drain([], []), before);
    RunPayloads(RunTicks(Drain([], []), before), after);
    assert Payloads([]) + Arrivals(Drain([], []), before) == Arrivals(Drain([], []), before);
  }

  lemma LogIsNormal(d: Drain, n: nat, events: seq<Event>)
    requires DeliveredUpTo(d, n) && Payloads(d.table) == Encoded(events)
    ensures n <= |events| && d.log == Normalised(events[..n])
  {
    forall i | 0 <= i < n
      ensures d.log[i] == Normal(events[i])
    {
      assert d.table[i].payload == Payloads(d.table)[i] == Encode(events[i]);
      DeliveredEvent(d, n, i, events[i]);
    }
  }
}
