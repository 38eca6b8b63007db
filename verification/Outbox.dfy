/** The `iam_outbox_events` table and the drain worker's pass over it. */
module Outbox {
  import opened Prelude
  import opened Events

  const MAX_ATTEMPTS: nat := 10
  const BATCH_SIZE: nat := 100

  datatype RowStatus = PENDING | PROCESSED | FAILED

  datatype Row = Row(payload: Json, status: RowStatus, attempts: nat)

  /** Rows are never deleted, so a row is named by its place in `created_at` order. */
  type RowId = nat

  type Table = seq<Row>

  predicate IsPending(t: Table, i: RowId) {
    i < |t| && t[i].status == PENDING
  }

  /** The pending rows before `i`, oldest first. */
  function PendingBefore(t: Table, i: nat): (ids: seq<RowId>)
    requires i <= |t|
    ensures forall k :: 0 <= k < |ids| ==> ids[k] < i && IsPending(t, ids[k])
    ensures forall j, k :: 0 <= j < k < |ids| ==> ids[j] < ids[k]
    ensures forall r: nat :: r < i && IsPending(t, r) ==> r in ids
  {
    if i == 0 then []
    else PendingBefore(t, i - 1) + (if t[i - 1].status == PENDING then [i - 1] else [])
  }

  /** SELECT .. WHERE status = 'PENDING' ORDER BY created_at ASC LIMIT n. */
  function Fetch(t: Table, n: nat): seq<RowId> {
    var all := PendingBefore(t, |t|);
    if |all| <= n then all else all[..n]
  }

  /** INSERT with the column defaults. */
  function Inserted(t: Table, payload: Json): Table {
    t + [Row(payload, PENDING, 0)]
  }

  function InsertedAll(t: Table, payloads: seq<Json>): (t': Table)
    ensures |t'| == |t| + |payloads| && t <= t'
    ensures forall k :: 0 <= k < |payloads| ==> t'[|t| + k] == Row(payloads[k], PENDING, 0)
    decreases |payloads|
  {
    if payloads == [] then t else InsertedAll(Inserted(t, payloads[0]), payloads[1..])
  }

  function MarkedProcessed(t: Table, i: RowId): Table
    requires i < |t|
  {
    t[i := t[i].(status := PROCESSED)]
  }

  function MarkedFailed(t: Table, i: RowId): Table
    requires i < |t|
  {
    var n := t[i].attempts + 1;
    t[i := t[i].(attempts := n, status := if n >= MAX_ATTEMPTS then FAILED else PENDING)]
  }

  // ---- One pass of the worker -----------------------------------------------------------------

  /** What surrounds the handling of one fetched row: rows that arrive first, and the two calls made for it. */
  datatype RowEnv = RowEnv(arrivals: seq<Json>, publish: Reply, mark: Reply)

  /** The table and the events Kafka has taken, in order. */
  datatype Drain = Drain(table: Table, log: seq<Event>)

  /** The worker handles row `i`: decode, publish, mark. */
  function Handle(d: Drain, i: RowId, env: RowEnv): (d': Drain)
    requires i < |d.table|
    ensures |d'.table| == |d.table| + |env.arrivals|
  {
    var t := InsertedAll(d.table, env.arrivals);
    var event := Decode(t[i].payload);
    var log := if event.Some? && env.publish.Applied() then d.log + [event.value] else d.log;
    var t' :=
      if !env.mark.Applied() then t
      else if event.Some? && env.publish.Answered? then MarkedProcessed(t, i)
      else MarkedFailed(t, i);
    Drain(t', log)
  }

  /**
    What handling row `i` comes to: the event goes to Kafka if the payload decodes and the publication takes
    effect; the row is PROCESSED exactly when that is acknowledged, and otherwise spends one of its ten
    attempts, if the mark takes effect; rows that arrive meanwhile come last, and no other row changes.
   */
  ghost predicate Handled(d: Drain, d': Drain, i: RowId, env: RowEnv)
    requires i < |d.table|
  {
    var row, event, arrived := d.table[i], Decode(d.table[i].payload), |d.table|;
    && d'.log == (if event.Some? && env.publish.Applied() then d.log + [event.value] else d.log)
    && |d'.table| == arrived + |env.arrivals|
    && d'.table[i] == (if !env.mark.Applied() then row
                       else if event.Some? && env.publish.Answered? then row.(status := PROCESSED)
                       else Row(row.payload, if row.attempts + 1 >= 10 then FAILED else PENDING, row.attempts + 1))
    && (forall r :: 0 <= r < arrived && r != i ==> d'.table[r] == d.table[r])
    && (forall k :: 0 <= k < |env.arrivals| ==> d'.table[arrived + k] == Row(env.arrivals[k], PENDING, 0))
  }

  lemma HandleExactly(d: Drain, i: RowId, env: RowEnv)
    requires i < |d.table|
    ensures Handled(d, Handle(d, i, env), i, env)
  {
  }

  function HandleAll(d: Drain, batch: seq<RowId>, env: nat -> RowEnv): (d': Drain)
    requires forall k :: 0 <= k < |batch| ==> batch[k] < |d.table|
    ensures |d'.table| >= |d.table|
  {
    if batch == [] then d
    else
      var last := |batch| - 1;
      Handle(HandleAll(d, batch[..last], env), batch[last], env(last))
  }

  /** One tick: rows that arrive before it, the fetch, and the rows fetched. */
  datatype TickEnv = TickEnv(before: seq<Json>, fetch: Reply, rows: nat -> RowEnv)

  function Tick(d: Drain, env: TickEnv): Drain {
    var d0 := d.(table := InsertedAll(d.table, env.before));
    if env.fetch.Answered? then HandleAll(d0, Fetch(d0.table, BATCH_SIZE), env.rows) else d0
  }

  // ---- The repository and the worker, as they run ---------------------------------------------

  class OutboxRepository {
    var rows: Table

    constructor ()
      ensures rows == []
    {
      rows := [];
    }

    method Enqueue(event: Event, reply: Reply) returns (ok: bool)
      modifies this
      ensures rows == if reply.Applied() then Inserted(old(rows), Encode(event)) else old(rows)
      ensures ok == reply.Answered?
    {
      var payload := Encode(event);
      if reply.Applied() {
        rows := rows + [Row(payload, PENDING, 0)];
      }
      ok := reply.Answered?;
    }

    method FetchPending(limit: nat, reply: Reply) returns (batch: Option<seq<RowId>>)
      ensures batch == if reply.Answered? then Some(Fetch(rows, limit)) else None
    {
      if !reply.Answered? {
        return None;
      }
      var found: seq<RowId> := [];
      var i := 0;
      while i < |rows| && |found| < limit
        invariant i <= |rows|
        invariant found == PendingBefore(rows, i) && |found| <= limit
      {
        assert PendingBefore(rows, i + 1) == found + (if rows[i].status == PENDING then [i] else []);
        if rows[i].status == PENDING {
          found := found + [i];
        }
        i := i + 1;
      }
      EnoughFound(rows, i, limit);
      return Some(found);
    }

    method MarkProcessed(id: RowId, reply: Reply)
      requires id < |rows|
      modifies this
      ensures rows == if reply.Applied() then MarkedProcessed(old(rows), id) else old(rows)
    {
      if reply.Applied() {
        rows := rows[id := rows[id].(status := PROCESSED)];
      }
    }

    method MarkFailed(id: RowId, reply: Reply)
      requires id < |rows|
      modifies this
      ensures rows == if reply.Applied() then MarkedFailed(old(rows), id) else old(rows)
    {
      if reply.Applied() {
        var attempts := rows[id].attempts + 1;
        var status := if attempts >= MAX_ATTEMPTS then FAILED else PENDING;
        rows := rows[id := Row(rows[id].payload, status, attempts)];
      }
    }
  }

  /** The pending rows before an earlier point are a prefix of those before a later one. */
  lemma PendingPrefix(t: Table, i: nat, j: nat)
    requires i <= j <= |t|
    ensures PendingBefore(t, i) <= PendingBefore(t, j)
    decreases j
  {
  }

  /** A scan may stop once it has found as many rows as asked for. */
  lemma EnoughFound(t: Table, i: nat, n: nat)
    requires i <= |t| && |PendingBefore(t, i)| <= n && (i == |t| || |PendingBefore(t, i)| == n)
    ensures Fetch(t, n) == PendingBefore(t, i)
  {
    PendingPrefix(t, i, |t|);
  }

  class KafkaEventBus {
    var log: seq<Event>

    method Publish(event: Event, reply: Reply) returns (acknowledged: bool)
      modifies this
      ensures log == if reply.Applied() then old(log) + [event] else old(log)
      ensures acknowledged == reply.Answered?
    {
      if reply.Applied() {
        log := log + [event];
      }
      acknowledged := reply.Answered?;
    }
  }

  class OutboxWorker {
    const outbox: OutboxRepository
    const kafka: KafkaEventBus

    constructor (outbox: OutboxRepository, kafka: KafkaEventBus)
      ensures this.outbox == outbox && this.kafka == kafka
    {
      this.outbox := outbox;
      this.kafka := kafka;
    }

    ghost function State(): Drain
      reads outbox, kafka
    {
      Drain(outbox.rows, kafka.log)
    }

    /** One fetched row. The rows other tasks insert meanwhile are part of the environment. */
    method HandleRow(id: RowId, env: RowEnv)
      requires id < |outbox.rows|
      modifies outbox, kafka
      ensures State() == Handle(old(State()), id, env)
      ensures Handled(old(State()), State(), id, env)
    {
      HandleExactly(State(), id, env);
      outbox.rows := InsertedAll(outbox.rows, env.arrivals);
      var event := Decode(outbox.rows[id].payload);
      if event.None? {
        outbox.MarkFailed(id, env.mark);
        return;
      }
      var acknowledged := kafka.Publish(event.value, env.publish);
      if acknowledged {
        outbox.MarkProcessed(id, env.mark);
      } else {
        outbox.MarkFailed(id, env.mark);
      }
    }

    method HandleBatch(batch: seq<RowId>, rows: nat -> RowEnv)
      requires forall k :: 0 <= k < |batch| ==> batch[k] < |outbox.rows|
      modifies outbox, kafka
      ensures State() == HandleAll(old(State()), batch, rows)
    {
      for k := 0 to |batch|
        invariant State() == HandleAll(old(State()), batch[..k], rows)
      {
        assert batch[..k + 1][..k] == batch[..k];
        HandleRow(batch[k], rows(k));
      }
      assert batch[..|batch|] == batch;
    }

    method RunTick(env: TickEnv) returns (count: nat)
      modifies outbox, kafka
      ensures State() == Tick(old(State()), env)
      ensures count == if env.fetch.Answered?
                       then |Fetch(InsertedAll(old(outbox.rows), env.before), BATCH_SIZE)| else 0
    {
      outbox.rows := InsertedAll(outbox.rows, env.before);
      var pending := outbox.FetchPending(BATCH_SIZE, env.fetch);
      if pending.None? {
        return 0;
      }
      var batch := pending.value;
      HandleBatch(batch, env.rows);
      return |batch|;
    }
  }
}
