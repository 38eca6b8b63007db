/** A tick of the worker, as it runs alone, is a run of the system of workers stepping at their awaits. */
module OutboxRefinement {
  import opened Prelude
  import opened Events
  import opened Outbox
  import opened OutboxProgress
  import opened OutboxConcurrency

  /** The idle worker's view and the system agree, and every acknowledged row is one whose event Kafka has taken. */
  ghost predicate Agree(s: System, d: Drain, worker: Worker) {
    && s.table == d.table && s.workers == [worker]
    && forall r :: r in s.acknowledged ==> r < |d.table| && Taken(d, r)
  }

  ghost predicate Taken(d: Drain, r: RowId)
    requires r < |d.table|
  {
    Decode(d.table[r].payload).Some? && Decode(d.table[r].payload).value in d.log
  }

  function Enqueues(payloads: seq<Json>): seq<Step> {
    seq(|payloads|, k requires 0 <= k < |payloads| => Enqueue(payloads[k]))
  }

  lemma {:induction false} EnqueuesRun(s: System, payloads: seq<Json>)
    ensures Run(s, Enqueues(payloads)) == s.(table := InsertedAll(s.table, payloads))
    decreases |payloads|
  {
    if payloads != [] {
      assert Enqueues(payloads)[1..] == Enqueues(payloads[1..]);
      EnqueuesRun(Next(s, Enqueue(payloads[0])), payloads[1..]);
    }
  }

  /** The steps of one row: what arrives first, the publication, the mark. */
  function RowSteps(env: RowEnv): seq<Step> {
    Enqueues(env.arrivals) + [Publish(0, env.publish), Mark(0, env.mark)]
  }

  /** The worker takes the row at hand as `Handle` does, and goes on to the next. */
  lemma RowRuns(s: System, d: Drain, todo: seq<RowId>, env: RowEnv)
    requires Agree(s, d, Publishing(todo)) && todo != [] && todo[0] < |d.table|
    ensures Agree(Run(s, RowSteps(env)), Handle(d, todo[0], env), Continue(todo))
  {
    var s', d' := Run(s, RowSteps(env)), Handle(d, todo[0], env);
    RowTable(s, d, todo, env);
    HandleExactly(d, todo[0], env);
    forall r | r in s'.acknowledged
      ensures r < |d'.table| && Taken(d', r)
    {
      assert r in s.acknowledged ==> Taken(d, r);
      assert d'.table[r].payload == d.table[r].payload;
    }
  }

  lemma RowTable(s: System, d: Drain, todo: seq<RowId>, env: RowEnv)
    requires s.table == d.table && s.workers == [Publishing(todo)] && todo != [] && todo[0] < |d.table|
    ensures var s' := Run(s, RowSteps(env));
            && s'.table == Handle(d, todo[0], env).table && s'.workers == [Continue(todo)]
            && s'.acknowledged == s.acknowledged
                 + (if Decode(d.table[todo[0]].payload).Some? && env.publish.Answered? then {todo[0]} else {})
  {
    var s1 := s.(table := InsertedAll(s.table, env.arrivals));
    EnqueuesRun(s, env.arrivals);
    RunAppend(s, Enqueues(env.arrivals), [Publish(0, env.publish), Mark(0, env.mark)]);
    RunTwo(s1, Publish(0, env.publish), Mark(0, env.mark), []);
  }

  /** The steps of the first `n` rows of a batch. */
  function BatchSteps(env: nat -> RowEnv, n: nat): seq<Step> {
    if n == 0 then [] else BatchSteps(env, n - 1) + RowSteps(env(n - 1))
  }

  lemma {:induction false} BatchRuns(s: System, d: Drain, batch: seq<RowId>, env: nat -> RowEnv, n: nat)
    requires Agree(s, d, Publishing(batch)) && n <= |batch| && batch != []
    requires forall k :: 0 <= k < |batch| ==> batch[k] < |d.table|
    ensures Agree(Run(s, BatchSteps(env, n)), HandleAll(d, batch[..n], env), if n == |batch| then Idle else Publishing(batch[n..]))
  {
    if n == 0 {
      assert batch[..0] == [] && batch[0..] == batch;
    } else {
      BatchRuns(s, d, batch, env, n - 1);
      var s' := Run(s, BatchSteps(env, n - 1));
      assert batch[..n][..n - 1] == batch[..n - 1];
      RowRuns(s', HandleAll(d, batch[..n - 1], env), batch[n - 1..], env(n - 1));
      RunAppend(s, BatchSteps(env, n - 1), RowSteps(env(n - 1)));
      assert batch[n - 1..][1..] == batch[n..];
    }
  }

  function FetchSteps(d: Drain, rows: nat -> RowEnv): seq<Step> {
    [FetchBatch(0)] + BatchSteps(rows, |Fetch(d.table, BATCH_SIZE)|)
  }

  lemma FetchIsARun(s: System, d: Drain, rows: nat -> RowEnv)
    requires Agree(s, d, Idle)
    ensures Agree(Run(s, FetchSteps(d, rows)), HandleAll(d, Fetch(d.table, BATCH_SIZE), rows), Idle)
  {
    var batch := Fetch(d.table, BATCH_SIZE);
    RunAppend(s, [FetchBatch(0)], BatchSteps(rows, |batch|));
    FetchRuns(s);
    if batch != [] {
      BatchRuns(Next(s, FetchBatch(0)), d, batch, rows, |batch|);
      assert batch[..|batch|] == batch;
    }
  }

  function TickSteps(d: Drain, env: TickEnv): seq<Step> {
    Enqueues(env.before)
    + (if env.fetch.Answered? then FetchSteps(d.(table := InsertedAll(d.table, env.before)), env.rows) else [])
  }

  /** One tick, whatever arrives and however its calls end, with the one worker idle before and after. */
  lemma TickIsARun(s: System, d: Drain, env: TickEnv)
    requires Agree(s, d, Idle)
    ensures Agree(Run(s, TickSteps(d, env)), Tick(d, env), Idle)
  {
    var s1, d1 := s.(table := InsertedAll(s.table, env.before)), d.(table := InsertedAll(d.table, env.before));
    EnqueuesRun(s, env.before);
    ArrivalsAgree(s, d, env.before);
    if env.fetch.Answered? {
      RunAppend(s, Enqueues(env.before), FetchSteps(d1, env.rows));
      FetchIsARun(s1, d1, env.rows);
    } else {
      assert Enqueues(env.before) + [] == Enqueues(env.before);
    }
  }

  lemma ArrivalsAgree(s: System, d: Drain, payloads: seq<Json>)
    requires Agree(s, d, Idle)
    ensures Agree(s.(table := InsertedAll(s.table, payloads)), d.(table := InsertedAll(d.table, payloads)), Idle)
  {
    var d' := d.(table := InsertedAll(d.table, payloads));
    forall r | r in s.acknowledged
      ensures r < |d'.table| && Taken(d', r)
    {
      assert Taken(d, r) && d'.table[..|d.table|][r] == d'.table[r];
    }
  }

  lemma FetchRuns(s: System)
    requires s.workers == [Idle]
    ensures var batch := Fetch(s.table, BATCH_SIZE);
            Run(s, [FetchBatch(0)]) == Next(s, FetchBatch(0)) == s.(workers := [if batch == [] then Idle else Publishing(batch)])
  {
    assert Run(s, [FetchBatch(0)]) == Run(Next(s, FetchBatch(0)), []);
  }

  function TicksSteps(d: Drain, ticks: seq<TickEnv>): seq<Step>
    decreases |ticks|
  {
    if ticks == [] then [] else TickSteps(d, ticks[0]) + TicksSteps(Tick(d, ticks[0]), ticks[1..])
  }

  lemma {:induction false} TicksAreARun(s: System, d: Drain, ticks: seq<TickEnv>)
    requires Agree(s, d, Idle)
    ensures Agree(Run(s, TicksSteps(d, ticks)), RunTicks(d, ticks), Idle)
    decreases |ticks|
  {
    if ticks != [] {
      TickIsARun(s, d, ticks[0]);
      RunAppend(s, TickSteps(d, ticks[0]), TicksSteps(Tick(d, ticks[0]), ticks[1..]));
      TicksAreARun(Run(s, TickSteps(d, ticks[0])), Tick(d, ticks[0]), ticks[1..]);
    }
  }

  /**
    So what is proved of every interleaving holds of the worker's own loop, whatever arrives and whatever
    calls fail: Kafka has taken the event of every row the loop leaves PROCESSED, a PENDING row has attempts
    to spare, and a FAILED one has spent exactly ten.
   */
  lemma LoopIsSafe(ticks: seq<TickEnv>, r: RowId)
    requires r < |RunTicks(Drain([], []), ticks).table|
    ensures var d := RunTicks(Drain([], []), ticks);
            && (d.table[r].status == PROCESSED ==> Taken(d, r))
            && (d.table[r].status == PENDING ==> d.table[r].attempts < 10)
            && (d.table[r].status == FAILED ==> d.table[r].attempts == 10)
  {
    TicksAreARun(Start(1), Drain([], []), ticks);
    DeliverySafety(1, TicksSteps(Drain([], []), ticks), []);
  }
}
