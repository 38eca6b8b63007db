/**
  Any number of drain workers on one table. Each step is one awaited call of one worker, a worker may
  be cancelled at any await, and rows arrive at any time.
 */
module OutboxConcurrency {
  import opened Prelude
  import opened Events
  import opened Outbox

  /** Where a worker stands; the head of `todo` is the row in hand. */
  datatype Worker =
    | Idle
    | Publishing(todo: seq<RowId>)
    | MarkingProcessed(todo: seq<RowId>)
    | MarkingFailed(todo: seq<RowId>)
  {
    function Todo(): seq<RowId> {
      if Idle? then [] else todo
    }
  }

  /** `acknowledged` records the rows whose event Kafka has acknowledged at least once. */
  datatype System = System(table: Table, acknowledged: set<RowId>, workers: seq<Worker>)

  datatype Step =
    | Enqueue(payload: Json)
    | FetchBatch(w: nat)
    | Publish(w: nat, reply: Reply)
    | Mark(w: nat, reply: Reply)
    | Cancel(w: nat)

  function Start(w: nat): System {
    System([], {}, seq(w, _ => Idle))
  }

  /** The worker takes the next row, or goes back to the top of its loop. */
  function Continue(todo: seq<RowId>): Worker {
    if |todo| <= 1 then Idle else Publishing(todo[1..])
  }

  function Become(s: System, w: nat, worker: Worker): System
    requires w < |s.workers|
  {
    s.(workers := s.workers[w := worker])
  }

  /** A step that is not enabled leaves the system as it is. */
  function Next(s: System, step: Step): System {
    match step
    case Enqueue(payload) => s.(table := Inserted(s.table, payload))
    case FetchBatch(w) =>
      if w < |s.workers| && s.workers[w].Idle? then
        var batch := Fetch(s.table, BATCH_SIZE);
        Become(s, w, if batch == [] then Idle else Publishing(batch))
      else s
    case Publish(w, reply) =>
      if w < |s.workers| && s.workers[w].Publishing? && s.workers[w].todo != []
         && s.workers[w].todo[0] < |s.table| then
        var todo := s.workers[w].todo;
        if Decode(s.table[todo[0]].payload).Some? && reply.Answered?
        then Become(s.(acknowledged := s.acknowledged + {todo[0]}), w, MarkingProcessed(todo))
        else Become(s, w, MarkingFailed(todo))
      else s
    case Mark(w, reply) =>
      if w < |s.workers| && (s.workers[w].MarkingProcessed? || s.workers[w].MarkingFailed?)
         && s.workers[w].todo != [] && s.workers[w].todo[0] < |s.table| then
        var row := s.workers[w].todo[0];
        var t := if !reply.Applied() then s.table
                 else if s.workers[w].MarkingProcessed? then MarkedProcessed(s.table, row)
                 else MarkedFailed(s.table, row);
        Become(s.(table := t), w, Continue(s.workers[w].todo))
      else s
    case Cancel(w) =>
      if w < |s.workers| then Become(s, w, Idle) else s
  }

  function Run(s: System, steps: seq<Step>): System
    decreases |steps|
  {
    if steps == [] then s else Run(Next(s, steps[0]), steps[1..])
  }

  // ---- The invariant --------------------------------------------------------------------------

  /** How many workers still hold row `r`. */
  function Holders(workers: seq<Worker>, r: RowId): nat {
    if workers == [] then 0
    else Holders(workers[..|workers| - 1], r) + (if r in workers[|workers| - 1].Todo() then 1 else 0)
  }

  ghost predicate Ascending(ids: seq<RowId>, n: nat) {
    && (forall k :: 0 <= k < |ids| ==> ids[k] < n)
    && (forall j, k :: 0 <= j < k < |ids| ==> ids[j] < ids[k])
  }

  ghost predicate WorkerOk(s: System, w: Worker) {
    && Ascending(w.Todo(), |s.table|)
    && (!w.Idle? ==> w.todo != [])
    && (w.MarkingProcessed? ==> w.todo[0] in s.acknowledged)
  }

  ghost predicate RowOk(s: System, r: RowId) {
    r < |s.table| ==>
      && (s.table[r].status == PENDING ==> s.table[r].attempts < MAX_ATTEMPTS)
      && (s.table[r].status == PROCESSED ==> r in s.acknowledged)
      && (s.table[r].status == FAILED ==> s.table[r].attempts >= MAX_ATTEMPTS)
      && s.table[r].attempts + Holders(s.workers, r) <= MAX_ATTEMPTS - 1 + |s.workers|
  }

  ghost predicate Inv(s: System) {
    && (forall w :: 0 <= w < |s.workers| ==> WorkerOk(s, s.workers[w]))
    && (forall r: RowId :: RowOk(s, r))
  }

  lemma {:induction false} HoldersBound(workers: seq<Worker>, r: RowId)
    ensures Holders(workers, r) <= |workers|
  {
    if workers != [] {
      HoldersBound(workers[..|workers| - 1], r);
    }
  }

  /** Changing one worker changes the count by what that worker held and holds. */
  lemma {:induction false} HoldersUpdate(workers: seq<Worker>, w: nat, worker: Worker, r: RowId)
    requires w < |workers|
    ensures Holders(workers[w := worker], r) + (if r in workers[w].Todo() then 1 else 0)
         == Holders(workers, r) + (if r in worker.Todo() then 1 else 0)
  {
    var last := |workers| - 1;
    if w == last {
      assert workers[w := worker][..last] == workers[..last];
    } else {
      assert workers[w := worker][..last] == workers[..last][w := worker];
      HoldersUpdate(workers[..last], w, worker, r);
    }
  }

  lemma EnqueueKeepsInv(s: System, payload: Json)
    requires Inv(s) && |s.workers| > 0
    ensures Inv(Next(s, Enqueue(payload)))
  {
    var s' := Next(s, Enqueue(payload));
    forall r: RowId
      ensures RowOk(s', r)
    {
      assert RowOk(s, r);
      if r == |s.table| {
        HoldersBound(s.workers, r);
      }
    }
    forall w | 0 <= w < |s'.workers|
      ensures WorkerOk(s', s'.workers[w])
    {
      assert WorkerOk(s, s.workers[w]);
    }
  }

  lemma FetchKeepsInv(s: System, w: nat)
    requires Inv(s) && w < |s.workers| && s.workers[w].Idle?
    ensures Inv(Next(s, FetchBatch(w)))
  {
    var s' := Next(s, FetchBatch(w));
    forall r: RowId
      ensures RowOk(s', r)
    {
      assert RowOk(s, r);
      HoldersUpdate(s.workers, w, s'.workers[w], r);
      HoldersBound(s'.workers, r);
    }
    forall v | 0 <= v < |s'.workers|
      ensures WorkerOk(s', s'.workers[v])
    {
      assert v != w ==> WorkerOk(s, s.workers[v]);
    }
  }

  lemma PublishKeepsInv(s: System, w: nat, reply: Reply)
    requires Inv(s) && w < |s.workers| && s.workers[w].Publishing?
    ensures Inv(Next(s, Publish(w, reply)))
  {
    var s' := Next(s, Publish(w, reply));
    forall r: RowId
      ensures RowOk(s', r)
    {
      assert RowOk(s, r);
      HoldersUpdate(s.workers, w, s'.workers[w], r);
    }
    forall v | 0 <= v < |s'.workers|
      ensures WorkerOk(s', s'.workers[v])
    {
      assert WorkerOk(s, s.workers[v]);
    }
  }

  lemma LetsGoOfFirst(todo: seq<RowId>, n: nat, r: RowId)
    requires Ascending(todo, n) && todo != []
    ensures r in Continue(todo).Todo() <==> r in todo && r != todo[0]
  {
    assert todo == [todo[0]] + todo[1..];
  }

  /** A marking worker lets go of its row as it spends an attempt on it. */
  lemma MarkKeepsRow(s: System, w: nat, reply: Reply, r: RowId)
    requires w < |s.workers| && (s.workers[w].MarkingProcessed? || s.workers[w].MarkingFailed?)
    requires WorkerOk(s, s.workers[w]) && RowOk(s, r)
    ensures RowOk(Next(s, Mark(w, reply)), r)
  {
    var todo := s.workers[w].todo;
    LetsGoOfFirst(todo, |s.table|, r);
    HoldersUpdate(s.workers, w, Continue(todo), r);
  }

  lemma MarkKeepsInv(s: System, w: nat, reply: Reply)
    requires Inv(s) && w < |s.workers| && (s.workers[w].MarkingProcessed? || s.workers[w].MarkingFailed?)
    ensures Inv(Next(s, Mark(w, reply)))
  {
    var s' := Next(s, Mark(w, reply));
    assert WorkerOk(s, s.workers[w]);
    forall r: RowId
      ensures RowOk(s', r)
    {
      MarkKeepsRow(s, w, reply, r);
    }
    forall v | 0 <= v < |s'.workers|
      ensures WorkerOk(s', s'.workers[v])
    {
      assert WorkerOk(s, s.workers[v]);
    }
  }

  lemma CancelKeepsInv(s: System, w: nat)
    requires Inv(s) && w < |s.workers|
    ensures Inv(Next(s, Cancel(w)))
  {
    var s' := Next(s, Cancel(w));
    forall r: RowId
      ensures RowOk(s', r)
    {
      assert RowOk(s, r);
      HoldersUpdate(s.workers, w, Idle, r);
    }
    forall v | 0 <= v < |s'.workers|
      ensures WorkerOk(s', s'.workers[v])
    {
      assert v != w ==> WorkerOk(s, s.workers[v]);
    }
  }

  /** No step loses a row or touches its payload. */
  ghost predicate Extends(t: Table, t': Table) {
    |t| <= |t'| && forall r :: 0 <= r < |t| ==> t'[r].payload == t[r].payload
  }

  lemma StepKeepsInv(s: System, step: Step)
    requires Inv(s) && |s.workers| > 0
    ensures Inv(Next(s, step)) && Extends(s.table, Next(s, step).table)
    ensures |Next(s, step).workers| == |s.workers| && s.acknowledged <= Next(s, step).acknowledged
  {
    match step
    case Enqueue(payload) =>
      EnqueueKeepsInv(s, payload);
    case FetchBatch(w) =>
      if w < |s.workers| && s.workers[w].Idle? {
        FetchKeepsInv(s, w);
      }
    case Publish(w, reply) =>
      if w < |s.workers| && s.workers[w].Publishing? {
        PublishKeepsInv(s, w, reply);
      }
    case Mark(w, reply) =>
      if w < |s.workers| && (s.workers[w].MarkingProcessed? || s.workers[w].MarkingFailed?) {
        MarkKeepsInv(s, w, reply);
      }
    case Cancel(w) =>
      if w < |s.workers| {
        CancelKeepsInv(s, w);
      }
  }

  lemma StartInv(w: nat)
    requires w > 0
    ensures Inv(Start(w))
  {
  }

  lemma {:induction false} RunKeepsInv(s: System, steps: seq<Step>)
    requires Inv(s) && |s.workers| > 0
    ensures Inv(Run(s, steps)) && Extends(s.table, Run(s, steps).table)
    ensures |Run(s, steps).workers| == |s.workers| && s.acknowledged <= Run(s, steps).acknowledged
    decreases |steps|
  {
    if steps != [] {
      StepKeepsInv(s, steps[0]);
      RunKeepsInv(Next(s, steps[0]), steps[1..]);
    }
  }

  /**
    At-least-once delivery with quarantine, for W workers cancelled at any await: at every point of
    every run a PROCESSED row was acknowledged by Kafka, a PENDING row has attempts to spare, a FAILED
    row has spent them, no row ever counts more than 9 + W attempts, and from there on no row is lost.
   */
  lemma DeliverySafety(w: nat, before: seq<Step>, after: seq<Step>)
    requires w > 0
    ensures var s := Run(Start(w), before);
            && (forall r: RowId :: r < |s.table| ==>
                 && (s.table[r].status == PROCESSED ==> r in s.acknowledged)
                 && (s.table[r].status == PENDING ==> s.table[r].attempts < 10)
                 && (s.table[r].status == FAILED ==> s.table[r].attempts >= 10)
                 && s.table[r].attempts <= 9 + w)
            && Extends(s.table, Run(s, after).table)
  {
    StartInv(w);
    RunKeepsInv(Start(w), before);
    var s := Run(Start(w), before);
    RunKeepsInv(s, after);
    forall r: RowId | r < |s.table|
      ensures s.table[r].status == PROCESSED ==> r in s.acknowledged
      ensures s.table[r].status == PENDING ==> s.table[r].attempts < 10
      ensures s.table[r].status == FAILED ==> s.table[r].attempts >= 10
      ensures s.table[r].attempts <= 9 + w
    {
      assert RowOk(s, r);
    }
  }

  // ---- Settled rows ---------------------------------------------------------------------------

  /** With one worker, every row it still holds is pending. */
  ghost predicate Exclusive(s: System) {
    |s.workers| == 1 && forall r: RowId :: r in s.workers[0].Todo() ==> IsPending(s.table, r)
  }

  lemma ExclusiveStep(s: System, step: Step)
    requires Exclusive(s) && WorkerOk(s, s.workers[0])
    ensures Exclusive(Next(s, step))
  {
    var w, s' := s.workers[0], Next(s, step);
    forall r: RowId | r in s'.workers[0].Todo()
      ensures IsPending(s'.table, r)
    {
      if step.Mark? {
        assert r in w.todo && (s' != s ==> r != w.todo[0]);
      }
    }
  }

  lemma OneWorkerStep(s: System, step: Step, r: RowId)
    requires Inv(s) && Exclusive(s) && r < |s.table| && s.table[r].status != PENDING
    ensures r < |Next(s, step).table| && Next(s, step).table[r] == s.table[r]
  {
    var w := s.workers[0];
    assert WorkerOk(s, w);
    assert !w.Idle? ==> IsPending(s.table, w.todo[0]) && w.todo[0] != r;
  }

  /** For a single worker, PROCESSED and FAILED are final in every run. */
  lemma {:induction false} OneWorkerSettles(s: System, steps: seq<Step>, r: RowId)
    requires Inv(s) && Exclusive(s) && r < |s.table| && s.table[r].status != PENDING
    ensures r < |Run(s, steps).table| && Run(s, steps).table[r] == s.table[r]
    decreases |steps|
  {
    if steps != [] {
      OneWorkerStep(s, steps[0], r);
      assert WorkerOk(s, s.workers[0]);
      ExclusiveStep(s, steps[0]);
      StepKeepsInv(s, steps[0]);
      OneWorkerSettles(Next(s, steps[0]), steps[1..], r);
    }
  }

  lemma {:induction false} OneWorkerReaches(s: System, steps: seq<Step>)
    requires Inv(s) && Exclusive(s)
    ensures Inv(Run(s, steps)) && Exclusive(Run(s, steps))
    decreases |steps|
  {
    if steps != [] {
      StepKeepsInv(s, steps[0]);
      assert WorkerOk(s, s.workers[0]);
      ExclusiveStep(s, steps[0]);
      OneWorkerReaches(Next(s, steps[0]), steps[1..]);
    }
  }

  /** "Delivered is final" holds for every run of W workers exactly when W is one. */
  ghost predicate SettledIsFinal(w: nat) {
    forall before: seq<Step>, after: seq<Step>, r: RowId ::
      var s := Run(Start(w), before);
      r < |s.table| && s.table[r].status != PENDING ==>
        r < |Run(s, after).table| && Run(s, after).table[r].status == s.table[r].status
  }

  lemma SettledFinalIffOneWorker(w: nat)
    requires w > 0
    ensures SettledIsFinal(w) <==> w == 1
  {
    if w == 1 {
      forall before: seq<Step>, after: seq<Step>, r: RowId
        ensures var s := Run(Start(w), before);
                r < |s.table| && s.table[r].status != PENDING ==>
                  r < |Run(s, after).table| && Run(s, after).table[r].status == s.table[r].status
      {
        StartInv(w);
        OneWorkerReaches(Start(w), before);
        var s := Run(Start(w), before);
        if r < |s.table| && s.table[r].status != PENDING {
          OneWorkerSettles(s, after, r);
        }
      }
    } else {
      Resurrection(w);
    }
  }

  /** Two workers fetch the same row; one delivers it, the other's failure makes it pending again. */
  lemma Resurrection(w: nat)
    requires w >= 2
    ensures !SettledIsFinal(w)
  {
    var id: Uuid := seq(32, _ => 0);
    var event := Event(id, "", "", None, "");
    EventRoundTrip(event);
    var fetched := [Enqueue(Encode(event)), FetchBatch(0)] + [FetchBatch(1)];
    FetchedTwice(w, Encode(event));
    var s3 := Run(Start(w), fetched);
    var delivered, undone := [Publish(0, Answered), Mark(0, Answered)], [Publish(1, Refused), Mark(1, Answered)];
    RunTwo(s3, delivered[0], delivered[1], []);
    var s5 := Run(s3, delivered);
    assert s5.table[0].status == PROCESSED && s5.workers[1] == Publishing([0]);
    RunTwo(s5, undone[0], undone[1], []);
    assert Run(s5, undone).table[0].status == PENDING;
    RunAppend(Start(w), fetched, delivered);
    assert Run(Start(w), fetched + delivered) == s5;
  }

  lemma RunTwo(s: System, a: Step, b: Step, rest: seq<Step>)
    ensures Run(s, [a, b] + rest) == Run(Next(Next(s, a), b), rest)
    ensures Run(s, [a, b]) == Next(Next(s, a), b)
  {
    assert ([a, b] + rest)[1..] == [b] + rest;
    assert ([b] + rest)[1..] == rest;
    assert [a, b][1..] == [b];
    assert Run(Next(s, a), [b]) == Run(Next(Next(s, a), b), []);
  }

  lemma FetchedTwice(w: nat, payload: Json)
    requires w >= 2
    ensures var s := Run(Start(w), [Enqueue(payload), FetchBatch(0)] + [FetchBatch(1)]);
            && s.table == [Row(payload, PENDING, 0)] && |s.workers| == w
            && s.workers[0] == Publishing([0]) && s.workers[1] == Publishing([0])
  {
    var t := [Row(payload, PENDING, 0)];
    assert PendingBefore(t, 0) == [];
    assert PendingBefore(t, 1) == [0];
    assert Fetch(t, BATCH_SIZE) == [0];
    RunTwo(Start(w), Enqueue(payload), FetchBatch(0), [FetchBatch(1)]);
    var s := Next(Next(Start(w), Enqueue(payload)), FetchBatch(0));
    assert s.table == t;
    assert Run(s, [FetchBatch(1)]) == Run(Next(s, FetchBatch(1)), []);
  }

  // ---- The attempt bound is exact --------------------------------------------------------------

  /** One row with this payload, and workers of which those in [from, to) are about to publish it. */
  function Solo(payload: Json, status: RowStatus, attempts: nat, w: nat, from: nat, to: nat): System {
    System([Row(payload, status, attempts)], {}, seq(w, i => if from <= i < to then Publishing([0]) else Idle))
  }

  lemma {:induction false} RunAppend(s: System, a: seq<Step>, b: seq<Step>)
    ensures Run(s, a + b) == Run(Run(s, a), b)
    decreases |a|
  {
    if a == [] {
      assert a + b == b;
    } else {
      assert (a + b)[1..] == a[1..] + b;
      RunAppend(Next(s, a[0]), a[1..], b);
    }
  }

  lemma OneFailure(payload: Json, status: RowStatus, attempts: nat, w: nat, k: nat, to: nat) returns (steps: seq<Step>)
    requires k < to <= w
    ensures Run(Solo(payload, status, attempts, w, k, to), steps)
         == Solo(payload, if attempts + 1 >= MAX_ATTEMPTS then FAILED else PENDING, attempts + 1, w, k + 1, to)
  {
    var s := Solo(payload, status, attempts, w, k, to);
    steps := [Publish(k, Refused), Mark(k, Answered)];
    RunTwo(s, steps[0], steps[1], []);
    var end := Run(s, steps);
    assert end.workers == Solo(payload, FAILED, 0, w, k + 1, to).workers;
  }

  lemma OneFetch(payload: Json, attempts: nat, w: nat, k: nat)
    requires k < w
    ensures Run(Solo(payload, PENDING, attempts, w, 0, k), [FetchBatch(k)]) == Solo(payload, PENDING, attempts, w, 0, k + 1)
  {
    var s := Solo(payload, PENDING, attempts, w, 0, k);
    assert PendingBefore(s.table, 0) == [];
    assert PendingBefore(s.table, 1) == [0];
    var s' := Next(s, FetchBatch(k));
    assert s'.workers == Solo(payload, PENDING, attempts, w, 0, k + 1).workers;
    assert Run(s, [FetchBatch(k)]) == Run(s', []);
  }

  /** One worker fetches the row and fails on it. */
  lemma FailOnce(payload: Json, w: nat, n: nat) returns (steps: seq<Step>)
    requires w > 0 && n + 1 < MAX_ATTEMPTS
    ensures Run(Solo(payload, PENDING, n, w, 0, 0), steps) == Solo(payload, PENDING, n + 1, w, 0, 0)
  {
    OneFetch(payload, n, w, 0);
    var fail := OneFailure(payload, PENDING, n, w, 0, 1);
    RunAppend(Solo(payload, PENDING, n, w, 0, 0), [FetchBatch(0)], fail);
    assert Solo(payload, PENDING, n + 1, w, 1, 1) == Solo(payload, PENDING, n + 1, w, 0, 0);
    steps := [FetchBatch(0)] + fail;
  }

  lemma {:induction false} FailAlone(payload: Json, w: nat, n: nat) returns (steps: seq<Step>)
    requires w > 0 && n < MAX_ATTEMPTS
    ensures Run(Solo(payload, PENDING, 0, w, 0, 0), steps) == Solo(payload, PENDING, n, w, 0, 0)
  {
    if n == 0 {
      steps := [];
    } else {
      var prefix := FailAlone(payload, w, n - 1);
      var round := FailOnce(payload, w, n - 1);
      RunAppend(Solo(payload, PENDING, 0, w, 0, 0), prefix, round);
      steps := prefix + round;
    }
  }

  lemma {:induction false} AllFetch(payload: Json, w: nat, n: nat) returns (steps: seq<Step>)
    requires n <= w
    ensures Run(Solo(payload, PENDING, 9, w, 0, 0), steps) == Solo(payload, PENDING, 9, w, 0, n)
  {
    if n == 0 {
      steps := [];
    } else {
      var prefix := AllFetch(payload, w, n - 1);
      OneFetch(payload, 9, w, n - 1);
      RunAppend(Solo(payload, PENDING, 9, w, 0, 0), prefix, [FetchBatch(n - 1)]);
      steps := prefix + [FetchBatch(n - 1)];
    }
  }

  lemma {:induction false} AllFail(payload: Json, w: nat, n: nat) returns (steps: seq<Step>)
    requires n <= w
    ensures Run(Solo(payload, PENDING, 9, w, 0, w), steps) == Solo(payload, if n == 0 then PENDING else FAILED, 9 + n, w, n, w)
  {
    if n == 0 {
      steps := [];
    } else {
      var prefix := AllFail(payload, w, n - 1);
      var fail := OneFailure(payload, if n == 1 then PENDING else FAILED, 9 + n - 1, w, n - 1, w);
      RunAppend(Solo(payload, PENDING, 9, w, 0, w), prefix, fail);
      steps := prefix + fail;
    }
  }

  /** W workers can indeed drive the row of any enqueued event to 9 + W attempts. */
  lemma AttemptBoundReached(w: nat, event: Event) returns (steps: seq<Step>)
    requires w > 0
    ensures var s := Run(Start(w), steps); |s.table| == 1 && s.table[0].payload == Encode(event) && s.table[0].attempts == 9 + w
  {
    var payload := Encode(event);
    var nine := FailAlone(payload, w, 9);
    var fetch := AllFetch(payload, w, w);
    var fail := AllFail(payload, w, w);
    var first := Solo(payload, PENDING, 0, w, 0, 0);
    assert Next(Start(w), Enqueue(payload)) == first by {
      assert Start(w).workers == first.workers;
    }
    RunAppend(Solo(payload, PENDING, 9, w, 0, 0), fetch, fail);
    RunAppend(first, nine, fetch + fail);
    steps := [Enqueue(payload)] + (nine + (fetch + fail));
    assert steps[1..] == nine + (fetch + fail);
  }
}
