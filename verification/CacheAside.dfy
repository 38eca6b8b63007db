/**
  Read-through caching as `verify_api_key` (30 s) and `login` (300 s) do it: look in the cache, else
  read the database and write what was read. Requests interleave at every await, the database changes
  at any time, and any call may fail; what a request works with is still never older than the TTL plus
  the delay between a database read and the cache write that follows it.
 */
module CacheAside {
  import opened Prelude
  import opened Redis

  const API_KEY_TTL: Time := 30 * SECOND
  const PROFILE_TTL: Time := 300 * SECOND

  /** A request for `key`: before its cache read, before its database read, and holding what it read. */
  datatype Task =
    | Asking(key: string)
    | Missed(key: string)
    | Holding(key: string, value: Value, readAt: Time)

  /** What the lookup query answers at a moment: `rows` holds the active rows only. */
  datatype Snapshot = Snapshot(at: Time, rows: map<string, Value>)

  /** A request was served `value` for `key`. */
  datatype Served = Served(at: Time, key: string, value: Value)

  datatype System = System(
    now: Time,
    rows: map<string, Value>,
    cells: map<string, Cell>,
    tasks: map<nat, Task>,
    trace: seq<Snapshot>,
    served: seq<Served>)

  datatype Step =
    | Pass(to: Time)
    | Change(rows: map<string, Value>)
    | Begin(id: nat, key: string)
    | CacheGet(id: nat, reply: Reply)
    | DbRead(id: nat, reply: Reply)
    | CachePut(id: nat, reply: Reply)
    | Invalidate(key: string, reply: Reply)
    | Drop(id: nat)

  function CellAt(s: System, key: string): Cell {
    if key in s.cells then s.cells[key] else None
  }

  function Start(rows: map<string, Value>): System {
    System(0, rows, map[], map[], [Snapshot(0, rows)], [])
  }

  /** A request gets `value` and is over. */
  function Serve(s: System, id: nat, key: string, value: Value): System {
    s.(tasks := s.tasks - {id}, served := s.served + [Served(s.now, key, value)])
  }

  /** The step itself; a step that is not enabled changes nothing. */
  function Effect(s: System, step: Step, ttl: Time): System {
    match step
    case Pass(to) => if to >= s.now then s.(now := to) else s
    case Change(rows) => s.(rows := rows)
    case Begin(id, key) => if id in s.tasks then s else s.(tasks := s.tasks[id := Asking(key)])
    case CacheGet(id, reply) =>
      if id in s.tasks && s.tasks[id].Asking? then
        var key := s.tasks[id].key;
        match GetReply(CellAt(s, key), Await(s.now, reply))
        case Some(Some(value)) => Serve(s, id, key, value)
        case _ => s.(tasks := s.tasks[id := Missed(key)])
      else s
    case DbRead(id, reply) =>
      if id in s.tasks && s.tasks[id].Missed? then
        var key := s.tasks[id].key;
        if reply.Answered? && key in s.rows
        then s.(tasks := s.tasks[id := Holding(key, s.rows[key], s.now)])
        else s.(tasks := s.tasks - {id})
      else s
    case CachePut(id, reply) =>
      if id in s.tasks && s.tasks[id].Holding? then
        var key, value := s.tasks[id].key, s.tasks[id].value;
        var s' := s.(cells := s.cells[key := AfterSet(CellAt(s, key), value, ttl, Await(s.now, reply))]);
        Serve(s', id, key, value)
      else s
    case Invalidate(key, reply) =>
      s.(cells := s.cells[key := AfterDelete(CellAt(s, key), Await(s.now, reply))])
    case Drop(id) => s.(tasks := s.tasks - {id})
  }

  /** Every step leaves a snapshot of the database in the trace. */
  function Next(s: System, step: Step, ttl: Time): System {
    var s' := Effect(s, step, ttl);
    s'.(trace := s.trace + [Snapshot(s'.now, s'.rows)])
  }

  function Run(s: System, steps: seq<Step>, ttl: Time): System
    decreases |steps|
  {
    if steps == [] then s else Run(Next(s, steps[0], ttl), steps[1..], ttl)
  }

  /** Every cache write of the run follows its database read within `delay`. */
  predicate Prompt(s: System, steps: seq<Step>, ttl: Time, delay: Time)
    decreases |steps|
  {
    steps != [] ==>
      && (steps[0].CachePut? && steps[0].id in s.tasks && s.tasks[steps[0].id].Holding? ==>
           s.now <= s.tasks[steps[0].id].readAt + delay)
      && Prompt(Next(s, steps[0], ttl), steps[1..], ttl, delay)
  }

  // ---- The invariant -------------------------------------------------------------------------------

  /** The database held `value` for `key` at some point of the trace between `from` and `to`. */
  ghost predicate Held(trace: seq<Snapshot>, key: string, value: Value, from: int, to: int) {
    exists j :: 0 <= j < |trace| && key in trace[j].rows && trace[j].rows[key] == value && from <= trace[j].at <= to
  }

  /** Everything held by a task, cached or served goes back to the database, recently enough. */
  ghost predicate Grounded(s: System, ttl: Time, delay: Time) {
    && (forall id :: id in s.tasks && s.tasks[id].Holding? ==>
         && s.tasks[id].readAt <= s.now
         && Held(s.trace, s.tasks[id].key, s.tasks[id].value, s.tasks[id].readAt, s.tasks[id].readAt))
    && (forall key :: key in s.cells && s.cells[key].Some? ==>
         && s.cells[key].value.expiry.Some?
         && Held(s.trace, key, s.cells[key].value.value, s.cells[key].value.expiry.value - ttl - delay, s.now))
    && (forall i :: 0 <= i < |s.served| ==>
         Held(s.trace, s.served[i].key, s.served[i].value, s.served[i].at - ttl - delay, s.served[i].at))
  }

  ghost predicate Inv(s: System, ttl: Time, delay: Time) {
    && |s.trace| > 0 && s.trace[|s.trace| - 1] == Snapshot(s.now, s.rows)
    && Grounded(s, ttl, delay)
  }

  lemma TraceGrows(trace: seq<Snapshot>, snap: Snapshot, key: string, value: Value, from: int, to: int)
    requires Held(trace, key, value, from, to)
    ensures Held(trace + [snap], key, value, from, to)
  {
    var j :| 0 <= j < |trace| && key in trace[j].rows && trace[j].rows[key] == value && from <= trace[j].at <= to;
    assert (trace + [snap])[j] == trace[j];
  }

  lemma GetGrounded(s: System, id: nat, reply: Reply, ttl: Time, delay: Time)
    requires Inv(s, ttl, delay)
    ensures Grounded(Effect(s, CacheGet(id, reply), ttl), ttl, delay)
  {
  }

  lemma ReadGrounded(s: System, id: nat, reply: Reply, ttl: Time, delay: Time)
    requires Inv(s, ttl, delay)
    ensures Grounded(Effect(s, DbRead(id, reply), ttl), ttl, delay)
  {
  }

  lemma PutGrounded(s: System, id: nat, reply: Reply, ttl: Time, delay: Time)
    requires Inv(s, ttl, delay)
    requires id in s.tasks && s.tasks[id].Holding? ==> s.now <= s.tasks[id].readAt + delay
    ensures Grounded(Effect(s, CachePut(id, reply), ttl), ttl, delay)
  {
  }

  lemma PassGrounded(s: System, to: Time, ttl: Time, delay: Time)
    requires Inv(s, ttl, delay)
    ensures Grounded(Effect(s, Pass(to), ttl), ttl, delay)
  {
  }

  lemma StepGrounded(s: System, step: Step, ttl: Time, delay: Time)
    requires Inv(s, ttl, delay)
    requires step.CachePut? && step.id in s.tasks && s.tasks[step.id].Holding? ==>
               s.now <= s.tasks[step.id].readAt + delay
    ensures Grounded(Effect(s, step, ttl), ttl, delay)
  {
    match step
    case CacheGet(id, reply) => GetGrounded(s, id, reply, ttl, delay);
    case DbRead(id, reply) => ReadGrounded(s, id, reply, ttl, delay);
    case CachePut(id, reply) => PutGrounded(s, id, reply, ttl, delay);
    case Pass(to) => PassGrounded(s, to, ttl, delay);
    case _ =>
  }

  lemma SnapshotKeeps(s: System, ttl: Time, delay: Time)
    requires Grounded(s, ttl, delay)
    ensures Inv(s.(trace := s.trace + [Snapshot(s.now, s.rows)]), ttl, delay)
  {
    var snap := Snapshot(s.now, s.rows);
    forall id | id in s.tasks && s.tasks[id].Holding?
      ensures Held(s.trace + [snap], s.tasks[id].key, s.tasks[id].value, s.tasks[id].readAt, s.tasks[id].readAt)
    {
      TraceGrows(s.trace, snap, s.tasks[id].key, s.tasks[id].value, s.tasks[id].readAt, s.tasks[id].readAt);
    }
    forall key | key in s.cells && s.cells[key].Some?
      ensures Held(s.trace + [snap], key, s.cells[key].value.value, s.cells[key].value.expiry.value - ttl - delay, s.now)
    {
      TraceGrows(s.trace, snap, key, s.cells[key].value.value, s.cells[key].value.expiry.value - ttl - delay, s.now);
    }
    forall i | 0 <= i < |s.served|
      ensures Held(s.trace + [snap], s.served[i].key, s.served[i].value, s.served[i].at - ttl - delay, s.served[i].at)
    {
      TraceGrows(s.trace, snap, s.served[i].key, s.served[i].value, s.served[i].at - ttl - delay, s.served[i].at);
    }
  }

  lemma {:induction false} RunKeepsInv(s: System, steps: seq<Step>, ttl: Time, delay: Time)
    requires Inv(s, ttl, delay) && Prompt(s, steps, ttl, delay)
    ensures Inv(Run(s, steps, ttl), ttl, delay)
    decreases |steps|
  {
    if steps != [] {
      StepGrounded(s, steps[0], ttl, delay);
      assert Effect(s, steps[0], ttl).trace == s.trace;
      SnapshotKeeps(Effect(s, steps[0], ttl), ttl, delay);
      RunKeepsInv(Next(s, steps[0], ttl), steps[1..], ttl, delay);
    }
  }

  /**
    In every interleaving whose cache writes follow their database reads within `delay`, every value
    served was what the database answered for that key at most ttl + delay earlier.
   */
  lemma BoundedStaleness(rows: map<string, Value>, steps: seq<Step>, ttl: Time, delay: Time, i: nat)
    requires Prompt(Start(rows), steps, ttl, delay)
    requires i < |Run(Start(rows), steps, ttl).served|
    ensures var s := Run(Start(rows), steps, ttl);
            exists j :: 0 <= j < |s.trace|
              && s.served[i].key in s.trace[j].rows && s.trace[j].rows[s.served[i].key] == s.served[i].value
              && s.trace[j].at <= s.served[i].at <= s.trace[j].at + ttl + delay
  {
    RunKeepsInv(Start(rows), steps, ttl, delay);
    var s := Run(Start(rows), steps, ttl);
    assert Held(s.trace, s.served[i].key, s.served[i].value, s.served[i].at - ttl - delay, s.served[i].at);
  }

  /** A key accepted by `verify_api_key` was active, with that role, at most 30 s plus the delay earlier. */
  lemma ApiKeyStaleness(rows: map<string, Value>, steps: seq<Step>, delay: Time, i: nat)
    requires Prompt(Start(rows), steps, API_KEY_TTL, delay)
    requires i < |Run(Start(rows), steps, API_KEY_TTL).served|
    requires Run(Start(rows), steps, API_KEY_TTL).served[i].value.Key?
    ensures var s := Run(Start(rows), steps, API_KEY_TTL);
            exists j :: 0 <= j < |s.trace|
              && s.served[i].key in s.trace[j].rows && s.trace[j].rows[s.served[i].key].Key?
              && s.trace[j].rows[s.served[i].key].key.role == s.served[i].value.key.role
              && s.trace[j].at <= s.served[i].at <= s.trace[j].at + 30 * SECOND + delay
  {
    BoundedStaleness(rows, steps, API_KEY_TTL, delay, i);
    var s := Run(Start(rows), steps, API_KEY_TTL);
    var j :| 0 <= j < |s.trace|
      && s.served[i].key in s.trace[j].rows && s.trace[j].rows[s.served[i].key] == s.served[i].value
      && s.trace[j].at <= s.served[i].at <= s.trace[j].at + API_KEY_TTL + delay;
    assert s.trace[j].rows[s.served[i].key].Key?;
  }

  /** A hash used by `login` was stored at most 300 s plus the delay earlier. */
  lemma LoginHashStaleness(rows: map<string, Value>, steps: seq<Step>, delay: Time, i: nat)
    requires Prompt(Start(rows), steps, PROFILE_TTL, delay)
    requires i < |Run(Start(rows), steps, PROFILE_TTL).served|
    requires Run(Start(rows), steps, PROFILE_TTL).served[i].value.Profile?
    ensures var s := Run(Start(rows), steps, PROFILE_TTL);
            exists j :: 0 <= j < |s.trace|
              && s.served[i].key in s.trace[j].rows && s.trace[j].rows[s.served[i].key].Profile?
              && s.trace[j].rows[s.served[i].key].user.hash == s.served[i].value.user.hash
              && s.trace[j].at <= s.served[i].at <= s.trace[j].at + 300 * SECOND + delay
  {
    BoundedStaleness(rows, steps, PROFILE_TTL, delay, i);
    var s := Run(Start(rows), steps, PROFILE_TTL);
    var j :| 0 <= j < |s.trace|
      && s.served[i].key in s.trace[j].rows && s.trace[j].rows[s.served[i].key] == s.served[i].value
      && s.trace[j].at <= s.served[i].at <= s.trace[j].at + PROFILE_TTL + delay;
    assert s.trace[j].rows[s.served[i].key].Profile?;
  }

  // ---- One request on its own ----------------------------------------------------------------------

  /** The calls of one lookup, in program order. */
  datatype LookupCalls = LookupCalls(get: Await, read: Await, put: Await)

  /** One lookup from start to end: what it is served, and the cell it leaves. */
  function ReadThrough(c: Cell, rows: map<string, Value>, key: string, calls: LookupCalls, ttl: Time): (Option<Value>, Cell) {
    match GetReply(c, calls.get)
    case Some(Some(value)) => (Some(value), c)
    case _ =>
      if calls.read.reply.Answered? && key in rows
      then (Some(rows[key]), AfterSet(c, rows[key], ttl, calls.put)) else (None, c)
  }

  function Lookup(id: nat, key: string, calls: LookupCalls): seq<Step> {
    [Begin(id, key), Pass(calls.get.at), CacheGet(id, calls.get.reply), Pass(calls.read.at), DbRead(id, calls.read.reply),
     Pass(calls.put.at), CachePut(id, calls.put.reply)]
  }

  lemma {:induction false} RunAppend(s: System, a: seq<Step>, b: seq<Step>, ttl: Time)
    ensures Run(s, a + b, ttl) == Run(Run(s, a, ttl), b, ttl)
    decreases |a|
  {
    if a == [] {
      assert a + b == b;
    } else {
      assert (a + b)[1..] == a[1..] + b;
      RunAppend(Next(s, a[0], ttl), a[1..], b, ttl);
    }
  }

  lemma RunTwo(s: System, a: Step, b: Step, ttl: Time)
    ensures Run(s, [a, b], ttl) == Next(Next(s, a, ttl), b, ttl)
  {
    assert [a, b][1..] == [b];
    assert Run(Next(s, a, ttl), [b], ttl) == Run(Next(Next(s, a, ttl), b, ttl), [], ttl);
  }

  lemma RunOne(s: System, a: Step, ttl: Time)
    ensures Run(s, [a], ttl) == Next(s, a, ttl)
  {
  }

  lemma LookupSteps(s: System, id: nat, key: string, calls: LookupCalls, ttl: Time)
    ensures var s2 := Next(Next(s, Begin(id, key), ttl), Pass(calls.get.at), ttl);
            var s4 := Next(Next(s2, CacheGet(id, calls.get.reply), ttl), Pass(calls.read.at), ttl);
            var s6 := Next(Next(s4, DbRead(id, calls.read.reply), ttl), Pass(calls.put.at), ttl);
            Run(s, Lookup(id, key, calls), ttl) == Next(s6, CachePut(id, calls.put.reply), ttl)
  {
    var b, p1, g, p2, r, p3, w := Begin(id, key), Pass(calls.get.at), CacheGet(id, calls.get.reply), Pass(calls.read.at),
                                  DbRead(id, calls.read.reply), Pass(calls.put.at), CachePut(id, calls.put.reply);
    assert Lookup(id, key, calls) == [b, p1] + ([g, p2] + ([r, p3] + [w]));
    var s2 := Next(Next(s, b, ttl), p1, ttl);
    var s4 := Next(Next(s2, g, ttl), p2, ttl);
    RunTwo(s, b, p1, ttl);
    RunTwo(s2, g, p2, ttl);
    RunTwo(s4, r, p3, ttl);
    RunOne(Next(Next(s4, r, ttl), p3, ttl), w, ttl);
    RunAppend(s, [b, p1], [g, p2] + ([r, p3] + [w]), ttl);
    RunAppend(s2, [g, p2], [r, p3] + [w], ttl);
    RunAppend(s4, [r, p3], [w], ttl);
  }

  /** A lookup without interference is a run of the interleaved system. */
  lemma LookupIsARun(s: System, id: nat, key: string, calls: LookupCalls, ttl: Time)
    requires id !in s.tasks && s.now <= calls.get.at <= calls.read.at <= calls.put.at
    ensures var end := Run(s, Lookup(id, key, calls), ttl);
            var (value, cell) := ReadThrough(CellAt(s, key), s.rows, key, calls, ttl);
            && CellAt(end, key) == cell
            && end.rows == s.rows
            && (value.None? ==> end.served == s.served)
            && (value.Some? ==>
                 exists at :: end.served == s.served + [Served(at, key, value.value)] && (at == calls.get.at || at == calls.put.at))
  {
    LookupSteps(s, id, key, calls, ttl);
    UpToRead(s, id, key, calls.get, calls.read.at, ttl);
    var s4 := Next(Next(Next(Next(s, Begin(id, key), ttl), Pass(calls.get.at), ttl),
                        CacheGet(id, calls.get.reply), ttl), Pass(calls.read.at), ttl);
    if id in s4.tasks {
      AfterMiss(s4, id, key, calls.read, calls.put, ttl);
    }
  }

  lemma UpToRead(s: System, id: nat, key: string, get: Await, then_: Time, ttl: Time)
    requires id !in s.tasks && s.now <= get.at <= then_
    ensures var s4 := Next(Next(Next(Next(s, Begin(id, key), ttl), Pass(get.at), ttl), CacheGet(id, get.reply), ttl), Pass(then_), ttl);
            && s4.rows == s.rows && s4.cells == s.cells && s4.now == then_
            && (if get.reply.Answered? && Live(CellAt(s, key), get.at)
                then id !in s4.tasks && s4.served == s.served + [Served(get.at, key, CellAt(s, key).value.value)]
                else id in s4.tasks && s4.tasks[id] == Missed(key) && s4.served == s.served)
  {
  }

  lemma AfterMiss(s: System, id: nat, key: string, read: Await, put: Await, ttl: Time)
    requires id in s.tasks && s.tasks[id] == Missed(key) && s.now == read.at <= put.at
    ensures var end := Next(Next(Next(s, DbRead(id, read.reply), ttl), Pass(put.at), ttl), CachePut(id, put.reply), ttl);
            && end.rows == s.rows
            && (if read.reply.Answered? && key in s.rows then
                  && CellAt(end, key) == AfterSet(CellAt(s, key), s.rows[key], ttl, put)
                  && end.served == s.served + [Served(put.at, key, s.rows[key])]
                else end.cells == s.cells && end.served == s.served)
  {
  }

  lemma InvalidateEmpties(s: System, key: string, reply: Reply, ttl: Time)
    requires reply.Applied()
    ensures var s' := Next(s, Invalidate(key, reply), ttl);
            CellAt(s', key).None? && s'.rows == s.rows && s'.tasks == s.tasks && s'.now == s.now && s'.served == s.served
  {
  }

  /** After an invalidation that takes effect, an undisturbed lookup serves the row as the database has it then. */
  lemma FreshAfterInvalidation(s: System, id: nat, key: string, reply: Reply, calls: LookupCalls, ttl: Time)
    requires id !in s.tasks && s.now <= calls.get.at <= calls.read.at <= calls.put.at
    requires reply.Applied() && calls.read.reply.Answered? && key in s.rows
    ensures var end := Run(s, [Invalidate(key, reply)] + Lookup(id, key, calls), ttl);
            exists at :: end.served == s.served + [Served(at, key, s.rows[key])]
  {
    InvalidateEmpties(s, key, reply, ttl);
    RunOne(s, Invalidate(key, reply), ttl);
    RunAppend(s, [Invalidate(key, reply)], Lookup(id, key, calls), ttl);
    LookupIsARun(Next(s, Invalidate(key, reply), ttl), id, key, calls, ttl);
  }
}
