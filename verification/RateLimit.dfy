/** The per-address request limiter on one counter cell, requests coming one after another. */
module RateLimit {
  import opened Prelude
  import opened Redis
  import opened Keys

  /** One request: INCR, and the SET that gives a new counter its window. */
  datatype Request = Request(incr: Await, set_: Await)

  /** `increment` and, for the first hit, `set_value(count, window)`. */
  function AfterRequest(c: Cell, r: Request, window: Time): Cell {
    var c' := AfterIncrement(c, r.incr);
    if CountReply(c, r.incr) == Some(1) then AfterSet(c', Number(1), window, r.set_) else c'
  }

  /** An unanswered INCR rejects the request; otherwise the count decides. */
  predicate Admitted(c: Cell, r: Request, limit: nat) {
    var count := CountReply(c, r.incr);
    count.Some? && count.value <= limit
  }

  function RunLimiter(c: Cell, run: seq<Request>, window: Time): Cell
    decreases |run|
  {
    if run == [] then c else RunLimiter(AfterRequest(c, run[0], window), run[1..], window)
  }

  /** When each admitted request was counted. */
  function Admissions(c: Cell, run: seq<Request>, limit: nat, window: Time): seq<Time>
    decreases |run|
  {
    if run == [] then []
    else (if Admitted(c, run[0], limit) then [run[0].incr.at] else [])
         + Admissions(AfterRequest(c, run[0], window), run[1..], limit, window)
  }

  /** Non-overlapping requests, the first not before `now`. Any call may fail. */
  ghost predicate Orderly(run: seq<Request>, now: Time)
    decreases |run|
  {
    run != [] ==>
      && now <= run[0].incr.at <= run[0].set_.at
      && Orderly(run[1..], run[0].set_.at)
  }

  // ---- The windows behind a counter ------------------------------------------------------------------

  /**
    The last `mine` admissions belong to the window opened at `start`; all earlier ones precede it,
    and all but the last `limit` of those precede it by more than a window.
   */
  ghost predicate Split(past: seq<Time>, mine: nat, start: Time, limit: nat, window: Time) {
    && mine <= |past| && mine <= limit
    && (forall i :: 0 <= i < |past| - mine ==> past[i] < start)
    && (forall i :: 0 <= i < |past| - mine - limit ==> past[i] + window < start)
  }

  /** The counter has counted the admissions of its window, and outlives them by at least the window. */
  ghost predicate Backed(c: Cell, past: seq<Time>, mine: nat, start: Time, window: Time) {
    && (c.None? ==> past == [])
    && (c.Some? ==> c.value.value.Number? && mine <= c.value.value.n && 1 <= c.value.value.n)
    && (c.Some? && c.value.expiry.Some? ==>
         && start + window <= c.value.expiry.value
         && forall i :: 0 <= i < |past| ==> past[i] < c.value.expiry.value)
  }

  ghost predicate Rising(past: seq<Time>, now: Time) {
    && (forall i, j :: 0 <= i < j < |past| ==> past[i] <= past[j])
    && (forall i :: 0 <= i < |past| ==> past[i] <= now)
  }

  /** Any 2 * limit + 1 admissions span more than one window. */
  ghost predicate Sparse(past: seq<Time>, limit: nat, window: Time) {
    forall i :: 0 <= i && i + 2 * limit < |past| ==> past[i] + window < past[i + 2 * limit]
  }

  lemma Admit(past: seq<Time>, mine: nat, start: Time, limit: nat, window: Time, now: Time, t: Time)
    requires Split(past, mine, start, limit, window) && Sparse(past, limit, window) && Rising(past, now)
    requires mine < limit && start <= t && now <= t
    ensures Sparse(past + [t], limit, window) && Rising(past + [t], t)
    ensures Split(past + [t], mine + 1, start, limit, window)
  {
  }

  /** A request that meets a live counter stays in its window. */
  lemma SameWindow(c: Cell, past: seq<Time>, mine: nat, start: Time, r: Request, limit: nat, window: Time)
    requires Backed(c, past, mine, start, window) && Live(c, r.incr.at)
    ensures var c' := AfterRequest(c, r, window);
            if Admitted(c, r, limit)
            then c.value.value.n < limit && Backed(c', past + [r.incr.at], mine + 1, start, window)
            else Backed(c', past, mine, start, window)
  {
  }

  /** A request that meets no live counter opens a window, unless its INCR never reaches the cache. */
  lemma NewWindow(c: Cell, past: seq<Time>, mine: nat, start: Time, r: Request, limit: nat, window: Time)
    requires limit > 0 && window > 0 && r.incr.at <= r.set_.at
    requires Split(past, mine, start, limit, window) && Backed(c, past, mine, start, window)
    requires !Live(c, r.incr.at) && r.incr.reply.Applied()
    ensures var c', t := AfterRequest(c, r, window), r.incr.at;
            && Split(past, 0, t, limit, window)
            && (if Admitted(c, r, limit) then Backed(c', past + [t], 1, t, window) else Backed(c', past, 0, t, window))
  {
  }

  /** The admissions so far are sparse; the last `mine` of them belong to the window opened at `start`. */
  ghost predicate Tracked(c: Cell, past: seq<Time>, mine: nat, start: Time, limit: nat, window: Time, now: Time) {
    && start <= now && Split(past, mine, start, limit, window) && Backed(c, past, mine, start, window)
    && Sparse(past, limit, window) && Rising(past, now)
  }

  lemma LiveTracked(c: Cell, past: seq<Time>, mine: nat, start: Time, r: Request, limit: nat, window: Time, now: Time)
    returns (mine': nat)
    requires limit > 0 && window > 0 && now <= r.incr.at <= r.set_.at && Live(c, r.incr.at)
    requires Tracked(c, past, mine, start, limit, window, now)
    ensures Tracked(AfterRequest(c, r, window), if Admitted(c, r, limit) then past + [r.incr.at] else past,
                    mine', start, limit, window, r.set_.at)
  {
    SameWindow(c, past, mine, start, r, limit, window);
    mine' := mine;
    if Admitted(c, r, limit) {
      Admit(past, mine, start, limit, window, now, r.incr.at);
      mine' := mine + 1;
    }
  }

  lemma OpeningTracked(c: Cell, past: seq<Time>, mine: nat, start: Time, r: Request, limit: nat, window: Time, now: Time)
    returns (mine': nat)
    requires limit > 0 && window > 0 && now <= r.incr.at <= r.set_.at && !Live(c, r.incr.at) && r.incr.reply.Applied()
    requires Tracked(c, past, mine, start, limit, window, now)
    ensures Tracked(AfterRequest(c, r, window), if Admitted(c, r, limit) then past + [r.incr.at] else past,
                    mine', r.incr.at, limit, window, r.set_.at)
  {
    NewWindow(c, past, mine, start, r, limit, window);
    mine' := 0;
    if Admitted(c, r, limit) {
      Admit(past, 0, r.incr.at, limit, window, now, r.incr.at);
      mine' := 1;
    }
  }

  lemma StepTracked(c: Cell, past: seq<Time>, mine: nat, start: Time, r: Request, limit: nat, window: Time, now: Time)
    returns (mine': nat, start': Time)
    requires limit > 0 && window > 0 && now <= r.incr.at <= r.set_.at
    requires Tracked(c, past, mine, start, limit, window, now)
    ensures Tracked(AfterRequest(c, r, window), if Admitted(c, r, limit) then past + [r.incr.at] else past,
                    mine', start', limit, window, r.set_.at)
  {
    mine', start' := mine, start;
    if Live(c, r.incr.at) {
      mine' := LiveTracked(c, past, mine, start, r, limit, window, now);
    } else if r.incr.reply.Applied() {
      mine' := OpeningTracked(c, past, mine, start, r, limit, window, now);
      start' := r.incr.at;
    }
  }

  /** `past` followed by the admissions of a run. */
  ghost function Record(past: seq<Time>, c: Cell, run: seq<Request>, limit: nat, window: Time): seq<Time>
    decreases |run|
  {
    if run == [] then past
    else Record(if Admitted(c, run[0], limit) then past + [run[0].incr.at] else past,
                AfterRequest(c, run[0], window), run[1..], limit, window)
  }

  lemma {:induction false} RecordAppends(past: seq<Time>, c: Cell, run: seq<Request>, limit: nat, window: Time)
    ensures Record(past, c, run, limit, window) == past + Admissions(c, run, limit, window)
    decreases |run|
  {
    if run != [] {
      RecordAppends(if Admitted(c, run[0], limit) then past + [run[0].incr.at] else past,
                    AfterRequest(c, run[0], window), run[1..], limit, window);
    }
  }

  lemma {:induction false} RunSparse(c: Cell, past: seq<Time>, mine: nat, start: Time, run: seq<Request>,
                                     limit: nat, window: Time, now: Time)
    requires limit > 0 && window > 0 && Orderly(run, now)
    requires Tracked(c, past, mine, start, limit, window, now)
    ensures Sparse(Record(past, c, run, limit, window), limit, window)
    ensures exists end: Time :: Rising(Record(past, c, run, limit, window), end)
    decreases |run|
  {
    if run != [] {
      var r := run[0];
      var mine', start' := StepTracked(c, past, mine, start, r, limit, window, now);
      RunSparse(AfterRequest(c, r, window), if Admitted(c, r, limit) then past + [r.incr.at] else past, mine', start',
                run[1..], limit, window, r.set_.at);
    }
  }

  // ---- Counting admissions in an interval --------------------------------------------------------------

  ghost function Within(times: seq<Time>, from: Time, to: Time): set<nat> {
    set i | 0 <= i < |times| && from <= times[i] <= to
  }

  lemma {:induction false} RangeBound(s: set<nat>, lo: nat, n: nat)
    requires forall i :: i in s ==> lo <= i < lo + n
    ensures |s| <= n
  {
    if n == 0 {
      assert s == {};
    } else {
      RangeBound(s - {lo + n - 1}, lo, n - 1);
    }
  }

  lemma {:induction false} LeastOf(s: set<nat>) returns (m: nat)
    requires s != {}
    ensures m in s && forall i :: i in s ==> m <= i
    decreases |s|
  {
    var x :| x in s;
    m := x;
    if s - {x} != {} {
      var m' := LeastOf(s - {x});
      if m' < x {
        m := m';
      }
    }
    assert forall i :: i in s ==> i == x || i in s - {x};
  }

  lemma RunAdmits(run: seq<Request>, limit: nat, window: Time)
    requires limit > 0 && window > 0 && Orderly(run, 0)
    ensures var times := Admissions(None, run, limit, window);
            Sparse(times, limit, window) && forall i, j :: 0 <= i < j < |times| ==> times[i] <= times[j]
  {
    RunSparse(None, [], 0, 0, run, limit, window, 0);
    RecordIsAdmissions(None, run, limit, window);
  }

  lemma RecordIsAdmissions(c: Cell, run: seq<Request>, limit: nat, window: Time)
    ensures Record([], c, run, limit, window) == Admissions(c, run, limit, window)
  {
    RecordAppends([], c, run, limit, window);
    assert [] + Admissions(c, run, limit, window) == Admissions(c, run, limit, window);
  }

  /**
    However its cache calls fail, the limiter admits at most 2 * limit sequential requests of one
    address and endpoint in any interval no longer than its window.
   */
  lemma TwiceTheLimit(run: seq<Request>, limit: nat, window: Time, from: Time, to: Time)
    requires limit > 0 && window > 0 && Orderly(run, 0) && to <= from + window
    ensures |Within(Admissions(None, run, limit, window), from, to)| <= 2 * limit
  {
    var times := Admissions(None, run, limit, window);
    RunAdmits(run, limit, window);
    SparseCount(times, limit, window, from, to);
  }

  lemma FarApart(times: seq<Time>, limit: nat, window: Time, m: nat, i: nat)
    requires Sparse(times, limit, window) && m <= i < |times|
    requires forall i, j :: 0 <= i < j < |times| ==> times[i] <= times[j]
    ensures i >= m + 2 * limit ==> times[m] + window < times[i]
  {
    if i > m + 2 * limit {
      assert times[m] + window < times[m + 2 * limit] <= times[i];
    }
  }

  lemma SparseCount(times: seq<Time>, limit: nat, window: Time, from: Time, to: Time)
    requires Sparse(times, limit, window) && to <= from + window
    requires forall i, j :: 0 <= i < j < |times| ==> times[i] <= times[j]
    ensures |Within(times, from, to)| <= 2 * limit
  {
    var s := Within(times, from, to);
    if s != {} {
      var m := LeastOf(s);
      forall i | i in s
        ensures m <= i < m + 2 * limit
      {
        FarApart(times, limit, window, m, i);
      }
      RangeBound(s, m, 2 * limit);
    }
  }

  // ---- Twice the limit is reached -----------------------------------------------------------------------

  /** `n` requests, every call of which is answered at `t`. */
  function Burst(n: nat, t: Time): seq<Request> {
    seq(n, _ => Request(Await(t, Answered), Await(t, Answered)))
  }

  /** A burst within the limit that goes on counting in the window of its first request. */
  lemma {:induction false} BurstCounts(c: Cell, n: nat, k: nat, t: Time, limit: nat, window: Time)
    requires c == Some(Entry(Number(k), Some(t + window))) && 1 <= k && k + n <= limit && window > 0
    ensures RunLimiter(c, Burst(n, t), window) == Some(Entry(Number(k + n), Some(t + window)))
    ensures Admissions(c, Burst(n, t), limit, window) == seq(n, _ => t)
    decreases n
  {
    if n > 0 {
      var run := Burst(n, t);
      assert run[1..] == Burst(n - 1, t);
      assert [t] + seq(n - 1, _ => t) == seq(n, _ => t);
      BurstCounts(AfterRequest(c, run[0], window), n - 1, k + 1, t, limit, window);
    }
  }

  /** A burst of exactly the limit that opens its window. */
  lemma FullBurst(c: Cell, t: Time, limit: nat, window: Time)
    requires !Live(c, t) && limit > 0 && window > 0
    ensures RunLimiter(c, Burst(limit, t), window) == Some(Entry(Number(limit), Some(t + window)))
    ensures Admissions(c, Burst(limit, t), limit, window) == seq(limit, _ => t)
  {
    var run := Burst(limit, t);
    assert run[1..] == Burst(limit - 1, t);
    assert [t] + seq(limit - 1, _ => t) == seq(limit, _ => t);
    BurstCounts(AfterRequest(c, run[0], window), limit - 1, 1, t, limit, window);
  }

  lemma {:induction false} AdmissionsAppend(c: Cell, a: seq<Request>, b: seq<Request>, limit: nat, window: Time)
    ensures Admissions(c, a + b, limit, window) == Admissions(c, a, limit, window) + Admissions(RunLimiter(c, a, window), b, limit, window)
    decreases |a|
  {
    if a == [] {
      assert a + b == b;
    } else {
      var c', first := AfterRequest(c, a[0], window), if Admitted(c, a[0], limit) then [a[0].incr.at] else [];
      assert (a + b)[0] == a[0] && (a + b)[1..] == a[1..] + b;
      AdmissionsAppend(c', a[1..], b, limit, window);
      Joined(first, Admissions(c', a[1..], limit, window), Admissions(RunLimiter(c, a, window), b, limit, window));
    }
  }

  lemma Joined(a: seq<Time>, b: seq<Time>, c: seq<Time>)
    ensures a + (b + c) == a + b + c
  {
  }

  lemma {:induction false} OrderlyBurst(n: nat, t: Time, now: Time, later: seq<Request>)
    requires now <= t && Orderly(later, t)
    ensures Orderly(Burst(n, t) + later, now)
    decreases n
  {
    var run := Burst(n, t) + later;
    if n == 0 {
      assert run == later;
    } else {
      assert run[1..] == Burst(n - 1, t) + later;
      OrderlyBurst(n - 1, t, t, later);
    }
  }

  /** For every limit and window there is an orderly run that admits twice the limit within one window's length. */
  lemma TwiceTheLimitReached(limit: nat, window: Time) returns (run: seq<Request>)
    requires limit > 0 && window > 0
    ensures Orderly(run, 0) && |Within(Admissions(None, run, limit, window), 0, window)| == 2 * limit
  {
    var first, second := Burst(limit, 0), Burst(limit, window);
    run := first + second;
    FullBurst(None, 0, limit, window);
    FullBurst(RunLimiter(None, first, window), window, limit, window);
    AdmissionsAppend(None, first, second, limit, window);
    assert second + [] == second;
    OrderlyBurst(limit, window, 0, []);
    OrderlyBurst(limit, 0, 0, second);
    var times := Admissions(None, run, limit, window);
    AllWithin(times, 0, window);
  }

  lemma {:induction false} AllWithin(times: seq<Time>, from: Time, to: Time)
    requires forall i :: 0 <= i < |times| ==> from <= times[i] <= to
    ensures |Within(times, from, to)| == |times|
  {
    if times == [] {
      assert Within(times, from, to) == {};
    } else {
      var last := |times| - 1;
      var front := times[..last];
      assert forall i :: 0 <= i < last ==> front[i] == times[i];
      AllWithin(front, from, to);
      assert Within(times, from, to) == Within(front, from, to) + {last};
    }
  }

  // ---- Rejections and the window ---------------------------------------------------------------------------

  /** When the window in force at `now` ends: None without a window, Some(None) if it never does. */
  function WindowEnd(c: Cell, now: Time): Option<Option<Time>> {
    if Live(c, now) then Some(c.value.expiry) else None
  }

  /**
    A rejected request, for whatever reason, leaves the end of the window where it was, except in one
    case: an INCR that took effect unanswered where no window was open. That opens one which never ends.
   */
  lemma RejectionKeepsWindow(c: Cell, r: Request, limit: nat, window: Time)
    requires limit > 0 && !Admitted(c, r, limit)
    ensures WindowEnd(AfterRequest(c, r, window), r.incr.at) == WindowEnd(c, r.incr.at)
       <==> Live(c, r.incr.at) || !r.incr.reply.Unacknowledged?
    ensures !Live(c, r.incr.at) && r.incr.reply.Unacknowledged? ==> Stuck(AfterRequest(c, r, window))
  {
  }

  // ---- When the window never closes ----------------------------------------------------------------------

  /** A counter without a TTL. */
  predicate Stuck(c: Cell) {
    c.Some? && c.value.value.Number? && c.value.expiry.None?
  }

  /** The cells the limiter itself writes. */
  predicate IsCounter(c: Cell) {
    c.Some? ==> c.value.value.Number? && c.value.value.n >= 1
  }

  /** The request opens a window: its INCR takes effect where no counter is live. */
  predicate Opens(c: Cell, r: Request) {
    !Live(c, r.incr.at) && r.incr.reply.Applied()
  }

  /** The INCR went unanswered, so no SET was sent, or the SET did not take effect. */
  predicate LosesTtl(r: Request) {
    r.incr.reply.Unacknowledged? || !r.set_.reply.Applied()
  }

  /** A request that opens a window opens one that never closes exactly when it loses the TTL. */
  lemma StuckIffTtlLost(c: Cell, r: Request, window: Time)
    requires Opens(c, r) && window > 0
    ensures Stuck(AfterRequest(c, r, window)) <==> LosesTtl(r)
  {
  }

  /** Every other request leaves a stuck counter stuck, and a counter with a TTL with that TTL. */
  lemma StuckStep(c: Cell, r: Request, window: Time)
    requires IsCounter(c) && window > 0
    ensures IsCounter(AfterRequest(c, r, window))
    ensures Stuck(AfterRequest(c, r, window)) <==> Stuck(c) || (Opens(c, r) && LosesTtl(r))
    ensures !Opens(c, r) && c.Some? ==> AfterRequest(c, r, window).Some? && AfterRequest(c, r, window).value.expiry == c.value.expiry
  {
  }

  /** Some request of the run opened a window and lost its TTL. */
  ghost predicate TtlLostIn(c: Cell, run: seq<Request>, window: Time) {
    exists k :: 0 <= k < |run| && LosesTtl(run[k]) && Opens(RunLimiter(c, run[..k], window), run[k])
  }

  lemma TtlLostStep(c: Cell, run: seq<Request>, window: Time)
    requires run != []
    ensures TtlLostIn(c, run, window)
       <==> (Opens(c, run[0]) && LosesTtl(run[0])) || TtlLostIn(AfterRequest(c, run[0], window), run[1..], window)
  {
    var c', rest := AfterRequest(c, run[0], window), run[1..];
    assert run[..0] == [];
    forall k | 0 <= k < |rest|
      ensures rest[k] == run[k + 1]
      ensures RunLimiter(c', rest[..k], window) == RunLimiter(c, run[..k + 1], window)
    {
      assert run[..k + 1][0] == run[0] && run[..k + 1][1..] == rest[..k];
    }
    if TtlLostIn(c, run, window) {
      var k :| 0 <= k < |run| && LosesTtl(run[k]) && Opens(RunLimiter(c, run[..k], window), run[k]);
      if k > 0 {
        assert LosesTtl(rest[k - 1]) && Opens(RunLimiter(c', rest[..k - 1], window), rest[k - 1]);
      }
    }
    if TtlLostIn(c', rest, window) {
      var k :| 0 <= k < |rest| && LosesTtl(rest[k]) && Opens(RunLimiter(c', rest[..k], window), rest[k]);
      assert LosesTtl(run[k + 1]) && Opens(RunLimiter(c, run[..k + 1], window), run[k + 1]);
    }
  }

  lemma {:induction false} RunStuck(c: Cell, run: seq<Request>, window: Time)
    requires IsCounter(c) && window > 0
    ensures Stuck(RunLimiter(c, run, window)) <==> Stuck(c) || TtlLostIn(c, run, window)
    decreases |run|
  {
    if run != [] {
      StuckStep(c, run[0], window);
      TtlLostStep(c, run, window);
      RunStuck(AfterRequest(c, run[0], window), run[1..], window);
    }
  }

  /** After any run from an empty cache, the counter is stuck exactly when an opening request lost its TTL. */
  lemma StuckIffTtlLostInRun(run: seq<Request>, window: Time)
    requires window > 0
    ensures Stuck(RunLimiter(None, run, window)) <==> TtlLostIn(None, run, window)
  {
    RunStuck(None, run, window);
  }

  /** From then on the address gets at most `limit` more requests through, forever. */
  lemma {:induction false} StuckForGood(c: Cell, run: seq<Request>, limit: nat, window: Time)
    requires Stuck(c) && c.value.value.n >= 1
    ensures |Admissions(c, run, limit, window)| + c.value.value.n <= (if limit >= c.value.value.n then limit else c.value.value.n)
    ensures Stuck(RunLimiter(c, run, window))
    decreases |run|
  {
    if run != [] {
      StuckForGood(AfterRequest(c, run[0], window), run[1..], limit, window);
    }
  }

  // ---- On the shared cache ------------------------------------------------------------------------------------

  /** What happens on the cache: a limited request of some address and path, or a command on a key of another family. */
  datatype StoreStep =
    | Checked(ip: string, endpoint: string, request: Request)
    | Command(key: CacheKey, cell: Cell)
  {
    /** No path contains a colon, and nothing else writes a limiter key. */
    predicate Proper() {
      match this
      case Checked(_, endpoint, _) => ':' !in endpoint
      case Command(key, _) => !key.RateLimit?
    }

    predicate Of(ip: string, endpoint: string) {
      Checked? && this.ip == ip && this.endpoint == endpoint
    }
  }

  function LimiterKey(ip: string, endpoint: string): string {
    Render(Keys.RateLimit(ip, endpoint))
  }

  function AfterStoreStep(s: Store, step: StoreStep, windowOf: string -> Time): Store {
    match step
    case Checked(ip, endpoint, request) =>
      var key := LimiterKey(ip, endpoint);
      Write(s, key, AfterRequest(CellOf(s, key), request, windowOf(endpoint)))
    case Command(key, cell) => Write(s, Render(key), cell)
  }

  /** When each admitted request of one address and path was counted, as the cache stood at that moment. */
  function StoreAdmissions(s: Store, steps: seq<StoreStep>, ip: string, endpoint: string, limit: nat, windowOf: string -> Time): seq<Time>
    decreases |steps|
  {
    if steps == [] then []
    else
      (if steps[0].Of(ip, endpoint) && Admitted(CellOf(s, LimiterKey(ip, endpoint)), steps[0].request, limit)
       then [steps[0].request.incr.at] else [])
      + StoreAdmissions(AfterStoreStep(s, steps[0], windowOf), steps[1..], ip, endpoint, limit, windowOf)
  }

  function RequestsOf(steps: seq<StoreStep>, ip: string, endpoint: string): seq<Request> {
    if steps == [] then []
    else (if steps[0].Of(ip, endpoint) then [steps[0].request] else []) + RequestsOf(steps[1..], ip, endpoint)
  }

  lemma StoreStepProjects(s: Store, step: StoreStep, ip: string, endpoint: string, windowOf: string -> Time)
    requires step.Proper() && ':' !in endpoint
    ensures var key := LimiterKey(ip, endpoint);
            CellOf(AfterStoreStep(s, step, windowOf), key)
            == if step.Of(ip, endpoint) then AfterRequest(CellOf(s, key), step.request, windowOf(endpoint)) else CellOf(s, key)
  {
    match step
    case Checked(ip', endpoint', _) => KeysInjective(Keys.RateLimit(ip, endpoint), Keys.RateLimit(ip', endpoint'));
    case Command(key, _) => KeyCollision(Keys.RateLimit(ip, endpoint), key);
  }

  /** The counter of an address and path evolves by its own requests only. */
  lemma {:induction false} StoreProjects(s: Store, steps: seq<StoreStep>, ip: string, endpoint: string, limit: nat, windowOf: string -> Time)
    requires ':' !in endpoint && forall k :: 0 <= k < |steps| ==> steps[k].Proper()
    ensures StoreAdmissions(s, steps, ip, endpoint, limit, windowOf)
         == Admissions(CellOf(s, LimiterKey(ip, endpoint)), RequestsOf(steps, ip, endpoint), limit, windowOf(endpoint))
    decreases |steps|
  {
    if steps != [] {
      StoreStepProjects(s, steps[0], ip, endpoint, windowOf);
      StoreProjects(AfterStoreStep(s, steps[0], windowOf), steps[1..], ip, endpoint, limit, windowOf);
      if steps[0].Of(ip, endpoint) {
        assert RequestsOf(steps, ip, endpoint)[1..] == RequestsOf(steps[1..], ip, endpoint);
      } else {
        assert RequestsOf(steps, ip, endpoint) == RequestsOf(steps[1..], ip, endpoint);
      }
    }
  }

  /** The bound on the shared cache, whatever other addresses, paths and parts of the service do in between. */
  lemma TwiceTheLimitOnStore(steps: seq<StoreStep>, ip: string, endpoint: string, limit: nat, windowOf: string -> Time,
                             from: Time, to: Time)
    requires ':' !in endpoint && forall k :: 0 <= k < |steps| ==> steps[k].Proper()
    requires limit > 0 && windowOf(endpoint) > 0 && to <= from + windowOf(endpoint)
    requires Orderly(RequestsOf(steps, ip, endpoint), 0)
    ensures |Within(StoreAdmissions(map[], steps, ip, endpoint, limit, windowOf), from, to)| <= 2 * limit
  {
    StoreProjects(map[], steps, ip, endpoint, limit, windowOf);
    TwiceTheLimit(RequestsOf(steps, ip, endpoint), limit, windowOf(endpoint), from, to);
  }
}
