/**
  The limiter under concurrency. The first hit of a window writes its count back with a TTL in a
  second call, which overwrites every increment that lands in between.
 */
module RateLimitConcurrent {
  import opened Prelude
  import opened Redis
  import R = RateLimit

  /** One increment as it landed: its window, whether its request got through, whether it fell before the SET. */
  datatype Hit = Hit(window: nat, admitted: bool, early: bool)

  /** The counter, the number of windows opened so far, the requests about to SET, and all hits. */
  datatype Limiter = Limiter(cell: Cell, windows: nat, pending: set<nat>, hits: multiset<Hit>)

  datatype Step =
    | Incr(request: nat, call: Await)
    | SetTtl(request: nat, call: Await)
    | Drop(request: nat)

  const IDLE: Limiter := Limiter(None, 0, {}, multiset{})

  function Next(l: Limiter, step: Step, limit: nat, window: Time): Limiter {
    match step
    case Incr(request, call) =>
      if !call.reply.Applied() || NextCount(l.cell, call.at).None? then l
      else
        var count := CountReply(l.cell, call);
        var opens := !Live(l.cell, call.at);
        var w := if opens then l.windows + 1 else l.windows;
        var admitted := count.Some? && count.value <= limit;
        Limiter(AfterIncrement(l.cell, call), w,
                if count == Some(1) then l.pending + {request} else l.pending,
                l.hits + multiset{Hit(w, admitted, !opens && l.pending != {})})
    case SetTtl(request, call) =>
      if request in l.pending
      then l.(cell := AfterSet(l.cell, Number(1), window, call), pending := l.pending - {request})
      else l
    case Drop(request) => l.(pending := l.pending - {request})
  }

  function Run(l: Limiter, steps: seq<Step>, limit: nat, window: Time): Limiter
    decreases |steps|
  {
    if steps == [] then l else Run(Next(l, steps[0], limit, window), steps[1..], limit, window)
  }

  function AdmittedIn(hits: multiset<Hit>, w: nat): nat {
    hits[Hit(w, true, false)] + hits[Hit(w, true, true)]
  }

  /** Increments of window `w` that landed between its first INCR and the SET. */
  function EarlyIn(hits: multiset<Hit>, w: nat): nat {
    hits[Hit(w, true, true)] + hits[Hit(w, false, true)]
  }

  function Min(a: nat, b: nat): nat {
    if a < b then a else b
  }

  /** The open window: while its SET is pending the counter has no TTL and shows all its hits. */
  ghost predicate OpenWindow(l: Limiter, limit: nat) {
    var a, j := AdmittedIn(l.hits, l.windows), EarlyIn(l.hits, l.windows);
    && (l.cell.None? ==> l.pending == {} && l.windows == 0 && l.hits == multiset{})
    && (l.cell.Some? ==>
         && l.cell.value.value.Number? && l.cell.value.value.n >= 1
         && a <= j + Min(l.cell.value.value.n, limit) && a < limit + Min(l.cell.value.value.n, limit))
    && (l.pending != {} ==>
         && l.cell.Some? && l.cell.value.expiry.None?
         && (exists r :: l.pending == {r})
         && l.cell.value.value.n == j + 1 && a <= Min(j + 1, limit))
  }

  ghost predicate Inv(l: Limiter, limit: nat) {
    && OpenWindow(l, limit)
    && (forall h :: h in l.hits ==> h.window <= l.windows)
    && (forall w :: w != l.windows ==> WithinLimit(l.hits, limit, w))
  }

  lemma OneMoreHit(hits: multiset<Hit>, h: Hit, w: nat)
    ensures AdmittedIn(hits + multiset{h}, w) == AdmittedIn(hits, w) + (if h.window == w && h.admitted then 1 else 0)
    ensures EarlyIn(hits + multiset{h}, w) == EarlyIn(hits, w) + (if h.window == w && h.early then 1 else 0)
  {
  }

  ghost predicate WithinLimit(hits: multiset<Hit>, limit: nat, w: nat) {
    AdmittedIn(hits, w) <= limit + EarlyIn(hits, w) && AdmittedIn(hits, w) < 2 * limit
  }

  lemma HitKeepsOthers(hits: multiset<Hit>, h: Hit, limit: nat)
    requires forall w :: w != h.window ==> WithinLimit(hits, limit, w)
    ensures forall w :: w != h.window ==> WithinLimit(hits + multiset{h}, limit, w)
  {
    forall w | w != h.window
      ensures WithinLimit(hits + multiset{h}, limit, w)
    {
      assert WithinLimit(hits, limit, w);
      OneMoreHit(hits, h, w);
    }
  }

  /** An increment that opens a window: nothing is pending, since a pending SET keeps the counter alive. */
  lemma OpeningKeepsInv(l: Limiter, request: nat, call: Await, limit: nat, window: Time)
    requires Inv(l, limit) && limit > 0 && call.reply.Applied() && !Live(l.cell, call.at)
    ensures Inv(Next(l, Incr(request, call), limit, window), limit)
  {
    AllWithinLimit(l, limit);
    OpensTo(l, request, call, limit, window);
    OpenedInv(l, request, call.reply.Answered?, limit);
  }

  lemma AllWithinLimit(l: Limiter, limit: nat)
    requires Inv(l, limit) && limit > 0
    ensures forall w :: WithinLimit(l.hits, limit, w)
  {
    assert WithinLimit(l.hits, limit, l.windows);
  }

  lemma OpensTo(l: Limiter, request: nat, call: Await, limit: nat, window: Time)
    requires limit > 0 && l.pending == {} && call.reply.Applied() && !Live(l.cell, call.at)
    ensures Next(l, Incr(request, call), limit, window) == Opened(l, request, call.reply.Answered?)
  {
  }

  /** The limiter right after `request` has opened a window. */
  function Opened(l: Limiter, request: nat, answered: bool): Limiter {
    Limiter(Some(Entry(Number(1), None)), l.windows + 1, if answered then {request} else {},
            l.hits + multiset{Hit(l.windows + 1, answered, false)})
  }

  lemma OpenedInv(l: Limiter, request: nat, answered: bool, limit: nat)
    requires limit > 0 && (forall h :: h in l.hits ==> h.window <= l.windows) && (forall w :: WithinLimit(l.hits, limit, w))
    ensures Inv(Opened(l, request, answered), limit)
  {
    var h := Hit(l.windows + 1, answered, false);
    HitKeepsOthers(l.hits, h, limit);
    assert AdmittedIn(l.hits, h.window) == 0 && EarlyIn(l.hits, h.window) == 0;
    OneMoreHit(l.hits, h, h.window);
  }

  lemma CountingKeepsInv(l: Limiter, request: nat, call: Await, limit: nat, window: Time)
    requires Inv(l, limit) && limit > 0 && call.reply.Applied() && Live(l.cell, call.at)
    ensures Inv(Next(l, Incr(request, call), limit, window), limit)
  {
    var count := CountReply(l.cell, call);
    var h := Hit(l.windows, count.Some? && count.value <= limit, l.pending != {});
    HitKeepsOthers(l.hits, h, limit);
    OneMoreHit(l.hits, h, l.windows);
  }

  lemma StepKeepsInv(l: Limiter, step: Step, limit: nat, window: Time)
    requires Inv(l, limit) && limit > 0
    ensures Inv(Next(l, step, limit, window), limit)
  {
    match step
    case Incr(request, call) =>
      if call.reply.Applied() {
        if Live(l.cell, call.at) {
          CountingKeepsInv(l, request, call, limit, window);
        } else {
          OpeningKeepsInv(l, request, call, limit, window);
        }
      }
    case SetTtl(request, call) =>
      if request in l.pending {
        assert l.pending - {request} == {};
      }
    case Drop(request) =>
      if request in l.pending {
        assert l.pending - {request} == {};
      } else {
        assert l.pending - {request} == l.pending;
      }
  }

  lemma {:induction false} RunKeepsInv(l: Limiter, steps: seq<Step>, limit: nat, window: Time)
    requires Inv(l, limit) && limit > 0
    ensures Inv(Run(l, steps, limit, window), limit)
    decreases |steps|
  {
    if steps != [] {
      StepKeepsInv(l, steps[0], limit, window);
      RunKeepsInv(Next(l, steps[0], limit, window), steps[1..], limit, window);
    }
  }

  /**
    In every interleaving, with any call failing and any request dropped, one window admits at most
    limit + j requests, where j increments of that window landed before its SET, and never more than
    2 * limit - 1: what the SET forgets had to be within the limit too.
   */
  lemma AdmittedPerWindow(steps: seq<Step>, limit: nat, window: Time, w: nat)
    requires limit > 0
    ensures var l := Run(IDLE, steps, limit, window);
            AdmittedIn(l.hits, w) <= limit + Min(EarlyIn(l.hits, w), limit - 1)
  {
    assert Inv(IDLE, limit);
    RunKeepsInv(IDLE, steps, limit, window);
    AllWithinLimit(Run(IDLE, steps, limit, window), limit);
    assert WithinLimit(Run(IDLE, steps, limit, window).hits, limit, w);
  }

  // ---- The bound is reached ---------------------------------------------------------------------------

  lemma {:induction false} RunAppend(l: Limiter, a: seq<Step>, b: seq<Step>, limit: nat, window: Time)
    ensures Run(l, a + b, limit, window) == Run(Run(l, a, limit, window), b, limit, window)
    decreases |a|
  {
    if a == [] {
      assert a + b == b;
    } else {
      assert (a + b)[1..] == a[1..] + b;
      RunAppend(Next(l, a[0], limit, window), a[1..], b, limit, window);
    }
  }

  lemma RunCons(l: Limiter, a: Step, rest: seq<Step>, limit: nat, window: Time)
    ensures Run(l, [a] + rest, limit, window) == Run(Next(l, a, limit, window), rest, limit, window)
  {
    assert ([a] + rest)[1..] == rest;
  }

  /** A live counter in window 1 at `n`, after `a` admissions of which `j` came early. */
  ghost predicate At(l: Limiter, n: nat, expiry: Option<Time>, pending: set<nat>, a: nat, j: nat) {
    && l.cell == Some(Entry(Number(n), expiry)) && l.windows == 1 && l.pending == pending
    && AdmittedIn(l.hits, 1) == a && EarlyIn(l.hits, 1) == j
  }

  function EarlyAfter(pending: set<nat>, j: nat, k: nat): nat {
    if pending == {} then j else j + k
  }

  lemma OneIncrement(l: Limiter, n: nat, expiry: Option<Time>, pending: set<nat>, a: nat, j: nat, now: Time, limit: nat, window: Time)
    returns (l': Limiter)
    requires At(l, n, expiry, pending, a, j) && 1 <= n < limit && (expiry.Some? ==> now < expiry.value)
    ensures l' == Next(l, Incr(0, Await(now, Answered)), limit, window)
    ensures At(l', n + 1, expiry, pending, a + 1, EarlyAfter(pending, j, 1))
  {
    l' := Next(l, Incr(0, Await(now, Answered)), limit, window);
    OneMoreHit(l.hits, Hit(1, true, pending != {}), 1);
  }

  /** `k` more increments at `now`, all within the limit, end in `end`. */
  lemma {:induction false} Increments(l: Limiter, n: nat, expiry: Option<Time>, pending: set<nat>, a: nat, j: nat,
                                      k: nat, now: Time, limit: nat, window: Time) returns (steps: seq<Step>, end: Limiter)
    requires At(l, n, expiry, pending, a, j) && n >= 1 && n + k <= limit && (expiry.Some? ==> now < expiry.value)
    ensures Run(l, steps, limit, window) == end
    ensures At(end, n + k, expiry, pending, a + k, EarlyAfter(pending, j, k))
    decreases k
  {
    if k == 0 {
      steps, end := [], l;
    } else {
      var step := Incr(0, Await(now, Answered));
      var l' := OneIncrement(l, n, expiry, pending, a, j, now, limit, window);
      steps, end := Increments(l', n + 1, expiry, pending, a + 1, EarlyAfter(pending, j, 1), k - 1, now, limit, window);
      RunCons(l, step, steps, limit, window);
      steps := [step] + steps;
    }
  }

  /** For every limit and every j below it there is a run with j early increments that admits limit + j requests. */
  lemma SurplusReached(limit: nat, j: nat, window: Time) returns (steps: seq<Step>)
    requires j < limit && window > 1
    ensures var l := Run(IDLE, steps, limit, window);
            EarlyIn(l.hits, 1) == j && AdmittedIn(l.hits, 1) == limit + j
  {
    var open, set_ := Incr(0, Await(0, Answered)), SetTtl(0, Await(0, Answered));
    var l1 := Next(IDLE, open, limit, window);
    OneMoreHit(multiset{}, Hit(1, true, false), 1);
    assert {} + {0} == {0};
    assert At(l1, 1, None, {0}, 1, 0);
    var early, l2 := Increments(l1, 1, None, {0}, 1, 0, j, 0, limit, window);
    var l3 := Next(l2, set_, limit, window);
    assert At(l3, 1, Some(window), {}, j + 1, j);
    var late, l4 := Increments(l3, 1, Some(window), {}, j + 1, j, limit - 1, 1, limit, window);
    RunCons(l2, set_, late, limit, window);
    RunAppend(l1, early, [set_] + late, limit, window);
    RunCons(IDLE, open, early + ([set_] + late), limit, window);
    steps := [open] + (early + ([set_] + late));
  }

  // ---- One request at a time --------------------------------------------------------------------------

  /** The calls of one request. */
  function RequestSteps(l: Limiter, request: nat, r: R.Request): seq<Step> {
    [Incr(request, r.incr)] + if CountReply(l.cell, r.incr) == Some(1) then [SetTtl(request, r.set_)] else []
  }

  /** With no SET outstanding, a request moves the counter as the sequential machine does and is admitted when that admits it. */
  lemma RequestIsARun(l: Limiter, request: nat, r: R.Request, limit: nat, window: Time)
    requires l.pending == {} && (l.cell.Some? ==> l.cell.value.value.Number?)
    ensures var l' := Run(l, RequestSteps(l, request, r), limit, window);
            && l'.cell == R.AfterRequest(l.cell, r, window) && l'.pending == {}
            && l'.hits == l.hits + if r.incr.reply.Applied() then multiset{Hit(l'.windows, R.Admitted(l.cell, r, limit), false)} else multiset{}
  {
    var incr, set_ := Incr(request, r.incr), SetTtl(request, r.set_);
    var l1 := Next(l, incr, limit, window);
    assert l.hits + multiset{} == l.hits;
    if CountReply(l.cell, r.incr) == Some(1) {
      assert RequestSteps(l, request, r)[1..] == [set_] && [set_][1..] == [];
      assert Run(l1, [set_], limit, window) == Run(Next(l1, set_, limit, window), [], limit, window);
    } else {
      assert RequestSteps(l, request, r)[1..] == [];
    }
  }
}
