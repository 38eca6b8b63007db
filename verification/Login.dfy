/** `login` on the shared cache: the guard, the cached profile, and the hash that is checked. */
module Login {
  import opened Prelude
  import opened Redis
  import opened Keys
  import opened Users
  import opened Database
  import opened Lockout
  import CacheAside

  /** `verify_password`: None is an error of the check itself. */
  type PasswordCheck = (string, string) -> Option<bool>

  function ProfileOf(id: Id, u: User): UserWithHash {
    UserWithHash(id, u.username, u.email, u.hash)
  }

  predicate Matches(u: User, identity: string) {
    (u.username == identity || u.email == identity) && u.active
  }

  /** What LIMIT 1 may answer: any matching row, and nothing only when there is none. */
  predicate MayPick(us: UserTable, identity: string, pick: Option<Id>) {
    match pick
    case Some(id) => id in us && Matches(us[id], identity)
    case None => forall id :: id in us ==> !Matches(us[id], identity)
  }

  /** One login request and everything its environment answers. */
  datatype Request = Request(username: string, password: string, pick: Option<Id>, calls: LoginCalls)

  /** How a login ended: whether it answered "locked", the verdict, and the profile whose hash was checked. */
  datatype Result = Result(store: Store, locked: bool, verdict: Verdict, used: Option<UserWithHash>)

  function LockKey(username: string): string {
    Render(AccountLock(username))
  }

  function AttemptsKey(username: string): string {
    Render(LoginAttempts(username))
  }

  function ProfileKey(identity: string): string {
    Render(UserProfile(identity))
  }

  function GuardOf(s: Store, username: string): Guard {
    Guard(CellOf(s, LockKey(username)), CellOf(s, AttemptsKey(username)))
  }

  /** A cached profile; errors and values of another shape count as a miss. */
  function CachedProfile(c: Cell, get: Await): Option<UserWithHash> {
    match GetReply(c, get)
    case Some(Some(Profile(user))) => Some(user)
    case _ => None
  }

  /** The profile the login works with, and the cache cell after looking it up. */
  function LookUp(c: Cell, us: UserTable, pick: Option<Id>, calls: LoginCalls): (Option<UserWithHash>, Cell) {
    var cached := CachedProfile(c, calls.get);
    if cached.Some? then (cached, c)
    else if calls.read.reply.Answered? && pick.Some? && pick.value in us then
      var user := ProfileOf(pick.value, us[pick.value]);
      (Some(user), AfterSet(c, Profile(user), CacheAside.PROFILE_TTL, calls.put))
    else (None, c)
  }

  function VerdictOf(user: Option<UserWithHash>, password: string, check: PasswordCheck): Verdict {
    if user.None? then Aborted
    else match check(password, user.value.hash)
      case None => Aborted
      case Some(ok) => if ok then Right else Wrong
  }

  function LogIn(s: Store, us: UserTable, r: Request, check: PasswordCheck): Result {
    var g := GuardOf(s, r.username);
    if Rejected(g, r.calls) then Result(s, true, Aborted, None)
    else
      var (user, cell) := LookUp(CellOf(s, ProfileKey(r.username)), us, r.pick, r.calls);
      var verdict := VerdictOf(user, r.password, check);
      var g' := Guarded(g, Attempt(r.calls, verdict));
      var s1 := Write(s, ProfileKey(r.username), cell);
      var s2 := Write(s1, LockKey(r.username), g'.lock);
      Result(Write(s2, AttemptsKey(r.username), g'.attempts),
             verdict == Wrong && Count(g, r.calls) >= MAX_FAILED, verdict, user)
  }

  // ---- Only three keys change --------------------------------------------------------------------

  lemma LoginKeysDistinct(u: string, v: string)
    ensures LockKey(u) != AttemptsKey(v) && LockKey(u) != ProfileKey(v) && AttemptsKey(u) != ProfileKey(v)
    ensures u != v ==> LockKey(u) != LockKey(v) && AttemptsKey(u) != AttemptsKey(v) && ProfileKey(u) != ProfileKey(v)
  {
    KeyCollision(AccountLock(u), LoginAttempts(v));
    KeyCollision(AccountLock(u), UserProfile(v));
    KeyCollision(LoginAttempts(u), UserProfile(v));
    KeyCollision(AccountLock(u), AccountLock(v));
    KeyCollision(LoginAttempts(u), LoginAttempts(v));
    KeyCollision(UserProfile(u), UserProfile(v));
  }

  /** A login moves its identifier's guard as the guard machine does, and its profile cell by the lookup. */
  lemma LoginProjects(s: Store, us: UserTable, r: Request, check: PasswordCheck)
    ensures var end := LogIn(s, us, r, check);
            && GuardOf(end.store, r.username) == Guarded(GuardOf(s, r.username), Attempt(r.calls, end.verdict))
            && CellOf(end.store, ProfileKey(r.username))
               == (if Rejected(GuardOf(s, r.username), r.calls) then CellOf(s, ProfileKey(r.username))
                   else LookUp(CellOf(s, ProfileKey(r.username)), us, r.pick, r.calls).1)
            && (forall key :: key != LockKey(r.username) && key != AttemptsKey(r.username) && key != ProfileKey(r.username)
                 ==> CellOf(end.store, key) == CellOf(s, key))
  {
    LoginKeysDistinct(r.username, r.username);
    if !Rejected(GuardOf(s, r.username), r.calls) {
      var end := LogIn(s, us, r, check);
      var g' := Guarded(GuardOf(s, r.username), Attempt(r.calls, end.verdict));
      var s1 := Write(s, ProfileKey(r.username), LookUp(CellOf(s, ProfileKey(r.username)), us, r.pick, r.calls).1);
      var s2 := Write(s1, LockKey(r.username), g'.lock);
      WriteFrame(s, ProfileKey(r.username), LookUp(CellOf(s, ProfileKey(r.username)), us, r.pick, r.calls).1);
      WriteFrame(s1, LockKey(r.username), g'.lock);
      WriteFrame(s2, AttemptsKey(r.username), g'.attempts);
    }
  }

  // ---- What a login decides -----------------------------------------------------------------------

  /**
    The profile the password is checked against: the cached one while it lives, else the row the query
    picks, which is then cached for 300 s.
   */
  predicate ProfileFound(c: Cell, c': Cell, us: UserTable, pick: Option<Id>, calls: LoginCalls, used: Option<UserWithHash>) {
    if calls.get.reply.Answered? && Live(c, calls.get.at) && c.value.value.Profile? then used == Some(c.value.value.user) && c' == c
    else if calls.read.reply.Answered? && pick.Some? && pick.value in us then
      var u := us[pick.value];
      && used == Some(UserWithHash(pick.value, u.username, u.email, u.hash))
      && c' == if calls.put.reply.Applied() then Some(Entry(Profile(used.value), Some(calls.put.at + 300 * SECOND))) else c
    else used.None? && c' == c
  }

  /** The verdict is that of the password check on that profile's hash; without either there is none. */
  predicate VerdictIs(used: Option<UserWithHash>, password: string, check: PasswordCheck, verdict: Verdict) {
    && (verdict == Right <==> used.Some? && check(password, used.value.hash) == Some(true))
    && (verdict == Wrong <==> used.Some? && check(password, used.value.hash) == Some(false))
  }

  /** A wrong password is one more failure, good for 900 s; the fifth locks the account for 900 s and clears the counter. */
  predicate FailureCounted(g: Guard, g': Guard, c: LoginCalls, locked: bool) {
    var n := 1 + if Live(g.attempts, c.count.at) && g.attempts.value.value.Number? then g.attempts.value.value.n else 0;
    var counted := if c.count.reply.Applied() then Some(Entry(Number(n), Some(c.count.at + 900 * SECOND))) else g.attempts;
    && (locked <==> c.count.reply.Answered? && n >= 5)
    && g'.lock == (if locked && c.lock.reply.Applied() then Some(Entry(Flag(true), Some(c.lock.at + 900 * SECOND))) else g.lock)
    && g'.attempts == if locked && c.clear.reply.Applied() then None else counted
  }

  /** The counter holds a number, as every increment leaves it. */
  predicate Counts(c: Cell) {
    c.Some? ==> c.value.value.Number?
  }

  /** What a login that is not turned away leaves of the guard. */
  predicate GuardAfter(g: Guard, g': Guard, c: LoginCalls, verdict: Verdict, locked: bool) {
    match verdict
    case Aborted => g' == g && !locked
    case Right => g'.lock == g.lock && g'.attempts == (if c.clear.reply.Applied() then None else g.attempts) && !locked
    case Wrong => Counts(g.attempts) ==> FailureCounted(g, g', c, locked)
  }

  /**
    Everything a login decides. A lock in force turns it away with nothing checked and nothing changed;
    otherwise the password is checked against the profile found, a right one clears the counter, and a
    wrong one is counted and, being the fifth, locks.
   */
  ghost predicate Decides(s: Store, s': Store, us: UserTable, r: Request, check: PasswordCheck,
                          locked: bool, verdict: Verdict, used: Option<UserWithHash>) {
    var g, g' := GuardOf(s, r.username), GuardOf(s', r.username);
    if r.calls.exists_.reply.Answered? && Live(g.lock, r.calls.exists_.at) then locked && verdict == Aborted && used.None? && g' == g
    else
      && ProfileFound(CellOf(s, ProfileKey(r.username)), CellOf(s', ProfileKey(r.username)), us, r.pick, r.calls, used)
      && VerdictIs(used, r.password, check, verdict)
      && GuardAfter(g, g', r.calls, verdict, locked)
  }

  lemma GuardMoves(g: Guard, c: LoginCalls, verdict: Verdict)
    requires !Rejected(g, c)
    ensures GuardAfter(g, Guarded(g, Attempt(c, verdict)), c, verdict, verdict == Wrong && Count(g, c) >= MAX_FAILED)
  {
  }

  lemma LoginDecides(s: Store, us: UserTable, r: Request, check: PasswordCheck)
    ensures var end := LogIn(s, us, r, check);
            Decides(s, end.store, us, r, check, end.locked, end.verdict, end.used)
  {
    var g, end := GuardOf(s, r.username), LogIn(s, us, r, check);
    LoginProjects(s, us, r, check);
    if !Rejected(g, r.calls) {
      GuardMoves(g, r.calls, end.verdict);
    }
  }

  // ---- Lockout across the whole service -----------------------------------------------------------

  /** What happens on the shared cache: a login of anyone, or a command on a key of another family. */
  datatype ServiceStep =
    | LoginStep(request: Request, users: UserTable)
    | CommandStep(key: CacheKey, cell: Cell)

  predicate Elsewhere(key: CacheKey) {
    !key.AccountLock? && !key.LoginAttempts?
  }

  function AfterStep(s: Store, step: ServiceStep, check: PasswordCheck): Store {
    match step
    case LoginStep(request, users) => LogIn(s, users, request, check).store
    case CommandStep(key, cell) => Write(s, Render(key), cell)
  }

  function AfterSteps(s: Store, steps: seq<ServiceStep>, check: PasswordCheck): Store
    decreases |steps|
  {
    if steps == [] then s else AfterSteps(AfterStep(s, steps[0], check), steps[1..], check)
  }

  /** The attempts of one identifier among everything the service does. */
  function AttemptsOf(u: string, s: Store, steps: seq<ServiceStep>, check: PasswordCheck): seq<Attempt>
    decreases |steps|
  {
    if steps == [] then []
    else
      var rest := AttemptsOf(u, AfterStep(s, steps[0], check), steps[1..], check);
      if steps[0].LoginStep? && steps[0].request.username == u
      then [Attempt(steps[0].request.calls, LogIn(s, steps[0].users, steps[0].request, check).verdict)] + rest
      else rest
  }

  lemma StepProjects(u: string, s: Store, step: ServiceStep, check: PasswordCheck)
    requires step.CommandStep? ==> Elsewhere(step.key)
    ensures GuardOf(AfterStep(s, step, check), u)
         == if step.LoginStep? && step.request.username == u
            then Guarded(GuardOf(s, u), Attempt(step.request.calls, LogIn(s, step.users, step.request, check).verdict))
            else GuardOf(s, u)
  {
    match step
    case LoginStep(request, users) =>
      LoginProjects(s, users, request, check);
      LoginKeysDistinct(u, request.username);
      LoginKeysDistinct(request.username, u);
    case CommandStep(key, cell) =>
      KeyCollision(key, AccountLock(u));
      KeyCollision(key, LoginAttempts(u));
      WriteFrame(s, Render(key), cell);
  }

  /** The guard of an identifier evolves by its own attempts only. */
  lemma {:induction false} ServiceProjects(u: string, s: Store, steps: seq<ServiceStep>, check: PasswordCheck)
    requires forall k :: 0 <= k < |steps| && steps[k].CommandStep? ==> Elsewhere(steps[k].key)
    ensures GuardOf(AfterSteps(s, steps, check), u) == RunGuard(GuardOf(s, u), AttemptsOf(u, s, steps, check))
    decreases |steps|
  {
    if steps != [] {
      StepProjects(u, s, steps[0], check);
      ServiceProjects(u, AfterStep(s, steps[0], check), steps[1..], check);
      var rest := AttemptsOf(u, AfterStep(s, steps[0], check), steps[1..], check);
      var all := AttemptsOf(u, s, steps, check);
      if steps[0].LoginStep? && steps[0].request.username == u {
        assert all[1..] == rest;
      }
    }
  }

  /** When each failure of `u` was counted, as the shared cache stood at that moment. */
  function StoreFailures(u: string, s: Store, steps: seq<ServiceStep>, check: PasswordCheck): seq<Time>
    decreases |steps|
  {
    if steps == [] then []
    else
      var rest := StoreFailures(u, AfterStep(s, steps[0], check), steps[1..], check);
      if steps[0].LoginStep? && steps[0].request.username == u then
        var verdict := LogIn(s, steps[0].users, steps[0].request, check).verdict;
        (if CountedFailure(GuardOf(s, u), Attempt(steps[0].request.calls, verdict))
         then [steps[0].request.calls.count.at] else []) + rest
      else rest
  }

  /** The failures counted on the store are those of the guard machine run on the identifier's own attempts. */
  lemma {:induction false} FailuresProject(u: string, s: Store, steps: seq<ServiceStep>, check: PasswordCheck)
    requires forall k :: 0 <= k < |steps| && steps[k].CommandStep? ==> Elsewhere(steps[k].key)
    ensures StoreFailures(u, s, steps, check) == Failures(GuardOf(s, u), AttemptsOf(u, s, steps, check))
    decreases |steps|
  {
    if steps != [] {
      StepProjects(u, s, steps[0], check);
      FailuresProject(u, AfterStep(s, steps[0], check), steps[1..], check);
      if steps[0].LoginStep? && steps[0].request.username == u {
        assert AttemptsOf(u, s, steps, check)[1..] == AttemptsOf(u, AfterStep(s, steps[0], check), steps[1..], check);
      }
    }
  }

  /**
    Over everything the service does on the cache, starting empty: in a stretch of steps in which
    `u` never logs in successfully, every 5n + 1 failures of `u` counted on the shared cache span at
    least 900n seconds.
   */
  lemma LockoutRate(u: string, before: seq<ServiceStep>, stretch: seq<ServiceStep>, check: PasswordCheck, i: nat, n: nat)
    requires forall k :: 0 <= k < |before| && before[k].CommandStep? ==> Elsewhere(before[k].key)
    requires forall k :: 0 <= k < |stretch| && stretch[k].CommandStep? ==> Elsewhere(stretch[k].key)
    requires var middle := AfterSteps(map[], before, check);
             var attempts := AttemptsOf(u, middle, stretch, check);
             && Orderly(AttemptsOf(u, map[], before, check) + attempts, 0)
             && forall k :: 0 <= k < |attempts| ==> attempts[k].verdict != Right
    ensures var f := StoreFailures(u, AfterSteps(map[], before, check), stretch, check);
            i + 5 * n < |f| ==> f[i + 5 * n] >= f[i] + 900 * SECOND * n
  {
    ServiceProjects(u, map[], before, check);
    var middle := AfterSteps(map[], before, check);
    FailuresProject(u, middle, stretch, check);
    FailureRate(AttemptsOf(u, map[], before, check), AttemptsOf(u, middle, stretch, check), i, n);
  }
}
