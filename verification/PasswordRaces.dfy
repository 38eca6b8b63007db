/**
  Logins and password resets as they interleave: every request steps at its awaits, any call may fail,
  and any request may be dropped. Which hash a login can check after a reset, whatever overlaps it.
 */
module PasswordRaces {
  import opened Prelude
  import opened Redis
  import opened Keys
  import opened Users
  import opened Database
  import opened Lockout
  import opened Login
  import opened PasswordReset
  import CacheAside

  /**
    A request, named by the call it awaits. A login is past its lock check, which only turns logins
    away and lets them pass when the cache fails; it ends when it has a profile to check against.
   */
  datatype Task =
    // login
    | Asking(name: string)
    | Missed(name: string)
    | Holding(name: string, profile: UserWithHash)
    // reset_password; `hash` is None when hashing will fail
    | Presenting(token: string, newHash: Option<string>)
    | Finding(token: string, email: string, newHash: Option<string>)
    | Updating(token: string, email: string, username: Option<string>, hash: string)
    | DroppingEmail(token: string, email: string, username: Option<string>)
    | DroppingUser(token: string, username: Option<string>)
    | DroppingToken(token: string)

  /** A login got `profile` to check the password against. */
  datatype Served = Served(id: nat, name: string, profile: UserWithHash)

  /** What happens to reset tokens, in order. */
  datatype TokenEvent =
    | Issued(token: string, at: Time)
    | Read(id: nat, token: string, at: Time)
    | Changed(id: nat, token: string)
    | Consumed(token: string)

  /** `ids` are the request identifiers used so far. */
  datatype World = World(
    now: Time,
    store: Store,
    users: UserTable,
    tasks: map<nat, Task>,
    ids: set<nat>,
    served: seq<Served>,
    log: seq<TokenEvent>)

  datatype Step =
    | BeginLogin(id: nat, name: string)
    | BeginReset(id: nat, token: string, hash: Option<string>)
    | Call(id: nat, pick: Option<Id>, call: Await)
    | Cancel(id: nat)
    | Forget(identity: string, token: string, call: Await)
    | Evict(name: string, call: Await)
    | Others(users: UserTable)
    | Command(key: CacheKey, cell: Cell)

  function Begin(w: World, id: nat, t: Task): World {
    if id in w.ids then w else w.(tasks := w.tasks[id := t], ids := w.ids + {id})
  }

  function End(w: World, id: nat): World {
    w.(tasks := w.tasks - {id})
  }

  function Become(w: World, id: nat, t: Task): World {
    w.(tasks := w.tasks[id := t])
  }

  function Serve(w: World, id: nat, name: string, profile: UserWithHash): World {
    End(w, id).(served := w.served + [Served(id, name, profile)])
  }

  function Log(w: World, e: TokenEvent): World {
    w.(log := w.log + [e])
  }

  // ---- The calls ---------------------------------------------------------------------------------

  function AskEffect(w: World, id: nat, name: string, call: Await): World {
    var cached := CachedProfile(CellOf(w.store, ProfileKey(name)), call);
    if cached.Some? then Serve(w, id, name, cached.value) else Become(w, id, Missed(name))
  }

  function ReadEffect(w: World, id: nat, name: string, pick: Option<Id>, call: Await): World {
    if call.reply.Answered? && pick.Some? && MayPick(w.users, name, pick)
    then Become(w, id, Holding(name, ProfileOf(pick.value, w.users[pick.value]))) else End(w, id)
  }

  function PutEffect(w: World, id: nat, name: string, profile: UserWithHash, call: Await): World {
    var key := ProfileKey(name);
    var s := Write(w.store, key, AfterSet(CellOf(w.store, key), Profile(profile), CacheAside.PROFILE_TTL, call));
    Serve(w.(store := s), id, name, profile)
  }

  function PresentEffect(w: World, id: nat, token: string, hash: Option<string>, call: Await): World {
    var email := TokenEmail(w.store, token, call);
    if email.Some? then Log(Become(w, id, Finding(token, email.value, hash)), Read(id, token, call.at)) else End(w, id)
  }

  function FindEffect(w: World, id: nat, token: string, email: string, hash: Option<string>, pick: Option<Id>, call: Await): World {
    if call.reply.Answered? && hash.Some? && MayPick(w.users, email, pick)
    then Become(w, id, Updating(token, email, if pick.Some? then Some(w.users[pick.value].username) else None, hash.value))
    else End(w, id)
  }

  function UpdateEffect(w: World, id: nat, token: string, email: string, username: Option<string>, hash: string, call: Await): World {
    var hit := Holders(w.users, email) != {};
    var w' := if hit && call.reply.Applied()
              then Log(w.(users := UpdateUsers(w.users, Holders(w.users, email), UpdatePassword(hash))), Changed(id, token)) else w;
    if hit && call.reply.Answered? then Become(w', id, DroppingEmail(token, email, username)) else End(w', id)
  }

  /** Without a row found there is no second delete, and this step does nothing. */
  function DropUserEffect(w: World, id: nat, token: string, username: Option<string>, call: Await): World {
    Become(if username.Some? then w.(store := Dropped(w.store, ProfileKey(username.value), call)) else w, id, DroppingToken(token))
  }

  function DropTokenEffect(w: World, id: nat, token: string, call: Await): World {
    var w' := w.(store := Dropped(w.store, TokenKey(token), call));
    End(if call.reply.Applied() then Log(w', Consumed(token)) else w', id)
  }

  function Effect(w: World, id: nat, t: Task, pick: Option<Id>, call: Await): World {
    match t
    case Asking(name) => AskEffect(w, id, name, call)
    case Missed(name) => ReadEffect(w, id, name, pick, call)
    case Holding(name, profile) => PutEffect(w, id, name, profile, call)
    case Presenting(token, hash) => PresentEffect(w, id, token, hash, call)
    case Finding(token, email, hash) => FindEffect(w, id, token, email, hash, pick, call)
    case Updating(token, email, username, hash) => UpdateEffect(w, id, token, email, username, hash, call)
    case DroppingEmail(token, email, username) =>
      Become(w.(store := Dropped(w.store, ProfileKey(email), call)), id, DroppingUser(token, username))
    case DroppingUser(token, username) => DropUserEffect(w, id, token, username, call)
    case DroppingToken(token) => DropTokenEffect(w, id, token, call)
  }

  /** Each request for a token draws one never issued before. */
  predicate IsIssued(log: seq<TokenEvent>, token: string) {
    exists j :: 0 <= j < |log| && log[j].Issued? && log[j].token == token
  }

  function ForgetEffect(w: World, identity: string, token: string, call: Await): World {
    var key := TokenKey(token);
    var w' := w.(now := call.at, store := Write(w.store, key, AfterSet(CellOf(w.store, key), Text(Lower(identity)), RESET_TTL, call)));
    if call.reply.Applied() then Log(w', Issued(token, call.at)) else w'
  }

  /** A step that is not enabled leaves the world as it is. */
  ghost function Next(w: World, step: Step): World {
    match step
    case BeginLogin(id, name) => Begin(w, id, Asking(name))
    case BeginReset(id, token, hash) => Begin(w, id, Presenting(token, hash))
    case Call(id, pick, call) =>
      if id in w.tasks && w.now <= call.at then Effect(w.(now := call.at), id, w.tasks[id], pick, call) else w
    case Cancel(id) => End(w, id)
    case Forget(identity, token, call) =>
      if w.now <= call.at && !IsIssued(w.log, token) then ForgetEffect(w, identity, token, call) else w
    case Evict(name, call) =>
      if w.now <= call.at then w.(now := call.at, store := Dropped(w.store, ProfileKey(name), call)) else w
    case Others(users) =>
      if NamesApart(users) && KeepsNamesAndHashes(w.users, users) then w.(users := users) else w
    case Command(key, cell) =>
      if key.UserProfile? || key.PasswordReset? then w else w.(store := Write(w.store, Render(key), cell))
  }

  ghost function Run(w: World, steps: seq<Step>): World
    decreases |steps|
  {
    if steps == [] then w else Run(Next(w, steps[0]), steps[1..])
  }

  lemma {:induction false} RunAppend(w: World, a: seq<Step>, b: seq<Step>)
    ensures Run(w, a + b) == Run(Run(w, a), b)
    decreases |a|
  {
    if a == [] {
      assert a + b == b;
    } else {
      assert (a + b)[1..] == a[1..] + b;
      RunAppend(Next(w, a[0]), a[1..], b);
    }
  }

  lemma RunOne(w: World, a: Step)
    ensures Run(w, [a]) == Next(w, a)
  {
    assert Run(w, [a]) == Run(Next(w, a), []);
  }

  lemma RunTwo(w: World, a: Step, b: Step)
    ensures Run(w, [a, b]) == Next(Next(w, a), b)
  {
    assert [a, b][1..] == [b];
    RunOne(Next(w, a), b);
  }

  lemma RunThree(w: World, a: Step, b: Step, c: Step)
    ensures Run(w, [a, b, c]) == Next(Next(Next(w, a), b), c)
  {
    assert [a, b, c][1..] == [b, c];
    RunTwo(Next(w, a), b, c);
  }

  // ---- What one step does to the cells of a name and a token --------------------------------------------

  lemma TokenKeysDistinct(a: string, b: string)
    ensures a != b ==> TokenKey(a) != TokenKey(b)
  {
    KeyCollision(Keys.PasswordReset(a), Keys.PasswordReset(b));
  }

  /** A write under another name, under a token, or under another family's key leaves a profile cell alone. */
  lemma ProfileFrame(s: Store, x: string, name: string, token: string, cell: Cell)
    ensures CellOf(Write(s, ProfileKey(name), cell), ProfileKey(x)) == if x == name then cell else CellOf(s, ProfileKey(x))
    ensures CellOf(Write(s, TokenKey(token), cell), ProfileKey(x)) == CellOf(s, ProfileKey(x))
    ensures CellOf(Write(s, ProfileKey(name), cell), TokenKey(token)) == CellOf(s, TokenKey(token))
  {
    LoginKeysDistinct(x, name);
    KeysApart(x, token);
    KeysApart(name, token);
  }

  // ---- Which hash a login can check ----------------------------------------------------------------------

  /** The row of `u` answers to the name `x`. */
  ghost predicate Named(w: World, u: Id, x: string) {
    NamesApart(w.users) && u in w.users && x in Names(w.users, u)
  }

  /** The hashes the row of `u` holds at some point of the run, its start included. */
  ghost function HashesSince(w: World, steps: seq<Step>, u: Id): set<string>
    decreases |steps|
  {
    (if u in w.users then {w.users[u].hash} else {}) + (if steps == [] then {} else HashesSince(Next(w, steps[0]), steps[1..], u))
  }

  /** A login by `x` that began after `w` checked a hash the row has not held since `w`. */
  ghost predicate OldHashServed(w: World, steps: seq<Step>, u: Id, x: string) {
    var end := Run(w, steps);
    exists i :: |w.served| <= i < |end.served| && end.served[i].name == x && end.served[i].id !in w.ids
                && end.served[i].profile.hash !in HashesSince(w, steps, u)
  }

  /** A login by `x` in flight holds a hash the row no longer has. */
  ghost predicate HeldOld(w: World, u: Id, x: string) {
    u in w.users && exists id :: id in w.tasks && HoldsOld(w.tasks[id], w.users[u].hash, x)
  }

  predicate HoldsOld(t: Task, hash: string, x: string) {
    t.Holding? && t.name == x && t.profile.hash != hash
  }

  predicate CellOk(c: Cell, hashes: set<string>) {
    c.Some? && c.value.value.Profile? ==> c.value.value.user.hash in hashes
  }

  /** Everything cached under `x`, held for it, or served for it from position `n` on has one of these hashes. */
  ghost predicate OnlyHashes(w: World, u: Id, x: string, n: nat, hashes: set<string>) {
    && Named(w, u, x) && w.users[u].hash in hashes
    && CellOk(CellOf(w.store, ProfileKey(x)), hashes)
    && (forall id :: id in w.tasks && w.tasks[id].Holding? && w.tasks[id].name == x ==> w.tasks[id].profile.hash in hashes)
    && n <= |w.served| && (forall i :: n <= i < |w.served| && w.served[i].name == x ==> w.served[i].profile.hash in hashes)
  }

  lemma OnlyHashesGrow(w: World, u: Id, x: string, n: nat, hashes: set<string>, hash: string)
    requires OnlyHashes(w, u, x, n, hashes)
    ensures OnlyHashes(w, u, x, n, hashes + {hash})
  {
  }

  lemma EndOnly(w: World, id: nat, u: Id, x: string, n: nat, hashes: set<string>)
    requires OnlyHashes(w, u, x, n, hashes)
    ensures OnlyHashes(End(w, id), u, x, n, hashes)
  {
  }

  lemma BecomeOnly(w: World, id: nat, t: Task, u: Id, x: string, n: nat, hashes: set<string>)
    requires OnlyHashes(w, u, x, n, hashes) && (t.Holding? && t.name == x ==> t.profile.hash in hashes)
    ensures OnlyHashes(Become(w, id, t), u, x, n, hashes)
  {
  }

  lemma ServeOnly(w: World, id: nat, name: string, profile: UserWithHash, u: Id, x: string, n: nat, hashes: set<string>)
    requires OnlyHashes(w, u, x, n, hashes) && (name == x ==> profile.hash in hashes)
    ensures OnlyHashes(Serve(w, id, name, profile), u, x, n, hashes)
  {
  }

  /** A write under some name, or under some token. */
  lemma WriteOnly(w: World, name: string, token: string, cell: Cell, u: Id, x: string, n: nat, hashes: set<string>)
    requires OnlyHashes(w, u, x, n, hashes) && (name == x ==> CellOk(cell, hashes))
    ensures OnlyHashes(w.(store := Write(w.store, ProfileKey(name), cell)), u, x, n, hashes)
    ensures OnlyHashes(w.(store := Write(w.store, TokenKey(token), cell)), u, x, n, hashes)
  {
    ProfileFrame(w.store, x, name, token, cell);
  }

  /** Another table in which the user has the same names. */
  lemma UsersOnly(w: World, users: UserTable, u: Id, x: string, n: nat, hashes: set<string>)
    requires OnlyHashes(w, u, x, n, hashes) && NamesApart(users) && u in users
    requires users[u].username == w.users[u].username && users[u].email == w.users[u].email
    ensures OnlyHashes(w.(users := users), u, x, n, hashes + {users[u].hash})
  {
  }

  lemma LogOnly(w: World, e: TokenEvent, u: Id, x: string, n: nat, hashes: set<string>)
    requires OnlyHashes(w, u, x, n, hashes)
    ensures OnlyHashes(Log(w, e), u, x, n, hashes)
  {
  }

  lemma LoginCallOnly(w: World, id: nat, pick: Option<Id>, call: Await, u: Id, x: string, n: nat, hashes: set<string>)
    requires OnlyHashes(w, u, x, n, hashes) && id in w.tasks
    requires w.tasks[id].Asking? || w.tasks[id].Missed? || w.tasks[id].Holding?
    ensures OnlyHashes(Effect(w, id, w.tasks[id], pick, call), u, x, n, hashes)
  {
    match w.tasks[id]
    case Asking(name) =>
      var cached := CachedProfile(CellOf(w.store, ProfileKey(name)), call);
      if cached.Some? {
        ServeOnly(w, id, name, cached.value, u, x, n, hashes);
      } else {
        BecomeOnly(w, id, Missed(name), u, x, n, hashes);
      }
    case Missed(name) =>
      if call.reply.Answered? && pick.Some? && MayPick(w.users, name, pick) {
        if name == x {
          OwnPick(w.users, u, x, pick);
        }
        BecomeOnly(w, id, Holding(name, ProfileOf(pick.value, w.users[pick.value])), u, x, n, hashes);
      } else {
        EndOnly(w, id, u, x, n, hashes);
      }
    case Holding(name, profile) =>
      var cell := AfterSet(CellOf(w.store, ProfileKey(name)), Profile(profile), CacheAside.PROFILE_TTL, call);
      WriteOnly(w, name, "", cell, u, x, n, hashes);
      ServeOnly(w.(store := Write(w.store, ProfileKey(name), cell)), id, name, profile, u, x, n, hashes);
  }

  lemma PasswordOnly(w: World, email: string, hash: string, e: TokenEvent, u: Id, x: string, n: nat, hashes: set<string>)
    requires OnlyHashes(w, u, x, n, hashes)
    ensures var users := UpdateUsers(w.users, Holders(w.users, email), UpdatePassword(hash));
            u in users && OnlyHashes(Log(w.(users := users), e), u, x, n, hashes + {users[u].hash})
  {
    var users := UpdateUsers(w.users, Holders(w.users, email), UpdatePassword(hash));
    PasswordKeepsNames(w.users, Holders(w.users, email), hash);
    UsersOnly(w, users, u, x, n, hashes);
    LogOnly(w.(users := users), e, u, x, n, hashes + {users[u].hash});
  }

  /** Whether a request moves on from a world or ends there. */
  lemma MovesOnly(w: World, id: nat, t: Task, u: Id, x: string, n: nat, hashes: set<string>)
    requires OnlyHashes(w, u, x, n, hashes) && !t.Holding?
    ensures OnlyHashes(Become(w, id, t), u, x, n, hashes) && OnlyHashes(End(w, id), u, x, n, hashes)
  {
  }

  lemma UpdateOnly(w: World, id: nat, t: Task, call: Await, u: Id, x: string, n: nat, hashes: set<string>)
    requires OnlyHashes(w, u, x, n, hashes) && t.Updating?
    ensures var w' := UpdateEffect(w, id, t.token, t.email, t.username, t.hash, call);
            u in w'.users && OnlyHashes(w', u, x, n, hashes + {w'.users[u].hash})
  {
    var next := DroppingEmail(t.token, t.email, t.username);
    if Holders(w.users, t.email) != {} && call.reply.Applied() {
      var users := UpdateUsers(w.users, Holders(w.users, t.email), UpdatePassword(t.hash));
      PasswordOnly(w, t.email, t.hash, Changed(id, t.token), u, x, n, hashes);
      MovesOnly(Log(w.(users := users), Changed(id, t.token)), id, next, u, x, n, hashes + {users[u].hash});
    } else {
      OnlyHashesGrow(w, u, x, n, hashes, w.users[u].hash);
      MovesOnly(w, id, next, u, x, n, hashes + {w.users[u].hash});
    }
  }

  lemma PresentOnly(w: World, id: nat, pick: Option<Id>, call: Await, u: Id, x: string, n: nat, hashes: set<string>)
    requires OnlyHashes(w, u, x, n, hashes) && id in w.tasks && (w.tasks[id].Presenting? || w.tasks[id].Finding?)
    ensures OnlyHashes(Effect(w, id, w.tasks[id], pick, call), u, x, n, hashes)
  {
    EndOnly(w, id, u, x, n, hashes);
    match w.tasks[id]
    case Presenting(token, hash) =>
      var email := TokenEmail(w.store, token, call);
      if email.Some? {
        BecomeOnly(w, id, Finding(token, email.value, hash), u, x, n, hashes);
        LogOnly(Become(w, id, Finding(token, email.value, hash)), Read(id, token, call.at), u, x, n, hashes);
      }
    case Finding(token, email, hash) =>
      if hash.Some? && MayPick(w.users, email, pick) {
        BecomeOnly(w, id, Updating(token, email, if pick.Some? then Some(w.users[pick.value].username) else None, hash.value),
                   u, x, n, hashes);
      }
  }

  lemma DropOnly(w: World, id: nat, pick: Option<Id>, call: Await, u: Id, x: string, n: nat, hashes: set<string>)
    requires OnlyHashes(w, u, x, n, hashes) && id in w.tasks
    requires w.tasks[id].DroppingEmail? || w.tasks[id].DroppingUser? || w.tasks[id].DroppingToken?
    ensures OnlyHashes(Effect(w, id, w.tasks[id], pick, call), u, x, n, hashes)
  {
    match w.tasks[id]
    case DroppingEmail(token, email, username) => DropNameOnly(w, id, email, DroppingUser(token, username), call, u, x, n, hashes);
    case DroppingUser(token, username) =>
      if username.Some? {
        DropNameOnly(w, id, username.value, DroppingToken(token), call, u, x, n, hashes);
      } else {
        BecomeOnly(w, id, DroppingToken(token), u, x, n, hashes);
      }
    case DroppingToken(token) => DropTokenOnly(w, id, token, call, u, x, n, hashes);
  }

  lemma DropNameOnly(w: World, id: nat, name: string, t: Task, call: Await, u: Id, x: string, n: nat, hashes: set<string>)
    requires OnlyHashes(w, u, x, n, hashes) && !t.Holding?
    ensures OnlyHashes(Become(w.(store := Dropped(w.store, ProfileKey(name), call)), id, t), u, x, n, hashes)
  {
    WriteOnly(w, name, "", AfterDelete(CellOf(w.store, ProfileKey(name)), call), u, x, n, hashes);
    BecomeOnly(w.(store := Dropped(w.store, ProfileKey(name), call)), id, t, u, x, n, hashes);
  }

  lemma DropTokenOnly(w: World, id: nat, token: string, call: Await, u: Id, x: string, n: nat, hashes: set<string>)
    requires OnlyHashes(w, u, x, n, hashes)
    ensures OnlyHashes(DropTokenEffect(w, id, token, call), u, x, n, hashes)
  {
    var cell := AfterDelete(CellOf(w.store, TokenKey(token)), call);
    ProfileFrame(w.store, x, "", token, cell);
    var w' := w.(store := Write(w.store, TokenKey(token), cell));
    LogOnly(w', Consumed(token), u, x, n, hashes);
    EndOnly(w', id, u, x, n, hashes);
    EndOnly(Log(w', Consumed(token)), id, u, x, n, hashes);
  }

  lemma CallOnly(w: World, id: nat, pick: Option<Id>, call: Await, u: Id, x: string, n: nat, hashes: set<string>)
    requires OnlyHashes(w, u, x, n, hashes) && id in w.tasks
    ensures var w' := Effect(w, id, w.tasks[id], pick, call);
            u in w'.users && OnlyHashes(w', u, x, n, hashes + {w'.users[u].hash})
  {
    var t := w.tasks[id];
    if t.Updating? {
      UpdateOnly(w, id, t, call, u, x, n, hashes);
    } else {
      if t.Asking? || t.Missed? || t.Holding? {
        LoginCallOnly(w, id, pick, call, u, x, n, hashes);
      } else if t.Presenting? || t.Finding? {
        PresentOnly(w, id, pick, call, u, x, n, hashes);
      } else {
        DropOnly(w, id, pick, call, u, x, n, hashes);
      }
      var w' := Effect(w, id, t, pick, call);
      OnlyHashesGrow(w', u, x, n, hashes, w'.users[u].hash);
    }
  }

  lemma StoreStepOnly(w: World, step: Step, u: Id, x: string, n: nat, hashes: set<string>)
    requires OnlyHashes(w, u, x, n, hashes) && (step.Forget? || step.Evict? || step.Command?)
    ensures OnlyHashes(Next(w, step), u, x, n, hashes)
  {
    match step
    case Forget(identity, token, call) =>
      ProfileFrame(w.store, x, "", token, AfterSet(CellOf(w.store, TokenKey(token)), Text(Lower(identity)), RESET_TTL, call));
    case Evict(name, call) => ProfileFrame(w.store, x, name, "", AfterDelete(CellOf(w.store, ProfileKey(name)), call));
    case Command(key, cell) =>
      KeyCollision(key, UserProfile(x));
      WriteFrame(w.store, Render(key), cell);
  }

  lemma TaskStepOnly(w: World, step: Step, u: Id, x: string, n: nat, hashes: set<string>)
    requires OnlyHashes(w, u, x, n, hashes) && (step.BeginLogin? || step.BeginReset? || step.Cancel?)
    ensures OnlyHashes(Next(w, step), u, x, n, hashes)
  {
    match step
    case BeginLogin(id, name) => BecomeOnly(w, id, Asking(name), u, x, n, hashes);
    case BeginReset(id, token, hash) => BecomeOnly(w, id, Presenting(token, hash), u, x, n, hashes);
    case Cancel(id) => EndOnly(w, id, u, x, n, hashes);
  }

  lemma StepOnly(w: World, step: Step, u: Id, x: string, n: nat, hashes: set<string>)
    requires OnlyHashes(w, u, x, n, hashes)
    ensures var w' := Next(w, step); u in w'.users && OnlyHashes(w', u, x, n, hashes + {w'.users[u].hash})
  {
    OnlyHashesGrow(w, u, x, n, hashes, w.users[u].hash);
    if step.Call? {
      if step.id in w.tasks && w.now <= step.call.at {
        CallOnly(w.(now := step.call.at), step.id, step.pick, step.call, u, x, n, hashes);
      }
    } else if step.Others? {
      if NamesApart(step.users) && KeepsNamesAndHashes(w.users, step.users) {
        UsersOnly(w, step.users, u, x, n, hashes);
      }
    } else {
      if step.BeginLogin? || step.BeginReset? || step.Cancel? {
        TaskStepOnly(w, step, u, x, n, hashes);
      } else {
        StoreStepOnly(w, step, u, x, n, hashes);
      }
      OnlyHashesGrow(Next(w, step), u, x, n, hashes, Next(w, step).users[u].hash);
    }
  }

  lemma {:induction false} RunOnly(w: World, steps: seq<Step>, u: Id, x: string, n: nat, hashes: set<string>)
    requires OnlyHashes(w, u, x, n, hashes)
    ensures OnlyHashes(Run(w, steps), u, x, n, hashes + HashesSince(w, steps, u))
    decreases |steps|
  {
    if steps == [] {
      assert hashes + HashesSince(w, steps, u) == hashes;
    } else {
      var w' := Next(w, steps[0]);
      StepOnly(w, steps[0], u, x, n, hashes);
      RunOnly(w', steps[1..], u, x, n, hashes + {w'.users[u].hash});
      SinceStep(w, steps, u, hashes);
    }
  }

  lemma SinceStep(w: World, steps: seq<Step>, u: Id, hashes: set<string>)
    requires steps != [] && u in w.users && w.users[u].hash in hashes && u in Next(w, steps[0]).users
    ensures var w' := Next(w, steps[0]);
            hashes + {w'.users[u].hash} + HashesSince(w', steps[1..], u) == hashes + HashesSince(w, steps, u)
  {
  }

  /**
    From a world with nothing cached under `x` and no login holding an old hash for it, every hash any
    login checks for `x` from then on, in every interleaving, is one the row has held since.
   */
  lemma NoOldHash(w: World, steps: seq<Step>, u: Id, x: string)
    requires Named(w, u, x) && CellOf(w.store, ProfileKey(x)).None? && !HeldOld(w, u, x)
    ensures var end := Run(w, steps);
            |w.served| <= |end.served| && forall i :: |w.served| <= i < |end.served| && end.served[i].name == x ==>
              end.served[i].profile.hash in HashesSince(w, steps, u)
  {
    var hash := w.users[u].hash;
    forall id | id in w.tasks && w.tasks[id].Holding? && w.tasks[id].name == x
      ensures w.tasks[id].profile.hash == hash
    {
      assert !HoldsOld(w.tasks[id], hash, x);
    }
    RunOnly(w, steps, u, x, |w.served|, {hash});
    assert {hash} + HashesSince(w, steps, u) == HashesSince(w, steps, u);
  }

  lemma {:induction false} FreshId(ids: set<nat>) returns (n: nat)
    ensures forall id :: id in ids ==> id < n
    decreases |ids|
  {
    if ids == {} {
      n := 0;
    } else {
      var x :| x in ids;
      var m := FreshId(ids - {x});
      n := if m > x then m else x + 1;
      assert forall id :: id in ids ==> id == x || id in ids - {x};
    }
  }

  /** A login holding a profile puts it in the cache, and the next login by that name is served it. */
  lemma HeldIsServed(w: World, id: nat) returns (n: nat, steps: seq<Step>)
    requires id in w.tasks && w.tasks[id].Holding? && w.tasks.Keys <= w.ids
    ensures n !in w.ids
    ensures forall k :: 0 <= k < |steps| && steps[k].Call? ==> steps[k].call.reply.Answered?
    ensures var end := Run(w, steps);
            var t := w.tasks[id];
            && end.users == w.users && end.tasks == w.tasks - {id}
            && end.served == w.served + [Served(id, t.name, t.profile), Served(n, t.name, t.profile)]
    ensures forall u :: u in w.users ==> HashesSince(w, steps, u) == {w.users[u].hash}
  {
    var t := w.tasks[id];
    n := FreshId(w.ids);
    var now := Await(w.now, Answered);
    var a, b, c := Call(id, None, now), BeginLogin(n, t.name), Call(n, None, now);
    steps := [a, b, c];
    var w1 := Next(w, a);
    var w2 := Next(w1, b);
    var w3 := Next(w2, c);
    RunThree(w, a, b, c);
    assert CellOf(w1.store, ProfileKey(t.name)) == Some(Entry(Profile(t.profile), Some(w.now + CacheAside.PROFILE_TTL)));
    assert w1.served == w.served + [Served(id, t.name, t.profile)];
    assert w3.served == w1.served + [Served(n, t.name, t.profile)];
    assert w3.tasks == w.tasks - {id};
    forall u | u in w.users
      ensures HashesSince(w, steps, u) == {w.users[u].hash}
    {
      assert steps[1..] == [b, c] && [b, c][1..] == [c] && [c][1..] == [];
      assert HashesSince(w3, [], u) == {w.users[u].hash};
      assert HashesSince(w2, [c], u) == {w.users[u].hash};
      assert HashesSince(w1, [b, c], u) == {w.users[u].hash};
    }
  }

  /**
    With nothing cached under a user's name (the delete of a reset has just taken effect), a login that
    begins later can check an old hash exactly when some login by that name, read before, still holds one.
   */
  lemma OldHashIffHeld(w: World, u: Id, x: string)
    requires Named(w, u, x) && CellOf(w.store, ProfileKey(x)).None? && w.tasks.Keys <= w.ids
    ensures (exists steps :: OldHashServed(w, steps, u, x)) <==> HeldOld(w, u, x)
  {
    if HeldOld(w, u, x) {
      var id :| id in w.tasks && HoldsOld(w.tasks[id], w.users[u].hash, x);
      var n, steps := HeldIsServed(w, id);
      var end := Run(w, steps);
      assert end.served[|w.served| + 1] == Served(n, x, w.tasks[id].profile);
      assert OldHashServed(w, steps, u, x);
    } else {
      forall steps
        ensures !OldHashServed(w, steps, u, x)
      {
        NoOldHash(w, steps, u, x);
      }
    }
  }

  // ---- One reset with nothing in between ------------------------------------------------------------------

  /** The calls a reset makes once it has read its token. */
  function FinishSteps(id: nat, pick: Option<Id>, c: ResetCalls): seq<Step> {
    [Call(id, pick, c.read), Call(id, None, c.update)] + [Call(id, None, c.dropEmail), Call(id, None, c.dropUser), Call(id, None, c.dropToken)]
  }

  predicate Ordered(now: Time, c: ResetCalls) {
    now <= c.read.at <= c.update.at <= c.dropEmail.at <= c.dropUser.at <= c.dropToken.at
  }

  /** The request reaches its update, and the update has a row to hit. */
  predicate Reaches(users: UserTable, email: string, hash: Option<string>, c: ResetCalls) {
    c.read.reply.Answered? && hash.Some? && Holders(users, email) != {}
  }

  function FinishLog(w: World, id: nat, token: string, email: string, hash: Option<string>, c: ResetCalls): seq<TokenEvent> {
    (if Reaches(w.users, email, hash, c) && c.update.reply.Applied() then [Changed(id, token)] else [])
    + (if Reaches(w.users, email, hash, c) && c.update.reply.Answered? && c.dropToken.reply.Applied() then [Consumed(token)] else [])
  }

  lemma GoneStays(w: World, id: nat, a: Await, b: Await, c: Await)
    requires id !in w.tasks
    ensures Run(w, [Call(id, None, a), Call(id, None, b), Call(id, None, c)]) == w
  {
    RunThree(w, Call(id, None, a), Call(id, None, b), Call(id, None, c));
  }

  lemma UpToUpdate(w: World, id: nat, pick: Option<Id>, c: ResetCalls)
    requires id in w.tasks && w.tasks[id].Finding? && Ordered(w.now, c) && MayPick(w.users, w.tasks[id].email, pick)
    ensures var t := w.tasks[id];
            var w' := Run(w, [Call(id, pick, c.read), Call(id, None, c.update)]);
            var reached := Reaches(w.users, t.email, t.newHash, c);
            var users := if reached && c.update.reply.Applied()
                         then UpdateUsers(w.users, Holders(w.users, t.email), UpdatePassword(t.newHash.value)) else w.users;
            var username := if pick.Some? then Some(w.users[pick.value].username) else None;
            && w'.users == users && w'.store == w.store && w'.served == w.served && w'.ids == w.ids && w'.now <= c.update.at
            && w'.log == w.log + (if reached && c.update.reply.Applied() then [Changed(id, t.token)] else [])
            && w'.tasks == if reached && c.update.reply.Answered?
                           then w.tasks[id := DroppingEmail(t.token, t.email, username)] else w.tasks - {id}
  {
    var t := w.tasks[id];
    var a, b := Call(id, pick, c.read), Call(id, None, c.update);
    RunTwo(w, a, b);
    if c.read.reply.Answered? && t.newHash.Some? {
      var username := if pick.Some? then Some(w.users[pick.value].username) else None;
      var updating := Updating(t.token, t.email, username, t.newHash.value);
      var w1 := Become(w.(now := c.read.at), id, updating);
      assert Next(w, a) == w1;
      UpdateStep(w1, id, updating, c.update);
      assert w1.tasks - {id} == w.tasks - {id};
    } else {
      var w1 := End(w.(now := c.read.at), id);
      assert Next(w, a) == w1;
      assert Next(w1, b) == w1;
    }
  }

  lemma UpdateStep(w: World, id: nat, t: Task, call: Await)
    requires id in w.tasks && w.tasks[id] == t && t.Updating? && w.now <= call.at
    ensures var w' := Next(w, Call(id, None, call));
            var hit := Holders(w.users, t.email) != {};
            && w'.users == (if hit && call.reply.Applied() then UpdateUsers(w.users, Holders(w.users, t.email), UpdatePassword(t.hash)) else w.users)
            && w'.store == w.store && w'.served == w.served && w'.ids == w.ids && w'.now == call.at
            && w'.log == w.log + (if hit && call.reply.Applied() then [Changed(id, t.token)] else [])
            && w'.tasks == if hit && call.reply.Answered? then w.tasks[id := DroppingEmail(t.token, t.email, t.username)] else w.tasks - {id}
  {
  }

  lemma UpToEnd(w: World, id: nat, c: ResetCalls)
    requires id in w.tasks && w.tasks[id].DroppingEmail? && w.now <= c.dropEmail.at <= c.dropUser.at <= c.dropToken.at
    ensures var t := w.tasks[id];
            var w' := Run(w, [Call(id, None, c.dropEmail), Call(id, None, c.dropUser), Call(id, None, c.dropToken)]);
            var s1 := Dropped(w.store, ProfileKey(t.email), c.dropEmail);
            var s2 := if t.username.Some? then Dropped(s1, ProfileKey(t.username.value), c.dropUser) else s1;
            && w'.store == Dropped(s2, TokenKey(t.token), c.dropToken)
            && w'.users == w.users && w'.served == w.served && w'.ids == w.ids && w'.tasks == w.tasks - {id}
            && w'.now == c.dropToken.at
            && w'.log == w.log + (if c.dropToken.reply.Applied() then [Consumed(t.token)] else [])
  {
    var t := w.tasks[id];
    RunThree(w, Call(id, None, c.dropEmail), Call(id, None, c.dropUser), Call(id, None, c.dropToken));
    var w1 := Next(w, Call(id, None, c.dropEmail));
    assert w1.tasks[id] == DroppingUser(t.token, t.username);
    var w2 := Next(w1, Call(id, None, c.dropUser));
    assert w2.tasks[id] == DroppingToken(t.token);
    assert w2.tasks - {id} == w.tasks - {id};
  }

  /** Undisturbed, the rest of a reset does what the sequential specification says, and logs what it does to its token. */
  lemma FinishRuns(w: World, id: nat, pick: Option<Id>, c: ResetCalls)
    requires id in w.tasks && w.tasks[id].Finding? && Ordered(w.now, c) && MayPick(w.users, w.tasks[id].email, pick)
    ensures var t := w.tasks[id];
            var w' := Run(w, FinishSteps(id, pick, c));
            && State(w'.store, w'.users) == ResetWith(State(w.store, w.users), t.token, t.email, t.newHash, pick, c).0
            && w'.tasks == w.tasks - {id} && w'.served == w.served && w'.ids == w.ids && w'.now <= c.dropToken.at
            && w'.log == w.log + FinishLog(w, id, t.token, t.email, t.newHash, c)
  {
    var t := w.tasks[id];
    var front := [Call(id, pick, c.read), Call(id, None, c.update)];
    var back := [Call(id, None, c.dropEmail), Call(id, None, c.dropUser), Call(id, None, c.dropToken)];
    RunAppend(w, front, back);
    UpToUpdate(w, id, pick, c);
    var w1 := Run(w, front);
    if Reaches(w.users, t.email, t.newHash, c) && c.update.reply.Answered? {
      UpToEnd(w1, id, c);
      assert w1.tasks - {id} == w.tasks - {id};
    } else {
      GoneStays(w1, id, c.dropEmail, c.dropUser, c.dropToken);
      if !Reaches(w.users, t.email, t.newHash, c) && c.read.reply.Answered? && t.newHash.Some? {
        assert UpdateUsers(w.users, Holders(w.users, t.email), UpdatePassword(t.newHash.value)) == w.users;
      }
    }
  }

  /** A request for a token is the sequential `Forgot`, and an eviction empties the cell of its name. */
  lemma OthersAreSteps(w: World, identity: string, token: string, pick: Option<Id>, c: ForgotCalls, call: Await)
    requires w.now <= c.set_.at && w.now <= call.at && !IsIssued(w.log, token) && c.read.reply.Answered? && pick.Some?
    ensures Next(w, Forget(identity, token, c.set_)).store == Forgot(State(w.store, w.users), identity, token, pick, c).store
    ensures forall x :: CellOf(Next(w, Evict(identity, call)).store, ProfileKey(x))
                        == if x == identity && call.reply.Applied() then None else CellOf(w.store, ProfileKey(x))
  {
    forall x
      ensures CellOf(Next(w, Evict(identity, call)).store, ProfileKey(x))
              == if x == identity && call.reply.Applied() then None else CellOf(w.store, ProfileKey(x))
    {
      ProfileFrame(w.store, x, identity, token, AfterDelete(CellOf(w.store, ProfileKey(identity)), call));
    }
  }

  /** A reset with nothing in between is the sequential `Reset`. */
  lemma ResetIsARun(w: World, id: nat, pick: Option<Id>, c: ResetCalls) returns (steps: seq<Step>)
    requires id in w.tasks && w.tasks[id].Presenting? && w.now <= c.get.at && Ordered(c.get.at, c)
    requires var email := TokenEmail(w.store, w.tasks[id].token, c.get); email.Some? ==> MayPick(w.users, email.value, pick)
    ensures var t := w.tasks[id];
            var w' := Run(w, steps);
            && State(w'.store, w'.users) == Reset(State(w.store, w.users), t.token, t.newHash, pick, c).0
            && w'.tasks == w.tasks - {id} && w'.served == w.served
  {
    var t := w.tasks[id];
    var w1 := Next(w, Call(id, None, c.get));
    RunOne(w, Call(id, None, c.get));
    if TokenEmail(w.store, t.token, c.get).Some? {
      steps := [Call(id, None, c.get)] + FinishSteps(id, pick, c);
      RunAppend(w, [Call(id, None, c.get)], FinishSteps(id, pick, c));
      FinishRuns(w1, id, pick, c);
      assert w1.tasks - {id} == w.tasks - {id};
    } else {
      steps := [Call(id, None, c.get)];
    }
  }

  /** A login's lookup with nothing in between is the sequential one. */
  lemma LookUpIsARun(w: World, id: nat, pick: Option<Id>, calls: LoginCalls)
    requires id in w.tasks && w.tasks[id].Asking? && w.now <= calls.get.at <= calls.read.at <= calls.put.at
    requires MayPick(w.users, w.tasks[id].name, pick)
    ensures var name := w.tasks[id].name;
            var w' := Run(w, [Call(id, None, calls.get), Call(id, pick, calls.read), Call(id, None, calls.put)]);
            var (user, cell) := LookUp(CellOf(w.store, ProfileKey(name)), w.users, pick, calls);
            && w'.store == Write(w.store, ProfileKey(name), cell) && w'.users == w.users
            && w'.served == w.served + (if user.Some? then [Served(id, name, user.value)] else [])
  {
    var name := w.tasks[id].name;
    var a, b, c := Call(id, None, calls.get), Call(id, pick, calls.read), Call(id, None, calls.put);
    RunThree(w, a, b, c);
    var w1 := Next(w, a);
    assert Write(w.store, ProfileKey(name), CellOf(w.store, ProfileKey(name))) == w.store;
    if CachedProfile(CellOf(w.store, ProfileKey(name)), calls.get).Some? {
      assert id !in w1.tasks;
    } else {
      assert w1.tasks[id] == Missed(name);
      var w2 := Next(w1, b);
      if calls.read.reply.Answered? && pick.Some? {
        assert w2.tasks[id] == Holding(name, ProfileOf(pick.value, w.users[pick.value]));
      } else {
        assert id !in w2.tasks;
      }
    }
  }

  // ---- After a reset, whatever overlaps it ----------------------------------------------------------------

  /** All calls answered, at one moment. */
  function AnsweredAt(now: Time): ResetCalls {
    var a := Await(now, Answered);
    ResetCalls(a, a, a, a, a, a)
  }

  /** The delete of a name takes effect: a later login by it can check an old hash exactly when one in flight holds it. */
  lemma AfterDropIffHeld(w: World, id: nat, call: Await, u: Id, x: string)
    requires Named(w, u, x) && w.tasks.Keys <= w.ids && id in w.tasks && w.now <= call.at && call.reply.Applied()
    requires (w.tasks[id].DroppingEmail? && w.tasks[id].email == x) || (w.tasks[id].DroppingUser? && w.tasks[id].username == Some(x))
    ensures var w' := Next(w, Call(id, None, call));
            (exists steps :: OldHashServed(w', steps, u, x)) <==> HeldOld(w, u, x)
  {
    var w' := Next(w, Call(id, None, call));
    OldHashIffHeld(w', u, x);
    if HeldOld(w, u, x) {
      var l :| l in w.tasks && HoldsOld(w.tasks[l], w.users[u].hash, x);
      assert l in w'.tasks && HoldsOld(w'.tasks[l], w'.users[u].hash, x);
    }
    if HeldOld(w', u, x) {
      var l :| l in w'.tasks && HoldsOld(w'.tasks[l], w'.users[u].hash, x);
      assert l in w.tasks && HoldsOld(w.tasks[l], w.users[u].hash, x);
    }
  }

  /** The rest of a reset with every call answered: the row has the new hash, the token is used up. */
  lemma ResetAnswered(w: World, id: nat, pick: Option<Id>, u: Id)
    requires id in w.tasks && w.tasks[id].Finding? && w.tasks[id].newHash.Some?
    requires MayPick(w.users, w.tasks[id].email, pick) && u in Holders(w.users, w.tasks[id].email)
    ensures var t := w.tasks[id];
            var w' := Run(w, FinishSteps(id, pick, AnsweredAt(w.now)));
            && w'.users.Keys == w.users.Keys && w'.users[u].hash == t.newHash.value && Holders(w'.users, t.email) == Holders(w.users, t.email)
            && w'.tasks == w.tasks - {id} && w'.served == w.served && w'.ids == w.ids && w'.now <= w.now
            && w'.log == w.log + [Changed(id, t.token), Consumed(t.token)]
  {
    var t := w.tasks[id];
    FinishRuns(w, id, pick, AnsweredAt(w.now));
    PasswordKeepsNames(w.users, Holders(w.users, t.email), t.newHash.value);
  }

  /**
    The run that puts an old hash back: a login has read the row, then a reset of that user runs to its
    end with every call answered, then the login writes what it read. The next login by that name
    checks the old hash although the row has the new one.
   */
  lemma PoisonedCache(w: World, login: nat, reset: nat, pick: Option<Id>, u: Id) returns (n: nat, steps: seq<Step>)
    requires NamesApart(w.users) && w.tasks.Keys <= w.ids && login != reset && u in w.users
    requires login in w.tasks && w.tasks[login].Holding? && w.tasks[login].profile == ProfileOf(u, w.users[u])
    requires w.tasks[login].name in Names(w.users, u)
    requires reset in w.tasks && w.tasks[reset].Finding? && MayPick(w.users, w.tasks[reset].email, pick)
    requires w.tasks[reset].newHash.Some? && w.tasks[reset].newHash.value != w.users[u].hash
    requires u in Holders(w.users, w.tasks[reset].email)
    ensures n !in w.ids
    ensures forall k :: 0 <= k < |steps| && steps[k].Call? ==> steps[k].call.reply.Answered?
    ensures var end := Run(w, steps);
            && u in end.users && end.users[u].hash == w.tasks[reset].newHash.value && reset !in end.tasks
            && |end.served| > 0 && end.served[|end.served| - 1] == Served(n, w.tasks[login].name, ProfileOf(u, w.users[u]))
  {
    var first := FinishSteps(reset, pick, AnsweredAt(w.now));
    ResetAnswered(w, reset, pick, u);
    var w1 := Run(w, first);
    var last;
    n, last := HeldIsServed(w1, login);
    RunAppend(w, first, last);
    steps := first + last;
  }

  /**
    The sequential case: a successful reset of a user with a lower-case email that no login overlaps,
    its two profile deletes taking effect. Whatever interleaves after it, no login by either name
    checks a hash from before it.
   */
  lemma NoOverlapNoOldHash(w: World, id: nat, pick: Option<Id>, c: ResetCalls, u: Id, x: string, later: seq<Step>)
    returns (steps: seq<Step>)
    requires Sound(State(w.store, w.users)) && u in w.users && x in Names(w.users, u) && Lower(w.users[u].email) == w.users[u].email
    requires forall i :: i in w.tasks ==> !w.tasks[i].Holding?
    requires id in w.tasks && w.tasks[id].Presenting? && w.now <= c.get.at && Ordered(c.get.at, c)
    requires var email := TokenEmail(w.store, w.tasks[id].token, c.get);
             email.Some? && MayPick(w.users, email.value, pick) && u in Holders(w.users, email.value)
    requires Reset(State(w.store, w.users), w.tasks[id].token, w.tasks[id].newHash, pick, c).1
    requires c.dropEmail.reply.Applied() && c.dropUser.reply.Applied()
    ensures var w' := Run(w, steps);
            var end := Run(w', later);
            && w.tasks[id].newHash.Some? && u in w'.users && w'.users[u].hash == w.tasks[id].newHash.value
            && |w'.served| <= |end.served|
            && forall i :: |w'.served| <= i < |end.served| && end.served[i].name == x ==>
                 end.served[i].profile.hash in HashesSince(w', later, u)
  {
    var t, st := w.tasks[id], State(w.store, w.users);
    steps := ResetIsARun(w, id, pick, c);
    ResetLeavesBlank(st, t.token, t.newHash, pick, c, u);
    NamesStay(st, t.token, t.newHash, pick, c, u);
    NoOldHash(Run(w, steps), later, u, x);
  }

  lemma NamesStay(st: State, token: string, hash: Option<string>, pick: Option<Id>, c: ResetCalls, u: Id)
    requires u in st.users
    ensures var st' := Reset(st, token, hash, pick, c).0; u in st'.users && Names(st'.users, u) == Names(st.users, u)
  {
    ResetTable(st, token, hash, pick, c);
    if Hits(st, token, hash, c) {
      PasswordKeepsNames(st.users, Holders(st.users, TokenEmail(st.store, token, c.get).value), hash.value);
    }
  }
}
