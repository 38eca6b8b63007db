/**
  Forgotten passwords and logins, one request after another on the shared cache: which hash a login
  checks after a reset, and what a reset token is good for.
 */
module PasswordReset {
  import opened Prelude
  import opened Redis
  import opened Keys
  import opened Users
  import opened Database
  import opened Lockout
  import opened Login

  const RESET_TTL: Time := 900 * SECOND

  datatype ForgotCalls = ForgotCalls(read: Await, set_: Await)

  datatype ResetCalls = ResetCalls(
    get: Await, read: Await, update: Await, dropEmail: Await, dropUser: Await, dropToken: Await)

  function TokenKey(token: string): string {
    Render(Keys.PasswordReset(token))
  }

  /** The columns and the cache the requests work on. */
  datatype State = State(store: Store, users: UserTable)

  /** `forgot_password`: the typed identity, lower-cased, is kept under a fresh token. */
  function Forgot(st: State, identity: string, token: string, pick: Option<Id>, c: ForgotCalls): State {
    if c.read.reply.Answered? && pick.Some? then
      var key := TokenKey(token);
      st.(store := Write(st.store, key, AfterSet(CellOf(st.store, key), Text(Lower(identity)), RESET_TTL, c.set_)))
    else st
  }

  /** The rows `update_password` hits. */
  function Holders(us: UserTable, email: string): set<Id> {
    set u | u in us && Lower(us[u].email) == Lower(email) && us[u].active
  }

  /** The email a token stands for, if it is still there. */
  function TokenEmail(s: Store, token: string, get: Await): Option<string> {
    match GetReply(CellOf(s, TokenKey(token)), get)
    case Some(Some(Text(email))) => Some(email)
    case _ => None
  }

  function Dropped(s: Store, key: string, a: Await): Store {
    Write(s, key, AfterDelete(CellOf(s, key), a))
  }

  /** The profile cached under the token's email goes, and the one under the username of the row found. */
  function DropProfiles(st: State, email: string, pick: Option<Id>, c: ResetCalls): Store {
    var s1 := Dropped(st.store, ProfileKey(email), c.dropEmail);
    if pick.Some? && pick.value in st.users then Dropped(s1, ProfileKey(st.users[pick.value].username), c.dropUser) else s1
  }

  /** `reset_password` from the read of the token on; `hash` is None when hashing fails. */
  function ResetWith(st: State, token: string, email: string, hash: Option<string>, pick: Option<Id>, c: ResetCalls): (State, bool) {
    if !c.read.reply.Answered? || hash.None? then (st, false)
    else
      var ids := Holders(st.users, email);
      var users := if c.update.reply.Applied() then UpdateUsers(st.users, ids, UpdatePassword(hash.value)) else st.users;
      if !c.update.reply.Answered? || ids == {} then (st.(users := users), false)
      else (State(Dropped(DropProfiles(st, email, pick, c), TokenKey(token), c.dropToken), users), true)
  }

  /** `reset_password`. The flag tells whether it reported success. */
  function Reset(st: State, token: string, hash: Option<string>, pick: Option<Id>, c: ResetCalls): (State, bool) {
    var email := TokenEmail(st.store, token, c.get);
    if email.None? then (st, false) else ResetWith(st, token, email.value, hash, pick, c)
  }

  /** Everything that happens; `Others` stands for all writes to the user table that keep names and hashes. */
  datatype Op =
    | LoginOp(request: Request)
    | ForgotOp(identity: string, token: string, forgotPick: Option<Id>, forgotCalls: ForgotCalls)
    | ResetOp(token: string, hash: Option<string>, resetPick: Option<Id>, resetCalls: ResetCalls)
    | Others(users: UserTable)
    | ForgetProfile(identity: string, call: Await)

  function Next(st: State, op: Op, check: PasswordCheck): State {
    match op
    case LoginOp(request) => st.(store := LogIn(st.store, st.users, request, check).store)
    case ForgotOp(identity, token, pick, calls) => Forgot(st, identity, token, pick, calls)
    case ResetOp(token, hash, pick, calls) => Reset(st, token, hash, pick, calls).0
    case Others(users) => st.(users := users)
    case ForgetProfile(identity, call) => st.(store := Dropped(st.store, ProfileKey(identity), call))
  }

  function Run(st: State, ops: seq<Op>, check: PasswordCheck): State
    decreases |ops|
  {
    if ops == [] then st else Run(Next(st, ops[0], check), ops[1..], check)
  }

  // ---- Assumptions ---------------------------------------------------------------------------------

  /** UNIQUE username and lower(email), and no username that is another user's email. */
  ghost predicate NamesApart(us: UserTable) {
    && (forall u, v :: u in us && v in us && us[u].username == us[v].username ==> u == v)
    && (forall u, v :: u in us && v in us && Lower(us[u].email) == Lower(us[v].email) ==> u == v)
    && (forall u, v :: u in us && v in us && us[u].username == us[v].email ==> u == v)
  }

  ghost predicate KeepsNamesAndHashes(us: UserTable, us': UserTable) {
    forall u :: u in us ==>
      u in us' && us'[u].username == us[u].username && us'[u].email == us[u].email && us'[u].hash == us[u].hash
  }

  /** The queries answer what they may. Every call may fail in every way. */
  ghost predicate Lawful(st: State, op: Op) {
    match op
    case LoginOp(request) => MayPick(st.users, request.username, request.pick)
    case ForgotOp(identity, token, pick, calls) => MayPick(st.users, identity, pick)
    case ResetOp(token, hash, pick, calls) =>
      TokenEmail(st.store, token, calls.get).Some? ==> MayPick(st.users, TokenEmail(st.store, token, calls.get).value, pick)
    case Others(users) => NamesApart(users) && KeepsNamesAndHashes(st.users, users)
    case ForgetProfile(_, _) => true
  }

  ghost predicate AllLawful(st: State, ops: seq<Op>, check: PasswordCheck)
    decreases |ops|
  {
    ops != [] ==> Lawful(st, ops[0]) && AllLawful(Next(st, ops[0], check), ops[1..], check)
  }

  // ---- What one reset does ----------------------------------------------------------------------------

  /** The request reaches its UPDATE, which takes effect on some row. */
  predicate Hits(st: State, token: string, hash: Option<string>, c: ResetCalls) {
    var email := TokenEmail(st.store, token, c.get);
    email.Some? && c.read.reply.Answered? && hash.Some? && c.update.reply.Applied() && Holders(st.users, email.value) != {}
  }

  lemma KeysApart(identity: string, token: string)
    ensures ProfileKey(identity) != TokenKey(token)
  {
    KeyCollision(UserProfile(identity), Keys.PasswordReset(token));
  }

  lemma TokenKeysApart(u: string, token: string)
    ensures LockKey(u) != TokenKey(token) && AttemptsKey(u) != TokenKey(token) && ProfileKey(u) != TokenKey(token)
  {
    KeyCollision(AccountLock(u), Keys.PasswordReset(token));
    KeyCollision(LoginAttempts(u), Keys.PasswordReset(token));
    KeyCollision(UserProfile(u), Keys.PasswordReset(token));
  }

  lemma PasswordKeepsNames(us: UserTable, ids: set<Id>, hash: string)
    ensures var us' := UpdateUsers(us, ids, UpdatePassword(hash));
            && (forall u :: u in us ==>
                 && us'[u].username == us[u].username && us'[u].email == us[u].email && us'[u].active == us[u].active
                 && us'[u].hash == if u in ids then hash else us[u].hash)
            && (NamesApart(us) ==> NamesApart(us'))
  {
    var us' := UpdateUsers(us, ids, UpdatePassword(hash));
    forall u | u in us
      ensures us'[u].username == us[u].username && us'[u].email == us[u].email && us'[u].active == us[u].active
      ensures us'[u].hash == if u in ids then hash else us[u].hash
    {
    }
  }

  /** A reset reports success exactly when its update hits a row and is answered; the table changes even when it is not. */
  lemma ResetTable(st: State, token: string, hash: Option<string>, pick: Option<Id>, c: ResetCalls)
    ensures var (st', ok) := Reset(st, token, hash, pick, c);
            && (ok <==> Hits(st, token, hash, c) && c.update.reply.Answered?)
            && (!ok ==> st'.store == st.store)
            && st'.users == if Hits(st, token, hash, c)
                            then UpdateUsers(st.users, Holders(st.users, TokenEmail(st.store, token, c.get).value), UpdatePassword(hash.value))
                            else st.users
  {
    var st' := Reset(st, token, hash, pick, c).0;
    if !Hits(st, token, hash, c) {
      assert st'.users == st.users;
    }
  }

  /** The profile cell of `x` is dropped: under the token's email, or under the username of the row found. */
  predicate Drops(st: State, token: string, pick: Option<Id>, c: ResetCalls, x: string) {
    || (Some(x) == TokenEmail(st.store, token, c.get) && c.dropEmail.reply.Applied())
    || (pick.Some? && pick.value in st.users && x == st.users[pick.value].username && c.dropUser.reply.Applied())
  }

  /** A successful reset empties the cells its deletes reach, and no other. */
  lemma ResetDrops(st: State, token: string, hash: Option<string>, pick: Option<Id>, c: ResetCalls)
    requires Reset(st, token, hash, pick, c).1
    ensures var s' := Reset(st, token, hash, pick, c).0.store;
            && CellOf(s', TokenKey(token)) == AfterDelete(CellOf(st.store, TokenKey(token)), c.dropToken)
            && (forall x :: CellOf(s', ProfileKey(x)) ==
                 if Drops(st, token, pick, c, x) then None else CellOf(st.store, ProfileKey(x)))
            && (forall other :: other != token ==> CellOf(s', TokenKey(other)) == CellOf(st.store, TokenKey(other)))
  {
    var s', email := Reset(st, token, hash, pick, c).0.store, TokenEmail(st.store, token, c.get).value;
    var s1 := DropProfiles(st, email, pick, c);
    WriteFrame(s1, TokenKey(token), AfterDelete(CellOf(s1, TokenKey(token)), c.dropToken));
    forall x
      ensures CellOf(s', ProfileKey(x)) == if Drops(st, token, pick, c, x) then None else CellOf(st.store, ProfileKey(x))
    {
      KeysApart(x, token);
      ProfilesDropped(st, email, pick, c, x);
    }
    forall other
      ensures CellOf(s1, TokenKey(other)) == CellOf(st.store, TokenKey(other))
      ensures other != token ==> CellOf(s', TokenKey(other)) == CellOf(st.store, TokenKey(other))
    {
      TokensSpared(st, email, pick, c, other);
      KeyCollision(Keys.PasswordReset(other), Keys.PasswordReset(token));
    }
  }

  lemma ProfilesDropped(st: State, email: string, pick: Option<Id>, c: ResetCalls, x: string)
    ensures CellOf(DropProfiles(st, email, pick, c), ProfileKey(x))
         == if || (x == email && c.dropEmail.reply.Applied())
               || (pick.Some? && pick.value in st.users && x == st.users[pick.value].username && c.dropUser.reply.Applied())
            then None else CellOf(st.store, ProfileKey(x))
  {
    LoginKeysDistinct(x, email);
    if pick.Some? && pick.value in st.users {
      LoginKeysDistinct(x, st.users[pick.value].username);
    }
  }

  lemma TokensSpared(st: State, email: string, pick: Option<Id>, c: ResetCalls, token: string)
    ensures CellOf(DropProfiles(st, email, pick, c), TokenKey(token)) == CellOf(st.store, TokenKey(token))
  {
    KeysApart(email, token);
    if pick.Some? && pick.value in st.users {
      KeysApart(st.users[pick.value].username, token);
    }
  }

  /** lower(email) is unique, so a password update hits at most one row. */
  lemma OneHolder(us: UserTable, email: string, u: Id)
    requires NamesApart(us) && u in Holders(us, email)
    ensures Holders(us, email) == {u}
  {
  }

  /** With clear names a token's email belongs to one user, and that is the user the lookup finds. */
  lemma ResetFindsHolder(us: UserTable, email: string, pick: Option<Id>, u: Id)
    requires NamesApart(us) && Lower(email) == email && MayPick(us, email, pick)
    requires u in Holders(us, email) && Lower(us[u].email) == us[u].email
    ensures us[u].email == email && pick == Some(u) && Holders(us, email) == {u}
  {
    OneHolder(us, email, u);
  }

  // ---- Tokens stand for lower-case text ---------------------------------------------------------------------

  ghost predicate TokensLower(s: Store) {
    forall token :: var c := CellOf(s, TokenKey(token));
                    c.Some? && c.value.value.Text? ==> Lower(c.value.value.s) == c.value.value.s
  }

  /** A login leaves every token cell alone. */
  lemma LoginKeepsTokens(st: State, r: Request, check: PasswordCheck, token: string)
    ensures CellOf(LogIn(st.store, st.users, r, check).store, TokenKey(token)) == CellOf(st.store, TokenKey(token))
  {
    LoginProjects(st.store, st.users, r, check);
    TokenKeysApart(r.username, token);
  }

  lemma NextTokensLower(st: State, op: Op, check: PasswordCheck)
    requires TokensLower(st.store)
    ensures TokensLower(Next(st, op, check).store)
  {
    var s' := Next(st, op, check).store;
    forall token
      ensures var c := CellOf(s', TokenKey(token));
              c == CellOf(st.store, TokenKey(token)) || (c.Some? && c.value.value.Text? ==> Lower(c.value.value.s) == c.value.value.s)
    {
      match op
      case LoginOp(request) => LoginKeepsTokens(st, request, check, token);
      case ForgotOp(identity, other, _, _) =>
        KeyCollision(Keys.PasswordReset(token), Keys.PasswordReset(other));
        LowerTwice(identity);
      case ResetOp(other, hash, pick, calls) =>
        ResetTable(st, other, hash, pick, calls);
        if Reset(st, other, hash, pick, calls).1 {
          ResetDrops(st, other, hash, pick, calls);
        }
      case Others(_) =>
      case ForgetProfile(identity, _) => KeysApart(identity, token);
    }
  }

  lemma {:induction false} RunTokensLower(st: State, ops: seq<Op>, check: PasswordCheck)
    requires TokensLower(st.store)
    ensures TokensLower(Run(st, ops, check).store)
    decreases |ops|
  {
    if ops != [] {
      NextTokensLower(st, ops[0], check);
      RunTokensLower(Next(st, ops[0], check), ops[1..], check);
    }
  }

  // ---- Which hash a login can check ---------------------------------------------------------------------------

  /** The two identities a user can log in with. */
  function Names(us: UserTable, u: Id): set<string>
    requires u in us
  {
    {us[u].username, us[u].email}
  }

  /** Whatever is cached under the user's two names is a profile of that user with one of these hashes, as is the row. */
  ghost predicate OnlyThese(st: State, u: Id, hashes: set<string>) {
    && u in st.users && st.users[u].hash in hashes
    && forall x :: x in Names(st.users, u) ==> ProfileOk(CellOf(st.store, ProfileKey(x)), u, hashes)
  }

  ghost predicate ProfileOk(c: Cell, u: Id, hashes: set<string>) {
    c.Some? && c.value.value.Profile? ==> c.value.value.user.id == u && c.value.value.user.hash in hashes
  }

  /** Nothing is cached under the user's two names. */
  ghost predicate Blank(st: State, u: Id) {
    u in st.users && forall x :: x in Names(st.users, u) ==> CellOf(st.store, ProfileKey(x)).None?
  }

  /** The hashes the user's row holds at some point of the run, its start included. */
  ghost function HashesSince(st: State, ops: seq<Op>, check: PasswordCheck, u: Id): set<string>
    decreases |ops|
  {
    (if u in st.users then {st.users[u].hash} else {})
    + (if ops == [] then {} else HashesSince(Next(st, ops[0], check), ops[1..], check, u))
  }

  /** A lookup by one of the user's names finds that user or no one. */
  lemma OwnPick(us: UserTable, u: Id, x: string, pick: Option<Id>)
    requires NamesApart(us) && u in us && x in Names(us, u) && MayPick(us, x, pick)
    ensures pick.Some? ==> pick.value == u
  {
  }

  /** A login by one of the user's names checks one of these hashes, and caches no other. */
  lemma LoginOnlyThese(st: State, r: Request, check: PasswordCheck, u: Id, hashes: set<string>)
    requires NamesApart(st.users) && OnlyThese(st, u, hashes) && MayPick(st.users, r.username, r.pick)
    ensures OnlyThese(st.(store := LogIn(st.store, st.users, r, check).store), u, hashes)
    ensures var used := LogIn(st.store, st.users, r, check).used;
            r.username in Names(st.users, u) && used.Some? ==> used.value.id == u && used.value.hash in hashes
  {
    var s' := LogIn(st.store, st.users, r, check).store;
    forall x | x in Names(st.users, u)
      ensures ProfileOk(CellOf(s', ProfileKey(x)), u, hashes)
    {
      assert ProfileOk(CellOf(st.store, ProfileKey(x)), u, hashes);
      if x == r.username {
        OwnLogin(st, r, check, u, hashes);
      } else {
        LoginProjects(st.store, st.users, r, check);
        LoginKeysDistinct(x, r.username);
        LoginKeysDistinct(r.username, x);
      }
    }
    if r.username in Names(st.users, u) {
      assert ProfileOk(CellOf(st.store, ProfileKey(r.username)), u, hashes);
      OwnLogin(st, r, check, u, hashes);
    }
  }

  lemma OwnLogin(st: State, r: Request, check: PasswordCheck, u: Id, hashes: set<string>)
    requires NamesApart(st.users) && u in st.users && st.users[u].hash in hashes
    requires r.username in Names(st.users, u) && MayPick(st.users, r.username, r.pick)
    requires ProfileOk(CellOf(st.store, ProfileKey(r.username)), u, hashes)
    ensures var end := LogIn(st.store, st.users, r, check);
            && ProfileOk(CellOf(end.store, ProfileKey(r.username)), u, hashes)
            && (end.used.Some? ==> end.used.value.id == u && end.used.value.hash in hashes)
  {
    OwnPick(st.users, u, r.username, r.pick);
    LoginProjects(st.store, st.users, r, check);
  }

  /** Any reset, however its calls end, adds at most its own hash. */
  lemma ResetOnlyThese(st: State, op: Op, check: PasswordCheck, u: Id, hashes: set<string>)
    requires op.ResetOp? && NamesApart(st.users) && OnlyThese(st, u, hashes)
    ensures NamesApart(Next(st, op, check).users)
    ensures var st' := Next(st, op, check); u in st'.users && OnlyThese(st', u, hashes + {st'.users[u].hash})
  {
    var st' := Next(st, op, check);
    ResetTable(st, op.token, op.hash, op.resetPick, op.resetCalls);
    if op.hash.Some? && TokenEmail(st.store, op.token, op.resetCalls.get).Some? {
      PasswordKeepsNames(st.users, Holders(st.users, TokenEmail(st.store, op.token, op.resetCalls.get).value), op.hash.value);
    }
    forall x | x in Names(st'.users, u)
      ensures ProfileOk(CellOf(st'.store, ProfileKey(x)), u, hashes + {st'.users[u].hash})
    {
      assert ProfileOk(CellOf(st.store, ProfileKey(x)), u, hashes);
      if Reset(st, op.token, op.hash, op.resetPick, op.resetCalls).1 {
        ResetDrops(st, op.token, op.hash, op.resetPick, op.resetCalls);
      }
    }
  }

  lemma NextOnlyThese(st: State, op: Op, check: PasswordCheck, u: Id, hashes: set<string>)
    requires NamesApart(st.users) && Lawful(st, op) && OnlyThese(st, u, hashes)
    ensures NamesApart(Next(st, op, check).users)
    ensures var st' := Next(st, op, check); u in st'.users && OnlyThese(st', u, hashes + {st'.users[u].hash})
  {
    if op.ResetOp? {
      ResetOnlyThese(st, op, check, u, hashes);
    } else {
      var st' := Next(st, op, check);
      assert hashes + {st'.users[u].hash} == hashes;
      forall x | x in Names(st'.users, u)
        ensures ProfileOk(CellOf(st'.store, ProfileKey(x)), u, hashes)
      {
        assert ProfileOk(CellOf(st.store, ProfileKey(x)), u, hashes);
        match op
        case LoginOp(request) =>
          LoginOnlyThese(st, request, check, u, hashes);
          assert ProfileOk(CellOf(st'.store, ProfileKey(x)), u, hashes);
        case ForgotOp(_, token, _, _) => KeysApart(x, token);
        case Others(_) =>
        case ForgetProfile(identity, _) => LoginKeysDistinct(x, identity);
      }
    }
  }

  lemma {:induction false} RunOnlyThese(st: State, ops: seq<Op>, check: PasswordCheck, u: Id, hashes: set<string>)
    requires NamesApart(st.users) && AllLawful(st, ops, check) && OnlyThese(st, u, hashes)
    ensures NamesApart(Run(st, ops, check).users)
    ensures OnlyThese(Run(st, ops, check), u, hashes + HashesSince(st, ops, check, u))
    decreases |ops|
  {
    if ops == [] {
      assert hashes + HashesSince(st, ops, check, u) == hashes;
    } else {
      var st' := Next(st, ops[0], check);
      NextOnlyThese(st, ops[0], check, u, hashes);
      RunOnlyThese(st', ops[1..], check, u, hashes + {st'.users[u].hash});
      assert hashes + {st'.users[u].hash} + HashesSince(st', ops[1..], check, u) == hashes + HashesSince(st, ops, check, u);
    }
  }

  /**
    From any state with nothing cached under a user's names (the empty cache, or right after a reset),
    through any lawful history with any calls failing: a login by either name checks a hash the row
    has held since, and the current one if the row's hash has not changed since.
   */
  lemma LoginUsesCurrentHash(st: State, ops: seq<Op>, u: Id, r: Request, check: PasswordCheck)
    requires NamesApart(st.users) && Blank(st, u) && AllLawful(st, ops, check)
    requires var end := Run(st, ops, check);
             MayPick(end.users, r.username, r.pick) && u in end.users && r.username in Names(end.users, u)
    ensures var end := Run(st, ops, check);
            var used := LogIn(end.store, end.users, r, check).used;
            used.Some? ==>
              && used.value.id == u && used.value.hash in HashesSince(st, ops, check, u)
              && (HashesSince(st, ops, check, u) == {st.users[u].hash} ==> used.value.hash == end.users[u].hash)
  {
    var hashes := HashesSince(st, ops, check, u);
    RunOnlyThese(st, ops, check, u, {st.users[u].hash});
    assert {st.users[u].hash} + hashes == hashes;
    LoginOnlyThese(Run(st, ops, check), r, check, u, hashes);
  }

  // ---- After a reset ------------------------------------------------------------------------------------------

  /**
    For a user whose email is stored in lower case, a reset that changes the password leaves a profile
    cached under one of the user's names exactly when the update went unanswered, or the delete for
    that name did not take effect.
   */
  lemma ResetBlanks(st: State, token: string, hash: Option<string>, pick: Option<Id>, c: ResetCalls, u: Id, x: string)
    requires NamesApart(st.users) && TokensLower(st.store) && Hits(st, token, hash, c) && Lawful(st, ResetOp(token, hash, pick, c))
    requires u in Holders(st.users, TokenEmail(st.store, token, c.get).value) && Lower(st.users[u].email) == st.users[u].email
    requires x in Names(st.users, u) && CellOf(st.store, ProfileKey(x)).Some?
    ensures CellOf(Reset(st, token, hash, pick, c).0.store, ProfileKey(x)).Some?
       <==> || c.update.reply.Unacknowledged?
            || !((x == st.users[u].email && c.dropEmail.reply.Applied()) || (x == st.users[u].username && c.dropUser.reply.Applied()))
  {
    ResetTable(st, token, hash, pick, c);
    ResetFindsHolder(st.users, TokenEmail(st.store, token, c.get).value, pick, u);
    if c.update.reply.Answered? {
      ProfileAfterReset(st, token, hash, pick, c, x);
    }
  }

  lemma ProfileAfterReset(st: State, token: string, hash: Option<string>, pick: Option<Id>, c: ResetCalls, x: string)
    requires Reset(st, token, hash, pick, c).1
    ensures CellOf(Reset(st, token, hash, pick, c).0.store, ProfileKey(x))
         == if Drops(st, token, pick, c, x) then None else CellOf(st.store, ProfileKey(x))
  {
    ResetDrops(st, token, hash, pick, c);
  }

  lemma ResetLeavesBlank(st: State, token: string, hash: Option<string>, pick: Option<Id>, c: ResetCalls, u: Id)
    requires NamesApart(st.users) && TokensLower(st.store) && Lawful(st, ResetOp(token, hash, pick, c))
    requires Reset(st, token, hash, pick, c).1 && c.dropEmail.reply.Applied() && c.dropUser.reply.Applied()
    requires TokenEmail(st.store, token, c.get).Some? && u in Holders(st.users, TokenEmail(st.store, token, c.get).value)
    requires Lower(st.users[u].email) == st.users[u].email
    ensures var st' := Reset(st, token, hash, pick, c).0;
            hash.Some? && NamesApart(st'.users) && Blank(st', u) && st'.users[u].hash == hash.value
  {
    ResetTable(st, token, hash, pick, c);
    PasswordKeepsNames(st.users, Holders(st.users, TokenEmail(st.store, token, c.get).value), hash.value);
    ResetFindsHolder(st.users, TokenEmail(st.store, token, c.get).value, pick, u);
    ProfileAfterReset(st, token, hash, pick, c, st.users[u].username);
    ProfileAfterReset(st, token, hash, pick, c, st.users[u].email);
  }

  /** What every lawful history keeps. */
  ghost predicate Sound(st: State) {
    NamesApart(st.users) && TokensLower(st.store)
  }

  lemma HistoryIsSound(users: UserTable, ops: seq<Op>, check: PasswordCheck)
    requires NamesApart(users) && AllLawful(State(map[], users), ops, check)
    ensures Sound(Run(State(map[], users), ops, check))
  {
    RunTokensLower(State(map[], users), ops, check);
    RunNamesApart(State(map[], users), ops, check);
  }

  /**
    After one successful reset whose own two profile deletes took effect, no later login by the user's
    username or email checks a hash from before it: only hashes the row has held since. All other
    requests, before and after, other resets included, may fail in any way.
   */
  lemma NoOldHashAfterReset(st: State, token: string, hash: string, pick: Option<Id>, c: ResetCalls, u: Id,
                            after: seq<Op>, r: Request, check: PasswordCheck)
    requires Sound(st) && Lawful(st, ResetOp(token, Some(hash), pick, c)) && Reset(st, token, Some(hash), pick, c).1
    requires c.dropEmail.reply.Applied() && c.dropUser.reply.Applied()
    requires TokenEmail(st.store, token, c.get).Some? && u in Holders(st.users, TokenEmail(st.store, token, c.get).value)
    requires Lower(st.users[u].email) == st.users[u].email
    requires AllLawful(Reset(st, token, Some(hash), pick, c).0, after, check)
    requires var end := Run(Reset(st, token, Some(hash), pick, c).0, after, check);
             MayPick(end.users, r.username, r.pick) && u in end.users && r.username in Names(end.users, u)
    ensures var st' := Reset(st, token, Some(hash), pick, c).0;
            var end := Run(st', after, check);
            var used := LogIn(end.store, end.users, r, check).used;
            && u in st'.users && st'.users[u].hash == hash
            && (used.Some? ==> used.value.id == u && used.value.hash in HashesSince(st', after, check, u))
  {
    ResetLeavesBlank(st, token, Some(hash), pick, c, u);
    LoginUsesCurrentHash(Reset(st, token, Some(hash), pick, c).0, after, u, r, check);
  }

  lemma {:induction false} RunNamesApart(st: State, ops: seq<Op>, check: PasswordCheck)
    requires NamesApart(st.users) && AllLawful(st, ops, check)
    ensures NamesApart(Run(st, ops, check).users)
    decreases |ops|
  {
    if ops != [] {
      var op := ops[0];
      if op.ResetOp? {
        ResetTable(st, op.token, op.hash, op.resetPick, op.resetCalls);
        if op.hash.Some? && TokenEmail(st.store, op.token, op.resetCalls.get).Some? {
          PasswordKeepsNames(st.users, Holders(st.users, TokenEmail(st.store, op.token, op.resetCalls.get).value), op.hash.value);
        }
      }
      RunNamesApart(Next(st, op, check), ops[1..], check);
    }
  }

  // ---- Mixed-case emails -------------------------------------------------------------------------------

  /**
    A successful reset with working deletes drops the profile cached under a holder's stored email
    exactly when that email is the token's lower-case text or the username the lookup found.
   */
  lemma EmailProfileDropped(st: State, token: string, hash: Option<string>, pick: Option<Id>, c: ResetCalls, u: Id)
    requires Reset(st, token, hash, pick, c).1
    requires c.dropEmail.reply.Applied() && c.dropUser.reply.Applied()
    requires u in st.users && CellOf(st.store, ProfileKey(st.users[u].email)).Some?
    ensures CellOf(Reset(st, token, hash, pick, c).0.store, ProfileKey(st.users[u].email)) == None
       <==> (|| Some(st.users[u].email) == TokenEmail(st.store, token, c.get)
             || (pick.Some? && pick.value in st.users && st.users[u].email == st.users[pick.value].username))
  {
    ResetDrops(st, token, hash, pick, c);
  }

  lemma MixedCaseProfileStays(st: State, token: string, hash: string, pick: Option<Id>, c: ResetCalls, u: Id)
    requires Reset(st, token, Some(hash), pick, c).1 && u in st.users && st.users[u].active
    requires TokenEmail(st.store, token, c.get) == Some(Lower(st.users[u].email))
    requires Lower(st.users[u].email) != st.users[u].email
    requires pick.Some? && pick.value in st.users ==> st.users[pick.value].username != st.users[u].email
    ensures var st' := Reset(st, token, Some(hash), pick, c).0;
            && CellOf(st'.store, ProfileKey(st.users[u].email)) == CellOf(st.store, ProfileKey(st.users[u].email))
            && u in st'.users && st'.users[u].hash == hash
  {
    ResetDrops(st, token, Some(hash), pick, c);
    ResetTable(st, token, Some(hash), pick, c);
    var email := Lower(st.users[u].email);
    LowerTwice(st.users[u].email);
    assert u in Holders(st.users, email);
    PasswordKeepsNames(st.users, Holders(st.users, email), hash);
  }

  /**
    So for an email stored in mixed case the old password still works for a while: the profile cached
    under it outlives the reset, and a login by that email checks the old hash.
   */
  lemma MixedCaseKeepsOldHash(st: State, token: string, hash: string, pick: Option<Id>, c: ResetCalls,
                              u: Id, r: Request, check: PasswordCheck)
    requires Reset(st, token, Some(hash), pick, c).1
    requires u in st.users && st.users[u].active && st.users[u].hash != hash
    requires TokenEmail(st.store, token, c.get) == Some(Lower(st.users[u].email))
    requires Lower(st.users[u].email) != st.users[u].email
    requires pick.Some? && pick.value in st.users ==> st.users[pick.value].username != st.users[u].email
    requires r.username == st.users[u].email && r.calls.get.reply.Answered?
    requires Visible(CellOf(st.store, ProfileKey(r.username)), r.calls.get.at) == Some(Profile(ProfileOf(u, st.users[u])))
    requires var st' := Reset(st, token, Some(hash), pick, c).0; !Rejected(GuardOf(st'.store, r.username), r.calls)
    ensures var st' := Reset(st, token, Some(hash), pick, c).0;
            var used := LogIn(st'.store, st'.users, r, check).used;
            && st'.users[u].hash == hash
            && used.Some? && used.value.id == u && used.value.hash != hash
  {
    MixedCaseProfileStays(st, token, hash, pick, c, u);

  }

  // ---- What a token is good for ---------------------------------------------------------------------------

  /** The reset got as far as deleting its token, and the delete took effect. */
  predicate Consumes(c: ResetCalls) {
    c.update.reply.Answered? && c.dropToken.reply.Applied()
  }

  /** A reset that changes a password uses its token up exactly when the update is answered and the token's delete takes effect. */
  lemma TokenConsumedIff(st: State, token: string, hash: Option<string>, pick: Option<Id>, c: ResetCalls)
    requires Hits(st, token, hash, c)
    ensures var cell := CellOf(Reset(st, token, hash, pick, c).0.store, TokenKey(token));
            if Consumes(c) then cell == None else cell == CellOf(st.store, TokenKey(token)) && cell.Some?
  {
    ResetTable(st, token, hash, pick, c);
    if c.update.reply.Answered? {
      ResetDrops(st, token, hash, pick, c);
    }
  }

  /** The token is read before its expiry, and the calls up to the update go through. */
  predicate PresentedInTime(st: State, token: string, c: ResetCalls) {
    && c.get.reply.Answered? && Live(CellOf(st.store, TokenKey(token)), c.get.at)
    && c.read.reply.Answered? && c.update.reply.Applied()
  }

  /** A password update changes no email, so it hits the same rows the next time. */
  lemma HoldersStay(st: State, token: string, hash: Option<string>, pick: Option<Id>, c: ResetCalls, email: string)
    ensures Holders(Reset(st, token, hash, pick, c).0.users, email) == Holders(st.users, email)
  {
    ResetTable(st, token, hash, pick, c);
    if Hits(st, token, hash, c) {
      PasswordKeepsNames(st.users, Holders(st.users, TokenEmail(st.store, token, c.get).value), hash.value);
    }
  }

  /**
    So a second presentation of the token, before its expiry and with its calls going through, changes
    the password again exactly when the first one did not use the token up.
   */
  lemma TokenWorksAgainIff(st: State, token: string, hash: Option<string>, pick: Option<Id>, c: ResetCalls,
                           hash': string, c': ResetCalls)
    requires Hits(st, token, hash, c) && PresentedInTime(st, token, c')
    ensures Hits(Reset(st, token, hash, pick, c).0, token, Some(hash'), c') <==> !Consumes(c)
  {
    TokenConsumedIff(st, token, hash, pick, c);
    var email := TokenEmail(st.store, token, c.get).value;
    HoldersStay(st, token, hash, pick, c, email);
  }

  /** The update whose answer is lost: the password is changed, the caller told otherwise, and the token kept. */
  lemma UnansweredUpdateKeepsToken(st: State, token: string, hash: Option<string>, pick: Option<Id>, c: ResetCalls, u: Id)
    requires Hits(st, token, hash, c) && c.update.reply.Unacknowledged?
    requires u in Holders(st.users, TokenEmail(st.store, token, c.get).value)
    ensures var (st', ok) := Reset(st, token, hash, pick, c);
            && !ok && st'.store == st.store && u in st'.users && st'.users[u].hash == hash.value
            && (forall hash': string, c' :: PresentedInTime(st, token, c') ==> Hits(st', token, Some(hash'), c'))
  {
    ResetTable(st, token, hash, pick, c);
    PasswordKeepsNames(st.users, Holders(st.users, TokenEmail(st.store, token, c.get).value), hash.value);
    forall hash': string, c' | PresentedInTime(st, token, c')
      ensures Hits(Reset(st, token, hash, pick, c).0, token, Some(hash'), c')
    {
      TokenWorksAgainIff(st, token, hash, pick, c, hash', c');
    }
  }

  // ---- Tokens over whole runs ---------------------------------------------------------------------------------

  /** A token as issued. */
  datatype Issue = Issue(token: string, at: Time)

  /** A password change made with a token: when it was presented, and whether that used it up. */
  datatype Use = Use(token: string, at: Time, consumed: bool)

  /** The tokens stored and the password changes made so far, in order. */
  datatype Ledger = Ledger(issued: seq<Issue>, used: seq<Use>)

  function Booked(l: Ledger, st: State, op: Op): Ledger {
    match op
    case ForgotOp(identity, token, pick, calls) =>
      if calls.read.reply.Answered? && pick.Some? && calls.set_.reply.Applied()
      then l.(issued := l.issued + [Issue(token, calls.set_.at)]) else l
    case ResetOp(token, hash, pick, calls) =>
      if Hits(st, token, hash, calls) then l.(used := l.used + [Use(token, calls.get.at, Consumes(calls))]) else l
    case _ => l
  }

  function Books(st: State, ops: seq<Op>, l: Ledger, check: PasswordCheck): Ledger
    decreases |ops|
  {
    if ops == [] then l else Books(Next(st, ops[0], check), ops[1..], Booked(l, st, ops[0]), check)
  }

  /** Each request for a token draws one never stored before. */
  ghost predicate FreshTokens(st: State, ops: seq<Op>, l: Ledger, check: PasswordCheck)
    decreases |ops|
  {
    ops != [] ==>
      && (ops[0].ForgotOp? ==> forall i :: 0 <= i < |l.issued| ==> l.issued[i].token != ops[0].token)
      && FreshTokens(Next(st, ops[0], check), ops[1..], Booked(l, st, ops[0]), check)
  }

  /** At `from` less than 900 s had passed since the token was issued. */
  ghost predicate WasIssued(issued: seq<Issue>, token: string, from: int) {
    exists i :: 0 <= i < |issued| && issued[i].token == token && from < issued[i].at + 900 * SECOND
  }

  ghost predicate NotConsumed(used: seq<Use>, token: string) {
    forall k :: 0 <= k < |used| && used[k].token == token ==> !used[k].consumed
  }

  /** A stored token was issued, expires 900 s after that, and no use of it has used it up. */
  ghost predicate TokenOk(c: Cell, l: Ledger, token: string) {
    c.Some? ==>
      && c.value.expiry.Some?
      && (exists i :: 0 <= i < |l.issued| && l.issued[i].token == token && l.issued[i].at + 900 * SECOND == c.value.expiry.value)
      && NotConsumed(l.used, token)
  }

  /** Every use was made in time, and no token was used again once used up. */
  ghost predicate UsesOk(l: Ledger) {
    && (forall k :: 0 <= k < |l.used| ==> WasIssued(l.issued, l.used[k].token, l.used[k].at))
    && (forall j, k :: 0 <= j < k < |l.used| && l.used[j].token == l.used[k].token ==> !l.used[j].consumed)
  }

  ghost predicate Balanced(s: Store, l: Ledger) {
    UsesOk(l) && forall token :: TokenOk(CellOf(s, TokenKey(token)), l, token)
  }

  lemma SameTokensBalanced(s: Store, s': Store, l: Ledger)
    requires Balanced(s, l) && forall token :: CellOf(s', TokenKey(token)) == CellOf(s, TokenKey(token))
    ensures Balanced(s', l)
  {
    forall token
      ensures TokenOk(CellOf(s', TokenKey(token)), l, token)
    {
      assert TokenOk(CellOf(s, TokenKey(token)), l, token);
    }
  }

  lemma IssueGrows(l: Ledger, issue: Issue, c: Cell, token: string)
    requires TokenOk(c, l, token)
    ensures TokenOk(c, l.(issued := l.issued + [issue]), token)
  {
    if c.Some? {
      var i :| 0 <= i < |l.issued| && l.issued[i].token == token && l.issued[i].at + 900 * SECOND == c.value.expiry.value;
      assert (l.issued + [issue])[i] == l.issued[i];
    }
  }

  lemma IssueKeepsUses(l: Ledger, issue: Issue)
    requires UsesOk(l)
    ensures UsesOk(l.(issued := l.issued + [issue]))
  {
    forall k | 0 <= k < |l.used|
      ensures WasIssued(l.issued + [issue], l.used[k].token, l.used[k].at)
    {
      assert WasIssued(l.issued, l.used[k].token, l.used[k].at);
      var i :| 0 <= i < |l.issued| && l.issued[i].token == l.used[k].token && l.used[k].at < l.issued[i].at + 900 * SECOND;
      assert (l.issued + [issue])[i] == l.issued[i];
    }
  }

  lemma ForgotBalanced(st: State, op: Op, l: Ledger, check: PasswordCheck)
    requires op.ForgotOp? && Balanced(st.store, l)
    requires forall i :: 0 <= i < |l.issued| ==> l.issued[i].token != op.token
    ensures Balanced(Next(st, op, check).store, Booked(l, st, op))
  {
    var s', l' := Next(st, op, check).store, Booked(l, st, op);
    if l' != l {
      var issue := Issue(op.token, op.forgotCalls.set_.at);
      IssueKeepsUses(l, issue);
      forall token
        ensures TokenOk(CellOf(s', TokenKey(token)), l', token)
      {
        KeyCollision(Keys.PasswordReset(token), Keys.PasswordReset(op.token));
        if token == op.token {
          assert l'.issued[|l.issued|] == issue;
        } else {
          assert TokenOk(CellOf(st.store, TokenKey(token)), l, token);
          IssueGrows(l, issue, CellOf(st.store, TokenKey(token)), token);
        }
      }
    } else {
      SameTokensBalanced(st.store, s', l);
    }
  }

  lemma ResetBalanced(st: State, op: Op, l: Ledger, check: PasswordCheck)
    requires op.ResetOp? && Balanced(st.store, l)
    ensures Balanced(Next(st, op, check).store, Booked(l, st, op))
  {
    var s', l' := Next(st, op, check).store, Booked(l, st, op);
    ResetTable(st, op.token, op.hash, op.resetPick, op.resetCalls);
    if Hits(st, op.token, op.hash, op.resetCalls) {
      assert TokenOk(CellOf(st.store, TokenKey(op.token)), l, op.token);
      UseKeepsUses(l, Use(op.token, op.resetCalls.get.at, Consumes(op.resetCalls)), CellOf(st.store, TokenKey(op.token)));
      TokenConsumedIff(st, op.token, op.hash, op.resetPick, op.resetCalls);
      forall token
        ensures TokenOk(CellOf(s', TokenKey(token)), l', token)
      {
        assert TokenOk(CellOf(st.store, TokenKey(token)), l, token);
        if Reset(st, op.token, op.hash, op.resetPick, op.resetCalls).1 {
          ResetDrops(st, op.token, op.hash, op.resetPick, op.resetCalls);
        }
      }
    } else {
      SameTokensBalanced(st.store, s', l);
    }
  }

  lemma UseKeepsUses(l: Ledger, use: Use, c: Cell)
    requires UsesOk(l) && TokenOk(c, l, use.token) && Live(c, use.at)
    ensures UsesOk(l.(used := l.used + [use]))
  {
    var i :| 0 <= i < |l.issued| && l.issued[i].token == use.token && l.issued[i].at + 900 * SECOND == c.value.expiry.value;
    assert WasIssued(l.issued, use.token, use.at);
    var used := l.used + [use];
    forall k | 0 <= k < |used|
      ensures WasIssued(l.issued, used[k].token, used[k].at)
    {
      assert k < |l.used| ==> WasIssued(l.issued, l.used[k].token, l.used[k].at);
    }
  }

  lemma NextBalanced(st: State, op: Op, l: Ledger, check: PasswordCheck)
    requires Balanced(st.store, l)
    requires op.ForgotOp? ==> forall i :: 0 <= i < |l.issued| ==> l.issued[i].token != op.token
    ensures Balanced(Next(st, op, check).store, Booked(l, st, op))
  {
    if op.ForgotOp? {
      ForgotBalanced(st, op, l, check);
    } else if op.ResetOp? {
      ResetBalanced(st, op, l, check);
    } else {
      forall token
        ensures CellOf(Next(st, op, check).store, TokenKey(token)) == CellOf(st.store, TokenKey(token))
      {
        if op.LoginOp? {
          LoginKeepsTokens(st, op.request, check, token);
        } else if op.ForgetProfile? {
          KeysApart(op.identity, token);
        }
      }
      SameTokensBalanced(st.store, Next(st, op, check).store, l);
    }
  }

  lemma {:induction false} BooksBalanced(st: State, ops: seq<Op>, l: Ledger, check: PasswordCheck)
    requires Balanced(st.store, l) && FreshTokens(st, ops, l, check)
    ensures Balanced(Run(st, ops, check).store, Books(st, ops, l, check))
    decreases |ops|
  {
    if ops != [] {
      NextBalanced(st, ops[0], l, check);
      BooksBalanced(Next(st, ops[0], check), ops[1..], Booked(l, st, ops[0]), check);
    }
  }

  /**
    Over any sequential history, whatever calls fail: every password change is made with a token
    presented less than 900 s after it was issued, and a token changes a password again only after
    changes that did not use it up.
   */
  lemma TokenChangesOnce(users: UserTable, ops: seq<Op>, check: PasswordCheck)
    requires FreshTokens(State(map[], users), ops, Ledger([], []), check)
    ensures var l := Books(State(map[], users), ops, Ledger([], []), check);
            && (forall k :: 0 <= k < |l.used| ==> WasIssued(l.issued, l.used[k].token, l.used[k].at))
            && (forall j, k :: 0 <= j < k < |l.used| && l.used[j].token == l.used[k].token ==> !l.used[j].consumed)
  {
    BooksBalanced(State(map[], users), ops, Ledger([], []), check);
  }
}
