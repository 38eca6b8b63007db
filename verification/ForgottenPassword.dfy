/** A forgotten password from request to login, one request after another with anything in between. */
module ForgottenPassword {
  import opened Prelude
  import opened Redis
  import opened Keys
  import opened Users
  import opened Database
  import opened Lockout
  import opened Login
  import opened PasswordReset

  // ---- A token lives for fifteen minutes ---------------------------------------------------------------

  /** The request stores a token: a user is found and the cache write takes effect. */
  predicate Issues(pick: Option<Id>, c: ForgotCalls) {
    c.read.reply.Answered? && pick.Some? && c.set_.reply.Applied()
  }

  /** The token is read, and less than 900 s after it was stored. */
  predicate InTime(c: ForgotCalls, get: Await) {
    get.reply.Answered? && get.at < c.set_.at + 900 * SECOND
  }

  lemma TokenLives(st: State, identity: string, token: string, pick: Option<Id>, c: ForgotCalls, get: Await)
    requires Issues(pick, c)
    ensures TokenEmail(Forgot(st, identity, token, pick, c).store, token, get) == if InTime(c, get) then Some(Lower(identity)) else None
  {
  }

  /** Nothing in this history issues or presents the token. */
  predicate LeavesToken(ops: seq<Op>, token: string) {
    forall k :: 0 <= k < |ops| ==> (ops[k].ForgotOp? || ops[k].ResetOp? ==> ops[k].token != token)
  }

  lemma OpKeepsToken(st: State, op: Op, check: PasswordCheck, token: string)
    requires op.ForgotOp? || op.ResetOp? ==> op.token != token
    ensures CellOf(Next(st, op, check).store, TokenKey(token)) == CellOf(st.store, TokenKey(token))
  {
    match op
    case LoginOp(request) => LoginKeepsTokens(st, request, check, token);
    case ForgotOp(_, other, _, _) => KeyCollision(Keys.PasswordReset(token), Keys.PasswordReset(other));
    case ResetOp(other, hash, pick, calls) =>
      ResetTable(st, other, hash, pick, calls);
      if Reset(st, other, hash, pick, calls).1 {
        ResetDrops(st, other, hash, pick, calls);
      }
    case Others(_) =>
    case ForgetProfile(identity, _) => KeysApart(identity, token);
  }

  lemma {:induction false} RunKeepsToken(st: State, ops: seq<Op>, check: PasswordCheck, token: string)
    requires LeavesToken(ops, token)
    ensures CellOf(Run(st, ops, check).store, TokenKey(token)) == CellOf(st.store, TokenKey(token))
    decreases |ops|
  {
    if ops != [] {
      OpKeepsToken(st, ops[0], check, token);
      RunKeepsToken(Next(st, ops[0], check), ops[1..], check, token);
    }
  }

  // ---- From the request to the new hash ----------------------------------------------------------------

  /** The account the typed identity names as an email. */
  predicate Named(u: User, identity: string) {
    u.active && Lower(u.email) == Lower(identity)
  }

  /** `us'` is `us` with this hash in every account named, if the reset came through, and nothing else changed. */
  ghost predicate HashSet(us: UserTable, us': UserTable, identity: string, hash: string, through: bool) {
    && us'.Keys == us.Keys
    && forall u :: u in us ==> us'[u] == if through && Named(us[u], identity) then us[u].(hash := hash) else us[u]
  }

  lemma PasswordWritten(us: UserTable, identity: string, hash: string)
    ensures HashSet(us, UpdateUsers(us, Holders(us, Lower(identity)), UpdatePassword(hash)), identity, hash, true)
    ensures Holders(us, Lower(identity)) != {} <==> exists u :: u in us && Named(us[u], identity)
  {
    LowerTwice(identity);
    if u :| u in us && Named(us[u], identity) {
      assert u in Holders(us, Lower(identity));
    }
    if Holders(us, Lower(identity)) != {} {
      var u :| u in Holders(us, Lower(identity));
      assert u in us && Named(us[u], identity);
    }
  }

  /**
    A token issued for an identity and later presented, whatever happens in between that neither issues nor
    presents it. The password of exactly the active accounts with that email becomes the new one, and of no
    other, if the token is read less than 900 s after it was stored and the calls up to the update go
    through; otherwise no row changes. Success is reported exactly when there is such an account and the
    update is answered.
   */
  lemma TokenResets(st: State, identity: string, token: string, pick: Option<Id>, c: ForgotCalls, ops: seq<Op>, check: PasswordCheck,
                    hash: string, pick': Option<Id>, c': ResetCalls)
    requires Issues(pick, c) && LeavesToken(ops, token)
    ensures var st' := Run(Forgot(st, identity, token, pick, c), ops, check);
            var (end, ok) := Reset(st', token, Some(hash), pick', c');
            var through := InTime(c, c'.get) && c'.read.reply.Answered? && c'.update.reply.Applied();
            && HashSet(st'.users, end.users, identity, hash, through)
            && (ok <==> through && c'.update.reply.Answered? && exists u :: u in st'.users && Named(st'.users[u], identity))
  {
    TokenLives(st, identity, token, pick, c, c'.get);
    RunKeepsToken(Forgot(st, identity, token, pick, c), ops, check, token);
    var st' := Run(Forgot(st, identity, token, pick, c), ops, check);
    ResetTable(st', token, Some(hash), pick', c');
    PasswordWritten(st'.users, identity, hash);
  }

  // ---- And on to the login -----------------------------------------------------------------------------

  /** A login that is not turned away, of an active account by a name it has, finds a profile to check. */
  lemma LoginFinds(st: State, r: Request, check: PasswordCheck, u: Id)
    requires u in st.users && st.users[u].active && r.username in Names(st.users, u) && MayPick(st.users, r.username, r.pick)
    requires !Rejected(GuardOf(st.store, r.username), r.calls) && r.calls.read.reply.Answered?
    ensures LogIn(st.store, st.users, r, check).used.Some?
  {
    assert Matches(st.users[u], r.username);
  }

  /**
    After a successful reset of an account with a lower-case email whose profile deletes took effect, and
    through any later history that leaves the account's hash alone: a login by either name that is not
    locked out accepts a password exactly when it fits the new hash.
   */
  lemma NewPasswordDecides(st: State, token: string, hash: string, pick: Option<Id>, c: ResetCalls, u: Id,
                           after: seq<Op>, r: Request, check: PasswordCheck)
    requires Sound(st) && Lawful(st, ResetOp(token, Some(hash), pick, c)) && Reset(st, token, Some(hash), pick, c).1
    requires c.dropEmail.reply.Applied() && c.dropUser.reply.Applied()
    requires TokenEmail(st.store, token, c.get).Some? && u in Holders(st.users, TokenEmail(st.store, token, c.get).value)
    requires Lower(st.users[u].email) == st.users[u].email
    requires AllLawful(Reset(st, token, Some(hash), pick, c).0, after, check)
    requires HashesSince(Reset(st, token, Some(hash), pick, c).0, after, check, u) == {hash}
    requires var end := Run(Reset(st, token, Some(hash), pick, c).0, after, check);
             && MayPick(end.users, r.username, r.pick) && u in end.users && end.users[u].active && r.username in Names(end.users, u)
             && !Rejected(GuardOf(end.store, r.username), r.calls) && r.calls.read.reply.Answered?
    ensures var end := Run(Reset(st, token, Some(hash), pick, c).0, after, check);
            var verdict := LogIn(end.store, end.users, r, check).verdict;
            && (verdict == Right <==> check(r.password, hash) == Some(true))
            && (verdict == Wrong <==> check(r.password, hash) == Some(false))
  {
    var end := Run(Reset(st, token, Some(hash), pick, c).0, after, check);
    NoOldHashAfterReset(st, token, hash, pick, c, u, after, r, check);
    LoginFinds(end, r, check, u);
    LoginDecides(end.store, end.users, r, check);
  }
}
