/** `verify_email` from the row update on, run alone: activation, and a custodial wallet for a user without one. */
module EmailVerification {
  import opened Prelude
  import opened Users
  import opened Database
  import opened Protocol
  import Login
  import WalletFlows

  /** The verified user stores no address and, by an answered check, has no wallet. */
  predicate NeedsWallet(db: Db, email: string, env: nat -> Moment) {
    var u := env(0).row;
    && env(0).reply.Answered? && u in db.users && db.users[u].email == email && db.users[u].walletAddress.None?
    && env(1).reply.Answered? && !HasAnyWallet(db.wallets, u)
  }

  /** The generated address is new to both tables. */
  predicate Fits(db: Db, env: nat -> Moment) {
    && env(2).row !in db.wallets
    && !AddressLinked(db.wallets, env(2).address) && !MirrorTaken(db.users, env(0).row, env(2).address)
  }

  /** The custodial wallet goes in and the caller learns of it. */
  predicate Provisions(db: Db, env: nat -> Moment) {
    env(2).reply.Answered? && Fits(db, env)
  }

  /** A user row after the request: activated if its email was verified, with the new address if it got a wallet. */
  function VerifiedRow(u: User, verified: bool, address: Option<string>): User {
    var row := if verified then u.(active := true, emailVerified := true) else u;
    if address.Some? then row.(walletAddress := address) else row
  }

  /**
    What a verification leaves: every account with that email active and verified, a primary wallet whose
    address its row stores for a user who needed one, and nothing else changed in either table.
   */
  ghost predicate Verified(db: Db, db': Db, email: string, env: nat -> Moment) {
    var provisioned := NeedsWallet(db, email, env) && Fits(db, env) && env(2).reply.Applied();
    && db'.users.Keys == db.users.Keys
    && (forall u :: u in db.users ==>
         db'.users[u] == VerifiedRow(db.users[u], db.users[u].email == email && env(0).reply.Applied(),
                                     if provisioned && u == env(0).row then Some(env(2).address) else None))
    && db'.wallets == if provisioned then db.wallets[env(2).row := Wallet(env(0).row, env(2).address, true, false, None)] else db.wallets
  }

  function Holders(us: UserTable, email: string): set<Id> {
    set u | u in us && us[u].email == email
  }

  /** Verifying the email changes nothing the transaction's constraints look at. */
  lemma CustodialFits(db: Db, email: string, env: nat -> Moment)
    requires env(0).row in db.users && !HasAnyWallet(db.wallets, env(0).row)
    ensures var u, address := env(0).row, env(2).address;
            WithCustodialWallet(db.(users := UpdateUsers(db.users, Holders(db.users, email), VerifyEmail)), env(2).row, u, address).Some?
            <==> !AddressLinked(db.wallets, address) && !MirrorTaken(db.users, u, address)
  {
    var u, address := env(0).row, env(2).address;
    var us := UpdateUsers(db.users, Holders(db.users, email), VerifyEmail);
    WalletFlows.UpdateKeepsMirrors(db.users, Holders(db.users, email), VerifyEmail);
    SameTaken(db.users, us, u, address);
    SameTaken(us, db.users, u, address);
    WalletFlows.AddressesKept(db.wallets, u, address);
    assert !HasPrimary(WithoutPrimary(db.wallets, u), u);
  }

  lemma SameTaken(us: UserTable, us': UserTable, u: Id, address: string)
    requires WalletFlows.SameMirrors(us, us')
    ensures MirrorTaken(us, u, address) ==> MirrorTaken(us', u, address)
  {
    if MirrorTaken(us, u, address) {
      var v :| v in us && v != u && us[v].walletAddress == Some(address);
      assert v in us' && us'[v].walletAddress == Some(address);
    }
  }

  /** The row update. */
  function Activated(db: Db, email: string, m: Moment): Db {
    ApplyUsers(db, Some(UpdateUsers(db.users, Holders(db.users, email), VerifyEmail)), m)
  }

  lemma ActivatedRows(db: Db, email: string, m: Moment)
    ensures Activated(db, email, m).users.Keys == db.users.Keys && Activated(db, email, m).wallets == db.wallets
    ensures forall u :: u in db.users ==>
              Activated(db, email, m).users[u] == VerifiedRow(db.users[u], db.users[u].email == email && m.reply.Applied(), None)
  {
  }

  /** The transaction, for a user without wallets. */
  lemma ProvisionedTables(cfg: Config, db: Db, email: string, env: nat -> Moment)
    requires NeedsWallet(db, email, env)
    ensures var out := Effect(cfg, Activated(db, email, env(0)), Provision(env(0).row), env(2));
            var provisioned := Fits(db, env) && env(2).reply.Applied();
            && out.next.None?
            && out.db.wallets == (if provisioned then db.wallets[env(2).row := Wallet(env(0).row, env(2).address, true, false, None)] else db.wallets)
            && out.db.users.Keys == db.users.Keys
            && forall u :: u in db.users ==>
                 out.db.users[u] == VerifiedRow(db.users[u], db.users[u].email == email,
                                                if provisioned && u == env(0).row then Some(env(2).address) else None)
  {
    var db1 := Activated(db, email, env(0));
    ActivatedRows(db, email, env(0));
    CustodialFits(db, email, env);
    assert WithoutPrimary(db.wallets, env(0).row) == db.wallets;
  }

  /** The whole effect of a verification, however its calls end. */
  lemma VerifyEffect(cfg: Config, db: Db, db': Db, email: string, env: nat -> Moment)
    requires db' == Alone(cfg, db, VerifyRow(email), env, 0)
    ensures Verified(db, db', email, env)
  {
    var u, db1 := env(0).row, Activated(db, email, env(0));
    ActivatedRows(db, email, env(0));
    if !env(0).reply.Answered? || u !in Holders(db.users, email) {
      AloneStep(cfg, db, VerifyRow(email), env, 0, Done(db1));
    } else {
      var check := CheckWallets(u, db.users[u].walletAddress.Some?);
      AloneStep(cfg, db, VerifyRow(email), env, 0, Goto(db1, check));
      if NeedsWallet(db, email, env) {
        AloneStep(cfg, db1, check, env, 1, Goto(db1, Provision(u)));
        AloneStep(cfg, db1, Provision(u), env, 2, Effect(cfg, db1, Provision(u), env(2)));
        ProvisionedTables(cfg, db, email, env);
      } else {
        AloneStep(cfg, db1, check, env, 1, Done(db1));
      }
    }
  }

  /** An account as `create` leaves it can be found by no login. */
  lemma FreshIsHidden(username: string, email: string, hash: string, token: Option<Token>, identity: string)
    ensures !Login.Matches(Fresh(username, email, hash, token), identity)
  {
  }

  /**
    A freshly created account can be found by no login, and by username and by email as soon as its
    verification has taken effect.
   */
  lemma VerificationOpensLogin(cfg: Config, db: Db, db': Db, u: Id, username: string, email: string, hash: string, token: Option<Token>,
                               env: nat -> Moment, identity: string)
    requires u in db.users && db.users[u] == Fresh(username, email, hash, token)
    requires db' == Alone(cfg, db, VerifyRow(email), env, 0)
    ensures !Login.Matches(db.users[u], identity)
    ensures u in db'.users && db'.users[u].hash == hash && db'.users[u].token == token && !db'.users[u].registered
    ensures Login.Matches(db'.users[u], identity) <==> env(0).reply.Applied() && (identity == username || identity == email)
  {
    FreshIsHidden(username, email, hash, token, identity);
    VerifyEffect(cfg, db, db', email, env);
    FreshVerified(db, db', u, username, email, hash, token, env);
  }

  lemma FreshVerified(db: Db, db': Db, u: Id, username: string, email: string, hash: string, token: Option<Token>, env: nat -> Moment)
    requires u in db.users && db.users[u] == Fresh(username, email, hash, token) && Verified(db, db', email, env)
    ensures u in db'.users && db'.users[u].username == username && db'.users[u].email == email && db'.users[u].hash == hash
    ensures db'.users[u].token == token && !db'.users[u].registered && db'.users[u].active == env(0).reply.Applied()
  {
  }
}
