/** `link_wallet` run alone: the whole effect of a link on both tables, registration of the wallet included. */
module WalletLinking {
  import opened Prelude
  import opened Users
  import opened Database
  import opened Protocol
  import opened Attempts
  import WalletFlows

  /** The call that inserts the wallet: after the check, and after the clear if there is one. */
  function InsertAt(ws: WalletTable, u: Id, primary: bool): nat {
    if HasAnyWallet(ws, u) && primary then 2 else 1
  }

  /** A primary or first wallet is mirrored in the user's row. */
  predicate IsMirrored(ws: WalletTable, u: Id, primary: bool) {
    primary || !HasAnyWallet(ws, u)
  }

  /** The call that looks the user up, before the one that would submit. */
  function LookupAt(ws: WalletTable, u: Id, primary: bool): nat {
    InsertAt(ws, u, primary) + if IsMirrored(ws, u, primary) then 2 else 1
  }

  /** Every call up to the insert is answered. */
  predicate Reached(db: Db, u: Id, primary: bool, env: nat -> Moment) {
    env(0).reply.Answered? && env(1).reply.Answered? && env(InsertAt(db.wallets, u, primary)).reply.Answered?
  }

  /** And the wallet gets inserted: its address is not linked yet. */
  predicate Accepted(db: Db, u: Id, address: string, primary: bool, env: nat -> Moment) {
    && Reached(db, u, primary, env)
    && env(InsertAt(db.wallets, u, primary)).row !in db.wallets && !AddressLinked(db.wallets, address)
  }

  /** The user looked up is active and already on chain, so the new wallet is to be registered. */
  predicate IsOnChain(us: UserTable, u: Id, m: Moment) {
    m.reply.Answered? && u in us && us[u].active && us[u].registered
  }

  /** What registers the new wallet: a transaction, for a user on chain and once a poll saw the account of the address. */
  ghost function JoinedBy(cfg: Config, us: UserTable, u: Id, address: string, env: nat -> Moment, lookup: nat): Option<string> {
    if IsOnChain(us, u, env(lookup)) && Confirms(cfg, address, env, lookup + 1) then Some(env(lookup + 1).signature) else None
  }

  /** What a link leaves in `users`: the address in the row of `u`, if it is to be mirrored and that update succeeds. */
  ghost predicate UsersLinked(db: Db, us': UserTable, u: Id, address: string, primary: bool, env: nat -> Moment) {
    var m := env(InsertAt(db.wallets, u, primary) + 1);
    var written := IsMirrored(db.wallets, u, primary) && m.reply.Applied() && !MirrorTaken(db.users, u, address);
    && us'.Keys == db.users.Keys
    && forall v :: v in db.users ==>
         us'[v] == if v == u && written then db.users[v].(walletAddress := Some(address)) else db.users[v]
  }

  /** The wallet, registered by this transaction or not at all. */
  function NewWallet(u: Id, address: string, primary: bool, signature: Option<string>): Wallet {
    Wallet(u, address, primary, signature.Some?, signature)
  }

  /** What it leaves in `user_wallets`: the new row, other rows of the user demoted by a primary one, and no other change. */
  ghost predicate WalletsLinked(cfg: Config, db: Db, ws': WalletTable, u: Id, address: string, primary: bool, env: nat -> Moment) {
    var row, submit := env(InsertAt(db.wallets, u, primary)).row, LookupAt(db.wallets, u, primary) + 1;
    var signature := JoinedBy(cfg, db.users, u, address, env, submit - 1);
    && ws'.Keys == db.wallets.Keys + {row}
    && (forall w :: w in db.wallets && w != row ==>
         ws'[w] == if primary && db.wallets[w].owner == u then db.wallets[w].(primary := false) else db.wallets[w])
    && (signature.None? ==> ws'[row] == NewWallet(u, address, primary, None))
    && (signature.Some? ==>
         forall n: nat :: ConfirmedBy(cfg, address, env, submit, n) ==>
           ws'[row] == NewWallet(u, address, primary, if env(n + 1).reply.Applied() then signature else None))
  }

  // ---- The calls one after another -----------------------------------------------------------------

  /** The tables once the wallet is in. */
  function WithLinked(db: Db, u: Id, address: string, primary: bool, row: Id): Db {
    var ws := if primary then WithoutPrimary(db.wallets, u) else db.wallets;
    db.(wallets := ws[row := Wallet(u, address, primary, false, None)])
  }

  lemma NothingToClear(ws: WalletTable, u: Id)
    requires !HasAnyWallet(ws, u)
    ensures WithoutPrimary(ws, u) == ws
  {
  }

  lemma UpToInsert(cfg: Config, db: Db, u: Id, address: string, primary: bool, env: nat -> Moment)
    requires Accepted(db, u, address, primary, env)
    ensures var i := InsertAt(db.wallets, u, primary);
            Alone(cfg, db, LinkCheck(u, address, primary), env, 0)
            == Alone(cfg, WithLinked(db, u, address, primary, env(i).row),
                     if IsMirrored(db.wallets, u, primary) then LinkMirror(u, address) else LinkLookup(u, address), env, i + 1)
  {
    var existing := HasAnyWallet(db.wallets, u);
    if existing && primary {
      var cleared := db.(wallets := WithoutPrimary(db.wallets, u));
      WalletFlows.AddressesKept(db.wallets, u, address);
      AloneStep(cfg, db, LinkCheck(u, address, primary), env, 0, Goto(db, LinkClear(u, address)));
      AloneStep(cfg, db, LinkClear(u, address), env, 1, Goto(cleared, LinkInsert(u, address, true, true, false)));
      InsertStep(cfg, cleared, u, address, true, true, false, env, 2);
    } else {
      if !existing {
        NothingToClear(db.wallets, u);
      }
      AloneStep(cfg, db, LinkCheck(u, address, primary), env, 0, Goto(db, LinkInsert(u, address, primary, false, !existing)));
      InsertStep(cfg, db, u, address, primary, false, !existing, env, 1);
    }
  }

  lemma InsertStep(cfg: Config, db: Db, u: Id, address: string, primary: bool, cleared: bool, first: bool, env: nat -> Moment, k: nat)
    requires env(k).reply.Answered? && env(k).row !in db.wallets && !AddressLinked(db.wallets, address)
    requires primary ==> !HasPrimary(db.wallets, u)
    ensures Alone(cfg, db, LinkInsert(u, address, primary, cleared, first), env, k)
         == Alone(cfg, db.(wallets := db.wallets[env(k).row := Wallet(u, address, primary, false, None)]),
                  if primary || first then LinkMirror(u, address) else LinkLookup(u, address), env, k + 1)
  {
    var t := LinkInsert(u, address, primary, cleared, first);
    AloneStep(cfg, db, t, env, k, Effect(cfg, db, t, env(k)));
  }

  /** The address update, whatever becomes of it, and then the lookup. */
  lemma UpToLookup(cfg: Config, db: Db, u: Id, address: string, env: nat -> Moment, k: nat) returns (us: UserTable)
    ensures Alone(cfg, db, LinkMirror(u, address), env, k) == Alone(cfg, db.(users := us), LinkLookup(u, address), env, k + 1)
    ensures us.Keys == db.users.Keys
    ensures forall v :: v in db.users ==>
              us[v] == if v == u && env(k).reply.Applied() && !MirrorTaken(db.users, u, address)
                       then db.users[v].(walletAddress := Some(address)) else db.users[v]
  {
    us := ApplyUsers(db, WithWalletAddress(db.users, u, address), env(k)).users;
    AloneStep(cfg, db, LinkMirror(u, address), env, k, Goto(db.(users := us), LinkLookup(u, address)));
  }

  /** The rest of a link: nothing for a user who is not on chain, else an attempt to register the wallet. */
  lemma FromLookup(cfg: Config, db: Db, db': Db, u: Id, address: string, env: nat -> Moment, k: nat)
    requires db' == Alone(cfg, db, LinkLookup(u, address), env, k)
    ensures if IsOnChain(db.users, u, env(k)) then Registered(cfg, db, db', Linking, u, address, env, k + 1) else db' == db
  {
    if IsOnChain(db.users, u, env(k)) {
      AloneStep(cfg, db, LinkLookup(u, address), env, k, Goto(db, Submit(Linking, u, address)));
      AttemptRegisters(cfg, db, db', Linking, u, address, env, k + 1);
    } else {
      AloneStep(cfg, db, LinkLookup(u, address), env, k, Done(db));
    }
  }

  // ---- The whole link ------------------------------------------------------------------------------

  /** Marking the new wallet marks no other: its address was not linked before. */
  lemma MarksOnlyTheNew(db: Db, ws: WalletTable, ws': WalletTable, u: Id, address: string, primary: bool, row: Id, signature: string, applied: bool)
    requires row !in db.wallets && !AddressLinked(db.wallets, address) && ws == WithLinked(db, u, address, primary, row).wallets
    requires WalletMarked(ws, ws', u, address, signature, applied)
    ensures ws'.Keys == db.wallets.Keys + {row} && ws'[row] == NewWallet(u, address, primary, if applied then Some(signature) else None)
    ensures forall w :: w in db.wallets ==>
              ws'[w] == if primary && db.wallets[w].owner == u then db.wallets[w].(primary := false) else db.wallets[w]
  {
  }

  /** An accepted link, registration and all, on `user_wallets`. */
  lemma WalletsOfLink(cfg: Config, db: Db, db1: Db, db': Db, u: Id, address: string, primary: bool, env: nat -> Moment)
    requires Accepted(db, u, address, primary, env)
    requires db1.wallets == WithLinked(db, u, address, primary, env(InsertAt(db.wallets, u, primary)).row).wallets
    requires var l := LookupAt(db.wallets, u, primary);
             if IsOnChain(db.users, u, env(l)) then Registered(cfg, db1, db', Linking, u, address, env, l + 1) else db' == db1
    ensures WalletsLinked(cfg, db, db'.wallets, u, address, primary, env)
  {
    var row, submit := env(InsertAt(db.wallets, u, primary)).row, LookupAt(db.wallets, u, primary) + 1;
    if JoinedBy(cfg, db.users, u, address, env, submit - 1).Some? {
      forall n: nat | ConfirmedBy(cfg, address, env, submit, n)
        ensures db'.wallets.Keys == db.wallets.Keys + {row}
        ensures db'.wallets[row] == NewWallet(u, address, primary, if env(n + 1).reply.Applied() then Some(env(submit).signature) else None)
        ensures forall w :: w in db.wallets ==>
                  db'.wallets[w] == if primary && db.wallets[w].owner == u then db.wallets[w].(primary := false) else db.wallets[w]
      {
        MarksOnlyTheNew(db, db1.wallets, db'.wallets, u, address, primary, row, env(submit).signature, env(n + 1).reply.Applied());
      }
    } else {
      assert db' == db1;
      MarksOnlyTheNew(db, db1.wallets, db1.wallets, u, address, primary, row, "", false);
    }
  }

  /**
    The whole effect of an accepted link, by a user with or without wallets, on chain or not, however the
    calls after the insert end: the address in the user's row, the new wallet, and the registration of it.
   */
  lemma LinkEffect(cfg: Config, db: Db, db': Db, u: Id, address: string, primary: bool, env: nat -> Moment)
    requires Accepted(db, u, address, primary, env) && db' == Alone(cfg, db, LinkCheck(u, address, primary), env, 0)
    ensures UsersLinked(db, db'.users, u, address, primary, env)
    ensures WalletsLinked(cfg, db, db'.wallets, u, address, primary, env)
  {
    var i, l := InsertAt(db.wallets, u, primary), LookupAt(db.wallets, u, primary);
    var db1 := WithLinked(db, u, address, primary, env(i).row);
    UpToInsert(cfg, db, u, address, primary, env);
    var db2 := db1;
    if IsMirrored(db.wallets, u, primary) {
      var us := UpToLookup(cfg, db1, u, address, env, i + 1);
      db2 := db1.(users := us);
    }
    FromLookup(cfg, db2, db', u, address, env, l);
    WalletsOfLink(cfg, db, db2, db', u, address, primary, env);
    assert db'.users == db2.users by {
      RegistrationKeepsUsers(cfg, db2, db', u, address, env, l);
    }
  }

  lemma RegistrationKeepsUsers(cfg: Config, db: Db, db': Db, u: Id, address: string, env: nat -> Moment, k: nat)
    requires if IsOnChain(db.users, u, env(k)) then Registered(cfg, db, db', Linking, u, address, env, k + 1) else db' == db
    ensures db'.users == db.users
  {
    if IsOnChain(db.users, u, env(k)) && Confirms(cfg, address, env, k + 1) {
      var n: nat :| ConfirmedBy(cfg, address, env, k + 1, n);
      assert MarksMade(cfg, db, db', Linking, u, address, env(k + 1).signature, env, n + 1);
    }
  }
}
