/** Explicit onboarding run on its own: healing a user whose account is already on chain. */
module Onboarding {
  import opened Prelude
  import opened Users
  import opened Database
  import opened Protocol
  import opened Attempts

  /** How many registration transactions a task submits when run alone. */
  function Submissions(cfg: Config, db: Db, t: Task, env: nat -> Moment, k: nat): nat
    decreases Rank(t)
  {
    var out := Effect(cfg, db, t, env(k));
    EffectDescends(cfg, db, t, env(k));
    (if t.Submit? then 1 else 0) + (if out.next.Some? then Submissions(cfg, out.db, out.next.value, env, k + 1) else 0)
  }

  /** The database with the user and the wallet marked. */
  function Marked(cfg: Config, db: Db, u: Id, address: string, signature: string): Db {
    Db(UpdateUsers(db.users, {u}, MarkOnboarded(cfg.pda(address), signature)),
       WithRegistered(db.wallets, u, address, signature))
  }

  /** The reads of one onboarding call find the primary wallet and see its account; its writes take effect. */
  predicate HealingCall(cfg: Config, db: Db, u: Id, address: string, env: nat -> Moment) {
    && env(0).reply.Answered? && env(0).address == address && IsPrimaryAddress(db.wallets, u, address)
    && env(1).reply.Answered? && env(1).seen && cfg.pda(address) in env(1).chain
    && env(2).reply.Applied() && env(3).reply.Applied()
  }

  /**
    From any state, with the primary wallet's PDA on chain, one onboarding call whose reads and writes
    succeed submits nothing, flags the user as registered and confirmed at that PDA, and flags the wallet,
    both with the marker that stands for an account found on chain.
   */
  lemma Heals(cfg: Config, db: Db, u: Id, address: string, env: nat -> Moment)
    requires cfg.programValid && cfg.validAddress(address) && u in db.users
    requires HealingCall(cfg, db, u, address, env)
    ensures Submissions(cfg, db, FindPrimary(u), env, 0) == 0
    ensures var db' := Alone(cfg, db, FindPrimary(u), env, 0);
            && db' == Marked(cfg, db, u, address, PREEXISTING)
            && db'.users[u].registered && db'.users[u].pda == Some(cfg.pda(address)) && db'.users[u].status == Confirmed
            && db'.users[u].signature == Some("preexisting-onchain")
            && (forall w :: w in db'.wallets && db'.wallets[w].owner == u && db'.wallets[w].address == address ==>
                 db'.wallets[w].registered && db'.wallets[w].signature == Some("preexisting-onchain"))
            && IsPrimaryAddress(db'.wallets, u, address)
  {
    SubmitsIffUnseen(cfg, db, u, address, env);
    HealingRuns(cfg, db, u, address, env);
    var w :| w in db.wallets && db.wallets[w].owner == u && db.wallets[w].primary && db.wallets[w].address == address;
    assert w in Marked(cfg, db, u, address, PREEXISTING).wallets;
  }

  lemma HealingRuns(cfg: Config, db: Db, u: Id, address: string, env: nat -> Moment)
    requires cfg.programValid && cfg.validAddress(address)
    requires HealingCall(cfg, db, u, address, env)
    ensures Alone(cfg, db, FindPrimary(u), env, 0) == Marked(cfg, db, u, address, PREEXISTING)
  {
    var probe, mark := Probe(u, address), MarkUser(Healing, u, address, PREEXISTING);
    AloneStep(cfg, db, FindPrimary(u), env, 0, Goto(db, probe));
    AloneStep(cfg, db, probe, env, 1, Goto(db, mark));
    MarkedBoth(cfg, db, Healing, u, address, PREEXISTING, env, 2);
  }

  /** Repeating the call changes nothing at all. */
  lemma HealingIsIdempotent(cfg: Config, db: Db, u: Id, address: string, env: nat -> Moment, env': nat -> Moment)
    requires cfg.programValid && cfg.validAddress(address) && u in db.users
    requires HealingCall(cfg, db, u, address, env)
    requires HealingCall(cfg, Alone(cfg, db, FindPrimary(u), env, 0), u, address, env')
    ensures var db' := Alone(cfg, db, FindPrimary(u), env, 0);
            Alone(cfg, db', FindPrimary(u), env', 0) == db'
  {
    Heals(cfg, db, u, address, env);
    var db' := Alone(cfg, db, FindPrimary(u), env, 0);
    Heals(cfg, db', u, address, env');
    var db'' := Marked(cfg, db', u, address, PREEXISTING);
    assert db''.users == db'.users;
    assert db''.wallets == db'.wallets;
  }

  /** The call finds the primary wallet, and its address and the program id parse. */
  predicate FindsPrimary(cfg: Config, db: Db, u: Id, address: string, env: nat -> Moment) {
    && cfg.programValid && cfg.validAddress(address)
    && env(0).reply.Answered? && env(0).address == address && IsPrimaryAddress(db.wallets, u, address)
  }

  /**
    What an onboarding call leaves in the database, however its calls end: if the probe sees the account, the
    marks of an account found on chain; if not, the marks of the transaction it submits exactly when a poll
    sees the account afterwards, with that transaction's signature; and otherwise nothing.
   */
  lemma OnboardingRecords(cfg: Config, db: Db, db': Db, u: Id, address: string, env: nat -> Moment)
    requires db' == Alone(cfg, db, FindPrimary(u), env, 0)
    ensures FindsPrimary(cfg, db, u, address, env) ==>
              if Sees(cfg, address, env(1)) then MarksMade(cfg, db, db', Healing, u, address, "preexisting-onchain", env, 2)
              else Registered(cfg, db, db', Onboarding, u, address, env, 2)
    ensures !FindsPrimary(cfg, db, u, env(0).address, env) ==> db' == db
  {
    if FindsPrimary(cfg, db, u, address, env) {
      AloneStep(cfg, db, FindPrimary(u), env, 0, Goto(db, Probe(u, address)));
      ProbeRecords(cfg, db, db', u, address, env);
    } else if !FindsPrimary(cfg, db, u, env(0).address, env) {
      AloneStep(cfg, db, FindPrimary(u), env, 0, Done(db));
    }
  }

  lemma ProbeRecords(cfg: Config, db: Db, db': Db, u: Id, address: string, env: nat -> Moment)
    requires db' == Alone(cfg, db, Probe(u, address), env, 1)
    ensures if Sees(cfg, address, env(1)) then MarksMade(cfg, db, db', Healing, u, address, "preexisting-onchain", env, 2)
            else Registered(cfg, db, db', Onboarding, u, address, env, 2)
  {
    if Sees(cfg, address, env(1)) {
      AloneStep(cfg, db, Probe(u, address), env, 1, Goto(db, MarkUser(Healing, u, address, PREEXISTING)));
      MarksRecord(cfg, db, db', Healing, u, address, PREEXISTING, env, 2);
    } else {
      AloneStep(cfg, db, Probe(u, address), env, 1, Goto(db, Submit(Onboarding, u, address)));
      AttemptRegisters(cfg, db, db', Onboarding, u, address, env, 2);
    }
  }

  /** An onboarding call that finds a primary wallet submits exactly when the probe does not see the account. */
  lemma SubmitsIffUnseen(cfg: Config, db: Db, u: Id, address: string, env: nat -> Moment)
    requires cfg.programValid && cfg.validAddress(address)
    requires env(0).reply.Answered? && env(0).address == address && IsPrimaryAddress(db.wallets, u, address)
    ensures Submissions(cfg, db, FindPrimary(u), env, 0) == if Sees(cfg, address, env(1)) then 0 else 1
  {
    var t1 := Probe(u, address);
    assert Effect(cfg, db, FindPrimary(u), env(0)) == Goto(db, t1);
    assert Submissions(cfg, db, FindPrimary(u), env, 0) == Submissions(cfg, db, t1, env, 1);
    var out := Effect(cfg, db, t1, env(1));
    if Sees(cfg, address, env(1)) {
      AfterSubmit(cfg, db, MarkUser(Healing, u, address, PREEXISTING), env, 2);
    } else {
      var t2 := Submit(Onboarding, u, address);
      var next := Effect(cfg, db, t2, env(2));
      assert Submissions(cfg, db, t1, env, 1) == Submissions(cfg, db, t2, env, 2);
      if next.next.Some? {
        AfterSubmit(cfg, db, next.next.value, env, 3);
      }
    }
  }

  lemma {:induction false} AfterSubmit(cfg: Config, db: Db, t: Task, env: nat -> Moment, k: nat)
    requires t.Poll? || t.MarkUser? || t.MarkWallet?
    ensures Submissions(cfg, db, t, env, k) == 0
    decreases Rank(t)
  {
    EffectDescends(cfg, db, t, env(k));
    var out := Effect(cfg, db, t, env(k));
    if out.next.Some? {
      AfterSubmit(cfg, out.db, out.next.value, env, k + 1);
    }
  }
}
