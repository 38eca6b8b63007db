/**
  One attempt to register on chain, run alone: the submission, the polls that decide it, and exactly what
  a confirmed or an unconfirmed attempt leaves in the database.
 */
module Attempts {
  import opened Prelude
  import opened Users
  import opened Database
  import opened Protocol
  import opened Blockchain

  // ---- What decides an attempt ---------------------------------------------------------------------

  /** Call `k` submits and is answered, and call `n` is the first of the twenty polls after it to be answered that the account is there. */
  predicate ConfirmedBy(cfg: Config, address: string, env: nat -> Moment, k: nat, n: nat) {
    && env(k).reply.Answered? && cfg.programValid && k < n <= k + 20
    && forall j :: k < j <= n ==> (env(j).reply.Answered? && env(j).seen && cfg.pda(address) in env(j).chain <==> j == n)
  }

  ghost predicate Confirms(cfg: Config, address: string, env: nat -> Moment, k: nat) {
    exists n: nat :: ConfirmedBy(cfg, address, env, k, n)
  }

  lemma ConfirmedIff(cfg: Config, address: string, env: nat -> Moment, k: nat, n: nat)
    requires env(k).reply.Answered? && cfg.programValid && k < n <= k + 20
    ensures ConfirmedBy(cfg, address, env, k, n)
       <==> Sees(cfg, address, env(n)) && forall j :: k < j < n ==> !Sees(cfg, address, env(j))
  {
    assert forall j: nat :: Sees(cfg, address, env(j)) == (env(j).reply.Answered? && env(j).seen && cfg.pda(address) in env(j).chain);
  }

  lemma ConfirmedOnlyBy(cfg: Config, address: string, env: nat -> Moment, k: nat, n: nat)
    requires ConfirmedBy(cfg, address, env, k, n)
    ensures forall n': nat :: ConfirmedBy(cfg, address, env, k, n') ==> n' == n
  {
    ConfirmedIff(cfg, address, env, k, n);
    forall n': nat | ConfirmedBy(cfg, address, env, k, n')
      ensures n' == n
    {
      ConfirmedIff(cfg, address, env, k, n');
    }
  }

  /** What the j-th poll from call `k` on sees. */
  function SeenAt(cfg: Config, address: string, env: nat -> Moment, k: nat): nat -> bool {
    (j: nat) => Sees(cfg, address, env(k + j))
  }

  ghost predicate LastDecides(sees: nat -> bool, from: nat, to: nat, seen: bool) {
    forall j :: from <= j < to ==> (sees(j) <==> seen && j == to - 1)
  }

  lemma LastSees(cfg: Config, address: string, polls: nat, seen: bool, env: nat -> Moment, k: nat)
    requires cfg.programValid && env(k).reply.Answered?
    requires polls <= POLL_COUNT && (seen ==> 0 < polls) && (!seen ==> polls == POLL_COUNT)
    requires LastDecides(SeenAt(cfg, address, env, k + 1), 0, polls, seen)
    ensures seen <==> Confirms(cfg, address, env, k)
    ensures seen ==> ConfirmedBy(cfg, address, env, k, k + polls)
  {
    var sees := SeenAt(cfg, address, env, k + 1);
    forall n: nat | k < n <= k + polls
      ensures Sees(cfg, address, env(n)) <==> seen && n == k + polls
    {
      assert sees(n - k - 1) == Sees(cfg, address, env(n));
    }
    if seen {
      ConfirmedIff(cfg, address, env, k, k + polls);
      assert ConfirmedBy(cfg, address, env, k, k + polls);
    } else if Confirms(cfg, address, env, k) {
      var n: nat :| ConfirmedBy(cfg, address, env, k, n);
      ConfirmedIff(cfg, address, env, k, n);
    }
  }

  // ---- How the calls of an attempt follow each other -----------------------------------------------

  /** The state after an attempt to register: on to the marks when it was confirmed, else the end. */
  ghost function AfterAttempt(cfg: Config, db: Db, flow: Flow, user: Id, address: string, signature: Option<string>,
                              env: nat -> Moment, k: nat): Db {
    if signature.Some? then Alone(cfg, db, AfterConfirmation(flow, user, address, signature.value), env, k) else db
  }

  /** The state after the polls from `tries` on. */
  ghost function PollsFrom(cfg: Config, db: Db, flow: Flow, user: Id, address: string, signature: string, tries: nat,
                           env: nat -> Moment, k: nat): Db {
    if tries < POLL_COUNT then Alone(cfg, db, Poll(flow, user, address, signature, tries), env, k) else db
  }

  lemma SubmitStep(cfg: Config, db: Db, flow: Flow, user: Id, address: string, env: nat -> Moment, k: nat)
    ensures Alone(cfg, db, Submit(flow, user, address), env, k)
         == if env(k).reply.Answered? && cfg.programValid
            then PollsFrom(cfg, db, flow, user, address, env(k).signature, 0, env, k + 1) else db
  {
  }

  lemma PollStep(cfg: Config, db: Db, flow: Flow, user: Id, address: string, signature: string, tries: nat,
                 env: nat -> Moment, k: nat)
    requires tries < POLL_COUNT && cfg.programValid
    ensures PollsFrom(cfg, db, flow, user, address, signature, tries, env, k)
         == if Sees(cfg, address, env(k)) then AfterAttempt(cfg, db, flow, user, address, Some(signature), env, k + 1)
            else PollsFrom(cfg, db, flow, user, address, signature, tries + 1, env, k + 1)
  {
  }

  /** What a row of polls amounts to: the last of them is the first to see the account, or all twenty miss. */
  lemma {:induction false} PollsEnd(cfg: Config, db: Db, flow: Flow, user: Id, address: string, signature: string,
                                    tries: nat, polls: nat, seen: bool, env: nat -> Moment, k: nat)
    requires cfg.programValid && tries <= polls <= POLL_COUNT && (seen ==> tries < polls) && (!seen ==> polls == POLL_COUNT)
    requires LastDecides(SeenAt(cfg, address, env, k), tries, polls, seen)
    ensures PollsFrom(cfg, db, flow, user, address, signature, tries, env, k + tries)
         == AfterAttempt(cfg, db, flow, user, address, if seen then Some(signature) else None, env, k + polls)
    decreases polls - tries
  {
    if tries < polls {
      PollStep(cfg, db, flow, user, address, signature, tries, env, k + tries);
      assert SeenAt(cfg, address, env, k)(tries) <==> Sees(cfg, address, env(k + tries));
      if tries + 1 < polls || !seen {
        PollsEnd(cfg, db, flow, user, address, signature, tries + 1, polls, seen, env, k);
      }
    }
  }

  lemma AttemptEnds(cfg: Config, db: Db, flow: Flow, user: Id, address: string, polls: nat, seen: bool,
                    env: nat -> Moment, k: nat)
    requires cfg.programValid && env(k).reply.Answered?
    requires polls <= POLL_COUNT && (seen ==> 0 < polls) && (!seen ==> polls == POLL_COUNT)
    requires LastDecides(SeenAt(cfg, address, env, k + 1), 0, polls, seen)
    ensures Alone(cfg, db, Submit(flow, user, address), env, k)
         == AfterAttempt(cfg, db, flow, user, address, if seen then Some(env(k).signature) else None, env, k + 1 + polls)
  {
    SubmitStep(cfg, db, flow, user, address, env, k);
    PollsEnd(cfg, db, flow, user, address, env(k).signature, 0, polls, seen, env, k + 1);
  }

  /** A whole attempt: what the polls decide, and whether they were made at all. */
  lemma Attempted(cfg: Config, db: Db, flow: Flow, user: Id, address: string, polls: nat, seen: bool,
                  signature: Option<string>, next: nat, env: nat -> Moment, k: nat)
    requires if env(k).reply.Answered? && cfg.programValid
             then && polls <= POLL_COUNT && (seen ==> 0 < polls) && (!seen ==> polls == POLL_COUNT)
                  && LastDecides(SeenAt(cfg, address, env, k + 1), 0, polls, seen)
             else !seen && polls == 0
    requires signature == (if seen then Some(env(k).signature) else None) && next == k + 1 + polls
    ensures Alone(cfg, db, Submit(flow, user, address), env, k) == AfterAttempt(cfg, db, flow, user, address, signature, env, next)
    ensures signature == if Confirms(cfg, address, env, k) then Some(env(k).signature) else None
    ensures signature.Some? ==> next > 0 && ConfirmedBy(cfg, address, env, k, next - 1)
  {
    if env(k).reply.Answered? && cfg.programValid {
      AttemptEnds(cfg, db, flow, user, address, polls, seen, env, k);
      LastSees(cfg, address, polls, seen, env, k);
    } else {
      SubmitStep(cfg, db, flow, user, address, env, k);
    }
  }

  // ---- What an attempt leaves in the database ------------------------------------------------------

  /** `us'` is `us` with the row of `u` onboarded at this PDA by this transaction, if the update took effect. */
  ghost predicate UserMarked(us: UserTable, us': UserTable, u: Id, pda: string, signature: string, applied: bool) {
    && us'.Keys == us.Keys
    && forall v :: v in us ==>
         us'[v] == if v == u && applied
                   then us[v].(registered := true, pda := Some(pda), signature := Some(signature), status := Confirmed) else us[v]
  }

  /** `ws'` is `ws` with the wallets of `u` at this address registered by this transaction, if the update took effect. */
  ghost predicate WalletMarked(ws: WalletTable, ws': WalletTable, u: Id, address: string, signature: string, applied: bool) {
    && ws'.Keys == ws.Keys
    && forall w :: w in ws ==>
         ws'[w] == if ws[w].owner == u && ws[w].address == address && applied
                   then ws[w].(registered := true, signature := Some(signature)) else ws[w]
  }

  /**
    What a flow records from call `k` on, once the account was seen. Onboarding marks the user and then the
    wallet, the detached task the wallet and then the user, a linked or initialised wallet is all that is marked.
   */
  ghost predicate MarksMade(cfg: Config, db: Db, db': Db, flow: Flow, user: Id, address: string, signature: string,
                           env: nat -> Moment, k: nat) {
    match flow
    case Onboarding | Healing =>
      && UserMarked(db.users, db'.users, user, cfg.pda(address), signature, env(k).reply.Applied())
      && WalletMarked(db.wallets, db'.wallets, user, address, signature, env(k + 1).reply.Applied())
    case Detached =>
      && WalletMarked(db.wallets, db'.wallets, user, address, signature, env(k).reply.Applied())
      && UserMarked(db.users, db'.users, user, cfg.pda(address), signature, env(k + 1).reply.Applied())
    case Linking | Initialising =>
      && db'.users == db.users
      && WalletMarked(db.wallets, db'.wallets, user, address, signature, env(k).reply.Applied())
  }

  /** What an attempt submitted by call `k` leaves: its marks if it was confirmed, else everything as it was. */
  ghost predicate Registered(cfg: Config, db: Db, db': Db, flow: Flow, user: Id, address: string, env: nat -> Moment, k: nat) {
    && (forall n: nat :: ConfirmedBy(cfg, address, env, k, n) ==>
         MarksMade(cfg, db, db', flow, user, address, env(k).signature, env, n + 1))
    && (!Confirms(cfg, address, env, k) ==> db' == db)
  }

  /** Both marks, in the order of the flow. */
  lemma MarkedBoth(cfg: Config, db: Db, flow: Flow, user: Id, address: string, signature: string, env: nat -> Moment, k: nat)
    requires flow == Detached || flow == Onboarding || flow == Healing
    ensures var forUser := if flow == Detached then k + 1 else k;
            var forWallet := if flow == Detached then k else k + 1;
            Alone(cfg, db, AfterConfirmation(flow, user, address, signature), env, k)
            == Db(if env(forUser).reply.Applied()
               then UpdateUsers(db.users, {user}, MarkOnboarded(cfg.pda(address), signature)) else db.users,
               if env(forWallet).reply.Applied() then WithRegistered(db.wallets, user, address, signature) else db.wallets)
  {
  }

  /** The mark of a linked or initialised wallet is the last call of its flow. */
  lemma MarkedWallet(cfg: Config, db: Db, flow: Flow, user: Id, address: string, signature: string, env: nat -> Moment, k: nat)
    requires flow == Linking || flow == Initialising
    ensures AfterAttempt(cfg, db, flow, user, address, Some(signature), env, k)
         == Db(db.users, if env(k).reply.Applied() then WithRegistered(db.wallets, user, address, signature) else db.wallets)
  {
    var t := MarkWallet(flow, user, address, signature);
    AloneStep(cfg, db, t, env, k, Effect(cfg, db, t, env(k)));
  }

  lemma UserMark(us: UserTable, user: Id, pda: string, signature: string, applied: bool)
    ensures var us' := if applied then UpdateUsers(us, {user}, MarkOnboarded(pda, signature)) else us;
            UserMarked(us, us', user, pda, signature, applied)
  {
  }

  lemma WalletMark(ws: WalletTable, user: Id, address: string, signature: string, applied: bool)
    ensures var ws' := if applied then WithRegistered(ws, user, address, signature) else ws;
            WalletMarked(ws, ws', user, address, signature, applied)
  {
  }

  /** A confirmed attempt makes the marks of its flow. */
  lemma MarksRecord(cfg: Config, db: Db, db': Db, flow: Flow, user: Id, address: string, signature: string, env: nat -> Moment, k: nat)
    requires db' == AfterAttempt(cfg, db, flow, user, address, Some(signature), env, k)
    ensures MarksMade(cfg, db, db', flow, user, address, signature, env, k)
  {
    if flow == Linking || flow == Initialising {
      MarkedWallet(cfg, db, flow, user, address, signature, env, k);
      WalletMark(db.wallets, user, address, signature, env(k).reply.Applied());
    } else {
      var forUser, forWallet := if flow == Detached then k + 1 else k, if flow == Detached then k else k + 1;
      MarkedBoth(cfg, db, flow, user, address, signature, env, k);
      UserMark(db.users, user, cfg.pda(address), signature, env(forUser).reply.Applied());
      WalletMark(db.wallets, user, address, signature, env(forWallet).reply.Applied());
    }
  }

  lemma LastToSee(cfg: Config, address: string, env: nat -> Moment, k: nat, n: nat)
    requires ConfirmedBy(cfg, address, env, k, n)
    ensures LastDecides(SeenAt(cfg, address, env, k + 1), 0, n - k, true)
  {
    ConfirmedIff(cfg, address, env, k, n);
    var sees := SeenAt(cfg, address, env, k + 1);
    assert forall j :: 0 <= j < n - k ==> sees(j) == Sees(cfg, address, env(k + 1 + j));
  }

  lemma ConfirmedAttempt(cfg: Config, db: Db, db': Db, flow: Flow, user: Id, address: string, env: nat -> Moment, k: nat, n: nat)
    requires ConfirmedBy(cfg, address, env, k, n) && db' == Alone(cfg, db, Submit(flow, user, address), env, k)
    ensures db' == AfterAttempt(cfg, db, flow, user, address, Some(env(k).signature), env, n + 1)
  {
    LastToSee(cfg, address, env, k, n);
    AttemptEnds(cfg, db, flow, user, address, n - k, true, env, k);
  }

  lemma UnconfirmedAttempt(cfg: Config, db: Db, flow: Flow, user: Id, address: string, env: nat -> Moment, k: nat)
    requires !Confirms(cfg, address, env, k)
    ensures Alone(cfg, db, Submit(flow, user, address), env, k) == db
  {
    SubmitStep(cfg, db, flow, user, address, env, k);
    if env(k).reply.Answered? && cfg.programValid {
      NeverSeen(cfg, address, env, k, 20);
      var sees := SeenAt(cfg, address, env, k + 1);
      assert forall j :: 0 <= j < 20 ==> sees(j) == Sees(cfg, address, env(k + 1 + j));
      AttemptEnds(cfg, db, flow, user, address, POLL_COUNT, false, env, k);
    }
  }

  /** The first poll that sees the account would confirm the attempt. */
  lemma {:induction false} NeverSeen(cfg: Config, address: string, env: nat -> Moment, k: nat, polls: nat)
    requires !Confirms(cfg, address, env, k) && env(k).reply.Answered? && cfg.programValid && polls <= 20
    ensures forall j :: k < j <= k + polls ==> !Sees(cfg, address, env(j))
  {
    if polls > 0 {
      NeverSeen(cfg, address, env, k, polls - 1);
      ConfirmedIff(cfg, address, env, k, k + polls);
    }
  }

  /**
    Every attempt of every flow, however its calls end: its marks are made exactly when one of the twenty
    polls after an answered submission saw the account, with the signature that submission answered.
   */
  lemma AttemptRegisters(cfg: Config, db: Db, db': Db, flow: Flow, user: Id, address: string, env: nat -> Moment, k: nat)
    requires db' == Alone(cfg, db, Submit(flow, user, address), env, k)
    ensures Registered(cfg, db, db', flow, user, address, env, k)
  {
    if !Confirms(cfg, address, env, k) {
      UnconfirmedAttempt(cfg, db, flow, user, address, env, k);
    } else {
      var n: nat :| ConfirmedBy(cfg, address, env, k, n);
      ConfirmedAttempt(cfg, db, db', flow, user, address, env, k, n);
      MarksRecord(cfg, db, db', flow, user, address, env(k).signature, env, n + 1);
      RegisteredBy(cfg, db, db', flow, user, address, env, k, n);
    }
  }

  lemma RegisteredBy(cfg: Config, db: Db, db': Db, flow: Flow, user: Id, address: string, env: nat -> Moment, k: nat, n: nat)
    requires ConfirmedBy(cfg, address, env, k, n) && MarksMade(cfg, db, db', flow, user, address, env(k).signature, env, n + 1)
    ensures Registered(cfg, db, db', flow, user, address, env, k)
  {
    ConfirmedOnlyBy(cfg, address, env, k, n);
  }
}
