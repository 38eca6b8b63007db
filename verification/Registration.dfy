/**
  What every interleaving of the flows keeps, with any call failing and any task dropped at any await:
  flags never run ahead of the chain, the table constraints hold, and a lost primary has a cause.
 */
module Registration {
  import opened Prelude
  import opened Users
  import opened Database
  import opened Protocol

  ghost predicate UsersSafe(us: UserTable, chain: set<string>) {
    && UniqueMirrors(us)
    && forall u :: u in us ==> StatusOk(us[u]) && (us[u].registered ==> us[u].pda.value in chain)
  }

  ghost predicate WalletsSafe(cfg: Config, ws: WalletTable, chain: set<string>) {
    && Constraints(ws)
    && forall w :: w in ws && ws[w].registered ==> cfg.pda(ws[w].address) in chain
  }

  /** A task about to record a registration has seen the account. */
  ghost predicate TaskSafe(cfg: Config, t: Task, chain: set<string>) {
    && (t.MarkUser? || t.MarkWallet? ==> cfg.pda(t.address) in chain)
    && (ClearedLink(t) ==> t.primary)
    && (t.Touch? ==> !t.update.MarkOnboarded? && !t.update.SetWalletAddress?)
  }

  /** A user that ever had a primary still has one, or there is a reason on record or under way. */
  ghost predicate Accounted(w: World, u: Id) {
    || HasPrimary(w.db.wallets, u)
    || u in w.history.missed
    || u in w.history.stopped
    || exists id :: id in w.tasks && ClearedLink(w.tasks[id]) && w.tasks[id].user == u
  }

  ghost predicate Safe(cfg: Config, w: World) {
    && UsersSafe(w.db.users, w.chain)
    && WalletsSafe(cfg, w.db.wallets, w.chain)
    && (forall id :: id in w.tasks ==> TaskSafe(cfg, w.tasks[id], w.chain))
    && (forall u :: HasPrimary(w.db.wallets, u) ==>
         u in w.history.had && u !in w.history.missed && u !in w.history.stopped)
    && (forall u :: u in w.history.had ==> Accounted(w, u))
  }

  // ---- The statements ---------------------------------------------------------------------------

  lemma UpdateSafe(us: UserTable, ids: set<Id>, up: Update, chain: set<string>)
    requires UsersSafe(us, chain)
    requires up.MarkOnboarded? ==> up.pda in chain
    requires !up.SetWalletAddress?
    ensures UsersSafe(UpdateUsers(us, ids, up), chain)
  {
    forall u | u in us
      ensures var row := UpdateUsers(us, ids, up)[u];
              && StatusOk(row) && (row.registered ==> row.pda.value in chain)
              && row.walletAddress == us[u].walletAddress
    {
      UpdateKeepsStatus(us[u], up);
    }
  }

  lemma MirrorSafe(us: UserTable, u: Id, address: string, chain: set<string>)
    requires UsersSafe(us, chain) && WithWalletAddress(us, u, address).Some?
    ensures UsersSafe(WithWalletAddress(us, u, address).value, chain)
  {
  }

  lemma ClearSafe(cfg: Config, ws: WalletTable, u: Id, chain: set<string>)
    requires WalletsSafe(cfg, ws, chain)
    ensures WalletsSafe(cfg, WithoutPrimary(ws, u), chain)
  {
    ClearKeepsConstraints(ws, u);
  }

  lemma ChooseSafe(cfg: Config, ws: WalletTable, u: Id, w: Id, chain: set<string>)
    requires WalletsSafe(cfg, ws, chain)
    ensures WalletsSafe(cfg, WithPrimary(ws, u, w), chain)
  {
    PrimaryKeepsConstraints(ws, u, w);
  }

  lemma UnlinkSafe(cfg: Config, ws: WalletTable, u: Id, w: Id, chain: set<string>)
    requires WalletsSafe(cfg, ws, chain)
    ensures WalletsSafe(cfg, WithoutWallet(ws, u, w), chain)
  {
    DeleteKeepsConstraints(ws, u, w);
  }

  lemma InsertSafe(cfg: Config, ws: WalletTable, w: Id, u: Id, address: string, primary: bool, chain: set<string>)
    requires WalletsSafe(cfg, ws, chain) && w !in ws
    ensures var ws' := WithWallet(ws, w, u, address, primary);
            ws'.Some? ==> WalletsSafe(cfg, ws'.value, chain)
  {
  }

  lemma RegisterSafe(cfg: Config, ws: WalletTable, u: Id, address: string, signature: string, chain: set<string>)
    requires WalletsSafe(cfg, ws, chain) && cfg.pda(address) in chain
    ensures WalletsSafe(cfg, WithRegistered(ws, u, address, signature), chain)
  {
    RegisterKeepsConstraints(ws, u, address, signature);
  }

  // ---- One step of one task -----------------------------------------------------------------------

  /** The tasks whose call writes `users`, by the column they write. */
  predicate WritesMirror(t: Task) {
    t.Provision? || t.LinkMirror? || t.ChooseMirror?
  }

  predicate WritesOtherColumns(t: Task) {
    t.VerifyRow? || t.MarkUser? || t.Touch?
  }

  lemma OtherTasksLeaveUsers(cfg: Config, db: Db, t: Task, m: Moment)
    requires !WritesMirror(t) && !WritesOtherColumns(t)
    ensures Effect(cfg, db, t, m).db.users == db.users
  {
  }

  lemma MirrorEffectSafe(cfg: Config, db: Db, t: Task, m: Moment)
    requires UsersSafe(db.users, m.chain) && WritesMirror(t)
    ensures UsersSafe(Effect(cfg, db, t, m).db.users, m.chain)
  {
    var address := if t.Provision? then m.address else t.address;
    if WithWalletAddress(db.users, t.user, address).Some? {
      MirrorSafe(db.users, t.user, address, m.chain);
    }
  }

  lemma ApplyUsersSafe(db: Db, us: UserTable, m: Moment)
    requires UsersSafe(db.users, m.chain) && UsersSafe(us, m.chain)
    ensures UsersSafe(ApplyUsers(db, Some(us), m).users, m.chain)
  {
  }

  lemma UpdateEffectSafe(cfg: Config, db: Db, t: Task, m: Moment)
    requires UsersSafe(db.users, m.chain) && TaskSafe(cfg, t, m.chain) && WritesOtherColumns(t)
    ensures UsersSafe(Effect(cfg, db, t, m).db.users, m.chain)
  {
    var ids := if t.VerifyRow? then set u | u in db.users && db.users[u].email == t.email else {t.user};
    var up := if t.VerifyRow? then VerifyEmail else if t.MarkUser? then MarkOnboarded(cfg.pda(t.address), t.signature) else t.update;
    UpdateSafe(db.users, ids, up, m.chain);
    ApplyUsersSafe(db, UpdateUsers(db.users, ids, up), m);
    UpdateEffect(cfg, db, t, m, ids, up);
  }

  lemma UpdateEffect(cfg: Config, db: Db, t: Task, m: Moment, ids: set<Id>, up: Update)
    requires WritesOtherColumns(t)
    requires ids == if t.VerifyRow? then set u | u in db.users && db.users[u].email == t.email else {t.user}
    requires up == if t.VerifyRow? then VerifyEmail else if t.MarkUser? then MarkOnboarded(cfg.pda(t.address), t.signature) else t.update
    ensures Effect(cfg, db, t, m).db.users == ApplyUsers(db, Some(UpdateUsers(db.users, ids, up)), m).users
  {
  }

  lemma EffectUsersSafe(cfg: Config, db: Db, t: Task, m: Moment)
    requires UsersSafe(db.users, m.chain) && TaskSafe(cfg, t, m.chain)
    ensures UsersSafe(Effect(cfg, db, t, m).db.users, m.chain)
  {
    if WritesMirror(t) {
      MirrorEffectSafe(cfg, db, t, m);
    } else if WritesOtherColumns(t) {
      UpdateEffectSafe(cfg, db, t, m);
    } else {
      OtherTasksLeaveUsers(cfg, db, t, m);
    }
  }

  lemma InsertEffectSafe(cfg: Config, db: Db, t: Task, m: Moment)
    requires WalletsSafe(cfg, db.wallets, m.chain) && (t.Provision? || t.LinkInsert?)
    ensures WalletsSafe(cfg, Effect(cfg, db, t, m).db.wallets, m.chain)
  {
    ClearSafe(cfg, db.wallets, t.user, m.chain);
    if m.row !in db.wallets {
      if t.Provision? {
        InsertSafe(cfg, WithoutPrimary(db.wallets, t.user), m.row, t.user, m.address, true, m.chain);
      } else {
        InsertSafe(cfg, db.wallets, m.row, t.user, t.address, t.primary, m.chain);
      }
    }
  }

  lemma EffectWalletsSafe(cfg: Config, db: Db, t: Task, m: Moment)
    requires WalletsSafe(cfg, db.wallets, m.chain) && TaskSafe(cfg, t, m.chain)
    ensures WalletsSafe(cfg, Effect(cfg, db, t, m).db.wallets, m.chain)
  {
    if t.Provision? || t.LinkInsert? {
      InsertEffectSafe(cfg, db, t, m);
    } else if t.MarkWallet? {
      RegisterSafe(cfg, db.wallets, t.user, t.address, t.signature, m.chain);
    } else if t.ChoosePrimary? || t.Unlink? || t.LinkClear? {
      StatementEffectSafe(cfg, db, t, m);
    } else {
      OtherTasksLeaveWallets(cfg, db, t, m);
    }
  }

  lemma StatementEffectSafe(cfg: Config, db: Db, t: Task, m: Moment)
    requires WalletsSafe(cfg, db.wallets, m.chain) && (t.ChoosePrimary? || t.Unlink? || t.LinkClear?)
    ensures WalletsSafe(cfg, Effect(cfg, db, t, m).db.wallets, m.chain)
  {
    if t.LinkClear? {
      ClearSafe(cfg, db.wallets, t.user, m.chain);
      ApplySafe(cfg, db, WithoutPrimary(db.wallets, t.user), m);
    } else if t.ChoosePrimary? {
      ChooseSafe(cfg, db.wallets, t.user, t.wallet, m.chain);
      ApplySafe(cfg, db, WithPrimary(db.wallets, t.user, t.wallet), m);
    } else {
      UnlinkSafe(cfg, db.wallets, t.user, t.wallet, m.chain);
      ApplySafe(cfg, db, WithoutWallet(db.wallets, t.user, t.wallet), m);
    }
  }

  lemma ApplySafe(cfg: Config, db: Db, ws: WalletTable, m: Moment)
    requires WalletsSafe(cfg, db.wallets, m.chain) && WalletsSafe(cfg, ws, m.chain)
    ensures WalletsSafe(cfg, ApplyWallets(db, Some(ws), m).wallets, m.chain)
  {
  }

  lemma OtherTasksLeaveWallets(cfg: Config, db: Db, t: Task, m: Moment)
    requires !t.Provision? && !t.LinkInsert? && !t.MarkWallet? && !t.ChoosePrimary? && !t.Unlink? && !t.LinkClear?
    ensures Effect(cfg, db, t, m).db.wallets == db.wallets
  {
  }

  lemma EffectTasksSafe(cfg: Config, db: Db, t: Task, m: Moment)
    requires TaskSafe(cfg, t, m.chain)
    ensures var out := Effect(cfg, db, t, m);
            && (out.next.Some? ==> TaskSafe(cfg, out.next.value, m.chain))
            && (out.spawned.Some? ==> TaskSafe(cfg, out.spawned.value, m.chain))
  {
  }

  /** No call of any flow lets a flag run ahead of the chain or breaks a table constraint. */
  lemma EffectSafe(cfg: Config, db: Db, t: Task, m: Moment)
    requires UsersSafe(db.users, m.chain) && WalletsSafe(cfg, db.wallets, m.chain) && TaskSafe(cfg, t, m.chain)
    ensures var out := Effect(cfg, db, t, m);
            && UsersSafe(out.db.users, m.chain) && WalletsSafe(cfg, out.db.wallets, m.chain)
            && (out.next.Some? ==> TaskSafe(cfg, out.next.value, m.chain))
            && (out.spawned.Some? ==> TaskSafe(cfg, out.spawned.value, m.chain))
  {
    EffectUsersSafe(cfg, db, t, m);
    EffectWalletsSafe(cfg, db, t, m);
    EffectTasksSafe(cfg, db, t, m);
  }

  /** The only calls that take a primary away, and what they leave behind. */
  lemma EffectPrimary(cfg: Config, db: Db, t: Task, m: Moment, u: Id)
    requires Constraints(db.wallets)
    requires HasPrimary(db.wallets, u)
    ensures var out := Effect(cfg, db, t, m);
            || HasPrimary(out.db.wallets, u)
            || (t.ChoosePrimary? && t.user == u && m.reply.Applied() && !Owns(db.wallets, u, t.wallet))
            || (t.LinkClear? && t.user == u &&
                (m.reply.Unacknowledged? || (out.next.Some? && ClearedLink(out.next.value) && out.next.value.user == u)))
  {
    if t.Provision? || t.LinkInsert? {
      InsertsKeepPrimary(cfg, db, t, m, u);
    } else if t.ChoosePrimary? || t.LinkClear? {
      ClearsTakePrimary(cfg, db, t, m, u);
    } else {
      OthersKeepPrimary(cfg, db, t, m, u);
    }
  }

  lemma ClearsTakePrimary(cfg: Config, db: Db, t: Task, m: Moment, u: Id)
    requires Constraints(db.wallets) && HasPrimary(db.wallets, u) && (t.ChoosePrimary? || t.LinkClear?)
    ensures var out := Effect(cfg, db, t, m);
            HasPrimary(out.db.wallets, u)
            || (t.user == u && m.reply.Applied()
                && (t.ChoosePrimary? ==> !Owns(db.wallets, u, t.wallet))
                && (t.LinkClear? && m.reply.Answered? ==> out.next == Some(LinkInsert(u, t.address, true, true, false))))
  {
    if t.ChoosePrimary? {
      PrimaryKeepsConstraints(db.wallets, t.user, t.wallet);
    } else {
      ClearKeepsConstraints(db.wallets, t.user);
    }
  }

  lemma InsertsKeepPrimary(cfg: Config, db: Db, t: Task, m: Moment, u: Id)
    requires Constraints(db.wallets) && HasPrimary(db.wallets, u) && (t.Provision? || t.LinkInsert?)
    ensures HasPrimary(Effect(cfg, db, t, m).db.wallets, u)
  {
    if t.LinkInsert? {
      if m.row !in db.wallets && WithWallet(db.wallets, m.row, t.user, t.address, t.primary).Some? {
        InsertKeepsConstraints(db.wallets, m.row, t.user, t.address, t.primary);
      }
    } else {
      ClearKeepsConstraints(db.wallets, t.user);
      if m.row !in db.wallets && WithCustodialWallet(db, m.row, t.user, m.address).Some? {
        InsertKeepsConstraints(WithoutPrimary(db.wallets, t.user), m.row, t.user, m.address, true);
      }
    }
  }

  lemma OthersKeepPrimary(cfg: Config, db: Db, t: Task, m: Moment, u: Id)
    requires Constraints(db.wallets) && HasPrimary(db.wallets, u)
    requires !t.Provision? && !t.LinkInsert? && !t.ChoosePrimary? && !t.LinkClear?
    ensures HasPrimary(Effect(cfg, db, t, m).db.wallets, u)
  {
    if t.MarkWallet? {
      RegisterKeepsConstraints(db.wallets, t.user, t.address, t.signature);
    } else if t.Unlink? {
      DeleteKeepsConstraints(db.wallets, t.user, t.wallet);
    } else {
      OtherTasksLeaveWallets(cfg, db, t, m);
    }
  }

  /** A link that has cleared the old primary either installs the new one or is recorded as stopped. */
  lemma ClearedLinkEnds(cfg: Config, db: Db, t: Task, m: Moment)
    requires Constraints(db.wallets) && ClearedLink(t) && t.primary
    ensures var out := Effect(cfg, db, t, m);
            HasPrimary(out.db.wallets, t.user) || out.db.wallets == db.wallets
  {
  }

  // ---- Every run ------------------------------------------------------------------------------------

  lemma AdvanceAccounts(cfg: Config, w: World, id: nat, child: nat, m: Moment, u: Id)
    requires Safe(cfg, w) && id in w.tasks && m.chain == w.chain && child !in w.tasks
    requires u in Next(cfg, w, Advance(id, child, m)).history.had
    ensures Accounted(Next(cfg, w, Advance(id, child, m)), u)
  {
    var w' := Next(cfg, w, Advance(id, child, m));
    var t := w.tasks[id];
    var out := Effect(cfg, w.db, t, m);
    PrimariesMeaning(out.db.wallets, u);
    if HasPrimary(w.db.wallets, u) {
      EffectPrimary(cfg, w.db, t, m, u);
      if t.LinkClear? && out.next.Some? && ClearedLink(out.next.value) && out.next.value.user == u {
        assert id in w'.tasks && w'.tasks[id] == out.next.value;
      }
    } else if u in w.history.had {
      assert Accounted(w, u);
      if !(u in w.history.missed || u in w.history.stopped) {
        var other :| other in w.tasks && ClearedLink(w.tasks[other]) && w.tasks[other].user == u;
        if other == id {
          ClearedLinkEnds(cfg, w.db, t, m);
        } else {
          assert other in w'.tasks && w'.tasks[other] == w.tasks[other];
        }
      }
    }
  }

  lemma PrimariesMeaning(ws: WalletTable, u: Id)
    ensures u in Primaries(ws) <==> HasPrimary(ws, u)
  {
  }

  lemma AdvanceSafe(cfg: Config, w: World, id: nat, child: nat, m: Moment)
    requires Safe(cfg, w) && id in w.tasks && m.chain == w.chain && child !in w.tasks
    ensures Safe(cfg, Next(cfg, w, Advance(id, child, m)))
  {
    var w' := Next(cfg, w, Advance(id, child, m));
    EffectSafe(cfg, w.db, w.tasks[id], m);
    forall u | u in w'.history.had
      ensures Accounted(w', u)
    {
      AdvanceAccounts(cfg, w, id, child, m, u);
    }
    forall u | HasPrimary(w'.db.wallets, u)
      ensures u in w'.history.had && u !in w'.history.missed && u !in w'.history.stopped
    {
      PrimariesMeaning(w'.db.wallets, u);
    }
  }

  lemma DropSafe(cfg: Config, w: World, id: nat)
    requires Safe(cfg, w) && id in w.tasks
    ensures Safe(cfg, Next(cfg, w, Drop(id)))
  {
    var w' := Next(cfg, w, Drop(id));
    forall u | HasPrimary(w'.db.wallets, u)
      ensures u in w'.history.had && u !in w'.history.missed && u !in w'.history.stopped
    {
      PrimariesMeaning(w'.db.wallets, u);
    }
    forall u | u in w'.history.had
      ensures Accounted(w', u)
    {
      PrimariesMeaning(w'.db.wallets, u);
      assert Accounted(w, u);
      if !HasPrimary(w.db.wallets, u) && !(u in w.history.missed || u in w.history.stopped) {
        var other :| other in w.tasks && ClearedLink(w.tasks[other]) && w.tasks[other].user == u;
        if other != id {
          assert other in w'.tasks && w'.tasks[other] == w.tasks[other];
        }
      }
    }
  }

  lemma AccountedKept(w: World, w': World, u: Id)
    requires Accounted(w, u) && w'.db.wallets == w.db.wallets && w'.history == w.history
    requires forall id :: id in w.tasks ==> id in w'.tasks && w'.tasks[id] == w.tasks[id]
    ensures Accounted(w', u)
  {
  }

  lemma StepSafe(cfg: Config, w: World, step: Step)
    requires Safe(cfg, w)
    ensures Safe(cfg, Next(cfg, w, step))
  {
    var w' := Next(cfg, w, step);
    match step
    case Advance(id, child, m) =>
      if id in w.tasks && m.chain == w.chain && child !in w.tasks {
        AdvanceSafe(cfg, w, id, child, m);
      }
    case Drop(id) =>
      if id in w.tasks {
        DropSafe(cfg, w, id);
      }
    case _ =>
      forall u | u in w'.history.had
        ensures Accounted(w', u)
      {
        AccountedKept(w, w', u);
      }
  }

  lemma EmptySafe(cfg: Config)
    ensures Safe(cfg, EMPTY)
  {
  }

  lemma {:induction false} RunSafe(cfg: Config, w: World, steps: seq<Step>)
    requires Safe(cfg, w)
    ensures Safe(cfg, Run(cfg, w, steps))
    decreases |steps|
  {
    if steps != [] {
      StepSafe(cfg, w, steps[0]);
      RunSafe(cfg, Next(cfg, w, steps[0]), steps[1..]);
    }
  }

  /**
    In every interleaving of any number of the flows, with any call failing, any task dropped at any
    await and any account landing at any time: a wallet flagged registered has its PDA on chain, and
    a user flagged registered stores a PDA that is on chain, is confirmed, and carries a signature.
   */
  lemma FlagsNeverAheadOfChain(cfg: Config, steps: seq<Step>)
    ensures var w := Run(cfg, EMPTY, steps);
            && (forall x :: x in w.db.wallets && w.db.wallets[x].registered ==>
                 cfg.pda(w.db.wallets[x].address) in w.chain)
            && (forall u :: u in w.db.users && w.db.users[u].registered ==>
                 && w.db.users[u].pda.Some? && w.db.users[u].pda.value in w.chain
                 && w.db.users[u].status == Confirmed && w.db.users[u].signature.Some?)
  {
    EmptySafe(cfg);
    RunSafe(cfg, EMPTY, steps);
  }

  /**
    In every interleaving a user has at most one primary wallet and an address is linked once; and a
    user that ever had a primary and has none now was hit, since they last had one, by `set_primary`
    with a wallet they do not own or by a primary link that stopped between the clear and the insert,
    or such a link is still under way.
   */
  lemma PrimaryLossHasACause(cfg: Config, steps: seq<Step>)
    ensures var w := Run(cfg, EMPTY, steps);
            && Constraints(w.db.wallets)
            && (forall u :: HasPrimary(w.db.wallets, u) ==>
                 u in w.history.had && u !in w.history.missed && u !in w.history.stopped)
            && (forall u :: u in w.history.had && !HasPrimary(w.db.wallets, u) ==>
                 || u in w.history.missed || u in w.history.stopped
                 || exists id :: id in w.tasks && ClearedLink(w.tasks[id]) && w.tasks[id].user == u)
  {
    EmptySafe(cfg);
    RunSafe(cfg, EMPTY, steps);
    var w := Run(cfg, EMPTY, steps);
    forall u | u in w.history.had && !HasPrimary(w.db.wallets, u)
      ensures || u in w.history.missed || u in w.history.stopped
              || exists id :: id in w.tasks && ClearedLink(w.tasks[id]) && w.tasks[id].user == u
    {
      assert Accounted(w, u);
    }
  }
}
