/**
  The account flows that touch wallets and on-chain registration, one step per await, and the world
  they interleave in: the database, the set of accounts on chain, and the live tasks.
 */
module Protocol {
  import opened Prelude
  import opened Users
  import opened Database
  import opened Blockchain

  /** Which addresses parse, whether the configured Registry program id does, and the derived PDA of an address. */
  datatype Config = Config(validAddress: string -> bool, programValid: bool, pda: string -> string)

  const PREEXISTING := "preexisting-onchain"

  /** On whose behalf a registration transaction is submitted. */
  datatype Flow = Detached | Linking | Onboarding | Healing | Initialising

  /** A task, named by the call it awaits. */
  datatype Task =
    // verify_email and provision_custodial_wallet
    | VerifyRow(email: string)
    | CheckWallets(user: Id, hasMirror: bool)
    | Provision(user: Id)
    // link_wallet
    | LinkCheck(user: Id, address: string, primary: bool)
    | LinkClear(user: Id, address: string)
    | LinkInsert(user: Id, address: string, primary: bool, cleared: bool, first: bool)
    | LinkMirror(user: Id, address: string)
    | LinkLookup(user: Id, address: string)
    // onboard_user_on_chain
    | FindPrimary(user: Id)
    | Probe(user: Id, address: string)
    // register, confirm, record: shared by all flows
    | Submit(flow: Flow, user: Id, address: string)
    | Poll(flow: Flow, user: Id, address: string, signature: string, tries: nat)
    | MarkUser(flow: Flow, user: Id, address: string, signature: string)
    | MarkWallet(flow: Flow, user: Id, address: string, signature: string)
    // set_primary_wallet, unlink_wallet, and the updates other flows make to a user row
    | ChoosePrimary(user: Id, wallet: Id)
    | ChooseMirror(user: Id, address: string)
    | Unlink(user: Id, wallet: Id)
    | Touch(user: Id, update: Update)

  /** What a request may start as. A detached registration is only ever spawned by `Provision`. */
  predicate IsEntry(cfg: Config, t: Task) {
    match t
    case VerifyRow(_) | FindPrimary(_) | ChoosePrimary(_, _) | Unlink(_, _) => true
    case LinkCheck(_, address, _) => cfg.validAddress(address)
    case Submit(flow, _, address) => flow == Initialising && cfg.validAddress(address)
    case Touch(_, update) => update.SetVerificationToken? || update.UpdatePassword?
    case _ => false
  }

  /**
    The moment a call is made: its outcome, the accounts on chain, and what the environment answers:
    whether an existing account is seen, the row picked by a query or minted by an insert, the address
    found or generated, and the optimistic signature.
   */
  datatype Moment = Moment(reply: Reply, chain: set<string>, seen: bool, row: Id, address: string, signature: string)

  /** `account_exists(pda).await.unwrap_or(false)`: never true without the account. */
  predicate Sees(cfg: Config, address: string, m: Moment) {
    m.reply.Answered? && m.seen && cfg.pda(address) in m.chain
  }

  /** The effect of one call: the database, how the task goes on, and a task it spawns. */
  datatype Outcome = Outcome(db: Db, next: Option<Task>, spawned: Option<Task>)

  function Done(db: Db): Outcome {
    Outcome(db, None, None)
  }

  function Goto(db: Db, t: Task): Outcome {
    Outcome(db, Some(t), None)
  }

  function ApplyUsers(db: Db, next: Option<UserTable>, m: Moment): Db {
    if m.reply.Applied() && next.Some? then db.(users := next.value) else db
  }

  function ApplyWallets(db: Db, next: Option<WalletTable>, m: Moment): Db {
    if m.reply.Applied() && next.Some? then db.(wallets := next.value) else db
  }

  /** What follows a confirmed transaction. */
  function AfterConfirmation(flow: Flow, user: Id, address: string, signature: string): Task {
    if flow == Onboarding || flow == Healing then MarkUser(flow, user, address, signature)
    else MarkWallet(flow, user, address, signature)
  }

  // ---- The calls, by flow ----------------------------------------------------------------------

  function VerifyRowEffect(db: Db, email: string, m: Moment): Outcome {
    var ids := set u | u in db.users && db.users[u].email == email;
    var db' := ApplyUsers(db, Some(UpdateUsers(db.users, ids, VerifyEmail)), m);
    if m.reply.Answered? && m.row in ids
    then Goto(db', CheckWallets(m.row, db.users[m.row].walletAddress.Some?)) else Done(db')
  }

  /** A failed check counts as "has a wallet". */
  function CheckWalletsEffect(db: Db, user: Id, hasMirror: bool, m: Moment): Outcome {
    if m.reply.Answered? && !hasMirror && !HasAnyWallet(db.wallets, user) then Goto(db, Provision(user)) else Done(db)
  }

  function ProvisionEffect(db: Db, user: Id, m: Moment): Outcome {
    if m.row in db.wallets then Done(db) else
      var db' := WithCustodialWallet(db, m.row, user, m.address);
      Outcome(if m.reply.Applied() && db'.Some? then db'.value else db, None,
              if m.reply.Answered? && db'.Some? then Some(Submit(Detached, user, m.address)) else None)
  }

  function LinkCheckEffect(db: Db, user: Id, address: string, primary: bool, m: Moment): Outcome {
    var existing := HasAnyWallet(db.wallets, user);
    if !m.reply.Answered? then Done(db)
    else if existing && primary then Goto(db, LinkClear(user, address))
    else Goto(db, LinkInsert(user, address, primary, false, !existing))
  }

  function LinkClearEffect(db: Db, user: Id, address: string, m: Moment): Outcome {
    var db' := ApplyWallets(db, Some(WithoutPrimary(db.wallets, user)), m);
    if m.reply.Answered? then Goto(db', LinkInsert(user, address, true, true, false)) else Done(db')
  }

  function LinkInsertEffect(db: Db, user: Id, address: string, primary: bool, first: bool, m: Moment): Outcome {
    if m.row in db.wallets then Done(db) else
      var next := WithWallet(db.wallets, m.row, user, address, primary);
      var db' := ApplyWallets(db, next, m);
      if m.reply.Answered? && next.Some?
      then Goto(db', if primary || first then LinkMirror(user, address) else LinkLookup(user, address)) else Done(db')
  }

  function LinkLookupEffect(db: Db, user: Id, address: string, m: Moment): Outcome {
    if m.reply.Answered? && user in db.users && db.users[user].active && db.users[user].registered
    then Goto(db, Submit(Linking, user, address)) else Done(db)
  }

  function FindPrimaryEffect(cfg: Config, db: Db, user: Id, m: Moment): Outcome {
    if m.reply.Answered? && IsPrimaryAddress(db.wallets, user, m.address)
       && cfg.validAddress(m.address) && cfg.programValid
    then Goto(db, Probe(user, m.address)) else Done(db)
  }

  function PollEffect(cfg: Config, db: Db, flow: Flow, user: Id, address: string, signature: string, tries: nat, m: Moment): Outcome {
    if !cfg.programValid then Done(db)
    else if Sees(cfg, address, m) then Goto(db, AfterConfirmation(flow, user, address, signature))
    else if tries + 1 < POLL_COUNT then Goto(db, Poll(flow, user, address, signature, tries + 1))
    else Done(db)
  }

  function MarkUserEffect(cfg: Config, db: Db, flow: Flow, user: Id, address: string, signature: string, m: Moment): Outcome {
    var up := MarkOnboarded(cfg.pda(address), signature);
    var db' := ApplyUsers(db, Some(UpdateUsers(db.users, {user}, up)), m);
    if flow == Onboarding || flow == Healing then Goto(db', MarkWallet(flow, user, address, signature)) else Done(db')
  }

  function MarkWalletEffect(db: Db, flow: Flow, user: Id, address: string, signature: string, m: Moment): Outcome {
    var db' := ApplyWallets(db, Some(WithRegistered(db.wallets, user, address, signature)), m);
    if flow == Detached then Goto(db', MarkUser(flow, user, address, signature)) else Done(db')
  }

  function ChoosePrimaryEffect(db: Db, user: Id, wallet: Id, m: Moment): Outcome {
    var db' := ApplyWallets(db, Some(WithPrimary(db.wallets, user, wallet)), m);
    if m.reply.Answered? && Owns(db.wallets, user, wallet)
    then Goto(db', ChooseMirror(user, db.wallets[wallet].address)) else Done(db')
  }

  function Effect(cfg: Config, db: Db, t: Task, m: Moment): Outcome {
    match t
    case VerifyRow(email) => VerifyRowEffect(db, email, m)
    case CheckWallets(user, hasMirror) => CheckWalletsEffect(db, user, hasMirror, m)
    case Provision(user) => ProvisionEffect(db, user, m)
    case LinkCheck(user, address, primary) => LinkCheckEffect(db, user, address, primary, m)
    case LinkClear(user, address) => LinkClearEffect(db, user, address, m)
    case LinkInsert(user, address, primary, _, first) => LinkInsertEffect(db, user, address, primary, first, m)
    case LinkMirror(user, address) =>
      Goto(ApplyUsers(db, WithWalletAddress(db.users, user, address), m), LinkLookup(user, address))
    case LinkLookup(user, address) => LinkLookupEffect(db, user, address, m)
    case FindPrimary(user) => FindPrimaryEffect(cfg, db, user, m)
    case Probe(user, address) =>
      if Sees(cfg, address, m) then Goto(db, MarkUser(Healing, user, address, PREEXISTING))
      else Goto(db, Submit(Onboarding, user, address))
    case Submit(flow, user, address) =>
      if m.reply.Answered? then Goto(db, Poll(flow, user, address, m.signature, 0)) else Done(db)
    case Poll(flow, user, address, signature, tries) => PollEffect(cfg, db, flow, user, address, signature, tries, m)
    case MarkUser(flow, user, address, signature) => MarkUserEffect(cfg, db, flow, user, address, signature, m)
    case MarkWallet(flow, user, address, signature) => MarkWalletEffect(db, flow, user, address, signature, m)
    case ChoosePrimary(user, wallet) => ChoosePrimaryEffect(db, user, wallet, m)
    case ChooseMirror(user, address) =>
      Done(ApplyUsers(db, WithWalletAddress(db.users, user, address), m))
    case Unlink(user, wallet) =>
      Done(ApplyWallets(db, Some(WithoutWallet(db.wallets, user, wallet)), m))
    case Touch(user, update) =>
      Done(ApplyUsers(db, Some(UpdateUsers(db.users, {user}, update)), m))
  }

  // ---- Interleavings --------------------------------------------------------------------------

  /**
    History used to state what happened: users that ever had a primary wallet and, since each last had
    one, the users on whom `set_primary` was run with a wallet they do not own and the users one of
    whose primary links stopped after clearing the old primary without inserting the new one.
   */
  datatype History = History(had: set<Id>, missed: set<Id>, stopped: set<Id>)

  datatype World = World(db: Db, chain: set<string>, tasks: map<nat, Task>, history: History)

  datatype Step =
    | Create(user: Id, username: string, email: string, hash: string, token: Option<Token>)
    | Spawn(id: nat, task: Task)
    | Advance(id: nat, child: nat, moment: Moment)
    | Drop(id: nat)
    | Land(account: string)

  const EMPTY: World := World(Db(map[], map[]), {}, map[], History({}, {}, {}))

  predicate ClearedLink(t: Task) {
    t.LinkInsert? && t.cleared
  }

  /** Users with a primary wallet, among those with wallets. */
  function Primaries(ws: WalletTable): set<Id> {
    set w | w in ws && ws[w].primary :: ws[w].owner
  }

  function Since(had: set<Id>, missed: set<Id>, stopped: set<Id>, db: Db): History {
    History(had, missed - Primaries(db.wallets), stopped - Primaries(db.wallets))
  }

  function Recorded(h: History, before: Db, t: Task, m: Moment, after: Db): History {
    var missed := t.ChoosePrimary? && m.reply.Applied() && !Owns(before.wallets, t.user, t.wallet);
    var stopped := (t.LinkClear? && m.reply.Unacknowledged?) || (ClearedLink(t) && after.wallets == before.wallets);
    Since(h.had + Primaries(after.wallets), if missed then h.missed + {t.user} else h.missed,
          if stopped then h.stopped + {t.user} else h.stopped, after)
  }

  /** A step that is not enabled leaves the world as it is. */
  function Next(cfg: Config, w: World, step: Step): World {
    match step
    case Create(user, username, email, hash, token) =>
      if user in w.db.users then w
      else w.(db := w.db.(users := w.db.users[user := Fresh(username, email, hash, token)]))
    case Spawn(id, task) =>
      if id in w.tasks || !IsEntry(cfg, task) then w else w.(tasks := w.tasks[id := task])
    case Advance(id, child, moment) =>
      if id !in w.tasks || moment.chain != w.chain || child in w.tasks then w
      else
        var t := w.tasks[id];
        var out := Effect(cfg, w.db, t, moment);
        var rest := w.tasks - {id};
        var going := if out.next.Some? then rest[id := out.next.value] else rest;
        var tasks := if out.spawned.Some? then going[child := out.spawned.value] else going;
        World(out.db, w.chain, tasks, Recorded(w.history, w.db, t, moment, out.db))
    case Drop(id) =>
      if id !in w.tasks then w
      else
        var stopped := if ClearedLink(w.tasks[id]) then w.history.stopped + {w.tasks[id].user} else w.history.stopped;
        w.(tasks := w.tasks - {id}, history := Since(w.history.had, w.history.missed, stopped, w.db))
    case Land(account) => w.(chain := w.chain + {account})
  }

  function Run(cfg: Config, w: World, steps: seq<Step>): World
    decreases |steps|
  {
    if steps == [] then w else Run(cfg, Next(cfg, w, steps[0]), steps[1..])
  }

  // ---- One task on its own ---------------------------------------------------------------------

  function Rank(t: Task): nat {
    match t
    case VerifyRow(_) => 3
    case CheckWallets(_, _) => 2
    case Provision(_) => 1
    case LinkCheck(_, _, _) => 40
    case LinkClear(_, _) => 39
    case LinkInsert(_, _, _, _, _) => 38
    case LinkMirror(_, _) => 37
    case LinkLookup(_, _) => 36
    case FindPrimary(_) => 36
    case Probe(_, _) => 35
    case Submit(_, _, _) => 34
    case Poll(_, _, _, _, tries) => if tries < POLL_COUNT then 30 - tries else 10
    case MarkUser(flow, _, _, _) => if flow == Onboarding || flow == Healing then 2 else 1
    case MarkWallet(flow, _, _, _) => if flow == Detached then 2 else 1
    case ChoosePrimary(_, _) => 2
    case ChooseMirror(_, _) => 1
    case Unlink(_, _) => 1
    case Touch(_, _) => 1
  }

  lemma EffectDescends(cfg: Config, db: Db, t: Task, m: Moment)
    ensures var out := Effect(cfg, db, t, m);
            out.next.Some? ==> Rank(out.next.value) < Rank(t) && out.spawned.None?
  {
  }

  /** The task run to its end with nothing in between; its k-th call meets `env(k)`. */
  function Alone(cfg: Config, db: Db, t: Task, env: nat -> Moment, k: nat): Db
    decreases Rank(t)
  {
    var out := Effect(cfg, db, t, env(k));
    EffectDescends(cfg, db, t, env(k));
    if out.next.Some? then Alone(cfg, out.db, out.next.value, env, k + 1) else out.db
  }

  /** What is left once the k-th call has had its effect. */
  function Onward(cfg: Config, out: Outcome, env: nat -> Moment, k: nat): Db {
    if out.next.Some? then Alone(cfg, out.db, out.next.value, env, k) else out.db
  }

  lemma AloneStep(cfg: Config, db: Db, t: Task, env: nat -> Moment, k: nat, out: Outcome)
    requires out == Effect(cfg, db, t, env(k))
    ensures Alone(cfg, db, t, env, k) == Onward(cfg, out, env, k + 1)
  {
  }

  /** Whatever a task does alone, it does in a run of the world in which nothing else moves. */
  lemma {:induction false} AloneIsARun(cfg: Config, w: World, id: nat, child: nat, env: nat -> Moment, k: nat)
    returns (steps: seq<Step>)
    requires id in w.tasks && child !in w.tasks
    requires forall j :: env(j).chain == w.chain
    ensures var w' := Run(cfg, w, steps);
            && w'.db == Alone(cfg, w.db, w.tasks[id], env, k)
            && w'.chain == w.chain
            && id !in w'.tasks && (forall other :: other in w.tasks && other != id ==>
                 other in w'.tasks && w'.tasks[other] == w.tasks[other])
    decreases Rank(w.tasks[id])
  {
    var t := w.tasks[id];
    var out := Effect(cfg, w.db, t, env(k));
    var step := Advance(id, child, env(k));
    var w1 := Next(cfg, w, step);
    AloneStep(cfg, w.db, t, env, k, out);
    if out.next.Some? {
      EffectDescends(cfg, w.db, t, env(k));
      var rest := AloneIsARun(cfg, w1, id, child, env, k + 1);
      steps := [step] + rest;
      assert steps[1..] == rest;
    } else {
      steps := [step];
      assert Run(cfg, w1, []) == w1;
    }
  }
}
