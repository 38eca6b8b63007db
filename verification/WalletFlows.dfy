/** Wallet operations run one after another: the primary index, the mirrored address, and how links end. */
module WalletFlows {
  import opened Prelude
  import opened Users
  import opened Database
  import opened Protocol

  // ---- The one-primary index ---------------------------------------------------------------------

  /** No insert made by this task, run alone, is rejected by the one-primary index. */
  predicate IndexQuiet(cfg: Config, db: Db, t: Task, env: nat -> Moment, k: nat)
    decreases Rank(t)
  {
    var out := Effect(cfg, db, t, env(k));
    EffectDescends(cfg, db, t, env(k));
    && (t.LinkInsert? ==> InsertViolation(db.wallets, t.user, t.address, t.primary) != Some(SecondPrimary))
    && (t.Provision? ==>
         InsertViolation(WithoutPrimary(db.wallets, t.user), t.user, env(k).address, true) != Some(SecondPrimary))
    && (out.next.Some? ==> IndexQuiet(cfg, out.db, out.next.value, env, k + 1))
  }

  /** Before a primary row is inserted the user has no primary. */
  predicate Ready(db: Db, t: Task) {
    t.LinkInsert? && t.primary ==> !HasPrimary(db.wallets, t.user)
  }

  lemma EffectReady(cfg: Config, db: Db, t: Task, m: Moment)
    requires Constraints(db.wallets)
    ensures var out := Effect(cfg, db, t, m);
            out.next.Some? ==> Ready(out.db, out.next.value)
    ensures t.Provision? ==> !HasPrimary(WithoutPrimary(db.wallets, t.user), t.user)
  {
    if t.LinkClear? || t.Provision? {
      ClearKeepsConstraints(db.wallets, t.user);
    }
  }

  lemma {:induction false} RunsQuietly(cfg: Config, db: Db, t: Task, env: nat -> Moment, k: nat)
    requires Constraints(db.wallets) && Ready(db, t)
    ensures IndexQuiet(cfg, db, t, env, k)
    decreases Rank(t)
  {
    EffectReady(cfg, db, t, env(k));
    EffectDescends(cfg, db, t, env(k));
    var out := Effect(cfg, db, t, env(k));
    if out.next.Some? {
      EffectConstraints(cfg, db, t, env(k));
      RunsQuietly(cfg, out.db, out.next.value, env, k + 1);
    }
  }

  lemma ProvisionConstraints(cfg: Config, db: Db, t: Task, m: Moment)
    requires Constraints(db.wallets) && t.Provision?
    ensures Constraints(Effect(cfg, db, t, m).db.wallets)
  {
    ClearKeepsConstraints(db.wallets, t.user);
    if m.row !in db.wallets && WithCustodialWallet(db, m.row, t.user, m.address).Some? {
      InsertKeepsConstraints(WithoutPrimary(db.wallets, t.user), m.row, t.user, m.address, true);
    }
  }

  lemma EffectConstraints(cfg: Config, db: Db, t: Task, m: Moment)
    requires Constraints(db.wallets)
    ensures Constraints(Effect(cfg, db, t, m).db.wallets)
  {
    if t.Provision? {
      ProvisionConstraints(cfg, db, t, m);
    } else if t.LinkClear? {
      ClearKeepsConstraints(db.wallets, t.user);
    } else if t.LinkInsert? {
      if m.row !in db.wallets && WithWallet(db.wallets, m.row, t.user, t.address, t.primary).Some? {
        InsertKeepsConstraints(db.wallets, m.row, t.user, t.address, t.primary);
      }
    } else if t.MarkWallet? {
      RegisterKeepsConstraints(db.wallets, t.user, t.address, t.signature);
    } else if t.ChoosePrimary? {
      PrimaryKeepsConstraints(db.wallets, t.user, t.wallet);
    } else if t.Unlink? {
      DeleteKeepsConstraints(db.wallets, t.user, t.wallet);
    } else {
      assert Effect(cfg, db, t, m).db.wallets == db.wallets;
    }
  }

  /** Requests handled one after another: each runs alone from where the one before it ended. */
  function Sequential(cfg: Config, db: Db, requests: seq<(Task, nat -> Moment)>): Db
    decreases |requests|
  {
    if requests == [] then db
    else Sequential(cfg, Alone(cfg, db, requests[0].0, requests[0].1, 0), requests[1..])
  }

  lemma {:induction false} AloneConstraints(cfg: Config, db: Db, t: Task, env: nat -> Moment, k: nat)
    requires Constraints(db.wallets)
    ensures Constraints(Alone(cfg, db, t, env, k).wallets)
    decreases Rank(t)
  {
    EffectConstraints(cfg, db, t, env(k));
    EffectDescends(cfg, db, t, env(k));
    var out := Effect(cfg, db, t, env(k));
    if out.next.Some? {
      AloneConstraints(cfg, out.db, out.next.value, env, k + 1);
    }
  }

  lemma {:induction false} SequentialConstraints(cfg: Config, db: Db, requests: seq<(Task, nat -> Moment)>)
    requires Constraints(db.wallets)
    ensures Constraints(Sequential(cfg, db, requests).wallets)
    decreases |requests|
  {
    if requests != [] {
      AloneConstraints(cfg, db, requests[0].0, requests[0].1, 0);
      SequentialConstraints(cfg, Alone(cfg, db, requests[0].0, requests[0].1, 0), requests[1..]);
    }
  }

  /** However sequential requests fail, the one-primary index never rejects a write of the next one. */
  lemma IndexNeverRejectsSequentially(cfg: Config, users: UserTable, requests: seq<(Task, nat -> Moment)>, t: Task, env: nat -> Moment)
    requires IsEntry(cfg, t)
    ensures IndexQuiet(cfg, Sequential(cfg, Db(users, map[]), requests), t, env, 0)
  {
    SequentialConstraints(cfg, Db(users, map[]), requests);
    RunsQuietly(cfg, Sequential(cfg, Db(users, map[]), requests), t, env, 0);
  }

  // ---- A primary link ----------------------------------------------------------------------------

  /** All calls of one request are answered, and each insert gets a fresh row id. */
  ghost predicate Answers(env: nat -> Moment, db: Db) {
    forall k: nat :: env(k).reply.Answered? && env(k).row !in db.wallets
  }

  /** After the insert, a link no longer touches any primary flag. */
  lemma {:induction false} TailKeepsPrimaries(cfg: Config, db: Db, t: Task, env: nat -> Moment, k: nat, u: Id)
    requires t.LinkMirror? || t.LinkLookup? || t.Submit? || t.Poll? || t.MarkUser? || t.MarkWallet?
    requires Constraints(db.wallets)
    ensures HasPrimary(Alone(cfg, db, t, env, k).wallets, u) <==> HasPrimary(db.wallets, u)
    decreases Rank(t)
  {
    if t.MarkWallet? {
      RegisterKeepsConstraints(db.wallets, t.user, t.address, t.signature);
    }
    EffectConstraints(cfg, db, t, env(k));
    EffectDescends(cfg, db, t, env(k));
    var out := Effect(cfg, db, t, env(k));
    if out.next.Some? {
      TailKeepsPrimaries(cfg, out.db, out.next.value, env, k + 1, u);
    }
  }

  /**
    A user with a primary who links another address as primary, every call being answered, keeps a
    primary exactly when the address is not linked yet: a duplicate is refused after the clear.
   */
  lemma PrimaryLinkKeepsPrimary(cfg: Config, db: Db, u: Id, address: string, env: nat -> Moment)
    requires Constraints(db.wallets) && HasPrimary(db.wallets, u) && Answers(env, db)
    ensures HasPrimary(Alone(cfg, db, LinkCheck(u, address, true), env, 0).wallets, u)
       <==> !AddressLinked(db.wallets, address)
  {
    var w :| w in db.wallets && db.wallets[w].owner == u && db.wallets[w].primary;
    assert HasAnyWallet(db.wallets, u);
    ClearKeepsConstraints(db.wallets, u);
    var cleared := db.(wallets := WithoutPrimary(db.wallets, u));
    AddressesKept(db.wallets, u, address);
    var insert := LinkInsert(u, address, true, true, false);
    var out := Effect(cfg, cleared, insert, env(2));
    assert Effect(cfg, db, LinkCheck(u, address, true), env(0)).next == Some(LinkClear(u, address));
    assert Effect(cfg, db, LinkClear(u, address), env(1)) == Goto(cleared, insert);
    assert Alone(cfg, db, LinkCheck(u, address, true), env, 0) == Alone(cfg, db, LinkClear(u, address), env, 1)
        == Alone(cfg, cleared, insert, env, 2);
    if AddressLinked(db.wallets, address) {
      assert out == Done(cleared);
    } else {
      InsertKeepsConstraints(cleared.wallets, env(2).row, u, address, true);
      TailKeepsPrimaries(cfg, out.db, out.next.value, env, 3, u);
    }
  }

  lemma AddressesKept(ws: WalletTable, u: Id, address: string)
    ensures AddressLinked(WithoutPrimary(ws, u), address) <==> AddressLinked(ws, address)
  {
  }

  /** `set_primary` keeps a user's primary exactly when the user owns the wallet it names. */
  lemma ChoosingKeepsPrimary(cfg: Config, db: Db, u: Id, w: Id, env: nat -> Moment)
    requires Constraints(db.wallets) && env(0).reply.Applied()
    ensures HasPrimary(Alone(cfg, db, ChoosePrimary(u, w), env, 0).wallets, u) <==> Owns(db.wallets, u, w)
  {
    PrimaryKeepsConstraints(db.wallets, u, w);
    ChoosingWallets(cfg, db, u, w, env);
  }

  lemma ChoosingWallets(cfg: Config, db: Db, u: Id, w: Id, env: nat -> Moment)
    requires env(0).reply.Applied()
    ensures Alone(cfg, db, ChoosePrimary(u, w), env, 0).wallets == WithPrimary(db.wallets, u, w)
  {
    var out := Effect(cfg, db, ChoosePrimary(u, w), env(0));
    AloneStep(cfg, db, ChoosePrimary(u, w), env, 0, out);
  }

  // ---- users.wallet_address mirrors the primary ----------------------------------------------------

  ghost predicate MirrorOk(db: Db, u: Id) {
    forall w :: w in db.wallets && db.wallets[w].owner == u && db.wallets[w].primary && u in db.users ==>
      db.users[u].walletAddress == Some(db.wallets[w].address)
  }

  /** Between a change of primary and the update that follows it, only the address to be written is primary. */
  ghost predicate MirrorDue(db: Db, t: Task) {
    && (forall v :: !((t.LinkMirror? || t.ChooseMirror?) && v == t.user) ==> MirrorOk(db, v))
    && (t.LinkMirror? || t.ChooseMirror? ==>
         forall w :: w in db.wallets && db.wallets[w].owner == t.user && db.wallets[w].primary ==>
           db.wallets[w].address == t.address)
  }

  /** Every address update of this task, run alone, takes effect, and no change of primary loses its answer. */
  predicate MirrorsWritten(cfg: Config, db: Db, t: Task, env: nat -> Moment, k: nat)
    decreases Rank(t)
  {
    var out := Effect(cfg, db, t, env(k));
    EffectDescends(cfg, db, t, env(k));
    && (t.LinkMirror? || t.ChooseMirror? ==>
         env(k).reply.Applied() && WithWalletAddress(db.users, t.user, t.address).Some?)
    && (t.LinkInsert? || t.ChoosePrimary? ==> !env(k).reply.Unacknowledged?)
    && (out.next.Some? ==> MirrorsWritten(cfg, out.db, out.next.value, env, k + 1))
  }

  lemma WalletEffectDue(cfg: Config, db: Db, t: Task, m: Moment)
    requires Constraints(db.wallets) && MirrorDue(db, t) && Ready(db, t)
    requires t.LinkInsert? || t.ChoosePrimary?
    requires !m.reply.Unacknowledged?
    requires t.LinkInsert? && t.first ==> !HasAnyWallet(db.wallets, t.user)
    ensures var out := Effect(cfg, db, t, m);
            if out.next.Some? then MirrorDue(out.db, out.next.value) else forall v :: MirrorOk(out.db, v)
  {
    var out := Effect(cfg, db, t, m);
    forall v | v != t.user
      ensures MirrorOk(out.db, v)
    {
      assert MirrorOk(db, v);
      OthersMirrors(cfg, db, t, m, v);
    }
    assert MirrorOk(db, t.user);
    if t.LinkInsert? {
      InsertDue(cfg, db, t, m);
    } else {
      ChooseDue(cfg, db, t, m);
    }
  }

  /** Another user's wallets are not touched. */
  lemma OthersMirrors(cfg: Config, db: Db, t: Task, m: Moment, v: Id)
    requires (t.LinkInsert? || t.ChoosePrimary?) && v != t.user && MirrorOk(db, v)
    ensures MirrorOk(Effect(cfg, db, t, m).db, v)
  {
    assert Effect(cfg, db, t, m).db.users == db.users;
  }

  lemma ChooseDue(cfg: Config, db: Db, t: Task, m: Moment)
    requires t.ChoosePrimary? && !m.reply.Unacknowledged? && Constraints(db.wallets) && MirrorOk(db, t.user)
    ensures var out := Effect(cfg, db, t, m);
            if out.next.Some? then
              && out.next.value.ChooseMirror? && out.next.value.user == t.user
              && (forall w :: w in out.db.wallets && out.db.wallets[w].owner == t.user && out.db.wallets[w].primary ==>
                   out.db.wallets[w].address == out.next.value.address)
            else MirrorOk(out.db, t.user)
  {
  }

  lemma InsertDue(cfg: Config, db: Db, t: Task, m: Moment)
    requires t.LinkInsert? && !m.reply.Unacknowledged?
    requires Constraints(db.wallets) && MirrorOk(db, t.user)
    requires t.primary ==> !HasPrimary(db.wallets, t.user)
    requires t.first ==> !HasAnyWallet(db.wallets, t.user)
    ensures var out := Effect(cfg, db, t, m);
            if out.next.Some? && out.next.value.LinkMirror? then
              out.next.value == LinkMirror(t.user, t.address)
              && forall w :: w in out.db.wallets && out.db.wallets[w].owner == t.user && out.db.wallets[w].primary ==>
                   out.db.wallets[w].address == t.address
            else MirrorOk(out.db, t.user)
  {
  }

  lemma MirrorEffectDue(cfg: Config, db: Db, t: Task, m: Moment)
    requires Constraints(db.wallets) && MirrorDue(db, t)
    requires t.LinkMirror? || t.ChooseMirror?
    requires m.reply.Applied() && WithWalletAddress(db.users, t.user, t.address).Some?
    ensures var out := Effect(cfg, db, t, m);
            if out.next.Some? then MirrorDue(out.db, out.next.value) else forall v :: MirrorOk(out.db, v)
  {
    var out := Effect(cfg, db, t, m);
    forall v
      ensures MirrorOk(out.db, v)
    {
      if v != t.user {
        assert MirrorOk(db, v);
      }
    }
  }

  /** No address column has changed. */
  ghost predicate SameMirrors(us: UserTable, us': UserTable) {
    us'.Keys == us.Keys && forall u :: u in us ==> us'[u].walletAddress == us[u].walletAddress
  }

  /** Primary rows have at most been demoted. */
  ghost predicate NoNewPrimary(ws: WalletTable, ws': WalletTable) {
    forall w :: w in ws' && ws'[w].primary ==>
      w in ws && ws[w].primary && ws'[w].owner == ws[w].owner && ws'[w].address == ws[w].address
  }

  lemma OtherEffectUsers(cfg: Config, db: Db, t: Task, m: Moment)
    requires !t.LinkMirror? && !t.ChooseMirror? && !t.Provision?
    requires t.Touch? ==> !t.update.SetWalletAddress?
    ensures SameMirrors(db.users, Effect(cfg, db, t, m).db.users)
  {
    if t.VerifyRow? {
      UpdateKeepsMirrors(db.users, (set u | u in db.users && db.users[u].email == t.email), VerifyEmail);
    } else if t.MarkUser? {
      UpdateKeepsMirrors(db.users, {t.user}, MarkOnboarded(cfg.pda(t.address), t.signature));
    } else if t.Touch? {
      UpdateKeepsMirrors(db.users, {t.user}, t.update);
    } else {
      assert Effect(cfg, db, t, m).db.users == db.users;
    }
  }

  lemma UpdateKeepsMirrors(us: UserTable, ids: set<Id>, up: Update)
    requires !up.SetWalletAddress?
    ensures SameMirrors(us, UpdateUsers(us, ids, up))
  {
  }

  lemma OtherEffectWallets(cfg: Config, db: Db, t: Task, m: Moment)
    requires !t.LinkInsert? && !t.ChoosePrimary? && !t.Provision?
    ensures NoNewPrimary(db.wallets, Effect(cfg, db, t, m).db.wallets)
  {
    if t.LinkClear? {
      assert NoNewPrimary(db.wallets, WithoutPrimary(db.wallets, t.user));
    } else if t.MarkWallet? {
      assert NoNewPrimary(db.wallets, WithRegistered(db.wallets, t.user, t.address, t.signature));
    } else if t.Unlink? {
      assert NoNewPrimary(db.wallets, WithoutWallet(db.wallets, t.user, t.wallet));
    } else {
      assert Effect(cfg, db, t, m).db.wallets == db.wallets;
    }
  }

  lemma ProvisionMirrors(cfg: Config, db: Db, t: Task, m: Moment, v: Id)
    requires t.Provision? && MirrorOk(db, v)
    ensures MirrorOk(Effect(cfg, db, t, m).db, v)
  {
  }

  lemma NextLink(cfg: Config, db: Db, t: Task, m: Moment)
    requires !t.LinkInsert? && !t.ChoosePrimary? && !t.LinkMirror? && !t.ChooseMirror?
    ensures var out := Effect(cfg, db, t, m);
            && (out.next.Some? ==> !out.next.value.LinkMirror? && !out.next.value.ChooseMirror?)
            && (out.next.Some? && out.next.value.LinkInsert? && out.next.value.first ==>
                 !HasAnyWallet(out.db.wallets, out.next.value.user))
  {
  }

  lemma OtherEffectDue(cfg: Config, db: Db, t: Task, m: Moment)
    requires MirrorDue(db, t)
    requires !t.LinkInsert? && !t.ChoosePrimary? && !t.LinkMirror? && !t.ChooseMirror?
    requires t.Touch? ==> !t.update.SetWalletAddress?
    ensures forall v :: MirrorOk(Effect(cfg, db, t, m).db, v)
  {
    forall v
      ensures MirrorOk(Effect(cfg, db, t, m).db, v)
    {
      assert MirrorOk(db, v);
      if t.Provision? {
        ProvisionMirrors(cfg, db, t, m, v);
      } else {
        OtherEffectUsers(cfg, db, t, m);
        OtherEffectWallets(cfg, db, t, m);
      }
    }
  }

  lemma {:induction false} AloneMirrors(cfg: Config, db: Db, t: Task, env: nat -> Moment, k: nat)
    requires Constraints(db.wallets) && MirrorDue(db, t) && Ready(db, t)
    requires t.LinkInsert? && t.first ==> !HasAnyWallet(db.wallets, t.user)
    requires t.Touch? ==> !t.update.SetWalletAddress?
    requires MirrorsWritten(cfg, db, t, env, k)
    ensures forall v :: MirrorOk(Alone(cfg, db, t, env, k), v)
    decreases Rank(t)
  {
    EffectDescends(cfg, db, t, env(k));
    EffectConstraints(cfg, db, t, env(k));
    EffectReady(cfg, db, t, env(k));
    var out := Effect(cfg, db, t, env(k));
    if t.LinkInsert? || t.ChoosePrimary? {
      WalletEffectDue(cfg, db, t, env(k));
    } else if t.LinkMirror? || t.ChooseMirror? {
      MirrorEffectDue(cfg, db, t, env(k));
    } else {
      OtherEffectDue(cfg, db, t, env(k));
      NextLink(cfg, db, t, env(k));
    }
    if out.next.Some? {
      AloneMirrors(cfg, out.db, out.next.value, env, k + 1);
    }
  }

  ghost predicate AllMirrorsWritten(cfg: Config, db: Db, requests: seq<(Task, nat -> Moment)>)
    decreases |requests|
  {
    requests != [] ==>
      && (IsEntry(cfg, requests[0].0) || requests[0].0.Submit?)
      && MirrorsWritten(cfg, db, requests[0].0, requests[0].1, 0)
      && AllMirrorsWritten(cfg, Alone(cfg, db, requests[0].0, requests[0].1, 0), requests[1..])
  }

  /**
    Over sequential requests (and detached registrations) whose address updates take effect and whose
    changes of primary do not lose their answer, whenever a user has a primary wallet
    `users.wallet_address` is its address.
   */
  lemma {:induction false} MirrorFollowsPrimary(cfg: Config, db: Db, requests: seq<(Task, nat -> Moment)>)
    requires Constraints(db.wallets) && (forall v :: MirrorOk(db, v))
    requires AllMirrorsWritten(cfg, db, requests)
    ensures forall v :: MirrorOk(Sequential(cfg, db, requests), v)
    decreases |requests|
  {
    if requests != [] {
      var (t, env) := requests[0];
      AloneMirrors(cfg, db, t, env, 0);
      AloneConstraints(cfg, db, t, env, 0);
      MirrorFollowsPrimary(cfg, Alone(cfg, db, t, env, 0), requests[1..]);
    }
  }

  /** The address update sent as call `k` leaves the column with the address: it takes effect, or need not. */
  predicate MirrorWrittenAt(db: Db, u: Id, address: string, env: nat -> Moment, k: nat)
    requires u in db.users
  {
    || db.users[u].walletAddress == Some(address)
    || (env(k).reply.Answered? && env(k + 1).reply.Applied() && !MirrorTaken(db.users, u, address))
  }

  /** A table in which the one primary of `u` is `address`. */
  lemma MirrorOfOne(db: Db, u: Id, w: Id, address: string)
    requires Constraints(db.wallets) && u in db.users && Owns(db.wallets, u, w) && db.wallets[w].primary && db.wallets[w].address == address
    ensures MirrorOk(db, u) <==> db.users[u].walletAddress == Some(address)
  {
    assert forall x :: x in db.wallets && db.wallets[x].owner == u && db.wallets[x].primary ==> x == w;
  }

  /** The column after the address update, whatever becomes of it. */
  lemma ColumnAfter(us: UserTable, u: Id, address: string, m: Moment)
    requires u in us && UniqueMirrors(us)
    ensures var us' := ApplyUsers(Db(us, map[]), WithWalletAddress(us, u, address), m).users;
            u in us' && (us'[u].walletAddress == Some(address)
                         <==> us[u].walletAddress == Some(address) || (m.reply.Applied() && !MirrorTaken(us, u, address)))
  {
  }

  /**
    `set_primary` run alone, however its two calls end. A change of primary that does not take effect
    leaves the mirror as it was; one that does leaves it true exactly when the wallet is not the user's
    (then no primary is left) or the column ends with the address. An unanswered change sends no
    address update.
   */
  lemma MirrorAfterChoosing(cfg: Config, db: Db, u: Id, w: Id, env: nat -> Moment)
    requires Constraints(db.wallets) && UniqueMirrors(db.users) && u in db.users
    ensures MirrorOk(Alone(cfg, db, ChoosePrimary(u, w), env, 0), u)
       <==> if env(0).reply.Applied() then !Owns(db.wallets, u, w) || MirrorWrittenAt(db, u, db.wallets[w].address, env, 0)
            else MirrorOk(db, u)
  {
    var t := ChoosePrimary(u, w);
    if !env(0).reply.Applied() {
      AloneStep(cfg, db, t, env, 0, Done(db));
    } else {
      var db1 := db.(wallets := WithPrimary(db.wallets, u, w));
      if !Owns(db.wallets, u, w) {
        AloneStep(cfg, db, t, env, 0, Done(db1));
        assert MirrorOk(db1, u);
      } else {
        ChosenMirror(cfg, db, u, w, env);
      }
    }
  }

  lemma ChosenMirror(cfg: Config, db: Db, u: Id, w: Id, env: nat -> Moment)
    requires Constraints(db.wallets) && UniqueMirrors(db.users) && u in db.users && Owns(db.wallets, u, w) && env(0).reply.Applied()
    ensures MirrorOk(Alone(cfg, db, ChoosePrimary(u, w), env, 0), u) <==> MirrorWrittenAt(db, u, db.wallets[w].address, env, 0)
  {
    var address := db.wallets[w].address;
    var db1 := db.(wallets := WithPrimary(db.wallets, u, w));
    PrimaryKeepsConstraints(db.wallets, u, w);
    if env(0).reply.Answered? {
      AloneStep(cfg, db, ChoosePrimary(u, w), env, 0, Goto(db1, ChooseMirror(u, address)));
      MirrorUpdated(cfg, db1, u, w, address, env);
    } else {
      AloneStep(cfg, db, ChoosePrimary(u, w), env, 0, Done(db1));
      MirrorOfOne(db1, u, w, address);
    }
  }

  lemma MirrorUpdated(cfg: Config, db: Db, u: Id, w: Id, address: string, env: nat -> Moment)
    requires Constraints(db.wallets) && UniqueMirrors(db.users) && u in db.users
    requires Owns(db.wallets, u, w) && db.wallets[w].primary && db.wallets[w].address == address
    ensures MirrorOk(Alone(cfg, db, ChooseMirror(u, address), env, 1), u)
       <==> db.users[u].walletAddress == Some(address) || (env(1).reply.Applied() && !MirrorTaken(db.users, u, address))
  {
    var db' := ApplyUsers(db, WithWalletAddress(db.users, u, address), env(1));
    AloneStep(cfg, db, ChooseMirror(u, address), env, 1, Done(db'));
    ColumnAfter(db.users, u, address, env(1));
    MirrorOfOne(db', u, w, address);
  }

  /** Registering a linked wallet changes neither which wallets are primary nor any address column. */
  lemma {:induction false} RegistrationKeepsMirror(cfg: Config, db: Db, t: Task, env: nat -> Moment, k: nat, u: Id)
    requires t.LinkLookup? || ((t.Submit? || t.Poll? || t.MarkWallet?) && t.flow == Linking)
    ensures MirrorOk(Alone(cfg, db, t, env, k), u) <==> MirrorOk(db, u)
    decreases Rank(t)
  {
    var out := Effect(cfg, db, t, env(k));
    EffectDescends(cfg, db, t, env(k));
    AloneStep(cfg, db, t, env, k, out);
    RegistrationStepKeepsMirror(cfg, db, t, env(k), u);
    if out.next.Some? {
      RegistrationKeepsMirror(cfg, out.db, out.next.value, env, k + 1, u);
    }
  }

  lemma RegistrationStepKeepsMirror(cfg: Config, db: Db, t: Task, m: Moment, u: Id)
    requires t.LinkLookup? || ((t.Submit? || t.Poll? || t.MarkWallet?) && t.flow == Linking)
    ensures var out := Effect(cfg, db, t, m);
            && (MirrorOk(out.db, u) <==> MirrorOk(db, u))
            && (out.next.Some? ==> (out.next.value.Submit? || out.next.value.Poll? || out.next.value.MarkWallet?)
                                   && out.next.value.flow == Linking)
  {
    if t.MarkWallet? {
      RegisteringKeepsMirror(db, t.user, t.address, t.signature, u);
    } else {
      assert Effect(cfg, db, t, m).db == db;
    }
  }

  lemma RegisteringKeepsMirror(db: Db, v: Id, address: string, signature: string, u: Id)
    ensures MirrorOk(db.(wallets := WithRegistered(db.wallets, v, address, signature)), u) <==> MirrorOk(db, u)
  {
    var ws' := WithRegistered(db.wallets, v, address, signature);
    assert forall w :: w in db.wallets ==> ws'[w].primary == db.wallets[w].primary && ws'[w].owner == db.wallets[w].owner
                                           && ws'[w].address == db.wallets[w].address;
  }

  /** The insert of a primary wallet and the address update that follows it, however the two end. */
  lemma MirrorAfterInsert(cfg: Config, db: Db, u: Id, address: string, cleared: bool, first: bool, env: nat -> Moment, k: nat)
    requires Constraints(db.wallets) && UniqueMirrors(db.users) && u in db.users && !HasPrimary(db.wallets, u)
    requires env(k).row !in db.wallets
    ensures MirrorOk(Alone(cfg, db, LinkInsert(u, address, true, cleared, first), env, k), u)
       <==> AddressLinked(db.wallets, address) || !env(k).reply.Applied() || MirrorWrittenAt(db, u, address, env, k)
  {
    var t, w := LinkInsert(u, address, true, cleared, first), env(k).row;
    assert MirrorOk(db, u);
    if AddressLinked(db.wallets, address) || !env(k).reply.Applied() {
      AloneStep(cfg, db, t, env, k, Done(db));
    } else {
      var db1 := db.(wallets := db.wallets[w := Wallet(u, address, true, false, None)]);
      InsertKeepsConstraints(db.wallets, w, u, address, true);
      if env(k).reply.Answered? {
        var db2 := ApplyUsers(db1, WithWalletAddress(db.users, u, address), env(k + 1));
        AloneStep(cfg, db, t, env, k, Goto(db1, LinkMirror(u, address)));
        AloneStep(cfg, db1, LinkMirror(u, address), env, k + 1, Goto(db2, LinkLookup(u, address)));
        RegistrationKeepsMirror(cfg, db2, LinkLookup(u, address), env, k + 2, u);
        ColumnAfter(db.users, u, address, env(k + 1));
        MirrorOfOne(db2, u, w, address);
      } else {
        AloneStep(cfg, db, t, env, k, Done(db1));
        MirrorOfOne(db1, u, w, address);
      }
    }
  }

  /** The call of a primary link that inserts the wallet, if the calls before it are answered. */
  function InsertCall(db: Db, u: Id): nat {
    if HasAnyWallet(db.wallets, u) then 2 else 1
  }

  predicate ReachesInsert(db: Db, u: Id, env: nat -> Moment) {
    env(0).reply.Answered? && (HasAnyWallet(db.wallets, u) ==> env(1).reply.Answered?)
  }

  /**
    Every primary link, by a user with or without wallets, on chain or not, however its calls end. One
    that stops before changing anything leaves the mirror as it was; any other leaves it true exactly
    when no wallet is inserted (then no primary is left) or the column ends with the address. An
    unanswered insert sends no address update.
   */
  lemma MirrorAfterLinking(cfg: Config, db: Db, u: Id, address: string, env: nat -> Moment)
    requires Constraints(db.wallets) && UniqueMirrors(db.users) && u in db.users
    requires env(InsertCall(db, u)).row !in db.wallets
    ensures MirrorOk(Alone(cfg, db, LinkCheck(u, address, true), env, 0), u)
       <==> if !env(0).reply.Answered? || (HasAnyWallet(db.wallets, u) && env(1).reply.Refused?) then MirrorOk(db, u)
            else || AddressLinked(db.wallets, address) || !ReachesInsert(db, u, env) || !env(InsertCall(db, u)).reply.Applied()
                 || MirrorWrittenAt(db, u, address, env, InsertCall(db, u))
  {
    var t := LinkCheck(u, address, true);
    if !env(0).reply.Answered? {
      AloneStep(cfg, db, t, env, 0, Done(db));
    } else if HasAnyWallet(db.wallets, u) {
      AloneStep(cfg, db, t, env, 0, Goto(db, LinkClear(u, address)));
      MirrorAfterClearing(cfg, db, u, address, env);
    } else {
      AloneStep(cfg, db, t, env, 0, Goto(db, LinkInsert(u, address, true, false, true)));
      MirrorAfterInsert(cfg, db, u, address, false, true, env, 1);
    }
  }

  lemma MirrorAfterClearing(cfg: Config, db: Db, u: Id, address: string, env: nat -> Moment)
    requires Constraints(db.wallets) && UniqueMirrors(db.users) && u in db.users && env(2).row !in db.wallets
    ensures MirrorOk(Alone(cfg, db, LinkClear(u, address), env, 1), u)
       <==> if env(1).reply.Refused? then MirrorOk(db, u)
            else || AddressLinked(db.wallets, address) || !env(1).reply.Answered? || !env(2).reply.Applied()
                 || MirrorWrittenAt(db, u, address, env, 2)
  {
    var cleared := db.(wallets := WithoutPrimary(db.wallets, u));
    ClearKeepsConstraints(db.wallets, u);
    AddressesKept(db.wallets, u, address);
    if env(1).reply.Answered? {
      AloneStep(cfg, db, LinkClear(u, address), env, 1, Goto(cleared, LinkInsert(u, address, true, true, false)));
      MirrorAfterInsert(cfg, cleared, u, address, true, false, env, 2);
    } else {
      AloneStep(cfg, db, LinkClear(u, address), env, 1, Done(if env(1).reply.Applied() then cleared else db));
      assert MirrorOk(cleared, u);
    }
  }

  /** The first wallet of a user who is not onboarded: inserted, and mirrored unless the column is taken. */
  lemma FirstLink(cfg: Config, db: Db, u: Id, address: string, primary: bool, env: nat -> Moment)
    requires Answers(env, db) && !HasAnyWallet(db.wallets, u) && !AddressLinked(db.wallets, address)
    requires u in db.users && !db.users[u].registered
    ensures Alone(cfg, db, LinkCheck(u, address, primary), env, 0)
         == Db(if MirrorTaken(db.users, u, address) then db.users
               else UpdateUsers(db.users, {u}, SetWalletAddress(address)),
               db.wallets[env(1).row := Wallet(u, address, primary, false, None)])
  {
    var t0, t1, t2, t3 := LinkCheck(u, address, primary), LinkInsert(u, address, primary, false, true),
                          LinkMirror(u, address), LinkLookup(u, address);
    assert !HasPrimary(db.wallets, u);
    var db1 := db.(wallets := db.wallets[env(1).row := Wallet(u, address, primary, false, None)]);
    var db2 := ApplyUsers(db1, WithWalletAddress(db.users, u, address), env(2));
    assert Effect(cfg, db, t0, env(0)) == Goto(db, t1);
    assert Effect(cfg, db, t1, env(1)) == Goto(db1, t2);
    assert Effect(cfg, db1, t2, env(2)) == Goto(db2, t3);
    assert Effect(cfg, db2, t3, env(3)) == Done(db2);
    assert Alone(cfg, db2, t3, env, 3) == db2;
    assert Alone(cfg, db1, t2, env, 2) == db2;
    assert Alone(cfg, db, t1, env, 1) == db2;
  }

  /**
    The mirror can fall behind without a single failed call: a user's address column survives the
    unlinking of the wallet, and being UNIQUE it then refuses the next owner of that address.
   */
  lemma StaleMirrorBlocksNextOwner(cfg: Config, users: UserTable, u: Id, v: Id, address: string,
                                   envs: seq<nat -> Moment>)
    requires u in users && v in users && u != v
    requires forall x :: x in users ==> !users[x].registered && users[x].walletAddress == None
    requires |envs| == 3 && Answers(envs[0], Db(users, map[])) && envs[1](0).reply.Answered?
    requires Answers(envs[2], Db(users, map[]))
    ensures var requests := [(LinkCheck(u, address, false), envs[0]), (Unlink(u, envs[0](1).row), envs[1]),
                             (LinkCheck(v, address, true), envs[2])];
            var db := Sequential(cfg, Db(users, map[]), requests);
            IsPrimaryAddress(db.wallets, v, address) && !MirrorOk(db, v)
  {
    var start := Db(users, map[]);
    FirstLink(cfg, start, u, address, false, envs[0]);
    var row := envs[0](1).row;
    var db1 := Db(UpdateUsers(users, {u}, SetWalletAddress(address)), map[row := Wallet(u, address, false, false, None)]);
    var db2 := db1.(wallets := map[]);
    assert WithoutWallet(db1.wallets, u, row) == map[];
    assert Alone(cfg, db1, Unlink(u, row), envs[1], 0) == db2;
    FirstLink(cfg, db2, v, address, true, envs[2]);
    assert MirrorTaken(db2.users, v, address) by {
      assert u in db2.users && u != v && db2.users[u].walletAddress == Some(address);
    }
    var row' := envs[2](1).row;
    var db3 := db2.(wallets := map[row' := Wallet(v, address, true, false, None)]);
    var third := [(LinkCheck(v, address, true), envs[2])];
    var later := [(Unlink(u, row), envs[1])] + third;
    assert Sequential(cfg, db2, third) == Sequential(cfg, db3, []) == db3;
    assert later[1..] == third;
    assert Sequential(cfg, db1, later) == db3;
    var requests := [(LinkCheck(u, address, false), envs[0]), (Unlink(u, row), envs[1]), third[0]];
    assert requests[1..] == later;
    assert row' in db3.wallets && db3.wallets[row'].primary;
  }

  /** The table after two requests have each set their wallet primary, `w2` last. */
  function BothChosen(db: Db, u: Id, w1: Id, w2: Id): Db {
    db.(wallets := WithPrimary(WithPrimary(db.wallets, u, w1), u, w2))
  }

  /** The two address updates that follow, in one order or the other. */
  function BothMirrored(cfg: Config, db: Db, u: Id, first: string, second: string, m: Moment): Db {
    Effect(cfg, Effect(cfg, db, ChooseMirror(u, first), m).db, ChooseMirror(u, second), m).db
  }

  /**
    Two overlapping `set_primary` requests, every call answered: the mirror ends true exactly when the
    address updates come in the order of the primary updates.
   */
  lemma CrossedChoicesBreakMirror(cfg: Config, db: Db, u: Id, w1: Id, w2: Id, inOrder: bool, m: Moment)
    requires Constraints(db.wallets) && u in db.users && m.reply.Answered?
    requires Owns(db.wallets, u, w1) && Owns(db.wallets, u, w2) && w1 != w2
    requires !MirrorTaken(db.users, u, db.wallets[w1].address) && !MirrorTaken(db.users, u, db.wallets[w2].address)
    ensures var a1, a2 := db.wallets[w1].address, db.wallets[w2].address;
            var out1 := Effect(cfg, db, ChoosePrimary(u, w1), m);
            var out2 := Effect(cfg, out1.db, ChoosePrimary(u, w2), m);
            && out1.next == Some(ChooseMirror(u, a1)) && out2.next == Some(ChooseMirror(u, a2))
            && out2.db == BothChosen(db, u, w1, w2)
            && (MirrorOk(BothMirrored(cfg, out2.db, u, if inOrder then a1 else a2, if inOrder then a2 else a1, m), u) <==> inOrder)
  {
    var a1, a2 := db.wallets[w1].address, db.wallets[w2].address;
    var db1 := Db(db.users, WithPrimary(db.wallets, u, w1));
    var db2 := BothChosen(db, u, w1, w2);
    assert Effect(cfg, db, ChoosePrimary(u, w1), m) == Goto(db1, ChooseMirror(u, a1));
    assert Effect(cfg, db1, ChoosePrimary(u, w2), m) == Goto(db2, ChooseMirror(u, a2));
    PrimaryKeepsConstraints(db.wallets, u, w1);
    PrimaryKeepsConstraints(db1.wallets, u, w2);
    LastMirrorWins(cfg, db2, u, w2, if inOrder then a1 else a2, if inOrder then a2 else a1, m);
  }

  lemma LastMirrorWins(cfg: Config, db: Db, u: Id, w: Id, first: string, second: string, m: Moment)
    requires Constraints(db.wallets) && u in db.users && m.reply.Answered? && Owns(db.wallets, u, w) && db.wallets[w].primary
    requires !MirrorTaken(db.users, u, first) && !MirrorTaken(db.users, u, second)
    ensures MirrorOk(BothMirrored(cfg, db, u, first, second, m), u) <==> db.wallets[w].address == second
  {
    var db1 := Effect(cfg, db, ChooseMirror(u, first), m).db;
    assert db1.users == UpdateUsers(db.users, {u}, SetWalletAddress(first));
    MirrorsOfOthersStay(db.users, u, first, second);
    MirrorIsLast(db1, u, w, second);
  }

  lemma MirrorsOfOthersStay(us: UserTable, u: Id, first: string, second: string)
    requires !MirrorTaken(us, u, second)
    ensures !MirrorTaken(UpdateUsers(us, {u}, SetWalletAddress(first)), u, second)
  {
  }

  lemma MirrorIsLast(db: Db, u: Id, w: Id, address: string)
    requires Constraints(db.wallets) && u in db.users && Owns(db.wallets, u, w) && db.wallets[w].primary
    ensures MirrorOk(db.(users := UpdateUsers(db.users, {u}, SetWalletAddress(address))), u) <==> db.wallets[w].address == address
  {
    var db' := db.(users := UpdateUsers(db.users, {u}, SetWalletAddress(address)));
    assert db'.users[u].walletAddress == Some(address);
    assert forall x :: x in db.wallets && db.wallets[x].owner == u && db.wallets[x].primary ==> x == w;
  }

  /** Two overlapping primary links: the second insert meets the primary the first one has just installed. */
  lemma IndexRejectsOverlap(cfg: Config, db: Db, u: Id, a: string, b: string, m: Moment)
    requires Constraints(db.wallets) && HasAnyWallet(db.wallets, u) && a != b
    requires !AddressLinked(db.wallets, a) && !AddressLinked(db.wallets, b)
    requires m.reply.Answered? && m.row !in db.wallets
    ensures var db1 := Effect(cfg, db, LinkClear(u, a), m).db;
            var db2 := Effect(cfg, db1, LinkClear(u, b), m).db;
            var out := Effect(cfg, db2, LinkInsert(u, a, true, true, false), m);
            && out.next == Some(LinkMirror(u, a))
            && InsertViolation(out.db.wallets, u, b, true) == Some(SecondPrimary)
  {
    var ws1 := WithoutPrimary(db.wallets, u);
    var ws2 := WithoutPrimary(ws1, u);
    ClearKeepsConstraints(db.wallets, u);
    ClearKeepsConstraints(ws1, u);
    AddressesKept(db.wallets, u, a);
    AddressesKept(ws1, u, a);
    AddressesKept(db.wallets, u, b);
    AddressesKept(ws1, u, b);
    var ws3 := ws2[m.row := Wallet(u, a, true, false, None)];
    assert WithWallet(ws2, m.row, u, a, true) == Some(ws3);
    assert m.row in ws3 && ws3[m.row].owner == u && ws3[m.row].primary;
    assert HasPrimary(ws3, u);
  }

  // ---- What choosing and unlinking leave -------------------------------------------------------------

  /** The wallets of `u` are primary or not by being `w`, and nothing else has changed. */
  ghost predicate PrimaryIs(ws: WalletTable, ws': WalletTable, u: Id, w: Id) {
    && ws'.Keys == ws.Keys
    && forall x :: x in ws ==> ws'[x] == if ws[x].owner == u then ws[x].(primary := x == w) else ws[x]
  }

  /** The row of `u` stores the address, if it was written, and nothing else has changed. */
  ghost predicate AddressIs(us: UserTable, us': UserTable, u: Id, address: string, written: bool) {
    && us'.Keys == us.Keys
    && forall v :: v in us ==> us'[v] == if v == u && written then us[v].(walletAddress := Some(address)) else us[v]
  }

  /** The whole effect of `set_primary` and the address update after it, however the two end. */
  lemma ChoosingEffect(cfg: Config, db: Db, db': Db, u: Id, w: Id, env: nat -> Moment)
    requires db' == Alone(cfg, db, ChoosePrimary(u, w), env, 0)
    ensures if env(0).reply.Applied() then PrimaryIs(db.wallets, db'.wallets, u, w) else db'.wallets == db.wallets
    ensures if env(0).reply.Answered? && Owns(db.wallets, u, w)
            then AddressIs(db.users, db'.users, u, db.wallets[w].address,
                           env(1).reply.Applied() && !MirrorTaken(db.users, u, db.wallets[w].address))
            else db'.users == db.users
  {
    var db1 := if env(0).reply.Applied() then db.(wallets := WithPrimary(db.wallets, u, w)) else db;
    PrimaryRows(db.wallets, u, w);
    if env(0).reply.Answered? && Owns(db.wallets, u, w) {
      AloneStep(cfg, db, ChoosePrimary(u, w), env, 0, Goto(db1, ChooseMirror(u, db.wallets[w].address)));
      ColumnWritten(cfg, db1, db', u, db.wallets[w].address, env, 1);
    } else {
      AloneStep(cfg, db, ChoosePrimary(u, w), env, 0, Done(db1));
    }
  }

  lemma PrimaryRows(ws: WalletTable, u: Id, w: Id)
    ensures PrimaryIs(ws, WithPrimary(ws, u, w), u, w)
  {
  }

  lemma ColumnWritten(cfg: Config, db: Db, db': Db, u: Id, address: string, env: nat -> Moment, k: nat)
    requires db' == Alone(cfg, db, ChooseMirror(u, address), env, k)
    ensures db'.wallets == db.wallets
    ensures AddressIs(db.users, db'.users, u, address, env(k).reply.Applied() && !MirrorTaken(db.users, u, address))
  {
    AloneStep(cfg, db, ChooseMirror(u, address), env, k, Done(ApplyUsers(db, WithWalletAddress(db.users, u, address), env(k))));
  }

  /** `unlink_wallet` removes the wallet named, if it is the user's and not primary, and no other. */
  lemma UnlinkEffect(cfg: Config, db: Db, db': Db, u: Id, w: Id, env: nat -> Moment)
    requires db' == Alone(cfg, db, Unlink(u, w), env, 0)
    ensures db'.users == db.users
    ensures var gone := if env(0).reply.Applied() && Owns(db.wallets, u, w) && !db.wallets[w].primary then {w} else {};
            && db'.wallets.Keys == db.wallets.Keys - gone
            && forall x :: x in db'.wallets ==> db'.wallets[x] == db.wallets[x]
  {
    AloneStep(cfg, db, Unlink(u, w), env, 0, Effect(cfg, db, Unlink(u, w), env(0)));
  }
}
