/** Runs that show the safety theorems are not empty: flags do get set, and each cause of a lost primary does occur. */
module Reachability {
  import opened Prelude
  import opened Users
  import opened Database
  import opened Protocol
  import opened Onboarding

  lemma RunOne(cfg: Config, w: World, a: Step)
    ensures Run(cfg, w, [a]) == Next(cfg, w, a)
  {
    assert Run(cfg, w, [a]) == Run(cfg, Next(cfg, w, a), []);
  }

  lemma {:induction false} RunAppend(cfg: Config, w: World, a: seq<Step>, b: seq<Step>)
    ensures Run(cfg, w, a + b) == Run(cfg, Run(cfg, w, a), b)
    decreases |a|
  {
    if a == [] {
      assert a + b == b;
    } else {
      assert (a + b)[1..] == a[1..] + b;
      RunAppend(cfg, Next(cfg, w, a[0]), a[1..], b);
    }
  }

  lemma RunTwo(cfg: Config, w: World, a: Step, b: Step)
    ensures Run(cfg, w, [a, b]) == Next(cfg, Next(cfg, w, a), b)
  {
    assert [a, b][1..] == [b];
    RunOne(cfg, Next(cfg, w, a), b);
  }

  /** A call that is answered in this world; `address` is what a query finds. */
  function Goes(w: World, address: string): Moment {
    Moment(Answered, w.chain, true, 0, address, "")
  }

  /**
    From every world with a free task slot, and for every user with a primary wallet whose address parses:
    once the account lands on chain, one onboarding request flags the user and the wallet.
   */
  lemma OnboardingReached(cfg: Config, w: World, u: Id, address: string, id: nat, child: nat) returns (steps: seq<Step>)
    requires cfg.programValid && cfg.validAddress(address) && u in w.db.users && IsPrimaryAddress(w.db.wallets, u, address)
    requires id !in w.tasks && child !in w.tasks && id != child
    ensures var w' := Run(cfg, w, steps);
            && w'.chain == w.chain + {cfg.pda(address)}
            && u in w'.db.users && w'.db.users[u].registered && w'.db.users[u].pda == Some(cfg.pda(address))
            && (forall x :: x in w'.db.wallets && w'.db.wallets[x].owner == u && w'.db.wallets[x].address == address ==>
                 w'.db.wallets[x].registered)
  {
    var first := [Land(cfg.pda(address)), Spawn(id, FindPrimary(u))];
    RunTwo(cfg, w, first[0], first[1]);
    var w1 := Run(cfg, w, first);
    var env := (k: nat) => Goes(w1, address);
    var rest := AloneIsARun(cfg, w1, id, child, env, 0);
    Heals(cfg, w1.db, u, address, env);
    RunAppend(cfg, w, first, rest);
    steps := first + rest;
  }

  /** The primary goes and does not come back when a primary link is dropped between its clear and its insert. */
  lemma DroppedLinkLosesPrimary(cfg: Config, w: World, u: Id, address: string, id: nat, child: nat) returns (steps: seq<Step>)
    requires cfg.validAddress(address) && HasPrimary(w.db.wallets, u)
    requires id !in w.tasks && child !in w.tasks && id != child
    ensures var w' := Run(cfg, w, steps);
            && !HasPrimary(w'.db.wallets, u) && u in w'.history.stopped && w'.tasks == w.tasks
  {
    var spawn, go := Spawn(id, LinkCheck(u, address, true)), Advance(id, child, Goes(w, address));
    RunTwo(cfg, w, spawn, go);
    LinkBegun(cfg, w, u, address, id, child, Goes(w, address));
    var w2 := Run(cfg, w, [spawn, go]);
    RunTwo(cfg, w2, go, Drop(id));
    LinkDropped(cfg, w2, u, address, id, child, Goes(w, address));
    RunAppend(cfg, w, [spawn, go], [go, Drop(id)]);
    steps := [spawn, go] + [go, Drop(id)];
  }

  lemma LinkBegun(cfg: Config, w: World, u: Id, address: string, id: nat, child: nat, m: Moment)
    requires cfg.validAddress(address) && HasPrimary(w.db.wallets, u) && m.reply.Answered? && m.chain == w.chain
    requires id !in w.tasks && child !in w.tasks && id != child
    ensures var w' := Next(cfg, Next(cfg, w, Spawn(id, LinkCheck(u, address, true))), Advance(id, child, m));
            && w'.db == w.db && w'.chain == w.chain && w'.tasks == w.tasks[id := LinkClear(u, address)] && w'.tasks - {id} == w.tasks
  {
    var x :| x in w.db.wallets && w.db.wallets[x].owner == u && w.db.wallets[x].primary;
    assert HasAnyWallet(w.db.wallets, u);
    assert Next(cfg, w, Spawn(id, LinkCheck(u, address, true))).tasks - {id} == w.tasks;
  }

  lemma LinkDropped(cfg: Config, w: World, u: Id, address: string, id: nat, child: nat, m: Moment)
    requires id in w.tasks && w.tasks[id] == LinkClear(u, address) && child !in w.tasks && m.reply.Answered? && m.chain == w.chain
    ensures var w' := Next(cfg, Next(cfg, w, Advance(id, child, m)), Drop(id));
            && !HasPrimary(w'.db.wallets, u) && u in w'.history.stopped && w'.tasks == w.tasks - {id}
  {
    var w1 := Next(cfg, w, Advance(id, child, m));
    assert w1.tasks[id] == LinkInsert(u, address, true, true, false);
    assert w1.db.wallets == WithoutPrimary(w.db.wallets, u);
    assert u !in Primaries(w1.db.wallets);
  }

  /** It goes as well when `set_primary` names a wallet that is not the user's. */
  lemma ForeignChoiceLosesPrimary(cfg: Config, w: World, u: Id, wallet: Id, id: nat, child: nat) returns (steps: seq<Step>)
    requires !Owns(w.db.wallets, u, wallet)
    requires id !in w.tasks && child !in w.tasks && id != child
    ensures var w' := Run(cfg, w, steps);
            && !HasPrimary(w'.db.wallets, u) && u in w'.history.missed && w'.tasks == w.tasks
  {
    var spawn, go := Spawn(id, ChoosePrimary(u, wallet)), Advance(id, child, Goes(w, ""));
    RunTwo(cfg, w, spawn, go);
    steps := [spawn, go];
    var w' := Run(cfg, w, steps);
    assert w'.db.wallets == WithoutPrimary(w.db.wallets, u);
    assert u !in Primaries(w'.db.wallets);
    assert w'.tasks == w.tasks;
  }
}
