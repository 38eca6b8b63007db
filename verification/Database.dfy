/** The `users` and `user_wallets` tables and the statements the two repositories run on them. */
module Database {
  import opened Prelude
  import opened Users

  datatype Wallet = Wallet(owner: Id, address: string, primary: bool, registered: bool, signature: Option<string>)

  type UserTable = map<Id, User>
  type WalletTable = map<Id, Wallet>

  datatype Db = Db(users: UserTable, wallets: WalletTable)

  // ---- users ----------------------------------------------------------------------------------

  /** UPDATE users SET .. on the rows in `ids`; the trigger sees every updated row. */
  function UpdateUsers(us: UserTable, ids: set<Id>, up: Update): (us': UserTable)
    ensures us'.Keys == us.Keys
    ensures forall u :: u in us ==> us'[u] == if u in ids then Updated(us[u], up) else us[u]
  {
    map u | u in us :: if u in ids then Updated(us[u], up) else us[u]
  }

  /** `users.wallet_address` is UNIQUE. */
  predicate MirrorTaken(us: UserTable, u: Id, address: string) {
    exists v :: v in us && v != u && us[v].walletAddress == Some(address)
  }

  /** `set_wallet_address`: None is a unique violation. */
  function WithWalletAddress(us: UserTable, u: Id, address: string): Option<UserTable> {
    if u in us && MirrorTaken(us, u, address) then None
    else Some(UpdateUsers(us, {u}, SetWalletAddress(address)))
  }

  /** On the way from `start` to `target`: the rows in `todo` are still to be rewritten. */
  ghost predicate Partly(start: UserTable, target: UserTable, us: UserTable, todo: set<Id>) {
    us.Keys == start.Keys == target.Keys && forall u :: u in us ==> us[u] == if u in todo then start[u] else target[u]
  }

  lemma PartlyStep(start: UserTable, target: UserTable, us: UserTable, todo: set<Id>, u: Id)
    requires Partly(start, target, us, todo) && u in todo && u in us
    ensures us[u] == start[u] && Partly(start, target, us[u := target[u]], todo - {u})
  {
  }

  lemma PartlyDone(start: UserTable, target: UserTable, us: UserTable)
    requires Partly(start, target, us, {})
    ensures us == target
  {
  }

  // ---- user_wallets ---------------------------------------------------------------------------

  predicate HasAnyWallet(ws: WalletTable, u: Id) {
    exists w :: w in ws && ws[w].owner == u
  }

  predicate HasPrimary(ws: WalletTable, u: Id) {
    exists w :: w in ws && ws[w].owner == u && ws[w].primary
  }

  predicate AddressLinked(ws: WalletTable, address: string) {
    exists w :: w in ws && ws[w].address == address
  }

  /** `clear_primary`, and the first statement of `set_primary` and `persist_custodial_wallet`. */
  function WithoutPrimary(ws: WalletTable, u: Id): (ws': WalletTable)
    ensures ws'.Keys == ws.Keys
    ensures forall w :: w in ws ==> ws'[w] == if ws[w].owner == u then ws[w].(primary := false) else ws[w]
  {
    map w | w in ws :: if ws[w].owner == u then ws[w].(primary := false) else ws[w]
  }

  predicate Owns(ws: WalletTable, u: Id, w: Id) {
    w in ws && ws[w].owner == u
  }

  /** `set_primary`, committed even when the second UPDATE matches no row. */
  function WithPrimary(ws: WalletTable, u: Id, w: Id): WalletTable {
    var cleared := WithoutPrimary(ws, u);
    if Owns(ws, u, w) then cleared[w := cleared[w].(primary := true)] else cleared
  }

  /** `delete_if_not_primary`. */
  function WithoutWallet(ws: WalletTable, u: Id, w: Id): WalletTable {
    if Owns(ws, u, w) && !ws[w].primary then ws - {w} else ws
  }

  /** Why an INSERT into `user_wallets` is rejected. */
  datatype Violation = DuplicateAddress | SecondPrimary

  function InsertViolation(ws: WalletTable, u: Id, address: string, primary: bool): Option<Violation> {
    if AddressLinked(ws, address) then Some(DuplicateAddress)
    else if primary && HasPrimary(ws, u) then Some(SecondPrimary)
    else None
  }

  /** `insert` with a fresh id: None is a unique violation. */
  function WithWallet(ws: WalletTable, w: Id, u: Id, address: string, primary: bool): Option<WalletTable> {
    if InsertViolation(ws, u, address, primary).Some? then None
    else Some(ws[w := Wallet(u, address, primary, false, None)])
  }

  /** `mark_registered`. */
  function WithRegistered(ws: WalletTable, u: Id, address: string, signature: string): (ws': WalletTable)
    ensures ws'.Keys == ws.Keys
    ensures forall w :: w in ws ==>
              ws'[w] == if ws[w].owner == u && ws[w].address == address
                        then ws[w].(registered := true, signature := Some(signature)) else ws[w]
  {
    map w | w in ws :: if ws[w].owner == u && ws[w].address == address
                       then ws[w].(registered := true, signature := Some(signature)) else ws[w]
  }

  /** `persist_custodial_wallet`: one transaction over both tables; None rolls everything back. */
  function WithCustodialWallet(db: Db, w: Id, u: Id, address: string): Option<Db> {
    var ws := WithWallet(WithoutPrimary(db.wallets, u), w, u, address, true);
    var us := WithWalletAddress(db.users, u, address);
    if ws.Some? && us.Some? then Some(Db(us.value, ws.value)) else None
  }

  /** `find_primary_address`, where at most one row can match. */
  predicate IsPrimaryAddress(ws: WalletTable, u: Id, address: string) {
    exists w :: w in ws && ws[w].owner == u && ws[w].primary && ws[w].address == address
  }

  // ---- The declared constraints ----------------------------------------------------------------

  /** UNIQUE (wallet_address), and the partial unique index on (user_id) WHERE is_primary. */
  ghost predicate Constraints(ws: WalletTable) {
    && (forall v, w :: v in ws && w in ws && ws[v].address == ws[w].address ==> v == w)
    && (forall v, w :: v in ws && w in ws && ws[v].primary && ws[w].primary && ws[v].owner == ws[w].owner ==> v == w)
  }

  ghost predicate UniqueMirrors(us: UserTable) {
    forall u, v :: u in us && v in us && us[u].walletAddress.Some? && us[u].walletAddress == us[v].walletAddress ==> u == v
  }

  lemma ClearKeepsConstraints(ws: WalletTable, u: Id)
    requires Constraints(ws)
    ensures Constraints(WithoutPrimary(ws, u)) && !HasPrimary(WithoutPrimary(ws, u), u)
    ensures forall v :: v != u ==> (HasPrimary(WithoutPrimary(ws, u), v) <==> HasPrimary(ws, v))
  {
  }

  lemma PrimaryKeepsConstraints(ws: WalletTable, u: Id, w: Id)
    requires Constraints(ws)
    ensures Constraints(WithPrimary(ws, u, w))
    ensures HasPrimary(WithPrimary(ws, u, w), u) <==> Owns(ws, u, w)
    ensures forall v :: v != u ==> (HasPrimary(WithPrimary(ws, u, w), v) <==> HasPrimary(ws, v))
  {
    ClearKeepsConstraints(ws, u);
    var cleared, ws' := WithoutPrimary(ws, u), WithPrimary(ws, u, w);
    if Owns(ws, u, w) {
      assert w in ws' && ws'[w].owner == u && ws'[w].primary;
    }
    forall v | v != u
      ensures HasPrimary(ws', v) <==> HasPrimary(cleared, v)
    {
      if HasPrimary(cleared, v) {
        var x :| x in cleared && cleared[x].owner == v && cleared[x].primary;
        assert x in ws' && ws'[x].owner == v && ws'[x].primary;
      }
    }
  }

  lemma DeleteKeepsConstraints(ws: WalletTable, u: Id, w: Id)
    requires Constraints(ws)
    ensures Constraints(WithoutWallet(ws, u, w))
    ensures forall v :: HasPrimary(WithoutWallet(ws, u, w), v) <==> HasPrimary(ws, v)
  {
    var ws' := WithoutWallet(ws, u, w);
    forall v
      ensures HasPrimary(ws', v) <==> HasPrimary(ws, v)
    {
      if HasPrimary(ws, v) {
        var x :| x in ws && ws[x].owner == v && ws[x].primary;
        assert x in ws' && ws'[x].owner == v && ws'[x].primary;
      }
    }
  }

  lemma InsertKeepsConstraints(ws: WalletTable, w: Id, u: Id, address: string, primary: bool)
    requires Constraints(ws) && w !in ws && WithWallet(ws, w, u, address, primary).Some?
    ensures var ws' := WithWallet(ws, w, u, address, primary).value;
            && Constraints(ws')
            && (HasPrimary(ws', u) <==> primary || HasPrimary(ws, u))
            && (forall v :: v != u ==> (HasPrimary(ws', v) <==> HasPrimary(ws, v)))
  {
    var ws' := WithWallet(ws, w, u, address, primary).value;
    if primary {
      assert w in ws' && ws'[w].owner == u && ws'[w].primary;
    }
    forall v
      ensures HasPrimary(ws, v) ==> HasPrimary(ws', v)
    {
      if HasPrimary(ws, v) {
        var x :| x in ws && ws[x].owner == v && ws[x].primary;
        assert x in ws' && ws'[x].owner == v && ws'[x].primary;
      }
    }
  }

  lemma RegisterKeepsConstraints(ws: WalletTable, u: Id, address: string, signature: string)
    requires Constraints(ws)
    ensures Constraints(WithRegistered(ws, u, address, signature))
    ensures forall v :: HasPrimary(WithRegistered(ws, u, address, signature), v) <==> HasPrimary(ws, v)
  {
  }

  // ---- The repositories as they run -------------------------------------------------------------

  class Repositories {
    var users: UserTable
    var wallets: WalletTable

    constructor (users: UserTable)
      ensures this.users == users && wallets == map[]
    {
      this.users := users;
      wallets := map[];
    }

    ghost function State(): Db
      reads this
    {
      Db(users, wallets)
    }

    /** One row of an UPDATE: the new row passes the trigger. */
    method UpdateRow(u: Id, up: Update)
      requires u in users
      modifies this`users
      ensures users == old(users)[u := Updated(old(users)[u], up)]
    {
      var row := UpdateStatusOnHash(users[u], NewRow(users[u], up));
      users := users[u := row];
    }

    /** One UPDATE over the users in `ids`, row by row. */
    method UpdateRows(ids: set<Id>, up: Update, reply: Reply) returns (ok: bool)
      modifies this`users
      ensures users == if reply.Applied() then UpdateUsers(old(users), ids, up) else old(users)
      ensures ok == reply.Answered?
    {
      ok := reply.Answered?;
      if !reply.Applied() {
        return;
      }
      ghost var start, target := users, UpdateUsers(users, ids, up);
      var todo := users.Keys * ids;
      while todo != {}
        invariant todo <= start.Keys * ids && Partly(start, target, users, todo)
        decreases |todo|
      {
        var u :| u in todo;
        PartlyStep(start, target, users, todo, u);
        UpdateRow(u, up);
        todo := todo - {u};
      }
      PartlyDone(start, target, users);
    }

    method SetWalletAddressOf(u: Id, address: string, reply: Reply) returns (ok: bool)
      modifies this`users
      ensures var next := WithWalletAddress(old(users), u, address);
              && users == (if reply.Applied() && next.Some? then next.value else old(users))
              && (ok <==> reply.Answered? && next.Some?)
    {
      if u in users && MirrorTaken(users, u, address) {
        return false;
      }
      ok := UpdateRows({u}, SetWalletAddress(address), reply);
    }

    /** Demotes the user's wallets, row by row. */
    method ClearPrimary(u: Id, reply: Reply) returns (ok: bool)
      modifies this`wallets
      ensures wallets == if reply.Applied() then WithoutPrimary(old(wallets), u) else old(wallets)
      ensures ok == reply.Answered?
      ensures reply.Applied() ==> !HasPrimary(wallets, u)
    {
      ok := reply.Answered?;
      if !reply.Applied() {
        return;
      }
      var todo := wallets.Keys;
      while todo != {}
        invariant todo <= wallets.Keys == old(wallets).Keys
        invariant forall w :: w in wallets ==>
                    wallets[w] == if w !in todo && old(wallets)[w].owner == u then old(wallets)[w].(primary := false)
                                  else old(wallets)[w]
        decreases |todo|
      {
        var w :| w in todo;
        if wallets[w].owner == u {
          wallets := wallets[w := wallets[w].(primary := false)];
        }
        todo := todo - {w};
      }
    }

    method SetPrimary(u: Id, w: Id, reply: Reply) returns (found: Option<Option<Wallet>>)
      modifies this`wallets
      ensures wallets == if reply.Applied() then WithPrimary(old(wallets), u, w) else old(wallets)
      ensures found == if !reply.Answered? then None
                       else Some(if Owns(old(wallets), u, w) then Some(old(wallets)[w].(primary := true)) else None)
    {
      var tx := WithoutPrimary(wallets, u);
      var row: Option<Wallet> := None;
      if w in tx && tx[w].owner == u {
        tx := tx[w := tx[w].(primary := true)];
        row := Some(tx[w]);
      }
      if reply.Applied() {
        wallets := tx;
      }
      found := if reply.Answered? then Some(row) else None;
    }

    method DeleteIfNotPrimary(u: Id, w: Id, reply: Reply) returns (deleted: Option<bool>)
      modifies this`wallets
      ensures wallets == if reply.Applied() then WithoutWallet(old(wallets), u, w) else old(wallets)
      ensures deleted == if reply.Answered? then Some(Owns(old(wallets), u, w) && !old(wallets)[w].primary) else None
    {
      var match_ := w in wallets && wallets[w].owner == u && !wallets[w].primary;
      if match_ && reply.Applied() {
        wallets := wallets - {w};
      }
      deleted := if reply.Answered? then Some(match_) else None;
    }

    method Insert(w: Id, u: Id, address: string, primary: bool, reply: Reply) returns (row: Option<Wallet>)
      modifies this`wallets
      ensures var next := WithWallet(old(wallets), w, u, address, primary);
              && wallets == (if reply.Applied() && next.Some? then next.value else old(wallets))
              && (row.Some? <==> reply.Answered? && next.Some?)
              && (row.Some? ==> w in wallets && row.value == wallets[w])
    {
      if AddressLinked(wallets, address) || (primary && HasPrimary(wallets, u)) {
        return None;
      }
      var fresh_ := Wallet(u, address, primary, false, None);
      if reply.Applied() {
        wallets := wallets[w := fresh_];
      }
      row := if reply.Answered? then Some(fresh_) else None;
    }

    /** Flags the user's rows with that address, row by row. */
    method MarkRegistered(u: Id, address: string, signature: string, reply: Reply) returns (ok: bool)
      modifies this`wallets
      ensures wallets == if reply.Applied() then WithRegistered(old(wallets), u, address, signature) else old(wallets)
      ensures ok == reply.Answered?
    {
      ok := reply.Answered?;
      if !reply.Applied() {
        return;
      }
      var todo := wallets.Keys;
      while todo != {}
        invariant todo <= wallets.Keys == old(wallets).Keys
        invariant forall w :: w in wallets ==>
                    wallets[w] == if w !in todo && old(wallets)[w].owner == u && old(wallets)[w].address == address
                                  then old(wallets)[w].(registered := true, signature := Some(signature)) else old(wallets)[w]
        decreases |todo|
      {
        var w :| w in todo;
        if wallets[w].owner == u && wallets[w].address == address {
          wallets := wallets[w := wallets[w].(registered := true, signature := Some(signature))];
        }
        todo := todo - {w};
      }
    }

    method PersistCustodialWallet(w: Id, u: Id, address: string, reply: Reply) returns (ok: bool)
      modifies this
      ensures var next := WithCustodialWallet(old(State()), w, u, address);
              && State() == (if reply.Applied() && next.Some? then next.value else old(State()))
              && (ok <==> reply.Answered? && next.Some?)
    {
      var cleared := WithoutPrimary(wallets, u);
      if AddressLinked(cleared, address) || HasPrimary(cleared, u) || (u in users && MirrorTaken(users, u, address)) {
        return false;
      }
      if reply.Applied() {
        wallets := cleared[w := Wallet(u, address, true, false, None)];
        users := UpdateUsers(users, {u}, SetWalletAddress(address));
      }
      ok := reply.Answered?;
    }
  }
}
