/** What a reset token is good for when the requests that present it overlap. */
module TokenRaces {
  import opened Prelude
  import opened Redis
  import opened Keys
  import opened Users
  import opened Database
  import opened Login
  import R = PasswordReset
  import opened PasswordRaces
  import CacheAside

  // ---- Every change goes back to a read in time ---------------------------------------------------

  /** At `i` request `id` read the token, less than 900 s after its issue and before anything used it up. */
  ghost predicate GoodRead(log: seq<TokenEvent>, i: nat, id: nat, token: string) {
    && i < |log| && log[i].Read? && log[i].id == id && log[i].token == token
    && (exists j :: 0 <= j < i && log[j].Issued? && log[j].token == token && log[i].at < log[j].at + 900 * SECOND)
    && (forall c :: 0 <= c < i ==> log[c] != Consumed(token))
  }

  /** Request `id` has such a read before position `k`. */
  ghost predicate ReadBefore(log: seq<TokenEvent>, k: nat, id: nat, token: string) {
    exists i: nat :: i < k && GoodRead(log, i, id, token)
  }

  ghost predicate NotConsumed(log: seq<TokenEvent>, token: string) {
    forall c :: 0 <= c < |log| ==> log[c] != Consumed(token)
  }

  /** A stored token was issued, expires 900 s after that, and has not been used up. */
  ghost predicate CellGood(c: Cell, log: seq<TokenEvent>, token: string) {
    c.Some? ==>
      && c.value.expiry.Some?
      && (exists j :: 0 <= j < |log| && log[j].Issued? && log[j].token == token && log[j].at + 900 * SECOND == c.value.expiry.value)
      && NotConsumed(log, token)
  }

  predicate HasRead(t: Task) {
    t.Finding? || t.Updating?
  }

  predicate HasChanged(t: Task) {
    t.DroppingEmail? || t.DroppingUser? || t.DroppingToken?
  }

  /** A request between its token read and its update has read in time, and has changed nothing yet. */
  ghost predicate TaskGood(t: Task, id: nat, log: seq<TokenEvent>) {
    && (HasRead(t) ==> ReadBefore(log, |log|, id, t.token))
    && (!HasChanged(t) ==> Unchanged(log, id))
    && (HasChanged(t) ==> IsIssued(log, t.token))
  }

  ghost predicate Unchanged(log: seq<TokenEvent>, id: nat) {
    forall k :: 0 <= k < |log| && log[k].Changed? ==> log[k].id != id
  }

  ghost predicate LogGood(log: seq<TokenEvent>, ids: set<nat>) {
    && (forall k :: 0 <= k < |log| && log[k].Changed? ==> log[k].id in ids && ReadBefore(log, k, log[k].id, log[k].token))
    && (forall j, k :: 0 <= j < k < |log| && log[j].Changed? && log[k].Changed? ==> log[j].id != log[k].id)
    && (forall c :: 0 <= c < |log| && log[c].Consumed? ==> IsIssued(log, log[c].token))
  }

  ghost predicate TokensGood(s: Store, log: seq<TokenEvent>) {
    forall token :: CellGood(CellOf(s, R.TokenKey(token)), log, token)
  }

  /** Everything but the request `id` is in order. */
  ghost predicate GoodBut(w: World, id: nat) {
    && w.tasks.Keys <= w.ids && id in w.ids
    && LogGood(w.log, w.ids) && TokensGood(w.store, w.log)
    && (forall i :: i in w.tasks && i != id ==> TaskGood(w.tasks[i], i, w.log))
  }

  ghost predicate Good(w: World) {
    && w.tasks.Keys <= w.ids
    && LogGood(w.log, w.ids) && TokensGood(w.store, w.log)
    && (forall i :: i in w.tasks ==> TaskGood(w.tasks[i], i, w.log))
  }

  lemma EndGood(w: World, id: nat)
    requires GoodBut(w, id)
    ensures Good(End(w, id))
  {
  }

  lemma BecomeGood(w: World, id: nat, t: Task)
    requires GoodBut(w, id) && TaskGood(t, id, w.log)
    ensures Good(Become(w, id, t))
  {
  }

  // ---- The log only grows ---------------------------------------------------------------------------

  lemma ReadGrows(log: seq<TokenEvent>, e: TokenEvent, k: nat, id: nat, token: string)
    requires ReadBefore(log, k, id, token) && k <= |log|
    ensures ReadBefore(log + [e], k, id, token)
  {
    var i: nat :| i < k && GoodRead(log, i, id, token);
    var j :| 0 <= j < i && log[j].Issued? && log[j].token == token && log[i].at < log[j].at + 900 * SECOND;
    var log' := log + [e];
    assert log'[i] == log[i] && log'[j] == log[j];
    forall c | 0 <= c < i
      ensures log'[c] != Consumed(token)
    {
      assert log'[c] == log[c];
    }
    assert GoodRead(log', i, id, token);
  }

  lemma ReadLater(log: seq<TokenEvent>, k: nat, k': nat, id: nat, token: string)
    requires ReadBefore(log, k, id, token) && k <= k'
    ensures ReadBefore(log, k', id, token)
  {
  }

  lemma IssuedGrows(log: seq<TokenEvent>, e: TokenEvent, token: string)
    requires IsIssued(log, token)
    ensures IsIssued(log + [e], token)
  {
    var j :| 0 <= j < |log| && log[j].Issued? && log[j].token == token;
    assert (log + [e])[j] == log[j];
  }

  lemma ReadIsIssued(log: seq<TokenEvent>, k: nat, id: nat, token: string)
    requires ReadBefore(log, k, id, token)
    ensures IsIssued(log, token)
  {
  }

  lemma TaskGrows(t: Task, i: nat, log: seq<TokenEvent>, e: TokenEvent)
    requires TaskGood(t, i, log) && (e.Changed? ==> e.id != i)
    ensures TaskGood(t, i, log + [e])
  {
    if HasRead(t) {
      ReadGrows(log, e, |log|, i, t.token);
      ReadLater(log + [e], |log|, |log| + 1, i, t.token);
    }
    if HasChanged(t) {
      IssuedGrows(log, e, t.token);
    }
  }

  lemma CellGrows(c: Cell, log: seq<TokenEvent>, e: TokenEvent, token: string)
    requires CellGood(c, log, token) && (c.Some? ==> e != Consumed(token))
    ensures CellGood(c, log + [e], token)
  {
    if c.Some? {
      var j :| 0 <= j < |log| && log[j].Issued? && log[j].token == token && log[j].at + 900 * SECOND == c.value.expiry.value;
      assert (log + [e])[j] == log[j];
    }
  }

  /** What may be appended to a log in order. */
  ghost predicate Follows(log: seq<TokenEvent>, e: TokenEvent, ids: set<nat>) {
    && (e.Changed? ==> e.id in ids && ReadBefore(log, |log|, e.id, e.token) && Unchanged(log, e.id))
    && (e.Consumed? ==> IsIssued(log, e.token))
  }

  lemma LogGrows(log: seq<TokenEvent>, e: TokenEvent, ids: set<nat>)
    requires LogGood(log, ids) && Follows(log, e, ids)
    ensures LogGood(log + [e], ids)
  {
    var log' := log + [e];
    forall k | 0 <= k < |log'| && log'[k].Changed?
      ensures log'[k].id in ids && ReadBefore(log', k, log'[k].id, log'[k].token)
    {
      ReadGrows(log, e, k, log'[k].id, log'[k].token);
    }
    forall c | 0 <= c < |log'| && log'[c].Consumed?
      ensures IsIssued(log', log'[c].token)
    {
      IssuedGrows(log, e, log'[c].token);
    }
  }

  lemma LogGoodBut(w: World, id: nat, e: TokenEvent)
    requires GoodBut(w, id) && Follows(w.log, e, w.ids) && (e.Changed? ==> e.id == id)
    requires e.Consumed? ==> CellOf(w.store, R.TokenKey(e.token)).None?
    ensures GoodBut(Log(w, e), id)
  {
    LogGrows(w.log, e, w.ids);
    forall i | i in w.tasks && i != id
      ensures TaskGood(w.tasks[i], i, w.log + [e])
    {
      TaskGrows(w.tasks[i], i, w.log, e);
    }
    forall token
      ensures CellGood(CellOf(w.store, R.TokenKey(token)), w.log + [e], token)
    {
      CellGrows(CellOf(w.store, R.TokenKey(token)), w.log, e, token);
    }
  }

  // ---- Every step keeps it in order -------------------------------------------------------------------

  /** A write under a name leaves every token cell alone. */
  lemma ProfileWriteGood(s: Store, name: string, cell: Cell, log: seq<TokenEvent>)
    requires TokensGood(s, log)
    ensures TokensGood(Write(s, ProfileKey(name), cell), log)
  {
    forall token
      ensures CellOf(Write(s, ProfileKey(name), cell), R.TokenKey(token)) == CellOf(s, R.TokenKey(token))
    {
      ProfileFrame(s, "", name, token, cell);
    }
  }

  /** Deleting a token spoils no other. */
  lemma TokenDropGood(s: Store, token: string, call: Await, log: seq<TokenEvent>)
    requires TokensGood(s, log)
    ensures TokensGood(R.Dropped(s, R.TokenKey(token), call), log)
    ensures call.reply.Applied() ==> CellOf(R.Dropped(s, R.TokenKey(token), call), R.TokenKey(token)).None?
  {
    forall other
      ensures CellGood(CellOf(R.Dropped(s, R.TokenKey(token), call), R.TokenKey(other)), log, other)
    {
      assert CellGood(CellOf(s, R.TokenKey(other)), log, other);
      TokenKeysDistinct(token, other);
    }
  }

  lemma LoginCallGood(w: World, id: nat, pick: Option<Id>, call: Await)
    requires Good(w) && id in w.tasks && (w.tasks[id].Asking? || w.tasks[id].Missed? || w.tasks[id].Holding?)
    ensures Good(Effect(w, id, w.tasks[id], pick, call))
  {
    EndGood(w, id);
    match w.tasks[id]
    case Asking(name) => BecomeGood(w, id, Missed(name));
    case Missed(name) =>
      if pick.Some? && MayPick(w.users, name, pick) {
        BecomeGood(w, id, Holding(name, ProfileOf(pick.value, w.users[pick.value])));
      }
    case Holding(name, profile) =>
      var cell := AfterSet(CellOf(w.store, ProfileKey(name)), Profile(profile), CacheAside.PROFILE_TTL, call);
      ProfileWriteGood(w.store, name, cell, w.log);
  }

  lemma PresentGood(w: World, id: nat, token: string, hash: Option<string>, call: Await)
    requires Good(w) && id in w.tasks && w.tasks[id] == Presenting(token, hash)
    ensures Good(PresentEffect(w, id, token, hash, call))
  {
    EndGood(w, id);
    var email := R.TokenEmail(w.store, token, call);
    if email.Some? {
      var e := Read(id, token, call.at);
      LogGoodBut(w, id, e);
      assert CellGood(CellOf(w.store, R.TokenKey(token)), w.log, token);
      ReadNow(w.log, CellOf(w.store, R.TokenKey(token)), id, token, call.at);
      BecomeGood(Log(w, e), id, Finding(token, email.value, hash));
    }
  }

  /** Reading a live token is reading it in time. */
  lemma ReadNow(log: seq<TokenEvent>, c: Cell, id: nat, token: string, at: Time)
    requires CellGood(c, log, token) && Live(c, at)
    ensures var log' := log + [Read(id, token, at)]; ReadBefore(log', |log'|, id, token)
  {
    var log' := log + [Read(id, token, at)];
    var j :| 0 <= j < |log| && log[j].Issued? && log[j].token == token && log[j].at + 900 * SECOND == c.value.expiry.value;
    assert log'[j] == log[j];
    assert GoodRead(log', |log|, id, token);
  }

  lemma FindGood(w: World, id: nat, pick: Option<Id>, call: Await)
    requires Good(w) && id in w.tasks && w.tasks[id].Finding?
    ensures Good(Effect(w, id, w.tasks[id], pick, call))
  {
    var t := w.tasks[id];
    EndGood(w, id);
    if t.newHash.Some? && MayPick(w.users, t.email, pick) {
      BecomeGood(w, id, Updating(t.token, t.email, if pick.Some? then Some(w.users[pick.value].username) else None, t.newHash.value));
    }
  }

  lemma UpdateGood(w: World, id: nat, t: Task, call: Await)
    requires Good(w) && id in w.tasks && w.tasks[id] == t && t.Updating?
    ensures Good(UpdateEffect(w, id, t.token, t.email, t.username, t.hash, call))
  {
    var next := DroppingEmail(t.token, t.email, t.username);
    assert TaskGood(t, id, w.log);
    ReadIsIssued(w.log, |w.log|, id, t.token);
    if R.Holders(w.users, t.email) != {} && call.reply.Applied() {
      var e := Changed(id, t.token);
      var w1 := w.(users := UpdateUsers(w.users, R.Holders(w.users, t.email), UpdatePassword(t.hash)));
      LogGoodBut(w1, id, e);
      IssuedGrows(w.log, e, t.token);
      EndGood(Log(w1, e), id);
      BecomeGood(Log(w1, e), id, next);
    } else {
      EndGood(w, id);
    }
  }

  lemma DropGood(w: World, id: nat, pick: Option<Id>, call: Await)
    requires Good(w) && id in w.tasks && HasChanged(w.tasks[id])
    ensures Good(Effect(w, id, w.tasks[id], pick, call))
  {
    assert TaskGood(w.tasks[id], id, w.log);
    match w.tasks[id]
    case DroppingEmail(token, email, username) =>
      ProfileWriteGood(w.store, email, AfterDelete(CellOf(w.store, ProfileKey(email)), call), w.log);
      BecomeGood(w.(store := R.Dropped(w.store, ProfileKey(email), call)), id, DroppingUser(token, username));
    case DroppingUser(token, username) =>
      if username.Some? {
        ProfileWriteGood(w.store, username.value, AfterDelete(CellOf(w.store, ProfileKey(username.value)), call), w.log);
        BecomeGood(w.(store := R.Dropped(w.store, ProfileKey(username.value), call)), id, DroppingToken(token));
      } else {
        BecomeGood(w, id, DroppingToken(token));
      }
    case DroppingToken(token) =>
      TokenDropGood(w.store, token, call, w.log);
      var w1 := w.(store := R.Dropped(w.store, R.TokenKey(token), call));
      EndGood(w1, id);
      if call.reply.Applied() {
        LogGoodBut(w1, id, Consumed(token));
        EndGood(Log(w1, Consumed(token)), id);
      }
  }

  lemma CallGood(w: World, id: nat, pick: Option<Id>, call: Await)
    requires Good(w) && id in w.tasks
    ensures Good(Effect(w, id, w.tasks[id], pick, call))
  {
    var t := w.tasks[id];
    if HasChanged(t) {
      DropGood(w, id, pick, call);
    } else if t.Updating? {
      UpdateGood(w, id, t, call);
    } else if t.Finding? {
      FindGood(w, id, pick, call);
    } else if t.Presenting? {
      PresentGood(w, id, t.token, t.newHash, call);
    } else {
      LoginCallGood(w, id, pick, call);
    }
  }

  lemma ForgetGood(w: World, identity: string, token: string, call: Await)
    requires Good(w) && !IsIssued(w.log, token)
    ensures Good(ForgetEffect(w, identity, token, call))
  {
    var e := Issued(token, call.at);
    var cell := AfterSet(CellOf(w.store, R.TokenKey(token)), Text(Lower(identity)), R.RESET_TTL, call);
    var s := Write(w.store, R.TokenKey(token), cell);
    if call.reply.Applied() {
      LogGrows(w.log, e, w.ids);
      forall i | i in w.tasks
        ensures TaskGood(w.tasks[i], i, w.log + [e])
      {
        TaskGrows(w.tasks[i], i, w.log, e);
      }
      forall other
        ensures CellGood(CellOf(s, R.TokenKey(other)), w.log + [e], other)
      {
        TokenKeysDistinct(token, other);
        if other == token {
          assert (w.log + [e])[|w.log|] == e;
        } else {
          assert CellGood(CellOf(w.store, R.TokenKey(other)), w.log, other);
          CellGrows(CellOf(w.store, R.TokenKey(other)), w.log, e, other);
        }
      }
    } else {
      assert s == w.store;
    }
  }

  lemma BeginGood(w: World, id: nat, t: Task)
    requires Good(w) && (t.Asking? || t.Presenting?)
    ensures Good(Begin(w, id, t))
  {
    if id !in w.ids {
      BecomeGood(w.(ids := w.ids + {id}), id, t);
    }
  }

  lemma StepGood(w: World, step: Step)
    requires Good(w)
    ensures Good(Next(w, step))
  {
    match step
    case BeginLogin(id, name) => BeginGood(w, id, Asking(name));
    case BeginReset(id, token, hash) => BeginGood(w, id, Presenting(token, hash));
    case Call(id, pick, call) =>
      if id in w.tasks && w.now <= call.at {
        CallGood(w.(now := call.at), id, pick, call);
      }
    case Cancel(id) =>
    case Forget(identity, token, call) =>
      if w.now <= call.at && !IsIssued(w.log, token) {
        ForgetGood(w, identity, token, call);
      }
    case Evict(name, call) => ProfileWriteGood(w.store, name, AfterDelete(CellOf(w.store, ProfileKey(name)), call), w.log);
    case Others(users) =>
    case Command(key, cell) => CommandGood(w, key, cell);
  }

  lemma CommandGood(w: World, key: CacheKey, cell: Cell)
    requires Good(w)
    ensures Good(Next(w, Command(key, cell)))
  {
    if !key.UserProfile? && !key.PasswordReset? {
      WriteFrame(w.store, Render(key), cell);
      forall token
        ensures CellOf(Write(w.store, Render(key), cell), R.TokenKey(token)) == CellOf(w.store, R.TokenKey(token))
      {
        KeyCollision(key, Keys.PasswordReset(token));
      }
    }
  }

  lemma {:induction false} RunGood(w: World, steps: seq<Step>)
    requires Good(w)
    ensures Good(Run(w, steps))
    decreases |steps|
  {
    if steps != [] {
      StepGood(w, steps[0]);
      RunGood(Next(w, steps[0]), steps[1..]);
    }
  }

  /** Nothing cached, nothing running. */
  function Fresh(users: UserTable): World {
    World(0, map[], users, map[], {}, [], [])
  }

  /**
    In every interleaving of resets, logins and requests for tokens, with any call failing and any
    request dropped: a password is only changed by a request that read its token less than 900 s after
    the token was issued and before anything used it up; and each request changes at most one.
   */
  lemma EveryChangeReadInTime(users: UserTable, steps: seq<Step>)
    ensures var log := Run(Fresh(users), steps).log;
            && (forall k :: 0 <= k < |log| && log[k].Changed? ==> ReadBefore(log, k, log[k].id, log[k].token))
            && (forall j, k :: 0 <= j < k < |log| && log[j].Changed? && log[k].Changed? ==> log[j].id != log[k].id)
  {
    RunGood(Fresh(users), steps);
  }

  // ---- When a used token still works --------------------------------------------------------------------

  /** The request has read the token and will still try to change the password. */
  predicate Pending(t: Task, token: string) {
    (t.Finding? && t.newHash.Some? && t.token == token) || (t.Updating? && t.token == token)
  }

  ghost predicate AnyPending(w: World, token: string) {
    exists id :: id in w.tasks && Pending(w.tasks[id], token)
  }

  ghost predicate ChangesAgain(w: World, steps: seq<Step>, token: string) {
    var end := Run(w, steps);
    exists k :: |w.log| <= k < |end.log| && end.log[k].Changed? && end.log[k].token == token
  }

  /** The token is gone, no request is about to use it, and none has since position `n`. */
  ghost predicate Dead(w: World, token: string, n: nat) {
    && IsIssued(w.log, token) && CellOf(w.store, R.TokenKey(token)).None? && !AnyPending(w, token)
    && n <= |w.log| && forall k :: n <= k < |w.log| && w.log[k].Changed? ==> w.log[k].token != token
  }

  /** A world whose tasks are those of a dead one, save one that does not bring the token back. */
  lemma DeadAfter(w: World, w': World, id: nat, token: string, n: nat)
    requires Dead(w, token, n) && CellOf(w'.store, R.TokenKey(token)).None?
    requires w'.log == w.log || (exists e :: w'.log == w.log + [e] && (e.Changed? ==> e.token != token))
    requires forall i :: i in w'.tasks && i != id ==> i in w.tasks && w'.tasks[i] == w.tasks[i]
    requires id in w'.tasks ==> !Pending(w'.tasks[id], token)
    ensures Dead(w', token, n)
  {
    if w'.log != w.log {
      var e :| w'.log == w.log + [e] && (e.Changed? ==> e.token != token);
      IssuedGrows(w.log, e, token);
    }
    forall i | i in w'.tasks
      ensures !Pending(w'.tasks[i], token)
    {
    }
  }

  lemma TokenStaysGone(w: World, name: string, other: string, cell: Cell, call: Await, token: string)
    requires CellOf(w.store, R.TokenKey(token)).None?
    ensures CellOf(Write(w.store, ProfileKey(name), cell), R.TokenKey(token)).None?
    ensures CellOf(R.Dropped(w.store, R.TokenKey(other), call), R.TokenKey(token)).None?
  {
    ProfileFrame(w.store, "", name, token, cell);
    TokenKeysDistinct(token, other);
  }

  lemma ResetCallDead(w: World, id: nat, pick: Option<Id>, call: Await, token: string, n: nat)
    requires Dead(w, token, n) && id in w.tasks && (w.tasks[id].Presenting? || w.tasks[id].Finding? || w.tasks[id].Updating?)
    ensures Dead(Effect(w, id, w.tasks[id], pick, call), token, n)
  {
    var t := w.tasks[id];
    var w' := Effect(w, id, t, pick, call);
    assert !Pending(t, token);
    if t.Presenting? {
      var e := Read(id, t.token, call.at);
      assert w'.log == w.log || w'.log == w.log + [e];
    } else if t.Updating? {
      var e := Changed(id, t.token);
      assert w'.log == w.log || w'.log == w.log + [e];
    }
    DeadAfter(w, w', id, token, n);
  }

  lemma DropCallDead(w: World, id: nat, pick: Option<Id>, call: Await, token: string, n: nat)
    requires Dead(w, token, n) && id in w.tasks && HasChanged(w.tasks[id])
    ensures Dead(Effect(w, id, w.tasks[id], pick, call), token, n)
  {
    var t := w.tasks[id];
    var w' := Effect(w, id, t, pick, call);
    match t
    case DroppingEmail(_, email, _) =>
      TokenStaysGone(w, email, "", AfterDelete(CellOf(w.store, ProfileKey(email)), call), call, token);
    case DroppingUser(_, username) =>
      if username.Some? {
        TokenStaysGone(w, username.value, "", AfterDelete(CellOf(w.store, ProfileKey(username.value)), call), call, token);
      }
    case DroppingToken(other) =>
      TokenStaysGone(w, "", other, None, call, token);
      var e := Consumed(other);
      assert w'.log == w.log || w'.log == w.log + [e];
    DeadAfter(w, w', id, token, n);
  }

  lemma LoginCallDead(w: World, id: nat, pick: Option<Id>, call: Await, token: string, n: nat)
    requires Dead(w, token, n) && id in w.tasks && (w.tasks[id].Asking? || w.tasks[id].Missed? || w.tasks[id].Holding?)
    ensures Dead(Effect(w, id, w.tasks[id], pick, call), token, n)
  {
    var t := w.tasks[id];
    if t.Holding? {
      var cell := AfterSet(CellOf(w.store, ProfileKey(t.name)), Profile(t.profile), CacheAside.PROFILE_TTL, call);
      TokenStaysGone(w, t.name, "", cell, call, token);
    }
    DeadAfter(w, Effect(w, id, t, pick, call), id, token, n);
  }

  lemma CallDead(w: World, id: nat, pick: Option<Id>, call: Await, token: string, n: nat)
    requires Dead(w, token, n) && id in w.tasks
    ensures Dead(Effect(w, id, w.tasks[id], pick, call), token, n)
  {
    if HasChanged(w.tasks[id]) {
      DropCallDead(w, id, pick, call, token, n);
    } else if w.tasks[id].Asking? || w.tasks[id].Missed? || w.tasks[id].Holding? {
      LoginCallDead(w, id, pick, call, token, n);
    } else {
      ResetCallDead(w, id, pick, call, token, n);
    }
  }

  lemma StepDead(w: World, step: Step, token: string, n: nat)
    requires Dead(w, token, n)
    ensures Dead(Next(w, step), token, n)
  {
    match step
    case BeginLogin(id, name) => DeadAfter(w, Next(w, step), id, token, n);
    case BeginReset(id, _, _) => DeadAfter(w, Next(w, step), id, token, n);
    case Call(id, pick, call) =>
      if id in w.tasks && w.now <= call.at {
        CallDead(w.(now := call.at), id, pick, call, token, n);
      }
    case Cancel(id) => DeadAfter(w, Next(w, step), id, token, n);
    case Forget(identity, other, call) =>
      TokenKeysDistinct(token, other);
      var e := Issued(other, call.at);
      assert Next(w, step).log == w.log || Next(w, step).log == w.log + [e];
      DeadAfter(w, Next(w, step), 0, token, n);
    case Evict(name, call) =>
      TokenStaysGone(w, name, "", AfterDelete(CellOf(w.store, ProfileKey(name)), call), call, token);
      DeadAfter(w, Next(w, step), 0, token, n);
    case Others(users) => DeadAfter(w, Next(w, step), 0, token, n);
    case Command(key, cell) =>
      KeyCollision(key, Keys.PasswordReset(token));
      WriteFrame(w.store, Render(key), cell);
      DeadAfter(w, Next(w, step), 0, token, n);
  }

  lemma {:induction false} RunDead(w: World, steps: seq<Step>, token: string, n: nat)
    requires Dead(w, token, n)
    ensures Dead(Run(w, steps), token, n)
    decreases |steps|
  {
    if steps != [] {
      StepDead(w, steps[0], token, n);
      RunDead(Next(w, steps[0]), steps[1..], token, n);
    }
  }

  lemma SomePick(us: UserTable, name: string) returns (pick: Option<Id>)
    ensures MayPick(us, name, pick)
  {
    if u :| u in us && Matches(us[u], name) {
      pick := Some(u);
    } else {
      pick := None;
    }
  }

  /** A pending request whose account exists changes the password. */
  lemma PendingChanges(w: World, id: nat, token: string) returns (steps: seq<Step>)
    requires id in w.tasks && Pending(w.tasks[id], token) && R.Holders(w.users, w.tasks[id].email) != {}
    ensures ChangesAgain(w, steps, token)
  {
    var t, now := w.tasks[id], Await(w.now, Answered);
    if t.Updating? {
      steps := [Call(id, None, now)];
      RunOne(w, steps[0]);
    } else {
      var pick := SomePick(w.users, t.email);
      steps := [Call(id, pick, now), Call(id, None, now)];
      UpToUpdate(w, id, pick, AnsweredAt(w.now));
    }
    var end := Run(w, steps);
    assert end.log[|w.log|] == Changed(id, token);
  }

  /**
    Once a token is gone from the cache it can change a password of an existing account again exactly
    when some request that read it before is still on its way to the update.
   */
  lemma GoneTokenWorksIff(w: World, token: string)
    requires IsIssued(w.log, token) && CellOf(w.store, R.TokenKey(token)).None?
    requires forall id :: id in w.tasks && Pending(w.tasks[id], token) ==> R.Holders(w.users, w.tasks[id].email) != {}
    ensures (exists steps :: ChangesAgain(w, steps, token)) <==> AnyPending(w, token)
  {
    if AnyPending(w, token) {
      var id :| id in w.tasks && Pending(w.tasks[id], token);
      var steps := PendingChanges(w, id, token);
    } else {
      forall steps
        ensures !ChangesAgain(w, steps, token)
      {
        RunDead(w, steps, token, |w.log|);
      }
    }
  }

  // ---- Two requests, one token ----------------------------------------------------------------------------

  lemma BothRead(w: World, token: string, h1: string, h2: string) returns (a: nat, b: nat, steps: seq<Step>, email: string)
    requires w.tasks.Keys <= w.ids && R.TokenEmail(w.store, token, Await(w.now, Answered)).Some?
    ensures a !in w.ids && b !in w.ids && a != b && R.TokenEmail(w.store, token, Await(w.now, Answered)) == Some(email)
    ensures forall k :: 0 <= k < |steps| && steps[k].Call? ==> steps[k].call.reply.Answered?
    ensures var w' := Run(w, steps);
            && w'.now == w.now && w'.store == w.store && w'.users == w.users
            && w'.tasks == w.tasks[a := Finding(token, email, Some(h1))][b := Finding(token, email, Some(h2))]
            && w'.log == w.log + [Read(a, token, w.now), Read(b, token, w.now)]
  {
    var now := Await(w.now, Answered);
    email := R.TokenEmail(w.store, token, now).value;
    a := FreshId(w.ids);
    b := a + 1;
    var s1, s2 := [BeginReset(a, token, Some(h1)), Call(a, None, now)], [BeginReset(b, token, Some(h2)), Call(b, None, now)];
    RunTwo(w, s1[0], s1[1]);
    var w1 := Run(w, s1);
    assert w1.tasks == w.tasks[a := Finding(token, email, Some(h1))];
    RunTwo(w1, s2[0], s2[1]);
    RunAppend(w, s1, s2);
    steps := s1 + s2;
  }

  /** One request that has read the token runs to its end. */
  lemma OneFinishes(w: World, id: nat, u: Id) returns (steps: seq<Step>)
    requires id in w.tasks && w.tasks[id].Finding? && w.tasks[id].newHash.Some? && u in R.Holders(w.users, w.tasks[id].email)
    ensures forall k :: 0 <= k < |steps| && steps[k].Call? ==> steps[k].call.reply.Answered?
    ensures var t := w.tasks[id];
            var w' := Run(w, steps);
            && w'.tasks == w.tasks - {id} && R.Holders(w'.users, t.email) == R.Holders(w.users, t.email)
            && w'.log == w.log + [Changed(id, t.token), Consumed(t.token)]
  {
    var p := SomePick(w.users, w.tasks[id].email);
    ResetAnswered(w, id, p, u);
    steps := FinishSteps(id, p, AnsweredAt(w.now));
  }

  lemma BothFinish(w: World, a: nat, b: nat, u: Id) returns (steps: seq<Step>)
    requires a in w.tasks && b in w.tasks && a != b && w.tasks[a].Finding? && w.tasks[b].Finding?
    requires w.tasks[a].token == w.tasks[b].token && w.tasks[a].email == w.tasks[b].email
    requires w.tasks[a].newHash.Some? && w.tasks[b].newHash.Some? && u in R.Holders(w.users, w.tasks[a].email)
    ensures forall k :: 0 <= k < |steps| && steps[k].Call? ==> steps[k].call.reply.Answered?
    ensures var token := w.tasks[a].token;
            Run(w, steps).log == w.log + [Changed(a, token), Consumed(token)] + [Changed(b, token), Consumed(token)]
  {
    var first := OneFinishes(w, a, u);
    var second := OneFinishes(Run(w, first), b, u);
    RunAppend(w, first, second);
    steps := first + second;
  }

  /**
    With every call answered one token changes a password twice: both requests read it, the first runs
    to its end and uses it up, and the second changes the password after that.
   */
  lemma TwoResetsOneToken(w: World, token: string, h1: string, h2: string) returns (a: nat, b: nat, steps: seq<Step>)
    requires w.tasks.Keys <= w.ids && R.TokenEmail(w.store, token, Await(w.now, Answered)).Some?
    requires R.Holders(w.users, R.TokenEmail(w.store, token, Await(w.now, Answered)).value) != {}
    ensures a != b && forall k :: 0 <= k < |steps| && steps[k].Call? ==> steps[k].call.reply.Answered?
    ensures Run(w, steps).log == w.log + [Read(a, token, w.now), Read(b, token, w.now)]
                                 + [Changed(a, token), Consumed(token)] + [Changed(b, token), Consumed(token)]
  {
    var first, email;
    a, b, first, email := BothRead(w, token, h1, h2);
    var u :| u in R.Holders(w.users, email);
    var second := BothFinish(Run(w, first), a, b, u);
    RunAppend(w, first, second);
    steps := first + second;
  }
}
