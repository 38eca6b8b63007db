/**
  `AuthService` as it runs: the request handlers, call by call, on the cache and the repositories.
  Each is proved to do what the specification functions of the other modules say; the handlers that
  also run interleaved are proved to be the corresponding task of the protocol run alone.
 */
module AuthService {
  import opened Prelude
  import opened Redis
  import opened Keys
  import opened Users
  import opened Database
  import opened Lockout
  import opened Login
  import opened Protocol
  import opened Attempts
  import opened Onboarding
  import opened Blockchain
  import CacheAside
  import LimitConfig
  import PasswordReset
  import RateLimit
  import Resend
  import opened EmailVerification
  import WalletFlows
  import opened WalletLinking

  /** Why a handler turns a request away. */
  datatype Error = BadRequest | NotFound | Conflict | Internal

  datatype Answer<+T> = Ok(value: T) | Err(error: Error)

  /** What onboarding reports: whether the account is confirmed, and the signature of a transaction it submitted. */
  datatype Onboarded = Onboarded(success: bool, signature: Option<string>)

  /** The shape of a cached API key; anything else counts as a miss. */
  function VerifyKey(c: Cell, keys: map<string, ApiKey>, hash: string, calls: CacheAside.LookupCalls): (Option<ApiKey>, Cell) {
    match GetReply(c, calls.get)
    case Some(Some(Key(key))) => (Some(key), c)
    case _ =>
      if calls.read.reply.Answered? && hash in keys
      then (Some(keys[hash]), AfterSet(c, Key(keys[hash]), CacheAside.API_KEY_TTL, calls.put)) else (None, c)
  }

  /**
    The key accepted: the cached one while it lives, else the active row with that hash, which is then
    cached for 30 s; and none if there is neither.
   */
  predicate KeyFound(c: Cell, c': Cell, keys: map<string, ApiKey>, hash: string, calls: CacheAside.LookupCalls, key: Option<ApiKey>) {
    if calls.get.reply.Answered? && Live(c, calls.get.at) && c.value.value.Key? then key == Some(c.value.value.key) && c' == c
    else if calls.read.reply.Answered? && hash in keys then
      && key == Some(keys[hash])
      && c' == if calls.put.reply.Applied() then Some(Entry(Key(keys[hash]), Some(calls.put.at + 30 * SECOND))) else c
    else key.None? && c' == c
  }

  lemma VerifyKeyFinds(c: Cell, keys: map<string, ApiKey>, hash: string, calls: CacheAside.LookupCalls)
    ensures var (key, c') := VerifyKey(c, keys, hash, calls); KeyFound(c, c', keys, hash, calls, key)
  {
  }

  /** On a cell that only ever held API keys, key verification is the read-through lookup. */
  lemma VerifyKeyReadsThrough(c: Cell, keys: map<string, ApiKey>, hash: string, calls: CacheAside.LookupCalls)
    requires c.Some? ==> c.value.value.Key?
    ensures var rows := map h | h in keys :: Key(keys[h]);
            var (served, cell) := CacheAside.ReadThrough(c, rows, hash, calls, CacheAside.API_KEY_TTL);
            var (key, cell') := VerifyKey(c, keys, hash, calls);
            cell' == cell && served == if key.Some? then Some(Key(key.value)) else None
  {
  }

  /** On a cell that only ever held profiles, the lookup of `login` is the read-through lookup. */
  lemma LoginReadsThrough(c: Cell, us: UserTable, identity: string, pick: Option<Id>, calls: LoginCalls)
    requires c.Some? ==> c.value.value.Profile?
    requires pick.Some? ==> pick.value in us
    ensures var rows := if pick.Some? then map[identity := Profile(ProfileOf(pick.value, us[pick.value]))] else map[];
            var lookup := CacheAside.LookupCalls(calls.get, calls.read, calls.put);
            var (served, cell) := CacheAside.ReadThrough(c, rows, identity, lookup, CacheAside.PROFILE_TTL);
            var (user, cell') := LookUp(c, us, pick, calls);
            cell' == cell && served == if user.Some? then Some(Profile(user.value)) else None
  {
  }

  /** The cooldown key of a user. */
  function CooldownKey(u: Id): string {
    Render(ResendCooldown(LimitConfig.Decimal(u)))
  }

  /** What a lookup by email, compared case-insensitively, may return. */
  predicate MayFind(us: UserTable, email: string, pick: Option<Id>) {
    match pick
    case Some(id) => id in us && Lower(us[id].email) == Lower(email)
    case None => forall id :: id in us ==> Lower(us[id].email) != Lower(email)
  }

  class AuthService {
    const cfg: Config
    const cache: CacheService
    const repos: Repositories

    constructor (cfg: Config, cache: CacheService, repos: Repositories)
      ensures this.cfg == cfg && this.cache == cache && this.repos == repos
    {
      this.cfg := cfg;
      this.cache := cache;
      this.repos := repos;
    }

    // ---- Sessions -------------------------------------------------------------------------------

    /** The part of `login` after a wrong password: count it, and lock the account at five. */
    method CountFailure(username: string, c: LoginCalls) returns (locked: bool)
      modifies cache
      ensures var g := GuardOf(old(cache.entries), username);
              var counted := AfterIncrementWithTtl(g.attempts, LOCKOUT, c.count);
              && locked == (Count(g, c) >= MAX_FAILED)
              && GuardOf(cache.entries, username)
                 == (if locked then Guard(AfterSet(g.lock, Flag(true), LOCKOUT, c.lock), AfterDelete(counted, c.clear))
                     else g.(attempts := counted))
              && (forall key :: key != LockKey(username) && key != AttemptsKey(username) ==>
                   CellOf(cache.entries, key) == CellOf(old(cache.entries), key))
    {
      LoginKeysDistinct(username, username);
      ghost var s0 := cache.entries;
      var reply := cache.IncrementWithTtl(AttemptsKey(username), LOCKOUT, c.count);
      WriteFrame(s0, AttemptsKey(username), AfterIncrementWithTtl(CellOf(s0, AttemptsKey(username)), LOCKOUT, c.count));
      var attempts := if reply.Some? then reply.value else 0;
      locked := attempts >= MAX_FAILED;
      if locked {
        ghost var s1 := cache.entries;
        var _ := cache.SetRaw(LockKey(username), Flag(true), LOCKOUT, c.lock);
        WriteFrame(s1, LockKey(username), AfterSet(CellOf(s1, LockKey(username)), Flag(true), LOCKOUT, c.lock));
        ghost var s2 := cache.entries;
        cache.DeleteRaw(AttemptsKey(username), c.clear);
        WriteFrame(s2, AttemptsKey(username), AfterDelete(CellOf(s2, AttemptsKey(username)), c.clear));
      }
    }

    /** The profile to check against: cached, or read and cached. */
    method FindProfile(username: string, pick: Option<Id>, c: LoginCalls) returns (user: Option<UserWithHash>)
      modifies cache
      ensures var (u, cell) := LookUp(CellOf(old(cache.entries), ProfileKey(username)), repos.users, pick, c);
              && user == u
              && ProfileFound(CellOf(old(cache.entries), ProfileKey(username)), cell, repos.users, pick, c, user)
              && CellOf(cache.entries, ProfileKey(username)) == cell
              && (forall key :: key != ProfileKey(username) ==>
                   CellOf(cache.entries, key) == CellOf(old(cache.entries), key))
    {
      var cached := cache.GetRaw(ProfileKey(username), c.get);
      if cached.Some? && cached.value.Some? && cached.value.value.Profile? {
        return Some(cached.value.value.user);
      }
      if !c.read.reply.Answered? || pick.None? || pick.value !in repos.users {
        return None;
      }
      var found := ProfileOf(pick.value, repos.users[pick.value]);
      ghost var s0 := cache.entries;
      var _ := cache.SetRaw(ProfileKey(username), Profile(found), CacheAside.PROFILE_TTL, c.put);
      WriteFrame(s0, ProfileKey(username), AfterSet(CellOf(s0, ProfileKey(username)), Profile(found), CacheAside.PROFILE_TTL, c.put));
      return Some(found);
    }

    method RunLogin(r: Request, check: PasswordCheck) returns (locked: bool, verdict: Verdict, used: Option<UserWithHash>)
      modifies cache
      ensures var end := LogIn(old(cache.entries), repos.users, r, check);
              && (forall key :: CellOf(cache.entries, key) == CellOf(end.store, key))
              && locked == end.locked && verdict == end.verdict && used == end.used
      ensures Decides(old(cache.entries), cache.entries, repos.users, r, check, locked, verdict, used)
      ensures verdict == Right <==> used.Some? && check(r.password, used.value.hash) == Some(true)
      ensures verdict == Wrong <==> used.Some? && check(r.password, used.value.hash) == Some(false)
      ensures verdict == Right && r.calls.clear.reply.Applied() ==> CellOf(cache.entries, AttemptsKey(r.username)).None?
    {
      ghost var s0 := cache.entries;
      LoginProjects(s0, repos.users, r, check);
      LoginDecides(s0, repos.users, r, check);
      LoginKeysDistinct(r.username, r.username);
      var present := cache.ExistsRaw(LockKey(r.username), r.calls.exists_);
      if present == Some(true) {
        return true, Aborted, None;
      }
      used := FindProfile(r.username, r.pick, r.calls);
      locked, verdict := false, Aborted;
      if used.None? {
        return;
      }
      var valid := check(r.password, used.value.hash);
      if valid.None? {
        return;
      }
      if !valid.value {
        verdict := Wrong;
        locked := CountFailure(r.username, r.calls);
        return;
      }
      verdict := Right;
      ghost var s1 := cache.entries;
      cache.DeleteRaw(AttemptsKey(r.username), r.calls.clear);
      WriteFrame(s1, AttemptsKey(r.username), AfterDelete(CellOf(s1, AttemptsKey(r.username)), r.calls.clear));
    }

    /** The answer is the same for known and unknown identities; only a failing store or cache shows. */
    method ForgotPassword(identity: string, token: string, pick: Option<Id>, c: PasswordReset.ForgotCalls) returns (ok: bool)
      modifies cache
      ensures ok <==> c.read.reply.Answered? && (pick.Some? ==> c.set_.reply.Answered?)
      ensures PasswordReset.State(cache.entries, repos.users)
           == PasswordReset.Forgot(PasswordReset.State(old(cache.entries), repos.users), identity, token, pick, c)
      ensures c.read.reply.Answered? && pick.Some? && c.set_.reply.Applied() ==>
                CellOf(cache.entries, PasswordReset.TokenKey(token)) == Some(Entry(Text(Lower(identity)), Some(c.set_.at + 900 * SECOND)))
      ensures forall key :: key != PasswordReset.TokenKey(token) ==> CellOf(cache.entries, key) == CellOf(old(cache.entries), key)
    {
      if !c.read.reply.Answered? {
        return false;
      }
      if pick.None? {
        return true;
      }
      ok := cache.SetRaw(PasswordReset.TokenKey(token), Text(Lower(identity)), PasswordReset.RESET_TTL, c.set_);
    }

    method ResetPassword(token: string, hash: Option<string>, pick: Option<Id>, c: PasswordReset.ResetCalls)
      returns (ok: bool)
      modifies cache, repos`users
      ensures (PasswordReset.State(cache.entries, repos.users), ok)
           == PasswordReset.Reset(old(PasswordReset.State(cache.entries, repos.users)), token, hash, pick, c)
    {
      var key := PasswordReset.TokenKey(token);
      var stored := cache.GetRaw(key, c.get);
      if stored.None? || stored.value.None? || !stored.value.value.Text? {
        return false;
      }
      var email := stored.value.value.s;
      if !c.read.reply.Answered? {
        return false;
      }
      var found := if pick.Some? && pick.value in repos.users then Some(repos.users[pick.value].username) else None;
      if hash.None? {
        return false;
      }
      var holders := PasswordReset.Holders(repos.users, email);
      var updated := repos.UpdateRows(holders, UpdatePassword(hash.value), c.update.reply);
      if !updated || holders == {} {
        return false;
      }
      cache.DeleteRaw(ProfileKey(email), c.dropEmail);
      if found.Some? {
        cache.DeleteRaw(ProfileKey(found.value), c.dropUser);
      }
      cache.DeleteRaw(key, c.dropToken);
      return true;
    }

    /** Emails the picked user, if there is reason to; the answer to the caller is the same either way. */
    method ResendVerification(email: string, pick: Option<Id>, fresh_: string, c: Resend.Calls)
      returns (sent: Option<Resend.Email>)
      requires MayFind(repos.users, email, pick)
      modifies cache, repos`users
      ensures pick.None? ==> sent == None && cache.entries == old(cache.entries) && repos.users == old(repos.users)
      ensures pick.Some? ==>
                var key := CooldownKey(pick.value);
                var subject := Resend.Subject(old(repos.users)[pick.value], CellOf(old(cache.entries), key));
                var (after, email) := Resend.Resent(subject, fresh_, c);
                && sent == email
                && cache.entries == Write(old(cache.entries), key, after.cooldown)
                && repos.users == old(repos.users)[pick.value := after.row]
                && Resend.Sends(subject, Resend.Subject(repos.users[pick.value], CellOf(cache.entries, key)), fresh_, c, sent)
    {
      if pick.None? {
        return None;
      }
      var u := pick.value;
      var key := CooldownKey(u);
      Resend.ResentSends(Resend.Subject(repos.users[u], CellOf(cache.entries, key)), fresh_, c);
      assert cache.entries == Write(cache.entries, key, CellOf(cache.entries, key));
      assert repos.users == repos.users[u := repos.users[u]];
      if !c.state.reply.Answered? || repos.users[u].emailVerified {
        return None;
      }
      var present := cache.ExistsRaw(key, c.exists_);
      if present == Some(true) {
        return None;
      }
      var token := Resend.StoredToken(repos.users[u], c.state.at);
      if token.None? {
        var minted := Token(fresh_, c.setToken.at + Resend.TOKEN_LIFE);
        ghost var before := repos.users;
        var ok := repos.UpdateRows({u}, SetVerificationToken(minted), c.setToken.reply);
        assert c.setToken.reply.Applied() ==>
            repos.users == before[u := Updated(before[u], SetVerificationToken(minted))];
        if !ok {
          return None;
        }
        token := Some(minted);
      }
      sent := Some(Resend.Email(c.publish.at, token.value, c.state.at));
      var _ := cache.SetRaw(key, Flag(true), Resend.COOLDOWN, c.arm);
    }

    /** Accepts the key when it is cached or active. */
    method VerifyApiKey(keys: map<string, ApiKey>, hash: string, calls: CacheAside.LookupCalls) returns (key: Option<ApiKey>)
      modifies cache
      ensures var cacheKey := Render(ApiKeyLookup(hash));
              var (k, cell) := VerifyKey(CellOf(old(cache.entries), cacheKey), keys, hash, calls);
              && key == k && cache.entries == Write(old(cache.entries), cacheKey, cell)
              && KeyFound(CellOf(old(cache.entries), cacheKey), CellOf(cache.entries, cacheKey), keys, hash, calls, key)
    {
      var cacheKey := Render(ApiKeyLookup(hash));
      assert cache.entries == Write(cache.entries, cacheKey, CellOf(cache.entries, cacheKey));
      var cached := cache.GetRaw(cacheKey, calls.get);
      if cached.Some? && cached.value.Some? && cached.value.value.Key? {
        return Some(cached.value.value.key);
      }
      if !calls.read.reply.Answered? || hash !in keys {
        return None;
      }
      var _ := cache.SetRaw(cacheKey, Key(keys[hash]), CacheAside.API_KEY_TTL, calls.put);
      return Some(keys[hash]);
    }

    method CheckRateLimit(ip: string, endpoint: string, limit: nat, window: Time, r: RateLimit.Request)
      returns (admitted: bool)
      modifies cache
      ensures var key := Render(RateLimit(ip, endpoint));
              var c := CellOf(old(cache.entries), key);
              && admitted == RateLimit.Admitted(c, r, limit)
              && cache.entries == Write(old(cache.entries), key, RateLimit.AfterRequest(c, r, window))
    {
      var key := Render(RateLimit(ip, endpoint));
      ghost var s0 := cache.entries;
      var count := cache.IncrementRaw(key, r.incr);
      ghost var c1 := AfterIncrement(CellOf(s0, key), r.incr);
      WriteFrame(s0, key, c1);
      if count.None? {
        return false;
      }
      if count.value == 1 {
        var _ := cache.SetRaw(key, Number(1), window, r.set_);
        assert Write(Write(s0, key, c1), key, AfterSet(c1, Number(1), window, r.set_))
            == Write(s0, key, AfterSet(c1, Number(1), window, r.set_));
      }
      return count.value <= limit;
    }

    // ---- Wallets and on-chain registration -----------------------------------------------------------

    /** The answer is the wallet as it now stands in the table, or that the user has no such wallet. */
    method SetPrimaryWallet(user: Id, wallet: Id, env: nat -> Moment) returns (answer: Answer<Wallet>)
      modifies repos
      ensures repos.State() == Alone(cfg, old(repos.State()), ChoosePrimary(user, wallet), env, 0)
      ensures if env(0).reply.Applied() then WalletFlows.PrimaryIs(old(repos.wallets), repos.wallets, user, wallet)
              else repos.wallets == old(repos.wallets)
      ensures if answer.Ok?
              then WalletFlows.AddressIs(old(repos.users), repos.users, user, answer.value.address,
                                         env(1).reply.Applied() && !MirrorTaken(old(repos.users), user, answer.value.address))
              else repos.users == old(repos.users)
      ensures answer.Ok? <==> env(0).reply.Answered? && Owns(old(repos.wallets), user, wallet)
      ensures answer.Ok? ==> wallet in repos.wallets && answer.value == repos.wallets[wallet] && answer.value.primary
      ensures answer.Err? ==> answer.error == if env(0).reply.Answered? then NotFound else Internal
    {
      ghost var db := repos.State();
      var found := repos.SetPrimary(user, wallet, env(0).reply);
      if found.None? || found.value.None? {
        AloneStep(cfg, db, ChoosePrimary(user, wallet), env, 0, Done(repos.State()));
        WalletFlows.ChoosingEffect(cfg, db, repos.State(), user, wallet, env);
        return Err(if found.None? then Internal else NotFound);
      }
      ghost var db' := repos.State();
      AloneStep(cfg, db, ChoosePrimary(user, wallet), env, 0, Goto(db', ChooseMirror(user, found.value.value.address)));
      var _ := repos.SetWalletAddressOf(user, found.value.value.address, env(1).reply);
      AloneStep(cfg, db', ChooseMirror(user, found.value.value.address), env, 1, Done(repos.State()));
      WalletFlows.ChoosingEffect(cfg, db, repos.State(), user, wallet, env);
      return Ok(found.value.value);
    }

    /** A wallet that is not deleted is looked up once more, to tell a primary one from a missing one. */
    method UnlinkWallet(user: Id, wallet: Id, env: nat -> Moment) returns (answer: Answer<()>)
      modifies repos
      ensures repos.State() == Alone(cfg, old(repos.State()), Unlink(user, wallet), env, 0)
      ensures repos.users == old(repos.users)
      ensures answer.Ok? ==> repos.wallets.Keys == old(repos.wallets).Keys - {wallet}
      ensures env(0).reply.Answered? && answer.Err? ==> repos.wallets == old(repos.wallets)
      ensures forall w :: w in old(repos.wallets) && w != wallet ==> w in repos.wallets && repos.wallets[w] == old(repos.wallets)[w]
      ensures answer.Ok? <==> env(0).reply.Answered? && Owns(old(repos.wallets), user, wallet) && !old(repos.wallets)[wallet].primary
      ensures answer == Err(BadRequest) ==> Owns(old(repos.wallets), user, wallet) && old(repos.wallets)[wallet].primary
      ensures answer == Err(NotFound) ==> !Owns(old(repos.wallets), user, wallet)
      ensures env(0).reply.Answered? && env(1).reply.Answered? ==> answer != Err(Internal)
    {
      ghost var db := repos.State();
      var result := repos.DeleteIfNotPrimary(user, wallet, env(0).reply);
      WalletFlows.UnlinkEffect(cfg, db, repos.State(), user, wallet, env);
      if result == Some(true) {
        return Ok(());
      }
      if result.None? || !env(1).reply.Answered? {
        return Err(Internal);
      }
      return Err(if Owns(repos.wallets, user, wallet) then BadRequest else NotFound);
    }

    /** Submit and confirm; the signature counts only once the account is seen. */
    method RegisterAndConfirm(ghost flow: Flow, ghost user: Id, address: string, env: nat -> Moment, k: nat)
      returns (signature: Option<string>, next: nat)
      ensures Alone(cfg, repos.State(), Submit(flow, user, address), env, k)
           == AfterAttempt(cfg, repos.State(), flow, user, address, signature, env, next)
      ensures signature == if Confirms(cfg, address, env, k) then Some(env(k).signature) else None
      ensures signature.Some? ==> next > 0 && ConfirmedBy(cfg, address, env, k, next - 1)
    {
      var seen, polls, slept := false, 0, 0;
      if env(k).reply.Answered? && cfg.programValid {
        seen, polls, slept := ConfirmRegistered(cfg.programValid, SeenAt(cfg, address, env, k + 1));
      }
      signature, next := if seen then Some(env(k).signature) else None, k + 1 + polls;
      Attempted(cfg, repos.State(), flow, user, address, polls, seen, signature, next, env, k);
    }

    /** The answer is the signature, once the account was seen and the wallet's mark was answered. */
    method InitializeUserWallet(user: Id, address: string, env: nat -> Moment) returns (answer: Answer<string>)
      modifies repos
      ensures repos.State() == if cfg.validAddress(address)
                               then Alone(cfg, old(repos.State()), Submit(Initialising, user, address), env, 0)
                               else old(repos.State())
      ensures cfg.validAddress(address) ==> Registered(cfg, old(repos.State()), repos.State(), Initialising, user, address, env, 0)
      ensures answer == Err(BadRequest) <==> !cfg.validAddress(address)
      ensures answer.Ok? ==> Confirms(cfg, address, env, 0) && answer.value == env(0).signature
      ensures cfg.validAddress(address) ==>
                forall n: nat :: ConfirmedBy(cfg, address, env, 0, n) ==> (answer.Ok? <==> env(n + 1).reply.Answered?)
    {
      if !cfg.validAddress(address) {
        return Err(BadRequest);
      }
      ghost var db := repos.State();
      var signature, k := RegisterAndConfirm(Initialising, user, address, env, 0);
      if signature.None? {
        AttemptRegisters(cfg, db, db, Initialising, user, address, env, 0);
        return Err(Internal);
      }
      MarkedWallet(cfg, repos.State(), Initialising, user, address, signature.value, env, k);
      var marked := repos.MarkRegistered(user, address, signature.value, env(k).reply);
      AttemptRegisters(cfg, db, repos.State(), Initialising, user, address, env, 0);
      ConfirmedOnlyBy(cfg, address, env, 0, k - 1);
      return if marked then Ok(signature.value) else Err(Internal);
    }

    /** The detached task after provisioning: the wallet first, then the user, each best effort. */
    method RegisterDetached(user: Id, address: string, env: nat -> Moment)
      modifies repos
      ensures repos.State() == Alone(cfg, old(repos.State()), Submit(Detached, user, address), env, 0)
      ensures Registered(cfg, old(repos.State()), repos.State(), Detached, user, address, env, 0)
    {
      ghost var db := repos.State();
      var signature, k := RegisterAndConfirm(Detached, user, address, env, 0);
      if signature.None? {
        AttemptRegisters(cfg, db, db, Detached, user, address, env, 0);
        return;
      }
      MarkedBoth(cfg, repos.State(), Detached, user, address, signature.value, env, k);
      var _ := repos.MarkRegistered(user, address, signature.value, env(k).reply);
      var _ := repos.UpdateRows({user}, MarkOnboarded(cfg.pda(address), signature.value), env(k + 1).reply);
      AttemptRegisters(cfg, db, repos.State(), Detached, user, address, env, 0);
    }

    /**
      Success is reported exactly when the account was seen, by the probe or by a poll after submitting;
      a signature exactly when a transaction was submitted.
     */
    method OnboardUserOnChain(user: Id, env: nat -> Moment) returns (answer: Answer<Onboarded>)
      modifies repos
      ensures repos.State() == Alone(cfg, old(repos.State()), FindPrimary(user), env, 0)
      ensures answer.Err? ==> repos.State() == old(repos.State())
      ensures answer.Ok? ==>
                if Sees(cfg, env(0).address, env(1))
                then MarksMade(cfg, old(repos.State()), repos.State(), Healing, user, env(0).address, "preexisting-onchain", env, 2)
                else Registered(cfg, old(repos.State()), repos.State(), Onboarding, user, env(0).address, env, 2)
      ensures answer.Ok? <==> && env(0).reply.Answered? && IsPrimaryAddress(old(repos.wallets), user, env(0).address)
                              && cfg.validAddress(env(0).address) && cfg.programValid
      ensures answer == Err(BadRequest)
         <==> env(0).reply.Answered?
              && !(IsPrimaryAddress(old(repos.wallets), user, env(0).address) && cfg.validAddress(env(0).address))
      ensures answer.Ok? ==>
                && (answer.value.success <==> Sees(cfg, env(0).address, env(1)) || Confirms(cfg, env(0).address, env, 2))
                && answer.value.signature == if !Sees(cfg, env(0).address, env(1)) && env(2).reply.Answered?
                                             then Some(env(2).signature) else None
    {
      ghost var db := repos.State();
      var address := env(0).address;
      if !env(0).reply.Answered? {
        AloneStep(cfg, db, FindPrimary(user), env, 0, Done(db));
        return Err(Internal);
      }
      if !IsPrimaryAddress(repos.wallets, user, address) || !cfg.validAddress(address) {
        AloneStep(cfg, db, FindPrimary(user), env, 0, Done(db));
        return Err(BadRequest);
      }
      if !cfg.programValid {
        AloneStep(cfg, db, FindPrimary(user), env, 0, Done(db));
        return Err(Internal);
      }
      AloneStep(cfg, db, FindPrimary(user), env, 0, Goto(db, Probe(user, address)));
      if Sees(cfg, address, env(1)) {
        AloneStep(cfg, db, Probe(user, address), env, 1, Goto(db, MarkUser(Healing, user, address, PREEXISTING)));
        RecordOnboarding(Healing, user, address, PREEXISTING, env, 2);
        OnboardingRecords(cfg, db, repos.State(), user, address, env);
        return Ok(Onboarded(true, None));
      }
      AloneStep(cfg, db, Probe(user, address), env, 1, Goto(db, Submit(Onboarding, user, address)));
      var signature, k := RegisterAndConfirm(Onboarding, user, address, env, 2);
      if signature.Some? {
        RecordOnboarding(Onboarding, user, address, signature.value, env, k);
      }
      OnboardingRecords(cfg, db, repos.State(), user, address, env);
      return Ok(Onboarded(signature.Some?, if env(2).reply.Answered? then Some(env(2).signature) else None));
    }

    /** Marks the user first and the wallet next, each best effort. */
    method RecordOnboarding(ghost flow: Flow, user: Id, address: string, signature: string, env: nat -> Moment, k: nat)
      requires flow == Onboarding || flow == Healing
      modifies repos
      ensures repos.State() == Alone(cfg, old(repos.State()), MarkUser(flow, user, address, signature), env, k)
    {
      MarkedBoth(cfg, repos.State(), flow, user, address, signature, env, k);
      var _ := repos.UpdateRows({user}, MarkOnboarded(cfg.pda(address), signature), env(k).reply);
      var _ := repos.MarkRegistered(user, address, signature, env(k + 1).reply);
    }

    /** A wallet linked by a user already on chain is registered too. */
    method RegisterLinked(user: Id, address: string, env: nat -> Moment, k: nat) returns (signature: Option<string>)
      modifies repos
      ensures repos.State() == Alone(cfg, old(repos.State()), LinkLookup(user, address), env, k)
      ensures signature == JoinedBy(cfg, old(repos.users), user, address, env, k)
    {
      ghost var db := repos.State();
      if !env(k).reply.Answered? || user !in repos.users || !repos.users[user].active || !repos.users[user].registered {
        AloneStep(cfg, db, LinkLookup(user, address), env, k, Done(db));
        return None;
      }
      AloneStep(cfg, db, LinkLookup(user, address), env, k, Goto(db, Submit(Linking, user, address)));
      var next;
      signature, next := RegisterAndConfirm(Linking, user, address, env, k + 1);
      if signature.Some? {
        MarkedWallet(cfg, db, Linking, user, address, signature.value, env, next);
        var _ := repos.MarkRegistered(user, address, signature.value, env(next).reply);
      }
    }

    /** Mirrors the address of a primary or first wallet, and registers it. */
    method FinishLink(user: Id, address: string, mirror: bool, env: nat -> Moment, k: nat) returns (signature: Option<string>)
      modifies repos
      ensures repos.State() == Alone(cfg, old(repos.State()), if mirror then LinkMirror(user, address) else LinkLookup(user, address), env, k)
      ensures signature == JoinedBy(cfg, old(repos.users), user, address, env, if mirror then k + 1 else k)
    {
      var at := k;
      if mirror {
        ghost var db := repos.State();
        var _ := repos.SetWalletAddressOf(user, address, env(k).reply);
        AloneStep(cfg, db, LinkMirror(user, address), env, k, Goto(repos.State(), LinkLookup(user, address)));
        at := k + 1;
      }
      signature := RegisterLinked(user, address, env, at);
    }

    /** Inserts the row, mirrors the address of a primary or first wallet, and registers it. */
    method InsertLinked(user: Id, address: string, primary: bool, ghost cleared: bool, first: bool, env: nat -> Moment, k: nat)
      returns (answer: Answer<Wallet>)
      modifies repos
      ensures repos.State() == Alone(cfg, old(repos.State()), LinkInsert(user, address, primary, cleared, first), env, k)
      ensures answer.Ok? <==> env(k).reply.Answered? && env(k).row !in old(repos.wallets)
                              && InsertViolation(old(repos.wallets), user, address, primary).None?
      ensures answer.Err? ==> answer.error == if env(k).reply.Answered? then Conflict else Internal
      ensures var lookup := k + if primary || first then 2 else 1;
              answer.Ok? ==> answer.value == NewWallet(user, address, primary, JoinedBy(cfg, old(repos.users), user, address, env, lookup))
    {
      ghost var t := LinkInsert(user, address, primary, cleared, first);
      ghost var db := repos.State();
      if env(k).row in repos.wallets {
        AloneStep(cfg, db, t, env, k, Done(db));
        return Err(if env(k).reply.Answered? then Conflict else Internal);
      }
      var row := repos.Insert(env(k).row, user, address, primary, env(k).reply);
      if row.None? {
        AloneStep(cfg, db, t, env, k, Done(repos.State()));
        return Err(if env(k).reply.Answered? then Conflict else Internal);
      }
      AloneStep(cfg, db, t, env, k, Goto(repos.State(), if primary || first then LinkMirror(user, address) else LinkLookup(user, address)));
      var signature := FinishLink(user, address, primary || first, env, k + 1);
      return Ok(row.value.(registered := signature.Some?, signature := signature));
    }

    /** The link of a user who has wallets and asks for a primary one: the old primary goes first. */
    method ClearAndInsert(user: Id, address: string, env: nat -> Moment) returns (answer: Answer<Wallet>)
      modifies repos
      ensures repos.State() == Alone(cfg, old(repos.State()), LinkClear(user, address), env, 1)
      ensures answer.Ok? <==> && env(1).reply.Answered? && env(2).reply.Answered?
                              && env(2).row !in old(repos.wallets) && !AddressLinked(old(repos.wallets), address)
      ensures answer.Err? ==> answer.error == if env(1).reply.Answered? && env(2).reply.Answered? then Conflict else Internal
      ensures answer.Ok? ==> answer.value == NewWallet(user, address, true, JoinedBy(cfg, old(repos.users), user, address, env, 4))
    {
      ghost var db := repos.State();
      var cleared := repos.ClearPrimary(user, env(1).reply);
      if !cleared {
        AloneStep(cfg, db, LinkClear(user, address), env, 1, Done(repos.State()));
        return Err(Internal);
      }
      AloneStep(cfg, db, LinkClear(user, address), env, 1, Goto(repos.State(), LinkInsert(user, address, true, true, false)));
      WalletFlows.AddressesKept(db.wallets, user, address);
      answer := InsertLinked(user, address, true, true, false, env, 2);
    }

    /** The link of a well-formed address. */
    method LinkParsed(user: Id, address: string, primary: bool, env: nat -> Moment) returns (answer: Answer<Wallet>)
      modifies repos
      ensures repos.State() == Alone(cfg, old(repos.State()), LinkCheck(user, address, primary), env, 0)
      ensures answer.Ok? <==> Accepted(old(repos.State()), user, address, primary, env)
      ensures answer.Err? ==> answer.error == if Reached(old(repos.State()), user, primary, env) then Conflict else Internal
      ensures answer.Ok? ==>
                answer.value == NewWallet(user, address, primary,
                                          JoinedBy(cfg, old(repos.users), user, address, env, LookupAt(old(repos.wallets), user, primary)))
    {
      ghost var t := LinkCheck(user, address, primary);
      ghost var db := repos.State();
      if !env(0).reply.Answered? {
        AloneStep(cfg, db, t, env, 0, Done(db));
        return Err(Internal);
      }
      var existing := HasAnyWallet(repos.wallets, user);
      if existing && primary {
        AloneStep(cfg, db, t, env, 0, Goto(db, LinkClear(user, address)));
        answer := ClearAndInsert(user, address, env);
      } else {
        AloneStep(cfg, db, t, env, 0, Goto(db, LinkInsert(user, address, primary, false, !existing)));
        answer := InsertLinked(user, address, primary, false, !existing, env, 1);
      }
    }

    /**
      A link succeeds exactly when the address parses, the calls up to the insert are answered and the
      address is not linked yet. It then leaves both tables as `LinkEffect` says, and answers the wallet
      as registered exactly when the user is on chain and a poll saw the account.
     */
    method LinkWallet(user: Id, address: string, primary: bool, env: nat -> Moment) returns (answer: Answer<Wallet>)
      modifies repos
      ensures repos.State() == if cfg.validAddress(address)
                               then Alone(cfg, old(repos.State()), LinkCheck(user, address, primary), env, 0)
                               else old(repos.State())
      ensures answer == Err(BadRequest) <==> !cfg.validAddress(address)
      ensures answer.Ok? <==> cfg.validAddress(address) && Accepted(old(repos.State()), user, address, primary, env)
      ensures answer == Err(Conflict) <==> && cfg.validAddress(address) && Reached(old(repos.State()), user, primary, env)
                                           && !Accepted(old(repos.State()), user, address, primary, env)
      ensures answer.Ok? ==>
                && UsersLinked(old(repos.State()), repos.users, user, address, primary, env)
                && WalletsLinked(cfg, old(repos.State()), repos.wallets, user, address, primary, env)
                && answer.value == NewWallet(user, address, primary,
                                             JoinedBy(cfg, old(repos.users), user, address, env, LookupAt(old(repos.wallets), user, primary)))
      ensures cfg.validAddress(address) && WalletFlows.Answers(env, old(repos.State())) ==>
                if AddressLinked(old(repos.wallets), address) then answer == Err(Conflict) else answer.Ok?
    {
      if !cfg.validAddress(address) {
        return Err(BadRequest);
      }
      ghost var db := repos.State();
      answer := LinkParsed(user, address, primary, env);
      if answer.Ok? {
        LinkEffect(cfg, db, repos.State(), user, address, primary, env);
      }
    }

    /**
      Activates the account; a user without any wallet gets a custodial one, and its address is
      returned for the detached registration.
     */
    method VerifyEmailRow(email: string, env: nat -> Moment) returns (spawned: Option<string>)
      modifies repos
      ensures repos.State() == Alone(cfg, old(repos.State()), VerifyRow(email), env, 0)
      ensures Verified(old(repos.State()), repos.State(), email, env)
      ensures spawned.Some? ==> IsPrimaryAddress(repos.wallets, env(0).row, spawned.value)
      ensures spawned.Some? <==> NeedsWallet(old(repos.State()), email, env) && Provisions(old(repos.State()), env)
    {
      ghost var db := repos.State();
      var ids := Holders(repos.users, email);
      var hadMirror := env(0).row in ids && repos.users[env(0).row].walletAddress.Some?;
      var ok := repos.UpdateRows(ids, VerifyEmail, env(0).reply);
      if !ok || env(0).row !in ids {
        AloneStep(cfg, db, VerifyRow(email), env, 0, Done(repos.State()));
        VerifyEffect(cfg, db, repos.State(), email, env);
        return None;
      }
      var user := env(0).row;
      AloneStep(cfg, db, VerifyRow(email), env, 0, Goto(repos.State(), CheckWallets(user, hadMirror)));
      ghost var db' := repos.State();
      var hasWallet := if env(1).reply.Answered? then HasAnyWallet(repos.wallets, user) else true;
      if hadMirror || hasWallet {
        AloneStep(cfg, db', CheckWallets(user, hadMirror), env, 1, Done(db'));
        VerifyEffect(cfg, db, repos.State(), email, env);
        return None;
      }
      AloneStep(cfg, db', CheckWallets(user, hadMirror), env, 1, Goto(db', Provision(user)));
      CustodialFits(db, email, env);
      spawned := ProvisionCustodialWallet(user, env, 2);
      VerifyEffect(cfg, db, repos.State(), email, env);
    }

    method ProvisionCustodialWallet(user: Id, env: nat -> Moment, k: nat) returns (spawned: Option<string>)
      modifies repos
      ensures repos.State() == Alone(cfg, old(repos.State()), Provision(user), env, k)
      ensures var out := Effect(cfg, old(repos.State()), Provision(user), env(k));
              out.spawned == if spawned.Some? then Some(Submit(Detached, user, spawned.value)) else None
      ensures spawned.Some? ==> IsPrimaryAddress(repos.wallets, user, spawned.value)
      ensures spawned.Some? <==> env(k).reply.Answered? && env(k).row !in old(repos.wallets)
                                 && WithCustodialWallet(old(repos.State()), env(k).row, user, env(k).address).Some?
    {
      if env(k).row in repos.wallets {
        return None;
      }
      var persisted := repos.PersistCustodialWallet(env(k).row, user, env(k).address, env(k).reply);
      if !persisted {
        return None;
      }
      assert env(k).row in repos.wallets;
      return Some(env(k).address);
    }
  }
}
