/** Re-sending the verification email of one user: the cooldown cell and the token columns. */
module Resend {
  import opened Prelude
  import opened Redis
  import opened Users
  import opened Database

  const COOLDOWN: Time := 60 * SECOND
  const TOKEN_LIFE: Time := 24 * 3600 * SECOND

  /** The awaited calls of one request, in program order. */
  datatype Calls = Calls(state: Await, exists_: Await, setToken: Await, publish: Await, arm: Await)
  {
    predicate Ordered() {
      state.at <= exists_.at <= setToken.at <= publish.at <= arm.at
    }

    /** The cache answers; the database and the event bus may fail. */
    predicate CacheWorks() {
      exists_.reply.Answered? && arm.reply.Answered?
    }
  }

  /** The user's row and the user's cooldown cell. */
  datatype Subject = Subject(row: User, cooldown: Cell)

  /** A verification email handed to the event bus: when, with which token, and when its row was read. */
  datatype Email = Email(at: Time, token: Token, readAt: Time)

  /** `find_verification_state_by_email` reports an expired token as none. */
  function StoredToken(row: User, now: Time): Option<Token> {
    if row.token.Some? && row.token.value.expires > now then row.token else None
  }

  /** `resend_verification` for this user; `fresh_` is the token it would mint. */
  function Resent(s: Subject, fresh_: string, c: Calls): (Subject, Option<Email>) {
    if !c.state.reply.Answered? || s.row.emailVerified || ExistsReply(s.cooldown, c.exists_) == Some(true)
    then (s, None)
    else
      var stored := StoredToken(s.row, c.state.at);
      var minted := Token(fresh_, c.setToken.at + TOKEN_LIFE);
      var row := if stored.None? && c.setToken.reply.Applied() then Updated(s.row, SetVerificationToken(minted)) else s.row;
      if stored.None? && !c.setToken.reply.Answered? then (s.(row := row), None)
      else
        var token := if stored.Some? then stored.value else minted;
        (Subject(row, AfterSet(s.cooldown, Flag(true), COOLDOWN, c.arm)), Some(Email(c.publish.at, token, c.state.at)))
  }

  /** The cooldown is in force. */
  predicate CoolingDown(s: Subject, c: Calls) {
    c.exists_.reply.Answered? && Live(s.cooldown, c.exists_.at)
  }

  /**
    What one request does. It sends exactly when the row was read and is unverified, no cooldown is in
    force, and a token is at hand: the stored one while it has not expired, else a fresh one that expires
    after 24 h and is now stored. A send arms the cooldown for 60 s; nothing else changes.
   */
  predicate Sends(s: Subject, s': Subject, fresh_: string, c: Calls, email: Option<Email>) {
    var asked := c.state.reply.Answered? && !s.row.emailVerified && !CoolingDown(s, c);
    var reused := s.row.token.Some? && s.row.token.value.expires > c.state.at;
    var token := if reused then s.row.token.value else Token(fresh_, c.setToken.at + 24 * 3600 * SECOND);
    && email == (if asked && (reused || c.setToken.reply.Answered?) then Some(Email(c.publish.at, token, c.state.at)) else None)
    && s'.row == (if asked && !reused && c.setToken.reply.Applied() then s.row.(token := Some(token)) else s.row)
    && s'.cooldown == if email.Some? && c.arm.reply.Applied() then Some(Entry(Flag(true), Some(c.arm.at + 60 * SECOND))) else s.cooldown
  }

  lemma ResentSends(s: Subject, fresh_: string, c: Calls)
    ensures var (s', email) := Resent(s, fresh_, c); Sends(s, s', fresh_, c, email)
  {
  }

  /** A request for this user, or an update of the row by another flow, which leaves the token alone. */
  datatype Event =
    | Ask(fresh_: string, calls: Calls)
    | RowUpdate(update: Update)

  function Next(s: Subject, e: Event): Subject {
    match e
    case Ask(fresh_, calls) => Resent(s, fresh_, calls).0
    case RowUpdate(update) => if update.SetVerificationToken? then s else s.(row := Updated(s.row, update))
  }

  function Emails(s: Subject, events: seq<Event>): seq<Email>
    decreases |events|
  {
    if events == [] then []
    else
      var email := if events[0].Ask? then Resent(s, events[0].fresh_, events[0].calls).1 else None;
      (if email.Some? then [email.value] else []) + Emails(Next(s, events[0]), events[1..])
  }

  /** Non-overlapping requests on a working cache, the first not before `now`. */
  ghost predicate Orderly(events: seq<Event>, now: Time)
    decreases |events|
  {
    events != [] ==>
      if events[0].Ask? then
        && events[0].calls.Ordered() && events[0].calls.CacheWorks() && now <= events[0].calls.state.at
        && Orderly(events[1..], events[0].calls.arm.at)
      else Orderly(events[1..], now)
  }

  // ---- Spacing and tokens -----------------------------------------------------------------------------

  ghost predicate MinuteApart(past: seq<Email>) {
    forall i :: 0 <= i < |past| - 1 ==> past[i + 1].at >= past[i].at + 60 * SECOND
  }

  /** Every later email repeats a token unless its row was read after that token's expiry. */
  ghost predicate TokensReused(past: seq<Email>) {
    forall i, j :: 0 <= i < j < |past| ==> past[j].token == past[i].token || past[i].token.expires <= past[j].readAt
  }

  ghost predicate ReadBy(past: seq<Email>, now: Time) {
    forall i :: 0 <= i < |past| ==> past[i].readAt <= now
  }

  ghost predicate Unexpired(past: seq<Email>) {
    forall i :: 0 <= i < |past| ==> past[i].token.expires > past[i].readAt
  }

  /** The cooldown outlives the last email by a minute, and its token is stored or expired. */
  ghost predicate Known(s: Subject, past: seq<Email>, now: Time) {
    past != [] ==>
      var last := past[|past| - 1];
      && s.cooldown.Some? && s.cooldown.value.expiry.Some? && s.cooldown.value.expiry.value >= last.at + COOLDOWN
      && (s.row.token == Some(last.token) || last.token.expires <= now)
  }

  lemma AskKnown(s: Subject, e: Event, past: seq<Email>, now: Time)
    requires e.Ask? && e.calls.Ordered() && e.calls.CacheWorks() && now <= e.calls.state.at
    requires Known(s, past, now)
    ensures var (s', email) := Resent(s, e.fresh_, e.calls);
            if email.None? then Known(s', past, e.calls.arm.at)
            else
              && Known(s', past + [email.value], e.calls.arm.at)
              && email.value.token.expires > email.value.readAt
              && (past != [] ==>
                   && email.value.at >= past[|past| - 1].at + COOLDOWN
                   && (email.value.token == past[|past| - 1].token
                       || past[|past| - 1].token.expires <= email.value.readAt))
  {
  }

  lemma SendKeeps(past: seq<Email>, email: Email, now: Time)
    requires MinuteApart(past) && TokensReused(past) && Unexpired(past) && ReadBy(past, now) && now <= email.readAt
    requires email.token.expires > email.readAt
    requires past != [] ==>
               && email.at >= past[|past| - 1].at + COOLDOWN
               && (email.token == past[|past| - 1].token || past[|past| - 1].token.expires <= email.readAt)
    ensures var all := past + [email]; MinuteApart(all) && TokensReused(all) && Unexpired(all)
  {
  }

  /** What is known after the emails so far: their spacing and tokens, and what the user's row and cooldown still hold of the last. */
  ghost predicate Tracked(s: Subject, past: seq<Email>, now: Time) {
    Known(s, past, now) && MinuteApart(past) && TokensReused(past) && Unexpired(past) && ReadBy(past, now)
  }

  function AfterEvents(s: Subject, events: seq<Event>): Subject
    decreases |events|
  {
    if events == [] then s else AfterEvents(Next(s, events[0]), events[1..])
  }

  /** When the last request of a run ends. */
  function EndOf(events: seq<Event>, now: Time): Time
    decreases |events|
  {
    if events == [] then now else EndOf(events[1..], if events[0].Ask? then events[0].calls.arm.at else now)
  }

  /** `past` followed by the emails of a run. */
  ghost function Record(past: seq<Email>, s: Subject, events: seq<Event>): seq<Email>
    decreases |events|
  {
    if events == [] then past else Record(Sent(past, s, events[0]), Next(s, events[0]), events[1..])
  }

  ghost function Sent(past: seq<Email>, s: Subject, e: Event): seq<Email> {
    var email := if e.Ask? then Resent(s, e.fresh_, e.calls).1 else None;
    if email.Some? then past + [email.value] else past
  }

  lemma {:induction false} RecordAppends(past: seq<Email>, s: Subject, events: seq<Event>)
    ensures Record(past, s, events) == past + Emails(s, events)
    decreases |events|
  {
    if events != [] {
      RecordAppends(Sent(past, s, events[0]), Next(s, events[0]), events[1..]);
    }
  }

  lemma StepTracked(s: Subject, past: seq<Email>, e: Event, now: Time)
    requires Tracked(s, past, now)
    requires e.Ask? ==> e.calls.Ordered() && e.calls.CacheWorks() && now <= e.calls.state.at
    ensures Tracked(Next(s, e), Sent(past, s, e), if e.Ask? then e.calls.arm.at else now)
  {
    if e.Ask? {
      AskKnown(s, e, past, now);
      var email := Resent(s, e.fresh_, e.calls).1;
      if email.Some? {
        SendKeeps(past, email.value, now);
      }
    }
  }

  lemma {:induction false} RunTracked(s: Subject, past: seq<Email>, events: seq<Event>, now: Time)
    requires Tracked(s, past, now) && Orderly(events, now)
    ensures Tracked(AfterEvents(s, events), Record(past, s, events), EndOf(events, now))
    decreases |events|
  {
    if events != [] {
      var e := events[0];
      StepTracked(s, past, e, now);
      RunTracked(Next(s, e), Sent(past, s, e), events[1..], if e.Ask? then e.calls.arm.at else now);
    }
  }

  /**
    With non-overlapping requests and a working cache, the emails of one user are at least 60 s apart,
    each carries a token unexpired when its row was read, and the token stays the same until it expires.
   */
  lemma ResendThrottle(s: Subject, events: seq<Event>)
    requires Orderly(events, 0)
    ensures MinuteApart(Emails(s, events)) && TokensReused(Emails(s, events)) && Unexpired(Emails(s, events))
  {
    RunTracked(s, [], events, 0);
    RecordIsEmails(s, events);
  }

  lemma RecordIsEmails(s: Subject, events: seq<Event>)
    ensures Record([], s, events) == Emails(s, events)
  {
    RecordAppends([], s, events);
    assert [] + Emails(s, events) == Emails(s, events);
  }

  // ---- The token leads back to the user -----------------------------------------------------------------

  /** What `find_email_by_token` may answer. */
  predicate MayResolve(us: UserTable, token: string, now: Time, email: Option<string>) {
    match email
    case Some(e) => exists u :: u in us && us[u].email == e && HoldsToken(us[u], token, now)
    case None => forall u :: u in us ==> !HoldsToken(us[u], token, now)
  }

  predicate HoldsToken(row: User, token: string, now: Time) {
    row.token.Some? && row.token.value.text == token && row.token.value.expires > now
  }

  /** Minted tokens are distinct. */
  ghost predicate UniqueTokens(us: UserTable) {
    forall u, v :: u in us && v in us && us[u].token.Some? && us[v].token.Some? ==>
      us[u].token.value.text == us[v].token.value.text ==> u == v
  }

  /** After any orderly run, every token ever emailed is still in the user's row, unless it has expired. */
  lemma EmailedTokenKept(s: Subject, events: seq<Event>, i: nat, now: Time)
    requires Orderly(events, 0) && i < |Emails(s, events)| && EndOf(events, 0) <= now < Emails(s, events)[i].token.expires
    ensures AfterEvents(s, events).row.token == Some(Emails(s, events)[i].token)
  {
    RunTracked(s, [], events, 0);
    RecordIsEmails(s, events);
    var all := Emails(s, events);
    assert all[|all| - 1].readAt <= EndOf(events, 0);
  }

  lemma {:induction false} EventsKeepEmail(s: Subject, events: seq<Event>)
    ensures AfterEvents(s, events).row.email == s.row.email
    decreases |events|
  {
    if events != [] {
      EventsKeepEmail(Next(s, events[0]), events[1..]);
    }
  }

  /**
    Every token emailed to a user, until it expires and whatever orderly requests and other updates of
    the row come after it, resolves to that user's stored email.
   */
  lemma EmailedTokenResolves(s: Subject, events: seq<Event>, i: nat, us: UserTable, u: Id, now: Time, email: Option<string>)
    requires Orderly(events, 0) && i < |Emails(s, events)| && EndOf(events, 0) <= now < Emails(s, events)[i].token.expires
    requires u in us && us[u] == AfterEvents(s, events).row && UniqueTokens(us)
    requires MayResolve(us, Emails(s, events)[i].token.text, now, email)
    ensures email == Some(s.row.email)
  {
    EmailedTokenKept(s, events, i, now);
    EventsKeepEmail(s, events);
    assert HoldsToken(us[u], Emails(s, events)[i].token.text, now);
  }
}
