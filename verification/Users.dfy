/** One row of `users`: the updates the repository makes to it, and the BEFORE UPDATE status trigger. */
module Users {
  import opened Prelude

  datatype Status = Pending | Submitted | Confirmed | Failed

  datatype Token = Token(text: string, expires: Time)

  datatype User = User(
    username: string,
    email: string,
    hash: string,
    active: bool,
    emailVerified: bool,
    token: Option<Token>,
    walletAddress: Option<string>,
    registered: bool,
    pda: Option<string>,
    signature: Option<string>,
    status: Status)

  /** A row as `create` inserts it. */
  function Fresh(username: string, email: string, hash: string, token: Option<Token>): User {
    User(username, email, hash, false, false, token, None, false, None, None, Pending)
  }

  /** The UPDATE statements of the repository, as changes to one matching row. */
  datatype Update =
    | VerifyEmail
    | SetWalletAddress(address: string)
    | SetVerificationToken(token: Token)
    | UpdatePassword(hash: string)
    | MarkOnboarded(pda: string, signature: string)

  function NewRow(u: User, up: Update): User {
    match up
    case VerifyEmail => u.(active := true, emailVerified := true)
    case SetWalletAddress(address) => u.(walletAddress := Some(address))
    case SetVerificationToken(token) => u.(token := Some(token))
    case UpdatePassword(hash) => u.(hash := hash)
    case MarkOnboarded(pda, signature) =>
      u.(registered := true, pda := Some(pda), signature := Some(signature), status := Confirmed)
  }

  /** The trigger as fixed: only a row that is still pending moves on when its signature first appears. */
  function Trigger(old_: User, new_: User): User {
    if new_.signature.Some? && old_.signature.None? && new_.status == Pending
    then new_.(status := Submitted) else new_
  }

  /** The trigger as first written. */
  function OriginalTrigger(old_: User, new_: User): User {
    if new_.signature.Some? && old_.signature.None? then new_.(status := Submitted) else new_
  }

  /** The trigger function as it runs. */
  method UpdateStatusOnHash(old_: User, new_: User) returns (row: User)
    ensures row == Trigger(old_, new_)
    ensures new_.status != Pending ==> row == new_
    ensures row == new_.(status := row.status)
    ensures row.status != new_.status <==> new_.status == Pending && new_.signature.Some? && old_.signature.None?
    ensures row.status != new_.status ==> row.status == Submitted
  {
    row := new_;
    if row.signature.Some? && old_.signature.None? && row.status == Pending {
      row := row.(status := Submitted);
    }
  }

  function Updated(u: User, up: Update): User {
    Trigger(u, NewRow(u, up))
  }

  function RunUpdates(u: User, ups: seq<Update>): User
    decreases |ups|
  {
    if ups == [] then u else RunUpdates(Updated(u, ups[0]), ups[1..])
  }

  function RunOriginal(u: User, ups: seq<Update>): User
    decreases |ups|
  {
    if ups == [] then u
    else RunOriginal(OriginalTrigger(u, NewRow(u, ups[0])), ups[1..])
  }

  /** A registered row is confirmed and carries its signature; before that it is pending without one. */
  predicate StatusOk(u: User) {
    && (u.registered ==> u.status == Confirmed && u.signature.Some? && u.pda.Some?)
    && (!u.registered ==> u.status == Pending && u.signature.None?)
  }

  lemma UpdateKeepsStatus(u: User, up: Update)
    requires StatusOk(u)
    ensures StatusOk(Updated(u, up))
    ensures u.status == Confirmed ==> Updated(u, up).status == Confirmed
    ensures Updated(u, up).registered <==> u.registered || up.MarkOnboarded?
  {
  }

  /** Under the fixed trigger: registered means confirmed, at every point of every run, and stays so. */
  lemma {:induction false} RegisteredIsConfirmed(u: User, ups: seq<Update>)
    requires StatusOk(u)
    ensures StatusOk(RunUpdates(u, ups))
    ensures u.status == Confirmed ==> RunUpdates(u, ups).status == Confirmed
    ensures RunUpdates(u, ups).registered <==> u.registered || exists k :: 0 <= k < |ups| && ups[k].MarkOnboarded?
    decreases |ups|
  {
    if ups != [] {
      UpdateKeepsStatus(u, ups[0]);
      RegisteredIsConfirmed(Updated(u, ups[0]), ups[1..]);
      assert forall k :: 1 <= k < |ups| ==> ups[k] == ups[1..][k - 1];
    }
  }

  function Onboardings(ups: seq<Update>): nat {
    if ups == [] then 0 else (if ups[0].MarkOnboarded? then 1 else 0) + Onboardings(ups[1..])
  }

  /** Where the original trigger leaves a row that has been onboarded `n` times. */
  predicate OriginalStatus(u: User, n: nat) {
    && (u.registered <==> n >= 1)
    && (u.signature.Some? <==> n >= 1)
    && u.status == if n == 0 then Pending else if n == 1 then Submitted else Confirmed
  }

  lemma {:induction false} OriginalRun(u: User, ups: seq<Update>, n: nat)
    requires OriginalStatus(u, n)
    ensures OriginalStatus(RunOriginal(u, ups), n + Onboardings(ups))
    decreases |ups|
  {
    if ups != [] {
      var u' := OriginalTrigger(u, NewRow(u, ups[0]));
      var n' := if ups[0].MarkOnboarded? then n + 1 else n;
      assert OriginalStatus(u', n');
      OriginalRun(u', ups[1..], n');
    }
  }

  /** The original trigger mislabels a fresh row exactly when it is onboarded exactly once. */
  lemma OriginalTriggerMislabels(username: string, email: string, hash: string, token: Option<Token>, ups: seq<Update>)
    ensures var u := RunOriginal(Fresh(username, email, hash, token), ups);
            (u.registered && u.status != Confirmed) <==> Onboardings(ups) == 1
  {
    OriginalRun(Fresh(username, email, hash, token), ups, 0);
  }
}
