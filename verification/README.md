# A verified model of the GridTokenX identity service

The identity service keeps accounts, wallets and sessions for GridTokenX. Four parts of it are state
machines over shared state whose steps can fail, be retried, or be cut off half way. This project
models those parts in Dafny and proves what they keep over whole runs:

1. **On-chain registration** (`Protocol`, `Registration`, `Reachability`, `Attempts`, `Onboarding`,
   `Blockchain`). Four flows submit a Registry transaction, get an optimistic signature, poll for the account, and only then mark the
   database. The world is the `users` and `user_wallets` tables, a growing set of accounts on chain, and
   any number of tasks; each step is one awaited call of one task, a dropped task, a new request or an
   account landing. Every call is answered, refused, or takes effect without its answer arriving.
2. **Transactional outbox** (`Events`, `Outbox`, `OutboxProgress`, `OutboxConcurrency`, `OutboxRefinement`,
   `OutboxDelivery`, `EventBus`, `Publishing`). Rows are fetched oldest first in hundreds, published, and
   marked, with ten attempts each.
3. **Machines on expiring keys** (`Redis`, `Keys`, `Lockout`, `LockoutConcurrent`, `Login`, `RateLimit`,
   `RateLimitConcurrent`, `LimitConfig`, `CacheAside`, `PasswordReset`, `ForgottenPassword`, `PasswordRaces`,
   `TokenRaces`, `Resend`, `ResendConcurrent`). A key is a cell with a value and an optional
   expiry; every call carries the time at which it takes effect. Bounds over time windows are proved on
   the small machine of one key. For the lockout and the sequential rate limiter, lemmas about the key
   constructors carry them to the shared store; the other handlers are proved to touch their own keys only.
4. **Accounts and wallets** (`Users`, `Database`, `WalletFlows`, `WalletLinking`, `EmailVerification`). The
   primary flag, the unique address, the column `users.wallet_address`, and the status trigger that runs on every update of `users`.

The classes `CacheService`, `Repositories`, `OutboxRepository`, `OutboxWorker`, `EventBus` and
`AuthService` are the components as they run, statement by statement; their methods are proved to do what
the specification functions of the other modules say. What those functions mean is stated apart from them: each
request handler carries its whole effect on rows and cells, with the durations and limits written out, and a
machine that steps at every await is tied to the sequential one by a lemma that runs the latter inside it.
`dafny verify dfyconfig.toml` checks everything.

Conventions: time is in milliseconds; a reply is `Answered`, `Refused`, or `Unacknowledged` (applied, but
the caller sees an error); `env(k)` is what the k-th call of a task meets; a query with `LIMIT 1` is given
the row it picks, constrained by what the query may return.

## Where the code and its descriptions differ

The model follows the code.

- `set_primary` commits its "clear all" even when the wallet is not the user's; `WalletFlows.ChoosingKeepsPrimary`
  says exactly when a primary survives.
- The worker's "quarantine" of an undecodable payload is one counted failure, like any other.
- A reset drops the cached profile of the lower-cased email, not of the stored spelling:
  `PasswordReset.EmailProfileDropped` and `PasswordReset.MixedCaseKeepsOldHash`.
- A login that has read the row before a reset can put the old hash back in the cache after it, every call being
  answered: `PasswordRaces.PoisonedCache`. `PasswordRaces.OldHashIffHeld` says exactly when an old hash can still be
  checked.
- Two overlapping resets with one token both change the password, every call being answered:
  `TokenRaces.TwoResetsOneToken`. `TokenRaces.GoneTokenWorksIff` says exactly when a used token still works.
- A password update that takes effect unanswered reports failure, keeps its token and drops no cached profile:
  `PasswordReset.UnansweredUpdateKeepsToken`. `PasswordReset.TokenConsumedIff` and `PasswordReset.ResetBlanks`
  say exactly when a reset uses its token up and when a cached profile survives it.
- `users.wallet_address` is UNIQUE and survives the unlinking of a wallet, so the mirror of the next owner
  of that address is refused without any failed call: `WalletFlows.StaleMirrorBlocksNextOwner`.
- "Delivered is final" fails with two workers (`OutboxConcurrency.SettledFinalIffOneWorker`), and an event
  whose data is a JSON null loses it in the outbox (`Events.EventRoundTrip`).
- A rate-limit window opened by an INCR that goes unanswered, or whose SET does not take effect, never closes:
  `RateLimit.StuckIffTtlLost`, `RateLimit.StuckIffTtlLostInRun`, `RateLimit.StuckForGood`. The first of these is the
  one rejection that moves the end of a window: `RateLimit.RejectionKeepsWindow`.
- The request budget is described as exceeding the registration worst case; it exceeds the retries but not the
  retries plus the poll: `Blockchain.OverrunIff`, `Blockchain.RetryAndPollOverrun`.

## Model

| member | source | states |
|---|---|---|
| `Registration.FlagsNeverAheadOfChain` | crates/iam-logic/src/auth_service.rs:477-593 | In every interleaving of any number of the flows, with any call failing, any task dropped at any await and accounts landing at any time, a wallet flagged registered has its PDA on chain, and a user flagged registered stores a PDA that is on chain, is confirmed and carries a signature |
| `Registration.PrimaryLossHasACause` | crates/iam-logic/src/auth_service.rs:732-853 | In every interleaving each user has at most one primary and each address is linked once; a user who had a primary and has none was hit, since they last had one, by `set_primary` on a wallet they do not own or by a primary link that stopped between the clear and the insert, or such a link is under way |
| `Registration.EffectSafe` | crates/iam-logic/src/auth_service.rs:754-999 | Each single call of each flow keeps flags behind the chain, table constraints, and the rule that a task about to mark has seen the account |
| `Registration.EffectPrimary` | crates/iam-persistence/src/repository/wallet.rs:84-180 | The only calls after which a user's primary is gone are `set_primary` on a foreign wallet and the clear of a primary link |
| `Registration.ClearedLinkEnds` | crates/iam-logic/src/auth_service.rs:770-775 | A link that has cleared the old primary either installs a new one or leaves the table unchanged |
| `Reachability.OnboardingReached` | crates/iam-logic/src/auth_service.rs:855-908 | From every world, for every user with a primary wallet, there is a run in which the account lands and one request flags user and wallet |
| `Reachability.DroppedLinkLosesPrimary` | crates/iam-logic/src/auth_service.rs:770-775 | From every world in which a user has a primary there is a run in which a link dropped between clear and insert takes it away |
| `Reachability.ForeignChoiceLosesPrimary` | crates/iam-persistence/src/repository/wallet.rs:84-108 | And one in which `set_primary` on a wallet of someone else does |
| `Protocol.EffectDescends` | crates/iam-logic/src/auth_service.rs:573-593 | Every call strictly lowers a rank, so every flow ends, polls included; only a finished task spawns another |
| `Protocol.AloneIsARun` | crates/iam-logic/src/auth_service.rs:754-999 | What a task does run alone is a run of the interleaved world that leaves every other task where it was |
| `Onboarding.Heals` | crates/iam-logic/src/auth_service.rs:894-908 | From any state, with the primary wallet's PDA on chain, one onboarding call whose reads and writes succeed submits nothing and sets the user flag, PDA, confirmed status and wallet flag, with `preexisting-onchain` as the signature of both |
| `Onboarding.HealingIsIdempotent` | crates/iam-logic/src/auth_service.rs:894-908 | Repeating the healing call changes nothing in the database |
| `Onboarding.SubmitsIffUnseen` | crates/iam-logic/src/auth_service.rs:855-929 | An onboarding call that finds a primary wallet submits one transaction if the probe does not see the account, and none if it does |
| `Onboarding.OnboardingRecords` | crates/iam-logic/src/auth_service.rs:855-999 | What an onboarding call leaves in both tables however its calls end: the marks of an account found on chain if the probe sees it; otherwise those of the transaction submitted, with its signature, if and only if a poll sees the account; each mark taking effect on its own; and no change when no primary wallet is found |
| `Attempts.MarkedBoth` | crates/iam-logic/src/auth_service.rs:942-970 | After a confirmation both marks are attempted in the order of the flow, each taking effect or not on its own |
| `Attempts.AttemptRegisters` | crates/iam-logic/src/auth_service.rs:477-593 | For every flow and however its calls end: the rows of the user and of the wallet are marked, with the signature the submission answered, if and only if that submission was answered and one of the twenty polls after it was answered that the account is there; nothing else changes |
| `Blockchain.RegisterUserOnChain` | crates/iam-logic/src/blockchain_provider.rs:31-79 | For every retry limit m the loop ends, submits at most m + 1 times, returns the signature of the first attempt that answers one within 15 s or an error when none does, and takes at most 15(m+1) + 2^(m+1) - 2 seconds |
| `Blockchain.ConfirmRegistered` | crates/iam-logic/src/auth_service.rs:573-593 | True exactly when the program id parses and one of twenty polls sees the account; it stops at the first such poll, and sleeps 750 ms after each miss, 15 s at most |
| `Blockchain.ElapsedBound` | crates/iam-logic/src/blockchain_provider.rs:37-66 | The time of n attempts with doubling, wrapping backoff is at most 15n + 2^n - 2 seconds |
| `Blockchain.ElapsedAdds` | crates/iam-logic/src/blockchain_provider.rs:37-66 | Each further attempt adds 2^n seconds of waiting and the time it takes, cut off at 15 s |
| `Blockchain.ElapsedReached` | crates/iam-logic/src/blockchain_provider.rs:37-66 | The bound is reached for every n up to 64, where the backoff first wraps |
| `Blockchain.RetryWithinBudget` | crates/iam-core/src/config.rs:152-158 | As configured the retry loop takes at most 32 s, below the 40 s budget |
| `Blockchain.OverrunIff` | crates/iam-core/src/config.rs:152-158 | Retries and poll together can exceed the budget if and only if there was a retry and at least eleven polls missed |
| `Blockchain.RetryAndPollOverrun` | crates/iam-core/src/config.rs:152-158 | A slow second attempt followed by a full poll exceeds the budget |
| `OutboxProgress.NoStarvation` | crates/iam-persistence/src/outbox_worker.rs:54-104 | With one worker whose fetches and marks succeed, a row is PROCESSED or FAILED within as many ticks as it and all older pending rows have attempts left, whatever arrives meanwhile and whatever Kafka does |
| `OutboxProgress.NoStarvationByRank` | crates/iam-persistence/src/outbox_worker.rs:54-104 | A row with m older pending rows is settled within 10 (m / 100 + 1) ticks |
| `OutboxProgress.FetchIsOldest` | crates/iam-persistence/src/repository/outbox.rs:53-70 | The batch is exactly the pending rows with fewer than n older pending rows |
| `OutboxProgress.TickRow` | crates/iam-persistence/src/outbox_worker.rs:54-104 | One tick advances every fetched row by one delivery or one counted attempt and leaves every other row alone |
| `OutboxProgress.TenTicksClearAHundred` | crates/iam-persistence/src/repository/outbox.rs:53-97 | Ten ticks settle the hundred oldest pending rows |
| `OutboxProgress.SettledStays` | crates/iam-persistence/src/repository/outbox.rs:53-97 | Under the single worker a settled row never changes again |
| `OutboxConcurrency.DeliverySafety` | crates/iam-persistence/src/outbox_worker.rs:65-101 | With W workers cancelled at any await, at every point of every run: PROCESSED rows were acknowledged, PENDING rows have fewer than 10 attempts, FAILED rows at least 10, no row exceeds 9 + W, and no row is lost or altered later |
| `OutboxConcurrency.AttemptBoundReached` | crates/iam-persistence/src/repository/outbox.rs:82-97 | For every W and every event there is a run in which the row enqueued for it reaches 9 + W attempts |
| `OutboxConcurrency.SettledFinalIffOneWorker` | crates/iam-persistence/src/repository/outbox.rs:72-97 | PROCESSED and FAILED are final in every run of W workers exactly when W is one |
| `OutboxConcurrency.OneWorkerSettles` | crates/iam-persistence/src/repository/outbox.rs:72-97 | With one worker a settled row is unchanged by every later run |
| `OutboxConcurrency.StepKeepsInv` | crates/iam-persistence/src/outbox_worker.rs:65-101 | Every step keeps the invariant that attempts plus the workers holding a row stay within 9 + W |
| `OutboxRefinement.TickIsARun` | crates/iam-persistence/src/outbox_worker.rs:54-104 | A tick of the one worker, whatever arrives and however its calls end, is a run of the interleaved system that leaves the same table, with every acknowledged row among the events Kafka has taken |
| `OutboxRefinement.LoopIsSafe` | crates/iam-persistence/src/outbox_worker.rs:54-104 | So the worker's loop, with any calls failing, leaves a row PROCESSED only if Kafka has taken its event, PENDING only with fewer than ten attempts, FAILED only with exactly ten |
| `OutboxDelivery.FaultFreeDelivery` | crates/iam-persistence/src/outbox_worker.rs:65-90 | In fault-free runs with rows arriving at any moment, Kafka's log is the decoded payloads of the first n rows, in order and once each, exactly the PROCESSED ones, no attempt is counted, and n grows by 100 a tick until nothing waits |
| `OutboxDelivery.EnqueuedReachKafka` | crates/iam-persistence/src/outbox_worker.rs:54-104 | From the empty outbox, in a fault-free run with events enqueued at any moments, Kafka receives exactly these events in order and once each (null payloads dropped), and whatever was enqueued in a first part of the run after one further tick per hundred |
| `Publishing.PublishedReachKafka` | crates/iam-persistence/src/event_bus.rs:92-191 | From `publish` to Kafka: in a fault-free run Kafka receives exactly the events of a published batch, audit events left out and null payloads dropped, in order and once each, and whatever was enqueued in a first part of the run after one further tick per hundred |
| `OutboxDelivery.RunPayloads` | crates/iam-persistence/src/repository/outbox.rs:41-51 | Over any run, faults included, the table holds the payloads enqueued, in order, none lost, altered or repeated |
| `OutboxDelivery.DeliveredEvent` | crates/iam-persistence/src/repository/outbox.rs:41-51 | What Kafka receives for an enqueued event is that event, if and only if its data is not a JSON null |
| `OutboxDelivery.EnqueuedIsDecodable` | crates/iam-persistence/src/repository/outbox.rs:41-51 | No payload written by `enqueue` takes the undecodable branch |
| `Outbox.OutboxRepository.Enqueue` | crates/iam-persistence/src/repository/outbox.rs:41-51 | Appends a pending row with the encoded event |
| `Outbox.OutboxRepository.FetchPending` | crates/iam-persistence/src/repository/outbox.rs:53-70 | Scans in order and stops at the limit; the result is the first pending rows |
| `Outbox.OutboxRepository.MarkProcessed` | crates/iam-persistence/src/repository/outbox.rs:72-80 | Sets the status of that row only |
| `Outbox.OutboxRepository.MarkFailed` | crates/iam-persistence/src/repository/outbox.rs:82-97 | Counts an attempt and quarantines at ten, whatever the status was |
| `Outbox.OutboxWorker.HandleRow` | crates/iam-persistence/src/outbox_worker.rs:65-101 | For one row, rows arriving meanwhile: Kafka gets the decoded event if the publication takes effect; the row is PROCESSED if and only if that is acknowledged, and otherwise spends one of ten attempts; no other row changes |
| `Outbox.OutboxWorker.HandleBatch` | crates/iam-persistence/src/outbox_worker.rs:65-102 | The loop over the batch composes the rows in order |
| `Outbox.OutboxWorker.RunTick` | crates/iam-persistence/src/outbox_worker.rs:54-104 | One tick is a fetch of at most 100 followed by the batch; the count returned is its size |
| `Events.EventRoundTrip` | crates/iam-core/src/domain/identity/events.rs:5-18 | Decoding the JSON form gives the event with a null payload dropped; it gives the event itself if and only if the payload is not null |
| `Events.UuidRoundTrip` | crates/iam-core/src/domain/identity/events.rs:5-18 | The hyphenated form of every UUID parses back to it |
| `Events.UuidGroups` | crates/iam-core/src/domain/identity/events.rs:5-18 | That form is the digits in lower case in groups of 8, 4, 4, 4 and 12 |
| `Events.WireForm` | crates/iam-core/src/domain/identity/events.rs:5-18 | The JSON form has exactly the four named texts, and the payload if and only if there is one |
| `EventBus.BatchIsEach` | crates/iam-persistence/src/event_bus.rs:173-191 | A batch leaves the outbox rows and background sends of publishing its events one by one; it succeeds exactly when no Redis write fails, and then the stream is the same too |
| `EventBus.BatchStopsAtError` | crates/iam-persistence/src/event_bus.rs:173-191 | When the Redis write of event m is the first to fail, the batch reports it and leaves on the stream exactly its first m events, and the m-th if that write had taken effect |
| `EventBus.OneRoad` | crates/iam-persistence/src/event_bus.rs:135-155 | With Kafka and outbox configured a skipped event goes nowhere, any other to the outbox or to a background send, and to both exactly when the enqueue took effect unacknowledged |
| `EventBus.DispatchRoutes` | crates/iam-persistence/src/event_bus.rs:135-170 | For every configuration: an audit event, or any without Kafka, goes nowhere; any other becomes one pending row that reads back as that event if an outbox is configured and the insert takes effect, and is sent as it is unless that insert is answered |
| `EventBus.DispatchedEvents` | crates/iam-persistence/src/event_bus.rs:135-191 | A batch adds to the outbox and to the background sends exactly these events, in order |
| `EventBus.KafkaConservation` | crates/iam-persistence/src/event_bus.rs:135-155 | Over a batch, new rows plus new sends number the events not skipped plus those doubled |
| `EventBus.EventBus.DispatchKafka` | crates/iam-persistence/src/event_bus.rs:135-170 | The routing of one event as it runs leaves the channels as `DispatchRoutes` says |
| `EventBus.EventBus.PublishRaw` | crates/iam-persistence/src/event_bus.rs:92-129 | Dispatches and appends one event |
| `EventBus.EventBus.PublishBatchRaw` | crates/iam-persistence/src/event_bus.rs:173-191 | Dispatches all events, then appends until the first error |
| `Keys.KeyCollision` | crates/iam-core/src/domain/identity/keys.rs:5-51 | Two cache keys are equal if and only if they are the same key, or two rate-limit keys whose endpoint and address straddle a colon |
| `Keys.KeysInjective` | crates/iam-core/src/domain/identity/keys.rs:5-51 | All eight families are disjoint and injective for colon-free endpoints |
| `Redis.CacheService.SetRaw` | crates/iam-persistence/src/cache.rs:65-74 | Writes value and expiry; a zero TTL is refused |
| `Redis.CacheService.GetRaw` | crates/iam-persistence/src/cache.rs:77-91 | Returns the value while it is live |
| `Redis.CacheService.DeleteRaw` | crates/iam-persistence/src/cache.rs:94-100 | Removes the key only |
| `Redis.CacheService.IncrementRaw` | crates/iam-persistence/src/cache.rs:103-109 | Counts on, or starts at one without an expiry |
| `Redis.CacheService.IncrementWithTtl` | crates/iam-persistence/src/cache.rs:121-139 | Counts on and renews the expiry |
| `Redis.CacheService.ExistsRaw` | crates/iam-persistence/src/cache.rs:112-118 | Tells whether the key is live |
| `Lockout.FailureRate` | crates/iam-logic/src/auth_service.rs:161-202 | After any history of non-overlapping requests on a working cache, in any stretch without a success any 5n + 1 counted failures span at least 900n seconds |
| `Lockout.LockExpiresClean` | crates/iam-logic/src/auth_service.rs:105-119 | Whenever a lock turns a request away the counter is empty, and the request leaves lock and counter as they are |
| `LockoutConcurrent.FailuresInFlight` | crates/iam-logic/src/auth_service.rs:105-202 | In every interleaving of at most c logins at a time without a success, at most 4 + c failures are counted in the 900 s from a clean guard on |
| `LockoutConcurrent.FailuresInFlightReached` | crates/iam-logic/src/auth_service.rs:161-197 | For every c there is such a run that counts 4 + c |
| `LockoutConcurrent.LoginIsAFlight` | crates/iam-logic/src/auth_service.rs:101-202 | A login with nothing else in flight moves that machine as the sequential guard moves, and counts the same failures |
| `Login.LockoutRate` | crates/iam-logic/src/auth_service.rs:101-225 | The same bound for the failures of one identifier as counted on the shared cache, with logins of other identifiers and all traffic on other key families in between |
| `Login.FailuresProject` | crates/iam-logic/src/auth_service.rs:161-202 | The failures counted on the shared cache are those of the guard machine run on the identifier's own attempts |
| `Login.LoginProjects` | crates/iam-logic/src/auth_service.rs:101-225 | A login moves its own lock and counter as the guard machine does, its own profile cell by the lookup, and no other key |
| `Login.LoginDecides` | crates/iam-logic/src/auth_service.rs:101-225 | A lock in force turns a login away with nothing checked and nothing changed. Otherwise the password is checked against the cached profile, or the row found, which is then cached for 300 s; it is accepted if and only if it fits that hash, and then clears the counter; a wrong one is counted for 900 s and, being the fifth, locks for 900 s and clears the counter |
| `RateLimit.TwiceTheLimit` | crates/iam-logic/src/auth_service.rs:1114-1137 | With non-overlapping requests, any of whose cache calls may fail, at most twice the limit is admitted in any interval no longer than the window |
| `RateLimit.TwiceTheLimitReached` | crates/iam-logic/src/auth_service.rs:1114-1137 | For every limit and window there is an orderly run that admits twice the limit within one window's length |
| `RateLimit.TwiceTheLimitOnStore` | crates/iam-logic/src/auth_service.rs:1114-1137 | The same on the shared cache, for colon-free paths, whatever other addresses, paths and parts of the service do in between |
| `RateLimit.RejectionKeepsWindow` | crates/iam-logic/src/auth_service.rs:1114-1137 | A rejected request, whatever rejects it, leaves the end of the window in force as it was if and only if it is not an INCR that took effect unanswered where no window was open; that one opens a window without end |
| `RateLimit.StuckIffTtlLost` | crates/iam-logic/src/auth_service.rs:1114-1127 | A request that opens a window opens one that never closes if and only if its INCR went unanswered or its SET did not take effect |
| `RateLimit.StuckStep` | crates/iam-logic/src/auth_service.rs:1114-1127 | Every other request keeps the expiry of the counter: one with an expiry never becomes stuck, a stuck one never recovers |
| `RateLimit.StuckIffTtlLostInRun` | crates/iam-logic/src/auth_service.rs:1114-1137 | After any run from an empty cache the counter is stuck if and only if some request that opened a window lost its expiry in one of these ways |
| `RateLimit.StuckForGood` | crates/iam-logic/src/auth_service.rs:1114-1137 | Such a counter stays for good and admits only what is left of one limit, ever |
| `RateLimitConcurrent.AdmittedPerWindow` | crates/iam-logic/src/auth_service.rs:1114-1137 | In every interleaving one window admits at most limit + j, where j increments landed between the first INCR and the overwriting SET, and never more than 2 limit - 1 |
| `RateLimitConcurrent.SurplusReached` | crates/iam-logic/src/auth_service.rs:1120-1127 | For every limit and every j below it there is a run with j early increments that admits limit + j in one window |
| `RateLimitConcurrent.RequestIsARun` | crates/iam-logic/src/auth_service.rs:1114-1137 | A request with nothing outstanding moves that machine as the sequential limiter moves, and is admitted alike |
| `LimitConfig.LimitsPositive` | crates/iam-api/src/middleware/rate_limit.rs:56-62 | Every path has a positive limit and window whatever the environment holds |
| `LimitConfig.PathBudgets` | crates/iam-api/src/middleware/rate_limit.rs:56-62 | Unless a well-formed override is set: 10 requests in 60 s for paths ending in `/login`, 5 in 3600 s for `/register`, 100 in 60 s for all others |
| `LimitConfig.ParseLimitRoundTrip` | crates/iam-api/src/middleware/rate_limit.rs:28-37 | Every pair of positive numbers below 2^64 in decimal, with any spacing around them, is read back exactly |
| `LimitConfig.OverrideIff` | crates/iam-api/src/middleware/rate_limit.rs:28-37 | An override is taken if and only if it is two positive numbers below 2^64 (plus signs and leading zeros allowed) separated by a comma with any spacing around each; everything else falls back |
| `LimitConfig.ParseU64Iff` | crates/iam-api/src/middleware/rate_limit.rs:28-37 | A numeral is taken as n if and only if it is n in decimal, below 2^64, after any zeros and an optional plus sign |
| `CacheAside.BoundedStaleness` | crates/iam-logic/src/auth_service.rs:121-142 | In every interleaving of lookups, evictions, row changes and failing calls, each value served was in the database for that key at some moment at most the TTL plus the read-to-write delay before |
| `CacheAside.ApiKeyStaleness` | crates/iam-logic/src/auth_service.rs:657-707 | Every API key accepted had that role in the database at most 30 s (plus the delay) before |
| `CacheAside.LoginHashStaleness` | crates/iam-logic/src/auth_service.rs:121-142 | Every hash used by a login was stored at most 300 s (plus the delay) before |
| `CacheAside.LookupIsARun` | crates/iam-logic/src/auth_service.rs:121-142 | A lookup without interference is a run of the interleaved system |
| `CacheAside.FreshAfterInvalidation` | crates/iam-logic/src/auth_service.rs:1058-1065 | After an invalidation that takes effect, an undisturbed lookup serves the row as the database has it then |
| `PasswordReset.LoginUsesCurrentHash` | crates/iam-logic/src/auth_service.rs:121-142 | Requests one after another: from any state with nothing cached under a user's two names, through any history with any calls failing, a login by either name checks a hash the row has held since, and the current one if the hash has not changed since |
| `PasswordReset.NoOldHashAfterReset` | crates/iam-logic/src/auth_service.rs:1027-1070 | Requests one after another: in any state a history can reach, after one successful reset of a user with a lower-case email whose two profile deletes took effect, no later login by username or email checks a hash from before it; all other requests, resets included, may fail in any way |
| `PasswordReset.HistoryIsSound` | crates/iam-logic/src/auth_service.rs:1002-1024 | Every history from the empty cache, whatever calls fail, keeps names apart and every stored token standing for lower-case text, which is all `NoOldHashAfterReset` asks of the state |
| `PasswordReset.ResetBlanks` | crates/iam-logic/src/auth_service.rs:1052-1065 | A reset that changes the password leaves a profile cached under one of the user's names if and only if the update went unanswered or the delete for that name did not take effect |
| `PasswordReset.ResetTable` | crates/iam-logic/src/auth_service.rs:1052-1056 | Success is reported if and only if the update hits a row and is answered; the table changes whenever it takes effect |
| `PasswordReset.OneHolder` | migrations/20241128000004_add_performance_indexes.sql:9-11 | As lower(email) is unique, a password update hits at most one row |
| `PasswordReset.TokenChangesOnce` | crates/iam-logic/src/auth_service.rs:1002-1070 | Requests one after another, whatever calls fail: every password change is made with a token presented within 900 s of its issue, and a token changes a password again only after changes that did not use it up |
| `PasswordReset.TokenConsumedIff` | crates/iam-logic/src/auth_service.rs:1052-1069 | A reset that changes a password uses its token up if and only if the update is answered and the token's delete takes effect; otherwise the token is as before |
| `PasswordReset.TokenWorksAgainIff` | crates/iam-logic/src/auth_service.rs:1027-1069 | A second presentation in time, its calls going through, changes the password again if and only if the first did not use the token up |
| `PasswordReset.UnansweredUpdateKeepsToken` | crates/iam-logic/src/auth_service.rs:1052 | An update whose answer is lost changes the password, reports failure, leaves the cache as it was, and the token works again |
| `PasswordReset.EmailProfileDropped` | crates/iam-logic/src/auth_service.rs:1058-1065 | A reset drops a cached profile filed under a stored email if and only if that spelling is the one in the token, or is the username of the row found |
| `PasswordReset.MixedCaseKeepsOldHash` | crates/iam-persistence/src/repository/user.rs:213-223 | For every stored email that is not in lower case, with its profile cached, a login by that email after a successful reset still checks the old hash |
| `PasswordReset.ResetFindsHolder` | crates/iam-persistence/src/repository/user.rs:75-89 | For a user with a lower-case email and a name no one else has, the row found by exact match is the one row updated by lower-case match |
| `PasswordReset.ResetDrops` | crates/iam-logic/src/auth_service.rs:1058-1069 | A successful reset empties exactly the profile cells its two deletes reach and, if its delete takes effect, the token's cell |
| `ForgottenPassword.TokenResets` | crates/iam-logic/src/auth_service.rs:1002-1070 | A token issued for an identity and presented later, whatever else happens in between: the hash of exactly the active accounts with that email becomes the new one, and no other column or row changes, if and only if the token is read within 900 s of being stored and the calls up to the update go through; success is reported if and only if there is such an account and the update is answered |
| `ForgottenPassword.NewPasswordDecides` | crates/iam-logic/src/auth_service.rs:101-225 | After a successful reset whose profile deletes took effect, and while the hash is left alone, a login by either name that is not locked out accepts a password if and only if it fits the new hash |
| `PasswordRaces.OldHashIffHeld` | crates/iam-logic/src/auth_service.rs:121-142 | Over all interleavings of logins and resets stepping at their awaits: with nothing cached under a user's name, a login by it that begins later can check a hash the row has not held since if and only if some login in flight by that name holds one the row no longer has |
| `PasswordRaces.AfterDropIffHeld` | crates/iam-logic/src/auth_service.rs:1058-1065 | In particular from the moment a reset's delete of that name takes effect |
| `PasswordRaces.NoOldHash` | crates/iam-logic/src/auth_service.rs:121-142 | Without such a login in flight, every hash any login checks for that name from then on, in every interleaving with any calls failing, is one the row has held since |
| `PasswordRaces.HeldIsServed` | crates/iam-logic/src/auth_service.rs:131-142 | A login holding a profile can cache it so that the next login by that name is served it |
| `PasswordRaces.PoisonedCache` | crates/iam-logic/src/auth_service.rs:121-142 | For every login that has read the row and every reset of that user, a run with every call answered in which the reset completes and the next login by that name still checks the old hash |
| `PasswordRaces.NoOverlapNoOldHash` | crates/iam-logic/src/auth_service.rs:1027-1070 | The sequential case: after a successful reset that no login overlaps, its deletes taking effect, no login by either name checks an older hash, whatever interleaves later |
| `PasswordRaces.ResetIsARun` | crates/iam-logic/src/auth_service.rs:1027-1070 | A reset with nothing in between is the sequential one |
| `PasswordRaces.LookUpIsARun` | crates/iam-logic/src/auth_service.rs:121-142 | So is the lookup of a login |
| `PasswordRaces.OthersAreSteps` | crates/iam-logic/src/auth_service.rs:1002-1024 | A request for a token is the sequential one, and an eviction empties the cell of its name and no other |
| `TokenRaces.EveryChangeReadInTime` | crates/iam-logic/src/auth_service.rs:1027-1070 | In every interleaving, with any call failing and any request dropped, every password change is made by a request that read its token within 900 s of its issue and before anything used it up, and each request makes at most one |
| `TokenRaces.GoneTokenWorksIff` | crates/iam-logic/src/auth_service.rs:1027-1069 | Once a token is gone it can change the password of an existing account again if and only if some request that read it before is still on its way to the update |
| `TokenRaces.TwoResetsOneToken` | crates/iam-logic/src/auth_service.rs:1027-1069 | For every stored token of an existing account, a run of two requests with every call answered in which the second changes the password after the first has used the token up |
| `Resend.ResendThrottle` | crates/iam-logic/src/auth_service.rs:598-655 | With non-overlapping requests and a working cache, emails to one user are at least 60 s apart, carry a token unexpired when its row was read, and repeat a token until its expiry |
| `Resend.ResentSends` | crates/iam-logic/src/auth_service.rs:598-655 | A request sends an email if and only if the row was read and is unverified, no cooldown is in force and a token is at hand: the stored one while unexpired, else a fresh one stored for 24 h; a send arms the cooldown for 60 s |
| `ResendConcurrent.EmailsInFlight` | crates/iam-logic/src/auth_service.rs:622-652 | In every interleaving of at most c requests at a time, any c + 1 emails to one user span at least 60 s |
| `ResendConcurrent.EmailsInFlightReached` | crates/iam-logic/src/auth_service.rs:622-652 | For every c there is such a run that sends c emails in an instant |
| `ResendConcurrent.RequestIsAFlight` | crates/iam-logic/src/auth_service.rs:598-655 | A request with nothing else in flight sends, and moves the cooldown, as the sequential one does |
| `Resend.EmailedTokenResolves` | crates/iam-persistence/src/repository/user.rs:155-168 | Every token emailed in an orderly run, until it expires and whatever requests and row updates follow, resolves to that user's stored email |
| `Resend.EmailedTokenKept` | crates/iam-logic/src/auth_service.rs:631-638 | After any orderly run the user's row still holds every token emailed, unless it has expired |
| `Users.UpdateStatusOnHash` | migrations/20260620120000_fix_blockchain_status_trigger_preserves_confirmed.sql:17-30 | The trigger changes nothing but the status, and that if and only if the row is still pending and its signature has just appeared; then it is submitted |
| `Users.UpdateKeepsStatus` | crates/iam-persistence/src/repository/user.rs:127-257 | Every update keeps "registered means confirmed with a signature" and confirmed is absorbing |
| `Users.RegisteredIsConfirmed` | migrations/20260620120000_fix_blockchain_status_trigger_preserves_confirmed.sql:17-30 | The same over every run of updates; the user ends registered exactly when one of them marks it so |
| `Users.OriginalTriggerMislabels` | migrations/20241123000001_add_transaction_tracking.sql:264-274 | Under the original trigger a fresh user ends registered but not confirmed if and only if onboarded exactly once |
| `WalletFlows.IndexNeverRejectsSequentially` | migrations/20260108200337_add_user_wallets.sql:15-26 | However sequential requests fail, the one-primary index rejects no write of the next one |
| `WalletFlows.IndexRejectsOverlap` | migrations/20260108200337_add_user_wallets.sql:15-26 | Two overlapping primary links make it reject the second insert |
| `WalletFlows.PrimaryLinkKeepsPrimary` | crates/iam-logic/src/auth_service.rs:754-779 | An answered primary link keeps the user's primary if and only if the address is not linked yet |
| `WalletFlows.ChoosingKeepsPrimary` | crates/iam-persistence/src/repository/wallet.rs:84-108 | After `set_primary` the user has a primary if and only if they own the wallet named |
| `WalletFlows.ChoosingEffect` | crates/iam-logic/src/auth_service.rs:732-738 | The whole effect of `set_primary`, however its calls end: the user's wallets are primary or not by being the one named, the user's row stores its address if that update succeeds, and nothing else changes |
| `WalletFlows.UnlinkEffect` | crates/iam-logic/src/auth_service.rs:740-751 | The whole effect of an unlink: the wallet named goes if it is the user's and not primary, and no other row changes |
| `WalletFlows.MirrorFollowsPrimary` | crates/iam-logic/src/auth_service.rs:732-779 | Over sequential requests whose address updates take effect and whose changes of primary do not lose their answer, a user's primary address is `users.wallet_address` |
| `WalletFlows.MirrorAfterChoosing` | crates/iam-logic/src/auth_service.rs:732-738 | However its calls end, a `set_primary` that takes effect leaves a true mirror if and only if the wallet is not the user's or the column ends with its address (already there, or the change was answered and the address update took effect with no other user storing it); one that does not leaves the mirror as it was |
| `WalletFlows.MirrorAfterLinking` | crates/iam-logic/src/auth_service.rs:754-779 | However its calls end, a primary link that changes anything leaves a true mirror if and only if no wallet is inserted or the column ends with the address, in the same sense |
| `WalletFlows.FirstLink` | crates/iam-logic/src/auth_service.rs:754-779 | The whole effect of a first link on both tables, with the mirror written unless the column is taken |
| `WalletLinking.LinkEffect` | crates/iam-logic/src/auth_service.rs:754-839 | The whole effect of an accepted link, by a user with or without wallets, on chain or not, however the calls after the insert end: the new wallet, other wallets demoted by a primary one, the address in the user's row, and the wallet registered with the submitted signature if and only if the user is active and on chain, a poll saw the account and the mark took effect; nothing else changes |
| `EmailVerification.VerifyEffect` | crates/iam-logic/src/auth_service.rs:328-351 | The whole effect of a verification, however its calls end: every account with that email active and verified, a primary wallet whose address the row stores for a user who needed one, and nothing else changed |
| `EmailVerification.VerificationOpensLogin` | crates/iam-persistence/src/repository/user.rs:75-143 | A freshly created account is found by no login, and by username and email once its verification has taken effect |
| `WalletFlows.StaleMirrorBlocksNextOwner` | crates/iam-logic/src/auth_service.rs:740-779 | Link, unlink, and a primary link of the same address by another user leave that user's mirror wrong although every call was answered |
| `WalletFlows.CrossedChoicesBreakMirror` | crates/iam-logic/src/auth_service.rs:732-738 | Two overlapping answered `set_primary` requests end with a true mirror if and only if the address updates come in the order of the primary updates |
| `Database.InsertKeepsConstraints` | crates/iam-persistence/src/repository/wallet.rs:155-180 | An accepted insert keeps both unique constraints and gives its user a primary only if asked to |
| `Database.PrimaryKeepsConstraints` | crates/iam-persistence/src/repository/wallet.rs:84-108 | `set_primary` keeps both constraints, decides its own user's primary by ownership, and leaves other users' primaries alone |
| `Database.DeleteKeepsConstraints` | crates/iam-persistence/src/repository/wallet.rs:110-121 | `delete_if_not_primary` takes no one's primary away |
| `Database.Repositories.SetPrimary` | crates/iam-persistence/src/repository/wallet.rs:84-108 | Clear, then set, in one transaction that commits on a miss |
| `Database.Repositories.DeleteIfNotPrimary` | crates/iam-persistence/src/repository/wallet.rs:110-121 | Removes the row exactly when it is the user's and not primary |
| `Database.Repositories.ClearPrimary` | crates/iam-persistence/src/repository/wallet.rs:146-153 | Row by row, leaves the user without a primary and every other column and user alone |
| `Database.Repositories.Insert` | crates/iam-persistence/src/repository/wallet.rs:155-180 | Adds the row unless the address is linked or the user already has a primary |
| `Database.Repositories.MarkRegistered` | crates/iam-persistence/src/repository/wallet.rs:194-206 | Row by row, flags exactly the user's rows with that address |
| `Database.Repositories.PersistCustodialWallet` | crates/iam-persistence/src/repository/wallet.rs:208-265 | Both tables change together or not at all |
| `Database.Repositories.SetWalletAddressOf` | crates/iam-persistence/src/repository/user.rs:145-153 | Writes the address unless another user holds it |
| `Database.Repositories.UpdateRows` | crates/iam-persistence/src/repository/user.rs:127-257 | Row by row, rewrites exactly the users given, each new row passing the status trigger |
| `Database.ClearKeepsConstraints` | crates/iam-persistence/src/repository/wallet.rs:146-153 | Clearing keeps both unique constraints, leaves its user without a primary and all others with theirs |
| `Database.RegisterKeepsConstraints` | crates/iam-persistence/src/repository/wallet.rs:194-206 | Marking keeps both unique constraints and everyone's primary |
| `AuthService.AuthService.RunLogin` | crates/iam-logic/src/auth_service.rs:101-225 | `login` call by call leaves the cache and the answer the specification says and decides as `LoginDecides` says; the verdict is right, or wrong, if and only if the password fits, or does not fit, the hash used, and a right one leaves no counter |
| `AuthService.AuthService.CountFailure` | crates/iam-logic/src/auth_service.rs:161-202 | Counts, locks at five and clears, touching the two keys only |
| `AuthService.AuthService.FindProfile` | crates/iam-logic/src/auth_service.rs:121-142 | The cached profile while it lives, or the row read and then cached for 300 s |
| `AuthService.AuthService.ForgotPassword` | crates/iam-logic/src/auth_service.rs:1002-1024 | Stores the lower-cased email under the token for 900 s when a user was found, and touches no other key; fails only when the lookup or the cache write is unanswered |
| `AuthService.AuthService.ResetPassword` | crates/iam-logic/src/auth_service.rs:1027-1070 | `reset_password` call by call leaves cache, table and answer the specification says |
| `AuthService.AuthService.ResendVerification` | crates/iam-logic/src/auth_service.rs:598-655 | Changes only the user's cooldown key and token, and emails as `ResentSends` says |
| `AuthService.AuthService.VerifyApiKey` | crates/iam-logic/src/auth_service.rs:657-707 | Accepts the cached key while it lives, or the active row with that hash, then cached for 30 s, and no other; only that cache key changes |
| `AuthService.VerifyKeyReadsThrough` | crates/iam-logic/src/auth_service.rs:657-707 | Key verification is the read-through lookup of the staleness theorem |
| `AuthService.LoginReadsThrough` | crates/iam-logic/src/auth_service.rs:121-142 | So is the profile lookup of `login` |
| `AuthService.AuthService.CheckRateLimit` | crates/iam-logic/src/auth_service.rs:1114-1137 | One request of the limiter machine on the key of its endpoint and address, and no other key |
| `AuthService.AuthService.SetPrimaryWallet` | crates/iam-logic/src/auth_service.rs:732-738 | The handler is its protocol task run alone and leaves both tables as `ChoosingEffect` says; it answers the wallet as it then stands, or not-found if and only if the user does not own it |
| `AuthService.AuthService.UnlinkWallet` | crates/iam-logic/src/auth_service.rs:740-751 | Likewise; it succeeds exactly when a wallet that was the user's and not primary was deleted, with every other row as before, and tells a primary wallet from a missing one |
| `AuthService.AuthService.LinkWallet` | crates/iam-logic/src/auth_service.rs:754-839 | Likewise; it succeeds if and only if the address parses, the calls up to the insert are answered and the address is not linked (a malformed address and a linked one are errors of their own), leaves both tables as `LinkEffect` says, and answers the wallet as registered, with the submitted signature, if and only if the user is active and on chain and a poll saw the account |
| `AuthService.AuthService.OnboardUserOnChain` | crates/iam-logic/src/auth_service.rs:855-999 | The handler is its protocol task run alone and records what `OnboardingRecords` says; success is reported if and only if the probe or a poll saw the account, a signature if and only if a transaction was submitted |
| `AuthService.AuthService.InitializeUserWallet` | crates/iam-logic/src/auth_service.rs:1073-1097 | Likewise, recording as `AttemptRegisters` says; the signature is answered if and only if a poll saw the account and the mark was answered, and a malformed address is an error that changes nothing |
| `AuthService.AuthService.VerifyEmailRow` | crates/iam-logic/src/auth_service.rs:328-351 | Likewise, leaving both tables as `VerifyEffect` says; a wallet is provisioned if and only if the user stores no address, the answered check finds no wallet, and the transaction is answered with an address new to both tables; then that address is the primary |
| `AuthService.AuthService.ProvisionCustodialWallet` | crates/iam-logic/src/auth_service.rs:402-467 | Persists the wallet and hands over to the detached task exactly when the transaction was answered |
| `AuthService.AuthService.RegisterDetached` | crates/iam-logic/src/auth_service.rs:477-568 | The detached task run alone, recording as `AttemptRegisters` says: wallet first, then user, each best effort |
| `AuthService.AuthService.RegisterAndConfirm` | crates/iam-logic/src/auth_service.rs:798-809 | A signature is handed on only after a poll has seen the account |

## Left out

- Real Redis, Postgres, Kafka and Chain Bridge: stores are values, and each call's fate is a parameter.
- Cryptography, password hashing, token signing and PDA derivation are parameters; fresh identifiers and tokens are parameters, assumed distinct where a theorem says so.
- Isolation of database transactions: each transaction is one atomic step, and each statement outside one is a step of its own. The foreign key from `user_wallets` to `users` is not modelled.
- JSONB normalisation of numbers and key order, and UUID spellings other than the hyphenated one.
- Case folding and trimming beyond ASCII.
- Overflow of Redis counters, and stream trimming.
- The overflow check of a debug build on the backoff power; the model wraps as a release build does.
- Domain events published by the account flows, which change neither tables nor cache; the event bus is modelled on its own.
- The `verify_` development shortcut, the token lookup and the cache deletes of `verify_email`; the model starts at the row update.
- `last_used` updates of API keys, user types, coordinates, labels and key material.
- REST and gRPC handlers, roles and permissions, error tables, configuration loading, metrics and start-up: thin or finite, they would only add easy members.
- Lockout.FailureRate: for requests of one identifier that do not overlap; LockoutConcurrent.FailuresInFlight bounds overlapping ones from a clean guard on.
- LockoutConcurrent.FailuresInFlight: requests run to their end on a working cache; one dropped between the fifth failure and the lock sets none.
- PasswordReset.NoOldHashAfterReset: requests one after another; overlapping ones are the subject of PasswordRaces.OldHashIffHeld.
- PasswordReset.LoginUsesCurrentHash: requests one after another, likewise.
- PasswordReset.TokenChangesOnce: requests one after another; overlapping ones are the subject of TokenRaces.EveryChangeReadInTime.
- Resend.ResendThrottle: for requests of one user that do not overlap; ResendConcurrent.EmailsInFlight bounds overlapping ones.
- ResendConcurrent.EmailsInFlight: requests run to their end on a working cache; one dropped between its email and arming leaves no cooldown.
