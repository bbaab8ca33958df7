# memo-syncer: a verified model

memo-syncer keeps FFXIV members in step with FFLogs. Eight workers share a pool of donated FFLogs
keys, each with an hourly budget of points; a producer walks the members table and hands stale
members to the workers through a bounded channel; a status object tells whether the workers are
scanning or waiting for keys; a Redis cache spares one of the FFLogs queries. This project models
those four parts and proves what they promise, with Dafny 4.11:

    dafny verify dfyconfig.toml

## How the model is built

The code that updates shared objects in place is modelled by classes whose methods do the same
(`KeyPool.KeyState`, `KeyPool.Pool`, `Status.StateStore`, `MemberSync.Counters`,
`MemberSync.MembersTable`, `Producer.ScanCounters`, `CharCache.Cache`), one method for each critical
section: `Reconcile` and `FlushStats` are split where they unlock. Each method is proved to do to the
object's value what a specification function says; what such a function means is said apart from it, by
the method's clauses about the fields and the answers it was given, or by a lemma. Concurrency is then a state machine over those
same functions: a run is any sequence of steps allowed by the clock and by where each worker stands,
and the theorems hold after every run. A state is reachable if it is in every set that has the states
after start-up and that steps do not leave; every run goes through such states only (`RunsReach`).
Methods that sleep or wait take what the others do meanwhile as parameters.

- `Basics`, `CnWorlds`, `Decimal`: clock readings, the server allowlist, decimal text.
- `KeyModel`, `PoolSpec`: one key and the pool as values; what each critical section does.
- `KeyPool`: the pool in memory, and start-up. `PoolSteps`: its methods perform the runs of its values.
- `PoolRuns`: runs of the pool; windows, disabling, failure counts, rate-limited keys, refreshes.
- `RetryTime`, `Capacity`: what Acquire's retry time and its choice of key are worth.
- `WaitForKey`: the loop around Acquire. `MemberSync`: one member, from waiting to storing its sync.
- `LeaseLedger`, `BoundsAreTight`, `Rollovers`: workers, pool, refreshes and FFLogs' windows together;
  reserve, drift and limit. `FailureRule`: the failure threshold over the same runs.
- `UseCount`: use counts over the pool and the logs_keys table.
- `Status`: the status object and the scan loop around it.
- `Pipeline`, `PipelineProofs`, `PipelineResults`, `Producer`: producer, channel, workers and table.
- `ScanDesk`, `WholeScan`: pipeline, leases and status as one state; how each member ends (`MemberModel`).
- `CharCache`: the read-through cache of character ids.

What the outside answers (FFLogs, memo-server, Postgres, Redis, the clock) is a parameter of each
step. The assumptions made on it are stated as preconditions: the clock does not go back and is past
Go's zero time; FFLogs reports no negative numbers and charges at most 20 points for a member's
character and best-fights queries together and 10 for a fight detail, and its windows are an hour
long, one after the other, wherever they begin (only for the ledger); row ids are positive and
distinct; a failed database write has changed nothing; member rows change only through this program
while it runs.

## Where the code differs from what is written about it

The model follows the code.

- `DisabledCooldown` suggests that a disabled key comes back. It never does (`DisabledForever`), and
  so cooldowns never decide a retry time (`RetryTimeIsSummaryReset`).
- The comment on `KeyState.ErrCount` says that reaching the threshold disables the key. A failed
  Reconcile query counts without looking at the threshold. `MoveBreaksRuleExactly` says of one step,
  and `RuleHoldsExactly` of whole histories, exactly when the comment is right; `ErrCountIsFailingSuffix`
  gives the bound that always holds.
- Acquire's comment promises to sleep precisely until the earliest reset. A window ends strictly after
  its reset time, so waking exactly then finds the pool still exhausted, and the worker falls back
  to ten seconds (`TwoSleepsSuffice`).
- Pre-debit and settlement alone do not bound how far true spending runs ahead of the estimate at 40
  points for each open or failed lease. A refresh wipes out the pre-debits of the leases that are open
  when it is applied, and everything about the leases that ended between the server's answer and that
  moment; a rollover does the same with what happens between the end of the window and the
  Acquire that rolls it. `DriftBound` has the two terms this costs, 20 and 60 points a lease;
  `DriftBoundIsAttained` shows that each is needed in full; `PlainUntilReplaced` says, at the moment of
  a replacement, exactly when the plain bound will hold until the next one, and
  `PlainExactlyWithoutStraddlers` that in general it does exactly when there are no such leases.
- `RollReset` starts an empty window an hour long whenever an Acquire finds the old one over; nothing
  but a good answer to Reconcile brings it back in line with FFLogs'. `CarriedExactly` says what a
  rollover overlooks, `LimitHeld` what FFLogs' own limit is held to with it, and
  `HeldExactlyWhenNothingCarried` that nothing less will do.
- openapi.yaml (547-551) says that upload failures are not counted as errors and panics are. The code
  counts upload failures and does not count panics (`CountedAsReplied`).

## Model

| member | source | states |
|---|---|---|
| PoolSpec.PickIsFirstBest | service/keypool/pool.go:309-333 | Acquire's scan ends with the first of the available keys that have the most points left, and with none exactly when no key is available |
| PoolSpec.PickIsTheOnlyFirstBest | service/keypool/pool.go:309-333 | nothing but the scan's choice is an available key that is first among the fullest |
| PoolSpec.AcquireTakesFirstBest | service/keypool/pool.go:299-345 | what the three outcomes mean and leave: no keys in the pool; no rolled key available; or the first best one leased, one pre-debit and one use on it, and every other key only rolled |
| PoolSpec.EarliestIsLeast | service/keypool/pool.go:316-327 | with no key available, the reported time is the least retry candidate of the enabled keys, unset exactly when all are disabled |
| PoolSpec.SummaryIsLeast | service/keypool/pool.go:276-295 | PoolSummary's EarliestReset is the least reset time of the enabled keys |
| PoolSpec.TotalsKeyByKey | service/keypool/pool.go:276-295 | an enabled key adds its points and its limit to PoolSummary's totals, a disabled one nothing, wherever it stands |
| PoolSpec.LeaseCostsTheSummary | service/keypool/pool.go:276-342 | as long as no window ends, each lease lowers the total PoolSummary shows by exactly one pre-debit |
| PoolSpec.LoadsRowByRow | service/keypool/pool.go:113-115 | Load takes a row exactly when it is below the threshold, wherever it stands, in the order of the table |
| PoolSpec.DueIndicesAreExact | service/keypool/pool.go:416-427 | a Reconcile pass queries every enabled key past the interval or the use threshold and no other, each once, in pool order |
| PoolSpec.FlushesKeyByKey | service/keypool/pool.go:469-488 | a flush has an entry for a key exactly when it has a row and uses, with its counts, wherever it stands, in pool order |
| KeyModel.RoundUp | service/keypool/pool.go:238-242 | the estimate taken from the server is the least integer not below the points it reports, so Remaining is conservative |
| KeyModel.ClampResetIn | service/keypool/pool.go:58-63 | an accepted window length is at most one hour and exact to the nanosecond; anything out of range becomes the full hour |
| KeyModel.Loaded | service/keypool/pool.go:126-164 | the last probe made decides how a loaded key comes up: enabled exactly when it was answered, forbidden exactly when it found the client invalid, with the numbers it reported and the failures before it |
| KeyPool.KeyState.RollReset | service/keypool/state.go:52-57 | a window strictly past its reset empties the estimate and opens a one-hour window; otherwise nothing changes |
| KeyPool.KeyState.TakeProbe | service/keypool/pool.go:210-252 | each outcome of the start-up probe: forbidden, disabled, or a key with limit, rounded-up estimate and clamped window; a row is marked forbidden in the database exactly for an invalid client that has one (id not 0) |
| KeyPool.Pool.Load | service/keypool/pool.go:113-187 | the rows below the forbidden threshold are probed, transient failures a second time; the pool holds the results in row order, and Load succeeds exactly when a key is enabled |
| KeyPool.Pool.AddEnvKey | service/keypool/pool.go:190-206 | the environment's key is appended whether or not its probe succeeded, and success is reported exactly when it did |
| KeyPool.Start | main.go:31-46 | the program starts exactly when a donated key or the environment's key came up, and then the pool has an enabled key |
| KeyPool.Pool.Stats | service/keypool/pool.go:254-265 | active counts the enabled keys and the two counts cover the pool |
| KeyPool.Pool.PoolSummary | service/keypool/pool.go:276-295 | how many keys are enabled, and the totals and the earliest reset of the pool's value |
| KeyPool.Pool.ScanKeys | service/keypool/pool.go:309-333 | the loop over the pool in place: every key rolled, the choice and the retry time of the specification |
| KeyPool.Pool.Acquire | service/keypool/pool.go:299-345 | lease, exhaustion with its retry time, or no keys, as specified; exactly the chosen key is pre-debited and counted |
| KeyPool.Pool.Release | service/keypool/pool.go:349-361 | one key settled: failure count zero, estimate corrected and not below zero, every other key untouched |
| KeyPool.Pool.MarkError | service/keypool/pool.go:375-412 | one more failure; a rate limit, and nothing else, uses up the points; an enabled key becomes disabled exactly for an authorization failure or as its hundredth failure in a row; its row, if it has one (id not 0), is marked forbidden in the database exactly for such failures |
| KeyPool.Pool.CollectDue | service/keypool/pool.go:416-427 | the keys Reconcile will query are those of the pool that are enabled and past the interval or the use threshold, all of them and in pool order |
| KeyPool.Pool.ApplyRefresh | service/keypool/pool.go:443-460 | the limit becomes the integer within one below the server's if that is at least 1 and stays otherwise, the estimate the integer within one above its points; the window ends to the nanosecond when it says, an hour on if that is too far, and as before if it is not positive; counts start again |
| KeyPool.Pool.CountRefreshFailure | service/keypool/pool.go:435-440 | a failed query adds one to the failure count and does nothing else |
| KeyPool.Pool.CollectFlush | service/keypool/pool.go:469-488 | the batch has an entry for every key with a row and uses, with its counts, and no other |
| KeyPool.Pool.ApplyDrain | service/keypool/pool.go:505-516 | the written delta leaves the first key with that id, and only that key |
| PoolSteps.PerformAll | service/keypool/pool.go:299-518 | any run of critical sections, performed by the pool's own methods, leaves the objects with the values that the run of values leads to |
| PoolRuns.ReachableInv | service/keypool/pool.go:443-460 | in every reachable state an enabled key has no cooldown and a reset time that is set and at most one hour ahead |
| PoolRuns.DisabledForever | service/keypool/pool.go:387-401 | no run re-enables a disabled key or leases it |
| PoolRuns.ErrCountIsFailingSuffix | service/keypool/state.go:22-27 | after every history of probes, releases, errors and queries ErrCount is the length of its unbroken failing suffix, and an enabled key is below the threshold plus the failed queries ending that suffix |
| PoolRuns.FailureDisablesExactly | service/keypool/pool.go:375-405 | after any history from start-up, a failed lease disables its key exactly for an authorization failure or as the hundredth failure in a row of that history |
| PoolRuns.UnauthorizedIsFinal | service/keypool/pool.go:387-391 | after an authorization failure, from any state and count, the key is disabled and never leased again on any run |
| FailureRule.MoveBreaksRuleExactly | service/keypool/pool.go:396-440 | "reaching the threshold disables the key" survives a move of the workers or the maintenance, where only keys found due are queried, exactly unless it is a failed Reconcile query of an enabled key one failure short |
| FailureRule.RuleHoldsExactly | service/keypool/state.go:22-27 | the rule holds of all reachable keys whose history from start-up ends in exactly q failed queries if and only if q is 0; the runs that break it have a failed lease 99 times and then one failed pass a minute on a due key |
| PoolRuns.RateLimitedKeySitsOut | service/keypool/pool.go:382-385 | after a rate-limit mark the key has no points and is not leased until an Acquire after its reset time or a successful Reconcile of it, and such an Acquire gives the whole window back, less its own pre-debit |
| PoolRuns.LimitStays | service/keypool/pool.go:443-447 | after a refresh with a limit of at least 1 the key has that limit, less its fraction, on every run until the next refresh that brings one |
| PoolRuns.DueExactlyWhenDrifted | service/keypool/pool.go:419-426 | over any run after a successful query, a key is due again exactly when it is enabled and the interval has passed or the threshold number of leases was handed out since |
| RetryTime.RetryTimeIsExact | service/keypool/pool.go:299-337 | in a reachable state the reported time is unset exactly when all keys are disabled; otherwise it is a reset time between now and one hour ahead, every sequence of attempts up to it gets the same answer, and later attempts succeed exactly when a key whose window has ended has room for a lease |
| RetryTime.RetryTimeIsSummaryReset | service/keypool/pool.go:316-336 | on exhaustion Acquire reports what PoolSummary shows as EarliestReset on the same state |
| RetryTime.CapNeverBinds | service/memo/service.go:402-412 | the one-hour cap never changes waitForKey's sleep |
| RetryTime.TwoSleepsSuffice | service/memo/service.go:388-422 | waking exactly at the retry time fails again and sleeps ten seconds; alone with the pool and with room in the key that set the time, the second attempt succeeds unless it was made exactly then, and otherwise the third does; a retry time beyond the member's 60-second deadline is not reached by that member |
| WaitForKey.Wait | service/memo/service.go:380-423 | whatever the others do to the pool and the status between rounds, the loop returns the first answer other than exhaustion, sleeps as computed after each exhausted round, counts the worker as waiting once with the first retry time and takes it back on every way out |
| WaitForKey.CountTakenBack | service/memo/service.go:381-400 | when the worker has left, the waiting count has changed by what the others did and nothing else |
| WaitForKey.BlockingIsShown | service/memo/service.go:395-400 | a worker alone is shown as waiting, with the retry time of its first failed attempt, from that attempt until it leaves, and then as scanning |
| Capacity.GreedyCapacityIsExact | service/keypool/pool.go:299-345 | with the clock fixed, n Acquires hand out exactly min(n, total) leases, where total sums what each available key can give above its reserve |
| Capacity.SpendingIsBalanced | service/keypool/pool.go:309-342 | until a window ends, Acquires keep the enabled keys within the larger of their initial spread and one pre-debit |
| LeaseLedger.ReserveBound | service/keypool/pool.go:299-361 | on every run of n workers from start-up a clean key keeps SpentEstimate + 40 per open lease within Limit - SafetyBudget + 40n; eight workers leave 180 points |
| BoundsAreTight.ReserveBoundIsAttained | service/memo/service.go:357-364 | for every number of workers some run ends exactly at that bound |
| LeaseLedger.DriftBound | service/keypool/pool.go:433-461 | since the server's answer behind a refresh, or the end of the window behind a rollover, true charges exceed the estimate's growth since then by at most 40 per open or failed lease, 20 per lease open when the estimate was replaced and 60 per lease that ended in between |
| BoundsAreTight.DriftBoundIsAttained | service/keypool/pool.go:414-462 | for all numbers of open, failed, straddling and lost leases some run from start-up, with a Reconcile that finds the key due, ends exactly at that bound |
| BoundsAreTight.PlainExactlyWithoutStraddlers | service/keypool/pool.go:443-460 | 40 points per open or failed lease are enough in all reachable states with given numbers of straddling and lost leases exactly when both are zero |
| LeaseLedger.PlainUntilReplaced | service/keypool/pool.go:443-460 | after a refresh, rollover or rate-limit mark, 40 points per open or failed lease cover every continuation until the next one exactly when the points charged since the reading and the excess still possible on the open leases are together not positive |
| LeaseLedger.LimitHeld | service/keypool/pool.go:18-23 | FFLogs' own count of a clean key in its own hourly window stays SafetyBudget below the limit but for 40 points a worker, 20 a straddling, 40 a failed and 60 a lost lease, and what the last replacement overlooked; with eight workers 20 points below the limit but for failed and lost leases and what was overlooked |
| LeaseLedger.CarriedExactly | service/keypool/state.go:52-57 | a refresh overlooks nothing of FFLogs' count; a rollover overlooks exactly what FFLogs counts in its window and has not charged since the end of the key's |
| Rollovers.CarriedIsLost | service/keypool/state.go:52-57 | for any number of workers and any c points, a state is reachable from start-up in which a rollover overlooked c points and FFLogs' count is c beyond what it is held to otherwise |
| Rollovers.HeldExactlyWhenNothingCarried | service/keypool/state.go:52-57 | FFLogs' count is held in all reachable states with c points overlooked (and no straddling, failed or lost lease) exactly when c is 0 |
| UseCount.UsesConserved | service/keypool/pool.go:464-518 | in every reachable state, so from any start-up, at every interleaving and with every pattern of failed writes, stored plus in-memory uses, less a delta momentarily in both, equal the initial count plus the leases granted |
| UseCount.SubtractionAlwaysFits | service/keypool/pool.go:508-510 | the guard before FlushStats' subtraction always holds |
| UseCount.FlushForgetsNothing | service/keypool/pool.go:464-518 | when all rows of a flush are written, begun at any moment and with leases going on meanwhile, every key with a row still counts in memory exactly the leases granted since the flush began |
| Status.StateStore.MarkScanStarted | service/memo/status.go:63-69 | the status object at the start of a scan |
| Status.StateStore.MarkIdle | service/memo/status.go:71-78 | the status object between scans |
| Status.StateStore.MarkWaitingForKeys | service/memo/status.go:82-96 | the status object when a worker starts or stops waiting |
| Status.StatusAgreesWithWorkers | service/memo/status.go:63-96 | over any number of scans and every interleaving: the waiting count is the number of blocked workers, the state is WaitingForKeys exactly while it is positive and Idle exactly while the loop sleeps, recovery and next-scan times show only then |
| Status.StatusTellsWhatHappened | service/memo/status.go:63-96 | after every run all six fields are those that what happened calls for: the last announcement, the last rest, its end exactly while it lasts, and the retry time of the last worker to block exactly while one is blocked |
| MemberSync.UploadZones | service/memo/service.go:322-355 | one fight-detail query for each ranked zone up to the first that fails or panics, and what is uploaded and counted before it |
| MemberSync.CountZonesWithData | service/memo/service.go:357-363 | the second loop counts the ranked zones |
| MemberSync.LoopIsZoneByZone | service/memo/service.go:322-355 | fight details are asked for in exactly the ranked zones up to the first whose query does not come back, and uploads succeed and fail in those of them whose fight came back |
| MemberSync.EndsAsReplied | service/memo/service.go:298-376 | from the replies alone: which of them end the member as failed, with which error, as panicked, or as without a character |
| MemberSync.LeaseEndsAsReplied | service/memo/service.go:298-438 | from the replies alone: the first query that fails marks the key with its error, so that a 429 anywhere leaves no points and a 401 or 403 a disabled key; nothing failing settles it with 10 points for each zone asked for; no character or a panic leaves it alone |
| MemberSync.CountedAsReplied | service/memo/service.go:298-373 | from the replies alone: what the member adds to each counter; refused uploads and the failing query are errors, a panic is not |
| MemberSync.SyncUnderLease | service/memo/service.go:268-376 | each way a member with a lease ends, with its key and its counters; the key is marked with the error of the first query that fails, out of points after a 429 and disabled after a 401 or 403 |
| MemberSync.SyncOneMember | service/memo/service.go:289-376 | the whole member, with what others do to the pool, the status, the counters and the table meanwhile: without a lease it adds nothing; a sync is stored exactly for a synced member and one without a character |
| PipelineResults.CountsAddUp | service/memo/service.go:216-238 | at every interleaving every walked row but the one being classified is counted under one verdict, and the channel stays within its bound |
| PipelineResults.QueuedExactly | service/memo/service.go:216-259 | in every reachable state: all members queued or handed out are on allowed servers; a row walked at some reading was queued exactly when its server is allowed and it was not synced within RecentSyncSkip before; the other two counters count exactly the rows synced since, and the rest on other servers |
| PipelineResults.ScanDrains | service/memo/service.go:133-154 | when a scan is over the verdicts add up to the rows walked and the workers have received the queued members in order, each once |
| PipelineResults.BatchesAreOnePass | service/memo/service.go:192-241 | with no failed read, the batches walk the table as the scan found it once in id order and queue what one filtering pass with the same clock readings keeps, whatever workers wrote meanwhile |
| PipelineResults.ExpectedNeverExceedsQueued | service/memo/service.go:113-125 | every row of the precount is queued when no read fails, so ExpectedQueued is at most Queued |
| PipelineResults.PrecountIsExact | service/memo/service.go:113-125 | all through a scan ExpectedQueued is the number of rows on allowed servers that were not synced within RecentSyncSkip when it began, or 0 when they could not be counted |
| PipelineResults.SyncsAreSpaced | service/memo/service.go:440-448 | over all scans, two sync times stored for one member are at least RecentSyncSkip apart |
| PipelineResults.SyncsAreKept | service/memo/service.go:440-448 | after a sync that the database took, and after every run from there, the table has the member with that sync time or a later one |
| PipelineResults.NeverStuck | service/memo/service.go:133-154 | until a scan is over some step of it that is not a failure is possible |
| PipelineResults.ScansEnd | service/memo/service.go:94-154 | a scan of r rows by n workers takes at most 8r + n + 1 steps, however they interleave and whatever fails |
| WholeScan.ComponentsRun | service/memo/service.go:261-376 | pipeline, leases and status moving together each stay among the states they reach alone, so what is proved of all their reachable states holds of the program |
| WholeScan.NeverStuckTogether | service/memo/service.go:133-154 | until a scan is over, pipeline, leases, status and desk agree on some step of it that is not a failed read, and then the loop can take the workers back |
| WholeScan.OneLeaseEach | service/memo/service.go:289-296 | at every moment there are at most as many leases as members handed out, and the workers waiting or holding a lease all have a member that has not ended |
| WholeScan.QueuedSplit | service/memo/service.go:289-376 | when a scan is over the queued members split into key-less, without character, synced, failed and panicked, counted from the reports; all but the first had exactly one lease each, charged at most 20 points without a character and 60 otherwise |
| WholeScan.EachEndsOnce | service/memo/service.go:261-287 | when a scan is over every member it kept has ended exactly once, and no other has |
| WholeScan.DeskMissesNothing | service/memo/service.go:261-376 | a lease is counted exactly when an attempt is granted one, points exactly as FFLogs charges them, and a report made exactly when a member ends, about that member and how it ended |
| WholeScan.MemberEndsAsReplied | service/memo/service.go:298-376 | in every reachable state a worker that has made the queries its replies call for can end its lease as `SyncUnderLease` does, with the same key and the same end |
| WholeScan.StoredEndedWell | service/memo/service.go:304-308 | every sync time stored in a scan belongs to a member that ended as synced or without a character |
| Producer.ProduceMembers | service/memo/service.go:192-241 | the producer's two loops, for every table, batch size and clock, with workers writing behind the walk and reads that may fail: what is sent and counted is one filtering pass up to the first failed read, which keeps exactly the due rows on allowed servers, in order |
| Producer.ReadsFindUnchanged | service/memo/service.go:440-448 | in the running pipeline every read finds the rows still ahead as the scan found them |
| Producer.FilterRow | service/memo/service.go:216-259 | one walked row moves the cursor and exactly one counter: recent if it was synced within RecentSyncSkip, else by its server; it is sent exactly when it is due and its server is allowed |
| CharCache.Cache.ResolveCharacterID | service/fflogs/service.go:22-43 | while Redis can be read, an entry that reads as a positive id is returned without asking and the cache left alone; in every other case FFLogs is asked, its answer returned, and stored exactly when it is a known character and Redis takes it |
| CharCache.CacheAgreesWithRemote | service/fflogs/service.go:22-43 | from an empty cache, for any history of lookups, expiries and outages on allowed servers, a returned id is the remote one, one is returned whenever FFLogs answers, and no entry says 0 |
| CharCache.HitsNeedNoAnswer | service/fflogs/service.go:22-43 | from an empty cache and over any history: once a known character was answered and stored, and until its entry expires, every lookup that can read Redis returns the remote id even if FFLogs does not answer |
| CharCache.HandedOutAreQueued | service/memo/service.go:251-259 | the members that workers are handed in reachable scans are on the allowed servers that the two laws above are about |
| CharCache.CacheKeyIsInjective | service/fflogs/service.go:45-47 | in one region, characters on servers without an '@' have different keys |
| CharCache.KeysMeetExactlyWhen | service/fflogs/service.go:45-47 | in general two keys meet exactly when name and server joined by '@' read the same |
| CharCache.SharedExactlyWithAt | service/fflogs/service.go:45-47 | a character shares its key with another one exactly when its name or its server contains an '@' |
| CnWorlds.CnServersHaveNoAt | service/memo/cn.go:3-17 | no allowed server name contains an '@' |
| Decimal.AtoiOfItoa | service/fflogs/service.go:26-41 | every 64-bit id reads back from its decimal text |
| Decimal.AtoiReadsExactly | service/fflogs/service.go:25-28 | a cached text is read as an integer exactly when it is that 64-bit integer's digits up to leading zeros and a sign that says nothing |

## Left out

- HTTP handlers, router, middleware, health probes, Prometheus gauges, logging and environment parsing: plumbing.
- The GraphQL and OAuth client, the upload to memo-server, Postgres and Redis themselves: their answers are parameters.
- Matching error texts to error kinds (`isInvalidClient`, `classifyAndMark`): the kind is a parameter.
- `GroupServer`, `GroupDeath`, `MapToMemo`, `GetJobID`, the contents of `InterestZones`: field copying.
- The err_count and last_use_at columns: FlushStats writes the live count over what `forbidInDB` stored, so the database keeps no forbidden status to prove.
- Stagger and cooldown sleeps of `Load`, and its cancellation: start-up never cancels it.
- Cancelling a scan: its context is cancelled only after the scan has returned.
- 64-bit overflow, floating-point rounding, NaN and infinities: points are integers and reals.
- Postgres' microsecond rounding of stored times, and rows inserted or reset by other programs between scans.
- Points charged by other users of a donated key, and by the rate-limit queries themselves: the ledger knows the workers' charges only.
- Panics outside a query under a lease, such as in logging after the settlement.
