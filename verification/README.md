# A model of ironqueue's job lifecycle, cron publication and in-memory throttles

ironqueue keeps a job queue in PostgreSQL. Producers, workers, custom consumers, the sweeper and two background
resolvers all write the same rows, each through guarded SQL statements. This project models those statements as
atomic steps on the tables, and proves what they keep over every run and every interleaving:

- **Lifecycle.** `Rows` holds the tables as values and `Lifecycle` the statements: `Accepts` is a statement's WHERE
  clause, `Apply` the tables afterwards, `Notifies` the completion notification it sends. `Invariants` proves what
  every step keeps, and `Effects` says column by column what the statements that store, claim and settle a job do. On top of
  them stand `Fencing`, `Budget`, `UserAborts`, `CooperativeWindow`, `Completion` and `Outcomes`, each a set of theorems
  over whole runs.
- **Claims whose COMMIT may be lost.** `Custody` adds claim transactions, the per-worker advisory lock, claim guards,
  consumer attempts and resolvers; `CustodyTheorems` proves that no claim is orphaned and no resolver overtakes a COMMIT;
  `Reissue` proves when a resolver meets a claim that is not its own.
- **The Rust layer.** `Statements` has the multi-row statements, the resolver passes and the consumer's `Attempt` as
  classes with loops; `SweepPass` the sweeper's pass; `EnqueueBatch` the batch enqueue; `Waiters` the completion
  registry (module `Listener`) and the wait protocol (module `WaitProtocol`).
- **Cron.** `CronSearch` has the forward search, the binary search backwards and the macro's compile-time probe over a
  bounded lookup; `CronPublish` the misfire decision, the scheduling transaction and runs of many schedulers.
- **Arithmetic in memory.** `Throttle` is the dashboard's keyed token bucket, `WakeupThrottle` the compare-and-swap
  loop on the wake-up mark, `Backoff` the doubling loop.

`dafny verify dfyconfig.toml` checks the whole project.

Four promises hold only under a condition. Each has its condition proved, beside a concrete run or input that breaks it:

- A resolver settles its own claim, except after a rolled-back claim: the same worker can then be granted the same
  `(id, attempts, worker)` again, and the resolver of the first claim requeues an attempt a consumer is running. The
  active row it finds is not its own if and only if its worker has since opened another claim transaction over that job and
  that one landed (`Reissue.NotItsOwnIffReclaimed`, with the run in `Reissue.ReissuedClaimCanBeTaken`).
- A cron occurrence is published once. A second publication takes both a schedule created in between from a clock reading
  before that occurrence and a claim that lands when the occurrence's successor is already due
  (`CronPublish.SecondPublicationTakesBoth`); with both it happens (`CronPublish.StaleAndLatePublishesTwice`).
- `previous_at_or_before` is exact for every instant up to the search headroom. Past it, it is exact if and only if the
  minute itself matches or at most one occurrence lies between the headroom and the instant, and for a first occurrence
  too far off for every lookup to see, only if it was found (`CronSearch.ExactPastHeadroom`, with an input in
  `CronSearch.StalePastHeadroom`).
- A waiter is told when its job is gone, if and only if no operator purged the job from the queue
  (`WaitProtocol.NoLostCompletion`, with the run in `WaitProtocol.PurgedJobTellsNobody`).

## Model

| member | source | states |
|---|---|---|
| `Invariants.RewriteIsGood` | ironqueue/src/database.rs:3264-3314 | every accepted statement turns a good row into a good row: attempts within the maximum, a queued row claimable and without owner or result, an active row with owner and clocks, an aborting row marked or without result; and the row only evolves (attempts and maximum never fall, a finished row never comes alive) |
| `Invariants.AddedIsGood` | ironqueue/src/database.rs:2612-2680 | an inserted row, or a manual retry's, is new, queued, good, and its dedupe key was free |
| `Invariants.OnlyTargetChanges` | ironqueue/src/database.rs:3207-3314 | a statement changes or deletes no row but the one its guard selected, and that one exactly as the statement says |
| `Invariants.KeyOrigin` | ironqueue/migrations/0001_migration.sql:161-162 | a dedupe key held after a step was held by the same row before it, or the row is new and the key was free |
| `Invariants.StepKeepsInv` | ironqueue/migrations/0001_migration.sql:114-162 | every step keeps the row constraints, one live row per queue and dedupe key, and ids that are never reused |
| `Invariants.Reachable` | ironqueue/migrations/0001_migration.sql:114-162 | so every state of every history does |
| `Invariants.RunEvolves` | ironqueue/src/database.rs:3207-3314 | over any stretch of a run a surviving row evolves, the clock does not go back, and a deleted id stays deleted |
| `Effects.InsertStores` | ironqueue/src/database.rs:2081-2123 | an enqueue lands exactly when every job of the queue with its key is finished, and stores every column of the request in a row nobody has touched; otherwise nothing changes |
| `Effects.ClaimTakes` | ironqueue/src/database.rs:3207-3262 | a claim takes exactly a queued job that is due and inside the priority band, for a worker whose lease in the queue is live and accepting; it starts the next attempt now and changes nothing else |
| `Effects.FinishStores` | ironqueue/src/database.rs:2995-3069 | a finish is taken exactly from the claim's own active row, unless a user asked for an abort it does not report; it stores the caller's status, result and error under that outcome's retention, or deletes the row if the retention is zero |
| `Effects.RequeueHandsBack` | ironqueue/src/database.rs:3264-3314 | a requeue leaves the row queued without owner, result or clocks, now or after the delay, with the attempt spent or one more granted up to the ceiling |
| `Effects.UserAbortAsks` | ironqueue/src/database.rs:2553-2600 | an abort ends a queued job under its failure retention, asks the owner of an active one to stop, stores the reason and clears the result |
| `Effects.RetryGrants` | ironqueue/src/database.rs:2612-2680 | a manual retry is granted exactly for a finished, never retried job below the ceiling whose key is free; the new row carries the job over, due now, with one more attempt, without a cron occurrence's key |
| `Effects.UnsettledEnds` | ironqueue/src/database.rs:3347-3390 | a resolver's abort ends the row under the failure retention, with its own reason over a running or marked row and the user's where a user asked |
| `Outcomes.RequestIsKept` | ironqueue/src/database.rs:2081-2123 | in every later state of a run the row is the job its enqueue asked for |
| `Outcomes.RequestedBudget` | ironqueue/src/job.rs:310-316 | over any run the claims of a job that were not refunded never exceed the attempts its enqueue asked for |
| `Outcomes.RequestedCounters` | ironqueue/src/database.rs:3264-3299 | its attempts are its claims, and its maximum is what was asked for, raised by refunds up to the ceiling |
| `Outcomes.RowsGoForAReason` | ironqueue/src/database.rs:932-994 | a row disappears only by finishing with an outcome that is not kept, by the expiry of one that was, or by an operator's purge of a queued job |
| `Outcomes.FinishedIsKept` | ironqueue/src/sweeper.rs:275-299 | a finished row keeps its outcome in every later state and is there at least until it expires |
| `Outcomes.OutcomeIsKept` | ironqueue/src/database.rs:2995-3069 | what a worker reported is what the row says until the outcome's own retention has passed, for ever without one; with a zero one the row is gone at once and for good |
| `Outcomes.ExpiredIsPurgeable` | ironqueue/src/sweeper.rs:275-299 | the purge deletes exactly a finished row whose retention has passed |
| `Outcomes.RetriedOnce` | ironqueue/src/database.rs:2612-2680 | over any run a job is retried by hand at most once |
| `Outcomes.LeaseLasts` | ironqueue/src/database.rs:2322-2375 | a heartbeat's lease is live exactly as long as it was granted, whatever the sweeper, the jobs and other workers do, until the worker's next heartbeat |
| `Outcomes.ClosedIntakeClaimsNothing` | ironqueue/src/database.rs:3300-3306 | after a stop or a shutdown requeue a worker claims nothing until a heartbeat reopens its intake |
| `Outcomes.ReopenedIntakeAccepts` | ironqueue/src/database.rs:787-810 | and a heartbeat that reopens it is taken and leaves it accepting |
| `Fencing.ClaimsNeverShareAnAttempt` | ironqueue/src/database.rs:3207-3262 | two committed claims of one job anywhere in a run have different attempt numbers, the later one the greater |
| `Fencing.StaleForever` | ironqueue/src/database.rs:2995-3069 | a claim that matched its row and stopped matching never matches again in any continuation |
| `Fencing.PollIsExact` | ironqueue/src/database.rs:2407-2460 | the abort poll says missing or superseded exactly when the row does not match the claim; of a matching claim it says nothing exactly when the row is neither aborting nor aborted, and otherwise reports the stored reason and whether it is the sweeper's mark |
| `Fencing.AbortingOf` | ironqueue/src/database.rs:2407-2460 | the loop sorts a worker's claims into aborting, missing and superseded by that answer, and drops none |
| `Fencing.LostClaimIsFenced` | ironqueue/src/database.rs:2407-2460 | once it says so, every finish, retry, requeue or resolver abort with that claim is refused and changes no row, in every continuation |
| `Budget.Ledger` | ironqueue/src/database.rs:3264-3299 | at every point of a row's life attempts are its initial attempts plus its claims, and `max_attempts` its initial maximum plus its refunds up to the ceiling |
| `Budget.BudgetIsNeverExceeded` | ironqueue/src/database.rs:3229-3299 | claims minus refunded claims never exceed the maximum a row was inserted with; for a manual retry, the one attempt it grants |
| `Budget.RangeHolds` | ironqueue/src/job.rs:310-316 | every reachable row has attempts <= max_attempts <= 2147483646, strictly while queued, and attempts never fall |
| `UserAborts.UserAbortIsFinal` | ironqueue/src/database.rs:2553-2600 | after an abort that answered true no later step claims, requeues, completes or fails the job, whatever the reason text and whether or not it overwrote a sweeper mark |
| `UserAborts.AbortReachesTheOwner` | ironqueue/src/database.rs:2407-2460 | until the row finishes or is gone, every later poll with the owner's claim answers with the user's reason as no sweeper's mark, and the owner can report the abort |
| `UserAborts.DoomedStaysDoomed` | ironqueue/src/database.rs:3020-3035 | no statement takes a row out of the aborted or unmarked aborting state but to aborted or deletion |
| `UserAborts.MarkerOrigin` | ironqueue/src/sweeper.rs:515-538 | an aborting row carries the marker pair only because phase one wrote it and nothing but `awaited` has changed since |
| `UserAborts.AbortAnswers` | ironqueue/src/database.rs:2553-2600 | abort answers true exactly for a job of this queue that is neither finished nor already being aborted by a user |
| `CooperativeWindow.FindClaim` | ironqueue/src/database.rs:3207-3262 | every running or aborting row in every history goes back to a committed claim with its attempt number, owner and start time |
| `CooperativeWindow.MarkedExactlyWhenStuck` | ironqueue/migrations/0001_migration.sql:324-338 | a running attempt can be marked exactly when, counted from its claim, it has overrun its timeout by a grace, or is older than a grace with no lease or one that expired a grace ago |
| `CooperativeWindow.FindMark` | ironqueue/src/sweeper.rs:515-538 | every marked row goes back to one accepted mark of the same attempt, still carries that mark's time, and showed the request to the owner's poll all along |
| `CooperativeWindow.FindPurge` | ironqueue/src/sweeper.rs:351-377 | a lease row that is gone was last there twice the grace past its expiry |
| `CooperativeWindow.RequeueWaitsForTheOwner` | ironqueue/src/database.rs:2824-2917 | the sweeper requeues an attempt only if its owner's lease is not live, and then one grace after the mark if the lease row is there, two graces after that lease's expiry if it was purged |
| `CooperativeWindow.AbortWaitsForTheOwner` | ironqueue/src/database.rs:2922-2993 | the sweeper's abort gives the same window, and never takes a keyed row from a live owner |
| `CooperativeWindow.RecoveredExactlyWhenDue` | ironqueue/src/database.rs:2824-2993 | a marked attempt is requeued exactly when attempts are left, the owner has no live lease and its window since the mark is over; aborted exactly when the window is over and no live owner holds its key |
| `CooperativeWindow.UserAbortIsCarriedOut` | ironqueue/src/database.rs:2922-2993 | an aborting row without the mark goes back to a user's abort, and the sweeper ends it exactly when the attempt overran its timeout or a grace has passed since the abort without a lease, after the same window |
| `Completion.NotifiesIffTerminal` | ironqueue/src/database.rs:932-994 | a step notifies for a job exactly when the job becomes terminal in it while awaited, across all four terminal paths |
| `Completion.ExactlyOneNotification` | ironqueue/src/database.rs:2584-2589 | over any run a job sends exactly one notification if it became terminal while awaited, otherwise none |
| `Listener.QueueNotifyListener.SubscribeDone` | ironqueue/src/queue.rs:339-344 | adds one empty registration under a key nobody else has |
| `Listener.QueueNotifyListener.Deliver` | ironqueue/src/queue.rs:292-303 | every registration of the finished id receives the event, no other does, a second event is dropped |
| `Listener.QueueNotifyListener.Unsubscribe` | ironqueue/src/queue.rs:172-182 | removes exactly the dropped subscription's registration and leaves no empty list |
| `Listener.SendAll` | ironqueue/src/queue.rs:292-303 | the delivery loop reaches every registration of the list |
| `Listener.DeliveredEntries` | ironqueue/src/queue.rs:292-303 | sending down one id's list is the same as every registration of that id receiving |
| `WaitProtocol.MoveKeepsCovered` | ironqueue/src/job.rs:2775-2871 | marking, subscribing, polling, delivery and every lifecycle step keep every waiter covered |
| `WaitProtocol.NoLostCompletion` | ironqueue/src/job.rs:2775-2871 | in every interleaving a waiter that polled an unfinished job which is now finished or gone holds the event or has it on the way, if and only if the job was not purged while queued |
| `WaitProtocol.MoveKeepsHonest` | ironqueue/src/database.rs:932-994 | an event on its way or delivered is always of a job that finished, never of a purged one |
| `WaitProtocol.PurgedJobTellsNobody` | ironqueue/src/database.rs:2271-2300 | a run of four moves (register, subscribe, poll, purge) whose waiter is told nothing |
| `WaitProtocol.ListenerFollows` | ironqueue/src/queue.rs:172-344 | subscribing, delivery and leaving do to the waits exactly what the listener's own operations do to its entries |
| `Custody.OnlyClaimsActivate` | ironqueue/src/database.rs:3207-3262 | no statement but a claim makes a claim active |
| `Custody.MoveKeepsCustody` | ironqueue/src/database.rs:2702-2806 | opening, arming, landing, failing, acknowledging and dropping a claim transaction, every attempt's statement and every resolver statement keep custody: one record per landed claim, rows of open transactions untouched, nobody unanswered |
| `CustodyTheorems.NoOrphanedClaim` | ironqueue/src/database.rs:2753-2805 | in every reachable state the claim of each running or aborting row is with an unsettled attempt, an armed guard, a pending resolver or one that gave up, and came from a COMMIT that landed |
| `CustodyTheorems.ResolverNeverOvertakesCommit` | ironqueue/src/database.rs:3392-3470 | when a resolver runs a statement the claim's transaction is decided, and its COMMIT never lands afterwards |
| `CustodyTheorems.FinishedPassEndsTheClaim` | ironqueue/src/database.rs:3347-3470 | a finished pass leaves no active row under its claim, whatever the row was and whatever ran between its statements; if the COMMIT had landed, none ever is again |
| `CustodyTheorems.DroppedGoesToAResolver` | ironqueue/src/database.rs:3564-3600 | a dropped attempt, and each claim of a dropped guard whose transaction is decided, is with a resolver that may start |
| `CustodyTheorems.ResolverCanFinish` | ironqueue/src/database.rs:3392-3470 | a resolver that may start finishes in one statement or two, unless a claim transaction holds the row |
| `CustodyTheorems.ReleasedExactlyWhenSettled` | ironqueue/src/queue.rs:500-541 | a record is let go exactly by an acknowledged statement that settles it: the attempt's own, accepted, or its resolver's accepted requeue or its abort |
| `CustodyTheorems.PassTouchesOnlyItsClaim` | ironqueue/src/database.rs:3392-3470 | a pass changes no row but the one active under exactly its id, attempts and worker |
| `CustodyTheorems.ResolverFindsItsOwnClaimIffItLanded` | ironqueue/src/database.rs:3392-3470 | the active row a resolver finds is its own claim, held by no consumer, if and only if its COMMIT landed |
| `Reissue.NotItsOwnIffReclaimed` | ironqueue/src/database.rs:3208-3262 | over every interleaving, an active row that matches a record belongs to another claim if and only if the record's worker opened a later claim transaction over that job and it landed |
| `Reissue.DecidedFirst` | ironqueue/src/database.rs:3208-3228 | the per-worker lock: when a worker opens a claim transaction its earlier ones are decided |
| `Reissue.LaterClaimIsHigher` | ironqueue/src/database.rs:3208-3262 | so a later claim transaction of the worker over a job whose earlier claim landed claims a higher attempt |
| `Reissue.ReissuedClaimCanBeTaken` | ironqueue/src/database.rs:3392-3470 | a run of nine moves in which a rolled-back claim is granted again and its resolver takes the running attempt |
| `Statements.GuardIsLocal` | ironqueue/src/sweeper.rs:515-538 | the guard of a row statement reads nothing but its row and the leases |
| `Statements.RowStepIsLocal` | ironqueue/src/database.rs:2824-2993 | and the statement writes nothing but its row |
| `Statements.Database.ExecuteBatch` | ironqueue/src/database.rs:2824-2993 | a statement over an array of ids leaves each row as its own step alone would on the tables it found, other rows alone, and answers which rows it took |
| `Statements.Database.ResolveClaim` | ironqueue/src/database.rs:3619-3663 | no row stays active under the claim; an active row that is running or marked and has an attempt left (under a refund: is below the ceiling) is handed back column by column as asked, any other is ended; nothing else changes |
| `Statements.Database.RequeueUnacknowledgedClaims` | ironqueue/src/database.rs:3392-3470 | for each claim: an active row below the ceiling that no user aborted is queued on its original schedule with its attempt refunded, any other active row is ended; refunds and endings are counted apart and no other row changes |
| `Statements.Attempt.Transition` | ironqueue/src/queue.rs:500-526 | a finish is made exactly while the claim is active and no user asked for an abort it does not report, a retry exactly while an attempt is left besides; the row then holds the report; only that settles the attempt |
| `Statements.Attempt.Drop` | ironqueue/src/queue.rs:528-541 | dropping an unsettled attempt spends it: the row goes back after the job's delay if attempts are left and is ended otherwise; dropping a settled one does nothing |
| `SweepPass.Sweeper.PurgeWorkerLeases` | ironqueue/src/sweeper.rs:351-377 | deletes only leases expired for twice the grace, at most a batch, all of them if the batch had room |
| `SweepPass.Sweeper.Scan` | ironqueue/src/sweeper.rs:388-500 | selects distinct rows that meet the scan's condition, all of them if the batch had room |
| `SweepPass.Sweeper.RecoverStuckJobs` | ironqueue/src/sweeper.rs:388-598 | with room in the batch every row is swept, from the guards of the three statements alone: a markable running row is marked, and recovered if its owner's lease row is gone; a retryable aborting row is queued; one that may be aborted and has no retry pending is ended; every other row is left alone |
| `SweepPass.PassRowIsBothPhases` | ironqueue/src/sweeper.rs:505-598 | the mark, retry and abort batches one after the other give that description, for each row |
| `SweepPass.ScannedIsSwept` | ironqueue/src/sweeper.rs:505-598 | what the phases do to a scanned row is what the pass owes it |
| `SweepPass.UnscannedIsSwept` | ironqueue/src/sweeper.rs:467-500 | a row the scan leaves out is owed nothing |
| `SweepPass.PendingRetryIsNotAborted` | ironqueue/src/sweeper.rs:467-500 | a keyless marked row with attempts left under a live lease is left alone although the abort's guard would hold |
| `SweepPass.DeadOwnerIsRecovered` | ironqueue/src/sweeper.rs:242-272 | sweeping recovers a stuck running row whose owner's lease expired twice the grace ago |
| `SweepPass.Sweeper.Pass` | ironqueue/src/sweeper.rs:242-272 | one pass with batch room purges every lease expired for twice the grace and sweeps every row as the leases then stand; a dead owner's row is queued without owner if attempts remain, else aborted or deleted by its failure retention |
| `EnqueueBatch.LiveDedupeHolders` | ironqueue/src/database.rs:1571-1588 | the holders read are exactly the live holders of the keys |
| `EnqueueBatch.InsertStatement` | ironqueue/src/database.rs:2081-2123 | the insert statement adds the queued row if its key is free and otherwise leaves the tables alone |
| `EnqueueBatch.InsertHolds` | ironqueue/src/database.rs:2081-2123 | after one insert a taken key keeps its holder, a free key of the job is held by the new row, any other free key stays free |
| `EnqueueBatch.HoldersStep` | ironqueue/src/database.rs:1428-1491 | the recorded holders decide each job as its single enqueue would, and stay right for the next |
| `EnqueueBatch.Plan` | ironqueue/src/database.rs:1428-1491 | the loop's answers and rows are those of the single enqueues, or it stops at a job that would deduplicate against another name |
| `EnqueueBatch.FoldIsTable` | ironqueue/src/database.rs:1309-1363 | inserting just the new jobs gives the tables of the single enqueues and hits no conflict |
| `EnqueueBatch.SameKey` | ironqueue/src/database.rs:1428-1491 | if a job of the batch is inserted under a key, every other job with that key comes later and is answered with it |
| `EnqueueBatch.HolderOrigin` | ironqueue/src/database.rs:1428-1491 | a holder an answer names was live when read, or is an earlier inserted job of the batch |
| `EnqueueBatch.InsertJobs` | ironqueue/src/database.rs:2081-2123 | the insert equals the fold of its rows with conflicts skipped, and reports exactly which landed |
| `EnqueueBatch.Repair` | ironqueue/src/database.rs:1488-1532 | every planned row that did not land is replaced by a live holder of its key and name from the re-read, or the batch fails because the holder has another name or is gone |
| `EnqueueBatch.AnswerIsSound` | ironqueue/src/database.rs:1488-1532 | after the rewrite each answer names a row that landed or was a live holder when read, also for jobs first deduplicated against a row that never landed |
| `EnqueueBatch.ClashIsAConflict` | ironqueue/src/database.rs:1428-1491 | a refusal by name is real: a live row of the queue or an earlier job of the batch has the key and another name |
| `EnqueueBatch.EnqueueAll` | ironqueue/src/database.rs:1428-1532 | without interference: the answers and tables of enqueueing one by one, refused exactly when one would clash by name; under any foreign writes: every answer sound, a refusal only for a real name conflict or a key lost to a row that has another name or is gone again, and then the tables as the other writer left them |
| `CronSearch.OccursInEveryCycle` | ironqueue-macros/src/expand.rs:72-110 | a schedule that occurs at all occurs in every stretch of 146097 days |
| `CronSearch.NextAfter` | ironqueue/src/job.rs:1418-1442 | an answer is the least occurrence strictly after the input and within a cycle; no answer means none as far as a lookup sees; below the headroom it answers exactly if the schedule has an occurrence; it terminates |
| `CronSearch.PreviousAtOrBefore` | ironqueue/src/job.rs:1447-1475 | up to the headroom the answer is the greatest occurrence at or before the instant; past it, the last occurrence up to the headroom or the first behind it; the forward search from it finds nothing up to the instant; no answer means no occurrence in the cycle before, as far as a lookup sees |
| `CronSearch.AnsweredIffOccurs` | ironqueue/src/job.rs:1447-1475 | with a whole cycle behind it the search answers exactly if the schedule has an occurrence |
| `CronSearch.Narrow` | ironqueue/src/job.rs:1459-1475 | the bisection ends on the last occurrence a lookup can reach |
| `CronSearch.ExactPastHeadroom` | ironqueue/src/job.rs:1418-1475 | at every instant past the headroom the answer is right if and only if the minute itself matches or at most one occurrence lies in between; if that one is too far off for every lookup to see, also only if it was found |
| `CronSearch.StalePastHeadroom` | ironqueue/src/job.rs:1447-1475 | an hourly schedule two hours past the headroom is answered with the hour before last |
| `CronSearch.AcceptsAtCompileTime` | ironqueue-macros/src/expand.rs:72-110 | the macro's probe accepts a schedule exactly if it has an occurrence |
| `CronSearch.CompiledScheduleResolves` | ironqueue-macros/src/expand.rs:72-110 | an accepted schedule resolves at run time from every instant whose cycle stays below the headroom, a rejected one from none |
| `CronPublish.FlooringIsHarmless` | ironqueue/src/job.rs:1526-1538 | searching from the whole second of a clock reading finds what searching from the reading itself would |
| `CronPublish.SearchesAreValid` | ironqueue/src/job.rs:1526-1538 | what the two searches prove of themselves gives all that the scheduling theorems ask of an entry |
| `CronPublish.SkipCatchUpIsCursorFree` | ironqueue/src/database.rs:1983-2001 | for any due cursor the decision publishes only the most recent occurrence inside its own deadline, and at every reading up to the headroom exactly when it is inside |
| `CronPublish.DeadlineMeans` | ironqueue/src/job.rs:1540-1556 | an occurrence is open until its successor is due, and under `Skip` while its grace lasts: as given, or a fifth of the period and at least a second |
| `CronPublish.FireOnceCatchesUp` | ironqueue/src/database.rs:1842-1846 | under `FireOnce` the most recent occurrence is up for publication however many were missed |
| `CronPublish.DecisionLaw` | ironqueue/src/database.rs:1839-1850 | a due schedule decides, under both policies, to publish the most recent occurrence exactly when it is still open, with its successor next, and otherwise moves on past the scheduling time |
| `CronPublish.TransactionLaw` | ironqueue/src/database.rs:1850-1965 | the transaction publishes it exactly when it is also unclaimed and nothing is held, says which of the others it was, and claims it until the successor and at least a second |
| `CronPublish.ChosenFacts` | ironqueue/src/database.rs:1839-1850 | under both policies what is up is never before the cursor, comes with its true successor, and is published only as the most recent occurrence |
| `CronPublish.DecisionFacts` | ironqueue/src/database.rs:1828-1850 | under both policies the decision's occurrence is not before the cursor, its successor is its successor, and publication is decided before that successor is due |
| `CronPublish.CursorAdvances` | ironqueue/src/database.rs:1839-1965 | every commit moves the cursor strictly past its old value and past the scheduling time; what it publishes is the most recent occurrence, claimed |
| `CronPublish.RollbackUndoes` | ironqueue/src/database.rs:1850-1965 | a transaction that rolls back leaves nothing behind |
| `CronPublish.RegistrationKeepsTheCursor` | ironqueue/src/database.rs:1590-1667 | registering a schedule that is there changes its policy and keeps its cursor; one that is not starts at its first occurrence after the reading |
| `CronPublish.SecondPublicationIff` | ironqueue/src/database.rs:1852-1870 | a commit publishes an occurrence again exactly if it was published and its claim has been purged since, which takes until the successor is due |
| `CronPublish.PromptRunsPublishOnce` | ironqueue/src/database.rs:1828-1870 | over any run of schedulers, purges, policy changes, removals and registrations in which each publication's claim lands before the successor is due, no occurrence is published twice; skips may be as late as they like |
| `CronPublish.FreshRunsPublishOnce` | ironqueue/src/database.rs:1590-1680 | nor, however late claims land, in any run whose registrations create a schedule only from readings no older than what was published |
| `CronPublish.SecondPublicationTakesBoth` | ironqueue/src/database.rs:1590-1870 | whenever one occurrence is published twice, the schedule was created in between from a reading before it, and the second claim landed with its successor already due |
| `CronPublish.StaleAndLatePublishesTwice` | ironqueue/src/sweeper.rs:301-325 | a run of ten steps that breaks both conditions and publishes twice |
| `CronPublish.CronTables.ScheduleCron` | ironqueue/src/database.rs:1720-1965 | whenever the schedule is due and the searches answer, the most recent occurrence is published exactly when its policy still allows it, it is unclaimed and nothing is held; otherwise the tables move on or stay; undisturbed it never publishes twice |
| `Throttle.AuthThrottle.MakeRoom` | ironqueue/src/dashboard.rs:2302-2324 | leaves room for one, by nothing, by dropping the full buckets, or by evicting one fullest bucket and reporting what it had |
| `Throttle.AuthThrottle.Spend` | ironqueue/src/dashboard.rs:2247-2264 | the new buckets and the answer, with the map within its bound |
| `Throttle.Fullest` | ironqueue/src/dashboard.rs:2315-2318 | finds a bucket no other exceeds |
| `Throttle.RefillIsInvisible` | ironqueue/src/dashboard.rs:2221-2238 | refilling at any time, any number of times, changes no later level of the ideal continuously filling bucket, and reads off its whole tokens |
| `Throttle.SpendTakesOneToken` | ironqueue/src/dashboard.rs:2247-2264 | a spend is granted exactly if the ideal bucket holds a whole token, and takes exactly that |
| `Throttle.RefundReturnsOneToken` | ironqueue/src/dashboard.rs:2274-2283 | a refund adds one token to the ideal bucket, up to the burst |
| `Throttle.SpendKeepsSound` | ironqueue/src/dashboard.rs:2247-2264 | the map never exceeds 1024 buckets and a newcomer is always granted its first comparison |
| `Throttle.NewcomerChangesNoLevel` | ironqueue/src/dashboard.rs:2302-2324 | admitting a key changes no staying bucket's level, and whoever leaves had no fewer tokens than anyone |
| `Throttle.NewcomerAddsAtMostOneToken` | ironqueue/src/dashboard.rs:2214-2219 | admitting a key into a full map raises the total tokens by at most one, and only when every bucket is empty |
| `Throttle.NewcomerStarts` | ironqueue/src/dashboard.rs:2214-2219 | a newcomer starts with a burst if there is room or some bucket is full, and otherwise with what the fullest bucket had, at least one |
| `Throttle.NewClientHasABurst` | ironqueue/src/dashboard.rs:2247-2264 | a client new to a map with room has its first sixteen comparisons granted, however fast they come |
| `Throttle.BucketLifeIsBounded` | ironqueue/src/dashboard.rs:2221-2283 | over one bucket's life net granted comparisons are at most its starting tokens plus elapsed time over the refill interval, whatever other clients do |
| `Throttle.GuessesAreBounded` | ironqueue/src/dashboard.rs:2247-2324 | over any run of the whole throttle net granted comparisons are bounded by the starting levels, one per interval for each of 1024 buckets, a burst per key that arrived with room and a single one per key that arrived without |
| `WakeupThrottle.OneWinnerPerWindow` | ironqueue/src/database.rs:1144-1161 | however threads interleave in the compare-and-swap loop winners are a window apart, and a thread is refused only if some winner's window covers it |
| `WakeupThrottle.FreeSlotIsTaken` | ironqueue/src/database.rs:1144-1161 | a thread no winner's window covers wins with its first undisturbed turn, and looks again after a disturbed one |
| `Backoff.ExponentialDelayBound` | ironqueue/src/job.rs:168-178 | the loop with early exit is min(cap, 100 years, base times 2^(attempts-1)) for every base and attempt count |
| `Backoff.ExponentCapIsInvisible` | ironqueue/src/job.rs:168-178 | the exponent cap of 63 never changes the answer |
| `Backoff.BoundIsMonotone` | ironqueue/src/job.rs:168-178 | the bound never falls as attempts grow and never exceeds 100 years |
| `Backoff.DelaysDouble` | ironqueue/src/job.rs:168-178 | the first retry waits the base, each further one twice as long, under 100 years and the cap |

## Left out

- Pools, connections, migrations, query plans, leadership locking and failed-pass counting: plumbing around sqlx and PostgreSQL.
- The dashboard's HTTP server, sessions and login flow, and the macro's token transforms: I/O, UI and compiler spans.
- The worker's runtime loops: a worker appears only through the statements it can send.
- The `cronexpr` parser and calendar: a schedule is a set of minute-aligned seconds that repeats every 146097 days, behind a lookup that is exact on a window of at least four times 365 days.
- Payload, meta, backoff columns, statistics and the wake-up notification payload: no guard reads them. Retry jitter is a parameter of the step.
- Row order within a batch (ORDER BY, LIMIT, SKIP LOCKED): which rows a claim, purge or scan picks is arbitrary, so the theorems hold for every order.
- Foreign SQL writers: only in the batch enqueue, where they may change anything between the holder read and the insert.
- The unleased, test-only claim: every claim here passes the intake gate.
- Loss of the notification connection and a failed awaited mark: the waiter then relies on its polling interval, which is not modelled.
- Cron revisions and conflicting definitions: runs are for one fixed expression, and a registration may change only the policy.
- Lock poisoning of the in-memory maps: every call finds its lock.
- Calls to the clock that go backwards: clocks are monotone, as `Instant` and one database server's clock are taken to be.
- SweepPass.Sweeper.Pass: states recovery for a pass without interference and with room in its batches, because another writer may move the row on or lock it.
- CronPublish.SkipCatchUpIsCursorFree: past the search headroom, the last four years a timestamp can represent, only that what is published is right, because the backward search may stop short there.
