# Verified model of the distributed task scheduler

A Dafny model of the scheduler's Redis queue, TTL lock, cron engine, retry engine, worker and job
table, with proofs of what the protocol among them guarantees and of where it stops guaranteeing it.
`dafny verify dfyconfig.toml` checks everything.

## How the model is laid out

| file | content |
|---|---|
| `Jobs.dfy` | job record, statuses, validation, 64-bit retry delay |
| `SortedSet.dfy` | Redis sorted sets and their range order |
| `QueueModel.dfy` | each queue operation on a value, and how it moves copies of a key between places |
| `Effects.dfy` | what a whole reclaim or move call leaves behind, and the count it returns |
| `Pipeline.dfy`, `RedisQueue.dfy` | the mover's pipeline, and the queue object whose methods carry out those operations |
| `ReadyOrder.dfy` | the ten ready lists against one stable priority queue; rank of an entry |
| `Protocol.dfy`, `ProtocolFrame.dfy` | the queue in use as one state machine: submit, manual retry, dequeue, ack, nack, crash, move, reclaim, expiry, clock |
| `Delivery.dfy`, `LeaseSafety.dfy`, `RetryBudget.dfy`, `Records.dfy`, `Batches.dfy` | what holds in every run of that machine |
| `Commands.dfy`, `CrashPoints.dfy` | the queue operations command by command, stopped after any command, and when each single command is safe |
| `Interleaving.dfy`, `Uninterrupted.dfy`, `LosingRuns.dfy` | the commands of any number of clients between one another: what keeps every job within reach, and the runs that lose or double one |
| `Tokens.dfy`, `OneDelivery.dfy` | the same interleavings the other way round: what keeps every key to one entry, and every job to one delivery |
| `SoloStore.dfy`, `Scenes.dfy` | a store with one job; runs of the protocol that show what each premise is for |
| `LockModel.dfy`, `LockRuns.dfy`, `AutoExtend.dfy` | the lock, interleavings of any number of clients, the auto-extender |
| `Mover.dfy`, `MoverAlone.dfy` | any number of schedulers moving delayed jobs under the lock, one Redis command at a time |
| `Calendar.dfy`, `Text.dfy`, `CronField.dfy`, `FieldText.dfy`, `Cron.dfy`, `CronWindow.dfy`, `CronRuns.dfy`, `LeapDayRuns.dfy`, `Crontab.dfy` | calendar, string functions, field matcher on field trees and on every text, search, search window, firing loop, what becomes of 29 February, the day rule of the crontab standard |
| `Retry.dfy`, `Breaker.dfy` | backoff and retry loop, circuit breaker |
| `Store.dfy`, `Worker.dfy`, `AgreementModel.dfy`, `Agreement.dfy`, `OverlappingRetries.dfy` | jobs table with its history trigger, the worker's calls, queue and table together, two manual retries at once |

Objects of the source that change in place are classes (`RedisQueue`, `RedisLocker`, `JobStore`,
`Pool`, `Core`, `CircuitBreaker`); each method is proved equal to a function on values, and the
theorems over whole runs are about those functions.

## Assumptions

- One clock, read in whole milliseconds, serves clients and Redis (the lock's auto-extender and the cron
  engine use nanoseconds). At a finer resolution a lease can be reclaimed, and a job released, less than
  one millisecond early, because the code truncates to milliseconds.
- A failed read of a job's data means that the key is absent. The code drops the entry on any other read
  error too (`internal/queue/redis.go:457-463`, `:612-617`).
- In `Protocol.dfy` a queue method handles one key atomically, and two passes of the reclaimer, or of the
  mover, do not overlap; other operations may come between the keys of a pass. `Mover.dfy` drops this for
  the delayed mover, which holds a lock, and `Interleaving.dfy` and the files built on it drop it for every
  operation and client.
- In `Interleaving.dfy` each dequeue and each submission is one script, and every other operation reads
  first and then sends its commands one at a time, in any interleaving with the others.
- Tokens and job ids are fresh; jitter is any value in its range; a handler is any success, failure, panic
  or timeout, and may leave the job record changed in any way (`Worker.Pool.ExecuteJob`).
- Data keys may expire at any moment, which covers every TTL.
- Redis drops a lock key when its clock has passed the expiry time; a non-positive `PX` is an error and a
  non-positive `PEXPIRE` deletes the key.

## Where the code departs from its documentation

- The worker never sets a job's status to `failed` before Nack, so Nack dead-letters on the first failure,
  whatever the retry budget (`LeaseSafety.NackAlwaysDeadLetters`).
- After Nack the worker always writes `dead_letter` to the table, even when Nack queued a retry, because
  Nack has reset the status that the worker then looks at (`Worker.Pool.HandleJobError`).
- Nack's retry branch leaves the lease in place (`Scenes.RetryingNackDoubles`).
- A lease lasts 125 s, while validation allows handlers an hour; a slower handler's job ends up both
  waiting and dead-lettered (`Scenes.SlowHandlerDoubles`).
- Reclaiming increments the retry count without a guard and takes no lock: two overlapping passes queue a
  job twice (`LosingRuns.OverlappingReclaimsDouble`).
- Reclaiming is said to prevent job loss, and can cause it. It ends the old lease in a round trip of its own
  after it has requeued the job, and all goroutines of a pool dequeue under one worker id
  (`internal/worker/pool.go:55`, `:195`). If that pool takes the job in between, the new lease is removed and
  the job is stored but in no list and no set (`LosingRuns.ReclaimRaceLoses`); the removal of an in-flight set
  that was found empty does the same to whatever was dequeued since (`LosingRuns.CleanupRaceLoses`).
- The retry budget is per submission and per manual retry only when the retried job is idle. RetryJob does
  not see whether it is: after every failure the row says `dead_letter`, also while the job waits, so one
  manual retry can lead to 2 * maxRetries + 3 dequeues (`Scenes.BusyRetryExceedsBudget`).
- RetryJob checks and updates the row in separate calls, so two of them queue the job twice
  (`OverlappingRetries.OverlappingRetriesDisagree`).
- Requeue ignores the retry time it has just computed, so `NeverEarly` speaks of first entries only.
- The retry delay and the policy cap wrap around in 64 bits (`Jobs.RetryDelayWrapsAt31`, `Retry.CapHoldsIff`).
- The lock is a single-instance lock, not Redlock, and is modelled as such.
- Day of month and day of week are always combined with "and". The crontab utility of IEEE Std 1003.1-2017
  (INPUT FILES) takes either of them when both are restricted. `Crontab.AgreesWithCrontabIff` says exactly for
  which fields the two agree, and `Crontab.FailingMinute` gives a minute at which they differ for all others.
- A range inside a list, as in "9-17,20", is no number and matches nothing (`FieldText.RangeInList`); the same
  standard allows it.
- A step field counts multiples of the step, which are offsets from the field's minimum exactly when the
  minimum is one of them (`Crontab.StepsAreOffsetsIff`): never for a day or month step of two or more. A zero
  step panics.
- The circuit breaker stays open after a success that overlapped the failure which opened it
  (`Breaker.OverlapDisagrees`).
- 29 February is found in some years only (`CronWindow.LeapDayFound`), and its definition then fires on every
  tick for years (`LeapDayRuns.LeapDayFiresEveryTick`).
- `running` to `dead_letter` and terminal to `pending` occur in the history although `CanTransitionTo`
  forbids both (`Agreement.HistoryOfRuns`, `Agreement.DeclaredTransitions`).
- An update without an error message clears the stored one, because the empty text is not null.

## Model

| member | source | states |
|---|---|---|
| Jobs.NewJob | internal/models/job.go:161-190 | the defaults with the options applied in order, then validated: created exactly with a type and priority, retries and timeout in range; what comes out is pending, unretried and created now |
| Jobs.OptionsDecide | internal/models/job.go:161-270 | each field is what the last option for it says, or priority 5, three retries, 30 s, due now, no expression |
| Jobs.JitterIs | internal/models/job.go:219 | the jitter is the leading 32 bits of the id modulo 1000 ms |
| Jobs.RetryDelayExact | internal/models/job.go:214-221 | the 64-bit delay equals 5 s * 2^k + jitter if and only if k <= 30, and is then positive and within int64 |
| Jobs.RetryDelayGrows | internal/models/job.go:214-221 | the delay strictly grows with the retry count up to 30, across any two jobs |
| Jobs.RetryDelayWrapsAt31 | internal/models/job.go:217 | at 31 the product wraps and the next retry time lies in the past |
| Jobs.ValidatedRetriesAreExact | internal/models/job.go:193-221 | every validated job within its budget gets the exact delay, later than now |
| SortedSet.RangeListing | internal/queue/redis.go:437-442 | a score range lists exactly the members in it, once each, by (score, member) |
| QueueModel.EnqueuePlaces | internal/queue/redis.go:43-63 | adds exactly one copy, in the job's ready list if due, else in the delayed set; nothing else moves |
| QueueModel.LeasePlaces | internal/queue/redis.go:65-88 | a dequeue moves exactly one copy from a ready list to the worker's in-flight set |
| QueueModel.DequeueAnswers | internal/queue/redis.go:65-88 | the answer is empty exactly when all ten lists are; else it is the stored record of the very key that left the first non-empty list as its oldest entry and was leased until now + timeout, or missing exactly when that key has no data |
| QueueModel.AcknowledgePlaces | internal/queue/redis.go:329-347 | removes the worker's lease and no other copy |
| QueueModel.RequeuePlaces | internal/queue/redis.go:354-377 | adds exactly one copy to the job's ready list, whatever its schedule |
| QueueModel.NackDeadPlaces | internal/queue/redis.go:398-425 | a final nack ends the lease and adds one dead-letter copy; nothing else moves |
| QueueModel.MoveOnePlaces | internal/queue/redis.go:454-480 | a due key goes from the delayed set to its ready list if it has data, and is dropped otherwise |
| QueueModel.ReclaimOnePlaces | internal/queue/redis.go:609-645 | an expired lease with data goes back to its ready list, one without is dropped |
| Effects.ReclaimOneEffect | internal/queue/redis.go:609-645 | the stored record has one retry more, is pending without worker, due at the retry time of the new count, and is otherwise as before |
| Effects.ReclaimOrphanedEffect | internal/queue/redis.go:585-666 | for every scan order, exactly the expired leases of the scanned workers are gone, every job with data waits once more per lease with as many retries more, and the count returned is the number of leases that went back |
| Effects.MoveDelayedEffect | internal/queue/redis.go:433-494 | the earliest due keys up to the batch size leave the delayed set, those with data join their list once each, nothing else changes, and the count returned is the number of entries gained |
| RedisQueueObject.RedisQueue.Enqueue | internal/queue/redis.go:43-63 | the record is stored, and its key pushed to its list if due, else scored with its schedule |
| RedisQueueObject.RedisQueue.Dequeue | internal/queue/redis.go:65-88 | the loop over the ten lists leases the oldest entry of the first non-empty one and answers with the record of that key, missing data or empty |
| RedisQueueObject.RedisQueue.Acknowledge | internal/queue/redis.go:329-347 | deletes the data and the worker's lease |
| RedisQueueObject.RedisQueue.Requeue | internal/queue/redis.go:354-377 | stores the record and pushes its key to the ready list |
| RedisQueueObject.RedisQueue.Nack | internal/queue/redis.go:384-425 | a failed job with retries left is stored pending with one retry more, its message and its retry time, and waits; any other is stored dead_letter with its message, listed and unleased; nothing else changes |
| RedisQueueObject.RedisQueue.MoveDelayed | internal/queue/redis.go:433-494 | scan, reads and pipeline together have that effect and return that count |
| RedisQueueObject.RedisQueue.ReclaimOrphaned | internal/queue/redis.go:585-666 | so do the nested loops over the scanned workers and their expired leases |
| RedisQueueObject.RedisQueue.ReclaimOne | internal/queue/redis.go:609-645 | one lease: the record with one retry more, pending, without worker and due at the new retry time is stored and queued, the lease removed |
| Pipeline.PipelineMoves | internal/queue/redis.go:451-482 | reading first and executing the pipeline afterwards equals moving the keys one by one |
| ReadyOrder.StepRefines | internal/queue/redis.go:65-88 | each push or pop on the ten lists is the step of one stable queue, and hands out the same record |
| ReadyOrder.ListsAreOneStableQueue | internal/queue/redis.go:43-88 | over any sequence of pushes and pops the caller gets the records of a queue yielding the least (priority, push order) |
| ReadyOrder.FromTheEmptyStore | internal/queue/redis.go:43-88 | so from empty lists on, with any records stored |
| ReadyOrder.DequeueLowersRank | internal/queue/redis.go:74-86 | an entry of rank 0 is delivered by the next dequeue, any other's rank falls by exactly one |
| ReadyOrder.RankFalls | internal/queue/redis.go:43-88 | while nothing is pushed at a higher priority, the rank falls by one per dequeue |
| ReadyOrder.DeliveredAtRank | internal/queue/redis.go:43-88 | the entry is delivered by exactly the (rank + 1)-th dequeue |
| Delivery.NoLoss | internal/queue/redis.go:43-88 | in every reachable state, after crashes and expiries, every key with data is in some list or set |
| Delivery.NeverEarly | internal/queue/redis.go:56-61 | no job's first entry to a ready list, and so no delivery, precedes its schedule |
| Delivery.RetryCountBounded | internal/queue/redis.go:384-396 | a stored retry count is at most the job's limit plus its reclaims |
| Records.ReclaimsAreCounted | internal/queue/redis.go:630 | in every run without nacks and manual retries a stored retry count is exactly the number of reclaims |
| Records.TaskIsKept | internal/queue/redis.go:329-645 | in every run the stored record and the job in any worker's hands have the id, type, payload, priority, limits, expression and creation time of the submission |
| LeaseSafety.NackAlwaysDeadLetters | internal/worker/pool.go:344-366 | in every run where handlers keep the status, no stored job is failed or running and the worker's nack dead-letters, with retries left or not |
| LeaseSafety.FreshNotReclaimable | internal/scheduler/scheduler.go:429-430 | a lease taken at t is not reclaimable before t + 5 s + 2 min |
| LeaseSafety.ExactlyOnePlace | internal/queue/redis.go:585-666 | if every answer that is sent lands within 125 s, crashes included, each key with data is in exactly one place and is popped at most once more than it was reclaimed |
| LeaseSafety.DeliveredAtMostOnce | internal/worker/pool.go:193-222 | if moreover every delivery is answered, nothing stored is reclaimed and each job is dequeued at most once |
| LeaseSafety.UniqueFail | internal/queue/redis.go:384-425 | a nack within 125 s keeps its job in one place if and only if it dead-letters |
| LeaseSafety.LateNackDuplicates | internal/queue/redis.go:398-412 | in every state in which a held job waits again, a nack leaves it waiting and dead-lettered |
| Scenes.RetryingNackDoubles | internal/queue/redis.go:388-396 | run from the start for every new due job with retries: submit, dequeue, a failure marked failed; the job waits and is leased, whatever the other premises |
| LosingRuns.OverlappingReclaimsDouble | internal/queue/redis.go:598-645 | run from the empty store for every new due job: two reclaimers read the same lease before either ends it, and the job waits twice |
| LeaseSafety.SlowHandlerDuplicates | internal/models/job.go:203-205 | in every state, from 125 s on, a delivery that still has its lease can be reclaimed, and the answer then duplicates |
| Scenes.SlowHandlerDoubles | internal/scheduler/scheduler.go:429-430 | run from the start for every new due job: submit, dequeue, 125 s, reclaim, failure; the job waits and is dead-lettered, with only promptness given up |
| RetryBudget.DequeuesBounded | internal/queue/redis.go:384-396 | without reclaims a job is dequeued at most (1 + manual retries) * (maxRetries + 1) times, even when handlers mark it failed, if every manual retry finds it idle; maxRetries + 1 times without manual retries |
| RetryBudget.OncePerRetry | internal/scheduler/scheduler.go:321-348 | without reclaims and with handlers that keep the status, at most 1 + manual retries dequeues, however they overlap |
| RetryBudget.TurnRetry | internal/scheduler/scheduler.go:321-348 | a manual retry keeps the account behind that bound if and only if it finds the job idle |
| Scenes.BusyRetryExceedsBudget | internal/worker/pool.go:359-369 | run from the start for every new due job with retries: one manual retry while the job waits leads to 2 * maxRetries + 3 dequeues, more than two lives allow |
| Batches.MoveDelayedIsRun | internal/queue/redis.go:433-494 | one MoveDelayed call is a run of single-key moves of the protocol |
| Batches.ReclaimIsRun | internal/queue/redis.go:585-666 | one ReclaimOrphaned call is a run of single-lease reclaims, in any scan order |
| Batches.ReclaimReturns | internal/queue/redis.go:597-645 | a reclaim at or after score plus maxAge returns the leased job to a ready list and ends the lease |
| Batches.LeasedComesBack | internal/scheduler/scheduler.go:429-439 | the same in every reachable state with the scheduler's two minutes; the score is at most 5 s ahead of the clock |
| Batches.DrainProgress | internal/queue/redis.go:433-494 | n calls with batch b at a fixed time move exactly the first n*b due keys, each list receiving them in due-time order |
| Batches.DrainedAfter | internal/queue/redis.go:433-494 | nothing is due any more exactly from call ceil(n/b) on |
| CrashPoints.CommandsAreOperation | internal/queue/redis.go:329-425 | the commands of an acknowledge, nack, move or reclaim, in order, make up the operation |
| CrashPoints.EveryStopIsSafe | internal/queue/redis.go:329-494 | whichever command a client stops after, with no other client acting meanwhile, every stored job is still in some list or set; a nack needs only that its job is somewhere |
| CrashPoints.StopAfterSetIff | internal/queue/redis.go:363-365 | storing a record puts it out of reach if and only if its key was in no list and no set |
| CrashPoints.EndLeaseIff | internal/queue/redis.go:643 | ending a lease puts a stored job out of reach if and only if it has no other entry |
| CrashPoints.UndelayIff | internal/queue/redis.go:477-478 | the same for the removal from the delayed set |
| CrashPoints.NoLossAtAnyStop | internal/queue/redis.go:329-666 | no loss in every run of operations one after another, each of which may stop after any command |
| Interleaving.InvStep | internal/queue/redis.go:329-666 | with commands of all clients interleaved, an event keeps every stored job covered if and only if it is not a dequeue under a lease about to be removed, nor a stop between store and push, of a job with no further entry |
| Interleaving.NoLossInterleaved | internal/queue/redis.go:329-666 | from the empty store, in every interleaving without these two, a stored job is always in a list or set, or its push is the next command of a client |
| Uninterrupted.AnswerAlone | internal/queue/redis.go:329-425 | in that machine an acknowledge or nack that nobody interrupts has the effect of the whole operation |
| Uninterrupted.ReclaimerAlone | internal/queue/redis.go:597-645 | so has a reclaimer, for all expired leases of a worker |
| LosingRuns.ReclaimRaceLoses | internal/queue/redis.go:635-643 | run from the empty store for every new due job: the same worker id dequeues between the reclaimer's push and its removal of the lease, and the job is stored and nowhere |
| LosingRuns.CleanupRaceLoses | internal/queue/redis.go:648-651 | run from the empty store: a dequeue between counting a worker's leases and deleting the set loses the job |
| LosingRuns.StoppedReclaimLoses | internal/queue/redis.go:609-635 | run from the empty store: a late acknowledge after the reclaimer's read, and a stop after its store, lose the job |
| Tokens.TokenStep | internal/queue/redis.go:329-666 | with commands of all clients interleaved, an event keeps every key to one entry that stays or push to come if and only if it submits a job that has none, nacks the one lease or requeues a job with none, moves or reclaims a key that is nowhere else, or stops where no second entry is left |
| Tokens.NoDoubleInterleaved | internal/queue/redis.go:329-666 | from the empty store, in every interleaving of such events, no key is in two places once all commands have landed |
| OneDelivery.DeliveredOnceInterleaved | internal/queue/redis.go:43-666 | from the empty store, with reclaimers and expiring data, no job is dequeued twice if ids are fresh, one mover works at a time, nacks dead-letter, and every answer is given once with all its commands landing within 125 s |
| LosingRuns.OverlappingMoversDouble | internal/scheduler/scheduler.go:380-403 | run from the empty store for every new delayed job: two movers at once, as after a lapsed lock, leave it waiting twice |
| LockModel.RedisLocker.Acquire | internal/lock/redis_lock.go:78-134 | succeeds if and only if the key is not live and the TTL is at least a millisecond; then this token holds it for that long; otherwise nothing changes |
| LockModel.RedisLocker.Release | internal/lock/redis_lock.go:88-157 | deletes the key if and only if this token holds it live; otherwise changes nothing |
| LockModel.RedisLocker.Extend | internal/lock/redis_lock.go:96-182 | if and only if this token holds the live key, sets the expiry to now plus the TTL, or deletes the key for a TTL below a millisecond; otherwise changes nothing |
| LockModel.RedisLocker.IsHeld | internal/lock/redis_lock.go:189-201 | true exactly when the key is live with this token |
| LockRuns.AcquiresAreSeparated | internal/lock/redis_lock.go:78-101 | in any interleaving, between two successful acquires the first holder gave up or its last set expiry had passed |
| LockRuns.AcquireWonIff | internal/lock/redis_lock.go:78-86 | in any interleaving an acquire with positive TTL is won if and only if every earlier winner of the key gave up or its last set expiry has passed |
| LockRuns.DeadStaysDead | internal/lock/redis_lock.go:88-101 | once a token is not live, its Release and Extend are refused and change nothing, for ever |
| LockRuns.ReleaseIsFinal | internal/lock/redis_lock.go:279-306 | an Extend arriving after the Release never revives the lock |
| AutoExtend.NextTickBound | internal/lock/redis_lock.go:279-300 | whichever tick comes next, dropped ticks included, its time limit ends within one TTL of the last landing |
| AutoExtend.LockIsKept | internal/lock/redis_lock.go:264-300 | with acquire latency plus tick delay below two thirds of the TTL the key is held at every moment, for any number of ticks and any other clients |
| Mover.UseRely | internal/queue/redis.go:43-425 | in every reachable state, what submitters, workers, manual retries and the reclaimer do stays within what the mover relies on |
| Mover.PlacedStep | internal/queue/redis.go:43-482 | every event keeps this: a job that is ready, leased or was handed to a worker is not delayed, or has been pushed by the mover |
| Mover.MoverSafety | internal/scheduler/scheduler.go:380-403 | any number of schedulers, command by command: one tenure at a time, pushes at most one plus the tenures cut off between push and removal, nothing with data dropped |
| Mover.NeverPushedTwice | internal/queue/redis.go:433-494 | if all commands of every tenure land before its 5 s lock lapses, no delayed job is pushed twice |
| MoverAlone.TenureIsMoveDelayed | internal/queue/redis.go:433-494 | a tenure that nobody interrupts has the effect of one MoveDelayed call |
| Calendar.AtIndex | internal/scheduler/scheduler.go:53-64 | stepping m minutes from the epoch reaches the date whose closed-form number is m |
| Calendar.IndexAt | internal/scheduler/scheduler.go:53-64 | every valid date is reached, at its closed-form number |
| Calendar.ClockAt | internal/scheduler/scheduler.go:57-64 | the time of day and the weekday of a minute are those given by arithmetic |
| Text.AtoiItoa | internal/scheduler/scheduler.go:79-115 | parsing a printed number gives it back |
| Text.SplitJoin | internal/scheduler/scheduler.go:88-100 | splitting undoes joining |
| Text.WordsJoin | internal/scheduler/scheduler.go:45-50 | splitting into fields undoes joining words with spaces |
| CronField.MatchPrinted | internal/scheduler/scheduler.go:71-116 | the matcher accepts a value of a printed field exactly when the value is in the field's set |
| FieldText.MatchFieldIff | internal/scheduler/scheduler.go:71-116 | on every text: a panic exactly on a zero step, else exactly the values the text stands for, as star, step, comma list, two numbers around one dash, or number |
| FieldText.CommaAccepts | internal/scheduler/scheduler.go:96-108 | a text with a comma that is no step accepts exactly the numbers among its trimmed parts, dash or not |
| FieldText.DashAccepts | internal/scheduler/scheduler.go:85-115 | a text with a dash and no comma that is not two numbers accepts exactly its own number, if it is one |
| FieldText.RangeInList | internal/scheduler/scheduler.go:85-108 | "a-b,c" accepts c alone |
| FieldText.TextSchedule | internal/scheduler/scheduler.go:44-116 | for any five texts without a zero step the result is the earliest minute of the window that all five accept, and there is no panic |
| FieldText.AtoiIff | internal/scheduler/scheduler.go:79-115 | a text parses as v exactly when it is v printed, behind zeros and an optional sign, and v fits in 64 bits |
| FieldText.SplitParts | internal/scheduler/scheduler.go:88-100 | splitting cuts at every separator and only there |
| FieldText.WordsCut | internal/scheduler/scheduler.go:45-50 | each white space character separates fields |
| FieldText.TrimParts | internal/scheduler/scheduler.go:101 | trimming removes all white space at both ends and nothing else |
| CronField.FieldsRoundTrip | internal/scheduler/scheduler.go:45-50 | printed fields joined with spaces split back into the same fields |
| Cron.ParseCron | internal/scheduler/scheduler.go:44-68 | the loop returns the result of the search: a matching minute boundary strictly after `from`, every boundary in between saying no |
| Cron.FindMinute | internal/scheduler/scheduler.go:53-65 | walking the calendar minute by minute visits exactly the window |
| Cron.EarliestMatch | internal/scheduler/scheduler.go:44-68 | a result is exactly the earliest match in the window; an error exactly a wrong field count or no match; a panic exactly a zero step met first |
| CronWindow.PrintedSchedule | internal/scheduler/scheduler.go:44-116 | for printed expressions the result is the earliest minute whose values are in the five sets, and there is no panic |
| CronWindow.YearlyAlwaysFound | internal/scheduler/scheduler.go:53-67 | from every start, every date that exists each year is found within the 366 days |
| CronWindow.YearlyAdvances | internal/scheduler/scheduler.go:53-67 | from one occurrence the search finds the next year's |
| CronWindow.WindowIsTight | internal/scheduler/scheduler.go:54-56 | 1 March to 1 March uses the whole window exactly when the second year is a leap year |
| CronWindow.LeapDayFound | internal/scheduler/scheduler.go:53-67 | 29 February is found if and only if this year or the next is a leap year and its 29 February lies ahead within 366 days |
| Crontab.EveryDateEveryWeekday | internal/scheduler/scheduler.go:57-61 | every date, 29 February included, falls on every weekday in some year |
| Crontab.AgreesWithCrontabIff | internal/scheduler/scheduler.go:57-61 | the scheduler fires at the standard's minutes if and only if no time of day matches, date and weekday are not both restricted, or the fields take in every date and weekday or none |
| Crontab.FailingMinute | internal/scheduler/scheduler.go:57-61 | for all other fields, a minute at which the standard fires and the scheduler does not |
| Crontab.FindsCrontabMinute | internal/scheduler/scheduler.go:44-68 | where they agree, ParseCron returns exactly the standard's next minute in its window |
| Crontab.StepsAreOffsetsIff | internal/scheduler/scheduler.go:78-84 | multiples of a step are offsets from the field's minimum if and only if the minimum is a multiple |
| CronRuns.Core.RegisterCronJob | internal/scheduler/scheduler.go:543-587 | registers exactly when the expression is non-empty and has a next run, the job is valid and the store accepts it; the definition's next run is the first matching minute after now |
| CronRuns.RequestedJob | internal/scheduler/scheduler.go:555-565 | job validation accepts exactly the requests with a type and priority, retries and timeout in range, and the job has the fields of the request |
| CronRuns.Core.ScheduleCronInstance | internal/scheduler/scheduler.go:488-540 | fires when persisted and enqueued; when ParseCron succeeds the new next run is the first matching minute after the parse |
| CronRuns.TurnFiresIff | internal/scheduler/scheduler.go:479-521 | a turn fires, for the definition's minute, if and only if that minute has passed and both calls succeed |
| CronRuns.Core.ProcessCronJobs | internal/scheduler/scheduler.go:465-485 | one tick gives every definition its turn |
| CronRuns.EveryTurnTaken | internal/scheduler/scheduler.go:465-485 | in whatever order the map is walked, what becomes of a definition in a tick is what its own turn makes of it |
| CronRuns.InstancesOncePerMinute | internal/scheduler/scheduler.go:465-540 | in every run the next run matches, and instances of a definition are for strictly increasing matching minutes, each fired after its minute |
| CronRuns.NoneSkipped | internal/scheduler/scheduler.go:465-587 | in every run each instance, and each next run, is for the first matching minute after the last parse, by the firing before or at the registration |
| CronRuns.NoneBetweenFirings | internal/scheduler/scheduler.go:523-532 | no matching minute lies between the parse of one firing and the minute of the next |
| CronRuns.NextRunIncreases | internal/scheduler/scheduler.go:479-532 | over every stretch of a run a definition's next run strictly increases if it fired, and is unchanged otherwise |
| CronRuns.AdvancesIffParsed | internal/scheduler/scheduler.go:523-532 | a definition that fired advances if and only if ParseCron succeeded |
| CronRuns.StuckFiresEveryTick | internal/scheduler/scheduler.go:523-530 | otherwise every later tick fires it again for the same minute, for any number of ticks |
| LeapDayRuns.LeapDayFiresEveryTick | internal/scheduler/scheduler.go:465-540 | run from the start: a 29 February definition registered within 366 days before its day fires on every tick after it, always for that day's minute, while the next 29 February is out of reach |
| LeapDayRuns.GapLasts | internal/scheduler/scheduler.go:53-67 | which is so at least to the end of the second year after the leap year |
| LeapDayRuns.LeapDayRecovers | internal/scheduler/scheduler.go:523-532 | the first tick that has a 29 February within 366 days moves the definition there |
| CronRuns.YearlyRecurs | internal/scheduler/scheduler.go:53-67 | every date that exists each year has a match in every search window |
| Retry.Execute | internal/retry/retry.go:205-245 | calls up to the first success, first non-retryable error, cancelled wait or maxRetries + 1, with the matching result and the total of the requested waits |
| Retry.ExecutesUnique | internal/retry/retry.go:205-245 | number of calls and result are determined by what the function returns |
| Retry.NilIffLastSucceeded | internal/retry/retry.go:205-245 | nil exactly when the last call succeeded, and no earlier call did |
| Retry.BackoffExact | internal/retry/retry.go:142-158 | while nothing overflows the delay is the smaller of base*2^a and the cap, plus the draw if there is a jitter |
| Retry.TotalWaitExact | internal/retry/retry.go:142-245 | and n waits request exactly the sum of these |
| Retry.TotalWaitBound | internal/retry/retry.go:142-158 | n waits total at most min(base*(2^n - 1), n*maxDelay) + n*maxJitter while base*2^(n-1) fits in int64, also where delay plus jitter overflows |
| Retry.ExecuteWaitBound | internal/retry/retry.go:205-245 | so does every execution, with n = maxRetries |
| Retry.CapHoldsIff | internal/retry/retry.go:142-149 | the cap is respected exactly when the product fits in int64 or its wrapped value still reaches the cap |
| Retry.DefaultPolicyWraps | internal/retry/retry.go:142-149 | with the default delays attempt 31 gets a negative delay |
| Breaker.CircuitBreaker.TryAllow | internal/retry/retry.go:322-344 | closed and half-open let calls through, open only after the timeout; a contended call is refused |
| Breaker.CircuitBreaker.RecordSuccess | internal/retry/retry.go:347-359 | resets the counter, closes a half-open breaker |
| Breaker.CircuitBreaker.RecordFailure | internal/retry/retry.go:362-381 | counts, stamps, opens at the threshold |
| Breaker.CounterIsSuffix | internal/retry/retry.go:347-381 | the counter is the failure-only suffix of the recorded outcomes, in any use |
| Breaker.BreakerRefinesLog | internal/retry/retry.go:322-381 | used sequentially, closed exactly when that suffix is shorter than the threshold, and then every call is let through; open lets through exactly after the timeout |
| Breaker.ProbesAreNotLimited | internal/retry/retry.go:322-381 | after the timeout calls are let through until an outcome is recorded; a success then closes the breaker, a failure at the threshold opens it |
| Breaker.SuccessWhileOpen | internal/retry/retry.go:347-359 | a recorded success keeps that agreement if and only if the breaker was not open |
| Breaker.OverlapDisagrees | internal/retry/retry.go:322-381 | run from a new breaker with any threshold: two overlapping calls, one failing and one succeeding, leave it open with a success last |
| Store.JobStore.Insert | internal/store/postgres.go:196-231 | inserts the row unless a range check fails or the id exists, and then changes nothing |
| Store.JobStore.Update | internal/store/postgres.go:283-322 | column by column: given worker id and times replace, others stay, the error text is always replaced, task and counters stay; a history row with both statuses exactly when the status changed; no other row changes |
| Store.JobStore.Delete | internal/store/postgres.go:329-343 | removes the row and, by cascade, exactly its history |
| Store.HistoryIsChain | migrations/001_init.sql:169-192 | however rows are created, updated and deleted, each job's history is an unbroken chain from pending to its status without self-loops |
| Worker.Pool.HandleJobSuccess | internal/worker/pool.go:309-341 | acknowledge, then completed |
| Worker.Pool.HandleJobError | internal/worker/pool.go:344-390 | nack, then dead_letter in every case |
| Worker.Pool.ExecuteJob | internal/worker/pool.go:230-302 | whatever record the handler leaves: acknowledged and completed on success; on failure the row is dead_letter, and the job is dead-lettered or, when left failed with retries to spare, waiting again under its old lease; the row has the start time and the worker, a completion time and no error on success, the error on failure |
| Agreement.QueueAndTableAgree | internal/worker/pool.go:230-378 | in every run, with crashes, expiries, reclaims, deletions and handlers that change the status, the row of every job these did not befall has the status its place in the queue implies if and only if no call sequence on it is half done |
| Agreement.InvStep | internal/scheduler/scheduler.go:321-348 | every event keeps what this rests on, if and only if it is not a manual retry started beside another call sequence on its job |
| Agreement.CrashAgreesIff | internal/worker/pool.go:230-378 | a crash leaves row and place in agreement if and only if the actor was executing the handler or had only read the row |
| Agreement.LapseAgreesIff | internal/queue/redis.go:410 | data that expires while no call sequence is half done ends the agreement if and only if the job is dead-lettered |
| Agreement.ReclaimAgreesIff | internal/queue/redis.go:609-645 | after a worker's crash and the reclaim of its lease they agree if and only if the row was not yet marked running |
| Agreement.FailureAgreesIff | internal/worker/pool.go:344-378 | after a failing handler and both calls of the worker they agree if and only if Nack dead-lettered |
| Agreement.RetryStores | internal/scheduler/scheduler.go:321-348 | a manual retry stores and queues the row's task with retry count zero, pending, no error, no worker, due now |
| Agreement.HistoryOfRuns | migrations/001_init.sql:169-192 | in every such run each history is an unbroken chain, made of exactly five transitions unless the job was reclaimed, deleted or requeued by a nack |
| Agreement.DeclaredTransitions | internal/models/job.go:80-96 | of those, `CanTransitionTo` allows only pending to running and running to completed |
| OverlappingRetries.OverlappingRetriesDisagree | internal/scheduler/scheduler.go:321-348 | run from the start for every new due job: two RetryJob calls that both pass the terminal check queue it twice, and after the next dequeue the row says running while the job waits |

## Left out

- HTTP API, process start-up, metrics, logging, heartbeats and graceful shutdown: they decide nothing modelled here.
- JSON encoding, script caching fallbacks and connection errors: job data are typed values and calls succeed.
- GetDLQ, QueueDepth, listing, paging and statistics: plain reads.
- TryAcquire: a loop around Acquire; its safety is that of the command interleavings in `LockRuns`.
- ExecuteWithResult and ShouldRetry: the same loop as Execute, and two comparisons.
- SQL nulls of the cron columns and the `updated_at` trigger.
- Worker poll interval and its backoff.
- SubmitJob's cron branch and job payload fields: a submitted job with an expression is queued like any other.
- Interleaving.NoLossInterleaved: says nothing of runs that break one of its two premises, beyond the losing runs above; the code enforces neither premise.
- OneDelivery.DeliveredOnceInterleaved: its premises are the code's environment, not enforced by it; `Tokens.TokenStep` says what each of them is for.
- Agreement.QueueAndTableAgree: says nothing of a job that was itself crashed on, reclaimed, deleted, requeued by a nack or left without data, beyond the four conditions above; calls that fail are not modelled, and manual retries of one job do not overlap.
- Jobs.NewJob: no `updated_at`, which the table rewrites on every update and nothing reads.
- Protocol steps of the cron loop: a cron instance enters the queue as a submission.
