# A verified model of the job scheduler

The scheduler keeps job documents in MongoDB, due times in five Redis sorted sets, and a leader lock and
heartbeat in Redis. One elected instance polls the sorted sets and hands due job ids to executors; an
executor claims a job by a compare-and-set on status and version, runs a handler and closes the job with a
second compare-and-set. A watchdog resets jobs that have been running too long, exhausted jobs get a dead
letter and an outbox event in one transaction, and an outbox poller publishes the events.

The model follows that design at two levels.

* **Classes** for the parts of the program that change state in place (`JobRepository`, `RedisJobQueue`,
  `DeadLetterService`, `RetryService`, `JobExecutor`, `PollLoop`, `OutboxPoller`, `JobService`,
  `RedlockElection`, `LeaderElectionService`, `HeartbeatWatchdog`). Each method is proved against a function
  of the old state, and the lemmas are about those functions.
* **Transition systems** in which one action is one Mongo or Redis command landing, so that every `await` is
  a point where any number of instances interleave: `Scheduler` (enqueues, cancels, pollers, executors,
  watchdogs), `PollChains` (overlapping ticks, settling batches, restarts), `ElectionSafety` (lock commands and
  their answers as separate steps) and `OutboxPollers` (several pollers on stale snapshots). A crash is a
  task that never moves again.

The two levels are tied together. Whatever throws, `JobExecutor.Execute` performs a run of the `Scheduler`
system by its own task; one `Tick` of the poll loop is a tick of a chain in `PollChains`; one `Flush` of the
outbox poller is a run of `OutboxPollers` by its own poller; and one `WatchTick` of the election is a run of
`ElectionSafety` by its own instance. `Services` does the same for enqueueing, cancelling, dequeueing and the
watchdog's reset.

Where a method is proved against a function, its contract also says what the result is without that function,
in the constants of the source: `FailureRight`, `ExecutionRight`, `SentOldest`, `TickRight`, `EarliestTaken`,
`EarliestDispatched`, `AsRequested`, `IsId`.

`Scheduler` carries the distance k between the version a claim returned and the token of its closing write
as a parameter. The executor passes one more than the version it was given, so the code is k = 1; k = 0 is
the evident intent. Theorems say for which k they hold.

| file | component |
|---|---|
| `Types.dfy`, `Jobs.dfy`, `Lifecycle.dfy` | the job document, its writes, and what any history of landed writes does to it |
| `SortedSets.dfy`, `JobQueue.dfy` | Redis sorted sets and the due queue |
| `DeadLetters.dfy` | dead letters and their outbox events |
| `Scheduler.dfy`, `Invariants.dfy`, `Theorems.dfy` | the transition system, its invariant, the safety theorems |
| `Stranding.dfy`, `EarlyTimes.dfy`, `Dispatching.dfy` | which pending jobs can still be claimed, and when an id is handed out twice |
| `Witness.dfy` | runs that show what is not guaranteed |
| `Execution.dfy`, `Watchdog.dfy`, `JobDefinitions.dfy`, `Services.dfy` | executor and retry, watchdog, idempotency keys and the job service, and these as runs of the transition system |
| `PollLoop.dfy`, `PollChains.dfy` | one tick of the poll loop, and chains of ticks |
| `Outbox.dfy`, `OutboxPollers.dfy` | one poller and its flush bound; many pollers |
| `Election.dfy`, `ElectionSafety.dfy` | lease, watch tick and failover bound; mutual exclusion |

`dafny verify dfyconfig.toml` checks everything.

## Where the code and what is said about it differ

The model follows the code. Each remark names the lemmas that prove it.

* The executor closes with `claimed.version + 1` although `claimJob` already returns the incremented document
  (src/domains/execution/job-executor.ts:57, 125). For every k, completing or failing lands exactly when the
  last event on the job is a claim that consumed the version k above the execution's own
  (`ClosingLandsExactly`). So with the returned version as token an execution closes exactly its own,
  undisturbed claim (`IntendedTokenIsExact`); with the code's token it closes exactly the running claim of the
  execution that came next (`AnothersClaimClosedExactly`, reached in `StaleExecutionCompletesAnother`), and a
  job that is claimed and never reset stays running (`ClaimedStaysRunning`).
* `markDead` filters on the version only (src/domains/job/job.repository.ts:166). It lands exactly when k
  versioned writes have landed since the claim (`BurialLandsExactly`), and overwrites a completed or failed
  status exactly when the last of them was a completion or failure (`BurialOverwritesExactly`, reached in
  `BurialOverCompletion`). With the returned token that never happens (`IntendedBurialSparesOutcomes`).
* `handleFailure` ignores whether the burial landed (src/domains/execution/retry.service.ts:50-51), so a dead
  letter does not imply a dead job. Whatever other tasks do between the two, it does exactly when the burial
  landed, the job was dead before, or another task killed it in between (`LetterMeansDeadExactly`). With the
  code's token an exhausted execution nobody disturbs writes a letter about a running job
  (`UndisturbedLetterIsAboutRunning`, reached in `LetterWhileRunning`).
* A failed job is not retried (`TerminalForEver`), and a reset job is not put back into Redis
  (src/domains/watchdog/heartbeat-watchdog.ts:71). Without another request a pending job can still be claimed
  exactly when it is not stranded: some sorted set, the dispatcher or a task that has not fetched a stale
  version brings it to a claim (`CanClaimExactly`, for times not before 1970). A job reset after its entry was
  popped is stranded (`StrandedAfterReset`).
* A `scheduledAt` before 1970 is accepted (src/domains/job/job.validator.ts:14), but the range of due scores
  starts at zero (src/domains/scheduler/redis-job-queue.ts:72), and a further request does not move the entry
  (src/domains/scheduler/redis-job-queue.ts:41). The job of a first request can ever be claimed, even with
  further requests, exactly when its time is not before 1970 (`FirstRequestRunsExactly`); otherwise document and
  entry stay as they are until somebody cancels the job (`FrozenStays`, reached in `RequestedTooEarly`).
* The comment above `dequeue` says ZPOPMIN and atomic; the code sends ZRANGEBYSCORE and, later, ZREM, and
  ignores what ZREM removed (src/domains/scheduler/redis-job-queue.ts:55-93). Two pollers may hand out the
  same id (`HandedOutTwice`): a poller hands out an id that is gone exactly when another pop or removal took it
  between its two commands and nobody added it again (`HandedOutAgainExactly`). The version check of the claim
  is what keeps a job from running twice (`OneClaimPerVersion`).
* `reschedule` reports `updated === 1`, but ZADD XX without CH counts only added members, so it always
  reports false (src/domains/scheduler/redis-job-queue.ts:124-135; `Reschedule`).
* Two claims of one job are more than 300 000 ms apart counted from the start the first one recorded, which
  is taken before the write is sent (src/domains/job/job.repository.ts:60). Counted from landing to landing
  the bound is false: whatever delay the first claim has, `LandingsMayBeClose` is a run whose landings are
  closer by exactly that delay.
* A `start()` during a tick of a stopped loop leaves two tick chains and up to 200 active jobs
  (`RestartDuringTick`); there is one chain exactly in the runs without such a start (`OneChainExactly`). A
  `stop()` silences the loop exactly when its own timer is the only one set (`StopSilencesExactly`), and such a
  restart leads to a second one (`RestartEscapesStop`).
* `stop()` of the election clears the timer but not a watch tick in flight
  (src/domains/election/leader-election.ts:31-36, 66-77). Afterwards the instance starts no watch tick and
  never leads exactly when no watch tick was in flight (`StopIsFinalExactly`); a stopped candidate whose
  acquire is then answered leads (`StoppedCandidateLeads`).
* A heartbeat read or write that throws ends the chain of watch ticks (src/domains/election/leader-election.ts:61,
  66, 82; `ChainEndsExactly`), and the process then shuts down (src/shutdown.ts:54-61). Until it does, a leader
  does not poll exactly when it was promoted in a tick whose heartbeat write did not answer
  (`SilentLeaderExactly`, reached in `SilentLeader`).
* Mutual exclusion needs leaders that are within their lease: of two leaders one has always outlived its own
  (`OneOfTwoIsLate`), and such a pair is reached in `LateLeaderIsJoined`.
* The key of an abandonment job uses `cartId` (src/shared/constants/JOB_DEFINITIONS.ts:40), which the declared
  payload does not have (src/shared/types/index.ts:38-42): requests that follow the type share one job per stage
  (`DeclaredPayloadCollides`).

## Model

| member | source | states |
|---|---|---|
| `Theorems.EachVersionOnce` | src/domains/job/job.repository.ts:59-189 | In every reachable state of any number of instances, the landed versioned writes on a job consumed versions 0, 1, 2, ... in that order, each exactly once |
| `Theorems.OneClaimPerVersion` | src/domains/execution/job-executor.ts:23-33 | Two executions of one job that returned from their claims with the same version are the same execution, even when two pollers dispatched the id |
| `Theorems.AtMostOneClosing` | src/domains/execution/job-executor.ts:53-126 | For every k: at most one closing write of a claim ever lands, also when a throw after `markCompleted` runs into `handleFailure` |
| `Theorems.IntendedTokenIsExact` | src/domains/job/job.repository.ts:98-162 | For k = 0: completing or failing lands if and only if nothing (reset, claim, closing, burial) has landed on the job since the claim |
| `Theorems.ClosingLandsExactly` | src/domains/job/job.repository.ts:98-162 | For every k: completing or failing lands if and only if the last event on the job is a claim that consumed the version k above the one the execution's claim consumed |
| `Theorems.AnothersClaimClosedExactly` | src/domains/execution/job-executor.ts:57 | For k >= 1, the code: completing or failing lands if and only if the job is running under the claim of another execution, k versions later |
| `Theorems.LateTokenNeedsAnother` | src/domains/execution/job-executor.ts:53-125 | For k >= 1: a closing write of any kind, burials included, lands only after another execution consumed the version the claim returned; the exact conditions are `ClosingLandsExactly` and `BurialLandsExactly` |
| `Theorems.BurialLandsExactly` | src/domains/job/job.repository.ts:164-174 | For every k: `markDead` lands if and only if exactly k versioned writes have landed on the job since the claim |
| `Theorems.BurialOverwritesExactly` | src/domains/job/job.repository.ts:164-174 | It lands on a completed or failed job if and only if, besides, the last event completed or failed the job |
| `Theorems.IntendedBurialSparesOutcomes` | src/domains/execution/retry.service.ts:49-50 | For k = 0: no burial in any history found the job completed or failed |
| `Theorems.LetterMeansDeadExactly` | src/domains/execution/retry.service.ts:49-51 | With any run of other tasks between `markDead` and the letter: there is then a letter, and the job is dead if and only if exactly k versioned writes had landed since the claim, or it was dead already, or another task cancelled or buried it in between |
| `Theorems.DeadAfterRunExactly` | src/domains/job/job.repository.ts:164-196 | A job is dead at the end of a run if and only if it was at its start or a cancellation or burial landed in it |
| `Theorems.UndisturbedLetterIsAboutRunning` | src/domains/execution/retry.service.ts:49-51 | For k = 1, the claim being the last event: the burial does not land, and if nobody else writes to the job before the letter, the letter is about a running job |
| `Theorems.NoClosingWithoutReset` | src/domains/execution/job-executor.ts:125 | For k >= 1: in the history of a job that was never reset there is no closing write |
| `Theorems.ClaimedStaysRunning` | src/domains/execution/job-executor.ts:57-125 | For k >= 1: a job claimed and never reset is running under version 1 for ever; the other jobs without a reset are pending or cancelled |
| `Theorems.CountersAddUp` | src/domains/job/job.repository.ts:59-230 | attempts = claims <= 1 + resets; claims = resets + closing writes that found the job running + 1 if it is running; version = claims + all closing writes |
| `Theorems.TerminalForEver` | src/domains/job/job.repository.ts:15-230 | After a job is completed, failed or dead, every continuation of the run leaves that status or makes it dead, adds no claim or attempt, and keeps the first request's fields, however often it is enqueued again |
| `Theorems.NoPrematureDeath` | src/domains/execution/retry.service.ts:49-51 | The last event of a dead job is a cancellation, or the job was claimed at least `maxAttempts` times |
| `Theorems.LettersAreEarned` | src/domains/dead-letter/dead-letter.servivce.ts:11-54 | In every reachable state letters and `job.dead` events pair off one to one with equal job and attempts, and a letter's attempts lie between the job's `maxAttempts` and its attempts, also for letters written by stale executions |
| `Theorems.NeverEarly` | src/domains/scheduler/poll-loop.ts:139-193 | A claim lands only when Redis time has reached some time a caller requested for the id, across duplicate enqueues, double dequeues, resets and reschedules |
| `Theorems.ClaimsApart` | src/domains/job/job.repository.ts:211-220 | A later claim lands more than 300 000 ms after the earlier claim's recorded start |
| `Theorems.RunsOverlapOnlyWhenStale` | src/domains/watchdog/heartbeat-watchdog.ts:69-71 | When two executions of one job have both passed their claim, one of them is past the stale age; so runs do not overlap while handlers end within it |
| `Theorems.MembersLeaveTwoWays` | src/domains/scheduler/redis-job-queue.ts:61-111 | Under any interleaving a member leaves a sorted set only through a pop that hands it to the dispatcher or through the removal after a cancellation |
| `Stranding.CanClaimExactly` | src/domains/scheduler/poll-loop.ts:139-193 | A pending job with no time before 1970: some continuation without a new request claims it if and only if it is not stranded |
| `Stranding.StrandedUntilRequested` | src/domains/watchdog/heartbeat-watchdog.ts:69-71 | An id in no queue, not handed out and brought to a claim by no task stays so in every run without a new request for it: no claim, no attempt, and a pending job stays pending or dies |
| `Stranding.FromQueue` | src/domains/scheduler/redis-job-queue.ts:61-93 | From every state with a pending job queued for a time from 1970 on there is a run that claims it |
| `Stranding.ReachableFetchedOk` | src/domains/execution/worker.ts:16-30 | No task ever holds a version above the stored one |
| `EarlyTimes.FirstRequestRunsExactly` | src/domains/job/job.service.ts:38-61 | The job of the first request for an id can ever be claimed, with any further requests of its type, if and only if its time is not before 1970 |
| `EarlyTimes.FrozenIsNeverClaimed` | src/domains/scheduler/redis-job-queue.ts:34-75 | A job queued for a time before 1970 is never claimed in any run, however often it is requested again with the same type |
| `EarlyTimes.FrozenStays` | src/domains/scheduler/redis-job-queue.ts:34-75 | Without a cancellation its document does not change either, and its entry stays |
| `Stranding.StrandedStep` | src/domains/scheduler/redis-job-queue.ts:116-136 | No action but a request, a reschedule included, brings a stranded id back |
| `Dispatching.GoneExactly` | src/domains/scheduler/redis-job-queue.ts:61-111 | A member is gone at the end of a run if and only if one of its pops or removals took it and none after that added it |
| `Dispatching.HandedOutAgainExactly` | src/domains/scheduler/redis-job-queue.ts:71-82 | A pop is about to hand out an id that has left the sorted set if and only if another task popped or removed it since this task's range command and nobody added it again |
| `Theorems.ReachableInv` | src/domains/execution/job-executor.ts:22-127 | Every reachable state satisfies the system invariant, and every document is the replay of its history |
| `Invariants.InvStep` | src/domains/execution/job-executor.ts:22-127 | Every action of every task keeps the invariant: documents replay their histories, claims belong to one task, closing tokens to their own claim, queue entries and dispatched ids to a requested time, letters to an exhausted job |
| `Invariants.InvRun` | src/domains/scheduler/poll-loop.ts:121-224 | The same over whole runs, and histories, requests and claims held by tasks only grow |
| `Invariants.ClosingOk` | src/domains/execution/retry.service.ts:49-73 | A landed complete, fail or bury keeps every record in order; a burial is earned by `maxAttempts` claims |
| `Invariants.NewLetterOk` | src/domains/dead-letter/dead-letter.servivce.ts:16-34 | A letter about to be written is about a stored job and counts at least `maxAttempts` and at most its attempts |
| `Invariants.RangeIsAsked` | src/domains/scheduler/redis-job-queue.ts:72-75 | Every id a range command returns was requested for a time not after the Redis clock |
| `Witness.LandingsMayBeClose` | src/domains/job/job.repository.ts:60-73 | For every delay of the first claim: a reachable state whose two claims landed exactly max(0, 300 001 ms - delay) apart, the least `ClaimsApart` allows |
| `Witness.StaleExecutionCompletesAnother` | src/domains/execution/job-executor.ts:57 | With k = 1 a reachable state where a superseded execution completed the job while the other execution ran it |
| `Witness.BurialOverCompletion` | src/domains/job/job.repository.ts:164-174 | With k = 1 a reachable state where the third execution of a payout buried the job over the completion of the second |
| `Witness.LetterWhileRunning` | src/domains/execution/retry.service.ts:49-51 | With k = 1 a reachable state with a dead letter for a job that is running |
| `Witness.StrandedAfterReset` | src/domains/watchdog/heartbeat-watchdog.ts:69-71 | A reachable state with a pending job that no queue, dispatcher or task knows |
| `Witness.RequestedTooEarly` | src/domains/job/job.validator.ts:14 | A reachable state with a pending job that is not stranded, queued for a time before 1970 |
| `Witness.HandedOutTwice` | src/domains/scheduler/redis-job-queue.ts:71-92 | A reachable state in which two pollers have handed out one id |
| `Lifecycle.Ledger` | src/domains/job/job.repository.ts:59-230 | Attempts, version and status of a document, read off any history of landed writes |
| `Lifecycle.ConsumedInOrder` | src/domains/job/job.repository.ts:62-72 | A versioned write at any place in a history consumed exactly the number of versioned writes before it |
| `Lifecycle.LastEventDecides` | src/domains/job/job.repository.ts:59-220 | The status of a document is the one its last event gives, and a running document has the version after that claim |
| `Lifecycle.VersionsExactlyOnce` | src/domains/job/job.repository.ts:98-189 | No two writes of a history consumed one version and none was skipped |
| `Lifecycle.TerminalIsAbsorbing` | src/domains/job/job.repository.ts:164-196 | After a terminal status only `markDead` lands |
| `Lifecycle.DeathHasACause` | src/domains/job/job.repository.ts:164-196 | The last event of a dead document is a cancellation or a burial |
| `Lifecycle.HoldsExactlyWhileLast` | src/domains/job/job.repository.ts:62-74 | A document is running under the version a claim gave it if and only if that claim is the last event |
| `Lifecycle.MovedOnBySomeone` | src/domains/job/job.repository.ts:98-189 | A version past the one an event consumed was consumed by a later event |
| `Lifecycle.ClaimsFarApart` | src/domains/job/job.repository.ts:211-220 | In a history whose resets use a 300 000 ms old cutoff, a later claim lands more than that after the earlier recorded start |
| `Jobs.JobRepository.CreateJob` | src/domains/job/job.repository.ts:15-36 | Upsert with set-on-insert: a new document is pending at the requested time with version and attempts 0, an existing one is returned untouched, all others stay |
| `Jobs.JobRepository.Claim` | src/domains/job/job.repository.ts:59-96 | Succeeds exactly on a pending document of that version; sets status, both times, version and attempts and nothing else, in no other document; afterwards no claim of any version lands and exactly the returned version completes |
| `Jobs.JobRepository.Complete` | src/domains/job/job.repository.ts:98-127 | Succeeds exactly on a running document of that version; sets status, time and version and nothing else; afterwards no claim, completion, failure, cancellation or reset lands |
| `Jobs.JobRepository.Fail` | src/domains/job/job.repository.ts:129-162 | Likewise with the new run time and the error cut at 2 000 characters: a failed job is not claimed again |
| `Jobs.JobRepository.Bury` | src/domains/job/job.repository.ts:164-189 | Succeeds exactly on a document of that version, whatever its status; sets status and version and nothing else; final as above |
| `Jobs.JobRepository.Cancel` | src/domains/job/job.repository.ts:191-209 | Succeeds exactly on a pending document; sets its status and nothing else, not the version; final as above |
| `Jobs.JobRepository.ResetStaleJobs` | src/domains/job/job.repository.ts:211-230 | Exactly the running documents started before the cutoff become pending, versions stay, and the count is their number |
| `Execution.JobExecutor.Execute` | src/domains/execution/job-executor.ts:22-127 | Whatever awaited call throws, an undisturbed execution is a run of the transition system by its own task and ends with stores that agree with that run. From the stored document and the throws: claimed exactly if pending and of that version; then, for k = 0, completed, dead or failed with all fields, for any other k as claimed; letter and event exactly when the catch block of an exhausted execution gets there; the queue entry moved exactly when that of another one does |
| `Execution.ExecutionIsRight` | src/domains/execution/job-executor.ts:22-127 | The reference for an execution says this, in fields and throws |
| `Execution.FailureIsRight` | src/domains/execution/retry.service.ts:35-101 | The reference for a failure says which write lands, when a letter and its event are written, and when the entry moves |
| `Execution.JobExecutor.Try` | src/domains/execution/job-executor.ts:47-80 | The try block: which phase it ends in, what it throws, and whether completion was sent before the throw |
| `Execution.JobExecutor.Catch` | src/domains/execution/job-executor.ts:92-126 | The catch block performs the moves of the transition system for a burial or a failure, as far as the throws let it |
| `Execution.RetryService.HandleFailure` | src/domains/execution/retry.service.ts:35-101 | Exhausted: dead if the version matches, and in any case a new letter with the attempts and the error, and its event, unless there is a letter already or the transaction aborts. Otherwise: failed if running under that version, with error and time, and the entry, if there is one, moved to that time unless the reschedule throws. Nothing else changes |
| `Execution.OutcomeComposes` | src/domains/execution/job-executor.ts:53-126 | Claim, try block and catch block in sequence, over the whole collection, amount to one outcome of the claimed document and leave all others |
| `Execution.LateTokenLeavesRunning` | src/domains/execution/job-executor.ts:57 | With k = 1 an undisturbed execution leaves its document exactly as claimed, whatever throws |
| `Execution.IntendedTokenCloses` | src/domains/execution/job-executor.ts:53-126 | With k = 0 it ends completed if `markCompleted` went out, even with a later throw; else failed, or dead when exhausted, unless the catch block threw first |
| `Execution.LandedDocuments` | src/domains/job/job.repository.ts:62-74 | A write of the transition system changes the stored documents as the repository's write does |
| `Scheduler.DelayDoubles` | src/domains/execution/retry.service.ts:16-21 | The retry delay starts at one second, doubles with every attempt and stops at a minute |
| `Jobs.Truncate` | src/domains/job/job.repository.ts:140 | The stored error is the whole error, or its first 2 000 characters when it is longer |
| `SortedSets.PopTakesTheFirst` | src/domains/scheduler/redis-job-queue.ts:71-82 | Range then remove takes exactly the first entries that are due: the remaining due ones are the rest in order, and the size falls by as many |
| `SortedSets.InsertWellformed` | src/domains/scheduler/redis-job-queue.ts:41 | Adding an absent member keeps the order and the members distinct |
| `SortedSets.OrderedByScore` | src/domains/scheduler/redis-job-queue.ts:72 | In that order earlier scores come first, and among equal scores the member with the smaller character at the first difference |
| `SortedSets.PopsEarliest` | src/domains/scheduler/redis-job-queue.ts:72-82 | What a pop takes ascends by score, and nothing due that stays is earlier than anything taken |
| `SortedSets.WithoutWellformed` | src/domains/scheduler/redis-job-queue.ts:82 | Removing members keeps order and distinctness |
| `SortedSets.Due` | src/domains/scheduler/redis-job-queue.ts:72 | The entries scored between 0 and now, and no others |
| `JobQueue.RedisJobQueue.Enqueue` | src/domains/scheduler/redis-job-queue.ts:34-53 | Adds exactly the entry, and only if the member is absent, and reports whether it did; other queues stay |
| `JobQueue.RedisJobQueue.Dequeue` | src/domains/scheduler/redis-job-queue.ts:61-93 | Returns min(count, number due) ids of due entries in ascending order of their scores, none later than a due entry left behind, and removes exactly those; other queues stay |
| `JobQueue.RedisJobQueue.Remove` | src/domains/scheduler/redis-job-queue.ts:98-111 | Removes the member and reports whether it was there |
| `JobQueue.RedisJobQueue.Reschedule` | src/domains/scheduler/redis-job-queue.ts:116-136 | Moves the entry of a present member to its new score, changes no other, never adds one and always reports false |
| `JobQueue.RedisJobQueue.Size` | src/domains/scheduler/redis-job-queue.ts:141-144 | The number of different job ids in the queue |
| `JobQueue.RedisJobQueue.Depth` | src/domains/scheduler/redis-job-queue.ts:149-152 | The number of different job ids queued for a time from 0 to now |
| `JobQueue.RedisJobQueue.Peek` | src/domains/scheduler/redis-job-queue.ts:157-182 | The loop over the alternating reply rebuilds the first due entries: min(count, number due) of them, ascending by score |
| `JobQueue.DequeueAfterPeek` | src/domains/scheduler/redis-job-queue.ts:61-182 | Undisturbed, `dequeue(n)` returns the ids `peek(n)` showed, and size and depth both fall by min(n, depth) |
| `JobQueue.UpdateKeepsSize` | src/domains/scheduler/redis-job-queue.ts:123-124 | ZADD XX adds no member |
| `PollLoop.PollLoop.Tick` | src/domains/scheduler/poll-loop.ts:121-224 | A tick with at least 10 of 100 slots free dispatches exactly the first min(free, 100) due jobs of the priority list and removes exactly those; everything dispatched was due, and in no queue a due entry is left behind that is earlier than one dispatched; any other tick changes nothing |
| `PollLoop.PollLoop.ServeAll` | src/domains/scheduler/poll-loop.ts:176-223 | The loop over the queues grants slots greedily in the given order and removes what it dispatched |
| `PollLoop.PollLoop.Serve` | src/domains/scheduler/poll-loop.ts:182-205 | One round: dequeue, count and hand over; only this queue changes |
| `PollLoop.PollLoop.Settle` | src/domains/scheduler/poll-loop.ts:203-205 | A settled batch gives back exactly its size; the clamp at zero never acts |
| `PollLoop.PollLoop.Drain` | src/domains/scheduler/poll-loop.ts:83-110 | While batches settle, and a tick in flight may still dispatch, it looks at `activeJobs` until a look finds none or the timeout has passed; it tells which, and looks at most timeout/500 + 1 times more |
| `PollLoop.PollLoop.Start` | src/domains/scheduler/poll-loop.ts:39-58 | A second start changes nothing |
| `PollLoop.GrantIsFirst` | src/domains/scheduler/poll-loop.ts:176-191 | Serving each queue up to what is left takes exactly the first slots of the list of all due jobs in priority order |
| `PollLoop.DispatchesEarliest` | src/domains/scheduler/poll-loop.ts:178-191 | A prefix of the priority list takes from each queue its earliest due entries |
| `JobDefinitions.PollOrderFollowsPriority` | src/domains/scheduler/poll-loop.ts:15-25 | The poll order lists every job type once, in the order of the priorities in the job definitions |
| `JobDefinitions.UrgentFirst` | src/domains/scheduler/poll-loop.ts:173-191 | However few slots a tick has: what it dispatches is a prefix of the due list, and if a due job of an answering queue is left behind, all slots are used and every dispatched job is of a type no later in the poll order and at least as urgent |
| `PollLoop.RemoveBatch` | src/domains/scheduler/poll-loop.ts:203-205 | Settling one batch lowers the total of unsettled batches by its size |
| `PollChains.ActiveJobsFromStart` | src/domains/scheduler/poll-loop.ts:112-205 | From the start of any run, `activeJobs` is the total size of unsettled batches, and with the slots ticks in flight may still grant it is at most 100 times the most chains ever alive |
| `PollChains.ActiveJobsBounded` | src/domains/scheduler/poll-loop.ts:121-205 | The same from any state that satisfies the bound |
| `PollChains.OneChainExactly` | src/domains/scheduler/poll-loop.ts:39-66 | At most one chain is alive throughout a run if and only if no effective start finds a tick in flight |
| `PollChains.PeakOfCalmRun` | src/domains/scheduler/poll-loop.ts:112-119 | Such a run never had more than one chain |
| `PollChains.CalmRunWithinLimit` | src/domains/scheduler/poll-loop.ts:112-176 | So at most 100 jobs are active or about to be dispatched |
| `PollChains.RestartDuringTick` | src/domains/scheduler/poll-loop.ts:60-66 | A run with a restart during a tick that ends with 200 active jobs |
| `PollChains.StopSilencesExactly` | src/domains/scheduler/poll-loop.ts:60-66 | After `stop` no tick starts before the next `start`, in any run, if and only if the only timer set was the one the loop remembers |
| `PollChains.RestartEscapesStop` | src/domains/scheduler/poll-loop.ts:112-119 | A run after which a timer is set that the loop does not remember, and still fires after `stop` |
| `PollChains.TickInChain` | src/domains/scheduler/poll-loop.ts:112-224 | One tick of the class is a tick of a chain: its dispatches are dequeues that chain may make, and counter and batches agree afterwards |
| `Outbox.OutboxPoller.Flush` | src/shared/utils/outbox-poller.ts:13-80 | A pending event with fewer than 5 tries and fewer than 50 older such events is completed if its publish works, and otherwise has one try more and is dead with the fifth; every other event stays |
| `Outbox.FlushSendsOldest` | src/shared/utils/outbox-poller.ts:30-67 | The reference for a flush says this |
| `Outbox.Oldest` | src/shared/utils/outbox-poller.ts:14-20 | The batch: the waiting events with fewer than 50 older waiting ones |
| `Outbox.AttemptedEachFlush` | src/shared/utils/outbox-poller.ts:30-67 | An event among the oldest 50 gains one failed try per flush while it waits |
| `Outbox.MovesUp` | src/shared/utils/outbox-poller.ts:14-19 | Five flushes bring every event 50 places forward |
| `Outbox.SettledInTime` | src/shared/utils/outbox-poller.ts:13-80 | An event with p older waiting ones stops waiting within 5·(p/50 + 1) flushes, whatever arrives and whichever publishes fail |
| `Outbox.CompletedOrDead` | src/shared/utils/outbox-poller.ts:54-67 | It is then completed or dead |
| `OutboxPollers.OutcomesAreEarned` | src/shared/utils/outbox-poller.ts:14-67 | Any number of pollers on stale snapshots: completed means published, pending means retries left, dead means retry count 5 with at least five failed attempts |
| `OutboxPollers.InvStep` | src/shared/utils/outbox-poller.ts:30-67 | Every command of every poller keeps counts, snapshots and statuses in line |
| `OutboxPollers.InvRun` | src/shared/utils/outbox-poller.ts:13-80 | The same over whole runs |
| `OutboxPollers.FlushIsARun` | src/shared/utils/outbox-poller.ts:13-80 | One flush whose database writes succeed is a run of this system by its own poller, whose publishes work exactly for the events the flush publishes, with the events that `Flush` leaves |
| `DeadLetters.DeadLetterService.Create` | src/domains/dead-letter/dead-letter.servivce.ts:11-77 | Letter and event together or neither; a second letter for a job is refused; the pairing is kept |
| `DeadLetters.DeadLetterService.Resolve` | src/domains/dead-letter/dead.letter.repository.ts:131-160 | Only an unresolved letter is resolved, note cut at 1 000 characters; an earlier resolution and all other letters stay |
| `DeadLetters.PairedAfterCreate` | src/domains/dead-letter/dead-letter.servivce.ts:24-53 | Inserting both keeps the one-to-one correspondence |
| `DeadLetters.PairedCounts` | src/domains/dead-letter/dead-letter.model.ts:42-47 | There are as many letters as events |
| `JobDefinitions.KeysAreInjective` | src/shared/constants/JOB_DEFINITIONS.ts:13-65 | Without a colon in `stage` or `reportType`, two identities share a key if and only if they are equal |
| `JobDefinitions.SharedKeyExactly` | src/shared/constants/JOB_DEFINITIONS.ts:38-65 | In general a two-part key also stands for another identity if and only if one of its parts has a colon |
| `JobDefinitions.SameJobExactly` | src/domains/job/job.service.ts:38-39 | Two requests share a job id if and only if neither overrides the type and type and identifying fields agree |
| `JobDefinitions.IdAsDefined` | src/shared/constants/JOB_DEFINITIONS.ts:13-65 | For each type the id is the literal text of the definition over the payload's own fields, or the uuid when the payload has another type |
| `JobDefinitions.StoredAsRequested` | src/domains/job/job.service.ts:43-53 | The document of a first request holds its type, tenant, time and merged payload, with the priority 1, 1, 2, 2, 3 and the attempts 5, 3, 5, 5, 3 of its type |
| `JobDefinitions.DeclaredPayloadCollides` | src/shared/types/index.ts:38-42 | Abandonment requests without a `cartId` share one job per stage |
| `JobDefinitions.FirstCreationWins` | src/domains/job/job.repository.ts:17-36 | After any sequence of creations an id has one document, with the fields of the first creation |
| `JobDefinitions.JobService.Enqueue` | src/domains/job/job.service.ts:28-83 | Stores the document of a first request as requested under the id of its definition, returns the stored one, changes no other; the id is then queued, and if it was not before, for the requested time |
| `Services.EnqueueInSystem` | src/domains/job/job.service.ts:55-61 | With nobody in between, enqueueing is one task's request, upsert and ZADD in the transition system |
| `JobDefinitions.JobService.Cancel` | src/domains/job/job.service.ts:85-123 | Cancels exactly a pending job and only then removes its queue entry |
| `Services.CancelInSystem` | src/domains/job/job.service.ts:90-102 | Cancelling is one task's write and, exactly if it landed, its ZREM |
| `Services.DequeueInSystem` | src/domains/scheduler/redis-job-queue.ts:71-92 | A dequeue is one task's range and, if that found something, its pop, which hands out what the call returns |
| `Services.ResetInSystem` | src/domains/watchdog/heartbeat-watchdog.ts:69-71 | A watchdog tick that goes through is one task's visits to the documents with a cutoff 300 s ago; the queues stay |
| `Watchdog.HeartbeatWatchdog.Tick` | src/domains/watchdog/heartbeat-watchdog.ts:69-87 | Exactly the running documents started more than 300 s ago become pending, nothing else about any document changes; a failing reset changes nothing |
| `Watchdog.HeartbeatWatchdog.Start` | src/domains/watchdog/heartbeat-watchdog.ts:21-32 | A second start changes nothing |
| `Watchdog.VisitsAreUpdateMany` | src/domains/job/job.repository.ts:214-220 | The document-by-document resets of the transition system, in any order that covers the collection, amount to the one reset the watchdog asks for |
| `Election.RedlockElection.Acquire` | src/domains/election/redlock.ts:25-36 | True exactly when the lock was free and the command answered; the local handle follows |
| `Election.RedlockElection.Extend` | src/domains/election/redlock.ts:38-52 | True exactly when the handle still held the lock and the command answered; otherwise the handle is dropped |
| `Election.RedlockElection.Release` | src/domains/election/redlock.ts:54-71 | The handle is dropped in every case; only a held lock is deleted |
| `Election.LeaderElectionService.WatchTick` | src/domains/election/leader-election.ts:53-112 | A leader leads on exactly if its own lock is extended, for 30 s; anybody else does nothing while the heartbeat is at most 30 s old or unreadable, and otherwise leads exactly if it acquires the free lock; whoever leads afterwards has written the heartbeat unless the write threw, nobody else touches it; and whether the timer is set again |
| `Election.WatchIsRight` | src/domains/election/leader-election.ts:53-112 | The reference for a watch tick says this |
| `Election.ChainEndsExactly` | src/domains/election/leader-election.ts:53-112 | The timer is not set again if and only if the heartbeat read of a non-leader, or the heartbeat write of an instance that then leads, did not answer |
| `Election.SilentLeaderExactly` | src/domains/election/leader-election.ts:80-90 | In every run of any number of instances only leaders poll, and a leader does not poll if and only if its last tick promoted it and the heartbeat write of that tick did not answer |
| `Election.SilentLeader` | src/domains/election/leader-election.ts:80-90 | A run after which the leader holds the lock, polls nothing and watches no more |
| `Election.LeaderElectionService.Demote` | src/domains/election/leader-election.ts:92-102 | Follower, no handle, not polling, also when the release throws |
| `Election.LeaderElectionService.Stop` | src/domains/election/leader-election.ts:31-36 | When it returns, the instance is not leader and its timer is cleared, and a leader has given up its lock if the release went through; a follower's stop changes nothing else. What a tick in flight does afterwards is the subject of `StopIsFinalExactly` |
| `Election.RunSeen` | src/domains/election/redlock.ts:25-52 | In every run of watch ticks of any instances, lock expiry and heartbeat are no later than their last change allows |
| `Election.QuietTick` | src/domains/election/leader-election.ts:66-75 | A tick that makes nobody leader touches nothing and came before the lease or the stale threshold ran out |
| `Election.NothingHappens` | src/domains/election/leader-election.ts:66-77 | Over any ticks without a leader the store stays as the crashed leader left it |
| `Election.CrashAnywhere` | src/domains/election/leader-election.ts:54-63 | Every crash point of a tick leaves a lock and heartbeat bounded by the last time they were touched |
| `Election.Failover` | src/domains/election/leader-election.ts:53-120 | After any run of any number of instances one of them crashes after any number of the commands of its tick. If since the last acquisition, extension or heartbeat the others' commands answer, their watch ticks come at most 15 s apart and none of them leads past its lease, some live instance leads and holds the lock at once or within 45 s of it |
| `Election.LiveTicksAreEarly` | src/domains/election/leader-election.ts:66-77 | Under these conditions no live tick before the crash came later than 30 s after that last sign of life |
| `ElectionSafety.MutualExclusion` | src/domains/election/leader-election.ts:53-102 | At any moment when every leader is within the lease of its last acquire or extend, at most one of any number of instances is leader, whatever happened before, with `stop` and slow answers at any point |
| `ElectionSafety.OneOfTwoIsLate` | src/domains/election/leader-election.ts:53-102 | In every reachable state, with no assumption: of any two leaders at least one is past the end of its own lease |
| `ElectionSafety.StopIsFinalExactly` | src/domains/election/leader-election.ts:31-78 | After `stop` no run has the instance start a watch tick if and only if no watch tick was in flight, and no run ends with it leading if and only if no watch tick was in flight |
| `ElectionSafety.StoppedCandidateLeads` | src/domains/election/leader-election.ts:66-82 | A reachable candidate that is stopped, whose acquire is then answered, and that leads |
| `ElectionSafety.WatchTickIsARun` | src/domains/election/leader-election.ts:53-78 | One watch tick of the service, however its commands end, is a run of this system by its own instance, with the same state, handle, lock and timer |
| `ElectionSafety.InvStep` | src/domains/election/redlock.ts:25-71 | Every step keeps: the lock carries the token of each leading instance that is within its lease, until that lease ends, and no release of that token is on its way |
| `ElectionSafety.LeaseStays` | src/domains/election/redlock.ts:25-71 | No step of another instance touches the lock of a leader that is within its lease |
| `ElectionSafety.LateLeaderIsJoined` | src/domains/election/leader-election.ts:46-51 | Without the assumption: a reachable state with two leaders |

## Left out

- HTTP routes, controllers, validation, authentication, logging, metrics, pagination, per-status counts, `findPendingDueJobs`, `findUnresolved`: they decide nothing about when a job runs.
- The five job handlers: a handler succeeds or throws.
- RabbitMQ topology, lifecycle messages of the executor and the services: a publish succeeds or throws; only outbox publishes are counted.
- The insides of Redis, Mongo and Redlock: one command is atomic, transactions commit both inserts or neither, and the lock is one server key with a token and an expiry. The clock-drift margin of the library and its own clean-up after a failed acquire are not modelled. Redis does not lose the lock.
- Lock commands that land after their caller gave up waiting.
- TTL deletion of documents and `deleteByJobId`: the theorems are about one lifetime of a document.
- Clock skew: application clocks agree with each other (not with Redis); jitter is any whole number of milliseconds below 1 000; scores and times are whole milliseconds.
- `cronExpression`, `timeoutMs`: stored, never evaluated.
- Execution records and per-job heartbeats: written, read by nobody; their failures are throws in `Script`.
- The error for an unknown job type and an unparsable `scheduledAt`; payload fields are strings.
- Retry until `maxAttempts`, and that every pending job runs: not true of the code, see `TerminalForEver`, `CanClaimExactly` and `FirstRequestRunsExactly`. That a job that can be claimed is claimed in the end is not stated: it needs a leader, a worker and time.
- The timer chains of the outbox poller and the watchdog, and the poll loop's logging of clock skew.
- Execution.JobExecutor.Execute: the class form lets clocks stand still and nobody interfere; interleavings are the subject of `Scheduler` and `Theorems`.
- `FindByJobId`, and `stop` of the watchdog: modelled in the classes, but the table states nothing about them, since each is a single lookup or assignment.
- Stranding.CanClaimExactly: leaves out jobs queued or about to be queued for a time before 1970. `EarlyTimes` covers them from their first request; a reschedule by an older execution of the same job may still move such an entry.
- Outbox: events are kept in one creation order and arrivals come last. In the source `createdAt` is a stamp of the application, which may tie, and a transaction may commit an older event later; the flush bound then counts the events the find sorts first.
- PollLoop.PollLoop.Tick: a queue whose dequeue throws is passed over unchanged; the case where ZREM landed and its answer was lost is in the transition system only, as a poll task that stops after `Pop`.
- Election.Failover: a watch tick is one instant; a tick that takes time adds that time to the 45 s. That live commands answer is needed: a lock taken by a command whose answer is lost blocks everybody for another 30 s.
- JobDefinitions.JobService.Enqueue: the class forms of `JobService` run with stores that answer; a crash between its two writes is in the transition system.
