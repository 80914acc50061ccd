/** The scheduler as one transition system over every instance at once.

    A task is one asynchronous activity (an HTTP request, a poll tick, a run of a worker, a watchdog
    tick) between two awaits.  An action is one Mongo or Redis command landing, or the local step up
    to the next await.  Any task may move at any time, so the runs below contain every interleaving
    of any number of leaders, pollers, executors, cancels and resets.  A crash needs no action of its
    own: the tasks of a crashed instance simply never move again.

    The parameter k is the distance between the version a claim returned and the token its closing
    write uses.  The executor passes `claimed.version + 1`, so k = 1 is the code as written. */
module Scheduler {
  import opened Types
  import opened Jobs
  import opened Lifecycle
  import opened SortedSets
  import opened JobQueue
  import opened DeadLetters

  // A stored document with the history of the writes that landed on it.
  datatype Record = Record(job: Job, history: History)

  datatype Phase =
    | Announcing                                 // publishJobClaimed, writeHeartbeat
    | Handling                                   // handler.handle
    | Completing(completedAt: int)               // before markCompleted lands
    | Wrapping                                   // clearHeartbeat, execution record, publishJobCompleted
    | Failing(error: string)                     // catch block up to the branch in handleFailure
    | MarkingDead(error: string)                 // before markDead lands
    | WritingLetter(error: string)               // before the dead-letter transaction commits
    | MarkingFailed(error: string, nextRunAt: int) // before markFailed lands
    | Rescheduling(nextRunAt: int)               // before ZADD XX lands
    | Ended

  datatype Task =
    | Creating(jobId: JobId, input: EnqueueJobInput)
    | Adding(jobType: JobType, jobId: JobId, score: int)
    | Cancelling(jobId: JobId)
    | Removing(jobType: JobType, jobId: JobId)
    | Polling(nowMs: int)
    | Popping(nowMs: int, jobType: JobType, ids: seq<JobId>)
    | Fetching(jobId: JobId)
    | Fetched(jobId: JobId, version: int)
    | Claiming(jobId: JobId, version: int, stamp: int)
    // slot: position of the claim in the job's history.
    | Exec(jobId: JobId, claimed: Job, slot: nat, phase: Phase)
    | Resetting(cutoff: int)
    | Finished

  datatype State = State(
    clock: int,                        // Date.now(), common to all instances
    redisClock: int,                   // Redis TIME
    jobs: map<JobId, Record>,
    queues: Queues,
    inbox: multiset<JobId>,            // ids handed to Worker.dispatch and not yet fetched
    tasks: map<TaskId, Task>,
    letters: map<JobId, DeadLetter>,
    events: seq<DeadEvent>,
    requested: map<JobId, set<int>>)   // history: every scheduledAt a caller asked for

  datatype Action =
    | Advance(clock: int, redisClock: int)
    // JobService.enqueue
    | Request(t: TaskId, jobId: JobId, input: EnqueueJobInput)
    | Create(t: TaskId)
    | Add(t: TaskId)
    // JobService.cancel
    | RequestCancel(t: TaskId, jobId: JobId)
    | Cancel(t: TaskId)
    | Remove(t: TaskId)
    // PollLoop.tick and RedisJobQueue.dequeue
    | ReadTime(t: TaskId)
    | Range(t: TaskId, jobType: JobType, count: nat)
    | Pop(t: TaskId)
    // Worker.run
    | Dispatch(t: TaskId, jobId: JobId)
    | Fetch(t: TaskId)
    | Stamp(t: TaskId)
    | Claim(t: TaskId)
    // JobExecutor.execute
    | Announce(t: TaskId)
    | Handle(t: TaskId, thrown: Option<string>)
    | Complete(t: TaskId)
    | LoseComplete(t: TaskId, error: string)
    | Wrap(t: TaskId, thrown: Option<string>)
    // RetryService.handleFailure
    | Fail(t: TaskId, jitter: nat)
    | MarkDead(t: TaskId)
    | WriteLetter(t: TaskId, aborted: bool)
    | MarkFailed(t: TaskId)
    | Reschedule(t: TaskId)
    // HeartbeatWatchdog.tick: updateMany visits documents one by one
    | StartReset(t: TaskId)
    | ResetOne(t: TaskId, jobId: JobId)

  function Requested(s: State, jobId: JobId): set<int> {
    if jobId in s.requested then s.requested[jobId] else {}
  }

  // The task an action moves, if any.
  function Mover(a: Action): Option<TaskId> {
    match a
    case Advance(_, _) => None
    case _ => Some(a.t)
  }

  predicate Fresh(s: State, t: TaskId) {
    t !in s.tasks
  }

  predicate InPhase(s: State, t: TaskId) {
    t in s.tasks && s.tasks[t].Exec?
  }

  predicate Enabled(s: State, a: Action) {
    match a
    case Advance(clock, redisClock) => s.clock <= clock && s.redisClock <= redisClock
    case Request(t, _, _) => Fresh(s, t)
    case Create(t) => t in s.tasks && s.tasks[t].Creating?
    case Add(t) => t in s.tasks && s.tasks[t].Adding?
    case RequestCancel(t, _) => Fresh(s, t)
    case Cancel(t) => t in s.tasks && s.tasks[t].Cancelling?
    case Remove(t) => t in s.tasks && s.tasks[t].Removing?
    case ReadTime(t) => Fresh(s, t)
    case Range(t, _, _) => t in s.tasks && s.tasks[t].Polling?
    case Pop(t) => t in s.tasks && s.tasks[t].Popping?
    case Dispatch(t, jobId) => Fresh(s, t) && jobId in s.inbox
    case Fetch(t) => t in s.tasks && s.tasks[t].Fetching?
    case Stamp(t) => t in s.tasks && s.tasks[t].Fetched?
    case Claim(t) => t in s.tasks && s.tasks[t].Claiming?
    case Announce(t) => InPhase(s, t) && s.tasks[t].phase.Announcing?
    case Handle(t, _) => InPhase(s, t) && s.tasks[t].phase.Handling?
    case Complete(t) => InPhase(s, t) && s.tasks[t].phase.Completing?
    case LoseComplete(t, _) => InPhase(s, t) && s.tasks[t].phase.Completing?
    case Wrap(t, _) => InPhase(s, t) && s.tasks[t].phase.Wrapping?
    case Fail(t, jitter) => InPhase(s, t) && s.tasks[t].phase.Failing? && jitter < 1_000
    case MarkDead(t) => InPhase(s, t) && s.tasks[t].phase.MarkingDead?
    case WriteLetter(t, _) => InPhase(s, t) && s.tasks[t].phase.WritingLetter?
    case MarkFailed(t) => InPhase(s, t) && s.tasks[t].phase.MarkingFailed?
    case Reschedule(t) => InPhase(s, t) && s.tasks[t].phase.Rescheduling?
    case StartReset(t) => Fresh(s, t)
    case ResetOne(t, jobId) => t in s.tasks && s.tasks[t].Resetting?
  }

  // Document writes: the event an action tries to land, and on which job

  // A write that changes the document appends one event to its history.
  function Land(jobs: map<JobId, Record>, jobId: JobId, e: Event): map<JobId, Record> {
    if jobId !in jobs then jobs
    else
      var written := Apply(jobs[jobId].job, e);
      if written.None? then jobs
      else jobs[jobId := Record(written.value, jobs[jobId].history + [e])]
  }

  // Whether the filter of the write matches the stored document.
  predicate Lands(s: State, jobId: JobId, e: Event) {
    jobId in s.jobs && Apply(s.jobs[jobId].job, e).Some?
  }

  function Found(s: State, jobId: JobId): JobStatus {
    if jobId in s.jobs then s.jobs[jobId].job.status else Pending
  }

  function ClaimEvent(s: State, t: TaskId): Event
    requires t in s.tasks && s.tasks[t].Claiming?
  {
    Claimed(t, s.tasks[t].version, s.tasks[t].stamp, s.clock, s.redisClock)
  }

  // The closing write of an execution: its token is k above the version the claim returned.
  function ClosingEvent(k: int, s: State, t: TaskId, closing: Closing): Event
    requires InPhase(s, t)
  {
    var x := s.tasks[t];
    Closed(t, x.slot, x.claimed.version + k, Found(s, x.jobId), closing)
  }

  datatype Write = Write(jobId: JobId, event: Event)

  function WriteOf(k: int, s: State, a: Action): Option<Write>
    requires Enabled(s, a)
  {
    match a
    case Cancel(t) => Some(Write(s.tasks[t].jobId, Cancelled))
    case Claim(t) => Some(Write(s.tasks[t].jobId, ClaimEvent(s, t)))
    case Complete(t) =>
      Some(Write(s.tasks[t].jobId, ClosingEvent(k, s, t, Completion(s.tasks[t].phase.completedAt))))
    case MarkDead(t) => Some(Write(s.tasks[t].jobId, ClosingEvent(k, s, t, Death)))
    case MarkFailed(t) =>
      var phase := s.tasks[t].phase;
      Some(Write(s.tasks[t].jobId, ClosingEvent(k, s, t, Failure(phase.error, phase.nextRunAt))))
    case ResetOne(t, jobId) => Some(Write(jobId, Reset(s.tasks[t].cutoff, s.clock)))
    case _ => None
  }

  function JobsAfter(k: int, s: State, a: Action): map<JobId, Record>
    requires Enabled(s, a)
  {
    if a.Create? then
      var x := s.tasks[a.t];
      if x.jobId in s.jobs then s.jobs else s.jobs[x.jobId := Record(NewJob(x.input), [])]
    else
      var w := WriteOf(k, s, a);
      if w.None? then s.jobs else Land(s.jobs, w.value.jobId, w.value.event)
  }

  // Queue commands

  function QueuesAfter(s: State, a: Action): Queues
    requires Enabled(s, a)
  {
    match a
    case Add(t) =>
      var x := s.tasks[t];
      s.queues[x.jobType := AddIfAbsent(Queue(s.queues, x.jobType), Entry(x.jobId, x.score))]
    case Remove(t) =>
      var x := s.tasks[t];
      s.queues[x.jobType := Without(Queue(s.queues, x.jobType), {x.jobId})]
    case Pop(t) =>
      var x := s.tasks[t];
      s.queues[x.jobType := Without(Queue(s.queues, x.jobType), AsSet(x.ids))]
    case Reschedule(t) =>
      var x := s.tasks[t];
      var jobType := x.claimed.input.jobType;
      s.queues[jobType := UpdateIfPresent(Queue(s.queues, jobType), Entry(x.jobId, x.phase.nextRunAt))]
    case _ => s.queues
  }

  function InboxAfter(s: State, a: Action): multiset<JobId>
    requires Enabled(s, a)
  {
    match a
    case Pop(t) => s.inbox + multiset(s.tasks[t].ids)
    case Dispatch(_, jobId) => s.inbox - multiset{jobId}
    case _ => s.inbox
  }

  // Dead letters: the transaction inserts the letter and its event, or neither

  predicate WritesLetter(s: State, a: Action)
    requires Enabled(s, a)
  {
    a.WriteLetter? && !a.aborted && s.tasks[a.t].jobId !in s.letters
  }

  // Control flow: what the moving task waits for next

  function Power(base: nat, exponent: nat): nat {
    if exponent == 0 then 1 else base * Power(base, exponent - 1)
  }

  function Delay(attempts: int): int {
    var raw := BASE_DELAY_MS * Power(RETRY_MULTIPLIER, if attempts < 0 then 0 else attempts);
    if raw <= MAX_DELAY_MS then raw else MAX_DELAY_MS
  }

  /** The delay doubles from one second with every attempt, up to a minute. */
  lemma DelayDoubles(attempts: nat)
    ensures Delay(0) == 1_000
    ensures Delay(attempts + 1) == (if 2 * Delay(attempts) <= 60_000 then 2 * Delay(attempts) else 60_000)
    ensures 1_000 <= Delay(attempts) <= Delay(attempts + 1) <= 60_000
  {
    PowerPositive(RETRY_MULTIPLIER, attempts);
    assert Power(RETRY_MULTIPLIER, attempts + 1) == RETRY_MULTIPLIER * Power(RETRY_MULTIPLIER, attempts);
  }

  lemma {:induction false} PowerPositive(base: nat, exponent: nat)
    requires base > 0
    ensures Power(base, exponent) >= 1
  {
    if exponent > 0 {
      PowerPositive(base, exponent - 1);
      assert base * Power(base, exponent - 1) >= 1 * 1;
    }
  }

  function PhaseAfter(s: State, a: Action): Phase
    requires Enabled(s, a) && Mover(a).Some? && InPhase(s, Mover(a).value)
  {
    var x := s.tasks[Mover(a).value];
    match a
    case Announce(_) => Handling
    case Handle(_, thrown) => if thrown.None? then Completing(s.clock) else Failing(thrown.value)
    case Complete(_) => Wrapping
    case LoseComplete(_, error) => Failing(error)
    case Wrap(_, thrown) => if thrown.None? then Ended else Failing(thrown.value)
    case Fail(_, jitter) =>
      if x.claimed.attempts >= x.claimed.input.maxAttempts then MarkingDead(x.phase.error)
      else MarkingFailed(x.phase.error, s.clock + Delay(x.claimed.attempts) + jitter)
    case MarkDead(_) => WritingLetter(x.phase.error)
    case MarkFailed(_) => Rescheduling(x.phase.nextRunAt)
    case _ => Ended
  }

  function TaskAfter(s: State, a: Action): Task
    requires Enabled(s, a) && Mover(a).Some?
  {
    var t := Mover(a).value;
    if InPhase(s, t) then s.tasks[t].(phase := PhaseAfter(s, a))
    else
      match a
      case Request(_, jobId, input) => Creating(jobId, input)
      case Create(_) => Adding(s.tasks[t].input.jobType, s.tasks[t].jobId, s.tasks[t].input.nextRunAt)
      case RequestCancel(_, jobId) => Cancelling(jobId)
      case Cancel(_) =>
        var id := s.tasks[t].jobId;
        if Lands(s, id, Cancelled) then Removing(s.jobs[id].job.input.jobType, id) else Finished
      case ReadTime(_) => Polling(s.redisClock)
      case Range(_, jobType, count) =>
        var nowMs := s.tasks[t].nowMs;
        var ids := Members(FirstDue(Queue(s.queues, jobType), nowMs, count));
        if ids == [] then Polling(nowMs) else Popping(nowMs, jobType, ids)
      case Pop(_) => Polling(s.tasks[t].nowMs)
      case Dispatch(_, jobId) => Fetching(jobId)
      case Fetch(_) =>
        var id := s.tasks[t].jobId;
        if id in s.jobs then Fetched(id, s.jobs[id].job.version) else Finished
      case Stamp(_) => Claiming(s.tasks[t].jobId, s.tasks[t].version, s.clock)
      case Claim(_) =>
        var id, e := s.tasks[t].jobId, ClaimEvent(s, t);
        if Lands(s, id, e) then
          Exec(id, Apply(s.jobs[id].job, e).value, |s.jobs[id].history|, Announcing)
        else
          Finished
      case StartReset(_) => Resetting(s.clock - STALE_RUNNING_JOB_AGE_MS)
      case ResetOne(_, _) => s.tasks[t]
      case _ => Finished
  }

  // One action, component by component

  function Perform(k: int, s: State, a: Action): State
    requires Enabled(s, a)
  {
    State(
      if a.Advance? then a.clock else s.clock,
      if a.Advance? then a.redisClock else s.redisClock,
      JobsAfter(k, s, a),
      QueuesAfter(s, a),
      InboxAfter(s, a),
      if Mover(a).None? then s.tasks else s.tasks[Mover(a).value := TaskAfter(s, a)],
      if WritesLetter(s, a) then
        var x := s.tasks[a.t];
        s.letters[x.jobId := DeadLetter(x.claimed.attempts, x.phase.error, None)]
      else s.letters,
      if WritesLetter(s, a) then
        s.events + [DeadEvent(s.tasks[a.t].jobId, s.tasks[a.t].claimed.attempts)]
      else s.events,
      if a.Request? then s.requested[a.jobId := Requested(s, a.jobId) + {a.input.nextRunAt}] else s.requested)
  }

  // Runs

  ghost predicate Initial(s: State) {
    && s.jobs == map[] && s.queues == map[] && s.inbox == multiset{} && s.tasks == map[]
    && s.letters == map[] && s.events == [] && s.requested == map[]
  }

  // The state a run leads to, if every action is enabled where it comes.
  function Run(k: int, s: State, run: seq<Action>): Option<State> {
    if run == [] then Some(s)
    else
      var before := Run(k, s, run[..|run| - 1]);
      if before.None? || !Enabled(before.value, run[|run| - 1]) then None
      else Some(Perform(k, before.value, run[|run| - 1]))
  }

  lemma RunAppend(k: int, s: State, run: seq<Action>, a: Action)
    requires Run(k, s, run).Some? && Enabled(Run(k, s, run).value, a)
    ensures Run(k, s, run + [a]) == Some(Perform(k, Run(k, s, run).value, a))
  {
    assert (run + [a])[..|run|] == run;
  }
}
