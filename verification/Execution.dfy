/** One execution from claim to closing write: src/domains/execution/job-executor.ts and
    src/domains/execution/retry.service.ts, with a script saying which awaited calls throw. */
module Execution {
  import opened Types
  import opened Jobs
  import opened Lifecycle
  import opened SortedSets
  import opened JobQueue
  import opened DeadLetters
  import opened Scheduler

  datatype Script = Script(
    announceFails: bool,            // publishJobClaimed or writeHeartbeat throws, outside the try block
    handler: Option<string>,        // the handler throws, or there is none for the job type
    completeLost: Option<string>,   // markCompleted throws without landing
    wrapUp: Option<string>,         // a throw after markCompleted
    recordFails: bool,              // a throw in the catch block before the branch on attempts
    closingFails: bool,             // markDead or markFailed throws without landing
    letterFails: bool,              // the dead-letter transaction aborts
    rescheduleFails: bool,          // markFailed has landed, then the reschedule throws without landing
    jitter: nat)

  function Documents(jobs: map<JobId, Record>): map<JobId, Job> {
    map id | id in jobs :: jobs[id].job
  }

  // The stores hold what the state of the transition system holds.
  ghost predicate Mirrors(s: State, jobs: map<JobId, Job>, queues: Queues, letters: map<JobId, DeadLetter>,
                          events: seq<DeadEvent>)
  {
    jobs == Documents(s.jobs) && queues == s.queues && letters == s.letters && events == s.events
  }

  // A task by itself, with both clocks standing still, takes this run from one state to another.
  ghost predicate Alone(k: int, t: TaskId, s: State, run: seq<Action>, s': State) {
    && Run(k, s, run) == Some(s')
    && forall a :: a in run ==> Mover(a) == Some(t)
  }

  lemma AloneStep(k: int, t: TaskId, s: State, run: seq<Action>, s': State, a: Action)
    requires Alone(k, t, s, run, s') && Enabled(s', a) && Mover(a) == Some(t)
    ensures Alone(k, t, s, run + [a], Perform(k, s', a))
  {
    RunAppend(k, s, run, a);
  }

  ghost predicate Led(k: int, t: TaskId, s: State, s': State) {
    exists run :: Alone(k, t, s, run, s')
  }

  // A property of states that no action of task t destroys.
  ghost predicate KeptBy(k: int, t: TaskId, p: State -> bool) {
    forall s, a :: p(s) && Enabled(s, a) && Mover(a) == Some(t) ==> p(Perform(k, s, a))
  }

  lemma LedIsKept(k: int, t: TaskId, s: State)
    ensures KeptBy(k, t, s' => Led(k, t, s, s')) && Led(k, t, s, s)
  {
    assert Alone(k, t, s, [], s);
    forall s', a | Led(k, t, s, s') && Enabled(s', a) && Mover(a) == Some(t)
      ensures Led(k, t, s, Perform(k, s', a))
    {
      var run :| Alone(k, t, s, run, s');
      AloneStep(k, t, s, run, s', a);
    }
  }

  lemma LandedDocuments(jobs: map<JobId, Record>, jobId: JobId, e: Event)
    ensures Documents(Land(jobs, jobId, e)) ==
      Store(Documents(jobs), jobId, if jobId in jobs then Apply(jobs[jobId].job, e) else None)
  {
  }

  // ZADD XX.
  function Moved(queues: Queues, jobType: JobType, e: Entry): Queues {
    queues[jobType := UpdateIfPresent(Queue(queues, jobType), e)]
  }

  // Whether the catch block of an exhausted execution gets as far as a new letter.
  predicate LeavesLetter(letters: map<JobId, DeadLetter>, jobId: JobId, claimed: Job, script: Script) {
    Exhausted(claimed) && !script.closingFails && !script.letterFails && jobId !in letters
  }

  function Lettered(letters: map<JobId, DeadLetter>, jobId: JobId, claimed: Job, error: string, script: Script)
    : map<JobId, DeadLetter>
  {
    if LeavesLetter(letters, jobId, claimed, script) then letters[jobId := DeadLetter(claimed.attempts, error, None)]
    else letters
  }

  function Announced(letters: map<JobId, DeadLetter>, events: seq<DeadEvent>, jobId: JobId, claimed: Job,
                     script: Script)
    : seq<DeadEvent>
  {
    events + if LeavesLetter(letters, jobId, claimed, script) then [DeadEvent(jobId, claimed.attempts)] else []
  }

  function Requeued(queues: Queues, jobId: JobId, claimed: Job, script: Script, now: int): Queues {
    if Exhausted(claimed) || script.closingFails || script.rescheduleFails then queues
    else Moved(queues, claimed.input.jobType, Entry(jobId, now + Delay(claimed.attempts) + script.jitter))
  }

  // The stores an execution writes to.
  datatype Stores = Stores(
    jobs: map<JobId, Job>,
    queues: Queues,
    letters: map<JobId, DeadLetter>,
    events: seq<DeadEvent>)

  function AfterFailure(st: Stores, jobId: JobId, job: Job, error: string, token: int, script: Script, now: int)
    : Stores
  {
    Stores(
      if script.closingFails || jobId !in st.jobs then st.jobs
      else Store(st.jobs, jobId, CloseFailure(st.jobs[jobId], job, token, error, script, now)),
      Requeued(st.queues, jobId, job, script, now),
      Lettered(st.letters, jobId, job, error, script),
      Announced(st.letters, st.events, jobId, job, script))
  }

  function AfterExecution(k: int, st: Stores, jobId: JobId, version: int, script: Script, now: int): Stores {
    var claim := if jobId in st.jobs then ClaimJob(st.jobs[jobId], version, now) else None;
    if claim.None? then st
    else
      var jobs := st.jobs[jobId := Outcome(k, claim.value, script, now)];
      if !Catches(script) then Stores(jobs, st.queues, st.letters, st.events)
      else
        Stores(jobs,
               Requeued(st.queues, jobId, claim.value, script, now),
               Lettered(st.letters, jobId, claim.value, Thrown(script).value, script),
               Announced(st.letters, st.events, jobId, claim.value, script))
  }

  // What the source says of these, in its own terms

  // A letter and its event are written when they are due, and nothing else happens to either collection.
  ghost predicate LetterRight(before: Stores, after: Stores, due: bool, jobId: JobId, attempts: int, error: string) {
    && after.letters == (if due && jobId !in before.letters
                         then before.letters[jobId := DeadLetter(attempts, error, None)] else before.letters)
    && after.events == before.events + (if due && jobId !in before.letters then [DeadEvent(jobId, attempts)] else [])
  }

  // An entry is moved to its new time when it is there and the move is due; no other entry changes.
  ghost predicate MoveRight(before: Queues, after: Queues, due: bool, jobType: JobType, jobId: JobId, nextRunAt: int) {
    && (forall t :: t != jobType ==> Queue(after, t) == Queue(before, t))
    && forall e :: e in Queue(after, jobType) <==>
         if due && e.member == jobId && (exists x :: x in Queue(before, jobType) && x.member == jobId)
         then e == Entry(jobId, nextRunAt) else e in Queue(before, jobType)
  }

  ghost predicate OthersSame(before: map<JobId, Job>, after: map<JobId, Job>, jobId: JobId) {
    after.Keys == before.Keys && forall id :: id in before && id != jobId ==> after[id] == before[id]
  }

  predicate Dies(was: Job, token: int, doc: Job) {
    doc == was.(status := Dead, version := token + 1)
  }

  predicate Fails(was: Job, token: int, error: string, nextRunAt: int, doc: Job) {
    doc == was.(status := Failed, lastError := if |error| <= 2_000 then error else error[..2_000],
                nextRunAt := nextRunAt, version := token + 1)
  }

  // Exhausted: dead if the version matches, letter and event in any case.  Otherwise: failed if it is
  // running under that version, and the entry, if there is one, moved to the next time.
  ghost predicate FailureRight(before: Stores, after: Stores, jobId: JobId, job: Job, error: string, token: int,
                               script: Script, now: int)
  {
    var exhausted := job.attempts >= job.input.maxAttempts;
    var nextRunAt := now + Delay(job.attempts) + script.jitter;
    && OthersSame(before.jobs, after.jobs, jobId)
    && (jobId in before.jobs ==>
          var was, doc := before.jobs[jobId], after.jobs[jobId];
          if script.closingFails then doc == was
          else if exhausted then if was.version == token then Dies(was, token, doc) else doc == was
          else if was.status == Running && was.version == token then Fails(was, token, error, nextRunAt, doc)
          else doc == was)
    && LetterRight(before, after, exhausted && !script.closingFails && !script.letterFails, jobId, job.attempts, error)
    && MoveRight(before.queues, after.queues, !exhausted && !script.closingFails && !script.rescheduleFails,
                 job.input.jobType, jobId, nextRunAt)
  }

  lemma FailureIsRight(st: Stores, jobId: JobId, job: Job, error: string, token: int, script: Script, now: int)
    ensures FailureRight(st, AfterFailure(st, jobId, job, error, token, script, now),
                         jobId, job, error, token, script, now)
  {
    MovedIsRight(st.queues, jobId, job, script, now);
  }

  lemma MovedIsRight(queues: Queues, jobId: JobId, job: Job, script: Script, now: int)
    ensures MoveRight(queues, Requeued(queues, jobId, job, script, now),
                      job.attempts < job.input.maxAttempts && !script.closingFails && !script.rescheduleFails,
                      job.input.jobType, jobId, now + Delay(job.attempts) + script.jitter)
  {
  }

  // The claim lands on a pending document of that version.  What then throws decides the rest: with the
  // returned version as token (k = 0) the document is closed, with any other it stays as claimed.
  ghost predicate ExecutionRight(k: int, before: Stores, after: Stores, jobId: JobId, version: int, script: Script,
                                 now: int)
  {
    && OthersSame(before.jobs, after.jobs, jobId)
    && if !(jobId in before.jobs && before.jobs[jobId].status == Pending && before.jobs[jobId].version == version)
       then after == before
       else
         var was := before.jobs[jobId];
         var claimed := was.(status := Running, startedAt := Some(now), lastAttemptAt := Some(now),
                             version := version + 1, attempts := was.attempts + 1);
         var thrown := if script.handler.Some? then script.handler
                       else if script.completeLost.Some? then script.completeLost else script.wrapUp;
         var caught := !script.announceFails && thrown.Some? && !script.recordFails && !script.closingFails;
         var exhausted := was.attempts + 1 >= was.input.maxAttempts;
         var nextRunAt := now + Delay(was.attempts + 1) + script.jitter;
         && DocumentRight(k, claimed, after.jobs[jobId], script, caught, exhausted,
                          if thrown.Some? then thrown.value else "", nextRunAt, now)
         && LetterRight(before, after, caught && exhausted && !script.letterFails, jobId, was.attempts + 1,
                        if thrown.Some? then thrown.value else "")
         && MoveRight(before.queues, after.queues, caught && !exhausted && !script.rescheduleFails,
                      was.input.jobType, jobId, nextRunAt)
  }

  ghost predicate DocumentRight(k: int, claimed: Job, doc: Job, script: Script, caught: bool, exhausted: bool,
                                error: string, nextRunAt: int, now: int)
  {
    if k != 0 || script.announceFails then doc == claimed
    else if script.handler.None? && script.completeLost.None? then
      doc == claimed.(status := Completed, completedAt := Some(now), version := claimed.version + 1)
    else if !caught then doc == claimed
    else if exhausted then Dies(claimed, claimed.version, doc)
    else Fails(claimed, claimed.version, error, nextRunAt, doc)
  }

  lemma ExecutionIsRight(k: int, st: Stores, jobId: JobId, version: int, script: Script, now: int)
    ensures ExecutionRight(k, st, AfterExecution(k, st, jobId, version, script, now), jobId, version, script, now)
  {
    if jobId in st.jobs && ClaimJob(st.jobs[jobId], version, now).Some? {
      var claimed := ClaimJob(st.jobs[jobId], version, now).value;
      MovedIsRight(st.queues, jobId, claimed, script, now);
      OutcomeIsRight(k, claimed, script, now);
    }
  }

  lemma OutcomeIsRight(k: int, claimed: Job, script: Script, now: int)
    requires claimed.status == Running
    ensures var thrown := Thrown(script);
      DocumentRight(k, claimed, Outcome(k, claimed, script, now), script,
                    Catches(script) && !script.closingFails, Exhausted(claimed),
                    if thrown.Some? then thrown.value else "",
                    now + Delay(claimed.attempts) + script.jitter, now)
  {
  }

  class RetryService {
    const repository: JobRepository
    const queue: RedisJobQueue
    const letters: DeadLetterService

    constructor (repository: JobRepository, queue: RedisJobQueue, letters: DeadLetterService)
      ensures this.repository == repository && this.queue == queue && this.letters == letters
    {
      this.repository, this.queue, this.letters := repository, queue, letters;
    }

    ghost function Now(): Stores
      reads repository, queue, letters
    {
      Stores(repository.jobs, queue.queues, letters.letters, letters.events)
    }

    method HandleFailure(jobId: JobId, job: Job, error: string, newVersion: int, now: int, script: Script)
      requires queue.Valid() && letters.Valid()
      modifies repository, queue, letters
      ensures queue.Valid() && letters.Valid()
      ensures Now() == AfterFailure(old(Now()), jobId, job, error, newVersion, script, now)
      ensures FailureRight(old(Now()), Now(), jobId, job, error, newVersion, script, now)
    {
      CloseAndTell(jobId, job, error, newVersion, now, script);
      FailureIsRight(old(Now()), jobId, job, error, newVersion, script, now);
    }

    // The result of the closing write is ignored: the letter is written, or the queue told, anyway.
    method CloseAndTell(jobId: JobId, job: Job, error: string, newVersion: int, now: int, script: Script)
      requires queue.Valid() && letters.Valid()
      modifies repository, queue, letters
      ensures queue.Valid() && letters.Valid()
      ensures Now() == AfterFailure(old(Now()), jobId, job, error, newVersion, script, now)
    {
      if script.closingFails {
        return;
      }
      ghost var before := repository.jobs;
      if Exhausted(job) {
        var dead := repository.Bury(jobId, newVersion);
        ReplacedIsStored(before, repository.jobs, jobId, dead);
        var _ := letters.Create(jobId, job.attempts, error, script.letterFails);
        return;
      }
      var nextRunAt := now + Delay(job.attempts) + script.jitter;
      var failed := repository.Fail(jobId, newVersion, error, nextRunAt);
      ReplacedIsStored(before, repository.jobs, jobId, failed);
      if script.rescheduleFails {
        return;
      }
      var _ := queue.Reschedule(job.input.jobType, jobId, nextRunAt);
    }
  }

  lemma ReplacedIsStored(before: map<JobId, Job>, after: map<JobId, Job>, jobId: JobId, answer: Option<Job>)
    requires Replaced(before, after, jobId, answer)
    ensures after == Store(before, jobId, answer)
  {
  }

  class JobExecutor {
    const k: int
    const retry: RetryService

    constructor (k: int, retry: RetryService)
      ensures this.k == k && this.retry == retry
    {
      this.k, this.retry := k, retry;
    }

    ghost predicate Valid(s: State)
      reads retry.repository, retry.queue, retry.letters
    {
      && retry.queue.Valid() && retry.letters.Valid()
      && Mirrors(s, retry.repository.jobs, retry.queue.queues, retry.letters.letters, retry.letters.events)
    }

    // An execution that holds a claim, in the given phase.
    ghost predicate Holds(s: State, t: TaskId, jobId: JobId, claimed: Job, phase: Phase) {
      t in s.tasks && s.tasks[t].Exec? && s.tasks[t].jobId == jobId && s.tasks[t].claimed == claimed
      && s.tasks[t].phase == phase
    }

    /** Whatever throws, an undisturbed execution is a run of the transition system by its own task,
        and leaves the document as `Outcome` says. */
    method Execute(jobId: JobId, version: int, script: Script, ghost s: State, ghost t: TaskId, now: int)
      returns (ghost s': State)
      requires Valid(s) && now == s.clock && script.jitter < 1_000
      requires t in s.tasks && s.tasks[t] == Claiming(jobId, version, now)
      modifies retry.repository, retry.queue, retry.letters
      ensures Valid(s') && Led(k, t, s, s')
      ensures retry.Now() == AfterExecution(k, old(retry.Now()), jobId, version, script, now)
      ensures ExecutionRight(k, old(retry.Now()), retry.Now(), jobId, version, script, now)
    {
      LedIsKept(k, t, s);
      ExecutionIsRight(k, retry.Now(), jobId, version, script, now);
      s' := ClaimAndRun(jobId, version, script, x => Led(k, t, s, x), s, t, now);
    }

    method ClaimAndRun(jobId: JobId, version: int, script: Script, ghost p: State -> bool, ghost s: State,
                       ghost t: TaskId, now: int)
      returns (ghost s': State)
      requires KeptBy(k, t, p) && p(s)
      requires Valid(s) && now == s.clock && script.jitter < 1_000
      requires t in s.tasks && s.tasks[t] == Claiming(jobId, version, now)
      modifies retry.repository, retry.queue, retry.letters
      ensures Valid(s') && p(s')
      ensures retry.Now() == AfterExecution(k, old(retry.Now()), jobId, version, script, now)
    {
      ghost var st := retry.Now();
      var claimed := retry.repository.Claim(jobId, version, now);
      ReplacedIsStored(st.jobs, retry.repository.jobs, jobId, claimed);
      s' := ClaimMove(jobId, version, p, s, t, now);
      if claimed.Some? {
        s' := RunClaimed(jobId, claimed.value, script, p, s', t, now);
        ExecutionComposes(k, st, jobId, version, script, now);
      }
    }

    method RunClaimed(jobId: JobId, claimed: Job, script: Script, ghost p: State -> bool, ghost s: State,
                      ghost t: TaskId, now: int)
      returns (ghost s': State)
      requires KeptBy(k, t, p) && p(s)
      requires Valid(s) && now == s.clock && Holds(s, t, jobId, claimed, Announcing) && script.jitter < 1_000
      modifies retry.repository, retry.queue, retry.letters
      ensures Valid(s') && p(s')
      ensures retry.Now() == AfterClaim(k, old(retry.Now()), jobId, claimed, script, now)
    {
      s' := s;
      if script.announceFails {
        return;
      }
      var error;
      s', error := Try(jobId, claimed, script, p, s, t, now);
      if error.Some? && !script.recordFails {
        s' := Catch(jobId, claimed, error.value, script, p, s', t, now);
      }
    }

    // The try block.  A throw after markCompleted has landed is a throw all the same.
    method Try(jobId: JobId, claimed: Job, script: Script, ghost p: State -> bool, ghost s: State, ghost t: TaskId,
               now: int)
      returns (ghost s': State, error: Option<string>)
      requires KeptBy(k, t, p) && p(s)
      requires Valid(s) && now == s.clock && Holds(s, t, jobId, claimed, Announcing)
      modifies retry.repository
      ensures Valid(s') && p(s') && s'.clock == now
      ensures error == Thrown(script)
      ensures error.Some? ==> Holds(s', t, jobId, claimed, Failing(error.value))
      ensures retry.repository.jobs == Tried(k, old(retry.repository.jobs), jobId, claimed, script, now)
    {
      s' := Turn(p, s, t, Announce(t));
      error := script.handler;
      s' := Turn(p, s', t, Handle(t, error));
      if error.None? {
        error := script.completeLost;
        if error.Some? {
          s' := Turn(p, s', t, LoseComplete(t, error.value));
        } else {
          s' := CompleteNow(jobId, claimed, p, s', t, now);
          error := script.wrapUp;
          s' := Turn(p, s', t, Wrap(t, error));
        }
      }
    }

    // A step that only moves the execution to another phase.
    lemma Turn(p: State -> bool, s: State, t: TaskId, a: Action) returns (s': State)
      requires KeptBy(k, t, p) && p(s) && InPhase(s, t) && Enabled(s, a)
      requires a.Announce? || a.Handle? || a.LoseComplete? || a.Wrap? || a.Fail?
      requires a.t == t
      ensures p(s') && s' == s.(tasks := s.tasks[t := s.tasks[t].(phase := PhaseAfter(s, a))])
    {
      s' := Perform(k, s, a);
    }

    lemma ClaimMove(jobId: JobId, version: int, p: State -> bool, s: State, t: TaskId, now: int) returns (s': State)
      requires KeptBy(k, t, p) && p(s)
      requires t in s.tasks && s.tasks[t] == Claiming(jobId, version, now)
      ensures p(s') && s'.clock == s.clock && s'.queues == s.queues && s'.letters == s.letters && s'.events == s.events
      ensures var claim := if jobId in s.jobs then ClaimJob(s.jobs[jobId].job, version, now) else None;
        && Documents(s'.jobs) == Store(Documents(s.jobs), jobId, claim)
        && (claim.Some? ==> Holds(s', t, jobId, claim.value, Announcing))
    {
      LandedDocuments(s.jobs, jobId, ClaimEvent(s, t));
      s' := Perform(k, s, Claim(t));
    }

    method CompleteNow(jobId: JobId, claimed: Job, ghost p: State -> bool, ghost s: State, ghost t: TaskId, now: int)
      returns (ghost s': State)
      requires KeptBy(k, t, p) && p(s)
      requires Valid(s) && now == s.clock && Holds(s, t, jobId, claimed, Completing(now))
      modifies retry.repository
      ensures Valid(s') && p(s') && s'.clock == now && Holds(s', t, jobId, claimed, Wrapping)
      ensures retry.repository.jobs ==
        if jobId in old(retry.repository.jobs) then
          Store(old(retry.repository.jobs), jobId,
                MarkCompleted(old(retry.repository.jobs)[jobId], claimed.version + k, now))
        else old(retry.repository.jobs)
    {
      var _ := retry.repository.Complete(jobId, claimed.version + k, now);
      LandedDocuments(s.jobs, jobId, ClosingEvent(k, s, t, Completion(now)));
      s' := Perform(k, s, Complete(t));
    }

    // The catch block, from the branch on attempts.
    method Catch(jobId: JobId, claimed: Job, error: string, script: Script, ghost p: State -> bool, ghost s: State,
                 ghost t: TaskId, now: int)
      returns (ghost s': State)
      requires KeptBy(k, t, p) && p(s)
      requires Valid(s) && now == s.clock && Holds(s, t, jobId, claimed, Failing(error)) && script.jitter < 1_000
      modifies retry.repository, retry.queue, retry.letters
      ensures Valid(s') && p(s')
      ensures retry.Now() == AfterFailure(old(retry.Now()), jobId, claimed, error, claimed.version + k, script, now)
    {
      s' := CatchMoves(jobId, claimed, error, script, p, s, t);
      retry.HandleFailure(jobId, claimed, error, claimed.version + k, now, script);
    }

    lemma CatchMoves(jobId: JobId, claimed: Job, error: string, script: Script, p: State -> bool, s: State, t: TaskId)
      returns (s': State)
      requires KeptBy(k, t, p) && p(s)
      requires Holds(s, t, jobId, claimed, Failing(error)) && script.jitter < 1_000
      ensures p(s')
      ensures Stores(Documents(s'.jobs), s'.queues, s'.letters, s'.events) ==
        AfterFailure(Stores(Documents(s.jobs), s.queues, s.letters, s.events), jobId, claimed, error,
                     claimed.version + k, script, s.clock)
    {
      if script.closingFails {
        s' := Turn(p, s, t, Fail(t, script.jitter));
      } else if Exhausted(claimed) {
        s' := BuryMoves(jobId, claimed, error, p, s, t, script);
      } else {
        s' := FailMoves(jobId, claimed, error, p, s, t, script);
      }
    }

    lemma BuryMoves(jobId: JobId, claimed: Job, error: string, p: State -> bool, s: State, t: TaskId, script: Script)
      returns (s': State)
      requires KeptBy(k, t, p) && p(s)
      requires Holds(s, t, jobId, claimed, Failing(error)) && script.jitter < 1_000
      requires Exhausted(claimed) && !script.closingFails
      ensures p(s') && s'.queues == s.queues
      ensures Documents(s'.jobs) ==
        Store(Documents(s.jobs), jobId,
              if jobId in s.jobs then Jobs.MarkDead(s.jobs[jobId].job, claimed.version + k) else None)
      ensures s'.letters == Lettered(s.letters, jobId, claimed, error, script)
      ensures s'.events == s.events +
        if LeavesLetter(s.letters, jobId, claimed, script) then [DeadEvent(jobId, claimed.attempts)] else []
    {
      var s1 := Turn(p, s, t, Fail(t, script.jitter));
      var s2 := BuriedMove(jobId, claimed, error, p, s1, t);
      s' := LetterMove(jobId, claimed, error, p, s2, t, script);
    }

    lemma BuriedMove(jobId: JobId, claimed: Job, error: string, p: State -> bool, s: State, t: TaskId)
      returns (s': State)
      requires KeptBy(k, t, p) && p(s) && Holds(s, t, jobId, claimed, MarkingDead(error))
      ensures p(s') && Holds(s', t, jobId, claimed, WritingLetter(error))
      ensures s'.queues == s.queues && s'.letters == s.letters && s'.events == s.events
      ensures Documents(s'.jobs) ==
        Store(Documents(s.jobs), jobId,
              if jobId in s.jobs then Jobs.MarkDead(s.jobs[jobId].job, claimed.version + k) else None)
    {
      LandedDocuments(s.jobs, jobId, ClosingEvent(k, s, t, Death));
      s' := Perform(k, s, MarkDead(t));
    }

    lemma LetterMove(jobId: JobId, claimed: Job, error: string, p: State -> bool, s: State, t: TaskId, script: Script)
      returns (s': State)
      requires KeptBy(k, t, p) && p(s) && Holds(s, t, jobId, claimed, WritingLetter(error))
      requires Exhausted(claimed) && !script.closingFails
      ensures p(s') && s'.queues == s.queues && s'.jobs == s.jobs
      ensures s'.letters == Lettered(s.letters, jobId, claimed, error, script)
      ensures s'.events == s.events +
        if LeavesLetter(s.letters, jobId, claimed, script) then [DeadEvent(jobId, claimed.attempts)] else []
    {
      s' := Perform(k, s, WriteLetter(t, script.letterFails));
    }

    lemma FailMoves(jobId: JobId, claimed: Job, error: string, p: State -> bool, s: State, t: TaskId, script: Script)
      returns (s': State)
      requires KeptBy(k, t, p) && p(s)
      requires Holds(s, t, jobId, claimed, Failing(error)) && script.jitter < 1_000 && !Exhausted(claimed)
      ensures p(s') && s'.letters == s.letters && s'.events == s.events
      ensures var nextRunAt := s.clock + Delay(claimed.attempts) + script.jitter;
        && Documents(s'.jobs) ==
             Store(Documents(s.jobs), jobId,
                   if jobId !in s.jobs then None
                   else Jobs.MarkFailed(s.jobs[jobId].job, claimed.version + k, error, nextRunAt))
        && s'.queues == if script.rescheduleFails then s.queues
                        else Moved(s.queues, claimed.input.jobType, Entry(jobId, nextRunAt))
    {
      var nextRunAt := s.clock + Delay(claimed.attempts) + script.jitter;
      var s1 := Turn(p, s, t, Fail(t, script.jitter));
      s' := FailedMove(jobId, claimed, error, nextRunAt, p, s1, t);
      if !script.rescheduleFails {
        s' := Perform(k, s', Reschedule(t));
      }
    }

    lemma FailedMove(jobId: JobId, claimed: Job, error: string, nextRunAt: int, p: State -> bool, s: State, t: TaskId)
      returns (s': State)
      requires KeptBy(k, t, p) && p(s) && Holds(s, t, jobId, claimed, MarkingFailed(error, nextRunAt))
      ensures p(s') && Holds(s', t, jobId, claimed, Rescheduling(nextRunAt))
      ensures s'.queues == s.queues && s'.letters == s.letters && s'.events == s.events
      ensures Documents(s'.jobs) ==
        Store(Documents(s.jobs), jobId,
              if jobId !in s.jobs then None
              else Jobs.MarkFailed(s.jobs[jobId].job, claimed.version + k, error, nextRunAt))
    {
      LandedDocuments(s.jobs, jobId, ClosingEvent(k, s, t, Failure(error, nextRunAt)));
      s' := Perform(k, s, MarkFailed(t));
    }
  }

  predicate Exhausted(claimed: Job) {
    claimed.attempts >= claimed.input.maxAttempts
  }

  function CloseFailure(job: Job, claimed: Job, token: int, error: string, script: Script, now: int): Option<Job> {
    if Exhausted(claimed) then Jobs.MarkDead(job, token)
    else Jobs.MarkFailed(job, token, error, now + Delay(claimed.attempts) + script.jitter)
  }

  // Whether markCompleted is sent, and what the try block throws.
  predicate Attempted(script: Script) {
    script.handler.None? && script.completeLost.None?
  }

  function Thrown(script: Script): Option<string> {
    if script.handler.Some? then script.handler
    else if script.completeLost.Some? then script.completeLost
    else script.wrapUp
  }

  // Whether the catch block gets as far as handleFailure's branch on the attempts.
  predicate Catches(script: Script) {
    !script.announceFails && Thrown(script).Some? && !script.recordFails
  }

  function OrElse(written: Option<Job>, job: Job): Job {
    if written.Some? then written.value else job
  }

  // The document after an execution that nobody disturbs.
  function Outcome(k: int, claimed: Job, script: Script, now: int): Job {
    if script.announceFails then claimed
    else
      var tried :=
        if Attempted(script) then OrElse(MarkCompleted(claimed, claimed.version + k, now), claimed) else claimed;
      if Thrown(script).Some? && !script.recordFails && !script.closingFails then
        OrElse(CloseFailure(tried, claimed, claimed.version + k, Thrown(script).value, script, now), tried)
      else tried
  }

  // What the try block and the catch block do to the stored documents.
  function Tried(k: int, jobs: map<JobId, Job>, jobId: JobId, claimed: Job, script: Script, now: int): map<JobId, Job> {
    if Attempted(script) && jobId in jobs then Store(jobs, jobId, MarkCompleted(jobs[jobId], claimed.version + k, now))
    else jobs
  }

  function Caught(k: int, jobs: map<JobId, Job>, jobId: JobId, claimed: Job, error: string, script: Script, now: int)
    : map<JobId, Job>
  {
    if script.closingFails || jobId !in jobs then jobs
    else Store(jobs, jobId, CloseFailure(jobs[jobId], claimed, claimed.version + k, error, script, now))
  }

  lemma OutcomeComposes(k: int, jobs: map<JobId, Job>, jobId: JobId, claimed: Job, script: Script, now: int)
    ensures var jobs1 := jobs[jobId := claimed];
      var jobs2 := if script.announceFails then jobs1 else Tried(k, jobs1, jobId, claimed, script, now);
      (if Catches(script) then Caught(k, jobs2, jobId, claimed, Thrown(script).value, script, now) else jobs2)
        == jobs[jobId := Outcome(k, claimed, script, now)]
  {
  }

  // The try block and the catch block, from the stores with the claim.
  function AfterClaim(k: int, st: Stores, jobId: JobId, claimed: Job, script: Script, now: int): Stores {
    if script.announceFails then st
    else
      var tried := st.(jobs := Tried(k, st.jobs, jobId, claimed, script, now));
      if Thrown(script).None? || script.recordFails then tried
      else AfterFailure(tried, jobId, claimed, Thrown(script).value, claimed.version + k, script, now)
  }

  lemma ExecutionComposes(k: int, st: Stores, jobId: JobId, version: int, script: Script, now: int)
    requires jobId in st.jobs && ClaimJob(st.jobs[jobId], version, now).Some?
    ensures var claimed := ClaimJob(st.jobs[jobId], version, now).value;
      AfterExecution(k, st, jobId, version, script, now) ==
      AfterClaim(k, st.(jobs := st.jobs[jobId := claimed]), jobId, claimed, script, now)
  {
    OutcomeComposes(k, st.jobs, jobId, ClaimJob(st.jobs[jobId], version, now).value, script, now);
  }

  /** With the code's token an undisturbed execution leaves its job running, whatever happens. */
  lemma LateTokenLeavesRunning(claimed: Job, script: Script, now: int)
    ensures Outcome(1, claimed, script, now) == claimed
  {
  }

  /** With the returned token it closes the job: completed when the handler and markCompleted went
      through, even if something threw after that; otherwise failed, or dead once exhausted. */
  lemma IntendedTokenCloses(claimed: Job, script: Script, now: int)
    requires claimed.status == Running && !script.announceFails
    ensures Outcome(0, claimed, script, now).status ==
      if Attempted(script) then Completed
      else if script.recordFails || script.closingFails then Running
      else if Exhausted(claimed) then Dead else Failed
  {
  }
}
