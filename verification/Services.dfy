/** The job service, the due queue and the watchdog as runs of the transition system: each call, with
    nobody in between, is a run of its own task and leaves the stores as that run does. */
module Services {
  import opened Types
  import opened Jobs
  import opened Lifecycle
  import opened SortedSets
  import opened JobQueue
  import opened Scheduler
  import opened Stranding
  import Execution
  import JobDefinitions
  import Watchdog

  ghost predicate Mirrors(s: State, jobs: map<JobId, Job>, queues: Queues) {
    jobs == Execution.Documents(s.jobs) && queues == s.queues
  }

  // Enqueue

  lemma CreatedDocuments(k: int, s: State, t: TaskId, id: JobId, input: EnqueueJobInput)
    requires t in s.tasks && s.tasks[t] == Creating(id, input)
    ensures Execution.Documents(Perform(k, s, Create(t)).jobs) == Upsert(Execution.Documents(s.jobs), id, input)
  {
  }

  lemma EnqueueMoves(k: int, s: State, t: TaskId, id: JobId, input: EnqueueJobInput) returns (s': State)
    requires Fresh(s, t)
    ensures Run(k, s, [Request(t, id, input), Create(t), Add(t)]) == Some(s')
    ensures Execution.Documents(s'.jobs) == Upsert(Execution.Documents(s.jobs), id, input)
    ensures s'.queues ==
      s.queues[input.jobType := AddIfAbsent(Queue(s.queues, input.jobType), Entry(id, input.nextRunAt))]
  {
    var s1 := Perform(k, s, Request(t, id, input));
    assert s1.tasks[t] == Creating(id, input) && s1.jobs == s.jobs && s1.queues == s.queues;
    CreatedDocuments(k, s1, t, id, input);
    var s2 := Perform(k, s1, Create(t));
    assert s2.tasks[t] == Adding(input.jobType, id, input.nextRunAt) && s2.queues == s.queues;
    s' := Perform(k, s2, Add(t));
    RunThree(k, s, Request(t, id, input), Create(t), Add(t), s1, s2);
  }

  /** Enqueueing a request is one task's request, upsert and ZADD. */
  method EnqueueInSystem(k: int, service: JobDefinitions.JobService, request: JobDefinitions.Request,
                         ghost s: State, ghost t: TaskId)
    returns (job: Job, ghost s': State)
    requires service.queue.Valid() && Mirrors(s, service.repository.jobs, service.queue.queues) && Fresh(s, t)
    modifies service.repository, service.queue
    ensures service.queue.Valid() && Mirrors(s', service.repository.jobs, service.queue.queues)
    ensures var id, input := JobDefinitions.JobIdOf(request), JobDefinitions.InputOf(request);
      Run(k, s, [Request(t, id, input), Create(t), Add(t)]) == Some(s')
  {
    job := service.Enqueue(request);
    s' := EnqueueMoves(k, s, t, JobDefinitions.JobIdOf(request), JobDefinitions.InputOf(request));
    assert [JobDefinitions.CreationOf(request)][..0] == [];
  }

  // Cancel

  lemma CancelMoves(k: int, s: State, t: TaskId, id: JobId) returns (run: seq<Action>, s': State)
    requires Fresh(s, t)
    ensures Run(k, s, run) == Some(s') && RequestCancel(t, id) in run && Cancel(t) in run
    ensures var cancelled := if id in s.jobs then CancelJob(s.jobs[id].job) else None;
      && Execution.Documents(s'.jobs) == Store(Execution.Documents(s.jobs), id, cancelled)
      && (Remove(t) in run <==> cancelled.Some?)
      && s'.queues ==
           if cancelled.None? then s.queues
           else s.queues[cancelled.value.input.jobType :=
                           Without(Queue(s.queues, cancelled.value.input.jobType), {id})]
  {
    var s1 := Perform(k, s, RequestCancel(t, id));
    assert s1.tasks[t] == Cancelling(id) && s1.jobs == s.jobs && s1.queues == s.queues;
    Execution.LandedDocuments(s.jobs, id, Cancelled);
    var s2 := Perform(k, s1, Cancel(t));
    if id in s.jobs && CancelJob(s.jobs[id].job).Some? {
      assert s2.tasks[t] == Removing(s.jobs[id].job.input.jobType, id) && s2.queues == s.queues;
      run := [RequestCancel(t, id), Cancel(t), Remove(t)];
      s' := Perform(k, s2, Remove(t));
      RunThree(k, s, RequestCancel(t, id), Cancel(t), Remove(t), s1, s2);
    } else {
      run := [RequestCancel(t, id), Cancel(t)];
      s' := s2;
      RunTwo(k, s, RequestCancel(t, id), Cancel(t), s1);
    }
  }

  /** Cancelling a job is one task's write and, if it landed, its ZREM. */
  method CancelInSystem(k: int, service: JobDefinitions.JobService, jobId: JobId, ghost s: State, ghost t: TaskId)
    returns (job: Option<Job>, ghost run: seq<Action>, ghost s': State)
    requires service.queue.Valid() && Mirrors(s, service.repository.jobs, service.queue.queues) && Fresh(s, t)
    modifies service.repository, service.queue
    ensures service.queue.Valid() && Mirrors(s', service.repository.jobs, service.queue.queues)
    ensures Run(k, s, run) == Some(s') && (Remove(t) in run <==> job.Some?)
  {
    run, s' := CancelMoves(k, s, t, jobId);
    job := service.Cancel(jobId);
  }

  // Dequeue

  lemma RangeMove(k: int, s: State, t: TaskId, jobType: JobType, count: nat) returns (s': State)
    requires t in s.tasks && s.tasks[t].Polling?
    ensures var nowMs := s.tasks[t].nowMs;
      var ids := Members(FirstDue(Queue(s.queues, jobType), nowMs, count));
      && s' == Perform(k, s, Range(t, jobType, count))
      && s' == s.(tasks := s.tasks[t := if ids == [] then Polling(nowMs) else Popping(nowMs, jobType, ids)])
  {
    s' := Perform(k, s, Range(t, jobType, count));
  }

  lemma PopMove(k: int, s: State, t: TaskId, nowMs: int, jobType: JobType, ids: seq<JobId>) returns (s': State)
    requires t in s.tasks && s.tasks[t] == Popping(nowMs, jobType, ids)
    ensures s' == Perform(k, s, Pop(t))
    ensures s' == s.(tasks := s.tasks[t := Polling(nowMs)], inbox := s.inbox + multiset(ids),
                     queues := s.queues[jobType := Without(Queue(s.queues, jobType), AsSet(ids))])
  {
    s' := Perform(k, s, Pop(t));
  }

  lemma NothingFound(k: int, s: State, t: TaskId, jobType: JobType, count: nat)
    requires t in s.tasks && s.tasks[t].Polling?
    requires Members(FirstDue(Queue(s.queues, jobType), s.tasks[t].nowMs, count)) == []
    ensures Run(k, s, [Range(t, jobType, count)]) == Some(s)
  {
    var s1 := RangeMove(k, s, t, jobType, count);
    RunLast(k, s, [], Range(t, jobType, count));
    assert [] + [Range(t, jobType, count)] == [Range(t, jobType, count)];
    assert s1.tasks == s.tasks;
  }

  lemma SomeFound(k: int, s: State, t: TaskId, jobType: JobType, count: nat, ids: seq<JobId>) returns (s': State)
    requires t in s.tasks && s.tasks[t].Polling? && ids != []
    requires ids == Members(FirstDue(Queue(s.queues, jobType), s.tasks[t].nowMs, count))
    ensures Run(k, s, [Range(t, jobType, count), Pop(t)]) == Some(s')
    ensures s' == s.(inbox := s.inbox + multiset(ids),
                     queues := s.queues[jobType := Without(Queue(s.queues, jobType), AsSet(ids))])
  {
    var s1 := RangeMove(k, s, t, jobType, count);
    RunLast(k, s, [], Range(t, jobType, count));
    assert [] + [Range(t, jobType, count)] == [Range(t, jobType, count)];
    s' := PopLast(k, s, [Range(t, jobType, count)], s1, t, s.tasks[t].nowMs, jobType, ids);
    assert [Range(t, jobType, count)] + [Pop(t)] == [Range(t, jobType, count), Pop(t)];
  }

  lemma PopLast(k: int, s: State, run: seq<Action>, s1: State, t: TaskId, nowMs: int, jobType: JobType, ids: seq<JobId>)
    returns (s': State)
    requires t in s.tasks && s.tasks[t] == Polling(nowMs) && Run(k, s, run) == Some(s1)
    requires s1 == s.(tasks := s.tasks[t := Popping(nowMs, jobType, ids)])
    ensures Run(k, s, run + [Pop(t)]) == Some(s')
    ensures s' == s.(inbox := s.inbox + multiset(ids),
                     queues := s.queues[jobType := Without(Queue(s.queues, jobType), AsSet(ids))])
  {
    s' := PopMove(k, s1, t, nowMs, jobType, ids);
    RunLast(k, s, run, Pop(t));
    assert s'.tasks == s.tasks;
  }

  lemma DequeueMoves(k: int, s: State, t: TaskId, jobType: JobType, count: nat) returns (run: seq<Action>, s': State)
    requires t in s.tasks && s.tasks[t].Polling?
    ensures Run(k, s, run) == Some(s') && s'.jobs == s.jobs && s'.tasks == s.tasks
    ensures var z, nowMs := Queue(s.queues, jobType), s.tasks[t].nowMs;
      && Queue(s'.queues, jobType) == Popped(z, nowMs, count)
      && (forall other :: other != jobType ==> Queue(s'.queues, other) == Queue(s.queues, other))
      && s'.inbox == s.inbox + multiset(Members(FirstDue(z, nowMs, count)))
  {
    var z, nowMs := Queue(s.queues, jobType), s.tasks[t].nowMs;
    var ids := Members(FirstDue(z, nowMs, count));
    if ids == [] {
      run, s' := [Range(t, jobType, count)], s;
      NothingFound(k, s, t, jobType, count);
      NothingPopped(z, nowMs, count);
      assert s.inbox + multiset(ids) == s.inbox;
    } else {
      run := [Range(t, jobType, count), Pop(t)];
      s' := SomeFound(k, s, t, jobType, count, ids);
    }
  }

  /** A dequeue is one task's range and, if that found something, its pop, which hands out what it found. */
  method DequeueInSystem(k: int, queue: RedisJobQueue, jobType: JobType, nowMs: int, count: nat,
                         ghost s: State, ghost t: TaskId)
    returns (jobIds: seq<JobId>, ghost run: seq<Action>, ghost s': State)
    requires queue.Valid() && SameQueues(queue.queues, s.queues) && t in s.tasks && s.tasks[t] == Polling(nowMs)
    modifies queue
    ensures queue.Valid() && SameQueues(queue.queues, s'.queues)
    ensures Run(k, s, run) == Some(s') && s'.inbox == s.inbox + multiset(jobIds)
  {
    run, s' := DequeueMoves(k, s, t, jobType, count);
    jobIds := queue.Dequeue(jobType, nowMs, count);
  }

  // An absent key and an empty set are the same queue.
  ghost predicate SameQueues(a: Queues, b: Queues) {
    forall jobType :: Queue(a, jobType) == Queue(b, jobType)
  }

  // Watchdog

  lemma ResetMove(k: int, s: State, t: TaskId, id: JobId) returns (s': State)
    requires t in s.tasks && s.tasks[t].Resetting?
    ensures s' == Perform(k, s, ResetOne(t, id))
    ensures s' == s.(jobs := Land(s.jobs, id, Reset(s.tasks[t].cutoff, s.clock)))
  {
    s' := Perform(k, s, ResetOne(t, id));
    assert s'.tasks == s.tasks;
  }

  predicate By(run: seq<Action>, t: TaskId) {
    forall a :: a in run ==> Mover(a) == Some(t)
  }

  lemma {:induction false} ResetMoves(k: int, s: State, t: TaskId, ids: seq<JobId>)
    returns (run: seq<Action>, s': State)
    requires t in s.tasks && s.tasks[t].Resetting?
    ensures Run(k, s, run) == Some(s') && By(run, t)
    ensures s' == s.(jobs := Watchdog.Visited(s.jobs, ids, s.tasks[t].cutoff, s.clock))
  {
    if ids == [] {
      run, s' := [], s;
    } else {
      var before;
      run, before := ResetMoves(k, s, t, ids[..|ids| - 1]);
      RunLast(k, s, run, ResetOne(t, ids[|ids| - 1]));
      run := run + [ResetOne(t, ids[|ids| - 1])];
      s' := ResetMove(k, before, t, ids[|ids| - 1]);
    }
  }

  lemma WatchMoves(k: int, s: State, t: TaskId) returns (run: seq<Action>, s': State)
    requires Fresh(s, t)
    ensures Run(k, s, [StartReset(t)] + run) == Some(s') && By(run, t) && s'.queues == s.queues
    ensures Execution.Documents(s'.jobs) == Watchdog.AllReset(Execution.Documents(s.jobs), s.clock - 300_000)
  {
    var s1 := Perform(k, s, StartReset(t));
    assert s1 == s.(tasks := s.tasks[t := Resetting(s.clock - 300_000)]);
    var ids := AllIds(s.jobs.Keys);
    run, s' := ResetMoves(k, s1, t, ids);
    RunCons(k, s, StartReset(t), run);
    Watchdog.VisitsAreUpdateMany(s.jobs, ids, s.clock - 300_000, s.clock);
  }

  lemma {:induction false} AllIds(ids: set<JobId>) returns (all: seq<JobId>)
    ensures forall id :: id in ids ==> id in all
    decreases ids
  {
    if ids == {} {
      all := [];
    } else {
      var id :| id in ids;
      all := AllIds(ids - {id});
      all := [id] + all;
    }
  }

  /** A watchdog tick that goes through is one task's visits to the documents; the queues stay. */
  method ResetInSystem(k: int, watchdog: Watchdog.HeartbeatWatchdog, now: int, ghost s: State, ghost t: TaskId)
    returns (count: nat, ghost run: seq<Action>, ghost s': State)
    requires watchdog.repository.jobs == Execution.Documents(s.jobs) && now == s.clock && Fresh(s, t)
    modifies watchdog.repository
    ensures watchdog.repository.jobs == Execution.Documents(s'.jobs) && s'.queues == s.queues
    ensures Run(k, s, [StartReset(t)] + run) == Some(s') && By(run, t)
  {
    count := watchdog.Tick(now, false);
    run, s' := WatchMoves(k, s, t);
  }
}
