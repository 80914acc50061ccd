/** Runs that show what the scheduler does not guarantee. */
module Witness {
  import opened Types
  import opened Jobs
  import opened Lifecycle
  import opened SortedSets
  import opened JobQueue
  import opened Scheduler
  import opened Theorems
  import opened Stranding
  import opened EarlyTimes

  // A property of states that holds on every run once it holds at its start.
  ghost predicate Preserved(k: int, p: State -> bool) {
    forall s, a :: p(s) && Enabled(s, a) ==> p(Perform(k, s, a))
  }

  lemma Step(k: int, p: State -> bool, s: State, a: Action) returns (s': State)
    requires Preserved(k, p) && p(s) && Enabled(s, a)
    ensures p(s') && s' == Perform(k, s, a)
  {
    s' := Perform(k, s, a);
  }

  lemma AnyReachable(k: int)
    ensures Preserved(k, s => Reachable(k, s)) && Reachable(k, START)
  {
    assert Reaches(k, START, [], START);
    forall s, a | Reachable(k, s) && Enabled(s, a) ensures Reachable(k, Perform(k, s, a)) {
      ReachableStep(k, s, a);
    }
  }

  // The weekly payout: due at time 0, three attempts.
  const TYPE := PayoutBatch

  const ID: JobId := "PAYOUT_BATCH:2025-01-03"

  function Input(): EnqueueJobInput {
    EnqueueJobInput(TYPE, "tenant", 0, 0, 1, 3, map[])
  }

  const START := State(0, 0, map[], map[], multiset{}, map[], map[], [], map[])

  ghost predicate OthersEmpty(queues: Queues) {
    forall jobType :: jobType != TYPE ==> Queue(queues, jobType) == []
  }

  // Nothing is on its way, the queue of the type is as given, and task numbers from t on are unused.
  ghost predicate Ready(s: State, t: TaskId, queue: ZSet) {
    && Queue(s.queues, TYPE) == queue && OthersEmpty(s.queues)
    && s.redisClock == 0 && s.inbox == multiset{} && s.letters == map[]
    && forall u :: u in s.tasks ==> u < t && !Carries(s.tasks[u], ID)
  }

  // Executions under way stay as they were.
  ghost predicate Keeps(s: State, s': State) {
    forall u :: u in s.tasks ==> u in s'.tasks && s'.tasks[u] == s.tasks[u]
  }

  lemma Enqueued(k: int, p: State -> bool, s: State, t: TaskId) returns (s': State)
    requires Preserved(k, p) && p(s) && Ready(s, t, [])
    ensures p(s') && Ready(s', t + 1, [Entry(ID, 0)]) && Keeps(s, s') && s'.clock == s.clock
    ensures s'.jobs == if ID in s.jobs then s.jobs else s.jobs[ID := Record(NewJob(Input()), [])]
  {
    var s1 := Step(k, p, s, Request(t, ID, Input()));
    assert s1.tasks[t] == Creating(ID, Input());
    var s2 := Step(k, p, s1, Create(t));
    assert s2.tasks[t] == Adding(TYPE, ID, 0);
    s' := Step(k, p, s2, Add(t));
    OnlyOne(s.queues, [Entry(ID, 0)]);
    assert s'.queues == s.queues[TYPE := [Entry(ID, 0)]];
  }

  lemma OnlyOne(queues: Queues, z: ZSet)
    requires OthersEmpty(queues)
    ensures Queue(queues[TYPE := z], TYPE) == z && OthersEmpty(queues[TYPE := z])
  {
    var queues' := queues[TYPE := z];
    forall jobType | jobType != TYPE ensures Queue(queues', jobType) == [] {
      assert Queue(queues, jobType) == [];
    }
  }

  lemma OneDue()
    ensures Members(FirstDue([Entry(ID, 0)], 0, 1)) == [ID]
    ensures Without([Entry(ID, 0)], AsSet([ID])) == [] && Without([], AsSet([ID])) == []
  {
    assert Due([Entry(ID, 0)][1..], 0) == [];
  }

  // A poller has read the queue and is about to remove what it read.
  lemma Ranged(k: int, p: State -> bool, s: State, t: TaskId) returns (s': State)
    requires Preserved(k, p) && p(s) && t !in s.tasks && s.redisClock == 0 && Queue(s.queues, TYPE) == [Entry(ID, 0)]
    ensures p(s') && s' == s.(tasks := s.tasks[t := Popping(0, TYPE, [ID])])
  {
    OneDue();
    var s1 := Step(k, p, s, ReadTime(t));
    assert s1.tasks[t] == Polling(0);
    s' := Step(k, p, s1, Range(t, TYPE, 1));
  }

  // It removes them, whether they are still there or not, and hands them out.
  lemma Popped(k: int, p: State -> bool, s: State, t: TaskId) returns (s': State)
    requires Preserved(k, p) && p(s) && t in s.tasks && s.tasks[t] == Popping(0, TYPE, [ID])
    requires Queue(s.queues, TYPE) in {[Entry(ID, 0)], []}
    ensures p(s') && s'.clock == s.clock && s'.redisClock == s.redisClock
    ensures s'.jobs == s.jobs && s'.letters == s.letters
    ensures s'.queues == s.queues[TYPE := []] && s'.inbox == s.inbox + multiset{ID}
    ensures s'.tasks == s.tasks[t := Polling(0)]
  {
    OneDue();
    s' := Step(k, p, s, Pop(t));
    assert multiset([ID]) == multiset{ID};
  }

  /** Two pollers that both read the queue before either removed anything hand out one id twice. */
  lemma HandedOutTwice(k: int) returns (s: State)
    ensures Reachable(k, s) && s.inbox[ID] == 2
  {
    AnyReachable(k);
    var p := s => Reachable(k, s);
    var s1 := Enqueued(k, p, START, 0);
    var s2 := Ranged(k, p, s1, 1);
    var s3 := Ranged(k, p, s2, 2);
    var s4 := Popped(k, p, s3, 1);
    s := Popped(k, p, s4, 2);
  }

  // A worker takes the id from the dispatcher, reads the document and is about to claim it.
  lemma AboutToClaim(k: int, p: State -> bool, s: State, t: TaskId) returns (s': State)
    requires Preserved(k, p) && p(s) && t !in s.tasks && s.inbox == multiset{ID} && ID in s.jobs
    ensures p(s') && s' == s.(inbox := multiset{}, tasks := s.tasks[t := Claiming(ID, s.jobs[ID].job.version, s.clock)])
  {
    var s1 := Step(k, p, s, Dispatch(t, ID));
    assert s1.tasks[t] == Fetching(ID) && s1.inbox == multiset{};
    var s2 := Step(k, p, s1, Fetch(t));
    s' := Step(k, p, s2, Stamp(t));
  }

  // An execution holds the claim it made as the next event on the given document.
  ghost predicate Executes(s: State, t: TaskId, before: Record, stamp: int, at: int) {
    && ID in s.jobs && before.job.status == Pending
    && s.jobs[ID] == Record(ClaimJob(before.job, before.job.version, stamp).value,
                            before.history + [Claimed(t, before.job.version, stamp, at, 0)])
    && t in s.tasks && s.tasks[t] == Exec(ID, s.jobs[ID].job, |before.history|, Announcing)
  }

  function Stored(s: State): Record {
    if ID in s.jobs then s.jobs[ID] else Record(NewJob(Input()), [])
  }

  lemma Landed(k: int, p: State -> bool, s: State, t: TaskId, delay: nat) returns (s': State)
    requires Preserved(k, p) && p(s) && ID in s.jobs && s.jobs[ID].job.status == Pending
    requires t in s.tasks && s.tasks[t] == Claiming(ID, s.jobs[ID].job.version, s.clock)
    requires forall u :: u in s.tasks ==> u <= t && (u == t || !Carries(s.tasks[u], ID))
    requires s.redisClock == 0 && s.inbox == multiset{} && s.letters == map[]
    requires OthersEmpty(s.queues) && Queue(s.queues, TYPE) == []
    ensures p(s') && Ready(s', t + 1, []) && s'.clock == s.clock + delay
    ensures Executes(s', t, s.jobs[ID], s.clock, s.clock + delay)
    ensures forall u :: u in s.tasks && u != t ==> u in s'.tasks && s'.tasks[u] == s.tasks[u]
  {
    var s1 := Step(k, p, s, Advance(s.clock + delay, 0));
    s' := Step(k, p, s1, Claim(t));
  }

  // A caller enqueues the job and a tick hands it out.
  lemma HandedOut(k: int, p: State -> bool, s: State, t: TaskId) returns (s': State)
    requires Preserved(k, p) && p(s) && Ready(s, t, [])
    ensures p(s') && Keeps(s, s') && s'.clock == s.clock && s'.redisClock == 0 && s'.letters == map[]
    ensures ID in s'.jobs && s'.jobs[ID] == Stored(s) && s'.inbox == multiset{ID}
    ensures OthersEmpty(s'.queues) && Queue(s'.queues, TYPE) == []
    ensures forall u :: u in s'.tasks ==> u < t + 2 && !Carries(s'.tasks[u], ID)
  {
    var s1 := Enqueued(k, p, s, t);
    var s2 := Ranged(k, p, s1, t + 1);
    s' := Popped(k, p, s2, t + 1);
    OnlyOne(s1.queues, []);
    assert s'.queues == s1.queues[TYPE := []];
  }

  /** A caller enqueues the job, a tick pops it, a worker claims it; the claim lands after a delay. */
  lemma ClaimNext(k: int, p: State -> bool, s: State, t: TaskId, delay: nat) returns (s': State)
    requires Preserved(k, p) && p(s) && Ready(s, t, []) && Stored(s).job.status == Pending
    ensures p(s') && Ready(s', t + 3, []) && Keeps(s, s') && s'.clock == s.clock + delay
    ensures Executes(s', t + 2, Stored(s), s.clock, s.clock + delay)
  {
    var s1 := HandedOut(k, p, s, t);
    var s2 := AboutToClaim(k, p, s1, t + 2);
    s' := Landed(k, p, s2, t + 2, delay);
  }

  /** The watchdog resets the job at a time when it is stale. */
  lemma ResetAt(k: int, p: State -> bool, s: State, t: TaskId, at: int) returns (s': State)
    requires Preserved(k, p) && p(s) && Ready(s, t, []) && s.clock <= at
    requires ID in s.jobs && ResetStale(s.jobs[ID].job, at - STALE_RUNNING_JOB_AGE_MS).Some?
    ensures p(s') && Ready(s', t + 1, []) && Keeps(s, s') && s'.clock == at && ID in s'.jobs
    ensures s'.jobs[ID] == Record(s.jobs[ID].job.(status := Pending, startedAt := None),
                                  s.jobs[ID].history + [Reset(at - STALE_RUNNING_JOB_AGE_MS, at)])
  {
    var s1 := Step(k, p, s, Advance(at, 0));
    var s2 := Step(k, p, s1, StartReset(t));
    s' := Step(k, p, s2, ResetOne(t, ID));
  }

  // Claimed by task 2, reset, and claimed again by task 6 as soon as the stale age allows.
  lemma Reclaim(k: int, p: State -> bool, delay: nat) returns (s: State)
    requires Preserved(k, p) && p(START)
    ensures p(s) && Ready(s, 7, []) && s.clock == Max(delay, 300_001)
    ensures ID in s.jobs && s.jobs[ID].job.status == Running
    ensures s.jobs[ID].job.version == 2 && s.jobs[ID].job.attempts == 2
    ensures s.jobs[ID].job.input == Input() && s.jobs[ID].job.startedAt == Some(s.clock)
    ensures |s.jobs[ID].history| == 3 && s.jobs[ID].history[0] == Claimed(2, 0, 0, delay, 0)
    ensures s.jobs[ID].history[2] == Claimed(6, 1, s.clock, s.clock, 0)
    ensures InPhase(s, 2) && s.tasks[2].jobId == ID && s.tasks[2].phase == Announcing && s.tasks[2].claimed.version == 1
    ensures InPhase(s, 6) && s.tasks[6].jobId == ID && s.tasks[6].phase == Announcing && s.tasks[6].claimed.version == 2
  {
    var s1 := ClaimNext(k, p, START, 0, delay);
    var s2 := ResetAt(k, p, s1, 3, Max(delay, 300_001));
    s := ClaimNext(k, p, s2, 4, 0);
  }

  function Max(a: int, b: int): int {
    if a >= b then a else b
  }

  /** The stale age counts from the start the first claim recorded before it was sent.  When that
      claim takes `delay` to land, the landings of the two claims may be as close as 300 001 ms less
      that delay, or nothing: the bound of ClaimsApart is reached for every delay. */
  lemma LandingsMayBeClose(k: int, delay: nat) returns (s: State)
    ensures Reachable(k, s) && ID in s.jobs
    ensures var h := s.jobs[ID].history;
      && |h| == 3 && h[0].Claimed? && h[2].Claimed?
      && h[0].at - h[0].stamp == delay
      && h[2].at - h[0].at == Max(0, 300_001 - delay)
  {
    AnyReachable(k);
    s := Reclaim(k, s => Reachable(k, s), delay);
  }

  /** A job whose entry was popped before the reset is left pending with nobody to run it. */
  lemma StrandedAfterReset(k: int) returns (s: State)
    ensures Reachable(k, s) && ID in s.jobs && s.jobs[ID].job.status == Pending && Stranded(s, ID)
  {
    AnyReachable(k);
    var s1 := ClaimNext(k, s => Reachable(k, s), START, 0, 0);
    s := ResetAt(k, s => Reachable(k, s), s1, 3, 300_001);
  }

  /** A job requested for a time before 1970 is accepted, and queued, and never due. */
  lemma RequestedTooEarly(k: int) returns (s: State)
    ensures Reachable(k, s) && IsPending(s, ID) && !Stranded(s, ID)
    ensures Frozen(s, ID, TYPE) && NoneCancelling(s, ID)
  {
    var input := Input().(scheduledAt := -1, nextRunAt := -1);
    assert Unknown(START, ID);
    s := RequestGoesThrough(k, START, 0, ID, input);
    RequestedEarly(START, s, 0, ID, input);
    assert Reaches(k, START, [Request(0, ID, input), Create(0), Add(0)], s);
  }

  lemma CompletesUnder(p: State -> bool, s: State, t: TaskId) returns (s': State)
    requires Preserved(1, p) && p(s) && InPhase(s, t) && s.tasks[t].jobId == ID && s.tasks[t].phase == Announcing
    requires ID in s.jobs && s.jobs[ID].job.status == Running
    requires s.jobs[ID].job.version == s.tasks[t].claimed.version + 1
    ensures p(s') && ID in s'.jobs && s'.jobs[ID].job == s.jobs[ID].job.(
        status := Completed, completedAt := Some(s.clock), version := s.jobs[ID].job.version + 1)
    ensures |s'.jobs[ID].history| == |s.jobs[ID].history| + 1 && s.jobs[ID].history <= s'.jobs[ID].history
    ensures var e := s'.jobs[ID].history[|s.jobs[ID].history|]; e.Closed? && e.task == t && e.found == Running
    ensures forall u :: u in s.tasks && u != t ==> u in s'.tasks && s'.tasks[u] == s.tasks[u]
    ensures s'.letters == s.letters
  {
    var s1 := Step(1, p, s, Announce(t));
    var s2 := Step(1, p, s1, Handle(t, None));
    s' := Step(1, p, s2, Complete(t));
  }

  /** With the code's token (k = 1) a superseded execution completes the job under the execution that
      is running it. */
  lemma StaleExecutionCompletesAnother() returns (s: State)
    ensures Reachable(1, s) && ID in s.jobs && s.jobs[ID].job.status == Completed
    ensures var h := s.jobs[ID].history;
      |h| == 4 && h[2].Claimed? && h[2].task == 6 && h[3].Closed? && h[3].task == 2 && h[3].found == Running
  {
    AnyReachable(1);
    var s1 := Reclaim(1, s => Reachable(1, s), 0);
    s := CompletesUnder(s => Reachable(1, s), s1, 2);
  }

  // The third and last attempt, by task 10, with the second one, by task 6, still about.
  lemma LastAttempt(p: State -> bool) returns (s: State)
    requires Preserved(1, p) && p(START)
    ensures p(s) && Ready(s, 11, []) && ID in s.jobs
    ensures s.jobs[ID].job.status == Running && s.jobs[ID].job.version == 3
    ensures InPhase(s, 6) && s.tasks[6].jobId == ID && s.tasks[6].phase == Announcing && s.tasks[6].claimed.version == 2
    ensures LastTry(s)
  {
    var s1 := Reclaim(1, p, 0);
    var s2 := ResetAt(1, p, s1, 7, 600_002);
    s := ClaimNext(1, p, s2, 8, 0);
  }

  ghost predicate LastTry(s: State) {
    && InPhase(s, 10) && s.tasks[10].jobId == ID && s.tasks[10].phase == Announcing && s.tasks[10].claimed.version == 3
    && s.tasks[10].claimed.attempts == 3 && s.tasks[10].claimed.input == Input()
  }

  lemma AboutToBury(p: State -> bool, s: State) returns (s': State)
    requires Preserved(1, p) && p(s) && LastTry(s)
    ensures p(s') && s' == s.(tasks := s.tasks[10 := s.tasks[10].(phase := MarkingDead("error"))])
  {
    var s1 := Step(1, p, s, Announce(10));
    var s2 := Step(1, p, s1, Handle(10, Some("error")));
    s' := Step(1, p, s2, Fail(10, 0));
  }

  /** With the code's token the third execution buries the job over the completion of the second. */
  lemma BurialOverCompletion() returns (s: State)
    ensures Reachable(1, s) && ID in s.jobs && s.jobs[ID].job.status == Dead && s.jobs[ID].job.completedAt.Some?
    ensures var h := s.jobs[ID].history;
      h != [] && h[|h| - 1].Closed? && h[|h| - 1].closing == Death && h[|h| - 1].found == Completed
  {
    AnyReachable(1);
    var p := s => Reachable(1, s);
    var s1 := LastAttempt(p);
    var s2 := CompletesUnder(p, s1, 6);
    var s3 := AboutToBury(p, s2);
    s := Step(1, p, s3, MarkDead(10));
  }

  /** Undisturbed it leaves a dead letter while the job keeps running. */
  lemma LetterWhileRunning() returns (s: State)
    ensures Reachable(1, s) && ID in s.letters && ID in s.jobs && s.jobs[ID].job.status == Running
  {
    AnyReachable(1);
    var p := s => Reachable(1, s);
    var s1 := LastAttempt(p);
    var s2 := AboutToBury(p, s1);
    var s3 := Step(1, p, s2, MarkDead(10));
    s := Step(1, p, s3, WriteLetter(10, false));
  }
}
