/** What every action of the transition system keeps. */
module Invariants {
  import opened Types
  import opened Jobs
  import opened Lifecycle
  import opened SortedSets
  import opened JobQueue
  import opened DeadLetters
  import opened Scheduler

  // Some caller asked for a run no later than this.
  ghost predicate AskedBy(asked: set<int>, bound: int) {
    exists q :: q in asked && q <= bound
  }

  /** The event at position i of a job's history is accounted for: a claim belongs to exactly one
      task and was due; a closing write carries the token of its own claim; a burial was earned. */
  ghost predicate EventOk(k: int, s: State, id: JobId, i: nat)
    requires id in s.jobs && i < |s.jobs[id].history|
  {
    var h := s.jobs[id].history;
    match h[i]
    case Claimed(t, _, _, _, redisAt) =>
      && t in s.tasks && s.tasks[t].Exec? && s.tasks[t].jobId == id && s.tasks[t].slot == i
      && AskedBy(Requested(s, id), redisAt)
    case Closed(t, slot, version, _, closing) =>
      && slot < i && h[slot].Claimed? && h[slot].task == t
      && version == h[slot].version + 1 + k
      && (closing == Death ==> Claims(h[..i]) >= s.jobs[id].job.input.maxAttempts)
    case Cancelled => true
    case Reset(_, _) => true
  }

  ghost predicate RecordOk(k: int, s: State, id: JobId)
    requires id in s.jobs
  {
    var r := s.jobs[id];
    && Replay(r.job.input, r.history) == Some(r.job)
    && Paced(r.history, s.clock)
    && (forall i :: 0 <= i < |r.history| ==> EventOk(k, s, id, i))
  }

  ghost predicate TaskOk(s: State, t: TaskId, task: Task) {
    match task
    case Creating(id, input) => input.nextRunAt in Requested(s, id)
    case Adding(_, id, score) => score in Requested(s, id)
    case Polling(nowMs) => nowMs <= s.redisClock
    case Popping(nowMs, _, ids) =>
      nowMs <= s.redisClock && forall id :: id in ids ==> AskedBy(Requested(s, id), s.redisClock)
    case Fetching(id) => AskedBy(Requested(s, id), s.redisClock)
    case Fetched(id, _) => AskedBy(Requested(s, id), s.redisClock)
    case Claiming(id, _, stamp) => AskedBy(Requested(s, id), s.redisClock) && stamp <= s.clock
    case Exec(id, claimed, slot, phase) =>
      && id in s.jobs
      && AskedBy(Requested(s, id), s.redisClock)
      && ClaimAt(s.jobs[id], t, claimed, slot)
      && (phase.MarkingDead? || phase.WritingLetter? ==> claimed.attempts >= claimed.input.maxAttempts)
    case Resetting(cutoff) => cutoff + STALE_RUNNING_JOB_AGE_MS <= s.clock
    case _ => true
  }

  // The claim a running task holds is the one at this position of the history.
  ghost predicate ClaimAt(r: Record, t: TaskId, claimed: Job, slot: nat) {
    && slot < |r.history| && r.history[slot].Claimed? && r.history[slot].task == t
    && claimed.version == r.history[slot].version + 1
    && claimed.attempts == Claims(r.history[..slot + 1])
    && claimed.startedAt == Some(r.history[slot].stamp)
    && claimed.input == r.job.input
  }

  ghost predicate EntryOk(s: State, e: Entry) {
    AskedBy(Requested(s, e.member), e.score) || AskedBy(Requested(s, e.member), s.redisClock)
  }

  ghost predicate JobsOk(k: int, s: State) {
    forall id :: id in s.jobs ==> RecordOk(k, s, id)
  }

  ghost predicate TasksOk(s: State) {
    forall t :: t in s.tasks ==> TaskOk(s, t, s.tasks[t])
  }

  ghost predicate QueuesOk(s: State) {
    forall jobType, e :: e in Queue(s.queues, jobType) ==> EntryOk(s, e)
  }

  ghost predicate InboxOk(s: State) {
    forall id :: id in s.inbox ==> AskedBy(Requested(s, id), s.redisClock)
  }

  ghost predicate LettersOk(s: State) {
    && Paired(s.letters, s.events)
    && s.letters.Keys <= s.jobs.Keys
    && (forall id :: id in s.letters ==>
          s.jobs[id].job.input.maxAttempts <= s.letters[id].attempts <= s.jobs[id].job.attempts)
  }

  ghost predicate Inv(k: int, s: State) {
    JobsOk(k, s) && TasksOk(s) && QueuesOk(s) && InboxOk(s) && LettersOk(s)
  }

  // Growth: what later states keep of earlier ones

  ghost predicate Grows(s: State, s': State) {
    && s.clock <= s'.clock && s.redisClock <= s'.redisClock
    && (forall id :: Requested(s, id) <= Requested(s', id))
    && JobsGrow(s, s')
    && (forall t :: t in s.tasks && s.tasks[t].Exec? ==> t in s'.tasks && SameClaim(s.tasks[t], s'.tasks[t]))
  }

  ghost predicate JobsGrow(s: State, s': State) {
    && s.jobs.Keys <= s'.jobs.Keys
    && (forall id :: id in s.jobs ==>
          s.jobs[id].history <= s'.jobs[id].history && s.jobs[id].job.input == s'.jobs[id].job.input)
  }

  ghost predicate SameClaim(x: Task, y: Task) {
    x.Exec? && y.Exec? && x.jobId == y.jobId && x.claimed == y.claimed && x.slot == y.slot
  }

  lemma GrowsTransitive(s: State, s1: State, s2: State)
    requires Grows(s, s1) && Grows(s1, s2)
    ensures Grows(s, s2)
  {
  }

  lemma StepJobsGrow(k: int, s: State, a: Action)
    requires Enabled(s, a)
    ensures JobsGrow(s, Perform(k, s, a))
  {
    assert Perform(k, s, a).jobs == JobsAfter(k, s, a);
    var w := WriteOf(k, s, a);
    if w.Some? {
      LandGrows(s.jobs, w.value.jobId, w.value.event);
    } else {
      assert JobsAfter(k, s, a) == s.jobs || a.Create?;
    }
  }

  lemma LandGrows(jobs: map<JobId, Record>, jobId: JobId, e: Event)
    ensures var jobs' := Land(jobs, jobId, e);
      && jobs'.Keys == jobs.Keys
      && forall id :: id in jobs ==> jobs[id].history <= jobs'[id].history && jobs[id].job.input == jobs'[id].job.input
  {
  }

  lemma StepKeepsClaims(k: int, s: State, a: Action, t: TaskId)
    requires Enabled(s, a) && InPhase(s, t)
    ensures t in Perform(k, s, a).tasks && SameClaim(s.tasks[t], Perform(k, s, a).tasks[t])
  {
    if Mover(a) == Some(t) {
      assert TaskAfter(s, a) == s.tasks[t].(phase := PhaseAfter(s, a));
    }
  }

  lemma StepGrows(k: int, s: State, a: Action)
    requires Enabled(s, a)
    ensures Grows(s, Perform(k, s, a))
  {
    StepJobsGrow(k, s, a);
    forall t | t in s.tasks && s.tasks[t].Exec?
      ensures t in Perform(k, s, a).tasks && SameClaim(s.tasks[t], Perform(k, s, a).tasks[t])
    {
      StepKeepsClaims(k, s, a, t);
    }
  }

  lemma AskedGrows(s: State, s': State, id: JobId, bound: int, bound': int)
    requires Grows(s, s') && AskedBy(Requested(s, id), bound) && bound <= bound'
    ensures AskedBy(Requested(s', id), bound')
  {
    var q :| q in Requested(s, id) && q <= bound;
    assert q in Requested(s', id) && q <= bound';
  }

  lemma TaskGrows(s: State, s': State, t: TaskId, task: Task)
    requires Grows(s, s') && TaskOk(s, t, task)
    ensures TaskOk(s', t, task)
  {
    match task {
      case Popping(_, _, ids) =>
        forall id | id in ids ensures AskedBy(Requested(s', id), s'.redisClock) {
          AskedGrows(s, s', id, s.redisClock, s'.redisClock);
        }
      case Fetching(id) => AskedGrows(s, s', id, s.redisClock, s'.redisClock);
      case Fetched(id, _) => AskedGrows(s, s', id, s.redisClock, s'.redisClock);
      case Claiming(id, _, _) => AskedGrows(s, s', id, s.redisClock, s'.redisClock);
      case Exec(id, _, slot, _) =>
        AskedGrows(s, s', id, s.redisClock, s'.redisClock);
        assert s.jobs[id].history[..slot + 1] == s'.jobs[id].history[..slot + 1];
      case _ =>
    }
  }

  lemma EventGrows(k: int, s: State, s': State, id: JobId, i: nat)
    requires Grows(s, s') && id in s.jobs && i < |s.jobs[id].history| && EventOk(k, s, id, i)
    ensures EventOk(k, s', id, i)
  {
    var e := s.jobs[id].history[i];
    assert s.jobs[id].history[..i] == s'.jobs[id].history[..i];
    if e.Claimed? {
      AskedGrows(s, s', id, e.redisAt, e.redisAt);
    }
  }

  // Jobs

  ghost predicate Unchanged(s: State, s': State, id: JobId) {
    id in s.jobs && id in s'.jobs && s'.jobs[id] == s.jobs[id]
  }

  lemma RecordGrows(k: int, s: State, s': State, id: JobId)
    requires Grows(s, s') && Unchanged(s, s', id) && RecordOk(k, s, id)
    ensures RecordOk(k, s', id)
  {
    forall i | 0 <= i < |s.jobs[id].history| ensures EventOk(k, s', id, i) {
      EventGrows(k, s, s', id, i);
    }
  }

  // Appending one landed event keeps a record in order, provided the event itself is accounted for.
  lemma RecordLands(k: int, s: State, s': State, id: JobId, e: Event)
    requires Grows(s, s') && id in s.jobs && RecordOk(k, s, id) && Lands(s, id, e)
    requires s'.jobs == Land(s.jobs, id, e)
    requires e.Claimed? || e.Reset? ==> e.at == s'.clock
    requires e.Claimed? ==> e.stamp <= e.at
    requires e.Reset? ==> e.cutoff + STALE_RUNNING_JOB_AGE_MS <= e.at
    requires EventOk(k, s', id, |s.jobs[id].history|)
    ensures RecordOk(k, s', id)
  {
    var h, h' := s.jobs[id].history, s'.jobs[id].history;
    assert h'[..|h|] == h;
    forall i | 0 <= i < |h'| ensures EventOk(k, s', id, i) {
      if i < |h| {
        EventGrows(k, s, s', id, i);
      }
    }
  }

  lemma JobsLand(k: int, s: State, s': State, id: JobId, e: Event)
    requires Grows(s, s') && JobsOk(k, s)
    requires s'.jobs == Land(s.jobs, id, e)
    requires Lands(s, id, e) ==>
      && (e.Claimed? || e.Reset? ==> e.at == s'.clock)
      && (e.Claimed? ==> e.stamp <= e.at)
      && (e.Reset? ==> e.cutoff + STALE_RUNNING_JOB_AGE_MS <= e.at)
      && EventOk(k, s', id, |s.jobs[id].history|)
    ensures JobsOk(k, s')
  {
    forall x | x in s'.jobs ensures RecordOk(k, s', x) {
      if x == id && Lands(s, id, e) {
        RecordLands(k, s, s', id, e);
      } else {
        RecordGrows(k, s, s', x);
      }
    }
  }

  lemma JobsQuiet(k: int, s: State, s': State)
    requires Grows(s, s') && JobsOk(k, s)
    requires forall id :: id in s'.jobs ==>
      Unchanged(s, s', id) || s'.jobs[id] == Record(NewJob(s'.jobs[id].job.input), [])
    ensures JobsOk(k, s')
  {
    forall x | x in s'.jobs ensures RecordOk(k, s', x) {
      if x in s.jobs && Unchanged(s, s', x) {
        RecordGrows(k, s, s', x);
      } else {
        assert s'.jobs[x].history == [];
      }
    }
  }

  lemma ClosingOk(k: int, s: State, s': State, t: TaskId, closing: Closing)
    requires Inv(k, s) && Grows(s, s') && InPhase(s, t)
    requires closing == Death ==> s.tasks[t].phase.MarkingDead?
    requires s'.jobs == Land(s.jobs, s.tasks[t].jobId, ClosingEvent(k, s, t, closing))
    ensures JobsOk(k, s')
  {
    var x := s.tasks[t];
    var e := ClosingEvent(k, s, t, closing);
    if Lands(s, x.jobId, e) {
      var h := s.jobs[x.jobId].history;
      assert TaskOk(s, t, x);
      assert s'.jobs[x.jobId].history[..|h|] == h;
      ClaimsGrow(h, x.slot + 1);
      Ledger(s.jobs[x.jobId].job.input, h);
    }
    JobsLand(k, s, s', x.jobId, e);
  }

  lemma {:induction false} ClaimsGrow(h: History, n: nat)
    requires n <= |h|
    ensures Claims(h[..n]) <= Claims(h)
  {
    if n == |h| {
      assert h[..n] == h;
    } else {
      assert h[..|h| - 1][..n] == h[..n];
      ClaimsGrow(h[..|h| - 1], n);
    }
  }

  lemma JobsStep(k: int, s: State, a: Action)
    requires Inv(k, s) && Enabled(s, a)
    ensures JobsOk(k, Perform(k, s, a))
  {
    StepGrows(k, s, a);
    if a.Create? || WriteOf(k, s, a).None? {
      JobsQuiet(k, s, Perform(k, s, a));
    } else if a.Claim? {
      ClaimStep(k, s, a);
    } else if a.Cancel? {
      CancelStep(k, s, a);
    } else if a.ResetOne? {
      ResetStep(k, s, a);
    } else {
      ClosingStep(k, s, a);
    }
  }

  lemma ClaimStep(k: int, s: State, a: Action)
    requires Inv(k, s) && Enabled(s, a) && a.Claim? && Grows(s, Perform(k, s, a))
    ensures JobsOk(k, Perform(k, s, a))
  {
    var s' := Perform(k, s, a);
    var id, e := s.tasks[a.t].jobId, ClaimEvent(s, a.t);
    assert TaskOk(s, a.t, s.tasks[a.t]);
    AskedGrows(s, s', id, s.redisClock, s.redisClock);
    JobsLand(k, s, s', id, e);
  }

  lemma CancelStep(k: int, s: State, a: Action)
    requires Inv(k, s) && Enabled(s, a) && a.Cancel? && Grows(s, Perform(k, s, a))
    ensures JobsOk(k, Perform(k, s, a))
  {
    JobsLand(k, s, Perform(k, s, a), s.tasks[a.t].jobId, Cancelled);
  }

  lemma ResetStep(k: int, s: State, a: Action)
    requires Inv(k, s) && Enabled(s, a) && a.ResetOne? && Grows(s, Perform(k, s, a))
    ensures JobsOk(k, Perform(k, s, a))
  {
    assert TaskOk(s, a.t, s.tasks[a.t]);
    JobsLand(k, s, Perform(k, s, a), a.jobId, Reset(s.tasks[a.t].cutoff, s.clock));
  }

  lemma ClosingStep(k: int, s: State, a: Action)
    requires Inv(k, s) && Enabled(s, a) && (a.Complete? || a.MarkDead? || a.MarkFailed?) && Grows(s, Perform(k, s, a))
    ensures JobsOk(k, Perform(k, s, a))
  {
    ClosingOk(k, s, Perform(k, s, a), a.t, WriteOf(k, s, a).value.event.closing);
  }

  // Tasks

  lemma TasksStep(k: int, s: State, a: Action)
    requires Inv(k, s) && Enabled(s, a)
    ensures TasksOk(Perform(k, s, a))
  {
    var s' := Perform(k, s, a);
    StepGrows(k, s, a);
    forall t | t in s'.tasks ensures TaskOk(s', t, s'.tasks[t]) {
      if Mover(a) == Some(t) {
        MovedTaskOk(k, s, a);
      } else {
        assert t in s.tasks && s'.tasks[t] == s.tasks[t];
        TaskGrows(s, s', t, s.tasks[t]);
      }
    }
  }

  lemma MovedTaskOk(k: int, s: State, a: Action)
    requires Inv(k, s) && Enabled(s, a) && Mover(a).Some?
    ensures var s', t := Perform(k, s, a), Mover(a).value; t in s'.tasks ==> TaskOk(s', t, s'.tasks[t])
  {
    var s', t := Perform(k, s, a), Mover(a).value;
    StepGrows(k, s, a);
    if InPhase(s, t) {
      ExecutingTaskOk(k, s, a);
    } else if a.Claim? {
      assert TaskOk(s, t, s.tasks[t]);
      var id, e := s.tasks[t].jobId, ClaimEvent(s, t);
      if Lands(s, id, e) {
        ClaimedTaskOk(k, s, s', t, id, e);
      }
    } else if a.Range? {
      RangedTaskOk(k, s, a);
    } else {
      StartedTaskOk(k, s, a);
    }
  }

  // Only an execution that used up its attempts goes on to bury its job.
  lemma PhaseOk(s: State, a: Action)
    requires Enabled(s, a) && Mover(a).Some? && InPhase(s, Mover(a).value)
    requires TaskOk(s, Mover(a).value, s.tasks[Mover(a).value])
    ensures var x, phase := s.tasks[Mover(a).value], PhaseAfter(s, a);
      phase.MarkingDead? || phase.WritingLetter? ==> x.claimed.attempts >= x.claimed.input.maxAttempts
  {
  }

  lemma RangedTaskOk(k: int, s: State, a: Action)
    requires Inv(k, s) && Enabled(s, a) && a.Range? && Grows(s, Perform(k, s, a))
    ensures TaskOk(Perform(k, s, a), a.t, TaskAfter(s, a))
  {
    assert TaskOk(s, a.t, s.tasks[a.t]);
    RangeIsAsked(s, a.t, a.jobType, a.count);
    TaskGrows(s, Perform(k, s, a), a.t, TaskAfter(s, a));
  }

  lemma ExecutingTaskOk(k: int, s: State, a: Action)
    requires Inv(k, s) && Enabled(s, a) && Mover(a).Some? && InPhase(s, Mover(a).value) && Grows(s, Perform(k, s, a))
    ensures TaskOk(Perform(k, s, a), Mover(a).value, TaskAfter(s, a))
  {
    var t := Mover(a).value;
    assert TaskOk(s, t, s.tasks[t]);
    TaskGrows(s, Perform(k, s, a), t, s.tasks[t]);
    PhaseOk(s, a);
  }

  lemma StartedTaskOk(k: int, s: State, a: Action)
    requires Inv(k, s) && Enabled(s, a) && Mover(a).Some? && Grows(s, Perform(k, s, a))
    requires !InPhase(s, Mover(a).value) && !a.Claim? && !a.Range?
    ensures TaskOk(Perform(k, s, a), Mover(a).value, TaskAfter(s, a))
  {
    var s', t := Perform(k, s, a), Mover(a).value;
    if t in s.tasks {
      assert TaskOk(s, t, s.tasks[t]);
      TaskGrows(s, s', t, s.tasks[t]);
    } else if a.Dispatch? {
      AskedGrows(s, s', a.jobId, s.redisClock, s.redisClock);
    }
  }

  lemma RangeIsAsked(s: State, t: TaskId, jobType: JobType, count: nat)
    requires QueuesOk(s) && t in s.tasks && s.tasks[t].Polling? && s.tasks[t].nowMs <= s.redisClock
    ensures forall id :: id in Members(FirstDue(Queue(s.queues, jobType), s.tasks[t].nowMs, count)) ==>
      AskedBy(Requested(s, id), s.redisClock)
  {
    var z := Queue(s.queues, jobType);
    var due := FirstDue(z, s.tasks[t].nowMs, count);
    forall id | id in Members(due) ensures AskedBy(Requested(s, id), s.redisClock) {
      var i :| 0 <= i < |due| && due[i].member == id;
      assert due[i] in Due(z, s.tasks[t].nowMs);
      assert EntryOk(s, due[i]);
      if AskedBy(Requested(s, id), due[i].score) {
        AskedGrows(s, s, id, due[i].score, s.redisClock);
      }
    }
  }

  lemma ClaimsAppend(h: History, e: Event)
    requires e.Claimed?
    ensures Claims((h + [e])[..|h| + 1]) == Claims(h) + 1
  {
    assert (h + [e])[..|h| + 1] == h + [e] && (h + [e])[..|h|] == h;
  }

  lemma ClaimedTaskOk(k: int, s: State, s': State, t: TaskId, id: JobId, e: Event)
    requires Grows(s, s') && id in s.jobs && RecordOk(k, s, id) && Lands(s, id, e) && e.Claimed? && e.task == t
    requires s'.jobs == Land(s.jobs, id, e) && AskedBy(Requested(s, id), s.redisClock)
    ensures TaskOk(s', t, Exec(id, Apply(s.jobs[id].job, e).value, |s.jobs[id].history|, Announcing))
  {
    AskedGrows(s, s', id, s.redisClock, s'.redisClock);
    Ledger(s.jobs[id].job.input, s.jobs[id].history);
    ClaimsAppend(s.jobs[id].history, e);
  }

  // Queues, inbox and letters

  lemma EntryGrows(s: State, s': State, e: Entry)
    requires Grows(s, s') && EntryOk(s, e)
    ensures EntryOk(s', e)
  {
    if AskedBy(Requested(s, e.member), e.score) {
      AskedGrows(s, s', e.member, e.score, e.score);
    } else {
      AskedGrows(s, s', e.member, s.redisClock, s'.redisClock);
    }
  }

  lemma QueuesStep(k: int, s: State, a: Action)
    requires Inv(k, s) && Enabled(s, a)
    ensures QueuesOk(Perform(k, s, a))
  {
    var s' := Perform(k, s, a);
    StepGrows(k, s, a);
    if Mover(a).Some? && Mover(a).value in s.tasks {
      assert TaskOk(s, Mover(a).value, s.tasks[Mover(a).value]);
    }
    forall jobType, e | e in Queue(s'.queues, jobType) ensures EntryOk(s', e) {
      if e in Queue(s.queues, jobType) {
        EntryGrows(s, s', e);
      } else {
        NewEntryOk(k, s, a, jobType, e);
      }
    }
  }

  lemma NewEntryOk(k: int, s: State, a: Action, jobType: JobType, e: Entry)
    requires Inv(k, s) && Enabled(s, a)
    requires e in Queue(Perform(k, s, a).queues, jobType) && e !in Queue(s.queues, jobType)
    ensures EntryOk(Perform(k, s, a), e)
  {
    var s' := Perform(k, s, a);
    match a {
      case Add(t) =>
        assert TaskOk(s, t, s.tasks[t]);
        assert e == Entry(s.tasks[t].jobId, s.tasks[t].score);
      case Reschedule(t) =>
        assert TaskOk(s, t, s.tasks[t]);
        assert e == Entry(s.tasks[t].jobId, s.tasks[t].phase.nextRunAt);
      case _ =>
    }
  }

  lemma InboxStep(k: int, s: State, a: Action)
    requires Inv(k, s) && Enabled(s, a)
    ensures InboxOk(Perform(k, s, a))
  {
    var s' := Perform(k, s, a);
    StepGrows(k, s, a);
    forall id | id in s'.inbox ensures AskedBy(Requested(s', id), s'.redisClock) {
      if a.Pop? && id !in s.inbox {
        assert TaskOk(s, a.t, s.tasks[a.t]);
        assert id in multiset(s.tasks[a.t].ids);
      }
      AskedGrows(s, s', id, s.redisClock, s'.redisClock);
    }
  }

  lemma AttemptsGrow(k: int, s: State, s': State, id: JobId)
    requires JobsOk(k, s) && JobsOk(k, s') && Grows(s, s') && id in s.jobs
    ensures s.jobs[id].job.attempts <= s'.jobs[id].job.attempts
  {
    var h, h' := s.jobs[id].history, s'.jobs[id].history;
    Ledger(s.jobs[id].job.input, h);
    Ledger(s.jobs[id].job.input, h');
    assert h'[..|h|] == h;
    ClaimsGrow(h', |h|);
  }

  // A letter is written by an execution that used up its attempts, about a claim that is history.
  lemma NewLetterOk(k: int, s: State, a: Action)
    requires Inv(k, s) && Enabled(s, a) && WritesLetter(s, a)
    ensures s.tasks[a.t].jobId in s.jobs
    ensures var x, job := s.tasks[a.t], s.jobs[s.tasks[a.t].jobId].job;
      job.input.maxAttempts <= x.claimed.attempts <= job.attempts
  {
    var x := s.tasks[a.t];
    assert TaskOk(s, a.t, x);
    var r := s.jobs[x.jobId];
    assert RecordOk(k, s, x.jobId);
    Ledger(r.job.input, r.history);
    ClaimsGrow(r.history, x.slot + 1);
  }

  lemma PairedStep(k: int, s: State, a: Action)
    requires Paired(s.letters, s.events) && Enabled(s, a)
    ensures Paired(Perform(k, s, a).letters, Perform(k, s, a).events)
  {
    if WritesLetter(s, a) {
      var x := s.tasks[a.t];
      PairedAfterCreate(s.letters, s.events, x.jobId, DeadLetter(x.claimed.attempts, x.phase.error, None));
    }
  }

  lemma LettersStep(k: int, s: State, a: Action)
    requires Inv(k, s) && Enabled(s, a)
    ensures LettersOk(Perform(k, s, a))
  {
    var s' := Perform(k, s, a);
    StepGrows(k, s, a);
    JobsStep(k, s, a);
    PairedStep(k, s, a);
    forall id | id in s'.letters
      ensures id in s'.jobs
      ensures s'.jobs[id].job.input.maxAttempts <= s'.letters[id].attempts <= s'.jobs[id].job.attempts
    {
      if WritesLetter(s, a) && id == s.tasks[a.t].jobId {
        NewLetterOk(k, s, a);
      }
      AttemptsGrow(k, s, s', id);
    }
  }

  lemma InvStep(k: int, s: State, a: Action)
    requires Inv(k, s) && Enabled(s, a)
    ensures Inv(k, Perform(k, s, a))
  {
    JobsStep(k, s, a);
    TasksStep(k, s, a);
    QueuesStep(k, s, a);
    InboxStep(k, s, a);
    LettersStep(k, s, a);
  }

  /** Every state a run leads to satisfies the invariant, and keeps what the start had. */
  lemma {:induction false} InvRun(k: int, s: State, run: seq<Action>)
    requires Inv(k, s) && Run(k, s, run).Some?
    ensures Inv(k, Run(k, s, run).value) && Grows(s, Run(k, s, run).value)
  {
    if run != [] {
      var before, a := Run(k, s, run[..|run| - 1]).value, run[|run| - 1];
      InvRun(k, s, run[..|run| - 1]);
      InvStep(k, before, a);
      StepGrows(k, before, a);
      GrowsTransitive(s, before, Perform(k, before, a));
    }
  }

  lemma InvInitially(k: int, s: State)
    requires Initial(s)
    ensures Inv(k, s)
  {
  }
}
