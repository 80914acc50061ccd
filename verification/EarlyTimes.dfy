/** Requests for a time before 1970: the range of due scores starts at zero, so they are never due. */
module EarlyTimes {
  import opened Types
  import opened Jobs
  import opened Lifecycle
  import opened SortedSets
  import opened JobQueue
  import opened Scheduler
  import opened Theorems
  import opened Stranding

  // Nothing but creations of the same type and cancellations is under way for the id.
  predicate Harmless(s: State, task: Task, id: JobId, jobType: JobType) {
    match task
    case Creating(jobId, input) => jobId == id ==> input.jobType == jobType
    case Adding(t, jobId, _) => jobId == id ==> t == jobType
    case Removing(_, jobId) => jobId != id
    case Exec(jobId, _, _, _) => jobId != id
    case _ => !Brings(s, task, id)
  }

  // The id is queued for a time before 1970, in the queue of one type, and on no task's way to a claim.
  ghost predicate Frozen(s: State, id: JobId, jobType: JobType) {
    && IsPending(s, id)
    && Has(Queue(s.queues, jobType), id)
    && (forall t, e :: e in Queue(s.queues, t) && e.member == id ==> t == jobType && e.score < 0)
    && id !in s.inbox
    && forall t :: t in s.tasks ==> Harmless(s, s.tasks[t], id, jobType)
  }

  predicate SameType(a: Action, id: JobId, jobType: JobType) {
    Requests(a, id) ==> a.input.jobType == jobType
  }

  predicate Cancels(s: State, a: Action, id: JobId)
    requires Enabled(s, a)
  {
    a.Cancel? && s.tasks[a.t].jobId == id
  }

  lemma MoverWas(s: State, a: Action, id: JobId, jobType: JobType)
    requires Frozen(s, id, jobType) && Enabled(s, a) && Mover(a).Some? && Mover(a).value in s.tasks
    ensures Harmless(s, s.tasks[Mover(a).value], id, jobType)
  {
  }

  // No write but a cancellation lands on the job.
  lemma WriteStays(k: int, s: State, a: Action, id: JobId, jobType: JobType)
    requires Frozen(s, id, jobType) && Enabled(s, a) && WriteOf(k, s, a).Some? && WriteOf(k, s, a).value.jobId == id
    ensures Apply(s.jobs[id].job, WriteOf(k, s, a).value.event).Some? ==>
      Cancels(s, a, id) && WriteOf(k, s, a).value.event == Cancelled
  {
    MoverWas(s, a, id, jobType);
  }

  lemma RecordStays(k: int, s: State, a: Action, id: JobId, jobType: JobType)
    requires Frozen(s, id, jobType) && Enabled(s, a)
    ensures id in Perform(k, s, a).jobs && NoClaimAdded(s.jobs, Perform(k, s, a).jobs, id)
    ensures if Cancels(s, a, id) then Perform(k, s, a).jobs[id].job.status == Dead
            else Perform(k, s, a).jobs[id] == s.jobs[id]
  {
    assert Perform(k, s, a).jobs == JobsAfter(k, s, a);
    if !a.Create? && WriteOf(k, s, a).Some? {
      var w := WriteOf(k, s, a).value;
      if w.jobId == id {
        WriteStays(k, s, a, id, jobType);
      }
      LandAddsNoClaim(s.jobs, w.jobId, w.event, id);
    }
  }

  // Adding it again is refused, and nobody takes it out or moves it.
  lemma EntryStays(s: State, a: Action, id: JobId, jobType: JobType, e: Entry)
    requires Frozen(s, id, jobType) && Enabled(s, a) && e in Queue(s.queues, jobType) && e.member == id
    ensures e in Queue(QueuesAfter(s, a), jobType)
  {
    if Mover(a).Some? && Mover(a).value in s.tasks {
      MoverWas(s, a, id, jobType);
    }
  }

  lemma NoNewEntry(s: State, a: Action, id: JobId, jobType: JobType, t: JobType, e: Entry)
    requires Frozen(s, id, jobType) && Enabled(s, a) && e in Queue(QueuesAfter(s, a), t) && e.member == id
    ensures e in Queue(s.queues, t)
  {
    if Mover(a).Some? && Mover(a).value in s.tasks {
      MoverWas(s, a, id, jobType);
    }
  }

  lemma QueuesStay(k: int, s: State, a: Action, id: JobId, jobType: JobType)
    requires Frozen(s, id, jobType) && Enabled(s, a)
    ensures Has(Queue(Perform(k, s, a).queues, jobType), id)
    ensures forall t, e :: e in Queue(Perform(k, s, a).queues, t) && e.member == id ==> t == jobType && e.score < 0
  {
    assert Perform(k, s, a).queues == QueuesAfter(s, a);
    var e :| e in Queue(s.queues, jobType) && e.member == id;
    EntryStays(s, a, id, jobType, e);
    forall t, e | e in Queue(QueuesAfter(s, a), t) && e.member == id ensures t == jobType && e.score < 0 {
      NoNewEntry(s, a, id, jobType, t, e);
    }
  }

  // The task that moves stays harmless, case by case.
  lemma NewcomerHarmless(s: State, s': State, a: Action, id: JobId, jobType: JobType)
    requires Frozen(s, id, jobType) && Enabled(s, a) && SameType(a, id, jobType)
    requires Mover(a).Some? && Mover(a).value !in s.tasks
    ensures Harmless(s', TaskAfter(s, a), id, jobType)
  {
  }

  lemma ReaderHarmless(s: State, s': State, a: Action, id: JobId, jobType: JobType)
    requires Frozen(s, id, jobType) && Enabled(s, a) && (a.Range? || a.Stamp? || a.Claim?)
    requires a.Stamp? ==> s'.jobs == s.jobs
    ensures Harmless(s', TaskAfter(s, a), id, jobType)
  {
    MoverWas(s, a, id, jobType);
    if a.Range? {
      NotDue(Queue(s.queues, a.jobType), s.tasks[a.t].nowMs, a.count, id);
    }
  }

  lemma WriterHarmless(s: State, s': State, a: Action, id: JobId, jobType: JobType)
    requires Frozen(s, id, jobType) && Enabled(s, a) && Mover(a).Some? && Mover(a).value in s.tasks
    requires !Cancels(s, a, id) && !a.Range? && !a.Stamp? && !a.Claim?
    ensures Harmless(s', TaskAfter(s, a), id, jobType)
  {
    MoverWas(s, a, id, jobType);
  }

  lemma MoverHarmless(k: int, s: State, a: Action, id: JobId, jobType: JobType)
    requires Frozen(s, id, jobType) && Enabled(s, a) && SameType(a, id, jobType) && Mover(a).Some?
    requires !Cancels(s, a, id)
    ensures Harmless(Perform(k, s, a), TaskAfter(s, a), id, jobType)
  {
    VersionsStep(k, s, a);
    if Mover(a).value !in s.tasks {
      NewcomerHarmless(s, Perform(k, s, a), a, id, jobType);
    } else if a.Range? || a.Stamp? || a.Claim? {
      ReaderHarmless(s, Perform(k, s, a), a, id, jobType);
    } else {
      WriterHarmless(s, Perform(k, s, a), a, id, jobType);
    }
  }

  lemma TasksStay(k: int, s: State, a: Action, id: JobId, jobType: JobType)
    requires FetchedOk(s) && Frozen(s, id, jobType) && Enabled(s, a) && SameType(a, id, jobType) && !Cancels(s, a, id)
    ensures var s' := Perform(k, s, a); forall t :: t in s'.tasks ==> Harmless(s', s'.tasks[t], id, jobType)
  {
    var s' := Perform(k, s, a);
    VersionsStep(k, s, a);
    forall t | t in s'.tasks ensures Harmless(s', s'.tasks[t], id, jobType) {
      if Mover(a) == Some(t) {
        MoverHarmless(k, s, a, id, jobType);
      } else {
        OthersHarmless(s, s', t, id, jobType);
      }
    }
  }

  lemma OthersHarmless(s: State, s': State, t: TaskId, id: JobId, jobType: JobType)
    requires FetchedOk(s) && VersionsGrow(s.jobs, s'.jobs) && t in s.tasks && Harmless(s, s.tasks[t], id, jobType)
    ensures Harmless(s', s.tasks[t], id, jobType)
  {
  }

  lemma InboxStays(k: int, s: State, a: Action, id: JobId, jobType: JobType)
    requires Frozen(s, id, jobType) && Enabled(s, a)
    ensures id !in Perform(k, s, a).inbox
  {
    assert Perform(k, s, a).inbox == InboxAfter(s, a);
    if a.Pop? {
      MoverWas(s, a, id, jobType);
      assert id !in multiset(s.tasks[a.t].ids);
    }
  }

  lemma FrozenStep(k: int, s: State, a: Action, id: JobId, jobType: JobType)
    requires FetchedOk(s) && Frozen(s, id, jobType) && Enabled(s, a) && SameType(a, id, jobType)
    requires !Cancels(s, a, id)
    ensures Frozen(Perform(k, s, a), id, jobType) && Perform(k, s, a).jobs[id] == s.jobs[id]
  {
    RecordStays(k, s, a, id, jobType);
    QueuesStay(k, s, a, id, jobType);
    InboxStays(k, s, a, id, jobType);
    TasksStay(k, s, a, id, jobType);
  }

  // A dead job gains no claim.
  lemma DeadStep(k: int, s: State, a: Action, id: JobId)
    requires id in s.jobs && s.jobs[id].job.status == Dead && Enabled(s, a)
    ensures id in Perform(k, s, a).jobs && Perform(k, s, a).jobs[id].job.status == Dead
    ensures NoClaimAdded(s.jobs, Perform(k, s, a).jobs, id)
  {
    assert Perform(k, s, a).jobs == JobsAfter(k, s, a);
    if !a.Create? && WriteOf(k, s, a).Some? {
      var w := WriteOf(k, s, a).value;
      LandAddsNoClaim(s.jobs, w.jobId, w.event, id);
    }
  }

  ghost predicate FrozenOrDead(s: State, id: JobId, jobType: JobType) {
    Frozen(s, id, jobType) || (id in s.jobs && s.jobs[id].job.status == Dead)
  }

  lemma FrozenOrDeadStep(k: int, s: State, a: Action, id: JobId, jobType: JobType)
    requires FetchedOk(s) && FrozenOrDead(s, id, jobType) && Enabled(s, a) && SameType(a, id, jobType)
    ensures FrozenOrDead(Perform(k, s, a), id, jobType)
    ensures NoClaimAdded(s.jobs, Perform(k, s, a).jobs, id)
  {
    if Frozen(s, id, jobType) {
      RecordStays(k, s, a, id, jobType);
      if !Cancels(s, a, id) {
        FrozenStep(k, s, a, id, jobType);
      }
    } else {
      DeadStep(k, s, a, id);
    }
  }

  /** A job queued for a time before 1970 is never claimed, however often it is requested again. */
  lemma {:induction false} FrozenIsNeverClaimed(k: int, s: State, run: seq<Action>, id: JobId, jobType: JobType)
    requires FetchedOk(s) && Frozen(s, id, jobType) && Run(k, s, run).Some?
    requires forall a :: a in run ==> SameType(a, id, jobType)
    ensures FetchedOk(Run(k, s, run).value) && FrozenOrDead(Run(k, s, run).value, id, jobType)
    ensures NotClaimedSince(s, Run(k, s, run).value, id)
  {
    if run != [] {
      var n := |run| - 1;
      var before := Run(k, s, run[..n]).value;
      assert forall a :: a in run[..n] ==> a in run;
      FrozenIsNeverClaimed(k, s, run[..n], id, jobType);
      assert run[n] in run;
      FetchedOkStep(k, before, run[n]);
      FrozenOrDeadStep(k, before, run[n], id, jobType);
      NotClaimedStep(s, before, Perform(k, before, run[n]), id);
    }
  }

  // Nobody is cancelling it.
  ghost predicate NoneCancelling(s: State, id: JobId) {
    forall t :: t in s.tasks && s.tasks[t].Cancelling? ==> s.tasks[t].jobId != id
  }

  predicate AsksToCancel(a: Action, id: JobId) {
    a.RequestCancel? && a.jobId == id
  }

  lemma NoneCancellingStep(k: int, s: State, a: Action, id: JobId)
    requires NoneCancelling(s, id) && Enabled(s, a) && !AsksToCancel(a, id)
    ensures NoneCancelling(Perform(k, s, a), id) && !Cancels(s, a, id)
  {
    if Mover(a).Some? && !a.RequestCancel? {
      OnlyAskedFor(s, a);
    }
  }

  lemma OnlyAskedFor(s: State, a: Action)
    requires Enabled(s, a) && Mover(a).Some? && !a.RequestCancel?
    ensures !TaskAfter(s, a).Cancelling?
  {
  }

  /** And without a cancellation its document and its entry stay exactly as they are. */
  lemma {:induction false} FrozenStays(k: int, s: State, run: seq<Action>, id: JobId, jobType: JobType)
    requires FetchedOk(s) && Frozen(s, id, jobType) && NoneCancelling(s, id) && Run(k, s, run).Some?
    requires forall a :: a in run ==> SameType(a, id, jobType) && !AsksToCancel(a, id)
    ensures var s' := Run(k, s, run).value;
      FetchedOk(s') && Frozen(s', id, jobType) && NoneCancelling(s', id) && s'.jobs[id] == s.jobs[id]
  {
    if run != [] {
      var n := |run| - 1;
      var before := Run(k, s, run[..n]).value;
      assert forall a :: a in run[..n] ==> a in run;
      FrozenStays(k, s, run[..n], id, jobType);
      assert run[n] in run;
      FetchedOkStep(k, before, run[n]);
      NoneCancellingStep(k, before, run[n], id);
      FrozenStep(k, before, run[n], id, jobType);
    }
  }

  // First requests

  // Nobody has heard of the id, except perhaps somebody who wants to cancel it.
  ghost predicate Unknown(s: State, id: JobId) {
    && id !in s.jobs && Stranded(s, id)
    && forall t :: t in s.tasks && (s.tasks[t].Removing? || s.tasks[t].Exec?) ==> s.tasks[t].jobId != id
  }

  // What a caller's request leaves behind once it has gone through.
  ghost predicate Accepted(s: State, s': State, t: TaskId, id: JobId, input: EnqueueJobInput) {
    && s'.jobs == s.jobs[id := Record(NewJob(input), [])]
    && Queue(s'.queues, input.jobType) == Insert(Queue(s.queues, input.jobType), Entry(id, input.nextRunAt))
    && (forall jobType :: jobType != input.jobType ==> Queue(s'.queues, jobType) == Queue(s.queues, jobType))
    && s'.inbox == s.inbox && s'.tasks == s.tasks[t := Finished]
  }

  lemma AddStep(k: int, s: State, s2: State, t: TaskId, id: JobId, input: EnqueueJobInput)
    requires Unknown(s, id) && t !in s.tasks
    requires s2.jobs == s.jobs[id := Record(NewJob(input), [])] && s2.queues == s.queues && s2.inbox == s.inbox
    requires s2.tasks == s.tasks[t := Adding(input.jobType, id, input.nextRunAt)]
    ensures Accepted(s, Perform(k, s2, Add(t)), t, id, input)
  {
    assert !Has(Queue(s.queues, input.jobType), id);
    assert Perform(k, s2, Add(t)).queues == QueuesAfter(s2, Add(t));
  }

  lemma RequestGoesThrough(k: int, s: State, t: TaskId, id: JobId, input: EnqueueJobInput) returns (s': State)
    requires FetchedOk(s) && Unknown(s, id) && Fresh(s, t)
    ensures FetchedOk(s') && Run(k, s, [Request(t, id, input), Create(t), Add(t)]) == Some(s')
    ensures Accepted(s, s', t, id, input)
  {
    var s1 := Perform(k, s, Request(t, id, input));
    FetchedOkStep(k, s, Request(t, id, input));
    assert s1.tasks == s.tasks[t := Creating(id, input)] && s1.jobs == s.jobs;
    var s2 := Perform(k, s1, Create(t));
    FetchedOkStep(k, s1, Create(t));
    assert s2.tasks == s.tasks[t := Adding(input.jobType, id, input.nextRunAt)];
    AddStep(k, s, s2, t, id, input);
    FetchedOkStep(k, s2, Add(t));
    s' := Perform(k, s2, Add(t));
    RunThree(k, s, Request(t, id, input), Create(t), Add(t), s1, s2);
  }

  // The job may be claimed with the help of any further requests that keep the type.
  ghost predicate ClaimingRunOf(k: int, s: State, run: seq<Action>, id: JobId, jobType: JobType) {
    && (forall a :: a in run ==> SameType(a, id, jobType))
    && Run(k, s, run).Some? && ClaimedSince(s, Run(k, s, run).value, id)
  }

  ghost predicate CanEverClaim(k: int, s: State, id: JobId, jobType: JobType) {
    exists run :: ClaimingRunOf(k, s, run, id, jobType)
  }

  lemma RequestedEarly(s: State, s': State, t: TaskId, id: JobId, input: EnqueueJobInput)
    requires FetchedOk(s) && Unknown(s, id) && Fresh(s, t) && input.nextRunAt < 0 && Accepted(s, s', t, id, input)
    ensures Frozen(s', id, input.jobType)
  {
    assert Entry(id, input.nextRunAt) in Queue(s'.queues, input.jobType);
    forall u | u in s'.tasks ensures Harmless(s', s'.tasks[u], id, input.jobType) {
      if u != t {
        assert !Brings(s, s.tasks[u], id);
      }
    }
    forall jobType, e | e in Queue(s'.queues, jobType) && e.member == id
      ensures jobType == input.jobType && e.score < 0
    {
      assert !Has(Queue(s.queues, jobType), id);
    }
  }

  /** The first request for an id leads to a job that can ever be claimed, with or without further
      requests, exactly when its time is not before 1970. */
  lemma FirstRequestRunsExactly(k: int, s: State, t: TaskId, id: JobId, input: EnqueueJobInput) returns (s': State)
    requires Reachable(k, s) && Unknown(s, id) && Fresh(s, t)
    ensures Run(k, s, [Request(t, id, input), Create(t), Add(t)]) == Some(s') && IsPending(s', id)
    ensures CanEverClaim(k, s', id, input.jobType) <==> input.nextRunAt >= 0
  {
    ReachableFetchedOk(k, s);
    s' := RequestGoesThrough(k, s, t, id, input);
    if input.nextRunAt >= 0 {
      assert Entry(id, input.nextRunAt) in Queue(s'.queues, input.jobType);
      FromQueue(k, s', input.jobType, Entry(id, input.nextRunAt));
      var run :| ClaimingRun(k, s', run, id);
      assert ClaimingRunOf(k, s', run, id, input.jobType);
    } else {
      RequestedEarly(s, s', t, id, input);
      forall run ensures !ClaimingRunOf(k, s', run, id, input.jobType) {
        if (forall a :: a in run ==> SameType(a, id, input.jobType)) && Run(k, s', run).Some? {
          FrozenIsNeverClaimed(k, s', run, id, input.jobType);
        }
      }
    }
  }
}
