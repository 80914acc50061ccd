/** Which pending jobs can still be claimed without anybody requesting them again. */
module Stranding {
  import opened Types
  import opened Lifecycle
  import opened SortedSets
  import opened JobQueue
  import opened Scheduler
  import opened Theorems

  // The task is on its way from a request to a claim of the id.
  predicate Carries(task: Task, id: JobId) {
    match task
    case Creating(jobId, _) => jobId == id
    case Adding(_, jobId, _) => jobId == id
    case Popping(_, _, ids) => id in ids
    case Fetching(jobId) => jobId == id
    case Fetched(jobId, _) => jobId == id
    case Claiming(jobId, _, _) => jobId == id
    case _ => false
  }

  // It may also get there: the version it has fetched is the stored one.
  predicate Brings(s: State, task: Task, id: JobId) {
    && Carries(task, id)
    && (task.Fetched? || task.Claiming? ==> id in s.jobs && s.jobs[id].job.version == task.version)
  }

  // Neither Redis nor the dispatcher holds the id, and no task brings it to a claim.
  ghost predicate Stranded(s: State, id: JobId) {
    && (forall jobType :: !Has(Queue(s.queues, jobType), id))
    && id !in s.inbox
    && forall t :: t in s.tasks ==> !Brings(s, s.tasks[t], id)
  }

  predicate Requests(a: Action, id: JobId) {
    a.Request? && a.jobId == id
  }

  // A version a task has fetched was stored at the time, and stored versions only grow.
  ghost predicate FetchedOk(s: State) {
    forall t :: t in s.tasks && (s.tasks[t].Fetched? || s.tasks[t].Claiming?) ==>
      s.tasks[t].jobId in s.jobs && s.tasks[t].version <= s.jobs[s.tasks[t].jobId].job.version
  }

  ghost predicate VersionsGrow(jobs: map<JobId, Record>, jobs': map<JobId, Record>) {
    jobs.Keys <= jobs'.Keys && forall id :: id in jobs ==> jobs[id].job.version <= jobs'[id].job.version
  }

  lemma VersionsStep(k: int, s: State, a: Action)
    requires Enabled(s, a)
    ensures VersionsGrow(s.jobs, Perform(k, s, a).jobs)
  {
    assert Perform(k, s, a).jobs == JobsAfter(k, s, a);
    if !a.Create? && WriteOf(k, s, a).Some? {
      LandGrows(s.jobs, WriteOf(k, s, a).value.jobId, WriteOf(k, s, a).value.event);
    }
  }

  lemma LandGrows(jobs: map<JobId, Record>, jobId: JobId, e: Event)
    ensures VersionsGrow(jobs, Land(jobs, jobId, e))
  {
  }

  lemma FetchedOkStep(k: int, s: State, a: Action)
    requires FetchedOk(s) && Enabled(s, a)
    ensures FetchedOk(Perform(k, s, a))
  {
    VersionsStep(k, s, a);
    if a.Fetch? || a.Stamp? {
      assert Perform(k, s, a).jobs == s.jobs;
    } else if Mover(a).Some? {
      OnlyFetching(s, a);
    }
  }

  lemma OnlyFetching(s: State, a: Action)
    requires Enabled(s, a) && Mover(a).Some? && !a.Fetch? && !a.Stamp?
    ensures !TaskAfter(s, a).Fetched? && !TaskAfter(s, a).Claiming?
  {
  }

  lemma {:induction false} FetchedOkRun(k: int, s: State, run: seq<Action>)
    requires FetchedOk(s) && Run(k, s, run).Some?
    ensures FetchedOk(Run(k, s, run).value)
  {
    if run != [] {
      FetchedOkRun(k, s, run[..|run| - 1]);
      FetchedOkStep(k, Run(k, s, run[..|run| - 1]).value, run[|run| - 1]);
    }
  }

  lemma ReachableFetchedOk(k: int, s: State)
    requires Reachable(k, s)
    ensures FetchedOk(s)
  {
    var s0, run :| Reaches(k, s0, run, s);
    FetchedOkRun(k, s0, run);
  }

  // Stranded jobs stay stranded

  lemma NobodyAdds(k: int, s: State, a: Action, id: JobId, jobType: JobType)
    requires Stranded(s, id) && Enabled(s, a)
    ensures !Has(Queue(Perform(k, s, a).queues, jobType), id)
  {
    if a.Add? {
      assert !Brings(s, s.tasks[a.t], id);
    }
    assert !Has(Queue(s.queues, jobType), id);
  }

  // Only a stamp can leave the moving task with the id, and then with a stale version.
  lemma NobodyCarries(k: int, s: State, a: Action, id: JobId)
    requires Stranded(s, id) && Enabled(s, a) && !Requests(a, id) && Mover(a).Some? && !a.Stamp?
    ensures !Carries(TaskAfter(s, a), id)
  {
    if Mover(a).value in s.tasks {
      assert !Brings(s, s.tasks[Mover(a).value], id);
    }
    if a.Range? {
      NotDue(Queue(s.queues, a.jobType), s.tasks[a.t].nowMs, a.count, id);
    }
  }

  lemma NobodyBrings(k: int, s: State, a: Action, id: JobId)
    requires Stranded(s, id) && Enabled(s, a) && !Requests(a, id) && Mover(a).Some?
    ensures !Brings(Perform(k, s, a), TaskAfter(s, a), id)
  {
    if a.Stamp? {
      assert !Brings(s, s.tasks[a.t], id) && Perform(k, s, a).jobs == s.jobs;
    } else {
      NobodyCarries(k, s, a, id);
    }
  }

  lemma NotDue(z: ZSet, now: int, count: nat, id: JobId)
    requires forall e :: e in z && e.member == id ==> e.score < 0
    ensures id !in Members(FirstDue(z, now, count))
  {
    var due := FirstDue(z, now, count);
    forall i | 0 <= i < |due| ensures due[i].member != id {
      assert due[i] in Due(z, now);
    }
  }

  // A stale version stays stale.
  lemma StaleStays(s: State, s': State, t: TaskId, id: JobId)
    requires FetchedOk(s) && VersionsGrow(s.jobs, s'.jobs) && t in s.tasks && !Brings(s, s.tasks[t], id)
    ensures !Brings(s', s.tasks[t], id)
  {
  }

  lemma StrandedStep(k: int, s: State, a: Action, id: JobId)
    requires FetchedOk(s) && Stranded(s, id) && Enabled(s, a) && !Requests(a, id)
    ensures Stranded(Perform(k, s, a), id)
  {
    var s' := Perform(k, s, a);
    forall jobType ensures !Has(Queue(s'.queues, jobType), id) {
      NobodyAdds(k, s, a, id, jobType);
    }
    VersionsStep(k, s, a);
    forall t | t in s'.tasks ensures !Brings(s', s'.tasks[t], id) {
      if Mover(a) == Some(t) {
        NobodyBrings(k, s, a, id);
      } else {
        StaleStays(s, s', t, id);
      }
    }
    if a.Pop? {
      assert !Brings(s, s.tasks[a.t], id);
      assert id !in multiset(s.tasks[a.t].ids);
    }
  }

  // The document either gains no event, or one that is not a claim.
  ghost predicate NoClaimAdded(jobs: map<JobId, Record>, jobs': map<JobId, Record>, id: JobId) {
    if id !in jobs then id !in jobs'
    else id in jobs' && (jobs'[id] == jobs[id] || exists e: Event :: !e.Claimed? && Grew(jobs[id], jobs'[id], e))
  }

  ghost predicate Grew(r: Record, r': Record, e: Event) {
    r'.history == r.history + [e] && Apply(r.job, e) == Some(r'.job)
  }

  lemma LandAddsNoClaim(jobs: map<JobId, Record>, jobId: JobId, e: Event, id: JobId)
    requires jobId == id && id in jobs && Apply(jobs[id].job, e).Some? ==> !e.Claimed?
    ensures NoClaimAdded(jobs, Land(jobs, jobId, e), id)
  {
    if jobId == id && id in jobs && Apply(jobs[id].job, e).Some? {
      assert Grew(jobs[id], Land(jobs, jobId, e)[id], e);
    }
  }

  lemma NoClaimStep(k: int, s: State, a: Action, id: JobId)
    requires Stranded(s, id) && Enabled(s, a)
    ensures NoClaimAdded(s.jobs, Perform(k, s, a).jobs, id)
  {
    if Mover(a).Some? && Mover(a).value in s.tasks {
      assert !Brings(s, s.tasks[Mover(a).value], id);
    }
    assert Perform(k, s, a).jobs == JobsAfter(k, s, a);
    if !a.Create? && WriteOf(k, s, a).Some? {
      var w := WriteOf(k, s, a).value;
      LandAddsNoClaim(s.jobs, w.jobId, w.event, id);
    }
  }

  // Since some earlier state, the job gained no claim and no attempt.
  ghost predicate NotClaimedSince(s: State, s': State, id: JobId) {
    if id !in s.jobs then id !in s'.jobs
    else
      && id in s'.jobs
      && s.jobs[id].history <= s'.jobs[id].history
      && s'.jobs[id].job.attempts == s.jobs[id].job.attempts
      && (s.jobs[id].job.status == Pending ==> s'.jobs[id].job.status in {Pending, Dead})
      && forall i :: |s.jobs[id].history| <= i < |s'.jobs[id].history| ==> !s'.jobs[id].history[i].Claimed?
  }

  lemma NotClaimedStep(s: State, s1: State, s2: State, id: JobId)
    requires NotClaimedSince(s, s1, id) && NoClaimAdded(s1.jobs, s2.jobs, id)
    ensures NotClaimedSince(s, s2, id)
  {
  }

  /** A stranded job, such as one the watchdog has reset after its entry was popped, stays stranded
      while nobody requests it: it is never claimed, and if it is pending it stays pending or dies. */
  lemma {:induction false} StrandedUntilRequested(k: int, s: State, run: seq<Action>, id: JobId)
    requires FetchedOk(s) && Stranded(s, id) && Run(k, s, run).Some?
    requires forall a :: a in run ==> !Requests(a, id)
    ensures FetchedOk(Run(k, s, run).value) && Stranded(Run(k, s, run).value, id)
    ensures NotClaimedSince(s, Run(k, s, run).value, id)
  {
    if run != [] {
      var n := |run| - 1;
      var before := Run(k, s, run[..n]).value;
      assert forall a :: a in run[..n] ==> a in run;
      StrandedUntilRequested(k, s, run[..n], id);
      assert run[n] in run;
      FetchedOkStep(k, before, run[n]);
      StrandedStep(k, before, run[n], id);
      NoClaimStep(k, before, run[n], id);
      NotClaimedStep(s, before, Perform(k, before, run[n]), id);
    }
  }

  // Jobs that can still be claimed

  // A claim of the job landed between the two states.
  ghost predicate ClaimedSince(s: State, s': State, id: JobId) {
    && id in s.jobs && id in s'.jobs && |s.jobs[id].history| < |s'.jobs[id].history|
    && exists i :: |s.jobs[id].history| <= i < |s'.jobs[id].history| && s'.jobs[id].history[i].Claimed?
  }

  ghost predicate ClaimingRun(k: int, s: State, run: seq<Action>, id: JobId) {
    && (forall a :: a in run ==> !Requests(a, id))
    && Run(k, s, run).Some? && ClaimedSince(s, Run(k, s, run).value, id)
  }

  // Without anybody requesting it again, the job may be claimed.
  ghost predicate CanClaim(k: int, s: State, id: JobId) {
    exists run :: ClaimingRun(k, s, run, id)
  }

  function StepFrom(k: int, before: Option<State>, a: Action): Option<State> {
    if before.None? || !Enabled(before.value, a) then None else Some(Perform(k, before.value, a))
  }

  lemma RunLast(k: int, s: State, run: seq<Action>, a: Action)
    ensures Run(k, s, run + [a]) == StepFrom(k, Run(k, s, run), a)
  {
    assert (run + [a])[..|run|] == run;
  }

  lemma RunTwo(k: int, s: State, a: Action, b: Action, s1: State)
    requires Enabled(s, a) && s1 == Perform(k, s, a) && Enabled(s1, b)
    ensures Run(k, s, [a, b]) == Some(Perform(k, s1, b))
  {
    assert Run(k, s, []) == Some(s);
    RunLast(k, s, [], a);
    assert [] + [a] == [a];
    RunLast(k, s, [a], b);
    assert [a] + [b] == [a, b];
  }

  lemma RunThree(k: int, s: State, a: Action, b: Action, c: Action, s1: State, s2: State)
    requires Enabled(s, a) && s1 == Perform(k, s, a)
    requires Enabled(s1, b) && s2 == Perform(k, s1, b)
    requires Enabled(s2, c)
    ensures Run(k, s, [a, b, c]) == Some(Perform(k, s2, c))
  {
    RunTwo(k, s, a, b, s1);
    RunLast(k, s, [a, b], c);
    assert [a, b] + [c] == [a, b, c];
  }

  // The same for a first action that led to s1.
  lemma {:induction false} RunFrom(k: int, s: State, a: Action, s1: State, run: seq<Action>)
    requires Run(k, s, [a]) == Some(s1)
    ensures Run(k, s, [a] + run) == Run(k, s1, run)
  {
    if run == [] {
      assert [a] + run == [a];
    } else {
      var init, last := run[..|run| - 1], run[|run| - 1];
      RunFrom(k, s, a, s1, init);
      RunFromStep(k, s, a, s1, init, last);
      assert run == init + [last];
    }
  }

  lemma RunFromStep(k: int, s: State, a: Action, s1: State, init: seq<Action>, last: Action)
    requires Run(k, s, [a] + init) == Run(k, s1, init)
    ensures Run(k, s, [a] + (init + [last])) == Run(k, s1, init + [last])
  {
    RunLast(k, s, [a] + init, last);
    RunLast(k, s1, init, last);
    assert [a] + (init + [last]) == ([a] + init) + [last];
  }

  lemma RunCons(k: int, s: State, a: Action, run: seq<Action>)
    requires Enabled(s, a)
    ensures Run(k, s, [a] + run) == Run(k, Perform(k, s, a), run)
  {
    RunLast(k, s, [], a);
    assert [] + [a] == [a];
    RunFrom(k, s, a, Perform(k, s, a), run);
  }

  // An action that leaves the document alone leads to a claim if its result does.
  lemma ByWayOf(k: int, s: State, a: Action, id: JobId)
    requires Enabled(s, a) && !Requests(a, id) && id in s.jobs
    requires id in Perform(k, s, a).jobs && Perform(k, s, a).jobs[id] == s.jobs[id]
    requires CanClaim(k, Perform(k, s, a), id)
    ensures CanClaim(k, s, id)
  {
    var run :| ClaimingRun(k, Perform(k, s, a), run, id);
    RunCons(k, s, a, run);
    assert ClaimingRun(k, s, [a] + run, id);
  }

  ghost predicate IsPending(s: State, id: JobId) {
    id in s.jobs && s.jobs[id].job.status == Pending
  }

  lemma FromClaiming(k: int, s: State, t: TaskId, id: JobId)
    requires IsPending(s, id) && t in s.tasks && s.tasks[t].Claiming? && Brings(s, s.tasks[t], id)
    ensures CanClaim(k, s, id)
  {
    var s' := Perform(k, s, Claim(t));
    assert Run(k, s, [Claim(t)]) == Some(s') by {
      RunCons(k, s, Claim(t), []);
    }
    assert s'.jobs[id].history[|s.jobs[id].history|].Claimed?;
    assert ClaimingRun(k, s, [Claim(t)], id);
  }

  lemma FromFetched(k: int, s: State, t: TaskId, id: JobId)
    requires IsPending(s, id) && t in s.tasks && s.tasks[t].Fetched? && Brings(s, s.tasks[t], id)
    ensures CanClaim(k, s, id)
  {
    FromClaiming(k, Perform(k, s, Stamp(t)), t, id);
    ByWayOf(k, s, Stamp(t), id);
  }

  lemma FromFetching(k: int, s: State, t: TaskId, id: JobId)
    requires IsPending(s, id) && t in s.tasks && s.tasks[t] == Fetching(id)
    ensures CanClaim(k, s, id)
  {
    FromFetched(k, Perform(k, s, Fetch(t)), t, id);
    ByWayOf(k, s, Fetch(t), id);
  }

  // Task numbers never run out.
  lemma Unused(tasks: map<TaskId, Task>) returns (t: TaskId)
    ensures t !in tasks
  {
    t := Above(tasks.Keys);
  }

  lemma FromInbox(k: int, s: State, id: JobId)
    requires IsPending(s, id) && id in s.inbox
    ensures CanClaim(k, s, id)
  {
    var t := Unused(s.tasks);
    FromFetching(k, Perform(k, s, Dispatch(t, id)), t, id);
    ByWayOf(k, s, Dispatch(t, id), id);
  }

  lemma FromPopping(k: int, s: State, t: TaskId, id: JobId)
    requires IsPending(s, id) && t in s.tasks && s.tasks[t].Popping? && id in s.tasks[t].ids
    ensures CanClaim(k, s, id)
  {
    assert id in multiset(s.tasks[t].ids);
    FromInbox(k, Perform(k, s, Pop(t)), id);
    ByWayOf(k, s, Pop(t), id);
  }

  lemma RangeFinds(z: ZSet, now: int, e: Entry)
    requires e in z && 0 <= e.score <= now
    ensures e.member in Members(FirstDue(z, now, |z|))
  {
    var due := Due(z, now);
    assert FirstDue(z, now, |z|) == due;
    var i :| 0 <= i < |due| && due[i] == e;
    assert Members(due)[i] == e.member;
  }

  lemma FromPolling(k: int, s: State, t: TaskId, jobType: JobType, e: Entry)
    requires IsPending(s, e.member) && t in s.tasks && s.tasks[t].Polling?
    requires e in Queue(s.queues, jobType) && 0 <= e.score <= s.tasks[t].nowMs
    ensures CanClaim(k, s, e.member)
  {
    var a := Range(t, jobType, |Queue(s.queues, jobType)|);
    RangeFinds(Queue(s.queues, jobType), s.tasks[t].nowMs, e);
    FromPopping(k, Perform(k, s, a), t, e.member);
    ByWayOf(k, s, a, e.member);
  }

  // Time passes, a poller reads it and finds the entry due.
  lemma FromQueue(k: int, s: State, jobType: JobType, e: Entry)
    requires IsPending(s, e.member) && e in Queue(s.queues, jobType) && e.score >= 0
    ensures CanClaim(k, s, e.member)
  {
    var t := Unused(s.tasks);
    var later := Advance(s.clock, if s.redisClock < e.score then e.score else s.redisClock);
    var s1 := Perform(k, s, later);
    FromPolling(k, Perform(k, s1, ReadTime(t)), t, jobType, e);
    ByWayOf(k, s1, ReadTime(t), e.member);
    ByWayOf(k, s, later, e.member);
  }

  // No entry of the id, stored or on its way, has a time before 1970.
  ghost predicate NoNegative(s: State, id: JobId) {
    && (forall jobType, e :: e in Queue(s.queues, jobType) && e.member == id ==> e.score >= 0)
    && (forall t :: t in s.tasks && s.tasks[t].Creating? && s.tasks[t].jobId == id ==> s.tasks[t].input.nextRunAt >= 0)
    && (forall t :: t in s.tasks && s.tasks[t].Adding? && s.tasks[t].jobId == id ==> s.tasks[t].score >= 0)
  }

  lemma FromAdding(k: int, s: State, t: TaskId, id: JobId)
    requires IsPending(s, id) && NoNegative(s, id) && t in s.tasks && s.tasks[t].Adding? && s.tasks[t].jobId == id
    ensures CanClaim(k, s, id)
  {
    var s', jobType := Perform(k, s, Add(t)), s.tasks[t].jobType;
    var z := Queue(s.queues, jobType);
    var e := Entry(id, s.tasks[t].score);
    if Has(z, id) {
      e :| e in z && e.member == id;
    }
    assert e in Queue(s'.queues, jobType);
    FromQueue(k, s', jobType, e);
    ByWayOf(k, s, Add(t), id);
  }

  lemma FromCreating(k: int, s: State, t: TaskId, id: JobId)
    requires IsPending(s, id) && NoNegative(s, id) && t in s.tasks && s.tasks[t].Creating? && s.tasks[t].jobId == id
    ensures CanClaim(k, s, id)
  {
    FromAdding(k, Perform(k, s, Create(t)), t, id);
    ByWayOf(k, s, Create(t), id);
  }

  lemma FromTask(k: int, s: State, t: TaskId, id: JobId)
    requires IsPending(s, id) && NoNegative(s, id) && t in s.tasks && Brings(s, s.tasks[t], id)
    ensures CanClaim(k, s, id)
  {
    match s.tasks[t] {
      case Creating(_, _) => FromCreating(k, s, t, id);
      case Adding(_, _, _) => FromAdding(k, s, t, id);
      case Popping(_, _, _) => FromPopping(k, s, t, id);
      case Fetching(_) => FromFetching(k, s, t, id);
      case Fetched(_, _) => FromFetched(k, s, t, id);
      case Claiming(_, _, _) => FromClaiming(k, s, t, id);
    }
  }

  /** A pending job whose times are not before 1970 can be claimed without another request exactly
      when it is not stranded. */
  lemma CanClaimExactly(k: int, s: State, id: JobId)
    requires Reachable(k, s) && IsPending(s, id) && NoNegative(s, id)
    ensures CanClaim(k, s, id) <==> !Stranded(s, id)
  {
    ReachableFetchedOk(k, s);
    if Stranded(s, id) {
      forall run ensures !ClaimingRun(k, s, run, id) {
        if (forall a :: a in run ==> !Requests(a, id)) && Run(k, s, run).Some? {
          StrandedUntilRequested(k, s, run, id);
        }
      }
    } else if id in s.inbox {
      FromInbox(k, s, id);
    } else if t :| t in s.tasks && Brings(s, s.tasks[t], id) {
      FromTask(k, s, t, id);
    } else {
      var jobType, e :| e in Queue(s.queues, jobType) && e.member == id;
      FromQueue(k, s, jobType, e);
    }
  }
}
