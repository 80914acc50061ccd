/** Ids that are handed out although another poller took them from the sorted set. */
module Dispatching {
  import opened Types
  import opened Lifecycle
  import opened SortedSets
  import opened JobQueue
  import opened Scheduler
  import opened Theorems

  // The action takes the id out of the sorted set: a pop that hands it out, or a removal.
  predicate Takes(s: State, a: Action, jobType: JobType, id: JobId)
    requires Enabled(s, a)
  {
    || (a.Pop? && s.tasks[a.t].jobType == jobType && id in s.tasks[a.t].ids)
    || (a.Remove? && s.tasks[a.t].jobType == jobType && s.tasks[a.t].jobId == id)
  }

  predicate Adds(s: State, a: Action, jobType: JobType, id: JobId)
    requires Enabled(s, a)
  {
    a.Add? && s.tasks[a.t].jobType == jobType && s.tasks[a.t].jobId == id
  }

  // Some action of the run took the id, and none after it added it.
  predicate TakenForGood(k: int, s: State, run: seq<Action>, jobType: JobType, id: JobId)
    requires Run(k, s, run).Some?
  {
    run != [] &&
    var n := |run| - 1;
    var before := Run(k, s, run[..n]).value;
    || Takes(before, run[n], jobType, id)
    || (TakenForGood(k, s, run[..n], jobType, id) && !Adds(before, run[n], jobType, id))
  }

  lemma TakingRemoves(k: int, s: State, a: Action, jobType: JobType, id: JobId)
    requires Enabled(s, a) && Takes(s, a, jobType, id)
    ensures !Has(Queue(Perform(k, s, a).queues, jobType), id)
  {
    assert Perform(k, s, a).queues == QueuesAfter(s, a);
  }

  lemma AddingPuts(k: int, s: State, a: Action, jobType: JobType, id: JobId)
    requires Enabled(s, a) && Adds(s, a, jobType, id)
    ensures Has(Queue(Perform(k, s, a).queues, jobType), id)
  {
    assert Perform(k, s, a).queues == QueuesAfter(s, a);
    assert Has(Queue(s.queues, jobType), id)
        || Entry(id, s.tasks[a.t].score) in Queue(QueuesAfter(s, a), jobType);
  }

  lemma OthersLeave(k: int, s: State, a: Action, jobType: JobType, id: JobId)
    requires Enabled(s, a) && !Takes(s, a, jobType, id) && !Adds(s, a, jobType, id)
    ensures Has(Queue(Perform(k, s, a).queues, jobType), id) <==> Has(Queue(s.queues, jobType), id)
  {
    if Has(Queue(s.queues, jobType), id) && !Has(Queue(Perform(k, s, a).queues, jobType), id) {
      MembersLeaveTwoWays(k, s, a, jobType, id);
    }
    assert Perform(k, s, a).queues == QueuesAfter(s, a);
  }

  /** A member is gone at the end of a run exactly when some pop or removal in it took it and it was
      not added again since. */
  lemma {:induction false} GoneExactly(k: int, s: State, run: seq<Action>, jobType: JobType, id: JobId)
    requires Run(k, s, run).Some? && Has(Queue(s.queues, jobType), id)
    ensures !Has(Queue(Run(k, s, run).value.queues, jobType), id) <==> TakenForGood(k, s, run, jobType, id)
  {
    if run != [] {
      var before, a := Run(k, s, run[..|run| - 1]).value, run[|run| - 1];
      GoneExactly(k, s, run[..|run| - 1], jobType, id);
      if Takes(before, a, jobType, id) {
        TakingRemoves(k, before, a, jobType, id);
      } else if Adds(before, a, jobType, id) {
        AddingPuts(k, before, a, jobType, id);
      } else {
        OthersLeave(k, before, a, jobType, id);
      }
    }
  }

  lemma RangeShowsMembers(z: ZSet, now: int, count: nat, id: JobId)
    requires id in Members(FirstDue(z, now, count))
    ensures Has(z, id)
  {
    var due := FirstDue(z, now, count);
    var i :| 0 <= i < |due| && due[i].member == id;
    assert due[i] in Due(z, now);
  }

  /** A pop is about to hand out an id that has left the sorted set exactly when, since this poller's
      range command (which led to state s1), another task popped it, handing it out as well, or removed
      it after a cancellation, and nobody added it again since. */
  lemma HandedOutAgainExactly(k: int, s: State, t: TaskId, jobType: JobType, count: nat, s1: State,
                              run: seq<Action>, id: JobId)
    requires Enabled(s, Range(t, jobType, count)) && s1 == Perform(k, s, Range(t, jobType, count))
    requires s1.tasks[t].Popping? && id in s1.tasks[t].ids
    requires ByOthers(t, run) && Run(k, s1, run).Some?
    ensures !Has(Queue(Run(k, s1, run).value.queues, jobType), id) <==> TakenForGood(k, s1, run, jobType, id)
    ensures t in Run(k, s1, run).value.tasks && Run(k, s1, run).value.tasks[t] == s1.tasks[t]
  {
    assert s1.tasks[t] == TaskAfter(s, Range(t, jobType, count));
    RangeShowsMembers(Queue(s.queues, jobType), s.tasks[t].nowMs, count, id);
    GoneExactly(k, s1, run, jobType, id);
    TaskWaits(k, s1, t, run);
  }
}
