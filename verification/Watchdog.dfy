/** The watchdog of src/domains/watchdog/heartbeat-watchdog.ts. */
module Watchdog {
  import opened Types
  import opened Jobs
  import opened Lifecycle
  import opened Scheduler
  import opened Execution

  class HeartbeatWatchdog {
    const repository: JobRepository
    var running: bool
    var timer: bool

    constructor (repository: JobRepository)
      ensures this.repository == repository && !running && !timer
    {
      this.repository := repository;
      running, timer := false, false;
    }

    method Start()
      modifies this
      ensures running && (old(running) ==> timer == old(timer)) && (!old(running) ==> timer)
    {
      if running {
        return;
      }
      running, timer := true, true;
    }

    method Stop()
      modifies this
      ensures !running && !timer
    {
      running, timer := false, false;
    }

    // A failing reset is logged and changes nothing.  The queues are not told about the reset jobs.
    method Tick(now: int, fails: bool) returns (count: nat)
      modifies repository
      ensures repository.jobs == if fails then old(repository.jobs) else
        AllReset(old(repository.jobs), now - STALE_RUNNING_JOB_AGE_MS)
      ensures repository.jobs.Keys == old(repository.jobs).Keys
      ensures forall id :: id in repository.jobs ==>
        repository.jobs[id] == if !fails && RunningSinceBefore(old(repository.jobs)[id], now - 300_000)
                               then old(repository.jobs)[id].(status := Pending, startedAt := None)
                               else old(repository.jobs)[id]
      ensures count == if fails then 0 else |StaleIds(old(repository.jobs), now - STALE_RUNNING_JOB_AGE_MS)|
    {
      if fails {
        return 0;
      }
      count := repository.ResetStaleJobs(STALE_RUNNING_JOB_AGE_MS, now);
      assert repository.jobs == AllReset(old(repository.jobs), now - STALE_RUNNING_JOB_AGE_MS);
    }
  }

  function AllReset(jobs: map<JobId, Job>, cutoff: int): map<JobId, Job> {
    map id | id in jobs ::
      if id in StaleIds(jobs, cutoff) then jobs[id].(status := Pending, startedAt := None) else jobs[id]
  }

  function OneReset(job: Job, cutoff: int): Job {
    if ResetStale(job, cutoff).Some? then ResetStale(job, cutoff).value else job
  }

  // The visits of one updateMany, in the order the store happens to make them.
  function Visited(jobs: map<JobId, Record>, ids: seq<JobId>, cutoff: int, at: int): map<JobId, Record> {
    if ids == [] then jobs else Land(Visited(jobs, ids[..|ids| - 1], cutoff, at), ids[|ids| - 1], Reset(cutoff, at))
  }

  lemma {:induction false} VisitedDocuments(jobs: map<JobId, Record>, ids: seq<JobId>, cutoff: int, at: int)
    ensures var jobs' := Visited(jobs, ids, cutoff, at);
      && jobs'.Keys == jobs.Keys
      && forall id :: id in jobs ==>
           jobs'[id].job == (if id in ids then OneReset(jobs[id].job, cutoff) else jobs[id].job)
  {
    if ids != [] {
      VisitedDocuments(jobs, ids[..|ids| - 1], cutoff, at);
      assert ids == ids[..|ids| - 1] + [ids[|ids| - 1]];
    }
  }

  /** Visiting every document once, in any order and even repeatedly, is the reset of all stale ones. */
  lemma VisitsAreUpdateMany(jobs: map<JobId, Record>, ids: seq<JobId>, cutoff: int, at: int)
    requires forall id :: id in jobs ==> id in ids
    ensures Documents(Visited(jobs, ids, cutoff, at)) == AllReset(Documents(jobs), cutoff)
  {
    VisitedDocuments(jobs, ids, cutoff, at);
  }
}
