/** The job document and the compare-and-set writes of src/domains/job/job.repository.ts.

    Each write is a function from a document to the updated document, or `None` when the
    filter of the write does not match.  Mongo applies each of them atomically to one document. */
module Jobs {
  import opened Types

  datatype EnqueueJobInput = EnqueueJobInput(
    jobType: JobType,
    tenantId: string,
    scheduledAt: int,
    nextRunAt: int,
    priority: nat,
    maxAttempts: int,
    payload: map<string, string>)

  datatype Job = Job(
    input: EnqueueJobInput,
    status: JobStatus,
    nextRunAt: int,
    attempts: int,
    version: int,
    startedAt: Option<int>,
    lastAttemptAt: Option<int>,
    completedAt: Option<int>,
    lastError: string)

  function NewJob(input: EnqueueJobInput): Job {
    Job(input, Pending, input.nextRunAt, 0, 0, None, None, None, "")
  }

  function ClaimJob(job: Job, version: int, now: int): Option<Job> {
    if job.status == Pending && job.version == version then
      Some(job.(status := Running, startedAt := Some(now), lastAttemptAt := Some(now),
                version := version + 1, attempts := job.attempts + 1))
    else
      None
  }

  function MarkCompleted(job: Job, version: int, completedAt: int): Option<Job> {
    if job.status == Running && job.version == version then
      Some(job.(status := Completed, completedAt := Some(completedAt), version := version + 1))
    else
      None
  }

  function Truncate(error: string): (kept: string)
    ensures kept <= error && |kept| <= MAX_ERROR_LENGTH
    ensures kept == error || |kept| == MAX_ERROR_LENGTH
  {
    if |error| <= MAX_ERROR_LENGTH then error else error[..MAX_ERROR_LENGTH]
  }

  function MarkFailed(job: Job, version: int, error: string, nextRunAt: int): Option<Job> {
    if job.status == Running && job.version == version then
      Some(job.(status := Failed, lastError := Truncate(error), nextRunAt := nextRunAt, version := version + 1))
    else
      None
  }

  // The filter has no status: a stale token may bury a job in any state.
  function MarkDead(job: Job, version: int): Option<Job> {
    if job.version == version then Some(job.(status := Dead, version := version + 1)) else None
  }

  // Neither cancelling nor resetting changes the version.
  function CancelJob(job: Job): Option<Job> {
    if job.status == Pending then Some(job.(status := Dead)) else None
  }

  function ResetStale(job: Job, cutoff: int): Option<Job> {
    if job.status == Running && job.startedAt.Some? && job.startedAt.value < cutoff then
      Some(job.(status := Pending, startedAt := None))
    else
      None
  }

  // findOneAndUpdate: the document after a successful write, otherwise nothing changes.
  function Find(jobs: map<JobId, Job>, jobId: JobId): Option<Job> {
    if jobId in jobs then Some(jobs[jobId]) else None
  }

  function Store(jobs: map<JobId, Job>, jobId: JobId, written: Option<Job>): map<JobId, Job> {
    if written.Some? then jobs[jobId := written.value] else jobs
  }

  // $setOnInsert with upsert: an existing document wins over the new input.
  function Upsert(jobs: map<JobId, Job>, jobId: JobId, input: EnqueueJobInput): map<JobId, Job> {
    if jobId in jobs then jobs else jobs[jobId := NewJob(input)]
  }

  function StaleIds(jobs: map<JobId, Job>, cutoff: int): set<JobId> {
    set id | id in jobs && ResetStale(jobs[id], cutoff).Some?
  }

  // As inserted: pending at the requested time, never claimed.
  predicate Untouched(job: Job) {
    && job.status == Pending && job.nextRunAt == job.input.nextRunAt && job.attempts == 0 && job.version == 0
    && job.startedAt == None && job.lastAttemptAt == None && job.completedAt == None && job.lastError == ""
  }

  predicate RunningSinceBefore(job: Job, cutoff: int) {
    job.status == Running && job.startedAt.Some? && job.startedAt.value < cutoff
  }

  // No claim, completion, failure, cancellation or reset matches the document any more.
  ghost predicate Final(job: Job) {
    && (forall v, at :: ClaimJob(job, v, at).None? && MarkCompleted(job, v, at).None?)
    && (forall v, error, at :: MarkFailed(job, v, error, at).None?)
    && CancelJob(job).None?
    && (forall cutoff :: ResetStale(job, cutoff).None?)
  }

  // One document is replaced, or none: what findOneAndUpdate answers is what it stored.
  ghost predicate Replaced(before: map<JobId, Job>, after: map<JobId, Job>, jobId: JobId, answer: Option<Job>) {
    && after.Keys == before.Keys
    && (forall id :: id in before && id != jobId ==> after[id] == before[id])
    && (jobId in before ==> after[jobId] == if answer.Some? then answer.value else before[jobId])
    && (answer.Some? ==> jobId in before)
  }

  class JobRepository {
    var jobs: map<JobId, Job>

    constructor ()
      ensures jobs == map[]
    {
      jobs := map[];
    }

    method CreateJob(jobId: JobId, input: EnqueueJobInput) returns (job: Job)
      modifies this
      ensures jobs == Upsert(old(jobs), jobId, input)
      ensures jobId in jobs && job == jobs[jobId]
      ensures jobs.Keys == old(jobs).Keys + {jobId} && forall id :: id in old(jobs) ==> jobs[id] == old(jobs)[id]
      ensures jobId !in old(jobs) ==> job.input == input && Untouched(job)
    {
      if jobId !in jobs {
        jobs := jobs[jobId := NewJob(input)];
      }
      job := jobs[jobId];
    }

    method FindByJobId(jobId: JobId) returns (job: Option<Job>)
      ensures job == Find(jobs, jobId)
    {
      job := if jobId in jobs then Some(jobs[jobId]) else None;
    }

    method Claim(jobId: JobId, version: int, now: int) returns (job: Option<Job>)
      modifies this
      ensures Replaced(old(jobs), jobs, jobId, job)
      ensures job.Some? <==>
        jobId in old(jobs) && old(jobs)[jobId].status == Pending && old(jobs)[jobId].version == version
      ensures job.Some? ==> job.value == old(jobs)[jobId].(
          status := Running, startedAt := Some(now), lastAttemptAt := Some(now),
          version := version + 1, attempts := old(jobs)[jobId].attempts + 1)
      // until something else is written nobody can claim it, and exactly the returned version closes it
      ensures job.Some? ==> forall v, at :: ClaimJob(jobs[jobId], v, at).None?
      ensures job.Some? ==> forall v, at :: MarkCompleted(jobs[jobId], v, at).Some? <==> v == job.value.version
    {
      job := if jobId in jobs then ClaimJob(jobs[jobId], version, now) else None;
      jobs := Store(jobs, jobId, job);
    }

    method Complete(jobId: JobId, version: int, completedAt: int) returns (job: Option<Job>)
      modifies this
      ensures Replaced(old(jobs), jobs, jobId, job)
      ensures job.Some? <==>
        jobId in old(jobs) && old(jobs)[jobId].status == Running && old(jobs)[jobId].version == version
      ensures job.Some? ==> Final(jobs[jobId]) && job.value == old(jobs)[jobId].(
          status := Completed, completedAt := Some(completedAt), version := version + 1)
    {
      job := if jobId in jobs then MarkCompleted(jobs[jobId], version, completedAt) else None;
      jobs := Store(jobs, jobId, job);
    }

    method Fail(jobId: JobId, version: int, error: string, nextRunAt: int) returns (job: Option<Job>)
      modifies this
      ensures Replaced(old(jobs), jobs, jobId, job)
      ensures job.Some? <==>
        jobId in old(jobs) && old(jobs)[jobId].status == Running && old(jobs)[jobId].version == version
      ensures job.Some? ==> Final(jobs[jobId]) && job.value == old(jobs)[jobId].(
          status := Failed, lastError := job.value.lastError, nextRunAt := nextRunAt, version := version + 1)
      ensures job.Some? ==> job.value.lastError == if |error| <= 2_000 then error else error[..2_000]
    {
      job := if jobId in jobs then MarkFailed(jobs[jobId], version, error, nextRunAt) else None;
      jobs := Store(jobs, jobId, job);
    }

    method Bury(jobId: JobId, version: int) returns (job: Option<Job>)
      modifies this
      ensures Replaced(old(jobs), jobs, jobId, job)
      ensures job.Some? <==> jobId in old(jobs) && old(jobs)[jobId].version == version
      ensures job.Some? ==> Final(jobs[jobId]) && job.value == old(jobs)[jobId].(status := Dead, version := version + 1)
    {
      job := if jobId in jobs then MarkDead(jobs[jobId], version) else None;
      jobs := Store(jobs, jobId, job);
    }

    method Cancel(jobId: JobId) returns (job: Option<Job>)
      modifies this
      ensures Replaced(old(jobs), jobs, jobId, job)
      ensures job.Some? <==> jobId in old(jobs) && old(jobs)[jobId].status == Pending
      ensures job.Some? ==> Final(jobs[jobId]) && job.value == old(jobs)[jobId].(status := Dead)
    {
      job := if jobId in jobs then CancelJob(jobs[jobId]) else None;
      jobs := Store(jobs, jobId, job);
    }

    // updateMany: every running document started before the cutoff, and no other, goes back to pending.
    method ResetStaleJobs(ageMs: int, now: int) returns (count: nat)
      modifies this
      ensures count == |StaleIds(old(jobs), now - ageMs)|
      ensures jobs.Keys == old(jobs).Keys
      ensures forall id :: id in jobs ==>
        (id in StaleIds(old(jobs), now - ageMs) <==> RunningSinceBefore(old(jobs)[id], now - ageMs))
      ensures forall id :: id in jobs ==>
        jobs[id] == if RunningSinceBefore(old(jobs)[id], now - ageMs)
                    then old(jobs)[id].(status := Pending, startedAt := None) else old(jobs)[id]
    {
      var cutoff := now - ageMs;
      count := |StaleIds(jobs, cutoff)|;
      jobs := map id | id in jobs ::
        var reset := ResetStale(jobs[id], cutoff);
        if reset.Some? then reset.value else jobs[id];
    }
  }
}
