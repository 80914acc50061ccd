/** The due queue of src/domains/scheduler/redis-job-queue.ts: one sorted set per job type. */
module JobQueue {
  import opened Types
  import opened SortedSets

  type Queues = map<JobType, ZSet>

  // An absent key is an empty sorted set.
  function Queue(queues: Queues, jobType: JobType): ZSet {
    if jobType in queues then queues[jobType] else []
  }

  ghost predicate AllWellformed(queues: Queues) {
    forall t :: t in queues ==> Wellformed(queues[t])
  }

  // One item of a WITHSCORES reply: members and scores alternate.
  datatype Reply = Member(jobId: JobId) | Score(score: int)

  function WithScores(z: ZSet): (r: seq<Reply>)
    ensures |r| == 2 * |z|
    ensures forall i :: 0 <= i < |z| ==> r[2 * i] == Member(z[i].member) && r[2 * i + 1] == Score(z[i].score)
  {
    if z == [] then []
    else
      var before := WithScores(z[..|z| - 1]);
      before + [Member(z[|z| - 1].member), Score(z[|z| - 1].score)]
  }

  // The ids are those of entries that are due, in ascending order of their scores.
  ghost predicate InOrderOf(z: ZSet, ids: seq<JobId>, now: int) {
    && (forall id :: id in ids ==> exists e :: e in z && e.member == id && 0 <= e.score <= now)
    && forall i, j, a, b ::
         0 <= i < j < |ids| && a in z && b in z && a.member == ids[i] && b.member == ids[j] ==> a.score <= b.score
  }

  lemma TakenInOrder(z: ZSet, now: int, count: nat)
    requires Wellformed(z)
    ensures InOrderOf(z, Members(FirstDue(z, now, count)), now)
  {
    var taken := FirstDue(z, now, count);
    var ids := Members(taken);
    PopsEarliest(z, now, count);
    assert forall i :: 0 <= i < |taken| ==> taken[i] in Due(z, now);
    forall id | id in ids ensures exists e :: e in z && e.member == id && 0 <= e.score <= now {
      var i :| 0 <= i < |ids| && ids[i] == id;
      assert taken[i] in z && taken[i].member == id;
    }
    forall i, j, a, b | 0 <= i < j < |ids| && a in z && b in z && a.member == ids[i] && b.member == ids[j]
      ensures a.score <= b.score
    {
      SameEntry(z, a, taken[i]);
      SameEntry(z, b, taken[j]);
    }
  }

  // As many due ids as asked for, the earliest ones, in the order of their scores; they are what leaves
  // the set.
  ghost predicate EarliestTaken(before: ZSet, after: ZSet, ids: seq<JobId>, now: int, count: nat) {
    && |ids| == Min(count, |Between(before, 0, now)|)
    && InOrderOf(before, ids, now)
    && EarliestLeft(before, after, now)
    && forall e :: e in after <==> e in before && e.member !in ids
  }

  lemma TakesEarliest(z: ZSet, now: int, count: nat)
    requires Wellformed(z)
    ensures EarliestTaken(z, Popped(z, now, count), Members(FirstDue(z, now, count)), now, count)
  {
    PopsEarliest(z, now, count);
    TakenInOrder(z, now, count);
    DueWellformed(z, now);
    DueNames(z, now);
    CountsMembers(Due(z, now));
  }

  lemma PopFacts(z: ZSet, z': ZSet, ids: seq<JobId>, now: int, count: nat)
    requires Wellformed(z) && z' == Popped(z, now, count) && ids == Members(FirstDue(z, now, count))
    ensures Wellformed(z') && EarliestTaken(z, z', ids, now, count)
    ensures |z'| == |z| - |ids| && Due(z', now) == Due(z, now)[|ids|..]
  {
    PopTakesTheFirst(z, now, count);
    WithoutWellformed(z, AsSet(ids));
    TakesEarliest(z, now, count);
  }

  // As many due entries as asked for, in the order of their scores.
  ghost predicate ShowsDue(z: ZSet, items: seq<Entry>, now: int, count: nat) {
    && |items| == Min(count, |Between(z, 0, now)|) && AscendingScores(items)
    && forall e :: e in items ==> e in z && 0 <= e.score <= now
  }

  lemma FirstDueShows(z: ZSet, now: int, count: nat)
    requires Wellformed(z)
    ensures ShowsDue(z, FirstDue(z, now, count), now, count)
  {
    PopsEarliest(z, now, count);
    DueWellformed(z, now);
    DueNames(z, now);
    CountsMembers(Due(z, now));
    assert forall e :: e in FirstDue(z, now, count) ==> e in Due(z, now);
  }

  class RedisJobQueue {
    var queues: Queues

    ghost predicate Valid()
      reads this
    {
      AllWellformed(queues)
    }

    constructor ()
      ensures Valid() && queues == map[]
    {
      queues := map[];
    }

    method Enqueue(jobType: JobType, jobId: JobId, nextRunAtMs: int) returns (added: bool)
      requires Valid()
      modifies this
      ensures Valid()
      ensures added <==> forall e :: e in Queue(old(queues), jobType) ==> e.member != jobId
      ensures forall e :: e in Queue(queues, jobType) <==>
        e in Queue(old(queues), jobType) || (added && e == Entry(jobId, nextRunAtMs))
      ensures queues == old(queues)[jobType := AddIfAbsent(Queue(old(queues), jobType), Entry(jobId, nextRunAtMs))]
    {
      var z := Queue(queues, jobType);
      added := !Has(z, jobId);
      if added {
        InsertWellformed(z, Entry(jobId, nextRunAtMs));
      }
      queues := queues[jobType := AddIfAbsent(z, Entry(jobId, nextRunAtMs))];
    }

    // Two commands: the range, then the removal of what it returned.
    method Dequeue(jobType: JobType, nowMs: int, count: nat) returns (jobIds: seq<JobId>)
      requires Valid()
      modifies this
      ensures Valid()
      ensures jobIds == Members(FirstDue(Queue(old(queues), jobType), nowMs, count))
      ensures EarliestTaken(Queue(old(queues), jobType), Queue(queues, jobType), jobIds, nowMs, count)
      ensures Queue(queues, jobType) == Popped(Queue(old(queues), jobType), nowMs, count)
      ensures forall t :: t != jobType ==> Queue(queues, t) == Queue(old(queues), t)
      ensures |Queue(queues, jobType)| == |Queue(old(queues), jobType)| - |jobIds|
      ensures Due(Queue(queues, jobType), nowMs) == Due(Queue(old(queues), jobType), nowMs)[|jobIds|..]
    {
      var z := Queue(queues, jobType);
      jobIds := Members(FirstDue(z, nowMs, count));
      if |jobIds| == 0 {
        NothingPopped(z, nowMs, count);
      } else {
        queues := queues[jobType := Without(z, AsSet(jobIds))];
      }
      PopFacts(z, Queue(queues, jobType), jobIds, nowMs, count);
    }

    method Remove(jobType: JobType, jobId: JobId) returns (removed: bool)
      requires Valid()
      modifies this
      ensures Valid()
      ensures removed <==> exists e :: e in Queue(old(queues), jobType) && e.member == jobId
      ensures forall e :: e in Queue(queues, jobType) <==> e in Queue(old(queues), jobType) && e.member != jobId
      ensures queues == old(queues)[jobType := Without(Queue(old(queues), jobType), {jobId})]
    {
      var z := Queue(queues, jobType);
      removed := Has(z, jobId);
      WithoutWellformed(z, {jobId});
      queues := queues[jobType := Without(z, {jobId})];
    }

    // ZADD XX without CH answers the number of members added, which is always zero:
    // the caller is told "not updated" even when the score changed.
    method Reschedule(jobType: JobType, jobId: JobId, nextRunAtMs: int) returns (updated: bool)
      requires Valid()
      modifies this
      ensures Valid()
      ensures !updated
      ensures var z := Queue(old(queues), jobType);
        forall e :: e in Queue(queues, jobType) <==>
          if e.member != jobId || !Has(z, jobId) then e in z else e == Entry(jobId, nextRunAtMs)
      ensures queues == old(queues)[jobType := UpdateIfPresent(Queue(old(queues), jobType), Entry(jobId, nextRunAtMs))]
    {
      var z := Queue(queues, jobType);
      if Has(z, jobId) {
        WithoutWellformed(z, {jobId});
        InsertWellformed(Without(z, {jobId}), Entry(jobId, nextRunAtMs));
      }
      var z' := UpdateIfPresent(z, Entry(jobId, nextRunAtMs));
      updated := |z'| - |z| == 1;
      UpdateKeepsSize(z, Entry(jobId, nextRunAtMs));
      queues := queues[jobType := z'];
    }

    // ZCARD: how many different jobs are queued.
    method Size(jobType: JobType) returns (size: nat)
      requires Valid()
      ensures size == |Names(Queue(queues, jobType))|
    {
      CountsMembers(Queue(queues, jobType));
      size := |Queue(queues, jobType)|;
    }

    // ZCOUNT: how many different jobs are queued for a time from 0 to now.
    method Depth(jobType: JobType, nowMs: int) returns (depth: nat)
      requires Valid()
      ensures depth == |Between(Queue(queues, jobType), 0, nowMs)|
    {
      DueWellformed(Queue(queues, jobType), nowMs);
      DueNames(Queue(queues, jobType), nowMs);
      CountsMembers(Due(Queue(queues, jobType), nowMs));
      depth := |Due(Queue(queues, jobType), nowMs)|;
    }

    method Peek(jobType: JobType, nowMs: int, count: nat) returns (items: seq<Entry>)
      requires Valid()
      ensures items == FirstDue(Queue(queues, jobType), nowMs, count)
      ensures ShowsDue(Queue(queues, jobType), items, nowMs, count)
    {
      var due := FirstDue(Queue(queues, jobType), nowMs, count);
      items := FromReply(WithScores(due), due);
      FirstDueShows(Queue(queues, jobType), nowMs, count);
    }

    // The loop over a reply, two items at a time.
    method FromReply(results: seq<Reply>, ghost due: seq<Entry>) returns (items: seq<Entry>)
      requires results == WithScores(due)
      ensures items == due
    {
      items := [];
      var i := 0;
      while i < |results|
        invariant 0 <= i <= |results| && i == 2 * |items|
        invariant items == due[..|items|]
      {
        assert results[2 * |items|].Member? && results[2 * |items| + 1].Score?;
        items := items + [Entry(results[i].jobId, results[i + 1].score)];
        i := i + 2;
      }
    }
  }

  lemma UpdateKeepsSize(z: ZSet, e: Entry)
    requires Wellformed(z)
    ensures |UpdateIfPresent(z, e)| == |z|
  {
    if Has(z, e.member) {
      RemovesOne(z, e.member);
    }
  }

  lemma {:induction false} RemovesOne(z: ZSet, member: string)
    requires Wellformed(z) && Has(z, member)
    ensures |Without(z, {member})| == |z| - 1
  {
    var rest := z[1..];
    if z[0].member == member {
      assert forall i :: 0 <= i < |rest| ==> rest[i] == z[i + 1];
      assert !Has(rest, member);
      WithoutAbsent(rest, {}, member);
      WithoutNone(rest);
      assert {} + {member} == {member};
    } else {
      assert Has(rest, member);
      RemovesOne(rest, member);
    }
  }

  lemma CountsDue(queues: Queues, jobType: JobType, nowMs: int)
    requires AllWellformed(queues)
    ensures |Names(Queue(queues, jobType))| == |Queue(queues, jobType)|
    ensures |Between(Queue(queues, jobType), 0, nowMs)| == |Due(Queue(queues, jobType), nowMs)|
  {
    CountsMembers(Queue(queues, jobType));
    DueWellformed(Queue(queues, jobType), nowMs);
    DueNames(Queue(queues, jobType), nowMs);
    CountsMembers(Due(Queue(queues, jobType), nowMs));
  }

  /** Undisturbed, a dequeue returns the ids a peek showed, and both counters fall by as many. */
  method DequeueAfterPeek(queue: RedisJobQueue, jobType: JobType, nowMs: int, count: nat)
    returns (shown: seq<Entry>, jobIds: seq<JobId>, sizes: (nat, nat), depths: (nat, nat))
    requires queue.Valid()
    modifies queue
    ensures jobIds == Members(shown)
    ensures sizes.1 == sizes.0 - Min(count, depths.0)
    ensures depths.1 == depths.0 - Min(count, depths.0)
  {
    shown := queue.Peek(jobType, nowMs, count);
    CountsDue(queue.queues, jobType, nowMs);
    var size := queue.Size(jobType);
    var depth := queue.Depth(jobType, nowMs);
    jobIds := queue.Dequeue(jobType, nowMs, count);
    CountsDue(queue.queues, jobType, nowMs);
    var size' := queue.Size(jobType);
    var depth' := queue.Depth(jobType, nowMs);
    sizes, depths := (size, size'), (depth, depth');
  }
}
