/** What any sequence of landed writes can do to one job document.

    A history lists, in the order they landed, the writes that changed a document.  Replaying it
    with the repository's own functions gives the document.  The lemmas hold for every history that
    replays, whoever issued the writes: executors with stale snapshots, cancels, resets. */
module Lifecycle {
  import opened Types
  import opened Jobs

  type TaskId = nat

  datatype Closing =
    | Completion(completedAt: int)
    | Failure(error: string, nextRunAt: int)
    | Death

  datatype Event =
    // stamp: the `new Date()` taken before the write is sent.  at, redisAt: clocks when it landed.
    | Claimed(task: TaskId, version: int, stamp: int, at: int, redisAt: int)
    // slot: position in the history of the claim this write closes.
    | Closed(task: TaskId, slot: nat, version: int, found: JobStatus, closing: Closing)
    | Cancelled
    | Reset(cutoff: int, at: int)

  type History = seq<Event>

  predicate Versioned(e: Event) {
    e.Claimed? || e.Closed?
  }

  // Some landed write took the document from this version to the next.
  ghost predicate Consumed(h: History, version: int) {
    exists i :: 0 <= i < |h| && Versioned(h[i]) && h[i].version == version
  }

  predicate Terminal(status: JobStatus) {
    status.Completed? || status.Failed? || status.Dead?
  }

  function Close(job: Job, version: int, closing: Closing): Option<Job> {
    match closing
    case Completion(completedAt) => MarkCompleted(job, version, completedAt)
    case Failure(error, nextRunAt) => MarkFailed(job, version, error, nextRunAt)
    case Death => MarkDead(job, version)
  }

  function Apply(job: Job, e: Event): Option<Job> {
    match e
    case Claimed(_, version, stamp, _, _) => ClaimJob(job, version, stamp)
    case Closed(_, _, version, found, closing) => if job.status == found then Close(job, version, closing) else None
    case Cancelled => CancelJob(job)
    case Reset(cutoff, _) => ResetStale(job, cutoff)
  }

  function Replay(input: EnqueueJobInput, h: History): Option<Job> {
    if h == [] then Some(NewJob(input))
    else
      var before := Replay(input, h[..|h| - 1]);
      if before.None? then None else Apply(before.value, h[|h| - 1])
  }

  // Counting

  function Count(h: History, p: Event -> bool): nat {
    if h == [] then 0 else Count(h[..|h| - 1], p) + if p(h[|h| - 1]) then 1 else 0
  }

  function Claims(h: History): nat { Count(h, (e: Event) => e.Claimed?) }

  function Closings(h: History): nat { Count(h, (e: Event) => e.Closed?) }

  function ClosingsOfRunning(h: History): nat { Count(h, (e: Event) => e.Closed? && e.found.Running?) }

  function Resets(h: History): nat { Count(h, (e: Event) => e.Reset?) }

  // Writes that moved the version.
  function Writes(h: History): nat { Claims(h) + Closings(h) }

  lemma {:induction false} ReplayPrefix(input: EnqueueJobInput, h: History, n: nat)
    requires n <= |h| && Replay(input, h).Some?
    ensures Replay(input, h[..n]).Some?
  {
    if n == |h| {
      assert h[..n] == h;
    } else {
      var before := h[..|h| - 1];
      assert before[..n] == h[..n];
      ReplayPrefix(input, before, n);
    }
  }

  // The document one event later.
  lemma ReplayStep(input: EnqueueJobInput, h: History, n: nat)
    requires n < |h| && Replay(input, h).Some?
    ensures Replay(input, h[..n]).Some? && Replay(input, h[..n + 1]).Some?
    ensures Apply(Replay(input, h[..n]).value, h[n]) == Replay(input, h[..n + 1])
  {
    ReplayPrefix(input, h, n);
    ReplayPrefix(input, h, n + 1);
    assert h[..n + 1][..n] == h[..n];
  }

  /** The ledger: what the counters of a document say about its history. */
  lemma {:induction false} Ledger(input: EnqueueJobInput, h: History)
    requires Replay(input, h).Some?
    ensures var job := Replay(input, h).value;
      && job.input == input
      && job.attempts == Claims(h) <= 1 + Resets(h)
      && job.version == Claims(h) + Closings(h)
      && Claims(h) == Resets(h) + ClosingsOfRunning(h) + (if job.status == Running then 1 else 0)
      && ClosingsOfRunning(h) <= (if Terminal(job.status) then 1 else 0)
      && (job.status == Running ==> job.startedAt.Some?)
  {
    if h != [] {
      Ledger(input, h[..|h| - 1]);
    }
  }

  /** The versioned writes of a history consume versions 0, 1, 2, ... in order: the event at
      position i consumed exactly the number of versioned writes before it. */
  lemma {:induction false} ConsumedInOrder(input: EnqueueJobInput, h: History, i: nat)
    requires Replay(input, h).Some? && i < |h| && Versioned(h[i])
    ensures h[i].version == Claims(h[..i]) + Closings(h[..i])
    ensures h[i].version < Replay(input, h).value.version
  {
    ReplayStep(input, h, i);
    Ledger(input, h[..i]);
    VersionGrows(input, h, i + 1);
  }

  lemma {:induction false} VersionGrows(input: EnqueueJobInput, h: History, n: nat)
    requires Replay(input, h).Some? && n <= |h|
    ensures Replay(input, h[..n]).Some?
    ensures Replay(input, h[..n]).value.version <= Replay(input, h).value.version
  {
    if n == |h| {
      assert h[..n] == h;
    } else {
      assert h[..|h| - 1][..n] == h[..n];
      VersionGrows(input, h[..|h| - 1], n);
    }
  }

  lemma ConsumedStep(h: History, version: int)
    requires h != []
    ensures var last := h[|h| - 1];
      Consumed(h, version) <==> Consumed(h[..|h| - 1], version) || (Versioned(last) && last.version == version)
  {
    var n := |h| - 1;
    if Consumed(h[..n], version) {
      var i :| 0 <= i < n && Versioned(h[..n][i]) && h[..n][i].version == version;
      assert h[i] == h[..n][i];
    }
    if Consumed(h, version) {
      var i :| 0 <= i < |h| && Versioned(h[i]) && h[i].version == version;
      if i < n {
        assert h[i] == h[..n][i];
      }
    }
  }

  /** No two landed writes consumed the same version, and none was skipped. */
  lemma {:induction false} VersionsExactlyOnce(input: EnqueueJobInput, h: History)
    requires Replay(input, h).Some?
    ensures forall i, j :: 0 <= i < j < |h| && Versioned(h[i]) && Versioned(h[j]) ==> h[i].version < h[j].version
    ensures forall v :: 0 <= v < Replay(input, h).value.version <==> Consumed(h, v)
  {
    if h != [] {
      var n := |h| - 1;
      VersionsExactlyOnce(input, h[..n]);
      ReplayStep(input, h, n);
      assert h[..n + 1] == h;
      forall i, j | 0 <= i < j < |h| && Versioned(h[i]) && Versioned(h[j]) ensures h[i].version < h[j].version {
        if j == n {
          assert h[..n][i] == h[i];
          ConsumedInOrder(input, h[..n], i);
        } else {
          assert h[..n][i] == h[i] && h[..n][j] == h[j];
        }
      }
      Ledger(input, h[..n]);
      forall v ensures 0 <= v < Replay(input, h).value.version <==> Consumed(h, v) {
        ConsumedStep(h, v);
      }
    } else {
      assert Replay(input, h).value.version == 0;
    }
  }

  /** From the moment a document is completed, failed or dead, only `markDead` can still land:
      the status stays or becomes dead, and no claim follows. */
  lemma {:induction false} TerminalIsAbsorbing(input: EnqueueJobInput, h: History, n: nat)
    requires Replay(input, h).Some? && n <= |h|
    requires Replay(input, h[..n]).Some? && Terminal(Replay(input, h[..n]).value.status)
    ensures Replay(input, h).value.status in {Replay(input, h[..n]).value.status, Dead}
    ensures Replay(input, h[..n]).value.attempts == Replay(input, h).value.attempts
    ensures forall i :: n <= i < |h| ==> h[i].Closed? && h[i].closing == Death
  {
    if n == |h| {
      assert h[..n] == h;
    } else {
      var m := |h| - 1;
      assert h[..m][..n] == h[..n];
      ReplayStep(input, h, m);
      assert h[..m + 1] == h;
      TerminalIsAbsorbing(input, h[..m], n);
      assert forall i :: n <= i < m ==> h[i] == h[..m][i];
    }
  }

  // The status a history leads to, read off its last event alone.
  function StatusAfter(h: History): JobStatus {
    if h == [] then Pending
    else
      match h[|h| - 1]
      case Claimed(_, _, _, _, _) => Running
      case Closed(_, _, _, _, Completion(_)) => Completed
      case Closed(_, _, _, _, Failure(_, _)) => Failed
      case Closed(_, _, _, _, Death) => Dead
      case Cancelled => Dead
      case Reset(_, _) => Pending
  }

  /** A document is in the status its last event gave it; a running one has the version of that claim. */
  lemma LastEventDecides(input: EnqueueJobInput, h: History)
    requires Replay(input, h).Some?
    ensures Replay(input, h).value.status == StatusAfter(h)
    ensures StatusAfter(h) == Running ==>
      h[|h| - 1].Claimed? && Replay(input, h).value.version == h[|h| - 1].version + 1
  {
    if h != [] {
      assert Replay(input, h) == Apply(Replay(input, h[..|h| - 1]).value, h[|h| - 1]);
    }
  }

  /** The last thing that happened to a dead document is a cancellation or a burial. */
  lemma DeathHasACause(input: EnqueueJobInput, h: History)
    requires Replay(input, h).Some? && Replay(input, h).value.status == Dead
    ensures h != [] && (h[|h| - 1].Cancelled? || (h[|h| - 1].Closed? && h[|h| - 1].closing == Death))
  {
    assert h != [];
  }

  /** The document still carries claim i, running under the version the claim gave it, exactly
      when nothing has landed since: the claim was not reset, superseded or closed. */
  lemma {:induction false} HoldsExactlyWhileLast(input: EnqueueJobInput, h: History, i: nat)
    requires Replay(input, h).Some? && i < |h| && h[i].Claimed?
    ensures var job := Replay(input, h).value;
      (job.status == Running && job.version == h[i].version + 1) <==> i == |h| - 1
  {
    var n := |h| - 1;
    ReplayStep(input, h, n);
    assert h[..n + 1] == h;
    if i < n {
      assert h[..n][i] == h[i];
      HoldsExactlyWhileLast(input, h[..n], i);
      ConsumedInOrder(input, h[..n], i);
    }
  }

  // The last event is a claim of the version this claim consumed only if it is this claim.
  lemma OwnClaimIsLast(input: EnqueueJobInput, h: History, slot: nat)
    requires Replay(input, h).Some? && slot < |h| && h[slot].Claimed?
    ensures h[|h| - 1].Claimed? && h[|h| - 1].version == h[slot].version <==> slot == |h| - 1
  {
    VersionsExactlyOnce(input, h);
  }

  /** A version that has moved on by two was moved the second time by a later event. */
  lemma {:induction false} MovedOnBySomeone(input: EnqueueJobInput, h: History, i: nat, version: int)
    requires Replay(input, h).Some? && i < |h| && Versioned(h[i])
    requires h[i].version < version < Replay(input, h).value.version
    ensures exists j :: i < j < |h| && Versioned(h[j]) && h[j].version == version
  {
    VersionsExactlyOnce(input, h);
    ConsumedInOrder(input, h, i);
    assert Consumed(h, version);
    var j :| 0 <= j < |h| && Versioned(h[j]) && h[j].version == version;
    assert i < j;
  }

  // Timing

  ghost predicate Paced(h: History, now: int) {
    && (forall i :: 0 <= i < |h| && (h[i].Claimed? || h[i].Reset?) ==> h[i].at <= now)
    && (forall i :: 0 <= i < |h| && h[i].Claimed? ==> h[i].stamp <= h[i].at)
    && (forall i :: 0 <= i < |h| && h[i].Reset? ==> h[i].cutoff + STALE_RUNNING_JOB_AGE_MS <= h[i].at)
    && (forall i, j :: 0 <= i < j < |h| && (h[i].Claimed? || h[i].Reset?) && (h[j].Claimed? || h[j].Reset?) ==>
          h[i].at <= h[j].at)
  }

  lemma {:induction false} OldClaimsAreOld(input: EnqueueJobInput, h: History, now: int, i: nat)
    requires Replay(input, h).Some? && Paced(h, now) && i < |h| && h[i].Claimed?
    ensures Replay(input, h).value.status == Pending ==> now > h[i].stamp + STALE_RUNNING_JOB_AGE_MS
    ensures Replay(input, h).value.status == Running && i != |h| - 1 ==> now > h[i].stamp + STALE_RUNNING_JOB_AGE_MS
    ensures i == |h| - 1 ==> Replay(input, h).value.startedAt == Some(h[i].stamp)
    ensures Replay(input, h).value.status == Running ==>
      Replay(input, h).value.startedAt == Some(h[i].stamp) || now > h[i].stamp + STALE_RUNNING_JOB_AGE_MS
  {
    var n := |h| - 1;
    ReplayStep(input, h, n);
    assert h[..n + 1] == h;
    if i < n {
      assert h[..n][i] == h[i];
      var bound := if h[n].Claimed? || h[n].Reset? then h[n].at else now;
      assert Paced(h[..n], bound);
      OldClaimsAreOld(input, h[..n], bound, i);
    }
  }

  /** A later claim lands more than the stale age after the earlier claim's recorded start. */
  lemma ClaimsFarApart(input: EnqueueJobInput, h: History, now: int, i: nat, j: nat)
    requires Replay(input, h).Some? && Paced(h, now)
    requires i < j < |h| && h[i].Claimed? && h[j].Claimed?
    ensures h[j].at > h[i].stamp + STALE_RUNNING_JOB_AGE_MS
  {
    ReplayStep(input, h, j);
    assert h[..j][i] == h[i];
    assert Paced(h[..j], h[j].at);
    OldClaimsAreOld(input, h[..j], h[j].at, i);
  }
}
