/** Safety of every run of the scheduler, from an empty store, for every token offset k. */
module Theorems {
  import opened Types
  import opened Jobs
  import opened Lifecycle
  import opened SortedSets
  import opened JobQueue
  import opened DeadLetters
  import opened Scheduler
  import opened Invariants

  ghost predicate Reachable(k: int, s: State) {
    exists s0, run :: Reaches(k, s0, run, s)
  }

  ghost predicate Reaches(k: int, s0: State, run: seq<Action>, s: State) {
    Initial(s0) && Run(k, s0, run) == Some(s)
  }

  lemma ReachableInv(k: int, s: State)
    requires Reachable(k, s)
    ensures Inv(k, s)
    ensures forall id :: id in s.jobs ==> Replay(s.jobs[id].job.input, s.jobs[id].history) == Some(s.jobs[id].job)
  {
    var s0, run :| Reaches(k, s0, run, s);
    InvInitially(k, s0);
    InvRun(k, s0, run);
    assert forall id :: id in s.jobs ==> RecordOk(k, s, id);
  }

  lemma ReachableStep(k: int, s: State, a: Action)
    requires Reachable(k, s) && Enabled(s, a)
    ensures Reachable(k, Perform(k, s, a))
  {
    var s0, run :| Reaches(k, s0, run, s);
    RunAppend(k, s0, run, a);
    assert Reaches(k, s0, run + [a], Perform(k, s, a));
  }

  lemma {:induction false} ReachableRun(k: int, s: State, run: seq<Action>)
    requires Reachable(k, s) && Run(k, s, run).Some?
    ensures Reachable(k, Run(k, s, run).value)
  {
    if run != [] {
      ReachableRun(k, s, run[..|run| - 1]);
      ReachableStep(k, Run(k, s, run[..|run| - 1]).value, run[|run| - 1]);
    }
  }

  // Versions

  /** The landed versioned writes on a job consume versions 0, 1, 2, ... each exactly once. */
  lemma EachVersionOnce(k: int, s: State, id: JobId)
    requires Reachable(k, s) && id in s.jobs
    ensures var h := s.jobs[id].history;
      && (forall i, j :: 0 <= i < j < |h| && Versioned(h[i]) && Versioned(h[j]) ==> h[i].version < h[j].version)
      && (forall v :: 0 <= v < s.jobs[id].job.version <==> Consumed(h, v))
  {
    ReachableInv(k, s);
    VersionsExactlyOnce(s.jobs[id].job.input, s.jobs[id].history);
  }

  /** Of all executions that read one version of a job, at most one passes the claim. */
  lemma OneClaimPerVersion(k: int, s: State, t: TaskId, u: TaskId)
    requires Reachable(k, s) && InPhase(s, t) && InPhase(s, u)
    requires s.tasks[t].jobId == s.tasks[u].jobId && s.tasks[t].claimed.version == s.tasks[u].claimed.version
    ensures t == u
  {
    ReachableInv(k, s);
    assert TaskOk(s, t, s.tasks[t]) && TaskOk(s, u, s.tasks[u]);
    EachVersionOnce(k, s, s.tasks[t].jobId);
    assert s.tasks[t].slot == s.tasks[u].slot;
  }

  /** The counters of a job document, read off its history. */
  lemma CountersAddUp(k: int, s: State, id: JobId)
    requires Reachable(k, s) && id in s.jobs
    ensures var job, h := s.jobs[id].job, s.jobs[id].history;
      && job.attempts == Claims(h) <= 1 + Resets(h)
      && Claims(h) == Resets(h) + ClosingsOfRunning(h) + (if job.status == Running then 1 else 0)
      && job.version == Claims(h) + Closings(h)
  {
    ReachableInv(k, s);
    Ledger(s.jobs[id].job.input, s.jobs[id].history);
  }

  // Closing writes

  /** Whatever k is and whatever throws, at most one closing write of a claim ever lands. */
  lemma AtMostOneClosing(k: int, s: State, id: JobId, i: nat, id': JobId, j: nat)
    requires Reachable(k, s) && id in s.jobs && id' in s.jobs
    requires i < |s.jobs[id].history| && s.jobs[id].history[i].Closed?
    requires j < |s.jobs[id'].history| && s.jobs[id'].history[j].Closed?
    requires s.jobs[id].history[i].task == s.jobs[id'].history[j].task
    ensures id == id' && i == j
  {
    ReachableInv(k, s);
    var c, c' := s.jobs[id].history[i].slot, s.jobs[id'].history[j].slot;
    assert RecordOk(k, s, id) && RecordOk(k, s, id');
    assert EventOk(k, s, id, i) && EventOk(k, s, id', j);
    assert EventOk(k, s, id, c) && EventOk(k, s, id', c');
    EachVersionOnce(k, s, id);
  }

  // The claim an execution holds, in the history of its job.
  ghost predicate HasClaim(s: State, t: TaskId) {
    InPhase(s, t) && s.tasks[t].jobId in s.jobs
    && var h, slot := HistoryOf(s, t), s.tasks[t].slot;
    slot < |h| && h[slot].Claimed? && h[slot].task == t && s.tasks[t].claimed.version == h[slot].version + 1
  }

  function HistoryOf(s: State, t: TaskId): History
    requires InPhase(s, t) && s.tasks[t].jobId in s.jobs
  {
    s.jobs[s.tasks[t].jobId].history
  }

  // Exactly k writes moved the version since the claim.
  ghost predicate MovedOnBy(k: int, s: State, t: TaskId)
    requires HasClaim(s, t)
  {
    Writes(HistoryOf(s, t)) == Writes(HistoryOf(s, t)[..s.tasks[t].slot + 1]) + k
  }

  // The token of a closing write is the stored version exactly when the version moved on by k.
  lemma TokenMatches(k: int, s: State, t: TaskId)
    requires Reachable(k, s) && InPhase(s, t)
    ensures HasClaim(s, t)
    ensures s.jobs[s.tasks[t].jobId].job.version == s.tasks[t].claimed.version + k <==> MovedOnBy(k, s, t)
    ensures s.jobs[s.tasks[t].jobId].job.status == StatusAfter(HistoryOf(s, t))
  {
    ReachableInv(k, s);
    var x := s.tasks[t];
    assert TaskOk(s, t, x);
    var r := s.jobs[x.jobId];
    Ledger(r.job.input, r.history);
    LastEventDecides(r.job.input, r.history);
    ConsumedInOrder(r.job.input, r.history, x.slot);
    assert r.history[..x.slot + 1][..x.slot] == r.history[..x.slot];
  }

  /** For every k, completing or failing lands exactly when the last event on the job is a claim that
      consumed the version k above the one this execution's claim consumed.  So with k = 0 it closes
      its own claim; with the code's k = 1 it closes the claim of the execution that came next. */
  lemma ClosingLandsExactly(k: int, s: State, t: TaskId, closing: Closing)
    requires Reachable(k, s) && InPhase(s, t) && !closing.Death?
    ensures HasClaim(s, t)
    ensures var h := HistoryOf(s, t);
      && h[s.tasks[t].slot].Claimed?
      && (Lands(s, s.tasks[t].jobId, ClosingEvent(k, s, t, closing)) <==>
          h[|h| - 1].Claimed? && h[|h| - 1].version == h[s.tasks[t].slot].version + k)
  {
    ReachableInv(k, s);
    TokenMatches(k, s, t);
    LastEventDecides(s.jobs[s.tasks[t].jobId].job.input, HistoryOf(s, t));
  }

  /** For every k, burying lands exactly when k versioned writes have landed since the claim. */
  lemma BurialLandsExactly(k: int, s: State, t: TaskId)
    requires Reachable(k, s) && InPhase(s, t)
    ensures HasClaim(s, t)
    ensures Lands(s, s.tasks[t].jobId, ClosingEvent(k, s, t, Death)) <==> MovedOnBy(k, s, t)
  {
    TokenMatches(k, s, t);
  }

  /** A burial overwrites an outcome exactly when the last of those k writes completed or failed the job. */
  lemma BurialOverwritesExactly(k: int, s: State, t: TaskId)
    requires Reachable(k, s) && InPhase(s, t)
    ensures HasClaim(s, t)
    ensures var h, e := HistoryOf(s, t), ClosingEvent(k, s, t, Death);
      Lands(s, s.tasks[t].jobId, e) && e.found in {Completed, Failed} <==>
      MovedOnBy(k, s, t) && h[|h| - 1].Closed? && !h[|h| - 1].closing.Death?
  {
    TokenMatches(k, s, t);
  }

  /** With the returned token (k = 0) no burial ever overwrote a completed or failed job. */
  lemma IntendedBurialSparesOutcomes(s: State, id: JobId, i: nat)
    requires Reachable(0, s) && id in s.jobs && i < |s.jobs[id].history|
    requires s.jobs[id].history[i].Closed? && s.jobs[id].history[i].closing.Death?
    ensures s.jobs[id].history[i].found !in {Completed, Failed}
  {
    ReachableInv(0, s);
    var h, input := s.jobs[id].history, s.jobs[id].job.input;
    assert RecordOk(0, s, id) && EventOk(0, s, id, i);
    ReplayStep(input, h, i);
    LastEventDecides(input, h[..i]);
    VersionsExactlyOnce(input, h);
    assert h[..i][i - 1] == h[i - 1];
  }

  lemma MarkDeadStep(k: int, s: State, t: TaskId) returns (s': State)
    requires HasClaim(s, t) && s.tasks[t].phase.MarkingDead?
    ensures s' == Perform(k, s, MarkDead(t)) && Enabled(s', WriteLetter(t, false))
    ensures s'.tasks[t].jobId == s.tasks[t].jobId && s'.jobs.Keys == s.jobs.Keys && s'.tasks[t].phase.WritingLetter?
    ensures var id := s.tasks[t].jobId;
      s'.jobs[id].job.status ==
      if Lands(s, id, ClosingEvent(k, s, t, Death)) then Dead else s.jobs[id].job.status
  {
    s' := Perform(k, s, MarkDead(t));
  }

  // A run of other tasks.
  predicate ByOthers(t: TaskId, run: seq<Action>) {
    forall a :: a in run ==> Mover(a) != Some(t)
  }

  lemma {:induction false} TaskWaits(k: int, s: State, t: TaskId, run: seq<Action>)
    requires t in s.tasks && Run(k, s, run).Some? && ByOthers(t, run)
    ensures t in Run(k, s, run).value.tasks && Run(k, s, run).value.tasks[t] == s.tasks[t]
  {
    if run != [] {
      var n := |run| - 1;
      assert run[n] in run && forall a :: a in run[..n] ==> a in run;
      TaskWaits(k, s, t, run[..n]);
    }
  }

  predicate Kills(e: Event) {
    e.Cancelled? || (e.Closed? && e.closing.Death?)
  }

  ghost predicate KilledSince(s: State, s': State, id: JobId) {
    id in s.jobs && id in s'.jobs &&
    exists i :: |s.jobs[id].history| <= i < |s'.jobs[id].history| && Kills(s'.jobs[id].history[i])
  }

  // A job is dead at the end of a run exactly when it was at the start, or something killed it.
  lemma DeadAfterRunExactly(k: int, s: State, run: seq<Action>, id: JobId)
    requires Reachable(k, s) && Run(k, s, run).Some? && id in s.jobs
    ensures var s' := Run(k, s, run).value;
      id in s'.jobs && (s'.jobs[id].job.status == Dead <==> s.jobs[id].job.status == Dead || KilledSince(s, s', id))
  {
    ReachableInv(k, s);
    InvRun(k, s, run);
    var s' := Run(k, s, run).value;
    var h, h', input := s.jobs[id].history, s'.jobs[id].history, s.jobs[id].job.input;
    assert RecordOk(k, s', id) && h'[..|h|] == h;
    LastEventDecides(input, h);
    LastEventDecides(input, h');
    if s.jobs[id].job.status == Dead {
      TerminalIsAbsorbing(input, h', |h|);
    } else if KilledSince(s, s', id) {
      var i :| |h| <= i < |h'| && Kills(h'[i]);
      KillingIsFinal(input, h', i);
    } else if |h'| == |h| {
      assert h' == h;
    }
  }

  lemma KillingIsFinal(input: EnqueueJobInput, h: History, i: nat)
    requires Replay(input, h).Some? && i < |h| && Kills(h[i])
    ensures Replay(input, h).value.status == Dead
  {
    ReplayStep(input, h, i);
    LastEventDecides(input, h[..i + 1]);
    TerminalIsAbsorbing(input, h, i + 1);
  }

  /** An exhausted execution buries its job and later, whatever other tasks do in between, writes the
      letter.  There is then a letter, but the job is dead with it exactly when k versioned writes had
      landed since the claim, or the job was dead already, or another task killed it in between. */
  lemma LetterMeansDeadExactly(k: int, s: State, t: TaskId, run: seq<Action>)
    requires Reachable(k, s) && InPhase(s, t) && s.tasks[t].phase.MarkingDead?
    requires Run(k, Perform(k, s, MarkDead(t)), run).Some? && ByOthers(t, run)
    ensures HasClaim(s, t)
    ensures var s1 := Perform(k, s, MarkDead(t));
      var s2, id := Run(k, s1, run).value, s.tasks[t].jobId;
      && Enabled(s2, WriteLetter(t, false))
      && var s' := Perform(k, s2, WriteLetter(t, false));
      && id in s'.letters && id in s'.jobs && s'.jobs == s2.jobs
      && (s'.jobs[id].job.status == Dead <==>
          MovedOnBy(k, s, t) || StatusAfter(HistoryOf(s, t)) == Dead || KilledSince(s1, s', id))
  {
    BurialLandsExactly(k, s, t);
    TokenMatches(k, s, t);
    var s1 := MarkDeadStep(k, s, t);
    ReachableStep(k, s, MarkDead(t));
    TaskWaits(k, s1, t, run);
    DeadAfterRunExactly(k, s1, run, s.tasks[t].jobId);
    assert Perform(k, Run(k, s1, run).value, WriteLetter(t, false)).jobs == Run(k, s1, run).value.jobs;
  }

  /** So with the code's token (k = 1) an execution whose claim nobody touches before its letter is
      written leaves a letter about a running job: its burial does not land. */
  lemma UndisturbedLetterIsAboutRunning(s: State, t: TaskId, run: seq<Action>)
    requires Reachable(1, s) && InPhase(s, t) && s.tasks[t].phase.MarkingDead?
    requires HasClaim(s, t) && s.tasks[t].slot == |HistoryOf(s, t)| - 1
    requires Run(1, Perform(1, s, MarkDead(t)), run).Some? && ByOthers(t, run)
    ensures Perform(1, s, MarkDead(t)).jobs == s.jobs
    ensures var s2, id := Run(1, Perform(1, s, MarkDead(t)), run).value, s.tasks[t].jobId;
      && Enabled(s2, WriteLetter(t, false)) && id in s2.jobs
      && (s2.jobs[id] == s.jobs[id] ==>
          var s' := Perform(1, s2, WriteLetter(t, false));
          id in s'.letters && id in s'.jobs && s'.jobs[id].job.status == Running)
  {
    BurialLandsExactly(1, s, t);
    assert HistoryOf(s, t)[..s.tasks[t].slot + 1] == HistoryOf(s, t);
    TokenMatches(1, s, t);
    LetterMeansDeadExactly(1, s, t, run);
  }

  /** With the token the claim returned (k = 0), completing or failing lands exactly when nothing
      has landed since the claim: it was not reset, superseded or closed. */
  lemma IntendedTokenIsExact(s: State, t: TaskId, closing: Closing)
    requires Reachable(0, s) && InPhase(s, t) && !closing.Death?
    ensures s.tasks[t].jobId in s.jobs
    ensures Lands(s, s.tasks[t].jobId, ClosingEvent(0, s, t, closing))
      <==> s.tasks[t].slot == |s.jobs[s.tasks[t].jobId].history| - 1
  {
    ReachableInv(0, s);
    ClosingLandsExactly(0, s, t, closing);
    OwnClaimIsLast(s.jobs[s.tasks[t].jobId].job.input, HistoryOf(s, t), s.tasks[t].slot);
  }

  // Some other execution's write consumed the version this claim returned.
  ghost predicate Overtaken(h: History, t: TaskId, slot: nat)
  {
    && slot < |h| && h[slot].Claimed? && h[slot].task == t
    && exists j :: slot < j < |h| && Versioned(h[j]) && h[j].task != t && h[j].version == h[slot].version + 1
  }

  /** With a token above the returned version (the code has k = 1), no closing write of any kind
      lands on the execution's own claim: it lands only after another execution moved the version. */
  lemma LateTokenNeedsAnother(k: int, s: State, t: TaskId, closing: Closing)
    requires k >= 1 && Reachable(k, s) && InPhase(s, t)
    requires Lands(s, s.tasks[t].jobId, ClosingEvent(k, s, t, closing))
    ensures Overtaken(s.jobs[s.tasks[t].jobId].history, t, s.tasks[t].slot)
  {
    ReachableInv(k, s);
    TokenMatches(k, s, t);
    var x := s.tasks[t];
    var h := s.jobs[x.jobId].history;
    MovedOnBySomeone(s.jobs[x.jobId].job.input, h, x.slot, h[x.slot].version + 1);
    var j :| x.slot < j < |h| && Versioned(h[j]) && h[j].version == h[x.slot].version + 1;
    NextIsAnothers(k, s, x.jobId, x.slot, j);
  }

  // The write that consumes the version a claim returned is another execution's.
  lemma NextIsAnothers(k: int, s: State, id: JobId, i: nat, j: nat)
    requires k >= 1 && id in s.jobs && RecordOk(k, s, id) && i < j < |s.jobs[id].history|
    requires var h := s.jobs[id].history; h[i].Claimed? && Versioned(h[j]) && h[j].version == h[i].version + 1
    ensures s.jobs[id].history[j].task != s.jobs[id].history[i].task
  {
    assert EventOk(k, s, id, j) && EventOk(k, s, id, i);
    if s.jobs[id].history[j].Closed? {
      assert EventOk(k, s, id, s.jobs[id].history[j].slot);
    }
  }

  /** And completing or failing does land exactly when the job is running under such another claim. */
  lemma AnothersClaimClosedExactly(k: int, s: State, t: TaskId, closing: Closing)
    requires k >= 1 && Reachable(k, s) && InPhase(s, t) && !closing.Death?
    ensures HasClaim(s, t)
    ensures var h := HistoryOf(s, t);
      && h[s.tasks[t].slot].Claimed?
      && (Lands(s, s.tasks[t].jobId, ClosingEvent(k, s, t, closing)) <==>
          h[|h| - 1].Claimed? && h[|h| - 1].task != t && h[|h| - 1].version == h[s.tasks[t].slot].version + k)
  {
    ReachableInv(k, s);
    ClosingLandsExactly(k, s, t, closing);
    var id, h := s.tasks[t].jobId, HistoryOf(s, t);
    assert RecordOk(k, s, id) && EventOk(k, s, id, |h| - 1);
  }

  lemma {:induction false} NoClosingWithoutReset(k: int, s: State, id: JobId, n: nat)
    requires k >= 1 && Inv(k, s) && id in s.jobs && n <= |s.jobs[id].history|
    requires forall i :: 0 <= i < |s.jobs[id].history| ==> !s.jobs[id].history[i].Reset?
    ensures Closings(s.jobs[id].history[..n]) == 0 && Resets(s.jobs[id].history[..n]) == 0
  {
    var h, input := s.jobs[id].history, s.jobs[id].job.input;
    if n > 0 {
      NoClosingWithoutReset(k, s, id, n - 1);
      assert h[..n][..n - 1] == h[..n - 1];
      assert RecordOk(k, s, id) && EventOk(k, s, id, n - 1);
      if h[n - 1].Closed? {
        ConsumedInOrder(input, h, n - 1);
        ConsumedInOrder(input, h, h[n - 1].slot);
        ReplayPrefix(input, h, n - 1);
        Ledger(input, h[..n - 1]);
        assert false;
      }
    }
  }

  /** So, as the code stands, a job that was claimed and never reset stays running for ever. */
  lemma ClaimedStaysRunning(k: int, s: State, id: JobId)
    requires k >= 1 && Reachable(k, s) && id in s.jobs
    requires forall i :: 0 <= i < |s.jobs[id].history| ==> !s.jobs[id].history[i].Reset?
    ensures Closings(s.jobs[id].history) == 0
    ensures Claims(s.jobs[id].history) > 0 ==> s.jobs[id].job.status == Running && s.jobs[id].job.version == 1
    ensures s.jobs[id].job.status in {Pending, Running, Dead}
  {
    ReachableInv(k, s);
    var h := s.jobs[id].history;
    NoClosingWithoutReset(k, s, id, |h|);
    assert h[..|h|] == h;
    Ledger(s.jobs[id].job.input, h);
    NoFoundWithoutClosing(h);
    if Terminal(s.jobs[id].job.status) {
      OnlyCancelled(s.jobs[id].job.input, h);
    }
  }

  lemma {:induction false} NoFoundWithoutClosing(h: History)
    ensures ClosingsOfRunning(h) <= Closings(h)
  {
    if h != [] {
      NoFoundWithoutClosing(h[..|h| - 1]);
    }
  }

  lemma OnlyCancelled(input: EnqueueJobInput, h: History)
    requires Replay(input, h).Some? && Terminal(Replay(input, h).value.status) && Closings(h) == 0
    ensures Replay(input, h).value.status == Dead
  {
    assert h != [] && Closings(h) == Closings(h[..|h| - 1]) + if h[|h| - 1].Closed? then 1 else 0;
  }

  // Status

  /** Once completed, failed or dead, a job is never pending or running again and never claimed
      again; its only further move is to dead, and its request is still the first one. */
  lemma TerminalForEver(k: int, s: State, run: seq<Action>, id: JobId)
    requires Reachable(k, s) && Run(k, s, run).Some?
    requires id in s.jobs && Terminal(s.jobs[id].job.status)
    ensures var s' := Run(k, s, run).value;
      && id in s'.jobs
      && s'.jobs[id].job.status in {s.jobs[id].job.status, Dead}
      && s'.jobs[id].job.attempts == s.jobs[id].job.attempts
      && s'.jobs[id].job.input == s.jobs[id].job.input
      && forall i :: |s.jobs[id].history| <= i < |s'.jobs[id].history| ==> !s'.jobs[id].history[i].Claimed?
  {
    ReachableInv(k, s);
    InvRun(k, s, run);
    var s' := Run(k, s, run).value;
    var h, h' := s.jobs[id].history, s'.jobs[id].history;
    assert RecordOk(k, s', id) && h'[..|h|] == h;
    TerminalIsAbsorbing(s.jobs[id].job.input, h', |h|);
  }

  /** A dead job was cancelled or claimed at least maxAttempts times. */
  lemma NoPrematureDeath(k: int, s: State, id: JobId)
    requires Reachable(k, s) && id in s.jobs && s.jobs[id].job.status == Dead
    ensures var h := s.jobs[id].history;
      h != [] && (h[|h| - 1] == Cancelled || s.jobs[id].job.attempts >= s.jobs[id].job.input.maxAttempts)
  {
    ReachableInv(k, s);
    var h := s.jobs[id].history;
    DeathHasACause(s.jobs[id].job.input, h);
    assert RecordOk(k, s, id) && EventOk(k, s, id, |h| - 1);
    Ledger(s.jobs[id].job.input, h);
    ClaimsGrow(h, |h| - 1);
  }

  /** A dead letter, even one written by a stale execution, counts at least maxAttempts and at most
      the attempts made so far; letters and their outbox events pair off one to one. */
  lemma LettersAreEarned(k: int, s: State)
    requires Reachable(k, s)
    ensures Paired(s.letters, s.events) && |s.letters| == |s.events|
    ensures forall id :: id in s.letters ==> id in s.jobs
    ensures forall id :: id in s.letters ==>
      s.jobs[id].job.input.maxAttempts <= s.letters[id].attempts <= s.jobs[id].job.attempts
  {
    ReachableInv(k, s);
    PairedCounts(s.letters, s.events);
  }

  // Time

  /** A claim lands only once Redis time has reached a time some caller asked for. */
  lemma NeverEarly(k: int, s: State, t: TaskId)
    requires Reachable(k, s) && Enabled(s, Claim(t))
    ensures exists q :: q in Requested(s, s.tasks[t].jobId) && q <= s.redisClock
  {
    ReachableInv(k, s);
    assert TaskOk(s, t, s.tasks[t]);
  }

  /** Two claims of one job: the later one lands more than the stale age after the start the earlier
      one recorded, which is taken before the earlier one is sent. */
  lemma ClaimsApart(k: int, s: State, id: JobId, i: nat, j: nat)
    requires Reachable(k, s) && id in s.jobs
    requires i < j < |s.jobs[id].history| && s.jobs[id].history[i].Claimed? && s.jobs[id].history[j].Claimed?
    ensures var e, e' := s.jobs[id].history[i], s.jobs[id].history[j];
      e'.at > e.stamp + 300_000
  {
    ReachableInv(k, s);
    assert RecordOk(k, s, id);
    ClaimsFarApart(s.jobs[id].job.input, s.jobs[id].history, s.clock, i, j);
  }

  /** If two executions of one job have both passed their claim, the older one is past the stale
      age.  So while every handler ends within that age, runs of one job never overlap. */
  lemma RunsOverlapOnlyWhenStale(k: int, s: State, t: TaskId, u: TaskId)
    requires Reachable(k, s) && InPhase(s, t) && InPhase(s, u) && t != u && s.tasks[t].jobId == s.tasks[u].jobId
    ensures var x, y := s.tasks[t].claimed, s.tasks[u].claimed;
      && x.startedAt.Some? && y.startedAt.Some?
      && (s.clock > x.startedAt.value + 300_000
          || s.clock > y.startedAt.value + 300_000)
  {
    ReachableInv(k, s);
    var x, y := s.tasks[t], s.tasks[u];
    assert TaskOk(s, t, x) && TaskOk(s, u, y) && RecordOk(k, s, x.jobId);
    if x.slot < y.slot {
      ClaimsApart(k, s, x.jobId, x.slot, y.slot);
    } else {
      ClaimsApart(k, s, x.jobId, y.slot, x.slot);
    }
  }

  // Queues

  /** A member leaves a sorted set only through a pop that hands it to the dispatcher, or through
      the removal that follows a cancellation. */
  lemma MembersLeaveTwoWays(k: int, s: State, a: Action, jobType: JobType, id: JobId)
    requires Enabled(s, a)
    requires Has(Queue(s.queues, jobType), id) && !Has(Queue(Perform(k, s, a).queues, jobType), id)
    ensures
      || (a.Pop? && s.tasks[a.t].jobType == jobType && id in s.tasks[a.t].ids
          && Perform(k, s, a).inbox == s.inbox + multiset(s.tasks[a.t].ids))
      || (a.Remove? && s.tasks[a.t].jobType == jobType && s.tasks[a.t].jobId == id)
  {
    var e :| e in Queue(s.queues, jobType) && e.member == id;
    var z' := Queue(Perform(k, s, a).queues, jobType);
    assert e !in z';
    if a.Reschedule? && s.tasks[a.t].claimed.input.jobType == jobType {
      KeepsMember(Queue(s.queues, jobType), Entry(s.tasks[a.t].jobId, s.tasks[a.t].phase.nextRunAt), e);
    }
  }

  lemma KeepsMember(z: ZSet, update: Entry, e: Entry)
    requires e in z
    ensures Has(UpdateIfPresent(z, update), e.member)
  {
    assert Has(z, e.member);
    assert if update.member == e.member then update in UpdateIfPresent(z, update) else e in UpdateIfPresent(z, update);
  }
}
