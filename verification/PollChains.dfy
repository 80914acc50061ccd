/** The asynchronous side of the poll loop: chains of ticks, batches settling at any time, and
    start and stop called between them. */
module PollChains {
  import opened Types
  import opened PollLoop

  // One chain of timeouts: waiting for its timer, inside a tick with slots left to grant, or over.
  datatype Chain = Armed | Ticking(unspent: nat) | Over

  datatype State = State(
    running: bool,
    timer: Option<nat>,       // this.timer: the chain that set it last
    chains: seq<Chain>,
    activeJobs: int,
    batches: seq<nat>,        // sizes of dispatched, unsettled batches
    peak: nat)                // history: most chains ever alive at once

  datatype Action =
    | Start
    | Stop
    | Fire(c: nat)            // the timer of chain c runs out and its tick reaches the gate
    | Take(c: nat, n: nat)    // one dequeue of chain c returns n > 0 ids, which are dispatched
    | Finish(c: nat)          // the tick of chain c ends: scheduleNextTick
    | Settle(i: nat)          // batch i settles: the finally handler

  function Sum(sizes: seq<nat>): nat {
    if sizes == [] then 0 else Sum(sizes[..|sizes| - 1]) + sizes[|sizes| - 1]
  }

  function Unspent(chains: seq<Chain>): nat {
    if chains == [] then 0
    else Unspent(chains[..|chains| - 1]) + if chains[|chains| - 1].Ticking? then chains[|chains| - 1].unspent else 0
  }

  function Alive(chains: seq<Chain>): nat {
    if chains == [] then 0
    else Alive(chains[..|chains| - 1]) + if chains[|chains| - 1].Over? then 0 else 1
  }

  predicate SomeTicking(chains: seq<Chain>) {
    exists c :: c in chains && c.Ticking?
  }

  predicate Enabled(s: State, a: Action) {
    match a
    case Start => true
    case Stop => true
    case Fire(c) => c < |s.chains| && s.chains[c].Armed?
    case Take(c, n) => c < |s.chains| && s.chains[c].Ticking? && 0 < n <= s.chains[c].unspent
    case Finish(c) => c < |s.chains| && s.chains[c].Ticking?
    case Settle(i) => i < |s.batches|
  }

  function Perform(s: State, a: Action): State
    requires Enabled(s, a)
  {
    match a
    case Start =>
      if s.running then s
      else
        var chains := s.chains + [Armed];
        s.(running := true, timer := Some(|s.chains|), chains := chains,
           peak := if Alive(chains) > s.peak then Alive(chains) else s.peak)
    case Stop =>
      // clearTimeout does nothing to a timer that has already fired
      var cleared := s.timer.Some? && s.timer.value < |s.chains| && s.chains[s.timer.value].Armed?;
      s.(running := false, timer := None,
         chains := if cleared then s.chains[s.timer.value := Over] else s.chains)
    case Fire(c) => s.(chains := s.chains[c := Ticking(Granted(s.activeJobs))])
    case Take(c, n) =>
      s.(chains := s.chains[c := Ticking(s.chains[c].unspent - n)],
         activeJobs := s.activeJobs + n, batches := s.batches + [n])
    case Finish(c) =>
      if s.running then s.(chains := s.chains[c := Armed], timer := Some(c))
      else s.(chains := s.chains[c := Over])
    case Settle(i) =>
      var remaining := s.activeJobs - s.batches[i];
      s.(activeJobs := if remaining > 0 then remaining else 0, batches := s.batches[..i] + s.batches[i + 1..])
  }

  const Initial := State(false, None, [], 0, [], 0)

  predicate Possible(s: State, run: seq<Action>)
    decreases |run|
  {
    run == [] || (Enabled(s, run[0]) && Possible(Perform(s, run[0]), run[1..]))
  }

  function After(s: State, run: seq<Action>): State
    requires Possible(s, run)
    decreases |run|
  {
    if run == [] then s else After(Perform(s, run[0]), run[1..])
  }

  // Arithmetic of updates

  lemma {:induction false} UpdateCounts(chains: seq<Chain>, c: nat, x: Chain)
    requires c < |chains|
    ensures Unspent(chains[c := x]) == Unspent(chains)
      - (if chains[c].Ticking? then chains[c].unspent else 0) + (if x.Ticking? then x.unspent else 0)
    ensures Alive(chains[c := x]) == Alive(chains) - (if chains[c].Over? then 0 else 1) + (if x.Over? then 0 else 1)
  {
    var n := |chains| - 1;
    if c == n {
      assert chains[c := x][..n] == chains[..n];
    } else {
      UpdateCounts(chains[..n], c, x);
      assert chains[c := x][..n] == chains[..n][c := x];
    }
  }

  lemma {:induction false} SumWithout(sizes: seq<nat>, i: nat)
    requires i < |sizes|
    ensures Sum(sizes[..i] + sizes[i + 1..]) == Sum(sizes) - sizes[i]
  {
    var n := |sizes| - 1;
    if i == n {
      assert sizes[..i] + sizes[i + 1..] == sizes[..n];
    } else {
      SumWithout(sizes[..n], i);
      var rest := sizes[..i] + sizes[i + 1..];
      assert rest[..|rest| - 1] == sizes[..n][..i] + sizes[..n][i + 1..];
    }
  }

  lemma SumAppend(sizes: seq<nat>, n: nat)
    ensures Sum(sizes + [n]) == Sum(sizes) + n
  {
    assert (sizes + [n])[..|sizes|] == sizes;
  }

  lemma {:induction false} UnspentBound(chains: seq<Chain>)
    requires forall c :: 0 <= c < |chains| && chains[c].Ticking? ==> chains[c].unspent <= POLL_BATCH_SIZE
    ensures Unspent(chains) <= POLL_BATCH_SIZE * Alive(chains)
  {
    if chains != [] {
      UnspentBound(chains[..|chains| - 1]);
    }
  }

  // Counting active jobs

  ghost predicate Bounded(s: State) {
    && s.activeJobs == Sum(s.batches)
    && Alive(s.chains) <= s.peak
    && (forall c :: 0 <= c < |s.chains| && s.chains[c].Ticking? ==> s.chains[c].unspent <= POLL_BATCH_SIZE)
    && s.activeJobs + Unspent(s.chains) <= MAX_CONCURRENT_JOBS * s.peak
  }

  lemma BoundedStep(s: State, a: Action)
    requires Bounded(s) && Enabled(s, a)
    ensures Bounded(Perform(s, a)) && Perform(s, a).peak >= s.peak
  {
    match a {
      case Start => StartBounded(s);
      case Stop => StopBounded(s);
      case Fire(c) => FireBounded(s, c);
      case Take(c, n) => TakeBounded(s, c, n);
      case Finish(c) => UpdateCounts(s.chains, c, Perform(s, a).chains[c]);
      case Settle(i) => SumWithout(s.batches, i);
    }
  }

  lemma StartBounded(s: State)
    requires Bounded(s)
    ensures Bounded(Perform(s, Start)) && Perform(s, Start).peak >= s.peak
  {
    assert s.running || (s.chains + [Armed])[..|s.chains|] == s.chains;
  }

  lemma StopBounded(s: State)
    requires Bounded(s)
    ensures Bounded(Perform(s, Stop))
  {
    if s.timer.Some? && s.timer.value < |s.chains| {
      UpdateCounts(s.chains, s.timer.value, Over);
    }
  }

  // A tick may grant what is free now, whatever the other chains still hold.
  lemma FireBounded(s: State, c: nat)
    requires Bounded(s) && Enabled(s, Fire(c))
    ensures Bounded(Perform(s, Fire(c)))
  {
    var granted := Ticking(Granted(s.activeJobs));
    UpdateCounts(s.chains, c, granted);
    UpdateCounts(s.chains, c, Over);
    var others := s.chains[c := Over];
    assert forall d :: 0 <= d < |others| && others[d].Ticking? ==> others[d] == s.chains[d];
    UnspentBound(others);
  }

  lemma TakeBounded(s: State, c: nat, n: nat)
    requires Bounded(s) && Enabled(s, Take(c, n))
    ensures Bounded(Perform(s, Take(c, n)))
  {
    UpdateCounts(s.chains, c, Ticking(s.chains[c].unspent - n));
    SumAppend(s.batches, n);
  }

  /** activeJobs is always the total size of the unsettled batches, and together with the slots that
      ticks in flight may still grant it stays within 100 times the most chains ever alive. */
  lemma {:induction false} ActiveJobsBounded(s: State, run: seq<Action>)
    requires Bounded(s) && Possible(s, run)
    ensures Bounded(After(s, run))
    decreases |run|
  {
    if run != [] {
      BoundedStep(s, run[0]);
      ActiveJobsBounded(Perform(s, run[0]), run[1..]);
    }
  }

  lemma ActiveJobsFromStart(run: seq<Action>)
    requires Possible(Initial, run)
    ensures var s := After(Initial, run);
      && s.activeJobs == Sum(s.batches)
      && s.activeJobs + Unspent(s.chains) <= 100 * s.peak
  {
    ActiveJobsBounded(Initial, run);
  }

  // One chain at a time

  // Every start that takes effect finds no tick in flight.
  predicate CalmRun(s: State, run: seq<Action>)
    requires Possible(s, run)
    decreases |run|
  {
    run == [] ||
    ((run[0].Start? && !s.running ==> !SomeTicking(s.chains)) && CalmRun(Perform(s, run[0]), run[1..]))
  }

  predicate OneChainRun(s: State, run: seq<Action>)
    requires Possible(s, run)
    decreases |run|
  {
    Alive(s.chains) <= 1 && (run == [] || OneChainRun(Perform(s, run[0]), run[1..]))
  }

  // The living chain, if any, is ticking or holds the timer of a running loop.
  ghost predicate Single(s: State) {
    && Alive(s.chains) <= 1
    && (forall c :: 0 <= c < |s.chains| && s.chains[c].Armed? ==> s.running && s.timer == Some(c))
  }

  lemma {:induction false} AliveOne(chains: seq<Chain>, c: nat)
    requires c < |chains| && !chains[c].Over?
    ensures Alive(chains) >= 1
    ensures Alive(chains) == 1 ==> forall d :: 0 <= d < |chains| && d != c ==> chains[d].Over?
  {
    var n := |chains| - 1;
    if c == n {
      AliveNone(chains[..n]);
    } else {
      AliveOne(chains[..n], c);
    }
  }

  lemma {:induction false} AliveNone(chains: seq<Chain>)
    ensures Alive(chains) == 0 <==> forall c :: 0 <= c < |chains| ==> chains[c].Over?
  {
    if chains != [] {
      AliveNone(chains[..|chains| - 1]);
    }
  }

  lemma StartAddsChain(s: State)
    requires !s.running
    ensures Alive(Perform(s, Start).chains) == Alive(s.chains) + 1
  {
    assert (s.chains + [Armed])[..|s.chains|] == s.chains;
  }

  lemma SingleStep(s: State, a: Action)
    requires Single(s) && Enabled(s, a)
    requires a.Start? && !s.running ==> !SomeTicking(s.chains)
    ensures Single(Perform(s, a))
  {
    var s' := Perform(s, a);
    match a {
      case Start =>
        if !s.running {
          StartAddsChain(s);
          AliveNone(s.chains);
          forall c | 0 <= c < |s.chains| ensures s.chains[c].Over? {
            assert s.chains[c] in s.chains;
          }
        }
      case Stop =>
        if s.timer.Some? && s.timer.value < |s.chains| {
          UpdateCounts(s.chains, s.timer.value, Over);
        }
      case Fire(c) => UpdateCounts(s.chains, c, s'.chains[c]);
      case Take(c, n) => UpdateCounts(s.chains, c, s'.chains[c]);
      case Finish(c) =>
        UpdateCounts(s.chains, c, s'.chains[c]);
        AliveOne(s.chains, c);
      case Settle(i) =>
    }
  }

  /** There is never more than one chain exactly when no effective start overlaps a tick in flight. */
  lemma {:induction false} OneChainExactly(s: State, run: seq<Action>)
    requires Single(s) && Possible(s, run)
    ensures CalmRun(s, run) <==> OneChainRun(s, run)
    decreases |run|
  {
    if run != [] {
      if run[0].Start? && !s.running && SomeTicking(s.chains) {
        StartAddsChain(s);
        var c :| 0 <= c < |s.chains| && s.chains[c].Ticking?;
        AliveOne(s.chains, c);
        assert !OneChainRun(Perform(s, run[0]), run[1..]);
      } else {
        SingleStep(s, run[0]);
        OneChainExactly(Perform(s, run[0]), run[1..]);
      }
    }
  }

  lemma {:induction false} PeakOfCalmRun(s: State, run: seq<Action>)
    requires Single(s) && s.peak <= 1 && Possible(s, run) && CalmRun(s, run)
    ensures After(s, run).peak <= 1
    decreases |run|
  {
    if run != [] {
      SingleStep(s, run[0]);
      PeakOfCalmRun(Perform(s, run[0]), run[1..]);
    }
  }

  /** So in a calm run at most 100 jobs are active or about to be dispatched. */
  lemma CalmRunWithinLimit(run: seq<Action>)
    requires Possible(Initial, run) && CalmRun(Initial, run)
    ensures After(Initial, run).activeJobs + Unspent(After(Initial, run).chains) <= 100
  {
    ActiveJobsFromStart(run);
    PeakOfCalmRun(Initial, run);
  }

  /** A stop and a start during one tick leave two chains, and 200 jobs active. */
  lemma RestartDuringTick() returns (run: seq<Action>)
    ensures Possible(Initial, run) && After(Initial, run).activeJobs == 200
  {
    var s1 := Perform(Initial, Start);
    var s2 := Perform(s1, Fire(0));
    var s3 := Perform(s2, Stop);
    var s4 := Perform(s3, Start);
    var s5 := Perform(s4, Fire(1));
    var s6 := Perform(s5, Take(0, 100));
    run := First(s6, Take(1, 100), []);
    run := First(s5, Take(0, 100), run);
    run := First(s4, Fire(1), run);
    run := First(s3, Start, run);
    run := First(s2, Stop, run);
    run := First(s1, Fire(0), run);
    run := First(Initial, Start, run);
  }

  lemma First(s: State, a: Action, rest: seq<Action>) returns (run: seq<Action>)
    requires Enabled(s, a) && Possible(Perform(s, a), rest)
    ensures run == [a] + rest && Possible(s, run) && After(s, run) == After(Perform(s, a), rest)
  {
    run := [a] + rest;
    assert run[1..] == rest;
  }

  // Stopping

  // Every timer that is set is the one `stop` clears.
  predicate OnlyTimer(s: State) {
    forall c :: 0 <= c < |s.chains| && s.chains[c].Armed? ==> s.timer == Some(c)
  }

  predicate NoStart(run: seq<Action>) {
    forall a :: a in run ==> !a.Start?
  }

  predicate NoFire(run: seq<Action>) {
    forall a :: a in run ==> !a.Fire?
  }

  // A loop that is not running and has no timer set starts no tick, though one in flight may dispatch.
  lemma {:induction false} Silent(s: State, run: seq<Action>)
    requires !s.running && (forall c :: 0 <= c < |s.chains| ==> !s.chains[c].Armed?)
    requires Possible(s, run) && NoStart(run)
    ensures NoFire(run)
    decreases |run|
  {
    if run != [] {
      assert run[0] in run && (forall a :: a in run[1..] ==> a in run);
      Silent(Perform(s, run[0]), run[1..]);
      assert forall a :: a in run ==> a == run[0] || a in run[1..];
    }
  }

  /** After `stop` no tick starts before the next `start` exactly when the loop had no timer but its
      own: a second chain of ticks, left by a restart during a tick, is not stopped. */
  lemma StopSilencesExactly(s: State)
    ensures OnlyTimer(s) <==> forall run :: Possible(Perform(s, Stop), run) && NoStart(run) ==> NoFire(run)
  {
    var s' := Perform(s, Stop);
    if OnlyTimer(s) {
      forall run | Possible(s', run) && NoStart(run) ensures NoFire(run) {
        Silent(s', run);
      }
    } else {
      var c :| 0 <= c < |s.chains| && s.chains[c].Armed? && s.timer != Some(c);
      var run := [Fire(c)];
      assert Possible(s', run) by {
        assert run[1..] == [];
      }
      assert run[0] in run && NoStart(run) && !NoFire(run);
    }
  }

  /** A restart during a tick leads there: the second chain sets its timer, then the first one ends
      its tick and remembers its own.  A stop clears only that one, and the other still starts a tick. */
  lemma RestartEscapesStop() returns (run: seq<Action>)
    ensures Possible(Initial, run) && !OnlyTimer(After(Initial, run))
    ensures Enabled(Perform(After(Initial, run), Stop), Fire(1))
  {
    var s1 := Perform(Initial, Start);
    var s2 := Perform(s1, Fire(0));
    var s3 := Perform(s2, Stop);
    var s4 := Perform(s3, Start);
    var s5 := Perform(s4, Finish(0));
    assert s5.chains[1].Armed? && s5.timer == Some(0);
    run := First(s4, Finish(0), []);
    run := First(s3, Start, run);
    run := First(s2, Stop, run);
    run := First(s1, Fire(0), run);
    run := First(Initial, Start, run);
  }

  // One tick of the class is a run of one chain

  function Sizes(batches: seq<Batch>): (r: seq<nat>)
    ensures |r| == |batches| && forall i :: 0 <= i < |r| ==> r[i] == |batches[i].ids|
  {
    seq(|batches|, i requires 0 <= i < |batches| => |batches[i].ids|)
  }

  ghost predicate Mirrors(s: State, activeJobs: int, inFlight: seq<Batch>) {
    s.activeJobs == activeJobs && s.batches == Sizes(inFlight)
  }

  // The tick of chain c, from its timer to the next one.
  ghost predicate TickOf(c: nat, s: State, takes: seq<Action>, s': State) {
    && Enabled(s, Fire(c))
    && Possible(Perform(s, Fire(c)), takes)
    && (forall a :: a in takes ==> a.Take? && a.c == c)
    && Enabled(After(Perform(s, Fire(c)), takes), Finish(c))
    && s' == Perform(After(Perform(s, Fire(c)), takes), Finish(c))
  }

  lemma {:induction false} TakeAll(s: State, c: nat, sizes: seq<nat>) returns (takes: seq<Action>)
    requires c < |s.chains| && s.chains[c].Ticking? && (forall i :: 0 <= i < |sizes| ==> sizes[i] > 0)
    requires Sum(sizes) <= s.chains[c].unspent
    ensures Possible(s, takes) && forall a :: a in takes ==> a.Take? && a.c == c
    ensures var s' := After(s, takes);
      && Enabled(s', Finish(c))
      && s'.batches == s.batches + sizes && s'.activeJobs == s.activeJobs + Sum(sizes)
    decreases |sizes|
  {
    if sizes == [] {
      takes := [];
    } else {
      SumHead(sizes);
      var a := Take(c, sizes[0]);
      var rest := TakeAll(Perform(s, a), c, sizes[1..]);
      takes := First(s, a, rest);
      assert (s.batches + [sizes[0]]) + sizes[1..] == s.batches + sizes;
    }
  }

  lemma {:induction false} SumHead(sizes: seq<nat>)
    requires sizes != []
    ensures Sum(sizes) == sizes[0] + Sum(sizes[1..])
  {
    var n := |sizes| - 1;
    if n > 0 {
      SumHead(sizes[..n]);
      assert sizes[1..][..n - 1] == sizes[..n][1..];
    }
  }

  lemma {:induction false} TotalIsSum(batches: seq<Batch>)
    ensures Total(batches) == Sum(Sizes(batches))
  {
    if batches != [] {
      TotalIsSum(batches[1..]);
      SumHead(Sizes(batches));
      assert Sizes(batches)[1..] == Sizes(batches[1..]);
    }
  }

  lemma TickIsARun(s: State, c: nat, sizes: seq<nat>) returns (takes: seq<Action>, s': State)
    requires Enabled(s, Fire(c)) && Sum(sizes) <= Granted(s.activeJobs)
    requires forall i :: 0 <= i < |sizes| ==> sizes[i] > 0
    ensures TickOf(c, s, takes, s')
    ensures s'.batches == s.batches + sizes && s'.activeJobs == s.activeJobs + Sum(sizes)
  {
    var s1 := Perform(s, Fire(c));
    takes := TakeAll(s1, c, sizes);
    s' := Perform(After(s1, takes), Finish(c));
  }

  /** A tick of the class is a tick of a chain: its grants are dequeues that chain may make. */
  method TickInChain(loop: PollLoop, now: Option<int>, broken: set<JobType>, ghost s: State, ghost c: nat)
    returns (dispatched: seq<Batch>, ghost takes: seq<Action>, ghost s': State)
    requires loop.Valid() && Mirrors(s, loop.activeJobs, loop.inFlight) && Enabled(s, Fire(c))
    modifies loop`activeJobs, loop`inFlight, loop.queue
    ensures loop.Valid() && Mirrors(s', loop.activeJobs, loop.inFlight)
    ensures loop.inFlight == old(loop.inFlight) + dispatched
    ensures TickOf(c, s, takes, s')
  {
    dispatched := loop.Tick(now, broken);
    TotalIsSum(dispatched);
    TotalGrows(old(loop.inFlight), dispatched);
    takes, s' := TickIsARun(s, c, Sizes(dispatched));
  }

  lemma TotalGrows(inFlight: seq<Batch>, dispatched: seq<Batch>)
    ensures Total(inFlight + dispatched) == Total(inFlight) + Total(dispatched)
    ensures Sizes(inFlight + dispatched) == Sizes(inFlight) + Sizes(dispatched)
  {
    FlattenAppend(inFlight, dispatched);
  }
}
