/** Any number of outbox pollers at once, each working on the snapshots its own find returned. */
module OutboxPollers {
  import opened Outbox

  datatype Snapshot = Snapshot(event: nat, retryCount: nat)

  // Where a poller stands with the first snapshot of its batch.
  datatype Stage = Publishing | Saving | Recording

  datatype Poller = Idle | Working(todo: seq<Snapshot>, stage: Stage)

  datatype State = State(
    events: seq<OutboxEvent>,
    published: seq<nat>,       // history: successful publishes of each event
    failed: seq<nat>,          // history: attempts of each event that ended in the catch block
    pollers: map<nat, Poller>)

  datatype Saved = Saves | SavesAndThrows | Throws

  datatype Action =
    | Insert(topic: string)
    | Find(p: nat)
    | Publish(p: nat, works: bool)
    | Save(p: nat, saved: Saved)       // updateOne to completed
    | Record(p: nat, works: bool)      // updateOne in the catch block; a throw here ends the flush

  function Snapshots(events: seq<OutboxEvent>, batch: seq<nat>): seq<Snapshot>
    requires forall i :: i in batch ==> i < |events|
  {
    seq(|batch|, n requires 0 <= n < |batch| =>
      assert batch[n] in batch; Snapshot(batch[n], events[batch[n]].retryCount))
  }

  predicate At(s: State, p: nat, stage: Stage) {
    p in s.pollers && s.pollers[p].Working? && s.pollers[p].todo != [] && s.pollers[p].stage == stage
  }

  predicate Enabled(s: State, a: Action) {
    match a
    case Insert(_) => true
    case Find(p) => p !in s.pollers || s.pollers[p].Idle?
    case Publish(p, _) => At(s, p, Publishing)
    case Save(p, _) => At(s, p, Saving)
    case Record(p, _) => At(s, p, Recording)
  }

  function Continue(todo: seq<Snapshot>): Poller {
    if todo == [] then Idle else Working(todo, Publishing)
  }

  function Bump(counts: seq<nat>, i: nat): (r: seq<nat>)
    ensures |r| == |counts|
    ensures forall j :: 0 <= j < |counts| ==> r[j] == counts[j] + if j == i then 1 else 0
  {
    if i < |counts| then counts[i := counts[i] + 1] else counts
  }

  function Update(events: seq<OutboxEvent>, i: nat, e: OutboxEvent): (r: seq<OutboxEvent>)
    ensures |r| == |events|
    ensures forall j :: 0 <= j < |events| ==> r[j] == if j == i then e else events[j]
  {
    if i < |events| then events[i := e] else events
  }

  function Current(s: State, i: nat): OutboxEvent {
    if i < |s.events| then s.events[i] else OutboxEvent("", Dead, MAX_RETRY_COUNT)
  }

  // Updates are by _id alone: they overwrite whatever another poller did since the find.
  function Perform(s: State, a: Action): State
    requires Enabled(s, a)
  {
    match a
    case Insert(topic) =>
      s.(events := s.events + [OutboxEvent(topic, Pending, 0)],
         published := s.published + [0], failed := s.failed + [0])
    case Find(p) =>
      s.(pollers := s.pollers[p := Continue(Snapshots(s.events, Oldest(s.events, |s.events|)))])
    case Publish(p, works) =>
      var x := s.pollers[p];
      if works then
        s.(published := Bump(s.published, x.todo[0].event), pollers := s.pollers[p := x.(stage := Saving)])
      else
        s.(failed := Bump(s.failed, x.todo[0].event), pollers := s.pollers[p := x.(stage := Recording)])
    case Save(p, saved) =>
      var x := s.pollers[p];
      var i := x.todo[0].event;
      var s' := if saved.Throws? then s
                else s.(events := Update(s.events, i, Current(s, i).(status := Completed)));
      if saved.Saves? then s'.(pollers := s.pollers[p := Continue(x.todo[1..])])
      else s'.(failed := Bump(s.failed, i), pollers := s.pollers[p := x.(stage := Recording)])
    case Record(p, works) =>
      var x := s.pollers[p];
      var i := x.todo[0].event;
      if works then
        var retryCount := x.todo[0].retryCount + 1;
        var status := if retryCount >= MAX_RETRY_COUNT then Dead else Pending;
        s.(events := Update(s.events, i, Current(s, i).(status := status, retryCount := retryCount)),
           pollers := s.pollers[p := Continue(x.todo[1..])])
      else s.(pollers := s.pollers[p := Idle])
  }

  const Empty := State([], [], [], map[])

  predicate Possible(s: State, run: seq<Action>)
    decreases |run|
  {
    run == [] || (Enabled(s, run[0]) && Possible(Perform(s, run[0]), run[1..]))
  }

  function AfterRun(s: State, run: seq<Action>): State
    requires Possible(s, run)
    decreases |run|
  {
    if run == [] then s else AfterRun(Perform(s, run[0]), run[1..])
  }

  ghost predicate EventOk(e: OutboxEvent, published: nat, failed: nat) {
    && e.retryCount <= failed
    && (e.status == Completed ==> published >= 1)
    && (e.status == Pending ==> e.retryCount < 5)
    && (e.status == Dead ==> e.retryCount == MAX_RETRY_COUNT)
  }

  ghost predicate SnapshotOk(s: State, x: Snapshot)
    requires |s.failed| == |s.events|
  {
    x.event < |s.events| && x.retryCount < MAX_RETRY_COUNT && x.retryCount <= s.failed[x.event]
  }

  ghost predicate PollerOk(s: State, poller: Poller)
    requires |s.failed| == |s.events| == |s.published|
  {
    poller.Working? ==>
      && poller.todo != []
      && (forall n :: 0 <= n < |poller.todo| ==> SnapshotOk(s, poller.todo[n]))
      && (poller.stage == Saving ==> s.published[poller.todo[0].event] >= 1)
      && (poller.stage == Recording ==> poller.todo[0].retryCount < s.failed[poller.todo[0].event])
  }

  ghost predicate Inv(s: State) {
    && |s.failed| == |s.events| == |s.published|
    && (forall i :: 0 <= i < |s.events| ==> EventOk(s.events[i], s.published[i], s.failed[i]))
    && (forall p :: p in s.pollers ==> PollerOk(s, s.pollers[p]))
  }

  lemma PollerGrows(s: State, s': State, poller: Poller)
    requires |s.failed| == |s.events| == |s.published| && |s'.failed| == |s'.events| == |s'.published|
    requires |s.events| <= |s'.events|
    requires forall i :: 0 <= i < |s.events| ==> s.failed[i] <= s'.failed[i] && s.published[i] <= s'.published[i]
    requires PollerOk(s, poller)
    ensures PollerOk(s', poller)
  {
    if poller.Working? {
      forall n | 0 <= n < |poller.todo| ensures SnapshotOk(s', poller.todo[n]) {
        assert SnapshotOk(s, poller.todo[n]);
      }
    }
  }

  lemma EventsStep(s: State, a: Action)
    requires Inv(s) && Enabled(s, a)
    ensures var s' := Perform(s, a);
      && |s'.failed| == |s'.events| == |s'.published| && |s.events| <= |s'.events|
      && (forall i :: 0 <= i < |s.events| ==> s.failed[i] <= s'.failed[i] && s.published[i] <= s'.published[i])
      && (forall i :: 0 <= i < |s'.events| ==> EventOk(s'.events[i], s'.published[i], s'.failed[i]))
  {
    if !a.Insert? && a.p in s.pollers && s.pollers[a.p].Working? {
      assert SnapshotOk(s, s.pollers[a.p].todo[0]);
    }
  }

  lemma InvStep(s: State, a: Action)
    requires Inv(s) && Enabled(s, a)
    ensures Inv(Perform(s, a))
  {
    var s' := Perform(s, a);
    EventsStep(s, a);
    forall p | p in s'.pollers ensures PollerOk(s', s'.pollers[p]) {
      if !a.Insert? && p == a.p {
        MovedPollerOk(s, a);
      } else {
        assert p in s.pollers && s'.pollers[p] == s.pollers[p];
        PollerGrows(s, s', s.pollers[p]);
      }
    }
  }

  lemma MovedPollerOk(s: State, a: Action)
    requires Inv(s) && Enabled(s, a) && !a.Insert?
    ensures var s' := Perform(s, a); |s'.failed| == |s'.events| == |s'.published| && PollerOk(s', s'.pollers[a.p])
  {
    var s' := Perform(s, a);
    if a.Find? {
      var batch := Oldest(s.events, |s.events|);
      forall n | 0 <= n < |batch| ensures SnapshotOk(s', Snapshots(s.events, batch)[n]) {
        assert batch[n] in batch;
        assert EventOk(s.events[batch[n]], s.published[batch[n]], s.failed[batch[n]]);
      }
    } else {
      var x := s.pollers[a.p];
      forall n | 0 <= n < |x.todo| ensures SnapshotOk(s', x.todo[n]) {
        assert SnapshotOk(s, x.todo[n]);
      }
    }
  }

  lemma {:induction false} InvRun(s: State, run: seq<Action>)
    requires Inv(s) && Possible(s, run)
    ensures Inv(AfterRun(s, run))
    decreases |run|
  {
    if run != [] {
      InvStep(s, run[0]);
      InvRun(Perform(s, run[0]), run[1..]);
    }
  }

  /** Whatever the interleaving of stale pollers: a completed event was published, a waiting one has
      retries left, and a dead one has five failed attempts behind it. */
  lemma OutcomesAreEarned(run: seq<Action>, i: nat)
    requires Possible(Empty, run) && i < |AfterRun(Empty, run).events|
    ensures var s := AfterRun(Empty, run);
      && |s.published| == |s.failed| == |s.events|
      && (s.events[i].status == Completed ==> s.published[i] >= 1)
      && (s.events[i].status == Pending ==> s.events[i].retryCount < 5)
      && (s.events[i].status == Dead ==> s.events[i].retryCount == 5 <= s.failed[i])
  {
    InvRun(Empty, run);
  }

  // One flush of the class is a run of one poller

  predicate Ascending(batch: seq<nat>) {
    forall m, n :: 0 <= m < n < |batch| ==> batch[m] < batch[n]
  }

  lemma Members(batch: seq<nat>, bound: nat)
    requires forall i :: i in batch ==> i < bound
    ensures forall m :: 0 <= m < |batch| ==> batch[m] < bound
  {
    assert forall m :: 0 <= m < |batch| ==> batch[m] in batch;
  }

  lemma {:induction false} OldestAscends(events: seq<OutboxEvent>, n: nat)
    requires n <= |events|
    ensures Ascending(Oldest(events, n))
  {
    if n > 0 {
      OldestAscends(events, n - 1);
      Members(Oldest(events, n - 1), n - 1);
    }
  }

  predicate By(run: seq<Action>, p: nat) {
    forall a :: a in run ==> !a.Insert? && a.p == p
  }

  // Every publish of the run works exactly when the given answer for its event says so.
  predicate Truthful(s: State, run: seq<Action>, published: nat -> bool)
    requires Possible(s, run)
    decreases |run|
  {
    run == [] ||
    (Answers(s, run[0], published) && Truthful(Perform(s, run[0]), run[1..], published))
  }

  lemma Then(s: State, a: Action, rest: seq<Action>) returns (run: seq<Action>)
    requires Enabled(s, a) && Possible(Perform(s, a), rest)
    ensures run == [a] + rest && Possible(s, run) && AfterRun(s, run) == AfterRun(Perform(s, a), rest)
    ensures forall published :: Truthful(Perform(s, a), rest, published) && Answers(s, a, published) ==>
      Truthful(s, run, published)
  {
    run := [a] + rest;
    assert run[1..] == rest;
  }

  predicate Answers(s: State, a: Action, published: nat -> bool)
    requires Enabled(s, a)
  {
    a.Publish? ==> a.works == published(s.pollers[a.p].todo[0].event)
  }

  // The first snapshot of a batch is published, and saved or recorded.
  lemma AttemptFirst(s: State, p: nat, e: OutboxEvent, published: bool) returns (a: Action, b: Action)
    requires At(s, p, Publishing) && s.pollers[p].todo[0].event < |s.events|
    requires s.events[s.pollers[p].todo[0].event] == e && s.pollers[p].todo[0].retryCount == e.retryCount
    ensures Enabled(s, a) && Enabled(Perform(s, a), b) && By([a], p) && By([b], p)
    ensures a == Publish(p, published) && !b.Publish?
    ensures var s', i := Perform(Perform(s, a), b), s.pollers[p].todo[0].event;
      && s'.events == Update(s.events, i, Attempt(e, published))
      && s'.pollers == s.pollers[p := Continue(s.pollers[p].todo[1..])]
  {
    a := Publish(p, published);
    b := if published then Save(p, Saves) else Record(p, true);
  }

  lemma {:induction false} AttemptAll(s: State, p: nat, found: seq<OutboxEvent>, batch: seq<nat>,
                                      published: nat -> bool)
    returns (run: seq<Action>)
    requires |s.events| == |found| && Ascending(batch)
    requires forall i :: i in batch ==> i < |found| && s.events[i] == found[i]
    requires p in s.pollers && s.pollers[p] == Continue(Snapshots(found, batch))
    ensures Possible(s, run) && By(run, p) && Truthful(s, run, published)
    ensures var s' := AfterRun(s, run);
      && s'.pollers == s.pollers[p := Idle] && |s'.events| == |found|
      && forall i :: 0 <= i < |found| ==>
           s'.events[i] == if i in batch then Attempt(found[i], published(i)) else s.events[i]
    decreases |batch|
  {
    if batch == [] {
      run := [];
    } else {
      var i := batch[0];
      assert batch[0] in batch && forall j :: j in batch <==> j == i || j in batch[1..];
      assert forall n :: 0 <= n < |batch[1..]| ==> batch[1..][n] == batch[n + 1];
      var a, b := AttemptFirst(s, p, found[i], published(i));
      assert Snapshots(found, batch)[1..] == Snapshots(found, batch[1..]);
      var rest := AttemptAll(Perform(Perform(s, a), b), p, found, batch[1..], published);
      rest := Then(Perform(s, a), b, rest);
      run := Then(s, a, rest);
    }
  }

  /** One flush whose database writes succeed is a run of this system by its own poller, whose publishes
      work exactly when the flush says they do. */
  lemma FlushIsARun(s: State, p: nat, published: nat -> bool) returns (run: seq<Action>)
    requires Enabled(s, Find(p))
    ensures Possible(s, run) && By(run, p) && Truthful(s, run, published)
    ensures AfterRun(s, run).events == Flushed(s.events, published)
    ensures SentOldest(s.events, AfterRun(s, run).events, published)
    ensures AfterRun(s, run).pollers == s.pollers[p := Idle]
  {
    OldestAscends(s.events, |s.events|);
    run := AttemptAll(Perform(s, Find(p)), p, s.events, Oldest(s.events, |s.events|), published);
    run := Then(s, Find(p), run);
    FlushSendsOldest(s.events, published);
  }
}
