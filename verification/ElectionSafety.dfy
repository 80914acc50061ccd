/** At most one leader, with every lock command and its answer as separate steps, and `stop` called
    at any time. */
module ElectionSafety {
  import opened Types
  import opened Election

  type Id = nat

  // Where the watch chain of an instance waits.
  datatype Watch =
    | Sleeping                               // no tick in flight
    | Extending(token: nat)                  // extend sent
    | Extended(token: nat, ok: bool)         // its answer not yet processed
    | Reading                                // heartbeat read
    | Acquiring(token: nat)                  // acquire sent
    | Acquired(token: nat, ok: bool)         // its answer not yet processed

  datatype Inst = Inst(
    state: LeaderState,
    lock: Option<nat>,
    watch: Watch,
    armed: bool,               // the watch timer is set
    releasing: set<nat>,       // release commands sent and not yet answered
    grant: Option<nat>,        // history: token of the last acquire that was granted and answered
    leaseEnd: int)             // history: end of the lease from the last acquire or extend that landed for it

  datatype State = State(
    now: int,
    lease: Option<Lease>,
    insts: map<Id, Inst>,
    owner: map<nat, Id>)       // history: who drew each token; tokens are random and never repeat

  datatype Action =
    | Advance(now: int)
    | Join(i: Id)
    // watchTick as leader
    | SendExtend(i: Id)
    | ExtendLands(i: Id, answered: bool)
    | ExtendFails(i: Id)
    | AfterExtend(i: Id)
    // watchTick as follower
    | ReadBeat(i: Id)
    | NotStale(i: Id)
    | SendAcquire(i: Id, token: nat)
    | AcquireLands(i: Id, answered: bool)
    | AcquireFails(i: Id)
    | AfterAcquire(i: Id)
    // a heartbeat read or write throws: the tick ends without setting the timer
    | BeatFails(i: Id)
    // stop and demote
    | Stop(i: Id)
    | ReleaseLands(i: Id, token: nat)
    | AfterRelease(i: Id, token: nat)

  predicate MayTick(x: Inst) {
    x.watch.Sleeping? && x.armed
  }

  predicate Enabled(s: State, a: Action) {
    match a
    case Advance(now) => s.now <= now
    case Join(i) => i !in s.insts
    case SendExtend(i) => i in s.insts && MayTick(s.insts[i]) && s.insts[i].state == Leader
    case ExtendLands(i, _) => i in s.insts && s.insts[i].watch.Extending?
    case ExtendFails(i) => i in s.insts && s.insts[i].watch.Extending?
    case AfterExtend(i) => i in s.insts && s.insts[i].watch.Extended?
    case ReadBeat(i) => i in s.insts && MayTick(s.insts[i]) && s.insts[i].state != Leader
    case NotStale(i) => i in s.insts && s.insts[i].watch.Reading?
    case SendAcquire(i, token) => i in s.insts && s.insts[i].watch.Reading? && token !in s.owner
    case AcquireLands(i, _) => i in s.insts && s.insts[i].watch.Acquiring?
    case AcquireFails(i) => i in s.insts && s.insts[i].watch.Acquiring?
    case AfterAcquire(i) => i in s.insts && s.insts[i].watch.Acquired?
    case BeatFails(i) => i in s.insts && s.insts[i].watch.Sleeping?
    case Stop(i) => i in s.insts
    case ReleaseLands(i, token) => i in s.insts && token in s.insts[i].releasing
    case AfterRelease(i, token) => i in s.insts && token in s.insts[i].releasing
  }

  function Put(s: State, i: Id, x: Inst): State {
    s.(insts := s.insts[i := x])
  }

  function Perform(s: State, a: Action): State
    requires Enabled(s, a)
  {
    match a
    case Advance(now) => s.(now := now)
    case Join(i) => Put(s, i, Inst(Follower, None, Sleeping, true, {}, None, s.now))

    case SendExtend(i) =>
      var x := s.insts[i];
      // without a lock handle, extend answers false at once, the instance demotes itself and goes on watching
      if x.lock.None? then Put(s, i, x.(state := Follower))
      else Put(s, i, x.(watch := Extending(x.lock.value), armed := false))
    case ExtendLands(i, answered) =>
      var x := s.insts[i];
      var ok := HeldBy(s.lease, x.watch.token, s.now);
      var s' := s.(lease := ExtendLock(s.lease, x.watch.token, s.now));
      Put(s', i, x.(watch := Extended(x.watch.token, ok && answered),
                    leaseEnd := if ok && x.grant == Some(x.watch.token) then s.now + LEADER_LOCK_TTL_MS
                                else x.leaseEnd))
    case ExtendFails(i) =>
      var x := s.insts[i];
      Put(s, i, x.(watch := Extended(x.watch.token, false)))
    case AfterExtend(i) =>
      var x := s.insts[i];
      if x.watch.ok then Put(s, i, x.(lock := Some(x.watch.token), watch := Sleeping, armed := true))
      else Put(s, i, x.(lock := None, state := Follower, watch := Sleeping, armed := true))

    case ReadBeat(i) => Put(s, i, s.insts[i].(watch := Reading, armed := false))
    case NotStale(i) => Put(s, i, s.insts[i].(watch := Sleeping, armed := true))
    case SendAcquire(i, token) =>
      Put(s.(owner := s.owner[token := i]), i, s.insts[i].(state := Candidate, watch := Acquiring(token)))
    case AcquireLands(i, answered) =>
      var x := s.insts[i];
      var ok := !Held(s.lease, s.now) && answered;
      var s' := s.(lease := AcquireLock(s.lease, x.watch.token, s.now));
      if ok then
        Put(s', i, x.(watch := Acquired(x.watch.token, true), grant := Some(x.watch.token),
                      leaseEnd := s.now + LEADER_LOCK_TTL_MS))
      else Put(s', i, x.(watch := Acquired(x.watch.token, false)))
    case AcquireFails(i) =>
      var x := s.insts[i];
      Put(s, i, x.(watch := Acquired(x.watch.token, false)))
    case AfterAcquire(i) =>
      var x := s.insts[i];
      if x.watch.ok then Put(s, i, x.(lock := Some(x.watch.token), state := Leader, watch := Sleeping, armed := true))
      else Put(s, i, x.(state := Follower, watch := Sleeping, armed := true))

    case BeatFails(i) => Put(s, i, s.insts[i].(armed := false))

    case Stop(i) =>
      var x := s.insts[i];
      // the timer goes, a tick in flight does not; a leader is first follower, then releases
      if x.state != Leader then Put(s, i, x.(armed := false))
      else Put(s, i, x.(armed := false, state := Follower,
                        releasing := x.releasing + if x.lock.Some? then {x.lock.value} else {}))
    case ReleaseLands(i, token) => s.(lease := ReleaseLock(s.lease, token, s.now))
    case AfterRelease(i, token) =>
      var x := s.insts[i];
      Put(s, i, x.(lock := None, releasing := x.releasing - {token}))
  }

  ghost predicate Initial(s: State) {
    s.lease == None && s.insts == map[] && s.owner == map[]
  }

  predicate Possible(s: State, run: seq<Action>)
    decreases |run|
  {
    run == [] || (Enabled(s, run[0]) && Possible(Perform(s, run[0]), run[1..]))
  }

  function After(s: State, run: seq<Action>): State
    requires Possible(s, run)
    decreases |run|
  {
    if run == [] then s else After(Perform(s, run[0]), run[1..])
  }

  // An instance that leads, or has been granted the lock and is about to.
  predicate Leading(x: Inst) {
    x.state == Leader || (x.watch.Acquired? && x.watch.ok)
  }

  // The lease from its last acquire or extend has not ended.
  predicate InTime(s: State, x: Inst) {
    s.now < x.leaseEnd
  }

  // Every leader is still within its lease.
  predicate Prompt(s: State) {
    forall i :: i in s.insts && s.insts[i].state == Leader ==> InTime(s, s.insts[i])
  }

  predicate AtMostOneLeader(s: State) {
    forall i, j :: i in s.insts && j in s.insts && s.insts[i].state == Leader && s.insts[j].state == Leader ==> i == j
  }

  // Tokens an instance has to do with.
  function Tokens(x: Inst): set<nat> {
    x.releasing
    + (if x.lock.Some? then {x.lock.value} else {})
    + (if x.grant.Some? then {x.grant.value} else {})
    + (match x.watch
       case Extending(token) => {token}
       case Extended(token, _) => {token}
       case Acquiring(token) => {token}
       case Acquired(token, _) => {token}
       case _ => {})
  }

  ghost predicate OwnsTokens(s: State, i: Id, x: Inst) {
    forall token :: token in Tokens(x) ==> token in s.owner && s.owner[token] == i
  }

  ghost predicate InstOk(s: State, i: Id, x: Inst) {
    && OwnsTokens(s, i, x)
    && (Leading(x) ==> x.grant.Some? && x.grant.value !in x.releasing)
    && (Leading(x) && InTime(s, x) ==> s.lease == Some(Lease(x.grant.value, x.leaseEnd)))
    && (x.watch.Acquired? && x.watch.ok ==> x.grant == Some(x.watch.token))
    && (x.watch.Acquiring? || x.watch.Acquired? ==>
          x.state == Candidate && x.watch.token !in x.releasing && x.lock != Some(x.watch.token))
  }

  ghost predicate Inv(s: State) {
    forall i :: i in s.insts ==> InstOk(s, i, s.insts[i])
  }

  // The instance an action belongs to.
  predicate Moves(a: Action, i: Id) {
    match a
    case Advance(_) => false
    case _ => a.i == i
  }

  lemma OthersKeep(s: State, a: Action, j: Id)
    requires Inv(s) && Enabled(s, a) && j in s.insts && !Moves(a, j)
    ensures j in Perform(s, a).insts && InstOk(Perform(s, a), j, Perform(s, a).insts[j])
  {
    var x := s.insts[j];
    assert InstOk(s, j, x);
    assert Perform(s, a).insts[j] == x;
    if !a.Advance? && a.i in s.insts {
      assert InstOk(s, a.i, s.insts[a.i]);
    }
    if Leading(x) && InTime(s, x) {
      LeaseStays(s, a, j);
    }
  }

  // Nobody but its holder touches the lease of a leader that is in time.
  lemma LeaseStays(s: State, a: Action, j: Id)
    requires Inv(s) && Enabled(s, a) && j in s.insts && !Moves(a, j)
    requires Leading(s.insts[j]) && InTime(s, s.insts[j])
    ensures Perform(s, a).lease == s.lease
  {
    assert InstOk(s, j, s.insts[j]);
    assert Held(s.lease, s.now) && s.insts[j].grant.value in Tokens(s.insts[j]);
    if a.ExtendLands? || a.AcquireLands? {
      assert InstOk(s, a.i, s.insts[a.i]) && s.insts[a.i].watch.token in Tokens(s.insts[a.i]);
    } else if a.ReleaseLands? {
      assert InstOk(s, a.i, s.insts[a.i]) && a.token in Tokens(s.insts[a.i]);
    }
  }

  lemma MoverOwns(s: State, a: Action)
    requires Inv(s) && Enabled(s, a) && !a.Advance?
    ensures a.i in Perform(s, a).insts && OwnsTokens(Perform(s, a), a.i, Perform(s, a).insts[a.i])
  {
    var x' := Perform(s, a).insts[a.i];
    if a.i in s.insts {
      var x := s.insts[a.i];
      assert InstOk(s, a.i, x);
      assert Tokens(x') <= Tokens(x) + if a.SendAcquire? then {a.token} else {};
    } else {
      assert Tokens(x') == {};
    }
  }

  lemma MoverKeeps(s: State, a: Action)
    requires Inv(s) && Enabled(s, a) && !a.Advance?
    ensures a.i in Perform(s, a).insts && InstOk(Perform(s, a), a.i, Perform(s, a).insts[a.i])
  {
    MoverOwns(s, a);
    if a.i in s.insts {
      var x := s.insts[a.i];
      assert InstOk(s, a.i, x);
      if a.SendAcquire? {
        assert a.token !in Tokens(x);
      }
    }
  }

  lemma InvStep(s: State, a: Action)
    requires Inv(s) && Enabled(s, a)
    ensures Inv(Perform(s, a))
  {
    var s' := Perform(s, a);
    forall j | j in s'.insts ensures InstOk(s', j, s'.insts[j]) {
      if Moves(a, j) {
        MoverKeeps(s, a);
      } else {
        OthersKeep(s, a, j);
      }
    }
  }

  lemma {:induction false} InvRun(s: State, run: seq<Action>)
    requires Inv(s) && Possible(s, run)
    ensures Inv(After(s, run))
    decreases |run|
  {
    if run != [] {
      InvStep(s, run[0]);
      InvRun(Perform(s, run[0]), run[1..]);
    }
  }

  /** With no assumption at all: of any two leaders at least one has outlived its lease. */
  lemma OneOfTwoIsLate(s: State, run: seq<Action>, i: Id, j: Id)
    requires Initial(s) && Possible(s, run)
    requires var s' := After(s, run);
      i in s'.insts && j in s'.insts && s'.insts[i].state == Leader && s'.insts[j].state == Leader && i != j
    ensures var s' := After(s, run);
      s'.now >= s'.insts[i].leaseEnd || s'.now >= s'.insts[j].leaseEnd
  {
    InvRun(s, run);
    var s' := After(s, run);
    assert InstOk(s', i, s'.insts[i]) && InstOk(s', j, s'.insts[j]);
    if s'.lease.Some? {
      assert s'.insts[i].grant.value in Tokens(s'.insts[i]) && s'.insts[j].grant.value in Tokens(s'.insts[j]);
    }
  }

  /** So no two of any number of instances lead at a moment when every leader is within its lease,
      whatever happened before. */
  lemma MutualExclusion(s: State, run: seq<Action>)
    requires Initial(s) && Possible(s, run) && Prompt(After(s, run))
    ensures AtMostOneLeader(After(s, run))
  {
    var s' := After(s, run);
    forall i, j | i in s'.insts && j in s'.insts && s'.insts[i].state == Leader && s'.insts[j].state == Leader
      ensures i == j
    {
      if i != j {
        OneOfTwoIsLate(s, run, i, j);
      }
    }
  }

  ghost predicate Reachable(s: State) {
    exists s0, run :: Reaches(s0, run, s)
  }

  ghost predicate Reaches(s0: State, run: seq<Action>, s: State) {
    Initial(s0) && Possible(s0, run) && After(s0, run) == s
  }

  lemma {:induction false} Append(s: State, run: seq<Action>, a: Action)
    requires Possible(s, run) && Enabled(After(s, run), a)
    ensures Possible(s, run + [a]) && After(s, run + [a]) == Perform(After(s, run), a)
    decreases |run|
  {
    if run == [] {
      assert (run + [a])[1..] == [];
    } else {
      assert (run + [a])[1..] == run[1..] + [a];
      Append(Perform(s, run[0]), run[1..], a);
    }
  }

  // A property of states that every action preserves.
  ghost predicate Preserved(p: State -> bool) {
    forall s, a :: p(s) && Enabled(s, a) ==> p(Perform(s, a))
  }

  lemma ReachableIsPreserved()
    ensures Preserved(s => Reachable(s))
  {
    forall s, a | Reachable(s) && Enabled(s, a) ensures Reachable(Perform(s, a)) {
      var s0, run :| Reaches(s0, run, s);
      Append(s0, run, a);
      assert Reaches(s0, run + [a], Perform(s, a));
    }
  }

  const START := State(0, None, map[], map[])

  /** The assumption is needed: a leader that sleeps through its lease is joined by a second one. */
  lemma LateLeaderIsJoined() returns (s: State)
    ensures Reachable(s) && !AtMostOneLeader(s)
  {
    ReachableIsPreserved();
    assert Reaches(START, [], START);
    s := SleepsThroughLease(x => Reachable(x));
  }

  lemma SleepsThroughLease(p: State -> bool) returns (s: State)
    requires Preserved(p) && p(START)
    ensures p(s) && !AtMostOneLeader(s)
  {
    var s1 := Leads(p, START, 0, 0);
    var s2 := Perform(s1, Advance(30_001));
    s := Leads(p, s2, 1, 1);
    assert s.insts[0].state == Leader && s.insts[1].state == Leader;
  }

  // An instance that joins while the lock is free becomes leader.
  lemma Leads(p: State -> bool, s: State, i: Id, token: nat) returns (s': State)
    requires Preserved(p) && p(s) && i !in s.insts && token !in s.owner && !Held(s.lease, s.now)
    ensures p(s')
    ensures s'.now == s.now && s'.lease == Some(Lease(token, s.now + LEADER_LOCK_TTL_MS))
    ensures i in s'.insts && s'.insts[i].state == Leader && s'.owner == s.owner[token := i]
    ensures s'.insts.Keys == s.insts.Keys + {i} && forall j :: j in s.insts ==> s'.insts[j] == s.insts[j]
  {
    s' := Perform(s, Join(i));
    s' := Perform(s', ReadBeat(i));
    s' := Perform(s', SendAcquire(i, token));
    s' := Perform(s', AcquireLands(i, true));
    s' := Perform(s', AfterAcquire(i));
  }

  // Stopping

  // The actions with which a watch tick starts.
  predicate Starts(a: Action, i: Id) {
    (a.SendExtend? || a.ReadBeat?) && a.i == i
  }

  predicate NoTick(run: seq<Action>, i: Id) {
    forall a :: a in run ==> !Starts(a, i)
  }

  // No tick in flight, no timer, and not leader.
  predicate Quiet(s: State, i: Id) {
    i in s.insts && s.insts[i].watch.Sleeping? && !s.insts[i].armed && s.insts[i].state != Leader
  }

  lemma QuietStep(s: State, a: Action, i: Id)
    requires Quiet(s, i) && Enabled(s, a)
    ensures Quiet(Perform(s, a), i) && !Starts(a, i)
  {
  }

  lemma {:induction false} QuietRun(s: State, run: seq<Action>, i: Id)
    requires Quiet(s, i) && Possible(s, run)
    ensures Quiet(After(s, run), i) && NoTick(run, i)
    decreases |run|
  {
    if run != [] {
      QuietStep(s, run[0], i);
      QuietRun(Perform(s, run[0]), run[1..], i);
      assert forall a :: a in run ==> a == run[0] || a in run[1..];
    }
  }

  // What may follow: a run in which the instance starts a tick, and one at whose end it leads.
  ghost predicate Ticks(s: State, i: Id) {
    exists run :: Possible(s, run) && !NoTick(run, i)
  }

  ghost predicate Reigns(s: State, run: seq<Action>, i: Id) {
    Possible(s, run) && i in After(s, run).insts && After(s, run).insts[i].state == Leader
  }

  ghost predicate MayLead(s: State, i: Id) {
    exists run :: Reigns(s, run, i)
  }

  lemma First(s: State, a: Action, rest: seq<Action>) returns (run: seq<Action>)
    requires Enabled(s, a) && Possible(Perform(s, a), rest)
    ensures run == [a] + rest && Possible(s, run) && After(s, run) == After(Perform(s, a), rest)
  {
    run := [a] + rest;
    assert run[1..] == rest;
  }

  lemma ByWayOf(s: State, a: Action, i: Id)
    requires Enabled(s, a)
    ensures Starts(a, i) || Ticks(Perform(s, a), i) ==> Ticks(s, i)
    ensures MayLead(Perform(s, a), i) ==> MayLead(s, i)
  {
    var s' := Perform(s, a);
    if Starts(a, i) {
      var run := First(s, a, []);
      assert a in run && !NoTick(run, i);
    } else if Ticks(s', i) {
      var rest :| Possible(s', rest) && !NoTick(rest, i);
      var run := First(s, a, rest);
      var b :| b in rest && Starts(b, i);
      assert b in run && !NoTick(run, i);
    }
    if MayLead(s', i) {
      var rest :| Reigns(s', rest, i);
      var run := First(s, a, rest);
      assert Reigns(s, run, i);
    }
  }

  lemma FromAcquired(s: State, i: Id)
    requires i in s.insts && s.insts[i].watch.Acquired? && s.insts[i].watch.ok
    ensures MayLead(s, i)
  {
    var run := First(s, AfterAcquire(i), []);
    assert Reigns(s, run, i);
  }

  // Once the lease has run out, an instance that reads the heartbeat goes on to lead.
  lemma FromReading(s: State, i: Id)
    requires i in s.insts && s.insts[i].watch.Reading?
    ensures MayLead(s, i)
  {
    var later := if s.lease.Some? && s.now < s.lease.value.expiry then s.lease.value.expiry else s.now;
    var s1 := Perform(s, Advance(later));
    var token := Above(s1.owner.Keys);
    var s2 := Perform(s1, SendAcquire(i, token));
    var s3 := Perform(s2, AcquireLands(i, true));
    FromAcquired(s3, i);
    ByWayOf(s2, AcquireLands(i, true), i);
    ByWayOf(s1, SendAcquire(i, token), i);
    ByWayOf(s, Advance(later), i);
  }

  lemma FromArmed(s: State, i: Id)
    requires i in s.insts && MayTick(s.insts[i]) && s.insts[i].state != Leader
    ensures Ticks(s, i) && MayLead(s, i)
  {
    FromReading(Perform(s, ReadBeat(i)), i);
    ByWayOf(s, ReadBeat(i), i);
  }

  // A tick that has its answer sets the timer.
  lemma FromAnswered(s: State, i: Id)
    requires i in s.insts && s.insts[i].state != Leader
    requires
      || s.insts[i].watch.Extended? || s.insts[i].watch.Reading?
      || (s.insts[i].watch.Acquired? && !s.insts[i].watch.ok)
    ensures Ticks(s, i) && MayLead(s, i)
  {
    var a := match s.insts[i].watch
      case Extended(_, _) => AfterExtend(i)
      case Reading => NotStale(i)
      case _ => AfterAcquire(i);
    FromArmed(Perform(s, a), i);
    ByWayOf(s, a, i);
  }

  lemma FromPromoted(s: State, i: Id)
    requires i in s.insts && s.insts[i].watch.Acquired? && s.insts[i].watch.ok
    ensures Ticks(s, i) && MayLead(s, i)
  {
    FromAcquired(s, i);
    var s1 := Perform(s, AfterAcquire(i));
    ByWayOf(s1, SendExtend(i), i);
    ByWayOf(s, AfterAcquire(i), i);
  }

  lemma FromInFlight(s: State, i: Id)
    requires i in s.insts && s.insts[i].state != Leader && !s.insts[i].watch.Sleeping?
    ensures Ticks(s, i) && MayLead(s, i)
  {
    match s.insts[i].watch {
      case Extending(_) =>
        FromAnswered(Perform(s, ExtendFails(i)), i);
        ByWayOf(s, ExtendFails(i), i);
      case Acquiring(_) =>
        FromAnswered(Perform(s, AcquireFails(i)), i);
        ByWayOf(s, AcquireFails(i), i);
      case Acquired(_, ok) =>
        if ok {
          FromPromoted(s, i);
        } else {
          FromAnswered(s, i);
        }
      case _ => FromAnswered(s, i);
    }
  }

  /** After `stop` the instance starts no watch tick and never leads, in any run, exactly when no watch
      tick was in flight: such a tick sets the timer again, and may be about to lead. */
  lemma StopIsFinalExactly(s: State, i: Id)
    requires i in s.insts
    ensures var s' := Perform(s, Stop(i));
      && (s.insts[i].watch.Sleeping? <==> !Ticks(s', i))
      && (s.insts[i].watch.Sleeping? <==> !MayLead(s', i))
  {
    var s' := Perform(s, Stop(i));
    if s.insts[i].watch.Sleeping? {
      forall run | Possible(s', run) ensures NoTick(run, i) && !Reigns(s', run, i) {
        QuietRun(s', run, i);
      }
    } else {
      FromInFlight(s', i);
    }
  }

  // A first instance that has sent its acquire to an empty Redis.
  const CANDIDATE := Inst(Candidate, None, Acquiring(0), false, {}, None, 0)

  lemma CandidateReached() returns (s: State)
    ensures Reachable(s) && s == State(0, None, map[0 := CANDIDATE], map[0 := 0])
  {
    assert Reaches(START, [], START);
    s := ReachableByStep(START, Join(0));
    assert s.insts == map[0 := Inst(Follower, None, Sleeping, true, {}, None, 0)];
    s := ReachableByStep(s, ReadBeat(0));
    assert s.insts == map[0 := Inst(Follower, None, Reading, false, {}, None, 0)];
    s := ReachableByStep(s, SendAcquire(0, 0));
  }

  /** Reached: a candidate is stopped, its acquire lands and is answered, and it leads. */
  lemma StoppedCandidateLeads() returns (s: State, s': State)
    ensures Reachable(s) && 0 in s.insts && s.insts[0].state == Candidate
    ensures s' == Perform(s, Stop(0)) && Reachable(s') && Enabled(s', AcquireLands(0, true))
    ensures var s1 := Perform(s', AcquireLands(0, true));
      Enabled(s1, AfterAcquire(0)) && Perform(s1, AfterAcquire(0)).insts[0].state == Leader
  {
    s := CandidateReached();
    s' := ReachableByStep(s, Stop(0));
  }

  lemma ReachableByStep(s: State, a: Action) returns (s': State)
    requires Reachable(s) && Enabled(s, a)
    ensures s' == Perform(s, a) && Reachable(s')
  {
    ReachableIsPreserved();
    s' := Perform(s, a);
    assert (x => Reachable(x))(s);
  }

  // One tick of the service is a run of this system

  // What the service remembers of an instance whose watch chain sleeps or has ended, and the lock it sees.
  ghost predicate Mirrors(s: State, i: Id, m: Member, store: Store, again: bool) {
    i in s.insts && s.insts[i].state == m.state && s.insts[i].lock == m.lock
    && s.lease == store.lease && s.insts[i].watch.Sleeping? && s.insts[i].armed == again
  }

  ghost predicate OwnRun(s: State, i: Id, run: seq<Action>, s': State) {
    Possible(s, run) && After(s, run) == s' && forall a :: a in run ==> Moves(a, i)
  }

  ghost predicate Led(s: State, i: Id, s': State) {
    exists run :: OwnRun(s, i, run, s')
  }

  lemma LedStep(s: State, i: Id, s': State, a: Action) returns (s'': State)
    requires Led(s, i, s') && Enabled(s', a) && Moves(a, i)
    ensures s'' == Perform(s', a) && Led(s, i, s'')
  {
    var run :| OwnRun(s, i, run, s');
    Append(s, run, a);
    s'' := Perform(s', a);
    assert OwnRun(s, i, run + [a], s'');
  }

  // Unless a heartbeat command throws, the tick ends with the timer set.
  lemma BeatSent(s: State, i: Id, s': State, again: bool) returns (s'': State)
    requires Led(s, i, s') && i in s'.insts && s'.insts[i].watch.Sleeping? && s'.insts[i].armed
    ensures Led(s, i, s'') && s'' == Put(s', i, s'.insts[i].(armed := again))
  {
    if again {
      s'' := s';
      assert Put(s', i, s'.insts[i].(armed := again)) == s' by {
        assert s'.insts[i := s'.insts[i]] == s'.insts;
      }
    } else {
      s'' := LedStep(s, i, s', BeatFails(i));
    }
  }

  lemma LeaderTickIsARun(s: State, i: Id, m: Member, store: Store, token: nat, calls: Calls) returns (s': State)
    requires Mirrors(s, i, m, store, true) && m.state == Leader
    ensures var x := Election.Watch(m, store, s.now, token, calls);
      Led(s, i, s') && Mirrors(s', i, x.member, x.store, x.again)
  {
    assert OwnRun(s, i, [], s);
    s' := LedStep(s, i, s, SendExtend(i));
    if m.lock.Some? {
      s' := LedStep(s, i, s', if calls.lock.Throws? then ExtendFails(i) else ExtendLands(i, calls.lock.Answers?));
      s' := LedStep(s, i, s', AfterExtend(i));
    }
    s' := BeatSent(s, i, s', Election.Watch(m, store, s.now, token, calls).again);
  }

  lemma FollowerTickIsARun(s: State, i: Id, m: Member, store: Store, token: nat, calls: Calls) returns (s': State)
    requires Mirrors(s, i, m, store, true) && m.state == Follower && token !in s.owner
    ensures var x := Election.Watch(m, store, s.now, token, calls);
      Led(s, i, s') && Mirrors(s', i, x.member, x.store, x.again)
  {
    assert OwnRun(s, i, [], s);
    s' := s;
    if !calls.readFails {
      s' := LedStep(s, i, s', ReadBeat(i));
      if Stale(store, s.now) {
        s' := LedStep(s, i, s', SendAcquire(i, token));
        s' := LedStep(s, i, s', if calls.lock.Throws? then AcquireFails(i) else AcquireLands(i, calls.lock.Answers?));
        s' := LedStep(s, i, s', AfterAcquire(i));
      } else {
        s' := LedStep(s, i, s', NotStale(i));
      }
    }
    s' := BeatSent(s, i, s', Election.Watch(m, store, s.now, token, calls).again);
  }

  /** One watch tick of the service, however its commands end, is a run of this system by its own
      instance: it leaves state, lock handle and lock as the run does. */
  lemma WatchTickIsARun(s: State, i: Id, m: Member, store: Store, token: nat, calls: Calls) returns (s': State)
    requires Mirrors(s, i, m, store, true) && m.state != Candidate && token !in s.owner
    ensures var x := Election.Watch(m, store, s.now, token, calls);
      Led(s, i, s') && Mirrors(s', i, x.member, x.store, x.again)
  {
    if m.state == Leader {
      s' := LeaderTickIsARun(s, i, m, store, token, calls);
    } else {
      s' := FollowerTickIsARun(s, i, m, store, token, calls);
    }
  }
}
