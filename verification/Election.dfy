/** Leader election (src/domains/election): the lease, one watch tick, and the failover bound. */
module Election {
  import opened Types

  const LEADER_LOCK_TTL_MS := 30_000
  const HEARTBEAT_INTERVAL_MS := 15_000
  const HEARTBEAT_TTL_MS := 45_000
  const HEARTBEAT_STALE_THRESHOLD_MS := 30_000

  datatype LeaderState = Leader | Follower | Candidate

  // The lock key: the value that identifies its holder, and when Redis drops it.
  datatype Lease = Lease(token: nat, expiry: int)

  predicate Held(lease: Option<Lease>, now: int) {
    lease.Some? && now < lease.value.expiry
  }

  predicate HeldBy(lease: Option<Lease>, token: nat, now: int) {
    Held(lease, now) && lease.value.token == token
  }

  // SET NX PX, and the compare-token scripts of extend and release.
  function AcquireLock(lease: Option<Lease>, token: nat, now: int): Option<Lease> {
    if Held(lease, now) then lease else Some(Lease(token, now + LEADER_LOCK_TTL_MS))
  }

  function ExtendLock(lease: Option<Lease>, token: nat, now: int): Option<Lease> {
    if HeldBy(lease, token, now) then Some(Lease(token, now + LEADER_LOCK_TTL_MS)) else lease
  }

  function ReleaseLock(lease: Option<Lease>, token: nat, now: int): Option<Lease> {
    if HeldBy(lease, token, now) then None else lease
  }

  // Redis as the election uses it: the lock and the heartbeat with its time to live.
  datatype Store = Store(lease: Option<Lease>, beat: Option<int>)

  predicate Stale(store: Store, now: int) {
    || store.beat.None?
    || now >= store.beat.value + HEARTBEAT_TTL_MS
    || now - store.beat.value > HEARTBEAT_STALE_THRESHOLD_MS
  }

  class Redis {
    var store: Store

    constructor (store: Store)
      ensures this.store == store
    {
      this.store := store;
    }
  }

  // How a lock command of the library ends: it answers, it lands but throws, or it only throws.
  datatype Reply = Answers | LandsAndThrows | Throws

  class RedlockElection {
    const redis: Redis
    var lock: Option<nat>

    constructor (redis: Redis)
      ensures this.redis == redis && lock == None
    {
      this.redis := redis;
      lock := None;
    }

    method Acquire(token: nat, now: int, reply: Reply) returns (acquired: bool)
      modifies this, redis
      ensures var lease := old(redis.store.lease);
        var free := lease.None? || now >= lease.value.expiry;
        && acquired == (reply.Answers? && free)
        && redis.store == if reply.Throws? || !free then old(redis.store)
                          else Store(Some(Lease(token, now + 30_000)), old(redis.store.beat))
      ensures lock == if acquired then Some(token) else old(lock)
    {
      var free := !Held(redis.store.lease, now);
      if !reply.Throws? {
        redis.store := redis.store.(lease := AcquireLock(redis.store.lease, token, now));
      }
      if free && reply.Answers? {
        lock := Some(token);
        return true;
      }
      acquired := false;
    }

    method Extend(now: int, reply: Reply) returns (extended: bool)
      modifies this, redis
      ensures var lease := old(redis.store.lease);
        var mine := old(lock).Some? && lease.Some? && lease.value.token == old(lock).value && now < lease.value.expiry;
        && extended == (reply.Answers? && mine)
        && redis.store == if reply.Throws? || !mine then old(redis.store)
                          else Store(Some(Lease(old(lock).value, now + 30_000)), old(redis.store.beat))
      ensures lock == if extended then old(lock) else None
    {
      if lock.None? {
        return false;
      }
      var held := HeldBy(redis.store.lease, lock.value, now);
      if !reply.Throws? {
        redis.store := redis.store.(lease := ExtendLock(redis.store.lease, lock.value, now));
      }
      if held && reply.Answers? {
        return true;
      }
      lock := None;
      extended := false;
    }

    method Release(now: int, reply: Reply)
      modifies this, redis
      ensures lock == None
      ensures var lease := old(redis.store.lease);
        var mine := old(lock).Some? && lease.Some? && lease.value.token == old(lock).value && now < lease.value.expiry;
        redis.store == if reply.Throws? || !mine then old(redis.store) else Store(None, old(redis.store.beat))
    {
      if lock.None? {
        return;
      }
      if !reply.Throws? {
        redis.store := redis.store.(lease := ReleaseLock(redis.store.lease, lock.value, now));
      }
      lock := None;
    }
  }

  // How the commands of one tick end: the lock command, the read and the write of the heartbeat.
  datatype Calls = Calls(lock: Reply, readFails: bool, write: Reply)

  const ANSWERED := Calls(Answers, false, Answers)

  // What one instance remembers.  polling: the poll loop its callbacks started.
  datatype Member = Member(state: LeaderState, lock: Option<nat>, polling: bool)

  // again: the tick reached scheduleWatch.  A heartbeat command that throws ends the chain of ticks.
  datatype Watched = Watched(member: Member, store: Store, again: bool)

  function Beat(store: Store, now: int, write: Reply): Store {
    if write.Throws? then store else store.(beat := Some(now))
  }

  // One watch tick with nothing in between.
  function Watch(m: Member, store: Store, now: int, token: nat, calls: Calls): Watched {
    if m.state == Leader then
      var landed := m.lock.Some? && !calls.lock.Throws?;
      var store' := if landed then store.(lease := ExtendLock(store.lease, m.lock.value, now)) else store;
      if landed && calls.lock.Answers? && HeldBy(store.lease, m.lock.value, now) then
        Watched(m, Beat(store', now, calls.write), calls.write.Answers?)
      else
        Watched(Member(Follower, None, false), store', true)
    else if calls.readFails then
      Watched(m, store, false)
    else if Stale(store, now) then
      var store' := if calls.lock.Throws? then store else store.(lease := AcquireLock(store.lease, token, now));
      if calls.lock.Answers? && !Held(store.lease, now) then
        // the callback that starts polling comes after the heartbeat
        Watched(Member(Leader, Some(token), m.polling || calls.write.Answers?), Beat(store', now, calls.write),
                calls.write.Answers?)
      else
        Watched(m.(state := Follower), store', true)
    else
      Watched(m, store, true)
  }

  // A tick of a leader: it leads on exactly when its own lease is extended.
  ghost predicate LedOn(m: Member, store: Store, now: int, calls: Calls, m': Member, store': Store) {
    var mine := m.lock.Some? && store.lease.Some? && store.lease.value.token == m.lock.value
                && now < store.lease.value.expiry;
    && m' == (if mine && calls.lock.Answers? then m else Member(Follower, None, false))
    && store'.lease == if mine && !calls.lock.Throws? then Some(Lease(m.lock.value, now + 30_000)) else store.lease
  }

  // A tick of anybody else: nothing while the heartbeat is at most 30 s old, or cannot be read;
  // otherwise it leads exactly when it acquires the free lock.
  ghost predicate FollowedOn(m: Member, store: Store, now: int, token: nat, calls: Calls, m': Member, store': Store) {
    var stale := store.beat.None? || now - store.beat.value > 30_000;
    var free := store.lease.None? || now >= store.lease.value.expiry;
    if calls.readFails || !stale then m' == m && store' == store
    else
      && m' == (if free && calls.lock.Answers?
                then Member(Leader, Some(token), m.polling || calls.write.Answers?) else m.(state := Follower))
      && store'.lease == if free && !calls.lock.Throws? then Some(Lease(token, now + 30_000)) else store.lease
  }

  // Whoever leads after a tick has just written the heartbeat, unless the write threw.
  ghost predicate Beats(store: Store, now: int, calls: Calls, m': Member, store': Store) {
    store'.beat == if m'.state == Leader && !calls.write.Throws? then Some(now) else store.beat
  }

  ghost predicate TickRight(m: Member, store: Store, now: int, token: nat, calls: Calls, x: Watched) {
    && (if m.state == Leader then LedOn(m, store, now, calls, x.member, x.store)
        else FollowedOn(m, store, now, token, calls, x.member, x.store))
    && Beats(store, now, calls, x.member, x.store)
    && x.again == !((m.state != Leader && calls.readFails) || (x.member.state == Leader && !calls.write.Answers?))
  }

  /** The reference says what the source says, in its constants. */
  lemma WatchIsRight(m: Member, store: Store, now: int, token: nat, calls: Calls)
    ensures TickRight(m, store, now, token, calls, Watch(m, store, now, token, calls))
  {
  }

  class LeaderElectionService {
    const redis: Redis
    const election: RedlockElection
    var state: LeaderState
    var polling: bool
    var watchTimer: bool

    constructor (redis: Redis, election: RedlockElection)
      requires election.redis == redis
      ensures this.redis == redis && this.election == election && state == Follower && !polling && !watchTimer
    {
      this.redis, this.election := redis, election;
      state, polling, watchTimer := Follower, false, false;
    }

    method Start()
      modifies this`watchTimer
      ensures watchTimer
    {
      watchTimer := true;
    }

    function AsMember(): Member
      reads this, election
    {
      Member(state, election.lock, polling)
    }

    method WatchTick(now: int, token: nat, calls: Calls) returns (again: bool)
      requires election.redis == redis
      modifies this, election, redis
      ensures Watched(AsMember(), redis.store, again) == Watch(old(AsMember()), old(redis.store), now, token, calls)
      ensures TickRight(old(AsMember()), old(redis.store), now, token, calls, Watched(AsMember(), redis.store, again))
      ensures watchTimer == again
    {
      WatchIsRight(AsMember(), redis.store, now, token, calls);
      if state == Leader {
        var extended := election.Extend(now, calls.lock);
        if !extended {
          Demote(now, Answers);
          watchTimer, again := true, true;
          return;
        }
        again := WriteHeartbeat(now, calls.write);
        watchTimer := again;
        return;
      }
      watchTimer := false;
      if calls.readFails {
        return false;
      }
      if Stale(redis.store, now) {
        state := Candidate;
        var acquired := election.Acquire(token, now, calls.lock);
        if acquired {
          again := Promote(now, calls.write);
          watchTimer := again;
          return;
        }
        state := Follower;
      }
      watchTimer, again := true, true;
    }

    method WriteHeartbeat(now: int, write: Reply) returns (written: bool)
      modifies redis
      ensures written == write.Answers?
      ensures redis.store == if write.Throws? then old(redis.store) else Store(old(redis.store.lease), Some(now))
    {
      if !write.Throws? {
        redis.store := redis.store.(beat := Some(now));
      }
      written := write.Answers?;
    }

    method Promote(now: int, write: Reply) returns (promoted: bool)
      requires election.redis == redis
      modifies this, redis
      ensures promoted == write.Answers? && state == Leader && (polling <==> old(polling) || promoted)
      ensures redis.store == if write.Throws? then old(redis.store) else Store(old(redis.store.lease), Some(now))
    {
      state := Leader;
      promoted := WriteHeartbeat(now, write);
      if promoted {
        polling := true;
      }
    }

    method Demote(now: int, reply: Reply)
      requires election.redis == redis
      modifies this`state, this`polling, election, redis
      ensures state == Follower && !polling && election.lock == None
      ensures var lease, lock := old(redis.store.lease), old(election.lock);
        var mine := lock.Some? && lease.Some? && lease.value.token == lock.value && now < lease.value.expiry;
        redis.store == if reply.Throws? || !mine then old(redis.store) else Store(None, old(redis.store.beat))
    {
      state := Follower;
      election.Release(now, reply);
      polling := false;
    }

    method Stop(now: int, reply: Reply)
      requires election.redis == redis
      modifies this, election, redis
      ensures state != Leader && !watchTimer
      ensures old(state) == Leader ==> state == Follower && !polling && election.lock == None
      ensures old(state) == Leader && old(election.lock).Some? && !reply.Throws? ==>
        !HeldBy(redis.store.lease, old(election.lock).value, now)
      ensures old(state) != Leader ==> AsMember() == old(AsMember()) && redis.store == old(redis.store)
    {
      watchTimer := false;
      if state == Leader {
        Demote(now, reply);
      }
    }
  }

  // Failover

  datatype Tick = Tick(at: int, who: nat, token: nat, calls: Calls)

  datatype World = World(members: seq<Member>, store: Store)

  ghost predicate Known(members: seq<Member>, ticks: seq<Tick>) {
    forall i :: 0 <= i < |ticks| ==> ticks[i].who < |members|
  }

  // Instances tick one at a time.
  function Ticked(w: World, ticks: seq<Tick>): (r: World)
    requires Known(w.members, ticks)
    ensures |r.members| == |w.members|
  {
    if ticks == [] then w
    else
      var n := |ticks| - 1;
      var w1, tick := Ticked(w, ticks[..n]), ticks[n];
      var x := Watch(w1.members[tick.who], w1.store, tick.at, tick.token, tick.calls);
      World(w1.members[tick.who := x.member], x.store)
  }

  // Some instance other than the crashed one leads.
  ghost predicate LiveLeader(members: seq<Member>, crashed: nat) {
    exists i :: 0 <= i < |members| && i != crashed && members[i].state == Leader
  }

  // The lock was last acquired or extended, and the heartbeat last written, at or before `last`.
  ghost predicate LastSeen(store: Store, last: int) {
    && (store.lease.Some? ==> store.lease.value.expiry <= last + LEADER_LOCK_TTL_MS)
    && (store.beat.Some? ==> store.beat.value <= last)
  }

  // When a run last changed lock or heartbeat.
  function LastTouch(w: World, ticks: seq<Tick>, start: int): int
    requires Known(w.members, ticks)
  {
    if ticks == [] then start
    else
      var n := |ticks| - 1;
      if Ticked(w, ticks).store == Ticked(w, ticks[..n]).store then LastTouch(w, ticks[..n], start) else ticks[n].at
  }

  ghost predicate InOrder(ticks: seq<Tick>, start: int) {
    && (forall i :: 0 <= i < |ticks| ==> start <= ticks[i].at)
    && (forall i, j :: 0 <= i < j < |ticks| ==> ticks[i].at <= ticks[j].at)
  }

  lemma TickSeen(m: Member, store: Store, last: int, now: int, token: nat, calls: Calls)
    requires LastSeen(store, last) && last <= now
    ensures var store' := Watch(m, store, now, token, calls).store;
      LastSeen(store', if store' == store then last else now)
  {
  }

  // In every run, the store is as old as its last change.
  lemma {:induction false} RunSeen(w: World, ticks: seq<Tick>, start: int)
    requires Known(w.members, ticks) && InOrder(ticks, start) && LastSeen(w.store, start)
    ensures LastSeen(Ticked(w, ticks).store, LastTouch(w, ticks, start))
    ensures start <= LastTouch(w, ticks, start) <= if ticks == [] then start else ticks[|ticks| - 1].at
  {
    if ticks != [] {
      var n := |ticks| - 1;
      RunSeen(w, ticks[..n], start);
      var w1, tick := Ticked(w, ticks[..n]), ticks[n];
      TickSeen(w1.members[tick.who], w1.store, LastTouch(w, ticks[..n], start), tick.at, tick.token, tick.calls);
    }
  }

  // Watch ticks of live instances answer, and come at most 15 s apart, counted from the one before.
  ghost predicate Dense(ticks: seq<Tick>, before: int, crashed: nat) {
    && (forall i :: 0 <= i < |ticks| ==> ticks[i].calls == ANSWERED && ticks[i].who != crashed)
    && (forall i :: 0 <= i < |ticks| ==>
          ticks[i].at <= (if i == 0 then before else ticks[i - 1].at) + HEARTBEAT_INTERVAL_MS)
    && (forall i :: 0 < i < |ticks| ==> ticks[i - 1].at <= ticks[i].at)
  }

  // A tick that makes nobody leader came too early, and left the store alone.
  lemma QuietTick(m: Member, store: Store, last: int, now: int, token: nat)
    requires LastSeen(store, last) && m.state != Leader && Watch(m, store, now, token, ANSWERED).member.state != Leader
    ensures Watch(m, store, now, token, ANSWERED).store == store && now <= last + LEADER_LOCK_TTL_MS
  {
  }

  // While nobody alive leads, the store is as the crashed leader left it.
  lemma {:induction false} NothingHappens(w: World, ticks: seq<Tick>, last: int, crashed: nat)
    requires Known(w.members, ticks) && LastSeen(w.store, last)
    requires forall i :: 0 <= i < |ticks| ==> ticks[i].calls == ANSWERED && ticks[i].who != crashed
    requires forall n :: 0 <= n <= |ticks| ==> !LiveLeader(Ticked(w, ticks[..n]).members, crashed)
    ensures Ticked(w, ticks).store == w.store
    ensures forall i :: 0 <= i < |ticks| ==> ticks[i].at <= last + LEADER_LOCK_TTL_MS
  {
    if ticks != [] {
      var n := |ticks| - 1;
      var before, tick := ticks[..n], ticks[n];
      assert forall j :: 0 <= j <= n ==> before[..j] == ticks[..j];
      NothingHappens(w, before, last, crashed);
      assert ticks[..n + 1] == ticks;
      var w1 := Ticked(w, before);
      assert !LiveLeader(w1.members, crashed) && !LiveLeader(Ticked(w, ticks).members, crashed);
      var m := Watch(w1.members[tick.who], w1.store, tick.at, tick.token, ANSWERED).member;
      assert Ticked(w, ticks).members == w1.members[tick.who := m];
      assert w1.members[tick.who].state != Leader && w1.members[tick.who := m][tick.who].state != Leader;
      QuietTick(w1.members[tick.who], w1.store, last, tick.at, tick.token);
      assert forall i :: 0 <= i < n ==> before[i] == ticks[i];
    }
  }

  // The first number of ticks after which someone alive leads, or one more than there are ticks.
  lemma {:induction false} FirstLeader(w: World, ticks: seq<Tick>, crashed: nat, n: nat) returns (first: nat)
    requires Known(w.members, ticks)
    requires n <= |ticks| && forall j :: 0 <= j < n ==> !LiveLeader(Ticked(w, ticks[..j]).members, crashed)
    ensures n <= first <= |ticks| + 1
    ensures forall j :: 0 <= j < first ==> !LiveLeader(Ticked(w, ticks[..j]).members, crashed)
    ensures first <= |ticks| ==> LiveLeader(Ticked(w, ticks[..first]).members, crashed)
    decreases |ticks| - n
  {
    if LiveLeader(Ticked(w, ticks[..n]).members, crashed) {
      first := n;
    } else if n == |ticks| {
      first := n + 1;
    } else {
      first := FirstLeader(w, ticks, crashed, n + 1);
    }
  }

  lemma QuietUntil(w: World, ticks: seq<Tick>, last: int, crashed: nat, n: nat)
    requires Known(w.members, ticks) && LastSeen(w.store, last) && n <= |ticks|
    requires forall i :: 0 <= i < |ticks| ==> ticks[i].calls == ANSWERED && ticks[i].who != crashed
    requires forall j :: 0 <= j <= n ==> !LiveLeader(Ticked(w, ticks[..j]).members, crashed)
    ensures forall i :: 0 <= i < n ==> ticks[i].at <= last + LEADER_LOCK_TTL_MS
  {
    assert forall j :: 0 <= j <= n ==> ticks[..n][..j] == ticks[..j];
    NothingHappens(w, ticks[..n], last, crashed);
    assert forall i :: 0 <= i < n ==> ticks[..n][i] == ticks[i];
  }

  // The instance is leader, and the lock is its own at the given time.
  predicate Leads(w: World, i: nat, now: int)
    requires i < |w.members|
  {
    w.members[i].state == Leader && w.members[i].lock.Some? && HeldBy(w.store.lease, w.members[i].lock.value, now)
  }

  ghost predicate LiveHolder(w: World, crashed: nat, now: int) {
    exists i :: 0 <= i < |w.members| && i != crashed && Leads(w, i, now)
  }

  // No live instance leads past its lease.
  ghost predicate InTime(w: World, crashed: nat, now: int) {
    forall i :: 0 <= i < |w.members| && i != crashed && w.members[i].state == Leader ==> Leads(w, i, now)
  }

  // Whoever becomes leader in a tick holds the lock.
  lemma PromotedHolds(w: World, ticks: seq<Tick>, crashed: nat)
    requires ticks != [] && Known(w.members, ticks)
    requires !LiveLeader(Ticked(w, ticks[..|ticks| - 1]).members, crashed)
    requires LiveLeader(Ticked(w, ticks).members, crashed)
    requires ticks[|ticks| - 1].who != crashed
    ensures LiveHolder(Ticked(w, ticks), crashed, ticks[|ticks| - 1].at)
  {
    var w1, tick, w2 := Ticked(w, ticks[..|ticks| - 1]), ticks[|ticks| - 1], Ticked(w, ticks);
    var i :| 0 <= i < |w2.members| && i != crashed && w2.members[i].state == Leader;
    assert w1.members[i].state != Leader && w1.members[tick.who].state != Leader;
    assert i == tick.who;
    assert Leads(w2, i, tick.at);
  }

  /** From any store last touched at `last`, with the last live tick no later than the lease: someone
      alive leads and holds the lock already, or does so within 45 s. */
  lemma SomeoneTakesOver(w: World, ticks: seq<Tick>, last: int, before: int, crashed: nat, now: int) returns (n: nat)
    requires Known(w.members, ticks) && LastSeen(w.store, last) && InTime(w, crashed, now)
    requires Dense(ticks, before, crashed) && before <= last + LEADER_LOCK_TTL_MS
    requires ticks != [] && ticks[|ticks| - 1].at > last + LEADER_LOCK_TTL_MS
    ensures n <= |ticks| && (n > 0 ==> ticks[n - 1].at <= last + 45_000)
    ensures LiveHolder(Ticked(w, ticks[..n]), crashed, if n == 0 then now else ticks[n - 1].at)
  {
    n := FirstLeader(w, ticks, crashed, 0);
    if n > 0 {
      QuietUntil(w, ticks, last, crashed, n - 1);
      assert ticks[..n][..n - 1] == ticks[..n - 1];
      PromotedHolds(w, ticks[..n], crashed);
    }
    if n > 1 {
      assert ticks[n - 2].at <= last + LEADER_LOCK_TTL_MS;
      assert ticks[n - 1].at <= ticks[n - 2].at + HEARTBEAT_INTERVAL_MS;
    }
  }

  // The store when an instance crashes after the first so many commands of its tick.
  function Crashed(m: Member, store: Store, now: int, token: nat, commands: nat): Store {
    var after := Watch(m, store, now, token, ANSWERED).store;
    if commands == 0 then store else if commands == 1 then store.(lease := after.lease) else after
  }

  // When the store was last touched by an instance that crashed in its tick at time `now`.
  function Touched(m: Member, store: Store, last: int, now: int, token: nat, commands: nat): int {
    if Crashed(m, store, now, token, commands) == store then last else now
  }

  /** Every crash point of a tick leaves a store as old as its last change. */
  lemma CrashAnywhere(m: Member, store: Store, last: int, now: int, token: nat, commands: nat)
    requires LastSeen(store, last) && last <= now
    ensures LastSeen(Crashed(m, store, now, token, commands), Touched(m, store, last, now, token, commands))
  {
  }

  // A run of all instances, the last tick of it broken off by a crash after so many commands.
  datatype Crash = Crash(past: seq<Tick>, who: nat, now: int, token: nat, commands: nat)

  ghost predicate Possible(w: World, c: Crash, start: int) {
    && Known(w.members, c.past) && c.who < |w.members| && w.store == Store(None, None)
    && InOrder(c.past, start) && start <= c.now && (forall i :: 0 <= i < |c.past| ==> c.past[i].at <= c.now)
  }

  function AfterCrash(w: World, c: Crash): World
    requires Known(w.members, c.past) && c.who < |w.members|
  {
    var w1 := Ticked(w, c.past);
    World(w1.members, Crashed(w1.members[c.who], w1.store, c.now, c.token, c.commands))
  }

  // The later of the last lease acquisition or extension and the last heartbeat before the crash.
  function LastSign(w: World, c: Crash, start: int): int
    requires Known(w.members, c.past) && c.who < |w.members|
  {
    var w1 := Ticked(w, c.past);
    Touched(w1.members[c.who], w1.store, LastTouch(w, c.past, start), c.now, c.token, c.commands)
  }

  // The last tick of an instance other than the crashed one.
  function LastLive(ticks: seq<Tick>, crashed: nat, start: int): int {
    if ticks == [] then start
    else if ticks[|ticks| - 1].who != crashed then ticks[|ticks| - 1].at
    else LastLive(ticks[..|ticks| - 1], crashed, start)
  }

  // After the last sign, the commands of live instances answered and none of them led past its lease.
  ghost predicate Steady(w: World, c: Crash, start: int)
    requires Known(w.members, c.past) && c.who < |w.members|
  {
    && InTime(AfterCrash(w, c), c.who, c.now)
    && forall n :: 0 <= n < |c.past| && c.past[n].who != c.who && c.past[n].at > LastSign(w, c, start) ==>
         c.past[n].calls == ANSWERED && InTime(Ticked(w, c.past[..n]), c.who, c.past[n].at)
  }

  // A tick that answers and leaves the store alone, by an instance that does not lead past its lease,
  // comes before the lease is over.
  lemma IdleTick(w: World, tick: Tick, last: int, crashed: nat)
    requires tick.who < |w.members| && tick.who != crashed && tick.calls == ANSWERED && InTime(w, crashed, tick.at)
    requires LastSeen(w.store, last)
    requires Watch(w.members[tick.who], w.store, tick.at, tick.token, ANSWERED).store == w.store
    ensures tick.at <= last + LEADER_LOCK_TTL_MS
  {
    assert w.members[tick.who].state == Leader ==> Leads(w, tick.who, tick.at);
  }

  lemma {:induction false} LiveTicksAreEarly(w: World, ticks: seq<Tick>, start: int, last: int, crashed: nat)
    requires Known(w.members, ticks) && InOrder(ticks, start) && LastSeen(w.store, start)
    requires LastTouch(w, ticks, start) <= last && start <= last
    requires forall n :: 0 <= n < |ticks| && ticks[n].who != crashed && ticks[n].at > last ==>
      ticks[n].calls == ANSWERED && InTime(Ticked(w, ticks[..n]), crashed, ticks[n].at)
    ensures LastLive(ticks, crashed, start) <= last + LEADER_LOCK_TTL_MS
  {
    if ticks != [] {
      var n := |ticks| - 1;
      RunSeen(w, ticks[..n], start);
      if ticks[n].who == crashed {
        assert forall m :: 0 <= m < n ==> ticks[..n][..m] == ticks[..m];
        LiveTicksAreEarly(w, ticks[..n], start, last, crashed);
      } else if ticks[n].at > last {
        assert Ticked(w, ticks).store == Ticked(w, ticks[..n]).store;
        IdleTick(Ticked(w, ticks[..n]), ticks[n], LastTouch(w, ticks[..n], start), crashed);
      }
    }
  }

  /** After any run of any number of instances from an empty Redis, one of them crashes after any
      number of the commands of its tick.  If since the last lease acquisition, extension or heartbeat
      the others' commands answer, their watch ticks come at most 15 s apart and none of them leads past
      its lease, then some live instance leads and holds the lock at once or within 45 s of it. */
  lemma Failover(w: World, c: Crash, start: int, ticks: seq<Tick>) returns (n: nat)
    requires Possible(w, c, start) && Steady(w, c, start) && Known(w.members, ticks)
    requires Dense(ticks, LastLive(c.past, c.who, start), c.who)
    requires ticks != [] && ticks[|ticks| - 1].at > LastSign(w, c, start) + LEADER_LOCK_TTL_MS
    ensures n <= |ticks| && (n > 0 ==> ticks[n - 1].at <= LastSign(w, c, start) + 45_000)
    ensures LiveHolder(Ticked(AfterCrash(w, c), ticks[..n]), c.who, if n == 0 then c.now else ticks[n - 1].at)
  {
    RunSeen(w, c.past, start);
    var w1 := Ticked(w, c.past);
    CrashAnywhere(w1.members[c.who], w1.store, LastTouch(w, c.past, start), c.now, c.token, c.commands);
    LiveTicksAreEarly(w, c.past, start, LastSign(w, c, start), c.who);
    n := SomeoneTakesOver(AfterCrash(w, c), ticks, LastSign(w, c, start), LastLive(c.past, c.who, start), c.who, c.now);
  }

  // Chains of ticks that end

  /** A tick is the last of its chain exactly when the heartbeat read of an instance that does not lead,
      or the heartbeat write of one that then leads, did not answer. */
  lemma ChainEndsExactly(m: Member, store: Store, now: int, token: nat, calls: Calls)
    ensures var x := Watch(m, store, now, token, calls);
      !x.again <==> (m.state != Leader && calls.readFails) || (x.member.state == Leader && !calls.write.Answers?)
  {
  }

  function LastWatch(w: World, ticks: seq<Tick>): Watched
    requires ticks != [] && Known(w.members, ticks)
  {
    var w1, tick := Ticked(w, ticks[..|ticks| - 1]), ticks[|ticks| - 1];
    Watch(w1.members[tick.who], w1.store, tick.at, tick.token, tick.calls)
  }

  // No tick of the instance has been the last of its chain.
  predicate GoesOn(w: World, ticks: seq<Tick>, i: nat)
    requires Known(w.members, ticks)
  {
    ticks == [] ||
    (GoesOn(w, ticks[..|ticks| - 1], i) && (ticks[|ticks| - 1].who == i ==> LastWatch(w, ticks).again))
  }

  // Only instances whose chain goes on tick.
  predicate Orderly(w: World, ticks: seq<Tick>)
    requires Known(w.members, ticks)
  {
    ticks == [] ||
    (Orderly(w, ticks[..|ticks| - 1]) && GoesOn(w, ticks[..|ticks| - 1], ticks[|ticks| - 1].who))
  }

  // The last tick of the instance promoted it, and its heartbeat write did not answer.
  predicate SilentlyPromoted(w: World, ticks: seq<Tick>, i: nat)
    requires Known(w.members, ticks) && i < |w.members|
  {
    ticks != [] &&
    var before := ticks[..|ticks| - 1];
    if ticks[|ticks| - 1].who != i then SilentlyPromoted(w, before, i)
    else
      && Ticked(w, before).members[i].state != Leader && LastWatch(w, ticks).member.state == Leader
      && !ticks[|ticks| - 1].calls.write.Answers?
  }

  ghost predicate AllIdle(members: seq<Member>) {
    forall i :: 0 <= i < |members| ==> members[i] == Member(Follower, None, false)
  }

  /** In every run only leaders poll, and a leader does not poll exactly when it was promoted in a tick
      whose heartbeat write did not answer; that tick was its last. */
  lemma {:induction false} SilentLeaderExactly(w: World, ticks: seq<Tick>, i: nat)
    requires Known(w.members, ticks) && Orderly(w, ticks) && AllIdle(w.members) && i < |w.members|
    ensures var m := Ticked(w, ticks).members[i];
      && (m.polling ==> m.state == Leader)
      && (m.state == Leader && !m.polling <==> SilentlyPromoted(w, ticks, i))
      && (GoesOn(w, ticks, i) ==> m.polling == (m.state == Leader))
  {
    if ticks != [] {
      SilentLeaderExactly(w, ticks[..|ticks| - 1], i);
    }
  }

  /** Such a leader: it holds the lock, polls nothing and watches no more. */
  lemma SilentLeader() returns (w: World, ticks: seq<Tick>)
    ensures Known(w.members, ticks) && Orderly(w, ticks) && AllIdle(w.members)
    ensures var w' := Ticked(w, ticks);
      |w'.members| == 1 && Leads(w', 0, 0) && !w'.members[0].polling && !GoesOn(w, ticks, 0)
  {
    w := World([Member(Follower, None, false)], Store(None, None));
    ticks := [Tick(0, 0, 0, Calls(Answers, false, Throws))];
    assert ticks[..0] == [];
  }
}
