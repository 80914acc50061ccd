/** The poll loop of src/domains/scheduler/poll-loop.ts, one tick at a time. */
module PollLoop {
  import opened Types
  import opened SortedSets
  import opened JobQueue

  const MAX_CONCURRENT_JOBS := 100
  const POLL_BATCH_SIZE := 100
  const MIN_FREE_SLOTS := 10

  const POLL_ORDER: seq<JobType> :=
    [ReservationExpiry, PayoutBatch, OrderAbandonment, LowStockAlert, ScheduledReport]

  datatype Batch = Batch(jobType: JobType, ids: seq<JobId>)

  datatype Slot = Slot(jobType: JobType, id: JobId)

  function Slots(jobType: JobType, ids: seq<JobId>): (r: seq<Slot>)
    ensures |r| == |ids|
    ensures forall i :: 0 <= i < |ids| ==> r[i] == Slot(jobType, ids[i])
  {
    if ids == [] then [] else [Slot(jobType, ids[0])] + Slots(jobType, ids[1..])
  }

  // Everything handed to the dispatcher, in the order it was handed over.
  function Flatten(batches: seq<Batch>): seq<Slot> {
    if batches == [] then []
    else Slots(batches[0].jobType, batches[0].ids) + Flatten(batches[1..])
  }

  function Total(batches: seq<Batch>): nat {
    |Flatten(batches)|
  }

  // The reference: all due jobs of the queues that answer, listed in priority order, each queue by
  // score and then member.
  function DueInOrder(queues: Queues, order: seq<JobType>, broken: set<JobType>, now: int): seq<Slot> {
    if order == [] then []
    else
      (if order[0] in broken then [] else Slots(order[0], Members(Due(Queue(queues, order[0]), now))))
      + DueInOrder(queues, order[1..], broken, now)
  }

  function FirstOf<T>(s: seq<T>, n: nat): seq<T> {
    s[..Min(n, |s|)]
  }

  function Served(queues: Queues, jobType: JobType, now: int, slots: nat): seq<Batch> {
    var ids := Members(FirstDue(Queue(queues, jobType), now, slots));
    if ids == [] then [] else [Batch(jobType, ids)]
  }

  // How the slots are granted: each queue in turn, up to what is left.
  function Grant(queues: Queues, order: seq<JobType>, broken: set<JobType>, now: int, slots: nat): seq<Batch> {
    if order == [] then []
    else if order[0] in broken then Grant(queues, order[1..], broken, now, slots)
    else
      var ids := Members(FirstDue(Queue(queues, order[0]), now, slots));
      Served(queues, order[0], now, slots) + Grant(queues, order[1..], broken, now, slots - |ids|)
  }

  // The gate: how many slots a tick may hand out.
  function Granted(activeJobs: int): (granted: nat)
    ensures activeJobs > 90 ==> granted == 0
    ensures activeJobs <= 90 ==> granted == if activeJobs < 0 then 100 else 100 - activeJobs
  {
    var free := MAX_CONCURRENT_JOBS - activeJobs;
    if free < MIN_FREE_SLOTS then 0 else Min(free, POLL_BATCH_SIZE)
  }

  ghost predicate NoneEmpty(batches: seq<Batch>) {
    forall i :: 0 <= i < |batches| ==> batches[i].ids != []
  }

  // What may happen to the batches in flight while a drain waits: a batch settles, or a tick that was
  // already running when the loop was stopped dispatches one more.
  datatype Happening = Settles(i: nat) | Dispatches(batch: Batch)

  function Happened(inFlight: seq<Batch>, happenings: seq<Happening>): seq<Batch> {
    if happenings == [] then inFlight
    else
      var n := |happenings| - 1;
      var before := Happened(inFlight, happenings[..n]);
      match happenings[n]
      case Settles(i) => if i < |before| then before[..i] + before[i + 1..] else before
      case Dispatches(batch) => before + [batch]
  }

  // Looks come at least 500 ms apart.
  ghost predicate HalfSecondApart(clock: nat -> int) {
    forall m: nat, n: nat :: m == n + 1 ==> clock(m) >= clock(n) + 500
  }

  lemma LooksInTime(elapsed: int, looks: nat, timeoutMs: nat)
    requires 500 * looks <= elapsed <= timeoutMs
    ensures looks <= timeoutMs / 500
  {
  }

  // The batches in flight at the n-th look of a drain.
  function AtLook(inFlight: seq<Batch>, waits: nat -> seq<Happening>, n: nat): seq<Batch> {
    if n == 0 then inFlight else Happened(AtLook(inFlight, waits, n - 1), waits(n - 1))
  }

  function IdsOf(jobType: JobType, slots: seq<Slot>): set<JobId> {
    set x | x in slots && x.jobType == jobType :: x.id
  }

  class PollLoop {
    const queue: RedisJobQueue
    var running: bool
    var timer: bool
    var activeJobs: int
    var inFlight: seq<Batch>      // dispatched batches whose promise has not settled

    ghost predicate Valid()
      reads this, queue
    {
      queue.Valid() && activeJobs == Total(inFlight)
    }

    constructor (queue: RedisJobQueue)
      requires queue.Valid()
      ensures Valid() && this.queue == queue && !running && !timer && inFlight == []
    {
      this.queue := queue;
      running, timer, activeJobs, inFlight := false, false, 0, [];
    }

    method Start()
      requires Valid()
      modifies this`running, this`timer
      ensures Valid() && running && (if old(running) then timer == old(timer) else timer)
    {
      if running {
        return;
      }
      running := true;
      timer := true;
    }

    method Stop()
      requires Valid()
      modifies this`running, this`timer
      ensures Valid() && !running && !timer
    {
      running := false;
      timer := false;
    }

    /** A tick that passes the gate dispatches exactly the first min(free, 100) due jobs of the
        priority list and removes exactly those from the queues; otherwise it changes nothing. */
    method Tick(now: Option<int>, broken: set<JobType>) returns (dispatched: seq<Batch>)
      requires Valid()
      modifies this`activeJobs, this`inFlight, queue
      ensures Valid()
      ensures inFlight == old(inFlight) + dispatched
      ensures var free := 100 - old(activeJobs);
        var due := if now.None? then [] else DueInOrder(old(queue.queues), POLL_ORDER, broken, now.value);
        && Flatten(dispatched) == (if free < 10 || now.None? then [] else FirstOf(due, Min(free, 100)))
        && Removed(old(queue.queues), queue.queues, dispatched)
      ensures now.Some? ==> EarliestDispatched(old(queue.queues), queue.queues, Flatten(dispatched), now.value)
      ensures activeJobs <= MAX_CONCURRENT_JOBS || activeJobs == old(activeJobs)
      ensures NoneEmpty(dispatched) && Total(dispatched) <= Granted(old(activeJobs))
    {
      dispatched := [];
      var freeSlots := MAX_CONCURRENT_JOBS - activeJobs;
      NothingRemoved(queue.queues);
      assert inFlight + [] == inFlight;
      if freeSlots < MIN_FREE_SLOTS || now.None? {
        return;
      }
      dispatched := ServeAll(POLL_ORDER, now.value, broken, Min(freeSlots, POLL_BATCH_SIZE));
      GrantIsFirst(old(queue.queues), POLL_ORDER, broken, now.value, Min(freeSlots, POLL_BATCH_SIZE));
      GrantNoneEmpty(old(queue.queues), POLL_ORDER, broken, now.value, Min(freeSlots, POLL_BATCH_SIZE));
      DispatchesEarliest(old(queue.queues), queue.queues, broken, now.value, dispatched,
                         Min(freeSlots, POLL_BATCH_SIZE));
    }

    // The loop over the queues in priority order.
    method ServeAll(order: seq<JobType>, now: int, broken: set<JobType>, slots: nat) returns (dispatched: seq<Batch>)
      requires Valid() && Distinct(order)
      modifies this`activeJobs, this`inFlight, queue
      ensures Valid() && inFlight == old(inFlight) + dispatched && activeJobs == old(activeJobs) + Total(dispatched)
      ensures dispatched == Grant(old(queue.queues), order, broken, now, slots)
      ensures Removed(old(queue.queues), queue.queues, dispatched)
    {
      dispatched := [];
      NothingRemoved(queue.queues);
      var remainingSlots: int := slots;
      var i := 0;
      while i < |order|
        invariant 0 <= i <= |order| && remainingSlots >= 0
        invariant Valid() && inFlight == old(inFlight) + dispatched && activeJobs == old(activeJobs) + Total(dispatched)
        invariant dispatched + Grant(old(queue.queues), order[i..], broken, now, remainingSlots)
          == Grant(old(queue.queues), order, broken, now, slots)
        invariant Progress(order, old(queue.queues), queue.queues, dispatched, i)
      {
        if remainingSlots <= 0 {
          NoSlotsNoGrant(old(queue.queues), order[i..], broken, now);
          break;
        }
        var batches := ServeNext(order, old(queue.queues), dispatched, i, broken, now, remainingSlots);
        Associate(old(inFlight), dispatched, batches);
        AddsUp(dispatched, batches,
               Grant(old(queue.queues), order[i + 1..], broken, now, remainingSlots - Total(batches)));
        remainingSlots := remainingSlots - Total(batches);
        dispatched := dispatched + batches;
        i := i + 1;
      }
    }

    // One queue in its turn; a queue whose dequeue throws is passed over.
    method ServeNext(order: seq<JobType>, ghost start: Queues, ghost dispatched: seq<Batch>, i: nat,
                     broken: set<JobType>, now: int, slots: nat)
      returns (batches: seq<Batch>)
      requires Valid() && Distinct(order) && i < |order| && Progress(order, start, queue.queues, dispatched, i)
      modifies this`activeJobs, this`inFlight, queue
      ensures Valid() && inFlight == old(inFlight) + batches && activeJobs == old(activeJobs) + Total(batches)
      ensures Total(batches) <= slots && Progress(order, start, queue.queues, dispatched + batches, i + 1)
      ensures Grant(start, order[i..], broken, now, slots)
        == batches + Grant(start, order[i + 1..], broken, now, slots - Total(batches))
    {
      ghost var before := queue.queues;
      if order[i] in broken {
        batches := [];
        assert inFlight + batches == inFlight;
      } else {
        batches := Serve(order[i], now, slots);
      }
      TurnProgresses(order, start, before, queue.queues, dispatched, batches, i, broken, now, slots);
      TurnGrants(order, start, before, batches, i, broken, now, slots);
    }

    // One round of the loop: dequeue, count, hand over.  An empty reply hands over nothing.
    method Serve(jobType: JobType, now: int, slots: nat) returns (batches: seq<Batch>)
      requires Valid()
      modifies this`activeJobs, this`inFlight, queue
      ensures Valid() && inFlight == old(inFlight) + batches && activeJobs == old(activeJobs) + Total(batches)
      ensures batches == Served(old(queue.queues), jobType, now, slots) && Total(batches) <= slots
      ensures OnlyPopped(old(queue.queues), queue.queues, jobType, now, slots)
    {
      var jobIds := queue.Dequeue(jobType, now, slots);
      batches := [];
      if |jobIds| == 0 {
        return;
      }
      AppendBatch(inFlight, Batch(jobType, jobIds));
      AppendBatch([], Batch(jobType, jobIds));
      assert [] + [Batch(jobType, jobIds)] == [Batch(jobType, jobIds)];
      activeJobs := activeJobs + |jobIds|;
      batches := [Batch(jobType, jobIds)];
      inFlight := inFlight + batches;
    }

    /** The `finally` handler of a dispatched batch: the clamp at zero never acts. */
    method Settle(i: nat)
      requires Valid() && i < |inFlight|
      modifies this`activeJobs, this`inFlight
      ensures Valid()
      ensures inFlight == old(inFlight)[..i] + old(inFlight)[i + 1..]
      ensures activeJobs == old(activeJobs) - |old(inFlight)[i].ids|
    {
      RemoveBatch(inFlight, i);
      var remaining := activeJobs - |inFlight[i].ids|;
      activeJobs := if remaining > 0 then remaining else 0;
      inFlight := inFlight[..i] + inFlight[i + 1..];
    }

    // What happens during one wait of a drain.
    method Wait(happenings: seq<Happening>)
      requires Valid()
      modifies this`activeJobs, this`inFlight
      ensures Valid() && inFlight == Happened(old(inFlight), happenings)
    {
      var n := 0;
      while n < |happenings|
        invariant 0 <= n <= |happenings|
        invariant Valid() && inFlight == Happened(old(inFlight), happenings[..n])
      {
        assert happenings[..n + 1][..n] == happenings[..n];
        match happenings[n] {
          case Settles(i) =>
            if i < |inFlight| {
              Settle(i);
            }
          case Dispatches(batch) =>
            AppendBatch(inFlight, batch);
            activeJobs := activeJobs + |batch.ids|;
            inFlight := inFlight + [batch];
        }
        n := n + 1;
      }
      assert happenings[..n] == happenings;
    }

    /** Shutdown waits in steps of at least 500 ms until a look finds no active job, and gives up at
        the first look after the timeout.  clock(n) is the time of look n. */
    method Drain(waits: nat -> seq<Happening>, clock: nat -> int, timeoutMs: nat) returns (looks: nat, drained: bool)
      requires Valid() && HalfSecondApart(clock)
      modifies this`activeJobs, this`inFlight
      ensures Valid() && inFlight == AtLook(old(inFlight), waits, looks)
      ensures drained <==> activeJobs == 0
      ensures !drained ==> clock(looks) - clock(0) > timeoutMs
      ensures forall n: nat :: n < looks ==>
        Total(AtLook(old(inFlight), waits, n)) > 0 && clock(n) - clock(0) <= timeoutMs
      ensures looks <= timeoutMs / 500 + 1
    {
      looks := 0;
      while activeJobs > 0
        invariant Valid() && inFlight == AtLook(old(inFlight), waits, looks)
        invariant forall n: nat :: n < looks ==>
          Total(AtLook(old(inFlight), waits, n)) > 0 && clock(n) - clock(0) <= timeoutMs
        invariant clock(looks) - clock(0) >= 500 * looks
        invariant looks <= timeoutMs / 500 + 1
        decreases timeoutMs / 500 + 1 - looks
      {
        if clock(looks) - clock(0) > timeoutMs {
          return looks, false;
        }
        LooksInTime(clock(looks) - clock(0), looks, timeoutMs);
        Wait(waits(looks));
        assert clock(looks + 1) >= clock(looks) + 500;
        looks := looks + 1;
      }
      drained := true;
    }
  }

  // Every queue lost the dispatched ids of its type, and nothing else.
  ghost predicate Removed(before: Queues, after: Queues, dispatched: seq<Batch>) {
    forall t :: Queue(after, t) == Without(Queue(before, t), IdsOf(t, Flatten(dispatched)))
  }

  // Everything dispatched was due, and in every queue no later than what stayed behind though due.
  ghost predicate EarliestDispatched(before: Queues, after: Queues, slots: seq<Slot>, now: int) {
    && (forall x :: x in slots ==> WasDue(before, x, now))
    && (forall t :: EarliestLeft(Queue(before, t), Queue(after, t), now))
  }

  ghost predicate WasDue(queues: Queues, x: Slot, now: int) {
    exists e :: e in Queue(queues, x.jobType) && e.member == x.id && 0 <= e.score <= now
  }

  // One queue lost its first due entries; the others are as they were.
  ghost predicate OnlyPopped(before: Queues, after: Queues, jobType: JobType, now: int, slots: nat) {
    && Queue(after, jobType) == Popped(Queue(before, jobType), now, slots)
    && forall t :: t != jobType ==> Queue(after, t) == Queue(before, t)
  }

  predicate Distinct(order: seq<JobType>) {
    forall i, j :: 0 <= i < j < |order| ==> order[i] != order[j]
  }

  // After the first i queues: only they lost something, namely what was dispatched.
  ghost predicate Progress(order: seq<JobType>, before: Queues, after: Queues, dispatched: seq<Batch>, i: nat)
    requires i <= |order|
  {
    Removed(before, after, dispatched) && forall b :: b in dispatched ==> b.jobType in order[..i]
  }

  lemma NothingRemoved(queues: Queues)
    ensures Removed(queues, queues, [])
  {
    forall t ensures Queue(queues, t) == Without(Queue(queues, t), IdsOf(t, Flatten([]))) {
      assert IdsOf(t, Flatten([])) == {};
      WithoutNone(Queue(queues, t));
    }
  }

  lemma {:induction false} TypesOf(batches: seq<Batch>, slot: Slot)
    requires slot in Flatten(batches)
    ensures exists b :: b in batches && b.jobType == slot.jobType
  {
    if slot in Slots(batches[0].jobType, batches[0].ids) {
      assert batches[0] in batches;
    } else {
      TypesOf(batches[1..], slot);
    }
  }

  lemma NoIdsYet(order: seq<JobType>, dispatched: seq<Batch>, i: nat)
    requires Distinct(order) && i < |order| && forall b :: b in dispatched ==> b.jobType in order[..i]
    ensures IdsOf(order[i], Flatten(dispatched)) == {}
  {
    forall slot | slot in Flatten(dispatched) ensures slot.jobType != order[i] {
      TypesOf(dispatched, slot);
    }
  }

  lemma Untouched(order: seq<JobType>, before: Queues, after: Queues, dispatched: seq<Batch>, i: nat)
    requires Distinct(order) && i < |order| && Progress(order, before, after, dispatched, i)
    ensures Queue(after, order[i]) == Queue(before, order[i])
    ensures Progress(order, before, after, dispatched, i + 1)
  {
    NoIdsYet(order, dispatched, i);
    WithoutNone(Queue(before, order[i]));
    assert order[..i + 1] == order[..i] + [order[i]];
  }

  lemma IdsOfAppended(slots: seq<Slot>, batch: Batch, t: JobType)
    ensures IdsOf(t, slots + Slots(batch.jobType, batch.ids))
      == IdsOf(t, slots) + if t == batch.jobType then AsSet(batch.ids) else {}
  {
    var added := Slots(batch.jobType, batch.ids);
    forall id | id in batch.ids ensures Slot(batch.jobType, id) in added {
      var j :| 0 <= j < |batch.ids| && batch.ids[j] == id;
      assert added[j] == Slot(batch.jobType, id);
    }
  }

  lemma OneMoreRemoved(order: seq<JobType>, before: Queues, after: Queues, dispatched: seq<Batch>, batch: Batch, i: nat)
    requires Distinct(order) && i < |order| && batch.jobType == order[i]
    requires forall b :: b in dispatched ==> b.jobType in order[..i]
    requires Queue(after, batch.jobType) == Without(Queue(before, batch.jobType), AsSet(batch.ids))
    requires forall t :: t != batch.jobType ==>
      Queue(after, t) == Without(Queue(before, t), IdsOf(t, Flatten(dispatched)))
    ensures Removed(before, after, dispatched + [batch])
  {
    AppendBatch(dispatched, batch);
    NoIdsYet(order, dispatched, i);
    forall t ensures Queue(after, t) == Without(Queue(before, t), IdsOf(t, Flatten(dispatched + [batch]))) {
      IdsOfAppended(Flatten(dispatched), batch, t);
      if t == batch.jobType {
        assert {} + AsSet(batch.ids) == AsSet(batch.ids);
      } else {
        assert IdsOf(t, Flatten(dispatched)) + {} == IdsOf(t, Flatten(dispatched));
      }
    }
  }

  lemma GrantCons(queues: Queues, order: seq<JobType>, broken: set<JobType>, now: int, slots: nat)
    requires order != []
    ensures var batches := if order[0] in broken then [] else Served(queues, order[0], now, slots);
      && Total(batches) <= slots
      && Grant(queues, order, broken, now, slots)
           == batches + Grant(queues, order[1..], broken, now, slots - Total(batches))
  {
    if order[0] in broken {
      NothingBefore(Grant(queues, order[1..], broken, now, slots));
    } else {
      TotalServed(queues, order[0], now, slots);
    }
  }

  lemma AddsUp(dispatched: seq<Batch>, batches: seq<Batch>, rest: seq<Batch>)
    ensures dispatched + (batches + rest) == (dispatched + batches) + rest
    ensures Total(dispatched + batches) == Total(dispatched) + Total(batches)
  {
    Associate(dispatched, batches, rest);
    FlattenAppend(dispatched, batches);
  }

  lemma NothingBefore(batches: seq<Batch>)
    ensures [] + batches == batches && Total([]) == 0
  {
  }

  lemma GrantAt(queues: Queues, order: seq<JobType>, i: nat, broken: set<JobType>, now: int, slots: nat)
    requires i < |order|
    ensures var batches := if order[i] in broken then [] else Served(queues, order[i], now, slots);
      && Total(batches) <= slots
      && Grant(queues, order[i..], broken, now, slots)
           == batches + Grant(queues, order[i + 1..], broken, now, slots - Total(batches))
  {
    GrantCons(queues, order[i..], broken, now, slots);
    assert order[i..][1..] == order[i + 1..];
  }

  // What one queue's turn does to the dispatched batches and the queues.
  lemma TurnGrants(order: seq<JobType>, start: Queues, before: Queues, batches: seq<Batch>, i: nat,
                   broken: set<JobType>, now: int, slots: nat)
    requires i < |order| && Queue(before, order[i]) == Queue(start, order[i])
    requires batches == if order[i] in broken then [] else Served(before, order[i], now, slots)
    ensures Total(batches) <= slots
    ensures Grant(start, order[i..], broken, now, slots)
         == batches + Grant(start, order[i + 1..], broken, now, slots - Total(batches))
  {
    GrantAt(start, order, i, broken, now, slots);
  }

  lemma TurnProgresses(order: seq<JobType>, start: Queues, before: Queues, after: Queues, dispatched: seq<Batch>,
                       batches: seq<Batch>, i: nat, broken: set<JobType>, now: int, slots: nat)
    requires Distinct(order) && i < |order| && Progress(order, start, before, dispatched, i)
    requires batches == if order[i] in broken then [] else Served(before, order[i], now, slots)
    requires if order[i] in broken then after == before else OnlyPopped(before, after, order[i], now, slots)
    ensures Progress(order, start, after, dispatched + batches, i + 1)
    ensures Queue(before, order[i]) == Queue(start, order[i])
  {
    if order[i] in broken {
      PassedOver(order, start, after, dispatched, i);
    } else {
      ServedAppends(order, start, before, after, dispatched, batches, now, slots, i);
    }
    Untouched(order, start, before, dispatched, i);
  }

  lemma PassedOver(order: seq<JobType>, before: Queues, after: Queues, dispatched: seq<Batch>, i: nat)
    requires i < |order| && Progress(order, before, after, dispatched, i)
    ensures Progress(order, before, after, dispatched + [], i + 1)
  {
    assert order[..i + 1] == order[..i] + [order[i]];
    assert dispatched + [] == dispatched;
  }

  lemma TotalServed(queues: Queues, jobType: JobType, now: int, slots: nat)
    ensures Flatten(Served(queues, jobType, now, slots))
         == Slots(jobType, Members(FirstDue(Queue(queues, jobType), now, slots)))
    ensures Total(Served(queues, jobType, now, slots)) == |FirstDue(Queue(queues, jobType), now, slots)|
  {
    var ids := Members(FirstDue(Queue(queues, jobType), now, slots));
    if ids != [] {
      assert Flatten([Batch(jobType, ids)]) == Slots(jobType, ids) + Flatten([]);
    }
  }

  lemma ServedAppends(order: seq<JobType>, start: Queues, before: Queues, after: Queues, dispatched: seq<Batch>,
                      batches: seq<Batch>, now: int, slots: nat, i: nat)
    requires Distinct(order) && i < |order| && Progress(order, start, before, dispatched, i)
    requires batches == Served(before, order[i], now, slots)
    requires OnlyPopped(before, after, order[i], now, slots)
    ensures Progress(order, start, after, dispatched + batches, i + 1) && batches == Served(start, order[i], now, slots)
  {
    Untouched(order, start, before, dispatched, i);
    var ids := Members(FirstDue(Queue(before, order[i]), now, slots));
    assert order[..i + 1] == order[..i] + [order[i]];
    if ids == [] {
      assert dispatched + batches == dispatched;
      NothingPopped(Queue(before, order[i]), now, slots);
    } else {
      OneMoreRemoved(order, start, after, dispatched, Batch(order[i], ids), i);
    }
  }

  lemma AppendBatch(batches: seq<Batch>, batch: Batch)
    ensures Flatten(batches + [batch]) == Flatten(batches) + Slots(batch.jobType, batch.ids)
  {
    FlattenAppend(batches, [batch]);
    assert Flatten([batch]) == Slots(batch.jobType, batch.ids) + Flatten([]);
  }

  lemma {:induction false} RemoveBatch(batches: seq<Batch>, i: nat)
    requires i < |batches|
    ensures Total(batches[..i] + batches[i + 1..]) == Total(batches) - |batches[i].ids|
  {
    var rest := batches[..i] + batches[i + 1..];
    if i == 0 {
      assert rest == batches[1..];
    } else {
      RemoveBatch(batches[1..], i - 1);
      assert rest[1..] == batches[1..][..i - 1] + batches[1..][i..];
    }
  }

  lemma {:induction false} NoSlotsNoGrant(queues: Queues, order: seq<JobType>, broken: set<JobType>, now: int)
    ensures Grant(queues, order, broken, now, 0) == []
  {
    if order != [] {
      NoSlotsNoGrant(queues, order[1..], broken, now);
    }
  }

  lemma {:induction false} GrantNoneEmpty(queues: Queues, order: seq<JobType>, broken: set<JobType>, now: int,
                                          slots: nat)
    ensures NoneEmpty(Grant(queues, order, broken, now, slots))
  {
    if order != [] {
      var ids := Members(FirstDue(Queue(queues, order[0]), now, slots));
      GrantNoneEmpty(queues, order[1..], broken, now, if order[0] in broken then slots else slots - |ids|);
    }
  }

  /** The greedy grant takes exactly the first slots of the priority list. */
  lemma {:induction false} GrantIsFirst(queues: Queues, order: seq<JobType>, broken: set<JobType>, now: int, slots: nat)
    ensures Flatten(Grant(queues, order, broken, now, slots)) == FirstOf(DueInOrder(queues, order, broken, now), slots)
  {
    if order != [] {
      var batches := if order[0] in broken then [] else Served(queues, order[0], now, slots);
      GrantCons(queues, order, broken, now, slots);
      GrantIsFirst(queues, order[1..], broken, now, slots - Total(batches));
      FlattenAppend(batches, Grant(queues, order[1..], broken, now, slots - Total(batches)));
      FirstOfCons(queues, order, broken, now, slots, batches);
    }
  }

  lemma FirstOfCons(queues: Queues, order: seq<JobType>, broken: set<JobType>, now: int, slots: nat,
                    batches: seq<Batch>)
    requires order != [] && batches == if order[0] in broken then [] else Served(queues, order[0], now, slots)
    ensures Total(batches) <= slots
    ensures FirstOf(DueInOrder(queues, order, broken, now), slots)
      == Flatten(batches) + FirstOf(DueInOrder(queues, order[1..], broken, now), slots - Total(batches))
  {
    var rest := DueInOrder(queues, order[1..], broken, now);
    var first := if order[0] in broken then [] else Slots(order[0], Members(Due(Queue(queues, order[0]), now)));
    assert DueInOrder(queues, order, broken, now) == first + rest;
    assert Flatten(batches) == FirstOf(first, slots) by {
      if order[0] !in broken {
        TotalServed(queues, order[0], now, slots);
        SlotsPrefix(order[0], Queue(queues, order[0]), now, slots);
      }
    }
    FirstOfAppend(first, rest, slots);
  }

  // What a prefix of the due list takes from each queue

  lemma {:induction false} ListedIsDue(queues: Queues, order: seq<JobType>, broken: set<JobType>, now: int, x: Slot)
    requires x in DueInOrder(queues, order, broken, now)
    ensures x.jobType in order && WasDue(queues, x, now)
  {
    if order[0] !in broken && x in Slots(order[0], Members(Due(Queue(queues, order[0]), now))) {
      var due := Due(Queue(queues, order[0]), now);
      var i :| 0 <= i < |due| && Slots(order[0], Members(due))[i] == x;
      assert due[i] in due && due[i].member == x.id;
    } else {
      ListedIsDue(queues, order[1..], broken, now, x);
    }
  }

  lemma IdsOfBoth(t: JobType, a: seq<Slot>, b: seq<Slot>)
    ensures IdsOf(t, a + b) == IdsOf(t, a) + IdsOf(t, b)
  {
  }

  lemma IdsOfSlots(t: JobType, jobType: JobType, z: ZSet, now: int, n: nat)
    ensures IdsOf(t, FirstOf(Slots(jobType, Members(Due(z, now))), n))
         == if t == jobType then AsSet(Members(FirstDue(z, now, n))) else {}
  {
    SlotsPrefix(jobType, z, now, n);
    var batch := Batch(jobType, Members(FirstDue(z, now, n)));
    IdsOfAppended([], batch, t);
    assert [] + Slots(batch.jobType, batch.ids) == Slots(batch.jobType, batch.ids);
  }

  lemma IdsOfConcat(t: JobType, first: seq<Slot>, rest: seq<Slot>, n: nat)
    ensures IdsOf(t, FirstOf(first + rest, n)) ==
      IdsOf(t, FirstOf(first, n)) + IdsOf(t, FirstOf(rest, n - |FirstOf(first, n)|))
  {
    FirstOfAppend(first, rest, n);
    IdsOfBoth(t, FirstOf(first, n), FirstOf(rest, n - |FirstOf(first, n)|));
  }

  lemma PrefixHere(queues: Queues, order: seq<JobType>, broken: set<JobType>, now: int, n: nat, t: JobType)
    requires Distinct(order) && order != [] && order[0] == t && t !in broken
    ensures IdsOf(t, FirstOf(DueInOrder(queues, order, broken, now), n))
         == AsSet(Members(FirstDue(Queue(queues, t), now, n)))
  {
    var first := Slots(t, Members(Due(Queue(queues, t), now)));
    IdsOfConcat(t, first, DueInOrder(queues, order[1..], broken, now), n);
    IdsOfSlots(t, t, Queue(queues, t), now, n);
    NotListed(queues, order[1..], broken, now, t, n - |FirstOf(first, n)|);
  }

  lemma PrefixLater(queues: Queues, order: seq<JobType>, broken: set<JobType>, now: int, n: nat, t: JobType)
    returns (left: nat)
    requires order != [] && (order[0] != t || t in broken)
    ensures IdsOf(t, FirstOf(DueInOrder(queues, order, broken, now), n))
         == IdsOf(t, FirstOf(DueInOrder(queues, order[1..], broken, now), left))
  {
    var first := if order[0] in broken then [] else Slots(order[0], Members(Due(Queue(queues, order[0]), now)));
    left := n - |FirstOf(first, n)|;
    IdsOfConcat(t, first, DueInOrder(queues, order[1..], broken, now), n);
    NoneOfFirst(queues, order[0], broken, now, n, t);
    OnlyFirst(IdsOf(t, FirstOf(DueInOrder(queues, order[1..], broken, now), left)));
  }

  // Each queue loses its own first due entries.
  lemma {:induction false} PrefixPops(queues: Queues, order: seq<JobType>, broken: set<JobType>, now: int, n: nat,
                                      t: JobType)
    returns (m: nat)
    requires Distinct(order)
    ensures IdsOf(t, FirstOf(DueInOrder(queues, order, broken, now), n))
         == AsSet(Members(FirstDue(Queue(queues, t), now, m)))
    decreases |order|
  {
    if order == [] {
      m := 0;
    } else if order[0] == t && t !in broken {
      PrefixHere(queues, order, broken, now, n, t);
      m := n;
    } else {
      var left := PrefixLater(queues, order, broken, now, n, t);
      m := PrefixPops(queues, order[1..], broken, now, left, t);
    }
  }

  lemma OnlyFirst(ids: set<JobId>)
    ensures ids + {} == ids && {} + ids == ids
  {
  }

  lemma NoneOfFirst(queues: Queues, jobType: JobType, broken: set<JobType>, now: int, n: nat, t: JobType)
    requires jobType != t || t in broken
    ensures var first := if jobType in broken then [] else Slots(jobType, Members(Due(Queue(queues, jobType), now)));
      IdsOf(t, FirstOf(first, n)) == {}
  {
    if jobType !in broken {
      IdsOfSlots(t, jobType, Queue(queues, jobType), now, n);
    }
  }

  lemma NotListed(queues: Queues, order: seq<JobType>, broken: set<JobType>, now: int, t: JobType, n: nat)
    requires t !in order
    ensures IdsOf(t, FirstOf(DueInOrder(queues, order, broken, now), n)) == {}
  {
    forall x | x in FirstOf(DueInOrder(queues, order, broken, now), n) ensures x.jobType != t {
      ListedIsDue(queues, order, broken, now, x);
    }
  }

  lemma DispatchesEarliest(before: Queues, after: Queues, broken: set<JobType>, now: int, dispatched: seq<Batch>,
                           n: nat)
    requires AllWellformed(before) && Removed(before, after, dispatched)
    requires Flatten(dispatched) == FirstOf(DueInOrder(before, POLL_ORDER, broken, now), n)
    ensures EarliestDispatched(before, after, Flatten(dispatched), now)
  {
    forall x | x in Flatten(dispatched) ensures WasDue(before, x, now) {
      ListedIsDue(before, POLL_ORDER, broken, now, x);
    }
    forall t ensures EarliestLeft(Queue(before, t), Queue(after, t), now) {
      EarliestOfQueue(before, after, broken, now, dispatched, n, t);
    }
  }

  lemma EarliestOfQueue(before: Queues, after: Queues, broken: set<JobType>, now: int, dispatched: seq<Batch>, n: nat,
                        t: JobType)
    requires AllWellformed(before) && Removed(before, after, dispatched)
    requires Flatten(dispatched) == FirstOf(DueInOrder(before, POLL_ORDER, broken, now), n)
    ensures EarliestLeft(Queue(before, t), Queue(after, t), now)
  {
    var m := PrefixPops(before, POLL_ORDER, broken, now, n, t);
    assert Queue(after, t) == Popped(Queue(before, t), now, m);
    PopsEarliest(Queue(before, t), now, m);
  }

  lemma SlotsPrefix(jobType: JobType, z: ZSet, now: int, n: nat)
    ensures Slots(jobType, Members(FirstDue(z, now, n))) == FirstOf(Slots(jobType, Members(Due(z, now))), n)
  {
  }

  lemma FirstOfAppend<T>(a: seq<T>, b: seq<T>, n: nat)
    ensures FirstOf(a + b, n) == FirstOf(a, n) + FirstOf(b, n - |FirstOf(a, n)|)
  {
  }

  lemma {:induction false} FlattenAppend(a: seq<Batch>, b: seq<Batch>)
    ensures Flatten(a + b) == Flatten(a) + Flatten(b)
  {
    if a == [] {
      assert a + b == b;
    } else {
      FlattenAppend(a[1..], b);
      FlattenHead(a, b);
      Associate(Slots(a[0].jobType, a[0].ids), Flatten(a[1..]), Flatten(b));
    }
  }

  lemma FlattenHead(a: seq<Batch>, b: seq<Batch>)
    requires a != []
    ensures Flatten(a + b) == Slots(a[0].jobType, a[0].ids) + Flatten(a[1..] + b)
  {
    assert (a + b)[1..] == a[1..] + b;
  }

  lemma Associate<T>(x: seq<T>, y: seq<T>, z: seq<T>)
    ensures x + (y + z) == (x + y) + z
  {
  }
}
