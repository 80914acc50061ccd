/** The outbox poller of src/shared/utils/outbox-poller.ts. */
module Outbox {
  const BATCH_SIZE := 50
  const MAX_RETRY_COUNT := 5

  datatype EventStatus = Pending | Completed | Dead

  // The collection is kept in creation order; the position of an event is its identity.
  datatype OutboxEvent = OutboxEvent(topic: string, status: EventStatus, retryCount: nat)

  // The filter of the find.
  predicate Due(e: OutboxEvent) {
    e.status == Pending && e.retryCount < MAX_RETRY_COUNT
  }

  ghost predicate Sound(events: seq<OutboxEvent>) {
    forall i :: 0 <= i < |events| && events[i].status == Pending ==> events[i].retryCount < MAX_RETRY_COUNT
  }

  // What becomes of an event after one attempt on the snapshot that was read.
  function Attempt(e: OutboxEvent, published: bool): OutboxEvent {
    if published then e.(status := Completed)
    else e.(status := if e.retryCount + 1 >= MAX_RETRY_COUNT then Dead else Pending, retryCount := e.retryCount + 1)
  }

  // How many events older than position i are waiting.
  function Older(events: seq<OutboxEvent>, i: nat): nat
    requires i <= |events|
  {
    if i == 0 then 0 else Older(events, i - 1) + if Due(events[i - 1]) then 1 else 0
  }

  // find, sort by createdAt, limit: the positions of the oldest waiting events among the first n.
  function Oldest(events: seq<OutboxEvent>, n: nat): (batch: seq<nat>)
    requires n <= |events|
    ensures |batch| == if Older(events, n) <= BATCH_SIZE then Older(events, n) else BATCH_SIZE
    ensures forall i :: i in batch <==> 0 <= i < n && Due(events[i]) && Older(events, i) < BATCH_SIZE
  {
    if n == 0 then []
    else Oldest(events, n - 1) + if Due(events[n - 1]) && Older(events, n - 1) < BATCH_SIZE then [n - 1] else []
  }

  // The reference for one flush: every event among the 50 oldest waiting ones is attempted once.
  function Flushed(events: seq<OutboxEvent>, published: nat -> bool): (r: seq<OutboxEvent>)
    ensures |r| == |events|
    ensures forall i :: 0 <= i < |events| ==> r[i] == FlushedAt(events, published, i)
  {
    seq(|events|, i requires 0 <= i < |events| => FlushedAt(events, published, i))
  }

  function FlushedAt(events: seq<OutboxEvent>, published: nat -> bool, i: nat): OutboxEvent
    requires i < |events|
  {
    if Due(events[i]) && Older(events, i) < BATCH_SIZE then Attempt(events[i], published(i)) else events[i]
  }

  // The older events that wait to be published.
  ghost function OlderWaiting(events: seq<OutboxEvent>, i: nat): set<nat> {
    set j | 0 <= j < i && j < |events| && events[j].status == Pending && events[j].retryCount < 5
  }

  lemma {:induction false} OlderCounts(events: seq<OutboxEvent>, i: nat)
    requires i <= |events|
    ensures Older(events, i) == |OlderWaiting(events, i)|
  {
    if i == 0 {
      assert OlderWaiting(events, 0) == {};
    } else {
      OlderCounts(events, i - 1);
      assert OlderWaiting(events, i) == OlderWaiting(events, i - 1) + if Due(events[i - 1]) then {i - 1} else {};
    }
  }

  // What becomes of an event: sent and completed, or one try fewer and dead with the fifth.
  ghost predicate Sent(e: OutboxEvent, e': OutboxEvent, published: bool) {
    && e'.topic == e.topic
    && (published ==> e'.status == Completed && e'.retryCount == e.retryCount)
    && (!published ==> e'.retryCount == e.retryCount + 1 && e'.status == if e'.retryCount == 5 then Dead else Pending)
  }

  // One flush: a waiting event with fewer than 50 older waiting ones is sent, every other one is left alone.
  ghost predicate SentOldest(before: seq<OutboxEvent>, after: seq<OutboxEvent>, published: nat -> bool) {
    |after| == |before| &&
    forall i :: 0 <= i < |before| ==>
      if before[i].status == Pending && before[i].retryCount < 5 && |OlderWaiting(before, i)| < 50
      then Sent(before[i], after[i], published(i))
      else after[i] == before[i]
  }

  /** The reference says what the source says: a publish that works completes the event. */
  lemma FlushSendsOldest(events: seq<OutboxEvent>, published: nat -> bool)
    ensures SentOldest(events, Flushed(events, published), published)
  {
    forall i | 0 <= i < |events|
      ensures if events[i].status == Pending && events[i].retryCount < 5 && |OlderWaiting(events, i)| < 50
              then Sent(events[i], FlushedAt(events, published, i), published(i))
              else FlushedAt(events, published, i) == events[i]
    {
      OlderCounts(events, i);
    }
  }

  class OutboxPoller {
    var events: seq<OutboxEvent>

    constructor (events: seq<OutboxEvent>)
      ensures this.events == events
    {
      this.events := events;
    }

    /** One flush whose database writes succeed.  published(i) says whether publishing event i works. */
    method Flush(published: nat -> bool)
      modifies this
      ensures SentOldest(old(events), events, published)
      ensures events == Flushed(old(events), published)
    {
      var found := events;
      var batch := Oldest(found, |found|);
      var n := 0;
      while n < |batch|
        invariant 0 <= n <= |batch| && |events| == |found|
        invariant forall i :: 0 <= i < |found| ==>
          events[i] == if i in batch[..n] then Attempt(found[i], published(i)) else found[i]
      {
        var i := batch[n];
        assert i in batch && batch[..n + 1] == batch[..n] + [i];
        if published(i) {
          events := events[i := found[i].(status := Completed)];
        } else {
          var newRetryCount := found[i].retryCount + 1;
          var isDead := newRetryCount >= MAX_RETRY_COUNT;
          events := events[i := found[i].(status := if isDead then Dead else Pending, retryCount := newRetryCount)];
        }
        n := n + 1;
      }
      assert batch[..|batch|] == batch;
      FlushSendsOldest(found, published);
    }
  }

  // Between two flushes any number of newer events arrive.
  datatype Round = Round(published: nat -> bool, arrivals: seq<OutboxEvent>)

  function Next(events: seq<OutboxEvent>, round: Round): (r: seq<OutboxEvent>)
    ensures |r| == |events| + |round.arrivals|
    ensures forall i :: 0 <= i < |events| ==> r[i] == FlushedAt(events, round.published, i)
    ensures forall i :: |events| <= i < |r| ==> r[i] == round.arrivals[i - |events|]
  {
    Flushed(events, round.published) + round.arrivals
  }

  function After(events: seq<OutboxEvent>, rounds: seq<Round>): (r: seq<OutboxEvent>)
    ensures |r| >= |events|
    decreases |rounds|
  {
    if rounds == [] then events else After(Next(events, rounds[0]), rounds[1..])
  }

  lemma {:induction false} AfterSplit(events: seq<OutboxEvent>, rounds: seq<Round>, n: nat)
    requires n <= |rounds|
    ensures After(events, rounds) == After(After(events, rounds[..n]), rounds[n..])
    decreases n
  {
    if n == 0 {
      assert rounds[..0] == [] && rounds[0..] == rounds;
    } else {
      assert rounds[..n][1..] == rounds[1..][..n - 1] && rounds[1..][n - 1..] == rounds[n..];
      AfterSplit(Next(events, rounds[0]), rounds[1..], n - 1);
    }
  }

  // What waits later was waiting before.
  ghost predicate Fewer(before: seq<OutboxEvent>, after: seq<OutboxEvent>) {
    |before| <= |after| && forall i :: 0 <= i < |before| && Due(after[i]) ==> Due(before[i])
  }

  lemma {:induction false} FewerOlder(before: seq<OutboxEvent>, after: seq<OutboxEvent>, i: nat)
    requires Fewer(before, after) && i <= |before|
    ensures Older(after, i) <= Older(before, i)
  {
    if i > 0 {
      FewerOlder(before, after, i - 1);
    }
  }

  lemma {:induction false} AfterFewer(events: seq<OutboxEvent>, rounds: seq<Round>)
    ensures Fewer(events, After(events, rounds))
    decreases |rounds|
  {
    if rounds != [] {
      AfterFewer(Next(events, rounds[0]), rounds[1..]);
    }
  }

  // An event among the oldest 50 is attempted in every flush until it is settled.
  lemma {:induction false} AttemptedEachFlush(events: seq<OutboxEvent>, rounds: seq<Round>, i: nat)
    requires i < |events| && Older(events, i) < BATCH_SIZE
    ensures var e := After(events, rounds)[i]; Due(e) ==> e.retryCount >= events[i].retryCount + |rounds|
    decreases |rounds|
  {
    if rounds != [] {
      var events' := Next(events, rounds[0]);
      FewerOlder(events, events', i);
      AttemptedEachFlush(events', rounds[1..], i);
      AfterFewer(events', rounds[1..]);
      assert Due(events'[i]) ==> Due(events[i]) && events'[i].retryCount == events[i].retryCount + 1;
    }
  }

  // Five flushes settle the oldest 50, so everything behind them moves up by 50.
  lemma {:induction false} MovesUp(events: seq<OutboxEvent>, rounds: seq<Round>, i: nat)
    requires i <= |events| && |rounds| == MAX_RETRY_COUNT
    ensures Older(After(events, rounds), i)
         <= if Older(events, i) < BATCH_SIZE then 0 else Older(events, i) - BATCH_SIZE
    decreases i
  {
    if i > 0 {
      MovesUp(events, rounds, i - 1);
      AfterFewer(events, rounds);
      if Older(events, i - 1) < BATCH_SIZE {
        AttemptedEachFlush(events, rounds, i - 1);
      }
    }
  }

  /** An event with p older waiting events is no longer waiting after 5 * (p / 50 + 1) flushes,
      whatever arrives behind it and whichever publishes fail. */
  lemma {:induction false} SettledInTime(events: seq<OutboxEvent>, rounds: seq<Round>, i: nat)
    requires i < |events|
    requires |rounds| >= 5 * (Older(events, i) / 50 + 1)
    ensures !Due(After(events, rounds)[i])
    decreases Older(events, i)
  {
    var first := After(events, rounds[..MAX_RETRY_COUNT]);
    AfterSplit(events, rounds, MAX_RETRY_COUNT);
    if Older(events, i) < BATCH_SIZE {
      AttemptedEachFlush(events, rounds[..MAX_RETRY_COUNT], i);
      AfterFewer(first, rounds[MAX_RETRY_COUNT..]);
    } else {
      MovesUp(events, rounds[..MAX_RETRY_COUNT], i);
      SettledInTime(first, rounds[MAX_RETRY_COUNT..], i);
    }
  }

  lemma {:induction false} StaysSound(events: seq<OutboxEvent>, rounds: seq<Round>)
    requires Sound(events) && forall r :: r in rounds ==> Sound(r.arrivals)
    ensures Sound(After(events, rounds))
    decreases |rounds|
  {
    if rounds != [] {
      assert rounds[0] in rounds;
      StaysSound(Next(events, rounds[0]), rounds[1..]);
    }
  }

  /** In a sound collection no longer waiting means completed or dead. */
  lemma CompletedOrDead(events: seq<OutboxEvent>, rounds: seq<Round>, i: nat)
    requires Sound(events) && forall r :: r in rounds ==> Sound(r.arrivals)
    requires i < |events| && |rounds| >= 5 * (Older(events, i) / 50 + 1)
    ensures After(events, rounds)[i].status in {Completed, Dead}
  {
    SettledInTime(events, rounds, i);
    StaysSound(events, rounds);
  }
}
