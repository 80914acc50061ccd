/** Dead letters and their outbox events (src/domains/dead-letter). */
module DeadLetters {
  import opened Types

  datatype Resolution = Resolution(resolvedBy: string, note: string, at: int)

  datatype DeadLetter = DeadLetter(attempts: int, lastError: string, resolution: Option<Resolution>)

  // The `job.dead.topic` event inserted into the outbox in the same transaction.
  datatype DeadEvent = DeadEvent(jobId: JobId, attempts: int)

  /** One letter per event and one event per letter, about the same job with the same attempts. */
  ghost predicate Paired(letters: map<JobId, DeadLetter>, events: seq<DeadEvent>) {
    && (forall i :: 0 <= i < |events| ==>
          events[i].jobId in letters && letters[events[i].jobId].attempts == events[i].attempts)
    && (forall i, j :: 0 <= i < j < |events| ==> events[i].jobId != events[j].jobId)
    && (forall id :: id in letters ==> Announced(id, events))
  }

  ghost predicate Announced(id: JobId, events: seq<DeadEvent>) {
    exists i :: 0 <= i < |events| && events[i].jobId == id
  }

  lemma PairedAfterCreate(letters: map<JobId, DeadLetter>, events: seq<DeadEvent>, id: JobId, letter: DeadLetter)
    requires Paired(letters, events) && id !in letters
    ensures Paired(letters[id := letter], events + [DeadEvent(id, letter.attempts)])
  {
    var events' := events + [DeadEvent(id, letter.attempts)];
    forall x | x in letters[id := letter] ensures Announced(x, events') {
      if x == id {
        assert events'[|events|].jobId == x;
      } else {
        var i :| 0 <= i < |events| && events[i].jobId == x;
        assert events'[i].jobId == x;
      }
    }
  }

  lemma {:induction false} PairedCounts(letters: map<JobId, DeadLetter>, events: seq<DeadEvent>)
    requires Paired(letters, events)
    ensures |letters| == |events|
  {
    if events == [] {
      assert letters == map[] by {
        forall id ensures id !in letters {
          assert id in letters ==> Announced(id, events);
        }
      }
    } else {
      var n := |events| - 1;
      var rest := letters - {events[n].jobId};
      forall id | id in rest ensures Announced(id, events[..n]) {
        var i :| 0 <= i < |events| && events[i].jobId == id;
        assert events[..n][i].jobId == id;
      }
      PairedCounts(rest, events[..n]);
      assert letters.Keys == rest.Keys + {events[n].jobId};
    }
  }

  class DeadLetterService {
    var letters: map<JobId, DeadLetter>
    var events: seq<DeadEvent>

    ghost predicate Valid()
      reads this
    {
      Paired(letters, events)
    }

    constructor ()
      ensures Valid() && letters == map[] && events == []
    {
      letters, events := map[], [];
    }

    // withTransaction: both inserts or neither.  The unique index on jobId refuses a second letter.
    // outboxFails stands for a failing outbox insert or commit.
    method Create(jobId: JobId, attempts: int, lastError: string, outboxFails: bool) returns (created: bool)
      requires Valid()
      modifies this
      ensures Valid()
      ensures created == (jobId !in old(letters) && !outboxFails)
      ensures letters == if created then old(letters)[jobId := DeadLetter(attempts, lastError, None)] else old(letters)
      ensures events == if created then old(events) + [DeadEvent(jobId, attempts)] else old(events)
    {
      if jobId in letters {
        return false;
      }
      PairedAfterCreate(letters, events, jobId, DeadLetter(attempts, lastError, None));
      var before := letters;
      letters := letters[jobId := DeadLetter(attempts, lastError, None)];
      if outboxFails {
        letters := before;
        return false;
      }
      events := events + [DeadEvent(jobId, attempts)];
      created := true;
    }

    // Only an unresolved letter can be resolved: the first resolution stays.
    method Resolve(jobId: JobId, resolvedBy: string, note: string, now: int) returns (letter: Option<DeadLetter>)
      requires Valid()
      modifies this`letters
      ensures Valid()
      ensures letter.Some? <==> jobId in old(letters) && old(letters)[jobId].resolution.None?
      ensures letters.Keys == old(letters).Keys
      ensures letter.Some? ==> letters[jobId] == letter.value
      ensures letter.Some? ==>
        letter.value.resolution == Some(Resolution(resolvedBy, if |note| <= 1_000 then note else note[..1_000], now))
      ensures forall id :: id in letters ==>
        letters[id].(resolution := None) == old(letters)[id].(resolution := None)
      ensures forall id :: id in letters && (id != jobId || old(letters)[id].resolution.Some?) ==>
        letters[id] == old(letters)[id]
    {
      if jobId !in letters || letters[jobId].resolution.Some? {
        return None;
      }
      var resolution := Resolution(resolvedBy, if |note| <= 1_000 then note else note[..1_000], now);
      letters := letters[jobId := letters[jobId].(resolution := Some(resolution))];
      letter := Some(letters[jobId]);
    }
  }
}
