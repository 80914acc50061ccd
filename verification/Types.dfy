/** Names and constants shared by every component (src/shared/types, src/shared/constants). */
module Types {
  datatype Option<+T> = None | Some(value: T)

  type JobId = string

  datatype JobType =
    | ReservationExpiry
    | PayoutBatch
    | OrderAbandonment
    | LowStockAlert
    | ScheduledReport

  datatype JobStatus = Pending | Running | Completed | Failed | Dead

  const STALE_RUNNING_JOB_AGE_MS := 300_000
  const BASE_DELAY_MS := 1_000
  const MAX_DELAY_MS := 60_000
  const RETRY_MULTIPLIER := 2
  const MAX_ERROR_LENGTH := 2_000

  // Numbers never run out: there is one above all of a finite set.
  lemma {:induction false} Above(used: set<nat>) returns (n: nat)
    ensures forall u :: u in used ==> u < n
    decreases used
  {
    if used == {} {
      n := 0;
    } else {
      var u :| u in used;
      var m := Above(used - {u});
      n := if u < m then m else u + 1;
      assert forall w :: w in used ==> w == u || w in used - {u};
    }
  }
}
