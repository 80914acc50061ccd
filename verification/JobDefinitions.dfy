/** Idempotency keys (src/shared/constants/JOB_DEFINITIONS.ts) and the service that uses them
    (src/domains/job/job.service.ts). */
module JobDefinitions {
  import opened Types
  import opened Jobs
  import opened SortedSets
  import opened JobQueue
  import PollLoop

  type Payload = map<string, string>

  function Name(jobType: JobType): string {
    match jobType
    case ReservationExpiry => "RESERVATION_EXPIRY"
    case PayoutBatch => "PAYOUT_BATCH"
    case OrderAbandonment => "ORDER_ABANDONMENT"
    case LowStockAlert => "LOW_STOCK_ALERT"
    case ScheduledReport => "SCHEDULED_REPORT"
  }

  function MaxAttempts(jobType: JobType): int {
    match jobType
    case PayoutBatch => 3
    case ScheduledReport => 3
    case _ => 5
  }

  function Priority(jobType: JobType): nat {
    match jobType
    case ReservationExpiry => 1
    case PayoutBatch => 1
    case OrderAbandonment => 2
    case LowStockAlert => 2
    case ScheduledReport => 3
  }

  datatype Request = Request(jobType: JobType, tenantId: string, scheduledAt: int, payload: Payload, uuid: string)

  // { type: request.jobType, ...request.payload }: the payload may override the type.
  function Merged(request: Request): Payload {
    map["type" := Name(request.jobType)] + request.payload
  }

  // What a template string makes of a field.
  function Field(payload: Payload, name: string): string {
    if name in payload then payload[name] else "undefined"
  }

  // The fields that identify a job of each type.
  datatype Identity =
    | Reservation(sagaId: string)
    | Payout(weekStartDate: string)
    | Abandonment(cartId: string, stage: string)
    | LowStock(inventoryId: string)
    | Report(reportType: string, periodStart: string)

  function IdentityOf(jobType: JobType, payload: Payload): Identity {
    match jobType
    case ReservationExpiry => Reservation(Field(payload, "sagaId"))
    case PayoutBatch => Payout(Field(payload, "weekStartDate"))
    case OrderAbandonment => Abandonment(Field(payload, "cartId"), Field(payload, "stage"))
    case LowStockAlert => LowStock(Field(payload, "inventoryId"))
    case ScheduledReport => Report(Field(payload, "reportType"), Field(payload, "periodStart"))
  }

  function Key(identity: Identity): string {
    match identity
    case Reservation(sagaId) => "RESERVATION_EXPIRY:" + sagaId
    case Payout(weekStartDate) => "PAYOUT_BATCH:" + weekStartDate
    case Abandonment(cartId, stage) => "ORDER_ABANDONMENT:" + cartId + ":" + stage
    case LowStock(inventoryId) => "LOW_STOCK_ALERT:" + inventoryId
    case Report(reportType, periodStart) => "SCHEDULED_REPORT:" + reportType + ":" + periodStart
  }

  predicate Overrides(request: Request) {
    Field(Merged(request), "type") != Name(request.jobType)
  }

  function JobIdOf(request: Request): JobId {
    if Overrides(request) then request.uuid else Key(IdentityOf(request.jobType, Merged(request)))
  }

  function InputOf(request: Request): EnqueueJobInput {
    EnqueueJobInput(request.jobType, request.tenantId, request.scheduledAt, request.scheduledAt,
                    Priority(request.jobType), MaxAttempts(request.jobType), Merged(request))
  }

  // Splitting at colons

  predicate Plain(s: string) {
    ':' !in s
  }

  function TypeName(identity: Identity): string {
    match identity
    case Reservation(_) => "RESERVATION_EXPIRY"
    case Payout(_) => "PAYOUT_BATCH"
    case Abandonment(_, _) => "ORDER_ABANDONMENT"
    case LowStock(_) => "LOW_STOCK_ALERT"
    case Report(_, _) => "SCHEDULED_REPORT"
  }

  function Rest(identity: Identity): string {
    match identity
    case Reservation(sagaId) => sagaId
    case Payout(weekStartDate) => weekStartDate
    case Abandonment(cartId, stage) => cartId + ":" + stage
    case LowStock(inventoryId) => inventoryId
    case Report(reportType, periodStart) => reportType + ":" + periodStart
  }

  lemma KeyParts(identity: Identity)
    ensures Key(identity) == TypeName(identity) + ":" + Rest(identity)
  {
    match identity {
      case Abandonment(cartId, stage) =>
        assert "ORDER_ABANDONMENT:" + cartId + ":" + stage == "ORDER_ABANDONMENT" + ":" + (cartId + ":" + stage);
      case Report(reportType, periodStart) =>
        assert "SCHEDULED_REPORT:" + reportType + ":" + periodStart
            == "SCHEDULED_REPORT" + ":" + (reportType + ":" + periodStart);
      case _ =>
    }
  }

  // The five type names differ in length already.
  lemma SameTypeName(x: Identity, y: Identity)
    requires TypeName(x) == TypeName(y)
    ensures x.Reservation? == y.Reservation? && x.Payout? == y.Payout? && x.Abandonment? == y.Abandonment?
    ensures x.LowStock? == y.LowStock? && x.Report? == y.Report?
  {
    assert |TypeName(x)| == |TypeName(y)|;
  }

  lemma SplitAtFirst(a: string, b: string, c: string, d: string)
    requires a + ":" + b == c + ":" + d && Plain(a) && Plain(c)
    ensures a == c && b == d
  {
    var s := a + ":" + b;
    assert s[|a|] == ':' && s[|c|] == ':';
    assert forall i :: 0 <= i < |a| ==> s[i] == a[i];
    assert forall i :: 0 <= i < |c| ==> s[i] == c[i];
    assert |a| == |c|;
    assert a == s[..|a|] && c == s[..|c|];
    assert b == s[|a| + 1..] && d == s[|c| + 1..];
  }

  lemma SplitAtLast(a: string, b: string, c: string, d: string)
    requires a + ":" + b == c + ":" + d && Plain(b) && Plain(d)
    ensures a == c && b == d
  {
    var s := a + ":" + b;
    assert s[|a|] == ':' && s[|c|] == ':';
    assert forall i :: 0 <= i < |b| ==> s[|a| + 1 + i] == b[i];
    assert forall i :: 0 <= i < |d| ==> s[|c| + 1 + i] == d[i];
    assert |a| == |c|;
    assert a == s[..|a|] && c == s[..|c|];
    assert b == s[|a| + 1..] && d == s[|c| + 1..];
  }

  // The caller's side of the condition: a stage or report type without a colon.
  predicate Unambiguous(identity: Identity) {
    match identity
    case Abandonment(_, stage) => Plain(stage)
    case Report(reportType, _) => Plain(reportType)
    case _ => true
  }

  /** Two identities share a key exactly when they are the same. */
  lemma KeysAreInjective(x: Identity, y: Identity)
    requires Unambiguous(x) && Unambiguous(y)
    ensures Key(x) == Key(y) <==> x == y
  {
    if Key(x) == Key(y) {
      SameParts(x, y);
      SameRest(x, y);
    }
  }

  lemma PlainTypeName(identity: Identity)
    ensures Plain(TypeName(identity))
  {
  }

  lemma SameParts(x: Identity, y: Identity)
    requires Key(x) == Key(y)
    ensures TypeName(x) == TypeName(y) && Rest(x) == Rest(y)
  {
    KeyParts(x);
    KeyParts(y);
    PlainTypeName(x);
    PlainTypeName(y);
    SplitAtFirst(TypeName(x), Rest(x), TypeName(y), Rest(y));
  }

  lemma SameRest(x: Identity, y: Identity)
    requires Unambiguous(x) && Unambiguous(y) && TypeName(x) == TypeName(y) && Rest(x) == Rest(y)
    ensures x == y
  {
    SameTypeName(x, y);
    if x.Abandonment? {
      SplitAtLast(x.cartId, x.stage, y.cartId, y.stage);
    } else if x.Report? {
      SplitAtFirst(x.reportType, x.periodStart, y.reportType, y.periodStart);
    }
  }

  // Another pair of parts joins to the same text.
  ghost predicate Resplits(a: string, b: string) {
    exists c, d :: SameJoin(a, b, c, d)
  }

  ghost predicate SameJoin(a: string, b: string, c: string, d: string) {
    (c != a || d != b) && c + ":" + d == a + ":" + b
  }

  lemma ResplitsAtColonInSecond(a: string, b: string)
    requires !Plain(b)
    ensures Resplits(a, b)
  {
    var i :| 0 <= i < |b| && b[i] == ':';
    assert b == b[..i] + ":" + b[i + 1..];
    var c, d := a + ":" + b[..i], b[i + 1..];
    assert c + ":" + d == a + ":" + (b[..i] + ":" + b[i + 1..]);
    assert SameJoin(a, b, c, d);
  }

  lemma ResplitsAtColonInFirst(a: string, b: string)
    requires !Plain(a)
    ensures Resplits(a, b)
  {
    var i :| 0 <= i < |a| && a[i] == ':';
    assert a == a[..i] + ":" + a[i + 1..];
    var c, d := a[..i], a[i + 1..] + ":" + b;
    assert c + ":" + d == (a[..i] + ":" + a[i + 1..]) + ":" + b;
    assert SameJoin(a, b, c, d);
  }

  lemma PlainPartsAreUnique(a: string, b: string)
    requires Plain(a) && Plain(b)
    ensures !Resplits(a, b)
  {
    forall c, d | c + ":" + d == a + ":" + b ensures c == a && d == b {
      OneColon(c, d, a, b);
      SplitAtFirst(c, d, a, b);
    }
  }

  lemma OneColon(a: string, b: string, c: string, d: string)
    requires a + ":" + b == c + ":" + d && Plain(c) && Plain(d)
    ensures Plain(a)
  {
    var s := a + ":" + b;
    assert s[|a|] == ':';
    assert forall i :: 0 <= i < |s| && s[i] == ':' ==> i == |c|;
    forall i | 0 <= i < |a| ensures a[i] != ':' {
      assert s[i] == a[i];
    }
  }

  ghost predicate SharesKey(x: Identity) {
    exists y: Identity :: y != x && Key(y) == Key(x)
  }

  lemma SharedMeansResplit(x: Identity, a: string, b: string)
    requires x == Abandonment(a, b) || x == Report(a, b)
    ensures SharesKey(x) <==> Resplits(a, b)
  {
    if SharesKey(x) {
      var y: Identity :| y != x && Key(y) == Key(x);
      SameParts(x, y);
      SameTypeName(x, y);
      assert if x.Abandonment? then SameJoin(a, b, y.cartId, y.stage) else SameJoin(a, b, y.reportType, y.periodStart);
    }
    if Resplits(a, b) {
      var c, d :| SameJoin(a, b, c, d);
      var y := if x.Abandonment? then Abandonment(c, d) else Report(c, d);
      KeyParts(x);
      KeyParts(y);
      assert y != x && Key(y) == Key(x);
    }
  }

  /** Without that condition: the key of a two-part identity stands for another identity as well
      exactly when one of its parts has a colon. */
  lemma SharedKeyExactly(x: Identity, a: string, b: string)
    requires x == Abandonment(a, b) || x == Report(a, b)
    ensures SharesKey(x) <==> !Plain(a) || !Plain(b)
  {
    SharedMeansResplit(x, a, b);
    if !Plain(b) {
      ResplitsAtColonInSecond(a, b);
    } else if !Plain(a) {
      ResplitsAtColonInFirst(a, b);
    } else {
      PlainPartsAreUnique(a, b);
    }
  }

  /** The declared payload of an abandonment job has an orderId and no cartId, so all such requests
      of one stage share one job. */
  lemma DeclaredPayloadCollides(x: Request, y: Request)
    requires x.jobType == y.jobType == OrderAbandonment && !Overrides(x) && !Overrides(y)
    requires "cartId" !in x.payload && "cartId" !in y.payload && Field(x.payload, "stage") == Field(y.payload, "stage")
    ensures JobIdOf(x) == JobIdOf(y)
  {
  }

  /** Two requests that leave the type alone share a job id exactly when type and identifying fields
      agree; a request that overrides it never shares one with them, whatever plain uuid it draws. */
  lemma SameJobExactly(x: Request, y: Request)
    requires !Overrides(x) && Unambiguous(IdentityOf(x.jobType, Merged(x)))
    requires if Overrides(y) then Plain(y.uuid) else Unambiguous(IdentityOf(y.jobType, Merged(y)))
    ensures JobIdOf(x) == JobIdOf(y) <==>
      !Overrides(y) && IdentityOf(x.jobType, Merged(x)) == IdentityOf(y.jobType, Merged(y))
  {
    var i := IdentityOf(x.jobType, Merged(x));
    if Overrides(y) {
      KeyParts(i);
      assert Key(i)[|TypeName(i)|] == ':';
    } else {
      KeysAreInjective(i, IdentityOf(y.jobType, Merged(y)));
    }
  }

  // One document per job id

  datatype Creation = Creation(jobId: JobId, input: EnqueueJobInput)

  function CreationOf(request: Request): Creation {
    Creation(JobIdOf(request), InputOf(request))
  }

  function CreateAll(jobs: map<JobId, Job>, creations: seq<Creation>): map<JobId, Job> {
    if creations == [] then jobs
    else
      var last := creations[|creations| - 1];
      Upsert(CreateAll(jobs, creations[..|creations| - 1]), last.jobId, last.input)
  }

  ghost predicate FirstWith(creations: seq<Creation>, id: JobId, j: nat) {
    && j < |creations| && creations[j].jobId == id
    && forall m :: 0 <= m < j ==> creations[m].jobId != id
  }

  /** After any creations there is one document per job id, and it has the fields of the first one. */
  lemma {:induction false} FirstCreationWins(creations: seq<Creation>, id: JobId, j: nat)
    requires FirstWith(creations, id, j)
    ensures id in CreateAll(map[], creations) && CreateAll(map[], creations)[id] == NewJob(creations[j].input)
  {
    var n := |creations| - 1;
    if j < n {
      assert FirstWith(creations[..n], id, j);
      FirstCreationWins(creations[..n], id, j);
    } else {
      NoCreationNoJob(creations[..n], id);
    }
  }

  lemma {:induction false} NoCreationNoJob(creations: seq<Creation>, id: JobId)
    requires forall m :: 0 <= m < |creations| ==> creations[m].jobId != id
    ensures id !in CreateAll(map[], creations)
  {
    if creations != [] {
      NoCreationNoJob(creations[..|creations| - 1], id);
    }
  }

  // Priorities: the poll order follows the definitions

  // The place of a type in the poll order.
  function Rank(jobType: JobType): nat {
    match jobType
    case ReservationExpiry => 0
    case PayoutBatch => 1
    case OrderAbandonment => 2
    case LowStockAlert => 3
    case ScheduledReport => 4
  }

  ghost predicate ByRank(order: seq<JobType>) {
    forall i, j :: 0 <= i < j < |order| ==> Rank(order[i]) <= Rank(order[j])
  }

  lemma PollOrderFollowsPriority()
    ensures PollLoop.Distinct(PollLoop.POLL_ORDER) && ByRank(PollLoop.POLL_ORDER)
    ensures forall t: JobType :: t in PollLoop.POLL_ORDER
    ensures forall t: JobType, u: JobType :: Rank(t) <= Rank(u) ==> Priority(t) <= Priority(u)
  {
    var order := PollLoop.POLL_ORDER;
    assert order[0] == ReservationExpiry && order[1] == PayoutBatch && order[2] == OrderAbandonment;
    assert order[3] == LowStockAlert && order[4] == ScheduledReport;
    forall t: JobType ensures t in order {
      match t {
        case ReservationExpiry =>
        case PayoutBatch =>
        case OrderAbandonment =>
        case LowStockAlert =>
        case ScheduledReport =>
      }
    }
  }

  ghost predicate SlotsByRank(slots: seq<PollLoop.Slot>) {
    forall i, j :: 0 <= i < j < |slots| ==> Rank(slots[i].jobType) <= Rank(slots[j].jobType)
  }

  // None of the slots is of a more urgent type.
  ghost predicate NotBefore(slots: seq<PollLoop.Slot>, jobType: JobType) {
    forall i :: 0 <= i < |slots| ==> Rank(jobType) <= Rank(slots[i].jobType)
  }

  lemma JoinByRank(first: seq<PollLoop.Slot>, rest: seq<PollLoop.Slot>, jobType: JobType)
    requires SlotsByRank(rest)
    requires forall i :: 0 <= i < |first| ==> first[i].jobType == jobType
    requires NotBefore(rest, jobType)
    ensures SlotsByRank(first + rest)
  {
  }

  lemma RestIsLater(queues: Queues, order: seq<JobType>, broken: set<JobType>, now: int)
    requires ByRank(order) && order != []
    ensures NotBefore(PollLoop.DueInOrder(queues, order[1..], broken, now), order[0])
  {
    var rest := PollLoop.DueInOrder(queues, order[1..], broken, now);
    forall i | 0 <= i < |rest| ensures Rank(order[0]) <= Rank(rest[i].jobType) {
      PollLoop.ListedIsDue(queues, order[1..], broken, now, rest[i]);
      var j :| 0 <= j < |order[1..]| && order[1..][j] == rest[i].jobType;
      assert order[j + 1] == rest[i].jobType;
    }
  }

  lemma {:induction false} DueByRank(queues: Queues, order: seq<JobType>, broken: set<JobType>, now: int)
    requires ByRank(order)
    ensures SlotsByRank(PollLoop.DueInOrder(queues, order, broken, now))
  {
    if order != [] {
      DueByRank(queues, order[1..], broken, now);
      RestIsLater(queues, order, broken, now);
      var first := if order[0] in broken then []
                   else PollLoop.Slots(order[0], Members(Due(Queue(queues, order[0]), now)));
      JoinByRank(first, PollLoop.DueInOrder(queues, order[1..], broken, now), order[0]);
    }
  }

  /** However few slots a tick has, no due job of an answering queue is left behind while one of a
      less urgent type is dispatched. */
  lemma UrgentFirst(queues: Queues, broken: set<JobType>, now: int, slots: nat)
    ensures var due, granted := PollLoop.DueInOrder(queues, PollLoop.POLL_ORDER, broken, now),
                                PollLoop.Flatten(PollLoop.Grant(queues, PollLoop.POLL_ORDER, broken, now, slots));
      && granted <= due
      && forall i, j :: 0 <= i < |granted| <= j < |due| ==>
           && |granted| == slots && Rank(granted[i].jobType) <= Rank(due[j].jobType)
           && Priority(granted[i].jobType) <= Priority(due[j].jobType)
  {
    PollOrderFollowsPriority();
    DueByRank(queues, PollLoop.POLL_ORDER, broken, now);
    PollLoop.GrantIsFirst(queues, PollLoop.POLL_ORDER, broken, now, slots);
  }

  // What a request stores and which id it gets, as the table of definitions has it

  predicate Given(payload: Payload, fields: set<string>) {
    fields <= payload.Keys
  }

  // The payload leaves the type alone, or repeats it.
  predicate Keeps(payload: Payload, name: string) {
    "type" in payload ==> payload["type"] == name
  }

  // The id of a request: the text of its identifying fields, or the uuid if its payload has another type.
  predicate IsId(request: Request, id: JobId) {
    var p := request.payload;
    match request.jobType
    case ReservationExpiry =>
      if Keeps(p, "RESERVATION_EXPIRY") then Given(p, {"sagaId"}) ==> id == "RESERVATION_EXPIRY:" + p["sagaId"]
      else id == request.uuid
    case PayoutBatch =>
      if Keeps(p, "PAYOUT_BATCH") then Given(p, {"weekStartDate"}) ==> id == "PAYOUT_BATCH:" + p["weekStartDate"]
      else id == request.uuid
    case OrderAbandonment =>
      if Keeps(p, "ORDER_ABANDONMENT") then
        Given(p, {"cartId", "stage"}) ==> id == "ORDER_ABANDONMENT:" + p["cartId"] + ":" + p["stage"]
      else id == request.uuid
    case LowStockAlert =>
      if Keeps(p, "LOW_STOCK_ALERT") then Given(p, {"inventoryId"}) ==> id == "LOW_STOCK_ALERT:" + p["inventoryId"]
      else id == request.uuid
    case ScheduledReport =>
      if Keeps(p, "SCHEDULED_REPORT") then
        Given(p, {"reportType", "periodStart"}) ==>
          id == "SCHEDULED_REPORT:" + p["reportType"] + ":" + p["periodStart"]
      else id == request.uuid
  }

  // The document of a first request.
  predicate AsRequested(request: Request, job: Job) {
    var input := job.input;
    && Untouched(job)
    && input.jobType == request.jobType && input.tenantId == request.tenantId
    && input.scheduledAt == request.scheduledAt && input.nextRunAt == request.scheduledAt
    && input.priority == (match request.jobType
                          case ReservationExpiry => 1
                          case PayoutBatch => 1
                          case OrderAbandonment => 2
                          case LowStockAlert => 2
                          case ScheduledReport => 3)
    && input.maxAttempts == (match request.jobType
                             case ReservationExpiry => 5
                             case PayoutBatch => 3
                             case OrderAbandonment => 5
                             case LowStockAlert => 5
                             case ScheduledReport => 3)
    && Holds(request, input.payload)
  }

  // The payload of the request, and the type unless that has its own.
  predicate Holds(request: Request, payload: Payload) {
    && payload.Keys == request.payload.Keys + {"type"}
    && (forall field :: field in request.payload ==> payload[field] == request.payload[field])
    && ("type" !in request.payload ==>
          payload["type"] == match request.jobType
                             case ReservationExpiry => "RESERVATION_EXPIRY"
                             case PayoutBatch => "PAYOUT_BATCH"
                             case OrderAbandonment => "ORDER_ABANDONMENT"
                             case LowStockAlert => "LOW_STOCK_ALERT"
                             case ScheduledReport => "SCHEDULED_REPORT")
  }

  lemma IdAsDefined(request: Request)
    ensures IsId(request, JobIdOf(request))
  {
  }

  lemma StoredAsRequested(request: Request)
    ensures AsRequested(request, NewJob(InputOf(request)))
  {
  }

  class JobService {
    const repository: JobRepository
    const queue: RedisJobQueue

    constructor (repository: JobRepository, queue: RedisJobQueue)
      ensures this.repository == repository && this.queue == queue
    {
      this.repository, this.queue := repository, queue;
    }

    // First the document, then the queue entry; each only if it is not there yet.
    method Enqueue(request: Request) returns (job: Job)
      requires queue.Valid()
      modifies repository, queue
      ensures queue.Valid()
      ensures repository.jobs == CreateAll(old(repository.jobs), [CreationOf(request)])
      ensures var id := JobIdOf(request);
        && IsId(request, id)
        && repository.jobs.Keys == old(repository.jobs).Keys + {id} && job == repository.jobs[id]
        && (forall other :: other in old(repository.jobs) ==> repository.jobs[other] == old(repository.jobs)[other])
        && (id !in old(repository.jobs) ==> AsRequested(request, job))
        && (exists e :: e in Queue(queue.queues, request.jobType) && e.member == id)
        && (forall e :: e in Queue(queue.queues, request.jobType) && e !in Queue(old(queue.queues), request.jobType) ==>
              e == Entry(id, request.scheduledAt))
      ensures queue.queues == old(queue.queues)[request.jobType :=
        AddIfAbsent(Queue(old(queue.queues), request.jobType), Entry(JobIdOf(request), request.scheduledAt))]
    {
      assert [CreationOf(request)][..0] == [];
      IdAsDefined(request);
      StoredAsRequested(request);
      var jobId := JobIdOf(request);
      job := repository.CreateJob(jobId, InputOf(request));
      var added := queue.Enqueue(request.jobType, jobId, request.scheduledAt);
      assert added ==> Entry(jobId, request.scheduledAt) in Queue(queue.queues, request.jobType);
    }

    // Only a pending job is cancelled, and only then does its queue entry go.
    method Cancel(jobId: JobId) returns (job: Option<Job>)
      requires queue.Valid()
      modifies repository, queue
      ensures queue.Valid()
      ensures job.Some? <==> jobId in old(repository.jobs) && old(repository.jobs)[jobId].status == Pending
      ensures job.Some? ==> job.value == old(repository.jobs)[jobId].(status := Dead)
      ensures repository.jobs == Store(old(repository.jobs), jobId, job)
      ensures queue.queues == if job.None? then old(queue.queues) else
        var jobType := job.value.input.jobType;
        old(queue.queues)[jobType := Without(Queue(old(queue.queues), jobType), {jobId})]
    {
      job := repository.Cancel(jobId);
      if job.Some? {
        var _ := queue.Remove(job.value.input.jobType, jobId);
      }
    }
  }
}
