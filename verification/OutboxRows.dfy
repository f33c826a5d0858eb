/**
 The rows of the file outbox and its transactions as functions: enqueueing under a byte
 ceiling, leasing one row a tenant, settling, and resuming held rows. Ids stand for their
 place in the collation order and times are instants.
 */
module OutboxRows {
  import opened Wrappers

  datatype Status =
    | Ready | Leased(leaseId: string) | Held(circuitId: string) | Delivered(at: int) | Dead

  datatype Row = Row(
    id: int, tenantId: string, payload: string, availableAt: int, status: Status,
    attempts: nat, createdAt: int, updatedAt: int)

  datatype OutboxError =
    | IdempotencyConflict | QueueFull | NotFound | LeaseMismatch | LeaseInactive | CircuitMismatch

  datatype EnqueueInput = EnqueueInput(id: int, tenantId: string, payload: string, availableAt: Option<int>)

  datatype ClaimOptions = ClaimOptions(
    tenantId: Option<string>, now: int, leaseId: string, leaseMs: int, limit: int, maxPayloadBytes: int)

  datatype Verdict = RetryVerdict | PauseVerdict | RejectVerdict

  predicate ValidClaimOptions(o: ClaimOptions) {
    o.leaseId != [] && 0 < o.leaseMs && 0 < o.limit && 0 < o.maxPayloadBytes
  }

  // ---------- Queue order ----------

  predicate Before(a: Row, b: Row) {
    a.createdAt < b.createdAt || (a.createdAt == b.createdAt && a.id < b.id)
  }

  predicate Ordered(rows: seq<Row>) {
    forall i, j | 0 <= i < j < |rows| :: Before(rows[i], rows[j])
  }

  predicate UniqueIds(rows: seq<Row>) {
    forall i, j | 0 <= i < j < |rows| :: rows[i].id != rows[j].id
  }

  function IndexOf(rows: seq<Row>, id: int): (i: Option<nat>)
    ensures i.Some? ==> i.value < |rows| && rows[i.value].id == id
    ensures i.None? ==> forall j | 0 <= j < |rows| :: rows[j].id != id
  {
    if rows == [] then None
    else if rows[0].id == id then Some(0)
    else match IndexOf(rows[1..], id)
      case None => assert forall j | 1 <= j < |rows| :: rows[j] == rows[1..][j - 1]; None
      case Some(i) => Some(i + 1)
  }

  function Insert(rows: seq<Row>, row: Row): seq<Row> {
    if rows == [] || Before(row, rows[0]) then [row] + rows else [rows[0]] + Insert(rows[1..], row)
  }

  // ---------- Enqueueing ----------

  function Undelivered(row: Row): nat {
    if row.status.Delivered? then 0 else |row.payload|
  }

  function Backlog(rows: seq<Row>): nat {
    if rows == [] then 0 else Undelivered(rows[0]) + Backlog(rows[1..])
  }

  function PendingEntry(input: EnqueueInput, now: int): Row {
    Row(input.id, input.tenantId, input.payload, input.availableAt.GetOr(now), Ready, 0, now, now)
  }

  function Enqueue(rows: seq<Row>, input: EnqueueInput, max: Option<int>, now: int): (seq<Row>, Result<Row, OutboxError>) {
    var entry := PendingEntry(input, now);
    match IndexOf(rows, input.id)
    case Some(i) =>
      if rows[i].tenantId == entry.tenantId && rows[i].payload == entry.payload then (rows, Success(rows[i]))
      else (rows, Failure(IdempotencyConflict))
    case None =>
      if max.Some? && Backlog(rows) + |entry.payload| > max.value then (rows, Failure(QueueFull))
      else (Insert(rows, entry), Success(entry))
  }

  /** The enqueues of one host callback, one after the other on the staged rows. */
  function EnqueueAll(rows: seq<Row>, inputs: seq<EnqueueInput>, max: Option<int>, now: int): seq<Row>
    decreases |inputs|
  {
    if inputs == [] then rows else EnqueueAll(Enqueue(rows, inputs[0], max, now).0, inputs[1..], max, now)
  }

  // ---------- Claiming ----------

  predicate ActiveLease(row: Row, now: int) {
    row.status.Leased? && row.availableAt > now
  }

  predicate Blocks(row: Row, now: int) {
    row.status.Held? || ActiveLease(row, now)
  }

  predicate Blocked(rows: seq<Row>, tenantId: string, now: int) {
    exists i :: 0 <= i < |rows| && rows[i].tenantId == tenantId && Blocks(rows[i], now)
  }

  predicate Due(row: Row, o: ClaimOptions) {
    && (row.status.Ready? || row.status.Leased?) && row.availableAt <= o.now
    && (o.tenantId.Some? ==> row.tenantId == o.tenantId.value)
  }

  function Lease(row: Row, o: ClaimOptions): Row {
    row.(status := Leased(o.leaseId), availableAt := o.now + o.leaseMs, updatedAt := o.now)
  }

  /** Whether row `i` is taken, given the rows taken before it in queue order. */
  predicate Takes(rows: seq<Row>, i: nat, o: ClaimOptions, taken: set<string>)
    requires i < |rows|
  {
    Due(rows[i], o) && !Blocked(rows, rows[i].tenantId, o.now) && rows[i].tenantId !in taken
  }

  /** The queue walk from row `i`: the positions leased, oldest first, at most one a tenant. */
  function Taken(rows: seq<Row>, i: nat, o: ClaimOptions, taken: set<string>, count: nat, bytes: nat): seq<nat>
    requires i <= |rows|
    decreases |rows| - i
  {
    if i == |rows| || count >= o.limit then []
    else if !Takes(rows, i, o, taken) then Taken(rows, i + 1, o, taken, count, bytes)
    else if bytes + |rows[i].payload| > o.maxPayloadBytes then []
    else [i] + Taken(rows, i + 1, o, taken + {rows[i].tenantId}, count + 1, bytes + |rows[i].payload|)
  }

  function ClaimedPositions(rows: seq<Row>, o: ClaimOptions): seq<nat> {
    Taken(rows, 0, o, {}, 0, 0)
  }

  function LeaseRows(rows: seq<Row>, positions: seq<nat>, o: ClaimOptions): seq<Row> {
    seq(|rows|, i requires 0 <= i < |rows| => if i in positions then Lease(rows[i], o) else rows[i])
  }

  function Claim(rows: seq<Row>, o: ClaimOptions): seq<Row> {
    if ValidClaimOptions(o) then LeaseRows(rows, ClaimedPositions(rows, o), o) else rows
  }

  // ---------- Settling ----------

  function LeaseFault(row: Row, leaseId: Option<string>): Option<OutboxError> {
    if row.status.Leased? then
      if leaseId == Some(row.status.leaseId) then None else Some(LeaseMismatch)
    else if leaseId.Some? then Some(LeaseInactive) else None
  }

  function Settle(rows: seq<Row>, id: int, leaseId: Option<string>, settled: Row -> Row): (seq<Row>, Result<Row, OutboxError>) {
    match IndexOf(rows, id)
    case None => (rows, Failure(NotFound))
    case Some(i) =>
      match LeaseFault(rows[i], leaseId)
      case Some(e) => (rows, Failure(e))
      case None => (rows[i := settled(rows[i])], Success(settled(rows[i])))
  }

  function DeliveredRow(row: Row, at: int): Row {
    row.(status := Delivered(at), updatedAt := at)
  }

  function FailedRow(row: Row, verdict: Verdict, availableAt: Option<int>, circuitId: string, now: int): Row {
    var r := row.(attempts := row.attempts + 1, updatedAt := now);
    match verdict
    case RejectVerdict => r.(status := Dead)
    case PauseVerdict => r.(status := Held(circuitId))
    case RetryVerdict => r.(status := Ready, availableAt := availableAt.GetOr(now))
  }

  // ---------- Resuming ----------

  predicate HeldBy(row: Row, tenantId: string) {
    row.tenantId == tenantId && row.status.Held?
  }

  function Rearm(rows: seq<Row>, tenantId: string, limit: nat, now: int): seq<Row> {
    if rows == [] then []
    else if limit > 0 && HeldBy(rows[0], tenantId)
      then [rows[0].(status := Ready, availableAt := now, updatedAt := now)] + Rearm(rows[1..], tenantId, limit - 1, now)
    else [rows[0]] + Rearm(rows[1..], tenantId, limit, now)
  }

  predicate WrongCircuit(row: Row, tenantId: string, circuitId: string) {
    HeldBy(row, tenantId) && row.status.circuitId != circuitId
  }

  /** Re-arms held rows only when every one of them names the acknowledged circuit. */
  function Resume(rows: seq<Row>, tenantId: string, circuitId: string, limit: nat, now: int): (seq<Row>, Option<OutboxError>) {
    if exists i :: 0 <= i < |rows| && WrongCircuit(rows[i], tenantId, circuitId) then (rows, Some(CircuitMismatch))
    else (Rearm(rows, tenantId, limit, now), None)
  }

  // ---------- Runs ----------

  datatype OutboxOp =
    | EnqueueOp(inputs: seq<EnqueueInput>, commits: bool, at: int)
    | ClaimOp(options: ClaimOptions)
    | DeliverOp(id: int, leaseId: Option<string>, at: int)
    | FailOp(id: int, leaseId: Option<string>, verdict: Verdict, availableAt: Option<int>, circuitId: string, at: int)
    | ResumeOp(tenantId: string, circuitId: string, limit: nat, at: int)

  function Perform(rows: seq<Row>, op: OutboxOp, max: Option<int>): seq<Row> {
    match op
    case EnqueueOp(inputs, commits, at) => if commits then EnqueueAll(rows, inputs, max, at) else rows
    case ClaimOp(o) => Claim(rows, o)
    case DeliverOp(id, leaseId, at) => Settle(rows, id, leaseId, r => DeliveredRow(r, at)).0
    case FailOp(id, leaseId, verdict, availableAt, circuitId, at) =>
      Settle(rows, id, leaseId, r => FailedRow(r, verdict, availableAt, circuitId, at)).0
    case ResumeOp(tenantId, circuitId, limit, at) => Resume(rows, tenantId, circuitId, limit, at).0
  }

  function PerformAll(rows: seq<Row>, ops: seq<OutboxOp>, max: Option<int>): seq<Row>
    decreases |ops|
  {
    if ops == [] then rows else PerformAll(Perform(rows, ops[0], max), ops[1..], max)
  }
}
