/**
 The six tables of one tenant of the checkpointing audit store, and every transaction as a
 function from tables to tables. A refused transaction is rolled back: it returns the
 tables it was given. Rows of other tenants are other values of `Tables`.
 */
module AuditTables {
  import opened Wrappers
  import opened Protocol

  datatype ChainState = ChainState(
    tipSequence: int,
    tipHash: Option<Digest>,
    minimumRetained: int,
    latestCheckpointHash: Option<Digest>,
    fence: int)

  /** A ledger row; `record` is gone once the record's range has been disposed of. */
  datatype LedgerEntry = LedgerEntry(eventHash: Digest, sequence: int, recordHash: Digest, record: Option<AuditRecord>)

  datatype AttemptStatus = Pending | Disposed

  datatype DispositionAttempt = DispositionAttempt(
    attemptId: string, checkpointHash: Digest, policyFence: int, status: AttemptStatus)

  datatype Tables = Tables(
    tenantId: string,
    hot: seq<AuditRecord>,
    state: ChainState,
    ledger: map<Digest, LedgerEntry>,
    checkpoints: seq<RetentionCheckpoint>,
    attempts: map<Digest, DispositionAttempt>,
    receipts: map<Digest, RetentionDisposition>)

  datatype StoreError =
    | InvalidInput | OtherTenant | InvalidChainState | RecordIntegrity | UniqueViolation
    | IdempotencyConflict | IdempotencyHistoryDisposed | StaleTip
    | FenceMismatch | FenceExhausted
    | ChainStateMismatch | InvalidCheckpoint | CheckpointTenantMismatch | RangeExceedsTip
    | CheckpointPrefixMismatch | NotIntactHotPrefix | RangeIntegrity | BoundaryMismatch
    | AttemptBindingMismatch | CheckpointNotFound | AlreadyConfirmed | AttemptConflict
    | AttemptMismatch | ConflictingReceipt | AttemptNotPending | InvalidDisposition

  // ---------- Validators ----------

  predicate ValidFence(fence: int) {
    0 <= fence <= MAX_SAFE_INTEGER
  }

  predicate ValidChainState(s: ChainState) {
    && 0 <= s.tipSequence <= MAX_SAFE_INTEGER
    && 1 <= s.minimumRetained <= MAX_SAFE_INTEGER
    && s.minimumRetained <= s.tipSequence + 1
    && (s.tipSequence == 0 <==> s.tipHash.None?)
    && (s.minimumRetained == 1 <==> s.latestCheckpointHash.None?)
    && ValidFence(s.fence)
  }

  predicate ValidStoredRecord(r: AuditRecord, tenantId: string) {
    IntactRecord(r, tenantId) && 1 <= r.body.sequence
  }

  predicate ValidCheckpointInput(c: CheckpointBody) {
    && c.chainKind == AuditChain
    && SafePositive(c.epoch) && SafePositive(c.fromSequence)
    && SafePositive(c.throughSequence) && SafePositive(c.recordCount)
    && c.fromSequence <= c.throughSequence
    && c.recordCount == c.throughSequence - c.fromSequence + 1
    && if c.epoch == 1
       then c.fromSequence == 1 && c.fromPreviousHash.None? && c.previousCheckpointHash.None?
       else c.fromPreviousHash.Some? && c.previousCheckpointHash.Some?
  }

  predicate ValidCheckpoint(c: RetentionCheckpoint) {
    && c.body.header == SupportedHeader
    && ValidCheckpointInput(c.body)
    && c.hash == CheckpointDigest(c.body)
  }

  predicate ValidDispositionInput(d: DispositionBody) {
    && d.chainKind == AuditChain
    && SafePositive(d.fromSequence) && SafePositive(d.throughSequence)
    && d.fromSequence <= d.throughSequence
  }

  predicate ValidDisposition(d: RetentionDisposition, c: RetentionCheckpoint) {
    && ValidCheckpoint(c)
    && d.body.header == SupportedHeader
    && ValidDispositionInput(d.body)
    && d.hash == DispositionDigest(d.body)
    && d.body.tenantId == c.body.tenantId
    && d.body.chainKind == c.body.chainKind
    && d.body.checkpointHash == c.hash
    && d.body.fromSequence == c.body.fromSequence
    && d.body.throughSequence == c.body.throughSequence
    && d.body.archiveRootHash == c.body.archiveRootHash
  }

  // ---------- Queries ----------

  function FindByKey(hot: seq<AuditRecord>, keyHash: Digest): Option<AuditRecord> {
    if hot == [] then None
    else if hot[0].body.idempotencyKeyHash == keyHash then Some(hot[0])
    else FindByKey(hot[1..], keyHash)
  }

  predicate Between(r: AuditRecord, from: int, through: int) {
    from <= r.body.sequence <= through
  }

  function RowsBetween(hot: seq<AuditRecord>, from: int, through: int): seq<AuditRecord> {
    if hot == [] then []
    else (if Between(hot[0], from, through) then [hot[0]] else []) + RowsBetween(hot[1..], from, through)
  }

  function RowsOutside(hot: seq<AuditRecord>, from: int, through: int): seq<AuditRecord> {
    if hot == [] then []
    else (if Between(hot[0], from, through) then [] else [hot[0]]) + RowsOutside(hot[1..], from, through)
  }

  /** The stored checkpoint of the greatest epoch, as sorting by epoch and taking the last gives it. */
  function LatestCheckpoint(checkpoints: seq<RetentionCheckpoint>): Option<RetentionCheckpoint> {
    if checkpoints == [] then None
    else
      var last := checkpoints[|checkpoints| - 1];
      match LatestCheckpoint(checkpoints[..|checkpoints| - 1])
      case Some(c) => if c.body.epoch > last.body.epoch then Some(c) else Some(last)
      case None => Some(last)
  }

  function CheckpointByHash(checkpoints: seq<RetentionCheckpoint>, hash: Digest): Option<RetentionCheckpoint> {
    if checkpoints == [] then None
    else if checkpoints[0].hash == hash then Some(checkpoints[0])
    else CheckpointByHash(checkpoints[1..], hash)
  }

  function CheckpointAtEpoch(checkpoints: seq<RetentionCheckpoint>, epoch: int): Option<RetentionCheckpoint> {
    if checkpoints == [] then None
    else if checkpoints[0].body.epoch == epoch then Some(checkpoints[0])
    else CheckpointAtEpoch(checkpoints[1..], epoch)
  }

  /** Upserts one permanent tombstone per disposed record. */
  function Tombstoned(ledger: map<Digest, LedgerEntry>, records: seq<AuditRecord>): map<Digest, LedgerEntry> {
    if records == [] then ledger
    else
      var r := records[|records| - 1];
      Tombstoned(ledger, records[..|records| - 1])
      [r.body.idempotencyKeyHash := LedgerEntry(EventDigest(r.body.event), r.body.sequence, r.hash, None)]
  }

  // ---------- Transactions ----------

  function BuildRecord(event: Event, sequence: int, previousHash: Option<Digest>, keyHash: Digest, now: int): AuditRecord {
    var body := RecordBody(event, sequence, previousHash, Sha256, VeritioJsonV1, now, keyHash);
    AuditRecord(body, RecordDigest(body))
  }

  function LiveEntry(record: AuditRecord): LedgerEntry {
    LedgerEntry(EventDigest(record.body.event), record.body.sequence, record.hash, Some(record))
  }

  function Append(t: Tables, event: Event, key: Option<string>, expectedPrevious: Option<Option<Digest>>, now: int)
    : (Tables, Result<AuditRecord, StoreError>)
  {
    var idempotencyKey := key.GetOr(event.id);
    var keyHash := HashIdempotencyKey(t.tenantId, idempotencyKey);
    if event.tenantId != t.tenantId then (t, Failure(OtherTenant))
    else if Blank(t.tenantId) || Blank(idempotencyKey) then (t, Failure(InvalidInput))
    else if !ValidChainState(t.state) then (t, Failure(InvalidChainState))
    else if keyHash in t.ledger then (t, Replay(t.ledger[keyHash], event, t.tenantId))
    else match FindByKey(t.hot, keyHash)
      case Some(record) =>
        if !ValidStoredRecord(record, t.tenantId) then (t, Failure(RecordIntegrity))
        else if record.body.event != event then (t, Failure(IdempotencyConflict))
        else (t.(ledger := t.ledger[keyHash := LiveEntry(record)]), Success(record))
      case None => AppendNew(t, event, keyHash, expectedPrevious, now)
  }

  /** The answer the ledger gives for a key it already knows. */
  function Replay(entry: LedgerEntry, event: Event, tenantId: string): Result<AuditRecord, StoreError> {
    if entry.eventHash != EventDigest(event) then Failure(IdempotencyConflict)
    else match entry.record
      case None => Failure(IdempotencyHistoryDisposed)
      case Some(record) =>
        if ValidStoredRecord(record, tenantId) then Success(record) else Failure(RecordIntegrity)
  }

  function AppendNew(t: Tables, event: Event, keyHash: Digest, expectedPrevious: Option<Option<Digest>>, now: int)
    : (Tables, Result<AuditRecord, StoreError>)
  {
    if expectedPrevious.Some? && expectedPrevious.value != t.state.tipHash then (t, Failure(StaleTip))
    else
      var record := BuildRecord(event, t.state.tipSequence + 1, t.state.tipHash, keyHash, now);
      var next := t.state.(tipSequence := record.body.sequence, tipHash := Some(record.hash));
      if RowsBetween(t.hot, record.body.sequence, record.body.sequence) != [] then (t, Failure(UniqueViolation))
      else if !ValidChainState(next) then (t, Failure(InvalidChainState))
      else (t.(hot := t.hot + [record], ledger := t.ledger[keyHash := LiveEntry(record)], state := next), Success(record))
  }

  function AdvanceFence(t: Tables, expected: int): (Tables, Result<int, StoreError>) {
    if !ValidFence(expected) then (t, Failure(InvalidInput))
    else if !ValidChainState(t.state) then (t, Failure(InvalidChainState))
    else if t.state.fence != expected then (t, Failure(FenceMismatch))
    else if t.state.fence + 1 > MAX_SAFE_INTEGER then (t, Failure(FenceExhausted))
    else (t.(state := t.state.(fence := t.state.fence + 1)), Success(t.state.fence + 1))
  }

  /** Exact state, fence, shape, tenant and range ceiling of a compaction request. */
  function EnvelopeError(t: Tables, c: RetentionCheckpoint, expected: ChainState, fence: int): Option<StoreError> {
    if t.state != expected then Some(ChainStateMismatch)
    else if fence != t.state.fence then Some(FenceMismatch)
    else if !ValidCheckpoint(c) then Some(InvalidCheckpoint)
    else if c.body.tenantId != t.tenantId then Some(CheckpointTenantMismatch)
    else if c.body.throughSequence > t.state.tipSequence then Some(RangeExceedsTip)
    else None
  }

  /** The next epoch, linked to the stored one, starting at the retained prefix. */
  predicate ExtendsCheckpoints(c: RetentionCheckpoint, s: ChainState, previous: Option<RetentionCheckpoint>) {
    && c.body.epoch == (match previous case Some(p) => p.body.epoch + 1 case None => 1)
    && c.body.previousCheckpointHash == (match previous case Some(p) => Some(p.hash) case None => None)
    && c.body.fromSequence == s.minimumRetained
    && c.body.fromPreviousHash == (match previous case Some(p) => Some(p.body.throughHash) case None => None)
    && s.latestCheckpointHash == (match previous case Some(p) => Some(p.hash) case None => None)
  }

  /** The hot rows of the range are exactly the linked records the checkpoint covers. */
  function RangeError(c: RetentionCheckpoint, records: seq<AuditRecord>, tenantId: string): Option<StoreError> {
    if exists i | 0 <= i < |records| :: !ValidStoredRecord(records[i], tenantId) then Some(RecordIntegrity)
    else if |records| != c.body.recordCount then Some(NotIntactHotPrefix)
    else if !LinkedRange(records, tenantId, c.body.fromSequence, c.body.fromPreviousHash) then Some(RangeIntegrity)
    else if EndHash(records, c.body.fromPreviousHash) != Some(c.body.throughHash) then Some(BoundaryMismatch)
    else None
  }

  function CompactionError(t: Tables, c: RetentionCheckpoint, expected: ChainState, fence: int): Option<StoreError> {
    if !ValidChainState(expected) || !ValidFence(fence) then Some(InvalidInput)
    else if !ValidChainState(t.state) then Some(InvalidChainState)
    else
      var envelope := EnvelopeError(t, c, expected, fence);
      if envelope.Some? then envelope
      else if !ExtendsCheckpoints(c, t.state, LatestCheckpoint(t.checkpoints)) then Some(CheckpointPrefixMismatch)
      else
        var range := RangeError(c, RowsBetween(t.hot, c.body.fromSequence, c.body.throughSequence), t.tenantId);
        if range.Some? then range
        else if CheckpointAtEpoch(t.checkpoints, c.body.epoch).Some? || CheckpointByHash(t.checkpoints, c.hash).Some?
          then Some(UniqueViolation)
        else if c.body.throughSequence + 1 > MAX_SAFE_INTEGER then Some(InvalidChainState)
        else None
  }

  function Compacted(t: Tables, c: RetentionCheckpoint): Tables {
    t.(hot := RowsOutside(t.hot, c.body.fromSequence, c.body.throughSequence),
       ledger := Tombstoned(t.ledger, RowsBetween(t.hot, c.body.fromSequence, c.body.throughSequence)),
       checkpoints := t.checkpoints + [c],
       state := t.state.(minimumRetained := c.body.throughSequence + 1, latestCheckpointHash := Some(c.hash)))
  }

  function CompactRange(t: Tables, c: RetentionCheckpoint, expected: ChainState, fence: int)
    : (Tables, Result<(), StoreError>)
  {
    match CompactionError(t, c, expected, fence)
    case Some(e) => (t, Failure(e))
    case None => (Compacted(t, c), Success(()))
  }

  function PrepareDisposition(t: Tables, checkpointHash: Digest, attempt: DispositionAttempt, expectedFence: int)
    : (Tables, Result<DispositionAttempt, StoreError>)
  {
    if !ValidFence(attempt.policyFence) || !ValidFence(expectedFence) then (t, Failure(InvalidInput))
    else if !ValidChainState(t.state) then (t, Failure(InvalidChainState))
    else if t.state.fence != expectedFence || attempt.policyFence != expectedFence then (t, Failure(FenceMismatch))
    else if attempt.status != Pending || attempt.checkpointHash != checkpointHash then (t, Failure(AttemptBindingMismatch))
    else if CheckpointByHash(t.checkpoints, checkpointHash).None? then (t, Failure(CheckpointNotFound))
    else if checkpointHash in t.receipts then (t, Failure(AlreadyConfirmed))
    else if checkpointHash in t.attempts then
      var existing := t.attempts[checkpointHash];
      if existing == attempt then (t, Success(existing))
      else if existing.status != Pending || attempt.policyFence <= existing.policyFence then (t, Failure(AttemptConflict))
      else (t.(attempts := t.attempts[checkpointHash := attempt]), Success(attempt))
    else (t.(attempts := t.attempts[checkpointHash := attempt]), Success(attempt))
  }

  function ConfirmDisposition(t: Tables, receipt: RetentionDisposition, expectedAttemptId: string, expectedFence: int)
    : (Tables, Result<(), StoreError>)
  {
    var h := receipt.body.checkpointHash;
    if Blank(expectedAttemptId) || !ValidFence(expectedFence) then (t, Failure(InvalidInput))
    else if !ValidChainState(t.state) then (t, Failure(InvalidChainState))
    else if t.state.fence != expectedFence then (t, Failure(FenceMismatch))
    else if h !in t.attempts then (t, Failure(AttemptMismatch))
    else
      var attempt := t.attempts[h];
      if attempt.attemptId != expectedAttemptId || attempt.policyFence != expectedFence then (t, Failure(AttemptMismatch))
      else match CheckpointByHash(t.checkpoints, h)
        case None => (t, Failure(CheckpointNotFound))
        case Some(checkpoint) =>
          if h in t.receipts then
            if attempt.status == Disposed && t.receipts[h] == receipt then (t, Success(()))
            else (t, Failure(ConflictingReceipt))
          else if attempt.status != Pending then (t, Failure(AttemptNotPending))
          else if !ValidDisposition(receipt, checkpoint) then (t, Failure(InvalidDisposition))
          else
            (t.(receipts := t.receipts[h := receipt],
                attempts := t.attempts[h := attempt.(status := Disposed)]), Success(()))
  }

  // ---------- Runs ----------

  datatype Operation =
    | AppendOp(event: Event, key: Option<string>, expectedPrevious: Option<Option<Digest>>, now: int)
    | AdvanceFenceOp(expected: int)
    | CompactOp(checkpoint: RetentionCheckpoint, expectedState: ChainState, fence: int)
    | PrepareOp(checkpointHash: Digest, attempt: DispositionAttempt, expectedFence: int)
    | ConfirmOp(receipt: RetentionDisposition, expectedAttemptId: string, expectedFence: int)

  /** One transaction, whatever its outcome. */
  function Apply(t: Tables, op: Operation): Tables {
    match op
    case AppendOp(event, key, expectedPrevious, now) => Append(t, event, key, expectedPrevious, now).0
    case AdvanceFenceOp(expected) => AdvanceFence(t, expected).0
    case CompactOp(checkpoint, expectedState, fence) => CompactRange(t, checkpoint, expectedState, fence).0
    case PrepareOp(checkpointHash, attempt, expectedFence) => PrepareDisposition(t, checkpointHash, attempt, expectedFence).0
    case ConfirmOp(receipt, attemptId, expectedFence) => ConfirmDisposition(t, receipt, attemptId, expectedFence).0
  }

  function Run(t: Tables, ops: seq<Operation>): Tables
    decreases |ops|
  {
    if ops == [] then t else Run(Apply(t, ops[0]), ops[1..])
  }
}
