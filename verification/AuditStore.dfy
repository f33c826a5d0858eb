/**
 The checkpointing audit store of one tenant: its tables are fields that the transactions
 update in place. Every transaction is proved to do what its specification in `AuditTables`
 says, and nothing at all when it is refused.
 */
module AuditStore {
  import opened Wrappers
  import opened Protocol
  import Spec = AuditTables
  import opened AuditTables

  class SqlAuditStore {
    const tenantId: string
    var hot: seq<AuditRecord>
    var state: ChainState
    var ledger: map<Digest, LedgerEntry>
    var checkpoints: seq<RetentionCheckpoint>
    var attempts: map<Digest, DispositionAttempt>
    var receipts: map<Digest, RetentionDisposition>

    function View(): Tables
      reads this
    {
      Tables(tenantId, hot, state, ledger, checkpoints, attempts, receipts)
    }

    /** Opens the store over a tenant's legacy rows, seeding the state row from the last of them. */
    constructor (tenantId: string, legacy: seq<AuditRecord>)
      ensures View() == Tables(tenantId, legacy,
                               ChainState(|legacy|, EndHash(legacy, None), 1, None, 0), map[], [], map[], map[])
    {
      this.tenantId := tenantId;
      hot := legacy;
      state := ChainState(|legacy|, EndHash(legacy, None), 1, None, 0);
      ledger, checkpoints, attempts, receipts := map[], [], map[], map[];
    }

    method SelectByKey(keyHash: Digest) returns (row: Option<AuditRecord>)
      ensures row == FindByKey(hot, keyHash)
    {
      for i := 0 to |hot|
        invariant FindByKey(hot, keyHash) == FindByKey(hot[i..], keyHash)
      {
        if hot[i].body.idempotencyKeyHash == keyHash {
          return Some(hot[i]);
        }
        assert hot[i..][1..] == hot[i + 1..];
      }
      return None;
    }

    method SelectRange(from: int, through: int) returns (rows: seq<AuditRecord>)
      ensures rows == RowsBetween(hot, from, through)
    {
      rows := [];
      for i := 0 to |hot|
        invariant rows + RowsBetween(hot[i..], from, through) == RowsBetween(hot, from, through)
      {
        assert hot[i..][1..] == hot[i + 1..];
        if Between(hot[i], from, through) {
          rows := rows + [hot[i]];
        }
      }
    }

    method DeleteRange(from: int, through: int)
      modifies this`hot
      ensures hot == RowsOutside(old(hot), from, through)
    {
      hide Between, RowsOutside;
      var rows, kept: seq<AuditRecord> := hot, [];
      for i := 0 to |rows|
        invariant kept + RowsOutside(rows[i..], from, through) == RowsOutside(rows, from, through)
      {
        NextOutside(rows, i, from, through);
        if !Between(rows[i], from, through) {
          kept := kept + [rows[i]];
        }
      }
      NextOutside(rows, |rows|, from, through);
      hot := kept;
    }

    static lemma NextOutside(rows: seq<AuditRecord>, i: nat, from: int, through: int)
      requires i <= |rows|
      ensures RowsOutside(rows[i..], from, through)
           == if i == |rows| then []
              else (if Between(rows[i], from, through) then [] else [rows[i]]) + RowsOutside(rows[i + 1..], from, through)
    {
      assert i < |rows| ==> rows[i..][1..] == rows[i + 1..];
    }

    method SelectLatestCheckpoint() returns (latest: Option<RetentionCheckpoint>)
      ensures latest == LatestCheckpoint(checkpoints)
    {
      latest := None;
      for i := 0 to |checkpoints|
        invariant latest == LatestCheckpoint(checkpoints[..i])
      {
        assert checkpoints[..i + 1][..i] == checkpoints[..i];
        if latest.None? || latest.value.body.epoch <= checkpoints[i].body.epoch {
          latest := Some(checkpoints[i]);
        }
      }
      assert checkpoints[..|checkpoints|] == checkpoints;
    }

    method SelectCheckpoint(hash: Digest) returns (row: Option<RetentionCheckpoint>)
      ensures row == CheckpointByHash(checkpoints, hash)
    {
      for i := 0 to |checkpoints|
        invariant CheckpointByHash(checkpoints, hash) == CheckpointByHash(checkpoints[i..], hash)
      {
        if checkpoints[i].hash == hash {
          return Some(checkpoints[i]);
        }
        assert checkpoints[i..][1..] == checkpoints[i + 1..];
      }
      return None;
    }

    /** Appends one event, or replays the record its idempotency key already names. */
    method Append(event: Event, key: Option<string>, expectedPrevious: Option<Option<Digest>>, now: int)
      returns (r: Result<AuditRecord, StoreError>)
      modifies this`hot, this`ledger, this`state
      ensures (View(), r) == Spec.Append(old(View()), event, key, expectedPrevious, now)
    {
      hide FindByKey, ValidStoredRecord, ValidChainState, RowsBetween, Blank, HashIdempotencyKey;
      var idempotencyKey := key.GetOr(event.id);
      if event.tenantId != tenantId { return Failure(OtherTenant); }
      if Blank(tenantId) || Blank(idempotencyKey) { return Failure(InvalidInput); }
      var keyHash := HashIdempotencyKey(tenantId, idempotencyKey);
      if !ValidChainState(state) { return Failure(InvalidChainState); }
      if keyHash in ledger {
        var entry := ledger[keyHash];
        if entry.eventHash != EventDigest(event) { return Failure(IdempotencyConflict); }
        if entry.record.None? { return Failure(IdempotencyHistoryDisposed); }
        if !ValidStoredRecord(entry.record.value, tenantId) { return Failure(RecordIntegrity); }
        return Success(entry.record.value);
      }
      var legacy := SelectByKey(keyHash);
      if legacy.Some? {
        var row := legacy.value;
        if !ValidStoredRecord(row, tenantId) { return Failure(RecordIntegrity); }
        if row.body.event != event { return Failure(IdempotencyConflict); }
        ledger := ledger[keyHash := LedgerEntry(EventDigest(event), row.body.sequence, row.hash, Some(row))];
        return Success(row);
      }
      r := InsertNew(event, keyHash, expectedPrevious, now);
    }

    method InsertNew(event: Event, keyHash: Digest, expectedPrevious: Option<Option<Digest>>, now: int)
      returns (r: Result<AuditRecord, StoreError>)
      modifies this`hot, this`ledger, this`state
      ensures (View(), r) == AppendNew(old(View()), event, keyHash, expectedPrevious, now)
    {
      hide ValidChainState, RowsBetween;
      var previousHash := state.tipHash;
      if expectedPrevious.Some? && expectedPrevious.value != previousHash { return Failure(StaleTip); }
      var body := RecordBody(event, state.tipSequence + 1, previousHash, Sha256, VeritioJsonV1, now, keyHash);
      var record := AuditRecord(body, RecordDigest(body));
      var sameSequence := SelectRange(body.sequence, body.sequence);
      if sameSequence != [] { return Failure(UniqueViolation); }
      var next := state.(tipSequence := body.sequence, tipHash := Some(record.hash));
      if !ValidChainState(next) { return Failure(InvalidChainState); }
      hot := hot + [record];
      ledger := ledger[keyHash := LedgerEntry(EventDigest(event), body.sequence, record.hash, Some(record))];
      state := next;
      return Success(record);
    }

    /** Advances the opaque policy fence on an exact compare-and-swap match. */
    method AdvanceRetentionPolicyFence(expected: int) returns (r: Result<int, StoreError>)
      modifies this`state
      ensures (View(), r) == AdvanceFence(old(View()), expected)
      ensures r.Success? <==> ValidChainState(old(state)) && expected == old(state).fence && expected < MAX_SAFE_INTEGER
      ensures r.Success? ==> r.value == expected + 1 && state == old(state).(fence := expected + 1)
      ensures r.Failure? ==> state == old(state)
    {
      if !ValidFence(expected) { return Failure(InvalidInput); }
      if !ValidChainState(state) { return Failure(InvalidChainState); }
      if state.fence != expected { return Failure(FenceMismatch); }
      var next := state.fence + 1;
      if next > MAX_SAFE_INTEGER { return Failure(FenceExhausted); }
      state := state.(fence := next);
      return Success(next);
    }

    /** The loop that revalidates every hot record of a checkpoint's range. */
    method CheckRange(c: RetentionCheckpoint, rows: seq<AuditRecord>) returns (e: Option<StoreError>)
      ensures e == RangeError(c, rows, tenantId)
    {
      for i := 0 to |rows|
        invariant forall j | 0 <= j < i :: ValidStoredRecord(rows[j], tenantId)
      {
        if !ValidStoredRecord(rows[i], tenantId) { return Some(RecordIntegrity); }
      }
      if |rows| != c.body.recordCount { return Some(NotIntactHotPrefix); }
      var expectedPrevious := c.body.fromPreviousHash;
      for i := 0 to |rows|
        invariant expectedPrevious == LinkAt(rows, i, c.body.fromPreviousHash)
        invariant forall j | 0 <= j < i :: LinkedAt(rows, j, tenantId, c.body.fromSequence, c.body.fromPreviousHash)
      {
        var record := rows[i];
        if || record.body.sequence != c.body.fromSequence + i
           || record.body.previousHash != expectedPrevious
           || record.hash != RecordDigest(record.body)
        {
          assert !LinkedAt(rows, i, tenantId, c.body.fromSequence, c.body.fromPreviousHash);
          return Some(RangeIntegrity);
        }
        expectedPrevious := Some(record.hash);
      }
      if expectedPrevious != Some(c.body.throughHash) { return Some(BoundaryMismatch); }
      return None;
    }

    /** Records the checkpoint, tombstones and deletes exactly the hot prefix it covers. */
    method CompactRange(c: RetentionCheckpoint, expected: ChainState, fence: int) returns (r: Result<(), StoreError>)
      modifies this`hot, this`ledger, this`checkpoints, this`state
      ensures (View(), r) == Spec.CompactRange(old(View()), c, expected, fence)
    {
      hide CompactionError, RowsBetween, RowsOutside, Tombstoned;
      var rows, refusal := CheckCompaction(c, expected, fence);
      if refusal.Some? { return Failure(refusal.value); }
      UpsertTombstones(rows);
      checkpoints := checkpoints + [c];
      DeleteRange(c.body.fromSequence, c.body.throughSequence);
      state := state.(minimumRetained := c.body.throughSequence + 1, latestCheckpointHash := Some(c.hash));
      return Success(());
    }

    method UpsertTombstones(rows: seq<AuditRecord>)
      modifies this`ledger
      ensures ledger == Tombstoned(old(ledger), rows)
    {
      for i := 0 to |rows|
        invariant ledger == Tombstoned(old(ledger), rows[..i])
      {
        var record := rows[i];
        assert rows[..i + 1][..i] == rows[..i];
        ledger := ledger[record.body.idempotencyKeyHash :=
          LedgerEntry(EventDigest(record.body.event), record.body.sequence, record.hash, None)];
      }
      assert rows[..|rows|] == rows;
    }

    method CheckCompaction(c: RetentionCheckpoint, expected: ChainState, fence: int)
      returns (rows: seq<AuditRecord>, refusal: Option<StoreError>)
      ensures refusal == CompactionError(View(), c, expected, fence)
      ensures refusal.None? ==> rows == RowsBetween(hot, c.body.fromSequence, c.body.throughSequence)
    {
      hide ValidChainState, RangeError, LatestCheckpoint, RowsBetween, ValidCheckpoint, CheckpointByHash, CheckpointAtEpoch;
      rows := [];
      if !ValidChainState(expected) || !ValidFence(fence) { return rows, Some(InvalidInput); }
      if !ValidChainState(state) { return rows, Some(InvalidChainState); }
      var envelope := EnvelopeError(View(), c, expected, fence);
      if envelope.Some? { return rows, envelope; }
      var previous := SelectLatestCheckpoint();
      if !ExtendsCheckpoints(c, state, previous) { return rows, Some(CheckpointPrefixMismatch); }
      rows := SelectRange(c.body.fromSequence, c.body.throughSequence);
      var range := CheckRange(c, rows);
      if range.Some? { return rows, range; }
      if CheckpointAtEpoch(checkpoints, c.body.epoch).Some? || CheckpointByHash(checkpoints, c.hash).Some? {
        return rows, Some(UniqueViolation);
      }
      if c.body.throughSequence + 1 > MAX_SAFE_INTEGER { return rows, Some(InvalidChainState); }
      return rows, None;
    }

    /** Creates, replays or rebinds the pending attempt of a stored checkpoint. */
    method PrepareDisposition(checkpointHash: Digest, attempt: DispositionAttempt, expectedFence: int)
      returns (r: Result<DispositionAttempt, StoreError>)
      modifies this`attempts
      ensures (View(), r) == Spec.PrepareDisposition(old(View()), checkpointHash, attempt, expectedFence)
    {
      hide ValidChainState, CheckpointByHash;
      if !ValidFence(attempt.policyFence) || !ValidFence(expectedFence) { return Failure(InvalidInput); }
      if !ValidChainState(state) { return Failure(InvalidChainState); }
      if state.fence != expectedFence || attempt.policyFence != expectedFence { return Failure(FenceMismatch); }
      if attempt.status != Pending || attempt.checkpointHash != checkpointHash { return Failure(AttemptBindingMismatch); }
      var checkpoint := SelectCheckpoint(checkpointHash);
      if checkpoint.None? { return Failure(CheckpointNotFound); }
      if checkpointHash in receipts { return Failure(AlreadyConfirmed); }
      if checkpointHash in attempts {
        var existing := attempts[checkpointHash];
        if existing == attempt { return Success(existing); }
        if existing.status != Pending || attempt.policyFence <= existing.policyFence { return Failure(AttemptConflict); }
      }
      attempts := attempts[checkpointHash := attempt];
      return Success(attempt);
    }

    /** Stores one verified receipt for the current attempt and marks the attempt disposed. */
    method ConfirmDisposition(receipt: RetentionDisposition, expectedAttemptId: string, expectedFence: int)
      returns (r: Result<(), StoreError>)
      modifies this`attempts, this`receipts
      ensures (View(), r) == Spec.ConfirmDisposition(old(View()), receipt, expectedAttemptId, expectedFence)
    {
      hide ValidChainState, CheckpointByHash, ValidDisposition, Blank;
      var h := receipt.body.checkpointHash;
      if Blank(expectedAttemptId) || !ValidFence(expectedFence) { return Failure(InvalidInput); }
      if !ValidChainState(state) { return Failure(InvalidChainState); }
      if state.fence != expectedFence { return Failure(FenceMismatch); }
      if h !in attempts { return Failure(AttemptMismatch); }
      var attempt := attempts[h];
      if attempt.attemptId != expectedAttemptId || attempt.policyFence != expectedFence { return Failure(AttemptMismatch); }
      var checkpoint := SelectCheckpoint(h);
      if checkpoint.None? { return Failure(CheckpointNotFound); }
      if h in receipts {
        if attempt.status == Disposed && receipts[h] == receipt { return Success(()); }
        return Failure(ConflictingReceipt);
      }
      if attempt.status != Pending { return Failure(AttemptNotPending); }
      if !ValidDisposition(receipt, checkpoint.value) { return Failure(InvalidDisposition); }
      receipts := receipts[h := receipt];
      attempts := attempts[h := attempt.(status := Disposed)];
      return Success(());
    }
  }
}
