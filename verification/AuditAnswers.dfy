/**
 What each transaction of a reachable store answers and does, in terms of the full chain: when it
 succeeds, what it then changes, and what an advanced fence means for older attempts.
 */
module AuditAnswers {
  import opened Wrappers
  import opened Protocol
  import opened AuditTables
  import opened AuditRuns

  // ---------- Appending ----------

  /** `key` names no record of the chain yet. */
  predicate FreshKey(full: seq<AuditRecord>, keyHash: Digest) {
    forall i | 0 <= i < |full| :: full[i].body.idempotencyKeyHash != keyHash
  }

  /**
   A fresh key is appended exactly when the caller's expected tip, if any, is the tip of the full
   chain and sequences are left. The record stands right behind the tip; anything else is refused
   and changes nothing.
   */
  lemma AppendsExactly(t: Tables, full: seq<AuditRecord>, event: Event, key: string, expectedPrevious: Option<Option<Digest>>, now: int)
    requires Invariant(t, full) && event.tenantId == t.tenantId && !Blank(t.tenantId) && !Blank(key)
    requires FreshKey(full, HashIdempotencyKey(t.tenantId, key))
    ensures var (t', r) := Append(t, event, Some(key), expectedPrevious, now);
            var tip := if full == [] then None else Some(full[|full| - 1].hash);
            && (r.Success? <==> (expectedPrevious.None? || expectedPrevious.value == tip) && |full| < MAX_SAFE_INTEGER)
            && (r.Failure? ==> t' == t)
            && (r.Success? ==>
                  var body := r.value.body;
                  && body.event == event && body.sequence == |full| + 1 && body.previousHash == tip && body.appendedAt == now
                  && body.idempotencyKeyHash == HashIdempotencyKey(t.tenantId, key) && r.value.hash == RecordDigest(body)
                  && t'.hot == t.hot + [r.value] && t'.state.tipSequence == |full| + 1 && t'.state.tipHash == Some(r.value.hash)
                  && t'.state.fence == t.state.fence && t'.state.minimumRetained == t.state.minimumRetained
                  && t'.checkpoints == t.checkpoints && t'.attempts == t.attempts && t'.receipts == t.receipts)
  {
    hide Tiling, LedgerMatches, DispositionsMatch, UniqueKeys, LinkedRange, AppendNew, Blank, HashIdempotencyKey, ValidChainState, ValidStoredRecord, Replay;
    var k := HashIdempotencyKey(t.tenantId, key);
    FreshIsUnknown(t, full, k);
    AppendRefusals(t, full, event, k, expectedPrevious, now);
  }

  lemma FreshIsUnknown(t: Tables, full: seq<AuditRecord>, k: Digest)
    requires Invariant(t, full) && FreshKey(full, k)
    ensures k !in t.ledger && FindByKey(t.hot, k).None? && ValidChainState(t.state)
  {
    hide Tiling, DispositionsMatch, LinkedRange;
    assert k in t.ledger ==> EntryAt(t.ledger, k, full, t.state.minimumRetained);
    UniqueSuffix(full, t.state.minimumRetained - 1);
    FindByKeyAnswer(t.hot, k);
    forall j | 0 <= j < |t.hot| ensures t.hot[j].body.idempotencyKeyHash != k {
      assert t.hot[j] == full[t.state.minimumRetained - 1 + j];
    }
  }

  /** An event of another tenant, or a blank tenant or key, is refused and changes nothing. */
  lemma ForeignAppendIsRefused(t: Tables, event: Event, key: string, expectedPrevious: Option<Option<Digest>>, now: int)
    requires event.tenantId != t.tenantId || Blank(t.tenantId) || Blank(key)
    ensures var (t', r) := Append(t, event, Some(key), expectedPrevious, now); r.Failure? && t' == t
  {
    hide Blank, HashIdempotencyKey;
  }

  // ---------- Compaction ----------

  /**
   A compaction succeeds exactly for the current state and fence and the next tile of the full
   chain. It then takes exactly the tile's records out of the hot rows and moves nothing else.
   */
  lemma CompactsExactly(t: Tables, full: seq<AuditRecord>, c: RetentionCheckpoint, expected: ChainState, fence: int)
    requires Invariant(t, full)
    ensures var (t', r) := CompactRange(t, c, expected, fence);
            && (r.Success? <==>
                  && expected == t.state && fence == t.state.fence
                  && Tile(c, t.checkpoints, full, t.tenantId) && c.body.throughSequence < MAX_SAFE_INTEGER)
            && (r.Failure? ==> t' == t)
            && (r.Success? ==>
                  && t'.hot == full[c.body.throughSequence..] && t'.checkpoints == t.checkpoints + [c]
                  && t'.state == t.state.(minimumRetained := c.body.throughSequence + 1, latestCheckpointHash := Some(c.hash))
                  && t'.attempts == t.attempts && t'.receipts == t.receipts && t'.tenantId == t.tenantId)
  {
    hide CompactionError, UniqueKeys, LinkedRange, Tiling, LedgerMatches, DispositionsMatch, RowsOutside, RowsBetween, Tombstoned, Tile, EndHash, Uncovered;
    if CompactionError(t, c, expected, fence).None? {
      CompactedRange(t, full, c, expected, fence);
      ExpectedIsCurrent(t, c, expected, fence);
    } else if expected == t.state && fence == t.state.fence && Tile(c, t.checkpoints, full, t.tenantId)
              && c.body.throughSequence < MAX_SAFE_INTEGER {
      TileIsAccepted(t, full, c);
    }
  }

  lemma ExpectedIsCurrent(t: Tables, c: RetentionCheckpoint, expected: ChainState, fence: int)
    requires CompactionError(t, c, expected, fence).None?
    ensures expected == t.state && fence == t.state.fence
  {
    hide ValidChainState, ValidCheckpoint, RangeError, LatestCheckpoint, ExtendsCheckpoints, RowsBetween;
  }

  lemma TileIsAccepted(t: Tables, full: seq<AuditRecord>, c: RetentionCheckpoint)
    requires Invariant(t, full) && Tile(c, t.checkpoints, full, t.tenantId) && c.body.throughSequence < MAX_SAFE_INTEGER
    ensures CompactionError(t, c, t.state, t.state.fence).None?
  {
    hide UniqueKeys, LinkedRange, Tiling, LedgerMatches, DispositionsMatch, RowsBetween, RowsOutside, LatestCheckpoint, RangeError, CheckpointByHash, CheckpointAtEpoch, EndHash, LinkAt;
    LatestOfTiling(t, full);
    RowsOfRange(t, full, c.body.throughSequence);
    TileRangeIsIntact(full, c, t.tenantId, LastBoundary(t.checkpoints), t.checkpoints);
    StoredAtEpoch(t, full, c.body.epoch);
    HashNamesEpoch(t, full, c);
  }

  lemma TileRangeIsIntact(full: seq<AuditRecord>, c: RetentionCheckpoint, tenantId: string, link: Option<Digest>, before: seq<RetentionCheckpoint>)
    requires LinkedRange(full, tenantId, 1, None) && Tiling(before, full, tenantId) && Tile(c, before, full, tenantId)
    ensures 1 <= c.body.fromSequence <= c.body.throughSequence <= |full|
    ensures RangeError(c, full[c.body.fromSequence - 1..c.body.throughSequence], tenantId).None?
  {
    hide LinkedRange;
    var lo, hi := c.body.fromSequence - 1, c.body.throughSequence;
    if before != [] {
      assert TileAt(before, |before| - 1, full, tenantId);
    }
    LinkedRangePart(full, tenantId, 1, None, lo, hi);
    var rows := full[lo..hi];
    forall i | 0 <= i < |rows| ensures ValidStoredRecord(rows[i], tenantId) {
      LinkedMember(full, tenantId, lo + i);
    }
    assert rows[|rows| - 1] == full[hi - 1];
  }

  lemma LinkedMember(full: seq<AuditRecord>, tenantId: string, i: nat)
    requires LinkedRange(full, tenantId, 1, None) && i < |full|
    ensures ValidStoredRecord(full[i], tenantId)
  {
    assert LinkedAt(full, i, tenantId, 1, None);
  }

  // ---------- The policy fence ----------

  /** The fence advances exactly from its current value, by one, and nothing else changes. */
  lemma AdvancesExactly(t: Tables, expected: int)
    ensures var (t', r) := AdvanceFence(t, expected);
            && (r.Success? <==> ValidChainState(t.state) && expected == t.state.fence && expected < MAX_SAFE_INTEGER)
            && (r.Success? ==> r.value == expected + 1 && t' == t.(state := t.state.(fence := expected + 1)))
            && (r.Failure? ==> t' == t)
  {
  }

  /**
   After the policy fence was advanced, no run that does not prepare a checkpoint again stores a
   receipt for it, whatever attempt was pending before.
   */
  lemma AdvanceRetiresAttempts(t: Tables, full: seq<AuditRecord>, expected: int, ops: seq<Operation>, h: Digest)
    requires Invariant(t, full) && AdvanceFence(t, expected).1.Success? && h !in t.receipts
    requires forall i | 0 <= i < |ops| :: !(ops[i].PrepareOp? && ops[i].checkpointHash == h)
    ensures h !in Run(AdvanceFence(t, expected).0, ops).receipts
  {
    hide AdvanceFence, LinkedRange, UniqueKeys, Tiling, LedgerMatches, CropOf, Apply, GhostStep;
    AdvancesExactly(t, expected);
    var op := AdvanceFenceOp(expected);
    AdvanceIsApplied(t, expected);
    ApplyKeepsInvariant(t, full, op);
    StaleAttemptCannotDispose(Apply(t, op), GhostStep(full, t, op), ops, h);
  }

  lemma AdvanceIsApplied(t: Tables, expected: int)
    ensures Apply(t, AdvanceFenceOp(expected)) == AdvanceFence(t, expected).0
  {
    hide AdvanceFence;
  }

  // ---------- Dispositions ----------

  /**
   An attempt is prepared exactly when it is pending under the current fence for a stored checkpoint
   without a receipt, and takes the place of no attempt but itself or an older one.
   */
  lemma PreparesExactly(t: Tables, full: seq<AuditRecord>, h: Digest, attempt: DispositionAttempt, expectedFence: int)
    requires Invariant(t, full)
    ensures var (t', r) := PrepareDisposition(t, h, attempt, expectedFence);
            && (r.Success? <==>
                  && attempt.policyFence == expectedFence == t.state.fence && attempt.status == Pending && attempt.checkpointHash == h
                  && (exists c :: c in t.checkpoints && c.hash == h) && h !in t.receipts
                  && (h in t.attempts ==> t.attempts[h] == attempt || t.attempts[h].policyFence < t.state.fence))
            && (r.Success? ==> r.value == attempt && t' == t.(attempts := t.attempts[h := attempt]))
            && (r.Failure? ==> t' == t)
  {
    hide UniqueKeys, LinkedRange, Tiling, LedgerMatches, CheckpointByHash, ValidDisposition;
    ByHashAnswer(t.checkpoints, h);
    if h in t.attempts {
      assert t.attempts[h := t.attempts[h]] == t.attempts;
    }
  }

  /**
   A receipt is confirmed exactly for the attempt id and fence the checkpoint's attempt carries at
   the current fence: a valid receipt the first time, and afterwards only the very same one.
   */
  lemma ConfirmsExactly(t: Tables, full: seq<AuditRecord>, receipt: RetentionDisposition, attemptId: string, expectedFence: int)
    requires Invariant(t, full)
    ensures var h := receipt.body.checkpointHash;
            var (t', r) := ConfirmDisposition(t, receipt, attemptId, expectedFence);
            && (r.Success? <==>
                  && !Blank(attemptId) && expectedFence == t.state.fence
                  && h in t.attempts && t.attempts[h].attemptId == attemptId && t.attempts[h].policyFence == t.state.fence
                  && (if h in t.receipts then t.receipts[h] == receipt
                      else exists c :: c in t.checkpoints && c.hash == h && ReceiptFits(receipt, c)))
            && (r.Success? ==>
                  t' == t.(receipts := t.receipts[h := receipt], attempts := t.attempts[h := t.attempts[h].(status := Disposed)]))
            && (r.Failure? ==> t' == t)
  {
    hide UniqueKeys, LinkedRange, LedgerMatches, CheckpointByHash, Blank, Tiling, Tile, ReceiptFits, ValidDisposition;
    var h := receipt.body.checkpointHash;
    ByHashAnswer(t.checkpoints, h);
    OneCheckpointAHash(t, full, h);
    if CheckpointByHash(t.checkpoints, h).Some? {
      FittingIsValid(t, full, receipt, CheckpointByHash(t.checkpoints, h).value);
    }
    if h in t.attempts && h in t.receipts {
      assert t.attempts[h := t.attempts[h].(status := Disposed)] == t.attempts;
      assert t.receipts[h := t.receipts[h]] == t.receipts;
    }
  }

  /** The receipt says which range of which checkpoint was disposed of, and hashes to itself. */
  predicate ReceiptFits(r: RetentionDisposition, c: RetentionCheckpoint) {
    && r.body.header == SupportedHeader && r.hash == DispositionDigest(r.body)
    && r.body.checkpointHash == c.hash && r.body.tenantId == c.body.tenantId && r.body.chainKind == AuditChain
    && r.body.fromSequence == c.body.fromSequence && r.body.throughSequence == c.body.throughSequence
    && r.body.archiveRootHash == c.body.archiveRootHash
  }

  lemma FittingIsValid(t: Tables, full: seq<AuditRecord>, r: RetentionDisposition, c: RetentionCheckpoint)
    requires Invariant(t, full) && c in t.checkpoints
    ensures ReceiptFits(r, c) <==> ValidDisposition(r, c)
  {
    hide UniqueKeys, LinkedRange, LedgerMatches, DispositionsMatch;
    var i :| 0 <= i < |t.checkpoints| && t.checkpoints[i] == c;
    assert TileAt(t.checkpoints, i, full, t.tenantId);
  }

  lemma OneCheckpointAHash(t: Tables, full: seq<AuditRecord>, h: Digest)
    requires Invariant(t, full)
    ensures forall c | c in t.checkpoints && c.hash == h :: CheckpointByHash(t.checkpoints, h) == Some(c)
  {
    hide UniqueKeys, LinkedRange, LedgerMatches, DispositionsMatch, CheckpointByHash;
    ByHashAnswer(t.checkpoints, h);
    forall c | c in t.checkpoints && c.hash == h ensures CheckpointByHash(t.checkpoints, h) == Some(c) {
      var i :| 0 <= i < |t.checkpoints| && t.checkpoints[i] == c;
      assert TileAt(t.checkpoints, i, full, t.tenantId);
      HashNamesEpoch(t, full, c);
    }
  }

  /** Every stored receipt is that of a stored checkpoint, field by field. */
  lemma StoredReceiptsFit(t: Tables, full: seq<AuditRecord>, h: Digest)
    requires Invariant(t, full) && h in t.receipts
    ensures exists c :: c in t.checkpoints && c.hash == h && ReceiptFits(t.receipts[h], c)
  {
    hide UniqueKeys, LinkedRange, LedgerMatches, Tiling, CheckpointByHash, ReceiptFits, ValidDisposition;
    ByHashAnswer(t.checkpoints, h);
    FittingIsValid(t, full, t.receipts[h], CheckpointByHash(t.checkpoints, h).value);
  }
}
