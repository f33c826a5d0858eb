/**
 What every run of store transactions keeps: the tables are always the crop of one
 uncropped ghost chain, idempotency answers survive the crop, and each checkpoint is
 disposed of at most once.
 */
module AuditRuns {
  import opened Wrappers
  import opened Protocol
  import opened AuditTables

  // ---------- The invariant ----------

  predicate UniqueKeys(full: seq<AuditRecord>) {
    forall i, j | 0 <= i < j < |full| :: full[i].body.idempotencyKeyHash != full[j].body.idempotencyKeyHash
  }

  /** First sequence that no checkpoint of `checkpoints` covers. */
  function Uncovered(checkpoints: seq<RetentionCheckpoint>): int {
    if checkpoints == [] then 1 else checkpoints[|checkpoints| - 1].body.throughSequence + 1
  }

  function LastHash(checkpoints: seq<RetentionCheckpoint>): Option<Digest> {
    if checkpoints == [] then None else Some(checkpoints[|checkpoints| - 1].hash)
  }

  function LastBoundary(checkpoints: seq<RetentionCheckpoint>): Option<Digest> {
    if checkpoints == [] then None else Some(checkpoints[|checkpoints| - 1].body.throughHash)
  }

  /** Checkpoint `c` covers the records of `full` right after those that `before` covers. */
  predicate Tile(c: RetentionCheckpoint, before: seq<RetentionCheckpoint>, full: seq<AuditRecord>, tenantId: string) {
    && ValidCheckpoint(c)
    && c.body.tenantId == tenantId
    && c.body.epoch == |before| + 1
    && c.body.fromSequence == Uncovered(before)
    && c.body.fromPreviousHash == LastBoundary(before)
    && c.body.previousCheckpointHash == LastHash(before)
    && c.body.throughSequence <= |full|
    && c.body.throughHash == full[c.body.throughSequence - 1].hash
  }

  predicate TileAt(checkpoints: seq<RetentionCheckpoint>, i: nat, full: seq<AuditRecord>, tenantId: string)
    requires i < |checkpoints|
  {
    Tile(checkpoints[i], checkpoints[..i], full, tenantId)
  }

  /** The checkpoints tile `full` from its first record without gap or overlap. */
  predicate Tiling(checkpoints: seq<RetentionCheckpoint>, full: seq<AuditRecord>, tenantId: string) {
    forall i | 0 <= i < |checkpoints| :: TileAt(checkpoints, i, full, tenantId)
  }

  /** A ledger entry names the one chain position of its key, with its record while that is hot. */
  predicate EntryFor(key: Digest, e: LedgerEntry, full: seq<AuditRecord>, minimum: int) {
    && 1 <= e.sequence <= |full|
    && full[e.sequence - 1].body.idempotencyKeyHash == key
    && e.eventHash == EventDigest(full[e.sequence - 1].body.event)
    && e.recordHash == full[e.sequence - 1].hash
    && e.record == (if e.sequence < minimum then None else Some(full[e.sequence - 1]))
  }

  predicate EntryAt(ledger: map<Digest, LedgerEntry>, k: Digest, full: seq<AuditRecord>, minimum: int)
    requires k in ledger
  {
    EntryFor(k, ledger[k], full, minimum)
  }

  predicate KeyKnown(ledger: map<Digest, LedgerEntry>, full: seq<AuditRecord>, i: nat)
    requires i < |full|
  {
    full[i].body.idempotencyKeyHash in ledger
  }

  predicate LedgerMatches(ledger: map<Digest, LedgerEntry>, full: seq<AuditRecord>, minimum: int) {
    && (forall k {:trigger EntryAt(ledger, k, full, minimum)} | k in ledger :: EntryAt(ledger, k, full, minimum))
    && (forall i {:trigger KeyKnown(ledger, full, i)} | 0 <= i < |full| && i + 1 < minimum :: KeyKnown(ledger, full, i))
  }

  predicate DispositionsMatch(
      checkpoints: seq<RetentionCheckpoint>, attempts: map<Digest, DispositionAttempt>,
      receipts: map<Digest, RetentionDisposition>, fence: int)
  {
    && (forall h | h in attempts ::
         && CheckpointByHash(checkpoints, h).Some?
         && attempts[h].checkpointHash == h
         && 0 <= attempts[h].policyFence <= fence
         && (attempts[h].status == Disposed <==> h in receipts))
    && (forall h | h in receipts ::
         h in attempts && ValidDisposition(receipts[h], CheckpointByHash(checkpoints, h).value))
  }

  /** The chain state and the hot rows are those of `full` cropped behind the last checkpoint. */
  predicate CropOf(t: Tables, full: seq<AuditRecord>) {
    && ValidChainState(t.state)
    && t.state.tipSequence == |full|
    && t.state.tipHash == EndHash(full, None)
    && t.state.minimumRetained == Uncovered(t.checkpoints)
    && t.state.latestCheckpointHash == LastHash(t.checkpoints)
    && t.hot == full[t.state.minimumRetained - 1..]
  }

  predicate Invariant(t: Tables, full: seq<AuditRecord>) {
    && LinkedRange(full, t.tenantId, 1, None)
    && UniqueKeys(full)
    && CropOf(t, full)
    && Tiling(t.checkpoints, full, t.tenantId)
    && LedgerMatches(t.ledger, full, t.state.minimumRetained)
    && DispositionsMatch(t.checkpoints, t.attempts, t.receipts, t.state.fence)
  }

  /** A tenant that existed before the ledger: hot rows from genesis and a seeded state row. */
  function LegacyTables(tenantId: string, hot: seq<AuditRecord>): Tables {
    Tables(tenantId, hot, ChainState(|hot|, EndHash(hot, None), 1, None, 0), map[], [], map[], map[])
  }

  lemma LegacyStart(tenantId: string, hot: seq<AuditRecord>)
    requires LinkedRange(hot, tenantId, 1, None) && UniqueKeys(hot) && |hot| <= MAX_SAFE_INTEGER
    ensures Invariant(LegacyTables(tenantId, hot), hot)
  {
  }

  // ---------- Queries on a consecutive hot table ----------

  predicate Numbered(hot: seq<AuditRecord>, start: int) {
    forall i | 0 <= i < |hot| :: hot[i].body.sequence == start + i
  }

  lemma {:induction false} RangeIsPrefix(hot: seq<AuditRecord>, start: int, from: int, through: int)
    requires Numbered(hot, start) && from <= start && start - 1 <= through < start + |hot|
    ensures RowsBetween(hot, from, through) == hot[..through - start + 1]
    ensures RowsOutside(hot, from, through) == hot[through - start + 1..]
    decreases |hot|
  {
    if hot != [] {
      var rest := hot[1..];
      if through >= start {
        RangeIsPrefix(rest, start + 1, from, through);
        assert hot[..through - start + 1] == [hot[0]] + rest[..through - start];
      } else {
        NothingBetween(hot, start, from, through);
      }
    }
  }

  lemma {:induction false} NothingBetween(hot: seq<AuditRecord>, start: int, from: int, through: int)
    requires Numbered(hot, start) && (through < start || start + |hot| <= from)
    ensures RowsBetween(hot, from, through) == [] && RowsOutside(hot, from, through) == hot
    decreases |hot|
  {
    if hot != [] {
      NothingBetween(hot[1..], start + 1, from, through);
    }
  }

  lemma {:induction false} FindByKeyAnswer(hot: seq<AuditRecord>, keyHash: Digest)
    requires UniqueKeys(hot)
    ensures match FindByKey(hot, keyHash)
            case Some(r) => r in hot && r.body.idempotencyKeyHash == keyHash
            case None => forall i | 0 <= i < |hot| :: hot[i].body.idempotencyKeyHash != keyHash
    ensures forall i | 0 <= i < |hot| && hot[i].body.idempotencyKeyHash == keyHash :: FindByKey(hot, keyHash) == Some(hot[i])
    decreases |hot|
  {
    if hot != [] {
      FindByKeyAnswer(hot[1..], keyHash);
      assert forall i | 1 <= i < |hot| :: hot[i] == hot[1..][i - 1];
    }
  }

  lemma {:induction false} ByHashAnswer(checkpoints: seq<RetentionCheckpoint>, h: Digest)
    ensures match CheckpointByHash(checkpoints, h)
            case Some(c) => c in checkpoints && c.hash == h
            case None => forall c | c in checkpoints :: c.hash != h
    decreases |checkpoints|
  {
    if checkpoints != [] {
      ByHashAnswer(checkpoints[1..], h);
      assert checkpoints == [checkpoints[0]] + checkpoints[1..];
    }
  }

  lemma {:induction false} ByHashExtended(checkpoints: seq<RetentionCheckpoint>, c: RetentionCheckpoint, h: Digest)
    ensures CheckpointByHash(checkpoints + [c], h)
         == if CheckpointByHash(checkpoints, h).Some? then CheckpointByHash(checkpoints, h)
            else if c.hash == h then Some(c) else None
    decreases |checkpoints|
  {
    if checkpoints != [] {
      assert (checkpoints + [c])[1..] == checkpoints[1..] + [c];
      ByHashExtended(checkpoints[1..], c, h);
    }
  }

  /** Epochs of a tiling are 1, 2, 3, ...: the latest is the last and each has its own slot. */
  lemma TilingPrefix(checkpoints: seq<RetentionCheckpoint>, n: nat, full: seq<AuditRecord>, tenantId: string)
    requires Tiling(checkpoints, full, tenantId) && n <= |checkpoints|
    ensures Tiling(checkpoints[..n], full, tenantId)
  {
    forall i | 0 <= i < n ensures TileAt(checkpoints[..n], i, full, tenantId) {
      assert TileAt(checkpoints, i, full, tenantId);
      assert checkpoints[..n][..i] == checkpoints[..i];
    }
  }

  lemma {:induction false} TilingLatest(checkpoints: seq<RetentionCheckpoint>, full: seq<AuditRecord>, tenantId: string)
    requires Tiling(checkpoints, full, tenantId)
    ensures LatestCheckpoint(checkpoints) == if checkpoints == [] then None else Some(checkpoints[|checkpoints| - 1])
    decreases |checkpoints|
  {
    if checkpoints != [] {
      var front := checkpoints[..|checkpoints| - 1];
      TilingPrefix(checkpoints, |front|, full, tenantId);
      TilingLatest(front, full, tenantId);
      if front != [] {
        assert TileAt(checkpoints, |front| - 1, full, tenantId);
      }
      assert TileAt(checkpoints, |front|, full, tenantId);
    }
  }

  lemma {:induction false} AtEpochAnswer(checkpoints: seq<RetentionCheckpoint>, first: int, epoch: int)
    requires forall i | 0 <= i < |checkpoints| :: checkpoints[i].body.epoch == first + i
    ensures CheckpointAtEpoch(checkpoints, epoch)
         == if first <= epoch < first + |checkpoints| then Some(checkpoints[epoch - first]) else None
    decreases |checkpoints|
  {
    if checkpoints != [] {
      AtEpochAnswer(checkpoints[1..], first + 1, epoch);
    }
  }

  lemma StoredAtEpoch(t: Tables, full: seq<AuditRecord>, epoch: int)
    requires Invariant(t, full)
    ensures CheckpointAtEpoch(t.checkpoints, epoch)
         == if 1 <= epoch <= |t.checkpoints| then Some(t.checkpoints[epoch - 1]) else None
  {
    forall i | 0 <= i < |t.checkpoints|
      ensures t.checkpoints[i].body.epoch == 1 + i
    {
      assert TileAt(t.checkpoints, i, full, t.tenantId);
    }
    AtEpochAnswer(t.checkpoints, 1, epoch);
  }

  lemma HashNamesEpoch(t: Tables, full: seq<AuditRecord>, c: RetentionCheckpoint)
    requires Invariant(t, full) && ValidCheckpoint(c)
    ensures CheckpointByHash(t.checkpoints, c.hash).Some?
       <==> 1 <= c.body.epoch <= |t.checkpoints| && t.checkpoints[c.body.epoch - 1] == c
    ensures CheckpointByHash(t.checkpoints, c.hash).Some? ==> CheckpointByHash(t.checkpoints, c.hash) == Some(c)
  {
    ByHashAnswer(t.checkpoints, c.hash);
    match CheckpointByHash(t.checkpoints, c.hash) {
      case Some(s) =>
        var i :| 0 <= i < |t.checkpoints| && t.checkpoints[i] == s;
        assert TileAt(t.checkpoints, i, full, t.tenantId);
      case None =>
    }
  }

  // ---------- Preservation ----------

  lemma {:induction false} TombstonedAnswer(ledger: map<Digest, LedgerEntry>, records: seq<AuditRecord>, k: Digest)
    requires UniqueKeys(records)
    ensures k in Tombstoned(ledger, records)
       <==> k in ledger || exists i | 0 <= i < |records| :: records[i].body.idempotencyKeyHash == k
    ensures forall i :: 0 <= i < |records| && records[i].body.idempotencyKeyHash == k ==>
              Tombstoned(ledger, records)[k]
              == LedgerEntry(EventDigest(records[i].body.event), records[i].body.sequence, records[i].hash, None)
    ensures k in ledger && (forall i | 0 <= i < |records| :: records[i].body.idempotencyKeyHash != k)
            ==> Tombstoned(ledger, records)[k] == ledger[k]
    decreases |records|
  {
    if records != [] {
      var front := records[..|records| - 1];
      TombstonedAnswer(ledger, front, k);
      assert records[|front|].body.idempotencyKeyHash == k
        || ((exists i | 0 <= i < |records| :: records[i].body.idempotencyKeyHash == k)
            <==> (exists i | 0 <= i < |front| :: front[i].body.idempotencyKeyHash == k));
    }
  }

  /** The ledger after a record with a new key was appended. */
  lemma LedgerAppended(ledger: map<Digest, LedgerEntry>, full: seq<AuditRecord>, minimum: int, r: AuditRecord)
    requires LedgerMatches(ledger, full, minimum) && minimum <= |full| + 1 && r.body.sequence == |full| + 1
    ensures LedgerMatches(ledger[r.body.idempotencyKeyHash := LiveEntry(r)], full + [r], minimum)
  {
    var k' := r.body.idempotencyKeyHash;
    var ledger' := ledger[k' := LiveEntry(r)];
    forall k | k in ledger' ensures EntryAt(ledger', k, full + [r], minimum) {
      assert k != k' ==> EntryAt(ledger, k, full, minimum);
    }
    forall i | 0 <= i < |full + [r]| && i + 1 < minimum ensures KeyKnown(ledger', full + [r], i) {
      assert KeyKnown(ledger, full, i);
    }
  }

  lemma KeyIsNew(t: Tables, full: seq<AuditRecord>, keyHash: Digest)
    requires UniqueKeys(full) && CropOf(t, full) && LedgerMatches(t.ledger, full, t.state.minimumRetained)
    requires keyHash !in t.ledger && FindByKey(t.hot, keyHash).None?
    ensures forall i | 0 <= i < |full| :: full[i].body.idempotencyKeyHash != keyHash
  {
    hide UniqueKeys;
    var min := t.state.minimumRetained;
    UniqueSuffix(full, min - 1);
    FindByKeyAnswer(t.hot, keyHash);
    forall i | 0 <= i < |full| ensures full[i].body.idempotencyKeyHash != keyHash {
      if i >= min - 1 {
        assert full[i] == t.hot[i - (min - 1)];
      } else {
        assert KeyKnown(t.ledger, full, i);
      }
    }
  }

  lemma HotIsNumbered(t: Tables, full: seq<AuditRecord>)
    requires LinkedRange(full, t.tenantId, 1, None) && CropOf(t, full)
    ensures Numbered(t.hot, t.state.minimumRetained)
  {
    forall i | 0 <= i < |t.hot| ensures t.hot[i].body.sequence == t.state.minimumRetained + i {
      assert LinkedAt(full, t.state.minimumRetained - 1 + i, t.tenantId, 1, None);
    }
  }

  /** Where a hot row found by its key stands in the chain. */
  lemma HotPosition(t: Tables, full: seq<AuditRecord>, keyHash: Digest, r: AuditRecord) returns (i: nat)
    requires Invariant(t, full) && FindByKey(t.hot, keyHash) == Some(r)
    ensures t.state.minimumRetained <= i + 1 <= |full| && full[i] == r
    ensures r.body.idempotencyKeyHash == keyHash && r.body.sequence == i + 1
  {
    hide Tiling, DispositionsMatch, LedgerMatches, LinkedRange;
    UniqueSuffix(full, t.state.minimumRetained - 1);
    HotIsNumbered(t, full);
    FindByKeyAnswer(t.hot, keyHash);
    var j :| 0 <= j < |t.hot| && t.hot[j] == r;
    i := t.state.minimumRetained - 1 + j;
  }

  lemma LedgerAdopted(ledger: map<Digest, LedgerEntry>, full: seq<AuditRecord>, minimum: int, i: nat)
    requires LedgerMatches(ledger, full, minimum)
    requires minimum <= i + 1 <= |full| && full[i].body.sequence == i + 1
    ensures LedgerMatches(ledger[full[i].body.idempotencyKeyHash := LiveEntry(full[i])], full, minimum)
  {
    var ledger' := ledger[full[i].body.idempotencyKeyHash := LiveEntry(full[i])];
    forall k | k in ledger' ensures EntryAt(ledger', k, full, minimum) {
      assert k == full[i].body.idempotencyKeyHash || EntryAt(ledger, k, full, minimum);
    }
    forall j | 0 <= j < |full| && j + 1 < minimum ensures KeyKnown(ledger', full, j) {
      assert KeyKnown(ledger, full, j);
    }
  }

  /** A legacy row replayed for the first time gets the ledger entry it never had. */
  lemma AdoptKeepsInvariant(t: Tables, full: seq<AuditRecord>, keyHash: Digest, r: AuditRecord)
    requires Invariant(t, full) && FindByKey(t.hot, keyHash) == Some(r)
    ensures Invariant(t.(ledger := t.ledger[keyHash := LiveEntry(r)]), full)
    ensures r.body.sequence >= 1 && ValidStoredRecord(r, t.tenantId)
  {
    hide UniqueKeys, Tiling, DispositionsMatch, FindByKey, LedgerMatches;
    var i := HotPosition(t, full, keyHash, r);
    assert LinkedAt(full, i, t.tenantId, 1, None);
    LedgerAdopted(t.ledger, full, t.state.minimumRetained, i);
  }

  lemma NoRowBehindTip(t: Tables, full: seq<AuditRecord>)
    requires LinkedRange(full, t.tenantId, 1, None) && CropOf(t, full)
    ensures RowsBetween(t.hot, |full| + 1, |full| + 1) == []
  {
    hide LinkedRange;
    HotIsNumbered(t, full);
    NothingBetween(t.hot, t.state.minimumRetained, |full| + 1, |full| + 1);
  }

  /** A refused append changes nothing; only a stale expected tip or an exhausted sequence refuses a new key. */
  lemma AppendRefusals(t: Tables, full: seq<AuditRecord>, event: Event, keyHash: Digest,
                       expectedPrevious: Option<Option<Digest>>, now: int)
    requires LinkedRange(full, t.tenantId, 1, None) && CropOf(t, full)
    ensures var (t', r) := AppendNew(t, event, keyHash, expectedPrevious, now);
            match r
            case Failure(e) =>
              && t' == t
              && ((e == StaleTip && expectedPrevious.Some? && expectedPrevious.value != EndHash(full, None))
                  || (e == InvalidChainState && |full| == MAX_SAFE_INTEGER))
            case Success(record) =>
              && (expectedPrevious.Some? ==> expectedPrevious.value == EndHash(full, None))
              && |full| < MAX_SAFE_INTEGER
              && record == BuildRecord(event, |full| + 1, EndHash(full, None), keyHash, now)
              && t' == t.(hot := t.hot + [record], ledger := t.ledger[keyHash := LiveEntry(record)],
                          state := t.state.(tipSequence := |full| + 1, tipHash := Some(record.hash)))
  {
    hide LinkedRange, RowsBetween, LinkAt, EndHash;
    NoRowBehindTip(t, full);
    assert t.state.tipSequence == |full| && ValidChainState(t.state) && t.state.tipHash == EndHash(full, None);
  }

  lemma AppendKeepsInvariant(t: Tables, full: seq<AuditRecord>, event: Event, keyHash: Digest,
                             expectedPrevious: Option<Option<Digest>>, now: int)
    requires Invariant(t, full) && event.tenantId == t.tenantId
    requires keyHash !in t.ledger && FindByKey(t.hot, keyHash).None?
    requires AppendNew(t, event, keyHash, expectedPrevious, now).1.Success?
    ensures var (t', r) := AppendNew(t, event, keyHash, expectedPrevious, now);
            Invariant(t', full + [r.value])
  {
    hide AppendNew, FindByKey, LedgerMatches, Tiling, DispositionsMatch;
    AppendRefusals(t, full, event, keyHash, expectedPrevious, now);
    var (t', r) := AppendNew(t, event, keyHash, expectedPrevious, now);
    var full' := full + [r.value];
    KeyIsNew(t, full, keyHash);
    LedgerAppended(t.ledger, full, t.state.minimumRetained, r.value);
    TilingExtends(t.checkpoints, full, full', t.tenantId);
    assert LinkedAt([r.value], 0, t.tenantId, 1 + |full|, EndHash(full, None));
    LinkedRangeConcat(full, [r.value], t.tenantId, 1, None);
    assert CropOf(t', full') by {
      assert t'.hot == full'[t.state.minimumRetained - 1..];
    }
  }

  lemma UniqueSuffix(full: seq<AuditRecord>, lo: nat)
    requires UniqueKeys(full) && lo <= |full|
    ensures UniqueKeys(full[lo..])
  {
  }

  lemma TilingPushed(checkpoints: seq<RetentionCheckpoint>, c: RetentionCheckpoint, full: seq<AuditRecord>, tenantId: string)
    requires Tiling(checkpoints, full, tenantId) && Tile(c, checkpoints, full, tenantId)
    ensures Tiling(checkpoints + [c], full, tenantId)
  {
    forall i | 0 <= i < |checkpoints + [c]| ensures TileAt(checkpoints + [c], i, full, tenantId) {
      if i < |checkpoints| {
        assert TileAt(checkpoints, i, full, tenantId);
        assert (checkpoints + [c])[..i] == checkpoints[..i];
      } else {
        assert (checkpoints + [c])[..i] == checkpoints;
      }
    }
  }

  lemma TilingExtends(checkpoints: seq<RetentionCheckpoint>, full: seq<AuditRecord>, full': seq<AuditRecord>, tenantId: string)
    requires Tiling(checkpoints, full, tenantId) && full <= full'
    ensures Tiling(checkpoints, full', tenantId)
  {
    forall i | 0 <= i < |checkpoints| ensures TileAt(checkpoints, i, full', tenantId) {
      assert TileAt(checkpoints, i, full, tenantId);
    }
  }

  lemma LatestOfTiling(t: Tables, full: seq<AuditRecord>)
    requires Tiling(t.checkpoints, full, t.tenantId)
    ensures match LatestCheckpoint(t.checkpoints)
            case None => t.checkpoints == []
            case Some(p) => t.checkpoints != [] && p == t.checkpoints[|t.checkpoints| - 1] && p.body.epoch == |t.checkpoints|
  {
    TilingLatest(t.checkpoints, full, t.tenantId);
    if t.checkpoints != [] {
      assert TileAt(t.checkpoints, |t.checkpoints| - 1, full, t.tenantId);
    }
  }

  /** A compaction that is not refused carries the next tile of the chain. */
  lemma CompactionTiles(t: Tables, full: seq<AuditRecord>, c: RetentionCheckpoint, expected: ChainState, fence: int)
    requires Invariant(t, full) && CompactionError(t, c, expected, fence).None?
    ensures c.body.fromSequence == t.state.minimumRetained <= c.body.throughSequence <= |full|
    ensures c.body.fromSequence == Uncovered(t.checkpoints) && c.body.epoch == |t.checkpoints| + 1
    ensures c.body.previousCheckpointHash == LastHash(t.checkpoints) && c.body.fromPreviousHash == LastBoundary(t.checkpoints)
    ensures ValidCheckpoint(c) && c.body.tenantId == t.tenantId && c.body.throughSequence < MAX_SAFE_INTEGER
    ensures EndHash(RowsBetween(t.hot, c.body.fromSequence, c.body.throughSequence), c.body.fromPreviousHash)
         == Some(c.body.throughHash)
  {
    hide LinkedRange, LedgerMatches, DispositionsMatch, UniqueKeys, Tiling, LatestCheckpoint, CheckpointByHash, CheckpointAtEpoch, RowsBetween, EndHash, ValidStoredRecord;
    LatestOfTiling(t, full);
  }

  lemma RowsOfRange(t: Tables, full: seq<AuditRecord>, through: int)
    requires LinkedRange(full, t.tenantId, 1, None) && CropOf(t, full)
    requires t.state.minimumRetained - 1 <= through <= |full|
    ensures RowsBetween(t.hot, t.state.minimumRetained, through) == full[t.state.minimumRetained - 1..through]
    ensures RowsOutside(t.hot, t.state.minimumRetained, through) == full[through..]
  {
    hide LinkedRange, RowsBetween, RowsOutside, Numbered;
    var min := t.state.minimumRetained;
    HotIsNumbered(t, full);
    RangeIsPrefix(t.hot, min, min, through);
    assert t.hot[..through - min + 1] == full[min - 1..through];
    assert t.hot[through - min + 1..] == full[through..];
  }

  /** The boundary hash of a compaction is the one the chain has at its end. */
  lemma CompactionBoundary(t: Tables, full: seq<AuditRecord>, c: RetentionCheckpoint)
    requires LinkedRange(full, t.tenantId, 1, None) && CropOf(t, full)
    requires c.body.fromSequence == t.state.minimumRetained <= c.body.throughSequence <= |full|
    requires EndHash(RowsBetween(t.hot, c.body.fromSequence, c.body.throughSequence), c.body.fromPreviousHash)
          == Some(c.body.throughHash)
    ensures 1 <= c.body.throughSequence && c.body.throughHash == full[c.body.throughSequence - 1].hash
  {
    hide LinkedRange, RowsBetween, RowsOutside, Uncovered, LastHash;
    RowsOfRange(t, full, c.body.throughSequence);
  }

  /** What a compaction that is not refused removes: exactly the checkpoint's range of the chain. */
  lemma CompactedRange(t: Tables, full: seq<AuditRecord>, c: RetentionCheckpoint, expected: ChainState, fence: int)
    requires Invariant(t, full) && CompactionError(t, c, expected, fence).None?
    ensures Tile(c, t.checkpoints, full, t.tenantId) && c.body.throughSequence < MAX_SAFE_INTEGER
    ensures 1 <= c.body.fromSequence == t.state.minimumRetained
    ensures RowsBetween(t.hot, c.body.fromSequence, c.body.throughSequence)
         == full[c.body.fromSequence - 1..c.body.throughSequence]
    ensures RowsOutside(t.hot, c.body.fromSequence, c.body.throughSequence) == full[c.body.throughSequence..]
  {
    hide CompactionError, RowsBetween, RowsOutside, Uncovered, LastHash, LastBoundary, ValidCheckpoint, UniqueKeys, LinkedRange, Tiling, LedgerMatches, DispositionsMatch, EndHash;
    CompactionTiles(t, full, c, expected, fence);
    CompactionBoundary(t, full, c);
    RowsOfRange(t, full, c.body.throughSequence);
  }

  /** The ledger after the records behind `through` were replaced by tombstones. */
  lemma LedgerCompacted(ledger: map<Digest, LedgerEntry>, full: seq<AuditRecord>, minimum: int, through: int)
    requires UniqueKeys(full) && Numbered(full, 1)
    requires LedgerMatches(ledger, full, minimum) && 1 <= minimum <= through <= |full|
    ensures LedgerMatches(Tombstoned(ledger, full[minimum - 1..through]), full, through + 1)
  {
    var gone := full[minimum - 1..through];
    var ledger' := Tombstoned(ledger, gone);
    assert forall i | 0 <= i < |gone| :: gone[i] == full[minimum - 1 + i];
    forall k | k in ledger' ensures EntryAt(ledger', k, full, through + 1) {
      TombstonedAnswer(ledger, gone, k);
      if k in ledger {
        assert EntryAt(ledger, k, full, minimum);
        var s := ledger[k].sequence;
        if minimum <= s <= through {
          assert gone[s - minimum].body.idempotencyKeyHash == k;
        }
      }
    }
    forall i | 0 <= i < |full| && i + 1 < through + 1 ensures KeyKnown(ledger', full, i) {
      TombstonedAnswer(ledger, gone, full[i].body.idempotencyKeyHash);
      if i + 1 >= minimum {
        assert full[i] == gone[i + 1 - minimum];
      } else {
        assert KeyKnown(ledger, full, i);
      }
    }
  }

  lemma DispositionsCompacted(t: Tables, c: RetentionCheckpoint)
    requires DispositionsMatch(t.checkpoints, t.attempts, t.receipts, t.state.fence)
    ensures DispositionsMatch(t.checkpoints + [c], t.attempts, t.receipts, t.state.fence)
  {
    hide CheckpointByHash, ValidDisposition;
    forall h | h in t.attempts
      ensures CheckpointByHash(t.checkpoints + [c], h) == CheckpointByHash(t.checkpoints, h)
    {
      ByHashExtended(t.checkpoints, c, h);
    }
  }

  lemma CompactedIsCrop(t: Tables, full: seq<AuditRecord>, c: RetentionCheckpoint)
    requires CropOf(t, full) && c.body.throughSequence < MAX_SAFE_INTEGER
    requires t.state.minimumRetained <= c.body.throughSequence <= |full|
    requires RowsOutside(t.hot, c.body.fromSequence, c.body.throughSequence) == full[c.body.throughSequence..]
    ensures CropOf(Compacted(t, c), full) && |Compacted(t, c).hot| <= |t.hot|
  {
    hide RowsOutside, RowsBetween, Tombstoned;
  }

  lemma CompactedLedger(t: Tables, full: seq<AuditRecord>, c: RetentionCheckpoint)
    requires Invariant(t, full) && c.body.fromSequence == t.state.minimumRetained <= c.body.throughSequence <= |full|
    requires RowsBetween(t.hot, c.body.fromSequence, c.body.throughSequence)
          == full[c.body.fromSequence - 1..c.body.throughSequence]
    ensures LedgerMatches(Compacted(t, c).ledger, full, c.body.throughSequence + 1)
  {
    hide LinkedRange, UniqueKeys, Tiling, LedgerMatches, DispositionsMatch, RowsBetween, RowsOutside, Numbered, Tombstoned;
    FullIsNumbered(full, t.tenantId);
    LedgerCompacted(t.ledger, full, t.state.minimumRetained, c.body.throughSequence);
  }

  lemma CompactKeepsInvariant(t: Tables, full: seq<AuditRecord>, c: RetentionCheckpoint, expected: ChainState, fence: int)
    requires Invariant(t, full) && CompactionError(t, c, expected, fence).None?
    ensures Invariant(Compacted(t, c), full)
    ensures |Compacted(t, c).hot| <= |t.hot|
  {
    hide CompactionError, LinkedRange, UniqueKeys, Tiling, LedgerMatches, DispositionsMatch, RowsBetween, RowsOutside, Tombstoned, LastHash, LastBoundary, Uncovered, EndHash;
    CompactedRange(t, full, c, expected, fence);
    CompactedLedger(t, full, c);
    CompactedIsCrop(t, full, c);
    TilingPushed(t.checkpoints, c, full, t.tenantId);
    DispositionsCompacted(t, c);
  }

  lemma FullIsNumbered(full: seq<AuditRecord>, tenantId: string)
    requires LinkedRange(full, tenantId, 1, None)
    ensures Numbered(full, 1)
  {
    forall i | 0 <= i < |full| ensures full[i].body.sequence == 1 + i {
      assert LinkedAt(full, i, tenantId, 1, None);
    }
  }

  /** The ghost chain after a transaction: an append that allocates a record extends it. */
  function GhostStep(full: seq<AuditRecord>, t: Tables, op: Operation): seq<AuditRecord> {
    var t' := Apply(t, op);
    if |t'.hot| > |t.hot| then full + [t'.hot[|t'.hot| - 1]] else full
  }

  function GhostRun(full: seq<AuditRecord>, t: Tables, ops: seq<Operation>): seq<AuditRecord>
    decreases |ops|
  {
    if ops == [] then full else GhostRun(GhostStep(full, t, ops[0]), Apply(t, ops[0]), ops[1..])
  }

  lemma AppendOpKeepsInvariant(t: Tables, full: seq<AuditRecord>, op: Operation)
    requires Invariant(t, full) && op.AppendOp?
    ensures Invariant(Apply(t, op), GhostStep(full, t, op)) && full <= GhostStep(full, t, op)
    ensures Apply(t, op).tenantId == t.tenantId
  {
    hide HashIdempotencyKey, Blank, Replay, FindByKey, ValidChainState, ValidStoredRecord, AppendNew, UniqueKeys, LinkedRange, Tiling, LedgerMatches, DispositionsMatch, EndHash;
    var keyHash := HashIdempotencyKey(t.tenantId, op.key.GetOr(op.event.id));
    if op.event.tenantId == t.tenantId && keyHash !in t.ledger {
      match FindByKey(t.hot, keyHash) {
        case Some(r) =>
          AdoptKeepsInvariant(t, full, keyHash, r);
        case None =>
          AppendRefusals(t, full, op.event, keyHash, op.expectedPrevious, op.now);
          if AppendNew(t, op.event, keyHash, op.expectedPrevious, op.now).1.Success? {
            AppendKeepsInvariant(t, full, op.event, keyHash, op.expectedPrevious, op.now);
          }
      }
    }
  }

  lemma DispositionsPrepared(t: Tables, attempt: DispositionAttempt)
    requires DispositionsMatch(t.checkpoints, t.attempts, t.receipts, t.state.fence)
    requires attempt.status == Pending && 0 <= attempt.policyFence <= t.state.fence
    requires attempt.checkpointHash !in t.receipts && CheckpointByHash(t.checkpoints, attempt.checkpointHash).Some?
    ensures DispositionsMatch(t.checkpoints, t.attempts[attempt.checkpointHash := attempt], t.receipts, t.state.fence)
  {
    hide CheckpointByHash, ValidDisposition;
  }

  lemma PrepareKeepsInvariant(t: Tables, full: seq<AuditRecord>, op: Operation)
    requires Invariant(t, full) && op.PrepareOp?
    ensures Invariant(Apply(t, op), full) && Apply(t, op).hot == t.hot && Apply(t, op).tenantId == t.tenantId
  {
    hide LinkedRange, UniqueKeys, Tiling, LedgerMatches, ValidChainState, CheckpointByHash, DispositionsMatch;
    if Apply(t, op) != t {
      DispositionsPrepared(t, op.attempt);
    }
  }

  lemma DispositionsConfirmed(t: Tables, checkpoint: RetentionCheckpoint, receipt: RetentionDisposition)
    requires DispositionsMatch(t.checkpoints, t.attempts, t.receipts, t.state.fence)
    requires receipt.body.checkpointHash in t.attempts
    requires CheckpointByHash(t.checkpoints, receipt.body.checkpointHash) == Some(checkpoint)
    requires ValidDisposition(receipt, checkpoint)
    ensures var h := receipt.body.checkpointHash;
            DispositionsMatch(t.checkpoints, t.attempts[h := t.attempts[h].(status := Disposed)],
                              t.receipts[h := receipt], t.state.fence)
  {
    hide ValidDisposition;
  }

  lemma ConfirmKeepsInvariant(t: Tables, full: seq<AuditRecord>, op: Operation)
    requires Invariant(t, full) && op.ConfirmOp?
    ensures Invariant(Apply(t, op), full) && Apply(t, op).hot == t.hot && Apply(t, op).tenantId == t.tenantId
  {
    hide LinkedRange, UniqueKeys, Tiling, LedgerMatches, Blank, ValidDisposition, ValidChainState, CheckpointByHash, DispositionsMatch;
    var t', h := Apply(t, op), op.receipt.body.checkpointHash;
    if t' != t {
      DispositionsConfirmed(t, CheckpointByHash(t.checkpoints, h).value, op.receipt);
    }
  }

  lemma ApplyKeepsInvariant(t: Tables, full: seq<AuditRecord>, op: Operation)
    requires Invariant(t, full)
    ensures Invariant(Apply(t, op), GhostStep(full, t, op))
    ensures full <= GhostStep(full, t, op) && Apply(t, op).tenantId == t.tenantId
  {
    hide LinkedRange, UniqueKeys, Tiling, LedgerMatches, DispositionsMatch, CompactionError;
    match op
    case AppendOp(_, _, _, _) => AppendOpKeepsInvariant(t, full, op);
    case AdvanceFenceOp(_) =>
      FenceKeepsDispositions(t);
    case CompactOp(c, expected, fence) =>
      if CompactionError(t, c, expected, fence).None? {
        CompactKeepsInvariant(t, full, c, expected, fence);
      }
    case PrepareOp(_, _, _) => PrepareKeepsInvariant(t, full, op);
    case ConfirmOp(_, _, _) => ConfirmKeepsInvariant(t, full, op);
  }

  lemma FenceKeepsDispositions(t: Tables)
    requires DispositionsMatch(t.checkpoints, t.attempts, t.receipts, t.state.fence)
    ensures DispositionsMatch(t.checkpoints, t.attempts, t.receipts, t.state.fence + 1)
  {
    hide Invariant, GhostStep, Apply;
  }

  /** Every run of transactions keeps the tables a crop of one chain that only ever grows. */
  lemma {:induction false} RunKeepsInvariant(t: Tables, full: seq<AuditRecord>, ops: seq<Operation>)
    requires Invariant(t, full)
    ensures Invariant(Run(t, ops), GhostRun(full, t, ops))
    ensures full <= GhostRun(full, t, ops)
    ensures Run(t, ops).tenantId == t.tenantId
    decreases |ops|
  {
    if ops != [] {
      ApplyKeepsInvariant(t, full, ops[0]);
      RunKeepsInvariant(Apply(t, ops[0]), GhostStep(full, t, ops[0]), ops[1..]);
    }
  }

  // ---------- Idempotency ----------

  /** The one answer the store owes for a key that names position `i` of the chain. */
  function OwedAnswer(full: seq<AuditRecord>, i: nat, minimum: int, event: Event): Result<AuditRecord, StoreError>
    requires i < |full|
  {
    if full[i].body.event != event then Failure(IdempotencyConflict)
    else if i + 1 < minimum then Failure(IdempotencyHistoryDisposed)
    else Success(full[i])
  }

  /** Re-appending a known key leaves the chain alone and gives the owed answer. */
  lemma KnownKeyReplays(t: Tables, full: seq<AuditRecord>, i: nat, event: Event, key: string,
                        expectedPrevious: Option<Option<Digest>>, now: int)
    requires Invariant(t, full) && i < |full|
    requires event.tenantId == t.tenantId && !Blank(t.tenantId) && !Blank(key)
    requires HashIdempotencyKey(t.tenantId, key) == full[i].body.idempotencyKeyHash
    ensures var (t', r) := Append(t, event, Some(key), expectedPrevious, now);
            && t' == t.(ledger := t'.ledger)
            && r == OwedAnswer(full, i, t.state.minimumRetained, event)
  {
    hide Tiling, DispositionsMatch, HashIdempotencyKey, Blank, AppendNew;
    var k := full[i].body.idempotencyKeyHash;
    var min := t.state.minimumRetained;
    assert LinkedAt(full, i, t.tenantId, 1, None);
    if k in t.ledger {
      assert EntryAt(t.ledger, k, full, min);
      assert t.ledger[k].sequence == i + 1;
    } else {
      assert i + 1 < min ==> KeyKnown(t.ledger, full, i);
      assert full[i] == t.hot[i - (min - 1)];
      UniqueSuffix(full, min - 1);
      FindByKeyAnswer(t.hot, k);
      assert FindByKey(t.hot, k) == Some(full[i]);
    }
  }

  /**
   However the store runs on after a key entered the chain, the key keeps naming the same
   position, and replaying it gives the original record while it is hot, the disposed error
   once it is cropped, and a conflict for any other event.
   */
  lemma IdempotencySurvivesRuns(t: Tables, full: seq<AuditRecord>, ops: seq<Operation>, i: nat, event: Event,
                                key: string, expectedPrevious: Option<Option<Digest>>, now: int)
    requires Invariant(t, full) && i < |full|
    requires event.tenantId == t.tenantId && !Blank(t.tenantId) && !Blank(key)
    requires HashIdempotencyKey(t.tenantId, key) == full[i].body.idempotencyKeyHash
    ensures var later, chain := Run(t, ops), GhostRun(full, t, ops);
            var (t', r) := Append(later, event, Some(key), expectedPrevious, now);
            && full <= chain && UniqueKeys(chain)
            && t' == later.(ledger := t'.ledger)
            && r == OwedAnswer(full, i, later.state.minimumRetained, event)
  {
    hide Append, UniqueKeys, CropOf, LinkedRange, Tiling, LedgerMatches, DispositionsMatch;
    RunKeepsInvariant(t, full, ops);
    assert UniqueKeys(GhostRun(full, t, ops));
    KnownKeyReplays(Run(t, ops), GhostRun(full, t, ops), i, event, key, expectedPrevious, now);
  }

  /** A fresh key is always appended right behind the ghost tip, however much was cropped. */
  lemma FreshKeyExtendsChain(t: Tables, full: seq<AuditRecord>, ops: seq<Operation>, event: Event, key: string, now: int)
    requires Invariant(t, full)
    requires event.tenantId == t.tenantId && !Blank(t.tenantId) && !Blank(key)
    requires var chain := GhostRun(full, t, ops);
             |chain| < MAX_SAFE_INTEGER
             && forall j | 0 <= j < |chain| :: chain[j].body.idempotencyKeyHash != HashIdempotencyKey(t.tenantId, key)
    ensures var later, chain := Run(t, ops), GhostRun(full, t, ops);
            var (t', r) := Append(later, event, Some(key), None, now);
            && r.Success? && r.value.body.event == event
            && r.value.body.sequence == |chain| + 1 && r.value.body.previousHash == EndHash(chain, None)
            && Invariant(t', chain + [r.value])
  {
    hide Blank, LinkedRange, Tiling, DispositionsMatch, UniqueKeys, AppendNew;
    RunKeepsInvariant(t, full, ops);
    var later, chain := Run(t, ops), GhostRun(full, t, ops);
    var k := HashIdempotencyKey(t.tenantId, key);
    assert k !in later.ledger by {
      assert k in later.ledger ==> EntryAt(later.ledger, k, chain, later.state.minimumRetained);
    }
    UniqueSuffix(chain, later.state.minimumRetained - 1);
    FindByKeyAnswer(later.hot, k);
    AppendRefusals(later, chain, event, k, None, now);
    AppendKeepsInvariant(later, chain, event, k, None, now);
  }

  // ---------- Dispositions ----------

  /** What one transaction may do to a checkpoint's attempt and receipt. */
  predicate AllowedDispositionStep(t: Tables, t': Tables, op: Operation, h: Digest) {
    && t.state.fence <= t'.state.fence
    && (h in t.receipts ==> h in t'.receipts && t'.receipts[h] == t.receipts[h])
    && (h in t.attempts ==> h in t'.attempts && t.attempts[h].policyFence <= t'.attempts[h].policyFence)
    && (h !in t.receipts && h in t'.receipts ==>
         op.ConfirmOp? && h in t.attempts && t.attempts[h].policyFence == t.state.fence)
    && (h in t.attempts && !(op.PrepareOp? && op.checkpointHash == h) ==>
         t'.attempts[h].policyFence == t.attempts[h].policyFence)
    && (h !in t.attempts && h in t'.attempts ==> op.PrepareOp? && op.checkpointHash == h)
  }

  lemma ChainOpsKeepDispositions(t: Tables, op: Operation)
    requires op.AppendOp? || op.AdvanceFenceOp? || op.CompactOp?
    ensures Apply(t, op).attempts == t.attempts && Apply(t, op).receipts == t.receipts
    ensures t.state.fence <= Apply(t, op).state.fence
  {
    hide HashIdempotencyKey, Blank, Replay, FindByKey, ValidStoredRecord, CompactionError, RowsBetween, RowsOutside, Tombstoned;
  }

  lemma DispositionOpsStep(t: Tables, full: seq<AuditRecord>, op: Operation, h: Digest)
    requires Invariant(t, full) && (op.PrepareOp? || op.ConfirmOp?)
    ensures AllowedDispositionStep(t, Apply(t, op), op, h)
  {
    hide LinkedRange, UniqueKeys, Tiling, LedgerMatches, CropOf, Blank, ValidChainState, ValidDisposition, CheckpointByHash;
  }

  lemma DispositionStep(t: Tables, full: seq<AuditRecord>, op: Operation, h: Digest)
    requires Invariant(t, full)
    ensures AllowedDispositionStep(t, Apply(t, op), op, h)
  {
    hide Apply, Invariant;
    if op.PrepareOp? || op.ConfirmOp? {
      DispositionOpsStep(t, full, op, h);
    } else {
      ChainOpsKeepDispositions(t, op);
    }
  }

  /** Receipts are written once and never change; attempt fences only rise. */
  lemma {:induction false} ReceiptsAreFinal(t: Tables, full: seq<AuditRecord>, ops: seq<Operation>, h: Digest)
    requires Invariant(t, full)
    ensures h in t.receipts ==> h in Run(t, ops).receipts && Run(t, ops).receipts[h] == t.receipts[h]
    ensures h in t.attempts ==> h in Run(t, ops).attempts && t.attempts[h].policyFence <= Run(t, ops).attempts[h].policyFence
    decreases |ops|
  {
    hide Invariant, Apply, GhostStep;
    if ops != [] {
      DispositionStep(t, full, ops[0], h);
      ApplyKeepsInvariant(t, full, ops[0]);
      ReceiptsAreFinal(Apply(t, ops[0]), GhostStep(full, t, ops[0]), ops[1..], h);
    }
  }

  /**
   An attempt prepared under an older fence cannot produce a receipt, in any run that does
   not prepare the checkpoint again.
   */
  lemma {:induction false} StaleAttemptCannotDispose(t: Tables, full: seq<AuditRecord>, ops: seq<Operation>, h: Digest)
    requires Invariant(t, full) && h !in t.receipts
    requires h in t.attempts ==> t.attempts[h].policyFence < t.state.fence
    requires forall i | 0 <= i < |ops| :: !(ops[i].PrepareOp? && ops[i].checkpointHash == h)
    ensures h !in Run(t, ops).receipts
    decreases |ops|
  {
    hide Invariant, Apply, GhostStep;
    if ops != [] {
      DispositionStep(t, full, ops[0], h);
      ApplyKeepsInvariant(t, full, ops[0]);
      StaleAttemptCannotDispose(Apply(t, ops[0]), GhostStep(full, t, ops[0]), ops[1..], h);
    }
  }
}
