/**
 The offline verifiers of a retained chain, and their match with the store: what the store
 can reach verifies, and what verifies is determined by its last hash.
 */
module RetentionVerifiers {
  import opened Wrappers
  import opened Protocol
  import opened AuditTables
  import opened AuditRuns

  datatype Reason =
    | InvalidCheckpointRecord | EpochMismatch | MissingTenantScope | TenantMismatch | ChainKindMismatch | RangeMismatch
    | PreviousCheckpointMismatch | UnsupportedHashAlgorithm | UnsupportedCanonicalization
    | SequenceMismatch | PreviousHashMismatch | RecordHashMismatch

  datatype Verdict = Accepted | Rejected(index: int, reason: Reason)

  // ---------- Checkpoint chains ----------

  /** Checkpoint `i` is valid, is epoch `i + 1` and extends its predecessor. */
  predicate ChainLink(cs: seq<RetentionCheckpoint>, i: nat)
    requires i < |cs|
  {
    var c := cs[i];
    && ValidCheckpoint(c)
    && c.body.epoch == i + 1
    && (i > 0 ==>
         var p := cs[i - 1];
         && c.body.tenantId == p.body.tenantId
         && c.body.chainKind == p.body.chainKind
         && c.body.fromSequence == p.body.throughSequence + 1
         && c.body.fromPreviousHash == Some(p.body.throughHash)
         && c.body.previousCheckpointHash == Some(p.hash))
  }

  predicate CheckpointChain(cs: seq<RetentionCheckpoint>) {
    forall i | 0 <= i < |cs| :: ChainLink(cs, i)
  }

  method VerifyRetentionCheckpointChain(cs: seq<RetentionCheckpoint>) returns (v: Verdict)
    ensures v.Accepted? <==> CheckpointChain(cs)
    ensures v.Rejected? ==> 0 <= v.index < |cs| && CheckpointChain(cs[..v.index]) && LinkFault(cs, v.index, v.reason)
  {
    hide LinkFault;
    for index := 0 to |cs|
      invariant forall j | 0 <= j < index :: ChainLink(cs, j)
    {
      v := CheckLink(cs, index);
      if v.Rejected? {
        forall j | 0 <= j < index ensures ChainLink(cs[..index], j) {
          assert ChainLink(cs, j);
        }
        return;
      }
    }
    return Accepted;
  }

  /** `reason` is the first check in the verifier's order that checkpoint `i` fails. */
  predicate LinkFault(cs: seq<RetentionCheckpoint>, i: nat, reason: Reason)
    requires i < |cs|
  {
    var c := cs[i];
    if !ValidCheckpoint(c) then reason == InvalidCheckpointRecord
    else if c.body.epoch != i + 1 then reason == EpochMismatch
    else
      && i > 0
      && var p := cs[i - 1];
         if c.body.tenantId != p.body.tenantId then reason == TenantMismatch
         else if c.body.chainKind != p.body.chainKind then reason == ChainKindMismatch
         else if c.body.fromSequence != p.body.throughSequence + 1 || c.body.fromPreviousHash != Some(p.body.throughHash)
         then reason == RangeMismatch
         else reason == PreviousCheckpointMismatch && c.body.previousCheckpointHash != Some(p.hash)
  }

  method CheckLink(cs: seq<RetentionCheckpoint>, index: nat) returns (v: Verdict)
    requires index < |cs|
    ensures v.Accepted? <==> ChainLink(cs, index)
    ensures v.Rejected? ==> v.index == index && LinkFault(cs, index, v.reason)
  {
    hide ValidCheckpoint;
    var c := cs[index];
    if !ValidCheckpoint(c) { return Rejected(index, InvalidCheckpointRecord); }
    if c.body.epoch != index + 1 { return Rejected(index, EpochMismatch); }
    if index == 0 { return Accepted; }
    var p := cs[index - 1];
    if c.body.tenantId != p.body.tenantId { return Rejected(index, TenantMismatch); }
    if c.body.chainKind != p.body.chainKind { return Rejected(index, ChainKindMismatch); }
    if c.body.fromSequence != p.body.throughSequence + 1 || c.body.fromPreviousHash != Some(p.body.throughHash) {
      return Rejected(index, RangeMismatch);
    }
    if c.body.previousCheckpointHash != Some(p.hash) { return Rejected(index, PreviousCheckpointMismatch); }
    return Accepted;
  }

  // ---------- Retained tails ----------

  predicate TailOf(c: RetentionCheckpoint, records: seq<AuditRecord>) {
    && ValidCheckpoint(c)
    && LinkedRange(records, c.body.tenantId, c.body.throughSequence + 1, Some(c.body.throughHash))
  }

  /** Verifies a retained tail from the tip of a checkpoint. */
  method VerifyAuditRecordsFromCheckpoint(c: RetentionCheckpoint, records: seq<AuditRecord>) returns (v: Verdict)
    ensures v.Accepted? <==> TailOf(c, records)
    ensures v.Rejected? && ValidCheckpoint(c) ==>
              && 0 <= v.index < |records|
              && TailOf(c, records[..v.index]) && !TailOf(c, records[..v.index + 1])
              && TailFault(c, records, v.index, v.reason)
    ensures v.Rejected? && !ValidCheckpoint(c) ==> v == Rejected(0, InvalidCheckpointRecord)
  {
    hide ValidCheckpoint;
    if !ValidCheckpoint(c) { return Rejected(0, InvalidCheckpointRecord); }
    var sequence := c.body.throughSequence;
    var previousHash := c.body.throughHash;
    var start, link := sequence + 1, Some(previousHash);
    for index := 0 to |records|
      invariant sequence == c.body.throughSequence + index
      invariant Some(previousHash) == LinkAt(records, index, link)
      invariant forall j | 0 <= j < index :: LinkedAt(records, j, c.body.tenantId, start, link)
    {
      var r := records[index];
      v := CheckTailRecord(c, r, index, sequence, previousHash);
      if v.Rejected? {
        assert !LinkedAt(records, index, c.body.tenantId, start, link);
        TailPrefix(c, records, index, start, link);
        return;
      }
      sequence := r.body.sequence;
      previousHash := r.hash;
    }
    return Accepted;
  }

  /** `reason` is the first check in the verifier's order that record `i` of the tail fails. */
  predicate TailFault(c: RetentionCheckpoint, records: seq<AuditRecord>, i: nat, reason: Reason)
    requires i < |records|
  {
    RecordFault(c, records[i], c.body.throughSequence + i + 1, LinkAt(records, i, Some(c.body.throughHash)), reason)
  }

  /** The same for one record, from the sequence and previous hash it must have. */
  predicate RecordFault(c: RetentionCheckpoint, r: AuditRecord, sequence: int, previousHash: Option<Digest>, reason: Reason) {
    if r.body.event.tenantId != c.body.tenantId then reason == if r.body.event.tenantId == [] then MissingTenantScope else TenantMismatch
    else if r.body.hashAlgorithm != Sha256 then reason == UnsupportedHashAlgorithm
    else if r.body.canonicalization != VeritioJsonV1 then reason == UnsupportedCanonicalization
    else if r.body.sequence != sequence then reason == SequenceMismatch
    else if r.body.previousHash != previousHash then reason == PreviousHashMismatch
    else reason == RecordHashMismatch && r.hash != RecordDigest(r.body)
  }

  lemma TailPrefix(c: RetentionCheckpoint, records: seq<AuditRecord>, index: nat, start: int, link: Option<Digest>)
    requires ValidCheckpoint(c) && index < |records|
    requires start == c.body.throughSequence + 1 && link == Some(c.body.throughHash)
    requires forall j | 0 <= j < index :: LinkedAt(records, j, c.body.tenantId, start, link)
    requires !LinkedAt(records, index, c.body.tenantId, start, link)
    ensures TailOf(c, records[..index]) && !TailOf(c, records[..index + 1]) && !TailOf(c, records)
  {
    hide ValidCheckpoint;
    var tenant := c.body.tenantId;
    forall j | 0 <= j < index ensures LinkedAt(records[..index], j, tenant, start, link) {
      assert LinkedAt(records, j, tenant, start, link);
    }
    assert !LinkedAt(records[..index + 1], index, tenant, start, link);
  }

  method CheckTailRecord(c: RetentionCheckpoint, r: AuditRecord, index: int, sequence: int, previousHash: Digest)
    returns (v: Verdict)
    ensures v.Accepted? <==>
              IntactRecord(r, c.body.tenantId) && r.body.sequence == sequence + 1 && r.body.previousHash == Some(previousHash)
    ensures v.Rejected? ==> v.index == index && RecordFault(c, r, sequence + 1, Some(previousHash), v.reason)
  {
    if r.body.event.tenantId != c.body.tenantId {
      return Rejected(index, if r.body.event.tenantId == [] then MissingTenantScope else TenantMismatch);
    }
    if r.body.hashAlgorithm != Sha256 { return Rejected(index, UnsupportedHashAlgorithm); }
    if r.body.canonicalization != VeritioJsonV1 { return Rejected(index, UnsupportedCanonicalization); }
    if r.body.sequence != sequence + 1 { return Rejected(index, SequenceMismatch); }
    if r.body.previousHash != Some(previousHash) { return Rejected(index, PreviousHashMismatch); }
    if r.hash != RecordDigest(r.body) { return Rejected(index, RecordHashMismatch); }
    return Accepted;
  }

  // ---------- The store passes its verifiers ----------

  lemma TilingIsChain(cs: seq<RetentionCheckpoint>, full: seq<AuditRecord>, tenantId: string)
    requires Tiling(cs, full, tenantId)
    ensures CheckpointChain(cs)
  {
    forall i | 0 <= i < |cs| ensures ChainLink(cs, i) {
      assert TileAt(cs, i, full, tenantId);
      if i > 0 {
        assert TileAt(cs, i - 1, full, tenantId);
        assert cs[..i][|cs[..i]| - 1] == cs[i - 1];
      }
    }
  }

  lemma HotRowsAreTail(t: Tables, full: seq<AuditRecord>)
    requires Invariant(t, full)
    ensures t.checkpoints == [] ==> LinkedRange(t.hot, t.tenantId, 1, None)
    ensures t.checkpoints != [] ==> TailOf(t.checkpoints[|t.checkpoints| - 1], t.hot)
  {
    hide UniqueKeys, LedgerMatches, DispositionsMatch, LinkedRange;
    var min := t.state.minimumRetained;
    LinkedRangePart(full, t.tenantId, 1, None, min - 1, |full|);
    assert full[min - 1..|full|] == t.hot;
    if t.checkpoints != [] {
      assert TileAt(t.checkpoints, |t.checkpoints| - 1, full, t.tenantId);
    }
  }

  /**
   After any run over a legacy chain the stored checkpoints pass the chain verifier and the
   hot rows pass the tail verifier from the last checkpoint, or from genesis before the first.
   */
  lemma ReachableStoresVerify(tenantId: string, legacy: seq<AuditRecord>, ops: seq<Operation>)
    requires LinkedRange(legacy, tenantId, 1, None) && UniqueKeys(legacy) && |legacy| <= MAX_SAFE_INTEGER
    ensures var t := Run(LegacyTables(tenantId, legacy), ops);
            && CheckpointChain(t.checkpoints)
            && (if t.checkpoints == [] then LinkedRange(t.hot, tenantId, 1, None)
                else TailOf(t.checkpoints[|t.checkpoints| - 1], t.hot))
  {
    LegacyStart(tenantId, legacy);
    RunKeepsInvariant(LegacyTables(tenantId, legacy), legacy, ops);
    var t, full := Run(LegacyTables(tenantId, legacy), ops), GhostRun(legacy, LegacyTables(tenantId, legacy), ops);
    TilingIsChain(t.checkpoints, full, tenantId);
    HotRowsAreTail(t, full);
  }

  // ---------- What verifies is determined by its end ----------

  /** Two nonempty tails accepted from one checkpoint that end on the same hash are the same tail. */
  lemma TailDetermined(c: RetentionCheckpoint, a: seq<AuditRecord>, b: seq<AuditRecord>)
    requires TailOf(c, a) && TailOf(c, b) && a != [] && b != []
    requires a[|a| - 1].hash == b[|b| - 1].hash
    ensures a == b
  {
    hide ValidCheckpoint, LinkedRange;
    var start, link := c.body.throughSequence + 1, Some(c.body.throughHash);
    LinkedIsChained(a, c.body.tenantId, start, link);
    LinkedIsChained(b, c.body.tenantId, start, link);
    ChainDetermined(a, b, c.body.tenantId, start, link);
  }

  /** The hash of the last checkpoint commits to the whole accepted checkpoint history. */
  lemma {:induction false} CheckpointChainDetermined(a: seq<RetentionCheckpoint>, b: seq<RetentionCheckpoint>)
    requires CheckpointChain(a) && CheckpointChain(b) && a != [] && b != []
    requires a[|a| - 1].hash == b[|b| - 1].hash
    ensures a == b
  {
    assert ChainLink(a, |a| - 1) && ChainLink(b, |b| - 1);
    SameCheckpoints(a, b, |a| - 1);
  }

  lemma {:induction false} SameCheckpoints(a: seq<RetentionCheckpoint>, b: seq<RetentionCheckpoint>, i: nat)
    requires CheckpointChain(a) && CheckpointChain(b) && i < |a| == |b| && a[i].hash == b[i].hash
    ensures a[..i + 1] == b[..i + 1]
    decreases i
  {
    assert ChainLink(a, i) && ChainLink(b, i);
    if i > 0 {
      SameCheckpoints(a, b, i - 1);
    }
    assert a[..i + 1] == a[..i] + [a[i]] && b[..i + 1] == b[..i] + [b[i]];
  }

  /** A receipt accepted for two checkpoints was accepted for one checkpoint. */
  lemma ReceiptNamesOneCheckpoint(d: RetentionDisposition, c1: RetentionCheckpoint, c2: RetentionCheckpoint)
    requires ValidDisposition(d, c1) && ValidDisposition(d, c2)
    ensures c1 == c2
  {
    assert CheckpointDigest(c1.body) == CheckpointDigest(c2.body);
  }

  // ---------- What acceptance means, range by range ----------

  function RecordsCovered(cs: seq<RetentionCheckpoint>): int {
    if cs == [] then 0 else RecordsCovered(cs[..|cs| - 1]) + cs[|cs| - 1].body.recordCount
  }

  /** Checkpoint `i` starts right behind the one before it, in sequence and in hash, and names it. */
  predicate Adjoins(cs: seq<RetentionCheckpoint>, i: nat)
    requires 0 < i < |cs|
  {
    var p, c := cs[i - 1], cs[i];
    && c.body.fromSequence == p.body.throughSequence + 1 && c.body.fromPreviousHash == Some(p.body.throughHash)
    && c.body.previousCheckpointHash == Some(p.hash) && c.body.epoch == p.body.epoch + 1
    && c.body.tenantId == p.body.tenantId && c.body.chainKind == p.body.chainKind
  }

  /**
   An accepted chain tiles the history from its first record on: each checkpoint hashes to itself
   and adjoins the one before it, and together they count every record once.
   */
  lemma {:induction false} AcceptedChainTiles(cs: seq<RetentionCheckpoint>)
    requires CheckpointChain(cs) && cs != []
    ensures forall i | 0 <= i < |cs| :: cs[i].hash == CheckpointDigest(cs[i].body) && cs[i].body.epoch == i + 1
    ensures forall i | 0 < i < |cs| :: Adjoins(cs, i)
    ensures cs[0].body.fromSequence == 1 && cs[0].body.fromPreviousHash == None && cs[0].body.previousCheckpointHash == None
    ensures RecordsCovered(cs) == cs[|cs| - 1].body.throughSequence
    decreases |cs|
  {
    var n := |cs| - 1;
    assert ChainLink(cs, n) && ChainLink(cs, 0);
    forall i | 0 <= i < |cs| ensures cs[i].hash == CheckpointDigest(cs[i].body) && cs[i].body.epoch == i + 1 {
      assert ChainLink(cs, i);
    }
    forall i | 0 < i < |cs| ensures Adjoins(cs, i) {
      assert ChainLink(cs, i) && ChainLink(cs, i - 1);
    }
    var front := cs[..n];
    if n > 0 {
      forall i | 0 <= i < n ensures ChainLink(front, i) { assert ChainLink(cs, i); }
      AcceptedChainTiles(front);
    } else {
      assert RecordsCovered(front) == 0;
    }
  }

  /** Record `i` of the tail hashes to itself and comes right behind the one before it, or behind the checkpoint's boundary. */
  predicate ContinuesTail(c: RetentionCheckpoint, records: seq<AuditRecord>, i: nat)
    requires i < |records|
  {
    var r := records[i];
    && r.hash == RecordDigest(r.body) && r.body.event.tenantId == c.body.tenantId
    && r.body.hashAlgorithm == Sha256 && r.body.canonicalization == VeritioJsonV1
    && r.body.sequence == c.body.throughSequence + 1 + i
    && r.body.previousHash == Some(if i == 0 then c.body.throughHash else records[i - 1].hash)
  }

  /** A tail is accepted exactly when its records continue the checkpoint one by one. */
  lemma AcceptedTailContinues(c: RetentionCheckpoint, records: seq<AuditRecord>)
    ensures TailOf(c, records) <==> ValidCheckpoint(c) && forall i | 0 <= i < |records| :: ContinuesTail(c, records, i)
  {
    hide ValidCheckpoint;
    var start, link := c.body.throughSequence + 1, Some(c.body.throughHash);
    assert forall i | 0 <= i < |records| :: LinkedAt(records, i, c.body.tenantId, start, link) <==> ContinuesTail(c, records, i);
  }
}
