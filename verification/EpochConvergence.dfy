/**
 Convergence of the epoch protocol: from every state crashed runs can leave, one rerun with the
 same inputs at the store's current fence and state, left alone, finishes with a receipt.
 */
module EpochConvergence {
  import opened Wrappers
  import opened Protocol
  import opened AuditTables
  import opened AuditRuns
  import opened Staging
  import opened SealedEpochs
  import opened EpochProtocol
  import opened EpochSafety

  // ---------- A run left alone ends ----------

  function KeyCount(staged: Option<Manifest>): nat {
    match staged case None => 0 case Some(m) => 1 + |ExpectedKeys(m)|
  }

  function StagedBy(objects: Objects, c: RetentionCheckpoint): Option<Manifest> {
    match RecoverEpoch(objects, c) case Found(m) => Some(m) case _ => None
  }

  /** Steps a run may still take before it checks what is stored. */
  function LateRank(cfg: Config, w: World): nat {
    match w.pc
    case Ended(_) => 0
    case ReplayingAbsence(_, _) => 1
    case WritingReceipt(_) => 1
    case ConfirmingAbsence(_, _) => 2
    case Deleting(_, _, keys) => 3 + |keys|
    case Preparing(_, staged) => 4 + KeyCount(staged)
    case AcceptedCheck(_, staged) => 5 + KeyCount(staged)
    case DurableCheck(_, staged) => 6 + KeyCount(staged)
    case FenceCheck(_, staged) => 7 + KeyCount(staged)
    case Cropping(_, staged) => 8 + KeyCount(staged)
    case CropCheck(_, staged) => 9 + KeyCount(staged)
    case Verifying(_, m) => 10 + KeyCount(Some(m))
    case Sealing(_, m, puts) => 11 + KeyCount(Some(m)) + |puts|
    case Recovering(c, _) => 10 + KeyCount(StagedBy(w.objects, c))
    case ListingDispositions(_) => 0
    case ListingCheckpoints => 0
  }

  function Rank(cfg: Config, w: World): nat {
    match w.pc
    case ListingCheckpoints => 2 + LateRank(cfg, Advance(cfg, Advance(cfg, w, 0), 0))
    case ListingDispositions(_) => 1 + LateRank(cfg, Advance(cfg, w, 0))
    case _ => LateRank(cfg, w)
  }

  lemma LateRankFalls(cfg: Config, w: World, now: int)
    requires !w.pc.Ended? && !w.pc.ListingCheckpoints? && !w.pc.ListingDispositions?
    ensures var next := Advance(cfg, w, now);
            && LateRank(cfg, next) < LateRank(cfg, w)
            && !next.pc.ListingCheckpoints? && !next.pc.ListingDispositions?
  {
    hide RecoverEpoch, AcceptedBinding, PutExact, VerifyEpoch, CheckpointAtEpoch, CheckpointByHash, CompactRange,
         PrepareDisposition, ConfirmDisposition, ValidDisposition, ValidManifest, EpochAbsent, CheckpointEpochAbsent, ExpectedKeys;
  }

  lemma RankFalls(cfg: Config, w: World, now: int)
    requires !w.pc.Ended?
    ensures Rank(cfg, Advance(cfg, w, now)) < Rank(cfg, w)
  {
    hide LateRank, RecoverEpoch, AfterRecovery, SealStep, CropCheckStep, CropStep, AcceptedStep, PrepareStep, DeleteStep,
         AbsenceStep, ReceiptStep, VerifyEpoch, ValidCheckpoint, ValidSealInput, ValidManifest;
    if !w.pc.ListingCheckpoints? && !w.pc.ListingDispositions? {
      LateRankFalls(cfg, w, now);
    }
  }

  /** The run's remaining steps, with nobody acting in between. */
  function Finish(cfg: Config, w: World, now: int): World
    decreases Rank(cfg, w)
  {
    if w.pc.Ended? then w
    else
      RankFalls(cfg, w, now);
      Finish(cfg, Advance(cfg, w, now), now)
  }

  /** `Finish` is a sequence of `Proceed` actions. */
  lemma {:induction false} FinishIsARun(cfg: Config, w: World, now: int) returns (actions: seq<Action>)
    requires ValidConfig(cfg)
    ensures RunFrom(cfg, w, actions) == Finish(cfg, w, now) && AllAllowed(cfg, w, actions)
    ensures forall i | 0 <= i < |actions| :: actions[i] == Proceed(now)
    decreases Rank(cfg, w)
  {
    hide Advance, Rank, ValidConfig;
    if w.pc.Ended? {
      actions := [];
    } else {
      RankFalls(cfg, w, now);
      var rest := FinishIsARun(cfg, Advance(cfg, w, now), now);
      actions := [Proceed(now)] + rest;
      assert actions[1..] == rest;
    }
  }

  // ---------- A current rerun does not fail ----------

  /** The caller's inputs are the store's own: its last checkpoint and the records behind it. */
  predicate Authoritative(cfg: Config, before: seq<RetentionCheckpoint>, chain: seq<AuditRecord>) {
    && ValidConfig(cfg)
    && !Blank(cfg.attemptId)
    && cfg.previous == (if before == [] then None else Some(before[|before| - 1]))
    && CoversRecords(chain, TheCheckpoint(cfg).body, cfg.records)
    && TheCheckpoint(cfg).body.throughSequence < MAX_SAFE_INTEGER
  }

  /** The run was started with the store's current fence and, before the crop, its current state. */
  predicate Current(cfg: Config, w: World) {
    && w.version == w.tables.state.fence
    && (!Stored(cfg, w.tables) ==> w.expected == w.tables.state)
  }

  predicate Fresh(cfg: Config, before: seq<RetentionCheckpoint>, w: World) {
    Safe(cfg, before, w) && Authoritative(cfg, before, w.chain) && Current(cfg, w)
  }

  predicate Unfailed(w: World) {
    w.pc.Ended? ==> w.pc.outcome.Some?
  }

  lemma ListingGoesOn(cfg: Config, before: seq<RetentionCheckpoint>, w: World, stored: Option<RetentionCheckpoint>)
    requires Safe(cfg, before, w) && w.pc == ListingDispositions(stored)
    ensures !AfterDispositions(cfg, w, stored).pc.Ended?
  {
    hide Safe, ValidManifest, Invariant, Cropped, Uncropped, ValidCheckpoint, BuildManifest, ValidSealInput, ExtendsAnchor, ReplayedCheckpoint;
    SafeConfig(cfg, before, w);
    ConfigFacts(cfg);
    AnchorFacts(cfg);
    TheCheckpointIsValid(cfg);
    if !Stored(cfg, w.tables) {
      NothingBeforeCrop(cfg, before, w);
    }
  }

  lemma DisposedIsEmpty(cfg: Config, before: seq<RetentionCheckpoint>, w: World, r: RetentionDisposition)
    requires Safe(cfg, before, w) && ValidConfig(cfg) && ReceiptStored(cfg, w, r)
    ensures TheView(cfg, w.objects) == map[] && AcceptedBinding(cfg, TheCheckpoint(cfg), r)
  {
    hide Invariant, LocalFacts, ValidConfig, TheView, TheCheckpoint, TheManifest, TheImage, CoversRecords, AcceptedBinding;
  }

  lemma EmptyIsAbsent(cfg: Config, objects: Objects)
    requires ValidConfig(cfg) && TheView(cfg, objects) == map[]
    ensures CheckpointEpochAbsent(objects, TheCheckpoint(cfg)) && EpochAbsent(objects, TheManifest(cfg))
    ensures RecoverEpoch(objects, TheCheckpoint(cfg)) == Missing
  {
    hide ValidConfig, TheManifest, ExpectedKeys, ValidCheckpoint, ValidManifest, BindsCheckpoint, TheCheckpoint;
    ConfigFacts(cfg);
    TheCheckpointIsValid(cfg);
    EpochOfTheCheckpoint(cfg);
    ManifestKeyLast(cfg);
    var keys := ExpectedKeys(TheManifest(cfg));
    forall k | InEpoch(k, cfg.tenantId, Epoch(cfg)) ensures k !in objects {
      assert k !in TheView(cfg, objects);
    }
  }

  lemma RecoveryGoesOn(cfg: Config, before: seq<RetentionCheckpoint>, w: World, c: RetentionCheckpoint, accepted: Option<RetentionDisposition>)
    requires Safe(cfg, before, w) && w.pc == Recovering(c, accepted)
    ensures !AfterRecovery(cfg, w, c, accepted).pc.Ended?
  {
    hide Safe, ValidConfig, TheView, TheCheckpoint, TheManifest, RecoverEpoch, AcceptedBinding, Stored;
    SafeConfig(cfg, before, w);
    if accepted.Some? {
      DisposedIsEmpty(cfg, before, w, accepted.value);
      EmptyIsAbsent(cfg, w.objects);
    } else {
      RecoveredManifest(cfg, before, w);
    }
  }

  lemma SealGoesOn(cfg: Config, before: seq<RetentionCheckpoint>, w: World, c: RetentionCheckpoint, m: Manifest, puts: seq<Put>)
    requires Safe(cfg, before, w) && w.pc == Sealing(c, m, puts)
    ensures !SealStep(w, c, m, puts).pc.Ended?
  {
    hide Invariant, ValidConfig, TheCheckpoint, TheManifest, TheImage, Cropped, SealedUpTo;
    if puts != [] {
      NextPut(cfg, w, puts);
      assert puts[0].0 in w.objects ==> puts[0].0 in TheView(cfg, w.objects);
    }
  }

  // ---------- The crop ----------

  lemma IntactRange(full: seq<AuditRecord>, tenantId: string, from: int, through: int)
    requires LinkedRange(full, tenantId, 1, None) && 1 <= from <= through <= |full|
    ensures var range := full[from - 1..through];
            && LinkedRange(range, tenantId, from, LinkAt(full, from - 1, None))
            && EndHash(range, LinkAt(full, from - 1, None)) == Some(full[through - 1].hash)
            && forall i | 0 <= i < |range| :: ValidStoredRecord(range[i], tenantId)
  {
    hide EndHash;
    LinkedRangePart(full, tenantId, 1, None, from - 1, through);
    var range := full[from - 1..through];
    forall i | 0 <= i < |range| ensures ValidStoredRecord(range[i], tenantId) {
      assert LinkedAt(full, from - 1 + i, tenantId, 1, None);
    }
  }

  /** A caller's checkpoint over the store's own records is the next tile of the chain. */
  lemma AuthoritativeTile(cfg: Config, before: seq<RetentionCheckpoint>, full: seq<AuditRecord>)
    requires Authoritative(cfg, before, full)
    ensures var c := TheCheckpoint(cfg).body;
            && c.fromSequence == Uncovered(before) && c.fromPreviousHash == LastBoundary(before)
            && c.previousCheckpointHash == LastHash(before)
            && c.epoch == Epoch(cfg) && c.tenantId == cfg.tenantId
  {
    hide ValidConfig, ValidCheckpoint, TheCheckpoint, CoversRecords;
    AnchorFacts(cfg);
  }

  lemma RangeIsIntact(cfg: Config, full: seq<AuditRecord>)
    requires ValidConfig(cfg) && LinkedRange(full, cfg.tenantId, 1, None)
    requires CoversRecords(full, TheCheckpoint(cfg).body, cfg.records)
    ensures RangeError(TheCheckpoint(cfg), cfg.records, cfg.tenantId).None?
  {
    hide ValidConfig, TheCheckpoint, LinkedRange, Chained, ValidStoredRecord, LinkAt, EndHash;
    var c := TheCheckpoint(cfg).body;
    InputRange(cfg);
    IntactRange(full, cfg.tenantId, c.fromSequence, c.throughSequence);
    CountOfTheCheckpoint(cfg);
    SameAnchor(cfg, full);
  }

  lemma CountOfTheCheckpoint(cfg: Config)
    requires ValidConfig(cfg)
    ensures TheCheckpoint(cfg).body.recordCount == |cfg.records|
  {
    hide ValidManifest, ValidSealInput, Batches, SegmentsOf, Descriptors;
  }

  /** The record before the range is the one the checkpoint's anchor names. */
  lemma SameAnchor(cfg: Config, full: seq<AuditRecord>)
    requires ValidConfig(cfg) && LinkedRange(full, cfg.tenantId, 1, None)
    requires CoversRecords(full, TheCheckpoint(cfg).body, cfg.records)
    ensures var c := TheCheckpoint(cfg).body;
            && LinkAt(full, c.fromSequence - 1, None) == c.fromPreviousHash
            && full[c.throughSequence - 1].hash == c.throughHash
  {
    hide ValidConfig, TheCheckpoint, IntactRecord, HashedRecord;
    var c := TheCheckpoint(cfg).body;
    InputRange(cfg);
    assert cfg.records[0] == full[c.fromSequence - 1];
    assert LinkedAt(full, c.fromSequence - 1, cfg.tenantId, 1, None);
    assert ChainedAt(cfg.records, 0, cfg.tenantId, c.fromSequence, c.fromPreviousHash);
  }

  lemma HotRange(t: Tables, full: seq<AuditRecord>, through: int)
    requires Invariant(t, full) && t.state.minimumRetained - 1 <= through <= |full|
    ensures t.state.minimumRetained >= 1
    ensures RowsBetween(t.hot, t.state.minimumRetained, through) == full[t.state.minimumRetained - 1..through]
  {
    hide LinkedRange, UniqueKeys, Tiling, LedgerMatches, DispositionsMatch, RowsBetween, RowsOutside, EndHash;
    RowsOfRange(t, full, through);
  }

  lemma StateOfCrop(t: Tables, full: seq<AuditRecord>)
    requires Invariant(t, full)
    ensures ValidChainState(t.state) && t.state.tipSequence == |full|
    ensures t.state.minimumRetained == Uncovered(t.checkpoints) && t.state.latestCheckpointHash == LastHash(t.checkpoints)
    ensures ValidFence(t.state.fence)
  {
    hide LinkedRange, UniqueKeys, Tiling, LedgerMatches, DispositionsMatch, Uncovered, LastHash, EndHash;
  }

  lemma LatestExtended(t: Tables, full: seq<AuditRecord>, c: RetentionCheckpoint)
    requires Invariant(t, full) && c.body.epoch == |t.checkpoints| + 1
    requires c.body.fromSequence == Uncovered(t.checkpoints) && c.body.fromPreviousHash == LastBoundary(t.checkpoints)
    requires c.body.previousCheckpointHash == LastHash(t.checkpoints)
    ensures ExtendsCheckpoints(c, t.state, LatestCheckpoint(t.checkpoints))
  {
    hide LinkedRange, UniqueKeys, Tiling, LedgerMatches, DispositionsMatch, LatestCheckpoint, ValidChainState, EndHash;
    LatestOfTiling(t, full);
  }

  lemma CropGoesOn(cfg: Config, before: seq<RetentionCheckpoint>, w: World)
    requires Fresh(cfg, before, w) && !Stored(cfg, w.tables)
    ensures CompactionError(w.tables, TheCheckpoint(cfg), w.expected, w.version).None?
  {
    hide Invariant, ValidConfig, TheCheckpoint, LocalFacts, ValidChainState, ExtendsCheckpoints, LatestCheckpoint, RangeError, RowsBetween,
         CheckpointAtEpoch, CheckpointByHash, PartOf, TheView, TheImage, ValidCheckpoint, Uncovered, LastHash, LastBoundary;
    var t, c := w.tables, TheCheckpoint(cfg);
    StateOfCrop(t, w.chain);
    TheCheckpointIsValid(cfg);
    AuthoritativeTile(cfg, before, w.chain);
    LatestExtended(t, w.chain, c);
    LinkedParts(t, w.chain);
    HotRange(t, w.chain, c.body.throughSequence);
    RangeIsIntact(cfg, w.chain);
    StoredAtEpoch(t, w.chain, Epoch(cfg));
    HashNamesEpoch(t, w.chain, c);
  }

  // ---------- Disposal ----------

  lemma PrepareGoesOn(cfg: Config, before: seq<RetentionCheckpoint>, w: World, c: RetentionCheckpoint, staged: Option<Manifest>)
    requires Fresh(cfg, before, w) && w.pc == Preparing(c, staged)
    ensures !PrepareStep(cfg, w, c, staged).pc.Ended? && PrepareStep(cfg, w, c, staged).tables.state == w.tables.state
  {
    hide Safe, ValidConfig, ValidManifest, Invariant, ValidChainState, CheckpointByHash, TheCheckpoint, TheManifest, TheView, LocalFacts, Authoritative, ExpectedKeys;
    PreparingFacts(cfg, before, w, c, staged);
    ConfigFacts(cfg);
    StateOfCrop(w.tables, w.chain);
    StoredCheckpoint(cfg, before, w);
    AttemptPending(cfg, before, w);
  }

  lemma AttemptPending(cfg: Config, before: seq<RetentionCheckpoint>, w: World)
    requires Safe(cfg, before, w) && ValidConfig(cfg) && Undisposed(cfg, w)
    ensures var h := TheCheckpoint(cfg).hash;
            h in w.tables.attempts ==> var a := w.tables.attempts[h]; a == DispositionAttempt(cfg.attemptId, h, a.policyFence, Pending) && a.policyFence <= w.tables.state.fence
  {
    hide LocalFacts, ValidConfig, TheCheckpoint, TheManifest, TheView, TheImage, CoversRecords, LinkedRange, UniqueKeys, Tiling, LedgerMatches, CropOf, CheckpointByHash, ValidDisposition, PartOf;
  }

  lemma ReceiptGoesOn(cfg: Config, before: seq<RetentionCheckpoint>, w: World, c: RetentionCheckpoint, now: int)
    requires Fresh(cfg, before, w) && w.pc == WritingReceipt(c)
    ensures Unfailed(ReceiptStep(cfg, w, c, now)) && ReceiptStep(cfg, w, c, now).tables.state == w.tables.state
  {
    hide Safe, ValidConfig, Invariant, ValidChainState, CheckpointByHash, TheCheckpoint, TheManifest, TheView, ValidDisposition, Blank;
    SafeConfig(cfg, before, w);
    ReceiptIsValid(cfg, now);
    SafeInvariant(cfg, before, w);
    StateOfCrop(w.tables, w.chain);
    StoredCheckpoint(cfg, before, w);
  }

  lemma SafeInvariant(cfg: Config, before: seq<RetentionCheckpoint>, w: World)
    requires Safe(cfg, before, w)
    ensures Invariant(w.tables, w.chain)
  {
    hide Invariant, LocalFacts, ValidConfig, Cropped, Uncropped;
  }

  lemma ReceiptIsValid(cfg: Config, now: int)
    requires ValidConfig(cfg)
    ensures ValidDisposition(ReceiptFor(cfg, TheCheckpoint(cfg), now), TheCheckpoint(cfg))
  {
    hide ValidConfig, BuildManifest;
    TheCheckpointIsValid(cfg);
  }

  // ---------- Every step ----------

  lemma CropKeepsFence(t: Tables, c: RetentionCheckpoint, expected: ChainState, fence: int)
    requires CompactionError(t, c, expected, fence).None?
    ensures CompactRange(t, c, expected, fence) == (Compacted(t, c), Success(()))
    ensures Compacted(t, c).state.fence == t.state.fence && |Compacted(t, c).checkpoints| == |t.checkpoints| + 1
  {
    hide CompactionError, RowsBetween, RowsOutside, Tombstoned;
  }

  lemma CroppingGoesOn(cfg: Config, before: seq<RetentionCheckpoint>, w: World, c: RetentionCheckpoint, staged: Option<Manifest>)
    requires Fresh(cfg, before, w) && w.pc == Cropping(c, staged)
    ensures !CropStep(w, c, staged).pc.Ended? && Current(cfg, CropStep(w, c, staged)) && CropStep(w, c, staged).chain == w.chain
  {
    hide Invariant, ValidConfig, TheCheckpoint, CompactionError, CompactRange, Authoritative, PartOf, TheView, TheImage, Cropped, Compacted;
    CropGoesOn(cfg, before, w);
    CropKeepsFence(w.tables, c, w.expected, w.version);
  }

  lemma ReadsGoOn(cfg: Config, before: seq<RetentionCheckpoint>, w: World, now: int)
    requires Fresh(cfg, before, w)
    requires w.pc.ListingCheckpoints? || w.pc.Verifying? || w.pc.CropCheck? || w.pc.FenceCheck? || w.pc.DurableCheck?
          || w.pc.AcceptedCheck? || w.pc.ConfirmingAbsence? || w.pc.ReplayingAbsence? || w.pc.Deleting?
    ensures Unfailed(Advance(cfg, w, now)) && Advance(cfg, w, now).tables == w.tables
  {
    hide Safe, ValidConfig, TheCheckpoint, TheManifest, TheView, TheImage, Stored, VerifyEpoch, CheckpointAtEpoch, CheckpointByHash,
         CheckpointEpochAbsent, EpochAbsent, Authoritative, AcceptedBinding, Epoch, OwnAttempt, DeletedUpTo;
    SafeConfig(cfg, before, w);
    StoredCheckpoint(cfg, before, w);
    EpochOfTheCheckpoint(cfg);
    if w.pc.Verifying? {
      StagedIsReadable(cfg, w.objects);
    } else if w.pc.ConfirmingAbsence? {
      EmptyIsAbsent(cfg, w.objects);
    } else if w.pc.ReplayingAbsence? {
      DisposedIsEmpty(cfg, before, w, w.pc.receipt);
      EmptyIsAbsent(cfg, w.objects);
    }
  }

  lemma CurrentStays(cfg: Config, before: seq<RetentionCheckpoint>, w: World, w': World)
    requires Fresh(cfg, before, w) && Safe(cfg, before, w') && w'.chain == w.chain
    requires w'.version == w.version && w'.expected == w.expected
    requires w'.tables.state == w.tables.state && w'.tables.checkpoints == w.tables.checkpoints
    ensures Fresh(cfg, before, w')
  {
    hide Safe, Authoritative;
  }

  lemma DispositionStepsKeepCheckpoints(cfg: Config, w: World, now: int)
    requires w.pc.Preparing? || w.pc.WritingReceipt?
    ensures Advance(cfg, w, now).tables.checkpoints == w.tables.checkpoints
  {
    hide ValidChainState, CheckpointByHash, ValidDisposition, Blank, ExpectedKeys, ValidManifest;
    match w.pc
    case Preparing(c, staged) => assert Advance(cfg, w, now) == PrepareStep(cfg, w, c, staged);
    case WritingReceipt(c) => assert Advance(cfg, w, now) == ReceiptStep(cfg, w, c, now);
  }

  lemma AdvanceKeepsInputs(cfg: Config, w: World, now: int)
    ensures Advance(cfg, w, now).version == w.version && Advance(cfg, w, now).expected == w.expected
    ensures Advance(cfg, w, now).chain == w.chain
    ensures w.pc.ListingDispositions? || w.pc.Recovering? || w.pc.Sealing? ==> Advance(cfg, w, now).tables == w.tables
  {
    hide CompactRange, PrepareDisposition, ConfirmDisposition, ValidDisposition, ValidManifest, DeriveEpoch, SealPlan, PutExact,
         RecoverEpoch, VerifyEpoch, AcceptedBinding, CheckpointAtEpoch, CheckpointByHash, ExtendsAnchor, EpochAbsent, CheckpointEpochAbsent;
  }

  lemma StepGoesOn(cfg: Config, before: seq<RetentionCheckpoint>, w: World, now: int)
    requires Fresh(cfg, before, w) && !w.pc.Ended?
    ensures Fresh(cfg, before, Advance(cfg, w, now)) && Unfailed(Advance(cfg, w, now))
  {
    hide Safe, Authoritative, Current, AfterDispositions, AfterRecovery, SealStep, CropStep, PrepareStep, ReceiptStep, CropCheckStep,
         AcceptedStep, DeleteStep, AbsenceStep, VerifyEpoch, CheckpointAtEpoch, CheckpointByHash, CheckpointEpochAbsent;
    AdvanceIsSafe(cfg, before, w, now);
    AdvanceKeepsInputs(cfg, w, now);
    match w.pc {
      case ListingDispositions(stored) => ListingGoesOn(cfg, before, w, stored);
      case Recovering(c, accepted) => RecoveryGoesOn(cfg, before, w, c, accepted);
      case Sealing(c, m, puts) => SealGoesOn(cfg, before, w, c, m, puts);
      case Cropping(c, staged) => CroppingGoesOn(cfg, before, w, c, staged);
      case Preparing(c, staged) =>
        PrepareGoesOn(cfg, before, w, c, staged);
        DispositionStepsKeepCheckpoints(cfg, w, now);
      case WritingReceipt(c) =>
        ReceiptGoesOn(cfg, before, w, c, now);
        DispositionStepsKeepCheckpoints(cfg, w, now);
      case _ => ReadsGoOn(cfg, before, w, now);
    }
    if !w.pc.Cropping? {
      CurrentStays(cfg, before, w, Advance(cfg, w, now));
    }
  }

  lemma {:induction false} FinishSucceeds(cfg: Config, before: seq<RetentionCheckpoint>, w: World, now: int)
    requires Fresh(cfg, before, w) && Unfailed(w)
    ensures Finish(cfg, w, now).pc.Ended? && Finish(cfg, w, now).pc.outcome.Some?
    ensures Safe(cfg, before, Finish(cfg, w, now))
    decreases Rank(cfg, w)
  {
    hide Safe, Authoritative, Current, Advance, Rank;
    if !w.pc.Ended? {
      RankFalls(cfg, w, now);
      StepGoesOn(cfg, before, w, now);
      FinishSucceeds(cfg, before, Advance(cfg, w, now), now);
    }
  }

  /**
   Convergence: whatever earlier runs left behind, a rerun with the same inputs at the store's
   current fence and state, left alone, ends with the epoch's checkpoint stored, its receipt
   confirmed and nothing staged.
   */
  lemma RerunConverges(cfg: Config, before: seq<RetentionCheckpoint>, w: World, now: int)
    requires Safe(cfg, before, w) && Authoritative(cfg, before, w.chain) && w.pc.Ended?
    ensures var done := Finish(cfg, Next(cfg, w, Start(w.tables.state.fence, w.tables.state)), now);
            && done.pc.Ended? && done.pc.outcome.Some?
            && done.pc.outcome.value.checkpoint == TheCheckpoint(cfg)
            && ReceiptStored(cfg, done, done.pc.outcome.value.disposition)
            && TheView(cfg, done.objects) == map[]
            && Safe(cfg, before, done)
  {
    hide Safe, ValidConfig, TheCheckpoint, TheView, Finish, ReceiptStored, CoversRecords;
    var started := Next(cfg, w, Start(w.tables.state.fence, w.tables.state));
    NextIsSafe(cfg, before, w, Start(w.tables.state.fence, w.tables.state));
    SafeInvariant(cfg, before, w);
    StartedIsListing(cfg, before, w);
    FinishSucceeds(cfg, before, started, now);
    var done := Finish(cfg, started, now);
    SafeConfig(cfg, before, done);
    DisposedIsEmpty(cfg, before, done, done.pc.outcome.value.disposition);
  }

  lemma StartedIsListing(cfg: Config, before: seq<RetentionCheckpoint>, w: World)
    requires Safe(cfg, before, w)
    ensures StartRun(cfg, w, w.tables.state.fence, w.tables.state).pc == ListingCheckpoints
  {
    hide Safe, ValidConfig, Invariant, ValidCheckpoint, ExtendsAnchor;
    SafeConfig(cfg, before, w);
    SafeInvariant(cfg, before, w);
    StateOfCrop(w.tables, w.chain);
    AnchorFacts(cfg);
  }
}
