/**
 One retention epoch as a state machine: every awaited effect on the store or the provider is
 one step, a crash forgets the run, and other clients of both may act between any two steps.
 */
module EpochProtocol {
  import opened Wrappers
  import opened Protocol
  import opened AuditTables
  import opened AuditRuns
  import opened Staging
  import opened SealedEpochs

  /** What every retry of the epoch reuses. */
  datatype Config = Config(
    tenantId: string,
    previous: Option<RetentionCheckpoint>,
    records: seq<AuditRecord>,
    segmentRecordCount: int,
    checkpointId: string,
    createdAt: int,
    attemptId: string,
    dispositionId: string,
    policyReference: string)

  datatype Outcome = Outcome(checkpoint: RetentionCheckpoint, disposition: RetentionDisposition)

  /** What a run has in its local variables at each awaited effect; `Ended` is no run at all. */
  datatype Pc =
    | Ended(outcome: Option<Outcome>)
    | ListingCheckpoints
    | ListingDispositions(stored: Option<RetentionCheckpoint>)
    | Recovering(checkpoint: RetentionCheckpoint, accepted: Option<RetentionDisposition>)
    | Sealing(checkpoint: RetentionCheckpoint, manifest: Manifest, puts: seq<Put>)
    | Verifying(checkpoint: RetentionCheckpoint, manifest: Manifest)
    | CropCheck(checkpoint: RetentionCheckpoint, staged: Option<Manifest>)
    | Cropping(checkpoint: RetentionCheckpoint, staged: Option<Manifest>)
    | FenceCheck(checkpoint: RetentionCheckpoint, staged: Option<Manifest>)
    | DurableCheck(checkpoint: RetentionCheckpoint, staged: Option<Manifest>)
    | AcceptedCheck(checkpoint: RetentionCheckpoint, staged: Option<Manifest>)
    | Preparing(checkpoint: RetentionCheckpoint, staged: Option<Manifest>)
    | Deleting(checkpoint: RetentionCheckpoint, manifest: Manifest, keys: seq<ObjectKey>)
    | ConfirmingAbsence(checkpoint: RetentionCheckpoint, staged: Option<Manifest>)
    | WritingReceipt(checkpoint: RetentionCheckpoint)
    | ReplayingAbsence(checkpoint: RetentionCheckpoint, receipt: RetentionDisposition)

  /** `version` and `expected` are the policy version and chain state the current run was given. */
  datatype World = World(
    tables: Tables, chain: seq<AuditRecord>, objects: Objects, version: int, expected: ChainState, pc: Pc)

  datatype Action =
    | Start(version: int, expected: ChainState)
    | Proceed(now: int)
    | Crash
    | StoreClient(op: Operation)
    | ProviderClient(key: ObjectKey, body: Option<Bytes>)

  // ---------- What the coordinator computes ----------

  function Epoch(cfg: Config): int {
    match cfg.previous case None => 1 case Some(p) => p.body.epoch + 1
  }

  function InputOf(cfg: Config): SealInput {
    SealInput(cfg.tenantId, Epoch(cfg), cfg.previous, cfg.records, cfg.segmentRecordCount)
  }

  function Seal(body: CheckpointBody): RetentionCheckpoint {
    RetentionCheckpoint(body, CheckpointDigest(body))
  }

  function CheckpointFor(cfg: Config, m: Manifest): RetentionCheckpoint {
    Seal(CheckpointBody(
      SupportedHeader, cfg.checkpointId, cfg.tenantId, AuditChain, Epoch(cfg),
      m.fromSequence, m.fromPreviousHash, m.throughSequence, m.throughHash, m.recordCount, m.archiveRootHash,
      (match cfg.previous case None => None case Some(p) => Some(p.hash)), cfg.createdAt))
  }

  /** The checkpoint the factory gives back for a stored checkpoint's own range. */
  function ReplayedCheckpoint(cfg: Config, stored: RetentionCheckpoint): RetentionCheckpoint {
    Seal(stored.body.(header := SupportedHeader, checkpointId := cfg.checkpointId, createdAt := cfg.createdAt))
  }

  predicate ExtendsAnchor(cfg: Config, c: CheckpointBody) {
    && c.tenantId == cfg.tenantId && c.chainKind == AuditChain && c.epoch == Epoch(cfg)
    && match cfg.previous
       case None => c.epoch == 1 && c.previousCheckpointHash.None? && c.fromSequence == 1 && c.fromPreviousHash.None?
       case Some(p) =>
         && ValidCheckpoint(p)
         && p.body.tenantId == cfg.tenantId
         && c.epoch == p.body.epoch + 1
         && c.previousCheckpointHash == Some(p.hash)
         && c.fromSequence == p.body.throughSequence + 1
         && c.fromPreviousHash == Some(p.body.throughHash)
  }

  function ReceiptFor(cfg: Config, c: RetentionCheckpoint, disposedAt: int): RetentionDisposition {
    var body := DispositionBody(
      SupportedHeader, cfg.dispositionId, cfg.tenantId, AuditChain, c.hash,
      c.body.fromSequence, c.body.throughSequence, c.body.archiveRootHash, cfg.policyReference, disposedAt);
    RetentionDisposition(body, DispositionDigest(body))
  }

  predicate AcceptedBinding(cfg: Config, c: RetentionCheckpoint, r: RetentionDisposition) {
    && ValidDisposition(r, c)
    && r.body.dispositionId == cfg.dispositionId
    && r.body.policyReference == cfg.policyReference
  }

  function StoredReceipt(t: Tables, h: Digest): Option<RetentionDisposition> {
    if h in t.receipts then Some(t.receipts[h]) else None
  }

  // ---------- Steps of a run ----------

  function Stop(w: World): World {
    w.(pc := Ended(None))
  }

  function StartRun(cfg: Config, w: World, version: int, expected: ChainState): World {
    if || !ValidFence(version)
       || (cfg.previous.Some? && cfg.previous.value.body.tenantId != cfg.tenantId)
    then Stop(w)
    else w.(version := version, expected := expected, pc := ListingCheckpoints)
  }

  /** Chooses between replaying a stored checkpoint and deriving a new one. */
  function AfterDispositions(cfg: Config, w: World, stored: Option<RetentionCheckpoint>): World {
    match stored
    case Some(s) =>
      if ValidCheckpoint(s) && ExtendsAnchor(cfg, s.body) && s == ReplayedCheckpoint(cfg, s)
      then w.(pc := Recovering(s, StoredReceipt(w.tables, s.hash))) else Stop(w)
    case None =>
      match DeriveEpoch(InputOf(cfg))
      case None => Stop(w)
      case Some(m) =>
        var c := CheckpointFor(cfg, m);
        if ValidCheckpoint(c) && c.hash !in w.tables.receipts
        then w.(pc := Sealing(c, m, SealPlan(InputOf(cfg)))) else Stop(w)
  }

  function AfterRecovery(cfg: Config, w: World, c: RetentionCheckpoint, accepted: Option<RetentionDisposition>): World {
    var recovered := RecoverEpoch(w.objects, c);
    if recovered.Refused? then Stop(w)
    else match accepted
      case Some(r) => if AcceptedBinding(cfg, c, r) then w.(pc := ReplayingAbsence(c, r)) else Stop(w)
      case None => w.(pc := CropCheck(c, if recovered.Found? then Some(recovered.manifest) else None))
  }

  function SealStep(w: World, c: RetentionCheckpoint, m: Manifest, puts: seq<Put>): World {
    if puts == [] then w.(pc := Verifying(c, m))
    else match PutExact(w.objects, puts[0])
      case None => Stop(w)
      case Some(objects) => w.(objects := objects, pc := Sealing(c, m, puts[1..]))
  }

  function CropCheckStep(w: World, c: RetentionCheckpoint, staged: Option<Manifest>): World {
    match CheckpointAtEpoch(w.tables.checkpoints, c.body.epoch)
    case Some(s) => if s == c then w.(pc := FenceCheck(c, staged)) else Stop(w)
    case None => if w.expected.fence == w.version then w.(pc := Cropping(c, staged)) else Stop(w)
  }

  function CropStep(w: World, c: RetentionCheckpoint, staged: Option<Manifest>): World {
    var (tables, r) := CompactRange(w.tables, c, w.expected, w.version);
    if r.Success? then w.(tables := tables, pc := FenceCheck(c, staged)) else Stop(w)
  }

  function AcceptedStep(cfg: Config, w: World, c: RetentionCheckpoint, staged: Option<Manifest>): World {
    match StoredReceipt(w.tables, c.hash)
    case Some(r) => if AcceptedBinding(cfg, c, r) then w.(pc := ReplayingAbsence(c, r)) else Stop(w)
    case None => w.(pc := Preparing(c, staged))
  }

  function AttemptOf(cfg: Config, c: RetentionCheckpoint, version: int): DispositionAttempt {
    DispositionAttempt(cfg.attemptId, c.hash, version, Pending)
  }

  function PrepareStep(cfg: Config, w: World, c: RetentionCheckpoint, staged: Option<Manifest>): World {
    var attempt := AttemptOf(cfg, c, w.version);
    var (tables, r) := PrepareDisposition(w.tables, c.hash, attempt, w.version);
    if r != Success(attempt) then Stop(w.(tables := tables))
    else match staged
      case None => w.(tables := tables, pc := ConfirmingAbsence(c, None))
      case Some(m) =>
        if ValidManifest(m) then w.(tables := tables, pc := Deleting(c, m, ExpectedKeys(m)))
        else Stop(w.(tables := tables))
  }

  function DeleteStep(w: World, c: RetentionCheckpoint, m: Manifest, keys: seq<ObjectKey>): World {
    if keys == [] then w.(pc := ConfirmingAbsence(c, Some(m)))
    else w.(objects := w.objects - {keys[0]}, pc := Deleting(c, m, keys[1..]))
  }

  function AbsenceStep(w: World, c: RetentionCheckpoint, staged: Option<Manifest>): World {
    if (match staged case Some(m) => EpochAbsent(w.objects, m) case None => CheckpointEpochAbsent(w.objects, c))
    then w.(pc := WritingReceipt(c)) else Stop(w)
  }

  function ReceiptStep(cfg: Config, w: World, c: RetentionCheckpoint, disposedAt: int): World {
    var receipt := ReceiptFor(cfg, c, disposedAt);
    if !ValidDisposition(receipt, c) then Stop(w)
    else
      var (tables, r) := ConfirmDisposition(w.tables, receipt, cfg.attemptId, w.version);
      w.(tables := tables, pc := Ended(if r.Success? then Some(Outcome(c, receipt)) else None))
  }

  /** The next awaited effect of the run and the checks that follow it. */
  function Advance(cfg: Config, w: World, now: int): World {
    match w.pc
    case Ended(_) => w
    case ListingCheckpoints => w.(pc := ListingDispositions(CheckpointAtEpoch(w.tables.checkpoints, Epoch(cfg))))
    case ListingDispositions(stored) => AfterDispositions(cfg, w, stored)
    case Recovering(c, accepted) => AfterRecovery(cfg, w, c, accepted)
    case Sealing(c, m, puts) => SealStep(w, c, m, puts)
    case Verifying(c, m) => if VerifyEpoch(w.objects, m).Some? then w.(pc := CropCheck(c, Some(m))) else Stop(w)
    case CropCheck(c, staged) => CropCheckStep(w, c, staged)
    case Cropping(c, staged) => CropStep(w, c, staged)
    case FenceCheck(c, staged) => if w.tables.state.fence == w.version then w.(pc := DurableCheck(c, staged)) else Stop(w)
    case DurableCheck(c, staged) =>
      if CheckpointByHash(w.tables.checkpoints, c.hash) == Some(c) then w.(pc := AcceptedCheck(c, staged)) else Stop(w)
    case AcceptedCheck(c, staged) => AcceptedStep(cfg, w, c, staged)
    case Preparing(c, staged) => PrepareStep(cfg, w, c, staged)
    case Deleting(c, m, keys) => DeleteStep(w, c, m, keys)
    case ConfirmingAbsence(c, staged) => AbsenceStep(w, c, staged)
    case WritingReceipt(c) => ReceiptStep(cfg, w, c, now)
    case ReplayingAbsence(c, r) =>
      w.(pc := Ended(if CheckpointEpochAbsent(w.objects, c) then Some(Outcome(c, r)) else None))
  }

  function Next(cfg: Config, w: World, a: Action): World {
    match a
    case Start(version, expected) => StartRun(cfg, w, version, expected)
    case Proceed(now) => Advance(cfg, w, now)
    case Crash => Stop(w)
    case StoreClient(op) => w.(tables := Apply(w.tables, op), chain := GhostStep(w.chain, w.tables, op))
    case ProviderClient(key, body) =>
      w.(objects := if body.Some? then w.objects[key := body.value] else w.objects - {key})
  }

  // ---------- Who may do what ----------

  predicate ValidConfig(cfg: Config) {
    DeriveEpoch(InputOf(cfg)).Some?
  }

  function TheManifest(cfg: Config): Manifest
    requires ValidConfig(cfg)
  {
    BuildManifest(InputOf(cfg))
  }

  function TheCheckpoint(cfg: Config): RetentionCheckpoint
    requires ValidConfig(cfg)
  {
    CheckpointFor(cfg, TheManifest(cfg))
  }

  function TheImage(cfg: Config): Objects
    requires ValidConfig(cfg)
  {
    ImageOf(SealPlan(InputOf(cfg)))
  }

  function TheView(cfg: Config, objects: Objects): Objects {
    EpochView(objects, cfg.tenantId, Epoch(cfg))
  }

  predicate Stored(cfg: Config, t: Tables) {
    |t.checkpoints| >= Epoch(cfg)
  }

  /**
   The tenant's epoch lease: one run at a time; while the epoch has no checkpoint nobody else
   crops the chain, and nobody else disposes of its checkpoint or touches its prefix.
   */
  predicate Allowed(cfg: Config, w: World, a: Action)
    requires ValidConfig(cfg)
  {
    match a
    case Start(_, _) => w.pc.Ended?
    case Proceed(_) => true
    case Crash => true
    case StoreClient(op) =>
      && (op.CompactOp? ==> Stored(cfg, w.tables))
      && !(op.PrepareOp? && op.checkpointHash == TheCheckpoint(cfg).hash)
      && !(op.ConfirmOp? && op.receipt.body.checkpointHash == TheCheckpoint(cfg).hash)
    case ProviderClient(key, _) => !InEpoch(key, cfg.tenantId, Epoch(cfg))
  }

  function RunFrom(cfg: Config, w: World, actions: seq<Action>): World
    decreases |actions|
  {
    if actions == [] then w else RunFrom(cfg, Next(cfg, w, actions[0]), actions[1..])
  }

  predicate AllAllowed(cfg: Config, w: World, actions: seq<Action>)
    requires ValidConfig(cfg)
    decreases |actions|
  {
    actions == [] || (Allowed(cfg, w, actions[0]) && AllAllowed(cfg, Next(cfg, w, actions[0]), actions[1..]))
  }
}
