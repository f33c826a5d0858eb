/**
 Crash safety of the epoch protocol: an invariant of every allowed sequence of starts, steps,
 crashes and other clients' actions, and what it means for records and staged objects.
 */
module EpochSafety {
  import opened Wrappers
  import opened Protocol
  import opened AuditTables
  import opened AuditRuns
  import opened Staging
  import opened SealedEpochs
  import opened EpochProtocol

  // ---------- The invariant ----------

  /** Everything `part` holds is in `image` with the same bytes. */
  predicate PartOf(part: Objects, image: Objects) {
    forall k | k in part :: k in image && part[k] == image[k]
  }

  /** The chain positions the checkpoint covers are the records that were staged. */
  predicate CoversRecords(chain: seq<AuditRecord>, c: CheckpointBody, records: seq<AuditRecord>) {
    1 <= c.fromSequence <= c.throughSequence <= |chain| && chain[c.fromSequence - 1..c.throughSequence] == records
  }

  /** Nothing cropped yet: the prefix holds part of the sealed image. */
  predicate Uncropped(cfg: Config, before: seq<RetentionCheckpoint>, w: World)
    requires ValidConfig(cfg)
  {
    w.tables.checkpoints == before && PartOf(TheView(cfg, w.objects), TheImage(cfg))
  }

  /** The staged objects once the checkpoint is stored, by how far disposal has come. */
  predicate StagedAsOwed(cfg: Config, w: World)
    requires ValidConfig(cfg)
  {
    var h, view := TheCheckpoint(cfg).hash, TheView(cfg, w.objects);
    if h in w.tables.receipts then view == map[] && AcceptedBinding(cfg, TheCheckpoint(cfg), w.tables.receipts[h])
    else if h in w.tables.attempts then
      && w.tables.attempts[h].attemptId == cfg.attemptId
      && PartOf(view, TheImage(cfg))
      && (TheManifest(cfg).manifestKey !in view ==> view == map[])
    else view == TheImage(cfg)
  }

  predicate Cropped(cfg: Config, before: seq<RetentionCheckpoint>, w: World)
    requires ValidConfig(cfg)
  {
    && before + [TheCheckpoint(cfg)] <= w.tables.checkpoints
    && CoversRecords(w.chain, TheCheckpoint(cfg).body, cfg.records)
    && StagedAsOwed(cfg, w)
  }

  /** The writes still to do are a suffix of the plan, and the others are in place. */
  predicate SealedUpTo(cfg: Config, w: World, puts: seq<Put>)
    requires ValidConfig(cfg)
  {
    var plan := SealPlan(InputOf(cfg));
    && |puts| <= |plan| && puts == plan[|plan| - |puts|..]
    && forall i | 0 <= i < |plan| - |puts| :: plan[i].0 in TheView(cfg, w.objects)
  }

  predicate DeletedUpTo(cfg: Config, w: World, rest: seq<ObjectKey>)
    requires ValidConfig(cfg)
  {
    var keys := ExpectedKeys(TheManifest(cfg));
    && |rest| <= |keys| && rest == keys[|keys| - |rest|..]
    && forall i | 0 <= i < |keys| - |rest| :: keys[i] !in TheView(cfg, w.objects)
  }

  /** The run's manifest: the derived one, or none because the prefix is already empty. */
  predicate StagedManifest(cfg: Config, w: World, staged: Option<Manifest>)
    requires ValidConfig(cfg)
  {
    staged == Some(TheManifest(cfg)) || (staged.None? && TheView(cfg, w.objects) == map[])
  }

  predicate OwnAttempt(cfg: Config, w: World)
    requires ValidConfig(cfg)
  {
    var c := TheCheckpoint(cfg);
    && c.hash in w.tables.attempts && w.tables.attempts[c.hash] == AttemptOf(cfg, c, w.version)
    && c.hash !in w.tables.receipts
  }

  predicate Undisposed(cfg: Config, w: World)
    requires ValidConfig(cfg)
  {
    Stored(cfg, w.tables) && TheCheckpoint(cfg).hash !in w.tables.receipts
  }

  predicate ReceiptStored(cfg: Config, w: World, r: RetentionDisposition)
    requires ValidConfig(cfg)
  {
    Stored(cfg, w.tables) && StoredReceipt(w.tables, TheCheckpoint(cfg).hash) == Some(r)
  }

  /** Before the crop everything is sealed; after it the staged objects are as owed. */
  predicate ReadyToCrop(cfg: Config, w: World, c: RetentionCheckpoint, staged: Option<Manifest>)
    requires ValidConfig(cfg)
  {
    && c == TheCheckpoint(cfg) && c.hash !in w.tables.receipts && StagedManifest(cfg, w, staged)
    && (!Stored(cfg, w.tables) ==> TheView(cfg, w.objects) == TheImage(cfg) && staged.Some?)
  }

  /** What each local state knows. */
  predicate LocalFacts(cfg: Config, w: World)
    requires ValidConfig(cfg)
  {
    var c, m := TheCheckpoint(cfg), TheManifest(cfg);
    match w.pc
    case Ended(outcome) => outcome.Some? ==> outcome.value.checkpoint == c && ReceiptStored(cfg, w, outcome.value.disposition)
    case ListingCheckpoints => true
    case ListingDispositions(stored) => stored == if Stored(cfg, w.tables) then Some(c) else None
    case Recovering(c', accepted) => c' == c && Stored(cfg, w.tables) && accepted == StoredReceipt(w.tables, c.hash)
    case Sealing(c', m', puts) => c' == c && m' == m && !Stored(cfg, w.tables) && SealedUpTo(cfg, w, puts)
    case Verifying(c', m') => c' == c && m' == m && !Stored(cfg, w.tables) && TheView(cfg, w.objects) == TheImage(cfg)
    case CropCheck(c', staged) => ReadyToCrop(cfg, w, c', staged)
    case Cropping(c', staged) => ReadyToCrop(cfg, w, c', staged) && !Stored(cfg, w.tables)
    case FenceCheck(c', staged) => c' == c && Undisposed(cfg, w) && StagedManifest(cfg, w, staged)
    case DurableCheck(c', staged) => c' == c && Undisposed(cfg, w) && StagedManifest(cfg, w, staged)
    case AcceptedCheck(c', staged) => c' == c && Undisposed(cfg, w) && StagedManifest(cfg, w, staged)
    case Preparing(c', staged) => c' == c && Undisposed(cfg, w) && StagedManifest(cfg, w, staged)
    case Deleting(c', m', keys) => c' == c && m' == m && Undisposed(cfg, w) && OwnAttempt(cfg, w) && DeletedUpTo(cfg, w, keys)
    case ConfirmingAbsence(c', staged) =>
      && c' == c && Undisposed(cfg, w) && OwnAttempt(cfg, w) && TheView(cfg, w.objects) == map[]
      && (staged.Some? ==> staged.value == m)
    case WritingReceipt(c') => c' == c && Undisposed(cfg, w) && OwnAttempt(cfg, w) && TheView(cfg, w.objects) == map[]
    case ReplayingAbsence(c', r) => c' == c && ReceiptStored(cfg, w, r)
  }

  predicate Safe(cfg: Config, before: seq<RetentionCheckpoint>, w: World) {
    && ValidConfig(cfg)
    && |before| + 1 == Epoch(cfg)
    && w.tables.tenantId == cfg.tenantId
    && Invariant(w.tables, w.chain)
    && (if Stored(cfg, w.tables) then Cropped(cfg, before, w) else Uncropped(cfg, before, w))
    && LocalFacts(cfg, w)
  }

  // ---------- Facts about the epoch's own values ----------

  lemma ConfigFacts(cfg: Config)
    requires ValidConfig(cfg)
    ensures ValidSealInput(InputOf(cfg)) && ValidManifest(TheManifest(cfg))
    ensures DeriveEpoch(InputOf(cfg)) == Some(TheManifest(cfg))
    ensures SafePositive(Epoch(cfg))
    ensures TheManifest(cfg).manifestKey == ManifestKey(cfg.tenantId, Epoch(cfg))
    ensures TheManifest(cfg).tenantId == cfg.tenantId && TheManifest(cfg).epoch == Epoch(cfg)
  {
    hide Chained, ValidCheckpoint, SegmentsContinue, Descriptors, SegmentsOf, Batches;
  }

  lemma AnchorFacts(cfg: Config)
    requires ValidConfig(cfg)
    ensures match cfg.previous
            case None => Epoch(cfg) == 1
            case Some(p) => ValidCheckpoint(p) && p.body.tenantId == cfg.tenantId && Epoch(cfg) >= 2
    ensures ExtendsAnchor(cfg, TheCheckpoint(cfg).body)
  {
    hide Chained, ValidManifest, SegmentsOf, Batches, Descriptors;
    InputBoundaries(InputOf(cfg));
  }

  lemma TheCheckpointIsValid(cfg: Config)
    requires ValidConfig(cfg)
    ensures ValidCheckpoint(TheCheckpoint(cfg))
    ensures BindsCheckpoint(TheManifest(cfg), TheCheckpoint(cfg).body)
    ensures TheCheckpoint(cfg) == ReplayedCheckpoint(cfg, TheCheckpoint(cfg))
  {
    hide Chained, SegmentsContinue, SegmentsOf, Batches, Descriptors, ValidSealInput;
    ConfigFacts(cfg);
    AnchorFacts(cfg);
  }

  lemma PlanFacts(cfg: Config)
    requires ValidConfig(cfg)
    ensures DistinctKeys(SealPlan(InputOf(cfg)))
    ensures PutKeys(SealPlan(InputOf(cfg))) == ExpectedKeys(TheManifest(cfg))
    ensures forall i | 0 <= i < |SealPlan(InputOf(cfg))| :: InEpoch(SealPlan(InputOf(cfg))[i].0, cfg.tenantId, Epoch(cfg))
  {
    hide SealPlan, BuildManifest, DistinctKeys, ExpectedKeys, PutKeys;
    PlanKeysDistinct(InputOf(cfg));
    PlanKeysExpected(InputOf(cfg));
  }

  lemma ViewOfPut(objects: Objects, tenantId: string, epoch: int, k: ObjectKey, body: Bytes)
    ensures EpochView(objects[k := body], tenantId, epoch)
         == if InEpoch(k, tenantId, epoch) then EpochView(objects, tenantId, epoch)[k := body] else EpochView(objects, tenantId, epoch)
  {
  }

  lemma ViewOfDelete(objects: Objects, tenantId: string, epoch: int, k: ObjectKey)
    ensures EpochView(objects - {k}, tenantId, epoch) == EpochView(objects, tenantId, epoch) - {k}
    ensures !InEpoch(k, tenantId, epoch) ==> EpochView(objects - {k}, tenantId, epoch) == EpochView(objects, tenantId, epoch)
  {
  }

  /** Before the checkpoint is stored it has neither attempt nor receipt. */
  lemma NothingBeforeCrop(cfg: Config, before: seq<RetentionCheckpoint>, w: World)
    requires Safe(cfg, before, w) && !Stored(cfg, w.tables)
    ensures TheCheckpoint(cfg).hash !in w.tables.attempts && TheCheckpoint(cfg).hash !in w.tables.receipts
  {
    hide Invariant, LocalFacts, ValidConfig, Uncropped, ValidCheckpoint;
    TheCheckpointIsValid(cfg);
    HashNamesEpoch(w.tables, w.chain, TheCheckpoint(cfg));
    UnknownHash(w.tables, w.chain, TheCheckpoint(cfg).hash);
  }

  lemma UnknownHash(t: Tables, full: seq<AuditRecord>, h: Digest)
    requires Invariant(t, full) && CheckpointByHash(t.checkpoints, h).None?
    ensures h !in t.attempts && h !in t.receipts
  {
    hide LinkedRange, UniqueKeys, Tiling, LedgerMatches, CropOf, ValidDisposition;
  }

  /** Where the stored checkpoint is found. */
  lemma StoredCheckpoint(cfg: Config, before: seq<RetentionCheckpoint>, w: World)
    requires Safe(cfg, before, w)
    ensures CheckpointAtEpoch(w.tables.checkpoints, Epoch(cfg)) == if Stored(cfg, w.tables) then Some(TheCheckpoint(cfg)) else None
    ensures Stored(cfg, w.tables) ==> CheckpointByHash(w.tables.checkpoints, TheCheckpoint(cfg).hash) == Some(TheCheckpoint(cfg))
  {
    hide Invariant, LocalFacts, ValidConfig, StagedAsOwed, PartOf, ValidCheckpoint, TheCheckpoint;
    ConfigFacts(cfg);
    StoredAtEpoch(w.tables, w.chain, Epoch(cfg));
    if Stored(cfg, w.tables) {
      EpochOfTheCheckpoint(cfg);
      TheCheckpointIsValid(cfg);
      HashNamesEpoch(w.tables, w.chain, TheCheckpoint(cfg));
    }
  }

  lemma EpochOfTheCheckpoint(cfg: Config)
    requires ValidConfig(cfg)
    ensures TheCheckpoint(cfg).body.epoch == Epoch(cfg) && TheCheckpoint(cfg).body.tenantId == cfg.tenantId
  {
    hide ValidConfig, BuildManifest;
  }

  lemma ImageFacts(cfg: Config)
    requires ValidConfig(cfg)
    ensures var image, plan, key := TheImage(cfg), SealPlan(InputOf(cfg)), TheManifest(cfg).manifestKey;
            && key in image && image[key] == [CanonicalManifest(TheManifest(cfg))]
            && (forall i | 0 <= i < |plan| :: plan[i].0 in image && image[plan[i].0] == plan[i].1)
            && (forall k | k in image :: exists i :: 0 <= i < |plan| && plan[i].0 == k)
            && |plan| > 0 && plan[|plan| - 1].0 == key
  {
    hide DistinctKeys, ValidSealInput, Batches, EncodeNdjson, Descriptors, ImageOf;
    PlanFacts(cfg);
    ImageAnswer(SealPlan(InputOf(cfg)));
    LastPut(cfg);
  }

  lemma LastPut(cfg: Config)
    requires ValidConfig(cfg)
    ensures var plan := SealPlan(InputOf(cfg));
            |plan| > 0 && plan[|plan| - 1] == (TheManifest(cfg).manifestKey, [CanonicalManifest(TheManifest(cfg))])
  {
    hide ValidSealInput, Batches, EncodeNdjson, Descriptors, BuildManifest;
  }

  // ---------- Steps that change only the run ----------

  lemma Relocated(cfg: Config, before: seq<RetentionCheckpoint>, w: World, w': World)
    requires Safe(cfg, before, w) && LocalFacts(cfg, w')
    requires w'.tables == w.tables && w'.chain == w.chain && w'.objects == w.objects
    ensures Safe(cfg, before, w')
  {
    hide Invariant, LocalFacts, ValidConfig, PartOf, TheImage, TheCheckpoint, TheManifest, TheView, CoversRecords, Stored, AcceptedBinding;
  }

  lemma StopIsSafe(cfg: Config, before: seq<RetentionCheckpoint>, w: World)
    requires Safe(cfg, before, w)
    ensures Safe(cfg, before, Stop(w))
  {
    hide Safe, ValidConfig, TheCheckpoint, TheManifest;
    SafeConfig(cfg, before, w);
    Relocated(cfg, before, w, Stop(w));
  }

  lemma SafeConfig(cfg: Config, before: seq<RetentionCheckpoint>, w: World)
    requires Safe(cfg, before, w)
    ensures ValidConfig(cfg) && LocalFacts(cfg, w)
  {
    hide Invariant, LocalFacts, ValidConfig, Cropped, Uncropped;
  }

  lemma StartIsSafe(cfg: Config, before: seq<RetentionCheckpoint>, w: World, version: int, expected: ChainState)
    requires Safe(cfg, before, w)
    ensures Safe(cfg, before, StartRun(cfg, w, version, expected))
  {
    hide Safe, ValidConfig, TheCheckpoint, TheManifest;
    SafeConfig(cfg, before, w);
    Relocated(cfg, before, w, StartRun(cfg, w, version, expected));
  }

  lemma ListingIsSafe(cfg: Config, before: seq<RetentionCheckpoint>, w: World, now: int)
    requires Safe(cfg, before, w) && w.pc.ListingCheckpoints?
    ensures Safe(cfg, before, Advance(cfg, w, now))
  {
    hide Safe, ValidConfig, TheCheckpoint, TheManifest, Epoch, Stored;
    SafeConfig(cfg, before, w);
    StoredCheckpoint(cfg, before, w);
    Relocated(cfg, before, w, Advance(cfg, w, now));
  }

  lemma DispositionsAreSafe(cfg: Config, before: seq<RetentionCheckpoint>, w: World, stored: Option<RetentionCheckpoint>)
    requires Safe(cfg, before, w) && w.pc == ListingDispositions(stored)
    ensures Safe(cfg, before, AfterDispositions(cfg, w, stored))
  {
    hide Safe, TheManifest, Epoch, Stored, ValidSealInput, ValidManifest, BuildManifest, ValidCheckpoint, SealPlan, ExtendsAnchor, ReplayedCheckpoint, CheckpointFor, DeriveEpoch;
    SafeConfig(cfg, before, w);
    ConfigFacts(cfg);
    NothingSealedYet(cfg, w);
    Relocated(cfg, before, w, AfterDispositions(cfg, w, stored));
  }

  lemma NothingSealedYet(cfg: Config, w: World)
    requires ValidConfig(cfg)
    ensures SealedUpTo(cfg, w, SealPlan(InputOf(cfg)))
  {
    hide ValidConfig, SealPlan;
  }

  lemma RecoveredManifest(cfg: Config, before: seq<RetentionCheckpoint>, w: World)
    requires Safe(cfg, before, w) && Stored(cfg, w.tables) && TheCheckpoint(cfg).hash !in w.tables.receipts
    ensures match RecoverEpoch(w.objects, TheCheckpoint(cfg))
            case Missing => TheView(cfg, w.objects) == map[]
            case Found(m) => m == TheManifest(cfg)
            case Refused => false
  {
    hide Invariant, LocalFacts, ValidConfig, CoversRecords, AcceptedBinding, ImageOf, BuildManifest, ValidManifest, ValidCheckpoint, BindsCheckpoint, SealPlan, TheImage;
    ConfigFacts(cfg);
    TheCheckpointIsValid(cfg);
    EpochOfTheCheckpoint(cfg);
    ImageFacts(cfg);
    var key := ManifestKey(cfg.tenantId, Epoch(cfg));
    assert key in TheView(cfg, w.objects) <==> key in w.objects;
  }

  lemma RecoveryIsSafe(cfg: Config, before: seq<RetentionCheckpoint>, w: World, accepted: Option<RetentionDisposition>)
    requires Safe(cfg, before, w) && w.pc.Recovering? && w.pc.accepted == accepted
    ensures Safe(cfg, before, AfterRecovery(cfg, w, w.pc.checkpoint, accepted))
  {
    hide Safe, ValidConfig, TheCheckpoint, TheManifest, Epoch, Stored, RecoverEpoch, AcceptedBinding, TheView;
    SafeConfig(cfg, before, w);
    if TheCheckpoint(cfg).hash !in w.tables.receipts {
      RecoveredManifest(cfg, before, w);
    }
    Relocated(cfg, before, w, AfterRecovery(cfg, w, w.pc.checkpoint, accepted));
  }

  lemma VerifyIsSafe(cfg: Config, before: seq<RetentionCheckpoint>, w: World, now: int)
    requires Safe(cfg, before, w) && w.pc.Verifying?
    ensures Safe(cfg, before, Advance(cfg, w, now))
  {
    hide Safe, ValidConfig, TheCheckpoint, TheManifest, Stored, VerifyEpoch, TheView, TheImage;
    SafeConfig(cfg, before, w);
    NothingBeforeCrop(cfg, before, w);
    Relocated(cfg, before, w, Advance(cfg, w, now));
  }

  lemma CropCheckIsSafe(cfg: Config, before: seq<RetentionCheckpoint>, w: World, now: int)
    requires Safe(cfg, before, w) && w.pc.CropCheck?
    ensures Safe(cfg, before, Advance(cfg, w, now))
  {
    hide Safe, ValidConfig, TheCheckpoint, TheManifest, Stored, TheView, TheImage, Epoch;
    SafeConfig(cfg, before, w);
    StoredCheckpoint(cfg, before, w);
    EpochOfTheCheckpoint(cfg);
    Relocated(cfg, before, w, Advance(cfg, w, now));
  }

  lemma ChecksAreSafe(cfg: Config, before: seq<RetentionCheckpoint>, w: World, now: int)
    requires Safe(cfg, before, w)
    requires w.pc.FenceCheck? || w.pc.DurableCheck? || w.pc.AcceptedCheck? || w.pc.ConfirmingAbsence? || w.pc.ReplayingAbsence?
    ensures Safe(cfg, before, Advance(cfg, w, now))
  {
    hide Safe, ValidConfig, TheCheckpoint, TheManifest, Stored, TheView, TheImage, AcceptedBinding, CheckpointEpochAbsent, EpochAbsent, CheckpointByHash;
    SafeConfig(cfg, before, w);
    Relocated(cfg, before, w, Advance(cfg, w, now));
  }

  // ---------- Steps that write ----------

  /** The epoch's objects after a step, when only they changed. */
  lemma SealStepIsSafe(cfg: Config, before: seq<RetentionCheckpoint>, w: World)
    requires Safe(cfg, before, w) && w.pc.Sealing?
    ensures Safe(cfg, before, SealStep(w, w.pc.checkpoint, w.pc.manifest, w.pc.puts))
  {
    hide Safe, ValidConfig, TheCheckpoint, TheManifest, Stored, TheView, TheImage, SealPlan, SealedUpTo, PutExact;
    SafeConfig(cfg, before, w);
    var w' := SealStep(w, w.pc.checkpoint, w.pc.manifest, w.pc.puts);
    if w.pc.puts == [] {
      AllSealed(cfg, before, w);
      Relocated(cfg, before, w, w');
    } else if PutExact(w.objects, w.pc.puts[0]).None? {
      StopIsSafe(cfg, before, w);
    } else {
      PutIsSafe(cfg, before, w, w.pc.puts);
    }
  }

  lemma AllSealed(cfg: Config, before: seq<RetentionCheckpoint>, w: World)
    requires Safe(cfg, before, w) && w.pc.Sealing? && w.pc.puts == []
    ensures TheView(cfg, w.objects) == TheImage(cfg)
  {
    hide Invariant, ValidConfig, SealPlan, BuildManifest, TheView, TheImage, TheManifest, TheCheckpoint;
    ImageFacts(cfg);
  }

  lemma NextPut(cfg: Config, w: World, puts: seq<Put>)
    requires ValidConfig(cfg) && SealedUpTo(cfg, w, puts) && puts != []
    ensures InEpoch(puts[0].0, cfg.tenantId, Epoch(cfg))
    ensures puts[0].0 in TheImage(cfg) && TheImage(cfg)[puts[0].0] == puts[0].1
  {
    hide ValidConfig, SealPlan, BuildManifest, TheView, TheImage, TheManifest;
    ConfigFacts(cfg);
    ImageFacts(cfg);
    PlanFacts(cfg);
    var plan := SealPlan(InputOf(cfg));
    assert puts[0] == plan[|plan| - |puts|];
  }

  lemma PutAdvances(cfg: Config, w: World, w': World, puts: seq<Put>)
    requires ValidConfig(cfg) && SealedUpTo(cfg, w, puts) && puts != []
    requires TheView(cfg, w'.objects) == TheView(cfg, w.objects)[puts[0].0 := puts[0].1]
    ensures SealedUpTo(cfg, w', puts[1..])
  {
    hide ValidConfig, SealPlan, TheView;
    ConfigFacts(cfg);
    var plan := SealPlan(InputOf(cfg));
    assert puts[0] == plan[|plan| - |puts|];
  }

  lemma PutIsSafe(cfg: Config, before: seq<RetentionCheckpoint>, w: World, puts: seq<Put>)
    requires Safe(cfg, before, w) && w.pc.Sealing? && w.pc.puts == puts && puts != []
    requires PutExact(w.objects, puts[0]).Some?
    ensures Safe(cfg, before, SealStep(w, w.pc.checkpoint, w.pc.manifest, puts))
  {
    hide Invariant, ValidConfig, SealPlan, BuildManifest, TheView, TheImage, TheManifest, TheCheckpoint, SealedUpTo, Cropped;
    var w' := SealStep(w, w.pc.checkpoint, w.pc.manifest, puts);
    NextPut(cfg, w, puts);
    PutShows(cfg, w.objects, puts[0]);
    PutAdvances(cfg, w, w', puts);
  }

  lemma PutShows(cfg: Config, objects: Objects, put: Put)
    requires InEpoch(put.0, cfg.tenantId, Epoch(cfg)) && PutExact(objects, put).Some?
    ensures TheView(cfg, PutExact(objects, put).value) == TheView(cfg, objects)[put.0 := put.1]
  {
    ViewOfPut(objects, cfg.tenantId, Epoch(cfg), put.0, put.1);
    if put.0 in objects {
      assert put.0 in TheView(cfg, objects);
    }
  }

  lemma DeleteStepIsSafe(cfg: Config, before: seq<RetentionCheckpoint>, w: World)
    requires Safe(cfg, before, w) && w.pc.Deleting?
    ensures Safe(cfg, before, DeleteStep(w, w.pc.checkpoint, w.pc.manifest, w.pc.keys))
  {
    hide Safe, ValidConfig, TheCheckpoint, TheManifest, Stored, TheView, TheImage, DeletedUpTo;
    SafeConfig(cfg, before, w);
    var w' := DeleteStep(w, w.pc.checkpoint, w.pc.manifest, w.pc.keys);
    if w.pc.keys == [] {
      AllDeleted(cfg, before, w);
      Relocated(cfg, before, w, w');
    } else {
      DeleteIsSafe(cfg, before, w, w.pc.keys);
    }
  }

  /** What the epoch may still hold while its attempt is pending. */
  lemma PendingView(cfg: Config, before: seq<RetentionCheckpoint>, w: World)
    requires Safe(cfg, before, w) && ValidConfig(cfg) && OwnAttempt(cfg, w) && Undisposed(cfg, w)
    ensures PartOf(TheView(cfg, w.objects), TheImage(cfg))
    ensures TheManifest(cfg).manifestKey !in TheView(cfg, w.objects) ==> TheView(cfg, w.objects) == map[]
  {
    hide Invariant, ValidConfig, LocalFacts, TheView, TheImage, TheManifest, TheCheckpoint, CoversRecords, AcceptedBinding, PartOf;
  }

  lemma AllDeleted(cfg: Config, before: seq<RetentionCheckpoint>, w: World)
    requires Safe(cfg, before, w) && w.pc.Deleting? && w.pc.keys == []
    ensures TheView(cfg, w.objects) == map[]
  {
    hide Invariant, ValidConfig, Safe, TheView, TheImage, TheManifest, TheCheckpoint, Undisposed, OwnAttempt;
    SafeConfig(cfg, before, w);
    PendingView(cfg, before, w);
    ManifestKeyLast(cfg);
    var keys := ExpectedKeys(TheManifest(cfg));
    assert keys[|keys| - 1] !in TheView(cfg, w.objects);
  }

  lemma ManifestKeyLast(cfg: Config)
    requires ValidConfig(cfg)
    ensures var keys := ExpectedKeys(TheManifest(cfg));
            && |keys| > 0 && keys[|keys| - 1] == TheManifest(cfg).manifestKey
            && (forall i | 0 <= i < |keys| - 1 :: keys[i] != TheManifest(cfg).manifestKey)
            && (forall i | 0 <= i < |keys| :: InEpoch(keys[i], cfg.tenantId, Epoch(cfg)))
    ensures forall k | k in TheImage(cfg) :: k in ExpectedKeys(TheManifest(cfg))
  {
    hide ValidConfig, SealPlan, TheImage, TheManifest, PutKeys;
    ConfigFacts(cfg);
    PlanFacts(cfg);
    ImageFacts(cfg);
    var keys, plan := ExpectedKeys(TheManifest(cfg)), SealPlan(InputOf(cfg));
    assert keys == PutKeys(plan);
    assert forall i | 0 <= i < |keys| :: keys[i] == plan[i].0;
  }

  lemma DeleteIsSafe(cfg: Config, before: seq<RetentionCheckpoint>, w: World, keys: seq<ObjectKey>)
    requires Safe(cfg, before, w) && w.pc.Deleting? && w.pc.keys == keys && keys != []
    ensures Safe(cfg, before, DeleteStep(w, w.pc.checkpoint, w.pc.manifest, keys))
  {
    hide Invariant, ValidConfig, TheView, TheImage, TheManifest, TheCheckpoint, CoversRecords, AcceptedBinding, DeletedUpTo, ExpectedKeys, EpochView, PartOf;
    var w' := DeleteStep(w, w.pc.checkpoint, w.pc.manifest, keys);
    PendingView(cfg, before, w);
    DeleteShows(cfg, w, w', keys);
  }

  lemma DeleteShows(cfg: Config, w: World, w': World, rest: seq<ObjectKey>)
    requires ValidConfig(cfg) && DeletedUpTo(cfg, w, rest) && rest != [] && w'.objects == w.objects - {rest[0]}
    requires PartOf(TheView(cfg, w.objects), TheImage(cfg))
    requires TheManifest(cfg).manifestKey !in TheView(cfg, w.objects) ==> TheView(cfg, w.objects) == map[]
    ensures DeletedUpTo(cfg, w', rest[1..])
    ensures PartOf(TheView(cfg, w'.objects), TheImage(cfg))
    ensures TheManifest(cfg).manifestKey !in TheView(cfg, w'.objects) ==> TheView(cfg, w'.objects) == map[]
  {
    hide ValidConfig, TheImage, TheManifest, ExpectedKeys, EpochView;
    ViewOfDelete(w.objects, cfg.tenantId, Epoch(cfg), rest[0]);
    ManifestKeyLast(cfg);
    var keys := ExpectedKeys(TheManifest(cfg));
    assert rest[0] == keys[|keys| - |rest|];
    assert TheView(cfg, w'.objects) == TheView(cfg, w.objects) - {rest[0]};
  }

  /** A compaction only ever adds the checkpoint it was given. */
  lemma CropOutcome(t: Tables, full: seq<AuditRecord>, c: RetentionCheckpoint, expected: ChainState, fence: int)
    requires Invariant(t, full)
    ensures var (t', r) := CompactRange(t, c, expected, fence);
            && Invariant(t', full) && t'.tenantId == t.tenantId
            && t'.attempts == t.attempts && t'.receipts == t.receipts
            && t'.checkpoints == (if r.Success? then t.checkpoints + [c] else t.checkpoints)
            && (r.Failure? ==> t' == t)
            && (r.Success? ==> Tile(c, t.checkpoints, full, t.tenantId))
  {
    hide Invariant, CompactionError, Tile, RowsBetween, RowsOutside, Tombstoned;
    if CompactionError(t, c, expected, fence).None? {
      CompactKeepsInvariant(t, full, c, expected, fence);
      CompactedRange(t, full, c, expected, fence);
    }
  }

  lemma ChainPart(full: seq<AuditRecord>, tenantId: string, from: int, through: int)
    requires LinkedRange(full, tenantId, 1, None) && 1 <= from <= through <= |full|
    ensures Chained(full[from - 1..through], tenantId, from, LinkAt(full, from - 1, None))
  {
    hide LinkedRange, Chained, LinkAt, EndHash;
    LinkedRangePart(full, tenantId, 1, None, from - 1, through);
    var start := 1 + (from - 1);
    LinkedIsChained(full[from - 1..through], tenantId, start, LinkAt(full, from - 1, None));
  }

  /** The hash in front of a checkpoint's range is the one the chain has there. */
  lemma TileAnchor(before: seq<RetentionCheckpoint>, c: RetentionCheckpoint, full: seq<AuditRecord>, tenantId: string)
    requires Tiling(before, full, tenantId) && Tile(c, before, full, tenantId)
    ensures 1 <= c.body.fromSequence <= c.body.throughSequence <= |full|
    ensures LinkAt(full, c.body.fromSequence - 1, None) == c.body.fromPreviousHash
    ensures full[c.body.throughSequence - 1].hash == c.body.throughHash
  {
    if before != [] {
      assert TileAt(before, |before| - 1, full, tenantId);
    }
  }

  lemma InputRange(cfg: Config)
    requires ValidConfig(cfg)
    ensures var c := TheCheckpoint(cfg).body;
            && cfg.records != []
            && Chained(cfg.records, cfg.tenantId, c.fromSequence, c.fromPreviousHash)
            && cfg.records[|cfg.records| - 1].hash == c.throughHash
            && c.throughSequence == c.fromSequence + |cfg.records| - 1
  {
    hide Chained, ValidManifest, SegmentsOf, Batches, Descriptors, ValidCheckpoint;
    InputBoundaries(InputOf(cfg));
  }

  /** Only the staged records can be cropped: the boundary hash determines the whole range. */
  lemma CroppedAreStaged(cfg: Config, before: seq<RetentionCheckpoint>, full: seq<AuditRecord>)
    requires ValidConfig(cfg) && LinkedRange(full, cfg.tenantId, 1, None)
    requires Tiling(before, full, cfg.tenantId) && Tile(TheCheckpoint(cfg), before, full, cfg.tenantId)
    ensures CoversRecords(full, TheCheckpoint(cfg).body, cfg.records)
  {
    hide ValidConfig, LinkedRange, Chained, Tiling, Tile, LinkAt, TheCheckpoint;
    var c := TheCheckpoint(cfg).body;
    InputRange(cfg);
    TileAnchor(before, TheCheckpoint(cfg), full, cfg.tenantId);
    ChainPart(full, cfg.tenantId, c.fromSequence, c.throughSequence);
    var range := full[c.fromSequence - 1..c.throughSequence];
    ChainDetermined(range, cfg.records, cfg.tenantId, c.fromSequence, c.fromPreviousHash);
  }

  lemma LinkedParts(t: Tables, full: seq<AuditRecord>)
    requires Invariant(t, full)
    ensures LinkedRange(full, t.tenantId, 1, None) && Tiling(t.checkpoints, full, t.tenantId)
  {
    hide LinkedRange, Tiling, UniqueKeys, LedgerMatches, DispositionsMatch, CropOf;
  }

  lemma CropIsSafe(cfg: Config, before: seq<RetentionCheckpoint>, w: World)
    requires Safe(cfg, before, w) && w.pc.Cropping?
    ensures Safe(cfg, before, CropStep(w, w.pc.checkpoint, w.pc.staged))
  {
    hide Invariant, ValidConfig, TheView, TheImage, TheManifest, TheCheckpoint, CoversRecords, AcceptedBinding, PartOf, Tile, CompactRange;
    var c := w.pc.checkpoint;
    NothingBeforeCrop(cfg, before, w);
    CropOutcome(w.tables, w.chain, c, w.expected, w.version);
    if CompactRange(w.tables, c, w.expected, w.version).1.Success? {
      LinkedParts(w.tables, w.chain);
      CroppedAreStaged(cfg, before, w.chain);
    } else {
      StopIsSafe(cfg, before, w);
    }
  }

  lemma PrepareOutcome(t: Tables, full: seq<AuditRecord>, h: Digest, attempt: DispositionAttempt, fence: int)
    requires Invariant(t, full)
    ensures var (t', r) := PrepareDisposition(t, h, attempt, fence);
            && Invariant(t', full) && t'.tenantId == t.tenantId && t'.checkpoints == t.checkpoints
            && t'.receipts == t.receipts
            && (r != Success(attempt) ==> t' == t)
            && (r == Success(attempt) ==> t'.attempts == t.attempts[h := attempt])
  {
    hide Invariant, ValidChainState, CheckpointByHash;
    PrepareKeepsInvariant(t, full, PrepareOp(h, attempt, fence));
  }

  /** A prepared attempt leaves the staged objects in place, owed to nobody else. */
  lemma PreparedIsOwed(cfg: Config, before: seq<RetentionCheckpoint>, w: World, t': Tables)
    requires ValidConfig(cfg) && Cropped(cfg, before, w) && Undisposed(cfg, w)
    requires t'.checkpoints == w.tables.checkpoints && t'.receipts == w.tables.receipts
    requires t'.attempts == w.tables.attempts[TheCheckpoint(cfg).hash := AttemptOf(cfg, TheCheckpoint(cfg), w.version)]
    ensures Cropped(cfg, before, w.(tables := t'))
  {
    hide ValidConfig, TheView, TheImage, TheManifest, TheCheckpoint, CoversRecords, AcceptedBinding;
    ImageHasManifestKey(cfg);
  }

  lemma PreparingFacts(cfg: Config, before: seq<RetentionCheckpoint>, w: World, c: RetentionCheckpoint, staged: Option<Manifest>)
    requires Safe(cfg, before, w) && w.pc == Preparing(c, staged)
    ensures ValidConfig(cfg) && c == TheCheckpoint(cfg) && Undisposed(cfg, w) && StagedManifest(cfg, w, staged)
    ensures Cropped(cfg, before, w) && Invariant(w.tables, w.chain)
  {
    hide Invariant, ValidConfig, TheView, TheImage, TheManifest, TheCheckpoint, CoversRecords, StagedAsOwed;
  }

  lemma PreparedLocals(cfg: Config, w: World, c: RetentionCheckpoint, staged: Option<Manifest>, t': Tables, w': World)
    requires ValidConfig(cfg) && c == TheCheckpoint(cfg) && Undisposed(cfg, w) && StagedManifest(cfg, w, staged)
    requires t'.checkpoints == w.tables.checkpoints && t'.receipts == w.tables.receipts
    requires t'.attempts == w.tables.attempts[c.hash := AttemptOf(cfg, c, w.version)]
    requires w' == match staged
             case None => w.(tables := t', pc := ConfirmingAbsence(c, None))
             case Some(m) => w.(tables := t', pc := Deleting(c, m, ExpectedKeys(m)))
    ensures LocalFacts(cfg, w')
  {
    hide ValidConfig, TheView, TheManifest, TheCheckpoint, ExpectedKeys, DeletedUpTo;
    NothingDeletedYet(cfg, w');
  }

  lemma PrepareIsSafe(cfg: Config, before: seq<RetentionCheckpoint>, w: World, c: RetentionCheckpoint, staged: Option<Manifest>)
    requires Safe(cfg, before, w) && w.pc == Preparing(c, staged)
    ensures Safe(cfg, before, PrepareStep(cfg, w, c, staged))
  {
    hide Safe, LocalFacts, Invariant, ValidConfig, TheView, TheImage, TheManifest, TheCheckpoint, PrepareDisposition, ValidManifest, ExpectedKeys, Cropped;
    var attempt := AttemptOf(cfg, c, w.version);
    var (t', r) := PrepareDisposition(w.tables, c.hash, attempt, w.version);
    PreparingFacts(cfg, before, w, c, staged);
    PrepareOutcome(w.tables, w.chain, c.hash, attempt, w.version);
    if r != Success(attempt) {
      StopIsSafe(cfg, before, w);
    } else {
      PreparedIsOwed(cfg, before, w, t');
      ConfigFacts(cfg);
      var w' := PrepareStep(cfg, w, c, staged);
      PreparedLocals(cfg, w, c, staged, t', w');
      PreparedIsSafe(cfg, before, w, w');
    }
  }

  lemma PreparedIsSafe(cfg: Config, before: seq<RetentionCheckpoint>, w: World, w': World)
    requires Safe(cfg, before, w) && ValidConfig(cfg) && Stored(cfg, w.tables)
    requires w' == w.(tables := w'.tables, pc := w'.pc) && w'.tables.checkpoints == w.tables.checkpoints
    requires Cropped(cfg, before, w.(tables := w'.tables)) && LocalFacts(cfg, w')
    requires Invariant(w'.tables, w'.chain) && w'.tables.tenantId == w.tables.tenantId
    ensures Safe(cfg, before, w')
  {
    hide Invariant, ValidConfig, TheView, TheImage, TheManifest, TheCheckpoint, CoversRecords, LocalFacts, AcceptedBinding, PartOf;
  }

  lemma ImageHasManifestKey(cfg: Config)
    requires ValidConfig(cfg)
    ensures TheManifest(cfg).manifestKey in TheImage(cfg)
  {
    hide ValidConfig, TheImage, TheManifest, SealPlan;
    ImageFacts(cfg);
  }

  lemma NothingDeletedYet(cfg: Config, w: World)
    requires ValidConfig(cfg)
    ensures DeletedUpTo(cfg, w, ExpectedKeys(TheManifest(cfg)))
  {
    hide ValidConfig, TheManifest, TheView, ExpectedKeys;
  }

  lemma ConfirmOutcome(t: Tables, full: seq<AuditRecord>, receipt: RetentionDisposition, attemptId: string, fence: int)
    requires Invariant(t, full)
    ensures var (t', r) := ConfirmDisposition(t, receipt, attemptId, fence); var h := receipt.body.checkpointHash;
            && Invariant(t', full) && t'.tenantId == t.tenantId && t'.checkpoints == t.checkpoints
            && (r.Failure? ==> t' == t)
            && (r.Success? && h !in t.receipts ==> t'.receipts == t.receipts[h := receipt])
  {
    hide Invariant, ValidChainState, CheckpointByHash, ValidDisposition, Blank;
    ConfirmKeepsInvariant(t, full, ConfirmOp(receipt, attemptId, fence));
  }

  lemma ReceiptIsSafe(cfg: Config, before: seq<RetentionCheckpoint>, w: World, now: int)
    requires Safe(cfg, before, w) && w.pc.WritingReceipt?
    ensures Safe(cfg, before, ReceiptStep(cfg, w, w.pc.checkpoint, now))
  {
    hide Invariant, ValidConfig, TheView, TheImage, TheManifest, TheCheckpoint, CoversRecords, ConfirmDisposition, ValidDisposition, PartOf;
    var receipt := ReceiptFor(cfg, w.pc.checkpoint, now);
    if ValidDisposition(receipt, w.pc.checkpoint) {
      ConfirmOutcome(w.tables, w.chain, receipt, cfg.attemptId, w.version);
      if ConfirmDisposition(w.tables, receipt, cfg.attemptId, w.version).1.Failure? {
        StopIsSafe(cfg, before, w);
      }
    } else {
      StopIsSafe(cfg, before, w);
    }
  }

  // ---------- Other clients ----------

  lemma OtherOperations(t: Tables, op: Operation, h: Digest)
    requires !(op.PrepareOp? && op.checkpointHash == h) && !(op.ConfirmOp? && op.receipt.body.checkpointHash == h)
    ensures h in Apply(t, op).attempts <==> h in t.attempts
    ensures h in t.attempts ==> Apply(t, op).attempts[h] == t.attempts[h]
    ensures StoredReceipt(Apply(t, op), h) == StoredReceipt(t, h)
  {
    hide Append, AdvanceFence, CompactRange, ValidChainState, CheckpointByHash, ValidDisposition, Blank, Apply;
    if op.PrepareOp? || op.ConfirmOp? {
      OtherDispositions(t, op, h);
    } else {
      ChainOpsKeepDispositions(t, op);
    }
  }

  lemma OtherDispositions(t: Tables, op: Operation, h: Digest)
    requires op.PrepareOp? || op.ConfirmOp?
    requires !(op.PrepareOp? && op.checkpointHash == h) && !(op.ConfirmOp? && op.receipt.body.checkpointHash == h)
    ensures h in Apply(t, op).attempts <==> h in t.attempts
    ensures h in t.attempts ==> Apply(t, op).attempts[h] == t.attempts[h]
    ensures StoredReceipt(Apply(t, op), h) == StoredReceipt(t, h)
  {
    hide ValidChainState, CheckpointByHash, ValidDisposition, Blank;
  }

  lemma CheckpointsGrow(t: Tables, op: Operation)
    ensures t.checkpoints <= Apply(t, op).checkpoints
    ensures !op.CompactOp? ==> Apply(t, op).checkpoints == t.checkpoints
  {
    hide FindByKey, ValidStoredRecord, CompactionError, RowsBetween, RowsOutside, Tombstoned, ValidChainState, CheckpointByHash, ValidDisposition, Blank, HashIdempotencyKey, Replay, BuildRecord;
  }

  /** Other clients' actions leave everything the run relies on as it is. */
  predicate Undisturbed(cfg: Config, w: World, w': World)
    requires ValidConfig(cfg)
  {
    var h := TheCheckpoint(cfg).hash;
    && w'.pc == w.pc && w'.version == w.version
    && TheView(cfg, w'.objects) == TheView(cfg, w.objects)
    && (h in w'.tables.attempts <==> h in w.tables.attempts)
    && (h in w.tables.attempts ==> w'.tables.attempts[h] == w.tables.attempts[h])
    && StoredReceipt(w'.tables, h) == StoredReceipt(w.tables, h)
    && w.tables.checkpoints <= w'.tables.checkpoints
    && (!Stored(cfg, w.tables) ==> w'.tables.checkpoints == w.tables.checkpoints)
    && w.chain <= w'.chain
  }

  lemma LocalFactsStand(cfg: Config, w: World, w': World)
    requires ValidConfig(cfg) && Undisturbed(cfg, w, w') && LocalFacts(cfg, w)
    ensures LocalFacts(cfg, w')
  {
    hide ValidConfig, TheView, TheImage, TheManifest, TheCheckpoint, SealPlan, ExpectedKeys;
  }

  lemma PhaseStands(cfg: Config, before: seq<RetentionCheckpoint>, w: World, w': World)
    requires ValidConfig(cfg) && Undisturbed(cfg, w, w') && |before| + 1 == Epoch(cfg)
    requires if Stored(cfg, w.tables) then Cropped(cfg, before, w) else Uncropped(cfg, before, w)
    ensures if Stored(cfg, w'.tables) then Cropped(cfg, before, w') else Uncropped(cfg, before, w')
  {
    hide ValidConfig, TheView, TheImage, TheManifest, TheCheckpoint, AcceptedBinding, PartOf;
  }

  lemma UndisturbedIsSafe(cfg: Config, before: seq<RetentionCheckpoint>, w: World, w': World)
    requires Safe(cfg, before, w) && ValidConfig(cfg) && Undisturbed(cfg, w, w')
    requires Invariant(w'.tables, w'.chain) && w'.tables.tenantId == w.tables.tenantId
    ensures Safe(cfg, before, w')
  {
    hide ValidConfig, Undisturbed, Invariant, Cropped, Uncropped, Stored, LocalFacts, Epoch;
    LocalFactsStand(cfg, w, w');
    PhaseStands(cfg, before, w, w');
  }

  lemma StoreClientIsSafe(cfg: Config, before: seq<RetentionCheckpoint>, w: World, op: Operation)
    requires Safe(cfg, before, w) && ValidConfig(cfg) && Allowed(cfg, w, StoreClient(op))
    ensures Safe(cfg, before, Next(cfg, w, StoreClient(op)))
  {
    hide ValidConfig, Invariant, Cropped, Uncropped, LocalFacts, Epoch, Apply, GhostStep, TheCheckpoint, StoredReceipt;
    ApplyKeepsInvariant(w.tables, w.chain, op);
    OtherOperations(w.tables, op, TheCheckpoint(cfg).hash);
    CheckpointsGrow(w.tables, op);
    UndisturbedIsSafe(cfg, before, w, Next(cfg, w, StoreClient(op)));
  }

  lemma ProviderClientIsSafe(cfg: Config, before: seq<RetentionCheckpoint>, w: World, key: ObjectKey, body: Option<Bytes>)
    requires Safe(cfg, before, w) && ValidConfig(cfg) && Allowed(cfg, w, ProviderClient(key, body))
    ensures Safe(cfg, before, Next(cfg, w, ProviderClient(key, body)))
  {
    hide ValidConfig, Invariant, Cropped, Uncropped, LocalFacts, Epoch, TheCheckpoint, StoredReceipt, InEpoch, EpochView;
    ViewOfDelete(w.objects, cfg.tenantId, Epoch(cfg), key);
    if body.Some? {
      ViewOfPut(w.objects, cfg.tenantId, Epoch(cfg), key, body.value);
    }
    UndisturbedIsSafe(cfg, before, w, Next(cfg, w, ProviderClient(key, body)));
  }

  // ---------- Every run ----------

  lemma AdvanceIsSafe(cfg: Config, before: seq<RetentionCheckpoint>, w: World, now: int)
    requires Safe(cfg, before, w)
    ensures Safe(cfg, before, Advance(cfg, w, now))
  {
    hide Safe, AfterDispositions, AfterRecovery, SealStep, CropStep, PrepareStep, DeleteStep, ReceiptStep;
    match w.pc
    case Ended(_) =>
    case ListingCheckpoints => ListingIsSafe(cfg, before, w, now);
    case ListingDispositions(stored) => DispositionsAreSafe(cfg, before, w, stored);
    case Recovering(_, accepted) => RecoveryIsSafe(cfg, before, w, accepted);
    case Sealing(_, _, _) => SealStepIsSafe(cfg, before, w);
    case Verifying(_, _) => VerifyIsSafe(cfg, before, w, now);
    case CropCheck(_, _) => CropCheckIsSafe(cfg, before, w, now);
    case Cropping(_, _) => CropIsSafe(cfg, before, w);
    case Preparing(c, staged) => PrepareIsSafe(cfg, before, w, c, staged);
    case Deleting(_, _, _) => DeleteStepIsSafe(cfg, before, w);
    case WritingReceipt(_) => ReceiptIsSafe(cfg, before, w, now);
    case FenceCheck(_, _) => ChecksAreSafe(cfg, before, w, now);
    case DurableCheck(_, _) => ChecksAreSafe(cfg, before, w, now);
    case AcceptedCheck(_, _) => ChecksAreSafe(cfg, before, w, now);
    case ConfirmingAbsence(_, _) => ChecksAreSafe(cfg, before, w, now);
    case ReplayingAbsence(_, _) => ChecksAreSafe(cfg, before, w, now);
  }

  lemma NextIsSafe(cfg: Config, before: seq<RetentionCheckpoint>, w: World, a: Action)
    requires Safe(cfg, before, w) && ValidConfig(cfg) && Allowed(cfg, w, a)
    ensures Safe(cfg, before, Next(cfg, w, a))
  {
    hide Safe, ValidConfig, Allowed, Advance, StartRun, Stop;
    match a
    case Start(version, expected) => StartIsSafe(cfg, before, w, version, expected);
    case Proceed(now) => AdvanceIsSafe(cfg, before, w, now);
    case Crash => StopIsSafe(cfg, before, w);
    case StoreClient(op) => StoreClientIsSafe(cfg, before, w, op);
    case ProviderClient(key, body) => ProviderClientIsSafe(cfg, before, w, key, body);
  }

  /** The epoch may start on any store that is one checkpoint short of it, with an empty prefix. */
  lemma FreshEpochIsSafe(cfg: Config, w: World)
    requires ValidConfig(cfg) && w.tables.tenantId == cfg.tenantId && Invariant(w.tables, w.chain)
    requires |w.tables.checkpoints| + 1 == Epoch(cfg) && TheView(cfg, w.objects) == map[]
    requires w.pc == Ended(None)
    ensures Safe(cfg, w.tables.checkpoints, w)
  {
    hide Invariant, ValidConfig, TheView, TheImage;
  }

  /** What the invariant says about records and staged objects, in the store's and provider's terms. */
  predicate CrashSafe(cfg: Config, before: seq<RetentionCheckpoint>, w: World)
    requires ValidConfig(cfg)
  {
    var c, h := TheCheckpoint(cfg), TheCheckpoint(cfg).hash;
    if !Stored(cfg, w.tables) then
      // Nothing of the chain behind the earlier checkpoints has been deleted.
      && w.tables.checkpoints == before
      && 1 <= Uncovered(before) <= |w.chain| + 1 && w.tables.hot == w.chain[Uncovered(before) - 1..]
      && h !in w.tables.attempts && h !in w.tables.receipts
    else
      // What was cropped is what was staged, and it is readable until disposal begins.
      && CoversRecords(w.chain, c.body, cfg.records)
      && (h !in w.tables.attempts ==> VerifyEpoch(w.objects, TheManifest(cfg)) == Some(cfg.records))
      && (h in w.tables.receipts ==> TheView(cfg, w.objects) == map[])
  }

  lemma UncroppedIsHot(before: seq<RetentionCheckpoint>, w: World)
    requires Invariant(w.tables, w.chain) && w.tables.checkpoints == before
    ensures 0 <= Uncovered(before) - 1 <= |w.chain| && w.tables.hot == w.chain[Uncovered(before) - 1..]
  {
    hide LinkedRange, UniqueKeys, Tiling, LedgerMatches, DispositionsMatch, Uncovered, LastHash, EndHash;
  }

  lemma ReceiptHasAttempt(t: Tables, full: seq<AuditRecord>, h: Digest)
    requires Invariant(t, full) && h in t.receipts
    ensures h in t.attempts
  {
    hide LinkedRange, UniqueKeys, Tiling, LedgerMatches, CropOf, ValidDisposition, CheckpointByHash;
  }

  lemma StagedIsReadable(cfg: Config, objects: Objects)
    requires ValidConfig(cfg) && TheView(cfg, objects) == TheImage(cfg)
    ensures VerifyEpoch(objects, TheManifest(cfg)) == Some(cfg.records)
  {
    hide ValidConfig, ImageOf, SealPlan, BuildManifest, VerifyEpoch;
    ConfigFacts(cfg);
    SealedImageVerifies(objects, InputOf(cfg));
  }

  lemma SafeIsCrashSafe(cfg: Config, before: seq<RetentionCheckpoint>, w: World)
    requires Safe(cfg, before, w)
    ensures ValidConfig(cfg) && CrashSafe(cfg, before, w)
  {
    hide Invariant, LocalFacts, ValidConfig, TheView, TheImage, TheManifest, TheCheckpoint, CoversRecords, PartOf, VerifyEpoch, AcceptedBinding, Uncovered;
    if !Stored(cfg, w.tables) {
      UncroppedIsHot(before, w);
      NothingBeforeCrop(cfg, before, w);
    } else if TheCheckpoint(cfg).hash in w.tables.receipts {
      ReceiptHasAttempt(w.tables, w.chain, TheCheckpoint(cfg).hash);
    } else if TheCheckpoint(cfg).hash !in w.tables.attempts {
      StagedIsReadable(cfg, w.objects);
    }
  }

  /** Over any number of cut-off and retried runs the epoch stays crash safe. */
  lemma {:induction false} EveryRunIsCrashSafe(cfg: Config, before: seq<RetentionCheckpoint>, w: World, actions: seq<Action>)
    requires Safe(cfg, before, w) && ValidConfig(cfg) && AllAllowed(cfg, w, actions)
    ensures Safe(cfg, before, RunFrom(cfg, w, actions)) && CrashSafe(cfg, before, RunFrom(cfg, w, actions))
    decreases |actions|
  {
    hide Safe, CrashSafe, ValidConfig, Allowed, Next;
    if actions == [] {
      SafeIsCrashSafe(cfg, before, w);
    } else {
      NextIsSafe(cfg, before, w, actions[0]);
      EveryRunIsCrashSafe(cfg, before, Next(cfg, w, actions[0]), actions[1..]);
    }
  }

  // ---------- The order of effects ----------

  /**
   One action never deletes a staged object before an attempt is pending, never puts one once
   the checkpoint is stored, and never takes back a checkpoint or changes a receipt.
   */
  predicate Ordered(cfg: Config, w: World, w': World)
    requires ValidConfig(cfg)
  {
    var h, view, view' := TheCheckpoint(cfg).hash, TheView(cfg, w.objects), TheView(cfg, w'.objects);
    && (h !in w.tables.attempts ==> PartOf(view, view'))
    && (Stored(cfg, w.tables) ==> PartOf(view', view) && Stored(cfg, w'.tables))
    && (h in w.tables.receipts ==> StoredReceipt(w'.tables, h) == StoredReceipt(w.tables, h))
  }

  lemma WriteIsOrdered(cfg: Config, before: seq<RetentionCheckpoint>, w: World, now: int)
    requires Safe(cfg, before, w) && ValidConfig(cfg)
    requires w.pc.Sealing? || w.pc.Deleting?
    ensures Ordered(cfg, w, Advance(cfg, w, now))
  {
    hide Invariant, ValidConfig, TheManifest, TheCheckpoint, TheImage, SealPlan, Cropped, Uncropped, DeletedUpTo, SealedUpTo, PutExact;
    if w.pc.Sealing? && w.pc.puts != [] && PutExact(w.objects, w.pc.puts[0]).Some? {
      NextPut(cfg, w, w.pc.puts);
      PutIsOrdered(cfg, w.objects, w.pc.puts[0]);
    }
  }

  lemma PutIsOrdered(cfg: Config, objects: Objects, put: Put)
    requires InEpoch(put.0, cfg.tenantId, Epoch(cfg)) && PutExact(objects, put).Some?
    ensures PartOf(TheView(cfg, objects), TheView(cfg, PutExact(objects, put).value))
  {
  }

  lemma StoreStepIsOrdered(cfg: Config, before: seq<RetentionCheckpoint>, w: World, now: int)
    requires Safe(cfg, before, w) && ValidConfig(cfg)
    requires w.pc.Cropping? || w.pc.Preparing? || w.pc.WritingReceipt?
    ensures Ordered(cfg, w, Advance(cfg, w, now))
  {
    hide Invariant, ValidConfig, TheManifest, TheCheckpoint, TheImage, TheView, CompactRange, PrepareDisposition, ConfirmDisposition, Cropped, Uncropped, ValidDisposition;
    match w.pc
    case Cropping(c, _) => CropOutcome(w.tables, w.chain, c, w.expected, w.version);
    case Preparing(c, _) => PrepareOutcome(w.tables, w.chain, c.hash, AttemptOf(cfg, c, w.version), w.version);
    case WritingReceipt(c) => ConfirmOutcome(w.tables, w.chain, ReceiptFor(cfg, c, now), cfg.attemptId, w.version);
  }

  lemma ReadIsOrdered(cfg: Config, before: seq<RetentionCheckpoint>, w: World, now: int)
    requires Safe(cfg, before, w) && ValidConfig(cfg)
    requires !w.pc.Sealing? && !w.pc.Deleting? && !w.pc.Cropping? && !w.pc.Preparing? && !w.pc.WritingReceipt?
    ensures Ordered(cfg, w, Advance(cfg, w, now))
  {
    hide Safe, ValidConfig, TheManifest, TheCheckpoint, TheImage, TheView, Stored, DeriveEpoch, RecoverEpoch, VerifyEpoch, SealPlan, ValidCheckpoint, CheckpointByHash, CheckpointAtEpoch;
  }

  lemma ClientIsOrdered(cfg: Config, w: World, a: Action)
    requires ValidConfig(cfg) && Allowed(cfg, w, a) && (a.StoreClient? || a.ProviderClient?)
    ensures Ordered(cfg, w, Next(cfg, w, a))
  {
    hide ValidConfig, TheManifest, TheCheckpoint, TheImage, Apply, EpochView, InEpoch;
    match a
    case StoreClient(op) =>
      OtherOperations(w.tables, op, TheCheckpoint(cfg).hash);
      CheckpointsGrow(w.tables, op);
    case ProviderClient(key, body) =>
      ViewOfDelete(w.objects, cfg.tenantId, Epoch(cfg), key);
      if body.Some? {
        ViewOfPut(w.objects, cfg.tenantId, Epoch(cfg), key, body.value);
      }
    case _ =>
  }

  lemma EveryActionIsOrdered(cfg: Config, before: seq<RetentionCheckpoint>, w: World, a: Action)
    requires Safe(cfg, before, w) && ValidConfig(cfg) && Allowed(cfg, w, a)
    ensures Ordered(cfg, w, Next(cfg, w, a))
  {
    hide Safe, ValidConfig, Allowed, Advance, TheCheckpoint, TheView, Stored;
    match a
    case Proceed(now) =>
      if w.pc.Sealing? || w.pc.Deleting? {
        WriteIsOrdered(cfg, before, w, now);
      } else if w.pc.Cropping? || w.pc.Preparing? || w.pc.WritingReceipt? {
        StoreStepIsOrdered(cfg, before, w, now);
      } else {
        ReadIsOrdered(cfg, before, w, now);
      }
    case StoreClient(_) => ClientIsOrdered(cfg, w, a);
    case ProviderClient(_, _) => ClientIsOrdered(cfg, w, a);
    case _ =>
  }

  /** Once stored, a receipt stays, and the prefix stays empty. */
  lemma {:induction false} ReceiptStays(cfg: Config, before: seq<RetentionCheckpoint>, w: World, actions: seq<Action>)
    requires Safe(cfg, before, w) && ValidConfig(cfg) && AllAllowed(cfg, w, actions)
    requires TheCheckpoint(cfg).hash in w.tables.receipts
    ensures var later := RunFrom(cfg, w, actions);
            && Safe(cfg, before, later)
            && StoredReceipt(later.tables, TheCheckpoint(cfg).hash) == StoredReceipt(w.tables, TheCheckpoint(cfg).hash)
    decreases |actions|
  {
    hide Safe, ValidConfig, Allowed, Next, TheCheckpoint, TheView, Stored;
    if actions != [] {
      NextIsSafe(cfg, before, w, actions[0]);
      EveryActionIsOrdered(cfg, before, w, actions[0]);
      ReceiptStays(cfg, before, Next(cfg, w, actions[0]), actions[1..]);
    }
  }

  lemma EndedOutcome(cfg: Config, before: seq<RetentionCheckpoint>, w: World, outcome: Outcome)
    requires Safe(cfg, before, w) && ValidConfig(cfg) && w.pc == Ended(Some(outcome))
    ensures outcome.checkpoint == TheCheckpoint(cfg)
    ensures StoredReceipt(w.tables, TheCheckpoint(cfg).hash) == Some(outcome.disposition)
  {
    hide ValidConfig, TheCheckpoint, Invariant, Cropped, Uncropped;
  }

  /** All runs of the epoch that finish return the same checkpoint and the same receipt. */
  lemma FinishedRunsAgree(cfg: Config, before: seq<RetentionCheckpoint>, w: World, first: Outcome,
                          actions: seq<Action>, second: Outcome)
    requires Safe(cfg, before, w) && ValidConfig(cfg) && AllAllowed(cfg, w, actions)
    requires w.pc == Ended(Some(first)) && RunFrom(cfg, w, actions).pc == Ended(Some(second))
    ensures first == second
  {
    hide Safe, ValidConfig, TheCheckpoint, AllAllowed, RunFrom;
    EndedOutcome(cfg, before, w, first);
    ReceiptStays(cfg, before, w, actions);
    EndedOutcome(cfg, before, RunFrom(cfg, w, actions), second);
  }
}
