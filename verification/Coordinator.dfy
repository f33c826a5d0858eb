/**
 The retention epoch coordinator as the sequence of store and provider effects it awaits, and
 its refinement of the protocol's state machine: an uninterrupted run does exactly `Finish`.
 */
module Coordinator {
  import opened Wrappers
  import opened Protocol
  import opened AuditTables
  import opened AuditStore
  import opened StagingArchive
  import Derive = Staging
  import Sealed = SealedEpochs
  import opened SealedEpochs
  import opened EpochEvidence
  import opened EpochProtocol
  import opened EpochConvergence
  import opened AuditAnswers

  lemma FinishStep(cfg: Config, w: World, now: int)
    requires !w.pc.Ended?
    ensures Finish(cfg, w, now) == Finish(cfg, Advance(cfg, w, now), now)
  {
    hide Advance, Rank;
  }

  /** The seal's loop of effects, all at once. */
  lemma {:induction false} FinishSeal(cfg: Config, w: World, now: int)
    requires w.pc.Sealing?
    ensures var (objects, done) := SealFrom(w.objects, w.pc.puts);
            Finish(cfg, w, now)
            == Finish(cfg, w.(objects := objects, pc := if done then Verifying(w.pc.checkpoint, w.pc.manifest) else Ended(None)), now)
    decreases |w.pc.puts|
  {
    hide Finish, PutExact;
    FinishStep(cfg, w, now);
    if w.pc.puts != [] && PutExact(w.objects, w.pc.puts[0]).Some? {
      FinishSeal(cfg, Advance(cfg, w, now), now);
    }
  }

  lemma {:induction false} FinishDelete(cfg: Config, w: World, now: int)
    requires w.pc.Deleting?
    ensures Finish(cfg, w, now)
         == Finish(cfg, w.(objects := DeleteKeys(w.objects, w.pc.keys),
                           pc := ConfirmingAbsence(w.pc.checkpoint, Some(w.pc.manifest))), now)
    decreases |w.pc.keys|
  {
    hide Finish;
    FinishStep(cfg, w, now);
    if w.pc.keys != [] {
      FinishDelete(cfg, Advance(cfg, w, now), now);
    }
  }

  // ---------- What a run leaves behind ----------

  /** The sealed epoch was accepted and holds exactly the epoch's records, which the checkpoint covers. */
  ghost predicate Evidence(cfg: Config, objects: Derive.Objects, c: RetentionCheckpoint, m: Manifest) {
    && Sealed.VerifyEpoch(objects, m) == Some(cfg.records)
    && RecordsOfCheckpoint(cfg.records, c.body)
    && ArchiveRootDigest(Derive.Descriptors(m.segments)) == c.body.archiveRootHash
    && c.body.tenantId == m.tenantId == cfg.tenantId && c.body.epoch == m.epoch == Epoch(cfg)
    && c.body.checkpointId == cfg.checkpointId && c.body.createdAt == cfg.createdAt
  }

  /** Objects were only removed, and only under the prefix. */
  ghost predicate Shrunk(before: Derive.Objects, after: Derive.Objects, tenantId: string, epoch: int) {
    && (forall k | k in after :: k in before && after[k] == before[k])
    && (forall k | k in before && k !in after :: InEpoch(k, tenantId, epoch))
  }

  /** A finished run's checkpoint and receipt are stored, fit each other and the run, and nothing is left under the prefix. */
  ghost predicate Settled(cfg: Config, t: Tables, objects: Derive.Objects, o: Outcome) {
    && o.checkpoint in t.checkpoints && o.checkpoint.body.tenantId == cfg.tenantId && o.checkpoint.body.epoch == Epoch(cfg)
    && o.checkpoint.hash in t.receipts && t.receipts[o.checkpoint.hash] == o.disposition
    && ReceiptFits(o.disposition, o.checkpoint)
    && o.disposition.body.dispositionId == cfg.dispositionId && o.disposition.body.policyReference == cfg.policyReference
    && PrefixEmpty(objects, cfg.tenantId, Epoch(cfg))
  }

  /** The run's attempt is prepared under its policy version. */
  predicate Attempted(cfg: Config, t: Tables, version: int, h: Digest) {
    h in t.attempts && t.attempts[h].attemptId == cfg.attemptId && t.attempts[h].policyFence == version
  }

  lemma ValidReceiptFits(r: RetentionDisposition, c: RetentionCheckpoint)
    requires ValidDisposition(r, c)
    ensures ReceiptFits(r, c)
  {
    hide ValidCheckpoint;
  }

  lemma {:induction false} AtEpochIsMember(checkpoints: seq<RetentionCheckpoint>, epoch: int)
    ensures match CheckpointAtEpoch(checkpoints, epoch)
            case Some(c) => c in checkpoints && c.body.epoch == epoch
            case None => forall c | c in checkpoints :: c.body.epoch != epoch
    decreases |checkpoints|
  {
    if checkpoints != [] {
      AtEpochIsMember(checkpoints[1..], epoch);
      assert checkpoints == [checkpoints[0]] + checkpoints[1..];
    }
  }

  /** The checkpoint of a derived manifest covers the records the manifest was derived from. */
  lemma DerivedCheckpointCovers(cfg: Config)
    requires Derive.DeriveEpoch(InputOf(cfg)).Some?
    ensures var m := Derive.DeriveEpoch(InputOf(cfg)).value;
            var c := CheckpointFor(cfg, m);
            && RecordsOfCheckpoint(cfg.records, c.body) && Derive.ValidManifest(m)
            && ArchiveRootDigest(Derive.Descriptors(m.segments)) == c.body.archiveRootHash
            && c.body.tenantId == m.tenantId == cfg.tenantId && c.body.epoch == m.epoch == Epoch(cfg)
            && c.body.checkpointId == cfg.checkpointId && c.body.createdAt == cfg.createdAt
            && m == Derive.BuildManifest(InputOf(cfg))
  {
    hide Derive.Batches, Derive.SegmentsOf, Derive.Descriptors, ValidCheckpoint, Derive.SegmentsContinue, Derive.AllNonempty;
    RetentionStagingArchive.DerivedFacts(InputOf(cfg));
    ChainedEnds(cfg.records, cfg.tenantId, Derive.Anchor(cfg.previous).0 + 1, Derive.Anchor(cfg.previous).1);
  }

  lemma ChainedEnds(records: seq<AuditRecord>, tenantId: string, start: int, previous: Option<Digest>)
    requires records != [] && Chained(records, tenantId, start, previous)
    ensures records[0].body.sequence == start && records[0].body.previousHash == previous
    ensures records[|records| - 1].body.sequence == start + |records| - 1
    ensures EndHash(records, previous) == Some(records[|records| - 1].hash)
  {
    assert ChainedAt(records, 0, tenantId, start, previous) && ChainedAt(records, |records| - 1, tenantId, start, previous);
  }

  /** Everything a seal writes lies under the epoch's prefix. */
  lemma SealGrows(cfg: Config, objects: Derive.Objects)
    requires Derive.DeriveEpoch(InputOf(cfg)).Some?
    ensures Grown(objects, SealFrom(objects, SealPlan(InputOf(cfg))).0, cfg.tenantId, Epoch(cfg))
  {
    hide SealFrom, SealPlan, Grown, Derive.BuildManifest, ExpectedKeys, Derive.DeriveEpoch;
    RetentionStagingArchive.DerivedFacts(InputOf(cfg));
    PlanKeysExpected(InputOf(cfg));
    SealOnlyAdds(objects, SealPlan(InputOf(cfg)), cfg.tenantId, Epoch(cfg));
  }

  class RetentionCoordinator {
    const store: SqlAuditStore
    const archive: RetentionStagingArchive

    constructor (store: SqlAuditStore, archive: RetentionStagingArchive)
      ensures this.store == store && this.archive == archive
    {
      this.store, this.archive := store, archive;
    }

    /** The machine's world is the store and the provider as they stand. */
    ghost predicate At(w: World)
      reads store, archive.client
    {
      w.tables == store.View() && w.objects == archive.client.objects
    }

    method FindCheckpoint(epoch: int) returns (c: Option<RetentionCheckpoint>)
      ensures c == CheckpointAtEpoch(store.checkpoints, epoch)
    {
      var checkpoints := store.checkpoints;
      for i := 0 to |checkpoints|
        invariant CheckpointAtEpoch(checkpoints, epoch) == CheckpointAtEpoch(checkpoints[i..], epoch)
      {
        if checkpoints[i].body.epoch == epoch { return Some(checkpoints[i]); }
        assert checkpoints[i..][1..] == checkpoints[i + 1..];
      }
      return None;
    }

    method FindDisposition(checkpointHash: Digest) returns (r: Option<RetentionDisposition>)
      ensures r == StoredReceipt(store.View(), checkpointHash)
    {
      return if checkpointHash in store.receipts then Some(store.receipts[checkpointHash]) else None;
    }

    /** Derives, seals and verifies an epoch that has no checkpoint yet. */
    method SealAndVerify(cfg: Config, now: int, ghost w: World)
      returns (sealed: Option<(RetentionCheckpoint, Manifest)>, ghost w': World)
      requires At(w) && w.pc == ListingDispositions(None)
      modifies archive.client
      ensures At(w') && Finish(cfg, w, now) == Finish(cfg, w', now) && w'.version == w.version && w'.expected == w.expected
      ensures match sealed
              case None => w'.pc == Ended(None)
              case Some((c, m)) => w'.pc == CropCheck(c, Some(m)) && ValidCheckpoint(c)
      ensures Grown(old(archive.client.objects), archive.client.objects, cfg.tenantId, Epoch(cfg))
      ensures sealed.Some? ==>
                Evidence(cfg, archive.client.objects, sealed.value.0, sealed.value.1) && Derive.ValidManifest(sealed.value.1)
    {
      hide Finish, ValidCheckpoint, Derive.DeriveEpoch, SealPlan, SealFrom, Sealed.VerifyEpoch, CheckpointFor, RecordsOfCheckpoint,
           Derive.ValidManifest, Derive.BuildManifest, Derive.Descriptors, Grown;
      NothingGrows(archive.client.objects, cfg.tenantId, Epoch(cfg));
      var input := InputOf(cfg);
      var derived := archive.DeriveEpoch(input);
      FinishStep(cfg, w, now);
      w' := Advance(cfg, w, now);
      if derived.None? { return None, w'; }
      var c := CheckpointFor(cfg, derived.value);
      if !ValidCheckpoint(c) { return None, w'; }
      var accepted := FindDisposition(c.hash);
      if accepted.Some? { return None, w'; }
      FinishSeal(cfg, w', now);
      RetentionStagingArchive.DerivedFacts(input);
      DerivedCheckpointCovers(cfg);
      SealGrows(cfg, archive.client.objects);
      var (objects, done) := SealFrom(w'.objects, SealPlan(input));
      w' := w'.(objects := objects, pc := if done then Verifying(c, derived.value) else Ended(None));
      var manifest := archive.SealEpoch(input);
      if manifest.None? { return None, w'; }
      var verification := archive.VerifyEpoch(manifest.value);
      FinishStep(cfg, w', now);
      w' := Advance(cfg, w', now);
      if verification.None? { return None, w'; }
      InputRootBindsRecords(archive.client.objects, manifest.value, input);
      return Some((c, manifest.value)), w';
    }

    static lemma NothingGrows(objects: Derive.Objects, tenantId: string, epoch: int)
      ensures Grown(objects, objects, tenantId, epoch) && Shrunk(objects, objects, tenantId, epoch)
    {
    }

    /** Fence one: the final checkpoint validation and the crop. */
    method CropUnderFence(cfg: Config, c: RetentionCheckpoint, ghost staged: Option<Manifest>, version: int, expected: ChainState,
                          now: int, ghost w: World)
      returns (ok: bool, ghost w': World)
      requires At(w) && w.pc == CropCheck(c, staged) && w.version == version && w.expected == expected
      modifies store`hot, store`ledger, store`checkpoints, store`state
      ensures At(w') && Finish(cfg, w, now) == Finish(cfg, w', now) && w'.version == version
      ensures w'.pc == if ok then FenceCheck(c, staged) else Ended(None)
      ensures ok ==> c in store.checkpoints
      ensures store.View() == old(store.View())
              || (&& ok && (forall s | s in old(store.checkpoints) :: s.body.epoch != c.body.epoch)
                  && expected == old(store.state) && version == old(store.state).fence
                  && RecordsOfCheckpoint(RowsBetween(old(store.hot), c.body.fromSequence, c.body.throughSequence), c.body)
                  && store.checkpoints == old(store.checkpoints) + [c]
                  && store.hot == RowsOutside(old(store.hot), c.body.fromSequence, c.body.throughSequence)
                  && store.state == old(store.state).(minimumRetained := c.body.throughSequence + 1, latestCheckpointHash := Some(c.hash)))
    {
      hide Finish, CheckpointAtEpoch, CompactionError, RowsOutside, RowsBetween, Tombstoned;
      AtEpochIsMember(store.checkpoints, c.body.epoch);
      var stored := FindCheckpoint(c.body.epoch);
      FinishStep(cfg, w, now);
      w' := Advance(cfg, w, now);
      if stored.Some? { return stored.value == c, w'; }
      if expected.fence != version { return false, w'; }
      CompactsOnlyCurrent(store.View(), c, expected, version);
      var r := store.CompactRange(c, expected, version);
      FinishStep(cfg, w', now);
      w' := Advance(cfg, w', now);
      return r.Success?, w';
    }

    static lemma CompactsOnlyCurrent(t: Tables, c: RetentionCheckpoint, expected: ChainState, fence: int)
      ensures CompactionError(t, c, expected, fence).None? ==>
                && expected == t.state && fence == t.state.fence
                && RecordsOfCheckpoint(RowsBetween(t.hot, c.body.fromSequence, c.body.throughSequence), c.body)
    {
      hide CompactionError;
      if CompactionError(t, c, expected, fence).None? {
        CroppedAreOfCheckpoint(t, c, expected, fence);
        ExpectedIsCurrent(t, c, expected, fence);
      }
    }

    /** The rows a compaction takes out are the records its checkpoint covers. */
    static lemma CroppedAreOfCheckpoint(t: Tables, c: RetentionCheckpoint, expected: ChainState, fence: int)
      requires CompactionError(t, c, expected, fence).None?
      ensures RecordsOfCheckpoint(RowsBetween(t.hot, c.body.fromSequence, c.body.throughSequence), c.body)
    {
      hide ValidChainState, ExtendsCheckpoints, LatestCheckpoint, CheckpointAtEpoch, CheckpointByHash, RowsBetween, LinkedRange, Chained, EndHash;
      LinkedIsChained(RowsBetween(t.hot, c.body.fromSequence, c.body.throughSequence), t.tenantId, c.body.fromSequence, c.body.fromPreviousHash);
    }

    /** Confirms that an epoch with an accepted receipt is gone. */
    method ReplayReceipt(cfg: Config, c: RetentionCheckpoint, receipt: RetentionDisposition, now: int, ghost w: World)
      returns (r: Option<Outcome>, ghost w': World)
      requires At(w) && ValidCheckpoint(c) && w.pc == ReplayingAbsence(c, receipt)
      ensures r.Some? ==> r.value == Outcome(c, receipt) && PrefixEmpty(archive.client.objects, c.body.tenantId, c.body.epoch)
      ensures At(w') && Finish(cfg, w, now) == Finish(cfg, w', now) && w'.pc == Ended(r)
    {
      hide Finish, CheckpointEpochAbsent, ValidCheckpoint, PrefixEmpty;
      var absent := archive.ConfirmCheckpointEpochAbsent(c);
      FinishStep(cfg, w, now);
      w' := Advance(cfg, w, now);
      return if absent then Some(Outcome(c, receipt)) else None, w';
    }

    /** Fence two: prepare, delete, confirm absence and store the receipt. */
    method DisposeUnderFence(cfg: Config, c: RetentionCheckpoint, staged: Option<Manifest>, version: int, now: int, ghost w: World)
      returns (r: Option<Outcome>, ghost w': World)
      requires At(w) && ValidCheckpoint(c) && w.pc == FenceCheck(c, staged) && w.version == version
      requires staged.Some? ==> staged.value.tenantId == c.body.tenantId && staged.value.epoch == c.body.epoch
      modifies store`attempts, store`receipts, archive.client
      ensures At(w') && Finish(cfg, w, now) == Finish(cfg, w', now) && w'.pc == Ended(r)
      ensures Shrunk(old(archive.client.objects), archive.client.objects, c.body.tenantId, c.body.epoch)
      ensures archive.client.objects != old(archive.client.objects) ==> Attempted(cfg, store.View(), version, c.hash)
      ensures store.receipts == old(store.receipts) || (r.Some? && store.receipts == old(store.receipts)[c.hash := r.value.disposition])
      ensures r.Some? ==>
                && r.value.checkpoint == c && c.hash in store.receipts && store.receipts[c.hash] == r.value.disposition
                && ReceiptFits(r.value.disposition, c)
                && r.value.disposition.body.dispositionId == cfg.dispositionId && r.value.disposition.body.policyReference == cfg.policyReference
                && PrefixEmpty(archive.client.objects, c.body.tenantId, c.body.epoch)
    {
      hide Finish, CheckpointByHash, ValidDisposition, ValidCheckpoint, PrefixEmpty, ReceiptFits, Shrunk;
      NothingGrows(archive.client.objects, c.body.tenantId, c.body.epoch);
      FinishStep(cfg, w, now);
      w' := Advance(cfg, w, now);
      if store.state.fence != version { return None, w'; }
      var stored := store.SelectCheckpoint(c.hash);
      FinishStep(cfg, w', now);
      w' := Advance(cfg, w', now);
      if stored != Some(c) { return None, w'; }
      var accepted := FindDisposition(c.hash);
      FinishStep(cfg, w', now);
      w' := Advance(cfg, w', now);
      if accepted.Some? {
        if !AcceptedBinding(cfg, c, accepted.value) { return None, w'; }
        ValidReceiptFits(accepted.value, c);
        r, w' := ReplayReceipt(cfg, c, accepted.value, now, w');
        return;
      }
      r, w' := Dispose(cfg, c, staged, version, now, w');
    }

    method Dispose(cfg: Config, c: RetentionCheckpoint, staged: Option<Manifest>, version: int, now: int, ghost w: World)
      returns (r: Option<Outcome>, ghost w': World)
      requires At(w) && ValidCheckpoint(c) && w.pc == Preparing(c, staged) && w.version == version
      requires staged.Some? ==> staged.value.tenantId == c.body.tenantId && staged.value.epoch == c.body.epoch
      modifies store`attempts, store`receipts, archive.client
      ensures At(w') && Finish(cfg, w, now) == Finish(cfg, w', now) && w'.pc == Ended(r)
      ensures Shrunk(old(archive.client.objects), archive.client.objects, c.body.tenantId, c.body.epoch)
      ensures archive.client.objects != old(archive.client.objects) ==> Attempted(cfg, store.View(), version, c.hash)
      ensures store.receipts == old(store.receipts) || (r.Some? && store.receipts == old(store.receipts)[c.hash := r.value.disposition])
      ensures r.Some? ==>
                && r.value.checkpoint == c && c.hash in store.receipts && store.receipts[c.hash] == r.value.disposition
                && ReceiptFits(r.value.disposition, c)
                && r.value.disposition.body.dispositionId == cfg.dispositionId && r.value.disposition.body.policyReference == cfg.policyReference
                && PrefixEmpty(archive.client.objects, c.body.tenantId, c.body.epoch)
    {
      hide Finish, PrepareDisposition, ConfirmDisposition, ValidCheckpoint, Derive.ValidManifest, ValidDisposition, DeleteKeys, ExpectedKeys,
           EpochAbsent, CheckpointEpochAbsent, PrefixEmpty, ReceiptFits, Shrunk, Without;
      NothingGrows(archive.client.objects, c.body.tenantId, c.body.epoch);
      var attempt := AttemptOf(cfg, c, version);
      PreparedIsAttempted(store.View(), c.hash, attempt, version);
      var prepared := store.PrepareDisposition(c.hash, attempt, version);
      FinishStep(cfg, w, now);
      w' := Advance(cfg, w, now);
      if prepared != Success(attempt) { return None, w'; }
      var absent: bool;
      if staged.Some? {
        var deleted := archive.DeleteEpoch(staged.value);
        if !deleted { return None, w'; }
        DeletedShrinks(old(archive.client.objects), archive.client.objects, staged.value);
        FinishDelete(cfg, w', now);
        w' := w'.(objects := DeleteKeys(w'.objects, w'.pc.keys), pc := ConfirmingAbsence(c, staged));
        absent := archive.ConfirmEpochAbsent(staged.value);
      } else {
        absent := archive.ConfirmCheckpointEpochAbsent(c);
      }
      FinishStep(cfg, w', now);
      w' := Advance(cfg, w', now);
      if !absent { return None, w'; }
      var receipt := ReceiptFor(cfg, c, now);
      FinishStep(cfg, w', now);
      w' := Advance(cfg, w', now);
      if !ValidDisposition(receipt, c) { return None, w'; }
      ValidReceiptFits(receipt, c);
      ConfirmedIsStored(store.View(), receipt, cfg.attemptId, version);
      var confirmed := store.ConfirmDisposition(receipt, cfg.attemptId, version);
      return if confirmed.Success? then Some(Outcome(c, receipt)) else None, w';
    }

    static lemma DeletedShrinks(before: Derive.Objects, after: Derive.Objects, m: Manifest)
      requires Derive.ValidManifest(m) && Without(before, after, ExpectedKeys(m))
      ensures Shrunk(before, after, m.tenantId, m.epoch)
    {
      hide Derive.ValidManifest, ExpectedKeys;
      ManifestKeysInEpoch(m);
    }

    static lemma PreparedIsAttempted(t: Tables, h: Digest, attempt: DispositionAttempt, fence: int)
      ensures var (t', r) := PrepareDisposition(t, h, attempt, fence);
              r == Success(attempt) ==> h in t'.attempts && t'.attempts[h] == attempt && attempt.policyFence == fence
    {
      hide CheckpointByHash, ValidChainState;
    }

    static lemma ConfirmedIsStored(t: Tables, receipt: RetentionDisposition, attemptId: string, fence: int)
      ensures var (t', r) := ConfirmDisposition(t, receipt, attemptId, fence);
              var h := receipt.body.checkpointHash;
              && (r.Failure? ==> t' == t)
              && (r.Success? ==>
                    && t'.receipts == t.receipts[h := receipt]
                    && (forall k | k in t.attempts :: k in t'.attempts && t'.attempts[k].attemptId == t.attempts[k].attemptId
                                                      && t'.attempts[k].policyFence == t.attempts[k].policyFence))
    {
      hide CheckpointByHash, ValidChainState, ValidDisposition, Blank;
      if receipt.body.checkpointHash in t.receipts {
        assert t.receipts[receipt.body.checkpointHash := t.receipts[receipt.body.checkpointHash]] == t.receipts;
      }
    }

    /** One epoch: seal, verify, crop, prepare, delete, confirm absence, receipt. */
    method RunRetentionEpoch(cfg: Config, version: int, expected: ChainState, now: int, ghost chain: seq<AuditRecord>)
      returns (r: Option<Outcome>, ghost staged: Derive.Objects, ghost sealed: Option<(RetentionCheckpoint, Manifest)>)
      modifies store, archive.client
      ensures RunGuarantee(cfg, version, expected, old(store.View()), old(archive.client.objects), staged, sealed, store.View(), archive.client.objects, r)
      ensures var start := World(old(store.View()), chain, old(archive.client.objects), version, expected, Ended(None));
              var end := Finish(cfg, StartRun(cfg, start, version, expected), now);
              && store.View() == end.tables && archive.client.objects == end.objects && end.pc == Ended(r)
    {
      hide Finish, CheckpointAtEpoch, AcceptedBinding, ValidCheckpoint, ExtendsAnchor, ReplayedCheckpoint, Sealed.RecoverEpoch;
      ghost var w := StartRun(cfg, World(store.View(), chain, archive.client.objects, version, expected, Ended(None)), version, expected);
      if !ValidFence(version) || (cfg.previous.Some? && cfg.previous.value.body.tenantId != cfg.tenantId) {
        EndedIsFinished(cfg, w, now);
        staged, sealed := archive.client.objects, None;
        NothingGrows(staged, cfg.tenantId, Epoch(cfg));
        return None, staged, sealed;
      }
      var stored := FindCheckpoint(Epoch(cfg));
      FinishStep(cfg, w, now);
      w := Advance(cfg, w, now);
      AtEpochIsMember(store.checkpoints, Epoch(cfg));
      r, staged, sealed, w := RunListed(cfg, stored, version, expected, now, w);
      EndedIsFinished(cfg, w, now);
    }

    /**
     What a run may do to any store and any provider: the seal only adds under the prefix; with no
     checkpoint stored nothing else changes unless the sealed epoch was accepted and holds exactly
     the records its checkpoint covers; a stored checkpoint is only disposed of.
     */
    static ghost predicate RunGuarantee(cfg: Config, version: int, expected: ChainState, before: Tables, objects: Derive.Objects,
                                        staged: Derive.Objects, sealed: Option<(RetentionCheckpoint, Manifest)>,
                                        after: Tables, left: Derive.Objects, r: Option<Outcome>)
    {
      && Grown(objects, staged, cfg.tenantId, Epoch(cfg))
      && match sealed
         case Some((c, m)) => Evidence(cfg, staged, c, m) && CropsAndDisposes(cfg, version, expected, before, staged, c, after, left, r)
         case None =>
           || (after == before && left == staged && r.None?)
           || (exists c :: && c in before.checkpoints && c.body.epoch == Epoch(cfg) && c.body.checkpointId == cfg.checkpointId && staged == objects
                           && CropsAndDisposes(cfg, version, expected, before, staged, c, after, left, r))
    }

    /**
     Rows leave the hot store, and `c` is stored, only at the store's own state and fence, where the
     epoch had no checkpoint, and only the very records `c` covers; objects are only removed once `c` is stored with
     an attempt prepared; and an outcome is a stored receipt over an empty prefix.
     */
    static ghost predicate CropsAndDisposes(cfg: Config, version: int, expected: ChainState, before: Tables, staged: Derive.Objects,
                                            c: RetentionCheckpoint, after: Tables, left: Derive.Objects, r: Option<Outcome>)
    {
      && Shrunk(staged, left, c.body.tenantId, c.body.epoch)
      && (|| (after.hot == before.hot && after.checkpoints == before.checkpoints && after.state == before.state && after.ledger == before.ledger)
          || (&& (forall s | s in before.checkpoints :: s.body.epoch != c.body.epoch)
              && expected == before.state && version == before.state.fence
              && RecordsOfCheckpoint(RowsBetween(before.hot, c.body.fromSequence, c.body.throughSequence), c.body)
              && after.checkpoints == before.checkpoints + [c]
              && after.hot == RowsOutside(before.hot, c.body.fromSequence, c.body.throughSequence)
              && after.state == before.state.(minimumRetained := c.body.throughSequence + 1, latestCheckpointHash := Some(c.hash))))
      && (left != staged ==> c in after.checkpoints && Attempted(cfg, after, version, c.hash))
      && (after.receipts == before.receipts || (r.Some? && after.receipts == before.receipts[c.hash := r.value.disposition]))
      && (r.Some? ==> r.value.checkpoint == c && Settled(cfg, after, left, r.value))
    }

    /** Whatever the store and the provider hold: the rows a run crops are the ones the sealed epoch was accepted with. */
    static lemma CroppedWereVerified(cfg: Config, version: int, expected: ChainState, before: Tables, objects: Derive.Objects,
                                     staged: Derive.Objects, sealed: Option<(RetentionCheckpoint, Manifest)>,
                                     after: Tables, left: Derive.Objects, r: Option<Outcome>)
      requires RunGuarantee(cfg, version, expected, before, objects, staged, sealed, after, left, r)
      requires after.hot != before.hot || after.checkpoints != before.checkpoints
      ensures && sealed.Some?
              && var (c, m) := sealed.value;
                 && Sealed.VerifyEpoch(staged, m) == Some(RowsBetween(before.hot, c.body.fromSequence, c.body.throughSequence))
                 && after.hot == RowsOutside(before.hot, c.body.fromSequence, c.body.throughSequence)
                 && after.checkpoints == before.checkpoints + [c]
    {
      hide Sealed.VerifyEpoch, Grown, Shrunk, Settled, Attempted, RowsBetween, RowsOutside, RecordsOfCheckpoint;
      var c := sealed.value.0.body;
      OneRangeACheckpoint(cfg.records, RowsBetween(before.hot, c.fromSequence, c.throughSequence), c);
    }

    static lemma OneRangeACheckpoint(a: seq<AuditRecord>, b: seq<AuditRecord>, c: CheckpointBody)
      requires RecordsOfCheckpoint(a, c) && RecordsOfCheckpoint(b, c)
      ensures a == b
    {
      hide Chained;
      if a != [] {
        ChainDetermined(a, b, c.tenantId, c.fromSequence, c.fromPreviousHash);
      }
    }

    static lemma EndedIsFinished(cfg: Config, w: World, now: int)
      requires w.pc.Ended?
      ensures Finish(cfg, w, now) == w
    {
    }

    method RunListed(cfg: Config, stored: Option<RetentionCheckpoint>, version: int, expected: ChainState, now: int, ghost w: World)
      returns (r: Option<Outcome>, ghost objects: Derive.Objects, ghost sealed: Option<(RetentionCheckpoint, Manifest)>, ghost w': World)
      requires At(w) && w.pc == ListingDispositions(stored) && w.version == version && w.expected == expected
      requires match stored
               case Some(c) => c in store.checkpoints && c.body.epoch == Epoch(cfg)
               case None => forall c | c in store.checkpoints :: c.body.epoch != Epoch(cfg)
      modifies store, archive.client
      ensures RunGuarantee(cfg, version, expected, old(store.View()), old(archive.client.objects), objects, sealed, store.View(), archive.client.objects, r)
      ensures At(w') && Finish(cfg, w, now) == Finish(cfg, w', now) && w'.pc == Ended(r)
    {
      hide Finish, ValidCheckpoint, Evidence, Grown, CropsAndDisposes;
      objects, sealed := archive.client.objects, None;
      NothingGrows(objects, cfg.tenantId, Epoch(cfg));
      if stored.Some? {
        r, w' := RunStored(cfg, stored.value, version, expected, now, w);
        return;
      }
      var result;
      result, w' := SealAndVerify(cfg, now, w);
      objects := archive.client.objects;
      if result.None? { return None, objects, sealed, w'; }
      sealed := result;
      EvidenceIsOfEpoch(cfg, objects, result.value.0, result.value.1);
      r, w' := CropAndDispose(cfg, result.value.0, Some(result.value.1), version, expected, now, w');
    }

    /** Replays an epoch whose checkpoint is stored. */
    method RunStored(cfg: Config, c: RetentionCheckpoint, version: int, expected: ChainState, now: int, ghost w: World)
      returns (r: Option<Outcome>, ghost w': World)
      requires At(w) && w.pc == ListingDispositions(Some(c)) && w.version == version && w.expected == expected
      requires c in store.checkpoints && c.body.epoch == Epoch(cfg)
      modifies store, archive.client
      ensures || (store.View() == old(store.View()) && archive.client.objects == old(archive.client.objects) && r.None?)
              || (&& c.body.checkpointId == cfg.checkpointId
                  && CropsAndDisposes(cfg, version, expected, old(store.View()), old(archive.client.objects), c, store.View(), archive.client.objects, r))
      ensures At(w') && Finish(cfg, w, now) == Finish(cfg, w', now) && w'.pc == Ended(r)
    {
      hide Finish, ValidDisposition, ValidCheckpoint, Sealed.RecoverEpoch, Shrunk, PrefixEmpty, ReceiptFits,
           ProvesCheckpoint, RowsOutside;
      FinishStep(cfg, w, now);
      w' := Advance(cfg, w, now);
      if !ValidCheckpoint(c) || !ExtendsAnchor(cfg, c.body) || c != ReplayedCheckpoint(cfg, c) { return None, w'; }
      var accepted := FindDisposition(c.hash);
      var recovered := archive.RecoverEpoch(c);
      FinishStep(cfg, w', now);
      w' := Advance(cfg, w', now);
      if recovered.Refused? { return None, w'; }
      if accepted.Some? {
        if !AcceptedBinding(cfg, c, accepted.value) { return None, w'; }
        ValidReceiptFits(accepted.value, c);
        NothingGrows(archive.client.objects, c.body.tenantId, c.body.epoch);
        r, w' := ReplayReceipt(cfg, c, accepted.value, now, w');
        return;
      }
      var staged := if recovered.Found? then Some(recovered.manifest) else None;
      if staged.Some? { FoundIsOfCheckpoint(archive.client.objects, c.body, staged.value); }
      r, w' := CropAndDispose(cfg, c, staged, version, expected, now, w');
    }

    /** Both fences. */
    method CropAndDispose(cfg: Config, c: RetentionCheckpoint, staged: Option<Manifest>, version: int, expected: ChainState, now: int,
                          ghost w: World)
      returns (r: Option<Outcome>, ghost w': World)
      requires At(w) && w.pc == CropCheck(c, staged) && w.version == version && w.expected == expected
      requires ValidCheckpoint(c) && c.body.tenantId == cfg.tenantId && c.body.epoch == Epoch(cfg)
      requires staged.Some? ==> staged.value.tenantId == c.body.tenantId && staged.value.epoch == c.body.epoch
      modifies store, archive.client
      ensures CropsAndDisposes(cfg, version, expected, old(store.View()), old(archive.client.objects), c, store.View(), archive.client.objects, r)
      ensures At(w') && Finish(cfg, w, now) == Finish(cfg, w', now) && w'.pc == Ended(r)
    {
      hide Finish, ValidCheckpoint, Shrunk, PrefixEmpty, ReceiptFits, RowsOutside;
      NothingGrows(archive.client.objects, c.body.tenantId, c.body.epoch);
      var ok;
      ok, w' := CropUnderFence(cfg, c, staged, version, expected, now, w);
      if !ok { return None, w'; }
      r, w' := DisposeUnderFence(cfg, c, staged, version, now, w');
    }

    static lemma FoundIsOfCheckpoint(objects: Derive.Objects, c: CheckpointBody, m: Manifest)
      requires ProvesCheckpoint(objects, c, m)
      ensures m.tenantId == c.tenantId && m.epoch == c.epoch
    {
    }

    static lemma EvidenceIsOfEpoch(cfg: Config, objects: Derive.Objects, c: RetentionCheckpoint, m: Manifest)
      requires Evidence(cfg, objects, c, m)
      ensures m.tenantId == c.body.tenantId == cfg.tenantId && m.epoch == c.body.epoch == Epoch(cfg)
    {
    }
  }
}
