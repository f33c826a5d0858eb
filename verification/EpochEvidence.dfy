/**
 What an accepted or recovered epoch proves about the provider that holds it: which objects are
 there, which records they decode to, and that one checkpoint has one manifest.
 */
module EpochEvidence {
  import opened Wrappers
  import opened Protocol
  import opened AuditTables
  import opened Staging
  import opened SealedEpochs

  /** The records a checkpoint covers: from its anchor to its boundary, as many as it counts. */
  predicate RecordsOfCheckpoint(records: seq<AuditRecord>, c: CheckpointBody) {
    && Chained(records, c.tenantId, c.fromSequence, c.fromPreviousHash)
    && |records| == c.recordCount == c.throughSequence - c.fromSequence + 1
    && EndHash(records, c.fromPreviousHash) == Some(c.throughHash)
  }

  /** Every accepted epoch of the tenant under this archive root decodes to these records. */
  ghost predicate RootDecides(tenantId: string, root: Digest, records: seq<AuditRecord>) {
    forall objects: Objects, m: Manifest |
      VerifyEpoch(objects, m).Some? && m.tenantId == tenantId && m.archiveRootHash == root ::
      VerifyEpoch(objects, m) == Some(records)
  }

  lemma AcceptedRootDecides(objects: Objects, m: Manifest)
    requires VerifyEpoch(objects, m).Some?
    ensures RootDecides(m.tenantId, m.archiveRootHash, VerifyEpoch(objects, m).value)
  {
    hide VerifyEpoch;
    forall objects': Objects, m': Manifest |
      VerifyEpoch(objects', m').Some? && m'.tenantId == m.tenantId && m'.archiveRootHash == m.archiveRootHash
      ensures VerifyEpoch(objects', m') == Some(VerifyEpoch(objects, m).value)
    {
      ArchiveRootBindsRecords(objects, m, objects', m');
    }
  }

  // ---------- What verification sees ----------

  /** An accepted epoch is all there is under its prefix: its segments, its exact manifest, and nothing else. */
  lemma AcceptedEpochIsAllThereIs(objects: Objects, m: Manifest)
    requires VerifyEpoch(objects, m).Some?
    ensures forall k | k in objects && InEpoch(k, m.tenantId, m.epoch) ::
              k == m.manifestKey || exists i :: 0 <= i < |m.segments| && k == m.segments[i].objectKey
    ensures m.manifestKey in objects && objects[m.manifestKey] == [CanonicalManifest(m)]
    ensures forall i | 0 <= i < |m.segments| :: m.segments[i].objectKey in objects
  {
    hide ReplaySegments, ValidManifest, EndHash;
    var listed, keys := EpochView(objects, m.tenantId, m.epoch).Keys, ExpectedKeys(m);
    forall k | k in objects && InEpoch(k, m.tenantId, m.epoch)
      ensures k == m.manifestKey || exists i :: 0 <= i < |m.segments| && k == m.segments[i].objectKey
    {
      assert k in multiset(listed);
      assert k in multiset(keys) && k in keys;
      var i :| 0 <= i < |keys| && keys[i] == k;
    }
    forall i | 0 <= i < |m.segments| ensures m.segments[i].objectKey in objects {
      assert keys[i] in keys && keys[i] in multiset(keys);
      assert keys[i] in multiset(listed);
    }
  }

  /** An accepted epoch has its manifest's range: where it starts, where it ends, how many records, which root. */
  lemma AcceptedEpochHasItsRange(objects: Objects, m: Manifest)
    requires VerifyEpoch(objects, m).Some?
    ensures var records := VerifyEpoch(objects, m).value;
            && Chained(records, m.tenantId, m.fromSequence, m.fromPreviousHash)
            && |records| == m.recordCount == m.throughSequence - m.fromSequence + 1
            && EndHash(records, m.fromPreviousHash) == Some(m.throughHash)
            && m.archiveRootHash == ArchiveRootDigest(Descriptors(m.segments))
  {
    hide ReplaySegments, Descriptors, Chained, SegmentsContinue, EpochView, ExpectedKeys;
    AcceptedEpochIsOneRange(objects, m);
  }

  /** A provider with a stray object under the prefix is never accepted. */
  lemma StrayObjectIsRefused(objects: Objects, m: Manifest, stray: ObjectKey)
    requires stray in objects && InEpoch(stray, m.tenantId, m.epoch)
    requires stray != m.manifestKey && forall i | 0 <= i < |m.segments| :: stray != m.segments[i].objectKey
    ensures VerifyEpoch(objects, m).None?
  {
    hide VerifyEpoch;
    if VerifyEpoch(objects, m).Some? {
      AcceptedEpochIsAllThereIs(objects, m);
    }
  }

  // ---------- What a seal may do ----------

  /** Nothing was overwritten or removed, and what is new lies under the prefix. */
  ghost predicate Grown(before: Objects, after: Objects, tenantId: string, epoch: int) {
    && (forall k | k in before :: k in after && after[k] == before[k])
    && (forall k | k in after :: k in before || InEpoch(k, tenantId, epoch))
  }

  lemma {:induction false} SealOnlyAdds(objects: Objects, plan: seq<Put>, tenantId: string, epoch: int)
    requires forall i | 0 <= i < |plan| :: InEpoch(plan[i].0, tenantId, epoch)
    ensures Grown(objects, SealFrom(objects, plan).0, tenantId, epoch)
    decreases |plan|
  {
    if plan != [] && PutExact(objects, plan[0]).Some? {
      SealOnlyAdds(PutExact(objects, plan[0]).value, plan[1..], tenantId, epoch);
    }
  }

  /** Whatever a provider serves, an accepted epoch under the root a seal derives holds the seal's records. */
  lemma InputRootBindsRecords(objects: Objects, m: Manifest, input: SealInput)
    requires DeriveEpoch(input).Some? && m.tenantId == input.tenantId
    requires VerifyEpoch(objects, m).Some? && m.archiveRootHash == BuildManifest(input).archiveRootHash
    ensures VerifyEpoch(objects, m) == Some(input.records)
  {
    hide VerifyEpoch, ImageOf, SealPlan, ValidSealInput, ValidManifest, Batches, SegmentsOf, Descriptors;
    var image := ImageOf(SealPlan(input));
    ImageKeys(input);
    assert EpochView(image, input.tenantId, input.epoch) == image;
    SealedImageVerifies(image, input);
    ArchiveRootBindsRecords(objects, m, image, BuildManifest(input));
  }

  // ---------- What a recovered manifest proves ----------

  /** The segments of a valid manifest are determined by their descriptors. */
  lemma {:induction false} SegmentsFromDescriptors(a: seq<Segment>, b: seq<Segment>, tenantId: string, epoch: int,
                                                   sequence: int, previous: Option<Digest>)
    requires Descriptors(a) == Descriptors(b)
    requires SegmentsContinue(a, tenantId, epoch, sequence, previous) && SegmentsContinue(b, tenantId, epoch, sequence, previous)
    ensures a == b
    decreases |a|
  {
    DescriptorCount(a);
    DescriptorCount(b);
    if a != [] {
      DescriptorsTail(a, b);
      SegmentsFromDescriptors(a[1..], b[1..], tenantId, epoch, a[0].descriptor.toSequence + 1, Some(a[0].descriptor.lastHash));
      assert a == [a[0]] + a[1..] && b == [b[0]] + b[1..];
    }
  }

  /** One checkpoint has one manifest: whatever two providers hold, what they recover for it is the same. */
  lemma RecoveredManifestsAgree(objects1: Objects, objects2: Objects, c: RetentionCheckpoint)
    requires RecoverEpoch(objects1, c).Found? && RecoverEpoch(objects2, c).Found?
    ensures var m1, m2 := RecoverEpoch(objects1, c).manifest, RecoverEpoch(objects2, c).manifest;
            && m1 == m2
            && ArchiveRootDigest(Descriptors(m1.segments)) == c.body.archiveRootHash
            && m1.previousCheckpointHash == c.body.previousCheckpointHash
  {
    hide Descriptors, SegmentsContinue, ValidCheckpoint;
    var m1, m2 := RecoverEpoch(objects1, c).manifest, RecoverEpoch(objects2, c).manifest;
    assert ArchiveRootDigest(Descriptors(m1.segments)) == ArchiveRootDigest(Descriptors(m2.segments));
    SegmentsFromDescriptors(m1.segments, m2.segments, m1.tenantId, m1.epoch, m1.fromSequence, m1.fromPreviousHash);
  }

  /** What a manifest recovered for a checkpoint proves, and what its epoch holds when it is accepted. */
  ghost predicate ProvesCheckpoint(objects: Objects, c: CheckpointBody, m: Manifest) {
    && ManifestKey(c.tenantId, c.epoch) in objects && objects[ManifestKey(c.tenantId, c.epoch)] == [CanonicalManifest(m)]
    && m.tenantId == c.tenantId && m.epoch == c.epoch && m.previousCheckpointHash == c.previousCheckpointHash
    && ArchiveRootDigest(Descriptors(m.segments)) == c.archiveRootHash
    && match VerifyEpoch(objects, m)
       case None => true
       case Some(records) => RecordsOfCheckpoint(records, c) && RootDecides(c.tenantId, c.archiveRootHash, records)
  }

  lemma BoundManifestProves(objects: Objects, c: CheckpointBody, m: Manifest)
    requires ManifestKey(c.tenantId, c.epoch) in objects && objects[ManifestKey(c.tenantId, c.epoch)] == [CanonicalManifest(m)]
    requires ValidManifest(m) && BindsCheckpoint(m, c)
    ensures ProvesCheckpoint(objects, c, m)
  {
    hide VerifyEpoch, Descriptors, SegmentsContinue, Chained, EndHash, RootDecides;
    if VerifyEpoch(objects, m).Some? {
      AcceptedEpochHasItsRange(objects, m);
      AcceptedRootDecides(objects, m);
    }
  }

  // ---------- Deletion and absence ----------

  /** `after` is `before` without the given keys. */
  ghost predicate Without(before: Objects, after: Objects, keys: seq<ObjectKey>) {
    && (forall k :: k in after <==> k in before && k !in keys)
    && (forall k | k in after :: after[k] == before[k])
  }

  lemma {:induction false} DeletingRemovesExactly(objects: Objects, keys: seq<ObjectKey>)
    ensures Without(objects, DeleteKeys(objects, keys), keys)
    decreases |keys|
  {
    if keys != [] {
      DeletingRemovesExactly(objects - {keys[0]}, keys[1..]);
      assert forall k :: k in keys <==> k == keys[0] || k in keys[1..];
    }
  }

  /** The keys of a valid manifest lie under its prefix. */
  lemma {:induction false} SegmentKeysInEpoch(segments: seq<Segment>, tenantId: string, epoch: int, sequence: int, previous: Option<Digest>)
    requires SegmentsContinue(segments, tenantId, epoch, sequence, previous)
    ensures forall i | 0 <= i < |segments| :: InEpoch(segments[i].objectKey, tenantId, epoch)
    decreases |segments|
  {
    if segments != [] {
      SegmentKeysInEpoch(segments[1..], tenantId, epoch, segments[0].descriptor.toSequence + 1, Some(segments[0].descriptor.lastHash));
      assert forall i | 1 <= i < |segments| :: segments[i] == segments[1..][i - 1];
    }
  }

  lemma ManifestKeysInEpoch(m: Manifest)
    requires ValidManifest(m)
    ensures forall k | k in ExpectedKeys(m) :: InEpoch(k, m.tenantId, m.epoch)
  {
    hide Descriptors;
    SegmentKeysInEpoch(m.segments, m.tenantId, m.epoch, m.fromSequence, m.fromPreviousHash);
  }

  /** No object is left under the prefix. */
  ghost predicate PrefixEmpty(objects: Objects, tenantId: string, epoch: int) {
    forall k | k in objects :: !InEpoch(k, tenantId, epoch)
  }

  lemma EmptyViewIsEmptyPrefix(objects: Objects, tenantId: string, epoch: int)
    ensures EpochView(objects, tenantId, epoch) == map[] <==> PrefixEmpty(objects, tenantId, epoch)
  {
    if EpochView(objects, tenantId, epoch) == map[] {
      forall k | k in objects ensures !InEpoch(k, tenantId, epoch) {
        assert k !in EpochView(objects, tenantId, epoch);
      }
    }
  }
}
