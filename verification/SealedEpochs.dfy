/**
 Sealing a derived epoch into a provider and verifying what the provider holds: a seal can
 restart from any part of itself, what it leaves verifies, and what verifies is one linked
 range that its archive root determines.
 */
module SealedEpochs {
  import opened Wrappers
  import opened Protocol
  import opened AuditTables
  import opened Staging

  type Put = (ObjectKey, Bytes)

  predicate InEpoch(k: ObjectKey, tenantId: string, epoch: int) {
    k.tenantId == tenantId && k.epoch == epoch
  }

  /** The objects under the prefix of one epoch. */
  function EpochView(objects: Objects, tenantId: string, epoch: int): Objects {
    map k | k in objects && InEpoch(k, tenantId, epoch) :: objects[k]
  }

  // ---------- Sealing ----------

  function SegmentPuts(tenantId: string, epoch: int, batches: seq<seq<AuditRecord>>): seq<Put>
    requires AllNonempty(batches)
  {
    if batches == [] then []
    else
      assert batches[0] != [];
      [(SegmentOf(tenantId, epoch, batches[0]).objectKey, EncodeNdjson(batches[0]))]
      + SegmentPuts(tenantId, epoch, batches[1..])
  }

  /** The writes of a seal in order: every segment, and the manifest last. */
  function SealPlan(input: SealInput): seq<Put>
    requires ValidSealInput(input)
  {
    BatchesCover(input.records, input.segmentRecordCount);
    var m := BuildManifest(input);
    SegmentPuts(input.tenantId, input.epoch, Batches(input.records, input.segmentRecordCount))
    + [(m.manifestKey, [CanonicalManifest(m)])]
  }

  /** What a sequence of writes leaves in an empty provider. */
  function ImageOf(plan: seq<Put>): Objects {
    if plan == [] then map[] else ImageOf(plan[..|plan| - 1])[plan[|plan| - 1].0 := plan[|plan| - 1].1]
  }

  /** Writes only when the key is absent; a different existing body is a conflict. */
  function PutExact(objects: Objects, put: Put): Option<Objects> {
    if put.0 in objects then (if objects[put.0] == put.1 then Some(objects) else None)
    else Some(objects[put.0 := put.1])
  }

  function SealFrom(objects: Objects, plan: seq<Put>): (Objects, bool)
    decreases |plan|
  {
    if plan == [] then (objects, true)
    else match PutExact(objects, plan[0])
      case None => (objects, false)
      case Some(next) => SealFrom(next, plan[1..])
  }

  predicate DistinctKeys(plan: seq<Put>) {
    forall i, j | 0 <= i < j < |plan| :: plan[i].0 != plan[j].0
  }

  /** Whatever `objects` already holds of the image, it holds with the image's bytes. */
  predicate Compatible(objects: Objects, image: Objects) {
    forall k | k in objects && k in image :: objects[k] == image[k]
  }

  lemma {:induction false} ImageAnswer(plan: seq<Put>)
    requires DistinctKeys(plan)
    ensures forall i | 0 <= i < |plan| :: plan[i].0 in ImageOf(plan) && ImageOf(plan)[plan[i].0] == plan[i].1
    ensures forall k | k in ImageOf(plan) :: exists i :: 0 <= i < |plan| && plan[i].0 == k
    decreases |plan|
  {
    if plan != [] {
      var front := plan[..|plan| - 1];
      ImageAnswer(front);
      assert forall i | 0 <= i < |front| :: front[i] == plan[i];
      forall k | k in ImageOf(plan) ensures exists i :: 0 <= i < |plan| && plan[i].0 == k {
        if k == plan[|plan| - 1].0 {
        } else {
          var i :| 0 <= i < |front| && front[i].0 == k;
          assert plan[i].0 == k;
        }
      }
    }
  }

  /** The image of a plan is its first write and the image of the rest. */
  lemma ImageHeadTail(plan: seq<Put>)
    requires DistinctKeys(plan) && plan != []
    ensures DistinctKeys(plan[1..])
    ensures plan[0].0 !in ImageOf(plan[1..])
    ensures ImageOf(plan) == map[plan[0].0 := plan[0].1] + ImageOf(plan[1..])
  {
    hide ImageOf;
    var rest := plan[1..];
    ImageAnswer(plan);
    ImageAnswer(rest);
    forall k | k in ImageOf(rest) ensures k in ImageOf(plan) && ImageOf(rest)[k] == ImageOf(plan)[k] && k != plan[0].0 {
      var i :| 0 <= i < |rest| && rest[i].0 == k;
      assert rest[i] == plan[i + 1];
    }
    forall k | k in ImageOf(plan) ensures k == plan[0].0 || k in ImageOf(rest) {
      var i :| 0 <= i < |plan| && plan[i].0 == k;
      assert i == 0 || rest[i - 1] == plan[i];
    }
  }

  /** From any compatible provider a seal finishes and adds exactly what was missing. */
  lemma {:induction false} SealCompletes(objects: Objects, plan: seq<Put>)
    requires DistinctKeys(plan) && Compatible(objects, ImageOf(plan))
    ensures SealFrom(objects, plan) == (objects + ImageOf(plan), true)
    decreases |plan|
  {
    hide DistinctKeys;
    if plan == [] {
      assert objects + map[] == objects;
    } else {
      ImageHeadTail(plan);
      var next := PutExact(objects, plan[0]).value;
      SealCompletes(next, plan[1..]);
      assert next + ImageOf(plan[1..]) == objects + ImageOf(plan);
    }
  }

  /** Every crash point of a seal leaves a provider that the same seal can finish. */
  lemma CrashPrefixCompatible(objects: Objects, plan: seq<Put>, k: nat)
    requires DistinctKeys(plan) && k <= |plan| && Compatible(objects, ImageOf(plan))
    ensures Compatible(SealFrom(objects, plan[..k]).0, ImageOf(plan))
  {
    var part := plan[..k];
    ImageAnswer(plan);
    ImageAnswer(part);
    forall key | key in ImageOf(part) ensures key in ImageOf(plan) && ImageOf(part)[key] == ImageOf(plan)[key] {
      var i :| 0 <= i < |part| && part[i].0 == key;
      assert part[i] == plan[i];
    }
    SealCompletes(objects, part);
  }

  // ---------- Verifying ----------

  predicate Describes(d: SegmentDescriptor, records: seq<AuditRecord>)
    requires records != []
  {
    && |records| == d.recordCount
    && records[0].body.sequence == d.fromSequence
    && records[|records| - 1].body.sequence == d.toSequence
    && records[0].body.previousHash == d.firstPreviousHash
    && records[|records| - 1].hash == d.lastHash
  }

  /** Decodes and checks one stored segment behind `sequence` and `previousHash`. */
  function ReplaySegment(objects: Objects, s: Segment, tenantId: string, sequence: int, previousHash: Option<Digest>)
    : Option<seq<AuditRecord>>
  {
    if s.objectKey !in objects || ContentDigest(objects[s.objectKey]) != s.descriptor.contentSha256 then None
    else match ParseExactNdjson(objects[s.objectKey], tenantId)
      case None => None
      case Some(records) =>
        if records != [] && Describes(s.descriptor, records) && Chained(records, tenantId, sequence + 1, previousHash)
        then Some(records) else None
  }

  function ReplaySegments(objects: Objects, segments: seq<Segment>, tenantId: string, sequence: int, previousHash: Option<Digest>)
    : Option<seq<AuditRecord>>
    decreases |segments|
  {
    if segments == [] then Some([])
    else match ReplaySegment(objects, segments[0], tenantId, sequence, previousHash)
      case None => None
      case Some(records) =>
        match ReplaySegments(objects, segments[1..], tenantId, sequence + |records|, EndHash(records, previousHash))
        case None => None
        case Some(rest) => Some(records + rest)
  }

  function ExpectedKeys(m: Manifest): seq<ObjectKey> {
    seq(|m.segments|, i requires 0 <= i < |m.segments| => m.segments[i].objectKey) + [m.manifestKey]
  }

  /** The records the provider holds for a manifest, when every check of the verifier passes. */
  function VerifyEpoch(objects: Objects, m: Manifest): Option<seq<AuditRecord>> {
    if !ValidManifest(m) then None
    else if multiset(EpochView(objects, m.tenantId, m.epoch).Keys) != multiset(ExpectedKeys(m)) then None
    else if m.manifestKey !in objects || objects[m.manifestKey] != [CanonicalManifest(m)] then None
    else match ReplaySegments(objects, m.segments, m.tenantId, m.fromSequence - 1, m.fromPreviousHash)
      case None => None
      case Some(records) =>
        if && m.fromSequence - 1 + |records| == m.throughSequence
           && EndHash(records, m.fromPreviousHash) == Some(m.throughHash)
           && |records| == m.recordCount
        then Some(records) else None
  }

  lemma ReplayStep(objects: Objects, segments: seq<Segment>, tenantId: string, sequence: int, previousHash: Option<Digest>,
                   head: seq<AuditRecord>, rest: seq<AuditRecord>)
    requires segments != [] && ReplaySegment(objects, segments[0], tenantId, sequence, previousHash) == Some(head)
    requires ReplaySegments(objects, segments[1..], tenantId, sequence + |head|, EndHash(head, previousHash)) == Some(rest)
    ensures ReplaySegments(objects, segments, tenantId, sequence, previousHash) == Some(head + rest)
  {
    hide ReplaySegment, EndHash;
  }

  lemma {:induction false} ReplayIsChained(objects: Objects, segments: seq<Segment>, tenantId: string, sequence: int,
                                           previousHash: Option<Digest>)
    requires ReplaySegments(objects, segments, tenantId, sequence, previousHash).Some?
    ensures Chained(ReplaySegments(objects, segments, tenantId, sequence, previousHash).value, tenantId, sequence + 1, previousHash)
    decreases |segments|
  {
    if segments != [] {
      var head := ReplaySegment(objects, segments[0], tenantId, sequence, previousHash).value;
      assert Chained(head, tenantId, sequence + 1, previousHash);
      var link := EndHash(head, previousHash);
      ReplayIsChained(objects, segments[1..], tenantId, sequence + |head|, link);
      var tail := ReplaySegments(objects, segments[1..], tenantId, sequence + |head|, link).value;
      assert (head + tail)[..|head|] == head && (head + tail)[|head|..] == tail;
      ChainedSplit(head + tail, tenantId, sequence + 1, previousHash, |head|);
    }
  }

  /** An accepted epoch is one linked range from its anchor to its boundary hash. */
  lemma AcceptedEpochIsOneRange(objects: Objects, m: Manifest)
    requires VerifyEpoch(objects, m).Some?
    ensures var records := VerifyEpoch(objects, m).value;
            && records != []
            && Chained(records, m.tenantId, m.fromSequence, m.fromPreviousHash)
            && records[|records| - 1].hash == m.throughHash
            && |records| == m.throughSequence - m.fromSequence + 1
  {
    hide ReplaySegments, SegmentsContinue, Descriptors, Chained;
    ReplayIsChained(objects, m.segments, m.tenantId, m.fromSequence - 1, m.fromPreviousHash);
  }

  // ---------- What the archive root determines ----------

  predicate AllBatchesHashed(batches: seq<seq<AuditRecord>>, tenantId: string) {
    forall i | 0 <= i < |batches| :: batches[i] != [] && AllHashed(batches[i], tenantId)
  }

  lemma DescriptorsTail(a: seq<Segment>, b: seq<Segment>)
    requires a != [] && b != [] && Descriptors(a) == Descriptors(b)
    ensures Descriptors(a[1..]) == Descriptors(b[1..]) && a[0].descriptor == b[0].descriptor
  {
    assert Descriptors(a)[0] == a[0].descriptor && Descriptors(b)[0] == b[0].descriptor;
    assert |Descriptors(a)| == |a| && |Descriptors(b)| == |b|;
    assert forall i | 0 <= i < |a| - 1 :: Descriptors(a[1..])[i] == Descriptors(a)[i + 1];
    assert forall i | 0 <= i < |b| - 1 :: Descriptors(b[1..])[i] == Descriptors(b)[i + 1];
  }

  lemma {:induction false} BatchesHashed(batches: seq<seq<AuditRecord>>, tenantId: string)
    requires AllNonempty(batches) && AllHashed(Flatten(batches), tenantId)
    ensures AllBatchesHashed(batches, tenantId)
    decreases |batches|
  {
    if batches != [] {
      var all, head, tail := Flatten(batches), batches[0], Flatten(batches[1..]);
      assert head != [];
      assert all == head + tail;
      forall i | 0 <= i < |head| ensures HashedRecord(head[i], tenantId) { assert HashedRecord(all[i], tenantId); }
      forall i | 0 <= i < |tail| ensures HashedRecord(tail[i], tenantId) { assert HashedRecord(all[|head| + i], tenantId); }
      BatchesHashed(batches[1..], tenantId);
      assert forall i | 1 <= i < |batches| :: batches[i] == batches[1..][i - 1];
    }
  }

  lemma ChainedIsHashed(records: seq<AuditRecord>, tenantId: string, start: int, previous: Option<Digest>)
    requires Chained(records, tenantId, start, previous)
    ensures AllHashed(records, tenantId)
  {
    forall i | 0 <= i < |records| ensures HashedRecord(records[i], tenantId) {
      assert ChainedAt(records, i, tenantId, start, previous);
    }
  }

  lemma InputBatches(input: SealInput)
    requires ValidSealInput(input)
    ensures var batches := Batches(input.records, input.segmentRecordCount);
            AllNonempty(batches) && AllBatchesHashed(batches, input.tenantId) && Flatten(batches) == input.records && batches != []
  {
    hide Chained, ValidCheckpoint;
    ChainedIsHashed(input.records, input.tenantId, Anchor(input.previous).0 + 1, Anchor(input.previous).1);
    BatchesCover(input.records, input.segmentRecordCount);
    BatchesHashed(Batches(input.records, input.segmentRecordCount), input.tenantId);
  }

  /** Equal contents under equal descriptors replay to equal records, wherever the providers keep them. */
  lemma {:induction false} SameReplay(objects1: Objects, segments1: seq<Segment>, sequence1: int, previous1: Option<Digest>,
                                      objects2: Objects, segments2: seq<Segment>, sequence2: int, previous2: Option<Digest>, tenantId: string)
    requires Descriptors(segments1) == Descriptors(segments2)
    requires ReplaySegments(objects1, segments1, tenantId, sequence1, previous1).Some?
    requires ReplaySegments(objects2, segments2, tenantId, sequence2, previous2).Some?
    ensures ReplaySegments(objects1, segments1, tenantId, sequence1, previous1)
         == ReplaySegments(objects2, segments2, tenantId, sequence2, previous2)
    decreases |segments1|
  {
    hide Descriptors, ReplaySegment, EndHash;
    assert |segments1| == |Descriptors(segments1)| == |Descriptors(segments2)| == |segments2| by {
      DescriptorCount(segments1);
      DescriptorCount(segments2);
    }
    if segments1 != [] {
      DescriptorsTail(segments1, segments2);
      var head := ReplaySegment(objects1, segments1[0], tenantId, sequence1, previous1).value;
      SameSegment(objects1, segments1[0], sequence1, previous1, objects2, segments2[0], sequence2, previous2, tenantId);
      SameReplay(objects1, segments1[1..], sequence1 + |head|, EndHash(head, previous1),
                 objects2, segments2[1..], sequence2 + |head|, EndHash(head, previous2), tenantId);
    }
  }

  lemma DescriptorCount(segments: seq<Segment>)
    ensures |Descriptors(segments)| == |segments|
  {
  }

  lemma SameSegment(objects1: Objects, s1: Segment, sequence1: int, previous1: Option<Digest>,
                    objects2: Objects, s2: Segment, sequence2: int, previous2: Option<Digest>, tenantId: string)
    requires s1.descriptor == s2.descriptor
    requires ReplaySegment(objects1, s1, tenantId, sequence1, previous1).Some?
    requires ReplaySegment(objects2, s2, tenantId, sequence2, previous2).Some?
    ensures ReplaySegment(objects1, s1, tenantId, sequence1, previous1) == ReplaySegment(objects2, s2, tenantId, sequence2, previous2)
  {
    hide ParseExactNdjson, Describes, Chained;
  }

  /** Any two accepted epochs of a tenant under one archive root are the same records. */
  lemma ArchiveRootBindsRecords(objects1: Objects, m1: Manifest, objects2: Objects, m2: Manifest)
    requires VerifyEpoch(objects1, m1).Some? && VerifyEpoch(objects2, m2).Some?
    requires m1.tenantId == m2.tenantId && m1.archiveRootHash == m2.archiveRootHash
    ensures VerifyEpoch(objects1, m1) == VerifyEpoch(objects2, m2)
  {
    hide ReplaySegments, SegmentsContinue, ExpectedKeys, Descriptors, EpochView;
    assert ArchiveRootDigest(Descriptors(m1.segments)) == ArchiveRootDigest(Descriptors(m2.segments));
    SameReplay(objects1, m1.segments, m1.fromSequence - 1, m1.fromPreviousHash,
               objects2, m2.segments, m2.fromSequence - 1, m2.fromPreviousHash, m1.tenantId);
  }

  // ---------- A completed seal is accepted ----------

  /** The provider holds the encoding of every batch under its segment's key. */
  predicate HoldsBatches(objects: Objects, tenantId: string, epoch: int, batches: seq<seq<AuditRecord>>)
    requires AllNonempty(batches)
  {
    forall i | 0 <= i < |batches| ::
      var key := SegmentOf(tenantId, epoch, batches[i]).objectKey;
      key in objects && objects[key] == EncodeNdjson(batches[i])
  }

  lemma ReplayOfBatch(objects: Objects, tenantId: string, epoch: int, batch: seq<AuditRecord>, sequence: int, previousHash: Option<Digest>)
    requires batch != [] && AllHashed(batch, tenantId) && Chained(batch, tenantId, sequence + 1, previousHash)
    requires var key := SegmentOf(tenantId, epoch, batch).objectKey; key in objects && objects[key] == EncodeNdjson(batch)
    ensures ReplaySegment(objects, SegmentOf(tenantId, epoch, batch), tenantId, sequence, previousHash) == Some(batch)
  {
    hide EncodeNdjson, ParseExactNdjson, Chained, AllHashed;
    NdjsonRoundTrip(batch, tenantId);
  }

  /** `HoldsBatches`, batch by batch. */
  predicate Holds(objects: Objects, tenantId: string, epoch: int, batches: seq<seq<AuditRecord>>)
    decreases |batches|
  {
    batches == []
    || (&& batches[0] != [] && AllHashed(batches[0], tenantId)
        && (var key := SegmentOf(tenantId, epoch, batches[0]).objectKey;
            key in objects && objects[key] == EncodeNdjson(batches[0]))
        && Holds(objects, tenantId, epoch, batches[1..]))
  }

  lemma {:induction false} HoldsEach(objects: Objects, tenantId: string, epoch: int, batches: seq<seq<AuditRecord>>)
    requires AllNonempty(batches) && AllBatchesHashed(batches, tenantId) && HoldsBatches(objects, tenantId, epoch, batches)
    ensures Holds(objects, tenantId, epoch, batches)
    decreases |batches|
  {
    hide SegmentOf, EncodeNdjson, AllHashed;
    if batches != [] {
      assert forall i | 0 <= i < |batches| - 1 :: batches[1..][i] == batches[i + 1];
      HoldsEach(objects, tenantId, epoch, batches[1..]);
    }
  }

  lemma {:induction false} ReplayOfBatches(objects: Objects, tenantId: string, epoch: int, batches: seq<seq<AuditRecord>>,
                                           sequence: int, previousHash: Option<Digest>)
    requires AllNonempty(batches) && Holds(objects, tenantId, epoch, batches)
    requires Chained(Flatten(batches), tenantId, sequence + 1, previousHash)
    ensures ReplaySegments(objects, SegmentsOf(tenantId, epoch, batches), tenantId, sequence, previousHash) == Some(Flatten(batches))
    decreases |batches|
  {
    hide Chained, SegmentsOf, AllNonempty, ReplaySegment, SegmentOf, EncodeNdjson, EndHash, AllHashed;
    if batches != [] {
      var head := batches[0];
      FirstBatch(batches, tenantId, sequence + 1, previousHash);
      FirstSegment(tenantId, epoch, batches);
      ReplayOfBatch(objects, tenantId, epoch, head, sequence, previousHash);
      ReplayOfBatches(objects, tenantId, epoch, batches[1..], sequence + |head|, EndHash(head, previousHash));
      ReplayStep(objects, SegmentsOf(tenantId, epoch, batches), tenantId, sequence, previousHash, head, Flatten(batches[1..]));
    }
  }

  lemma {:induction false} PutsAnswer(tenantId: string, epoch: int, batches: seq<seq<AuditRecord>>)
    requires AllNonempty(batches)
    ensures |SegmentPuts(tenantId, epoch, batches)| == |batches|
    ensures forall i | 0 <= i < |batches| ::
              SegmentPuts(tenantId, epoch, batches)[i] == (SegmentOf(tenantId, epoch, batches[i]).objectKey, EncodeNdjson(batches[i]))
    decreases |batches|
  {
    hide SegmentOf, EncodeNdjson;
    if batches != [] {
      PutsAnswer(tenantId, epoch, batches[1..]);
      assert forall i | 1 <= i < |batches| :: batches[i] == batches[1..][i - 1];
    }
  }

  /** Segments of a valid manifest start at increasing sequences, so their keys differ. */
  lemma {:induction false} SegmentsAscend(segments: seq<Segment>, tenantId: string, epoch: int, sequence: int,
                                          previousHash: Option<Digest>, i: nat, j: nat)
    requires SegmentsContinue(segments, tenantId, epoch, sequence, previousHash) && i < j < |segments|
    ensures sequence <= segments[i].descriptor.fromSequence < segments[j].descriptor.fromSequence
    ensures segments[i].objectKey == SegmentKey(tenantId, epoch, segments[i].descriptor.fromSequence, segments[i].descriptor.toSequence)
    ensures segments[j].objectKey == SegmentKey(tenantId, epoch, segments[j].descriptor.fromSequence, segments[j].descriptor.toSequence)
    decreases |segments|
  {
    var next, link := segments[0].descriptor.toSequence + 1, Some(segments[0].descriptor.lastHash);
    if i > 0 {
      SegmentsAscend(segments[1..], tenantId, epoch, next, link, i - 1, j - 1);
    } else if j > 1 {
      SegmentsAscend(segments[1..], tenantId, epoch, next, link, 0, j - 1);
    }
  }

  lemma PlanKeysDistinct(input: SealInput)
    requires DeriveEpoch(input).Some?
    ensures DistinctKeys(SealPlan(input))
  {
    hide AllBatchesHashed, EncodeNdjson, Batches, Chained, ValidCheckpoint, Descriptors;
    var m, plan := BuildManifest(input), SealPlan(input);
    var batches := Batches(input.records, input.segmentRecordCount);
    InputBatches(input);
    PutsAnswer(input.tenantId, input.epoch, batches);
    forall i, j | 0 <= i < j < |plan| ensures plan[i].0 != plan[j].0 {
      assert m.segments[i] == SegmentOf(input.tenantId, input.epoch, batches[i]);
      if j < |batches| {
        assert m.segments[j] == SegmentOf(input.tenantId, input.epoch, batches[j]);
        SegmentsAscend(m.segments, m.tenantId, m.epoch, m.fromSequence, m.fromPreviousHash, i, j);
      }
    }
  }

  function PutKeys(plan: seq<Put>): (keys: seq<ObjectKey>)
    ensures |keys| == |plan|
    ensures forall i | 0 <= i < |plan| :: keys[i] == plan[i].0
  {
    if plan == [] then [] else PutKeys(plan[..|plan| - 1]) + [plan[|plan| - 1].0]
  }

  lemma {:induction false} ImageListsPutKeys(plan: seq<Put>)
    requires DistinctKeys(plan)
    ensures multiset(ImageOf(plan).Keys) == multiset(PutKeys(plan))
    decreases |plan|
  {
    hide PutKeys;
    if plan == [] {
      assert ImageOf(plan).Keys == {};
    } else {
      var front, last := plan[..|plan| - 1], plan[|plan| - 1].0;
      ImageListsPutKeys(front);
      ImageAnswer(front);
      assert last !in ImageOf(front);
      assert ImageOf(plan).Keys == ImageOf(front).Keys + {last};
      assert PutKeys(plan) == PutKeys(front) + [last];
      assert multiset(ImageOf(plan).Keys) == multiset(ImageOf(front).Keys) + multiset{last};
    }
  }

  /** The keys of the sealed image are exactly the keys the verifier expects to be listed. */
  lemma ImageKeys(input: SealInput)
    requires DeriveEpoch(input).Some?
    ensures multiset(ImageOf(SealPlan(input)).Keys) == multiset(ExpectedKeys(BuildManifest(input)))
    ensures forall k | k in ImageOf(SealPlan(input)) :: InEpoch(k, input.tenantId, input.epoch)
  {
    hide SealPlan, ImageOf, PutKeys, ExpectedKeys;
    var plan := SealPlan(input);
    PlanKeysDistinct(input);
    ImageAnswer(plan);
    ImageListsPutKeys(plan);
    PlanKeysExpected(input);
  }

  /** The plan writes the keys of the manifest, in order. */
  lemma PlanKeysExpected(input: SealInput)
    requires ValidSealInput(input)
    ensures PutKeys(SealPlan(input)) == ExpectedKeys(BuildManifest(input))
    ensures forall i | 0 <= i < |SealPlan(input)| :: InEpoch(SealPlan(input)[i].0, input.tenantId, input.epoch)
  {
    hide EncodeNdjson, Batches, Descriptors, AllNonempty, Flatten;
    var m, plan, keys := BuildManifest(input), SealPlan(input), ExpectedKeys(BuildManifest(input));
    var batches := Batches(input.records, input.segmentRecordCount);
    BatchesCover(input.records, input.segmentRecordCount);
    PutsAnswer(input.tenantId, input.epoch, batches);
    assert |keys| == |plan|;
    forall i | 0 <= i < |plan| ensures keys[i] == plan[i].0 && InEpoch(plan[i].0, input.tenantId, input.epoch) {
      assert i < |batches| ==> m.segments[i] == SegmentOf(input.tenantId, input.epoch, batches[i]);
    }
    assert keys == PutKeys(plan);
  }

  lemma SealedImageHolds(objects: Objects, input: SealInput)
    requires DeriveEpoch(input).Some?
    requires EpochView(objects, input.tenantId, input.epoch) == ImageOf(SealPlan(input))
    ensures var batches := Batches(input.records, input.segmentRecordCount);
            AllNonempty(batches) && HoldsBatches(objects, input.tenantId, input.epoch, batches)
    ensures var m := BuildManifest(input); m.manifestKey in objects && objects[m.manifestKey] == [CanonicalManifest(m)]
  {
    hide EncodeNdjson, Batches, ValidManifest, ImageOf, DistinctKeys, SegmentOf, Flatten, AllNonempty;
    var plan, batches := SealPlan(input), Batches(input.records, input.segmentRecordCount);
    BatchesCover(input.records, input.segmentRecordCount);
    PutsAnswer(input.tenantId, input.epoch, batches);
    PlanKeysDistinct(input);
    ImageAnswer(plan);
    assert plan[|batches|].0 in EpochView(objects, input.tenantId, input.epoch);
    forall i | 0 <= i < |batches|
      ensures var key := SegmentOf(input.tenantId, input.epoch, batches[i]).objectKey;
              key in objects && objects[key] == EncodeNdjson(batches[i])
    {
      assert plan[i].0 in EpochView(objects, input.tenantId, input.epoch);
    }
  }

  lemma SealedImageReplays(objects: Objects, input: SealInput)
    requires DeriveEpoch(input).Some?
    requires EpochView(objects, input.tenantId, input.epoch) == ImageOf(SealPlan(input))
    ensures ReplaySegments(objects, BuildManifest(input).segments, input.tenantId, Anchor(input.previous).0, Anchor(input.previous).1)
         == Some(input.records)
  {
    hide Batches, ImageOf, HoldsBatches, SealPlan, ValidManifest, ReplaySegments, AllNonempty, Flatten, SegmentsOf, AllBatchesHashed;
    SealedImageHolds(objects, input);
    InputBatches(input);
    BatchesReplay(objects, input, Batches(input.records, input.segmentRecordCount));
  }

  lemma BatchesReplay(objects: Objects, input: SealInput, batches: seq<seq<AuditRecord>>)
    requires ValidSealInput(input) && AllNonempty(batches) && AllBatchesHashed(batches, input.tenantId)
    requires Flatten(batches) == input.records && HoldsBatches(objects, input.tenantId, input.epoch, batches)
    ensures ReplaySegments(objects, SegmentsOf(input.tenantId, input.epoch, batches), input.tenantId,
                           Anchor(input.previous).0, Anchor(input.previous).1) == Some(input.records)
  {
    hide AllBatchesHashed, AllNonempty, HoldsBatches, Holds, Flatten, Chained, ValidCheckpoint, ReplaySegments, SegmentsOf;
    HoldsEach(objects, input.tenantId, input.epoch, batches);
    ReplayOfBatches(objects, input.tenantId, input.epoch, batches, Anchor(input.previous).0, Anchor(input.previous).1);
  }

  /** A provider whose epoch prefix is exactly the sealed image passes verification. */
  lemma SealedImageVerifies(objects: Objects, input: SealInput)
    requires DeriveEpoch(input).Some?
    requires EpochView(objects, input.tenantId, input.epoch) == ImageOf(SealPlan(input))
    ensures VerifyEpoch(objects, BuildManifest(input)) == Some(input.records)
  {
    hide ValidSealInput, ImageOf, Descriptors, ExpectedKeys, SealPlan, ReplaySegments, SegmentsOf, Batches, AllNonempty, HoldsBatches, Anchor, SegmentsContinue;
    SealedImageReplays(objects, input);
    ImageKeys(input);
    InputBoundaries(input);
    SealedImageHolds(objects, input);
  }

  /** Sealing from empty, from a crashed seal or from a finished one gives an accepted epoch. */
  lemma SealThenVerify(objects: Objects, input: SealInput)
    requires DeriveEpoch(input).Some?
    requires var view := EpochView(objects, input.tenantId, input.epoch);
             view.Keys <= ImageOf(SealPlan(input)).Keys && Compatible(view, ImageOf(SealPlan(input)))
    ensures var (objects', done) := SealFrom(objects, SealPlan(input));
            && done
            && EpochView(objects', input.tenantId, input.epoch) == ImageOf(SealPlan(input))
            && VerifyEpoch(objects', BuildManifest(input)) == Some(input.records)
  {
    hide SealPlan, ImageOf, DistinctKeys, VerifyEpoch;
    var plan, image := SealPlan(input), ImageOf(SealPlan(input));
    PlanKeysDistinct(input);
    ImageKeys(input);
    assert Compatible(objects, image) by {
      forall k | k in objects && k in image ensures objects[k] == image[k] {
        assert k in EpochView(objects, input.tenantId, input.epoch);
      }
    }
    SealCompletes(objects, plan);
    assert EpochView(objects + image, input.tenantId, input.epoch) == image by {
      forall k | k in EpochView(objects + image, input.tenantId, input.epoch) ensures k in image {
        if k in objects { assert k in EpochView(objects, input.tenantId, input.epoch); }
      }
    }
    SealedImageVerifies(objects + image, input);
  }

  // ---------- Recovery and disposal ----------

  /** The manifest names every field of the checkpoint's range, anchor and archive root. */
  predicate BindsCheckpoint(m: Manifest, c: CheckpointBody) {
    && m.tenantId == c.tenantId
    && m.epoch == c.epoch
    && m.fromSequence == c.fromSequence
    && m.fromPreviousHash == c.fromPreviousHash
    && m.throughSequence == c.throughSequence
    && m.throughHash == c.throughHash
    && m.recordCount == c.recordCount
    && m.previousCheckpointHash == c.previousCheckpointHash
    && m.archiveRootHash == c.archiveRootHash
  }

  datatype Recovered = Missing | Found(manifest: Manifest) | Refused

  /** The staged manifest of a stored checkpoint; a missing one may mean deletion had finished. */
  function RecoverEpoch(objects: Objects, c: RetentionCheckpoint): Recovered {
    var key := ManifestKey(c.body.tenantId, c.body.epoch);
    if !ValidCheckpoint(c) then Refused
    else if key !in objects then Missing
    else
      var body := objects[key];
      if && |body| == 1 && body[0].CanonicalManifest?
         && ValidManifest(body[0].manifest) && BindsCheckpoint(body[0].manifest, c.body)
      then Found(body[0].manifest) else Refused
  }

  function DeleteKeys(objects: Objects, keys: seq<ObjectKey>): Objects
    decreases |keys|
  {
    if keys == [] then objects else DeleteKeys(objects - {keys[0]}, keys[1..])
  }

  /** Direct reads of every known key and the prefix listing both see nothing. */
  predicate EpochAbsent(objects: Objects, m: Manifest) {
    && (forall i | 0 <= i < |ExpectedKeys(m)| :: ExpectedKeys(m)[i] !in objects)
    && EpochView(objects, m.tenantId, m.epoch) == map[]
  }

  predicate CheckpointEpochAbsent(objects: Objects, c: RetentionCheckpoint) {
    && ManifestKey(c.body.tenantId, c.body.epoch) !in objects
    && EpochView(objects, c.body.tenantId, c.body.epoch) == map[]
  }
}
