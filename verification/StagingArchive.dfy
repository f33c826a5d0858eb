/**
 The staging archive over an object store: the operations on one explicit epoch, as the loops
 that run over the provider. Each is proved to compute what `Staging` and `SealedEpochs` define.
 */
module StagingArchive {
  import opened Wrappers
  import opened Protocol
  import opened AuditTables
  import Derive = Staging
  import opened Staging
  import Sealed = SealedEpochs
  import opened SealedEpochs
  import opened EpochEvidence

  /** A bucket: exact keys, whole bodies, and listings that see every object. */
  class ObjectStore {
    var objects: Objects

    constructor ()
      ensures objects == map[]
    {
      objects := map[];
    }

    method Get(key: ObjectKey) returns (body: Option<Bytes>)
      ensures body == if key in objects then Some(objects[key]) else None
    {
      return if key in objects then Some(objects[key]) else None;
    }

    method Put(key: ObjectKey, body: Bytes)
      modifies this
      ensures objects == old(objects)[key := body]
    {
      objects := objects[key := body];
    }

    /** Deleting an absent key succeeds. */
    method Delete(key: ObjectKey)
      modifies this
      ensures objects == old(objects) - {key}
    {
      objects := objects - {key};
    }

    method ListEpoch(tenantId: string, epoch: int) returns (keys: seq<ObjectKey>)
      ensures multiset(keys) == multiset(EpochView(objects, tenantId, epoch).Keys)
    {
      keys := [];
      var listed := EpochView(objects, tenantId, epoch).Keys;
      var rest := listed;
      while rest != {}
        invariant rest <= listed
        invariant multiset(keys) + multiset(rest) == multiset(listed)
        decreases rest
      {
        var key :| key in rest;
        keys := keys + [key];
        rest := rest - {key};
      }
    }
  }

  /** Portable metadata of a successful verification. */
  datatype Verification = Verification(archiveRootHash: Digest, segmentCount: nat, recordCount: nat)

  lemma FlattenSlice(batches: seq<seq<AuditRecord>>, i: nat, offset: nat)
    requires i < |batches| && offset == |Flatten(batches[..i])|
    ensures offset + |batches[i]| <= |Flatten(batches)|
    ensures Flatten(batches)[offset..offset + |batches[i]|] == batches[i]
    ensures |Flatten(batches[..i + 1])| == offset + |batches[i]|
  {
    FlattenConcat(batches[..i], batches[i..]);
    assert batches[..i] + batches[i..] == batches;
    FlattenConcat(batches[..i], [batches[i]]);
    assert batches[..i + 1] == batches[..i] + [batches[i]];
    assert Flatten([batches[i]]) == batches[i] + Flatten([]);
    assert Flatten(batches[i..]) == batches[i] + Flatten(batches[i..][1..]);
  }

  lemma {:induction false} FlattenConcat(a: seq<seq<AuditRecord>>, b: seq<seq<AuditRecord>>)
    ensures Flatten(a + b) == Flatten(a) + Flatten(b)
  {
    if a == [] {
      assert a + b == b;
    } else {
      assert (a + b)[1..] == a[1..] + b;
      FlattenConcat(a[1..], b);
    }
  }

  class RetentionStagingArchive {
    const client: ObjectStore

    constructor (client: ObjectStore)
      ensures this.client == client
    {
      this.client := client;
    }

    // ---------- Deriving ----------

    /** Validates tenant, prior anchor, exact range and record hashes before any write. */
    method ValidateSealInput(input: SealInput) returns (ok: bool)
      ensures ok ==> input.records != []
      ensures SafePositive(input.segmentRecordCount) ==> (ok <==> ValidSealInput(input))
    {
      hide ValidCheckpoint;
      if !SafePositive(input.epoch) || input.records == [] { return false; }
      var previousSequence, previousHash := 0, None;
      match input.previous {
        case None =>
          if input.epoch != 1 { return false; }
        case Some(previous) =>
          if !ValidCheckpoint(previous) || previous.body.tenantId != input.tenantId { return false; }
          if input.epoch != previous.body.epoch + 1 { return false; }
          previousSequence, previousHash := previous.body.throughSequence, Some(previous.body.throughHash);
      }
      ok := CheckLinks(input.records, input.tenantId, previousSequence, previousHash);
    }

    /** The loop that replays records one by one behind a sequence and a hash. */
    method CheckLinks(records: seq<AuditRecord>, tenantId: string, sequence: int, hash: Option<Digest>) returns (ok: bool)
      ensures ok <==> Chained(records, tenantId, sequence + 1, hash)
    {
      var previousSequence, previousHash := sequence, hash;
      ghost var start := sequence + 1;
      for i := 0 to |records|
        invariant previousSequence == sequence + i
        invariant previousHash == LinkAt(records, i, hash)
        invariant forall j | 0 <= j < i :: ChainedAt(records, j, tenantId, start, hash)
      {
        var record := records[i];
        if || !HashedRecord(record, tenantId)
           || record.body.sequence != previousSequence + 1
           || record.body.previousHash != previousHash
        {
          assert !ChainedAt(records, i, tenantId, start, hash);
          return false;
        }
        previousSequence, previousHash := record.body.sequence, Some(record.hash);
      }
      return true;
    }

    /** The loop that cuts the records into segments. */
    method CutSegments(input: SealInput) returns (segments: seq<Segment>)
      requires ValidSealInput(input)
      ensures segments == BuildManifest(input).segments
    {
      hide Chained, ValidCheckpoint, EncodeNdjson, SegmentOf, Flatten, Batches, SegmentsOf, AllNonempty, Descriptors;
      var records, size := input.records, input.segmentRecordCount;
      BatchesCover(records, size);
      assert records[0..] == records;
      ghost var all := SegmentsOf(input.tenantId, input.epoch, Batches(records, size));
      segments := [];
      var offset := 0;
      while offset < |records|
        invariant 0 <= offset
        invariant offset < |records| ==> AllNonempty(Batches(records[offset..], size))
        invariant offset < |records| ==>
                    segments + SegmentsOf(input.tenantId, input.epoch, Batches(records[offset..], size)) == all
        invariant offset >= |records| ==> segments == all
        decreases |records| - offset
      {
        var batch := if offset + size <= |records| then records[offset..offset + size] else records[offset..];
        NextBatch(input.tenantId, input.epoch, records, size, offset);
        segments := segments + [SegmentOf(input.tenantId, input.epoch, batch)];
        offset := offset + size;
      }
    }

    static lemma NextBatch(tenantId: string, epoch: int, records: seq<AuditRecord>, size: nat, offset: nat)
      requires size > 0 && offset < |records| && AllNonempty(Batches(records[offset..], size))
      ensures var batch := if offset + size <= |records| then records[offset..offset + size] else records[offset..];
              var all := SegmentsOf(tenantId, epoch, Batches(records[offset..], size));
              && batch != []
              && (offset + size < |records| ==>
                    && AllNonempty(Batches(records[offset + size..], size))
                    && all == [SegmentOf(tenantId, epoch, batch)]
                              + SegmentsOf(tenantId, epoch, Batches(records[offset + size..], size)))
              && (offset + size >= |records| ==> all == [SegmentOf(tenantId, epoch, batch)])
    {
      hide SegmentOf, EncodeNdjson;
      var rest := records[offset..];
      if |rest| > size {
        assert rest[..size] == records[offset..offset + size];
        assert rest[size..] == records[offset + size..];
        assert Batches(rest, size)[1..] == Batches(rest[size..], size);
        FirstSegment(tenantId, epoch, Batches(rest, size));
        BatchesCover(rest[size..], size);
      } else {
        assert |rest| == size ==> records[offset..offset + size] == rest;
        assert Batches(rest, size)[1..] == [];
      }
    }

    /** Derives one epoch's manifest without touching the provider. */
    method DeriveEpoch(input: SealInput) returns (manifest: Option<Manifest>)
      ensures manifest == Derive.DeriveEpoch(input)
    {
      hide ValidSealInput, ValidManifest, Batches, SegmentsOf;
      if !SafePositive(input.segmentRecordCount) {
        assert !ValidSealInput(input) by { SegmentSizeChecked(input); }
        return None;
      }
      var ok := ValidateSealInput(input);
      if !ok { return None; }
      var segments := CutSegments(input);
      InputNonempty(input);
      var records := input.records;
      var m := Manifest(
        input.tenantId, input.epoch, records[0].body.sequence, records[0].body.previousHash,
        records[|records| - 1].body.sequence, records[|records| - 1].hash, |records|,
        (match input.previous case None => None case Some(p) => Some(p.hash)),
        ArchiveRootDigest(Descriptors(segments)), segments, ManifestKey(input.tenantId, input.epoch));
      assert m == BuildManifest(input);
      ok := ValidateManifest(m);
      return if ok then Some(m) else None;
    }

    static lemma SegmentSizeChecked(input: SealInput)
      requires !SafePositive(input.segmentRecordCount)
      ensures !ValidSealInput(input)
    {
      hide Chained, ValidCheckpoint;
    }

    static lemma InputNonempty(input: SealInput)
      requires ValidSealInput(input)
      ensures input.records != []
    {
      hide Chained, ValidCheckpoint;
    }

    /** Walks the segment descriptors with a running sequence, hash and count. */
    method ValidateManifest(m: Manifest) returns (ok: bool)
      ensures ok <==> ValidManifest(m)
    {
      hide Descriptors, SegmentContinues;
      if !SafePositive(m.epoch) || !SafePositive(m.fromSequence) || !SafePositive(m.throughSequence) { return false; }
      if !SafePositive(m.recordCount) || m.segments == [] || m.throughSequence < m.fromSequence { return false; }
      if m.manifestKey != ManifestKey(m.tenantId, m.epoch) { return false; }
      var sequence, previousHash, count := m.fromSequence, m.fromPreviousHash, 0;
      for i := 0 to |m.segments|
        invariant SegmentsContinue(m.segments, m.tenantId, m.epoch, m.fromSequence, m.fromPreviousHash)
             <==> SegmentsContinue(m.segments[i..], m.tenantId, m.epoch, sequence, previousHash)
        invariant count == sequence - m.fromSequence
        invariant i > 0 ==> sequence == m.segments[i - 1].descriptor.toSequence + 1
        invariant i > 0 ==> previousHash == Some(m.segments[i - 1].descriptor.lastHash)
      {
        var s := m.segments[i];
        assert m.segments[i..][1..] == m.segments[i + 1..];
        if !SegmentContinues(s, m.tenantId, m.epoch, sequence, previousHash) { return false; }
        ContinuingCount(s, m.tenantId, m.epoch, sequence, previousHash);
        sequence, previousHash := s.descriptor.toSequence + 1, Some(s.descriptor.lastHash);
        count := count + s.descriptor.recordCount;
      }
      if sequence - 1 != m.throughSequence || previousHash != Some(m.throughHash) { return false; }
      if count != m.recordCount || count != m.throughSequence - m.fromSequence + 1 { return false; }
      return m.archiveRootHash == ArchiveRootDigest(Descriptors(m.segments));
    }

    static lemma ContinuingCount(s: Segment, tenantId: string, epoch: int, sequence: int, previousHash: Option<Digest>)
      requires SegmentContinues(s, tenantId, epoch, sequence, previousHash)
      ensures s.descriptor.recordCount == s.descriptor.toSequence + 1 - sequence
    {
    }

    // ---------- Sealing ----------

    /** Writes bytes only when the key is absent or already byte-identical. */
    method PutExactly(key: ObjectKey, body: Bytes) returns (ok: bool)
      modifies client
      ensures var put := PutExact(old(client.objects), (key, body));
              && (ok <==> put.Some?)
              && client.objects == put.GetOr(old(client.objects))
    {
      var existing := client.Get(key);
      if existing.Some? { return existing.value == body; }
      client.Put(key, body);
      return true;
    }

    /** Seals the segments in order and the manifest last; a conflict stops where it is met. */
    method SealEpoch(input: SealInput) returns (manifest: Option<Manifest>)
      modifies client
      ensures Derive.DeriveEpoch(input).None? ==> manifest.None? && client.objects == old(client.objects)
      ensures Derive.DeriveEpoch(input).Some? ==>
                && client.objects == SealFrom(old(client.objects), SealPlan(input)).0
                && manifest == (if SealFrom(old(client.objects), SealPlan(input)).1 then Derive.DeriveEpoch(input) else None)
    {
      hide Derive.DeriveEpoch, SealPlan, PutExact;
      manifest := DeriveEpoch(input);
      if manifest.None? { return; }
      DerivedFacts(input);
      var m, plan := manifest.value, SealPlan(input);
      SealPlanPuts(input);
      var offset := 0;
      for i := 0 to |m.segments|
        invariant |plan| == |m.segments| + 1
        invariant 0 <= offset
        invariant SegmentOffset(input, i, offset)
        invariant SealFrom(old(client.objects), plan) == SealFrom(client.objects, plan[i..])
      {
        SegmentSlice(input, i, offset);
        var batch := input.records[offset..offset + m.segments[i].descriptor.recordCount];
        assert plan[i..][0] == plan[i] == (m.segments[i].objectKey, EncodeNdjson(batch));
        assert plan[i..][1..] == plan[i + 1..];
        var ok := PutExactly(m.segments[i].objectKey, EncodeNdjson(batch));
        if !ok { return None; }
        offset := offset + m.segments[i].descriptor.recordCount;
      }
      assert plan[|m.segments|..] == [plan[|m.segments|]];
      assert plan[|m.segments|..][1..] == [];
      var ok := PutExactly(m.manifestKey, [CanonicalManifest(m)]);
      if !ok { return None; }
    }

    static lemma DerivedFacts(input: SealInput)
      requires Derive.DeriveEpoch(input).Some?
      ensures ValidSealInput(input) && Derive.DeriveEpoch(input) == Some(BuildManifest(input))
    {
      hide ValidSealInput, ValidManifest, BuildManifest;
    }

    /** `offset` records are in the segments before segment `i`. */
    static ghost predicate SegmentOffset(input: SealInput, i: nat, offset: nat)
      requires ValidSealInput(input)
    {
      var batches := Batches(input.records, input.segmentRecordCount);
      i <= |batches| && offset == |Flatten(batches[..i])|
    }

    static lemma SealPlanPuts(input: SealInput)
      requires ValidSealInput(input)
      ensures var m := BuildManifest(input);
              && |SealPlan(input)| == |m.segments| + 1
              && SealPlan(input)[|m.segments|] == (m.manifestKey, [CanonicalManifest(m)])
      ensures SegmentOffset(input, 0, 0)
    {
      hide EncodeNdjson, Chained, ValidCheckpoint, SegmentOf;
      var batches := Batches(input.records, input.segmentRecordCount);
      BatchesCover(input.records, input.segmentRecordCount);
      PutsAnswer(input.tenantId, input.epoch, batches);
    }

    static lemma SegmentSlice(input: SealInput, i: nat, offset: nat)
      requires ValidSealInput(input) && i < |BuildManifest(input).segments| && SegmentOffset(input, i, offset)
      ensures |SealPlan(input)| == |BuildManifest(input).segments| + 1
      ensures var s := BuildManifest(input).segments[i];
              var end := offset + s.descriptor.recordCount;
              && 0 <= offset <= end <= |input.records|
              && SealPlan(input)[i] == (s.objectKey, EncodeNdjson(input.records[offset..end]))
              && SegmentOffset(input, i + 1, end)
    {
      hide EncodeNdjson, Chained, ValidCheckpoint, Flatten, Batches, Descriptors;
      var batches := Batches(input.records, input.segmentRecordCount);
      InputNonempty(input);
      BatchesCover(input.records, input.segmentRecordCount);
      PutsAnswer(input.tenantId, input.epoch, batches);
      FlattenSlice(batches, i, offset);
    }

    // ---------- Verifying ----------

    /** Re-reads one segment and replays it behind a sequence and a hash. */
    method CheckSegment(s: Segment, tenantId: string, sequence: int, hash: Option<Digest>)
      returns (records: Option<seq<AuditRecord>>)
      ensures records == ReplaySegment(client.objects, s, tenantId, sequence, hash)
    {
      hide Chained, ParseExactNdjson;
      var body := client.Get(s.objectKey);
      if body.None? || ContentDigest(body.value) != s.descriptor.contentSha256 { return None; }
      records := ParseExactNdjson(body.value, tenantId);
      if records.None? { return None; }
      if records.value == [] || !Describes(s.descriptor, records.value) { return None; }
      var ok := CheckLinks(records.value, tenantId, sequence, hash);
      if !ok { return None; }
    }

    /** Requires exactly the expected objects, the exact manifest bytes and one linked range. */
    method VerifyEpoch(m: Manifest) returns (v: Option<Verification>)
      ensures v.Some? <==> Sealed.VerifyEpoch(client.objects, m).Some?
      ensures v.Some? ==> v.value == Verification(m.archiveRootHash, |m.segments|, |Sealed.VerifyEpoch(client.objects, m).value|)
    {
      hide ValidManifest, ReplaySegment, ReplaySegments, EpochView, EndHash;
      var ok := ValidateManifest(m);
      if !ok { return None; }
      var listed := client.ListEpoch(m.tenantId, m.epoch);
      if multiset(listed) != multiset(ExpectedKeys(m)) { return None; }
      var manifestBytes := client.Get(m.manifestKey);
      if manifestBytes != Some([CanonicalManifest(m)]) { return None; }
      var sequence, hash, count := m.fromSequence - 1, m.fromPreviousHash, 0;
      ghost var read: seq<AuditRecord> := [];
      NothingRead(client.objects, m);
      for i := 0 to |m.segments|
        invariant count == |read| && sequence == m.fromSequence - 1 + |read|
        invariant hash == EndHash(read, m.fromPreviousHash)
        invariant var rest := ReplaySegments(client.objects, m.segments[i..], m.tenantId, sequence, hash);
                  ReplaySegments(client.objects, m.segments, m.tenantId, m.fromSequence - 1, m.fromPreviousHash)
                  == if rest.Some? then Some(read + rest.value) else None
      {
        var records := CheckSegment(m.segments[i], m.tenantId, sequence, hash);
        SegmentRead(client.objects, m.segments, i, m.tenantId, sequence, hash, read, m.fromPreviousHash);
        if records.None? { return None; }
        sequence, count := sequence + |records.value|, count + |records.value|;
        hash := Some(records.value[|records.value| - 1].hash);
        read := read + records.value;
      }
      AllRead(client.objects, m, sequence, hash);
      assert read + [] == read;
      if sequence != m.throughSequence || hash != Some(m.throughHash) || count != m.recordCount { return None; }
      return Some(Verification(m.archiveRootHash, |m.segments|, count));
    }

    static lemma NothingRead(objects: Objects, m: Manifest)
      ensures EndHash([], m.fromPreviousHash) == m.fromPreviousHash && m.segments[0..] == m.segments
      ensures var all := ReplaySegments(objects, m.segments, m.tenantId, m.fromSequence - 1, m.fromPreviousHash);
              all == if all.Some? then Some([] + all.value) else None
    {
      hide ReplaySegments;
      var all := ReplaySegments(objects, m.segments, m.tenantId, m.fromSequence - 1, m.fromPreviousHash);
      assert all.Some? ==> [] + all.value == all.value;
    }

    static lemma AllRead(objects: Objects, m: Manifest, sequence: int, hash: Option<Digest>)
      ensures ReplaySegments(objects, m.segments[|m.segments|..], m.tenantId, sequence, hash) == Some([])
    {
    }

    static lemma SegmentRead(objects: Objects, segments: seq<Segment>, i: nat, tenantId: string, sequence: int,
                             hash: Option<Digest>, read: seq<AuditRecord>, from: Option<Digest>)
      requires i < |segments| && hash == EndHash(read, from)
      ensures var rest := ReplaySegments(objects, segments[i..], tenantId, sequence, hash);
              match ReplaySegment(objects, segments[i], tenantId, sequence, hash)
              case None => rest.None?
              case Some(head) =>
                && head != [] && EndHash(head, hash) == Some(head[|head| - 1].hash) == EndHash(read + head, from)
                && var tail := ReplaySegments(objects, segments[i + 1..], tenantId, sequence + |head|, EndHash(head, hash));
                   (if rest.Some? then Some(read + rest.value) else None)
                   == (if tail.Some? then Some(read + head + tail.value) else None)
    {
      hide Chained, ParseExactNdjson, Describes;
      assert segments[i..][1..] == segments[i + 1..];
      match ReplaySegment(objects, segments[i], tenantId, sequence, hash) {
        case None =>
        case Some(head) =>
          var tail := ReplaySegments(objects, segments[i + 1..], tenantId, sequence + |head|, EndHash(head, hash));
          assert tail.Some? ==> read + (head + tail.value) == read + head + tail.value;
      }
    }

    // ---------- Recovery and disposal ----------

    /** Loads the staged manifest of a stored checkpoint, if it is still there and binds it. */
    method RecoverEpoch(c: RetentionCheckpoint) returns (r: Recovered)
      ensures r == Sealed.RecoverEpoch(client.objects, c)
      ensures r.Found? ==> ProvesCheckpoint(client.objects, c.body, r.manifest)
      ensures r.Missing? <==> ValidCheckpoint(c) && ManifestKey(c.body.tenantId, c.body.epoch) !in client.objects
    {
      hide ValidManifest, BindsCheckpoint, ValidCheckpoint, ProvesCheckpoint;
      if !ValidCheckpoint(c) { return Refused; }
      var bytes := client.Get(ManifestKey(c.body.tenantId, c.body.epoch));
      if bytes.None? { return Missing; }
      if |bytes.value| != 1 || !bytes.value[0].CanonicalManifest? { return Refused; }
      var manifest := bytes.value[0].manifest;
      var ok := ValidateManifest(manifest);
      if !ok || !BindsCheckpoint(manifest, c.body) { return Refused; }
      BoundManifestProves(client.objects, c.body, manifest);
      return Found(manifest);
    }

    /** Deletes every referenced segment and then the manifest. */
    method DeleteEpoch(m: Manifest) returns (ok: bool)
      modifies client
      ensures ok <==> ValidManifest(m)
      ensures client.objects == if ok then DeleteKeys(old(client.objects), ExpectedKeys(m)) else old(client.objects)
      ensures ok ==> Without(old(client.objects), client.objects, ExpectedKeys(m))
    {
      hide ValidManifest;
      DeletingRemovesExactly(client.objects, ExpectedKeys(m));
      ok := ValidateManifest(m);
      if !ok { return; }
      ghost var keys := ExpectedKeys(m);
      for i := 0 to |m.segments|
        invariant DeleteKeys(old(client.objects), keys) == DeleteKeys(client.objects, keys[i..])
      {
        assert keys[i..][0] == m.segments[i].objectKey && keys[i..][1..] == keys[i + 1..];
        client.Delete(m.segments[i].objectKey);
      }
      assert keys[|m.segments|..] == [m.manifestKey] && [m.manifestKey][1..] == [];
      client.Delete(m.manifestKey);
    }

    method ConfirmEpochAbsent(m: Manifest) returns (absent: bool)
      ensures absent <==> ValidManifest(m) && EpochAbsent(client.objects, m)
      ensures absent ==> PrefixEmpty(client.objects, m.tenantId, m.epoch)
    {
      hide ValidManifest, EpochView, PrefixEmpty;
      EmptyViewIsEmptyPrefix(client.objects, m.tenantId, m.epoch);
      var ok := ValidateManifest(m);
      if !ok { return false; }
      var keys, directReadsAbsent := ExpectedKeys(m), true;
      for i := 0 to |keys|
        invariant directReadsAbsent <==> forall j | 0 <= j < i :: keys[j] !in client.objects
      {
        var body := client.Get(keys[i]);
        if body.Some? { directReadsAbsent := false; }
      }
      var listed := client.ListEpoch(m.tenantId, m.epoch);
      EmptyListing(client.objects, m.tenantId, m.epoch, listed);
      return directReadsAbsent && |listed| == 0;
    }

    /** Confirms absence without knowing the segment keys: no manifest and an empty prefix. */
    method ConfirmCheckpointEpochAbsent(c: RetentionCheckpoint) returns (absent: bool)
      ensures absent <==> ValidCheckpoint(c) && CheckpointEpochAbsent(client.objects, c)
      ensures absent <==> ValidCheckpoint(c) && PrefixEmpty(client.objects, c.body.tenantId, c.body.epoch)
    {
      hide ValidCheckpoint, EpochView;
      EmptyViewIsEmptyPrefix(client.objects, c.body.tenantId, c.body.epoch);
      if !ValidCheckpoint(c) { return false; }
      var bytes := client.Get(ManifestKey(c.body.tenantId, c.body.epoch));
      var listed := client.ListEpoch(c.body.tenantId, c.body.epoch);
      EmptyListing(client.objects, c.body.tenantId, c.body.epoch, listed);
      return bytes.None? && |listed| == 0;
    }

    static lemma EmptyListing(objects: Objects, tenantId: string, epoch: int, listed: seq<ObjectKey>)
      requires multiset(listed) == multiset(EpochView(objects, tenantId, epoch).Keys)
      ensures |listed| == 0 <==> EpochView(objects, tenantId, epoch) == map[]
    {
      hide EpochView;
      var view := EpochView(objects, tenantId, epoch);
      if listed != [] {
        assert listed[0] in multiset(listed);
        assert listed[0] in view.Keys;
      } else {
        assert view.Keys == {} by {
          assert forall k | k in view.Keys :: multiset(view.Keys)[k] == 1;
        }
      }
    }
  }
}
