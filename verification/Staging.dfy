/**
 The staged archive of one retention epoch, as functions: deriving a manifest from records,
 sealing it into a provider, verifying it, and the exact NDJSON text of its segments.
 */
module Staging {
  import opened Wrappers
  import opened Protocol
  import opened AuditTables

  type Objects = map<ObjectKey, Bytes>

  datatype SealInput = SealInput(
    tenantId: string,
    epoch: int,
    previous: Option<RetentionCheckpoint>,
    records: seq<AuditRecord>,
    segmentRecordCount: int)

  // ---------- NDJSON ----------

  /** The canonical lines of `records`, joined by newlines. */
  function JoinLines(records: seq<AuditRecord>): Bytes {
    if records == [] then []
    else if |records| == 1 then [CanonicalRecord(records[0])]
    else [CanonicalRecord(records[0]), Newline] + JoinLines(records[1..])
  }

  function EncodeNdjson(records: seq<AuditRecord>): Bytes {
    JoinLines(records) + [Newline]
  }

  function SplitLines(text: Bytes): (lines: seq<Bytes>)
    ensures lines != []
  {
    if text == [] then [[]]
    else
      var rest := SplitLines(text[1..]);
      if text[0] == Newline then [[]] + rest else [[text[0]] + rest[0]] + rest[1..]
  }

  /** Each line must be the exact canonical text of a record of the tenant with its own hash. */
  function ParseLines(lines: seq<Bytes>, tenantId: string): Option<seq<AuditRecord>> {
    if lines == [] then Some([])
    else if |lines[0]| != 1 || !lines[0][0].CanonicalRecord? || !HashedRecord(lines[0][0].record, tenantId) then None
    else match ParseLines(lines[1..], tenantId)
      case None => None
      case Some(rest) => Some([lines[0][0].record] + rest)
  }

  function ParseExactNdjson(body: Bytes, tenantId: string): Option<seq<AuditRecord>> {
    if body == [] || body[|body| - 1] != Newline then None
    else ParseLines(SplitLines(body[..|body| - 1]), tenantId)
  }

  predicate AllHashed(records: seq<AuditRecord>, tenantId: string) {
    forall i | 0 <= i < |records| :: HashedRecord(records[i], tenantId)
  }

  function RecordLines(records: seq<AuditRecord>): seq<Bytes> {
    if records == [] then [] else [[CanonicalRecord(records[0])]] + RecordLines(records[1..])
  }

  lemma {:induction false} SplitOfJoin(records: seq<AuditRecord>)
    requires records != []
    ensures SplitLines(JoinLines(records)) == RecordLines(records)
    decreases |records|
  {
    var text, head := JoinLines(records), CanonicalRecord(records[0]);
    if |records| == 1 {
      assert text == [head] && text[1..] == [] && records[1..] == [];
      assert SplitLines(text[1..]) == [[]];
      assert [head] + [] == [head];
      assert RecordLines(records) == [[head]] + RecordLines([]);
    } else {
      var rest := records[1..];
      SplitOfJoin(rest);
      assert text[1..] == [Newline] + JoinLines(rest);
      assert text[1..][1..] == JoinLines(rest);
      var after := SplitLines(text[1..]);
      assert after == [[]] + SplitLines(JoinLines(rest));
      assert [head] + after[0] == [head] && after[1..] == SplitLines(JoinLines(rest));
    }
  }

  lemma {:induction false} ParseOfLines(records: seq<AuditRecord>, tenantId: string)
    requires AllHashed(records, tenantId)
    ensures ParseLines(RecordLines(records), tenantId) == Some(records)
    decreases |records|
  {
    if records != [] {
      ParseOfLines(records[1..], tenantId);
      var lines := RecordLines(records);
      assert lines[1..] == RecordLines(records[1..]) && lines[0] == [CanonicalRecord(records[0])];
      assert HashedRecord(records[0], tenantId);
      assert records == [records[0]] + records[1..];
    }
  }

  /** Decoding an encoded segment gives its records back. */
  lemma NdjsonRoundTrip(records: seq<AuditRecord>, tenantId: string)
    requires records != [] && AllHashed(records, tenantId)
    ensures ParseExactNdjson(EncodeNdjson(records), tenantId) == Some(records)
  {
    var body := EncodeNdjson(records);
    assert body[..|body| - 1] == JoinLines(records);
    SplitOfJoin(records);
    ParseOfLines(records, tenantId);
  }

  lemma {:induction false} JoinOfParse(text: Bytes, tenantId: string)
    ensures match ParseLines(SplitLines(text), tenantId)
            case None => true
            case Some(records) => records != [] && AllHashed(records, tenantId) && JoinLines(records) == text
    decreases |text|
  {
    var lines := SplitLines(text);
    if ParseLines(lines, tenantId).Some? {
      // The first line is one record; what follows it is the end or a newline.
      assert text != [] && text[0] == lines[0][0];
      var after := text[1..];
      var rest := SplitLines(after);
      assert rest[0] == [] && rest[1..] == lines[1..];
      if after == [] {
        assert lines[1..] == [];
        assert text == [text[0]];
      } else {
        assert after[0] == Newline;
        assert rest[1..] == SplitLines(after[1..]);
        JoinOfParse(after[1..], tenantId);
        assert text == [text[0], Newline] + after[1..];
      }
    }
  }

  /** A body that parses is the one encoding of what it parses to. */
  lemma NdjsonExact(body: Bytes, tenantId: string)
    requires ParseExactNdjson(body, tenantId).Some?
    ensures var records := ParseExactNdjson(body, tenantId).value;
            records != [] && AllHashed(records, tenantId) && EncodeNdjson(records) == body
  {
    JoinOfParse(body[..|body| - 1], tenantId);
    assert body == body[..|body| - 1] + [Newline];
  }

  // ---------- Manifests ----------

  /** Consecutive batches of at most `size` records. */
  function Batches(records: seq<AuditRecord>, size: nat): seq<seq<AuditRecord>>
    requires size > 0
    decreases |records|
  {
    if records == [] then []
    else if |records| <= size then [records]
    else [records[..size]] + Batches(records[size..], size)
  }

  function Flatten(batches: seq<seq<AuditRecord>>): seq<AuditRecord> {
    if batches == [] then [] else batches[0] + Flatten(batches[1..])
  }

  function SegmentOf(tenantId: string, epoch: int, batch: seq<AuditRecord>): Segment
    requires batch != []
  {
    var first, last := batch[0], batch[|batch| - 1];
    Segment(
      SegmentDescriptor(first.body.sequence, last.body.sequence, |batch|, first.body.previousHash, last.hash,
                        ContentDigest(EncodeNdjson(batch))),
      SegmentKey(tenantId, epoch, first.body.sequence, last.body.sequence))
  }

  predicate AllNonempty(batches: seq<seq<AuditRecord>>) {
    forall i | 0 <= i < |batches| :: batches[i] != []
  }

  function SegmentsOf(tenantId: string, epoch: int, batches: seq<seq<AuditRecord>>): (segments: seq<Segment>)
    requires AllNonempty(batches)
    ensures |segments| == |batches|
    ensures forall i | 0 <= i < |batches| :: segments[i] == SegmentOf(tenantId, epoch, batches[i])
  {
    if batches == [] then []
    else
      assert batches[0] != [];
      [SegmentOf(tenantId, epoch, batches[0])] + SegmentsOf(tenantId, epoch, batches[1..])
  }

  function Descriptors(segments: seq<Segment>): seq<SegmentDescriptor> {
    seq(|segments|, i requires 0 <= i < |segments| => segments[i].descriptor)
  }

  lemma {:induction false} BatchesCover(records: seq<AuditRecord>, size: nat)
    requires size > 0
    ensures Flatten(Batches(records, size)) == records && AllNonempty(Batches(records, size))
    ensures records != [] ==> Batches(records, size) != []
    decreases |records|
  {
    if |records| > size {
      BatchesCover(records[size..], size);
      assert Batches(records, size)[1..] == Batches(records[size..], size);
      assert records == records[..size] + records[size..];
    } else if records != [] {
      assert [records][1..] == [];
    }
  }

  /** One segment descriptor continues the manifest at `sequence` behind `previousHash`. */
  predicate SegmentContinues(s: Segment, tenantId: string, epoch: int, sequence: int, previousHash: Option<Digest>) {
    var d := s.descriptor;
    && SafePositive(d.fromSequence) && SafePositive(d.toSequence) && SafePositive(d.recordCount)
    && d.fromSequence == sequence
    && d.firstPreviousHash == previousHash
    && d.fromSequence <= d.toSequence
    && d.recordCount == d.toSequence - d.fromSequence + 1
    && s.objectKey == SegmentKey(tenantId, epoch, d.fromSequence, d.toSequence)
  }

  predicate SegmentsContinue(segments: seq<Segment>, tenantId: string, epoch: int, sequence: int, previousHash: Option<Digest>)
    decreases |segments|
  {
    segments == []
    || (&& SegmentContinues(segments[0], tenantId, epoch, sequence, previousHash)
        && SegmentsContinue(segments[1..], tenantId, epoch,
             segments[0].descriptor.toSequence + 1, Some(segments[0].descriptor.lastHash)))
  }

  predicate ValidManifest(m: Manifest) {
    && SafePositive(m.epoch) && SafePositive(m.fromSequence) && SafePositive(m.throughSequence) && SafePositive(m.recordCount)
    && m.segments != []
    && m.fromSequence <= m.throughSequence
    && m.manifestKey == ManifestKey(m.tenantId, m.epoch)
    && SegmentsContinue(m.segments, m.tenantId, m.epoch, m.fromSequence, m.fromPreviousHash)
    && m.segments[|m.segments| - 1].descriptor.toSequence == m.throughSequence
    && m.segments[|m.segments| - 1].descriptor.lastHash == m.throughHash
    && m.recordCount == m.throughSequence - m.fromSequence + 1
    && m.archiveRootHash == ArchiveRootDigest(Descriptors(m.segments))
  }

  // ---------- Deriving ----------

  /** Sequence and hash the epoch's records must continue from. */
  function Anchor(previous: Option<RetentionCheckpoint>): (int, Option<Digest>) {
    match previous
    case None => (0, None)
    case Some(p) => (p.body.throughSequence, Some(p.body.throughHash))
  }

  predicate ValidSealInput(input: SealInput) {
    && SafePositive(input.epoch)
    && SafePositive(input.segmentRecordCount)
    && input.records != []
    && (match input.previous
        case None => input.epoch == 1
        case Some(p) => ValidCheckpoint(p) && p.body.tenantId == input.tenantId && input.epoch == p.body.epoch + 1)
    && Chained(input.records, input.tenantId, Anchor(input.previous).0 + 1, Anchor(input.previous).1)
  }

  function BuildManifest(input: SealInput): Manifest
    requires ValidSealInput(input)
  {
    var records := input.records;
    BatchesCover(records, input.segmentRecordCount);
    var segments := SegmentsOf(input.tenantId, input.epoch, Batches(records, input.segmentRecordCount));
    Manifest(
      input.tenantId, input.epoch, records[0].body.sequence, records[0].body.previousHash,
      records[|records| - 1].body.sequence, records[|records| - 1].hash, |records|,
      (match input.previous case None => None case Some(p) => Some(p.hash)),
      ArchiveRootDigest(Descriptors(segments)), segments, ManifestKey(input.tenantId, input.epoch))
  }

  function DeriveEpoch(input: SealInput): Option<Manifest> {
    if ValidSealInput(input) && ValidManifest(BuildManifest(input)) then Some(BuildManifest(input)) else None
  }

  /** The first and last record of a chained batch carry its boundary fields. */
  lemma BatchEnds(batch: seq<AuditRecord>, tenantId: string, start: int, previous: Option<Digest>)
    requires batch != [] && Chained(batch, tenantId, start, previous)
    ensures batch[0].body.sequence == start && batch[0].body.previousHash == previous
    ensures batch[|batch| - 1].body.sequence == start + |batch| - 1
  {
    assert ChainedAt(batch, 0, tenantId, start, previous) && ChainedAt(batch, |batch| - 1, tenantId, start, previous);
  }

  lemma FirstBatch(batches: seq<seq<AuditRecord>>, tenantId: string, start: int, previous: Option<Digest>)
    requires batches != [] && AllNonempty(batches) && Chained(Flatten(batches), tenantId, start, previous)
    ensures batches[0] != [] && AllNonempty(batches[1..])
    ensures Chained(batches[0], tenantId, start, previous)
    ensures Chained(Flatten(batches[1..]), tenantId, start + |batches[0]|, EndHash(batches[0], previous))
    ensures Flatten(batches) == batches[0] + Flatten(batches[1..])
  {
    hide Chained;
    var all, head := Flatten(batches), batches[0];
    ChainedSplit(all, tenantId, start, previous, |head|);
    assert all[..|head|] == head && all[|head|..] == Flatten(batches[1..]);
  }

  lemma FirstSegment(tenantId: string, epoch: int, batches: seq<seq<AuditRecord>>)
    requires batches != [] && AllNonempty(batches)
    ensures batches[0] != [] && AllNonempty(batches[1..])
    ensures SegmentsOf(tenantId, epoch, batches)[0] == SegmentOf(tenantId, epoch, batches[0])
    ensures SegmentsOf(tenantId, epoch, batches)[1..] == SegmentsOf(tenantId, epoch, batches[1..])
  {
    hide SegmentOf;
  }

  lemma {:induction false} SegmentsOfChain(tenantId: string, epoch: int, batches: seq<seq<AuditRecord>>, start: int, previous: Option<Digest>)
    requires AllNonempty(batches) && Chained(Flatten(batches), tenantId, start, previous)
    requires 1 <= start && start + |Flatten(batches)| - 1 <= MAX_SAFE_INTEGER
    ensures SegmentsContinue(SegmentsOf(tenantId, epoch, batches), tenantId, epoch, start, previous)
    decreases |batches|
  {
    hide Flatten, AllNonempty, EncodeNdjson, SegmentsOf, Chained;
    if batches != [] {
      var head := batches[0];
      FirstBatch(batches, tenantId, start, previous);
      FirstSegment(tenantId, epoch, batches);
      BatchEnds(head, tenantId, start, previous);
      assert SegmentContinues(SegmentOf(tenantId, epoch, head), tenantId, epoch, start, previous);
      SegmentsOfChain(tenantId, epoch, batches[1..], start + |head|, EndHash(head, previous));
    }
  }

  lemma {:induction false} LastOfFlatten(batches: seq<seq<AuditRecord>>)
    requires AllNonempty(batches) && batches != []
    ensures Flatten(batches) != [] && batches[|batches| - 1] != []
    ensures Flatten(batches)[|Flatten(batches)| - 1] == batches[|batches| - 1][|batches[|batches| - 1]| - 1]
    decreases |batches|
  {
    assert batches[0] != [] && batches[|batches| - 1] != [];
    if |batches| > 1 {
      LastOfFlatten(batches[1..]);
    }
  }

  lemma InputBoundaries(input: SealInput)
    requires ValidSealInput(input)
    ensures BuildManifest(input).fromSequence == Anchor(input.previous).0 + 1 >= 1
    ensures BuildManifest(input).fromPreviousHash == Anchor(input.previous).1
    ensures BuildManifest(input).throughSequence == Anchor(input.previous).0 + |input.records|
  {
    hide Chained;
    BatchEnds(input.records, input.tenantId, Anchor(input.previous).0 + 1, Anchor(input.previous).1);
  }

  lemma InputSegments(input: SealInput)
    requires ValidSealInput(input) && Anchor(input.previous).0 + |input.records| <= MAX_SAFE_INTEGER
    ensures var m := BuildManifest(input);
            && m.segments != []
            && SegmentsContinue(m.segments, m.tenantId, m.epoch, m.fromSequence, m.fromPreviousHash)
  {
    hide ValidCheckpoint, Batches, EncodeNdjson, Chained, AllNonempty, Flatten;
    var batches := Batches(input.records, input.segmentRecordCount);
    BatchesCover(input.records, input.segmentRecordCount);
    InputBoundaries(input);
    SegmentsOfChain(input.tenantId, input.epoch, batches, Anchor(input.previous).0 + 1, Anchor(input.previous).1);
  }

  lemma InputLastSegment(input: SealInput)
    requires ValidSealInput(input) && BuildManifest(input).segments != []
    ensures var m := BuildManifest(input); var last := m.segments[|m.segments| - 1].descriptor;
            last.toSequence == m.throughSequence && last.lastHash == m.throughHash
  {
    hide Batches, EncodeNdjson, AllNonempty, Flatten;
    var batches := Batches(input.records, input.segmentRecordCount);
    BatchesCover(input.records, input.segmentRecordCount);
    LastOfFlatten(batches);
  }

  /** Every hash-linked range of safe sequences derives a manifest, for every segment size. */
  lemma DerivedManifestIsValid(input: SealInput)
    requires ValidSealInput(input) && Anchor(input.previous).0 + |input.records| <= MAX_SAFE_INTEGER
    ensures DeriveEpoch(input) == Some(BuildManifest(input))
  {
    hide ValidCheckpoint, Batches, Chained, SegmentsOf, SegmentsContinue, Anchor;
    InputBoundaries(input);
    InputSegments(input);
    InputLastSegment(input);
  }
}
