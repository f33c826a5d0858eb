/**
 The records, checkpoints, receipts, manifests and commits of the evidence protocol.

 Hashes are symbolic: a digest is the very payload that was hashed, with one constructor
 per payload shape, so a digest determines its payload and no collision axiom is needed.
 Canonical JSON is value equality; an encoded record or manifest is one symbol of a text.
 */
module Protocol {
  import opened Wrappers

  const MAX_SAFE_INTEGER: int := 9007199254740991

  // ---------- Protocol constants: the one supported value, or any other text ----------

  datatype HashAlgorithm = Sha256 | OtherAlgorithm(name: string)
  datatype Canonicalization = VeritioJsonV1 | OtherCanonicalization(name: string)
  datatype TreeAlgorithm = VeritioMerkleV1 | OtherTree(name: string)
  datatype ChainKind = AuditChain | OtherChain(name: string)
  /** Record type, schema version, canonicalization and hash algorithm of a retention record. */
  datatype RetentionHeader = SupportedHeader | OtherHeader(name: string)

  // ---------- Payloads ----------

  /** Audit events and evidence edges live in separate chains with the same envelope. */
  datatype EvidenceKind = AuditKind | EdgeKind

  datatype Event = Event(kind: EvidenceKind, tenantId: string, id: string, body: string)

  datatype RecordBody = RecordBody(
    event: Event,
    sequence: int,
    previousHash: Option<Digest>,
    hashAlgorithm: HashAlgorithm,
    canonicalization: Canonicalization,
    appendedAt: int,
    idempotencyKeyHash: Digest)

  datatype AuditRecord = AuditRecord(body: RecordBody, hash: Digest)

  datatype CheckpointBody = CheckpointBody(
    header: RetentionHeader,
    checkpointId: string,
    tenantId: string,
    chainKind: ChainKind,
    epoch: int,
    fromSequence: int,
    fromPreviousHash: Option<Digest>,
    throughSequence: int,
    throughHash: Digest,
    recordCount: int,
    archiveRootHash: Digest,
    previousCheckpointHash: Option<Digest>,
    createdAt: int)

  datatype RetentionCheckpoint = RetentionCheckpoint(body: CheckpointBody, hash: Digest)

  datatype DispositionBody = DispositionBody(
    header: RetentionHeader,
    dispositionId: string,
    tenantId: string,
    chainKind: ChainKind,
    checkpointHash: Digest,
    fromSequence: int,
    throughSequence: int,
    archiveRootHash: Digest,
    policyReference: string,
    disposedAt: int)

  datatype RetentionDisposition = RetentionDisposition(body: DispositionBody, hash: Digest)

  /** The portable fields of a staged segment that the archive root commits to. */
  datatype SegmentDescriptor = SegmentDescriptor(
    fromSequence: int,
    toSequence: int,
    recordCount: int,
    firstPreviousHash: Option<Digest>,
    lastHash: Digest,
    contentSha256: Digest)

  /** Provider keys; `Foreign` stands for any other name under an epoch's prefix. */
  datatype ObjectKey =
    | SegmentKey(tenantId: string, epoch: int, fromSequence: int, toSequence: int)
    | ManifestKey(tenantId: string, epoch: int)
    | ForeignKey(tenantId: string, epoch: int, name: string)

  datatype Segment = Segment(descriptor: SegmentDescriptor, objectKey: ObjectKey)

  datatype Manifest = Manifest(
    tenantId: string,
    epoch: int,
    fromSequence: int,
    fromPreviousHash: Option<Digest>,
    throughSequence: int,
    throughHash: Digest,
    recordCount: int,
    previousCheckpointHash: Option<Digest>,
    archiveRootHash: Digest,
    segments: seq<Segment>,
    manifestKey: ObjectKey)

  /** A text: the canonical JSON of one value contains no newline and is one symbol. */
  datatype Symbol =
    | Newline
    | CanonicalRecord(record: AuditRecord)
    | CanonicalManifest(manifest: Manifest)
    | Character(c: char)

  type Bytes = seq<Symbol>

  datatype MemberType =
    | AuditRecordMember | EdgeRecordMember | EntityRevisionMember
    | ActivityMember | AssertionMember | ChangeMember | UnsupportedMember(name: string)

  datatype CommitMember = CommitMember(index: int, recordType: MemberType, recordId: string, recordHash: Digest)

  datatype CommitBody = CommitBody(
    commitId: string,
    streamId: string,
    sequence: int,
    previousCommitHash: Option<Digest>,
    members: seq<CommitMember>,
    recordCount: int,
    recordsRoot: Digest,
    canonicalization: Canonicalization,
    hashAlgorithm: HashAlgorithm,
    treeAlgorithm: TreeAlgorithm,
    committedAt: int)

  datatype EvidenceCommit = EvidenceCommit(body: CommitBody, hash: Digest)

  // ---------- Digests ----------

  datatype Digest =
    | RecordDigest(record: RecordBody)
    | KeyDigest(preimage: string)
    | EventDigest(event: Event)
    | CheckpointDigest(checkpoint: CheckpointBody)
    | DispositionDigest(receipt: DispositionBody)
    | ContentDigest(bytes: Bytes)
    | ArchiveRootDigest(segments: seq<SegmentDescriptor>)
    | LeafDigest(member: CommitMember)
    | NodeDigest(left: Digest, right: Digest)
    | CommitDigest(commit: CommitBody)
    | OtherDigest(text: string)

  /** The tenant-bound digest of an idempotency key. */
  function HashIdempotencyKey(tenantId: string, key: string): Digest {
    KeyDigest(tenantId + ['\0'] + key)
  }

  predicate Blank(s: string) {
    forall i | 0 <= i < |s| :: s[i] in {' ', '\t', '\n', '\r'}
  }

  predicate SafePositive(n: int) {
    1 <= n <= MAX_SAFE_INTEGER
  }

  // ---------- Hash-linked record ranges ----------

  /** A record of the tenant whose stored hash is its own. */
  predicate HashedRecord(r: AuditRecord, tenantId: string) {
    r.body.event.tenantId == tenantId && r.hash == RecordDigest(r.body)
  }

  /** A record's envelope as the chain verifiers check it: tenant, algorithm tags and own hash. */
  predicate IntactRecord(r: AuditRecord, tenantId: string) {
    && HashedRecord(r, tenantId)
    && r.body.hashAlgorithm == Sha256
    && r.body.canonicalization == VeritioJsonV1
  }

  /** The hash that record `i` of a range that starts after `previous` must link to. */
  function LinkAt(records: seq<AuditRecord>, i: nat, previous: Option<Digest>): Option<Digest>
    requires i <= |records|
  {
    if i == 0 then previous else Some(records[i - 1].hash)
  }

  /** The hash a range that starts after `previous` ends on. */
  function EndHash(records: seq<AuditRecord>, previous: Option<Digest>): Option<Digest> {
    LinkAt(records, |records|, previous)
  }

  predicate LinkedAt(records: seq<AuditRecord>, i: nat, tenantId: string, start: int, previous: Option<Digest>)
    requires i < |records|
  {
    && IntactRecord(records[i], tenantId)
    && records[i].body.sequence == start + i
    && records[i].body.previousHash == LinkAt(records, i, previous)
  }

  /** `records` is numbered from `start` and hash-linked onto `previous`. */
  predicate LinkedRange(records: seq<AuditRecord>, tenantId: string, start: int, previous: Option<Digest>) {
    forall i | 0 <= i < |records| :: LinkedAt(records, i, tenantId, start, previous)
  }

  lemma LinkedRangePart(records: seq<AuditRecord>, tenantId: string, start: int, previous: Option<Digest>, lo: nat, hi: nat)
    requires LinkedRange(records, tenantId, start, previous) && lo <= hi <= |records|
    ensures LinkedRange(records[lo..hi], tenantId, start + lo, LinkAt(records, lo, previous))
    ensures EndHash(records[lo..hi], LinkAt(records, lo, previous)) == LinkAt(records, hi, previous)
  {
    var part, first, link := records[lo..hi], start + lo, LinkAt(records, lo, previous);
    forall i | 0 <= i < |part| ensures LinkedAt(part, i, tenantId, first, link) {
      assert LinkedAt(records, lo + i, tenantId, start, previous);
    }
  }

  lemma LinkedRangeConcat(a: seq<AuditRecord>, b: seq<AuditRecord>, tenantId: string, start: int, previous: Option<Digest>)
    requires LinkedRange(a, tenantId, start, previous)
    requires LinkedRange(b, tenantId, start + |a|, EndHash(a, previous))
    ensures LinkedRange(a + b, tenantId, start, previous)
    ensures EndHash(b, EndHash(a, previous)) == EndHash(a + b, previous)
  {
    forall i | 0 <= i < |a + b| ensures LinkedAt(a + b, i, tenantId, start, previous) {
      if i < |a| {
        assert LinkedAt(a, i, tenantId, start, previous);
      } else {
        assert LinkedAt(b, i - |a|, tenantId, start + |a|, EndHash(a, previous));
      }
    }
  }

  /** `LinkedAt` without the algorithm tags, which the staging archive does not look at. */
  predicate ChainedAt(records: seq<AuditRecord>, i: nat, tenantId: string, start: int, previous: Option<Digest>)
    requires i < |records|
  {
    && HashedRecord(records[i], tenantId)
    && records[i].body.sequence == start + i
    && records[i].body.previousHash == LinkAt(records, i, previous)
  }

  predicate Chained(records: seq<AuditRecord>, tenantId: string, start: int, previous: Option<Digest>) {
    forall i | 0 <= i < |records| :: ChainedAt(records, i, tenantId, start, previous)
  }

  lemma LinkedIsChained(records: seq<AuditRecord>, tenantId: string, start: int, previous: Option<Digest>)
    requires LinkedRange(records, tenantId, start, previous)
    ensures Chained(records, tenantId, start, previous)
  {
    forall i | 0 <= i < |records| ensures ChainedAt(records, i, tenantId, start, previous) {
      assert LinkedAt(records, i, tenantId, start, previous);
    }
  }

  lemma ChainedSplit(records: seq<AuditRecord>, tenantId: string, start: int, previous: Option<Digest>, k: nat)
    requires k <= |records|
    ensures Chained(records, tenantId, start, previous)
       <==> Chained(records[..k], tenantId, start, previous)
            && Chained(records[k..], tenantId, start + k, EndHash(records[..k], previous))
    ensures EndHash(records[k..], EndHash(records[..k], previous)) == EndHash(records, previous)
  {
    var a, b, middle, link := records[..k], records[k..], start + k, EndHash(records[..k], previous);
    if Chained(records, tenantId, start, previous) {
      forall i | 0 <= i < |a| ensures ChainedAt(a, i, tenantId, start, previous) {
        assert ChainedAt(records, i, tenantId, start, previous);
      }
      forall i | 0 <= i < |b| ensures ChainedAt(b, i, tenantId, middle, link) {
        assert ChainedAt(records, k + i, tenantId, start, previous);
      }
    }
    if Chained(a, tenantId, start, previous) && Chained(b, tenantId, middle, link) {
      forall i | 0 <= i < |records| ensures ChainedAt(records, i, tenantId, start, previous) {
        if i < k {
          assert ChainedAt(a, i, tenantId, start, previous);
        } else {
          assert ChainedAt(b, i - k, tenantId, middle, link);
        }
      }
    }
  }

  /**
   A hash chain is determined by its end: two nonempty ranges that start after the same
   position and end on the same hash are the same records.
   */
  lemma ChainDetermined(a: seq<AuditRecord>, b: seq<AuditRecord>, tenantId: string, start: int, previous: Option<Digest>)
    requires Chained(a, tenantId, start, previous) && Chained(b, tenantId, start, previous)
    requires a != [] && b != [] && a[|a| - 1].hash == b[|b| - 1].hash
    ensures a == b
  {
    assert ChainedAt(a, |a| - 1, tenantId, start, previous) && ChainedAt(b, |b| - 1, tenantId, start, previous);
    SameFromEnd(a, b, tenantId, start, previous, |a| - 1);
  }

  lemma {:induction false} SameFromEnd(
      a: seq<AuditRecord>, b: seq<AuditRecord>, tenantId: string, start: int, previous: Option<Digest>, i: nat)
    requires Chained(a, tenantId, start, previous) && Chained(b, tenantId, start, previous)
    requires i < |a| == |b| && a[i].hash == b[i].hash
    ensures a[..i + 1] == b[..i + 1]
    decreases i
  {
    assert ChainedAt(a, i, tenantId, start, previous) && ChainedAt(b, i, tenantId, start, previous);
    if i > 0 {
      SameFromEnd(a, b, tenantId, start, previous, i - 1);
    }
    assert a[..i + 1] == a[..i] + [a[i]] && b[..i + 1] == b[..i] + [b[i]];
  }
}
