/**
 The commit ledger: a commit's members in normal order, commits independent of the order their
 members came in, and the verifier that follows every stream at once.
 */
module CommitLedger {
  import opened Wrappers
  import opened Protocol
  import opened MerkleTree

  // ---------- Members ----------

  predicate DigestText(d: Digest) {
    !d.OtherDigest?
  }

  predicate CleanMember(m: CommitMember) {
    && 0 <= m.index
    && !m.recordType.UnsupportedMember?
    && !Blank(m.recordId)
    && DigestText(m.recordHash)
  }

  predicate SameRecord(a: CommitMember, b: CommitMember) {
    a.recordType == b.recordType && a.recordId == b.recordId
  }

  predicate DistinctRecords(members: seq<CommitMember>) {
    forall i, j | 0 <= i < j < |members| :: !SameRecord(members[i], members[j])
  }

  predicate AllClean(members: seq<CommitMember>) {
    forall m | m in members :: CleanMember(m)
  }

  /** A member list as a commit stores it. */
  predicate Normal(members: seq<CommitMember>) {
    members != [] && AllClean(members) && Indexed(members) && DistinctRecords(members)
  }

  predicate NormalOrderOf(members: seq<CommitMember>, of: multiset<CommitMember>) {
    Normal(members) && multiset(members) == of
  }

  /** The one normal list with these members, if there is one. */
  ghost function Normalized(of: multiset<CommitMember>): Option<seq<CommitMember>> {
    if exists s :: NormalOrderOf(s, of) then
      var s :| NormalOrderOf(s, of);
      Some(s)
    else None
  }

  predicate SortedByIndex(members: seq<CommitMember>) {
    forall i, j | 0 <= i < j < |members| :: members[i].index <= members[j].index
  }

  predicate IndexedFrom(members: seq<CommitMember>, first: int) {
    forall i | 0 <= i < |members| :: members[i].index == first + i
  }

  /** Sorting a permutation of a list that counts up gives that list. */
  lemma {:induction false} SortedIsCounted(s: seq<CommitMember>, t: seq<CommitMember>, first: int)
    requires SortedByIndex(s) && IndexedFrom(t, first) && multiset(s) == multiset(t)
    ensures s == t
    decreases |t|
  {
    hide SortedByIndex, IndexedFrom;
    SameSize(s, t);
    if t != [] {
      SameHead(s, t, first);
      WithoutHead(s);
      WithoutHead(t);
      SortedRest(s);
      CountedRest(t, first);
      SortedIsCounted(s[1..], t[1..], first + 1);
      assert s == [s[0]] + s[1..] && t == [t[0]] + t[1..];
    }
  }

  lemma SortedRest(s: seq<CommitMember>)
    requires SortedByIndex(s) && s != []
    ensures SortedByIndex(s[1..])
  {
  }

  lemma CountedRest(t: seq<CommitMember>, first: int)
    requires IndexedFrom(t, first) && t != []
    ensures IndexedFrom(t[1..], first + 1)
  {
  }

  lemma SameHead(s: seq<CommitMember>, t: seq<CommitMember>, first: int)
    requires SortedByIndex(s) && IndexedFrom(t, first) && multiset(s) == multiset(t) && s != [] && t != []
    ensures s[0] == t[0]
  {
    assert t[0] in multiset(t) && s[0] in multiset(s);
    var i :| 0 <= i < |s| && s[i] == t[0];
    var j :| 0 <= j < |t| && t[j] == s[0];
  }

  lemma WithoutHead(s: seq<CommitMember>)
    requires s != []
    ensures multiset(s[1..]) == multiset(s) - multiset{s[0]}
  {
    assert s == [s[0]] + s[1..];
  }

  lemma SameSize(s: seq<CommitMember>, t: seq<CommitMember>)
    requires multiset(s) == multiset(t)
    ensures |s| == |t|
  {
    assert |multiset(s)| == |multiset(t)|;
  }

  lemma NormalIsUnique(s: seq<CommitMember>, t: seq<CommitMember>)
    requires Normal(s) && Normal(t) && multiset(s) == multiset(t)
    ensures s == t
  {
    SortedIsCounted(s, t, 0);
  }

  method SortByIndex(members: seq<CommitMember>) returns (sorted: seq<CommitMember>)
    ensures SortedByIndex(sorted) && multiset(sorted) == multiset(members)
  {
    sorted := [];
    for i := 0 to |members|
      invariant SortedByIndex(sorted) && multiset(sorted) == multiset(members[..i])
    {
      var at := |sorted|;
      while at > 0 && sorted[at - 1].index > members[i].index
        invariant 0 <= at <= |sorted|
        invariant forall j | at <= j < |sorted| :: sorted[j].index > members[i].index
      {
        at := at - 1;
      }
      InsertedAt(sorted, at, members[i]);
      assert members[..i + 1] == members[..i] + [members[i]];
      sorted := sorted[..at] + [members[i]] + sorted[at..];
    }
    assert members[..|members|] == members;
  }

  lemma InsertedAt(sorted: seq<CommitMember>, at: nat, m: CommitMember)
    requires SortedByIndex(sorted) && at <= |sorted|
    requires at > 0 ==> sorted[at - 1].index <= m.index
    requires forall j | at <= j < |sorted| :: sorted[j].index > m.index
    ensures SortedByIndex(sorted[..at] + [m] + sorted[at..])
    ensures multiset(sorted[..at] + [m] + sorted[at..]) == multiset(sorted) + multiset{m}
  {
    InsertedElements(sorted, at, m);
    var longer := sorted[..at] + [m] + sorted[at..];
    forall i, j | 0 <= i < j < |longer| ensures longer[i].index <= longer[j].index {
      assert longer[i] == if i < at then sorted[i] else if i == at then m else sorted[i - 1];
      assert longer[j] == if j < at then sorted[j] else if j == at then m else sorted[j - 1];
    }
  }

  lemma InsertedElements(sorted: seq<CommitMember>, at: nat, m: CommitMember)
    requires at <= |sorted|
    ensures multiset(sorted[..at] + [m] + sorted[at..]) == multiset(sorted) + multiset{m}
  {
    assert sorted == sorted[..at] + sorted[at..];
  }

  /** Cleans, sorts by index, and requires contiguous indices and distinct records. */
  method NormalizeCommitMembers(members: seq<CommitMember>) returns (r: Option<seq<CommitMember>>)
    ensures r == Normalized(multiset(members))
  {
    hide Normalized, Normal, SameRecord;
    if members == [] {
      NoNormalOrder(members, members);
      return None;
    }
    for i := 0 to |members|
      invariant forall j | 0 <= j < i :: CleanMember(members[j])
    {
      if !CleanMember(members[i]) {
        NoNormalOrder(members, members);
        return None;
      }
    }
    var cleaned := SortByIndex(members);
    var identities: set<(MemberType, string)> := {};
    for i := 0 to |cleaned|
      invariant forall j | 0 <= j < i :: cleaned[j].index == j
      invariant forall j | 0 <= j < i :: (cleaned[j].recordType, cleaned[j].recordId) in identities
      invariant forall x | x in identities :: exists j :: 0 <= j < i && (cleaned[j].recordType, cleaned[j].recordId) == x
      invariant DistinctRecords(cleaned[..i])
    {
      var m := cleaned[i];
      var identity := (m.recordType, m.recordId);
      if m.index != i || identity in identities {
        NotNormal(cleaned, i);
        NoNormalOrder(members, cleaned);
        return None;
      }
      StillDistinct(cleaned, i);
      identities := identities + {identity};
    }
    assert cleaned[..|cleaned|] == cleaned;
    NormalFound(members, cleaned);
    return Some(cleaned);
  }

  lemma StillDistinct(cleaned: seq<CommitMember>, i: nat)
    requires i < |cleaned| && DistinctRecords(cleaned[..i])
    requires forall j | 0 <= j < i ::
               (cleaned[j].recordType, cleaned[j].recordId) != (cleaned[i].recordType, cleaned[i].recordId)
    ensures DistinctRecords(cleaned[..i + 1])
  {
    var longer := cleaned[..i + 1];
    forall a, b | 0 <= a < b < |longer| ensures !SameRecord(longer[a], longer[b]) {
      if b < i {
        assert !SameRecord(cleaned[..i][a], cleaned[..i][b]);
      }
    }
  }

  lemma NotNormal(cleaned: seq<CommitMember>, i: nat)
    requires i < |cleaned|
    requires cleaned[i].index != i
          || exists j :: 0 <= j < i && (cleaned[j].recordType, cleaned[j].recordId) == (cleaned[i].recordType, cleaned[i].recordId)
    ensures !Normal(cleaned)
  {
    if cleaned[i].index == i {
      var j :| 0 <= j < i && (cleaned[j].recordType, cleaned[j].recordId) == (cleaned[i].recordType, cleaned[i].recordId);
      assert SameRecord(cleaned[j], cleaned[i]);
    }
  }

  /** A sorted permutation that is not normal, or a bad member, rules out every order. */
  lemma NoNormalOrder(members: seq<CommitMember>, sorted: seq<CommitMember>)
    requires multiset(sorted) == multiset(members)
    requires members == [] || (exists m :: m in members && !CleanMember(m)) || (SortedByIndex(sorted) && !Normal(sorted))
    ensures Normalized(multiset(members)) == None
  {
    hide CleanMember, SortedByIndex, DistinctRecords, Normalized;
    forall s ensures !NormalOrderOf(s, multiset(members)) {
      if multiset(s) == multiset(members) {
        SameSize(s, members);
        SameElements(s, members);
        if SortedByIndex(sorted) && Normal(s) {
          CountsFromZero(s);
          SortedIsCounted(sorted, s, 0);
        }
      }
    }
    NoOrder(multiset(members));
  }

  lemma CountsFromZero(s: seq<CommitMember>)
    requires Normal(s)
    ensures IndexedFrom(s, 0)
  {
  }

  lemma SameElements(s: seq<CommitMember>, t: seq<CommitMember>)
    requires multiset(s) == multiset(t)
    ensures forall m | m in t :: m in s
  {
    forall m | m in t ensures m in s {
      assert m in multiset(t);
      assert m in multiset(s);
    }
  }

  lemma NoOrder(of: multiset<CommitMember>)
    requires forall s :: !NormalOrderOf(s, of)
    ensures Normalized(of).None?
  {
    hide Normal;
  }

  lemma NormalFound(members: seq<CommitMember>, cleaned: seq<CommitMember>)
    requires members != [] && (forall j | 0 <= j < |members| :: CleanMember(members[j]))
    requires multiset(cleaned) == multiset(members) && Indexed(cleaned) && DistinctRecords(cleaned)
    ensures Normalized(multiset(members)) == Some(cleaned) && Normal(cleaned)
  {
    hide DistinctRecords, Indexed, CleanMember;
    SameSize(cleaned, members);
    forall m | m in cleaned ensures CleanMember(m) {
      assert m in multiset(cleaned);
      assert m in multiset(members);
    }
    assert NormalOrderOf(cleaned, multiset(members));
    var s := Normalized(multiset(members)).value;
    NormalIsUnique(s, cleaned);
  }

  // ---------- Creating commits ----------

  datatype CommitInput = CommitInput(
    commitId: string, streamId: string, sequence: int, previousCommitHash: Option<Digest>,
    members: seq<CommitMember>, committedAt: int)

  predicate ValidCommitInput(input: CommitInput) {
    && !Blank(input.commitId) && !Blank(input.streamId) && input.sequence >= 1
    && (input.previousCommitHash.Some? ==> DigestText(input.previousCommitHash.value))
  }

  ghost function CommitOf(input: CommitInput): Option<EvidenceCommit> {
    match Normalized(multiset(input.members))
    case None => None
    case Some(members) =>
      if !ValidCommitInput(input) || members == [] then None
      else
        var body := CommitBody(
          input.commitId, input.streamId, input.sequence, input.previousCommitHash, members, |members|,
          RecordsRoot(members), VeritioJsonV1, Sha256, VeritioMerkleV1, input.committedAt);
        Some(EvidenceCommit(body, CommitDigest(body)))
  }

  lemma NormalizedIfAny(of: multiset<CommitMember>)
    ensures Normalized(of).Some? <==> exists members :: NormalOrderOf(members, of)
  {
    hide Normal;
  }

  /** The commit says what it was asked to, with the members in normal order. */
  predicate SaysInput(b: CommitBody, input: CommitInput) {
    && b.commitId == input.commitId && b.streamId == input.streamId && b.sequence == input.sequence
    && b.previousCommitHash == input.previousCommitHash && b.committedAt == input.committedAt
    && NormalOrderOf(b.members, multiset(input.members)) && b.recordCount == |b.members|
  }

  method CreateEvidenceCommit(input: CommitInput) returns (r: Option<EvidenceCommit>)
    ensures r == CommitOf(input)
    ensures r.Some? <==> ValidCommitInput(input) && exists members :: NormalOrderOf(members, multiset(input.members))
    ensures r.Some? ==> Intact(r.value) && SaysInput(r.value.body, input)
  {
    hide Normalized, Normal;
    NormalizedIfAny(multiset(input.members));
    if !ValidCommitInput(input) { return None; }
    var members := NormalizeCommitMembers(input.members);
    if members.None? { return None; }
    NormalizedIsNormal(input.members);
    var root := ComputeRecordsRoot(members.value);
    var body := CommitBody(
      input.commitId, input.streamId, input.sequence, input.previousCommitHash, members.value, |members.value|,
      root, VeritioJsonV1, Sha256, VeritioMerkleV1, input.committedAt);
    CreatedIsIntact(input);
    return Some(EvidenceCommit(body, CommitDigest(body)));
  }

  /** A created commit is intact and keeps members that were already indexed as they were. */
  lemma CreatedIsIntact(input: CommitInput)
    requires CommitOf(input).Some?
    ensures Intact(CommitOf(input).value) && Normal(CommitOf(input).value.body.members)
    ensures Indexed(input.members) ==> CommitOf(input).value.body.members == input.members
  {
    hide Normalized, Normal, RecordsRoot, Indexed;
    NormalizedIsNormal(input.members);
    var members := Normalized(multiset(input.members)).value;
    NormalizeIsIdempotent(members);
    NotBlankIsNonempty(input.streamId);
    if Indexed(input.members) {
      IndexedIsNormal(input.members, members);
    }
  }

  lemma NotBlankIsNonempty(s: string)
    ensures !Blank(s) ==> s != []
  {
  }

  lemma IndexedIsNormal(given: seq<CommitMember>, members: seq<CommitMember>)
    requires Indexed(given) && Normal(members) && multiset(members) == multiset(given)
    ensures members == given
  {
    SortedIsCounted(members, given, 0);
  }

  lemma NormalizedIsNormal(members: seq<CommitMember>)
    requires Normalized(multiset(members)).Some?
    ensures Normal(Normalized(multiset(members)).value) && Normalized(multiset(members)).value != []
    ensures multiset(Normalized(multiset(members)).value) == multiset(members)
  {
  }

  lemma NormalizeIsIdempotent(members: seq<CommitMember>)
    requires Normal(members)
    ensures Normalized(multiset(members)) == Some(members)
  {
    assert NormalOrderOf(members, multiset(members));
    NormalIsUnique(Normalized(multiset(members)).value, members);
  }

  /** A commit does not depend on the order its members were given in. */
  lemma CommitIgnoresMemberOrder(a: CommitInput, b: CommitInput)
    requires multiset(a.members) == multiset(b.members) && a.(members := b.members) == b
    ensures CommitOf(a) == CommitOf(b)
  {
    hide Normalized, RecordsRoot;
  }

  // ---------- Verifying streams ----------

  /** What a commit shows on its own, whatever chain it stands in. */
  ghost predicate Intact(c: EvidenceCommit) {
    && c.body.hashAlgorithm == Sha256
    && c.body.canonicalization == VeritioJsonV1
    && c.body.treeAlgorithm == VeritioMerkleV1
    && c.body.streamId != []
    && (match Normalized(multiset(c.body.members))
        case None => false
        case Some(members) =>
          members != [] && c.body.recordCount == |members| && c.body.recordsRoot == RecordsRoot(members))
    && c.hash == CommitDigest(c.body)
  }

  /** A stored commit may list its members out of order, as long as its own hash covers that order. */
  lemma StoredOrderIsNotChecked(c: EvidenceCommit, members: seq<CommitMember>)
    requires Intact(c) && multiset(members) == multiset(c.body.members)
    ensures var body := c.body.(members := members); Intact(EvidenceCommit(body, CommitDigest(body)))
  {
    hide Normalized, RecordsRoot;
  }

  function OfStream(commits: seq<EvidenceCommit>, streamId: string): seq<EvidenceCommit> {
    if commits == [] then []
    else
      OfStream(commits[..|commits| - 1], streamId)
      + if commits[|commits| - 1].body.streamId == streamId then [commits[|commits| - 1]] else []
  }

  function LastCommitHash(stream: seq<EvidenceCommit>): Option<Digest> {
    if stream == [] then None else Some(stream[|stream| - 1].hash)
  }

  /** `c` may follow the commits of its stream. */
  ghost predicate Follows(c: EvidenceCommit, stream: seq<EvidenceCommit>) {
    Intact(c) && c.body.previousCommitHash == LastCommitHash(stream) && c.body.sequence == |stream| + 1
  }

  ghost predicate CommitChain(stream: seq<EvidenceCommit>) {
    forall i | 0 <= i < |stream| :: Follows(stream[i], stream[..i])
  }

  /** Every stream's own commits form a chain. */
  ghost predicate AllStreamsChain(commits: seq<EvidenceCommit>) {
    forall streamId: string :: CommitChain(OfStream(commits, streamId))
  }

  datatype CommitReason =
    | UnsupportedHash | UnsupportedCanonical | UnsupportedTree | InvalidMemberManifest
    | PreviousCommitMismatch | CommitSequenceMismatch | RecordCountMismatch | RecordsRootMismatch | CommitHashMismatch

  datatype CommitVerdict = CommitsAccepted | CommitsRejected(index: nat, reason: CommitReason)

  datatype StreamState = StreamState(previousHash: Option<Digest>, sequence: int)

  function StateOf(stream: seq<EvidenceCommit>): StreamState {
    StreamState(LastCommitHash(stream), |stream|)
  }

  /** The first check the commit fails behind the state of its stream. */
  ghost function Fault(c: EvidenceCommit, state: StreamState): Option<CommitReason> {
    var b := c.body;
    if b.hashAlgorithm != Sha256 then Some(UnsupportedHash)
    else if b.canonicalization != VeritioJsonV1 then Some(UnsupportedCanonical)
    else if b.treeAlgorithm != VeritioMerkleV1 then Some(UnsupportedTree)
    else if b.streamId == [] then Some(InvalidMemberManifest)
    else if b.previousCommitHash != state.previousHash then Some(PreviousCommitMismatch)
    else if b.sequence != state.sequence + 1 then Some(CommitSequenceMismatch)
    else match Normalized(multiset(b.members))
      case None => Some(InvalidMemberManifest)
      case Some(members) =>
        if b.recordCount != |members| then Some(RecordCountMismatch)
        else if members == [] || b.recordsRoot != RecordsRoot(members) then Some(RecordsRootMismatch)
        else if c.hash != CommitDigest(b) then Some(CommitHashMismatch)
        else None
  }

  method CheckCommit(c: EvidenceCommit, state: StreamState) returns (fault: Option<CommitReason>)
    ensures fault == Fault(c, state)
  {
    hide Normalized, Normal, RecordsRoot;
    var b := c.body;
    if b.hashAlgorithm != Sha256 { return Some(UnsupportedHash); }
    if b.canonicalization != VeritioJsonV1 { return Some(UnsupportedCanonical); }
    if b.treeAlgorithm != VeritioMerkleV1 { return Some(UnsupportedTree); }
    if b.streamId == [] { return Some(InvalidMemberManifest); }
    if b.previousCommitHash != state.previousHash { return Some(PreviousCommitMismatch); }
    if b.sequence != state.sequence + 1 { return Some(CommitSequenceMismatch); }
    var members := NormalizeCommitMembers(b.members);
    if members.None? { return Some(InvalidMemberManifest); }
    if b.recordCount != |members.value| { return Some(RecordCountMismatch); }
    NormalizedIsNormal(b.members);
    var root := ComputeRecordsRoot(members.value);
    if b.recordsRoot != root { return Some(RecordsRootMismatch); }
    if c.hash != CommitDigest(b) { return Some(CommitHashMismatch); }
    return None;
  }

  lemma NoFaultFollows(c: EvidenceCommit, stream: seq<EvidenceCommit>)
    ensures Fault(c, StateOf(stream)).None? <==> Follows(c, stream)
  {
    hide Normalized, RecordsRoot;
  }

  /** Appending a commit touches only its own stream. */
  lemma OfStreamAppend(commits: seq<EvidenceCommit>, c: EvidenceCommit, streamId: string)
    ensures OfStream(commits + [c], streamId)
         == OfStream(commits, streamId) + if c.body.streamId == streamId then [c] else []
  {
    assert (commits + [c])[..|commits|] == commits;
  }

  lemma ChainAppend(stream: seq<EvidenceCommit>, c: EvidenceCommit)
    requires CommitChain(stream)
    ensures CommitChain(stream + [c]) <==> Follows(c, stream)
  {
    hide Follows;
    assert (stream + [c])[..|stream|] == stream && (stream + [c])[|stream|] == c;
    forall i | 0 <= i < |stream| ensures Follows((stream + [c])[i], (stream + [c])[..i]) {
      assert (stream + [c])[..i] == stream[..i];
    }
  }

  /** An accepted list stays accepted exactly when the next commit follows in its stream. */
  lemma StreamsAppend(commits: seq<EvidenceCommit>, c: EvidenceCommit)
    requires AllStreamsChain(commits)
    ensures AllStreamsChain(commits + [c]) <==> Follows(c, OfStream(commits, c.body.streamId))
  {
    hide Follows, CommitChain, OfStream;
    forall s: string ensures CommitChain(OfStream(commits + [c], s))
                        <==> (s == c.body.streamId ==> Follows(c, OfStream(commits, s)))
    {
      assert CommitChain(OfStream(commits, s));
      OfStreamAppend(commits, c, s);
      ChainAppend(OfStream(commits, s), c);
      assert OfStream(commits, s) + [] == OfStream(commits, s);
    }
  }

  lemma ChainPrefix(stream: seq<EvidenceCommit>, k: nat)
    requires CommitChain(stream) && k <= |stream|
    ensures CommitChain(stream[..k])
  {
    hide Follows;
    forall i | 0 <= i < k ensures Follows(stream[..k][i], stream[..k][..i]) {
      assert stream[..k][..i] == stream[..i];
    }
  }

  /** Acceptance is inherited by every front of the list. */
  lemma {:induction false} StreamsPrefix(commits: seq<EvidenceCommit>, k: nat)
    requires AllStreamsChain(commits) && k <= |commits|
    ensures AllStreamsChain(commits[..k])
    decreases |commits| - k
  {
    hide CommitChain, OfStream;
    if k == |commits| {
      assert commits[..k] == commits;
    } else {
      StreamsPrefix(commits, k + 1);
      var c := commits[k];
      assert commits[..k + 1] == commits[..k] + [c];
      forall s: string ensures CommitChain(OfStream(commits[..k], s)) {
        OfStreamAppend(commits[..k], c, s);
        var stream := OfStream(commits[..k], s);
        assert CommitChain(OfStream(commits[..k + 1], s));
        ChainPrefix(OfStream(commits[..k + 1], s), |stream|);
        assert OfStream(commits[..k + 1], s)[..|stream|] == stream;
      }
    }
  }

  /**
   Follows all streams in one pass. A list is accepted exactly when each stream's own commits
   are; otherwise the verdict names the first commit that breaks its stream and why.
   */
  method VerifyEvidenceCommits(commits: seq<EvidenceCommit>) returns (v: CommitVerdict)
    ensures v.CommitsAccepted? <==> AllStreamsChain(commits)
    ensures v.CommitsRejected? ==>
              && v.index < |commits|
              && AllStreamsChain(commits[..v.index])
              && Fault(commits[v.index], StateOf(OfStream(commits[..v.index], commits[v.index].body.streamId))) == Some(v.reason)
  {
    hide OfStream, Fault, StateOf, AllStreamsChain;
    var streams: map<string, StreamState> := map[];
    NothingRead();
    assert commits[..0] == [];
    for index := 0 to |commits|
      invariant AllStreamsChain(commits[..index])
      invariant forall s: string :: (if s in streams then streams[s] else StreamState(None, 0)) == StateOf(OfStream(commits[..index], s))
    {
      var c := commits[index];
      var state := if c.body.streamId in streams then streams[c.body.streamId] else StreamState(None, 0);
      var fault := CheckCommit(c, state);
      assert commits[..index + 1] == commits[..index] + [c];
      StreamsAppend(commits[..index], c);
      NoFaultFollows(c, OfStream(commits[..index], c.body.streamId));
      if fault.Some? {
        if AllStreamsChain(commits) {
          StreamsPrefix(commits, index + 1);
        }
        return CommitsRejected(index, fault.value);
      }
      forall s: string ensures StateOf(OfStream(commits[..index + 1], s))
                            == if s == c.body.streamId then StreamState(Some(c.hash), c.body.sequence)
                               else StateOf(OfStream(commits[..index], s))
      {
        StateAppend(commits[..index], c, s);
      }
      streams := streams[c.body.streamId := StreamState(Some(c.hash), c.body.sequence)];
    }
    assert commits[..|commits|] == commits;
    return CommitsAccepted;
  }

  lemma NothingRead()
    ensures AllStreamsChain([]) && forall s: string :: StateOf(OfStream([], s)) == StreamState(None, 0)
  {
  }

  lemma StateAppend(commits: seq<EvidenceCommit>, c: EvidenceCommit, s: string)
    requires Follows(c, OfStream(commits, c.body.streamId))
    ensures StateOf(OfStream(commits + [c], s))
         == if s == c.body.streamId then StreamState(Some(c.hash), c.body.sequence) else StateOf(OfStream(commits, s))
  {
    hide OfStream, Intact;
    OfStreamAppend(commits, c, s);
    assert OfStream(commits, s) + [] == OfStream(commits, s);
  }

  /** Lists with the same streams are accepted alike, however the streams are interleaved. */
  lemma InterleavingDoesNotMatter(a: seq<EvidenceCommit>, b: seq<EvidenceCommit>)
    requires forall s: string :: OfStream(a, s) == OfStream(b, s)
    ensures AllStreamsChain(a) <==> AllStreamsChain(b)
  {
    hide CommitChain, OfStream;
    if AllStreamsChain(a) {
      forall s: string ensures CommitChain(OfStream(b, s)) { assert CommitChain(OfStream(a, s)); }
    }
    if AllStreamsChain(b) {
      forall s: string ensures CommitChain(OfStream(a, s)) { assert CommitChain(OfStream(b, s)); }
    }
  }

  lemma {:induction false} StreamOfStream(commits: seq<EvidenceCommit>, streamId: string, other: string)
    ensures OfStream(OfStream(commits, streamId), other) == if other == streamId then OfStream(commits, streamId) else []
    decreases |commits|
  {
    if commits == [] {
      assert OfStream(commits, streamId) == [] && OfStream([], other) == [];
    } else {
      var front, last := commits[..|commits| - 1], commits[|commits| - 1];
      StreamOfStream(front, streamId, other);
      assert commits == front + [last];
      OfStreamAppend(front, last, streamId);
      var part, whole := OfStream(front, streamId), OfStream(commits, streamId);
      if last.body.streamId == streamId {
        OfStreamAppend(part, last, other);
        assert whole == part + [last];
        if other == streamId {
          assert OfStream(whole, other) == part + [last];
        } else {
          assert OfStream(whole, other) == OfStream(part, other) + [];
        }
      } else {
        assert whole == part + [];
        assert whole == part;
      }
    }
  }

  /** Each stream's own commits are an accepted list. */
  ghost predicate EachStreamAlone(commits: seq<EvidenceCommit>) {
    forall s: string :: AllStreamsChain(OfStream(commits, s))
  }

  /** A list is accepted exactly when the commits of each stream are accepted alone. */
  lemma AcceptedStreamByStream(commits: seq<EvidenceCommit>)
    ensures AllStreamsChain(commits) <==> EachStreamAlone(commits)
  {
    hide CommitChain, OfStream;
    if AllStreamsChain(commits) {
      EmptyStreamChains();
      forall s: string ensures AllStreamsChain(OfStream(commits, s)) {
        assert CommitChain(OfStream(commits, s));
        forall t: string ensures CommitChain(OfStream(OfStream(commits, s), t)) {
          StreamOfStream(commits, s, t);
        }
      }
    }
    if EachStreamAlone(commits) {
      forall s: string ensures CommitChain(OfStream(commits, s)) {
        assert AllStreamsChain(OfStream(commits, s));
        StreamOfStream(commits, s, s);
        assert CommitChain(OfStream(OfStream(commits, s), s));
      }
    }
  }

  lemma EmptyStreamChains()
    ensures CommitChain([])
  {
  }

  /** The last hash of a stream commits to all of its commits, members included. */
  lemma {:induction false} StreamDetermined(a: seq<EvidenceCommit>, b: seq<EvidenceCommit>)
    requires CommitChain(a) && CommitChain(b) && a != [] && b != []
    requires a[|a| - 1].hash == b[|b| - 1].hash
    ensures a == b
    decreases |a|
  {
    hide Follows;
    var i, j := |a| - 1, |b| - 1;
    assert Follows(a[i], a[..i]) && Follows(b[j], b[..j]);
    FollowsBinds(a[i], a[..i], b[j], b[..j]);
    ChainPrefix(a, i);
    ChainPrefix(b, j);
    if i > 0 {
      StreamDetermined(a[..i], b[..j]);
    }
    assert a == a[..i] + [a[i]] && b == b[..j] + [b[j]];
  }

  lemma FollowsBinds(c: EvidenceCommit, before: seq<EvidenceCommit>, d: EvidenceCommit, behind: seq<EvidenceCommit>)
    requires Follows(c, before) && Follows(d, behind) && c.hash == d.hash
    ensures c == d && |before| == |behind| && LastCommitHash(before) == LastCommitHash(behind)
  {
    hide Normalized, RecordsRoot;
    assert CommitDigest(c.body) == CommitDigest(d.body);
  }

  // ---------- What acceptance means, commit by commit ----------

  /** The commit's hash, count and root are those of what it stores. */
  ghost predicate Sound(c: EvidenceCommit) {
    && c.hash == CommitDigest(c.body) && c.body.streamId != []
    && c.body.hashAlgorithm == Sha256 && c.body.canonicalization == VeritioJsonV1 && c.body.treeAlgorithm == VeritioMerkleV1
    && exists members :: NormalOrderOf(members, multiset(c.body.members)) && members != []
                         && c.body.recordCount == |members| && c.body.recordsRoot == RecordsRoot(members)
  }

  predicate OtherStreamsBetween(commits: seq<EvidenceCommit>, j: int, i: nat)
    requires -1 <= j < i < |commits|
  {
    forall k | j < k < i :: commits[k].body.streamId != commits[i].body.streamId
  }

  /** Commit `i` is sound, and either the first of its stream or linked to the commit `j` of its stream before it. */
  ghost predicate LinksBack(commits: seq<EvidenceCommit>, i: nat)
    requires i < |commits|
  {
    var b := commits[i].body;
    && Sound(commits[i])
    && (|| (OtherStreamsBetween(commits, -1, i) && b.previousCommitHash == None && b.sequence == 1)
        || (exists j :: && 0 <= j < i && OtherStreamsBetween(commits, j, i) && commits[j].body.streamId == b.streamId
                        && b.previousCommitHash == Some(commits[j].hash) && b.sequence == commits[j].body.sequence + 1))
  }

  lemma IntactIsSound(c: EvidenceCommit)
    ensures Intact(c) <==> Sound(c)
  {
    hide Normal, RecordsRoot;
    var of := multiset(c.body.members);
    if Intact(c) {
      NormalizedIsNormal(c.body.members);
      assert NormalOrderOf(Normalized(of).value, of);
    }
    if Sound(c) {
      var members :| NormalOrderOf(members, of) && members != []
                     && c.body.recordCount == |members| && c.body.recordsRoot == RecordsRoot(members);
      NormalIsUnique(Normalized(of).value, members);
    }
  }

  /** The last commit of a stream, and where it stands. */
  lemma {:induction false} LastOfStreamAt(commits: seq<EvidenceCommit>, streamId: string)
    ensures var stream := OfStream(commits, streamId);
            if stream == [] then forall k | 0 <= k < |commits| :: commits[k].body.streamId != streamId
            else exists j :: && 0 <= j < |commits| && commits[j] == stream[|stream| - 1] && commits[j].body.streamId == streamId
                             && forall k | j < k < |commits| :: commits[k].body.streamId != streamId
    decreases |commits|
  {
    if commits != [] {
      var n := |commits| - 1;
      var front := commits[..n];
      LastOfStreamAt(front, streamId);
      if commits[n].body.streamId != streamId && OfStream(front, streamId) != [] {
        var stream := OfStream(front, streamId);
        var j :| && 0 <= j < |front| && front[j] == stream[|stream| - 1] && front[j].body.streamId == streamId
                 && forall k | j < k < |front| :: front[k].body.streamId != streamId;
        assert commits[j] == front[j];
        forall k | j < k < |commits| ensures commits[k].body.streamId != streamId {
          if k < n { assert front[k] == commits[k]; }
        }
      } else if commits[n].body.streamId != streamId {
        forall k | 0 <= k < |commits| ensures commits[k].body.streamId != streamId {
          if k < n { assert front[k] == commits[k]; }
        }
      }
    }
  }

  /** The one commit that `LinksBack` may name. */
  lemma LinkIsLast(commits: seq<EvidenceCommit>, i: nat, j: nat, j': nat)
    requires j < i < |commits| && j' < i
    requires commits[j].body.streamId == commits[i].body.streamId == commits[j'].body.streamId
    requires OtherStreamsBetween(commits, j, i) && OtherStreamsBetween(commits, j', i)
    ensures j == j'
  {
  }

  lemma LinksBackTo(commits: seq<EvidenceCommit>, i: nat, j: nat)
    requires j < i < |commits| && commits[j].body.streamId == commits[i].body.streamId && OtherStreamsBetween(commits, j, i)
    ensures LinksBack(commits, i)
       <==> && Sound(commits[i]) && commits[i].body.previousCommitHash == Some(commits[j].hash)
            && commits[i].body.sequence == commits[j].body.sequence + 1
  {
    hide Sound;
    forall j' | 0 <= j' < i && OtherStreamsBetween(commits, j', i) && commits[j'].body.streamId == commits[i].body.streamId
      ensures j' == j
    {
      LinkIsLast(commits, i, j, j');
    }
  }

  /** Following the stream so far is linking back in the list. */
  lemma FollowsIsLinksBack(commits: seq<EvidenceCommit>, c: EvidenceCommit)
    requires AllStreamsChain(commits)
    ensures Follows(c, OfStream(commits, c.body.streamId)) <==> LinksBack(commits + [c], |commits|)
  {
    hide OfStream, Intact, Sound, AllStreamsChain;
    var s, longer, i := c.body.streamId, commits + [c], |commits|;
    var stream := OfStream(commits, s);
    IntactIsSound(c);
    LastOfStreamAt(commits, s);
    StreamCounts(commits, s);
    if stream == [] {
      forall k | -1 < k < i ensures longer[k].body.streamId != s { assert longer[k] == commits[k]; }
      assert OtherStreamsBetween(longer, -1, i);
      StartsStream(longer, i);
    } else {
      var j :| && 0 <= j < |commits| && commits[j] == stream[|stream| - 1] && commits[j].body.streamId == s
               && forall k | j < k < |commits| :: commits[k].body.streamId != s;
      assert longer[j] == commits[j];
      forall k | j < k < i ensures longer[k].body.streamId != s { assert longer[k] == commits[k]; }
      LinksBackTo(longer, i, j);
    }
  }

  lemma StartsStream(commits: seq<EvidenceCommit>, i: nat)
    requires i < |commits| && OtherStreamsBetween(commits, -1, i)
    ensures LinksBack(commits, i) <==> Sound(commits[i]) && commits[i].body.previousCommitHash == None && commits[i].body.sequence == 1
  {
    hide Sound;
  }

  lemma StreamCounts(commits: seq<EvidenceCommit>, streamId: string)
    requires AllStreamsChain(commits)
    ensures var stream := OfStream(commits, streamId); stream != [] ==> stream[|stream| - 1].body.sequence == |stream|
  {
    hide OfStream, Intact;
    var stream := OfStream(commits, streamId);
    assert CommitChain(stream);
    if stream != [] {
      assert Follows(stream[|stream| - 1], stream[..|stream| - 1]);
    }
  }

  lemma LinksBackInFront(commits: seq<EvidenceCommit>, c: EvidenceCommit, i: nat)
    requires i < |commits|
    ensures LinksBack(commits + [c], i) <==> LinksBack(commits, i)
  {
    hide Sound;
    var longer := commits + [c];
    assert forall k | 0 <= k <= i :: longer[k] == commits[k];
    assert forall j | -1 <= j < i :: OtherStreamsBetween(longer, j, i) <==> OtherStreamsBetween(commits, j, i);
  }

  /**
   The verifier accepts exactly the lists whose every commit is sound and links back to the commit
   of its stream before it, or starts its stream.
   */
  lemma {:induction false} AcceptedLinksBack(commits: seq<EvidenceCommit>)
    ensures AllStreamsChain(commits) <==> forall i | 0 <= i < |commits| :: LinksBack(commits, i)
    decreases |commits|
  {
    hide AllStreamsChain, LinksBack, Follows, OfStream;
    if commits == [] {
      NothingRead();
    } else {
      var n := |commits| - 1;
      var front, c := commits[..n], commits[n];
      assert commits == front + [c];
      AcceptedLinksBack(front);
      forall i | 0 <= i < n ensures LinksBack(commits, i) <==> LinksBack(front, i) {
        LinksBackInFront(front, c, i);
      }
      if AllStreamsChain(commits) {
        StreamsPrefix(commits, n);
      }
      if AllStreamsChain(front) {
        StreamsAppend(front, c);
        FollowsIsLinksBack(front, c);
      }
    }
  }
}
