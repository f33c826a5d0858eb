/**
 The batch file store of one tenant as its three line files: recording an event, an edge or a
 batch as the lines it appends, cut off anywhere, and what every run of such cuts keeps.
 */
module BatchFiles {
  import opened Wrappers
  import opened Protocol
  import opened AuditTables
  import opened AuditRuns
  import opened MerkleTree
  import opened CommitLedger

  datatype Files = Files(events: seq<AuditRecord>, edges: seq<AuditRecord>, commits: seq<EvidenceCommit>)

  datatype BatchInput = BatchInput(commitId: string, streamId: string, events: seq<Event>, edges: seq<Event>, committedAt: int)

  datatype FileError = MissingTenant | MissingId | KeyConflict | EmptyBatch | CommitIdConflict | InvalidCommit

  // ---------- Appending records ----------

  function TipSequence(records: seq<AuditRecord>): int {
    if records == [] then 0 else records[|records| - 1].body.sequence
  }

  /** Appends or replays one record. */
  function AppendOne(records: seq<AuditRecord>, event: Event, now: int): Result<(seq<AuditRecord>, AuditRecord), FileError> {
    if Blank(event.tenantId) then Failure(MissingTenant)
    else if Blank(event.id) then Failure(MissingId)
    else
      var key := HashIdempotencyKey(event.tenantId, event.id);
      match FindByKey(records, key)
      case Some(r) => if r.body.event != event then Failure(KeyConflict) else Success((records, r))
      case None =>
        var r := BuildRecord(event, TipSequence(records) + 1, EndHash(records, None), key, now);
        Success((records + [r], r))
  }

  /** The records a batch's events have or get, one after the other. */
  function AppendMany(records: seq<AuditRecord>, events: seq<Event>, clock: nat -> int)
    : (r: Result<(seq<AuditRecord>, seq<AuditRecord>), FileError>)
    ensures r.Success? ==> records <= r.value.0 && |r.value.1| == |events|
    decreases |events|
  {
    if events == [] then Success((records, []))
    else match AppendMany(records, events[..|events| - 1], clock)
      case Failure(e) => Failure(e)
      case Success((sofar, results)) =>
        match AppendOne(sofar, events[|events| - 1], clock(|events| - 1))
        case Failure(e) => Failure(e)
        case Success((after, r)) => Success((after, results + [r]))
  }

  function MembersOf(events: seq<AuditRecord>, edges: seq<AuditRecord>): seq<CommitMember> {
    seq(|events| + |edges|, i requires 0 <= i < |events| + |edges| =>
      if i < |events| then CommitMember(i, AuditRecordMember, events[i].body.event.id, events[i].hash)
      else CommitMember(i, EdgeRecordMember, edges[i - |events|].body.event.id, edges[i - |events|].hash))
  }

  function FindCommit(commits: seq<EvidenceCommit>, streamId: string, commitId: string): Option<EvidenceCommit> {
    if commits == [] then None
    else if commits[0].body.streamId == streamId && commits[0].body.commitId == commitId then Some(commits[0])
    else FindCommit(commits[1..], streamId, commitId)
  }

  /** What a batch appends, and what it answers. */
  datatype Prepared = Prepared(
    newEvents: seq<AuditRecord>, newEdges: seq<AuditRecord>, newCommits: seq<EvidenceCommit>,
    events: seq<AuditRecord>, edges: seq<AuditRecord>, commit: EvidenceCommit)

  function CommitInputOf(commits: seq<EvidenceCommit>, input: BatchInput, members: seq<CommitMember>): CommitInput {
    var stream := OfStream(commits, input.streamId);
    CommitInput(
      input.commitId, input.streamId,
      (if stream == [] then 0 else stream[|stream| - 1].body.sequence) + 1,
      LastCommitHash(stream), members, input.committedAt)
  }

  ghost function PrepareBatch(files: Files, input: BatchInput, clock: nat -> int): Result<Prepared, FileError> {
    match AppendMany(files.events, input.events, clock)
    case Failure(e) => Failure(e)
    case Success((events, eventResults)) =>
      match AppendMany(files.edges, input.edges, clock)
      case Failure(e) => Failure(e)
      case Success((edges, edgeResults)) =>
        if |eventResults| + |edgeResults| == 0 then Failure(EmptyBatch)
        else FinishBatch(files, input, events, eventResults, edges, edgeResults)
  }

  ghost function FinishBatch(files: Files, input: BatchInput, events: seq<AuditRecord>, eventResults: seq<AuditRecord>,
                             edges: seq<AuditRecord>, edgeResults: seq<AuditRecord>): Result<Prepared, FileError>
    requires |events| >= |files.events| && |edges| >= |files.edges|
  {
    var members := MembersOf(eventResults, edgeResults);
    match FindCommit(files.commits, input.streamId, input.commitId)
    case Some(existing) =>
      if existing.body.members != members then Failure(CommitIdConflict)
      else Success(Prepared([], [], [], eventResults, edgeResults, existing))
    case None =>
      match CommitOf(CommitInputOf(files.commits, input, members))
      case None => Failure(InvalidCommit)
      case Some(commit) =>
        Success(Prepared(events[|files.events|..], edges[|files.edges|..], [commit], eventResults, edgeResults, commit))
  }

  // ---------- Cuts ----------

  function Least(a: int, b: int): int {
    if a < b then a else b
  }

  function First<T>(s: seq<T>, k: int): seq<T> {
    if k <= 0 then [] else s[..Least(k, |s|)]
  }

  /** The files after the first `k` appended lines: events, then edges, then the commit. */
  function After(files: Files, p: Prepared, k: int): Files {
    Files(files.events + First(p.newEvents, k),
          files.edges + First(p.newEdges, k - |p.newEvents|),
          files.commits + First(p.newCommits, k - |p.newEvents| - |p.newEdges|))
  }

  function Lines(p: Prepared): nat {
    |p.newEvents| + |p.newEdges| + |p.newCommits|
  }

  // ---------- What the files keep ----------

  predicate KeyedById(r: AuditRecord, tenantId: string) {
    r.body.idempotencyKeyHash == HashIdempotencyKey(tenantId, r.body.event.id)
  }

  predicate GoodChain(records: seq<AuditRecord>, tenantId: string) {
    && LinkedRange(records, tenantId, 1, None) && UniqueKeys(records)
    && forall i | 0 <= i < |records| :: KeyedById(records[i], tenantId)
  }

  predicate Names(m: CommitMember, r: AuditRecord) {
    m.recordHash == r.hash && m.recordId == r.body.event.id
  }

  /** The member is the hash of a stored record of its kind. */
  predicate MemberStored(m: CommitMember, files: Files) {
    match m.recordType
    case AuditRecordMember => exists r :: r in files.events && Names(m, r)
    case EdgeRecordMember => exists r :: r in files.edges && Names(m, r)
    case _ => false
  }

  predicate CommitStored(c: EvidenceCommit, files: Files) {
    forall m | m in c.body.members :: MemberStored(m, files)
  }

  ghost predicate FilesInvariant(files: Files, tenantId: string) {
    && GoodChain(files.events, tenantId) && GoodChain(files.edges, tenantId)
    && AllStreamsChain(files.commits)
    && forall c | c in files.commits :: CommitStored(c, files)
  }

  predicate OfTenant(events: seq<Event>, tenantId: string) {
    forall i | 0 <= i < |events| :: events[i].tenantId == tenantId
  }

  // ---------- Appending keeps chains ----------

  lemma KeyFound(records: seq<AuditRecord>, key: Digest)
    requires UniqueKeys(records)
    ensures match FindByKey(records, key)
            case Some(r) => r in records && r.body.idempotencyKeyHash == key
            case None => forall i | 0 <= i < |records| :: records[i].body.idempotencyKeyHash != key
  {
    FindByKeyAnswer(records, key);
  }

  lemma ExtendChain(records: seq<AuditRecord>, event: Event, tenantId: string, now: int)
    requires GoodChain(records, tenantId) && event.tenantId == tenantId
    requires FindByKey(records, HashIdempotencyKey(tenantId, event.id)).None?
    ensures GoodChain(records + [BuildRecord(event, TipSequence(records) + 1, EndHash(records, None), HashIdempotencyKey(tenantId, event.id), now)], tenantId)
  {
    hide HashIdempotencyKey, FindByKey;
    var key := HashIdempotencyKey(tenantId, event.id);
    var r := BuildRecord(event, TipSequence(records) + 1, EndHash(records, None), key, now);
    KeyFound(records, key);
    if records != [] {
      assert LinkedAt(records, |records| - 1, tenantId, 1, None);
    }
    forall i | 0 <= i < |records + [r]| ensures LinkedAt(records + [r], i, tenantId, 1, None) {
      if i < |records| { assert LinkedAt(records, i, tenantId, 1, None); }
    }
  }

  lemma AppendOneKeeps(records: seq<AuditRecord>, event: Event, tenantId: string, now: int)
    requires GoodChain(records, tenantId) && event.tenantId == tenantId && AppendOne(records, event, now).Success?
    ensures var (after, r) := AppendOne(records, event, now).value;
            && GoodChain(after, tenantId) && records <= after && r in after
            && r.body.event == event && r.body.idempotencyKeyHash == HashIdempotencyKey(tenantId, event.id)
  {
    hide HashIdempotencyKey, LinkedRange, UniqueKeys, FindByKey, GoodChain, BuildRecord;
    GoodChainKeys(records, tenantId);
    KeyFound(records, HashIdempotencyKey(tenantId, event.id));
    if FindByKey(records, HashIdempotencyKey(tenantId, event.id)).None? {
      ExtendChain(records, event, tenantId, now);
      BuiltRecord(event, TipSequence(records) + 1, EndHash(records, None), HashIdempotencyKey(tenantId, event.id), now);
    }
  }

  lemma GoodChainKeys(records: seq<AuditRecord>, tenantId: string)
    requires GoodChain(records, tenantId)
    ensures UniqueKeys(records) && LinkedRange(records, tenantId, 1, None)
  {
  }

  lemma BuiltRecord(event: Event, sequence: int, previous: Option<Digest>, key: Digest, now: int)
    ensures var r := BuildRecord(event, sequence, previous, key, now);
            r.body.event == event && r.body.idempotencyKeyHash == key
  {
  }

  predicate Answers(results: seq<AuditRecord>, events: seq<Event>, records: seq<AuditRecord>) {
    |results| == |events| && forall i | 0 <= i < |events| :: results[i] in records && results[i].body.event == events[i]
  }

  lemma {:induction false} AppendManyKeeps(records: seq<AuditRecord>, events: seq<Event>, tenantId: string, clock: nat -> int)
    requires GoodChain(records, tenantId) && OfTenant(events, tenantId) && AppendMany(records, events, clock).Success?
    ensures var (after, results) := AppendMany(records, events, clock).value;
            GoodChain(after, tenantId) && records <= after && Answers(results, events, after)
    decreases |events|
  {
    hide GoodChain, AppendOne, HashIdempotencyKey;
    if events != [] {
      var n := |events| - 1;
      AppendManyKeeps(records, events[..n], tenantId, clock);
      var (sofar, results) := AppendMany(records, events[..n], clock).value;
      AppendOneKeeps(sofar, events[n], tenantId, clock(n));
    }
  }

  /** The first lines of a longer good chain are a good chain. */
  lemma ChainPrefixIsGood(records: seq<AuditRecord>, tenantId: string, k: nat)
    requires GoodChain(records, tenantId) && k <= |records|
    ensures GoodChain(records[..k], tenantId)
  {
    hide HashIdempotencyKey, LinkedRange;
    LinkedRangePart(records, tenantId, 1, None, 0, k);
    assert records[0..k] == records[..k];
  }

  lemma MembersExtend(c: EvidenceCommit, files: Files, files': Files)
    requires CommitStored(c, files) && files.events <= files'.events && files.edges <= files'.edges
    ensures CommitStored(c, files')
  {
    hide Names;
    forall m | m in c.body.members ensures MemberStored(m, files') {
      assert MemberStored(m, files);
    }
  }

  lemma NewMembersStored(eventResults: seq<AuditRecord>, edgeResults: seq<AuditRecord>, files: Files)
    requires forall i | 0 <= i < |eventResults| :: eventResults[i] in files.events
    requires forall i | 0 <= i < |edgeResults| :: edgeResults[i] in files.edges
    ensures forall m | m in MembersOf(eventResults, edgeResults) :: MemberStored(m, files)
    ensures Indexed(MembersOf(eventResults, edgeResults))
  {
    var members := MembersOf(eventResults, edgeResults);
    forall m | m in members ensures MemberStored(m, files) {
      var i :| 0 <= i < |members| && members[i] == m;
      if i < |eventResults| {
        assert Names(m, eventResults[i]);
      } else {
        assert Names(m, edgeResults[i - |eventResults|]);
      }
    }
  }

  /** The commit a batch creates follows the last commit of its stream. */
  lemma NewCommitFollows(commits: seq<EvidenceCommit>, input: BatchInput, members: seq<CommitMember>)
    requires AllStreamsChain(commits) && CommitOf(CommitInputOf(commits, input, members)).Some?
    ensures AllStreamsChain(commits + [CommitOf(CommitInputOf(commits, input, members)).value])
  {
    hide AllStreamsChain, OfStream, Intact, Normalized, RecordsRoot;
    var given := CommitInputOf(commits, input, members);
    var c := CommitOf(given).value;
    var stream := OfStream(commits, input.streamId);
    CreatedIsIntact(given);
    StreamLength(commits, input.streamId);
    StreamsAppend(commits, c);
  }

  lemma StreamLength(commits: seq<EvidenceCommit>, streamId: string)
    requires AllStreamsChain(commits)
    ensures var stream := OfStream(commits, streamId); stream != [] ==> stream[|stream| - 1].body.sequence == |stream|
  {
    hide OfStream, Intact;
    var stream := OfStream(commits, streamId);
    assert CommitChain(stream);
    if stream != [] {
      assert Follows(stream[|stream| - 1], stream[..|stream| - 1]);
    }
  }

  // ---------- Every cut of a batch ----------

  lemma PreparedParts(files: Files, input: BatchInput, clock: nat -> int, tenantId: string)
    requires FilesInvariant(files, tenantId) && OfTenant(input.events, tenantId) && OfTenant(input.edges, tenantId)
    requires PrepareBatch(files, input, clock).Success?
    ensures var p := PrepareBatch(files, input, clock).value;
            && GoodChain(files.events + p.newEvents, tenantId) && GoodChain(files.edges + p.newEdges, tenantId)
            && AllStreamsChain(files.commits + p.newCommits)
            && (forall c | c in p.newCommits :: CommitStored(c, Files(files.events + p.newEvents, files.edges + p.newEdges, files.commits)))
            && |p.newCommits| <= 1
  {
    hide GoodChain, AllStreamsChain, AppendMany, CommitOf, MembersOf, FindCommit, MemberStored, CommitInputOf;
    AppendManyKeeps(files.events, input.events, tenantId, clock);
    AppendManyKeeps(files.edges, input.edges, tenantId, clock);
    var (events, eventResults) := AppendMany(files.events, input.events, clock).value;
    var (edges, edgeResults) := AppendMany(files.edges, input.edges, clock).value;
    assert files.events + events[|files.events|..] == events && files.edges + edges[|files.edges|..] == edges;
    assert files.events + [] == files.events && files.edges + [] == files.edges && files.commits + [] == files.commits;
    if FindCommit(files.commits, input.streamId, input.commitId).None? {
      var members := MembersOf(eventResults, edgeResults);
      NewCommitFollows(files.commits, input, members);
      NewMembersStored(eventResults, edgeResults, Files(events, edges, files.commits));
      CreatedIsIntact(CommitInputOf(files.commits, input, members));
      SameMembers(files.commits, input, members);
    }
  }

  lemma SameMembers(commits: seq<EvidenceCommit>, input: BatchInput, members: seq<CommitMember>)
    ensures CommitInputOf(commits, input, members).members == members
  {
    hide OfStream;
  }

  lemma FirstIsPrefix<T>(s: seq<T>, k: int)
    ensures First(s, k) <= s && (k >= |s| ==> First(s, k) == s) && |First(s, k)| <= |s|
  {
  }

  /** Wherever a batch is cut off, the files keep their invariant. */
  lemma CutKeepsFiles(files: Files, input: BatchInput, clock: nat -> int, k: int, tenantId: string)
    requires FilesInvariant(files, tenantId) && OfTenant(input.events, tenantId) && OfTenant(input.edges, tenantId)
    requires PrepareBatch(files, input, clock).Success?
    ensures FilesInvariant(After(files, PrepareBatch(files, input, clock).value, k), tenantId)
  {
    hide GoodChain, AllStreamsChain, PrepareBatch, First, CommitStored;
    var p := PrepareBatch(files, input, clock).value;
    PreparedParts(files, input, clock, tenantId);
    CutChain(files.events, p.newEvents, k, tenantId);
    CutChain(files.edges, p.newEdges, k - |p.newEvents|, tenantId);
    CutCommits(files, p, k);
  }

  lemma CutChain(records: seq<AuditRecord>, more: seq<AuditRecord>, k: int, tenantId: string)
    requires GoodChain(records + more, tenantId)
    ensures GoodChain(records + First(more, k), tenantId)
  {
    hide GoodChain;
    var cut := First(more, k);
    assert (records + more)[..|records| + |cut|] == records + cut;
    ChainPrefixIsGood(records + more, tenantId, |records| + |cut|);
  }

  /** A commit line is only there when all record lines it names are. */
  lemma CutCommits(files: Files, p: Prepared, k: int)
    requires |p.newCommits| <= 1 && AllStreamsChain(files.commits) && AllStreamsChain(files.commits + p.newCommits)
    requires forall c | c in files.commits :: CommitStored(c, files)
    requires forall c | c in p.newCommits :: CommitStored(c, Files(files.events + p.newEvents, files.edges + p.newEdges, files.commits))
    ensures var cut := After(files, p, k); AllStreamsChain(cut.commits) && forall c | c in cut.commits :: CommitStored(c, cut)
  {
    hide AllStreamsChain, CommitStored, First;
    var cut := After(files, p, k);
    FirstIsPrefix(p.newEvents, k);
    FirstIsPrefix(p.newEdges, k - |p.newEvents|);
    FirstIsPrefix(p.newCommits, k - |p.newEvents| - |p.newEdges|);
    assert files.commits + [] == files.commits;
    CommitLineLast(p, k);
    forall c | c in cut.commits ensures CommitStored(c, cut) {
      if c in files.commits {
        MembersExtend(c, files, cut);
      } else {
        MembersExtend(c, Files(files.events + p.newEvents, files.edges + p.newEdges, files.commits), cut);
      }
    }
  }

  lemma CommitLineLast(p: Prepared, k: int)
    requires |p.newCommits| <= 1
    ensures First(p.newCommits, k - |p.newEvents| - |p.newEdges|) == []
         || (&& First(p.newCommits, k - |p.newEvents| - |p.newEdges|) == p.newCommits
             && First(p.newEvents, k) == p.newEvents && First(p.newEdges, k - |p.newEvents|) == p.newEdges)
  {
  }

  // ---------- Replaying a completed batch ----------

  predicate StoredAs(records: seq<AuditRecord>, events: seq<Event>, results: seq<AuditRecord>) {
    && |results| == |events|
    && forall i | 0 <= i < |events| ::
         && FindByKey(records, HashIdempotencyKey(events[i].tenantId, events[i].id)) == Some(results[i])
         && results[i].body.event == events[i] && !Blank(events[i].tenantId) && !Blank(events[i].id)
  }

  /** Every record of the batch is stored, and its commit names them. */
  predicate Completed(files: Files, input: BatchInput, events: seq<AuditRecord>, edges: seq<AuditRecord>, commit: EvidenceCommit) {
    && |input.events| + |input.edges| > 0
    && StoredAs(files.events, input.events, events) && StoredAs(files.edges, input.edges, edges)
    && FindCommit(files.commits, input.streamId, input.commitId) == Some(commit)
    && commit.body.members == MembersOf(events, edges)
  }

  lemma {:induction false} ReplayMany(records: seq<AuditRecord>, events: seq<Event>, results: seq<AuditRecord>, clock: nat -> int)
    requires StoredAs(records, events, results)
    ensures AppendMany(records, events, clock) == Success((records, results))
    decreases |events|
  {
    hide HashIdempotencyKey, Blank, FindByKey;
    if events != [] {
      var n := |events| - 1;
      ReplayMany(records, events[..n], results[..n], clock);
      assert results == results[..n] + [results[n]];
    }
  }

  /** A completed batch replays: the same records, the same commit, and not one line appended. */
  lemma CompletedBatchReplays(files: Files, input: BatchInput, events: seq<AuditRecord>, edges: seq<AuditRecord>,
                              commit: EvidenceCommit, clock: nat -> int)
    requires Completed(files, input, events, edges, commit)
    ensures PrepareBatch(files, input, clock) == Success(Prepared([], [], [], events, edges, commit))
  {
    hide AppendMany, MembersOf, FindCommit, StoredAs;
    ReplayMany(files.events, input.events, events, clock);
    ReplayMany(files.edges, input.edges, edges, clock);
    StoredLengths(files.events, input.events, events);
    StoredLengths(files.edges, input.edges, edges);
  }

  lemma StoredLengths(records: seq<AuditRecord>, events: seq<Event>, results: seq<AuditRecord>)
    requires StoredAs(records, events, results)
    ensures |results| == |events|
  {
  }

  lemma {:induction false} FindByKeyExtends(records: seq<AuditRecord>, more: seq<AuditRecord>, key: Digest)
    ensures FindByKey(records, key).Some? ==> FindByKey(records + more, key) == FindByKey(records, key)
    decreases |records|
  {
    if records != [] {
      assert (records + more)[1..] == records[1..] + more;
      FindByKeyExtends(records[1..], more, key);
    }
  }

  lemma {:induction false} FindCommitExtends(commits: seq<EvidenceCommit>, more: seq<EvidenceCommit>, streamId: string, commitId: string)
    ensures FindCommit(commits + more, streamId, commitId)
         == if FindCommit(commits, streamId, commitId).Some? then FindCommit(commits, streamId, commitId)
            else FindCommit(more, streamId, commitId)
    decreases |commits|
  {
    if commits == [] {
      assert [] + more == more;
    } else {
      assert (commits + more)[1..] == commits[1..] + more;
      FindCommitExtends(commits[1..], more, streamId, commitId);
    }
  }

  lemma StoredExtends(records: seq<AuditRecord>, more: seq<AuditRecord>, events: seq<Event>, results: seq<AuditRecord>)
    requires StoredAs(records, events, results)
    ensures StoredAs(records + more, events, results)
  {
    hide HashIdempotencyKey, Blank, FindByKey;
    forall i | 0 <= i < |events|
      ensures FindByKey(records + more, HashIdempotencyKey(events[i].tenantId, events[i].id)) == Some(results[i])
    {
      FindByKeyExtends(records, more, HashIdempotencyKey(events[i].tenantId, events[i].id));
    }
  }

  /** Once completed, a batch stays completed whatever lines follow. */
  lemma CompletedStays(files: Files, input: BatchInput, events: seq<AuditRecord>, edges: seq<AuditRecord>, commit: EvidenceCommit,
                       p: Prepared, k: int)
    requires Completed(files, input, events, edges, commit)
    ensures Completed(After(files, p, k), input, events, edges, commit)
  {
    hide StoredAs, FindCommit, MembersOf, First;
    StoredExtends(files.events, First(p.newEvents, k), input.events, events);
    StoredExtends(files.edges, First(p.newEdges, k - |p.newEvents|), input.edges, edges);
    FindCommitExtends(files.commits, First(p.newCommits, k - |p.newEvents| - |p.newEdges|), input.streamId, input.commitId);
  }

  lemma {:induction false} AppendManyStores(records: seq<AuditRecord>, events: seq<Event>, tenantId: string, clock: nat -> int)
    requires GoodChain(records, tenantId) && OfTenant(events, tenantId) && AppendMany(records, events, clock).Success?
    ensures var (after, results) := AppendMany(records, events, clock).value; StoredAs(after, events, results)
    decreases |events|
  {
    hide GoodChain, HashIdempotencyKey, Blank, FindByKey, AppendOne;
    if events != [] {
      var n := |events| - 1;
      AppendManyKeeps(records, events[..n], tenantId, clock);
      AppendManyStores(records, events[..n], tenantId, clock);
      var (sofar, results) := AppendMany(records, events[..n], clock).value;
      AppendOneStores(sofar, events[n], tenantId, clock(n));
      AppendOneKeeps(sofar, events[n], tenantId, clock(n));
      var after := AppendOne(sofar, events[n], clock(n)).value.0;
      StoredExtends(sofar, after[|sofar|..], events[..n], results);
      assert sofar + after[|sofar|..] == after;
    }
  }

  lemma AppendOneStores(records: seq<AuditRecord>, event: Event, tenantId: string, now: int)
    requires GoodChain(records, tenantId) && event.tenantId == tenantId && AppendOne(records, event, now).Success?
    ensures var (after, r) := AppendOne(records, event, now).value;
            && FindByKey(after, HashIdempotencyKey(event.tenantId, event.id)) == Some(r)
            && r.body.event == event && !Blank(event.tenantId) && !Blank(event.id)
  {
    hide GoodChain, HashIdempotencyKey, FindByKey, Blank, BuildRecord;
    AppendOneKeeps(records, event, tenantId, now);
    var key := HashIdempotencyKey(event.tenantId, event.id);
    var (after, r) := AppendOne(records, event, now).value;
    GoodChainKeys(after, tenantId);
    FoundIs(after, r, key);
  }

  lemma FoundIs(records: seq<AuditRecord>, r: AuditRecord, key: Digest)
    requires UniqueKeys(records) && r in records && r.body.idempotencyKeyHash == key
    ensures FindByKey(records, key) == Some(r)
  {
    FindByKeyAnswer(records, key);
    var i :| 0 <= i < |records| && records[i] == r;
  }

  /** A batch that was not cut off is completed, so its retry answers with the same commit. */
  lemma UncutBatchCompletes(files: Files, input: BatchInput, clock: nat -> int, tenantId: string)
    requires FilesInvariant(files, tenantId) && OfTenant(input.events, tenantId) && OfTenant(input.edges, tenantId)
    requires PrepareBatch(files, input, clock).Success?
    ensures var p := PrepareBatch(files, input, clock).value;
            Completed(After(files, p, Lines(p)), input, p.events, p.edges, p.commit)
  {
    hide GoodChain, AllStreamsChain, AppendMany, CommitOf, FindCommit, StoredAs, MembersOf, CommitInputOf, First;
    AppendManyKeeps(files.events, input.events, tenantId, clock);
    AppendManyKeeps(files.edges, input.edges, tenantId, clock);
    AppendManyStores(files.events, input.events, tenantId, clock);
    AppendManyStores(files.edges, input.edges, tenantId, clock);
    var p := PrepareBatch(files, input, clock).value;
    var (events, eventResults) := AppendMany(files.events, input.events, clock).value;
    var (edges, edgeResults) := AppendMany(files.edges, input.edges, clock).value;
    assert files.events + events[|files.events|..] == events && files.edges + edges[|files.edges|..] == edges;
    UncutFiles(files, p);
    assert files.events + [] == files.events && files.edges + [] == files.edges && files.commits + [] == files.commits;
    var members := MembersOf(eventResults, edgeResults);
    FindCommitExtends(files.commits, p.newCommits, input.streamId, input.commitId);
    if FindCommit(files.commits, input.streamId, input.commitId).None? {
      CreatedNames(files.commits, input, members);
      NewMembersStored(eventResults, edgeResults, Files(events, edges, files.commits));
    } else {
      SameStored(files, events, eventResults, edges, edgeResults, input, p.commit, tenantId);
    }
  }

  lemma UncutFiles(files: Files, p: Prepared)
    ensures After(files, p, Lines(p)) == Files(files.events + p.newEvents, files.edges + p.newEdges, files.commits + p.newCommits)
  {
    FirstIsPrefix(p.newEvents, Lines(p));
    FirstIsPrefix(p.newEdges, Lines(p) - |p.newEvents|);
    FirstIsPrefix(p.newCommits, Lines(p) - |p.newEvents| - |p.newEdges|);
  }

  lemma CreatedNames(commits: seq<EvidenceCommit>, input: BatchInput, members: seq<CommitMember>)
    requires CommitOf(CommitInputOf(commits, input, members)).Some?
    ensures var c := CommitOf(CommitInputOf(commits, input, members)).value;
            && FindCommit([c], input.streamId, input.commitId) == Some(c)
            && (Indexed(members) ==> c.body.members == members)
  {
    hide Normalized, RecordsRoot, OfStream, Indexed;
    CreatedIsIntact(CommitInputOf(commits, input, members));
  }

  lemma {:induction false} FoundCommit(commits: seq<EvidenceCommit>, streamId: string, commitId: string)
    requires FindCommit(commits, streamId, commitId).Some?
    ensures FindCommit(commits, streamId, commitId).value in commits
    decreases |commits|
  {
    if !(commits[0].body.streamId == streamId && commits[0].body.commitId == commitId) {
      FoundCommit(commits[1..], streamId, commitId);
    }
  }

  /** When the batch's commit is already there, all of its records are too. */
  lemma SameStored(files: Files, events: seq<AuditRecord>, eventResults: seq<AuditRecord>, edges: seq<AuditRecord>,
                   edgeResults: seq<AuditRecord>, input: BatchInput, commit: EvidenceCommit, tenantId: string)
    requires FilesInvariant(files, tenantId)
    requires GoodChain(events, tenantId) && files.events <= events && StoredAs(events, input.events, eventResults)
    requires GoodChain(edges, tenantId) && files.edges <= edges && StoredAs(edges, input.edges, edgeResults)
    requires FindCommit(files.commits, input.streamId, input.commitId) == Some(commit)
    requires commit.body.members == MembersOf(eventResults, edgeResults)
    ensures StoredAs(files.events, input.events, eventResults) && StoredAs(files.edges, input.edges, edgeResults)
  {
    hide GoodChain, AllStreamsChain, FindCommit, MembersOf, StoredAs;
    FoundCommit(files.commits, input.streamId, input.commitId);
    assert CommitStored(commit, files);
    MembersNameStored(files, events, eventResults, edges, edgeResults, input, commit, tenantId);
  }

  lemma MembersNameStored(files: Files, events: seq<AuditRecord>, eventResults: seq<AuditRecord>, edges: seq<AuditRecord>,
                          edgeResults: seq<AuditRecord>, input: BatchInput, commit: EvidenceCommit, tenantId: string)
    requires GoodChain(files.events, tenantId) && GoodChain(files.edges, tenantId) && CommitStored(commit, files)
    requires GoodChain(events, tenantId) && files.events <= events && StoredAs(events, input.events, eventResults)
    requires GoodChain(edges, tenantId) && files.edges <= edges && StoredAs(edges, input.edges, edgeResults)
    requires commit.body.members == MembersOf(eventResults, edgeResults)
    ensures StoredAs(files.events, input.events, eventResults) && StoredAs(files.edges, input.edges, edgeResults)
  {
    hide GoodChain, FindByKey, HashIdempotencyKey, Blank;
    var members := MembersOf(eventResults, edgeResults);
    forall i | 0 <= i < |eventResults|
      ensures FindByKey(files.events, HashIdempotencyKey(input.events[i].tenantId, input.events[i].id)) == Some(eventResults[i])
    {
      assert members[i] in commit.body.members;
      assert MemberStored(members[i], files);
      var r :| r in files.events && Names(members[i], r);
      NamedIsStored(files.events, events, r, eventResults[i], HashIdempotencyKey(input.events[i].tenantId, input.events[i].id), tenantId);
    }
    forall i | 0 <= i < |edgeResults|
      ensures FindByKey(files.edges, HashIdempotencyKey(input.edges[i].tenantId, input.edges[i].id)) == Some(edgeResults[i])
    {
      var m := members[|eventResults| + i];
      assert m in commit.body.members;
      assert MemberStored(m, files);
      var r :| r in files.edges && Names(m, r);
      NamedIsStored(files.edges, edges, r, edgeResults[i], HashIdempotencyKey(input.edges[i].tenantId, input.edges[i].id), tenantId);
    }
  }

  /** A record whose hash is that of a stored record is that record. */
  lemma NamedIsStored(records: seq<AuditRecord>, longer: seq<AuditRecord>, r: AuditRecord, result: AuditRecord, key: Digest, tenantId: string)
    requires GoodChain(records, tenantId) && GoodChain(longer, tenantId) && records <= longer && r in records
    requires FindByKey(longer, key) == Some(result) && r.hash == result.hash
    ensures FindByKey(records, key) == Some(result)
  {
    hide HashIdempotencyKey, UniqueKeys, FindByKey;
    KeyFound(longer, key);
    var i :| 0 <= i < |records| && records[i] == r;
    var j :| 0 <= j < |longer| && longer[j] == result;
    assert LinkedAt(records, i, tenantId, 1, None) && LinkedAt(longer, j, tenantId, 1, None);
    FoundIs(records, r, key);
  }

  // ---------- Every run ----------

  /** A batch, and after how many lines its process is cut off. Single events and edges have no commit. */
  datatype FileOp =
    | EventOp(event: Event, now: int, cut: int)
    | EdgeOp(edge: Event, now: int, cut: int)
    | BatchOp(input: BatchInput, clock: nat -> int, cut: int)

  predicate OpOfTenant(op: FileOp, tenantId: string) {
    match op
    case EventOp(e, _, _) => e.tenantId == tenantId
    case EdgeOp(e, _, _) => e.tenantId == tenantId
    case BatchOp(input, _, _) => OfTenant(input.events, tenantId) && OfTenant(input.edges, tenantId)
  }

  ghost function Perform(files: Files, op: FileOp): Files {
    match op
    case EventOp(e, now, cut) =>
      if cut > 0 && AppendOne(files.events, e, now).Success? then files.(events := AppendOne(files.events, e, now).value.0) else files
    case EdgeOp(e, now, cut) =>
      if cut > 0 && AppendOne(files.edges, e, now).Success? then files.(edges := AppendOne(files.edges, e, now).value.0) else files
    case BatchOp(input, clock, cut) =>
      match PrepareBatch(files, input, clock)
      case Failure(_) => files
      case Success(p) => After(files, p, cut)
  }

  ghost function PerformAll(files: Files, ops: seq<FileOp>): Files
    decreases |ops|
  {
    if ops == [] then files else PerformAll(Perform(files, ops[0]), ops[1..])
  }

  lemma PerformKeepsFiles(files: Files, op: FileOp, tenantId: string)
    requires FilesInvariant(files, tenantId) && OpOfTenant(op, tenantId)
    ensures FilesInvariant(Perform(files, op), tenantId)
  {
    hide GoodChain, AllStreamsChain, AppendOne, PrepareBatch, CommitStored, After, OfTenant;
    match op
    case EventOp(e, now, cut) =>
      if AppendOne(files.events, e, now).Success? {
        AppendOneKeeps(files.events, e, tenantId, now);
        StillStored(files, Perform(files, op));
      }
    case EdgeOp(e, now, cut) =>
      if AppendOne(files.edges, e, now).Success? {
        AppendOneKeeps(files.edges, e, tenantId, now);
        StillStored(files, Perform(files, op));
      }
    case BatchOp(input, clock, cut) =>
      if PrepareBatch(files, input, clock).Success? {
        CutKeepsFiles(files, input, clock, cut, tenantId);
      }
  }

  lemma StillStored(files: Files, files': Files)
    requires files.events <= files'.events && files.edges <= files'.edges && files'.commits == files.commits
    requires forall c | c in files.commits :: CommitStored(c, files)
    ensures forall c | c in files'.commits :: CommitStored(c, files')
  {
    forall c | c in files'.commits ensures CommitStored(c, files') {
      MembersExtend(c, files, files');
    }
  }

  /** After any run of cut-off operations of one tenant all chains verify and commits name stored records. */
  lemma {:induction false} RunKeepsFiles(files: Files, ops: seq<FileOp>, tenantId: string)
    requires FilesInvariant(files, tenantId)
    requires forall i | 0 <= i < |ops| :: OpOfTenant(ops[i], tenantId)
    ensures FilesInvariant(PerformAll(files, ops), tenantId)
    decreases |ops|
  {
    hide FilesInvariant, Perform, OpOfTenant;
    if ops != [] {
      PerformKeepsFiles(files, ops[0], tenantId);
      RunKeepsFiles(Perform(files, ops[0]), ops[1..], tenantId);
    }
  }

  // ---------- Completed batches over runs ----------

  lemma CompletedExtends(files: Files, files': Files, input: BatchInput, events: seq<AuditRecord>, edges: seq<AuditRecord>, commit: EvidenceCommit)
    requires Completed(files, input, events, edges, commit)
    requires files.events <= files'.events && files.edges <= files'.edges && files.commits <= files'.commits
    ensures Completed(files', input, events, edges, commit)
  {
    hide StoredAs, FindCommit, MembersOf;
    assert files'.events == files.events + files'.events[|files.events|..];
    assert files'.edges == files.edges + files'.edges[|files.edges|..];
    assert files'.commits == files.commits + files'.commits[|files.commits|..];
    StoredExtends(files.events, files'.events[|files.events|..], input.events, events);
    StoredExtends(files.edges, files'.edges[|files.edges|..], input.edges, edges);
    FindCommitExtends(files.commits, files'.commits[|files.commits|..], input.streamId, input.commitId);
  }

  /** Files only ever grow. */
  lemma PerformExtends(files: Files, op: FileOp)
    ensures var after := Perform(files, op);
            files.events <= after.events && files.edges <= after.edges && files.commits <= after.commits
  {
    hide PrepareBatch, FindByKey, BuildRecord, HashIdempotencyKey, Blank, First;
  }

  /**
   A batch that was not cut off answers every later retry, after any run in between, with the same
   records and the same commit, and appends nothing.
   */
  lemma {:induction false} CompletedBatchReplaysForever(files: Files, input: BatchInput, events: seq<AuditRecord>, edges: seq<AuditRecord>,
                                                        commit: EvidenceCommit, ops: seq<FileOp>, clock: nat -> int)
    requires Completed(files, input, events, edges, commit)
    ensures PrepareBatch(PerformAll(files, ops), input, clock) == Success(Prepared([], [], [], events, edges, commit))
    decreases |ops|
  {
    hide Completed, PrepareBatch, Perform;
    if ops == [] {
      CompletedBatchReplays(files, input, events, edges, commit, clock);
    } else {
      PerformExtends(files, ops[0]);
      CompletedExtends(files, Perform(files, ops[0]), input, events, edges, commit);
      CompletedBatchReplaysForever(Perform(files, ops[0]), input, events, edges, commit, ops[1..], clock);
    }
  }

  // ---------- Retrying a batch that was cut off ----------

  function KeyOf(e: Event): Digest {
    HashIdempotencyKey(e.tenantId, e.id)
  }

  predicate Agrees(records: seq<AuditRecord>, e: Event) {
    var found := FindByKey(records, KeyOf(e));
    found.Some? ==> found.value.body.event == e
  }

  /** Nothing stored conflicts with the events, and they do not conflict with one another. */
  predicate Appendable(records: seq<AuditRecord>, events: seq<Event>) {
    && (forall i | 0 <= i < |events| :: Agrees(records, events[i]) && !Blank(events[i].tenantId) && !Blank(events[i].id))
    && (forall i, j | 0 <= i < |events| && 0 <= j < |events| :: KeyOf(events[i]) == KeyOf(events[j]) ==> events[i] == events[j])
  }

  lemma AgreesAfterAppend(records: seq<AuditRecord>, e: Event, now: int, f: Event)
    requires AppendOne(records, e, now).Success? && Agrees(records, f)
    requires KeyOf(e) == KeyOf(f) ==> e == f
    ensures Agrees(AppendOne(records, e, now).value.0, f)
  {
    hide Blank, HashIdempotencyKey, EndHash;
    var (after, r) := AppendOne(records, e, now).value;
    if FindByKey(records, KeyOf(e)).None? {
      FoundAfter(records, r, KeyOf(f));
    }
  }

  lemma {:induction false} FoundAfter(records: seq<AuditRecord>, r: AuditRecord, key: Digest)
    ensures FindByKey(records + [r], key)
         == if FindByKey(records, key).Some? then FindByKey(records, key)
            else if r.body.idempotencyKeyHash == key then Some(r) else None
    decreases |records|
  {
    if records != [] {
      assert (records + [r])[1..] == records[1..] + [r];
      FoundAfter(records[1..], r, key);
    }
  }

  lemma AppendableOne(records: seq<AuditRecord>, e: Event, now: int)
    requires Agrees(records, e) && !Blank(e.tenantId) && !Blank(e.id)
    ensures AppendOne(records, e, now).Success?
  {
    hide Blank, HashIdempotencyKey, FindByKey, BuildRecord;
  }

  /** Events that conflict with nothing are appended or replayed. */
  lemma {:induction false} AppendableSucceeds(records: seq<AuditRecord>, events: seq<Event>, n: nat, clock: nat -> int)
    requires Appendable(records, events) && n <= |events|
    ensures AppendMany(records, events[..n], clock).Success?
    ensures forall i | 0 <= i < |events| :: Agrees(AppendMany(records, events[..n], clock).value.0, events[i])
    decreases n
  {
    hide Agrees, Blank, AppendOne, KeyOf;
    if n > 0 {
      AppendableSucceeds(records, events, n - 1, clock);
      assert events[..n][..n - 1] == events[..n - 1];
      var sofar := AppendMany(records, events[..n - 1], clock).value.0;
      AppendableOne(sofar, events[n - 1], clock(n - 1));
      forall i | 0 <= i < |events| ensures Agrees(AppendOne(sofar, events[n - 1], clock(n - 1)).value.0, events[i]) {
        AgreesAfterAppend(sofar, events[n - 1], clock(n - 1), events[i]);
      }
    }
  }

  /** Whatever part of a batch's new records is stored, the batch can be appended again. */
  lemma PartIsAppendable(part: seq<AuditRecord>, all: seq<AuditRecord>, events: seq<Event>, results: seq<AuditRecord>)
    requires part <= all && StoredAs(all, events, results)
    ensures Appendable(part, events)
  {
    hide Blank, HashIdempotencyKey, FindByKey;
    assert all == part + all[|part|..];
    forall i | 0 <= i < |events| ensures Agrees(part, events[i]) {
      FindByKeyExtends(part, all[|part|..], KeyOf(events[i]));
    }
  }

  lemma RetryAppends(part: seq<AuditRecord>, all: seq<AuditRecord>, events: seq<Event>, results: seq<AuditRecord>,
                     tenantId: string, clock: nat -> int)
    requires part <= all && StoredAs(all, events, results) && GoodChain(part, tenantId) && OfTenant(events, tenantId)
    ensures AppendMany(part, events, clock).Success?
    ensures var (after, again) := AppendMany(part, events, clock).value;
            GoodChain(after, tenantId) && Answers(again, events, after)
  {
    hide GoodChain, StoredAs, AppendMany, Appendable;
    PartIsAppendable(part, all, events, results);
    AppendableSucceeds(part, events, |events|, clock);
    assert events[..|events|] == events;
    AppendManyKeeps(part, events, tenantId, clock);
  }

  /** Members with the same indices, types and ids are as normal as the first ones. */
  lemma NormalBySameRecords(members: seq<CommitMember>, again: seq<CommitMember>)
    requires Normal(members) && |again| == |members|
    requires forall i | 0 <= i < |members| ::
               && again[i].index == members[i].index && SameRecord(again[i], members[i]) && DigestText(again[i].recordHash)
    ensures Normal(again)
  {
    hide Blank;
    forall m | m in again ensures CleanMember(m) {
      var i :| 0 <= i < |again| && again[i] == m;
      assert members[i] in members;
    }
    forall i, j | 0 <= i < j < |again| ensures !SameRecord(again[i], again[j]) {
      assert !SameRecord(members[i], members[j]);
    }
  }

  lemma StoredHashIsDigest(records: seq<AuditRecord>, tenantId: string, r: AuditRecord)
    requires GoodChain(records, tenantId) && r in records
    ensures DigestText(r.hash)
  {
    hide UniqueKeys, KeyedById;
    var i :| 0 <= i < |records| && records[i] == r;
    assert LinkedAt(records, i, tenantId, 1, None);
  }

  lemma RetryMembersNormal(events: seq<AuditRecord>, edges: seq<AuditRecord>, eventsAgain: seq<AuditRecord>, edgesAgain: seq<AuditRecord>)
    requires Normal(MembersOf(events, edges)) && |events| == |eventsAgain| && |edges| == |edgesAgain|
    requires forall i | 0 <= i < |events| :: eventsAgain[i].body.event == events[i].body.event && DigestText(eventsAgain[i].hash)
    requires forall i | 0 <= i < |edges| :: edgesAgain[i].body.event == edges[i].body.event && DigestText(edgesAgain[i].hash)
    ensures Normal(MembersOf(eventsAgain, edgesAgain))
  {
    hide Normal;
    var members, again := MembersOf(events, edges), MembersOf(eventsAgain, edgesAgain);
    forall i | 0 <= i < |members|
      ensures again[i].index == members[i].index && SameRecord(again[i], members[i]) && DigestText(again[i].recordHash)
    {
    }
    NormalBySameRecords(members, again);
  }

  lemma NormalMembersCommit(commits: seq<EvidenceCommit>, input: BatchInput, members: seq<CommitMember>, again: seq<CommitMember>)
    requires CommitOf(CommitInputOf(commits, input, members)).Some? && Normal(again)
    ensures CommitOf(CommitInputOf(commits, input, again)).Some?
  {
    hide Normalized, RecordsRoot, OfStream, Normal, Blank;
    NormalizeIsIdempotent(again);
    NormalNonempty(again);
  }

  lemma NormalNonempty(members: seq<CommitMember>)
    requires Normal(members)
    ensures members != []
  {
  }

  /** A cut either wrote the commit, and then every line, or no commit at all. */
  lemma CutIsWholeOrUncommitted(files: Files, p: Prepared, k: int)
    requires |p.newCommits| <= 1
    ensures After(files, p, k) == After(files, p, Lines(p)) || After(files, p, k).commits == files.commits
  {
    hide First;
    CommitLineLast(p, k);
    CommitLineLast(p, Lines(p));
    FirstIsPrefix(p.newEvents, Lines(p));
    FirstIsPrefix(p.newEdges, Lines(p) - |p.newEvents|);
    FirstIsPrefix(p.newCommits, Lines(p) - |p.newEvents| - |p.newEdges|);
    assert files.commits + [] == files.commits;
  }

  /** A batch that was cut off anywhere can be retried: it is not refused, and so it completes. */
  lemma RetryOfCutBatchSucceeds(files: Files, input: BatchInput, clock: nat -> int, k: int, again: nat -> int, tenantId: string)
    requires FilesInvariant(files, tenantId) && OfTenant(input.events, tenantId) && OfTenant(input.edges, tenantId)
    requires PrepareBatch(files, input, clock).Success?
    ensures PrepareBatch(After(files, PrepareBatch(files, input, clock).value, k), input, again).Success?
  {
    hide FilesInvariant, PrepareBatch, Completed, After;
    var p := PrepareBatch(files, input, clock).value;
    AtMostOneCommit(files, input, clock);
    CutIsWholeOrUncommitted(files, p, k);
    UncutBatchCompletes(files, input, clock, tenantId);
    if After(files, p, k) == After(files, p, Lines(p)) {
      CompletedBatchReplays(After(files, p, k), input, p.events, p.edges, p.commit, again);
    } else {
      UncommittedRetry(files, input, clock, k, again, tenantId);
    }
  }

  lemma AtMostOneCommit(files: Files, input: BatchInput, clock: nat -> int)
    requires PrepareBatch(files, input, clock).Success?
    ensures |PrepareBatch(files, input, clock).value.newCommits| <= 1
  {
    hide AppendMany, CommitOf, MembersOf, FindCommit, CommitInputOf;
  }

  lemma UncommittedRetry(files: Files, input: BatchInput, clock: nat -> int, k: int, again: nat -> int, tenantId: string)
    requires FilesInvariant(files, tenantId) && OfTenant(input.events, tenantId) && OfTenant(input.edges, tenantId)
    requires PrepareBatch(files, input, clock).Success?
    requires var p := PrepareBatch(files, input, clock).value;
             After(files, p, k).commits == files.commits && After(files, p, k) != After(files, p, Lines(p))
    ensures PrepareBatch(After(files, PrepareBatch(files, input, clock).value, k), input, again).Success?
  {
    hide GoodChain, AllStreamsChain, AppendMany, CommitOf, FindCommit, StoredAs, MembersOf, CommitInputOf, First, CommitStored, Answers;
    var p := PrepareBatch(files, input, clock).value;
    CutKeepsFiles(files, input, clock, k, tenantId);
    AppendManyKeeps(files.events, input.events, tenantId, clock);
    AppendManyKeeps(files.edges, input.edges, tenantId, clock);
    AppendManyStores(files.events, input.events, tenantId, clock);
    AppendManyStores(files.edges, input.edges, tenantId, clock);
    var (events, eventResults) := AppendMany(files.events, input.events, clock).value;
    var (edges, edgeResults) := AppendMany(files.edges, input.edges, clock).value;
    var cut := After(files, p, k);
    PartOfPrepared(files, input, clock, k);
    RetryAppends(cut.events, events, input.events, eventResults, tenantId, again);
    RetryAppends(cut.edges, edges, input.edges, edgeResults, tenantId, again);
    if FindCommit(files.commits, input.streamId, input.commitId).None? {
      RetriedMembers(files, input, clock, k, again, tenantId);
    } else {
      NothingToCut(files, input, clock, k);
    }
  }

  lemma NothingToCut(files: Files, input: BatchInput, clock: nat -> int, k: int)
    requires PrepareBatch(files, input, clock).Success? && FindCommit(files.commits, input.streamId, input.commitId).Some?
    ensures var p := PrepareBatch(files, input, clock).value; After(files, p, k) == After(files, p, Lines(p))
  {
    hide AppendMany, CommitOf, MembersOf, FindCommit, CommitInputOf;
  }

  /** What a cut wrote of the records is a front of what the whole batch writes. */
  lemma PartOfPrepared(files: Files, input: BatchInput, clock: nat -> int, k: int)
    requires PrepareBatch(files, input, clock).Success?
    ensures var cut := After(files, PrepareBatch(files, input, clock).value, k);
            && AppendMany(files.events, input.events, clock).Success? && AppendMany(files.edges, input.edges, clock).Success?
            && cut.events <= AppendMany(files.events, input.events, clock).value.0
            && cut.edges <= AppendMany(files.edges, input.edges, clock).value.0
  {
    hide AppendMany, CommitOf, MembersOf, FindCommit, CommitInputOf, First;
    var p := PrepareBatch(files, input, clock).value;
    var events, edges := AppendMany(files.events, input.events, clock).value.0, AppendMany(files.edges, input.edges, clock).value.0;
    FirstIsPrefix(p.newEvents, k);
    FirstIsPrefix(p.newEdges, k - |p.newEvents|);
    assert files.events + events[|files.events|..] == events && files.edges + edges[|files.edges|..] == edges;
  }

  /** The commit of a retry names the same records, so it can be created as well. */
  lemma RetriedMembers(files: Files, input: BatchInput, clock: nat -> int, k: int, again: nat -> int, tenantId: string)
    requires FilesInvariant(files, tenantId) && OfTenant(input.events, tenantId) && OfTenant(input.edges, tenantId)
    requires PrepareBatch(files, input, clock).Success? && FindCommit(files.commits, input.streamId, input.commitId).None?
    requires var cut := After(files, PrepareBatch(files, input, clock).value, k);
             && cut.commits == files.commits
             && AppendMany(cut.events, input.events, again).Success? && AppendMany(cut.edges, input.edges, again).Success?
             && var (events, eventsAgain) := AppendMany(cut.events, input.events, again).value;
                var (edges, edgesAgain) := AppendMany(cut.edges, input.edges, again).value;
                && GoodChain(events, tenantId) && Answers(eventsAgain, input.events, events)
                && GoodChain(edges, tenantId) && Answers(edgesAgain, input.edges, edges)
    ensures PrepareBatch(After(files, PrepareBatch(files, input, clock).value, k), input, again).Success?
  {
    hide GoodChain, AllStreamsChain, AppendMany, CommitOf, FindCommit, MembersOf, CommitInputOf, CommitStored, First, Normal;
    var cut := After(files, PrepareBatch(files, input, clock).value, k);
    AppendManyKeeps(files.events, input.events, tenantId, clock);
    AppendManyKeeps(files.edges, input.edges, tenantId, clock);
    var eventResults := AppendMany(files.events, input.events, clock).value.1;
    var edgeResults := AppendMany(files.edges, input.edges, clock).value.1;
    var (events, eventsAgain) := AppendMany(cut.events, input.events, again).value;
    var (edges, edgesAgain) := AppendMany(cut.edges, input.edges, again).value;
    var members := MembersOf(eventResults, edgeResults);
    CreatedIsIntact(CommitInputOf(files.commits, input, members));
    SameMembers(files.commits, input, members);
    MembersIndexed(eventResults, edgeResults);
    forall i | 0 <= i < |eventsAgain| ensures DigestText(eventsAgain[i].hash) {
      StoredHashIsDigest(events, tenantId, eventsAgain[i]);
    }
    forall i | 0 <= i < |edgesAgain| ensures DigestText(edgesAgain[i].hash) {
      StoredHashIsDigest(edges, tenantId, edgesAgain[i]);
    }
    RetryMembersNormal(eventResults, edgeResults, eventsAgain, edgesAgain);
    NormalMembersCommit(files.commits, input, members, MembersOf(eventsAgain, edgesAgain));
  }

  lemma MembersIndexed(events: seq<AuditRecord>, edges: seq<AuditRecord>)
    ensures Indexed(MembersOf(events, edges))
  {
  }

  // ---------- One record, exactly ----------

  /**
   A record is refused exactly when it has no tenant, no id, or the id of a different stored event.
   A known event gives its record back; a new one is appended behind the last record, linked to it.
   */
  lemma AppendsOneExactly(records: seq<AuditRecord>, event: Event, tenantId: string, now: int)
    requires GoodChain(records, tenantId) && event.tenantId == tenantId
    ensures var result := AppendOne(records, event, now);
            && (result.Success? <==>
                  && !Blank(tenantId) && !Blank(event.id)
                  && forall r | r in records && r.body.event.id == event.id :: r.body.event == event)
            && (result.Success? ==>
                  var (after, r) := result.value;
                  if exists x :: x in records && x.body.event.id == event.id then after == records && r in records && r.body.event == event
                  else
                    && after == records + [r] && r.body.event == event && r.body.appendedAt == now
                    && r.body.sequence == |records| + 1 && r.hash == RecordDigest(r.body)
                    && r.body.previousHash == if records == [] then None else Some(records[|records| - 1].hash))
  {
    hide HashIdempotencyKey, FindByKey, Blank, LinkedRange, UniqueKeys;
    var key := HashIdempotencyKey(tenantId, event.id);
    GoodChainKeys(records, tenantId);
    KeyFound(records, key);
    TipIsLength(records, tenantId);
    forall x | x in records ensures x.body.idempotencyKeyHash == key <==> x.body.event.id == event.id {
      var i :| 0 <= i < |records| && records[i] == x;
      assert KeyedById(records[i], tenantId);
      KeysNameIds(tenantId, x.body.event.id, event.id);
    }
    forall x, y | x in records && y in records && x.body.idempotencyKeyHash == y.body.idempotencyKeyHash ensures x == y {
      OneOfAKey(records, x, y);
    }
  }

  lemma KeysNameIds(tenantId: string, a: string, b: string)
    ensures HashIdempotencyKey(tenantId, a) == HashIdempotencyKey(tenantId, b) <==> a == b
  {
    var prefix := tenantId + ['\0'];
    assert (prefix + a)[|prefix|..] == a && (prefix + b)[|prefix|..] == b;
    if HashIdempotencyKey(tenantId, a) == HashIdempotencyKey(tenantId, b) {
      assert HashIdempotencyKey(tenantId, a).preimage == prefix + a && HashIdempotencyKey(tenantId, b).preimage == prefix + b;
    }
  }

  lemma OneOfAKey(records: seq<AuditRecord>, x: AuditRecord, y: AuditRecord)
    requires UniqueKeys(records) && x in records && y in records && x.body.idempotencyKeyHash == y.body.idempotencyKeyHash
    ensures x == y
  {
    FoundIs(records, x, x.body.idempotencyKeyHash);
    FoundIs(records, y, x.body.idempotencyKeyHash);
  }

  lemma TipIsLength(records: seq<AuditRecord>, tenantId: string)
    requires LinkedRange(records, tenantId, 1, None)
    ensures TipSequence(records) == |records|
  {
    if records != [] {
      assert LinkedAt(records, |records| - 1, tenantId, 1, None);
    }
  }
}
