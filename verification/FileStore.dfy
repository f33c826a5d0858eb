/**
 The file-backed evidence store and the record verifier its reader runs. A process writes line
 by line and may die between any two lines, when its `life` is spent.
 */
module FileStore {
  import opened Wrappers
  import opened Protocol
  import opened AuditTables
  import opened AuditRuns
  import opened CommitLedger
  import Spec = BatchFiles
  import opened BatchFiles

  // ---------- The record verifier ----------

  /** The records of one tenant, in file order. */
  function RecordsOf(records: seq<AuditRecord>, tenantId: string): seq<AuditRecord> {
    if records == [] then []
    else
      RecordsOf(records[..|records| - 1], tenantId)
      + if records[|records| - 1].body.event.tenantId == tenantId then [records[|records| - 1]] else []
  }

  /** Every tenant's own records are one chain from genesis. */
  ghost predicate TenantsLinked(records: seq<AuditRecord>) {
    && (forall i | 0 <= i < |records| :: records[i].body.event.tenantId != [])
    && forall tenantId: string :: LinkedRange(RecordsOf(records, tenantId), tenantId, 1, None)
  }

  datatype TenantState = TenantState(previousHash: Option<Digest>, sequence: int)

  /** `r` continues its tenant's chain behind `state`. */
  predicate Continues(r: AuditRecord, state: TenantState) {
    && r.body.event.tenantId != []
    && IntactRecord(r, r.body.event.tenantId)
    && r.body.sequence == state.sequence + 1
    && r.body.previousHash == state.previousHash
  }

  datatype RecordFault = NoTenant | WrongAlgorithm | WrongCanonicalization | WrongSequence | WrongPreviousHash | WrongHash

  /** `fault` is the first check in the verifier's order that `r` fails behind `state`. */
  predicate FaultOf(r: AuditRecord, state: TenantState, fault: RecordFault) {
    if r.body.event.tenantId == [] then fault == NoTenant
    else if r.body.hashAlgorithm != Sha256 then fault == WrongAlgorithm
    else if r.body.canonicalization != VeritioJsonV1 then fault == WrongCanonicalization
    else if r.body.sequence != state.sequence + 1 then fault == WrongSequence
    else if r.body.previousHash != state.previousHash then fault == WrongPreviousHash
    else fault == WrongHash && r.hash != RecordDigest(r.body)
  }

  function StateAfter(records: seq<AuditRecord>): TenantState {
    TenantState(EndHash(records, None), |records|)
  }

  lemma RecordsOfAppend(records: seq<AuditRecord>, r: AuditRecord, tenantId: string)
    ensures RecordsOf(records + [r], tenantId)
         == RecordsOf(records, tenantId) + if r.body.event.tenantId == tenantId then [r] else []
  {
    assert (records + [r])[..|records|] == records;
  }

  lemma LinkedAppend(records: seq<AuditRecord>, r: AuditRecord, tenantId: string)
    requires LinkedRange(records, tenantId, 1, None) && r.body.event.tenantId == tenantId != []
    ensures LinkedRange(records + [r], tenantId, 1, None) <==> Continues(r, StateAfter(records))
  {
    var longer := records + [r];
    assert LinkedAt(longer, |records|, tenantId, 1, None) <==> Continues(r, StateAfter(records));
    forall i | 0 <= i < |records| ensures LinkedAt(longer, i, tenantId, 1, None) {
      assert LinkedAt(records, i, tenantId, 1, None);
    }
  }

  lemma TenantsAppend(records: seq<AuditRecord>, r: AuditRecord)
    requires TenantsLinked(records)
    ensures TenantsLinked(records + [r]) <==> Continues(r, StateAfter(RecordsOf(records, r.body.event.tenantId)))
  {
    hide LinkedRange, RecordsOf, Continues;
    var tenant := r.body.event.tenantId;
    assert (records + [r])[|records|] == r;
    NamelessDoesNotContinue(r, StateAfter(RecordsOf(records, tenant)));
    forall t: string ensures tenant != [] ==> (LinkedRange(RecordsOf(records + [r], t), t, 1, None)
                                              <==> (t == tenant ==> Continues(r, StateAfter(RecordsOf(records, t)))))
    {
      assert LinkedRange(RecordsOf(records, t), t, 1, None);
      RecordsOfAppend(records, r, t);
      assert RecordsOf(records, t) + [] == RecordsOf(records, t);
      if t == tenant != [] {
        LinkedAppend(RecordsOf(records, t), r, t);
      }
    }
    if tenant != [] && Continues(r, StateAfter(RecordsOf(records, tenant))) {
      assert forall i | 0 <= i < |records + [r]| :: (records + [r])[i].body.event.tenantId != [];
    }
  }

  lemma NamelessDoesNotContinue(r: AuditRecord, state: TenantState)
    ensures Continues(r, state) ==> r.body.event.tenantId != []
  {
  }

  lemma {:induction false} TenantsPrefix(records: seq<AuditRecord>, k: nat)
    requires TenantsLinked(records) && k <= |records|
    ensures TenantsLinked(records[..k])
    decreases |records| - k
  {
    hide LinkedRange, RecordsOf;
    if k == |records| {
      assert records[..k] == records;
    } else {
      TenantsPrefix(records, k + 1);
      var r := records[k];
      assert records[..k + 1] == records[..k] + [r];
      forall t: string ensures LinkedRange(RecordsOf(records[..k], t), t, 1, None) {
        RecordsOfAppend(records[..k], r, t);
        var part := RecordsOf(records[..k], t);
        LinkedFront(RecordsOf(records[..k + 1], t), part, t);
      }
    }
  }

  lemma LinkedFront(records: seq<AuditRecord>, front: seq<AuditRecord>, tenantId: string)
    requires LinkedRange(records, tenantId, 1, None) && front <= records
    ensures LinkedRange(front, tenantId, 1, None)
  {
    hide LinkedRange;
    LinkedRangePart(records, tenantId, 1, None, 0, |front|);
    assert records[0..|front|] == front;
  }

  /** Follows every tenant's chain in one pass. */
  method VerifyAuditRecords(records: seq<AuditRecord>) returns (failure: Option<(nat, RecordFault)>)
    ensures failure.None? <==> TenantsLinked(records)
    ensures failure.Some? ==>
              var (index, fault) := failure.value;
              && index < |records| && TenantsLinked(records[..index]) && !TenantsLinked(records[..index + 1])
              && FaultOf(records[index], StateAfter(RecordsOf(records[..index], records[index].body.event.tenantId)), fault)
  {
    hide RecordsOf, TenantsLinked, Continues, StateAfter, FaultOf;
    var tenants: map<string, TenantState> := map[];
    NoRecords();
    assert records[..0] == [];
    for index := 0 to |records|
      invariant TenantsLinked(records[..index])
      invariant forall t: string :: (if t in tenants then tenants[t] else TenantState(None, 0)) == StateAfter(RecordsOf(records[..index], t))
    {
      var r := records[index];
      var tenant := r.body.event.tenantId;
      var state := if tenant in tenants then tenants[tenant] else TenantState(None, 0);
      assert records[..index + 1] == records[..index] + [r];
      TenantsAppend(records[..index], r);
      var fault := CheckRecord(r, state);
      if fault.Some? {
        if TenantsLinked(records) {
          TenantsPrefix(records, index + 1);
        }
        return Some((index, fault.value));
      }
      forall t: string ensures StateAfter(RecordsOf(records[..index + 1], t))
                            == if t == tenant then TenantState(Some(r.hash), r.body.sequence) else StateAfter(RecordsOf(records[..index], t))
      {
        StateAppend(records[..index], r, t);
      }
      tenants := tenants[tenant := TenantState(Some(r.hash), r.body.sequence)];
    }
    assert records[..|records|] == records;
    return None;
  }

  method CheckRecord(r: AuditRecord, state: TenantState) returns (fault: Option<RecordFault>)
    ensures fault.None? <==> Continues(r, state)
    ensures fault.Some? ==> FaultOf(r, state, fault.value)
  {
    if r.body.event.tenantId == [] { return Some(NoTenant); }
    if r.body.hashAlgorithm != Sha256 { return Some(WrongAlgorithm); }
    if r.body.canonicalization != VeritioJsonV1 { return Some(WrongCanonicalization); }
    if r.body.sequence != state.sequence + 1 { return Some(WrongSequence); }
    if r.body.previousHash != state.previousHash { return Some(WrongPreviousHash); }
    if r.hash != RecordDigest(r.body) { return Some(WrongHash); }
    return None;
  }

  lemma NoRecords()
    ensures TenantsLinked([]) && forall t: string :: StateAfter(RecordsOf([], t)) == TenantState(None, 0)
  {
  }

  lemma StateAppend(records: seq<AuditRecord>, r: AuditRecord, t: string)
    requires Continues(r, StateAfter(RecordsOf(records, r.body.event.tenantId)))
    ensures StateAfter(RecordsOf(records + [r], t))
         == if t == r.body.event.tenantId then TenantState(Some(r.hash), r.body.sequence) else StateAfter(RecordsOf(records, t))
  {
    hide RecordsOf;
    RecordsOfAppend(records, r, t);
    assert RecordsOf(records, t) + [] == RecordsOf(records, t);
  }

  // ---------- Stored chains verify ----------

  lemma {:induction false} AllOfTenant(records: seq<AuditRecord>, tenantId: string, t: string)
    requires forall i | 0 <= i < |records| :: records[i].body.event.tenantId == tenantId
    ensures RecordsOf(records, t) == if t == tenantId then records else []
    decreases |records|
  {
    if records != [] {
      AllOfTenant(records[..|records| - 1], tenantId, t);
      assert records == records[..|records| - 1] + [records[|records| - 1]];
    }
  }

  lemma GoodChainVerifies(records: seq<AuditRecord>, tenantId: string)
    requires GoodChain(records, tenantId) && tenantId != []
    ensures TenantsLinked(records)
  {
    hide RecordsOf, UniqueKeys, KeyedById;
    forall i | 0 <= i < |records| ensures records[i].body.event.tenantId == tenantId {
      assert LinkedAt(records, i, tenantId, 1, None);
    }
    forall t: string ensures LinkedRange(RecordsOf(records, t), t, 1, None) {
      AllOfTenant(records, tenantId, t);
    }
  }

  /** Every file of the store passes its verifier. */
  lemma InvariantFilesVerify(files: Files, tenantId: string)
    requires FilesInvariant(files, tenantId) && tenantId != []
    ensures TenantsLinked(files.events) && TenantsLinked(files.edges) && AllStreamsChain(files.commits)
  {
    hide GoodChain, TenantsLinked, AllStreamsChain;
    GoodChainVerifies(files.events, tenantId);
    GoodChainVerifies(files.edges, tenantId);
  }

  /** The store is for one tenant: another tenant's first record behind a chain never verifies. */
  lemma SecondTenantBreaksChain(records: seq<AuditRecord>, tenantId: string, event: Event, now: int)
    requires GoodChain(records, tenantId) && records != [] && tenantId != [] && event.tenantId != tenantId
    requires AppendOne(records, event, now).Success? && AppendOne(records, event, now).value.0 != records
    ensures !TenantsLinked(AppendOne(records, event, now).value.0)
  {
    hide RecordsOf, TenantsLinked, UniqueKeys, FindByKey, HashIdempotencyKey, Blank;
    GoodChainVerifies(records, tenantId);
    forall i | 0 <= i < |records| ensures records[i].body.event.tenantId == tenantId {
      assert LinkedAt(records, i, tenantId, 1, None);
    }
    AllOfTenant(records, tenantId, event.tenantId);
    assert LinkedAt(records, |records| - 1, tenantId, 1, None);
    TenantsAppend(records, AppendOne(records, event, now).value.1);
  }

  // ---------- What acceptance means, record by record ----------

  predicate OtherTenantsBetween(records: seq<AuditRecord>, j: int, i: nat)
    requires -1 <= j < i < |records|
  {
    forall k | j < k < i :: records[k].body.event.tenantId != records[i].body.event.tenantId
  }

  /** Record `i` hashes to itself, and either starts its tenant's chain or is linked to its tenant's record `j` before it. */
  predicate RecordLinksBack(records: seq<AuditRecord>, i: nat)
    requires i < |records|
  {
    var r := records[i];
    && r.hash == RecordDigest(r.body) && r.body.event.tenantId != []
    && r.body.hashAlgorithm == Sha256 && r.body.canonicalization == VeritioJsonV1
    && (|| (OtherTenantsBetween(records, -1, i) && r.body.previousHash == None && r.body.sequence == 1)
        || (exists j :: && 0 <= j < i && OtherTenantsBetween(records, j, i) && records[j].body.event.tenantId == r.body.event.tenantId
                        && r.body.previousHash == Some(records[j].hash) && r.body.sequence == records[j].body.sequence + 1))
  }

  /** The last record of a tenant, and where it stands. */
  lemma {:induction false} LastOfTenantAt(records: seq<AuditRecord>, tenantId: string)
    ensures var own := RecordsOf(records, tenantId);
            if own == [] then forall k | 0 <= k < |records| :: records[k].body.event.tenantId != tenantId
            else exists j :: && 0 <= j < |records| && records[j] == own[|own| - 1] && records[j].body.event.tenantId == tenantId
                             && forall k | j < k < |records| :: records[k].body.event.tenantId != tenantId
    decreases |records|
  {
    if records != [] {
      var n := |records| - 1;
      var front := records[..n];
      LastOfTenantAt(front, tenantId);
      if records[n].body.event.tenantId != tenantId && RecordsOf(front, tenantId) != [] {
        var own := RecordsOf(front, tenantId);
        var j :| && 0 <= j < |front| && front[j] == own[|own| - 1] && front[j].body.event.tenantId == tenantId
                 && forall k | j < k < |front| :: front[k].body.event.tenantId != tenantId;
        assert records[j] == front[j];
        forall k | j < k < |records| ensures records[k].body.event.tenantId != tenantId {
          if k < n { assert front[k] == records[k]; }
        }
      } else if records[n].body.event.tenantId != tenantId {
        forall k | 0 <= k < |records| ensures records[k].body.event.tenantId != tenantId {
          if k < n { assert front[k] == records[k]; }
        }
      }
    }
  }

  lemma TenantCounts(records: seq<AuditRecord>, tenantId: string)
    requires TenantsLinked(records)
    ensures var own := RecordsOf(records, tenantId); own != [] ==> own[|own| - 1].body.sequence == |own|
  {
    hide RecordsOf;
    var own := RecordsOf(records, tenantId);
    assert LinkedRange(own, tenantId, 1, None);
    if own != [] {
      assert LinkedAt(own, |own| - 1, tenantId, 1, None);
    }
  }

  lemma RecordLinksBackTo(records: seq<AuditRecord>, i: nat, j: nat)
    requires j < i < |records| && records[j].body.event.tenantId == records[i].body.event.tenantId && OtherTenantsBetween(records, j, i)
    ensures RecordLinksBack(records, i) <==> Continues(records[i], TenantState(Some(records[j].hash), records[j].body.sequence))
  {
    forall j' | 0 <= j' < i && OtherTenantsBetween(records, j', i) && records[j'].body.event.tenantId == records[i].body.event.tenantId
      ensures j' == j
    {
    }
  }

  lemma RecordStartsChain(records: seq<AuditRecord>, i: nat)
    requires i < |records| && OtherTenantsBetween(records, -1, i)
    ensures RecordLinksBack(records, i) <==> Continues(records[i], TenantState(None, 0))
  {
  }

  lemma ContinuesIsLinksBack(records: seq<AuditRecord>, r: AuditRecord)
    requires TenantsLinked(records)
    ensures Continues(r, StateAfter(RecordsOf(records, r.body.event.tenantId))) <==> RecordLinksBack(records + [r], |records|)
  {
    hide RecordsOf, Continues, RecordLinksBack, TenantsLinked;
    var t, longer, i := r.body.event.tenantId, records + [r], |records|;
    var own := RecordsOf(records, t);
    LastOfTenantAt(records, t);
    TenantCounts(records, t);
    assert longer[i] == r;
    if own == [] {
      forall k | -1 < k < i ensures longer[k].body.event.tenantId != t { assert longer[k] == records[k]; }
      RecordStartsChain(longer, i);
    } else {
      var j :| && 0 <= j < |records| && records[j] == own[|own| - 1] && records[j].body.event.tenantId == t
               && forall k | j < k < |records| :: records[k].body.event.tenantId != t;
      assert longer[j] == records[j];
      forall k | j < k < i ensures longer[k].body.event.tenantId != t { assert longer[k] == records[k]; }
      RecordLinksBackTo(longer, i, j);
    }
  }

  lemma RecordLinksBackInFront(records: seq<AuditRecord>, r: AuditRecord, i: nat)
    requires i < |records|
    ensures RecordLinksBack(records + [r], i) <==> RecordLinksBack(records, i)
  {
    var longer := records + [r];
    assert forall k | 0 <= k <= i :: longer[k] == records[k];
    assert forall j | -1 <= j < i :: OtherTenantsBetween(longer, j, i) <==> OtherTenantsBetween(records, j, i);
  }

  /** The verifier accepts exactly the files whose every record hashes to itself and links back within its tenant. */
  lemma {:induction false} AcceptedRecordsLinkBack(records: seq<AuditRecord>)
    ensures TenantsLinked(records) <==> forall i | 0 <= i < |records| :: RecordLinksBack(records, i)
    decreases |records|
  {
    hide TenantsLinked, RecordLinksBack, Continues, RecordsOf, StateAfter;
    if records == [] {
      NoRecords();
    } else {
      var n := |records| - 1;
      var front, r := records[..n], records[n];
      assert records == front + [r];
      AcceptedRecordsLinkBack(front);
      forall i | 0 <= i < n ensures RecordLinksBack(records, i) <==> RecordLinksBack(front, i) {
        RecordLinksBackInFront(front, r, i);
      }
      if TenantsLinked(records) {
        TenantsPrefix(records, n);
      }
      if TenantsLinked(front) {
        TenantsAppend(front, r);
        ContinuesIsLinksBack(front, r);
      }
    }
  }

  // ---------- The store ----------

  class FileEvidenceStore {
    var events: seq<AuditRecord>
    var edges: seq<AuditRecord>
    var commits: seq<EvidenceCommit>
    /** Line appends left before this process dies. */
    var life: nat

    function View(): Files
      reads this
    {
      Files(events, edges, commits)
    }

    constructor ()
      ensures View() == Files([], [], [])
    {
      events, edges, commits, life := [], [], [], 0;
    }

    static method FindRecord(records: seq<AuditRecord>, key: Digest) returns (row: Option<AuditRecord>)
      ensures row == FindByKey(records, key)
    {
      for i := 0 to |records|
        invariant FindByKey(records, key) == FindByKey(records[i..], key)
      {
        if records[i].body.idempotencyKeyHash == key { return Some(records[i]); }
        assert records[i..][1..] == records[i + 1..];
      }
      return None;
    }

    /** Appends or replays one record in the loaded rows. */
    static method AppendRecord(records: seq<AuditRecord>, event: Event, now: int) returns (r: Result<(seq<AuditRecord>, AuditRecord), FileError>)
      ensures r == AppendOne(records, event, now)
    {
      hide FindByKey, Blank, HashIdempotencyKey;
      if Blank(event.tenantId) { return Failure(MissingTenant); }
      if Blank(event.id) { return Failure(MissingId); }
      var keyHash := HashIdempotencyKey(event.tenantId, event.id);
      var existing := FindRecord(records, keyHash);
      if existing.Some? {
        if existing.value.body.event != event { return Failure(KeyConflict); }
        return Success((records, existing.value));
      }
      var body := RecordBody(event, TipSequence(records) + 1, EndHash(records, None), Sha256, VeritioJsonV1, now, keyHash);
      var record := AuditRecord(body, RecordDigest(body));
      return Success((records + [record], record));
    }

    static method AppendRecords(records: seq<AuditRecord>, inputs: seq<Event>, clock: nat -> int)
      returns (r: Result<(seq<AuditRecord>, seq<AuditRecord>), FileError>)
      ensures r == AppendMany(records, inputs, clock)
    {
      hide AppendOne;
      var all: seq<AuditRecord>, results: seq<AuditRecord> := records, [];
      for i := 0 to |inputs|
        invariant AppendMany(records, inputs[..i], clock) == Success((all, results))
      {
        assert inputs[..i + 1][..i] == inputs[..i];
        var one := AppendRecord(all, inputs[i], clock(i));
        if one.Failure? {
          LaterFails(records, inputs, clock, i);
          return Failure(one.error);
        }
        all, results := one.value.0, results + [one.value.1];
      }
      assert inputs[..|inputs|] == inputs;
      return Success((all, results));
    }

    /** A refused record refuses the batch. */
    static lemma {:induction false} LaterFails(records: seq<AuditRecord>, inputs: seq<Event>, clock: nat -> int, i: nat)
      requires i < |inputs| && AppendMany(records, inputs[..i + 1], clock).Failure?
      ensures AppendMany(records, inputs, clock) == Failure(AppendMany(records, inputs[..i + 1], clock).error)
      decreases |inputs| - i
    {
      hide AppendOne;
      if i + 1 == |inputs| {
        assert inputs[..i + 1] == inputs;
      } else {
        assert inputs[..i + 2][..i + 1] == inputs[..i + 1];
        LaterFails(records, inputs, clock, i + 1);
      }
    }

    method WriteEvents(lines: seq<AuditRecord>)
      modifies this`events, this`life
      ensures events == old(events) + First(lines, old(life))
      ensures life == if old(life) > |lines| then old(life) - |lines| else 0
    {
      for i := 0 to |lines|
        invariant events == old(events) + First(lines[..i], old(life))
        invariant life == if old(life) > i then old(life) - i else 0
      {
        FirstGrows(lines, i, old(life));
        if life > 0 {
          life := life - 1;
          events := events + [lines[i]];
        }
      }
      assert lines[..|lines|] == lines;
    }

    static lemma FirstGrows<T>(lines: seq<T>, i: nat, k: int)
      requires i < |lines|
      ensures First(lines[..i + 1], k) == First(lines[..i], k) + if k > i then [lines[i]] else []
    {
    }

    method WriteEdges(lines: seq<AuditRecord>)
      modifies this`edges, this`life
      ensures edges == old(edges) + First(lines, old(life))
      ensures life == if old(life) > |lines| then old(life) - |lines| else 0
    {
      for i := 0 to |lines|
        invariant edges == old(edges) + First(lines[..i], old(life))
        invariant life == if old(life) > i then old(life) - i else 0
      {
        FirstGrows(lines, i, old(life));
        if life > 0 {
          life := life - 1;
          edges := edges + [lines[i]];
        }
      }
      assert lines[..|lines|] == lines;
    }

    method WriteCommit(commit: EvidenceCommit)
      modifies this`commits, this`life
      ensures commits == old(commits) + First([commit], old(life))
    {
      if life > 0 {
        life := life - 1;
        commits := commits + [commit];
      }
    }

    method RecordEvent(event: Event, now: int) returns (r: Result<AuditRecord, FileError>)
      modifies this
      ensures View() == Spec.Perform(old(View()), EventOp(event, now, old(life)))
      ensures r.Success? <==> AppendOne(old(events), event, now).Success?
      ensures r.Success? ==> r.value == AppendOne(old(events), event, now).value.1
    {
      var one := AppendRecord(events, event, now);
      if one.Failure? { return Failure(one.error); }
      var added := one.value.0[|events|..];
      assert events + added == one.value.0 && events + [] == events;
      WriteEvents(added);
      return Success(one.value.1);
    }

    method RecordEdge(edge: Event, now: int) returns (r: Result<AuditRecord, FileError>)
      modifies this
      ensures View() == Spec.Perform(old(View()), EdgeOp(edge, now, old(life)))
      ensures r.Success? <==> AppendOne(old(edges), edge, now).Success?
      ensures r.Success? ==> r.value == AppendOne(old(edges), edge, now).value.1
    {
      var one := AppendRecord(edges, edge, now);
      if one.Failure? { return Failure(one.error); }
      var added := one.value.0[|edges|..];
      assert edges + added == one.value.0 && edges + [] == edges;
      WriteEdges(added);
      return Success(one.value.1);
    }

    /** The last commit of a stream. */
    static method LastOfStream(commits: seq<EvidenceCommit>, streamId: string) returns (last: Option<EvidenceCommit>)
      ensures var stream := OfStream(commits, streamId); last == if stream == [] then None else Some(stream[|stream| - 1])
    {
      last := None;
      for i := 0 to |commits|
        invariant var stream := OfStream(commits[..i], streamId); last == if stream == [] then None else Some(stream[|stream| - 1])
      {
        assert commits[..i + 1][..i] == commits[..i];
        if commits[i].body.streamId == streamId { last := Some(commits[i]); }
      }
      assert commits[..|commits|] == commits;
    }

    static method FindExisting(commits: seq<EvidenceCommit>, streamId: string, commitId: string) returns (c: Option<EvidenceCommit>)
      ensures c == FindCommit(commits, streamId, commitId)
    {
      for i := 0 to |commits|
        invariant FindCommit(commits, streamId, commitId) == FindCommit(commits[i..], streamId, commitId)
      {
        if commits[i].body.streamId == streamId && commits[i].body.commitId == commitId { return Some(commits[i]); }
        assert commits[i..][1..] == commits[i + 1..];
      }
      return None;
    }

    /** Appends a batch's new events, then its new edges, then its commit. */
    method RecordBatch(input: BatchInput, clock: nat -> int) returns (r: Result<(seq<AuditRecord>, seq<AuditRecord>, EvidenceCommit), FileError>)
      modifies this
      ensures View() == Spec.Perform(old(View()), BatchOp(input, clock, old(life)))
      ensures match PrepareBatch(old(View()), input, clock)
              case Failure(e) => r == Failure(e)
              case Success(p) => r == Success((p.events, p.edges, p.commit))
    {
      hide AppendMany, CommitOf, OfStream, FindCommit, MembersOf, First;
      ghost var files := View();
      var appendedEvents := AppendRecords(events, input.events, clock);
      if appendedEvents.Failure? { return Failure(appendedEvents.error); }
      var appendedEdges := AppendRecords(edges, input.edges, clock);
      if appendedEdges.Failure? { return Failure(appendedEdges.error); }
      var (allEvents, eventResults) := appendedEvents.value;
      var (allEdges, edgeResults) := appendedEdges.value;
      if |eventResults| + |edgeResults| == 0 { return Failure(EmptyBatch); }
      var members := MembersOf(eventResults, edgeResults);
      var existing := FindExisting(commits, input.streamId, input.commitId);
      if existing.Some? {
        if existing.value.body.members != members { return Failure(CommitIdConflict); }
        NothingWritten(files, eventResults, edgeResults, existing.value, life);
        return Success((eventResults, edgeResults, existing.value));
      }
      var previous := LastOfStream(commits, input.streamId);
      var commit := CreateEvidenceCommit(CommitInput(
        input.commitId, input.streamId, (if previous.Some? then previous.value.body.sequence else 0) + 1,
        (if previous.Some? then Some(previous.value.hash) else None), members, input.committedAt));
      if commit.None? { return Failure(InvalidCommit); }
      var newEvents, newEdges := allEvents[|events|..], allEdges[|edges|..];
      DeadWritesNothing([commit.value], life - |newEvents| - |newEdges|);
      DeadWritesNothing(newEdges, life - |newEvents|);
      WriteEvents(newEvents);
      WriteEdges(newEdges);
      WriteCommit(commit.value);
      return Success((eventResults, edgeResults, commit.value));
    }

    static lemma NothingWritten(files: Files, events: seq<AuditRecord>, edges: seq<AuditRecord>, commit: EvidenceCommit, k: int)
      ensures After(files, Prepared([], [], [], events, edges, commit), k) == files
    {
    }

    static lemma DeadWritesNothing<T>(lines: seq<T>, k: int)
      ensures k <= 0 ==> First(lines, k) == First(lines, 0)
    {
    }

    /** Verifies the three chains. */
    method Verify() returns (ok: bool)
      ensures ok <==> TenantsLinked(events) && TenantsLinked(edges) && AllStreamsChain(commits)
    {
      hide TenantsLinked, AllStreamsChain;
      var audit := VerifyAuditRecords(events);
      var graph := VerifyAuditRecords(edges);
      var ledger := VerifyEvidenceCommits(commits);
      return audit.None? && graph.None? && ledger.CommitsAccepted?;
    }
  }
}
