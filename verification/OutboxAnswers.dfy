/**
 What the outbox answers and stores, row by row: which enqueues are accepted and kept, which due
 rows a claim may leave behind, and what a settlement or a resume does to each row.
 */
module OutboxAnswers {
  import opened Wrappers
  import opened OutboxRows
  import opened OutboxRuns

  // ---------- Enqueueing ----------

  predicate HasId(rows: seq<Row>, id: int) {
    exists r :: r in rows && r.id == id
  }

  predicate Carries(row: Row, input: EnqueueInput) {
    row.id == input.id && row.tenantId == input.tenantId && row.payload == input.payload
  }

  function Bytes(rows: seq<Row>): nat {
    if rows == [] then 0 else |rows[0].payload| + Bytes(rows[1..])
  }

  /** The answers that made a new row: accepted, under an id that no row before had. */
  function NewRows(before: seq<Row>, inputs: seq<EnqueueInput>, results: seq<Result<Row, OutboxError>>): seq<Row>
    requires |results| <= |inputs|
    decreases |results|
  {
    if results == [] then []
    else
      var n := |results| - 1;
      var earlier := NewRows(before, inputs, results[..n]);
      if results[n].Success? && !HasId(before + earlier, inputs[n].id) then earlier + [results[n].value] else earlier
  }

  /**
   The answer to the enqueue behind `results`. A known id gives its row back, or a conflict when
   that row carries something else; a new one gives a fresh row, or is refused exactly when its
   payload does not fit behind everything undelivered and everything accepted so far.
   */
  predicate Answers(before: seq<Row>, inputs: seq<EnqueueInput>, results: seq<Result<Row, OutboxError>>, answer: Result<Row, OutboxError>,
                    max: Option<int>, now: int)
    requires |results| < |inputs|
  {
    var input, known := inputs[|results|], before + NewRows(before, inputs, results);
    if HasId(known, input.id) then
      match answer
      case Success(row) => row in known && Carries(row, input)
      case Failure(e) => e == IdempotencyConflict && exists row :: row in known && row.id == input.id && !Carries(row, input)
    else if max.Some? && Backlog(before) + Bytes(NewRows(before, inputs, results)) + |input.payload| > max.value then
      answer == Failure(QueueFull)
    else
      answer == Success(Row(input.id, input.tenantId, input.payload, input.availableAt.GetOr(now), Ready, 0, now, now))
  }

  /** The staged rows are the old ones and the new ones, and so is their backlog. */
  predicate Staged(before: seq<Row>, inputs: seq<EnqueueInput>, results: seq<Result<Row, OutboxError>>, staged: seq<Row>)
    requires |results| <= |inputs|
  {
    && multiset(staged) == multiset(before + NewRows(before, inputs, results))
    && Backlog(staged) == Backlog(before) + Bytes(NewRows(before, inputs, results))
  }

  lemma SameIds(a: seq<Row>, b: seq<Row>)
    requires multiset(a) == multiset(b)
    ensures forall r :: r in a <==> r in b
  {
    assert forall r :: r in a <==> r in multiset(a);
    assert forall r :: r in b <==> r in multiset(b);
  }

  lemma IndexIsHasId(rows: seq<Row>, id: int)
    ensures IndexOf(rows, id).Some? <==> HasId(rows, id)
  {
    match IndexOf(rows, id)
    case Some(i) => assert rows[i] in rows;
    case None =>
  }

  lemma {:induction false} BytesOfOneMore(rows: seq<Row>, row: Row)
    ensures Bytes(rows + [row]) == Bytes(rows) + |row.payload|
    decreases |rows|
  {
    if rows == [] {
      assert rows + [row] == [row];
    } else {
      BytesOfOneMore(rows[1..], row);
      assert (rows + [row])[1..] == rows[1..] + [row];
    }
  }

  lemma InsertedRows(rows: seq<Row>, row: Row)
    ensures multiset(Insert(rows, row)) == multiset(rows) + multiset{row}
  {
    var k := InsertPlace(rows, row);
    assert rows == rows[..k] + rows[k..];
  }

  /** One enqueue on the staged rows answers as it should and stages what it accepted. */
  lemma OneMoreAnswer(before: seq<Row>, inputs: seq<EnqueueInput>, results: seq<Result<Row, OutboxError>>, staged: seq<Row>,
                      max: Option<int>, now: int)
    requires |results| < |inputs| && Staged(before, inputs, results, staged)
    ensures var (staged', answer) := Enqueue(staged, inputs[|results|], max, now);
            Answers(before, inputs, results, answer, max, now) && Staged(before, inputs, results + [answer], staged')
  {
    hide Insert, Backlog, Bytes, IndexOf, HasId;
    var input, known := inputs[|results|], before + NewRows(before, inputs, results);
    var (staged', answer) := Enqueue(staged, input, max, now);
    assert (results + [answer])[..|results|] == results;
    SameIds(staged, known);
    IndexIsHasId(staged, input.id);
    SameHasId(staged, known, input.id);
    if HasId(known, input.id) {
      var i := IndexOf(staged, input.id).value;
      assert staged[i] in staged;
    } else if answer.Success? {
      NewIsStaged(before, inputs, results, staged, answer.value);
    }
  }

  lemma NewIsStaged(before: seq<Row>, inputs: seq<EnqueueInput>, results: seq<Result<Row, OutboxError>>, staged: seq<Row>, entry: Row)
    requires |results| < |inputs| && Staged(before, inputs, results, staged)
    requires !HasId(before + NewRows(before, inputs, results), inputs[|results|].id) && entry.status == Ready
    ensures Staged(before, inputs, results + [Success(entry)], Insert(staged, entry))
  {
    hide Insert, Backlog, Bytes, HasId;
    var known := before + NewRows(before, inputs, results);
    assert (results + [Success(entry)])[..|results|] == results;
    InsertedRows(staged, entry);
    BacklogOfInsert(staged, entry);
    BytesOfOneMore(NewRows(before, inputs, results), entry);
    assert before + (NewRows(before, inputs, results) + [entry]) == known + [entry];
  }

  lemma SameHasId(a: seq<Row>, b: seq<Row>, id: int)
    requires forall r :: r in a <==> r in b
    ensures HasId(a, id) <==> HasId(b, id)
  {
  }

  /** Every accepted enqueue is among the rows kept and the rows made. */
  lemma {:induction false} AcceptedIsKept(before: seq<Row>, inputs: seq<EnqueueInput>, results: seq<Result<Row, OutboxError>>, i: nat,
                                          max: Option<int>, now: int)
    requires i < |results| <= |inputs| && results[i].Success?
    requires Answers(before, inputs, results[..i], results[i], max, now)
    ensures results[i].value in before + NewRows(before, inputs, results) && Carries(results[i].value, inputs[i])
    decreases |results|
  {
    hide HasId, Backlog, Bytes;
    var n := |results| - 1;
    if i < n {
      assert results[..n][..i] == results[..i];
      AcceptedIsKept(before, inputs, results[..n], i, max, now);
    }
  }

  // ---------- Claiming ----------

  /** `row` waits, or its lease has run out, and the tenant filter admits it. */
  predicate IsDue(row: Row, o: ClaimOptions) {
    && (row.status == Ready || row.status.Leased?) && row.availableAt <= o.now
    && (o.tenantId == None || o.tenantId == Some(row.tenantId))
  }

  /** No row of the tenant is held, and none has a lease that still runs. */
  predicate TenantOpen(rows: seq<Row>, tenantId: string, now: int) {
    forall r | r in rows && r.tenantId == tenantId :: !r.status.Held? && (r.status.Leased? ==> r.availableAt <= now)
  }

  /** A claim leases exactly the claimed rows, each until `leaseMs` from now, and leaves every other row as it was. */
  lemma ClaimLeases(rows: seq<Row>, o: ClaimOptions)
    requires ValidClaimOptions(o)
    ensures var positions, after := ClaimedPositions(rows, o), Claim(rows, o);
            && |after| == |rows|
            && forall p | 0 <= p < |rows| ::
                 after[p] == if p in positions then rows[p].(status := Leased(o.leaseId), availableAt := o.now + o.leaseMs, updatedAt := o.now)
                             else rows[p]
  {
    hide ClaimedPositions;
  }

  lemma DueIsDue(rows: seq<Row>, row: Row, o: ClaimOptions)
    ensures Due(row, o) <==> IsDue(row, o)
    ensures Blocked(rows, row.tenantId, o.now) <==> !TenantOpen(rows, row.tenantId, o.now)
  {
    if !TenantOpen(rows, row.tenantId, o.now) {
      var r :| r in rows && r.tenantId == row.tenantId && !(!r.status.Held? && (r.status.Leased? ==> r.availableAt <= o.now));
      var i :| 0 <= i < |rows| && rows[i] == r;
    }
  }

  /** Row `q` is due, its tenant is open and got nothing, and its payload did not fit behind the claimed bytes. */
  predicate DidNotFit(rows: seq<Row>, o: ClaimOptions, positions: seq<nat>, taken: set<string>, bytes: nat, q: nat)
    requires q < |rows| && forall k | 0 <= k < |positions| :: positions[k] < |rows|
  {
    && IsDue(rows[q], o) && TenantOpen(rows, rows[q].tenantId, o.now) && rows[q].tenantId !in taken
    && (forall k | 0 <= k < |positions| :: rows[positions[k]].tenantId != rows[q].tenantId)
    && bytes + PayloadBytes(rows, positions) + |rows[q].payload| > o.maxPayloadBytes
  }

  /** Why a walk leaves the due row `p` of an open tenant: its tenant has an older one, or a limit was reached before it. */
  predicate Accounted(rows: seq<Row>, i: nat, o: ClaimOptions, taken: set<string>, count: nat, bytes: nat, positions: seq<nat>, p: nat)
    requires i <= p < |rows| && forall k | 0 <= k < |positions| :: positions[k] < |rows|
  {
    || rows[p].tenantId in taken || count + |positions| == o.limit
    || (exists k :: 0 <= k < |positions| && positions[k] <= p && rows[positions[k]].tenantId == rows[p].tenantId)
    || (exists q :: i <= q <= p && DidNotFit(rows, o, positions, taken, bytes, q))
  }

  lemma {:induction false} WalkSkipsNothing(rows: seq<Row>, i: nat, o: ClaimOptions, taken: set<string>, count: nat, bytes: nat, p: nat)
    requires i <= p < |rows| && count <= o.limit && bytes <= o.maxPayloadBytes
    requires IsDue(rows[p], o) && TenantOpen(rows, rows[p].tenantId, o.now)
    ensures var positions := Taken(rows, i, o, taken, count, bytes);
            && (forall k | 0 <= k < |positions| :: positions[k] < |rows|)
            && Accounted(rows, i, o, taken, count, bytes, positions, p)
    decreases |rows| - i
  {
    hide Due, IsDue, TenantOpen, Blocked, PayloadBytes;
    DueIsDue(rows, rows[p], o);
    DueIsDue(rows, rows[i], o);
    WalkIsBounded(rows, i, o, taken, count, bytes);
    if count >= o.limit {
    } else if !Takes(rows, i, o, taken) {
      if i < p {
        WalkSkipsNothing(rows, i + 1, o, taken, count, bytes, p);
      }
    } else if bytes + |rows[i].payload| > o.maxPayloadBytes {
      assert DidNotFit(rows, o, [], taken, bytes, i);
    } else if rows[i].tenantId == rows[p].tenantId {
      assert Taken(rows, i, o, taken, count, bytes)[0] == i;
    } else {
      var taken', bytes' := taken + {rows[i].tenantId}, bytes + |rows[i].payload|;
      WalkSkipsNothing(rows, i + 1, o, taken', count + 1, bytes', p);
      AccountedBehind(rows, i, o, taken, count, bytes, Taken(rows, i + 1, o, taken', count + 1, bytes'), p);
    }
  }

  lemma AccountedBehind(rows: seq<Row>, i: nat, o: ClaimOptions, taken: set<string>, count: nat, bytes: nat, rest: seq<nat>, p: nat)
    requires i < p < |rows| && forall k | 0 <= k < |rest| :: rest[k] < |rows|
    requires rows[i].tenantId != rows[p].tenantId
    requires Accounted(rows, i + 1, o, taken + {rows[i].tenantId}, count + 1, bytes + |rows[i].payload|, rest, p)
    ensures Accounted(rows, i, o, taken, count, bytes, [i] + rest, p)
  {
    hide IsDue, TenantOpen;
    var positions, taken', bytes' := [i] + rest, taken + {rows[i].tenantId}, bytes + |rows[i].payload|;
    assert positions[1..] == rest;
    if k :| 0 <= k < |rest| && rest[k] <= p && rows[rest[k]].tenantId == rows[p].tenantId {
      assert positions[k + 1] == rest[k];
    } else if q :| i + 1 <= q <= p && DidNotFit(rows, o, rest, taken', bytes', q) {
      assert DidNotFit(rows, o, positions, taken, bytes, q);
    }
  }

  /**
   A claim passes over no due row of an open tenant, expired leases included, except for an older
   row of the same tenant, because the limit is reached, or behind a payload that did not fit.
   */
  lemma ClaimSkipsNothing(rows: seq<Row>, o: ClaimOptions, p: nat)
    requires ValidClaimOptions(o) && p < |rows|
    requires IsDue(rows[p], o) && TenantOpen(rows, rows[p].tenantId, o.now)
    ensures var positions := ClaimedPositions(rows, o);
            && (forall k | 0 <= k < |positions| :: positions[k] < |rows|)
            && (|| |positions| == o.limit
                || (exists k :: 0 <= k < |positions| && positions[k] <= p && rows[positions[k]].tenantId == rows[p].tenantId)
                || (exists q | 0 <= q <= p :: DidNotFit(rows, o, positions, {}, 0, q)))
  {
    hide IsDue, TenantOpen, Taken, DidNotFit;
    WalkSkipsNothing(rows, 0, o, {}, 0, 0, p);
  }

  // ---------- Settling and resuming ----------

  predicate OwnsLease(row: Row, leaseId: Option<string>) {
    if row.status.Leased? then leaseId == Some(row.status.leaseId) else leaseId == None
  }

  /** Row `i`, and no other, becomes `row`; or the caller does not own the row and nothing changes. */
  predicate SettledOnly(rows: seq<Row>, i: nat, leaseId: Option<string>, row: Row, after: seq<Row>, r: Result<Row, OutboxError>)
    requires i < |rows|
  {
    if OwnsLease(rows[i], leaseId) then r == Success(row) && after == rows[i := row]
    else r.Failure? && after == rows
  }

  lemma FoundById(rows: seq<Row>, i: nat)
    requires UniqueIds(rows) && i < |rows|
    ensures IndexOf(rows, rows[i].id) == Some(i)
  {
    if IndexOf(rows, rows[i].id).None? { assert false; }
  }

  lemma DeliverySettles(rows: seq<Row>, i: nat, leaseId: Option<string>, at: int)
    requires UniqueIds(rows) && i < |rows|
    ensures var (after, r) := Settle(rows, rows[i].id, leaseId, row => DeliveredRow(row, at));
            SettledOnly(rows, i, leaseId, rows[i].(status := Delivered(at), updatedAt := at), after, r)
  {
    hide UniqueIds, IndexOf;
    FoundById(rows, i);
  }

  /** A failure counts the attempt; a rejection buries the row, a pause holds it, a retry frees it for later. */
  lemma FailureSettles(rows: seq<Row>, i: nat, leaseId: Option<string>, verdict: Verdict, availableAt: Option<int>, circuitId: string, now: int)
    requires UniqueIds(rows) && i < |rows|
    ensures var (after, r) := Settle(rows, rows[i].id, leaseId, row => FailedRow(row, verdict, availableAt, circuitId, now));
            var counted := rows[i].(attempts := rows[i].attempts + 1, updatedAt := now);
            && (verdict == RejectVerdict ==> SettledOnly(rows, i, leaseId, counted.(status := Dead), after, r))
            && (verdict == PauseVerdict ==> SettledOnly(rows, i, leaseId, counted.(status := Held(circuitId)), after, r))
            && (verdict == RetryVerdict ==>
                  SettledOnly(rows, i, leaseId, counted.(status := Ready, availableAt := availableAt.GetOr(now)), after, r))
  {
    hide UniqueIds, IndexOf;
    FoundById(rows, i);
  }

  function HeldRows(rows: seq<Row>, tenantId: string): nat
    decreases |rows|
  {
    if rows == [] then 0
    else
      var last := rows[|rows| - 1];
      HeldRows(rows[..|rows| - 1], tenantId) + if last.tenantId == tenantId && last.status.Held? then 1 else 0
  }

  lemma {:induction false} HeldRowsOfFirst(row: Row, rows: seq<Row>, tenantId: string)
    ensures HeldRows([row] + rows, tenantId) == (if row.tenantId == tenantId && row.status.Held? then 1 else 0) + HeldRows(rows, tenantId)
    decreases |rows|
  {
    if rows == [] {
      assert ([row] + rows)[..0] == [];
    } else {
      assert ([row] + rows)[..|rows|] == [row] + rows[..|rows| - 1];
      HeldRowsOfFirst(row, rows[..|rows| - 1], tenantId);
    }
  }

  lemma {:induction false} RearmsFirst(rows: seq<Row>, tenantId: string, limit: nat, now: int, i: nat)
    requires i < |rows|
    ensures var after := Rearm(rows, tenantId, limit, now);
            && |after| == |rows|
            && after[i] == if rows[i].tenantId == tenantId && rows[i].status.Held? && HeldRows(rows[..i], tenantId) < limit
                           then rows[i].(status := Ready, availableAt := now, updatedAt := now) else rows[i]
    decreases |rows|
  {
    hide HeldRows;
    RearmRows(rows, tenantId, limit, now);
    var limit' := if limit > 0 && HeldBy(rows[0], tenantId) then limit - 1 else limit;
    if i > 0 {
      RearmsFirst(rows[1..], tenantId, limit', now, i - 1);
      assert rows[..i] == [rows[0]] + rows[1..][..i - 1];
      HeldRowsOfFirst(rows[0], rows[1..][..i - 1], tenantId);
    } else {
      NoHeldRows(tenantId);
    }
  }

  lemma NoHeldRows(tenantId: string)
    ensures HeldRows([], tenantId) == 0
  {
  }

  /** A resume is refused exactly when a held row of the tenant names another circuit; otherwise it frees the first `limit` held rows. */
  lemma ResumesExactly(rows: seq<Row>, tenantId: string, circuitId: string, limit: nat, now: int)
    ensures var (after, error) := Resume(rows, tenantId, circuitId, limit, now);
            && (error == None <==> forall r | r in rows && r.tenantId == tenantId && r.status.Held? :: r.status.circuitId == circuitId)
            && (error != None ==> after == rows)
            && |after| == |rows|
            && (error == None ==> forall i | 0 <= i < |rows| ::
                  after[i] == if rows[i].tenantId == tenantId && rows[i].status.Held? && HeldRows(rows[..i], tenantId) < limit
                              then rows[i].(status := Ready, availableAt := now, updatedAt := now) else rows[i])
  {
    hide Rearm, HeldRows;
    var (after, error) := Resume(rows, tenantId, circuitId, limit, now);
    RearmRows(rows, tenantId, limit, now);
    if error == None {
      forall i | 0 <= i < |rows|
        ensures after[i] == if rows[i].tenantId == tenantId && rows[i].status.Held? && HeldRows(rows[..i], tenantId) < limit
                            then rows[i].(status := Ready, availableAt := now, updatedAt := now) else rows[i]
      {
        RearmsFirst(rows, tenantId, limit, now, i);
      }
    } else {
      var i :| 0 <= i < |rows| && WrongCircuit(rows[i], tenantId, circuitId);
      assert rows[i] in rows;
    }
  }
}
