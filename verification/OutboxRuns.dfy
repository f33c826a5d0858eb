/**
 What every run of the outbox keeps, for clocks that never go back and settlements that carry
 their lease: one unexpired lease a tenant, no claim past a hold, finality of settled rows, and
 the byte ceiling.
 */
module OutboxRuns {
  import opened Wrappers
  import opened OutboxRows

  // ---------- Queue order and sums ----------

  /** Where a row is inserted. */
  lemma {:induction false} InsertPlace(rows: seq<Row>, row: Row) returns (k: nat)
    ensures k <= |rows| && Insert(rows, row) == rows[..k] + [row] + rows[k..]
    ensures forall i | 0 <= i < k :: !Before(row, rows[i])
    ensures k < |rows| ==> Before(row, rows[k])
    decreases |rows|
  {
    if rows == [] || Before(row, rows[0]) {
      k := 0;
    } else {
      var j := InsertPlace(rows[1..], row);
      k := j + 1;
      assert rows[..k] == [rows[0]] + rows[1..][..j] && rows[k..] == rows[1..][j..];
      assert forall i | 1 <= i < k :: rows[i] == rows[1..][i - 1];
    }
  }

  lemma InsertKeepsOrder(rows: seq<Row>, row: Row)
    requires Ordered(rows) && UniqueIds(rows) && forall i | 0 <= i < |rows| :: rows[i].id != row.id
    ensures Ordered(Insert(rows, row)) && UniqueIds(Insert(rows, row))
  {
    var k := InsertPlace(rows, row);
    var after := Insert(rows, row);
    forall i, j | 0 <= i < j < |after| ensures Before(after[i], after[j]) && after[i].id != after[j].id {
      assert after[i] == if i < k then rows[i] else if i == k then row else rows[i - 1];
      assert after[j] == if j < k then rows[j] else if j == k then row else rows[j - 1];
      if i == k && j - 1 > k {
        assert Before(rows[k], rows[j - 1]);
      }
    }
  }

  lemma {:induction false} BacklogOfInsert(rows: seq<Row>, row: Row)
    ensures Backlog(Insert(rows, row)) == Backlog(rows) + Undelivered(row)
    decreases |rows|
  {
    if rows == [] || Before(row, rows[0]) {
      assert ([row] + rows)[1..] == rows;
    } else {
      BacklogOfInsert(rows[1..], row);
      assert ([rows[0]] + Insert(rows[1..], row))[1..] == Insert(rows[1..], row);
    }
  }

  /** The backlog only depends on what each row contributes. */
  lemma {:induction false} BacklogAtMost(rows: seq<Row>, rows': seq<Row>)
    requires |rows| == |rows'| && forall i | 0 <= i < |rows| :: Undelivered(rows'[i]) <= Undelivered(rows[i])
    ensures Backlog(rows') <= Backlog(rows)
    decreases |rows|
  {
    if rows != [] {
      BacklogAtMost(rows[1..], rows'[1..]);
    }
  }

  /** The fields no transaction changes. */
  predicate SameMessage(a: Row, b: Row) {
    a.id == b.id && a.tenantId == b.tenantId && a.payload == b.payload && a.createdAt == b.createdAt
  }

  predicate SameMessages(rows: seq<Row>, rows': seq<Row>) {
    |rows| == |rows'| && forall i | 0 <= i < |rows| :: SameMessage(rows[i], rows'[i])
  }

  lemma SameMessagesKeepOrder(rows: seq<Row>, rows': seq<Row>)
    requires SameMessages(rows, rows') && Ordered(rows) && UniqueIds(rows)
    ensures Ordered(rows') && UniqueIds(rows')
  {
    forall i, j | 0 <= i < j < |rows'| ensures Before(rows'[i], rows'[j]) && rows'[i].id != rows'[j].id {
      assert SameMessage(rows[i], rows'[i]) && SameMessage(rows[j], rows'[j]);
      assert Before(rows[i], rows[j]);
    }
  }

  // ---------- The invariant ----------

  predicate NotBothLeased(a: Row, b: Row, now: int) {
    a.tenantId == b.tenantId ==> !(ActiveLease(a, now) && ActiveLease(b, now))
  }

  /** Each tenant has at most one unexpired lease. */
  predicate OneLease(rows: seq<Row>, now: int) {
    forall i, j | 0 <= i < j < |rows| :: NotBothLeased(rows[i], rows[j], now)
  }

  predicate WithinCeiling(rows: seq<Row>, max: Option<int>) {
    max.Some? ==> Backlog(rows) <= max.value
  }

  predicate OutboxInvariant(rows: seq<Row>, max: Option<int>, now: int) {
    Ordered(rows) && UniqueIds(rows) && OneLease(rows, now) && WithinCeiling(rows, max)
  }

  predicate CarriesLease(op: OutboxOp) {
    match op
    case DeliverOp(_, leaseId, _) => leaseId.Some?
    case FailOp(_, leaseId, _, _, _, _) => leaseId.Some?
    case _ => true
  }

  function Clock(op: OutboxOp, now: int): int {
    match op case ClaimOp(o) => o.now case _ => now
  }

  /** Claims see clocks that never go back, and every settlement carries its lease. */
  predicate WellBehaved(ops: seq<OutboxOp>, now: int)
    decreases |ops|
  {
    ops == [] || (CarriesLease(ops[0]) && now <= Clock(ops[0], now) && WellBehaved(ops[1..], Clock(ops[0], now)))
  }

  function LastClock(ops: seq<OutboxOp>, now: int): int
    decreases |ops|
  {
    if ops == [] then now else LastClock(ops[1..], Clock(ops[0], now))
  }

  // ---------- Enqueueing ----------

  lemma EnqueueKeeps(rows: seq<Row>, input: EnqueueInput, max: Option<int>, at: int, now: int)
    requires OutboxInvariant(rows, max, now)
    ensures OutboxInvariant(Enqueue(rows, input, max, at).0, max, now)
  {
    hide Before, Ordered, UniqueIds, Insert, Backlog, OneLease;
    var entry := PendingEntry(input, at);
    if Enqueue(rows, input, max, at).0 != rows {
      InsertKeepsOrder(rows, entry);
      BacklogOfInsert(rows, entry);
      InsertKeepsLeases(rows, entry, now);
    }
  }

  lemma InsertKeepsLeases(rows: seq<Row>, row: Row, now: int)
    requires OneLease(rows, now) && row.status.Ready?
    ensures OneLease(Insert(rows, row), now)
  {
    hide ActiveLease;
    var k := InsertPlace(rows, row);
    var after := Insert(rows, row);
    ReadyIsFree(row, now);
    forall i, j | 0 <= i < j < |after| ensures NotBothLeased(after[i], after[j], now) {
      assert after[i] == if i < k then rows[i] else if i == k then row else rows[i - 1];
      assert after[j] == if j < k then rows[j] else if j == k then row else rows[j - 1];
      if i != k && j != k {
        var a, b := if i < k then i else i - 1, if j < k then j else j - 1;
        assert NotBothLeased(rows[a], rows[b], now);
      }
    }
  }

  lemma ReadyIsFree(row: Row, now: int)
    requires !row.status.Leased?
    ensures !ActiveLease(row, now)
  {
  }

  lemma {:induction false} EnqueueAllKeeps(rows: seq<Row>, inputs: seq<EnqueueInput>, max: Option<int>, at: int, now: int)
    requires OutboxInvariant(rows, max, now)
    ensures OutboxInvariant(EnqueueAll(rows, inputs, max, at), max, now)
    decreases |inputs|
  {
    hide OutboxInvariant, Enqueue;
    if inputs != [] {
      EnqueueKeeps(rows, inputs[0], max, at, now);
      EnqueueAllKeeps(Enqueue(rows, inputs[0], max, at).0, inputs[1..], max, at, now);
    }
  }

  // ---------- Claiming ----------

  function PayloadBytes(rows: seq<Row>, positions: seq<nat>): nat
    requires forall k | 0 <= k < |positions| :: positions[k] < |rows|
  {
    if positions == [] then 0 else |rows[positions[0]].payload| + PayloadBytes(rows, positions[1..])
  }

  /** Position `p` is due, of a tenant that is neither held nor leased, and its oldest due row. */
  predicate Claimable(rows: seq<Row>, p: nat, o: ClaimOptions)
    requires p < |rows|
  {
    && Due(rows[p], o) && !Blocked(rows, rows[p].tenantId, o.now)
    && (forall q | 0 <= q < p :: Due(rows[q], o) ==> rows[q].tenantId != rows[p].tenantId)
  }

  /** Every due row of an open tenant before `i` has its tenant in `taken`. */
  predicate WalkedTo(rows: seq<Row>, i: nat, o: ClaimOptions, taken: set<string>)
    requires i <= |rows|
  {
    forall q | 0 <= q < i :: Due(rows[q], o) && !Blocked(rows, rows[q].tenantId, o.now) ==> rows[q].tenantId in taken
  }

  /** What a queue walk leases, whatever it has already taken. */
  predicate GoodWalk(rows: seq<Row>, i: nat, o: ClaimOptions, taken: set<string>, positions: seq<nat>)
    requires i <= |rows|
  {
    && (forall p | p in positions :: i <= p && p < |rows| && rows[p].tenantId !in taken && Claimable(rows, p, o))
    && (forall p, q | p in positions && q in positions && p < |rows| && q < |rows| ::
          rows[p].tenantId == rows[q].tenantId ==> p == q)
  }

  lemma {:induction false} WalkIsGood(rows: seq<Row>, i: nat, o: ClaimOptions, taken: set<string>, count: nat, bytes: nat)
    requires i <= |rows| && WalkedTo(rows, i, o, taken)
    ensures GoodWalk(rows, i, o, taken, Taken(rows, i, o, taken, count, bytes))
    decreases |rows| - i
  {
    hide Due, Blocked;
    if i == |rows| || count >= o.limit {
    } else if !Takes(rows, i, o, taken) {
      WalkIsGood(rows, i + 1, o, taken, count, bytes);
    } else if bytes + |rows[i].payload| <= o.maxPayloadBytes {
      WalkIsGood(rows, i + 1, o, taken + {rows[i].tenantId}, count + 1, bytes + |rows[i].payload|);
      var rest := Taken(rows, i + 1, o, taken + {rows[i].tenantId}, count + 1, bytes + |rows[i].payload|);
      assert forall p | p in [i] + rest :: p == i || p in rest;
    }
  }

  lemma {:induction false} WalkIsBounded(rows: seq<Row>, i: nat, o: ClaimOptions, taken: set<string>, count: nat, bytes: nat)
    requires i <= |rows| && count <= o.limit && bytes <= o.maxPayloadBytes
    ensures var positions := Taken(rows, i, o, taken, count, bytes);
            && (forall k | 0 <= k < |positions| :: positions[k] < |rows|)
            && count + |positions| <= o.limit
            && bytes + PayloadBytes(rows, positions) <= o.maxPayloadBytes
    decreases |rows| - i
  {
    hide Takes;
    if i == |rows| || count >= o.limit {
    } else if !Takes(rows, i, o, taken) {
      WalkIsBounded(rows, i + 1, o, taken, count, bytes);
    } else if bytes + |rows[i].payload| <= o.maxPayloadBytes {
      WalkIsBounded(rows, i + 1, o, taken + {rows[i].tenantId}, count + 1, bytes + |rows[i].payload|);
      var rest := Taken(rows, i + 1, o, taken + {rows[i].tenantId}, count + 1, bytes + |rows[i].payload|);
      assert ([i] + rest)[1..] == rest;
    }
  }

  /**
   A claim leases at most `limit` rows and `maxPayloadBytes` bytes, at most one a tenant, each
   the oldest due row of a tenant with no held row and no unexpired lease.
   */
  lemma ClaimTakesOnlyOpenTenants(rows: seq<Row>, o: ClaimOptions)
    requires ValidClaimOptions(o)
    ensures var positions := ClaimedPositions(rows, o);
            && GoodWalk(rows, 0, o, {}, positions)
            && (forall k | 0 <= k < |positions| :: positions[k] < |rows|)
            && |positions| <= o.limit && PayloadBytes(rows, positions) <= o.maxPayloadBytes
  {
    WalkIsGood(rows, 0, o, {}, 0, 0);
    WalkIsBounded(rows, 0, o, {}, 0, 0);
  }

  lemma ClaimKeeps(rows: seq<Row>, o: ClaimOptions, max: Option<int>, now: int)
    requires OutboxInvariant(rows, max, now) && now <= o.now
    ensures OutboxInvariant(Claim(rows, o), max, o.now)
  {
    hide Ordered, UniqueIds, OneLease, Backlog, Taken, ClaimedPositions, Blocked;
    if ValidClaimOptions(o) {
      ClaimTakesOnlyOpenTenants(rows, o);
      LeasedOnce(rows, ClaimedPositions(rows, o), o, now);
      SameMessagesKeepOrder(rows, Claim(rows, o));
      BacklogAtMost(rows, Claim(rows, o));
    } else {
      LaterClock(rows, now, o.now);
    }
  }

  lemma LaterClock(rows: seq<Row>, now: int, later: int)
    requires OneLease(rows, now) && now <= later
    ensures OneLease(rows, later)
  {
    forall i, j | 0 <= i < j < |rows| ensures NotBothLeased(rows[i], rows[j], later) {
      assert NotBothLeased(rows[i], rows[j], now);
    }
  }

  lemma LeasedOnce(rows: seq<Row>, positions: seq<nat>, o: ClaimOptions, now: int)
    requires OneLease(rows, now) && now <= o.now && GoodWalk(rows, 0, o, {}, positions)
    ensures OneLease(LeaseRows(rows, positions, o), o.now)
  {
    hide Due, Claimable, GoodWalk;
    var after := LeaseRows(rows, positions, o);
    forall i, j | 0 <= i < j < |after| ensures NotBothLeased(after[i], after[j], o.now) {
      assert NotBothLeased(rows[i], rows[j], now);
      WalkSeparates(rows, positions, o, i, j);
    }
  }

  /** Of two rows of one tenant a walk leases at most one, and none beside an unexpired lease. */
  lemma WalkSeparates(rows: seq<Row>, positions: seq<nat>, o: ClaimOptions, i: nat, j: nat)
    requires GoodWalk(rows, 0, o, {}, positions) && i < |rows| && j < |rows|
    ensures i != j && rows[i].tenantId == rows[j].tenantId ==>
              && !(i in positions && j in positions)
              && (i in positions ==> !ActiveLease(rows[j], o.now))
              && (j in positions ==> !ActiveLease(rows[i], o.now))
  {
    hide Due;
    if rows[i].tenantId == rows[j].tenantId {
      if i in positions { assert Claimable(rows, i, o); assert !Blocks(rows[j], o.now); }
      if j in positions { assert Claimable(rows, j, o); assert !Blocks(rows[i], o.now); }
    }
  }

  // ---------- Settling and resuming ----------

  /** A settlement that carries its lease takes a leased row out of its lease. */
  lemma SettleKeeps(rows: seq<Row>, id: int, leaseId: Option<string>, settled: Row -> Row, max: Option<int>, now: int)
    requires OutboxInvariant(rows, max, now) && leaseId.Some?
    requires forall r: Row :: SameMessage(r, settled(r)) && !settled(r).status.Leased?
    ensures OutboxInvariant(Settle(rows, id, leaseId, settled).0, max, now)
  {
    hide Ordered, UniqueIds, OneLease, Backlog, IndexOf;
    var rows' := Settle(rows, id, leaseId, settled).0;
    if rows' != rows {
      SameMessagesKeepOrder(rows, rows');
      FewerLeases(rows, rows', now);
      BacklogAtMost(rows, rows');
    }
  }

  /** Rows that are leased afterwards were leased before, until the same time. */
  lemma FewerLeases(rows: seq<Row>, rows': seq<Row>, now: int)
    requires OneLease(rows, now) && |rows'| == |rows|
    requires forall i | 0 <= i < |rows| :: rows'[i].tenantId == rows[i].tenantId && (rows'[i].status.Leased? ==> rows'[i] == rows[i])
    ensures OneLease(rows', now)
  {
    forall i, j | 0 <= i < j < |rows'| ensures NotBothLeased(rows'[i], rows'[j], now) {
      assert NotBothLeased(rows[i], rows[j], now);
    }
  }

  lemma {:induction false} RearmRows(rows: seq<Row>, tenantId: string, limit: nat, now: int)
    ensures var after := Rearm(rows, tenantId, limit, now);
            && |after| == |rows|
            && forall i | 0 <= i < |rows| ::
                 after[i] == rows[i] || (HeldBy(rows[i], tenantId) && after[i] == rows[i].(status := Ready, availableAt := now, updatedAt := now))
    decreases |rows|
  {
    if rows != [] {
      RearmRows(rows[1..], tenantId, if limit > 0 && HeldBy(rows[0], tenantId) then limit - 1 else limit, now);
    }
  }

  lemma ResumeKeeps(rows: seq<Row>, tenantId: string, circuitId: string, limit: nat, at: int, max: Option<int>, now: int)
    requires OutboxInvariant(rows, max, now)
    ensures OutboxInvariant(Resume(rows, tenantId, circuitId, limit, at).0, max, now)
  {
    hide Ordered, UniqueIds, OneLease, Backlog, Rearm;
    RearmRows(rows, tenantId, limit, at);
    var rows' := Resume(rows, tenantId, circuitId, limit, at).0;
    SameMessagesKeepOrder(rows, rows');
    FewerLeases(rows, rows', now);
    BacklogAtMost(rows, rows');
  }

  // ---------- Every run ----------

  lemma PerformKeeps(rows: seq<Row>, op: OutboxOp, max: Option<int>, now: int)
    requires OutboxInvariant(rows, max, now) && CarriesLease(op) && now <= Clock(op, now)
    ensures OutboxInvariant(Perform(rows, op, max), max, Clock(op, now))
  {
    hide OutboxInvariant, EnqueueAll, Claim, Settle, Resume;
    match op
    case EnqueueOp(inputs, commits, at) => EnqueueAllKeeps(rows, inputs, max, at, now);
    case ClaimOp(o) => ClaimKeeps(rows, o, max, now);
    case DeliverOp(id, leaseId, at) => SettleKeeps(rows, id, leaseId, r => DeliveredRow(r, at), max, now);
    case FailOp(id, leaseId, verdict, availableAt, circuitId, at) =>
      SettleKeeps(rows, id, leaseId, r => FailedRow(r, verdict, availableAt, circuitId, at), max, now);
    case ResumeOp(tenantId, circuitId, limit, at) => ResumeKeeps(rows, tenantId, circuitId, limit, at, max, now);
  }

  /** In every state of a well-behaved run each tenant has one unexpired lease and the ceiling holds. */
  lemma {:induction false} RunKeepsOutbox(rows: seq<Row>, ops: seq<OutboxOp>, max: Option<int>, now: int)
    requires OutboxInvariant(rows, max, now) && WellBehaved(ops, now)
    ensures OutboxInvariant(PerformAll(rows, ops, max), max, LastClock(ops, now))
    decreases |ops|
  {
    hide OutboxInvariant, Perform;
    if ops != [] {
      PerformKeeps(rows, ops[0], max, now);
      RunKeepsOutbox(Perform(rows, ops[0], max), ops[1..], max, Clock(ops[0], now));
    }
  }

  // ---------- Finality ----------

  /** No row is ever deleted or given other contents. */
  lemma PerformKeepsMessages(rows: seq<Row>, op: OutboxOp, max: Option<int>, row: Row)
    requires row in rows
    ensures exists r :: r in Perform(rows, op, max) && SameMessage(row, r)
  {
    hide Enqueue, Taken, Due, Blocked, LeaseFault, HeldBy, Insert, IndexOf;
    var i :| 0 <= i < |rows| && rows[i] == row;
    match op
    case EnqueueOp(inputs, commits, at) =>
      EnqueueAllExtends(rows, inputs, max, at, row);
      SameMessageItself(row);
    case ClaimOp(o) =>
      ClaimedMessage(rows, o, i);
    case DeliverOp(id, leaseId, at) =>
      SettledMessage(rows, id, leaseId, r => DeliveredRow(r, at), i);
    case FailOp(id, leaseId, verdict, availableAt, circuitId, at) =>
      SettledMessage(rows, id, leaseId, r => FailedRow(r, verdict, availableAt, circuitId, at), i);
    case ResumeOp(tenantId, circuitId, limit, at) =>
      RearmRows(rows, tenantId, limit, at);
      ResumedMessage(rows, tenantId, circuitId, limit, at, i);
  }

  lemma SameMessageItself(row: Row)
    ensures SameMessage(row, row)
  {
  }

  lemma ClaimedMessage(rows: seq<Row>, o: ClaimOptions, i: nat)
    requires i < |rows|
    ensures exists r :: r in Claim(rows, o) && SameMessage(rows[i], r)
  {
    hide Taken;
    assert Claim(rows, o)[i] in Claim(rows, o) && SameMessage(rows[i], Claim(rows, o)[i]);
  }

  lemma SettledMessage(rows: seq<Row>, id: int, leaseId: Option<string>, settled: Row -> Row, i: nat)
    requires i < |rows| && forall r: Row :: SameMessage(r, settled(r))
    ensures exists r :: r in Settle(rows, id, leaseId, settled).0 && SameMessage(rows[i], r)
  {
    hide LeaseFault;
    var after := Settle(rows, id, leaseId, settled).0;
    assert after[i] in after && SameMessage(rows[i], after[i]);
  }

  lemma ResumedMessage(rows: seq<Row>, tenantId: string, circuitId: string, limit: nat, at: int, i: nat)
    requires i < |rows|
    ensures exists r :: r in Resume(rows, tenantId, circuitId, limit, at).0 && SameMessage(rows[i], r)
  {
    hide Rearm;
    RearmRows(rows, tenantId, limit, at);
    var after := Resume(rows, tenantId, circuitId, limit, at).0;
    assert after[i] in after && SameMessage(rows[i], after[i]);
  }

  lemma {:induction false} EnqueueAllExtends(rows: seq<Row>, inputs: seq<EnqueueInput>, max: Option<int>, at: int, row: Row)
    requires row in rows
    ensures row in EnqueueAll(rows, inputs, max, at)
    decreases |inputs|
  {
    hide IndexOf, Backlog;
    if inputs != [] {
      var k := InsertPlace(rows, PendingEntry(inputs[0], at));
      assert rows == rows[..k] + rows[k..];
      EnqueueAllExtends(Enqueue(rows, inputs[0], max, at).0, inputs[1..], max, at, row);
    }
  }

  lemma {:induction false} RowsAreNeverLost(rows: seq<Row>, ops: seq<OutboxOp>, max: Option<int>, row: Row)
    requires row in rows
    ensures exists r :: r in PerformAll(rows, ops, max) && SameMessage(row, r)
    decreases |ops|
  {
    hide Perform;
    SameMessageItself(row);
    if ops != [] {
      PerformKeepsMessages(rows, ops[0], max, row);
      var next :| next in Perform(rows, ops[0], max) && SameMessage(row, next);
      RowsAreNeverLost(Perform(rows, ops[0], max), ops[1..], max, next);
      var last :| last in PerformAll(rows, ops, max) && SameMessage(next, last);
      SameMessageThen(row, next, last);
    }
  }

  lemma SameMessageThen(a: Row, b: Row, c: Row)
    requires SameMessage(a, b) && SameMessage(b, c)
    ensures SameMessage(a, c)
  {
  }

  predicate Terminal(row: Row) {
    row.status.Delivered? || row.status.Dead?
  }

  /** A settlement of a settled row is accepted exactly when it carries no lease. */
  lemma TerminalAcceptsOnlyLeaseless(rows: seq<Row>, i: nat, leaseId: Option<string>, settled: Row -> Row)
    requires i < |rows| && UniqueIds(rows) && Terminal(rows[i])
    ensures Settle(rows, rows[i].id, leaseId, settled).1.Success? <==> leaseId.None?
    ensures leaseId.Some? ==> Settle(rows, rows[i].id, leaseId, settled).0 == rows
  {
    var found := IndexOf(rows, rows[i].id).value;
    assert rows[found].id == rows[i].id;
  }

  /** Nothing but a leaseless settlement changes a settled row. */
  lemma TerminalStands(rows: seq<Row>, op: OutboxOp, max: Option<int>, row: Row)
    requires UniqueIds(rows) && row in rows && Terminal(row) && CarriesLease(op)
    ensures row in Perform(rows, op, max)
  {
    hide Enqueue, Taken, Blocked, Insert, IndexOf, UniqueIds;
    var i :| 0 <= i < |rows| && rows[i] == row;
    match op
    case EnqueueOp(inputs, commits, at) => EnqueueAllExtends(rows, inputs, max, at, row);
    case ClaimOp(o) => ClaimLeavesTerminal(rows, o, i);
    case DeliverOp(id, leaseId, at) => SettleLeavesTerminal(rows, id, leaseId, r => DeliveredRow(r, at), i);
    case FailOp(id, leaseId, verdict, availableAt, circuitId, at) =>
      SettleLeavesTerminal(rows, id, leaseId, r => FailedRow(r, verdict, availableAt, circuitId, at), i);
    case ResumeOp(tenantId, circuitId, limit, at) =>
      RearmRows(rows, tenantId, limit, at);
      assert Resume(rows, tenantId, circuitId, limit, at).0[i] == row;
  }

  lemma ClaimLeavesTerminal(rows: seq<Row>, o: ClaimOptions, i: nat)
    requires i < |rows| && Terminal(rows[i])
    ensures rows[i] in Claim(rows, o)
  {
    hide Taken, Blocked, ClaimedPositions;
    if ValidClaimOptions(o) {
      ClaimTakesOnlyOpenTenants(rows, o);
      assert i !in ClaimedPositions(rows, o);
    }
    assert Claim(rows, o)[i] == rows[i];
  }

  lemma SettleLeavesTerminal(rows: seq<Row>, id: int, leaseId: Option<string>, settled: Row -> Row, i: nat)
    requires i < |rows| && Terminal(rows[i]) && leaseId.Some?
    ensures rows[i] in Settle(rows, id, leaseId, settled).0
  {
    hide IndexOf;
    var after := Settle(rows, id, leaseId, settled).0;
    assert after[i] == rows[i];
  }

  lemma {:induction false} TerminalIsFinal(rows: seq<Row>, ops: seq<OutboxOp>, max: Option<int>, now: int, row: Row)
    requires OutboxInvariant(rows, max, now) && WellBehaved(ops, now) && row in rows && Terminal(row)
    ensures row in PerformAll(rows, ops, max)
    decreases |ops|
  {
    hide Perform;
    if ops != [] {
      PerformKeeps(rows, ops[0], max, now);
      TerminalStands(rows, ops[0], max, row);
      TerminalIsFinal(Perform(rows, ops[0], max), ops[1..], max, Clock(ops[0], now), row);
    }
  }

  // ---------- Only the latest claimant settles ----------

  /** Row `id` is not leased under `leaseId`. */
  predicate NotLeasedAs(rows: seq<Row>, id: int, leaseId: string) {
    forall i | 0 <= i < |rows| :: rows[i].id == id ==> rows[i].status != Leased(leaseId)
  }

  lemma LeaseStaysGone(rows: seq<Row>, op: OutboxOp, max: Option<int>, id: int, leaseId: string)
    requires NotLeasedAs(rows, id, leaseId)
    requires op.ClaimOp? ==> op.options.leaseId != leaseId
    ensures NotLeasedAs(Perform(rows, op, max), id, leaseId)
  {
    hide Enqueue, Taken, Insert, IndexOf, LeaseFault;
    match op
    case EnqueueOp(inputs, commits, at) => EnqueueAllLeasesNothing(rows, inputs, max, at, id, leaseId);
    case ResumeOp(tenantId, circuitId, limit, at) => RearmRows(rows, tenantId, limit, at);
    case _ =>
  }

  lemma {:induction false} EnqueueAllLeasesNothing(rows: seq<Row>, inputs: seq<EnqueueInput>, max: Option<int>, at: int, id: int, leaseId: string)
    requires NotLeasedAs(rows, id, leaseId)
    ensures NotLeasedAs(EnqueueAll(rows, inputs, max, at), id, leaseId)
    decreases |inputs|
  {
    hide IndexOf, Backlog, Insert;
    if inputs != [] {
      var entry := PendingEntry(inputs[0], at);
      var k := InsertPlace(rows, entry);
      var longer := Insert(rows, entry);
      assert forall i | 0 <= i < |longer| :: longer[i] == if i < k then rows[i] else if i == k then entry else rows[i - 1];
      EnqueueAllLeasesNothing(Enqueue(rows, inputs[0], max, at).0, inputs[1..], max, at, id, leaseId);
    }
  }

  /**
   Once a row's lease has been superseded, settled or cleared, the old claimant can never settle
   the row again, however the queue runs on, unless a later claim reuses the very same lease id.
   */
  lemma {:induction false} OldClaimantCannotSettle(rows: seq<Row>, ops: seq<OutboxOp>, max: Option<int>, id: int, leaseId: string, settled: Row -> Row)
    requires NotLeasedAs(rows, id, leaseId)
    requires forall i | 0 <= i < |ops| :: ops[i].ClaimOp? ==> ops[i].options.leaseId != leaseId
    ensures var later := PerformAll(rows, ops, max);
            Settle(later, id, Some(leaseId), settled).1.Failure? && Settle(later, id, Some(leaseId), settled).0 == later
    decreases |ops|
  {
    hide Perform, IndexOf;
    if ops != [] {
      LeaseStaysGone(rows, ops[0], max, id, leaseId);
      OldClaimantCannotSettle(Perform(rows, ops[0], max), ops[1..], max, id, leaseId, settled);
    }
  }

  // ---------- Why settlements must carry their lease ----------

  lemma {:induction false} BacklogOfUpdate(rows: seq<Row>, i: nat, row: Row)
    requires i < |rows|
    ensures Backlog(rows[i := row]) == Backlog(rows) - Undelivered(rows[i]) + Undelivered(row)
    decreases |rows|
  {
    hide Undelivered;
    if i == 0 {
      assert rows[i := row][1..] == rows[1..];
    } else {
      BacklogOfUpdate(rows[1..], i - 1, row);
      assert rows[i := row][1..] == rows[1..][i - 1 := row];
    }
  }

  lemma SettledAt(rows: seq<Row>, i: nat, settled: Row -> Row)
    requires UniqueIds(rows) && i < |rows|
    ensures Settle(rows, rows[i].id, None, settled).0 == if rows[i].status.Leased? then rows else rows[i := settled(rows[i])]
  {
    var found := IndexOf(rows, rows[i].id).value;
    assert rows[found].id == rows[i].id;
  }

  /**
   A failure reported without a lease keeps the byte ceiling exactly when the row was not delivered
   yet, or there is room to take its bytes back.
   */
  lemma LeaselessFailureKeepsCeilingIff(rows: seq<Row>, i: nat, verdict: Verdict, availableAt: Option<int>, circuitId: string, at: int, max: int)
    requires UniqueIds(rows) && i < |rows| && WithinCeiling(rows, Some(max))
    ensures var op := FailOp(rows[i].id, None, verdict, availableAt, circuitId, at);
            WithinCeiling(Perform(rows, op, Some(max)), Some(max)) <==> (rows[i].status.Delivered? ==> Backlog(rows) + |rows[i].payload| <= max)
  {
    hide UniqueIds, Backlog, Settle;
    var failed := FailedRow(rows[i], verdict, availableAt, circuitId, at);
    SettledAt(rows, i, r => FailedRow(r, verdict, availableAt, circuitId, at));
    BacklogOfUpdate(rows, i, failed);
  }

  /** A delivery reported without a lease always keeps it. */
  lemma LeaselessDeliveryKeepsCeiling(rows: seq<Row>, i: nat, at: int, max: int)
    requires UniqueIds(rows) && i < |rows| && WithinCeiling(rows, Some(max))
    ensures WithinCeiling(Perform(rows, DeliverOp(rows[i].id, None, at), Some(max)), Some(max))
  {
    hide UniqueIds, Backlog, Settle;
    SettledAt(rows, i, r => DeliveredRow(r, at));
    BacklogOfUpdate(rows, i, DeliveredRow(rows[i], at));
  }

  /** A leaseless failure of a delivered row takes it back, past the byte ceiling. */
  lemma LeaselessSettlementBreaksCeiling(row: Row, circuitId: string, now: int)
    requires row.status.Delivered? && |row.payload| > 0
    ensures var op := FailOp(row.id, None, RetryVerdict, None, circuitId, now);
            && OutboxInvariant([row], Some(0), now)
            && !WithinCeiling(Perform([row], op, Some(0)), Some(0))
            && Perform([row], op, Some(0))[0].status.Ready?
  {
    assert Backlog([row]) == Undelivered(row) + Backlog([]);
    var after := Perform([row], FailOp(row.id, None, RetryVerdict, None, circuitId, now), Some(0));
    assert after == [FailedRow(row, RetryVerdict, None, circuitId, now)];
    assert Backlog(after) == Undelivered(after[0]) + Backlog(after[1..]);
  }
}
