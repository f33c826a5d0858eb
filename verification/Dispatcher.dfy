/**
 One bounded pass of an outbox dispatcher, and any series of passes: permits bound a pass, the
 ledger bounds every window across passes, and every settlement carries the lease it was claimed
 under.
 */
module Dispatcher {
  import opened Wrappers
  import opened Protocol
  import opened OutboxRows
  import opened OutboxRuns
  import opened OutboxAnswers
  import opened Outbox
  import opened RollingWindow

  datatype PermitKind = Automatic | Canary | Operator(approvalId: string)

  datatype DispatchPermit = DispatchPermit(kind: PermitKind, maxEntries: int, maxBytes: int, maxElapsedMs: int, leaseMs: int)

  /** What the target answered. */
  datatype Delivery = Accepted | Refused(verdict: Verdict, circuitId: string)

  /** The clock readings of one turn of the loop, what other workers do while it awaits the target, and the answer. */
  datatype Turn = Turn(
    elapsedAt: int, requestsAt: int, bytesAt: int, recordAt: int, claimAt: int, settleAt: int, leaseId: string,
    meanwhile: seq<OutboxOp>, delivery: Delivery)

  datatype DispatchResult = DispatchResult(dispatched: nat, retried: nat, paused: nat, rejected: nat, bytes: nat)

  /** How an attempt is reported; one that cannot be settled makes the pass throw. */
  datatype Outcome = Dispatched | Reported(verdict: Verdict) | Unreported

  /** One claimed row, sent once and settled. */
  datatype Attempt = Attempt(
    claim: ClaimOptions, row: Row, at: int, meanwhile: seq<OutboxOp>, delivery: Delivery, settledAt: int,
    settlement: seq<OutboxOp>, outcome: Outcome)

  datatype PassResult = RefusedPermit | Finished(result: DispatchResult) | Threw

  predicate ValidDispatch(permit: DispatchPermit, p: Policy) {
    && SafePositive(permit.maxEntries) && SafePositive(permit.maxBytes)
    && SafePositive(permit.maxElapsedMs) && SafePositive(permit.leaseMs)
    && permit.leaseMs > permit.maxElapsedMs
    && (permit.kind.Operator? ==> !Blank(permit.kind.approvalId))
    && permit.maxBytes <= p.rollingSendBytes && permit.maxEntries <= p.rollingRequests && permit.maxElapsedMs <= p.windowMs
    && (permit.kind.Automatic? ==> permit.maxEntries <= p.automaticReplayBatches)
  }

  /** The clock never goes back, and every claim has an id of its own to settle with. */
  predicate SteadyClock(turns: seq<Turn>, from: int) {
    turns == []
    || (&& from <= turns[0].elapsedAt <= turns[0].requestsAt <= turns[0].bytesAt <= turns[0].recordAt
        && turns[0].leaseId != []
        && SteadyClock(turns[1..], turns[0].recordAt))
  }

  /** The last reading of a series of turns. */
  function ClockEnd(turns: seq<Turn>, from: int): int {
    if turns == [] then from else ClockEnd(turns[1..], turns[0].recordAt)
  }

  lemma {:induction false} ClockOnlyAdvances(turns: seq<Turn>, from: int)
    requires SteadyClock(turns, from)
    ensures from <= ClockEnd(turns, from)
    decreases |turns|
  {
    if turns != [] {
      ClockOnlyAdvances(turns[1..], turns[0].recordAt);
    }
  }

  datatype Pass = Pass(tenantId: string, permit: DispatchPermit, startedAt: int, turns: seq<Turn>)

  /** Serial passes of one dispatcher: each starts after the one before it ended. */
  predicate SerialPasses(passes: seq<Pass>, from: int) {
    passes == []
    || (&& from <= passes[0].startedAt && SteadyClock(passes[0].turns, passes[0].startedAt)
        && SerialPasses(passes[1..], ClockEnd(passes[0].turns, passes[0].startedAt)))
  }

  // ---------- Attempts ----------

  function OpsOf(a: Attempt): seq<OutboxOp> {
    [ClaimOp(a.claim)] + a.meanwhile + a.settlement
  }

  /** Everything a series of attempts does to the outbox, in order. */
  function AllOps(attempts: seq<Attempt>): seq<OutboxOp>
    decreases |attempts|
  {
    if attempts == [] then [] else AllOps(attempts[..|attempts| - 1]) + OpsOf(attempts[|attempts| - 1])
  }

  /** The ledger entry of every attempt: one each, with the bytes of the row it sent. */
  function SendsOf(attempts: seq<Attempt>): seq<Send> {
    seq(|attempts|, i requires 0 <= i < |attempts| => Send(attempts[i].at, |attempts[i].row.payload|))
  }

  function BytesOf(attempts: seq<Attempt>): nat
    decreases |attempts|
  {
    if attempts == [] then 0 else BytesOf(attempts[..|attempts| - 1]) + |attempts[|attempts| - 1].row.payload|
  }

  /** The lease `leaseId` can settle row `id`. */
  predicate CanSettle(rows: seq<Row>, id: int, leaseId: string) {
    IndexOf(rows, id).Some? && LeaseFault(rows[IndexOf(rows, id).value], Some(leaseId)).None?
  }

  function DeliverOf(id: int, leaseId: string, at: int): OutboxOp {
    DeliverOp(id, Some(leaseId), at)
  }

  function FailOf(id: int, leaseId: string, at: int, verdict: Verdict, circuitId: string): OutboxOp {
    FailOp(id, Some(leaseId), verdict, None, circuitId, at)
  }

  /**
   How an attempt is settled: delivered when the target accepted it, otherwise by the target's
   verdict. A delivery that cannot be settled is reported as a retry, which cannot be settled either.
   */
  function Settling(rows: seq<Row>, id: int, leaseId: string, at: int, delivery: Delivery): (seq<OutboxOp>, Outcome) {
    var settles := CanSettle(rows, id, leaseId);
    match delivery
    case Accepted =>
      if settles then ([DeliverOf(id, leaseId, at)], Dispatched)
      else ([DeliverOf(id, leaseId, at), FailOf(id, leaseId, at, RetryVerdict, [])], Unreported)
    case Refused(verdict, circuitId) =>
      ([FailOf(id, leaseId, at, verdict, circuitId)], if settles then Reported(verdict) else Unreported)
  }

  /** The claim leases exactly one row of the queue, and this is it. */
  predicate Leases(rows: seq<Row>, claim: ClaimOptions, row: Row) {
    var positions := ClaimedPositions(rows, claim);
    |positions| == 1 && positions[0] < |rows| && row == Lease(rows[positions[0]], claim)
  }

  /**
   The attempt leased exactly one row, the one the queue offered, and settled that row under that
   lease once the target had answered.
   */
  ghost predicate Genuine(rows: seq<Row>, a: Attempt, max: Option<int>) {
    && ValidClaimOptions(a.claim) && a.claim.limit == 1 && Leases(rows, a.claim, a.row)
    && (a.settlement, a.outcome) == Settling(PerformAll(rows, [ClaimOp(a.claim)] + a.meanwhile, max), a.row.id, a.claim.leaseId, a.settledAt, a.delivery)
  }

  ghost predicate AllGenuine(start: seq<Row>, attempts: seq<Attempt>, max: Option<int>) {
    forall i | 0 <= i < |attempts| :: Genuine(PerformAll(start, AllOps(attempts[..i]), max), attempts[i], max)
  }

  /** The attempt's settlements name its own row and carry its own lease. */
  predicate OwnSettlement(a: Attempt) {
    forall i | 0 <= i < |a.settlement| ::
      match a.settlement[i]
      case DeliverOp(id, leaseId, _) => id == a.row.id && leaseId == Some(a.claim.leaseId)
      case FailOp(id, leaseId, _, _, _, _) => id == a.row.id && leaseId == Some(a.claim.leaseId)
      case _ => false
  }

  lemma LeasedFits(rows: seq<Row>, claim: ClaimOptions, row: Row)
    requires ValidClaimOptions(claim) && Leases(rows, claim, row)
    ensures |row.payload| <= claim.maxPayloadBytes && row.status == Leased(claim.leaseId)
  {
    hide ClaimedPositions, GoodWalk;
    ClaimTakesOnlyOpenTenants(rows, claim);
    var positions := ClaimedPositions(rows, claim);
    assert PayloadBytes(rows, positions) == |rows[positions[0]].payload| + PayloadBytes(rows, positions[1..]);
  }

  /**
   How an attempt ends for the row it claimed. While its lease still stands the row is delivered, or
   counted once more and freed, held or buried by the verdict, and no other row changes; once the
   lease is gone nothing changes, and the pass throws.
   */
  lemma AttemptEnds(rows: seq<Row>, a: Attempt, max: Option<int>, i: nat)
    requires Genuine(rows, a, max)
    requires var awaited := PerformAll(rows, [ClaimOp(a.claim)] + a.meanwhile, max);
             UniqueIds(awaited) && i < |awaited| && awaited[i].id == a.row.id
    ensures var awaited := PerformAll(rows, [ClaimOp(a.claim)] + a.meanwhile, max);
            var after := PerformAll(awaited, a.settlement, max);
            var row := awaited[i];
            var counted := row.(attempts := row.attempts + 1, updatedAt := a.settledAt);
            if row.status == Leased(a.claim.leaseId) then
              match a.delivery
              case Accepted => a.outcome == Dispatched && after == awaited[i := row.(status := Delivered(a.settledAt), updatedAt := a.settledAt)]
              case Refused(PauseVerdict, circuitId) => a.outcome == Reported(PauseVerdict) && after == awaited[i := counted.(status := Held(circuitId))]
              case Refused(RejectVerdict, _) => a.outcome == Reported(RejectVerdict) && after == awaited[i := counted.(status := Dead)]
              case Refused(RetryVerdict, _) =>
                a.outcome == Reported(RetryVerdict) && after == awaited[i := counted.(status := Ready, availableAt := a.settledAt)]
            else a.outcome == Unreported && after == awaited
  {
    hide PerformAll, Leases, UniqueIds, IndexOf, Settle;
    var awaited := PerformAll(rows, [ClaimOp(a.claim)] + a.meanwhile, max);
    FoundById(awaited, i);
    var lease := Some(a.claim.leaseId);
    var deliver := DeliverOf(a.row.id, a.claim.leaseId, a.settledAt);
    DeliverySettles(awaited, i, lease, a.settledAt);
    if a.delivery.Accepted? {
      if awaited[i].status != Leased(a.claim.leaseId) {
        FailureSettles(awaited, i, lease, RetryVerdict, None, [], a.settledAt);
        assert a.settlement == [deliver, FailOf(a.row.id, a.claim.leaseId, a.settledAt, RetryVerdict, [])];
        OutboxDispatcher.PerformTwo(awaited, a.settlement[0], a.settlement[1], max);
      } else {
        OutboxDispatcher.PerformOne(awaited, deliver, max);
      }
    } else {
      FailureSettles(awaited, i, lease, a.delivery.verdict, None, a.delivery.circuitId, a.settledAt);
      OutboxDispatcher.PerformOne(awaited, a.settlement[0], max);
    }
  }

  /** What an attempt settles is the row it claimed, under the lease it claimed it with. */
  lemma GenuineSettlesItsOwn(rows: seq<Row>, a: Attempt, max: Option<int>)
    requires Genuine(rows, a, max)
    ensures OwnSettlement(a) && a.settlement != []
    ensures a.row.status == Leased(a.claim.leaseId) && |a.row.payload| <= a.claim.maxPayloadBytes
  {
    hide PerformAll, Leases, CanSettle;
    LeasedFits(rows, a.claim, a.row);
  }

  lemma AllGenuineSettleTheirOwn(start: seq<Row>, attempts: seq<Attempt>, max: Option<int>)
    requires AllGenuine(start, attempts, max)
    ensures forall i | 0 <= i < |attempts| :: OwnSettlement(attempts[i])
  {
    hide Genuine, PerformAll, AllOps, OwnSettlement;
    forall i | 0 <= i < |attempts| ensures OwnSettlement(attempts[i]) {
      GenuineSettlesItsOwn(PerformAll(start, AllOps(attempts[..i]), max), attempts[i], max);
    }
  }

  predicate AllCarryLease(ops: seq<OutboxOp>) {
    forall i | 0 <= i < |ops| :: CarriesLease(ops[i])
  }

  /** When the other workers carry their leases, everything that happened does: no leaseless settlement. */
  lemma {:induction false} AttemptsCarryLease(attempts: seq<Attempt>)
    requires forall i | 0 <= i < |attempts| :: OwnSettlement(attempts[i]) && AllCarryLease(attempts[i].meanwhile)
    ensures AllCarryLease(AllOps(attempts))
    decreases |attempts|
  {
    hide OwnSettlement, CarriesLease;
    if attempts != [] {
      AttemptsCarryLease(attempts[..|attempts| - 1]);
      AttemptCarriesLease(attempts[|attempts| - 1]);
    }
  }

  lemma AttemptCarriesLease(a: Attempt)
    requires OwnSettlement(a) && AllCarryLease(a.meanwhile)
    ensures AllCarryLease(OpsOf(a))
  {
    var ops := OpsOf(a);
    forall i | 0 <= i < |ops| ensures CarriesLease(ops[i]) {
      if i == 0 {
        assert ops[0] == ClaimOp(a.claim);
      } else if i <= |a.meanwhile| {
        assert ops[i] == a.meanwhile[i - 1];
      } else {
        assert ops[i] == a.settlement[i - 1 - |a.meanwhile|];
      }
    }
  }

  /** The counters after one more attempt. */
  function Count(r: DispatchResult, a: Attempt): DispatchResult {
    var sent := r.(bytes := r.bytes + |a.row.payload|);
    match a.outcome
    case Dispatched => sent.(dispatched := sent.dispatched + 1)
    case Reported(RetryVerdict) => sent.(retried := sent.retried + 1)
    case Reported(PauseVerdict) => sent.(paused := sent.paused + 1)
    case Reported(RejectVerdict) => sent.(rejected := sent.rejected + 1)
    case Unreported => sent
  }

  function Tally(attempts: seq<Attempt>): (r: DispatchResult)
    decreases |attempts|
    ensures r.bytes == BytesOf(attempts)
  {
    if attempts == [] then DispatchResult(0, 0, 0, 0, 0)
    else Count(Tally(attempts[..|attempts| - 1]), attempts[|attempts| - 1])
  }

  function HowMany(attempts: seq<Attempt>, outcome: Outcome): nat
    decreases |attempts|
  {
    if attempts == [] then 0
    else HowMany(attempts[..|attempts| - 1], outcome) + if attempts[|attempts| - 1].outcome == outcome then 1 else 0
  }

  /** Each counter is the number of attempts that ended its way. */
  lemma {:induction false} TallyCounts(attempts: seq<Attempt>)
    ensures Tally(attempts) == DispatchResult(
              HowMany(attempts, Dispatched), HowMany(attempts, Reported(RetryVerdict)), HowMany(attempts, Reported(PauseVerdict)),
              HowMany(attempts, Reported(RejectVerdict)), BytesOf(attempts))
    decreases |attempts|
  {
    if attempts != [] {
      TallyCounts(attempts[..|attempts| - 1]);
    }
  }

  /** The attempt is of this turn: its claim, its time, what happened meanwhile, and the answer. */
  predicate MadeAt(a: Attempt, tenantId: string, permit: DispatchPermit, t: Turn, p: Policy) {
    && a.claim == ClaimOptions(Some(tenantId), t.claimAt, t.leaseId, permit.leaseMs, 1, a.claim.maxPayloadBytes)
    && a.claim.maxPayloadBytes <= p.batchBytes
    && a.at == t.recordAt && a.meanwhile == t.meanwhile && a.delivery == t.delivery && a.settledAt == t.settleAt
  }

  /** Attempt by attempt, one a turn. */
  predicate MadeIn(attempts: seq<Attempt>, tenantId: string, permit: DispatchPermit, turns: seq<Turn>, p: Policy) {
    |attempts| <= |turns| && forall i | 0 <= i < |attempts| :: MadeAt(attempts[i], tenantId, permit, turns[i], p)
  }

  lemma NothingMade(tenantId: string, permit: DispatchPermit, turns: seq<Turn>, p: Policy)
    ensures MadeIn([], tenantId, permit, turns, p)
  {
  }

  lemma MadeOneMore(attempts: seq<Attempt>, a: Attempt, tenantId: string, permit: DispatchPermit, turns: seq<Turn>, p: Policy)
    requires MadeIn(attempts, tenantId, permit, turns, p) && |attempts| < |turns|
    requires MadeAt(a, tenantId, permit, turns[|attempts|], p)
    ensures MadeIn(attempts + [a], tenantId, permit, turns, p)
  {
    hide MadeAt;
  }

  lemma {:induction false} PerformLast(rows: seq<Row>, ops: seq<OutboxOp>, op: OutboxOp, max: Option<int>)
    ensures PerformAll(rows, ops + [op], max) == Perform(PerformAll(rows, ops, max), op, max)
    decreases |ops|
  {
    hide Perform;
    if ops == [] {
      assert ([] + [op])[1..] == [];
    } else {
      assert (ops + [op])[1..] == ops[1..] + [op];
      PerformLast(Perform(rows, ops[0], max), ops[1..], op, max);
    }
  }

  lemma {:induction false} PerformBoth(rows: seq<Row>, ops: seq<OutboxOp>, more: seq<OutboxOp>, max: Option<int>)
    ensures PerformAll(rows, ops + more, max) == PerformAll(PerformAll(rows, ops, max), more, max)
    decreases |ops|
  {
    hide Perform;
    if ops == [] {
      assert ops + more == more;
    } else {
      assert (ops + more)[1..] == ops[1..] + more;
      PerformBoth(Perform(rows, ops[0], max), ops[1..], more, max);
    }
  }

  /** One more attempt after a series. */
  lemma OneMoreAttempt(start: seq<Row>, attempts: seq<Attempt>, a: Attempt, max: Option<int>)
    requires AllGenuine(start, attempts, max) && Genuine(PerformAll(start, AllOps(attempts), max), a, max)
    ensures AllGenuine(start, attempts + [a], max)
    ensures PerformAll(start, AllOps(attempts + [a]), max) == PerformAll(PerformAll(start, AllOps(attempts), max), OpsOf(a), max)
    ensures SendsOf(attempts + [a]) == SendsOf(attempts) + [Send(a.at, |a.row.payload|)]
    ensures Tally(attempts + [a]) == Count(Tally(attempts), a)
    ensures BytesOf(attempts + [a]) == BytesOf(attempts) + |a.row.payload|
  {
    hide Genuine, PerformAll, OpsOf, Count;
    var all := attempts + [a];
    assert all[..|attempts|] == attempts;
    PerformBoth(start, AllOps(attempts), OpsOf(a), max);
    forall i | 0 <= i < |all| ensures Genuine(PerformAll(start, AllOps(all[..i]), max), all[i], max) {
      if i < |attempts| {
        assert all[..i] == attempts[..i];
      }
    }
  }

  lemma {:induction false} AllOpsBoth(attempts: seq<Attempt>, more: seq<Attempt>)
    ensures AllOps(attempts + more) == AllOps(attempts) + AllOps(more)
    decreases |more|
  {
    hide OpsOf;
    if more == [] {
      assert attempts + more == attempts;
    } else {
      var front := more[..|more| - 1];
      assert (attempts + more)[..|attempts + more| - 1] == attempts + front;
      AllOpsBoth(attempts, front);
    }
  }

  /** A series of attempts after a series. */
  lemma MoreAttempts(start: seq<Row>, attempts: seq<Attempt>, more: seq<Attempt>, max: Option<int>)
    requires AllGenuine(start, attempts, max) && AllGenuine(PerformAll(start, AllOps(attempts), max), more, max)
    ensures AllGenuine(start, attempts + more, max)
    ensures PerformAll(start, AllOps(attempts + more), max) == PerformAll(PerformAll(start, AllOps(attempts), max), AllOps(more), max)
    ensures SendsOf(attempts + more) == SendsOf(attempts) + SendsOf(more)
  {
    hide Genuine, PerformAll, AllOps, SendsOf;
    var all := attempts + more;
    AllOpsBoth(attempts, more);
    PerformBoth(start, AllOps(attempts), AllOps(more), max);
    SendsOfBoth(attempts, more);
    forall i | 0 <= i < |all| ensures Genuine(PerformAll(start, AllOps(all[..i]), max), all[i], max) {
      if i < |attempts| {
        assert all[..i] == attempts[..i];
      } else {
        LaterAttempt(start, attempts, more, i - |attempts|, max);
      }
    }
  }

  lemma SendsOfBoth(attempts: seq<Attempt>, more: seq<Attempt>)
    ensures SendsOf(attempts + more) == SendsOf(attempts) + SendsOf(more)
  {
  }

  lemma LaterAttempt(start: seq<Row>, attempts: seq<Attempt>, more: seq<Attempt>, k: nat, max: Option<int>)
    requires k < |more|
    ensures (attempts + more)[..|attempts| + k] == attempts + more[..k] && (attempts + more)[|attempts| + k] == more[k]
    ensures PerformAll(start, AllOps(attempts + more[..k]), max) == PerformAll(PerformAll(start, AllOps(attempts), max), AllOps(more[..k]), max)
  {
    hide PerformAll, AllOps;
    AllOpsBoth(attempts, more[..k]);
    PerformBoth(start, AllOps(attempts), AllOps(more[..k]), max);
  }

  lemma NothingAttempted(rows: seq<Row>, max: Option<int>)
    ensures AllGenuine(rows, [], max) && PerformAll(rows, AllOps([]), max) == rows && SendsOf([]) == []
    ensures Tally([]) == DispatchResult(0, 0, 0, 0, 0)
  {
  }

  class OutboxDispatcher {
    const adapter: FileOutboxAdapter
    const ledger: RollingWindowLedger

    constructor (adapter: FileOutboxAdapter, ledger: RollingWindowLedger)
      ensures this.adapter == adapter && this.ledger == ledger
    {
      this.adapter, this.ledger := adapter, ledger;
    }

    /** Claims one row for the tenant that fits `room` bytes, or finds that the queue offers none. */
    method ClaimOne(tenantId: string, permit: DispatchPermit, turn: Turn, room: int) returns (entry: Option<Row>, ghost claim: ClaimOptions)
      requires 0 < room && turn.leaseId != [] && 0 < permit.leaseMs
      modifies adapter`entries
      ensures claim == ClaimOptions(Some(tenantId), turn.claimAt, turn.leaseId, permit.leaseMs, 1, room) && ValidClaimOptions(claim)
      ensures adapter.entries == Perform(old(adapter.entries), ClaimOp(claim), adapter.maxQueuedBytes)
      ensures match entry
              case None => ClaimedPositions(old(adapter.entries), claim) == [] && adapter.entries == old(adapter.entries)
              case Some(row) => Leases(old(adapter.entries), claim, row)
    {
      hide Taken, ClaimedPositions, GoodWalk;
      var o := ClaimOptions(Some(tenantId), turn.claimAt, turn.leaseId, permit.leaseMs, 1, room);
      claim := o;
      ClaimTakesOnlyOpenTenants(adapter.entries, o);
      var claims := adapter.ClaimDispatchable(o);
      entry := if claims == [] then None else Some(claims[0]);
      assert entry.None? ==> adapter.entries == old(adapter.entries);
    }

    /** What other workers do on the same outbox. */
    method RunMeanwhile(ops: seq<OutboxOp>)
      modifies adapter`entries
      ensures adapter.entries == PerformAll(old(adapter.entries), ops, adapter.maxQueuedBytes)
    {
      hide EnqueueAll, Claim, Settle, Resume, Perform;
      assert ops[..0] == [];
      for i := 0 to |ops|
        invariant adapter.entries == PerformAll(old(adapter.entries), ops[..i], adapter.maxQueuedBytes)
      {
        assert ops[..i + 1] == ops[..i] + [ops[i]];
        PerformLast(old(adapter.entries), ops[..i], ops[i], adapter.maxQueuedBytes);
        RunOne(ops[i]);
      }
      assert ops[..|ops|] == ops;
    }

    method RunOne(op: OutboxOp)
      modifies adapter`entries
      ensures adapter.entries == Perform(old(adapter.entries), op, adapter.maxQueuedBytes)
    {
      hide EnqueueAll, Claim, Settle, Resume;
      match op {
        case EnqueueOp(inputs, commits, at) => var results := adapter.Transaction(inputs, commits, at);
        case ClaimOp(o) => var claims := adapter.ClaimDispatchable(o);
        case DeliverOp(id, leaseId, at) => var r := adapter.MarkDispatched(id, leaseId, at);
        case FailOp(id, leaseId, verdict, availableAt, circuitId, at) =>
          var r := adapter.MarkFailed(id, leaseId, verdict, availableAt, circuitId, at);
        case ResumeOp(tenantId, circuitId, limit, at) => var error, resumed := adapter.ResumePaused(tenantId, circuitId, limit, at);
      }
    }

    /**
     Settles the row under its lease: delivered when the target accepted it, otherwise by the
     target's verdict. A settlement that is refused is itself reported as a retry.
     */
    method SettleOne(id: int, turn: Turn) returns (outcome: Outcome, ghost ops: seq<OutboxOp>)
      modifies adapter`entries
      ensures (ops, outcome) == Settling(old(adapter.entries), id, turn.leaseId, turn.settleAt, turn.delivery)
      ensures adapter.entries == PerformAll(old(adapter.entries), ops, adapter.maxQueuedBytes)
      ensures outcome.Unreported? ==> adapter.entries == old(adapter.entries)
    {
      hide IndexOf;
      ghost var rows, max := adapter.entries, adapter.maxQueuedBytes;
      var lease, verdict, circuitId := Some(turn.leaseId), RetryVerdict, [];
      ops := [];
      if turn.delivery.Accepted? {
        ops := [DeliverOf(id, turn.leaseId, turn.settleAt)];
        PerformOne(rows, ops[0], max);
        var settled := adapter.MarkDispatched(id, lease, turn.settleAt);
        if settled.Success? {
          return Dispatched, ops;
        }
        PerformTwo(rows, ops[0], FailOf(id, turn.leaseId, turn.settleAt, verdict, circuitId), max);
        assert ops + [FailOf(id, turn.leaseId, turn.settleAt, verdict, circuitId)] == [ops[0], FailOf(id, turn.leaseId, turn.settleAt, verdict, circuitId)];
      } else {
        verdict, circuitId := turn.delivery.verdict, turn.delivery.circuitId;
        PerformOne(rows, FailOf(id, turn.leaseId, turn.settleAt, verdict, circuitId), max);
        assert ops + [FailOf(id, turn.leaseId, turn.settleAt, verdict, circuitId)] == [FailOf(id, turn.leaseId, turn.settleAt, verdict, circuitId)];
      }
      ops := ops + [FailOf(id, turn.leaseId, turn.settleAt, verdict, circuitId)];
      var failed := adapter.MarkFailed(id, lease, verdict, None, circuitId, turn.settleAt);
      outcome := if failed.Success? then Reported(verdict) else Unreported;
    }

    static lemma PerformOne(rows: seq<Row>, op: OutboxOp, max: Option<int>)
      ensures PerformAll(rows, [op], max) == Perform(rows, op, max)
    {
      hide Perform;
      assert [op][1..] == [];
    }

    static lemma PerformTwo(rows: seq<Row>, first: OutboxOp, second: OutboxOp, max: Option<int>)
      ensures PerformAll(rows, [first, second], max) == Perform(Perform(rows, first, max), second, max)
    {
      hide Perform;
      assert [first, second][1..] == [second];
      PerformOne(Perform(rows, first, max), second, max);
    }

    /**
     One pass. It sends only rows it leased, each once and recorded before it is sent; it stays
     within its permit's entries and bytes, settles each row under the lease it claimed it with, and
     whatever passes came before, no window of the policy's length holds more sends and bytes than
     the policy allows. Its counters are those of its attempts.
     */
    method DispatchBatch(tenantId: string, permit: DispatchPermit, startedAt: int, turns: seq<Turn>)
      returns (r: PassResult, ghost attempts: seq<Attempt>)
      requires ledger.Valid() && ledger.policy.batchBytes > 0 && ledger.policy.windowMs > 0
      requires ledger.clock <= startedAt && SteadyClock(turns, startedAt)
      modifies ledger, adapter`entries
      ensures ledger.Valid() && ledger.clock <= ClockEnd(turns, startedAt)
      ensures r.RefusedPermit? <==> !ValidDispatch(permit, ledger.policy)
      ensures r.RefusedPermit? ==> attempts == []
      ensures adapter.entries == PerformAll(old(adapter.entries), AllOps(attempts), adapter.maxQueuedBytes)
      ensures AllGenuine(old(adapter.entries), attempts, adapter.maxQueuedBytes)
      ensures forall i | 0 <= i < |attempts| :: OwnSettlement(attempts[i])
      ensures MadeIn(attempts, tenantId, permit, turns, ledger.policy)
      ensures ledger.history == old(ledger.history) + SendsOf(attempts)
      ensures !r.RefusedPermit? ==> |attempts| <= permit.maxEntries && BytesOf(attempts) <= permit.maxBytes
      ensures r.Finished? ==> r.result == Tally(attempts)
      ensures r.Threw? <==> attempts != [] && attempts[|attempts| - 1].outcome.Unreported?
      ensures old(RollingLimits(ledger.history, ledger.policy)) ==> RollingLimits(ledger.history, ledger.policy)
    {
      hide PerformAll, RollingLimits, Prune, SendsIn, BytesIn, AllGenuine, Genuine, AllOps, SendsOf, Tally, BytesOf, MadeIn, Count, OwnSettlement;
      attempts := [];
      ClockOnlyAdvances(turns, startedAt);
      NothingAttempted(adapter.entries, adapter.maxQueuedBytes);
      NothingMade(tenantId, permit, turns, ledger.policy);
      if !ValidDispatch(permit, ledger.policy) { return RefusedPermit, attempts; }
      var result := DispatchResult(0, 0, 0, 0, 0);
      var goOn, threw, index := true, false, 0;
      assert ledger.history + [] == ledger.history;
      while goOn && index < |turns| && index < permit.maxEntries
        invariant 0 <= index <= |turns| && index <= permit.maxEntries
        invariant ledger.Valid()
        invariant ledger.clock <= ClockEnd(turns, startedAt)
        invariant goOn ==> ClockEnd(turns[index..], if index == 0 then startedAt else ledger.clock) == ClockEnd(turns, startedAt)
        invariant goOn ==> SteadyClock(turns[index..], if index == 0 then startedAt else ledger.clock)
        invariant index == 0 ==> ledger.clock <= startedAt
        invariant |attempts| <= index && (goOn ==> |attempts| == index)
        invariant result == Tally(attempts) && result.bytes <= permit.maxBytes
        invariant MadeIn(attempts, tenantId, permit, turns, ledger.policy)
        invariant ledger.history == old(ledger.history) + SendsOf(attempts)
        invariant threw <==> attempts != [] && attempts[|attempts| - 1].outcome.Unreported?
        invariant threw ==> !goOn
        invariant old(RollingLimits(ledger.history, ledger.policy)) ==> RollingLimits(ledger.history, ledger.policy)
        invariant adapter.entries == PerformAll(old(adapter.entries), AllOps(attempts), adapter.maxQueuedBytes)
        invariant AllGenuine(old(adapter.entries), attempts, adapter.maxQueuedBytes)
        decreases |turns| - index, goOn
      {
        var turn := turns[index];
        assert turns[0..] == turns;
        assert turns[index..][0] == turn && turns[index..][1..] == turns[index + 1..];
        ClockOnlyAdvances(turns[index + 1..], turn.recordAt);
        if turn.elapsedAt - startedAt >= permit.maxElapsedMs { break; }
        ghost var made;
        result, goOn, threw, made := TakeTurn(tenantId, permit, turn, result);
        if made.Some? {
          OneMoreAttempt(old(adapter.entries), attempts, made.value, adapter.maxQueuedBytes);
          MadeOneMore(attempts, made.value, tenantId, permit, turns, ledger.policy);
          attempts := attempts + [made.value];
        }
        index := index + 1;
      }
      r := if threw then Threw else Finished(result);
      AllGenuineSettleTheirOwn(old(adapter.entries), attempts, adapter.maxQueuedBytes);
    }

    /** One turn: at most one attempt, recorded in the ledger before it is sent. */
    method TakeTurn(tenantId: string, permit: DispatchPermit, turn: Turn, r: DispatchResult)
      returns (after: DispatchResult, goOn: bool, threw: bool, ghost made: Option<Attempt>)
      requires ledger.Valid() && ledger.policy.batchBytes > 0 && ledger.policy.windowMs > 0 && 0 < permit.leaseMs
      requires ledger.clock <= turn.requestsAt <= turn.bytesAt <= turn.recordAt && turn.leaseId != []
      requires r.bytes <= permit.maxBytes
      modifies ledger, adapter`entries
      ensures ledger.Valid() && ledger.clock <= turn.recordAt && (goOn ==> ledger.clock == turn.recordAt)
      ensures made.None? ==>
                !goOn && !threw && after == r && adapter.entries == old(adapter.entries) && ledger.history == old(ledger.history)
      ensures made.Some? ==>
                var a := made.value;
                && Genuine(old(adapter.entries), a, adapter.maxQueuedBytes) && MadeAt(a, tenantId, permit, turn, ledger.policy)
                && adapter.entries == PerformAll(old(adapter.entries), OpsOf(a), adapter.maxQueuedBytes)
                && ledger.history == old(ledger.history) + [Send(a.at, |a.row.payload|)]
                && after == Count(r, a) && (threw <==> a.outcome.Unreported?)
                && (goOn <==> a.outcome.Dispatched? || a.outcome == Reported(RejectVerdict))
      ensures after.bytes <= permit.maxBytes
      ensures old(RollingLimits(ledger.history, ledger.policy)) ==> RollingLimits(ledger.history, ledger.policy)
    {
      hide PerformAll, RollingLimits, Prune, SendsIn, BytesIn, RollingWindow.TotalBytes, Leases, Settling, Perform;
      after, goOn, threw, made := r, false, false, None;
      var requests := ledger.RemainingRequests(turn.requestsAt);
      if requests <= 0 { return; }
      ghost var history, rows := ledger.history, adapter.entries;
      var left := ledger.RemainingBytes(turn.bytesAt);
      var room := if permit.maxBytes - r.bytes < left then permit.maxBytes - r.bytes else left;
      if room <= 0 { return; }
      if room > ledger.policy.batchBytes { room := ledger.policy.batchBytes; }
      var entry;
      ghost var claim;
      entry, claim := ClaimOne(tenantId, permit, turn, room);
      if entry.None? { return; }
      var row := entry.value;
      LeasedFits(rows, claim, row);
      StillRoom(history, turn.requestsAt, turn.bytesAt, ledger.policy);
      if old(RollingLimits(ledger.history, ledger.policy)) {
        RecordKeepsLimits(history, turn.bytesAt, turn.recordAt, |row.payload|, ledger.policy);
      }
      ledger.Record(turn.recordAt, |row.payload|);
      after := r.(bytes := r.bytes + |row.payload|);
      RunMeanwhile(turn.meanwhile);
      AfterClaim(rows, claim, turn.meanwhile, adapter.maxQueuedBytes);
      ghost var awaited := adapter.entries;
      var outcome;
      ghost var settlement;
      outcome, settlement := SettleOne(row.id, turn);
      made := Some(Attempt(claim, row, turn.recordAt, turn.meanwhile, turn.delivery, turn.settleAt, settlement, outcome));
      PerformBoth(rows, [ClaimOp(claim)] + turn.meanwhile, settlement, adapter.maxQueuedBytes);
      match outcome {
        case Dispatched => after, goOn := after.(dispatched := after.dispatched + 1), true;
        case Reported(RetryVerdict) => after := after.(retried := after.retried + 1);
        case Reported(PauseVerdict) => after := after.(paused := after.paused + 1);
        case Reported(RejectVerdict) => after, goOn := after.(rejected := after.rejected + 1), true;
        case Unreported => threw := true;
      }
    }

    static lemma AfterClaim(rows: seq<Row>, claim: ClaimOptions, meanwhile: seq<OutboxOp>, max: Option<int>)
      ensures PerformAll(rows, [ClaimOp(claim)] + meanwhile, max) == PerformAll(Perform(rows, ClaimOp(claim), max), meanwhile, max)
    {
      hide PerformAll, Perform;
      PerformOne(rows, ClaimOp(claim), max);
      PerformBoth(rows, [ClaimOp(claim)], meanwhile, max);
    }

    /**
     Any series of serial passes, with any permits: every send of every pass is in the ledger, so
     every window of the policy's length stays within its limits whatever the permits said.
     */
    method DispatchPasses(passes: seq<Pass>) returns (results: seq<PassResult>, ghost attempts: seq<Attempt>)
      requires ledger.Valid() && ledger.policy.batchBytes > 0 && ledger.policy.windowMs > 0
      requires SerialPasses(passes, ledger.clock) && RollingLimits(ledger.history, ledger.policy)
      modifies ledger, adapter`entries
      ensures ledger.Valid() && RollingLimits(ledger.history, ledger.policy)
      ensures ledger.history == old(ledger.history) + SendsOf(attempts)
      ensures adapter.entries == PerformAll(old(adapter.entries), AllOps(attempts), adapter.maxQueuedBytes)
      ensures AllGenuine(old(adapter.entries), attempts, adapter.maxQueuedBytes)
      ensures forall i | 0 <= i < |attempts| :: OwnSettlement(attempts[i])
      ensures |results| == |passes|
      ensures forall i | 0 <= i < |passes| :: results[i].RefusedPermit? <==> !ValidDispatch(passes[i].permit, ledger.policy)
    {
      hide RollingLimits, PerformAll, SteadyClock, ValidDispatch, AllGenuine, AllOps, SendsOf, MadeIn, Tally, BytesOf, OwnSettlement;
      results, attempts := [], [];
      NothingAttempted(adapter.entries, adapter.maxQueuedBytes);
      ghost var from := ledger.clock;
      assert passes[0..] == passes && ledger.history + [] == ledger.history;
      for i := 0 to |passes|
        invariant ledger.Valid() && ledger.clock <= from && SerialPasses(passes[i..], from)
        invariant RollingLimits(ledger.history, ledger.policy)
        invariant ledger.history == old(ledger.history) + SendsOf(attempts)
        invariant adapter.entries == PerformAll(old(adapter.entries), AllOps(attempts), adapter.maxQueuedBytes)
        invariant AllGenuine(old(adapter.entries), attempts, adapter.maxQueuedBytes)
        invariant |results| == i
        invariant forall j | 0 <= j < i :: results[j].RefusedPermit? <==> !ValidDispatch(passes[j].permit, ledger.policy)
      {
        var pass := passes[i];
        assert passes[i..][0] == pass && passes[i..][1..] == passes[i + 1..];
        var result;
        ghost var more;
        result, more := DispatchBatch(pass.tenantId, pass.permit, pass.startedAt, pass.turns);
        MoreAttempts(old(adapter.entries), attempts, more, adapter.maxQueuedBytes);
        results, attempts := results + [result], attempts + more;
        from := ClockEnd(pass.turns, pass.startedAt);
      }
      AllGenuineSettleTheirOwn(old(adapter.entries), attempts, adapter.maxQueuedBytes);
    }

    /** What was permitted at the first check is still permitted at the second. */
    static lemma StillRoom(history: seq<Send>, first: int, second: int, p: Policy)
      requires NoLaterThan(history, first) && first <= second
      ensures NoLaterThan(history, second)
      ensures |Prune(history, second, p.windowMs)| <= SendsIn(history, first, p.windowMs)
      ensures RollingWindow.TotalBytes(Prune(history, second, p.windowMs)) == BytesIn(history, second, p.windowMs)
    {
      hide Prune, SendsIn, BytesIn;
      PruneShrinks(history, first, second, p.windowMs);
      PruneIsWindow(history, first, p.windowMs);
      PruneIsWindow(history, second, p.windowMs);
    }
  }
}
