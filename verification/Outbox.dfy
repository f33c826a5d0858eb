/**
 The file outbox: one snapshot of rows that each locked operation loads, edits in place and
 publishes. Every operation is proved to do what `OutboxRows` defines.
 */
module Outbox {
  import opened Wrappers
  import opened OutboxRows
  import opened OutboxAnswers

  class FileOutboxAdapter {
    const maxQueuedBytes: Option<int>
    var entries: seq<Row>

    constructor (maxQueuedBytes: Option<int>)
      requires maxQueuedBytes.Some? ==> maxQueuedBytes.value > 0
      ensures entries == [] && this.maxQueuedBytes == maxQueuedBytes
    {
      this.maxQueuedBytes := maxQueuedBytes;
      entries := [];
    }

    static method FindEntry(rows: seq<Row>, id: int) returns (found: Option<nat>)
      ensures found == IndexOf(rows, id)
    {
      for i := 0 to |rows|
        invariant IndexOf(rows, id) == match IndexOf(rows[i..], id) case None => None case Some(k) => Some(i + k)
      {
        if rows[i].id == id { return Some(i); }
        assert rows[i..][1..] == rows[i + 1..];
      }
      return None;
    }

    static method BacklogBytes(rows: seq<Row>) returns (total: nat)
      ensures total == Backlog(rows)
    {
      total := 0;
      for i := 0 to |rows|
        invariant total + Backlog(rows[i..]) == Backlog(rows)
      {
        assert rows[i..][1..] == rows[i + 1..];
        if !rows[i].status.Delivered? { total := total + |rows[i].payload|; }
      }
    }

    static method InsertInOrder(rows: seq<Row>, row: Row) returns (sorted: seq<Row>)
      ensures sorted == Insert(rows, row)
    {
      hide Insert, Before;
      var i := 0;
      assert rows[..0] + Insert(rows[0..], row) == Insert(rows, row) by { assert rows[0..] == rows; }
      while i < |rows| && !Before(row, rows[i])
        invariant 0 <= i <= |rows|
        invariant rows[..i] + Insert(rows[i..], row) == Insert(rows, row)
      {
        PassRow(rows, row, i);
        i := i + 1;
      }
      StopAtRow(rows, row, i);
      sorted := rows[..i] + [row] + rows[i..];
    }

    static lemma PassRow(rows: seq<Row>, row: Row, i: nat)
      requires i < |rows| && !Before(row, rows[i])
      ensures rows[..i] + Insert(rows[i..], row) == rows[..i + 1] + Insert(rows[i + 1..], row)
    {
      hide Before;
      assert rows[i..][1..] == rows[i + 1..];
      assert rows[..i + 1] == rows[..i] + [rows[i]];
    }

    static lemma StopAtRow(rows: seq<Row>, row: Row, i: nat)
      requires i <= |rows| && (i < |rows| ==> Before(row, rows[i]))
      ensures rows[..i] + Insert(rows[i..], row) == rows[..i] + [row] + rows[i..]
    {
      hide Before;
    }

    /** Commits the staged enqueues only after the host callback succeeds. */
    method Transaction(inputs: seq<EnqueueInput>, commits: bool, now: int) returns (results: seq<Result<Row, OutboxError>>)
      modifies this`entries
      ensures entries == if commits then EnqueueAll(old(entries), inputs, maxQueuedBytes, now) else old(entries)
      ensures |results| == |inputs|
      ensures forall i | 0 <= i < |inputs| :: Answers(old(entries), inputs, results[..i], results[i], maxQueuedBytes, now)
      ensures commits ==> multiset(entries) == multiset(old(entries) + NewRows(old(entries), inputs, results))
      ensures commits ==> forall i | 0 <= i < |inputs| && results[i].Success? ::
                            results[i].value in entries && Carries(results[i].value, inputs[i])
    {
      hide IndexOf, Backlog, Insert, EnqueueAll, Answers, Staged, NewRows, Carries;
      var staged := entries;
      results := [];
      NothingEnqueued(entries, inputs, maxQueuedBytes, now);
      for i := 0 to |inputs|
        invariant entries == old(entries) && |results| == i
        invariant staged == EnqueueAll(entries, inputs[..i], maxQueuedBytes, now)
        invariant Staged(entries, inputs, results, staged)
        invariant forall j | 0 <= j < i :: Answers(entries, inputs, results[..j], results[j], maxQueuedBytes, now)
      {
        var input := inputs[i];
        EnqueueOneMore(entries, inputs, i, maxQueuedBytes, now);
        OneMoreAnswer(entries, inputs, results, staged, maxQueuedBytes, now);
        var entry := PendingEntry(input, now);
        var existing := FindEntry(staged, input.id);
        var backlog := BacklogBytes(staged);
        ghost var before := results;
        if existing.Some? {
          var row := staged[existing.value];
          results := results + [if row.tenantId == entry.tenantId && row.payload == entry.payload then Success(row) else Failure(IdempotencyConflict)];
        } else if maxQueuedBytes.Some? && backlog + |entry.payload| > maxQueuedBytes.value {
          results := results + [Failure(QueueFull)];
        } else {
          staged := InsertInOrder(staged, entry);
          results := results + [Success(entry)];
        }
        assert forall j | 0 <= j <= i :: results[..j] == before[..j];
        assert before[..i] == before;
      }
      assert inputs[..|inputs|] == inputs;
      StagedIsAll(entries, inputs, results, staged, maxQueuedBytes, now);
      if commits { entries := staged; }
    }

    static lemma StagedIsAll(before: seq<Row>, inputs: seq<EnqueueInput>, results: seq<Result<Row, OutboxError>>, staged: seq<Row>,
                             max: Option<int>, now: int)
      requires |results| == |inputs| && Staged(before, inputs, results, staged)
      requires forall i | 0 <= i < |inputs| :: Answers(before, inputs, results[..i], results[i], max, now)
      ensures multiset(staged) == multiset(before + NewRows(before, inputs, results))
      ensures forall i | 0 <= i < |inputs| && results[i].Success? :: results[i].value in staged && Carries(results[i].value, inputs[i])
    {
      hide Answers, NewRows, Carries, Backlog, Bytes;
      SameIds(staged, before + NewRows(before, inputs, results));
      forall i | 0 <= i < |inputs| && results[i].Success?
        ensures results[i].value in staged && Carries(results[i].value, inputs[i])
      {
        AcceptedIsKept(before, inputs, results, i, max, now);
      }
    }

    static lemma NothingEnqueued(rows: seq<Row>, inputs: seq<EnqueueInput>, max: Option<int>, now: int)
      ensures EnqueueAll(rows, inputs[..0], max, now) == rows && Staged(rows, inputs, [], rows)
    {
      assert inputs[..0] == [] && rows + [] == rows;
    }

    static lemma {:induction false} EnqueueOneMore(rows: seq<Row>, inputs: seq<EnqueueInput>, i: nat, max: Option<int>, now: int)
      requires i < |inputs|
      ensures EnqueueAll(rows, inputs[..i + 1], max, now) == Enqueue(EnqueueAll(rows, inputs[..i], max, now), inputs[i], max, now).0
      decreases i
    {
      hide Enqueue;
      if i == 0 {
        assert inputs[..1] == [inputs[0]] && [inputs[0]][1..] == [] && inputs[..0] == [];
      } else {
        var rest := inputs[1..];
        assert inputs[..i + 1][1..] == rest[..i] && inputs[..i][1..] == rest[..i - 1] && rest[i - 1] == inputs[i];
        EnqueueOneMore(Enqueue(rows, inputs[0], max, now).0, rest, i - 1, max, now);
        assert rest[..i - 1 + 1] == rest[..i];
      }
    }

    /** The tenants that a held row or an unexpired lease closes to claims. */
    static method BlockedTenants(rows: seq<Row>, now: int) returns (blocked: set<string>)
      ensures forall t :: t in blocked <==> Blocked(rows, t, now)
    {
      blocked := {};
      for i := 0 to |rows|
        invariant forall t :: t in blocked <==> exists j :: 0 <= j < i && rows[j].tenantId == t && Blocks(rows[j], now)
      {
        if Blocks(rows[i], now) { blocked := blocked + {rows[i].tenantId}; }
      }
    }

    static function Claims(rows: seq<Row>, positions: seq<nat>, o: ClaimOptions): seq<Row>
      requires forall k | 0 <= k < |positions| :: positions[k] < |rows|
    {
      seq(|positions|, k requires 0 <= k < |positions| => Lease(rows[positions[k]], o))
    }

    /** Leases a finite, byte-bounded slice of the queue, at most one row a tenant. */
    method ClaimDispatchable(o: ClaimOptions) returns (claims: seq<Row>)
      modifies this`entries
      ensures entries == Claim(old(entries), o)
      ensures !ValidClaimOptions(o) ==> claims == []
      ensures ValidClaimOptions(o) ==>
                var positions := ClaimedPositions(old(entries), o);
                && (forall k | 0 <= k < |positions| :: positions[k] < |old(entries)|)
                && claims == Claims(old(entries), positions, o)
    {
      hide Due, Blocked, Taken, LeaseRows, Claims, Lease;
      claims := [];
      if !ValidClaimOptions(o) { return; }
      var rows := entries;
      ghost var taken: set<string>, positions: seq<nat> := {}, [];
      var blocked := BlockedTenants(rows, o.now);
      var bytes, i := 0, 0;
      NothingLeased(rows, o);
      while i < |rows| && |claims| < o.limit
        invariant 0 <= i <= |rows| && |claims| == |positions| && 0 <= bytes
        invariant forall k | 0 <= k < |positions| :: positions[k] < i
        invariant forall t :: t in blocked <==> Blocked(rows, t, o.now) || t in taken
        invariant positions + Taken(rows, i, o, taken, |claims|, bytes) == ClaimedPositions(rows, o)
        invariant claims == Claims(rows, positions, o)
        invariant entries == LeaseRows(rows, positions, o)
        decreases |rows| - i
      {
        var row := rows[i];
        TakenNext(rows, i, o, taken, |claims|, bytes);
        if Due(row, o) && row.tenantId !in blocked {
          if bytes + |row.payload| > o.maxPayloadBytes {
            assert positions + [] == positions;
            return;
          }
          LeaseOneMore(rows, positions, i, o);
          positions := positions + [i];
          entries := entries[i := Lease(row, o)];
          claims := claims + [Lease(row, o)];
          bytes := bytes + |row.payload|;
          blocked, taken := blocked + {row.tenantId}, taken + {row.tenantId};
        }
        i := i + 1;
      }
      TakenEnds(rows, i, o, taken, |claims|, bytes);
      assert positions + [] == positions;
    }

    static lemma NothingLeased(rows: seq<Row>, o: ClaimOptions)
      ensures LeaseRows(rows, [], o) == rows && Claims(rows, [], o) == []
    {
    }

    /** The queue walk at a row: it passes on, stops at a payload that does not fit, or takes the row. */
    static lemma TakenNext(rows: seq<Row>, i: nat, o: ClaimOptions, taken: set<string>, count: nat, bytes: nat)
      requires i < |rows| && count < o.limit
      ensures var row := rows[i];
              Taken(rows, i, o, taken, count, bytes)
              == if !(Due(row, o) && !Blocked(rows, row.tenantId, o.now) && row.tenantId !in taken)
                 then Taken(rows, i + 1, o, taken, count, bytes)
                 else if bytes + |row.payload| > o.maxPayloadBytes then []
                 else [i] + Taken(rows, i + 1, o, taken + {row.tenantId}, count + 1, bytes + |row.payload|)
    {
      hide Due, Blocked;
    }

    static lemma TakenEnds(rows: seq<Row>, i: nat, o: ClaimOptions, taken: set<string>, count: nat, bytes: nat)
      requires i == |rows| || (i < |rows| && count >= o.limit)
      ensures Taken(rows, i, o, taken, count, bytes) == []
    {
    }

    static lemma LeaseOneMore(rows: seq<Row>, positions: seq<nat>, i: nat, o: ClaimOptions)
      requires i < |rows| && forall k | 0 <= k < |positions| :: positions[k] < i
      ensures |LeaseRows(rows, positions, o)| == |rows|
      ensures LeaseRows(rows, positions + [i], o) == LeaseRows(rows, positions, o)[i := Lease(rows[i], o)]
      ensures Claims(rows, positions + [i], o) == Claims(rows, positions, o) + [Lease(rows[i], o)]
    {
      forall p | 0 <= p < |rows|
        ensures LeaseRows(rows, positions + [i], o)[p] == LeaseRows(rows, positions, o)[i := Lease(rows[i], o)][p]
      {
        assert p in positions + [i] <==> p in positions || p == i;
      }
    }

    /** Requires the current worker's lease. */
    static function AssertLease(row: Row, leaseId: Option<string>): (fault: Option<OutboxError>)
      ensures fault.None? <==> (row.status.Leased? && leaseId == Some(row.status.leaseId)) || (!row.status.Leased? && leaseId.None?)
    {
      LeaseFault(row, leaseId)
    }

    /** Settles a delivered row for its lease owner. */
    method MarkDispatched(id: int, leaseId: Option<string>, at: int) returns (r: Result<Row, OutboxError>)
      modifies this`entries
      ensures (entries, r) == Settle(old(entries), id, leaseId, row => DeliveredRow(row, at))
    {
      hide IndexOf;
      var found := FindEntry(entries, id);
      if found.None? { return Failure(NotFound); }
      var row := entries[found.value];
      var fault := AssertLease(row, leaseId);
      if fault.Some? { return Failure(fault.value); }
      row := row.(status := Delivered(at), updatedAt := at);
      entries := entries[found.value := row];
      return Success(row);
    }

    /** Persists a retry, a hold or a rejection without deleting the payload. */
    method MarkFailed(id: int, leaseId: Option<string>, verdict: Verdict, availableAt: Option<int>, circuitId: string, now: int)
      returns (r: Result<Row, OutboxError>)
      modifies this`entries
      ensures (entries, r) == Settle(old(entries), id, leaseId, row => FailedRow(row, verdict, availableAt, circuitId, now))
    {
      hide IndexOf;
      var found := FindEntry(entries, id);
      if found.None? { return Failure(NotFound); }
      var row := entries[found.value];
      var fault := AssertLease(row, leaseId);
      if fault.Some? { return Failure(fault.value); }
      row := row.(attempts := row.attempts + 1, updatedAt := now);
      match verdict {
        case RejectVerdict => row := row.(status := Dead);
        case PauseVerdict => row := row.(status := Held(circuitId));
        case RetryVerdict => row := row.(status := Ready, availableAt := availableAt.GetOr(now));
      }
      entries := entries[found.value := row];
      return Success(row);
    }

    /** Re-arms held rows of a tenant whose circuit the operator acknowledged. */
    method ResumePaused(tenantId: string, expectedCircuitId: string, limit: nat, now: int)
      returns (error: Option<OutboxError>, resumed: nat)
      modifies this`entries
      ensures (entries, error) == Resume(old(entries), tenantId, expectedCircuitId, limit, now)
      ensures resumed == if error.None? then Lesser(limit, HeldCount(old(entries), tenantId)) else 0
    {
      hide WrongCircuit, HeldBy;
      for i := 0 to |entries|
        invariant forall j | 0 <= j < i :: !WrongCircuit(entries[j], tenantId, expectedCircuitId)
      {
        if WrongCircuit(entries[i], tenantId, expectedCircuitId) { return Some(CircuitMismatch), 0; }
      }
      resumed := RearmHeld(tenantId, limit, now);
      return None, resumed;
    }

    static function Lesser(a: nat, b: nat): nat {
      if a < b then a else b
    }

    static function HeldCount(rows: seq<Row>, tenantId: string): nat {
      if rows == [] then 0 else (if HeldBy(rows[0], tenantId) then 1 else 0) + HeldCount(rows[1..], tenantId)
    }

    method RearmHeld(tenantId: string, limit: nat, now: int) returns (selected: nat)
      modifies this`entries
      ensures entries == Rearm(old(entries), tenantId, limit, now)
      ensures selected == Lesser(limit, HeldCount(old(entries), tenantId))
    {
      hide HeldBy, Rearm, HeldCount;
      var rows := entries;
      selected := 0;
      var updated: seq<Row> := [];
      assert rows[0..] == rows;
      for i := 0 to |rows|
        invariant 0 <= selected <= limit && entries == old(entries)
        invariant Lesser(limit, selected + HeldCount(rows[i..], tenantId)) == Lesser(limit, HeldCount(rows, tenantId))
        invariant updated + Rearm(rows[i..], tenantId, limit - selected, now) == Rearm(rows, tenantId, limit, now)
      {
        RearmNext(rows, i, tenantId, limit - selected, now);
        if selected < limit && HeldBy(rows[i], tenantId) {
          updated := updated + [rows[i].(status := Ready, availableAt := now, updatedAt := now)];
          selected := selected + 1;
        } else {
          updated := updated + [rows[i]];
        }
      }
      NothingToRearm(rows[|rows|..], tenantId, limit - selected, now);
      entries := updated;
    }

    static lemma RearmNext(rows: seq<Row>, i: nat, tenantId: string, limit: nat, now: int)
      requires i < |rows|
      ensures HeldCount(rows[i..], tenantId) == (if HeldBy(rows[i], tenantId) then 1 else 0) + HeldCount(rows[i + 1..], tenantId)
      ensures Rearm(rows[i..], tenantId, limit, now)
           == if limit > 0 && HeldBy(rows[i], tenantId)
              then [rows[i].(status := Ready, availableAt := now, updatedAt := now)] + Rearm(rows[i + 1..], tenantId, limit - 1, now)
              else [rows[i]] + Rearm(rows[i + 1..], tenantId, limit, now)
    {
      hide HeldBy;
      assert rows[i..][1..] == rows[i + 1..];
    }

    static lemma NothingToRearm(rows: seq<Row>, tenantId: string, limit: nat, now: int)
      requires rows == []
      ensures HeldCount(rows, tenantId) == 0 && Rearm(rows, tenantId, limit, now) == []
    {
    }
  }
}
