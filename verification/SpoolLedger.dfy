/**
 The durable state of the capture queue as a value, the room it has for new names, and the log
 that accounts for every batch of a run: what was stored, what was taken over from the older
 layout, and what was sent.
 */
module SpoolLedger {
  import opened Wrappers
  import opened Protocol
  import opened SpoolFiles

  datatype Circuit = StateCorrupt | LegacyUpgrade | QueueFullCircuit | Paused(code: string)

  datatype SpoolState = SpoolState(nextSequence: int, circuit: Option<Circuit>, queueFull: bool)

  datatype StateFile = NoStateFile | CorruptStateFile | SavedState(state: SpoolState)

  /** A root-level batch of the older layout, or bytes that are no batch. */
  datatype LegacyFile = LegacyBatch(payload: Payload) | LegacyJunk(bytes: string)

  type Legacy = map<nat, LegacyFile>

  /** All that survives a crash. */
  datatype Queue = Queue(files: Files, legacy: Legacy, stateFile: StateFile)

  datatype PostOutcome = Posted | RetryPost | PausePost | RejectPost

  /** What a reader makes of the state file. */
  function ReadableState(f: StateFile): SpoolState {
    match f
    case NoStateFile => SpoolState(1, None, false)
    case CorruptStateFile => SpoolState(1, Some(StateCorrupt), false)
    case SavedState(state) => if SafePositive(state.nextSequence) then state else SpoolState(1, Some(StateCorrupt), false)
  }

  /** The circuit a queue is under once it has been prepared. */
  function CircuitAfter(f: StateFile, legacy: Legacy): Option<Circuit> {
    if legacy != map[] then Some(LegacyUpgrade) else ReadableState(f).circuit
  }

  /** The state file cannot be read: it does not decode, or its counter is no safe positive integer. */
  predicate Unreadable(f: StateFile) {
    f == CorruptStateFile || (f.SavedState? && !(1 <= f.state.nextSequence <= MAX_SAFE_INTEGER))
  }

  /** A circuit is saved. */
  predicate OnHold(f: StateFile) {
    f.SavedState? && f.state.circuit.Some?
  }

  /** Only an operator may let anything through. */
  predicate Closed(f: StateFile) {
    Unreadable(f) || OnHold(f)
  }

  /** A closed queue stays closed, unless a process died right after it had set the unreadable file aside. */
  predicate StaysClosed(before: StateFile, life: nat, after: StateFile, left: nat) {
    Closed(before) ==> Closed(after) || (Unreadable(before) && life == 1 && left == 0 && after == NoStateFile)
  }

  function LegacyContent(f: LegacyFile): Content {
    match f case LegacyBatch(payload) => Batch(payload) case LegacyJunk(bytes) => RawBytes(bytes)
  }

  // ---------- Sizes ----------

  datatype Limits = Limits(hardBatches: int, hardBytes: int)

  predicate ValidLimits(limits: Limits) {
    1 <= limits.hardBatches && 1 <= limits.hardBytes
  }

  /** One more batch does not fit beside these files. */
  ghost predicate Exceeds(files: Files, payload: Payload, limits: Limits) {
    |files| + 1 > limits.hardBatches || TotalBytes(files) + |payload.text| > limits.hardBytes
  }

  function LegacySize(f: LegacyFile): nat {
    match f case LegacyBatch(payload) => |payload.text| case LegacyJunk(bytes) => |bytes|
  }

  ghost function LegacyBytes(legacy: Legacy): nat
    decreases |legacy|
  {
    if legacy == map[] then 0
    else
      var l :| l in legacy;
      LegacySize(legacy[l]) + LegacyBytes(legacy - {l})
  }

  lemma {:induction false} LegacyWithout(legacy: Legacy, l: nat)
    requires l in legacy
    ensures LegacyBytes(legacy) == LegacySize(legacy[l]) + LegacyBytes(legacy - {l})
    ensures |legacy| == |legacy - {l}| + 1
    decreases |legacy|
  {
    hide LegacySize;
    var k := FirstLegacy(legacy);
    if k != l {
      LegacyWithout(legacy - {k}, l);
      LegacyWithout(legacy - {l}, k);
      assert legacy - {k} - {l} == legacy - {l} - {k};
    }
  }

  /** The legacy file the definition of `LegacyBytes` picks. */
  lemma FirstLegacy(legacy: Legacy) returns (k: nat)
    requires legacy != map[]
    ensures k in legacy && LegacyBytes(legacy) == LegacySize(legacy[k]) + LegacyBytes(legacy - {k})
  {
    k :| k in legacy && LegacyBytes(legacy) == LegacySize(legacy[k]) + LegacyBytes(legacy - {k});
  }

  /** Files that were taken over from the older layout are where they were missing, and nothing else. */
  ghost predicate Balanced(files: Files, legacy: Legacy, files': Files, legacy': Legacy) {
    && |files'| + |legacy'| == |files| + |legacy|
    && TotalBytes(files') + LegacyBytes(legacy') == TotalBytes(files) + LegacyBytes(legacy)
  }

  lemma BalancedThen(a: Files, la: Legacy, b: Files, lb: Legacy, c: Files, lc: Legacy)
    requires Balanced(a, la, b, lb) && Balanced(b, lb, c, lc)
    ensures Balanced(a, la, c, lc)
  {
    hide TotalBytes, LegacyBytes;
  }

  lemma BalancedItself(files: Files, legacy: Legacy)
    ensures Balanced(files, legacy, files, legacy)
  {
  }

  lemma SameSizeIsBalanced(a: Files, la: Legacy, b: Files, lb: Legacy, c: Files)
    requires Balanced(a, la, b, lb) && SameSize(b, c)
    ensures Balanced(a, la, c, lb)
  {
    hide TotalBytes, LegacyBytes;
  }

  lemma TakenOverIsBalanced(files: Files, legacy: Legacy, at: Location, e: EntryFile, l: nat)
    requires at !in files && l in legacy && SizeOf(e) == LegacySize(legacy[l])
    ensures Balanced(files, legacy, files[at := e], legacy - {l})
  {
    hide TotalBytes, LegacyBytes, SizeOf, LegacySize;
    TotalWith(files, at, e);
    LegacyWithout(legacy, l);
  }

  /** `files` is the queue of `q` with every legacy file taken over, in number and bytes. */
  ghost predicate Gathered(q: Queue, files: Files) {
    |files| == |q.files| + |q.legacy| && TotalBytes(files) == TotalBytes(q.files) + LegacyBytes(q.legacy)
  }

  lemma BalancedIsGathered(q: Queue, files: Files)
    requires Balanced(q.files, q.legacy, files, map[])
    ensures Gathered(q, files)
  {
  }

  lemma SameSizeIsGathered(q: Queue, files: Files, files': Files)
    requires Gathered(q, files) && SameSize(files, files')
    ensures Gathered(q, files')
  {
    hide TotalBytes, LegacyBytes;
  }

  /** The queue takes no more: it was full before, or one more batch does not fit beside what it holds and takes over. */
  ghost predicate FullFor(q: Queue, payload: Payload, limits: Limits) {
    || ReadableState(q.stateFile).queueFull
    || |q.files| + |q.legacy| + 1 > limits.hardBatches
    || TotalBytes(q.files) + LegacyBytes(q.legacy) + |payload.text| > limits.hardBytes
  }

  lemma GatheredExceeds(q: Queue, files: Files, payload: Payload, limits: Limits)
    requires Gathered(q, files)
    ensures ReadableState(q.stateFile).queueFull || Exceeds(files, payload, limits) <==> FullFor(q, payload, limits)
  {
    hide TotalBytes, LegacyBytes;
  }

  /** Once everything is taken over, the same queue is full for the same batches. */
  lemma GatheredIsAsFull(q: Queue, q': Queue, payload: Payload, limits: Limits)
    requires Gathered(q, q'.files) && q'.legacy == map[]
    requires ReadableState(q'.stateFile).queueFull == ReadableState(q.stateFile).queueFull
    ensures FullFor(q', payload, limits) <==> FullFor(q, payload, limits)
  {
    hide TotalBytes, ReadableState;
  }

  // ---------- Room for new names ----------

  /** `bound` is above the readable counter and every number in use. */
  predicate Bounded(q: Queue, bound: nat) {
    AboveAll(q.files, bound) && ReadableState(q.stateFile).nextSequence <= bound
  }

  function LeastBound(q: Queue, bound: nat): (b: nat)
    requires Bounded(q, bound)
    ensures b <= bound && Bounded(q, b) && forall c: nat | Bounded(q, c) :: b <= c
  {
    if bound > 0 && Bounded(q, bound - 1) then LeastBound(q, bound - 1) else
      assert forall c: nat | Bounded(q, c) && c < bound :: Bounded(q, bound - 1);
      bound
  }

  /** The least number above the counter and every number in use. */
  function Bound(q: Queue): (b: nat)
    ensures Bounded(q, b) && forall c: nat | Bounded(q, c) :: b <= c
  {
    LeastBound(q, MAX_SAFE_INTEGER + 1)
  }

  /** No undecodable legacy file would be set aside at `t` under a name that is taken. */
  ghost predicate JunkNamesFree(files: Files, legacy: Legacy, t: nat) {
    forall l | l in legacy && legacy[l].LegacyJunk? :: !Present(files, Dated(t, l))
  }

  /** Safe integers are left for every legacy batch and `k` more, and names are free at the given times. */
  ghost predicate Room(q: Queue, k: nat, clocks: set<nat>) {
    Bound(q) + |q.legacy| + k <= MAX_SAFE_INTEGER && forall t | t in clocks :: JunkNamesFree(q.files, q.legacy, t)
  }

  ghost predicate StillFree(q: Queue, q': Queue) {
    forall t: nat :: JunkNamesFree(q.files, q.legacy, t) ==> JunkNamesFree(q'.files, q'.legacy, t)
  }

  /** Going from `q` to `q'` takes at most `n` of the room. */
  ghost predicate Spends(q: Queue, q': Queue, n: nat) {
    Bound(q') + |q'.legacy| <= Bound(q) + |q.legacy| + n && StillFree(q, q')
  }

  lemma RoomLeft(q: Queue, q': Queue, n: nat, k: nat, clocks: set<nat>)
    requires Room(q, k + n, clocks) && Spends(q, q', n)
    ensures Room(q', k, clocks)
  {
    hide Bound, JunkNamesFree;
  }

  lemma LessRoom(q: Queue, k: nat, clocks: set<nat>, j: nat, some: set<nat>)
    requires Room(q, k, clocks) && j <= k && some <= clocks
    ensures Room(q, j, some)
  {
    hide Bound, JunkNamesFree;
  }

  lemma SpendsThen(a: Queue, b: Queue, c: Queue, m: nat, n: nat)
    requires Spends(a, b, m) && Spends(b, c, n)
    ensures Spends(a, c, m + n)
  {
    hide Bound, JunkNamesFree;
  }

  lemma NoNewNamesSpendNothing(q: Queue, q': Queue)
    requires NoNewNames(q.files, q'.files) && q'.legacy == q.legacy && q'.stateFile == q.stateFile
    ensures Spends(q, q', 0)
  {
    StillAboveAll(q.files, q'.files, Bound(q));
    assert Bounded(q', Bound(q));
    forall t: nat | JunkNamesFree(q.files, q.legacy, t) ensures JunkNamesFree(q'.files, q'.legacy, t) {
      forall l | l in q'.legacy && q'.legacy[l].LegacyJunk? ensures !Present(q'.files, Dated(t, l)) {
        StillAbsent(q.files, q'.files, Dated(t, l));
      }
    }
  }

  lemma StillAbsent(files: Files, files': Files, name: FileName)
    requires NoNewNames(files, files')
    ensures Present(files', name) ==> Present(files, name)
  {
    if Present(files', name) {
      var d := if In(files', PendingDir, name) then PendingDir else if In(files', HeldDir, name) then HeldDir else QuarantineDir;
      assert Location(d, name) in files';
    }
  }

  /**
   `total` covers the counter and the numbers in use, with one more for each legacy file still
   there; a process that died may have written one batch it did not get to remove.
   */
  ghost predicate Covers(files: Files, legacy: Legacy, life: nat, next: int, total: int) {
    && AboveAll(files, total - |legacy| + if life > 0 then 0 else 1)
    && (life > 0 ==> next + |legacy| <= total)
  }

  lemma FirstIsCovered(files: Files, legacy: Legacy, life: nat, next: int, bound: int)
    requires AboveAll(files, bound) && next <= bound
    ensures Covers(files, legacy, life, next, bound + |legacy|)
  {
  }

  lemma MigratedIsCovered(files: Files, legacy: Legacy, life: nat, next: nat, e: EntryFile, l: nat,
                          files': Files, legacy': Legacy, life': nat, total: int)
    requires Covers(files, legacy, life, next, total) && l in legacy
    requires files' == if life > 0 then files[Location(HeldDir, Numbered(next)) := e] else files
    requires legacy' == if life > 1 then legacy - {l} else legacy
    requires life' == if life > 1 then life - 2 else 0
    ensures Covers(files', legacy', life', Increment(next), total)
  {
    assert life > 1 ==> |legacy'| == |legacy| - 1;
  }

  lemma MovedIsCovered(files: Files, files': Files, legacy: Legacy, life: nat, life': nat, next: int, total: int)
    requires Covers(files, legacy, life, next, total) && NoNewNames(files, files') && life' <= life
    ensures Covers(files', legacy, life', next, total)
  {
    hide NoNewNames;
    StillAboveAll(files, files', total - |legacy| + if life > 0 then 0 else 1);
  }

  lemma CoveredIsBounded(files: Files, legacy: Legacy, life: nat, next: int, total: int)
    requires Covers(files, legacy, life, next, total)
    ensures AboveAll(files, total - |legacy| + if life > 0 then 0 else 1) && AboveAll(files, total - |legacy| + 1)
    ensures life > 0 ==> next <= total - |legacy|
  {
  }

  // ---------- The log ----------

  /** A batch stored under a new name, a legacy file taken over, or a queued entry sent. */
  datatype QueueEvent =
    | Stored(name: FileName, payload: Payload)
    | Adopted(legacy: nat, name: FileName, content: Content)
    | Request(name: FileName, entry: EntryFile, outcome: PostOutcome)

  predicate Adds(e: QueueEvent, name: FileName, c: Content) {
    match e
    case Stored(n, payload) => n == name && c == Batch(payload)
    case Adopted(_, n, content) => n == name && c == content
    case Request(_, _, _) => false
  }

  predicate Takes(e: QueueEvent, name: FileName) {
    e.Request? && e.outcome.Posted? && e.name == name
  }

  /** What the queue owes after `log`: each batch it had or took in, until a successful post of that name. */
  ghost predicate Owed(before: Files, log: seq<QueueEvent>, name: FileName, c: Content)
    decreases |log|
  {
    if log == [] then Has(before, name, c)
    else
      var front, last := log[..|log| - 1], log[|log| - 1];
      Adds(last, name, c) || (!Takes(last, name) && Owed(before, front, name, c))
  }

  /** New batches never get an owed name, and a request sends the very batch that is owed under its name. */
  ghost predicate FairStep(before: Files, log: seq<QueueEvent>, e: QueueEvent) {
    match e
    case Stored(n, _) => forall c :: !Owed(before, log, n, c)
    case Adopted(_, n, content) => forall c | Owed(before, log, n, c) :: c == content
    case Request(n, entry, _) => entry.Entry? && forall c | Owed(before, log, n, c) :: c == Batch(entry.payload)
  }

  ghost predicate Fair(before: Files, log: seq<QueueEvent>)
    decreases |log|
  {
    log == [] || (Fair(before, log[..|log| - 1]) && FairStep(before, log[..|log| - 1], log[|log| - 1]))
  }

  /** Every batch owed after the log is in exactly one directory. */
  ghost predicate Accounts(before: Files, log: seq<QueueEvent>, after: Files) {
    UniqueNames(after) && Fair(before, log) && forall name, c :: Owed(before, log, name, c) ==> Has(after, name, c)
  }

  ghost predicate AdoptedAs(e: QueueEvent, l: nat, c: Content) {
    e.Adopted? && e.legacy == l && e.content == c
  }

  /** Every legacy file is still where it was, or the log says that it was taken over. */
  ghost predicate LegacyAccounted(before: Legacy, log: seq<QueueEvent>, after: Legacy) {
    forall l | l in before ::
      (l in after && after[l] == before[l]) || exists i :: 0 <= i < |log| && AdoptedAs(log[i], l, LegacyContent(before[l]))
  }

  ghost predicate Explains(q: Queue, log: seq<QueueEvent>, q': Queue) {
    Accounts(q.files, log, q'.files) && LegacyAccounted(q.legacy, log, q'.legacy)
  }

  /** The entries a log sent, in order. */
  function Requests(log: seq<QueueEvent>): seq<QueueEvent>
    decreases |log|
  {
    if log == [] then []
    else Requests(log[..|log| - 1]) + if log[|log| - 1].Request? then [log[|log| - 1]] else []
  }

  /** The segments of a run's log, one after the other. */
  function Joined(logs: seq<seq<QueueEvent>>): seq<QueueEvent>
    decreases |logs|
  {
    if logs == [] then [] else Joined(logs[..|logs| - 1]) + logs[|logs| - 1]
  }

  lemma JoinedMore(logs: seq<seq<QueueEvent>>, log: seq<QueueEvent>)
    ensures Joined(logs + [log]) == Joined(logs) + log
  {
    assert (logs + [log])[..|logs|] == logs;
  }

  lemma {:induction false} RequestsThen(log: seq<QueueEvent>, more: seq<QueueEvent>)
    ensures Requests(log + more) == Requests(log) + Requests(more)
    decreases |more|
  {
    if more == [] {
      assert log + more == log;
    } else {
      var front := more[..|more| - 1];
      assert (log + more)[..|log + more| - 1] == log + front;
      RequestsThen(log, front);
    }
  }

  lemma {:induction false} OwedThen(a: Files, log: seq<QueueEvent>, b: Files, more: seq<QueueEvent>, name: FileName, c: Content)
    requires Accounts(a, log, b)
    ensures Owed(a, log + more, name, c) ==> Owed(b, more, name, c)
    decreases |more|
  {
    hide UniqueNames, Has, Fair;
    if more == [] {
      assert log + more == log;
    } else {
      var front := more[..|more| - 1];
      assert (log + more)[..|log + more| - 1] == log + front;
      OwedThen(a, log, b, front, name, c);
    }
  }

  lemma {:induction false} FairThen(a: Files, log: seq<QueueEvent>, b: Files, more: seq<QueueEvent>)
    requires Accounts(a, log, b) && Fair(b, more)
    ensures Fair(a, log + more)
    decreases |more|
  {
    hide UniqueNames, Has, Owed;
    if more == [] {
      assert log + more == log;
    } else {
      var front, last := more[..|more| - 1], more[|more| - 1];
      assert (log + more)[..|log + more| - 1] == log + front;
      FairThen(a, log, b, front);
      forall c ensures Owed(a, log + front, last.name, c) ==> Owed(b, front, last.name, c) {
        OwedThen(a, log, b, front, last.name, c);
      }
    }
  }

  lemma AccountsThen(a: Files, log: seq<QueueEvent>, b: Files, more: seq<QueueEvent>, c: Files)
    requires Accounts(a, log, b) && Accounts(b, more, c)
    ensures Accounts(a, log + more, c)
  {
    hide UniqueNames, Has, Owed, Fair;
    FairThen(a, log, b, more);
    forall name, d | Owed(a, log + more, name, d) ensures Has(c, name, d) {
      OwedThen(a, log, b, more, name, d);
    }
  }

  lemma LegacyAccountedThen(a: Legacy, log: seq<QueueEvent>, b: Legacy, more: seq<QueueEvent>, c: Legacy)
    requires LegacyAccounted(a, log, b) && LegacyAccounted(b, more, c)
    ensures LegacyAccounted(a, log + more, c)
  {
    hide AdoptedAs;
    var all := log + more;
    forall l | l in a && !(l in c && c[l] == a[l])
      ensures exists i :: 0 <= i < |all| && AdoptedAs(all[i], l, LegacyContent(a[l]))
    {
      if l in b && b[l] == a[l] {
        var i :| 0 <= i < |more| && AdoptedAs(more[i], l, LegacyContent(a[l]));
        assert all[|log| + i] == more[i];
      } else {
        var i :| 0 <= i < |log| && AdoptedAs(log[i], l, LegacyContent(a[l]));
        assert all[i] == log[i];
      }
    }
  }

  lemma ExplainsThen(a: Queue, log: seq<QueueEvent>, b: Queue, more: seq<QueueEvent>, c: Queue)
    requires Explains(a, log, b) && Explains(b, more, c)
    ensures Explains(a, log + more, c)
    ensures Requests(log + more) == Requests(log) + Requests(more)
  {
    hide Accounts, LegacyAccounted, Requests;
    AccountsThen(a.files, log, b.files, more, c.files);
    LegacyAccountedThen(a.legacy, log, b.legacy, more, c.legacy);
    RequestsThen(log, more);
  }

  /** A batch that was there, stored or taken over is in exactly one directory until a post of it succeeds. */
  lemma StaysUntilPosted(before: Files, log: seq<QueueEvent>, after: Files, i: nat, name: FileName, c: Content)
    requires Accounts(before, log, after) && i <= |log|
    requires if i == 0 then Has(before, name, c) else Adds(log[i - 1], name, c)
    requires forall j | i <= j < |log| :: !Takes(log[j], name)
    ensures Has(after, name, c) && Once(after, name)
  {
    hide Has, Once, Fair;
    OwedSince(before, log, i, |log|, name, c);
    assert log[..|log|] == log;
  }

  lemma {:induction false} OwedSince(before: Files, log: seq<QueueEvent>, i: nat, k: nat, name: FileName, c: Content)
    requires i <= k <= |log|
    requires if i == 0 then Has(before, name, c) else Adds(log[i - 1], name, c)
    requires forall j | i <= j < |log| :: !Takes(log[j], name)
    ensures Owed(before, log[..k], name, c)
    decreases k
  {
    hide Has, Adds, Takes;
    if k > 0 {
      assert log[..k][..k - 1] == log[..k - 1];
      if i < k {
        OwedSince(before, log, i, k - 1, name, c);
      }
    }
  }

  /** Anywhere in the log: a stored batch got a name nothing was owed under, and a request sent what was owed. */
  lemma {:induction false} EveryStepIsFair(before: Files, log: seq<QueueEvent>, i: nat)
    requires Fair(before, log) && i < |log|
    ensures FairStep(before, log[..i], log[i])
    decreases |log|
  {
    hide FairStep;
    if i < |log| - 1 {
      EveryStepIsFair(before, log[..|log| - 1], i);
      assert log[..|log| - 1][..i] == log[..i];
    }
  }

  lemma OwedAtFirst(before: Files, name: FileName, c: Content)
    ensures Owed(before, [], name, c) <==> Has(before, name, c)
  {
  }

  lemma OwedOne(before: Files, e: QueueEvent, name: FileName, c: Content)
    ensures Owed(before, [e], name, c) <==> Adds(e, name, c) || (!Takes(e, name) && Has(before, name, c))
  {
    hide Has;
    assert [e][..0] == [];
    OwedAtFirst(before, name, c);
  }

  lemma FairOne(before: Files, e: QueueEvent)
    ensures Fair(before, [e]) <==> FairStep(before, [], e)
  {
    hide FairStep;
    assert [e][..0] == [] && Fair(before, []);
  }

  lemma AbsentHasNothing(files: Files, name: FileName, c: Content)
    requires !Present(files, name)
    ensures !Has(files, name, c)
  {
  }

  /** Keeping every batch needs no entry in the log. */
  lemma KeptAccounts(before: Files, after: Files)
    requires Kept(before, after)
    ensures Accounts(before, [], after)
  {
    hide UniqueNames, Has;
  }

  lemma StoredAccounts(before: Files, after: Files, name: FileName, payload: Payload)
    requires Kept(before, after) && !Present(before, name) && Has(after, name, Batch(payload))
    ensures Accounts(before, [Stored(name, payload)], after)
  {
    hide UniqueNames, Has, Owed, Fair;
    var e := Stored(name, payload);
    forall c ensures !Owed(before, [], name, c) {
      OwedAtFirst(before, name, c);
      AbsentHasNothing(before, name, c);
    }
    FairOne(before, e);
    forall n, c | Owed(before, [e], n, c) ensures Has(after, n, c) {
      OwedOne(before, e, n, c);
    }
  }

  /** What a request does to the queue: a successful post may remove its entry, nothing else is removed. */
  lemma RequestAccounts(before: Files, after: Files, name: FileName, entry: EntryFile, outcome: PostOutcome)
    requires UniqueNames(before) && entry.Entry? && Has(before, name, Batch(entry.payload))
    requires if outcome.Posted? then KeptExcept(before, after, name) else Kept(before, after)
    ensures Accounts(before, [Request(name, entry, outcome)], after)
  {
    hide UniqueNames, Has, Owed, Fair;
    var e := Request(name, entry, outcome);
    forall c | Owed(before, [], name, c) ensures c == Batch(entry.payload) {
      OwedAtFirst(before, name, c);
      OneContent(before, name, c, Batch(entry.payload));
    }
    FairOne(before, e);
    forall n, c | Owed(before, [e], n, c) ensures Has(after, n, c) {
      OwedOne(before, e, n, c);
    }
  }

  /** A name has one content. */
  lemma OneContent(files: Files, name: FileName, c: Content, d: Content)
    requires UniqueNames(files) && Has(files, name, c) && Has(files, name, d)
    ensures c == d
  {
    hide ContentOf;
    assert Once(files, name);
  }

  /** A legacy file is still where it was, or its content is in the queue. */
  ghost predicate LegacySafe(before: Legacy, after: Legacy, files: Files) {
    forall l | l in before ::
      (l in after && after[l] == before[l]) || exists n :: Has(files, n, LegacyContent(before[l]))
  }

  lemma AdoptOne(before: Files, log: seq<QueueEvent>, after: Files, l: nat, name: FileName, c: Content)
    requires Accounts(before, log, after) && Has(after, name, c)
    ensures Accounts(before, log + [Adopted(l, name, c)], after)
    ensures Requests(log + [Adopted(l, name, c)]) == Requests(log)
  {
    hide UniqueNames, Has;
    var e := Adopted(l, name, c);
    assert (log + [e])[..|log|] == log;
    forall d | Owed(before, log, name, d) ensures d == c {
      OneContent(after, name, c, d);
    }
    forall n, d | Owed(before, log + [e], n, d) ensures Has(after, n, d) {
      assert Adds(e, n, d) || Owed(before, log, n, d);
    }
  }

  /** Adds the legacy files among `todo` that were taken over to a log. */
  lemma {:induction false} AdoptAll(before: Files, log: seq<QueueEvent>, after: Files, legacy: Legacy, legacy': Legacy, todo: set<nat>)
    returns (full: seq<QueueEvent>)
    requires Accounts(before, log, after) && LegacySafe(legacy, legacy', after) && todo <= legacy.Keys
    ensures Accounts(before, full, after) && log <= full && Requests(full) == Requests(log)
    ensures forall l | l in todo ::
              (l in legacy' && legacy'[l] == legacy[l]) || exists i :: 0 <= i < |full| && AdoptedAs(full[i], l, LegacyContent(legacy[l]))
    decreases todo
  {
    hide Accounts, Has, LegacyContent, Requests;
    full := log;
    if todo != {} {
      var l :| l in todo;
      if !(l in legacy' && legacy'[l] == legacy[l]) {
        var n :| Has(after, n, LegacyContent(legacy[l]));
        AdoptOne(before, log, after, l, n, LegacyContent(legacy[l]));
        full := log + [Adopted(l, n, LegacyContent(legacy[l]))];
      }
      var shorter := full;
      full := AdoptAll(before, shorter, after, legacy, legacy', todo - {l});
      forall k | k in todo && !(k in legacy' && legacy'[k] == legacy[k])
        ensures exists i :: 0 <= i < |full| && AdoptedAs(full[i], k, LegacyContent(legacy[k]))
      {
        if k == l {
          assert full[|log|] == shorter[|log|];
        }
      }
    }
  }

  lemma Adopt(before: Queue, log: seq<QueueEvent>, after: Queue) returns (full: seq<QueueEvent>)
    requires Accounts(before.files, log, after.files) && LegacySafe(before.legacy, after.legacy, after.files)
    ensures Explains(before, full, after) && log <= full && Requests(full) == Requests(log)
  {
    hide Accounts, Has, LegacySafe, Requests, AdoptedAs;
    full := AdoptAll(before.files, log, after.files, before.legacy, after.legacy, before.legacy.Keys);
  }
}
