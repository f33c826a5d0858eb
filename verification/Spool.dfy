/**
 The durable capture queue. Every file operation may be the last one before a crash: an
 operation performs nothing once its process has spent its `life`, so each contract below
 speaks of every crash point at once.
 */
module Spool {
  import opened Wrappers
  import opened Protocol
  import opened SpoolFiles
  import opened SpoolLedger

  datatype SaveResult = Saved | HeldBack | Full | Failed | Clear

  function EntryOf(payload: Payload, attempts: nat, mark: Mark): EntryFile {
    Entry(payload, |payload.text|, payload.records, attempts, mark)
  }

  predicate NameBefore(a: FileName, b: FileName) {
    match (a, b)
    case (Numbered(m), Numbered(n)) => m < n
    case (Numbered(_), Dated(_, _)) => true
    case (Dated(_, _), Numbered(_)) => false
    case (Dated(s, l), Dated(t, k)) => s < t || (s == t && l < k)
  }

  datatype Permit = Permit(canary: bool, maxBatches: int, maxRecords: int, maxBytes: int)

  datatype ReplayResult = ReplayResult(
    attemptedBatches: nat, attemptedRecords: nat, attemptedBytes: nat, dispatchedBatches: nat, quarantinedBatches: nat, paused: bool)

  /** What a process does to the queue in one go, under the mutation lock; or an accident of the state file. */
  datatype Section =
    | SavesBatch(life: nat, now: nat, payload: Payload, limits: Limits, attempts: nat, quarantined: bool)
    | QueuesBatch(life: nat, now: nat, payload: Payload, limits: Limits)
    | Pauses(life: nat, now: nat, code: string)
    | Resumes(life: nat, now: nat)
    | Inspects(life: nat, now: nat)
    | LosesState
    | CorruptsState

  /** What a section answered, what was left of its life, and the name a batch got. */
  datatype Answer = Answer(result: SaveResult, left: nat, name: FileName)

  /** One turn of the replay loop: is there time, what happens meanwhile, how does the request end. */
  datatype Turn = Turn(timeLeft: bool, now: nat, others: seq<Section>, outcome: PostOutcome)

  /** A process: one locked section, a capture that ships its batch, or a replay. */
  datatype Process =
    | Locked(section: Section)
    | Ships(life: nat, payload: Payload, limits: Limits, now: nat, others: seq<Section>, outcome: PostOutcome, later: nat)
    | Flushes(life: nat, permit: Permit, turns: seq<Turn>)

  /** What a process said when it ended. */
  datatype Report =
    | SectionReport(answer: Answer)
    | ShipReport(r: ShipResult, left: nat, answers: seq<Answer>)
    | FlushReport(result: ReplayResult, refused: bool, others: seq<seq<Answer>>)

  /** Why a replay ends. */
  datatype Stop =
    | PermitSpent | NoTurnLeft | OutOfTime | Halted | Died
    | QueueEmpty | SetAside(name: FileName) | TooBig(dir: Directory, name: FileName)

  datatype ShipResult = NothingToShip | Delivered | Queued(name: FileName) | RefusedFull | ShipFailed | ShipDied

  const MAX_BATCHES := 250
  const MAX_RECORDS := 125000
  const MAX_BYTES := 50000000
  const MAX_CANARY_RECORDS := 500

  class SpoolQueue {
    var files: Files
    var legacy: Legacy
    var stateFile: StateFile
    /** File operations left before this process dies. */
    var life: nat

    ghost predicate Valid()
      reads this`files
    {
      UniqueNames(files)
    }

    ghost function Snapshot(): Queue
      reads this`files, this`legacy, this`stateFile
    {
      Queue(files, legacy, stateFile)
    }

    /** Safe integers are left for every legacy batch and one more, and no name of this instant is taken. */
    ghost predicate Roomy(now: nat)
      reads this`files, this`stateFile, this`legacy
    {
      Room(Snapshot(), 0, {now})
    }

    /** `bound` bounds the queue, and the counter of a process that is still alive. */
    ghost predicate Fits(state: SpoolState, bound: nat)
      reads this`files, this`stateFile, this`legacy, this`life
    {
      Bounded(Snapshot(), bound) && (life > 0 ==> state.nextSequence <= bound)
    }

    /** A locked section takes at most so many file operations: a process with a longer life survives it. */
    static ghost function Steps(q: Queue): nat {
      5 + 5 * |q.legacy| + 3 * |q.files|
    }

    // ---------- Single file operations ----------

    /** What is left of a life after one operation. */
    static function Left(life: nat): nat {
      if life > 0 then life - 1 else 0
    }

    method Tick() returns (alive: bool)
      modifies this`life
      ensures alive == (old(life) > 0) && life == Left(old(life))
    {
      alive := life > 0;
      if alive { life := life - 1; }
    }

    method WriteEntry(d: Directory, name: FileName, e: EntryFile)
      modifies this`files, this`life
      ensures life == Left(old(life))
      ensures files == if old(life) > 0 then old(files)[Location(d, name) := e] else old(files)
    {
      var alive := Tick();
      if alive { files := files[Location(d, name) := e]; }
    }

    method MoveEntry(name: FileName, from: Directory, to: Directory)
      requires from != to
      modifies this`files, this`life
      ensures life == Left(old(life)) && NoNewNames(old(files), files)
      ensures old(Valid()) ==> Valid() && SameBatches(old(files), files) && SameSize(old(files), files)
      ensures files == if old(life) > 0 then Move(old(files), name, from, to) else old(files)
    {
      NothingNew(files);
      MoveNamesNothing(files, name, from, to);
      var alive := Tick();
      if alive && Location(from, name) in files {
        if UniqueNames(files) {
          MoveKeeps(files, name, from, to);
          MoveKeepsSize(files, name, from, to);
        }
        files := (files - {Location(from, name)})[Location(to, name) := files[Location(from, name)]];
      }
    }

    method RemoveEntry(d: Directory, name: FileName)
      modifies this`files, this`life
      ensures life == Left(old(life))
      ensures old(Valid()) ==> KeptExcept(old(files), files, name)
      ensures files == if old(life) > 0 then old(files) - {Location(d, name)} else old(files)
    {
      if UniqueNames(files) {
        RemoveKeeps(files, d, name);
      }
      var alive := Tick();
      if alive { files := files - {Location(d, name)}; }
    }

    method WriteState(state: SpoolState)
      modifies this`stateFile, this`life
      ensures life == Left(old(life))
      ensures stateFile == if old(life) > 0 then SavedState(state) else old(stateFile)
    {
      var alive := Tick();
      if alive { stateFile := SavedState(state); }
    }

    /** A directory's entry names in order. */
    method EntryNames(d: Directory) returns (names: seq<FileName>)
      ensures forall n :: n in names <==> In(files, d, n)
      ensures |names| <= |files|
      ensures forall i, j | 0 <= i < j < |names| :: NameBefore(names[i], names[j])
    {
      names := [];
      var rest := files.Keys;
      while rest != {}
        invariant rest <= files.Keys && |names| + |rest| <= |files|
        invariant forall n :: n in names <==> In(files, d, n) && Location(d, n) !in rest
        invariant forall i, j | 0 <= i < j < |names| :: NameBefore(names[i], names[j])
        decreases rest
      {
        var l :| l in rest;
        rest := rest - {l};
        if l.dir == d {
          var at := 0;
          while at < |names| && NameBefore(names[at], l.name)
            invariant 0 <= at <= |names|
            invariant forall i | 0 <= i < at :: NameBefore(names[i], l.name)
          {
            at := at + 1;
          }
          InsertedName(names, at, l.name);
          names := names[..at] + [l.name] + names[at..];
        }
      }
    }

    static lemma InsertedName(names: seq<FileName>, at: nat, name: FileName)
      requires forall i, j | 0 <= i < j < |names| :: NameBefore(names[i], names[j])
      requires at <= |names| && name !in names
      requires forall i | 0 <= i < at :: NameBefore(names[i], name)
      requires at < |names| ==> !NameBefore(names[at], name)
      ensures var longer := names[..at] + [name] + names[at..];
              && (forall i, j | 0 <= i < j < |longer| :: NameBefore(longer[i], longer[j]))
              && (forall n :: n in longer <==> n in names || n == name)
    {
      hide NameBefore;
      var longer := names[..at] + [name] + names[at..];
      assert names == names[..at] + names[at..];
      forall i, j | 0 <= i < j < |longer| ensures NameBefore(longer[i], longer[j]) {
        assert longer[i] == if i < at then names[i] else if i == at then name else names[i - 1];
        assert longer[j] == if j < at then names[j] else if j == at then name else names[j - 1];
        if i == at {
          NamesCompare(names[at], name);
          if j - 1 > at { NamesChain(name, names[at], names[j - 1]); }
        }
      }
    }

    static lemma NamesCompare(a: FileName, b: FileName)
      ensures NameBefore(a, b) || a == b || NameBefore(b, a)
    {
    }

    static lemma NamesChain(a: FileName, b: FileName, c: FileName)
      requires NameBefore(a, b) && NameBefore(b, c)
      ensures NameBefore(a, c)
    {
    }

    method MoveAll(from: Directory, to: Directory)
      requires from != to
      modifies this`files, this`life
      ensures life <= old(life) && NoNewNames(old(files), files)
      ensures old(Valid()) ==> Valid() && SameBatches(old(files), files) && SameSize(old(files), files)
      ensures life > 0 ==> forall n :: !In(files, from, n)
      ensures old(life) <= life + |old(files)| && |files| <= |old(files)|
    {
      hide Has, UniqueNames, NoNewNames, SameBatches, SameSize, Move;
      var names := EntryNames(from);
      NothingNew(files);
      SameAsItself(files);
      for i := 0 to |names|
        invariant life <= old(life) && NoNewNames(old(files), files)
        invariant old(life) <= life + i && |files| <= |old(files)|
        invariant old(Valid()) ==> Valid() && SameBatches(old(files), files) && SameSize(old(files), files)
        invariant life > 0 ==> forall n | In(files, from, n) :: n in names[i..]
      {
        ghost var before := files;
        MoveNoMore(files, names[i], from, to);
        MoveEntry(names[i], from, to);
        NoNewNamesThen(old(files), before, files);
        if old(Valid()) {
          SameThen(old(files), before, files);
        }
        assert names[i..] == [names[i]] + names[i + 1..];
        if life > 0 { LeavesDirectory(before, names[i], from, to); }
      }
    }

    static lemma LeavesDirectory(files: Files, name: FileName, from: Directory, to: Directory)
      requires from != to
      ensures forall n | In(Move(files, name, from, to), from, n) :: In(files, from, n) && n != name
    {
    }

    static lemma SameThen(a: Files, b: Files, c: Files)
      requires SameBatches(a, b) && SameBatches(b, c) && SameSize(a, b) && SameSize(b, c)
      ensures SameBatches(a, c) && SameSize(a, c)
    {
      hide Has, TotalBytes;
    }

    // ---------- Preparing the queue ----------

    /** Reads the state file; one that does not decode is set aside and the queue is held. */
    method ReadState() returns (state: SpoolState)
      modifies this`stateFile, this`life
      ensures life <= old(life) <= life + 2
      ensures state == ReadableState(old(stateFile)) && SafePositive(state.nextSequence)
      ensures state == if old(stateFile) == NoStateFile then SpoolState(1, None, false)
                       else if Unreadable(old(stateFile)) then SpoolState(1, Some(StateCorrupt), false)
                       else old(stateFile).state
      ensures life > 0 ==> ReadableState(stateFile) == state
      ensures ReadableState(stateFile).nextSequence <= state.nextSequence
      ensures Closed(old(stateFile)) ==> state.circuit.Some? && (life > 0 ==> OnHold(stateFile))
      ensures Closed(old(stateFile)) && !Closed(stateFile) <==> Unreadable(old(stateFile)) && old(life) == 1
      ensures StaysClosed(old(stateFile), old(life), stateFile, life) && (life > 0 ==> !Unreadable(stateFile))
    {
      if stateFile.NoStateFile? { return SpoolState(1, None, false); }
      if stateFile.SavedState? && SafePositive(stateFile.state.nextSequence) { return stateFile.state; }
      var alive := Tick();
      if alive { stateFile := NoStateFile; }
      state := SpoolState(1, Some(StateCorrupt), false);
      WriteState(state);
    }

    /** Raises the counter above every number in use, in any of the three directories. */
    method ReconcileNextSequence(state: SpoolState) returns (repaired: SpoolState, changed: bool)
      requires 1 <= state.nextSequence <= MAX_SAFE_INTEGER
      ensures repaired == state.(nextSequence := repaired.nextSequence)
      ensures AboveAll(files, repaired.nextSequence)
      ensures 1 <= repaired.nextSequence <= MAX_SAFE_INTEGER + 1
      ensures forall bound: nat | AboveAll(files, bound) && state.nextSequence <= bound :: repaired.nextSequence <= bound
      ensures changed <==> repaired != state
    {
      var maximum := 0;
      var directories := [PendingDir, HeldDir, QuarantineDir];
      for d := 0 to 3
        invariant maximum <= MAX_SAFE_INTEGER
        invariant forall l | l in files && l.dir in directories[..d] :: NumberUpTo(l.name, maximum)
        invariant forall bound: nat | AboveAll(files, bound) && 1 <= bound :: maximum < bound
      {
        var found := HighestIn(directories[d]);
        if found > maximum { maximum := found; }
        assert directories[..d + 1] == directories[..d] + [directories[d]];
      }
      assert directories[..3] == directories;
      forall d: Directory ensures d in directories {
        match d
        case PendingDir => assert directories[0] == d;
        case HeldDir => assert directories[1] == d;
        case QuarantineDir => assert directories[2] == d;
      }
      assert forall l | l in files :: l.dir in directories;
      if state.nextSequence <= maximum {
        return state.(nextSequence := maximum + 1), true;
      }
      return state, false;
    }

    static predicate NumberUpTo(name: FileName, maximum: int) {
      name.Numbered? && name.n <= MAX_SAFE_INTEGER ==> name.n <= maximum
    }

    method HighestIn(d: Directory) returns (maximum: nat)
      ensures maximum <= MAX_SAFE_INTEGER
      ensures forall l | l in files && l.dir == d :: NumberUpTo(l.name, maximum)
      ensures forall bound: nat | AboveAll(files, bound) && 1 <= bound :: maximum < bound
    {
      maximum := 0;
      var names := EntryNames(d);
      for i := 0 to |names|
        invariant maximum <= MAX_SAFE_INTEGER
        invariant forall j | 0 <= j < i :: NumberUpTo(names[j], maximum)
        invariant forall bound: nat | AboveAll(files, bound) && 1 <= bound :: maximum < bound
      {
        var sequence := if names[i].Numbered? then names[i].n else 0;
        if sequence <= MAX_SAFE_INTEGER && sequence > maximum {
          assert In(files, d, names[i]);
          assert Location(d, names[i]) in files;
          maximum := sequence;
        }
      }
      forall l | l in files && l.dir == d ensures NumberUpTo(l.name, maximum) {
        assert In(files, d, l.name);
      }
    }

    /** Legacy file names in order. */
    static method SortedNames(keys: set<nat>) returns (names: seq<nat>)
      ensures forall n :: n in names <==> n in keys
      ensures |names| == |keys| && Ascending(names)
    {
      names := [];
      var rest := keys;
      while rest != {}
        invariant rest <= keys && |names| + |rest| == |keys|
        invariant forall n :: n in names <==> n in keys && n !in rest
        invariant Ascending(names)
        decreases rest
      {
        var n :| n in rest;
        rest := rest - {n};
        var at := 0;
        while at < |names| && names[at] < n
          invariant 0 <= at <= |names|
          invariant forall i | 0 <= i < at :: names[i] < n
        {
          at := at + 1;
        }
        InsertedNumber(names, at, n);
        names := names[..at] + [n] + names[at..];
      }
    }

    static predicate Ascending(names: seq<nat>) {
      forall i, j | 0 <= i < j < |names| :: names[i] < names[j]
    }

    static lemma InsertedNumber(names: seq<nat>, at: nat, n: nat)
      requires Ascending(names) && at <= |names| && n !in names
      requires forall i | 0 <= i < at :: names[i] < n
      requires at < |names| ==> names[at] >= n
      ensures Ascending(names[..at] + [n] + names[at..])
      ensures forall m :: m in names[..at] + [n] + names[at..] <==> m in names || m == n
    {
      var longer := names[..at] + [n] + names[at..];
      InsertedElements(names, at, n);
      forall i, j | 0 <= i < j < |longer| ensures longer[i] < longer[j] {
        assert longer[i] == if i < at then names[i] else if i == at then n else names[i - 1];
        assert longer[j] == if j < at then names[j] else if j == at then n else names[j - 1];
      }
    }

    static lemma InsertedElements(names: seq<nat>, at: nat, n: nat)
      requires at <= |names|
      ensures forall m :: m in names[..at] + [n] + names[at..] <==> m in names || m == n
    {
      assert names == names[..at] + names[at..];
    }

    /**
     Turns one legacy batch into a held entry: written first, removed only then. A process that dies
     exactly between the two leaves the batch in both places.
     */
    method MigrateBatch(state: SpoolState, l: nat, payload: Payload) returns (next: SpoolState)
      requires l in legacy && legacy[l] == LegacyBatch(payload)
      requires AboveAll(files, state.nextSequence) && 1 <= state.nextSequence
      modifies this`files, this`legacy, this`life
      ensures life <= old(life) <= life + 2 && |files| <= |old(files)| + 1
      ensures next == state.(nextSequence := Increment(state.nextSequence))
      ensures AboveAll(files, next.nextSequence)
      ensures legacy == old(legacy) || legacy == old(legacy) - {l}
      ensures old(Valid()) && state.nextSequence <= MAX_SAFE_INTEGER ==>
                && Kept(old(files), files)
                && (l in legacy || Has(files, Numbered(state.nextSequence), Batch(payload)))
      ensures old(Valid()) && state.nextSequence <= MAX_SAFE_INTEGER ==>
                (l in legacy && In(files, HeldDir, Numbered(state.nextSequence)) <==> old(life) == 1)
      ensures life > 0 ==> legacy == old(legacy) - {l}
      ensures old(Valid()) && state.nextSequence <= MAX_SAFE_INTEGER && life > 0 ==> Balanced(old(files), old(legacy), files, legacy)
      ensures forall total | Covers(old(files), old(legacy), old(life), state.nextSequence, total) ::
                Covers(files, legacy, life, next.nextSequence, total)
      ensures StillFree(old(Snapshot()), Snapshot())
    {
      hide Kept, Has, UniqueNames, AboveAll, JunkNamesFree, Balanced;
      var name := Numbered(state.nextSequence);
      next := state.(nextSequence := Increment(state.nextSequence));
      var e := EntryOf(payload, 0, PauseMark);
      ghost var files0, legacy0 := files, legacy;
      if Valid() && state.nextSequence <= MAX_SAFE_INTEGER {
        AllocationIsFresh(files, state.nextSequence);
        assert !In(files, HeldDir, name);
        WriteKeeps(files, HeldDir, name, e);
        KeptItself(files);
        TakenOverIsBalanced(files, legacy, Location(HeldDir, name), e, l);
      }
      AboveAfterWrite(files, HeldDir, state.nextSequence, e);
      WriteOneMore(files, Location(HeldDir, name), e);
      WriteEntry(HeldDir, name, e);
      var alive := Tick();
      if alive { legacy := legacy - {l}; }
      NumbersLeaveJunkFree(files0, legacy0, files, legacy, HeldDir, name, e);
      forall total | Covers(files0, legacy0, old(life), state.nextSequence, total)
        ensures Covers(files, legacy, life, next.nextSequence, total)
      {
        MigratedIsCovered(files0, legacy0, old(life), state.nextSequence, e, l, files, legacy, life, total);
      }
    }

    static lemma NumbersLeaveJunkFree(before: Files, legacy: Legacy, after: Files, legacy': Legacy, d: Directory, name: FileName, e: EntryFile)
      requires name.Numbered? && (after == before || after == before[Location(d, name) := e])
      requires legacy'.Keys <= legacy.Keys && forall l | l in legacy' :: legacy'[l] == legacy[l]
      ensures forall t: nat | JunkNamesFree(before, legacy, t) :: JunkNamesFree(after, legacy', t)
    {
      forall t: nat | JunkNamesFree(before, legacy, t) ensures JunkNamesFree(after, legacy', t) {
        forall l | l in legacy' && legacy'[l].LegacyJunk? ensures !Present(after, Dated(t, l)) {
          assert !Present(before, Dated(t, l));
        }
      }
    }

    static lemma KeptItself(files: Files)
      requires UniqueNames(files)
      ensures Kept(files, files)
    {
    }

    static lemma AboveAfterWrite(files: Files, d: Directory, next: nat, e: EntryFile)
      requires AboveAll(files, next) && 1 <= next
      ensures AboveAll(files, Increment(next))
      ensures AboveAll(files[Location(d, Numbered(next)) := e], Increment(next))
    {
    }

    /**
     Sets bytes that are no batch aside under a dated name. Everything else is kept exactly when
     that name is unused, or quarantine already holds the same bytes under it.
     */
    method QuarantineJunk(l: nat, bytes: string, now: nat)
      requires l in legacy && legacy[l] == LegacyJunk(bytes)
      modifies this`files, this`legacy, this`life
      ensures life <= old(life) <= life + 1 && |files| <= |old(files)| + 1
      ensures forall next | AboveAll(old(files), next) :: AboveAll(files, next)
      ensures legacy == old(legacy) || legacy == old(legacy) - {l}
      ensures old(Valid()) && old(life) > 0 ==>
                (Kept(old(files), files) <==>
                  (Present(old(files), Dated(now, l)) ==> HoldsAt(old(files), QuarantineDir, Dated(now, l), RawBytes(bytes))))
      ensures old(Valid()) && !Present(old(files), Dated(now, l)) ==> Kept(old(files), files)
      ensures l in legacy || HoldsAt(files, QuarantineDir, Dated(now, l), RawBytes(bytes))
      ensures life > 0 ==> legacy == old(legacy) - {l}
      ensures !Present(old(files), Dated(now, l)) && life > 0 ==> Balanced(old(files), old(legacy), files, legacy)
      ensures forall next, total | Covers(old(files), old(legacy), old(life), next, total) :: Covers(files, legacy, life, next, total)
      ensures StillFree(old(Snapshot()), Snapshot())
    {
      hide Kept, Has, UniqueNames, Balanced;
      var alive := Tick();
      WriteOneMore(files, Location(QuarantineDir, Dated(now, l)), Undecodable(bytes));
      if !Present(files, Dated(now, l)) {
        TakenOverIsBalanced(files, legacy, Location(QuarantineDir, Dated(now, l)), Undecodable(bytes), l);
      }
      if Valid() {
        KeptItself(files);
        SettingAsideKeeps(files, Dated(now, l), bytes);
      }
      if alive {
        files := files[Location(QuarantineDir, Dated(now, l)) := Undecodable(bytes)];
        legacy := legacy - {l};
      }
    }

    /** What migrating the legacy files keeps, with `bound` as the room the caller has. */
    ghost predicate Migrating(before: Files, legacyBefore: Legacy, state: SpoolState, names: seq<nat>, i: nat,
                              now: nat, bound: nat)
      requires i <= |names|
      reads this`files, this`legacy, this`life
    {
      && Kept(before, files)
      && (life > 0 ==> Balanced(before, legacyBefore, files, legacy))
      && LegacySafe(legacyBefore, legacy, files)
      && state.nextSequence <= bound + i && bound + |names| <= MAX_SAFE_INTEGER
      && JunkNamesFree(files, legacy, now)
    }

    static lemma LegacyStaysSafe(before: Legacy, a: Legacy, files: Files, b: Legacy, files': Files, l: nat, name: FileName)
      requires LegacySafe(before, a, files) && Kept(files, files')
      requires b == a || b == a - {l}
      requires l in before && l in a && a[l] == before[l]
      requires l in b || Has(files', name, LegacyContent(before[l]))
      ensures LegacySafe(before, b, files')
    {
      hide Has, Once;
      forall k | k in before
        ensures (k in b && b[k] == before[k]) || exists n :: Has(files', n, LegacyContent(before[k]))
      {
        if !(k in a && a[k] == before[k]) {
          var n :| Has(files, n, LegacyContent(before[k]));
          assert Has(files', n, LegacyContent(before[k]));
        }
      }
    }

    static lemma LegacyUntouched(legacy: Legacy, files: Files)
      ensures LegacySafe(legacy, legacy, files)
    {
    }

    static lemma LegacyStillSafe(before: Legacy, after: Legacy, files: Files, files': Files)
      requires LegacySafe(before, after, files) && Kept(files, files')
      ensures LegacySafe(before, after, files')
    {
      hide Has, Once;
      forall k | k in before
        ensures (k in after && after[k] == before[k]) || exists n :: Has(files', n, LegacyContent(before[k]))
      {
        if !(k in after && after[k] == before[k]) {
          var n :| Has(files, n, LegacyContent(before[k]));
          assert Has(files', n, LegacyContent(before[k]));
        }
      }
    }

    method MigrateOne(state: SpoolState, names: seq<nat>, i: nat, now: nat, ghost bound: nat, ghost roomy: bool,
                      ghost before: Files, ghost legacyBefore: Legacy)
      returns (next: SpoolState)
      requires i < |names| && Ascending(names)
      requires names[i] in legacy && names[i] in legacyBefore && legacy[names[i]] == legacyBefore[names[i]]
      requires AboveAll(files, state.nextSequence) && 1 <= state.nextSequence
      requires roomy ==> Migrating(before, legacyBefore, state, names, i, now, bound)
      modifies this`files, this`legacy, this`life
      ensures life <= old(life) <= life + 2 && |files| <= |old(files)| + 1
      ensures next == state.(nextSequence := next.nextSequence)
      ensures AboveAll(files, next.nextSequence) && 1 <= next.nextSequence
      ensures legacy == old(legacy) || legacy == old(legacy) - {names[i]}
      ensures life > 0 ==> legacy == old(legacy) - {names[i]}
      ensures roomy ==> Migrating(before, legacyBefore, next, names, i + 1, now, bound)
      ensures forall total | Covers(old(files), old(legacy), old(life), state.nextSequence, total) ::
                Covers(files, legacy, life, next.nextSequence, total)
      ensures StillFree(old(Snapshot()), Snapshot())
    {
      hide Kept, Present, LegacySafe, AboveAll, UniqueNames, HoldsAt, Has, Covers, Balanced;
      var l := names[i];
      ghost var files0, legacy0 := files, legacy;
      ghost var name := if legacy[l].LegacyBatch? then Numbered(state.nextSequence) else Dated(now, l);
      if roomy {
        KeptMeansUnique(before, files);
      }
      match legacy[l] {
        case LegacyBatch(payload) =>
          next := MigrateBatch(state, l, payload);
        case LegacyJunk(bytes) =>
          next := state;
          QuarantineJunk(l, bytes, now);
          HeldMeansHas(files, QuarantineDir, name, RawBytes(bytes));
      }
      if roomy {
        LegacyStaysSafe(legacyBefore, legacy0, files0, legacy, files, l, name);
        KeptThen(before, files0, files);
        if life > 0 { BalancedThen(before, legacyBefore, files0, legacy0, files, legacy); }
      }
    }

    static lemma KeptMeansUnique(before: Files, files: Files)
      requires Kept(before, files)
      ensures UniqueNames(files)
    {
    }

    static lemma HeldMeansHas(files: Files, d: Directory, name: FileName, c: Content)
      ensures HoldsAt(files, d, name, c) ==> Has(files, name, c)
    {
      match d
      case PendingDir =>
      case HeldDir =>
      case QuarantineDir =>
    }

    /** Takes over every legacy file in name order. */
    method MigrateAll(state: SpoolState, now: nat, ghost bound: nat, ghost roomy: bool) returns (migrated: SpoolState, any: bool)
      requires AboveAll(files, state.nextSequence) && 1 <= state.nextSequence
      requires roomy ==> Valid() && state.nextSequence <= bound && bound + |legacy| <= MAX_SAFE_INTEGER && JunkNamesFree(files, legacy, now)
      modifies this`files, this`legacy, this`life
      ensures life <= old(life) <= life + 2 * |old(legacy)| && |files| <= |old(files)| + |old(legacy)|
      ensures AboveAll(files, migrated.nextSequence) && 1 <= migrated.nextSequence
      ensures migrated == state.(nextSequence := migrated.nextSequence)
      ensures any <==> old(legacy) != map[]
      ensures !any ==> migrated == state && files == old(files) && legacy == old(legacy)
      ensures roomy ==>
                && Kept(old(files), files) && LegacySafe(old(legacy), legacy, files)
                && migrated.nextSequence <= bound + |old(legacy)|
                && (life > 0 ==> Balanced(old(files), old(legacy), files, legacy))
      ensures |legacy| <= |old(legacy)| && (life > 0 ==> legacy == map[])
      ensures forall total | Covers(old(files), old(legacy), old(life), state.nextSequence, total) ::
                Covers(files, legacy, life, migrated.nextSequence, total)
      ensures StillFree(old(Snapshot()), Snapshot())
    {
      hide Kept, Present, LegacySafe, AboveAll, UniqueNames, JunkNamesFree, Covers, StillFree, Balanced;
      migrated, any := state, false;
      StillFreeItself(Snapshot());
      var names := SortedNames(legacy.Keys);
      if roomy {
        KeptItself(files);
        LegacyUntouched(legacy, files);
        BalancedItself(files, legacy);
      }
      for i := 0 to |names|
        invariant life <= old(life) <= life + 2 * i && |files| <= |old(files)| + i
        invariant AboveAll(files, migrated.nextSequence) && 1 <= migrated.nextSequence
        invariant migrated == state.(nextSequence := migrated.nextSequence)
        invariant forall j | i <= j < |names| :: names[j] in legacy && legacy[names[j]] == old(legacy)[names[j]]
        invariant |legacy| <= |old(legacy)| && (life > 0 ==> |legacy| == |names| - i)
        invariant i == 0 ==> files == old(files) && legacy == old(legacy) && migrated == state
        invariant any <==> i > 0
        invariant roomy ==> Migrating(old(files), old(legacy), migrated, names, i, now, bound)
        invariant forall total | Covers(old(files), old(legacy), old(life), state.nextSequence, total) ::
                    Covers(files, legacy, life, migrated.nextSequence, total)
        invariant StillFree(old(Snapshot()), Snapshot())
      {
        ghost var legacy0, before := legacy, Snapshot();
        migrated := MigrateOne(migrated, names, i, now, bound, roomy, old(files), old(legacy));
        NoMoreThan(legacy0, legacy, names[i]);
        StillFreeThen(old(Snapshot()), before, Snapshot());
        any := true;
      }
    }

    /** Upgrades the older layout's batches into held entries, and holds the queue for them. */
    method MigrateLegacyEntries(state: SpoolState, now: nat, ghost bound: nat) returns (migrated: SpoolState, any: bool)
      requires AboveAll(files, state.nextSequence) && 1 <= state.nextSequence
      modifies this`files, this`legacy, this`life
      ensures life <= old(life) <= life + 3 * |old(legacy)| + |old(files)|
      ensures |files| <= |old(files)| + |old(legacy)|
      ensures AboveAll(files, migrated.nextSequence) && 1 <= migrated.nextSequence
      ensures migrated == state.(nextSequence := migrated.nextSequence, circuit := migrated.circuit)
      ensures any <==> old(legacy) != map[]
      ensures any ==> migrated.circuit == Some(LegacyUpgrade)
      ensures !any ==> migrated == state && files == old(files) && legacy == old(legacy)
      ensures old(Valid()) && state.nextSequence <= bound && bound + |old(legacy)| <= MAX_SAFE_INTEGER
              && JunkNamesFree(old(files), old(legacy), now) ==>
                && Kept(old(files), files)
                && LegacySafe(old(legacy), legacy, files)
                && migrated.nextSequence <= bound + |old(legacy)|
                && (life > 0 ==> Balanced(old(files), old(legacy), files, legacy))
      ensures life > 0 ==> legacy == map[]
      ensures forall total | Covers(old(files), old(legacy), old(life), state.nextSequence, total) ::
                Covers(files, legacy, life, migrated.nextSequence, total)
      ensures |legacy| <= |old(legacy)| && StillFree(old(Snapshot()), Snapshot())
    {
      hide Kept, Present, LegacySafe, AboveAll, SameBatches, NoNewNames, UniqueNames, JunkNamesFree, Covers, StillFree, Balanced, SameSize;
      ghost var roomy := Valid() && state.nextSequence <= bound && bound + |legacy| <= MAX_SAFE_INTEGER
                         && JunkNamesFree(files, legacy, now);
      migrated, any := MigrateAll(state, now, bound, roomy);
      if any {
        ghost var queue0, life0 := Snapshot(), life;
        if roomy { KeptMeansUnique(old(files), queue0.files); }
        MoveAll(PendingDir, HeldDir);
        StillAboveAll(queue0.files, files, migrated.nextSequence);
        NoNewNamesSpendNothing(queue0, Snapshot());
        StillFreeThen(old(Snapshot()), queue0, Snapshot());
        if roomy {
          AfterMove(old(files), queue0.files, files, old(legacy), legacy);
          if life > 0 { SameSizeIsBalanced(old(files), old(legacy), queue0.files, legacy, files); }
        }
        forall total | Covers(queue0.files, legacy, life0, migrated.nextSequence, total)
          ensures Covers(files, legacy, life, migrated.nextSequence, total)
        {
          MovedIsCovered(queue0.files, files, legacy, life0, life, migrated.nextSequence, total);
        }
        migrated := migrated.(circuit := Some(LegacyUpgrade));
      }
    }

    static lemma StillFreeItself(q: Queue)
      ensures StillFree(q, q)
    {
    }

    static lemma NoMoreThan(legacy: Legacy, legacy': Legacy, l: nat)
      requires legacy' == legacy || legacy' == legacy - {l}
      ensures |legacy'| <= |legacy|
      ensures l in legacy && legacy' == legacy - {l} ==> |legacy'| == |legacy| - 1
    {
    }

    /** Reads state, repairs the counter and migrates the older layout. */
    method RepairQueue(now: nat) returns (state: SpoolState, changed: bool)
      modifies this
      ensures life <= old(life) <= life + 2 + 3 * |old(legacy)| + |old(files)|
      ensures |files| <= |old(files)| + |old(legacy)|
      ensures AboveAll(files, state.nextSequence) && 1 <= state.nextSequence
      ensures old(Valid()) && old(Roomy(now)) ==>
                && Kept(old(files), files) && LegacySafe(old(legacy), legacy, files)
                && state.nextSequence <= MAX_SAFE_INTEGER
                && (life > 0 ==> Gathered(old(Snapshot()), files))
      ensures life > 0 ==> legacy == map[]
      ensures state.queueFull == ReadableState(old(stateFile)).queueFull
      ensures state.circuit == CircuitAfter(old(stateFile), old(legacy))
      ensures old(legacy) == map[] ==> files == old(files)
      ensures life > 0 && !changed ==> ReadableState(stateFile) == state
      ensures |legacy| <= |old(legacy)| && StillFree(old(Snapshot()), Snapshot())
      ensures Covers(files, legacy, life, state.nextSequence, Bound(old(Snapshot())) + |old(legacy)|)
      ensures ReadableState(stateFile).nextSequence <= Bound(old(Snapshot()))
      ensures Closed(old(stateFile)) ==> state.circuit.Some? && (life > 0 ==> OnHold(stateFile))
      ensures StaysClosed(old(stateFile), old(life), stateFile, life)
    {
      hide Kept, Present, LegacySafe, AboveAll, UniqueNames, JunkNamesFree, Bound, Covers, Balanced, Gathered;
      ghost var roomy, bound := Valid() && Roomy(now), Bound(Snapshot());
      assert Roomy(now) ==> JunkNamesFree(files, legacy, now);
      state := ReadState();
      var migrated;
      state, changed := ReconcileNextSequence(state);
      FirstIsCovered(files, legacy, life, state.nextSequence, bound);
      state, migrated := MigrateLegacyEntries(state, now, bound);
      if roomy && life > 0 { BalancedIsGathered(old(Snapshot()), files); }
      changed := changed || migrated;
    }

    static ghost predicate NothingPending(files: Files) {
      forall n :: !In(files, PendingDir, n)
    }

    static lemma SetAsideIsNotPending(files: Files, name: FileName, d: Directory)
      requires NothingPending(files)
      ensures NothingPending(Move(files, name, d, QuarantineDir))
    {
      var after := Move(files, name, d, QuarantineDir);
      forall n ensures !In(after, PendingDir, n) {
        assert !In(files, PendingDir, n);
      }
    }

    static lemma WrittenElsewhere(files: Files, d: Directory, name: FileName, e: EntryFile)
      requires NothingPending(files) && d != PendingDir
      ensures NothingPending(files[Location(d, name) := e])
    {
      var after := files[Location(d, name) := e];
      forall n ensures !In(after, PendingDir, n) {
        assert !In(files, PendingDir, n);
      }
    }

    /** Under a circuit nothing stays pending. */
    method HoldUnderCircuit(state: SpoolState) returns (held: bool)
      modifies this`files, this`life
      ensures life <= old(life) <= life + |old(files)| && |files| <= |old(files)|
      ensures NoNewNames(old(files), files)
      ensures old(Valid()) ==> Valid() && SameBatches(old(files), files) && SameSize(old(files), files)
      ensures state.circuit.Some? && life > 0 ==> NothingPending(files)
      ensures !held || state.circuit.None? ==> files == old(files)
    {
      hide NoNewNames, SameBatches, SameSize, UniqueNames;
      NothingNew(files);
      SameAsItself(files);
      held := false;
      var names := EntryNames(PendingDir);
      if state.circuit.Some? && names != [] {
        MoveAll(PendingDir, HeldDir);
        held := true;
      }
    }

    /**
     Prepares the queue and holds pending batches under a circuit. `bound` bounds what it leaves,
     and takes nothing of the room unless the process died.
     */
    method PrepareQueue(now: nat) returns (state: SpoolState, ghost bound: nat)
      modifies this
      ensures life <= old(life) <= life + 3 + 4 * |old(legacy)| + 2 * |old(files)|
      ensures |files| <= |old(files)| + |old(legacy)|
      ensures AboveAll(files, state.nextSequence) && 1 <= state.nextSequence
      ensures old(Valid()) && old(Roomy(now)) ==>
                && Kept(old(files), files) && LegacySafe(old(legacy), legacy, files)
                && state.nextSequence <= MAX_SAFE_INTEGER
                && (life > 0 ==> Gathered(old(Snapshot()), files))
      ensures life > 0 ==> legacy == map[]
      ensures state.circuit.Some? && life > 0 ==> NothingPending(files)
      ensures state.queueFull == ReadableState(old(stateFile)).queueFull
      ensures state.circuit == CircuitAfter(old(stateFile), old(legacy))
      ensures old(legacy) == map[] && state.circuit.None? ==> files == old(files)
      ensures life > 0 && state.nextSequence <= MAX_SAFE_INTEGER ==> ReadableState(stateFile) == state
      ensures Closed(old(stateFile)) ==> state.circuit.Some? && (life > 0 ==> OnHold(stateFile))
      ensures StaysClosed(old(stateFile), old(life), stateFile, life)
      ensures StillFree(old(Snapshot()), Snapshot())
      ensures Fits(state, bound) && bound + |legacy| == Bound(old(Snapshot())) + |old(legacy)| + if life > 0 then 0 else 1
    {
      hide NothingPending, Kept, Present, LegacySafe, AboveAll, SameBatches, NoNewNames, UniqueNames, JunkNamesFree, Bound, Covers, Gathered, SameSize, StillFree, ReadableState, CircuitAfter;
      ghost var roomy, total := Valid() && Roomy(now), Bound(Snapshot()) + |legacy|;
      var changed;
      state, changed := RepairQueue(now);
      ghost var queue0, life0 := Snapshot(), life;
      if roomy { KeptMeansUnique(old(files), files); }
      var held := HoldUnderCircuit(state);
      StillAboveAll(queue0.files, files, state.nextSequence);
      NoNewNamesSpendNothing(queue0, Snapshot());
      StillFreeThen(old(Snapshot()), queue0, Snapshot());
      MovedIsCovered(queue0.files, files, legacy, life0, life, state.nextSequence, total);
      if roomy {
        AfterMove(old(files), queue0.files, files, old(legacy), legacy);
        if life > 0 { SameSizeIsGathered(old(Snapshot()), queue0.files, files); }
      }
      changed := changed || held;
      CoveredIsBounded(files, legacy, life, state.nextSequence, total);
      ghost var queue1 := Snapshot();
      WrittenStateReads(state);
      if changed { WriteState(state); }
      StillFreeWith(old(Snapshot()), queue1, stateFile);
      bound := total - |legacy| + if life > 0 then 0 else 1;
    }

    static lemma WrittenStateReads(state: SpoolState)
      requires 1 <= state.nextSequence
      ensures ReadableState(SavedState(state)).nextSequence <= state.nextSequence
      ensures state.nextSequence <= MAX_SAFE_INTEGER ==> ReadableState(SavedState(state)) == state
    {
    }

    static lemma StillFreeWith(q: Queue, q': Queue, stateFile: StateFile)
      requires StillFree(q, q')
      ensures StillFree(q, q'.(stateFile := stateFile))
    {
    }

    method TotalEntryBytes() returns (total: nat)
      ensures total == TotalBytes(files)
    {
      total := 0;
      var rest := files;
      while rest != map[]
        invariant total + TotalBytes(rest) == TotalBytes(files)
        decreases |rest|
      {
        var l :| l in rest;
        TotalWithout(rest, l);
        total := total + SizeOf(rest[l]);
        rest := rest - {l};
      }
    }

    method WouldExceedLimits(payload: Payload, limits: Limits) returns (exceeds: bool)
      ensures exceeds <==> Exceeds(files, payload, limits)
    {
      var total := TotalEntryBytes();
      return |files| + 1 > limits.hardBatches || total + |payload.text| > limits.hardBytes;
    }

    /** Holds everything; nothing is evicted for a batch that does not fit. */
    method HoldQueueFull(state: SpoolState, ghost bound: nat)
      modifies this`files, this`stateFile, this`life
      ensures life <= old(life) <= life + |old(files)| + 1
      ensures old(Valid()) ==> Valid() && SameBatches(old(files), files) && SameSize(old(files), files)
      ensures life > 0 ==> stateFile == SavedState(state.(queueFull := true, circuit := Some(QueueFullCircuit)))
                           && NothingPending(files)
      ensures stateFile == old(stateFile) || OnHold(stateFile)
      ensures StillFree(old(Snapshot()), Snapshot())
      ensures old(Fits(state, bound)) ==> Bounded(Snapshot(), bound)
    {
      hide AboveAll, NoNewNames, JunkNamesFree, SameBatches, UniqueNames, SameSize;
      MoveAll(PendingDir, HeldDir);
      ghost var queue1 := Snapshot();
      NoNewNamesSpendNothing(old(Snapshot()), queue1);
      WriteState(state.(queueFull := true, circuit := Some(QueueFullCircuit)));
      RewrittenStateFits(old(Snapshot()), queue1.files, stateFile);
    }

    /** Files that got no new names, and a state file whose counter fits, stay below every bound. */
    static lemma RewrittenStateFits(q: Queue, files: Files, stateFile: StateFile)
      requires NoNewNames(q.files, files)
      ensures forall bound: nat | Bounded(q, bound) && ReadableState(stateFile).nextSequence <= bound ::
                Bounded(Queue(files, q.legacy, stateFile), bound)
    {
      hide AboveAll, NoNewNames;
      forall bound: nat | Bounded(q, bound) && ReadableState(stateFile).nextSequence <= bound
        ensures Bounded(Queue(files, q.legacy, stateFile), bound)
      {
        StillAboveAll(q.files, files, bound);
      }
    }

    /** Writes a new entry under the next number, held back while a circuit is open. */
    method AppendForState(state: SpoolState, payload: Payload, attempts: nat, quarantined: bool, ghost bound: nat)
      returns (r: SaveResult, ghost name: FileName)
      requires AboveAll(files, state.nextSequence) && 1 <= state.nextSequence
      modifies this`files, this`stateFile, this`life
      ensures life <= old(life) <= life + 2 && name == Numbered(state.nextSequence)
      ensures r == if state.circuit.Some? then HeldBack else Saved
      ensures life > 0 ==>
                && files == old(files)[Location(Destination(r, quarantined), name) := EntryOf(payload, attempts, MarkOf(r, quarantined))]
                && stateFile == SavedState(state.(nextSequence := Increment(state.nextSequence)))
      ensures stateFile == old(stateFile) || (OnHold(stateFile) <==> state.circuit.Some?)
      ensures state.circuit.Some? && old(NothingPending(files)) ==> NothingPending(files)
      ensures old(Valid()) && state.nextSequence <= MAX_SAFE_INTEGER ==>
                && !Present(old(files), name) && Kept(old(files), files)
                && (life > 0 ==>
                      && HoldsAt(files, Destination(r, quarantined), name, Batch(payload))
                      && |files| == |old(files)| + 1
                      && TotalBytes(files) == TotalBytes(old(files)) + |payload.text|)
      ensures StillFree(old(Snapshot()), Snapshot())
      ensures old(Fits(state, bound)) ==> Bounded(Snapshot(), bound + if old(life) > 0 then 1 else 0)
    {
      hide NothingPending, TotalBytes, AboveAll, UniqueNames, Present, JunkNamesFree, Kept;
      r := if state.circuit.Some? then HeldBack else Saved;
      var d := Destination(r, quarantined);
      var e := EntryOf(payload, attempts, MarkOf(r, quarantined));
      name := Numbered(state.nextSequence);
      ghost var files0 := files;
      if Valid() && state.nextSequence <= MAX_SAFE_INTEGER {
        AllocationIsFresh(files, state.nextSequence);
        NotThere(files, d, name);
        WriteKeeps(files, d, name, e);
        TotalWith(files, Location(d, name), e);
        KeptItself(files);
      }
      if NothingPending(files) && d != PendingDir { WrittenElsewhere(files, d, name, e); }
      WriteEntry(d, Numbered(state.nextSequence), e);
      WriteState(state.(nextSequence := Increment(state.nextSequence)));
      NumbersLeaveJunkFree(files0, legacy, files, legacy, d, name, e);
      if old(Fits(state, bound)) {
        AppendedFits(files0, old(stateFile), files, stateFile, old(life), d, state, e, bound);
      }
    }

    static lemma AppendedFits(before: Files, stateBefore: StateFile, after: Files, stateAfter: StateFile, life: nat, d: Directory,
                              state: SpoolState, e: EntryFile, bound: nat)
      requires AboveAll(before, bound) && ReadableState(stateBefore).nextSequence <= bound && (life > 0 ==> state.nextSequence <= bound)
      requires 1 <= state.nextSequence
      requires after == if life > 0 then before[Location(d, Numbered(state.nextSequence)) := e] else before
      requires stateAfter == if life > 1 then SavedState(state.(nextSequence := Increment(state.nextSequence))) else stateBefore
      ensures AboveAll(after, bound + if life > 0 then 1 else 0)
      ensures ReadableState(stateAfter).nextSequence <= bound + if life > 0 then 1 else 0
    {
    }

    static function Destination(r: SaveResult, quarantined: bool): Directory {
      if quarantined then QuarantineDir else if r == HeldBack then HeldDir else PendingDir
    }

    static function MarkOf(r: SaveResult, quarantined: bool): Mark {
      if quarantined then RejectMark else if r == HeldBack then PauseMark else NoMark
    }

    static lemma NotThere(files: Files, d: Directory, name: FileName)
      requires !Present(files, name)
      ensures Location(d, name) !in files
    {
    }

    /** A name unused after batches were kept was unused before. */
    static lemma StillFresh(before: Files, after: Files, name: FileName)
      requires Kept(before, after)
      ensures Present(before, name) ==> Present(after, name)
    {
      if Present(before, name) {
        var d := if In(before, PendingDir, name) then PendingDir else if In(before, HeldDir, name) then HeldDir else QuarantineDir;
        assert Has(before, name, ContentOf(before[Location(d, name)]));
        assert Has(after, name, ContentOf(before[Location(d, name)]));
      }
    }

    /** What one locked section takes of the room, from a bound it ends under. */
    static lemma SectionSpends(before: Queue, after: Queue, bound: nat)
      requires Bounded(after, bound) && bound + |after.legacy| <= Bound(before) + |before.legacy| + 1
      requires StillFree(before, after)
      ensures Spends(before, after, 1)
    {
      hide Bounded, StillFree;
    }

    static lemma SpendsNothing(q: Queue)
      ensures Spends(q, q, 1)
    {
      hide Bound, JunkNamesFree;
    }

    static lemma StillFreeThen(a: Queue, b: Queue, c: Queue)
      requires StillFree(a, b) && StillFree(b, c)
      ensures StillFree(a, c)
    {
      hide JunkNamesFree;
    }

    /**
     Prepares the queue for one more batch. A full queue is held and evicts nothing; otherwise the
     queue is left prepared, with `bound` bounding it and the next number.
     */
    method Admit(payload: Payload, limits: Limits, now: nat) returns (state: SpoolState, full: bool, ghost bound: nat, ghost prepared: Queue)
      modifies this
      ensures life <= old(life) <= life + Steps(old(Snapshot())) - 1
      ensures !full ==> old(life) <= life + Steps(old(Snapshot())) - 2
      ensures full <==> ReadableState(old(stateFile)).queueFull || Exceeds(prepared.files, payload, limits)
      ensures state.circuit == CircuitAfter(old(stateFile), old(legacy)) && 1 <= state.nextSequence
      ensures old(legacy) == map[] && ReadableState(old(stateFile)).circuit.None? ==> prepared.files == old(files)
      ensures Closed(old(stateFile)) ==> state.circuit.Some? && (life > 0 ==> OnHold(stateFile) && NothingPending(files))
      ensures StaysClosed(old(stateFile), old(life), stateFile, life)
      ensures legacy == prepared.legacy && StillFree(old(Snapshot()), prepared)
      ensures bound + |legacy| <= Bound(old(Snapshot())) + |old(legacy)| + if life > 0 then 0 else 1
      ensures !full ==> Snapshot() == prepared && Fits(state, bound) && AboveAll(files, state.nextSequence)
      ensures full ==> Spends(old(Snapshot()), Snapshot(), 1)
      ensures full && life > 0 ==>
                NothingPending(files) && stateFile.SavedState? && stateFile.state.queueFull && stateFile.state.circuit.Some?
      ensures old(Valid()) && old(Roomy(now)) ==>
                && Kept(old(files), prepared.files) && LegacySafe(old(legacy), legacy, prepared.files)
                && Kept(old(files), files) && LegacySafe(old(legacy), legacy, files)
                && state.nextSequence <= MAX_SAFE_INTEGER
                && SameBatches(prepared.files, files) && SameSize(prepared.files, files)
                && (life > 0 ==> Gathered(old(Snapshot()), prepared.files) && (full <==> FullFor(old(Snapshot()), payload, limits)))
    {
      hide NothingPending, Kept, Present, LegacySafe, AboveAll, SameBatches, NoNewNames, UniqueNames, TotalBytes, LegacyBytes, Bound, StillFree, Spends, ReadableState, Gathered, FullFor, SameSize;
      ghost var roomy := Valid() && Roomy(now);
      state, bound := PrepareQueue(now);
      prepared := Snapshot();
      if roomy {
        KeptMeansUnique(old(files), files);
        SameAsItself(files);
        if life > 0 { GatheredExceeds(old(Snapshot()), files, payload, limits); }
      }
      var exceeds := WouldExceedLimits(payload, limits);
      full := state.queueFull || exceeds;
      if full {
        ghost var alive := life > 0;
        HoldQueueFull(state, bound);
        StillFreeThen(old(Snapshot()), prepared, Snapshot());
        SectionSpends(old(Snapshot()), Snapshot(), bound);
        if roomy { AfterMove(old(files), prepared.files, files, old(legacy), legacy); }
      }
    }

    static lemma NotExceeded(files: Files, payload: Payload, limits: Limits)
      requires !Exceeds(files, payload, limits)
      ensures |files| + 1 <= limits.hardBatches && TotalBytes(files) + |payload.text| <= limits.hardBytes
    {
    }

    static lemma SameAsItself(files: Files)
      ensures SameBatches(files, files) && SameSize(files, files)
    {
    }

    /** A batch stored in a prepared queue was stored beside everything the queue had before. */
    static lemma StoredBeside(before: Queue, prepared: Queue, after: Queue, name: FileName)
      requires Kept(before.files, prepared.files) && LegacySafe(before.legacy, prepared.legacy, prepared.files)
      requires Kept(prepared.files, after.files) && !Present(prepared.files, name) && after.legacy == prepared.legacy
      ensures Kept(before.files, after.files) && LegacySafe(before.legacy, after.legacy, after.files) && !Present(before.files, name)
    {
      hide Kept, LegacySafe, Present;
      StillFresh(before.files, prepared.files, name);
      KeptThen(before.files, prepared.files, after.files);
      LegacyStillSafe(before.legacy, after.legacy, prepared.files, after.files);
    }

    /**
     Queues a batch, pending or held, or quarantined after a rejected direct post. A stored batch
     has a name no file had, the bounds hold, and no other batch was touched.
     */
    method Save(payload: Payload, limits: Limits, now: nat, attempts: nat, quarantined: bool)
      returns (r: SaveResult, ghost name: FileName, ghost prepared: Files)
      modifies this
      ensures life <= old(life) <= life + Steps(old(Snapshot()))
      ensures r != Failed ==>
                && (r == Full <==> ReadableState(old(stateFile)).queueFull || Exceeds(prepared, payload, limits))
                && (r == HeldBack ==> CircuitAfter(old(stateFile), old(legacy)).Some?)
                && (r == Saved ==> CircuitAfter(old(stateFile), old(legacy)).None?)
      ensures old(legacy) == map[] && ReadableState(old(stateFile)).circuit.None? ==> prepared == old(files)
      ensures old(Valid()) && old(Roomy(now)) ==> Kept(old(files), prepared) && LegacySafe(old(legacy), legacy, prepared)
      ensures old(Valid()) && old(Roomy(now)) && r != Failed && life > 0 ==>
                Gathered(old(Snapshot()), prepared) && (r == Full <==> FullFor(old(Snapshot()), payload, limits))
      ensures old(Valid()) && old(Roomy(now)) && r == Full ==> SameBatches(prepared, files) && SameSize(prepared, files)
      ensures r == Full && life > 0 ==>
                NothingPending(files) && stateFile.SavedState? && stateFile.state.queueFull && stateFile.state.circuit.Some?
      ensures old(Valid()) && old(Roomy(now)) ==> Kept(old(files), files) && LegacySafe(old(legacy), legacy, files)
      ensures old(Valid()) && old(Roomy(now)) && (r == Saved || r == HeldBack) ==>
                && !Present(old(files), name)
                && (life > 0 ==>
                      && HoldsAt(files, Destination(r, quarantined), name, Batch(payload))
                      && |files| == |prepared| + 1 <= limits.hardBatches
                      && TotalBytes(files) == TotalBytes(prepared) + |payload.text| <= limits.hardBytes)
      ensures r == Failed <==> limits.hardBatches < 1 || limits.hardBytes < 1
      ensures r != Clear
      ensures Closed(old(stateFile)) && ValidLimits(limits) ==>
                (r == HeldBack || r == Full) && (life > 0 ==> OnHold(stateFile) && NothingPending(files))
      ensures StaysClosed(old(stateFile), old(life), stateFile, life)
      ensures Spends(old(Snapshot()), Snapshot(), 1)
    {
      hide NothingPending, Steps, Exceeds, Kept, Present, LegacySafe, AboveAll, SameBatches, NoNewNames, UniqueNames, TotalBytes, LegacyBytes, Has, Bound, Bounded, StillFree, Spends, ReadableState, Gathered, FullFor, SameSize;
      name, prepared := Numbered(0), files;
      if limits.hardBatches < 1 || limits.hardBytes < 1 {
        if Valid() {
          KeptItself(files);
          LegacyUntouched(legacy, files);
        }
        SpendsNothing(Snapshot());
        return Failed, name, prepared;
      }
      ghost var roomy := Valid() && Roomy(now);
      var state, full;
      ghost var bound, queue0;
      state, full, bound, queue0 := Admit(payload, limits, now);
      prepared := queue0.files;
      if full { return Full, name, prepared; }
      NotExceeded(prepared, payload, limits);
      if roomy { KeptMeansUnique(old(files), files); }
      bound := bound + if life > 0 then 1 else 0;
      r, name := AppendForState(state, payload, attempts, quarantined, if life > 0 then bound - 1 else bound);
      StillFreeThen(old(Snapshot()), queue0, Snapshot());
      SectionSpends(old(Snapshot()), Snapshot(), bound);
      if roomy { StoredBeside(old(Snapshot()), queue0, Snapshot(), name); }
    }

    /** Opens a sticky circuit and holds every pending batch. */
    method PauseSpool(code: string, now: nat)
      modifies this
      ensures life <= old(life) <= life + Steps(old(Snapshot()))
      ensures old(Valid()) && old(Roomy(now)) ==> Kept(old(files), files) && LegacySafe(old(legacy), legacy, files)
      ensures life > 0 && !Blank(code) ==>
                NothingPending(files) && stateFile.SavedState? && stateFile.state.circuit == Some(Paused(code))
      ensures Blank(code) ==> Snapshot() == old(Snapshot())
      ensures old(Valid()) && old(Roomy(now)) && !Blank(code) && life > 0 ==>
                && Gathered(old(Snapshot()), files) && legacy == map[]
                && ReadableState(stateFile).queueFull == ReadableState(old(stateFile)).queueFull
      ensures StaysClosed(old(stateFile), old(life), stateFile, life)
      ensures Spends(old(Snapshot()), Snapshot(), 1)
    {
      hide Kept, Present, LegacySafe, AboveAll, SameBatches, NoNewNames, UniqueNames, Has, Blank, Bound, StillFree, Spends, Gathered, SameSize, ReadableState;
      if Blank(code) {
        if Valid() { KeptItself(files); LegacyUntouched(legacy, files); }
        SpendsNothing(Snapshot());
        return;
      }
      ghost var roomy := Valid() && Roomy(now);
      var state;
      ghost var bound;
      state, bound := PrepareQueue(now);
      ghost var queue0 := Snapshot();
      if roomy { KeptMeansUnique(old(files), queue0.files); }
      MoveAll(PendingDir, HeldDir);
      ghost var queue1 := Snapshot();
      ghost var paused := state.(circuit := Some(Paused(code)));
      WrittenStateReads(paused);
      WriteState(state.(circuit := Some(Paused(code))));
      MovedSectionSpends(old(Snapshot()), queue0, queue1, stateFile, bound);
      if roomy {
        AfterMove(old(files), queue0.files, files, old(legacy), legacy);
        if life > 0 { SameSizeIsGathered(old(Snapshot()), queue0.files, files); }
      }
    }

    /** A prepared queue whose files only moved, with its counter saved or not. */
    static lemma MovedSectionSpends(before: Queue, prepared: Queue, moved: Queue, stateFile: StateFile, bound: nat)
      requires Bounded(prepared, bound) && bound + |prepared.legacy| <= Bound(before) + |before.legacy| + 1
      requires StillFree(before, prepared) && NoNewNames(prepared.files, moved.files) && moved.legacy == prepared.legacy
      requires moved.stateFile == prepared.stateFile && ReadableState(stateFile).nextSequence <= bound
      ensures Spends(before, moved.(stateFile := stateFile), 1)
    {
      hide AboveAll, NoNewNames, Bound, JunkNamesFree, ReadableState;
      NoNewNamesSpendNothing(prepared, moved);
      RewrittenStateFits(prepared, moved.files, stateFile);
      SectionSpends(before, moved.(stateFile := stateFile), bound);
    }

    static lemma AfterMove(before: Files, prepared: Files, after: Files, legacyBefore: Legacy, legacyAfter: Legacy)
      requires Kept(before, prepared) && UniqueNames(after) && SameBatches(prepared, after)
      requires LegacySafe(legacyBefore, legacyAfter, prepared)
      ensures Kept(before, after) && LegacySafe(legacyBefore, legacyAfter, after)
    {
      hide Kept, LegacySafe, SameBatches, UniqueNames;
      SameIsKept(prepared, after);
      KeptThen(before, prepared, after);
      LegacyStillSafe(legacyBefore, legacyAfter, prepared, after);
    }

    /** Clears the circuit and makes every held batch pending again; posts nothing. */
    method ResumeSpool(now: nat)
      modifies this
      ensures life <= old(life) <= life + Steps(old(Snapshot()))
      ensures old(Valid()) && old(Roomy(now)) ==> Kept(old(files), files) && LegacySafe(old(legacy), legacy, files)
      ensures life > 0 ==>
                (forall n :: !In(files, HeldDir, n)) && stateFile.SavedState? && stateFile.state.circuit.None? && !stateFile.state.queueFull
      ensures Spends(old(Snapshot()), Snapshot(), 1)
    {
      hide Kept, Present, LegacySafe, AboveAll, SameBatches, NoNewNames, UniqueNames, Has, Bound, StillFree, Spends;
      ghost var roomy := Valid() && Roomy(now);
      var state;
      ghost var bound;
      state, bound := PrepareQueue(now);
      ghost var queue0 := Snapshot();
      if roomy { KeptMeansUnique(old(files), queue0.files); }
      MoveAll(HeldDir, PendingDir);
      ghost var queue1 := Snapshot();
      WriteState(state.(circuit := None, queueFull := false));
      MovedSectionSpends(old(Snapshot()), queue0, queue1, stateFile, bound);
      if roomy { AfterMove(old(files), queue0.files, files, old(legacy), legacy); }
    }

    // ---------- Replaying ----------

    static ghost predicate HoldsAny(files: Files, d: Directory) {
      exists n :: In(files, d, n)
    }

    static lemma NamesAreAny(files: Files, d: Directory, names: seq<FileName>)
      requires forall n :: n in names <==> In(files, d, n)
      ensures names != [] <==> HoldsAny(files, d)
    {
      if names != [] {
        assert In(files, d, names[0]);
      }
    }

    /** No file of the directory comes before `name`. */
    static ghost predicate Oldest(files: Files, d: Directory, name: FileName) {
      In(files, d, name) && forall n :: In(files, d, n) && n != name ==> NameBefore(name, n)
    }

    static lemma FirstIsOldest(files: Files, d: Directory, names: seq<FileName>)
      requires names != [] && (forall n :: n in names <==> In(files, d, n))
      requires forall i, j | 0 <= i < j < |names| :: NameBefore(names[i], names[j])
      ensures Oldest(files, d, names[0])
    {
      forall n | In(files, d, n) && n != names[0] ensures NameBefore(names[0], n) {
        assert n in names;
      }
    }

    /** Where the next replay comes from: held entries first while a circuit is open. */
    static ghost function ReplayDirectory(files: Files, circuit: Option<Circuit>): Directory {
      if (circuit.Some? && HoldsAny(files, HeldDir)) || !HoldsAny(files, PendingDir) then HeldDir else PendingDir
    }

    /**
     The oldest held batch under a circuit, otherwise the oldest pending one. A file that does not
     decode is set aside instead; `prepared` is the queue the choice was made in.
     */
    method OldestReplayEntry(now: nat)
      returns (found: Option<(EntryFile, FileName)>, ghost broken: Option<FileName>, ghost prepared: Files)
      modifies this
      ensures life <= old(life) <= life + Steps(old(Snapshot()))
      ensures old(Valid()) && old(Roomy(now)) ==> Kept(old(files), files) && LegacySafe(old(legacy), legacy, files)
      ensures old(legacy) == map[] && ReadableState(old(stateFile)).circuit.None? ==> prepared == old(files)
      ensures old(Valid()) && old(Roomy(now)) ==>
                Kept(old(files), prepared) && LegacySafe(old(legacy), legacy, prepared) && (life > 0 ==> Gathered(old(Snapshot()), prepared))
      ensures found.None? && broken.None? <==> !HoldsAny(prepared, PendingDir) && !HoldsAny(prepared, HeldDir)
      ensures broken.None? ==> files == prepared
      ensures var d := ReplayDirectory(prepared, CircuitAfter(old(stateFile), old(legacy)));
              && (found.Some? ==> var (e, name) := found.value;
                    && broken.None? && e.Entry? && Oldest(prepared, d, name) && In(prepared, d, name) && e == prepared[Location(d, name)]
                    && files == prepared && Has(files, name, Batch(e.payload)))
              && (broken.Some? ==>
                    && found.None? && Oldest(prepared, d, broken.value) && In(prepared, d, broken.value) && prepared[Location(d, broken.value)].Undecodable?
                    && (life > 0 ==> files == Move(prepared, broken.value, d, QuarantineDir)
                                     && HoldsAt(files, QuarantineDir, broken.value, ContentOf(prepared[Location(d, broken.value)]))))
      ensures Closed(old(stateFile)) && life > 0 ==> OnHold(stateFile) && NothingPending(files)
      ensures StaysClosed(old(stateFile), old(life), stateFile, life)
      ensures Spends(old(Snapshot()), Snapshot(), 1)
    {
      hide NothingPending, Kept, Present, LegacySafe, AboveAll, SameBatches, NoNewNames, UniqueNames, Oldest, Bound, StillFree, Spends, HoldsAny, Gathered, SameSize, ReadableState;
      ghost var roomy := Valid() && Roomy(now);
      var state;
      ghost var bound;
      state, bound := PrepareQueue(now);
      ghost var queue0 := Snapshot();
      SectionSpends(old(Snapshot()), queue0, bound);
      if roomy { KeptMeansUnique(old(files), queue0.files); }
      var held := EntryNames(HeldDir);
      var pending := EntryNames(PendingDir);
      broken, prepared := None, files;
      NamesAreAny(files, PendingDir, pending);
      NamesAreAny(files, HeldDir, held);
      if held == [] && pending == [] { return None, broken, prepared; }
      var d := if state.circuit.Some? && held != [] then HeldDir else if pending != [] then PendingDir else HeldDir;
      var name := if d == HeldDir then held[0] else pending[0];
      FirstIsOldest(files, d, if d == HeldDir then held else pending);
      assert In(files, d, name);
      var e := files[Location(d, name)];
      if e.Undecodable? {
        MoveEntry(name, d, QuarantineDir);
        if NothingPending(prepared) { SetAsideIsNotPending(prepared, name, d); }
        MovedSectionSpends(old(Snapshot()), queue0, Snapshot(), stateFile, bound);
        if roomy { AfterMove(old(files), queue0.files, files, old(legacy), legacy); }
        return None, Some(name), prepared;
      }
      assert HoldsAt(files, d, name, Batch(e.payload));
      return Some((e, name)), broken, prepared;
    }

    /** Where a replayed entry is by now: it may have moved between pending and held. */
    static function ActiveDirectory(files: Files, name: FileName): Option<Directory> {
      if In(files, PendingDir, name) then Some(PendingDir) else if In(files, HeldDir, name) then Some(HeldDir) else None
    }

    method FindActive(name: FileName) returns (d: Option<Directory>)
      ensures d == ActiveDirectory(files, name)
    {
      if Location(PendingDir, name) in files { return Some(PendingDir); }
      if Location(HeldDir, name) in files { return Some(HeldDir); }
      return None;
    }

    /** Deletes an entry whose post succeeded, wherever it is by now. */
    method RemoveDispatchedEntry(name: FileName)
      modifies this`files, this`life
      ensures life <= old(life) <= life + 1 && NoNewNames(old(files), files)
      ensures old(Valid()) ==> KeptExcept(old(files), files, name)
      ensures life > 0 ==>
                files == match ActiveDirectory(old(files), name)
                         case Some(d) => old(files) - {Location(d, name)}
                         case None => old(files)
      ensures old(Valid()) && life > 0 ==> !In(files, PendingDir, name) && !In(files, HeldDir, name)
    {
      hide Has, Present;
      NothingNew(files);
      if Valid() {
        AllButNothing(files, name);
        assert Once(files, name);
      }
      var d := FindActive(name);
      if d.Some? {
        RemoveEntry(d.value, name);
      }
    }

    static lemma AllButNothing(files: Files, name: FileName)
      requires UniqueNames(files)
      ensures KeptExcept(files, files, name)
    {
    }

    /** The content of an active file is what the queue has under its name. */
    static lemma ActiveContent(files: Files, d: Directory, name: FileName, c: Content)
      requires UniqueNames(files) && In(files, d, name) && Has(files, name, c)
      ensures HoldsAt(files, d, name, c)
    {
      assert Once(files, name);
    }

    static function Marked(e: EntryFile, mark: Mark): EntryFile
      requires e.Entry?
    {
      e.(attempts := e.attempts + 1, mark := mark)
    }

    /** Records a retry in place. */
    method RetainRetryEntry(name: FileName, e: EntryFile)
      requires e.Entry?
      modifies this`files, this`life
      ensures life <= old(life) <= life + 1 && NoNewNames(old(files), files)
      ensures old(Valid()) && old(Has(files, name, Batch(e.payload))) ==> Kept(old(files), files)
      ensures life > 0 ==>
                files == match ActiveDirectory(old(files), name)
                         case Some(d) => old(files)[Location(d, name) := Marked(e, RetryMark)]
                         case None => old(files)
    {
      hide Has, Kept, UniqueNames, Present;
      NothingNew(files);
      if Valid() { KeptItself(files); }
      var d := FindActive(name);
      if d.None? { return; }
      var marked := e.(attempts := e.attempts + 1, mark := RetryMark);
      RewritingNamesNothing(files, d.value, name, marked);
      if Valid() && Has(files, name, Batch(e.payload)) {
        ActiveContent(files, d.value, name, Batch(e.payload));
        RewriteKeeps(files, d.value, name, marked);
      }
      WriteEntry(d.value, name, marked);
    }

    static lemma RewritingNamesNothing(files: Files, d: Directory, name: FileName, e: EntryFile)
      requires In(files, d, name)
      ensures NoNewNames(files, files[Location(d, name) := e])
    {
      NothingNew(files);
    }

    /** Moves a rejected entry to quarantine, marked first. */
    method QuarantineEntry(name: FileName, e: EntryFile)
      requires e.Entry?
      modifies this`files, this`life
      ensures life <= old(life) <= life + 2 && NoNewNames(old(files), files)
      ensures old(Valid()) && old(Has(files, name, Batch(e.payload))) ==> Kept(old(files), files)
      ensures life > 0 ==>
                match ActiveDirectory(old(files), name)
                case Some(d) =>
                  && files == (old(files) - {Location(d, name)})[Location(QuarantineDir, name) := Marked(e, RejectMark)]
                  && HoldsAt(files, QuarantineDir, name, Batch(e.payload)) && !In(files, d, name)
                case None => files == old(files)
    {
      hide Has, Kept, UniqueNames, SameBatches, Present, NoNewNames;
      NothingNew(files);
      if Valid() { KeptItself(files); }
      var d := FindActive(name);
      if d.None? { return; }
      var marked := e.(attempts := e.attempts + 1, mark := RejectMark);
      RewritingNamesNothing(files, d.value, name, marked);
      ghost var kept := Valid() && Has(files, name, Batch(e.payload));
      if kept {
        ActiveContent(files, d.value, name, Batch(e.payload));
        RewriteKeeps(files, d.value, name, marked);
      }
      WriteEntry(d.value, name, marked);
      ghost var files0 := files;
      if kept { KeptMeansUnique(old(files), files0); }
      MoveEntry(name, d.value, QuarantineDir);
      NoNewNamesThen(old(files), files0, files);
      if kept {
        SameIsKept(files0, files);
        KeptThen(old(files), files0, files);
      }
    }

    // ---------- Locked sections ----------

    /** The section's clock reading is one of `clocks`. */
    static predicate InTime(s: Section, clocks: set<nat>) {
      s.LosesState? || s.CorruptsState? || s.now in clocks
    }

    static predicate Stores(s: Section) {
      s.SavesBatch? || s.QueuesBatch?
    }

    /** The process lived to say that the batch was stored. */
    static predicate Accepted(a: Answer) {
      (a.result == Saved || a.result == HeldBack) && a.left > 0
    }

    /**
     What a section that stores a batch answers in a queue with room: it refuses exactly when the
     queue is full, and leaves a direct post to its caller exactly when the queue is clear.
     */
    static ghost predicate Answers(q: Queue, s: Section, a: Answer) {
      && (Stores(s) && a.left > 0 && ValidLimits(s.limits) ==> (a.result == Full <==> FullFor(q, s.payload, s.limits)))
      && (s.QueuesBatch? && a.left > 0 && ValidLimits(s.limits) ==> (a.result == Clear <==> ClearFor(q, s.payload, s.limits)))
    }

    /** Everything but an operator's resume and the loss of the state file leaves a closed queue closed. */
    static predicate KeepsClosed(s: Section) {
      !s.Resumes? && !s.LosesState?
    }

    /** It does so wherever it dies, unless that is at its very first file operation. */
    static predicate Quiet(s: Section) {
      KeepsClosed(s) && (s.CorruptsState? || s.life != 1)
    }

    static predicate AllQuiet(sections: seq<Section>) {
      forall i | 0 <= i < |sections| :: Quiet(sections[i])
    }

    /** The section gets to read the state file. */
    static predicate Reads(s: Section) {
      (Stores(s) ==> ValidLimits(s.limits)) && (s.Pauses? ==> !Blank(s.code))
    }

    /**
     A section leaves a closed queue closed, or with no state file where it died setting the
     unreadable one aside. One that lived leaves a saved circuit, nothing pending, and what it
     stored held.
     */
    static ghost predicate LeavesClosed(s: Section, before: StateFile, a: Answer, stateFile: StateFile, files: Files) {
      KeepsClosed(s) && Closed(before) ==>
        && (Closed(stateFile) || (!s.CorruptsState? && s.life == 1 && a.left == 0 && Unreadable(before) && stateFile == NoStateFile))
        && (!s.CorruptsState? && Reads(s) && a.left > 0 ==> OnHold(stateFile) && NothingPending(files))
        && (Stores(s) && ValidLimits(s.limits) ==> a.result == HeldBack || a.result == Full)
    }

    /** A batch that was accepted is in the log. */
    static predicate Logged(s: Section, a: Answer, log: seq<QueueEvent>) {
      Stores(s) && Accepted(a) ==> Stored(a.name, s.payload) in log
    }

    /** One locked section, with its own life; the life of whoever awaits it is untouched. */
    method RunSection(s: Section, ghost clocks: set<nat>) returns (ghost a: Answer, ghost log: seq<QueueEvent>)
      modifies this
      ensures life == old(life)
      ensures Spends(old(Snapshot()), Snapshot(), 1)
      ensures Requests(log) == []
      ensures !s.LosesState? && !s.CorruptsState? ==> a.left <= s.life <= a.left + Steps(old(Snapshot()))
      ensures Stores(s) ==> (a.result == Failed <==> !ValidLimits(s.limits)) && (s.SavesBatch? ==> a.result != Clear)
      ensures LeavesClosed(s, old(stateFile), a, stateFile, files)
      ensures InTime(s, clocks) && old(Valid()) && old(Room(Snapshot(), 0, clocks)) ==>
                && Explains(old(Snapshot()), log, Snapshot())
                && Answers(old(Snapshot()), s, a) && Logged(s, a, log)
    {
      hide NothingPending, Kept, UniqueNames, LegacySafe, Room, Spends, Has, Present, Accounts, Explains, HoldsAt, Requests, Exceeds, FullFor, ClearFor, Gathered, SameSize, SameBatches;
      var mine := life;
      ghost var ready := InTime(s, clocks) && Valid() && Room(Snapshot(), 0, clocks);
      ghost var before := Snapshot();
      if ready && !s.LosesState? && !s.CorruptsState? {
        RoomyAt(before, s.now, clocks);
      }
      log := [];
      var r, quarantined := Clear, false;
      ghost var name, prepared := Numbered(0), files;
      match s {
        case SavesBatch(given, now, payload, limits, attempts, rejected) =>
          life, quarantined := given, rejected;
          r, name, prepared := Save(payload, limits, now, attempts, rejected);
        case QueuesBatch(given, now, payload, limits) =>
          life := given;
          r, name, prepared := QueueIfBlocked(payload, limits, now);
        case Pauses(given, now, code) =>
          life := given;
          PauseSpool(code, now);
        case Resumes(given, now) =>
          life := given;
          ResumeSpool(now);
        case Inspects(given, now) =>
          life := given;
          InspectSpool(now);
        case LosesState =>
          stateFile := NoStateFile;
          StateAccident(before, NoStateFile);
        case CorruptsState =>
          stateFile := CorruptStateFile;
          StateAccident(before, CorruptStateFile);
      }
      NoRequestsAtAll();
      a := Answer(r, life, name);
      if ready {
        ghost var stored := Stores(s) && Accepted(a);
        ghost var payload := if stored then s.payload else Payload([], 0);
        if stored { HeldMeansHas(files, Destination(r, quarantined), name, Batch(payload)); }
        log := LogOf(before, Snapshot(), stored, name, payload);
      }
      life := mine;
    }

    static lemma RoomyAt(q: Queue, now: nat, clocks: set<nat>)
      requires Room(q, 0, clocks) && now in clocks
      ensures Room(q, 0, {now})
    {
      LessRoom(q, 0, clocks, 0, {now});
    }

    /** The log of a section that kept every batch, and may have stored one. */
    static lemma LogOf(before: Queue, after: Queue, stored: bool, name: FileName, payload: Payload) returns (log: seq<QueueEvent>)
      requires Kept(before.files, after.files) && LegacySafe(before.legacy, after.legacy, after.files)
      requires stored ==> !Present(before.files, name) && Has(after.files, name, Batch(payload))
      ensures Explains(before, log, after) && Requests(log) == []
      ensures stored ==> Stored(name, payload) in log
    {
      hide Kept, LegacySafe, Present, Has, Accounts, Explains;
      log := [];
      NoRequestsAtAll();
      if stored {
        log := [Stored(name, payload)];
        assert log[..0] == [];
        StoredAccounts(before.files, after.files, name, payload);
      } else {
        KeptAccounts(before.files, after.files);
      }
      log := Adopt(before, log, after);
    }

    static lemma NoRequestsAtAll()
      ensures Requests([]) == []
    {
    }

    /** Losing or breaking the state file loses no batch and takes no room. */
    static lemma StateAccident(q: Queue, stateFile: StateFile)
      requires !stateFile.SavedState?
      ensures Spends(q, q.(stateFile := stateFile), 1)
      ensures UniqueNames(q.files) ==> Kept(q.files, q.files) && LegacySafe(q.legacy, q.legacy, q.files)
    {
      hide AboveAll, JunkNamesFree, Kept, LegacySafe, UniqueNames;
      assert Bounded(q.(stateFile := stateFile), Bound(q));
      if UniqueNames(q.files) {
        KeptItself(q.files);
        LegacyUntouched(q.legacy, q.files);
      }
    }

    /** Reads the queue: that alone prepares it. */
    method InspectSpool(now: nat)
      modifies this
      ensures life <= old(life) <= life + Steps(old(Snapshot()))
      ensures old(Valid()) && old(Roomy(now)) ==> Kept(old(files), files) && LegacySafe(old(legacy), legacy, files)
      ensures Closed(old(stateFile)) && life > 0 ==> OnHold(stateFile) && NothingPending(files)
      ensures StaysClosed(old(stateFile), old(life), stateFile, life)
      ensures Spends(old(Snapshot()), Snapshot(), 1)
    {
      hide NothingPending, Kept, LegacySafe, UniqueNames, Bound, StillFree, Spends, AboveAll;
      var state;
      ghost var bound;
      state, bound := PrepareQueue(now);
      SectionSpends(old(Snapshot()), Snapshot(), bound);
    }

    static predicate AllInTime(sections: seq<Section>, clocks: set<nat>) {
      forall i | 0 <= i < |sections| :: InTime(sections[i], clocks)
    }

    /** Every batch that one of the sections that ran accepted is in the log. */
    static predicate AllLogged(sections: seq<Section>, answers: seq<Answer>, log: seq<QueueEvent>) {
      |answers| <= |sections| && forall i | 0 <= i < |answers| :: Logged(sections[i], answers[i], log)
    }

    static lemma LoggedMore(sections: seq<Section>, answers: seq<Answer>, log: seq<QueueEvent>, longer: seq<QueueEvent>)
      requires AllLogged(sections, answers, log) && forall e | e in log :: e in longer
      ensures AllLogged(sections, answers, longer)
    {
    }

    static lemma OneMoreLogged(sections: seq<Section>, answers: seq<Answer>, log: seq<QueueEvent>, a: Answer, more: seq<QueueEvent>)
      requires |answers| < |sections| && AllLogged(sections, answers, log) && Logged(sections[|answers|], a, more)
      ensures AllLogged(sections, answers + [a], log + more)
    {
      LoggedMore(sections, answers, log, log + more);
    }

    static lemma QuietKeepsClosed(sections: seq<Section>, i: nat, before: StateFile, a: Answer, stateFile: StateFile, files: Files)
      requires i < |sections| && LeavesClosed(sections[i], before, a, stateFile, files)
      ensures AllQuiet(sections) && Closed(before) ==> Closed(stateFile)
    {
      assert AllQuiet(sections) ==> Quiet(sections[i]);
    }

    /** Any number of sections one after the other. */
    method RunSections(sections: seq<Section>, ghost clocks: set<nat>) returns (ghost answers: seq<Answer>, ghost log: seq<QueueEvent>)
      modifies this
      ensures life == old(life)
      ensures sections == [] ==> Snapshot() == old(Snapshot())
      ensures Spends(old(Snapshot()), Snapshot(), |sections|)
      ensures Requests(log) == [] && |answers| == |sections|
      ensures AllQuiet(sections) && Closed(old(stateFile)) ==> Closed(stateFile)
      ensures AllInTime(sections, clocks) && old(Valid()) && old(Room(Snapshot(), |sections|, clocks)) ==>
                Explains(old(Snapshot()), log, Snapshot()) && AllLogged(sections, answers, log)
    {
      hide LeavesClosed, AllQuiet, Closed, UniqueNames, Spends, Room, Explains, Requests, InTime, AllLogged, Answers, Logged;
      answers, log := [], [];
      NoRequestsAtAll();
      SpendsNothingAtAll(Snapshot());
      NoneLogged(sections);
      ghost var ready := AllInTime(sections, clocks) && Valid() && Room(Snapshot(), |sections|, clocks);
      if ready { NothingExplained(Snapshot()); }
      for i := 0 to |sections|
        invariant life == old(life) && Spends(old(Snapshot()), Snapshot(), i)
        invariant i == 0 ==> Snapshot() == old(Snapshot())
        invariant AllQuiet(sections) && Closed(old(stateFile)) ==> Closed(stateFile)
        invariant Requests(log) == [] && |answers| == i
        invariant ready ==> Explains(old(Snapshot()), log, Snapshot()) && AllLogged(sections, answers, log)
      {
        ghost var queue0 := Snapshot();
        if ready { ReadyFor(old(Snapshot()), log, queue0, i, |sections|, 0, clocks); }
        ghost var answer, more;
        answer, more := RunSection(sections[i], clocks);
        QuietKeepsClosed(sections, i, queue0.stateFile, answer, stateFile, files);
        SpendsThen(old(Snapshot()), queue0, Snapshot(), i, 1);
        if ready {
          ExplainsThen(old(Snapshot()), log, queue0, more, Snapshot());
          OneMoreLogged(sections, answers, log, answer, more);
        }
        RequestsThen(log, more);
        answers, log := answers + [answer], log + more;
      }
    }

    static lemma NoneLogged(sections: seq<Section>)
      ensures AllLogged(sections, [], [])
    {
    }

    static lemma SpendsNothingAtAll(q: Queue)
      ensures Spends(q, q, 0)
    {
      hide Bound, JunkNamesFree;
    }

    static lemma NothingExplained(q: Queue)
      requires UniqueNames(q.files)
      ensures Explains(q, [], q)
    {
      hide UniqueNames, Has;
      KeptItself(q.files);
      KeptAccounts(q.files, q.files);
    }

    /** A queue in the middle of an explained run is ready for a step that needs `need` of the room left. */
    static lemma ReadyFor(before: Queue, log: seq<QueueEvent>, q: Queue, spent: nat, total: nat, need: nat, clocks: set<nat>)
      requires Explains(before, log, q) && Spends(before, q, spent) && Room(before, total, clocks) && spent + need <= total
      ensures UniqueNames(q.files) && Room(q, need, clocks)
    {
      hide UniqueNames, Fair, Has, Spends, Room;
      RoomLeft(before, q, spent, total - spent, clocks);
      LessRoom(q, total - spent, clocks, need, clocks);
    }

    static predicate ValidPermit(p: Permit) {
      && 0 < p.maxBatches <= MAX_BATCHES && 0 < p.maxRecords <= MAX_RECORDS && 0 < p.maxBytes <= MAX_BYTES
      && (p.canary ==> p.maxBatches == 1 && p.maxRecords <= MAX_CANARY_RECORDS)
    }

    static predicate WithinPermit(r: ReplayResult, p: Permit) {
      && r.attemptedBatches <= p.maxBatches && r.attemptedRecords <= p.maxRecords && r.attemptedBytes <= p.maxBytes
    }

    /** The counters of a replay that sent exactly these requests. */
    static function Tally(requests: seq<QueueEvent>): ReplayResult
      requires AreEntries(requests)
      decreases |requests|
    {
      if requests == [] then ReplayResult(0, 0, 0, 0, 0, false)
      else Counted(Tally(requests[..|requests| - 1]), requests[|requests| - 1])
    }

    static predicate AreEntries(requests: seq<QueueEvent>) {
      forall i | 0 <= i < |requests| :: requests[i].Request? && requests[i].entry.Entry?
    }

    static function Counted(r: ReplayResult, request: QueueEvent): ReplayResult
      requires request.Request? && request.entry.Entry?
    {
      ReplayResult(
        r.attemptedBatches + 1, r.attemptedRecords + request.entry.recordCount, r.attemptedBytes + request.entry.encodedBytes,
        r.dispatchedBatches + (if request.outcome.Posted? then 1 else 0),
        r.quarantinedBatches + (if request.outcome.RejectPost? then 1 else 0),
        r.paused || request.outcome.PausePost?)
    }

    /** A closed queue is closed still, or its state file went missing where the process died. */
    static predicate ClosedOrLost(before: StateFile, after: StateFile, left: nat) {
      Closed(before) ==> Closed(after) || (left == 0 && after == NoStateFile)
    }

    static predicate AllTurnsQuiet(turns: seq<Turn>) {
      forall i | 0 <= i < |turns| :: AllQuiet(turns[i].others)
    }

    /** Settles one request: only a successful post removes its batch. */
    method Settle(name: FileName, e: EntryFile, outcome: PostOutcome, now: nat, result: ReplayResult)
      returns (after: ReplayResult, goOn: bool, ghost log: seq<QueueEvent>)
      requires e.Entry?
      modifies this
      ensures life <= old(life) <= life + Steps(old(Snapshot()))
      ensures after == result.(
                dispatchedBatches := result.dispatchedBatches + (if outcome.Posted? then 1 else 0),
                quarantinedBatches := result.quarantinedBatches + (if outcome.RejectPost? then 1 else 0),
                paused := result.paused || outcome.PausePost?)
      ensures goOn <==> outcome.Posted? || outcome.RejectPost?
      ensures goOn ==> stateFile == old(stateFile)
      ensures ClosedOrLost(old(stateFile), stateFile, life)
      ensures Requests(log) == [Request(name, e, outcome)]
      ensures Spends(old(Snapshot()), Snapshot(), 1)
      ensures old(Valid()) && old(Has(files, name, Batch(e.payload))) && old(Roomy(now)) ==>
                Explains(old(Snapshot()), log, Snapshot())
      ensures life > 0 && !outcome.PausePost? ==>
                legacy == old(legacy) && stateFile == old(stateFile)
                && files == match ActiveDirectory(old(files), name)
                            case None => old(files)
                            case Some(d) =>
                              if outcome.Posted? then old(files) - {Location(d, name)}
                              else if outcome.RetryPost? then old(files)[Location(d, name) := Marked(e, RetryMark)]
                              else (old(files) - {Location(d, name)})[Location(QuarantineDir, name) := Marked(e, RejectMark)]
      ensures life > 0 && outcome.PausePost? ==>
                NothingPending(files) && stateFile.SavedState? && stateFile.state.circuit.Some?
    {
      hide Kept, KeptExcept, UniqueNames, Has, LegacySafe, Spends, Explains, Accounts, NoNewNames, Requests;
      after := result;
      goOn := outcome.Posted? || outcome.RejectPost?;
      log := [Request(name, e, outcome)];
      OneRequest(log[0]);
      ghost var ready := Valid() && Has(files, name, Batch(e.payload)) && Roomy(now);
      if ready { LegacyUntouched(legacy, files); }
      match outcome {
        case Posted =>
          RemoveDispatchedEntry(name);
          after := after.(dispatchedBatches := after.dispatchedBatches + 1);
          SettledSpends(old(Snapshot()), Snapshot());
        case PausePost =>
          NotBlank();
          PauseSpool("remote_delivery_paused", now);
          after := after.(paused := true);
        case RejectPost =>
          QuarantineEntry(name, e);
          after := after.(quarantinedBatches := after.quarantinedBatches + 1);
          SettledSpends(old(Snapshot()), Snapshot());
        case RetryPost =>
          RetainRetryEntry(name, e);
          SettledSpends(old(Snapshot()), Snapshot());
      }
      if ready {
        RequestAccounts(old(files), files, name, e, outcome);
        if !outcome.PausePost? { LegacyUntouched(legacy, files); }
        log := Adopt(old(Snapshot()), log, Snapshot());
      }
    }

    static lemma OneRequest(e: QueueEvent)
      requires e.Request?
      ensures Requests([e]) == [e]
    {
      assert [e][..0] == [];
      NoRequestsAtAll();
    }

    static lemma NotBlank()
      ensures !Blank("remote_delivery_paused")
    {
      assert "remote_delivery_paused"[0] == 'r';
    }

    static lemma SettledSpends(q: Queue, q': Queue)
      requires NoNewNames(q.files, q'.files) && q'.legacy == q.legacy && q'.stateFile == q.stateFile
      ensures Spends(q, q', 1)
    {
      hide NoNewNames, Bound, JunkNamesFree;
      NoNewNamesSpendNothing(q, q');
    }

    /** Every batch that a section accepted while the replay awaited its requests is in the log. */
    static predicate TurnsLogged(turns: seq<Turn>, answers: seq<seq<Answer>>, log: seq<QueueEvent>) {
      |answers| <= |turns| && forall i | 0 <= i < |answers| :: AllLogged(turns[i].others, answers[i], log)
    }

    static lemma NoTurnLogged(turns: seq<Turn>)
      ensures TurnsLogged(turns, [], [])
    {
    }

    static lemma OneMoreTurnLogged(turns: seq<Turn>, answers: seq<seq<Answer>>, log: seq<QueueEvent>, others: seq<Answer>, more: seq<QueueEvent>)
      requires |answers| < |turns| && TurnsLogged(turns, answers, log) && AllLogged(turns[|answers|].others, others, more)
      ensures TurnsLogged(turns, answers + [others], log + more)
    {
      hide AllLogged;
      LoggedMore(turns[|answers|].others, others, more, log + more);
      forall i | 0 <= i < |answers| ensures AllLogged(turns[i].others, answers[i], log + more) {
        LoggedMore(turns[i].others, answers[i], log, log + more);
      }
    }

    /** The requests ended as the turns say, one a turn, and none was sent without time left. */
    static predicate AnswerTurns(requests: seq<QueueEvent>, turns: seq<Turn>) {
      |requests| <= |turns|
      && forall i | 0 <= i < |requests| ::
           requests[i].Request? && turns[i].timeLeft && requests[i].outcome == turns[i].outcome
    }

    static function FlushCost(turns: seq<Turn>): nat
      decreases |turns|
    {
      if turns == [] then 0 else FlushCost(turns[..|turns| - 1]) + |turns[|turns| - 1].others| + 2
    }

    static lemma NoTurnsCostNothing()
      ensures FlushCost([]) == 0
    {
    }

    static lemma {:induction false} CostSoFar(turns: seq<Turn>, i: nat)
      requires i < |turns|
      ensures FlushCost(turns[..i]) + |turns[i].others| + 2 == FlushCost(turns[..i + 1]) <= FlushCost(turns)
      decreases |turns|
    {
      assert turns[..i + 1][..i] == turns[..i];
      if i == |turns| - 1 {
        assert turns[..i + 1] == turns;
      } else {
        var front := turns[..|turns| - 1];
        CostSoFar(front, i);
        assert front[..i] == turns[..i] && front[..i + 1] == turns[..i + 1];
      }
    }

    static predicate TurnInTime(t: Turn, clocks: set<nat>) {
      t.now in clocks && AllInTime(t.others, clocks)
    }

    static predicate TurnsInTime(turns: seq<Turn>, clocks: set<nat>) {
      forall i | 0 <= i < |turns| :: TurnInTime(turns[i], clocks)
    }

    /**
     Replays under a finite permit while other processes use the queue. The counters are those of
     the requests it sent, which never exceed the permit, and wherever a process dies the log of
     what happened accounts for every batch: one leaves the queue only after its own post succeeded.
     */
    method FlushSpool(permit: Permit, turns: seq<Turn>, ghost clocks: set<nat>)
      returns (result: ReplayResult, refused: bool, ghost answers: seq<seq<Answer>>, ghost log: seq<QueueEvent>, ghost stop: Stop)
      modifies this
      ensures refused <==> !ValidPermit(permit)
      ensures refused ==> Snapshot() == old(Snapshot()) && log == [] && answers == []
      ensures AreEntries(Requests(log)) && result == Tally(Requests(log))
      ensures !refused ==> WithinPermit(result, permit)
      ensures AnswerTurns(Requests(log), turns)
      ensures !refused ==>
                match stop
                case PermitSpent => result.attemptedBatches == permit.maxBatches
                case NoTurnLeft => |Requests(log)| == |turns|
                case OutOfTime => |Requests(log)| < |turns| && !turns[|Requests(log)|].timeLeft
                case Halted => LastHalts(Requests(log))
                case Died => life == 0
                case _ => QueueStop(stop, files, life, result, permit)
      ensures Spends(old(Snapshot()), Snapshot(), FlushCost(turns))
      ensures AllTurnsQuiet(turns) ==> ClosedOrLost(old(stateFile), stateFile, life)
      ensures TurnsInTime(turns, clocks) && old(Valid()) && old(Room(Snapshot(), FlushCost(turns), clocks)) ==>
                Explains(old(Snapshot()), log, Snapshot()) && TurnsLogged(turns, answers, log)
    {
      hide UniqueNames, Spends, Room, Explains, Requests, TurnInTime, FlushCost, ValidPermit, Tally, AreEntries, AnswerTurns, WithinPermit, Counted, QueueStop, TurnsLogged, AllLogged;
      NoTurnsCostNothing();
      result, answers, log, stop := ReplayResult(0, 0, 0, 0, 0, false), [], [], NoTurnLeft;
      NoTurnLogged(turns);
      refused := !ValidPermit(permit);
      NoRequestsAtAll();
      NothingTallied(turns);
      SpendsNothingAtAll(Snapshot());
      ghost var total := FlushCost(turns);
      ghost var ready := TurnsInTime(turns, clocks) && Valid() && Room(Snapshot(), total, clocks);
      if ready { NothingExplained(Snapshot()); }
      ghost var spent := 0;
      SpendsMore(old(Snapshot()), Snapshot(), 0, total);
      if refused { return; }
      NothingSent(permit);
      for i := 0 to |turns|
        invariant spent == FlushCost(turns[..i]) && spent <= total && stop == NoTurnLeft
        invariant Spends(old(Snapshot()), Snapshot(), spent)
        invariant WithinPermit(result, permit) && AreEntries(Requests(log)) && result == Tally(Requests(log))
        invariant |Requests(log)| == i && AnswerTurns(Requests(log), turns)
        invariant |answers| == i
        invariant AllTurnsQuiet(turns) && Closed(old(stateFile)) ==> Closed(stateFile)
        invariant ready ==> Explains(old(Snapshot()), log, Snapshot()) && TurnsLogged(turns, answers, log)
      {
        if result.attemptedBatches >= permit.maxBatches {
          AtMostPermitted(result, permit);
          stop := PermitSpent;
          break;
        }
        if !turns[i].timeLeft {
          stop := OutOfTime;
          break;
        }
        CostSoFar(turns, i);
        ghost var queue0, cost := Snapshot(), |turns[i].others| + 2;
        if ready { ReadyFor(old(Snapshot()), log, queue0, spent, total, cost, clocks); }
        var goOn;
        ghost var more;
        ghost var sent := Requests(log);
        ghost var why, others;
        result, goOn, others, more, why := TakeTurn(permit, turns[i], result, clocks);
        SpendsThen(old(Snapshot()), queue0, Snapshot(), spent, cost);
        if ready {
          ExplainsThen(old(Snapshot()), log, queue0, more, Snapshot());
          OneMoreTurnLogged(turns, answers, log, others, more);
        }
        RequestsThen(log, more);
        TallyMore(sent, Requests(more), turns);
        spent, answers, log := spent + cost, answers + [others], log + more;
        if !goOn {
          stop := if Requests(more) == [] then why else Halted;
          if Requests(more) != [] { HaltedLast(sent, Requests(more)); }
          break;
        }
      }
      SpendsMore(old(Snapshot()), Snapshot(), spent, total);
    }

    /** The last request was paused or is to be retried. */
    static predicate LastHalts(requests: seq<QueueEvent>) {
      requests != []
      && var last := requests[|requests| - 1];
         last.Request? && (last.outcome.PausePost? || last.outcome.RetryPost?)
    }

    static lemma HaltedLast(sent: seq<QueueEvent>, more: seq<QueueEvent>)
      requires AreEntries(more) && |more| == 1 && !more[0].outcome.Posted? && !more[0].outcome.RejectPost?
      ensures LastHalts(sent + more)
    {
    }

    static lemma AtMostPermitted(r: ReplayResult, p: Permit)
      requires WithinPermit(r, p)
      ensures r.attemptedBatches <= p.maxBatches
    {
    }

    static lemma NothingSent(p: Permit)
      requires ValidPermit(p)
      ensures WithinPermit(ReplayResult(0, 0, 0, 0, 0, false), p)
    {
    }

    static lemma NothingTallied(turns: seq<Turn>)
      ensures AreEntries([]) && AnswerTurns([], turns) && Tally([]) == ReplayResult(0, 0, 0, 0, 0, false)
    {
    }

    static lemma SpendsMore(q: Queue, q': Queue, m: nat, n: nat)
      requires Spends(q, q', m) && m <= n
      ensures Spends(q, q', n)
    {
      hide Bound, StillFree;
    }

    static lemma TallyMore(sent: seq<QueueEvent>, more: seq<QueueEvent>, turns: seq<Turn>)
      requires AreEntries(sent) && AreEntries(more) && AnswerTurns(sent, turns) && |sent| < |turns| && |more| <= 1
      requires more != [] ==> turns[|sent|].timeLeft && more[0].outcome == turns[|sent|].outcome
      ensures AreEntries(sent + more) && AnswerTurns(sent + more, turns)
      ensures Tally(sent + more) == if more == [] then Tally(sent) else Counted(Tally(sent), more[0])
    {
      hide Tally, Counted;
      if more == [] {
        assert sent + more == sent;
      } else {
        assert AreEntries(sent + more);
        assert sent + more == sent + [more[0]];
        TallyLast(sent, more[0]);
      }
    }

    static lemma TallyLast(sent: seq<QueueEvent>, last: QueueEvent)
      requires AreEntries(sent) && AreEntries(sent + [last]) && last.Request? && last.entry.Entry?
      ensures Tally(sent + [last]) == Counted(Tally(sent), last)
    {
      hide Counted, AreEntries;
      assert (sent + [last])[..|sent|] == sent;
    }

    /** Nothing is left to send, the next file did not decode and was set aside, or the next batch exceeds the permit. */
    static ghost predicate QueueStop(stop: Stop, files: Files, life: nat, r: ReplayResult, p: Permit) {
      match stop
      case QueueEmpty => !HoldsAny(files, PendingDir) && !HoldsAny(files, HeldDir)
      case SetAside(name) => life > 0 ==> In(files, QuarantineDir, name) && files[Location(QuarantineDir, name)].Undecodable?
      case TooBig(d, name) =>
        && Oldest(files, d, name) && In(files, d, name)
        && var e := files[Location(d, name)];
           e.Entry? && (r.attemptedRecords + e.recordCount > p.maxRecords || r.attemptedBytes + e.encodedBytes > p.maxBytes)
      case _ => false
    }

    static lemma StopEmpty(files: Files, life: nat, r: ReplayResult, p: Permit)
      requires !HoldsAny(files, PendingDir) && !HoldsAny(files, HeldDir)
      ensures QueueStop(QueueEmpty, files, life, r, p)
    {
    }

    static lemma StopAside(files: Files, name: FileName, e: EntryFile, life: nat, r: ReplayResult, p: Permit)
      requires e.Undecodable? && (life > 0 ==> HoldsAt(files, QuarantineDir, name, ContentOf(e)))
      ensures QueueStop(SetAside(name), files, life, r, p)
    {
    }

    static lemma StopTooBig(files: Files, d: Directory, name: FileName, life: nat, r: ReplayResult, p: Permit)
      requires Oldest(files, d, name) && In(files, d, name) && files[Location(d, name)].Entry?
      requires var e := files[Location(d, name)];
               r.attemptedRecords + e.recordCount > p.maxRecords || r.attemptedBytes + e.encodedBytes > p.maxBytes
      ensures QueueStop(TooBig(d, name), files, life, r, p)
    {
      hide Oldest;
    }

    /** One turn of the replay loop: at most one request, counted as it ends. */
    method TakeTurn(permit: Permit, turn: Turn, result: ReplayResult, ghost clocks: set<nat>)
      returns (after: ReplayResult, goOn: bool, ghost answers: seq<Answer>, ghost log: seq<QueueEvent>, ghost stop: Stop)
      requires WithinPermit(result, permit) && result.attemptedBatches < permit.maxBatches
      modifies this
      ensures WithinPermit(after, permit)
      ensures |Requests(log)| <= 1 && AreEntries(Requests(log))
      ensures Requests(log) == [] ==> 
                && after == result && !goOn
                && (if stop.Died? then life == 0
                    else QueueStop(stop, files, life, result, permit) && (stop.QueueEmpty? || stop.SetAside? || stop.TooBig?))
      ensures Requests(log) != [] ==> (goOn <==> turn.outcome.Posted? || turn.outcome.RejectPost?)
      ensures Requests(log) != [] ==> Requests(log)[0].outcome == turn.outcome && after == Counted(result, Requests(log)[0])
      ensures Spends(old(Snapshot()), Snapshot(), |turn.others| + 2)
      ensures AllQuiet(turn.others) ==> ClosedOrLost(old(stateFile), stateFile, life)
      ensures AllQuiet(turn.others) && goOn && Closed(old(stateFile)) ==> Closed(stateFile)
      ensures TurnInTime(turn, clocks) && old(Valid()) && old(Room(Snapshot(), |turn.others| + 2, clocks)) ==>
                Explains(old(Snapshot()), log, Snapshot()) && AllLogged(turn.others, answers, log)
    {
      hide NothingPending, Kept, UniqueNames, Has, LegacySafe, Oldest, Spends, Room, Explains, Accounts, Requests, HoldsAt, HoldsAny, AllInTime, ReplayDirectory, CircuitAfter, QueueStop, AllLogged, Gathered;
      after, goOn, answers, log, stop := result, false, [], [], QueueEmpty;
      NoRequestsAtAll();
      ghost var queue0, room := Snapshot(), |turn.others| + 2;
      ghost var ready := TurnInTime(turn, clocks) && Valid() && Room(queue0, room, clocks);
      if ready { RoomyFor(queue0, room, turn.now, clocks); }
      var found;
      ghost var broken, prepared;
      ghost var circuit := CircuitAfter(stateFile, legacy);
      found, broken, prepared := OldestReplayEntry(turn.now);
      ghost var from := ReplayDirectory(prepared, circuit);
      ghost var queue1 := Snapshot();
      if ready {
        log := LogOf(queue0, queue1, false, Numbered(0), Payload([], 0));
        NoneLogged(turn.others);
        LoggedMore(turn.others, [], [], log);
      }
      SpendsMore(queue0, queue1, 1, room);
      if found.None? {
        if broken.Some? {
          stop := SetAside(broken.value);
          StopAside(files, broken.value, prepared[Location(from, broken.value)], life, result, permit);
        } else {
          StopEmpty(files, life, result, permit);
        }
        return;
      }
      var (e, name) := found.value;
      if result.attemptedRecords + e.recordCount > permit.maxRecords || result.attemptedBytes + e.encodedBytes > permit.maxBytes {
        stop := TooBig(from, name);
        StopTooBig(files, from, name, life, result, permit);
        return;
      }
      if ready { ReadyFor(queue0, log, queue1, 1, room, |turn.others| + 1, clocks); }
      var died;
      ghost var more;
      after, goOn, died, answers, more := Send(name, e, turn, result, clocks);
      SpendsThen(queue0, queue1, Snapshot(), 1, |turn.others| + 1);
      if ready {
        ExplainsThen(queue0, log, queue1, more, Snapshot());
        LoggedMore(turn.others, answers, more, log + more);
      }
      RequestsThen(log, more);
      log := log + more;
      stop := Died;
    }

    /** Sends one entry: the request costs a process its next step, so a dead one sends nothing. */
    method Send(name: FileName, e: EntryFile, turn: Turn, result: ReplayResult, ghost clocks: set<nat>)
      returns (after: ReplayResult, goOn: bool, died: bool, ghost answers: seq<Answer>, ghost log: seq<QueueEvent>)
      requires e.Entry?
      modifies this
      ensures life <= old(life)
      ensures died <==> old(life) == 0
      ensures died ==> life == 0 && after == result && !goOn && Requests(log) == []
      ensures !died ==> Requests(log) == [Request(name, e, turn.outcome)] && after == Counted(result, Request(name, e, turn.outcome))
      ensures !died ==> (goOn <==> turn.outcome.Posted? || turn.outcome.RejectPost?)
      ensures Spends(old(Snapshot()), Snapshot(), |turn.others| + 1)
      ensures died ==> Snapshot() == old(Snapshot())
      ensures AllQuiet(turn.others) ==> ClosedOrLost(old(stateFile), stateFile, life)
      ensures AllQuiet(turn.others) && goOn && Closed(old(stateFile)) ==> Closed(stateFile)
      ensures TurnInTime(turn, clocks) && old(Valid()) && old(Has(files, name, Batch(e.payload))) && old(Room(Snapshot(), |turn.others| + 1, clocks)) ==>
                Explains(old(Snapshot()), log, Snapshot()) && AllLogged(turn.others, answers, log)
    {
      hide Kept, UniqueNames, Has, Spends, Room, Explains, Requests, HoldsAt, AllInTime, AllLogged;
      ghost var queue1, room := Snapshot(), |turn.others| + 1;
      ghost var ready := TurnInTime(turn, clocks) && Valid() && Has(files, name, Batch(e.payload)) && Room(queue1, room, clocks);
      after, goOn, answers, log := result, false, [], [];
      NoRequestsAtAll();
      var alive := Tick();
      died := !alive;
      if died {
        NoneLogged(turn.others);
        SpendsNothingAtAll(queue1);
        SpendsMore(queue1, queue1, 0, room);
        if ready { NothingExplained(queue1); }
        return;
      }
      after := after.(
        attemptedBatches := after.attemptedBatches + 1,
        attemptedRecords := after.attemptedRecords + e.recordCount,
        attemptedBytes := after.attemptedBytes + e.encodedBytes);
      if ready { LessRoom(queue1, room, clocks, |turn.others|, clocks); }
      answers, log := RunSections(turn.others, clocks);
      ghost var queue2, meanwhile := Snapshot(), log;
      if ready {
        StillThere(queue1, log, queue2, name, Batch(e.payload));
        ReadyFor(queue1, log, queue2, |turn.others|, room, 0, clocks);
        RoomyFor(queue2, 0, turn.now, clocks);
      }
      ghost var settled;
      after, goOn, settled := Settle(name, e, turn.outcome, turn.now, after);
      SpendsThen(queue1, queue2, Snapshot(), |turn.others|, 1);
      if ready {
        ExplainsThen(queue1, meanwhile, queue2, settled, Snapshot());
        LoggedMore(turn.others, answers, meanwhile, meanwhile + settled);
      }
      RequestsThen(meanwhile, settled);
      log := meanwhile + settled;
    }

    static lemma RoomyFor(q: Queue, room: nat, now: nat, clocks: set<nat>)
      requires Room(q, room, clocks) && now in clocks
      ensures Room(q, 0, {now})
    {
      LessRoom(q, room, clocks, 0, {now});
    }

    /** A batch stays where nothing was sent. */
    static lemma StillThere(q: Queue, log: seq<QueueEvent>, q': Queue, name: FileName, c: Content)
      requires Explains(q, log, q') && Requests(log) == [] && Has(q.files, name, c)
      ensures Has(q'.files, name, c)
    {
      hide Has, Fair, UniqueNames, Owed, Requests;
      NothingTaken(q.files, log, name, c);
    }

    static lemma {:induction false} NothingTaken(before: Files, log: seq<QueueEvent>, name: FileName, c: Content)
      requires Requests(log) == [] && Has(before, name, c)
      ensures Owed(before, log, name, c)
      decreases |log|
    {
      hide Has;
      if log != [] {
        NothingTaken(before, log[..|log| - 1], name, c);
      }
    }

    // ---------- Shipping ----------

    /** Nothing waits in the queue, nothing holds it, and there is room for the batch: it may be posted directly. */
    static ghost predicate ClearFor(q: Queue, payload: Payload, limits: Limits) {
      && !FullFor(q, payload, limits) && CircuitAfter(q.stateFile, q.legacy).None?
      && !HoldsAny(q.files, PendingDir) && !HoldsAny(q.files, HeldDir)
    }

    /** The same, judged on the prepared files. */
    static ghost predicate ClearIn(q: Queue, prepared: Files, payload: Payload, limits: Limits) {
      && !ReadableState(q.stateFile).queueFull && !Exceeds(prepared, payload, limits)
      && CircuitAfter(q.stateFile, q.legacy).None? && !HoldsAny(prepared, PendingDir) && !HoldsAny(prepared, HeldDir)
    }

    /** Queues behind any backlog or circuit; `Clear` lets the caller post directly. */
    method QueueIfBlocked(payload: Payload, limits: Limits, now: nat)
      returns (r: SaveResult, ghost name: FileName, ghost prepared: Files)
      modifies this
      ensures life <= old(life) <= life + Steps(old(Snapshot()))
      ensures r != Failed ==>
                && (r == Full <==> ReadableState(old(stateFile)).queueFull || Exceeds(prepared, payload, limits))
                && (r == Clear <==> ClearIn(old(Snapshot()), prepared, payload, limits))
                && (r == HeldBack ==> CircuitAfter(old(stateFile), old(legacy)).Some?)
                && (r == Saved ==> CircuitAfter(old(stateFile), old(legacy)).None?)
      ensures old(legacy) == map[] && ReadableState(old(stateFile)).circuit.None? ==> prepared == old(files)
      ensures r == Clear ==> files == prepared == old(files)
      ensures old(Valid()) && old(Roomy(now)) ==> Kept(old(files), prepared) && LegacySafe(old(legacy), legacy, prepared)
      ensures old(Valid()) && old(Roomy(now)) && r != Failed && life > 0 ==>
                Gathered(old(Snapshot()), prepared) && (r == Full <==> FullFor(old(Snapshot()), payload, limits))
      ensures old(Valid()) && old(Roomy(now)) && r == Full ==> SameBatches(prepared, files) && SameSize(prepared, files)
      ensures r == Full && life > 0 ==>
                NothingPending(files) && stateFile.SavedState? && stateFile.state.queueFull && stateFile.state.circuit.Some?
      ensures old(Valid()) && old(Roomy(now)) && r != Failed && life > 0 ==> (r == Clear <==> ClearFor(old(Snapshot()), payload, limits))
      ensures old(Valid()) && old(Roomy(now)) ==> Kept(old(files), files) && LegacySafe(old(legacy), legacy, files)
      ensures old(Valid()) && old(Roomy(now)) && (r == Saved || r == HeldBack) && life > 0 ==>
                && !Present(old(files), name) && HoldsAt(files, Destination(r, false), name, Batch(payload))
                && |files| == |prepared| + 1 <= limits.hardBatches
                && TotalBytes(files) == TotalBytes(prepared) + |payload.text| <= limits.hardBytes
      ensures r == Failed <==> limits.hardBatches < 1 || limits.hardBytes < 1
      ensures Closed(old(stateFile)) && ValidLimits(limits) ==>
                (r == HeldBack || r == Full) && (life > 0 ==> OnHold(stateFile) && NothingPending(files))
      ensures StaysClosed(old(stateFile), old(life), stateFile, life)
      ensures Spends(old(Snapshot()), Snapshot(), 1)
    {
      hide NothingPending, Steps, Exceeds, Kept, Present, LegacySafe, AboveAll, SameBatches, NoNewNames, UniqueNames, TotalBytes, Has, Bound, Bounded, LegacyBytes, StillFree, Spends, HoldsAny, ReadableState, HoldsAt, Gathered, FullFor, SameSize;
      name, prepared := Numbered(0), files;
      if limits.hardBatches < 1 || limits.hardBytes < 1 {
        if Valid() {
          KeptItself(files);
          LegacyUntouched(legacy, files);
        }
        SpendsNothing(Snapshot());
        return Failed, name, prepared;
      }
      ghost var roomy := Valid() && Roomy(now);
      var state, full;
      ghost var bound, queue0;
      state, full, bound, queue0 := Admit(payload, limits, now);
      prepared := queue0.files;
      if full { return Full, name, prepared; }
      NotExceeded(prepared, payload, limits);
      var pending := EntryNames(PendingDir);
      var held := EntryNames(HeldDir);
      NamesAreAny(files, PendingDir, pending);
      NamesAreAny(files, HeldDir, held);
      if state.circuit.None? && pending == [] && held == [] {
        SectionSpends(old(Snapshot()), Snapshot(), bound);
        return Clear, name, prepared;
      }
      if roomy { KeptMeansUnique(old(files), files); }
      bound := bound + if life > 0 then 1 else 0;
      r, name := AppendForState(state, payload, 0, false, if life > 0 then bound - 1 else bound);
      StillFreeThen(old(Snapshot()), queue0, Snapshot());
      SectionSpends(old(Snapshot()), Snapshot(), bound);
      if roomy { StoredBeside(old(Snapshot()), queue0, Snapshot(), name); }
    }

    /** The queue's answer to a batch that was to be stored. */
    static function Answered(r: SaveResult, name: FileName): ShipResult {
      match r
      case Full => RefusedFull
      case Failed => ShipFailed
      case _ => Queued(name)
    }

    /** Where a batch lies that was stored instead of being posted, or because its post failed. */
    static predicate StoredIn(files: Files, name: FileName, payload: Payload, outcome: PostOutcome) {
      && Has(files, name, Batch(payload))
      && (outcome.RejectPost? ==> HoldsAt(files, QuarantineDir, name, Batch(payload)))
      && (outcome.PausePost? ==> HoldsAt(files, HeldDir, name, Batch(payload)))
    }

    /**
     Ships one captured batch. It is posted only when the queue is clear; otherwise, or when the
     post does not succeed, it is stored under a new name, or refused because the queue is full.
     No stored batch is ever lost by shipping. `later` is the queue the others left when the post
     had failed.
     */
    method ShipWithSpool(payload: Payload, limits: Limits, now: nat, others: seq<Section>, outcome: PostOutcome, after: nat, ghost clocks: set<nat>)
      returns (ghost r: ShipResult, ghost answers: seq<Answer>, ghost log: seq<QueueEvent>, ghost prepared: Files, ghost later: Queue)
      modifies this
      ensures life <= old(life)
      ensures r == NothingToShip <==> payload.records == 0
      ensures r == NothingToShip ==> Snapshot() == old(Snapshot()) && log == []
      ensures r == ShipFailed <==> payload.records != 0 && !ValidLimits(limits)
      ensures var direct := payload.records != 0 && ValidLimits(limits) && ClearIn(old(Snapshot()), prepared, payload, limits);
              && (r == ShipDied ==> direct && life == 0)
              && (r != ShipDied ==> (r == Delivered <==> direct && outcome.Posted?))
              && (payload.records != 0 && ValidLimits(limits) && !direct ==>
                    (r == RefusedFull <==> ReadableState(old(stateFile)).queueFull || Exceeds(prepared, payload, limits)))
      ensures old(legacy) == map[] && ReadableState(old(stateFile)).circuit.None? ==> prepared == old(files)
      ensures Requests(log) == []
      ensures Spends(old(Snapshot()), Snapshot(), |others| + 3)
      ensures Closed(old(stateFile)) ==> r != Delivered && StaysClosed(old(stateFile), old(life), stateFile, life)
      ensures Closed(old(stateFile)) && payload.records != 0 && ValidLimits(limits) ==>
                && (r.Queued? || r == RefusedFull)
                && (life > 0 ==> OnHold(stateFile) && NothingPending(files))
                && (life > 0 && r.Queued? && ShipReady(old(Snapshot()), now, others, after, clocks) ==>
                      HoldsAt(files, HeldDir, r.name, Batch(payload)))
      ensures ShipReady(old(Snapshot()), now, others, after, clocks) ==>
                && Explains(old(Snapshot()), log, Snapshot()) && AllLogged(others, answers, log)
                && Kept(old(files), prepared)
                && (r.Queued? && life > 0 ==> Stored(r.name, payload) in log)
      ensures ShipReady(old(Snapshot()), now, others, after, clocks) && life > 0 && payload.records != 0 && ValidLimits(limits) ==>
                && Gathered(old(Snapshot()), prepared)
                && if !ClearFor(old(Snapshot()), payload, limits) then
                     && (r == RefusedFull <==> FullFor(old(Snapshot()), payload, limits))
                     && (r == RefusedFull ==> SameBatches(prepared, files) && SameSize(prepared, files))
                     && (r.Queued? ==> HoldsAt(files, if CircuitAfter(old(stateFile), old(legacy)).Some? then HeldDir else PendingDir, r.name, Batch(payload)))
                   else if outcome.Posted? then r == Delivered
                   else
                     && (others == [] ==> later.files == old(files))
                     && (r == RefusedFull <==> FullFor(later, payload, limits))
                     && (r.Queued? ==> StoredIn(files, r.name, payload, outcome))
    {
      hide NothingPending, Kept, UniqueNames, Has, LegacySafe, HoldsAt, Present, Spends, Room, Explains, Accounts, Requests, Exceeds, HoldsAny, CircuitAfter, AllInTime, AllLogged, FullFor, Gathered, SameSize, SameBatches, StoredIn, ClearFor, ClearIn, ReadableState;
      r, answers, log, prepared, later := NothingToShip, [], [], files, Snapshot();
      NoRequestsAtAll();
      ghost var queue0, room := Snapshot(), |others| + 3;
      ghost var ready := ShipReady(queue0, now, others, after, clocks);
      NoneLogged(others);
      if payload.records == 0 {
        SpendsNothing(queue0);
        SpendsMore(queue0, queue0, 1, room);
        if ready {
          NothingExplained(queue0);
          KeptItself(files);
        }
        return;
      }
      if ready { RoomyFor(queue0, room, now, clocks); }
      var blocked;
      ghost var name;
      blocked, name, prepared := QueueIfBlocked(payload, limits, now);
      ghost var queue1 := Snapshot();
      SpendsMore(queue0, queue1, 1, room);
      if ready {
        HeldMeansHas(files, Destination(blocked, false), name, Batch(payload));
        log := LogOf(queue0, queue1, (blocked == Saved || blocked == HeldBack) && life > 0, name, payload);
        LoggedMore(others, [], [], log);
      }
      if blocked != Clear {
        r := Answered(blocked, name);
        return;
      }
      if ready { ReadyFor(queue0, log, queue1, 1, room, |others| + 2, clocks); }
      ghost var more;
      r, answers, more, later := PostDirectly(payload, limits, others, outcome, after, clocks);
      SpendsThen(queue0, queue1, Snapshot(), 1, |others| + 2);
      if ready {
        ExplainsThen(queue0, log, queue1, more, Snapshot());
        LoggedMore(others, answers, more, log + more);
      }
      RequestsThen(log, more);
      log := log + more;
    }

    /** A queue with room for a ship, the sections it may wait for, and their clock readings. */
    static ghost predicate ShipReady(q: Queue, now: nat, others: seq<Section>, after: nat, clocks: set<nat>) {
      AllInTime(others, clocks) && now in clocks && after in clocks && UniqueNames(q.files) && Room(q, |others| + 3, clocks)
    }

    /** Posts a batch past the clear queue while others use it, and stores it when the post fails. */
    method PostDirectly(payload: Payload, limits: Limits, others: seq<Section>, outcome: PostOutcome, after: nat, ghost clocks: set<nat>)
      returns (ghost r: ShipResult, ghost answers: seq<Answer>, ghost log: seq<QueueEvent>, ghost later: Queue)
      requires ValidLimits(limits)
      modifies this
      ensures life <= old(life)
      ensures r.ShipDied? <==> old(life) == 0
      ensures if r.ShipDied? then life == 0
              else if outcome.Posted? then r == Delivered
              else r.Queued? || r == RefusedFull
      ensures others == [] ==> later == old(Snapshot())
      ensures Requests(log) == []
      ensures Spends(old(Snapshot()), Snapshot(), |others| + 2)
      ensures AllInTime(others, clocks) && after in clocks && old(Valid()) && old(Room(Snapshot(), |others| + 2, clocks)) ==>
                && Explains(old(Snapshot()), log, Snapshot()) && AllLogged(others, answers, log)
                && (life > 0 && !outcome.Posted? ==> (r == RefusedFull <==> FullFor(later, payload, limits)))
                && (life > 0 && r.Queued? ==> Stored(r.name, payload) in log && StoredIn(files, r.name, payload, outcome))
    {
      hide UniqueNames, Has, HoldsAt, Spends, Room, Explains, Requests, AllInTime, AllLogged, FullFor, StoredIn;
      ghost var queue0, room := Snapshot(), |others| + 2;
      ghost var ready := AllInTime(others, clocks) && after in clocks && Valid() && Room(queue0, room, clocks);
      answers, log, later := [], [], queue0;
      var alive := Tick();
      if !alive {
        r := ShipDied;
        NoRequestsAtAll();
        NoneLogged(others);
        SpendsNothingAtAll(queue0);
        SpendsMore(queue0, queue0, 0, room);
        if ready { NothingExplained(queue0); }
        return;
      }
      if ready { LessRoom(queue0, room, clocks, |others|, clocks); }
      answers, log := RunSections(others, clocks);
      later := Snapshot();
      if outcome.Posted? {
        SpendsMore(queue0, later, |others|, room);
        r := Delivered;
        return;
      }
      if ready { ReadyFor(queue0, log, later, |others|, room, 2, clocks); }
      ghost var more, prepared;
      r, more, prepared := StoreUndelivered(payload, limits, outcome, after, clocks);
      SpendsThen(queue0, later, Snapshot(), |others|, 2);
      if ready {
        ExplainsThen(queue0, log, later, more, Snapshot());
        LoggedMore(others, answers, log, log + more);
      }
      RequestsThen(log, more);
      log := log + more;
    }

    /** Keeps a batch whose direct post failed: a pause holds the queue first, a rejection goes to quarantine. */
    method StoreUndelivered(payload: Payload, limits: Limits, outcome: PostOutcome, now: nat, ghost clocks: set<nat>)
      returns (ghost r: ShipResult, ghost log: seq<QueueEvent>, ghost prepared: Files)
      requires !outcome.Posted?
      modifies this
      ensures life <= old(life)
      ensures r.Queued? || r == RefusedFull || r == ShipFailed
      ensures r == ShipFailed <==> !ValidLimits(limits)
      ensures ValidLimits(limits) && Exceeds(prepared, payload, limits) ==> r == RefusedFull
      ensures ValidLimits(limits) && !outcome.PausePost? ==>
                (r == RefusedFull <==> ReadableState(old(stateFile)).queueFull || Exceeds(prepared, payload, limits))
      ensures Requests(log) == []
      ensures Spends(old(Snapshot()), Snapshot(), 2)
      ensures now in clocks && old(Valid()) && old(Room(Snapshot(), 2, clocks)) ==>
                && Explains(old(Snapshot()), log, Snapshot())
                && (life > 0 && ValidLimits(limits) ==> (r == RefusedFull <==> FullFor(old(Snapshot()), payload, limits)))
                && (life > 0 && r.Queued? ==> Stored(r.name, payload) in log && StoredIn(files, r.name, payload, outcome))
    {
      hide NothingPending, Kept, UniqueNames, Has, LegacySafe, HoldsAt, Present, Spends, Room, Explains, Accounts, Requests, Exceeds, FullFor, Gathered, SameSize, SameBatches, ReadableState;
      log := [];
      NoRequestsAtAll();
      ghost var queue0 := Snapshot();
      ghost var ready := now in clocks && Valid() && Room(queue0, 2, clocks);
      if ready {
        RoomyFor(queue0, 2, now, clocks);
        LegacyUntouched(legacy, files);
        KeptItself(files);
      }
      SpendsNothing(queue0);
      if outcome.PausePost? {
        NotBlank();
        PauseSpool("remote_delivery_paused", now);
      }
      ghost var queue1 := Snapshot();
      if outcome.PausePost? && life > 0 { HeldQueueHasCircuit(stateFile, legacy); }
      if ready {
        log := LogOf(queue0, queue1, false, Numbered(0), payload);
        ReadyFor(queue0, log, queue1, 1, 2, 1, clocks);
        RoomyFor(queue1, 1, now, clocks);
        if outcome.PausePost? && life > 0 { GatheredIsAsFull(queue0, queue1, payload, limits); }
      }
      var saved;
      ghost var name;
      saved, name, prepared := Save(payload, limits, now, if outcome.RejectPost? then 1 else 0, outcome.RejectPost?);
      SpendsThen(queue0, queue1, Snapshot(), 1, 1);
      r := Answered(saved, name);
      ghost var stored := r.Queued? && life > 0;
      ghost var more := [];
      if ready {
        HeldMeansHas(files, Destination(saved, outcome.RejectPost?), name, Batch(payload));
        more := LogOf(queue1, Snapshot(), stored, name, payload);
        ExplainsThen(queue0, log, queue1, more, Snapshot());
      }
      RequestsThen(log, more);
      log := log + more;
    }

    static lemma HeldQueueHasCircuit(stateFile: StateFile, legacy: Legacy)
      requires stateFile.SavedState? && stateFile.state.circuit.Some?
      ensures CircuitAfter(stateFile, legacy).Some?
    {
    }

    // ---------- Runs of processes ----------

    static function Cost(p: Process): nat {
      match p
      case Locked(_) => 1
      case Ships(_, _, _, _, others, _, _) => |others| + 3
      case Flushes(_, _, turns) => FlushCost(turns)
    }

    static function TotalCost(processes: seq<Process>): nat
      decreases |processes|
    {
      if processes == [] then 0 else TotalCost(processes[..|processes| - 1]) + Cost(processes[|processes| - 1])
    }

    static predicate ProcessInTime(p: Process, clocks: set<nat>) {
      match p
      case Locked(section) => InTime(section, clocks)
      case Ships(_, _, _, now, others, _, after) => now in clocks && after in clocks && AllInTime(others, clocks)
      case Flushes(_, _, turns) => TurnsInTime(turns, clocks)
    }

    static predicate AllProcessesInTime(processes: seq<Process>, clocks: set<nat>) {
      forall i | 0 <= i < |processes| :: ProcessInTime(processes[i], clocks)
    }

    /** What a process sent: a replay one request a turn, ending as the turn says and within its permit, others nothing. */
    static predicate Sent(p: Process, report: Report, requests: seq<QueueEvent>) {
      match p
      case Locked(_) => report.SectionReport? && requests == []
      case Ships(_, _, _, _, _, _, _) => report.ShipReport? && requests == []
      case Flushes(_, permit, turns) =>
        && report.FlushReport? && AreEntries(requests) && AnswerTurns(requests, turns)
        && report.result == Tally(requests)
        && if report.refused then !ValidPermit(permit) && requests == [] else ValidPermit(permit) && WithinPermit(report.result, permit)
    }

    /** Every batch that the process, or a section it waited for, accepted is in its log. */
    static predicate ProcessLogged(p: Process, report: Report, log: seq<QueueEvent>) {
      match (p, report)
      case (Locked(section), SectionReport(answer)) => Logged(section, answer, log)
      case (Ships(_, payload, _, _, others, _, _), ShipReport(r, left, answers)) =>
        AllLogged(others, answers, log) && (r.Queued? && left > 0 ==> Stored(r.name, payload) in log)
      case (Flushes(_, _, turns), FlushReport(_, _, answers)) => TurnsLogged(turns, answers, log)
      case _ => false
    }

    /** The process itself resumes nothing and loses no state file, and neither do those it waits for. */
    static predicate ProcessKeepsClosed(p: Process) {
      match p
      case Locked(section) => KeepsClosed(section)
      case Ships(_, _, _, _, _, _, _) => true
      case Flushes(_, _, turns) => AllTurnsQuiet(turns)
    }

    /** A process that found the queue closed delivered nothing past it, and left it closed or without a state file. */
    static predicate FoundClosed(p: Process, before: StateFile, report: Report, after: StateFile) {
      ProcessKeepsClosed(p) && Closed(before) ==>
        (Closed(after) <==> after != NoStateFile) && (report.ShipReport? ==> report.r != Delivered)
    }

    method RunProcess(p: Process, ghost clocks: set<nat>) returns (ghost report: Report, ghost log: seq<QueueEvent>)
      modifies this
      ensures Spends(old(Snapshot()), Snapshot(), Cost(p))
      ensures Sent(p, report, Requests(log))
      ensures FoundClosed(p, old(stateFile), report, stateFile)
      ensures ProcessInTime(p, clocks) && old(Valid()) && old(Room(Snapshot(), Cost(p), clocks)) ==>
                Explains(old(Snapshot()), log, Snapshot()) && ProcessLogged(p, report, log)
    {
      hide UniqueNames, Spends, Room, Explains, Requests, FlushCost, TurnsInTime, AllInTime, AllLogged, Logged, TurnsLogged;
      hide HoldsAt, Has, ClearFor, ClearIn, FullFor, Exceeds, Gathered, SameSize, SameBatches, Kept, QueueStop, AnswerTurns, AreEntries, Tally, WithinPermit, Answers, StoredIn;
      if ProcessInTime(p, clocks) && Valid() && Room(Snapshot(), Cost(p), clocks) {
        LessRoom(Snapshot(), Cost(p), clocks, 0, clocks);
      }
      match p {
        case Locked(section) =>
          ghost var answer;
          answer, log := RunSection(section, clocks);
          report := SectionReport(answer);
        case Ships(given, payload, limits, now, others, outcome, after) =>
          life := given;
          ghost var r, answers, prepared, later;
          r, answers, log, prepared, later := ShipWithSpool(payload, limits, now, others, outcome, after, clocks);
          report := ShipReport(r, life, answers);
        case Flushes(given, permit, turns) =>
          life := given;
          var result, refused;
          ghost var answers, stop;
          result, refused, answers, log, stop := FlushSpool(permit, turns, clocks);
          NoRequestsAtAll();
          report := FlushReport(result, refused, answers);
      }
    }

    /**
     Any run of processes: captures, replays, saves, holds and resumes, each dying where its life
     ends, with the state file lost or broken at any time. Each process has a segment of the run's
     log, with what it sent and every batch that was accepted. From a queue with room for the names
     the run may take, the log accounts for every batch: each one that was there, stored or taken
     over stays in exactly one directory until a replay's own post of it succeeded.
     */
    method RunProcesses(processes: seq<Process>, ghost clocks: set<nat>)
      returns (ghost reports: seq<Report>, ghost logs: seq<seq<QueueEvent>>, ghost states: seq<StateFile>)
      modifies this
      ensures |reports| == |logs| == |processes| && |states| == |processes| + 1
      ensures states[0] == old(stateFile) && states[|processes|] == stateFile
      ensures forall i | 0 <= i < |processes| :: FoundClosed(processes[i], states[i], reports[i], states[i + 1])
      ensures Spends(old(Snapshot()), Snapshot(), TotalCost(processes))
      ensures forall i | 0 <= i < |processes| :: Sent(processes[i], reports[i], Requests(logs[i]))
      ensures AllProcessesInTime(processes, clocks) && old(Valid()) && old(Room(Snapshot(), TotalCost(processes), clocks)) ==>
                && Explains(old(Snapshot()), Joined(logs), Snapshot())
                && forall i | 0 <= i < |processes| :: ProcessLogged(processes[i], reports[i], logs[i])
    {
      hide FoundClosed, UniqueNames, Spends, Room, Explains, Requests, ProcessInTime, Cost, TotalCost, Sent, ProcessLogged, Joined;
      reports, logs, states := [], [], [stateFile];
      NothingJoined();
      SpendsNothingAtAll(Snapshot());
      ghost var total := TotalCost(processes);
      ghost var ready := AllProcessesInTime(processes, clocks) && Valid() && Room(Snapshot(), total, clocks);
      if ready { NothingExplained(Snapshot()); }
      ghost var spent := 0;
      NoCost();
      for i := 0 to |processes|
        invariant spent == TotalCost(processes[..i])
        invariant |reports| == |logs| == i && |states| == i + 1 && states[0] == old(stateFile) && states[i] == stateFile
        invariant forall j | 0 <= j < i :: FoundClosed(processes[j], states[j], reports[j], states[j + 1])
        invariant Spends(old(Snapshot()), Snapshot(), spent)
        invariant forall j | 0 <= j < i :: Sent(processes[j], reports[j], Requests(logs[j]))
        invariant ready ==> Explains(old(Snapshot()), Joined(logs), Snapshot())
        invariant ready ==> forall j | 0 <= j < i :: ProcessLogged(processes[j], reports[j], logs[j])
      {
        ProcessCost(processes, i);
        ghost var queue0, cost := Snapshot(), Cost(processes[i]);
        if ready { ReadyFor(old(Snapshot()), Joined(logs), queue0, spent, total, cost, clocks); }
        ghost var report, more;
        report, more := RunProcess(processes[i], clocks);
        SpendsThen(old(Snapshot()), queue0, Snapshot(), spent, cost);
        if ready { ExplainsThen(old(Snapshot()), Joined(logs), queue0, more, Snapshot()); }
        JoinedMore(logs, more);
        spent, reports, logs, states := spent + cost, reports + [report], logs + [more], states + [stateFile];
      }
      assert processes[..|processes|] == processes;
    }

    /**
     Once a queue is closed nothing is delivered past it, and it stays closed, over every run in
     which no operator resumes it and no state file goes missing.
     */
    static lemma {:induction false} ClosedUntilResumed(processes: seq<Process>, reports: seq<Report>, states: seq<StateFile>, n: nat)
      requires |reports| == |processes| && |states| == |processes| + 1 && n <= |processes|
      requires forall i | 0 <= i < |processes| :: FoundClosed(processes[i], states[i], reports[i], states[i + 1])
      requires forall i | 0 <= i < |processes| :: ProcessKeepsClosed(processes[i])
      requires Closed(states[0]) && NoStateFile !in states
      ensures Closed(states[n]) && forall i | 0 <= i < n && reports[i].ShipReport? :: reports[i].r != Delivered
      decreases n
    {
      hide Closed, ProcessKeepsClosed;
      if n > 0 {
        ClosedUntilResumed(processes, reports, states, n - 1);
        assert FoundClosed(processes[n - 1], states[n - 1], reports[n - 1], states[n]);
        assert states[n] in states;
      }
    }

    static lemma NothingJoined()
      ensures Joined([]) == []
    {
    }

    static lemma NoCost()
      ensures TotalCost([]) == 0
    {
    }

    static lemma {:induction false} ProcessCost(processes: seq<Process>, i: nat)
      requires i < |processes|
      ensures TotalCost(processes[..i]) + Cost(processes[i]) == TotalCost(processes[..i + 1]) <= TotalCost(processes)
      decreases |processes|
    {
      hide Cost;
      assert processes[..i + 1][..i] == processes[..i];
      if i == |processes| - 1 {
        assert processes[..i + 1] == processes;
      } else {
        var front := processes[..|processes| - 1];
        ProcessCost(front, i);
        assert front[..i] == processes[..i] && front[..i + 1] == processes[..i + 1];
      }
    }
  }
}
