/**
 The files of the capture spool: three directories of batches under names that are never
 shared, and what moving, rewriting, adding and removing one file does to the batches.
 */
module SpoolFiles {
  import opened Wrappers
  import opened Protocol

  /** `000000000000042.json`, or the dated name a broken legacy file is quarantined under. */
  datatype FileName = Numbered(n: nat) | Dated(stamp: nat, legacy: nat)

  datatype Directory = PendingDir | HeldDir | QuarantineDir

  datatype Location = Location(dir: Directory, name: FileName)

  datatype Payload = Payload(text: string, records: nat)

  datatype Mark = NoMark | RetryMark | PauseMark | RejectMark

  datatype EntryFile =
    | Entry(payload: Payload, encodedBytes: nat, recordCount: nat, attempts: nat, mark: Mark)
    | Undecodable(bytes: string)

  type Files = map<Location, EntryFile>

  /** What a file is kept for: its batch, or its raw bytes. */
  datatype Content = Batch(payload: Payload) | RawBytes(bytes: string)

  function ContentOf(e: EntryFile): Content {
    match e case Entry(payload, _, _, _, _) => Batch(payload) case Undecodable(bytes) => RawBytes(bytes)
  }

  predicate In(files: Files, d: Directory, name: FileName) {
    Location(d, name) in files
  }

  predicate HoldsAt(files: Files, d: Directory, name: FileName, c: Content) {
    In(files, d, name) && ContentOf(files[Location(d, name)]) == c
  }

  /** Some directory holds `c` under `name`. */
  predicate Has(files: Files, name: FileName, c: Content) {
    HoldsAt(files, PendingDir, name, c) || HoldsAt(files, HeldDir, name, c) || HoldsAt(files, QuarantineDir, name, c)
  }

  predicate Present(files: Files, name: FileName) {
    In(files, PendingDir, name) || In(files, HeldDir, name) || In(files, QuarantineDir, name)
  }

  predicate Once(files: Files, name: FileName) {
    && !(In(files, PendingDir, name) && In(files, HeldDir, name))
    && !(In(files, PendingDir, name) && In(files, QuarantineDir, name))
    && !(In(files, HeldDir, name) && In(files, QuarantineDir, name))
  }

  ghost predicate UniqueNames(files: Files) {
    forall name :: Once(files, name)
  }

  /** The same batches under the same names, in whatever directories. */
  ghost predicate SameBatches(files: Files, files': Files) {
    forall name, c :: Has(files, name, c) <==> Has(files', name, c)
  }

  /** No batch is lost or overwritten. */
  ghost predicate Kept(files: Files, files': Files) {
    UniqueNames(files') && forall name, c :: Has(files, name, c) ==> Has(files', name, c)
  }

  /** No batch but that of `gone` is lost or overwritten. */
  ghost predicate KeptExcept(files: Files, files': Files, gone: FileName) {
    UniqueNames(files') && forall name, c :: Has(files, name, c) && name != gone ==> Has(files', name, c)
  }

  /** No name that was not there before. */
  ghost predicate NoNewNames(files: Files, files': Files) {
    forall l | l in files' :: Present(files, l.name)
  }

  lemma NothingNew(files: Files)
    ensures NoNewNames(files, files)
  {
    forall l | l in files ensures Present(files, l.name) {
      match l.dir
      case PendingDir => assert In(files, PendingDir, l.name);
      case HeldDir => assert In(files, HeldDir, l.name);
      case QuarantineDir => assert In(files, QuarantineDir, l.name);
    }
  }

  lemma MoveNamesNothing(files: Files, name: FileName, from: Directory, to: Directory)
    ensures NoNewNames(files, Move(files, name, from, to))
  {
    NothingNew(files);
  }

  lemma NoNewNamesThen(a: Files, b: Files, c: Files)
    requires NoNewNames(a, b) && NoNewNames(b, c)
    ensures NoNewNames(a, c)
  {
  }

  function Move(files: Files, name: FileName, from: Directory, to: Directory): Files {
    if In(files, from, name) then (files - {Location(from, name)})[Location(to, name) := files[Location(from, name)]] else files
  }

  lemma MoveKeeps(files: Files, name: FileName, from: Directory, to: Directory)
    requires UniqueNames(files) && from != to
    ensures UniqueNames(Move(files, name, from, to)) && SameBatches(files, Move(files, name, from, to))
  {
    hide ContentOf;
    var files' := Move(files, name, from, to);
    assert Once(files, name);
    forall n ensures Once(files', n) {
      assert Once(files, n);
    }
    forall n, c ensures Has(files, n, c) <==> Has(files', n, c) {
      assert n != name ==> (HoldsAt(files, PendingDir, n, c) <==> HoldsAt(files', PendingDir, n, c));
    }
  }

  /** Writing under an unused name adds exactly one batch. */
  lemma WriteKeeps(files: Files, d: Directory, name: FileName, e: EntryFile)
    requires UniqueNames(files) && !Present(files, name)
    ensures var files' := files[Location(d, name) := e];
            && Kept(files, files') && Has(files', name, ContentOf(e))
  {
    hide ContentOf;
    var files' := files[Location(d, name) := e];
    forall n ensures Once(files', n) {
      assert Once(files, n);
    }
    assert HoldsAt(files', d, name, ContentOf(e));
    forall n, c | Has(files, n, c) ensures Has(files', n, c) {
      assert n != name;
    }
  }

  /** Rewriting a file in place with the same batch keeps every batch. */
  lemma RewriteKeeps(files: Files, d: Directory, name: FileName, e: EntryFile)
    requires UniqueNames(files) && HoldsAt(files, d, name, ContentOf(e))
    ensures var files' := files[Location(d, name) := e]; Kept(files, files') && SameBatches(files, files')
  {
    hide ContentOf;
    var files' := files[Location(d, name) := e];
    forall n ensures Once(files', n) {
      assert Once(files, n);
    }
    forall n, c ensures Has(files, n, c) <==> Has(files', n, c) {
      assert n != name ==> (HoldsAt(files, PendingDir, n, c) <==> HoldsAt(files', PendingDir, n, c));
    }
  }

  lemma RemoveKeeps(files: Files, d: Directory, name: FileName)
    requires UniqueNames(files)
    ensures KeptExcept(files, files - {Location(d, name)}, name)
  {
    hide ContentOf;
    var files' := files - {Location(d, name)};
    forall n ensures Once(files', n) {
      assert Once(files, n);
    }
  }

  /**
   Setting bytes that are no batch aside keeps what was there exactly when their dated name is
   unused, or quarantine already holds the same bytes under it.
   */
  lemma SettingAsideKeeps(files: Files, name: FileName, bytes: string)
    requires UniqueNames(files)
    ensures var files' := files[Location(QuarantineDir, name) := Undecodable(bytes)];
            Kept(files, files') <==> (Present(files, name) ==> HoldsAt(files, QuarantineDir, name, RawBytes(bytes)))
  {
    hide UniqueNames, Has;
    var e := Undecodable(bytes);
    var files' := files[Location(QuarantineDir, name) := e];
    if !Present(files, name) {
      WriteKeeps(files, QuarantineDir, name, e);
    } else if HoldsAt(files, QuarantineDir, name, RawBytes(bytes)) {
      RewriteKeeps(files, QuarantineDir, name, e);
    } else {
      OverwritingLoses(files, name, e);
    }
  }

  /** Two broken legacy files of one name set aside in one instant leave only the second one's bytes. */
  lemma TwoJunkFilesInOneInstant(stamp: nat, legacy: nat, first: string, second: string)
    requires first != second
    ensures var name := Dated(stamp, legacy);
            var files: Files := map[Location(QuarantineDir, name) := Undecodable(first)];
            && UniqueNames(files) && Has(files, name, RawBytes(first))
            && !Has(files[Location(QuarantineDir, name) := Undecodable(second)], name, RawBytes(first))
            && !Kept(files, files[Location(QuarantineDir, name) := Undecodable(second)])
  {
    var name := Dated(stamp, legacy);
    var files: Files := map[Location(QuarantineDir, name) := Undecodable(first)];
    forall n ensures Once(files, n) {
    }
    SettingAsideKeeps(files, name, second);
  }

  lemma OverwritingLoses(files: Files, name: FileName, e: EntryFile)
    requires UniqueNames(files) && Present(files, name) && !HoldsAt(files, QuarantineDir, name, ContentOf(e))
    ensures !Kept(files, files[Location(QuarantineDir, name) := e])
  {
    hide ContentOf;
    var files' := files[Location(QuarantineDir, name) := e];
    if In(files, QuarantineDir, name) {
      var c := ContentOf(files[Location(QuarantineDir, name)]);
      assert Once(files, name);
      assert Has(files, name, c) && !Has(files', name, c);
    } else {
      assert !Once(files', name);
    }
  }

  lemma KeptThen(a: Files, b: Files, c: Files)
    requires Kept(a, b) && Kept(b, c)
    ensures Kept(a, c)
  {
    hide Has, Once;
  }

  lemma SameIsKept(a: Files, b: Files)
    requires UniqueNames(b) && SameBatches(a, b)
    ensures Kept(a, b)
  {
    hide Has, Once;
  }

  // ---------- Allocation ----------

  /** Every sequence number a safe-integer file name carries is below `next`. */
  predicate AboveAll(files: Files, next: int) {
    forall l | l in files :: l.name.Numbered? && l.name.n <= MAX_SAFE_INTEGER ==> l.name.n < next
  }

  lemma StillAboveAll(files: Files, files': Files, next: int)
    requires AboveAll(files, next) && NoNewNames(files, files')
    ensures AboveAll(files', next)
  {
  }

  /** `state.nextSequence += 1` on a double: the increment is lost above the safe integers. */
  function Increment(next: int): int {
    if next > MAX_SAFE_INTEGER then next else next + 1
  }

  /**
   A newly allocated name is unused exactly while the counter has not run past the safe
   integers onto a name that is already there.
   */
  lemma AllocationIsFresh(files: Files, next: nat)
    requires AboveAll(files, next) && next <= MAX_SAFE_INTEGER + 1
    ensures Present(files, Numbered(next)) <==> next > MAX_SAFE_INTEGER && Present(files, Numbered(MAX_SAFE_INTEGER + 1))
  {
    assert forall d :: Location(d, Numbered(next)) in files ==> Location(d, Numbered(next)).name.n == next;
  }

  /** Beyond the safe integers two allocations in a row give one name, and the first batch is lost. */
  lemma BeyondSafeIntegersBatchesAreLost(files: Files, d: Directory, next: nat, first: EntryFile, second: EntryFile)
    requires UniqueNames(files) && !Present(files, Numbered(next)) && !Present(files, Numbered(next + 1))
    requires ContentOf(first) != ContentOf(second)
    ensures var one := files[Location(d, Numbered(next)) := first];
            var two := one[Location(d, Numbered(Increment(next))) := second];
            Kept(one, two) <==> next <= MAX_SAFE_INTEGER
  {
    hide ContentOf, UniqueNames;
    var name := Numbered(next);
    var one := files[Location(d, name) := first];
    var two := one[Location(d, Numbered(Increment(next))) := second];
    WriteKeeps(files, d, name, first);
    if next <= MAX_SAFE_INTEGER {
      assert !Present(one, Numbered(next + 1));
      WriteKeeps(one, d, Numbered(next + 1), second);
    } else {
      assert Has(one, name, ContentOf(first));
      assert !Has(two, name, ContentOf(first));
    }
  }

  // ---------- Bounds ----------

  function SizeOf(e: EntryFile): nat {
    match e case Entry(_, encodedBytes, _, _, _) => encodedBytes case Undecodable(bytes) => |bytes|
  }

  ghost function TotalBytes(files: Files): nat
    decreases |files|
  {
    if files == map[] then 0
    else
      var l :| l in files;
      SizeOf(files[l]) + TotalBytes(files - {l})
  }

  lemma {:induction false} TotalWithout(files: Files, l: Location)
    requires l in files
    ensures TotalBytes(files) == SizeOf(files[l]) + TotalBytes(files - {l})
    decreases |files|
  {
    hide SizeOf;
    var k := FirstOf(files);
    if k != l {
      TotalWithout(files - {k}, l);
      TotalWithout(files - {l}, k);
      assert files - {k} - {l} == files - {l} - {k};
    }
  }

  /** The location the definition of `TotalBytes` picks. */
  lemma FirstOf(files: Files) returns (k: Location)
    requires files != map[]
    ensures k in files && TotalBytes(files) == SizeOf(files[k]) + TotalBytes(files - {k})
  {
    k :| k in files && TotalBytes(files) == SizeOf(files[k]) + TotalBytes(files - {k});
  }

  lemma TotalWith(files: Files, l: Location, e: EntryFile)
    requires l !in files
    ensures TotalBytes(files[l := e]) == TotalBytes(files) + SizeOf(e)
    ensures |files[l := e]| == |files| + 1
  {
    TotalWithout(files[l := e], l);
    assert files[l := e] - {l} == files;
  }

  /** As many files, with as many bytes. */
  ghost predicate SameSize(a: Files, b: Files) {
    |a| == |b| && TotalBytes(a) == TotalBytes(b)
  }

  /** Moving a file changes neither the number of files nor their bytes. */
  lemma MoveKeepsSize(files: Files, name: FileName, from: Directory, to: Directory)
    requires UniqueNames(files) && from != to
    ensures SameSize(files, Move(files, name, from, to))
  {
    hide TotalBytes, SizeOf;
    if In(files, from, name) {
      var source, target := Location(from, name), Location(to, name);
      assert Once(files, name);
      var rest := files - {source};
      assert rest[source := files[source]] == files;
      TotalWith(rest, source, files[source]);
      TotalWith(rest, target, files[source]);
    }
  }

  lemma MoveNoMore(files: Files, name: FileName, from: Directory, to: Directory)
    ensures |Move(files, name, from, to)| <= |files|
  {
    if In(files, from, name) {
      var rest, target := files - {Location(from, name)}, Location(to, name);
      assert |rest| == |files| - 1;
      assert rest[target := files[Location(from, name)]].Keys == rest.Keys + {target};
    }
  }

  lemma WriteOneMore(files: Files, l: Location, e: EntryFile)
    ensures |files[l := e]| <= |files| + 1
  {
    assert files[l := e].Keys == files.Keys + {l};
  }
}
