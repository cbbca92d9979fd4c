/** Runs that leave each of the states from which recovery never completes, starting from an ordinary installation. */
module Witnesses {
  import opened Text
  import opened Precedence
  import opened Sorting
  import opened Tree
  import opened Records
  import opened World
  import opened Maintenance
  import opened History
  import opened Sizes

  // ---------------------------------------------------------------- an installation

  function Repeat(c: char, n: nat): string { seq(n, _ => c) }

  function ExamplePointer(c: char): Pointer {
    Pointer("1.0.0", Repeat(c, 40), Repeat(c, 64), Repeat(c, 64))
  }

  function ExampleRelease(c: char): Release {
    Release(ExamplePointer(c), "streamskope:1.0.0", "sha256:" + Repeat(c, 64), LocalStaged, CONTRACT, true,
            "streamskope-1.0.0.clab.yml")
  }

  function ExampleOwner(home: string): Owner { Owner(1000, 1000, home, 1000, 8080) }

  function ExampleContainer(): Container { Container(Repeat('a', 64), ExampleRelease('a'), "", 0, Running) }

  const NONCE := "00000000-0000-0000-0000-000000000000"

  /** Release `a` runs, release `b` was there before it, nothing is going on. */
  function Installation(home: string, data: Snapshot, lock: Lease): World {
    World(CanonicalBytes(Record2(ExamplePointer('a'), Some(ExamplePointer('b')), ExampleOwner(home))),
          None, Some(ExampleContainer()), data, Some(lock), map[], {})
  }

  function RollbackHeader(home: string, data: Snapshot, lock: Lease): Header {
    FreshHeader(Rollback, Installation(home, data, lock), ExampleRelease('a'), ExampleRelease('b'),
                ExampleContainer(), lock, NONCE)
  }

  lemma ExampleVersion()
    ensures VersionPattern("1.0.0")
  {
    SplitConcat("0", '.', "0");
    SplitConcat("1", '.', "0.0");
    SplitPiece("0", '.');
    SplitPiece("1", '.');
    assert "0" + ['.'] + "0" == "0.0" && "1" + ['.'] + "0.0" == "1.0.0";
    PartitionParts("1.0.0", '-');
  }

  lemma ExampleOk(c: char)
    requires IsHexDigit(c)
    ensures PointerOk(ExamplePointer(c)) && ReleaseOk(ExampleRelease(c))
  {
    hide VersionPattern;
    ExampleVersion();
    var id := "sha256:" + Repeat(c, 64);
    assert id[7..] == Repeat(c, 64) && id[..7] == "sha256:";
  }

  lemma InstallationOk(home: string, data: Snapshot, lock: Lease)
    requires OwnerOk(ExampleOwner(home))
    ensures Inv(Installation(home, data, lock)) && HeaderInv(RollbackHeader(home, data, lock))
  {
    hide PointerOk, ReleaseOk, OwnerOk, HeaderInv;
    ExampleOk('a');
    ExampleOk('b');
    assert ExamplePointer('a').sourceRevision[0] != ExamplePointer('b').sourceRevision[0];
    assert DockerOk(ExampleContainer()) && IsUuid(NONCE);
    var w := Installation(home, data, lock);
    FreshHeaderInv(Rollback, w, ExampleRelease('a'), ExampleRelease('b'), ExampleContainer(), lock, NONCE);
  }

  // ---------------------------------------------------------------- calm runs, one phase after another

  /** Nothing but the command's own steps, answered as they should be, from a world without a transaction. */
  ghost predicate IsCalm(run: Run) { IsRun(run) && CalmRun(run) && Origin(run).journal.None? }

  /** All that the command checks before it journals `h`; and the container can be stopped, or has stopped. */
  ghost predicate MayJournal(w: World, h: Header) {
    && Inv(w) && w.journal.None? && HeaderInv(h) && h.transaction !in w.transactions
    && MayBegin(w, h.operation, h.from, h.to) && w.container.value.state in {Running, Exited(true)}
    && h == FreshHeader(h.operation, w, h.from, h.to, w.container.value, w.lock.value, h.transaction)
  }

  /** A calm run from `w` in which `h` was journaled has left this journal, and the data as they were. */
  ghost predicate Leaves(w: World, h: Header, run: Run, j: Journal) {
    IsCalm(run) && Origin(run) == w && Last(run).journal == Some(j) && j.header == h && Last(run).data == w.data
  }

  lemma CalmThen(run: Run, next: World)
    requires IsCalm(run) && Inv(next) && Helpful(Last(run), next)
    ensures IsCalm(Then(run, true, next)) && Origin(Then(run, true, next)) == Origin(run)
  {
    hide Inv, OurStep;
    assert OurStep(Last(run), next) by { HelpfulIsOurs(Last(run), next); }
  }

  lemma HelpfulIsOurs(a: World, b: World)
    requires Helpful(a, b)
    ensures OurStep(a, b)
  {
    hide OurStep;
  }

  lemma Begins(w: World, h: Header) returns (run: Run)
    requires MayJournal(w, h)
    ensures Leaves(w, h, run, FreshJournal(h))
  {
    hide HeaderInv, Helpful;
    var j := FreshJournal(h);
    BeginKeepsInv(w, j);
    var next := w.(journal := Some(j), transactions := w.transactions + {h.transaction});
    BeginIsHelpful(w, next);
    run := Then(Start(w), true, next);
    assert IsRun(Start(w)) && CalmRun(Start(w));
    CalmThen(Start(w), next);
  }

  lemma BeginIsHelpful(a: World, b: World)
    requires BeginStep(a, b) && CanStop(b, b.journal.value) && b.lock == Some(b.journal.value.header.lease)
    ensures Helpful(a, b)
  {
    hide MaySelect;
  }

  lemma Stops(w: World, h: Header, run: Run, j: Journal) returns (stopped: Run)
    requires Leaves(w, h, run, j) && j.phase == Intent
    ensures Leaves(w, h, stopped, j.(phase := Stopped))
  {
    hide Helpful, HeaderInv, JournalOk, RecordOk;
    CalmRunStaysCalm(run);
    stopped := Halts(run, j);
    var halted := Last(stopped);
    StoppedMayBeSaved(halted, j);
    var next := halted.(journal := Some(j.(phase := Stopped)));
    SaveIsHelpful(halted, next);
    CalmThen(stopped, next);
    stopped := Then(stopped, true, next);
  }

  lemma Halts(run: Run, j: Journal) returns (halted: Run)
    requires IsCalm(run) && Calm(Last(run)) && Last(run).journal == Some(j) && j.phase == Intent
    ensures IsCalm(halted) && Origin(halted) == Origin(run)
    ensures Last(halted) == Last(run).(container := Last(halted).container) && Last(halted).container.Some?
            && HasStopped(Last(halted).container.value, j)
  {
    hide Helpful, HeaderInv, JournalOk, RecordOk;
    var w := Last(run);
    assert Unswitched(w, j) && CanStop(w, j);
    halted := run;
    if w.container.value.state == Running {
      var next := w.(container := Some(w.container.value.(state := Exited(true))));
      StopIsHelpful(w, j);
      CalmThen(run, next);
      halted := Then(run, true, next);
    }
  }

  lemma StopIsHelpful(w: World, j: Journal)
    requires Inv(w) && Calm(w) && w.journal == Some(j) && j.phase == Intent
    requires w.container.Some? && w.container.value.state == Running
    ensures var halted := w.(container := Some(w.container.value.(state := Exited(true))));
            Inv(halted) && Helpful(w, halted) && HasStopped(halted.container.value, j)
  {
    hide HeaderInv, JournalOk, RecordOk;
    assert StopStep(w, w.(container := Some(w.container.value.(state := Exited(true)))));
  }

  lemma SaveIsHelpful(a: World, b: World)
    requires SaveStep(a, b) && a.journal != b.journal
    ensures Helpful(a, b)
  {
    hide Certified, HeaderInv;
  }

  lemma BackupIsHelpful(a: World, b: World)
    requires BackupStep(a, b)
    ensures Helpful(a, b)
  {
  }

  lemma RemoveIsHelpful(a: World, b: World)
    requires RemoveStep(a, b)
    ensures Helpful(a, b)
  {
    hide Backed;
  }

  /** An attempt is journaled; its directory is made, filled and described. */
  lemma BacksUp(w: World, h: Header, run: Run, j: Journal, report: Inspection) returns (backed: Run, k: Journal)
    requires Leaves(w, h, run, j) && j.phase == Stopped && j.backupAttempt < MAX_ATTEMPTS
    ensures Leaves(w, h, backed, k) && k.phase == BackedUp
    ensures Journaled(Last(backed), k) && DocumentOf(Last(backed), k) == FreshDocument(j, w.data, report)
  {
    hide Leaves, TooLarge;
    k := j.(backupAttempt := j.backupAttempt + 1);
    backed := Tries(w, h, run, j);
    assert k.header == h && j.header == h by { LeftJournal(w, h, run, j); }
    var d := FreshDocument(j, w.data, report);
    backed := Writes(w, h, backed, k, BackupDir(None, None, None));
    backed := Writes(w, h, backed, k, BackupDir(Some(w.data), None, None));
    backed := Writes(w, h, backed, k, BackupDir(Some(w.data), Some(d), None));
    backed, k := Journals(w, h, backed, k, d);
  }

  lemma LeftJournal(w: World, h: Header, run: Run, j: Journal)
    requires Leaves(w, h, run, j)
    ensures j.header == h
  {
  }

  lemma Tries(w: World, h: Header, run: Run, j: Journal) returns (tried: Run)
    requires Leaves(w, h, run, j) && j.phase == Stopped && j.backupAttempt < MAX_ATTEMPTS
    ensures Leaves(w, h, tried, j.(backupAttempt := j.backupAttempt + 1))
  {
    hide Helpful, HeaderInv, JournalOk, RecordOk, CalmRun, IsRun;
    RunInv(run);
    AttemptMayBeSaved(Last(run), j);
    var next := Last(run).(journal := Some(j.(backupAttempt := j.backupAttempt + 1)));
    SaveIsHelpful(Last(run), next);
    CalmThen(run, next);
    tried := Then(run, true, next);
  }

  lemma Writes(w: World, h: Header, run: Run, j: Journal, dir: BackupDir) returns (written: Run)
    requires Leaves(w, h, run, j) && j.phase == Stopped
    ensures Leaves(w, h, written, j)
    ensures Last(written) == Last(run).(backups := Last(run).backups[NextSlot(j) := dir])
  {
    hide Helpful, HeaderInv, CalmRun, IsRun;
    RunInv(run);
    BackupMayChange(Last(run), j, dir);
    var next := Last(run).(backups := Last(run).backups[NextSlot(j) := dir]);
    BackupIsHelpful(Last(run), next);
    CalmThen(run, next);
    written := Then(run, true, next);
  }

  lemma RunInv(run: Run)
    requires IsRun(run)
    ensures Inv(Last(run)) && (Last(run).journal.Some? ==> JournalInv(Last(run), Last(run).journal.value))
  {
    hide JournalInv;
  }

  lemma Journals(w: World, h: Header, run: Run, j: Journal, d: Document) returns (backed: Run, k: Journal)
    requires Leaves(w, h, run, j) && j.phase == Stopped && j.backupAttempt >= 1 && NextSlot(j) in Last(run).backups
    requires Last(run).backups[NextSlot(j)] == BackupDir(Some(w.data), Some(d), None)
    requires d == Document(NextSlot(j), j.header.from, w.data, d.inspection, j.header.originalRecord.owner)
    ensures Leaves(w, h, backed, k) && k.phase == BackedUp
    ensures Journaled(Last(backed), k) && DocumentOf(Last(backed), k) == d
  {
    hide Helpful, HeaderInv, JournalOk, RecordOk, CalmRun, IsRun;
    RunInv(run);
    BackedUpMayBeSaved(Last(run), j, d);
    k := j.(phase := BackedUp, backup := Some(JournaledBackup(j, d)));
    var next := Last(run).(journal := Some(k));
    SaveIsHelpful(Last(run), next);
    CalmThen(run, next);
    backed := Then(run, true, next);
  }

  lemma Retires(w: World, h: Header, run: Run, j: Journal) returns (retired: Run)
    requires Leaves(w, h, run, j) && j.phase == BackedUp
    ensures Leaves(w, h, retired, j.(phase := Retired)) && Last(retired).container.None?
  {
    hide Helpful, HeaderInv, JournalOk, RecordOk, CalmRun, IsRun;
    RunInv(run);
    CalmRunStaysCalm(run);
    var k := j.(phase := Retiring);
    RetiringMayBeSaved(Last(run), j);
    var retiring := Last(run).(journal := Some(k));
    SaveIsHelpful(Last(run), retiring);
    CalmThen(run, retiring);
    retired := Then(run, true, retiring);
    var removed := retiring.(container := None);
    RemoveKeepsInv(retiring, k);
    RemoveIsHelpful(retiring, removed);
    CalmThen(retired, removed);
    retired := Then(retired, true, removed);
    RetiredMayBeSaved(removed, k);
    var next := removed.(journal := Some(j.(phase := Retired)));
    SaveIsHelpful(removed, next);
    CalmThen(retired, next);
    retired := Then(retired, true, next);
  }

  lemma RemoveKeepsInv(w: World, j: Journal)
    requires Inv(w) && w.journal == Some(j) && j.phase == Retiring && Backed(w, j)
    requires w.container.Some? && HasStopped(w.container.value, j)
    ensures RemoveStep(w, w.(container := None)) && Inv(w.(container := None)) && Backed(w.(container := None), j)
  {
    hide HeaderInv, JournalOk, RecordOk;
  }

  // ---------------------------------------------------------------- data trees

  lemma {:induction false} Listed(s: set<string>) returns (l: seq<string>)
    ensures Distinct(l) && Elements(l) == s
    decreases s
  {
    l := [];
    if s != {} {
      var p :| p in s;
      var rest := Listed(s - {p});
      l := [p] + rest;
    }
  }

  /** Every tree has an inventory. */
  lemma InventoryExists(t: Files) returns (es: Snapshot)
    ensures IsInventory(t, es)
  {
    hide Less;
    var names := Listed(t.Keys);
    SortSorts(names);
    var l := Sort(names);
    assert forall p :: p in l ==> p in Elements(l);
    es := seq(|l|, i requires 0 <= i < |l| => EntryOf(t, l[i]));
    assert Paths(es) == l;
  }

  ghost predicate IsDataTree(t: Files) { WellFormed(t) && WithinLimits(t) && LOCK in t && t[LOCK].File? }

  /** The names of empty files in one directory. */
  function FileName(i: nat): string { Repeat('a', 200) + PrintNat(i) }

  function FileNames(n: nat): set<string> { set i | 0 <= i < n :: FileName(i) }

  function DataPaths(n: nat): set<string> { FileNames(n) + {"", LOCK} }

  /** A data directory: the lease file and `n` other files, all empty. */
  function DataTree(n: nat): Files {
    map p | p in DataPaths(n) :: if p == "" then Directory(0) else File(1, "")
  }

  lemma NameDistinct(i: nat, j: nat)
    requires FileName(i) == FileName(j)
    ensures i == j
  {
    assert FileName(i)[200..] == PrintNat(i) && FileName(j)[200..] == PrintNat(j);
    ParsePrint(i);
    ParsePrint(j);
  }

  lemma {:induction false} NamesCounted(n: nat)
    ensures |FileNames(n)| == n
  {
    hide FileName;
    if n > 0 {
      NamesCounted(n - 1);
      assert FileNames(n) == FileNames(n - 1) + {FileName(n - 1)};
      if FileName(n - 1) in FileNames(n - 1) {
        var i :| 0 <= i < n - 1 && FileName(i) == FileName(n - 1);
        NameDistinct(i, n - 1);
      }
    }
  }

  lemma NameInRoot(i: nat)
    ensures FileName(i) != "" && |FileName(i)| > 200 && Parent(FileName(i)) == "" && Depth(FileName(i)) == 1
  {
    ParsePrint(i);
    assert '/' !in PrintNat(i) by { assert AllDigits(PrintNat(i)); }
    assert Depth("") == 0;
  }

  lemma {:induction false} EmptyFiles(t: Files, s: set<string>)
    requires s <= t.Keys && forall p :: p in s ==> Size(t[p]) == 0
    ensures Tree.Bytes(t, s) == 0
    decreases s
  {
    if s != {} {
      var p :| p in s;
      BytesRemove(t, s, p);
      EmptyFiles(t, s - {p});
    }
  }

  lemma LockInRoot()
    ensures LOCK != "" && Parent(LOCK) == "" && Depth(LOCK) == 1
  {
    assert '/' !in LOCK && Depth("") == 0;
  }

  lemma PathsCounted(n: nat)
    ensures |DataPaths(n)| == n + 2
  {
    hide FileName;
    NamesCounted(n);
    LockInRoot();
    assert FileNames(n) !! {"", LOCK} by {
      forall i: nat ensures FileName(i) !in {"", LOCK} { NameInRoot(i); }
    }
    assert |{"", LOCK}| == 2;
  }

  lemma PathsInRoot(n: nat, p: string)
    requires p in DataPaths(n) && p != ""
    ensures Parent(p) == "" && Depth(p) == 1
  {
    hide FileName, Parent, Depth;
    LockInRoot();
    if p != LOCK {
      var i :| 0 <= i < n && FileName(i) == p;
      NameInRoot(i);
    }
  }

  lemma DataTreeFits(n: nat)
    requires n + 2 <= MAX_ENTRIES
    ensures IsDataTree(DataTree(n)) && DataTree(n).Keys == DataPaths(n) && |DataPaths(n)| == n + 2
  {
    hide FileNames, Depth, Parent;
    var t := DataTree(n);
    PathsCounted(n);
    assert t.Keys == DataPaths(n) && |t| == |t.Keys|;
    EmptyFiles(t, t.Keys);
    RootDepth();
    LockInRoot();
    forall p | p in t ensures NodeWithinLimits(t, p) && (p != "" ==> Parent(p) == "") {
      if p != "" { PathsInRoot(n, p); }
      NodeFits(t, p);
    }
  }

  lemma NodeFits(t: Files, p: string)
    requires p in t && Size(t[p]) == 0 && Depth(p) <= 1
    ensures NodeWithinLimits(t, p)
  {
  }

  lemma RootDepth()
    ensures Depth("") == 0
  {
  }

  lemma MostPathsAreLong(es: Snapshot)
    requires IsInventory(DataTree(8190), es)
    ensures LongPaths(es) >= 8190
  {
    hide DataTree, Less, FileName, FileNames;
    DataTreeFits(8190);
    SortedMultiset(Paths(es), DataPaths(8190));
    assert |es| == |Paths(es)| == |multiset(Paths(es))| == MAX_ENTRIES;
    SortedDistinct(Paths(es), DataPaths(8190));
    forall i | 0 <= i < |es| ensures |es[i].path| > 200 || es[i].path in {"", LOCK} {
      assert Paths(es)[i] in Elements(Paths(es));
      LongOrShort(8190, es[i].path);
    }
    MostAreLong(es, {"", LOCK});
  }

  lemma LongOrShort(n: nat, p: string)
    requires p in DataPaths(n)
    ensures |p| > 200 || p in {"", LOCK}
  {
    if p !in {"", LOCK} {
      var i :| 0 <= i < n && FileName(i) == p;
      NameInRoot(i);
    }
  }

  /** 8190 long names: within every limit on data trees, and too many for the manifest. */
  lemma LargeManifest(es: Snapshot, j: Journal, report: Inspection)
    requires IsInventory(DataTree(8190), es)
    ensures TooLarge(FreshDocument(j, es, report))
  {
    hide IsInventory, EntriesBytes, Escaped, NumberBytes;
    MostPathsAreLong(es);
    LongEntries(es, j.header.originalRecord.owner);
  }

  // ---------------------------------------------------------------- the states

  /** As far as the stop of the original. */
  lemma ReachesStopped(w: World, h: Header) returns (run: Run, j: Journal)
    requires MayJournal(w, h)
    ensures Leaves(w, h, run, j) && j == FreshJournal(h).(phase := Stopped)
  {
    hide MayJournal, Leaves;
    run := Begins(w, h);
    run := Stops(w, h, run, FreshJournal(h));
    j := FreshJournal(h).(phase := Stopped);
  }

  /**
   * From wherever a transaction starts, one crash leaves a candidate while the journal still says retired. The
   * manifest has to fit, as the command stops before the removal otherwise.
   */
  lemma UnjournaledCandidate(w: World, h: Header, report: Inspection) returns (run: Run, j: Journal)
    requires MayJournal(w, h) && !TooLarge(FreshDocument(FreshJournal(h), w.data, report))
    ensures Leaves(w, h, run, j) && JournalInv(Last(run), j)
    ensures Unjournaled(Last(run), j) && Stuck(Last(run), j, report)
  {
    hide Helpful, CalmRun, IsRun, HeaderInv, JournalOk, MayJournal;
    run, j := ReachesStopped(w, h);
    run, j := BacksUp(w, h, run, j, report);
    run := Retires(w, h, run, j);
    j := j.(phase := Retired);
    ExampleIdOk();
    run := CrashAfterDeploy(run, j, Repeat('b', 64));
    RunInv(run);
  }

  lemma ExampleIdOk()
    ensures IsHex(Repeat('b', 64), 64)
  {
  }

  /** ... and sixteen crashes use up all attempts. */
  lemma AttemptsUsedUp(w: World, h: Header, report: Inspection) returns (run: Run, j: Journal)
    requires MayJournal(w, h)
    ensures Leaves(w, h, run, j) && JournalInv(Last(run), j)
    ensures j.phase == Stopped && j.backupAttempt == MAX_ATTEMPTS && Stuck(Last(run), j, report)
  {
    hide Helpful, CalmRun, IsRun, HeaderInv, JournalOk, MayJournal;
    run, j := ReachesStopped(w, h);
    run := CrashEveryAttempt(run, j);
    j := j.(backupAttempt := MAX_ATTEMPTS);
    RunInv(run);
  }

  /** Whatever data make the manifest too large: it is written and journaled, and cannot be read back. */
  lemma UnreadableManifest(w: World, h: Header, report: Inspection) returns (run: Run, j: Journal)
    requires MayJournal(w, h) && TooLarge(FreshDocument(FreshJournal(h), w.data, report))
    ensures Leaves(w, h, run, j) && JournalInv(Last(run), j)
    ensures j.phase == BackedUp && TooLarge(DocumentOf(Last(run), j)) && Stuck(Last(run), j, report)
  {
    hide Helpful, CalmRun, IsRun, HeaderInv, JournalOk, MayJournal, TooLarge;
    run, j := ReachesStopped(w, h);
    run, j := BacksUp(w, h, run, j, report);
    RunInv(run);
  }

  /** Whatever makes the first journal too large, or its lease unacceptable: it is written, and refused from then on. */
  lemma UnreadableJournal(w: World, h: Header) returns (run: Run, j: Journal)
    requires MayJournal(w, h) && !LoadAccepts(FreshJournal(h))
    ensures Leaves(w, h, run, j) && j == FreshJournal(h) && !LoadAccepts(j)
  {
    hide MayJournal, Leaves, LoadAccepts;
    run := Begins(w, h);
    j := FreshJournal(h);
  }

  // ---------------------------------------------------------------- installations for each of them

  /** The data are the inventory of a data directory within all limits, with a lease file. */
  ghost predicate Ordinary(w: World) { exists t :: IsDataTree(t) && IsInventory(t, w.data) }

  const HOME := "/home/user"

  lemma HomeOk()
    ensures OwnerOk(ExampleOwner(HOME))
  {
  }

  lemma InstallationMayJournal(home: string, n: nat, lock: Lease) returns (w: World, h: Header)
    requires OwnerOk(ExampleOwner(home)) && n + 2 <= MAX_ENTRIES
    ensures MayJournal(w, h) && Ordinary(w) && IsInventory(DataTree(n), w.data)
    ensures w == Installation(home, w.data, lock) && h == RollbackHeader(home, w.data, lock)
  {
    hide HeaderInv, OwnerOk, RecordOk, PointerOk, ReleaseOk, IsInventory, IsDataTree, Inv;
    DataTreeFits(n);
    var data := InventoryExists(DataTree(n));
    w, h := Installation(home, data, lock), RollbackHeader(home, data, lock);
    InstallationOk(home, data, lock);
    assert IsDataTree(DataTree(n)) && IsInventory(DataTree(n), w.data);
  }

  /** An installation whose journal and manifest can be read back. */
  lemma ReadableInstallation(report: Inspection) returns (w: World, h: Header)
    requires report.bytes <= 1_000_000
    ensures MayJournal(w, h) && Ordinary(w) && LoadAccepts(FreshJournal(h))
    ensures !TooLarge(FreshDocument(FreshJournal(h), w.data, report))
  {
    hide MayJournal, IsInventory, Ordinary, JournalBytes, JournalOk, TooLarge;
    HomeOk();
    w, h := InstallationMayJournal(HOME, 0, Lease(1, 1));
    MayJournalIsOk(w, h);
    JournalFits(FreshJournal(h));
    LeaseBytes();
    EscapedBounds(HOME);
    SmallManifest(w, h, report);
  }

  lemma MayJournalIsOk(w: World, h: Header)
    requires MayJournal(w, h)
    ensures JournalOk(FreshJournal(h))
  {
  }

  /** 8190 files with long names, within every limit that the installer has. */
  lemma LargeInstallation(report: Inspection) returns (w: World, h: Header)
    ensures MayJournal(w, h) && Ordinary(w) && TooLarge(FreshDocument(FreshJournal(h), w.data, report))
  {
    hide MayJournal, IsInventory, Ordinary, TooLarge, DataTree;
    HomeOk();
    w, h := InstallationMayJournal(HOME, 8190, Lease(1, 1));
    LargeManifest(w.data, FreshJournal(h), report);
  }

  /** A home path of 4096 characters, all but the slash outside the basic plane. */
  lemma LongHomeInstallation() returns (w: World, h: Header)
    ensures MayJournal(w, h) && Ordinary(w) && LeaseOk(h.lease) && !LoadAccepts(FreshJournal(h))
  {
    hide MayJournal, IsInventory, Ordinary, JournalBytes, JournalOk, Escaped, OwnerOk;
    var home := "/" + Repeat('\U{10000}', 4095);
    LongHomeOk(home);
    w, h := InstallationMayJournal(home, 0, Lease(1, 1));
    JournalAtLeast(FreshJournal(h));
  }

  lemma LongHomeOk(home: string)
    requires home == "/" + Repeat('\U{10000}', 4095)
    ensures OwnerOk(ExampleOwner(home)) && Escaped(home) > 49_000
  {
    hide Escaped;
    EscapedSlash(Repeat('\U{10000}', 4095));
    EscapedRepeat('\U{10000}', 4095);
  }

  lemma LeaseBytes()
    ensures NumberBytes(1) == 1 && NumberBytes(MAX_INTEGER + 1) <= 16
  {
    assert Power10(4) == 10_000 && Power10(8) == 100_000_000 && Power10(12) == 1_000_000_000_000;
    assert Power10(16) == 10_000_000_000_000_000;
    NumberFits(MAX_INTEGER + 1, 16);
  }

  /** A lease file with the inode 2^53. */
  lemma LargeInodeInstallation() returns (w: World, h: Header)
    ensures MayJournal(w, h) && Ordinary(w) && JournalBytes(FreshJournal(h)) <= MAX_PRIVATE
    ensures !LoadAccepts(FreshJournal(h))
  {
    hide MayJournal, IsInventory, Ordinary, JournalBytes, JournalOk;
    HomeOk();
    w, h := InstallationMayJournal(HOME, 0, Lease(1, MAX_INTEGER + 1));
    MayJournalIsOk(w, h);
    JournalFits(FreshJournal(h));
    LeaseBytes();
    EscapedBounds(HOME);
  }

  lemma SmallManifest(w: World, h: Header, report: Inspection)
    requires IsInventory(DataTree(0), w.data) && report.bytes <= 1_000_000
    requires w == Installation(HOME, w.data, Lease(1, 1)) && h == RollbackHeader(HOME, w.data, Lease(1, 1))
    ensures !TooLarge(FreshDocument(FreshJournal(h), w.data, report))
  {
    hide IsInventory, EntriesBytes, Escaped, NumberBytes, VersionPattern;
    SmallEntries(w.data);
    IntegerFits(1);
    EscapedBounds("sha256:" + Repeat('a', 64));
    EscapedBounds("streamskope:1.0.0");
    EscapedBounds(Repeat('a', 40));
    EscapedBounds("1.0.0");
  }

  lemma SmallEntries(es: Snapshot)
    requires IsInventory(DataTree(0), es)
    ensures EntriesBytes(es, ExampleOwner(HOME)) <= 2000
  {
    hide Less, EntriesBytes;
    DataTreeFits(0);
    SortedDistinct(Paths(es), DataPaths(0));
    SortedMultiset(Paths(es), DataPaths(0));
    assert |es| == |Paths(es)| == |multiset(Paths(es))| == 2;
    forall i | 0 <= i < |es| ensures |es[i].path| <= 10 && es[i].bytes == 0 {
      assert Paths(es)[i] in Elements(Paths(es)) && es[i] in es;
    }
    HomeOk();
    ShortEntries(es, ExampleOwner(HOME));
  }

  lemma {:induction false} ShortEntries(es: Snapshot, o: Owner)
    requires OwnerOk(o) && forall i :: 0 <= i < |es| ==> |es[i].path| <= 10 && es[i].bytes == 0
    ensures EntriesBytes(es, o) <= 1000 * |es|
  {
    hide NumberBytes, Escaped;
    if es != [] {
      ShortEntries(es[1..], o);
      IntegerFits(0);
      IntegerFits(o.gid);
      IntegerFits(o.uid);
      EscapedBounds(es[0].path);
    }
  }
}
