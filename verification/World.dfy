/**
 * What survives a crash of the maintenance command, the steps that change it, and what every run keeps.
 * Each durable write and each container operation is one step; between steps the environment may act.
 */
module World {
  import opened Text
  import opened SemVer
  import opened Tree
  import opened Records

  // ---------------------------------------------------------------- durable state

  /** Suspended is paused or restarting. A container that was never started counts as not cleanly exited. */
  datatype ContainerState = Running | Exited(clean: bool) | Suspended | Dead

  /** No process of the container is left, so that it can be removed without force. */
  predicate Ended(s: ContainerState) { s.Exited? || s.Dead? }

  /** The container under the owned name; `runs` is the release its configuration belongs to. */
  datatype Container = Container(id: string, runs: Release, startedAt: string, restartCount: nat, state: ContainerState)

  /** One attempt directory: the copied tree, its manifest, and later the archived journal. */
  datatype BackupDir = BackupDir(data: Option<Snapshot>, document: Option<Document>, transaction: Option<Journal>)

  /** `lock` identifies the lease file in the data tree, when there is one. */
  datatype World = World(
    inst: Bytes, journal: Option<Journal>, container: Option<Container>, data: Snapshot, lock: Option<Lease>,
    backups: map<Slot, BackupDir>, transactions: set<string>)

  // ---------------------------------------------------------------- the backup behind a journal

  /** The journaled backup is complete on disk and is the one that was journaled. */
  ghost predicate Journaled(w: World, j: Journal) {
    && j.backup.Some? && j.backup.value.slot in w.backups
    && var b := j.backup.value;
    && var dir := w.backups[b.slot];
    && dir.document.Some?
    && var d := dir.document.value;
    && b.inventorySha256 == Sha256(d) && b.dataSnapshotSha256 == Sha256(d.entries)
    && d.slot == b.slot && d.source == j.header.from && d.owner == j.header.originalRecord.owner
    && dir.data == Some(d.entries)
    && (dir.transaction.Some? ==>
          PhaseIndex(j.phase) >= PhaseIndex(Deployed) && dir.transaction.value == j.(phase := Committed))
  }

  /** ... and the data tree still equals it. */
  ghost predicate Backed(w: World, j: Journal) {
    Journaled(w, j) && w.backups[j.backup.value.slot].data == Some(w.data)
  }

  /** The container that the transaction started from, as it was then. */
  predicate IsOriginal(c: Container, j: Journal) {
    c.id == j.header.original.id && c.startedAt == j.header.original.startedAt
    && c.restartCount == j.header.original.restartCount
  }

  // ---------------------------------------------------------------- what every run keeps

  /** A rollback goes to the previous release, an upgrade to one of higher precedence. */
  ghost predicate MaySelect(operation: Operation, r: Record, selected: Pointer) {
    match operation
    case Rollback => Normal(r).previous == Some(selected)
    case _ => IsHigher(selected.version, Normal(r).current.version)
  }

  ghost predicate IsHigher(a: string, b: string) {
    MainSyntax(a) && MainSyntax(b) && Precedes(MainParts(b), MainParts(a))
  }

  ghost predicate HeaderInv(h: Header) {
    && HeaderOk(h)
    && h.originalSha256.preimage.record == h.originalRecord
    && h.nextRecord == NextRecord(h.originalRecord, h.to.pointer)
    && h.to.pointer != h.from.pointer
    && (h.from.inspector || h.to.inspector)
    && MaySelect(h.operation, h.originalRecord, h.to.pointer)
  }

  ghost predicate JournalInv(w: World, j: Journal) {
    && HeaderInv(j.header) && JournalOk(j)
    && j.header.transaction in w.transactions
    && ((Sha256(w.inst) == j.header.originalSha256 && j.phase != Committed)
        || (w.inst == CanonicalBytes(j.header.nextRecord) && PhaseIndex(j.phase) >= PhaseIndex(Deployed)))
    && (forall slot :: slot in w.backups && slot.transaction == j.header.transaction ==>
          slot.attempt <= j.backupAttempt)
    && (if PhaseIndex(j.phase) >= PhaseIndex(BackedUp) then Journaled(w, j) else j.backup.None?)
    && (PhaseIndex(j.phase) < PhaseIndex(Deployed) ==> j.candidateId.None?)
    && (j.phase == Intent ==> j.backupAttempt == 0)
  }

  /** The shape of what Docker reports. */
  predicate DockerOk(c: Container) { IsHex(c.id, 64) && |c.startedAt| <= 64 && c.restartCount <= MAX_INTEGER }

  ghost predicate Inv(w: World) {
    && RecordOk(w.inst.record)
    && (w.container.Some? ==> DockerOk(w.container.value))
    && (forall slot :: slot in w.backups ==> slot.transaction in w.transactions)
    && (w.journal.Some? ==> JournalInv(w, w.journal.value))
  }

  /** The test "already switched?" has one answer: the two records never have the same bytes. */
  lemma NextIsNotOriginal(w: World, j: Journal)
    requires JournalInv(w, j)
    ensures j.header.originalSha256 != j.header.nextSha256
    ensures Sha256(w.inst) == j.header.nextSha256 <==> w.inst == CanonicalBytes(j.header.nextRecord)
    ensures Sha256(w.inst) == j.header.nextSha256 <==> Sha256(w.inst) != j.header.originalSha256
  {
    assert Normal(j.header.nextRecord).current == j.header.to.pointer;
    assert Normal(j.header.originalRecord).current == j.header.from.pointer;
  }

  // ---------------------------------------------------------------- steps

  /** The environment never writes the installer's own files, and a held lease freezes the data tree. */
  ghost predicate EnvStep(a: World, b: World, held: bool) {
    && b == a.(container := b.container, data := b.data, lock := b.lock)
    && (held ==> b.data == a.data && b.lock == a.lock)
  }

  /** What the entry into each phase certifies. */
  ghost predicate Certified(a: World, j: Journal, k: Journal) {
    match k.phase
    case Intent => false
    case Stopped =>
      k == j.(phase := Stopped) && a.container.Some? && IsOriginal(a.container.value, j)
      && a.container.value.state == Exited(true)
    case BackedUp => k == j.(phase := BackedUp, backup := k.backup) && Backed(a, k)
    case Retiring =>
      k == j.(phase := Retiring) && Backed(a, j)
      && a.container.Some? && IsOriginal(a.container.value, j) && a.container.value.state == Exited(true)
    case Retired => k == j.(phase := Retired) && Backed(a, j) && a.container.None?
    case Deployed =>
      k == j.(phase := Deployed, candidateId := k.candidateId) && Backed(a, j)
      && a.container.Some? && a.container.value.runs == j.header.to && k.candidateId == Some(a.container.value.id)
    case Committed => k == j.(phase := Committed) && a.inst == CanonicalBytes(j.header.nextRecord)
  }

  ghost predicate BeginStep(a: World, b: World) {
    && a.journal.None? && b.journal.Some?
    && var j := b.journal.value;
    && b == a.(journal := b.journal, transactions := a.transactions + {j.header.transaction})
    && j.phase == Intent && j.backupAttempt == 0 && j.backup.None? && j.candidateId.None?
    && j.header.transaction !in a.transactions
    && j.header.originalSha256 == Sha256(a.inst)
    && j.header.nextRecord == NextRecord(a.inst.record, j.header.to.pointer)
    && j.header.originalRecord == a.inst.record && j.header.to.pointer != Normal(a.inst.record).current
    && MaySelect(j.header.operation, a.inst.record, j.header.to.pointer)
  }

  ghost predicate SaveStep(a: World, b: World) {
    && a.journal.Some? && b.journal.Some?
    && var j, k := a.journal.value, b.journal.value;
    && b == a.(journal := b.journal)
    && (|| k == j
        || (j.phase == Stopped && k == j.(backupAttempt := j.backupAttempt + 1))
        || (PhaseIndex(k.phase) == PhaseIndex(j.phase) + 1 && Certified(a, j, k)))
  }

  ghost predicate StopStep(a: World, b: World) {
    && a.journal.Some? && a.journal.value.phase == Intent && a.container.Some? && b.container.Some?
    && a.container.value.id == a.journal.value.header.original.id
    && b == a.(container := b.container)
    && b.container.value == a.container.value.(state := b.container.value.state)
  }

  ghost predicate BackupStep(a: World, b: World) {
    && a.journal.Some? && a.journal.value.phase == Stopped
    && var slot := Slot(a.journal.value.header.transaction, a.journal.value.backupAttempt);
    && slot in b.backups && b == a.(backups := a.backups[slot := b.backups[slot]])
  }

  ghost predicate RemoveStep(a: World, b: World) {
    && a.journal.Some? && a.journal.value.phase == Retiring && a.container.Some?
    && a.container.value.id == a.journal.value.header.original.id && Ended(a.container.value.state)
    && Backed(a, a.journal.value)
    && b == a.(container := None)
  }

  ghost predicate DeployStep(a: World, b: World) {
    && a.journal.Some? && a.journal.value.phase == Retired && a.container.None? && b.container.Some?
    && Backed(a, a.journal.value)
    && b == a.(container := b.container)
  }

  ghost predicate SwitchStep(a: World, b: World) {
    && a.journal.Some?
    && var j := a.journal.value;
    && j.phase == Deployed && Sha256(a.inst) == j.header.originalSha256
    && a.container.Some? && Some(a.container.value.id) == j.candidateId
    && a.container.value.runs == j.header.to && a.container.value.state == Running
    && Backed(a, j)
    && b == a.(inst := CanonicalBytes(j.header.nextRecord))
  }

  ghost predicate ArchiveStep(a: World, b: World) {
    && a.journal.Some?
    && var j := a.journal.value;
    && j.phase == Committed && a.inst == CanonicalBytes(j.header.nextRecord) && Journaled(a, j)
    && var slot := j.backup.value.slot;
    && b == a.(journal := None, backups := a.backups[slot := a.backups[slot].(transaction := Some(j))])
  }

  ghost predicate OurStep(a: World, b: World) {
    || BeginStep(a, b) || SaveStep(a, b) || StopStep(a, b) || BackupStep(a, b)
    || RemoveStep(a, b) || DeployStep(a, b) || SwitchStep(a, b) || ArchiveStep(a, b)
  }

  // ---------------------------------------------------------------- runs

  /** Everything that happened since `first`, across any number of invocations and crashes. */
  datatype Run = Start(first: World) | Then(before: Run, ours: bool, after: World)

  function Last(run: Run): World { if run.Start? then run.first else run.after }

  function Origin(run: Run): World { if run.Start? then run.first else Origin(run.before) }

  /** `later` continues `run`, and whatever the command did in between is of one kind. */
  ghost predicate Only(kind: (World, World) -> bool, run: Run, later: Run) {
    || later == run
    || (later.Then? && (later.ours ==> kind(Last(later.before), later.after)) && Only(kind, run, later.before))
  }

  lemma OnlyWaited(kind: (World, World) -> bool, run: Run, later: Run)
    requires later == run || (later.Then? && !later.ours && later.before == run)
    ensures Only(kind, run, later)
  {
    assert Only(kind, run, run);
  }

  lemma {:induction false} OnlyChain(kind: (World, World) -> bool, a: Run, b: Run, c: Run)
    requires Only(kind, a, b) && Only(kind, b, c)
    ensures Only(kind, a, c)
  {
    if c != b { OnlyChain(kind, a, b, c.before); }
  }

  /** The kind of no step: `Only(Nothing, run, later)` says that the command did nothing in between. */
  ghost predicate Nothing(a: World, b: World) { false }

  /** The container runs or has ended, and belongs to that release. */
  ghost predicate HasContainer(w: World, release: Release) {
    && w.container.Some? && w.container.value.runs == release
    && w.container.value.state !in {Suspended, Dead}
  }

  /** The command did nothing, and at some moment the container was that of the release. */
  ghost predicate Saw(run: Run, later: Run, release: Release) {
    exists seen ::
      Only(Nothing, run, seen) && HasContainer(Last(seen), release) && Only(Nothing, seen, later)
  }

  lemma SawAlong(a: Run, b: Run, c: Run, d: Run, release: Release)
    requires Only(Nothing, a, b) && Saw(b, c, release) && Only(Nothing, c, d)
    ensures Saw(a, d, release)
  {
    var seen :| Only(Nothing, b, seen) && HasContainer(Last(seen), release) && Only(Nothing, seen, c);
    OnlyChain(Nothing, a, b, seen);
    OnlyChain(Nothing, seen, c, d);
  }

  ghost predicate IsStep(ours: bool, a: World, b: World) {
    if ours then OurStep(a, b) else EnvStep(a, b, false)
  }

  ghost predicate IsRun(run: Run) {
    && Inv(Last(run))
    && (run.Then? ==> IsStep(run.ours, Last(run.before), run.after) && IsRun(run.before))
  }
}
