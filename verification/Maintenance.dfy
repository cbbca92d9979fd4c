/** The maintenance command: its control flow over the durable state, one environment call after another. */
module Maintenance {
  import opened Text
  import opened Precedence
  import opened Tree
  import opened Records
  import opened World

  /**
   * The machine that outlives the command. `Await` is any call that waits for the environment, which may
   * act meanwhile and may fail the call or end the process; a cooperative environment does neither. After a
   * call that failed there is no further call and no further step.
   */
  class Host {
    var w: World
    const report: Inspection
    const catalog: map<Pointer, Release>
    ghost const first: World
    ghost var run: Run
    ghost var failed: bool  // a call has failed, or the process has ended

    ghost predicate Valid()
      reads this
    {
      IsRun(run) && Origin(run) == first && Last(run) == w
    }

    /** Nothing happened since `earlier`, or one action of the environment. */
    ghost predicate Waited(earlier: Run)
      reads this
    {
      run == earlier || run == Then(earlier, false, w)
    }

    constructor (w: World, report: Inspection, catalog: map<Pointer, Release>)
      requires Inv(w)
      ensures Valid() && this.w == w && first == w && this.report == report && this.catalog == catalog && !failed
    {
      this.w := w;
      this.report := report;
      this.catalog := catalog;
      first := w;
      run := Start(w);
      failed := false;
    }

    /** What release() answers for a pointer as long as the environment cooperates. */
    function Lookup(p: Pointer): (r: Option<Release>)
      ensures r.Some? <==> p in catalog && ReleaseOk(catalog[p]) && catalog[p].pointer == p
      ensures r.Some? ==> r.value == catalog[p]
    {
      if p in catalog && ReleaseOk(catalog[p]) && catalog[p].pointer == p then Some(catalog[p]) else None
    }

    method Step(next: World)
      requires Valid() && !failed && OurStep(w, next) && Inv(next)
      modifies this
      ensures Valid() && !failed && w == next && run == Then(old(run), true, next)
    {
      run := Then(run, true, next);
      w := next;
    }

    method Await(held: bool, coop: bool) returns (ok: bool)
      requires Valid() && !failed
      modifies this
      ensures Valid() && EnvStep(old(w), w, held)
      ensures coop ==> ok && w == old(w)
      ensures Waited(old(run)) && failed == !ok
    {
      if coop {
        return true;
      }
      var container: Option<Container> := *;
      var data: Snapshot := *;
      if container.Some? && !DockerOk(container.value) { container := w.container; }
      var lock: Option<Lease> := *;
      if held { data, lock := w.data, w.lock; }
      var next := w.(container := container, data := data, lock := lock);
      EnvKeepsInv(w, next);
      run := Then(run, false, next);
      w := next;
      ok := *;
      failed := !ok;
    }
  }

  lemma EnvKeepsInv(a: World, b: World)
    requires Inv(a) && EnvStep(a, b, false) && (b.container.Some? ==> DockerOk(b.container.value))
    ensures Inv(b)
  {
    hide HeaderInv;
  }

  predicate OwnedAs(c: Container, release: Release, expected: Option<string>) {
    (expected.Some? ==> c.id == expected.value) && c.runs == release && c.state !in {Suspended, Dead}
  }

  /** stopped(): the original container, exited by itself and without error. */
  predicate HasStopped(c: Container, j: Journal) { IsOriginal(c, j) && c.state == Exited(true) }

  /** The original container as the transaction recorded it, running or properly stopped. */
  ghost predicate CanStop(w: World, j: Journal) {
    && w.container.Some? && IsOriginal(w.container.value, j) && w.container.value.runs == j.header.from
    && w.container.value.state in {Running, Exited(true)}
  }

  lemma StoppedMayBeSaved(w: World, j: Journal)
    requires Inv(w) && w.journal == Some(j) && j.phase == Intent && Sha256(w.inst) == j.header.originalSha256
    requires w.container.Some? && HasStopped(w.container.value, j)
    ensures SaveStep(w, w.(journal := Some(j.(phase := Stopped)))) && JournalInv(w, j.(phase := Stopped))
  {
    hide HeaderInv;
  }

  ghost predicate Unswitched(w: World, j: Journal) { Sha256(w.inst) == j.header.originalSha256 }

  function NextSlot(j: Journal): Slot { Slot(j.header.transaction, j.backupAttempt) }

  lemma AttemptMayBeSaved(w: World, j: Journal)
    requires Inv(w) && w.journal == Some(j) && j.phase == Stopped && Unswitched(w, j) && j.backupAttempt < MAX_ATTEMPTS
    ensures var k := j.(backupAttempt := j.backupAttempt + 1);
            SaveStep(w, w.(journal := Some(k))) && JournalInv(w, k) && NextSlot(k) !in w.backups
  {
    hide HeaderInv;
  }

  lemma BackupMayChange(w: World, j: Journal, dir: BackupDir)
    requires Inv(w) && w.journal == Some(j) && j.phase == Stopped
    ensures var v := w.(backups := w.backups[NextSlot(j) := dir]); BackupStep(w, v) && Inv(v)
  {
    hide HeaderInv;
  }

  function JournaledBackup(j: Journal, d: Document): Backup { Backup(NextSlot(j), Sha256(d), Sha256(d.entries)) }

  lemma BackedUpMayBeSaved(w: World, j: Journal, d: Document)
    requires Inv(w) && w.journal == Some(j) && j.phase == Stopped && Unswitched(w, j) && j.backupAttempt >= 1
    requires NextSlot(j) in w.backups && w.backups[NextSlot(j)] == BackupDir(Some(w.data), Some(d), None)
    requires d == Document(NextSlot(j), j.header.from, w.data, d.inspection, j.header.originalRecord.owner)
    ensures var k := j.(phase := BackedUp, backup := Some(JournaledBackup(j, d)));
            SaveStep(w, w.(journal := Some(k))) && JournalInv(w, k) && Backed(w, k)
  {
    hide HeaderInv;
  }

  lemma RetiringMayBeSaved(w: World, j: Journal)
    requires Inv(w) && w.journal == Some(j) && j.phase == BackedUp && Unswitched(w, j) && Backed(w, j)
    requires w.container.Some? && HasStopped(w.container.value, j)
    ensures var k := j.(phase := Retiring); SaveStep(w, w.(journal := Some(k))) && JournalInv(w, k) && Backed(w, k)
  {
    hide HeaderInv;
  }

  lemma RetiredMayBeSaved(w: World, j: Journal)
    requires Inv(w) && w.journal == Some(j) && j.phase == Retiring && Unswitched(w, j) && Backed(w, j)
    requires w.container.None?
    ensures var k := j.(phase := Retired); SaveStep(w, w.(journal := Some(k))) && JournalInv(w, k) && Backed(w, k)
  {
    hide HeaderInv;
  }

  lemma DeployedMayBeSaved(w: World, j: Journal)
    requires Inv(w) && w.journal == Some(j) && j.phase == Retired && Unswitched(w, j) && Backed(w, j)
    requires w.container.Some? && w.container.value.runs == j.header.to
    ensures var k := j.(phase := Deployed, candidateId := Some(w.container.value.id));
            SaveStep(w, w.(journal := Some(k))) && JournalInv(w, k) && Backed(w, k)
  {
    hide HeaderInv;
  }

  lemma CommittedMayBeSaved(w: World, j: Journal)
    requires Inv(w) && w.journal == Some(j) && PhaseIndex(j.phase) >= PhaseIndex(Deployed)
             && w.inst == CanonicalBytes(j.header.nextRecord)
    ensures var k := j.(phase := Committed); SaveStep(w, w.(journal := Some(k))) && JournalInv(w, k)
  {
    hide HeaderInv;
    NextIsNotOriginal(w, j);
  }

  lemma MaySwitch(w: World, j: Journal)
    requires Inv(w) && w.journal == Some(j) && j.phase == Deployed
    requires Unswitched(w, j) && Backed(w, j) && MayFinish(w, j)
    ensures var v := w.(inst := CanonicalBytes(j.header.nextRecord)); SwitchStep(w, v) && OurStep(w, v) && Inv(v)
  {
    hide BeginStep, SaveStep, StopStep, BackupStep, RemoveStep, DeployStep, ArchiveStep;
  }

  ghost function Archived(w: World, j: Journal): World
    requires Journaled(w, j)
  {
    var slot := j.backup.value.slot;
    w.(journal := None, backups := w.backups[slot := w.backups[slot].(transaction := Some(j))])
  }

  lemma ArchiveKeepsInv(w: World, j: Journal)
    requires Inv(w) && w.journal == Some(j) && j.phase == Committed
    ensures Journaled(w, j) && ArchiveStep(w, Archived(w, j)) && Inv(Archived(w, j))
  {
    hide HeaderInv;
    NextIsNotOriginal(w, j);
  }

  const ANY_ID: string := seq(64, _ => '0')

  ghost function DocumentOf(w: World, j: Journal): Document
    requires Journaled(w, j)
  {
    w.backups[j.backup.value.slot].document.value
  }

  /** The manifest that a backup of `data` taken now would get. */
  function FreshDocument(j: Journal, data: Snapshot, report: Inspection): Document {
    Document(Slot(j.header.transaction, j.backupAttempt + 1), j.header.from, data, report,
             j.header.originalRecord.owner)
  }

  /** The original is stopped, or has already been removed by an interrupted retirement. */
  ghost predicate MayRetire(w: World, j: Journal) {
    || (w.container.Some? && HasStopped(w.container.value, j) && w.container.value.runs == j.header.from)
    || (w.container.None? && j.phase == Retiring)
  }

  ghost predicate MayFinish(w: World, j: Journal) {
    w.container.Some? && OwnedAs(w.container.value, j.header.to, j.candidateId) && w.container.value.state == Running
  }

  ghost predicate IsArchived(w: World, j: Journal) {
    j.backup.Some? && j.backup.value.slot in w.backups
    && w.backups[j.backup.value.slot].transaction == Some(j.(phase := Committed))
  }

  /** The journaled manifest, or the one that a new attempt would journal. */
  ghost function ManifestOf(w: World, j: Journal, report: Inspection): Document
    requires JournalInv(w, j)
  {
    if PhaseIndex(j.phase) >= PhaseIndex(BackedUp) then DocumentOf(w, j) else FreshDocument(j, w.data, report)
  }

  /** The lease file is the journaled one, and the container the one that the phase left. */
  ghost predicate Recognised(w: World, j: Journal) {
    && w.lock == Some(j.header.lease)
    && match j.phase
       case Intent => CanStop(w, j)
       case Stopped | BackedUp =>
         w.container.Some? && HasStopped(w.container.value, j) && w.container.value.runs == j.header.from
       case Retiring => MayRetire(w, j)
       case Retired | Committed => true
       case Deployed => w.container.Some? && OwnedAs(w.container.value, j.header.to, j.candidateId)
  }

  /** ... and a candidate still runs. */
  ghost predicate ContainerAsLeft(w: World, j: Journal) {
    Recognised(w, j) && (j.phase == Deployed ==> w.container.value.state == Running)
  }

  /** Nobody but the command has touched the container or the lease file, nor the data once they were backed up. */
  ghost predicate Undisturbed(w: World, j: Journal) {
    ContainerAsLeft(w, j) && (PhaseIndex(j.phase) >= PhaseIndex(BackedUp) ==> Backed(w, j))
  }

  /** A candidate was created, and the crash came before its identity was journaled. */
  predicate Unjournaled(w: World, j: Journal) { j.phase == Retired && w.container.Some? }

  /** Where recovery cannot get any further, however well the environment behaves. */
  ghost predicate Stuck(w: World, j: Journal, report: Inspection)
    requires JournalInv(w, j)
  {
    || Unjournaled(w, j)
    || (j.phase == Stopped && j.backupAttempt == MAX_ATTEMPTS)
    || TooLarge(ManifestOf(w, j, report))
  }

  function Selected(operation: Operation, r: Record, target: Pointer): Option<Pointer> {
    if operation == Rollback then Normal(r).previous else Some(target)
  }

  function FreshHeader(operation: Operation, w: World, source: Release, target: Release, owner: Container, lock: Lease,
                       nonce: string)
    : Header
  {
    var next := NextRecord(w.inst.record, target.pointer);
    Header(nonce, operation, w.inst.record, Sha256(w.inst), next, Sha256(CanonicalBytes(next)), source, target,
           OriginalContainer(owner.id, owner.startedAt, owner.restartCount), lock)
  }

  function FreshJournal(h: Header): Journal { Journal(h, Intent, 0, None, None) }

  /** What is checked before a journal is written. */
  ghost predicate MayBegin(w: World, operation: Operation, source: Release, target: Release) {
    && MaySelect(operation, w.inst.record, target.pointer) && (source.inspector || target.inspector)
    && w.container.Some? && OwnedAs(w.container.value, source, None) && w.lock.Some?
  }

  /** What an upgrade or a rollback needs in order to complete, besides a cooperative environment. */
  ghost predicate Transactable(w: World, operation: Operation, source: Release, target: Release, report: Inspection,
                               nonce: string) {
    && MaySelect(operation, w.inst.record, target.pointer)
    && (source.inspector || target.inspector)
    && w.container.Some? && w.container.value.runs == source && w.container.value.state in {Running, Exited(true)}
    && w.lock.Some?
    && !TooLarge(Document(Slot(nonce, 1), source, w.data, report, w.inst.record.owner))
  }

  lemma BeginKeepsInv(w: World, j: Journal)
    requires Inv(w) && w.journal.None? && j == FreshJournal(j.header)
    requires j.header.transaction !in w.transactions && HeaderInv(j.header)
    requires j.header.originalSha256 == Sha256(w.inst)
    ensures var v := w.(journal := Some(j), transactions := w.transactions + {j.header.transaction});
            BeginStep(w, v) && Inv(v)
  {
    hide MaySelect;
  }

  lemma FreshHeaderInv(operation: Operation, w: World, source: Release, target: Release, owner: Container, lock: Lease,
                       nonce: string)
    requires RecordOk(w.inst.record) && DockerOk(owner) && IsUuid(nonce)
             && (operation == Upgrade || operation == Rollback)
    requires ReleaseOk(source) && ReleaseOk(target) && source.pointer == Normal(w.inst.record).current
             && target.pointer != source.pointer
    requires MaySelect(operation, w.inst.record, target.pointer) && (source.inspector || target.inspector)
    ensures HeaderInv(FreshHeader(operation, w, source, target, owner, lock, nonce))
  {
    hide MaySelect;
  }

  datatype Outcome = Blocked | Unchanged | Checked | Completed(recovered: bool)

  predicate TooLarge(d: Document) { DocumentBytes(d) > MAX_OUTPUT }

  lemma TwoMebibytesFit(d: Document)
    ensures TooLarge(d) <==> DocumentBytes(d) >= 2097153
  {
  }

  lemma StuckPrepared(a: World, b: World, j: Journal, k: Journal, report: Inspection)
    requires JournalInv(a, j) && JournalInv(b, k)
    requires k == (if j.phase == Intent then j.(phase := Stopped) else j)
    requires b == a.(journal := b.journal, container := b.container)
    requires j.phase != Intent ==> a.container == b.container
    ensures Stuck(a, j, report) <==> Stuck(b, k, report)
  {
    hide HeaderInv;
  }

  /** When a transaction that has not switched yet completes, in a cooperative environment. */
  ghost predicate Resumable(host: Host, w: World, j: Journal)
    requires JournalInv(w, j)
  {
    && host.Lookup(j.header.from.pointer) == Some(j.header.from)
    && host.Lookup(j.header.to.pointer) == Some(j.header.to)
    && Undisturbed(w, j) && !Stuck(w, j, host.report)
  }

  /** When there is nothing to do, and everything is in place. */
  ghost predicate Keeps(host: Host, w: World, operation: Operation, target: Pointer) {
    var state := Normal(w.inst.record);
    && (match operation
        case Recover => true
        case Rollback => state.previous == Some(state.current)
        case _ => target == state.current)
    && host.Lookup(state.current).Some? && HasContainer(w, host.Lookup(state.current).value)
    && (state.previous.Some? ==> host.Lookup(state.previous.value).Some?)
  }

  /** When a check passes. */
  ghost predicate Checks(host: Host, w: World, operation: Operation, target: Pointer) {
    var state := Normal(w.inst.record);
    && operation == Check && target != state.current && IsHigher(target.version, state.current.version)
    && host.Lookup(state.current).Some? && host.Lookup(target).Some?
    && (host.Lookup(state.current).value.inspector || host.Lookup(target).value.inspector)
    && HasContainer(w, host.Lookup(state.current).value) && w.lock.Some?
    && (state.previous.Some? ==> host.Lookup(state.previous.value).Some?)
  }

  /** When a new transaction completes. */
  ghost predicate Transacts(host: Host, w: World, operation: Operation, target: Pointer, nonce: string) {
    var state := Normal(w.inst.record);
    && operation in {Upgrade, Rollback}
    && var selected := if operation == Rollback then state.previous else Some(target);
    && selected.Some? && selected.value != state.current
    && host.Lookup(state.current).Some? && host.Lookup(selected.value).Some?
    && Transactable(w, operation, host.Lookup(state.current).value, host.Lookup(selected.value).value, host.report,
                    nonce)
  }

  /** What the command answers without a journal, when the environment cooperates. */
  ghost predicate Answers(host: Host, w: World, operation: Operation, target: Pointer, nonce: string, r: Outcome) {
    && (r == Unchanged <==> Keeps(host, w, operation, target))
    && (r == Checked <==> Checks(host, w, operation, target))
    && (r == Completed(false) <==> Transacts(host, w, operation, target, nonce))
    && r != Completed(true)
  }

  lemma NothingAnswers(host: Host, w: World, operation: Operation, target: Pointer, nonce: string)
    requires var selected := Selected(operation, w.inst.record, target);
             || host.Lookup(Normal(w.inst.record).current).None?
             || (operation != Recover && (selected.None? || host.Lookup(selected.value).None?))
    ensures Answers(host, w, operation, target, nonce, Blocked)
  {
    hide MaySelect, RecordOk;
  }

  lemma KeepAnswers(host: Host, w: World, operation: Operation, target: Pointer, nonce: string, r: Outcome)
    requires var state := Normal(w.inst.record);
             && host.Lookup(state.current).Some?
             && (operation == Recover || Selected(operation, w.inst.record, target) == Some(state.current))
             && (r == Unchanged || r == Blocked)
             && (r == Unchanged <==>
                   && w.container.Some? && OwnedAs(w.container.value, host.Lookup(state.current).value, None)
                   && (state.previous.Some? ==> host.Lookup(state.previous.value).Some?))
    ensures Answers(host, w, operation, target, nonce, r)
  {
    hide MaySelect, RecordOk;
  }

  lemma KeepIsAsked(w: World, operation: Operation, target: Pointer, r: Outcome)
    requires operation == Recover || Selected(operation, w.inst.record, target) == Some(Normal(w.inst.record).current)
    requires r == Unchanged || r == Blocked
    ensures Asked(w, operation, target, r)
  {
  }

  lemma TransactAnswers(host: Host, w: World, operation: Operation, target: Pointer, nonce: string, r: Outcome,
                        source: Release, release: Release)
    requires var state := Normal(w.inst.record);
             && host.Lookup(state.current) == Some(source) && operation != Recover
             && Selected(operation, w.inst.record, target).Some?
             && var selected := Selected(operation, w.inst.record, target).value;
             && host.Lookup(selected) == Some(release) && selected != state.current
             && r != Unchanged && (r.Completed? ==> r == Completed(false) && operation in {Upgrade, Rollback})
             && (r == Checked ==> operation == Check)
             && (operation == Check ==> (r == Checked <==>
                   && MayBegin(w, operation, source, release)
                   && (state.previous.Some? ==> host.Lookup(state.previous.value).Some?)))
             && (operation in {Upgrade, Rollback} ==>
                   (r.Completed? <==> Transactable(w, operation, source, release, host.report, nonce)))
    ensures Answers(host, w, operation, target, nonce, r)
  {
    hide IsHigher, RecordOk, ReleaseOk, TooLarge;
  }

  lemma CheckIsAsked(w: World, operation: Operation, target: Pointer, r: Outcome)
    requires r != Unchanged && (r == Checked ==> operation == Check && MaySelect(Check, w.inst.record, target))
    requires operation == Check ==> target != Normal(w.inst.record).current
    ensures Asked(w, operation, target, r)
  {
    hide IsHigher;
  }

  /** Whatever the environment does, what was asked for is the reason of these answers. */
  ghost predicate Asked(w: World, operation: Operation, target: Pointer, r: Outcome) {
    var state := Normal(w.inst.record);
    && (r == Unchanged ==>
          match operation
          case Recover => true
          case Rollback => state.previous == Some(state.current)
          case _ => target == state.current)
    && (r == Checked ==>
          operation == Check && target != state.current && IsHigher(target.version, state.current.version))
  }

  /** The command did nothing, and saw the container of the installed release. */
  ghost predicate SawCurrent(run: Run, later: Run) {
    exists release ::
      ReleaseOk(release) && release.pointer == Normal(Last(run).inst.record).current && Saw(run, later, release)
  }

  lemma SeesOwned(run: Run, looked: Run, release: Release)
    requires looked == run || (looked.Then? && !looked.ours && looked.before == run)
    requires Last(looked).container.Some? && OwnedAs(Last(looked).container.value, release, None)
    ensures Saw(run, looked, release)
  {
    OnlyWaited(Nothing, run, looked);
    OnlyWaited(Nothing, looked, looked);
  }

  lemma SawOnce(run: Run, looked: Run, later: Run, release: Release)
    requires Saw(run, looked, release)
    requires later == looked || (later.Then? && !later.ours && later.before == looked)
    ensures Saw(run, later, release)
  {
    OnlyWaited(Nothing, run, run);
    OnlyWaited(Nothing, looked, later);
    SawAlong(run, run, looked, later, release);
  }

  lemma SawCurrentAlong(run: Run, asked: Run, later: Run)
    requires Only(Nothing, run, asked) && SawCurrent(asked, later) && Last(asked).inst == Last(run).inst
    ensures SawCurrent(run, later)
  {
    var release :| ReleaseOk(release) && release.pointer == Normal(Last(run).inst.record).current
                   && Saw(asked, later, release);
    SawLater(run, asked, later, release);
  }

  lemma SawLater(run: Run, started: Run, later: Run, release: Release)
    requires Only(Nothing, run, started) && Saw(started, later, release)
    requires ReleaseOk(release) && release.pointer == Normal(Last(run).inst.record).current
    ensures SawCurrent(run, later)
  {
    OnlyWaited(Nothing, later, later);
    SawAlong(run, started, later, later, release);
  }

  /** A transaction that was just journaled completes when its container can be stopped and its manifest will fit. */
  lemma FreshIsResumable(host: Host, a: World, b: World, j: Journal, owner: Container)
    requires JournalInv(b, j) && j == FreshJournal(j.header) && a.container == Some(owner)
             && b.container == a.container && b.data == a.data
    requires b.lock == Some(j.header.lease)
    requires OwnedAs(owner, j.header.from, None)
    requires j.header.original == OriginalContainer(owner.id, owner.startedAt, owner.restartCount)
    requires host.Lookup(j.header.from.pointer) == Some(j.header.from)
             && host.Lookup(j.header.to.pointer) == Some(j.header.to)
    ensures Resumable(host, b, j) <==>
              && owner.state in {Running, Exited(true)}
              && !TooLarge(Document(Slot(j.header.transaction, 1), j.header.from, a.data, host.report,
                                    j.header.originalRecord.owner))
  {
    hide HeaderInv, JournalOk, DocumentBytes;
  }

  /** One process of the command. Its lease and its journal in memory are lost when it ends. */
  class Command {
    const host: Host
    var journal: Option<Journal>
    var lease: bool

    /** A new process. */
    constructor (host: Host)
      modifies host`failed
      ensures this.host == host && journal == None && !lease && !host.failed
    {
      this.host := host;
      journal, lease := None, false;
      new;
      host.failed := false;
    }

    /** The journal in memory is the one on disk, and a held lease is the journaled one. */
    ghost predicate In(j: Journal)
      reads this, host
    {
      && host.Valid() && journal == Some(j) && host.w.journal == Some(j)
      && (lease ==> host.w.lock == Some(j.header.lease))
    }

    method Save(k: Journal)
      requires !host.failed
      requires host.Valid() && host.w.journal.Some?
      requires SaveStep(host.w, host.w.(journal := Some(k))) && JournalInv(host.w, k)
      requires lease ==> host.w.lock == Some(k.header.lease)
      modifies this`journal, host
      ensures !host.failed
      ensures In(k) && host.w == old(host.w).(journal := Some(k))
    {
      hide HeaderInv, JournalOk, RecordOk, Origin;
      journal := Some(k);
      host.Step(host.w.(journal := Some(k)));
    }

    method Owned(release: Release, expected: Option<string>, coop: bool) returns (c: Option<Container>)
      requires !host.failed
      requires host.Valid()
      modifies host
      ensures c.Some? || coop ==> !host.failed
      ensures host.Valid() && EnvStep(old(host.w), host.w, lease)
      ensures c.Some? ==> host.w.container == c && OwnedAs(c.value, release, expected)
      ensures host.Waited(old(host.run))
      ensures coop ==> host.w == old(host.w)
      ensures coop ==> (c.Some? <==> host.w.container.Some? && OwnedAs(host.w.container.value, release, expected))
    {
      hide HeaderInv, JournalOk, RecordOk, Origin;
      var ok := host.Await(lease, coop);
      if !ok || host.w.container.None? || !OwnedAs(host.w.container.value, release, expected) {
        return None;
      }
      c := host.w.container;
    }

    /** docker stop of the original, for as long as its name still belongs to it. */
    method StopOriginal(j: Journal, coop: bool) returns (ok: bool)
      requires !host.failed
      requires In(j) && j.phase == Intent && !lease
      modifies host
      ensures ok || coop ==> !host.failed
      ensures In(j) && EnvStep(old(host.w), host.w, false)
      ensures Only(StopStep, old(host.run), host.run)
      ensures coop && old(host.w).container.Some? && old(host.w).container.value.id == j.header.original.id
              && old(host.w).container.value.state == Running ==>
                ok && host.w == old(host.w).(container := Some(old(host.w).container.value.(state := Exited(true))))
    {
      hide HeaderInv, JournalOk, RecordOk, Origin;
      ok := host.Await(false, coop);
      ghost var waited := host.run;
      OnlyWaited(StopStep, old(host.run), waited);
      if !ok || host.w.container.None? || host.w.container.value.id != j.header.original.id {
        return false;
      }
      var c := host.w.container.value;
      if c.state == Running {
        var clean: bool := *;
        var next := host.w.(container := Some(c.(state := Exited(coop || clean))));
        EnvKeepsInv(host.w, next);
        host.Step(next);
        assert StopStep(Last(waited), host.run.after);
      }
      ok := *;
      ok := ok || coop;
    }

    /** Checks and stop, for a container that still runs. */
    method Quiesce(j: Journal, running: bool, coop: bool) returns (ok: bool)
      requires !host.failed
      requires In(j) && j.phase == Intent && !lease
      modifies host
      ensures ok || coop ==> !host.failed
      ensures In(j) && EnvStep(old(host.w), host.w, false)
      ensures coop && !running ==> ok && host.w == old(host.w)
      ensures coop && running && ok ==> old(host.w).lock == Some(j.header.lease)
      ensures coop && old(host.w).lock != Some(j.header.lease) ==> host.w == old(host.w)
      ensures coop && running && old(host.w).container.Some? && old(host.w).container.value.id == j.header.original.id
              && old(host.w).container.value.state == Running && old(host.w).lock == Some(j.header.lease) ==>
                ok && host.w == old(host.w).(container := Some(old(host.w).container.value.(state := Exited(true))))
    {
      hide HeaderInv, JournalOk, RecordOk, Origin;
      ok := host.Await(false, coop);  // conflicts
      if !ok || !running { return; }
      ok := host.Await(false, coop);
      if !ok || host.w.lock != Some(j.header.lease) {
        return false;
      }
      ok := host.Await(false, coop);  // preflight, capacity
      if !ok { return; }
      ok := StopOriginal(j, coop);
    }

    /** The phase before anything was stopped; a container that already stopped is taken as it is. */
    method FromIntent(j: Journal, coop: bool) returns (ok: bool)
      requires !host.failed
      requires In(j) && j.phase == Intent && !lease && Sha256(host.w.inst) == j.header.originalSha256
      modifies this, host
      ensures ok || coop ==> !host.failed
      ensures host.Valid() && EnvStep(old(host.w).(journal := host.w.journal), host.w, false)
      ensures ok ==> In(j.(phase := Stopped)) && lease
      ensures coop ==> (ok <==> CanStop(old(host.w), j) && old(host.w).lock == Some(j.header.lease))
      ensures coop && !ok ==> host.w == old(host.w)
      ensures coop && ok ==>
                host.w == old(host.w).(journal := Some(j.(phase := Stopped)),
                                             container := Some(old(host.w).container.value.(state := Exited(true))))
    {
      hide HeaderInv, JournalOk, RecordOk, Origin;
      var c := Owned(j.header.from, Some(j.header.original.id), coop);
      if c.None? || !IsOriginal(c.value, j) {
        return false;
      }
      ok := Quiesce(j, c.value.state == Running, coop);
      if !ok { return; }
      c := Owned(j.header.from, Some(j.header.original.id), coop);
      if c.None? || !HasStopped(c.value, j) {
        return false;
      }
      ok := AcquireLease(j, coop);
      if !ok { return; }
      StoppedMayBeSaved(host.w, j);
      Save(j.(phase := Stopped));
    }

    /** The lease is taken without waiting, or it is missing, replaced or held; from then on the tree is frozen. */
    method AcquireLease(j: Journal, coop: bool) returns (ok: bool)
      requires In(j)
      modifies this`lease
      ensures In(j) && (ok <==> lease)
      ensures ok ==> host.w.lock == Some(j.header.lease)
      ensures coop ==> (ok <==> host.w.lock == Some(j.header.lease))
    {
      var locked: bool := *;
      ok := host.w.lock == Some(j.header.lease) && (locked || coop);
      lease := ok;
    }

    /** A new attempt directory: copy the frozen tree, have the copy inspected, describe it, journal it. */
    method BackUp(j: Journal, coop: bool) returns (ok: bool, k: Journal)
      requires !host.failed
      requires In(j) && j.phase == Stopped && lease && Unswitched(host.w, j)
      modifies this`journal, host
      ensures ok || coop ==> !host.failed
      ensures host.Valid() && host.w.data == old(host.w).data && host.w.inst == old(host.w).inst
      ensures ok ==>
              In(k) && k.phase == BackedUp && k.header == j.header && k.backupAttempt == j.backupAttempt + 1
              && Backed(host.w, k)
      ensures coop ==> host.w.container == old(host.w).container && (ok <==> j.backupAttempt < MAX_ATTEMPTS)
      ensures coop && ok ==> DocumentOf(host.w, k) == FreshDocument(j, host.w.data, host.report)
    {
      hide HeaderInv, JournalOk, RecordOk, Origin;
      k := j;
      ok := host.Await(lease, coop);  // inventory, capacity
      if !ok || j.backupAttempt + 1 > MAX_ATTEMPTS {
        return false, k;
      }
      AttemptMayBeSaved(host.w, j);
      k := j.(backupAttempt := j.backupAttempt + 1);
      Save(k);
      ok := Copy(k, coop);
      if !ok { return; }
      var inspection: Inspection := *;
      if coop { inspection := host.report; }
      var d := Document(NextSlot(k), k.header.from, host.w.data, inspection, k.header.originalRecord.owner);
      ok := Describe(k, d, coop);
      if !ok { return; }
      BackedUpMayBeSaved(host.w, k, d);
      k := k.(phase := BackedUp, backup := Some(JournaledBackup(k, d)));
      Save(k);
    }

    /** The attempt directory is always new; a crash leaves it partial and unreferenced. */
    method Copy(k: Journal, coop: bool) returns (ok: bool)
      requires !host.failed
      requires In(k) && k.phase == Stopped && lease && NextSlot(k) !in host.w.backups
      modifies host
      ensures ok || coop ==> !host.failed
      ensures In(k) && host.w == old(host.w).(container := host.w.container, backups := host.w.backups)
      ensures ok ==>
              NextSlot(k) in host.w.backups && host.w.backups[NextSlot(k)] == BackupDir(Some(host.w.data), None, None)
      ensures coop ==> ok && host.w.container == old(host.w).container
    {
      hide HeaderInv, JournalOk, RecordOk, Origin;
      ok := host.Await(lease, coop);
      if !ok { return; }
      BackupMayChange(host.w, k, BackupDir(None, None, None));
      host.Step(host.w.(backups := host.w.backups[NextSlot(k) := BackupDir(None, None, None)]));
      ok := host.Await(lease, coop);
      if !ok { return; }
      var dir := BackupDir(Some(host.w.data), None, None);
      BackupMayChange(host.w, k, dir);
      host.Step(host.w.(backups := host.w.backups[NextSlot(k) := dir]));
      ok := host.Await(lease, coop);  // inspection of the copy
    }

    method Describe(k: Journal, d: Document, coop: bool) returns (ok: bool)
      requires !host.failed
      requires In(k) && k.phase == Stopped && lease
      requires NextSlot(k) in host.w.backups && host.w.backups[NextSlot(k)] == BackupDir(Some(host.w.data), None, None)
      modifies host
      ensures ok || coop ==> !host.failed
      ensures In(k) && host.w == old(host.w).(container := host.w.container, backups := host.w.backups)
      ensures NextSlot(k) in host.w.backups
              && host.w.backups[NextSlot(k)] == BackupDir(Some(host.w.data), Some(d), None)
      ensures coop ==> ok && host.w.container == old(host.w).container
    {
      hide HeaderInv, JournalOk, RecordOk, Origin;
      var dir := BackupDir(Some(host.w.data), Some(d), None);
      BackupMayChange(host.w, k, dir);
      host.Step(host.w.(backups := host.w.backups[NextSlot(k) := dir]));
      ok := host.Await(lease, coop);
    }

    /** verify_backup: the manifest on disk is the journaled one, and copy and data both equal it. */
    method VerifyBackup(j: Journal, coop: bool) returns (ok: bool)
      requires !host.failed
      requires In(j) && lease && PhaseIndex(j.phase) >= PhaseIndex(BackedUp)
      modifies host
      ensures ok || coop ==> !host.failed
      ensures In(j) && EnvStep(old(host.w), host.w, true)
      ensures Journaled(host.w, j)
      ensures ok ==> Backed(host.w, j) && !TooLarge(DocumentOf(host.w, j))
      ensures coop ==> host.w == old(host.w) && (ok <==> Backed(host.w, j) && !TooLarge(DocumentOf(host.w, j)))
    {
      hide HeaderInv, JournalOk, RecordOk, Origin;
      ok := host.Await(lease, coop);
      var b := j.backup.value;
      var dir := host.w.backups[b.slot];
      if !ok || dir.document.None? || TooLarge(dir.document.value) || Sha256(dir.document.value) != b.inventorySha256 {
        return false;
      }
      var d := dir.document.value;
      if d.slot != b.slot || d.source != j.header.from || Sha256(d.entries) != b.dataSnapshotSha256
         || dir.data != Some(d.entries) {
        return false;
      }
      var eligible: bool := *;
      ok := (eligible || coop) && Sha256(host.w.data) == b.dataSnapshotSha256;
    }

    /** Removes the original container, which is stopped and backed up, and journals both ends of the removal. */
    method Retire(j: Journal, coop: bool) returns (ok: bool)
      requires !host.failed
      requires In(j) && lease && j.phase in {BackedUp, Retiring} && Unswitched(host.w, j) && Backed(host.w, j)
      modifies this`journal, host
      ensures ok || coop ==> !host.failed
      ensures host.Valid() && host.w == old(host.w).(journal := host.w.journal, container := host.w.container)
      ensures ok ==> In(j.(phase := Retired)) && host.w.container.None?
      ensures coop ==> (ok <==> MayRetire(old(host.w), j))
    {
      hide HeaderInv, JournalOk, RecordOk, Origin;
      var k := j;
      if j.phase == BackedUp {
        var c := Owned(j.header.from, Some(j.header.original.id), coop);
        if c.None? || !HasStopped(c.value, j) {
          return false;
        }
        RetiringMayBeSaved(host.w, j);
        k := j.(phase := Retiring);
        Save(k);
      }
      ok := RemoveOriginal(k, coop);
      if !ok { return; }
      RetiredMayBeSaved(host.w, k);
      Save(k.(phase := Retired));
    }

    method RemoveOriginal(j: Journal, coop: bool) returns (ok: bool)
      requires !host.failed
      requires In(j) && lease && j.phase == Retiring && Backed(host.w, j)
      modifies host
      ensures ok || coop ==> !host.failed
      ensures In(j) && host.w == old(host.w).(container := host.w.container)
      ensures Only(RemoveStep, old(host.run), host.run)
      ensures ok ==> host.w.container.None?
      ensures coop ==> (ok <==> MayRetire(old(host.w), j))
    {
      hide HeaderInv, JournalOk, RecordOk, Origin;
      ok := host.Await(lease, coop);
      ghost var asked := host.run;
      OnlyWaited(RemoveStep, old(host.run), asked);
      if !ok { return; }
      if host.w.container.Some? {
        var c := Owned(j.header.from, Some(j.header.original.id), coop);
        ghost var looked := host.run;
        OnlyWaited(RemoveStep, asked, looked);
        OnlyChain(RemoveStep, old(host.run), asked, looked);
        if c.None? || !HasStopped(c.value, j) {
          return false;
        }
        ok := RemoveStopped(j, coop);
        OnlyChain(RemoveStep, old(host.run), looked, host.run);
        if !ok { return; }
      }
      ok := host.w.container.None?;
    }

    /** docker rm, which without force refuses a running or suspended container. */
    method RemoveStopped(j: Journal, coop: bool) returns (ok: bool)
      requires !host.failed
      requires In(j) && lease && j.phase == Retiring && Backed(host.w, j)
      modifies host
      ensures ok || coop ==> !host.failed
      ensures In(j) && host.w == old(host.w).(container := host.w.container)
      ensures Only(RemoveStep, old(host.run), host.run)
      ensures coop && old(host.w).container.Some? && HasStopped(old(host.w).container.value, j) ==>
                ok && host.w == old(host.w).(container := None)
    {
      hide HeaderInv, JournalOk, RecordOk, Origin, Inv;
      ok := host.Await(lease, coop);
      ghost var waited := host.run;
      OnlyWaited(RemoveStep, old(host.run), waited);
      if !ok || host.w.container.None? || host.w.container.value.id != j.header.original.id
         || !Ended(host.w.container.value.state) {
        return false;
      }
      EnvKeepsInv(host.w, host.w.(container := None));
      host.Step(host.w.(container := None));
      ghost var removed := host.run;
      assert RemoveStep(Last(waited), removed.after);
      ok := host.Await(lease, coop);
      OnlyWaited(RemoveStep, removed, host.run);
      OnlyChain(RemoveStep, old(host.run), removed, host.run);
    }

    /** Deploys only where no container is left, and only what is then found owned as the target goes on. */
    method Create(j: Journal, coop: bool) returns (c: Option<Container>)
      requires !host.failed
      requires In(j) && lease && j.phase == Retired && Backed(host.w, j)
      modifies host
      ensures c.Some? || coop ==> !host.failed
      ensures In(j) && host.w == old(host.w).(container := host.w.container)
      ensures c.Some? ==> host.w.container == c && OwnedAs(c.value, j.header.to, None)
      ensures coop ==> (c.Some? <==> old(host.w).container.None?)
      ensures coop && c.Some? ==> c.value.state == Running
    {
      hide HeaderInv, JournalOk, RecordOk, Origin;
      var ok := host.Await(lease, coop);
      if !ok || host.w.container.Some? {
        return None;
      }
      ok := host.Await(lease, coop);  // conflicts, deployment tool
      if !ok || host.w.container.Some? {
        return None;
      }
      var deployed: Container := *;
      if coop || !DockerOk(deployed) { deployed := Container(ANY_ID, j.header.to, "", 0, Running); }
      host.Step(host.w.(container := Some(deployed)));
      ok := host.Await(lease, coop);
      if !ok {
        return None;
      }
      c := Owned(j.header.to, None, coop);
    }

    method Deploy(j: Journal, coop: bool) returns (ok: bool, k: Journal)
      requires !host.failed
      requires In(j) && lease && j.phase == Retired && Unswitched(host.w, j) && Backed(host.w, j)
      modifies this`journal, host
      ensures ok || coop ==> !host.failed
      ensures host.Valid() && host.w == old(host.w).(journal := host.w.journal, container := host.w.container)
      ensures ok ==> In(k) && k == j.(phase := Deployed, candidateId := k.candidateId)
      ensures coop ==> (ok <==> old(host.w).container.None?)
      ensures coop && ok ==> MayFinish(host.w, k)
    {
      hide HeaderInv, JournalOk, RecordOk, Origin;
      k := j;
      var candidate := Create(j, coop);
      ok := candidate.Some?;
      if ok {
        DeployedMayBeSaved(host.w, j);
        k := j.(phase := Deployed, candidateId := Some(candidate.value.id));
        Save(k);
      }
    }

    /** The candidate must be running, before and after it is ready, as one and the same start. */
    method ConfirmRunning(j: Journal, since: Option<Container>, coop: bool) returns (c: Option<Container>)
      requires !host.failed
      requires In(j) && PhaseIndex(j.phase) >= PhaseIndex(Deployed)
      modifies host
      ensures c.Some? || coop ==> !host.failed
      ensures In(j) && EnvStep(old(host.w), host.w, lease)
      ensures c.Some? ==>
              host.w.container == c && OwnedAs(c.value, j.header.to, j.candidateId) && c.value.state == Running
      ensures c.Some? && since.Some? ==>
              c.value.startedAt == since.value.startedAt && c.value.restartCount == since.value.restartCount
      ensures coop ==> host.w == old(host.w)
      ensures coop && MayFinish(host.w, j) && (since.Some? ==> host.w.container == since) ==> c == host.w.container
      ensures coop && !MayFinish(host.w, j) ==> c.None?
    {
      hide HeaderInv, JournalOk, RecordOk, Origin;
      c := Owned(j.header.to, j.candidateId, coop);
      if c.Some? && (c.value.state != Running
                     || (since.Some? && (c.value.startedAt != since.value.startedAt
                                         || c.value.restartCount != since.value.restartCount))) {
        c := None;
      }
    }

    /** The candidate runs before and after it reports ready, as one and the same start. */
    method Ready(j: Journal, coop: bool) returns (c: Option<Container>)
      requires !host.failed
      requires In(j) && PhaseIndex(j.phase) >= PhaseIndex(Deployed)
      modifies host
      ensures c.Some? || coop ==> !host.failed
      ensures In(j) && EnvStep(old(host.w), host.w, lease)
      ensures c.Some? ==> OwnedAs(c.value, j.header.to, j.candidateId) && c.value.state == Running
      ensures coop ==>
              host.w == old(host.w) && (c.Some? <==> MayFinish(host.w, j)) && (c.Some? ==> c == host.w.container)
    {
      hide HeaderInv, JournalOk, RecordOk, Origin;
      c := ConfirmRunning(j, None, coop);
      if c.None? {
        return None;
      }
      var before := c;
      var ok := host.Await(lease, coop);
      if !ok {
        return None;
      }
      c := ConfirmRunning(j, before, coop);
      if c.None? {
        return None;
      }
      ok := host.Await(lease, coop);  // conflicts
      c := if ok then before else None;
    }

    /** Readiness, the last verification, and the one write that switches the installation. */
    method Switch(j: Journal, coop: bool) returns (ok: bool)
      requires !host.failed
      requires In(j) && lease && j.phase == Deployed && Unswitched(host.w, j)
      modifies host
      ensures ok || coop ==> !host.failed
      ensures In(j)
      ensures ok ==> host.w.inst == CanonicalBytes(j.header.nextRecord)
      ensures Journaled(old(host.w), j)
      ensures coop ==> (ok <==> old(MayFinish(host.w, j) && Backed(host.w, j) && !TooLarge(DocumentOf(host.w, j))))
    {
      hide HeaderInv, Origin, OurStep, SwitchStep;
      var before := Ready(j, coop);
      if before.None? {
        return false;
      }
      ok := VerifyBackup(j, coop);
      if !ok { return; }
      var final := ConfirmRunning(j, before, coop);
      if final.None? || host.w.lock != Some(j.header.lease) || Sha256(host.w.inst) != j.header.originalSha256 {
        return false;
      }
      MaySwitch(host.w, j);
      host.Step(host.w.(inst := CanonicalBytes(j.header.nextRecord)));
    }

    /** archive: commits the journal and moves it into its backup, also when that move was done before. */
    method Archive(j: Journal, coop: bool) returns (ok: bool)
      requires !host.failed
      requires In(j) && PhaseIndex(j.phase) >= PhaseIndex(Deployed)
               && host.w.inst == CanonicalBytes(j.header.nextRecord)
      modifies this`journal, host
      ensures ok || coop ==> !host.failed
      ensures host.Valid() && host.w.inst == old(host.w).inst
      ensures ok ==>
              host.w.journal.None? && journal == Some(j.(phase := Committed)) && IsArchived(host.w, journal.value)
      ensures coop ==> ok
    {
      hide HeaderInv, JournalOk, RecordOk, Origin;
      ok := host.Await(lease, coop);
      NextIsNotOriginal(host.w, j);
      if !ok || Sha256(host.w.inst) != j.header.nextSha256 {
        return false;
      }
      CommittedMayBeSaved(host.w, j);
      var k := j.(phase := Committed);
      Save(k);
      ok := host.Await(lease, coop);
      if !ok { return; }
      ArchiveKeepsInv(host.w, k);
      var slot := k.backup.value.slot;
      var dir := host.w.backups[slot];
      if dir.transaction.Some? {
        if dir.transaction.value != k {
          return false;
        }
        assert host.w.backups == host.w.backups[slot := dir.(transaction := Some(k))];
        host.Step(host.w.(journal := None));
      } else {
        host.Step(host.w.(journal := None, backups := host.w.backups[slot := dir.(transaction := Some(k))]));
      }
    }

    /** The checks of a resumed journal past its first phase, before the lease is taken again. */
    method Recheck(j: Journal, coop: bool) returns (ok: bool)
      requires !host.failed
      requires In(j) && !lease && j.phase !in {Intent, Committed}
      modifies `lease, host
      ensures ok || coop ==> !host.failed
      ensures In(j) && EnvStep(old(host.w), host.w, false)
      ensures ok ==> lease
      ensures coop ==> host.w == old(host.w)
      ensures coop ==> (ok <==> Recognised(host.w, j) && !Unjournaled(host.w, j))
    {
      hide HeaderInv, JournalOk, RecordOk, Origin;
      if j.phase == Retired || j.phase == Retiring {
        ok := host.Await(false, coop);
        if !ok || (j.phase == Retired && host.w.container.Some?) {
          return false;
        }
      }
      if j.phase == Deployed {
        var c := Owned(j.header.to, j.candidateId, coop);
        if c.None? {
          return false;
        }
      } else if j.phase != Retired && (j.phase != Retiring || host.w.container.Some?) {
        var c := Owned(j.header.from, Some(j.header.original.id), coop);
        if c.None? || !HasStopped(c.value, j) {
          return false;
        }
      }
      ok := AcquireLease(j, coop);
    }

    /** From the journal as it was found to a stopped original, or a later phase, under the lease. */
    method Prepare(j: Journal, coop: bool) returns (ok: bool, k: Journal)
      requires !host.failed
      requires In(j) && !lease && j.phase != Committed && Unswitched(host.w, j)
      modifies this, host
      ensures ok || coop ==> !host.failed
      ensures host.Valid() && host.w.inst == old(host.w).inst
      ensures ok ==> lease && In(k) && k == (if j.phase == Intent then j.(phase := Stopped) else j)
      ensures coop && !ok ==> !Undisturbed(old(host.w), j) || Stuck(old(host.w), j, host.report)
      ensures coop && !ok ==> host.w == old(host.w)
      ensures coop && ok ==>
                && !Unjournaled(host.w, k) && Recognised(host.w, k)
                && (Undisturbed(old(host.w), j) <==> Undisturbed(host.w, k))
                && (Stuck(old(host.w), j, host.report) <==> Stuck(host.w, k, host.report))
    {
      hide HeaderInv, JournalOk, RecordOk, Origin;
      k := j;
      if j.phase == Intent {
        ok := FromIntent(j, coop);
        k := j.(phase := Stopped);
      } else {
        ok := Recheck(j, coop);
      }
      if !ok { return; }
      ok := host.Await(lease, coop);  // conflicts
      if !ok { return; }
      ok := host.Await(lease, coop);  // preflight
      if coop { StuckPrepared(old(host.w), host.w, j, k, host.report); }
    }

    /** A verified backup: the journaled one, or a new attempt. */
    method Protect(j: Journal, coop: bool) returns (ok: bool, k: Journal)
      requires !host.failed
      requires In(j) && lease && j.phase !in {Intent, Committed} && Unswitched(host.w, j)
      modifies this`journal, host
      ensures ok || coop ==> !host.failed
      ensures host.Valid() && host.w.inst == old(host.w).inst
      ensures ok ==>
              In(k) && Backed(host.w, k) && k.header == j.header
              && k.phase == (if j.phase == Stopped then BackedUp else j.phase)
      ensures ok ==> !TooLarge(DocumentOf(host.w, k))
      ensures coop && !ok ==> !Undisturbed(old(host.w), j) || Stuck(old(host.w), j, host.report)
      ensures coop && ok && Recognised(old(host.w), j) && !Unjournaled(old(host.w), j) ==>
                && !Stuck(old(host.w), j, host.report)
                && Recognised(host.w, k) && !Unjournaled(host.w, k)
                && (Undisturbed(old(host.w), j) <==> ContainerAsLeft(host.w, k))
    {
      hide HeaderInv, Origin;
      k := j;
      if j.phase == Stopped {
        ok, k := BackUp(j, coop);
        if !ok { return; }
      }
      ok := VerifyBackup(k, coop);
    }

    /** From a verified backup to the deployed candidate. */
    method Exchange(j: Journal, coop: bool) returns (ok: bool, k: Journal)
      requires !host.failed
      requires In(j) && lease && j.phase in {BackedUp, Retiring, Retired, Deployed} && Unswitched(host.w, j)
               && Backed(host.w, j)
      modifies this`journal, host
      ensures ok || coop ==> !host.failed
      ensures host.Valid() && host.w == old(host.w).(journal := host.w.journal, container := host.w.container)
      ensures ok ==> In(k) && k.phase == Deployed && k.header == j.header && k.backup == j.backup
      ensures coop && Recognised(old(host.w), j) && !Unjournaled(old(host.w), j) ==>
              ok && (MayFinish(host.w, k) <==> ContainerAsLeft(old(host.w), j))
    {
      hide HeaderInv, JournalOk, RecordOk, Origin;
      k := j;
      ok := true;
      if k.phase == BackedUp || k.phase == Retiring {
        ok := Retire(k, coop);
        if !ok { return; }
        k := k.(phase := Retired);
      }
      if k.phase == Retired {
        ok, k := Deploy(k, coop);
      }
    }

    method Resolve(p: Pointer, coop: bool) returns (r: Option<Release>)
      requires !host.failed
      requires host.Valid()
      modifies host
      ensures r.Some? || coop ==> !host.failed
      ensures host.Valid() && EnvStep(old(host.w), host.w, lease)
      ensures r.Some? ==> ReleaseOk(r.value) && r.value.pointer == p
      ensures host.Waited(old(host.run))
      ensures coop ==> host.w == old(host.w) && r == host.Lookup(p)
    {
      hide HeaderInv, JournalOk, RecordOk, Origin;
      var ok := host.Await(lease, coop);
      r := *;
      if coop || (r.Some? && (!ReleaseOk(r.value) || r.value.pointer != p)) { r := host.Lookup(p); }
      if !ok { r := None; }
    }

    /** Both releases still are what the journal says. */
    method Confirm(j: Journal, coop: bool) returns (ok: bool)
      requires !host.failed
      requires In(j) && !lease
      modifies host
      ensures ok || coop ==> !host.failed
      ensures In(j) && EnvStep(old(host.w), host.w, false)
      ensures coop ==> host.w == old(host.w)
      ensures coop ==>
              (ok <==> host.Lookup(j.header.from.pointer) == Some(j.header.from)
                       && host.Lookup(j.header.to.pointer) == Some(j.header.to))
    {
      var source := Resolve(j.header.from.pointer, coop);
      if source.None? {
        return false;
      }
      var target := Resolve(j.header.to.pointer, coop);
      ok := source == Some(j.header.from) && target == Some(j.header.to)
            && (source.value.inspector || target.value.inspector);
    }

    /** From a verified backup to the switch. */
    method Complete(j: Journal, coop: bool) returns (ok: bool, k: Journal)
      requires !host.failed
      requires In(j) && lease && j.phase in {BackedUp, Retiring, Retired, Deployed} && Unswitched(host.w, j)
               && Backed(host.w, j)
      requires !TooLarge(DocumentOf(host.w, j))
      modifies this`journal, host
      ensures ok || coop ==> !host.failed
      ensures host.Valid()
      ensures ok ==>
              In(k) && k.header == j.header && k.phase == Deployed && host.w.inst == CanonicalBytes(j.header.nextRecord)
      ensures coop && Recognised(old(host.w), j) && !Unjournaled(old(host.w), j) ==>
              (ok <==> ContainerAsLeft(old(host.w), j))
    {
      hide HeaderInv, JournalOk, RecordOk, Origin;
      ok, k := Exchange(j, coop);
      if !ok { return; }
      ok := Switch(k, coop);
    }

    /** From the journal as it was found to a verified switch, or until something refuses. */
    method Advance(j: Journal, coop: bool) returns (ok: bool, k: Journal)
      requires !host.failed
      requires In(j) && !lease && j.phase != Committed && Unswitched(host.w, j)
      modifies this, host
      ensures ok || coop ==> !host.failed
      ensures host.Valid()
      ensures ok ==>
              In(k) && k.header == j.header && k.phase == Deployed && host.w.inst == CanonicalBytes(j.header.nextRecord)
      ensures coop ==> (ok <==> Undisturbed(old(host.w), j) && !Stuck(old(host.w), j, host.report))
    {
      hide HeaderInv, JournalOk, Undisturbed, DocumentOf, ManifestOf, FreshDocument, IsStep, Origin;
      ok, k := Prepare(j, coop);
      if !ok { return; }
      ok, k := Protect(k, coop);
      if !ok { return; }
      ok, k := Complete(k, coop);
    }

    /** resume: a journal whose switch was made is archived, any other is carried on. */
    method Resume(j: Journal, coop: bool) returns (ok: bool)
      requires !host.failed
      requires In(j) && !lease
      modifies this, host
      ensures ok || coop ==> !host.failed
      ensures host.Valid()
      ensures ok ==> host.w.inst == CanonicalBytes(j.header.nextRecord) && host.w.journal.None?
      ensures ok ==> journal.Some? && journal.value.header == j.header && IsArchived(host.w, journal.value)
      ensures coop ==> (ok <==> (old(Unswitched(host.w, j)) ==> Resumable(host, old(host.w), j)))
    {
      hide HeaderInv, JournalOk, RecordOk, Origin;
      NextIsNotOriginal(host.w, j);
      if Sha256(host.w.inst) == j.header.nextSha256 {
        ok := Archive(j, coop);
        return;
      }
      ok := Confirm(j, coop);
      if !ok || Sha256(host.w.inst) != j.header.originalSha256 || j.phase == Committed {
        return false;
      }
      var k;
      ok, k := Advance(j, coop);
      if !ok { return; }
      ok := Archive(k, coop);
    }

    /** Nothing to do: the installed release must own the container, and its predecessor must still resolve. */
    method Keep(source: Release, previous: Option<Pointer>, coop: bool) returns (r: Outcome)
      requires !host.failed
      requires host.Valid() && !lease
      modifies host
      ensures r != Blocked || coop ==> !host.failed
      ensures host.Valid() && EnvStep(old(host.w), host.w, false) && (r == Unchanged || r == Blocked)
      ensures r == Unchanged ==> Saw(old(host.run), host.run, source)
      ensures coop ==> host.w == old(host.w)
      ensures coop ==> (r == Unchanged <==>
                          && old(host.w).container.Some? && OwnedAs(old(host.w).container.value, source, None)
                          && (previous.Some? ==> host.Lookup(previous.value).Some?))
    {
      hide HeaderInv, JournalOk, RecordOk, Origin;
      var c := Owned(source, None, coop);
      ghost var looked := host.run;
      if c.None? {
        return Blocked;
      }
      SeesOwned(old(host.run), looked, source);
      var ok := Previous(previous, coop);
      SawOnce(old(host.run), looked, host.run, source);
      r := if ok then Unchanged else Blocked;
    }

    method Previous(previous: Option<Pointer>, coop: bool) returns (ok: bool)
      requires !host.failed
      requires host.Valid() && !lease
      modifies host
      ensures ok || coop ==> !host.failed
      ensures host.Valid() && EnvStep(old(host.w), host.w, false) && host.Waited(old(host.run))
      ensures coop ==> host.w == old(host.w)
      ensures coop ==> (ok <==> (previous.Some? ==> host.Lookup(previous.value).Some?))
    {
      ok := true;
      if previous.Some? {
        var release := Resolve(previous.value, coop);
        ok := release.Some?;
      }
    }

    /** An upgrade must go to a higher version; where a rollback goes was looked up. */
    method Permitted(operation: Operation, r: Record, target: Pointer) returns (ok: bool)
      requires operation == Rollback ==> Normal(r).previous == Some(target)
      ensures ok <==> MaySelect(operation, r, target)
    {
      hide PointerOk;
      ok := true;
      if operation != Rollback {
        var higher := Newer(target.version, Normal(r).current.version);
        ok := higher == Ok(true);
      }
    }

    /** Everything that is checked before a journal is written; the container that was found owned. */
    method Survey(operation: Operation, source: Release, target: Release, coop: bool)
      returns (found: Option<(Container, Lease)>)
      requires !host.failed
      requires host.Valid() && !lease && host.w.journal.None?
      requires ReleaseOk(source) && ReleaseOk(target) && source.pointer == Normal(host.w.inst.record).current
      requires operation == Rollback ==> Normal(host.w.inst.record).previous == Some(target.pointer)
      modifies host
      ensures found.Some? || coop ==> !host.failed
      ensures host.Valid() && EnvStep(old(host.w), host.w, false)
      ensures found.Some? ==> Saw(old(host.run), host.run, source)
      ensures found.Some? ==> DockerOk(found.value.0) && (source.inspector || target.inspector)
      ensures found.Some? ==> MaySelect(operation, host.w.inst.record, target.pointer)
      ensures coop ==> host.w == old(host.w)
      ensures coop ==> (found.Some? <==> MayBegin(host.w, operation, source, target))
      ensures coop && found.Some? ==> host.w.container == Some(found.value.0) && host.w.lock == Some(found.value.1)
    {
      hide HeaderInv, JournalInv, JournalOk, RecordOk, Origin, OwnedAs, MaySelect, Saw, Only;
      var permitted := Permitted(operation, host.w.inst.record, target.pointer);
      if !permitted {
        return None;
      }
      var c := Owned(source, None, coop);
      ghost var looked := host.run;
      if c.None? {
        return None;
      }
      SeesOwned(old(host.run), looked, source);
      var ok := host.Await(false, coop);
      ghost var leased := host.run;
      SawOnce(old(host.run), looked, leased, source);
      if !ok || host.w.lock.None? {
        return None;
      }
      var lock := host.w.lock.value;
      ok := host.Await(false, coop);  // conflicts
      ghost var free := host.run;
      SawOnce(old(host.run), leased, free, source);
      if !ok || source.contract != target.contract || !(source.inspector || target.inspector) {
        return None;
      }
      ok := host.Await(false, coop);  // preflight, capacity
      SawOnce(old(host.run), free, host.run, source);
      found := if ok then Some((c.value, lock)) else None;
    }

    method Begin(j: Journal)
      requires !host.failed
      requires host.Valid() && !lease && host.w.journal.None? && j == FreshJournal(j.header)
      requires j.header.transaction !in host.w.transactions && HeaderInv(j.header)
               && j.header.originalSha256 == Sha256(host.w.inst)
      modifies this`journal, host
      ensures !host.failed
      ensures In(j)
      ensures host.w == old(host.w).(journal := Some(j),
                                     transactions := old(host.w).transactions + {j.header.transaction})
    {
      hide HeaderInv, JournalOk, RecordOk, Origin;
      BeginKeepsInv(host.w, j);
      journal := Some(j);
      host.Step(host.w.(journal := Some(j), transactions := host.w.transactions + {j.header.transaction}));
    }

    /** A check, or a whole transaction, to a release other than the installed one. */
    method Transact(operation: Operation, source: Release, target: Release, nonce: string, coop: bool)
      returns (r: Outcome)
      requires !host.failed
      requires host.Valid() && !lease && host.w.journal.None? && operation != Recover
      requires ReleaseOk(source) && ReleaseOk(target) && source.pointer == Normal(host.w.inst.record).current
      requires operation == Rollback ==> Normal(host.w.inst.record).previous == Some(target.pointer)
      requires target.pointer != source.pointer && IsUuid(nonce) && nonce !in host.w.transactions
      modifies this, host
      ensures r != Blocked || coop ==> !host.failed
      ensures host.Valid() && r != Unchanged
      ensures r == Checked ==> operation == Check && EnvStep(old(host.w), host.w, false)
      ensures r == Checked ==> MaySelect(Check, old(host.w).inst.record, target.pointer)
      ensures r == Checked ==> Saw(old(host.run), host.run, source)
      ensures coop && r == Checked ==> host.w == old(host.w)
      ensures coop && operation == Check ==> (r == Checked <==>
                var previous := Normal(old(host.w).inst.record).previous;
                && MayBegin(old(host.w), operation, source, target)
                && (previous.Some? ==> host.Lookup(previous.value).Some?))
      ensures r.Completed? ==>
                && r == Completed(false) && operation in {Upgrade, Rollback} && host.w.journal.None?
                && host.w.inst == CanonicalBytes(NextRecord(old(host.w).inst.record, target.pointer))
                && journal.Some? && journal.value.header.transaction == nonce && IsArchived(host.w, journal.value)
      ensures coop && operation in {Upgrade, Rollback}
              && host.Lookup(source.pointer) == Some(source) && host.Lookup(target.pointer) == Some(target) ==>
                (r.Completed? <==> Transactable(old(host.w), operation, source, target, host.report, nonce))
    {
      hide HeaderInv, MaySelect, ReleaseOk, OurStep, JournalOk, Origin, Resumable;
      var found := Survey(operation, source, target, coop);
      if found.None? {
        return Blocked;
      }
      if operation == Check {
        ghost var surveyed := host.run;
        var ok := Previous(Normal(host.w.inst.record).previous, coop);
        SawOnce(old(host.run), surveyed, host.run, source);
        return if ok then Checked else Blocked;
      }
      var j := FreshJournal(FreshHeader(operation, host.w, source, target, found.value.0, found.value.1, nonce));
      FreshHeaderInv(operation, host.w, source, target, found.value.0, found.value.1, nonce);
      Begin(j);
      if coop && host.Lookup(source.pointer) == Some(source) && host.Lookup(target.pointer) == Some(target) {
        FreshIsResumable(host, old(host.w), host.w, j, found.value.0);
      }
      var done := Resume(j, coop);
      r := if done then Completed(false) else Blocked;
    }

    method Execute(operation: Operation, target: Pointer, nonce: string, coop: bool) returns (r: Outcome)
      requires !host.failed
      requires host.Valid() && journal.None? && !lease && IsUuid(nonce) && nonce !in host.w.transactions
      modifies this, host
      ensures r != Blocked || coop ==> !host.failed
      ensures host.Valid()
      ensures r == Unchanged || r == Checked ==>
                EnvStep(old(host.w), host.w, false) && host.w.journal.None? && Asked(old(host.w), operation, target, r)
      ensures r == Unchanged || r == Checked ==> SawCurrent(old(host.run), host.run)
      ensures coop && old(host.w).journal.None? ==> Answers(host, old(host.w), operation, target, nonce, r)
      ensures coop && (r == Unchanged || r == Checked) ==> host.w == old(host.w)
      ensures r.Completed? ==> host.w.journal.None? && journal.Some? && IsArchived(host.w, journal.value)
      ensures r == Completed(false) ==>
                && operation in {Upgrade, Rollback} && old(host.w).journal.None?
                && Selected(operation, old(host.w).inst.record, target).Some?
                && host.w.inst == CanonicalBytes(NextRecord(old(host.w).inst.record,
                                                            Selected(operation, old(host.w).inst.record, target).value))
      ensures old(host.w).journal.Some? && !(operation == Recover && LoadAccepts(old(host.w).journal.value)) ==>
                r == Blocked && EnvStep(old(host.w), host.w, false)
      ensures coop && operation == Recover && old(host.w).journal.Some? ==>
                var j := old(host.w).journal.value;
                (r == Completed(true) <==>
                   LoadAccepts(j)
                   && (old(Unswitched(host.w, host.w.journal.value)) ==> Resumable(host, old(host.w), j)))
    {
      hide HeaderInv, JournalOk, MaySelect, LoadAccepts, Resumable;
      var ok := host.Await(false, coop);  // operator
      if !ok {
        return Blocked;
      }
      if host.w.journal.Some? {
        var j := host.w.journal.value;
        if operation != Recover || !LoadAccepts(j) {
          return Blocked;
        }
        journal := Some(j);
        ok := Resume(j, coop);
        return if ok then Completed(true) else Blocked;
      }
      ghost var asked := host.run;
      OnlyWaited(Nothing, old(host.run), asked);
      r := StartOperation(operation, target, nonce, coop);
      if r == Unchanged || r == Checked { SawCurrentAlong(old(host.run), asked, host.run); }
    }

    /** Without a journal. */
    method StartOperation(operation: Operation, target: Pointer, nonce: string, coop: bool) returns (r: Outcome)
      requires !host.failed
      requires host.Valid() && host.w.journal.None? && !lease && IsUuid(nonce) && nonce !in host.w.transactions
      modifies this, host
      ensures r != Blocked || coop ==> !host.failed
      ensures host.Valid()
      ensures r == Unchanged || r == Checked ==>
                EnvStep(old(host.w), host.w, false) && Asked(old(host.w), operation, target, r)
      ensures r == Unchanged || r == Checked ==> SawCurrent(old(host.run), host.run)
      ensures coop ==> Answers(host, old(host.w), operation, target, nonce, r)
      ensures coop && (r == Unchanged || r == Checked) ==> host.w == old(host.w)
      ensures r.Completed? ==>
                && r == Completed(false) && operation in {Upgrade, Rollback} && host.w.journal.None?
                && Selected(operation, old(host.w).inst.record, target).Some?
                && host.w.inst == CanonicalBytes(NextRecord(old(host.w).inst.record,
                                                            Selected(operation, old(host.w).inst.record, target).value))
                && journal.Some? && IsArchived(host.w, journal.value)
    {
      hide HeaderInv, MaySelect, ReleaseOk, Transactable, Answers, Asked, MayBegin, OwnedAs, RecordOk, JournalOk,
        Origin;
      ghost var w, run := host.w, host.run;
      var state := Normal(host.w.inst.record);
      var source := Resolve(state.current, coop);
      ghost var resolved := host.run;
      OnlyWaited(Nothing, run, resolved);
      if source.None? {
        if coop { NothingAnswers(host, w, operation, target, nonce); }
        return Blocked;
      }
      if operation == Recover {
        r := Keep(source.value, state.previous, coop);
        if r == Unchanged { SawLater(run, resolved, host.run, source.value); }
        KeepIsAsked(w, operation, target, r);
        if coop { KeepAnswers(host, w, operation, target, nonce, r); }
        return;
      }
      var selected := Selected(operation, state, target);
      if selected.None? {
        if coop { NothingAnswers(host, w, operation, target, nonce); }
        return Blocked;
      }
      var release := Resolve(selected.value, coop);
      ghost var both := host.run;
      OnlyWaited(Nothing, resolved, both);
      OnlyChain(Nothing, run, resolved, both);
      if release.None? {
        if coop { NothingAnswers(host, w, operation, target, nonce); }
        return Blocked;
      }
      if selected.value == state.current {
        r := Keep(source.value, state.previous, coop);
        if r == Unchanged { SawLater(run, both, host.run, source.value); }
        KeepIsAsked(w, operation, target, r);
        if coop { KeepAnswers(host, w, operation, target, nonce, r); }
        return;
      }
      r := Transact(operation, source.value, release.value, nonce, coop);
      if r == Checked { SawLater(run, both, host.run, source.value); }
      CheckIsAsked(w, operation, target, r);
      if coop { TransactAnswers(host, w, operation, target, nonce, r, source.value, release.value); }
    }
  }
}
