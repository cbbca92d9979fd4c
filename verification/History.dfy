/** What holds over every run of the maintenance command: any invocations, any crashes, any environment. */
module History {
  import opened Text
  import opened SemVer
  import opened Tree
  import opened Records
  import opened World
  import opened Maintenance

  /** `p` is an earlier moment of `run`, or its end. */
  ghost predicate Prefix(p: Run, run: Run) { p == run || (run.Then? && Prefix(p, run.before)) }

  // ---------------------------------------------------------------- containers and the switch

  /** Our last step took away the container that was there. */
  ghost predicate Removes(run: Run) {
    && run.Then? && run.ours && Last(run.before).container.Some?
    && (run.after.container.Some? ==> run.after.container.value.id != Last(run.before).container.value.id)
  }

  /** The command removes only the original, when it has ended, and only while the data equal the journaled backup. */
  lemma RemovedOnlyBacked(run: Run)
    requires IsRun(run) && Removes(run)
    ensures var a := Last(run.before);
            && a.journal.Some? && a.journal.value.phase == Retiring && Backed(a, a.journal.value)
            && a.container.value.id == a.journal.value.header.original.id && Ended(a.container.value.state)
            && HoldsData(a, a.journal.value)
  {
    hide HeaderInv, JournalOk, RecordOk;
  }

  /** The journaled backup directory holds the data as they are, with a manifest of just these. */
  ghost predicate HoldsData(w: World, j: Journal) {
    && j.backup.Some? && j.backup.value.slot in w.backups
    && var dir := w.backups[j.backup.value.slot];
    && dir.data == Some(w.data) && dir.document.Some? && dir.document.value.entries == w.data
    && dir.document.value.source == j.header.from && dir.document.value.owner == j.header.originalRecord.owner
  }

  /** The container is the original, of the same start and restarts, and has exited without error. */
  ghost predicate OriginalHasStopped(w: World, j: Journal) {
    && w.container.Some? && w.container.value.state == Exited(true)
    && w.container.value.id == j.header.original.id && w.container.value.startedAt == j.header.original.startedAt
    && w.container.value.restartCount == j.header.original.restartCount
  }

  /** What was the case when a phase was entered, in any run. */
  lemma EntersPhase(run: Run, phase: Phase)
    requires IsRun(run) && run.Then? && Last(run.before).journal.Some? && run.after.journal.Some?
    requires Last(run.before).journal.value.phase != phase == run.after.journal.value.phase
    ensures var w, j, k := Last(run.before), Last(run.before).journal.value, run.after.journal.value;
            && phase != Intent && k == j.(phase := phase, backup := k.backup, candidateId := k.candidateId)
            && (phase == Stopped ==> j.phase == Intent && OriginalHasStopped(w, j))
            && (phase == BackedUp ==> j.phase == Stopped && HoldsData(w, k))
            && (phase == Retiring ==> j.phase == BackedUp && OriginalHasStopped(w, j) && HoldsData(w, j))
            && (phase == Retired ==> j.phase == Retiring && w.container.None? && HoldsData(w, j))
            && (phase == Deployed ==>
                  && j.phase == Retired && HoldsData(w, j) && w.container.Some?
                  && w.container.value.runs == j.header.to && k.candidateId == Some(w.container.value.id))
            && (phase == Committed ==> j.phase == Deployed && w.inst == CanonicalBytes(j.header.nextRecord))
  {
    hide HeaderInv, JournalOk, RecordOk, Inv, CanonicalBytes, IsHex, ReleaseOk;
  }

  ghost predicate Switches(run: Run) { run.Then? && run.after.inst != Last(run.before).inst }

  /**
   * The installation changes only to the journaled record, with its candidate running and its backup still equal
   * to the data.
   */
  lemma SwitchedOnlyCertified(run: Run)
    requires IsRun(run) && Switches(run)
    ensures var a := Last(run.before);
            && a.journal.Some? && a.journal.value.phase == Deployed && Backed(a, a.journal.value)
            && run.after.inst == CanonicalBytes(a.journal.value.header.nextRecord)
            && a.container.Some? && Some(a.container.value.id) == a.journal.value.candidateId
            && a.container.value.runs == a.journal.value.header.to && a.container.value.state == Running
  {
    hide HeaderInv, JournalOk, RecordOk;
  }

  // ---------------------------------------------------------------- the journal of one transaction

  /** What an earlier journal says about any later world. */
  ghost predicate LaterThan(w: World, j: Journal) {
    && j.header.transaction in w.transactions
    && (w.journal.Some? && w.journal.value.header.transaction == j.header.transaction ==>
          && w.journal.value.header == j.header
          && PhaseIndex(j.phase) <= PhaseIndex(w.journal.value.phase)
          && j.backupAttempt <= w.journal.value.backupAttempt)
  }

  lemma LaterStep(ours: bool, a: World, b: World, j: Journal)
    requires Inv(a) && Inv(b) && IsStep(ours, a, b) && LaterThan(a, j)
    ensures LaterThan(b, j)
  {
    hide HeaderInv, JournalOk, RecordOk, Journaled;
  }

  /** Across any number of crashes a transaction keeps its header, and neither its phase nor its attempt goes back. */
  lemma {:induction false} PhaseNeverDecreases(p: Run, run: Run, j: Journal)
    requires IsRun(run) && Prefix(p, run) && Last(p).journal == Some(j)
    ensures LaterThan(Last(run), j)
  {
    hide HeaderInv, JournalOk, RecordOk, Journaled;
    if p != run {
      PhaseNeverDecreases(p, run.before, j);
      LaterStep(run.ours, Last(run.before), run.after, j);
    }
  }

  /** A transaction starts at the first phase, advances by one phase at a time, and ends only committed and archived. */
  lemma OnePhaseAtATime(run: Run)
    requires IsRun(run) && run.Then?
    ensures var a, b := Last(run.before), run.after;
            && (a.journal.None? && b.journal.Some? ==>
                  b.journal.value.phase == Intent && b.journal.value.header.transaction !in a.transactions)
            && (a.journal.Some? && b.journal.Some? ==>
                  && b.journal.value.header == a.journal.value.header
                  && PhaseIndex(a.journal.value.phase) <= PhaseIndex(b.journal.value.phase)
                  && PhaseIndex(b.journal.value.phase) <= PhaseIndex(a.journal.value.phase) + 1)
            && (a.journal.Some? && b.journal.None? ==>
                  a.journal.value.phase == Committed && IsArchived(b, a.journal.value))
  {
    hide HeaderInv, JournalOk, RecordOk;
    var j := Last(run.before).journal;
    if j.Some? && j.value.phase == Committed { assert j.value.(phase := Committed) == j.value; }
  }

  /** Every journal that any run leaves behind is read back, unless the file or a file system number is too large. */
  lemma PersistedJournalAccepted(run: Run, j: Journal)
    requires IsRun(run) && Last(run).journal == Some(j)
    ensures LoadAccepts(j) <==> LeaseOk(j.header.lease) && JournalBytes(j) <= MAX_PRIVATE
  {
    hide HeaderInv, RecordOk, Journaled;
  }

  // ---------------------------------------------------------------- the installation record

  lemma {:induction false} OwnerNeverChanges(run: Run)
    requires IsRun(run)
    ensures Last(run).inst.record.owner == Origin(run).inst.record.owner
  {
    if run.Then? {
      OwnerNeverChanges(run.before);
      if Switches(run) { SwitchedOnlyCertified(run); }
    }
  }

  /** The installation records of a run, one for every switch. */
  ghost function Installed(run: Run): (r: seq<Record>)
    requires IsRun(run)
    ensures r != [] && r[|r| - 1] == Last(run).inst.record
  {
    if run.Start? then [run.first.inst.record]
    else if Switches(run) then Installed(run.before) + [run.after.inst.record]
    else Installed(run.before)
  }

  /** One release after another: the new previous is the old current, and the new current was selected legally. */
  ghost predicate Follows(r: Record, s: Record) {
    && s.Record2? && s.owner == r.owner && s.previous == Some(Normal(r).current)
    && (MaySelect(Rollback, r, s.current) || MaySelect(Upgrade, r, s.current))
    && s.current != Normal(r).current
  }

  lemma HeaderFollows(h: Header)
    requires HeaderInv(h)
    ensures Follows(h.originalRecord, h.nextRecord)
  {
    hide MaySelect, PointerOk, RecordOk, ReleaseOk;
    assert MaySelect(h.operation, h.originalRecord, h.to.pointer);
  }

  lemma ReplacesOriginal(w: World)
    requires Inv(w) && w.journal.Some? && w.journal.value.phase == Deployed
             && w.inst != CanonicalBytes(w.journal.value.header.nextRecord)
    ensures HeaderInv(w.journal.value.header) && w.journal.value.header.originalRecord == w.inst.record
  {
    hide HeaderOk, MaySelect;
  }

  lemma {:induction false} EachFollows(run: Run, i: nat)
    requires IsRun(run) && i + 1 < |Installed(run)|
    ensures Follows(Installed(run)[i], Installed(run)[i + 1])
  {
    hide HeaderInv, JournalOk, RecordOk, Journaled, Follows, IsStep;
    if Switches(run) && i + 2 == |Installed(run)| {
      SwitchedOnlyCertified(run);
      ReplacesOriginal(Last(run.before));
      HeaderFollows(Last(run.before).journal.value.header);
    } else {
      EachFollows(run.before, i);
    }
  }

  /** Two completed rollbacks in a row restore both pointers, wherever in a run they happen. */
  lemma TwoRollbacksRestore(run: Run, i: nat)
    requires IsRun(run) && i + 2 < |Installed(run)|
    requires MaySelect(Rollback, Installed(run)[i], Normal(Installed(run)[i + 1]).current)
    requires MaySelect(Rollback, Installed(run)[i + 1], Normal(Installed(run)[i + 2]).current)
    ensures Installed(run)[i + 2] == Normal(Installed(run)[i])
  {
    hide IsRun, Installed, Precedes;
    EachFollows(run, i);
    EachFollows(run, i + 1);
  }

  // ---------------------------------------------------------------- crashes alone leave only the stuck states

  /** A step of the command that the environment answered as it should. */
  ghost predicate Helpful(a: World, b: World) {
    && OurStep(a, b)
    && (BeginStep(a, b) ==> CanStop(b, b.journal.value) && b.lock == Some(b.journal.value.header.lease))
    && (StopStep(a, b) ==> b.container.value.state == Exited(true))
    && (DeployStep(a, b) ==>
          OwnedAs(b.container.value, a.journal.value.header.to, None) && b.container.value.state == Running)
  }

  ghost predicate CalmRun(run: Run) {
    run.Then? ==> CalmRun(run.before) && run.ours && Helpful(Last(run.before), run.after)
  }

  /** The container and the data are as the journal expects. */
  ghost predicate Calm(w: World) {
    w.journal.Some? && Unswitched(w, w.journal.value) ==>
      && Undisturbed(w, w.journal.value)
      && (w.journal.value.phase == Retired && w.container.Some? ==>
            OwnedAs(w.container.value, w.journal.value.header.to, None) && w.container.value.state == Running)
  }

  lemma CalmSave(a: World, b: World)
    requires Inv(a) && Inv(b) && Calm(a) && SaveStep(a, b)
    ensures Calm(b)
  {
    hide HeaderInv, JournalOk, RecordOk;
  }

  lemma CalmStep(a: World, b: World)
    requires Inv(a) && Inv(b) && Calm(a) && Helpful(a, b)
    ensures Calm(b)
  {
    hide HeaderInv, JournalOk, RecordOk, SaveStep;
    if SaveStep(a, b) { CalmSave(a, b); }
  }

  lemma {:induction false} CalmRunStaysCalm(run: Run)
    requires IsRun(run) && CalmRun(run) && Origin(run).journal.None?
    ensures Calm(Last(run))
  {
    hide HeaderInv, JournalOk, RecordOk, Helpful, Undisturbed;
    if run.Then? {
      CalmRunStaysCalm(run.before);
      CalmStep(Last(run.before), run.after);
    }
  }

  /** After any crashes of a calm run, recovery completes but in the stuck states. */
  lemma RecoveryAfterCrashes(host: Host, run: Run, j: Journal)
    requires IsRun(run) && CalmRun(run) && Origin(run).journal.None?
    requires Last(run).journal == Some(j) && Unswitched(Last(run), j)
    requires host.Lookup(j.header.from.pointer) == Some(j.header.from)
             && host.Lookup(j.header.to.pointer) == Some(j.header.to)
    ensures Resumable(host, Last(run), j) <==> !Stuck(Last(run), j, host.report)
  {
    hide HeaderInv, JournalOk, RecordOk, Undisturbed, Stuck, OurStep;
    CalmRunStaysCalm(run);
  }

  /** The first stuck state is reached by one crash, right after the candidate was created. */
  lemma CrashAfterDeploy(run: Run, j: Journal, id: string) returns (crashed: Run)
    requires IsRun(run) && CalmRun(run) && Origin(run).journal.None?
    requires Last(run).journal == Some(j) && j.phase == Retired && Last(run).container.None? && IsHex(id, 64)
    ensures IsRun(crashed) && CalmRun(crashed) && Origin(crashed) == Origin(run)
    ensures Last(crashed) == Last(run).(container := Last(crashed).container) && Unjournaled(Last(crashed), j)
  {
    hide Inv, Helpful, OurStep;
    CalmRunStaysCalm(run);
    var c := Container(id, j.header.to, "", 0, Running);
    DeployMayCrash(Last(run), j, c);
    crashed := Then(run, true, Last(run).(container := Some(c)));
  }

  lemma DeployMayCrash(w: World, j: Journal, c: Container)
    requires Inv(w) && Calm(w) && w.journal == Some(j) && j.phase == Retired && w.container.None?
    requires DockerOk(c) && c.runs == j.header.to && c.state == Running
    ensures var next := w.(container := Some(c)); Inv(next) && Helpful(w, next) && OurStep(w, next)
  {
    hide HeaderInv, JournalOk, RecordOk;
    assert Unswitched(w, j);
    assert DeployStep(w, w.(container := Some(c)));
  }

  lemma AttemptIsHelpful(w: World, j: Journal)
    requires Inv(w) && w.journal == Some(j) && j.phase == Stopped && j.backupAttempt < MAX_ATTEMPTS
    ensures var next := w.(journal := Some(j.(backupAttempt := j.backupAttempt + 1)));
            Inv(next) && Helpful(w, next) && OurStep(w, next)
  {
    hide HeaderInv, RecordOk, Journaled;
    AttemptMayBeSaved(w, j);
  }

  /** The second by as many crashes as there are attempts left. */
  lemma {:induction false} CrashEveryAttempt(run: Run, j: Journal) returns (crashed: Run)
    requires IsRun(run) && CalmRun(run) && Last(run).journal == Some(j) && j.phase == Stopped
    ensures IsRun(crashed) && CalmRun(crashed) && Origin(crashed) == Origin(run)
    ensures Last(crashed) == Last(run).(journal := Some(j.(backupAttempt := MAX_ATTEMPTS)))
    decreases MAX_ATTEMPTS - j.backupAttempt
  {
    hide Helpful, OurStep, HeaderInv, RecordOk, Journaled;
    if j.backupAttempt == MAX_ATTEMPTS {
      crashed := run;
    } else {
      var k := j.(backupAttempt := j.backupAttempt + 1);
      AttemptIsHelpful(Last(run), j);
      crashed := CrashEveryAttempt(Then(run, true, Last(run).(journal := Some(k))), k);
    }
  }

  // ---------------------------------------------------------------- invocations

  datatype Invocation = Invocation(operation: Operation, target: Pointer, nonce: string)

  /** One process after another; whatever happens, each starts from what the last one left on disk. */
  method Invoke(host: Host, calls: seq<Invocation>) returns (outcomes: seq<Outcome>)
    requires host.Valid()
    modifies host
    ensures host.Valid() && |outcomes| == |calls|
    ensures host.w.inst.record.owner == old(host.w).inst.record.owner
  {
    hide HeaderInv, JournalOk, RecordOk;
    outcomes := [];
    OwnerNeverChanges(host.run);
    for i := 0 to |calls|
      invariant host.Valid() && |outcomes| == i
    {
      var r := Blocked;
      if IsUuid(calls[i].nonce) && calls[i].nonce !in host.w.transactions {
        var command := new Command(host);
        r := command.Execute(calls[i].operation, calls[i].target, calls[i].nonce, false);
      }
      outcomes := outcomes + [r];
    }
    OwnerNeverChanges(host.run);
  }
}
