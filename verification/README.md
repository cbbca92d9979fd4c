# StreamSkope, modelled and proved

This project models the parts of StreamSkope whose correctness spans many steps: the maintenance
transaction of the browser deployment, the dependency audit, version ordering and identities, the
qualification receipt, and five ownership and traversal protocols. Run `dafny verify dfyconfig.toml`.

## Reading guide

| files | component |
|---|---|
| `Records`, `Acceptance`, `World`, `Maintenance`, `History`, `Sizes`, `Witnesses` | the upgrade and rollback transaction |
| `Tree`, `Restore`, `Sorting` | the data tree: inventory, copy and locked restore |
| `SemVer`, `Precedence`, `VersionText`, `Identity`, `PluginOrder`, `HostCompatibility`, `Text` | versions, identities, host ranges |
| `Audit`, `Reachability` | the npm audit graph |
| `Qualification`, `Certificates` | receipts: the commands, the validator, and what is certified |
| `FixtureOwner`, `PluginJson`, `ProcessTree`, `Registry` | the remaining protocols |

**Maintenance.** `World` is what survives a crash. Each durable write and each container operation is one
step of it; between steps the environment may act. A `Run` is everything that happened, across any number of
processes. `Maintenance.Command` is one process with the source's control flow; it can change the world only
by `Host.Step`, whose precondition is the protocol, so its proof is the proof that the program follows the
protocol. `Host.Await` stands for every call that waits: the environment may change the container, and the
data and the lease file unless the lease is held, and the call may fail or be the last thing the process does.
That last case is the crash: nothing runs after it, and the next process starts from the world as it is. A
call that failed is followed by no other call and no step of the same process, as `Host.failed` keeps track of.
The parameter `coop` says that the environment cooperates: calls succeed, releases resolve as `Host.catalog` says,
nothing else touches container, data and lease file. The safety theorems in `History` do not
depend on it; the completeness theorems are stated for it.

From an undisturbed crash, recovery fails in exactly these states, however often it is repeated: a candidate
was created but not journaled; sixteen attempts were used; the backup manifest exceeds 2 MiB, as it is written
without a limit and read back with one; the journal exceeds 64 KiB or records a device or inode number of 2^53
or more, as both are limited only on reading. `Witnesses` builds, for each of these states and from every
installation in which a transaction may start, a run that leaves it behind, through the steps that the command
takes there; and it gives installations, with a running container and a data directory with its lease file,
for each case. What the inspector thinks of their files is an answer of the environment. `Sizes`
shows that a journal can exceed its limit only through a home path with characters outside the basic plane.

**Fixture ownership.** Each event of the state machine is one piece of code between two awaits, or one effect
of the daemon. Two of the promises hold under every interleaving. That a resolved disposal leaves no
container behind does not: `RemoveDuringCreateLeaks` and `CreateDuringRemoveLeaks` are runs in which it does,
and `DisciplineExact` says which callers are safe. For these a disposal that failed can always be retried
until it resolves.

**Qualification.** `Sound` is a definition without a loop. The commands produce only sound receipts,
the validator accepts exactly those, and `Replay` shows that three conditions are all that separates them:
the newer schema, a failed stage that ends with the execution, and reports that identify raw reports which were
made during their stages, have these summaries, and have a size that leaves room for what they say.
`ValidatorAcceptsMore`, `ValidatorAcceptsPending` and `ValidatorAcceptsShort` are receipts that lie between them.
`Certificates` says once more, without the vocabulary of the commands, what is accepted.

**Restore.** The checks of the locked restore rule out that the backup is the data directory, and not that one
lies inside the other. Then the deletion of the data takes files of the backup, too. `Restore.RestoreLocked`
says for every placement when it completes and what is left when it does not.

## Assumptions

- SHA-256 is injective: a digest is a constructor around what it was computed from.
- The environment never writes the installer's own files; a held lease freezes the data tree.
- Nothing happens between the last answer that the environment gives and the write that relies on it. Between
  the last look at the candidate and the switch the source asks nothing further; that the candidate still runs
  at the moment of the switch rests on this.
- Docker reports 64-digit identifiers, start times of at most 64 characters and safe restart counts.
- `rename` and `replace` are atomic. A journal that was already archived is modelled all the same.
- A new transaction identity is unused. A daemon's create takes effect before its command settles.
- The clock of a qualification never goes back; its source and report digests are well formed.
- A raw report spells numbers and times as `JSON.stringify` and `toISOString` do; its shortest text has no white
  space and no field that is not read, and what is added makes it longer.
- A registry reports a manifest as unknown only when it is; publishers do not overlap. A push or a
  creation that is reported as failed may have taken effect, and then has the effect of one that succeeded.

## Model

| member | source | states |
|---|---|---|
| History.RemovedOnlyBacked | tools/package/browser-maintenance.py:1590-1598 | in every run, a step of the command that takes a container away happens in phase retiring, takes the original when no process of it is left, and finds the data tree equal to the journaled backup |
| History.EntersPhase | tools/package/browser-maintenance.py:1444-1632 | in every run, a phase is entered only from the one before it, and only with what it certifies: the original exited without error as recorded, the backup equal to the data, no container left, the candidate named, the record switched |
| History.SwitchedOnlyCertified | tools/package/browser-maintenance.py:1599-1632 | in every run, the installation record changes only to the journaled next record, from phase deployed, with the journaled candidate owned and running and the data still equal to the backup |
| History.PhaseNeverDecreases | tools/package/browser-maintenance.py:1213-1217 | between any two moments of a run, a transaction keeps its header, and neither its phase nor its attempt goes back |
| History.OnePhaseAtATime | tools/package/browser-maintenance.py:31-31 | a transaction starts in intent under a new identity, advances by at most one phase per write, and its journal disappears only committed and archived |
| History.PersistedJournalAccepted | tools/package/browser-maintenance.py:1218-1313 | a journal that any run leaves behind is read back if and only if the file is at most 65536 bytes and the lease numbers are in range |
| History.OwnerNeverChanges | tools/package/browser-maintenance.py:1678-1678 | the five owner fields are the same at the end of every run as at its start |
| History.EachFollows | tools/package/browser-maintenance.py:1652-1678 | of two consecutive installation records the second keeps the owner, has the first's current as its previous, and was selected as a rollback or as a higher version |
| History.TwoRollbacksRestore | tools/package/browser-maintenance.py:1652-1678 | two completed rollbacks in a row, anywhere in a run, restore both pointers |
| History.CalmRunStaysCalm | tools/package/browser-maintenance.py:1530-1636 | after any number of crashes in an environment that answers as it should, container and data are what the journaled phase expects |
| History.RecoveryAfterCrashes | tools/package/browser-maintenance.py:1530-1636 | from every journal such a run can leave, recovery completes if and only if it is in none of the stuck states |
| History.CrashAfterDeploy | tools/package/browser-maintenance.py:1462-1496 | one crash takes every calm run in phase retired to the first stuck state: the candidate exists, the journal still says retired |
| History.CrashEveryAttempt | tools/package/browser-maintenance.py:1330-1335 | crashes alone take every calm run in phase stopped to the second: all sixteen attempts are used, and nothing else has changed |
| History.Invoke | tools/package/browser-maintenance.py:1753-1837 | any list of invocations, each in a new process that may end anywhere, is a run, and keeps the owner |
| World.NextIsNotOriginal | tools/package/browser-maintenance.py:1533-1545 | the test for an installation that was already switched has one answer, as the two records never have the same bytes |
| Records.Normal | tools/package/browser-maintenance.py:178-201 | either schema is read as the second: the pointer of the first becomes the current one and none the previous, the second is unchanged, and the result is valid exactly when the record is |
| Records.RollbackTwice | tools/package/browser-maintenance.py:1678-1678 | the record after two rollbacks is the record before them, in its normal form |
| Acceptance.LoadExactly | tools/package/browser-maintenance.py:1218-1313 | a journal is loaded exactly when every field reads as required, the two records and releases belong together, what its phase needs is there, and the file is at most 64 KiB |
| Acceptance.RecordReadsExactly | tools/package/browser-maintenance.py:178-201 | an installation record is accepted exactly when its pointers, owner numbers and home path read as required |
| Acceptance.ReleaseReadsExactly | tools/package/browser-maintenance.py:1256-1287 | a release is accepted exactly with the reference, topology and digest that its version and scope ask for |
| Acceptance.VersionReadsExactly | tools/package/browser-maintenance.py:99-105 | a version pattern is three numbers and, after a hyphen, letters, digits, hyphens and dots |
| Maintenance.Host.Step | tools/package/browser-maintenance.py:259-276 | each durable write and each container operation of the command is one of the steps of the protocol, keeps its invariant, and is not taken after a call that failed |
| Maintenance.Host.Await | tools/package/browser-maintenance.py:279-315 | while the command waits the environment may change the container, and the data and the lease file unless the lease is held, and may end the process |
| Maintenance.Command.Save | tools/package/browser-maintenance.py:1213-1216 | the journal in memory and on disk change together |
| Maintenance.Command.Owned | tools/package/browser-maintenance.py:915-995 | a container passes only when it is the expected one of that release and in a known state; a cooperative answer is exact |
| Maintenance.Command.StopOriginal | tools/package/browser-maintenance.py:1564-1567 | the command does nothing but stop the original, and only as the container of its name; cooperatively, a running original ends stopped and clean |
| Maintenance.Command.Quiesce | tools/package/browser-maintenance.py:1559-1567 | a running original is stopped after the checks, one that has stopped is left alone |
| Maintenance.Command.FromIntent | tools/package/browser-maintenance.py:1552-1570 | phase stopped is reached exactly when the original can still be stopped cleanly, and then under the lease; what is cooperatively refused has not been touched |
| Maintenance.Command.AcquireLease | tools/package/browser-maintenance.py:1033-1049 | passes only under the journaled lease file, and then holds it; cooperatively, exactly when the lease file is the journaled one |
| Maintenance.Command.BackUp | tools/package/browser-maintenance.py:1330-1401 | a new attempt ends in phase backed-up with a journaled backup equal to the frozen data, or there were sixteen before |
| Maintenance.Command.Copy | tools/package/browser-maintenance.py:1342-1383 | the attempt directory is new, and once complete holds the data tree |
| Maintenance.Command.Describe | tools/package/browser-maintenance.py:1385-1395 | the manifest is written beside the copy and changes nothing else |
| Maintenance.Command.VerifyBackup | tools/package/browser-maintenance.py:1403-1442 | passes only when manifest, copy and data all equal the journaled backup; cooperatively, exactly when also the manifest is at most 2 MiB |
| Maintenance.Command.Retire | tools/package/browser-maintenance.py:1590-1598 | the original is removed between two journal writes, also when it was removed before a crash |
| Maintenance.Command.RemoveOriginal | tools/package/browser-maintenance.py:1593-1597 | the command does nothing but remove the original, not while it runs, and only over an unchanged backup; cooperatively it completes exactly when the original is stopped or already gone |
| Maintenance.Command.Create | tools/package/browser-maintenance.py:1462-1493 | nothing is deployed next to another container, and only an owned target container is accepted |
| Maintenance.Command.Deploy | tools/package/browser-maintenance.py:1462-1496 | phase deployed names the candidate; cooperatively it is reached exactly when no container was left |
| Maintenance.Command.ConfirmRunning | tools/package/browser-maintenance.py:1601-1606 | the candidate is owned, running, and of the same start as before |
| Maintenance.Command.Ready | tools/package/browser-maintenance.py:1601-1616 | what passes is the journaled candidate, owned and running at both looks; cooperatively, exactly when the candidate runs |
| Maintenance.Command.Switch | tools/package/browser-maintenance.py:1601-1632 | the installation is switched exactly when candidate, backup and manifest pass their last checks |
| Maintenance.Command.Archive | tools/package/browser-maintenance.py:1498-1516 | a switched installation always commits and archives, also when the move was made before |
| Maintenance.Command.Recheck | tools/package/browser-maintenance.py:1571-1580 | a resumed phase goes on exactly when the container is the one it left |
| Maintenance.Command.Prepare | tools/package/browser-maintenance.py:1552-1586 | what it refuses is disturbed or stuck, what it passes is neither because of the container |
| Maintenance.Command.Protect | tools/package/browser-maintenance.py:1587-1589 | a verified backup, journaled or new, and otherwise a reason that no retry will change |
| Maintenance.Command.Exchange | tools/package/browser-maintenance.py:1590-1600 | from a verified backup to the deployed candidate, across both interrupted phases |
| Maintenance.Command.Complete | tools/package/browser-maintenance.py:1590-1632 | the part after the verified backup completes exactly when the candidate still runs |
| Maintenance.Command.Advance | tools/package/browser-maintenance.py:1552-1632 | a transaction that has not switched reaches the switch if and only if it is undisturbed and not stuck |
| Maintenance.Command.Resolve | tools/package/browser-maintenance.py:739-886 | a release is the one that was asked for, and well formed |
| Maintenance.Command.Confirm | tools/package/browser-maintenance.py:1537-1550 | a transaction goes on only with the very releases it was journaled with |
| Maintenance.Command.Resume | tools/package/browser-maintenance.py:1530-1636 | completes, in a cooperative environment, if and only if the installation was already switched, or the releases still resolve, nothing was disturbed and no stuck state holds; a completed transaction is switched, committed and archived |
| Maintenance.Command.Execute | tools/package/browser-maintenance.py:1638-1701 | recover completes cooperatively if and only if the journal is accepted and can be resumed; with a journal on disk every other operation refuses and changes nothing; without one, unchanged, checked and completed are cooperatively answered exactly when their needs are met; and in any environment unchanged and checked are answered only for what was asked, without a step of the command, and after the container of the installed release was seen |
| Maintenance.Command.StartOperation | tools/package/browser-maintenance.py:1645-1701 | cooperatively, a check answers checked exactly for a higher target when both releases and the previous one resolve, an inspector is there and the container is owned; unchanged is answered exactly for recover or the installed release when the container is owned and the releases resolve; an upgrade or rollback completes exactly when its needs are met; checked and unchanged change nothing |
| Maintenance.Command.Permitted | tools/package/browser-maintenance.py:1661-1664 | an upgrade is permitted exactly to a higher version, a rollback to the previous one |
| Maintenance.Command.Survey | tools/package/browser-maintenance.py:1661-1671 | a transaction is begun only with a legal selection, an inspector and an owned container; cooperatively, exactly then |
| Maintenance.Command.Begin | tools/package/browser-maintenance.py:1677-1700 | the journal of a new transaction is the one thing that is written |
| Maintenance.Command.Transact | tools/package/browser-maintenance.py:1661-1701 | a check changes nothing and passes exactly when its needs are met, a completed transaction leaves the target current and is archived under its identity |
| Maintenance.Command.Keep | tools/package/browser-maintenance.py:1646-1660 | an operation with nothing to do changes nothing, and answers exactly when the installed release owns the container and its predecessor resolves |
| Maintenance.FreshIsResumable | tools/package/browser-maintenance.py:1665-1701 | a transaction that was just journaled completes exactly when its container can be stopped and its manifest will fit |
| Maintenance.FreshHeaderInv | tools/package/browser-maintenance.py:1677-1699 | a new journal meets the protocol's conditions and those of the reader |
| Sizes.JournalFits | tools/package/browser-maintenance.py:88-92 | all of a journal but the home path, which it holds twice, and the two lease numbers takes at most 5568 bytes |
| Sizes.BasicPlaneAccepted | tools/package/browser-maintenance.py:1218-1219 | every journal whose home path stays in the basic plane is read back after any crash |
| Witnesses.UnjournaledCandidate | tools/package/browser-maintenance.py:1462-1496 | wherever a transaction may start and its manifest fits, there is a run, with crashes as the only failures, that leaves the first stuck state: a candidate that no journal names |
| Witnesses.AttemptsUsedUp | tools/package/browser-maintenance.py:1330-1335 | wherever one may start, there is a run that leaves the second: sixteen crashes during the backup |
| Witnesses.UnreadableManifest | tools/package/browser-maintenance.py:1403-1409 | wherever one may start and its manifest does not fit, there is a run in which the manifest is written and journaled, and cannot be read back |
| Witnesses.UnreadableJournal | tools/package/browser-maintenance.py:1218-1313 | wherever one may start whose first journal is too large or names an unacceptable lease, that journal is written and refused from then on |
| Witnesses.ReadableInstallation | tools/package/browser-maintenance.py:1661-1700 | a transaction may start in an ordinary installation whose journal and manifest fit |
| Witnesses.LargeInstallation | tools/package/browser-maintenance.py:318-384 | and in one whose data directory, a lease file and 8190 others, is within every limit of the installer, and whose manifest does not fit |
| Witnesses.LongHomeInstallation | tools/package/browser-maintenance.py:178-201 | and in one with a legal home path of 4096 characters outside the basic plane, but for the slash, whose journal does not fit |
| Witnesses.LargeInodeInstallation | tools/package/browser-maintenance.py:1218-1313 | and in one whose lease file has the inode 2^53, whose journal is refused though it fits |
| Tree.InventoryExact | tools/package/browser-maintenance.py:318-384 | two inventories are equal if and only if the trees are, apart from inodes |
| Tree.Inventory | tools/package/browser-maintenance.py:318-384 | succeeds exactly for the trees within the depth, count and size limits, with one sorted entry for every object |
| Tree.Walker.Walk | tools/package/browser-maintenance.py:323-381 | records every object of a subtree once, or the tree exceeds a limit |
| Tree.Walker.Record | tools/package/browser-maintenance.py:325-381 | a refused object proves that the tree exceeds a limit |
| Tree.SubtreeParts | tools/package/browser-maintenance.py:343-347 | a subtree is its root and the disjoint subtrees of its children |
| Tree.ParentListedFirst | tools/package/browser-maintenance.py:383-384 | in a sorted inventory every parent comes before what it holds |
| Tree.DepthIs | tools/package/browser-maintenance.py:323-330 | the depth of a path is the number of its separators and one |
| Tree.Disk.Make | tools/package/browser-backup-rehearsal.py:28-37 | an object is made only under a new name in an existing directory |
| Tree.Disk.CopyEntry | tools/package/browser-backup-rehearsal.py:23-48 | one entry is copied exactly when its name is new, its parent exists and, for a file, opening the source has read something |
| Tree.Disk.CopyEntries | tools/package/browser-backup-rehearsal.py:22-51 | a copy overwrites nothing, and into a destination that holds only what is kept it completes with the same tree if and only if the source stays readable, wherever the two directories lie |
| Tree.Disk.DeleteAllButLock | tools/package/browser-backup-rehearsal.py:90-97 | every child of the root is deleted but the lease file |
| Restore.CheckRestore | tools/package/browser-backup-rehearsal.py:54-85 | everything is checked before the first write: the common parent, the manifest with its digest and size, the copies, the limits, the lease |
| Restore.Matches | tools/package/browser-backup-rehearsal.py:88-89 | comparing inventories decides whether the trees are equal |
| Restore.Replace | tools/package/browser-backup-rehearsal.py:86-108 | the changed data are preserved and the lease stays the same object in any case, and the data become the backup if and only if the backup survives the deletion of the data |
| Restore.RestoreLocked | tools/package/browser-backup-rehearsal.py:54-117 | completes if and only if every check passes and the backup survives; refuses without a write when a check fails; otherwise stops half way with the changed data preserved, and a backup inside the data has lost every file by then |
| Restore.InsideSurvives | tools/package/browser-backup-rehearsal.py:92-99 | a backup inside the data survives exactly when the lease is its only file |
| Restore.AroundSurvives | tools/package/browser-backup-rehearsal.py:92-99 | a backup around the data survives exactly when it holds the files of the data a second time, with the same content and sorted in front |
| Restore.WrittenIsRestorable | tools/package/browser-backup-rehearsal.py:54-85 | the checks accept a backup of the maintenance command over any other data with that lease file if and only if its manifest is at most 2 MiB |
| Sorting.SortSorts | tools/package/browser-maintenance.py:346-346 | the sort yields a sorted list of exactly the given names |
| Sorting.SortedUnique | tools/check/audit.ts:268-274 | a set has one sorted list |
| Precedence.CompareNumbers | src/plugins/compatibility.ts:69-75 | the sign of the first difference of two lists of the same length |
| Precedence.CompareSemanticVersions | src/plugins/compatibility.ts:204-233 | the sign of section 11 of Semantic Versioning 2.0.0, and an error exactly for what is not a version |
| SemVer.PrecedesOrder | src/plugins/compatibility.ts:204-233 | precedence is a strict total order on what bears it |
| SemVer.OrderZero | src/plugins/compatibility.ts:204-233 | zero exactly when two versions differ in nothing but build metadata |
| SemVer.OrderAntisymmetric | src/plugins/compatibility.ts:204-233 | swapping the arguments flips the sign |
| SemVer.OrderTransitive | src/plugins/compatibility.ts:204-233 | a chain of comparisons carries its sign, strictly as soon as one link is strict |
| SemVer.MainPartsInjective | src/plugins/compatibility.ts:21-29 | numbers and identifiers determine the text, as leading zeros are refused |
| Precedence.NewerAccepts | tools/package/browser-maintenance.py:1712-1724 | the two checks accept exactly the semantic versions without build metadata |
| Precedence.Newer | tools/package/browser-maintenance.py:1709-1740 | true exactly when the candidate has the higher precedence |
| Precedence.KeyRefinesPrecedence | tools/docs/releases.py:48-56 | the order of the keys is precedence, split further only by build number |
| Precedence.VersionKeyInjective | tools/docs/releases.py:48-56 | different tags have different keys |
| Precedence.ImplementationsAgree | tools/docs/releases.py:48-56 | the three implementations order all versions without build metadata alike |
| VersionText.VersionReads | src/plugins/compatibility.ts:204-215 | a version written as major, minor, patch, identifiers and build metadata is read back with each in its place |
| VersionText.VersionIsText | src/plugins/compatibility.ts:21-29 | every accepted version is such a text |
| VersionText.NumeralOrder | src/plugins/compatibility.ts:204-233 | of two numerals the longer is larger, and of equally long ones the later in text order |
| VersionText.TextOrder | src/plugins/compatibility.ts:204-233 | of two versions the first number that differs decides, then a prerelease is below, then the first identifier that differs: numerals before words, numerals by size, words as text, and what ends first is below |
| SemVer.IdentifierAlphabet | src/plugins/compatibility.ts:21-29 | identifiers are made of ASCII letters, digits and hyphens |
| Identity.MatchExact | src/plugins/compatibility.ts:16-20 | an identity is matched with some fields exactly when it is composed of them, so the split is unique |
| Identity.ParseOfFormat | src/plugins/compatibility.ts:155-179 | what is printed parses back to the same compatibility and revision |
| Identity.FormatOfMatch | src/plugins/compatibility.ts:163-179 | the comparison with the re-printed text refuses nothing that the rest accepted |
| Identity.FormatOfParse | src/plugins/compatibility.ts:155-179 | a text parses to an identity if and only if it is that identity's print |
| Identity.FormatText | src/plugins/compatibility.ts:155-161 | an identity is printed piece by piece, exactly for an acceptable range, a safe positive revision and at most 256 characters |
| PluginOrder.ManifestsAntisymmetric | src/plugins/compatibility.ts:182-201 | swapping two packages flips the sign and never turns a refusal into an answer |
| PluginOrder.ManifestsTransitive | src/plugins/compatibility.ts:236-243 | a chain of answered comparisons closes, over plain versions, identities and API 4 together |
| PluginOrder.RanksSeparate | src/plugins/compatibility.ts:236-243 | API 4 is above every legacy package, and a legacy identity above every plain version |
| PluginOrder.VersionsDecide | src/plugins/compatibility.ts:182-243 | two API 4 packages, and two legacy ones without an identity, compare exactly as their versions do |
| PluginOrder.RevisionsDecide | src/plugins/compatibility.ts:182-201 | two identities compare exactly by revision, within one system, and equal revisions must be one identity |
| PluginOrder.UnreadableRefuses | src/plugins/compatibility.ts:182-201 | a legacy version that is neither compares with nothing |
| PluginOrder.VersionIsNoIdentity | src/plugins/compatibility.ts:163-179 | no text is both a version and an identity |
| HostCompatibility.StableHostsFormInterval | src/plugins/compatibility.ts:249-275 | API 4 accepts stable hosts exactly from the minimum to below the exclusive maximum |
| HostCompatibility.PreviewHostsStayInCore | src/plugins/compatibility.ts:249-275 | preview hosts are accepted exactly within the core of a preview minimum, from it on |
| HostCompatibility.AcceptedHostsConvex | src/plugins/compatibility.ts:249-275 | neither set of hosts has a gap |
| HostCompatibility.LegacyAcceptanceUpwardClosed | src/plugins/compatibility.ts:82-90 | API 3 acceptance extends to every host of higher precedence, but for one length at which the comparison throws |
| HostCompatibility.LegacyAcceptsExactly | src/plugins/compatibility.ts:82-90 | API 3 on every host text: a desktop release is accepted exactly from the minimum on, number by number and then by build number, and throws from 128 characters on; any other version exactly with a higher core, or with the same core, no prerelease and no build required; no version throws |
| HostCompatibility.DeclaredRangeExactly | src/plugins/compatibility.ts:249-275 | API 4 on every host text: exactly the range, previews only within the core of a preview minimum; no version throws |
| HostCompatibility.DevelopmentAnswers | src/plugins/compatibility.ts:249-258 | a development build is accepted exactly by the development host and only with API 4, and that host accepts nothing else |
| HostCompatibility.UndeclaredAnswers | src/plugins/compatibility.ts:259-261 | API 2 is accepted by every other host, a later package without a declaration by none |
| HostCompatibility.DevelopmentIs | src/plugins/compatibility.ts:5-8 | the development versions are the sentinel and the sentinel with a number |
| HostCompatibility.ReleaseReads | src/plugins/compatibility.ts:61-67 | the numbers and the build number of a desktop release are read in their places |
| HostCompatibility.DesktopIsText | src/plugins/compatibility.ts:12-15 | the desktop releases are exactly v, three numbers and an optional positive build number |
| HostCompatibility.PrereleaseIs | src/plugins/compatibility.ts:245-247 | hyphens in build metadata do not make a preview |
| Audit.PushCauses | tools/check/audit.ts:135-138 | the inner loop pushes the package causes and notes a concrete one |
| Audit.CheckCauses | tools/check/audit.ts:117-124 | one package passes exactly when its causes exist and are not understated by it |
| Audit.FindGround | tools/check/audit.ts:126-142 | decides whether a concrete advisory is reached, and refuses at a missing package, on cyclic graphs too |
| Audit.ValidateGraph | tools/check/audit.ts:116-144 | accepts exactly the graphs whose causes exist, are not understated and end in an advisory |
| Audit.CheckOnlyVerifiedCauses | tools/check/audit.ts:235-251 | true if and only if every finding reached without expanding roots is high and, unless a root, has only package causes |
| Audit.Mitigate | tools/check/audit.ts:208-231 | collects exactly the packages that a verified patch covers |
| Audit.Extend | tools/check/audit.ts:252-253 | adds exactly the dependents whose every cause is verified |
| Audit.CountSeverity | tools/check/audit.ts:186-190 | counts the findings of one severity |
| Audit.CheckCounts | tools/check/audit.ts:185-192 | accepts exactly the reports whose totals match their findings |
| Audit.Classify | tools/check/audit.ts:254-274 | each finding goes to the list of its verdict, once and in order |
| Audit.Evaluate | tools/check/audit.ts:157-274 | answers exactly for the acceptable reports; backported are exactly the findings that the forge patch covers, the package and its one dependent, or that lie in a set of high findings each answered by a verified patch or caused only from within the set; of the others, remaining are exactly the high and critical ones |
| Audit.OutcomeDecides | tools/check/audit.ts:200-274 | the same, of every outcome that the graph and the patches determine |
| Audit.CoversExactly | tools/check/audit.ts:210-230 | a patch covers its package exactly when its first specification names the one advisory that every cause is, and all copies are verified |
| Audit.ExemptionSound | tools/check/audit.ts:200-274 | behind a high or critical finding that does not block there are only high findings and reviewed advisories, and at least one of these |
| Audit.ListsPartition | tools/check/audit.ts:234-274 | each finding is in exactly one list, once |
| Audit.OutcomeUnique | tools/check/audit.ts:234-274 | no order of iteration can change the lists |
| Reachability.ClosureExact | tools/check/audit.ts:235-251 | a closed set of reached members that holds the start is exactly what is reached |
| Qualification.Validate | tools/check/qualification.ts:602-730 | accepts exactly the sound bundles; an accepted receipt is passed exactly when the exit code is zero, the source is unchanged and each stage of the scope passed, or was skipped in a full one |
| Qualification.PassedExactly | tools/check/qualification.ts:720-727 | the same, of every sound receipt |
| Certificates.SaysExactly | tools/check/qualification.ts:602-730 | a bundle is sound exactly when its receipt says, field by field: stages outside the scope blank, the others in order with their times, reasons and reports, reports that agree with their copies, and the outcome that follows |
| Certificates.SummarySaysExactly | tools/check/qualification.ts:502-600 | a summary is valid exactly when it certifies what its stage is for: tests, a minute at full rate, pages and routes, all live checks once |
| Certificates.RawSaysExactly | tools/check/qualification.ts:322-444 | the commands accept a raw report exactly when it says what its stage asks for, was made within the stage and has a possible size |
| Certificates.CollectsExactly | tools/check/qualification.ts:365-444 | a report is collected exactly when it was written since the stage began and says that |
| Certificates.TargetExactly | tools/check/qualification.ts:341-347 | a target version is two or three numbers, perhaps after a v, and perhaps a sign and word characters |
| Qualification.ValidateStage | tools/check/qualification.ts:652-720 | one round of the loop decides whether the stages so far are in order and sound |
| Qualification.ValidateRan | tools/check/qualification.ts:684-719 | a stage that ran has its times, its reason and its evidence |
| Qualification.Bundle.constructor | tools/check/qualification.ts:266-297 | a new receipt has every stage blank and is in progress |
| Qualification.Bundle.BeginStage | tools/check/qualification.ts:299-320 | starts exactly the next selected stage, and only when all before it are complete |
| Qualification.Bundle.FirstOpen | tools/check/qualification.ts:303-306 | finds the first selected stage that is not complete |
| Qualification.Bundle.Collect | tools/check/qualification.ts:365-444 | yields the sanitized copy exactly for a report from within the stage with a valid summary |
| Qualification.Bundle.CompleteStage | tools/check/qualification.ts:446-463 | writes back exactly a running stage that qualified, with its evidence |
| Qualification.Bundle.EndStages | tools/check/qualification.ts:477-483 | what still runs has failed, and the copies of ended stages are kept |
| Qualification.Bundle.Finish | tools/check/qualification.ts:465-498 | every receipt that any sequence of commands finishes is sound, and passed exactly when the exit code is zero, the source is unchanged and each stage of the scope passed, or was skipped in a full one |
| Qualification.FinishedIsProducible | tools/check/qualification.ts:465-498 | it also has the newer schema, ends a failed stage with the execution, and identifies raw reports, of a sufficient size, that its summaries were read from |
| Qualification.ContentRoundTrip | tools/check/qualification.ts:322-363 | a raw report written for a summary is summarized to it |
| Qualification.SummaryIsEmitted | tools/check/ci-evidence.ts:105-184 | no raw report yields more skipped or pending tests than tests, or a trust that contradicts its verification |
| Qualification.SummariesOfReports | tools/check/ci-evidence.ts:105-184 | a valid summary comes from some raw report of its stage if and only if it keeps these two bounds |
| Qualification.Replay | tools/check/qualification.ts:266-498 | conversely, every sound receipt that meets these three conditions is produced, with its evidence, by some sequence of commands |
| Qualification.ReplayStage | tools/check/qualification.ts:299-463 | one stage of a sound receipt is reproduced by its begin and complete commands |
| Qualification.ValidatorAcceptsMore | tools/check/qualification.ts:684-689 | the validator accepts a receipt whose stage failed before the execution ended, which no sequence of commands produces |
| Qualification.ValidatorAcceptsPending | tools/check/qualification.ts:502-509 | it also accepts one with more pending tests than tests, whatever raw report its copy names |
| Qualification.ValidatorAcceptsShort | tools/check/qualification.ts:706-709 | and one whose raw report is too short to say what it is summarized to |
| FixtureOwner.FixtureContainerOwner.BeginCreate | aio-kafka/fixtures/container-owner.ts:39-43 | admits a new name before its command is sent, and nothing after revocation |
| FixtureOwner.FixtureContainerOwner.EndCreate | aio-kafka/fixtures/container-owner.ts:44-66 | records an identity only when the command returned one, and ends the admission |
| FixtureOwner.FixtureContainerOwner.Start | aio-kafka/fixtures/container-owner.ts:72-76 | starts only a tracked identity, before revocation |
| FixtureOwner.FixtureContainerOwner.BeginRemove | aio-kafka/fixtures/container-owner.ts:78-81 | a removal's first wait follows from what is tracked |
| FixtureOwner.FixtureContainerOwner.ResumeRemove | aio-kafka/fixtures/container-owner.ts:82-122 | after each wait a removal stores and continues as its phase says |
| FixtureOwner.FixtureContainerOwner.BeginDispose | aio-kafka/fixtures/container-owner.ts:124-128 | revokes, and waits for every pending admission |
| FixtureOwner.OnlyOwnedRemoved | aio-kafka/fixtures/container-owner.ts:78-122 | under every interleaving, a removal goes to an immutable identity with this owner's label |
| FixtureOwner.DisposeDrains | aio-kafka/fixtures/container-owner.ts:124-134 | under every interleaving, a disposal that ended leaves no admission pending and admits none |
| FixtureOwner.DisposalEnds | aio-kafka/fixtures/container-owner.ts:128-134 | a disposal ends when every removal is done or rejected, and resolves exactly when all are done |
| FixtureOwner.DisposedClean | aio-kafka/fixtures/container-owner.ts:124-134 | after a disposal that resolved, no container of this owner exists, when callers follow two rules |
| FixtureOwner.DisciplineIs | aio-kafka/fixtures/container-owner.ts:39-134 | the two rules, by what is still under way |
| FixtureOwner.FailedDisposeRetries | aio-kafka/fixtures/container-owner.ts:124-134 | a disposal that failed has lost track of nothing and can be repeated |
| FixtureOwner.RetryResolves | aio-kafka/fixtures/container-owner.ts:78-134 | after every failed disposal there is a retry that resolves, once the daemon answers, and it leaves no container of this owner |
| FixtureOwner.RemoveDuringCreateLeaks | aio-kafka/fixtures/container-owner.ts:78-99 | removing a name whose creation has not settled can leak its container |
| FixtureOwner.CreateDuringRemoveLeaks | aio-kafka/fixtures/container-owner.ts:78-122 | so can creating a name whose removal has not settled |
| FixtureOwner.DisciplineExact | aio-kafka/fixtures/container-owner.ts:39-134 | disposals always leave nothing behind if and only if callers follow both rules |
| PluginJson.ParsePluginJson | src/plugins/validation.ts:150-190 | answers a tree if and only if it is the unfolding of the input and keeps the limits; what is refused is no finite tree of plain JSON, or exceeds a limit |
| PluginJson.Visitor.Visit | src/plugins/validation.ts:154-188 | accepts exactly what fits into what earlier siblings have left of the limits, and puts the path back |
| PluginJson.Visitor.VisitItems | src/plugins/validation.ts:166-187 | the same for the items of one array or object |
| PluginJson.UnfoldingUnique | src/plugins/validation.ts:150-190 | a value has at most one unfolding |
| PluginJson.UnitsAre | src/plugins/validation.ts:172-186 | lengths add up character by character, in UTF-16 units |
| PluginJson.UnfoldsExactly | src/plugins/validation.ts:150-190 | a value has an unfolding if and only if everything it reaches is plain JSON and nothing in it contains itself; sharing is allowed |
| PluginJson.CyclicRefused | src/plugins/validation.ts:158-165 | an object that reaches itself is never accepted |
| PluginJson.AnswerReparses | src/plugins/validation.ts:150-190 | the answer parses to itself, however it is laid out in memory |
| ProcessTree.Sweep | tools/check/native-installers.ts:142-146 | one pass adds only descendants, and changes nothing only when it is closed |
| ProcessTree.Owned | tools/check/native-installers.ts:142-146 | the loop ends with exactly the descendants of the child |
| ProcessTree.Targets | tools/check/native-installers.ts:132-156 | answers exactly when the child still runs and its first row shows it as a group leader started by this process; then every descendant is signalled, through a descendant's group or directly, each group once, and nothing else |
| Registry.ExactlyTheTwo | tools/package/browser-registry.ts:249-300 | an index that passes has no children but the two qualified images |
| Registry.ExactMeans | tools/package/browser-registry.ts:249-300 | an index is exact if and only if it has two children, one of linux/amd64 and one of linux/arm64, which are the images of the archives, of this version and source |
| Registry.VerifyNative | tools/package/browser-registry.ts:170-203 | passes only, and cooperatively exactly, the image of the archive's identity, platform, version and source |
| Registry.VerifyIndex | tools/package/browser-registry.ts:249-323 | passes only, and cooperatively exactly, an index of the two native images that agrees with the candidate |
| Registry.VerifyChild | tools/package/browser-registry.ts:267-300 | a platform is served by one child, and it is the qualified image |
| Registry.CreatedIsExact | tools/package/browser-registry.ts:372-379 | an index that was created from the two native images passes |
| Registry.TagsDiffer | tools/package/browser-registry.ts:243-247 | the four tags of a run never coincide |
| Registry.CandidateFits | tools/package/browser-registry.ts:243-247 | the length check on the candidate tag never fails |
| Registry.TagTexts | tools/package/browser-registry.ts:243-247 | the texts of the four tags, all of them legal as tags |
| Registry.OptionsMean | tools/package/browser-registry-metadata.ts:21-32 | a run publishes exactly a release version other than 0.0.0 and its previews, of a full commit, under a positive run number |
| Registry.PublishNative | tools/package/browser-registry.ts:335-367 | adds at most the missing native tag, with the archive's image, and never replaces one |
| Registry.PublishNatives | tools/package/browser-registry.ts:333-368 | both images, leaving every existing tag alone |
| Registry.PublishIndex | tools/package/browser-registry.ts:369-385 | reuses or creates the candidate, and never replaces it |
| Registry.Publish | tools/package/browser-registry.ts:325-386 | a published candidate is an exact index, and no existing tag moved; over another image under the version tag nothing is pushed at all |
| Registry.AnonymousPulls | tools/package/browser-registry.ts:388-436 | both images are pulled and pass, cooperatively exactly when they are the qualified ones |
| Registry.PullsMean | tools/package/browser-registry.ts:388-436 | the pulls pass exactly when the first linux/amd64 child of the index and the arm64 manifest are the images of the archives |
| Registry.Promote | tools/package/browser-registry.ts:451-505 | the version tag is set to the candidate or not at all, and only to an exact index after both anonymous pulls; with another digest there it is refused |
| Registry.Release | tools/package/browser-registry.ts:507-528 | killed between any two commands, a run moves no tag, gives the version tag only to an exact index, and leaves a state from which the same run completes |
| Registry.ReleaseUntilDone | tools/package/browser-registry.ts:507-528 | any number of killed runs and then one that is not end with the version tag on exactly the two archive images |
| Registry.ReleaseMany | tools/package/browser-registry.ts:451-505 | publishers one after another, killed anywhere, never move an existing tag |

## Left out

- File modes, owners, symbolic links and hard links, and the checks on them; objects are regular files or directories.
- JSON text syntax: values are decoded and canonical, but the lengths of the canonical journal and manifest are modelled exactly.
- A decoded installation record whose own file exceeds 64 KiB through extra white space.
- The contents of an inspection report: it is eligible or not, and has a size.
- Timeouts, polling delays, readiness over HTTP, and the output limits of external commands: an awaited call succeeds or fails.
- Maintenance.Command.Resolve: how a release is put together from manifests, checksums and image inspection is not modelled; an answer is well formed and of the pointer that was asked for.
- The capacity check on the file system, and trees that change under a walk: a cooperative environment has room and holds still.
- Maintenance.Command.Owned: the container settings that the source compares one by one are one value, the release they belong to.
- Maintenance.Command.AcquireLease: whether another process holds the lock on the lease file is an answer of the environment.
- Removing leaked inspection containers, preparing containerlab, the embedded local delivery policy.
- `read-current` and the exit codes and messages of the commands.
- Parsing of npm reports into findings, and reading installed patches: the graph and the verified patches are given.
- Object identity and prototypes in plugin JSON: an object is plain or foreign, and sparse arrays and unpaired surrogates are not modelled.
- Sizes of qualification files: a receipt or copy above 64 MiB is refused when it is read, which no ordinary report approaches.
- Parsing of raw qualification reports: they are decoded, and the fields that no summary depends on are absent.
- The environment, identity and limitation fields of a receipt, which the commands copy and the validator matches.
- Maintenance.Command.Execute: completeness is stated for a cooperative environment, as any other may refuse any call.
- Registry.Release: that a killed run can be completed is stated for archives that have not changed and a version that no other run has published.
- Rounding: the elapsed time of a soak run is a decimal, where the source has the nearest double.
- The access rights of a restore, and failures of the file system during one.
- Signals after the targets of a process tree are chosen, and processes started after the snapshot.
- Windows process trees, packaging, signing, documentation pages and live systems.
