/** The installation record, the transaction journal and the backup manifest, with the checks on reading them. */
module Records {
  import opened Text
  import opened Precedence
  import opened Tree

  const MAX_PRIVATE: nat := 65536
  const MAX_OUTPUT: nat := 2 * 1024 * 1024
  const MAX_ATTEMPTS: nat := 16
  const MAX_INTEGER: nat := 0x1F_FFFF_FFFF_FFFF
  const CONTRACT := "streamskope-browser-data-v1"

  // ---------------------------------------------------------------- installation record

  datatype Pointer = Pointer(version: string, sourceRevision: string, topologySha256: string, manifestSha256: string)

  datatype Owner = Owner(uid: nat, gid: nat, home: string, operatorUid: nat, port: nat)

  /** The two schemas of installation.json. */
  datatype Record =
    | Record1(pointer: Pointer, owner: Owner)
    | Record2(current: Pointer, previous: Option<Pointer>, owner: Owner)

  /** The file: a record in some layout, of which layout 0 is the canonical one. */
  datatype Bytes = Bytes(record: Record, layout: nat)

  function CanonicalBytes(r: Record): Bytes { Bytes(r, 0) }

  predicate IsHexDigit(c: char) { IsDigit(c) || 'a' <= c <= 'f' }

  predicate IsHex(s: string, length: nat) { |s| == length && forall i :: 0 <= i < |s| ==> IsHexDigit(s[i]) }

  /** pointer() */
  predicate PointerOk(p: Pointer) {
    && |p.version| <= 128 && VersionPattern(p.version)
    && IsHex(p.sourceRevision, 40) && IsHex(p.topologySha256, 64) && IsHex(p.manifestSha256, 64)
  }

  predicate OwnerOk(o: Owner) {
    && 1 <= o.uid <= MAX_INTEGER && o.gid <= MAX_INTEGER && o.operatorUid <= MAX_INTEGER
    && 1024 <= o.port <= 65535
    && o.home != "" && o.home[0] == '/' && |o.home| <= 4096
    && '\r' !in o.home && '\n' !in o.home && '\0' !in o.home
  }

  predicate RecordOk(r: Record) {
    && OwnerOk(r.owner)
    && match r
       case Record1(p, _) => PointerOk(p)
       case Record2(c, p, _) => PointerOk(c) && (p.Some? ==> PointerOk(p.value))
  }

  /** installation(): both schemas in the form of the second. */
  function Normal(r: Record): (n: Record)
    ensures n.Record2? && n.owner == r.owner && (RecordOk(n) <==> RecordOk(r))
    ensures r.Record1? ==> n.current == r.pointer && n.previous.None?
    ensures r.Record2? ==> n == r
  {
    match r
    case Record1(p, o) => Record2(p, None, o)
    case Record2(_, _, _) => r
  }

  /** The record that a transaction to `selected` will commit. */
  function NextRecord(r: Record, selected: Pointer): Record {
    Record2(selected, Some(Normal(r).current), r.owner)
  }

  /** Rolling back twice restores both pointers. */
  lemma RollbackTwice(r: Record, once: Record)
    requires Normal(r).previous.Some?
    requires once == NextRecord(r, Normal(r).previous.value)
    ensures once.previous == Some(Normal(r).current)
    ensures NextRecord(once, once.previous.value) == Normal(r)
  {
  }

  // ---------------------------------------------------------------- releases and the journal

  datatype Scope = PublicRegistry | LocalStaged

  datatype Release = Release(
    pointer: Pointer, reference: string, imageId: string, scope: Scope,
    contract: string, inspector: bool, topology: string)

  predicate IsImageDigest(s: string) { |s| == 71 && s[..7] == "sha256:" && IsHex(s[7..], 64) }

  /** The release fields that load_journal checks and `release` produces. */
  predicate ReleaseOk(r: Release) {
    && PointerOk(r.pointer)
    && r.contract == CONTRACT
    && r.topology == "streamskope-" + r.pointer.version + ".clab.yml"
    && IsImageDigest(r.imageId)
    && match r.scope
       case PublicRegistry =>
         var prefix := "ghcr.io/asadarafat/streamskope:" + r.pointer.version + "@";
         prefix <= r.reference && IsImageDigest(r.reference[|prefix|..])
       case LocalStaged => r.reference == "streamskope:" + r.pointer.version
  }

  datatype Operation = Check | Upgrade | Rollback | Recover

  datatype Phase = Intent | Stopped | BackedUp | Retiring | Retired | Deployed | Committed

  function PhaseIndex(p: Phase): nat {
    match p
    case Intent => 0 case Stopped => 1 case BackedUp => 2 case Retiring => 3
    case Retired => 4 case Deployed => 5 case Committed => 6
  }

  datatype OriginalContainer = OriginalContainer(id: string, startedAt: string, restartCount: nat)

  datatype Lease = Lease(device: nat, inode: nat)

  /** Where a backup is kept: `backups/TRANSACTION/attempt-N`. */
  datatype Slot = Slot(transaction: string, attempt: nat)

  /** The data tree, as the sorted inventory that determines it. */
  type Snapshot = seq<Entry>

  /** An eligible inspection report; its canonical text has this many bytes. */
  datatype Inspection = Inspection(bytes: nat)

  datatype Document = Document(slot: Slot, source: Release, entries: Snapshot, inspection: Inspection, owner: Owner)

  datatype Backup = Backup(slot: Slot, inventorySha256: Digest<Document>, dataSnapshotSha256: Digest<Snapshot>)

  /** The fields of a journal that one transaction never changes. */
  datatype Header = Header(
    transaction: string, operation: Operation,
    originalRecord: Record, originalSha256: Digest<Bytes>,
    nextRecord: Record, nextSha256: Digest<Bytes>,
    from: Release, to: Release,
    original: OriginalContainer, lease: Lease)

  datatype Journal = Journal(
    header: Header, phase: Phase,
    backupAttempt: nat, backup: Option<Backup>, candidateId: Option<string>)

  /** A canonical lower-case UUID. */
  predicate IsUuid(s: string) {
    |s| == 36 && forall i :: 0 <= i < 36 ==> if i in {8, 13, 18, 23} then s[i] == '-' else IsHexDigit(s[i])
  }

  /** parse_backup */
  predicate BackupOk(b: Backup, transaction: string, attempt: nat) {
    b.slot == Slot(transaction, attempt) && 1 <= attempt <= MAX_ATTEMPTS
  }

  /** The checks of load_journal on the fields that never change. */
  predicate HeaderOk(h: Header) {
    && IsUuid(h.transaction)
    && (h.operation == Upgrade || h.operation == Rollback)
    && RecordOk(h.originalRecord) && RecordOk(h.nextRecord)
    && h.nextRecord.Record2?
    && h.originalRecord.owner == h.nextRecord.owner
    && h.nextRecord.previous == Some(Normal(h.originalRecord).current)
    && h.nextSha256 == Sha256(CanonicalBytes(h.nextRecord))
    && ReleaseOk(h.from) && h.from.pointer == Normal(h.originalRecord).current
    && ReleaseOk(h.to) && h.to.pointer == h.nextRecord.current
    && IsHex(h.original.id, 64) && |h.original.startedAt| <= 64 && h.original.restartCount <= MAX_INTEGER
  }

  /** load_journal bounds what the file system reported; nothing does when it is written. */
  predicate LeaseOk(l: Lease) { l.device <= MAX_INTEGER && 1 <= l.inode <= MAX_INTEGER }

  /** The checks of load_journal on the decoded value, but for the lease. */
  predicate JournalOk(j: Journal) {
    && HeaderOk(j.header)
    && j.backupAttempt <= MAX_ATTEMPTS
    && (j.candidateId.Some? ==> IsHex(j.candidateId.value, 64))
    && (PhaseIndex(j.phase) >= PhaseIndex(Deployed) ==> j.candidateId.Some?)
    && (j.backup.Some? ==> BackupOk(j.backup.value, j.header.transaction, j.backupAttempt))
    && (PhaseIndex(j.phase) >= PhaseIndex(BackedUp) ==> j.backup.Some?)
  }

  // ---------------------------------------------------------------- sizes of the canonical texts

  /** A character of a JSON string in ASCII; one outside the basic plane takes two escapes. */
  function CharBytes(c: char): nat {
    if c == '"' || c == '\\' || c == '\n' || c == '\r' || c == '\t' || c == '\U{8}' || c == '\U{C}' then 2
    else if ' ' <= c <= '~' then 1
    else if c as int > 0xFFFF then 12
    else 6
  }

  function Escaped(s: string): nat { if s == "" then 0 else CharBytes(s[0]) + Escaped(s[1..]) }

  function StringBytes(s: string): nat { 2 + Escaped(s) }

  function NumberBytes(n: nat): nat { |PrintNat(n)| }

  const HEX_BYTES: nat := 66  // a quoted SHA-256

  function PointerBytes(p: Pointer): nat {
    // {"manifestSha256":,"sourceRevision":,"topologySha256":,"version":}
    66 + 2 * HEX_BYTES + StringBytes(p.sourceRevision) + StringBytes(p.version)
  }

  function OwnerFieldBytes(o: Owner): nat {
    // "gid":,"home":,"operatorUid":,"port":,"uid":
    44 + NumberBytes(o.gid) + StringBytes(o.home) + NumberBytes(o.operatorUid) + NumberBytes(o.port)
    + NumberBytes(o.uid)
  }

  function RecordBytes(r: Record): nat {
    match r
    case Record1(p, o) => 19 + OwnerFieldBytes(o) + PointerBytes(p)  // ,"schemaVersion":1, braces shared
    case Record2(c, p, o) =>
      // {"current":,..,"previous":,..,"schemaVersion":2,..}
      43 + OwnerFieldBytes(o) + PointerBytes(c) + if p.Some? then PointerBytes(p.value) else 4
  }

  function BoolBytes(b: bool): nat { if b then 4 else 5 }

  function ScopeBytes(s: Scope): nat { if s.PublicRegistry? then 17 else 14 }

  function ReleaseBytes(r: Release): nat {
    // {"contract":,"deliveryScope":,"imageId":,"inspector":,"reference":,"topology":, and the pointer fields
    PointerBytes(r.pointer) + 78 + StringBytes(r.contract) + ScopeBytes(r.scope) + StringBytes(r.imageId)
    + BoolBytes(r.inspector) + StringBytes(r.reference) + StringBytes(r.topology)
  }

  function PhaseBytes(p: Phase): nat {
    match p
    case Intent => 8 case Stopped => 9 case BackedUp => 11 case Retiring => 10
    case Retired => 9 case Deployed => 10 case Committed => 11
  }

  function BackupBytes(b: Option<Backup>): nat {
    // {"dataSnapshotSha256":,"inventorySha256":,"path":"backups/UUID/attempt-N"}
    if b.None? then 4 else 105 + 2 * HEX_BYTES + NumberBytes(b.value.slot.attempt)
  }

  /** The length of canonical(journal), which is what is written to maintenance.json. */
  function JournalBytes(j: Journal): nat {
    // all keys, separators and braces, the schema version and the final newline
    265
    + BackupBytes(j.backup) + NumberBytes(j.backupAttempt) + (if j.candidateId.None? then 4 else HEX_BYTES)
    + ReleaseBytes(j.header.from) + ReleaseBytes(j.header.to)
    + NumberBytes(j.header.lease.device) + NumberBytes(j.header.lease.inode)
    + RecordBytes(j.header.nextRecord) + RecordBytes(j.header.originalRecord) + 2 * HEX_BYTES
    + (if j.header.operation == Rollback then 10 else 9)
    + HEX_BYTES + NumberBytes(j.header.original.restartCount) + StringBytes(j.header.original.startedAt)
    + PhaseBytes(j.phase) + 38
  }

  /** load_journal: the checks, and the size limit of every private file that is read back. */
  predicate LoadAccepts(j: Journal) { JournalOk(j) && LeaseOk(j.header.lease) && JournalBytes(j) <= MAX_PRIVATE }

  function EntryBytes(e: Entry, o: Owner): nat {
    // {"bytes":,"gid":,"mode":NNN,"path":,"sha256":,"type":,"uid":}
    58 + NumberBytes(e.bytes) + NumberBytes(o.gid) + 3 + StringBytes(e.path)
    + (if e.sha256.Some? then HEX_BYTES + 6 else 4 + 11) + NumberBytes(o.uid)
  }

  function EntriesBytes(es: Snapshot, o: Owner): nat {
    if es == [] then 0 else EntryBytes(es[0], o) + 1 + EntriesBytes(es[1..], o)
  }

  /** The length of canonical(document), which is what is written to inventory.json. */
  function DocumentBytes(d: Document): nat {
    // all keys, separators and brackets, the schema version and the final newline; the last entry has no comma
    106 + 71 + NumberBytes(d.slot.attempt) + HEX_BYTES + EntriesBytes(d.entries, d.owner) + d.inspection.bytes + 38
    + ScopeBytes(d.source.scope) + StringBytes(d.source.imageId) + StringBytes(d.source.reference)
    + StringBytes(d.source.pointer.sourceRevision) + StringBytes(d.source.pointer.version)
  }
}
