/** What is accepted when the installation record and the journal are read back, field by field. */
module Acceptance {
  import opened Text
  import opened SemVer
  import opened Precedence
  import opened VersionText
  import opened Tree
  import opened Records

  const SAFE: nat := 9007199254740991

  /** That many characters of 0-9 and a-f. */
  predicate HexText(s: string, length: nat) {
    |s| == length && forall i :: 0 <= i < |s| ==> 48 <= s[i] as int <= 57 || 97 <= s[i] as int <= 102
  }

  /** Three numbers, and after a hyphen any letters, digits, hyphens and dots. */
  ghost predicate VersionReads(s: string) { exists a, b, c, tail :: ReadsAs(s, a, b, c, tail) }

  ghost predicate ReadsAs(s: string, a: nat, b: nat, c: nat, tail: string) {
    && ((s == CoreText(a, b, c) && tail == "") || (s == CoreText(a, b, c) + ['-'] + tail && tail != ""))
    && forall i :: 0 <= i < |tail| ==>
         || 48 <= tail[i] as int <= 57 || 65 <= tail[i] as int <= 90 || 97 <= tail[i] as int <= 122
         || tail[i] == '-' || tail[i] == '.'
  }

  ghost predicate PointerReads(p: Pointer) {
    && |p.version| <= 128 && VersionReads(p.version)
    && HexText(p.sourceRevision, 40) && HexText(p.topologySha256, 64) && HexText(p.manifestSha256, 64)
  }

  predicate OwnerReads(o: Owner) {
    && 1 <= o.uid <= SAFE && o.gid <= SAFE && o.operatorUid <= SAFE && 1024 <= o.port && o.port <= 65535
    && 1 <= |o.home| <= 4096 && o.home[0] == '/'
    && forall i :: 0 <= i < |o.home| ==> o.home[i] != '\r' && o.home[i] != '\n' && o.home[i] as int != 0
  }

  ghost predicate RecordReads(r: Record) {
    match r
    case Record1(p, o) => OwnerReads(o) && PointerReads(p)
    case Record2(c, None, o) => OwnerReads(o) && PointerReads(c)
    case Record2(c, Some(p), o) => OwnerReads(o) && PointerReads(c) && PointerReads(p)
  }

  ghost predicate DigestReads(s: string) { exists hex :: HexText(hex, 64) && s == "sha256:" + hex }

  ghost predicate ReleaseReads(r: Release) {
    && PointerReads(r.pointer) && DigestReads(r.imageId) && r.contract == "streamskope-browser-data-v1"
    && r.topology == "streamskope-" + r.pointer.version + ".clab.yml"
    && (match r.scope
        case LocalStaged => r.reference == "streamskope:" + r.pointer.version
        case PublicRegistry =>
          exists d :: DigestReads(d) && r.reference == "ghcr.io/asadarafat/streamskope:" + r.pointer.version + "@" + d)
  }

  /** The journaled backup is the directory of the journaled attempt. */
  predicate BackupReads(j: Journal) {
    j.backup.Some? ==> j.backup.value.slot == Slot(j.header.transaction, j.backupAttempt) && j.backupAttempt >= 1
  }

  predicate IdReads(id: Option<string>) { id.Some? ==> HexText(id.value, 64) }

  /** The shape of the journal, and how its two records and two releases belong together. */
  ghost predicate JournalReads(j: Journal) {
    var h := j.header;
    && (h.operation == Upgrade || h.operation == Rollback) && UuidReads(h.transaction)
    && RecordReads(h.originalRecord) && RecordReads(h.nextRecord) && h.nextRecord.Record2?
    && h.nextRecord.owner == h.originalRecord.owner
    && h.nextRecord.previous ==
       Some(if h.originalRecord.Record1? then h.originalRecord.pointer else h.originalRecord.current)
    && h.nextSha256.preimage == Bytes(h.nextRecord, 0)
    && ReleaseReads(h.from) && Some(h.from.pointer) == h.nextRecord.previous
    && ReleaseReads(h.to) && h.to.pointer == h.nextRecord.current
    && HexText(h.original.id, 64) && |h.original.startedAt| <= 64 && h.original.restartCount <= SAFE
    && h.lease.device <= SAFE && 1 <= h.lease.inode <= SAFE
    && j.backupAttempt <= 16 && BackupReads(j) && IdReads(j.candidateId)
    && (match j.phase
        case Intent => true
        case Stopped => true
        case BackedUp => j.backup.Some?
        case Retiring => j.backup.Some?
        case Retired => j.backup.Some?
        case Deployed => j.backup.Some? && j.candidateId.Some?
        case Committed => j.backup.Some? && j.candidateId.Some?)
  }

  /** 8, 4, 4, 4 and 12 hexadecimal digits with hyphens between them. */
  predicate UuidReads(s: string) {
    && |s| == 36 && s[8] == '-' && s[13] == '-' && s[18] == '-' && s[23] == '-'
    && HexText(s[..8], 8) && HexText(s[9..13], 4) && HexText(s[14..18], 4) && HexText(s[19..23], 4)
    && HexText(s[24..], 12)
  }

  // ---------------------------------------------------------------- both directions

  lemma HexTextIs(s: string, length: nat)
    ensures IsHex(s, length) <==> HexText(s, length)
  {
  }

  lemma CoreIsText(s: string)
    requires CoreSyntax(s)
    ensures exists a, b, c :: s == CoreText(a, b, c)
  {
    hide CoreSyntax, CoreText;
    var p := CoreNumbers(s);
    CoreReads(p[0], p[1], p[2]);
    assert p == [p[0], p[1], p[2]];
    CoreNumbersInjective(s, CoreText(p[0], p[1], p[2]));
  }

  lemma VersionReadsExactly(s: string)
    ensures VersionPattern(s) <==> VersionReads(s)
  {
    hide CoreSyntax, CoreText;
    PartitionParts(s, '-');
    if VersionPattern(s) {
      CoreIsText(Before(s, '-'));
      var a, b, c :| Before(s, '-') == CoreText(a, b, c);
      assert ReadsAs(s, a, b, c, After(s, '-'));
    }
    if a, b, c, tail :| ReadsAs(s, a, b, c, tail) {
      CoreReads(a, b, c);
      CoreHasNoMark(CoreText(a, b, c), '-');
      if tail == "" { PartitionParts(CoreText(a, b, c), '-'); } else { PartitionOf(CoreText(a, b, c), '-', tail); }
    }
  }

  lemma PointerReadsExactly(p: Pointer)
    ensures PointerOk(p) <==> PointerReads(p)
  {
    hide VersionPattern, VersionReads;
    VersionReadsExactly(p.version);
  }

  lemma OwnerReadsExactly(o: Owner)
    ensures OwnerOk(o) <==> OwnerReads(o)
  {
  }

  lemma RecordReadsExactly(r: Record)
    ensures RecordOk(r) <==> RecordReads(r)
  {
    hide PointerOk, PointerReads, OwnerOk, OwnerReads;
    OwnerReadsExactly(r.owner);
    match r
    case Record1(p, _) => PointerReadsExactly(p);
    case Record2(c, None, _) => PointerReadsExactly(c);
    case Record2(c, Some(p), _) => PointerReadsExactly(c); PointerReadsExactly(p);
  }

  lemma DigestReadsExactly(s: string)
    ensures IsImageDigest(s) <==> DigestReads(s)
  {
    if IsImageDigest(s) {
      HexTextIs(s[7..], 64);
      assert s == "sha256:" + s[7..];
    }
    if hex :| HexText(hex, 64) && s == "sha256:" + hex {
      assert s[7..] == hex && s[..7] == "sha256:";
    }
  }

  lemma ReleaseReadsExactly(r: Release)
    ensures ReleaseOk(r) <==> ReleaseReads(r)
  {
    hide PointerOk, PointerReads, IsImageDigest, DigestReads;
    PointerReadsExactly(r.pointer);
    DigestReadsExactly(r.imageId);
    var prefix := "ghcr.io/asadarafat/streamskope:" + r.pointer.version + "@";
    if prefix <= r.reference {
      DigestReadsExactly(r.reference[|prefix|..]);
      assert r.reference == prefix + r.reference[|prefix|..];
    }
    forall d | r.reference == prefix + d ensures prefix <= r.reference && r.reference[|prefix|..] == d {}
  }

  lemma UuidReadsExactly(s: string)
    ensures IsUuid(s) <==> UuidReads(s)
  {
    if |s| == 36 {
      SliceIsHex(s, 0, 8);
      SliceIsHex(s, 9, 13);
      SliceIsHex(s, 14, 18);
      SliceIsHex(s, 19, 23);
      SliceIsHex(s, 24, 36);
      assert s[0..8] == s[..8] && s[24..36] == s[24..];
    }
  }

  lemma SliceIsHex(s: string, i: nat, n: nat)
    requires i <= n <= |s|
    ensures HexText(s[i..n], n - i) <==> forall k :: i <= k < n ==> IsHexDigit(s[k])
  {
    if HexText(s[i..n], n - i) {
      forall k | i <= k < n ensures IsHexDigit(s[k]) { assert s[k] == s[i..n][k - i]; }
    }
  }

  /** A journal is loaded exactly when it reads so and its file is at most 64 KiB. */
  lemma LoadExactly(j: Journal)
    ensures LoadAccepts(j) <==> JournalReads(j) && JournalBytes(j) <= 65536
  {
    hide RecordOk, RecordReads, ReleaseOk, ReleaseReads, IsUuid, UuidReads, JournalBytes;
    var h := j.header;
    RecordReadsExactly(h.originalRecord);
    RecordReadsExactly(h.nextRecord);
    ReleaseReadsExactly(h.from);
    ReleaseReadsExactly(h.to);
    UuidReadsExactly(h.transaction);
    HexTextIs(h.original.id, 64);
    if j.candidateId.Some? { HexTextIs(j.candidateId.value, 64); }
  }
}
