/** When a file that a transaction writes is too large for the transaction to read back. */
module Sizes {
  import opened Text
  import opened SemVer
  import opened Precedence
  import opened Sorting
  import opened Tree
  import opened Records
  import opened World
  import opened Maintenance
  import opened History

  // ---------------------------------------------------------------- bounds on the parts

  predicate Plain(s: string) { forall i :: 0 <= i < |s| ==> CharBytes(s[i]) == 1 }

  lemma {:induction false} EscapedBounds(s: string)
    ensures |s| <= Escaped(s) <= 12 * |s|
    ensures Plain(s) ==> Escaped(s) == |s|
    ensures (forall i :: 0 <= i < |s| ==> s[i] as int <= 0xFFFF) ==> Escaped(s) <= 6 * |s|
  {
    if s != "" {
      EscapedBounds(s[1..]);
      assert forall i :: 0 <= i < |s| - 1 ==> s[1..][i] == s[i + 1];
    }
  }

  lemma {:induction false} EscapedRepeat(c: char, n: nat)
    ensures Escaped(seq(n, _ => c)) == n * CharBytes(c)
  {
    if n > 0 {
      EscapedRepeat(c, n - 1);
      assert seq(n, _ => c)[1..] == seq(n - 1, _ => c);
    }
  }

  lemma {:induction false} NumberFits(n: nat, digits: nat)
    requires digits >= 1 && n < Power10(digits)
    ensures 1 <= NumberBytes(n) <= digits
  {
    if n >= 10 {
      NumberFits(n / 10, digits - 1);
    }
  }

  lemma IntegerFits(n: nat)
    requires n <= MAX_INTEGER
    ensures 1 <= NumberBytes(n) <= 16
  {
    assert Power10(4) == 10_000 && Power10(8) == 100_000_000 && Power10(12) == 1_000_000_000_000;
    assert Power10(16) == 10_000_000_000_000_000;
    NumberFits(n, 16);
  }

  lemma HexIsPlain(s: string, length: nat)
    requires IsHex(s, length)
    ensures Plain(s)
  {
    forall i | 0 <= i < |s| ensures CharBytes(s[i]) == 1 { assert IsHexDigit(s[i]); }
  }

  lemma VersionIsPlain(s: string)
    requires VersionPattern(s)
    ensures Plain(s)
  {
    PartitionParts(s, '-');
    var core := Before(s, '-');
    JoinSplit(core, '.');
    CorePlain(core);
  }

  lemma CorePlain(core: string)
    requires CoreSyntax(core)
    ensures Plain(core)
  {
    JoinSplit(core, '.');
    var parts := Split(core, '.');
    assert parts[1..] == [parts[1], parts[2]] && parts[1..][1..] == [parts[2]];
    assert Join(parts[1..], '.') == parts[1] + ['.'] + parts[2];
    assert core == parts[0] + ['.'] + (parts[1] + ['.'] + parts[2]);
  }

  lemma PlainBytes(s: string)
    requires Plain(s)
    ensures StringBytes(s) == |s| + 2
  {
    EscapedBounds(s);
  }

  lemma PointerFits(p: Pointer)
    requires PointerOk(p)
    ensures PointerBytes(p) <= 370 && Plain(p.version) && |p.version| <= 128
  {
    HexIsPlain(p.sourceRevision, 40);
    VersionIsPlain(p.version);
    PlainBytes(p.sourceRevision);
    PlainBytes(p.version);
  }

  lemma ReleaseFits(r: Release)
    requires ReleaseOk(r)
    ensures ReleaseBytes(r) <= 970
  {
    hide PointerOk, PointerBytes, IsImageDigest, StringBytes, Plain;
    PointerFits(r.pointer);
    DigestIsPlain(r.imageId);
    LiteralsArePlain();
    PlainJoin("streamskope-", r.pointer.version);
    PlainJoin("streamskope-" + r.pointer.version, ".clab.yml");
    PlainBytes(r.contract);
    PlainBytes(r.imageId);
    PlainBytes(r.topology);
    ReferenceFits(r);
  }

  lemma ReferenceFits(r: Release)
    requires ReleaseOk(r) && Plain(r.pointer.version) && |r.pointer.version| <= 128
    ensures StringBytes(r.reference) <= 240
  {
    hide PointerOk, IsImageDigest, StringBytes, Plain;
    LiteralsArePlain();
    if r.scope.PublicRegistry? {
      var prefix := "ghcr.io/asadarafat/streamskope:" + r.pointer.version + "@";
      var digest := r.reference[|prefix|..];
      DigestIsPlain(digest);
      PlainJoin("ghcr.io/asadarafat/streamskope:", r.pointer.version);
      PlainJoin("ghcr.io/asadarafat/streamskope:" + r.pointer.version, "@");
      PlainJoin(prefix, digest);
      assert r.reference == prefix + digest;
    } else {
      PlainJoin("streamskope:", r.pointer.version);
    }
    PlainBytes(r.reference);
  }

  lemma PlainJoin(s: string, t: string)
    requires Plain(s) && Plain(t)
    ensures Plain(s + t)
  {
  }

  lemma LiteralsArePlain()
    ensures Plain("streamskope-") && Plain(".clab.yml") && Plain("streamskope:") && Plain("@") && Plain(CONTRACT)
    ensures Plain("ghcr.io/asadarafat/streamskope:")
  {
  }

  lemma DigestIsPlain(s: string)
    requires IsImageDigest(s)
    ensures Plain(s) && |s| == 71
  {
    HexIsPlain(s[7..], 64);
    assert s == "sha256:" + s[7..];
  }

  lemma RecordFits(r: Record)
    requires RecordOk(r)
    ensures RecordBytes(r) <= 900 + Escaped(r.owner.home)
  {
    hide PointerOk, PointerBytes, NumberBytes, Escaped;
    IntegerFits(r.owner.uid);
    IntegerFits(r.owner.gid);
    IntegerFits(r.owner.operatorUid);
    IntegerFits(r.owner.port);
    match r
    case Record1(p, _) => PointerFits(p);
    case Record2(c, p, _) => PointerFits(c); if p.Some? { PointerFits(p.value); }
  }

  // ---------------------------------------------------------------- the journal

  /** Only the home path, which the journal holds twice, can make it too large to be read back. */
  lemma JournalFits(j: Journal)
    requires JournalOk(j)
    ensures JournalBytes(j) <= 5568 + 2 * Escaped(j.header.originalRecord.owner.home)
                               + NumberBytes(j.header.lease.device) + NumberBytes(j.header.lease.inode)
  {
    hide RecordOk, RecordBytes, ReleaseOk, ReleaseBytes, Escaped;
    var h := j.header;
    RecordFits(h.originalRecord);
    RecordFits(h.nextRecord);
    ReleaseFits(h.from);
    ReleaseFits(h.to);
    IntegerFits(h.original.restartCount);
    IntegerFits(j.backupAttempt);
    EscapedBounds(h.original.startedAt);
  }

  /** So every journal of a home path within the basic plane is read back after any crash. */
  lemma BasicPlaneAccepted(run: Run, j: Journal)
    requires IsRun(run) && Last(run).journal == Some(j) && LeaseOk(j.header.lease)
    requires var home := j.header.originalRecord.owner.home; forall i :: 0 <= i < |home| ==> home[i] as int <= 0xFFFF
    ensures LoadAccepts(j)
  {
    hide RecordBytes, ReleaseOk, ReleaseBytes, JournalBytes;
    PersistedJournalAccepted(run, j);
    JournalFits(j);
    IntegerFits(j.header.lease.device);
    IntegerFits(j.header.lease.inode);
    EscapedBounds(j.header.originalRecord.owner.home);
  }

  /** The journal holds the home path twice. */
  lemma JournalAtLeast(j: Journal)
    requires j.header.originalRecord.owner == j.header.nextRecord.owner
    ensures JournalBytes(j) >= 2 * Escaped(j.header.originalRecord.owner.home)
  {
    hide Escaped, PointerBytes, ReleaseBytes;
  }

  lemma EscapedSlash(tail: string)
    ensures Escaped("/" + tail) == 1 + Escaped(tail)
  {
    assert ("/" + tail)[1..] == tail;
  }

  // ---------------------------------------------------------------- the manifest

  function LongPaths(es: Snapshot): nat {
    if es == [] then 0 else LongPaths(es[1..]) + if |es[0].path| > 200 then 1 else 0
  }

  lemma {:induction false} LongEntries(es: Snapshot, o: Owner)
    ensures EntriesBytes(es, o) >= 260 * LongPaths(es)
  {
    if es != [] {
      LongEntries(es[1..], o);
      EscapedBounds(es[0].path);
    }
  }

  /** Different paths are long, but for those that are known not to be. */
  lemma {:induction false} MostAreLong(es: Snapshot, short: set<string>)
    requires Distinct(Paths(es))
    requires forall i :: 0 <= i < |es| ==> |es[i].path| > 200 || es[i].path in short
    ensures LongPaths(es) + |short| >= |es|
  {
    if es != [] {
      var rest := es[1..];
      assert forall i :: 0 <= i < |rest| ==> rest[i] == es[i + 1] && Paths(es)[i + 1] == rest[i].path;
      assert Paths(es)[0] == es[0].path;
      MostAreLong(rest, if |es[0].path| > 200 then short else short - {es[0].path});
    }
  }
}
