/** The locked restore of a full backup, which keeps the changed data and the lease file. */
module Restore {
  import opened Text
  import opened Sorting
  import opened Tree
  import opened Records

  /** inventory.json as it is found: what it says, and its length. */
  datatype Manifest = Manifest(entries: Snapshot, snapshot: Digest<Snapshot>, bytes: nat)

  ghost predicate DescribesBackup(m: Manifest, backup: Files) {
    IsInventory(backup, m.entries) && m.snapshot == Sha256(m.entries)
  }

  /** Beyond the trees: where the directories are, and whether somebody holds the lease. */
  datatype Setting = Setting(siblings: bool, backup: Place, lockFree: bool)

  /** The checks that come before anything is written. */
  ghost predicate Restorable(
    data: Files, backup: Files, preserved: Files, m: Manifest, expected: Digest<Manifest>, at: Setting)
  {
    && preserved == map[] && at.siblings && Elsewhere(at.backup) && m.bytes <= MAX_OUTPUT && Sha256(m) == expected
    && WithinLimits(data) && WithinLimits(backup) && DescribesBackup(m, backup)
    && LOCK in data && LOCK in backup && SameNode(data[LOCK], backup[LOCK]) && at.lockFree
  }

  /**
   * What the checks leave open, and what decides whether the restore completes. Nothing lies below the lease,
   * and no file of the backup is deleted with the data before its turn to be copied.
   */
  ghost predicate Survives(data: Files, backup: Files, place: Place) {
    LockAlone(data) && Readable(backup, place, Kept(true))
  }

  /** A backup apart from data with a lease file always survives. */
  lemma ApartSurvives(data: Files, backup: Files)
    requires WellFormed(data) && LOCK in data && data[LOCK].File?
    ensures Survives(data, backup, Apart)
  {
    FileIsAlone(data);
  }

  /** A backup inside the data survives only if the lease is its only file. */
  lemma InsideSurvives(data: Files, backup: Files, at: string)
    requires WellFormed(data) && LOCK in data && data[LOCK].File? && WellFormed(backup)
    ensures Survives(data, backup, Inside(at)) <==> forall p :: p in backup && backup[p].File? ==> p == LOCK
  {
    FileIsAlone(data);
  }

  /** A backup around the data survives only if it holds the files of the data a second time, sorted in front. */
  lemma AroundSurvives(data: Files, backup: Files, at: string)
    requires WellFormed(data) && LOCK in data && data[LOCK].File? && PartOf(data, backup, at) && at != ""
    requires LOCK in backup && SameNode(data[LOCK], backup[LOCK])
    ensures Survives(data, backup, Around(at)) <==>
            forall p :: p in data && data[p].File? && p != LOCK ==>
              p in backup && SameNode(backup[p], data[p]) && Less(p, Joined(at, p))
  {
    hide LockAlone, Less, Joined, Below, Rest;
    FileIsAlone(data);
    if Readable(backup, Around(at), Kept(true)) {
      forall p | p in data && data[p].File? && p != LOCK
        ensures p in backup && SameNode(backup[p], data[p]) && Less(p, Joined(at, p))
      {
        JoinedIsBelow(at, p);
        assert MadeBefore(backup, at, Kept(true), Joined(at, p));
      }
    } else {
      var q :| q in backup && backup[q].File? && q !in Kept(true) && Below(at, q)
               && !MadeBefore(backup, at, Kept(true), q);
      var p := Rest(at, q);
      assert Joined(at, p) == q && p in data;
    }
  }

  lemma JoinedIsBelow(at: string, p: string)
    requires at != "" && p != ""
    ensures Below(at, Joined(at, p)) && Rest(at, Joined(at, p)) == p && Joined(at, p) !in Kept(true)
  {
    InsideIsDeeper(at, p);
  }

  /** The manifest that the maintenance command writes for a backup. */
  function Written(d: Document): Manifest { Manifest(d.entries, Sha256(d.entries), DocumentBytes(d)) }

  /**
   * The checks accept a backup of the command over any other data with the same lease file, unless its manifest
   * is too large.
   */
  lemma WrittenIsRestorable(data: Files, backup: Files, d: Document, place: Place)
    requires WithinLimits(data) && WithinLimits(backup) && IsInventory(backup, d.entries)
    requires LOCK in data && LOCK in backup && SameNode(data[LOCK], backup[LOCK])
    ensures Restorable(data, backup, map[], Written(d), Sha256(Written(d)), Setting(true, place, true))
            <==> place != Inside("") && place != Around("") && DocumentBytes(d) <= 2 * 1024 * 1024
  {
    hide DocumentBytes, WithinLimits, IsInventory;
  }

  /** The manifest describes the backup exactly when it lists the backup's inventory. */
  lemma DescribesCurrent(m: Manifest, backup: Files, current: Snapshot)
    requires IsInventory(backup, current)
    ensures DescribesBackup(m, backup) <==> m.entries == current && m.snapshot == Sha256(current)
  {
    hide SortedList;
    if IsInventory(backup, m.entries) { InventoryExact(backup, backup, m.entries, current); }
  }

  lemma SameEntry(t: Files, u: Files, p: string)
    requires p in t && p in u
    ensures EntryOf(t, p) == EntryOf(u, p) <==> SameNode(t[p], u[p])
  {
  }

  /** The two inventories, when everything that is checked before the first write holds. */
  method CheckRestore(
      data: Files, backup: Files, preserved: Files, m: Manifest, expected: Digest<Manifest>, at: Setting)
    returns (r: Option<(Snapshot, Snapshot)>)
    requires WellFormed(data) && WellFormed(backup)
    ensures r.Some? <==> Restorable(data, backup, preserved, m, expected, at)
    ensures r.Some? ==> IsInventory(data, r.value.0) && IsInventory(backup, r.value.1)
  {
    hide WellFormed, WithinLimits, IsInventory, DescribesBackup, EntryOf, SameNode;
    if preserved != map[] || !at.siblings || !Elsewhere(at.backup) || m.bytes > MAX_OUTPUT || Sha256(m) != expected {
      return None;
    }
    var before := Inventory(data);
    var current := Inventory(backup);
    if before.Error? || current.Error? {
      return None;
    }
    DescribesCurrent(m, backup, current.value);
    if m.entries != current.value || m.snapshot != Sha256(current.value) || !at.lockFree {
      return None;
    }
    if LOCK in data && LOCK in backup { SameEntry(backup, data, LOCK); SameNodeSymmetric(data[LOCK], backup[LOCK]); }
    if LOCK !in data || LOCK !in backup || EntryOf(backup, LOCK) != EntryOf(data, LOCK) {
      return None;
    }
    r := Some((before.value, current.value));
  }

  lemma SameNodeSymmetric(a: Node, b: Node)
    ensures SameNode(a, b) <==> SameNode(b, a)
  {
  }

  /** True exactly when the tree on disk still has that inventory. */
  method Matches(t: Files, es: seq<Entry>, ghost reference: Files) returns (ok: bool)
    requires WellFormed(t) && IsInventory(reference, es) && WithinLimits(reference)
    ensures ok <==> Same(t, reference)
  {
    var now := Inventory(t);
    if now.Ok? { InventoryExact(t, reference, now.value, es); }
    if Same(t, reference) { SameSymmetric(t, reference); SameLimits(reference, t); }
    ok := now == Ok(es);
  }

  /** The deletion leaves the root and the lease, or also something that the copy can only collide with. */
  lemma Stripped(t: Files)
    requires WellFormed(t) && LOCK in t
    ensures var u := map p | p in t && OutsideOthers(t, p) :: t[p];
            && WellFormed(u) && LOCK in u && u[LOCK] == t[LOCK]
            && (LockAlone(t) ==> u.Keys == Kept(true))
            && (!LockAlone(t) ==> exists p :: p in u && p !in Kept(true))
  {
    hide WellFormed, Within, OutsideOthers, LockAlone;
    LockTreeWellFormed(t);
    assert OutsideOthers(t, LOCK) by { LockStays(t); }
    if LockAlone(t) {
      LockTreeIsKept(t);
    } else {
      var p := BelowLock(t);
    }
  }

  lemma LockStays(t: Files)
    requires WellFormed(t) && LOCK in t
    ensures OutsideOthers(t, LOCK)
  {
    LockTreeStays(t, LOCK);
  }

  lemma BelowLock(t: Files) returns (p: string)
    requires WellFormed(t) && !LockAlone(t)
    ensures p in t && p !in Kept(true) && OutsideOthers(t, p)
  {
    p :| p in t && Within(LOCK, p) && p != LOCK;
    LockTreeStays(t, p);
  }

  lemma StrippedIsCopyable(backup: Files, current: Snapshot, stripped: Files)
    requires WellFormed(backup) && IsInventory(backup, current) && WellFormed(stripped)
    requires stripped.Keys == Kept(true) && LOCK in backup && SameNode(stripped[LOCK], backup[LOCK])
    ensures Copyable(backup, current, Kept(true), stripped)
  {
  }

  /** The first write: a complete copy of the changed data, which always succeeds. */
  method Preserve(data: Disk, preserved: Disk, before: seq<Entry>) returns (ok: bool)
    requires WellFormed(data.files) && WithinLimits(data.files) && IsInventory(data.files, before)
    requires data != preserved && preserved.files == map[]
    modifies preserved
    ensures ok && WellFormed(preserved.files) && Same(preserved.files, data.files)
  {
    hide Readable, WithinLimits, IsInventory;
    ghost var original := data.files;
    assert Readable(original, Apart, Kept(false)) by { ApartIsReadable(original, Kept(false)); }
    ok := preserved.CopyEntries(data.files, Apart, before, false);
    SameWellFormed(original, preserved.files);
    SameSymmetric(original, preserved.files);
    var kept := Matches(preserved.files, before, original);
    var still := Matches(data.files, before, original);
    ok := ok && kept && still;
  }

  /** The writes: preserve the changed data, delete it but for the lease, copy the backup in. */
  method Replace(
      data: Disk, backup: Files, place: Place, preserved: Disk, before: seq<Entry>, current: seq<Entry>)
    returns (ok: bool)
    requires WellFormed(data.files) && WellFormed(backup) && data != preserved && preserved.files == map[]
    requires IsInventory(data.files, before) && IsInventory(backup, current) && Elsewhere(place)
    requires WithinLimits(data.files) && WithinLimits(backup)
    requires LOCK in data.files && LOCK in backup && SameNode(data.files[LOCK], backup[LOCK])
    modifies data, preserved
    ensures ok <==> old(Survives(data.files, backup, place))
    ensures ok ==> Same(data.files, backup)
    ensures Same(preserved.files, old(data.files))
    ensures LOCK in data.files && data.files[LOCK] == old(data.files)[LOCK]
    ensures place.Inside? && old(LockAlone(data.files)) ==> NoFileBut(data.files, Kept(true))
  {
    hide Readable, WithinLimits, LockAlone, OutsideOthers, WellFormed, IsInventory, Same, NoFileBut;
    var lease := data.files[LOCK];
    ghost var original := data.files;
    ok := Preserve(data, preserved, before);
    if !ok { return; }
    data.DeleteAllButLock();
    Stripped(original);
    ghost var stripped := data.files;
    if LockAlone(original) { StrippedIsCopyable(backup, current, stripped); }
    ok := data.CopyEntries(backup, place, current, true);
    if !ok {
      return;
    }
    var restored := Matches(data.files, current, backup);
    var kept := Matches(preserved.files, before, original);
    if !LockAlone(original) { Collides(backup, current, stripped, data.files); }
    if restored { SameSymmetric(data.files, backup); }
    if Same(backup, data.files) { SameSymmetric(backup, data.files); }
    ok := restored && kept && data.files[LOCK].inode == lease.inode;
  }

  lemma ApartIsReadable(source: Files, kept: set<string>)
    ensures Readable(source, Apart, kept)
  {
  }

  /** What was left below the lease is in the way of a listed object, or is in no list. */
  lemma Collides(backup: Files, current: Snapshot, stripped: Files, now: Files)
    requires IsInventory(backup, current) && exists p :: p in stripped && p !in Kept(true)
    requires forall p :: p in stripped ==> p in now
    requires forall e :: e in current && e.path !in Kept(true) ==> e.path !in stripped
    ensures !Same(now, backup)
  {
    var p :| p in stripped && p !in Kept(true);
    forall i | 0 <= i < |current| ensures Paths(current)[i] != p { assert current[i] in current; }
    assert p !in backup;
  }

  ghost predicate MayRestore(
      data: Disk, backup: Files, place: Place, preserved: Disk, m: Manifest, expected: Digest<Manifest>, lockFree: bool)
    reads data, preserved
  {
    Restorable(data.files, backup, preserved.files, m, expected,
               Setting(data.parent == preserved.parent, place, lockFree))
  }

  /**
   * restore_locked. Nothing is written unless every check passes. Then the changed data is preserved in any
   * case, and the restore completes if and only if the backup survives the deletion of the data: the data
   * equals the backup, and the lease is the same object. A backup inside the data leaves no file but the lease.
   */
  method RestoreLocked(
      data: Disk, backup: Files, place: Place, preserved: Disk, m: Manifest, expected: Digest<Manifest>, lockFree: bool)
    returns (ok: bool)
    requires WellFormed(data.files) && WellFormed(backup) && LiesAt(backup, place, data.files)
    requires data != preserved  // an absent path is no data
    modifies data, preserved
    ensures ok <==> old(MayRestore(data, backup, place, preserved, m, expected, lockFree)
                        && Survives(data.files, backup, place))
    ensures !old(MayRestore(data, backup, place, preserved, m, expected, lockFree)) ==>
              data.files == old(data.files) && preserved.files == old(preserved.files)
    ensures old(MayRestore(data, backup, place, preserved, m, expected, lockFree)) ==>
              && Same(preserved.files, old(data.files))
              && LOCK in data.files && data.files[LOCK] == old(data.files)[LOCK]
              && (place.Inside? && old(LockAlone(data.files)) ==> NoFileBut(data.files, Kept(true)))
    ensures ok ==> Same(data.files, backup)
  {
    hide WellFormed, WithinLimits, IsInventory, DescribesBackup, Same, Survives, LiesAt;
    var at := Setting(data.parent == preserved.parent, place, lockFree);
    var checks := CheckRestore(data.files, backup, preserved.files, m, expected, at);
    if checks.None? {
      return false;
    }
    ok := Replace(data, backup, place, preserved, checks.value.0, checks.value.1);
  }
}
