/** A data tree: its canonical inventory, and the copy that follows the inventory, wherever the two trees lie. */
module Tree {
  import opened Text
  import opened Sorting

  const MAX_DEPTH: nat := 6
  const MAX_ENTRIES: nat := 8192
  const MAX_FILE: nat := 64 * 1024 * 1024
  const MAX_TOTAL: nat := 16 * 1024 * 1024 * 1024
  const LOCK := "vault.lock"

  /** SHA-256, as the injective function it is taken to be. */
  datatype Digest<T> = Sha256(preimage: T)

  /** A file system object; the inode tells objects with equal content apart. */
  datatype Node = Directory(inode: nat) | File(inode: nat, content: string)

  /** Objects under a root, by relative path; the root itself is the empty path. */
  type Files = map<string, Node>

  datatype Entry = Entry(path: string, bytes: nat, sha256: Option<Digest<string>>)

  // ---------------------------------------------------------------- paths

  function Parent(p: string): (r: string)
    requires p != ""
    ensures |r| < |p| && r <= p
  {
    if '/' in p then ParentPart(p) else ""
  }

  /** Everything in front of the last separator. */
  function ParentPart(p: string): (r: string)
    requires '/' in p
    ensures |r| < |p| && r <= p
  {
    if p[|p| - 1] == '/' then p[..|p| - 1] else ParentPart(p[..|p| - 1])
  }

  function Depth(p: string): nat
    decreases |p|
  {
    if p == "" then 0 else 1 + Depth(Parent(p))
  }

  /** The text in front of the last separator, and a name without one behind it. */
  lemma {:induction false} ParentIs(p: string)
    requires p != ""
    ensures if '/' in p then exists name :: '/' !in name && p == Parent(p) + ("/" + name) else Parent(p) == ""
    decreases |p|
  {
    if '/' in p {
      var last := p[|p| - 1];
      assert p == p[..|p| - 1] + [last];
      if last == '/' {
        assert '/' !in "" && p == Parent(p) + ("/" + "");
      } else {
        ParentIs(p[..|p| - 1]);
        var name :| '/' !in name && p[..|p| - 1] == Parent(p[..|p| - 1]) + ("/" + name);
        assert p == Parent(p) + ("/" + (name + [last])) && '/' !in name + [last];
      }
    }
  }

  function Separators(p: string): nat {
    if p == "" then 0 else Separators(p[..|p| - 1]) + if p[|p| - 1] == '/' then 1 else 0
  }

  /** A path is one level deeper than it has separators. */
  lemma {:induction false} DepthIs(p: string)
    requires p != "" && (forall i :: 0 <= i < |p| && p[i] == '/' ==> i > 0 && p[i - 1] != '/') && p[|p| - 1] != '/'
    ensures Depth(p) == Separators(p) + 1
    decreases |p|
  {
    if '/' in p {
      PathParent(p);
      DepthIs(Parent(p));
    } else {
      NoSeparators(p);
    }
  }

  lemma {:induction false} NoSeparators(p: string)
    requires '/' !in p
    ensures Separators(p) == 0
  {
    if p != "" { NoSeparators(p[..|p| - 1]); }
  }

  lemma {:induction false} PathParent(p: string)
    requires '/' in p && p[0] != '/'
    ensures var q := Parent(p); q != "" && p[|q|] == '/' && Separators(p) == Separators(q) + 1 && q <= p
    decreases |p|
  {
    var front := p[..|p| - 1];
    if p[|p| - 1] != '/' {
      assert '/' in front;
      PathParent(front);
    }
  }

  /** `p` is `r` or lies below it. */
  predicate Within(r: string, p: string)
    decreases |p|
  {
    p == r || (p != "" && Within(r, Parent(p)))
  }

  /** Every object but the root lies in a directory of the tree. */
  ghost predicate WellFormed(t: Files) {
    && "" in t && t[""].Directory?
    && forall p :: p in t && p != "" ==> Parent(p) in t && t[Parent(p)].Directory?
  }

  function Children(t: Files, r: string): set<string> { set p | p in t && p != "" && Parent(p) == r }

  function Subtree(t: Files, r: string): set<string> { set p | p in t && Within(r, p) }

  lemma {:induction false} WithinDepth(r: string, p: string)
    requires Within(r, p)
    ensures Depth(r) <= Depth(p) && (Depth(r) == Depth(p) ==> r == p)
    decreases |p|
  {
    if p != r { WithinDepth(r, Parent(p)); }
  }

  lemma {:induction false} AncestorUnique(a: string, b: string, p: string)
    requires Within(a, p) && Within(b, p) && Depth(a) == Depth(b)
    ensures a == b
    decreases |p|
  {
    WithinDepth(a, p);
    WithinDepth(b, p);
    if p != a && p != b { AncestorUnique(a, b, Parent(p)); }
  }

  lemma {:induction false} WithinChild(t: Files, r: string, p: string)
    requires WellFormed(t) && p in t && p != r && Within(r, p)
    ensures exists c :: c in Children(t, r) && Within(c, p)
    decreases |p|
  {
    if Parent(p) == r {
      assert p in Children(t, r) && Within(p, p);
    } else {
      WithinChild(t, r, Parent(p));
    }
  }

  lemma {:induction false} WithinTransitive(a: string, b: string, p: string)
    requires Within(a, b) && Within(b, p)
    ensures Within(a, p)
    decreases |p|
  {
    if p != b { WithinTransitive(a, b, Parent(p)); }
  }

  lemma {:induction false} WithinRoot(p: string)
    ensures Within("", p)
    decreases |p|
  {
    if p != "" { WithinRoot(Parent(p)); }
  }

  /** A subtree is its root and the disjoint subtrees of its children. */
  lemma SubtreeParts(t: Files, r: string)
    requires WellFormed(t) && r in t
    ensures forall p :: p in Subtree(t, r) <==> p == r || exists c :: c in Children(t, r) && p in Subtree(t, c)
    ensures forall c :: c in Children(t, r) ==> r !in Subtree(t, c)
    ensures forall c, d :: c in Children(t, r) && d in Children(t, r) && c != d ==> Subtree(t, c) !! Subtree(t, d)
  {
    forall p | p in Subtree(t, r) && p != r ensures exists c :: c in Children(t, r) && p in Subtree(t, c) {
      WithinChild(t, r, p);
    }
    forall c | c in Children(t, r) ensures r !in Subtree(t, c) {
      if Within(c, r) { WithinDepth(c, r); }
    }
    forall c, p | c in Children(t, r) && p in Subtree(t, c) ensures p in Subtree(t, r) && p != r {
      assert Within(r, Parent(c)) && Within(r, c);
      WithinTransitive(r, c, p);
      WithinDepth(c, p);
    }
    forall c, d | c in Children(t, r) && d in Children(t, r) && c != d ensures Subtree(t, c) !! Subtree(t, d) {
      forall p | p in Subtree(t, c) && p in Subtree(t, d) ensures false { AncestorUnique(c, d, p); }
    }
  }

  // ---------------------------------------------------------------- what an inventory says

  function Size(n: Node): nat { if n.File? then |n.content| else 0 }

  function EntryOf(t: Files, p: string): Entry
    requires p in t
  {
    Entry(p, Size(t[p]), if t[p].File? then Some(Sha256(t[p].content)) else None)
  }

  function Paths(es: seq<Entry>): (r: seq<string>)
    ensures |r| == |es| && forall i :: 0 <= i < |es| ==> r[i] == es[i].path
  {
    seq(|es|, i requires 0 <= i < |es| => es[i].path)
  }

  lemma PathsAppend(es: seq<Entry>, e: Entry)
    ensures Paths(es + [e]) == Paths(es) + [e.path]
    ensures Elements(Paths(es + [e])) == Elements(Paths(es)) + {e.path}
  {
  }

  lemma PathListed(es: seq<Entry>, e: Entry)
    requires e in es
    ensures e.path in Elements(Paths(es))
  {
    var i :| 0 <= i < |es| && es[i] == e;
    assert Paths(es)[i] == e.path;
  }

  ghost predicate Describes(t: Files, es: seq<Entry>) {
    forall e :: e in es ==> e.path in t && e == EntryOf(t, e.path)
  }

  /** One entry for every object, sorted by path. */
  ghost predicate IsInventory(t: Files, es: seq<Entry>) {
    SortedList(Paths(es), t.Keys) && Describes(t, es)
  }

  /** Equal apart from inodes. */
  ghost predicate Same(t: Files, u: Files) {
    t.Keys == u.Keys && forall p :: p in t ==> SameNode(t[p], u[p])
  }

  predicate SameNode(a: Node, b: Node) {
    a.Directory? == b.Directory? && (a.File? && b.File? ==> a.content == b.content)
  }

  /** Inventories are equal exactly when the trees are, apart from inodes. */
  lemma InventoryExact(t: Files, u: Files, a: seq<Entry>, b: seq<Entry>)
    requires IsInventory(t, a) && IsInventory(u, b)
    ensures a == b <==> Same(t, u)
  {
    if a == b {
      forall p | p in t ensures p in u && SameNode(t[p], u[p]) {
        assert p in Paths(a);
        var i :| 0 <= i < |a| && Paths(a)[i] == p;
        assert a[i] in a && a[i] in b;
        assert EntryOf(t, p) == EntryOf(u, p);
      }
      assert t.Keys == Elements(Paths(a)) == u.Keys;
    }
    if Same(t, u) {
      SortedUnique(Paths(a), Paths(b), t.Keys);
      assert |a| == |Paths(a)| == |Paths(b)| == |b|;
      forall i | 0 <= i < |a| ensures a[i] == b[i] {
        assert a[i] in a && b[i] in b;
        assert a[i].path == Paths(a)[i] == Paths(b)[i] == b[i].path;
        assert SameNode(t[a[i].path], u[a[i].path]);
      }
    }
  }

  // ---------------------------------------------------------------- inventory

  function InsertEntry(e: Entry, es: seq<Entry>): seq<Entry> {
    if es == [] || Less(e.path, es[0].path) then [e] + es else [es[0]] + InsertEntry(e, es[1..])
  }

  /** sorted(entries, key=path) */
  function SortEntries(es: seq<Entry>): seq<Entry> {
    if es == [] then [] else InsertEntry(es[0], SortEntries(es[1..]))
  }

  lemma {:induction false} InsertEntryPaths(e: Entry, es: seq<Entry>)
    ensures Paths(InsertEntry(e, es)) == Insert(e.path, Paths(es))
    ensures forall x :: x in InsertEntry(e, es) <==> x == e || x in es
  {
    if es != [] && !Less(e.path, es[0].path) {
      InsertEntryPaths(e, es[1..]);
      assert es == [es[0]] + es[1..];
      assert Paths(es)[1..] == Paths(es[1..]);
    }
  }

  lemma {:induction false} SortEntriesPaths(es: seq<Entry>)
    ensures Paths(SortEntries(es)) == Sort(Paths(es))
    ensures forall x :: x in SortEntries(es) <==> x in es
  {
    if es != [] {
      SortEntriesPaths(es[1..]);
      InsertEntryPaths(es[0], SortEntries(es[1..]));
      assert es == [es[0]] + es[1..];
      assert Paths(es)[1..] == Paths(es[1..]);
    }
  }

  ghost function Bytes(t: Files, s: set<string>): nat
    requires s <= t.Keys
  {
    if s == {} then 0 else var p :| p in s; Size(t[p]) + Bytes(t, s - {p})
  }

  lemma {:induction false} BytesRemove(t: Files, s: set<string>, p: string)
    requires s <= t.Keys && p in s
    ensures Bytes(t, s) == Size(t[p]) + Bytes(t, s - {p})
    decreases s
  {
    var q :| q in s && Bytes(t, s) == Size(t[q]) + Bytes(t, s - {q});
    if p != q {
      BytesRemove(t, s - {q}, p);
      BytesRemove(t, s - {p}, q);
      assert s - {q} - {p} == s - {p} - {q};
    }
  }

  lemma {:induction false} BytesUnion(t: Files, a: set<string>, b: set<string>)
    requires a <= t.Keys && b <= t.Keys && a !! b
    ensures Bytes(t, a + b) == Bytes(t, a) + Bytes(t, b)
    decreases b
  {
    if b == {} {
      assert a + b == a;
    } else {
      var p :| p in b;
      BytesRemove(t, a + b, p);
      BytesRemove(t, b, p);
      BytesUnion(t, a, b - {p});
      assert a + b - {p} == a + (b - {p});
    }
  }

  lemma BytesMonotone(t: Files, a: set<string>, b: set<string>)
    requires a <= b <= t.Keys
    ensures Bytes(t, a) <= Bytes(t, b) && |a| <= |b|
  {
    assert b == a + (b - a);
    BytesUnion(t, a, b - a);
  }

  ghost predicate NodeWithinLimits(t: Files, p: string)
    requires p in t
  {
    Depth(p) <= MAX_DEPTH && Size(t[p]) <= MAX_FILE
  }

  /** The trees that can be inventoried at all. */
  ghost predicate WithinLimits(t: Files) {
    && |t| <= MAX_ENTRIES && Bytes(t, t.Keys) <= MAX_TOTAL
    && forall p {:trigger NodeWithinLimits(t, p)} :: p in t ==> NodeWithinLimits(t, p)
  }

  /** The walk has recorded exactly the paths of `s`, each once and within the limits. */
  ghost predicate IsRecord(t: Files, es: seq<Entry>, total: nat, s: set<string>) {
    && s <= t.Keys
    && Elements(Paths(es)) == s && |es| == |s| <= MAX_ENTRIES
    && (forall i, j :: 0 <= i < j < |es| ==> es[i].path != es[j].path)
    && Describes(t, es)
    && total == Bytes(t, s) <= MAX_TOTAL
    && forall p {:trigger NodeWithinLimits(t, p)} :: p in s ==> NodeWithinLimits(t, p)
  }

  lemma RecordOne(t: Files, es: seq<Entry>, total: nat, s: set<string>, p: string)
    requires IsRecord(t, es, total, s) && p in t && p !in s
    requires NodeWithinLimits(t, p) && |es| < MAX_ENTRIES && total + Size(t[p]) <= MAX_TOTAL
    ensures IsRecord(t, es + [EntryOf(t, p)], total + Size(t[p]), s + {p})
  {
    assert (s + {p}) - {p} == s;
    BytesRemove(t, s + {p}, p);
    PathsAppend(es, EntryOf(t, p));
    forall i | 0 <= i < |es| ensures es[i].path != p { PathListed(es, es[i]); }
    assert |s + {p}| == |s| + 1;
  }

  lemma RecordRefused(t: Files, es: seq<Entry>, total: nat, s: set<string>, p: string)
    requires IsRecord(t, es, total, s) && p in t && p !in s
    requires !NodeWithinLimits(t, p) || |es| >= MAX_ENTRIES || total + Size(t[p]) > MAX_TOTAL
    ensures !WithinLimits(t)
  {
    assert (s + {p}) - {p} == s;
    BytesRemove(t, s + {p}, p);
    BytesMonotone(t, s + {p}, t.Keys);
    assert |s + {p}| == |s| + 1;
    assert |t| == |t.Keys|;
  }

  /** The entries and the running total that the nested walk shares. */
  class Walker {
    const tree: Files
    var entries: seq<Entry>
    var total: nat

    constructor (tree: Files)
      ensures this.tree == tree && entries == [] && total == 0
    {
      this.tree := tree;
      entries, total := [], 0;
    }

    ghost predicate Recorded(s: set<string>)
      reads this
    {
      IsRecord(tree, entries, total, s)
    }

    method Record(p: string, ghost s: set<string>) returns (ok: bool)
      requires p in tree && p !in s && Recorded(s)
      modifies this
      ensures ok ==> Recorded(s + {p})
      ensures !ok ==> !WithinLimits(tree)
    {
      if Depth(p) > MAX_DEPTH || |entries| >= MAX_ENTRIES || Size(tree[p]) > MAX_FILE
         || total + Size(tree[p]) > MAX_TOTAL {
        RecordRefused(tree, entries, total, s, p);
        return false;
      }
      RecordOne(tree, entries, total, s, p);
      entries := entries + [EntryOf(tree, p)];
      total := total + Size(tree[p]);
      ok := true;
    }

    /** Appends the whole subtree, or refuses because the tree exceeds a limit. */
    method Walk(relative: string, ghost s: set<string>) returns (ok: bool)
      requires WellFormed(tree) && relative in tree
      requires Recorded(s) && s !! Subtree(tree, relative)
      modifies this
      ensures ok ==> Recorded(s + Subtree(tree, relative))
      ensures !ok ==> !WithinLimits(tree)
      decreases MAX_DEPTH + 1 - Depth(relative)
    {
      ok := Record(relative, s);
      if !ok {
        return;
      }
      assert NodeWithinLimits(tree, relative);
      var kids := SortedChildren(relative);
      ghost var done := s + {relative};
      CoveredStart(s, relative, kids);
      for i := 0 to |kids|
        invariant Recorded(done) && Covered(done, s, relative, kids[..i])
      {
        assert kids[i] in Children(tree, relative);
        CoveredStep(done, s, relative, kids, i);
        ok := Walk(kids[i], done);
        if !ok {
          return;
        }
        done := done + Subtree(tree, kids[i]);
      }
      assert kids[..|kids|] == kids;
      CoveredEnd(done, s, relative, kids);
      ok := true;
    }

    /** `done` is `s`, the directory itself and the subtrees of the children visited so far. */
    ghost predicate Covered(done: set<string>, s: set<string>, r: string, kids: seq<string>) {
      forall p :: p in done <==> p in s || p == r || exists c :: c in kids && p in Subtree(tree, c)
    }

    lemma CoveredStart(s: set<string>, r: string, kids: seq<string>)
      ensures Covered(s + {r}, s, r, kids[..0])
    {
    }

    lemma CoveredStep(done: set<string>, s: set<string>, r: string, kids: seq<string>, i: nat)
      requires WellFormed(tree) && r in tree && s !! Subtree(tree, r)
      requires i < |kids| && Elements(kids) == Children(tree, r)
      requires forall j, k :: 0 <= j < k < |kids| ==> kids[j] != kids[k]
      requires Covered(done, s, r, kids[..i])
      ensures done !! Subtree(tree, kids[i]) && Depth(kids[i]) == Depth(r) + 1
      ensures Covered(done + Subtree(tree, kids[i]), s, r, kids[..i + 1])
    {
      hide Within, Parent;
      SubtreeParts(tree, r);
      assert kids[i] in Elements(kids);
      assert kids[..i + 1] == kids[..i] + [kids[i]];
      forall p | p in done ensures p !in Subtree(tree, kids[i]) {
        if c :| c in kids[..i] && p in Subtree(tree, c) {
          assert c in Elements(kids) && c != kids[i];
        }
      }
    }

    lemma CoveredEnd(done: set<string>, s: set<string>, r: string, kids: seq<string>)
      requires WellFormed(tree) && r in tree
      requires Elements(kids) == Children(tree, r) && Covered(done, s, r, kids)
      ensures done == s + Subtree(tree, r)
    {
      SubtreeParts(tree, r);
      forall p ensures p in done <==> p in s + Subtree(tree, r) {
        assert forall c :: c in kids <==> c in Children(tree, r);
      }
    }

    /** sorted(os.listdir(path)) */
    method SortedChildren(relative: string) returns (kids: seq<string>)
      ensures SortedList(kids, Children(tree, relative))
      ensures forall i, j :: 0 <= i < j < |kids| ==> kids[i] != kids[j]
    {
      var rest, names := Children(tree, relative), [];
      while rest != {}
        invariant rest <= Children(tree, relative)
        invariant Elements(names) == Children(tree, relative) - rest
        invariant forall i, j :: 0 <= i < j < |names| ==> names[i] != names[j]
      {
        var c :| c in rest;
        assert c !in names;
        names := names + [c];
        rest := rest - {c};
      }
      SortSorts(names);
      kids := Sort(names);
      SortedDistinct(kids, Children(tree, relative));
    }
  }

  /** The sorted inventory of every object, exactly for the trees within the limits. */
  method Inventory(t: Files) returns (r: Result<seq<Entry>>)
    requires WellFormed(t)
    ensures r.Ok? <==> WithinLimits(t)
    ensures r.Ok? ==> IsInventory(t, r.value)
  {
    var walker := new Walker(t);
    var ok := walker.Walk("", {});
    if !ok {
      return Error;
    }
    forall p ensures p in t <==> p in Subtree(t, "") { WithinRoot(p); }
    assert {} + Subtree(t, "") == t.Keys;
    SortEntriesPaths(walker.entries);
    SortSorts(Paths(walker.entries));
    r := Ok(SortEntries(walker.entries));
  }

  // ---------------------------------------------------------------- copy and restore

  /** The paths that a copy leaves to the lease holder. */
  function Kept(preserveLease: bool): set<string> { if preserveLease then {"", LOCK} else {} }

  /** Every parent sorts before what it holds, so it has been listed already. */
  lemma ParentListedFirst(t: Files, es: seq<Entry>, i: nat)
    requires WellFormed(t) && IsInventory(t, es) && i < |es| && es[i].path != ""
    ensures Parent(es[i].path) in Elements(Paths(es[..i]))
  {
    var p := es[i].path;
    assert es[i] in es && p in t;
    PrefixLess(Parent(p), p);
    LessIsListed(t, es, i, Parent(p));
  }

  /** The destination so far: what was kept is untouched, what was listed is copied to new objects. */
  ghost predicate Copied(source: Files, listed: set<string>, kept: set<string>, before: Files, first: nat, now: Files) {
    && now.Keys == kept + listed
    && (forall p :: p in kept ==> p in before && now[p] == before[p])
    && (forall p :: p in now && p !in kept ==> p in source && SameNode(now[p], source[p]) && now[p].inode >= first)
  }

  /** Where a copied tree lies: apart from its destination, inside it, or around it, at a path below the outer one. */
  datatype Place = Apart | Inside(at: string) | Around(at: string)

  function Joined(at: string, p: string): string {
    if p == "" then at else if at == "" then p else at + "/" + p
  }

  /** `inner` is what `outer` holds at a path: the same objects. */
  ghost predicate PartOf(inner: Files, outer: Files, at: string) {
    forall p :: (p in inner <==> Joined(at, p) in outer) && (p in inner ==> inner[p] == outer[Joined(at, p)])
  }

  ghost predicate LiesAt(source: Files, place: Place, destination: Files) {
    match place
    case Apart => true
    case Inside(at) => PartOf(source, destination, at)
    case Around(at) => PartOf(destination, source, at)
  }

  /** The two paths differ. */
  predicate Elsewhere(place: Place) { place.Apart? || place.at != "" }

  predicate Below(at: string, p: string) { at + "/" <= p && |p| > |at| + 1 }

  /** The path of `p` relative to `at`. */
  function Rest(at: string, p: string): (r: string)
    requires Below(at, p)
    ensures r != "" && (at != "" ==> Joined(at, r) == p)
  {
    p[|at| + 1..]
  }

  function Content(t: Files, p: string): Option<string> {
    if p in t && t[p].File? then Some(t[p].content) else None
  }

  /** What opening `p` below the source reads, once the destination holds `now`. */
  function Opened(source: Files, place: Place, now: Files, p: string): Option<string> {
    match place
    case Apart => Content(source, p)
    case Inside(at) => Content(now, Joined(at, p))
    case Around(at) => if Below(at, p) then Content(now, Rest(at, p)) else Content(source, p)
  }

  /** In time and with the same content, the copy itself has made the object that it will read as `p`. */
  ghost predicate MadeBefore(source: Files, at: string, kept: set<string>, p: string)
    requires p in source && Below(at, p)
  {
    var r := Rest(at, p);
    r in source && SameNode(source[r], source[p]) && (r in kept || Less(r, p))
  }

  /** A copy into a destination that holds no more than what is kept finds every file of the source. */
  ghost predicate Readable(source: Files, place: Place, kept: set<string>) {
    match place
    case Apart => true
    case Inside(_) => forall p :: p in source && source[p].File? ==> p in kept
    case Around(at) =>
      forall p :: p in source && source[p].File? && p !in kept && Below(at, p) ==> MadeBefore(source, at, kept, p)
  }

  /** What a complete copy needs: an empty destination, or only the kept root and lease file in it. */
  ghost predicate Copyable(source: Files, es: seq<Entry>, kept: set<string>, destination: Files) {
    && WellFormed(source) && IsInventory(source, es)
    && destination.Keys == kept <= source.Keys
    && (forall p :: p in kept ==> SameNode(destination[p], source[p]))
  }

  /** A directory on disk. */
  class Disk {
    const parent: string
    var files: Files
    var nextInode: nat

    constructor (parent: string, files: Files)
      ensures this.parent == parent && this.files == files && nextInode == 0
    {
      this.parent := parent;
      this.files := files;
      nextInode := 0;
    }

    /** mkdir, or open with O_CREAT and O_EXCL: only a new name in an existing directory. */
    method Make(path: string, content: Option<string>) returns (ok: bool)
      modifies this
      ensures ok <==>
              path !in old(files) && (path == "" || (Parent(path) in old(files) && old(files)[Parent(path)].Directory?))
      ensures ok ==> nextInode == old(nextInode) + 1 && files == old(files)[path := NewNode(content, old(nextInode))]
      ensures !ok ==> files == old(files) && nextInode == old(nextInode)
    {
      if path in files || (path != "" && (Parent(path) !in files || !files[Parent(path)].Directory?)) {
        return false;
      }
      files := files[path := NewNode(content, nextInode)];
      nextInode := nextInode + 1;
      ok := true;
    }

    static function NewNode(content: Option<string>, inode: nat): Node {
      if content.Some? then File(inode, content.value) else Directory(inode)
    }

    /** One round of copy_entries, for a file with the content that opening it has read. */
    method CopyEntry(read: Option<string>, e: Entry) returns (ok: bool)
      modifies this
      ensures ok ==>
              e.path in files && files == old(files)[e.path := files[e.path]] && files[e.path].inode == old(nextInode)
      ensures ok ==> nextInode == old(nextInode) + 1
      ensures !ok ==> files == old(files)
      ensures old(WellFormed(files)) ==> WellFormed(files)
      ensures ok ==> if e.sha256.None? then files[e.path].Directory?
                     else files[e.path].File? && read == Some(files[e.path].content)
      ensures ok <==> (e.sha256.Some? ==> read.Some?) && e.path !in old(files)
                      && (e.path == "" || (Parent(e.path) in old(files) && old(files)[Parent(e.path)].Directory?))
    {
      if e.sha256.None? {
        ok := Make(e.path, None);
      } else if read.Some? {
        ok := Make(e.path, read);
      } else {
        ok := false;
      }
    }

    /**
     * copy_entries: creates the listed objects in list order and copies the file contents, each as it is
     * when its turn comes. It overwrites nothing, and it reproduces the source exactly when that stays readable.
     */
    method CopyEntries(source: Files, place: Place, es: seq<Entry>, preserveLease: bool) returns (ok: bool)
      requires Elsewhere(place)
      modifies this
      ensures old(WellFormed(files)) ==> WellFormed(files)
      ensures forall p :: p in old(files) ==> p in files && files[p] == old(files)[p]
      ensures ok ==> forall e :: e in es && e.path !in Kept(preserveLease) ==> e.path !in old(files)
      ensures old(Copyable(source, es, Kept(preserveLease), files)) ==>
                && (ok && Same(source, files) <==> Readable(source, place, Kept(preserveLease)))
                && (place.Inside? ==> NoFileBut(files, Kept(preserveLease)))
    {
      hide Copied, Traced, WellFormed, Parent, Same, Listed, Readable, Opened, Elsewhere;
      ghost var kept, before, first := Kept(preserveLease), files, nextInode;
      ghost var copyable := Copyable(source, es, kept, files);
      ghost var readable := Readable(source, place, kept);
      if copyable {
        CopyStart(source, es, kept, before, first);
        TraceStart(source, place, es, kept, before);
      }
      for i := 0 to |es|
        invariant nextInode >= first && (WellFormed(before) ==> WellFormed(files))
        invariant forall p :: p in before ==> p in files && files[p] == before[p]
        invariant forall j :: 0 <= j < i && es[j].path !in kept ==> es[j].path !in before
        invariant copyable ==> Traced(place, es, i, kept, files)
        invariant copyable && readable ==> Copied(source, Listed(es, i), kept, before, first, files)
      {
        ghost var now := files;
        if copyable {
          CopyReady(source, es, i, kept, before);
          TraceKept(place, es, i, kept, now);
          if readable {
            CopyFits(source, Listed(es, i), kept, before, first, now, es[i].path);
            OpensSource(source, place, es, i, kept, before, first, now);
          }
        }
        if es[i].path !in Kept(preserveLease) {
          ok := CopyEntry(Opened(source, place, files, es[i].path), es[i]);
          if !ok {
            if copyable { TraceInside(place, es, i, kept, files); }
            return;
          }
          if copyable {
            TraceMade(source, place, es, i, kept, now, files[es[i].path]);
            if readable { CopyMade(source, Listed(es, i), kept, before, first, now, es[i].path, files[es[i].path]); }
          }
        }
      }
      ok := true;
      if copyable {
        TraceInside(place, es, |es|, kept, files);
        if readable { CopyDone(source, es, kept, before, first, files); }
        if Same(source, files) { TraceDone(source, place, es, kept, files); }
      }
    }

    /** shutil.rmtree or unlink of one child of the root. */
    method Delete(child: string)
      modifies this
      ensures files == old(map p | p in files && !Within(child, p) :: files[p]) && nextInode == old(nextInode)
    {
      files := map p | p in files && !Within(child, p) :: files[p];
    }

    /** Removes every child of the root but the lease file. */
    method DeleteAllButLock()
      modifies this
      ensures files == old(map p | p in files && OutsideOthers(files, p) :: files[p]) && nextInode == old(nextInode)
    {
      var rest := Children(files, "") - {LOCK};
      ghost var before := files;
      while rest != {}
        invariant rest <= Children(before, "") - {LOCK} && nextInode == old(nextInode)
        invariant files == map p | p in before
                  && (forall c :: c in Children(before, "") - {LOCK} - rest ==> !Within(c, p)) :: before[p]
      {
        var c :| c in rest;
        ghost var done := Children(before, "") - {LOCK} - rest;
        Delete(c);
        rest := rest - {c};
        assert Children(before, "") - {LOCK} - rest == done + {c};
      }
      assert Children(before, "") - {LOCK} - {} == Children(before, "") - {LOCK};
    }
  }

  /** Below no child of the root other than the lease file. */
  predicate OutsideOthers(t: Files, p: string) { forall c :: c in Children(t, "") - {LOCK} ==> !Within(c, p) }

  /** The paths of the first `i` entries. */
  ghost function Listed(es: seq<Entry>, i: nat): set<string>
    requires i <= |es|
  {
    Elements(Paths(es[..i]))
  }

  ghost predicate NoFileBut(t: Files, kept: set<string>) { forall p :: p in t && t[p].File? ==> p in kept }

  /** Where the content of a copied file came from. */
  ghost predicate DrawnFrom(place: Place, kept: set<string>, now: Files, p: string)
    requires p in now
  {
    match place
    case Apart => true
    case Inside(_) => false
    case Around(at) =>
      Below(at, p) ==>
        var r := Rest(at, p);
        r in now && SameNode(now[r], now[p]) && (r in kept || Less(r, p))
  }

  /** The destination so far, with no regard to whether the source has stayed as it was. */
  ghost predicate Traced(place: Place, es: seq<Entry>, i: nat, kept: set<string>, now: Files) {
    && i <= |es| && now.Keys == kept + Listed(es, i)
    && (forall p :: p in now && p !in kept && now[p].File? ==> DrawnFrom(place, kept, now, p))
    && (place.Inside? ==> NoFileBut(now, kept))
  }

  lemma TraceStart(source: Files, place: Place, es: seq<Entry>, kept: set<string>, before: Files)
    requires Copyable(source, es, kept, before)
    ensures Traced(place, es, 0, kept, before)
  {
  }

  lemma TraceInside(place: Place, es: seq<Entry>, i: nat, kept: set<string>, now: Files)
    requires Traced(place, es, i, kept, now)
    ensures place.Inside? ==> NoFileBut(now, kept)
  {
  }

  lemma TraceKept(place: Place, es: seq<Entry>, i: nat, kept: set<string>, now: Files)
    requires Traced(place, es, i, kept, now) && i < |es| && Listed(es, i + 1) == Listed(es, i) + {es[i].path}
    ensures es[i].path in kept ==> Traced(place, es, i + 1, kept, now)
  {
    hide DrawnFrom, Listed;
    if es[i].path in kept { assert kept + (Listed(es, i) + {es[i].path}) == kept + Listed(es, i); }
  }

  lemma TraceMade(source: Files, place: Place, es: seq<Entry>, i: nat, kept: set<string>, now: Files, n: Node)
    requires IsInventory(source, es) && (kept == {} || kept == {"", LOCK}) && Elsewhere(place)
    requires Traced(place, es, i, kept, now) && i < |es| && Listed(es, i + 1) == Listed(es, i) + {es[i].path}
    requires es[i].path !in now
    requires n.File? ==> Opened(source, place, now, es[i].path) == Some(n.content)
    ensures Traced(place, es, i + 1, kept, now[es[i].path := n])
  {
    var p := es[i].path;
    var next := now[p := n];
    if n.File? { FileDrawn(source, place, es, i, kept, now, n); }
    forall q | q in next && q !in kept && next[q].File? ensures DrawnFrom(place, kept, next, q) {
      if q != p { assert DrawnFrom(place, kept, now, q); }
    }
    assert next.Keys == now.Keys + {p};
  }

  /** A file is read from what was kept or listed before; from inside the destination there is nothing to read. */
  lemma FileDrawn(source: Files, place: Place, es: seq<Entry>, i: nat, kept: set<string>, now: Files, n: Node)
    requires IsInventory(source, es) && (kept == {} || kept == {"", LOCK}) && Elsewhere(place)
    requires Traced(place, es, i, kept, now) && i < |es| && es[i].path !in now
    requires n.File? && Opened(source, place, now, es[i].path) == Some(n.content)
    ensures !place.Inside? && DrawnFrom(place, kept, now[es[i].path := n], es[i].path)
  {
    hide IsInventory, Listed, Less, Joined;
    var p := es[i].path;
    if place.Inside? {
      InsideIsDeeper(place.at, p);
    }
    if place.Around? && Below(place.at, p) {
      var r := Rest(place.at, p);
      if r !in kept { ListedIsLess(source, es, i, r); }
      assert SameNode(now[p := n][r], n);
    }
  }

  lemma InsideIsDeeper(at: string, p: string)
    requires at != "" && p != ""
    ensures Joined(at, p) !in {"", LOCK}
  {
    assert Joined(at, p)[|at|] == '/' && '/' !in LOCK;
  }

  lemma ListedIsLess(source: Files, es: seq<Entry>, i: nat, r: string)
    requires IsInventory(source, es) && i < |es| && r in Listed(es, i)
    ensures Less(r, es[i].path)
  {
    var j :| 0 <= j < i && Paths(es[..i])[j] == r;
    assert Ordered(Paths(es), j, i);
  }

  lemma LessIsListed(source: Files, es: seq<Entry>, i: nat, r: string)
    requires IsInventory(source, es) && i < |es| && r in source && Less(r, es[i].path)
    ensures r in Listed(es, i)
  {
    hide Less;
    assert r in Elements(Paths(es));
    var j :| 0 <= j < |es| && Paths(es)[j] == r;
    LessOrder();
    assert Ordered(Paths(es), i, j);
    PathListed(es[..i], es[..i][j]);
  }

  /** A copy that has reproduced the source found all its files. */
  lemma TraceDone(source: Files, place: Place, es: seq<Entry>, kept: set<string>, now: Files)
    requires IsInventory(source, es) && Traced(place, es, |es|, kept, now) && Same(source, now)
    ensures Readable(source, place, kept)
  {
    hide IsInventory, Listed;
    forall p | p in source && source[p].File? && p !in kept
      ensures !place.Inside? && (place.Around? && Below(place.at, p) ==> MadeBefore(source, place.at, kept, p))
    {
      assert DrawnFrom(place, kept, now, p);
      if place.Around? && Below(place.at, p) {
        var r := Rest(place.at, p);
        assert SameNode(source[r], now[r]) && SameNode(source[p], now[p]);
      }
    }
  }

  /** As long as the copy is right, a readable source reads as it was. */
  lemma OpensSource(source: Files, place: Place, es: seq<Entry>, i: nat, kept: set<string>, before: Files, first: nat,
                    now: Files)
    requires Copyable(source, es, kept, before) && Readable(source, place, kept) && i < |es|
    requires Copied(source, Listed(es, i), kept, before, first, now)
    requires es[i].path in source && es[i] == EntryOf(source, es[i].path)
    ensures es[i].path !in kept && es[i].sha256.Some? ==>
              Opened(source, place, now, es[i].path) == Some(source[es[i].path].content)
  {
    var p := es[i].path;
    if p !in kept && source[p].File? && place.Around? && Below(place.at, p) {
      var r := Rest(place.at, p);
      assert MadeBefore(source, place.at, kept, p);
      if r !in kept { LessIsListed(source, es, i, r); }
      assert SameNode(now[r], source[r]);
    }
  }

  /** Before the step: the name is new, and its parent has been made or kept. */
  lemma CopyReady(source: Files, es: seq<Entry>, i: nat, kept: set<string>, before: Files)
    requires Copyable(source, es, kept, before) && i < |es|
    ensures es[i].path in source && es[i] == EntryOf(source, es[i].path)
    ensures es[i].path !in Listed(es, i) && Listed(es, i + 1) == Listed(es, i) + {es[i].path}
    ensures es[i].path != "" ==> Parent(es[i].path) in Listed(es, i) && source[Parent(es[i].path)].Directory?
    ensures forall p :: p in kept ==> p in source && p in before && SameNode(before[p], source[p])
  {
    assert es[i] in es;
    assert es[..i + 1] == es[..i] + [es[i]];
    PathsAppend(es[..i], es[i]);
    NotListedBefore(source, es, i);
    if es[i].path != "" {
      ParentListedFirst(source, es, i);
    }
  }

  lemma CopyStart(source: Files, es: seq<Entry>, kept: set<string>, before: Files, first: nat)
    requires Copyable(source, es, kept, before)
    ensures Copied(source, Listed(es, 0), kept, before, first, before)
  {
  }

  lemma CopyFits(source: Files, listed: set<string>, kept: set<string>, before: Files, first: nat, now: Files,
                 p: string)
    requires Copied(source, listed, kept, before, first, now) && p in source && p !in listed
    requires forall k :: k in kept ==> k in source && k in before && SameNode(before[k], source[k])
    requires p != "" ==> Parent(p) in listed && source[Parent(p)].Directory?
    ensures p !in kept ==> p !in now && (p == "" || (Parent(p) in now && now[Parent(p)].Directory?))
    ensures p in kept ==> Copied(source, listed + {p}, kept, before, first, now)
  {
    assert p != "" ==> SameNode(now[Parent(p)], source[Parent(p)]);
    if p in kept { assert kept + (listed + {p}) == kept + listed; }
  }

  lemma CopyMade(source: Files, listed: set<string>, kept: set<string>, before: Files, first: nat, now: Files,
                 p: string, n: Node)
    requires Copied(source, listed, kept, before, first, now) && p in source && p !in kept
    requires SameNode(n, source[p]) && n.inode >= first
    ensures Copied(source, listed + {p}, kept, before, first, now[p := n])
  {
  }

  lemma CopyDone(source: Files, es: seq<Entry>, kept: set<string>, before: Files, first: nat, now: Files)
    requires Copyable(source, es, kept, before) && Copied(source, Listed(es, |es|), kept, before, first, now)
    ensures Same(source, now) && forall p :: p in kept ==> p in now && now[p] == before[p]
  {
    assert es[..|es|] == es;
  }

  lemma NotListedBefore(source: Files, es: seq<Entry>, i: nat)
    requires IsInventory(source, es) && i < |es|
    ensures es[i].path !in Elements(Paths(es[..i]))
  {
    LessOrder();
    forall j | 0 <= j < i ensures Paths(es[..i])[j] != es[i].path {
      assert Ordered(Paths(es), j, i);
    }
  }

  lemma LockTreeWellFormed(t: Files)
    requires WellFormed(t)
    ensures WellFormed(map p | p in t && OutsideOthers(t, p) :: t[p])
  {
    var u := map p | p in t && OutsideOthers(t, p) :: t[p];
    forall c | c in Children(t, "") - {LOCK} ensures !Within(c, "") {}
    forall p | p in u && p != "" ensures Parent(p) in u {
      forall c | c in Children(t, "") - {LOCK} ensures !Within(c, Parent(p)) { assert !Within(c, p); }
    }
  }

  /** Nothing lies below the lease: true of every lease that is a file. */
  ghost predicate LockAlone(t: Files) { forall p :: p in t && Within(LOCK, p) ==> p == LOCK }

  lemma FileIsAlone(t: Files)
    requires WellFormed(t) && LOCK in t && t[LOCK].File?
    ensures LockAlone(t)
  {
    forall p | p in t && Within(LOCK, p) ensures p == LOCK {
      if p != LOCK { NothingBelowFile(t, LOCK, p); }
    }
  }

  /** What lies below the lease survives the deletion. */
  lemma LockTreeStays(t: Files, p: string)
    requires WellFormed(t) && p in t && Within(LOCK, p)
    ensures OutsideOthers(t, p)
  {
    assert Parent(LOCK) == "" by { assert '/' !in LOCK; }
    forall c | c in Children(t, "") - {LOCK} ensures !Within(c, p) {
      assert Depth(LOCK) == 1 + Depth("") == Depth(c);
      if Within(c, p) { AncestorUnique(c, LOCK, p); }
    }
  }

  /** If nothing lies below the lease, the deletion leaves it and the root. */
  lemma LockTreeIsKept(t: Files)
    requires WellFormed(t) && LOCK in t && LockAlone(t)
    ensures (map p | p in t && OutsideOthers(t, p) :: t[p]).Keys == Kept(true)
  {
    assert Parent(LOCK) == "" by { assert '/' !in LOCK; }
    forall p | p in t && p != "" && OutsideOthers(t, p) ensures p == LOCK {
      WithinRoot(p);
      WithinChild(t, "", p);
      var c :| c in Children(t, "") && Within(c, p);
      assert c == LOCK;
    }
    assert OutsideOthers(t, "");
    forall c | c in Children(t, "") - {LOCK} ensures !Within(c, LOCK) {
      assert Depth(LOCK) == 1 + Depth("") == Depth(c);
      if Within(c, LOCK) { WithinDepth(c, LOCK); }
    }
  }

  lemma {:induction false} NothingBelowFile(t: Files, f: string, p: string)
    requires WellFormed(t) && f in t && t[f].File? && p in t && p != f
    ensures !Within(f, p)
    decreases |p|
  {
    if p != "" && Parent(p) != f { NothingBelowFile(t, f, Parent(p)); }
  }

  lemma SameSymmetric(t: Files, u: Files)
    requires Same(t, u)
    ensures Same(u, t)
  {
  }

  lemma SameWellFormed(t: Files, u: Files)
    requires WellFormed(t) && Same(t, u)
    ensures WellFormed(u)
  {
    forall p | p in u && p != "" ensures Parent(p) in u && u[Parent(p)].Directory? {
      assert SameNode(t[Parent(p)], u[Parent(p)]);
    }
  }

  lemma SameLimits(t: Files, u: Files)
    requires Same(t, u)
    ensures WithinLimits(t) ==> WithinLimits(u)
  {
    SameBytes(t, u, t.Keys);
    forall p | p in u && WithinLimits(t) ensures NodeWithinLimits(u, p) {
      assert NodeWithinLimits(t, p) && SameNode(t[p], u[p]);
    }
    assert |t| == |t.Keys| && |u| == |u.Keys|;
  }

  lemma {:induction false} SameBytes(t: Files, u: Files, s: set<string>)
    requires Same(t, u) && s <= t.Keys
    ensures Bytes(t, s) == Bytes(u, s)
    decreases s
  {
    if s != {} {
      var p :| p in s;
      BytesRemove(t, s, p);
      BytesRemove(u, s, p);
      SameBytes(t, u, s - {p});
      assert SameNode(t[p], u[p]);
    }
  }
}
