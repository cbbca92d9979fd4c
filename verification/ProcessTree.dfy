/** The process tree that a timed-out native command owns, and the signals that stop it. */
module ProcessTree {
  import opened Text
  import opened Reachability

  /** A line of `ps -axo pid=,ppid=,pgid=`. */
  datatype Row = Row(pid: int, parent: int, group: int)

  datatype Target = Group(leader: int) | Process(pid: int)

  ghost predicate Child(rows: seq<Row>, parent: int, pid: int) {
    exists i :: 0 <= i < |rows| && rows[i].parent == parent && rows[i].pid == pid
  }

  ghost function Children(rows: seq<Row>): (int, int) -> bool { (a, b) => Child(rows, a, b) }

  /** The child itself and everything that descends from it in the snapshot. */
  ghost predicate Descends(rows: seq<Row>, child: int, pid: int) { Reaches(Children(rows), child, pid) }

  function Pids(rows: seq<Row>): set<int> { set row | row in rows :: row.pid }

  ghost predicate Absorbed(rows: seq<Row>, n: int, owned: set<int>)
    requires 0 <= n <= |rows|
  {
    forall i :: 0 <= i < n && rows[i].parent in owned ==> rows[i].pid in owned
  }

  lemma SameSize<T>(a: set<T>, b: set<T>)
    requires a <= b && |a| == |b|
    ensures a == b
  {
    assert |b - a| == |b| - |a|;
  }

  lemma SmallerSize<T>(a: set<T>, b: set<T>)
    requires a <= b
    ensures |a| <= |b|
  {
    assert |b - a| == |b| - |a|;
  }

  /** One pass over the snapshot, in row order. */
  method Sweep(rows: seq<Row>, child: int, before: set<int>) returns (owned: set<int>)
    requires before <= Pids(rows) + {child}
    requires forall p :: p in before ==> Descends(rows, child, p)
    ensures before <= owned <= Pids(rows) + {child}
    ensures forall p :: p in owned ==> Descends(rows, child, p)
    ensures owned == before ==> Absorbed(rows, |rows|, owned)
  {
    owned := before;
    for i := 0 to |rows|
      invariant before <= owned <= Pids(rows) + {child}
      invariant forall p :: p in owned ==> Descends(rows, child, p)
      invariant owned == before ==> Absorbed(rows, i, owned)
    {
      var row := rows[i];
      if row.parent in owned {
        assert Child(rows, row.parent, row.pid);
        ReachesStep(Children(rows), child, row.parent, row.pid);
        owned := owned + {row.pid};
      }
    }
  }

  /** The loop that repeats the pass until the set stops growing finds exactly the descendants. */
  method Owned(rows: seq<Row>, child: int) returns (owned: set<int>)
    ensures forall p :: p in owned <==> Descends(rows, child, p)
  {
    ReachesSelf(Children(rows), child);
    owned := {child};
    var previous := -1;
    ghost var all := Pids(rows) + {child};
    while previous != |owned|
      invariant child in owned && owned <= all
      invariant forall p :: p in owned ==> Descends(rows, child, p)
      invariant previous <= |owned|
      invariant previous == |owned| ==> Absorbed(rows, |rows|, owned)
      decreases |all| - previous
    {
      ghost var before := owned;
      previous := |owned|;
      SmallerSize(owned, all);
      owned := Sweep(rows, child, owned);
      SmallerSize(before, owned);
      if previous == |owned| { SameSize(before, owned); }
    }
    assert Closed(Children(rows), owned);
    ClosureExact(Children(rows), owned, child);
  }

  /** The row that `find` yields for a process. */
  ghost predicate FirstRow(rows: seq<Row>, pid: int, i: int) {
    0 <= i < |rows| && rows[i].pid == pid && forall j :: 0 <= j < i ==> rows[j].pid != pid
  }

  /**
   * The timeout branch. It refuses unless the snapshot still shows the running child as a group
   * leader started by this process. Otherwise every descendant is signalled, through its group when
   * that group's leader is a descendant and directly when not, and nothing else is named.
   */
  method Targets(rows: seq<Row>, child: int, self: int, exited: bool) returns (r: Result<seq<Target>>)
    ensures r.Ok? <==> !exited && exists i :: FirstRow(rows, child, i) && rows[i] == Row(child, self, child)
    ensures r.Ok? ==> forall row :: row in rows && Descends(rows, child, row.pid) ==>
              Group(row.group) in r.value || Process(row.pid) in r.value
    ensures r.Ok? ==> forall g :: Group(g) in r.value ==>
              Descends(rows, child, g) && exists row :: row in rows && row.group == g && Descends(rows, child, row.pid)
    ensures r.Ok? ==> forall p :: Process(p) in r.value ==>
              Descends(rows, child, p) && exists row :: row in rows && row.pid == p && !Descends(rows, child, row.group)
    ensures r.Ok? ==> forall i, j :: 0 <= i < j < |r.value| && r.value[i].Group? ==> r.value[i] != r.value[j]
  {
    var owner := FindRow(rows, child);
    if exited || owner.None? || owner.value.parent != self || owner.value.group != child {
      return Error;
    }
    var owned := Owned(rows, child);
    var groups, leaders := Leaders(rows, owned);
    var direct := Directs(rows, owned, groups);
    EachGroupOnce(leaders, direct);
    r := Ok(leaders + direct);
  }

  lemma EachGroupOnce(leaders: seq<Target>, direct: seq<Target>)
    requires forall i, j :: 0 <= i < j < |leaders| ==> leaders[i] != leaders[j]
    requires forall t :: t in direct ==> t.Process?
    ensures var all := leaders + direct;
            forall i, j :: 0 <= i < j < |all| && all[i].Group? ==> all[i] != all[j]
  {
    var all := leaders + direct;
    forall k | |leaders| <= k < |all| ensures all[k].Process? { assert all[k] in direct; }
  }

  /** The groups to signal: those with a member and their leader among the owned processes, each once. */
  method Leaders(rows: seq<Row>, owned: set<int>) returns (groups: set<int>, leaders: seq<Target>)
    ensures forall g :: g in groups <==> g in owned && exists row :: row in rows && row.group == g && row.pid in owned
    ensures forall t :: t in leaders <==> t.Group? && t.leader in groups
    ensures forall k, j :: 0 <= k < j < |leaders| ==> leaders[k] != leaders[j]
  {
    groups, leaders := {}, [];
    for i := 0 to |rows|
      invariant forall g :: g in groups <==>
        exists j :: 0 <= j < i && rows[j].group == g && rows[j].pid in owned && g in owned
      invariant forall t :: t in leaders <==> t.Group? && t.leader in groups
      invariant forall k, j :: 0 <= k < j < |leaders| ==> leaders[k] != leaders[j]
    {
      if rows[i].pid in owned && rows[i].group in owned && rows[i].group !in groups {
        groups := groups + {rows[i].group};
        leaders := leaders + [Group(rows[i].group)];
      }
    }
  }

  /** The owned processes of no such group, in snapshot order. */
  method Directs(rows: seq<Row>, owned: set<int>, groups: set<int>) returns (direct: seq<Target>)
    ensures forall t :: t in direct <==>
              t.Process? && exists row :: row in rows && row.pid == t.pid && t.pid in owned && row.group !in groups
  {
    direct := [];
    for i := 0 to |rows|
      invariant forall t :: t in direct <==>
        t.Process? && exists j :: 0 <= j < i && rows[j].pid == t.pid && rows[j].pid in owned && rows[j].group !in groups
    {
      if rows[i].pid in owned && rows[i].group !in groups {
        direct := direct + [Process(rows[i].pid)];
      }
    }
  }

  method FindRow(rows: seq<Row>, pid: int) returns (found: Option<Row>)
    ensures found.Some? ==> exists i :: FirstRow(rows, pid, i) && rows[i] == found.value
    ensures found.None? ==> forall row :: row in rows ==> row.pid != pid
  {
    for i := 0 to |rows|
      invariant forall j :: 0 <= j < i ==> rows[j].pid != pid
    {
      if rows[i].pid == pid {
        assert FirstRow(rows, pid, i);
        return Some(rows[i]);
      }
    }
    found := None;
  }
}
