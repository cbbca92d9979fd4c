/** npm audit: which findings of a cyclic vulnerability graph are covered by reviewed patches. */
module Audit {
  import opened Text
  import opened Reachability
  import opened Sorting

  const BACKPORTED_ADVISORY := "https://github.com/advisories/GHSA-86w9-cpqp-85rv"

  datatype Severity = Info | Low | Moderate | High | Critical

  /** The index in SEVERITIES. */
  function Rank(s: Severity): nat {
    match s case Info => 0 case Low => 1 case Moderate => 2 case High => 3 case Critical => 4
  }

  lemma SeveritiesAscend()
    ensures Rank(Info) < Rank(Low) < Rank(Moderate) < Rank(High) < Rank(Critical)
  {
  }

  datatype Advisory = Advisory(dependency: string, name: string, range: string, severity: Severity, url: string)

  datatype Cause = Package(name: string) | Concrete(advisory: Advisory)

  datatype Finding = Finding(name: string, nodes: seq<string>, severity: Severity, via: seq<Cause>)

  type Graph = map<string, Finding>

  /** The typed report: the findings in the order of the JSON object, and npm's own counts. */
  datatype Report = Report(order: seq<string>, findings: Graph, counts: map<Severity, int>, total: int)

  datatype Execution = Execution(failed: bool, status: Option<int>)

  /** A verified patch; an empty advisory URL marks a behavior correction. */
  datatype VerifiedPatch = VerifiedPatch(name: string, advisoryUrl: string, paths: seq<string>)

  datatype Specification = Specification(name: string, version: string, advisoryUrl: string)

  datatype Outcome = Outcome(affected: nat, backported: seq<string>, remaining: seq<string>, other: seq<string>)

  /** What parsing a JSON object into findings guarantees: one entry per name, in some order. */
  ghost predicate Parsed(report: Report) {
    && (forall i, j :: 0 <= i < j < |report.order| ==> report.order[i] != report.order[j])
    && Elements(report.order) == report.findings.Keys
    && (forall n :: n in report.findings ==> report.findings[n].name == n)
  }

  // ---------------------------------------------------------------- reachability

  /** The packages an item names as causes. */
  function Packages(item: Finding): set<string> { Names(item.via) }

  function Names(via: seq<Cause>): set<string> { set c | c in via && c.Package? :: c.name }

  /** One step along a package cause; members of `stop` are not expanded. */
  ghost predicate Edge(m: Graph, stop: set<string>, a: string, b: string) {
    a in m && a !in stop && b in Packages(m[a])
  }

  ghost function Edges(m: Graph, stop: set<string>): (string, string) -> bool {
    (a, b) => Edge(m, stop, a, b)
  }

  // ---------------------------------------------------------------- the worklist

  /** `visited` is explored, `pending` is still to be: together they hold only what is reached. */
  ghost predicate Explored(m: Graph, stop: set<string>, start: string, visited: set<string>, pending: set<string>) {
    && start in visited + pending
    && (forall k :: k in visited + pending ==> Reaches(Edges(m, stop), start, k))
    && (forall a, b :: a in visited && Edge(m, stop, a, b) ==> b in visited + pending)
  }

  lemma ExploreStart(m: Graph, stop: set<string>, start: string)
    ensures Explored(m, stop, start, {}, {start})
  {
    ReachesSelf(Edges(m, stop), start);
  }

  lemma ExploreOne(m: Graph, stop: set<string>, start: string, visited: set<string>, pending: set<string>,
                   name: string, rest: set<string>)
    requires Explored(m, stop, start, visited, pending) && name in pending && name in m
    requires pending - {name} + (if name in stop then {} else Packages(m[name])) <= rest + visited + {name}
    requires rest <= pending + (if name in stop then {} else Packages(m[name]))
    ensures Explored(m, stop, start, visited + {name}, rest)
  {
    forall k | k in rest ensures Reaches(Edges(m, stop), start, k) {
      if k !in pending { ReachesStep(Edges(m, stop), start, name, k); }
    }
  }

  /** With nothing pending, exactly the reached packages have been visited. */
  lemma ExploreDone(m: Graph, stop: set<string>, start: string, visited: set<string>)
    requires Explored(m, stop, start, visited, {})
    ensures forall k :: Reaches(Edges(m, stop), start, k) <==> k in visited
  {
    ClosureExact(Edges(m, stop), visited, start);
  }

  /** The inner loop of both worklists: push the package causes, note a concrete one. */
  method PushCauses(pending: seq<string>, via: seq<Cause>) returns (pushed: seq<string>, concrete: bool)
    ensures Elements(pushed) == Elements(pending) + Names(via)
    ensures concrete <==> exists c :: c in via && c.Concrete?
  {
    pushed, concrete := pending, false;
    for i := 0 to |via|
      invariant Elements(pushed) == Elements(pending) + Names(via[..i])
      invariant concrete <==> exists c :: c in via[..i] && c.Concrete?
    {
      assert via[..i + 1] == via[..i] + [via[i]];
      assert forall c :: c in via[..i + 1] <==> c in via[..i] || c == via[i];
      match via[i]
      case Package(k) =>
        pushed := pushed + [k];
        assert Names(via[..i + 1]) == Names(via[..i]) + {k};
      case Concrete(_) =>
        concrete := true;
        assert Names(via[..i + 1]) == Names(via[..i]) && via[i] in via[..i + 1];
    }
    assert via[..|via|] == via;
  }

  // ---------------------------------------------------------------- validateGraph

  ghost predicate CauseOk(m: Graph, item: Finding, cause: Cause) {
    match cause
    case Package(k) => k in m && Rank(m[k].severity) <= Rank(item.severity)
    case Concrete(a) => Rank(a.severity) <= Rank(item.severity)
  }

  ghost predicate HasAdvisory(item: Finding) { exists c :: c in item.via && c.Concrete? }

  /** Some concrete advisory lies behind `n`, through cycles or not. */
  ghost predicate Grounded(m: Graph, n: string) {
    exists b :: Reaches(Edges(m, {}), n, b) && b in m && HasAdvisory(m[b])
  }

  ghost predicate CausesOk(m: Graph, n: string)
    requires n in m
  {
    forall c :: c in m[n].via ==> CauseOk(m, m[n], c)
  }

  ghost predicate ValidAt(m: Graph, n: string) { n in m && CausesOk(m, n) && Grounded(m, n) }

  ghost predicate ValidGraph(m: Graph) {
    forall n {:trigger ValidAt(m, n)} :: n in m ==> ValidAt(m, n)
  }

  ghost predicate Dangling(m: Graph) { exists n, k :: n in m && k in Packages(m[n]) && k !in m }

  /** The worklist that looks for a concrete advisory; `None` when it meets a missing package. */
  method FindGround(m: Graph, start: string) returns (grounded: Option<bool>)
    requires start in m
    ensures grounded.None? ==> Dangling(m)
    ensures grounded.Some? ==> (grounded.value <==> Grounded(m, start))
  {
    var pending, visited, found := [start], {}, false;
    ExploreStart(m, {}, start);
    while pending != []
      invariant visited <= m.Keys
      invariant Explored(m, {}, start, visited, Elements(pending))
      invariant Elements(pending) <= m.Keys || Dangling(m)
      invariant found <==> exists k :: k in visited && HasAdvisory(m[k])
      decreases m.Keys - visited, |pending|
    {
      var name, rest := pending[|pending| - 1], pending[..|pending| - 1];
      assert pending == rest + [name];
      ghost var before := Elements(pending);
      assert before == Elements(rest) + {name};
      pending := rest;
      if name in visited { continue; }
      if name !in m {
        return None;
      }
      var concrete: bool;
      pending, concrete := PushCauses(rest, m[name].via);
      ExploreOne(m, {}, start, visited, before, name, Elements(pending));
      assert HasAdvisory(m[name]) <==> concrete;
      visited, found := visited + {name}, found || concrete;
    }
    ExploreDone(m, {}, start, visited);
    grounded := Some(found);
  }

  lemma DanglingInvalid(m: Graph)
    requires Dangling(m)
    ensures !ValidGraph(m)
  {
    var n, k :| n in m && k in Packages(m[n]) && k !in m;
    assert !CauseOk(m, m[n], Package(k)) && !ValidAt(m, n);
  }

  lemma AllValid(report: Report)
    requires Parsed(report) && forall j :: 0 <= j < |report.order| ==> ValidAt(report.findings, report.order[j])
    ensures ValidGraph(report.findings)
  {
    hide ValidAt;
    forall n | n in report.findings ensures ValidAt(report.findings, n) { assert n in Elements(report.order); }
  }

  lemma NotValidAt(m: Graph, n: string)
    requires n in m && !ValidAt(m, n)
    ensures !ValidGraph(m)
  {
  }

  /** The inner loop over the causes of one finding. */
  method CheckCauses(m: Graph, item: Finding) returns (ok: bool)
    ensures ok <==> forall c :: c in item.via ==> CauseOk(m, item, c)
  {
    for j := 0 to |item.via|
      invariant forall k :: 0 <= k < j ==> CauseOk(m, item, item.via[k])
    {
      var cause := item.via[j];
      var severity := match cause
        case Package(k) => if k in m then Some(m[k].severity) else None
        case Concrete(a) => Some(a.severity);
      if severity.None? || Rank(severity.value) > Rank(item.severity) {
        assert cause in item.via && !CauseOk(m, item, cause);
        return false;
      }
    }
    ok := true;
  }

  /** Accepts exactly the graphs whose causes exist, are not understated and end in an advisory. */
  method ValidateGraph(report: Report) returns (ok: bool)
    requires Parsed(report)
    ensures ok <==> ValidGraph(report.findings)
  {
    hide ValidGraph, Grounded, CauseOk;
    var m := report.findings;
    for i := 0 to |report.order|
      invariant forall j :: 0 <= j < i ==> ValidAt(m, report.order[j])
    {
      var name := report.order[i];
      assert name in m.Keys;
      var known := CheckCauses(m, m[name]);
      if !known {
        NotValidAt(m, name);
        return false;
      }
      assert CausesOk(m, name);
      var grounded := FindGround(m, name);
      if grounded != Some(true) {
        if grounded.None? { DanglingInvalid(m); } else { NotValidAt(m, name); }
        return false;
      }
    }
    AllValid(report);
    ok := true;
  }

  // ---------------------------------------------------------------- onlyVerifiedCauses

  /**
   * Everything reached from `name` without expanding a root is high, and whatever is not itself
   * a root has no concrete advisory of its own.
   */
  ghost predicate OnlyVerifiedCauses(m: Graph, roots: set<string>, name: string) {
    forall n :: Reaches(Edges(m, roots), name, n) ==> LocallyVerified(m, roots, n)
  }

  ghost predicate LocallyVerified(m: Graph, roots: set<string>, n: string) {
    n in m && m[n].severity == High && (n in roots || !HasAdvisory(m[n]))
  }

  /** The worklist decides exactly that, on cyclic graphs too. */
  method CheckOnlyVerifiedCauses(m: Graph, roots: set<string>, name: string) returns (verified: bool)
    requires ValidGraph(m) && name in m
    ensures verified <==> OnlyVerifiedCauses(m, roots, name)
  {
    var pending, visited := [name], {};
    ExploreStart(m, roots, name);
    while pending != []
      invariant visited <= m.Keys && Elements(pending) <= m.Keys
      invariant Explored(m, roots, name, visited, Elements(pending))
      invariant forall k :: k in visited ==> LocallyVerified(m, roots, k)
      decreases m.Keys - visited, |pending|
    {
      var current, rest := pending[|pending| - 1], pending[..|pending| - 1];
      assert pending == rest + [current];
      ghost var before := Elements(pending);
      assert before == Elements(rest) + {current};
      pending := rest;
      if current in visited { continue; }
      var item := m[current];
      if item.severity != High {
        assert !LocallyVerified(m, roots, current);
        return false;
      }
      if current !in roots {
        var concrete: bool;
        pending, concrete := PushCauses(rest, item.via);
        if concrete {
          assert !LocallyVerified(m, roots, current);
          return false;
        }
        PackagesPresent(m, current);
      }
      ExploreOne(m, roots, name, visited, before, current, Elements(pending));
      visited := visited + {current};
    }
    ExploreDone(m, roots, name, visited);
    verified := true;
  }

  lemma PackagesPresent(m: Graph, n: string)
    requires ValidGraph(m) && n in m
    ensures Packages(m[n]) <= m.Keys
  {
    forall k | k in Packages(m[n]) ensures k in m {
      assert ValidAt(m, n) && CauseOk(m, m[n], Package(k));
    }
  }

  // ---------------------------------------------------------------- what is exempt

  predicate IsBackportedAdvisory(a: Advisory) {
    && a.url == BACKPORTED_ADVISORY
    && a.name == "node-forge" && a.dependency == "node-forge"
    && a.range == "<=1.4.0" && a.severity == High
  }

  predicate ForgeBackported(m: Graph, forgePaths: seq<string>) {
    && "node-forge" in m
    && var forge := m["node-forge"];
    && forge.severity == High
    && (forall i :: 0 <= i < |forge.nodes| ==> forge.nodes[i] in forgePaths)
    && (forall i :: 0 <= i < |forge.via| ==> forge.via[i].Concrete? && IsBackportedAdvisory(forge.via[i].advisory))
  }

  /** BUILD_DEPENDENCY_PATCHES.find */
  function FindSpecification(reviewed: seq<Specification>, p: VerifiedPatch): (r: Option<Specification>)
    ensures r.Some? ==> r.value in reviewed && r.value.name == p.name && r.value.advisoryUrl == p.advisoryUrl
  {
    if reviewed == [] then None
    else if reviewed[0].name == p.name && reviewed[0].advisoryUrl == p.advisoryUrl then Some(reviewed[0])
    else FindSpecification(reviewed[1..], p)
  }

  /** The one advisory a reviewed patch answers. */
  predicate IsPatchedAdvisory(a: Advisory, s: Specification) {
    && a.url == s.advisoryUrl && a.name == s.name && a.dependency == s.name
    && a.severity == High && a.range == "<=" + s.version
  }

  /** The patch covers every installed copy and every cause of its package. */
  predicate PatchCovers(m: Graph, reviewed: seq<Specification>, p: VerifiedPatch) {
    && p.advisoryUrl != ""
    && var s := FindSpecification(reviewed, p);
    && s.Some? && p.name in m
    && var item := m[p.name];
    && item.severity == High
    && (forall i :: 0 <= i < |item.nodes| ==> item.nodes[i] in p.paths)
    && (forall i :: 0 <= i < |item.via| ==> item.via[i].Concrete? && IsPatchedAdvisory(item.via[i].advisory, s.value))
  }

  function Roots(m: Graph, reviewed: seq<Specification>, patches: set<VerifiedPatch>): set<string> {
    set p | p in patches && PatchCovers(m, reviewed, p) :: p.name
  }

  /** Exempted next to node-forge itself: the one known dependent of it. */
  predicate ForgeExempt(m: Graph, forgePaths: seq<string>, n: string)
    requires n in m
  {
    && ForgeBackported(m, forgePaths)
    && m[n].severity == High
    && (n == "node-forge" ||
        (n == "jks-js"
         && (forall i :: 0 <= i < |m[n].nodes| ==> m[n].nodes[i] == "node_modules/jks-js")
         && (forall i :: 0 <= i < |m[n].via| ==> m[n].via[i] == Package("node-forge"))))
  }

  ghost predicate Exempt(m: Graph, reviewed: seq<Specification>, forgePaths: seq<string>, patches: set<VerifiedPatch>,
                         n: string)
    requires n in m
  {
    || ForgeExempt(m, forgePaths, n)
    || n in Roots(m, reviewed, patches)
    || OnlyVerifiedCauses(m, Roots(m, reviewed, patches), n)
  }

  datatype Verdict = Backported | Remaining | Other

  ghost function VerdictOf(m: Graph, reviewed: seq<Specification>, forgePaths: seq<string>,
                           patches: set<VerifiedPatch>, n: string): Verdict
    requires n in m
  {
    if Exempt(m, reviewed, forgePaths, patches, n) then Backported
    else if Rank(m[n].severity) >= Rank(High) then Remaining
    else Other
  }

  /** The findings among `names` that get verdict `v`. */
  ghost function Group(m: Graph, reviewed: seq<Specification>, forgePaths: seq<string>, patches: set<VerifiedPatch>,
                       names: set<string>, v: Verdict): set<string>
  {
    set n | n in names && n in m && VerdictOf(m, reviewed, forgePaths, patches, n) == v
  }

  /** The three lists, as sets that depend on nothing but the graph and the verified patches. */
  ghost predicate IsOutcome(m: Graph, reviewed: seq<Specification>, forgePaths: seq<string>,
                            patches: set<VerifiedPatch>, o: Outcome) {
    && o.affected == |m|
    && SortedList(o.backported, Group(m, reviewed, forgePaths, patches, m.Keys, Backported))
    && SortedList(o.remaining, Group(m, reviewed, forgePaths, patches, m.Keys, Remaining))
    && SortedList(o.other, Group(m, reviewed, forgePaths, patches, m.Keys, Other))
  }

  // ---------------------------------------------------------------- evaluateDependencyAudit

  ghost function CountAt(m: Graph, s: Severity): nat { |set n | n in m && m[n].severity == s| }

  ghost predicate CountsMatch(report: Report) {
    && (forall s: Severity :: s in report.counts && report.counts[s] == CountAt(report.findings, s))
    && report.total == |report.findings|
  }

  /** The reports that are evaluated at all. */
  ghost predicate Acceptable(execution: Execution, report: Report) {
    && !execution.failed
    && CountsMatch(report)
    && execution.status == Some(
         if exists n :: n in report.findings && Rank(report.findings[n].severity) >= 3 then 1 else 0)
    && ValidGraph(report.findings)
  }

  ghost function Among(m: Graph, names: set<string>, s: Severity): set<string> {
    set n | n in names && n in m && m[n].severity == s
  }

  method CountSeverity(report: Report, s: Severity) returns (count: nat)
    requires Parsed(report)
    ensures count == CountAt(report.findings, s)
  {
    var m := report.findings;
    count := 0;
    for i := 0 to |report.order|
      invariant count == |Among(m, Elements(report.order[..i]), s)|
    {
      var n := report.order[i];
      OrderStep(report, i);
      AmongStep(m, Elements(report.order[..i]), s, n);
      if m[n].severity == s {
        count := count + 1;
      }
    }
    assert report.order[..|report.order|] == report.order;
    assert Among(m, m.Keys, s) == set n | n in m && m[n].severity == s;
  }

  lemma AmongStep(m: Graph, names: set<string>, s: Severity, n: string)
    requires n in m && n !in names
    ensures |Among(m, names + {n}, s)| == |Among(m, names, s)| + if m[n].severity == s then 1 else 0
  {
    assert n !in Among(m, names, s);
    if m[n].severity == s {
      assert Among(m, names + {n}, s) == Among(m, names, s) + {n};
    } else {
      assert Among(m, names + {n}, s) == Among(m, names, s);
    }
  }

  /** The next name of the report is a new one. */
  lemma OrderStep(report: Report, i: nat)
    requires Parsed(report) && i < |report.order|
    ensures report.order[i] in report.findings && report.order[i] !in Elements(report.order[..i])
    ensures Elements(report.order[..i + 1]) == Elements(report.order[..i]) + {report.order[i]}
  {
    assert report.order[i] in Elements(report.order);
    assert report.order[..i + 1] == report.order[..i] + [report.order[i]];
  }

  method CheckCounts(report: Report) returns (ok: bool)
    requires Parsed(report)
    ensures ok <==> CountsMatch(report)
  {
    var levels := [Info, Low, Moderate, High, Critical];
    for i := 0 to |levels|
      invariant forall j :: 0 <= j < i ==>
        levels[j] in report.counts && report.counts[levels[j]] == CountAt(report.findings, levels[j])
    {
      var expected := CountSeverity(report, levels[i]);
      if levels[i] !in report.counts || report.counts[levels[i]] != expected {
        return false;
      }
    }
    forall s: Severity ensures s in report.counts && report.counts[s] == CountAt(report.findings, s) {
      assert s == levels[Rank(s)];
    }
    ok := report.total == |report.findings|;
  }

  method HasHighOrCritical(report: Report) returns (found: bool)
    requires Parsed(report)
    ensures found <==> exists n :: n in report.findings && Rank(report.findings[n].severity) >= 3
  {
    for i := 0 to |report.order|
      invariant forall j :: 0 <= j < i ==>
        report.order[j] in report.findings && Rank(report.findings[report.order[j]].severity) < 3
    {
      assert report.order[i] in report.findings.Keys;
      if Rank(report.findings[report.order[i]].severity) >= 3 {
        return true;
      }
    }
    forall n | n in report.findings ensures Rank(report.findings[n].severity) < 3 {
      assert n in report.order;
    }
    found := false;
  }

  /** The packages that a verified patch covers outright. */
  method Mitigate(m: Graph, reviewed: seq<Specification>, patches: seq<VerifiedPatch>) returns (mitigated: set<string>)
    ensures mitigated == Roots(m, reviewed, Elements(patches))
  {
    mitigated := {};
    for i := 0 to |patches|
      invariant mitigated == Roots(m, reviewed, Elements(patches[..i]))
    {
      assert Elements(patches[..i + 1]) == Elements(patches[..i]) + {patches[i]};
      if PatchCovers(m, reviewed, patches[i]) {
        mitigated := mitigated + {patches[i].name};
      }
    }
    assert patches[..|patches|] == patches;
  }

  /** The second pass: dependents whose every cause is verified join the patched packages. */
  method Extend(report: Report, roots: set<string>) returns (mitigated: set<string>)
    requires Parsed(report) && ValidGraph(report.findings)
    ensures forall n :: n in mitigated <==>
            n in roots || (n in report.findings && OnlyVerifiedCauses(report.findings, roots, n))
  {
    var m := report.findings;
    mitigated := roots;
    for i := 0 to |report.order|
      invariant forall n :: n in mitigated <==>
        n in roots || (n in Elements(report.order[..i]) && OnlyVerifiedCauses(m, roots, n))
    {
      OrderStep(report, i);
      var verified := CheckOnlyVerifiedCauses(m, roots, report.order[i]);
      if verified {
        mitigated := mitigated + {report.order[i]};
      }
    }
    assert report.order[..|report.order|] == report.order;
  }

  ghost predicate Collected(l: seq<string>, s: set<string>) {
    Elements(l) == s && Distinct(l)
  }

  lemma CollectOne(l: seq<string>, s: set<string>, n: string)
    requires Collected(l, s) && n !in s
    ensures Collected(l + [n], s + {n})
  {
    assert n !in l;
  }

  lemma NothingCollected(m: Graph, reviewed: seq<Specification>, forgePaths: seq<string>, patches: set<VerifiedPatch>,
                         order: seq<string>)
    ensures forall v: Verdict :: Collected([], Group(m, reviewed, forgePaths, patches, Elements(order[..0]), v))
  {
  }

  lemma SortCollected(l: seq<string>, s: set<string>)
    requires Collected(l, s)
    ensures SortedList(Sort(l), s)
  {
    SortSorts(l);
  }

  /** The branches of the last loop give every finding its verdict. */
  lemma VerdictIs(m: Graph, reviewed: seq<Specification>, forgePaths: seq<string>, patches: set<VerifiedPatch>,
                  mitigated: set<string>, n: string)
    requires n in m
    requires var roots := Roots(m, reviewed, patches);
             n in mitigated <==> n in roots || OnlyVerifiedCauses(m, roots, n)
    ensures VerdictOf(m, reviewed, forgePaths, patches, n) ==
            if ForgeExempt(m, forgePaths, n) || n in mitigated then Backported
            else if Rank(m[n].severity) >= Rank(High) then Remaining
            else Other
  {
    hide ForgeExempt, OnlyVerifiedCauses, Roots;
  }

  method Classify(report: Report, reviewed: seq<Specification>, forgePaths: seq<string>, patches: seq<VerifiedPatch>)
    returns (o: Outcome)
    requires Parsed(report) && ValidGraph(report.findings)
    ensures IsOutcome(report.findings, reviewed, forgePaths, Elements(patches), o)
  {
    hide ForgeExempt, OnlyVerifiedCauses, Roots, VerdictOf, Group, ValidGraph, Collected, SortedList;
    var m, order := report.findings, report.order;
    ghost var all := Elements(patches);
    var roots := Mitigate(m, reviewed, patches);
    var mitigated := Extend(report, roots);
    var backported, remaining, other := [], [], [];
    NothingCollected(m, reviewed, forgePaths, all, order);
    for i := 0 to |order|
      invariant Collected(backported, Group(m, reviewed, forgePaths, all, Elements(order[..i]), Backported))
      invariant Collected(remaining, Group(m, reviewed, forgePaths, all, Elements(order[..i]), Remaining))
      invariant Collected(other, Group(m, reviewed, forgePaths, all, Elements(order[..i]), Other))
    {
      var n := order[i];
      OrderStep(report, i);
      ghost var before := Elements(order[..i]);
      GroupStep(m, reviewed, forgePaths, all, before, n);
      VerdictIs(m, reviewed, forgePaths, all, mitigated, n);
      if ForgeExempt(m, forgePaths, n) || n in mitigated {
        CollectOne(backported, Group(m, reviewed, forgePaths, all, before, Backported), n);
        backported := backported + [n];
      } else if Rank(m[n].severity) >= Rank(High) {
        CollectOne(remaining, Group(m, reviewed, forgePaths, all, before, Remaining), n);
        remaining := remaining + [n];
      } else {
        CollectOne(other, Group(m, reviewed, forgePaths, all, before, Other), n);
        other := other + [n];
      }
    }
    assert order[..|order|] == order;
    SortCollected(backported, Group(m, reviewed, forgePaths, all, m.Keys, Backported));
    SortCollected(remaining, Group(m, reviewed, forgePaths, all, m.Keys, Remaining));
    SortCollected(other, Group(m, reviewed, forgePaths, all, m.Keys, Other));
    o := Outcome(|m|, Sort(backported), Sort(remaining), Sort(other));
  }

  lemma GroupStep(m: Graph, reviewed: seq<Specification>, forgePaths: seq<string>, patches: set<VerifiedPatch>,
                  names: set<string>, n: string)
    requires n in m && n !in names
    ensures forall v: Verdict :: n !in Group(m, reviewed, forgePaths, patches, names, v)
    ensures forall v: Verdict :: Group(m, reviewed, forgePaths, patches, names + {n}, v) ==
              if VerdictOf(m, reviewed, forgePaths, patches, n) == v
              then Group(m, reviewed, forgePaths, patches, names, v) + {n}
              else Group(m, reviewed, forgePaths, patches, names, v)
  {
    hide VerdictOf;
  }

  method Evaluate(execution: Execution, report: Report, reviewed: seq<Specification>,
                  forgePaths: seq<string>, patches: seq<VerifiedPatch>) returns (r: Result<Outcome>)
    requires Parsed(report)
    ensures r.Ok? <==> Acceptable(execution, report)
    ensures r.Ok? ==> IsOutcome(report.findings, reviewed, forgePaths, Elements(patches), r.value)
    ensures r.Ok? ==> Decides(report.findings, reviewed, forgePaths, Elements(patches), r.value)
  {
    hide IsOutcome, Decides, ValidGraph;
    if execution.failed || (execution.status != Some(0) && execution.status != Some(1)) {
      return Error;
    }
    var counted := CheckCounts(report);
    if !counted {
      return Error;
    }
    var high := HasHighOrCritical(report);
    if execution.status != Some(if high then 1 else 0) {
      return Error;
    }
    var valid := ValidateGraph(report);
    if !valid {
      return Error;
    }
    var o := Classify(report, reviewed, forgePaths, patches);
    OutcomeDecides(report.findings, reviewed, forgePaths, Elements(patches), o);
    r := Ok(o);
  }

  // ---------------------------------------------------------------- the lists, said again from the graph alone

  /** Every copy of node-forge is verified, and nothing is reported of it but the one advisory. */
  ghost predicate ForgeAnswered(m: Graph, forgePaths: seq<string>) {
    && "node-forge" in m && m["node-forge"].severity == High
    && (forall node :: node in m["node-forge"].nodes ==> node in forgePaths)
    && (forall c :: c in m["node-forge"].via ==>
          && c.Concrete? && c.advisory.url == "https://github.com/advisories/GHSA-86w9-cpqp-85rv"
          && c.advisory.name == "node-forge" && c.advisory.dependency == "node-forge"
          && c.advisory.range == "<=1.4.0" && c.advisory.severity == High)
  }

  /** The dependent of node-forge that its patch covers as well. */
  ghost predicate IsForgeDependent(m: Graph, n: string) {
    && n == "jks-js" && n in m && m[n].severity == High
    && (forall node :: node in m[n].nodes ==> node == "node_modules/jks-js")
    && (forall c :: c in m[n].via ==> c == Package("node-forge"))
  }

  /** The specification of a patch: the first of its package and advisory. */
  ghost predicate IsFirst(reviewed: seq<Specification>, i: int, p: VerifiedPatch) {
    && 0 <= i < |reviewed| && reviewed[i].name == p.name && reviewed[i].advisoryUrl == p.advisoryUrl
    && forall j :: 0 <= j < i ==> reviewed[j].name != p.name || reviewed[j].advisoryUrl != p.advisoryUrl
  }

  /** A verified patch answers the package: every copy and every cause. */
  ghost predicate AnsweredBy(m: Graph, n: string, p: VerifiedPatch, s: Specification) {
    && n in m && m[n].severity == High && p.name == n && p.advisoryUrl != ""
    && (forall node :: node in m[n].nodes ==> node in p.paths)
    && (forall c :: c in m[n].via ==>
          && c.Concrete? && c.advisory.url == p.advisoryUrl && c.advisory.name == n && c.advisory.dependency == n
          && c.advisory.severity == High && c.advisory.range == "<=" + s.version)
  }

  ghost predicate Answered(m: Graph, reviewed: seq<Specification>, patches: set<VerifiedPatch>, n: string) {
    exists p, i :: p in patches && IsFirst(reviewed, i, p) && AnsweredBy(m, n, p, reviewed[i])
  }

  /** High findings that are answered, or have only causes among themselves. */
  ghost predicate Supports(m: Graph, reviewed: seq<Specification>, patches: set<VerifiedPatch>, s: set<string>) {
    forall b :: b in s ==>
      && b in m && m[b].severity == High
      && (Answered(m, reviewed, patches, b) || forall c :: c in m[b].via ==> c.Package? && c.name in s)
  }

  ghost predicate Covered(m: Graph, reviewed: seq<Specification>, forgePaths: seq<string>, patches: set<VerifiedPatch>,
                          n: string) {
    || (ForgeAnswered(m, forgePaths) && (n == "node-forge" || IsForgeDependent(m, n)))
    || exists s :: n in s && Supports(m, reviewed, patches, s)
  }

  /** Exactly the covered findings do not block; of the others, exactly the high and critical ones do. */
  ghost predicate Decides(m: Graph, reviewed: seq<Specification>, forgePaths: seq<string>, patches: set<VerifiedPatch>,
                          o: Outcome) {
    forall n ::
      && (n in o.backported <==> n in m && Covered(m, reviewed, forgePaths, patches, n))
      && (n in o.remaining <==>
            n in m && !Covered(m, reviewed, forgePaths, patches, n) && m[n].severity in {High, Critical})
      && (n in o.other <==>
            n in m && !Covered(m, reviewed, forgePaths, patches, n) && m[n].severity in {Info, Low, Moderate})
  }

  lemma {:induction false} FirstIsFound(reviewed: seq<Specification>, p: VerifiedPatch)
    ensures match FindSpecification(reviewed, p)
            case Some(s) => exists i :: IsFirst(reviewed, i, p) && reviewed[i] == s
            case None => forall i :: 0 <= i < |reviewed| ==>
              reviewed[i].name != p.name || reviewed[i].advisoryUrl != p.advisoryUrl
  {
    if reviewed != [] {
      if reviewed[0].name == p.name && reviewed[0].advisoryUrl == p.advisoryUrl {
        assert IsFirst(reviewed, 0, p);
      } else {
        var rest := reviewed[1..];
        FirstIsFound(rest, p);
        if FindSpecification(rest, p).Some? {
          var i :| IsFirst(rest, i, p) && rest[i] == FindSpecification(rest, p).value;
          forall j | 0 <= j < i + 1
            ensures reviewed[j].name != p.name || reviewed[j].advisoryUrl != p.advisoryUrl
          {
            if j > 0 { assert reviewed[j] == rest[j - 1]; }
          }
          assert IsFirst(reviewed, i + 1, p);
        } else {
          forall i | 0 <= i < |reviewed|
            ensures reviewed[i].name != p.name || reviewed[i].advisoryUrl != p.advisoryUrl
          {
            if i > 0 { assert reviewed[i] == rest[i - 1]; }
          }
        }
      }
    }
  }

  lemma FirstUnique(reviewed: seq<Specification>, p: VerifiedPatch, i: int, k: int)
    requires IsFirst(reviewed, i, p) && IsFirst(reviewed, k, p)
    ensures i == k
  {
  }

  lemma CoversExactly(m: Graph, reviewed: seq<Specification>, p: VerifiedPatch)
    ensures PatchCovers(m, reviewed, p) <==>
            exists i :: IsFirst(reviewed, i, p) && AnsweredBy(m, p.name, p, reviewed[i])
  {
    FirstIsFound(reviewed, p);
    if PatchCovers(m, reviewed, p) {
      var i :| IsFirst(reviewed, i, p) && reviewed[i] == FindSpecification(reviewed, p).value;
      assert AnsweredBy(m, p.name, p, reviewed[i]);
    }
    if k :| IsFirst(reviewed, k, p) && AnsweredBy(m, p.name, p, reviewed[k]) {
      var i :| IsFirst(reviewed, i, p) && reviewed[i] == FindSpecification(reviewed, p).value;
      FirstUnique(reviewed, p, i, k);
    }
  }

  lemma RootsExactly(m: Graph, reviewed: seq<Specification>, patches: set<VerifiedPatch>, n: string)
    ensures n in Roots(m, reviewed, patches) <==> Answered(m, reviewed, patches, n)
  {
    hide PatchCovers, AnsweredBy;
    if n in Roots(m, reviewed, patches) {
      var p :| p in patches && PatchCovers(m, reviewed, p) && p.name == n;
      CoversExactly(m, reviewed, p);
    }
    if p, i :| p in patches && IsFirst(reviewed, i, p) && AnsweredBy(m, n, p, reviewed[i]) {
      assert p.name == n by { AnswersItsPackage(m, n, p, reviewed[i]); }
      CoversExactly(m, reviewed, p);
    }
  }

  lemma AnswersItsPackage(m: Graph, n: string, p: VerifiedPatch, s: Specification)
    requires AnsweredBy(m, n, p, s)
    ensures p.name == n && n in m && m[n].severity == High
  {
  }

  /** What is reached without expanding roots supports itself; and a set that does holds all that is reached. */
  lemma VerifiedExactly(m: Graph, reviewed: seq<Specification>, patches: set<VerifiedPatch>, n: string)
    requires n in m
    ensures n in Roots(m, reviewed, patches) || OnlyVerifiedCauses(m, Roots(m, reviewed, patches), n) <==>
            exists s :: n in s && Supports(m, reviewed, patches, s)
  {
    hide Roots, Answered;
    var roots := Roots(m, reviewed, patches);
    if n in roots {
      RootsExactly(m, reviewed, patches, n);
      RootsAreHigh(m, reviewed, patches, n);
      assert Supports(m, reviewed, patches, {n});
    } else if OnlyVerifiedCauses(m, roots, n) {
      var s := ReachedSupports(m, reviewed, patches, n);
    }
    if s :| n in s && Supports(m, reviewed, patches, s) {
      SupportedIsVerified(m, reviewed, patches, s, n);
    }
  }

  lemma RootsAreHigh(m: Graph, reviewed: seq<Specification>, patches: set<VerifiedPatch>, n: string)
    requires n in Roots(m, reviewed, patches)
    ensures n in m && m[n].severity == High
  {
  }

  lemma ReachedSupports(m: Graph, reviewed: seq<Specification>, patches: set<VerifiedPatch>, n: string)
    returns (s: set<string>)
    requires n in m && OnlyVerifiedCauses(m, Roots(m, reviewed, patches), n)
    ensures n in s && Supports(m, reviewed, patches, s)
  {
    hide Roots, Answered;
    var roots := Roots(m, reviewed, patches);
    s := set k | k in m && Reaches(Edges(m, roots), n, k);
    ReachesSelf(Edges(m, roots), n);
    forall b | b in s
      ensures b in m && m[b].severity == High
      ensures Answered(m, reviewed, patches, b) || forall c :: c in m[b].via ==> c.Package? && c.name in s
    {
      assert LocallyVerified(m, roots, b);
      if b in roots {
        RootsExactly(m, reviewed, patches, b);
      } else {
        forall c | c in m[b].via ensures c.Package? && c.name in s {
          ReachesStep(Edges(m, roots), n, b, c.name);
          assert LocallyVerified(m, roots, c.name);
        }
      }
    }
  }

  lemma SupportedIsVerified(m: Graph, reviewed: seq<Specification>, patches: set<VerifiedPatch>, s: set<string>,
                            n: string)
    requires n in s && Supports(m, reviewed, patches, s)
    ensures OnlyVerifiedCauses(m, Roots(m, reviewed, patches), n)
  {
    hide Roots, Answered;
    var roots := Roots(m, reviewed, patches);
    forall b ensures b in roots <==> Answered(m, reviewed, patches, b) { RootsExactly(m, reviewed, patches, b); }
    assert Closed(Edges(m, roots), s);
    ReachesStaysClosed(Edges(m, roots), s, n);
  }

  lemma ExemptExactly(m: Graph, reviewed: seq<Specification>, forgePaths: seq<string>, patches: set<VerifiedPatch>,
                      n: string)
    requires n in m
    ensures Exempt(m, reviewed, forgePaths, patches, n) <==> Covered(m, reviewed, forgePaths, patches, n)
  {
    hide Roots, OnlyVerifiedCauses, Supports, Answered;
    VerifiedExactly(m, reviewed, patches, n);
    ForgeExactly(m, forgePaths, n);
  }

  lemma ForgeExactly(m: Graph, forgePaths: seq<string>, n: string)
    requires n in m
    ensures ForgeExempt(m, forgePaths, n) <==>
            ForgeAnswered(m, forgePaths) && (n == "node-forge" || IsForgeDependent(m, n))
  {
    hide ForgeAnswered, ForgeBackported;
    ForgeAnsweredExactly(m, forgePaths);
    if ForgeExempt(m, forgePaths, n) && n != "node-forge" {
      forall c | c in m[n].via ensures c == Package("node-forge") {}
    }
    if IsForgeDependent(m, n) {
      forall i | 0 <= i < |m[n].via| ensures m[n].via[i] == Package("node-forge") { assert m[n].via[i] in m[n].via; }
      forall i | 0 <= i < |m[n].nodes| ensures m[n].nodes[i] == "node_modules/jks-js" {
        assert m[n].nodes[i] in m[n].nodes;
      }
    }
    if ForgeBackported(m, forgePaths) { ForgeIsHigh(m, forgePaths); }
  }

  lemma ForgeIsHigh(m: Graph, forgePaths: seq<string>)
    requires ForgeBackported(m, forgePaths)
    ensures "node-forge" in m && m["node-forge"].severity == High
  {
  }

  lemma ForgeAnsweredExactly(m: Graph, forgePaths: seq<string>)
    ensures ForgeBackported(m, forgePaths) <==> ForgeAnswered(m, forgePaths)
  {
    if ForgeAnswered(m, forgePaths) {
      var via := m["node-forge"].via;
      forall i | 0 <= i < |via| ensures via[i].Concrete? && IsBackportedAdvisory(via[i].advisory) {
        assert via[i] in via;
      }
    }
    if ForgeBackported(m, forgePaths) {
      var via := m["node-forge"].via;
      forall c | c in via ensures c.Concrete? && IsBackportedAdvisory(c.advisory) {}
    }
  }

  lemma OutcomeDecides(m: Graph, reviewed: seq<Specification>, forgePaths: seq<string>, patches: set<VerifiedPatch>,
                       o: Outcome)
    requires IsOutcome(m, reviewed, forgePaths, patches, o)
    ensures Decides(m, reviewed, forgePaths, patches, o)
  {
    hide Exempt, Covered;
    forall n
      ensures n in o.backported <==> n in m && Covered(m, reviewed, forgePaths, patches, n)
      ensures n in o.remaining <==>
              n in m && !Covered(m, reviewed, forgePaths, patches, n) && m[n].severity in {High, Critical}
      ensures n in o.other <==>
              n in m && !Covered(m, reviewed, forgePaths, patches, n) && m[n].severity in {Info, Low, Moderate}
    {
      if n in m { ExemptExactly(m, reviewed, forgePaths, patches, n); }
      assert n in o.backported <==> n in Elements(o.backported);
      assert n in o.remaining <==> n in Elements(o.remaining);
      assert n in o.other <==> n in Elements(o.other);
    }
  }

  // ---------------------------------------------------------------- what the verdicts mean

  /** A reviewed advisory, standing on its own package with every installed copy verified. */
  ghost predicate Reviewed(m: Graph, reviewed: seq<Specification>, forgePaths: seq<string>, patches: set<VerifiedPatch>,
                           b: string, a: Advisory)
    requires b in m
  {
    || (&& b == "node-forge" && IsBackportedAdvisory(a)
        && forall k :: k in m[b].nodes ==> k in forgePaths)
    || exists p, s ::
         && p in patches && s in reviewed && p.advisoryUrl == s.advisoryUrl != ""
         && b == p.name == s.name && IsPatchedAdvisory(a, s)
         && forall k :: k in m[b].nodes ==> k in p.paths
  }

  lemma RootIsReviewed(m: Graph, reviewed: seq<Specification>, forgePaths: seq<string>, patches: set<VerifiedPatch>,
                       b: string, c: Cause)
    requires b in Roots(m, reviewed, patches) && c in m[b].via
    ensures c.Concrete? && Reviewed(m, reviewed, forgePaths, patches, b, c.advisory)
  {
    var p :| p in patches && PatchCovers(m, reviewed, p) && p.name == b;
    var s := FindSpecification(reviewed, p).value;
    assert p in patches && s in reviewed && IsPatchedAdvisory(c.advisory, s);
  }

  /** All that lies behind an exempt finding: a closed set of high findings with only reviewed advisories. */
  ghost predicate Cleared(m: Graph, reviewed: seq<Specification>, forgePaths: seq<string>, patches: set<VerifiedPatch>,
                          s: set<string>) {
    && Closed(Edges(m, {}), s)
    && forall b :: b in s ==>
         && b in m && m[b].severity == High
         && forall c :: c in m[b].via && c.Concrete? ==> Reviewed(m, reviewed, forgePaths, patches, b, c.advisory)
  }

  lemma RootCleared(m: Graph, reviewed: seq<Specification>, forgePaths: seq<string>, patches: set<VerifiedPatch>,
                    n: string)
    requires n in Roots(m, reviewed, patches)
    ensures Packages(m[n]) == {} && m[n].severity == High
    ensures forall c :: c in m[n].via ==> c.Concrete? && Reviewed(m, reviewed, forgePaths, patches, n, c.advisory)
  {
    forall c | c in m[n].via ensures c.Concrete? && Reviewed(m, reviewed, forgePaths, patches, n, c.advisory) {
      RootIsReviewed(m, reviewed, forgePaths, patches, n, c);
    }
  }

  lemma ForgeCleared(m: Graph, reviewed: seq<Specification>, forgePaths: seq<string>, patches: set<VerifiedPatch>,
                     n: string)
    requires n in m && ForgeExempt(m, forgePaths, n)
    ensures Cleared(m, reviewed, forgePaths, patches, {n, "node-forge"})
  {
  }

  lemma VerifiedCleared(m: Graph, reviewed: seq<Specification>, forgePaths: seq<string>, patches: set<VerifiedPatch>,
                        n: string)
    returns (s: set<string>)
    requires n in m && OnlyVerifiedCauses(m, Roots(m, reviewed, patches), n)
    ensures n in s && Cleared(m, reviewed, forgePaths, patches, s)
  {
    var roots := Roots(m, reviewed, patches);
    s := set k | k in m && Reaches(Edges(m, roots), n, k);
    ReachesSelf(Edges(m, roots), n);
    forall b | b in s ensures m[b].severity == High
      ensures forall c :: c in m[b].via && c.Concrete? ==> Reviewed(m, reviewed, forgePaths, patches, b, c.advisory)
      ensures Packages(m[b]) <= s
    {
      assert LocallyVerified(m, roots, b);
      if b in roots {
        RootCleared(m, reviewed, forgePaths, patches, b);
      } else {
        forall k | k in Packages(m[b]) ensures k in s {
          ReachesStep(Edges(m, roots), n, b, k);
          assert LocallyVerified(m, roots, k);
        }
      }
    }
  }

  lemma ExemptCleared(m: Graph, reviewed: seq<Specification>, forgePaths: seq<string>, patches: set<VerifiedPatch>,
                      n: string)
    returns (s: set<string>)
    requires n in m && Exempt(m, reviewed, forgePaths, patches, n)
    ensures n in s && Cleared(m, reviewed, forgePaths, patches, s)
  {
    if ForgeExempt(m, forgePaths, n) {
      ForgeCleared(m, reviewed, forgePaths, patches, n);
      s := {n, "node-forge"};
    } else if n in Roots(m, reviewed, patches) {
      RootCleared(m, reviewed, forgePaths, patches, n);
      s := {n};
    } else {
      s := VerifiedCleared(m, reviewed, forgePaths, patches, n);
    }
  }

  /**
   * Soundness: behind a high or critical finding that does not block, through any cycle, there is
   * nothing but reviewed advisories, and at least one of them.
   */
  lemma ExemptionSound(m: Graph, reviewed: seq<Specification>, forgePaths: seq<string>, patches: set<VerifiedPatch>,
                       o: Outcome, n: string)
    requires ValidGraph(m) && IsOutcome(m, reviewed, forgePaths, patches, o)
    requires n in m && Rank(m[n].severity) >= Rank(High) && n !in o.remaining
    ensures forall b :: Reaches(Edges(m, {}), n, b) ==> b in m && m[b].severity == High
    ensures forall b, a :: Reaches(Edges(m, {}), n, b) && Concrete(a) in m[b].via ==>
              Reviewed(m, reviewed, forgePaths, patches, b, a)
    ensures exists b, a :: Reaches(Edges(m, {}), n, b) && b in m && Concrete(a) in m[b].via
  {
    assert n !in Elements(o.remaining);
    GroundedAdvisory(m, n);
    var s := ExemptCleared(m, reviewed, forgePaths, patches, n);
    ReachesStaysClosed(Edges(m, {}), s, n);
  }

  lemma GroundedAdvisory(m: Graph, n: string)
    requires ValidGraph(m) && n in m
    ensures exists b, a :: Reaches(Edges(m, {}), n, b) && b in m && Concrete(a) in m[b].via
  {
    assert ValidAt(m, n);
    var b :| Reaches(Edges(m, {}), n, b) && b in m && HasAdvisory(m[b]);
    var c :| c in m[b].via && c.Concrete?;
    assert Concrete(c.advisory) in m[b].via;
  }

  /** Each finding is in exactly one list, and no list repeats it. */
  lemma ListsPartition(m: Graph, reviewed: seq<Specification>, forgePaths: seq<string>, patches: set<VerifiedPatch>,
                       o: Outcome)
    requires IsOutcome(m, reviewed, forgePaths, patches, o)
    ensures multiset(o.backported) + multiset(o.remaining) + multiset(o.other) == multiset(m.Keys)
  {
    var b := Group(m, reviewed, forgePaths, patches, m.Keys, Backported);
    var r := Group(m, reviewed, forgePaths, patches, m.Keys, Remaining);
    var t := Group(m, reviewed, forgePaths, patches, m.Keys, Other);
    SortedMultiset(o.backported, b);
    SortedMultiset(o.remaining, r);
    SortedMultiset(o.other, t);
    GroupsPartition(m, reviewed, forgePaths, patches);
  }

  lemma GroupsPartition(m: Graph, reviewed: seq<Specification>, forgePaths: seq<string>, patches: set<VerifiedPatch>)
    ensures var b := Group(m, reviewed, forgePaths, patches, m.Keys, Backported);
            var r := Group(m, reviewed, forgePaths, patches, m.Keys, Remaining);
            var t := Group(m, reviewed, forgePaths, patches, m.Keys, Other);
            multiset(b) + multiset(r) + multiset(t) == multiset(m.Keys)
  {
  }

  /** The lists depend on the findings and patches as sets: no iteration order can change them. */
  lemma OutcomeUnique(m: Graph, reviewed: seq<Specification>, forgePaths: seq<string>, patches: set<VerifiedPatch>,
                      a: Outcome, b: Outcome)
    requires IsOutcome(m, reviewed, forgePaths, patches, a) && IsOutcome(m, reviewed, forgePaths, patches, b)
    ensures a == b
  {
    SortedUnique(a.backported, b.backported, Elements(a.backported));
    SortedUnique(a.remaining, b.remaining, Elements(a.remaining));
    SortedUnique(a.other, b.other, Elements(a.other));
  }
}
