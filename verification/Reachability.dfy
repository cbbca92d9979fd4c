/** Reachability in a relation, cycles allowed. */
module Reachability {

  ghost predicate Path<T(!new)>(edge: (T, T) -> bool, p: seq<T>) {
    p != [] && forall i :: 0 <= i < |p| - 1 ==> edge(p[i], p[i + 1])
  }

  ghost predicate Reaches<T(!new)>(edge: (T, T) -> bool, a: T, b: T) {
    exists p :: Path(edge, p) && p[0] == a && p[|p| - 1] == b
  }

  lemma ReachesSelf<T(!new)>(edge: (T, T) -> bool, a: T)
    ensures Reaches(edge, a, a)
  {
    assert Path(edge, [a]);
  }

  lemma ReachesStep<T(!new)>(edge: (T, T) -> bool, a: T, b: T, c: T)
    requires Reaches(edge, a, b) && edge(b, c)
    ensures Reaches(edge, a, c)
  {
    var p :| Path(edge, p) && p[0] == a && p[|p| - 1] == b;
    var q := p + [c];
    forall i | 0 <= i < |q| - 1 ensures edge(q[i], q[i + 1]) {
      assert i < |p| - 1 ==> edge(p[i], p[i + 1]);
    }
    assert Path(edge, q) && q[0] == a && q[|q| - 1] == c;
  }

  ghost predicate Closed<T(!new)>(edge: (T, T) -> bool, s: set<T>) {
    forall a, b :: a in s && edge(a, b) ==> b in s
  }

  lemma {:induction false} PathStaysClosed<T(!new)>(edge: (T, T) -> bool, s: set<T>, p: seq<T>)
    requires Closed(edge, s) && Path(edge, p) && p[0] in s
    ensures p[|p| - 1] in s
  {
    if |p| > 1 {
      assert edge(p[0], p[1]);
      var q := p[1..];
      forall i | 0 <= i < |q| - 1 ensures edge(q[i], q[i + 1]) {
        assert edge(p[i + 1], p[i + 2]);
      }
      PathStaysClosed(edge, s, q);
    }
  }

  /** What is reached from a closed set stays in it. */
  lemma ReachesStaysClosed<T(!new)>(edge: (T, T) -> bool, s: set<T>, a: T)
    requires Closed(edge, s) && a in s
    ensures forall b :: Reaches(edge, a, b) ==> b in s
  {
    forall b | Reaches(edge, a, b) ensures b in s {
      var p :| Path(edge, p) && p[0] == a && p[|p| - 1] == b;
      PathStaysClosed(edge, s, p);
    }
  }

  /** A closed set of reached members, holding the start, is exactly what is reached. */
  lemma ClosureExact<T(!new)>(edge: (T, T) -> bool, s: set<T>, a: T)
    requires Closed(edge, s) && a in s
    requires forall b :: b in s ==> Reaches(edge, a, b)
    ensures forall b :: Reaches(edge, a, b) <==> b in s
  {
    ReachesStaysClosed(edge, s, a);
  }
}
