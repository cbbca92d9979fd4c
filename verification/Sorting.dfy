/** Sorted lists of distinct strings, and the sort that produces them. */
module Sorting {
  import opened Text

  predicate Ordered(l: seq<string>, i: int, j: int) { 0 <= i < j < |l| ==> Less(l[i], l[j]) }

  ghost predicate Ascending(l: seq<string>) { forall i, j {:trigger Ordered(l, i, j)} :: Ordered(l, i, j) }

  /** A sorted list of exactly the members of `s`. */
  ghost predicate SortedList(l: seq<string>, s: set<string>) { Ascending(l) && Elements(l) == s }

  ghost predicate Distinct<T>(l: seq<T>) { forall i, j :: 0 <= i < j < |l| ==> l[i] != l[j] }

  function Insert(x: string, l: seq<string>): seq<string> {
    if l == [] || Less(x, l[0]) then [x] + l else [l[0]] + Insert(x, l[1..])
  }

  /** The default sort of distinct names in both languages. */
  function Sort(l: seq<string>): seq<string> {
    if l == [] then [] else Insert(l[0], Sort(l[1..]))
  }

  /** The head of a sorted list is below the rest. */
  lemma SortedTail(a: seq<string>, s: set<string>)
    requires SortedList(a, s) && a != []
    ensures SortedList(a[1..], s - {a[0]}) && a[0] in s
    ensures forall y :: y in a[1..] ==> Less(a[0], y)
  {
    hide Less;
    LessOrder();
    var t := a[1..];
    assert a == [a[0]] + t;
    forall i, j ensures Ordered(t, i, j) { assert Ordered(a, i + 1, j + 1); }
    forall y | y in t ensures Less(a[0], y) {
      var k :| 0 <= k < |t| && t[k] == y;
      assert Ordered(a, 0, k + 1);
    }
    assert a[0] in Elements(a);
  }

  lemma SortedCons(x: string, l: seq<string>, s: set<string>)
    requires SortedList(l, s)
    requires forall y :: y in l ==> Less(x, y)
    ensures SortedList([x] + l, s + {x})
  {
    hide Less;
    var r := [x] + l;
    forall i, j ensures Ordered(r, i, j) { assert Ordered(l, i - 1, j - 1); }
  }

  lemma {:induction false} InsertSorted(x: string, l: seq<string>, s: set<string>)
    requires SortedList(l, s) && x !in s
    ensures SortedList(Insert(x, l), s + {x})
  {
    hide Less;
    LessOrder();
    if l == [] {
      SortedCons(x, l, s);
    } else {
      SortedTail(l, s);
      var t := l[1..];
      assert l == [l[0]] + t;
      if Less(x, l[0]) {
        SortedCons(x, l, s);
      } else {
        InsertSorted(x, t, s - {l[0]});
        assert l[0] != x;
        var r := Insert(x, t);
        forall y | y in r ensures Less(l[0], y) { assert y in Elements(r); }
        SortedCons(l[0], r, s - {l[0]} + {x});
        assert s - {l[0]} + {x} + {l[0]} == s + {x};
      }
    }
  }

  lemma {:induction false} SortSorts(l: seq<string>)
    requires Distinct(l)
    ensures SortedList(Sort(l), Elements(l))
  {
    if l != [] {
      var t := l[1..];
      assert l == [l[0]] + t;
      SortSorts(t);
      assert l[0] !in t;
      InsertSorted(l[0], Sort(t), Elements(t));
      assert Elements(l) == Elements(t) + {l[0]};
    }
  }

  lemma {:induction false} SortedMultiset(l: seq<string>, s: set<string>)
    requires SortedList(l, s)
    ensures multiset(l) == multiset(s)
  {
    if l == [] {
      assert s == {};
    } else {
      SortedTail(l, s);
      SortedMultiset(l[1..], s - {l[0]});
      assert l == [l[0]] + l[1..];
      assert multiset(s) == multiset(s - {l[0]}) + multiset{l[0]};
    }
  }

  /** Two sorted lists of one set are the same list. */
  lemma {:induction false} SortedUnique(a: seq<string>, b: seq<string>, s: set<string>)
    requires SortedList(a, s) && SortedList(b, s)
    ensures a == b
  {
    hide Less;
    LessOrder();
    SortedMultiset(a, s);
    SortedMultiset(b, s);
    assert |a| == |multiset(a)| == |multiset(b)| == |b|;
    if a != [] {
      SortedTail(a, s);
      SortedTail(b, s);
      assert a == [a[0]] + a[1..] && b == [b[0]] + b[1..];
      assert a[0] in Elements(b) && b[0] in Elements(a);
      SortedUnique(a[1..], b[1..], s - {a[0]});
    }
  }

  lemma SortedDistinct(l: seq<string>, s: set<string>)
    requires SortedList(l, s)
    ensures Distinct(l)
  {
    LessOrder();
    forall i, j | 0 <= i < j < |l| ensures l[i] != l[j] { assert Ordered(l, i, j); }
  }
}
