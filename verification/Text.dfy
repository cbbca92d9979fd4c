/** Strings as sequences of characters: lexicographic order, decimal numerals and separators. */
module Text {

  datatype Option<+T> = None | Some(value: T)

  datatype Result<+T> = Ok(value: T) | Error

  function Elements<T(!new)>(s: seq<T>): (r: set<T>)
    ensures forall x :: x in r <==> x in s
  {
    set x | x in s
  }

  // ---------------------------------------------------------------- lexicographic order

  /** `i` is the first place where `xs` and `ys` differ, and `xs` is the smaller there. */
  ghost predicate DecidedAt<T(!new)>(less: (T, T) -> bool, xs: seq<T>, ys: seq<T>, i: nat) {
    && i <= |xs|
    && i < |ys|
    && xs[..i] == ys[..i]
    && (i < |xs| ==> less(xs[i], ys[i]))
  }

  /** Dictionary order; a proper prefix is the smaller. */
  ghost predicate LexLess<T(!new)>(less: (T, T) -> bool, xs: seq<T>, ys: seq<T>) {
    exists i: nat :: DecidedAt(less, xs, ys, i)
  }

  ghost predicate StrictTotalOrder<T(!new)>(less: (T, T) -> bool) {
    && (forall x :: !less(x, x))
    && (forall x, y, z :: less(x, y) && less(y, z) ==> less(x, z))
    && (forall x, y :: x == y || less(x, y) || less(y, x))
  }

  lemma LexIrreflexive<T(!new)>(less: (T, T) -> bool, xs: seq<T>)
    requires StrictTotalOrder(less)
    ensures !LexLess(less, xs, xs)
  {
  }

  lemma LexTransitive<T(!new)>(less: (T, T) -> bool, xs: seq<T>, ys: seq<T>, zs: seq<T>)
    requires StrictTotalOrder(less)
    requires LexLess(less, xs, ys) && LexLess(less, ys, zs)
    ensures LexLess(less, xs, zs)
  {
    var i: nat :| DecidedAt(less, xs, ys, i);
    var j: nat :| DecidedAt(less, ys, zs, j);
    var k := if i < j then i else j;
    assert xs[..k] == xs[..i][..k] == ys[..i][..k] == ys[..k];
    assert ys[..k] == ys[..j][..k] == zs[..j][..k] == zs[..k];
    if i < j {
      assert ys[i] == ys[..j][i] == zs[..j][i] == zs[i];
    } else if j < i {
      assert xs[j] == xs[..i][j] == ys[..i][j] == ys[j];
    }
    assert DecidedAt(less, xs, zs, k);
  }

  /** The place where the order of two different sequences is decided. */
  lemma {:induction false} LexTotal<T(!new)>(less: (T, T) -> bool, xs: seq<T>, ys: seq<T>)
    requires StrictTotalOrder(less)
    ensures xs == ys || LexLess(less, xs, ys) || LexLess(less, ys, xs)
  {
    if xs == [] {
      assert ys == [] || DecidedAt(less, xs, ys, 0);
    } else if ys == [] {
      assert DecidedAt(less, ys, xs, 0);
    } else if xs[0] != ys[0] {
      assert DecidedAt(less, xs, ys, 0) || DecidedAt(less, ys, xs, 0);
    } else {
      LexTotal(less, xs[1..], ys[1..]);
      if LexLess(less, xs[1..], ys[1..]) {
        LexCons(less, xs, ys);
      } else if LexLess(less, ys[1..], xs[1..]) {
        LexCons(less, ys, xs);
      }
    }
  }

  lemma LexCons<T(!new)>(less: (T, T) -> bool, xs: seq<T>, ys: seq<T>)
    requires xs != [] && ys != [] && xs[0] == ys[0]
    requires LexLess(less, xs[1..], ys[1..])
    ensures LexLess(less, xs, ys)
  {
    var i: nat :| DecidedAt(less, xs[1..], ys[1..], i);
    assert xs[..i + 1] == [xs[0]] + xs[1..][..i];
    assert ys[..i + 1] == [ys[0]] + ys[1..][..i];
    assert DecidedAt(less, xs, ys, i + 1);
  }

  lemma LexAsymmetric<T(!new)>(less: (T, T) -> bool, xs: seq<T>, ys: seq<T>)
    requires StrictTotalOrder(less)
    ensures !(LexLess(less, xs, ys) && LexLess(less, ys, xs))
    ensures xs == ys ==> !LexLess(less, xs, ys)
  {
    LexIrreflexive(less, xs);
    if LexLess(less, xs, ys) && LexLess(less, ys, xs) {
      LexTransitive(less, xs, ys, xs);
    }
  }

  lemma DecidedShareHead<T(!new)>(less: (T, T) -> bool, xs: seq<T>, ys: seq<T>, i: nat)
    requires i > 0 && DecidedAt(less, xs, ys, i)
    ensures xs[0] == ys[0]
  {
    assert xs[0] == xs[..i][0] == ys[..i][0] == ys[0];
  }

  lemma LexStrictTotalOrder<T(!new)>(less: (T, T) -> bool)
    requires StrictTotalOrder(less)
    ensures StrictTotalOrder((xs: seq<T>, ys: seq<T>) => LexLess(less, xs, ys))
  {
    forall xs: seq<T> ensures !LexLess(less, xs, xs) { LexIrreflexive(less, xs); }
    forall xs: seq<T>, ys: seq<T>, zs: seq<T> | LexLess(less, xs, ys) && LexLess(less, ys, zs)
      ensures LexLess(less, xs, zs)
    {
      LexTransitive(less, xs, ys, zs);
    }
    forall xs: seq<T>, ys: seq<T> ensures xs == ys || LexLess(less, xs, ys) || LexLess(less, ys, xs) {
      LexTotal(less, xs, ys);
    }
  }

  // ---------------------------------------------------------------- order of strings

  /** `<` of both JavaScript and Python on the ASCII strings compared here. */
  predicate Less(a: string, b: string) {
    b != "" && (a == "" || a[0] < b[0] || (a[0] == b[0] && Less(a[1..], b[1..])))
  }

  ghost const CharLess: (char, char) -> bool := (a, b) => a < b

  lemma {:induction false} LessIsLex(a: string, b: string)
    ensures Less(a, b) <==> LexLess(CharLess, a, b)
  {
    if b == "" {
    } else if a == "" {
      assert DecidedAt(CharLess, a, b, 0);
    } else if a[0] != b[0] {
      if a[0] < b[0] { assert DecidedAt(CharLess, a, b, 0); }
      forall i: nat | DecidedAt(CharLess, a, b, i) ensures i == 0 {
        if i > 0 { DecidedShareHead(CharLess, a, b, i); }
      }
    } else {
      LessIsLex(a[1..], b[1..]);
      if LexLess(CharLess, a[1..], b[1..]) { LexCons(CharLess, a, b); }
      if LexLess(CharLess, a, b) {
        var i: nat :| DecidedAt(CharLess, a, b, i);
        assert a[1..][..i - 1] == a[..i][1..] == b[..i][1..] == b[1..][..i - 1];
        assert DecidedAt(CharLess, a[1..], b[1..], i - 1);
      }
    }
  }

  lemma LessOrder()
    ensures StrictTotalOrder(Less)
  {
    LexStrictTotalOrder(CharLess);
    var lex := (xs: string, ys: string) => LexLess(CharLess, xs, ys);
    forall a: string, b: string ensures Less(a, b) == lex(a, b) { LessIsLex(a, b); }
    forall a: string, b: string, c: string | Less(a, b) && Less(b, c) ensures Less(a, c) {
      assert lex(a, b) && lex(b, c);
    }
  }

  /** A proper prefix sorts first. */
  lemma {:induction false} PrefixLess(a: string, b: string)
    requires a < b
    ensures Less(a, b)
  {
    assert DecidedAt(CharLess, a, b, |a|);
    LessIsLex(a, b);
  }

  // ---------------------------------------------------------------- decimal numerals

  predicate IsDigit(c: char) { '0' <= c <= '9' }

  predicate AllDigits(s: string) { s != "" && forall i :: 0 <= i < |s| ==> IsDigit(s[i]) }

  /** `0|[1-9][0-9]*` */
  predicate Canonical(s: string) { AllDigits(s) && (|s| == 1 || s[0] != '0') }

  function ParseNat(s: string): nat
    requires AllDigits(s)
  {
    var low := (s[|s| - 1] - '0') as nat;
    if |s| == 1 then low else 10 * ParseNat(s[..|s| - 1]) + low
  }

  function DigitChar(d: nat): char
    requires d < 10
  {
    '0' + d as char
  }

  function Power10(digits: nat): nat { if digits == 0 then 1 else 10 * Power10(digits - 1) }

  function PrintNat(n: nat): string {
    if n < 10 then [DigitChar(n)] else PrintNat(n / 10) + [DigitChar(n % 10)]
  }

  lemma {:induction false} ParsePrint(n: nat)
    ensures Canonical(PrintNat(n)) && ParseNat(PrintNat(n)) == n
    ensures n > 0 ==> PrintNat(n)[0] != '0'
  {
    if n >= 10 {
      ParsePrint(n / 10);
      var s := PrintNat(n);
      assert s[..|s| - 1] == PrintNat(n / 10);
    }
  }

  lemma {:induction false} PrintParse(s: string)
    requires Canonical(s)
    ensures PrintNat(ParseNat(s)) == s
    ensures s[0] != '0' ==> ParseNat(s) > 0
  {
    if |s| > 1 {
      var high := s[..|s| - 1];
      PrintParse(high);
      assert s == high + [s[|s| - 1]];
      assert ParseNat(s) / 10 == ParseNat(high);
    }
  }

  /** Numerals without leading zeros denote equal numbers only when they are equal strings. */
  lemma ParseInjective(a: string, b: string)
    requires Canonical(a) && Canonical(b) && ParseNat(a) == ParseNat(b)
    ensures a == b
  {
    PrintParse(a);
    PrintParse(b);
  }

  // ---------------------------------------------------------------- separators

  /** The part before the first `c`: JavaScript's `s.split(c)[0]`, Python's `s.partition(c)[0]`. */
  function Before(s: string, c: char): (r: string)
    ensures c !in r && r <= s
  {
    if s == "" || s[0] == c then "" else [s[0]] + Before(s[1..], c)
  }

  /** The part after the first `c`, empty when there is none. */
  function After(s: string, c: char): string {
    if s == "" then "" else if s[0] == c then s[1..] else After(s[1..], c)
  }

  lemma {:induction false} PartitionParts(s: string, c: char)
    ensures c !in s ==> Before(s, c) == s && After(s, c) == ""
    ensures c in s ==> s == Before(s, c) + [c] + After(s, c)
  {
    if s != "" && s[0] != c {
      PartitionParts(s[1..], c);
      assert s == [s[0]] + s[1..];
    }
  }

  lemma {:induction false} PartitionOf(a: string, c: char, b: string)
    requires c !in a
    ensures Before(a + [c] + b, c) == a && After(a + [c] + b, c) == b
  {
    var s := a + [c] + b;
    if a != "" {
      assert s[1..] == a[1..] + [c] + b;
      PartitionOf(a[1..], c, b);
    } else {
      assert s[1..] == b;
    }
  }

  function Split(s: string, c: char): (r: seq<string>)
    ensures |r| >= 1
    ensures forall i :: 0 <= i < |r| ==> c !in r[i]
  {
    if s == "" then [""]
    else if s[0] == c then [""] + Split(s[1..], c)
    else var rest := Split(s[1..], c); [[s[0]] + rest[0]] + rest[1..]
  }

  function Join(parts: seq<string>, c: char): string
    requires |parts| >= 1
  {
    if |parts| == 1 then parts[0] else parts[0] + [c] + Join(parts[1..], c)
  }

  lemma {:induction false} JoinSplit(s: string, c: char)
    ensures Join(Split(s, c), c) == s
  {
    if s != "" {
      JoinSplit(s[1..], c);
      var rest := Split(s[1..], c);
      assert s == [s[0]] + s[1..];
      if s[0] == c {
        assert Split(s, c)[1..] == rest;
      } else {
        assert Split(s, c)[1..] == rest[1..];
      }
    }
  }

  lemma SplitInjective(a: string, b: string, c: char)
    requires Split(a, c) == Split(b, c)
    ensures a == b
  {
    JoinSplit(a, c);
    JoinSplit(b, c);
  }

  lemma {:induction false} SplitPiece(s: string, c: char)
    requires c !in s
    ensures Split(s, c) == [s]
  {
    if s != "" {
      assert s == [s[0]] + s[1..];
      SplitPiece(s[1..], c);
    }
  }

  /** Splitting distributes over a separator. */
  lemma {:induction false} SplitConcat(a: string, c: char, b: string)
    ensures Split(a + [c] + b, c) == Split(a, c) + Split(b, c)
  {
    var s := a + [c] + b;
    if a == "" {
      assert s[0] == c && s[1..] == b;
    } else {
      assert s[0] == a[0] && s[1..] == a[1..] + [c] + b;
      SplitConcat(a[1..], c, b);
    }
  }

  function SplitAll(parts: seq<string>, c: char): seq<string> {
    if parts == [] then [] else Split(parts[0], c) + SplitAll(parts[1..], c)
  }

  /** Splitting a joined text splits each of the parts. */
  lemma {:induction false} SplitOfJoin(parts: seq<string>, c: char)
    requires |parts| >= 1
    ensures Split(Join(parts, c), c) == SplitAll(parts, c)
  {
    if |parts| > 1 {
      SplitOfJoin(parts[1..], c);
      SplitConcat(parts[0], c, Join(parts[1..], c));
    } else {
      assert SplitAll(parts[1..], c) == [];
    }
  }

  lemma {:induction false} SplitAllConcat(a: seq<string>, b: seq<string>, c: char)
    ensures SplitAll(a + b, c) == SplitAll(a, c) + SplitAll(b, c)
  {
    if a == [] {
      assert a + b == b;
    } else {
      assert (a + b)[1..] == a[1..] + b;
      SplitAllConcat(a[1..], b, c);
    }
  }

  /** Parts without the separator are not split further. */
  lemma {:induction false} SplitAllPieces(parts: seq<string>, c: char)
    requires forall i :: 0 <= i < |parts| ==> c !in parts[i]
    ensures SplitAll(parts, c) == parts
  {
    if parts != [] {
      SplitPiece(parts[0], c);
      SplitAllPieces(parts[1..], c);
    }
  }
}
