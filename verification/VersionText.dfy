/** Versions as they are written: numbers, prerelease and build metadata, and their order read off these. */
module VersionText {
  import opened Text
  import opened SemVer
  import opened Precedence

  // ---------------------------------------------------------------- from parts to text and back

  function CoreText(a: nat, b: nat, c: nat): string {
    PrintNat(a) + ['.'] + (PrintNat(b) + ['.'] + PrintNat(c))
  }

  function MainText(a: nat, b: nat, c: nat, pre: seq<Identifier>): string {
    if pre == [] then CoreText(a, b, c) else CoreText(a, b, c) + ['-'] + Join(pre, '.')
  }

  /** MAJOR.MINOR.PATCH, then the identifiers, then the build metadata. */
  function Version(a: nat, b: nat, c: nat, pre: seq<Identifier>, build: Option<string>): string {
    MainText(a, b, c, pre) + if build.Some? then ['+'] + build.value else ""
  }

  lemma NumeralHas(n: nat)
    ensures '.' !in PrintNat(n) && '-' !in PrintNat(n) && '+' !in PrintNat(n)
  {
    ParsePrint(n);
  }

  /** The first number is MAJOR, the second MINOR, the third PATCH. */
  lemma CoreReads(a: nat, b: nat, c: nat)
    ensures CoreSyntax(CoreText(a, b, c)) && CoreNumbers(CoreText(a, b, c)) == [a, b, c]
  {
    NumeralHas(a);
    NumeralHas(b);
    NumeralHas(c);
    ParsePrint(a);
    ParsePrint(b);
    ParsePrint(c);
    SplitPiece(PrintNat(a), '.');
    SplitPiece(PrintNat(b), '.');
    SplitPiece(PrintNat(c), '.');
    SplitConcat(PrintNat(b), '.', PrintNat(c));
    SplitConcat(PrintNat(a), '.', PrintNat(b) + ['.'] + PrintNat(c));
    assert Split(CoreText(a, b, c), '.') == [PrintNat(a), PrintNat(b), PrintNat(c)];
  }

  lemma MainReads(a: nat, b: nat, c: nat, pre: seq<Identifier>)
    ensures MainSyntax(MainText(a, b, c, pre)) && MainParts(MainText(a, b, c, pre)) == Parts([a, b, c], pre)
  {
    hide CoreSyntax, CoreNumbers, PrereleaseSyntax, CoreText;
    CoreReads(a, b, c);
    var core := CoreText(a, b, c);
    CoreHasNoMark(core, '-');
    if pre == [] {
      PartitionParts(core, '-');
    } else {
      PartitionOf(core, '-', Join(pre, '.'));
      PrereleaseReads(pre);
    }
  }

  lemma PrereleaseReads(pre: seq<Identifier>)
    requires pre != []
    ensures Split(Join(pre, '.'), '.') == pre && PrereleaseSyntax(Join(pre, '.'))
  {
    forall i | 0 <= i < |pre| ensures '.' !in pre[i] && IsIdentifier(pre[i]) {}
    SplitOfJoin(pre, '.');
    SplitAllPieces(pre, '.');
  }

  /** What is written is read back: numbers in their places, identifiers in order, build metadata dropped. */
  lemma VersionReads(a: nat, b: nat, c: nat, pre: seq<Identifier>, build: Option<string>)
    requires build.Some? ==> BuildSyntax(build.value)
    ensures SemanticSyntax(Version(a, b, c, pre, build))
    ensures PartsOf(Version(a, b, c, pre, build)) == Parts([a, b, c], pre)
    ensures '+' in Version(a, b, c, pre, build) <==> build.Some?
  {
    hide MainSyntax, MainParts, BuildSyntax, MainText;
    var main := MainText(a, b, c, pre);
    MainReads(a, b, c, pre);
    MainHasNoPlus(main);
    if build.Some? {
      PartitionOf(main, '+', build.value);
      assert Version(a, b, c, pre, build) == main + ['+'] + build.value;
    } else {
      PartitionParts(main, '+');
      assert Version(a, b, c, pre, build) == main;
    }
  }

  /** Every version is written so. */
  lemma VersionIsText(s: string)
    requires SemanticSyntax(s)
    ensures var p := PartsOf(s);
            s == Version(p.core[0], p.core[1], p.core[2], p.prerelease,
                         if '+' in s then Some(After(s, '+')) else None)
  {
    hide MainSyntax, MainParts, BuildSyntax, MainText, Before, After;
    MainIsText(MainPart(s));
    PartitionParts(s, '+');
    if '+' in s { assert s == MainPart(s) + (['+'] + After(s, '+')); }
  }

  lemma MainIsText(s: string)
    requires MainSyntax(s)
    ensures var p := MainParts(s); s == MainText(p.core[0], p.core[1], p.core[2], p.prerelease)
  {
    hide MainSyntax, MainParts, MainText;
    var p := MainParts(s);
    MainReads(p.core[0], p.core[1], p.core[2], p.prerelease);
    assert [p.core[0], p.core[1], p.core[2]] == p.core;
    MainPartsInjective(s, MainText(p.core[0], p.core[1], p.core[2], p.prerelease));
  }

  // ---------------------------------------------------------------- the order, read off the parts

  /** The sign of a comparison of two numbers. */
  function Sign(a: nat, b: nat): int { if a < b then -1 else if a > b then 1 else 0 }

  /** Of two numerals the longer is larger, and of two that are equally long the one that sorts later. */
  function NumeralSign(i: string, j: string): int {
    if |i| != |j| then Sign(|i|, |j|) else TextSign(i, j)
  }

  function TextSign(i: string, j: string): int { if Less(i, j) then -1 else if Less(j, i) then 1 else 0 }

  /** Numerals come before words. */
  function IdentifierSign(i: Identifier, j: Identifier): int {
    if AllDigits(i) && AllDigits(j) then NumeralSign(i, j)
    else if AllDigits(i) then -1
    else if AllDigits(j) then 1
    else TextSign(i, j)
  }

  /** Position by position; what ends first is lower. */
  function IdentifiersSign(p: seq<Identifier>, q: seq<Identifier>): int {
    if p == [] && q == [] then 0
    else if p == [] then -1
    else if q == [] then 1
    else if p[0] == q[0] then IdentifiersSign(p[1..], q[1..])
    else IdentifierSign(p[0], q[0])
  }

  /** A version without a prerelease is above its prereleases. */
  function PrereleaseSign(p: seq<Identifier>, q: seq<Identifier>): int {
    if p == [] && q == [] then 0
    else if p == [] then 1
    else if q == [] then -1
    else IdentifiersSign(p, q)
  }

  lemma NumeralOrder(i: string, j: string)
    requires Canonical(i) && Canonical(j)
    ensures Sign(ParseNat(i), ParseNat(j)) == NumeralSign(i, j)
  {
    LessOrder();
    if |i| < |j| {
      ShorterIsSmaller(i, j);
    } else if |i| > |j| {
      ShorterIsSmaller(j, i);
    } else {
      EquallyLong(i, j);
      EquallyLong(j, i);
    }
  }

  lemma {:induction false} NumeralBounds(s: string)
    requires AllDigits(s)
    ensures ParseNat(s) < Power10(|s|)
    ensures s[0] != '0' ==> ParseNat(s) >= Power10(|s| - 1)
  {
    if |s| > 1 { NumeralBounds(s[..|s| - 1]); }
  }

  lemma {:induction false} Power10Grows(m: nat, n: nat)
    requires m <= n
    ensures Power10(m) <= Power10(n)
    decreases n - m
  {
    if m < n { Power10Grows(m, n - 1); }
  }

  lemma ShorterIsSmaller(i: string, j: string)
    requires AllDigits(i) && Canonical(j) && |i| < |j|
    ensures ParseNat(i) < ParseNat(j)
  {
    NumeralBounds(i);
    NumeralBounds(j);
    Power10Grows(|i|, |j| - 1);
  }

  lemma {:induction false} EquallyLong(i: string, j: string)
    requires AllDigits(i) && AllDigits(j) && |i| == |j|
    ensures Less(i, j) <==> ParseNat(i) < ParseNat(j)
    decreases |i|
  {
    var n := |i| - 1;
    LessOrder();
    LessBySteps(i, j);
    if n > 0 {
      EquallyLong(i[..n], j[..n]);
      EquallyLong(j[..n], i[..n]);
    }
  }

  /** Of two equally long texts the fronts decide, and then the last characters. */
  lemma {:induction false} LessBySteps(i: string, j: string)
    requires |i| == |j| > 0
    ensures var n := |i| - 1; Less(i, j) <==> Less(i[..n], j[..n]) || (i[..n] == j[..n] && i[n] < j[n])
  {
    var n := |i| - 1;
    if n > 0 {
      LessBySteps(i[1..], j[1..]);
      assert i[1..][..n - 1] == i[..n][1..] && j[1..][..n - 1] == j[..n][1..];
      assert i[..n] == [i[0]] + i[..n][1..] && j[..n] == [j[0]] + j[..n][1..];
    }
  }

  lemma IdentifierSignIs(i: Identifier, j: Identifier)
    requires i != j
    ensures IdentifierSign(i, j) == if IdentifierLess(i, j) then -1 else 1
  {
    LessOrder();
    if AllDigits(i) && AllDigits(j) {
      NumeralOrder(i, j);
      if ParseNat(i) == ParseNat(j) { ParseInjective(i, j); }
    }
  }

  /** The first position where two lists differ decides. */
  lemma LexFirst<T(!new)>(less: (T, T) -> bool, xs: seq<T>, ys: seq<T>)
    requires StrictTotalOrder(less)
    ensures ys == [] ==> !LexLess(less, xs, ys)
    ensures xs == [] && ys != [] ==> LexLess(less, xs, ys)
    ensures xs != [] && ys != [] && xs[0] != ys[0] ==> (LexLess(less, xs, ys) <==> less(xs[0], ys[0]))
    ensures xs != [] && ys != [] && xs[0] == ys[0] ==> (LexLess(less, xs, ys) <==> LexLess(less, xs[1..], ys[1..]))
  {
    if xs == [] && ys != [] { assert DecidedAt(less, xs, ys, 0); }
    if xs != [] && ys != [] {
      if xs[0] != ys[0] {
        if less(xs[0], ys[0]) { assert DecidedAt(less, xs, ys, 0); }
        forall i: nat | DecidedAt(less, xs, ys, i) ensures i == 0 {
          if i > 0 { DecidedShareHead(less, xs, ys, i); }
        }
      } else {
        if LexLess(less, xs[1..], ys[1..]) { LexCons(less, xs, ys); }
        if LexLess(less, xs, ys) { LexTail(less, xs, ys); }
      }
    }
  }

  lemma LexTail<T(!new)>(less: (T, T) -> bool, xs: seq<T>, ys: seq<T>)
    requires StrictTotalOrder(less) && xs != [] && ys != [] && xs[0] == ys[0] && LexLess(less, xs, ys)
    ensures LexLess(less, xs[1..], ys[1..])
  {
    var i: nat :| DecidedAt(less, xs, ys, i);
    assert xs[1..][..i - 1] == xs[..i][1..] == ys[..i][1..] == ys[1..][..i - 1];
    assert DecidedAt(less, xs[1..], ys[1..], i - 1);
  }

  lemma {:induction false} IdentifiersSignIs(p: seq<Identifier>, q: seq<Identifier>)
    ensures IdentifiersSign(p, q) ==
            if p == q then 0 else if LexLess(IdentifierLess, p, q) then -1 else 1
  {
    IdentifierOrder();
    LexFirst(IdentifierLess, p, q);
    if p != [] && q != [] {
      if p[0] == q[0] {
        IdentifiersSignIs(p[1..], q[1..]);
        assert p == [p[0]] + p[1..] && q == [q[0]] + q[1..];
      } else {
        IdentifierSignIs(p[0], q[0]);
      }
    }
  }

  lemma NumbersLess(a: nat, b: nat, c: nat, x: nat, y: nat, z: nat)
    ensures LexLess(NatLess, [a, b, c], [x, y, z]) <==> a < x || (a == x && (b < y || (b == y && c < z)))
  {
    hide LexLess;
    NatOrder();
    LexFirst(NatLess, [a, b, c], [x, y, z]);
    LexFirst(NatLess, [b, c], [y, z]);
    LexFirst(NatLess, [c], [z]);
    LexFirst<nat>(NatLess, [], []);
    assert [a, b, c][1..] == [b, c] && [b, c][1..] == [c] && [c][1..] == [];
    assert [x, y, z][1..] == [y, z] && [y, z][1..] == [z] && [z][1..] == [];
  }

  /** Precedence, number by number and then identifier by identifier. */
  lemma OrderIs(a: nat, b: nat, c: nat, p: seq<Identifier>, x: nat, y: nat, z: nat, q: seq<Identifier>)
    ensures Order(Parts([a, b, c], p), Parts([x, y, z], q)) ==
            if a != x then Sign(a, x)
            else if b != y then Sign(b, y)
            else if c != z then Sign(c, z)
            else PrereleaseSign(p, q)
  {
    hide LexLess, IdentifiersSign;
    NumbersLess(a, b, c, x, y, z);
    NumbersLess(x, y, z, a, b, c);
    IdentifiersSignIs(p, q);
    IdentifiersSignIs(q, p);
    IdentifierOrder();
    LexAsymmetric(IdentifierLess, p, q);
    LexTotal(IdentifierLess, p, q);
    assert [a, b, c] == [x, y, z] <==> [a, b, c][0] == x && [a, b, c][1] == y && [a, b, c][2] == z;
  }

  /** The same for the texts, whatever their build metadata. */
  lemma TextOrder(a: nat, b: nat, c: nat, p: seq<Identifier>, m: Option<string>,
                  x: nat, y: nat, z: nat, q: seq<Identifier>, n: Option<string>)
    requires (m.Some? ==> BuildSyntax(m.value)) && (n.Some? ==> BuildSyntax(n.value))
    ensures SemanticSyntax(Version(a, b, c, p, m)) && SemanticSyntax(Version(x, y, z, q, n))
    ensures Order(PartsOf(Version(a, b, c, p, m)), PartsOf(Version(x, y, z, q, n))) ==
            if a != x then Sign(a, x)
            else if b != y then Sign(b, y)
            else if c != z then Sign(c, z)
            else PrereleaseSign(p, q)
  {
    hide SemanticSyntax, PartsOf, Version, BuildSyntax, Order, PrereleaseSign;
    VersionReads(a, b, c, p, m);
    VersionReads(x, y, z, q, n);
    OrderIs(a, b, c, p, x, y, z, q);
  }
}
