/** Semantic Versioning 2.0.0: the accepted strings and the order of section 11. */
module SemVer {
  import opened Text

  // ---------------------------------------------------------------- grammar

  predicate IsIdentifierChar(c: char) {
    IsDigit(c) || 'a' <= c <= 'z' || 'A' <= c <= 'Z' || c == '-'
  }

  /** ASCII letters, digits and the hyphen, by their codes. */
  lemma IdentifierAlphabet(c: char)
    ensures IsIdentifierChar(c) <==>
            48 <= c as int <= 57 || 65 <= c as int <= 90 || 97 <= c as int <= 122 || c as int == 45
  {
  }

  predicate IdentifierChars(s: string) {
    s != "" && forall i :: 0 <= i < |s| ==> IsIdentifierChar(s[i])
  }

  /** A prerelease identifier; a numeric one has no leading zero. */
  predicate IsIdentifier(s: string) { IdentifierChars(s) && (AllDigits(s) ==> Canonical(s)) }

  type Identifier = s: string | IsIdentifier(s) witness "0"

  /** `MAJOR.MINOR.PATCH` */
  predicate CoreSyntax(s: string) {
    var parts := Split(s, '.');
    |parts| == 3 && forall i :: 0 <= i < 3 ==> Canonical(parts[i])
  }

  predicate PrereleaseSyntax(s: string) {
    var ids := Split(s, '.');
    forall i :: 0 <= i < |ids| ==> IsIdentifier(ids[i])
  }

  predicate BuildSyntax(s: string) {
    var ids := Split(s, '.');
    forall i :: 0 <= i < |ids| ==> IdentifierChars(ids[i])
  }

  /** What is left when the build metadata is dropped. */
  function MainPart(s: string): string { Before(s, '+') }

  /** A version without build metadata. */
  predicate MainSyntax(s: string) {
    CoreSyntax(Before(s, '-')) && ('-' in s ==> PrereleaseSyntax(After(s, '-')))
  }

  predicate SemanticSyntax(s: string) {
    MainSyntax(MainPart(s)) && ('+' in s ==> BuildSyntax(After(s, '+')))
  }

  /** parseSemanticPluginVersion: the syntax and its length limit. */
  predicate ValidVersion(s: string) { |s| <= 128 && SemanticSyntax(s) }

  /** parseReleaseVersion: new releases carry no build metadata. */
  predicate ValidRelease(s: string) { ValidVersion(s) && '+' !in s }

  // ---------------------------------------------------------------- section 11

  datatype Parts = Parts(core: seq<nat>, prerelease: seq<Identifier>)

  function CoreNumbers(s: string): (r: seq<nat>)
    requires CoreSyntax(s)
    ensures |r| == 3
  {
    var parts := Split(s, '.');
    [ParseNat(parts[0]), ParseNat(parts[1]), ParseNat(parts[2])]
  }

  /** The two precedence-bearing parts; no identifiers at all for a version that is not a prerelease. */
  function MainParts(s: string): (r: Parts)
    requires MainSyntax(s)
    ensures |r.core| == 3
  {
    Parts(CoreNumbers(Before(s, '-')), if '-' in s then Split(After(s, '-'), '.') else [])
  }

  function PartsOf(s: string): (r: Parts)
    requires SemanticSyntax(s)
    ensures |r.core| == 3
  {
    MainParts(MainPart(s))
  }

  ghost const NatLess: (nat, nat) -> bool := (a, b) => a < b

  /** Numeric identifiers compare as numbers and are below all others, which compare as text. */
  ghost predicate IdentifierLess(a: Identifier, b: Identifier) {
    if AllDigits(a) && AllDigits(b) then ParseNat(a) < ParseNat(b)
    else if AllDigits(a) != AllDigits(b) then AllDigits(a)
    else Less(a, b)
  }

  ghost predicate PrereleaseLess(a: seq<Identifier>, b: seq<Identifier>) {
    a != [] && (b == [] || LexLess(IdentifierLess, a, b))
  }

  /** `a` has lower precedence than `b`. */
  ghost predicate Precedes(a: Parts, b: Parts) {
    LexLess(NatLess, a.core, b.core) || (a.core == b.core && PrereleaseLess(a.prerelease, b.prerelease))
  }

  /** The sign of a comparison: negative, zero or positive. */
  ghost function Order(a: Parts, b: Parts): int {
    if Precedes(a, b) then -1 else if Precedes(b, a) then 1 else 0
  }

  // ---------------------------------------------------------------- it is a strict total order

  lemma NatOrder()
    ensures StrictTotalOrder(NatLess)
  {
  }

  lemma IdentifierOrder()
    ensures StrictTotalOrder(IdentifierLess)
  {
    LessOrder();
    forall a: Identifier, b: Identifier ensures a == b || IdentifierLess(a, b) || IdentifierLess(b, a) {
      if AllDigits(a) && AllDigits(b) && ParseNat(a) == ParseNat(b) {
        ParseInjective(a, b);
      }
    }
  }

  /** Transitive, irreflexive and total on the precedence-bearing parts. */
  lemma PrecedesOrder()
    ensures StrictTotalOrder(Precedes)
  {
    NatOrder();
    IdentifierOrder();
    LexStrictTotalOrder(NatLess);
    LexStrictTotalOrder(IdentifierLess);
    var cores := (a: seq<nat>, b: seq<nat>) => LexLess(NatLess, a, b);
    var ids := (a: seq<Identifier>, b: seq<Identifier>) => LexLess(IdentifierLess, a, b);
    forall a: Parts ensures !Precedes(a, a) {
      assert !cores(a.core, a.core) && !ids(a.prerelease, a.prerelease);
    }
    forall a: Parts, b: Parts, c: Parts | Precedes(a, b) && Precedes(b, c) ensures Precedes(a, c) {
      assert cores(a.core, b.core) && cores(b.core, c.core) ==> cores(a.core, c.core);
      assert ids(a.prerelease, b.prerelease) && ids(b.prerelease, c.prerelease)
        ==> ids(a.prerelease, c.prerelease);
    }
    forall a: Parts, b: Parts ensures a == b || Precedes(a, b) || Precedes(b, a) {
      assert a.core == b.core || cores(a.core, b.core) || cores(b.core, a.core);
      assert a.prerelease == b.prerelease || ids(a.prerelease, b.prerelease) || ids(b.prerelease, a.prerelease);
    }
  }

  lemma CoreNumbersInjective(a: string, b: string)
    requires CoreSyntax(a) && CoreSyntax(b) && CoreNumbers(a) == CoreNumbers(b)
    ensures a == b
  {
    var x, y := Split(a, '.'), Split(b, '.');
    forall i | 0 <= i < 3 ensures x[i] == y[i] {
      assert ParseNat(x[i]) == CoreNumbers(a)[i] == CoreNumbers(b)[i] == ParseNat(y[i]);
      ParseInjective(x[i], y[i]);
    }
    SplitInjective(a, b, '.');
  }

  /** The parts determine the text in front of the build metadata. */
  lemma MainPartsInjective(a: string, b: string)
    requires MainSyntax(a) && MainSyntax(b) && MainParts(a) == MainParts(b)
    ensures a == b
  {
    CoreNumbersInjective(Before(a, '-'), Before(b, '-'));
    PartitionParts(a, '-');
    PartitionParts(b, '-');
    if '-' in a && '-' in b {
      SplitInjective(After(a, '-'), After(b, '-'), '.');
    }
  }

  /** Zero exactly when the two versions differ in nothing but build metadata. */
  lemma OrderZero(a: string, b: string)
    requires SemanticSyntax(a) && SemanticSyntax(b)
    ensures Order(PartsOf(a), PartsOf(b)) == 0 <==> MainPart(a) == MainPart(b)
  {
    PrecedesOrder();
    if Order(PartsOf(a), PartsOf(b)) == 0 {
      assert PartsOf(a) == PartsOf(b);
      MainPartsInjective(MainPart(a), MainPart(b));
    }
  }

  /** Swapping the arguments flips the sign. */
  lemma OrderAntisymmetric(a: Parts, b: Parts)
    ensures Order(b, a) == -Order(a, b)
  {
    PrecedesOrder();
    assert Precedes(a, b) && Precedes(b, a) ==> Precedes(a, a);
  }

  /** A chain of comparisons carries its sign, strictly as soon as one link is strict. */
  lemma OrderTransitive(a: Parts, b: Parts, c: Parts)
    requires Order(a, b) <= 0 && Order(b, c) <= 0
    ensures Order(a, c) <= 0
    ensures Order(a, c) == 0 <==> Order(a, b) == 0 && Order(b, c) == 0
  {
    PrecedesOrder();
    OrderAntisymmetric(a, b);
    OrderAntisymmetric(b, c);
    assert Order(a, b) == 0 ==> a == b;
    assert Order(b, c) == 0 ==> b == c;
    OrderAntisymmetric(a, c);
    if Precedes(a, b) && Precedes(b, c) {
      assert Precedes(a, c);
    }
  }
}
