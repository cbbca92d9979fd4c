/** Which hosts a package accepts, as sets of versions ordered by precedence. */
module HostCompatibility {
  import opened Text
  import opened SemVer
  import opened Precedence
  import opened Identity
  import opened PluginOrder
  import opened VersionText

  const DEVELOPMENT_VERSION := "0.0.0-dev"

  /** isDevelopmentPluginVersion: the sentinel, possibly numbered. */
  predicate IsDevelopment(version: string) {
    || version == DEVELOPMENT_VERSION
    || (DEVELOPMENT_VERSION + "." <= version && Canonical(version[|DEVELOPMENT_VERSION| + 1..]))
  }

  /** `replace(/^v/u, "")` */
  function StripV(s: string): string { if s != "" && s[0] == 'v' then s[1..] else s }

  /** isPrereleaseVersion, for a valid version. */
  predicate IsPrerelease(version: string) { '-' in MainPart(version) }

  ghost function CompareDesktop(left: string, right: string): Result<int> {
    CompareSemantic(StripV(left), StripV(right))
  }

  ghost function SignOf(left: seq<nat>, right: seq<nat>): int {
    if LexLess(NatLess, left, right) then -1 else if LexLess(NatLess, right, left) then 1 else 0
  }

  /** compareLegacyDesktopReleases: API 3 packages may require a minimum build number. */
  ghost function CompareLegacy(left: string, right: string): Result<int> {
    var host := "v" + StripV(left);
    if DesktopSyntax(host) && DesktopSyntax(right) then
      match (ReleaseParts(host), ReleaseParts(right))
      case (Ok(l), Ok(r)) => Ok(SignOf(l, r))
      case _ => Error
    else
      match CompareDesktop(left, right)
      case Error => Error
      case Ok(order) =>
        if order != 0 then Ok(order)
        else match ReleaseParts(right) case Error => Error case Ok(r) => Ok(if r[3] > 0 then -1 else 0)
  }

  /** isPluginCompatibleWithHost */
  ghost function IsCompatible(m: Manifest, release: string): Result<bool> {
    var version := StripV(release);
    if IsDevelopment(version) || IsDevelopment(m.version) then
      Ok(version == DEVELOPMENT_VERSION && IsDevelopment(m.version) && m.apiVersion == 4)
    else if m.apiVersion == 2 then Ok(true)
    else if m.compatibility.None? then Ok(false)
    else
      var host := m.compatibility.value;
      if m.apiVersion == 3 then
        match CompareLegacy(release, host.minimum) case Error => Error case Ok(order) => Ok(order >= 0)
      else if !ValidVersion(version) then Error
      else if IsPrerelease(version) && !ValidVersion(host.minimum) then Error
      else if IsPrerelease(version)
              && (!IsPrerelease(host.minimum) || Before(version, '-') != Before(host.minimum, '-'))
      then Ok(false)
      else if host.maximumExclusive.None? then Ok(false)
      else
        match CompareDesktop(release, host.minimum)
        case Error => Error
        case Ok(low) =>
          if low < 0 then Ok(false)
          else match CompareDesktop(release, host.maximumExclusive.value)
               case Error => Error
               case Ok(high) => Ok(high < 0)
  }

  /** A package as the manifest parser produces it, and not a development build. */
  ghost predicate Published(m: Manifest) {
    && m.apiVersion >= 3 && m.compatibility.Some? && ValidCompatibility(m.compatibility.value, m.apiVersion)
    && !IsDevelopment(m.version)
  }

  /** A released host version. */
  ghost predicate Host(version: string) { ValidVersion(version) && !IsDevelopment(version) }

  lemma NoLeadingV(s: string)
    requires SemanticSyntax(s)
    ensures StripV(s) == s && StripV("v" + s) == s && s != ""
  {
    MainHasNoPlus(MainPart(s));
    var core := Before(MainPart(s), '-');
    JoinSplit(core, '.');
    assert s != "" ==> core != "" ==> core[0] == s[0];
    assert Split(core, '.')[0] != "";
  }

  /** What comes before the first hyphen is the same with and without the build metadata. */
  lemma CoreOfMain(s: string)
    ensures '-' in MainPart(s) ==> Before(s, '-') == Before(MainPart(s), '-')
  {
    var main := MainPart(s);
    PartitionParts(s, '+');
    if '-' in main && '+' in s {
      PartitionParts(main, '-');
      var core, rest := Before(main, '-'), After(main, '-') + ['+'] + After(s, '+');
      assert s == core + ['-'] + rest by {
        assert main == core + ['-'] + After(main, '-');
      }
      PartitionOf(core, '-', rest);
    }
  }

  /** The text comparison of two cores decides whether their numbers agree. */
  lemma SameCore(s: string, t: string)
    requires SemanticSyntax(s) && SemanticSyntax(t) && IsPrerelease(s) && IsPrerelease(t)
    ensures Before(s, '-') == Before(t, '-') <==> PartsOf(s).core == PartsOf(t).core
  {
    hide PrereleaseSyntax, Before, After, Split;
    CoreOfMain(s);
    CoreOfMain(t);
    if PartsOf(s).core == PartsOf(t).core {
      CoreNumbersInjective(Before(MainPart(s), '-'), Before(MainPart(t), '-'));
    }
  }

  /** Stable hosts are accepted exactly on `[minimum, maximumExclusive)`. */
  lemma StableHostsFormInterval(m: Manifest, version: string)
    requires Published(m) && m.apiVersion == 4 && Host(version) && !IsPrerelease(version)
    ensures var c := m.compatibility.value;
            IsCompatible(m, "v" + version) == Ok(
              && !Precedes(PartsOf(version), PartsOf(c.minimum))
              && Precedes(PartsOf(version), PartsOf(c.maximumExclusive.value)))
  {
    var c := m.compatibility.value;
    NoLeadingV(version);
    NoLeadingV(c.minimum);
    NoLeadingV(c.maximumExclusive.value);
    PrecedesOrder();
  }

  /** Preview hosts are accepted only next to a preview minimum, and then exactly from it on within its core. */
  lemma PreviewHostsStayInCore(m: Manifest, version: string)
    requires Published(m) && m.apiVersion == 4 && Host(version) && IsPrerelease(version)
    ensures var c := m.compatibility.value;
            IsCompatible(m, "v" + version) == Ok(
              && IsPrerelease(c.minimum)
              && PartsOf(version).core == PartsOf(c.minimum).core
              && !Precedes(PartsOf(version), PartsOf(c.minimum))
              && Precedes(PartsOf(version), PartsOf(c.maximumExclusive.value)))
  {
    hide Precedes, SemanticSyntax, PartsOf, Before, MainPart;
    var c := m.compatibility.value;
    NoLeadingV(version);
    NoLeadingV(c.minimum);
    NoLeadingV(c.maximumExclusive.value);
    PrecedesOrder();
    if IsPrerelease(c.minimum) { SameCore(version, c.minimum); }
  }

  /** Neither set has a gap: whatever lies between two accepted hosts of the same kind is accepted. */
  lemma AcceptedHostsConvex(m: Manifest, low: string, middle: string, high: string)
    requires Published(m) && m.apiVersion == 4
    requires Host(low) && Host(middle) && Host(high)
    requires IsPrerelease(low) == IsPrerelease(middle) == IsPrerelease(high)
    requires Order(PartsOf(low), PartsOf(middle)) <= 0 && Order(PartsOf(middle), PartsOf(high)) <= 0
    requires IsCompatible(m, "v" + low) == Ok(true) && IsCompatible(m, "v" + high) == Ok(true)
    ensures IsCompatible(m, "v" + middle) == Ok(true)
  {
    var c := m.compatibility.value;
    var l, x, h, min, max := PartsOf(low), PartsOf(middle), PartsOf(high), PartsOf(c.minimum),
      PartsOf(c.maximumExclusive.value);
    if IsPrerelease(low) {
      PreviewHostsStayInCore(m, low);
      PreviewHostsStayInCore(m, middle);
      PreviewHostsStayInCore(m, high);
      assert l.core == h.core;
      CoreBetween(l, x, h);
    } else {
      StableHostsFormInterval(m, low);
      StableHostsFormInterval(m, middle);
      StableHostsFormInterval(m, high);
    }
    OrderAntisymmetric(l, min);
    OrderTransitive(min, l, x);
    OrderAntisymmetric(min, x);
    Between(x, h, max);
  }

  lemma Between(x: Parts, h: Parts, max: Parts)
    requires Order(x, h) <= 0 && Precedes(h, max)
    ensures Precedes(x, max)
  {
    OrderTransitive(x, h, max);
  }

  lemma CoreBetween(l: Parts, x: Parts, h: Parts)
    requires l.core == h.core && Order(l, x) <= 0 && Order(x, h) <= 0
    ensures x.core == l.core
  {
    PrecedesOrder();
    NatOrder();
    assert !Precedes(x, l) || l == x by { OrderAntisymmetric(l, x); }
    assert !Precedes(h, x) || h == x by { OrderAntisymmetric(x, h); }
    LexTotal(NatLess, x.core, l.core);
  }

  /**
   * API 3 acceptance is upward closed under strictly higher precedence. The one host that breaks it
   * is a desktop release of exactly 128 characters: with its `v` it exceeds the length limit and throws.
   */
  lemma LegacyAcceptanceUpwardClosed(m: Manifest, low: string, high: string)
    requires Published(m) && m.apiVersion == 3 && Host(low) && Host(high)
    requires IsCompatible(m, "v" + low) == Ok(true)
    requires Precedes(PartsOf(low), PartsOf(high))
    ensures IsCompatible(m, "v" + high) ==
            if |high| == 128 && DesktopSyntax("v" + high) then Error else Ok(true)
  {
    var right := m.compatibility.value.minimum;
    NoLeadingV(low);
    NoLeadingV(high);
    DesktopIsSemantic(right);
    var min := PartsOf(StripV(right));
    LegacyAtLeastMinimum(low, right);
    Between(min, PartsOf(low), PartsOf(high));
    LegacyAboveMinimum(high, right);
  }

  lemma DesktopIsSemantic(s: string)
    requires DesktopSyntax(s)
    ensures SemanticSyntax(s[1..]) && !IsPrerelease(s[1..])
    ensures PartsOf(s[1..]) == Parts(CoreNumbers(Before(s[1..], '+')), [])
  {
    var t := s[1..];
    CoreHasNoMark(Before(t, '+'), '-');
    PartitionParts(Before(t, '+'), '-');
    if '+' in t { DesktopBuild(After(t, '+')); }
  }

  lemma DesktopBuild(build: string)
    requires "build." <= build && PositiveNumeral(build[6..])
    ensures BuildSyntax(build)
  {
    var digits := build[6..];
    SplitPiece("build", '.');
    assert '.' !in digits;
    SplitPiece(digits, '.');
    assert build == "build" + ['.'] + digits by { assert build == build[..6] + build[6..]; }
    SplitConcat("build", '.', digits);
  }

  lemma CoreAndBuild(l: seq<nat>, r: seq<nat>, p: nat, q: nat)
    requires |l| == |r|
    ensures LexLess(NatLess, l, r) ==> LexLess(NatLess, l + [p], r + [q])
    ensures LexLess(NatLess, l + [p], r + [q]) ==> LexLess(NatLess, l, r) || l == r
  {
    if LexLess(NatLess, l, r) {
      var i: nat :| DecidedAt(NatLess, l, r, i);
      assert (l + [p])[..i] == l[..i] && (r + [q])[..i] == r[..i];
      assert DecidedAt(NatLess, l + [p], r + [q], i);
    }
    if LexLess(NatLess, l + [p], r + [q]) {
      var i: nat :| DecidedAt(NatLess, l + [p], r + [q], i);
      assert i <= |l| ==> (l + [p])[..i] == l[..i] && (r + [q])[..i] == r[..i];
      assert i < |l| ==> DecidedAt(NatLess, l, r, i);
    }
  }

  lemma LegacyAtLeastMinimum(version: string, right: string)
    requires ValidVersion(version) && ReleaseParts(right).Ok?
    requires CompareLegacy("v" + version, right).Ok? && CompareLegacy("v" + version, right).value >= 0
    ensures SemanticSyntax(StripV(right)) && Order(PartsOf(StripV(right)), PartsOf(version)) <= 0
  {
    NoLeadingV(version);
    DesktopIsSemantic(right);
    var host := "v" + version;
    assert host[1..] == version;
    OrderAntisymmetric(PartsOf(StripV(right)), PartsOf(version));
    if DesktopSyntax(host) {
      DesktopIsSemantic(host);
      var l, r := PartsOf(version).core, PartsOf(right[1..]).core;
      CoreAndBuild(l, r, ReleaseParts(host).value[3], ReleaseParts(right).value[3]);
      NatOrder();
      LexTotal(NatLess, l, r);
      PrecedesOrder();
    }
  }

  lemma LegacyAboveMinimum(version: string, right: string)
    requires ValidVersion(version) && ReleaseParts(right).Ok? && SemanticSyntax(StripV(right))
    requires Precedes(PartsOf(StripV(right)), PartsOf(version))
    ensures CompareLegacy("v" + version, right) ==
            if |version| == 128 && DesktopSyntax("v" + version) then Error else Ok(1)
  {
    NoLeadingV(version);
    DesktopIsSemantic(right);
    OrderAntisymmetric(PartsOf(StripV(right)), PartsOf(version));
    var host := "v" + version;
    assert host[1..] == version;
    if DesktopSyntax(host) && |version| < 128 {
      DesktopIsSemantic(host);
      var l, r := PartsOf(version).core, PartsOf(right[1..]).core;
      CoreAndBuild(r, l, ReleaseParts(right).value[3], ReleaseParts(host).value[3]);
      NatOrder();
      LexAsymmetric(NatLess, ReleaseParts(right).value, ReleaseParts(host).value);
    }
  }

  // ---------------------------------------------------------------- every answer, for every host text

  /** Only the text without its `v` counts. */
  lemma OnlyStripped(m: Manifest, release: string)
    ensures IsCompatible(m, release) == IsCompatible(m, "v" + StripV(release))
  {
    assert StripV("v" + StripV(release)) == StripV(release);
  }

  /** The sentinel, or the sentinel with a number after it. */
  lemma DevelopmentIs(version: string)
    ensures IsDevelopment(version) <==>
            version == "0.0.0-dev" || exists n: nat :: version == "0.0.0-dev." + PrintNat(n)
  {
    if IsDevelopment(version) && version != "0.0.0-dev" {
      PrintParse(version[10..]);
      assert version == "0.0.0-dev." + PrintNat(ParseNat(version[10..]));
    }
    if n: nat :| version == "0.0.0-dev." + PrintNat(n) {
      ParsePrint(n);
      assert version[10..] == PrintNat(n);
    }
  }

  /** A development build fits only the development host, and only with API 4. */
  lemma DevelopmentAnswers(m: Manifest, release: string)
    requires IsDevelopment(StripV(release)) || IsDevelopment(m.version)
    ensures IsCompatible(m, release) ==
            Ok(release in {"0.0.0-dev", "v0.0.0-dev"} && IsDevelopment(m.version) && m.apiVersion == 4)
  {
    assert "v" + "0.0.0-dev" == "v0.0.0-dev" && "v0.0.0-dev"[1..] == "0.0.0-dev";
    if release != "" && release[0] == 'v' { assert release == "v" + release[1..]; }
  }

  /** API 2 fits every other host; a later package without a declaration fits none. */
  lemma UndeclaredAnswers(m: Manifest, release: string)
    requires !IsDevelopment(StripV(release)) && !IsDevelopment(m.version)
    ensures m.apiVersion == 2 ==> IsCompatible(m, release) == Ok(true)
    ensures m.apiVersion >= 3 && m.compatibility.None? ==> IsCompatible(m, release) == Ok(false)
  {
  }

  /** The text of a desktop release: build number 0 stands for none. */
  function ReleaseText(a: nat, b: nat, c: nat, n: nat): string {
    "v" + (CoreText(a, b, c) + if n == 0 then "" else ['+'] + ("build." + PrintNat(n)))
  }

  /** Numbers and build number are read in their places. */
  lemma ReleaseReads(a: nat, b: nat, c: nat, n: nat)
    ensures DesktopSyntax(ReleaseText(a, b, c, n))
    ensures |ReleaseText(a, b, c, n)| <= 128 ==> ReleaseParts(ReleaseText(a, b, c, n)) == Ok([a, b, c, n])
  {
    hide CoreSyntax, CoreNumbers, CoreText;
    CoreReads(a, b, c);
    CoreHasNoMark(CoreText(a, b, c), '+');
    var s := ReleaseText(a, b, c, n);
    assert [a, b, c] + [n] == [a, b, c, n];
    if n == 0 {
      PartitionParts(CoreText(a, b, c), '+');
      assert s[1..] == CoreText(a, b, c) && '+' !in s;
    } else {
      PartitionOf(CoreText(a, b, c), '+', "build." + PrintNat(n));
      assert s[1..] == CoreText(a, b, c) + ['+'] + ("build." + PrintNat(n));
      ParsePrint(n);
      assert ("build." + PrintNat(n))[6..] == PrintNat(n);
    }
  }

  /** The desktop releases are exactly these texts. */
  lemma DesktopIsText(s: string)
    ensures DesktopSyntax(s) <==> exists a: nat, b: nat, c: nat, n: nat :: s == ReleaseText(a, b, c, n)
  {
    if DesktopSyntax(s) {
      var a, b, c, n := ReleaseOf(s);
    }
    if a: nat, b: nat, c: nat, n: nat :| s == ReleaseText(a, b, c, n) {
      ReleaseReads(a, b, c, n);
    }
  }

  lemma ReleaseOf(s: string) returns (a: nat, b: nat, c: nat, n: nat)
    requires DesktopSyntax(s)
    ensures s == ReleaseText(a, b, c, n)
  {
    hide CoreSyntax, CoreNumbers, CoreText, Before, After, PositiveNumeral;
    a, b, c := NumbersOf(Before(s[1..], '+'));
    PartitionParts(s[1..], '+');
    assert s == "v" + s[1..];
    n := 0;
    if '+' in s {
      n := BuildOf(After(s[1..], '+'));
      assert s[1..] == CoreText(a, b, c) + (['+'] + ("build." + PrintNat(n)));
    }
  }

  lemma NumbersOf(core: string) returns (a: nat, b: nat, c: nat)
    requires CoreSyntax(core)
    ensures core == CoreText(a, b, c)
  {
    hide CoreSyntax, CoreText;
    var p := CoreNumbers(core);
    a, b, c := p[0], p[1], p[2];
    CoreReads(a, b, c);
    assert p == [a, b, c];
    CoreNumbersInjective(core, CoreText(a, b, c));
  }

  lemma BuildOf(build: string) returns (n: nat)
    requires "build." <= build && PositiveNumeral(build[6..])
    ensures n > 0 && build == "build." + PrintNat(n)
  {
    PrintParse(build[6..]);
    n := ParseNat(build[6..]);
    assert build == build[..6] + build[6..];
  }

  /** Four numbers are at least four others, the first difference deciding. */
  predicate NotBelow(a: nat, b: nat, c: nat, n: nat, x: nat, y: nat, z: nat, k: nat) {
    a > x || (a == x && (b > y || (b == y && (c > z || (c == z && n >= k)))))
  }

  lemma SignOfNumbers(a: nat, b: nat, c: nat, n: nat, x: nat, y: nat, z: nat, k: nat)
    ensures SignOf([a, b, c, n], [x, y, z, k]) >= 0 <==> NotBelow(a, b, c, n, x, y, z, k)
  {
    hide LexLess;
    NatOrder();
    LexFirst(NatLess, [a, b, c, n], [x, y, z, k]);
    assert [a, b, c, n][1..] == [b, c, n] && [x, y, z, k][1..] == [y, z, k];
    NumbersLess(b, c, n, y, z, k);
  }

  /**
   * API 3 on every host text: a desktop release is compared number by number, the build number last, and
   * throws from 128 characters on; any other version must have a higher core, or the same core and no
   * prerelease if no build is required.
   */
  lemma LegacyAcceptsExactly(m: Manifest, release: string, x: nat, y: nat, z: nat, k: nat)
    requires m.apiVersion == 3 && m.compatibility.Some? && !IsDevelopment(m.version)
    requires m.compatibility.value.minimum == ReleaseText(x, y, z, k) && |ReleaseText(x, y, z, k)| <= 128
    requires !IsDevelopment(StripV(release))
    ensures var v := StripV(release);
            IsCompatible(m, release) ==
            if DesktopSyntax("v" + v) then
              if |v| >= 128 then Error
              else
                var host := ReleaseParts("v" + v).value;
                Ok(NotBelow(host[0], host[1], host[2], host[3], x, y, z, k))
            else if !ValidVersion(v) then Error
            else
              var p := PartsOf(v);
              Ok(|| NotBelow(p.core[0], p.core[1], p.core[2], 0, x, y, z, 1)
                 || (p == Parts([x, y, z], []) && k == 0))
  {
    hide SemanticSyntax, PartsOf, LexLess, ReleaseText, NotBelow;
    var right := ReleaseText(x, y, z, k);
    ReleaseReads(x, y, z, k);
    var v := StripV(release);
    assert StripV("v" + v) == v;
    if DesktopSyntax("v" + v) {
      if |v| < 128 {
        var host := ReleaseParts("v" + v).value;
        assert host == [host[0], host[1], host[2], host[3]];
        SignOfNumbers(host[0], host[1], host[2], host[3], x, y, z, k);
      }
    } else {
      MinimumParts(x, y, z, k);
      if ValidVersion(v) { OtherHost(v, x, y, z); }
    }
  }

  lemma MinimumParts(x: nat, y: nat, z: nat, k: nat)
    requires |ReleaseText(x, y, z, k)| <= 128
    ensures var s := StripV(ReleaseText(x, y, z, k)); ValidVersion(s) && PartsOf(s) == Parts([x, y, z], [])
  {
    hide SemanticSyntax, PartsOf, CoreText;
    ReleaseReads(x, y, z, k);
    var s := ReleaseText(x, y, z, k);
    DesktopIsSemantic(s);
    assert StripV(s) == s[1..];
    assert CoreNumbers(Before(s[1..], '+')) == ReleaseParts(s).value[..3] == [x, y, z];
  }

  lemma OtherHost(v: string, x: nat, y: nat, z: nat)
    requires SemanticSyntax(v)
    ensures var p := PartsOf(v);
            && (Order(p, Parts([x, y, z], [])) > 0 <==> NotBelow(p.core[0], p.core[1], p.core[2], 0, x, y, z, 1))
            && (Order(p, Parts([x, y, z], [])) == 0 <==> p == Parts([x, y, z], []))
  {
    hide SemanticSyntax, PartsOf, Order;
    var p := PartsOf(v);
    assert p == Parts([p.core[0], p.core[1], p.core[2]], p.prerelease);
    OrderIs(p.core[0], p.core[1], p.core[2], p.prerelease, x, y, z, []);
    assert PrereleaseSign(p.prerelease, []) == if p.prerelease == [] then 0 else -1;
    assert [p.core[0], p.core[1], p.core[2]] == [x, y, z] <==> p.core[0] == x && p.core[1] == y && p.core[2] == z;
  }

  /** A preview is a version with prerelease identifiers; hyphens in its build metadata do not count. */
  lemma PrereleaseIs(version: string)
    requires SemanticSyntax(version)
    ensures IsPrerelease(version) <==> PartsOf(version).prerelease != []
  {
  }

  /** API 4 on every host text. */
  lemma DeclaredRangeExactly(m: Manifest, release: string)
    requires Published(m) && m.apiVersion == 4 && !IsDevelopment(StripV(release))
    ensures var v, c := StripV(release), m.compatibility.value;
            IsCompatible(m, release) ==
            if !ValidVersion(v) then Error
            else
              var host, min, max := PartsOf(v), PartsOf(c.minimum), PartsOf(c.maximumExclusive.value);
              Ok(&& (host.prerelease != [] ==> min.prerelease != [] && host.core == min.core)
                 && Order(min, host) <= 0 && Order(host, max) < 0)
  {
    hide SemanticSyntax, PartsOf, Precedes, Before, MainPart;
    var v, c := StripV(release), m.compatibility.value;
    OnlyStripped(m, release);
    if ValidVersion(v) {
      PrecedesOrder();
      PrereleaseIs(v);
      PrereleaseIs(c.minimum);
      OrderAntisymmetric(PartsOf(c.minimum), PartsOf(v));
      if IsPrerelease(v) { PreviewHostsStayInCore(m, v); } else { StableHostsFormInterval(m, v); }
    }
  }
}
