/** Compatibility declarations and the legacy identity text that API 3 packages use as their version. */
module Identity {
  import opened Text
  import opened SemVer
  import opened Precedence

  const MAX_SAFE_INTEGER: nat := 0x1F_FFFF_FFFF_FFFF

  datatype Compatibility = Compatibility(
    minimum: string, maximumExclusive: Option<string>,
    system: string, targetMinimum: string, targetMaximum: string)

  // ---------------------------------------------------------------- the small grammars

  /** `[1-9][0-9]*` */
  predicate PositiveNumeral(s: string) { Canonical(s) && s[0] != '0' }

  /** `vMAJOR.MINOR.PATCH` with an optional `+build.N`. */
  predicate DesktopSyntax(s: string) {
    && s != "" && s[0] == 'v'
    && CoreSyntax(Before(s[1..], '+'))
    && ('+' in s ==> "build." <= After(s[1..], '+') && PositiveNumeral(After(s[1..], '+')[6..]))
  }

  predicate IsSystemChar(c: char) { 'a' <= c <= 'z' || IsDigit(c) }

  /** `[a-z][a-z0-9]*(-[a-z0-9]+)*` */
  predicate SystemSyntax(s: string) {
    var words := Split(s, '-');
    && (forall i :: 0 <= i < |words| ==> words[i] != "" && forall k :: 0 <= k < |words[i]| ==>
          IsSystemChar(words[i][k]))
    && s != "" && 'a' <= s[0] <= 'z'
  }

  predicate TargetVersion(s: string) { |s| <= 64 && CoreSyntax(s) }

  /** releaseParts: core numbers and build number, zero without one. */
  function ReleaseParts(s: string): (r: Result<seq<nat>>)
    ensures r.Ok? <==> |s| <= 128 && DesktopSyntax(s)
    ensures r.Ok? ==> |r.value| == 4
  {
    if |s| <= 128 && DesktopSyntax(s) then
      Ok(CoreNumbers(Before(s[1..], '+')) + [if '+' in s then ParseNat(After(s[1..], '+')[6..]) else 0])
    else Error
  }

  /** parsePluginCompatibility: the declaration itself when it is acceptable for that API. */
  ghost predicate ValidCompatibility(c: Compatibility, apiVersion: nat) {
    && (if apiVersion == 3 then c.maximumExclusive.None? && ReleaseParts(c.minimum).Ok?
        else
          && c.maximumExclusive.Some? && ValidRelease(c.minimum) && ValidRelease(c.maximumExclusive.value)
          && Order(PartsOf(c.minimum), PartsOf(c.maximumExclusive.value)) < 0)
    && |c.system| <= 32 && SystemSyntax(c.system)
    && TargetVersion(c.targetMinimum) && TargetVersion(c.targetMaximum)
    && !LexLess(NatLess, CoreNumbers(c.targetMaximum), CoreNumbers(c.targetMinimum))
  }

  // ---------------------------------------------------------------- the identity text

  datatype Fields = Fields(release: string, system: string, minimum: string, maximum: string, revision: string)

  /** What the capture groups of the identity pattern may hold. */
  predicate FieldsSyntax(f: Fields) {
    && DesktopSyntax(f.release) && SystemSyntax(f.system)
    && CoreSyntax(f.minimum) && CoreSyntax(f.maximum) && PositiveNumeral(f.revision)
  }

  /** `RELEASE--SYSTEM-MINIMUM-MAXIMUM--rREVISION` */
  function Compose(f: Fields): string {
    Join([f.release, ""] + ([f.system] + [f.minimum, f.maximum, "", "r" + f.revision]), '-')
  }

  /** The hyphen-separated pieces of an identity. */
  function Pieces(f: Fields): seq<string> {
    [f.release, ""] + Split(f.system, '-') + [f.minimum, f.maximum, "", "r" + f.revision]
  }

  /** identity.exec: reads the fixed pieces at both ends; the system is whatever lies between. */
  function MatchIdentity(value: string): Option<Fields> {
    var p := Split(value, '-');
    var n := |p|;
    if n < 7 || p[1] != "" || p[n - 2] != "" || p[n - 1] == "" || p[n - 1][0] != 'r' then None
    else
      var f := Fields(p[0], Join(p[2..n - 4], '-'), p[n - 4], p[n - 3], p[n - 1][1..]);
      if FieldsSyntax(f) then Some(f) else None
  }

  lemma ComposeIsJoin(f: Fields)
    requires FieldsSyntax(f)
    ensures Split(Compose(f), '-') == Pieces(f)
  {
    CoreHasNoMark(f.minimum, '-');
    CoreHasNoMark(f.maximum, '-');
    DesktopHasNoHyphen(f.release);
    var front, back := [f.release, ""], [f.minimum, f.maximum, "", "r" + f.revision];
    SplitOfJoin(front + ([f.system] + back), '-');
    SplitAllConcat(front, [f.system] + back, '-');
    SplitAllConcat([f.system], back, '-');
    SplitAllPieces(front, '-');
    SplitAllPieces(back, '-');
    assert SplitAll([f.system], '-') == Split(f.system, '-');
  }

  lemma DesktopHasNoHyphen(s: string)
    requires DesktopSyntax(s)
    ensures '-' !in s
  {
    CoreHasNoMark(Before(s[1..], '+'), '-');
    PartitionParts(s[1..], '+');
    assert s == [s[0]] + s[1..];
    if '+' in s {
      var build := After(s[1..], '+');
      assert build == build[..6] + build[6..];
      assert '-' !in build;
    }
  }

  /** Reading the fixed pieces at both ends recovers the fields. */
  lemma MatchOfCompose(f: Fields)
    requires FieldsSyntax(f)
    ensures MatchIdentity(Compose(f)) == Some(f)
  {
    ComposeIsJoin(f);
    var p := Pieces(f);
    var n := |p|;
    assert p[0] == f.release && p[1] == "";
    assert p[n - 4] == f.minimum && p[n - 3] == f.maximum && p[n - 2] == "";
    assert p[n - 1] == "r" + f.revision;
    assert p[2..n - 4] == Split(f.system, '-');
    JoinSplit(f.system, '-');
    assert p[n - 1][1..] == f.revision;
  }

  lemma ComposeOfMatch(value: string)
    requires MatchIdentity(value).Some?
    ensures Compose(MatchIdentity(value).value) == value
  {
    var f := MatchIdentity(value).value;
    var p := Split(value, '-');
    var n := |p|;
    var words := p[2..n - 4];
    assert forall i :: 0 <= i < |words| ==> words[i] == p[i + 2];
    SplitOfJoin(words, '-');
    SplitAllPieces(words, '-');
    assert p[n - 1] == "r" + f.revision;
    assert p == [p[0], p[1]] + words + [p[n - 4], p[n - 3], p[n - 2], p[n - 1]];
    ComposeIsJoin(f);
    SplitInjective(Compose(f), value, '-');
  }

  /** The split is unique: the pattern matches with fields `f` exactly when the text is composed of `f`. */
  lemma MatchExact(value: string, f: Fields)
    ensures MatchIdentity(value) == Some(f) <==> FieldsSyntax(f) && Compose(f) == value
  {
    if FieldsSyntax(f) {
      MatchOfCompose(f);
    }
    if MatchIdentity(value) == Some(f) {
      ComposeOfMatch(value);
    }
  }

  // ---------------------------------------------------------------- printing and parsing

  /** formatPluginVersion */
  ghost function Format(c: Compatibility, revision: int): Result<string> {
    if !ValidCompatibility(c, 3) || !(1 <= revision <= MAX_SAFE_INTEGER) then Error
    else
      var value := Compose(Fields(c.minimum, c.system, c.targetMinimum, c.targetMaximum, PrintNat(revision)));
      if |value| > 256 then Error else Ok(value)
  }

  /** What is printed, piece by piece, and when. */
  lemma FormatText(c: Compatibility, revision: int)
    ensures Format(c, revision) ==
            if ValidCompatibility(c, 3) && 1 <= revision <= 9007199254740991 then
              var range := c.targetMinimum + ("-" + (c.targetMaximum + ("--r" + PrintNat(revision))));
              var value := c.minimum + ("--" + (c.system + ("-" + range)));
              if |value| <= 256 then Ok(value) else Error
            else Error
  {
    hide ValidCompatibility, PrintNat;
    if ValidCompatibility(c, 3) && 1 <= revision <= MAX_SAFE_INTEGER {
      ComposeText(Fields(c.minimum, c.system, c.targetMinimum, c.targetMaximum, PrintNat(revision)));
    }
  }

  lemma ComposeText(f: Fields)
    ensures Compose(f) ==
            f.release + ("--" + (f.system + ("-" + (f.minimum + ("-" + (f.maximum + ("--r" + f.revision)))))))
  {
    hide Join;
    var parts := [f.release, "", f.system, f.minimum, f.maximum, "", "r" + f.revision];
    assert [f.release, ""] + ([f.system] + [f.minimum, f.maximum, "", "r" + f.revision]) == parts;
    var last := "-r" + f.revision;
    JoinLast(parts, "r" + f.revision);
    JoinFrom(parts, 5, "r" + f.revision, last);
    JoinFrom(parts, 4, last, f.maximum + ("--r" + f.revision));
    JoinFrom(parts, 3, f.maximum + ("--r" + f.revision), f.minimum + ("-" + (f.maximum + ("--r" + f.revision))));
    var range := f.minimum + ("-" + (f.maximum + ("--r" + f.revision)));
    JoinFrom(parts, 2, range, f.system + ("-" + range));
    JoinFrom(parts, 1, f.system + ("-" + range), "-" + (f.system + ("-" + range)));
    JoinFrom(parts, 0, "-" + (f.system + ("-" + range)), f.release + ("--" + (f.system + ("-" + range))));
    assert parts[0..] == parts;
  }

  lemma JoinLast(parts: seq<string>, text: string)
    requires |parts| == 7 && parts[6] == text
    ensures Join(parts[6..], '-') == text
  {
  }

  /** One piece more, with a hyphen behind it. */
  lemma JoinFrom(parts: seq<string>, i: nat, tail: string, text: string)
    requires i + 1 < |parts| && tail == Join(parts[i + 1..], '-')
    requires parts[i] + ['-'] + tail == text
    ensures Join(parts[i..], '-') == text
  {
    assert parts[i..][1..] == parts[i + 1..];
  }

  datatype Identity = Identity(compatibility: Compatibility, revision: nat)

  /** parseIdentity: `Ok(None)` for a text that is no identity, an error for an unacceptable one. */
  ghost function ParseIdentity(value: string): Result<Option<Identity>> {
    if |value| > 256 || MatchIdentity(value).None? then Ok(None)
    else
      var f := MatchIdentity(value).value;
      var c := Compatibility(f.release, None, f.system, f.minimum, f.maximum);
      var revision := ParseNat(f.revision);
      if !ValidCompatibility(c, 3) || revision > MAX_SAFE_INTEGER || Format(c, revision) != Ok(value) then Error
      else Ok(Some(Identity(c, revision)))
  }

  /** Whatever is printed parses back to the same compatibility and revision. */
  lemma ParseOfFormat(c: Compatibility, revision: int)
    requires Format(c, revision).Ok?
    ensures ParseIdentity(Format(c, revision).value) == Ok(Some(Identity(c, revision)))
  {
    ParsePrint(revision);
    var f := Fields(c.minimum, c.system, c.targetMinimum, c.targetMaximum, PrintNat(revision));
    MatchExact(Compose(f), f);
  }

  /**
   * Every matching text re-prints to itself, so the canonical check rejects nothing on its own:
   * a match is refused only for an unacceptable range or an unsafe revision.
   */
  lemma FormatOfMatch(value: string)
    requires |value| <= 256 && MatchIdentity(value).Some?
    ensures var f := MatchIdentity(value).value;
            var c := Compatibility(f.release, None, f.system, f.minimum, f.maximum);
            var acceptable := ValidCompatibility(c, 3) && ParseNat(f.revision) <= MAX_SAFE_INTEGER;
            && (acceptable ==> Format(c, ParseNat(f.revision)) == Ok(value))
            && (ParseIdentity(value).Error? <==> !acceptable)
  {
    var f := MatchIdentity(value).value;
    MatchExact(value, f);
    PrintParse(f.revision);
  }

  /** Parsing and printing are inverse: an accepted text is the print of what it parsed to. */
  lemma FormatOfParse(value: string, c: Compatibility, revision: nat)
    ensures ParseIdentity(value) == Ok(Some(Identity(c, revision))) <==> Format(c, revision) == Ok(value)
  {
    if Format(c, revision) == Ok(value) {
      ParseOfFormat(c, revision);
    }
  }
}
