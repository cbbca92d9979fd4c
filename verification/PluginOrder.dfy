/** Which of two packages is newer, across plain versions, legacy identities and API 4 manifests. */
module PluginOrder {
  import opened Text
  import opened SemVer
  import opened Identity

  datatype Manifest = Manifest(id: string, version: string, apiVersion: ApiVersion,
                               compatibility: Option<Compatibility>)

  type ApiVersion = n: nat | 2 <= n <= 4 witness 2

  /** comparePluginVersions: a legacy identity is above every plain version. */
  ghost function ComparePluginVersions(left: string, right: string): Result<int> {
    CompareParsed(left, ParseIdentity(left), right, ParseIdentity(right))
  }

  ghost function CompareParsed(left: string, aIdentity: Result<Option<Identity>>,
                               right: string, bIdentity: Result<Option<Identity>>): Result<int> {
    match (aIdentity, bIdentity)
    case (Error, _) => Error
    case (_, Error) => Error
    case (Ok(None), Ok(None)) => CompareSemantic(left, right)
    case (Ok(None), Ok(Some(_))) => if ValidVersion(left) then Ok(-1) else Error
    case (Ok(Some(_)), Ok(None)) => if ValidVersion(right) then Ok(1) else Error
    case (Ok(Some(a)), Ok(Some(b))) =>
      if a.compatibility.system != b.compatibility.system then Error
      else if a.revision == b.revision then if left == right then Ok(0) else Error
      else Ok(if a.revision < b.revision then -1 else 1)
  }

  /** The result of the semantic comparison method. */
  ghost function CompareSemantic(left: string, right: string): Result<int> {
    if ValidVersion(left) && ValidVersion(right) then Ok(Order(PartsOf(left), PartsOf(right))) else Error
  }

  /** comparePluginManifests: API 4 is above every legacy package, whatever the version texts say. */
  ghost function CompareManifests(left: Manifest, right: Manifest): Result<int> {
    if left.id != right.id then Error
    else if left.apiVersion == 4 || right.apiVersion == 4 then
      if left.apiVersion != right.apiVersion then Ok(if left.apiVersion == 4 then 1 else -1)
      else CompareSemantic(left.version, right.version)
    else ComparePluginVersions(left.version, right.version)
  }

  lemma CompareSemanticAntisymmetric(a: string, b: string)
    ensures CompareSemantic(a, b).Ok? <==> CompareSemantic(b, a).Ok?
    ensures CompareSemantic(a, b).Ok? ==> CompareSemantic(b, a).value == -CompareSemantic(a, b).value
  {
    if ValidVersion(a) && ValidVersion(b) {
      OrderAntisymmetric(PartsOf(a), PartsOf(b));
    }
  }

  lemma ParsedAntisymmetric(left: string, p: Result<Option<Identity>>, right: string, q: Result<Option<Identity>>)
    ensures CompareParsed(left, p, right, q).Ok? <==> CompareParsed(right, q, left, p).Ok?
    ensures CompareParsed(left, p, right, q).Ok? ==>
              CompareParsed(right, q, left, p).value == -CompareParsed(left, p, right, q).value
  {
    CompareSemanticAntisymmetric(left, right);
  }

  /** Swapping the packages flips the sign and never turns a refusal into an answer. */
  lemma ManifestsAntisymmetric(a: Manifest, b: Manifest)
    ensures CompareManifests(a, b).Ok? <==> CompareManifests(b, a).Ok?
    ensures CompareManifests(a, b).Ok? ==> CompareManifests(b, a).value == -CompareManifests(a, b).value
  {
    CompareSemanticAntisymmetric(a.version, b.version);
    ParsedAntisymmetric(a.version, ParseIdentity(a.version), b.version, ParseIdentity(b.version));
  }

  lemma SemanticTransitive(a: string, b: string, c: string)
    requires CompareSemantic(a, b).Ok? && CompareSemantic(b, c).Ok?
    requires CompareSemantic(a, b).value <= 0 && CompareSemantic(b, c).value <= 0
    ensures CompareSemantic(a, c).Ok? && CompareSemantic(a, c).value <= 0
    ensures CompareSemantic(a, c).value == 0 <==> CompareSemantic(a, b).value == 0 && CompareSemantic(b, c).value == 0
  {
    OrderTransitive(PartsOf(a), PartsOf(b), PartsOf(c));
  }

  lemma ParsedTransitive(a: string, p: Result<Option<Identity>>, b: string, q: Result<Option<Identity>>,
                         c: string, r: Result<Option<Identity>>)
    requires CompareParsed(a, p, b, q).Ok? && CompareParsed(b, q, c, r).Ok?
    requires CompareParsed(a, p, b, q).value <= 0 && CompareParsed(b, q, c, r).value <= 0
    requires a == b ==> p == q
    requires b == c ==> q == r
    ensures CompareParsed(a, p, c, r).Ok? && CompareParsed(a, p, c, r).value <= 0
    ensures CompareParsed(a, p, c, r).value == 0 <==>
            CompareParsed(a, p, b, q).value == 0 && CompareParsed(b, q, c, r).value == 0
  {
    if p == Ok(None) && q == Ok(None) && r == Ok(None) {
      SemanticTransitive(a, b, c);
    }
  }

  /**
   * A chain of answered comparisons closes: the ends are comparable too, and the sign is the
   * strictest of the links. This covers mixed chains of plain versions, identities and API 4.
   */
  lemma ManifestsTransitive(a: Manifest, b: Manifest, c: Manifest)
    requires CompareManifests(a, b).Ok? && CompareManifests(b, c).Ok?
    requires CompareManifests(a, b).value <= 0 && CompareManifests(b, c).value <= 0
    ensures CompareManifests(a, c).Ok? && CompareManifests(a, c).value <= 0
    ensures CompareManifests(a, c).value == 0 <==>
            CompareManifests(a, b).value == 0 && CompareManifests(b, c).value == 0
  {
    if a.apiVersion == b.apiVersion == c.apiVersion == 4 {
      SemanticTransitive(a.version, b.version, c.version);
    } else if a.apiVersion != 4 && b.apiVersion != 4 && c.apiVersion != 4 {
      ParsedTransitive(a.version, ParseIdentity(a.version), b.version, ParseIdentity(b.version),
                       c.version, ParseIdentity(c.version));
    }
  }

  /** The three ranks: plain versions, then legacy identities, then API 4. */
  lemma RanksSeparate(a: Manifest, b: Manifest)
    requires a.id == b.id
    ensures a.apiVersion != 4 && b.apiVersion == 4 ==> CompareManifests(a, b) == Ok(-1)
    ensures a.apiVersion != 4 && b.apiVersion != 4 && ValidVersion(a.version)
            && ParseIdentity(b.version).Ok? && ParseIdentity(b.version).value.Some? ==>
              CompareManifests(a, b) == Ok(-1)
  {
    if ValidVersion(a.version) && MatchIdentity(a.version).Some? {
      VersionIsNoIdentity(a.version);
    }
  }

  /** No text is both a semantic version and an identity: the one starts with a digit, the other with `v`. */
  lemma VersionIsNoIdentity(s: string)
    requires SemanticSyntax(s)
    ensures MatchIdentity(s).None?
  {
    var main := MainPart(s);
    var core := Before(main, '-');
    var first := Split(core, '.')[0];
    JoinSplit(core, '.');
    assert first[0] == core[0] == s[0];
    JoinSplit(s, '-');
    var head := Split(s, '-')[0];
    assert head != "" ==> head[0] == s[0];
  }

  // ---------------------------------------------------------------- every answer

  lemma DifferentPlugins(a: Manifest, b: Manifest)
    requires a.id != b.id
    ensures CompareManifests(a, b) == Error
  {
  }

  /** API 4 packages, and legacy ones that bear no identity, are in the order of their versions. */
  lemma VersionsDecide(a: Manifest, b: Manifest)
    requires a.id == b.id
    requires || (a.apiVersion == 4 && b.apiVersion == 4)
             || (a.apiVersion != 4 && b.apiVersion != 4
                 && ParseIdentity(a.version) == Ok(None) && ParseIdentity(b.version) == Ok(None))
    ensures CompareManifests(a, b) ==
            if ValidVersion(a.version) && ValidVersion(b.version)
            then Ok(Order(PartsOf(a.version), PartsOf(b.version))) else Error
  {
  }

  /** Legacy identities of one system are in the order of their revisions; equal revisions must be one text. */
  lemma RevisionsDecide(a: Manifest, b: Manifest, c: Compatibility, r: nat, d: Compatibility, s: nat)
    requires a.id == b.id && a.apiVersion != 4 && b.apiVersion != 4
    requires Format(c, r) == Ok(a.version) && Format(d, s) == Ok(b.version)
    ensures CompareManifests(a, b) ==
            if c.system != d.system then Error
            else if r < s then Ok(-1)
            else if r > s then Ok(1)
            else if c == d then Ok(0) else Error
  {
    hide Format, ParseIdentity;
    FormatOfParse(a.version, c, r);
    FormatOfParse(b.version, d, s);
  }

  /** A legacy version that is no identity and no version, or an unacceptable identity, compares with nothing. */
  lemma UnreadableRefuses(a: Manifest, b: Manifest)
    requires a.apiVersion != 4 && b.apiVersion != 4
    requires ParseIdentity(a.version).Error? || (ParseIdentity(a.version) == Ok(None) && !ValidVersion(a.version))
    ensures CompareManifests(a, b) == Error && CompareManifests(b, a) == Error
  {
  }
}
