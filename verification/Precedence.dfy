/** The three implementations of version precedence, proved to agree with section 11 and with each other. */
module Precedence {
  import opened Text
  import opened SemVer

  // ---------------------------------------------------------------- src/plugins/compatibility.ts

  method CompareNumbers(left: seq<nat>, right: seq<nat>) returns (order: int)
    requires |left| == |right|
    ensures order == -1 <==> LexLess(NatLess, left, right)
    ensures order == 1 <==> LexLess(NatLess, right, left)
    ensures order == 0 <==> left == right
    ensures order in {-1, 0, 1}
  {
    NatOrder();
    LexStrictTotalOrder(NatLess);
    LexAsymmetric(NatLess, left, right);
    for index := 0 to |left|
      invariant left[..index] == right[..index]
    {
      if left[index] != right[index] {
        order := if left[index] < right[index] then -1 else 1;
        assert DecidedAt(NatLess, left, right, index) || DecidedAt(NatLess, right, left, index);
        return;
      }
    }
    order := 0;
    assert left == right;
    LexIrreflexive(NatLess, left);
  }

  lemma DecidedIdentifiers(x: seq<Identifier>, y: seq<Identifier>, i: nat)
    requires x != [] && DecidedAt(IdentifierLess, x, y, i)
    ensures PrereleaseLess(x, y) && !PrereleaseLess(y, x)
  {
    IdentifierOrder();
    assert LexLess(IdentifierLess, x, y);
    LexAsymmetric(IdentifierLess, x, y);
  }

  /** The sign that section 11 gives; an error exactly when an argument is not a valid version. */
  method CompareSemanticVersions(left: string, right: string) returns (r: Result<int>)
    ensures r == if ValidVersion(left) && ValidVersion(right) then Ok(Order(PartsOf(left), PartsOf(right))) else Error
  {
    hide SemanticSyntax, MainSyntax, PartsOf;
    if !ValidVersion(left) || !ValidVersion(right) {
      return Error;
    }
    var a, b := PartsOf(left), PartsOf(right);
    var coreOrder := CompareNumbers(a.core, b.core);
    if coreOrder != 0 {
      return Ok(coreOrder);
    }
    NatOrder();
    LexIrreflexive(NatLess, a.core);
    var x, y := a.prerelease, b.prerelease;
    if |x| == 0 || |y| == 0 {
      return Ok(if |x| == |y| then 0 else if |x| == 0 then 1 else -1);
    }
    var index := 0;
    while index < |x| || index < |y|
      invariant index <= |x| && index <= |y| && x[..index] == y[..index]
      decreases |x| - index
    {
      if index < |x| && index < |y| && x[index] == y[index] {
        index := index + 1;
        continue;
      }
      var less: bool;
      if index >= |x| || index >= |y| {
        less := index >= |x|;
      } else {
        var p, q := x[index], y[index];
        var pNumeric, qNumeric := AllDigits(p), AllDigits(q);
        if pNumeric && qNumeric && ParseNat(p) == ParseNat(q) {
          ParseInjective(p, q);
        }
        less := if pNumeric && qNumeric then ParseNat(p) < ParseNat(q)
                else if pNumeric != qNumeric then pNumeric
                else Less(p, q);
        IdentifierOrder();
      }
      if less {
        DecidedIdentifiers(x, y, index);
      } else {
        DecidedIdentifiers(y, x, index);
      }
      return Ok(if less then -1 else 1);
    }
    assert x == y;
    IdentifierOrder();
    LexAsymmetric(IdentifierLess, x, y);
    r := Ok(0);
  }

  // ---------------------------------------------------------------- tools/package/browser-maintenance.py

  /** The VERSION pattern: any dotted text of identifier characters may follow the core. */
  predicate VersionPattern(s: string) {
    && CoreSyntax(Before(s, '-'))
    && ('-' in s ==>
          && After(s, '-') != ""
          && forall i :: 0 <= i < |After(s, '-')| ==> IsIdentifierChar(After(s, '-')[i]) || After(s, '-')[i] == '.')
  }

  /** parts(): the pattern and then the check of every prerelease identifier. */
  predicate NewerSyntax(s: string) {
    && VersionPattern(s)
    && ('-' in s ==>
          var items := Split(After(s, '-'), '.');
          forall i :: 0 <= i < |items| ==>
            items[i] != "" && !(AllDigits(items[i]) && |items[i]| > 1 && items[i][0] == '0'))
  }

  lemma ConsChars(c: char, t: string)
    ensures (forall k :: 0 <= k < |[c] + t| ==> IsIdentifierChar(([c] + t)[k])) <==>
            IsIdentifierChar(c) && (forall k :: 0 <= k < |t| ==> IsIdentifierChar(t[k]))
  {
    var s := [c] + t;
    assert s[0] == c && forall k :: 0 <= k < |t| ==> s[k + 1] == t[k];
    if forall k :: 0 <= k < |s| ==> IsIdentifierChar(s[k]) {
      forall k | 0 <= k < |t| ensures IsIdentifierChar(t[k]) { assert IsIdentifierChar(s[k + 1]); }
    }
  }

  lemma {:induction false} SplitChars(s: string)
    ensures (forall i :: 0 <= i < |s| ==> IsIdentifierChar(s[i]) || s[i] == '.') <==>
            (forall p :: p in Split(s, '.') ==> forall k :: 0 <= k < |p| ==> IsIdentifierChar(p[k]))
  {
    if s != "" {
      SplitChars(s[1..]);
      var rest := Split(s[1..], '.');
      assert s == [s[0]] + s[1..];
      assert (forall i :: 0 <= i < |s| ==> IsIdentifierChar(s[i]) || s[i] == '.') <==>
        (IsIdentifierChar(s[0]) || s[0] == '.') &&
        (forall i :: 0 <= i < |s[1..]| ==> IsIdentifierChar(s[1..][i]) || s[1..][i] == '.');
      if s[0] == '.' {
        assert Split(s, '.') == [""] + rest;
      } else {
        var head := [s[0]] + rest[0];
        assert Split(s, '.') == [head] + rest[1..];
        assert rest == [rest[0]] + rest[1..];
        ConsChars(s[0], rest[0]);
      }
    }
  }

  /** Every character of a split string is a separator or sits in one of the pieces. */
  lemma {:induction false} CharsOfPieces(s: string, c: char, d: char)
    requires d in s && d != c
    ensures exists i :: 0 <= i < |Split(s, c)| && d in Split(s, c)[i]
  {
    var rest := Split(s[1..], c);
    assert s == [s[0]] + s[1..];
    if s[0] == d {
      assert d in Split(s, c)[0];
    } else {
      CharsOfPieces(s[1..], c, d);
      var i :| 0 <= i < |rest| && d in rest[i];
      assert d in Split(s, c)[if s[0] == c then i + 1 else i];
    }
  }

  lemma CoreHasNoMark(s: string, c: char)
    requires CoreSyntax(s) && !IsDigit(c) && c != '.'
    ensures c !in s
  {
    if c in s {
      CharsOfPieces(s, '.', c);
    }
  }

  lemma PrereleaseHasNoMark(s: string, c: char)
    requires PrereleaseSyntax(s) && !IsIdentifierChar(c) && c != '.'
    ensures c !in s
  {
    if c in s {
      CharsOfPieces(s, '.', c);
    }
  }

  /** Neither form leaves room for build metadata in front of it. */
  lemma MainHasNoPlus(s: string)
    requires MainSyntax(s)
    ensures '+' !in s && 'v' !in Before(s, '-')
  {
    PartitionParts(s, '-');
    CoreHasNoMark(Before(s, '-'), '+');
    CoreHasNoMark(Before(s, '-'), 'v');
    if '-' in s {
      PrereleaseHasNoMark(After(s, '-'), '+');
    }
  }

  /** The maintenance module's two checks accept exactly the semantic versions without build metadata. */
  lemma NewerAccepts(s: string)
    ensures NewerSyntax(s) <==> SemanticSyntax(s) && '+' !in s
    ensures NewerSyntax(s) <==> MainSyntax(s)
    ensures NewerSyntax(s) ==> MainPart(s) == s
  {
    PartitionParts(s, '+');
    if '-' in s {
      var tail := After(s, '-');
      SplitChars(tail);
      var items := Split(tail, '.');
      JoinSplit(tail, '.');
      if NewerSyntax(s) {
        forall i | 0 <= i < |items| ensures IsIdentifier(items[i]) { assert items[i] in items; }
      }
      if MainSyntax(s) {
        forall p | p in items ensures IsIdentifier(p) {}
        assert items[0] in items && items[0] != "";
        assert tail == "" ==> items == [""];
        assert VersionPattern(s);
        assert NewerSyntax(s);
      }
    }
    if MainSyntax(s) {
      MainHasNoPlus(s);
    }
  }

  /** `True` exactly when the candidate has the higher precedence. */
  method Newer(candidate: string, current: string) returns (r: Result<bool>)
    ensures r.Ok? <==> MainSyntax(candidate) && MainSyntax(current)
    ensures r.Ok? ==> r.value == Precedes(MainParts(current), MainParts(candidate))
  {
    hide NewerSyntax, CoreSyntax, SemanticSyntax;
    NewerAccepts(candidate);
    NewerAccepts(current);
    if !NewerSyntax(candidate) || !NewerSyntax(current) {
      return Error;
    }
    var l, p := MainParts(candidate), MainParts(current);
    NatOrder();
    LexAsymmetric(NatLess, l.core, p.core);
    if l.core != p.core {
      var order := CompareNumbers(l.core, p.core);  // tuples of equal length
      return Ok(order > 0);
    }
    var x, y := l.prerelease, p.prerelease;
    if x == [] || y == [] {
      return Ok(x == [] && y != []);
    }
    IdentifierOrder();
    LexAsymmetric(IdentifierLess, x, y);
    LexAsymmetric(IdentifierLess, y, x);
    var n := if |x| < |y| then |x| else |y|;
    for k := 0 to n
      invariant x[..k] == y[..k]
    {
      var a, b := x[k], y[k];
      if a == b { continue; }
      if AllDigits(a) && AllDigits(b) && ParseNat(a) == ParseNat(b) {
        ParseInjective(a, b);
      }
      var greater := if AllDigits(a) && AllDigits(b) then ParseNat(a) > ParseNat(b)
                     else if AllDigits(a) != AllDigits(b) then !AllDigits(a)
                     else Less(b, a);
      LessOrder();
      if greater {
        DecidedIdentifiers(y, x, k);
      } else {
        DecidedIdentifiers(x, y, k);
      }
      return Ok(greater);
    }
    if |x| > |y| {
      DecidedIdentifiers(y, x, n);
    } else if |x| < |y| {
      DecidedIdentifiers(x, y, n);
    } else {
      assert x == y;
    }
    r := Ok(|x| > |y|);
  }

  // ---------------------------------------------------------------- tools/docs/releases.py

  /** release_version(tag, historical=True): `vVERSION` with an optional `+build.N`, N positive. */
  function ReleaseVersion(tag: string): (r: Option<string>)
    ensures r.Some? ==> MainSyntax(r.value)
  {
    if tag == "" || tag[0] != 'v' then None
    else
      var main := Before(tag[1..], '+');
      if !MainSyntax(main) then None
      else if '+' !in tag then Some(main)
      else
        var build := After(tag[1..], '+');
        if build[..if |build| < 6 then |build| else 6] == "build." && Canonical(build[6..]) && build[6] != '0'
        then Some(main) else None
  }

  /** An element of the identifier tuple: `(0, number)` or `(1, text)`. */
  datatype KeyId = Number(n: nat) | Word(s: string)

  datatype Key = Key(core: seq<nat>, stable: bool, ids: seq<KeyId>, plain: bool, build: nat)

  function KeyIdOf(s: string): KeyId { if AllDigits(s) then Number(ParseNat(s)) else Word(s) }

  function KeyIds(ids: seq<Identifier>): (r: seq<KeyId>)
    ensures |r| == |ids| && forall i :: 0 <= i < |ids| ==> r[i] == KeyIdOf(ids[i])
  {
    seq(|ids|, i requires 0 <= i < |ids| => KeyIdOf(ids[i]))
  }

  function BuildNumber(tag: string): nat
    requires ReleaseVersion(tag).Some? && '+' in tag
  {
    ParseNat(After(tag[1..], '+')[6..])
  }

  /** _version_key: the tuple whose order sorts the release pages. */
  function VersionKey(tag: string): Key
    requires ReleaseVersion(tag).Some?
  {
    var parts := MainParts(ReleaseVersion(tag).value);
    Key(parts.core, parts.prerelease == [], KeyIds(parts.prerelease), '+' !in tag,
        if '+' in tag then BuildNumber(tag) else 0)
  }

  ghost predicate KeyIdLess(a: KeyId, b: KeyId) {
    match (a, b)
    case (Number(m), Number(n)) => m < n
    case (Number(_), Word(_)) => true
    case (Word(_), Number(_)) => false
    case (Word(s), Word(t)) => Less(s, t)
  }

  /** Python's tuple order on the keys: the first component that differs decides. */
  ghost predicate KeyLess(a: Key, b: Key) {
    if a.core != b.core then LexLess(NatLess, a.core, b.core)
    else if a.stable != b.stable then b.stable
    else if a.ids != b.ids then LexLess(KeyIdLess, a.ids, b.ids)
    else if a.plain != b.plain then b.plain
    else a.build < b.build
  }

  lemma KeyIdsLess(x: seq<Identifier>, y: seq<Identifier>)
    ensures LexLess(KeyIdLess, KeyIds(x), KeyIds(y)) <==> LexLess(IdentifierLess, x, y)
    ensures KeyIds(x) == KeyIds(y) ==> x == y
  {
    var p, q := KeyIds(x), KeyIds(y);
    forall i | 0 <= i < |x| && i < |y| && p[i] == q[i] ensures x[i] == y[i] {
      if AllDigits(x[i]) && AllDigits(y[i]) { ParseInjective(x[i], y[i]); }
    }
    forall i: nat ensures DecidedAt(KeyIdLess, p, q, i) <==> DecidedAt(IdentifierLess, x, y, i) {
      if i <= |x| && i < |y| {
        if p[..i] == q[..i] {
          forall k | 0 <= k < i ensures x[k] == y[k] { assert p[k] == p[..i][k] == q[..i][k] == q[k]; }
        }
        if x[..i] == y[..i] {
          forall k | 0 <= k < i ensures p[k] == q[k] { assert x[k] == x[..i][k] == y[..i][k] == y[k]; }
        }
      }
    }
    if LexLess(KeyIdLess, p, q) {
      var i: nat :| DecidedAt(KeyIdLess, p, q, i);
      assert DecidedAt(IdentifierLess, x, y, i);
    }
    if LexLess(IdentifierLess, x, y) {
      var i: nat :| DecidedAt(IdentifierLess, x, y, i);
      assert DecidedAt(KeyIdLess, p, q, i);
    }
    if p == q {
      assert |x| == |y| && forall i :: 0 <= i < |x| ==> x[i] == y[i];
    }
  }

  /** On all historical tags the key refines precedence: only tags of equal precedence are split further. */
  lemma KeyRefinesPrecedence(s: string, t: string)
    requires ReleaseVersion(s).Some? && ReleaseVersion(t).Some?
    ensures var a, b := MainParts(ReleaseVersion(s).value), MainParts(ReleaseVersion(t).value);
            KeyLess(VersionKey(s), VersionKey(t)) <==>
              Precedes(a, b) || (a == b && '+' in s && ('+' !in t || BuildNumber(s) < BuildNumber(t)))
  {
    var a, b := MainParts(ReleaseVersion(s).value), MainParts(ReleaseVersion(t).value);
    KeyIdsLess(a.prerelease, b.prerelease);
    NatOrder();
    LexTotal(NatLess, a.core, b.core);
    LexAsymmetric(NatLess, a.core, b.core);
    IdentifierOrder();
    LexAsymmetric(IdentifierLess, a.prerelease, b.prerelease);
    LexTotal(IdentifierLess, a.prerelease, b.prerelease);
  }

  /** A tag is its version and, after a mark, its build number in canonical digits. */
  lemma TagText(tag: string)
    requires ReleaseVersion(tag).Some?
    ensures tag == "v" + ReleaseVersion(tag).value +
                   if '+' in tag then "+build." + PrintNat(BuildNumber(tag)) else ""
  {
    hide MainSyntax, Before, After, PrintNat, ParseNat;
    PartitionParts(tag[1..], '+');
    assert tag == "v" + tag[1..];
    if '+' in tag {
      var build := After(tag[1..], '+');
      assert build == build[..6] + build[6..];
      PrintParse(build[6..]);
    }
  }

  /** The key tells any two different tags apart, so sorting by it never ties. */
  lemma VersionKeyInjective(s: string, t: string)
    requires ReleaseVersion(s).Some? && ReleaseVersion(t).Some?
    requires VersionKey(s) == VersionKey(t)
    ensures s == t
  {
    var a, b := MainParts(ReleaseVersion(s).value), MainParts(ReleaseVersion(t).value);
    KeyIdsLess(a.prerelease, b.prerelease);
    MainPartsInjective(ReleaseVersion(s).value, ReleaseVersion(t).value);
    TagText(s);
    TagText(t);
  }

  /** One precedence, three implementations: the signs agree on every version without build metadata. */
  lemma ImplementationsAgree(a: string, b: string)
    requires ValidRelease(a) && ValidRelease(b)
    ensures NewerSyntax(a) && NewerSyntax(b) && MainSyntax(a) && MainSyntax(b)
    ensures ReleaseVersion("v" + a) == Some(a) && ReleaseVersion("v" + b) == Some(b)
    ensures Order(PartsOf(a), PartsOf(b)) > 0 <==> Precedes(MainParts(b), MainParts(a))
    ensures Order(PartsOf(a), PartsOf(b)) > 0 <==> KeyLess(VersionKey("v" + b), VersionKey("v" + a))
    ensures Order(PartsOf(a), PartsOf(b)) == 0 <==> a == b
  {
    NewerAccepts(a);
    NewerAccepts(b);
    assert ("v" + a)[1..] == a && ("v" + b)[1..] == b;
    KeyRefinesPrecedence("v" + b, "v" + a);
    OrderAntisymmetric(PartsOf(a), PartsOf(b));
    OrderZero(a, b);
  }
}
