/** Publishing a browser image: a candidate that is qualified, and the version tag that is promoted from it. */
module Registry {
  import opened Text
  import opened SemVer
  import opened Precedence
  import opened VersionText

  // ---------------------------------------------------------------- content

  /** What an image ID is the digest of. */
  datatype Config = Config(os: string, architecture: string, variant: Option<string>, version: string, revision: string)

  datatype Platform = Platform(os: string, architecture: string, variant: Option<string>)

  /**
   * An object stands for its digest, which is taken to be injective; `encoding` is all that the model does not
   * look into.
   */
  datatype Object = Image(config: Config, encoding: nat) | Index(children: seq<Child>, encoding: nat)

  datatype Child = Child(platform: Platform, target: Object)

  datatype Reference = Tag(tag: string) | ByDigest(target: Object)

  /** An archive that was validated before anything is published. */
  datatype Native = Native(architecture: string, config: Config)

  datatype Options = Options(version: string, commit: string, runId: string)

  predicate IsHexChar(c: char) { IsDigit(c) || 'a' <= c <= 'f' }

  /** browserRegistryIdentity, and the run identity. */
  predicate OptionsOk(o: Options) {
    && ValidRelease(o.version) && o.version != "0.0.0" && !("0.0.0-" <= o.version) && |o.version| <= 80
    && |o.commit| == 40 && (forall i :: 0 <= i < 40 ==> IsHexChar(o.commit[i]))
    && AllDigits(o.runId) && |o.runId| <= 20 && o.runId[0] != '0'
  }

  /** A run publishes a release other than 0.0.0 and its previews, of at most 80 characters. */
  lemma OptionsMean(o: Options)
    ensures OptionsOk(o) <==>
            && ValidRelease(o.version) && |o.version| <= 80 && PartsOf(o.version).core != [0, 0, 0]
            && |o.commit| == 40
            && (forall c :: c in o.commit ==> 48 <= c as int <= 57 || 97 <= c as int <= 102)
            && |o.runId| <= 20 && exists n: nat :: n >= 1 && o.runId == PrintNat(n)
  {
    if ValidRelease(o.version) { ZeroCore(o.version); }
    if AllDigits(o.runId) && o.runId[0] != '0' {
      PrintParse(o.runId);
      assert ParseNat(o.runId) >= 1 && o.runId == PrintNat(ParseNat(o.runId));
    }
    if n: nat :| n >= 1 && o.runId == PrintNat(n) { ParsePrint(n); }
    if OptionsOk(o) {
      forall c | c in o.commit ensures 48 <= c as int <= 57 || 97 <= c as int <= 102 {
        var i :| 0 <= i < |o.commit| && o.commit[i] == c;
      }
    }
    if forall c :: c in o.commit ==> 48 <= c as int <= 57 || 97 <= c as int <= 102 {
      forall i | 0 <= i < |o.commit| ensures IsHexChar(o.commit[i]) { assert o.commit[i] in o.commit; }
    }
  }

  lemma ZeroCore(v: string)
    requires ValidRelease(v)
    ensures PartsOf(v).core == [0, 0, 0] <==> v == "0.0.0" || "0.0.0-" <= v
  {
    hide CoreSyntax, CoreNumbers, PrereleaseSyntax, Before;
    PartitionParts(v, '+');
    ZeroNumbers(Before(v, '-'));
    ZeroFront(v);
  }

  lemma ZeroNumbers(core: string)
    requires CoreSyntax(core)
    ensures CoreNumbers(core) == [0, 0, 0] <==> core == "0.0.0"
  {
    hide CoreSyntax, CoreNumbers, CoreText;
    ZeroText();
    CoreReads(0, 0, 0);
    if CoreNumbers(core) == [0, 0, 0] { CoreNumbersInjective(core, "0.0.0"); }
  }

  lemma ZeroFront(v: string)
    ensures Before(v, '-') == "0.0.0" <==> v == "0.0.0" || "0.0.0-" <= v
  {
    PartitionParts(v, '-');
    if "0.0.0-" <= v {
      assert v == "0.0.0" + ['-'] + v[6..];
      PartitionOf("0.0.0", '-', v[6..]);
    }
    if v == "0.0.0" { assert '-' !in v; }
  }

  lemma ZeroText()
    ensures CoreText(0, 0, 0) == "0.0.0"
  {
    assert PrintNat(0) == "0";
    assert "0" + ['.'] + "0" == "0.0" && "0" + ['.'] + "0.0" == "0.0.0";
  }

  function NativeTag(o: Options, n: Native): string { o.version + "-" + n.architecture }

  function CandidateTag(o: Options): string
    requires OptionsOk(o)
  {
    "candidate-" + o.version + "-" + o.commit[..12] + "-" + o.runId
  }

  predicate TwoNatives(natives: seq<Native>) {
    |natives| == 2 && natives[0].architecture == "amd64" && natives[1].architecture == "arm64"
  }

  /** verifyConfig */
  predicate ConfigOk(c: Config, architecture: string, o: Options) {
    c.os == "linux" && c.architecture == architecture && c.version == o.version && c.revision == o.commit
  }

  predicate IsNative(target: Object, n: Native, o: Options) {
    target.Image? && target.config == n.config && ConfigOk(n.config, n.architecture, o)
  }

  predicate Supported(variant: Option<string>, architecture: string) {
    variant.None? || (architecture == "arm64" && variant == Some("v8"))
  }

  predicate Matches(p: Platform, architecture: string) {
    p.os == "linux" && p.architecture == architecture && Supported(p.variant, architecture)
  }

  function Matching(children: seq<Child>, architecture: string): (r: seq<Child>)
    ensures forall c :: c in r ==> c in children && Matches(c.platform, architecture)
    ensures |r| <= |children|
  {
    if children == [] then []
    else (if Matches(children[0].platform, architecture) then [children[0]] else [])
         + Matching(children[1..], architecture)
  }

  /** An index of exactly the two native images, one for each platform. */
  predicate IsExact(index: Object, natives: seq<Native>, o: Options)
    requires TwoNatives(natives)
  {
    && index.Index? && |index.children| == 2
    && QualifiedChild(index, natives[0], o) && QualifiedChild(index, natives[1], o)
  }

  /** One child for the platform, and it is the qualified image. */
  predicate QualifiedChild(index: Object, n: Native, o: Options)
    requires index.Index?
  {
    |Matching(index.children, n.architecture)| == 1 && IsNative(PlatformImage(index, n), n, o)
  }

  function PlatformImage(index: Object, n: Native): Object
    requires index.Index? && |Matching(index.children, n.architecture)| == 1
  {
    Matching(index.children, n.architecture)[0].target
  }

  /** Nothing else is in such an index: its two children are the two qualified images, in one order or the other. */
  lemma ExactlyTheTwo(index: Object, natives: seq<Native>, o: Options)
    requires TwoNatives(natives) && IsExact(index, natives, o)
    ensures var a, b := index.children[0].target, index.children[1].target;
            || (IsNative(a, natives[0], o) && IsNative(b, natives[1], o))
            || (IsNative(a, natives[1], o) && IsNative(b, natives[0], o))
  {
    var children := index.children;
    assert children == [children[0], children[1]] && children[1..] == [children[1]] && children[1..][1..] == [];
    forall i | 0 <= i < 2 ensures Matching(children, natives[i].architecture) ==
        (if Matches(children[0].platform, natives[i].architecture) then [children[0]] else []) +
        (if Matches(children[1].platform, natives[i].architecture) then [children[1]] else [])
    {
      assert Matching(children[1..][1..], natives[i].architecture) == [];
      assert Matching(children[1..], natives[i].architecture) ==
        (if Matches(children[1].platform, natives[i].architecture) then [children[1]] else []) + [];
    }
    assert |Matching(children, natives[0].architecture)| == 1 && |Matching(children, natives[1].architecture)| == 1;
  }

  /** One child serves linux/amd64, or linux/arm64 in either of its two spellings, with the archive's image. */
  ghost predicate Serves(c: Child, architecture: string, n: Native, o: Options) {
    && (c.platform == Platform("linux", architecture, None)
        || (architecture == "arm64" && c.platform == Platform("linux", "arm64", Some("v8"))))
    && c.target.Image? && c.target.config == n.config
    && n.config.os == "linux" && n.config.architecture == architecture
    && n.config.version == o.version && n.config.revision == o.commit
  }

  /** Exact is: two children, one for each platform, in one order or the other, and nothing else. */
  lemma ExactMeans(index: Object, natives: seq<Native>, o: Options)
    requires TwoNatives(natives)
    ensures IsExact(index, natives, o) <==>
            && index.Index? && |index.children| == 2
            && var a, b := index.children[0], index.children[1];
            || (Serves(a, "amd64", natives[0], o) && Serves(b, "arm64", natives[1], o))
            || (Serves(b, "amd64", natives[0], o) && Serves(a, "arm64", natives[1], o))
  {
    if index.Index? && |index.children| == 2 {
      MatchingTwo(index.children, "amd64");
      MatchingTwo(index.children, "arm64");
    }
  }

  lemma MatchingTwo(children: seq<Child>, architecture: string)
    requires |children| == 2
    ensures Matching(children, architecture) ==
            (if Matches(children[0].platform, architecture) then [children[0]] else []) +
            (if Matches(children[1].platform, architecture) then [children[1]] else [])
  {
    assert children[1..][1..] == [] && children[1..][0] == children[1];
    assert Matching(children[1..][1..], architecture) == [];
  }

  // ---------------------------------------------------------------- the registry

  datatype Inspected = Found(target: Object) | Missing | Failed

  /**
   * The remote repository. Any command may fail or be the last one, and one that failed may have had its
   * effect all the same; a cooperative command succeeds. After one that failed a run sends no other.
   */
  class Repository {
    var tags: map<string, Object>
    var stored: set<Object>
    ghost var failed: bool

    ghost predicate Valid()
      reads this
    {
      && (forall t :: t in tags ==> tags[t] in stored)
      && forall x, c :: x in stored && x.Index? && c in x.children ==> c.target in stored
    }

    function Lookup(r: Reference): Inspected
      reads this
    {
      match r
      case Tag(t) => if t in tags then Found(tags[t]) else Missing
      case ByDigest(d) => if d in stored then Found(d) else Missing
    }

    method Call(coop: bool) returns (ok: bool)
      requires !failed
      modifies `failed
      ensures coop ==> ok
      ensures failed == !ok
    {
      ok := *;
      ok := ok || coop;
      failed := !ok;
    }

    /** Only a registry's own "manifest unknown" counts as missing; every other failure is a failure. */
    method Inspect(r: Reference, coop: bool) returns (i: Inspected)
      requires !failed
      modifies `failed
      ensures i == Lookup(r) || i == Failed
      ensures failed == i.Failed?
      ensures coop ==> i == Lookup(r)
    {
      var ok := Call(coop);
      i := if ok then Lookup(r) else Failed;
    }

    /** image push of an image ID: the manifest is new, its config is the image. */
    method Push(tag: string, config: Config, coop: bool) returns (ok: bool)
      requires Valid() && !failed
      modifies this
      ensures Valid() && old(stored) <= stored && failed == !ok
      ensures ok || tags != old(tags) ==>
                tag in tags && tags == old(tags)[tag := tags[tag]] && tags[tag].Image? && tags[tag].config == config
      ensures coop ==> ok
    {
      ok := Call(coop);
      var landed: bool := *;
      if ok || landed {
        var encoding: nat := *;
        stored := stored + {Image(config, encoding)};
        tags := tags[tag := Image(config, encoding)];
      }
    }

    /** imagetools create: one index is tagged as it is, images are put into a new index by their platforms. */
    method Create(tag: string, sources: seq<Object>, coop: bool) returns (ok: bool)
      requires Valid() && !failed && |sources| > 0 && (|sources| == 1 || forall s :: s in sources ==> s.Image?)
      modifies this
      ensures Valid() && old(stored) <= stored && failed == !ok
      ensures ok || tags != old(tags) ==>
                && (forall s :: s in sources ==> s in old(stored)) && tag in tags && tags == old(tags)[tag := tags[tag]]
                && (if |sources| == 1 then tags[tag] == sources[0]
                    else tags[tag].Index? && tags[tag].children == ChildrenOf(sources))
      ensures coop && (forall s :: s in sources ==> s in old(stored)) ==> ok
    {
      ok := Call(coop);
      var landed: bool := *;
      var known := forall s :: s in sources ==> s in stored;
      ok := ok && known;
      failed := !ok;
      if ok || (landed && known) {
        var encoding: nat := *;
        var index := if |sources| == 1 then sources[0] else Index(ChildrenOf(sources), encoding);
        stored := stored + {index};
        tags := tags[tag := index];
      }
    }
  }

  function ChildOf(image: Object): Child
    requires image.Image?
  {
    Child(Platform(image.config.os, image.config.architecture, image.config.variant), image)
  }

  function ChildrenOf(images: seq<Object>): (r: seq<Child>)
    requires forall s :: s in images ==> s.Image?
    ensures |r| == |images| && forall i :: 0 <= i < |r| ==> r[i] == ChildOf(images[i])
  {
    seq(|images|, i requires 0 <= i < |images| => ChildOf(images[i]))
  }

  /** No tag that existed was moved or removed. */
  ghost predicate Unmoved(before: map<string, Object>, after: map<string, Object>) {
    forall t :: t in before ==> t in after && after[t] == before[t]
  }

  // ---------------------------------------------------------------- verification

  /** verifyNative: one image manifest, of the archive's image ID, that its tag still names. */
  method VerifyNative(repository: Repository, r: Reference, x: Object, n: Native, o: Options, coop: bool)
    returns (ok: bool)
    requires repository.Valid() && !repository.failed && repository.Lookup(r) == Found(x)
    modifies repository`failed
    ensures repository.Valid() && (ok || coop ==> !repository.failed)
    ensures ok ==> IsNative(x, n, o)
    ensures coop ==> (ok <==> IsNative(x, n, o))
  {
    if !x.Image? {
      return false;
    }
    ok := repository.Call(coop);
    if !ok || x.config != n.config || !ConfigOk(x.config, n.architecture, o) {
      return false;
    }
    var again := repository.Inspect(r, coop);
    ok := again == Found(x);
  }

  /** verifyIndex; `expected` are the manifests of a candidate receipt, and `platforms` those that were found. */
  method VerifyIndex(repository: Repository, r: Reference, x: Object, natives: seq<Native>, o: Options,
                     expected: Option<seq<Object>>, coop: bool)
    returns (ok: bool, platforms: seq<Object>)
    requires repository.Valid() && !repository.failed && repository.Lookup(r) == Found(x) && TwoNatives(natives)
             && (expected.Some? ==> |expected.value| == 2)
    modifies repository`failed
    ensures repository.Valid() && (ok || coop ==> !repository.failed)
    ensures ok ==> IsExact(x, natives, o) && platforms == [PlatformImage(x, natives[0]), PlatformImage(x, natives[1])]
    ensures ok && expected.Some? ==> platforms == expected.value
    ensures coop ==> (ok <==> IsExact(x, natives, o)
                              && (expected.Some? ==>
                                    expected.value == [PlatformImage(x, natives[0]), PlatformImage(x, natives[1])]))
  {
    hide Matching, IsNative, QualifiedChild, PlatformImage;
    platforms := [];
    if !x.Index? || |x.children| != 2 {
      return false, [];
    }
    for i := 0 to 2
      invariant |platforms| == i && !repository.failed && repository.Valid() && repository.Lookup(r) == Found(x)
      invariant forall k :: 0 <= k < i ==> Verified(x, natives[k], platforms[k], o)
      invariant expected.Some? ==> forall k :: 0 <= k < i ==> platforms[k] == expected.value[k]
    {
      ok := VerifyChild(repository, r, x, natives[i], o, coop);
      if !ok || (expected.Some? && expected.value[i] != PlatformImage(x, natives[i])) {
        return false, [];
      }
      platforms := platforms + [PlatformImage(x, natives[i])];
    }
    PlatformsDiffer(x, natives, o);
    var again := repository.Inspect(r, coop);
    ok := again == Found(x) && platforms[0] != platforms[1];
  }

  lemma PlatformsDiffer(x: Object, natives: seq<Native>, o: Options)
    requires TwoNatives(natives) && x.Index? && QualifiedChild(x, natives[0], o) && QualifiedChild(x, natives[1], o)
    ensures PlatformImage(x, natives[0]) != PlatformImage(x, natives[1])
  {
  }

  predicate Verified(x: Object, n: Native, platform: Object, o: Options) {
    x.Index? && QualifiedChild(x, n, o) && platform == PlatformImage(x, n)
  }

  /** One round of its loop. */
  method VerifyChild(repository: Repository, r: Reference, x: Object, n: Native, o: Options, coop: bool)
    returns (ok: bool)
    requires repository.Valid() && !repository.failed && repository.Lookup(r) == Found(x) && x.Index?
    modifies repository`failed
    ensures repository.Valid() && (ok || coop ==> !repository.failed)
    ensures ok ==> QualifiedChild(x, n, o)
    ensures coop ==> (ok <==> QualifiedChild(x, n, o))
  {
    var found := Matching(x.children, n.architecture);
    if |found| != 1 {
      return false;
    }
    assert x in repository.stored && found[0] in x.children;
    var child := found[0].target;
    var inspected := repository.Inspect(ByDigest(child), coop);
    if !inspected.Found? {
      return false;
    }
    ok := VerifyNative(repository, ByDigest(child), child, n, o, coop);
  }

  // ---------------------------------------------------------------- publish and promote

  /** The four tags of one run are different tags. */
  lemma TagsDiffer(o: Options, a: Native, b: Native)
    requires OptionsOk(o) && a.architecture == "amd64" && b.architecture == "arm64"
    ensures NativeTag(o, a) != NativeTag(o, b) && NativeTag(o, a) != o.version && NativeTag(o, b) != o.version
    ensures CandidateTag(o) !in {o.version, NativeTag(o, a), NativeTag(o, b)}
  {
    var v := o.version;
    assert NativeTag(o, a)[|v| + 2] == 'm' && NativeTag(o, b)[|v| + 2] == 'r';
    StartsWithDigit(v);
    assert CandidateTag(o)[0] == 'c' && NativeTag(o, a)[0] == v[0] && NativeTag(o, b)[0] == v[0];
  }

  lemma StartsWithDigit(v: string)
    requires ValidRelease(v)
    ensures v != "" && IsDigit(v[0])
  {
    PartitionParts(v, '+');
    PartitionParts(v, '-');
    var core := Before(v, '-');
    JoinSplit(core, '.');
    assert AllDigits(Split(core, '.')[0]);
    assert core != "" && core[0] == Split(core, '.')[0][0];
  }

  /** `[A-Za-z0-9_][A-Za-z0-9_.-]{0,127}`: what a registry takes as a tag. */
  predicate LegalTag(t: string) {
    1 <= |t| <= 128 && t[0] != '.' && t[0] != '-' && AllTagChars(t)
  }

  predicate IsTagChar(c: char) {
    '0' <= c <= '9' || 'a' <= c <= 'z' || 'A' <= c <= 'Z' || c == '_' || c == '.' || c == '-'
  }

  predicate AllTagChars(t: string) { forall i :: 0 <= i < |t| ==> IsTagChar(t[i]) }

  lemma {:induction false} ReleaseChars(v: string)
    requires ValidRelease(v)
    ensures forall i :: 0 <= i < |v| ==> IsIdentifierChar(v[i]) || v[i] == '.'
  {
    NewerAccepts(v);
    PartitionParts(v, '-');
    var core := Before(v, '-');
    forall i | 0 <= i < |core| ensures IsDigit(core[i]) || core[i] == '.' {
      if core[i] != '.' { CharsOfPieces(core, '.', core[i]); }
    }
    if '-' in v {
      var tail := After(v, '-');
      forall i | 0 <= i < |v| ensures IsIdentifierChar(v[i]) || v[i] == '.' {
        assert v[i] == if i < |core| then core[i] else if i == |core| then '-' else tail[i - |core| - 1];
      }
    }
  }

  /** The texts of the four tags, all of them legal. */
  lemma TagTexts(o: Options, natives: seq<Native>)
    requires OptionsOk(o) && TwoNatives(natives)
    ensures NativeTag(o, natives[0]) == o.version + "-amd64" && NativeTag(o, natives[1]) == o.version + "-arm64"
    ensures CandidateTag(o) == "candidate-" + (o.version + ("-" + (o.commit[..12] + ("-" + o.runId))))
    ensures LegalTag(o.version) && LegalTag(NativeTag(o, natives[0])) && LegalTag(NativeTag(o, natives[1]))
    ensures LegalTag(CandidateTag(o))
  {
    ReleaseChars(o.version);
    StartsWithDigit(o.version);
    var tail := o.commit[..12] + ("-" + o.runId);
    forall i | 0 <= i < |tail| ensures IsTagChar(tail[i]) {
      assert tail[i] == if i < 12 then o.commit[i] else if i == 12 then '-' else o.runId[i - 13];
    }
    assert AllTagChars(o.version) && AllTagChars("candidate-") && AllTagChars("-");
    TagCharsAppend("-", tail);
    TagCharsAppend(o.version, "-" + tail);
    TagCharsAppend("candidate-", o.version + ("-" + tail));
    assert CandidateTag(o) == "candidate-" + (o.version + ("-" + tail));
    assert AllTagChars("-amd64") && AllTagChars("-arm64");
    TagCharsAppend(o.version, "-amd64");
    TagCharsAppend(o.version, "-arm64");
  }

  lemma TagCharsAppend(s: string, t: string)
    requires AllTagChars(s) && AllTagChars(t)
    ensures AllTagChars(s + t)
  {
  }

  /** The candidate tag never exceeds the length that its check allows. */
  lemma CandidateFits(o: Options)
    requires OptionsOk(o)
    ensures |CandidateTag(o)| <= 124
  {
  }

  /** The archives agree with the run, and an index of them will name platforms that the verifier accepts. */
  predicate NativesOk(natives: seq<Native>, o: Options) {
    TwoNatives(natives) && forall i :: 0 <= i < 2 ==>
      ConfigOk(natives[i].config, natives[i].architecture, o)
      && Supported(natives[i].config.variant, natives[i].architecture)
  }

  /** An index that was created from the two native images is exact. */
  lemma CreatedIsExact(index: Object, images: seq<Object>, natives: seq<Native>, o: Options)
    requires NativesOk(natives, o) && |images| == 2 && IsNative(images[0], natives[0], o)
             && IsNative(images[1], natives[1], o)
    requires index.Index? && index.children == ChildrenOf(images)
    ensures IsExact(index, natives, o) && PlatformImage(index, natives[0]) == images[0]
            && PlatformImage(index, natives[1]) == images[1]
  {
    var c := index.children;
    assert c[1..] == [c[1]] && c[1..][1..] == [];
    forall i | 0 <= i < 2 ensures Matching(c, natives[i].architecture) == [c[i]] {
      assert Matching(c[1..][1..], natives[i].architecture) == [];
      assert Matching(c[1..], natives[i].architecture) == if i == 1 then [c[1]] else [];
    }
    assert Matching(c, natives[0].architecture) == [c[0]] && Matching(c, natives[1].architecture) == [c[1]];
  }

  /** The part of publishing for one architecture: reuse the tagged image, or push the archive's. */
  method PublishNative(repository: Repository, n: Native, o: Options, coop: bool) returns (r: Option<Object>)
    requires repository.Valid() && !repository.failed
    modifies repository
    ensures r.Some? ==> !repository.failed
    ensures repository.Valid() && old(repository.stored) <= repository.stored
    ensures repository.tags == old(repository.tags)
         || (NativeTag(o, n) !in old(repository.tags) && NativeTag(o, n) in repository.tags
             && repository.tags == old(repository.tags)[NativeTag(o, n) := repository.tags[NativeTag(o, n)]]
             && IsNative(repository.tags[NativeTag(o, n)], n, o))
    ensures r.Some? ==>
            NativeTag(o, n) in repository.tags && repository.tags[NativeTag(o, n)] == r.value && IsNative(r.value, n, o)
    ensures coop ==>
            (r.Some? <==>
               if NativeTag(o, n) in old(repository.tags) then IsNative(old(repository.tags)[NativeTag(o, n)], n, o)
                                   else ConfigOk(n.config, n.architecture, o))
  {
    var tag := NativeTag(o, n);
    var existing := repository.Inspect(Tag(tag), coop);
    if existing.Missing? {
      var ok := repository.Call(coop);  // load the archive
      var loaded: Config := *;
      if coop { loaded := n.config; }
      if !ok || loaded != n.config || !ConfigOk(loaded, n.architecture, o) {
        return None;
      }
      ok := repository.Call(coop);  // tag the image ID
      if !ok {
        return None;
      }
      existing := repository.Inspect(Tag(tag), coop);
      if existing.Missing? {
        ok := repository.Push(tag, n.config, coop);
        if !ok {
          return None;
        }
        existing := repository.Inspect(Tag(tag), coop);
      }
    }
    if !existing.Found? {
      return None;
    }
    var ok := VerifyNative(repository, Tag(tag), existing.target, n, o, coop);
    r := if ok then Some(existing.target) else None;
  }

  datatype Candidate = Candidate(index: Object, platforms: seq<Object>)

  /** What the tags of one run look like after any of its commands, as long as nobody else publishes the version. */
  ghost predicate Ours(tags: map<string, Object>, natives: seq<Native>, o: Options)
    requires OptionsOk(o) && TwoNatives(natives)
  {
    && (forall i :: 0 <= i < 2 && NativeTag(o, natives[i]) in tags ==>
          IsNative(tags[NativeTag(o, natives[i])], natives[i], o))
    && (CandidateTag(o) in tags ==> IsCandidate(tags, tags[CandidateTag(o)], natives, o))
    && (o.version in tags ==> CandidateTag(o) in tags && tags[o.version] == tags[CandidateTag(o)])
  }

  /** An index of the two tagged native images. */
  ghost predicate IsCandidate(tags: map<string, Object>, index: Object, natives: seq<Native>, o: Options)
    requires TwoNatives(natives)
  {
    && (forall i :: 0 <= i < 2 ==>
          NativeTag(o, natives[i]) in tags && IsNative(tags[NativeTag(o, natives[i])], natives[i], o))
    && index.Index? && index.children == ChildrenOf([tags[NativeTag(o, natives[0])], tags[NativeTag(o, natives[1])]])
  }

  /** One tag was set that did not exist. */
  ghost predicate Added(before: map<string, Object>, after: map<string, Object>, tag: string) {
    after == before || (tag !in before && tag in after && after == before[tag := after[tag]])
  }

  lemma OursWithNative(before: map<string, Object>, after: map<string, Object>, k: nat, natives: seq<Native>,
                       o: Options)
    requires OptionsOk(o) && TwoNatives(natives) && k < 2 && Ours(before, natives, o)
    requires Added(before, after, NativeTag(o, natives[k]))
    requires NativeTag(o, natives[k]) in after && NativeTag(o, natives[k]) !in before ==>
             IsNative(after[NativeTag(o, natives[k])], natives[k], o)
    ensures Ours(after, natives, o)
  {
    hide OptionsOk, NativeTag, CandidateTag, ConfigOk;
    TagsDiffer(o, natives[0], natives[1]);
  }

  lemma OursWithCandidate(before: map<string, Object>, after: map<string, Object>, natives: seq<Native>, o: Options)
    requires OptionsOk(o) && TwoNatives(natives) && Ours(before, natives, o) && Added(before, after, CandidateTag(o))
    requires CandidateTag(o) in after && CandidateTag(o) !in before ==>
             IsCandidate(before, after[CandidateTag(o)], natives, o)
    ensures Ours(after, natives, o)
  {
    hide OptionsOk, NativeTag, CandidateTag, ConfigOk;
    TagsDiffer(o, natives[0], natives[1]);
  }

  lemma OursWithVersion(before: map<string, Object>, after: map<string, Object>, natives: seq<Native>, o: Options)
    requires OptionsOk(o) && TwoNatives(natives) && Ours(before, natives, o) && Added(before, after, o.version)
    requires o.version in after && o.version !in before ==>
             CandidateTag(o) in before && after[o.version] == before[CandidateTag(o)]
    ensures Ours(after, natives, o)
  {
    hide OptionsOk, NativeTag, CandidateTag, ConfigOk;
    TagsDiffer(o, natives[0], natives[1]);
  }

  predicate Tagged(tags: map<string, Object>, image: Object, n: Native, o: Options) {
    NativeTag(o, n) in tags && tags[NativeTag(o, n)] == image && IsNative(image, n, o)
  }

  /** The two native images, pushed or reused. */
  method PublishNatives(repository: Repository, natives: seq<Native>, o: Options, coop: bool)
    returns (r: Option<seq<Object>>)
    requires repository.Valid() && !repository.failed && OptionsOk(o) && TwoNatives(natives)
    modifies repository
    ensures r.Some? ==> !repository.failed
    ensures repository.Valid() && Unmoved(old(repository.tags), repository.tags)
    ensures old(Ours(repository.tags, natives, o)) ==> Ours(repository.tags, natives, o)
    ensures r.Some? ==> |r.value| == 2 && forall i :: 0 <= i < 2 ==> Tagged(repository.tags, r.value[i], natives[i], o)
    ensures o.version in repository.tags <==> o.version in old(repository.tags)
    ensures CandidateTag(o) in repository.tags <==> CandidateTag(o) in old(repository.tags)
    ensures coop && old(Ours(repository.tags, natives, o)) && NativesOk(natives, o) ==> r.Some?
  {
    hide IsNative, CandidateTag, OptionsOk, NativeTag, Ours, Supported, ConfigOk;
    TagsDiffer(o, natives[0], natives[1]);
    var images := [];
    for i := 0 to 2
      invariant !repository.failed
      invariant repository.Valid() && |images| == i && Unmoved(old(repository.tags), repository.tags)
      invariant old(Ours(repository.tags, natives, o)) ==> Ours(repository.tags, natives, o)
      invariant forall k :: 0 <= k < i ==> Tagged(repository.tags, images[k], natives[k], o)
      invariant o.version in repository.tags <==> o.version in old(repository.tags)
      invariant CandidateTag(o) in repository.tags <==> CandidateTag(o) in old(repository.tags)
    {
      ghost var before := repository.tags;
      if NativesOk(natives, o) && Ours(before, natives, o) { OursNatives(before, natives, o); }
      var image := PublishNative(repository, natives[i], o, coop);
      if Ours(before, natives, o) { OursWithNative(before, repository.tags, i, natives, o); }
      if image.None? {
        return None;
      }
      images := images + [image.value];
    }
    r := Some(images);
  }

  lemma OursNatives(tags: map<string, Object>, natives: seq<Native>, o: Options)
    requires OptionsOk(o) && NativesOk(natives, o) && Ours(tags, natives, o)
    ensures forall i :: 0 <= i < 2 && NativeTag(o, natives[i]) in tags ==>
            IsNative(tags[NativeTag(o, natives[i])], natives[i], o)
    ensures forall i :: 0 <= i < 2 ==> ConfigOk(natives[i].config, natives[i].architecture, o)
    ensures o.version in tags ==> IsExact(tags[o.version], natives, o)
    ensures CandidateTag(o) in tags ==> IsCandidate(tags, tags[CandidateTag(o)], natives, o)
  {
    hide OptionsOk, NativeTag, CandidateTag, ConfigOk, Supported;
    if o.version in tags {
      CreatedIsExact(tags[o.version], [tags[NativeTag(o, natives[0])], tags[NativeTag(o, natives[1])]], natives, o);
    }
  }

  /** publishBrowserRegistryCandidate */
  method Publish(repository: Repository, natives: seq<Native>, o: Options, coop: bool) returns (r: Option<Candidate>)
    requires repository.Valid() && !repository.failed && OptionsOk(o) && TwoNatives(natives)
    modifies repository
    ensures r.Some? ==> !repository.failed
    ensures repository.Valid() && Unmoved(old(repository.tags), repository.tags)
    ensures old(Ours(repository.tags, natives, o)) ==> Ours(repository.tags, natives, o)
    ensures o.version in repository.tags <==> o.version in old(repository.tags)
    ensures r.Some? ==>
              && CandidateTag(o) in repository.tags && repository.tags[CandidateTag(o)] == r.value.index
              && IsExact(r.value.index, natives, o)
              && r.value.platforms == [PlatformImage(r.value.index, natives[0]),
                                       PlatformImage(r.value.index, natives[1])]
    ensures coop && old(Ours(repository.tags, natives, o)) && NativesOk(natives, o) ==> r.Some?
    ensures o.version in old(repository.tags) && !IsExact(old(repository.tags)[o.version], natives, o) ==>
              r.None? && repository.tags == old(repository.tags)
  {
    hide IsNative, CandidateTag, OptionsOk, NativeTag, Ours, Supported, ConfigOk, Matches;
    TagsDiffer(o, natives[0], natives[1]);
    if NativesOk(natives, o) && Ours(repository.tags, natives, o) { OursNatives(repository.tags, natives, o); }
    var stable := repository.Inspect(Tag(o.version), coop);
    if stable.Failed? {
      return None;
    }
    if stable.Found? {
      var ok, _ := VerifyIndex(repository, Tag(o.version), stable.target, natives, o, None, coop);
      if !ok {
        return None;
      }
    }
    var images := PublishNatives(repository, natives, o, coop);
    if images.None? {
      return None;
    }
    r := PublishIndex(repository, images.value, natives, o, coop);
  }

  /** The candidate tag: reuse its index, or create one from the two images. */
  method PublishIndex(repository: Repository, images: seq<Object>, natives: seq<Native>, o: Options, coop: bool)
    returns (r: Option<Candidate>)
    requires repository.Valid() && !repository.failed && OptionsOk(o) && TwoNatives(natives) && |images| == 2
    requires forall i :: 0 <= i < 2 ==> Tagged(repository.tags, images[i], natives[i], o)
    modifies repository
    ensures r.Some? ==> !repository.failed
    ensures repository.Valid() && Unmoved(old(repository.tags), repository.tags)
    ensures old(Ours(repository.tags, natives, o)) ==> Ours(repository.tags, natives, o)
    ensures o.version in repository.tags <==> o.version in old(repository.tags)
    ensures r.Some? ==>
              && CandidateTag(o) in repository.tags && repository.tags[CandidateTag(o)] == r.value.index
              && IsExact(r.value.index, natives, o)
              && r.value.platforms == [PlatformImage(r.value.index, natives[0]),
                                       PlatformImage(r.value.index, natives[1])]
    ensures coop && old(Ours(repository.tags, natives, o)) && NativesOk(natives, o) ==> r.Some?
  {
    hide CandidateTag, OptionsOk, NativeTag, Supported, ConfigOk, Matches;
    TagsDiffer(o, natives[0], natives[1]);
    ghost var before := repository.tags;
    var index := repository.Inspect(Tag(CandidateTag(o)), coop);
    if index.Missing? {
      var ok := repository.Create(CandidateTag(o), images, coop);
      assert images == [before[NativeTag(o, natives[0])], before[NativeTag(o, natives[1])]];
      if Ours(before, natives, o) { OursWithCandidate(before, repository.tags, natives, o); }
      if !ok {
        return None;
      }
      index := repository.Inspect(Tag(CandidateTag(o)), coop);
    }
    if !index.Found? {
      return None;
    }
    if NativesOk(natives, o) && Ours(repository.tags, natives, o) {
      assert images == [repository.tags[NativeTag(o, natives[0])], repository.tags[NativeTag(o, natives[1])]];
      CreatedIsExact(index.target, images, natives, o);
    }
    var ok, platforms := VerifyIndex(repository, Tag(CandidateTag(o)), index.target, natives, o, Some(images), coop);
    r := if ok then Some(Candidate(index.target, platforms)) else None;
  }

  /** What a pull yields: the index's image for the first platform, the manifest itself for the second. */
  predicate PullsNative(candidate: Candidate, n: Native, i: nat, o: Options)
    requires i < |candidate.platforms|
  {
    if n.architecture == "amd64" then
      var found := if candidate.index.Index? then Matching(candidate.index.children, n.architecture) else [];
      found != [] && IsNative(found[0].target, n, o)
    else IsNative(candidate.platforms[i], n, o)
  }

  /** The image of an archive, said field by field. */
  ghost predicate IsArchived(image: Object, architecture: string, n: Native, o: Options) {
    && image.Image? && image.config == n.config && n.config.os == "linux" && n.config.architecture == architecture
    && n.config.version == o.version && n.config.revision == o.commit
  }

  /** The first child for linux/amd64. */
  ghost predicate FirstAmd64(children: seq<Child>, k: int) {
    && 0 <= k < |children| && children[k].platform == Platform("linux", "amd64", None)
    && forall j :: 0 <= j < k ==> children[j].platform != Platform("linux", "amd64", None)
  }

  /** Two pulls are the qualified ones: through the index for amd64, of the manifest itself for arm64. */
  lemma PullsMean(candidate: Candidate, natives: seq<Native>, o: Options)
    requires TwoNatives(natives) && |candidate.platforms| == 2
    ensures (forall i :: 0 <= i < 2 ==> PullsNative(candidate, natives[i], i, o)) <==>
            && candidate.index.Index?
            && (exists k :: FirstAmd64(candidate.index.children, k)
                            && IsArchived(candidate.index.children[k].target, "amd64", natives[0], o))
            && IsArchived(candidate.platforms[1], "arm64", natives[1], o)
  {
    if candidate.index.Index? { FirstMatching(candidate.index.children); }
    assert PullsNative(candidate, natives[0], 0, o) && PullsNative(candidate, natives[1], 1, o) <==>
      forall i :: 0 <= i < 2 ==> PullsNative(candidate, natives[i], i, o);
  }

  /** The first match is the first child of the platform. */
  lemma {:induction false} FirstMatching(children: seq<Child>)
    ensures var found := Matching(children, "amd64");
            && (forall k :: FirstAmd64(children, k) ==> found != [] && found[0] == children[k])
            && (found != [] ==> exists k :: FirstAmd64(children, k))
  {
    if children != [] {
      var rest := children[1..];
      FirstMatching(rest);
      var p := Platform("linux", "amd64", None);
      if children[0].platform == p {
        assert FirstAmd64(children, 0);
      } else {
        if Matching(rest, "amd64") != [] {
          var k :| FirstAmd64(rest, k);
          forall j | 0 <= j < k + 1 ensures children[j].platform != p {
            if j > 0 { assert children[j] == rest[j - 1]; }
          }
          assert children[k + 1] == rest[k] && FirstAmd64(children, k + 1);
        }
        forall k | FirstAmd64(children, k)
          ensures Matching(children, "amd64") != [] && Matching(children, "amd64")[0] == children[k]
        {
          assert children[k] == rest[k - 1];
          forall j | 0 <= j < k - 1 ensures rest[j].platform != p { assert rest[j] == children[j + 1]; }
          assert FirstAmd64(rest, k - 1);
        }
      }
    }
  }

  /** anonymousPulls: both images, by digest, without credentials. */
  method AnonymousPulls(repository: Repository, candidate: Candidate, natives: seq<Native>, o: Options, coop: bool)
    returns (ok: bool)
    requires !repository.failed && TwoNatives(natives) && |candidate.platforms| == 2
    modifies repository`failed
    ensures ok || coop ==> !repository.failed
    ensures ok ==> forall i :: 0 <= i < 2 ==> PullsNative(candidate, natives[i], i, o)
    ensures coop ==> (ok <==> forall i :: 0 <= i < 2 ==> PullsNative(candidate, natives[i], i, o))
  {
    for i := 0 to 2
      invariant !repository.failed
      invariant forall k :: 0 <= k < i ==> PullsNative(candidate, natives[k], k, o)
    {
      ok := repository.Call(coop);
      if !ok || !PullsNative(candidate, natives[i], i, o) {
        return false;
      }
    }
    ok := true;
  }

  /** promoteBrowserRegistryCandidate */
  method Promote(repository: Repository, candidate: Candidate, natives: seq<Native>, o: Options, coop: bool)
    returns (ok: bool)
    requires repository.Valid() && !repository.failed && OptionsOk(o) && TwoNatives(natives)
             && |candidate.platforms| == 2
    modifies repository
    ensures ok ==> !repository.failed
    ensures repository.Valid() && Unmoved(old(repository.tags), repository.tags)
            && Added(old(repository.tags), repository.tags, o.version)
    ensures o.version in repository.tags && o.version !in old(repository.tags) ==>
            repository.tags[o.version] == candidate.index && IsExact(candidate.index, natives, o)
    ensures ok ==>
            o.version in repository.tags && repository.tags[o.version] == candidate.index
            && IsExact(candidate.index, natives, o)
    ensures coop && candidate.index in old(repository.stored) && IsExact(candidate.index, natives, o)
            && candidate.platforms == [PlatformImage(candidate.index, natives[0]),
                                       PlatformImage(candidate.index, natives[1])] ==>
              (ok <==> o.version in old(repository.tags) ==> old(repository.tags)[o.version] == candidate.index)
  {
    hide OptionsOk, Supported, ConfigOk, Matches, IsNative;
    var index := candidate.index;
    var inspected := repository.Inspect(ByDigest(index), coop);
    if !inspected.Found? {
      return false;
    }
    var platforms;
    ok, platforms := VerifyIndex(repository, ByDigest(index), index, natives, o, Some(candidate.platforms), coop);
    if !ok { return; }
    ok := AnonymousPulls(repository, candidate, natives, o, coop);
    if !ok { return; }
    var existing := repository.Inspect(Tag(o.version), coop);
    if existing.Failed? || (existing.Found? && existing.target != index) {
      return false;
    }
    if existing.Missing? {
      ok := repository.Create(o.version, [index], coop);
      if !ok { return; }
    }
    var final := repository.Inspect(Tag(o.version), coop);
    if !final.Found? {
      return false;
    }
    ok, platforms := VerifyIndex(repository, Tag(o.version), final.target, natives, o, Some(candidate.platforms), coop);
    ok := ok && final.target == index;
  }

  /** One whole run, which may be killed between any two commands. */
  method Release(repository: Repository, natives: seq<Native>, o: Options, coop: bool) returns (ok: bool)
    requires repository.Valid() && OptionsOk(o) && TwoNatives(natives)
    modifies repository
    ensures repository.Valid() && Unmoved(old(repository.tags), repository.tags)
    ensures old(Ours(repository.tags, natives, o)) ==> Ours(repository.tags, natives, o)
    ensures ok ==> o.version in repository.tags && IsExact(repository.tags[o.version], natives, o)
    ensures ok ==> CandidateTag(o) in repository.tags && repository.tags[CandidateTag(o)] == repository.tags[o.version]
    ensures coop && old(Ours(repository.tags, natives, o)) && NativesOk(natives, o) ==> ok
    ensures o.version in repository.tags && o.version !in old(repository.tags) ==>
              IsExact(repository.tags[o.version], natives, o)
  {
    hide OptionsOk, Supported, ConfigOk, Matches, IsNative, NativeTag, CandidateTag;
    TagsDiffer(o, natives[0], natives[1]);
    repository.failed := false;  // a new process
    var candidate := Publish(repository, natives, o, coop);
    if candidate.None? {
      return false;
    }
    ghost var before := repository.tags;
    ok := Promote(repository, candidate.value, natives, o, coop);
    if Ours(before, natives, o) { OursWithVersion(before, repository.tags, natives, o); }
  }

  /** Killed runs of one workflow, and then one that is not: the version tag ends on exactly the two archive images. */
  method ReleaseUntilDone(repository: Repository, natives: seq<Native>, o: Options, kills: nat)
    requires repository.Valid() && OptionsOk(o) && NativesOk(natives, o)
    requires Ours(repository.tags, natives, o)
    modifies repository
    ensures repository.Valid() && Unmoved(old(repository.tags), repository.tags)
    ensures o.version in repository.tags && IsExact(repository.tags[o.version], natives, o)
  {
    for i := 0 to kills
      invariant repository.Valid() && Ours(repository.tags, natives, o)
                && Unmoved(old(repository.tags), repository.tags)
    {
      var _ := Release(repository, natives, o, false);
    }
    var done := Release(repository, natives, o, true);
  }

  datatype Publisher = Publisher(options: Options, natives: seq<Native>)

  /** Any publishers, one after another, killed anywhere: no tag that exists is ever moved. */
  method ReleaseMany(repository: Repository, runs: seq<Publisher>) returns (outcomes: seq<bool>)
    requires repository.Valid() && forall i :: 0 <= i < |runs| ==>
             OptionsOk(runs[i].options) && TwoNatives(runs[i].natives)
    modifies repository
    ensures repository.Valid() && Unmoved(old(repository.tags), repository.tags) && |outcomes| == |runs|
    ensures forall i :: 0 <= i < |runs| && outcomes[i] ==>
              var p := runs[i];
              p.options.version in repository.tags && IsExact(repository.tags[p.options.version], p.natives, p.options)
  {
    hide OptionsOk, IsExact;
    outcomes := [];
    for i := 0 to |runs|
      invariant repository.Valid() && Unmoved(old(repository.tags), repository.tags) && |outcomes| == i
      invariant forall k :: 0 <= k < i && outcomes[k] ==>
                  var p := runs[k];
                  p.options.version in repository.tags
                  && IsExact(repository.tags[p.options.version], p.natives, p.options)
    {
      var ok := Release(repository, runs[i].natives, runs[i].options, false);
      outcomes := outcomes + [ok];
    }
  }
}
