/** The local qualification receipt: the commands that write it, and the validator of finished bundles. */
module Qualification {
  import opened Text
  import opened Tree

  // ---------------------------------------------------------------- stages and scopes

  datatype Stage = Shared | Soak | Docs | EdaLive | NspLive

  datatype Scope = Core | Full | Eda | Nsp | Live

  const LOCAL_STAGES: seq<Stage> := [Shared, Soak, Docs, EdaLive, NspLive]

  predicate Selects(scope: Scope, stage: Stage) {
    match scope
    case Core => stage in {Shared, Soak, Docs}
    case Full => true
    case Eda => stage == EdaLive
    case Nsp => stage == NspLive
    case Live => stage in {EdaLive, NspLive}
  }

  datatype Outcome = NotRun | Running | Passed | Failed | Skipped

  predicate Qualified(scope: Scope, outcome: Outcome) { outcome == Passed || (scope == Full && outcome == Skipped) }

  // ---------------------------------------------------------------- summaries

  const MAX_SAFE: int := 0x1F_FFFF_FFFF_FFFF
  const MAX_REPORT: int := 64 * 1024 * 1024

  /** A measured number, `units` / 10 ^ `places`, without trailing zeros after the point. */
  datatype Digits = Digits(units: int, places: nat)

  type Decimal = d: Digits | d.places == 0 || d.units % 10 != 0 witness Digits(0, 0)

  predicate AtLeast(d: Decimal, n: int) { d.units >= n * Power10(d.places) }

  datatype Summary =
    | SharedSummary(outcome: Outcome, total: int, passed: int, skipped: int, todo: int)
    | SoakSummary(outcome: Outcome, seconds: int, offeredRate: int, elapsedMs: Decimal, generated: int, published: int,
                  hostDisplayDrops: int, peakRss: int, scope: string)
    | DocsSummary(outcome: Outcome, htmlPages: int, routes: int, media: string, mediaReason: Option<string>,
                  mediaFingerprint: string)
    | LiveSkip(outcome: Outcome, checks: int, checkIds: seq<string>, reason: string)
    | LiveSummary(outcome: Outcome, checks: int, checkIds: seq<string>, targetVersion: Option<string>,
                  apiCertificateVerification: bool, apiTrust: string, scope: string)

  predicate Count(n: int, minimum: int) { minimum <= n <= MAX_SAFE }

  predicate IsLowerHex(s: string, low: nat, high: nat) {
    low <= |s| <= high && forall i :: 0 <= i < |s| ==> IsDigit(s[i]) || 'a' <= s[i] <= 'f'
  }

  function DigitsEnd(s: string, i: nat): (r: nat)
    requires i <= |s|
    ensures i <= r <= |s|
    decreases |s| - i
  {
    if i < |s| && IsDigit(s[i]) then DigitsEnd(s, i + 1) else i
  }

  /** `(?:[-+][\w.-]+)?$` */
  predicate VersionTail(s: string, i: nat)
    requires i <= |s|
  {
    || i == |s|
    || (s[i] in "-+" && i + 1 < |s|
        && forall k :: i < k < |s| ==> IsDigit(s[k]) || 'a' <= s[k] <= 'z' || 'A' <= s[k] <= 'Z' || s[k] in "_.-")
  }

  /** `^v?\d+\.\d+(?:\.\d+)?(?:[-+][\w.-]+)?$` */
  predicate TargetSyntax(s: string) {
    var a := if s != "" && s[0] == 'v' then 1 else 0;
    var b := DigitsEnd(s, a);
    && a < b < |s| && s[b] == '.'
    && var c := DigitsEnd(s, b + 1);
    && b + 1 < c
    && (|| VersionTail(s, c)
        || (c < |s| && s[c] == '.' && var d := DigitsEnd(s, c + 1); c + 1 < d && VersionTail(s, d)))
  }

  const EDA_CHECKS: seq<string> := [
    "cluster-version", "application-version", "source-discovery", "capture-ready", "lease-renewal",
    "kafka-record-receipt", "observed-health", "relationship-discovery", "source-preserved", "stop",
    "owned-resource-cleanup", "repeat-stop"]

  const NSP_CHECKS: seq<string> := [
    "clean-package-install", "repeat-install-retains-one-plugin", "running-target-version", "combined-workflow",
    "core-profile-test", "profile-saved", "execution-cleanup", "repeat-reuses-profile-and-workflow",
    "saved-profile-connect", "topic-discovery", "known-record-produce-and-receipt", "observed-health",
    "relationship-discovery", "hot-update-preserves-and-refreshes-profile", "hot-remove-preserves-profile",
    "reinstall-reuses-profile", "foreign-request-marker-cleanup-refused", "real-interruption-recovery",
    "pending-cleanup-blocks-removal", "repeat-cleanup",
    "recovery-reuses-profile-and-workflow", "secrets-absent-from-renderer-events", "owned-topic-deletion-confirmed"]

  function LiveChecks(stage: Stage): seq<string> {
    if stage == EdaLive then EDA_CHECKS else if stage == NspLive then NSP_CHECKS else []
  }

  function LiveScope(stage: Stage): string {
    if stage == EdaLive then "development-host-live-capture" else "development-host-plugin-lifecycle"
  }

  predicate ValidLive(stage: Stage, s: Summary)
    requires s.LiveSummary?
  {
    && s.outcome in {Passed, Failed}
    && Count(s.checks, if s.outcome == Passed then 1 else 0)
    && (if s.targetVersion.None? then s.outcome == Failed else TargetSyntax(s.targetVersion.value))
    && |s.checkIds| == s.checks
    && (forall i, j :: 0 <= i < j < |s.checkIds| ==> s.checkIds[i] != s.checkIds[j])
    && (forall i :: 0 <= i < |s.checkIds| ==> s.checkIds[i] in LiveChecks(stage))
    && (s.outcome == Passed ==> |s.checkIds| == |LiveChecks(stage)|)
    && s.apiTrust in {"system-trust", "provided-ca", "verification-disabled"}
    && s.apiCertificateVerification == (s.apiTrust != "verification-disabled")
    && s.scope == LiveScope(stage)
  }

  /** validateSummary */
  predicate ValidSummary(stage: Stage, s: Summary) {
    match stage
    case Shared =>
      s.SharedSummary? && s.outcome == Passed && Count(s.total, 1) && Count(s.passed, 1) && Count(s.skipped, 0)
      && Count(s.todo, 0)
      && s.passed <= s.total
    case Soak =>
      s.SoakSummary? && s.outcome == Passed && s.seconds == 60 && s.offeredRate == 1000
      && s.scope == "node-ingestion-replay"
      && AtLeast(s.elapsedMs, 60000) && Count(s.generated, 1) && Count(s.published, 1) && Count(s.hostDisplayDrops, 0)
      && Count(s.peakRss, 1)
    case Docs =>
      s.DocsSummary? && s.outcome == Passed && Count(s.htmlPages, 1) && Count(s.routes, 1)
      && MediaOk(s.media, s.mediaReason) && IsLowerHex(s.mediaFingerprint, 64, 64)
    case _ =>
      if s.LiveSkip? then s.outcome == Skipped && s.checks == 0 && s.reason == "not-configured" && s.checkIds == []
      else s.LiveSummary? && ValidLive(stage, s)
  }

  /** What a live producer writes; `target` is where that producer puts its API version. */
  datatype LiveData = LiveData(
    outcome: Outcome, checks: seq<string>, reasonCode: string, target: Option<string>, verification: Option<bool>,
    trust: string)

  /** liveSummary */
  function SummaryOfLive(stage: Stage, data: LiveData): Option<Summary> {
    if data.outcome !in {Passed, Failed, Skipped} then None
    else if data.outcome == Skipped then
      if data.reasonCode == "not-configured" && data.checks == []
      then Some(LiveSkip(Skipped, 0, [], "not-configured"))
      else None
    else if (if data.target.None? then data.outcome != Failed else !TargetSyntax(data.target.value))
            || data.verification.None? then None
    else
      var verified := data.verification.value;
      Some(LiveSummary(data.outcome, |data.checks|, data.checks, data.target, verified,
                       if stage == EdaLive then data.trust
                       else if verified then "system-trust" else "verification-disabled",
                       LiveScope(stage)))
  }

  // ---------------------------------------------------------------- raw reports

  /** What the five producers write. */
  datatype Content =
    | Vitest(success: bool, totalTests: int, passedTests: int, pendingTests: Option<int>, todoTests: Option<int>,
             failedTests: int, failedSuites: int)
    | Replayed(outcome: string, check: string, qualified: bool, seconds: int, rate: int, mixed: bool, roundTrip: bool,
               elapsedMs: Decimal, generated: int, published: int, hostDisplayDrops: int, peakRss: int)
    | Documentation(schemaVersion: int, outcome: string, htmlPages: int, routes: int, browserSha256: string,
                    startedAt: nat, completedAt: nat,
                    media: string, mediaReason: Option<string>, mediaFingerprint: string)
    | Lived(data: LiveData)

  function OrZero(n: Option<int>): int { if n.Some? then n.value else 0 }

  /** The soak branch of collect. */
  function SummaryOfSoak(c: Content): Option<Summary>
    requires c.Replayed?
  {
    if && c.outcome == "passed" && c.check == "bounded-stream-replay" && c.qualified
       && c.seconds == 60 && c.rate == 1000 && c.mixed && c.roundTrip
       && AtLeast(c.elapsedMs, 60000) && Count(c.generated, 1) && Count(c.published, 1)
       && Count(c.hostDisplayDrops, 0) && Count(c.peakRss, 1)
    then Some(SoakSummary(Passed, 60, 1000, c.elapsedMs, c.generated, c.published, c.hostDisplayDrops, c.peakRss,
                          "node-ingestion-replay"))
    else None
  }

  /** reportSummary, for the unit tests. */
  function SummaryOfTests(c: Content): Option<Summary>
    requires c.Vitest?
  {
    var pending, todo := OrZero(c.pendingTests), OrZero(c.todoTests);
    if && c.success && Count(c.totalTests, 1) && Count(c.passedTests, 1) && c.passedTests <= c.totalTests
       && Count(pending, 0) && Count(todo, 0) && pending <= c.totalTests && todo <= c.totalTests
       && c.failedTests == 0 && c.failedSuites == 0
    then Some(SharedSummary(Passed, c.totalTests, c.passedTests, pending, todo))
    else None
  }

  predicate MediaOk(outcome: string, reason: Option<string>) {
    || (outcome == "passed" && reason.None?)
    || (outcome == "skipped" && reason == Some("unchanged-media-inputs"))
  }

  /** reportSummary, for the documentation. */
  function SummaryOfDocs(c: Content): Option<Summary>
    requires c.Documentation?
  {
    if && c.schemaVersion == 1 && c.outcome == "passed" && Count(c.htmlPages, 1) && Count(c.routes, 1)
       && IsLowerHex(c.browserSha256, 64, 64) && c.startedAt <= c.completedAt
       && MediaOk(c.media, c.mediaReason) && IsLowerHex(c.mediaFingerprint, 64, 64)
    then Some(DocsSummary(Passed, c.htmlPages, c.routes, c.media, c.mediaReason, c.mediaFingerprint))
    else None
  }

  function SummaryOf(stage: Stage, c: Content): Option<Summary> {
    match c
    case Vitest(_, _, _, _, _, _, _) => if stage == Shared then SummaryOfTests(c) else None
    case Replayed(_, _, _, _, _, _, _, _, _, _, _, _) => if stage == Soak then SummaryOfSoak(c) else None
    case Documentation(_, _, _, _, _, _, _, _, _, _) => if stage == Docs then SummaryOfDocs(c) else None
    case Lived(data) => if stage in {EdaLive, NspLive} then SummaryOfLive(stage, data) else None
  }

  // ---------------------------------------------------------------- the sizes of raw reports

  function IntBytes(n: int): nat { |PrintNat(if n < 0 then -n else n)| + if n < 0 then 1 else 0 }

  /** How many digits are left without the trailing zeros. */
  function Significant(n: nat): nat { if n < 10 || n % 10 != 0 then |PrintNat(n)| else Significant(n / 10) }

  /** A number in its shortest notation; from 22 digits on that has an exponent. */
  function DecimalBytes(d: Decimal): nat {
    var n := IntBytes(d.units);
    if d.places > 0 then n + 1
    else if n <= 21 then n
    else
      var m := Significant(if d.units < 0 then -d.units else d.units);
      (if m == 1 then m else m + 1) + |"e+"| + IntBytes(n - 1)
  }

  function BoolBytes(b: bool): nat { if b then |"true"| else |"false"| }

  const YEAR_10000: nat := 253402300800000

  /** A quoted time stamp of millisecond precision; later years than 9999 have two more digits and a sign. */
  function TimeBytes(at: nat): nat { if at < YEAR_10000 then 26 else 29 }

  function TextBytes(s: string): nat { 2 + |s| }

  function ListBytes(l: seq<string>): nat { if l == [] then |"[]"| else TextBytes(l[0]) + 1 + TailBytes(l[1..]) + 1 }

  function TailBytes(l: seq<string>): nat { if l == [] then 0 else 1 + TextBytes(l[0]) + TailBytes(l[1..]) }

  /** A field, with the comma in front of it. */
  function FieldBytes(name: string, value: nat): nat { 1 + TextBytes(name) + 1 + value }

  function OptionalInt(name: string, n: Option<int>): nat { if n.Some? then FieldBytes(name, IntBytes(n.value)) else 0 }

  function OptionalText(name: string, s: Option<string>): nat {
    if s.Some? then FieldBytes(name, TextBytes(s.value)) else 0
  }

  /** An object whose fields, with a comma in front of each, take `fields` bytes. */
  function ObjectBytes(fields: nat): nat { if fields == 0 then |"{}"| else fields + 1 }

  function LiveBytes(stage: Stage, data: LiveData, capturedAt: nat): nat {
    var outcome := if data.outcome == Skipped then "skipped" else if data.outcome == Passed then "passed" else "failed";
    var common := FieldBytes("outcome", TextBytes(outcome)) + FieldBytes("checks", ListBytes(data.checks))
                  + FieldBytes("checkedAt", TimeBytes(capturedAt));
    if data.outcome == Skipped then ObjectBytes(common + FieldBytes("reasonCode", TextBytes(data.reasonCode)))
    else
      var verification :=
        if data.verification.None? then 0
        else FieldBytes("apiCertificateVerification", BoolBytes(data.verification.value));
      if stage == EdaLive then
        ObjectBytes(common + verification + OptionalText("targetVersion", data.target)
                    + FieldBytes("apiTrust", TextBytes(data.trust)))
      else
        ObjectBytes(common + verification
                    + if data.target.None? then 0
                      else FieldBytes("target", ObjectBytes(OptionalText("product", data.target))))
  }

  /**
   * The size of the shortest text of a report: only the fields that are read, and no white space. What a
   * producer adds to it makes the file larger.
   */
  function LeastBytes(stage: Stage, c: Content, capturedAt: nat): nat {
    match c
    case Vitest(success, total, passed, pending, todo, failed, suites) =>
      ObjectBytes(FieldBytes("startTime", IntBytes(capturedAt)) + FieldBytes("success", BoolBytes(success))
                  + FieldBytes("numTotalTests", IntBytes(total)) + FieldBytes("numPassedTests", IntBytes(passed))
                  + FieldBytes("numFailedTests", IntBytes(failed)) + FieldBytes("numFailedTestSuites", IntBytes(suites))
                  + OptionalInt("numPendingTests", pending) + OptionalInt("numTodoTests", todo))
    case Replayed(outcome, check, qualified, seconds, rate, mixed, roundTrip, elapsed, generated, published, drops,
                  rss) =>
      var config := FieldBytes("seconds", IntBytes(seconds)) + FieldBytes("rate", IntBytes(rate))
                    + FieldBytes("mixed", BoolBytes(mixed)) + FieldBytes("roundTrip", BoolBytes(roundTrip));
      var evidence := FieldBytes("config", ObjectBytes(config))
                      + FieldBytes("qualification", ObjectBytes(FieldBytes("passed", BoolBytes(qualified))))
                      + FieldBytes("elapsedMs", DecimalBytes(elapsed)) + FieldBytes("generated", IntBytes(generated))
                      + FieldBytes("published", IntBytes(published)) + FieldBytes("hostDisplayDrops", IntBytes(drops))
                      + FieldBytes("peakRss", IntBytes(rss));
      ObjectBytes(FieldBytes("outcome", TextBytes(outcome)) + FieldBytes("check", TextBytes(check))
                  + FieldBytes("checkedAt", TimeBytes(capturedAt)) + FieldBytes("evidence", ObjectBytes(evidence)))
    case Documentation(version, outcome, pages, routes, browser, startedAt, completedAt, media, reason, fingerprint) =>
      var inputs := FieldBytes("outcome", TextBytes(media)) + OptionalText("reason", reason)
                    + FieldBytes("fingerprint", TextBytes(fingerprint));
      ObjectBytes(FieldBytes("schemaVersion", IntBytes(version)) + FieldBytes("outcome", TextBytes(outcome))
                  + FieldBytes("htmlPages", IntBytes(pages)) + FieldBytes("routes", IntBytes(routes))
                  + FieldBytes("browserSha256", TextBytes(browser)) + FieldBytes("startedAt", TimeBytes(startedAt))
                  + FieldBytes("completedAt", TimeBytes(completedAt)) + FieldBytes("media", ObjectBytes(inputs))
                  + if capturedAt == completedAt then 0 else FieldBytes("checkedAt", TimeBytes(capturedAt)))
    case Lived(data) => LiveBytes(stage, data, capturedAt)
  }

  /** A report file: its size, the time by which it is placed in a stage, and what it says. */
  datatype RawReport = RawReport(bytes: nat, capturedAt: nat, content: Content)

  /** A report on disk, with its modification time. */
  datatype FoundReport = FoundReport(raw: RawReport, writtenAt: nat)

  /** SHA-256 of a raw report, injective like every digest here. */
  datatype RawDigest = RawSha256(preimage: RawReport)

  /** What identifies a raw report in the bundle. */
  datatype Origin = Origin(sha256: RawDigest, bytes: int)

  // ---------------------------------------------------------------- receipts

  /** The sanitized copy that is kept in the bundle. */
  datatype Projection = Projection(stage: Stage, origin: Origin, summary: Summary)

  datatype Report = Report(path: Stage, sha256: Digest<Projection>, summary: Summary)

  datatype Reason = NotSelected | NotConfigured | StageFailed

  datatype StageReceipt = StageReceipt(
    stage: Stage, outcome: Outcome, startedAt: Option<nat>, completedAt: Option<nat>, reason: Option<Reason>,
    reports: seq<Report>)

  datatype Source = Source(commit: string, tree: string, dirty: bool, fingerprint: string)

  predicate SourceOk(s: Source) {
    IsLowerHex(s.commit, 40, 64) && IsLowerHex(s.tree, 40, 64) && IsLowerHex(s.fingerprint, 64, 64)
  }

  /** Schema 1 has no scope. */
  datatype Receipt = Receipt(
    scope: Option<Scope>, startedAt: nat, completedAt: Option<nat>, exitCode: Option<int>,
    start: Source, end: Option<Source>, sourceUnchanged: bool, outcome: Outcome, stages: seq<StageReceipt>)

  function ScopeOf(r: Receipt): Scope { if r.scope.Some? then r.scope.value else Full }

  function Blank(scope: Scope, stage: Stage): StageReceipt {
    StageReceipt(stage, NotRun, None, None, if Selects(scope, stage) then None else Some(NotSelected), [])
  }

  function ReasonFor(outcome: Outcome): Option<Reason> {
    if outcome == Skipped then Some(NotConfigured) else if outcome == Failed then Some(StageFailed) else None
  }

  type Evidence = map<Stage, Projection>

  /** The report of a stage and its copy in the bundle agree, and the summary is a valid one. */
  predicate ReportOk(s: StageReceipt, report: Report, evidence: Evidence) {
    && report.path == s.stage && s.stage in evidence
    && var copy := evidence[s.stage];
    && report.sha256 == Sha256(copy) && copy.stage == s.stage && copy.summary == report.summary
    && Count(copy.origin.bytes, 1)
    && ValidSummary(s.stage, report.summary)
    && (s.outcome == Failed || s.outcome == report.summary.outcome)
  }

  predicate Ran(s: StageReceipt) { s.outcome in {Passed, Failed, Skipped} }

  /** A stage that ran between `start` and `end`. */
  predicate RanWell(s: StageReceipt, start: nat, end: nat, evidence: Evidence) {
    && s.startedAt.Some? && s.completedAt.Some? && start <= s.startedAt.value <= s.completedAt.value <= end
    && s.reason == ReasonFor(s.outcome)
    && |s.reports| <= 1 && (s.outcome != Failed ==> |s.reports| == 1)
    && forall i :: 0 <= i < |s.reports| ==> ReportOk(s, s.reports[i], evidence)
  }

  predicate StageOk(scope: Scope, s: StageReceipt, start: nat, end: nat, evidence: Evidence) {
    if !Selects(scope, s.stage) || s.outcome == NotRun then s == Blank(scope, s.stage)
    else Ran(s) && RanWell(s, start, end, evidence) && (scope == Full || s.outcome != Skipped)
  }

  /** A stage runs only after every selected stage before it has ended without failing. */
  predicate EndsBefore(scope: Scope, a: StageReceipt, b: StageReceipt) {
    Selects(scope, a.stage) && Selects(scope, b.stage) && b.outcome != NotRun ==>
      && a.outcome in {Passed, Skipped}
      && a.completedAt.Some? && b.startedAt.Some? && a.completedAt.value <= b.startedAt.value
  }

  predicate InOrder(scope: Scope, stages: seq<StageReceipt>) {
    && |stages| == 5 && (forall i :: 0 <= i < 5 ==> stages[i].stage == LOCAL_STAGES[i])
    && forall i, j :: 0 <= i < j < 5 ==> EndsBefore(scope, stages[i], stages[j])
  }

  predicate AllQualified(scope: Scope, stages: seq<StageReceipt>) {
    forall i :: 0 <= i < |stages| && Selects(scope, stages[i].stage) ==> Qualified(scope, stages[i].outcome)
  }

  /**
   * The finished bundles: stages in order and within the execution, with evidence, and an outcome that follows
   * from them.
   */
  ghost predicate Sound(r: Receipt, evidence: Evidence) {
    && r.outcome in {Passed, Failed}
    && r.exitCode.Some? && 0 <= r.exitCode.value <= 255
    && r.completedAt.Some? && r.startedAt <= r.completedAt.value
    && r.end.Some? && SourceOk(r.start) && SourceOk(r.end.value) && r.sourceUnchanged == (r.start == r.end.value)
    && InOrder(ScopeOf(r), r.stages)
    && (forall i :: 0 <= i < 5 ==> StageOk(ScopeOf(r), r.stages[i], r.startedAt, r.completedAt.value, evidence))
    && (r.outcome == Passed <==> r.exitCode == Some(0) && r.sourceUnchanged && AllQualified(ScopeOf(r), r.stages))
  }

  /** Every stage of the scope passed; those of a full qualification may also be skipped. */
  ghost predicate AllDone(r: Receipt)
    requires |r.stages| == 5
  {
    match r.scope
    case None => forall i :: 0 <= i < 5 ==> r.stages[i].outcome == Passed || r.stages[i].outcome == Skipped
    case Some(Full) => forall i :: 0 <= i < 5 ==> r.stages[i].outcome == Passed || r.stages[i].outcome == Skipped
    case Some(Core) =>
      r.stages[0].outcome == Passed && r.stages[1].outcome == Passed && r.stages[2].outcome == Passed
    case Some(Eda) => r.stages[3].outcome == Passed
    case Some(Nsp) => r.stages[4].outcome == Passed
    case Some(Live) => r.stages[3].outcome == Passed && r.stages[4].outcome == Passed
  }

  /** Exactly when a sound receipt is a passed one. */
  lemma PassedExactly(r: Receipt, evidence: Evidence)
    requires Sound(r, evidence)
    ensures |r.stages| == 5
    ensures r.outcome == Passed <==> r.exitCode == Some(0) && r.end == Some(r.start) && AllDone(r)
    ensures r.outcome != Passed ==> r.outcome == Failed
  {
    hide StageOk, EndsBefore, SourceOk;
    AllDoneIs(r);
  }

  lemma AllDoneIs(r: Receipt)
    requires |r.stages| == 5 && forall i :: 0 <= i < 5 ==> r.stages[i].stage == LOCAL_STAGES[i]
    ensures AllDone(r) <==> AllQualified(ScopeOf(r), r.stages)
  {
    assert LOCAL_STAGES[0] == Shared && LOCAL_STAGES[1] == Soak && LOCAL_STAGES[2] == Docs;
    assert LOCAL_STAGES[3] == EdaLive && LOCAL_STAGES[4] == NspLive;
  }

  // ---------------------------------------------------------------- the validator

  /** One round of the loop over the stages, for a selected stage that ran. */
  method ValidateRan(s: StageReceipt, evidence: Evidence, previous: nat, end: nat) returns (ok: bool)
    requires Ran(s)
    ensures ok <==> RanWell(s, previous, end, evidence)
  {
    if s.startedAt.None? || s.completedAt.None? || !(previous <= s.startedAt.value <= s.completedAt.value <= end) {
      return false;
    }
    if s.reason != ReasonFor(s.outcome) || |s.reports| > 1 || (s.outcome != Failed && |s.reports| != 1) {
      return false;
    }
    ok := s.reports == [] || ReportOk(s, s.reports[0], evidence);
  }

  /** What the loop over the stages knows when it has passed the first `n`. */
  ghost predicate Scanned(r: Receipt, evidence: Evidence, n: nat, previous: nat, stopped: bool)
    requires |r.stages| == 5 && n <= 5 && r.completedAt.Some?
  {
    && Checked(r, evidence, n) && r.startedAt <= previous
    && (stopped <==> exists k :: 0 <= k < n && Stops(ScopeOf(r), r.stages[k]))
    && (!stopped ==> Latest(ScopeOf(r), r.stages, n, r.startedAt, previous))
  }

  lemma CheckedMore(r: Receipt, evidence: Evidence, n: nat)
    requires |r.stages| == 5 && n < 5 && r.completedAt.Some? && Checked(r, evidence, n)
    requires r.stages[n].stage == LOCAL_STAGES[n]
    requires forall i :: 0 <= i < n ==> EndsBefore(ScopeOf(r), r.stages[i], r.stages[n])
    requires StageOk(ScopeOf(r), r.stages[n], r.startedAt, r.completedAt.value, evidence)
    ensures Checked(r, evidence, n + 1)
  {
    hide EndsBefore, StageOk;
  }

  lemma StopsMore(r: Receipt, n: nat, stopped: bool)
    requires n < |r.stages| && (stopped <==> exists k :: 0 <= k < n && Stops(ScopeOf(r), r.stages[k]))
    ensures stopped || Stops(ScopeOf(r), r.stages[n]) <==> exists k :: 0 <= k < n + 1 && Stops(ScopeOf(r), r.stages[k])
  {
    hide Stops;
  }

  lemma SkipStage(r: Receipt, evidence: Evidence, n: nat, previous: nat, stopped: bool)
    requires |r.stages| == 5 && n < 5 && r.completedAt.Some? && Scanned(r, evidence, n, previous, stopped)
    requires r.stages[n] == Blank(ScopeOf(r), LOCAL_STAGES[n])
    ensures Scanned(r, evidence, n + 1, previous, stopped || Selects(ScopeOf(r), r.stages[n].stage))
  {
    hide Selects, RanWell, Checked;
    BlankFits(r, evidence, n);
    CheckedMore(r, evidence, n);
    StopsMore(r, n, stopped);
  }

  lemma BlankFits(r: Receipt, evidence: Evidence, n: nat)
    requires |r.stages| == 5 && n < 5 && r.completedAt.Some? && r.stages[n] == Blank(ScopeOf(r), LOCAL_STAGES[n])
    ensures forall i :: 0 <= i < n ==> EndsBefore(ScopeOf(r), r.stages[i], r.stages[n])
    ensures StageOk(ScopeOf(r), r.stages[n], r.startedAt, r.completedAt.value, evidence)
  {
    hide Selects, RanWell;
  }

  lemma PassStage(r: Receipt, evidence: Evidence, n: nat, previous: nat)
    requires |r.stages| == 5 && n < 5 && r.completedAt.Some? && Scanned(r, evidence, n, previous, false)
    requires r.stages[n].stage == LOCAL_STAGES[n] && Selects(ScopeOf(r), LOCAL_STAGES[n]) && Ran(r.stages[n])
    requires RanWell(r.stages[n], previous, r.completedAt.value, evidence)
             && (ScopeOf(r) == Full || r.stages[n].outcome != Skipped)
    ensures Scanned(r, evidence, n + 1, r.stages[n].completedAt.value, r.stages[n].outcome == Failed)
  {
    hide Selects, ReportOk;
    EndedBefore(r, evidence, n, previous);
    hide Checked, EndsBefore;
    CheckedMore(r, evidence, n);
    StopsMore(r, n, false);
  }

  lemma EndedBefore(r: Receipt, evidence: Evidence, n: nat, previous: nat)
    requires |r.stages| == 5 && n < 5 && r.completedAt.Some? && Scanned(r, evidence, n, previous, false)
    requires r.stages[n].startedAt.Some? && previous <= r.stages[n].startedAt.value
    ensures forall i :: 0 <= i < n ==> EndsBefore(ScopeOf(r), r.stages[i], r.stages[n])
  {
    hide Selects, ReportOk, StageOk;
    forall i | 0 <= i < n ensures EndsBefore(ScopeOf(r), r.stages[i], r.stages[n]) {
      assert !Stops(ScopeOf(r), r.stages[i]);
    }
  }

  /** What follows a stage that stops, and what overlaps the stage before it, is refused. */
  lemma RefuseStage(r: Receipt, evidence: Evidence, n: nat, previous: nat, stopped: bool)
    requires |r.stages| == 5 && n < 5 && r.completedAt.Some? && Scanned(r, evidence, n, previous, stopped)
    requires Checked(r, evidence, n + 1) && Selects(ScopeOf(r), r.stages[n].stage) && r.stages[n].outcome != NotRun
    ensures !stopped && RanWell(r.stages[n], previous, r.completedAt.value, evidence)
  {
    hide Selects, ReportOk;
    var scope := ScopeOf(r);
    forall k | 0 <= k < n ensures !Stops(scope, r.stages[k]) { assert EndsBefore(scope, r.stages[k], r.stages[n]); }
    assert Latest(scope, r.stages, n, r.startedAt, previous);
  }

  /** One round of the loop. */
  method ValidateStage(r: Receipt, evidence: Evidence, n: nat, previous: nat, stopped: bool)
    returns (ok: bool, latest: nat, stops: bool)
    requires |r.stages| == 5 && n < 5 && r.completedAt.Some? && Scanned(r, evidence, n, previous, stopped)
    ensures ok <==> Checked(r, evidence, n + 1)
    ensures ok ==> Scanned(r, evidence, n + 1, latest, stops)
  {
    hide Selects, ReportOk, Latest;
    var scope, s := ScopeOf(r), r.stages[n];
    latest, stops := previous, stopped;
    if s.stage != LOCAL_STAGES[n] {
      return false, latest, stops;
    }
    if !Selects(scope, s.stage) || s.outcome == NotRun {
      ok := s == Blank(scope, s.stage);
      stops := stopped || Selects(scope, s.stage);
      if ok { SkipStage(r, evidence, n, previous, stopped); }
      return;
    }
    if !Ran(s) || (scope != Full && s.outcome == Skipped) {
      return false, latest, stops;
    }
    if Checked(r, evidence, n + 1) { RefuseStage(r, evidence, n, previous, stopped); }
    ok := ValidateRan(s, evidence, previous, r.completedAt.value);
    ok := ok && !stopped;
    if ok {
      PassStage(r, evidence, n, previous);
      latest := s.completedAt.value;
      stops := s.outcome == Failed;
    }
  }

  /** validateLocalQualificationBundle */
  method Validate(r: Receipt, evidence: Evidence) returns (ok: bool)
    ensures ok <==> Sound(r, evidence)
    ensures ok ==> |r.stages| == 5
                   && (r.outcome == Passed <==> r.exitCode == Some(0) && r.end == Some(r.start) && AllDone(r))
  {
    hide StageOk, EndsBefore, Stops, Latest, AllDone;
    if r.outcome !in {Passed, Failed} || r.exitCode.None? || !(0 <= r.exitCode.value <= 255) || r.completedAt.None? {
      return false;
    }
    var end := r.completedAt.value;
    if r.startedAt > end || r.end.None? || !SourceOk(r.start) || !SourceOk(r.end.value)
       || r.sourceUnchanged != (r.start == r.end.value) {
      return false;
    }
    if |r.stages| != 5 {
      return false;
    }
    var previous, stopped := r.startedAt, false;
    StartScan(r, evidence);
    for i := 0 to 5
      invariant Scanned(r, evidence, i, previous, stopped)
    {
      ok, previous, stopped := ValidateStage(r, evidence, i, previous, stopped);
      if !ok { return; }
    }
    ok := (r.outcome == Passed) == (r.exitCode == Some(0) && r.sourceUnchanged && AllQualified(ScopeOf(r), r.stages));
    if ok { PassedExactly(r, evidence); }
  }

  lemma StartScan(r: Receipt, evidence: Evidence)
    requires |r.stages| == 5 && r.completedAt.Some?
    ensures Scanned(r, evidence, 0, r.startedAt, false)
  {
  }

  /** A selected stage after which no other runs. */
  predicate Stops(scope: Scope, s: StageReceipt) { Selects(scope, s.stage) && s.outcome !in {Passed, Skipped} }

  ghost predicate Checked(r: Receipt, evidence: Evidence, n: nat)
    requires |r.stages| == 5 && n <= 5 && r.completedAt.Some?
  {
    && (forall i :: 0 <= i < n ==> r.stages[i].stage == LOCAL_STAGES[i])
    && (forall i, j :: 0 <= i < j < n ==> EndsBefore(ScopeOf(r), r.stages[i], r.stages[j]))
    && forall i :: 0 <= i < n ==> StageOk(ScopeOf(r), r.stages[i], r.startedAt, r.completedAt.value, evidence)
  }

  /** The end of the last stage so far, or the start of the execution. */
  ghost predicate Latest(scope: Scope, stages: seq<StageReceipt>, n: nat, start: nat, previous: nat)
    requires n <= |stages|
  {
    && (forall i :: 0 <= i < n && Selects(scope, stages[i].stage) && Ran(stages[i]) ==>
          stages[i].completedAt.Some? && stages[i].completedAt.value <= previous)
    && (|| previous == start
        || exists i :: 0 <= i < n && Selects(scope, stages[i].stage) && stages[i].completedAt == Some(previous))
  }

  // ---------------------------------------------------------------- the commands

  function IndexOf(stage: Stage): nat {
    match stage case Shared => 0 case Soak => 1 case Docs => 2 case EdaLive => 3 case NspLive => 4
  }

  /** A report of a possible size that was made during the stage and says something valid. */
  predicate IsAcceptable(stage: Stage, raw: RawReport, startedAt: nat, completedAt: nat) {
    && 1 <= raw.bytes <= MAX_REPORT && LeastBytes(stage, raw.content, raw.capturedAt) <= raw.bytes
    && startedAt <= raw.capturedAt <= completedAt
    && (raw.content.Documentation? ==> startedAt <= raw.content.startedAt && raw.content.completedAt <= completedAt)
    && SummaryOf(stage, raw.content).Some? && ValidSummary(stage, SummaryOf(stage, raw.content).value)
  }

  predicate Collectable(stage: Stage, found: Option<FoundReport>, startedAt: nat, completedAt: nat) {
    found.Some? && startedAt <= found.value.writtenAt && IsAcceptable(stage, found.value.raw, startedAt, completedAt)
  }

  function Started(s: StageReceipt, at: nat): StageReceipt { s.(outcome := Running, startedAt := Some(at)) }

  function CopyOf(stage: Stage, raw: RawReport): Projection
    requires SummaryOf(stage, raw.content).Some?
  {
    Projection(stage, Origin(RawSha256(raw), raw.bytes), SummaryOf(stage, raw.content).value)
  }

  /** The stage receipt after a successful collection. */
  function Collected(s: StageReceipt, copy: Projection, at: nat): StageReceipt {
    s.(outcome := copy.summary.outcome, completedAt := Some(at), reason := ReasonFor(copy.summary.outcome),
       reports := [Report(s.stage, Sha256(copy), copy.summary)])
  }

  /** What finishing makes of a stage that still runs. */
  function Aborted(s: StageReceipt, copy: Option<Projection>, at: nat): StageReceipt {
    s.(outcome := Failed, completedAt := Some(at), reason := Some(StageFailed),
       reports := if copy.Some? then [Report(s.stage, Sha256(copy.value), copy.value.summary)] else [])
  }

  /** A stage of a receipt that is still being written. */
  predicate Progressing(scope: Scope, s: StageReceipt, start: nat, clock: nat, evidence: Evidence) {
    if s.outcome == Running then
      Selects(scope, s.stage) && s.startedAt.Some? && start <= s.startedAt.value <= clock
      && s == Started(Blank(scope, s.stage), s.startedAt.value)
    else s.outcome != Failed && StageOk(scope, s, start, clock, evidence)
  }

  ghost predicate InProgress(r: Receipt, evidence: Evidence, clock: nat) {
    && r.outcome == Running && r.scope.Some? && r.startedAt <= clock && SourceOk(r.start)
    && r.completedAt.None? && r.exitCode.None? && r.end.None? && !r.sourceUnchanged
    && InOrder(ScopeOf(r), r.stages)
    && forall i :: 0 <= i < 5 ==> Progressing(ScopeOf(r), r.stages[i], r.startedAt, clock, evidence)
  }

  /** The next stage: all selected ones before it are complete. */
  predicate IsNext(scope: Scope, stages: seq<StageReceipt>, n: nat) {
    && n < |stages| && Selects(scope, stages[n].stage) && stages[n].outcome == NotRun
    && forall i :: 0 <= i < n && Selects(scope, stages[i].stage) ==> stages[i].outcome in {Passed, Skipped}
  }

  lemma StageStarts(r: Receipt, evidence: Evidence, clock: nat, n: nat, at: nat)
    requires InProgress(r, evidence, clock) && IsNext(ScopeOf(r), r.stages, n) && clock <= at
    ensures InProgress(r.(stages := r.stages[n := Started(r.stages[n], at)]), evidence, at)
  {
    hide ReportOk, Selects;
    var scope, stages := ScopeOf(r), r.stages[n := Started(r.stages[n], at)];
    forall i | 0 <= i < 5 ensures Progressing(scope, stages[i], r.startedAt, at, evidence) {
      assert Progressing(scope, r.stages[i], r.startedAt, clock, evidence);
    }
    forall i, j | 0 <= i < j < 5 ensures EndsBefore(scope, stages[i], stages[j]) {
      assert EndsBefore(scope, r.stages[i], r.stages[j]);
      assert Progressing(scope, r.stages[i], r.startedAt, clock, evidence);
    }
  }

  /** Rewriting the copy of a running stage disturbs no other stage. */
  lemma CopyChanges(r: Receipt, evidence: Evidence, clock: nat, n: nat, copy: Projection, at: nat)
    requires InProgress(r, evidence, clock) && n < 5 && r.stages[n].outcome == Running && clock <= at
    ensures InProgress(r, evidence[r.stages[n].stage := copy], at)
  {
    hide Selects, ValidSummary;
    var more := evidence[r.stages[n].stage := copy];
    forall i | 0 <= i < 5 ensures Progressing(ScopeOf(r), r.stages[i], r.startedAt, at, more) {
      assert Progressing(ScopeOf(r), r.stages[i], r.startedAt, clock, evidence);
    }
  }

  lemma StageCompletes(r: Receipt, evidence: Evidence, clock: nat, n: nat, found: FoundReport, at: nat)
    requires InProgress(r, evidence, clock) && n < 5 && r.stages[n].outcome == Running && clock <= at
    requires Collectable(r.stages[n].stage, Some(found), r.stages[n].startedAt.value, at)
    requires var copy := CopyOf(r.stages[n].stage, found.raw);
             Qualified(ScopeOf(r), copy.summary.outcome) && copy.stage in evidence && evidence[copy.stage] == copy
    ensures InProgress(r.(stages := r.stages[n := Collected(r.stages[n], CopyOf(r.stages[n].stage, found.raw), at)]),
                       evidence, at)
  {
    hide Selects, ValidSummary, SummaryOf, LeastBytes;
    var scope, stages := ScopeOf(r), r.stages[n := Collected(r.stages[n], CopyOf(r.stages[n].stage, found.raw), at)];
    forall i | 0 <= i < 5 ensures Progressing(scope, stages[i], r.startedAt, at, evidence) {
      assert Progressing(scope, r.stages[i], r.startedAt, clock, evidence);
    }
    forall i, j | 0 <= i < j < 5 ensures EndsBefore(scope, stages[i], stages[j]) {
      assert EndsBefore(scope, r.stages[i], r.stages[j]);
    }
  }

  predicate KeepsOthers(before: Evidence, after: Evidence, stage: Stage) {
    forall s :: s in before && s != stage ==> s in after && after[s] == before[s]
  }

  /** The copies of stages that no longer run. */
  predicate KeepsEnded(before: Evidence, after: Evidence, stages: seq<StageReceipt>) {
    |stages| == 5 && forall s :: s in before && stages[IndexOf(s)].outcome != Running ==>
      s in after && after[s] == before[s]
  }

  lemma KeptAlready(evidence: Evidence, stages: seq<StageReceipt>)
    requires |stages| == 5
    ensures KeepsEnded(evidence, evidence, stages)
  {
  }

  lemma KeptStill(a: Evidence, b: Evidence, c: Evidence, stages: seq<StageReceipt>)
    requires KeepsEnded(a, b, stages) && KeepsEnded(b, c, stages)
    ensures KeepsEnded(a, c, stages)
  {
  }

  lemma StageCount(r: Receipt, evidence: Evidence, clock: nat)
    requires InProgress(r, evidence, clock)
    ensures |r.stages| == 5
    ensures forall i :: 0 <= i < 5 ==> r.stages[i].stage == LOCAL_STAGES[i]
    ensures forall i :: 0 <= i < 5 && r.stages[i].outcome == Running ==> r.stages[i].startedAt.Some?
  {
    hide Selects, ReportOk, StageOk;
  }

  lemma CopiesKept(stages: seq<StageReceipt>, n: nat, before: Evidence, after: Evidence, found: Option<FoundReport>,
                   copied: bool, at: nat)
    requires |stages| == 5 && forall i :: 0 <= i < 5 ==> stages[i].stage == LOCAL_STAGES[i]
    requires n < 5 && stages[n].outcome == Running && KeepsOthers(before, after, stages[n].stage)
    ensures KeepsEnded(before, after, stages)
    ensures forall k :: 0 <= k < 5 && k != n && CopyKept(stages[k], found, copied, at, before) ==>
              CopyKept(stages[k], found, copied, at, after)
  {
    hide Collectable, CopyOf;
  }

  /**
   * The summaries that producers can cause. The validator would also take more pending tests than there
   * are tests, and a certificate authority of an NSP target's own.
   */
  predicate EmittedSummary(stage: Stage, s: Summary) {
    && (stage == Shared && s.SharedSummary? ==> s.skipped <= s.total && s.todo <= s.total)
    && (stage == NspLive && s.LiveSummary? ==>
          s.apiTrust == if s.apiCertificateVerification then "system-trust" else "verification-disabled")
  }

  /** The report identifies a raw report of its stage, and summarizes that one. */
  predicate IsGenuine(s: StageReceipt, report: Report) {
    && s.startedAt.Some? && s.completedAt.Some?
    && var copy := report.sha256.preimage;
    && var raw := copy.origin.sha256.preimage;
    && IsAcceptable(s.stage, raw, s.startedAt.value, s.completedAt.value) && copy == CopyOf(s.stage, raw)
  }

  predicate EmittedStage(s: StageReceipt) { forall i :: 0 <= i < |s.reports| ==> IsGenuine(s, s.reports[i]) }

  predicate Emitted(stages: seq<StageReceipt>) { forall i :: 0 <= i < |stages| ==> EmittedStage(stages[i]) }

  /**
   * What the commands add to the validator's conditions: the newer schema, reports that identify a raw
   * report, and a failure that ends with the execution.
   */
  predicate Producible(r: Receipt) {
    && r.scope.Some? && Emitted(r.stages)
    && forall i :: 0 <= i < |r.stages| && r.stages[i].outcome == Failed ==> r.stages[i].completedAt == r.completedAt
  }

  lemma CollectedIsEmitted(stages: seq<StageReceipt>, n: nat, found: FoundReport, at: nat)
    requires Emitted(stages) && n < |stages| && stages[n].startedAt.Some?
    requires Collectable(stages[n].stage, Some(found), stages[n].startedAt.value, at)
    ensures Emitted(stages[n := Collected(stages[n], CopyOf(stages[n].stage, found.raw), at)])
  {
    hide SummaryOf, ValidSummary;
    var more := stages[n := Collected(stages[n], CopyOf(stages[n].stage, found.raw), at)];
    forall i | 0 <= i < |more| ensures EmittedStage(more[i]) { assert EmittedStage(stages[i]); }
  }

  lemma FinishedIsProducible(r: Receipt, evidence: Evidence, exitCode: int, at: nat, found: Option<FoundReport>,
                             copied: bool, end: Source)
    requires InProgress(r, evidence, at) && Emitted(r.stages)
    ensures Producible(Finished(r, exitCode, at, found, copied, end))
  {
    hide SummaryOf, ValidSummary;
    var stages := EndedAll(r.stages, found, copied, at);
    forall i | 0 <= i < |stages|
      ensures EmittedStage(stages[i]) && (stages[i].outcome == Failed ==> stages[i].completedAt == Some(at))
    {
      assert EmittedStage(r.stages[i]) && Progressing(ScopeOf(r), r.stages[i], r.startedAt, at, evidence);
      assert stages[i] == Ended(r.stages[i], found, copied, at);
    }
  }

  /** One qualification on disk. Every command reads the receipt, and writes it back only when it succeeds. */
  class Bundle {
    var receipt: Receipt
    var evidence: Evidence
    var clock: nat

    ghost predicate Valid()
      reads this
    {
      && Emitted(receipt.stages)
      && if receipt.outcome == Running then InProgress(receipt, evidence, clock)
         else Sound(receipt, evidence) && Producible(receipt)
    }

    /** beginLocalQualification */
    constructor (scope: Scope, at: nat, source: Source)
      requires SourceOk(source)
      ensures Valid() && receipt.outcome == Running && clock == at && evidence == map[]
      ensures receipt == Receipt(Some(scope), at, None, None, source, None, false, Running,
                                 seq(5, i requires 0 <= i < 5 => Blank(scope, LOCAL_STAGES[i])))
    {
      var stages := seq(5, i requires 0 <= i < 5 => Blank(scope, LOCAL_STAGES[i]));
      receipt := Receipt(Some(scope), at, None, None, source, None, false, Running, stages);
      evidence := map[];
      clock := at;
    }

    /** beginLocalStage: the first selected stage that is not complete must be this one, and not started. */
    method BeginStage(stage: Stage, at: nat) returns (ok: bool)
      requires Valid() && clock <= at
      modifies this
      ensures Valid() && clock == at && evidence == old(evidence)
      ensures ok <==> old(receipt.outcome == Running && IsNext(ScopeOf(receipt), receipt.stages, IndexOf(stage)))
      ensures receipt == if ok
                         then old(receipt.(stages := receipt.stages[
                           IndexOf(stage) := Started(receipt.stages[IndexOf(stage)], at)]))
                         else old(receipt)
    {
      hide Sound, Producible, StageOk, SourceOk;
      if receipt.outcome != Running {
        clock := at;
        return false;
      }
      ClockAdvances(receipt, evidence, clock, at);
      var open := FirstOpen();
      ok := open < 5 && receipt.stages[open].stage == stage && receipt.stages[open].outcome == NotRun;
      if ok {
        StageStarts(receipt, evidence, clock, open, at);
        receipt := receipt.(stages := receipt.stages[open := Started(receipt.stages[open], at)]);
      }
      clock := at;
    }

    method FirstOpen() returns (n: nat)
      requires receipt.outcome == Running && Valid()
      ensures n <= 5
      ensures n < 5 ==> Selects(ScopeOf(receipt), receipt.stages[n].stage)
                        && receipt.stages[n].outcome !in {Passed, Skipped}
      ensures forall i :: 0 <= i < n && Selects(ScopeOf(receipt), receipt.stages[i].stage) ==>
              receipt.stages[i].outcome in {Passed, Skipped}
    {
      n := 0;
      while n < 5 && !(Selects(ScopeOf(receipt), receipt.stages[n].stage)
                       && receipt.stages[n].outcome !in {Passed, Skipped})
        invariant n <= 5
        invariant forall i :: 0 <= i < n && Selects(ScopeOf(receipt), receipt.stages[i].stage) ==>
          receipt.stages[i].outcome in {Passed, Skipped}
      {
        n := n + 1;
      }
    }

    /** collect: the copy in the bundle, when the report is acceptable and the copy can be read back. */
    method Collect(n: nat, found: Option<FoundReport>, copied: bool, at: nat) returns (copy: Option<Projection>)
      requires receipt.outcome == Running && Valid() && clock <= at && n < 5 && receipt.stages[n].outcome == Running
      modifies `evidence, `clock
      ensures Valid() && clock == at
      ensures copy.Some? <==>
              copied && Collectable(receipt.stages[n].stage, found, receipt.stages[n].startedAt.value, at)
      ensures copy.Some? ==> copy.value == CopyOf(receipt.stages[n].stage, found.value.raw)
      ensures copy.Some? ==> evidence == old(evidence)[receipt.stages[n].stage := copy.value]
      ensures KeepsOthers(old(evidence), evidence, receipt.stages[n].stage)
    {
      var s := receipt.stages[n];
      ClockAdvances(receipt, evidence, clock, at);
      clock := at;
      if !Collectable(s.stage, found, s.startedAt.value, at) {
        return None;
      }
      copy := Some(CopyOf(s.stage, found.value.raw));
      CopyChanges(receipt, evidence, clock, n, copy.value, at);
      evidence := evidence[s.stage := copy.value];
      if !copied { copy := None; }
    }

    /** completeLocalStage: only a qualifying stage is written back. */
    method CompleteStage(stage: Stage, at: nat, found: Option<FoundReport>, copied: bool) returns (ok: bool)
      requires Valid() && clock <= at
      modifies this
      ensures Valid() && clock == at
      ensures ok <==> old(receipt.outcome == Running && receipt.stages[IndexOf(stage)].outcome == Running) && copied
                      && Collectable(stage, found, old(receipt.stages[IndexOf(stage)].startedAt.value), at)
                      && Qualified(old(ScopeOf(receipt)), CopyOf(stage, found.value.raw).summary.outcome)
      ensures !ok ==> receipt == old(receipt)
      ensures ok ==> evidence == old(evidence)[stage := CopyOf(stage, found.value.raw)]
      ensures ok ==> receipt == old(receipt.(stages := receipt.stages[IndexOf(stage) :=
                                              Collected(receipt.stages[IndexOf(stage)],
                                                        CopyOf(stage, found.value.raw), at)]))
    {
      hide Sound, Producible, StageOk, SourceOk, LeastBytes, ValidSummary, SummaryOf;
      var n := IndexOf(stage);
      if receipt.outcome != Running || receipt.stages[n].outcome != Running {
        if receipt.outcome == Running { ClockAdvances(receipt, evidence, clock, at); }
        clock := at;
        return false;
      }
      var copy := Collect(n, found, copied, at);
      if copy.None? || !Qualified(ScopeOf(receipt), copy.value.summary.outcome) {
        return false;
      }
      StageCompletes(receipt, evidence, clock, n, found.value, at);
      CollectedIsEmitted(receipt.stages, n, found.value, at);
      receipt := receipt.(stages := receipt.stages[n := Collected(receipt.stages[n], copy.value, at)]);
      ok := true;
    }

    /** finishLocalQualification: a stage that still runs has failed, whatever its report says. */
    method Finish(exitCode: int, at: nat, found: Option<FoundReport>, copied: bool, end: Source) returns (ok: bool)
      requires Valid() && clock <= at && SourceOk(end)
      modifies this
      ensures Valid() && clock == at
      ensures ok <==> 0 <= exitCode <= 255 && old(receipt.outcome) == Running
      ensures ok ==>
              Sound(receipt, evidence) && Producible(receipt)
              && receipt == Finished(old(receipt), exitCode, at, found, copied, end)
      ensures ok ==> |receipt.stages| == 5
                     && (receipt.outcome == Passed <==> exitCode == 0 && end == old(receipt).start && AllDone(receipt))
      ensures !ok ==> receipt == old(receipt) && evidence == old(evidence)
      ensures ok ==> KeepsEnded(old(evidence), evidence, old(receipt).stages)
      ensures ok ==> forall i :: 0 <= i < 5 ==> CopyKept(old(receipt).stages[i], found, copied, at, evidence)
    {
      hide Sound, Collectable, EndsBefore, Progressing, AllDone;
      if !(0 <= exitCode <= 255) || receipt.outcome != Running {
        if receipt.outcome == Running { ClockAdvances(receipt, evidence, clock, at); }
        clock := at;
        return false;
      }
      var stages := EndStages(found, copied, at);
      FinishedIsSound(receipt, evidence, exitCode, at, found, copied, end);
      FinishedIsProducible(receipt, evidence, exitCode, at, found, copied, end);
      receipt := Finished(receipt, exitCode, at, found, copied, end);
      assert receipt.stages == stages;
      PassedExactly(receipt, evidence);
      ok := true;
    }

    /** The loop over the stages that still run. */
    method EndStages(found: Option<FoundReport>, copied: bool, at: nat) returns (stages: seq<StageReceipt>)
      requires receipt.outcome == Running && Valid() && clock <= at
      modifies `evidence, `clock
      ensures Valid() && clock == at && stages == EndedAll(receipt.stages, found, copied, at)
      ensures forall i :: 0 <= i < 5 ==> CopyKept(receipt.stages[i], found, copied, at, evidence)
      ensures KeepsEnded(old(evidence), evidence, receipt.stages)
    {
      hide Ended, CopyKept, InProgress, KeepsEnded;
      assert |receipt.stages| == 5 by { StageCount(receipt, evidence, clock); }
      ClockAdvances(receipt, evidence, clock, at);
      clock := at;
      stages := receipt.stages;
      KeptAlready(evidence, receipt.stages);
      for i := 0 to 5
        invariant Valid() && clock == at
        invariant |stages| == 5 && forall k :: i <= k < 5 ==> stages[k] == receipt.stages[k]
        invariant forall k :: 0 <= k < i ==> stages[k] == Ended(receipt.stages[k], found, copied, at)
        invariant forall k :: 0 <= k < i ==> CopyKept(receipt.stages[k], found, copied, at, evidence)
        invariant KeepsEnded(old(evidence), evidence, receipt.stages)
      {
        ghost var was := evidence;
        var s := EndStage(i, found, copied, at);
        stages := stages[i := s];
        KeptStill(old(evidence), was, evidence, receipt.stages);
      }
    }

    method EndStage(n: nat, found: Option<FoundReport>, copied: bool, at: nat) returns (s: StageReceipt)
      requires receipt.outcome == Running && Valid() && clock == at && n < 5 && |receipt.stages| == 5
      modifies `evidence, `clock
      ensures Valid() && clock == at && s == Ended(receipt.stages[n], found, copied, at)
      ensures CopyKept(receipt.stages[n], found, copied, at, evidence)
      ensures forall k :: 0 <= k < 5 && k != n && CopyKept(receipt.stages[k], found, copied, at, old(evidence)) ==>
                CopyKept(receipt.stages[k], found, copied, at, evidence)
      ensures KeepsEnded(old(evidence), evidence, receipt.stages)
    {
      hide Sound, Producible, InProgress, KeepsEnded, Collectable, CopyOf;
      StageCount(receipt, evidence, clock);
      KeptAlready(evidence, receipt.stages);
      s := receipt.stages[n];
      if s.outcome == Running {
        ghost var before := evidence;
        var copy := Collect(n, found, copied, at);
        CopiesKept(receipt.stages, n, before, evidence, found, copied, at);
        s := Aborted(s, copy, at);
      }
    }
  }

  /** What finishing leaves of a stage, with the report that is found for it. */
  function Ended(s: StageReceipt, found: Option<FoundReport>, copied: bool, at: nat): StageReceipt {
    if s.outcome == Running && s.startedAt.Some? then
      Aborted(s,
              if copied && Collectable(s.stage, found, s.startedAt.value, at)
              then Some(CopyOf(s.stage, found.value.raw)) else None,
              at)
    else s
  }

  function EndedAll(stages: seq<StageReceipt>, found: Option<FoundReport>, copied: bool, at: nat)
    : (r: seq<StageReceipt>)
    ensures |r| == |stages| && forall i :: 0 <= i < |stages| ==> r[i] == Ended(stages[i], found, copied, at)
  {
    seq(|stages|, i requires 0 <= i < |stages| => Ended(stages[i], found, copied, at))
  }

  function Finished(r: Receipt, exitCode: int, at: nat, found: Option<FoundReport>, copied: bool,
                    end: Source): Receipt {
    var stages := EndedAll(r.stages, found, copied, at);
    r.(completedAt := Some(at), exitCode := Some(exitCode), end := Some(end), sourceUnchanged := r.start == end,
       stages := stages,
       outcome := if exitCode == 0 && r.start == end && AllQualified(ScopeOf(r), stages) then Passed else Failed)
  }

  /** An acceptable report of a running stage has its copy in the bundle. */
  ghost predicate CopyKept(s: StageReceipt, found: Option<FoundReport>, copied: bool, at: nat, evidence: Evidence) {
    s.outcome == Running && s.startedAt.Some? && copied && Collectable(s.stage, found, s.startedAt.value, at) ==>
      s.stage in evidence && evidence[s.stage] == CopyOf(s.stage, found.value.raw)
  }

  lemma FinishedIsSound(r: Receipt, evidence: Evidence, exitCode: int, at: nat, found: Option<FoundReport>,
                        copied: bool, end: Source)
    requires InProgress(r, evidence, at) && 0 <= exitCode <= 255 && SourceOk(end)
    requires forall i :: 0 <= i < 5 ==> CopyKept(r.stages[i], found, copied, at, evidence)
    ensures Sound(Finished(r, exitCode, at, found, copied, end), evidence)
  {
    hide Selects, ValidSummary, SummaryOf, AllQualified, LeastBytes;
    var scope, stages := ScopeOf(r), EndedAll(r.stages, found, copied, at);
    forall i | 0 <= i < 5 ensures StageOk(scope, stages[i], r.startedAt, at, evidence) {
      assert Progressing(scope, r.stages[i], r.startedAt, at, evidence);
      assert stages[i] == Ended(r.stages[i], found, copied, at) && CopyKept(r.stages[i], found, copied, at, evidence);
    }
    forall i, j | 0 <= i < j < 5 ensures EndsBefore(scope, stages[i], stages[j]) {
      assert EndsBefore(scope, r.stages[i], r.stages[j]);
      assert Progressing(scope, r.stages[i], r.startedAt, at, evidence);
    }
  }

  lemma ClockAdvances(r: Receipt, evidence: Evidence, clock: nat, at: nat)
    requires InProgress(r, evidence, clock) && clock <= at
    ensures InProgress(r, evidence, at)
  {
    hide ReportOk, Selects;
    forall i | 0 <= i < 5 ensures Progressing(ScopeOf(r), r.stages[i], r.startedAt, at, evidence) {
      assert Progressing(ScopeOf(r), r.stages[i], r.startedAt, clock, evidence);
    }
  }

  // ---------------------------------------------------------------- every other accepted receipt can be produced

  /** A report that is summarized to `s`. */
  function ContentOf(s: Summary): Content {
    match s
    case SharedSummary(_, total, passed, skipped, todo) => Vitest(true, total, passed, Some(skipped), Some(todo), 0, 0)
    case SoakSummary(_, _, _, elapsed, generated, published, drops, rss, _) =>
      Replayed("passed", "bounded-stream-replay", true, 60, 1000, true, true, elapsed, generated, published, drops, rss)
    case DocsSummary(_, pages, routes, media, reason, fingerprint) =>
      Documentation(1, "passed", pages, routes, fingerprint, 0, 0, media, reason, fingerprint)
    case LiveSkip(_, _, _, reason) => Lived(LiveData(Skipped, [], reason, None, None, ""))
    case LiveSummary(outcome, _, ids, target, verified, trust, _) =>
      Lived(LiveData(outcome, ids, "", target, Some(verified), trust))
  }

  lemma ContentRoundTrip(stage: Stage, s: Summary)
    requires ValidSummary(stage, s) && EmittedSummary(stage, s)
    ensures SummaryOf(stage, ContentOf(s)) == Some(s)
  {
    hide TargetSyntax, LiveChecks, IsLowerHex;
    if s.LiveSummary? { assert s.targetVersion.Some? ==> TargetSyntax(s.targetVersion.value); }
  }

  /** Exactly these summaries come from some report of the stage. */
  lemma SummariesOfReports(stage: Stage, s: Summary)
    requires ValidSummary(stage, s)
    ensures EmittedSummary(stage, s) <==> exists c :: SummaryOf(stage, c) == Some(s)
  {
    if EmittedSummary(stage, s) { ContentRoundTrip(stage, s); }
    forall c | SummaryOf(stage, c) == Some(s) ensures EmittedSummary(stage, s) { SummaryIsEmitted(stage, c); }
  }

  lemma SummaryIsEmitted(stage: Stage, c: Content)
    requires SummaryOf(stage, c).Some?
    ensures EmittedSummary(stage, SummaryOf(stage, c).value)
  {
    hide TargetSyntax, IsLowerHex;
  }

  function RawOf(s: StageReceipt): Option<FoundReport>
    requires Ran(s) && s.startedAt.Some?
  {
    if s.reports == [] then None
    else Some(FoundReport(s.reports[0].sha256.preimage.origin.sha256.preimage, s.startedAt.value))
  }

  lemma RawCollects(s: StageReceipt, evidence: Evidence, at: nat)
    requires Ran(s) && s.startedAt.Some? && s.completedAt == Some(at) && EmittedStage(s)
    requires s.reports != [] && ReportOk(s, s.reports[0], evidence)
    ensures s.stage in evidence && Collectable(s.stage, RawOf(s), s.startedAt.value, at)
    ensures CopyOf(s.stage, RawOf(s).value.raw) == evidence[s.stage]
  {
    hide ValidSummary, SummaryOf;
    assert IsGenuine(s, s.reports[0]);
  }

  /** The receipt as it was when the first `n` stages had been started. */
  function Partial(r: Receipt, n: nat): Receipt
    requires n <= 5 && |r.stages| == 5
  {
    r.(completedAt := None, exitCode := None, end := None, sourceUnchanged := false, outcome := Running,
       stages := seq(5, i requires 0 <= i < 5 =>
                       if i < n then Unfinished(ScopeOf(r), r.stages[i]) else Blank(ScopeOf(r), LOCAL_STAGES[i])))
  }

  function Unfinished(scope: Scope, s: StageReceipt): StageReceipt {
    if s.outcome == Failed && s.startedAt.Some? then Started(Blank(scope, s.stage), s.startedAt.value) else s
  }

  /** The clock has not passed what is still to come. */
  ghost predicate InTime(r: Receipt, n: nat, clock: nat) {
    && |r.stages| == 5 && r.completedAt.Some? && clock <= r.completedAt.value
    && forall i :: n <= i < 5 && Selects(ScopeOf(r), r.stages[i].stage) && Ran(r.stages[i]) ==>
         r.stages[i].startedAt.Some? && clock <= r.stages[i].startedAt.value
  }

  lemma SkipPartial(r: Receipt, evidence: Evidence, n: nat)
    requires Sound(r, evidence) && n < 5 && (!Selects(ScopeOf(r), r.stages[n].stage) || r.stages[n].outcome == NotRun)
    ensures Partial(r, n + 1) == Partial(r, n)
  {
    hide Selects, RanWell, AllQualified, Blank;
    assert StageOk(ScopeOf(r), r.stages[n], r.startedAt, r.completedAt.value, evidence);
    assert r.stages[n] == Blank(ScopeOf(r), LOCAL_STAGES[n]);
    assert r.stages[n].outcome != Failed by { BlankDidNotFail(ScopeOf(r), LOCAL_STAGES[n]); }
  }

  lemma BlankDidNotFail(scope: Scope, stage: Stage)
    ensures Blank(scope, stage).outcome == NotRun && Blank(scope, stage).stage == stage
  {
  }

  lemma NextInPartial(r: Receipt, evidence: Evidence, n: nat)
    requires Sound(r, evidence) && n < 5 && Selects(ScopeOf(r), r.stages[n].stage) && Ran(r.stages[n])
    ensures IsNext(ScopeOf(r), Partial(r, n).stages, n) && r.stages[n].stage == LOCAL_STAGES[n]
            && IndexOf(LOCAL_STAGES[n]) == n
    ensures r.stages[n].startedAt.Some? && RanWell(r.stages[n], r.startedAt, r.completedAt.value, evidence)
  {
    hide Selects, ReportOk, AllQualified;
    assert StageOk(ScopeOf(r), r.stages[n], r.startedAt, r.completedAt.value, evidence);
    forall i | 0 <= i < n && Selects(ScopeOf(r), LOCAL_STAGES[i])
      ensures Partial(r, n).stages[i].outcome in {Passed, Skipped}
    {
      assert EndsBefore(ScopeOf(r), r.stages[i], r.stages[n]);
    }
  }

  lemma CollectedIsStage(r: Receipt, evidence: Evidence, n: nat)
    requires Sound(r, evidence) && n < 5 && Selects(ScopeOf(r), r.stages[n].stage)
             && r.stages[n].outcome in {Passed, Skipped}
    ensures var s := r.stages[n];
            && s.startedAt.Some? && s.completedAt.Some? && s.reports != [] && ReportOk(s, s.reports[0], evidence)
            && Qualified(ScopeOf(r), s.outcome) && evidence[s.stage].summary.outcome == s.outcome
            && Collected(Started(Blank(ScopeOf(r), LOCAL_STAGES[n]), s.startedAt.value), evidence[s.stage],
                         s.completedAt.value) == s
  {
    hide Selects, ValidSummary, AllQualified;
    assert StageOk(ScopeOf(r), r.stages[n], r.startedAt, r.completedAt.value, evidence);
  }

  lemma PartialMore(r: Receipt, n: nat)
    requires n < 5 && |r.stages| == 5 && r.stages[n].stage == LOCAL_STAGES[n]
    ensures Partial(r, n + 1) ==
            Partial(r, n).(stages := Partial(r, n).stages[n := Unfinished(ScopeOf(r), r.stages[n])])
  {
    hide Unfinished, Blank, LOCAL_STAGES;
    assert Partial(r, n + 1).stages == Partial(r, n).stages[n := Unfinished(ScopeOf(r), r.stages[n])];
  }

  lemma LaterInTime(r: Receipt, evidence: Evidence, n: nat, clock: nat)
    requires Sound(r, evidence) && n < 5 && Selects(ScopeOf(r), r.stages[n].stage) && Ran(r.stages[n])
    requires r.stages[n].startedAt.Some? && r.stages[n].completedAt.Some?
    requires clock == (if r.stages[n].outcome == Failed then r.stages[n].startedAt.value
                       else r.stages[n].completedAt.value)
    ensures InTime(r, n + 1, clock)
  {
    hide Selects, ReportOk, AllQualified;
    assert StageOk(ScopeOf(r), r.stages[n], r.startedAt, r.completedAt.value, evidence);
    forall i | n + 1 <= i < 5 && Selects(ScopeOf(r), r.stages[i].stage) && Ran(r.stages[i])
      ensures r.stages[i].startedAt.Some? && clock <= r.stages[i].startedAt.value
    {
      assert EndsBefore(ScopeOf(r), r.stages[n], r.stages[i]);
    }
  }

  ghost predicate CopiesAgree(r: Receipt, n: nat, evidence: Evidence, replayed: Evidence) {
    forall i :: 0 <= i < n && i < |r.stages| && r.stages[i].outcome in {Passed, Skipped} ==>
      r.stages[i].stage in evidence && r.stages[i].stage in replayed
      && replayed[r.stages[i].stage] == evidence[r.stages[i].stage]
  }

  lemma SkippedStage(r: Receipt, evidence: Evidence, n: nat, clock: nat, replayed: Evidence)
    requires Sound(r, evidence) && n < 5 && (!Selects(ScopeOf(r), r.stages[n].stage) || r.stages[n].outcome == NotRun)
    requires InTime(r, n, clock) && CopiesAgree(r, n, evidence, replayed)
    ensures Partial(r, n + 1) == Partial(r, n) && InTime(r, n + 1, clock) && CopiesAgree(r, n + 1, evidence, replayed)
  {
    hide Selects, RanWell, AllQualified;
    SkipPartial(r, evidence, n);
    assert StageOk(ScopeOf(r), r.stages[n], r.startedAt, r.completedAt.value, evidence);
  }

  lemma StageFacts(r: Receipt, evidence: Evidence, n: nat)
    requires Sound(r, evidence) && Producible(r) && n < 5
    ensures |r.stages| == 5 && r.completedAt.Some? && r.stages[n].stage == LOCAL_STAGES[n]
            && IndexOf(r.stages[n].stage) == n
    ensures EmittedStage(r.stages[n])
    ensures Selects(ScopeOf(r), r.stages[n].stage) && r.stages[n].outcome != NotRun ==>
              && Ran(r.stages[n]) && r.stages[n].startedAt.Some? && r.stages[n].completedAt.Some?
              && r.stages[n].startedAt.value <= r.stages[n].completedAt.value
  {
    hide Selects, ReportOk, AllQualified;
    assert StageOk(ScopeOf(r), r.stages[n], r.startedAt, r.completedAt.value, evidence);
  }

  /** The stage that begins now, in the partial receipt. */
  lemma BeginsPartial(r: Receipt, n: nat)
    requires n < 5 && |r.stages| == 5 && r.stages[n].stage == LOCAL_STAGES[n] && Ran(r.stages[n])
             && r.stages[n].startedAt.Some?
    ensures Partial(r, n).stages[n] == Blank(ScopeOf(r), LOCAL_STAGES[n])
    ensures var started := Started(Blank(ScopeOf(r), LOCAL_STAGES[n]), r.stages[n].startedAt.value);
            && started.outcome == Running && started.startedAt == r.stages[n].startedAt
            && Partial(r, n + 1) ==
               Partial(r, n).(stages := Partial(r, n).stages[
                 n := if r.stages[n].outcome == Failed then started else r.stages[n]])
  {
    PartialMore(r, n);
  }

  method ReplayStage(b: Bundle, r: Receipt, evidence: Evidence, n: nat)
    requires Sound(r, evidence) && Producible(r) && n < 5
    requires b.Valid() && b.receipt == Partial(r, n) && InTime(r, n, b.clock) && CopiesAgree(r, n, evidence, b.evidence)
    modifies b
    ensures b.Valid() && b.receipt == Partial(r, n + 1) && InTime(r, n + 1, b.clock)
            && CopiesAgree(r, n + 1, evidence, b.evidence)
  {
    hide Sound, Blank, Collected, Started, ReportOk, Collectable, InProgress, RanWell, Qualified, Emitted, LOCAL_STAGES,
      EmittedStage, StageOk, InOrder, AllQualified, CopyOf, Producible;
    StageFacts(r, evidence, n);
    var s := r.stages[n];
    if !Selects(ScopeOf(r), s.stage) || s.outcome == NotRun {
      SkippedStage(r, evidence, n, b.clock, b.evidence);
      return;
    }
    NextInPartial(r, evidence, n);
    BeginsPartial(r, n);
    var ok := b.BeginStage(s.stage, s.startedAt.value);
    assert ok;
    if s.outcome != Failed {
      CollectedIsStage(r, evidence, n);
      RawCollects(s, evidence, s.completedAt.value);
      ok := b.CompleteStage(s.stage, s.completedAt.value, RawOf(s), true);
      assert ok;
    }
    LaterInTime(r, evidence, n, b.clock);
  }

  /** The raw report of the stage that failed, if one did and had a report. */
  function FailedRaw(stages: seq<StageReceipt>): Option<FoundReport> {
    if stages == [] then None
    else if stages[0].outcome == Failed && stages[0].startedAt.Some? then RawOf(stages[0])
    else FailedRaw(stages[1..])
  }

  lemma {:induction false} FailedRawIs(stages: seq<StageReceipt>, n: nat)
    requires n < |stages| && stages[n].outcome == Failed && stages[n].startedAt.Some?
    requires forall i :: 0 <= i < n ==> stages[i].outcome != Failed
    ensures FailedRaw(stages) == RawOf(stages[n])
  {
    if n > 0 { FailedRawIs(stages[1..], n - 1); }
  }

  /** A failed stage is the only one. */
  lemma FailedOnce(r: Receipt, evidence: Evidence, n: nat)
    requires Sound(r, evidence) && Producible(r) && n < 5 && r.stages[n].outcome == Failed
    ensures r.stages[n].startedAt.Some? && FailedRaw(r.stages) == RawOf(r.stages[n])
    ensures Selects(ScopeOf(r), r.stages[n].stage) && RanWell(r.stages[n], r.startedAt, r.completedAt.value, evidence)
    ensures r.stages[n].completedAt == r.completedAt && EmittedStage(r.stages[n])
  {
    hide ReportOk, AllQualified, Selects;
    assert StageOk(ScopeOf(r), r.stages[n], r.startedAt, r.completedAt.value, evidence);
    forall i | 0 <= i < n ensures r.stages[i].outcome != Failed {
      assert StageOk(ScopeOf(r), r.stages[i], r.startedAt, r.completedAt.value, evidence);
      assert EndsBefore(ScopeOf(r), r.stages[i], r.stages[n]);
    }
    FailedRawIs(r.stages, n);
  }

  lemma EndsAs(r: Receipt, evidence: Evidence, n: nat)
    requires Sound(r, evidence) && Producible(r) && n < 5
    ensures Ended(Unfinished(ScopeOf(r), r.stages[n]), FailedRaw(r.stages), true, r.completedAt.value) == r.stages[n]
    ensures r.stages[n].outcome == Failed && r.stages[n].reports != [] ==>
              && r.stages[n].startedAt.Some?
              && Collectable(r.stages[n].stage, FailedRaw(r.stages), r.stages[n].startedAt.value, r.completedAt.value)
              && r.stages[n].stage in evidence
              && CopyOf(r.stages[n].stage, FailedRaw(r.stages).value.raw) == evidence[r.stages[n].stage]
  {
    hide Selects, ValidSummary, SummaryOf, AllQualified;
    var s := r.stages[n];
    assert StageOk(ScopeOf(r), s, r.startedAt, r.completedAt.value, evidence);
    if s.outcome == Failed {
      FailedOnce(r, evidence, n);
      if s.reports != [] {
        RawCollects(s, evidence, r.completedAt.value);
        assert s.reports == [s.reports[0]];
      }
    }
  }

  lemma FinishesAs(r: Receipt, evidence: Evidence)
    requires Sound(r, evidence) && Producible(r)
    ensures Finished(Partial(r, 5), r.exitCode.value, r.completedAt.value, FailedRaw(r.stages), true, r.end.value) == r
  {
    hide Ended, Unfinished, AllQualified, InOrder, StageOk;
    assert |r.stages| == 5 by { StageFacts(r, evidence, 0); }
    var stages := EndedAll(Partial(r, 5).stages, FailedRaw(r.stages), true, r.completedAt.value);
    forall i | 0 <= i < 5 ensures stages[i] == r.stages[i] { EndsAs(r, evidence, i); }
    assert stages == r.stages;
  }

  /** The copy of every report of the receipt is in the bundle. */
  ghost predicate AllCopies(r: Receipt, evidence: Evidence, replayed: Evidence) {
    forall i :: 0 <= i < |r.stages| && r.stages[i].reports != [] ==>
      r.stages[i].stage in evidence && r.stages[i].stage in replayed
      && replayed[r.stages[i].stage] == evidence[r.stages[i].stage]
  }

  lemma CopiesComplete(r: Receipt, evidence: Evidence, partial: Evidence, replayed: Evidence)
    requires Sound(r, evidence) && Producible(r) && CopiesAgree(r, 5, evidence, partial)
    requires KeepsEnded(partial, replayed, Partial(r, 5).stages)
    requires forall i :: 0 <= i < 5 ==>
             CopyKept(Partial(r, 5).stages[i], FailedRaw(r.stages), true, r.completedAt.value, replayed)
    ensures AllCopies(r, evidence, replayed)
  {
    hide Collectable, AllQualified, Selects, RawOf, FailedRaw, ReportOk;
    forall i | 0 <= i < 5 && r.stages[i].reports != []
      ensures r.stages[i].stage in evidence && r.stages[i].stage in replayed
              && replayed[r.stages[i].stage] == evidence[r.stages[i].stage]
    {
      StageFacts(r, evidence, i);
      EndsAs(r, evidence, i);
      assert StageOk(ScopeOf(r), r.stages[i], r.startedAt, r.completedAt.value, evidence);
      assert CopyKept(Partial(r, 5).stages[i], FailedRaw(r.stages), true, r.completedAt.value, replayed);
    }
  }

  /** Every accepted receipt that meets the three conditions is what some sequence of commands produces. */
  method Replay(r: Receipt, evidence: Evidence) returns (b: Bundle)
    requires Sound(r, evidence) && Producible(r)
    ensures fresh(b) && b.Valid() && b.receipt == r && AllCopies(r, evidence, b.evidence)
  {
    hide AllQualified, InOrder, StageOk, InTime, CopiesAgree, AllCopies, KeepsEnded, CopyKept, Finished, Unfinished,
      SourceOk;
    StageFacts(r, evidence, 0);
    b := new Bundle(ScopeOf(r), r.startedAt, r.start);
    StartsPartial(r, evidence);
    for n := 0 to 5
      invariant fresh(b) && b.Valid() && b.receipt == Partial(r, n) && InTime(r, n, b.clock)
                && CopiesAgree(r, n, evidence, b.evidence)
    {
      ReplayStage(b, r, evidence, n);
    }
    InTimeAtEnd(r, b.clock);
    FinishesAs(r, evidence);
    ghost var partial := b.evidence;
    var ok := b.Finish(r.exitCode.value, r.completedAt.value, FailedRaw(r.stages), true, r.end.value);
    CopiesComplete(r, evidence, partial, b.evidence);
  }

  lemma StartsPartial(r: Receipt, evidence: Evidence)
    requires Sound(r, evidence) && Producible(r)
    ensures |r.stages| == 5 && InTime(r, 0, r.startedAt) && CopiesAgree(r, 0, evidence, map[])
    ensures Partial(r, 0) == Receipt(Some(ScopeOf(r)), r.startedAt, None, None, r.start, None, false, Running,
                                     seq(5, i requires 0 <= i < 5 => Blank(ScopeOf(r), LOCAL_STAGES[i])))
  {
    hide Selects, ReportOk, AllQualified, Blank;
    forall i | 0 <= i < 5 && Selects(ScopeOf(r), r.stages[i].stage) && Ran(r.stages[i])
      ensures r.stages[i].startedAt.Some? && r.startedAt <= r.stages[i].startedAt.value
    {
      assert StageOk(ScopeOf(r), r.stages[i], r.startedAt, r.completedAt.value, evidence);
    }
    assert Partial(r, 0).stages == seq(5, i requires 0 <= i < 5 => Blank(ScopeOf(r), LOCAL_STAGES[i]));
  }

  lemma InTimeAtEnd(r: Receipt, clock: nat)
    requires InTime(r, 5, clock)
    ensures r.completedAt.Some? && clock <= r.completedAt.value
  {
  }

  function FailedEarly(): Receipt {
    Receipt(Some(Eda), 0, Some(2), Some(1), ExampleSource(), Some(ExampleSource()), true, Failed,
            [Blank(Eda, Shared), Blank(Eda, Soak), Blank(Eda, Docs),
             StageReceipt(EdaLive, Failed, Some(0), Some(1), Some(StageFailed), []), Blank(Eda, NspLive)])
  }

  /** The validator accepts more than the commands produce: a stage that failed before the execution ended. */
  lemma ValidatorAcceptsMore()
    ensures Sound(FailedEarly(), map[]) && !Producible(FailedEarly())
  {
    hide StageOk, SourceOk;
    var r := FailedEarly();
    assert r.stages[3].outcome == Failed;
    forall i | 0 <= i < 5 ensures StageOk(Eda, r.stages[i], 0, 2, map[]) { FailedEarlyStage(i); }
    assert SourceOk(ExampleSource()) by { ExampleSourceOk(); }
    assert !Qualified(Eda, r.stages[3].outcome) && Selects(Eda, r.stages[3].stage);
  }

  lemma FailedEarlyStage(i: nat)
    requires i < 5
    ensures StageOk(Eda, FailedEarly().stages[i], 0, 2, map[])
  {
  }

  lemma ExampleSourceOk()
    ensures SourceOk(ExampleSource())
  {
  }

  function ExampleSource(): Source { Source(seq(40, _ => 'a'), seq(40, _ => 'a'), false, seq(64, _ => 'a')) }

  function CoreWithShared(copy: Projection): Receipt {
    Receipt(Some(Core), 0, Some(2), Some(1), ExampleSource(), Some(ExampleSource()), true, Failed,
            [StageReceipt(Shared, Passed, Some(0), Some(1), None, [Report(Shared, Sha256(copy), copy.summary)]),
             Blank(Core, Soak), Blank(Core, Docs), Blank(Core, EdaLive), Blank(Core, NspLive)])
  }

  /** The validator asks nothing of the raw report but a count. */
  lemma SharedIsSound(copy: Projection)
    requires copy.stage == Shared && Count(copy.origin.bytes, 1) && ValidSummary(Shared, copy.summary)
    ensures Sound(CoreWithShared(copy), map[Shared := copy])
  {
    hide StageOk, SourceOk, ValidSummary;
    var r := CoreWithShared(copy);
    ExampleSourceOk();
    forall i | 0 <= i < 5 ensures StageOk(Core, r.stages[i], 0, 2, map[Shared := copy]) { SharedStageOk(copy, i); }
    assert !Qualified(Core, r.stages[1].outcome) && Selects(Core, r.stages[1].stage);
  }

  lemma SharedStageOk(copy: Projection, i: nat)
    requires i < 5 && copy.stage == Shared && Count(copy.origin.bytes, 1) && ValidSummary(Shared, copy.summary)
    ensures StageOk(Core, CoreWithShared(copy).stages[i], 0, 2, map[Shared := copy])
  {
  }

  /** One test in all, five of them pending. */
  function MorePending(raw: RawReport): Projection {
    Projection(Shared, Origin(RawSha256(raw), raw.bytes), SharedSummary(Passed, 1, 1, 5, 0))
  }

  /** ... and a count of pending tests that no report can cause, whatever raw report its copy names. */
  lemma ValidatorAcceptsPending(raw: RawReport)
    requires 1 <= raw.bytes <= MAX_SAFE
    ensures var copy := MorePending(raw);
            Sound(CoreWithShared(copy), map[Shared := copy]) && !Producible(CoreWithShared(copy))
  {
    hide Sound, SourceOk, LeastBytes;
    var r := CoreWithShared(MorePending(raw));
    SharedIsSound(MorePending(raw));
    if IsGenuine(r.stages[0], r.stages[0].reports[0]) { SummaryIsEmitted(Shared, raw.content); }
    assert !EmittedStage(r.stages[0]);
  }

  /** ... and a raw report that is too short to say what it is summarized to. */
  lemma ValidatorAcceptsShort(raw: RawReport)
    requires SummaryOf(Shared, raw.content).Some? && ValidSummary(Shared, SummaryOf(Shared, raw.content).value)
    requires 1 <= raw.bytes <= MAX_SAFE && raw.bytes < LeastBytes(Shared, raw.content, raw.capturedAt)
    ensures var copy := CopyOf(Shared, raw);
            Sound(CoreWithShared(copy), map[Shared := copy]) && !Producible(CoreWithShared(copy))
  {
    hide Sound, SourceOk, LeastBytes, SummaryOf, ValidSummary;
    var r := CoreWithShared(CopyOf(Shared, raw));
    SharedIsSound(CopyOf(Shared, raw));
    assert !IsGenuine(r.stages[0], r.stages[0].reports[0]);
    assert !EmittedStage(r.stages[0]);
  }
}
