/** What an accepted qualification certifies, said field by field: the receipt, its reports, and the raw files. */
module Certificates {
  import opened Text
  import opened Tree
  import opened Qualification

  const MAX: int := 9007199254740991

  // ---------------------------------------------------------------- receipts

  /** The stages that each scope runs, by position. */
  predicate InScope(scope: Option<Scope>, i: nat) {
    match scope
    case None => i < 5
    case Some(Full) => i < 5
    case Some(Core) => i < 3
    case Some(Eda) => i == 3
    case Some(Nsp) => i == 4
    case Some(Live) => i == 3 || i == 4
  }

  lemma InScopeIs(r: Receipt, i: nat)
    requires i < 5
    ensures LOCAL_STAGES[i] == [Shared, Soak, Docs, EdaLive, NspLive][i]
    ensures InScope(r.scope, i) <==> Selects(ScopeOf(r), LOCAL_STAGES[i])
  {
  }

  /** One stage of an accepted receipt, by what came of it. */
  ghost predicate StageSays(r: Receipt, i: nat, evidence: Evidence)
    requires i < |r.stages| == 5 && r.completedAt.Some?
  {
    var s := r.stages[i];
    && s.stage == [Shared, Soak, Docs, EdaLive, NspLive][i]
    && if !InScope(r.scope, i) then s == StageReceipt(s.stage, NotRun, None, None, Some(NotSelected), [])
       else if s.outcome == NotRun then s == StageReceipt(s.stage, NotRun, None, None, None, [])
       else
         && s.startedAt.Some? && s.completedAt.Some?
         && r.startedAt <= s.startedAt.value <= s.completedAt.value <= r.completedAt.value
         && (match s.outcome
             case Passed => s.reason == None && |s.reports| == 1
             case Skipped => s.reason == Some(NotConfigured) && |s.reports| == 1 && r.scope in {None, Some(Full)}
             case Failed => s.reason == Some(StageFailed) && |s.reports| <= 1
             case _ => false)
         && (forall report :: report in s.reports ==> ReportSays(s, report, evidence))
         && (forall j :: 0 <= j < i && InScope(r.scope, j) ==>
               && (r.stages[j].outcome == Passed || r.stages[j].outcome == Skipped)
               && r.stages[j].completedAt.Some? && r.stages[j].completedAt.value <= s.startedAt.value)
  }

  /** The report is the digest of the copy in the bundle, and says what the copy says. */
  ghost predicate ReportSays(s: StageReceipt, report: Report, evidence: Evidence) {
    && s.stage in evidence
    && var copy := evidence[s.stage];
    && report == Report(s.stage, Sha256(copy), copy.summary) && copy.stage == s.stage
    && 1 <= copy.origin.bytes <= MAX
    && SummarySays(s.stage, copy.summary)
    && (s.outcome != Failed ==> copy.summary.outcome == s.outcome)
  }

  /** What the summary of each stage certifies. */
  ghost predicate SummarySays(stage: Stage, s: Summary) {
    match (stage, s)
    case (Shared, SharedSummary(outcome, total, passed, skipped, todo)) =>
      outcome == Passed && 1 <= passed <= total <= MAX && 0 <= skipped <= MAX && 0 <= todo <= MAX
    case (Soak, SoakSummary(outcome, seconds, rate, elapsed, generated, published, drops, rss, scope)) =>
      && outcome == Passed && seconds == 60 && rate == 1000 && scope == "node-ingestion-replay"
      && elapsed.units >= 60 * 1000 * Power10(elapsed.places)
      && 1 <= generated <= MAX && 1 <= published <= MAX && 0 <= drops <= MAX && 1 <= rss <= MAX
    case (Docs, DocsSummary(outcome, pages, routes, media, reason, fingerprint)) =>
      && outcome == Passed && 1 <= pages <= MAX && 1 <= routes <= MAX && IsFingerprint(fingerprint)
      && (if media == "passed" then reason == None
          else media == "skipped" && reason == Some("unchanged-media-inputs"))
    case (EdaLive, _) => LiveSays(stage, s, "development-host-live-capture")
    case (NspLive, _) => LiveSays(stage, s, "development-host-plugin-lifecycle")
    case _ => false
  }

  ghost predicate LiveSays(stage: Stage, s: Summary, scope: string) {
    match s
    case LiveSkip(outcome, checks, ids, reason) =>
      outcome == Skipped && checks == 0 && ids == [] && reason == "not-configured"
    case LiveSummary(outcome, checks, ids, target, verified, trust, where) =>
      && where == scope && checks == |ids| <= MAX
      && (forall i, j :: 0 <= i < j < |ids| ==> ids[i] != ids[j])
      && (forall id :: id in ids ==> id in LiveChecks(stage))
      && (if verified then trust == "system-trust" || trust == "provided-ca" else trust == "verification-disabled")
      && (match outcome
          case Passed => target.Some? && IsTarget(target.value) && forall id :: id in LiveChecks(stage) ==> id in ids
          case Failed => target.Some? ==> IsTarget(target.value)
          case _ => false)
    case _ => false
  }

  /** 64 characters of 0-9 and a-f. */
  predicate IsFingerprint(s: string) {
    |s| == 64 && forall i :: 0 <= i < |s| ==> 48 <= s[i] as int <= 57 || 97 <= s[i] as int <= 102
  }

  // ---------------------------------------------------------------- target versions

  predicate IsWord(s: string) {
    s != "" && forall k :: 0 <= k < |s| ==>
      IsDigit(s[k]) || 'a' <= s[k] <= 'z' || 'A' <= s[k] <= 'Z' || s[k] == '_' || s[k] == '.' || s[k] == '-'
  }

  /** The end of a target version: nothing, or a sign and some word characters. */
  predicate IsTail(t: string) { t == "" || ((t[0] == '-' || t[0] == '+') && IsWord(t[1..])) }

  /** Two or three numbers, perhaps after a v, and a tail. */
  ghost predicate IsTarget(s: string) { exists i, j, k, l :: Marks(s, i, j, k, l) }

  /** The first number is at `i..j`, the second at `j + 1..k`, a third one at `k + 1..l`, the tail from `l` on. */
  ghost predicate Marks(s: string, i: nat, j: nat, k: nat, l: nat) {
    && i < j < k <= l <= |s| && (i == 0 || (i == 1 && s[0] == 'v'))
    && AllDigits(s[i..j]) && s[j] == '.' && AllDigits(s[j + 1..k])
    && (l == k || (s[k] == '.' && AllDigits(s[k + 1..l]))) && IsTail(s[l..])
  }

  lemma {:induction false} DigitsEndIs(s: string, i: nat, n: nat)
    requires i <= n <= |s| && (forall k :: i <= k < n ==> IsDigit(s[k])) && (n == |s| || !IsDigit(s[n]))
    ensures DigitsEnd(s, i) == n
    decreases n - i
  {
    if i < n { DigitsEndIs(s, i + 1, n); }
  }

  lemma {:induction false} DigitsEndStops(s: string, i: nat)
    requires i <= |s|
    ensures var n := DigitsEnd(s, i); (forall k :: i <= k < n ==> IsDigit(s[k])) && (n == |s| || !IsDigit(s[n]))
    decreases |s| - i
  {
    if i < |s| && IsDigit(s[i]) { DigitsEndStops(s, i + 1); }
  }

  lemma TailIs(s: string, i: nat)
    requires i <= |s|
    ensures VersionTail(s, i) <==> IsTail(s[i..])
  {
    if i < |s| {
      var t := s[i..];
      assert t[0] == s[i] && forall k :: 0 <= k < |t[1..]| ==> t[1..][k] == s[i + 1 + k];
      if IsTail(t) {
        forall k | i < k < |s|
          ensures IsDigit(s[k]) || 'a' <= s[k] <= 'z' || 'A' <= s[k] <= 'Z' || s[k] in "_.-"
        {
          assert s[k] == t[1..][k - i - 1];
        }
      }
    }
  }

  /** The digits from `i` end at `n`. */
  lemma DigitsUpTo(s: string, i: nat, n: nat)
    requires i <= n <= |s| && (n == |s| || !IsDigit(s[n]))
    ensures i < n && AllDigits(s[i..n]) ==> DigitsEnd(s, i) == n
    ensures i < n && DigitsEnd(s, i) == n ==> AllDigits(s[i..n])
  {
    if i < n && AllDigits(s[i..n]) {
      forall k | i <= k < n ensures IsDigit(s[k]) { assert s[k] == s[i..n][k - i]; }
      DigitsEndIs(s, i, n);
    }
    DigitsEndStops(s, i);
  }

  lemma TargetExactly(s: string)
    ensures TargetSyntax(s) <==> IsTarget(s)
  {
    if TargetSyntax(s) { TargetSplits(s); }
    if i: nat, j: nat, k: nat, l: nat :| Marks(s, i, j, k, l) { TargetReads(s, i, j, k, l); }
  }

  lemma TargetSplits(s: string)
    requires TargetSyntax(s)
    ensures IsTarget(s)
  {
    hide IsTail, AllDigits, VersionTail, DigitsEnd;
    var i: nat := if s != "" && s[0] == 'v' then 1 else 0;
    var j := DigitsEnd(s, i);
    var k := DigitsEnd(s, j + 1);
    DigitsEndStops(s, i);
    DigitsEndStops(s, j + 1);
    DigitsUpTo(s, i, j);
    DigitsUpTo(s, j + 1, k);
    TailIs(s, k);
    if VersionTail(s, k) {
      assert Marks(s, i, j, k, k);
    } else {
      var l := DigitsEnd(s, k + 1);
      DigitsEndStops(s, k + 1);
      DigitsUpTo(s, k + 1, l);
      TailIs(s, l);
      assert Marks(s, i, j, k, l);
    }
  }

  lemma TargetReads(s: string, i: nat, j: nat, k: nat, l: nat)
    requires Marks(s, i, j, k, l)
    ensures TargetSyntax(s)
  {
    hide VersionTail, DigitsEnd;
    assert s[i] == s[i..j][0];
    DigitsUpTo(s, i, j);
    TailIs(s, l);
    TailIs(s, k);
    if k < |s| { assert s[k..][0] == s[k]; }
    if l < |s| { assert s[l..][0] == s[l]; }
    DigitsUpTo(s, j + 1, k);
    if l > k { DigitsUpTo(s, k + 1, l); }
  }

  // ---------------------------------------------------------------- both directions

  lemma LiveSaysExactly(stage: Stage, s: Summary)
    requires stage in {EdaLive, NspLive}
    ensures ValidSummary(stage, s) <==> SummarySays(stage, s)
  {
    hide TargetSyntax, IsTarget, LiveChecks;
    LiveChecksDistinct(stage);
    if s.LiveSummary? {
      if s.targetVersion.Some? { TargetExactly(s.targetVersion.value); }
      if && (forall i, j :: 0 <= i < j < |s.checkIds| ==> s.checkIds[i] != s.checkIds[j])
         && (forall i :: 0 <= i < |s.checkIds| ==> s.checkIds[i] in LiveChecks(stage))
      {
        ChecksComplete(stage, s.checkIds);
      }
    }
  }

  /** Distinct members of a list of distinct members are all of them exactly when they are as many. */
  lemma ChecksComplete(stage: Stage, ids: seq<string>)
    requires stage in {EdaLive, NspLive}
    requires forall i, j :: 0 <= i < j < |ids| ==> ids[i] != ids[j]
    requires forall i :: 0 <= i < |ids| ==> ids[i] in LiveChecks(stage)
    ensures |ids| == |LiveChecks(stage)| <==> forall id :: id in LiveChecks(stage) ==> id in ids
  {
    LiveChecksDistinct(stage);
    var l := LiveChecks(stage);
    var a, b := Elements(ids), Elements(l);
    DistinctSize(ids);
    DistinctSize(l);
    assert a <= b;
    if |ids| == |l| { SubsetOfSize(a, b); }
    if forall id :: id in l ==> id in ids { assert a == b; }
  }

  lemma {:induction false} DistinctSize(l: seq<string>)
    requires forall i, j :: 0 <= i < j < |l| ==> l[i] != l[j]
    ensures |Elements(l)| == |l|
  {
    if l != [] {
      DistinctSize(l[1..]);
      assert Elements(l) == Elements(l[1..]) + {l[0]};
    }
  }

  lemma {:induction false} SubsetOfSize(a: set<string>, b: set<string>)
    requires a <= b && |a| == |b|
    ensures a == b
    decreases a
  {
    if a != {} {
      var x :| x in a;
      SubsetOfSize(a - {x}, b - {x});
    }
  }

  lemma LiveChecksDistinct(stage: Stage)
    requires stage in {EdaLive, NspLive}
    ensures 1 <= |LiveChecks(stage)| <= MAX
    ensures forall i, j :: 0 <= i < j < |LiveChecks(stage)| ==> LiveChecks(stage)[i] != LiveChecks(stage)[j]
  {
    if stage == EdaLive { EdaChecksDistinct(); } else { NspChecksDistinct(); }
  }

  lemma EdaChecksDistinct()
    ensures |EDA_CHECKS| == 12
    ensures forall i, j :: 0 <= i < j < 12 ==> EDA_CHECKS[i] != EDA_CHECKS[j]
  {
  }

  lemma NspChecksDistinct()
    ensures |NSP_CHECKS| == 23
    ensures forall i, j :: 0 <= i < j < 23 ==> NSP_CHECKS[i] != NSP_CHECKS[j]
  {
  }

  /** A summary is accepted exactly when it certifies what its stage is for. */
  lemma SummarySaysExactly(stage: Stage, s: Summary)
    ensures ValidSummary(stage, s) <==> SummarySays(stage, s)
  {
    if stage in {EdaLive, NspLive} { LiveSaysExactly(stage, s); }
  }

  lemma ReportSaysExactly(s: StageReceipt, report: Report, evidence: Evidence)
    ensures ReportOk(s, report, evidence) <==> ReportSays(s, report, evidence)
  {
    hide ValidSummary, SummarySays;
    if s.stage in evidence { SummarySaysExactly(s.stage, evidence[s.stage].summary); }
  }

  /** All that an accepted receipt says, and nothing else is needed for acceptance. */
  ghost predicate Says(r: Receipt, evidence: Evidence) {
    && |r.stages| == 5 && r.completedAt.Some? && r.startedAt <= r.completedAt.value
    && r.exitCode.Some? && 0 <= r.exitCode.value <= 255
    && r.end.Some? && SourceSays(r.start) && SourceSays(r.end.value)
    && (r.sourceUnchanged <==> r.start == r.end.value)
    && (forall i :: 0 <= i < 5 ==> StageSays(r, i, evidence))
    && (if r.exitCode == Some(0) && r.start == r.end.value && AllDone(r) then r.outcome == Passed
        else r.outcome == Failed)
  }

  predicate IsRevision(s: string) {
    40 <= |s| <= 64 && forall i :: 0 <= i < |s| ==> 48 <= s[i] as int <= 57 || 97 <= s[i] as int <= 102
  }

  predicate SourceSays(s: Source) { IsRevision(s.commit) && IsRevision(s.tree) && IsFingerprint(s.fingerprint) }

  lemma StageSaysExactly(r: Receipt, i: nat, evidence: Evidence)
    requires i < |r.stages| == 5 && r.completedAt.Some?
    ensures StageSays(r, i, evidence) <==>
            && r.stages[i].stage == LOCAL_STAGES[i]
            && StageOk(ScopeOf(r), r.stages[i], r.startedAt, r.completedAt.value, evidence)
            && (InScope(r.scope, i) && r.stages[i].outcome != NotRun ==>
                  forall j :: 0 <= j < i && InScope(r.scope, j) ==>
                  && r.stages[j].outcome in {Passed, Skipped}
                  && r.stages[j].completedAt.Some? && r.stages[i].startedAt.Some?
                  && r.stages[j].completedAt.value <= r.stages[i].startedAt.value)
  {
    hide ReportOk, ReportSays, Selects, InScope;
    InScopeIs(r, i);
    var s := r.stages[i];
    forall report ensures ReportOk(s, report, evidence) <==> ReportSays(s, report, evidence) {
      ReportSaysExactly(s, report, evidence);
    }
    forall k | 0 <= k < |s.reports| ensures s.reports[k] in s.reports {}
  }

  /** The validator's definition and this one accept the same bundles. */
  lemma SaysExactly(r: Receipt, evidence: Evidence)
    ensures Sound(r, evidence) <==> Says(r, evidence)
  {
    hide StageSays, StageOk, Selects, InScope, SourceOk, SourceSays, AllDone, AllQualified;
    if r.end.Some? { SourcesSay(r.start); SourcesSay(r.end.value); }
    if |r.stages| == 5 && r.completedAt.Some? {
      forall i | 0 <= i < 5
        ensures InScope(r.scope, i) <==> Selects(ScopeOf(r), LOCAL_STAGES[i])
      {
        InScopeIs(r, i);
      }
      forall i | 0 <= i < 5
        ensures StageSays(r, i, evidence) <==>
                && r.stages[i].stage == LOCAL_STAGES[i]
                && StageOk(ScopeOf(r), r.stages[i], r.startedAt, r.completedAt.value, evidence)
                && (InScope(r.scope, i) && r.stages[i].outcome != NotRun ==>
                      forall j :: 0 <= j < i && InScope(r.scope, j) ==>
                        && r.stages[j].outcome in {Passed, Skipped}
                        && r.stages[j].completedAt.Some? && r.stages[i].startedAt.Some?
                        && r.stages[j].completedAt.value <= r.stages[i].startedAt.value)
      {
        StageSaysExactly(r, i, evidence);
      }
      if forall i :: 0 <= i < 5 ==> r.stages[i].stage == LOCAL_STAGES[i] { AllDoneIs(r); }
    }
  }

  lemma SourcesSay(s: Source)
    ensures SourceOk(s) <==> SourceSays(s)
  {
  }

  // ---------------------------------------------------------------- raw files

  /** What a raw report must say, when it must have been made, and how large it may be. */
  ghost predicate RawSays(stage: Stage, raw: RawReport, startedAt: nat, completedAt: nat) {
    && startedAt <= raw.capturedAt <= completedAt
    && LeastBytes(stage, raw.content, raw.capturedAt) <= raw.bytes <= 67108864 && raw.bytes > 0
    && match (stage, raw.content)
       case (Shared, Vitest(success, total, passed, pending, todo, failed, suites)) =>
         && success && failed == 0 && suites == 0 && 1 <= passed <= total <= MAX
         && (pending.Some? ==> 0 <= pending.value <= total) && (todo.Some? ==> 0 <= todo.value <= total)
       case (Soak, Replayed(outcome, check, qualified, seconds, rate, mixed, roundTrip, elapsed, generated, published,
                            drops, rss)) =>
         && outcome == "passed" && check == "bounded-stream-replay" && qualified && mixed && roundTrip
         && seconds == 60 && rate == 1000 && elapsed.units >= 60 * 1000 * Power10(elapsed.places)
         && 1 <= generated <= MAX && 1 <= published <= MAX && 0 <= drops <= MAX && 1 <= rss <= MAX
       case (Docs, Documentation(version, outcome, pages, routes, browser, started, completed, media, reason,
                                 fingerprint)) =>
         && version == 1 && outcome == "passed" && 1 <= pages <= MAX && 1 <= routes <= MAX
         && IsFingerprint(browser) && IsFingerprint(fingerprint)
         && startedAt <= started <= completed <= completedAt
         && (if media == "passed" then reason == None
             else media == "skipped" && reason == Some("unchanged-media-inputs"))
       case (EdaLive, Lived(data)) =>
         && DataSays(EdaLive, data)
         && (data.outcome != Skipped ==>
               if data.verification == Some(true) then data.trust == "system-trust" || data.trust == "provided-ca"
               else data.trust == "verification-disabled")
       case (NspLive, Lived(data)) => DataSays(NspLive, data)
       case _ => false
  }

  /** The part that both live stages share. */
  ghost predicate DataSays(stage: Stage, data: LiveData) {
    match data.outcome
    case Skipped => data.reasonCode == "not-configured" && data.checks == []
    case Passed =>
      && data.verification.Some? && data.target.Some? && IsTarget(data.target.value) && ChecksSay(stage, data.checks)
      && forall id :: id in LiveChecks(stage) ==> id in data.checks
    case Failed =>
      && data.verification.Some? && (data.target.Some? ==> IsTarget(data.target.value)) && ChecksSay(stage, data.checks)
    case _ => false
  }

  ghost predicate ChecksSay(stage: Stage, ids: seq<string>) {
    && |ids| <= MAX && (forall i, j :: 0 <= i < j < |ids| ==> ids[i] != ids[j])
    && (forall id :: id in ids ==> id in LiveChecks(stage))
  }

  /** The commands accept a raw report exactly when it says this. */
  lemma RawSaysExactly(stage: Stage, raw: RawReport, startedAt: nat, completedAt: nat)
    ensures IsAcceptable(stage, raw, startedAt, completedAt) <==> RawSays(stage, raw, startedAt, completedAt)
  {
    hide LeastBytes, ValidSummary, TargetSyntax, IsTarget, LiveChecks;
    match raw.content
    case Lived(data) => if stage in {EdaLive, NspLive} { LiveDataExactly(stage, data); }
    case _ => PlainExactly(stage, raw.content);
  }

  lemma PlainExactly(stage: Stage, c: Qualification.Content)
    requires !c.Lived?
    ensures SummaryOf(stage, c).Some? && ValidSummary(stage, SummaryOf(stage, c).value) <==> SummaryOf(stage, c).Some?
  {
    hide IsLowerHex;
  }

  lemma LiveDataExactly(stage: Stage, data: LiveData)
    requires stage in {EdaLive, NspLive}
    ensures SummaryOfLive(stage, data).Some? && ValidSummary(stage, SummaryOfLive(stage, data).value) <==>
            && DataSays(stage, data)
            && (stage == EdaLive && data.outcome != Skipped ==>
                  if data.verification == Some(true) then data.trust == "system-trust" || data.trust == "provided-ca"
                  else data.trust == "verification-disabled")
  {
    hide TargetSyntax, IsTarget, LiveChecks;
    if data.target.Some? { TargetExactly(data.target.value); }
    var summary := SummaryOfLive(stage, data);
    if summary.Some? { LiveSaysExactly(stage, summary.value); }
  }

  /** A report is collected exactly when it was written since the stage began and says what it must. */
  lemma CollectsExactly(stage: Stage, found: Option<FoundReport>, startedAt: nat, completedAt: nat)
    ensures Collectable(stage, found, startedAt, completedAt) <==>
            && found.Some? && startedAt <= found.value.writtenAt
            && RawSays(stage, found.value.raw, startedAt, completedAt)
  {
    hide IsAcceptable, RawSays;
    if found.Some? { RawSaysExactly(stage, found.value.raw, startedAt, completedAt); }
  }

  /** `m` with that many zeros behind it. */
  function Scaled(m: nat, zeros: nat): nat { if zeros == 0 then m else 10 * Scaled(m, zeros - 1) }

  /** Trailing zeros move into the exponent, and all other digits stay. */
  lemma {:induction false} SignificantIs(m: nat, zeros: nat)
    requires m % 10 != 0
    ensures Scaled(m, zeros) > 0 && Significant(Scaled(m, zeros)) == |PrintNat(m)|
  {
    if zeros > 0 {
      SignificantIs(m, zeros - 1);
      var n := Scaled(m, zeros - 1);
      assert (10 * n) / 10 == n && (10 * n) % 10 == 0 && 10 * n >= 10;
    }
  }
}
