// The coverage audit: a result object that is updated case by case, its strict decision
// and its reported gate.
module CoverageAudit {
  import opened Wrappers
  import opened Rates
  import opened CoverageCases
  import opened CoverageBooks
  import opened CoverageLaws

  datatype Issue =
    | EmptyBatch | MissingAnalyses | UnreadableAnalyses | MissingLabels | UnsafeReasons | UnknownRate | MediumRate

  // The counts that the strict decision looks at.
  datatype Figures = Figures(
    total: nat, missing: nat, errors: nat, missingLabels: nat, unsafeReasons: nat,
    strict: nat, unknown: nat, medium: nat)

  predicate Raises(f: Figures, i: Issue, maxUnknown: real, minMedium: real) {
    match i
    case EmptyBatch => f.total <= 0
    case MissingAnalyses => f.total > 0 && f.missing > 0
    case UnreadableAnalyses => f.total > 0 && f.errors > 0
    case MissingLabels => f.total > 0 && f.missingLabels > 0
    case UnsafeReasons => f.total > 0 && f.unsafeReasons > 0
    case UnknownRate => f.total > 0 && f.strict > 0 && PercentValue(f.unknown, f.strict) > maxUnknown
    case MediumRate => f.total > 0 && f.strict > 0 && PercentValue(f.medium, f.strict) < minMedium
  }

  function Then(issues: seq<Issue>, raised: bool, i: Issue): seq<Issue> {
    if raised then issues + [i] else issues
  }

  function WithCountIssues(issues: seq<Issue>, f: Figures): seq<Issue> {
    if f.total <= 0 then issues + [EmptyBatch]
    else
      var files := Then(Then(issues, f.missing > 0, MissingAnalyses), f.errors > 0, UnreadableAnalyses);
      Then(Then(files, f.missingLabels > 0, MissingLabels), f.unsafeReasons > 0, UnsafeReasons)
  }

  function WithRateIssues(issues: seq<Issue>, f: Figures, maxUnknown: real, minMedium: real): seq<Issue> {
    if f.total <= 0 || f.strict <= 0 then issues
    else
      Then(Then(issues, PercentValue(f.unknown, f.strict) > maxUnknown, UnknownRate),
           PercentValue(f.medium, f.strict) < minMedium, MediumRate)
  }

  // The place of an issue in the order of the checks.
  function Rank(i: Issue): nat {
    match i
    case EmptyBatch => 0
    case MissingAnalyses => 1
    case UnreadableAnalyses => 2
    case MissingLabels => 3
    case UnsafeReasons => 4
    case UnknownRate => 5
    case MediumRate => 6
  }

  // Exactly the issues of the first checks that the figures raise, in order.
  ghost predicate Decided(issues: seq<Issue>, checks: nat, f: Figures, maxUnknown: real, minMedium: real) {
    && (forall i :: i in issues <==> Rank(i) < checks && Raises(f, i, maxUnknown, minMedium))
    && (forall a, b :: 0 <= a < b < |issues| ==> Rank(issues[a]) < Rank(issues[b]))
  }

  lemma {:induction false} ThenDecides(issues: seq<Issue>, raised: bool, i: Issue, f: Figures,
                                       maxUnknown: real, minMedium: real)
    requires Decided(issues, Rank(i), f, maxUnknown, minMedium)
    requires raised == Raises(f, i, maxUnknown, minMedium)
    ensures Decided(Then(issues, raised, i), Rank(i) + 1, f, maxUnknown, minMedium)
  {
    assert forall a :: 0 <= a < |issues| ==> issues[a] in issues;
  }

  lemma {:induction false} CountIssuesAreDecided(f: Figures, maxUnknown: real, minMedium: real)
    ensures Decided(WithCountIssues([], f), 5, f, maxUnknown, minMedium)
  {
    ThenDecides([], f.total <= 0, EmptyBatch, f, maxUnknown, minMedium);
    if f.total > 0 {
      var missing := Then([], f.missing > 0, MissingAnalyses);
      var files := Then(missing, f.errors > 0, UnreadableAnalyses);
      var labels := Then(files, f.missingLabels > 0, MissingLabels);
      ThenDecides([], f.missing > 0, MissingAnalyses, f, maxUnknown, minMedium);
      ThenDecides(missing, f.errors > 0, UnreadableAnalyses, f, maxUnknown, minMedium);
      ThenDecides(files, f.missingLabels > 0, MissingLabels, f, maxUnknown, minMedium);
      ThenDecides(labels, f.unsafeReasons > 0, UnsafeReasons, f, maxUnknown, minMedium);
    }
  }

  // On a result without issues, the issues added are exactly those that are raised.
  lemma {:induction false} AddedIssuesAreExact(f: Figures, maxUnknown: real, minMedium: real)
    ensures Decided(WithRateIssues(WithCountIssues([], f), f, maxUnknown, minMedium), 7, f, maxUnknown, minMedium)
  {
    var counts := WithCountIssues([], f);
    CountIssuesAreDecided(f, maxUnknown, minMedium);
    if f.total > 0 && f.strict > 0 {
      var unknown, medium := PercentValue(f.unknown, f.strict), PercentValue(f.medium, f.strict);
      ThenDecides(counts, unknown > maxUnknown, UnknownRate, f, maxUnknown, minMedium);
      ThenDecides(Then(counts, unknown > maxUnknown, UnknownRate), medium < minMedium, MediumRate,
                  f, maxUnknown, minMedium);
    }
  }

  // Issues that were there stay in front.
  lemma {:induction false} IssuesAreAppended(issues: seq<Issue>, f: Figures, maxUnknown: real, minMedium: real)
    ensures WithRateIssues(WithCountIssues(issues, f), f, maxUnknown, minMedium)
         == issues + WithRateIssues(WithCountIssues([], f), f, maxUnknown, minMedium)
  {
    var added := WithCountIssues([], f);
    assert WithCountIssues(issues, f) == issues + added;
  }

  // The part of the summary that reports the primary gate.
  datatype GatePayload = GatePayload(
    fullUnknownRate: real,
    fullMediumRate: real,
    outOfScopeCases: nat,
    strictUnknownRate: real,
    strictMediumRate: real,
    evaluable: bool,
    unknownRatePassed: bool,
    mediumRatePassed: bool,
    gatePassed: bool)

  // No rate issue: the exact rates meet the thresholds, or there is nothing to measure.
  ghost predicate ExactGate(n: nat, unknown: nat, medium: nat, maxUnknown: real, minMedium: real) {
    n > 0 ==> 100.0 * unknown as real <= maxUnknown * n as real && 100.0 * medium as real >= minMedium * n as real
  }

  // What the payload reports: the rounded rates meet the thresholds.
  ghost predicate RoundedGate(n: nat, unknown: nat, medium: nat, maxUnknown: real, minMedium: real) {
    n > 0 && RateValue(unknown, n) <= maxUnknown && RateValue(medium, n) >= minMedium
  }

  class CoverageAuditResult {
    const cfg: Config
    var totalCases: nat
    var analyzedCases: nat
    var missingAnalysisCount: nat
    var analysisErrorCount: nat
    var primaryCounts: KeyCounts<Label>
    var primaryConfidenceCounts: KeyCounts<(Label, Confidence)>
    var primaryClassificationSourceCounts: KeyCounts<Source>
    var primaryClassifierDriftCounts: KeyCounts<Drift>
    var mediumOrBetterPrimaryCount: nat
    var strictPrimaryCoverageCaseCount: nat
    var strictUnknownPrimaryCount: nat
    var strictMediumOrBetterPrimaryCount: nat
    var strictPrimaryOutOfScopeCounts: KeyCounts<Scope>
    var strictUnknownPrimaryReasonCounts: KeyCounts<seq<ReasonToken>>
    var unknownPrimaryReasonCounts: KeyCounts<seq<ReasonToken>>
    var unknownPrimaryResolutionCounts: KeyCounts<ResolutionKey>
    var gapCounts: KeyCounts<Gap>
    var issues: seq<Issue>

    // The cases audited so far.
    ghost var cases: seq<Case>

    ghost predicate HasPrimary(p: PrimaryBooks)
      reads this
    {
      && primaryCounts == p.labels
      && primaryConfidenceCounts == p.confidences
      && primaryClassificationSourceCounts == p.sources
      && mediumOrBetterPrimaryCount == p.medium
    }

    ghost predicate HasUnknown(u: UnknownBooks)
      reads this
    {
      unknownPrimaryReasonCounts == u.reasons && unknownPrimaryResolutionCounts == u.resolutions
    }

    ghost predicate HasStrict(s: StrictBooks)
      reads this
    {
      && strictPrimaryCoverageCaseCount == s.cases
      && strictUnknownPrimaryCount == s.unknown
      && strictMediumOrBetterPrimaryCount == s.medium
      && strictPrimaryOutOfScopeCounts == s.outOfScope
      && strictUnknownPrimaryReasonCounts == s.unknownReasons
    }

    ghost predicate Holds(b: Books)
      reads this
    {
      && analyzedCases == b.analyzed
      && missingAnalysisCount == b.missing
      && analysisErrorCount == b.errors
      && primaryClassifierDriftCounts == b.drift
      && gapCounts == b.gaps
      && HasPrimary(b.primary)
      && HasUnknown(b.unknown)
      && HasStrict(b.strict)
    }

    ghost predicate Valid()
      reads this
    {
      totalCases == |cases| && Holds(BooksOf(cfg, cases))
    }

    constructor (cfg: Config)
      ensures Valid() && this.cfg == cfg && cases == [] && issues == []
    {
      this.cfg := cfg;
      totalCases, analyzedCases, missingAnalysisCount, analysisErrorCount := 0, 0, 0, 0;
      primaryCounts, primaryConfidenceCounts := NoCounts, NoCounts;
      primaryClassificationSourceCounts, primaryClassifierDriftCounts := NoCounts, NoCounts;
      mediumOrBetterPrimaryCount := 0;
      strictPrimaryCoverageCaseCount, strictUnknownPrimaryCount, strictMediumOrBetterPrimaryCount := 0, 0, 0;
      strictPrimaryOutOfScopeCounts, strictUnknownPrimaryReasonCounts := NoCounts, NoCounts;
      unknownPrimaryReasonCounts, unknownPrimaryResolutionCounts := NoCounts, NoCounts;
      gapCounts := NoCounts;
      issues := [];
      cases := [];
    }

    method AddGap(gap: Gap)
      modifies this`gapCounts
      ensures gapCounts == Counted(old(gapCounts), gap)
    {
      gapCounts := Counted(gapCounts, gap);
    }

    // audit_primary_classifier_drift
    method AuditPrimaryClassifierDrift(stored: Primary, selected: Primary, source: Source)
      modifies this`primaryClassifierDriftCounts
      ensures primaryClassifierDriftCounts == AddDrift(old(primaryClassifierDriftCounts), stored, selected, source)
    {
      if source != CurrentClassifier {
        return;
      }
      var storedLabel, selectedLabel := PrimaryLabelValue(stored.rawLabel), PrimaryLabelValue(selected.rawLabel);
      if storedLabel == selectedLabel && stored.confidence == selected.confidence {
        return;
      }
      var key := Drift((storedLabel, stored.confidence), (selectedLabel, selected.confidence));
      primaryClassifierDriftCounts := Counted(primaryClassifierDriftCounts, key);
    }

    // audit_primary_summary. Without an analysis the strict part is left out.
    method AuditPrimarySummary(c: Case, primary: Primary, analysis: Option<Analysis>, source: Source,
                               scope: Option<Scope>, ghost b: Books)
      requires HasPrimary(b.primary) && HasUnknown(b.unknown) && HasStrict(b.strict)
      modifies this`primaryCounts, this`primaryConfidenceCounts, this`primaryClassificationSourceCounts,
               this`mediumOrBetterPrimaryCount, this`unknownPrimaryReasonCounts, this`unknownPrimaryResolutionCounts,
               this`gapCounts, this`strictPrimaryCoverageCaseCount, this`strictUnknownPrimaryCount,
               this`strictMediumOrBetterPrimaryCount, this`strictPrimaryOutOfScopeCounts,
               this`strictUnknownPrimaryReasonCounts
      ensures HasPrimary(AddPrimary(b.primary, primary, source))
      ensures analysis.None? ==> gapCounts == old(gapCounts) && HasUnknown(b.unknown) && HasStrict(b.strict)
      ensures analysis.Some? ==>
                var name := PrimaryLabelValue(primary.rawLabel);
                var reasons := ReasonValue(primary, source, analysis.value);
                && gapCounts == AddPrimaryGap(old(gapCounts), name, scope)
                && HasUnknown(AddUnknown(b.unknown, name, ReasonKey(reasons), Resolve(c, analysis.value, scope, reasons)))
                && HasStrict(AddStrict(b.strict, scope, name, primary.confidence, ReasonKey(reasons)))
    {
      var name := PrimaryLabelValue(primary.rawLabel);
      primaryCounts := Counted(primaryCounts, name);
      primaryConfidenceCounts := Counted(primaryConfidenceCounts, (name, primary.confidence));
      primaryClassificationSourceCounts := Counted(primaryClassificationSourceCounts, source);
      if IsMediumOrBetter(name, primary.confidence) {
        mediumOrBetterPrimaryCount := mediumOrBetterPrimaryCount + 1;
      }
      if analysis.None? {
        return;
      }
      var reasons := ReasonValue(primary, source, analysis.value);
      if name == Unknown {
        if scope.None? {
          AddGap(UnknownPrimary);
        }
        unknownPrimaryReasonCounts := Counted(unknownPrimaryReasonCounts, ReasonKey(reasons));
        unknownPrimaryResolutionCounts :=
          Counted(unknownPrimaryResolutionCounts, Resolve(c, analysis.value, scope, reasons));
      } else if name == Missing {
        AddGap(MissingLabel);
      }
      AuditStrictPrimaryCoverage(name, primary.confidence, scope, reasons, b.strict);
    }

    // audit_strict_primary_coverage
    method AuditStrictPrimaryCoverage(name: Label, confidence: Confidence, scope: Option<Scope>, reasons: Reasons,
                                      ghost s: StrictBooks)
      requires HasStrict(s)
      modifies this`strictPrimaryCoverageCaseCount, this`strictUnknownPrimaryCount,
               this`strictMediumOrBetterPrimaryCount, this`strictPrimaryOutOfScopeCounts,
               this`strictUnknownPrimaryReasonCounts
      ensures HasStrict(AddStrict(s, scope, name, confidence, ReasonKey(reasons)))
    {
      if scope.Some? {
        strictPrimaryOutOfScopeCounts := Counted(strictPrimaryOutOfScopeCounts, scope.value);
        return;
      }
      strictPrimaryCoverageCaseCount := strictPrimaryCoverageCaseCount + 1;
      if name == Unknown {
        strictUnknownPrimaryCount := strictUnknownPrimaryCount + 1;
        strictUnknownPrimaryReasonCounts := Counted(strictUnknownPrimaryReasonCounts, ReasonKey(reasons));
      }
      if IsMediumOrBetter(name, confidence) {
        strictMediumOrBetterPrimaryCount := strictMediumOrBetterPrimaryCount + 1;
      }
    }

    // audit_analysis, as far as it concerns cases and gaps.
    method AuditAnalysis(analysis: Analysis, ghost b: Books)
      requires Holds(b)
      modifies this`analyzedCases, this`gapCounts
      ensures Holds(AddAnalysis(b, analysis))
    {
      analyzedCases := analyzedCases + 1;
      for i := 0 to |analysis.gaps|
        invariant analyzedCases == b.analyzed + 1
        invariant gapCounts == AddEvidenceGaps(b.gaps, analysis.gaps[..i])
      {
        assert analysis.gaps[..i + 1][..i] == analysis.gaps[..i];
        AddGap(Evidence(analysis.gaps[i]));
      }
      assert analysis.gaps[..|analysis.gaps|] == analysis.gaps;
    }

    // One turn of the loop over cases.
    method AuditCase(c: Case)
      requires Holds(BooksOf(cfg, cases))
      modifies this
      ensures Holds(BooksOf(cfg, cases))
      ensures totalCases == old(totalCases) && issues == old(issues) && cases == old(cases) + [c]
    {
      if c.file.Readable? {
        AuditAnalyzedPrimary(c, c.file.analysis, BooksOf(cfg, cases));
        AuditAnalysis(c.file.analysis, AddAnalyzedPrimary(cfg, BooksOf(cfg, cases), c));
      } else {
        AuditUnanalyzedCase(c, BooksOf(cfg, cases));
      }
      BooksOneMore(cfg, cases, c);
      cases := cases + [c];
    }

    method AuditUnanalyzedCase(c: Case, ghost b: Books)
      requires Holds(b) && !c.file.Readable?
      modifies this
      ensures Holds(AddUnanalyzed(cfg, b, c))
      ensures totalCases == old(totalCases) && issues == old(issues) && cases == old(cases)
    {
      var (primary, source) := SelectedPrimary(cfg, c.stored, c.file);
      AuditPrimarySummary(c, primary, None, source, None, b);
      if c.file == NoFile {
        missingAnalysisCount := missingAnalysisCount + 1;
        AddGap(MissingAnalysis);
      } else {
        analysisErrorCount := analysisErrorCount + 1;
      }
    }

    method AuditAnalyzedPrimary(c: Case, analysis: Analysis, ghost b: Books)
      requires Holds(b) && c.file == Readable(analysis)
      modifies this`primaryClassifierDriftCounts, this`gapCounts,
               this`primaryCounts, this`primaryConfidenceCounts, this`primaryClassificationSourceCounts,
               this`mediumOrBetterPrimaryCount, this`unknownPrimaryReasonCounts, this`unknownPrimaryResolutionCounts,
               this`strictPrimaryCoverageCaseCount, this`strictUnknownPrimaryCount,
               this`strictMediumOrBetterPrimaryCount, this`strictPrimaryOutOfScopeCounts,
               this`strictUnknownPrimaryReasonCounts
      ensures Holds(AddAnalyzedPrimary(cfg, b, c))
    {
      var (primary, source) := SelectedPrimary(cfg, c.stored, c.file);
      AuditPrimaryClassifierDrift(c.stored, primary, source);
      var scope := OutOfScopeReason(cfg, c, PrimaryLabelValue(primary.rawLabel), ReasonValue(primary, source, analysis));
      AuditPrimarySummary(c, primary, Some(analysis), source, scope, b);
    }

    // audit_summary_into
    method AuditSummaryInto(batch: seq<Case>)
      requires Valid()
      modifies this
      ensures Valid() && cases == old(cases) + batch && issues == old(issues)
    {
      totalCases := totalCases + |batch|;
      for i := 0 to |batch|
        invariant totalCases == old(totalCases) + |batch| && issues == old(issues)
        invariant cases == old(cases) + batch[..i]
        invariant Holds(BooksOf(cfg, cases))
      {
        AuditCase(batch[i]);
      }
      assert batch[..|batch|] == batch;
    }

    // ---- The strict decision ----------------------------------------------------------------

    // ok
    predicate Ok()
      reads this
    {
      issues == [] && analysisErrorCount == 0
    }

    ghost function Measured(): Figures
      reads this
    {
      Figures(totalCases, missingAnalysisCount, analysisErrorCount, Get(primaryCounts, Missing),
              Get(strictUnknownPrimaryReasonCounts, [UnsafeReason]), strictPrimaryCoverageCaseCount,
              strictUnknownPrimaryCount, strictMediumOrBetterPrimaryCount)
    }

    method AddIssue(raised: bool, i: Issue)
      modifies this`issues
      ensures issues == Then(old(issues), raised, i)
    {
      if raised {
        issues := issues + [i];
      }
    }

    // add_diagnostic_coverage_issues
    method AddDiagnosticCoverageIssues(maxUnknown: real, minMedium: real)
      modifies this`issues
      ensures issues == WithRateIssues(WithCountIssues(old(issues), Measured()), Measured(), maxUnknown, minMedium)
    {
      if totalCases <= 0 {
        AddIssue(true, EmptyBatch);
        return;
      }
      AddIssue(missingAnalysisCount > 0, MissingAnalyses);
      AddIssue(analysisErrorCount > 0, UnreadableAnalyses);
      AddIssue(Get(primaryCounts, Missing) > 0, MissingLabels);
      AddIssue(Get(strictUnknownPrimaryReasonCounts, [UnsafeReason]) > 0, UnsafeReasons);
      var strictCount := strictPrimaryCoverageCaseCount;
      if strictCount <= 0 {
        return;
      }
      AddIssue(PercentValue(strictUnknownPrimaryCount, strictCount) > maxUnknown, UnknownRate);
      AddIssue(PercentValue(strictMediumOrBetterPrimaryCount, strictCount) < minMedium, MediumRate);
    }

    // primary_gate_payload
    method PrimaryGatePayload(maxUnknown: real, minMedium: real) returns (p: GatePayload)
      requires Valid()
      ensures
        var n := Count(cases, IsStrict(cfg));
        var unknown, medium := Count(cases, IsStrictUnknown(cfg)), Count(cases, IsStrictMedium(cfg));
        && (p.gatePassed <==> RoundedGate(n, unknown, medium, maxUnknown, minMedium))
        && (p.unknownRatePassed <==> RoundedGate(n, unknown, medium, maxUnknown, p.strictMediumRate))
        && (p.mediumRatePassed <==> RoundedGate(n, unknown, medium, p.strictUnknownRate, minMedium))
        && (p.evaluable <==> exists c :: c in cases && IsStrict(cfg)(c))
        && p.strictUnknownRate == RateValue(unknown, n)
        && p.strictMediumRate == RateValue(medium, n)
        && p.outOfScopeCases == Count(cases, IsAnalyzed()) - n
        && p.fullUnknownRate == RateValue(Count(cases, HasLabel(cfg, Unknown)), |cases|)
        && p.fullMediumRate == RateValue(Count(cases, IsMedium(cfg)), |cases|)
    {
      PayloadCounts(cfg, cases);
      var n := strictPrimaryCoverageCaseCount;
      var outOfScope := Total(strictPrimaryOutOfScopeCounts);
      var strictUnknownRate := RateValue(strictUnknownPrimaryCount, n);
      var strictMediumRate := RateValue(strictMediumOrBetterPrimaryCount, n);
      var unknownRatePassed := n > 0 && strictUnknownRate <= maxUnknown;
      var mediumRatePassed := n > 0 && strictMediumRate >= minMedium;
      p := GatePayload(RateValue(Get(primaryCounts, Unknown), totalCases),
                       RateValue(mediumOrBetterPrimaryCount, totalCases),
                       outOfScope, strictUnknownRate, strictMediumRate, n > 0,
                       unknownRatePassed, mediumRatePassed, unknownRatePassed && mediumRatePassed);
    }
  }

  // The counters the payload is made of, as numbers of cases.
  lemma {:induction false} PayloadCounts(cfg: Config, cases: seq<Case>)
    ensures
      var b, n := BooksOf(cfg, cases), Count(cases, IsStrict(cfg));
      && b.strict.cases == n
      && (n > 0 <==> exists c :: c in cases && IsStrict(cfg)(c))
      && b.strict.unknown == Count(cases, IsStrictUnknown(cfg))
      && b.strict.medium == Count(cases, IsStrictMedium(cfg))
      && Total(b.strict.outOfScope) == Count(cases, IsAnalyzed()) - n
      && Get(b.primary.labels, Unknown) == Count(cases, HasLabel(cfg, Unknown))
      && b.primary.medium == Count(cases, IsMedium(cfg))
  {
    StrictCasesAreCounted(cfg, cases, []);
    CountZero(cases, IsStrict(cfg));
    AnalyzedAreCounted(cfg, cases);
    BooksPartition(cfg, cases);
    LabelsAreCounted(cfg, cases, Unknown);
    MediumIsCounted(cfg, cases);
  }

  function Joined(batches: seq<seq<Case>>): seq<Case> {
    if batches == [] then [] else Joined(batches[..|batches| - 1]) + batches[|batches| - 1]
  }

  // audit_summaries, with the checks of direct sources off.
  method AuditSummaries(batches: seq<seq<Case>>, cfg: Config, failOnGaps: bool, maxUnknown: real, minMedium: real)
    returns (result: CoverageAuditResult)
    ensures fresh(result) && result.Valid() && result.cfg == cfg && result.cases == Joined(batches)
    ensures failOnGaps ==> Decided(result.issues, 7, result.Measured(), maxUnknown, minMedium)
    ensures !failOnGaps ==> result.issues == []
  {
    result := new CoverageAuditResult(cfg);
    for i := 0 to |batches|
      invariant fresh(result) && result.Valid() && result.cfg == cfg && result.issues == []
      invariant result.cases == Joined(batches[..i])
    {
      assert batches[..i + 1][..i] == batches[..i];
      result.AuditSummaryInto(batches[i]);
    }
    assert batches[..|batches|] == batches;
    if failOnGaps {
      AddedIssuesAreExact(result.Measured(), maxUnknown, minMedium);
      result.AddDiagnosticCoverageIssues(maxUnknown, minMedium);
    }
  }
}
