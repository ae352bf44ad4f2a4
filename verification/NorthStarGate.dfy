// The north-star gate over retained summaries: the aggregate with its three gates, the
// list of issues, and how the gate of a suite follows from the gates of its summaries.
module NorthStarGate {
  import opened Wrappers
  import opened Counters
  import opened Rates
  import opened NorthStarTally
  import opened NorthStarMeasures

  datatype Thresholds = Thresholds(maxUnknown: real, minMedium: real, minAnalyzed: int, requireMin: int)

  // The figures derived from the coverage counters.
  datatype CoverageFigures = CoverageFigures(
    primaryCases: nat,
    confidenceCases: nat,
    unknownCases: nat,
    unknownRate: real,
    mediumCases: nat,
    mediumRate: real,
    unsafeReason: nat)

  // The unknown cases by the classes of their resolutions.
  datatype UnknownFigures = UnknownFigures(evidenceGap: nat, boundary: nat, collectorGap: nat, unclassified: nat)

  // The figures read off the action outcome counters.
  datatype OutcomeFigures = OutcomeFigures(
    required: nat, sampleMet: nat, measured: nat, open: nat, requiredMeasured: nat)

  datatype Current = Current(
    retained: nat,
    totalCases: nat,
    analyzedCases: nat,
    coverage: CoverageFigures,
    unknown: UnknownFigures,
    outcome: OutcomeFigures,
    inputGate: bool,
    coverageGate: bool,
    outcomeGate: bool,
    gatePassed: bool)

  datatype TrendPoint = TrendPoint(
    name: string, unknownRate: real, mediumRate: real, measured: nat, open: nat, gatePassed: bool)

  datatype Aggregate = Aggregate(thresholds: Thresholds, current: Current, tally: Tally, trend: seq<TrendPoint>)

  const UNSAFE_REASON := "unsafe_reason"

  // ---- What the gates ask for --------------------------------------------------------

  ghost function CoverageFiguresOf(c: CoverageCounts): CoverageFigures {
    var unknown, medium := Get(c.primary, "unknown"), Mass(c.confidence, MediumKey);
    CoverageFigures(
      Total(c.primary), Total(c.confidence),
      unknown, RateValue(unknown, Total(c.primary)), medium, RateValue(medium, Total(c.primary)),
      Get(c.reasons, UNSAFE_REASON))
  }

  ghost function UnknownFiguresOf(c: CoverageCounts): UnknownFigures {
    var unknown := Get(c.primary, "unknown");
    UnknownFigures(
      ClassCount(c.resolutions, unknown, DeterministicEvidenceGap),
      ClassCount(c.resolutions, unknown, NoActionBoundary) + ClassCount(c.resolutions, unknown, OutOfScopeBoundary),
      ClassCount(c.resolutions, unknown, CollectorWallClockGap),
      ClassCount(c.resolutions, unknown, NotReported) + ClassCount(c.resolutions, unknown, Unmapped))
  }

  function OutcomeFiguresOf(w: WorkloadCounts): OutcomeFigures {
    OutcomeFigures(Get(w.gate, RequiredGroups), Get(w.gate, SampleMetGroups), Get(w.gate, MeasuredGroups),
                   Get(w.gate, OpenGroups), Get(w.results, RequiredMeasuredResults))
  }

  predicate InputsFine(n: nat, t: Tally) {
    && Get(t.status, "ok") == n
    && Get(t.components, CoverageStatus("ok")) == n
    && Get(t.components, WorkloadStatus("ok")) == n
  }

  predicate CoverageFine(analyzedCases: nat, f: CoverageFigures, th: Thresholds) {
    && analyzedCases >= th.minAnalyzed
    && f.primaryCases > 0
    && f.confidenceCases == f.primaryCases
    && f.unknownRate < th.maxUnknown
    && f.mediumRate >= th.minMedium
    && f.unsafeReason == 0
  }

  predicate OutcomesFine(n: nat, gate: Counter<OutcomeKey>, f: OutcomeFigures) {
    && Get(gate, GatePassed) == n
    && Get(gate, OutcomesSupplied) == n
    && Get(gate, RawFreeFailed) == 0
    && f.required > 0
    && f.sampleMet >= f.required
    && f.measured >= f.required
    && f.open == 0
  }

  // Everything the three gates ask for but the number of summaries.
  ghost predicate Fine(n: nat, t: Tally, th: Thresholds) {
    && InputsFine(n, t)
    && CoverageFine(t.coverage.analyzedCases, CoverageFiguresOf(t.coverage), th)
    && OutcomesFine(n, t.workload.gate, OutcomeFiguresOf(t.workload))
  }

  // What it takes for the north-star gate to pass.
  ghost predicate GateHolds(n: nat, t: Tally, th: Thresholds) {
    n >= th.requireMin && Fine(n, t, th)
  }

  ghost function CurrentOf(n: nat, t: Tally, th: Thresholds): Current {
    var enough := n >= th.requireMin;
    var inputGate := enough && InputsFine(n, t);
    var coverageGate := enough && CoverageFine(t.coverage.analyzedCases, CoverageFiguresOf(t.coverage), th);
    var outcomeGate := enough && OutcomesFine(n, t.workload.gate, OutcomeFiguresOf(t.workload));
    Current(n, t.coverage.totalCases, t.coverage.analyzedCases,
            CoverageFiguresOf(t.coverage), UnknownFiguresOf(t.coverage), OutcomeFiguresOf(t.workload),
            inputGate, coverageGate, outcomeGate, inputGate && coverageGate && outcomeGate)
  }

  function PointOf(name: string, c: Current): TrendPoint {
    TrendPoint(name, c.coverage.unknownRate, c.coverage.mediumRate, c.outcome.measured, c.outcome.open, c.gatePassed)
  }

  // build_gate_aggregate
  method BuildGateAggregate(n: nat, t: Tally, th: Thresholds, trendName: string, points: seq<TrendPoint>)
    returns (a: Aggregate)
    ensures a.thresholds == th && a.tally == t
    ensures a.current == CurrentOf(n, t, th)
    ensures a.trend == if points == [] then [PointOf(trendName, a.current)] else points
  {
    var c, u := DeriveCoverageFigures(t.coverage);
    var w := OutcomeFiguresOf(t.workload);
    var enough := n >= th.requireMin;
    var coverageGate := enough && CoverageFine(t.coverage.analyzedCases, c, th);
    var outcomeGate := enough && OutcomesFine(n, t.workload.gate, w);
    var inputGate := enough && InputsFine(n, t);
    var current := Current(n, t.coverage.totalCases, t.coverage.analyzedCases, c, u, w,
                           inputGate, coverageGate, outcomeGate, inputGate && coverageGate && outcomeGate);
    a := Aggregate(th, current, t, if points == [] then [PointOf(trendName, current)] else points);
  }

  method DeriveCoverageFigures(c: CoverageCounts) returns (f: CoverageFigures, u: UnknownFigures)
    ensures f == CoverageFiguresOf(c)
    ensures u == UnknownFiguresOf(c)
  {
    var primaryCases := SumValues(c.primary);
    var confidenceCases := SumValues(c.confidence);
    var unknownCases := Get(c.primary, "unknown");
    var mediumCases := MediumOrBetterPrimaryCount(c.confidence);
    var unknownRate := RateValue(unknownCases, primaryCases);
    var mediumRate := RateValue(mediumCases, primaryCases);
    var classes := UnknownResolutionClassCounts(c.resolutions, unknownCases);
    f := CoverageFigures(
      primaryCases, confidenceCases, unknownCases, unknownRate, mediumCases, mediumRate,
      Get(c.reasons, UNSAFE_REASON));
    u := UnknownFigures(
      Get(classes, DeterministicEvidenceGap),
      Get(classes, NoActionBoundary) + Get(classes, OutOfScopeBoundary),
      Get(classes, CollectorWallClockGap),
      Get(classes, NotReported) + Get(classes, Unmapped));
  }

  // The four kinds of unknown cases in the aggregate cover all six classes.
  lemma {:induction false} UnknownCasesAreConserved(c: CoverageCounts)
    ensures
      var u := UnknownFiguresOf(c);
      u.evidenceGap + u.boundary + u.collectorGap + u.unclassified
      == Max(Total(c.resolutions), CoverageFiguresOf(c).unknownCases)
  {
    ClassesConserve(c.resolutions, Get(c.primary, "unknown"));
  }

  // ---- Issues ----------------------------------------------------------------------------

  datatype Issue =
    | OfInput(input: InputIssue)
    | OfCoverage(coverage: CoverageIssue)
    | OfOutcome(outcome: OutcomeIssue)
    | OfGate(gate: GateIssue)

  datatype InputIssue =
    | SummariesMissing
    | SampleBelowThreshold
    | StatusIssues
    | CoverageComponentNotOk
    | WorkloadComponentNotOk

  datatype CoverageIssue =
    | AnalyzedSampleBelowThreshold
    | PrimaryCountsMissing
    | ConfidenceCountsMismatch
    | UnknownRateAboveThreshold
    | MediumRateBelowThreshold
    | UnsafeUnknownReason

  datatype OutcomeIssue =
    | NotSupplied
    | NotEvaluable
    | NotRawFree
    | RequiredGroupsMissing
    | OutcomeSampleBelowThreshold
    | MeasuredResultsMissing
    | OpenGroupsRemain
    | OutcomeNotPassed

  datatype GateIssue = CoverageGateFailed | OutcomeGateFailed | InputGateFailed | NorthStarGateFailed

  ghost predicate Raises(a: Aggregate, i: Issue) {
    match i
    case OfInput(i) => RaisesInput(a, i)
    case OfCoverage(i) => RaisesCoverage(a, i)
    case OfOutcome(i) => RaisesOutcome(a, i)
    case OfGate(i) => RaisesGate(a.current, i)
  }

  ghost predicate RaisesInput(a: Aggregate, i: InputIssue) {
    var n := a.current.retained;
    match i
    case SummariesMissing => n <= 0
    case SampleBelowThreshold => n < a.thresholds.requireMin
    case StatusIssues => Get(a.tally.status, "ok") < n
    case CoverageComponentNotOk => Get(a.tally.components, CoverageStatus("ok")) < n
    case WorkloadComponentNotOk => Get(a.tally.components, WorkloadStatus("ok")) < n
  }

  ghost predicate RaisesCoverage(a: Aggregate, i: CoverageIssue) {
    var c, th := a.current, a.thresholds;
    match i
    case AnalyzedSampleBelowThreshold => c.analyzedCases < th.minAnalyzed
    case PrimaryCountsMissing => c.coverage.primaryCases <= 0
    case ConfidenceCountsMismatch => c.coverage.confidenceCases != c.coverage.primaryCases
    case UnknownRateAboveThreshold => c.coverage.unknownRate >= th.maxUnknown
    case MediumRateBelowThreshold => c.coverage.mediumRate < th.minMedium
    case UnsafeUnknownReason => Get(a.tally.coverage.reasons, UNSAFE_REASON) > 0
  }

  ghost predicate RaisesOutcome(a: Aggregate, i: OutcomeIssue) {
    var c, gate, n := a.current, a.tally.workload.gate, a.current.retained;
    match i
    case NotSupplied => Get(gate, OutcomesSupplied) < n
    case NotEvaluable => Get(gate, GateEvaluable) < n
    case NotRawFree => Get(gate, RawFreeFailed) > 0
    case RequiredGroupsMissing => c.outcome.required <= 0
    case OutcomeSampleBelowThreshold => c.outcome.sampleMet < c.outcome.required
    case MeasuredResultsMissing => c.outcome.measured < c.outcome.required
    case OpenGroupsRemain => c.outcome.open > 0
    case OutcomeNotPassed => Get(gate, GatePassed) < n
  }

  ghost predicate RaisesGate(c: Current, i: GateIssue) {
    match i
    case CoverageGateFailed => !c.coverageGate
    case OutcomeGateFailed => !c.outcomeGate
    case InputGateFailed => !c.inputGate
    case NorthStarGateFailed => !c.gatePassed
  }

  // Issues in the order in which they are checked.
  datatype Order = Start | Then(before: Order, issue: Issue)

  predicate Checks(order: Order, i: Issue) {
    order.Then? && (order.issue == i || Checks(order.before, i))
  }

  // The raised ones among them, in that order.
  ghost function RaisedOf(a: Aggregate, order: Order): seq<Issue> {
    if order.Start? then []
    else if Raises(a, order.issue) then RaisedOf(a, order.before) + [order.issue]
    else RaisedOf(a, order.before)
  }

  lemma {:induction false} RaisedMembers(a: Aggregate, order: Order, i: Issue)
    ensures i in RaisedOf(a, order) <==> Checks(order, i) && Raises(a, i)
  {
    if order.Then? {
      RaisedMembers(a, order.before, i);
    }
  }

  function ThenInput(o: Order): Order {
    var o := Then(o, OfInput(SummariesMissing));
    var o := Then(o, OfInput(SampleBelowThreshold));
    var o := Then(o, OfInput(StatusIssues));
    var o := Then(o, OfInput(CoverageComponentNotOk));
    Then(o, OfInput(WorkloadComponentNotOk))
  }

  function ThenCoverage(o: Order): Order {
    var o := Then(o, OfCoverage(AnalyzedSampleBelowThreshold));
    var o := Then(o, OfCoverage(PrimaryCountsMissing));
    var o := Then(o, OfCoverage(ConfidenceCountsMismatch));
    var o := Then(o, OfCoverage(UnknownRateAboveThreshold));
    var o := Then(o, OfCoverage(MediumRateBelowThreshold));
    Then(o, OfCoverage(UnsafeUnknownReason))
  }

  function ThenOutcome(o: Order): Order {
    var o := Then(o, OfOutcome(NotSupplied));
    var o := Then(o, OfOutcome(NotEvaluable));
    var o := Then(o, OfOutcome(NotRawFree));
    var o := Then(o, OfOutcome(RequiredGroupsMissing));
    var o := Then(o, OfOutcome(OutcomeSampleBelowThreshold));
    var o := Then(o, OfOutcome(MeasuredResultsMissing));
    var o := Then(o, OfOutcome(OpenGroupsRemain));
    Then(o, OfOutcome(OutcomeNotPassed))
  }

  function ThenFlags(o: Order): Order {
    var o := Then(o, OfGate(CoverageGateFailed));
    var o := Then(o, OfGate(OutcomeGateFailed));
    var o := Then(o, OfGate(InputGateFailed));
    Then(o, OfGate(NorthStarGateFailed))
  }

  function IssueOrder(): Order {
    ThenFlags(ThenOutcome(ThenCoverage(ThenInput(Start))))
  }

  // One conditional append.
  method Report(issues: seq<Issue>, raised: bool, i: Issue, ghost a: Aggregate, ghost order: Order)
    returns (issues': seq<Issue>, ghost order': Order)
    requires issues == RaisedOf(a, order) && raised == Raises(a, i)
    ensures order' == Then(order, i) && issues' == RaisedOf(a, order')
  {
    issues' := if raised then issues + [i] else issues;
    order' := Then(order, i);
  }

  // gate_issues
  method GateIssues(a: Aggregate) returns (issues: seq<Issue>)
    ensures issues == RaisedOf(a, IssueOrder())
  {
    issues := InputIssues([], a, Start);
    issues := CoverageIssues(issues, a, ThenInput(Start));
    issues := OutcomeIssues(issues, a, ThenCoverage(ThenInput(Start)));
    issues := GateFlagIssues(issues, a, ThenOutcome(ThenCoverage(ThenInput(Start))));
  }

  method InputIssues(before: seq<Issue>, a: Aggregate, ghost order: Order) returns (issues: seq<Issue>)
    requires before == RaisedOf(a, order)
    ensures issues == RaisedOf(a, ThenInput(order))
  {
    var n := a.current.retained;
    ghost var o := order;
    issues, o := Report(before, n <= 0, OfInput(SummariesMissing), a, o);
    issues, o := Report(issues, n < a.thresholds.requireMin, OfInput(SampleBelowThreshold), a, o);
    issues, o := Report(issues, Get(a.tally.status, "ok") < n, OfInput(StatusIssues), a, o);
    issues, o := Report(issues, Get(a.tally.components, CoverageStatus("ok")) < n, OfInput(CoverageComponentNotOk), a, o);
    issues, o := Report(issues, Get(a.tally.components, WorkloadStatus("ok")) < n, OfInput(WorkloadComponentNotOk), a, o);
  }

  method CoverageIssues(before: seq<Issue>, a: Aggregate, ghost order: Order) returns (issues: seq<Issue>)
    requires before == RaisedOf(a, order)
    ensures issues == RaisedOf(a, ThenCoverage(order))
  {
    var c, th := a.current, a.thresholds;
    ghost var o := order;
    issues, o := Report(before, c.analyzedCases < th.minAnalyzed, OfCoverage(AnalyzedSampleBelowThreshold), a, o);
    issues, o := Report(issues, c.coverage.primaryCases <= 0, OfCoverage(PrimaryCountsMissing), a, o);
    issues, o := Report(issues, c.coverage.confidenceCases != c.coverage.primaryCases, OfCoverage(ConfidenceCountsMismatch), a, o);
    issues, o := Report(issues, c.coverage.unknownRate >= th.maxUnknown, OfCoverage(UnknownRateAboveThreshold), a, o);
    issues, o := Report(issues, c.coverage.mediumRate < th.minMedium, OfCoverage(MediumRateBelowThreshold), a, o);
    issues, o := Report(issues, Get(a.tally.coverage.reasons, UNSAFE_REASON) > 0, OfCoverage(UnsafeUnknownReason), a, o);
  }

  method OutcomeIssues(before: seq<Issue>, a: Aggregate, ghost order: Order) returns (issues: seq<Issue>)
    requires before == RaisedOf(a, order)
    ensures issues == RaisedOf(a, ThenOutcome(order))
  {
    var c, gate, n := a.current, a.tally.workload.gate, a.current.retained;
    ghost var o := order;
    issues, o := Report(before, Get(gate, OutcomesSupplied) < n, OfOutcome(NotSupplied), a, o);
    issues, o := Report(issues, Get(gate, GateEvaluable) < n, OfOutcome(NotEvaluable), a, o);
    issues, o := Report(issues, Get(gate, RawFreeFailed) > 0, OfOutcome(NotRawFree), a, o);
    issues, o := Report(issues, c.outcome.required <= 0, OfOutcome(RequiredGroupsMissing), a, o);
    issues, o := Report(issues, c.outcome.sampleMet < c.outcome.required, OfOutcome(OutcomeSampleBelowThreshold), a, o);
    issues, o := Report(issues, c.outcome.measured < c.outcome.required, OfOutcome(MeasuredResultsMissing), a, o);
    issues, o := Report(issues, c.outcome.open > 0, OfOutcome(OpenGroupsRemain), a, o);
    issues, o := Report(issues, Get(gate, GatePassed) < n, OfOutcome(OutcomeNotPassed), a, o);
  }

  method GateFlagIssues(before: seq<Issue>, a: Aggregate, ghost order: Order) returns (issues: seq<Issue>)
    requires before == RaisedOf(a, order)
    ensures issues == RaisedOf(a, ThenFlags(order))
  {
    var c := a.current;
    ghost var o := order;
    issues, o := Report(before, !c.coverageGate, OfGate(CoverageGateFailed), a, o);
    issues, o := Report(issues, !c.outcomeGate, OfGate(OutcomeGateFailed), a, o);
    issues, o := Report(issues, !c.inputGate, OfGate(InputGateFailed), a, o);
    issues, o := Report(issues, !c.gatePassed, OfGate(NorthStarGateFailed), a, o);
  }

  lemma {:induction false} ChecksTwo(o: Order, i: Issue)
    requires o.Then? && o.before.Then?
    ensures Checks(o, i) <==> o.issue == i || o.before.issue == i || Checks(o.before.before, i)
  {
  }

  lemma {:induction false} InputsAreComplete(o: Order, i: Issue)
    ensures Checks(ThenInput(o), i) <==> i.OfInput? || Checks(o, i)
  {
    var p := ThenInput(o);
    ChecksTwo(p, i);
    ChecksTwo(p.before.before, i);
    if i.OfInput? {
      match i.input {
        case SummariesMissing =>
        case SampleBelowThreshold =>
        case StatusIssues =>
        case CoverageComponentNotOk =>
        case WorkloadComponentNotOk =>
      }
    }
  }

  lemma {:induction false} CoverageIsComplete(o: Order, i: Issue)
    ensures Checks(ThenCoverage(o), i) <==> i.OfCoverage? || Checks(o, i)
  {
    var p := ThenCoverage(o);
    ChecksTwo(p, i);
    ChecksTwo(p.before.before, i);
    ChecksTwo(p.before.before.before.before, i);
    if i.OfCoverage? {
      match i.coverage {
        case AnalyzedSampleBelowThreshold =>
        case PrimaryCountsMissing =>
        case ConfidenceCountsMismatch =>
        case UnknownRateAboveThreshold =>
        case MediumRateBelowThreshold =>
        case UnsafeUnknownReason =>
      }
    }
  }

  lemma {:induction false} OutcomesAreComplete(o: Order, i: Issue)
    ensures Checks(ThenOutcome(o), i) <==> i.OfOutcome? || Checks(o, i)
  {
    var p := ThenOutcome(o);
    var q := p.before.before.before.before;
    ChecksTwo(p, i);
    ChecksTwo(p.before.before, i);
    ChecksTwo(q, i);
    ChecksTwo(q.before.before, i);
    if i.OfOutcome? {
      match i.outcome {
        case NotSupplied =>
        case NotEvaluable =>
        case NotRawFree =>
        case RequiredGroupsMissing =>
        case OutcomeSampleBelowThreshold =>
        case MeasuredResultsMissing =>
        case OpenGroupsRemain =>
        case OutcomeNotPassed =>
      }
    }
  }

  lemma {:induction false} FlagsAreComplete(o: Order, i: Issue)
    ensures Checks(ThenFlags(o), i) <==> i.OfGate? || Checks(o, i)
  {
    var p := ThenFlags(o);
    ChecksTwo(p, i);
    ChecksTwo(p.before.before, i);
    if i.OfGate? {
      match i.gate {
        case CoverageGateFailed =>
        case OutcomeGateFailed =>
        case InputGateFailed =>
        case NorthStarGateFailed =>
      }
    }
  }

  lemma {:induction false} EveryIssueIsChecked(i: Issue)
    ensures Checks(IssueOrder(), i)
  {
    var o1 := ThenInput(Start);
    var o2 := ThenCoverage(o1);
    var o3 := ThenOutcome(o2);
    InputsAreComplete(Start, i);
    CoverageIsComplete(o1, i);
    OutcomesAreComplete(o2, i);
    FlagsAreComplete(o3, i);
  }

  // The list holds an issue if and only if it is raised.
  lemma {:induction false} IssuesAreExact(a: Aggregate, i: Issue)
    ensures i in RaisedOf(a, IssueOrder()) <==> Raises(a, i)
  {
    EveryIssueIsChecked(i);
    RaisedMembers(a, IssueOrder(), i);
  }

  // The issue list decides the gate once more, and asks for one thing besides: that the
  // summaries report as many evaluable outcome gates as there are summaries.
  lemma {:induction false} NoIssuesMeansPassed(a: Aggregate)
    requires a.current == CurrentOf(a.current.retained, a.tally, a.thresholds) && a.thresholds.requireMin >= 1
    ensures RaisedOf(a, IssueOrder()) == [] <==>
            a.current.gatePassed && Get(a.tally.workload.gate, GateEvaluable) >= a.current.retained
  {
    var issues := RaisedOf(a, IssueOrder());
    if issues == [] {
      IssuesAreExact(a, OfGate(NorthStarGateFailed));
      IssuesAreExact(a, OfOutcome(NotEvaluable));
    } else {
      IssuesAreExact(a, issues[0]);
      if a.current.gatePassed {
        PassedRaisesAtMostOne(a, issues[0]);
      }
    }
  }

  lemma {:induction false} PassedRaisesAtMostOne(a: Aggregate, i: Issue)
    requires a.current == CurrentOf(a.current.retained, a.tally, a.thresholds) && a.thresholds.requireMin >= 1
    requires a.current.gatePassed && Raises(a, i)
    ensures i == OfOutcome(NotEvaluable)
  {
  }

  // The extra condition is not implied: the audit of this one summary passes the gate, and
  // still has an issue.
  function UnevaluableCoverage(): Component {
    Component(Coverage, "ok", 1, 1, map["stats" := 1], map["stats" + "_" + "high" := 1],
              map[], map[], map[], map[], map[])
  }

  function UnevaluableWorkload(): Component {
    Component(Workload, "ok", 0, 0, map[], map[], map[], map[],
              map[GatePassed := 1, OutcomesSupplied := 1, RequiredGroups := 1, SampleMetGroups := 1, MeasuredGroups := 1],
              map[], map[])
  }

  lemma {:induction false} TwoComponents(c: Component, w: Component)
    requires c.name == Coverage && w.name == Workload
    ensures Named([c, w], Coverage) == Some(c) && Named([c, w], Workload) == Some(w)
  {
    assert [c, w][1..] == [w];
    assert Named([w], Workload) == Some(w);
  }

  lemma {:induction false} SoundSummary(s: Summary, c: Component, w: Component)
    requires Named(s.components, Coverage) == Some(c) && Named(s.components, Workload) == Some(w)
    requires s.status == c.status == w.status == "ok"
    ensures
      var t := TallyOf(s);
      InputsFine(1, t) && t.coverage == CoverageOf(Some(c)) && t.workload == WorkloadOf(Some(w))
  {
  }

  lemma {:induction false} GateMayPassWithIssues(c: Component, w: Component, a: Aggregate)
    requires c == UnevaluableCoverage() && w == UnevaluableWorkload()
    requires a.thresholds == Thresholds(30.0, 70.0, 1, 1) && a.tally == SumOf([Summary("ok", [c, w])])
    requires a.current == CurrentOf(1, a.tally, a.thresholds)
    ensures a.current.gatePassed && RaisedOf(a, IssueOrder()) != []
  {
    SumSingle(Summary("ok", [c, w]));
    TwoComponents(c, w);
    SoundSummary(Summary("ok", [c, w]), c, w);
    UnevaluableCoverageIsFine(c, a.tally.coverage);
    UnevaluableOutcomesAreFine(w, a.tally.workload);
    FineButUnevaluable(a);
  }

  lemma {:induction false} FineButUnevaluable(a: Aggregate)
    requires a.current == CurrentOf(1, a.tally, a.thresholds) && a.thresholds.requireMin == 1
    requires Fine(1, a.tally, a.thresholds) && Get(a.tally.workload.gate, GateEvaluable) == 0
    ensures a.current.gatePassed && RaisedOf(a, IssueOrder()) != []
  {
    GatesTogether(1, a.tally, a.thresholds);
    NoIssuesMeansPassed(a);
  }

  lemma {:induction false} UnevaluableOutcomesAreFine(component: Component, w: WorkloadCounts)
    requires component == UnevaluableWorkload() && w == WorkloadOf(Some(component))
    ensures OutcomesFine(1, w.gate, OutcomeFiguresOf(w)) && Get(w.gate, GateEvaluable) == 0
  {
  }

  lemma {:induction false} UnevaluableCoverageIsFine(component: Component, c: CoverageCounts)
    requires component == UnevaluableCoverage() && c == CoverageOf(Some(component))
    ensures CoverageFine(c.analyzedCases, CoverageFiguresOf(c), Thresholds(30.0, 70.0, 1, 1))
  {
    var key := "stats" + "_" + "high";
    assert c.primary == map["stats" := 1] && c.confidence == map[key := 1];
    MassSingle("stats", 1, Any);
    MassSingle(key, 1, Any);
    MassSingle(key, 1, MediumKey);
    MediumKeyMeans("stats", "high");
    assert RateValue(0, 1) == 0.0 by { Round4Whole(0); }
    assert RateValue(1, 1) == 100.0 by { Round4Whole(100); }
  }

  // ---- Suites ------------------------------------------------------------------------------

  // h are the figures of two batches with figures f and g taken together.
  ghost predicate Pooled(f: CoverageFigures, g: CoverageFigures, h: CoverageFigures) {
    && h.primaryCases == f.primaryCases + g.primaryCases
    && h.confidenceCases == f.confidenceCases + g.confidenceCases
    && h.unknownCases == f.unknownCases + g.unknownCases
    && h.mediumCases == f.mediumCases + g.mediumCases
    && h.unsafeReason == f.unsafeReason + g.unsafeReason
  }

  ghost predicate HasRates(f: CoverageFigures) {
    && f.unknownRate == RateValue(f.unknownCases, f.primaryCases)
    && f.mediumRate == RateValue(f.mediumCases, f.primaryCases)
  }

  lemma {:induction false} FiguresPool(a: CoverageCounts, b: CoverageCounts)
    ensures Pooled(CoverageFiguresOf(a), CoverageFiguresOf(b), CoverageFiguresOf(PlusCoverage(a, b)))
  {
    MassPlus(a.primary, b.primary, Any);
    MassPlus(a.confidence, b.confidence, Any);
    MassPlus(a.confidence, b.confidence, MediumKey);
  }

  // The rates of the pooled batches lie between theirs, so they stay within the thresholds.
  lemma {:induction false} CoverageFinePools(m: nat, f: CoverageFigures, n: nat, g: CoverageFigures,
                                             h: CoverageFigures, th: Thresholds)
    requires CoverageFine(m, f, th) && CoverageFine(n, g, th) && Pooled(f, g, h)
    requires HasRates(f) && HasRates(g) && HasRates(h)
    ensures CoverageFine(m + n, h, th)
  {
    RateMediant(f.unknownCases, f.primaryCases, g.unknownCases, g.primaryCases);
    RateMediant(f.mediumCases, f.primaryCases, g.mediumCases, g.primaryCases);
  }

  lemma {:induction false} CoverageFineAdds(a: CoverageCounts, b: CoverageCounts, th: Thresholds)
    requires CoverageFine(a.analyzedCases, CoverageFiguresOf(a), th)
    requires CoverageFine(b.analyzedCases, CoverageFiguresOf(b), th)
    ensures CoverageFine(a.analyzedCases + b.analyzedCases, CoverageFiguresOf(PlusCoverage(a, b)), th)
  {
    FiguresPool(a, b);
    CoverageFinePools(a.analyzedCases, CoverageFiguresOf(a), b.analyzedCases, CoverageFiguresOf(b),
                      CoverageFiguresOf(PlusCoverage(a, b)), th);
  }

  lemma {:induction false} OutcomesFineAdds(m: nat, a: WorkloadCounts, n: nat, b: WorkloadCounts)
    requires OutcomesFine(m, a.gate, OutcomeFiguresOf(a)) && OutcomesFine(n, b.gate, OutcomeFiguresOf(b))
    ensures OutcomesFine(m + n, Plus(a.gate, b.gate), OutcomeFiguresOf(PlusWorkload(a, b)))
  {
  }

  lemma {:induction false} InputsFineAdds(m: nat, a: Tally, n: nat, b: Tally)
    requires InputsFine(m, a) && InputsFine(n, b)
    ensures InputsFine(m + n, PlusTally(a, b))
  {
  }

  // Two batches that pass by themselves pass together.
  lemma {:induction false} FineAdds(m: nat, a: Tally, n: nat, b: Tally, th: Thresholds)
    requires Fine(m, a, th) && Fine(n, b, th)
    ensures Fine(m + n, PlusTally(a, b), th)
  {
    InputsFineAdds(m, a, n, b);
    CoverageFineAdds(a.coverage, b.coverage, th);
    OutcomesFineAdds(m, a.workload, n, b.workload);
  }

  // The gate of a summary by itself: the same thresholds, and one summary is enough.
  ghost predicate PassesAlone(s: Summary, th: Thresholds) {
    GateHolds(1, TallyOf(s), th.(requireMin := 1))
  }

  ghost predicate Passes(suite: seq<Summary>, th: Thresholds) {
    GateHolds(|suite|, SumOf(suite), th)
  }

  lemma {:induction false} GatesTogether(n: nat, t: Tally, th: Thresholds)
    ensures CurrentOf(n, t, th).gatePassed <==> GateHolds(n, t, th)
  {
  }

  predicate StatusOk(s: Summary) {
    s.status == "ok"
  }

  predicate CoverageOk(s: Summary) {
    StatusOf(Named(s.components, Coverage)) == "ok"
  }

  predicate WorkloadOk(s: Summary) {
    StatusOf(Named(s.components, Workload)) == "ok"
  }

  // The summary is ok, and it has both components, and they are.
  ghost predicate AllOk(s: Summary) {
    var coverage, workload := Named(s.components, Coverage), Named(s.components, Workload);
    && s.status == "ok"
    && coverage.Some? && coverage.value.status == "ok"
    && workload.Some? && workload.value.status == "ok"
  }

  lemma {:induction false} AllOkMeans(s: Summary)
    ensures AllOk(s) <==> StatusOk(s) && CoverageOk(s) && WorkloadOk(s)
  {
  }

  function OneIf(b: bool): nat {
    if b then 1 else 0
  }

  ghost function HowMany(suite: seq<Summary>, p: Summary -> bool): nat {
    if suite == [] then 0 else HowMany(suite[..|suite| - 1], p) + OneIf(p(suite[|suite| - 1]))
  }

  lemma {:induction false} HowManyAll(suite: seq<Summary>, p: Summary -> bool)
    ensures HowMany(suite, p) <= |suite|
    ensures HowMany(suite, p) == |suite| <==> forall s :: s in suite ==> p(s)
  {
    if suite != [] {
      var front, last := suite[..|suite| - 1], suite[|suite| - 1];
      HowManyAll(front, p);
      assert suite == front + [last];
    }
  }

  function StatusSum(suite: seq<Summary>): Counter<string> {
    if suite == [] then map[]
    else Plus(StatusSum(suite[..|suite| - 1]), map[suite[|suite| - 1].status := 1])
  }

  function ComponentStatuses(s: Summary): Counter<ComponentStatus> {
    map[CoverageStatus(StatusOf(Named(s.components, Coverage))) := 1,
        WorkloadStatus(StatusOf(Named(s.components, Workload))) := 1]
  }

  function ComponentSum(suite: seq<Summary>): Counter<ComponentStatus> {
    if suite == [] then map[]
    else Plus(ComponentSum(suite[..|suite| - 1]), ComponentStatuses(suite[|suite| - 1]))
  }

  lemma {:induction false} StatusesOfSum(suite: seq<Summary>)
    ensures SumOf(suite).status == StatusSum(suite) && SumOf(suite).components == ComponentSum(suite)
  {
    if suite != [] {
      StatusesOfSum(suite[..|suite| - 1]);
    }
  }

  lemma {:induction false} OkStatuses(suite: seq<Summary>)
    ensures Get(StatusSum(suite), "ok") == HowMany(suite, StatusOk)
  {
    if suite != [] {
      OkStatuses(suite[..|suite| - 1]);
    }
  }

  lemma {:induction false} OneMoreStatus(c: Counter<ComponentStatus>, s: Summary)
    ensures Get(Plus(c, ComponentStatuses(s)), CoverageStatus("ok")) == Get(c, CoverageStatus("ok")) + OneIf(CoverageOk(s))
    ensures Get(Plus(c, ComponentStatuses(s)), WorkloadStatus("ok")) == Get(c, WorkloadStatus("ok")) + OneIf(WorkloadOk(s))
  {
  }

  lemma {:induction false} OkComponents(suite: seq<Summary>)
    ensures Get(ComponentSum(suite), CoverageStatus("ok")) == HowMany(suite, CoverageOk)
    ensures Get(ComponentSum(suite), WorkloadStatus("ok")) == HowMany(suite, WorkloadOk)
  {
    if suite != [] {
      OkComponents(suite[..|suite| - 1]);
      OneMoreStatus(ComponentSum(suite[..|suite| - 1]), suite[|suite| - 1]);
    }
  }

  // So the input gate, which compares sums, asks every single summary to be ok.
  lemma {:induction false} InputGateMeans(suite: seq<Summary>)
    ensures InputsFine(|suite|, SumOf(suite)) <==> forall s :: s in suite ==> AllOk(s)
  {
    StatusesOfSum(suite);
    OkStatuses(suite);
    OkComponents(suite);
    HowManyAll(suite, StatusOk);
    HowManyAll(suite, CoverageOk);
    HowManyAll(suite, WorkloadOk);
    forall s {
      AllOkMeans(s);
    }
  }

  // The coverage gate, in terms of the counters.
  ghost predicate CoverageHolds(c: CoverageCounts, th: Thresholds) {
    var cases := Total(c.primary);
    && c.analyzedCases >= th.minAnalyzed
    && cases > 0 && Total(c.confidence) == cases
    && RateValue(Get(c.primary, "unknown"), cases) < th.maxUnknown
    && RateValue(Mass(c.confidence, MediumKey), cases) >= th.minMedium
    && Get(c.reasons, "unsafe_reason") == 0
  }

  // The outcome gate, likewise.
  ghost predicate OutcomesHold(n: nat, gate: Counter<OutcomeKey>) {
    && Get(gate, GatePassed) == n == Get(gate, OutcomesSupplied)
    && Get(gate, RawFreeFailed) == 0 == Get(gate, OpenGroups)
    && 0 < Get(gate, RequiredGroups) <= Get(gate, SampleMetGroups)
    && Get(gate, RequiredGroups) <= Get(gate, MeasuredGroups)
  }

  lemma {:induction false} GatePassedInCounters(n: nat, t: Tally, th: Thresholds)
    ensures CurrentOf(n, t, th).gatePassed <==>
            n >= th.requireMin && InputsFine(n, t) && CoverageHolds(t.coverage, th) && OutcomesHold(n, t.workload.gate)
  {
    GatesTogether(n, t, th);
  }

  // gate_passed of the audit of a suite, in terms of its summaries and its counters.
  lemma {:induction false} GatePassedMeans(suite: seq<Summary>, th: Thresholds)
    ensures
      var t := SumOf(suite);
      CurrentOf(|suite|, t, th).gatePassed <==>
        && |suite| >= th.requireMin
        && (forall s :: s in suite ==> AllOk(s))
        && CoverageHolds(t.coverage, th)
        && OutcomesHold(|suite|, t.workload.gate)
  {
    GatePassedInCounters(|suite|, SumOf(suite), th);
    InputGateMeans(suite);
  }

  lemma {:induction false} AllFineMeansFine(suite: seq<Summary>, th: Thresholds)
    requires suite != [] && forall s :: s in suite ==> Fine(1, TallyOf(s), th)
    ensures Fine(|suite|, SumOf(suite), th)
  {
    var front, last := suite[..|suite| - 1], suite[|suite| - 1];
    if front == [] {
      PlusTallyEmpty(TallyOf(last));
    } else {
      AllFineMeansFine(front, th);
      FineAdds(|front|, SumOf(front), 1, TallyOf(last), th);
    }
  }

  // If every summary passes alone, the suite passes as soon as it is large enough.
  lemma {:induction false} SuiteComposition(suite: seq<Summary>, th: Thresholds)
    requires suite != [] && forall s :: s in suite ==> PassesAlone(s, th)
    ensures Passes(suite, th) <==> |suite| >= th.requireMin
  {
    forall s | s in suite
      ensures Fine(1, TallyOf(s), th)
    {
      assert Fine(1, TallyOf(s), th.(requireMin := 1));
    }
    AllFineMeansFine(suite, th);
  }

  lemma {:induction false} FineBatchesPool(m: nat, a: Tally, n: nat, b: Tally, th: Thresholds)
    requires GateHolds(m, a, th) && GateHolds(n, b, th)
    ensures GateHolds(m + n, PlusTally(a, b), th)
  {
    FineAdds(m, a, n, b, th);
  }

  // Suites that pass can be pooled.
  lemma {:induction false} PassingSuitesPool(a: seq<Summary>, b: seq<Summary>, th: Thresholds)
    requires Passes(a, th) && Passes(b, th)
    ensures Passes(a + b, th)
  {
    SumConcat(a, b);
    FineBatchesPool(|a|, SumOf(a), |b|, SumOf(b), th);
  }

  // The order of the summaries decides nothing.
  lemma {:induction false} OrderIsIrrelevant(a: seq<Summary>, b: seq<Summary>, th: Thresholds)
    requires multiset(a) == multiset(b)
    ensures CurrentOf(|a|, SumOf(a), th) == CurrentOf(|b|, SumOf(b), th)
    ensures forall i :: Raises(Aggregate(th, CurrentOf(|a|, SumOf(a), th), SumOf(a), []), i)
                   <==> Raises(Aggregate(th, CurrentOf(|b|, SumOf(b), th), SumOf(b), []), i)
  {
    assert |a| == |multiset(a)| == |multiset(b)| == |b|;
    SumIgnoresOrder(a, b);
  }

  // ---- The audit ---------------------------------------------------------------------------

  datatype InputError = NoSummaries | BadMaxUnknown | BadMinMedium | Unloadable

  datatype GateResult = GateResult(aggregate: Aggregate, issues: seq<Issue>)

  // The thresholds the audit works with.
  function Effective(th: Thresholds): Thresholds {
    th.(minAnalyzed := if th.minAnalyzed < 1 then 1 else th.minAnalyzed,
        requireMin := if th.requireMin < 1 then 1 else th.requireMin)
  }

  predicate AllLoaded(inputs: seq<Option<Summary>>) {
    forall i :: 0 <= i < |inputs| ==> inputs[i].Some?
  }

  function Loaded(inputs: seq<Option<Summary>>): (suite: seq<Summary>)
    requires AllLoaded(inputs)
    ensures |suite| == |inputs|
    ensures forall i :: 0 <= i < |suite| ==> suite[i] == inputs[i].value
  {
    if inputs == [] then [] else Loaded(inputs[..|inputs| - 1]) + [inputs[|inputs| - 1].value]
  }

  // The trend: one point for each summary by itself.
  ghost function PointsOf(suite: seq<Summary>, names: seq<string>, th: Thresholds): seq<TrendPoint>
    requires |names| >= |suite|
  {
    seq(|suite|, i requires 0 <= i < |suite| =>
      PointOf(names[i], CurrentOf(1, TallyOf(suite[i]), th.(requireMin := 1))))
  }

  // audit_retained_summaries. names is empty unless the inputs come from a suite manifest.
  method AuditRetainedSummaries(inputs: seq<Option<Summary>>, names: seq<string>, raw: Thresholds, trendName: string)
    returns (r: Result<GateResult, InputError>)
    requires names == [] || |names| == |inputs|
    ensures r.Ok? <==> inputs != [] && 0.0 < raw.maxUnknown <= 100.0 && 0.0 <= raw.minMedium <= 100.0 && AllLoaded(inputs)
    ensures r.Ok? ==>
              var suite, th, a := Loaded(inputs), Effective(raw), r.value.aggregate;
              && a.thresholds == th
              && a.tally == SumOf(suite)
              && a.current == CurrentOf(|suite|, SumOf(suite), th)
              && a.trend == (if names == [] then [PointOf(trendName, a.current)] else PointsOf(suite, names, th))
              && r.value.issues == RaisedOf(a, IssueOrder())
  {
    if inputs == [] {
      return Error(NoSummaries);
    }
    if !(0.0 < raw.maxUnknown <= 100.0) {
      return Error(BadMaxUnknown);
    }
    if !(0.0 <= raw.minMedium <= 100.0) {
      return Error(BadMinMedium);
    }
    var th := Effective(raw);
    var total, points := EMPTY, [];
    for i := 0 to |inputs|
      invariant AllLoaded(inputs[..i])
      invariant total == SumOf(Loaded(inputs[..i]))
      invariant names == [] ==> points == []
      invariant names != [] ==> points == PointsOf(Loaded(inputs[..i]), names, th)
    {
      if inputs[i].None? {
        assert !AllLoaded(inputs);
        return Error(Unloadable);
      }
      ghost var done := Loaded(inputs[..i]);
      var input;
      input, total := AuditSummary(total, inputs[i].value);
      LoadedOneMore(inputs, i);
      assert SumOf(done + [inputs[i].value]) == PlusTally(SumOf(done), input);
      if names != [] {
        var alone := BuildGateAggregate(1, input, th.(requireMin := 1), names[i], []);
        PointsOneMore(done, inputs[i].value, names, th);
        points := points + [PointOf(names[i], alone.current)];
      }
    }
    assert inputs[..|inputs|] == inputs;
    var aggregate := BuildGateAggregate(|inputs|, total, th, trendName, points);
    var issues := GateIssues(aggregate);
    r := Ok(GateResult(aggregate, issues));
  }

  // In a suite audited by manifest, the trend decides: if every point of it passes, so
  // does the suite, provided it is large enough.
  lemma {:induction false} TrendDecidesSuite(suite: seq<Summary>, names: seq<string>, th: Thresholds)
    requires suite != [] && |names| == |suite|
    requires forall p :: p in PointsOf(suite, names, th) ==> p.gatePassed
    ensures Passes(suite, th) <==> |suite| >= th.requireMin
  {
    forall s | s in suite
      ensures PassesAlone(s, th)
    {
      var i :| 0 <= i < |suite| && suite[i] == s;
      assert PointsOf(suite, names, th)[i] in PointsOf(suite, names, th);
    }
    SuiteComposition(suite, th);
  }

  lemma {:induction false} LoadedOneMore(inputs: seq<Option<Summary>>, i: nat)
    requires i < |inputs| && AllLoaded(inputs[..i]) && inputs[i].Some?
    ensures AllLoaded(inputs[..i + 1])
    ensures Loaded(inputs[..i + 1]) == Loaded(inputs[..i]) + [inputs[i].value]
  {
    assert inputs[..i + 1] == inputs[..i] + [inputs[i]];
  }

  lemma {:induction false} PointsOneMore(suite: seq<Summary>, s: Summary, names: seq<string>, th: Thresholds)
    requires |names| > |suite|
    ensures PointsOf(suite + [s], names, th)
         == PointsOf(suite, names, th) + [PointOf(names[|suite|], CurrentOf(1, TallyOf(s), th.(requireMin := 1)))]
  {
  }
}
