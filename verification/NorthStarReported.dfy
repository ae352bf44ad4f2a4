// What the north-star gate reports of a suite, in terms of what its summaries say.
module NorthStarReported {
  import opened Wrappers
  import opened Counters
  import opened Rates
  import opened NorthStarTally
  import opened NorthStarMeasures
  import opened NorthStarGate

  // ---- Sums over the summaries -----------------------------------------------------------

  // What the first component of that name gives; nothing if it is missing, or negative.
  ghost function Given(s: Summary, name: ComponentName, value: Component -> int): nat {
    match Named(s.components, name)
    case None => 0
    case Some(c) => if value(c) > 0 then value(c) else 0
  }

  ghost function Sum(suite: seq<Summary>, name: ComponentName, value: Component -> int): nat {
    if suite == [] then 0 else Sum(suite[..|suite| - 1], name, value) + Given(suite[|suite| - 1], name, value)
  }

  // The count that a breakdown of the component has for the key.
  ghost function At<K>(raw: Component -> map<K, int>, key: K): Component -> int {
    c => if key in raw(c) then raw(c)[key] else 0
  }

  ghost function TotalCases(): Component -> int {
    (c: Component) => c.totalCases
  }

  ghost function AnalyzedCases(): Component -> int {
    (c: Component) => c.analyzedCases
  }

  ghost function Primary(): Component -> map<string, int> {
    (c: Component) => c.primary
  }

  ghost function Confidence(): Component -> map<string, int> {
    (c: Component) => c.confidence
  }

  ghost function Reasons(): Component -> map<string, int> {
    (c: Component) => c.reasons
  }

  ghost function Resolutions(): Component -> map<Resolution, int> {
    (c: Component) => c.resolutions
  }

  ghost function Gate(): Component -> map<OutcomeKey, int> {
    (c: Component) => c.gate
  }

  ghost function Results(): Component -> map<OutcomeKey, int> {
    (c: Component) => c.results
  }

  ghost function Issues(): Component -> map<string, int> {
    (c: Component) => c.issues
  }

  // What a summary adds to a counter.
  ghost function Added<K>(s: Summary, name: ComponentName, raw: Component -> map<K, int>): Counter<K> {
    match Named(s.components, name)
    case None => map[]
    case Some(c) => Sanitized(raw(c))
  }

  lemma {:induction false} AddedIsGiven<K(!new)>(s: Summary, name: ComponentName, raw: Component -> map<K, int>, key: K)
    ensures Get(Added(s, name, raw), key) == Given(s, name, At(raw, key))
  {
  }

  lemma {:induction false} GetPlus<K>(c: Counter<K>, d: Counter<K>, key: K)
    ensures Get(Plus(c, d), key) == Get(c, key) + Get(d, key)
  {
  }

  ghost function CoverageSum(suite: seq<Summary>): CoverageCounts {
    if suite == [] then NO_COVERAGE
    else
      var last := suite[|suite| - 1];
      PlusCoverage(CoverageSum(suite[..|suite| - 1]), CoverageOf(Named(last.components, Coverage)))
  }

  ghost function WorkloadSum(suite: seq<Summary>): WorkloadCounts {
    if suite == [] then NO_WORKLOAD
    else
      var last := suite[|suite| - 1];
      PlusWorkload(WorkloadSum(suite[..|suite| - 1]), WorkloadOf(Named(last.components, Workload)))
  }

  lemma {:induction false} PartsOfSum(suite: seq<Summary>)
    ensures SumOf(suite).coverage == CoverageSum(suite) && SumOf(suite).workload == WorkloadSum(suite)
  {
    if suite != [] {
      PartsOfSum(suite[..|suite| - 1]);
    }
  }

  lemma {:induction false} CasesAddUp(suite: seq<Summary>)
    ensures CoverageSum(suite).totalCases == Sum(suite, Coverage, TotalCases())
    ensures CoverageSum(suite).analyzedCases == Sum(suite, Coverage, AnalyzedCases())
  {
    if suite != [] {
      CasesAddUp(suite[..|suite| - 1]);
    }
  }

  lemma {:induction false} PrimaryAddsUp(suite: seq<Summary>, key: string)
    ensures Get(CoverageSum(suite).primary, key) == Sum(suite, Coverage, At(Primary(), key))
  {
    if suite != [] {
      var front, last := suite[..|suite| - 1], suite[|suite| - 1];
      PrimaryAddsUp(front, key);
      AddedIsGiven(last, Coverage, Primary(), key);
      GetPlus(CoverageSum(front).primary, Added(last, Coverage, Primary()), key);
    }
  }

  lemma {:induction false} ConfidenceAddsUp(suite: seq<Summary>, key: string)
    ensures Get(CoverageSum(suite).confidence, key) == Sum(suite, Coverage, At(Confidence(), key))
  {
    if suite != [] {
      var front, last := suite[..|suite| - 1], suite[|suite| - 1];
      ConfidenceAddsUp(front, key);
      AddedIsGiven(last, Coverage, Confidence(), key);
      GetPlus(CoverageSum(front).confidence, Added(last, Coverage, Confidence()), key);
    }
  }

  lemma {:induction false} ReasonsAddUp(suite: seq<Summary>, key: string)
    ensures Get(CoverageSum(suite).reasons, key) == Sum(suite, Coverage, At(Reasons(), key))
  {
    if suite != [] {
      var front, last := suite[..|suite| - 1], suite[|suite| - 1];
      ReasonsAddUp(front, key);
      AddedIsGiven(last, Coverage, Reasons(), key);
      GetPlus(CoverageSum(front).reasons, Added(last, Coverage, Reasons()), key);
    }
  }

  lemma {:induction false} ResolutionsAddUp(suite: seq<Summary>, key: Resolution)
    ensures Get(CoverageSum(suite).resolutions, key) == Sum(suite, Coverage, At(Resolutions(), key))
  {
    if suite != [] {
      var front, last := suite[..|suite| - 1], suite[|suite| - 1];
      ResolutionsAddUp(front, key);
      AddedIsGiven(last, Coverage, Resolutions(), key);
      GetPlus(CoverageSum(front).resolutions, Added(last, Coverage, Resolutions()), key);
    }
  }

  lemma {:induction false} CoverageIssuesAddUp(suite: seq<Summary>, key: string)
    ensures Get(CoverageSum(suite).issues, key) == Sum(suite, Coverage, At(Issues(), key))
  {
    if suite != [] {
      var front, last := suite[..|suite| - 1], suite[|suite| - 1];
      CoverageIssuesAddUp(front, key);
      AddedIsGiven(last, Coverage, Issues(), key);
      GetPlus(CoverageSum(front).issues, Added(last, Coverage, Issues()), key);
    }
  }

  lemma {:induction false} GateAddsUp(suite: seq<Summary>, key: OutcomeKey)
    ensures Get(WorkloadSum(suite).gate, key) == Sum(suite, Workload, At(Gate(), key))
  {
    if suite != [] {
      var front, last := suite[..|suite| - 1], suite[|suite| - 1];
      GateAddsUp(front, key);
      AddedIsGiven(last, Workload, Gate(), key);
      GetPlus(WorkloadSum(front).gate, Added(last, Workload, Gate()), key);
    }
  }

  lemma {:induction false} ResultsAddUp(suite: seq<Summary>, key: OutcomeKey)
    ensures Get(WorkloadSum(suite).results, key) == Sum(suite, Workload, At(Results(), key))
  {
    if suite != [] {
      var front, last := suite[..|suite| - 1], suite[|suite| - 1];
      ResultsAddUp(front, key);
      AddedIsGiven(last, Workload, Results(), key);
      GetPlus(WorkloadSum(front).results, Added(last, Workload, Results()), key);
    }
  }

  lemma {:induction false} WorkloadIssuesAddUp(suite: seq<Summary>, key: string)
    ensures Get(WorkloadSum(suite).issues, key) == Sum(suite, Workload, At(Issues(), key))
  {
    if suite != [] {
      var front, last := suite[..|suite| - 1], suite[|suite| - 1];
      WorkloadIssuesAddUp(front, key);
      AddedIsGiven(last, Workload, Issues(), key);
      GetPlus(WorkloadSum(front).issues, Added(last, Workload, Issues()), key);
    }
  }

  // The counters of the coverage components are sums over the suite.
  lemma {:induction false} CoverageAddsUp(suite: seq<Summary>, key: string, resolution: Resolution)
    ensures
      var c := SumOf(suite).coverage;
      && c.totalCases == Sum(suite, Coverage, TotalCases())
      && c.analyzedCases == Sum(suite, Coverage, AnalyzedCases())
      && Get(c.primary, key) == Sum(suite, Coverage, At(Primary(), key))
      && Get(c.confidence, key) == Sum(suite, Coverage, At(Confidence(), key))
      && Get(c.reasons, key) == Sum(suite, Coverage, At(Reasons(), key))
      && Get(c.resolutions, resolution) == Sum(suite, Coverage, At(Resolutions(), resolution))
      && Get(c.issues, key) == Sum(suite, Coverage, At(Issues(), key))
  {
    PartsOfSum(suite);
    CasesAddUp(suite);
    PrimaryAddsUp(suite, key);
    ConfidenceAddsUp(suite, key);
    ReasonsAddUp(suite, key);
    ResolutionsAddUp(suite, resolution);
    CoverageIssuesAddUp(suite, key);
  }

  // So are those of the workload components.
  lemma {:induction false} WorkloadAddsUp(suite: seq<Summary>, key: OutcomeKey, issue: string)
    ensures
      var w := SumOf(suite).workload;
      && Get(w.gate, key) == Sum(suite, Workload, At(Gate(), key))
      && Get(w.results, key) == Sum(suite, Workload, At(Results(), key))
      && Get(w.issues, issue) == Sum(suite, Workload, At(Issues(), issue))
  {
    PartsOfSum(suite);
    GateAddsUp(suite, key);
    ResultsAddUp(suite, key);
    WorkloadIssuesAddUp(suite, issue);
  }

  // The component of that name has that status, or is missing.
  ghost function HasStatus(name: ComponentName, status: string): Summary -> bool {
    (s: Summary) =>
      var c := Named(s.components, name);
      (c.Some? && c.value.status == status) || (c.None? && status == "missing")
  }

  lemma {:induction false} GetStatus(c: Counter<ComponentStatus>, s: Summary, status: string)
    ensures Get(Plus(c, ComponentStatuses(s)), CoverageStatus(status)) ==
            Get(c, CoverageStatus(status)) + OneIf(HasStatus(Coverage, status)(s))
    ensures Get(Plus(c, ComponentStatuses(s)), WorkloadStatus(status)) ==
            Get(c, WorkloadStatus(status)) + OneIf(HasStatus(Workload, status)(s))
  {
  }

  lemma {:induction false} StatusesOfComponents(suite: seq<Summary>, status: string)
    ensures Get(ComponentSum(suite), CoverageStatus(status)) == HowMany(suite, HasStatus(Coverage, status))
    ensures Get(ComponentSum(suite), WorkloadStatus(status)) == HowMany(suite, HasStatus(Workload, status))
  {
    if suite != [] {
      StatusesOfComponents(suite[..|suite| - 1], status);
      GetStatus(ComponentSum(suite[..|suite| - 1]), suite[|suite| - 1], status);
    }
  }

  ghost function IsStatus(status: string): Summary -> bool {
    (s: Summary) => s.status == status
  }

  lemma {:induction false} SummaryStatuses(suite: seq<Summary>, status: string)
    ensures Get(StatusSum(suite), status) == HowMany(suite, IsStatus(status))
  {
    if suite != [] {
      SummaryStatuses(suite[..|suite| - 1], status);
    }
  }

  // The status counters count summaries.
  lemma {:induction false} StatusesAreCounted(suite: seq<Summary>, status: string)
    ensures Get(SumOf(suite).status, status) == HowMany(suite, IsStatus(status))
    ensures Get(SumOf(suite).components, CoverageStatus(status)) == HowMany(suite, HasStatus(Coverage, status))
    ensures Get(SumOf(suite).components, WorkloadStatus(status)) == HowMany(suite, HasStatus(Workload, status))
  {
    StatusesOfSum(suite);
    StatusesOfComponents(suite, status);
    SummaryStatuses(suite, status);
  }

  // ---- Keys and classes ------------------------------------------------------------------

  // An actionable label with an underscore and the word high or medium.
  ghost predicate IsMediumKey(key: string, name: string) {
    && (key == name + "_" + "high" || key == name + "_" + "medium")
    && name != "missing" && name != "none" && name != "unknown"
  }

  lemma {:induction false} MediumKeysAre(key: string)
    ensures MediumKey(key) <==> exists name :: IsMediumKey(key, name)
  {
    if MediumKey(key) {
      SplitKey(key);
      assert IsMediumKey(key, PrimaryConfidenceParts(key).0);
    }
    if name :| IsMediumKey(key, name) {
      MediumKeyMeans(name, "high");
      MediumKeyMeans(name, "medium");
    }
  }

  lemma {:induction false} SplitKey(key: string)
    requires PrimaryConfidenceParts(key).1 != ""
    ensures key == PrimaryConfidenceParts(key).0 + "_" + PrimaryConfidenceParts(key).1
  {
    UnderscoreAt(key);
  }

  lemma {:induction false} UnderscoreAt(key: string)
    ensures LastUnderscore(key) >= 0 ==> key[LastUnderscore(key)] == '_'
  {
    if key != "" && key[|key| - 1] != '_' {
      UnderscoreAt(key[..|key| - 1]);
    }
  }

  // Keys without the property add nothing.
  lemma {:induction false} MassNone<K(!new)>(keys: set<K>, c: Counter<K>, p: K -> bool)
    requires forall key :: key in keys ==> !p(key)
    ensures MassOver(keys, c, p) == 0
  {
    if key :| key in keys {
      MassNone(keys - {key}, c, p);
      MassTakeOut(keys, c, p, key);
    }
  }

  lemma {:induction false} MassOfOne<K(!new)>(c: Counter<K>, p: K -> bool, a: K)
    requires forall key :: p(key) <==> key == a
    ensures Mass(c, p) == Get(c, a)
  {
    var keys := c.Keys + {a};
    MassWiden(keys, c, p);
    MassTakeOut(keys, c, p, a);
    MassNone(keys - {a}, c, p);
  }

  lemma {:induction false} MassOfTwo<K(!new)>(c: Counter<K>, p: K -> bool, a: K, b: K)
    requires a != b && forall key :: p(key) <==> key == a || key == b
    ensures Mass(c, p) == Get(c, a) + Get(c, b)
  {
    var keys := c.Keys + {a, b};
    MassWiden(keys, c, p);
    MassTakeOut(keys, c, p, a);
    MassTakeOut(keys - {a}, c, p, b);
    MassNone(keys - {a} - {b}, c, p);
  }

  // The unknown cases by what their resolutions say: an evidence gap, a boundary, a missing
  // wall clock, or nothing that is known, which takes what is left.
  lemma {:induction false} UnknownFiguresMean(c: CoverageCounts)
    ensures
      var u, r, unknown := UnknownFiguresOf(c), c.resolutions, Get(c.primary, "unknown");
      && u.evidenceGap == Get(r, EvidenceGap)
      && u.boundary == Get(r, CleanCase) + Get(r, CleanShort) + Get(r, ShortQuery)
      && u.collectorGap == Get(r, MissingWallClock)
      && u.unclassified == (if Total(r) > unknown then Total(r) else unknown) - u.evidenceGap - u.boundary - u.collectorGap
  {
    MassOfOne(c.resolutions, InClass(DeterministicEvidenceGap), EvidenceGap);
    MassOfTwo(c.resolutions, InClass(NoActionBoundary), CleanCase, CleanShort);
    MassOfOne(c.resolutions, InClass(OutOfScopeBoundary), ShortQuery);
    MassOfOne(c.resolutions, InClass(CollectorWallClockGap), MissingWallClock);
    ClassesConserve(c.resolutions, Get(c.primary, "unknown"));
  }

  // ---- The block and the trend -------------------------------------------------------------

  // The figures of the current block.
  lemma {:induction false} FiguresMean(n: nat, t: Tally, th: Thresholds)
    ensures
      var f, o, gate := CurrentOf(n, t, th).coverage, CurrentOf(n, t, th).outcome, t.workload.gate;
      && f.primaryCases == Total(t.coverage.primary) && f.confidenceCases == Total(t.coverage.confidence)
      && f.unknownCases == Get(t.coverage.primary, "unknown")
      && f.unknownRate == RateValue(f.unknownCases, f.primaryCases)
      && f.mediumCases == Mass(t.coverage.confidence, MediumKey)
      && f.mediumRate == RateValue(f.mediumCases, f.primaryCases)
      && f.unsafeReason == Get(t.coverage.reasons, "unsafe_reason")
      && o.required == Get(gate, RequiredGroups) && o.sampleMet == Get(gate, SampleMetGroups)
      && o.measured == Get(gate, MeasuredGroups) && o.open == Get(gate, OpenGroups)
      && o.requiredMeasured == Get(t.workload.results, RequiredMeasuredResults)
  {
  }

  lemma {:induction false} InputsAlone(s: Summary, suite: seq<Summary>)
    requires suite == [s]
    ensures InputsFine(1, TallyOf(s)) <==> AllOk(s)
  {
    assert SumOf(suite) == TallyOf(s) by {
      SumSingle(s);
    }
    InputGateMeans(suite);
    assert suite[0] in suite;
  }

  lemma {:induction false} PassesAloneMeans(s: Summary, th: Thresholds)
    requires th.requireMin == 1
    ensures CurrentOf(1, TallyOf(s), th).gatePassed <==>
            AllOk(s) && CoverageHolds(TallyOf(s).coverage, th) && OutcomesHold(1, TallyOf(s).workload.gate)
  {
    GatePassedInCounters(1, TallyOf(s), th);
    InputsAlone(s, [s]);
  }

  lemma {:induction false} CoverageIgnoresCount(c: CoverageCounts, th: Thresholds)
    ensures CoverageHolds(c, th.(requireMin := 1)) <==> CoverageHolds(c, th)
  {
  }

  // A point of the trend is about one summary.
  lemma {:induction false} PointMeans(name: string, s: Summary, th: Thresholds, p: TrendPoint)
    requires p == PointOf(name, CurrentOf(1, TallyOf(s), th.(requireMin := 1)))
    ensures
      var t := TallyOf(s);
      && p.name == name
      && p.unknownRate == RateValue(Get(t.coverage.primary, "unknown"), Total(t.coverage.primary))
      && p.mediumRate == RateValue(Mass(t.coverage.confidence, MediumKey), Total(t.coverage.primary))
      && p.measured == Get(t.workload.gate, MeasuredGroups) && p.open == Get(t.workload.gate, OpenGroups)
      && (p.gatePassed <==> AllOk(s) && CoverageHolds(t.coverage, th) && OutcomesHold(1, t.workload.gate))
  {
    FiguresMean(1, TallyOf(s), th.(requireMin := 1));
    PassesAloneMeans(s, th.(requireMin := 1));
    CoverageIgnoresCount(TallyOf(s).coverage, th);
  }

  // Thresholds below one count as one.
  lemma {:induction false} EffectiveMeans(th: Thresholds, n: int)
    ensures
      var e := Effective(th);
      && e.maxUnknown == th.maxUnknown && e.minMedium == th.minMedium
      && (n >= e.minAnalyzed <==> n >= 1 && n >= th.minAnalyzed)
      && (n >= e.requireMin <==> n >= 1 && n >= th.requireMin)
  {
  }

  // ---- The gate of a suite ---------------------------------------------------------------------

  // The outcome gate over what the workload components give.
  ghost predicate OutcomesGiven(suite: seq<Summary>) {
    var required := Sum(suite, Workload, At(Gate(), RequiredGroups));
    && Sum(suite, Workload, At(Gate(), GatePassed)) == |suite|
    && Sum(suite, Workload, At(Gate(), OutcomesSupplied)) == |suite|
    && Sum(suite, Workload, At(Gate(), RawFreeFailed)) == 0
    && Sum(suite, Workload, At(Gate(), OpenGroups)) == 0
    && 0 < required <= Sum(suite, Workload, At(Gate(), SampleMetGroups))
    && required <= Sum(suite, Workload, At(Gate(), MeasuredGroups))
  }

  // The coverage gate over what the coverage components give.
  ghost predicate CoverageGiven(suite: seq<Summary>, raw: Thresholds) {
    var analyzed, unknown := Sum(suite, Coverage, AnalyzedCases()), Sum(suite, Coverage, At(Primary(), "unknown"));
    var c := SumOf(suite).coverage;
    && analyzed >= 1 && analyzed >= raw.minAnalyzed
    && Total(c.primary) > 0 && Total(c.confidence) == Total(c.primary)
    && RateValue(unknown, Total(c.primary)) < raw.maxUnknown
    && RateValue(Mass(c.confidence, MediumKey), Total(c.primary)) >= raw.minMedium
    && Sum(suite, Coverage, At(Reasons(), "unsafe_reason")) == 0
  }

  lemma {:induction false} CoverageIsGiven(suite: seq<Summary>, raw: Thresholds)
    ensures CoverageHolds(SumOf(suite).coverage, Effective(raw)) <==> CoverageGiven(suite, raw)
  {
    EffectiveMeans(raw, SumOf(suite).coverage.analyzedCases);
    PartsOfSum(suite);
    CasesAddUp(suite);
    PrimaryAddsUp(suite, "unknown");
    ReasonsAddUp(suite, "unsafe_reason");
  }

  // gate_passed of an audit, from its summaries.
  lemma {:induction false} GatePassedFromSummaries(suite: seq<Summary>, raw: Thresholds)
    ensures CurrentOf(|suite|, SumOf(suite), Effective(raw)).gatePassed <==>
              && suite != [] && |suite| >= raw.requireMin
              && (forall s :: s in suite ==> AllOk(s))
              && CoverageGiven(suite, raw)
              && OutcomesGiven(suite)
  {
    GatePassedMeans(suite, Effective(raw));
    EffectiveMeans(raw, |suite|);
    CoverageIsGiven(suite, raw);
    OutcomesAreGiven(suite);
  }

  lemma {:induction false} OutcomesAreGiven(suite: seq<Summary>)
    ensures OutcomesHold(|suite|, SumOf(suite).workload.gate) <==> OutcomesGiven(suite)
  {
    PartsOfSum(suite);
    GateAddsUp(suite, GatePassed);
    GateAddsUp(suite, OutcomesSupplied);
    GateAddsUp(suite, RawFreeFailed);
    GateAddsUp(suite, OpenGroups);
    GateAddsUp(suite, RequiredGroups);
    GateAddsUp(suite, SampleMetGroups);
    GateAddsUp(suite, MeasuredGroups);
  }
}
