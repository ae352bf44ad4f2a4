// What the north-star gate reads out of retained loop summaries, and how it adds up.
module NorthStarTally {
  import opened Wrappers
  import opened Counters

  datatype ComponentName = Coverage | Workload | NoName | OtherName(name: string)

  // Keys of the action outcome counters.
  datatype OutcomeKey =
    | GatePassed | GateEvaluable | OutcomesSupplied | RawFreeFailed
    | RequiredGroups | SampleMetGroups | MeasuredGroups | OpenGroups | RequiredMeasuredResults
    | OtherKey(name: string)

  // Keys of the unknown primary resolution counter.
  datatype Resolution =
    | CleanCase | CleanShort | EvidenceGap | MissingWallClock | ShortQuery
    | Blank | OtherResolution(name: string)

  // A component of a summary. The status and the keys are safe tokens; counts are raw.
  datatype Component = Component(
    name: ComponentName,
    status: string,
    totalCases: int,
    analyzedCases: int,
    primary: map<string, int>,
    confidence: map<string, int>,
    reasons: map<string, int>,
    resolutions: map<Resolution, int>,
    gate: map<OutcomeKey, int>,
    results: map<OutcomeKey, int>,
    issues: map<string, int>)

  datatype Summary = Summary(status: string, components: seq<Component>)

  // Keys of the component status counter: the component with its status.
  datatype ComponentStatus = CoverageStatus(status: string) | WorkloadStatus(status: string)

  // The accumulators of the audit: statuses, what the coverage components report and
  // what the workload components report.
  datatype Tally = Tally(
    status: Counter<string>,
    components: Counter<ComponentStatus>,
    coverage: CoverageCounts,
    workload: WorkloadCounts)

  datatype CoverageCounts = CoverageCounts(
    totalCases: nat,
    analyzedCases: nat,
    primary: Counter<string>,
    confidence: Counter<string>,
    reasons: Counter<string>,
    resolutions: Counter<Resolution>,
    issues: Counter<string>)

  datatype WorkloadCounts = WorkloadCounts(
    gate: Counter<OutcomeKey>,
    results: Counter<OutcomeKey>,
    issues: Counter<string>)

  const NO_COVERAGE := CoverageCounts(0, 0, map[], map[], map[], map[], map[])
  const NO_WORKLOAD := WorkloadCounts(map[], map[], map[])
  const EMPTY := Tally(map[], map[], NO_COVERAGE, NO_WORKLOAD)

  // int_value
  function IntValue(n: int): nat {
    if n < 0 then 0 else n
  }

  // The first component of that name.
  function Named(components: seq<Component>, name: ComponentName): Option<Component> {
    if components == [] then None
    else if components[0].name == name then Some(components[0])
    else Named(components[1..], name)
  }

  // components_by_name
  method ComponentsByName(components: seq<Component>) returns (byName: map<ComponentName, Component>)
    ensures forall name :: name in byName <==> name != NoName && Named(components, name).Some?
    ensures forall name :: name in byName ==> byName[name] == Named(components, name).value
  {
    byName := map[];
    for i := 0 to |components|
      invariant forall name :: name in byName <==> name != NoName && Named(components[..i], name).Some?
      invariant forall name :: name in byName ==> byName[name] == Named(components[..i], name).value
    {
      var component := components[i];
      forall name {
        NamedOneMore(components[..i], component, name);
      }
      assert components[..i + 1] == components[..i] + [component];
      if component.name != NoName && component.name !in byName {
        byName := byName[component.name := component];
      }
    }
    assert components[..|components|] == components;
  }

  lemma {:induction false} NamedOneMore(components: seq<Component>, c: Component, name: ComponentName)
    ensures Named(components + [c], name) ==
            if Named(components, name).Some? then Named(components, name)
            else if c.name == name then Some(c) else None
  {
    if components != [] {
      assert (components + [c])[1..] == components[1..] + [c];
      NamedOneMore(components[1..], c, name);
    } else {
      assert ([c])[1..] == [];
    }
  }

  function StatusOf(c: Option<Component>): string {
    if c.None? then "missing" else c.value.status
  }

  function CoverageOf(coverage: Option<Component>): CoverageCounts {
    if coverage.None? then NO_COVERAGE
    else
      var c := coverage.value;
      CoverageCounts(IntValue(c.totalCases), IntValue(c.analyzedCases),
                     Sanitized(c.primary), Sanitized(c.confidence), Sanitized(c.reasons),
                     Sanitized(c.resolutions), Sanitized(c.issues))
  }

  function WorkloadOf(workload: Option<Component>): WorkloadCounts {
    if workload.None? then NO_WORKLOAD
    else
      var w := workload.value;
      WorkloadCounts(Sanitized(w.gate), Sanitized(w.results), Sanitized(w.issues))
  }

  // What one summary contributes.
  function TallyOf(s: Summary): Tally {
    var coverage, workload := Named(s.components, Coverage), Named(s.components, Workload);
    Tally(map[s.status := 1],
          map[CoverageStatus(StatusOf(coverage)) := 1, WorkloadStatus(StatusOf(workload)) := 1],
          CoverageOf(coverage), WorkloadOf(workload))
  }

  function PlusCoverage(a: CoverageCounts, b: CoverageCounts): CoverageCounts {
    CoverageCounts(a.totalCases + b.totalCases,
                   a.analyzedCases + b.analyzedCases,
                   Plus(a.primary, b.primary),
                   Plus(a.confidence, b.confidence),
                   Plus(a.reasons, b.reasons),
                   Plus(a.resolutions, b.resolutions),
                   Plus(a.issues, b.issues))
  }

  function PlusWorkload(a: WorkloadCounts, b: WorkloadCounts): WorkloadCounts {
    WorkloadCounts(Plus(a.gate, b.gate), Plus(a.results, b.results), Plus(a.issues, b.issues))
  }

  function PlusTally(a: Tally, b: Tally): Tally {
    Tally(Plus(a.status, b.status),
          Plus(a.components, b.components),
          PlusCoverage(a.coverage, b.coverage),
          PlusWorkload(a.workload, b.workload))
  }

  lemma {:induction false} PlusTallyCommutes(a: Tally, b: Tally)
    ensures PlusTally(a, b) == PlusTally(b, a)
  {
    PlusCommutes(a.status, b.status);
    PlusCommutes(a.components, b.components);
    PlusCommutes(a.coverage.primary, b.coverage.primary);
    PlusCommutes(a.coverage.confidence, b.coverage.confidence);
    PlusCommutes(a.coverage.reasons, b.coverage.reasons);
    PlusCommutes(a.coverage.resolutions, b.coverage.resolutions);
    PlusCommutes(a.coverage.issues, b.coverage.issues);
    PlusCommutes(a.workload.gate, b.workload.gate);
    PlusCommutes(a.workload.results, b.workload.results);
    PlusCommutes(a.workload.issues, b.workload.issues);
  }

  lemma {:induction false} PlusTallyAssociates(a: Tally, b: Tally, c: Tally)
    ensures PlusTally(PlusTally(a, b), c) == PlusTally(a, PlusTally(b, c))
  {
    PlusAssociates(a.status, b.status, c.status);
    PlusAssociates(a.components, b.components, c.components);
    PlusAssociates(a.coverage.primary, b.coverage.primary, c.coverage.primary);
    PlusAssociates(a.coverage.confidence, b.coverage.confidence, c.coverage.confidence);
    PlusAssociates(a.coverage.reasons, b.coverage.reasons, c.coverage.reasons);
    PlusAssociates(a.coverage.resolutions, b.coverage.resolutions, c.coverage.resolutions);
    PlusAssociates(a.coverage.issues, b.coverage.issues, c.coverage.issues);
    PlusAssociates(a.workload.gate, b.workload.gate, c.workload.gate);
    PlusAssociates(a.workload.results, b.workload.results, c.workload.results);
    PlusAssociates(a.workload.issues, b.workload.issues, c.workload.issues);
  }

  lemma {:induction false} PlusCoverageEmpty(a: CoverageCounts)
    ensures PlusCoverage(a, NO_COVERAGE) == a == PlusCoverage(NO_COVERAGE, a)
  {
    PlusEmpty(a.primary);
    PlusEmpty(a.confidence);
    PlusEmpty(a.reasons);
    PlusEmpty(a.resolutions);
    PlusEmpty(a.issues);
  }

  lemma {:induction false} PlusWorkloadEmpty(a: WorkloadCounts)
    ensures PlusWorkload(a, NO_WORKLOAD) == a == PlusWorkload(NO_WORKLOAD, a)
  {
    PlusEmpty(a.gate);
    PlusEmpty(a.results);
    PlusEmpty(a.issues);
  }

  lemma {:induction false} PlusTallyEmpty(a: Tally)
    ensures PlusTally(a, EMPTY) == a == PlusTally(EMPTY, a)
  {
    PlusEmpty(a.status);
    PlusEmpty(a.components);
    PlusCoverageEmpty(a.coverage);
    PlusWorkloadEmpty(a.workload);
  }

  lemma {:induction false} BumpTwice(c: Counter<ComponentStatus>, x: string, y: string)
    ensures Bump(Bump(c, CoverageStatus(x), 1), WorkloadStatus(y), 1)
         == Plus(c, map[CoverageStatus(x) := 1, WorkloadStatus(y) := 1])
  {
    var d: Counter<ComponentStatus> := map[CoverageStatus(x) := 1, WorkloadStatus(y) := 1];
    assert Bump(Bump(c, CoverageStatus(x), 1), WorkloadStatus(y), 1).Keys == c.Keys + d.Keys;
  }

  // The loop body: one summary is added to the accumulators of the suite and,
  // in step with them, to accumulators of its own.
  method AuditSummary(before: Tally, s: Summary) returns (input: Tally, total: Tally)
    ensures input == TallyOf(s)
    ensures total == PlusTally(before, input)
  {
    var status, inputStatus := Bump(before.status, s.status, 1), Bump(map[], s.status, 1);
    PlusOne(before.status, s.status, 1);

    var byName := ComponentsByName(s.components);
    var coverage := if Coverage in byName then Some(byName[Coverage]) else None;
    var covered, inputCovered := before.coverage, NO_COVERAGE;
    if coverage.Some? {
      covered, inputCovered := AddCoverage(covered, coverage.value);
    } else {
      PlusCoverageEmpty(covered);
    }

    var workload := if Workload in byName then Some(byName[Workload]) else None;
    var worked, inputWorked := before.workload, NO_WORKLOAD;
    if workload.Some? {
      worked, inputWorked := AddWorkload(worked, workload.value);
    } else {
      PlusWorkloadEmpty(worked);
    }

    var components, inputComponents := CountStatuses(before.components, StatusOf(coverage), StatusOf(workload));
    input := Tally(inputStatus, inputComponents, inputCovered, inputWorked);
    total := Tally(status, components, covered, worked);
  }

  method CountStatuses(before: Counter<ComponentStatus>, coverage: string, workload: string)
    returns (total: Counter<ComponentStatus>, input: Counter<ComponentStatus>)
    ensures input == map[CoverageStatus(coverage) := 1, WorkloadStatus(workload) := 1]
    ensures total == Plus(before, input)
  {
    total := Bump(Bump(before, CoverageStatus(coverage), 1), WorkloadStatus(workload), 1);
    input := Bump(Bump(map[], CoverageStatus(coverage), 1), WorkloadStatus(workload), 1);
    BumpTwice(before, coverage, workload);
  }

  method AddCoverage(before: CoverageCounts, c: Component) returns (total: CoverageCounts, input: CoverageCounts)
    ensures input == CoverageOf(Some(c))
    ensures total == PlusCoverage(before, input)
  {
    var totalCases, analyzedCases := IntValue(c.totalCases), IntValue(c.analyzedCases);
    var primary := Plus(map[], Sanitized(c.primary));
    var confidence := Plus(map[], Sanitized(c.confidence));
    var reasons := Plus(map[], Sanitized(c.reasons));
    var resolutions := Plus(map[], Sanitized(c.resolutions));
    var issues := Plus(map[], Sanitized(c.issues));
    PlusEmpty(Sanitized(c.primary));
    PlusEmpty(Sanitized(c.confidence));
    PlusEmpty(Sanitized(c.reasons));
    PlusEmpty(Sanitized(c.resolutions));
    PlusEmpty(Sanitized(c.issues));
    input := CoverageCounts(totalCases, analyzedCases, primary, confidence, reasons, resolutions, issues);
    total := CoverageCounts(before.totalCases + totalCases, before.analyzedCases + analyzedCases,
                            Plus(before.primary, primary), Plus(before.confidence, confidence),
                            Plus(before.reasons, reasons), Plus(before.resolutions, resolutions),
                            Plus(before.issues, issues));
  }

  method AddWorkload(before: WorkloadCounts, w: Component) returns (total: WorkloadCounts, input: WorkloadCounts)
    ensures input == WorkloadOf(Some(w))
    ensures total == PlusWorkload(before, input)
  {
    var gate := Plus(map[], Sanitized(w.gate));
    var results := Plus(map[], Sanitized(w.results));
    var issues := Plus(map[], Sanitized(w.issues));
    PlusEmpty(Sanitized(w.gate));
    PlusEmpty(Sanitized(w.results));
    PlusEmpty(Sanitized(w.issues));
    input := WorkloadCounts(gate, results, issues);
    total := WorkloadCounts(Plus(before.gate, gate), Plus(before.results, results), Plus(before.issues, issues));
  }

  // ---- Sums over a suite -----------------------------------------------------------

  function SumOf(suite: seq<Summary>): Tally {
    if suite == [] then EMPTY
    else PlusTally(SumOf(suite[..|suite| - 1]), TallyOf(suite[|suite| - 1]))
  }

  lemma {:induction false} SumConcat(a: seq<Summary>, b: seq<Summary>)
    ensures SumOf(a + b) == PlusTally(SumOf(a), SumOf(b))
  {
    if b == [] {
      assert a + b == a;
      PlusTallyEmpty(SumOf(a));
    } else {
      var front, last := b[..|b| - 1], b[|b| - 1];
      assert (a + b)[..|a + b| - 1] == a + front;
      SumConcat(a, front);
      PlusTallyAssociates(SumOf(a), SumOf(front), TallyOf(last));
    }
  }

  lemma {:induction false} SumSingle(s: Summary)
    ensures SumOf([s]) == TallyOf(s)
  {
    assert [s][..0] == [];
    PlusTallyEmpty(TallyOf(s));
  }

  lemma {:induction false} SumTakeOut(suite: seq<Summary>, i: nat)
    requires i < |suite|
    ensures SumOf(suite) == PlusTally(SumOf(suite[..i] + suite[i + 1..]), TallyOf(suite[i]))
  {
    var a, s, b := suite[..i], suite[i], suite[i + 1..];
    assert suite == a + ([s] + b);
    SumConcat(a, [s] + b);
    SumConcat([s], b);
    SumSingle(s);
    SumConcat(a, b);
    PlusTallyCommutes(TallyOf(s), SumOf(b));
    PlusTallyAssociates(SumOf(a), SumOf(b), TallyOf(s));
  }

  // The order of the summaries does not matter.
  lemma {:induction false} SumIgnoresOrder(a: seq<Summary>, b: seq<Summary>)
    requires multiset(a) == multiset(b)
    ensures SumOf(a) == SumOf(b)
  {
    assert |a| == |multiset(a)| == |multiset(b)| == |b|;
    if a != [] {
      var front, last := a[..|a| - 1], a[|a| - 1];
      assert a == front + [last];
      assert last in multiset(b);
      var i :| 0 <= i < |b| && b[i] == last;
      var rest := b[..i] + b[i + 1..];
      assert b == b[..i] + [last] + b[i + 1..];
      assert multiset(rest) == multiset(b) - multiset{last};
      SumIgnoresOrder(front, rest);
      SumTakeOut(b, i);
    }
  }
}
