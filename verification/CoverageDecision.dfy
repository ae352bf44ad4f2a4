// The strict decision of a coverage audit, and the gate it reports.
module CoverageDecision {
  import opened Wrappers
  import opened Rates
  import opened CoverageCases
  import opened CoverageTerms
  import opened CoverageBooks
  import opened CoverageLaws
  import opened CoverageAudit

  // ---- The strict decision ------------------------------------------------------------------------

  // The decision the strict audit stands for, in terms of the cases.
  ghost predicate MeetsStrictCoverage(cfg: Config, cases: seq<Case>, maxUnknown: real, minMedium: real) {
    && cases != []
    && (forall c :: c in cases ==> c.file.Readable? && !Answer(cfg, c).rawLabel.NoLabel?)
    && (forall c :: c in cases && IsStrictUnknown(cfg)(c) ==> !Unsafe(AnswerReasons(cfg, c)))
    && ExactGate(Count(cases, IsStrict(cfg)), Count(cases, IsStrictUnknown(cfg)), Count(cases, IsStrictMedium(cfg)),
                 maxUnknown, minMedium)
  }

  // The diagnostic gate passes if and only if the cases meet strict coverage.
  lemma {:induction false} StrictDecisionIsExact(r: CoverageAuditResult, maxUnknown: real, minMedium: real)
    requires r.Valid() && Decided(r.issues, 7, r.Measured(), maxUnknown, minMedium)
    ensures r.Ok() <==> MeetsStrictCoverage(r.cfg, r.cases, maxUnknown, minMedium)
    ensures r.Ok() ==> r.analyzedCases == r.totalCases
  {
    OkMeansNothingRaised(r, maxUnknown, minMedium);
    AllAnalyzed(r.cfg, r.cases);
    NoLabelMissing(r.cfg, r.cases);
    NoReasonUnsafe(r.cfg, r.cases);
    StrictCasesAreCounted(r.cfg, r.cases, []);
  }

  ghost predicate Unspoilt(b: Books) {
    && b.missing == 0 && b.errors == 0
    && Get(b.primary.labels, Missing) == 0
    && Get(b.strict.unknownReasons, [UnsafeReason]) == 0
  }

  lemma {:induction false} OkMeansNothingRaised(r: CoverageAuditResult, maxUnknown: real, minMedium: real)
    requires r.Valid() && Decided(r.issues, 7, r.Measured(), maxUnknown, minMedium)
    ensures r.Ok() <==>
              && r.cases != []
              && Unspoilt(BooksOf(r.cfg, r.cases))
              && ExactGate(r.strictPrimaryCoverageCaseCount, r.strictUnknownPrimaryCount,
                           r.strictMediumOrBetterPrimaryCount, maxUnknown, minMedium)
    ensures r.Ok() ==> r.analyzedCases == r.totalCases
  {
    BooksConserve(r.cfg, r.cases);
    NoIssuesMeansNothingRaised(r.issues, r.Measured(), maxUnknown, minMedium);
  }

  lemma {:induction false} ExactGateInRates(n: nat, unknown: nat, medium: nat, maxUnknown: real, minMedium: real)
    ensures ExactGate(n, unknown, medium, maxUnknown, minMedium)
       <==> (n > 0 ==> PercentValue(unknown, n) <= maxUnknown && PercentValue(medium, n) >= minMedium)
  {
    if n > 0 {
      PercentAgainst(unknown, n, maxUnknown);
      PercentAgainst(medium, n, minMedium);
    }
  }

  lemma {:induction false} NoIssuesMeansNothingRaised(issues: seq<Issue>, f: Figures, maxUnknown: real, minMedium: real)
    requires Decided(issues, 7, f, maxUnknown, minMedium)
    ensures issues == [] <==>
              && f.total > 0 && f.missing == 0 && f.errors == 0 && f.missingLabels == 0 && f.unsafeReasons == 0
              && ExactGate(f.strict, f.unknown, f.medium, maxUnknown, minMedium)
  {
    ExactGateInRates(f.strict, f.unknown, f.medium, maxUnknown, minMedium);
    if issues != [] {
      assert issues[0] in issues;
      assert Raises(f, issues[0], maxUnknown, minMedium);
    } else {
      assert !Raises(f, EmptyBatch, maxUnknown, minMedium) && !Raises(f, MissingAnalyses, maxUnknown, minMedium);
      assert !Raises(f, UnreadableAnalyses, maxUnknown, minMedium) && !Raises(f, MissingLabels, maxUnknown, minMedium);
      assert !Raises(f, UnsafeReasons, maxUnknown, minMedium);
      assert !Raises(f, UnknownRate, maxUnknown, minMedium) && !Raises(f, MediumRate, maxUnknown, minMedium);
    }
  }

  lemma {:induction false} AllAnalyzed(cfg: Config, cases: seq<Case>)
    ensures BooksOf(cfg, cases).missing == 0 && BooksOf(cfg, cases).errors == 0
       <==> forall c :: c in cases ==> Analyzed(c)
  {
    BooksConserve(cfg, cases);
    AnalyzedAreCounted(cfg, cases);
    CountAll(cases, IsAnalyzed());
  }

  lemma {:induction false} NoLabelMissing(cfg: Config, cases: seq<Case>)
    ensures Get(BooksOf(cfg, cases).primary.labels, Missing) == 0
       <==> forall c :: c in cases ==> !Answer(cfg, c).rawLabel.NoLabel?
  {
    LabelsAreCounted(cfg, cases, Missing);
    CountZero(cases, HasLabel(cfg, Missing));
    assert forall c :: HasLabel(cfg, Missing)(c) <==> Answer(cfg, c).rawLabel.NoLabel?;
  }

  lemma {:induction false} NoReasonUnsafe(cfg: Config, cases: seq<Case>)
    ensures Get(BooksOf(cfg, cases).strict.unknownReasons, [UnsafeReason]) == 0
       <==> forall c :: c in cases && IsStrictUnknown(cfg)(c) ==> !Unsafe(AnswerReasons(cfg, c))
  {
    StrictCasesAreCounted(cfg, cases, [UnsafeReason]);
    CountZero(cases, HasStrictReason(cfg, [UnsafeReason]));
    forall c
      ensures HasStrictReason(cfg, [UnsafeReason])(c) <==> IsStrictUnknown(cfg)(c) && Unsafe(AnswerReasons(cfg, c))
    {
      if c.file.Readable? {
        ReasonKeyMeans(AnswerReasons(cfg, c));
      }
    }
  }

  // ---- The reported gate against the strict decision -------------------------------------------------

  // Some rate misses its threshold by so little that rounding hides it.
  ghost predicate NearMiss(n: nat, unknown: nat, medium: nat, maxUnknown: int, minMedium: int) {
    NearlyAbove(unknown, n, maxUnknown) || NearlyBelow(medium, n, minMedium)
  }

  // The reported gate passes on such a near miss.
  ghost predicate HiddenMiss(n: nat, unknown: nat, medium: nat, maxUnknown: int, minMedium: int) {
    && NearMiss(n, unknown, medium, maxUnknown, minMedium)
    && 20000 * (100 * unknown - maxUnknown * n) <= n
    && 20000 * (minMedium * n - 100 * medium) <= n
  }

  // With whole-percent thresholds the two gates agree if and only if there is something to
  // measure and the counts are no hidden miss.
  lemma {:induction false} GatesAgreeExactly(n: nat, unknown: nat, medium: nat, maxUnknown: int, minMedium: int)
    ensures (RoundedGate(n, unknown, medium, maxUnknown as real, minMedium as real)
             <==> ExactGate(n, unknown, medium, maxUnknown as real, minMedium as real))
       <==> n > 0 && !HiddenMiss(n, unknown, medium, maxUnknown, minMedium)
  {
    ExactGateInRates(n, unknown, medium, maxUnknown as real, minMedium as real);
    if n > 0 {
      RateCeilingInCounts(unknown, n, maxUnknown);
      RateFloorInCounts(medium, n, minMedium);
      PercentInCounts(unknown, n, maxUnknown);
      PercentInCounts(medium, n, minMedium);
    }
  }

  // Up to 20000 strict cases there is no hidden miss.
  lemma {:induction false} NoHiddenMiss(n: nat, unknown: nat, medium: nat, maxUnknown: int, minMedium: int)
    requires 0 < n <= 20000
    ensures !HiddenMiss(n, unknown, medium, maxUnknown, minMedium)
  {
    NoNearMiss(unknown, n, maxUnknown);
    NoNearMiss(medium, n, minMedium);
  }

  // Up to 20000 strict cases the two gates always agree.
  lemma {:induction false} GatesAgree(n: nat, unknown: nat, medium: nat, maxUnknown: int, minMedium: int)
    requires 0 < n <= 20000
    ensures RoundedGate(n, unknown, medium, maxUnknown as real, minMedium as real)
       <==> ExactGate(n, unknown, medium, maxUnknown as real, minMedium as real)
  {
    NoHiddenMiss(n, unknown, medium, maxUnknown, minMedium);
    GatesAgreeExactly(n, unknown, medium, maxUnknown, minMedium);
  }

  // The strict cases of an audit, and those of them that are unknown or of at least medium
  // confidence, are no hidden miss.
  ghost predicate Comparable(cfg: Config, cases: seq<Case>, maxUnknown: int, minMedium: int) {
    var n := Count(cases, IsStrict(cfg));
    n > 0 && !HiddenMiss(n, Count(cases, IsStrictUnknown(cfg)), Count(cases, IsStrictMedium(cfg)), maxUnknown, minMedium)
  }

  // An audit followed by its report. The audit is ok if and only if its cases meet strict
  // coverage, and the reported gate says whether there is a rate issue if and only if the
  // counts of its cases can be compared, which up to 20000 strict cases they can.
  method AuditAndReport(batches: seq<seq<Case>>, cfg: Config, maxUnknown: int, minMedium: int)
    returns (result: CoverageAuditResult, p: GatePayload)
    ensures fresh(result) && result.Valid() && result.cases == Joined(batches)
    ensures result.Ok() <==> MeetsStrictCoverage(cfg, Joined(batches), maxUnknown as real, minMedium as real)
    ensures (p.gatePassed <==> UnknownRate !in result.issues && MediumRate !in result.issues)
       <==> Comparable(cfg, Joined(batches), maxUnknown, minMedium)
    ensures 0 < Count(Joined(batches), IsStrict(cfg)) <= 20000 ==> Comparable(cfg, Joined(batches), maxUnknown, minMedium)
  {
    result := AuditSummaries(batches, cfg, true, maxUnknown as real, minMedium as real);
    p := result.PrimaryGatePayload(maxUnknown as real, minMedium as real);
    ghost var cases := Joined(batches);
    StrictDecisionIsExact(result, maxUnknown as real, minMedium as real);
    PayloadAgreesWithIssues(result, maxUnknown, minMedium);
    if 0 < Count(cases, IsStrict(cfg)) <= 20000 {
      NoHiddenMiss(Count(cases, IsStrict(cfg)), Count(cases, IsStrictUnknown(cfg)), Count(cases, IsStrictMedium(cfg)),
                   maxUnknown, minMedium);
    }
  }

  lemma {:induction false} RatesAreRaised(issues: seq<Issue>, f: Figures, maxUnknown: real, minMedium: real)
    requires Decided(issues, 7, f, maxUnknown, minMedium) && f.strict <= f.total
    ensures UnknownRate !in issues && MediumRate !in issues <==>
            ExactGate(f.strict, f.unknown, f.medium, maxUnknown, minMedium)
  {
    ExactGateInRates(f.strict, f.unknown, f.medium, maxUnknown, minMedium);
    assert UnknownRate in issues <==> Raises(f, UnknownRate, maxUnknown, minMedium);
    assert MediumRate in issues <==> Raises(f, MediumRate, maxUnknown, minMedium);
  }

  // No rate issue means that the exact rates meet the thresholds.
  lemma {:induction false} RateIssuesAreExact(r: CoverageAuditResult, maxUnknown: real, minMedium: real)
    requires r.Valid() && Decided(r.issues, 7, r.Measured(), maxUnknown, minMedium)
    ensures
      var n := Count(r.cases, IsStrict(r.cfg));
      var unknown, medium := Count(r.cases, IsStrictUnknown(r.cfg)), Count(r.cases, IsStrictMedium(r.cfg));
      ExactGate(n, unknown, medium, maxUnknown, minMedium) <==> UnknownRate !in r.issues && MediumRate !in r.issues
  {
    StrictCasesAreCounted(r.cfg, r.cases, []);
    BooksConserve(r.cfg, r.cases);
    BooksPartition(r.cfg, r.cases);
    RatesAreRaised(r.issues, r.Measured(), maxUnknown, minMedium);
  }

  lemma {:induction false} PayloadAgreesWithIssues(r: CoverageAuditResult, maxUnknown: int, minMedium: int)
    requires r.Valid() && Decided(r.issues, 7, r.Measured(), maxUnknown as real, minMedium as real)
    ensures
      var n := Count(r.cases, IsStrict(r.cfg));
      var unknown, medium := Count(r.cases, IsStrictUnknown(r.cfg)), Count(r.cases, IsStrictMedium(r.cfg));
      (RoundedGate(n, unknown, medium, maxUnknown as real, minMedium as real)
       <==> UnknownRate !in r.issues && MediumRate !in r.issues)
      <==> Comparable(r.cfg, r.cases, maxUnknown, minMedium)
  {
    RateIssuesAreExact(r, maxUnknown as real, minMedium as real);
    GatesAgreeExactly(Count(r.cases, IsStrict(r.cfg)), Count(r.cases, IsStrictUnknown(r.cfg)),
                      Count(r.cases, IsStrictMedium(r.cfg)), maxUnknown, minMedium);
  }

  // ---- The bound is sharp -----------------------------------------------------------------

  lemma {:induction false} CountUniform(cases: seq<Case>, c: Case, p: Case -> bool)
    requires forall d :: d in cases ==> d == c
    ensures Count(cases, p) == if p(c) then |cases| else 0
  {
    if cases != [] {
      var front, last := cases[..|cases| - 1], cases[|cases| - 1];
      assert last in cases;
      forall d | d in front ensures d == c {
        assert d in cases;
      }
      CountUniform(front, c, p);
    }
  }

  lemma {:induction false} CountConcat(a: seq<Case>, b: seq<Case>, p: Case -> bool)
    ensures Count(a + b, p) == Count(a, p) + Count(b, p)
  {
    if b == [] {
      assert a + b == a;
    } else {
      assert (a + b)[..|a + b| - 1] == a + b[..|b| - 1];
      CountConcat(a, b[..|b| - 1], p);
    }
  }

  // A case whose stored primary has that label and that confidence, and an analysis that
  // adds nothing.
  function PlainCase(rawLabel: RawLabel, confidence: Confidence): Case {
    var primary := Primary(rawLabel, confidence, Items([SafeToken(NoPrimaryBranch)]));
    Case(primary, false, None, false, false, Readable(Analysis(NoReasons, primary, None, [])))
  }

  lemma {:induction false} PlainCaseIsStrict(cfg: Config, c: Case)
    requires c == PlainCase(UnknownToken, Low) || c == PlainCase(KnownToken(Stats), High)
    ensures IsStrict(cfg)(c)
    ensures IsStrictUnknown(cfg)(c) <==> c == PlainCase(UnknownToken, Low)
    ensures IsStrictMedium(cfg)(c) <==> c == PlainCase(KnownToken(Stats), High)
  {
    var items := [SafeToken(NoPrimaryBranch)];
    assert items[..0] == [];
    assert SafeParts(items) == [Safe(NoPrimaryBranch)];
  }

  // With 20001 such cases a reported pass can hide a failed decision.
  lemma {:induction false} GatesMayDisagree(cfg: Config, unknowns: seq<Case>, mediums: seq<Case>)
    requires |unknowns| == 19801 && forall c :: c in unknowns ==> c == PlainCase(UnknownToken, Low)
    requires |mediums| == 200 && forall c :: c in mediums ==> c == PlainCase(KnownToken(Stats), High)
    ensures
      var cases := unknowns + mediums;
      var n := Count(cases, IsStrict(cfg));
      var unknown, medium := Count(cases, IsStrictUnknown(cfg)), Count(cases, IsStrictMedium(cfg));
      n == 20001 && RoundedGate(n, unknown, medium, 99.0, 0.0) && !ExactGate(n, unknown, medium, 99.0, 0.0)
  {
    var u, m := PlainCase(UnknownToken, Low), PlainCase(KnownToken(Stats), High);
    PlainCaseIsStrict(cfg, u);
    PlainCaseIsStrict(cfg, m);
    CountBoth(unknowns, u, mediums, m, IsStrict(cfg));
    CountBoth(unknowns, u, mediums, m, IsStrictUnknown(cfg));
    CountBoth(unknowns, u, mediums, m, IsStrictMedium(cfg));
    CountsDisagree();
  }

  lemma {:induction false} CountBoth(a: seq<Case>, c: Case, b: seq<Case>, d: Case, p: Case -> bool)
    requires (forall x :: x in a ==> x == c) && (forall x :: x in b ==> x == d)
    ensures Count(a + b, p) == (if p(c) then |a| else 0) + (if p(d) then |b| else 0)
  {
    CountConcat(a, b, p);
    CountUniform(a, c, p);
    CountUniform(b, d, p);
  }

  lemma {:induction false} CountsDisagree()
    ensures RoundedGate(20001, 19801, 200, 99.0, 0.0) && !ExactGate(20001, 19801, 200, 99.0, 0.0)
  {
    RateCeilingInCounts(19801, 20001, 99);
    RateFloorInCounts(200, 20001, 0);
    PercentInCounts(19801, 20001, 99);
  }
}
