// What the counters of a coverage audit have to do with each other and with the cases.
module CoverageLaws {
  import Counters
  import opened Wrappers
  import opened CoverageCases
  import opened CoverageTerms
  import opened CoverageBooks

  // ---- Counting cases ------------------------------------------------------------------

  ghost function Count(cases: seq<Case>, p: Case -> bool): nat {
    if cases == [] then 0 else Count(cases[..|cases| - 1], p) + One(p(cases[|cases| - 1]))
  }

  lemma {:induction false} CountZero(cases: seq<Case>, p: Case -> bool)
    ensures Count(cases, p) == 0 <==> forall c :: c in cases ==> !p(c)
    ensures Count(cases, p) <= |cases|
  {
    if cases != [] {
      var front, last := cases[..|cases| - 1], cases[|cases| - 1];
      CountZero(front, p);
      assert cases == front + [last];
    }
  }

  lemma {:induction false} CountAll(cases: seq<Case>, p: Case -> bool)
    ensures Count(cases, p) == |cases| <==> forall c :: c in cases ==> p(c)
    ensures Count(cases, p) <= |cases|
  {
    if cases != [] {
      var front, last := cases[..|cases| - 1], cases[|cases| - 1];
      CountAll(front, p);
      assert cases == front + [last];
    }
  }

  lemma {:induction false} BooksUnfold(cfg: Config, cases: seq<Case>)
    requires cases != []
    ensures BooksOf(cfg, cases) == AddCase(cfg, BooksOf(cfg, cases[..|cases| - 1]), cases[|cases| - 1])
  {
    assert BooksOf(cfg, cases) == BooksWithLast(cfg, cases);
  }

  lemma {:induction false} EvidenceGapsLeave(gaps: KeyCounts<Gap>, found: seq<EvidenceGap>, gap: Gap)
    requires !gap.Evidence?
    ensures Get(AddEvidenceGaps(gaps, found), gap) == Get(gaps, gap)
  {
    if found != [] {
      EvidenceGapsLeave(gaps, found[..|found| - 1], gap);
    }
  }

  // ---- The primary counters ------------------------------------------------------------------

  // counter.get(key, 0) and sum(counter.values()) of the Counter that the keys stand for.
  function CountOf<K(==)>(c: KeyCounts<K>, key: K): nat {
    Counters.Get(CounterOf(c), key)
  }

  ghost function SumOf<K(!new)>(c: KeyCounts<K>): nat {
    Counters.Total(CounterOf(c))
  }

  ghost predicate Conserved(b: Books, n: nat) {
    && n == b.analyzed + b.missing + b.errors
    && Total(b.primary.labels) == n
    && Total(b.primary.confidences) == n
    && Total(b.primary.sources) == n
    && Get(b.gaps, MissingAnalysis) == b.missing
  }

  lemma {:induction false} AddAnalyzedConserves(cfg: Config, b: Books, n: nat, c: Case)
    requires Conserved(b, n) && Analyzed(c)
    ensures Conserved(AddAnalyzed(cfg, b, c), n + 1)
  {
    EvidenceGapsLeave(AddPrimaryGap(b.gaps, LabelOf(cfg, c), ScopeOf(cfg, c)), c.file.analysis.gaps, MissingAnalysis);
  }

  lemma {:induction false} AddUnanalyzedConserves(cfg: Config, b: Books, n: nat, c: Case)
    requires Conserved(b, n)
    ensures Conserved(AddUnanalyzed(cfg, b, c), n + 1)
  {
  }

  lemma {:induction false} AddCaseConserves(cfg: Config, b: Books, n: nat, c: Case)
    requires Conserved(b, n)
    ensures Conserved(AddCase(cfg, b, c), n + 1)
  {
    if Analyzed(c) {
      AddAnalyzedConserves(cfg, b, n, c);
    } else {
      AddUnanalyzedConserves(cfg, b, n, c);
    }
  }

  lemma {:induction false} BooksConserve(cfg: Config, cases: seq<Case>)
    ensures Conserved(BooksOf(cfg, cases), |cases|)
  {
    if cases != [] {
      BooksUnfold(cfg, cases);
      BooksConserve(cfg, cases[..|cases| - 1]);
      AddCaseConserves(cfg, BooksOf(cfg, cases[..|cases| - 1]), |cases| - 1, cases[|cases| - 1]);
    }
  }

  // Every case is analyzed, missing its analysis or unreadable, and the counts of each of
  // the primary counters add up to the number of cases.
  lemma {:induction false} CasesAreConserved(cfg: Config, cases: seq<Case>)
    ensures
      var b := BooksOf(cfg, cases);
      && |cases| == b.analyzed + b.missing + b.errors
      && SumOf(b.primary.labels) == SumOf(b.primary.confidences) == SumOf(b.primary.sources) == |cases|
      && CountOf(b.gaps, MissingAnalysis) == b.missing
  {
    var b := BooksOf(cfg, cases);
    BooksConserve(cfg, cases);
    CounterAgrees(b.primary.labels);
    CounterAgrees(b.primary.confidences);
    CounterAgrees(b.primary.sources);
    CounterAgrees(b.gaps);
  }

  ghost function HasLabel(cfg: Config, name: Label): Case -> bool {
    c => IsLabel(Answer(cfg, c).rawLabel, name)
  }

  // Get(primary_counts, name) is the number of cases with that label.
  lemma {:induction false} LabelsAreCounted(cfg: Config, cases: seq<Case>, name: Label)
    ensures Get(BooksOf(cfg, cases).primary.labels, name) == Count(cases, HasLabel(cfg, name))
  {
    if cases != [] {
      BooksUnfold(cfg, cases);
      LabelsAreCounted(cfg, cases[..|cases| - 1], name);
      AnswersMean(cfg, cases[|cases| - 1]);
    }
  }

  ghost function IsMedium(cfg: Config): Case -> bool {
    c => Confident(Answer(cfg, c))
  }

  lemma {:induction false} MediumIsCounted(cfg: Config, cases: seq<Case>)
    ensures BooksOf(cfg, cases).primary.medium == Count(cases, IsMedium(cfg))
  {
    if cases != [] {
      BooksUnfold(cfg, cases);
      MediumIsCounted(cfg, cases[..|cases| - 1]);
      AnswersMean(cfg, cases[|cases| - 1]);
    }
  }

  // The current classifier is asked, and does not say what the summary has stored.
  ghost function Drifted(cfg: Config): Case -> bool {
    c => cfg.useClassifier && Analyzed(c) && Rated(c.file.analysis.classified) != Rated(c.stored)
  }

  ghost function DriftedAs(cfg: Config, drift: Drift): Case -> bool {
    c => Drifted(cfg)(c) && Rated(c.stored) == drift.stored && Rated(c.file.analysis.classified) == drift.selected
  }

  lemma {:induction false} DriftsAreLogged(cfg: Config, cases: seq<Case>, drift: Drift)
    ensures Total(BooksOf(cfg, cases).drift) == Count(cases, Drifted(cfg))
    ensures Get(BooksOf(cfg, cases).drift, drift) == Count(cases, DriftedAs(cfg, drift))
  {
    if cases != [] {
      BooksUnfold(cfg, cases);
      DriftsAreLogged(cfg, cases[..|cases| - 1], drift);
    }
  }

  // The drift counter counts exactly the analyzed cases on which the current classifier
  // and the summary disagree, each under what the two say.
  lemma {:induction false} DriftsAreCounted(cfg: Config, cases: seq<Case>, drift: Drift)
    ensures SumOf(BooksOf(cfg, cases).drift) == Count(cases, Drifted(cfg))
    ensures CountOf(BooksOf(cfg, cases).drift, drift) == Count(cases, DriftedAs(cfg, drift))
  {
    DriftsAreLogged(cfg, cases, drift);
    CounterAgrees(BooksOf(cfg, cases).drift);
  }

  ghost function IsAnalyzed(): Case -> bool {
    c => Analyzed(c)
  }

  lemma {:induction false} AnalyzedAreCounted(cfg: Config, cases: seq<Case>)
    ensures BooksOf(cfg, cases).analyzed == Count(cases, IsAnalyzed())
  {
    if cases != [] {
      BooksUnfold(cfg, cases);
      AnalyzedAreCounted(cfg, cases[..|cases| - 1]);
    }
  }

  // ---- The strict counters ----------------------------------------------------------------------

  ghost predicate Partitioned(b: Books) {
    && b.strict.cases + Total(b.strict.outOfScope) == b.analyzed
    && b.strict.unknown == Total(b.strict.unknownReasons) == Get(b.gaps, UnknownPrimary)
    && b.strict.unknown + b.strict.medium <= b.strict.cases
    && b.strict.medium <= b.primary.medium
    && Total(b.unknown.reasons) == Total(b.unknown.resolutions) <= b.analyzed
    && b.strict.unknown <= Total(b.unknown.reasons)
  }

  lemma {:induction false} AddCasePartitions(cfg: Config, b: Books, c: Case)
    requires Partitioned(b)
    ensures Partitioned(AddCase(cfg, b, c))
  {
    if Analyzed(c) {
      EvidenceGapsLeave(AddPrimaryGap(b.gaps, LabelOf(cfg, c), ScopeOf(cfg, c)), c.file.analysis.gaps, UnknownPrimary);
    }
  }

  lemma {:induction false} BooksPartition(cfg: Config, cases: seq<Case>)
    ensures Partitioned(BooksOf(cfg, cases))
  {
    if cases != [] {
      BooksUnfold(cfg, cases);
      BooksPartition(cfg, cases[..|cases| - 1]);
      AddCasePartitions(cfg, BooksOf(cfg, cases[..|cases| - 1]), cases[|cases| - 1]);
    }
  }

  // The strict counters partition the analyzed cases, and agree with the reasons and gaps.
  lemma {:induction false} StrictCountersPartition(cfg: Config, cases: seq<Case>)
    ensures
      var b := BooksOf(cfg, cases);
      && b.strict.cases + SumOf(b.strict.outOfScope) == b.analyzed
      && b.strict.unknown == SumOf(b.strict.unknownReasons) == CountOf(b.gaps, UnknownPrimary)
      && b.strict.unknown + b.strict.medium <= b.strict.cases
      && b.strict.medium <= b.primary.medium
      && SumOf(b.unknown.reasons) == SumOf(b.unknown.resolutions) <= b.analyzed
      && b.strict.unknown <= SumOf(b.unknown.reasons)
  {
    var b := BooksOf(cfg, cases);
    BooksPartition(cfg, cases);
    CounterAgrees(b.strict.outOfScope);
    CounterAgrees(b.strict.unknownReasons);
    CounterAgrees(b.unknown.reasons);
    CounterAgrees(b.unknown.resolutions);
    CounterAgrees(b.gaps);
  }

  ghost function IsStrict(cfg: Config): Case -> bool {
    c => InStrictScope(cfg, c)
  }

  ghost function IsStrictUnknown(cfg: Config): Case -> bool {
    c => InStrictScope(cfg, c) && AnswersUnknown(cfg, c)
  }

  ghost function IsStrictMedium(cfg: Config): Case -> bool {
    c => InStrictScope(cfg, c) && Confident(Answer(cfg, c))
  }

  ghost function HasStrictReason(cfg: Config, key: seq<ReasonToken>): Case -> bool {
    c => InStrictScope(cfg, c) && AnswersUnknown(cfg, c) && ReasonKey(AnswerReasons(cfg, c)) == key
  }

  lemma {:induction false} StrictCasesAreCounted(cfg: Config, cases: seq<Case>, key: seq<ReasonToken>)
    ensures
      var s := BooksOf(cfg, cases).strict;
      && s.cases == Count(cases, IsStrict(cfg))
      && s.unknown == Count(cases, IsStrictUnknown(cfg))
      && s.medium == Count(cases, IsStrictMedium(cfg))
      && Get(s.unknownReasons, key) == Count(cases, HasStrictReason(cfg, key))
  {
    if cases != [] {
      var last := cases[|cases| - 1];
      BooksUnfold(cfg, cases);
      StrictCasesAreCounted(cfg, cases[..|cases| - 1], key);
      AnswersMean(cfg, last);
      StrictMeans(cfg, last);
    }
  }

  // ---- The other counters ---------------------------------------------------------------------

  ghost function IsRated(cfg: Config, name: Label, confidence: Confidence): Case -> bool {
    c => IsLabel(Answer(cfg, c).rawLabel, name) && Answer(cfg, c).confidence == confidence
  }

  ghost function UsesClassifier(cfg: Config): Case -> bool {
    (c: Case) => cfg.useClassifier && c.file.Readable?
  }

  ghost function UsesSummary(cfg: Config): Case -> bool {
    (c: Case) => !(cfg.useClassifier && c.file.Readable?)
  }

  lemma {:induction false} RatedMeans(cfg: Config, c: Case, name: Label, confidence: Confidence)
    ensures Rated(PrimaryOf(cfg, c)) == (name, confidence) <==> IsRated(cfg, name, confidence)(c)
  {
    AnswersMean(cfg, c);
    assert LabelOf(cfg, c) == name <==> IsLabel(Answer(cfg, c).rawLabel, name);
  }

  // Each label is counted with its confidence as often as cases have both.
  lemma {:induction false} RatingsAreCounted(cfg: Config, cases: seq<Case>, name: Label, confidence: Confidence)
    ensures Get(BooksOf(cfg, cases).primary.confidences, (name, confidence)) == Count(cases, IsRated(cfg, name, confidence))
  {
    if cases != [] {
      BooksUnfold(cfg, cases);
      RatingsAreCounted(cfg, cases[..|cases| - 1], name, confidence);
      RatedMeans(cfg, cases[|cases| - 1], name, confidence);
    }
  }

  // And each source.
  lemma {:induction false} SourcesAreCounted(cfg: Config, cases: seq<Case>)
    ensures Get(BooksOf(cfg, cases).primary.sources, CurrentClassifier) == Count(cases, UsesClassifier(cfg))
    ensures Get(BooksOf(cfg, cases).primary.sources, StoredSummary) == Count(cases, UsesSummary(cfg))
  {
    if cases != [] {
      BooksUnfold(cfg, cases);
      SourcesAreCounted(cfg, cases[..|cases| - 1]);
    }
  }

  ghost function HasFile(file: AnalysisFile): Case -> bool {
    (c: Case) => c.file == file
  }

  ghost function IsOut(cfg: Config, scope: Scope): Case -> bool {
    (c: Case) => c.file.Readable? && IsOutOfScope(cfg, c, scope)
  }

  lemma {:induction false} FilesAndScopesAreCounted(cfg: Config, cases: seq<Case>, scope: Scope)
    ensures
      var b := BooksOf(cfg, cases);
      && b.missing == Count(cases, HasFile(NoFile))
      && b.errors == Count(cases, HasFile(Unreadable))
      && Get(b.strict.outOfScope, scope) == Count(cases, IsOut(cfg, scope))
  {
    if cases != [] {
      var last := cases[|cases| - 1];
      BooksUnfold(cfg, cases);
      FilesAndScopesAreCounted(cfg, cases[..|cases| - 1], scope);
      if last.file.Readable? {
        ScopesMean(cfg, last, scope);
      }
    }
  }

  ghost function Resolves(cfg: Config, key: ResolutionKey): Case -> bool {
    (c: Case) => c.file.Readable? && AnswersUnknown(cfg, c) && IsResolved(cfg, c, key)
  }

  ghost function Gives(cfg: Config, key: seq<ReasonToken>): Case -> bool {
    (c: Case) => c.file.Readable? && AnswersUnknown(cfg, c) && ReasonKey(AnswerReasons(cfg, c)) == key
  }

  // So is each resolution and each reason of the analyzed unknown cases.
  lemma {:induction false} ResolutionsAreCounted(cfg: Config, cases: seq<Case>, resolution: ResolutionKey,
                                                 key: seq<ReasonToken>)
    ensures
      var u := BooksOf(cfg, cases).unknown;
      && Get(u.resolutions, resolution) == Count(cases, Resolves(cfg, resolution))
      && Get(u.reasons, key) == Count(cases, Gives(cfg, key))
  {
    if cases != [] {
      var last := cases[|cases| - 1];
      BooksUnfold(cfg, cases);
      ResolutionsAreCounted(cfg, cases[..|cases| - 1], resolution, key);
      AnswersMean(cfg, last);
      if last.file.Readable? {
        ResolutionsMean(cfg, last, resolution);
      }
    }
  }

  ghost function LacksLabel(cfg: Config): Case -> bool {
    (c: Case) => c.file.Readable? && IsLabel(Answer(cfg, c).rawLabel, Missing)
  }

  // How often the readable analyses list the gap.
  ghost function Listed(cases: seq<Case>, gap: EvidenceGap): nat {
    if cases == [] then 0
    else
      var last := cases[|cases| - 1];
      Listed(cases[..|cases| - 1], gap) + if last.file.Readable? then multiset(last.file.analysis.gaps)[gap] else 0
  }

  lemma {:induction false} EvidenceGapsAdd(gaps: KeyCounts<Gap>, found: seq<EvidenceGap>, gap: EvidenceGap)
    ensures Get(AddEvidenceGaps(gaps, found), Evidence(gap)) == Get(gaps, Evidence(gap)) + multiset(found)[gap]
  {
    if found != [] {
      assert found == found[..|found| - 1] + [found[|found| - 1]];
      EvidenceGapsAdd(gaps, found[..|found| - 1], gap);
    }
  }

  lemma {:induction false} LackedLabelsAreCounted(cfg: Config, cases: seq<Case>)
    ensures Get(BooksOf(cfg, cases).gaps, MissingLabel) == Count(cases, LacksLabel(cfg))
  {
    if cases != [] {
      var b, last := BooksOf(cfg, cases[..|cases| - 1]), cases[|cases| - 1];
      BooksUnfold(cfg, cases);
      LackedLabelsAreCounted(cfg, cases[..|cases| - 1]);
      if last.file.Readable? {
        AnswersMean(cfg, last);
        EvidenceGapsLeave(AddPrimaryGap(b.gaps, LabelOf(cfg, last), ScopeOf(cfg, last)), last.file.analysis.gaps, MissingLabel);
      }
    }
  }

  lemma {:induction false} LacksAreCounted(cfg: Config, cases: seq<Case>, gap: EvidenceGap)
    ensures Get(BooksOf(cfg, cases).gaps, Evidence(gap)) == Listed(cases, gap)
  {
    if cases != [] {
      var b, last := BooksOf(cfg, cases[..|cases| - 1]), cases[|cases| - 1];
      BooksUnfold(cfg, cases);
      LacksAreCounted(cfg, cases[..|cases| - 1], gap);
      if last.file.Readable? {
        EvidenceGapsAdd(AddPrimaryGap(b.gaps, LabelOf(cfg, last), ScopeOf(cfg, last)), last.file.analysis.gaps, gap);
      }
    }
  }

  // So is each gap.
  lemma {:induction false} GapsAreCounted(cfg: Config, cases: seq<Case>, gap: EvidenceGap)
    ensures
      var gaps := BooksOf(cfg, cases).gaps;
      && Get(gaps, MissingAnalysis) == Count(cases, HasFile(NoFile))
      && Get(gaps, MissingLabel) == Count(cases, LacksLabel(cfg))
      && Get(gaps, UnknownPrimary) == Count(cases, IsStrictUnknown(cfg))
      && Get(gaps, Evidence(gap)) == Listed(cases, gap)
  {
    BooksConserve(cfg, cases);
    BooksPartition(cfg, cases);
    FilesAndScopesAreCounted(cfg, cases, CleanCase);
    StrictCasesAreCounted(cfg, cases, []);
    LackedLabelsAreCounted(cfg, cases);
    LacksAreCounted(cfg, cases, gap);
  }

  // ---- Resolutions --------------------------------------------------------------------------------

  ghost predicate EvidenceGapsBounded(cfg: Config, u: UnknownBooks, s: StrictBooks) {
    var gaps, dialect := Get(u.resolutions, DiagnosticEvidenceGap), Get(s.outOfScope, DialectOutOfScope);
    && s.unknown <= gaps <= s.unknown + dialect
    && (!cfg.dialectFirst ==> gaps == s.unknown + dialect)
  }

  // How the resolution of an unknown case goes with its scope.
  ghost predicate Matches(cfg: Config, name: Label, scope: Option<Scope>, resolution: ResolutionKey) {
    if name != Unknown then scope != Some(DialectOutOfScope)
    else
      && (scope.None? ==> resolution == DiagnosticEvidenceGap)
      && (resolution == DiagnosticEvidenceGap ==> scope.None? || scope == Some(DialectOutOfScope))
      && (!cfg.dialectFirst && scope == Some(DialectOutOfScope) ==> resolution == DiagnosticEvidenceGap)
  }

  lemma {:induction false} ResolutionMatchesScope(cfg: Config, c: Case)
    requires Analyzed(c)
    ensures Matches(cfg, LabelOf(cfg, c), ScopeOf(cfg, c), Resolve(c, c.file.analysis, ScopeOf(cfg, c), ReasonsOf(cfg, c)))
  {
  }

  lemma {:induction false} MatchingKeepsBounds(cfg: Config, u: UnknownBooks, s: StrictBooks, name: Label,
                                               confidence: Confidence, scope: Option<Scope>, key: seq<ReasonToken>,
                                               resolution: ResolutionKey)
    requires EvidenceGapsBounded(cfg, u, s) && Matches(cfg, name, scope, resolution)
    ensures EvidenceGapsBounded(cfg, AddUnknown(u, name, key, resolution), AddStrict(s, scope, name, confidence, key))
  {
  }

  // The unknown cases that resolve to an evidence gap are the strict unknown cases and, of
  // those out of scope for their dialect, the ones that are not also very short.
  lemma {:induction false} EvidenceGapsAreStrictUnknowns(cfg: Config, cases: seq<Case>)
    ensures EvidenceGapsBounded(cfg, BooksOf(cfg, cases).unknown, BooksOf(cfg, cases).strict)
  {
    if cases != [] {
      var b, c := BooksOf(cfg, cases[..|cases| - 1]), cases[|cases| - 1];
      BooksUnfold(cfg, cases);
      EvidenceGapsAreStrictUnknowns(cfg, cases[..|cases| - 1]);
      if Analyzed(c) {
        var scope, reasons := ScopeOf(cfg, c), ReasonsOf(cfg, c);
        ResolutionMatchesScope(cfg, c);
        MatchingKeepsBounds(cfg, b.unknown, b.strict, LabelOf(cfg, c), PrimaryOf(cfg, c).confidence, scope,
                            ReasonKey(reasons), Resolve(c, c.file.analysis, scope, reasons));
      }
    }
  }

  // ---- The arbitrary order of the out-of-scope reasons --------------------------------------------

  // Equal but for the keys of the out-of-scope counter.
  ghost predicate SameButScopes(a: Books, b: Books) {
    && a == b.(strict := b.strict.(outOfScope := a.strict.outOfScope))
    && Total(a.strict.outOfScope) == Total(b.strict.outOfScope)
  }

  lemma {:induction false} ScopeIsAsClear(cfg: Config, cfg': Config, c: Case)
    requires cfg.useClassifier == cfg'.useClassifier && Analyzed(c)
    ensures ScopeOf(cfg, c).Some? <==> ScopeOf(cfg', c).Some?
    ensures ScopeOf(cfg, c) == Some(CleanCase) <==> ScopeOf(cfg', c) == Some(CleanCase)
  {
  }

  lemma {:induction false} AddCaseKeepsSame(cfg: Config, cfg': Config, a: Books, b: Books, c: Case)
    requires cfg.useClassifier == cfg'.useClassifier && SameButScopes(a, b)
    ensures SameButScopes(AddCase(cfg, a, c), AddCase(cfg', b, c))
  {
    if Analyzed(c) {
      ScopeIsAsClear(cfg, cfg', c);
    }
  }

  // The order in which the two out-of-scope reasons are tried decides nothing but the key
  // under which a case with both reasons is counted as out of scope.
  lemma {:induction false} ScopeOrderIsIrrelevant(cfg: Config, cfg': Config, cases: seq<Case>)
    requires cfg.useClassifier == cfg'.useClassifier
    ensures SameButScopes(BooksOf(cfg, cases), BooksOf(cfg', cases))
  {
    if cases != [] {
      var front, last := cases[..|cases| - 1], cases[|cases| - 1];
      BooksUnfold(cfg, cases);
      BooksUnfold(cfg', cases);
      ScopeOrderIsIrrelevant(cfg, cfg', front);
      AddCaseKeepsSame(cfg, cfg', BooksOf(cfg, front), BooksOf(cfg', front), last);
    }
  }
}
