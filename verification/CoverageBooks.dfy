// The counters of a coverage audit, and what a single case adds to them.
module CoverageBooks {
  import Counters
  import opened Wrappers
  import opened CoverageCases

  // A counter that is only ever incremented, as the keys it was incremented for. CounterOf
  // is the Counter it stands for.
  datatype KeyCounts<K> = NoCounts | Counted(before: KeyCounts<K>, key: K)

  function CounterOf<K>(c: KeyCounts<K>): Counters.Counter<K> {
    if c.NoCounts? then map[] else Counters.Bump(CounterOf(c.before), c.key, 1)
  }

  // counter.get(key, 0)
  function Get<K(==)>(c: KeyCounts<K>, key: K): nat {
    if c.NoCounts? then 0 else Get(c.before, key) + One(c.key == key)
  }

  // sum(counter.values())
  function Total<K>(c: KeyCounts<K>): nat {
    if c.NoCounts? then 0 else Total(c.before) + 1
  }

  // Get and Total are those of the Counter: the count of a key, and the sum over all keys.
  lemma {:induction false} CounterAgrees<K(!new)>(c: KeyCounts<K>)
    ensures forall key :: Counters.Get(CounterOf(c), key) == Get(c, key)
    ensures Counters.Total(CounterOf(c)) == Total(c)
  {
    if c.Counted? {
      CounterAgrees(c.before);
      Counters.MassBump(CounterOf(c.before), c.key, 1, Counters.Any);
    }
  }

  function CountedIf<K>(c: KeyCounts<K>, counts: bool, key: K): KeyCounts<K> {
    if counts then Counted(c, key) else c
  }

  // A label and confidence as stored, and as the current classifier has them.
  datatype Drift = Drift(stored: (Label, Confidence), selected: (Label, Confidence))

  // The counters every case goes into.
  datatype PrimaryBooks = PrimaryBooks(
    labels: KeyCounts<Label>,
    confidences: KeyCounts<(Label, Confidence)>,
    sources: KeyCounts<Source>,
    medium: nat)

  // The counters of unknown primaries among the analyzed cases.
  datatype UnknownBooks = UnknownBooks(
    reasons: KeyCounts<seq<ReasonToken>>,
    resolutions: KeyCounts<ResolutionKey>)

  // The counters of strict coverage.
  datatype StrictBooks = StrictBooks(
    cases: nat,
    unknown: nat,
    medium: nat,
    outOfScope: KeyCounts<Scope>,
    unknownReasons: KeyCounts<seq<ReasonToken>>)

  datatype Books = Books(
    analyzed: nat,
    missing: nat,
    errors: nat,
    drift: KeyCounts<Drift>,
    gaps: KeyCounts<Gap>,
    primary: PrimaryBooks,
    unknown: UnknownBooks,
    strict: StrictBooks)

  const NO_PRIMARY := PrimaryBooks(NoCounts, NoCounts, NoCounts, 0)
  const NO_UNKNOWN := UnknownBooks(NoCounts, NoCounts)
  const NO_STRICT := StrictBooks(0, 0, 0, NoCounts, NoCounts)
  const NO_CASES := Books(0, 0, 0, NoCounts, NoCounts, NO_PRIMARY, NO_UNKNOWN, NO_STRICT)

  function One(b: bool): nat {
    if b then 1 else 0
  }

  function Rated(primary: Primary): (Label, Confidence) {
    (PrimaryLabelValue(primary.rawLabel), primary.confidence)
  }

  function AddPrimary(b: PrimaryBooks, selected: Primary, source: Source): PrimaryBooks {
    var name := PrimaryLabelValue(selected.rawLabel);
    PrimaryBooks(Counted(b.labels, name),
                 Counted(b.confidences, Rated(selected)),
                 Counted(b.sources, source),
                 b.medium + One(IsMediumOrBetter(name, selected.confidence)))
  }

  function AddUnknown(b: UnknownBooks, name: Label, key: seq<ReasonToken>, resolution: ResolutionKey): UnknownBooks {
    if name == Unknown then UnknownBooks(Counted(b.reasons, key), Counted(b.resolutions, resolution)) else b
  }

  function AddStrict(b: StrictBooks, scope: Option<Scope>, name: Label, confidence: Confidence,
                     key: seq<ReasonToken>): StrictBooks {
    if scope.Some? then b.(outOfScope := Counted(b.outOfScope, scope.value))
    else
      StrictBooks(b.cases + 1,
                  b.unknown + One(name == Unknown),
                  b.medium + One(IsMediumOrBetter(name, confidence)),
                  b.outOfScope,
                  CountedIf(b.unknownReasons, name == Unknown, key))
  }

  function AddPrimaryGap(gaps: KeyCounts<Gap>, name: Label, scope: Option<Scope>): KeyCounts<Gap> {
    if name == Unknown && scope.None? then Counted(gaps, UnknownPrimary)
    else if name == Missing then Counted(gaps, MissingLabel)
    else gaps
  }

  function AddEvidenceGaps(gaps: KeyCounts<Gap>, found: seq<EvidenceGap>): KeyCounts<Gap> {
    if found == [] then gaps
    else Counted(AddEvidenceGaps(gaps, found[..|found| - 1]), Evidence(found[|found| - 1]))
  }

  function AddDrift(drift: KeyCounts<Drift>, stored: Primary, selected: Primary, source: Source): KeyCounts<Drift> {
    CountedIf(drift, source == CurrentClassifier && Rated(stored) != Rated(selected),
              Drift(Rated(stored), Rated(selected)))
  }

  // What an audited case adds to the books, by its kind of analysis file.
  function AddCase(cfg: Config, b: Books, c: Case): Books {
    if Analyzed(c) then AddAnalyzed(cfg, b, c) else AddUnanalyzed(cfg, b, c)
  }

  function AddUnanalyzed(cfg: Config, b: Books, c: Case): Books {
    var b := b.(primary := AddPrimary(b.primary, PrimaryOf(cfg, c), SourceOf(cfg, c)));
    if c.file == NoFile then b.(missing := b.missing + 1, gaps := Counted(b.gaps, MissingAnalysis))
    else b.(errors := b.errors + 1)
  }

  function AddAnalyzed(cfg: Config, b: Books, c: Case): Books
    requires Analyzed(c)
  {
    AddAnalysis(AddAnalyzedPrimary(cfg, b, c), c.file.analysis)
  }

  function AddAnalyzedPrimary(cfg: Config, b: Books, c: Case): Books
    requires Analyzed(c)
  {
    var primary, source := PrimaryOf(cfg, c), SourceOf(cfg, c);
    var name, scope, reasons := LabelOf(cfg, c), ScopeOf(cfg, c), ReasonsOf(cfg, c);
    b.(drift := AddDrift(b.drift, c.stored, primary, source),
       gaps := AddPrimaryGap(b.gaps, name, scope),
       primary := AddPrimary(b.primary, primary, source),
       unknown := AddUnknown(b.unknown, name, ReasonKey(reasons), Resolve(c, c.file.analysis, scope, reasons)),
       strict := AddStrict(b.strict, scope, name, primary.confidence, ReasonKey(reasons)))
  }

  function AddAnalysis(b: Books, analysis: Analysis): Books {
    b.(analyzed := b.analyzed + 1, gaps := AddEvidenceGaps(b.gaps, analysis.gaps))
  }

  // The books after a list of cases. The recursion goes through a second function, so that
  // an unfolding of the one stops at the other.
  function BooksOf(cfg: Config, cases: seq<Case>): Books
    decreases cases, 1
  {
    if cases == [] then NO_CASES else BooksWithLast(cfg, cases)
  }

  function BooksWithLast(cfg: Config, cases: seq<Case>): Books
    requires cases != []
    decreases cases, 0
  {
    AddCase(cfg, BooksOf(cfg, cases[..|cases| - 1]), cases[|cases| - 1])
  }

  lemma {:induction false} BooksOneMore(cfg: Config, cases: seq<Case>, c: Case)
    ensures BooksOf(cfg, cases + [c]) == AddCase(cfg, BooksOf(cfg, cases), c)
  {
    assert (cases + [c])[..|cases|] == cases;
    assert BooksOf(cfg, cases + [c]) == BooksWithLast(cfg, cases + [c]);
  }
}
