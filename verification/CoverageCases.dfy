// The cases a coverage audit looks at, and what a single case contributes to the audit.
module CoverageCases {

  import opened Wrappers

  // ---- Primary bottleneck labels and confidences ----------------------------------------

  datatype KnownLabel =
    | Stats | SqlShape | RuntimeAdmission | RuntimeSkew | RuntimeDataMovement
    | RuntimeMemory | RuntimeStorage | ClientFetchTail | Mixed

  // A label as found: absent or blank, or a normalized token.
  datatype RawLabel = NoLabel | KnownToken(name: KnownLabel) | UnknownToken | OtherToken(text: string)

  datatype Label = Missing | Unknown | Known(name: KnownLabel)

  // NoConfidence stands for every token that is not one of the three.
  datatype Confidence = High | Medium | Low | NoConfidence

  // primary_label_value
  function PrimaryLabelValue(raw: RawLabel): Label {
    match raw
    case NoLabel => Missing
    case KnownToken(name) => Known(name)
    case UnknownToken => Unknown
    case OtherToken(_) => Unknown
  }

  // primary_is_medium_or_better
  predicate IsMediumOrBetter(primary: Label, confidence: Confidence) {
    primary.Known? && (confidence == High || confidence == Medium)
  }

  // ---- Reasons -----------------------------------------------------------------------------

  datatype SafeReason =
    | CodegenFinding | DataMovementContext | MemoryEstimateContext | NoPrimaryBranch | OperatorTime
    | ProfileDialect | ScanSkewMedium | StorageContext | VeryShortQuery | WallClockUnexplained

  datatype RawReason = BlankReason | SafeToken(reason: SafeReason) | TailToken(text: string) | OtherReason(text: string)

  // The reasons field as found: absent or a false value of another type, a true value of
  // another type, a text, or a list.
  datatype Reasons = NoReasons | OtherValue | EmptyText | Text(raw: RawReason) | Items(items: seq<RawReason>)

  datatype ReasonToken = Safe(reason: SafeReason) | TailCandidates | UnsafeReason | MissingReason

  // safe_reason_token
  function SafeReasonToken(raw: RawReason): ReasonToken {
    match raw
    case SafeToken(reason) => Safe(reason)
    case TailToken(_) => TailCandidates
    case OtherReason(_) => UnsafeReason
    case BlankReason => UnsafeReason
  }

  function SafeParts(items: seq<RawReason>): seq<ReasonToken> {
    if items == [] then []
    else
      var parts, raw := SafeParts(items[..|items| - 1]), items[|items| - 1];
      if raw.BlankReason? || SafeReasonToken(raw) == UnsafeReason then parts else parts + [SafeReasonToken(raw)]
  }

  // reason_key, with the tokens of the key instead of their text joined by plus signs.
  function ReasonKey(reasons: Reasons): seq<ReasonToken> {
    match reasons
    case NoReasons => [MissingReason]
    case OtherValue => [MissingReason]
    case EmptyText => [UnsafeReason]
    case Text(raw) => [SafeReasonToken(raw)]
    case Items(items) =>
      if SafeParts(items) != [] then SafeParts(items)
      else if exists raw :: raw in items && raw.OtherReason? then [UnsafeReason]
      else [MissingReason]
  }

  predicate Falsy(reasons: Reasons) {
    reasons == NoReasons || reasons == EmptyText || reasons == Items([])
  }

  // Python's "a or b".
  function OrElse(a: Reasons, b: Reasons): Reasons {
    if Falsy(a) then b else a
  }

  lemma {:induction false} SafePartsAreSafe(items: seq<RawReason>)
    ensures forall t :: t in SafeParts(items) ==> t.Safe? || t.TailCandidates?
  {
    if items != [] {
      SafePartsAreSafe(items[..|items| - 1]);
    }
  }

  // A key is unsafe as a whole or not at all.
  lemma {:induction false} UnsafeIsNeverMixed(reasons: Reasons)
    ensures ReasonKey(reasons) != []
    ensures UnsafeReason in ReasonKey(reasons) ==> ReasonKey(reasons) == [UnsafeReason]
  {
    if reasons.Items? {
      SafePartsAreSafe(reasons.items);
    }
  }

  // ---- Cases ---------------------------------------------------------------------------------

  datatype Primary = Primary(rawLabel: RawLabel, confidence: Confidence, reasons: Reasons)

  datatype EvidenceGap =
    | PolicyNotSupported | RegistryNotAvailable | RegistryMissingLabels | MetadataNotCollected
    | MetricsNotAvailable | EventsNotAvailable | StorageUnknown | ResourceTraceAbsent

  // What an analysis file says: its own reasons, what the current classifier makes of it,
  // the wall clock time in milliseconds and the evidence it lacks.
  datatype Analysis = Analysis(
    reasons: Reasons, classified: Primary, wallClock: Option<real>, gaps: seq<EvidenceGap>)

  datatype AnalysisFile = NoFile | Unreadable | Readable(analysis: Analysis)

  datatype Case = Case(
    stored: Primary,
    clean: bool,
    duration: Option<real>,
    candidate: bool,
    quietRegression: bool,
    file: AnalysisFile)

  // dialectFirst is the order in which the two out-of-scope reasons are tried. Python
  // iterates over a set there, so the order is arbitrary but the same for all cases.
  datatype Config = Config(useClassifier: bool, dialectFirst: bool)

  datatype Source = CurrentClassifier | StoredSummary

  datatype Scope = CleanCase | DialectOutOfScope | VeryShortOutOfScope

  datatype ResolutionKey =
    | CleanCaseBoundary | CleanShortBoundary | DiagnosticEvidenceGap | MissingWallClockGap | ShortQueryOutOfScope

  datatype Gap = MissingAnalysis | UnknownPrimary | MissingLabel | Evidence(gap: EvidenceGap)

  // selected_primary
  function SelectedPrimary(cfg: Config, stored: Primary, file: AnalysisFile): (Primary, Source) {
    if cfg.useClassifier && file.Readable? then (file.analysis.classified, CurrentClassifier)
    else (stored, StoredSummary)
  }

  // The reasons that count for a case with a readable analysis.
  function ReasonValue(primary: Primary, source: Source, analysis: Analysis): Reasons {
    if source == CurrentClassifier then primary.reasons else OrElse(analysis.reasons, primary.reasons)
  }

  // primary_out_of_scope_reason
  function OutOfScopeReason(cfg: Config, c: Case, primary: Label, reasons: Reasons): Option<Scope> {
    var parts := ReasonKey(reasons);
    var dialect, short := Safe(ProfileDialect) in parts, Safe(VeryShortQuery) in parts;
    if c.clean then Some(CleanCase)
    else if primary != Unknown then None
    else if dialect && (cfg.dialectFirst || !short) then Some(DialectOutOfScope)
    else if short then Some(VeryShortOutOfScope)
    else None
  }

  // selected_query_duration_sec
  function QueryDuration(c: Case, analysis: Analysis): Option<real> {
    if c.duration.Some? then c.duration
    else if analysis.wallClock.Some? then Some(analysis.wallClock.value / 1000.0)
    else None
  }

  // clean_short_no_action_case
  predicate CleanShort(c: Case, analysis: Analysis) {
    var duration := QueryDuration(c, analysis);
    c.clean && duration.Some? && duration.value < 60.0 && !c.candidate && c.quietRegression
  }

  // unknown_primary_resolution_key
  function Resolve(c: Case, analysis: Analysis, scope: Option<Scope>, reasons: Reasons): ResolutionKey {
    if CleanShort(c, analysis) then CleanShortBoundary
    else if Safe(VeryShortQuery) in ReasonKey(reasons) then
      if QueryDuration(c, analysis).None? then MissingWallClockGap else ShortQueryOutOfScope
    else if scope == Some(CleanCase) then CleanCaseBoundary
    else DiagnosticEvidenceGap
  }

  // ---- The audit's reading of a case ---------------------------------------------------------

  predicate Analyzed(c: Case) {
    c.file.Readable?
  }

  function PrimaryOf(cfg: Config, c: Case): Primary {
    SelectedPrimary(cfg, c.stored, c.file).0
  }

  function SourceOf(cfg: Config, c: Case): Source {
    SelectedPrimary(cfg, c.stored, c.file).1
  }

  function LabelOf(cfg: Config, c: Case): Label {
    PrimaryLabelValue(PrimaryOf(cfg, c).rawLabel)
  }

  function ReasonsOf(cfg: Config, c: Case): Reasons
    requires Analyzed(c)
  {
    ReasonValue(PrimaryOf(cfg, c), SourceOf(cfg, c), c.file.analysis)
  }

  function ScopeOf(cfg: Config, c: Case): Option<Scope>
    requires Analyzed(c)
  {
    OutOfScopeReason(cfg, c, LabelOf(cfg, c), ReasonsOf(cfg, c))
  }

  // The cases strict coverage is measured on.
  predicate Strict(cfg: Config, c: Case) {
    Analyzed(c) && ScopeOf(cfg, c).None?
  }
}
