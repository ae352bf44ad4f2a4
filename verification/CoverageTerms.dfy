// What the audit reads in a case, in terms of what was found of it.
module CoverageTerms {
  import opened Wrappers
  import opened CoverageCases

  // ---- Reasons ---------------------------------------------------------------------------

  // The reasons are, or list, that token.
  ghost predicate Mentions(reasons: Reasons, r: SafeReason) {
    reasons == Text(SafeToken(r)) || (reasons.Items? && SafeToken(r) in reasons.items)
  }

  // A text that is no safe reason, or a list without any safe reason that is not all blank.
  ghost predicate Unsafe(reasons: Reasons) {
    || reasons.EmptyText?
    || (reasons.Text? && (reasons.raw.BlankReason? || reasons.raw.OtherReason?))
    || (reasons.Items?
        && (exists raw :: raw in reasons.items && raw.OtherReason?)
        && (forall raw :: raw in reasons.items ==> raw.OtherReason? || raw.BlankReason?))
  }

  // No text and no list, or a list of blanks.
  ghost predicate Absent(reasons: Reasons) {
    reasons.NoReasons? || reasons.OtherValue? || (reasons.Items? && forall raw :: raw in reasons.items ==> raw.BlankReason?)
  }

  ghost predicate MentionsTail(reasons: Reasons) {
    || (reasons.Text? && reasons.raw.TailToken?)
    || (reasons.Items? && exists raw :: raw in reasons.items && raw.TailToken?)
  }

  lemma {:induction false} SafePartsMean(items: seq<RawReason>)
    ensures forall r :: Safe(r) in SafeParts(items) <==> SafeToken(r) in items
    ensures TailCandidates in SafeParts(items) <==> exists raw :: raw in items && raw.TailToken?
    ensures UnsafeReason !in SafeParts(items) && MissingReason !in SafeParts(items)
  {
    if items != [] {
      var front, last := items[..|items| - 1], items[|items| - 1];
      SafePartsMean(front);
      assert items == front + [last];
    }
  }

  // What is in a reason key.
  lemma {:induction false} ReasonKeyMeans(reasons: Reasons)
    ensures forall r :: Safe(r) in ReasonKey(reasons) <==> Mentions(reasons, r)
    ensures TailCandidates in ReasonKey(reasons) <==> MentionsTail(reasons)
    ensures ReasonKey(reasons) == [UnsafeReason] <==> Unsafe(reasons)
    ensures ReasonKey(reasons) == [MissingReason] <==> Absent(reasons)
  {
    if reasons.Items? {
      SafePartsMean(reasons.items);
      ListKeyMeans(reasons.items);
    }
  }

  lemma {:induction false} ListKeyMeans(items: seq<RawReason>)
    ensures SafeParts(items) == [] <==> forall raw :: raw in items ==> raw.OtherReason? || raw.BlankReason?
  {
    if items != [] {
      var front, last := items[..|items| - 1], items[|items| - 1];
      ListKeyMeans(front);
      assert items == front + [last];
    }
  }

  // The key of a list names its safe reasons one after the other.
  lemma {:induction false} SafePartsConcat(a: seq<RawReason>, b: seq<RawReason>)
    ensures SafeParts(a + b) == SafeParts(a) + SafeParts(b)
  {
    if b == [] {
      assert a + b == a;
    } else {
      assert (a + b)[..|a + b| - 1] == a + b[..|b| - 1];
      SafePartsConcat(a, b[..|b| - 1]);
    }
  }

  // ---- The reading of a case ---------------------------------------------------------------

  // The primary that counts.
  ghost function Answer(cfg: Config, c: Case): Primary {
    if cfg.useClassifier && c.file.Readable? then c.file.analysis.classified else c.stored
  }

  // The reasons that count: those of the classifier, or else those of the analysis if it gives
  // any, or else the stored ones.
  ghost function AnswerReasons(cfg: Config, c: Case): Reasons
    requires c.file.Readable?
  {
    var found := c.file.analysis.reasons;
    if cfg.useClassifier then c.file.analysis.classified.reasons
    else if found.OtherValue? || found.Text? || (found.Items? && |found.items| > 0) then found
    else c.stored.reasons
  }

  ghost predicate IsLabel(raw: RawLabel, name: Label) {
    match name
    case Missing => raw.NoLabel?
    case Known(known) => raw == KnownToken(known)
    case Unknown => raw.UnknownToken? || raw.OtherToken?
  }

  // A known label of high or medium confidence.
  ghost predicate Confident(primary: Primary) {
    primary.rawLabel.KnownToken? && (primary.confidence.High? || primary.confidence.Medium?)
  }

  ghost predicate AnswersUnknown(cfg: Config, c: Case) {
    IsLabel(Answer(cfg, c).rawLabel, Unknown)
  }

  // Strict coverage is measured on the analyzed cases that are not clean, but for unknown ones
  // whose reasons name the dialect or a very short query.
  ghost predicate InStrictScope(cfg: Config, c: Case) {
    && c.file.Readable? && !c.clean
    && (AnswersUnknown(cfg, c) ==>
          && !Mentions(AnswerReasons(cfg, c), ProfileDialect)
          && !Mentions(AnswerReasons(cfg, c), VeryShortQuery))
  }

  lemma {:induction false} AnswersMean(cfg: Config, c: Case)
    ensures PrimaryOf(cfg, c) == Answer(cfg, c)
    ensures SourceOf(cfg, c) == if cfg.useClassifier && c.file.Readable? then CurrentClassifier else StoredSummary
    ensures forall name :: LabelOf(cfg, c) == name <==> IsLabel(Answer(cfg, c).rawLabel, name)
    ensures IsMediumOrBetter(LabelOf(cfg, c), PrimaryOf(cfg, c).confidence) <==> Confident(Answer(cfg, c))
    ensures c.file.Readable? ==> ReasonsOf(cfg, c) == AnswerReasons(cfg, c)
  {
  }

  lemma {:induction false} StrictMeans(cfg: Config, c: Case)
    ensures Strict(cfg, c) <==> InStrictScope(cfg, c)
  {
    AnswersMean(cfg, c);
    if c.file.Readable? {
      ReasonKeyMeans(AnswerReasons(cfg, c));
    }
  }

  // Why an analyzed case is out of scope.
  ghost predicate IsOutOfScope(cfg: Config, c: Case, scope: Scope)
    requires c.file.Readable?
  {
    var dialect, short := Mentions(AnswerReasons(cfg, c), ProfileDialect), Mentions(AnswerReasons(cfg, c), VeryShortQuery);
    match scope
    case CleanCase => c.clean
    case DialectOutOfScope => !c.clean && AnswersUnknown(cfg, c) && dialect && (short ==> cfg.dialectFirst)
    case VeryShortOutOfScope => !c.clean && AnswersUnknown(cfg, c) && short && (dialect ==> !cfg.dialectFirst)
  }

  lemma {:induction false} ScopesMean(cfg: Config, c: Case, scope: Scope)
    requires c.file.Readable?
    ensures ScopeOf(cfg, c) == Some(scope) <==> IsOutOfScope(cfg, c, scope)
  {
    AnswersMean(cfg, c);
    ReasonKeyMeans(AnswerReasons(cfg, c));
  }

  // ---- Resolutions -------------------------------------------------------------------------

  ghost predicate KnowsDuration(c: Case)
    requires c.file.Readable?
  {
    c.duration.Some? || c.file.analysis.wallClock.Some?
  }

  // A clean case of less than a minute that is no candidate and a quiet regression.
  ghost predicate IsQuiet(c: Case)
    requires c.file.Readable?
  {
    && c.clean && !c.candidate && c.quietRegression && KnowsDuration(c)
    && if c.duration.Some? then c.duration.value < 60.0 else c.file.analysis.wallClock.value < 60000.0
  }

  // How an unknown case is resolved.
  ghost predicate IsResolved(cfg: Config, c: Case, key: ResolutionKey)
    requires c.file.Readable?
  {
    var short := Mentions(AnswerReasons(cfg, c), VeryShortQuery);
    match key
    case CleanShortBoundary => IsQuiet(c)
    case MissingWallClockGap => !IsQuiet(c) && short && !KnowsDuration(c)
    case ShortQueryOutOfScope => !IsQuiet(c) && short && KnowsDuration(c)
    case CleanCaseBoundary => !IsQuiet(c) && !short && c.clean
    case DiagnosticEvidenceGap => !IsQuiet(c) && !short && !c.clean
  }

  lemma {:induction false} ResolutionsMean(cfg: Config, c: Case, key: ResolutionKey)
    requires c.file.Readable?
    ensures Resolve(c, c.file.analysis, ScopeOf(cfg, c), ReasonsOf(cfg, c)) == key <==> IsResolved(cfg, c, key)
  {
    AnswersMean(cfg, c);
    ReasonKeyMeans(AnswerReasons(cfg, c));
    ScopesMean(cfg, c, CleanCase);
  }
}
