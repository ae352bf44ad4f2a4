// The two measures the north-star gate derives by looking into counter keys:
// medium-or-better primary labels, and the classes of unknown primary resolutions.
module NorthStarMeasures {
  import opened Counters
  import opened NorthStarTally

  // ---- Label and confidence --------------------------------------------------------

  // The position of the last underscore, or -1.
  function LastUnderscore(token: string): (i: int)
    ensures -1 <= i < |token|
  {
    if token == [] then -1
    else if token[|token| - 1] == '_' then |token| - 1
    else LastUnderscore(token[..|token| - 1])
  }

  // primary_confidence_parts: the token is split at its last underscore.
  function PrimaryConfidenceParts(token: string): (string, string) {
    var i := LastUnderscore(token);
    if i < 0 then (token, "") else (token[..i], token[i + 1..])
  }

  lemma {:induction false} LastUnderscoreIsLast(primary: string, confidence: string)
    requires '_' !in confidence
    ensures LastUnderscore(primary + "_" + confidence) == |primary|
  {
    var token := primary + "_" + confidence;
    if confidence != "" {
      var front := confidence[..|confidence| - 1];
      assert token[..|token| - 1] == primary + "_" + front;
      assert token[|token| - 1] in confidence;
      LastUnderscoreIsLast(primary, front);
    }
  }

  // Whatever the label contains, the parts of a composed key are what it was composed of.
  lemma {:induction false} PartsOfComposedKey(primary: string, confidence: string)
    requires '_' !in confidence
    ensures PrimaryConfidenceParts(primary + "_" + confidence) == (primary, confidence)
  {
    LastUnderscoreIsLast(primary, confidence);
    var token := primary + "_" + confidence;
    assert token[..|primary|] == primary && token[|primary| + 1..] == confidence;
  }

  predicate NoActionable(primary: string) {
    primary == "missing" || primary == "none" || primary == "unknown"
  }

  predicate MediumConfidence(confidence: string) {
    confidence == "high" || confidence == "medium"
  }

  predicate MediumKey(key: string) {
    var parts := PrimaryConfidenceParts(key);
    !NoActionable(parts.0) && MediumConfidence(parts.1)
  }

  lemma {:induction false} MediumKeyMeans(primary: string, confidence: string)
    requires '_' !in confidence
    ensures MediumKey(primary + "_" + confidence) <==> !NoActionable(primary) && MediumConfidence(confidence)
  {
    PartsOfComposedKey(primary, confidence);
  }

  // medium_or_better_primary_count
  method MediumOrBetterPrimaryCount(counter: Counter<string>) returns (total: nat)
    ensures total == Mass(counter, MediumKey)
  {
    total := 0;
    var todo := counter.Keys;
    while todo != {}
      invariant todo <= counter.Keys
      invariant total + MassOver(todo, counter, MediumKey) == Mass(counter, MediumKey)
      decreases todo
    {
      var key :| key in todo;
      MassTakeOut(todo, counter, MediumKey, key);
      if MediumKey(key) {
        total := total + counter[key];
      }
      todo := todo - {key};
    }
  }

  // ---- Classes of unknown primary resolutions -------------------------------------------

  datatype ResolutionClass =
    | NoActionBoundary | DeterministicEvidenceGap | CollectorWallClockGap | OutOfScopeBoundary
    | NotReported | Unmapped

  // unknown_resolution_class
  function ClassOf(r: Resolution): ResolutionClass {
    match r
    case CleanCase => NoActionBoundary
    case CleanShort => NoActionBoundary
    case EvidenceGap => DeterministicEvidenceGap
    case MissingWallClock => CollectorWallClockGap
    case ShortQuery => OutOfScopeBoundary
    case Blank => NotReported
    case OtherResolution(_) => Unmapped
  }

  ghost function InClass(class_: ResolutionClass): Resolution -> bool {
    r => ClassOf(r) == class_
  }

  function Max(a: nat, b: nat): nat {
    if a > b then a else b
  }

  // How many unknown cases no reported resolution accounts for.
  ghost function Unreported(resolutions: Counter<Resolution>, unknownCases: nat): nat {
    var reported := Total(resolutions);
    if unknownCases > reported then unknownCases - reported else 0
  }

  ghost function ClassCount(resolutions: Counter<Resolution>, unknownCases: nat, class_: ResolutionClass): nat {
    Mass(resolutions, InClass(class_)) + if class_ == NotReported then Unreported(resolutions, unknownCases) else 0
  }

  // The counts of all resolutions but those in todo have gone to their classes.
  ghost predicate Classified(todo: set<Resolution>, resolutions: Counter<Resolution>, classes: Counter<ResolutionClass>) {
    && (forall class_ ::
          Get(classes, class_) + MassOver(todo, resolutions, InClass(class_)) == Mass(resolutions, InClass(class_)))
    && Total(classes) + MassOver(todo, resolutions, Any) == Total(resolutions)
  }

  lemma {:induction false} ClassifyOne(todo: set<Resolution>, resolutions: Counter<Resolution>,
                                       classes: Counter<ResolutionClass>, r: Resolution)
    requires Classified(todo, resolutions, classes) && r in todo
    ensures Classified(todo - {r}, resolutions, Bump(classes, ClassOf(r), Get(resolutions, r)))
  {
    var classes' := Bump(classes, ClassOf(r), Get(resolutions, r));
    forall class_
      ensures Get(classes', class_) + MassOver(todo - {r}, resolutions, InClass(class_)) == Mass(resolutions, InClass(class_))
    {
      MassTakeOut(todo, resolutions, InClass(class_), r);
    }
    MassTakeOut(todo, resolutions, Any, r);
    MassBump(classes, ClassOf(r), Get(resolutions, r), Any);
  }

  // unknown_resolution_class_counts
  method UnknownResolutionClassCounts(resolutions: Counter<Resolution>, unknownCases: nat)
    returns (classes: Counter<ResolutionClass>)
    ensures forall class_ :: Get(classes, class_) == ClassCount(resolutions, unknownCases, class_)
  {
    classes := map[];
    var todo := resolutions.Keys;
    while todo != {}
      invariant todo <= resolutions.Keys
      invariant Classified(todo, resolutions, classes)
      decreases todo
    {
      var resolution :| resolution in todo;
      ClassifyOne(todo, resolutions, classes, resolution);
      classes := Bump(classes, ClassOf(resolution), resolutions[resolution]);
      todo := todo - {resolution};
    }
    var reported := SumValues(classes);
    var missing := if unknownCases > reported then unknownCases - reported else 0;
    if missing > 0 {
      classes := Bump(classes, NotReported, missing);
    }
  }

  lemma {:induction false} ClassesPartition(keys: set<Resolution>, c: Counter<Resolution>)
    ensures MassOver(keys, c, Any)
         == MassOver(keys, c, InClass(NoActionBoundary)) + MassOver(keys, c, InClass(DeterministicEvidenceGap))
          + MassOver(keys, c, InClass(CollectorWallClockGap)) + MassOver(keys, c, InClass(OutOfScopeBoundary))
          + MassOver(keys, c, InClass(NotReported)) + MassOver(keys, c, InClass(Unmapped))
  {
    if r :| r in keys {
      ClassesPartition(keys - {r}, c);
      MassTakeOut(keys, c, Any, r);
      MassTakeOut(keys, c, InClass(NoActionBoundary), r);
      MassTakeOut(keys, c, InClass(DeterministicEvidenceGap), r);
      MassTakeOut(keys, c, InClass(CollectorWallClockGap), r);
      MassTakeOut(keys, c, InClass(OutOfScopeBoundary), r);
      MassTakeOut(keys, c, InClass(NotReported), r);
      MassTakeOut(keys, c, InClass(Unmapped), r);
    }
  }

  // Nothing is lost: the six classes share out the reported resolutions, topped up to
  // the number of unknown cases.
  lemma {:induction false} ClassesConserve(resolutions: Counter<Resolution>, unknownCases: nat)
    ensures ClassCount(resolutions, unknownCases, NoActionBoundary)
          + ClassCount(resolutions, unknownCases, DeterministicEvidenceGap)
          + ClassCount(resolutions, unknownCases, CollectorWallClockGap)
          + ClassCount(resolutions, unknownCases, OutOfScopeBoundary)
          + ClassCount(resolutions, unknownCases, NotReported)
          + ClassCount(resolutions, unknownCases, Unmapped)
         == Max(Total(resolutions), unknownCases)
  {
    ClassesPartition(resolutions.Keys, resolutions);
  }
}
