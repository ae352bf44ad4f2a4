# A verified model of four audit and context scripts

This project models four scripts of the repository and proves what they promise:

- **The bounded source-context emitter and its ledger** (`scripts/agent_code_graph_core.py`). A run
  picks unseen lines of ranked files under a line budget, emits them as ranges and appends the ranges
  to a ledger; the next run reads the ledger and skips what it holds. Modules `ContextRanges`,
  `ContextLedger`, `ContextBundle`, `ContextChoice`, `ContextRun`, `ContextSafety`, `ContextCounts`,
  `ContextGreedy` and, for whole sessions, `ContextSession` and `ContextScope`. Beside it the two
  graph algorithms of the same script: `GraphComponents` (breadth-first components), `RelatedNodes`
  (ranked neighbours) and `RelatedScores` (what their scores are made of).
- **The north-star gate** (`scripts/audit_impala_north_star_gate.py`). Counters of retained summaries
  are added up, rates are rounded, and a three-part gate is decided twice, as booleans and as a list
  of issues. Modules `Counters`, `Rates`, `NorthStarTally`, `NorthStarMeasures`, `NorthStarGate` and
  `NorthStarReported`, which says all of it in terms of the summaries.
- **The coverage audit** (`scripts/audit_impala_coverage_gaps.py`). A result object is updated case by
  case; a strict decision is made on exact ratios, a reported gate on rounded ones. Modules
  `CoverageCases`, `CoverageTerms` (what is read in a case), `CoverageBooks`, `CoverageLaws`,
  `CoverageAudit`, `CoverageDecision`.
- **The distribution boundary** (`scripts/audit_public_distribution_boundary.py`). Private markers are
  found through hashes of sliding windows, in the files of the repository and in the commits of a
  range. Modules `Markers`, `BoundaryScan`.

`Sequences`, `Sorting`, `Wrappers` and `CodeGraph` are shared. `dafny verify dfyconfig.toml` checks
everything.

Code that works by loops and updates is modelled by methods with loops, and the object that the
coverage audit updates is a class with the fields of the source. Each such method is proved against a
specification function or predicate, and the lemmas are about those. Every lemma switches automatic
induction off.

## Main results

- *Sessions.* Starting from any ledger, whatever files, queries, detail modes and budgets change
  between the runs, no line is emitted twice while its file keeps its content, and the ledger hides
  exactly what was emitted. Full-detail runs over unchanged files emit the unseen lines of all
  candidates in order, each exactly once, `min(line_budget, lines left)` in each run; after
  `ceil(total / line_budget)` runs nothing is left. Repeating any other request, such as a preview
  of a symbol query, shows each unseen line in its scope exactly once, at least one in each run
  until none is left.
- *Bundles.* For every detail mode, query and ledger the emitted lines are in their files, unseen,
  distinct and within the budget, no file has more lines than its limit, and each count is the
  number of lines, files or candidates it stands for. Each shown line is the text of the file,
  clipped at 500 characters. Candidates and lines are taken in rank order, and a line in scope is
  left out only if the budget is spent or its file is at its limit.
- *Components.* The lists partition the nodes, two nodes share a list if and only if a path joins
  them, and the result is the only one that is sorted by decreasing size and then content.
- *Neighbours.* Before truncation every edge with one end among the candidates gives one reason in
  exactly one row; the returned rows are the first of the unique ranking. The score of a row follows
  from its reasons, its kind and whether it is a hub.
- *North star.* Batches that pass by themselves pass together (mediant inequality through
  rounding); the order of summaries is irrelevant; the issue list is empty if and only if the gate
  passes and enough outcome gates are evaluable; unknown cases are shared out without loss. The gate
  passes if and only if conditions on the summaries and on sums over their breakdowns hold.
- *Coverage.* Each counter of the audit is a number of cases with a stated property, and together
  they are conserved and partition the cases; the strict decision holds if and only if a condition
  on the cases does. The reported gate and the strict decision
  agree for all whole-percent thresholds up to 20000 strict cases. For any number they agree if and
  only if an inequality between counts and thresholds holds, and for 20001 cases it can fail. With
  no strict case at all the reported gate fails although the decision raises no rate issue.
- *Markers.* The hashed windows find exactly the substrings of the normal form; surrounding text
  and inserted separators hide nothing; more fingerprints lose no finding. The history scan finds
  nothing if and only if everything was listed, read, decoded and is clean, and the scan of the
  repository likewise.

## Model

| member | source | states |
|---|---|---|
| ContextRanges.UnseenLineNumbers | scripts/agent_code_graph_core.py:535-546 | the boolean-array loop returns the first `limit` numbers of the file that no seen range covers |
| ContextRanges.UnseenMembers | scripts/agent_code_graph_core.py:535-546 | those numbers are exactly the lines of the file outside the seen ranges |
| ContextRanges.ContiguousRanges | scripts/agent_code_graph_core.py:549-561 | the loop computes the specified grouping of any number list |
| ContextRanges.RangesExpandBack | scripts/agent_code_graph_core.py:549-561 | the ranges expand back to the input list, sorted or not, and none could be joined with the next |
| ContextRanges.MaximalRangesAreUnique | scripts/agent_code_graph_core.py:549-561 | there is only one such grouping |
| ContextRanges.ExpandCovers | scripts/agent_code_graph_core.py:653-660 | a number is emitted by the ranges if and only if the ledger will count it as covered |
| ContextLedger.ReadContextLedger | scripts/agent_code_graph_core.py:490-532 | the loops collect, for every path, the ranges of relevant records whose digest is current, in order |
| ContextLedger.AppendContextLedger | scripts/agent_code_graph_core.py:678-709 | the ledger grows by one record of the emitted ranges of readable files, or stays as it is |
| ContextLedger.AppendMarksExactlyTheEmitted | scripts/agent_code_graph_core.py:678-709 | reading after appending covers what was covered before and the emitted lines of files whose content is the same, nothing else |
| ContextLedger.AppendKeepsOtherRepositories | scripts/agent_code_graph_core.py:506-511 | records of one repository do not change what another one reads |
| ContextLedger.SeenRangesMean | scripts/agent_code_graph_core.py:490-532 | a line counts as seen if and only if a ledger record with the schema and the repository key lists it, well formed, with the digest its file has now |
| ContextBundle.ContextCandidateRows | scripts/agent_code_graph_core.py:457-476 | the loop returns the first eligible paths, at least one, at most `max_items` |
| ContextBundle.EligibleIsExact | scripts/agent_code_graph_core.py:465-475 | a path is listed once if it is ranked, file-like and a file of the repository, and never otherwise |
| ContextChoice.CandidatesMean | scripts/agent_code_graph_core.py:457-476 | the candidates are the first files of the ranking, the requested path before the matched and the related ones, each where it is first named, with its source and score |
| ContextBundle.ResultSymbolRows | scripts/agent_code_graph_core.py:666-675 | the positively scored symbols of the path, each as often as given, by falling score and then start, those with the same score and start in input order |
| ContextBundle.RankingIsSorted | scripts/agent_code_graph_core.py:666-675 | that ranking is sorted, a permutation, and stable, for any symbols |
| ContextBundle.MatchingSymbolsMean | scripts/agent_code_graph_core.py:666-675 | only symbols of the path with a positive score match, each as often as it is given |
| ContextBundle.ChooseNumbers | scripts/agent_code_graph_core.py:622-648 | the symbol windows, or else the unseen lines, up to the limit |
| ContextBundle.ChosenNumbersAreGood | scripts/agent_code_graph_core.py:622-648 | chosen numbers are distinct unseen lines of the file, no more than the limit |
| ContextChoice.ChosenNumbersAreFirst | scripts/agent_code_graph_core.py:622-648 | the chosen lines are ordered by the best symbol within two lines of them and then by number, or by number alone; whatever could be chosen and was not comes after all of them, and then the limit was reached |
| ContextRun.BuildContextBundle | scripts/agent_code_graph_core.py:570-663 | errors for a bad detail or budget; otherwise the walk over the candidates |
| ContextRun.WalkCandidates | scripts/agent_code_graph_core.py:612-661 | the candidate loop, with its early exit, is the fold of the step over all candidates |
| ContextRun.VisitCandidate | scripts/agent_code_graph_core.py:616-661 | one turn of the loop: unreadable, nothing chosen, or sections and counts added |
| ContextRun.ShowRange | scripts/agent_code_graph_core.py:654-660 | the inner loop shows every line of the range, clipped if too long, and counts the clipped ones |
| ContextSafety.BundlesAreSafe | scripts/agent_code_graph_core.py:570-663 | for every request and ledger: emitted lines lie in candidate files, are unseen and distinct and within the budget; the numbers of emitted lines, files and clipped lines are those of the sections, which show the text of the files |
| ContextSafety.ShownTextIsTheFiles | scripts/agent_code_graph_core.py:564-567 | every line of every section of a bundle is the numbered line of the file, whole up to 500 characters and else clipped to the first 500 |
| ContextSafety.StepIsSafe | scripts/agent_code_graph_core.py:612-661 | every turn of the loop keeps that |
| ContextCounts.BundlesAccountForCandidates | scripts/agent_code_graph_core.py:603-651 | no file has more lines than the limit per file; a candidate is left out only behind the place where the budget was spent; `unreadable_count` and `skipped_seen_count` count, among the others, those that cannot be read and those that were partly shown before and now show nothing |
| ContextCounts.PerFileLimitMeans | scripts/agent_code_graph_core.py:605-609 | so many lines of a file may be shown in a preview if it is one, or at most 40 and the candidates together would stay within the budget; otherwise the budget is the limit |
| ContextGreedy.BundlesAreGreedy | scripts/agent_code_graph_core.py:612-661 | an unseen line in scope of a candidate is left out only if the budget is spent or one more line of its file would be too many |
| ContextSession.RunOnce | scripts/agent_code_graph_core.py:490-709 | read, build, append is one step of a session |
| ContextSession.LedgerIsExact | scripts/agent_code_graph_core.py:490-709 | after any session the ledger hides what it hid at first and what was shown of files still the same |
| ContextSession.NothingIsShownTwice | scripts/agent_code_graph_core.py:490-709 | a line shown in an earlier run is shown again only if its file was edited; no run shows a line twice |
| ContextSession.TodoIsExact | scripts/agent_code_graph_core.py:535-546 | what is left to show are the lines of the candidates that the ledger does not hide, each once |
| ContextSession.FullRunsShowTheUnseenInOrder | scripts/agent_code_graph_core.py:612-661 | full runs show the unseen lines of the candidates in candidate order, up to the budgets spent |
| ContextSession.FullRunsAreExhaustive | scripts/agent_code_graph_core.py:570-663 | they show `min(budgets, unseen)` lines, none twice, and all of them once the budgets suffice |
| ContextSession.EachFullRunShowsWhatItCan | scripts/agent_code_graph_core.py:612-661 | each run shows `min(line_budget, lines left)` |
| ContextSession.CeilingManyRunsSuffice | scripts/agent_code_graph_core.py:570-709 | after `ceil(total / line_budget)` runs every line was shown exactly once and the next run shows nothing |
| ContextScope.ChosenNumbersAreInScope | scripts/agent_code_graph_core.py:622-648 | of a file only lines in scope are chosen, those of its symbol windows if it has symbols; none only if all of them were seen |
| ContextScope.EmptyRunsAreExact | scripts/agent_code_graph_core.py:612-661 | a preview or full run, with or without a symbol query, shows nothing if and only if every line in its scope was seen |
| ContextScope.RepeatedRunsFinish | scripts/agent_code_graph_core.py:490-709 | repeating such a request, with any budgets, shows exactly the unseen lines in its scope, each once, after at most as many runs as there are lines, and then nothing |
| GraphComponents.BuildNeighbours | scripts/agent_code_graph_core.py:108-113 | the adjacency map holds for every node exactly the nodes an edge joins it with |
| GraphComponents.Search | scripts/agent_code_graph_core.py:119-129 | the queue loop terminates and finds exactly the nodes connected to its root, each once |
| GraphComponents.ConnectedComponents | scripts/agent_code_graph_core.py:107-130 | the lists are the sorted connectedness classes reached from the nodes, largest first, then by content |
| GraphComponents.ComponentsPartition | scripts/agent_code_graph_core.py:107-130 | if edges stay among the nodes, the lists partition them, and sharing a list means being connected |
| GraphComponents.ComponentsAreUnique | scripts/agent_code_graph_core.py:107-130 | no other list of lists meets the specification |
| GraphComponents.LargestFirst | scripts/agent_code_graph_core.py:130 | of two lists the first one is larger, or as large and its first name is the smaller one |
| Sorting.StringLeMeans | scripts/agent_code_graph_core.py:119-130 | a string is at most another one if it is its beginning or smaller at the first difference |
| GraphComponents.DirectionDoesNotMatter | scripts/agent_code_graph_core.py:111-113 | order and direction of the edges do not change the result |
| RelatedNodes.DegreeCounts | scripts/agent_code_graph_core.py:226-231 | the counter gives every node the number of edge ends at it |
| RelatedNodes.CollectRows | scripts/agent_code_graph_core.py:299-339 | a row for every related node, with the sum of its edge scores and its reasons in edge order |
| RelatedScores.RowsMean | scripts/agent_code_graph_core.py:299-339 | the reasons of a row are the edges between the node and candidates, in order, with their direction; its score is 7, 5, 4, 3 or 1 for each reason by relation, and for each reason what the kind is worth less the charge for a hub |
| RelatedScores.HubsScoreLess | scripts/agent_code_graph_core.py:291-296 | an edge to a hub scores less than the same edge to another node of that kind, by 8 for documents, scripts and configuration and by 3 otherwise |
| RelatedScores.RecordIsFirst | scripts/agent_code_graph_core.py:251-255 | the record of a node is the first one with its id, or the inferred one |
| RelatedNodes.RelatedNodeRows | scripts/agent_code_graph_core.py:299-340 | the slice of a ranking of all rows by falling score and then node |
| RelatedScores.BestFirst | scripts/agent_code_graph_core.py:340 | in the ranking a row has a higher score than the next ones, or the same and a smaller name |
| RelatedScores.SliceMeans | scripts/agent_code_graph_core.py:340 | how many rows are kept, for negative limits too |
| RelatedNodes.RankingIsUnique | scripts/agent_code_graph_core.py:340 | there is only one such ranking |
| RelatedNodes.OmittedRowsAreNoBetter | scripts/agent_code_graph_core.py:340 | every row kept comes strictly before every row left out |
| RelatedNodes.EveryCrossingEdgeHasOneReason | scripts/agent_code_graph_core.py:302-339 | rows hold as many reasons as edges cross the candidates, never a row for a candidate, each reason via the node of its row |
| Rates.Round4Monotone | scripts/audit_impala_coverage_gaps.py:1888-1889 | rounding to four decimals is monotone |
| Rates.Round4IsNearest | scripts/audit_impala_coverage_gaps.py:1888-1889 | it moves a value by at most 0.00005 |
| Rates.RoundHalfEvenMeans | scripts/audit_impala_coverage_gaps.py:1888-1889 | rounding goes to the nearest integer and from a tie to the even one |
| Rates.RateMeans | scripts/audit_impala_coverage_gaps.py:1888-1889 | a rate is a multiple of 0.0001 at most 0.00005 off the percentage, and zero of nothing |
| Rates.RateMediant | scripts/audit_impala_coverage_gaps.py:1888-1889 | the rounded rate of two batches together lies between their rounded rates |
| Rates.RoundedCeiling | scripts/audit_impala_coverage_gaps.py:1859 | a rounded rate passes a whole-percent ceiling if and only if the exact rate does or misses it by a rounding |
| Rates.RoundedFloor | scripts/audit_impala_coverage_gaps.py:1860 | the same for a floor |
| Rates.RateCeilingInCounts | scripts/audit_impala_coverage_gaps.py:1859 | the rounded rate passes a whole-percent ceiling if and only if an inequality between the counts holds |
| Rates.RateFloorInCounts | scripts/audit_impala_coverage_gaps.py:1860 | the same for a floor |
| Rates.NoNearMiss | scripts/audit_impala_coverage_gaps.py:1856-1860 | up to 20000 cases no rate misses a whole percent by a rounding |
| NorthStarTally.ComponentsByName | scripts/audit_impala_north_star_gate.py:399-410 | each name leads to its first component, the empty name to none |
| NorthStarTally.AuditSummary | scripts/audit_impala_north_star_gate.py:177-252 | the two sets of accumulators agree: the suite grows by exactly what the summary alone counts |
| NorthStarTally.SumConcat | scripts/audit_impala_north_star_gate.py:177-252 | the counters of a suite are the sums of the counters of its parts |
| NorthStarTally.SumIgnoresOrder | scripts/audit_impala_north_star_gate.py:177-252 | they do not depend on the order of the summaries |
| NorthStarReported.CoverageAddsUp | scripts/audit_impala_north_star_gate.py:197-231 | every counter of the coverage components is the sum, over the summaries, of the positive counts of its own breakdown |
| NorthStarReported.WorkloadAddsUp | scripts/audit_impala_north_star_gate.py:233-252 | the same for the workload components |
| NorthStarReported.StatusesAreCounted | scripts/audit_impala_north_star_gate.py:195-241 | the status counters count the summaries and components with each status, and missing components as missing |
| NorthStarMeasures.PartsOfComposedKey | scripts/audit_impala_north_star_gate.py:718-723 | splitting a composed key gives back label and confidence, whatever the label contains |
| NorthStarMeasures.MediumOrBetterPrimaryCount | scripts/audit_impala_north_star_gate.py:657-666 | the loop sums the counts whose key has an actionable label and high or medium confidence |
| NorthStarReported.MediumKeysAre | scripts/audit_impala_north_star_gate.py:657-666 | the keys it counts are a label other than missing, none and unknown, an underscore and high or medium |
| NorthStarMeasures.UnknownResolutionClassCounts | scripts/audit_impala_north_star_gate.py:669-689 | each class gets the resolutions mapped to it, and the unreported class what is missing |
| NorthStarMeasures.ClassesConserve | scripts/audit_impala_north_star_gate.py:669-689 | the six classes add up to the larger of the reported resolutions and the unknown cases |
| NorthStarReported.UnknownFiguresMean | scripts/audit_impala_north_star_gate.py:506-520 | which resolutions make up the four kinds of unknown cases, and that the unclassified ones take what is left |
| NorthStarGate.BuildGateAggregate | scripts/audit_impala_north_star_gate.py:413-583 | the current block, its figures and its gates, is the specified function of counters and thresholds |
| NorthStarGate.InputGateMeans | scripts/audit_impala_north_star_gate.py:485-490 | the input gate, but for the number of summaries, holds if and only if every summary, and both components of every summary, have status ok |
| NorthStarGate.GatePassedMeans | scripts/audit_impala_north_star_gate.py:465-524 | `gate_passed` of a suite holds if and only if it has enough summaries, all of them and their components are ok, and the counters themselves meet the coverage thresholds and the outcome conditions |
| NorthStarReported.GatePassedFromSummaries | scripts/audit_impala_north_star_gate.py:465-524 | the same with sums over the summaries in place of counters, and thresholds below one counting as one |
| NorthStarReported.FiguresMean | scripts/audit_impala_north_star_gate.py:492-520 | each figure of the current block, as a count or rate of the counters |
| NorthStarReported.PointMeans | scripts/audit_impala_north_star_gate.py:254-293 | each figure of a trend point, and that it passes if its summary meets the conditions by itself |
| NorthStarReported.EffectiveMeans | scripts/audit_impala_north_star_gate.py:162-163 | thresholds below one count as one |
| NorthStarGate.UnknownCasesAreConserved | scripts/audit_impala_north_star_gate.py:506-520 | evidence-gap, boundary, collector-gap and unclassified cases cover the six classes without loss |
| NorthStarGate.GateIssues | scripts/audit_impala_north_star_gate.py:586-654 | the issues are the raised ones of the 23, in order |
| NorthStarGate.IssuesAreExact | scripts/audit_impala_north_star_gate.py:586-654 | an issue is listed if and only if its condition holds |
| NorthStarGate.NoIssuesMeansPassed | scripts/audit_impala_north_star_gate.py:586-654 | the list is empty if and only if the gate passed and the evaluable outcome gates are as many as the summaries |
| NorthStarGate.GateMayPassWithIssues | scripts/audit_impala_north_star_gate.py:630-631 | the audit of one summary with two components passes the gate and still raises an issue, so the second condition is needed |
| NorthStarGate.CoverageFinePools | scripts/audit_impala_north_star_gate.py:465-473 | two batches within the coverage thresholds are within them together |
| NorthStarGate.FineAdds | scripts/audit_impala_north_star_gate.py:465-490 | the three gates, but for the sample size, are closed under pooling |
| NorthStarGate.SuiteComposition | scripts/audit_impala_north_star_gate.py:436-525 | if every summary passes alone, the suite passes if and only if it is large enough |
| NorthStarGate.PassingSuitesPool | scripts/audit_impala_north_star_gate.py:436-525 | the union of two passing suites passes |
| NorthStarGate.OrderIsIrrelevant | scripts/audit_impala_north_star_gate.py:177-321 | the order of the inputs changes neither the current block nor the issues |
| NorthStarGate.AuditRetainedSummaries | scripts/audit_impala_north_star_gate.py:134-321 | errors for no input, bad thresholds and unloadable summaries; otherwise aggregate, trend and issues of the summed suite |
| NorthStarGate.TrendDecidesSuite | scripts/audit_impala_north_star_gate.py:254-293 | if every point of the trend passes, so does a large enough suite |
| CoverageCases.UnsafeIsNeverMixed | scripts/audit_impala_coverage_gaps.py:371-391 | a reason key is never empty, and unsafe as a whole or not at all |
| CoverageTerms.ReasonKeyMeans | scripts/audit_impala_coverage_gaps.py:371-391 | which tokens are in a reason key, and when it is unsafe or missing |
| CoverageTerms.AnswersMean | scripts/audit_impala_coverage_gaps.py:575-584 | primary, source, label and reasons that count for a case, with and without the classifier |
| CoverageTerms.StrictMeans | scripts/audit_impala_coverage_gaps.py:345-368 | a case is in strict scope if and only if it is analyzed and not clean, and labelled or without a dialect or very-short reason |
| CoverageTerms.ScopesMean | scripts/audit_impala_coverage_gaps.py:345-368 | when a case is out of scope for each of the three reasons |
| CoverageTerms.ResolutionsMean | scripts/audit_impala_coverage_gaps.py:394-412 | when an unknown case is resolved in each of the five ways |
| CoverageAudit.CoverageAuditResult.AuditPrimarySummary | scripts/audit_impala_coverage_gaps.py:614-663 | which counters of the result a primary goes into, with and without a readable analysis |
| CoverageAudit.CoverageAuditResult.AuditStrictPrimaryCoverage | scripts/audit_impala_coverage_gaps.py:666-686 | out of scope, or counted in the strict counters |
| CoverageLaws.DriftsAreCounted | scripts/audit_impala_coverage_gaps.py:595-611 | the drift counter adds up to the number of analyzed cases on which the current classifier and the stored primary differ in label or confidence, and each key counts the cases with those two ratings |
| CoverageAudit.CoverageAuditResult.AuditSummaryInto | scripts/audit_impala_coverage_gaps.py:491-572 | after any batch every counter is the specified function of all cases audited so far |
| CoverageAudit.CoverageAuditResult.AddDiagnosticCoverageIssues | scripts/audit_impala_coverage_gaps.py:689-760 | through both early exits, the issues become what the checks add to them |
| CoverageAudit.AddedIssuesAreExact | scripts/audit_impala_coverage_gaps.py:689-760 | starting from none: exactly the raised issues, each once, in the order of the checks |
| CoverageAudit.IssuesAreAppended | scripts/audit_impala_coverage_gaps.py:689-760 | issues that were there stay in front of them |
| CoverageAudit.CoverageAuditResult.PrimaryGatePayload | scripts/audit_impala_coverage_gaps.py:1846-1885 | of a result after any cases: the gate and its two flags are the rounded gate over the numbers of strict, strict unknown and strict medium cases; out-of-scope cases are the analyzed ones that are not strict; it is evaluable if and only if some case is strict |
| CoverageAudit.AuditSummaries | scripts/audit_impala_coverage_gaps.py:463-488 | the result of a run over any list of summaries, with exactly the raised issues in order, or none when gaps do not fail |
| CoverageBooks.CounterAgrees | scripts/audit_impala_coverage_gaps.py:491-686 | a log of increments and the counter it stands for have the same count for every key and the same sum over all keys |
| CoverageLaws.CasesAreConserved | scripts/audit_impala_coverage_gaps.py:491-572 | total = analyzed + missing + unreadable = the sum over all keys of each primary counter, and missing analyses are gaps |
| CoverageLaws.LabelsAreCounted | scripts/audit_impala_coverage_gaps.py:624-626 | a label is counted as often as cases have it |
| CoverageLaws.RatingsAreCounted | scripts/audit_impala_coverage_gaps.py:614-630 | each label with its confidence is counted as often as cases have both |
| CoverageLaws.SourcesAreCounted | scripts/audit_impala_coverage_gaps.py:614-630 | and each source of the primary |
| CoverageLaws.StrictCountersPartition | scripts/audit_impala_coverage_gaps.py:614-686 | strict cases and the sum of the out-of-scope counter make the analyzed ones; strict unknowns equal the sum of their reasons and their gap; unknown and medium strict cases are disjoint; reasons and resolutions add up alike |
| CoverageLaws.StrictCasesAreCounted | scripts/audit_impala_coverage_gaps.py:666-686 | the strict counters are numbers of cases with stated properties |
| CoverageLaws.FilesAndScopesAreCounted | scripts/audit_impala_coverage_gaps.py:491-572 | cases without analysis, with an unreadable one and out of scope for each reason are counted |
| CoverageLaws.ResolutionsAreCounted | scripts/audit_impala_coverage_gaps.py:614-663 | each resolution and each reason key counts the analyzed unknown cases that have it |
| CoverageLaws.GapsAreCounted | scripts/audit_impala_coverage_gaps.py:614-663 | each gap counts the cases it is about, and each evidence gap how often the analyses list it |
| CoverageLaws.EvidenceGapsAreStrictUnknowns | scripts/audit_impala_coverage_gaps.py:345-412 | evidence-gap resolutions are the strict unknowns and at most the dialect-excluded cases besides |
| CoverageLaws.ScopeOrderIsIrrelevant | scripts/audit_impala_coverage_gaps.py:364-368 | the arbitrary order of the reason set changes only the key of cases that have both reasons |
| CoverageDecision.StrictDecisionIsExact | scripts/audit_impala_coverage_gaps.py:689-760 | the result is ok if and only if there are cases, all analyzed, labelled and with safe reasons, and the exact strict rates meet the thresholds; then analyzed equals total |
| CoverageDecision.GatesAgreeExactly | scripts/audit_impala_coverage_gaps.py:1846-1885 | for all counts and whole-percent thresholds, the rounded gate and the exact rates agree if and only if there is a strict case and the counts are no hidden miss, an inequality between counts and thresholds |
| CoverageDecision.GatesAgree | scripts/audit_impala_coverage_gaps.py:1856-1860 | up to 20000 strict cases they always do |
| CoverageDecision.PayloadAgreesWithIssues | scripts/audit_impala_coverage_gaps.py:738-760 | the rounded gate over the cases of a result says whether its rate issues are absent if and only if its counts are no hidden miss |
| CoverageDecision.AuditAndReport | scripts/audit_impala_coverage_gaps.py:463-488 | an audit and then its payload, over any summaries: ok if and only if the cases meet strict coverage; the reported gate agrees with the rate issues if and only if the counts are no hidden miss, which up to 20000 strict cases they never are |
| CoverageDecision.GatesMayDisagree | scripts/audit_impala_coverage_gaps.py:1856-1860 | a list of 20001 cases for which the reported gate passes and the decision fails |
| Markers.NormalizeConcat | scripts/audit_public_distribution_boundary.py:98-101 | normalization is a homomorphism on concatenation in both case modes |
| Markers.OneCharacter | scripts/audit_public_distribution_boundary.py:165-166 | a character is folded by itself, and kept if it is an ASCII letter or digit |
| Markers.ContainsMeans | scripts/audit_public_distribution_boundary.py:168 | a text contains what it has in one piece |
| Markers.WindowDigests | scripts/audit_public_distribution_boundary.py:170-175 | the inner loop finds the configured digests of all windows of a length |
| Markers.MatchingMarkerIdsIn | scripts/audit_public_distribution_boundary.py:159-176 | the nested loops return the ids of all fingerprints that match |
| Markers.MatchingMarkerIds | scripts/audit_public_distribution_boundary.py:179-197 | the ids of both kinds, strictly ascending |
| Markers.MatchingIsSubstringSearch | scripts/audit_public_distribution_boundary.py:159-176 | the ids are those of the markers whose normal form is part of that of the text, or whose digest the text spells out |
| Markers.MarkersAreFound | scripts/audit_public_distribution_boundary.py:179-197 | with both kinds of markers: an id is found if and only if it is that of a folded marker contained in the folded normal form, or of an exact marker contained in the unfolded one, or is spelled out |
| Markers.CaseIsFolded | scripts/audit_public_distribution_boundary.py:165 | texts that differ in case have the same ids of folded markers |
| Markers.MatchingDistributes | scripts/audit_public_distribution_boundary.py:168-176 | the ids of a union of fingerprints are the union of the ids |
| Markers.MarkerIdsOfUnion | scripts/audit_public_distribution_boundary.py:179-197 | the same for both kinds of fingerprints together |
| Markers.SurroundingsHideNothing | scripts/audit_public_distribution_boundary.py:159-176 | text before and after loses no id |
| Markers.SeparatorsHideNothing | scripts/audit_public_distribution_boundary.py:165-166 | inserting text without letters and digits changes no window match |
| BoundaryScan.ScanPath | scripts/audit_public_distribution_boundary.py:200-215 | the forbidden path, or else a marker in the path |
| BoundaryScan.ScanText | scripts/audit_public_distribution_boundary.py:218-234 | a marker in distribution text |
| BoundaryScan.ScanRepository | scripts/audit_public_distribution_boundary.py:237-272 | exactly the findings that concern some listed path, in the order of the paths, that of the path before that of the text |
| BoundaryScan.ScanRevision | scripts/audit_public_distribution_boundary.py:296-391 | exactly what there is to find about a revision, through all early exits, by ascending path and the marker once and last |
| BoundaryScan.ScanHistoryRange | scripts/audit_public_distribution_boundary.py:275-392 | exactly the findings about the listed revisions, in their order, or that they could not be listed |
| BoundaryScan.NoFindingsMeansClean | scripts/audit_public_distribution_boundary.py:275-392 | no finding if and only if all was listed, read and decoded, and no path or text is forbidden or marked |
| BoundaryScan.NoFindingsMeansCleanFiles | scripts/audit_public_distribution_boundary.py:237-272 | no finding about the repository if and only if no listed path is forbidden or marked and every distribution text that is there was read, decoded and is not marked |
| BoundaryScan.ForwardSlashesMeans | scripts/audit_public_distribution_boundary.py:206 | backslashes become slashes, and nothing else changes |
| BoundaryScan.RevisionsAreNamed | scripts/audit_public_distribution_boundary.py:300 | a history finding is about a listed revision and names its first twelve characters |
| BoundaryScan.RepositoryFindingsStay | scripts/audit_public_distribution_boundary.py:237-272 | more fingerprints lose no repository finding |
| BoundaryScan.HistoryFindingsStay | scripts/audit_public_distribution_boundary.py:275-392 | nor a history finding |

## Left out

- Files, git, JSON and subprocesses are inputs: file contents, ledger records, decoded summaries and
  git answers, with a value for what cannot be read. Failures to write the ledger are not modelled.
- A file has one content and one digest during a run, and equal digests mean equal content; a file
  that changes between reading and appending is not modelled.
- Path normalization, links and paths that leave the repository: a path is a key of the repository
  or it is not a file.
- Symbol queries: symbol scores, graph matches and relations to the target are inputs, and so are
  `node_kind`, `area_for` and the list of hub file names.
- Python floats are exact rationals; `round` is half-to-even on them. `int_value` is the identity on
  non-negative integers and zero below, so integers above 2^53 are not rounded.
- Token clean-up (`normalized_token`, `safe_token`, `safe_summary_key`): keys and labels are tokens
  that went through it, and keys that only the code itself compares are enumerations. The reason key
  is the list of its tokens, not the text joined by plus signs.
- The wording of issues and findings, rendered output, timestamps, usage telemetry, command lines.
- The rows of top categories and top resolution classes, and the unknown-reason taxonomy
  (`unknown_category_counts`): presentation of counters that are modelled.
- The suite manifest loader: its paths and labels are the inputs of the audit.
- The rest of `audit_analysis` and the direct-source readiness checks: of an analysis only its
  reasons, its classification, its wall clock time and the evidence gaps it adds are inputs.
- Loading of fingerprint files, and `is_distribution_text`, which is a parameter of the scans.
- CoverageDecision.GatesAgree: holds over the rationals. On double-precision floats the two gates can
  also differ where a rate equals its threshold: `7 / 100 * 100` is 7.000000000000001, so that 7
  unknown of 100 strict cases with a ceiling of 7.0 raise the issue, and the reported 7.0 passes.
- CoverageDecision.GatesAgreeExactly: holds over the rationals, with the same exception.
- CoverageDecision.AuditAndReport: holds over the rationals, with the same exception.
- RelatedNodes.RelatedNodeRows: takes `kind` and `area` of unlisted nodes from a parameter.
- The owner D3 gate chain, the Kubernetes manifest checks, the documentation audits and the link
  extractors are other scripts: fixed tables of constants, or parsing.
