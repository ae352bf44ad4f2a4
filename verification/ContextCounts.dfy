// What the counters of a bundle say of the candidates, and the cap on the lines of one file.
module ContextCounts {
  import opened ContextRanges
  import opened ContextLedger
  import opened ContextBundle
  import opened ContextRun
  import opened ContextSafety

  function One(b: bool): nat {
    if b then 1 else 0
  }

  // How many of the candidates have such a path.
  ghost function CountRows(rows: seq<Candidate>, p: string -> bool): nat {
    if |rows| == 0 then 0 else CountRows(rows[..|rows| - 1], p) + One(p(rows[|rows| - 1].path))
  }

  function Unreadable(repo: Repo): string -> bool {
    path => !(path in repo && repo[path].Text?)
  }

  // A file with lines, some of them emitted before, of which the bundle shows none.
  function Skipped(repo: Repo, seen: map<string, seq<Range>>, shown: set<string>): string -> bool {
    path => path in repo && repo[path].Text? && repo[path].lines != [] && path in seen && seen[path] != [] && path !in shown
  }

  // The candidates up to visited were looked at, and the others only left out because the
  // budget was spent. The counters count the unreadable and the skipped ones among them.
  ghost predicate Accounted(repo: Repo, request: Request, seen: map<string, seq<Range>>, rows: seq<Candidate>,
                            visited: nat, b: Bundle) {
    && visited <= |rows|
    && (visited < |rows| ==> b.emittedLineCount >= request.lineBudget)
    && b.unreadableCount == CountRows(rows[..visited], Unreadable(repo))
    && b.skippedSeenCount == CountRows(rows[..visited], Skipped(repo, seen, ShownPaths(b)))
  }

  lemma {:induction false} CountOneMore(rows: seq<Candidate>, c: Candidate, p: string -> bool)
    ensures CountRows(rows + [c], p) == CountRows(rows, p) + One(p(c.path))
  {
    assert (rows + [c])[..|rows|] == rows;
  }

  lemma {:induction false} CountAgrees(rows: seq<Candidate>, p: string -> bool, q: string -> bool)
    requires forall path :: path in Paths(rows) ==> p(path) == q(path)
    ensures CountRows(rows, p) == CountRows(rows, q)
  {
    if |rows| > 0 {
      var front, last := rows[..|rows| - 1], rows[|rows| - 1];
      assert rows == front + [last];
      PathsOneMore(front, last);
      CountAgrees(front, p, q);
    }
  }

  lemma {:induction false} PathsOfMore(lines: seq<SourceLine>, path: string, numbers: seq<int>)
    requires numbers != []
    ensures PathsOf(lines + Located(path, numbers)) == PathsOf(lines) + {path}
  {
    var all := lines + Located(path, numbers);
    LocatedAre(path, numbers);
    assert SourceLine(path, numbers[0]) in Located(path, numbers);
    assert forall l :: l in all <==> l in lines || l in Located(path, numbers);
  }

  ghost function ShownPaths(b: Bundle): set<string> {
    PathsOf(Emitted(b.sections))
  }

  lemma {:induction false} WithFileShowsPath(b: Bundle, path: string, source: seq<string>, numbers: seq<int>)
    requires numbers != []
    ensures ShownPaths(WithFile(b, path, source, numbers)) == ShownPaths(b) + {path}
  {
    WithFileEmits(b, path, source, numbers);
    PathsOfMore(Emitted(b.sections), path, numbers);
  }

  // What one more candidate adds to the counters.
  ghost predicate CountsOneMore(repo: Repo, seen: map<string, seq<Range>>, path: string, b: Bundle, b': Bundle) {
    && ShownPaths(b) <= ShownPaths(b') <= ShownPaths(b) + {path}
    && b'.unreadableCount == b.unreadableCount + One(Unreadable(repo)(path))
    && b'.skippedSeenCount == b.skippedSeenCount + One(Skipped(repo, seen, ShownPaths(b'))(path))
  }

  // b' is b after a candidate of which these numbers were chosen.
  ghost predicate Visited(repo: Repo, seen: map<string, seq<Range>>, path: string, numbers: seq<int>,
                          b: Bundle, b': Bundle) {
    if numbers != [] then Readable(repo, path) && b' == WithFile(b, path, repo[path].lines, numbers)
    else
      && b'.sections == b.sections && b'.emittedLineCount == b.emittedLineCount
      && b'.unreadableCount == b.unreadableCount + One(!Readable(repo, path))
      && b'.skippedSeenCount ==
         b.skippedSeenCount + One(Readable(repo, path) && repo[path].lines != [] && RangesFor(seen, path) != [])
  }

  lemma {:induction false} LimitIsPositive(detail: Detail, lineBudget: int, count: int)
    requires lineBudget > 0
    ensures PerFileLimit(detail, lineBudget, count) > 0
  {
  }

  lemma {:induction false} FileNumbersFit(repo: Repo, request: Request, seen: map<string, seq<Range>>, count: int,
                                          path: string, remaining: int)
    requires request.lineBudget > 0 && remaining > 0 && Readable(repo, path)
    ensures |FileNumbers(repo, request, seen, count, path, remaining)|
         <= PerFileLimit(request.detail, request.lineBudget, count)
  {
    LimitIsPositive(request.detail, request.lineBudget, count);
    var limit := Min(remaining, PerFileLimit(request.detail, request.lineBudget, count));
    ChosenNumbersAreGood(FileSymbols(request, path), |repo[path].lines|, RangesFor(seen, path), limit);
  }

  lemma {:induction false} StepVisits(repo: Repo, request: Request, seen: map<string, seq<Range>>,
                                      path: string, b: Bundle) returns (numbers: seq<int>)
    requires request.lineBudget > 0 && request.lineBudget > b.emittedLineCount
    ensures |numbers| <= PerFileLimit(request.detail, request.lineBudget, |b.candidates|)
    ensures Visited(repo, seen, path, numbers, b, Step(repo, request, seen, path, b))
    ensures Readable(repo, path) ==>
              numbers == FileNumbers(repo, request, seen, |b.candidates|, path, request.lineBudget - b.emittedLineCount)
  {
    numbers := [];
    LimitIsPositive(request.detail, request.lineBudget, |b.candidates|);
    var remaining := request.lineBudget - b.emittedLineCount;
    if Readable(repo, path) {
      numbers := FileNumbers(repo, request, seen, |b.candidates|, path, remaining);
      FileNumbersFit(repo, request, seen, |b.candidates|, path, remaining);
    }
  }

  lemma {:induction false} VisitedCounts(repo: Repo, seen: map<string, seq<Range>>, path: string, numbers: seq<int>,
                                         b: Bundle, b': Bundle)
    requires path !in ShownPaths(b) && Visited(repo, seen, path, numbers, b, b')
    ensures CountsOneMore(repo, seen, path, b, b')
  {
    if numbers != [] {
      WithFileShowsPath(b, path, repo[path].lines, numbers);
    }
  }

  lemma {:induction false} StepCounts(repo: Repo, request: Request, seen: map<string, seq<Range>>,
                                      path: string, b: Bundle)
    requires request.lineBudget > 0 && request.lineBudget > b.emittedLineCount
    requires path !in ShownPaths(b)
    ensures CountsOneMore(repo, seen, path, b, Step(repo, request, seen, path, b))
  {
    var numbers := StepVisits(repo, request, seen, path, b);
    VisitedCounts(repo, seen, path, numbers, b, Step(repo, request, seen, path, b));
  }

  lemma {:induction false} VisitAccounts(repo: Repo, request: Request, seen: map<string, seq<Range>>,
                                         front: seq<Candidate>, c: Candidate, b: Bundle)
    requires request.lineBudget > 0 && request.lineBudget > b.emittedLineCount && c.path !in Paths(front)
    requires ShownPaths(b) <= Paths(front)
    requires Accounted(repo, request, seen, front, |front|, b)
    ensures Accounted(repo, request, seen, front + [c], |front| + 1, Step(repo, request, seen, c.path, b))
  {
    var shown, shown' := ShownPaths(b), ShownPaths(Step(repo, request, seen, c.path, b));
    assert front[..|front|] == front && (front + [c])[..|front| + 1] == front + [c];
    StepCounts(repo, request, seen, c.path, b);
    CountOneMore(front, c, Unreadable(repo));
    CountOneMore(front, c, Skipped(repo, seen, shown'));
    CountAgrees(front, Skipped(repo, seen, shown), Skipped(repo, seen, shown'));
  }

  lemma {:induction false} WalkShowsCandidates(repo: Repo, request: Request, seen: map<string, seq<Range>>,
                                               rows: seq<Candidate>, b: Bundle)
    requires request.lineBudget > 0 && DistinctPaths(rows)
    requires b == Bundle(b.candidates, [], 0, 0, 0, 0, 0)
    ensures ShownPaths(Walk(repo, request, seen, rows, b)) <= Paths(rows)
  {
    WalkIsSafe(repo, request, seen, rows, b);
  }

  lemma {:induction false} WalkAccounts(repo: Repo, request: Request, seen: map<string, seq<Range>>,
                                        rows: seq<Candidate>, b: Bundle) returns (visited: nat)
    requires request.lineBudget > 0 && DistinctPaths(rows)
    requires b == Bundle(b.candidates, [], 0, 0, 0, 0, 0)
    ensures Accounted(repo, request, seen, rows, visited, Walk(repo, request, seen, rows, b))
  {
    visited := 0;
    if |rows| > 0 {
      var front, last := rows[..|rows| - 1], rows[|rows| - 1];
      var before := Walk(repo, request, seen, front, b);
      visited := WalkAccounts(repo, request, seen, front, b);
      WalkShowsCandidates(repo, request, seen, front, b);
      assert rows == front + [last];
      if before.emittedLineCount < request.lineBudget {
        VisitAccounts(repo, request, seen, front, last, before);
        visited := |rows|;
      } else {
        assert rows[..visited] == front[..visited];
      }
    }
  }

  // ---- The cap per file ------------------------------------------------------------

  // How many of the lines are lines of that file.
  function LinesOf(lines: seq<SourceLine>, path: string): nat {
    if |lines| == 0 then 0 else LinesOf(lines[..|lines| - 1], path) + One(lines[|lines| - 1].path == path)
  }

  lemma {:induction false} OneLineMore(lines: seq<SourceLine>, l: SourceLine, path: string)
    ensures LinesOf(lines + [l], path) == LinesOf(lines, path) + One(l.path == path)
  {
    assert (lines + [l])[..|lines|] == lines;
  }

  lemma {:induction false} LinesOfMore(lines: seq<SourceLine>, path: string, numbers: seq<int>, other: string)
    ensures LinesOf(lines + Located(path, numbers), other)
         == LinesOf(lines, other) + if other == path then |numbers| else 0
  {
    if |numbers| == 0 {
      assert lines + Located(path, numbers) == lines;
    } else {
      var front, l := numbers[..|numbers| - 1], SourceLine(path, numbers[|numbers| - 1]);
      LinesOfMore(lines, path, front, other);
      assert lines + Located(path, numbers) == (lines + Located(path, front)) + [l];
      OneLineMore(lines + Located(path, front), l, other);
    }
  }

  lemma {:induction false} NoLinesOf(lines: seq<SourceLine>, path: string)
    requires path !in PathsOf(lines)
    ensures LinesOf(lines, path) == 0
  {
    if |lines| > 0 {
      var front, last := lines[..|lines| - 1], lines[|lines| - 1];
      assert last in lines && forall l :: l in front ==> l in lines;
      NoLinesOf(front, path);
    }
  }

  ghost predicate Capped(b: Bundle, limit: int) {
    forall path :: LinesOf(Emitted(b.sections), path) <= limit
  }

  lemma {:induction false} WithFileIsCapped(b: Bundle, path: string, source: seq<string>, numbers: seq<int>, limit: int)
    requires path !in ShownPaths(b) && Capped(b, limit) && |numbers| <= limit
    ensures Capped(WithFile(b, path, source, numbers), limit)
  {
    WithFileEmits(b, path, source, numbers);
    NoLinesOf(Emitted(b.sections), path);
    forall other ensures LinesOf(Emitted(b.sections) + Located(path, numbers), other) <= limit {
      LinesOfMore(Emitted(b.sections), path, numbers, other);
    }
  }

  lemma {:induction false} StepIsCapped(repo: Repo, request: Request, seen: map<string, seq<Range>>,
                                        path: string, b: Bundle, limit: int)
    requires request.lineBudget > 0 && limit == PerFileLimit(request.detail, request.lineBudget, |b.candidates|)
    requires path !in ShownPaths(b) && Capped(b, limit)
    ensures Capped(Step(repo, request, seen, path, b), limit)
  {
    if request.lineBudget > b.emittedLineCount {
      var numbers := StepVisits(repo, request, seen, path, b);
      if numbers != [] {
        WithFileIsCapped(b, path, repo[path].lines, numbers, limit);
      }
    }
  }

  lemma {:induction false} WalkIsCapped(repo: Repo, request: Request, seen: map<string, seq<Range>>,
                                        rows: seq<Candidate>, b: Bundle, limit: int)
    requires request.lineBudget > 0 && DistinctPaths(rows)
    requires b == Bundle(b.candidates, [], 0, 0, 0, 0, 0)
    requires limit == PerFileLimit(request.detail, request.lineBudget, |b.candidates|)
    ensures Capped(Walk(repo, request, seen, rows, b), limit)
  {
    if |rows| > 0 {
      var front, last := rows[..|rows| - 1], rows[|rows| - 1];
      WalkIsCapped(repo, request, seen, front, b, limit);
      WalkShowsCandidates(repo, request, seen, front, b);
      WalkKeepsCandidates(repo, request, seen, front, b);
      StepIsCapped(repo, request, seen, last.path, Walk(repo, request, seen, front, b), limit);
    }
  }

  // Whether so many lines of one file may be shown: any number within the budget, but in a
  // preview no more than 40 and no more than its share of the budget, and always one.
  ghost predicate MayShow(detail: Detail, lineBudget: int, count: int, lines: int) {
    match detail
    case Preview => lines <= 1 || (lines <= 40 && (if count > 1 then lines * count else lines) <= lineBudget)
    case _ => lines <= lineBudget
  }

  lemma {:induction false} PerFileLimitMeans(detail: Detail, lineBudget: int, count: int, lines: int)
    requires lineBudget > 0
    ensures lines <= PerFileLimit(detail, lineBudget, count) <==> MayShow(detail, lineBudget, count, lines)
  {
    if detail.Preview? {
      DividesUp(lines, if count > 1 then count else 1, lineBudget);
    }
  }

  lemma {:induction false} DividesUp(lines: int, count: int, lineBudget: int)
    requires count > 0
    ensures lines <= lineBudget / count <==> lines * count <= lineBudget
  {
    var q := lineBudget / count;
    assert q * count <= lineBudget < (q + 1) * count;
    if lines <= q {
      assert lines * count <= q * count;
    } else {
      assert lines * count >= (q + 1) * count;
    }
  }

  // Of every bundle: no file has more lines in it than the limit per file, the candidates
  // it did not look at are those behind the place where the budget was spent, and its two
  // counters of files without a section count the unreadable and the skipped ones among
  // the others. A fold looks at none.
  lemma {:induction false} BundlesAccountForCandidates(repo: Repo, request: Request, seen: map<string, seq<Range>>)
    returns (visited: nat)
    requires request.lineBudget > 0
    ensures
      var b := BundleOf(repo, request, seen);
      && (forall path ::
            MayShow(request.detail, request.lineBudget, |b.candidates|, LinesOf(Emitted(b.sections), path)))
      && (request.detail.Fold? ==> b.unreadableCount == 0 && b.skippedSeenCount == 0 && b.sections == [])
      && (!request.detail.Fold? ==> Accounted(repo, request, seen, b.candidates, visited, b))
  {
    var rows := CandidateRows(request.explained, repo, request.maxItems);
    var empty := Bundle(rows, [], 0, 0, 0, 0, 0);
    CandidateRowsAreFiles(request.explained, repo, request.maxItems);
    visited := WalkAccounts(repo, request, seen, rows, empty);
    WalkIsCapped(repo, request, seen, rows, empty, PerFileLimit(request.detail, request.lineBudget, |rows|));
    WalkKeepsCandidates(repo, request, seen, rows, empty);
    var b := BundleOf(repo, request, seen);
    forall path
      ensures MayShow(request.detail, request.lineBudget, |b.candidates|, LinesOf(Emitted(b.sections), path))
    {
      LimitIsPositive(request.detail, request.lineBudget, |rows|);
      assert LinesOf(Emitted(b.sections), path) <= PerFileLimit(request.detail, request.lineBudget, |rows|);
      PerFileLimitMeans(request.detail, request.lineBudget, |rows|, LinesOf(Emitted(b.sections), path));
    }
  }
}
