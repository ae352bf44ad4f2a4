// What a run leaves out: only what the budget or the limit per file keeps it from showing.
module ContextGreedy {
  import opened ContextRanges
  import opened ContextLedger
  import opened ContextBundle
  import opened ContextRun
  import opened ContextSafety
  import opened ContextCounts
  import opened ContextScope
  import opened ContextChoice

  // The budget is spent, or one more line of the file would be too many.
  ghost predicate IsFull(request: Request, b: Bundle, path: string) {
    || b.emittedLineCount >= request.lineBudget
    || !MayShow(request.detail, request.lineBudget, |b.candidates|, LinesOf(Emitted(b.sections), path) + 1)
  }

  ghost predicate LeavesOut(repo: Repo, request: Request, seen: map<string, seq<Range>>, b: Bundle, l: SourceLine) {
    InScope(repo, request, l) && !Hidden(seen, l) && l !in Emitted(b.sections)
  }

  ghost predicate Greedy(repo: Repo, request: Request, seen: map<string, seq<Range>>, paths: set<string>, b: Bundle) {
    forall l :: LeavesOut(repo, request, seen, b, l) && l.path in paths ==> IsFull(request, b, l.path)
  }

  // If a line of the file is left out, as many as the limit allows were chosen.
  lemma {:induction false} FileNumbersFill(repo: Repo, request: Request, seen: map<string, seq<Range>>, count: int,
                                           remaining: int, l: SourceLine)
    requires request.lineBudget > 0 && remaining > 0 && InScope(repo, request, l) && !Hidden(seen, l)
    requires Readable(repo, l.path) && l.number !in FileNumbers(repo, request, seen, count, l.path, remaining)
    ensures |FileNumbers(repo, request, seen, count, l.path, remaining)|
         == Min(remaining, PerFileLimit(request.detail, request.lineBudget, count))
  {
    var limit := Min(remaining, PerFileLimit(request.detail, request.lineBudget, count));
    var symbols, lineCount := FileSymbols(request, l.path), |repo[l.path].lines|;
    LimitIsPositive(request.detail, request.lineBudget, count);
    ScopeMeans(repo, request, l);
    if symbols != [] {
      WindowsAreNear(symbols, lineCount, l.number);
    }
    ChosenNumbersAreFirst(symbols, lineCount, RangesFor(seen, l.path), limit);
    assert Choosable(symbols, lineCount, RangesFor(seen, l.path), l.number);
  }

  lemma {:induction false} WindowsAreNear(symbols: seq<Symbol>, lineCount: nat, n: int)
    ensures InWindows(symbols, lineCount, n) ==> NearAny(symbols, lineCount, n)
  {
    if InWindows(symbols, lineCount, n) && !NearAny(symbols, lineCount, n) {
      var s :| s in symbols && n in Window(s, lineCount);
      NoneNear(symbols, lineCount, n, |symbols|);
      WindowIsNear(s, lineCount);
      assert false;
    }
  }

  lemma {:induction false} WithFileLeavesOthers(path: string, source: seq<string>, numbers: seq<int>,
                                                b: Bundle, other: string)
    requires other != path
    ensures LinesOf(Emitted(WithFile(b, path, source, numbers).sections), other) == LinesOf(Emitted(b.sections), other)
  {
    WithFileEmits(b, path, source, numbers);
    LinesOfMore(Emitted(b.sections), path, numbers, other);
  }

  lemma {:induction false} WithFileKeepsFull(request: Request, path: string, source: seq<string>, numbers: seq<int>,
                                             b: Bundle, b': Bundle, other: string)
    requires other != path && IsFull(request, b, other) && b' == WithFile(b, path, source, numbers)
    ensures IsFull(request, b', other)
  {
    WithFileLeavesOthers(path, source, numbers, b, other);
  }

  lemma {:induction false} WithFileShowsNumbers(path: string, source: seq<string>, numbers: seq<int>, b: Bundle, l: SourceLine)
    requires l !in Emitted(WithFile(b, path, source, numbers).sections)
    ensures l !in Emitted(b.sections) && (l.path == path ==> l.number !in numbers)
  {
    WithFileEmits(b, path, source, numbers);
    LocatedAre(path, numbers);
    assert forall x :: x in Emitted(b.sections) || x in Located(path, numbers) ==>
      x in Emitted(b.sections) + Located(path, numbers);
  }

  lemma {:induction false} WithFileFills(repo: Repo, request: Request, seen: map<string, seq<Range>>,
                                         numbers: seq<int>, b: Bundle, l: SourceLine)
    requires request.lineBudget > b.emittedLineCount && request.lineBudget > 0 && Readable(repo, l.path)
    requires l.path !in ShownPaths(b) && l.number !in numbers
    requires InScope(repo, request, l) && !Hidden(seen, l)
    requires numbers ==
             FileNumbers(repo, request, seen, |b.candidates|, l.path, request.lineBudget - b.emittedLineCount)
    ensures IsFull(request, WithFile(b, l.path, repo[l.path].lines, numbers), l.path)
  {
    WithFileEmits(b, l.path, repo[l.path].lines, numbers);
    NoLinesOf(Emitted(b.sections), l.path);
    LinesOfMore(Emitted(b.sections), l.path, numbers, l.path);
    FileNumbersFill(repo, request, seen, |b.candidates|, request.lineBudget - b.emittedLineCount, l);
    PerFileLimitMeans(request.detail, request.lineBudget, |b.candidates|, |numbers| + 1);
  }

  // One file more, of which these numbers were chosen.
  lemma {:induction false} WithFileIsGreedy(repo: Repo, request: Request, seen: map<string, seq<Range>>,
                                            paths: set<string>, path: string, numbers: seq<int>, b: Bundle)
    requires request.lineBudget > 0 && path !in paths && path !in ShownPaths(b) && Readable(repo, path)
    requires Greedy(repo, request, seen, paths, b) && b.emittedLineCount < request.lineBudget
    requires numbers ==
             FileNumbers(repo, request, seen, |b.candidates|, path, request.lineBudget - b.emittedLineCount)
    ensures Greedy(repo, request, seen, paths + {path}, WithFile(b, path, repo[path].lines, numbers))
  {
    var b' := WithFile(b, path, repo[path].lines, numbers);
    forall l | LeavesOut(repo, request, seen, b', l) && l.path in paths + {path}
      ensures IsFull(request, b', l.path)
    {
      WithFileShowsNumbers(path, repo[path].lines, numbers, b, l);
      if l.path == path {
        WithFileFills(repo, request, seen, numbers, b, l);
      } else {
        assert LeavesOut(repo, request, seen, b, l);
        WithFileKeepsFull(request, path, repo[path].lines, numbers, b, b', l.path);
      }
    }
  }

  lemma {:induction false} NothingChosenIsGreedy(repo: Repo, request: Request, seen: map<string, seq<Range>>,
                                                 path: string, b: Bundle, l: SourceLine)
    requires request.lineBudget > b.emittedLineCount && request.lineBudget > 0 && l.path == path
    requires Readable(repo, path) ==>
               FileNumbers(repo, request, seen, |b.candidates|, path, request.lineBudget - b.emittedLineCount) == []
    ensures !(InScope(repo, request, l) && !Hidden(seen, l))
  {
    if InScope(repo, request, l) && !Hidden(seen, l) {
      LimitIsPositive(request.detail, request.lineBudget, |b.candidates|);
      FileNumbersFill(repo, request, seen, |b.candidates|, request.lineBudget - b.emittedLineCount, l);
    }
  }

  lemma {:induction false} StepIsGreedy(repo: Repo, request: Request, seen: map<string, seq<Range>>,
                                        paths: set<string>, path: string, b: Bundle)
    requires request.lineBudget > 0 && path !in paths && path !in ShownPaths(b)
    requires Greedy(repo, request, seen, paths, b)
    ensures Greedy(repo, request, seen, paths + {path}, Step(repo, request, seen, path, b))
  {
    if b.emittedLineCount < request.lineBudget {
      var b' := Step(repo, request, seen, path, b);
      var numbers := StepVisits(repo, request, seen, path, b);
      if numbers != [] {
        WithFileIsGreedy(repo, request, seen, paths, path, numbers, b);
      } else {
        StepKeepsCandidates(repo, request, seen, path, b);
        forall l | LeavesOut(repo, request, seen, b', l) && l.path in paths + {path}
          ensures IsFull(request, b', l.path)
        {
          if l.path == path {
            NothingChosenIsGreedy(repo, request, seen, path, b, l);
          } else {
            assert LeavesOut(repo, request, seen, b, l);
          }
        }
      }
    }
  }

  lemma {:induction false} WalkIsGreedy(repo: Repo, request: Request, seen: map<string, seq<Range>>,
                                        rows: seq<Candidate>, b: Bundle)
    requires request.lineBudget > 0 && DistinctPaths(rows) && b == Bundle(b.candidates, [], 0, 0, 0, 0, 0)
    ensures Greedy(repo, request, seen, Paths(rows), Walk(repo, request, seen, rows, b))
  {
    if |rows| > 0 {
      var front, last := rows[..|rows| - 1], rows[|rows| - 1];
      WalkIsGreedy(repo, request, seen, front, b);
      WalkShowsCandidates(repo, request, seen, front, b);
      StepIsGreedy(repo, request, seen, Paths(front), last.path, Walk(repo, request, seen, front, b));
      assert rows == front + [last];
      PathsOneMore(front, last);
    }
  }

  lemma {:induction false} BundlesFill(repo: Repo, request: Request, seen: map<string, seq<Range>>, b: Bundle)
    requires request.lineBudget > 0 && !request.detail.Fold? && b == BundleOf(repo, request, seen)
    ensures Greedy(repo, request, seen, Paths(b.candidates), b) && b.emittedLineCount <= request.lineBudget
    ensures b.candidates == CandidateRows(request.explained, repo, request.maxItems)
  {
    var rows := CandidateRows(request.explained, repo, request.maxItems);
    CandidateRowsAreFiles(request.explained, repo, request.maxItems);
    WalkIsGreedy(repo, request, seen, rows, Bundle(rows, [], 0, 0, 0, 0, 0));
    BundlesAreSafe(repo, request, seen);
  }

  // A line in the scope of a run that was not seen is left out only if the budget is spent or
  // its file has as many lines in the bundle as it may.
  lemma {:induction false} BundlesAreGreedy(repo: Repo, request: Request, seen: map<string, seq<Range>>, b: Bundle,
                                            l: SourceLine)
    requires request.lineBudget > 0 && !request.detail.Fold? && b == BundleOf(repo, request, seen)
    requires l.path in Paths(b.candidates) && InScope(repo, request, l) && !Hidden(seen, l)
    ensures
      || l in Emitted(b.sections)
      || b.emittedLineCount == request.lineBudget
      || !MayShow(request.detail, request.lineBudget, |b.candidates|, LinesOf(Emitted(b.sections), l.path) + 1)
  {
    BundlesFill(repo, request, seen, b);
    assert LeavesOut(repo, request, seen, b, l) ==> IsFull(request, b, l.path);
  }
}
