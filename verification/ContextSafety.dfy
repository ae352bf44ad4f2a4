// What one bundle may show: laws of BundleOf for every detail, query and ledger.
module ContextSafety {
  import opened Sequences
  import opened ContextRanges
  import opened ContextLedger
  import opened ContextBundle
  import opened ContextRun

  predicate InFile(repo: Repo, l: SourceLine) {
    l.path in repo && repo[l.path].Text? && 1 <= l.number <= |repo[l.path].lines|
  }

  function PathsOf(lines: seq<SourceLine>): set<string> {
    set l | l in lines :: l.path
  }

  predicate Hidden(seen: map<string, seq<Range>>, l: SourceLine) {
    Covered(RangesFor(seen, l.path), l.number)
  }

  // How many of the lines are longer than a shown line may be.
  function LongLines(repo: Repo, lines: seq<SourceLine>): nat {
    if |lines| == 0 then 0
    else
      var l := lines[|lines| - 1];
      LongLines(repo, lines[..|lines| - 1])
      + if InFile(repo, l) && |repo[l.path].lines[l.number - 1]| > 500 then 1 else 0
  }

  // The section is the stretch of the file it names, long lines cut.
  ghost predicate ShowsFile(repo: Repo, s: Section) {
    && Readable(repo, s.path)
    && 1 <= s.start <= s.end <= |repo[s.path].lines|
    && s.lines == ShownLines(repo[s.path].lines, s.start, s.end)
  }

  // Distinct unseen lines inside readable files with these paths.
  ghost predicate SafeLines(repo: Repo, seen: map<string, seq<Range>>, paths: set<string>, lines: seq<SourceLine>) {
    && NoDuplicates(lines)
    && (forall l :: l in lines ==> InFile(repo, l) && !Hidden(seen, l) && l.path in paths)
  }

  // The counters of the bundle count what its sections show.
  ghost predicate GoodCounts(repo: Repo, b: Bundle, lines: seq<SourceLine>) {
    && b.emittedLineCount == |lines|
    && b.filesEmittedCount == |PathsOf(lines)|
    && b.clippedLineCount == LongLines(repo, lines)
  }

  ghost predicate SafeBundle(repo: Repo, seen: map<string, seq<Range>>, paths: set<string>, budget: int, b: Bundle) {
    && SafeLines(repo, seen, paths, Emitted(b.sections))
    && GoodCounts(repo, b, Emitted(b.sections))
    && b.emittedLineCount <= budget
    && (forall s :: s in b.sections ==> ShowsFile(repo, s))
  }

  // ---- Sections show their ranges ----------------------------------------------

  lemma {:induction false} LocatedAdds(path: string, a: seq<int>, b: seq<int>)
    ensures Located(path, a + b) == Located(path, a) + Located(path, b)
  {
  }

  lemma {:induction false} SectionsShowRanges(path: string, source: seq<string>, ranges: seq<Range>)
    ensures Emitted(SectionsOf(path, source, ranges)) == Located(path, Expand(ranges))
  {
    if |ranges| > 0 {
      var front, r := ranges[..|ranges| - 1], ranges[|ranges| - 1];
      SectionsShowRanges(path, source, front);
      LocatedAdds(path, Expand(front), Interval(r.start, r.end));
    }
  }

  lemma {:induction false} SectionsShowFile(repo: Repo, path: string, ranges: seq<Range>)
    requires Readable(repo, path)
    requires forall r :: r in ranges ==> 1 <= r.start <= r.end <= |repo[path].lines|
    ensures forall s :: s in SectionsOf(path, repo[path].lines, ranges) ==> ShowsFile(repo, s)
  {
    if |ranges| > 0 {
      var front, r := ranges[..|ranges| - 1], ranges[|ranges| - 1];
      assert forall q :: q in front ==> q in ranges;
      assert r in ranges;
      SectionsShowFile(repo, path, front);
    }
  }

  lemma {:induction false} EmittedConcat(a: seq<Section>, b: seq<Section>)
    ensures Emitted(a + b) == Emitted(a) + Emitted(b)
  {
    if b == [] {
      assert a + b == a;
    } else {
      assert (a + b)[..|a + b| - 1] == a + b[..|b| - 1];
      EmittedConcat(a, b[..|b| - 1]);
      assert Emitted(b) == Emitted(b[..|b| - 1]) +
                           Located(b[|b| - 1].path, Interval(b[|b| - 1].start, b[|b| - 1].end));
    }
  }

  // ---- One file more --------------------------------------------------------------

  lemma {:induction false} DistinctLocated(path: string, numbers: seq<int>)
    requires NoDuplicates(numbers)
    ensures NoDuplicates(Located(path, numbers))
  {
    DistinctIndices(numbers);
    DistinctIndices(Located(path, numbers));
  }

  lemma {:induction false} LocatedAre(path: string, numbers: seq<int>)
    ensures forall l :: l in Located(path, numbers) <==> l.path == path && l.number in numbers
  {
    var s := Located(path, numbers);
    forall l
      ensures l in s <==> l.path == path && l.number in numbers
    {
      if l.path == path && l.number in numbers {
        var i :| 0 <= i < |numbers| && numbers[i] == l.number;
        assert s[i] == l;
      }
    }
  }

  lemma {:induction false} MoreSafeLines(repo: Repo, seen: map<string, seq<Range>>, paths: set<string>,
                                         lines: seq<SourceLine>, path: string, numbers: seq<int>)
    requires SafeLines(repo, seen, paths, lines)
    requires path !in paths && Readable(repo, path)
    requires GoodChoice(numbers, |repo[path].lines|, RangesFor(seen, path))
    ensures SafeLines(repo, seen, paths + {path}, lines + Located(path, numbers))
  {
    LocatedAre(path, numbers);
    DistinctLocated(path, numbers);
    DistinctConcat(lines, Located(path, numbers));
    assert forall l :: l in lines + Located(path, numbers) <==> l in lines || l in Located(path, numbers);
  }

  lemma {:induction false} MorePaths(lines: seq<SourceLine>, path: string, numbers: seq<int>)
    requires numbers != [] && forall l :: l in lines ==> l.path != path
    ensures |PathsOf(lines + Located(path, numbers))| == |PathsOf(lines)| + 1
  {
    var all := lines + Located(path, numbers);
    LocatedAre(path, numbers);
    assert SourceLine(path, numbers[0]) in Located(path, numbers);
    assert forall l :: l in all <==> l in lines || l in Located(path, numbers);
    assert PathsOf(all) == PathsOf(lines) + {path};
  }

  lemma {:induction false} LongLinesAdds(repo: Repo, lines: seq<SourceLine>, path: string, numbers: seq<int>)
    requires Readable(repo, path) && forall n :: n in numbers ==> InLines(repo[path].lines, n)
    ensures LongLines(repo, lines + Located(path, numbers)) ==
            LongLines(repo, lines) + LongCount(repo[path].lines, numbers)
  {
    if |numbers| == 0 {
      assert lines + Located(path, numbers) == lines;
    } else {
      var front, n := numbers[..|numbers| - 1], numbers[|numbers| - 1];
      assert n in numbers && forall m :: m in front ==> m in numbers;
      LongLinesAdds(repo, lines, path, front);
      var all := lines + Located(path, numbers);
      assert all[..|all| - 1] == lines + Located(path, front);
    }
  }

  lemma {:induction false} WithFileEmits(b: Bundle, path: string, source: seq<string>, numbers: seq<int>)
    ensures Emitted(WithFile(b, path, source, numbers).sections) == Emitted(b.sections) + Located(path, numbers)
  {
    RangesExpandBack(numbers);
    SectionsShowRanges(path, source, RangesOf(numbers));
    EmittedConcat(b.sections, SectionsOf(path, source, RangesOf(numbers)));
  }

  lemma {:induction false} WithFileShows(repo: Repo, b: Bundle, path: string, numbers: seq<int>)
    requires Readable(repo, path) && forall n :: n in numbers ==> InLines(repo[path].lines, n)
    requires forall s :: s in b.sections ==> ShowsFile(repo, s)
    ensures forall s :: s in WithFile(b, path, repo[path].lines, numbers).sections ==> ShowsFile(repo, s)
  {
    RangesExpandBack(numbers);
    ExpandBounds(RangesOf(numbers), 1, |repo[path].lines|);
    SectionsShowFile(repo, path, RangesOf(numbers));
  }

  lemma {:induction false} WithFileIsSafe(repo: Repo, seen: map<string, seq<Range>>, paths: set<string>, budget: int,
                                          path: string, numbers: seq<int>, b: Bundle)
    requires SafeBundle(repo, seen, paths, budget, b) && path !in paths && Readable(repo, path)
    requires GoodChoice(numbers, |repo[path].lines|, RangesFor(seen, path))
    requires numbers != [] && |numbers| <= budget - b.emittedLineCount
    ensures SafeBundle(repo, seen, paths + {path}, budget, WithFile(b, path, repo[path].lines, numbers))
  {
    var lines := Emitted(b.sections);
    WithFileEmits(b, path, repo[path].lines, numbers);
    WithFileShows(repo, b, path, numbers);
    MoreSafeLines(repo, seen, paths, lines, path, numbers);
    assert GoodCounts(repo, WithFile(b, path, repo[path].lines, numbers), lines + Located(path, numbers)) by {
      MorePaths(lines, path, numbers);
      LongLinesAdds(repo, lines, path, numbers);
    }
  }

  lemma {:induction false} StepIsSafe(repo: Repo, request: Request, seen: map<string, seq<Range>>,
                                      paths: set<string>, path: string, b: Bundle)
    requires request.lineBudget > 0 && path !in paths
    requires SafeBundle(repo, seen, paths, request.lineBudget, b)
    ensures SafeBundle(repo, seen, paths + {path}, request.lineBudget, Step(repo, request, seen, path, b))
  {
    var remaining := request.lineBudget - b.emittedLineCount;
    if remaining > 0 && Readable(repo, path) {
      var limit := Min(remaining, PerFileLimit(request.detail, request.lineBudget, |b.candidates|));
      var numbers := FileNumbers(repo, request, seen, |b.candidates|, path, remaining);
      ChosenNumbersAreGood(FileSymbols(request, path), |repo[path].lines|, RangesFor(seen, path), limit);
      if numbers != [] {
        WithFileIsSafe(repo, seen, paths, request.lineBudget, path, numbers, b);
      }
    }
  }

  lemma {:induction false} WalkIsSafe(repo: Repo, request: Request, seen: map<string, seq<Range>>,
                                      rows: seq<Candidate>, b: Bundle)
    requires request.lineBudget > 0 && DistinctPaths(rows)
    requires SafeBundle(repo, seen, {}, request.lineBudget, b)
    ensures SafeBundle(repo, seen, Paths(rows), request.lineBudget, Walk(repo, request, seen, rows, b))
  {
    if |rows| > 0 {
      var front, last := rows[..|rows| - 1], rows[|rows| - 1];
      WalkIsSafe(repo, request, seen, front, b);
      assert rows == front + [last];
      PathsOneMore(front, last);
      StepIsSafe(repo, request, seen, Paths(front), last.path, Walk(repo, request, seen, front, b));
    }
  }

  lemma {:induction false} WalkKeepsCandidates(repo: Repo, request: Request, seen: map<string, seq<Range>>,
                                               rows: seq<Candidate>, b: Bundle)
    requires request.lineBudget > 0
    ensures Walk(repo, request, seen, rows, b).candidates == b.candidates
  {
    if |rows| > 0 {
      WalkKeepsCandidates(repo, request, seen, rows[..|rows| - 1], b);
    }
  }

  // Every bundle, whatever the detail, the query and the ledger: within the budget, inside
  // the files, nothing twice, nothing that was seen; the counters count what is shown and
  // the sections show the text of the files.
  lemma {:induction false} BundlesAreSafe(repo: Repo, request: Request, seen: map<string, seq<Range>>)
    requires request.lineBudget > 0
    ensures var b := BundleOf(repo, request, seen);
            && b.candidates == CandidateRows(request.explained, repo, request.maxItems)
            && SafeBundle(repo, seen, Paths(b.candidates), request.lineBudget, b)
  {
    var rows := CandidateRows(request.explained, repo, request.maxItems);
    var empty := Bundle(rows, [], 0, 0, 0, 0, 0);
    CandidateRowsAreFiles(request.explained, repo, request.maxItems);
    if !request.detail.Fold? {
      WalkIsSafe(repo, request, seen, rows, empty);
      WalkKeepsCandidates(repo, request, seen, rows, empty);
    }
  }

  // The lines of a section are lines of the file, with their numbers: in full up to 500
  // characters, and else clipped to the first 500.
  ghost predicate ShowsText(repo: Repo, s: Section) {
    && s.path in repo && repo[s.path].Text?
    && 1 <= s.start <= s.end <= |repo[s.path].lines|
    && |s.lines| == s.end - s.start + 1
    && forall k :: 0 <= k < |s.lines| ==>
         var text := repo[s.path].lines[s.start + k - 1];
         s.lines[k] == Line(s.start + k, if |text| <= 500 then Whole(text) else Clipped(text[..500]))
  }

  lemma {:induction false} ShownTextIsTheFiles(repo: Repo, request: Request, seen: map<string, seq<Range>>)
    requires request.lineBudget > 0
    ensures forall s :: s in BundleOf(repo, request, seen).sections ==> ShowsText(repo, s)
  {
    BundlesAreSafe(repo, request, seen);
    forall s | s in BundleOf(repo, request, seen).sections
      ensures ShowsText(repo, s)
    {
      assert ShowsFile(repo, s);
      ShownLinesAt(repo[s.path].lines, s.start, s.end);
    }
  }
}
