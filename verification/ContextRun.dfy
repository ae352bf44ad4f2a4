// build_context_bundle: a run walks the candidate files under one global line budget.
module ContextRun {
  import opened Wrappers
  import opened Sorting
  import opened ContextRanges
  import opened ContextLedger
  import opened ContextBundle

  function Min(a: int, b: int): int {
    if a < b then a else b
  }

  function Max(a: int, b: int): int {
    if a < b then b else a
  }

  // ---- Sections ----------------------------------------------------------------

  function Clip(line: string): LineText {
    if |line| <= MAX_CONTEXT_LINE_CHARS then Whole(line) else Clipped(line[..MAX_CONTEXT_LINE_CHARS])
  }

  predicate InLines(source: seq<string>, n: int) {
    1 <= n <= |source|
  }

  function LineAt(source: seq<string>, n: int): string {
    if InLines(source, n) then source[n - 1] else ""
  }

  // Lines first, ..., last of a file, long lines cut.
  function ShownLines(source: seq<string>, first: int, last: int): seq<Line>
    decreases last - first
  {
    if last < first then []
    else ShownLines(source, first, last - 1) + [Line(last, Clip(LineAt(source, last)))]
  }

  function SectionsOf(path: string, source: seq<string>, ranges: seq<Range>): seq<Section> {
    if |ranges| == 0 then []
    else
      var r := ranges[|ranges| - 1];
      SectionsOf(path, source, ranges[..|ranges| - 1])
      + [Section(path, r.start, r.end, ShownLines(source, r.start, r.end))]
  }

  predicate IsLong(source: seq<string>, n: int) {
    |LineAt(source, n)| > MAX_CONTEXT_LINE_CHARS
  }

  function LongCount(source: seq<string>, numbers: seq<int>): nat {
    if |numbers| == 0 then 0
    else LongCount(source, numbers[..|numbers| - 1]) + if IsLong(source, numbers[|numbers| - 1]) then 1 else 0
  }

  lemma {:induction false} LongCountAdds(source: seq<string>, a: seq<int>, b: seq<int>)
    ensures LongCount(source, a + b) == LongCount(source, a) + LongCount(source, b)
  {
    if b == [] {
      assert a + b == a;
    } else {
      assert (a + b)[..|a + b| - 1] == a + b[..|b| - 1];
      LongCountAdds(source, a, b[..|b| - 1]);
    }
  }

  lemma {:induction false} LongCountStep(source: seq<string>, start: int, end: int)
    requires start <= end
    ensures LongCount(source, Interval(start, end)) ==
            LongCount(source, Interval(start, end - 1)) + if IsLong(source, end) then 1 else 0
  {
    assert Interval(start, end)[..end - start] == Interval(start, end - 1);
  }

  // One range of a file.
  method ShowRange(source: seq<string>, r: Range) returns (lines: seq<Line>, longCount: nat)
    requires 1 <= r.start <= r.end <= |source|
    ensures lines == ShownLines(source, r.start, r.end)
    ensures longCount == LongCount(source, Interval(r.start, r.end))
  {
    lines, longCount := [], 0;
    for number := r.start to r.end + 1
      invariant lines == ShownLines(source, r.start, number - 1)
      invariant longCount == LongCount(source, Interval(r.start, number - 1))
    {
      LongCountStep(source, r.start, number);
      var text := source[number - 1];
      if |text| > MAX_CONTEXT_LINE_CHARS {
        longCount := longCount + 1;
      }
      lines := lines + [Line(number, Clip(text))];
    }
  }

  lemma {:induction false} ShownLinesAt(source: seq<string>, first: int, last: int)
    requires first <= last + 1
    ensures var shown := ShownLines(source, first, last);
            && |shown| == last - first + 1
            && forall k :: 0 <= k < |shown| ==> shown[k] == Line(first + k, Clip(LineAt(source, first + k)))
    decreases last - first
  {
    if first <= last {
      ShownLinesAt(source, first, last - 1);
    }
  }

  lemma {:induction false} ExpandBounds(ranges: seq<Range>, lo: int, hi: int)
    requires Maximal(ranges) && forall n :: n in Expand(ranges) ==> lo <= n <= hi
    ensures forall r :: r in ranges ==> lo <= r.start <= r.end <= hi
  {
    ExpandCovers(ranges);
    MaximalRangesAreProper(ranges);
    forall r | r in ranges
      ensures lo <= r.start <= r.end <= hi
    {
      assert Covered(ranges, r.start) && Covered(ranges, r.end);
    }
  }

  lemma {:induction false} MaximalRangesAreProper(ranges: seq<Range>)
    requires Maximal(ranges)
    ensures forall r :: r in ranges ==> r.start <= r.end
  {
    if |ranges| > 0 {
      MaximalRangesAreProper(ranges[..|ranges| - 1]);
    }
  }

  ghost predicate Shows(path: string, source: seq<string>, ranges: seq<Range>,
                        sections: seq<Section>, lineCount: int, longCount: int) {
    && sections == SectionsOf(path, source, ranges)
    && lineCount == |Expand(ranges)|
    && longCount == LongCount(source, Expand(ranges))
  }

  lemma {:induction false} ShowsOneMore(path: string, source: seq<string>, ranges: seq<Range>,
                                        sections: seq<Section>, lineCount: int, longCount: int, r: Range)
    requires Shows(path, source, ranges, sections, lineCount, longCount) && r.start <= r.end
    ensures var lines := ShownLines(source, r.start, r.end);
            Shows(path, source, ranges + [r], sections + [Section(path, r.start, r.end, lines)],
                  lineCount + |lines|, longCount + LongCount(source, Interval(r.start, r.end)))
  {
    assert (ranges + [r])[..|ranges|] == ranges;
    ShownLinesAt(source, r.start, r.end);
    ExpandOneMore(ranges, r);
    LongCountAdds(source, Expand(ranges), Interval(r.start, r.end));
  }

  // The sections of one file, with the number of lines shown and of lines cut.
  method ShowNumbers(path: string, source: seq<string>, numbers: seq<int>)
    returns (sections: seq<Section>, lineCount: nat, longCount: nat)
    requires forall n :: n in numbers ==> InLines(source, n)
    ensures sections == SectionsOf(path, source, RangesOf(numbers))
    ensures lineCount == |numbers| && longCount == LongCount(source, numbers)
  {
    var ranges := ContiguousRanges(numbers);
    RangesExpandBack(numbers);
    ExpandBounds(ranges, 1, |source|);
    sections, lineCount, longCount := ShowRanges(path, source, ranges);
  }

  method ShowRanges(path: string, source: seq<string>, ranges: seq<Range>)
    returns (sections: seq<Section>, lineCount: nat, longCount: nat)
    requires forall r :: r in ranges ==> 1 <= r.start <= r.end <= |source|
    ensures sections == SectionsOf(path, source, ranges)
    ensures lineCount == |Expand(ranges)| && longCount == LongCount(source, Expand(ranges))
  {
    sections, lineCount, longCount := [], 0, 0;
    ghost var done: seq<Range> := [];
    for i := 0 to |ranges|
      invariant done == ranges[..i] && Shows(path, source, done, sections, lineCount, longCount)
    {
      var r := ranges[i];
      var lines, long := ShowRange(source, r);
      ShowsOneMore(path, source, done, sections, lineCount, longCount, r);
      sections := sections + [Section(path, r.start, r.end, lines)];
      lineCount := lineCount + |lines|;
      longCount := longCount + long;
      done := done + [r];
    }
    assert done == ranges;
  }

  // ---- The walk ------------------------------------------------------------------

  predicate Readable(repo: Repo, path: string) {
    path in repo && repo[path].Text?
  }

  function PerFileLimit(detail: Detail, lineBudget: int, candidateCount: int): int
    requires lineBudget > 0
  {
    if detail.Preview? then Max(1, Min(40, lineBudget / Max(1, candidateCount))) else lineBudget
  }

  // The symbols that scope a file: only a preview of a symbol query has any.
  function FileSymbols(request: Request, path: string): seq<Symbol> {
    if request.detail.Preview? && request.explained.hasQuery then
      Sort(MatchingSymbols(request.explained.symbols, path), BetterSymbol)
    else
      []
  }

  function FileNumbers(repo: Repo, request: Request, seen: map<string, seq<Range>>, count: int,
                       path: string, remaining: int): seq<int>
    requires request.lineBudget > 0 && Readable(repo, path)
  {
    ChosenNumbers(FileSymbols(request, path), |repo[path].lines|, RangesFor(seen, path),
                  Min(remaining, PerFileLimit(request.detail, request.lineBudget, count)))
  }

  // The bundle with the chosen numbers of one more file.
  function WithFile(b: Bundle, path: string, source: seq<string>, numbers: seq<int>): Bundle {
    b.(sections := b.sections + SectionsOf(path, source, RangesOf(numbers)),
       emittedLineCount := b.emittedLineCount + |numbers|,
       filesEmittedCount := b.filesEmittedCount + 1,
       clippedLineCount := b.clippedLineCount + LongCount(source, numbers))
  }

  // One candidate more.
  function Step(repo: Repo, request: Request, seen: map<string, seq<Range>>, path: string, b: Bundle): Bundle
    requires request.lineBudget > 0
  {
    var remaining := request.lineBudget - b.emittedLineCount;
    if remaining <= 0 then b
    else if !Readable(repo, path) then b.(unreadableCount := b.unreadableCount + 1)
    else
      var numbers := FileNumbers(repo, request, seen, |b.candidates|, path, remaining);
      if numbers != [] then WithFile(b, path, repo[path].lines, numbers)
      else if repo[path].lines != [] && RangesFor(seen, path) != [] then b.(skippedSeenCount := b.skippedSeenCount + 1)
      else b
  }

  function Walk(repo: Repo, request: Request, seen: map<string, seq<Range>>, rows: seq<Candidate>, b: Bundle): Bundle
    requires request.lineBudget > 0
  {
    if |rows| == 0 then b
    else Step(repo, request, seen, rows[|rows| - 1].path, Walk(repo, request, seen, rows[..|rows| - 1], b))
  }

  // What a run on request returns when the ranges in seen were emitted before.
  function BundleOf(repo: Repo, request: Request, seen: map<string, seq<Range>>): Bundle
    requires request.lineBudget > 0
  {
    var rows := CandidateRows(request.explained, repo, request.maxItems);
    var empty := Bundle(rows, [], 0, 0, 0, 0, 0);
    if request.detail.Fold? then empty else Walk(repo, request, seen, rows, empty)
  }

  lemma {:induction false} StepKeepsCandidates(repo: Repo, request: Request, seen: map<string, seq<Range>>,
                                               path: string, b: Bundle)
    requires request.lineBudget > 0
    ensures Step(repo, request, seen, path, b).candidates == b.candidates
  {
  }

  lemma {:induction false} WalkStops(repo: Repo, request: Request, seen: map<string, seq<Range>>,
                                     rows: seq<Candidate>, i: nat, b: Bundle)
    requires request.lineBudget > 0 && i <= |rows|
    requires Walk(repo, request, seen, rows[..i], b).emittedLineCount >= request.lineBudget
    ensures Walk(repo, request, seen, rows, b) == Walk(repo, request, seen, rows[..i], b)
  {
    if i == |rows| {
      assert rows[..i] == rows;
    } else {
      var front := rows[..|rows| - 1];
      assert front[..i] == rows[..i];
      WalkStops(repo, request, seen, front, i, b);
    }
  }

  function ParseDetail(detail: string): Option<Detail> {
    if detail == "fold" then Some(Fold)
    else if detail == "preview" then Some(Preview)
    else if detail == "full" then Some(Full)
    else None
  }

  // build_context_bundle
  method BuildContextBundle(repo: Repo, explained: Explained, detail: string, lineBudget: int,
                            seen: map<string, seq<Range>>, maxItems: int) returns (r: Result<Bundle, string>)
    ensures r.Ok? <==> ParseDetail(detail).Some? && lineBudget > 0
    ensures r.Error? ==>
              (detail != "fold" && detail != "preview" && detail != "full"
               && r.error == "detail must be one of: fold, preview, full")
              || ((detail == "fold" || detail == "preview" || detail == "full")
                  && lineBudget <= 0 && r.error == "line budget must be positive")
    ensures r.Ok? && detail == "fold" ==>
              r.value == Bundle(CandidateRows(explained, repo, maxItems), [], 0, 0, 0, 0, 0)
    ensures r.Ok? && detail == "preview" ==>
              r.value == BundleOf(repo, Request(explained, Preview, lineBudget, maxItems), seen)
    ensures r.Ok? && detail == "full" ==>
              r.value == BundleOf(repo, Request(explained, Full, lineBudget, maxItems), seen)
    ensures r.Ok? ==>
              r.value == BundleOf(repo, Request(explained, ParseDetail(detail).value, lineBudget, maxItems), seen)
  {
    var parsed := ParseDetail(detail);
    if parsed.None? {
      return Error("detail must be one of: fold, preview, full");
    }
    if lineBudget <= 0 {
      return Error("line budget must be positive");
    }
    var request := Request(explained, parsed.value, lineBudget, maxItems);
    var rows := ContextCandidateRows(explained, repo, maxItems);
    var bundle := Bundle(rows, [], 0, 0, 0, 0, 0);
    if parsed.value.Fold? {
      return Ok(bundle);
    }
    bundle := WalkCandidates(repo, request, seen, bundle);
    r := Ok(bundle);
  }

  // The candidate loop of build_context_bundle.
  method WalkCandidates(repo: Repo, request: Request, seen: map<string, seq<Range>>, start: Bundle)
    returns (b: Bundle)
    requires request.lineBudget > 0 && !request.detail.Fold?
    ensures b == Walk(repo, request, seen, start.candidates, start)
  {
    b := start;
    var rows := start.candidates;
    for i := 0 to |rows|
      invariant b == Walk(repo, request, seen, rows[..i], start) && b.candidates == rows
    {
      var remaining := request.lineBudget - b.emittedLineCount;
      if remaining <= 0 {
        WalkStops(repo, request, seen, rows, i, start);
        return;
      }
      assert Walk(repo, request, seen, rows[..i + 1], start) == Step(repo, request, seen, rows[i].path, b) by {
        assert rows[..i + 1][..i] == rows[..i];
      }
      StepKeepsCandidates(repo, request, seen, rows[i].path, b);
      b := VisitCandidate(repo, request, seen, rows[i].path, b);
    }
    assert rows[..|rows|] == rows;
  }

  // The numbers chosen in one readable file, all of them lines of the file.
  method ChooseInFile(repo: Repo, request: Request, seen: map<string, seq<Range>>, count: int, path: string,
                      remaining: int)
    returns (numbers: seq<int>)
    requires request.lineBudget > 0 && remaining > 0 && Readable(repo, path)
    ensures numbers == FileNumbers(repo, request, seen, count, path, remaining)
    ensures forall n :: n in numbers ==> InLines(repo[path].lines, n)
  {
    var limit := Min(remaining, PerFileLimit(request.detail, request.lineBudget, count));
    var symbols: seq<Symbol> := [];
    if request.detail.Preview? && request.explained.hasQuery {
      symbols := ResultSymbolRows(request.explained.symbols, path);
    }
    numbers := ChooseNumbers(symbols, |repo[path].lines|, RangesFor(seen, path), limit);
    ChosenNumbersAreGood(symbols, |repo[path].lines|, RangesFor(seen, path), limit);
  }

  // One turn of that loop.
  method VisitCandidate(repo: Repo, request: Request, seen: map<string, seq<Range>>, path: string, b: Bundle)
    returns (b': Bundle)
    requires request.lineBudget > 0 && request.lineBudget > b.emittedLineCount
    ensures b' == Step(repo, request, seen, path, b)
  {
    if !Readable(repo, path) {
      return b.(unreadableCount := b.unreadableCount + 1);
    }
    var source := repo[path].lines;
    var numbers := ChooseInFile(repo, request, seen, |b.candidates|, path, request.lineBudget - b.emittedLineCount);
    if numbers == [] {
      if source != [] && RangesFor(seen, path) != [] {
        return b.(skippedSeenCount := b.skippedSeenCount + 1);
      }
      return b;
    }
    var added, lineCount, longCount := ShowNumbers(path, source, numbers);
    b' := b.(sections := b.sections + added,
             emittedLineCount := b.emittedLineCount + lineCount,
             filesEmittedCount := b.filesEmittedCount + 1,
             clippedLineCount := b.clippedLineCount + longCount);
    assert b' == WithFile(b, path, source, numbers);
  }
}
