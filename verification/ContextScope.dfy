// What runs on one request can show at all, and that repeating them shows all of it: the
// progress law of previews, whether or not a symbol query scopes them.
module ContextScope {
  import opened Sequences
  import opened Sorting
  import opened ContextRanges
  import opened ContextLedger
  import opened ContextBundle
  import opened ContextRun
  import opened ContextSafety
  import opened ContextCounts
  import opened ContextSession

  ghost predicate InWindows(symbols: seq<Symbol>, lineCount: nat, n: int) {
    exists s :: s in symbols && n in Window(s, lineCount)
  }

  // Every line of a file without symbols to scope it, and else the windows of its symbols.
  ghost predicate NumberInScope(symbols: seq<Symbol>, lineCount: nat, n: int) {
    1 <= n <= lineCount && (symbols == [] || InWindows(symbols, lineCount, n))
  }

  // The symbol is one of the file that scores.
  ghost predicate Scores(s: Symbol, path: string) {
    s.path == path && s.score > 0
  }

  // A line of a candidate that can be read, and, in a preview of a symbol query, within two
  // lines of a symbol of its file that scores, if there is one.
  ghost predicate InScope(repo: Repo, request: Request, l: SourceLine) {
    var e := request.explained;
    && l.path in repo && repo[l.path].Text? && 1 <= l.number <= |repo[l.path].lines|
    && (request.detail.Preview? && e.hasQuery && (exists s :: s in e.symbols && Scores(s, l.path)) ==>
          exists s :: s in e.symbols && Scores(s, l.path) && s.start - 2 <= l.number <= s.end + 2)
  }

  lemma {:induction false} MatchingMembers(symbols: seq<Symbol>, path: string)
    ensures forall s :: s in MatchingSymbols(symbols, path) <==> s in symbols && Scores(s, path)
  {
    if |symbols| > 0 {
      MatchingMembers(symbols[..|symbols| - 1], path);
      assert symbols == symbols[..|symbols| - 1] + [symbols[|symbols| - 1]];
    }
  }

  lemma {:induction false} FileSymbolsMembers(request: Request, path: string)
    ensures forall s :: s in FileSymbols(request, path) <==>
              request.detail.Preview? && request.explained.hasQuery && s in request.explained.symbols && Scores(s, path)
  {
    var matching := MatchingSymbols(request.explained.symbols, path);
    MatchingMembers(request.explained.symbols, path);
    SortPermutes(matching, BetterSymbol);
    MultisetMembers(matching, Sort(matching, BetterSymbol));
  }

  lemma {:induction false} WindowMeans(s: Symbol, lineCount: nat, n: int)
    ensures n in Window(s, lineCount) <==> 1 <= n <= lineCount && s.start - 2 <= n <= s.end + 2
  {
    IntervalMembers(if s.start - 2 < 1 then 1 else s.start - 2, if lineCount < s.end + 2 then lineCount else s.end + 2);
  }

  lemma {:induction false} ScopeMeans(repo: Repo, request: Request, l: SourceLine)
    ensures InScope(repo, request, l) <==>
            InFile(repo, l) && NumberInScope(FileSymbols(request, l.path), |repo[l.path].lines|, l.number)
  {
    if InFile(repo, l) {
      var symbols, lineCount := FileSymbols(request, l.path), |repo[l.path].lines|;
      FileSymbolsMembers(request, l.path);
      forall s {
        WindowMeans(s, lineCount, l.number);
      }
      assert symbols != [] ==> symbols[0] in symbols;
      assert InWindows(symbols, lineCount, l.number) <==>
             exists s :: s in symbols && s.start - 2 <= l.number <= s.end + 2;
    }
  }

  // ---- One file ----------------------------------------------------------------------

  lemma {:induction false} SymbolNumbersInWindows(symbols: seq<Symbol>, lineCount: nat, seen: seq<Range>, limit: int)
    requires limit > 0
    ensures forall n :: n in SymbolNumbers(symbols, lineCount, seen, limit) ==> InWindows(symbols, lineCount, n)
  {
    if |symbols| > 0 {
      var front, last := symbols[..|symbols| - 1], symbols[|symbols| - 1];
      var numbers, window := SymbolNumbers(front, lineCount, seen, limit), Window(last, lineCount);
      SymbolNumbersInWindows(front, lineCount, seen, limit);
      SymbolNumbersAreGood(front, lineCount, seen, limit);
      ExtendedIsGood(numbers, window, lineCount, seen);
      DistinctTake(Extended(numbers, window, seen), limit);
      assert symbols == front + [last];
      assert forall n :: InWindows(symbols, lineCount, n) <==> InWindows(front, lineCount, n) || n in window;
    }
  }

  lemma {:induction false} ExtendedGrows(numbers: seq<int>, preferred: seq<int>, seen: seq<Range>)
    ensures |numbers| <= |Extended(numbers, preferred, seen)|
  {
    if |preferred| > 0 {
      ExtendedGrows(numbers, preferred[..|preferred| - 1], seen);
    }
  }

  lemma {:induction false} NoSymbolNumbers(symbols: seq<Symbol>, lineCount: nat, seen: seq<Range>, limit: int)
    requires limit > 0 && SymbolNumbers(symbols, lineCount, seen, limit) == []
    ensures forall n :: InWindows(symbols, lineCount, n) ==> Covered(seen, n)
  {
    if |symbols| > 0 {
      var front, last := symbols[..|symbols| - 1], symbols[|symbols| - 1];
      var numbers, window := SymbolNumbers(front, lineCount, seen, limit), Window(last, lineCount);
      SymbolNumbersAreGood(front, lineCount, seen, limit);
      ExtendedIsGood(numbers, window, lineCount, seen);
      var extended := Extended(numbers, window, seen);
      ExtendedGrows(numbers, window, seen);
      assert numbers == [] && extended == [];
      NoSymbolNumbers(front, lineCount, seen, limit);
      assert symbols == front + [last];
      assert forall n :: InWindows(symbols, lineCount, n) <==> InWindows(front, lineCount, n) || n in window;
      assert forall n :: n in window && !Covered(seen, n) ==> n in extended;
    }
  }

  // Only lines in scope are chosen, and none if and only if all of them were seen.
  lemma {:induction false} ChosenNumbersAreInScope(symbols: seq<Symbol>, lineCount: nat, seen: seq<Range>, limit: int)
    requires limit > 0
    ensures forall n :: n in ChosenNumbers(symbols, lineCount, seen, limit) ==> NumberInScope(symbols, lineCount, n)
    ensures ChosenNumbers(symbols, lineCount, seen, limit) == [] ==>
              forall n :: NumberInScope(symbols, lineCount, n) ==> Covered(seen, n)
  {
    ChosenNumbersAreGood(symbols, lineCount, seen, limit);
    if symbols == [] {
      UnseenMembers(lineCount, seen);
    } else {
      SymbolNumbersInWindows(symbols, lineCount, seen, limit);
      if ChosenNumbers(symbols, lineCount, seen, limit) == [] {
        NoSymbolNumbers(symbols, lineCount, seen, limit);
      }
    }
  }

  // ---- One run ----------------------------------------------------------------------

  lemma {:induction false} WithFileStaysInScope(repo: Repo, request: Request, path: string, numbers: seq<int>, b: Bundle)
    requires Readable(repo, path)
    requires forall n :: n in numbers ==> NumberInScope(FileSymbols(request, path), |repo[path].lines|, n)
    requires forall l :: l in Emitted(b.sections) ==> InScope(repo, request, l)
    ensures forall l :: l in Emitted(WithFile(b, path, repo[path].lines, numbers).sections) ==> InScope(repo, request, l)
  {
    var all := Emitted(b.sections) + Located(path, numbers);
    WithFileEmits(b, path, repo[path].lines, numbers);
    LocatedAre(path, numbers);
    forall l {
      ScopeMeans(repo, request, l);
    }
    assert forall l :: l in all <==> l in Emitted(b.sections) || l in Located(path, numbers);
  }

  lemma {:induction false} FileNumbersAreInScope(repo: Repo, request: Request, seen: map<string, seq<Range>>, count: int,
                                                 path: string, remaining: int)
    requires request.lineBudget > 0 && remaining > 0 && Readable(repo, path)
    ensures
      var symbols, numbers := FileSymbols(request, path), FileNumbers(repo, request, seen, count, path, remaining);
      && (forall n :: n in numbers ==> NumberInScope(symbols, |repo[path].lines|, n))
      && (numbers == [] ==>
            forall n :: NumberInScope(symbols, |repo[path].lines|, n) ==> Covered(RangesFor(seen, path), n))
  {
    var limit := Min(remaining, PerFileLimit(request.detail, request.lineBudget, count));
    LimitIsPositive(request.detail, request.lineBudget, count);
    ChosenNumbersAreInScope(FileSymbols(request, path), |repo[path].lines|, RangesFor(seen, path), limit);
  }

  // Only lines in scope are shown, and if there are none, all that is in scope of the last
  // file was seen.
  ghost predicate StaysInScope(repo: Repo, request: Request, seen: map<string, seq<Range>>, path: string,
                               b: Bundle, b': Bundle) {
    && b.emittedLineCount <= b'.emittedLineCount
    && (forall l :: l in Emitted(b'.sections) ==> InScope(repo, request, l))
    && (b'.emittedLineCount == 0 ==>
          forall l: SourceLine :: l.path == path && InScope(repo, request, l) ==> Hidden(seen, l))
  }

  lemma {:induction false} VisitedStaysInScope(repo: Repo, request: Request, seen: map<string, seq<Range>>,
                                               path: string, numbers: seq<int>, b: Bundle, b': Bundle)
    requires b.emittedLineCount >= 0 && forall l :: l in Emitted(b.sections) ==> InScope(repo, request, l)
    requires Visited(repo, seen, path, numbers, b, b')
    requires Readable(repo, path) ==>
               var symbols := FileSymbols(request, path);
               && (forall n :: n in numbers ==> NumberInScope(symbols, |repo[path].lines|, n))
               && (numbers == [] ==>
                     forall n :: NumberInScope(symbols, |repo[path].lines|, n) ==> Covered(RangesFor(seen, path), n))
    ensures StaysInScope(repo, request, seen, path, b, b')
  {
    forall l {
      ScopeMeans(repo, request, l);
    }
    if numbers != [] {
      WithFileStaysInScope(repo, request, path, numbers, b);
    }
  }

  lemma {:induction false} StepStaysInScope(repo: Repo, request: Request, seen: map<string, seq<Range>>,
                                            path: string, b: Bundle)
    requires request.lineBudget > 0 && b.emittedLineCount >= 0
    requires forall l :: l in Emitted(b.sections) ==> InScope(repo, request, l)
    ensures StaysInScope(repo, request, seen, path, b, Step(repo, request, seen, path, b))
  {
    var remaining := request.lineBudget - b.emittedLineCount;
    if remaining > 0 {
      var numbers := StepVisits(repo, request, seen, path, b);
      if Readable(repo, path) {
        FileNumbersAreInScope(repo, request, seen, |b.candidates|, path, remaining);
      }
      VisitedStaysInScope(repo, request, seen, path, numbers, b, Step(repo, request, seen, path, b));
    }
  }

  // The bundle shows only lines in scope, and if it shows none, all that is in scope of these
  // files was seen.
  ghost predicate KeepsToScope(repo: Repo, request: Request, seen: map<string, seq<Range>>, paths: set<string>, b: Bundle) {
    && 0 <= b.emittedLineCount
    && (forall l :: l in Emitted(b.sections) ==> InScope(repo, request, l))
    && (b.emittedLineCount == 0 ==>
          forall l: SourceLine :: l.path in paths && InScope(repo, request, l) ==> Hidden(seen, l))
  }

  lemma {:induction false} OneFileMore(repo: Repo, request: Request, seen: map<string, seq<Range>>, paths: set<string>,
                                       path: string, b: Bundle, b': Bundle)
    requires KeepsToScope(repo, request, seen, paths, b) && StaysInScope(repo, request, seen, path, b, b')
    ensures KeepsToScope(repo, request, seen, paths + {path}, b')
  {
  }

  lemma {:induction false} StepKeepsToScope(repo: Repo, request: Request, seen: map<string, seq<Range>>,
                                            paths: set<string>, path: string, b: Bundle)
    requires request.lineBudget > 0 && KeepsToScope(repo, request, seen, paths, b)
    ensures KeepsToScope(repo, request, seen, paths + {path}, Step(repo, request, seen, path, b))
  {
    StepStaysInScope(repo, request, seen, path, b);
    OneFileMore(repo, request, seen, paths, path, b, Step(repo, request, seen, path, b));
  }

  lemma {:induction false} NothingKeepsToScope(repo: Repo, request: Request, seen: map<string, seq<Range>>, b: Bundle)
    requires b.sections == [] && b.emittedLineCount == 0
    ensures KeepsToScope(repo, request, seen, {}, b)
  {
  }

  lemma {:induction false} WalkStaysInScope(repo: Repo, request: Request, seen: map<string, seq<Range>>,
                                            rows: seq<Candidate>, b: Bundle)
    requires request.lineBudget > 0 && b.sections == [] && b.emittedLineCount == 0
    ensures KeepsToScope(repo, request, seen, Paths(rows), Walk(repo, request, seen, rows, b))
  {
    if |rows| == 0 {
      NothingKeepsToScope(repo, request, seen, b);
    } else {
      var front, last := rows[..|rows| - 1], rows[|rows| - 1];
      WalkStaysInScope(repo, request, seen, front, b);
      StepKeepsToScope(repo, request, seen, Paths(front), last.path, Walk(repo, request, seen, front, b));
      assert Paths(rows) == Paths(front) + {last.path} by {
        assert rows == front + [last];
        PathsOneMore(front, last);
      }
    }
  }

  // A run that is not a fold shows nothing if and only if all that is in scope was seen.
  lemma {:induction false} EmptyRunsAreExact(repo: Repo, request: Request, seen: map<string, seq<Range>>)
    requires request.lineBudget > 0 && !request.detail.Fold?
    ensures
      var b := BundleOf(repo, request, seen);
      && (forall l :: l in Emitted(b.sections) ==> InScope(repo, request, l))
      && (Emitted(b.sections) == [] <==>
          forall l: SourceLine :: l.path in Paths(b.candidates) && InScope(repo, request, l) ==> Hidden(seen, l))
  {
    var rows := CandidateRows(request.explained, repo, request.maxItems);
    var empty := Bundle(rows, [], 0, 0, 0, 0, 0);
    var shown := Emitted(BundleOf(repo, request, seen).sections);
    BundlesAreSafe(repo, request, seen);
    WalkKeepsCandidates(repo, request, seen, rows, empty);
    WalkStaysInScope(repo, request, seen, rows, empty);
    if shown != [] {
      assert shown[0] in shown;
    }
  }

  // ---- Sessions that repeat a request ---------------------------------------------------

  // A run on that request, up to its budget, in that repository.
  ghost function Repeats(repo: Repo, request: Request): Round -> bool {
    (r: Round) => IsRun(r) && r.repo == repo && r.request == request.(lineBudget := r.request.lineBudget)
  }

  ghost function Rows(repo: Repo, request: Request): seq<Candidate> {
    CandidateRows(request.explained, repo, request.maxItems)
  }

  // What such runs can show: the lines in scope of the candidates that are not hidden.
  ghost function ScopeTodo(repo: Repo, request: Request, seen: map<string, seq<Range>>): set<SourceLine> {
    set l | l in CandidateLines(repo, Rows(repo, request)) && InScope(repo, request, l) && !Hidden(seen, l)
  }

  lemma {:induction false} ScopeTodoMembers(repo: Repo, request: Request, seen: map<string, seq<Range>>, l: SourceLine)
    ensures l in ScopeTodo(repo, request, seen) <==>
              l.path in Paths(Rows(repo, request)) && InScope(repo, request, l) && !Hidden(seen, l)
  {
    CandidateRowsAreFiles(request.explained, repo, request.maxItems);
    CandidateLinesAreDistinct(repo, Rows(repo, request));
  }

  // One such run shows lines that are still to do, and one at least if there are any.
  ghost predicate MakesProgress(r: Round, todo: set<SourceLine>) {
    && NoDuplicates(Shown(r))
    && (forall l :: l in Shown(r) ==> l in todo)
    && (Shown(r) == [] ==> todo == {})
  }

  lemma {:induction false} RepeatMakesProgress(repo: Repo, request: Request, r: Round)
    requires Repeats(repo, request)(r) && !request.detail.Fold?
    ensures MakesProgress(r, ScopeTodo(repo, request, r.seen))
  {
    BundlesAreSafe(repo, r.request, r.seen);
    EmptyRunsAreExact(repo, r.request, r.seen);
    assert r.bundle.candidates == Rows(repo, request) by {
      WalkKeepsCandidates(repo, r.request, r.seen, Rows(repo, request), Bundle(Rows(repo, request), [], 0, 0, 0, 0, 0));
    }
    forall l: SourceLine
      ensures InScope(repo, r.request, l) == InScope(repo, request, l)
      ensures l in ScopeTodo(repo, request, r.seen) <==>
                l.path in Paths(Rows(repo, request)) && InScope(repo, request, l) && !Hidden(r.seen, l)
    {
      ScopeTodoMembers(repo, request, r.seen, l);
    }
  }

  // What is left to do is what was to do at first and was not shown since.
  lemma {:induction false} TodoShrinks(key: string, h: History, repo: Repo, request: Request,
                                       seen: map<string, seq<Range>>, seen': map<string, seq<Range>>, l: SourceLine)
    requires Session(key, h, Repeats(repo, request))
    requires HoldsRangesOf(seen, Origin(h), key, repo) && HoldsRangesOf(seen', Ledger(key, h), key, repo)
    ensures l in ScopeTodo(repo, request, seen') <==> l in ScopeTodo(repo, request, seen) && l !in AllShown(h)
  {
    ScopeTodoMembers(repo, request, seen, l);
    ScopeTodoMembers(repo, request, seen', l);
    if InScope(repo, request, l) {
      RunsAreSafe();
      SessionWeakens(key, h, Repeats(repo, request), IsSafe);
      LedgerIsExact(key, h, repo, l);
      AllShownMembers(key, h, repo, Repeats(repo, request), l);
    }
  }

  // The rounds showed lines to do, none twice, and at least as many as there were rounds
  // unless all was shown.
  ghost predicate Progressed(h: History, todo: set<SourceLine>) {
    && NoDuplicates(AllShown(h))
    && (forall l :: l in AllShown(h) ==> l in todo)
    && (|AllShown(h)| >= Rounds(h) || forall l :: l in todo ==> l in AllShown(h))
  }

  lemma {:induction false} ProgressOneMore(h: History, r: Round, todo: set<SourceLine>, left: set<SourceLine>)
    requires Progressed(h, todo) && MakesProgress(r, left)
    requires forall l :: l in left <==> l in todo && l !in AllShown(h)
    ensures Progressed(Next(h, r), todo)
  {
    DistinctConcat(AllShown(h), Shown(r));
    assert forall l :: l in AllShown(h) + Shown(r) <==> l in AllShown(h) || l in Shown(r);
  }

  lemma {:induction false} RepeatsProgress(key: string, h: History, repo: Repo, request: Request,
                                           seen: map<string, seq<Range>>)
    requires !request.detail.Fold? && Session(key, h, Repeats(repo, request))
    requires HoldsRangesOf(seen, Origin(h), key, repo)
    ensures Progressed(h, ScopeTodo(repo, request, seen))
  {
    if h.Next? {
      var todo, left := ScopeTodo(repo, request, seen), ScopeTodo(repo, request, h.last.seen);
      RepeatsProgress(key, h.before, repo, request, seen);
      RepeatMakesProgress(repo, request, h.last);
      forall l ensures l in left <==> l in todo && l !in AllShown(h.before) {
        TodoShrinks(key, h.before, repo, request, seen, h.last.seen, l);
      }
      ProgressOneMore(h.before, h.last, todo, left);
    }
  }

  // Distinct elements of a set, as many as the set has, are all of it.
  lemma {:induction false} DistinctFill<T>(s: seq<T>, all: set<T>)
    requires NoDuplicates(s) && forall x :: x in s ==> x in all
    ensures |s| <= |all|
    ensures |s| == |all| ==> forall x :: x in all ==> x in s
  {
    if |s| == 0 {
      assert |all| == 0 ==> all == {};
    } else {
      var front, last := s[..|s| - 1], s[|s| - 1];
      assert s == front + [last];
      DistinctOneMore(front, last);
      assert forall x :: x in s <==> x in front || x == last;
      DistinctFill(front, all - {last});
    }
  }

  // Repeating a request that is not a fold shows everything in its scope, each line once,
  // after at most as many runs as there are lines; the next run shows nothing.
  lemma {:induction false} RepeatedRunsFinish(key: string, h: History, repo: Repo, request: Request,
                                              seen: map<string, seq<Range>>)
    requires h.Next? && !request.detail.Fold? && Session(key, h, Repeats(repo, request))
    requires HoldsRangesOf(seen, Origin(h), key, repo)
    ensures NoDuplicates(AllShown(h)) && forall l :: l in AllShown(h) ==> l in ScopeTodo(repo, request, seen)
    ensures Rounds(h.before) >= |ScopeTodo(repo, request, seen)| ==>
              && (forall l :: l in AllShown(h.before) <==> l in ScopeTodo(repo, request, seen))
              && Shown(h.last) == []
  {
    var todo := ScopeTodo(repo, request, seen);
    RepeatsProgress(key, h, repo, request, seen);
    RepeatsProgress(key, h.before, repo, request, seen);
    DistinctFill(AllShown(h.before), todo);
    DistinctConcat(AllShown(h.before), Shown(h.last));
    assert forall l :: l in Shown(h.last) ==> l in AllShown(h);
    assert Shown(h.last) != [] ==> Shown(h.last)[0] in Shown(h.last);
  }
}
