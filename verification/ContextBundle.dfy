// One run of the bounded source-context emitter: which candidate files are looked
// at, which unseen lines of each are chosen, and the sections that show them.
module ContextBundle {
  import opened Wrappers
  import opened Sequences
  import opened Sorting
  import opened ContextRanges
  import opened ContextLedger

  datatype Candidate = Candidate(path: string, source: string, score: Option<int>)

  // A symbol row with the score its name reaches against the query.
  datatype Symbol = Symbol(path: string, start: int, end: int, score: int)

  // The part of an explain result that the emitter reads. Paths are normalized.
  datatype Explained = Explained(
    path: string,
    matched: seq<string>,
    related: seq<(string, int)>,
    hasQuery: bool,
    symbols: seq<Symbol>)

  datatype Detail = Fold | Preview | Full

  datatype Request = Request(explained: Explained, detail: Detail, lineBudget: int, maxItems: int)

  datatype Bundle = Bundle(
    candidates: seq<Candidate>,
    sections: seq<Section>,
    emittedLineCount: int,
    filesEmittedCount: int,
    skippedSeenCount: int,
    unreadableCount: int,
    clippedLineCount: int)

  const MAX_CONTEXT_LINE_CHARS := 500

  // ---- Candidates -----------------------------------------------------------

  predicate FileLike(path: string) {
    !("pkg:" <= path) && !("external:" <= path) && !("parse-error:" <= path)
  }

  function Ranked(e: Explained): seq<Candidate> {
    [Candidate(e.path, "target", None)]
    + seq(|e.matched|, i requires 0 <= i < |e.matched| => Candidate(e.matched[i], "matched", None))
    + seq(|e.related|, i requires 0 <= i < |e.related| => Candidate(e.related[i].0, "related", Some(e.related[i].1)))
  }

  function Paths(rows: seq<Candidate>): set<string> {
    set c | c in rows :: c.path
  }

  lemma {:induction false} PathsOneMore(rows: seq<Candidate>, c: Candidate)
    ensures Paths(rows + [c]) == Paths(rows) + {c.path}
  {
    assert forall r :: r in rows + [c] <==> r in rows || r == c;
  }

  function WithCandidate(rows: seq<Candidate>, c: Candidate, repo: Repo): seq<Candidate> {
    if FileLike(c.path) && c.path in repo && c.path !in Paths(rows) then rows + [c] else rows
  }

  // The first occurrence of every file of the repository, in rank order.
  function Eligible(ranked: seq<Candidate>, repo: Repo): seq<Candidate> {
    if |ranked| == 0 then []
    else WithCandidate(Eligible(ranked[..|ranked| - 1], repo), ranked[|ranked| - 1], repo)
  }

  ghost predicate DistinctPaths(rows: seq<Candidate>) {
    |rows| == 0 || (rows[|rows| - 1].path !in Paths(rows[..|rows| - 1]) && DistinctPaths(rows[..|rows| - 1]))
  }

  lemma {:induction false} DistinctPathsPrefix(rows: seq<Candidate>, n: nat)
    requires DistinctPaths(rows) && n <= |rows|
    ensures DistinctPaths(rows[..n])
    ensures n < |rows| ==> rows[n].path !in Paths(rows[..n])
  {
    if n < |rows| - 1 {
      var front := rows[..|rows| - 1];
      DistinctPathsPrefix(front, n);
      assert front[..n] == rows[..n] && front[n] == rows[n];
    } else if n == |rows| {
      assert rows[..n] == rows;
    } else {
      assert rows[..n] == rows[..|rows| - 1];
    }
  }

  lemma {:induction false} EligibleIsExact(ranked: seq<Candidate>, repo: Repo)
    ensures DistinctPaths(Eligible(ranked, repo))
    ensures forall path :: path in Paths(Eligible(ranked, repo)) <==>
              path in Paths(ranked) && FileLike(path) && path in repo
  {
    if |ranked| > 0 {
      var front, c := ranked[..|ranked| - 1], ranked[|ranked| - 1];
      EligibleIsExact(front, repo);
      var before := Eligible(front, repo);
      assert ranked == front + [c];
      PathsOneMore(front, c);
      PathsOneMore(before, c);
      assert (before + [c])[..|before|] == before;
    }
  }

  lemma {:induction false} EligiblePrefix(ranked: seq<Candidate>, n: nat, repo: Repo)
    requires n <= |ranked|
    ensures Eligible(ranked[..n], repo) <= Eligible(ranked, repo)
    ensures Take(Eligible(ranked, repo), |Eligible(ranked[..n], repo)|) == Eligible(ranked[..n], repo)
  {
    if n < |ranked| {
      assert ranked[..|ranked| - 1][..n] == ranked[..n];
      EligiblePrefix(ranked[..|ranked| - 1], n, repo);
    } else {
      assert ranked[..n] == ranked;
    }
  }

  // The limit is tested after a row is added: at least one row always gets through.
  function CandidateRows(e: Explained, repo: Repo, maxItems: int): seq<Candidate> {
    Take(Eligible(Ranked(e), repo), if maxItems < 1 then 1 else maxItems)
  }

  lemma {:induction false} CandidateRowsAreFiles(e: Explained, repo: Repo, maxItems: int)
    ensures DistinctPaths(CandidateRows(e, repo, maxItems))
    ensures forall c :: c in CandidateRows(e, repo, maxItems) ==> c.path in repo
  {
    EligibleIsExact(Ranked(e), repo);
    var all, rows := Eligible(Ranked(e), repo), CandidateRows(e, repo, maxItems);
    DistinctPathsPrefix(all, |rows|);
    assert rows == all[..|rows|];
    forall c | c in all
      ensures c.path in repo
    {
      assert c.path in Paths(all);
    }
  }

  // context_candidate_rows
  method ContextCandidateRows(e: Explained, repo: Repo, maxItems: int) returns (rows: seq<Candidate>)
    ensures rows == CandidateRows(e, repo, maxItems)
  {
    rows := FirstEligible(Ranked(e), repo, maxItems);
  }

  method FirstEligible(ranked: seq<Candidate>, repo: Repo, maxItems: int) returns (rows: seq<Candidate>)
    ensures rows == Take(Eligible(ranked, repo), if maxItems < 1 then 1 else maxItems)
  {
    rows := [];
    var seen: set<string> := {};
    for i := 0 to |ranked|
      invariant rows == Eligible(ranked[..i], repo) && seen == Paths(rows)
      invariant |rows| < if maxItems < 1 then 1 else maxItems
    {
      var c := ranked[i];
      assert Eligible(ranked[..i + 1], repo) == WithCandidate(rows, c, repo) by {
        assert ranked[..i + 1][..i] == ranked[..i];
      }
      if c.path in seen || !FileLike(c.path) || c.path !in repo {
        continue;
      }
      PathsOneMore(rows, c);
      seen := seen + {c.path};
      rows := rows + [c];
      if |rows| >= maxItems {
        EligiblePrefix(ranked, i + 1, repo);
        return;
      }
    }
    assert ranked[..|ranked|] == ranked;
  }

  // ---- Choosing the lines of one file ---------------------------------------

  predicate BetterSymbol(a: Symbol, b: Symbol) {
    a.score > b.score || (a.score == b.score && a.start <= b.start)
  }

  function MatchingSymbols(symbols: seq<Symbol>, path: string): seq<Symbol> {
    if |symbols| == 0 then []
    else
      var front, s := MatchingSymbols(symbols[..|symbols| - 1], path), symbols[|symbols| - 1];
      if s.path == path && s.score > 0 then front + [s] else front
  }

  // result_symbol_rows
  method ResultSymbolRows(symbols: seq<Symbol>, path: string) returns (rows: seq<Symbol>)
    ensures rows == Sort(MatchingSymbols(symbols, path), BetterSymbol)
    ensures multiset(rows) == multiset(MatchingSymbols(symbols, path))
    ensures forall i, j :: 0 <= i < j < |rows| ==>
              rows[i].score > rows[j].score || (rows[i].score == rows[j].score && rows[i].start <= rows[j].start)
    ensures forall score, start :: Alike(rows, score, start) == Alike(MatchingSymbols(symbols, path), score, start)
  {
    rows := [];
    for i := 0 to |symbols|
      invariant rows == MatchingSymbols(symbols[..i], path)
    {
      assert symbols[..i + 1][..i] == symbols[..i];
      if symbols[i].path != path {
        continue;
      }
      if symbols[i].score > 0 {
        rows := rows + [symbols[i]];
      }
    }
    assert symbols[..|symbols|] == symbols;
    RankingIsSorted(rows);
    rows := Sort(rows, BetterSymbol);
  }

  // The symbols of that score and that start, in order.
  ghost function Alike(symbols: seq<Symbol>, score: int, start: int): seq<Symbol> {
    if |symbols| == 0 then []
    else
      var front, last := Alike(symbols[..|symbols| - 1], score, start), symbols[|symbols| - 1];
      if last.score == score && last.start == start then front + [last] else front
  }

  lemma {:induction false} AlikeAreTies(symbols: seq<Symbol>, s: Symbol)
    ensures Ties(symbols, s, BetterSymbol) == Alike(symbols, s.score, s.start)
  {
    if |symbols| > 0 {
      AlikeAreTies(symbols[..|symbols| - 1], s);
    }
  }

  // Symbols are ranked by falling score and then by start, and those with the same score
  // and start keep their order.
  lemma {:induction false} RankingIsSorted(symbols: seq<Symbol>)
    ensures
      var rows := Sort(symbols, BetterSymbol);
      && multiset(rows) == multiset(symbols)
      && (forall i, j :: 0 <= i < j < |rows| ==>
            rows[i].score > rows[j].score || (rows[i].score == rows[j].score && rows[i].start <= rows[j].start))
      && (forall score, start :: Alike(rows, score, start) == Alike(symbols, score, start))
  {
    var rows := Sort(symbols, BetterSymbol);
    SortPermutes(symbols, BetterSymbol);
    SortSorts(symbols, BetterSymbol);
    forall i, j | 0 <= i < j < |rows|
      ensures rows[i].score > rows[j].score || (rows[i].score == rows[j].score && rows[i].start <= rows[j].start)
    {
      assert BetterSymbol(rows[i], rows[j]);
    }
    forall score, start
      ensures Alike(rows, score, start) == Alike(symbols, score, start)
    {
      var s := Symbol("", start, start, score);
      SortKeepsTies(symbols, s, BetterSymbol);
      AlikeAreTies(rows, s);
      AlikeAreTies(symbols, s);
    }
  }

  // Of a path match exactly the symbols that name it and score, each as often as it is given.
  lemma {:induction false} MatchingSymbolsMean(symbols: seq<Symbol>, path: string, s: Symbol)
    ensures multiset(MatchingSymbols(symbols, path))[s] == if s.path == path && s.score > 0 then multiset(symbols)[s] else 0
  {
    if |symbols| > 0 {
      assert symbols == symbols[..|symbols| - 1] + [symbols[|symbols| - 1]];
      MatchingSymbolsMean(symbols[..|symbols| - 1], path, s);
    }
  }

  // The window around a symbol, cut to the file.
  function Window(symbol: Symbol, lineCount: nat): seq<int> {
    Interval(if symbol.start - 2 < 1 then 1 else symbol.start - 2,
             if lineCount < symbol.end + 2 then lineCount else symbol.end + 2)
  }

  // numbers, extended by what preferred adds that is neither chosen nor seen.
  function Extended(numbers: seq<int>, preferred: seq<int>, seen: seq<Range>): seq<int> {
    if |preferred| == 0 then numbers
    else
      var front := Extended(numbers, preferred[..|preferred| - 1], seen);
      var n := preferred[|preferred| - 1];
      if n !in front && !Covered(seen, n) then front + [n] else front
  }

  // The numbers after the first symbols; the rest is not looked at once the limit is reached.
  function SymbolNumbers(symbols: seq<Symbol>, lineCount: nat, seen: seq<Range>, limit: int): seq<int> {
    if |symbols| == 0 then []
    else
      var front := SymbolNumbers(symbols[..|symbols| - 1], lineCount, seen, limit);
      if |front| >= limit then front
      else Take(Extended(front, Window(symbols[|symbols| - 1], lineCount), seen), limit)
  }

  // symbols are the ranked symbol rows of the file when the run is scoped to a query.
  function ChosenNumbers(symbols: seq<Symbol>, lineCount: nat, seen: seq<Range>, limit: int): seq<int> {
    if symbols == [] then Take(Unseen(lineCount, seen), limit)
    else SymbolNumbers(symbols, lineCount, seen, limit)
  }

  ghost predicate GoodChoice(numbers: seq<int>, lineCount: nat, seen: seq<Range>) {
    && NoDuplicates(numbers)
    && (forall n :: n in numbers ==> 1 <= n <= lineCount && !Covered(seen, n))
  }

  lemma {:induction false} ExtendedIsGood(numbers: seq<int>, preferred: seq<int>, lineCount: nat, seen: seq<Range>)
    requires GoodChoice(numbers, lineCount, seen)
    requires forall n :: n in preferred ==> 1 <= n <= lineCount
    ensures GoodChoice(Extended(numbers, preferred, seen), lineCount, seen)
    ensures forall n :: n in Extended(numbers, preferred, seen) <==>
              n in numbers || (n in preferred && !Covered(seen, n))
  {
    if |preferred| > 0 {
      var front, last := preferred[..|preferred| - 1], preferred[|preferred| - 1];
      assert preferred == front + [last];
      assert forall n :: n in preferred <==> n in front || n == last;
      ExtendedIsGood(numbers, front, lineCount, seen);
      DistinctOneMore(Extended(numbers, front, seen), last);
    }
  }

  lemma {:induction false} TakeIsGood(numbers: seq<int>, lineCount: nat, seen: seq<Range>, limit: int)
    requires GoodChoice(numbers, lineCount, seen) && limit > 0
    ensures GoodChoice(Take(numbers, limit), lineCount, seen) && |Take(numbers, limit)| <= limit
  {
    DistinctTake(numbers, limit);
  }

  lemma {:induction false} SymbolNumbersAreGood(symbols: seq<Symbol>, lineCount: nat, seen: seq<Range>, limit: int)
    requires limit > 0
    ensures GoodChoice(SymbolNumbers(symbols, lineCount, seen, limit), lineCount, seen)
    ensures |SymbolNumbers(symbols, lineCount, seen, limit)| <= limit
  {
    if |symbols| > 0 {
      var front, last := symbols[..|symbols| - 1], symbols[|symbols| - 1];
      SymbolNumbersAreGood(front, lineCount, seen, limit);
      var window := Window(last, lineCount);
      ExtendedIsGood(SymbolNumbers(front, lineCount, seen, limit), window, lineCount, seen);
      TakeIsGood(Extended(SymbolNumbers(front, lineCount, seen, limit), window, seen), lineCount, seen, limit);
    }
  }

  // Whatever the scope: distinct unseen lines inside the file, at most limit of them.
  lemma {:induction false} ChosenNumbersAreGood(symbols: seq<Symbol>, lineCount: nat, seen: seq<Range>, limit: int)
    requires limit > 0
    ensures GoodChoice(ChosenNumbers(symbols, lineCount, seen, limit), lineCount, seen)
    ensures |ChosenNumbers(symbols, lineCount, seen, limit)| <= limit
  {
    if symbols == [] {
      UnseenMembers(lineCount, seen);
      UnseenIsDistinct(lineCount, seen);
      TakeIsGood(Unseen(lineCount, seen), lineCount, seen, limit);
    } else {
      SymbolNumbersAreGood(symbols, lineCount, seen, limit);
    }
  }

  // The choice loop of build_context_bundle for one file.
  method ChooseNumbers(symbols: seq<Symbol>, lineCount: nat, seen: seq<Range>, limit: int) returns (numbers: seq<int>)
    requires limit > 0
    ensures numbers == ChosenNumbers(symbols, lineCount, seen, limit)
  {
    numbers := [];
    var symbolScoped := symbols != [];
    for i := 0 to |symbols|
      invariant numbers == SymbolNumbers(symbols[..i], lineCount, seen, limit) && |numbers| < limit
    {
      assert symbols[..i + 1][..i] == symbols[..i];
      var preferred := Window(symbols[i], lineCount);
      ghost var before := numbers;
      for k := 0 to |preferred|
        invariant numbers == Extended(before, preferred[..k], seen)
      {
        assert preferred[..k + 1][..k] == preferred[..k];
        var number := preferred[k];
        if number !in numbers && !Covered(seen, number) {
          numbers := numbers + [number];
        }
      }
      assert preferred[..|preferred|] == preferred;
      if |numbers| >= limit {
        numbers := numbers[..limit];
        FullPrefixStays(symbols, i + 1, lineCount, seen, limit);
        break;
      }
    }
    assert symbols[..|symbols|] == symbols;
    if numbers == [] && !symbolScoped {
      numbers := UnseenLineNumbers(lineCount, seen, limit);
    }
  }

  lemma {:induction false} FullPrefixStays(symbols: seq<Symbol>, i: nat, lineCount: nat, seen: seq<Range>, limit: int)
    requires i <= |symbols|
    requires |SymbolNumbers(symbols[..i], lineCount, seen, limit)| >= limit
    ensures SymbolNumbers(symbols, lineCount, seen, limit) == SymbolNumbers(symbols[..i], lineCount, seen, limit)
  {
    if i == |symbols| {
      assert symbols[..i] == symbols;
    } else {
      assert symbols[..|symbols| - 1][..i] == symbols[..i];
      FullPrefixStays(symbols[..|symbols| - 1], i, lineCount, seen, limit);
    }
  }
}
