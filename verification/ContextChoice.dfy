// What a run looks at first: the order of its candidates, and of the lines chosen in a file.
module ContextChoice {
  import opened Wrappers
  import opened Sequences
  import opened ContextRanges
  import opened ContextLedger
  import opened ContextBundle

  // ---- Candidates --------------------------------------------------------------------------

  // Entry k of the ranking: the requested path, then the matched ones, then the related ones.
  ghost function RankEntry(e: Explained, k: nat): Candidate
    requires k < 1 + |e.matched| + |e.related|
  {
    if k == 0 then Candidate(e.path, "target", None)
    else if k <= |e.matched| then Candidate(e.matched[k - 1], "matched", None)
    else
      var row := e.related[k - 1 - |e.matched|];
      Candidate(row.0, "related", Some(row.1))
  }

  ghost predicate Begins(path: string, prefix: string) {
    exists rest :: path == prefix + rest
  }

  ghost predicate IsFile(repo: Repo, path: string) {
    && path in repo
    && !Begins(path, "pkg:") && !Begins(path, "external:") && !Begins(path, "parse-error:")
  }

  lemma {:induction false} BeginsMeans(path: string, prefix: string)
    ensures Begins(path, prefix) <==> prefix <= path
  {
    if prefix <= path {
      assert path == prefix + path[|prefix|..];
    }
  }

  lemma {:induction false} IsFileMeans(repo: Repo, path: string)
    ensures IsFile(repo, path) <==> path in repo && FileLike(path)
  {
    BeginsMeans(path, "pkg:");
    BeginsMeans(path, "external:");
    BeginsMeans(path, "parse-error:");
  }

  // The first entry for its path, and a file.
  ghost predicate Counts(repo: Repo, ranked: seq<Candidate>, k: nat) {
    && k < |ranked| && IsFile(repo, ranked[k].path)
    && forall i :: 0 <= i < k ==> ranked[i].path != ranked[k].path
  }

  // at are the places of these entries, in order, and rows the entries there.
  ghost predicate Picks(repo: Repo, ranked: seq<Candidate>, at: seq<nat>, rows: seq<Candidate>) {
    && (forall i, j :: 0 <= i < j < |at| ==> at[i] < at[j])
    && (forall k: nat :: k in at <==> Counts(repo, ranked, k))
    && |rows| == |at|
    && (forall i :: 0 <= i < |at| && at[i] < |ranked| ==> rows[i] == ranked[at[i]])
  }

  lemma {:induction false} PicksOneMore(repo: Repo, front: seq<Candidate>, c: Candidate, at: seq<nat>, rows: seq<Candidate>,
                                        at': seq<nat>)
    requires Picks(repo, front, at, rows)
    requires at' == if IsFile(repo, c.path) && c.path !in Paths(front) then at + [|front|] else at
    ensures Picks(repo, front + [c], at', if IsFile(repo, c.path) && c.path !in Paths(front) then rows + [c] else rows)
  {
    var ranked := front + [c];
    forall i | 0 <= i < |at|
      ensures at[i] < |front|
    {
      assert at[i] in at;
    }
    forall k: nat
      ensures Counts(repo, ranked, k) <==>
              Counts(repo, front, k) || (k == |front| && IsFile(repo, c.path) && c.path !in Paths(front))
    {
      if k == |front| && c.path in Paths(front) {
        var d :| d in front && d.path == c.path;
        var i :| 0 <= i < |front| && front[i] == d;
        assert ranked[i].path == ranked[k].path;
      }
      if k < |front| {
        assert forall i :: 0 <= i <= k ==> ranked[i] == front[i];
      }
    }
  }

  lemma {:induction false} EligibleOneMore(repo: Repo, front: seq<Candidate>, c: Candidate)
    ensures Eligible(front + [c], repo) ==
            if IsFile(repo, c.path) && c.path !in Paths(front) then Eligible(front, repo) + [c] else Eligible(front, repo)
  {
    assert (front + [c])[..|front|] == front;
    IsFileMeans(repo, c.path);
    EligibleIsExact(front, repo);
    assert c.path in Paths(Eligible(front, repo)) <==> c.path in Paths(front) && FileLike(c.path) && c.path in repo;
  }

  lemma {:induction false} EligiblePicks(repo: Repo, ranked: seq<Candidate>) returns (at: seq<nat>)
    ensures Picks(repo, ranked, at, Eligible(ranked, repo))
  {
    at := [];
    if |ranked| > 0 {
      var front, c := ranked[..|ranked| - 1], ranked[|ranked| - 1];
      assert ranked == front + [c];
      var before := EligiblePicks(repo, front);
      at := if IsFile(repo, c.path) && c.path !in Paths(front) then before + [|front|] else before;
      EligibleOneMore(repo, front, c);
      PicksOneMore(repo, front, c, before, Eligible(front, repo), at);
    }
  }

  lemma {:induction false} RankedMeans(e: Explained)
    ensures |Ranked(e)| == 1 + |e.matched| + |e.related|
    ensures forall k :: 0 <= k < |Ranked(e)| ==> Ranked(e)[k] == RankEntry(e, k)
  {
  }

  // The candidates are the first max_items files of the ranking, and one at least if there is
  // any, each where it occurs first: the requested path before all others.
  lemma {:induction false} CandidatesMean(e: Explained, repo: Repo, maxItems: int) returns (at: seq<nat>)
    ensures forall i, j :: 0 <= i < j < |at| ==> at[i] < at[j]
    ensures forall k: nat :: k in at <==>
              && k < 1 + |e.matched| + |e.related| && IsFile(repo, RankEntry(e, k).path)
              && forall i: nat :: i < k ==> RankEntry(e, i).path != RankEntry(e, k).path
    ensures
      var rows := CandidateRows(e, repo, maxItems);
      && |rows| == (if |at| <= maxItems || |at| <= 1 then |at| else if maxItems < 1 then 1 else maxItems)
      && forall i :: 0 <= i < |rows| && at[i] < 1 + |e.matched| + |e.related| ==> rows[i] == RankEntry(e, at[i])
  {
    at := EligiblePicks(repo, Ranked(e));
    RankedMeans(e);
    forall k: nat
      ensures Counts(repo, Ranked(e), k) <==>
              && k < 1 + |e.matched| + |e.related| && IsFile(repo, RankEntry(e, k).path)
              && forall i: nat :: i < k ==> RankEntry(e, i).path != RankEntry(e, k).path
    {
    }
  }

  // ---- The lines of one file -----------------------------------------------------------------

  // A line of the file within two lines of the symbol.
  ghost predicate Near(s: Symbol, lineCount: nat, n: int) {
    1 <= n <= lineCount && s.start - 2 <= n <= s.end + 2
  }

  // symbols[i] is the best symbol that the line is near to.
  ghost predicate BestNear(symbols: seq<Symbol>, lineCount: nat, n: int, i: nat) {
    && i < |symbols| && Near(symbols[i], lineCount, n)
    && forall k :: 0 <= k < i ==> !Near(symbols[k], lineCount, n)
  }

  ghost predicate NearAny(symbols: seq<Symbol>, lineCount: nat, n: int) {
    exists i: nat :: BestNear(symbols, lineCount, n, i)
  }

  // m is near to a better symbol than n, or is the smaller one near to the same.
  ghost predicate Precedes(symbols: seq<Symbol>, lineCount: nat, m: int, n: int) {
    exists i: nat, j: nat ::
      && BestNear(symbols, lineCount, m, i) && BestNear(symbols, lineCount, n, j)
      && (i < j || (i == j && m < n))
  }

  // What would be chosen without a limit.
  ghost function AllNumbers(symbols: seq<Symbol>, lineCount: nat, seen: seq<Range>): seq<int> {
    if |symbols| == 0 then []
    else
      Extended(AllNumbers(symbols[..|symbols| - 1], lineCount, seen), Window(symbols[|symbols| - 1], lineCount), seen)
  }

  ghost predicate Rising(s: seq<int>, start: nat) {
    forall a, b :: start <= a < b < |s| ==> s[a] < s[b]
  }

  // Numbers are extended by new ones that were not seen, in their order.
  lemma {:induction false} ExtendedRises(numbers: seq<int>, preferred: seq<int>, seen: seq<Range>)
    requires Rising(preferred, 0)
    ensures
      var extended := Extended(numbers, preferred, seen);
      && numbers <= extended && Rising(extended, |numbers|)
      && (forall n :: n in extended <==> n in numbers || (n in preferred && !Covered(seen, n)))
      && (forall a :: |numbers| <= a < |extended| ==> extended[a] in preferred && extended[a] !in numbers)
  {
    if |preferred| > 0 {
      var front, last := preferred[..|preferred| - 1], preferred[|preferred| - 1];
      assert preferred == front + [last];
      ExtendedRises(numbers, front, seen);
      assert forall n :: n in front ==> n < last;
    }
  }

  lemma {:induction false} SymbolNumbersAreTaken(symbols: seq<Symbol>, lineCount: nat, seen: seq<Range>, limit: int)
    requires limit > 0
    ensures SymbolNumbers(symbols, lineCount, seen, limit) == Take(AllNumbers(symbols, lineCount, seen), limit)
  {
    if |symbols| > 0 {
      var front, window := symbols[..|symbols| - 1], Window(symbols[|symbols| - 1], lineCount);
      SymbolNumbersAreTaken(front, lineCount, seen, limit);
      ExtendedRises(AllNumbers(front, lineCount, seen), window, seen);
    }
  }

  lemma {:induction false} WindowIsNear(s: Symbol, lineCount: nat)
    ensures Rising(Window(s, lineCount), 0)
    ensures forall n :: n in Window(s, lineCount) <==> Near(s, lineCount, n)
  {
    IntervalMembers(if s.start - 2 < 1 then 1 else s.start - 2, if lineCount < s.end + 2 then lineCount else s.end + 2);
  }

  lemma {:induction false} BestNearStays(symbols: seq<Symbol>, lineCount: nat, n: int)
    requires symbols != []
    ensures
      var front, last := symbols[..|symbols| - 1], symbols[|symbols| - 1];
      && (forall i: nat :: BestNear(front, lineCount, n, i) ==> BestNear(symbols, lineCount, n, i))
      && (NearAny(symbols, lineCount, n) <==> NearAny(front, lineCount, n) || Near(last, lineCount, n))
      && (!NearAny(front, lineCount, n) && Near(last, lineCount, n) ==> BestNear(symbols, lineCount, n, |symbols| - 1))
  {
    var front, last := symbols[..|symbols| - 1], symbols[|symbols| - 1];
    forall i: nat
      ensures BestNear(front, lineCount, n, i) ==> BestNear(symbols, lineCount, n, i)
      ensures BestNear(symbols, lineCount, n, i) && i < |front| ==> BestNear(front, lineCount, n, i)
    {
    }
    if i: nat :| BestNear(symbols, lineCount, n, i) {
      assert i < |front| ==> BestNear(front, lineCount, n, i);
      assert i >= |front| ==> symbols[i] == last;
    }
    if !NearAny(front, lineCount, n) && Near(last, lineCount, n) {
      NoneNear(front, lineCount, n, |front|);
      assert BestNear(symbols, lineCount, n, |symbols| - 1);
    }
  }

  lemma {:induction false} NoneNear(symbols: seq<Symbol>, lineCount: nat, n: int, end: nat)
    requires !NearAny(symbols, lineCount, n) && end <= |symbols|
    ensures forall k :: 0 <= k < end ==> !Near(symbols[k], lineCount, n)
  {
    if end > 0 {
      NoneNear(symbols, lineCount, n, end - 1);
      assert !BestNear(symbols, lineCount, n, end - 1);
    }
  }

  // Without a limit the unseen lines near to symbols are all chosen, best first.
  lemma {:induction false} AllNumbersMean(symbols: seq<Symbol>, lineCount: nat, seen: seq<Range>)
    ensures
      var all := AllNumbers(symbols, lineCount, seen);
      && (forall n :: n in all <==> NearAny(symbols, lineCount, n) && !Covered(seen, n))
      && (forall a, b :: 0 <= a < b < |all| ==> Precedes(symbols, lineCount, all[a], all[b]))
  {
    if |symbols| > 0 {
      var front, last := symbols[..|symbols| - 1], symbols[|symbols| - 1];
      var before, all := AllNumbers(front, lineCount, seen), AllNumbers(symbols, lineCount, seen);
      AllNumbersMean(front, lineCount, seen);
      WindowIsNear(last, lineCount);
      ExtendedRises(before, Window(last, lineCount), seen);
      forall n {
        BestNearStays(symbols, lineCount, n);
      }
      forall a, b | 0 <= a < b < |all|
        ensures Precedes(symbols, lineCount, all[a], all[b])
      {
        PrecedesOneMore(symbols, lineCount, seen, before, all, a, b);
      }
    }
  }

  lemma {:induction false} PrecedesOneMore(symbols: seq<Symbol>, lineCount: nat, seen: seq<Range>,
                                           before: seq<int>, all: seq<int>, a: nat, b: nat)
    requires symbols != [] && before <= all && Rising(all, |before|) && a < b < |all|
    requires forall n :: n in before <==> NearAny(symbols[..|symbols| - 1], lineCount, n) && !Covered(seen, n)
    requires forall i, j :: 0 <= i < j < |before| ==> Precedes(symbols[..|symbols| - 1], lineCount, before[i], before[j])
    requires forall k :: |before| <= k < |all| ==>
               Near(symbols[|symbols| - 1], lineCount, all[k]) && !Covered(seen, all[k]) && all[k] !in before
    ensures Precedes(symbols, lineCount, all[a], all[b])
  {
    var front := symbols[..|symbols| - 1];
    BestNearStays(symbols, lineCount, all[a]);
    BestNearStays(symbols, lineCount, all[b]);
    if b < |before| {
      assert Precedes(front, lineCount, before[a], before[b]);
    } else if a < |before| {
      assert before[a] in before;
      var i: nat :| BestNear(front, lineCount, all[a], i);
      assert BestNear(symbols, lineCount, all[a], i) && BestNear(symbols, lineCount, all[b], |symbols| - 1);
    } else {
      assert BestNear(symbols, lineCount, all[a], |symbols| - 1) && BestNear(symbols, lineCount, all[b], |symbols| - 1);
    }
  }

  // The order in which lines are chosen: by their best symbol and then by number, or by number
  // alone if no symbol scopes the file.
  ghost predicate ComesFirst(symbols: seq<Symbol>, lineCount: nat, m: int, n: int) {
    if symbols == [] then m < n else Precedes(symbols, lineCount, m, n)
  }

  ghost predicate Choosable(symbols: seq<Symbol>, lineCount: nat, seen: seq<Range>, n: int) {
    1 <= n <= lineCount && !Covered(seen, n) && (symbols == [] || NearAny(symbols, lineCount, n))
  }

  lemma {:induction false} UnseenRises(lineCount: nat, seen: seq<Range>)
    ensures Rising(Unseen(lineCount, seen), 0)
  {
    if lineCount > 0 {
      UnseenRises(lineCount - 1, seen);
      UnseenMembers(lineCount - 1, seen);
      var before := Unseen(lineCount - 1, seen);
      assert forall a :: 0 <= a < |before| ==> before[a] in before;
    }
  }

  lemma {:induction false} TakenFirst(all: seq<int>, limit: int, symbols: seq<Symbol>, lineCount: nat)
    requires limit > 0
    requires forall a, b :: 0 <= a < b < |all| ==> ComesFirst(symbols, lineCount, all[a], all[b])
    ensures forall a, b :: 0 <= a < b < |Take(all, limit)| ==> ComesFirst(symbols, lineCount, Take(all, limit)[a], Take(all, limit)[b])
    ensures forall n :: n in all && n !in Take(all, limit) ==>
              |Take(all, limit)| == limit
              && forall m :: m in Take(all, limit) ==> ComesFirst(symbols, lineCount, m, n)
  {
    var taken := Take(all, limit);
    forall n | n in all && n !in taken
      ensures |taken| == limit && forall m :: m in taken ==> ComesFirst(symbols, lineCount, m, n)
    {
      assert forall c :: 0 <= c < |taken| ==> taken[c] == all[c] && taken[c] in taken;
      var b :| 0 <= b < |all| && all[b] == n;
      forall m | m in taken
        ensures ComesFirst(symbols, lineCount, m, n)
      {
        var a :| 0 <= a < |taken| && taken[a] == m;
        assert all[a] == m;
      }
    }
  }

  // The chosen lines are the first of all that can be chosen, as many as the limit allows.
  lemma {:induction false} ChosenNumbersAreFirst(symbols: seq<Symbol>, lineCount: nat, seen: seq<Range>, limit: int)
    requires limit > 0
    ensures
      var numbers := ChosenNumbers(symbols, lineCount, seen, limit);
      && (forall n :: n in numbers ==> Choosable(symbols, lineCount, seen, n))
      && (forall a, b :: 0 <= a < b < |numbers| ==> ComesFirst(symbols, lineCount, numbers[a], numbers[b]))
      && (forall n :: Choosable(symbols, lineCount, seen, n) && n !in numbers ==>
            |numbers| == limit && forall m :: m in numbers ==> ComesFirst(symbols, lineCount, m, n))
  {
    var all := if symbols == [] then Unseen(lineCount, seen) else AllNumbers(symbols, lineCount, seen);
    if symbols == [] {
      UnseenMembers(lineCount, seen);
      UnseenRises(lineCount, seen);
    } else {
      AllNumbersMean(symbols, lineCount, seen);
      SymbolNumbersAreTaken(symbols, lineCount, seen, limit);
    }
    assert ChosenNumbers(symbols, lineCount, seen, limit) == Take(all, limit);
    TakenFirst(all, limit, symbols, lineCount);
    assert forall n :: n in Take(all, limit) ==> n in all;
  }
}
