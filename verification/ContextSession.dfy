// Whole sessions: each run reads the ledger, emits a bundle and appends what it emitted.
module ContextSession {
  import opened Wrappers
  import opened Sequences
  import opened ContextRanges
  import opened ContextLedger
  import opened ContextBundle
  import opened ContextRun
  import opened ContextSafety

  // One run: the repository it found, its request, the ranges it read and its bundle.
  datatype Round = Round(repo: Repo, request: Request, seen: map<string, seq<Range>>, bundle: Bundle)

  // The rounds that followed one another on one ledger, from the ledger they started with.
  datatype History = Start(ledger: seq<LedgerLine>) | Next(before: History, last: Round)

  function Origin(h: History): seq<LedgerLine> {
    if h.Start? then h.ledger else Origin(h.before)
  }

  // The ledger after the rounds.
  function Ledger(key: string, h: History): seq<LedgerLine> {
    if h.Start? then h.ledger
    else Appended(Ledger(key, h.before), h.last.bundle.sections, key, h.last.repo)
  }

  // Every round is lawful and read the ledger the rounds before it left. Nothing else ties
  // the rounds together: files, query, detail and budget may change from run to run.
  ghost predicate Session(key: string, h: History, lawful: Round -> bool) {
    h.Next? ==>
      && Session(key, h.before, lawful)
      && HoldsRangesOf(h.last.seen, Ledger(key, h.before), key, h.last.repo)
      && lawful(h.last)
  }

  // The bundle of the round is what build_context_bundle returns.
  ghost predicate IsRun(round: Round) {
    round.request.lineBudget > 0 && round.bundle == BundleOf(round.repo, round.request, round.seen)
  }

  // The context command: read the ledger, build the bundle, append it to the ledger.
  method RunOnce(ledger: seq<LedgerLine>, key: string, repo: Repo, explained: Explained, detail: string,
                 lineBudget: int, maxItems: int, ghost h: History)
    returns (r: Result<Bundle, string>, ledger': seq<LedgerLine>, ghost h': History)
    requires Session(key, h, IsRun) && ledger == Ledger(key, h)
    ensures r.Ok? <==> ParseDetail(detail).Some? && lineBudget > 0
    ensures r.Error? ==> ledger' == ledger && h' == h
    ensures r.Ok? ==>
              && h'.Next? && h'.before == h && h'.last.repo == repo && h'.last.bundle == r.value
              && h'.last.request == Request(explained, ParseDetail(detail).value, lineBudget, maxItems)
    ensures Session(key, h', IsRun) && ledger' == Ledger(key, h')
  {
    var seen := ReadContextLedger(Some(ledger), key, repo);
    r := BuildContextBundle(repo, explained, detail, lineBudget, seen, maxItems);
    if r.Error? {
      return r, ledger, h;
    }
    ledger' := AppendContextLedger(r.value.sections, ledger, key, repo);
    h' := Next(h, Round(repo, Request(explained, ParseDetail(detail).value, lineBudget, maxItems), seen, r.value));
  }

  function Shown(round: Round): seq<SourceLine> {
    Emitted(round.bundle.sections)
  }

  ghost predicate Happened(h: History, round: Round) {
    h.Next? && (h.last == round || Happened(h.before, round))
  }

  // Line l was emitted in one of the rounds, when its file had the content it has in repo.
  ghost predicate ShownBefore(h: History, repo: Repo, l: SourceLine) {
    h.Next? && ((SameContent(h.last.repo, repo, l.path) && l in Shown(h.last)) || ShownBefore(h.before, repo, l))
  }

  ghost predicate LedgerHides(ledger: seq<LedgerLine>, key: string, repo: Repo, l: SourceLine) {
    Covered(SeenRanges(ledger, key, repo, l.path), l.number)
  }

  // What the session laws need of a round: it shows lines of files, none twice and none seen.
  ghost predicate IsSafe(round: Round) {
    && ProperSections(round.bundle.sections)
    && NoDuplicates(Shown(round))
    && forall l :: l in Shown(round) ==> InFile(round.repo, l) && !Hidden(round.seen, l)
  }

  lemma {:induction false} RunsAreSafe()
    ensures forall r :: IsRun(r) ==> IsSafe(r)
  {
    forall r | IsRun(r)
      ensures IsSafe(r)
    {
      BundlesAreSafe(r.repo, r.request, r.seen);
    }
  }

  lemma {:induction false} SessionWeakens(key: string, h: History, lawful: Round -> bool, lawful': Round -> bool)
    requires Session(key, h, lawful)
    requires forall r :: lawful(r) ==> lawful'(r)
    ensures Session(key, h, lawful')
  {
    if h.Next? {
      SessionWeakens(key, h.before, lawful, lawful');
    }
  }

  // After any session the ledger hides exactly what it hid at the start and what the
  // session emitted from files whose content is still the same.
  lemma {:induction false} LedgerIsExact(key: string, h: History, repo: Repo, l: SourceLine)
    requires Session(key, h, IsSafe)
    ensures LedgerHides(Ledger(key, h), key, repo, l) <==>
            LedgerHides(Origin(h), key, repo, l) || ShownBefore(h, repo, l)
  {
    if h.Next? {
      LedgerIsExact(key, h.before, repo, l);
      AppendMarksExactlyTheEmitted(Ledger(key, h.before), h.last.bundle.sections, key, h.last.repo,
                                   repo, l.path, l.number);
    }
  }

  lemma {:induction false} HappenedMeansShown(h: History, earlier: Round, repo: Repo, l: SourceLine)
    requires Happened(h, earlier) && SameContent(earlier.repo, repo, l.path) && l in Shown(earlier)
    ensures ShownBefore(h, repo, l)
  {
    if h.last != earlier {
      HappenedMeansShown(h.before, earlier, repo, l);
    }
  }

  // No line is emitted twice. A run shows a line that an earlier run of the session showed
  // only if the file was edited in between, and no run shows a line twice.
  lemma {:induction false} NothingIsShownTwice(key: string, h: History, earlier: Round, l: SourceLine)
    requires h.Next? && Session(key, h, IsRun) && Happened(h.before, earlier)
    requires l in Shown(earlier) && l in Shown(h.last)
    ensures !SameContent(earlier.repo, h.last.repo, l.path)
    ensures NoDuplicates(Shown(h.last))
  {
    RunsAreSafe();
    SessionWeakens(key, h, IsRun, IsSafe);
    NoSafeRoundRepeats(key, h, earlier, l);
  }

  lemma {:induction false} NoSafeRoundRepeats(key: string, h: History, earlier: Round, l: SourceLine)
    requires h.Next? && Session(key, h, IsSafe) && Happened(h.before, earlier)
    requires l in Shown(earlier) && l in Shown(h.last)
    ensures !SameContent(earlier.repo, h.last.repo, l.path)
    ensures NoDuplicates(Shown(h.last))
  {
    if SameContent(earlier.repo, h.last.repo, l.path) {
      HappenedMeansShown(h.before, earlier, h.last.repo, l);
      LedgerIsExact(key, h.before, h.last.repo, l);
    }
  }

  // ---- Full runs exhaust the candidates ------------------------------------------

  function Remaining(lines: seq<SourceLine>, seen: map<string, seq<Range>>): seq<SourceLine> {
    if |lines| == 0 then []
    else
      var front, last := Remaining(lines[..|lines| - 1], seen), lines[|lines| - 1];
      if Hidden(seen, last) then front else front + [last]
  }

  function LinesAt(repo: Repo, path: string): seq<SourceLine> {
    if Readable(repo, path) then Located(path, Interval(1, |repo[path].lines|)) else []
  }

  // Every line of every readable candidate, in rank order.
  function CandidateLines(repo: Repo, rows: seq<Candidate>): seq<SourceLine> {
    if |rows| == 0 then []
    else
      CandidateLines(repo, rows[..|rows| - 1]) + LinesAt(repo, rows[|rows| - 1].path)
  }

  lemma {:induction false} RemainingAdds(a: seq<SourceLine>, b: seq<SourceLine>, seen: map<string, seq<Range>>)
    ensures Remaining(a + b, seen) == Remaining(a, seen) + Remaining(b, seen)
  {
    if b == [] {
      assert a + b == a;
    } else {
      assert (a + b)[..|a + b| - 1] == a + b[..|b| - 1];
      RemainingAdds(a, b[..|b| - 1], seen);
    }
  }

  lemma {:induction false} RemainingOfFile(path: string, lineCount: nat, seen: map<string, seq<Range>>)
    ensures Remaining(Located(path, Interval(1, lineCount)), seen) == Located(path, Unseen(lineCount, RangesFor(seen, path)))
  {
    if lineCount > 0 {
      RemainingOfFile(path, lineCount - 1, seen);
      var lines := Located(path, Interval(1, lineCount));
      assert lines[..|lines| - 1] == Located(path, Interval(1, lineCount - 1));
      assert lines[|lines| - 1] == SourceLine(path, lineCount);
    }
  }

  lemma {:induction false} TakeLocated(path: string, numbers: seq<int>, limit: int)
    ensures Located(path, Take(numbers, limit)) == Take(Located(path, numbers), limit)
  {
  }

  lemma {:induction false} TakeConcat<T>(a: seq<T>, b: seq<T>, limit: int)
    requires limit >= 0
    ensures Take(a + b, limit) == Take(a, limit) + Take(b, limit - |Take(a, limit)|)
  {
  }

  // The bundle shows the first lines of before, as many as the budget allows.
  ghost predicate ShowsFirst(b: Bundle, before: seq<SourceLine>, budget: int) {
    Emitted(b.sections) == Take(before, budget) && b.emittedLineCount == |Take(before, budget)|
  }

  lemma {:induction false} FullNumbers(repo: Repo, request: Request, seen: map<string, seq<Range>>, count: int,
                                       path: string, remaining: int)
    requires request.lineBudget >= remaining > 0 && request.detail.Full? && Readable(repo, path)
    ensures Located(path, FileNumbers(repo, request, seen, count, path, remaining)) ==
            Take(Remaining(LinesAt(repo, path), seen), remaining)
  {
    RemainingOfFile(path, |repo[path].lines|, seen);
    TakeLocated(path, Unseen(|repo[path].lines|, RangesFor(seen, path)), remaining);
  }

  lemma {:induction false} FullStep(repo: Repo, request: Request, seen: map<string, seq<Range>>,
                                    path: string, b: Bundle, before: seq<SourceLine>)
    requires request.lineBudget > 0 && request.detail.Full?
    requires ShowsFirst(b, before, request.lineBudget)
    ensures ShowsFirst(Step(repo, request, seen, path, b), before + Remaining(LinesAt(repo, path), seen),
                       request.lineBudget)
  {
    var remaining := request.lineBudget - b.emittedLineCount;
    TakeConcat(before, Remaining(LinesAt(repo, path), seen), request.lineBudget);
    if remaining > 0 && Readable(repo, path) {
      var numbers := FileNumbers(repo, request, seen, |b.candidates|, path, remaining);
      FullNumbers(repo, request, seen, |b.candidates|, path, remaining);
      WithFileEmits(b, path, repo[path].lines, numbers);
    }
  }

  // What a full run shows: the first lineBudget lines that are still unseen.
  lemma {:induction false} FullWalk(repo: Repo, request: Request, seen: map<string, seq<Range>>,
                                    rows: seq<Candidate>, b: Bundle)
    requires request.lineBudget > 0 && request.detail.Full?
    requires b.sections == [] && b.emittedLineCount == 0
    ensures ShowsFirst(Walk(repo, request, seen, rows, b), Remaining(CandidateLines(repo, rows), seen), request.lineBudget)
  {
    if |rows| > 0 {
      var front, path := rows[..|rows| - 1], rows[|rows| - 1].path;
      FullWalk(repo, request, seen, front, b);
      FullStep(repo, request, seen, path, Walk(repo, request, seen, front, b), Remaining(CandidateLines(repo, front), seen));
      RemainingAdds(CandidateLines(repo, front), LinesAt(repo, path), seen);
    }
  }

  lemma {:induction false} CandidateLinesAreDistinct(repo: Repo, rows: seq<Candidate>)
    requires DistinctPaths(rows)
    ensures NoDuplicates(CandidateLines(repo, rows))
    ensures forall l :: l in CandidateLines(repo, rows) ==> l.path in Paths(rows) && InFile(repo, l)
    ensures forall l: SourceLine :: l.path in Paths(rows) && InFile(repo, l) ==> l in CandidateLines(repo, rows)
  {
    if |rows| > 0 {
      var front, last := rows[..|rows| - 1], rows[|rows| - 1];
      CandidateLinesAreDistinct(repo, front);
      assert rows == front + [last];
      PathsOneMore(front, last);
      if Readable(repo, last.path) {
        var n := |repo[last.path].lines|;
        var before, added := CandidateLines(repo, front), Located(last.path, Interval(1, n));
        forall l
          ensures l in added <==> l.path == last.path && InFile(repo, l)
        {
          LocatedMembers(last.path, 1, n, l);
        }
        IntervalIsDistinct(1, n);
        DistinctLocated(last.path, Interval(1, n));
        DistinctConcat(before, added);
        assert forall l :: l in before + added <==> l in before || l in added;
        assert CandidateLines(repo, rows) == before + added;
      } else {
        assert CandidateLines(repo, rows) == CandidateLines(repo, front);
      }
    }
  }

  lemma {:induction false} RemainingOneMore(all: seq<SourceLine>, l: SourceLine, seen: map<string, seq<Range>>)
    ensures Remaining(all + [l], seen) ==
            if Hidden(seen, l) then Remaining(all, seen) else Remaining(all, seen) + [l]
  {
    assert (all + [l])[..|all|] == all;
  }

  lemma {:induction false} RemainingMembers(all: seq<SourceLine>, seen: map<string, seq<Range>>)
    ensures forall l :: l in Remaining(all, seen) <==> l in all && !Hidden(seen, l)
  {
    if |all| > 0 {
      var front, last := all[..|all| - 1], all[|all| - 1];
      assert all == front + [last];
      RemainingMembers(front, seen);
      RemainingOneMore(front, last, seen);
    }
  }

  lemma {:induction false} RemainingIsDistinct(all: seq<SourceLine>, seen: map<string, seq<Range>>)
    requires NoDuplicates(all)
    ensures NoDuplicates(Remaining(all, seen))
  {
    if |all| > 0 {
      var front, last := all[..|all| - 1], all[|all| - 1];
      assert all == front + [last];
      DistinctOneMore(front, last);
      RemainingIsDistinct(front, seen);
      RemainingMembers(front, seen);
      DistinctOneMore(Remaining(front, seen), last);
    }
  }

  lemma {:induction false} AllHidden(lines: seq<SourceLine>, seen: map<string, seq<Range>>)
    requires forall l :: l in lines ==> Hidden(seen, l)
    ensures Remaining(lines, seen) == []
  {
    if |lines| > 0 {
      AllHidden(lines[..|lines| - 1], seen);
    }
  }

  lemma {:induction false} NoneHidden(lines: seq<SourceLine>, seen: map<string, seq<Range>>)
    requires forall l :: l in lines ==> !Hidden(seen, l)
    ensures Remaining(lines, seen) == lines
  {
    if |lines| > 0 {
      NoneHidden(lines[..|lines| - 1], seen);
    }
  }

  // More hiding can be applied to the lines that were left.
  lemma {:induction false} RemainingAgain(all: seq<SourceLine>, seen: map<string, seq<Range>>,
                                          seen': map<string, seq<Range>>)
    requires forall l :: l in all && Hidden(seen, l) ==> Hidden(seen', l)
    ensures Remaining(all, seen') == Remaining(Remaining(all, seen), seen')
  {
    if |all| > 0 {
      var front, last := all[..|all| - 1], all[|all| - 1];
      assert last in all;
      RemainingAgain(front, seen, seen');
      if !Hidden(seen, last) {
        RemainingOneMore(Remaining(front, seen), last, seen');
      }
    }
  }

  // When the lines a among the unseen lines a + b become seen too, the unseen lines are b.
  lemma {:induction false} RemainingSplit(all: seq<SourceLine>, seen: map<string, seq<Range>>,
                                          seen': map<string, seq<Range>>, a: seq<SourceLine>, b: seq<SourceLine>)
    requires Remaining(all, seen) == a + b && NoDuplicates(a + b)
    requires forall l :: l in all ==> (Hidden(seen', l) <==> Hidden(seen, l) || l in a)
    ensures Remaining(all, seen') == b
  {
    RemainingMembers(all, seen);
    DistinctConcat(a, b);
    RemainingAgain(all, seen, seen');
    RemainingAdds(a, b, seen');
    assert forall l :: l in a + b <==> l in a || l in b;
    AllHidden(a, seen');
    NoneHidden(b, seen');
  }

  // ---- The session law -------------------------------------------------------------

  function AllShown(h: History): seq<SourceLine> {
    if h.Start? then [] else AllShown(h.before) + Shown(h.last)
  }

  function TotalBudget(h: History): int {
    if h.Start? then 0 else TotalBudget(h.before) + h.last.request.lineBudget
  }

  // The lines that a full run on these candidates would still have to show.
  function Todo(repo: Repo, rows: seq<Candidate>, seen: map<string, seq<Range>>): seq<SourceLine> {
    Remaining(CandidateLines(repo, rows), seen)
  }

  lemma {:induction false} TodoIsExact(key: string, ledger: seq<LedgerLine>, repo: Repo, rows: seq<Candidate>,
                                       seen: map<string, seq<Range>>)
    requires DistinctPaths(rows) && HoldsRangesOf(seen, ledger, key, repo)
    ensures NoDuplicates(Todo(repo, rows, seen))
    ensures forall l: SourceLine :: l in Todo(repo, rows, seen) <==>
              l.path in Paths(rows) && InFile(repo, l) && !LedgerHides(ledger, key, repo, l)
  {
    CandidateLinesAreDistinct(repo, rows);
    RemainingMembers(CandidateLines(repo, rows), seen);
    RemainingIsDistinct(CandidateLines(repo, rows), seen);
  }

  // A full run on these candidates of this repository.
  ghost function FullRun(repo: Repo, rows: seq<Candidate>): Round -> bool {
    (r: Round) => IsRun(r) && r.repo == repo && r.request.detail.Full? &&
      CandidateRows(r.request.explained, repo, r.request.maxItems) == rows
  }

  // A round that shows as much of what it finds unseen as its budget allows.
  ghost function Greedy(repo: Repo, rows: seq<Candidate>): Round -> bool {
    (r: Round) => IsSafe(r) && r.repo == repo && r.request.lineBudget > 0 &&
      Shown(r) == Take(Todo(repo, rows, r.seen), r.request.lineBudget)
  }

  lemma {:induction false} FullRunsAreGreedy(key: string, h: History, repo: Repo, rows: seq<Candidate>)
    requires Session(key, h, FullRun(repo, rows))
    ensures Session(key, h, Greedy(repo, rows))
  {
    RunsAreSafe();
    forall r | FullRun(repo, rows)(r)
      ensures Greedy(repo, rows)(r)
    {
      FullWalk(repo, r.request, r.seen, rows, Bundle(rows, [], 0, 0, 0, 0, 0));
    }
    SessionWeakens(key, h, FullRun(repo, rows), Greedy(repo, rows));
  }

  lemma {:induction false} AllShownMembers(key: string, h: History, repo: Repo, lawful: Round -> bool, l: SourceLine)
    requires Session(key, h, lawful) && forall r :: lawful(r) ==> r.repo == repo
    requires InFile(repo, l)
    ensures l in AllShown(h) <==> ShownBefore(h, repo, l)
  {
    if h.Next? {
      AllShownMembers(key, h.before, repo, lawful, l);
    }
  }

  lemma {:induction false} TakeSplits<T>(s: seq<T>, limit: int) returns (rest: seq<T>)
    ensures s == Take(s, limit) + rest
    ensures |Take(s, limit)| == Max(0, Min(limit, |s|))
  {
    rest := s[|Take(s, limit)|..];
  }

  lemma {:induction false} TakeTwice<T>(s: seq<T>, rest: seq<T>, a: nat, b: nat)
    requires s == Take(s, a) + rest
    ensures Take(s, a) + Take(rest, b) == Take(s, a + b)
  {
  }

  // What is left after rounds that showed the first part of the unseen lines.
  lemma {:induction false} TodoAfterRounds(key: string, h: History, repo: Repo, rows: seq<Candidate>,
                                           seen: map<string, seq<Range>>, seen': map<string, seq<Range>>, limit: int)
    requires Session(key, h, Greedy(repo, rows)) && DistinctPaths(rows)
    requires HoldsRangesOf(seen, Origin(h), key, repo)
    requires HoldsRangesOf(seen', Ledger(key, h), key, repo)
    requires AllShown(h) == Take(Todo(repo, rows, seen), limit)
    ensures Todo(repo, rows, seen) == AllShown(h) + Todo(repo, rows, seen')
  {
    var rest := TakeSplits(Todo(repo, rows, seen), limit);
    TodoIsExact(key, Origin(h), repo, rows, seen);
    SessionWeakens(key, h, Greedy(repo, rows), IsSafe);
    CandidateLinesAreDistinct(repo, rows);
    forall l | l in CandidateLines(repo, rows)
      ensures Hidden(seen', l) <==> Hidden(seen, l) || l in AllShown(h)
    {
      LedgerIsExact(key, h, repo, l);
      AllShownMembers(key, h, repo, Greedy(repo, rows), l);
    }
    RemainingSplit(CandidateLines(repo, rows), seen, seen', AllShown(h), rest);
  }

  // The rounds together showed the first lines of todo, as many as their budgets allow.
  ghost predicate InOrder(todo: seq<SourceLine>, h: History) {
    TotalBudget(h) >= 0 && AllShown(h) == Take(todo, TotalBudget(h))
  }

  lemma {:induction false} GreedyRoundsShowInOrder(key: string, h: History, repo: Repo, rows: seq<Candidate>,
                                                   seen: map<string, seq<Range>>)
    requires Session(key, h, Greedy(repo, rows)) && DistinctPaths(rows)
    requires HoldsRangesOf(seen, Origin(h), key, repo)
    ensures InOrder(Todo(repo, rows, seen), h)
  {
    if h.Next? {
      GreedyRoundsShowInOrder(key, h.before, repo, rows, seen);
      TodoAfterRounds(key, h.before, repo, rows, seen, h.last.seen, TotalBudget(h.before));
      TakeTwice(Todo(repo, rows, seen), Todo(repo, rows, h.last.seen), TotalBudget(h.before), h.last.request.lineBudget);
    }
  }

  // Full runs over an unchanged repository work through the unseen lines in order, whatever
  // their budgets: all that they show, one run after the other, is the first part of what
  // was unseen at the start, as long as their budgets reach.
  lemma {:induction false} FullRunsShowTheUnseenInOrder(key: string, h: History, repo: Repo, rows: seq<Candidate>,
                                                        seen: map<string, seq<Range>>)
    requires Session(key, h, FullRun(repo, rows)) && DistinctPaths(rows)
    requires HoldsRangesOf(seen, Origin(h), key, repo)
    ensures InOrder(Todo(repo, rows, seen), h)
  {
    FullRunsAreGreedy(key, h, repo, rows);
    GreedyRoundsShowInOrder(key, h, repo, rows, seen);
  }

  lemma {:induction false} GreedyRoundsAreExhaustive(key: string, h: History, repo: Repo, rows: seq<Candidate>,
                                                     seen: map<string, seq<Range>>)
    requires Session(key, h, Greedy(repo, rows)) && DistinctPaths(rows)
    requires HoldsRangesOf(seen, Origin(h), key, repo)
    ensures 0 <= TotalBudget(h) && |AllShown(h)| == Min(TotalBudget(h), |Todo(repo, rows, seen)|)
    ensures NoDuplicates(AllShown(h))
    ensures TotalBudget(h) >= |Todo(repo, rows, seen)| ==> AllShown(h) == Todo(repo, rows, seen)
  {
    GreedyRoundsShowInOrder(key, h, repo, rows, seen);
    TodoIsExact(key, Origin(h), repo, rows, seen);
    DistinctTake(Todo(repo, rows, seen), TotalBudget(h));
  }

  // The law the ledger exists for: no line twice, and once the budgets add up to the number
  // of unseen lines, every unseen line of every readable candidate was shown.
  lemma {:induction false} FullRunsAreExhaustive(key: string, h: History, repo: Repo, rows: seq<Candidate>,
                                                 seen: map<string, seq<Range>>)
    requires Session(key, h, FullRun(repo, rows)) && DistinctPaths(rows)
    requires HoldsRangesOf(seen, Origin(h), key, repo)
    ensures |AllShown(h)| == Min(TotalBudget(h), |Todo(repo, rows, seen)|)
    ensures NoDuplicates(AllShown(h))
    ensures TotalBudget(h) >= |Todo(repo, rows, seen)| ==>
              forall l: SourceLine :: l in AllShown(h) <==>
                l.path in Paths(rows) && InFile(repo, l) && !LedgerHides(Origin(h), key, repo, l)
  {
    FullRunsAreGreedy(key, h, repo, rows);
    GreedyRoundsAreExhaustive(key, h, repo, rows, seen);
    TodoIsExact(key, Origin(h), repo, rows, seen);
  }

  // Each single full run shows min(budget, lines not shown yet) lines: with the previous
  // laws, once everything was shown a run shows nothing.
  lemma {:induction false} EachFullRunShowsWhatItCan(key: string, h: History, repo: Repo, rows: seq<Candidate>,
                                                     seen: map<string, seq<Range>>)
    requires h.Next? && Session(key, h, FullRun(repo, rows)) && DistinctPaths(rows)
    requires HoldsRangesOf(seen, Origin(h), key, repo)
    ensures |Shown(h.last)| ==
            Min(h.last.request.lineBudget, |Todo(repo, rows, seen)| - |AllShown(h.before)|)
  {
    FullRunsAreGreedy(key, h, repo, rows);
    EachGreedyRound(key, h, repo, rows, seen);
  }

  lemma {:induction false} GreedyCounts(key: string, h: History, repo: Repo, rows: seq<Candidate>,
                                        seen: map<string, seq<Range>>)
    requires Session(key, h, Greedy(repo, rows)) && DistinctPaths(rows)
    requires HoldsRangesOf(seen, Origin(h), key, repo)
    ensures 0 <= TotalBudget(h) && |AllShown(h)| == Min(TotalBudget(h), |Todo(repo, rows, seen)|)
    ensures h.Next? ==> TotalBudget(h.before) <= TotalBudget(h)
  {
    GreedyRoundsAreExhaustive(key, h, repo, rows, seen);
  }

  lemma {:induction false} LastCount(h: History, total: nat)
    requires h.Next? && 0 <= TotalBudget(h.before) <= TotalBudget(h)
    requires |AllShown(h)| == Min(TotalBudget(h), total)
    requires |AllShown(h.before)| == Min(TotalBudget(h.before), total)
    ensures |Shown(h.last)| == Min(h.last.request.lineBudget, total - |AllShown(h.before)|)
  {
  }

  lemma {:induction false} EachGreedyRound(key: string, h: History, repo: Repo, rows: seq<Candidate>,
                                           seen: map<string, seq<Range>>)
    requires h.Next? && Session(key, h, Greedy(repo, rows)) && DistinctPaths(rows)
    requires HoldsRangesOf(seen, Origin(h), key, repo)
    ensures |Shown(h.last)| ==
            Min(h.last.request.lineBudget, |Todo(repo, rows, seen)| - |AllShown(h.before)|)
  {
    var total := |Todo(repo, rows, seen)|;
    assert |AllShown(h)| == Min(TotalBudget(h), total) && TotalBudget(h.before) <= TotalBudget(h) by {
      GreedyCounts(key, h, repo, rows, seen);
    }
    assert |AllShown(h.before)| == Min(TotalBudget(h.before), total) && 0 <= TotalBudget(h.before) by {
      GreedyCounts(key, h.before, repo, rows, seen);
    }
    LastCount(h, total);
  }

  function Rounds(h: History): nat {
    if h.Start? then 0 else Rounds(h.before) + 1
  }

  ghost predicate SameBudget(h: History, budget: int) {
    h.Next? ==> h.last.request.lineBudget == budget && SameBudget(h.before, budget)
  }

  lemma {:induction false} SameBudgetTotal(h: History, budget: int)
    requires SameBudget(h, budget)
    ensures TotalBudget(h) == Rounds(h) * budget
  {
    if h.Next? {
      SameBudgetTotal(h.before, budget);
    }
  }

  lemma {:induction false} CeilingIsEnough(total: nat, budget: int, rounds: nat)
    requires budget > 0 && rounds >= (total + budget - 1) / budget
    ensures rounds * budget >= total
  {
    var k := (total + budget - 1) / budget;
    assert k * budget >= total;
    assert rounds * budget >= k * budget;
  }

  // ceil(total / budget) full runs of one budget show every unseen line; the run after
  // them shows nothing.
  lemma {:induction false} CeilingManyRunsSuffice(key: string, h: History, repo: Repo, rows: seq<Candidate>,
                                                  seen: map<string, seq<Range>>, budget: int)
    requires h.Next? && Session(key, h, FullRun(repo, rows)) && DistinctPaths(rows)
    requires HoldsRangesOf(seen, Origin(h), key, repo)
    requires budget > 0 && SameBudget(h, budget)
    requires Rounds(h.before) >= (|Todo(repo, rows, seen)| + budget - 1) / budget
    ensures AllShown(h.before) == Todo(repo, rows, seen) && |Shown(h.last)| == 0
  {
    SameBudgetTotal(h.before, budget);
    CeilingIsEnough(|Todo(repo, rows, seen)|, budget, Rounds(h.before));
    FullRunsAreGreedy(key, h, repo, rows);
    GreedyRunsThatSuffice(key, h, repo, rows, seen);
  }

  lemma {:induction false} GreedyRunsThatSuffice(key: string, h: History, repo: Repo, rows: seq<Candidate>,
                                                 seen: map<string, seq<Range>>)
    requires h.Next? && Session(key, h, Greedy(repo, rows)) && DistinctPaths(rows)
    requires HoldsRangesOf(seen, Origin(h), key, repo)
    requires TotalBudget(h.before) >= |Todo(repo, rows, seen)|
    ensures AllShown(h.before) == Todo(repo, rows, seen) && |Shown(h.last)| == 0
  {
    GreedyRoundsAreExhaustive(key, h.before, repo, rows, seen);
    EachGreedyRound(key, h, repo, rows, seen);
  }
}
