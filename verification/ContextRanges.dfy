// Line numbers and inclusive line ranges: which lines of a file are still unseen
// and how an arbitrary list of line numbers is folded into ranges.
module ContextRanges {
  import opened Sequences

  datatype Range = Range(start: int, end: int)

  predicate Covered(ranges: seq<Range>, n: int) {
    exists r :: r in ranges && r.start <= n <= r.end
  }

  lemma {:induction false} CoveredByOneMore(ranges: seq<Range>, r: Range)
    ensures forall n :: Covered(ranges + [r], n) <==> Covered(ranges, n) || r.start <= n <= r.end
  {
    assert (ranges + [r])[|ranges|] == r;
    assert forall q :: q in ranges + [r] <==> q in ranges || q == r;
  }

  // The whole numbers start, ..., end in ascending order; none when end < start.
  function Interval(start: int, end: int): (s: seq<int>)
    ensures |s| == if end < start then 0 else end - start + 1
    ensures forall i :: 0 <= i < |s| ==> s[i] == start + i
  {
    seq(if end < start then 0 else end - start + 1, i => start + i)
  }

  lemma {:induction false} IntervalMembers(start: int, end: int)
    ensures forall n :: n in Interval(start, end) <==> start <= n <= end
  {
    var s := Interval(start, end);
    forall n | start <= n <= end
      ensures n in s
    {
      assert s[n - start] == n;
    }
  }

  lemma {:induction false} IntervalIsDistinct(start: int, end: int)
    ensures NoDuplicates(Interval(start, end))
  {
    DistinctIndices(Interval(start, end));
  }

  // The lines of a file of lineCount lines that no range covers, in ascending order.
  function Unseen(lineCount: nat, ranges: seq<Range>): seq<int> {
    if lineCount == 0 then []
    else if Covered(ranges, lineCount) then Unseen(lineCount - 1, ranges)
    else Unseen(lineCount - 1, ranges) + [lineCount]
  }

  lemma {:induction false} UnseenMembers(lineCount: nat, ranges: seq<Range>)
    ensures forall n :: n in Unseen(lineCount, ranges) <==> 1 <= n <= lineCount && !Covered(ranges, n)
  {
    if lineCount > 0 {
      UnseenMembers(lineCount - 1, ranges);
    }
  }

  lemma {:induction false} UnseenIsDistinct(lineCount: nat, ranges: seq<Range>)
    ensures NoDuplicates(Unseen(lineCount, ranges))
  {
    if lineCount > 0 {
      UnseenIsDistinct(lineCount - 1, ranges);
      UnseenMembers(lineCount - 1, ranges);
      DistinctOneMore(Unseen(lineCount - 1, ranges), lineCount);
    }
  }

  // _unseen_line_numbers: a boolean per line, filled range by range.
  method UnseenLineNumbers(lineCount: nat, seenRanges: seq<Range>, limit: int) returns (numbers: seq<int>)
    ensures numbers == Take(Unseen(lineCount, seenRanges), limit)
  {
    if limit <= 0 {
      return [];
    }
    var seen := new bool[lineCount](_ => false);
    for i := 0 to |seenRanges|
      invariant forall k :: 0 <= k < lineCount ==> seen[k] == Covered(seenRanges[..i], k + 1)
    {
      var r := seenRanges[i];
      var index := (if r.start < 1 then 1 else r.start) - 1;
      var stop := if lineCount < r.end then lineCount else r.end;
      ghost var first := index;
      while index < stop
        invariant first <= index && (first < stop ==> index <= stop)
        invariant forall k :: 0 <= k < lineCount ==>
          seen[k] == (Covered(seenRanges[..i], k + 1) || (first <= k < index && k < stop))
      {
        seen[index] := true;
        index := index + 1;
      }
      assert seenRanges[..i + 1] == seenRanges[..i] + [r];
      CoveredByOneMore(seenRanges[..i], r);
    }
    assert seenRanges[..|seenRanges|] == seenRanges;
    numbers := [];
    for k := 0 to lineCount
      invariant numbers == Unseen(k, seenRanges)
    {
      if !seen[k] {
        numbers := numbers + [k + 1];
      }
    }
    numbers := Take(numbers, limit);
  }

  function Expand(ranges: seq<Range>): seq<int> {
    if |ranges| == 0 then []
    else Expand(ranges[..|ranges| - 1]) + Interval(ranges[|ranges| - 1].start, ranges[|ranges| - 1].end)
  }

  lemma {:induction false} ExpandOneMore(ranges: seq<Range>, r: Range)
    ensures Expand(ranges + [r]) == Expand(ranges) + Interval(r.start, r.end)
  {
    assert (ranges + [r])[..|ranges|] == ranges;
  }

  // No range is empty and no range could be merged with its successor.
  predicate Maximal(ranges: seq<Range>) {
    |ranges| == 0 ||
    var n := |ranges| - 1;
    && ranges[n].start <= ranges[n].end
    && (n > 0 ==> ranges[n].start != ranges[n - 1].end + 1)
    && Maximal(ranges[..n])
  }

  lemma {:induction false} MaximalOneMore(ranges: seq<Range>, r: Range)
    ensures Maximal(ranges + [r]) <==>
            Maximal(ranges) && r.start <= r.end && (ranges != [] ==> r.start != ranges[|ranges| - 1].end + 1)
  {
    assert (ranges + [r])[..|ranges|] == ranges;
  }

  // One number more: it extends the last range or starts a new one.
  function WithNumber(ranges: seq<Range>, n: int): seq<Range> {
    if ranges != [] && n == ranges[|ranges| - 1].end + 1 then
      ranges[..|ranges| - 1] + [Range(ranges[|ranges| - 1].start, n)]
    else
      ranges + [Range(n, n)]
  }

  function RangesOf(numbers: seq<int>): seq<Range> {
    if |numbers| == 0 then [] else WithNumber(RangesOf(numbers[..|numbers| - 1]), numbers[|numbers| - 1])
  }

  // _contiguous_ranges, on any list of numbers, sorted or not.
  method ContiguousRanges(numbers: seq<int>) returns (ranges: seq<Range>)
    ensures ranges == RangesOf(numbers)
  {
    if numbers == [] {
      return [];
    }
    ranges := [];
    var start, previous := numbers[0], numbers[0];
    ghost var done: seq<int> := [numbers[0]];
    assert done[..0] == [];
    for i := 1 to |numbers|
      invariant done == numbers[..i] && RangesOf(done) == ranges + [Range(start, previous)]
    {
      var number := numbers[i];
      assert RangesOf(done + [number]) == WithNumber(RangesOf(done), number) by {
        assert (done + [number])[..|done|] == done;
      }
      if number == previous + 1 {
        previous := number;
      } else {
        ranges := ranges + [Range(start, previous)];
        start, previous := number, number;
      }
      done := done + [number];
    }
    ranges := ranges + [Range(start, previous)];
    assert done == numbers;
  }

  lemma {:induction false} WithNumberExpands(ranges: seq<Range>, n: int)
    requires Maximal(ranges)
    ensures Expand(WithNumber(ranges, n)) == Expand(ranges) + [n]
    ensures Maximal(WithNumber(ranges, n))
  {
    assert Interval(n, n) == [n];
    if ranges != [] && n == ranges[|ranges| - 1].end + 1 {
      var front, last := ranges[..|ranges| - 1], ranges[|ranges| - 1];
      assert ranges == front + [last];
      assert Interval(last.start, n) == Interval(last.start, last.end) + [n];
      ExpandOneMore(front, last);
      ExpandOneMore(front, Range(last.start, n));
      MaximalOneMore(front, last);
      MaximalOneMore(front, Range(last.start, n));
    } else {
      ExpandOneMore(ranges, Range(n, n));
      MaximalOneMore(ranges, Range(n, n));
    }
  }

  // The ranges expand back to the very list they were made from, and no two
  // neighbours could be one range.
  lemma {:induction false} RangesExpandBack(numbers: seq<int>)
    ensures Expand(RangesOf(numbers)) == numbers
    ensures Maximal(RangesOf(numbers))
  {
    if |numbers| > 0 {
      RangesExpandBack(numbers[..|numbers| - 1]);
      WithNumberExpands(RangesOf(numbers[..|numbers| - 1]), numbers[|numbers| - 1]);
    }
  }

  lemma {:induction false} ExpandCovers(ranges: seq<Range>)
    ensures forall n :: n in Expand(ranges) <==> Covered(ranges, n)
  {
    if |ranges| > 0 {
      var last := ranges[|ranges| - 1];
      var front := ranges[..|ranges| - 1];
      ExpandCovers(front);
      IntervalMembers(last.start, last.end);
      assert ranges == front + [last];
      CoveredByOneMore(front, last);
      forall n
        ensures n in Expand(ranges) <==> Covered(ranges, n)
      {
      }
    }
  }

  // From index on, numbers counts up by one to its end, and r is that run; the
  // run cannot be extended to the left.
  ghost predicate IsLastRun(numbers: seq<int>, index: nat, r: Range) {
    && index < |numbers|
    && r == Range(numbers[index], numbers[|numbers| - 1])
    && (forall k :: index <= k < |numbers| ==> numbers[k] == r.start + k - index)
    && (index > 0 ==> numbers[index - 1] != r.start - 1)
  }

  lemma {:induction false} LastRunIsUnique(numbers: seq<int>, i: nat, x: Range, j: nat, y: Range)
    requires IsLastRun(numbers, i, x) && IsLastRun(numbers, j, y)
    ensures i == j && x == y
  {
  }

  lemma {:induction false} LastRangeIsLastRun(ranges: seq<Range>)
    requires Maximal(ranges) && |ranges| > 0
    ensures var front, last := ranges[..|ranges| - 1], ranges[|ranges| - 1];
            IsLastRun(Expand(ranges), |Expand(front)|, last) &&
            Expand(front) == Expand(ranges)[..|Expand(front)|]
  {
    var front := ranges[..|ranges| - 1];
    assert |front| > 0 ==> front[|front| - 1] == ranges[|ranges| - 2];
  }

  lemma {:induction false} LastRangesAgree(a: seq<Range>, b: seq<Range>)
    requires Maximal(a) && Maximal(b) && Expand(a) == Expand(b)
    requires |a| > 0 && |b| > 0
    ensures a[|a| - 1] == b[|b| - 1]
    ensures Expand(a[..|a| - 1]) == Expand(b[..|b| - 1])
  {
    LastRangeIsLastRun(a);
    LastRangeIsLastRun(b);
    LastRunIsUnique(Expand(a), |Expand(a[..|a| - 1])|, a[|a| - 1], |Expand(b[..|b| - 1])|, b[|b| - 1]);
  }

  // There is no other way to write the list as maximal ranges.
  lemma {:induction false} MaximalRangesAreUnique(a: seq<Range>, b: seq<Range>)
    requires Maximal(a) && Maximal(b) && Expand(a) == Expand(b)
    ensures a == b
  {
    if |a| > 0 && |b| > 0 {
      LastRangesAgree(a, b);
      MaximalRangesAreUnique(a[..|a| - 1], b[..|b| - 1]);
      assert a == a[..|a| - 1] + [a[|a| - 1]];
      assert b == b[..|b| - 1] + [b[|b| - 1]];
    }
  }
}
