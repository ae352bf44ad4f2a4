// Percentages and their rounding to four decimals, over exact rationals.
module Rates {

  // round() to the nearest integer; halves go to the even neighbour.
  function RoundHalfEven(x: real): int {
    var f := x.Floor;
    var d := x - f as real;
    if d < 0.5 then f
    else if d > 0.5 then f + 1
    else if f % 2 == 0 then f else f + 1
  }

  // round(x, 4)
  function Round4(x: real): real {
    RoundHalfEven(x * 10000.0) as real / 10000.0
  }

  function PercentValue(count: int, total: int): real {
    if total <= 0 then 0.0 else (count as real / total as real) * 100.0
  }

  function RateValue(count: int, total: int): real {
    Round4(PercentValue(count, total))
  }

  lemma {:induction false} RoundHalfEvenIsNearest(x: real)
    ensures -0.5 <= RoundHalfEven(x) as real - x <= 0.5
  {
  }

  lemma {:induction false} RoundHalfEvenMonotone(x: real, y: real)
    requires x <= y
    ensures RoundHalfEven(x) <= RoundHalfEven(y)
  {
    assert x.Floor <= y.Floor;
  }

  lemma {:induction false} RoundHalfEvenInteger(n: int)
    ensures RoundHalfEven(n as real) == n
  {
  }

  lemma {:induction false} Round4Monotone(x: real, y: real)
    requires x <= y
    ensures Round4(x) <= Round4(y)
  {
    RoundHalfEvenMonotone(x * 10000.0, y * 10000.0);
  }

  lemma {:induction false} Round4IsNearest(x: real)
    ensures -0.00005 <= Round4(x) - x <= 0.00005
  {
    RoundHalfEvenIsNearest(x * 10000.0);
  }

  lemma {:induction false} Round4Whole(n: int)
    ensures Round4(n as real) == n as real
  {
    assert n as real * 10000.0 == (n * 10000) as real;
    RoundHalfEvenInteger(n * 10000);
  }

  // The nearest integer, and of two that are equally near the even one.
  lemma {:induction false} RoundHalfEvenMeans(x: real)
    ensures
      var r := RoundHalfEven(x);
      && x - 0.5 <= r as real <= x + 0.5
      && (r as real == x - 0.5 || r as real == x + 0.5 ==> r % 2 == 0)
  {
  }

  predicate Whole(x: real) {
    x.Floor as real == x
  }

  // A rate is a multiple of 0.0001 nearest to the percentage, and nothing is no percent.
  lemma {:induction false} RateMeans(count: int, total: int)
    ensures Whole(RateValue(count, total) * 10000.0)
    ensures total <= 0 ==> RateValue(count, total) == 0.0
    ensures total > 0 ==>
              var rate := RateValue(count, total);
              (rate - 0.00005) * total as real <= 100.0 * count as real <= (rate + 0.00005) * total as real
  {
    var rate := RateValue(count, total);
    assert rate * 10000.0 == RoundHalfEven(PercentValue(count, total) * 10000.0) as real;
    Round4Whole(0);
    if total > 0 {
      Round4IsNearest(PercentValue(count, total));
      PercentAgainst(count, total, rate - 0.00005);
      PercentAgainst(count, total, rate + 0.00005);
    }
  }

  // ---- Exact comparison with a whole-percent threshold ---------------------------

  lemma {:induction false} PercentAgainst(count: int, total: int, q: real)
    requires total > 0
    ensures PercentValue(count, total) <= q <==> 100.0 * count as real <= q * total as real
    ensures PercentValue(count, total) >= q <==> 100.0 * count as real >= q * total as real
  {
    var p, t := PercentValue(count, total), total as real;
    assert p * t == 100.0 * count as real;
    MulOrder(p, q, t);
    MulOrder(q, p, t);
  }

  lemma {:induction false} MulOrder(a: real, b: real, t: real)
    requires t > 0.0
    ensures a <= b <==> a * t <= b * t
  {
    if a <= b {
      assert (b - a) * t >= 0.0;
    } else {
      assert (a - b) * t > 0.0;
    }
  }

  // ---- Mediants -----------------------------------------------------------------------

  // The rate of two batches together lies between their rates.
  lemma {:induction false} PercentMediant(c1: int, t1: int, c2: int, t2: int, q: real)
    requires t1 > 0 && t2 > 0
    ensures PercentValue(c1, t1) <= q && PercentValue(c2, t2) <= q ==> PercentValue(c1 + c2, t1 + t2) <= q
    ensures PercentValue(c1, t1) >= q && PercentValue(c2, t2) >= q ==> PercentValue(c1 + c2, t1 + t2) >= q
  {
    PercentAgainst(c1, t1, q);
    PercentAgainst(c2, t2, q);
    PercentAgainst(c1 + c2, t1 + t2, q);
    assert q * (t1 + t2) as real == q * t1 as real + q * t2 as real;
  }

  // And it stays so after rounding.
  lemma {:induction false} RateMediant(c1: int, t1: int, c2: int, t2: int)
    requires t1 > 0 && t2 > 0
    ensures RateValue(c1 + c2, t1 + t2) <= RateValue(c1, t1) || RateValue(c1 + c2, t1 + t2) <= RateValue(c2, t2)
    ensures RateValue(c1 + c2, t1 + t2) >= RateValue(c1, t1) || RateValue(c1 + c2, t1 + t2) >= RateValue(c2, t2)
  {
    var p1, p2, p := PercentValue(c1, t1), PercentValue(c2, t2), PercentValue(c1 + c2, t1 + t2);
    PercentMediant(c1, t1, c2, t2, p1);
    PercentMediant(c1, t1, c2, t2, p2);
    if p1 <= p2 {
      Round4Monotone(p, p2);
      Round4Monotone(p1, p);
    } else {
      Round4Monotone(p, p1);
      Round4Monotone(p2, p);
    }
  }

  // ---- Rounded against exact -------------------------------------------------------------

  // A rate just above the threshold t that rounds down to it.
  predicate NearlyAbove(count: int, total: int, t: int) {
    0 < 20000 * (100 * count - t * total) <= total
  }

  // A rate just below the threshold t that rounds up to it.
  predicate NearlyBelow(count: int, total: int, t: int) {
    0 < 20000 * (t * total - 100 * count) <= total
  }

  // The rounded rate against a whole-percent threshold, in terms of the counts.
  lemma {:induction false} RateCeilingInCounts(count: int, total: int, t: int)
    requires total > 0
    ensures RateValue(count, total) <= t as real <==> 20000 * (100 * count - t * total) <= total
  {
    PercentAgainst(count, total, t as real + 0.00005);
    ScaledGap(count, total, t);
    WholePercent(t);
    Round4Ceiling(PercentValue(count, total), t as real, t * 5000);
  }

  lemma {:induction false} RateFloorInCounts(count: int, total: int, t: int)
    requires total > 0
    ensures RateValue(count, total) >= t as real <==> 20000 * (t * total - 100 * count) <= total
  {
    PercentAgainst(count, total, t as real - 0.00005);
    ScaledGap(count, total, t);
    WholePercent(t);
    Round4Floor(PercentValue(count, total), t as real, t * 5000);
  }

  // The exact rate against it.
  lemma {:induction false} PercentInCounts(count: int, total: int, t: int)
    requires total > 0
    ensures PercentValue(count, total) <= t as real <==> 100 * count <= t * total
    ensures PercentValue(count, total) >= t as real <==> 100 * count >= t * total
  {
    PercentAgainst(count, total, t as real);
    assert (t * total) as real == t as real * total as real;
  }

  // The rounded rate passes a whole-percent ceiling if and only if the exact one does,
  // unless the rate is nearly above the ceiling.
  lemma {:induction false} RoundedCeiling(count: int, total: int, t: int)
    requires total > 0
    ensures RateValue(count, total) <= t as real <==>
            PercentValue(count, total) <= t as real || NearlyAbove(count, total, t)
  {
    RateCeilingInCounts(count, total, t);
    PercentInCounts(count, total, t);
  }

  lemma {:induction false} RoundedFloor(count: int, total: int, t: int)
    requires total > 0
    ensures RateValue(count, total) >= t as real <==>
            PercentValue(count, total) >= t as real || NearlyBelow(count, total, t)
  {
    RateFloorInCounts(count, total, t);
    PercentInCounts(count, total, t);
  }

  // q is an even multiple of 0.0001, as every whole percent is.
  ghost predicate EvenTenThousandths(q: real, half: int) {
    q * 5000.0 == half as real
  }

  lemma {:induction false} WholePercent(t: int)
    ensures EvenTenThousandths(t as real, t * 5000)
  {
    assert (t * 5000) as real == t as real * 5000.0;
  }

  // A tie with such a q is rounded to it.
  lemma {:induction false} Round4Tie(p: real, q: real, half: int)
    requires EvenTenThousandths(q, half)
    requires p == q + 0.00005 || p == q - 0.00005
    ensures Round4(p) == q
  {
    var x, n := p * 10000.0, 2 * half;
    assert x == n as real + 0.5 || x == n as real - 0.5;
    assert x.Floor == if x == n as real + 0.5 then n else n - 1;
  }

  lemma {:induction false} Round4Ceiling(p: real, q: real, half: int)
    requires EvenTenThousandths(q, half)
    ensures Round4(p) <= q <==> p <= q + 0.00005
  {
    if p <= q + 0.00005 {
      Round4Tie(q + 0.00005, q, half);
      Round4Monotone(p, q + 0.00005);
    } else {
      Round4IsNearest(p);
    }
  }

  lemma {:induction false} Round4Floor(p: real, q: real, half: int)
    requires EvenTenThousandths(q, half)
    ensures Round4(p) >= q <==> p >= q - 0.00005
  {
    if p >= q - 0.00005 {
      Round4Tie(q - 0.00005, q, half);
      Round4Monotone(q - 0.00005, p);
    } else {
      Round4IsNearest(p);
    }
  }

  lemma {:induction false} ScaledGap(count: int, total: int, t: int)
    ensures 100.0 * count as real <= (t as real + 0.00005) * total as real <==>
            20000 * (100 * count - t * total) <= total
    ensures 100.0 * count as real >= (t as real - 0.00005) * total as real <==>
            20000 * (t * total - 100 * count) <= total
  {
    var c, n, q := count as real, total as real, t as real;
    assert (t * total) as real == q * n;
    assert (q + 0.00005) * n == q * n + 0.00005 * n;
    assert (q - 0.00005) * n == q * n - 0.00005 * n;
    assert (20000 * (100 * count - t * total)) as real == 20000.0 * (100.0 * c - q * n);
    assert (20000 * (t * total - 100 * count)) as real == 20000.0 * (q * n - 100.0 * c);
  }

  // Up to 20000 cases there are no near misses.
  lemma {:induction false} NoNearMiss(count: int, total: int, t: int)
    requires 0 < total <= 20000
    ensures !NearlyAbove(count, total, t) && !NearlyBelow(count, total, t)
  {
    var gap := 100 * count - t * total;
    if total == 20000 {
      assert gap == 100 * (count - 200 * t);
    }
  }
}
