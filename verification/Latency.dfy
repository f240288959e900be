/** Latency summaries with nearest-rank percentiles, over exact reals (`internal/benchmark/stats.go`). */
module Latency {

  datatype Summary = Summary(count: nat, min: int, p50: int, p95: int, max: int, mean: int)

  ghost predicate Ascending(s: seq<int>) {
    forall i, j :: 0 <= i < j < |s| ==> s[i] <= s[j]
  }

  function Insert(x: int, s: seq<int>): seq<int> {
    if s == [] || x <= s[0] then [x] + s else [s[0]] + Insert(x, s[1..])
  }

  /** slices.Sort on a copy. */
  function Ordered(s: seq<int>): seq<int> {
    if s == [] then [] else Insert(s[0], Ordered(s[1..]))
  }

  lemma {:induction false} InsertPermutes(x: int, s: seq<int>)
    ensures multiset(Insert(x, s)) == multiset(s) + multiset{x}
  {
    if s == [] || x <= s[0] {
    } else {
      InsertPermutes(x, s[1..]);
      assert s == [s[0]] + s[1..];
    }
  }

  lemma {:induction false} InsertOrders(x: int, s: seq<int>)
    requires Ascending(s)
    ensures Ascending(Insert(x, s))
    ensures s != [] && x > s[0] ==> forall k :: 0 <= k < |Insert(x, s)| ==> s[0] <= Insert(x, s)[k]
  {
    if s == [] || x <= s[0] {
    } else {
      InsertOrders(x, s[1..]);
      assert |s| > 1 ==> s[0] <= s[1];
    }
  }

  lemma {:induction false} OrderedOrders(s: seq<int>)
    ensures Ascending(Ordered(s)) && multiset(Ordered(s)) == multiset(s) && |Ordered(s)| == |s|
  {
    if s != [] {
      OrderedOrders(s[1..]);
      InsertOrders(s[0], Ordered(s[1..]));
      InsertPermutes(s[0], Ordered(s[1..]));
      assert s == [s[0]] + s[1..];
      assert |multiset(Ordered(s))| == |multiset(s)|;
    }
  }

  /** Go's division, which drops the fraction. */
  function Quotient(a: int, n: nat): int
    requires n > 0
  {
    if a >= 0 then a / n else -(-a / n)
  }

  function Ceil(x: real): int {
    -(-x).Floor
  }

  /** p percent of n samples. */
  function Share(p: real, n: nat): real {
    p / 100.0 * n as real
  }

  function Rank(p: real, n: nat): int {
    Ceil(Share(p, n))
  }

  function Percentile(durations: seq<int>, p: real): int {
    if |durations| == 0 then 0
    else
      var index := Rank(p, |durations|);
      if index <= 0 then durations[0]
      else if index > |durations| then durations[|durations| - 1]
      else durations[index - 1]
  }

  // What a percentile means

  function AtMost(s: seq<int>, v: int): nat {
    if s == [] then 0 else (if s[0] <= v then 1 else 0) + AtMost(s[1..], v)
  }

  lemma {:induction false} AtMostOfInsert(x: int, s: seq<int>, v: int)
    ensures AtMost(Insert(x, s), v) == AtMost(s, v) + if x <= v then 1 else 0
  {
    if s == [] || x <= s[0] {
      assert ([x] + s)[1..] == s;
    } else {
      AtMostOfInsert(x, s[1..], v);
      assert ([s[0]] + Insert(x, s[1..]))[1..] == Insert(x, s[1..]);
    }
  }

  lemma {:induction false} AtMostOfOrdered(s: seq<int>, v: int)
    ensures AtMost(Ordered(s), v) == AtMost(s, v)
  {
    if s != [] {
      AtMostOfOrdered(s[1..], v);
      AtMostOfInsert(s[0], Ordered(s[1..]), v);
    }
  }

  /** In ascending order the first `k` values are at most `v` when the k-th is, and the rest exceed it when they do. */
  lemma {:induction false} AtMostByPosition(s: seq<int>, k: nat, v: int)
    requires Ascending(s) && k <= |s|
    ensures (k > 0 ==> s[k - 1] <= v) ==> AtMost(s, v) >= k
    ensures (k < |s| ==> s[k] > v) ==> AtMost(s, v) <= k
  {
    if s == [] {
    } else if k == 0 {
      AtMostByPosition(s[1..], 0, v);
      if s[0] > v {
        assert |s| > 1 ==> s[0] <= s[1] && s[1..][0] == s[1];
      }
    } else {
      AtMostByPosition(s[1..], k - 1, v);
      assert s[0] <= s[k - 1];
    }
  }

  lemma ShareBounds(p: real, n: nat)
    requires 0.0 < p <= 100.0 && n > 0
    ensures 0.0 < Share(p, n) <= n as real
  {
    Product(p / 100.0, n as real);
  }

  lemma Product(a: real, b: real)
    requires 0.0 < a <= 1.0 && b > 0.0
    ensures 0.0 < a * b <= b
  {
    assert (1.0 - a) * b >= 0.0;
  }

  lemma RankBounds(p: real, n: nat)
    requires 0.0 < p <= 100.0 && n > 0
    ensures 1 <= Rank(p, n) <= n
    ensures (Rank(p, n) - 1) as real < Share(p, n) <= Rank(p, n) as real
  {
    ShareBounds(p, n);
    hide Share;
  }

  lemma PercentileShares(samples: seq<int>, p: real)
    requires samples != [] && 0.0 < p <= 100.0
    ensures var v := Percentile(Ordered(samples), p);
            && v in samples
            && AtMost(samples, v) as real >= Share(p, |samples|)
            && AtMost(samples, v - 1) as real < Share(p, |samples|)
  {
    hide Rank, Share, Ordered, AtMost;
    OrderedOrders(samples);
    RankBounds(p, |samples|);
    PercentileAt(Ordered(samples), Rank(p, |samples|));
    var v := Percentile(Ordered(samples), p);
    assert v in multiset(Ordered(samples));
    AtMostOfOrdered(samples, v);
    AtMostOfOrdered(samples, v - 1);
  }

  /** At least p% of the samples are at most `v`, and fewer than p% are below it. */
  ghost predicate IsPercentile(samples: seq<int>, p: real, v: int) {
    && v in samples
    && AtMost(samples, v) as real * 100.0 >= p * |samples| as real
    && AtMost(samples, v - 1) as real * 100.0 < p * |samples| as real
  }

  lemma PercentileMeans(samples: seq<int>, p: real)
    requires samples != [] && 0.0 < p <= 100.0
    ensures IsPercentile(samples, p, Percentile(Ordered(samples), p))
  {
    ShareIs(p, |samples|);
    PercentileShares(samples, p);
    hide Share, Percentile, Ordered, AtMost;
  }

  /** Outside that range the percentile is the least or the greatest sample, and of no samples it is 0. */
  lemma PercentileOutside(ordered: seq<int>, p: real)
    ensures ordered == [] ==> Percentile(ordered, p) == 0
    ensures ordered != [] && p <= 0.0 ==> Percentile(ordered, p) == ordered[0]
    ensures ordered != [] && p > 100.0 ==> Percentile(ordered, p) == ordered[|ordered| - 1]
  {
    if ordered != [] {
      ShareIs(p, |ordered|);
      ShareGrows(p, 0.0, |ordered|);
      ShareGrows(100.0, p, |ordered|);
      hide Share;
      if p <= 0.0 {
        ShareIs(0.0, |ordered|);
      } else if p > 100.0 {
        ShareIs(100.0, |ordered|);
        assert Rank(p, |ordered|) >= |ordered|;
      }
    }
  }

  lemma ShareIs(p: real, n: nat)
    ensures Share(p, n) * 100.0 == p * n as real
  {
    assert p / 100.0 * 100.0 == p;
  }

  lemma PercentileAt(ordered: seq<int>, index: nat)
    requires Ascending(ordered) && 1 <= index <= |ordered|
    ensures AtMost(ordered, ordered[index - 1]) >= index && AtMost(ordered, ordered[index - 1] - 1) <= index - 1
  {
    AtMostByPosition(ordered, index, ordered[index - 1]);
    AtMostByPosition(ordered, index - 1, ordered[index - 1] - 1);
  }

  lemma PercentileGrows(ordered: seq<int>, p: real, q: real)
    requires ordered != [] && Ascending(ordered) && 0.0 < p <= q <= 100.0
    ensures ordered[0] <= Percentile(ordered, p) <= Percentile(ordered, q) <= ordered[|ordered| - 1]
  {
    ShareGrows(p, q, |ordered|);
    RankBounds(p, |ordered|);
    RankBounds(q, |ordered|);
    hide Rank, Share;
  }

  lemma ShareGrows(p: real, q: real, n: nat)
    ensures p <= q ==> Share(p, n) <= Share(q, n)
  {
    if p <= q {
      assert (q / 100.0 - p / 100.0) * n as real >= 0.0;
    }
  }

  function Sum(s: seq<int>): int {
    if s == [] then 0 else Sum(s[..|s| - 1]) + s[|s| - 1]
  }

  lemma {:induction false} SumBetween(s: seq<int>, lo: int, hi: int)
    requires forall i :: 0 <= i < |s| ==> lo <= s[i] <= hi
    ensures |s| * lo <= Sum(s) <= |s| * hi
  {
    if s != [] {
      SumBetween(s[..|s| - 1], lo, hi);
      assert |s| * lo == (|s| - 1) * lo + lo && |s| * hi == (|s| - 1) * hi + hi;
    }
  }

  /** Dropping the fraction of a mean keeps it between integer bounds, whatever the signs. */
  lemma QuotientBetween(total: int, n: nat, lo: int, hi: int)
    requires n > 0 && n * lo <= total <= n * hi
    ensures lo <= Quotient(total, n) <= hi
  {
    if total >= 0 {
      FloorBetween(total, n, lo, hi);
    } else {
      assert n * -hi == -(n * hi) && n * -lo == -(n * lo);
      FloorBetween(-total, n, -hi, -lo);
    }
  }

  lemma FloorBetween(total: nat, n: nat, lo: int, hi: int)
    requires n > 0 && n * lo <= total <= n * hi
    ensures lo <= total / n <= hi
  {
    var q := total / n;
    assert n * q <= total < n * q + n;
    assert n * (q + 1) == n * q + n && n * (hi + 1) == n * hi + n;
    Order(lo, q + 1, n);
    Order(q, hi + 1, n);
  }

  lemma Order(a: int, b: int, n: nat)
    requires n > 0
    ensures a * n < b * n ==> a < b
  {
    if a >= b {
      assert a * n == b * n + (a - b) * n && (a - b) * n >= 0;
    }
  }

  lemma {:induction false} SumOfFirst(x: int, s: seq<int>)
    ensures Sum([x] + s) == x + Sum(s)
  {
    if s == [] {
      assert ([x] + s)[..0] == [] && [x] + s == [x];
    } else {
      assert ([x] + s)[..|s|] == [x] + s[..|s| - 1];
      SumOfFirst(x, s[..|s| - 1]);
    }
  }

  lemma {:induction false} SumOfInsert(x: int, s: seq<int>)
    ensures Sum(Insert(x, s)) == x + Sum(s)
  {
    if s == [] || x <= s[0] {
      SumOfFirst(x, s);
    } else {
      SumOfInsert(x, s[1..]);
      SumOfFirst(s[0], Insert(x, s[1..]));
      SumOfFirst(s[0], s[1..]);
      assert [s[0]] + s[1..] == s;
    }
  }

  lemma {:induction false} SumOfOrdered(s: seq<int>)
    ensures Sum(Ordered(s)) == Sum(s)
  {
    if s != [] {
      SumOfOrdered(s[1..]);
      SumOfInsert(s[0], Ordered(s[1..]));
      SumOfFirst(s[0], s[1..]);
      assert [s[0]] + s[1..] == s;
    }
  }

  lemma FloorMeans(a: nat, n: nat)
    requires n > 0
    ensures a / n * n <= a < (a / n + 1) * n
  {
    var q := a / n;
    assert n * q <= a < n * q + n;
    assert (q + 1) * n == q * n + n;
  }

  /** The total divided by `n`, without its fraction, towards zero. */
  ghost predicate IsMean(total: int, n: nat, mean: int) {
    && (total >= 0 ==> mean * n <= total < (mean + 1) * n)
    && (total <= 0 ==> (mean - 1) * n < total <= mean * n)
  }

  lemma QuotientMeans(total: int, n: nat)
    requires n > 0
    ensures IsMean(total, n, Quotient(total, n))
  {
    if total >= 0 {
      FloorMeans(total, n);
    }
    if total <= 0 {
      FloorMeans(-total, n);
      Negated(-total / n, n);
    }
  }

  lemma Negated(q: int, n: nat)
    ensures -q * n == -(q * n) && (-q - 1) * n == -((q + 1) * n)
  {}

  lemma SumSnoc(s: seq<int>, i: nat)
    requires i < |s|
    ensures Sum(s[..0]) == 0 && Sum(s[..i + 1]) == Sum(s[..i]) + s[i] && s[..|s|] == s
  {
    assert s[..i + 1][..i] == s[..i];
  }

  /** What the first, the last and the total of the samples in order say about the samples. */
  lemma SummaryInOrder(durations: seq<int>)
    requires durations != []
    ensures var ordered := Ordered(durations);
            && |ordered| == |durations| && ordered[0] in durations && ordered[|ordered| - 1] in durations
            && (forall d :: d in durations ==> ordered[0] <= d <= ordered[|ordered| - 1])
            && ordered[0] <= Percentile(ordered, 50.0) <= Percentile(ordered, 95.0) <= ordered[|ordered| - 1]
            && ordered[0] <= Quotient(Sum(ordered), |ordered|) <= ordered[|ordered| - 1]
  {
    var ordered := Ordered(durations);
    OrderedOrders(durations);
    hide Ordered, Percentile, Quotient;
    var first, last := ordered[0], ordered[|ordered| - 1];
    SumBetween(ordered, first, last);
    QuotientBetween(Sum(ordered), |ordered|, first, last);
    PercentileGrows(ordered, 50.0, 95.0);
    assert first in multiset(ordered) && last in multiset(ordered);
    forall d | d in durations ensures first <= d <= last {
      assert d in multiset(ordered);
    }
  }

  method SummarizeLatencies(durations: seq<int>) returns (summary: Summary)
    ensures durations == [] ==> summary == Summary(0, 0, 0, 0, 0, 0)
    ensures durations != [] ==>
              && summary.count == |durations|
              && summary.min in durations && summary.max in durations
              && (forall d :: d in durations ==> summary.min <= d <= summary.max)
              && summary.p50 == Percentile(Ordered(durations), 50.0)
              && summary.p95 == Percentile(Ordered(durations), 95.0)
              && summary.min <= summary.p50 <= summary.p95 <= summary.max
              && summary.mean == Quotient(Sum(Ordered(durations)), |durations|)
              && summary.min <= summary.mean <= summary.max
    ensures durations != [] ==>
              && IsPercentile(durations, 50.0, summary.p50) && IsPercentile(durations, 95.0, summary.p95)
              && IsMean(Sum(durations), |durations|, summary.mean)
  {
    if |durations| == 0 {
      return Summary(0, 0, 0, 0, 0, 0);
    }
    hide *;
    var ordered := Ordered(durations);
    SummaryInOrder(durations);
    SumOfOrdered(durations);
    PercentileMeans(durations, 50.0);
    PercentileMeans(durations, 95.0);
    SumSnoc(ordered, 0);
    var total := 0;
    for i := 0 to |ordered|
      invariant total == Sum(ordered[..i])
    {
      SumSnoc(ordered, i);
      total := total + ordered[i];
    }
    QuotientMeans(total, |ordered|);
    return Summary(
        |ordered|, ordered[0], Percentile(ordered, 50.0), Percentile(ordered, 95.0), ordered[|ordered| - 1],
        Quotient(total, |ordered|));
  }
}
