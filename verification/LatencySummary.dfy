/** Summary statistics over the collected latencies, in exact arithmetic. */
module LatencySummary {
  import opened Strings
  import opened Sorting
  import opened WorkerPool

  datatype Summary = Summary(count: nat, min: Option<real>, max: Option<real>, mean: Option<real>,
                             p50: Option<real>, p90: Option<real>, p95: Option<real>, p99: Option<real>,
                             rps: Option<real>)

  function Ascending(): (real, real) -> bool { (a: real, b: real) => a <= b }
  function Ceil(x: real): int { -((-x).Floor) }
  function Min(a: int, b: int): int { if a <= b then a else b }
  function Max(a: int, b: int): int { if a >= b then a else b }

  function RankIndex(n: nat, p: real): int {
    Min(n - 1, Max(0, Ceil((p / 100.0) * (n as real)) - 1))
  }

  function Percentile(sorted: seq<real>, p: real): Option<real> {
    if |sorted| == 0 then None else Some(sorted[RankIndex(|sorted|, p)])
  }

  function Sum(s: seq<real>): real { if s == [] then 0.0 else Sum(s[..|s| - 1]) + s[|s| - 1] }

  function Summarize(samples: seq<real>, elapsedMs: real): Summary {
    var sorted := Sort(samples, Ascending());
    var total := |sorted|;
    Summary(total,
            if total > 0 then Some(sorted[0]) else None,
            if total > 0 then Some(sorted[total - 1]) else None,
            if total > 0 then Some(Sum(sorted) / (total as real)) else None,
            Percentile(sorted, 50.0), Percentile(sorted, 90.0), Percentile(sorted, 95.0), Percentile(sorted, 99.0),
            if elapsedMs > 0.0 then Some((total as real) * 1000.0 / elapsedMs) else None)
  }

  // ---------------------------------------------------------------- nearest rank

  function AtMost(x: real): real -> bool { (y: real) => y <= x }
  function Below(x: real): real -> bool { (y: real) => y < x }
  function Same(): real -> real { (y: real) => y }

  /** How many of the samples satisfy `keep`. */
  function HowMany(samples: seq<real>, keep: real -> bool): nat { |FilterMap(samples, keep, Same())| }

  /** The nearest-rank definition: at least p% of the samples are at most `r`, fewer than p% are below it. */
  ghost predicate IsNearestRank(samples: seq<real>, p: real, r: real) {
    && r in samples
    && HowMany(samples, AtMost(r)) as real * 100.0 >= p * (|samples| as real)
    && HowMany(samples, Below(r)) as real * 100.0 < p * (|samples| as real)
  }

  lemma RankIndexBounds(n: nat, p: real)
    requires n > 0 && 0.0 < p <= 100.0
    ensures var k := RankIndex(n, p); 0 <= k < n && k as real * 100.0 < p * (n as real) <= (k + 1) as real * 100.0
  {
    var q := p / 100.0;
    var m := n as real;
    assert 0.0 < q <= 1.0 && q * 100.0 == p;
    assert 0.0 < q * m <= m;
    assert (q * m) * 100.0 == p * m by { assert (q * m) * 100.0 == (q * 100.0) * m; }
  }

  lemma SortedRank(sorted: seq<real>, k: nat)
    requires Sorted(sorted, Ascending()) && k < |sorted|
    ensures HowMany(sorted, AtMost(sorted[k])) >= k + 1
    ensures HowMany(sorted, Below(sorted[k])) <= k
  {
    var x := sorted[k];
    forall i, j | 0 <= i < j < |sorted| ensures sorted[i] <= sorted[j] { assert Ascending()(sorted[i], sorted[j]); }
    assert sorted == sorted[..k + 1] + sorted[k + 1..] && sorted == sorted[..k] + sorted[k..];
    FilterMapConcat(sorted[..k + 1], sorted[k + 1..], AtMost(x), Same());
    KeepsAll(sorted[..k + 1], AtMost(x), Same());
    FilterMapConcat(sorted[..k], sorted[k..], Below(x), Same());
    KeepsNone(sorted[k..], Below(x), Same());
    Shrinks(sorted[..k], Below(x));
  }

  lemma {:induction false} Shrinks(s: seq<real>, keep: real -> bool)
    ensures HowMany(s, keep) <= |s|
  {
    if s != [] { Shrinks(s[1..], keep); }
  }

  lemma SortedPermutation(samples: seq<real>)
    ensures var sorted := Sort(samples, Ascending());
      && Sorted(sorted, Ascending()) && multiset(sorted) == multiset(samples) && |sorted| == |samples|
  {
    SortSorts(samples, Ascending());
    assert |multiset(samples)| == |samples|;
  }

  lemma RankOfSorted(samples: seq<real>, sorted: seq<real>, p: real)
    requires samples != [] && 0.0 < p <= 100.0
    requires Sorted(sorted, Ascending()) && multiset(sorted) == multiset(samples) && |sorted| == |samples|
    requires 0 <= RankIndex(|sorted|, p) < |sorted|
    ensures IsNearestRank(samples, p, sorted[RankIndex(|sorted|, p)])
  {
    RankIndexBounds(|sorted|, p);
    var k := RankIndex(|sorted|, p);
    var r := sorted[k];
    SortedRank(sorted, k);
    assert r in multiset(samples);
    SameCounts(samples, sorted, AtMost(r));
    SameCounts(samples, sorted, Below(r));
    assert (k + 1) as real * 100.0 <= HowMany(samples, AtMost(r)) as real * 100.0;
    assert HowMany(samples, Below(r)) as real * 100.0 <= k as real * 100.0;
  }

  /** `percentile` over the sorted samples is the nearest-rank percentile of the samples as collected ... */
  lemma PercentileIsNearestRank(samples: seq<real>, p: real)
    requires samples != [] && 0.0 < p <= 100.0
    ensures var r := Percentile(Sort(samples, Ascending()), p); r.Some? && IsNearestRank(samples, p, r.value)
  {
    SortedPermutation(samples);
    RankIndexBounds(|samples|, p);
    RankOfSorted(samples, Sort(samples, Ascending()), p);
  }

  lemma SameCounts(a: seq<real>, b: seq<real>, keep: real -> bool)
    requires multiset(a) == multiset(b)
    ensures HowMany(a, keep) == HowMany(b, keep)
  {
    FilterMapPermutes(a, b, keep, Same());
    assert |multiset(FilterMap(a, keep, Same()))| == |multiset(FilterMap(b, keep, Same()))|;
  }

  /** ... and that definition pins the value down. */
  lemma NearestRankUnique(samples: seq<real>, p: real, r: real, s: real)
    requires IsNearestRank(samples, p, r) && IsNearestRank(samples, p, s)
    ensures r == s
  {
    if r < s {
      FewerKept(samples, AtMost(r), Below(s));
    } else if s < r {
      FewerKept(samples, AtMost(s), Below(r));
    }
  }

  lemma {:induction false} FewerKept(samples: seq<real>, keep: real -> bool, also: real -> bool)
    requires forall y :: keep(y) ==> also(y)
    ensures HowMany(samples, keep) <= HowMany(samples, also)
  {
    if samples != [] { FewerKept(samples[1..], keep, also); }
  }

  // ---------------------------------------------------------------- the whole summary

  lemma RankMonotone(n: nat, p: real, q: real)
    requires n > 0 && 0.0 < p <= q <= 100.0
    ensures 0 <= RankIndex(n, p) <= RankIndex(n, q) < n
  {
    assert (p / 100.0) * (n as real) <= (q / 100.0) * (n as real);
  }

  lemma {:induction false} SumBetween(s: seq<real>, lo: real, hi: real)
    requires forall i | 0 <= i < |s| :: lo <= s[i] <= hi
    ensures lo * (|s| as real) <= Sum(s) <= hi * (|s| as real)
  {
    if s != [] { SumBetween(s[..|s| - 1], lo, hi); }
  }

  lemma MeanBetween(sum: real, n: nat, lo: real, hi: real)
    requires n > 0 && lo * (n as real) <= sum <= hi * (n as real)
    ensures lo <= sum / (n as real) <= hi
  {
    var m := sum / (n as real);
    assert m * (n as real) == sum;
    assert m < lo ==> m * (n as real) < lo * (n as real);
    assert hi < m ==> hi * (n as real) < m * (n as real);
  }

  lemma MeanOfBetween(s: seq<real>, lo: real, hi: real)
    requires s != [] && forall i | 0 <= i < |s| :: lo <= s[i] <= hi
    ensures lo <= Sum(s) / (|s| as real) <= hi
  {
    SumBetween(s, lo, hi);
    MeanBetween(Sum(s), |s|, lo, hi);
  }

  lemma SortedMonotone(sorted: seq<real>, i: nat, j: nat)
    requires Sorted(sorted, Ascending()) && i <= j < |sorted|
    ensures sorted[i] <= sorted[j]
  {
    assert i < j ==> Ascending()(sorted[i], sorted[j]);
  }

  lemma SortedMean(sorted: seq<real>)
    requires sorted != [] && Sorted(sorted, Ascending())
    ensures sorted[0] <= Sum(sorted) / (|sorted| as real) <= sorted[|sorted| - 1]
  {
    var lo, hi := sorted[0], sorted[|sorted| - 1];
    forall i | 0 <= i < |sorted| ensures lo <= sorted[i] <= hi {
      SortedMonotone(sorted, 0, i);
      SortedMonotone(sorted, i, |sorted| - 1);
    }
    MeanOfBetween(sorted, lo, hi);
  }

  lemma RanksOrdered(n: nat)
    requires n > 0
    ensures 0 <= RankIndex(n, 50.0) <= RankIndex(n, 90.0) <= RankIndex(n, 95.0) <= RankIndex(n, 99.0) < n
  {
    RankMonotone(n, 50.0, 90.0);
    RankMonotone(n, 90.0, 95.0);
    RankMonotone(n, 95.0, 99.0);
  }

  lemma WithinEnds(samples: seq<real>, sorted: seq<real>)
    requires Sorted(sorted, Ascending()) && multiset(sorted) == multiset(samples)
    ensures forall x | x in samples :: sorted != [] && sorted[0] <= x <= sorted[|sorted| - 1]
  {
    forall x | x in samples ensures sorted != [] && sorted[0] <= x <= sorted[|sorted| - 1] {
      assert x in multiset(sorted);
      var i :| 0 <= i < |sorted| && sorted[i] == x;
      SortedMonotone(sorted, 0, i);
      SortedMonotone(sorted, i, |sorted| - 1);
    }
  }

  /** The reported figures are ordered: min <= p50 <= p90 <= p95 <= p99 <= max, and the mean lies in between. */
  lemma SummaryOrdered(samples: seq<real>, elapsedMs: real)
    requires samples != []
    ensures var s := Summarize(samples, elapsedMs);
      && s.count == |samples| && s.min.Some? && s.max.Some? && s.mean.Some?
      && s.p50.Some? && s.p90.Some? && s.p95.Some? && s.p99.Some?
      && s.min.value <= s.p50.value <= s.p90.value <= s.p95.value <= s.p99.value <= s.max.value
      && s.min.value <= s.mean.value <= s.max.value
      && forall x | x in samples :: s.min.value <= x <= s.max.value
  {
    hide Sort, RankIndex, Sum;
    SortedPermutation(samples);
    var sorted := Sort(samples, Ascending());
    var n := |sorted|;
    RanksOrdered(n);
    SortedMean(sorted);
    SortedMonotone(sorted, 0, RankIndex(n, 50.0));
    SortedMonotone(sorted, RankIndex(n, 50.0), RankIndex(n, 90.0));
    SortedMonotone(sorted, RankIndex(n, 90.0), RankIndex(n, 95.0));
    SortedMonotone(sorted, RankIndex(n, 95.0), RankIndex(n, 99.0));
    SortedMonotone(sorted, RankIndex(n, 99.0), n - 1);
    WithinEnds(samples, sorted);
  }

  lemma SummaryOfPermutation(a: seq<real>, b: seq<real>, elapsedMs: real)
    requires multiset(a) == multiset(b)
    ensures Summarize(a, elapsedMs) == Summarize(b, elapsedMs)
  {
    SortOfPermutation(a, b, Ascending());
  }

  /** Adding up from the front. */
  function Total(s: seq<real>): real { if s == [] then 0.0 else s[0] + Total(s[1..]) }

  lemma {:induction false} TotalConcat(a: seq<real>, b: seq<real>)
    ensures Total(a + b) == Total(a) + Total(b)
  {
    if a == [] {
      assert a + b == b;
    } else {
      TotalConcat(a[1..], b);
      assert (a + b)[1..] == a[1..] + b;
    }
  }

  lemma {:induction false} SumIsTotal(s: seq<real>)
    ensures Sum(s) == Total(s)
  {
    if s != [] {
      SumIsTotal(s[..|s| - 1]);
      TotalConcat(s[..|s| - 1], [s[|s| - 1]]);
      assert s == s[..|s| - 1] + [s[|s| - 1]];
      assert Total([s[|s| - 1]]) == s[|s| - 1];
    }
  }

  lemma TotalOne(x: real)
    ensures Total([x]) == x
  {
  }

  lemma {:induction false} TotalOfPermutation(a: seq<real>, b: seq<real>)
    requires multiset(a) == multiset(b)
    ensures Total(a) == Total(b)
  {
    if a == [] {
      assert |multiset(b)| == 0;
    } else {
      var l, r := RemoveFrom(a, b);
      TotalOfPermutation(a[1..], l + r);
      TotalConcat(l + [a[0]], r);
      TotalConcat(l, [a[0]]);
      TotalConcat(l, r);
      TotalOne(a[0]);
    }
  }

  ghost predicate IsMin(samples: seq<real>, m: real) { m in samples && forall x | x in samples :: m <= x }
  ghost predicate IsMax(samples: seq<real>, m: real) { m in samples && forall x | x in samples :: x <= m }

  ghost predicate IsRank(samples: seq<real>, p: real, r: Option<real>) { r.Some? && IsNearestRank(samples, p, r.value) }

  lemma Ranks(samples: seq<real>)
    requires samples != []
    ensures var sorted := Sort(samples, Ascending());
      && IsRank(samples, 50.0, Percentile(sorted, 50.0)) && IsRank(samples, 90.0, Percentile(sorted, 90.0))
      && IsRank(samples, 95.0, Percentile(sorted, 95.0)) && IsRank(samples, 99.0, Percentile(sorted, 99.0))
  {
    hide Sort, Percentile, IsNearestRank;
    PercentileIsNearestRank(samples, 50.0);
    PercentileIsNearestRank(samples, 90.0);
    PercentileIsNearestRank(samples, 95.0);
    PercentileIsNearestRank(samples, 99.0);
  }

  lemma Extremes(samples: seq<real>, sorted: seq<real>)
    requires samples != [] && Sorted(sorted, Ascending()) && multiset(sorted) == multiset(samples) && |sorted| == |samples|
    ensures IsMin(samples, sorted[0]) && IsMax(samples, sorted[|sorted| - 1])
  {
    WithinEnds(samples, sorted);
    SameMembers(samples, sorted);
  }

  lemma MeanIsTotal(samples: seq<real>, sorted: seq<real>)
    requires samples != [] && multiset(sorted) == multiset(samples) && |sorted| == |samples|
    ensures (Sum(sorted) / (|sorted| as real)) * (|samples| as real) == Total(samples)
  {
    hide Sum, Total;
    SumIsTotal(sorted);
    TotalOfPermutation(sorted, samples);
    Quotient(Sum(sorted), |sorted| as real);
  }

  /** Every reported figure, for all samples: the extremes, the four nearest-rank percentiles, the mean as the total over the
      count, and the requests per second; without samples all but the count and the rate are absent. */
  lemma SummaryExact(samples: seq<real>, elapsedMs: real)
    ensures var s := Summarize(samples, elapsedMs);
      && s.count == |samples|
      && (if elapsedMs > 0.0 then s.rps.Some? && s.rps.value * elapsedMs == (|samples| as real) * 1000.0 else s.rps.None?)
      && (samples == [] ==> s.min.None? && s.max.None? && s.mean.None? && s.p50.None? && s.p90.None? && s.p95.None? && s.p99.None?)
      && (samples != [] ==>
            && s.min.Some? && IsMin(samples, s.min.value) && s.max.Some? && IsMax(samples, s.max.value)
            && s.mean.Some? && s.mean.value * (|samples| as real) == Total(samples)
            && IsRank(samples, 50.0, s.p50) && IsRank(samples, 90.0, s.p90) && IsRank(samples, 95.0, s.p95) && IsRank(samples, 99.0, s.p99))
  {
    hide Sort, Sum, IsRank, Total, IsMin, IsMax, RankIndex;
    SortedPermutation(samples);
    var sorted := Sort(samples, Ascending());
    if elapsedMs > 0.0 { Quotient((|samples| as real) * 1000.0, elapsedMs); }
    if samples != [] {
      Ranks(samples);
      Extremes(samples, sorted);
      MeanIsTotal(samples, sorted);
    }
  }

  lemma Quotient(x: real, y: real)
    requires y > 0.0
    ensures (x / y) * y == x
  {
  }

  lemma SameMembers(a: seq<real>, b: seq<real>)
    requires multiset(a) == multiset(b)
    ensures forall x :: x in a <==> x in b
  {
    forall x ensures x in a <==> x in b { assert x in multiset(a) <==> x in multiset(b); }
  }

  /** The reported latency summary and failure count do not depend on the scheduler. */
  lemma SummaryScheduleIndependent(o: Options, s: seq<Action>, t: seq<Action>, answer: nat -> Sample, elapsedMs: real)
    requires o.concurrency >= 1
    requires Exec(o, s).Some? && Finished(Exec(o, s).value) && Answered(s, o, answer)
    requires Exec(o, t).Some? && Finished(Exec(o, t).value) && Answered(t, o, answer)
    ensures Summarize(Exec(o, s).value.successes, elapsedMs) == Summarize(Exec(o, t).value.successes, elapsedMs)
    ensures |Exec(o, s).value.failures| == |Exec(o, t).value.failures|
  {
    ScheduleIndependent(o, s, t, answer);
    SummaryOfPermutation(Exec(o, s).value.successes, Exec(o, t).value.successes, elapsedMs);
    assert |multiset(Exec(o, s).value.failures)| == |multiset(Exec(o, t).value.failures)|;
  }
}
