/** internal/observability/metrics/log_sink.go: the summary of a window of samples, over exact reals. */
module DurationStats {
  import opened Sorting

  datatype Stats = Stats(count: real, avg: real, p50: real, p95: real, max: real)

  predicate AtMost(a: real, b: real) {
    a <= b
  }

  predicate Increasing(s: seq<real>) {
    Sorted(s, AtMost)
  }

  function Ceil(x: real): int {
    -(-x).Floor
  }

  /** Linear interpolation between the neighbours of pos. */
  function At(s: seq<real>, pos: real): real
    requires s != [] && 0.0 <= pos <= (|s| - 1) as real
  {
    var left, right := pos.Floor, Ceil(pos);
    if left == right then s[left] else Interpolate(s[left], s[right], pos - left as real)
  }

  function Quantile(sorted: seq<real>, q: real): real {
    if |sorted| == 0 then 0.0
    else if q <= 0.0 then sorted[0]
    else if q >= 1.0 then sorted[|sorted| - 1]
    else
      var last := (|sorted| - 1) as real;
      Between(q, last);
      At(sorted, Position(q, last))
  }

  function Position(q: real, last: real): real {
    q * last
  }

  function Interpolate(a: real, b: real, weight: real): real {
    a * (1.0 - weight) + b * weight
  }

  function Sum(s: seq<real>): real {
    if s == [] then 0.0 else Sum(s[..|s| - 1]) + s[|s| - 1]
  }

  /** durationStats of samples that are already in order. */
  function StatsOf(sorted: seq<real>): Stats
    requires sorted != []
  {
    Stats(|sorted| as real, Sum(sorted) / |sorted| as real,
          Quantile(sorted, 0.5), Quantile(sorted, 0.95), sorted[|sorted| - 1])
  }

  lemma InOrderSorts(samples: seq<real>)
    ensures Increasing(InOrder(samples, AtMost)) && multiset(InOrder(samples, AtMost)) == multiset(samples)
  {
    assert TotalPreorder(AtMost);
    InOrderIsSorted(samples, AtMost);
    InOrderKeeps(samples, AtMost);
  }

  /** What is reported of a window of samples. */
  function Summary(samples: seq<real>): Stats
    requires samples != []
  {
    StatsOf(InOrder(samples, AtMost))
  }

  /** durationStats: sorts its argument in place. */
  method Summarize(values: array<real>) returns (stats: Stats)
    requires values.Length > 0
    modifies values
    ensures Increasing(values[..]) && multiset(values[..]) == multiset(old(values[..]))
    ensures stats == StatsOf(values[..]) == Summary(old(values[..]))
  {
    Sort(values, AtMost);
    InOrderSorts(old(values[..]));
    SortedIsUnique(values[..], InOrder(old(values[..]), AtMost), AtMost);
    var sum := 0.0;
    for i := 0 to values.Length
      invariant sum == Sum(values[..i])
    {
      assert values[..i + 1][..i] == values[..i];
      sum := sum + values[i];
    }
    assert values[..values.Length] == values[..];
    var count := values.Length as real;
    stats := Stats(count, sum / count, Quantile(values[..], 0.5), Quantile(values[..], 0.95),
        values[values.Length - 1]);
  }

  /** The summary depends on which samples there are and how often, not on when they were observed. */
  lemma OrderOfSamplesIsForgotten(s: seq<real>, t: seq<real>)
    requires s != [] && t != [] && multiset(s) == multiset(t)
    ensures Summary(s) == Summary(t)
  {
    InOrderSorts(s);
    InOrderSorts(t);
    SortedIsUnique(InOrder(s, AtMost), InOrder(t, AtMost), AtMost);
  }

  // ---------------------------------------------------------------------------------------------------------
  // Quantiles
  // ---------------------------------------------------------------------------------------------------------

  lemma Between(q: real, last: real)
    requires 0.0 <= q <= 1.0 && 0.0 <= last
    ensures 0.0 <= Position(q, last) <= last
  {
    ScaledOrder(0.0, q, last);
    ScaledOrder(q, 1.0, last);
    Ends(last);
  }

  lemma ScaledOrder(p: real, q: real, last: real)
    requires p <= q && 0.0 <= last
    ensures Position(p, last) <= Position(q, last)
  {
  }

  lemma CeilIsNext(x: real)
    ensures Ceil(x) == if x == x.Floor as real then x.Floor else x.Floor + 1
  {
  }

  function Clamp(q: real): real {
    if q <= 0.0 then 0.0 else if q >= 1.0 then 1.0 else q
  }

  lemma QuantileIsAt(s: seq<real>, q: real)
    requires s != []
    ensures 0.0 <= Position(Clamp(q), (|s| - 1) as real) <= (|s| - 1) as real
    ensures Quantile(s, q) == At(s, Position(Clamp(q), (|s| - 1) as real))
  {
    hide At, Position;
    Between(Clamp(q), (|s| - 1) as real);
    if q <= 0.0 {
      AtIndex(s, 0);
      Ends((|s| - 1) as real);
    } else if q >= 1.0 {
      AtIndex(s, |s| - 1);
      Ends((|s| - 1) as real);
    }
  }

  lemma Ends(last: real)
    ensures Position(0.0, last) == 0.0 && Position(1.0, last) == last
  {
  }

  lemma AtIndex(s: seq<real>, i: nat)
    requires i < |s|
    ensures At(s, i as real) == s[i]
  {
    CeilIsNext(i as real);
  }

  lemma InterpolateBetween(a: real, b: real, weight: real)
    requires a <= b && 0.0 <= weight <= 1.0
    ensures a <= Interpolate(a, b, weight) <= b
  {
    assert Interpolate(a, b, weight) == a + (b - a) * weight;
    Between(weight, b - a);
  }

  lemma InterpolateGrows(a: real, b: real, v: real, w: real)
    requires a <= b && v <= w
    ensures Interpolate(a, b, v) <= Interpolate(a, b, w)
  {
    assert Interpolate(a, b, v) == a + (b - a) * v;
    assert Interpolate(a, b, w) == a + (b - a) * w;
    ScaledOrder(v, w, b - a);
  }

  /** Between two samples the quantile is on the straight line through them. */
  lemma QuantileInterpolates(s: seq<real>, q: real, i: nat, weight: real)
    requires i + 1 < |s| && 0.0 <= weight <= 1.0 && q * (|s| - 1) as real == i as real + weight
    ensures Quantile(s, q) == s[i] + (s[i + 1] - s[i]) * weight
  {
    var last := (|s| - 1) as real;
    assert Position(q, last) == i as real + weight;
    ScaleOf(q, last);
    hide Position, Quantile, At, Clamp;
    QuantileIsAt(s, q);
    assert Clamp(q) == q;
    AtWeight(s, i, weight);
  }

  lemma ScaleOf(q: real, last: real)
    requires last > 0.0 && 0.0 <= Position(q, last) <= last
    ensures 0.0 <= q <= 1.0 && Clamp(q) == q
  {
    ScaledBelow(q, 0.0, last);
    ScaledBelow(1.0, q, last);
    Ends(last);
    hide Position;
  }

  lemma ScaledBelow(p: real, q: real, last: real)
    requires last > 0.0
    ensures p < q ==> Position(p, last) < Position(q, last)
  {
  }

  lemma AtWeight(s: seq<real>, i: nat, weight: real)
    requires i + 1 < |s| && 0.0 <= weight <= 1.0
    ensures At(s, i as real + weight) == s[i] + (s[i + 1] - s[i]) * weight
  {
    var pos := i as real + weight;
    CeilIsNext(pos);
    if weight == 1.0 {
      AtIndex(s, i + 1);
      assert pos == (i + 1) as real;
    } else {
      assert pos.Floor == i;
      assert Interpolate(s[i], s[i + 1], weight) == s[i] + (s[i + 1] - s[i]) * weight;
    }
  }

  /** The line stays between the samples on either side of it. */
  lemma AtBetween(s: seq<real>, pos: real)
    requires s != [] && Increasing(s) && 0.0 <= pos <= (|s| - 1) as real
    ensures s[pos.Floor] <= At(s, pos) <= s[Ceil(pos)]
  {
    CeilIsNext(pos);
    if pos.Floor != Ceil(pos) {
      InterpolateBetween(s[pos.Floor], s[Ceil(pos)], pos - pos.Floor as real);
    }
  }

  lemma AtGrows(s: seq<real>, pos: real, pos': real)
    requires s != [] && Increasing(s) && 0.0 <= pos <= pos' <= (|s| - 1) as real
    ensures At(s, pos) <= At(s, pos')
  {
    CeilIsNext(pos);
    CeilIsNext(pos');
    AtBetween(s, pos);
    AtBetween(s, pos');
    var left := pos.Floor;
    if pos'.Floor == left {
      if Ceil(pos) != left {
        InterpolateGrows(s[left], s[left + 1], pos - left as real, pos' - left as real);
      }
    } else {
      assert Ceil(pos) <= pos'.Floor;
      assert s[Ceil(pos)] <= s[pos'.Floor];
    }
  }

  /** A larger quantile is never smaller, and every quantile is between the least and the greatest sample. */
  lemma QuantileIsMonotone(s: seq<real>, p: real, q: real)
    requires s != [] && Increasing(s) && p <= q
    ensures s[0] <= Quantile(s, p) <= Quantile(s, q) <= s[|s| - 1]
  {
    hide Quantile, At, Sorted, Clamp, Position;
    QuantileIsAt(s, p);
    QuantileIsAt(s, q);
    ClampGrows(p, q, (|s| - 1) as real);
    AtIsMonotone(s, Position(Clamp(p), (|s| - 1) as real), Position(Clamp(q), (|s| - 1) as real));
  }

  lemma ClampGrows(p: real, q: real, last: real)
    requires p <= q && 0.0 <= last
    ensures Position(Clamp(p), last) <= Position(Clamp(q), last)
  {
    ScaledOrder(Clamp(p), Clamp(q), last);
  }

  lemma AtIsMonotone(s: seq<real>, pos: real, pos': real)
    requires s != [] && Increasing(s) && 0.0 <= pos <= pos' <= (|s| - 1) as real
    ensures s[0] <= At(s, pos) <= At(s, pos') <= s[|s| - 1]
  {
    hide At, Sorted;
    AtGrows(s, pos, pos');
    AtBetween(s, pos);
    AtBetween(s, pos');
    FirstAndLast(s, pos.Floor, Ceil(pos'));
  }

  lemma FirstAndLast(s: seq<real>, i: int, j: int)
    requires s != [] && Increasing(s) && 0 <= i < |s| && 0 <= j < |s|
    ensures s[0] <= s[i] && s[j] <= s[|s| - 1]
  {
  }

  /** What is reported of samples is computed of them in order, and there is one such order. */
  lemma SummaryOfSorted(samples: seq<real>, s: seq<real>)
    requires samples != [] && Increasing(s) && multiset(s) == multiset(samples)
    ensures s != [] && |s| == |samples| && Summary(samples) == StatsOf(s)
  {
    InOrderSorts(samples);
    SortedIsUnique(s, InOrder(samples, AtMost), AtMost);
  }

  /** The reported median is the middle sample, or the mean of the two in the middle. */
  lemma MedianIsMiddle(samples: seq<real>, s: seq<real>, k: nat)
    requires samples != [] && Increasing(s) && multiset(s) == multiset(samples)
    ensures |s| == |samples|
    ensures |samples| == 2 * k + 1 ==> Summary(samples).p50 == s[k]
    ensures |samples| == 2 * k + 2 ==> Summary(samples).p50 == (s[k] + s[k + 1]) / 2.0
  {
    hide Quantile, Sum, Summary, Sorted;
    SummaryOfSorted(samples, s);
    if |s| == 2 * k + 1 {
      QuantileAtSample(s, 0.5, k);
    } else if |s| == 2 * k + 2 {
      assert 0.5 * (2.0 * k as real + 1.0) == k as real + 0.5;
      QuantileInterpolates(s, 0.5, k, 0.5);
    }
  }

  lemma QuantileAtSample(s: seq<real>, q: real, i: nat)
    requires i < |s| && q * (|s| - 1) as real == i as real && q < 1.0
    ensures Quantile(s, q) == s[i]
  {
    if |s| == 1 {
      OnlySample(s, q);
    } else {
      ScaledBelow(q, 1.0, (|s| - 1) as real);
      Ends((|s| - 1) as real);
      hide Quantile;
      QuantileInterpolates(s, q, i, 0.0);
    }
  }

  lemma OnlySample(s: seq<real>, q: real)
    requires |s| == 1
    ensures Quantile(s, q) == s[0] && Quantile([], q) == 0.0
  {
  }

  /** The reported 95th percentile of 20 * k + 1 samples is the one at index 19 * k: of 101 samples, the 96th. */
  lemma NinetyFifth(samples: seq<real>, s: seq<real>, k: nat)
    requires |samples| == 20 * k + 1 && Increasing(s) && multiset(s) == multiset(samples)
    ensures |s| == |samples| && Summary(samples).p95 == s[19 * k]
  {
    hide Quantile, Sum, Summary, Sorted;
    SummaryOfSorted(samples, s);
    assert 0.95 * (20.0 * k as real) == 19.0 * k as real;
    QuantileAtSample(s, 0.95, 19 * k);
  }

  // ---------------------------------------------------------------------------------------------------------
  // The average
  // ---------------------------------------------------------------------------------------------------------

  lemma {:induction false} SumBounds(s: seq<real>, low: real, high: real)
    requires forall i :: 0 <= i < |s| ==> low <= s[i] <= high
    ensures |s| as real * low <= Sum(s) <= |s| as real * high
  {
    if s != [] {
      SumBounds(s[..|s| - 1], low, high);
      var n := (|s| - 1) as real;
      assert (n + 1.0) * low == n * low + low && (n + 1.0) * high == n * high + high;
    }
  }

  lemma {:induction false} SumAdds(s: seq<real>, t: seq<real>)
    ensures Sum(s + t) == Sum(s) + Sum(t)
  {
    if t == [] {
      assert s + t == s;
    } else {
      SumAdds(s, t[..|t| - 1]);
      assert (s + t)[..|s + t| - 1] == s + t[..|t| - 1];
    }
  }

  lemma SumOfOne(x: real)
    ensures Sum([x]) == x
  {
    assert [x][..0] == [];
  }

  /** The sum does not depend on the order. */
  lemma {:induction false} SumOfMultiset(s: seq<real>, t: seq<real>)
    requires multiset(s) == multiset(t)
    ensures Sum(s) == Sum(t)
  {
    hide Sum;
    assert |s| == |multiset(s)| == |multiset(t)| == |t|;
    if s != [] {
      assert s[0] in multiset(t);
      var i :| 0 <= i < |t| && t[i] == s[0];
      Without(s, 0);
      Without(t, i);
      SumOfMultiset(s[..0] + s[1..], t[..i] + t[i + 1..]);
    } else {
      assert t == [];
    }
  }

  lemma Without(s: seq<real>, i: nat)
    requires i < |s|
    ensures multiset(s[..i] + s[i + 1..]) == multiset(s) - multiset{s[i]}
    ensures Sum(s) == s[i] + Sum(s[..i] + s[i + 1..])
  {
    hide Sum;
    assert s == s[..i] + [s[i]] + s[i + 1..];
    TakeOut(s[..i], s[i], s[i + 1..]);
  }

  lemma TakeOut(s: seq<real>, x: real, t: seq<real>)
    ensures multiset(s + t) == multiset(s + [x] + t) - multiset{x}
    ensures Sum(s + [x] + t) == x + Sum(s + t)
  {
    SumAdds(s + [x], t);
    SumAdds(s, [x]);
    SumAdds(s, t);
    SumOfOne(x);
    hide Sum;
  }

  /** The average times the count is the sum of the samples, in whatever order they came. */
  lemma AverageOfSamples(samples: seq<real>)
    requires samples != []
    ensures Summary(samples).count == |samples| as real
    ensures Summary(samples).avg * |samples| as real == Sum(samples)
  {
    hide Quantile, Sum, InOrder, Sorted;
    InOrderSorts(samples);
    SumOfMultiset(InOrder(samples, AtMost), samples);
    DivideBack(Sum(samples), |samples| as real);
  }

  lemma DivideBack(sum: real, count: real)
    requires count > 0.0
    ensures sum / count * count == sum
  {
  }

  /** Two samples, the later one shorter. */
  lemma TwoSamples()
    ensures Summary([20.0, 10.0]) == Stats(2.0, 15.0, 15.0, 19.5, 20.0)
  {
    var s := [10.0, 20.0];
    assert multiset(s) == multiset([20.0, 10.0]);
    SummaryOfSorted([20.0, 10.0], s);
    AverageOfSamples([20.0, 10.0]);
    QuantileInterpolates(s, 0.5, 0, 0.5);
    QuantileInterpolates(s, 0.95, 0, 0.95);
    SumAdds([20.0], [10.0]);
    SumOfOne(20.0);
    SumOfOne(10.0);
    assert [20.0] + [10.0] == [20.0, 10.0];
    hide Quantile, Sum, Summary;
  }

  lemma ScaledStrictly(count: real, a: real, b: real)
    requires count > 0.0 && a < b
    ensures count * a < count * b
  {
  }

  lemma QuotientBounds(sum: real, count: real, low: real, high: real)
    requires count > 0.0 && count * low <= sum <= count * high
    ensures low <= sum / count <= high
  {
    var avg := sum / count;
    assert count * avg == sum;
    if avg < low {
      ScaledStrictly(count, avg, low);
    }
    if high < avg {
      ScaledStrictly(count, high, avg);
    }
  }

  lemma StatsAreOrdered(s: seq<real>)
    requires s != [] && Increasing(s)
    ensures var r := StatsOf(s);
            s[0] <= r.p50 <= r.p95 <= r.max && s[0] <= r.avg <= r.max
  {
    hide Quantile, Sum;
    QuantileIsMonotone(s, 0.5, 0.95);
    SumBounds(s, s[0], s[|s| - 1]);
    QuotientBounds(Sum(s), |s| as real, s[0], s[|s| - 1]);
  }

  /**
   * The reported figures are in the order a reader expects, above the least sample, and the maximum is one of the
   * samples and bounds them all.
   */
  lemma SummaryIsOrdered(samples: seq<real>)
    requires samples != []
    ensures var r := Summary(samples);
            && r.count == |samples| as real
            && (exists x :: x in samples && x <= r.p50 <= r.p95 <= r.max && x <= r.avg <= r.max
                            && forall y :: y in samples ==> x <= y <= r.max)
            && r.max in samples
  {
    var s := InOrder(samples, AtMost);
    InOrderSorts(samples);
    StatsAreOrdered(s);
    hide InOrder, Quantile, Sum;
    LeastAndGreatest(samples, s);
    hide StatsOf, Sorted;
    assert s[0] in samples;
  }

  lemma LeastAndGreatest(samples: seq<real>, s: seq<real>)
    requires s != [] && Increasing(s) && multiset(s) == multiset(samples)
    ensures s[0] in samples && s[|s| - 1] in samples
    ensures forall y :: y in samples ==> s[0] <= y <= s[|s| - 1]
  {
    assert s[0] in multiset(samples) && s[|s| - 1] in multiset(samples);
    forall y | y in samples ensures s[0] <= y <= s[|s| - 1] {
      assert y in multiset(s);
      var i :| 0 <= i < |s| && s[i] == y;
      FirstAndLast(s, i, i);
    }
  }
}
