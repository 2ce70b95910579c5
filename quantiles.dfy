/** The quartile band of one group of fares, as pandas' default
    `Series.quantile([0.25, 0.5, 0.75])` computes it (statsvv.py:41):
    linear interpolation between adjacent order statistics at rank p·(n-1).
    Prices are integers and p is a multiple of 1/4, so every value is an exact
    rational; the model computes it in `real` rather than in floating point. */
module Quantiles {
  import opened Sorting

  datatype Band = Band(p25: real, p50: real, p75: real)

  /** numpy's linear interpolation `a + (b - a) * frac` at the fraction
      `rem`/4, one branch per quarter so that every product has a constant
      factor. */
  function Interpolate(a: int, b: int, rem: nat): (q: real)
    requires rem < 4
    ensures a <= b ==> a as real <= q <= b as real
    ensures rem == 0 ==> q == a as real
  {
    var d := (b - a) as real;
    if rem == 0 then a as real
    else if rem == 1 then a as real + d * 0.25
    else if rem == 2 then a as real + d * 0.5
    else a as real + d * 0.75
  }

  /** Interpolating further along the same gap gives a larger value. */
  lemma InterpolateMonotone(a: int, b: int, rem: nat, rem': nat)
    requires a <= b && rem <= rem' < 4
    ensures Interpolate(a, b, rem) <= Interpolate(a, b, rem')
  {
  }

  /** The value at `rank`/4 along the ascending sample `v`: the order
      statistic `v[rank / 4]`, moved towards the next one by the weight
      `(rank % 4) / 4` when the rank falls between two of them. */
  function ValueAtRank(v: seq<int>, rank: nat): (q: real)
    requires Sorted(v) && rank <= 4 * (|v| - 1)
    ensures v[0] as real <= q <= v[|v| - 1] as real
  {
    var lo, rem := rank / 4, rank % 4;
    if rem == 0 then v[lo] as real else Interpolate(v[lo], v[lo + 1], rem)
  }

  /** The k/4 quantile of the ascending sample `v`, at rank (n-1)·k/4. */
  function Quantile(v: seq<int>, k: nat): (q: real)
    requires |v| > 0 && Sorted(v) && k <= 4
    ensures v[0] as real <= q <= v[|v| - 1] as real
  {
    assert (|v| - 1) * k <= (|v| - 1) * 4;
    ValueAtRank(v, (|v| - 1) * k)
  }

  /** Where the value at a rank sits relative to its two order statistics. */
  lemma ValueAtRankWithin(v: seq<int>, rank: nat)
    requires Sorted(v) && rank <= 4 * (|v| - 1)
    ensures rank / 4 < |v|
    ensures v[rank / 4] as real <= ValueAtRank(v, rank)
    ensures rank % 4 == 0 ==> ValueAtRank(v, rank) == v[rank / 4] as real
    ensures rank % 4 != 0 ==> rank / 4 + 1 < |v| && ValueAtRank(v, rank) <= v[rank / 4 + 1] as real
  {
  }

  /** A higher rank never gives a smaller value. */
  lemma ValueAtRankMonotone(v: seq<int>, rank: nat, rank': nat)
    requires Sorted(v) && rank <= rank' <= 4 * (|v| - 1)
    ensures ValueAtRank(v, rank) <= ValueAtRank(v, rank')
  {
    var lo, rem := rank / 4, rank % 4;
    var lo', rem' := rank' / 4, rank' % 4;
    assert rank == 4 * lo + rem && rank' == 4 * lo' + rem';
    ValueAtRankWithin(v, rank);
    ValueAtRankWithin(v, rank');
    if lo == lo' {
      assert rem <= rem';
      if rem != 0 {
        InterpolateMonotone(v[lo], v[lo + 1], rem, rem');
      }
    } else {
      assert lo < lo';
      assert v[lo] <= v[lo'];
      if rem != 0 {
        assert v[lo + 1] <= v[lo'];
      }
    }
  }

  /** A higher quantile of a sorted sample is never smaller. */
  lemma QuantileMonotone(v: seq<int>, k: nat, k': nat)
    requires |v| > 0 && Sorted(v) && k <= k' <= 4
    ensures Quantile(v, k) <= Quantile(v, k')
  {
    var n := |v| - 1;
    assert n * k <= n * k' <= n * 4;
    ValueAtRankMonotone(v, n * k, n * k');
  }

  /** The band pandas computes for one group's prices (statsvv.py:39-44 and
      49-54): quartiles of the sorted sample, ordered, and inside the range
      of the sample. */
  function Quartiles(prices: seq<int>): (b: Band)
    requires |prices| > 0
    ensures Min(prices) as real <= b.p25 <= b.p50 <= b.p75 <= Max(prices) as real
  {
    var v := Sort(prices);
    SortEnds(prices);
    QuantileMonotone(v, 1, 2);
    QuantileMonotone(v, 2, 3);
    Band(Quantile(v, 1), Quantile(v, 2), Quantile(v, 3))
  }

  /** The band depends only on the multiset of prices, not on their order. */
  lemma QuartilesOrderIndependent(a: seq<int>, b: seq<int>)
    requires |a| > 0 && multiset(a) == multiset(b)
    ensures |b| > 0 && Quartiles(a) == Quartiles(b)
  {
    assert |b| == |multiset(b)| == |multiset(a)| == |a|;
    SortOrderIndependent(a, b);
  }

  /** An already ascending sample is its own order statistics. */
  lemma QuartilesOfSorted(v: seq<int>)
    requires |v| > 0 && Sorted(v)
    ensures Quartiles(v) == Band(Quantile(v, 1), Quantile(v, 2), Quantile(v, 3))
  {
    SortedUnique(Sort(v), v);
  }

  /** A one-fare group has all three quartiles equal to that fare. */
  lemma QuartilesSingle(x: int)
    ensures Quartiles([x]) == Band(x as real, x as real, x as real)
  {
    QuartilesOfSorted([x]);
  }

  lemma QuantilesOfTwo(v: seq<int>)
    requires |v| == 2 && Sorted(v)
    ensures Quantile(v, 1) == v[0] as real + (v[1] - v[0]) as real / 4.0
    ensures Quantile(v, 2) == (v[0] + v[1]) as real / 2.0
    ensures Quantile(v, 3) == v[0] as real + 3.0 * (v[1] - v[0]) as real / 4.0
  {
    assert Quantile(v, 1) == ValueAtRank(v, 1);
    assert Quantile(v, 2) == ValueAtRank(v, 2);
    assert Quantile(v, 3) == ValueAtRank(v, 3);
  }

  /** Two ascending fares: the quartiles sit a quarter, half and three
      quarters of the way from the cheaper to the dearer one. */
  lemma QuartilesOfTwoSorted(v: seq<int>)
    requires |v| == 2 && Sorted(v)
    ensures Quartiles(v) == Band(v[0] as real + (v[1] - v[0]) as real / 4.0,
                                 (v[0] + v[1]) as real / 2.0,
                                 v[0] as real + 3.0 * (v[1] - v[0]) as real / 4.0)
  {
    QuartilesOfSorted(v);
    QuantilesOfTwo(v);
  }

  lemma QuantilesOfThree(v: seq<int>)
    requires |v| == 3 && Sorted(v)
    ensures Quantile(v, 1) == (v[0] + v[1]) as real / 2.0
    ensures Quantile(v, 2) == v[1] as real
    ensures Quantile(v, 3) == (v[1] + v[2]) as real / 2.0
  {
    assert Quantile(v, 1) == ValueAtRank(v, 2);
    assert Quantile(v, 2) == ValueAtRank(v, 4);
    assert Quantile(v, 3) == ValueAtRank(v, 6);
  }

  /** Three ascending fares: the median is the middle one and the outer
      quartiles are the midpoints of the two gaps. */
  lemma QuartilesOfThreeSorted(v: seq<int>)
    requires |v| == 3 && Sorted(v)
    ensures Quartiles(v) == Band((v[0] + v[1]) as real / 2.0, v[1] as real, (v[1] + v[2]) as real / 2.0)
  {
    QuartilesOfSorted(v);
    QuantilesOfThree(v);
  }

  /** Fares 5000, 7000, 9000 give 6000 / 7000 / 8000. */
  lemma QuartilesExampleThree()
    ensures Quartiles([5000, 7000, 9000]) == Band(6000.0, 7000.0, 8000.0)
  {
    QuartilesOfThreeSorted([5000, 7000, 9000]);
  }

  /** The same fares read in another order give the same band. */
  lemma QuartilesExampleShuffled()
    ensures Quartiles([9000, 5000, 7000]) == Band(6000.0, 7000.0, 8000.0)
  {
    QuartilesExampleThree();
    QuartilesOrderIndependent([5000, 7000, 9000], [9000, 5000, 7000]);
  }

  /** Fares 1 and 2 give quartiles that are not integers. */
  lemma QuartilesExampleTwo()
    ensures Quartiles([1, 2]) == Band(1.25, 1.5, 1.75)
  {
    QuartilesOfTwoSorted([1, 2]);
  }
}
