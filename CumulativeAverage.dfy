/** The running mean of a series, updated from the previous mean, the new
    value and the number of values seen (src/cumulative_average.py). */
module CumulativeAverage {
  import opened Numeric

  /** `(new + (k - 1) * prev) / k`. Python divides by zero for k = 0, so the
      caller must count the new value itself (k >= 1). */
  function CumulativeAverage(prevCumulativeAverage: real, newValue: real, numberOfHistoryPoints: int): (r: real)
    requires numberOfHistoryPoints >= 1
    ensures numberOfHistoryPoints == 1 ==> r == newValue
    ensures prevCumulativeAverage <= newValue ==> prevCumulativeAverage <= r <= newValue
    ensures newValue <= prevCumulativeAverage ==> newValue <= r <= prevCumulativeAverage
    ensures r * (numberOfHistoryPoints as real) == newValue + ((numberOfHistoryPoints - 1) as real) * prevCumulativeAverage
  {
    var k := numberOfHistoryPoints as real;
    (newValue + (k - 1.0) * prevCumulativeAverage) / k
  }

  /** If `prev` is the mean of the first k - 1 values, the update gives the
      mean of the first k values. */
  lemma {:induction false} CumulativeAverageIsMean(xs: seq<real>)
    requires |xs| >= 2
    ensures CumulativeAverage(Mean(xs[..|xs| - 1]), xs[|xs| - 1], |xs|) == Mean(xs)
  {
    var k := |xs| as real;
    var front := xs[..|xs| - 1];
    assert Sum(xs) == Sum(front) + xs[|xs| - 1];
    assert Mean(front) * (k - 1.0) == Sum(front);
    var r := CumulativeAverage(Mean(front), xs[|xs| - 1], |xs|);
    assert r * k == Sum(xs);
  }

  /** The running value after feeding the series in order: the first value
      at k = 1 (the previous mean is then ignored), each later one at its
      position. */
  function Fold(xs: seq<real>): (r: real)
    requires xs != []
  {
    if |xs| == 1 then CumulativeAverage(0.0, xs[0], 1)
    else CumulativeAverage(Fold(xs[..|xs| - 1]), xs[|xs| - 1], |xs|)
  }

  /** Folding every value in gives the mean of the whole series. */
  lemma {:induction false} FoldIsMean(xs: seq<real>)
    requires xs != []
    ensures Fold(xs) == Mean(xs)
  {
    if |xs| == 1 {
      assert xs[..0] == [];
      assert Sum(xs) == Sum(xs[..0]) + xs[0];
    } else {
      FoldIsMean(xs[..|xs| - 1]);
      CumulativeAverageIsMean(xs);
    }
  }
}
