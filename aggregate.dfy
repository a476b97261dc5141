/** The aggregator: the arithmetic mean of the successful values of one
    configuration, in exact reals. Where the scripts hand an empty list to
    np.mean (which yields NaN), the mean here is None. */
module Aggregate {
  import opened PyBuiltins

  /** The sum of xs, accumulated from the back. */
  function Sum(xs: seq<real>): real {
    if xs == [] then 0.0 else Sum(xs[..|xs| - 1]) + xs[|xs| - 1]
  }

  /** The sum accumulated from the back agrees with the sum taken from the
      front, so the order of summation does not matter. */
  lemma {:induction false} SumFront(xs: seq<real>)
    ensures Sum(xs) == if xs == [] then 0.0 else xs[0] + Sum(xs[1..])
  {
    if |xs| == 1 {
      assert xs[..0] == [] && xs[1..] == [];
    } else if |xs| > 1 {
      var init := xs[..|xs| - 1];
      SumFront(init);
      assert init[1..] == xs[1..][..|xs| - 2];
    }
  }

  /** The mean of xs; None exactly when there is nothing to average. */
  function Mean(xs: seq<real>): (r: Option<real>)
    ensures r.None? <==> xs == []
    ensures r.Some? ==> r.value * (|xs| as real) == Sum(xs)
  {
    if xs == [] then None else Some(Sum(xs) / (|xs| as real))
  }

  /** Bounds on the elements bound the sum. */
  lemma {:induction false} SumBounds(xs: seq<real>, lo: real, hi: real)
    requires forall k :: 0 <= k < |xs| ==> lo <= xs[k] <= hi
    ensures (|xs| as real) * lo <= Sum(xs) <= (|xs| as real) * hi
  {
    if xs != [] {
      SumBounds(xs[..|xs| - 1], lo, hi);
      assert (|xs| as real) * lo == ((|xs| - 1) as real) * lo + lo;
      assert (|xs| as real) * hi == ((|xs| - 1) as real) * hi + hi;
    }
  }

  lemma SignOfProduct(n: real, x: real)
    requires n > 0.0 && n * x <= 0.0
    ensures x <= 0.0
  {
  }

  /** The mean lies between the least and the greatest value averaged. */
  lemma MeanBounds(xs: seq<real>, lo: real, hi: real)
    requires xs != []
    requires forall k :: 0 <= k < |xs| ==> lo <= xs[k] <= hi
    ensures Mean(xs).Some? && lo <= Mean(xs).value <= hi
  {
    SumBounds(xs, lo, hi);
    var n := |xs| as real;
    var m := Mean(xs).value;
    assert n * m == Sum(xs);
    assert n * (m - hi) <= 0.0 && n * (lo - m) <= 0.0;
    SignOfProduct(n, m - hi);
    SignOfProduct(n, lo - m);
  }

  /** Averaging copies of one value gives that value. */
  lemma MeanOfConstant(xs: seq<real>, c: real)
    requires xs != []
    requires forall k :: 0 <= k < |xs| ==> xs[k] == c
    ensures Mean(xs) == Some(c)
  {
    MeanBounds(xs, c, c);
  }

  /** The worked values of the aggregator: mean of [1, 2, 3] is 2, mean of
      [1, 3] is 2, and nothing to average gives None. */
  lemma MeanExamples()
    ensures Mean([1.0, 2.0, 3.0]) == Some(2.0)
    ensures Mean([1.0, 3.0]) == Some(2.0)
    ensures Mean([]) == None
  {
    assert [1.0, 2.0, 3.0][..2] == [1.0, 2.0];
    assert [1.0, 2.0][..1] == [1.0];
    assert [1.0][..0] == [];
    assert [1.0, 3.0][..1] == [1.0];
  }
}
