/**
 * Indicator math (src/utils/tradeIndictors): moving average, the mathjs
 * "biased" variance behind the standard deviation, and candle direction.
 * Arithmetic is exact over `real`.
 */
module TradeIndicators {
  import opened Entities
  import opened RealArith
  import RangeMath

  /** The sum of the prices. */
  function Sum(s: seq<real>): real
  {
    if s == [] then 0.0 else Sum(s[..|s| - 1]) + s[|s| - 1]
  }

  /** getMovingAverage: the sum divided by the number of prices. */
  function MovingAverage(s: seq<real>): real
    requires |s| > 0
  {
    Sum(s) / (|s| as real)
  }

  /** The sum of squared deviations from `m`. */
  function SquaredDeviations(s: seq<real>, m: real): real
  {
    if s == [] then 0.0 else SquaredDeviations(s[..|s| - 1], m) + Sq(s[|s| - 1] - m)
  }

  /**
   * The square of `math.std(s, "biased")`: squared deviations from the
   * mean divided by n + 1.
   */
  function Variance(s: seq<real>): real
    requires |s| > 0
  {
    SquaredDeviations(s, MovingAverage(s)) / ((|s| + 1) as real)
  }

  /** `sigma` is the standard deviation of `s`: the non-negative root of its variance. */
  predicate IsStdDev(s: seq<real>, sigma: real)
  {
    |s| > 0 && sigma >= 0.0 && Sq(sigma) == Variance(s)
  }

  /** getCandleDirection: BUY when the price did not rise (open >= close), else SELL. */
  function CandleDirection(c: Candle): (d: Side)
    ensures d == Buy <==> c.openingPrice >= c.closingPrice
    ensures d == Sell <==> c.openingPrice < c.closingPrice
  {
    if c.openingPrice >= c.closingPrice then Buy else Sell
  }

  /** Every price is a constant `c`. */
  predicate AllEqual(s: seq<real>, c: real)
  {
    forall i :: 0 <= i < |s| ==> s[i] == c
  }

  lemma {:induction false} SumAbove(s: seq<real>, c: real)
    requires |s| > 0 && forall i :: 0 <= i < |s| ==> s[i] > c
    ensures Sum(s) > (|s| as real) * c
  {
    if |s| > 1 {
      SumAbove(s[..|s| - 1], c);
    }
  }

  lemma {:induction false} SumBelow(s: seq<real>, c: real)
    requires |s| > 0 && forall i :: 0 <= i < |s| ==> s[i] < c
    ensures Sum(s) < (|s| as real) * c
  {
    if |s| > 1 {
      SumBelow(s[..|s| - 1], c);
    }
  }

  lemma {:induction false} SumConstant(s: seq<real>, c: real)
    requires AllEqual(s, c)
    ensures Sum(s) == (|s| as real) * c
  {
    if s != [] {
      SumConstant(s[..|s| - 1], c);
    }
  }

  /** The moving average lies between the least and the greatest price. */
  lemma MovingAverageInRange(s: seq<real>)
    requires |s| > 0
    ensures RangeMath.InRange(s, MovingAverage(s))
  {
    var m := MovingAverage(s);
    var n := |s| as real;
    assert Sum(s) == n * m;
    if !(exists i :: 0 <= i < |s| && s[i] <= m) {
      SumAbove(s, m);
    }
    if !(exists j :: 0 <= j < |s| && m <= s[j]) {
      SumBelow(s, m);
    }
  }

  /** The moving average of a constant list of c is c. */
  lemma MovingAverageConstant(s: seq<real>, c: real)
    requires |s| > 0 && AllEqual(s, c)
    ensures MovingAverage(s) == c
  {
    SumConstant(s, c);
  }

  /** The moving average of [1, 2, 3, 4, 5] is 3. */
  lemma MovingAverageSample()
    ensures MovingAverage([1.0, 2.0, 3.0, 4.0, 5.0]) == 3.0
  {
    var s := [1.0, 2.0, 3.0, 4.0, 5.0];
    assert s[..4] == [1.0, 2.0, 3.0, 4.0];
    assert s[..4][..3] == [1.0, 2.0, 3.0];
    assert s[..4][..3][..2] == [1.0, 2.0];
    assert s[..4][..3][..2][..1] == [1.0];
    assert Sum([1.0]) == 1.0;
    assert Sum([1.0, 2.0]) == 3.0;
    assert Sum([1.0, 2.0, 3.0]) == 6.0;
    assert Sum([1.0, 2.0, 3.0, 4.0]) == 10.0;
  }

  /** The biased variance of [1, 2, 3, 4, 5] is 10/6 (its root is 1.2909944...). */
  lemma VarianceSample()
    ensures Variance([1.0, 2.0, 3.0, 4.0, 5.0]) == 10.0 / 6.0
  {
    var s := [1.0, 2.0, 3.0, 4.0, 5.0];
    MovingAverageSample();
    assert s[..4] == [1.0, 2.0, 3.0, 4.0];
    assert s[..4][..3] == [1.0, 2.0, 3.0];
    assert s[..4][..3][..2] == [1.0, 2.0];
    assert s[..4][..3][..2][..1] == [1.0];
    assert SquaredDeviations([1.0], 3.0) == 4.0;
    assert SquaredDeviations([1.0, 2.0], 3.0) == 5.0;
    assert SquaredDeviations([1.0, 2.0, 3.0], 3.0) == 5.0;
    assert SquaredDeviations([1.0, 2.0, 3.0, 4.0], 3.0) == 6.0;
  }

  lemma {:induction false} SquaredDeviationsNonNegative(s: seq<real>, m: real)
    ensures SquaredDeviations(s, m) >= 0.0
  {
    if s != [] {
      SquaredDeviationsNonNegative(s[..|s| - 1], m);
      Square(s[|s| - 1] - m);
    }
  }

  /** The squared deviations from `m` vanish exactly when every price is `m`. */
  lemma {:induction false} SquaredDeviationsZero(s: seq<real>, m: real)
    ensures SquaredDeviations(s, m) == 0.0 <==> AllEqual(s, m)
  {
    if s != [] {
      var init, last := s[..|s| - 1], s[|s| - 1];
      SquaredDeviationsZero(init, m);
      SquaredDeviationsNonNegative(init, m);
      Square(last - m);
      assert forall i :: 0 <= i < |s| ==> s[i] == (if i < |s| - 1 then init[i] else last);
    }
  }

  /** The variance is never negative. */
  lemma VarianceNonNegative(s: seq<real>)
    requires |s| > 0
    ensures Variance(s) >= 0.0
  {
    SquaredDeviationsNonNegative(s, MovingAverage(s));
  }

  /** The variance is 0 exactly when all prices are equal. */
  lemma VarianceZeroIffConstant(s: seq<real>)
    requires |s| > 0
    ensures Variance(s) == 0.0 <==> AllEqual(s, s[0])
  {
    var m := MovingAverage(s);
    SquaredDeviationsZero(s, m);
    if AllEqual(s, s[0]) {
      MovingAverageConstant(s, s[0]);
    }
  }

  /** A constant window has standard deviation 0. */
  lemma StdDevOfConstant(s: seq<real>, sigma: real)
    requires IsStdDev(s, sigma) && AllEqual(s, s[0])
    ensures sigma == 0.0
  {
    VarianceZeroIffConstant(s);
    Square(sigma);
  }
}
