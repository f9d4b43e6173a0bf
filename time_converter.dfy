/**
 * The unit converter (src/utils/timeConverter): a factor table between
 * neighbouring units and two loops that divide or multiply by it.
 * The input is first rounded to two decimals (`toFixed(2)`).
 */
module TimeConverter {
  import opened Wrappers
  import opened RealArith

  /** TRANSFORM_MEASURES, in increasing size. */
  const MILLISECONDS := 0
  const SECONDS := 1
  const MINUTES := 2
  const HOURS := 3
  const DAYS := 4
  const WEEKS := 5

  /** How many units of measure `u - 1` make one unit of measure `u` (entry 0 is unused). */
  const ConversionValues: seq<real> := [1.0, 1000.0, 60.0, 60.0, 24.0, 7.0]

  /** Which argument the converter rejected. */
  datatype RangeError = FromOutOfRange | ToOutOfRange

  /** A measure the table knows: its entry exists and is non-zero. */
  predicate IsMeasure(u: int)
  {
    0 <= u < |ConversionValues| && ConversionValues[u] != 0.0
  }

  lemma MeasuresAreZeroToFive(u: int)
    ensures IsMeasure(u) <==> 0 <= u <= 5
  {
  }

  /** How many units `lo` make one unit `hi`: the product of the table entries lo+1 .. hi. */
  function Factor(lo: int, hi: int): (r: real)
    requires 0 <= lo <= hi < |ConversionValues|
    ensures r > 0.0
    decreases hi - lo
  {
    if lo == hi then 1.0
    else
      var rest := Factor(lo + 1, hi);
      MulPositive(ConversionValues[lo + 1], rest);
      Mul(ConversionValues[lo + 1], rest)
  }

  /** The factor up to `hi` is the factor up to `hi - 1` times entry `hi`. */
  lemma {:induction false} FactorTop(lo: int, hi: int)
    requires 0 <= lo < hi < |ConversionValues|
    ensures Factor(lo, hi) == Mul(Factor(lo, hi - 1), ConversionValues[hi])
    decreases hi - lo
  {
    if lo + 1 == hi {
      MulOne(ConversionValues[hi]);
    } else {
      FactorTop(lo + 1, hi);
      MulAssociative(ConversionValues[lo + 1], Factor(lo + 1, hi - 1), ConversionValues[hi]);
    }
  }

  /** Splitting the span lo .. hi at any k multiplies the factors. */
  lemma {:induction false} FactorSplit(lo: int, k: int, hi: int)
    requires 0 <= lo <= k <= hi < |ConversionValues|
    ensures Factor(lo, hi) == Mul(Factor(lo, k), Factor(k, hi))
    decreases k - lo
  {
    if lo == k {
      MulOne(Factor(k, hi));
    } else {
      FactorSplit(lo + 1, k, hi);
      MulAssociative(ConversionValues[lo + 1], Factor(lo + 1, k), Factor(k, hi));
    }
  }

  /** Every factor of the table is a whole number. */
  lemma {:induction false} FactorIntegral(lo: int, hi: int)
    requires 0 <= lo <= hi < |ConversionValues|
    ensures Integral(Factor(lo, hi))
    decreases hi - lo
  {
    if lo < hi {
      FactorIntegral(lo + 1, hi);
      assert Integral(ConversionValues[lo + 1]);
      IntegralMul(ConversionValues[lo + 1], Factor(lo + 1, hi));
    }
  }

  /**
   * The value the converter returns for two known measures: the time is
   * first rounded to two decimals, then to a larger unit divided by the
   * factor between them, to a smaller one multiplied by it.
   */
  function Converted(time: real, from: int, to: int): real
    requires IsMeasure(from) && IsMeasure(to)
  {
    var t := ToFixed2(time);
    if from < to then Div(t, Factor(from, to)) else Mul(t, Factor(to, from))
  }

  /** convert: checks `from`, then `to`, rounds the time to two decimals, then runs one of the two loops. */
  method Convert(time: real, from: int, to: int) returns (r: Result<real, RangeError>)
    ensures !IsMeasure(from) ==> r == Failure(FromOutOfRange)
    ensures IsMeasure(from) && !IsMeasure(to) ==> r == Failure(ToOutOfRange)
    ensures IsMeasure(from) && IsMeasure(to) ==> r == Success(Converted(time, from, to))
  {
    if !IsMeasure(from) {
      return Failure(FromOutOfRange);
    }
    if !IsMeasure(to) {
      return Failure(ToOutOfRange);
    }
    var fixed := ToFixed2(time);
    var result := fixed;
    var f := from;
    if from < to {
      while f < to
        invariant from <= f <= to
        invariant result == Div(fixed, Factor(from, f))
      {
        FactorTop(from, f + 1);
        DivideTwice(fixed, Factor(from, f), ConversionValues[f + 1]);
        result := result / ConversionValues[f + 1];
        f := f + 1;
      }
    } else {
      MulOne(fixed);
      while f > to
        invariant to <= f <= from
        invariant result == Mul(fixed, Factor(f, from))
      {
        MulAssociative(fixed, Factor(f, from), ConversionValues[f]);
        result := result * ConversionValues[f];
        f := f - 1;
      }
    }
    return Success(result);
  }

  /** Converting to a smaller measure yields a value with at most two decimals. */
  lemma DownHasHundredths(time: real, from: int, to: int)
    requires IsMeasure(from) && IsMeasure(to) && to <= from
    ensures Hundredths(Converted(time, from, to))
  {
    FactorIntegral(to, from);
    HundredthsMul(ToFixed2(time), Factor(to, from));
  }

  /** Converting between equal measures only rounds to two decimals. */
  lemma ConvertSame(time: real, u: int)
    requires IsMeasure(u)
    ensures Converted(time, u, u) == ToFixed2(time)
    ensures Hundredths(time) ==> Converted(time, u, u) == time
  {
    MulOne(ToFixed2(time));
    if Hundredths(time) {
      FixedKeepsHundredths(time);
    }
  }

  /**
   * Converting to a larger measure and back restores the time rounded to
   * two decimals, provided the intermediate value needs no more than two.
   */
  lemma RoundTripUp(time: real, from: int, to: int)
    requires IsMeasure(from) && IsMeasure(to) && from < to
    requires Hundredths(Converted(time, from, to))
    ensures Converted(Converted(time, from, to), to, from) == ToFixed2(time)
  {
    FixedKeepsHundredths(Converted(time, from, to));
    DivMulCancel(ToFixed2(time), Factor(from, to));
  }

  /** Converting to a smaller measure and back restores the time rounded to two decimals. */
  lemma RoundTripDown(time: real, from: int, to: int)
    requires IsMeasure(from) && IsMeasure(to) && to < from
    ensures Converted(Converted(time, from, to), to, from) == ToFixed2(time)
  {
    DownHasHundredths(time, from, to);
    FixedKeepsHundredths(Converted(time, from, to));
    DivMulCancel(ToFixed2(time), Factor(to, from));
  }

  /** One millisecond is 0.001 s, which rounds to 0: the trip to seconds and back loses it. */
  lemma RoundTripLosesMillisecond()
    ensures Converted(1.0, MILLISECONDS, SECONDS) == 0.001
    ensures Converted(Converted(1.0, MILLISECONDS, SECONDS), SECONDS, MILLISECONDS) == 0.0
  {
    assert ToFixed2(1.0) == 1.0;
    assert Factor(0, 1) == 1000.0;
    assert ToFixed2(0.001) == 0.0;
    MulOne(0.0);
  }

  /** Converting to a smaller measure in two steps is converting directly. */
  lemma ConvertThrough(time: real, a: int, b: int, c: int)
    requires IsMeasure(a) && IsMeasure(b) && IsMeasure(c) && a <= b <= c
    ensures Converted(Converted(time, c, b), b, a) == Converted(time, c, a)
  {
    DownHasHundredths(time, c, b);
    FixedKeepsHundredths(Converted(time, c, b));
    FactorSplit(a, b, c);
    MulAssociative(ToFixed2(time), Factor(b, c), Factor(a, b));
    MulCommutative(Factor(b, c), Factor(a, b));
  }

  /** One week is 604800000 ms. */
  lemma WeekInMillis()
    ensures Converted(1.0, WEEKS, MILLISECONDS) == 604800000.0
  {
    FixedKeepsIntegral(1.0);
    assert Factor(0, 5) == 604800000.0;
  }

  /** 90 s is 1.5 min. */
  lemma NinetySecondsInMinutes()
    ensures Converted(90.0, SECONDS, MINUTES) == 1.5
  {
    FixedKeepsIntegral(90.0);
    assert Factor(1, 2) == 60.0;
  }

  /** One day is 86400000 ms. */
  lemma DayInMillis()
    ensures Converted(1.0, DAYS, MILLISECONDS) == 86400000.0
  {
    FixedKeepsIntegral(1.0);
    assert Factor(0, 4) == 86400000.0;
  }

  /** 86400000 ms is one day. */
  lemma MillisInDay()
    ensures Converted(86400000.0, MILLISECONDS, DAYS) == 1.0
  {
    FixedKeepsIntegral(86400000.0);
    assert Factor(0, 4) == 86400000.0;
  }
}
