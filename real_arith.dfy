/**
 * Real multiplication and division behind function symbols. Facts about
 * products proved once here carry over to equal arguments elsewhere,
 * which keeps the solver away from non-linear reasoning in the callers.
 */
module RealArith {
  function Mul(a: real, b: real): real
  {
    a * b
  }

  function Div(a: real, b: real): real
    requires b != 0.0
  {
    a / b
  }

  /** The square of `d`. */
  function Sq(d: real): real
  {
    Mul(d, d)
  }

  lemma MulPositive(a: real, b: real)
    requires a > 0.0 && b > 0.0
    ensures Mul(a, b) > 0.0
  {
  }

  lemma MulNonNegative(a: real, b: real)
    requires a >= 0.0 && b >= 0.0
    ensures Mul(a, b) >= 0.0
  {
    if a > 0.0 && b > 0.0 {
      MulPositive(a, b);
    }
  }

  lemma MulNonZero(a: real, b: real)
    requires a != 0.0 && b != 0.0
    ensures Mul(a, b) != 0.0
  {
  }

  lemma DivNonZero(a: real, b: real)
    requires a != 0.0 && b != 0.0
    ensures Div(a, b) != 0.0
  {
  }

  lemma MulOne(a: real)
    ensures Mul(a, 1.0) == a && Mul(1.0, a) == a
  {
  }

  lemma MulCommutative(a: real, b: real)
    ensures Mul(a, b) == Mul(b, a)
  {
  }

  lemma MulAssociative(a: real, b: real, c: real)
    ensures Mul(Mul(a, b), c) == Mul(a, Mul(b, c))
  {
  }

  lemma DivideTwice(x: real, a: real, b: real)
    requires a > 0.0 && b > 0.0
    ensures Mul(a, b) > 0.0
    ensures Div(Div(x, a), b) == Div(x, Mul(a, b))
  {
  }

  /** Dividing and multiplying by the same non-zero number cancel. */
  lemma DivMulCancel(x: real, a: real)
    requires a != 0.0
    ensures Mul(Div(x, a), a) == x
    ensures Div(Mul(x, a), a) == x
  {
  }

  lemma SquareOfNegation(d: real)
    ensures Sq(-d) == Sq(d)
  {
  }

  /** The square of a non-zero number is positive. */
  lemma SquarePositive(d: real)
    requires d != 0.0
    ensures Sq(d) > 0.0
  {
    if d > 0.0 {
      MulPositive(d, d);
    } else {
      SquareOfNegation(d);
      MulPositive(-d, -d);
    }
  }

  /** A square is non-negative, and zero only for zero. */
  lemma Square(d: real)
    ensures Sq(d) >= 0.0
    ensures Sq(d) == 0.0 <==> d == 0.0
  {
    if d != 0.0 {
      SquarePositive(d);
    }
  }

  /** `x` is a whole number. */
  predicate Integral(x: real)
  {
    x.Floor as real == x
  }

  /** `x` is a whole number of hundredths: two decimals are enough to write it. */
  predicate Hundredths(x: real)
  {
    Integral(x * 100.0)
  }

  /** The whole number nearest to `y`, a tie going away from zero (mathjs `round`). */
  function Nearest(y: real): (n: int)
    ensures y - 0.5 <= n as real <= y + 0.5
    ensures y >= 0.0 ==> y - 0.5 < n as real
    ensures y < 0.0 ==> n as real < y + 0.5
    ensures n == 0 <==> -0.5 < y < 0.5
  {
    if y >= 0.0 then (y + 0.5).Floor else -((-y + 0.5).Floor)
  }

  /**
   * `Number(x.toFixed(2))` in exact arithmetic: the nearest multiple of
   * 0.01, a tie going away from zero.
   */
  function ToFixed2(x: real): (r: real)
    ensures Hundredths(r)
    ensures x - 0.005 <= r <= x + 0.005
    ensures x >= 0.0 ==> r >= 0.0
  {
    var n := Nearest(x * 100.0);
    assert (n as real / 100.0) * 100.0 == n as real;
    n as real / 100.0
  }

  /** Rounding to two decimals leaves a value that already has at most two alone. */
  lemma FixedKeepsHundredths(x: real)
    requires Hundredths(x)
    ensures ToFixed2(x) == x
  {
    var n := (x * 100.0).Floor;
    assert Nearest(x * 100.0) == n;
  }

  /** A whole number has no decimals to round away. */
  lemma FixedKeepsIntegral(x: real)
    requires Integral(x)
    ensures ToFixed2(x) == x
  {
    var n := x.Floor;
    assert x * 100.0 == (n * 100) as real;
    FixedKeepsHundredths(x);
  }

  /** Whole numbers are closed under multiplication. */
  lemma IntegralMul(a: real, b: real)
    requires Integral(a) && Integral(b)
    ensures Integral(Mul(a, b))
  {
    var m, n := a.Floor, b.Floor;
    assert Mul(a, b) == (m * n) as real;
  }

  /** A whole number of hundredths times a whole number is a whole number of hundredths. */
  lemma HundredthsMul(a: real, b: real)
    requires Hundredths(a) && Integral(b)
    ensures Hundredths(Mul(a, b))
  {
    IntegralMul(a * 100.0, b);
    assert Mul(a, b) * 100.0 == Mul(a * 100.0, b);
  }
}
