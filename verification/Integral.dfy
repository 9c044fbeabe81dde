/** The midpoint rule over exact reals (hw1/src/common/integral.cpp). */
module Integral {
  /** `k * x + c`. */
  function Linear(k: real, c: real): real -> real {
    x => k * x + c
  }

  /** The middle of the `i`-th of the steps from `a`. */
  function Midpoint(a: real, step: real, i: nat): real {
    a + step / 2.0 + i as real * step
  }

  /** The sum of `f` at the first `n` midpoints. */
  function MidpointSum(f: real -> real, a: real, step: real, n: nat): real {
    if n == 0 then 0.0 else MidpointSum(f, a, step, n - 1) + f(Midpoint(a, step, n - 1))
  }

  lemma MulPositive(x: real, y: real)
    requires x > 0.0 && y > 0.0
    ensures x * y > 0.0
  {
  }

  lemma StepsFill(a: real, b: real, points: nat)
    requires a < b && points > 0
    ensures var step := (b - a) / points as real; step > 0.0 && points as real * step == b - a
  {
    var n := points as real;
    var step := (b - a) / n;
    assert n * step == b - a;
    if step <= 0.0 {
      MulNonPositive(n, step);
    }
  }

  lemma MulNonPositive(x: real, y: real)
    requires x > 0.0 && y <= 0.0
    ensures x * y <= 0.0
  {
  }

  lemma MulAtLeast(d: int, step: real)
    requires d >= 1 && step > 0.0
    ensures d as real * step >= step
  {
    if d > 1 {
      MulPositive((d - 1) as real, step);
      assert d as real * step == (d - 1) as real * step + step;
    }
  }

  /** The loop's guard holds for exactly the first `points` midpoints. */
  lemma MidpointInside(a: real, b: real, points: nat, i: nat)
    requires a < b && points > 0
    ensures Midpoint(a, (b - a) / points as real, i) < b <==> i < points
  {
    var step := (b - a) / points as real;
    StepsFill(a, b, points);
    var x := Midpoint(a, step, i);
    if i < points {
      MulAtLeast(points - i, step);
      assert (points - i) as real * step == points as real * step - i as real * step;
    } else if i > points {
      MulAtLeast(i - points, step);
      assert (i - points) as real * step == i as real * step - points as real * step;
    }
  }

  /** The midpoint rule with `points` steps. */
  function MidpointRule(f: real -> real, a: real, b: real, points: nat): real
    requires points > 0
  {
    var step := (b - a) / points as real;
    MidpointSum(f, a, step, points) * step
  }

  /** The value at the middle times the width. */
  function OnePoint(f: real -> real, a: real, b: real): real {
    f((a + b) / 2.0) * (b - a)
  }

  /** The one-point values of the first `n` steps from `a`, added up. */
  function Composite(f: real -> real, a: real, step: real, n: nat): real {
    if n == 0 then 0.0
    else Composite(f, a, step, n - 1) + OnePoint(f, a + (n - 1) as real * step, a + n as real * step)
  }

  lemma {:induction false} SumIsComposite(f: real -> real, a: real, step: real, n: nat)
    ensures MidpointSum(f, a, step, n) * step == Composite(f, a, step, n)
  {
    if n > 0 {
      SumIsComposite(f, a, step, n - 1);
      var x, y := a + (n - 1) as real * step, a + n as real * step;
      assert n as real * step == (n - 1) as real * step + step;
      assert (x + y) / 2.0 == Midpoint(a, step, n - 1);
      var sum, v := MidpointSum(f, a, step, n - 1), f(Midpoint(a, step, n - 1));
      assert (sum + v) * step == sum * step + v * step;
    }
  }

  /** For any function the rule adds up, over equal steps, the value at the middle times the width. */
  lemma RuleIsComposite(f: real -> real, a: real, b: real, points: nat)
    requires points > 0
    ensures MidpointRule(f, a, b, points) == Composite(f, a, (b - a) / points as real, points)
  {
    SumIsComposite(f, a, (b - a) / points as real, points);
  }

  lemma ScaledSum(f: real -> real, a: real, b: real, points: nat, raw: real, step: real)
    requires points > 0 && step == (b - a) / points as real && raw == MidpointSum(f, a, step, points)
    ensures raw * step == MidpointRule(f, a, b, points)
  {
  }

  /** The source throws when the interval is empty. With no points the step is infinite, so the
      loop does not run and the result, zero times infinity, is not a number. */
  datatype Quadrature = Refused | NotANumber | Area(area: real)

  method EvaluateIntegral(a: real, b: real, points: nat, f: real -> real) returns (r: Quadrature)
    ensures r.Refused? <==> b <= a
    ensures r.NotANumber? <==> a < b && points == 0
    ensures a < b && points > 0 ==> r == Area(MidpointRule(f, a, b, points))
  {
    if a >= b {
      return Refused;
    }
    if points == 0 {
      return NotANumber;
    }
    var raw := 0.0;
    var step := (b - a) / points as real;
    var x := a + step / 2.0;
    ghost var i := 0;
    while x < b
      invariant i <= points && x == Midpoint(a, step, i)
      invariant raw == MidpointSum(f, a, step, i)
      decreases points - i
    {
      MidpointInside(a, b, points, i);
      raw := raw + f(x);
      x := x + step;
      i := i + 1;
      assert Midpoint(a, step, i) == Midpoint(a, step, i - 1) + step;
    }
    MidpointInside(a, b, points, i);
    assert i == points && raw == MidpointSum(f, a, step, points);
    ScaledSum(f, a, b, points, raw, step);
    return Area(raw * step);
  }

  /** The integral of `k * x + c` over [a, b]. */
  function Exact(k: real, c: real, a: real, b: real): real {
    (k * a + c + k * b + c) * (b - a) / 2.0
  }

  lemma ExactAdds(k: real, c: real, a: real, m: real, b: real)
    ensures Exact(k, c, a, m) + Exact(k, c, m, b) == Exact(k, c, a, b)
  {
    assert k * m * a == k * a * m;
    assert Exact(k, c, a, m) == (k * m * m - k * a * a) / 2.0 + c * m - c * a;
    assert Exact(k, c, m, b) == (k * b * b - k * m * m) / 2.0 + c * b - c * m;
    assert Exact(k, c, a, b) == (k * b * b - k * a * a) / 2.0 + c * b - c * a;
  }

  /** On one step the midpoint value is exact. */
  lemma OneStep(k: real, c: real, x: real, step: real)
    ensures Linear(k, c)(x + step / 2.0) * step == Exact(k, c, x, x + step)
  {
    assert k * (x + step / 2.0) + c == (k * x + c + k * (x + step) + c) / 2.0;
  }

  lemma {:induction false} SumIsExact(k: real, c: real, a: real, step: real, n: nat)
    ensures MidpointSum(Linear(k, c), a, step, n) * step == Exact(k, c, a, a + n as real * step)
  {
    if n > 0 {
      var x := a + (n - 1) as real * step;
      SumIsExact(k, c, a, step, n - 1);
      OneStep(k, c, x, step);
      ExactAdds(k, c, a, x, x + step);
      assert Midpoint(a, step, n - 1) == x + step / 2.0;
      assert x + step == a + n as real * step;
      var f, sum := Linear(k, c), MidpointSum(Linear(k, c), a, step, n - 1);
      assert (sum + f(x + step / 2.0)) * step == sum * step + f(x + step / 2.0) * step;
    }
  }

  /** The midpoint rule is exact on linear functions, for any interval and any number of
      points. */
  lemma MidpointIsExact(k: real, c: real, a: real, b: real, points: nat)
    requires a < b && points > 0
    ensures MidpointRule(Linear(k, c), a, b, points) == Exact(k, c, a, b)
  {
    var step := (b - a) / points as real;
    StepsFill(a, b, points);
    SumIsExact(k, c, a, step, points);
  }
}
