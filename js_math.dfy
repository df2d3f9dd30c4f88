/**
 * The pieces of JavaScript number arithmetic the effect relies on, over exact reals:
 * `Math.abs`, `Math.ceil` and the `%` operator (whose result has the sign of the dividend).
 */
module JsMath {

  /** `Math.abs`. */
  function Abs(x: real): (r: real)
    ensures r >= 0.0
    ensures r == x || r == -x
  {
    if x < 0.0 then -x else x
  }

  /** `Math.ceil`, written with Dafny's floor: the least integer not below `x`. */
  function Ceil(x: real): (c: int)
    ensures c as real - 1.0 < x <= c as real
  {
    -((-x).Floor)
  }

  /**
   * `a % d` for a positive divisor: `a` minus the largest multiple of `d` whose magnitude
   * does not exceed that of `a` (the quotient truncated towards zero), so the remainder keeps
   * the sign of the dividend.
   */
  function Rem(a: real, d: real): (r: real)
    requires d > 0.0
    ensures a >= 0.0 ==> 0.0 <= r < d
    ensures a <= 0.0 ==> -d < r <= 0.0
    ensures Abs(r) <= Abs(a)
    ensures a >= 0.0 ==> a - r == d * ((a / d).Floor as real)
    ensures a < 0.0 ==> a - r == -(d * ((-a / d).Floor as real))
  {
    if a >= 0.0 then PositiveRem(a, d) else -PositiveRem(-a, d)
  }

  /** The remainder of a non-negative dividend. */
  function PositiveRem(a: real, d: real): (r: real)
    requires a >= 0.0 && d > 0.0
    ensures 0.0 <= r < d && r <= a
    ensures a - r == d * ((a / d).Floor as real)
  {
    var q := (a / d).Floor;
    assert q as real <= a / d < q as real + 1.0;
    assert q >= 0;
    FloorScaled(a, d, q);
    a - d * (q as real)
  }

  /** Multiplying the defining inequalities of the floor of `a / d` by `d`. */
  lemma FloorScaled(a: real, d: real, q: int)
    requires d > 0.0
    requires q as real <= a / d < q as real + 1.0
    ensures d * (q as real) <= a < d * (q as real) + d
  {
    var y, x := a / d, q as real;
    assert a == d * y;
    MulLeftMono(d, x, y);
    MulLeftStrict(d, y, x + 1.0);
    assert d * (x + 1.0) == d * x + d;
    assert y < x + 1.0;
    assert d * y < d * (x + 1.0);
    assert a < d * x + d;
  }

  lemma MulLeftMono(d: real, x: real, y: real)
    requires d > 0.0 && x <= y
    ensures d * x <= d * y
  {
  }

  lemma MulLeftStrict(d: real, x: real, y: real)
    requires d > 0.0 && x < y
    ensures d * x < d * y
  {
  }
}
