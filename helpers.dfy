/** The small numeric helpers at the bottom of src/App.jsx (clamp, lerp),
    over exact reals, plus the Option type used for "nothing happened". */
module Helpers {

  datatype Option<+T> = None | Some(value: T)

  function Abs(x: real): real { if x < 0.0 then -x else x }

  function Min(a: real, b: real): real { if a <= b then a else b }

  function Max(a: real, b: real): real { if a >= b then a else b }

  /** `Math.max(a, Math.min(b, x))`: pulls x into [a, b]; the lower bound wins
      when the interval is empty. */
  function Clamp(x: real, a: real, b: real): (r: real)
    ensures a <= b ==> a <= r <= b
    ensures a <= x <= b ==> r == x
    ensures x < a ==> r == a
    ensures a <= b < x ==> r == b
    ensures b < a ==> r == a
  {
    Max(a, Min(b, x))
  }

  /** Linear interpolation from a (t = 0) to b (t = 1). */
  function Lerp(a: real, b: real, t: real): (r: real)
    ensures t == 0.0 ==> r == a
    ensures t == 1.0 ==> r == b
    ensures 0.0 <= t <= 1.0 ==> Min(a, b) <= r <= Max(a, b)
  {
    LerpBetween(a, b, t);
    a + (b - a) * t
  }

  lemma LerpBetween(a: real, b: real, t: real)
    ensures 0.0 <= t <= 1.0 ==> Min(a, b) <= a + (b - a) * t <= Max(a, b)
  {
    if 0.0 <= t <= 1.0 {
      if a <= b {
        Fraction(b - a, t);
      } else {
        Fraction(a - b, t);
        assert (b - a) * t == -((a - b) * t);
      }
    }
  }

  /** A fraction t in [0, 1] of a non-negative d lies between 0 and d. */
  lemma Fraction(d: real, t: real)
    requires d >= 0.0 && 0.0 <= t <= 1.0
    ensures 0.0 <= d * t <= d
  {
    MulNonneg(d, t);
    MulNonneg(d, 1.0 - t);
    assert d * (1.0 - t) == d - d * t;
  }

  /** Scaling a non-negative quantity by a factor in [0, 1] keeps it between
      zero and itself. */
  lemma ScaleDown(k: real, y: real)
    ensures 0.0 <= k <= 1.0 && y >= 0.0 ==> 0.0 <= k * y <= y
  {
    if 0.0 <= k <= 1.0 && y >= 0.0 {
      assert y * (1.0 - k) >= 0.0;
      assert y * (1.0 - k) == y - k * y;
    }
  }

  /** The product of two non-negative quantities is non-negative. */
  lemma MulNonneg(x: real, y: real)
    requires x >= 0.0 && y >= 0.0
    ensures x * y >= 0.0
  {
  }

  /** The product of two positive quantities is positive. */
  lemma MulPos(x: real, y: real)
    requires x > 0.0 && y > 0.0
    ensures x * y > 0.0
  {
  }

  /** Multiplying by a non-negative factor keeps the order. */
  lemma MulLe(a: real, b: real, k: real)
    requires a <= b && k >= 0.0
    ensures a * k <= b * k
  {
    MulNonneg(b - a, k);
    assert (b - a) * k == b * k - a * k;
  }
}
