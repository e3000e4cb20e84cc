/** Real arithmetic shared by the update rule and the decay schedules. */
module Arith {

  function Abs(x: real): (r: real)
    ensures r >= 0.0 && (r == x || r == -x)
  {
    if x < 0.0 then -x else x
  }

  /** `x ** n` for a natural exponent, as Python computes a float to an int power. */
  function Pow(x: real, n: nat): (r: real)
  {
    if n == 0 then 1.0 else x * Pow(x, n - 1)
  }

  lemma {:induction false} PowAdd(x: real, a: nat, b: nat)
    ensures Pow(x, a + b) == Pow(x, a) * Pow(x, b)
  {
    if a > 0 {
      PowAdd(x, a - 1, b);
      calc {
        Pow(x, a + b);
        x * Pow(x, (a - 1) + b);
        x * (Pow(x, a - 1) * Pow(x, b));
        (x * Pow(x, a - 1)) * Pow(x, b);
      }
    }
  }

  lemma MulAssoc(a: real, b: real, c: real)
    ensures a * (b * c) == (a * b) * c
  {
  }

  lemma AbsScale(p: real, d: real)
    requires p >= 0.0
    ensures Abs(p * d) == p * Abs(d)
  {
    if d < 0.0 {
      assert p * d <= 0.0;
      assert -(p * d) == p * -d;
    } else {
      assert p * d >= 0.0;
    }
  }

  /** `v = (1 - p) * x + p * y` for p in [0, 1] lies between x and y. */
  lemma Convex(p: real, x: real, y: real, v: real)
    requires 0.0 <= p <= 1.0 && v == (1.0 - p) * x + p * y
    ensures x <= y ==> x <= v <= y
    ensures y <= x ==> y <= v <= x
  {
    assert v - x == p * (y - x);
    assert v - y == (1.0 - p) * (x - y);
    if x <= y {
      MulSign(p, y - x);
      MulSign(1.0 - p, y - x);
    } else {
      MulSign(p, x - y);
      MulSign(1.0 - p, x - y);
    }
  }

  lemma MulSign(a: real, b: real)
    requires 0.0 <= a && 0.0 <= b
    ensures 0.0 <= a * b
    ensures 0.0 < a && 0.0 < b ==> 0.0 < a * b
  {
  }

  /** Scaling a non-negative number by a factor in [0, 1] never enlarges it; a
      factor strictly inside (0, 1) strictly shrinks a positive one and keeps
      it positive. */
  lemma Shrink(k: real, p: real)
    requires 0.0 <= k <= 1.0 && 0.0 <= p
    ensures k * p <= p
    ensures 0.0 < k < 1.0 && 0.0 < p ==> 0.0 < k * p < p
  {
    assert p - k * p == (1.0 - k) * p;
    MulSign(1.0 - k, p);
    MulSign(k, p);
  }

  /** A power of a number in [0, 1] stays in [0, 1]; in (0, 1] it stays positive. */
  lemma {:induction false} PowUnit(x: real, n: nat)
    requires 0.0 <= x <= 1.0
    ensures 0.0 <= Pow(x, n) <= 1.0
    ensures x > 0.0 ==> Pow(x, n) > 0.0
  {
    if n > 0 {
      PowUnit(x, n - 1);
      var p := Pow(x, n - 1);
      assert x * p <= 1.0 * p by {
        assert (1.0 - x) * p >= 0.0;
      }
      assert x > 0.0 && p > 0.0 ==> x * p > 0.0;
    }
  }
}
