/** The one-step value update of `learn`, `(1 - alpha) * Q + alpha * reward`,
    and what repeating it with a fixed reward does. */
module UpdateRule {
  import opened Arith

  /** `learn`'s new value: the gap to the reward is scaled by 1 - alpha, so for
      alpha in [0, 1] the new value lies between the old value and the reward. */
  function Blend(alpha: real, value: real, reward: real): (r: real)
    ensures r - reward == (1.0 - alpha) * (value - reward)
    ensures 0.0 <= alpha <= 1.0 && value <= reward ==> value <= r <= reward
    ensures 0.0 <= alpha <= 1.0 && reward <= value ==> reward <= r <= value
  {
    var v := (1.0 - alpha) * value + alpha * reward;
    if 0.0 <= alpha <= 1.0 then Convex(alpha, value, reward, v); v else v
  }

  /** With alpha = 0 the value never moves, whatever the reward. */
  lemma BlendFrozen(value: real, reward: real)
    ensures Blend(0.0, value, reward) == value
  {
  }

  /** For alpha in [0, 1] the distance to the reward shrinks by the factor
      1 - alpha. */
  lemma BlendContracts(alpha: real, value: real, reward: real)
    requires 0.0 <= alpha <= 1.0
    ensures Abs(Blend(alpha, value, reward) - reward) == (1.0 - alpha) * Abs(value - reward)
  {
    AbsScale(1.0 - alpha, value - reward);
  }

  /** The value after `n` calls of `learn` on one cell with the same reward. For
      alpha in [0, 1] it never leaves the interval between the starting value and
      the reward. */
  function Repeated(alpha: real, value: real, reward: real, n: nat): (r: real)
    ensures 0.0 <= alpha <= 1.0 && value <= reward ==> value <= r <= reward
    ensures 0.0 <= alpha <= 1.0 && reward <= value ==> reward <= r <= value
  {
    if n == 0 then value else Blend(alpha, Repeated(alpha, value, reward, n - 1), reward)
  }

  /** After n updates the gap to the reward is (1 - alpha)^n times the initial gap. */
  lemma {:induction false} RepeatedGap(alpha: real, value: real, reward: real, n: nat)
    ensures Repeated(alpha, value, reward, n) - reward == Pow(1.0 - alpha, n) * (value - reward)
  {
    if n > 0 {
      var k, d0 := 1.0 - alpha, value - reward;
      var prev := Repeated(alpha, value, reward, n - 1);
      var pk := Pow(k, n - 1);
      assert prev - reward == pk * d0 by {
        RepeatedGap(alpha, value, reward, n - 1);
      }
      assert Repeated(alpha, value, reward, n) - reward == k * (prev - reward);
      MulAssoc(k, pk, d0);
    }
  }

  /** For alpha in [0, 1] the distance to the reward after n updates is
      (1 - alpha)^n times the initial distance. */
  lemma {:induction false} RepeatedDistance(alpha: real, value: real, reward: real, n: nat)
    requires 0.0 <= alpha <= 1.0
    ensures Abs(Repeated(alpha, value, reward, n) - reward) == Pow(1.0 - alpha, n) * Abs(value - reward)
  {
    RepeatedGap(alpha, value, reward, n);
    PowUnit(1.0 - alpha, n);
    AbsScale(Pow(1.0 - alpha, n), value - reward);
  }

  /** Repeated updates with a constant reward never move away from it; for
      0 < alpha < 1 and a value different from the reward every step strictly
      reduces the distance without ever reaching the reward. */
  lemma Converges(alpha: real, value: real, reward: real, n: nat)
    requires 0.0 <= alpha <= 1.0
    ensures Abs(Repeated(alpha, value, reward, n + 1) - reward) <= Abs(Repeated(alpha, value, reward, n) - reward)
    ensures 0.0 < alpha < 1.0 && value != reward ==>
      0.0 < Abs(Repeated(alpha, value, reward, n + 1) - reward) < Abs(Repeated(alpha, value, reward, n) - reward)
  {
    var cur := Repeated(alpha, value, reward, n);
    var prev := Abs(cur - reward);
    BlendContracts(alpha, cur, reward);
    assert Abs(Repeated(alpha, value, reward, n + 1) - reward) == (1.0 - alpha) * prev;
    Shrink(1.0 - alpha, prev);
    if 0.0 < alpha < 1.0 && value != reward {
      RepeatedDistance(alpha, value, reward, n);
      PowUnit(1.0 - alpha, n);
      MulSign(Pow(1.0 - alpha, n), Abs(value - reward));
    }
  }
}
