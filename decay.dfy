/** The exploration-rate schedules `reset` applies at the start of every
    training trial, selected by the agent's `decay_fun`. */
module Decay {
  import opened Arith

  /** The new epsilon of a training trial. `t` is the trial counter after
      `reset` has incremented it; `exp` and `cos` stand for `math.exp` and
      `math.cos`. Schedule 1 divides the Python 2 integers `1` and `t * t`, so it
      truncates. A `decayFun` matching none of 0 to 4 leaves epsilon as it is. */
  function Decayed(decayFun: int, epsilon: real, decay: real, t: nat,
                   exp: real -> real, cos: real -> real): (r: real)
    requires t >= 1
    ensures decayFun == 1 ==> r == if t == 1 then 1.0 else 0.0
    ensures (decayFun < 0 || decayFun > 4) ==> r == epsilon
  {
    InverseSquare(t);
    if decayFun == 0 then epsilon - decay
    else if decayFun == 1 then (1 / (t * t)) as real
    else if decayFun == 2 then epsilon * Pow(1.0 - decay, t)
    else if decayFun == 3 then exp(-decay * t as real)
    else if decayFun == 4 then cos(decay * t as real)
    else epsilon
  }

  /** What one training trial does to epsilon under the schedules `Decayed`'s
      own contract leaves open: schedule 0 subtracts the decay with no clamping;
      schedule 2 keeps a non-negative epsilon between 0 and its old value when
      the decay lies in [0, 1]; schedules 3 and 4 ignore the old epsilon. */
  lemma DecayedSchedules(decayFun: int, epsilon: real, decay: real, t: nat,
                         exp: real -> real, cos: real -> real)
    requires t >= 1
    ensures decayFun == 0 ==> Decayed(decayFun, epsilon, decay, t, exp, cos) == epsilon - decay
    ensures decayFun == 2 && 0.0 <= decay <= 1.0 && 0.0 <= epsilon ==>
      0.0 <= Decayed(decayFun, epsilon, decay, t, exp, cos) <= epsilon
    ensures (decayFun == 3 || decayFun == 4) ==>
      forall e :: Decayed(decayFun, e, decay, t, exp, cos) == Decayed(decayFun, epsilon, decay, t, exp, cos)
  {
    GeometricBound(epsilon, decay, t);
  }

  /** In Python 2, `1 / (t * t)` on integers is 1 for t = 1 and 0 for every larger t. */
  lemma InverseSquare(t: nat)
    requires t >= 1
    ensures 1 / (t * t) == if t == 1 then 1 else 0
  {
    if t >= 2 {
      assert t * t >= 2 * t by { assert (t - 2) * t >= 0; }
    }
  }

  /** For decay in [0, 1], one schedule-2 step keeps a non-negative epsilon
      between 0 and its old value. */
  lemma GeometricBound(epsilon: real, decay: real, t: nat)
    ensures 0.0 <= decay <= 1.0 && 0.0 <= epsilon ==> 0.0 <= epsilon * Pow(1.0 - decay, t) <= epsilon
  {
    if 0.0 <= decay <= 1.0 && 0.0 <= epsilon {
      var p := Pow(1.0 - decay, t);
      PowUnit(1.0 - decay, t);
      assert epsilon * (1.0 - p) >= 0.0;
    }
  }

  /** Epsilon after `n` training trials that start with the counter at `t0`. */
  function Trained(decayFun: int, epsilon: real, decay: real, t0: nat, n: nat,
                   exp: real -> real, cos: real -> real): (r: real)
    ensures decayFun == 1 && n >= 1 ==> r == if t0 + n == 1 then 1.0 else 0.0
  {
    if n == 0 then epsilon
    else Decayed(decayFun, Trained(decayFun, epsilon, decay, t0, n - 1, exp, cos), decay, t0 + n, exp, cos)
  }

  /** Schedule 0 subtracts the decay once per trial, without clamping at zero. */
  lemma {:induction false} LinearSchedule(epsilon: real, decay: real, t0: nat, n: nat,
                                          exp: real -> real, cos: real -> real)
    ensures Trained(0, epsilon, decay, t0, n, exp, cos) == epsilon - n as real * decay
  {
    if n > 0 {
      LinearSchedule(epsilon, decay, t0, n - 1, exp, cos);
    }
  }

  /** From epsilon 1.0 with decay 0.1, five trials of schedule 0 leave 0.5. */
  lemma LinearScheduleFiveTrials(exp: real -> real, cos: real -> real)
    ensures Trained(0, 1.0, 0.1, 0, 5, exp, cos) == 0.5
  {
    LinearSchedule(1.0, 0.1, 0, 5, exp, cos);
  }

  /** 1 + 2 + ... + n. */
  function Tri(n: nat): (r: nat)
  {
    if n == 0 then 0 else n + Tri(n - 1)
  }

  lemma {:induction false} TriClosedForm(n: nat)
    ensures 2 * Tri(n) == n * (n + 1)
  {
    if n > 0 {
      TriClosedForm(n - 1);
      assert n * (n + 1) == (n - 1) * n + 2 * n;
    }
  }

  /** Trial t0 + n of schedule 2 multiplies the epsilon of the trials before it
      by (1 - decay)^(t0 + n). */
  lemma GeometricStep(epsilon: real, decay: real, t0: nat, n: nat, exp: real -> real, cos: real -> real)
    requires n >= 1
    ensures Trained(2, epsilon, decay, t0, n, exp, cos)
         == Trained(2, epsilon, decay, t0, n - 1, exp, cos) * Pow(1.0 - decay, t0 + n)
  {
  }

  /** From a fresh agent (counter 0), schedule 2 compounds on the running
      epsilon: trials 1 .. n multiply it by (1 - decay) to the power
      1 + 2 + ... + n = n * (n + 1) / 2. */
  lemma {:induction false} GeometricSchedule(epsilon: real, decay: real, n: nat,
                                             exp: real -> real, cos: real -> real)
    ensures Trained(2, epsilon, decay, 0, n, exp, cos) == epsilon * Pow(1.0 - decay, Tri(n))
  {
    if n > 0 {
      var x := 1.0 - decay;
      GeometricSchedule(epsilon, decay, n - 1, exp, cos);
      GeometricStep(epsilon, decay, 0, n, exp, cos);
      PowAdd(x, Tri(n - 1), n);
      Regroup(Trained(2, epsilon, decay, 0, n, exp, cos), Trained(2, epsilon, decay, 0, n - 1, exp, cos),
              epsilon, Pow(x, Tri(n - 1)), Pow(x, n), Pow(x, Tri(n)));
    }
  }

  lemma Regroup(now: real, prev: real, e: real, p1: real, p2: real, q: real)
    requires now == prev * p2 && prev == e * p1 && q == p1 * p2
    ensures now == e * q
  {
    MulAssoc(e, p1, p2);
  }

  /** A `decayFun` outside 0 to 4 never changes epsilon. */
  lemma {:induction false} NoSchedule(decayFun: int, epsilon: real, decay: real, t0: nat, n: nat,
                                      exp: real -> real, cos: real -> real)
    requires decayFun < 0 || decayFun > 4
    ensures Trained(decayFun, epsilon, decay, t0, n, exp, cos) == epsilon
  {
    if n > 0 {
      NoSchedule(decayFun, epsilon, decay, t0, n - 1, exp, cos);
    }
  }
}
