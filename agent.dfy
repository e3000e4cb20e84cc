/** The smartcab `LearningAgent`: a tabular learner whose Q-table and
    exploration parameters change in place from step to step and from trial
    to trial. */
module Agent {
  import opened Domain
  import opened QTable
  import opened Decay

  class LearningAgent {
    const learning: bool
    const decayFun: int
    const decay: real
    var Q: Table
    var epsilon: real
    var alpha: real
    var t: nat

    /** Every row of the table has all four actions. */
    ghost predicate Valid()
      reads this
    {
      WellFormed(Q)
    }

    /** `__init__`, with the same defaults: an empty table, the trial counter at
        0, and a `decay_fun` above 4 replaced by schedule 0 (a negative one is
        kept as it is). */
    constructor (learning: bool := false, epsilon: real := 1.0, alpha: real := 0.5,
                 decayFun: int := 0, decay: real := 0.5)
      ensures Valid()
      ensures this.learning == learning && this.decay == decay
      ensures this.decayFun == (if decayFun > 4 then 0 else decayFun)
      ensures this.decayFun <= 4 && (decayFun <= 4 ==> this.decayFun == decayFun)
      ensures Q == map[] && this.epsilon == epsilon && this.alpha == alpha && t == 0
    {
      this.learning := learning;
      Q := map[];
      this.epsilon := epsilon;
      this.alpha := alpha;
      t := 0;
      this.decayFun := if decayFun > 4 then 0 else decayFun;
      this.decay := decay;
    }

    /** `reset` at the start of a trial: the counter moves on by one; a testing
        trial zeroes epsilon and alpha, a training trial applies the decay
        schedule to epsilon and keeps alpha. `exp` and `cos` stand for
        `math.exp` and `math.cos`; `testing` defaults to a training trial, as
        in the source. */
    method Reset(exp: real -> real, cos: real -> real, testing: bool := false)
      requires Valid()
      modifies this`t, this`epsilon, this`alpha
      ensures Valid()
      ensures t == old(t) + 1
      ensures testing ==> epsilon == 0.0 && alpha == 0.0
      ensures !testing ==> epsilon == Decayed(decayFun, old(epsilon), decay, t, exp, cos)
      ensures !testing ==> alpha == old(alpha)
    {
      t := t + 1;
      if testing {
        epsilon := 0.0;
        alpha := 0.0;
      } else {
        epsilon := Decayed(decayFun, epsilon, decay, t, exp, cos);
      }
    }

    /** `createQ(state)`: in learning mode an unseen state gets an all-zero row;
        otherwise nothing changes. */
    method CreateQ(s: State)
      requires Valid()
      modifies this`Q
      ensures Valid()
      ensures Q == if learning then Ensure(old(Q), s) else old(Q)
      ensures learning ==> s in Q
    {
      if learning {
        if s !in Q {
          Q := Q[s := NewRow()];
        }
      }
    }

    /** `choose_action(state)`. The random draws are parameters: `draw` is what
        `random.choice(valid_actions)` returns and `x` what `random.uniform(0, 1)`
        returns; the pick from the tie set is a nondeterministic choice. Out of
        learning mode the table is not consulted. In learning mode an unknown
        state raises `KeyError`; otherwise the greedy pick stands unless
        `x < epsilon`, in which case `draw` replaces it. */
    method ChooseAction(s: State, draw: Action, x: real) returns (r: Result<Action>)
      requires Valid()
      ensures !learning ==> r == Success(draw)
      ensures learning ==> (r.Success? <==> s in Q)
      ensures learning && r.Failure? ==> r.error == KeyError
      ensures learning && s in Q && x < epsilon ==> r == Success(draw)
      ensures learning && s in Q && epsilon <= x ==> r.Success? && r.value in Greedy(Q[s])
    {
      if !learning {
        r := Success(draw);
      } else {
        var maxValue := MaxQ(Q, s);
        if maxValue.Failure? {
          r := Failure(maxValue.error);
        } else {
          var ties := Ties(Q[s], maxValue.value);
          TiesAreGreedy(Q, s);
          var action :| action in ties;
          if x < epsilon {
            action := draw;
          }
          r := Success(action);
        }
      }
    }

    /** `learn(state, action, reward)`: in learning mode the one cell moves to
        `(1 - alpha) * old + alpha * reward` and the rest of the table stays;
        an unknown state raises `KeyError` and changes nothing. Out of learning
        mode nothing changes. */
    method Learn(s: State, a: Action, reward: real) returns (r: Result<()>)
      requires Valid()
      modifies this`Q
      ensures Valid()
      ensures !learning ==> r == Success(()) && Q == old(Q)
      ensures learning ==> (r.Failure? <==> s !in old(Q))
      ensures learning && s in old(Q) ==> Success(Q) == Learned(old(Q), s, a, alpha, reward)
      ensures r.Failure? ==> r.error == KeyError && Q == old(Q)
    {
      r := Success(());
      if learning {
        var next := Learned(Q, s, a, alpha, reward);
        if next.Failure? {
          r := Failure(next.error);
        } else {
          Q := next.value;
        }
      }
    }

    /** `update`: one step of a trial. The sensed `inputs` and the planner's
        `waypoint` come in as parameters, `act` is the environment's reward for
        an action, and the chosen action is returned. `createQ` runs before
        `choose_action`, so neither the choice nor `learn` can meet an unknown
        state. */
    method Update(inputs: Inputs, waypoint: Direction, draw: Action, x: real, act: Action -> real)
      returns (action: Action)
      requires Valid()
      modifies this`Q
      ensures Valid()
      ensures !learning ==> action == draw && Q == old(Q)
      ensures learning ==>
        var s := BuildState(inputs, waypoint);
        && Learned(Ensure(old(Q), s), s, action, alpha, act(action)) == Success(Q)
        && (x < epsilon ==> action == draw)
        && (epsilon <= x ==> action in Greedy(Ensure(old(Q), s)[s]))
    {
      var s := BuildState(inputs, waypoint);
      CreateQ(s);
      var choice := ChooseAction(s, draw, x);
      action := choice.value;
      var reward := act(action);
      var _ := Learn(s, action, reward);
    }
  }

  /** A testing trial freezes the agent: after `reset(testing=True)` a draw
      `x >= 0` never explores, the greedy action is chosen, and `learn` leaves
      the table as it was. */
  method TestingTrial(agent: LearningAgent, s: State, draw: Action, x: real, reward: real,
                      exp: real -> real, cos: real -> real)
    returns (a: Action)
    requires agent.Valid() && agent.learning && s in agent.Q && 0.0 <= x
    modifies agent
    ensures agent.Valid() && agent.epsilon == 0.0 && agent.alpha == 0.0
    ensures agent.Q == old(agent.Q)
    ensures a in Greedy(agent.Q[s])
  {
    agent.Reset(exp, cos, true);
    var choice := agent.ChooseAction(s, draw, x);
    a := choice.value;
    LearnedFrozen(agent.Q, s, a, reward);
    var _ := agent.Learn(s, a, reward);
  }
}
