# Smartcab learning agent, modelled in Dafny

This project models the `LearningAgent` of the Udacity smartcab project
(`projects/smartcab/smartcab/agent.py`). The agent is a tabular learner that
drives a cab through a grid-world traffic simulation. It keeps a Q-table: a
dictionary from a state tuple `(light, waypoint, oncoming, left)` to a row
mapping each of the four actions `None`, `'left'`, `'right'` and `'forward'` to a
value. At each step it:

- makes sure the current state has a row (`createQ`);
- picks an action ε-greedily, breaking ties among the maximal actions at random
  (`choose_action`);
- takes the action and receives a reward from the environment;
- moves the value of the chosen cell toward that reward with the rule
  `(1 - α)·Q + α·reward` (`learn`).

At the start of each trial `reset` advances the trial counter `t`. In a testing
trial it freezes the policy (ε = α = 0). In a training trial it decays ε with
the schedule selected by `decay_fun`. The command-line flag parser `toBool`
is modelled too.

Layout:

- `domain.dfy` (`Domain`): directions and actions, light, sensed inputs, state
  key, the Python errors as a `Result`, and `build_state`'s tuple.
- `arith.dfy` (`Arith`): real powers and absolute value, shared by the update
  rule and the decay schedules.
- `update_rule.dfy` (`UpdateRule`): the update rule `Blend`, and what repeating
  it with a fixed reward does.
- `qtable.dfy` (`QTable`): the Q-table as a value (`map<State, map<Action, real>>`)
  and the pure operations that specify `createQ`, `get_maxQ`, the tie set and
  `learn`.
- `decay.dfy` (`Decay`): the ε schedules of `reset`, and what `n` training trials
  do under each of them.
- `agent.dfy` (`Agent`): the class `LearningAgent`, whose methods update `Q`, `t`,
  `epsilon` and `alpha` in place. Each method is proved against the functions
  above.
- `cli.dfy` (`Cli`): `toBool`.

Q-values, ε, α and the decay are Dafny `real`s. So the update rule and schedules
0 to 2 are exact, and the tie test `v == max_value` is exact equality. The file
is Python 2 code: it calls `raw_input`. So schedule 1's `1 / (self.t * self.t)`
divides two integers and truncates. ε is 1 on the first trial and 0 on every
later one, not 1/t². The model follows the code, and the contracts of `Decay.Decayed` and
`Decay.Trained` state the truncated behaviour.

Randomness and collaborators are parameters:

- `draw` is the value `random.choice(self.valid_actions)` returns.
- `x` is the value `random.uniform(0, 1)` returns.
- The pick from the tie set is a nondeterministic choice (`:|`).
- `exp` and `cos` stand for `math.exp` and `math.cos`.
- `inputs` and `waypoint` stand for `env.sense` and `planner.next_waypoint`.
- `act` is the environment's reward for an action (`env.act`).

## Model

| member | source | states |
|---|---|---|
| `Domain.BuildState` | projects/smartcab/smartcab/agent.py:73 | the state key takes the light, oncoming and left traffic from the sensed inputs and the planner's waypoint as its waypoint |
| `Domain.BuildStateKeys` | projects/smartcab/smartcab/agent.py:73 | two observations give the same state exactly when light, waypoint, oncoming and left traffic agree; traffic from the right never changes the state |
| `UpdateRule.Blend` | projects/smartcab/smartcab/agent.py:139 | the value `learn` writes: its gap to the reward is the old gap times 1 − α, so for 0 ≤ α ≤ 1 it lies between the old value and the reward |
| `UpdateRule.BlendFrozen` | projects/smartcab/smartcab/agent.py:139 | with α = 0 the updated value equals the old one for every reward |
| `UpdateRule.BlendContracts` | projects/smartcab/smartcab/agent.py:139 | for 0 ≤ α ≤ 1 the distance to the reward is multiplied by 1 − α: `abs(new − reward) = (1 − α)·abs(old − reward)` |
| `UpdateRule.Repeated` | projects/smartcab/smartcab/agent.py:137-139 | n calls of `learn` on one cell with a constant reward: for 0 ≤ α ≤ 1 the value never leaves the interval between its starting value and the reward |
| `UpdateRule.RepeatedGap` | projects/smartcab/smartcab/agent.py:139 | after n updates of one cell with a constant reward, the gap to the reward is (1 − α)^n times the initial gap |
| `UpdateRule.RepeatedDistance` | projects/smartcab/smartcab/agent.py:139 | for 0 ≤ α ≤ 1 the distance to the reward after n updates is (1 − α)^n times the initial distance |
| `UpdateRule.Converges` | projects/smartcab/smartcab/agent.py:139 | for 0 ≤ α ≤ 1, repeated updates with a constant reward never move away from it; for 0 < α < 1, starting away from the reward, every update strictly shrinks the distance and never reaches zero |
| `QTable.NewRow` | projects/smartcab/smartcab/agent.py:94-99 | the row inserted for a new state has all four actions, each with value 0.0 |
| `QTable.Ensure` | projects/smartcab/smartcab/agent.py:92-99 | the table after `createQ` in learning mode: its states are the old ones plus the given state; existing rows are kept; an unseen state gets the all-zero row; a table without partial rows stays without them |
| `QTable.MaxOver` | projects/smartcab/smartcab/agent.py:82 | the maximum over a row's entries for a list of actions: absent exactly when none of them has an entry; otherwise it is one of those entries and no entry exceeds it |
| `QTable.MaxQ` | projects/smartcab/smartcab/agent.py:77-83 | `get_maxQ`: an absent state raises `KeyError` and an empty row raises `ValueError`; otherwise the result equals one of the row's values and is at least every value of the row |
| `QTable.Ties` | projects/smartcab/smartcab/agent.py:120 | the actions whose value equals the given maximum: every member is an action of the row with that value, every such action is a member (empty exactly when no action has that value) |
| `QTable.TiesAreGreedy` | projects/smartcab/smartcab/agent.py:119-121 | the tie set built against `get_maxQ`'s result is non-empty and is exactly the set of actions that no other action beats |
| `QTable.Learned` | projects/smartcab/smartcab/agent.py:137-139 | the table after `learn` in learning mode: an absent state or action raises `KeyError`; otherwise `Q[state][action]` becomes `(1 − α)·old + α·reward`, every other cell of that row and every other row is unchanged, the key sets are the same, and there are still no partial rows |
| `QTable.LearnedFrozen` | projects/smartcab/smartcab/agent.py:137-139 | with α = 0, as a testing trial sets it, `learn` returns the table unchanged |
| `QTable.EnsureKeepsLearned` | projects/smartcab/smartcab/agent.py:92-99 | `createQ` is idempotent, and a second call keeps the value `learn` wrote after the first one |
| `Decay.Decayed` | projects/smartcab/smartcab/agent.py:45-54 | the ε one training trial sets under each `decay_fun`: schedule 1 gives 1 at t = 1 and 0 for every later t (Python 2 integer division); a `decay_fun` matching none of 0 to 4 leaves ε unchanged |
| `Decay.DecayedSchedules` | projects/smartcab/smartcab/agent.py:45-54 | one training trial under the other schedules: schedule 0 gives ε − decay with no clamping; schedule 2 keeps a non-negative ε within [0, ε] when decay ∈ [0, 1]; schedules 3 and 4 do not depend on the old ε |
| `Decay.InverseSquare` | projects/smartcab/smartcab/agent.py:48 | Python 2 integer division: `1 / (t * t)` is 1 for t = 1 and 0 for every t ≥ 2 |
| `Decay.GeometricBound` | projects/smartcab/smartcab/agent.py:50 | for decay in [0, 1] and ε ≥ 0, ε·(1 − decay)^t lies between 0 and ε |
| `Decay.LinearSchedule` | projects/smartcab/smartcab/agent.py:45-46 | n training trials of schedule 0 give ε − n·decay, which may be negative |
| `Decay.LinearScheduleFiveTrials` | projects/smartcab/smartcab/agent.py:45-46 | from ε = 1.0 with decay 0.1, five trials of schedule 0 give exactly 0.5 |
| `Decay.Trained` | projects/smartcab/smartcab/agent.py:47-48 | ε after n training trials; under schedule 1, after at least one trial ε is 1 if the counter is 1 and 0 otherwise, whatever ε was before |
| `Decay.GeometricStep` | projects/smartcab/smartcab/agent.py:49-50 | trial number t of schedule 2 multiplies the running ε by (1 − decay)^t |
| `Decay.GeometricSchedule` | projects/smartcab/smartcab/agent.py:49-50 | from a fresh agent (t = 0), n trials of schedule 2 multiply ε by (1 − decay)^(1 + 2 + … + n); `Decay.TriClosedForm` shows that exponent is n·(n + 1)/2 |
| `Decay.NoSchedule` | projects/smartcab/smartcab/agent.py:45-54 | a `decay_fun` outside 0 to 4, such as a negative one, never changes ε over any number of trials |
| `Agent.LearningAgent.constructor` | projects/smartcab/smartcab/agent.py:12-27 | starts with an empty table and t = 0, with the given (or the source's default) learning flag, ε, α and decay; a `decay_fun` above 4 becomes 0 and any other value is kept, negative ones included |
| `Agent.LearningAgent.Reset` | projects/smartcab/smartcab/agent.py:29-55 | t grows by exactly 1; `testing` defaults to false; a testing trial sets ε = α = 0 whatever they were; a training trial sets ε to the selected schedule's value for the new t and leaves α unchanged; the table is untouched |
| `Agent.LearningAgent.CreateQ` | projects/smartcab/smartcab/agent.py:86-100 | in learning mode the new table is `Ensure(old table, state)`, so the state is present afterwards; otherwise the table is unchanged; no partial rows either way |
| `Agent.LearningAgent.ChooseAction` | projects/smartcab/smartcab/agent.py:103-126 | out of learning mode it returns the uniform draw without consulting the table; in learning mode an unknown state raises `KeyError`; for a known state it returns the draw when x < ε and otherwise a greedy action of the row |
| `Agent.LearningAgent.Learn` | projects/smartcab/smartcab/agent.py:129-140 | in learning mode the new table is `Learned(old table, …)` for a known state, and an unknown state raises `KeyError` with the table unchanged; out of learning mode nothing changes |
| `Agent.LearningAgent.Update` | projects/smartcab/smartcab/agent.py:143-153 | one step runs createQ, then choose_action, then learn. So in learning mode the new table is the old one with the state ensured and the chosen cell updated with the reward, and no `KeyError` can arise. The action is the draw when x < ε and a greedy one of the ensured row otherwise. Out of learning mode the table is unchanged |
| `Agent.TestingTrial` | projects/smartcab/smartcab/agent.py:41-43 | in learning mode, for a state already in the table: after `reset(testing=True)`, ε = α = 0, so a draw x ≥ 0 never explores, a greedy action is chosen, and `learn` leaves the table unchanged |
| `Cli.ToBool` | projects/smartcab/smartcab/agent.py:201-208 | returns true exactly for "yes", "y", "True", "true", "t", "1"; returns false exactly for "no", "n", "False", "false", "f", "0"; raises `ArgumentTypeError("Boolean Value expected")` for every other string |
| `Cli.WordsDisjoint` | projects/smartcab/smartcab/agent.py:203-205 | no string is read both as true and as false |

## Left out

- Agent.LearningAgent.ChooseAction: states that the pick lies in the tie set (and is the draw when x < ε). It does not state that the pick is uniform over the tie set, or that exploration is uniform over the actions, because probability distributions are not modelled.
- Schedules 3 and 4 (`math.exp`, `math.cos`): the transcendental functions are parameters `exp` and `cos` of `Reset`. Nothing is proved about their values beyond not depending on the old ε.
- The random number generator itself (`random.choice`, `random.uniform`): its results are parameters or a nondeterministic choice.
- `planner.route_to(destination)` in `reset`, and `planner.next_waypoint()` with the assignments to `self.state` and `self.next_waypoint` in `choose_action`: they feed the route planner and the simulator's display. The route planner is not part of this model.
- `env.sense`, `env.get_deadline` and `env.act`: the environment is not part of this model. Sensed inputs and the waypoint are parameters of `Update`, the deadline is unused by the core, and the reward is a parameter function `act`.
- `Update` returns the chosen action so that its contract can name it; the Python `update` returns `None` and hands the action only to `env.act`.
- `run` and the `argparse` bootstrap (simulator construction, display, timing, logging): plumbing outside the learning logic; only `toBool` is modelled.
- Python float rounding: values are exact reals, so results match the source only up to floating-point error.
- `testing is True` in `reset` tests object identity with `True`; the model takes a `bool`, so a truthy non-boolean argument is not represented.
- The Agent base class from `environment` is not part of this model.
