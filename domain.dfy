/** Values shared by the smartcab learning agent: directions and actions, the
    traffic light, the sensed intersection, the state key of the Q-table, and the
    errors the agent's Python code raises. */
module Domain {

  /** A direction of travel. The simulator uses the same four values for the
      agent's valid actions, for the planner's next waypoint and for the heading
      of other cars at the intersection; `Nil` stands for Python's `None`
      (no move, no waypoint, no car). */
  datatype Direction = Nil | Forward | Left | Right

  type Action = Direction

  datatype Light = Red | Green

  /** What `env.sense` reports at the intersection. */
  datatype Inputs = Inputs(light: Light, oncoming: Direction, left: Direction, right: Direction)

  /** The 4-tuple `(light, waypoint, oncoming, left)` that keys the Q-table. */
  datatype State = State(light: Light, waypoint: Direction, oncoming: Direction, left: Direction)

  /** The Python exceptions the modelled code can raise. */
  datatype Error = KeyError | ValueError | ArgumentTypeError(message: string)

  datatype Option<T> = None | Some(value: T)

  datatype Result<T> = Success(value: T) | Failure(error: Error)

  /** `build_state`: the state tuple built from the sensed inputs and the
      planner's next waypoint (the deadline it also fetches is not used). */
  function BuildState(inputs: Inputs, waypoint: Direction): (s: State)
    ensures s.light == inputs.light && s.waypoint == waypoint
    ensures s.oncoming == inputs.oncoming && s.left == inputs.left
  {
    State(inputs.light, waypoint, inputs.oncoming, inputs.left)
  }

  /** Two observations give the same state exactly when light, waypoint,
      oncoming and left traffic agree; traffic from the right never matters. */
  lemma BuildStateKeys(i1: Inputs, w1: Direction, i2: Inputs, w2: Direction)
    ensures BuildState(i1, w1) == BuildState(i2, w2) <==>
      i1.light == i2.light && w1 == w2 && i1.oncoming == i2.oncoming && i1.left == i2.left
    ensures BuildState(i1.(right := i2.right), w1) == BuildState(i1, w1)
  {
  }
}
