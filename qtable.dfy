/** The Q-table of the learning agent as a value: a map from state to a row
    mapping each action to its estimated value, and the pure operations on it
    that `createQ`, `get_maxQ`, `choose_action` and `learn` perform. */
module QTable {
  import opened Domain
  import opened UpdateRule

  type Row = map<Action, real>

  type Table = map<State, Row>

  /** The actions in the order of the row literal in `createQ`. */
  const Actions: seq<Action> := [Nil, Left, Right, Forward]

  lemma ActionsListsAll(a: Action)
    ensures a in Actions
  {
    match a
    case Nil =>
    case Left => assert Actions[1] == a;
    case Right => assert Actions[2] == a;
    case Forward => assert Actions[3] == a;
  }

  /** A row has an entry for every one of the four actions. */
  predicate FullRow(row: Row)
  {
    forall a: Action :: a in row
  }

  /** The table invariant: no partial rows. */
  predicate WellFormed(q: Table)
  {
    forall s :: s in q ==> FullRow(q[s])
  }

  /** The row `createQ` inserts for a state seen for the first time. */
  function NewRow(): (row: Row)
    ensures FullRow(row)
    ensures forall a :: row[a] == 0.0
  {
    var row := map[Nil := 0.0, Left := 0.0, Right := 0.0, Forward := 0.0];
    assert FullRow(row) by {
      forall a: Action ensures a in row { ActionsListsAll(a); }
    }
    row
  }

  /** The table after `createQ(s)` in learning mode: a fresh all-zero row for an
      unseen state, every existing row untouched. */
  function Ensure(q: Table, s: State): (r: Table)
    ensures r.Keys == q.Keys + {s}
    ensures forall s' :: s' in q ==> r[s'] == q[s']
    ensures s !in q ==> r[s] == NewRow()
    ensures WellFormed(q) ==> WellFormed(r)
  {
    if s in q then q else q[s := NewRow()]
  }

  /** The largest value among the row's entries for the actions in `acts`,
      `None` when there is no such entry. */
  function MaxOver(row: Row, acts: seq<Action>): (m: Option<real>)
    ensures m.None? <==> forall a :: a in acts ==> a !in row
    ensures m.Some? ==> exists a :: a in acts && a in row && row[a] == m.value
    ensures m.Some? ==> forall a :: a in acts && a in row ==> row[a] <= m.value
  {
    if acts == [] then None
    else
      var rest := MaxOver(row, acts[1..]);
      if acts[0] !in row then rest
      else if rest.None? || rest.value < row[acts[0]] then Some(row[acts[0]])
      else rest
  }

  /** `get_maxQ(state)`: `max(Q[state].values())`. An absent state raises
      `KeyError`; `max` of an empty row raises `ValueError`. Otherwise the result
      is one of the row's values and no value of the row exceeds it. */
  function MaxQ(q: Table, s: State): (r: Result<real>)
    ensures r.Failure? <==> s !in q || q[s] == map[]
    ensures r.Failure? ==> r.error == (if s !in q then KeyError else ValueError)
    ensures r.Success? ==> exists a :: a in q[s] && q[s][a] == r.value
    ensures r.Success? ==> forall a :: a in q[s] ==> q[s][a] <= r.value
  {
    if s !in q then Failure(KeyError)
    else
      assert forall a :: a in q[s] ==> a in Actions by {
        forall a | a in q[s] ensures a in Actions { ActionsListsAll(a); }
      }
      match MaxOver(q[s], Actions)
      case None => Failure(ValueError)
      case Some(m) => Success(m)
  }

  /** The tie set of `choose_action`: the actions of the row whose value equals
      `m`. It is empty exactly when no action has that value, and any two of its
      members have the same value. */
  function Ties(row: Row, m: real): (r: set<Action>)
    ensures r <= row.Keys
    ensures forall a :: a in r ==> row[a] == m
    ensures r == {} <==> forall a :: a in row ==> row[a] != m
    ensures forall a, b :: a in r && b in row ==> (b in r <==> row[b] == row[a])
  {
    var r := set a | a in row && row[a] == m;
    assert forall a :: a in row && row[a] == m ==> a in r;
    r
  }

  /** The greedy actions of a row: those no other action beats. */
  function Greedy(row: Row): (g: set<Action>)
  {
    set a | a in row && forall b :: b in row ==> row[b] <= row[a]
  }

  /** Against the maximum `get_maxQ` returns, the tie set is never empty and
      holds exactly the greedy actions. */
  lemma TiesAreGreedy(q: Table, s: State)
    requires MaxQ(q, s).Success?
    ensures Ties(q[s], MaxQ(q, s).value) != {}
    ensures Ties(q[s], MaxQ(q, s).value) == Greedy(q[s])
  {
    var row, m := q[s], MaxQ(q, s).value;
    var a :| a in row && row[a] == m;
    assert a in Ties(row, m);
    forall b | b in Greedy(row) ensures b in Ties(row, m) {
      assert row[a] <= row[b];
    }
  }

  /** The table after `learn(state, action, reward)` in learning mode:
      `Q[state][action]` becomes `(1 - alpha) * old + alpha * reward` and no other
      cell or row changes; an absent state or action raises `KeyError` and leaves
      the table as it was. */
  function Learned(q: Table, s: State, a: Action, alpha: real, reward: real): (r: Result<Table>)
    ensures r.Failure? <==> s !in q || a !in q[s]
    ensures r.Failure? ==> r.error == KeyError
    ensures r.Success? ==> r.value.Keys == q.Keys && r.value[s].Keys == q[s].Keys
    ensures r.Success? ==> r.value[s][a] == Blend(alpha, q[s][a], reward)
    ensures r.Success? ==> forall s' :: s' in q && s' != s ==> r.value[s'] == q[s']
    ensures r.Success? ==> forall b :: b in q[s] && b != a ==> r.value[s][b] == q[s][b]
    ensures r.Success? && WellFormed(q) ==> WellFormed(r.value)
  {
    if s !in q || a !in q[s] then Failure(KeyError)
    else Success(q[s := q[s][a := Blend(alpha, q[s][a], reward)]])
  }

  /** With alpha = 0 (testing mode) `learn` leaves the table exactly as it was. */
  lemma LearnedFrozen(q: Table, s: State, a: Action, reward: real)
    requires s in q && a in q[s]
    ensures Learned(q, s, a, 0.0, reward) == Success(q)
  {
    BlendFrozen(q[s][a], reward);
    assert q[s][a := q[s][a]] == q[s];
    assert q[s := q[s]] == q;
  }

  /** `createQ` is idempotent, and a second call keeps what `learn` wrote
      into the row after the first one. */
  lemma EnsureKeepsLearned(q: Table, s: State, a: Action, alpha: real, reward: real)
    ensures Ensure(Ensure(q, s), s) == Ensure(q, s)
    ensures var l := Learned(Ensure(q, s), s, a, alpha, reward);
      l.Success? ==> Ensure(l.value, s) == l.value
  {
  }
}
