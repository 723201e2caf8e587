// Scenario filtering of parameter values
// (spinedb_api/filters/scenario_filter.py). The filter state resolves the
// scenario once and keeps the value view that was current before the filter
// was installed; the replacement view joins those values with the
// scenario's scenario_alternative rows and keeps, for every
// (parameter definition, entity) pair, the row that is first when ordered
// by descending rank (row_number() == 1 over that partition).
//
// SQL leaves the order of rows of equal rank open; the model breaks such
// ties by the position of the row in the join.

module ScenarioFilter {
  import opened Errors
  import opened Text
  import opened MappingBase

  datatype ScenarioRow = ScenarioRow(id: int, name: string)

  datatype ScenarioAlternativeRow = ScenarioAlternativeRow(id: int, scenarioId: int, alternativeId: int, rank: int)

  /** A row of parameter_value_sq; the columns the filter does not look at are one opaque payload. */
  datatype ValueRow = ValueRow(id: int, definitionId: int, entityId: int, alternativeId: int, payload: string)

  /** The scenario the filter is given: a name (str) or an id (int). */
  datatype ScenarioRef = ByName(name: string) | ById(id: int)

  /** The (parameter_definition_id, entity_id) partition a value belongs to. */
  function PairOf(v: ValueRow): (int, int)
  {
    (v.definitionId, v.entityId)
  }

  // ---------------------------------------------------------------------------
  // Resolving the scenario

  /** `query(scenario_sq.c.id).filter(name == name).scalar()`: the id of the first row with that name. */
  function IdByName(scenarios: seq<ScenarioRow>, name: string): (r: Option<int>)
    ensures r.Some? ==> exists s :: s in scenarios && s.name == name && s.id == r.value
    ensures r.None? <==> forall s :: s in scenarios ==> s.name != name
  {
    if scenarios == [] then None
    else if scenarios[0].name == name then Some(scenarios[0].id)
    else IdByName(scenarios[1..], name)
  }

  predicate HasId(scenarios: seq<ScenarioRow>, id: int)
  {
    exists s :: s in scenarios && s.id == id
  }

  /**
   * _ScenarioFilterState._scenario_id: a name resolves to the id of the
   * scenario with that name, an id must be the id of some scenario; either
   * lookup failing raises SpineDBAPIError naming the scenario.
   */
  function ScenarioId(scenarios: seq<ScenarioRow>, scenario: ScenarioRef): (r: Result<int>)
    ensures scenario.ByName? ==>
      (r.Ok? <==> exists s :: s in scenarios && s.name == scenario.name)
      && (r.Ok? ==> exists s :: s in scenarios && s.name == scenario.name && s.id == r.value)
      && (r.Err? ==> r.error == SpineDBAPIError("Scenario '" + scenario.name + "' not found"))
    ensures scenario.ById? ==>
      (r.Ok? <==> HasId(scenarios, scenario.id))
      && (r.Ok? ==> r.value == scenario.id)
      && (r.Err? ==> r.error == SpineDBAPIError("Scenario id " + IntToString(scenario.id) + " not found"))
  {
    match scenario
    case ByName(name) =>
      (match IdByName(scenarios, name)
       case Some(id) => Ok(id)
       case None => Err(SpineDBAPIError("Scenario '" + name + "' not found")))
    case ById(id) =>
      if exists s :: s in scenarios && s.id == id then Ok(id)
      else Err(SpineDBAPIError("Scenario id " + IntToString(id) + " not found"))
  }

  /**
   * _ScenarioFilterState: the value view current when the filter is made,
   * and the resolved scenario id.
   */
  datatype State = State(originalValues: seq<ValueRow>, scenario: int)

  /** _ScenarioFilterState.__init__: the value view is captured, then the scenario resolved. */
  function MakeState(values: seq<ValueRow>, scenarios: seq<ScenarioRow>, scenario: ScenarioRef): (r: Result<State>)
    ensures r.Ok? <==> ScenarioId(scenarios, scenario).Ok?
    ensures r.Ok? ==> r.value.originalValues == values && r.value.scenario == ScenarioId(scenarios, scenario).value
    ensures r.Err? ==> r.error == ScenarioId(scenarios, scenario).error
  {
    var id :- ScenarioId(scenarios, scenario);
    Ok(State(values, id))
  }

  // ---------------------------------------------------------------------------
  // The replacement view

  /** A row of the join: a value together with the rank its alternative has in the scenario. */
  type Joined = (ValueRow, int)

  /** The scenario_alternative rows of the scenario that hold the value's alternative, as join rows. */
  function Matches(v: ValueRow, sas: seq<ScenarioAlternativeRow>, scenario: int): (r: seq<Joined>)
    ensures forall x :: x in r <==> (x.0 == v &&
      exists sa :: sa in sas && sa.scenarioId == scenario && sa.alternativeId == v.alternativeId && sa.rank == x.1)
  {
    if sas == [] then []
    else
      (if sas[0].scenarioId == scenario && sas[0].alternativeId == v.alternativeId then [(v, sas[0].rank)] else [])
      + Matches(v, sas[1..], scenario)
  }

  /**
   * The inner query: every value joined with the scenario_alternative rows
   * that hold its alternative (`alternative_id == alternative_id`) and belong
   * to the scenario (`scenario_id == state.scenario`).
   */
  function Join(values: seq<ValueRow>, sas: seq<ScenarioAlternativeRow>, scenario: int): (r: seq<Joined>)
    ensures forall x :: x in r <==> (x.0 in values &&
      exists sa :: sa in sas && sa.scenarioId == scenario && sa.alternativeId == x.0.alternativeId && sa.rank == x.1)
  {
    if values == [] then [] else Matches(values[0], sas, scenario) + Join(values[1..], sas, scenario)
  }

  /**
   * Row i of the join is numbered 1 in its partition when ordered by
   * descending rank: every other row of the same pair has a smaller rank, or
   * the same rank and a later position.
   */
  predicate First(j: seq<Joined>, i: nat)
    requires i < |j|
  {
    forall k :: 0 <= k < |j| && PairOf(j[k].0) == PairOf(j[i].0) ==> j[k].1 < j[i].1 || (j[k].1 == j[i].1 && i <= k)
  }

  /** The join rows from position i on that are numbered 1, in join order. */
  function FirstsFrom(j: seq<Joined>, i: nat): seq<ValueRow>
    requires i <= |j|
    decreases |j| - i
  {
    if i == |j| then [] else (if First(j, i) then [j[i].0] else []) + FirstsFrom(j, i + 1)
  }

  /** _make_scenario_filtered_parameter_value_sq: the rows with max_rank_row_number == 1. */
  function FilteredValues(state: State, sas: seq<ScenarioAlternativeRow>): seq<ValueRow>
  {
    FirstsFrom(Join(state.originalValues, sas, state.scenario), 0)
  }

  /** The scenario holds the value's alternative. */
  predicate InScenario(v: ValueRow, sas: seq<ScenarioAlternativeRow>, scenario: int)
  {
    exists sa :: sa in sas && sa.scenarioId == scenario && sa.alternativeId == v.alternativeId
  }

  /** The number of rows of the pair. */
  function CountPair(rows: seq<ValueRow>, p: (int, int)): nat
  {
    if rows == [] then 0 else (if PairOf(rows[0]) == p then 1 else 0) + CountPair(rows[1..], p)
  }

  /** A row numbered 1 at position k is among the rows kept from any position up to k. */
  lemma {:induction false} FirstsFromHas(j: seq<Joined>, i: nat, k: nat)
    requires i <= k < |j| && First(j, k)
    ensures j[k].0 in FirstsFrom(j, i)
    decreases k - i
  {
    if i < k {
      FirstsFromHas(j, i + 1, k);
    }
  }

  /** A row kept from position i on is numbered 1 at some position from i on. */
  lemma {:induction false} FirstsFromWitness(j: seq<Joined>, i: nat, v: ValueRow) returns (k: nat)
    requires i <= |j| && v in FirstsFrom(j, i)
    ensures i <= k < |j| && First(j, k) && j[k].0 == v
    decreases |j| - i
  {
    if First(j, i) && j[i].0 == v {
      return i;
    }
    assert v in FirstsFrom(j, i + 1);
    k := FirstsFromWitness(j, i + 1, v);
  }

  lemma FirstsFromRows(j: seq<Joined>, i: nat, v: ValueRow)
    requires i <= |j|
    ensures v in FirstsFrom(j, i) <==> exists k :: i <= k < |j| && First(j, k) && j[k].0 == v
  {
    if v in FirstsFrom(j, i) {
      var k := FirstsFromWitness(j, i, v);
    }
    if exists k :: i <= k < |j| && First(j, k) && j[k].0 == v {
      var k :| i <= k < |j| && First(j, k) && j[k].0 == v;
      FirstsFromHas(j, i, k);
    }
  }

  /** Two rows numbered 1 in the same partition are the same row. */
  lemma FirstUnique(j: seq<Joined>, a: nat, b: nat)
    requires a < |j| && b < |j| && First(j, a) && First(j, b)
    requires PairOf(j[a].0) == PairOf(j[b].0)
    ensures a == b
  {
    assert j[b].1 < j[a].1 || (j[b].1 == j[a].1 && a <= b);
    assert j[a].1 < j[b].1 || (j[a].1 == j[b].1 && b <= a);
  }

  /** The first row numbered 1 among rows i.. of partition p, preferring higher ranks, then earlier rows. */
  function Best(j: seq<Joined>, p: (int, int), i: nat): (b: Option<nat>)
    requires i <= |j|
    ensures b.Some? ==> i <= b.value < |j| && PairOf(j[b.value].0) == p
    ensures b.Some? ==> forall k :: i <= k < |j| && PairOf(j[k].0) == p ==>
      j[k].1 < j[b.value].1 || (j[k].1 == j[b.value].1 && b.value <= k)
    ensures b.None? ==> forall k :: i <= k < |j| ==> PairOf(j[k].0) != p
    decreases |j| - i
  {
    if i == |j| then None
    else
      var rest := Best(j, p, i + 1);
      if PairOf(j[i].0) != p then rest
      else if rest.Some? && j[rest.value].1 > j[i].1 then rest
      else Some(i)
  }

  /** The rows of a partition from position i on contain one row numbered 1 exactly when the winner lies there. */
  lemma {:induction false} CountFirsts(j: seq<Joined>, p: (int, int), w: nat, i: nat)
    requires w < |j| && First(j, w) && PairOf(j[w].0) == p && i <= |j|
    ensures CountPair(FirstsFrom(j, i), p) == if i <= w then 1 else 0
    decreases |j| - i
  {
    if i < |j| {
      CountFirsts(j, p, w, i + 1);
      var head := if First(j, i) then [j[i].0] else [];
      assert FirstsFrom(j, i) == head + FirstsFrom(j, i + 1);
      CountPairAppend(head, FirstsFrom(j, i + 1), p);
      if First(j, i) && PairOf(j[i].0) == p {
        FirstUnique(j, i, w);
      }
    }
  }

  lemma {:induction false} CountNone(j: seq<Joined>, p: (int, int), i: nat)
    requires i <= |j|
    requires forall k :: 0 <= k < |j| ==> PairOf(j[k].0) != p
    ensures CountPair(FirstsFrom(j, i), p) == 0
    decreases |j| - i
  {
    if i < |j| {
      CountNone(j, p, i + 1);
      var head := if First(j, i) then [j[i].0] else [];
      assert FirstsFrom(j, i) == head + FirstsFrom(j, i + 1);
      CountPairAppend(head, FirstsFrom(j, i + 1), p);
    }
  }

  lemma {:induction false} CountPairAppend(a: seq<ValueRow>, b: seq<ValueRow>, p: (int, int))
    ensures CountPair(a + b, p) == CountPair(a, p) + CountPair(b, p)
    decreases |a|
  {
    if a != [] {
      assert (a + b)[1..] == a[1..] + b;
      CountPairAppend(a[1..], b, p);
    } else {
      assert a + b == b;
    }
  }

  /** Only values whose alternative belongs to the scenario survive the filter. */
  lemma FilteredInScenario(state: State, sas: seq<ScenarioAlternativeRow>, v: ValueRow)
    requires v in FilteredValues(state, sas)
    ensures v in state.originalValues && InScenario(v, sas, state.scenario)
  {
    var j := Join(state.originalValues, sas, state.scenario);
    FirstsFromRows(j, 0, v);
    var k :| 0 <= k < |j| && First(j, k) && j[k].0 == v;
    assert j[k] in j;
  }

  /**
   * Every (definition, entity) pair keeps exactly one row when some value of
   * the pair has an alternative in the scenario, and no row otherwise.
   */
  lemma FilteredOnePerPair(state: State, sas: seq<ScenarioAlternativeRow>, p: (int, int))
    ensures CountPair(FilteredValues(state, sas), p) ==
      if exists v :: v in state.originalValues && PairOf(v) == p && InScenario(v, sas, state.scenario) then 1 else 0
  {
    var j := Join(state.originalValues, sas, state.scenario);
    match Best(j, p, 0)
    case Some(w) =>
      CountFirsts(j, p, w, 0);
      assert j[w] in j;
    case None =>
      CountNone(j, p, 0);
      if v :| v in state.originalValues && PairOf(v) == p && InScenario(v, sas, state.scenario) {
        var sa :| sa in sas && sa.scenarioId == state.scenario && sa.alternativeId == v.alternativeId;
        ghost var joined := (v, sa.rank) in j;
        assert false;
      }
  }

  /**
   * The surviving row of a pair carries the highest rank: its alternative has
   * a rank in the scenario that no value of the same pair beats.
   */
  lemma FilteredHighestRank(state: State, sas: seq<ScenarioAlternativeRow>, v: ValueRow)
    requires v in FilteredValues(state, sas)
    ensures exists sa :: (sa in sas && sa.scenarioId == state.scenario && sa.alternativeId == v.alternativeId &&
      forall w, sb :: (w in state.originalValues && PairOf(w) == PairOf(v) && sb in sas
        && sb.scenarioId == state.scenario && sb.alternativeId == w.alternativeId) ==> sb.rank <= sa.rank)
  {
    var j := Join(state.originalValues, sas, state.scenario);
    FirstsFromRows(j, 0, v);
    var k :| 0 <= k < |j| && First(j, k) && j[k].0 == v;
    assert j[k] in j;
    var sa :| sa in sas && sa.scenarioId == state.scenario && sa.alternativeId == v.alternativeId && sa.rank == j[k].1;
    forall w, sb | w in state.originalValues && PairOf(w) == PairOf(v) && sb in sas
      && sb.scenarioId == state.scenario && sb.alternativeId == w.alternativeId
      ensures sb.rank <= sa.rank
    {
      assert (w, sb.rank) in j;
      var m :| 0 <= m < |j| && j[m] == (w, sb.rank);
    }
    assert sa in sas && sa.scenarioId == state.scenario && sa.alternativeId == v.alternativeId &&
      forall w, sb :: (w in state.originalValues && PairOf(w) == PairOf(v) && sb in sas
        && sb.scenarioId == state.scenario && sb.alternativeId == w.alternativeId) ==> sb.rank <= sa.rank;
  }

  // ---------------------------------------------------------------------------
  // Installing the filter

  /**
   * apply_scenario_filter_to_parameter_value_sq: the state is built first, so
   * a scenario that cannot be found raises before the mapping is touched;
   * otherwise the parameter value maker is replaced by the filtering one
   * (maker names the installed function) and the value subqueries are cleared.
   */
  method ApplyScenarioFilter(m: Mapping, values: seq<ValueRow>, scenarios: seq<ScenarioRow>, scenario: ScenarioRef,
                             maker: nat)
    returns (r: Result<State>)
    requires m.Valid()
    modifies m
    ensures m.Valid()
    ensures r == MakeState(values, scenarios, scenario)
    ensures r.Err? ==> m.makers == old(m.makers) && m.subqueries == old(m.subqueries)
    ensures r.Ok? ==> m.makers == old(m.makers)[ParameterValue := Custom(maker)]
    ensures m.committing == old(m.committing)
  {
    r := MakeState(values, scenarios, scenario);
    if r.Ok? {
      m.OverrideMaker(ParameterValue, maker);
    }
  }
}
