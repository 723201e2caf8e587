// The execution filter (spinedb_api/filters/execution_filter.py): its
// configuration and shorthand, the execution descriptor it reads, and the
// import alternative it creates: named after the scenarios, the executing
// item and the time stamp, and ranked last in each of the scenarios.
// JSON text (json.dumps / json.loads) is passed in as a pair of functions.

module ExecutionFilter {
  import opened Errors
  import opened Text
  import opened Json

  const EXECUTION_FILTER_TYPE: string := "execution_filter"
  const EXECUTION_SHORTHAND_TAG: string := "execution"

  /** execution_filter_config */
  function ExecutionFilterConfig(execution: Json): (c: Json)
    ensures Subscript(c, "type") == Ok(JStr(EXECUTION_FILTER_TYPE))
    ensures Subscript(c, "execution") == Ok(execution)
  {
    var fields := [("type", JStr(EXECUTION_FILTER_TYPE)), ("execution", execution)];
    assert fields[0].0 != "execution";
    assert Lookup(fields[1..], "execution") == Some(execution);
    JObj(fields)
  }

  /** execution_descriptor_from_dict: the descriptor of an execution filter configuration, None for another filter type. */
  function ExecutionDescriptorFromDict(config: Json): (r: Result<Option<Json>>)
    ensures Subscript(config, "type").Err? ==> r == Err(Subscript(config, "type").error)
    ensures Subscript(config, "type").Ok? && Subscript(config, "type").value != JStr(EXECUTION_FILTER_TYPE) ==> r == Ok(None)
    ensures Subscript(config, "type") == Ok(JStr(EXECUTION_FILTER_TYPE)) ==>
      r == (if Subscript(config, "execution").Ok? then Ok(Some(Subscript(config, "execution").value))
            else Err(Subscript(config, "execution").error))
  {
    var kind :- Subscript(config, "type");
    if kind != JStr(EXECUTION_FILTER_TYPE) then Ok(None)
    else
      var execution :- Subscript(config, "execution");
      Ok(Some(execution))
  }

  /** json.dumps and json.loads. */
  datatype JsonText = JsonText(dumps: Json -> string, loads: string -> Result<Json>)

  /** execution_filter_config_to_shorthand: "execution:" followed by the descriptor as JSON text. */
  function ConfigToShorthand(config: Json, text: JsonText): (r: Result<string>)
    ensures r.Ok? <==> Subscript(config, "execution").Ok?
    ensures r.Ok? ==> r.value == EXECUTION_SHORTHAND_TAG + ":" + text.dumps(Subscript(config, "execution").value)
  {
    var execution :- Subscript(config, "execution");
    Ok(EXECUTION_SHORTHAND_TAG + ":" + text.dumps(execution))
  }

  /** execution_filter_shorthand_to_config: everything after the first ":" is read as JSON. */
  function ShorthandToConfig(shorthand: string, text: JsonText): (r: Result<Json>)
    ensures text.loads(Partition(shorthand, ':').2).Err? ==> r == Err(text.loads(Partition(shorthand, ':').2).error)
    ensures r.Ok? ==> (Subscript(r.value, "type") == Ok(JStr(EXECUTION_FILTER_TYPE))
                       && Subscript(r.value, "execution") == text.loads(Partition(shorthand, ':').2))
  {
    var (_, _, execution) := Partition(shorthand, ':');
    var descriptor :- text.loads(execution);
    Ok(ExecutionFilterConfig(descriptor))
  }

  /** Whenever JSON text reads back as the descriptor it was written from, so does the shorthand as the configuration. */
  lemma ShorthandRoundTrip(execution: Json, text: JsonText)
    requires text.loads(text.dumps(execution)) == Ok(execution)
    ensures ConfigToShorthand(ExecutionFilterConfig(execution), text).Ok?
    ensures ShorthandToConfig(ConfigToShorthand(ExecutionFilterConfig(execution), text).value, text)
      == Ok(ExecutionFilterConfig(execution))
  {
    assert ConfigToShorthand(ExecutionFilterConfig(execution), text).value
      == EXECUTION_SHORTHAND_TAG + [':'] + text.dumps(execution);
    PartitionAfterPrefix(EXECUTION_SHORTHAND_TAG, ':', text.dumps(execution));
  }

  // ---------------------------------------------------------------------------
  // The descriptor

  datatype Descriptor = Descriptor(executionItem: Json, scenarios: seq<Json>, timestamp: Json)

  function MissingKey(key: string): Error
  {
    SpineDBAPIError("Key ''" + key + "'' not found in execution filter descriptor.")
  }

  /**
   * _ExecutionFilterState._parse_execution_descriptor: execution_item,
   * scenarios and timestamp are read in that order, the first missing one
   * raising a SpineDBAPIError that names it; scenarios must then be a list.
   */
  function ParseExecutionDescriptor(execution: Json): (r: Result<Descriptor>)
    ensures execution.JObj? ==>
      (r.Ok? <==> HasKey(execution.fields, "execution_item") && HasKey(execution.fields, "scenarios")
                  && HasKey(execution.fields, "timestamp") && Lookup(execution.fields, "scenarios").value.JArr?)
    ensures execution.JObj? && !HasKey(execution.fields, "execution_item") ==> r == Err(MissingKey("execution_item"))
    ensures execution.JObj? && HasKey(execution.fields, "execution_item") && !HasKey(execution.fields, "scenarios")
      ==> r == Err(MissingKey("scenarios"))
    ensures (execution.JObj? && HasKey(execution.fields, "execution_item") && HasKey(execution.fields, "scenarios")
             && !HasKey(execution.fields, "timestamp")) ==> r == Err(MissingKey("timestamp"))
    ensures r.Ok? ==> execution.JObj? && r.value == Descriptor(Lookup(execution.fields, "execution_item").value,
                                            Lookup(execution.fields, "scenarios").value.items,
                                            Lookup(execution.fields, "timestamp").value)
    ensures !execution.JObj? ==> r.Err? && r.error.TypeError?
  {
    var item := Subscript(execution, "execution_item");
    var scenarios := Subscript(execution, "scenarios");
    var timestamp := Subscript(execution, "timestamp");
    if !execution.JObj? then Err(item.error)
    else if item.Err? then Err(MissingKey("execution_item"))
    else if scenarios.Err? then Err(MissingKey("scenarios"))
    else if timestamp.Err? then Err(MissingKey("timestamp"))
    else if !scenarios.value.JArr? then Err(SpineDBAPIError("Key 'scenarios' should contain a list."))
    else Ok(Descriptor(item.value, scenarios.value.items, timestamp.value))
  }

  // ---------------------------------------------------------------------------
  // The import alternative

  /** '_'.join(scenarios): every scenario must be a str. */
  function ScenarioNames(scenarios: seq<Json>): (r: Result<seq<string>>)
    ensures r.Ok? <==> forall i :: 0 <= i < |scenarios| ==> scenarios[i].JStr?
    ensures r.Ok? ==> |r.value| == |scenarios| && forall i :: 0 <= i < |scenarios| ==> r.value[i] == scenarios[i].s
    decreases |scenarios|
  {
    if scenarios == [] then Ok([])
    else if !scenarios[0].JStr? then
      Err(TypeError("sequence item 0: expected str instance, " + JsonTypeName(scenarios[0]) + " found"))
    else
      var rest :- ScenarioNames(scenarios[1..]);
      Ok([scenarios[0].s] + rest)
  }

  /**
   * The import alternative's name: the scenarios joined by "_", then "__"
   * only when there are scenarios, then "<item>@<timestamp>".
   */
  function ImportAlternativeName(d: Descriptor): (r: Result<string>)
    ensures r.Ok? <==> ScenarioNames(d.scenarios).Ok?
    ensures r.Ok? && d.scenarios == [] ==> r.value == PyStr(d.executionItem) + "@" + PyStr(d.timestamp)
    ensures r.Ok? && d.scenarios != [] ==>
      r.value == Join(ScenarioNames(d.scenarios).value, "_") + "__" + PyStr(d.executionItem) + "@" + PyStr(d.timestamp)
  {
    var names :- ScenarioNames(d.scenarios);
    var sep := if d.scenarios != [] then "__" else "";
    Ok(Join(names, "_") + sep + PyStr(d.executionItem) + "@" + PyStr(d.timestamp))
  }

  /**
   * The rank of the import alternative in a scenario: one past the largest
   * rank the scenario has, or 1 when it has none or its largest rank is 0
   * (`max_rank + 1 if max_rank else 1`).
   */
  function NextRank(ranks: seq<int>): (r: int)
    ensures ranks == [] ==> r == 1
    ensures ranks != [] && Max(ranks) != 0 ==> r == Max(ranks) + 1
    ensures ranks != [] && Max(ranks) == 0 ==> r == 1
  {
    if ranks == [] then 1
    else
      var maxRank := Max(ranks);
      if maxRank != 0 then maxRank + 1 else 1
  }

  /** A scenario's rank for the import alternative is above every rank it has whenever its ranks are positive. */
  lemma NextRankIsLast(ranks: seq<int>)
    requires forall r :: r in ranks ==> r > 0
    ensures forall r :: r in ranks ==> r < NextRank(ranks)
    ensures NextRank(ranks) !in ranks
  {
    if ranks != [] {
      var m := Max(ranks);
      assert m > 0;
    }
  }

  datatype NamedRow = NamedRow(id: int, name: string)

  datatype ScenarioAlternative = ScenarioAlternative(scenarioId: int, alternativeId: int, rank: int)

  /** The ranks a scenario's alternatives have. */
  function RanksOf(sas: seq<ScenarioAlternative>, scenarioId: int): (r: seq<int>)
    ensures forall x :: x in r <==> exists sa :: sa in sas && sa.scenarioId == scenarioId && sa.rank == x
  {
    if sas == [] then []
    else (if sas[0].scenarioId == scenarioId then [sas[0].rank] else []) + RanksOf(sas[1..], scenarioId)
  }

  /** The id of the first row with the name. */
  function IdOf(rows: seq<NamedRow>, name: string): (r: Option<int>)
    ensures r.Some? ==> exists x :: x in rows && x.name == name && x.id == r.value
    ensures r.None? <==> forall x :: x in rows ==> x.name != name
  {
    if rows == [] then None
    else if rows[0].name == name then Some(rows[0].id)
    else IdOf(rows[1..], name)
  }

  function MaxRowId(rows: seq<NamedRow>): (m: int)
    ensures forall x :: x in rows ==> x.id <= m
  {
    if rows == [] then 0
    else
      var rest := MaxRowId(rows[1..]);
      assert forall x :: x in rows ==> x == rows[0] || x in rows[1..];
      if rows[0].id > rest then rows[0].id else rest
  }

  /**
   * The part of a database mapping _create_import_alternative works on: the
   * alternative, scenario and scenario_alternative rows, and the import
   * alternative it records. Adding a named item with return_dups yields the
   * id of the existing item of that name, or of a new one.
   */
  /** The named scenario is among the rows and the alternative is ranked in it. */
  ghost predicate Placed(scenarios: seq<NamedRow>, links: seq<ScenarioAlternative>, name: string, altId: int)
  {
    exists s, rank :: NamedRow(s, name) in scenarios && ScenarioAlternative(s, altId, rank) in links
  }

  /** Rows only added keep a placement. */
  lemma PlacedGrows(scenarios: seq<NamedRow>, links: seq<ScenarioAlternative>, scenarios': seq<NamedRow>, links': seq<ScenarioAlternative>, name: string, altId: int)
    requires scenarios <= scenarios' && links <= links' && Placed(scenarios, links, name, altId)
    ensures Placed(scenarios', links', name, altId)
  {
    var s, rank :| NamedRow(s, name) in scenarios && ScenarioAlternative(s, altId, rank) in links;
    assert NamedRow(s, name) in scenarios';
    assert ScenarioAlternative(s, altId, rank) in links';
  }

  class ExecutionTarget {
    var alternatives: seq<NamedRow>
    var scenarios: seq<NamedRow>
    var scenarioAlternatives: seq<ScenarioAlternative>
    var importAlternativeName: Option<string>
    var importAlternativeId: Option<int>

    constructor (alternatives: seq<NamedRow>, scenarios: seq<NamedRow>, scenarioAlternatives: seq<ScenarioAlternative>)
      ensures this.alternatives == alternatives && this.scenarios == scenarios
      ensures this.scenarioAlternatives == scenarioAlternatives
      ensures importAlternativeName == None && importAlternativeId == None
    {
      this.alternatives := alternatives;
      this.scenarios := scenarios;
      this.scenarioAlternatives := scenarioAlternatives;
      importAlternativeName := None;
      importAlternativeId := None;
    }

    /** add_alternatives({"name": name}, return_dups=True): the id of the alternative with that name. */
    method AddAlternative(name: string) returns (id: int)
      modifies this`alternatives
      ensures NamedRow(id, name) in alternatives
      ensures IdOf(old(alternatives), name).Some? ==> id == IdOf(old(alternatives), name).value && alternatives == old(alternatives)
      ensures IdOf(old(alternatives), name).None? ==> alternatives == old(alternatives) + [NamedRow(id, name)]
    {
      var known := IdOf(alternatives, name);
      if known.Some? {
        id := known.value;
      } else {
        id := MaxRowId(alternatives) + 1;
        alternatives := alternatives + [NamedRow(id, name)];
      }
    }

    /** add_scenarios(..., return_dups=True) for one name: the id of the scenario with that name. */
    method AddScenario(name: string) returns (id: int)
      modifies this`scenarios
      ensures NamedRow(id, name) in scenarios
      ensures old(scenarios) <= scenarios
      ensures IdOf(old(scenarios), name).Some? ==> id == IdOf(old(scenarios), name).value && scenarios == old(scenarios)
    {
      var known := IdOf(scenarios, name);
      if known.Some? {
        id := known.value;
      } else {
        id := MaxRowId(scenarios) + 1;
        scenarios := scenarios + [NamedRow(id, name)];
      }
    }

    /**
     * _create_import_alternative: record the name, add the alternative, add
     * the scenarios, and rank the alternative last in each of them; a
     * scenario that already holds the alternative is left as it is (the
     * integrity check rejects the pair and the error is not raised).
     */
    method CreateImportAlternative(d: Descriptor) returns (r: Result<int>)
      modifies this
      ensures r.Ok? <==> ImportAlternativeName(d).Ok?
      ensures r.Err? ==> (alternatives == old(alternatives) && scenarios == old(scenarios)
                          && scenarioAlternatives == old(scenarioAlternatives) && importAlternativeId == old(importAlternativeId))
      ensures r.Ok? ==> (importAlternativeName == Some(ImportAlternativeName(d).value)
                         && importAlternativeId == Some(r.value) && NamedRow(r.value, ImportAlternativeName(d).value) in alternatives)
      ensures r.Ok? ==> old(scenarioAlternatives) <= scenarioAlternatives
      ensures r.Ok? ==> forall i :: 0 <= i < |d.scenarios| ==>
        exists s, rank :: NamedRow(s, d.scenarios[i].s) in scenarios && ScenarioAlternative(s, r.value, rank) in scenarioAlternatives
    {
      var name := ImportAlternativeName(d);
      if name.Err? {
        return Err(name.error);
      }
      importAlternativeName := Some(name.value);
      var altId := AddAlternative(name.value);
      importAlternativeId := Some(altId);
      var names := ScenarioNames(d.scenarios).value;
      RankInScenarios(names, altId);
      r := Ok(altId);
    }

    /** The loop of _create_import_alternative over the scenario names: each is added and the alternative ranked in it. */
    method RankInScenarios(names: seq<string>, altId: int)
      modifies this`scenarios, this`scenarioAlternatives
      ensures old(scenarios) <= scenarios && old(scenarioAlternatives) <= scenarioAlternatives
      ensures forall k :: 0 <= k < |names| ==> Placed(scenarios, scenarioAlternatives, names[k], altId)
    {
      for i := 0 to |names|
        invariant old(scenarios) <= scenarios && old(scenarioAlternatives) <= scenarioAlternatives
        invariant forall k :: 0 <= k < i ==> Placed(scenarios, scenarioAlternatives, names[k], altId)
      {
        ghost var (s0, sa0) := (scenarios, scenarioAlternatives);
        var scenId := AddScenario(names[i]);
        RankInScenario(scenId, altId);
        assert exists rank :: ScenarioAlternative(scenId, altId, rank) in scenarioAlternatives;
        forall k | 0 <= k < i ensures Placed(scenarios, scenarioAlternatives, names[k], altId) {
          PlacedGrows(s0, sa0, scenarios, scenarioAlternatives, names[k], altId);
        }
      }
    }

    /**
     * add_scenario_alternatives for one scenario: the alternative goes after
     * every alternative the scenario has, unless the scenario already has it.
     */
    method RankInScenario(scenarioId: int, alternativeId: int)
      modifies this`scenarioAlternatives
      ensures old(scenarioAlternatives) <= scenarioAlternatives
      ensures (exists rank :: ScenarioAlternative(scenarioId, alternativeId, rank) in old(scenarioAlternatives)) ==>
        scenarioAlternatives == old(scenarioAlternatives)
      ensures (forall rank :: ScenarioAlternative(scenarioId, alternativeId, rank) !in old(scenarioAlternatives)) ==>
        scenarioAlternatives == old(scenarioAlternatives)
          + [ScenarioAlternative(scenarioId, alternativeId, NextRank(RanksOf(old(scenarioAlternatives), scenarioId)))]
    {
      var rank := NextRank(RanksOf(scenarioAlternatives, scenarioId));
      if forall sa :: sa in scenarioAlternatives ==> !(sa.scenarioId == scenarioId && sa.alternativeId == alternativeId) {
        scenarioAlternatives := scenarioAlternatives + [ScenarioAlternative(scenarioId, alternativeId, rank)];
      }
    }
  }
}
