// Tool filtering of entities (spinedb_api/filters/tool_filter.py): the
// filter configuration and its shorthand, the tool lookup, and which
// entities the filter lets through. An entity passes when every row of the
// outer join entity -> definitions of its class -> its values -> the tool's
// feature methods of those definitions passes the method and the required
// predicates (func.min over both is True). Joins are taken as sets of rows:
// grouping by entity makes their order irrelevant.

module ToolFilter {
  import opened Errors
  import opened Text
  import opened Json
  import opened MappingBase

  const TOOL_FILTER_TYPE: string := "tool_filter"
  const TOOL_SHORTHAND_TAG: string := "tool"

  // ---------------------------------------------------------------------------
  // Configuration

  /** tool_filter_config */
  function ToolFilterConfig(tool: Json): (c: Json)
    ensures c.JObj? && Lookup(c.fields, "type") == Some(JStr(TOOL_FILTER_TYPE)) && Lookup(c.fields, "tool") == Some(tool)
  {
    JObj([("type", JStr(TOOL_FILTER_TYPE)), ("tool", tool)])
  }

  /** tool_name_from_dict: the tool of a tool filter configuration, None for another filter type. */
  function ToolNameFromDict(config: Json): (r: Result<Option<Json>>)
    ensures Subscript(config, "type").Err? ==> r == Err(Subscript(config, "type").error)
    ensures Subscript(config, "type").Ok? && Subscript(config, "type").value != JStr(TOOL_FILTER_TYPE) ==> r == Ok(None)
    ensures Subscript(config, "type") == Ok(JStr(TOOL_FILTER_TYPE)) ==>
      r == (if Subscript(config, "tool").Ok? then Ok(Some(Subscript(config, "tool").value))
            else Err(Subscript(config, "tool").error))
  {
    var kind :- Subscript(config, "type");
    if kind != JStr(TOOL_FILTER_TYPE) then Ok(None)
    else
      var tool :- Subscript(config, "tool");
      Ok(Some(tool))
  }

  /** tool_filter_config_to_shorthand: "tool:" followed by the tool name; a name that is not a str cannot be concatenated. */
  function ConfigToShorthand(config: Json): (r: Result<string>)
    ensures r.Ok? <==> Subscript(config, "tool").Ok? && Subscript(config, "tool").value.JStr?
    ensures r.Ok? ==> r.value == TOOL_SHORTHAND_TAG + ":" + Subscript(config, "tool").value.s
  {
    var tool :- Subscript(config, "tool");
    if tool.JStr? then Ok(TOOL_SHORTHAND_TAG + ":" + tool.s)
    else Err(TypeError("can only concatenate str (not \"" + JsonTypeName(tool) + "\") to str"))
  }

  /** tool_filter_shorthand_to_config: the tool name is everything after the first ":". */
  function ShorthandToConfig(shorthand: string): (c: Json)
    ensures exists name :: (c == ToolFilterConfig(JStr(name))
                            && (':' in shorthand ==> exists tag :: ':' !in tag && shorthand == tag + ":" + name)
                            && (':' !in shorthand ==> name == ""))
  {
    var (_, _, tool) := Partition(shorthand, ':');
    ToolFilterConfig(JStr(tool))
  }

  /** The shorthand of a tool filter configuration reads back as that configuration, whatever the tool's name holds. */
  lemma ShorthandRoundTrip(name: string)
    ensures ConfigToShorthand(ToolFilterConfig(JStr(name))).Ok?
    ensures ShorthandToConfig(ConfigToShorthand(ToolFilterConfig(JStr(name))).value) == ToolFilterConfig(JStr(name))
  {
    assert ConfigToShorthand(ToolFilterConfig(JStr(name))).value == TOOL_SHORTHAND_TAG + [':'] + name;
    PartitionAfterPrefix(TOOL_SHORTHAND_TAG, ':', name);
  }

  // ---------------------------------------------------------------------------
  // The tool lookup

  datatype ToolRow = ToolRow(id: int, name: string)

  /** The tool the filter is given: a name (str) or an id (int). */
  datatype ToolRef = ToolName(name: string) | ToolIdRef(id: int)

  function IdByName(tools: seq<ToolRow>, name: string): (r: Option<int>)
    ensures r.Some? ==> exists t :: t in tools && t.name == name && t.id == r.value
    ensures r.None? <==> forall t :: t in tools ==> t.name != name
  {
    if tools == [] then None
    else if tools[0].name == name then Some(tools[0].id)
    else IdByName(tools[1..], name)
  }

  /** _ToolFilterState._tool_id: the id of the named tool, or the given id when a tool has it. */
  function ToolId(tools: seq<ToolRow>, tool: ToolRef): (r: Result<int>)
    ensures tool.ToolName? ==>
      (r.Ok? <==> exists t :: t in tools && t.name == tool.name)
      && (r.Ok? ==> exists t :: t in tools && t.name == tool.name && t.id == r.value)
      && (r.Err? ==> r.error == SpineDBAPIError("Tool '" + tool.name + "' not found."))
    ensures tool.ToolIdRef? ==>
      (r.Ok? <==> exists t :: t in tools && t.id == tool.id)
      && (r.Ok? ==> r.value == tool.id)
      && (r.Err? ==> r.error == SpineDBAPIError("Tool id " + IntToString(tool.id) + " not found."))
  {
    match tool
    case ToolName(name) =>
      (match IdByName(tools, name)
       case Some(id) => Ok(id)
       case None => Err(SpineDBAPIError("Tool '" + name + "' not found.")))
    case ToolIdRef(id) =>
      if exists t :: t in tools && t.id == id then Ok(id)
      else Err(SpineDBAPIError("Tool id " + IntToString(id) + " not found."))
  }

  // ---------------------------------------------------------------------------
  // The rows the filter joins

  datatype EntityRow = EntityRow(id: int, classId: int)

  /** A parameter definition; listValueId is the list value its default value refers to, if any. */
  datatype DefinitionRow = DefinitionRow(id: int, classId: int, listValueId: Option<int>)

  /** A parameter value (its value column is never NULL) and the list value it refers to, if any. */
  datatype ValueRow = ValueRow(definitionId: int, entityId: int, listValueId: Option<int>)

  /** ext_tool_feature_sq: a feature of a tool with the value list of its definition. */
  datatype ToolFeatureRow = ToolFeatureRow(id: int, toolId: int, definitionId: int, listId: int, required: bool)

  datatype ToolFeatureMethodRow = ToolFeatureMethodRow(toolFeatureId: int, methodIndex: int)

  datatype ListValueRow = ListValueRow(id: int, listId: int, index: int)

  /** A row of _make_ext_tool_feature_method_sq; methodId is method_list_value_id (None when no method is set). */
  datatype FeatureMethod = FeatureMethod(definitionId: int, required: bool, methodId: Option<int>)

  /** An outer join's side: the matching rows, or one NULL row when nothing matches. */
  function Outer<T(!new)>(s: set<T>): (r: set<Option<T>>)
    ensures forall x :: x in r <==> ((s == {} && x.None?) || (x.Some? && x.value in s))
  {
    if s == {} then {None} else set x | x in s :: Some(x)
  }

  function MethodsOf(methods: set<ToolFeatureMethodRow>, tf: ToolFeatureRow): set<ToolFeatureMethodRow>
  {
    set m | m in methods && m.toolFeatureId == tf.id
  }

  /** The list values with the feature's list and the method's index (none for a NULL method). */
  function ListMatches(listValues: set<ListValueRow>, tf: ToolFeatureRow, m: Option<ToolFeatureMethodRow>): set<ListValueRow>
  {
    set lv | lv in listValues && m.Some? && lv.listId == tf.listId && lv.index == m.value.methodIndex
  }

  /**
   * _make_ext_tool_feature_method_sq: each feature of the tool, outer-joined
   * with its methods and each method with the list value at its index.
   */
  function ExtFeatureMethods(toolId: int, features: set<ToolFeatureRow>, methods: set<ToolFeatureMethodRow>,
                             listValues: set<ListValueRow>): set<FeatureMethod>
  {
    set tf, m, lv | tf in features && tf.toolId == toolId && m in Outer(MethodsOf(methods, tf))
      && lv in Outer(ListMatches(listValues, tf, m))
      :: FeatureMethod(tf.definitionId, tf.required, if lv.Some? then Some(lv.value.id) else None)
  }

  /** The stored rows the filter reads. */
  datatype ToolDb = ToolDb(definitions: set<DefinitionRow>, values: set<ValueRow>, featureMethods: set<FeatureMethod>)

  /** A row of the outer join of an entity with definitions, values and feature methods. */
  datatype JoinRow = JoinRow(definition: Option<DefinitionRow>, value: Option<ValueRow>, feature: Option<FeatureMethod>)

  function ClassDefinitions(db: ToolDb, classId: int): set<DefinitionRow>
  {
    set d | d in db.definitions && d.classId == classId
  }

  function EntityValues(db: ToolDb, d: DefinitionRow, entityId: int): set<ValueRow>
  {
    set v | v in db.values && v.definitionId == d.id && v.entityId == entityId
  }

  function DefinitionFeatures(db: ToolDb, d: DefinitionRow): set<FeatureMethod>
  {
    set f | f in db.featureMethods && f.definitionId == d.id
  }

  /** The joined rows of one entity. */
  function JoinRows(db: ToolDb, e: EntityRow): set<JoinRow>
  {
    set d, v, f | d in Outer(ClassDefinitions(db, e.classId))
      && v in Outer(if d.Some? then EntityValues(db, d.value, e.id) else {})
      && f in Outer(if d.Some? then DefinitionFeatures(db, d.value) else {})
      :: JoinRow(d, v, f)
  }

  /**
   * _make_method_filter: the definition is not a feature of the tool, or no
   * method is set, or the value's list value is the method, or there is no
   * value and the default's list value is the method.
   */
  predicate MethodPasses(r: JoinRow)
  {
    r.feature.None? || r.feature.value.methodId.None?
    || (r.value.Some? && r.value.value.listValueId == r.feature.value.methodId)
    || (r.value.None? && r.definition.Some? && r.definition.value.listValueId == r.feature.value.methodId)
  }

  /** _make_required_filter: the definition is not a feature, or a value exists, or the feature is not required. */
  predicate RequiredPasses(r: JoinRow)
  {
    r.feature.None? || r.value.Some? || !r.feature.value.required
  }

  /** The HAVING clause of active_entity_id_sq: both predicates hold on every joined row of the entity. */
  predicate Active(db: ToolDb, e: EntityRow)
  {
    forall r :: r in JoinRows(db, e) ==> MethodPasses(r) && RequiredPasses(r)
  }

  /**
   * What a feature asks of an entity, stated per definition: with values,
   * each one must refer to the method (when one is set); without, the
   * feature must not be required and the default must refer to the method.
   */
  predicate FeatureSatisfied(db: ToolDb, e: EntityRow, d: DefinitionRow, f: FeatureMethod)
  {
    var vs := EntityValues(db, d, e.id);
    if vs == {} then !f.required && (f.methodId.None? || d.listValueId == f.methodId)
    else forall v :: v in vs ==> f.methodId.None? || v.listValueId == f.methodId
  }

  /**
   * An entity passes the tool filter exactly when every feature of the tool
   * on a definition of its class is satisfied; definitions that are not
   * features impose nothing.
   */
  lemma ActiveIffFeaturesSatisfied(db: ToolDb, e: EntityRow)
    ensures Active(db, e) <==>
      forall d, f :: d in ClassDefinitions(db, e.classId) && f in DefinitionFeatures(db, d) ==> FeatureSatisfied(db, e, d, f)
  {
    if Active(db, e) {
      forall d, f | d in ClassDefinitions(db, e.classId) && f in DefinitionFeatures(db, d)
        ensures FeatureSatisfied(db, e, d, f)
      {
        var vs := EntityValues(db, d, e.id);
        if vs == {} {
          assert JoinRow(Some(d), None, Some(f)) in JoinRows(db, e);
        } else {
          forall v | v in vs ensures f.methodId.None? || v.listValueId == f.methodId {
            assert JoinRow(Some(d), Some(v), Some(f)) in JoinRows(db, e);
          }
        }
      }
    }
    if forall d, f :: d in ClassDefinitions(db, e.classId) && f in DefinitionFeatures(db, d) ==> FeatureSatisfied(db, e, d, f) {
      forall r | r in JoinRows(db, e) ensures MethodPasses(r) && RequiredPasses(r) {
        if r.feature.Some? {
          assert r.definition.Some?;
          assert FeatureSatisfied(db, e, r.definition.value, r.feature.value);
        }
      }
    }
  }

  // ---------------------------------------------------------------------------
  // The filter state and the replacement entity view

  /** _ToolFilterState: the entity view current when the filter is made, and the ids of the entities that pass. */
  datatype State = State(originalEntities: seq<EntityRow>, active: set<int>)

  /** The ids of the entities of the view that pass the filter. */
  function ActiveIds(db: ToolDb, entities: seq<EntityRow>): (r: set<int>)
    ensures forall id :: id in r <==> exists e :: e in entities && e.id == id && Active(db, e)
  {
    set e | e in entities && Active(db, e) :: e.id
  }

  /**
   * _ToolFilterState.__init__: the entity view is captured, the tool looked
   * up (a missing tool raises) and the passing entity ids stored (the
   * temporary table of the source). features, methods and listValues are the
   * tool_feature, tool_feature_method and list_value rows.
   */
  function MakeState(entities: seq<EntityRow>, tools: seq<ToolRow>, tool: ToolRef, definitions: set<DefinitionRow>,
                     values: set<ValueRow>, features: set<ToolFeatureRow>, methods: set<ToolFeatureMethodRow>,
                     listValues: set<ListValueRow>): (r: Result<State>)
    ensures r.Ok? <==> ToolId(tools, tool).Ok?
    ensures r.Err? ==> r.error == ToolId(tools, tool).error
    ensures r.Ok? ==> r.value.originalEntities == entities
    ensures r.Ok? ==>
      var db := ToolDb(definitions, values, ExtFeatureMethods(ToolId(tools, tool).value, features, methods, listValues));
      forall id :: id in r.value.active <==> exists e :: e in entities && e.id == id && Active(db, e)
  {
    var toolId :- ToolId(tools, tool);
    var db := ToolDb(definitions, values, ExtFeatureMethods(toolId, features, methods, listValues));
    Ok(State(entities, ActiveIds(db, entities)))
  }

  /** _make_tool_filtered_entity_sq: the captured entity rows whose id passed, in view order. */
  function FilteredEntities(state: State): (r: seq<EntityRow>)
    ensures forall e :: e in r <==> e in state.originalEntities && e.id in state.active
    ensures |r| <= |state.originalEntities|
  {
    Keep(state.originalEntities, state.active)
  }

  function Keep(entities: seq<EntityRow>, ids: set<int>): (r: seq<EntityRow>)
    ensures forall e :: e in r <==> e in entities && e.id in ids
    ensures |r| <= |entities|
  {
    if entities == [] then []
    else (if entities[0].id in ids then [entities[0]] else []) + Keep(entities[1..], ids)
  }

  /**
   * apply_tool_filter_to_entity_sq: the state is made first (a missing tool
   * raises before anything changes), then the entity maker is overridden.
   */
  method ApplyToolFilter(m: Mapping, entities: seq<EntityRow>, tools: seq<ToolRow>, tool: ToolRef,
                         definitions: set<DefinitionRow>, values: set<ValueRow>, features: set<ToolFeatureRow>,
                         methods: set<ToolFeatureMethodRow>, listValues: set<ListValueRow>, maker: nat)
    returns (r: Result<State>)
    requires m.Valid()
    modifies m
    ensures m.Valid()
    ensures r == MakeState(entities, tools, tool, definitions, values, features, methods, listValues)
    ensures r.Err? ==> m.makers == old(m.makers) && m.subqueries == old(m.subqueries)
    ensures r.Ok? ==> m.makers == old(m.makers)[Entity := Custom(maker)]
    ensures m.committing == old(m.committing)
  {
    r := MakeState(entities, tools, tool, definitions, values, features, methods, listValues);
    if r.Ok? {
      m.OverrideMaker(Entity, maker);
    }
  }
}
