// The keyed planners of spinedb_api/import_functions.py, kind by kind: how
// each reads its rows (the key, the item a new key starts from, the optional
// fields, the fields always set, the check), plus the unique name given to a
// new relationship and the parameter value rows, which log unknown
// alternatives and repeated keys.

module ImportPlanners {
  import opened Errors
  import opened Text
  import opened Items
  import opened CheckFunctions
  import opened ImportFunctions

  /** The two ids a (class name, parameter name) pair maps to, (None, None) when unknown. */
  function IdPair(m: map<Val, (Val, Val)>, key: Val): (Val, Val)
  {
    if key in m then m[key] else (VNone, VNone)
  }

  /** The cached item itself, for planners that start an existing key from its cached item. */
  function AsCached(item: Item): Item { item }

  // ---------------------------------------------------------------------------
  // Name-keyed planners: alternatives, scenarios, tools, object classes

  /** A name row: a name and the optional values, a bare string a name alone; a new name starts from the defaults. */
  function NamedRow(kind: string, defaults: Item, row: Val): (r: Result<Prepared>)
    ensures row.VStr? ==> r.Ok? && r.value.Prepared? && r.value.key == row && r.value.optionals == []
    ensures r.Ok? ==> (&& r.value.Prepared? && r.value.initial == defaults["name" := r.value.key]
                       && r.value.duplicate.None? && r.value.adopt == AsCached)
    ensures (row.VTuple? || row.VList?) && row.elems != [] ==>
      r.Ok? && r.value.key == row.elems[0] && r.value.optionals == row.elems[1..]
  {
    var parts :- UnpackNamed(row);
    Ok(Prepared(parts[0], defaults["name" := parts[0]], AsCached, parts[1..], kind + " '" + Str(parts[0]) + "'", None))
  }

  function AlternativesPlanner(): Keyed
  {
    Keyed("alternative", row => NamedRow("alternative", map["description" := VNone], row), ["description"], map[],
          (item, current) => CheckAlternative(item, current))
  }

  function ScenariosPlanner(): Keyed
  {
    Keyed("scenario", row => NamedRow("scenario", map["active" := VBool(false), "description" := VNone], row),
          ["active", "description"], map[], (item, current) => CheckScenario(item, current))
  }

  function ToolsPlanner(): Keyed
  {
    Keyed("tool", row => NamedRow("tool", map["description" := VNone], row), ["description"], map[],
          (item, current) => CheckTool(item, current))
  }

  function ObjectClassesPlanner(objectClassType: Val): Keyed
  {
    Keyed("object class", row => NamedRow("object class", map["description" := VNone, "display_icon" := VNone], row),
          ["description", "display_icon"], map["type_id" := objectClassType],
          (item, current) => CheckObjectClass(item, current, objectClassType))
  }

  /** A bare string is the 1-tuple holding it. */
  lemma BareNameIsOneTuple(k: Keyed, kind: string, defaults: Item, ids: map<Val, int>, cache: map<int, Item>, data: seq<Val>, name: string)
    requires forall row :: k.prepare(row) == NamedRow(kind, defaults, row)
    ensures KeyedPlan(k, ids, cache, data + [VStr(name)]) == KeyedPlan(k, ids, cache, data + [VTuple([VStr(name)])])
  {
    assert NamedRow(kind, defaults, VStr(name)) == NamedRow(kind, defaults, VTuple([VStr(name)]));
    SamePreparedSamePlan(k, ids, cache, data, VStr(name), VTuple([VStr(name)]));
  }

  /** A new alternative is added with the description given, or None. */
  lemma NewAlternativeAdded(ids: map<Val, int>, cache: map<int, Item>, name: Val, optionals: seq<Val>)
    requires name !in ids && |optionals| <= 1
    ensures KeyedPlan(AlternativesPlanner(), ids, cache, [VTuple([name] + optionals)]).Ok?
    ensures (var s := KeyedPlan(AlternativesPlanner(), ids, cache, [VTuple([name] + optionals)]).value;
             && s.plan == Plan([map["name" := name, "description" := if optionals == [] then VNone else optionals[0]]], [], [])
             && s.added == [name])
  {
    KeyedPlanOne(AlternativesPlanner(), ids, cache, VTuple([name] + optionals));
    NewAlternativeStep(ids, cache, name, optionals);
  }

  /** The item a new alternative row comes to: its name and its description, or None. */
  lemma DescribedItem(name: Val, optionals: seq<Val>)
    requires |optionals| <= 1
    ensures map["description" := VNone]["name" := name] + map[] + Zip(["description"], optionals)
      == map["name" := name, "description" := if optionals == [] then VNone else optionals[0]]
  {
  }

  /** The row of a new alternative passes its check and is an addition. */
  lemma NewAlternativeStep(ids: map<Val, int>, cache: map<int, Item>, name: Val, optionals: seq<Val>)
    requires name !in ids && |optionals| <= 1
    ensures KeyedStep(AlternativesPlanner(), ids, cache, {}, VTuple([name] + optionals))
      == Ok(Add(name, map["name" := name, "description" := if optionals == [] then VNone else optionals[0]]))
  {
    var row := VTuple([name] + optionals);
    var p := NamedRow("alternative", map["description" := VNone], row).value;
    assert p.key == name && p.optionals == optionals;
    DescribedItem(name, optionals);
    var item := map["name" := name, "description" := if optionals == [] then VNone else optionals[0]];
    assert CheckAlternative(item, Others(ids, name)) == Ok(item);
  }

  /**
   * An existing alternative is updated: its cached item, with the
   * description given, carrying its id.
   */
  lemma ExistingAlternativeUpdated(ids: map<Val, int>, cache: map<int, Item>, name: Val, optionals: seq<Val>)
    requires name in ids && ids[name] in cache && "name" in cache[ids[name]] && cache[ids[name]]["name"] == name
    requires |optionals| <= 1
    ensures KeyedPlan(AlternativesPlanner(), ids, cache, [VTuple([name] + optionals)]).Ok?
    ensures (var s := KeyedPlan(AlternativesPlanner(), ids, cache, [VTuple([name] + optionals)]).value;
             var cached := cache[ids[name]];
             && s.plan == Plan([], [(cached + Zip(["description"], optionals))["id" := VInt(ids[name])]], [])
             && s.updated == [name])
  {
    var row := VTuple([name] + optionals);
    assert [row][..0] == [];
    var p := NamedRow("alternative", map["description" := VNone], row).value;
    assert p.key == name && p.optionals == optionals;
    var cached := cache[ids[name]];
    assert p.adopt(cached) == cached;
    assert cached + map[] == cached;
    var item := cached + map[] + Zip(["description"], optionals);
    assert "name" in item && item["name"] == name;
    assert CheckAlternative(item, Others(ids, name)) == Ok(item);
  }

  /** A new scenario given by its name alone is added inactive, without a description. */
  lemma NewScenarioDefaults(ids: map<Val, int>, cache: map<int, Item>, name: string)
    requires VStr(name) !in ids
    ensures KeyedPlan(ScenariosPlanner(), ids, cache, [VStr(name)]).Ok?
    ensures KeyedPlan(ScenariosPlanner(), ids, cache, [VStr(name)]).value.plan
      == Plan([map["name" := VStr(name), "active" := VBool(false), "description" := VNone]], [], [])
  {
    assert [VStr(name)][..0] == [];
    var item := map["active" := VBool(false), "description" := VNone]["name" := VStr(name)] + map[] + Zip(["active", "description"], []);
    assert item == map["name" := VStr(name), "active" := VBool(false), "description" := VNone];
    assert CheckScenario(item, Others(ids, VStr(name))) == Ok(item);
  }

  /** Every object class planned carries the object class type. */
  lemma ObjectClassesTyped(objectClassType: Val, ids: map<Val, int>, cache: map<int, Item>, data: seq<Val>)
    ensures KeyedPlan(ObjectClassesPlanner(objectClassType), ids, cache, data).Ok? ==>
      forall item :: item in KeyedPlan(ObjectClassesPlanner(objectClassType), ids, cache, data).value.plan.toAdd
                             + KeyedPlan(ObjectClassesPlanner(objectClassType), ids, cache, data).value.plan.toUpdate ==>
        "type_id" in item && item["type_id"] == objectClassType
  {
    KeyedPlanKeeps(ObjectClassesPlanner(objectClassType), ids, cache, data, item => "type_id" in item && item["type_id"] == objectClassType);
  }

  // ---------------------------------------------------------------------------
  // Relationship classes, objects, features, tool features

  /**
   * A relationship class row: a name, the object class names and the
   * optional values; a new class lists the ids of its object classes (None
   * for an unknown one).
   */
  function RelationshipClassRow(objectClassIds: map<Val, Val>, row: Val): (r: Result<Prepared>)
    ensures r.Ok? ==> (&& r.value.Prepared? && Iterate(row).Ok? && |Iterate(row).value| >= 2
                       && r.value.key == Iterate(row).value[0]
                       && Iterate(Iterate(row).value[1]).Ok?
                       && (var names := Iterate(Iterate(row).value[1]).value;
                           "object_class_id_list" in r.value.initial && r.value.initial["object_class_id_list"] == VList(seq(|names|, i requires 0 <= i < |names| => GetVal(objectClassIds, names[i], VNone)))))
  {
    var parts :- UnpackAtLeast(row, 2);
    var name := parts[0];
    var names :- Iterate(parts[1]);
    var classIds := seq(|names|, i requires 0 <= i < |names| => GetVal(objectClassIds, names[i], VNone));
    Ok(Prepared(name, map["name" := name, "object_class_id_list" := VList(classIds), "description" := VNone, "display_icon" := VNone],
                AsCached, parts[2..], "relationship class '" + Str(name) + "' with object classes " + TupleRepr(names), None))
  }

  function RelationshipClassesPlanner(objectClassIds: map<Val, Val>, relationshipClassType: Val): Keyed
  {
    Keyed("relationship class", row => RelationshipClassRow(objectClassIds, row), ["description", "display_icon"],
          map["type_id" := relationshipClassType],
          (item, current) => CheckRelationshipClass(item, current, objectClassIds.Values, relationshipClassType))
  }

  /** An object row: class name, object name, optional values; the key is (class id, name). */
  function ObjectRow(objectClassIds: map<Val, Val>, row: Val): (r: Result<Prepared>)
    ensures r.Ok? ==> (&& r.value.Prepared? && Iterate(row).Ok? && |Iterate(row).value| >= 2
                       && (var parts := Iterate(row).value;
                           var classId := GetVal(objectClassIds, parts[0], VNone);
                           && r.value.key == Pair(classId, parts[1])
                           && r.value.initial == map["name" := parts[1], "class_id" := classId, "description" := VNone]))
  {
    var parts :- UnpackAtLeast(row, 2);
    var className, name := parts[0], parts[1];
    var classId := GetVal(objectClassIds, className, VNone);
    Ok(Prepared(Pair(classId, name), map["name" := name, "class_id" := classId, "description" := VNone], AsCached,
                parts[2..], "object '" + Str(name) + "' with class '" + Str(className) + "'", None))
  }

  function ObjectsPlanner(objectClassIds: map<Val, Val>, objectEntityType: Val): Keyed
  {
    Keyed("object", row => ObjectRow(objectClassIds, row), ["description"], map["type_id" := objectEntityType],
          (item, current) => CheckObject(item, current, objectClassIds.Values, objectEntityType))
  }

  /** Every object planned is of a known class and carries the object entity type. */
  lemma ObjectsTyped(objectClassIds: map<Val, Val>, objectEntityType: Val, ids: map<Val, int>, cache: map<int, Item>, data: seq<Val>)
    ensures KeyedPlan(ObjectsPlanner(objectClassIds, objectEntityType), ids, cache, data).Ok? ==>
      forall item :: item in KeyedPlan(ObjectsPlanner(objectClassIds, objectEntityType), ids, cache, data).value.plan.toAdd
                             + KeyedPlan(ObjectsPlanner(objectClassIds, objectEntityType), ids, cache, data).value.plan.toUpdate ==>
        "type_id" in item && item["type_id"] == objectEntityType && "class_id" in item && item["class_id"] in objectClassIds.Values
  {
    KeyedPlanKeeps(ObjectsPlanner(objectClassIds, objectEntityType), ids, cache, data,
                   item => "type_id" in item && item["type_id"] == objectEntityType && "class_id" in item && item["class_id"] in objectClassIds.Values);
  }

  /** A feature row: class name, parameter name, optional description; the key is the definition id. */
  function FeatureRow(parameterIds: map<Val, (Val, Val)>, row: Val): (r: Result<Prepared>)
    ensures r.Ok? ==> (&& r.value.Prepared? && Iterate(row).Ok? && |Iterate(row).value| >= 2
                       && (var parts := Iterate(row).value;
                           var ids := IdPair(parameterIds, Pair(parts[0], parts[1]));
                           && r.value.key == ids.0
                           && r.value.initial == map["parameter_definition_id" := ids.0, "parameter_value_list_id" := ids.1,
                                                     "description" := VNone]))
  {
    var parts :- UnpackAtLeast(row, 2);
    var ids := IdPair(parameterIds, Pair(parts[0], parts[1]));
    Ok(Prepared(ids.0, map["parameter_definition_id" := ids.0, "parameter_value_list_id" := ids.1, "description" := VNone],
                AsCached, parts[2..], "feature '" + TupleRepr(parts[..2]) + "'", None))
  }

  function FeaturesPlanner(parameterIds: map<Val, (Val, Val)>, definitions: map<Val, Item>): Keyed
  {
    Keyed("feature", row => FeatureRow(parameterIds, row), ["description"], map[],
          (item, current) => CheckFeature(item, current, definitions))
  }

  /** A tool feature row: tool, class and parameter names, optional `required`; the key is (tool id, feature id). */
  function ToolFeatureRow(toolIds: map<Val, Val>, featureIds: map<Val, (Val, Val)>, row: Val): (r: Result<Prepared>)
    ensures r.Ok? ==> (&& r.value.Prepared? && Iterate(row).Ok? && |Iterate(row).value| >= 3
                       && (var parts := Iterate(row).value;
                           var feature := IdPair(featureIds, Pair(parts[1], parts[2]));
                           && r.value.key == Pair(GetVal(toolIds, parts[0], VNone), feature.0)
                           && "required" in r.value.initial && r.value.initial["required"] == VBool(false)))
  {
    var parts :- UnpackAtLeast(row, 3);
    var toolId := GetVal(toolIds, parts[0], VNone);
    var feature := IdPair(featureIds, Pair(parts[1], parts[2]));
    Ok(Prepared(Pair(toolId, feature.0),
                map["tool_id" := toolId, "feature_id" := feature.0, "parameter_value_list_id" := feature.1, "required" := VBool(false)],
                AsCached, parts[3..], "tool feature '" + TupleRepr(parts[..3]) + "'", None))
  }

  function ToolFeaturesPlanner(toolIds: map<Val, Val>, featureIds: map<Val, (Val, Val)>, tools: map<Val, Item>, features: map<Val, Item>): Keyed
  {
    Keyed("tool_feature", row => ToolFeatureRow(toolIds, featureIds, row), ["required"], map[],
          (item, current) => CheckToolFeature(item, current, tools, features))
  }

  // ---------------------------------------------------------------------------
  // Parameter definitions

  /**
   * The optional values of a definition row, as stored: the default value
   * becomes its database value and type, the value list name its id (None
   * when unknown), the description stays.
   */
  function DefinitionOptionals(optionals: seq<Val>, listIds: map<Val, Val>, unparse: Val -> (Val, Val)): (r: seq<Val>)
    ensures optionals == [] ==> r == []
    ensures optionals != [] ==> |r| >= 2 && r[0] == unparse(optionals[0]).0 && r[1] == unparse(optionals[0]).1
    ensures |optionals| >= 2 ==> |r| >= 3 && r[2] == GetVal(listIds, optionals[1], VNone)
    ensures |optionals| >= 3 ==> |r| == 4 && r[3] == optionals[2]
    ensures |r| == if |optionals| == 0 then 0 else if |optionals| <= 3 then |optionals| + 1 else 4
  {
    (if |optionals| >= 1 then [unparse(optionals[0]).0, unparse(optionals[0]).1] else [])
    + (if |optionals| >= 2 then [GetVal(listIds, optionals[1], VNone)] else [])
    + (if |optionals| >= 3 then [optionals[2]] else [])
  }

  /**
   * A definition row: class name, parameter name, optional default value,
   * value list name and description; the key is (class id, name).
   */
  function DefinitionRow(classField: string, classIds: map<Val, Val>, listIds: map<Val, Val>, unparse: Val -> (Val, Val), row: Val): (r: Result<Prepared>)
    ensures r.Ok? ==> (&& r.value.Prepared? && Iterate(row).Ok? && |Iterate(row).value| >= 2
                       && (var parts := Iterate(row).value;
                           var classId := GetVal(classIds, parts[0], VNone);
                           && r.value.key == Pair(classId, parts[1])
                           && r.value.optionals == DefinitionOptionals(parts[2..], listIds, unparse)))
  {
    var parts :- UnpackAtLeast(row, 2);
    var className, name := parts[0], parts[1];
    var classId := GetVal(classIds, className, VNone);
    var initial := map["name" := name, "entity_class_id" := classId, classField := classId, "default_value" := VNone,
                       "default_type" := VNone, "parameter_value_list_id" := VNone, "description" := VNone];
    Ok(Prepared(Pair(classId, name), initial, AsCached, DefinitionOptionals(parts[2..], listIds, unparse),
                "parameter '" + Str(name) + "' with class '" + Str(className) + "'", None))
  }

  /** The definition planners; classField is object_class_id or relationship_class_id. */
  function DefinitionsPlanner(classField: string, classIds: map<Val, Val>, listIds: map<Val, Val>, unparse: Val -> (Val, Val),
                              lists: map<Val, Val>, listValues: map<Val, Val>, codec: Codec): Keyed
  {
    Keyed("parameter definition", row => DefinitionRow(classField, classIds, listIds, unparse, row),
          ["default_value", "default_type", "parameter_value_list_id", "description"], map[],
          (item, current) => CheckParameterDefinition(item, current, classIds.Values, lists, listValues, codec))
  }

  /** A definition row with a default value stores that value's database value and type. */
  lemma DefinitionDefault(classField: string, classIds: map<Val, Val>, listIds: map<Val, Val>, unparse: Val -> (Val, Val),
                          className: Val, name: Val, default: Val)
    ensures (var p := DefinitionRow(classField, classIds, listIds, unparse, VTuple([className, name, default]));
             && p.Ok? && p.value.Prepared?
             && Zip(["default_value", "default_type", "parameter_value_list_id", "description"], p.value.optionals)
                == map["default_value" := unparse(default).0, "default_type" := unparse(default).1])
  {
    var p := DefinitionRow(classField, classIds, listIds, unparse, VTuple([className, name, default]));
    assert p.value.optionals == [unparse(default).0, unparse(default).1];
  }

  // ---------------------------------------------------------------------------
  // Relationships and their names

  /** The text of an object name in a relationship name: None is written "None". */
  function NameTexts(names: seq<Val>): (r: Result<seq<string>>)
    ensures r.Ok? <==> forall i :: 0 <= i < |names| ==> names[i].VStr? || names[i].VNone?
    ensures r.Ok? ==> |r.value| == |names| && forall i :: 0 <= i < |names| ==>
      r.value[i] == (if names[i].VNone? then "None" else names[i].s)
  {
    if names == [] then Ok([])
    else
      var first :- match names[0]
        case VNone => Ok("None")
        case VStr(s) => Ok(s)
        case _ => Err(TypeError("sequence item: expected str instance"));
      var rest :- NameTexts(names[1..]);
      Ok([first] + rest)
  }

  /** The name a new relationship is first offered: "<class>_" and the object names joined with "__". */
  function BaseName(className: Val, objectNames: seq<Val>): (r: Result<string>)
    ensures r.Ok? <==> NameTexts(objectNames).Ok?
    ensures r.Ok? ==> r.value == Str(className) + "_" + Join(NameTexts(objectNames).value, "__")
  {
    var texts :- NameTexts(objectNames);
    Ok(Str(className) + "_" + Join(texts, "__"))
  }

  /** A key of the (class id, name) dict. */
  function NameKey(classId: Val, name: string): Val { Pair(classId, VStr(name)) }

  /**
   * The first of the suffixed names base + hex(k), k from `from` up to
   * `bound`, that is free in the class.
   */
  function FirstFree(classId: Val, base: string, taken: set<Val>, hex: nat -> string, from: nat, bound: nat): (r: Option<nat>)
    ensures r.Some? ==> from <= r.value <= bound && NameKey(classId, base + hex(r.value)) !in taken
    ensures r.Some? ==> forall i :: from <= i < r.value ==> NameKey(classId, base + hex(i)) in taken
    ensures r.None? ==> forall i :: from <= i <= bound ==> NameKey(classId, base + hex(i)) in taken
    decreases bound + 1 - from
  {
    if from > bound then None
    else if NameKey(classId, base + hex(from)) !in taken then Some(from)
    else FirstFree(classId, base, taken, hex, from + 1, bound)
  }

  /**
   * _make_unique_relationship_name: the base name when it is free in the
   * class, else the base name followed by the first free of the uuid hex
   * strings (hex(0), hex(1), ... are the uuid4().hex values drawn in turn).
   */
  function UniqueName(classId: Val, base: string, taken: set<Val>, hex: nat -> string): string
  {
    if NameKey(classId, base) !in taken then base
    else
      match FirstFree(classId, base, taken, hex, 0, |taken|)
      case Some(k) => base + hex(k)
      case None => base + hex(|taken|)
  }

  /** The suffixed names base + hex(i) for i below k, as keys. */
  function Suffixed(classId: Val, base: string, hex: nat -> string, k: nat): set<Val>
  {
    if k == 0 then {} else Suffixed(classId, base, hex, k - 1) + {NameKey(classId, base + hex(k - 1))}
  }

  lemma {:induction false} SuffixedMembers(classId: Val, base: string, hex: nat -> string, k: nat, x: Val)
    requires x in Suffixed(classId, base, hex, k)
    ensures exists i :: 0 <= i < k && x == NameKey(classId, base + hex(i))
  {
    if x != NameKey(classId, base + hex(k - 1)) {
      SuffixedMembers(classId, base, hex, k - 1, x);
    }
  }

  /** Distinct uuids give k distinct suffixed names. */
  lemma {:induction false} SuffixedSize(classId: Val, base: string, hex: nat -> string, k: nat)
    requires forall i, j :: 0 <= i < j ==> hex(i) != hex(j)
    ensures |Suffixed(classId, base, hex, k)| == k
  {
    if k > 0 {
      SuffixedSize(classId, base, hex, k - 1);
      var last := NameKey(classId, base + hex(k - 1));
      LaterNotSuffixed(classId, base, hex, k - 1, k - 1);
    }
  }

  /** A name suffixed with a later uuid is not among the earlier ones. */
  lemma {:induction false} LaterNotSuffixed(classId: Val, base: string, hex: nat -> string, k: nat, j: nat)
    requires forall i, j :: 0 <= i < j ==> hex(i) != hex(j)
    requires k <= j
    ensures NameKey(classId, base + hex(j)) !in Suffixed(classId, base, hex, k)
  {
    if k > 0 {
      LaterNotSuffixed(classId, base, hex, k - 1, j);
      assert hex(j) == (base + hex(j))[|base|..];
      assert hex(k - 1) == (base + hex(k - 1))[|base|..];
    }
  }

  /** While all of the first k suffixed names are taken, k is at most the number of names taken. */
  lemma AllTakenBound(classId: Val, base: string, taken: set<Val>, hex: nat -> string, k: nat)
    requires forall i, j :: 0 <= i < j ==> hex(i) != hex(j)
    requires forall i :: 0 <= i < k ==> NameKey(classId, base + hex(i)) in taken
    ensures k <= |taken|
  {
    SuffixedSize(classId, base, hex, k);
    forall x | x in Suffixed(classId, base, hex, k) ensures x in taken {
      SuffixedMembers(classId, base, hex, k, x);
    }
    assert Suffixed(classId, base, hex, k) <= taken;
    SubsetSize(Suffixed(classId, base, hex, k), taken);
  }

  lemma SubsetSize<T>(a: set<T>, b: set<T>)
    requires a <= b
    ensures |a| <= |b|
  {
    assert b == a + (b - a);
  }

  /** With distinct uuids, the name chosen is free in its class. */
  lemma UniqueNameFree(classId: Val, base: string, taken: set<Val>, hex: nat -> string)
    requires forall i, j :: 0 <= i < j ==> hex(i) != hex(j)
    ensures NameKey(classId, UniqueName(classId, base, taken, hex)) !in taken
  {
    if NameKey(classId, base) in taken && FirstFree(classId, base, taken, hex, 0, |taken|).None? {
      AllTakenBound(classId, base, taken, hex, |taken| + 1);
    }
  }

  /** _make_unique_relationship_name, drawing uuids until the name is free. */
  method MakeUniqueRelationshipName(classId: Val, className: Val, objectNames: seq<Val>, taken: set<Val>, hex: nat -> string)
    returns (r: Result<string>)
    requires forall i, j :: 0 <= i < j ==> hex(i) != hex(j)
    ensures r.Ok? <==> BaseName(className, objectNames).Ok?
    ensures r.Ok? ==> r.value == UniqueName(classId, BaseName(className, objectNames).value, taken, hex)
    ensures r.Ok? ==> NameKey(classId, r.value) !in taken
  {
    var base :- BaseName(className, objectNames);
    var name := base;
    if NameKey(classId, name) in taken {
      var k := 0;
      name := base + hex(0);
      while NameKey(classId, name) in taken
        invariant k <= |taken| && name == base + hex(k)
        invariant forall i :: 0 <= i < k ==> NameKey(classId, base + hex(i)) in taken
        decreases |taken| - k
      {
        AllTakenBound(classId, base, taken, hex, k + 1);
        k := k + 1;
        name := base + hex(k);
      }
      FirstFreeFrom(classId, base, taken, hex, 0, k, |taken|);
    }
    r := Ok(name);
  }

  /** The first free suffix is the one found by counting up from 0. */
  lemma {:induction false} FirstFreeFrom(classId: Val, base: string, taken: set<Val>, hex: nat -> string, from: nat, k: nat, bound: nat)
    requires from <= k <= bound
    requires forall i :: from <= i < k ==> NameKey(classId, base + hex(i)) in taken
    requires NameKey(classId, base + hex(k)) !in taken
    ensures FirstFree(classId, base, taken, hex, from, bound) == Some(k)
    decreases k - from
  {
    if from < k {
      FirstFreeFrom(classId, base, taken, hex, from + 1, k, bound);
    }
  }

  /** The name of a new relationship between named objects is the base name when that is free. */
  lemma RelationshipNameWhenFree(classId: Val, className: Val, objectNames: seq<Val>, taken: set<Val>, hex: nat -> string)
    requires forall i :: 0 <= i < |objectNames| ==> objectNames[i].VStr? || objectNames[i].VNone?
    ensures BaseName(className, objectNames).Ok?
    ensures (var base := BaseName(className, objectNames).value;
             NameKey(classId, base) !in taken ==> UniqueName(classId, base, taken, hex) == Str(className) + "_" + Join(NameTexts(objectNames).value, "__"))
  {
  }

  /** What the relationship planner reads besides the rows. */
  datatype RelationshipContext = RelationshipContext(
    classIds: map<Val, Val>,              // relationship class name -> id
    classLists: map<Val, seq<Val>>,       // relationship class id -> its object class ids
    objectIds: map<Val, Val>,             // (object name, class id) -> object id
    byObjects: map<Val, int>,             // (class id, object id tuple) -> relationship id
    byName: KeyMap,                       // (class id, name) -> relationship id
    relationshipClasses: map<Val, Item>,
    objects: map<Val, Item>,
    entityType: Val,
    hex: nat -> string)

  /** The object ids of a row: each name looked up in the class at its position, as many as both have. */
  function ObjectIdsOf(objectIds: map<Val, Val>, names: seq<Val>, classIds: seq<Val>): (r: seq<Val>)
    ensures |r| == if |names| < |classIds| then |names| else |classIds|
    ensures forall i :: 0 <= i < |r| ==> r[i] == GetVal(objectIds, Pair(names[i], classIds[i]), VNone)
  {
    var n := if |names| < |classIds| then |names| else |classIds|;
    seq(n, i requires 0 <= i < n => GetVal(objectIds, Pair(names[i], classIds[i]), VNone))
  }

  /**
   * A relationship row: class name, object names, optional description; the
   * key is (class id, object ids), and a new relationship gets a unique name.
   */
  function RelationshipRow(c: RelationshipContext, row: Val): (r: Result<Prepared>)
    ensures r.Ok? ==> (&& r.value.Prepared? && Iterate(row).Ok? && |Iterate(row).value| >= 2
                       && Iterate(Iterate(row).value[1]).Ok?
                       && (var parts := Iterate(row).value;
                           var classId := GetVal(c.classIds, parts[0], VNone);
                           var classList := if classId in c.classLists then c.classLists[classId] else [];
                           var objectIds := ObjectIdsOf(c.objectIds, Iterate(parts[1]).value, classList);
                           && r.value.key == Pair(classId, VTuple(objectIds))
                           && (r.value.key !in c.byObjects ==>
                                 && BaseName(parts[0], Iterate(parts[1]).value).Ok?
                                 && "name" in r.value.initial && r.value.initial["name"]
                                    == VStr(UniqueName(classId, BaseName(parts[0], Iterate(parts[1]).value).value, c.byName.Keys, c.hex)))))
  {
    var parts :- UnpackAtLeast(row, 2);
    var className := parts[0];
    var names :- Iterate(parts[1]);
    var classId := GetVal(c.classIds, className, VNone);
    var classList := if classId in c.classLists then c.classLists[classId] else [];
    var objectIds := ObjectIdsOf(c.objectIds, names, classList);
    var key := Pair(classId, VTuple(objectIds));
    var initial :-
      if key in c.byObjects then Ok(map[])
      else
        var base :- BaseName(className, names);
        Ok(map["name" := VStr(UniqueName(classId, base, c.byName.Keys, c.hex)), "class_id" := classId,
               "object_id_list" := VList(objectIds), "object_class_id_list" := VList(classList), "type_id" := c.entityType]);
    Ok(Prepared(key, initial, AsCached, parts[2..],
                "relationship with objects " + TupleRepr(names) + " into '" + Str(className) + "'", None))
  }

  /**
   * The (class id, name) dict the check of an item sees: an existing
   * relationship's own entry is left out.
   */
  function NamesBut(byName: KeyMap, item: Item): (r: KeyMap)
    ensures "id" !in item ==> r == byName
    ensures "id" in item ==> Pair(Get(item, "class_id"), Get(item, "name")) !in r
  {
    if "id" in item then map k | k in byName && k != Pair(Get(item, "class_id"), Get(item, "name")) :: byName[k] else byName
  }

  function RelationshipsPlanner(c: RelationshipContext): Keyed
  {
    Keyed("relationship", row => RelationshipRow(c, row), ["description"], map[],
          (item, current) => CheckRelationship(item, NamesBut(c.byName, item), current, c.relationshipClasses, c.objects, c.entityType))
  }

  // ---------------------------------------------------------------------------
  // Parameter values

  /**
   * The alternative of a value row: the one named, or, without a name, the
   * import alternative (id and name); None when the name is unknown.
   */
  function ValueAlternative(optionals: seq<Val>, alternatives: map<Val, Val>, importAlternative: (Val, Val)): (r: Option<(Val, Val)>)
    ensures optionals == [] ==> r == Some(importAlternative)
    ensures optionals != [] ==> (r.Some? <==> Truthy(GetVal(alternatives, optionals[0], VNone)))
    ensures optionals != [] && r.Some? ==> r.value == (alternatives[optionals[0]], optionals[0])
  {
    if optionals == [] then Some(importAlternative)
    else
      var id := GetVal(alternatives, optionals[0], VNone);
      if Truthy(id) then Some((id, optionals[0])) else None
  }

  /** What the value planners read besides the rows. */
  datatype ValueContext = ValueContext(
    classIds: map<Val, Val>,                       // class name -> id
    parameterIds: map<Val, Val>,                   // the (name, class) or (class, name) pair -> definition id
    alternatives: map<Val, Val>,                   // alternative name -> id
    importAlternative: (Val, Val),                 // get_import_alternative: id and name
    unparse: Val -> (Val, Val),                    // unparse_value: value to database value and type
    fixConflict: ((Val, Val), (Val, Val)) -> (Val, Val),  // fix_conflict with the on_conflict mode
    definitions: map<Val, Item>,
    entities: map<Val, Item>,
    lists: map<Val, Val>,
    listValues: map<Val, Val>,
    codec: Codec)

  /** The entity fields of a value item: object_class_id/object_id or relationship_class_id/relationship_id. */
  datatype EntityFields = EntityFields(classField: string, entityField: string)

  /**
   * A value row once its ids are found: the key is (entity, definition,
   * alternative); an existing value keeps what fix_conflict makes of the new
   * and the stored value.
   */
  function ValuePrepared(c: ValueContext, f: EntityFields, classId: Val, entityId: Val, parameterId: Val, alternative: (Val, Val), value: Val, subject: string): (r: Prepared)
    ensures r.Prepared? && r.key == Triple(entityId, parameterId, alternative.0) && r.optionals == []
    ensures "value" in r.initial && r.initial["value"] == c.unparse(value).0
    ensures "type" in r.initial && r.initial["type"] == c.unparse(value).1
    ensures forall cached :: r.adopt(cached) == r.initial["value" := c.fixConflict(c.unparse(value), (Get(cached, "value"), Get(cached, "type"))).0]
                                                         ["type" := c.fixConflict(c.unparse(value), (Get(cached, "value"), Get(cached, "type"))).1]
    ensures r.duplicate.Some?
  {
    var written := c.unparse(value);
    var initial := map["parameter_definition_id" := parameterId, "entity_class_id" := classId, "entity_id" := entityId,
                       f.classField := classId, f.entityField := entityId, "value" := written.0, "type" := written.1,
                       "alternative_id" := alternative.0];
    var adopt := (cached: Item) =>
      var fixed := c.fixConflict(written, (Get(cached, "value"), Get(cached, "type")));
      initial["value" := fixed.0]["type" := fixed.1];
    Prepared(Triple(entityId, parameterId, alternative.0), initial, adopt, [], "parameter value for " + subject,
             Some("Could not import parameter value for " + subject + ", alternative " + Str(alternative.1)
                  + ": Duplicate parameter value, only first value will be considered."))
  }

  /** The log entry of a value row naming an unknown alternative. */
  function UnknownAlternative(subject: string, alternative: string): LogItem
  {
    LogItem("Could not import parameter value for " + subject + ": alternative " + alternative + " does not exist.", "parameter value")
  }

  /** How an object value row names its value: object, class and parameter. */
  function ObjectValueSubject(parts: seq<Val>): string
    requires |parts| >= 3
  {
    "'" + Str(parts[1]) + "', class '" + Str(parts[0]) + "', parameter '" + Str(parts[2]) + "'"
  }

  /** How a relationship value row names its value: object names, class and parameter. */
  function RelationshipValueSubject(parts: seq<Val>): string
    requires |parts| >= 3
  {
    "'" + SeqText(parts[1]) + "', class '" + Str(parts[0]) + "', parameter '" + Str(parts[2]) + "'"
  }

  /**
   * An object value row: class, object and parameter names, the value and
   * an optional alternative name; an unknown alternative is logged.
   */
  function ObjectValueRow(c: ValueContext, objectIds: map<Val, Val>, row: Val): (r: Result<Prepared>)
    ensures r.Ok? <==> Iterate(row).Ok? && |Iterate(row).value| >= 4
    ensures r.Ok? && r.value.Refused? ==>
      (var parts := Iterate(row).value;
       && |parts| > 4 && !Truthy(GetVal(c.alternatives, parts[4], VNone))
       && r.value.entry == UnknownAlternative(ObjectValueSubject(parts), "'" + Str(parts[4]) + "'"))
    ensures r.Ok? && r.value.Prepared? ==>
      (var parts := Iterate(row).value;
       var classId := GetVal(c.classIds, parts[0], VNone);
       var alternative := ValueAlternative(parts[4..], c.alternatives, c.importAlternative);
       && alternative.Some?
       && r.value.key == Triple(GetVal(objectIds, Pair(parts[1], classId), VNone),
                                GetVal(c.parameterIds, Pair(parts[2], classId), VNone), alternative.value.0))
  {
    var parts :- UnpackAtLeast(row, 4);
    var classId := GetVal(c.classIds, parts[0], VNone);
    var objectId := GetVal(objectIds, Pair(parts[1], classId), VNone);
    var parameterId := GetVal(c.parameterIds, Pair(parts[2], classId), VNone);
    match ValueAlternative(parts[4..], c.alternatives, c.importAlternative)
    case None => Ok(Prepared.Refused(UnknownAlternative(ObjectValueSubject(parts), "'" + Str(parts[4]) + "'")))
    case Some(alternative) =>
      Ok(ValuePrepared(c, EntityFields("object_class_id", "object_id"), classId, objectId, parameterId, alternative, parts[3],
                       ObjectValueSubject(parts)))
  }

  /** The object ids of a relationship value row: None for every object when the names do not match the class's dimensions. */
  function ValueObjectIds(objectIds: map<Val, Val>, names: seq<Val>, classList: seq<Val>): (r: seq<Val>)
    ensures |r| == |names|
    ensures |names| == |classList| ==> r == ObjectIdsOf(objectIds, names, classList)
    ensures |names| != |classList| ==> forall i :: 0 <= i < |r| ==> r[i] == VNone
  {
    if |names| == |classList| then ObjectIdsOf(objectIds, names, classList) else seq(|names|, _ => VNone)
  }

  /**
   * A relationship value row: class name, object names, parameter name, the
   * value and an optional alternative name.
   */
  function RelationshipValueRow(c: ValueContext, classLists: map<Val, seq<Val>>, objectIds: map<Val, Val>, relationshipIds: map<Val, Val>, row: Val): (r: Result<Prepared>)
    ensures r.Ok? <==> Iterate(row).Ok? && |Iterate(row).value| >= 4 && Iterate(Iterate(row).value[1]).Ok?
    ensures r.Ok? && r.value.Refused? ==>
      (var parts := Iterate(row).value;
       && |parts| > 4 && !Truthy(GetVal(c.alternatives, parts[4], VNone))
       && r.value.entry == UnknownAlternative(RelationshipValueSubject(parts), Str(parts[4])))
    ensures r.Ok? && r.value.Prepared? ==>
      (var parts := Iterate(row).value;
       var classId := GetVal(c.classIds, parts[0], VNone);
       var classList := if classId in classLists then classLists[classId] else [];
       var ids := ValueObjectIds(objectIds, Iterate(parts[1]).value, classList);
       var alternative := ValueAlternative(parts[4..], c.alternatives, c.importAlternative);
       && alternative.Some?
       && r.value.key == Triple(GetVal(relationshipIds, Pair(classId, VTuple(ids)), VNone),
                                GetVal(c.parameterIds, Pair(classId, parts[2]), VNone), alternative.value.0))
  {
    var parts :- UnpackAtLeast(row, 4);
    var classId := GetVal(c.classIds, parts[0], VNone);
    var classList := if classId in classLists then classLists[classId] else [];
    var names :- Iterate(parts[1]);
    var relationshipId := GetVal(relationshipIds, Pair(classId, VTuple(ValueObjectIds(objectIds, names, classList))), VNone);
    var parameterId := GetVal(c.parameterIds, Pair(classId, parts[2]), VNone);
    match ValueAlternative(parts[4..], c.alternatives, c.importAlternative)
    case None => Ok(Prepared.Refused(UnknownAlternative(RelationshipValueSubject(parts), Str(parts[4]))))
    case Some(alternative) =>
      Ok(ValuePrepared(c, EntityFields("relationship_class_id", "relationship_id"), classId, relationshipId, parameterId, alternative,
                       parts[3], RelationshipValueSubject(parts)))
  }

  /**
   * The value planners. The alternatives a check accepts are the known ones
   * and the import alternative.
   */
  function ValuesPlanner(c: ValueContext, prepare: Val -> Result<Prepared>): Keyed
  {
    Keyed("parameter value", prepare, [], map[],
          (item, current) => CheckParameterValue(item, current, c.definitions, c.entities, c.lists, c.listValues,
                                                 c.alternatives.Values + {c.importAlternative.0}, c.codec))
  }

  function ObjectValuesPlanner(c: ValueContext, objectIds: map<Val, Val>): Keyed
  {
    ValuesPlanner(c, row => ObjectValueRow(c, objectIds, row))
  }

  function RelationshipValuesPlanner(c: ValueContext, classLists: map<Val, seq<Val>>, objectIds: map<Val, Val>, relationshipIds: map<Val, Val>): Keyed
  {
    ValuesPlanner(c, row => RelationshipValueRow(c, classLists, objectIds, relationshipIds, row))
  }

  /**
   * A value row repeating the (entity, parameter, alternative) of a value
   * planned earlier in the batch keeps the first and logs the repeat.
   */
  lemma RepeatedValueLogged(c: ValueContext, objectIds: map<Val, Val>, ids: map<Val, int>, cache: map<int, Item>, data: seq<Val>, row: Val)
    requires KeyedPlan(ObjectValuesPlanner(c, objectIds), ids, cache, data).Ok?
    requires ObjectValueRow(c, objectIds, row).Ok? && ObjectValueRow(c, objectIds, row).value.Prepared?
    requires ObjectValueRow(c, objectIds, row).value.key in KeyedPlan(ObjectValuesPlanner(c, objectIds), ids, cache, data).value.Checked()
    ensures (var before := KeyedPlan(ObjectValuesPlanner(c, objectIds), ids, cache, data).value;
             var after := KeyedPlan(ObjectValuesPlanner(c, objectIds), ids, cache, data + [row]);
             && after.Ok? && after.value.plan.toAdd == before.plan.toAdd && after.value.plan.toUpdate == before.plan.toUpdate
             && after.value.plan.errors == before.plan.errors + [LogItem(ObjectValueRow(c, objectIds, row).value.duplicate.value, "parameter value")])
  {
    RepeatedKeyLogged(ObjectValuesPlanner(c, objectIds), ids, cache, data, row);
  }

  /** A value row naming an unknown alternative is logged and plans nothing. */
  lemma UnknownAlternativeLogged(c: ValueContext, objectIds: map<Val, Val>, ids: map<Val, int>, cache: map<int, Item>, data: seq<Val>, row: Val)
    requires KeyedPlan(ObjectValuesPlanner(c, objectIds), ids, cache, data).Ok?
    requires Iterate(row).Ok? && |Iterate(row).value| > 4 && !Truthy(GetVal(c.alternatives, Iterate(row).value[4], VNone))
    ensures (var before := KeyedPlan(ObjectValuesPlanner(c, objectIds), ids, cache, data).value;
             var after := KeyedPlan(ObjectValuesPlanner(c, objectIds), ids, cache, data + [row]);
             && after.Ok? && after.value.plan.toAdd == before.plan.toAdd && after.value.plan.toUpdate == before.plan.toUpdate
             && |after.value.plan.errors| == |before.plan.errors| + 1)
  {
    assert (data + [row])[..|data|] == data;
    assert ObjectValueRow(c, objectIds, row).Ok? && ObjectValueRow(c, objectIds, row).value.Refused?;
  }
}
