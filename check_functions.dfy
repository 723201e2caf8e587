// The integrity validators of spinedb_api/check_functions.py. Each check
// looks an item up against dicts of existing keys and either passes or
// raises SpineIntegrityError, reporting the id of a clashing item where
// there is one. The validators of definitions and values also replace a
// value by a reference into its value list, which the model returns as the
// updated item.

module CheckFunctions {
  import opened Errors
  import opened Text
  import opened Items

  /**
   * The value decoding the validators call: from_database(value, type) and
   * dump_db_value. Neither is part of this model; they are parameters.
   */
  datatype Codec = Codec(decode: (Val, Val) -> Result<Val>, dump: Val -> string)

  /** The check failed with a SpineIntegrityError that names the holder of a clashing key. */
  predicate DuplicateOf(r: Result<Item>, id: Option<int>)
  {
    r.Err? && r.error.SpineIntegrityError? && r.error.id == id
  }

  function Quoted(v: Val): string { "'" + Str(v) + "'" }

  // ---- checks by name ------------------------------------------------------------

  /** The shape of the alternative, scenario, value list and tool checks: a name that is not taken. */
  function CheckName(item: Item, current: KeyMap, missing: string, kind: string): (r: Result<Item>)
    ensures r.Ok? <==> "name" in item && item["name"] !in current
    ensures r.Ok? ==> r.value == item
    ensures "name" !in item ==> r == Err(Integrity(missing))
    ensures "name" in item && item["name"] in current ==> r.error.SpineIntegrityError? && r.error.id == current[item["name"]]
  {
    if "name" !in item then Err(Integrity(missing))
    else if item["name"] in current then
      Err(SpineIntegrityError("There can't be more than one " + kind + " called " + Quoted(item["name"]) + ".", current[item["name"]]))
    else Ok(item)
  }

  function CheckAlternative(item: Item, current: KeyMap): Result<Item>
  {
    CheckName(item, current, "Missing alternative name.", "alternative")
  }

  function CheckScenario(item: Item, current: KeyMap): Result<Item>
  {
    CheckName(item, current, "Missing scenario name.", "scenario")
  }

  function CheckParameterValueList(item: Item, current: KeyMap): Result<Item>
  {
    CheckName(item, current, "Missing parameter value list name.", "parameter value_list")
  }

  function CheckTool(item: Item, current: KeyMap): Result<Item>
  {
    CheckName(item, current, "Missing tool name.", "tool")
  }

  // ---- scenario alternatives -------------------------------------------------------

  /**
   * check_scenario_alternative. The duplicate lookups use dict.get and an
   * "is not None" test, so a key held without an id does not count as taken.
   */
  function CheckScenarioAlternative(item: Item, byAlternative: KeyMap, byRank: KeyMap, scenarioNames: map<Val, Val>, alternativeNames: map<Val, Val>): (r: Result<Item>)
    ensures r.Ok? <==> (&& "scenario_id" in item && "alternative_id" in item && "rank" in item
                        && GetVal(scenarioNames, item["scenario_id"], VNone) != VNone
                        && GetVal(alternativeNames, item["alternative_id"], VNone) != VNone
                        && !TakenWithId(byAlternative, Pair(item["scenario_id"], item["alternative_id"]))
                        && !TakenWithId(byRank, Pair(item["scenario_id"], item["rank"])))
    ensures r.Ok? ==> r.value == item
    ensures (&& "scenario_id" in item && "alternative_id" in item && "rank" in item
             && GetVal(scenarioNames, item["scenario_id"], VNone) != VNone
             && GetVal(alternativeNames, item["alternative_id"], VNone) != VNone
             && TakenWithId(byAlternative, Pair(item["scenario_id"], item["alternative_id"]))) ==>
      DuplicateOf(r, byAlternative[Pair(item["scenario_id"], item["alternative_id"])])
    ensures (&& "scenario_id" in item && "alternative_id" in item && "rank" in item
             && GetVal(scenarioNames, item["scenario_id"], VNone) != VNone
             && GetVal(alternativeNames, item["alternative_id"], VNone) != VNone
             && !TakenWithId(byAlternative, Pair(item["scenario_id"], item["alternative_id"]))
             && TakenWithId(byRank, Pair(item["scenario_id"], item["rank"]))) ==>
      DuplicateOf(r, byRank[Pair(item["scenario_id"], item["rank"])])
  {
    if "scenario_id" !in item then Err(Integrity("Missing scenario identifier."))
    else if "alternative_id" !in item then Err(Integrity("Missing alternative identifier."))
    else if "rank" !in item then Err(Integrity("Missing scenario alternative rank."))
    else
      var scenario, alternative, rank := item["scenario_id"], item["alternative_id"], item["rank"];
      var scenarioName := GetVal(scenarioNames, scenario, VNone);
      var alternativeName := GetVal(alternativeNames, alternative, VNone);
      if scenarioName == VNone then Err(Integrity("Scenario with id " + Str(scenario) + " does not have a name."))
      else if alternativeName == VNone then Err(Integrity("Alternative with id " + Str(alternative) + " does not have a name."))
      else if TakenWithId(byAlternative, Pair(scenario, alternative)) then
        Err(SpineIntegrityError("Alternative " + Str(alternativeName) + " already exists in scenario " + Str(scenarioName) + ".",
                                byAlternative[Pair(scenario, alternative)]))
      else if TakenWithId(byRank, Pair(scenario, rank)) then
        Err(SpineIntegrityError("Rank " + Str(rank) + " already exists in scenario " + Str(scenarioName)
                                + ". Cannot give the same rank for alternative " + Str(alternativeName) + ".",
                                byRank[Pair(scenario, rank)]))
      else Ok(item)
  }

  // ---- entity classes and entities ------------------------------------------------------

  /**
   * The id reported when an item carries the wrong type_id: current_items is
   * subscripted with the name, which raises KeyError when it is not there.
   */
  function WrongType(msg: string, current: KeyMap, key: Val): (r: Result<Item>)
    ensures r.Err?
    ensures key in current ==> r == Err(SpineIntegrityError(msg, current[key]))
    ensures key !in current ==> r.error.KeyError?
  {
    if key in current then Err(SpineIntegrityError(msg, current[key])) else Err(KeyError(Str(key)))
  }

  /** check_object_class */
  function CheckObjectClass(item: Item, current: KeyMap, objectClassType: Val): (r: Result<Item>)
    ensures r.Ok? <==> (&& "name" in item && Truthy(item["name"])
                        && ("type_id" in item ==> item["type_id"] == objectClassType)
                        && item["name"] !in current)
    ensures r.Ok? ==> r.value == item
  {
    if "name" !in item then
      Err(Integrity("Python KeyError: There is no dictionary key for the object class name. Probably a bug, please report."))
    else
      var name := item["name"];
      if !Truthy(name) then Err(Integrity("Object class name is an empty string and therefore not valid"))
      else if "type_id" in item && item["type_id"] != objectClassType then
        WrongType("Object class " + Quoted(name) + " does not have a type_id of an object class.", current, name)
      else if name in current then
        Err(SpineIntegrityError("There can't be more than one object class called " + Quoted(name) + ".", current[name]))
      else Ok(item)
  }

  /** check_object: a non-empty name, a known class and a (class, name) pair not yet taken. */
  function CheckObject(item: Item, current: KeyMap, objectClassIds: set<Val>, objectEntityType: Val): (r: Result<Item>)
    ensures r.Ok? <==> (&& "name" in item && Truthy(item["name"])
                        && ("type_id" in item ==> item["type_id"] == objectEntityType)
                        && "class_id" in item && item["class_id"] in objectClassIds
                        && Pair(item["class_id"], item["name"]) !in current)
    ensures r.Ok? ==> r.value == item
    ensures (&& "name" in item && Truthy(item["name"]) && !("type_id" in item && item["type_id"] != objectEntityType)
             && "class_id" in item && item["class_id"] in objectClassIds
             && Pair(item["class_id"], item["name"]) in current) ==>
      DuplicateOf(r, current[Pair(item["class_id"], item["name"])])
  {
    if "name" !in item then
      Err(Integrity("Python KeyError: There is no dictionary key for the object name. Probably a bug, please report."))
    else
      var name := item["name"];
      if !Truthy(name) then Err(Integrity("Object name is an empty string and therefore not valid"))
      else if "type_id" in item && item["type_id"] != objectEntityType then
        WrongType("Object " + Quoted(name) + " does not have entity type of and object", current, name)
      else if "class_id" !in item then Err(Integrity("Object " + Quoted(name) + " does not have an object class id."))
      else if item["class_id"] !in objectClassIds then Err(Integrity("Object class id for object " + Quoted(name) + " not found."))
      else if Pair(item["class_id"], name) in current then
        Err(SpineIntegrityError("There's already an object called " + Quoted(name) + " in the same object class.",
                                current[Pair(item["class_id"], name)]))
      else Ok(item)
  }

  /** any(id_ not in object_class_ids for id_ in ids) */
  predicate AllKnown(ids: seq<Val>, known: set<Val>)
  {
    forall i :: 0 <= i < |ids| ==> ids[i] in known
  }

  /** check_wide_relationship_class: a non-empty list of known object classes and a new name. */
  function CheckRelationshipClass(item: Item, current: KeyMap, objectClassIds: set<Val>, relationshipClassType: Val): (r: Result<Item>)
    ensures r.Ok? <==> (&& "name" in item && Truthy(item["name"])
                        && "object_class_id_list" in item && Truthy(item["object_class_id_list"])
                        && Iterate(item["object_class_id_list"]).Ok?
                        && AllKnown(Iterate(item["object_class_id_list"]).value, objectClassIds)
                        && ("type_id" in item ==> item["type_id"] == relationshipClassType)
                        && item["name"] !in current)
    ensures r.Ok? ==> r.value == item
  {
    if "name" !in item then
      Err(Integrity("Python KeyError: There is no dictionary key for the relationship class name. Probably a bug, please report."))
    else
      var name := item["name"];
      if !Truthy(name) then Err(Integrity("Name " + Quoted(name) + " is not valid"))
      else if "object_class_id_list" !in item then
        Err(Integrity("Python KeyError: There is no dictionary keys for the object class ids of relationship class "
                      + Quoted(name) + ". Probably a bug, please report."))
      else if !Truthy(item["object_class_id_list"]) then
        Err(Integrity("At least one object class is needed for the relationship class " + Quoted(name) + "."))
      else
        var ids :- Iterate(item["object_class_id_list"]);
        if !AllKnown(ids, objectClassIds) then
          Err(Integrity("At least one of the object class ids of the relationship class " + Quoted(name) + " is not in the database."))
        else if "type_id" in item && item["type_id"] != relationshipClassType then
          WrongType("Relationship class " + Quoted(name) + " must have correct type_id .", current, name)
        else if name in current then
          Err(SpineIntegrityError("There can't be more than one relationship class with the name " + Quoted(name) + ".", current[name]))
        else Ok(item)
  }


  /** tuple(items[id][field] for id in ids); a missing id or field raises KeyError. */
  function Column(ids: seq<Val>, items: map<Val, Item>, field: string): (r: Result<seq<Val>>)
    ensures r.Ok? <==> forall i :: 0 <= i < |ids| ==> ids[i] in items && field in items[ids[i]]
    ensures r.Ok? ==> |r.value| == |ids| && forall i :: 0 <= i < |ids| ==> r.value[i] == items[ids[i]][field]
    ensures r.Err? ==> r.error.KeyError?
  {
    if ids == [] then Ok([])
    else if ids[0] !in items then Err(KeyError(Str(ids[0])))
    else
      var first :- Field(items[ids[0]], field);
      var rest :- Column(ids[1..], items, field);
      Ok([first] + rest)
  }

  /** The i-th object of the relationship is an object of the i-th object class of its class. */
  predicate ObjectsFitClasses(objectIds: seq<Val>, objects: map<Val, Item>, classList: Val)
  {
    && classList.VTuple? && |classList.elems| == |objectIds|
    && forall i :: 0 <= i < |objectIds| ==>
         objectIds[i] in objects && "class_id" in objects[objectIds[i]]
         && objects[objectIds[i]]["class_id"] == classList.elems[i]
  }

  /**
   * check_wide_relationship: a new (class, name), objects whose classes are
   * the relationship class's object classes in order, and a new (class,
   * object tuple).
   */
  function CheckRelationship(item: Item, byName: KeyMap, byObjects: KeyMap, relationshipClasses: map<Val, Item>, objects: map<Val, Item>, relationshipEntityType: Val): (r: Result<Item>)
    ensures r.Ok? ==> r.value == item
    ensures r.Ok? ==> (&& "name" in item && Truthy(item["name"]) && "class_id" in item
                       && ("type_id" in item ==> item["type_id"] == relationshipEntityType)
                       && Pair(item["class_id"], item["name"]) !in byName
                       && item["class_id"] in relationshipClasses
                       && "object_class_id_list" in relationshipClasses[item["class_id"]]
                       && "object_id_list" in item && Iterate(item["object_id_list"]).Ok?
                       && ObjectsFitClasses(Iterate(item["object_id_list"]).value, objects,
                                            relationshipClasses[item["class_id"]]["object_class_id_list"])
                       && Pair(item["class_id"], VTuple(Iterate(item["object_id_list"]).value)) !in byObjects)
    ensures (&& "name" in item && Truthy(item["name"]) && "class_id" in item
             && !("type_id" in item && item["type_id"] != relationshipEntityType)
             && Pair(item["class_id"], item["name"]) in byName) ==>
      DuplicateOf(r, byName[Pair(item["class_id"], item["name"])])
  {
    if "name" !in item then
      Err(Integrity("Python KeyError: There is no dictionary key for the relationship name. Probably a bug, please report."))
    else
      var name := item["name"];
      if !Truthy(name) then Err(Integrity("Relationship name is an empty string, which is not valid"))
      else if "class_id" !in item then
        Err(Integrity("Python KeyError: There is no dictionary key for the relationship class id of relationship "
                      + Quoted(name) + ". Probably a bug, please report"))
      else
        var classId := item["class_id"];
        if "type_id" in item && item["type_id"] != relationshipEntityType then
          WrongType("Relationship " + Quoted(name) + " does not have entity type of a relationship.", byName, Pair(classId, name))
        else if Pair(classId, name) in byName then
          Err(SpineIntegrityError("There's already a relationship called " + Quoted(name) + " in the same class.", byName[Pair(classId, name)]))
        else if classId !in relationshipClasses || "object_class_id_list" !in relationshipClasses[classId] then
          Err(Integrity("There is no object class id list for relationship " + Quoted(name)))
        else if "object_id_list" !in item then
          Err(Integrity("There is no object id list for relationship " + Quoted(name)))
        else
          var relationshipClass := relationshipClasses[classId];
          var objectIds :- Iterate(item["object_id_list"]);
          var given := Column(objectIds, objects, "class_id");
          if given.Err? then Err(Integrity("Some of the objects in relationship " + Quoted(name) + " are invalid."))
          else if VTuple(given.value) != relationshipClass["object_class_id_list"] then
            var names :- Column(objectIds, objects, "name");
            var className :- Field(relationshipClass, "name");
            Err(Integrity("Incorrect objects '[" + ReprItems(names) + "]' for relationship class " + Quoted(className) + "."))
          else if Pair(classId, VTuple(objectIds)) in byObjects then
            var names :- Column(objectIds, objects, "name");
            var className :- Field(relationshipClass, "name");
            Err(SpineIntegrityError("There's already a relationship between objects [" + ReprItems(names) + "] in class "
                                    + Str(className) + ".", byObjects[Pair(classId, VTuple(objectIds))]))
          else Ok(item)
  }

  /** `not ents.get(id)`: an entity is found when it is there and its dict is not empty. */
  predicate EntityFound(entities: map<Val, Item>, id: Val)
  {
    id in entities && entities[id] != map[]
  }

  /** check_entity_group: known entity and member of a known class, and a new (entity, member) pair. */
  function CheckEntityGroup(item: Item, current: KeyMap, entities: map<Val, map<Val, Item>>): (r: Result<Item>)
    ensures r.Ok? <==> (&& "entity_id" in item && "member_id" in item && "entity_class_id" in item
                        && item["entity_class_id"] in entities
                        && EntityFound(entities[item["entity_class_id"]], item["entity_id"])
                        && EntityFound(entities[item["entity_class_id"]], item["member_id"])
                        && Pair(item["entity_id"], item["member_id"]) !in current)
    ensures r.Ok? ==> r.value == item
    ensures (&& "entity_id" in item && "member_id" in item && "entity_class_id" in item
             && item["entity_class_id"] in entities
             && EntityFound(entities[item["entity_class_id"]], item["entity_id"])
             && EntityFound(entities[item["entity_class_id"]], item["member_id"])
             && "name" in entities[item["entity_class_id"]][item["entity_id"]]
             && "name" in entities[item["entity_class_id"]][item["member_id"]]
             && Pair(item["entity_id"], item["member_id"]) in current) ==>
      DuplicateOf(r, current[Pair(item["entity_id"], item["member_id"])])
  {
    if "entity_id" !in item then
      Err(Integrity("Python KeyError: There is no dictionary key for the entity id of entity group. Probably a bug, please report."))
    else if "member_id" !in item then
      Err(Integrity("Python KeyError: There is no dictionary key for the member id of an entity group. Probably a bug, please report."))
    else if "entity_class_id" !in item then
      Err(Integrity("Python KeyError: There is no dictionary key for the entity class id of entity group. Probably a bug, please report."))
    else if item["entity_class_id"] !in entities then Err(Integrity("Entity class not found for entity group."))
    else
      var ents := entities[item["entity_class_id"]];
      var entityId, memberId := item["entity_id"], item["member_id"];
      if !EntityFound(ents, entityId) then Err(Integrity("No entity id for the entity group."))
      else if !EntityFound(ents, memberId) then Err(Integrity("Entity group has no members."))
      else if Pair(entityId, memberId) in current then
        var memberName :- Field(ents[memberId], "name");
        var entityName :- Field(ents[entityId], "name");
        Err(SpineIntegrityError(Str(memberName) + " is already a member in " + Str(entityName) + ".", current[Pair(entityId, memberId)]))
      else Ok(item)
  }

  // ---- value-list references ---------------------------------------------------------

  /** Which pair of fields holds the value: a value's value and type, or a definition's default ones. */
  datatype ValueHolder = ParameterValueItem | ParameterDefinitionItem
  {
    function ValueKey(): string
    {
      match this
      case ParameterValueItem => "value"
      case ParameterDefinitionItem => "default_value"
    }

    function TypeKey(): string
    {
      match this
      case ParameterValueItem => "type"
      case ParameterDefinitionItem => "default_type"
    }
  }

  /** next(id for id in ids if list_values.get(id) == parsed): the position of the first match. */
  function FirstMatch(ids: seq<Val>, listValues: map<Val, Val>, parsed: Val): (r: Option<nat>)
    ensures r.Some? ==> (&& r.value < |ids| && GetVal(listValues, ids[r.value], VNone) == parsed
                         && forall j :: 0 <= j < r.value ==> GetVal(listValues, ids[j], VNone) != parsed)
    ensures r.None? ==> forall j :: 0 <= j < |ids| ==> GetVal(listValues, ids[j], VNone) != parsed
  {
    if ids == [] then None
    else if GetVal(listValues, ids[0], VNone) == parsed then Some(0)
    else
      match FirstMatch(ids[1..], listValues, parsed)
      case None => None
      case Some(k) => Some(k + 1)
  }

  /** The item after its value is replaced by a reference to the list value with the given id. */
  function Referenced(holder: ValueHolder, item: Item, id: Val): (r: Item)
    ensures r.Keys == item.Keys + {holder.ValueKey(), holder.TypeKey(), "list_value_id"}
    ensures r[holder.ValueKey()] == VBytes(Str(id)) && r[holder.TypeKey()] == VStr("list_value_ref") && r["list_value_id"] == id
    ensures forall k :: k in item && k !in {holder.ValueKey(), holder.TypeKey(), "list_value_id"} ==> r[k] == item[k]
  {
    item[holder.ValueKey() := VBytes(Str(id))][holder.TypeKey() := VStr("list_value_ref")]["list_value_id" := id]
  }

  /** The valid values of the error message: repr of each list value's dumped text, comma separated. */
  function ValidValues(ids: seq<Val>, listValues: map<Val, Val>, codec: Codec): string
  {
    if ids == [] then ""
    else
      var first := "'" + codec.dump(GetVal(listValues, ids[0], VNone)) + "'";
      if |ids| == 1 then first else first + ", " + ValidValues(ids[1..], listValues, codec)
  }

  /**
   * _replace_values_with_list_references: a value checked against a value
   * list must decode to one of the list's values, and is then replaced by a
   * reference to the first list value equal to it.
   */
  function ReplaceWithListReferences(holder: ValueHolder, item: Item, listId: Val, lists: map<Val, Val>, listValues: map<Val, Val>, codec: Codec): (r: Result<Item>)
    ensures listId == VNone ==> r == Ok(item)
    ensures listId != VNone && listId !in lists ==> r == Err(Integrity("Parameter value list not found."))
    ensures listId != VNone && listId in lists && lists[listId] == VNone ==> r == Err(Integrity("Parameter value list is empty!"))
    ensures r.Ok? && r.value != item ==>
      (&& listId in lists && Iterate(lists[listId]).Ok?
       && codec.decode(Get(item, holder.ValueKey()), Get(item, holder.TypeKey())).Ok?
       && var ids := Iterate(lists[listId]).value;
          var parsed := codec.decode(Get(item, holder.ValueKey()), Get(item, holder.TypeKey())).value;
          exists k :: (&& 0 <= k < |ids| && GetVal(listValues, ids[k], VNone) == parsed
                       && r.value == Referenced(holder, item, ids[k])))
    ensures (&& listId != VNone && listId in lists && lists[listId] != VNone && Iterate(lists[listId]).Ok?
             && codec.decode(Get(item, holder.ValueKey()), Get(item, holder.TypeKey())).Ok?
             && var parsed := codec.decode(Get(item, holder.ValueKey()), Get(item, holder.TypeKey())).value;
                parsed != VNone && forall id :: id in Iterate(lists[listId]).value ==> GetVal(listValues, id, VNone) != parsed) ==>
      r.Err? && r.error.SpineIntegrityError?
  {
    if listId == VNone then Ok(item)
    else if listId !in lists then Err(Integrity("Parameter value list not found."))
    else if lists[listId] == VNone then Err(Integrity("Parameter value list is empty!"))
    else
      var value, valueType := Get(item, holder.ValueKey()), Get(item, holder.TypeKey());
      var decoded := codec.decode(value, valueType);
      if decoded.Err? && decoded.error.ParameterValueFormatError? then
        Err(Integrity("Invalid " + holder.ValueKey() + " '" + Str(value) + "': " + decoded.error.msg))
      else
        var parsed :- decoded;
        if parsed == VNone then Ok(item)
        else
          var ids :- Iterate(lists[listId]);
          match FirstMatch(ids, listValues, parsed)
          case None =>
            Err(Integrity("Invalid " + holder.ValueKey() + " '" + Str(parsed) + "' - it should be one from the parameter value list: "
                          + ValidValues(ids, listValues, codec) + "."))
          case Some(k) => Ok(Referenced(holder, item, ids[k]))
  }

  // ---- parameters --------------------------------------------------------------------

  /** check_parameter_definition: a named definition of a known class, new within the class, its default checked against its list. */
  function CheckParameterDefinition(item: Item, current: KeyMap, entityClassIds: set<Val>, lists: map<Val, Val>, listValues: map<Val, Val>, codec: Codec): (r: Result<Item>)
    ensures r.Ok? ==> (&& Truthy(Get(item, "name")) && Truthy(Get(item, "entity_class_id"))
                       && Get(item, "entity_class_id") in entityClassIds
                       && Pair(Get(item, "entity_class_id"), Get(item, "name")) !in current)
    ensures r.Ok? ==> Ok(r.value) == ReplaceWithListReferences(ParameterDefinitionItem, item, Get(item, "parameter_value_list_id"), lists, listValues, codec)
    ensures (&& Truthy(Get(item, "name")) && Truthy(Get(item, "entity_class_id")) && Get(item, "entity_class_id") in entityClassIds
             && Pair(Get(item, "entity_class_id"), Get(item, "name")) in current) ==>
      DuplicateOf(r, current[Pair(Get(item, "entity_class_id"), Get(item, "name"))])
  {
    var name := Get(item, "name");
    var classId := Get(item, "entity_class_id");
    if !Truthy(name) then Err(Integrity("No name provided for a parameter definition."))
    else if !Truthy(classId) then Err(Integrity("Missing entity class id for parameter definition " + Quoted(name) + "."))
    else if classId !in entityClassIds then
      Err(Integrity("Entity class id for parameter definition " + Quoted(name)
                    + " not found in the entity class ids of the current database."))
    else if Pair(classId, name) in current then
      Err(SpineIntegrityError("There's already a parameter called " + Str(name) + " in entity class with id " + Str(classId) + ".",
                              current[Pair(classId, name)]))
    else ReplaceWithListReferences(ParameterDefinitionItem, item, Get(item, "parameter_value_list_id"), lists, listValues, codec)
  }

  /** The entity of a value exists and belongs to the definition's entity class. */
  predicate EntityFitsDefinition(entities: map<Val, Item>, entityId: Val, definition: Item)
  {
    && entityId in entities && "class_id" in entities[entityId] && "entity_class_id" in definition
    && entities[entityId]["class_id"] == definition["entity_class_id"]
  }

  /**
   * check_parameter_value: a known definition, alternative and entity, the
   * entity of the definition's class, a new (entity, definition, alternative)
   * and the value checked against the definition's list.
   */
  function CheckParameterValue(item: Item, current: KeyMap, definitions: map<Val, Item>, entities: map<Val, Item>, lists: map<Val, Val>, listValues: map<Val, Val>, alternatives: set<Val>, codec: Codec): (r: Result<Item>)
    ensures r.Ok? ==> (&& "parameter_definition_id" in item && item["parameter_definition_id"] in definitions
                       && Get(item, "alternative_id") in alternatives && Truthy(Get(item, "entity_id"))
                       && EntityFitsDefinition(entities, Get(item, "entity_id"), definitions[item["parameter_definition_id"]])
                       && Triple(Get(item, "entity_id"), item["parameter_definition_id"], Get(item, "alternative_id")) !in current
                       && "parameter_value_list_id" in definitions[item["parameter_definition_id"]]
                       && Ok(r.value) == ReplaceWithListReferences(ParameterValueItem, item,
                            definitions[item["parameter_definition_id"]]["parameter_value_list_id"], lists, listValues, codec))
    ensures (&& "parameter_definition_id" in item && item["parameter_definition_id"] in definitions
             && Get(item, "alternative_id") in alternatives && Truthy(Get(item, "entity_id"))
             && EntityFitsDefinition(entities, Get(item, "entity_id"), definitions[item["parameter_definition_id"]])
             && "name" in entities[Get(item, "entity_id")] && "name" in definitions[item["parameter_definition_id"]]
             && Triple(Get(item, "entity_id"), item["parameter_definition_id"], Get(item, "alternative_id")) in current) ==>
      DuplicateOf(r, current[Triple(Get(item, "entity_id"), item["parameter_definition_id"], Get(item, "alternative_id"))])
    ensures (&& "parameter_definition_id" in item && item["parameter_definition_id"] in definitions
             && Get(item, "alternative_id") in alternatives && Truthy(Get(item, "entity_id"))
             && Get(item, "entity_id") in entities && "class_id" in entities[Get(item, "entity_id")]
             && "entity_class_id" in definitions[item["parameter_definition_id"]]
             && !EntityFitsDefinition(entities, Get(item, "entity_id"), definitions[item["parameter_definition_id"]])) ==>
      r.Err?
  {
    if "parameter_definition_id" !in item then Err(Integrity("Missing parameter identifier."))
    else if item["parameter_definition_id"] !in definitions then Err(Integrity("Parameter not found."))
    else
      var definitionId := item["parameter_definition_id"];
      var definition := definitions[definitionId];
      var alternativeId := Get(item, "alternative_id");
      var entityId := Get(item, "entity_id");
      if alternativeId !in alternatives then Err(Integrity("Alternative not found."))
      else if !Truthy(entityId) then Err(Integrity("Missing object or relationship identifier."))
      else if entityId !in entities || "class_id" !in entities[entityId] then Err(Integrity("Entity not found"))
      else
        var definitionClass :- Field(definition, "entity_class_id");
        if entities[entityId]["class_id"] != definitionClass then
          var entityName :- Field(entities[entityId], "name");
          var parameterName :- Field(definition, "name");
          Err(Integrity("Incorrect entity " + Quoted(entityName) + " for parameter " + Quoted(parameterName) + "."))
        else if Triple(entityId, definitionId, alternativeId) in current then
          var entityName :- Field(entities[entityId], "name");
          var parameterName :- Field(definition, "name");
          Err(SpineIntegrityError("The value of parameter " + Quoted(parameterName) + " for entity " + Quoted(entityName)
                                  + " is already specified.", current[Triple(entityId, definitionId, alternativeId)]))
        else
          var listId :- Field(definition, "parameter_value_list_id");
          ReplaceWithListReferences(ParameterValueItem, item, listId, lists, listValues, codec)
  }

  // ---- list values -------------------------------------------------------------------

  /** "Missing keys: a, b." for the keys of a required set that the item lacks. */
  function MissingKeysError(item: Item, keys: seq<string>): (r: Option<Error>)
    ensures r.None? <==> forall k :: k in keys ==> k in item
  {
    var missing := MissingKeys(item, keys);
    if missing == [] then None else assert missing[0] in missing; Some(Integrity("Missing keys: " + Join(missing, ", ") + "."))
  }

  /** check_list_value: all four keys, a known list, and neither the (list, index) nor the (list, type, value) taken. */
  function CheckListValue(item: Item, listNames: map<Val, Val>, byIndex: KeyMap, byValue: KeyMap, codec: Codec): (r: Result<Item>)
    ensures r.Ok? <==> (&& "parameter_value_list_id" in item && "index" in item && "value" in item && "type" in item
                        && GetVal(listNames, item["parameter_value_list_id"], VNone) != VNone
                        && !TakenWithId(byIndex, Pair(item["parameter_value_list_id"], item["index"]))
                        && !TakenWithId(byValue, Triple(item["parameter_value_list_id"], item["type"], item["value"])))
    ensures r.Ok? ==> r.value == item
    ensures (&& "parameter_value_list_id" in item && "index" in item && "value" in item && "type" in item
             && GetVal(listNames, item["parameter_value_list_id"], VNone) != VNone
             && TakenWithId(byIndex, Pair(item["parameter_value_list_id"], item["index"]))) ==>
      DuplicateOf(r, byIndex[Pair(item["parameter_value_list_id"], item["index"])])
  {
    match MissingKeysError(item, ["parameter_value_list_id", "index", "value", "type"])
    case Some(e) => Err(e)
    case None =>
      var listId := item["parameter_value_list_id"];
      var listName := GetVal(listNames, listId, VNone);
      if listName == VNone then Err(Integrity("Unknown parameter value list identifier."))
      else
        var index, valueType, value := item["index"], item["type"], item["value"];
        if TakenWithId(byIndex, Pair(listId, index)) then
          Err(SpineIntegrityError(Quoted(listName) + " already has the index " + Quoted(index) + ".", byIndex[Pair(listId, index)]))
        else if TakenWithId(byValue, Triple(listId, valueType, value)) then
          var parsed :- codec.decode(value, valueType);
          Err(SpineIntegrityError(Quoted(listName) + " already has the value " + Quoted(parsed) + ".", byValue[Triple(listId, valueType, value)]))
        else Ok(item)
  }

  // ---- tools and features --------------------------------------------------------------

  /** check_feature: a definition that has the given value list and no feature yet. */
  function CheckFeature(item: Item, current: KeyMap, definitions: map<Val, Item>): (r: Result<Item>)
    ensures r.Ok? <==> (&& "parameter_definition_id" in item && "parameter_value_list_id" in item
                        && item["parameter_definition_id"] in definitions
                        && item["parameter_value_list_id"] != VNone
                        && "parameter_value_list_id" in definitions[item["parameter_definition_id"]]
                        && item["parameter_value_list_id"] == definitions[item["parameter_definition_id"]]["parameter_value_list_id"]
                        && item["parameter_definition_id"] !in current)
    ensures r.Ok? ==> r.value == item
  {
    if "parameter_definition_id" !in item then Err(Integrity("Missing parameter identifier."))
    else if "parameter_value_list_id" !in item then Err(Integrity("Missing parameter value list identifier."))
    else if item["parameter_definition_id"] !in definitions then Err(Integrity("Parameter not found."))
    else
      var definitionId, listId := item["parameter_definition_id"], item["parameter_value_list_id"];
      var definition := definitions[definitionId];
      if listId == VNone then
        var name :- Field(definition, "name");
        Err(Integrity("Parameter " + Quoted(name) + " doesn't have a value list."))
      else
        var definitionList :- Field(definition, "parameter_value_list_id");
        if listId != definitionList then Err(Integrity("Parameter definition and value list don't match."))
        else if definitionId in current then
          var name :- Field(definition, "name");
          Err(SpineIntegrityError("There's already a feature defined for parameter " + Quoted(name) + ".", current[definitionId]))
        else Ok(item)
  }

  /** check_tool_feature: a known tool and feature, not yet paired, with the feature's value list. */
  function CheckToolFeature(item: Item, current: KeyMap, tools: map<Val, Item>, features: map<Val, Item>): (r: Result<Item>)
    ensures r.Ok? <==> (&& "tool_id" in item && "feature_id" in item && "parameter_value_list_id" in item
                        && item["tool_id"] in tools && item["feature_id"] in features
                        && !TakenWithId(current, Pair(item["tool_id"], item["feature_id"]))
                        && "parameter_value_list_id" in features[item["feature_id"]]
                        && item["parameter_value_list_id"] == features[item["feature_id"]]["parameter_value_list_id"])
    ensures r.Ok? ==> r.value == item
  {
    if "tool_id" !in item then Err(Integrity("Missing tool identifier."))
    else if "feature_id" !in item then Err(Integrity("Missing feature identifier."))
    else if "parameter_value_list_id" !in item then Err(Integrity("Missing parameter value list identifier."))
    else if item["tool_id"] !in tools then Err(Integrity("Tool not found."))
    else if item["feature_id"] !in features then Err(Integrity("Feature not found."))
    else
      var tool, feature := tools[item["tool_id"]], features[item["feature_id"]];
      if TakenWithId(current, Pair(item["tool_id"], item["feature_id"])) then
        var toolName :- Field(tool, "name");
        var featureName :- Field(feature, "name");
        Err(SpineIntegrityError("Tool " + Quoted(toolName) + " already has feature " + Quoted(featureName) + ".",
                                current[Pair(item["tool_id"], item["feature_id"])]))
      else
        var featureList :- Field(feature, "parameter_value_list_id");
        if item["parameter_value_list_id"] != featureList then Err(Integrity("Feature and parameter value list don't match."))
        else Ok(item)
  }

  /** check_tool_feature_method: the method is one of the value indexes of the tool feature's value list. */
  function CheckToolFeatureMethod(item: Item, current: KeyMap, toolFeatures: map<Val, Item>, lists: map<Val, Item>): (r: Result<Item>)
    ensures r.Ok? <==> (&& "tool_feature_id" in item && "parameter_value_list_id" in item && "method_index" in item
                        && item["tool_feature_id"] in toolFeatures && item["parameter_value_list_id"] in lists
                        && !TakenWithId(current, Pair(item["tool_feature_id"], item["method_index"]))
                        && "parameter_value_list_id" in toolFeatures[item["tool_feature_id"]]
                        && item["parameter_value_list_id"] == toolFeatures[item["tool_feature_id"]]["parameter_value_list_id"]
                        && "value_index_list" in lists[item["parameter_value_list_id"]]
                        && Contains(lists[item["parameter_value_list_id"]]["value_index_list"], item["method_index"]) == Ok(true))
    ensures r.Ok? ==> r.value == item
    ensures (&& "tool_feature_id" in item && "parameter_value_list_id" in item && "method_index" in item
             && item["tool_feature_id"] in toolFeatures && item["parameter_value_list_id"] in lists
             && TakenWithId(current, Pair(item["tool_feature_id"], item["method_index"]))) ==>
      DuplicateOf(r, current[Pair(item["tool_feature_id"], item["method_index"])])
  {
    if "tool_feature_id" !in item then Err(Integrity("Missing tool feature identifier."))
    else if "parameter_value_list_id" !in item then Err(Integrity("Missing parameter value list identifier."))
    else if "method_index" !in item then Err(Integrity("Missing method index."))
    else if item["tool_feature_id"] !in toolFeatures then Err(Integrity("Tool feature not found."))
    else if item["parameter_value_list_id"] !in lists then Err(Integrity("Parameter value list not found."))
    else
      var toolFeature, valueList := toolFeatures[item["tool_feature_id"]], lists[item["parameter_value_list_id"]];
      var methodIndex := item["method_index"];
      if TakenWithId(current, Pair(item["tool_feature_id"], methodIndex)) then
        Err(SpineIntegrityError("Tool feature already has the given method.", current[Pair(item["tool_feature_id"], methodIndex)]))
      else
        var featureList :- Field(toolFeature, "parameter_value_list_id");
        if item["parameter_value_list_id"] != featureList then Err(Integrity("Feature and parameter value list don't match."))
        else
          var indexes :- Field(valueList, "value_index_list");
          var found :- Contains(indexes, methodIndex);
          if !found then Err(Integrity("Invalid method for tool feature.")) else Ok(item)
  }

  // ---- metadata ------------------------------------------------------------------------

  /** check_metadata: a name and a value. */
  function CheckMetadata(item: Item): (r: Result<Item>)
    ensures r.Ok? <==> "name" in item && "value" in item
    ensures r.Ok? ==> r.value == item
  {
    match MissingKeysError(item, ["name", "value"])
    case Some(e) => Err(e)
    case None => Ok(item)
  }

  /** check_entity_metadata: both keys, a known entity and a known metadata. */
  function CheckEntityMetadata(item: Item, entities: set<Val>, metadata: set<Val>): (r: Result<Item>)
    ensures r.Ok? <==> (&& "entity_id" in item && "metadata_id" in item
                        && item["entity_id"] in entities && item["metadata_id"] in metadata)
    ensures r.Ok? ==> r.value == item
  {
    match MissingKeysError(item, ["entity_id", "metadata_id"])
    case Some(e) => Err(e)
    case None =>
      if item["entity_id"] !in entities then Err(Integrity("Unknown entity identifier."))
      else if item["metadata_id"] !in metadata then Err(Integrity("Unknown metadata identifier."))
      else Ok(item)
  }

  /** check_parameter_value_metadata: both keys, a known value and a known metadata. */
  function CheckParameterValueMetadata(item: Item, values: set<Val>, metadata: set<Val>): (r: Result<Item>)
    ensures r.Ok? <==> (&& "parameter_value_id" in item && "metadata_id" in item
                        && item["parameter_value_id"] in values && item["metadata_id"] in metadata)
    ensures r.Ok? ==> r.value == item
  {
    match MissingKeysError(item, ["parameter_value_id", "metadata_id"])
    case Some(e) => Err(e)
    case None =>
      if item["parameter_value_id"] !in values then Err(Integrity("Unknown parameter value identifier."))
      else if item["metadata_id"] !in metadata then Err(Integrity("Unknown metadata identifier."))
      else Ok(item)
  }
}
