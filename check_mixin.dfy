// The check/stock protocol of spinedb_api/db_mapping_check_mixin.py. A batch
// of items of one type is checked item by item against dicts of existing
// keys; _manage_stocks keeps those dicts in step with the batch: on update
// it takes the item's keys out before the check and puts them back after a
// passing check, and on insert it registers the keys of a passing item with
// no id. The cache table of the type and the integrity-error log are state
// the batch changes as it goes.

module CheckMixin {
  import opened Errors
  import opened Text
  import opened Items
  import opened CheckFunctions

  /** The item types check_items dispatches on. */
  datatype ItemType =
    | Alternative | Scenario | ScenarioAlternative | ObjectClass | Object | RelationshipClass | Relationship
    | EntityGroup | ParameterDefinition | ParameterValue | ParameterValueList | ListValue | Feature | Tool
    | ToolFeature | ToolFeatureMethod | Metadata | EntityMetadata | ParameterValueMetadata
  {
    /** The table name, as used in messages. */
    function Name(): string
    {
      match this
      case Alternative => "alternative"
      case Scenario => "scenario"
      case ScenarioAlternative => "scenario_alternative"
      case ObjectClass => "object_class"
      case Object => "object"
      case RelationshipClass => "relationship_class"
      case Relationship => "relationship"
      case EntityGroup => "entity_group"
      case ParameterDefinition => "parameter_definition"
      case ParameterValue => "parameter_value"
      case ParameterValueList => "parameter_value_list"
      case ListValue => "list_value"
      case Feature => "feature"
      case Tool => "tool"
      case ToolFeature => "tool_feature"
      case ToolFeatureMethod => "tool_feature_method"
      case Metadata => "metadata"
      case EntityMetadata => "entity_metadata"
      case ParameterValueMetadata => "parameter_value_metadata"
    }

    /** The fields of each unique key, one existing-key dict per key. */
    function PrimaryKeys(): (pks: seq<seq<string>>)
      ensures forall i :: 0 <= i < |pks| ==> pks[i] != []
    {
      match this
      case Alternative => [["name"]]
      case Scenario => [["name"]]
      case ScenarioAlternative => [["scenario_id", "alternative_id"], ["scenario_id", "rank"]]
      case ObjectClass => [["name"]]
      case Object => [["class_id", "name"]]
      case RelationshipClass => [["name"]]
      case Relationship => [["class_id", "name"], ["class_id", "object_id_list"]]
      case EntityGroup => [["entity_id", "member_id"]]
      case ParameterDefinition => [["entity_class_id", "name"]]
      case ParameterValue => [["entity_id", "parameter_definition_id", "alternative_id"]]
      case ParameterValueList => [["name"]]
      case ListValue => [["parameter_value_list_id", "index"], ["parameter_value_list_id", "type", "value"]]
      case Feature => [["parameter_definition_id"]]
      case Tool => [["name"]]
      case ToolFeature => [["tool_id", "feature_id"]]
      case ToolFeatureMethod => [["tool_feature_id", "method_index"]]
      case Metadata => [["name", "value"]]
      case EntityMetadata => []
      case ParameterValueMetadata => []
    }

    /** The fields an update may not change. */
    function ImmutableFields(): seq<string>
    {
      match this
      case Object => ["class_id"]
      case RelationshipClass => ["object_class_id_list"]
      case Relationship => ["class_id"]
      case ParameterDefinition => ["entity_class_id", "object_class_id", "relationship_class_id"]
      case ParameterValue => ["entity_class_id", "object_class_id", "relationship_class_id"]
      case _ => []
    }
  }

  /**
   * What a batch reads from the cache besides the existing-key dicts: names,
   * ids and items of the referenced tables, the type ids, and the value
   * decoder.
   */
  datatype Lookups = Lookups(
    scenarioNames: map<Val, Val>, alternativeNames: map<Val, Val>,
    objectClassType: Val, objectEntityType: Val, relationshipClassType: Val, relationshipEntityType: Val,
    objectClassIds: set<Val>, relationshipClassIds: set<Val>,
    relationshipClasses: map<Val, Item>, objects: map<Val, Item>,
    entitiesByClass: map<Val, map<Val, Item>>, entities: map<Val, Item>,
    definitions: map<Val, Item>, definitionsWithValues: set<Val>, definitionLists: map<int, Val>,
    valueIdLists: map<Val, Val>, listValues: map<Val, Val>, alternatives: set<Val>, listNames: map<Val, Val>,
    tools: map<Val, Item>, features: map<Val, Item>, toolFeatures: map<Val, Item>, valueIndexLists: map<Val, Item>,
    entityIds: set<Val>, valueIds: set<Val>, metadataIds: set<Val>,
    codec: Codec)

  // ---- keys -------------------------------------------------------------------------------

  /** A list-valued key field is turned into a tuple. */
  function KeyPart(v: Val): (r: Val)
    ensures v.VList? ==> r == VTuple(v.elems)
    ensures !v.VList? ==> r == v
  {
    if v.VList? then VTuple(v.elems) else v
  }

  /** _get_key_values: the key fields of an item; a missing field raises KeyError naming it. */
  function KeyValues(item: Item, pk: seq<string>): (r: Result<seq<Val>>)
    ensures r.Ok? <==> forall f :: f in pk ==> f in item
    ensures r.Ok? ==> |r.value| == |pk| && forall i :: 0 <= i < |pk| ==> r.value[i] == KeyPart(item[pk[i]])
    ensures r.Err? ==> r.error.KeyError? && r.error.key in pk && r.error.key !in item
  {
    if pk == [] then Ok([])
    else if pk[0] !in item then Err(KeyError(pk[0]))
    else
      var rest :- KeyValues(item, pk[1..]);
      Ok([KeyPart(item[pk[0]])] + rest)
  }

  /** _get_key: a one-field key is the field's value, a longer key the tuple of the values. */
  function GetKey(item: Item, pk: seq<string>): (r: Result<Val>)
    ensures pk == [] ==> r.Err? && r.error.IndexError?
    ensures pk != [] ==> (r.Ok? <==> forall f :: f in pk ==> f in item)
    ensures r.Ok? && |pk| == 1 ==> r.value == KeyPart(item[pk[0]])
    ensures r.Ok? && |pk| > 1 ==> (&& r.value.VTuple? && |r.value.elems| == |pk|
                                   && forall i :: 0 <= i < |pk| ==> r.value.elems[i] == KeyPart(item[pk[i]]))
  {
    var values :- KeyValues(item, pk);
    if |values| > 1 then Ok(VTuple(values))
    else if values == [] then Err(IndexError("tuple index out of range"))
    else Ok(values[0])
  }

  /** Two items that agree on the fields of a key have the same key. */
  lemma SameFieldsSameKey(a: Item, b: Item, pk: seq<string>)
    requires forall f :: f in pk ==> f in a && f in b && a[f] == b[f]
    ensures GetKey(a, pk) == GetKey(b, pk)
  {
    var ka, kb := KeyValues(a, pk), KeyValues(b, pk);
    assert ka.Ok? && kb.Ok?;
    assert forall i :: 0 <= i < |pk| ==> ka.value[i] == kb.value[i] by {
      forall i | 0 <= i < |pk| ensures ka.value[i] == kb.value[i] { assert pk[i] in pk; }
    }
    assert ka.value == kb.value;
  }

  /** The keys of an item under every primary key, in order; the first missing field is reported. */
  function KeysOf(item: Item, pks: seq<seq<string>>): (r: Result<seq<Val>>)
    ensures r.Ok? ==> |r.value| == |pks| && forall i :: 0 <= i < |pks| ==> GetKey(item, pks[i]) == Ok(r.value[i])
    ensures r.Err? ==> exists i :: 0 <= i < |pks| && GetKey(item, pks[i]) == Err(r.error)
  {
    if pks == [] then Ok([])
    else
      var first :- GetKey(item, pks[0]);
      var rest :- KeysOf(item, pks[1..]);
      Ok([first] + rest)
  }

  /** The position of the last occurrence of a key. */
  function LastIndex(keys: seq<Val>, k: Val): (r: nat)
    requires k in keys
    ensures r < |keys| && keys[r] == k
    ensures forall i :: r < i < |keys| ==> keys[i] != k
  {
    if keys[|keys| - 1] == k then |keys| - 1 else LastIndex(keys[..|keys| - 1], k)
  }

  /**
   * The entries of a dict built from (keys[i], i) for i from `from` on: a
   * key takes its slot at its first occurrence and keeps the index of its
   * last one.
   */
  function Entries(keys: seq<Val>, from: nat): (r: seq<(Val, nat)>)
    requires from <= |keys|
    ensures forall j :: 0 <= j < |r| ==> r[j].1 < |keys| && keys[r[j].1] == r[j].0
    ensures forall j :: 0 <= j < |r| ==> forall i :: r[j].1 < i < |keys| ==> keys[i] != r[j].0
    ensures forall j :: 0 <= j < |r| ==> r[j].0 !in keys[..from]
    ensures forall j, l :: 0 <= j < l < |r| ==> r[j].0 != r[l].0
    decreases |keys| - from
  {
    if from == |keys| then []
    else
      var rest := Entries(keys, from + 1);
      assert keys[..from + 1] == keys[..from] + [keys[from]];
      if keys[from] in keys[..from] then rest
      else [(keys[from], LastIndex(keys, keys[from]))] + rest
  }

  /** {key: i for i, key in enumerate(keys)} as an ordered list of entries. */
  function Collapse(keys: seq<Val>): (r: seq<(Val, nat)>)
    ensures forall j :: 0 <= j < |r| ==> r[j].1 < |keys| && keys[r[j].1] == r[j].0
    ensures forall j :: 0 <= j < |r| ==> forall i :: r[j].1 < i < |keys| ==> keys[i] != r[j].0
    ensures forall j, l :: 0 <= j < l < |r| ==> r[j].0 != r[l].0
  {
    Entries(keys, 0)
  }

  /** With pairwise different keys, the dict holds every key at its own index. */
  lemma {:induction false} EntriesDistinct(keys: seq<Val>, from: nat)
    requires from <= |keys|
    requires forall i, j :: 0 <= i < j < |keys| ==> keys[i] != keys[j]
    ensures Entries(keys, from) == seq(|keys| - from, i requires 0 <= i < |keys| - from => (keys[from + i], (from + i) as nat))
    decreases |keys| - from
  {
    if from < |keys| {
      EntriesDistinct(keys, from + 1);
      assert keys[from] !in keys[..from] by {
        forall i | 0 <= i < from ensures keys[..from][i] != keys[from] { }
      }
      var last := LastIndex(keys, keys[from]);
      assert keys[last] == keys[from];
    }
  }

  lemma CollapseDistinct(keys: seq<Val>)
    requires forall i, j :: 0 <= i < j < |keys| ==> keys[i] != keys[j]
    ensures Collapse(keys) == seq(|keys|, i requires 0 <= i < |keys| => (keys[i], i as nat))
  {
    EntriesDistinct(keys, 0);
  }

  // ---- the existing-key dicts ------------------------------------------------------------

  /** A target of deletion or registration: a key and the index of the dict it lives in. */
  type Target = (Val, nat)

  predicate TargetsFit(maps: seq<KeyMap>, targets: seq<Target>)
  {
    forall j :: 0 <= j < |targets| ==> targets[j].1 < |maps|
  }

  /** del existing_ids[key] for each target in order; stops at the first key that is not there. */
  function DeleteKeys(maps: seq<KeyMap>, targets: seq<Target>): (r: (seq<KeyMap>, bool))
    requires TargetsFit(maps, targets)
    ensures |r.0| == |maps|
    ensures TargetsFit(r.0, targets)
    decreases |targets|
  {
    if targets == [] then (maps, true)
    else
      var (key, i) := targets[0];
      if key !in maps[i] then (maps, false)
      else DeleteKeys(maps[i := maps[i] - {key}], targets[1..])
  }

  /** existing_ids[key] = id for each target. */
  function RegisterKeys(maps: seq<KeyMap>, targets: seq<Target>, id: Option<int>): (r: seq<KeyMap>)
    requires TargetsFit(maps, targets)
    ensures |r| == |maps|
    decreases |targets|
  {
    if targets == [] then maps
    else
      var (key, i) := targets[0];
      RegisterKeys(maps[i := maps[i][key := id]], targets[1..], id)
  }

  /** The targets of keys that are all different: each key in the dict of its own index. */
  function OwnTargets(keys: seq<Val>, from: nat): (r: seq<Target>)
    requires from <= |keys|
    ensures |r| == |keys| - from
    ensures forall j :: 0 <= j < |r| ==> r[j] == (keys[from + j], from + j)
  {
    seq(|keys| - from, j requires 0 <= j < |keys| - from => (keys[from + j], (from + j) as nat))
  }

  /** The dicts with each key from `from` on taken out of its own dict. */
  function WithoutOwnKeys(maps: seq<KeyMap>, keys: seq<Val>, from: nat): (r: seq<KeyMap>)
    requires |keys| == |maps|
    ensures |r| == |maps|
    ensures forall i :: 0 <= i < |maps| ==> r[i] == if i >= from then maps[i] - {keys[i]} else maps[i]
  {
    seq(|maps|, i requires 0 <= i < |maps| => if i >= from then maps[i] - {keys[i]} else maps[i])
  }

  /** The dicts with each key from `from` on set to the id in its own dict. */
  function WithOwnKeys(maps: seq<KeyMap>, keys: seq<Val>, from: nat, id: Option<int>): (r: seq<KeyMap>)
    requires |keys| == |maps|
    ensures |r| == |maps|
    ensures forall i :: 0 <= i < |maps| ==> r[i] == if i >= from then maps[i][keys[i] := id] else maps[i]
  {
    seq(|maps|, i requires 0 <= i < |maps| => if i >= from then maps[i][keys[i] := id] else maps[i])
  }

  /** Deleting each key from its own dict, when every key is there, removes exactly those entries. */
  lemma {:induction false} DeleteOwnKeys(maps: seq<KeyMap>, keys: seq<Val>, from: nat)
    requires from <= |keys| == |maps|
    requires forall i :: from <= i < |keys| ==> keys[i] in maps[i]
    ensures TargetsFit(maps, OwnTargets(keys, from))
    ensures DeleteKeys(maps, OwnTargets(keys, from)) == (WithoutOwnKeys(maps, keys, from), true)
    decreases |keys| - from
  {
    var targets := OwnTargets(keys, from);
    if from < |keys| {
      var next := maps[from := maps[from] - {keys[from]}];
      DeleteOwnKeys(next, keys, from + 1);
      assert targets[1..] == OwnTargets(keys, from + 1);
      assert WithoutOwnKeys(next, keys, from + 1) == WithoutOwnKeys(maps, keys, from);
    } else {
      assert WithoutOwnKeys(maps, keys, from) == maps;
    }
  }

  /** Registering each key in its own dict sets exactly those entries. */
  lemma {:induction false} RegisterOwnKeys(maps: seq<KeyMap>, keys: seq<Val>, from: nat, id: Option<int>)
    requires from <= |keys| == |maps|
    ensures TargetsFit(maps, OwnTargets(keys, from))
    ensures RegisterKeys(maps, OwnTargets(keys, from), id) == WithOwnKeys(maps, keys, from, id)
    decreases |keys| - from
  {
    var targets := OwnTargets(keys, from);
    if from < |keys| {
      var next := maps[from := maps[from][keys[from] := id]];
      RegisterOwnKeys(next, keys, from + 1, id);
      assert targets[1..] == OwnTargets(keys, from + 1);
      assert WithOwnKeys(next, keys, from + 1, id) == WithOwnKeys(maps, keys, from, id);
    } else {
      assert WithOwnKeys(maps, keys, from, id) == maps;
    }
  }

  /** With pairwise different keys, the dict entries are the keys in their own dicts. */
  lemma TargetsOfDistinctKeys(keys: seq<Val>)
    requires forall i, j :: 0 <= i < j < |keys| ==> keys[i] != keys[j]
    ensures Targets(keys) == OwnTargets(keys, 0)
  {
    CollapseDistinct(keys);
  }

  // ---- immutable fields --------------------------------------------------------------------

  /**
   * _fix_immutable_fields: every immutable field the cached item holds with a
   * value is written back into the update; the fields whose given value
   * differed are reported.
   */
  function Fixed(fields: seq<string>, current: Item, item: Item): (r: (Item, seq<string>))
    ensures |r.1| <= |fields|
  {
    if fields == [] then (item, [])
    else
      var f := fields[0];
      if Get(current, f) == VNone then Fixed(fields[1..], current, item)
      else
        var changed := f in item && item[f] != current[f];
        var rest := Fixed(fields[1..], current, item[f := current[f]]);
        (rest.0, (if changed then [f] else []) + rest.1)
  }

  /**
   * _fix_immutable_fields: every fixed field the cached item has is put back
   * to its cached value, the other fields are left alone, and the fields
   * reported are exactly those the update tried to change.
   */
  lemma {:induction false} FixedRestores(fields: seq<string>, current: Item, item: Item)
    ensures Fixed(fields, current, item).0.Keys == item.Keys + (set f | f in fields && Get(current, f) != VNone)
    ensures forall f :: f in fields && Get(current, f) != VNone ==> Fixed(fields, current, item).0[f] == current[f]
    ensures forall k :: k in item && !(k in fields && Get(current, k) != VNone) ==> Fixed(fields, current, item).0[k] == item[k]
    ensures forall f :: f in Fixed(fields, current, item).1 <==> (&& f in fields && Get(current, f) != VNone
                                                                && f in item && item[f] != current[f])
  {
    if fields != [] {
      var f := fields[0];
      if Get(current, f) == VNone {
        FixedRestores(fields[1..], current, item);
      } else {
        FixedRestores(fields[1..], current, item[f := current[f]]);
      }
    }
  }

  /** The error logged when an update tries to change fixed fields. */
  function FixedFieldsError(fixed: seq<string>): seq<Error>
  {
    if fixed == [] then []
    else [Integrity("Can't update fixed fields " + Join(QuotedAll(fixed), ", "))]
  }

  function QuotedAll(fields: seq<string>): seq<string>
  {
    if fields == [] then [] else ["'" + fields[0] + "'"] + QuotedAll(fields[1..])
  }

  // ---- one item ------------------------------------------------------------------------------

  /** The existing-key dicts, the cache table of the item type, and the integrity-error log. */
  datatype Stocks = Stocks(keyMaps: seq<KeyMap>, table: map<int, Item>, log: seq<Error>)

  /**
   * The check_* function of the type, run on the full item with the current
   * dicts. Besides the item it says whether the batch returns it: metadata
   * whose (name, value) is already known passes but is not returned.
   */
  function RunCheck(kind: ItemType, lk: Lookups, classIds: set<Val>, full: Item, maps: seq<KeyMap>): (r: Result<(Item, bool)>)
    requires |maps| == |kind.PrimaryKeys()|
    ensures r.Err? <==> TypeCheck(kind, lk, classIds, full, maps).Err?
    ensures r.Err? ==> r.error == TypeCheck(kind, lk, classIds, full, maps).error
    ensures r.Ok? ==> r.value.0 == TypeCheck(kind, lk, classIds, full, maps).value
    ensures r.Ok? && !kind.Metadata? ==> r.value.1
  {
    var item :- TypeCheck(kind, lk, classIds, full, maps);
    if kind.Metadata? then Ok((item, Pair(item["name"], item["value"]) !in maps[0]))
    else Ok((item, true))
  }

  /** The check_<type> function of check_functions.py for the type. */
  function TypeCheck(kind: ItemType, lk: Lookups, classIds: set<Val>, full: Item, maps: seq<KeyMap>): (r: Result<Item>)
    requires |maps| == |kind.PrimaryKeys()|
    ensures kind.Metadata? && r.Ok? ==> "name" in r.value && "value" in r.value
  {
      match kind
      case Alternative => CheckAlternative(full, maps[0])
      case Scenario => CheckScenario(full, maps[0])
      case ScenarioAlternative => CheckScenarioAlternative(full, maps[0], maps[1], lk.scenarioNames, lk.alternativeNames)
      case ObjectClass => CheckObjectClass(full, maps[0], lk.objectClassType)
      case Object => CheckObject(full, maps[0], lk.objectClassIds, lk.objectEntityType)
      case RelationshipClass => CheckRelationshipClass(full, maps[0], lk.objectClassIds, lk.relationshipClassType)
      case Relationship => CheckRelationship(full, maps[0], maps[1], lk.relationshipClasses, lk.objects, lk.relationshipEntityType)
      case EntityGroup => CheckEntityGroup(full, maps[0], lk.entitiesByClass)
      case ParameterDefinition => CheckParameterDefinition(full, maps[0], classIds, lk.valueIdLists, lk.listValues, lk.codec)
      case ParameterValue =>
        CheckParameterValue(full, maps[0], lk.definitions, lk.entities, lk.valueIdLists, lk.listValues, lk.alternatives, lk.codec)
      case ParameterValueList => CheckParameterValueList(full, maps[0])
      case ListValue => CheckListValue(full, lk.listNames, maps[0], maps[1], lk.codec)
      case Feature => CheckFeature(full, maps[0], lk.definitions)
      case Tool => CheckTool(full, maps[0])
      case ToolFeature => CheckToolFeature(full, maps[0], lk.tools, lk.features)
      case ToolFeatureMethod => CheckToolFeatureMethod(full, maps[0], lk.toolFeatures, lk.valueIndexLists)
      case Metadata => CheckMetadata(full)
      case EntityMetadata => CheckEntityMetadata(full, lk.entityIds, lk.metadataIds)
      case ParameterValueMetadata => CheckParameterValueMetadata(full, lk.valueIds, lk.metadataIds)
  }

  /** A check as _manage_stocks sees it: run on the full item and the current dicts. */
  type Check = (Item, seq<KeyMap>) -> Result<(Item, bool)>

  /** The check of a type, for the dicts of that type. */
  function CheckOf(kind: ItemType, lk: Lookups, classIds: set<Val>): Check
  {
    (full: Item, maps: seq<KeyMap>) =>
      if |maps| == |kind.PrimaryKeys()| then RunCheck(kind, lk, classIds, full, maps)
      else Err(RuntimeError("one existing-key dict per primary key"))
  }

  /** What _manage_stocks leaves behind, and the checked item or the error that escaped it. */
  datatype Outcome = Outcome(stocks: Stocks, result: Result<(Item, bool)>)

  predicate StocksFit(kind: ItemType, s: Stocks)
  {
    |s.keyMaps| == |kind.PrimaryKeys()|
  }

  /** The dict entries _manage_stocks works on: one per distinct key value, each in the dict of the last key with that value. */
  function Targets(keys: seq<Val>): (r: seq<Target>)
    ensures forall j :: 0 <= j < |r| ==> r[j].1 < |keys|
  {
    Collapse(keys)
  }

  /** The item _manage_stocks works on: the full item, the id its keys are registered with, and its keys. */
  datatype Located = Located(full: Item, id: Option<int>, keys: seq<Val>)

  /**
   * The start of _manage_stocks. An update needs the id of a cached item,
   * whose cached dict is the full item. An insert's full item is the item
   * as given: the fields cache.make_item would fill in or convert are not
   * modelled. Every key field must be there.
   */
  function Locate(kind: ItemType, s: Stocks, item: Item, forUpdate: bool): (r: Result<Located>)
    ensures r.Ok? ==> KeysOf(r.value.full, kind.PrimaryKeys()) == Ok(r.value.keys) && |r.value.keys| == |kind.PrimaryKeys()|
    ensures r.Ok? && forUpdate ==> (&& "id" in item && item["id"].VInt? && r.value.id == Some(item["id"].n)
                                    && item["id"].n in s.table && r.value.full == s.table[item["id"].n])
    ensures r.Ok? && !forUpdate ==> r.value.full == item && r.value.id == None
    ensures r.Err? ==> r.error.SpineIntegrityError? && r.error.id == None
    ensures forUpdate && "id" !in item ==> r == Err(Integrity("Missing " + kind.Name() + " identifier."))
    ensures forUpdate && "id" in item && !(item["id"].VInt? && item["id"].n in s.table) ==> r == Err(Integrity(kind.Name() + " not found."))
  {
    var name := kind.Name();
    if forUpdate && "id" !in item then Err(Integrity("Missing " + name + " identifier."))
    else if forUpdate && (!item["id"].VInt? || item["id"].n !in s.table) then Err(Integrity(name + " not found."))
    else
      var full := if forUpdate then s.table[item["id"].n] else item;
      var id := if forUpdate then Some(item["id"].n) else None;
      match KeysOf(full, kind.PrimaryKeys())
      case Err(e) => Err(Integrity("Missing key field '" + e.Message() + "' for " + name + "."))
      case Ok(keys) => Ok(Located(full, id, keys))
  }

  /** An insert: the check runs on the dicts as they are, and a passing item's keys are registered. */
  function Inserted(s: Stocks, loc: Located, targets: seq<Target>, check: Check): (r: Outcome)
    requires TargetsFit(s.keyMaps, targets)
    ensures |r.stocks.keyMaps| == |s.keyMaps|
  {
    var checked := check(loc.full, s.keyMaps);
    if checked.Err? then Outcome(s, checked)
    else Outcome(s.(keyMaps := RegisterKeys(s.keyMaps, targets, loc.id)), checked)
  }

  /**
   * An update: the item's keys are deleted from the dicts one by one, fixed
   * fields are restored and logged, the cached item is updated in place with
   * the given fields, and the check runs. A passing item's keys are put back
   * with its id: the targets again, or with fix those of the updated item.
   */
  function Updated(kind: ItemType, s: Stocks, item: Item, loc: Located, targets: seq<Target>, fix: bool, check: Check): (r: Outcome)
    requires StocksFit(kind, s) && TargetsFit(s.keyMaps, targets) && loc.id.Some?
    ensures |r.stocks.keyMaps| == |s.keyMaps|
  {
    var (maps, deleted) := DeleteKeys(s.keyMaps, targets);
    if !deleted then Outcome(s.(keyMaps := maps), Err(Integrity(kind.Name() + " not found.")))
    else
      var (fixedItem, fixed) := Fixed(kind.ImmutableFields(), loc.full, item);
      var merged := loc.full + fixedItem;
      var s' := Stocks(maps, s.table[loc.id.value := merged], s.log + FixedFieldsError(fixed));
      var checked := check(merged, maps);
      if checked.Err? then Outcome(s', checked)
      else
        var again := if fix then OwnTargetsOf(kind, merged) else targets;
        Outcome(s'.(keyMaps := RegisterKeys(maps, again, loc.id), table := s'.table[loc.id.value := checked.value.0]), checked)
  }

  /** Each key to its own dict, for the keys an item has now (none when a key field is missing). */
  function OwnTargetsOf(kind: ItemType, item: Item): (r: seq<Target>)
    ensures forall j :: 0 <= j < |r| ==> r[j].1 < |kind.PrimaryKeys()|
  {
    match KeysOf(item, kind.PrimaryKeys())
    case Ok(keys) => OwnTargets(keys, 0)
    case Err(_) => []
  }

  /**
   * One item through _manage_stocks and the check; a failing check puts
   * nothing back. With fix false this is the code as written: the key
   * values are collected in a dict keyed by the values themselves, so two
   * primary keys with equal values keep only the later dict, and the keys
   * put back after an update are those computed BEFORE it. With fix true
   * each key goes to its own dict and the keys put back are those of the
   * updated item.
   */
  function Step(kind: ItemType, s: Stocks, item: Item, forUpdate: bool, fix: bool, check: Check): (r: Outcome)
    requires StocksFit(kind, s)
    ensures StocksFit(kind, r.stocks)
  {
    match Locate(kind, s, item, forUpdate)
    case Err(e) => Outcome(s, Err(e))
    case Ok(loc) =>
      var targets := if fix then OwnTargets(loc.keys, 0) else Targets(loc.keys);
      if !forUpdate then Inserted(s, loc, targets, check)
      else Updated(kind, s, item, loc, targets, fix, check)
  }

  /** _manage_stocks as written. */
  function StocksStepAsWritten(kind: ItemType, lk: Lookups, classIds: set<Val>, s: Stocks, item: Item, forUpdate: bool): (r: Outcome)
    requires StocksFit(kind, s)
    ensures StocksFit(kind, r.stocks)
  {
    Step(kind, s, item, forUpdate, false, CheckOf(kind, lk, classIds))
  }

  /** _manage_stocks as evidently intended: the dicts index the items as they now are. */
  function StocksStep(kind: ItemType, lk: Lookups, classIds: set<Val>, s: Stocks, item: Item, forUpdate: bool): (r: Outcome)
    requires StocksFit(kind, s)
    ensures StocksFit(kind, r.stocks)
  {
    Step(kind, s, item, forUpdate, true, CheckOf(kind, lk, classIds))
  }

  // ---- the batch -----------------------------------------------------------------------------

  /** An item ready for _manage_stocks, or a violation found before it. */
  datatype Prepared = Skip(violation: Error) | Go(item: Item, classIds: set<Val>)

  /**
   * The per-type work before _manage_stocks. A definition may name an
   * object class or a relationship class but not both, becomes a definition
   * of that class, and an update may not change the value list of a
   * definition that has values; a value takes its entity from object_id or
   * relationship_id.
   */
  function Prepare(kind: ItemType, lk: Lookups, item: Item, forUpdate: bool): (r: Result<Prepared>)
    ensures kind.ParameterDefinition? && Truthy(Get(item, "object_class_id")) && Truthy(Get(item, "relationship_class_id")) ==>
      r == Ok(Skip(Integrity("Can't associate a parameter to both an object and a relationship class.")))
    ensures !kind.ParameterDefinition? && !kind.ParameterValue? ==> r == Ok(Go(item, {}))
    ensures r.Err? ==> r.error.KeyError?
  {
    if kind.ParameterDefinition? then
      var objectClassId, relationshipClassId := Get(item, "object_class_id"), Get(item, "relationship_class_id");
      if Truthy(objectClassId) && Truthy(relationshipClassId) then
        Ok(Skip(Integrity("Can't associate a parameter to both an object and a relationship class.")))
      else
        var classIds :=
          if Truthy(objectClassId) then lk.objectClassIds
          else if Truthy(relationshipClassId) then lk.relationshipClassIds
          else lk.objectClassIds + lk.relationshipClassIds;
        var classId := if Truthy(objectClassId) then objectClassId else relationshipClassId;
        var prepared := if classId != VNone then item["entity_class_id" := classId] else item;
        if !forUpdate then Ok(Go(prepared, classIds))
        else
          var id :- Field(prepared, "id");
          if id !in lk.definitionsWithValues then Ok(Go(prepared, classIds))
          else
            var listId :- Field(prepared, "parameter_value_list_id");
            if !id.VInt? || id.n !in lk.definitionLists then Err(KeyError(Str(id)))
            else if listId != lk.definitionLists[id.n] then
              var name :- Field(prepared, "name");
              Ok(Skip(Integrity("Can't change value list on parameter " + Str(name) + " because it has parameter values.")))
            else Ok(Go(prepared, classIds))
    else if kind.ParameterValue? then
      var entityId := if Truthy(Get(item, "object_id")) then Get(item, "object_id") else Get(item, "relationship_id");
      Ok(Go(if entityId != VNone then item["entity_id" := entityId] else item, {}))
    else Ok(Go(item, {}))
  }

  /** What one item does to a batch: it goes on (with the item when it passed) or it stops it. */
  datatype Advance = Continue(stocks: Stocks, passed: seq<Item>) | Stop(stocks: Stocks, error: Error)

  /**
   * What the handler around _manage_stocks makes of its outcome: a passing
   * item goes on (returned when the check says so); an integrity error stops
   * a strict batch and is logged otherwise; any other error stops the batch.
   */
  function Settle(out: Outcome, strict: bool): (r: Advance)
    ensures r.stocks.keyMaps == out.stocks.keyMaps && r.stocks.table == out.stocks.table
    ensures r.Stop? <==> out.result.Err? && (strict || !out.result.error.SpineIntegrityError?)
    ensures r.Stop? ==> r.error == out.result.error && r.stocks == out.stocks
    ensures r.Continue? && out.result.Err? ==> r.passed == [] && r.stocks.log == out.stocks.log + [out.result.error]
    ensures r.Continue? && out.result.Ok? ==>
      r.stocks == out.stocks && r.passed == (if out.result.value.1 then [out.result.value.0] else [])
  {
    if out.result.Ok? then Continue(out.stocks, if out.result.value.1 then [out.result.value.0] else [])
    else if !out.result.error.SpineIntegrityError? || strict then Stop(out.stocks, out.result.error)
    else Continue(out.stocks.(log := out.stocks.log + [out.result.error]), [])
  }

  /**
   * One item of a batch: a violation stops a strict batch and is logged
   * otherwise; an error other than an integrity error always stops it.
   */
  function AdvanceOne(kind: ItemType, lk: Lookups, s: Stocks, prepared: Result<Prepared>, forUpdate: bool, strict: bool): (r: Advance)
    requires StocksFit(kind, s)
    ensures StocksFit(kind, r.stocks)
    ensures r.Continue? ==> |r.passed| <= 1
    ensures r.Stop? && !strict ==> (prepared.Err? && r.error == prepared.error) || !r.error.SpineIntegrityError?
  {
    match prepared
    case Err(e) => Stop(s, e)
    case Ok(Skip(e)) => if strict then Stop(s, e) else Continue(s.(log := s.log + [e]), [])
    case Ok(Go(prepared, classIds)) => Settle(StocksStep(kind, lk, classIds, s, prepared, forUpdate), strict)
  }

  /**
   * A batch of check_<type>s: each violation either aborts the batch
   * (strict) or is logged while the rest are still checked; errors other
   * than integrity errors always escape. Returns the items that passed.
   */
  function Batch(kind: ItemType, lk: Lookups, s: Stocks, items: seq<Item>, forUpdate: bool, strict: bool, checked: seq<Item>): (r: (Stocks, Result<seq<Item>>))
    requires StocksFit(kind, s)
    ensures StocksFit(kind, r.0)
    decreases |items|
  {
    if items == [] then (s, Ok(checked))
    else
      match AdvanceOne(kind, lk, s, Prepare(kind, lk, items[0], forUpdate), forUpdate, strict)
      case Stop(s', e) => (s', Err(e))
      case Continue(s', passed) => Batch(kind, lk, s', items[1..], forUpdate, strict, checked + passed)
  }

  // ---- the mixin's state ------------------------------------------------------------------------

  /**
   * One check_<type>s call: the existing-key dicts it built from the cache,
   * the cache table of the type, and intgr_error_log.
   */
  class CheckSession {
    var keyMaps: seq<KeyMap>
    var table: map<int, Item>
    var log: seq<Error>
    const kind: ItemType
    const lookups: Lookups

    function State(): Stocks
      reads this
    {
      Stocks(keyMaps, table, log)
    }

    /** One dict per primary key of the type. */
    predicate Valid()
      reads this
    {
      StocksFit(kind, State())
    }

    constructor (kind: ItemType, lookups: Lookups, keyMaps: seq<KeyMap>, table: map<int, Item>)
      requires |keyMaps| == |kind.PrimaryKeys()|
      ensures Valid()
      ensures this.kind == kind && this.lookups == lookups
      ensures State() == Stocks(keyMaps, table, [])
    {
      this.kind := kind;
      this.lookups := lookups;
      this.keyMaps := keyMaps;
      this.table := table;
      this.log := [];
    }

    /** _fix_immutable_fields, field by field. */
    static method FixImmutableFields(fields: seq<string>, current: Item, item: Item) returns (fixedItem: Item, fixed: seq<string>)
      ensures (fixedItem, fixed) == Fixed(fields, current, item)
    {
      fixedItem, fixed := item, [];
      var j := 0;
      assert fields[j..] == fields;
      assert [] + Fixed(fields, current, item).1 == Fixed(fields, current, item).1;
      while j < |fields|
        invariant 0 <= j <= |fields|
        invariant Fixed(fields, current, item).0 == Fixed(fields[j..], current, fixedItem).0
        invariant Fixed(fields, current, item).1 == fixed + Fixed(fields[j..], current, fixedItem).1
      {
        var f := fields[j];
        assert fields[j..][1..] == fields[j + 1..];
        if Get(current, f) != VNone {
          var rest := Fixed(fields[j + 1..], current, fixedItem[f := current[f]]);
          if f in fixedItem && fixedItem[f] != current[f] {
            assert fixed + ([f] + rest.1) == (fixed + [f]) + rest.1;
            fixed := fixed + [f];
          }
          fixedItem := fixedItem[f := current[f]];
        }
        j := j + 1;
      }
      assert fields[j..] == [];
      assert fixed + [] == fixed;
    }

    /** Sets every target's key to the id, in order. */
    method Register(targets: seq<Target>, id: Option<int>)
      requires TargetsFit(keyMaps, targets)
      modifies this
      ensures keyMaps == RegisterKeys(old(keyMaps), targets, id)
      ensures table == old(table) && log == old(log)
    {
      var j := 0;
      while j < |targets|
        invariant 0 <= j <= |targets|
        invariant |keyMaps| == |old(keyMaps)|
        invariant RegisterKeys(old(keyMaps), targets, id) == RegisterKeys(keyMaps, targets[j..], id)
        invariant table == old(table) && log == old(log)
      {
        assert targets[j..][1..] == targets[j + 1..];
        var (key, i) := targets[j];
        keyMaps := keyMaps[i := keyMaps[i][key := id]];
        j := j + 1;
      }
    }

    /** del existing_ids[key] for each target in order, stopping at the first key that is not there. */
    method Delete(targets: seq<Target>) returns (deleted: bool)
      requires TargetsFit(keyMaps, targets)
      modifies this
      ensures (keyMaps, deleted) == DeleteKeys(old(keyMaps), targets)
      ensures table == old(table) && log == old(log)
    {
      var j := 0;
      while j < |targets|
        invariant 0 <= j <= |targets|
        invariant |keyMaps| == |old(keyMaps)|
        invariant DeleteKeys(old(keyMaps), targets) == DeleteKeys(keyMaps, targets[j..])
        invariant table == old(table) && log == old(log)
      {
        assert targets[j..][1..] == targets[j + 1..];
        var (key, i) := targets[j];
        if key !in keyMaps[i] {
          return false;
        }
        keyMaps := keyMaps[i := keyMaps[i] - {key}];
        j := j + 1;
      }
      return true;
    }

    /** _manage_stocks around the type's check, for one item. */
    method ManageStocks(item: Item, classIds: set<Val>, forUpdate: bool) returns (r: Result<(Item, bool)>)
      requires Valid()
      modifies this
      ensures Valid()
      ensures Outcome(State(), r) == StocksStep(kind, lookups, classIds, old(State()), item, forUpdate)
    {
      var located := Locate(kind, State(), item, forUpdate);
      if located.Err? {
        return Err(located.error);
      }
      var loc := located.value;
      var targets := OwnTargets(loc.keys, 0);
      var check := CheckOf(kind, lookups, classIds);
      if !forUpdate {
        r := check(loc.full, keyMaps);
        if r.Ok? {
          Register(targets, loc.id);
        }
        return;
      }
      // take the item's keys out of the dicts
      var deleted := Delete(targets);
      if !deleted {
        return Err(Integrity(kind.Name() + " not found."));
      }
      var fixedItem, fixed := FixImmutableFields(kind.ImmutableFields(), loc.full, item);
      log := log + FixedFieldsError(fixed);
      var merged := loc.full + fixedItem;
      // the cached item is the dict being updated
      table := table[loc.id.value := merged];
      r := check(merged, keyMaps);
      if r.Ok? {
        Register(OwnTargetsOf(kind, merged), loc.id);
        table := table[loc.id.value := r.value.0];
      }
    }

    /** One item of check_<type>s: the items it adds to the passed ones, or the error that stops the batch. */
    method CheckOne(prepared: Result<Prepared>, forUpdate: bool, strict: bool) returns (passed: seq<Item>, stop: Option<Error>)
      requires Valid()
      modifies this
      ensures Valid()
      ensures stop.None? ==> AdvanceOne(kind, lookups, old(State()), prepared, forUpdate, strict) == Continue(State(), passed)
      ensures stop.Some? ==> AdvanceOne(kind, lookups, old(State()), prepared, forUpdate, strict) == Stop(State(), stop.value)
    {
      passed := [];
      if prepared.Err? {
        return [], Some(prepared.error);
      }
      match prepared.value {
        case Skip(e) =>
          if strict {
            return [], Some(e);
          }
          log := log + [e];
          stop := None;
        case Go(ready, classIds) =>
          passed, stop := CheckPrepared(ready, classIds, forUpdate, strict);
      }
    }

    /** The handler around _manage_stocks: a passing item is kept, an integrity error is raised or logged. */
    method CheckPrepared(item: Item, classIds: set<Val>, forUpdate: bool, strict: bool) returns (passed: seq<Item>, stop: Option<Error>)
      requires Valid()
      modifies this
      ensures Valid()
      ensures var out := Settle(StocksStep(kind, lookups, classIds, old(State()), item, forUpdate), strict);
              && (stop.None? ==> out == Continue(State(), passed))
              && (stop.Some? ==> out == Stop(State(), stop.value))
    {
      passed := [];
      var result := ManageStocks(item, classIds, forUpdate);
      if result.Ok? {
        passed := if result.value.1 then [result.value.0] else [];
        stop := None;
      } else if !result.error.SpineIntegrityError? || strict {
        stop := Some(result.error);
      } else {
        log := log + [result.error];
        stop := None;
      }
    }

    /**
     * check_<type>s: every item is prepared and checked in order; returns the
     * items that passed, or the violation that stopped a strict batch.
     */
    method CheckItems(items: seq<Item>, forUpdate: bool, strict: bool) returns (r: Result<seq<Item>>)
      requires Valid()
      modifies this
      ensures Valid()
      ensures (State(), r) == Batch(kind, lookups, old(State()), items, forUpdate, strict, [])
    {
      var checked: seq<Item> := [];
      var k := 0;
      while k < |items|
        invariant 0 <= k <= |items|
        invariant Valid()
        invariant Batch(kind, lookups, old(State()), items, forUpdate, strict, [])
                  == Batch(kind, lookups, State(), items[k..], forUpdate, strict, checked)
      {
        var prepared := Prepare(kind, lookups, items[k], forUpdate);
        BatchAt(kind, lookups, State(), items, k, forUpdate, strict, checked);
        var passed, stop := CheckOne(prepared, forUpdate, strict);
        if stop.Some? {
          return Err(stop.value);
        }
        checked := checked + passed;
        k := k + 1;
      }
      r := Ok(checked);
    }
  }

  /** Batch from position k on: the item at k is advanced and the rest follow, or the batch stops there. */
  lemma BatchAt(kind: ItemType, lk: Lookups, s: Stocks, items: seq<Item>, k: nat, forUpdate: bool, strict: bool, checked: seq<Item>)
    requires StocksFit(kind, s) && k < |items|
    ensures var a := AdvanceOne(kind, lk, s, Prepare(kind, lk, items[k], forUpdate), forUpdate, strict);
      Batch(kind, lk, s, items[k..], forUpdate, strict, checked)
      == if a.Stop? then (a.stocks, Err(a.error)) else Batch(kind, lk, a.stocks, items[k + 1..], forUpdate, strict, checked + a.passed)
  {
    assert items[k..][0] == items[k];
    assert items[k..][1..] == items[k + 1..];
  }
}
