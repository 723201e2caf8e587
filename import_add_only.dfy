// The add-only planners of spinedb_api/import_functions.py: entity groups,
// tool feature methods and the metadata kinds. Each row offers items under a
// key; a key already in the database or already added is passed over, and
// an item whose check fails is logged.

module ImportAddOnly {
  import opened Errors
  import opened Text
  import opened Items
  import opened CheckFunctions
  import opened ImportFunctions
  import opened ImportPlanners

  /** The offer of an item a check decides on: a failed check is logged with the message given, other errors stop the import. */
  function Checked(key: Val, item: Item, check: Result<Item>, prefix: string, dbType: string): (o: Offer)
    ensures o.Offer? && o.key == key && o.item == item
    ensures check.Ok? ==> o.verdict == Ok(None)
    ensures check.Err? && check.error.SpineIntegrityError? ==> o.verdict == Ok(Some(LogItem(prefix + check.error.Message(), dbType)))
    ensures check.Err? && !check.error.SpineIntegrityError? ==> o.verdict == Err(check.error)
  {
    var verdict := match check
      case Ok(_) => Ok(None)
      case Err(e) => if e.SpineIntegrityError? then Ok(Some(LogItem(prefix + e.Message(), dbType))) else Err(e);
    Offer(key, item, verdict)
  }

  // ---------------------------------------------------------------------------
  // Entity groups

  /** What the entity group planner reads besides the rows. */
  datatype GroupContext = GroupContext(
    classIds: map<Val, Val>,                   // object class name -> id
    objectIds: map<Val, Val>,                  // (class id, object name) -> id
    entities: map<Val, map<Val, Item>>,        // class id -> object id -> object
    existing: KeyMap)                          // (group id, member id) -> entity group id

  /** A group row: class, group and member names. */
  function GroupOffers(c: GroupContext, row: Val): (r: Result<seq<Offer>>)
    ensures r.Ok? <==> Iterate(row).Ok? && |Iterate(row).value| == 3
    ensures r.Ok? ==> |r.value| == 1 && r.value[0].Offer?
  {
    var parts :- UnpackExactly(row, 3);
    var classId := GetVal(c.classIds, parts[0], VNone);
    var groupId := GetVal(c.objectIds, Pair(classId, parts[1]), VNone);
    var memberId := GetVal(c.objectIds, Pair(classId, parts[2]), VNone);
    var item := map["entity_class_id" := classId, "entity_id" := groupId, "member_id" := memberId];
    Ok([Checked(Pair(groupId, memberId), item, CheckEntityGroup(item, c.existing, c.entities),
                "Could not import object '" + Str(parts[2]) + "' into group '" + Str(parts[1]) + "': ", "entity group")])
  }

  /** _get_object_groups_for_import. */
  function EntityGroupsPlan(c: GroupContext, rows: seq<Val>): Result<Taken>
  {
    TakeUnseen(rows, row => GroupOffers(c, row), c.existing.Keys)
  }

  /** A (group, member) key and the item added under it: the item passed the entity group check and is keyed by its pair. */
  ghost predicate GroupAdded(c: GroupContext, key: Val, item: Item)
  {
    CheckEntityGroup(item, c.existing, c.entities).Ok? && "entity_id" in item && "member_id" in item
    && key == Pair(item["entity_id"], item["member_id"])
  }

  /** No (group, member) pair is added twice or when the database has it. */
  lemma EntityGroupsAddedOnce(c: GroupContext, rows: seq<Val>)
    requires EntityGroupsPlan(c, rows).Ok?
    ensures (var t := EntityGroupsPlan(c, rows).value;
             && |t.items| == |t.keys| && Distinct(t.keys)
             && forall i :: 0 <= i < |t.keys| ==> t.keys[i] !in c.existing)
  {
    TakeUnseenValid(rows, row => GroupOffers(c, row), c.existing.Keys);
  }

  /** Every pair added passed the entity group check. */
  lemma EntityGroupsChecked(c: GroupContext, rows: seq<Val>)
    requires EntityGroupsPlan(c, rows).Ok?
    ensures (var t := EntityGroupsPlan(c, rows).value;
             && |t.items| == |t.keys|
             && forall i :: 0 <= i < |t.items| ==> GroupAdded(c, t.keys[i], t.items[i]))
  {
    var offers := row => GroupOffers(c, row);
    var P := (key: Val, item: Item) => GroupAdded(c, key, item);
    forall row, o | offers(row).Ok? && o in offers(row).value && o.Offer? && o.verdict == Ok(None) ensures P(o.key, o.item) {
      GroupOfferPasses(c, row, o);
    }
    TakeUnseenKeeps(rows, offers, c.existing.Keys, P);
  }

  lemma GroupOfferPasses(c: GroupContext, row: Val, o: Offer)
    requires GroupOffers(c, row).Ok? && o in GroupOffers(c, row).value && o.Offer? && o.verdict == Ok(None)
    ensures GroupAdded(c, o.key, o.item)
  {
    OnlyOffer(GroupOffers(c, row).value, o);
    var parts := UnpackExactly(row, 3).value;
    var classId := GetVal(c.classIds, parts[0], VNone);
    var groupId := GetVal(c.objectIds, Pair(classId, parts[1]), VNone);
    var memberId := GetVal(c.objectIds, Pair(classId, parts[2]), VNone);
    var item := map["entity_class_id" := classId, "entity_id" := groupId, "member_id" := memberId];
    assert GroupOffers(c, row).value[0].item == item && GroupOffers(c, row).value[0].key == Pair(groupId, memberId);
  }

  /** _get_object_groups_for_import: the rows in turn. */
  method PlanEntityGroups(c: GroupContext, rows: seq<Val>) returns (r: Result<Plan>)
    ensures r.Ok? <==> EntityGroupsPlan(c, rows).Ok?
    ensures r.Ok? ==> r.value == Plan(EntityGroupsPlan(c, rows).value.items, [], EntityGroupsPlan(c, rows).value.log)
  {
    var t := PlanUnseen(rows, row => GroupOffers(c, row), c.existing.Keys);
    r := if t.Ok? then Ok(Plan(t.value.items, [], t.value.log)) else Err(t.error);
  }

  // ---------------------------------------------------------------------------
  // Tool feature methods

  /** What the tool feature method planner reads besides the rows. */
  datatype MethodContext = MethodContext(
    toolFeatureIds: map<Val, (Val, Val)>,      // (tool, class, parameter) names -> tool feature id and value list id
    toolFeatures: map<Val, Item>,
    lists: map<Val, Item>,                     // value list id -> name and value_index_list
    listValues: map<Val, Val>,                 // (value list id, index) -> value
    normalize: Val -> Val,                     // from_database(*unparse_value(method))
    existing: KeyMap)                          // (tool feature id, method index) -> id

  /** Whether the list value at an index of a value list is the one wanted. */
  predicate ListHolds(listValues: map<Val, Val>, listId: Val, index: Val, wanted: Val)
  {
    GetVal(listValues, Pair(listId, index), VNone) == wanted
  }

  /** The first index in the list whose value equals the method, None when there is none. */
  function MethodIndex(listValues: map<Val, Val>, listId: Val, indexes: seq<Val>, wanted: Val): (r: Val)
    ensures (forall k :: 0 <= k < |indexes| ==> !ListHolds(listValues, listId, indexes[k], wanted)) ==> r == VNone
    ensures (exists k :: 0 <= k < |indexes| && ListHolds(listValues, listId, indexes[k], wanted)) ==>
      exists k :: 0 <= k < |indexes| && r == indexes[k] && ListHolds(listValues, listId, indexes[k], wanted)
                  && forall j :: 0 <= j < k ==> !ListHolds(listValues, listId, indexes[j], wanted)
    decreases |indexes|
  {
    if indexes == [] then VNone
    else if ListHolds(listValues, listId, indexes[0], wanted) then indexes[0]
    else
      var r := MethodIndex(listValues, listId, indexes[1..], wanted);
      assert forall k :: 0 < k < |indexes| ==> indexes[k] == indexes[1..][k - 1];
      r
  }

  /** A method row: tool, class and parameter names and the method value. */
  function MethodOffers(c: MethodContext, row: Val): (r: Result<seq<Offer>>)
    ensures r.Ok? ==> |r.value| == 1 && r.value[0].Offer?
  {
    var parts :- UnpackExactly(row, 4);
    var ids := if Triple(parts[0], parts[1], parts[2]) in c.toolFeatureIds then c.toolFeatureIds[Triple(parts[0], parts[1], parts[2])] else (VNone, VNone);
    var list := if ids.1 in c.lists then c.lists[ids.1] else map[];
    var indexes :- if "value_index_list" in list then Iterate(list["value_index_list"]) else Ok([]);
    var wanted := c.normalize(parts[3]);
    var index := MethodIndex(c.listValues, ids.1, indexes, wanted);
    var item := map["tool_feature_id" := ids.0, "parameter_value_list_id" := ids.1, "method_index" := index];
    Ok([Checked(Pair(ids.0, index), item, CheckToolFeatureMethod(item, c.existing, c.toolFeatures, c.lists),
                "Could not import tool feature method '" + TupleRepr([parts[0], parts[1], parts[2], wanted]) + "': ",
                "tool_feature_method")])
  }

  function ToolFeatureMethodsPlan(c: MethodContext, rows: seq<Val>): Result<Taken>
  {
    TakeUnseen(rows, row => MethodOffers(c, row), c.existing.Keys)
  }

  /**
   * No (tool feature, method index) pair is added twice or when the
   * database has it, and every method added is one the value list holds.
   */
  lemma ToolFeatureMethodsAddedOnce(c: MethodContext, rows: seq<Val>)
    requires ToolFeatureMethodsPlan(c, rows).Ok?
    ensures (var t := ToolFeatureMethodsPlan(c, rows).value;
             && |t.items| == |t.keys| && Distinct(t.keys)
             && (forall i :: 0 <= i < |t.keys| ==> t.keys[i] !in c.existing)
             && forall i :: 0 <= i < |t.items| ==> CheckToolFeatureMethod(t.items[i], c.existing, c.toolFeatures, c.lists).Ok?)
  {
    var offers := row => MethodOffers(c, row);
    TakeUnseenValid(rows, offers, c.existing.Keys);
    var P := (key: Val, item: Item) => CheckToolFeatureMethod(item, c.existing, c.toolFeatures, c.lists).Ok?;
    forall row, o | offers(row).Ok? && o in offers(row).value && o.Offer? && o.verdict == Ok(None) ensures P(o.key, o.item) {
      assert o == offers(row).value[0];
    }
    TakeUnseenKeeps(rows, offers, c.existing.Keys, P);
  }


  lemma OnlyOffer(os: seq<Offer>, o: Offer)
    requires |os| == 1 && o in os
    ensures o == os[0]
  {
  }

  // ---------------------------------------------------------------------------
  // Metadata

  /** Metadata rows: each parses into (name, value) pairs, and every pair not in the database is added once. */
  function MetadataOffers(parse: Val -> Result<seq<(Val, Val)>>, row: Val): (r: Result<seq<Offer>>)
    ensures r.Ok? <==> parse(row).Ok?
    ensures r.Ok? ==> |r.value| == |parse(row).value| && forall i :: 0 <= i < |r.value| ==>
      r.value[i] == Offer(Pair(parse(row).value[i].0, parse(row).value[i].1),
                          map["name" := parse(row).value[i].0, "value" := parse(row).value[i].1], Ok(None))
  {
    var pairs :- parse(row);
    Ok(seq(|pairs|, i requires 0 <= i < |pairs| => Offer(Pair(pairs[i].0, pairs[i].1), map["name" := pairs[i].0, "value" := pairs[i].1], Ok(None))))
  }

  /** _get_metadata_for_import: existing holds the (name, value) pairs in the database. */
  function MetadataPlan(parse: Val -> Result<seq<(Val, Val)>>, existing: set<Val>, rows: seq<Val>): Result<Taken>
  {
    TakeUnseen(rows, row => MetadataOffers(parse, row), existing)
  }

  /**
   * Metadata import logs nothing, adds no (name, value) pair twice or when
   * the database has it, and adds every parsed pair that is new.
   */
  lemma MetadataAddedOnce(parse: Val -> Result<seq<(Val, Val)>>, existing: set<Val>, rows: seq<Val>)
    requires MetadataPlan(parse, existing, rows).Ok?
    ensures (var t := MetadataPlan(parse, existing, rows).value;
             && |t.items| == |t.keys| && Distinct(t.keys) && (forall i :: 0 <= i < |t.keys| ==> t.keys[i] !in existing)
             && (forall i :: 0 <= i < |t.items| ==>
                   "name" in t.items[i] && "value" in t.items[i] && t.keys[i] == Pair(t.items[i]["name"], t.items[i]["value"]))
             && forall i, j :: 0 <= i < |rows| && parse(rows[i]).Ok? && 0 <= j < |parse(rows[i]).value| ==>
                  Pair(parse(rows[i]).value[j].0, parse(rows[i]).value[j].1) in existing + set k | k in t.keys)
  {
    var offers := row => MetadataOffers(parse, row);
    TakeUnseenValid(rows, offers, existing);
    var P := (key: Val, item: Item) => "name" in item && "value" in item && key == Pair(item["name"], item["value"]);
    TakeUnseenKeeps(rows, offers, existing, P);
    forall i, j | 0 <= i < |rows| && parse(rows[i]).Ok? && 0 <= j < |parse(rows[i]).value|
      ensures Pair(parse(rows[i]).value[j].0, parse(rows[i]).value[j].1) in MetadataPlan(parse, existing, rows).value.seen
    {
      assert offers(rows[i]).value[j] in offers(rows[i]).value;
    }
  }


  /** Every offer that passes links the field's value to a known metadata id, under the pair of the two as key. */
  ghost predicate LinksKnown(offers: seq<Offer>, field: string, metadataIds: map<Val, Val>)
  {
    forall o :: o in offers && o.Offer? ==>
      && o.verdict == Ok(None) && field in o.item && "metadata_id" in o.item
      && o.item["metadata_id"] in metadataIds.Values && o.key == Pair(o.item[field], o.item["metadata_id"])
  }

  /** The offers of an entity's or value's metadata: an unknown (name, value) pair is logged. */
  function EntityMetadataOffers(field: string, targetId: Val, pairs: seq<(Val, Val)>, metadataIds: map<Val, Val>, kind: string): (r: seq<Offer>)
    requires field != "metadata_id"
    ensures |r| == |pairs|
    ensures forall i :: 0 <= i < |r| ==>
      if Pair(pairs[i].0, pairs[i].1) in metadataIds && metadataIds[Pair(pairs[i].0, pairs[i].1)] != VNone then
        r[i] == Offer(Pair(targetId, metadataIds[Pair(pairs[i].0, pairs[i].1)]),
                      map[field := targetId, "metadata_id" := metadataIds[Pair(pairs[i].0, pairs[i].1)]], Ok(None))
      else
        r[i] == Offer.Refused(LogItem("Could not import " + kind + ": unknown metadata '" + Str(pairs[i].0) + "': '" + Str(pairs[i].1) + "'", kind))
  {
    seq(|pairs|, i requires 0 <= i < |pairs| =>
      var metadataId := GetVal(metadataIds, Pair(pairs[i].0, pairs[i].1), VNone);
      if metadataId == VNone then
        Offer.Refused(LogItem("Could not import " + kind + ": unknown metadata '" + Str(pairs[i].0) + "': '" + Str(pairs[i].1) + "'", kind))
      else Offer(Pair(targetId, metadataId), map[field := targetId, "metadata_id" := metadataId], Ok(None)))
  }

  lemma EntityMetadataOffersLink(field: string, targetId: Val, pairs: seq<(Val, Val)>, metadataIds: map<Val, Val>, kind: string)
    requires field != "metadata_id"
    ensures LinksKnown(EntityMetadataOffers(field, targetId, pairs, metadataIds, kind), field, metadataIds)
  {
    var offers := EntityMetadataOffers(field, targetId, pairs, metadataIds, kind);
    forall o | o in offers && o.Offer?
      ensures && o.verdict == Ok(None) && field in o.item && "metadata_id" in o.item
              && o.item["metadata_id"] in metadataIds.Values && o.key == Pair(o.item[field], o.item["metadata_id"])
    {
      var i :| 0 <= i < |offers| && offers[i] == o;
      assert Pair(pairs[i].0, pairs[i].1) in metadataIds;
    }
  }

  /**
   * The offers of one row once its entity or value is looked up: a target
   * not found is logged with the message given, else the metadata is parsed
   * and each pair offered.
   */
  function LinkOffers(c: MetadataContext, field: string, kind: string, targetId: Val, missing: string, metadata: Val): (r: Result<seq<Offer>>)
    requires field != "metadata_id"
    ensures targetId == VNone ==> r == Ok([Offer.Refused(LogItem(missing, kind))])
    ensures targetId != VNone ==> (r.Ok? <==> c.parse(metadata).Ok?)
    ensures r.Ok? ==> LinksKnown(r.value, field, c.metadataIds)
  {
    if targetId == VNone then Ok([Offer.Refused(LogItem(missing, kind))])
    else
      var pairs :- c.parse(metadata);
      EntityMetadataOffersLink(field, targetId, pairs, c.metadataIds, kind);
      Ok(EntityMetadataOffers(field, targetId, pairs, c.metadataIds, kind))
  }

  /** What the entity and value metadata planners read besides the rows. */
  datatype MetadataContext = MetadataContext(
    classIds: map<Val, Val>,                   // class name -> id
    classLists: map<Val, seq<Val>>,            // relationship class id -> object class ids
    objectIds: map<Val, Val>,                  // (object name, class id) -> id
    relationshipIds: map<Val, Val>,            // the (class id, object ids) key -> relationship id
    parameterIds: map<Val, Val>,               // (parameter name, class id) -> definition id
    alternativeIds: map<Val, Val>,             // alternative name -> id
    importAlternative: (Val, Val),             // get_import_alternative: id and name
    valueIds: map<Val, Val>,                   // (entity id, definition id, alternative id) -> value id
    metadataIds: map<Val, Val>,                // (name, value) -> metadata id
    parse: Val -> Result<seq<(Val, Val)>>,     // _parse_metadata
    existing: set<Val>)                        // (entity or value id, metadata id) pairs in the database

  /** An object metadata row: class and object names and the metadata; an unknown object is logged. */
  function ObjectMetadataOffers(c: MetadataContext, row: Val): (r: Result<seq<Offer>>)
    ensures r.Ok? ==> LinksKnown(r.value, "entity_id", c.metadataIds)
  {
    var parts :- UnpackExactly(row, 3);
    var classId := GetVal(c.classIds, parts[0], VNone);
    var objectId := GetVal(c.objectIds, Pair(parts[1], classId), VNone);
    LinkOffers(c, "entity_id", "object metadata", objectId,
               "Could not import object metadata: unknown object '" + Str(parts[1]) + "' of class '" + Str(parts[0]) + "'", parts[2])
  }

  /** The class id and the object ids of a relationship's object names, looked up in its class's object classes. */
  function RelationshipOf(c: MetadataContext, className: Val, objectNames: Val): Result<(Val, Val)>
  {
    var names :- Iterate(objectNames);
    var classId := GetVal(c.classIds, className, VNone);
    var classList := if classId in c.classLists then c.classLists[classId] else [];
    Ok((classId, VTuple(ObjectIdsOf(c.objectIds, names, classList))))
  }

  /** A relationship metadata row: class name, object names and the metadata; an unknown relationship is logged. */
  function RelationshipMetadataOffers(c: MetadataContext, row: Val): (r: Result<seq<Offer>>)
    ensures r.Ok? ==> LinksKnown(r.value, "entity_id", c.metadataIds)
  {
    var parts :- UnpackExactly(row, 3);
    var ids :- RelationshipOf(c, parts[0], parts[1]);
    var relationshipId := GetVal(c.relationshipIds, Pair(ids.0, ids.1), VNone);
    LinkOffers(c, "entity_id", "relationship metadata", relationshipId,
               "Could not import relationship metadata: unknown relationship '" + SeqText(parts[1]) + "' of class '" + Str(parts[0]) + "'",
               parts[2])
  }

  /** The alternative of a value metadata row: the one named (None when unknown), else the import alternative. */
  function RowAlternative(c: MetadataContext, optionals: seq<Val>): (a: (Val, Val))
    ensures optionals != [] ==> a.1 == optionals[0] && (a.0 != VNone ==> a.0 in c.alternativeIds.Values)
    ensures optionals == [] ==> a == c.importAlternative
  {
    if optionals == [] then c.importAlternative else (GetVal(c.alternativeIds, optionals[0], VNone), optionals[0])
  }

  /** An object value metadata row: class, object and parameter names, the metadata, optionally an alternative. */
  function ObjectValueMetadataOffers(c: MetadataContext, row: Val): (r: Result<seq<Offer>>)
    ensures r.Ok? ==> LinksKnown(r.value, "parameter_value_id", c.metadataIds)
  {
    var parts :- UnpackAtLeast(row, 4);
    var classId := GetVal(c.classIds, parts[0], VNone);
    var objectId := GetVal(c.objectIds, Pair(parts[1], classId), VNone);
    var parameterId := GetVal(c.parameterIds, Pair(parts[2], classId), VNone);
    var alternative := RowAlternative(c, parts[4..]);
    var valueId := GetVal(c.valueIds, Triple(objectId, parameterId, alternative.0), VNone);
    LinkOffers(c, "parameter_value_id", "object parameter value metadata", valueId,
               "Could not import object parameter value metadata: parameter " + Str(parts[2])
               + " doesn't have a value for object " + Str(parts[1]) + ", alternative " + Str(alternative.1), parts[3])
  }

  /**
   * A relationship value metadata row: class name, object names, parameter
   * name, the metadata, optionally an alternative. The relationship is found
   * under the (object ids, class id) key.
   */
  function RelationshipValueMetadataOffers(c: MetadataContext, row: Val): (r: Result<seq<Offer>>)
    ensures r.Ok? ==> LinksKnown(r.value, "parameter_value_id", c.metadataIds)
  {
    var parts :- UnpackAtLeast(row, 4);
    var ids :- RelationshipOf(c, parts[0], parts[1]);
    var relationshipId := GetVal(c.relationshipIds, Pair(ids.1, ids.0), VNone);
    var parameterId := GetVal(c.parameterIds, Pair(parts[2], ids.0), VNone);
    var alternative := RowAlternative(c, parts[4..]);
    var valueId := GetVal(c.valueIds, Triple(relationshipId, parameterId, alternative.0), VNone);
    LinkOffers(c, "parameter_value_id", "relationship parameter value metadata", valueId,
               "Could not import relationship parameter value metadata: parameter '" + Str(parts[2])
               + "' doesn't have a value for relationship '" + SeqText(parts[1]) + "', alternative '" + Str(alternative.1) + "'", parts[3])
  }

  /** The four planners linking metadata to entities or values. */
  datatype MetadataKind = ObjectMetadata | RelationshipMetadata | ObjectValueMetadata | RelationshipValueMetadata
  {
    /** The item field naming what the metadata is linked to. */
    function Field(): string
    {
      if ObjectMetadata? || RelationshipMetadata? then "entity_id" else "parameter_value_id"
    }
  }

  function KindOffers(c: MetadataContext, kind: MetadataKind, row: Val): (r: Result<seq<Offer>>)
    ensures r.Ok? ==> LinksKnown(r.value, kind.Field(), c.metadataIds)
  {
    match kind
    case ObjectMetadata => ObjectMetadataOffers(c, row)
    case RelationshipMetadata => RelationshipMetadataOffers(c, row)
    case ObjectValueMetadata => ObjectValueMetadataOffers(c, row)
    case RelationshipValueMetadata => RelationshipValueMetadataOffers(c, row)
  }

  /** _get_object_metadata_for_import and its three siblings, from the links already in the database. */
  function EntityMetadataPlan(c: MetadataContext, kind: MetadataKind, rows: seq<Val>): Result<Taken>
  {
    TakeUnseen(rows, row => KindOffers(c, kind, row), c.existing)
  }

  /**
   * The object, relationship and value metadata planners add no link twice
   * or when the database has it, and every link added names a known
   * metadata id.
   */
  lemma EntityMetadataAddedOnce(c: MetadataContext, kind: MetadataKind, rows: seq<Val>)
    requires EntityMetadataPlan(c, kind, rows).Ok?
    ensures (var t := EntityMetadataPlan(c, kind, rows).value;
             && |t.items| == |t.keys| && Distinct(t.keys)
             && (forall i :: 0 <= i < |t.keys| ==> t.keys[i] !in c.existing)
             && forall i :: 0 <= i < |t.items| ==>
                  && kind.Field() in t.items[i] && "metadata_id" in t.items[i] && t.items[i]["metadata_id"] in c.metadataIds.Values
                  && t.keys[i] == Pair(t.items[i][kind.Field()], t.items[i]["metadata_id"]))
  {
    var offers := row => KindOffers(c, kind, row);
    TakeUnseenValid(rows, offers, c.existing);
    var field := kind.Field();
    var P := (key: Val, item: Item) =>
      field in item && "metadata_id" in item && item["metadata_id"] in c.metadataIds.Values && key == Pair(item[field], item["metadata_id"]);
    TakeUnseenKeeps(rows, offers, c.existing, P);
  }

  /** An object metadata row for an unknown object is logged and adds nothing. */
  lemma UnknownObjectLogged(c: MetadataContext, className: Val, objectName: Val, metadata: Val)
    requires GetVal(c.objectIds, Pair(objectName, GetVal(c.classIds, className, VNone)), VNone) == VNone
    ensures ObjectMetadataOffers(c, VTuple([className, objectName, metadata]))
      == Ok([Offer.Refused(LogItem("Could not import object metadata: unknown object '" + Str(objectName) + "' of class '" + Str(className) + "'",
                                   "object metadata"))])
  {
  }
}
