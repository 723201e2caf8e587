// Adding items (spinedb_api/db_mapping_add_mixin.py, with the overrides of
// spinedb_api/diff_db_mapping.py that stage the rows): ids are reserved
// from the next_id row, each item is split into the rows of the physical
// tables it lives in, the rows go into the diff tables, and their ids join
// the added sets. Extended metadata items reuse the metadata pairs that
// already exist and add the missing ones.

module AddMixin {
  import opened Errors
  import opened MappingBase
  import opened CacheItems
  import opened DiffBase

  // ---------------------------------------------------------------------------
  // Id reservation

  /** The next_id column counting the ids of a table; the tables without one raise KeyError. */
  function NextIdField(t: Table): Option<string>
  {
    match t
    case ObjectClass | RelationshipClass => Some("entity_class_id")
    case Object | Relationship => Some("entity_id")
    case EntityGroup => Some("entity_group_id")
    case ParameterDefinition => Some("parameter_definition_id")
    case ParameterValue => Some("parameter_value_id")
    case ParameterValueList => Some("parameter_value_list_id")
    case ListValue => Some("list_value_id")
    case Alternative => Some("alternative_id")
    case Scenario => Some("scenario_id")
    case ScenarioAlternative => Some("scenario_alternative_id")
    case Tool => Some("tool_id")
    case Feature => Some("feature_id")
    case ToolFeature => Some("tool_feature_id")
    case ToolFeatureMethod => Some("tool_feature_method_id")
    case Metadata => Some("metadata_id")
    case ParameterValueMetadata => Some("parameter_value_metadata_id")
    case EntityMetadata => Some("entity_metadata_id")
    case _ => None
  }

  /** SELECT max(id): the largest integer id among the rows, None when there is none. */
  function MaxId(t: Table, rows: seq<Row>): (m: Option<int>)
    ensures m.None? <==> forall x :: x in rows ==> !RowId(t, x).IntV?
    ensures m.Some? ==> forall x :: x in rows && RowId(t, x).IntV? ==> RowId(t, x).i <= m.value
  {
    if rows == [] then None
    else
      var rest := MaxId(t, rows[1..]);
      var v := RowId(t, rows[0]);
      if !v.IntV? then rest
      else if rest.Some? && rest.value >= v.i then rest
      else Some(v.i)
  }

  /** `max_id + 1 if max_id else 1`: a maximum of 0 or no maximum starts at 1. */
  function FirstFree(m: Option<int>): (r: int)
    ensures m.Some? ==> r > m.value
  {
    if m.Some? && m.value != 0 then m.value + 1 else 1
  }

  /** The non-NULL counters of the next_id row; no row counts as all NULL. */
  function Counters(row: Option<map<string, int>>): map<string, int>
  {
    if row.Some? then row.value else map[]
  }

  /**
   * _do_reserve_ids on values: the first id reserved for count items of
   * the table, and the counters written back.
   */
  function Reservation(row: Option<map<string, int>>, rows: seq<Row>, t: Table, count: nat): (r: Result<(int, map<string, int>)>)
    ensures r.Err? <==> NextIdField(t).None?
    ensures r.Err? ==> r.error == KeyError(t.Name())
    ensures r.Ok? ==> r.value.1 == Counters(row)[NextIdField(t).value := r.value.0 + count]
    ensures r.Ok? && NextIdField(t).value in Counters(row) ==> r.value.0 == Counters(row)[NextIdField(t).value]
  {
    match NextIdField(t)
    case None => Err(KeyError(t.Name()))
    case Some(field) =>
      var start := if field in Counters(row) then Counters(row)[field] else FirstFree(MaxId(t, rows));
      Ok((start, Counters(row)[field := start + count]))
  }

  /** Without a stored counter, every reserved id is above every id already in the table. */
  lemma ReservedAboveExisting(row: Option<map<string, int>>, rows: seq<Row>, t: Table, count: nat)
    requires NextIdField(t).Some? && NextIdField(t).value !in Counters(row)
    ensures Reservation(row, rows, t, count).Ok?
    ensures forall x :: x in rows && RowId(t, x).IntV? ==> RowId(t, x).i < Reservation(row, rows, t, count).value.0
  {
    var m := MaxId(t, rows);
    assert Reservation(row, rows, t, count).value.0 == FirstFree(m);
    if m.None? {
      assert forall x :: x in rows ==> !RowId(t, x).IntV?;
    }
  }

  /**
   * Two reservations in a row from tables sharing a counter (object and
   * relationship share entity_id) hand out adjacent ranges: the second
   * starts where the first ended, so no id is handed out twice.
   */
  lemma ReservationsAdjacent(row: Option<map<string, int>>, rows1: seq<Row>, t1: Table, c1: nat,
                             rows2: seq<Row>, t2: Table, c2: nat)
    requires NextIdField(t1).Some? && NextIdField(t2) == NextIdField(t1)
    ensures Reservation(row, rows1, t1, c1).Ok?
    ensures var first := Reservation(row, rows1, t1, c1).value;
      Reservation(Some(first.1), rows2, t2, c2).Ok?
      && Reservation(Some(first.1), rows2, t2, c2).value.0 == first.0 + c1
  {
  }

  // ---------------------------------------------------------------------------
  // Ids and commit ids of the items

  /** The items with commit_id None (what _make_commit_id gives) and consecutive ids from start. */
  function Stamped(items: seq<Fields>, start: int): (r: seq<Fields>)
    ensures |r| == |items|
    ensures forall i :: 0 <= i < |items| ==> r[i] == items[i]["commit_id" := NoneV]["id" := IntV(start + i)]
  {
    seq(|items|, i requires 0 <= i < |items| => items[i]["commit_id" := NoneV]["id" := IntV(start + i)])
  }

  /** The ids reserved for n items starting at start. */
  function Range(start: int, n: nat): (r: set<int>)
    ensures forall i :: i in r <==> start <= i < start + n
  {
    if n == 0 then {} else Range(start, n - 1) + {start + n - 1}
  }

  /** `{x["id"] for x in items}`, over the items whose id is an integer. */
  function ItemIds(items: seq<Fields>): set<int>
  {
    set x | x in items && Get(x, "id").IntV? :: Get(x, "id").i
  }

  /** The stamped items carry exactly the ids start, ..., start + |items| - 1. */
  lemma StampedIds(items: seq<Fields>, start: int)
    ensures ItemIds(Stamped(items, start)) == Range(start, |items|)
  {
    var s := Stamped(items, start);
    forall i | start <= i < start + |items|
      ensures i in ItemIds(s)
    {
      assert s[i - start] in s && Get(s[i - start], "id") == IntV(i);
    }
    forall i | i in ItemIds(s)
      ensures start <= i < start + |items|
    {
      var x :| x in s && Get(x, "id").IntV? && Get(x, "id").i == i;
      var k :| 0 <= k < |s| && s[k] == x;
    }
  }

  /** No two stamped items share an id. */
  lemma StampedDistinct(items: seq<Fields>, start: int, i: int, j: int)
    requires 0 <= i < j < |items|
    ensures Get(Stamped(items, start)[i], "id") != Get(Stamped(items, start)[j], "id")
  {
  }

  // ---------------------------------------------------------------------------
  // Splitting items over the physical tables

  /** The entity class and entity type ids the mapping reads from the database at start. */
  datatype Types = Types(objectClass: int, relationshipClass: int, objectEntity: int, relationshipEntity: int)

  /**
   * The types, and the rows that get_relationship_entity_class_items and
   * get_relationship_entity_items of spinedb_api/helpers.py derive from a
   * relationship class or a relationship; those two helpers are not part
   * of this model.
   */
  datatype Env = Env(types: Types, classMembers: Fields -> seq<Fields>, members: Fields -> seq<Fields>)

  /** The type id _items_with_type_id stamps on the items of a table, if any. */
  function TypeIdOf(t: Table, types: Types): Option<int>
  {
    match t
    case ObjectClass => Some(types.objectClass)
    case RelationshipClass => Some(types.relationshipClass)
    case Object => Some(types.objectEntity)
    case Relationship => Some(types.relationshipEntity)
    case _ => None
  }

  /** _items_with_type_id: the four entity tables get their type_id, the others are left alone. */
  function WithTypeId(t: Table, items: seq<Fields>, types: Types): (r: seq<Fields>)
    ensures |r| == |items|
    ensures TypeIdOf(t, types).None? ==> r == items
    ensures forall i :: 0 <= i < |items| ==> Get(r[i], "id") == Get(items[i], "id")
    ensures TypeIdOf(t, types).Some? ==>
      forall i :: 0 <= i < |items| ==> r[i] == items[i]["type_id" := IntV(TypeIdOf(t, types).value)]
  {
    match TypeIdOf(t, types)
    case None => items
    case Some(ty) => seq(|items|, i requires 0 <= i < |items| => items[i]["type_id" := IntV(ty)])
  }

  /** The physical tables an item of the table is written to, in order. */
  function SplitTables(t: Table): seq<Table>
  {
    match t
    case ObjectClass => [EntityClass, ObjectClass]
    case Object => [Entity, Object]
    case RelationshipClass => [EntityClass, RelationshipClass, RelationshipEntityClass]
    case Relationship => [Entity, Relationship, RelationshipEntity]
    case _ => [t]
  }

  /** A parameter definition takes its entity class from object_class_id, relationship_class_id or entity_class_id. */
  function DefinitionRow(item: Fields): (r: Fields)
    ensures r.Keys == item.Keys + {"entity_class_id"}
    ensures Get(item, "object_class_id").Truthy() ==> r["entity_class_id"] == Get(item, "object_class_id")
    ensures !Get(item, "object_class_id").Truthy() && Get(item, "relationship_class_id").Truthy() ==>
      r["entity_class_id"] == Get(item, "relationship_class_id")
    ensures !Get(item, "object_class_id").Truthy() && !Get(item, "relationship_class_id").Truthy() ==>
      r["entity_class_id"] == Get(item, "entity_class_id")
    ensures forall k :: k in item && k != "entity_class_id" ==> r[k] == item[k]
  {
    item["entity_class_id" := Or(Get(item, "object_class_id"), Or(Get(item, "relationship_class_id"), Get(item, "entity_class_id")))]
  }

  /** A parameter value takes entity_id (object, relationship, entity) and then entity_class_id the same way. */
  function ValueRow(item: Fields): (r: Fields)
    ensures r.Keys == item.Keys + {"entity_id", "entity_class_id"}
    ensures Get(item, "object_id").Truthy() ==> r["entity_id"] == Get(item, "object_id")
    ensures !Get(item, "object_id").Truthy() && Get(item, "relationship_id").Truthy() ==>
      r["entity_id"] == Get(item, "relationship_id")
    ensures !Get(item, "object_id").Truthy() && !Get(item, "relationship_id").Truthy() ==>
      r["entity_id"] == Get(item, "entity_id")
    ensures r["entity_class_id"] == DefinitionRow(item)["entity_class_id"]
    ensures forall k :: k in item && k != "entity_id" && k != "entity_class_id" ==> r[k] == item[k]
  {
    var e := Or(Get(item, "object_id"), Or(Get(item, "relationship_id"), Get(item, "entity_id")));
    DefinitionRow(item["entity_id" := e])
  }

  /**
   * The first batch: the items themselves, where a parameter definition or
   * value first gets its entity columns.
   */
  function FirstBatch(t: Table, items: seq<Fields>): (r: seq<Fields>)
    ensures |r| == |items|
  {
    match t
    case ParameterDefinition => seq(|items|, i requires 0 <= i < |items| => DefinitionRow(items[i]))
    case ParameterValue => seq(|items|, i requires 0 <= i < |items| => ValueRow(items[i]))
    case _ => items
  }

  /** The subtype rows of the four entity tables: one per item, holding its id and type. */
  function SubtypeRows(t: Table, items: seq<Fields>, types: Types): (r: seq<Fields>)
    ensures |r| == |items|
  {
    seq(|items|, i requires 0 <= i < |items| =>
      match t
      case ObjectClass => map["entity_class_id" := Get(items[i], "id"), "type_id" := IntV(types.objectClass)]
      case Object => map["entity_id" := Get(items[i], "id"), "type_id" := Get(items[i], "type_id")]
      case RelationshipClass => map["entity_class_id" := Get(items[i], "id"), "type_id" := IntV(types.relationshipClass)]
      case _ => map["entity_id" := Get(items[i], "id"), "entity_class_id" := Get(items[i], "class_id"),
                    "type_id" := IntV(types.relationshipEntity)])
  }

  /** The member rows of relationship classes and relationships, item after item. */
  function MemberRows(t: Table, items: seq<Fields>, env: Env): seq<Fields>
  {
    if items == [] then []
    else
      var n := |items| - 1;
      MemberRows(t, items[..n], env) + (if t.RelationshipClass? then env.classMembers(items[n]) else env.members(items[n]))
  }

  /**
   * _items_to_add_per_table: the batches of rows for each physical table,
   * in the order they are inserted.
   */
  function PerTable(t: Table, items: seq<Fields>, env: Env): (r: seq<(Table, seq<Fields>)>)
    ensures |r| == |SplitTables(t)|
    ensures forall k :: 0 <= k < |r| ==> r[k].0 == SplitTables(t)[k]
    ensures r[0].1 == FirstBatch(t, items)
  {
    match t
    case ObjectClass => [(EntityClass, items), (ObjectClass, SubtypeRows(t, items, env.types))]
    case Object => [(Entity, items), (Object, SubtypeRows(t, items, env.types))]
    case RelationshipClass =>
      [(EntityClass, items), (RelationshipClass, SubtypeRows(t, items, env.types)),
       (RelationshipEntityClass, MemberRows(t, items, env))]
    case Relationship =>
      [(Entity, items), (Relationship, SubtypeRows(t, items, env.types)),
       (RelationshipEntity, MemberRows(t, items, env))]
    case _ => [(t, FirstBatch(t, items))]
  }

  /**
   * Inserting leaves the items of the four entity tables with the
   * mapping's type id; without a connection nothing is touched.
   */
  lemma WrittenTypeId(t: Table, items: seq<Fields>, env: Env, i: nat)
    requires TypeIdOf(t, env.types).Some? && i < |items|
    ensures Written(t, items, env, true)[i]["type_id"] == IntV(TypeIdOf(t, env.types).value)
    ensures Written(t, items, env, false) == items
  {
  }

  /**
   * An entity class or an entity is one id across its physical tables: the
   * i-th row of the first two batches has the i-th item's id in the
   * table's id column.
   */
  lemma SplitKeepsIds(t: Table, items: seq<Fields>, env: Env, k: nat, i: nat)
    requires t.ObjectClass? || t.Object? || t.RelationshipClass? || t.Relationship?
    requires k < 2 && i < |items|
    ensures |PerTable(t, items, env)[k].1| == |items|
    ensures RowId(PerTable(t, items, env)[k].0, PerTable(t, items, env)[k].1[i]) == Get(items[i], "id")
  {
  }

  /** The subtype rows carry the type: the mapping's type ids, and for an object the item's own type_id. */
  lemma SubtypeRowsType(t: Table, items: seq<Fields>, types: Types, i: nat)
    requires TypeIdOf(t, types).Some? && i < |items|
    ensures t != Object ==> SubtypeRows(t, items, types)[i]["type_id"] == IntV(TypeIdOf(t, types).value)
    ensures t == Object ==> SubtypeRows(t, items, types)[i]["type_id"] == Get(items[i], "type_id")
  {
  }

  /** All rows a list of batches writes to table u, in order. */
  function BatchOf(batches: seq<(Table, seq<Fields>)>, u: Table): seq<Row>
  {
    if batches == [] then []
    else
      var last := batches[|batches| - 1];
      BatchOf(batches[..|batches| - 1], u) + (if last.0 == u then last.1 else [])
  }

  /** The diff tables after appending each batch to its table in turn. */
  function InsertAll(d: Tables, batches: seq<(Table, seq<Fields>)>): Tables
  {
    if batches == [] then d
    else
      var last := batches[|batches| - 1];
      var before := InsertAll(d, batches[..|batches| - 1]);
      SetRows(before, last.0, RowsOf(before, last.0) + last.1)
  }

  /** Each table ends up with its old rows followed by every batch meant for it, in order. */
  lemma {:induction false} InsertAllRows(d: Tables, batches: seq<(Table, seq<Fields>)>, u: Table)
    ensures RowsOf(InsertAll(d, batches), u) == RowsOf(d, u) + BatchOf(batches, u)
    decreases |batches|
  {
    if batches != [] {
      InsertAllRows(d, batches[..|batches| - 1], u);
    }
  }

  /** The rows written to a table outside the split are none. */
  lemma {:induction false} BatchOfOther(batches: seq<(Table, seq<Fields>)>, u: Table)
    requires forall k :: 0 <= k < |batches| ==> batches[k].0 != u
    ensures BatchOf(batches, u) == []
    decreases |batches|
  {
    if batches != [] {
      BatchOfOther(batches[..|batches| - 1], u);
    }
  }

  // ---------------------------------------------------------------------------
  // Writing the rows and recording the ids

  /**
   * _add_commit_id_and_ids: nothing for no items; otherwise ids are
   * reserved and the items get them in order, with the commit id.
   */
  method AddCommitIdAndIds(db: Store, t: Table, items: seq<Fields>) returns (r: Result<seq<Fields>>)
    modifies db
    ensures items == [] ==> r == Ok(items) && db.nextId == old(db.nextId)
    ensures items != [] ==> match Reservation(old(db.nextId), RowsOf(db.orig, t), t, |items|)
      case Err(e) => r == Err(e) && db.nextId == old(db.nextId)
      case Ok(res) => r == Ok(Stamped(items, res.0)) && db.nextId == Some(res.1)
    ensures db.committing == old(db.committing) && db.orig == old(db.orig) && db.diff == old(db.diff)
    ensures db.added == old(db.added) && db.updated == old(db.updated) && db.removed == old(db.removed)
    ensures db.dirty == old(db.dirty) && db.built == old(db.built) && db.commits == old(db.commits)
  {
    if items == [] {
      return Ok(items);
    }
    var res := DoReserveIds(db, t, |items|);
    if res.Err? {
      return Err(res.error);
    }
    var start := res.value.0;
    var out: seq<Fields> := [];
    for i := 0 to |items|
      invariant out == Stamped(items, start)[..i]
    {
      out := out + [items[i]["commit_id" := NoneV]["id" := IntV(start + i)]];
    }
    assert Stamped(items, start)[..|items|] == Stamped(items, start);
    return Ok(out);
  }

  /** _do_reserve_ids: the next_id row is read, advanced by count and written back. */
  method DoReserveIds(db: Store, t: Table, count: nat) returns (r: Result<(int, map<string, int>)>)
    modifies db
    ensures r == Reservation(old(db.nextId), RowsOf(db.orig, t), t, count)
    ensures r.Ok? ==> db.nextId == Some(r.value.1)
    ensures r.Err? ==> db.nextId == old(db.nextId)
    ensures db.committing == old(db.committing) && db.orig == old(db.orig) && db.diff == old(db.diff)
    ensures db.added == old(db.added) && db.updated == old(db.updated) && db.removed == old(db.removed)
    ensures db.dirty == old(db.dirty) && db.built == old(db.built) && db.commits == old(db.commits)
  {
    if NextIdField(t).None? {
      return Err(KeyError(t.Name()));
    }
    var field := NextIdField(t).value;
    var counters := Counters(db.nextId);
    var next: int;
    if field in counters {
      next := counters[field];
    } else {
      next := FirstFree(MaxId(t, RowsOf(db.orig, t)));
    }
    ReservationStarts(db.nextId, RowsOf(db.orig, t), t, count, field);
    r := Ok((next, counters[field := next + count]));
    db.nextId := Some(counters[field := next + count]);
  }

  lemma ReservationStarts(row: Option<map<string, int>>, rows: seq<Row>, t: Table, count: nat, field: string)
    requires NextIdField(t) == Some(field)
    ensures var start := if field in Counters(row) then Counters(row)[field] else FirstFree(MaxId(t, rows));
      Reservation(row, rows, t, count) == Ok((start, Counters(row)[field := start + count]))
  {
  }

  /**
   * The items as the insertion leaves them: with their type id, and a
   * parameter definition or value with its entity columns filled in.
   * Nothing is touched when not committing.
   */
  function Written(t: Table, items: seq<Fields>, env: Env, committing: bool): (r: seq<Fields>)
    ensures |r| == |items|
  {
    if committing then FirstBatch(t, WithTypeId(t, items, env.types)) else items
  }

  /**
   * _do_add_items with the diff tables as insert targets: nothing when not
   * committing; otherwise each batch of the split is appended to its diff
   * table and the table is reported.
   */
  method DoAddItems(db: Store, t: Table, items: seq<Fields>, env: Env) returns (tables: seq<Table>, written: seq<Fields>)
    modifies db
    ensures written == Written(t, items, env, old(db.committing))
    ensures !old(db.committing) ==> tables == [] && db.diff == old(db.diff)
    ensures old(db.committing) ==> tables == SplitTables(t)
    ensures old(db.committing) ==> db.diff == InsertAll(old(db.diff), PerTable(t, WithTypeId(t, items, env.types), env))
    ensures db.committing == old(db.committing) && db.orig == old(db.orig) && db.nextId == old(db.nextId)
    ensures db.added == old(db.added) && db.updated == old(db.updated) && db.removed == old(db.removed)
    ensures db.dirty == old(db.dirty) && db.built == old(db.built) && db.commits == old(db.commits)
  {
    if !db.committing {
      return [], items;
    }
    var split := PerTable(t, WithTypeId(t, items, env.types), env);
    tables := InsertBatches(db, split);
    PerTableTables(t, WithTypeId(t, items, env.types), env);
    written := split[0].1;
  }

  lemma PerTableTables(t: Table, items: seq<Fields>, env: Env)
    ensures TablesOf(PerTable(t, items, env)) == SplitTables(t)
  {
  }

  /** The tables of the batches, in order. */
  function TablesOf(batches: seq<(Table, seq<Fields>)>): (r: seq<Table>)
    ensures |r| == |batches| && forall k :: 0 <= k < |batches| ==> r[k] == batches[k].0
  {
    seq(|batches|, k requires 0 <= k < |batches| => batches[k].0)
  }

  /** The insert loop of _do_add_items: each batch is appended to its diff table. */
  method InsertBatches(db: Store, batches: seq<(Table, seq<Fields>)>) returns (tables: seq<Table>)
    modifies db
    ensures tables == TablesOf(batches)
    ensures db.diff == InsertAll(old(db.diff), batches)
    ensures db.committing == old(db.committing) && db.orig == old(db.orig) && db.nextId == old(db.nextId)
    ensures db.added == old(db.added) && db.updated == old(db.updated) && db.removed == old(db.removed)
    ensures db.dirty == old(db.dirty) && db.built == old(db.built) && db.commits == old(db.commits)
  {
    tables := [];
    for k := 0 to |batches|
      invariant tables == TablesOf(batches[..k])
      invariant db.diff == InsertAll(old(db.diff), batches[..k])
      invariant db.committing == old(db.committing) && db.orig == old(db.orig) && db.nextId == old(db.nextId)
      invariant db.added == old(db.added) && db.updated == old(db.updated) && db.removed == old(db.removed)
      invariant db.dirty == old(db.dirty) && db.built == old(db.built) && db.commits == old(db.commits)
    {
      assert batches[..k + 1][..k] == batches[..k];
      db.diff := SetRows(db.diff, batches[k].0, RowsOf(db.diff, batches[k].0) + batches[k].1);
      tables := tables + [batches[k].0];
    }
    assert batches[..|batches|] == batches;
  }

  /** The added sets after ids were added to each of the tables. */
  function AddedTo(s: Sets, tables: seq<Table>, ids: set<int>): (r: Sets)
    ensures forall u :: Of(r, u) == if u in tables then Of(s, u) + ids else Of(s, u)
  {
    if tables == [] then s
    else
      var rest := AddedTo(s, tables[..|tables| - 1], ids);
      var u := tables[|tables| - 1];
      assert forall v :: v in tables <==> v in tables[..|tables| - 1] || v == u;
      SetIds(rest, u, Of(rest, u) + ids)
  }

  /** Recording ids in the added sets of several tables and clearing their subqueries. */
  method RecordAdded(db: Store, tables: seq<Table>, ids: set<int>)
    modifies db
    ensures db.added == AddedTo(old(db.added), tables, ids)
    ensures forall u :: u in db.built <==> u in old(db.built) && u !in tables
    ensures db.committing == old(db.committing) && db.orig == old(db.orig) && db.diff == old(db.diff)
    ensures db.nextId == old(db.nextId) && db.commits == old(db.commits)
    ensures db.updated == old(db.updated) && db.removed == old(db.removed) && db.dirty == old(db.dirty)
  {
    for k := 0 to |tables|
      invariant db.added == AddedTo(old(db.added), tables[..k], ids)
      invariant forall u :: u in db.built <==> u in old(db.built) && u !in tables[..k]
      invariant db.committing == old(db.committing) && db.orig == old(db.orig) && db.diff == old(db.diff)
      invariant db.nextId == old(db.nextId) && db.commits == old(db.commits)
      invariant db.updated == old(db.updated) && db.removed == old(db.removed) && db.dirty == old(db.dirty)
    {
      assert tables[..k + 1][..k] == tables[..k];
      assert forall u :: u in tables[..k + 1] <==> u in tables[..k] || u == tables[k];
      db.added := SetIds(db.added, tables[k], Of(db.added, tables[k]) + ids);
      db.ClearSubqueries({tables[k]});
    }
    assert tables[..|tables|] == tables;
  }

  /**
   * _add_items of the diff mapping: the items get fresh ids, their rows go
   * into the diff tables and the ids into the added set of every table
   * written. Gives back the items as written and their ids. The staged
   * rows show in the view of each of those tables.
   */
  method AddItemsStaged(db: Store, t: Table, items: seq<Fields>, env: Env) returns (r: Result<(seq<Fields>, set<int>)>)
    requires db.Valid()
    modifies db
    ensures db.Valid()
    ensures items == [] ==> r == Ok(([], {})) && db.nextId == old(db.nextId)
    ensures r.Err? <==> items != [] && NextIdField(t).None?
    ensures r.Err? ==> r.error == KeyError(t.Name())
    ensures r.Ok? && items != [] ==> var start := Reservation(old(db.nextId), RowsOf(old(db.orig), t), t, |items|).value.0;
      r.value.0 == Written(t, Stamped(items, start), env, old(db.committing))
      && r.value.1 == Range(start, |items|)
    ensures r.Ok? ==> forall u :: (Of(db.added, u) ==
      if old(db.committing) && u in SplitTables(t) then Of(old(db.added), u) + r.value.1 else Of(old(db.added), u))
    ensures r.Ok? && old(db.committing) && items != [] ==> forall u :: u in SplitTables(t) ==> db.Staged(u)
    ensures r.Ok? && old(db.committing) && items != [] ==> var start := Reservation(old(db.nextId), RowsOf(old(db.orig), t), t, |items|).value.0;
      forall u :: (RowsOf(db.diff, u) == RowsOf(old(db.diff), u) + BatchOf(PerTable(t, WithTypeId(t, Stamped(items, start), env.types), env), u))
    ensures db.committing == old(db.committing) && db.orig == old(db.orig) && db.commits == old(db.commits)
    ensures db.updated == old(db.updated) && db.removed == old(db.removed) && db.dirty == old(db.dirty)
  {
    var stamped := AddCommitIdAndIds(db, t, items);
    if stamped.Err? {
      return Err(stamped.error);
    }
    var ids := ItemIds(stamped.value);
    if items == [] {
      assert ids == {};
    } else {
      StampedIds(items, Reservation(old(db.nextId), RowsOf(db.orig, t), t, |items|).value.0);
    }
    ghost var diff0 := db.diff;
    var tables, written := DoAddItems(db, t, stamped.value, env);
    if old(db.committing) {
      forall u
        ensures RowsOf(db.diff, u) == RowsOf(diff0, u) + BatchOf(PerTable(t, WithTypeId(t, stamped.value, env.types), env), u)
      {
        InsertAllRows(diff0, PerTable(t, WithTypeId(t, stamped.value, env.types), env), u);
      }
    }
    RecordAdded(db, tables, ids);
    r := Ok((written, ids));
    if old(db.committing) && items != [] {
      forall u | u in SplitTables(t)
        ensures db.Staged(u)
      {
        assert Reservation(old(db.nextId), RowsOf(db.orig, t), t, |items|).value.0 in ids;
      }
    }
  }

  /** _readd_items of the diff mapping: rows written as given, their ids recorded as added. */
  method ReaddItems(db: Store, t: Table, items: seq<Fields>, env: Env) returns (ids: set<int>)
    requires db.Valid()
    modifies db
    ensures db.Valid()
    ensures ids == ItemIds(items)
    ensures forall u :: (Of(db.added, u) ==
      if old(db.committing) && u in SplitTables(t) then Of(old(db.added), u) + ids else Of(old(db.added), u))
    ensures old(db.committing) ==> forall u :: (RowsOf(db.diff, u) ==
      RowsOf(old(db.diff), u) + BatchOf(PerTable(t, WithTypeId(t, items, env.types), env), u))
    ensures db.nextId == old(db.nextId)
    ensures db.committing == old(db.committing) && db.orig == old(db.orig) && db.commits == old(db.commits)
    ensures db.updated == old(db.updated) && db.removed == old(db.removed) && db.dirty == old(db.dirty)
  {
    ids := ItemIds(items);
    var tables, _ := DoAddItems(db, t, items, env);
    if old(db.committing) {
      forall u
        ensures RowsOf(db.diff, u) == RowsOf(old(db.diff), u) + BatchOf(PerTable(t, WithTypeId(t, items, env.types), env), u)
      {
        InsertAllRows(old(db.diff), PerTable(t, WithTypeId(t, items, env.types), env), u);
      }
    }
    RecordAdded(db, tables, ids);
  }

  /** What add_items returns besides the errors: ids, or the items themselves. */
  datatype Added = AddedIds(ids: set<int>) | AddedItems(items: seq<Fields>)

  /** The ids that integrity errors carry, when the id is truthy (return_dups). */
  function DupIds(errors: seq<Error>): set<int>
  {
    set e | e in errors && e.SpineIntegrityError? && e.id.Some? && e.id.value != 0 :: e.id.value
  }

  /**
   * add_items. checkOutcome stands for what check_items (the check mixin)
   * answers for the items: the items that pass and the violations, or the
   * first violation when strict.
   */
  method AddItems(db: Store, t: Table, items: seq<Fields>, env: Env, check: bool, returnDups: bool,
                  returnItems: bool, readd: bool, checkOutcome: Result<(seq<Fields>, seq<Error>)>)
    returns (r: Result<(Added, seq<Error>)>)
    requires db.Valid()
    modifies db
    ensures db.Valid()
    // re-adding skips the checks and gives back what it was given
    ensures readd ==> r.Ok? && r.value.1 == [] && db.nextId == old(db.nextId)
    ensures readd && returnItems ==> r.value.0 == AddedItems(items)
    ensures readd && !returnItems ==> r.value.0 == AddedIds(ItemIds(items))
    // a strict check that fails stops everything
    ensures !readd && check && checkOutcome.Err? ==> r == Err(checkOutcome.error) && db.added == old(db.added)
    ensures !readd && (!check || checkOutcome.Ok?) ==> var checked := if check then checkOutcome.value.0 else items;
      var errors := if check then checkOutcome.value.1 else [];
      var start := Reservation(old(db.nextId), RowsOf(old(db.orig), t), t, |checked|);
      if checked == [] then
        r == Ok((if returnItems then AddedItems([]) else AddedIds(if returnDups then DupIds(errors) else {}), errors))
      else if start.Err? then r == Err(start.error)
      else if returnItems then r == Ok((AddedItems(Written(t, Stamped(checked, start.value.0), env, old(db.committing))), errors))
      else r == Ok((AddedIds(Range(start.value.0, |checked|) + if returnDups then DupIds(errors) else {}), errors))
  {
    if readd {
      var ids := ReaddItems(db, t, items, env);
      if returnItems {
        return Ok((AddedItems(items), []));
      }
      return Ok((AddedIds(ids), []));
    }
    var checked: seq<Fields>;
    var errors: seq<Error>;
    if check {
      if checkOutcome.Err? {
        return Err(checkOutcome.error);
      }
      checked, errors := checkOutcome.value.0, checkOutcome.value.1;
    } else {
      checked, errors := items, [];
    }
    var staged := AddItemsStaged(db, t, checked, env);
    if staged.Err? {
      return Err(staged.error);
    }
    if returnItems {
      return Ok((AddedItems(staged.value.0), errors));
    }
    var ids := staged.value.1;
    if returnDups {
      ids := ids + DupIds(errors);
    }
    if checked == [] {
      assert staged.value.1 == {};
      assert ids == if returnDups then DupIds(errors) else {};
    } else {
      ghost var start := Reservation(old(db.nextId), RowsOf(old(db.orig), t), t, |checked|);
      assert start.Ok?;
      assert staged.value.1 == Range(start.value.0, |checked|);
      assert ids == Range(start.value.0, |checked|) + if returnDups then DupIds(errors) else {};
      assert errors == if check then checkOutcome.value.1 else [];
      assert checked == if check then checkOutcome.value.0 else items;
    }
    return Ok((AddedIds(ids), errors));
  }

  // ---------------------------------------------------------------------------
  // Extended metadata: reuse the (name, value) pairs that exist

  /** A cached metadata row. */
  datatype MetaEntry = MetaEntry(id: int, name: Val, value: Val)

  /** metadata_ids: (name, value) to id; a later row overwrites an earlier one. */
  function MetadataIds(entries: seq<MetaEntry>): (m: map<(Val, Val), int>)
    ensures forall e :: e in entries ==> (e.name, e.value) in m
    ensures forall k :: k in m ==> exists e :: e in entries && (e.name, e.value) == k && e.id == m[k]
  {
    if entries == [] then map[]
    else
      var last := entries[|entries| - 1];
      assert forall e :: e in entries ==> e in entries[..|entries| - 1] || e == last;
      MetadataIds(entries[..|entries| - 1])[(last.name, last.value) := last.id]
  }

  /** The (name, value) pair an extended metadata item names. */
  function PairOf(item: Fields): (Val, Val)
  {
    (Get(item, "metadata_name"), Get(item, "metadata_value"))
  }

  /** The metadata row to add for a pair. */
  function MetadataRow(k: (Val, Val)): Fields
  {
    map["name" := k.0, "value" := k.1]
  }

  /**
   * What the first pass of _get_or_add_metadata_ids_for_items leaves: the
   * items (those naming a known pair now carry its id), the metadata rows
   * to add, and the dictionary from a missing pair to the index of the
   * item remembered for it.
   */
  datatype Plan = Plan(items: seq<Fields>, toAdd: seq<Fields>, waiting: map<(Val, Val), nat>)

  /** The first pass over items, as a function of the items seen so far. */
  function PlanOf(items: seq<Fields>, known: map<(Val, Val), int>): (p: Plan)
    ensures |p.items| == |items|
    decreases |items|
  {
    if items == [] then Plan([], [], map[])
    else
      var n := |items| - 1;
      var p := PlanOf(items[..n], known);
      var k := PairOf(items[n]);
      if k in known then Plan(p.items + [items[n]["metadata_id" := IntV(known[k])]], p.toAdd, p.waiting)
      else Plan(p.items + [items[n]], p.toAdd + [MetadataRow(k)], p.waiting[k := n])
  }

  /** The first pass: a loop over the items. */
  method PlanItems(items: seq<Fields>, known: map<(Val, Val), int>) returns (p: Plan)
    ensures p == PlanOf(items, known)
  {
    p := Plan([], [], map[]);
    for i := 0 to |items|
      invariant p == PlanOf(items[..i], known)
    {
      assert items[..i + 1][..i] == items[..i];
      var k := PairOf(items[i]);
      if k in known {
        p := p.(items := p.items + [items[i]["metadata_id" := IntV(known[k])]]);
      } else {
        p := Plan(p.items + [items[i]], p.toAdd + [MetadataRow(k)], p.waiting[k := i]);
      }
    }
    assert items[..|items|] == items;
  }

  /**
   * An item naming a known pair gets that pair's id and nothing else
   * changes; the others are left as they are.
   */
  lemma {:induction false} PlanItemsReuse(items: seq<Fields>, known: map<(Val, Val), int>)
    ensures var p := PlanOf(items, known);
      forall i :: 0 <= i < |items| ==>
        p.items[i] == if PairOf(items[i]) in known then items[i]["metadata_id" := IntV(known[PairOf(items[i])])] else items[i]
    decreases |items|
  {
    if items != [] {
      PlanItemsReuse(items[..|items| - 1], known);
    }
  }

  /** Only missing pairs are added, and every missing pair is. */
  lemma {:induction false} PlanAddsMissing(items: seq<Fields>, known: map<(Val, Val), int>)
    ensures var p := PlanOf(items, known);
      (forall x :: x in p.toAdd ==> (Get(x, "name"), Get(x, "value")) !in known)
      && (forall i :: 0 <= i < |items| && PairOf(items[i]) !in known ==> MetadataRow(PairOf(items[i])) in p.toAdd)
    decreases |items|
  {
    if items != [] {
      var n := |items| - 1;
      PlanAddsMissing(items[..n], known);
      assert forall i :: 0 <= i < n ==> items[i] == items[..n][i];
    }
  }

  /**
   * The dictionary holds exactly the missing pairs, each with the LAST
   * item naming it.
   */
  lemma {:induction false} PlanWaiting(items: seq<Fields>, known: map<(Val, Val), int>)
    ensures var p := PlanOf(items, known);
      (forall k :: k in p.waiting ==> k !in known && p.waiting[k] < |items| && PairOf(items[p.waiting[k]]) == k)
      && (forall i :: 0 <= i < |items| && PairOf(items[i]) !in known ==>
            PairOf(items[i]) in p.waiting && i <= p.waiting[PairOf(items[i])])
    decreases |items|
  {
    if items != [] {
      var n := |items| - 1;
      PlanWaiting(items[..n], known);
      var q := PlanOf(items[..n], known);
      var p := PlanOf(items, known);
      var k := PairOf(items[n]);
      assert p.waiting == if k in known then q.waiting else q.waiting[k := n];
      forall i | 0 <= i < |items| && PairOf(items[i]) !in known
        ensures PairOf(items[i]) in p.waiting && i <= p.waiting[PairOf(items[i])]
      {
        if i < n {
          assert items[i] == items[..n][i];
        }
      }
      forall j | j in p.waiting
        ensures j !in known && p.waiting[j] < |items| && PairOf(items[p.waiting[j]]) == j
      {
        if j != k {
          assert items[q.waiting[j]] == items[..n][q.waiting[j]];
        }
      }
    }
  }

  /**
   * The second pass as written: only the item the dictionary remembers for
   * each missing pair gets the new id; a pair without a new id raises
   * KeyError.
   */
  function AssignAsWritten(p: Plan, newIds: map<(Val, Val), int>): (r: Result<seq<Fields>>)
    ensures r.Ok? <==> forall k :: k in p.waiting ==> k in newIds
    ensures r.Ok? ==> |r.value| == |p.items|
  {
    if forall k :: k in p.waiting ==> k in newIds then
      Ok(seq(|p.items|, i requires 0 <= i < |p.items| =>
        if PairOf(p.items[i]) in p.waiting && p.waiting[PairOf(p.items[i])] == i
        then p.items[i]["metadata_id" := IntV(newIds[PairOf(p.items[i])])] else p.items[i]))
    else Err(KeyError("metadata"))
  }

  /** The second pass as intended: every item naming a missing pair gets the new id. */
  function Assign(p: Plan, newIds: map<(Val, Val), int>): (r: Result<seq<Fields>>)
    ensures r.Ok? <==> forall k :: k in p.waiting ==> k in newIds
    ensures r.Ok? ==> |r.value| == |p.items|
  {
    if forall k :: k in p.waiting ==> k in newIds then
      Ok(seq(|p.items|, i requires 0 <= i < |p.items| =>
        if PairOf(p.items[i]) in p.waiting
        then p.items[i]["metadata_id" := IntV(newIds[PairOf(p.items[i])])] else p.items[i]))
    else Err(KeyError("metadata"))
  }

  /** new_metadata_ids: (name, value) of each added metadata row to its id. */
  function NewIds(added: seq<Fields>): (m: map<(Val, Val), int>)
    ensures forall x :: x in added && Get(x, "id").IntV? ==> (Get(x, "name"), Get(x, "value")) in m
  {
    if added == [] then map[]
    else
      var last := added[|added| - 1];
      var rest := NewIds(added[..|added| - 1]);
      assert forall x :: x in added ==> x in added[..|added| - 1] || x == last;
      if Get(last, "id").IntV? then rest[(Get(last, "name"), Get(last, "value")) := Get(last, "id").i] else rest
  }

  /**
   * Once every missing pair has a new id, every item ends up linked: to
   * the existing id of a known pair, or to the new id of a missing one.
   */
  lemma EveryItemLinked(items: seq<Fields>, known: map<(Val, Val), int>, newIds: map<(Val, Val), int>)
    requires forall i :: 0 <= i < |items| && PairOf(items[i]) !in known ==> PairOf(items[i]) in newIds
    ensures Assign(PlanOf(items, known), newIds).Ok?
    ensures forall i :: 0 <= i < |items| ==>
      Get(Assign(PlanOf(items, known), newIds).value[i], "metadata_id")
        == IntV(if PairOf(items[i]) in known then known[PairOf(items[i])] else newIds[PairOf(items[i])])
  {
    var p := PlanOf(items, known);
    PlanItemsReuse(items, known);
    PlanWaiting(items, known);
    forall k | k in p.waiting
      ensures k in newIds
    {
      assert PairOf(items[p.waiting[k]]) == k;
    }
    forall i | 0 <= i < |items|
      ensures PairOf(p.items[i]) == PairOf(items[i])
    {
    }
  }

  /**
   * Two items naming the same new pair: as written, the dictionary keeps
   * only the second, so the first never gets a metadata id (and then fails
   * the entity metadata check for the missing key).
   */
  lemma SharedNewPairAsWritten()
    ensures var items := [map["metadata_name" := StrV("a"), "metadata_value" := StrV("b")],
                          map["metadata_name" := StrV("a"), "metadata_value" := StrV("b")]];
      var r := AssignAsWritten(PlanOf(items, map[]), map[(StrV("a"), StrV("b")) := 7]);
      r.Ok? && "metadata_id" !in r.value[0] && r.value[1]["metadata_id"] == IntV(7)
  {
    var items := [map["metadata_name" := StrV("a"), "metadata_value" := StrV("b")],
                  map["metadata_name" := StrV("a"), "metadata_value" := StrV("b")]];
    var k := (StrV("a"), StrV("b"));
    assert items[..1][..0] == [];
    assert PlanOf(items[..1], map[]).waiting == map[k := 0];
    var p := PlanOf(items, map[]);
    assert p.waiting == map[k := 1];
    assert p.items == items;
  }

  /**
   * _get_or_add_metadata_ids_for_items, with the metadata rows added by
   * addMetadata (add_items on the metadata table, returning the items): on
   * errors the rows added and the errors are returned and the items keep
   * only the reused ids; otherwise every item naming a missing pair is
   * linked to the new row's id.
   */
  method GetOrAddMetadataIds(items: seq<Fields>, cached: seq<MetaEntry>,
                             addMetadata: seq<Fields> -> (seq<Fields>, seq<Error>))
    returns (linked: Result<seq<Fields>>, added: seq<Fields>, errors: seq<Error>)
    ensures var p := PlanOf(items, MetadataIds(cached));
      added == addMetadata(p.toAdd).0 && errors == addMetadata(p.toAdd).1
      && (errors != [] ==> linked == Ok(p.items))
      && (errors == [] ==> linked == Assign(p, NewIds(added)))
  {
    var p := PlanItems(items, MetadataIds(cached));
    added, errors := addMetadata(p.toAdd).0, addMetadata(p.toAdd).1;
    if errors != [] {
      return Ok(p.items), added, errors;
    }
    linked := Assign(p, NewIds(added));
  }
}
