// The update mixin (spinedb_api/db_mapping_update_mixin.py): the dispatch
// of an update to the physical table an item type lives in, the update
// that writes straight to the database, retargeting item metadata to
// other (name, value) pairs, and the data that sets the alternatives of
// scenarios.

module UpdateMixin {
  import opened Errors
  import opened MappingBase
  import opened CacheItems
  import opened DiffBase
  import opened AddMixin
  import opened DiffMapping
  import opened Text

  /** The physical table an item type is updated in: the entity classes and entities share one table each. */
  function RealTable(t: Table): (r: Table)
    ensures r == EntityClass <==> t == ObjectClass || t == RelationshipClass || t == EntityClass
    ensures r == Entity <==> t == Object || t == Relationship || t == Entity
    ensures r != EntityClass && r != Entity ==> r == t
  {
    match t
    case ObjectClass | RelationshipClass => EntityClass
    case Object | Relationship => Entity
    case _ => t
  }

  /** The typed items keep the key of their physical table. */
  lemma TypedKeepsRowId(t: Table, items: seq<Fields>, types: Types)
    requires forall x :: x in items ==> RowId(RealTable(t), x).IntV?
    ensures forall x :: x in WithTypeId(t, items, types) ==> RowId(RealTable(t), x).IntV?
  {
    var typed := WithTypeId(t, items, types);
    if TypeIdOf(t, types).Some? {
      assert TableId(RealTable(t)) == "id";
      forall x | x in typed
        ensures RowId(RealTable(t), x).IntV?
      {
        var k :| 0 <= k < |typed| && typed[k] == x;
        assert items[k] in items;
      }
    }
  }

  // ---------------------------------------------------------------------------
  // Updating through the staging layer

  /**
   * _update_items of the read-write mapping: no items update nothing; a
   * relationship update goes to _update_wide_relationships; any other
   * update is stamped with its type id and staged in the item type's
   * physical table, which is the only table it changes.
   */
  method UpdateItems(db: Store, t: Table, items: seq<Fields>, types: Types, columns: Table -> set<string>)
    returns (updatedIds: set<int>)
    requires db.Valid()
    requires forall x :: x in items ==> Get(x, "id").IntV? && RowId(RealTable(t), x).IntV?
    modifies db
    ensures db.Valid()
    ensures items == [] ==> updatedIds == {} && db.diff == old(db.diff) && db.dirty == old(db.dirty) && db.updated == old(db.updated)
    ensures t != Relationship ==> updatedIds == IdsOf(RealTable(t), WithTypeId(t, items, types))
    ensures t == Relationship ==> forall x :: x in items ==> Get(x, "id").i in updatedIds
    ensures t != Relationship ==> forall u :: u != RealTable(t) ==>
      RowsOf(db.diff, u) == RowsOf(old(db.diff), u) && Of(db.dirty, u) == Of(old(db.dirty), u) && Of(db.updated, u) == Of(old(db.updated), u)
    ensures t == Relationship ==> forall u :: u != Entity && u != RelationshipEntity ==>
      RowsOf(db.diff, u) == RowsOf(old(db.diff), u) && Of(db.dirty, u) == Of(old(db.dirty), u) && Of(db.updated, u) == Of(old(db.updated), u)
    ensures db.committing == old(db.committing) && db.orig == old(db.orig) && db.nextId == old(db.nextId)
    ensures db.added == old(db.added) && db.removed == old(db.removed) && db.commits == old(db.commits)
  {
    if items == [] {
      return {};
    }
    if t == Relationship {
      updatedIds := UpdateWideRelationships(db, items, types, columns);
      return;
    }
    var typed := WithTypeId(t, items, types);
    TypedKeepsRowId(t, items, types);
    updatedIds := DoUpdateItems(db, RealTable(t), typed, columns(RealTable(t)));
  }

  // ---------------------------------------------------------------------------
  // Updating straight in the database

  /** _add_commit_id: every item gets the commit id. */
  function WithCommit(items: seq<Fields>, commitId: Val): (r: seq<Fields>)
    ensures |r| == |items|
    ensures forall i :: 0 <= i < |items| ==> r[i] == items[i]["commit_id" := commitId]
  {
    seq(|items|, i requires 0 <= i < |items| => items[i]["commit_id" := commitId])
  }

  /** {x["id"] for x in items}: a KeyError when an item has no id. */
  function IdVals(items: seq<Fields>): (r: Result<set<Val>>)
    ensures r.Ok? <==> forall x :: x in items ==> "id" in x
    ensures r.Err? ==> r.error == KeyError("id")
    ensures r.Ok? ==> forall v :: v in r.value <==> exists x :: x in items && x["id"] == v
  {
    if forall x :: x in items ==> "id" in x then Ok(set x | x in items :: x["id"]) else Err(KeyError("id"))
  }

  /** Every row keeps the values of the primary key columns. */
  ghost predicate KeysKept(rows: seq<Row>, after: seq<Row>, pk: seq<string>)
  {
    |after| == |rows| && forall i, k :: 0 <= i < |rows| && k in pk ==> Get(after[i], k) == Get(rows[i], k)
  }

  /**
   * `UPDATE table SET cols WHERE pk = item's pk` for every item: the rows
   * keep their number and keys, a row no item matches is left as it is,
   * and a row exactly one item matches takes that item's cols.
   */
  ghost predicate RowsUpdated(rows: seq<Row>, after: seq<Row>, items: seq<Fields>, pk: seq<string>, cols: set<string>)
  {
    KeysKept(rows, after, pk)
    && (forall i :: 0 <= i < |rows| && (forall l :: 0 <= l < |items| ==> !Matches(pk, rows[i], items[l])) ==> after[i] == rows[i])
    && (forall i, j ::
          (0 <= i < |rows| && 0 <= j < |items| && Matches(pk, rows[i], items[j]) &&
           (forall l :: 0 <= l < |items| && l != j ==> !Matches(pk, rows[i], items[l]))) ==>
          after[i] == Assigned(rows[i], items[j], cols))
  }

  /**
   * _do_update_items of the mapping that writes to the database: when
   * committing, the items get the commit id and the table's rows are
   * updated by them, on the table's columns the first item has; the other
   * tables are left alone. The ids of the items are returned in any case.
   */
  method DoUpdateItemsDirect(committing: bool, tables: Tables, t: Table, items: seq<Fields>, commitId: Val, columns: set<string>)
    returns (r: Tables, ids: Result<set<Val>>)
    requires committing ==> items != []
    ensures ids == IdVals(items)
    ensures !committing ==> r == tables
    ensures forall u :: u != t ==> RowsOf(r, u) == RowsOf(tables, u)
    ensures committing ==> RowsUpdated(RowsOf(tables, t), RowsOf(r, t), WithCommit(items, commitId), PrimaryKey(t),
                                       columns * WithCommit(items, commitId)[0].Keys)
  {
    r := tables;
    if committing {
      var stamped := WithCommit(items, commitId);
      var cols := columns * stamped[0].Keys;
      r := SetRows(tables, t, UpdateAll(RowsOf(tables, t), stamped, PrimaryKey(t), cols));
      UpdateAllRows(RowsOf(tables, t), stamped, PrimaryKey(t), cols);
    }
    ids := IdVals(items);
  }

  /** The relationship has every key _update_wide_relationships reads with item[key]. */
  predicate Complete(item: Fields)
  {
    "id" in item && "class_id" in item && "name" in item && "object_class_id_list" in item && "object_id_list" in item
  }

  /** The first key a relationship lacks, in the order they are read: the KeyError of item[key]. */
  function MissingKey(item: Fields): (r: Option<string>)
    ensures r.None? <==> Complete(item)
    ensures r.Some? ==> r.value !in item
  {
    if "id" !in item then Some("id")
    else if "class_id" !in item then Some("class_id")
    else if "name" !in item then Some("name")
    else if "object_class_id_list" !in item then Some("object_class_id_list")
    else if "object_id_list" !in item then Some("object_id_list")
    else None
  }

  /** The entity row of a relationship: its id, class, name and description. */
  function EntityRow(item: Fields): (r: Fields)
    ensures "id" in r && r["id"] == Get(item, "id")
  {
    map["id" := Get(item, "id"), "class_id" := Get(item, "class_id"), "name" := Get(item, "name"),
        "description" := Get(item, "description")]
  }

  /** The relationship_entity row of one dimension; its id is None. */
  function DimensionRow(item: Fields, d: nat, memberClass: int, member: int): Fields
  {
    map["id" := NoneV, "entity_class_id" := Get(item, "class_id"), "entity_id" := Get(item, "id"), "dimension" := IntV(d),
        "member_class_id" := IntV(memberClass), "member_id" := IntV(member)]
  }

  /** The relationship_entity rows of a relationship, pairing the two member lists by position. */
  function DimensionRows(item: Fields): (r: seq<Fields>)
    ensures var classes := MemberList(Get(item, "object_class_id_list"));
      var members := MemberList(Get(item, "object_id_list"));
      |r| == (if |classes| <= |members| then |classes| else |members|)
      && forall d :: 0 <= d < |r| ==> r[d] == DimensionRow(item, d, classes[d], members[d])
  {
    var classes := MemberList(Get(item, "object_class_id_list"));
    var members := MemberList(Get(item, "object_id_list"));
    var n := if |classes| <= |members| then |classes| else |members|;
    seq(n, d requires 0 <= d < n => DimensionRow(item, d, classes[d], members[d]))
  }

  /** The position of the first relationship that lacks a key, or the number of relationships. */
  function FirstIncomplete(items: seq<Fields>): (f: nat)
    ensures f <= |items|
    ensures forall j :: 0 <= j < f ==> Complete(items[j])
    ensures f < |items| ==> !Complete(items[f])
  {
    if items == [] then 0
    else if !Complete(items[0]) then 0
    else 1 + FirstIncomplete(items[1..])
  }

  /** The relationship_entity rows of all relationships, relationship by relationship. */
  function AllDimensionRows(items: seq<Fields>): (r: seq<Fields>)
    ensures forall y :: y in r ==> Get(y, "id") == NoneV
    ensures forall i, d :: 0 <= i < |items| && 0 <= d < |DimensionRows(items[i])| ==> DimensionRows(items[i])[d] in r
  {
    if items == [] then []
    else
      var rest := AllDimensionRows(items[1..]);
      assert forall i :: 1 <= i < |items| ==> items[i] == items[1..][i - 1];
      DimensionRows(items[0]) + rest
  }

  /**
   * The entity rows and the relationship_entity rows of the relationships,
   * or the KeyError of the first key that the first incomplete relationship
   * lacks (the loop of _update_wide_relationships reads the keys of one
   * relationship after another).
   */
  function WideRows(items: seq<Fields>): (r: Result<(seq<Fields>, seq<Fields>)>)
    ensures r.Ok? <==> forall i :: 0 <= i < |items| ==> Complete(items[i])
    ensures r.Ok? ==> |r.value.0| == |items| && forall i :: 0 <= i < |items| ==> r.value.0[i] == EntityRow(items[i])
    ensures r.Ok? ==> forall i, d :: 0 <= i < |items| && 0 <= d < |DimensionRows(items[i])| ==> DimensionRows(items[i])[d] in r.value.1
    ensures r.Err? ==> r.error.KeyError? && r.error.key !in items[FirstIncomplete(items)]
  {
    var f := FirstIncomplete(items);
    if f < |items| then Err(KeyError(MissingKey(items[f]).value))
    else Ok((seq(|items|, i requires 0 <= i < |items| => EntityRow(items[i])), AllDimensionRows(items)))
  }

  /** The type id leaves the keys a relationship has as they are. */
  lemma TypedComplete(items: seq<Fields>, types: Types)
    ensures var typed := WithTypeId(Relationship, items, types);
      |typed| == |items| && forall i :: 0 <= i < |items| ==> (Complete(typed[i]) <==> Complete(items[i])) && Get(typed[i], "id") == Get(items[i], "id")
  {
  }

  /** Rows with the ids of the items, position by position, have the ids of the items. */
  lemma SameIds(items: seq<Fields>, rows: seq<Fields>)
    requires |rows| == |items|
    requires forall i :: 0 <= i < |items| ==> "id" in items[i] && "id" in rows[i] && rows[i]["id"] == items[i]["id"]
    ensures IdVals(rows).Ok?
    ensures forall i :: 0 <= i < |items| ==> items[i]["id"] in IdVals(rows).value
    ensures forall v :: v in IdVals(rows).value ==> exists x :: x in items && x["id"] == v
  {
    assert forall y :: y in rows ==> "id" in y;
    forall v | v in IdVals(rows).value
      ensures exists x :: x in items && x["id"] == v
    {
      var y :| y in rows && y["id"] == v;
      var i :| 0 <= i < |rows| && rows[i] == y;
      assert items[i] in items;
    }
    forall i | 0 <= i < |items|
      ensures items[i]["id"] in IdVals(rows).value
    {
      assert rows[i] in rows;
    }
  }

  /**
   * The two updates of _update_wide_relationships: the entity rows update
   * the entity table, then the dimension rows, when there are any, the
   * relationship_entity table; the ids of the entity rows are returned.
   */
  method WriteWideRows(committing: bool, tables: Tables, entityRows: seq<Fields>, dimensionRows: seq<Fields>, commitId: Val,
                       columns: Table -> set<string>)
    returns (r: Tables, ids: Result<set<Val>>)
    requires entityRows != []
    ensures ids == IdVals(entityRows)
    ensures !committing ==> r == tables
    ensures forall u :: u != Entity && u != RelationshipEntity ==> RowsOf(r, u) == RowsOf(tables, u)
    ensures committing ==> RowsUpdated(RowsOf(tables, Entity), RowsOf(r, Entity), WithCommit(entityRows, commitId),
                                       PrimaryKey(Entity), columns(Entity) * WithCommit(entityRows, commitId)[0].Keys)
    ensures committing && dimensionRows != [] ==>
      RowsUpdated(RowsOf(tables, RelationshipEntity), RowsOf(r, RelationshipEntity), WithCommit(dimensionRows, commitId),
                  PrimaryKey(RelationshipEntity), columns(RelationshipEntity) * WithCommit(dimensionRows, commitId)[0].Keys)
    ensures dimensionRows == [] ==> RowsOf(r, RelationshipEntity) == RowsOf(tables, RelationshipEntity)
  {
    r, ids := DoUpdateItemsDirect(committing, tables, Entity, entityRows, commitId, columns(Entity));
    if dimensionRows != [] {
      var r2, _ := DoUpdateItemsDirect(committing, r, RelationshipEntity, dimensionRows, commitId, columns(RelationshipEntity));
      r := r2;
    }
  }

  /**
   * _update_wide_relationships of the mapping that writes to the database:
   * the typed relationships become entity rows and relationship_entity
   * rows (a KeyError, with nothing written, when a relationship lacks a
   * key); the entity rows update the entity table, the dimension rows the
   * relationship_entity table, and the ids of the entities are returned.
   */
  method UpdateWideRelationshipsDirect(committing: bool, tables: Tables, items: seq<Fields>, types: Types, commitId: Val,
                                       columns: Table -> set<string>)
    returns (r: Tables, ids: Result<set<Val>>)
    requires items != []
    ensures ids.Err? <==> exists i :: 0 <= i < |items| && !Complete(items[i])
    ensures ids.Err? ==> ids.error.KeyError? && r == tables
    ensures ids.Ok? ==> forall i :: 0 <= i < |items| ==> items[i]["id"] in ids.value
    ensures ids.Ok? ==> forall v :: v in ids.value ==> exists x :: x in items && x["id"] == v
    ensures !committing ==> r == tables
    ensures forall u :: u != Entity && u != RelationshipEntity ==> RowsOf(r, u) == RowsOf(tables, u)
    ensures committing && ids.Ok? ==> KeysKept(RowsOf(tables, Entity), RowsOf(r, Entity), PrimaryKey(Entity))
  {
    var typed := WithTypeId(Relationship, items, types);
    TypedComplete(items, types);
    var rows := WideRows(typed);
    if rows.Err? {
      assert !Complete(typed[FirstIncomplete(typed)]);
      return tables, Err(rows.error);
    }
    var entityRows := rows.value.0;
    forall i | 0 <= i < |items|
      ensures "id" in items[i] && "id" in entityRows[i] && entityRows[i]["id"] == items[i]["id"]
    {
      assert Complete(typed[i]);
      assert entityRows[i] == EntityRow(typed[i]);
    }
    var entityIds;
    r, entityIds := WriteWideRows(committing, tables, entityRows, rows.value.1, commitId, columns);
    SameIds(items, entityRows);
    ids := entityIds;
  }

  /** The type id leaves the ids of the items as they are. */
  lemma IdValsTyped(t: Table, items: seq<Fields>, types: Types)
    ensures IdVals(WithTypeId(t, items, types)) == IdVals(items)
  {
    var typed := WithTypeId(t, items, types);
    assert forall i :: 0 <= i < |items| ==> ("id" in typed[i] <==> "id" in items[i]);
    if IdVals(items).Ok? {
      assert forall x :: x in typed ==> "id" in x;
      forall v | v in IdVals(typed).value
        ensures v in IdVals(items).value
      {
        var x :| x in typed && x["id"] == v;
        var i :| 0 <= i < |typed| && typed[i] == x;
        assert items[i] in items;
      }
      forall v | v in IdVals(items).value
        ensures v in IdVals(typed).value
      {
        var x :| x in items && x["id"] == v;
        var i :| 0 <= i < |items| && items[i] == x;
        assert typed[i] in typed;
      }
      assert IdVals(typed).value == IdVals(items).value;
    } else {
      var x :| x in items && "id" !in x;
      var i :| 0 <= i < |items| && items[i] == x;
      assert typed[i] in typed;
    }
  }

  /**
   * _update_items of the mapping that writes to the database: no items
   * update nothing; relationships go to _update_wide_relationships; any
   * other item type is stamped with its type id and updated in its
   * physical table, the only table it changes.
   */
  method UpdateItemsDirect(committing: bool, tables: Tables, t: Table, items: seq<Fields>, types: Types, commitId: Val,
                           columns: Table -> set<string>)
    returns (r: Tables, ids: Result<set<Val>>)
    ensures items == [] ==> r == tables && ids == Ok({})
    ensures !committing ==> r == tables
    ensures t != Relationship && items != [] ==> ids == IdVals(items)
    ensures t == Relationship ==> (ids.Err? <==> exists i :: 0 <= i < |items| && !Complete(items[i]))
    ensures t != Relationship ==> forall u :: u != RealTable(t) ==> RowsOf(r, u) == RowsOf(tables, u)
    ensures t == Relationship ==> forall u :: u != Entity && u != RelationshipEntity ==> RowsOf(r, u) == RowsOf(tables, u)
  {
    if items == [] {
      return tables, Ok({});
    }
    if t == Relationship {
      r, ids := UpdateWideRelationshipsDirect(committing, tables, items, types, commitId, columns);
      return;
    }
    var typed := WithTypeId(t, items, types);
    r, ids := DoUpdateItemsDirect(committing, tables, RealTable(t), typed, commitId, columns(RealTable(t)));
    IdValsTyped(t, items, types);
  }

  // ---------------------------------------------------------------------------
  // Setting the alternatives of scenarios

  /** A wide scenario to set: its id and its alternatives, highest rank first. */
  datatype WideScenario = WideScenario(id: int, alternativeIds: seq<int>)

  /** A scenario_alternative row to add. */
  datatype RankedAlternative = RankedAlternative(scenarioId: int, alternativeId: int, rank: int)

  /** The rows that give the alternatives of one scenario ranks 1, 2, ... in list order. */
  function Ranked(scenarioId: int, alternativeIds: seq<int>): (r: seq<RankedAlternative>)
    ensures |r| == |alternativeIds|
    ensures forall k :: 0 <= k < |r| ==> r[k] == RankedAlternative(scenarioId, alternativeIds[k], k + 1)
  {
    seq(|alternativeIds|, k requires 0 <= k < |alternativeIds| => RankedAlternative(scenarioId, alternativeIds[k], k + 1))
  }

  /** items_to_add: the ranked rows of every scenario, scenario after scenario. */
  function ToAdd(items: seq<WideScenario>): seq<RankedAlternative>
  {
    if items == [] then []
    else ToAdd(items[..|items| - 1]) + Ranked(items[|items| - 1].id, items[|items| - 1].alternativeIds)
  }

  /** The KeyError of scenario_alternative_ids[scenario_id, alternative_id]. */
  function PairKeyError(scenarioId: int, alternativeId: int): Error
  {
    KeyError("(" + IntToString(scenarioId) + ", " + IntToString(alternativeId) + ")")
  }

  /**
   * The ids of the scenario_alternative rows pairing the scenario with the
   * alternatives, or the KeyError of the first pair with no row.
   */
  function RowIdsOf(scenarioId: int, alternativeIds: seq<int>, rowIds: map<(int, int), int>): (r: Result<set<int>>)
    ensures r.Ok? <==> forall a :: a in alternativeIds ==> (scenarioId, a) in rowIds
  {
    if alternativeIds == [] then Ok({})
    else
      var n := |alternativeIds| - 1;
      var a := alternativeIds[n];
      assert forall b :: b in alternativeIds ==> b in alternativeIds[..n] || b == a;
      match RowIdsOf(scenarioId, alternativeIds[..n], rowIds)
      case Err(e) => Err(e)
      case Ok(ids) => if (scenarioId, a) in rowIds then Ok(ids + {rowIds[(scenarioId, a)]}) else Err(PairKeyError(scenarioId, a))
  }

  /**
   * ids_to_remove: the rows pairing every scenario with its current
   * alternatives, or the KeyError of the first scenario with no current
   * list or the first pair with no row.
   */
  function ToRemove(items: seq<WideScenario>, current: map<int, seq<int>>, rowIds: map<(int, int), int>): Result<set<int>>
  {
    if items == [] then Ok({})
    else
      var x := items[|items| - 1];
      match ToRemove(items[..|items| - 1], current, rowIds)
      case Err(e) => Err(e)
      case Ok(ids) =>
        if x.id !in current then Err(KeyError(IntToString(x.id)))
        else
          match RowIdsOf(x.id, current[x.id], rowIds)
          case Err(e) => Err(e)
          case Ok(more) => Ok(ids + more)
  }

  lemma RankedPrefix(scenarioId: int, alternativeIds: seq<int>, k: nat)
    requires k < |alternativeIds|
    ensures Ranked(scenarioId, alternativeIds[..k + 1]) ==
      Ranked(scenarioId, alternativeIds[..k]) + [RankedAlternative(scenarioId, alternativeIds[k], k + 1)]
  {
  }

  /** An error on the first j alternatives is also the error on the first j + 1. */
  lemma RowIdsErrGrows(scenarioId: int, alternativeIds: seq<int>, rowIds: map<(int, int), int>, j: nat)
    requires j < |alternativeIds| && RowIdsOf(scenarioId, alternativeIds[..j], rowIds).Err?
    ensures RowIdsOf(scenarioId, alternativeIds[..j + 1], rowIds) == RowIdsOf(scenarioId, alternativeIds[..j], rowIds)
  {
    var longer := alternativeIds[..j + 1];
    assert longer[..|longer| - 1] == alternativeIds[..j];
  }

  /** The first error of a prefix is the error of the whole list. */
  lemma {:induction false} RowIdsErrSticks(scenarioId: int, alternativeIds: seq<int>, rowIds: map<(int, int), int>, j: nat)
    requires j <= |alternativeIds| && RowIdsOf(scenarioId, alternativeIds[..j], rowIds).Err?
    ensures RowIdsOf(scenarioId, alternativeIds, rowIds) == RowIdsOf(scenarioId, alternativeIds[..j], rowIds)
    decreases |alternativeIds| - j
  {
    if j < |alternativeIds| {
      RowIdsErrGrows(scenarioId, alternativeIds, rowIds, j);
      RowIdsErrSticks(scenarioId, alternativeIds, rowIds, j + 1);
    } else {
      assert alternativeIds[..j] == alternativeIds;
    }
  }

  /** The first error of a prefix is the error of the whole list. */
  lemma {:induction false} ToRemoveErrSticks(items: seq<WideScenario>, current: map<int, seq<int>>, rowIds: map<(int, int), int>, i: nat)
    requires i <= |items| && ToRemove(items[..i], current, rowIds).Err?
    ensures ToRemove(items, current, rowIds) == ToRemove(items[..i], current, rowIds)
    decreases |items| - i
  {
    if i < |items| {
      var n := |items| - 1;
      assert items[..n][..i] == items[..i];
      ToRemoveErrSticks(items[..n], current, rowIds, i);
    } else {
      assert items[..i] == items;
    }
  }

  /** x ranks the k-th alternative of the i-th scenario, for some i and k. */
  ghost predicate RankedIn(items: seq<WideScenario>, x: RankedAlternative)
  {
    exists i, k :: 0 <= i < |items| && 0 <= k < |items[i].alternativeIds|
      && x == RankedAlternative(items[i].id, items[i].alternativeIds[k], k + 1)
  }

  lemma RankedInSnoc(items: seq<WideScenario>, x: RankedAlternative)
    requires items != []
    ensures RankedIn(items, x) <==>
      RankedIn(items[..|items| - 1], x) || x in Ranked(items[|items| - 1].id, items[|items| - 1].alternativeIds)
  {
    var n := |items| - 1;
    var last := Ranked(items[n].id, items[n].alternativeIds);
    if RankedIn(items, x) {
      var i, k :| 0 <= i < |items| && 0 <= k < |items[i].alternativeIds|
        && x == RankedAlternative(items[i].id, items[i].alternativeIds[k], k + 1);
      if i < n {
        assert items[..n][i] == items[i];
      } else {
        assert last[k] == x;
      }
    }
    if x in last {
      var k :| 0 <= k < |last| && last[k] == x;
      assert 0 <= k < |items[n].alternativeIds| && x == RankedAlternative(items[n].id, items[n].alternativeIds[k], k + 1);
    }
    if RankedIn(items[..n], x) {
      var i, k :| 0 <= i < n && 0 <= k < |items[..n][i].alternativeIds|
        && x == RankedAlternative(items[..n][i].id, items[..n][i].alternativeIds[k], k + 1);
      assert items[..n][i] == items[i];
    }
  }

  /** Every ranked row to add comes from one alternative of one scenario, ranked by its position, and each such row is there. */
  lemma {:induction false} ToAddRows(items: seq<WideScenario>, x: RankedAlternative)
    ensures x in ToAdd(items) <==>
      exists i, k :: 0 <= i < |items| && 0 <= k < |items[i].alternativeIds|
        && x == RankedAlternative(items[i].id, items[i].alternativeIds[k], k + 1)
  {
    if items != [] {
      var n := |items| - 1;
      ToAddRows(items[..n], x);
      RankedInSnoc(items, x);
      assert RankedIn(items[..n], x) <==> x in ToAdd(items[..n]);
    }
  }

  /** The rows found for a scenario are the rows of its pairs. */
  lemma {:induction false} RowIdsOfValues(scenarioId: int, alternativeIds: seq<int>, rowIds: map<(int, int), int>, v: int)
    requires RowIdsOf(scenarioId, alternativeIds, rowIds).Ok?
    ensures v in RowIdsOf(scenarioId, alternativeIds, rowIds).value <==>
      exists a :: a in alternativeIds && (scenarioId, a) in rowIds && rowIds[(scenarioId, a)] == v
  {
    if alternativeIds != [] {
      var n := |alternativeIds| - 1;
      RowIdsOfValues(scenarioId, alternativeIds[..n], rowIds, v);
      assert forall b :: b in alternativeIds ==> b in alternativeIds[..n] || b == alternativeIds[n];
      assert alternativeIds[n] in alternativeIds;
      assert forall b :: b in alternativeIds[..n] ==> b in alternativeIds;
    }
  }

  /**
   * The rows to remove are found exactly when every scenario has a current
   * list and every current pair a row, and they are the rows of those pairs.
   */
  lemma {:induction false} ToRemoveRows(items: seq<WideScenario>, current: map<int, seq<int>>, rowIds: map<(int, int), int>, v: int)
    ensures ToRemove(items, current, rowIds).Ok? <==>
      forall i :: 0 <= i < |items| ==> items[i].id in current && forall a :: a in current[items[i].id] ==> (items[i].id, a) in rowIds
    ensures ToRemove(items, current, rowIds).Ok? ==>
      (v in ToRemove(items, current, rowIds).value <==>
         exists i, a :: 0 <= i < |items| && items[i].id in current && a in current[items[i].id]
           && (items[i].id, a) in rowIds && rowIds[(items[i].id, a)] == v)
  {
    if items != [] {
      var n := |items| - 1;
      var x := items[n];
      ToRemoveRows(items[..n], current, rowIds, v);
      assert forall i :: 0 <= i < n ==> items[..n][i] == items[i];
      if x.id in current && RowIdsOf(x.id, current[x.id], rowIds).Ok? {
        RowIdsOfValues(x.id, current[x.id], rowIds, v);
      }
      if ToRemove(items, current, rowIds).Ok? {
        if v in ToRemove(items, current, rowIds).value {
          if v !in ToRemove(items[..n], current, rowIds).value {
            var a :| a in current[x.id] && (x.id, a) in rowIds && rowIds[(x.id, a)] == v;
            assert items[n].id in current && a in current[items[n].id];
          }
        }
      }
    }
  }

  /** for k, alternative_id in enumerate(alternative_id_list): items_to_add.append(...) */
  method AppendRanked(toAdd: seq<RankedAlternative>, scenarioId: int, alternativeIds: seq<int>) returns (r: seq<RankedAlternative>)
    ensures r == toAdd + Ranked(scenarioId, alternativeIds)
  {
    r := toAdd;
    for k := 0 to |alternativeIds|
      invariant r == toAdd + Ranked(scenarioId, alternativeIds[..k])
    {
      RankedPrefix(scenarioId, alternativeIds, k);
      r := r + [RankedAlternative(scenarioId, alternativeIds[k], k + 1)];
    }
    assert alternativeIds[..|alternativeIds|] == alternativeIds;
  }

  /** for alternative_id in current_alternative_id_list: ids_to_remove.add(...) */
  method AddRowIds(toRemove: set<int>, scenarioId: int, alternativeIds: seq<int>, rowIds: map<(int, int), int>)
    returns (r: Result<set<int>>)
    ensures r.Ok? <==> RowIdsOf(scenarioId, alternativeIds, rowIds).Ok?
    ensures r.Ok? ==> r.value == toRemove + RowIdsOf(scenarioId, alternativeIds, rowIds).value
    ensures r.Err? ==> r.error == RowIdsOf(scenarioId, alternativeIds, rowIds).error
  {
    var ids := toRemove;
    for j := 0 to |alternativeIds|
      invariant RowIdsOf(scenarioId, alternativeIds[..j], rowIds).Ok?
      invariant ids == toRemove + RowIdsOf(scenarioId, alternativeIds[..j], rowIds).value
    {
      assert alternativeIds[..j + 1][..j] == alternativeIds[..j];
      if (scenarioId, alternativeIds[j]) !in rowIds {
        RowIdsErrSticks(scenarioId, alternativeIds, rowIds, j + 1);
        return Err(PairKeyError(scenarioId, alternativeIds[j]));
      }
      ids := ids + {rowIds[(scenarioId, alternativeIds[j])]};
    }
    assert alternativeIds[..|alternativeIds|] == alternativeIds;
    return Ok(ids);
  }

  /**
   * get_data_to_set_scenario_alternatives: the ranked rows to add for every
   * wide scenario and the ids of the rows of its current alternatives to
   * remove; a KeyError when a scenario or a current pair is unknown.
   */
  method GetDataToSetScenarioAlternatives(items: seq<WideScenario>, current: map<int, seq<int>>, rowIds: map<(int, int), int>)
    returns (r: Result<(seq<RankedAlternative>, set<int>)>)
    ensures r.Ok? <==> ToRemove(items, current, rowIds).Ok?
    ensures r.Ok? ==> r.value == (ToAdd(items), ToRemove(items, current, rowIds).value)
    ensures r.Err? ==> r.error == ToRemove(items, current, rowIds).error
  {
    var toAdd: seq<RankedAlternative> := [];
    var toRemove: set<int> := {};
    for i := 0 to |items|
      invariant toAdd == ToAdd(items[..i])
      invariant ToRemove(items[..i], current, rowIds) == Ok(toRemove)
    {
      var x := items[i];
      assert items[..i + 1][..i] == items[..i];
      if x.id !in current {
        ToRemoveErrSticks(items, current, rowIds, i + 1);
        return Err(KeyError(IntToString(x.id)));
      }
      toAdd := AppendRanked(toAdd, x.id, x.alternativeIds);
      var removed := AddRowIds(toRemove, x.id, current[x.id], rowIds);
      if removed.Err? {
        ToRemoveErrSticks(items, current, rowIds, i + 1);
        return Err(removed.error);
      }
      toRemove := removed.value;
    }
    assert items[..|items|] == items;
    return Ok((toAdd, toRemove));
  }
}
