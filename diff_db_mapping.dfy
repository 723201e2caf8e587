// The read-write mapping's overrides of updating and removing
// (spinedb_api/diff_db_mapping.py): an update of a row that lives only in
// the original table copies the item into the diff table and marks the id
// dirty, so the original row drops out of the view; an update of a staged
// row rewrites it in place. Removing deletes the staged rows and marks the
// ids removed and dirty.

module DiffMapping {
  import opened MappingBase
  import opened CacheItems
  import opened DiffBase
  import opened AddMixin

  /** The integer ids of the rows, in the table's id column. */
  function IdsOf(t: Table, rows: seq<Row>): set<int>
  {
    if rows == [] then {}
    else
      var n := |rows| - 1;
      IdsOf(t, rows[..n]) + (if RowId(t, rows[n]).IntV? then {RowId(t, rows[n]).i} else {})
  }

  /** The id of every row with an integer id is among the ids. */
  lemma {:induction false} IdsOfHas(t: Table, rows: seq<Row>, x: Row)
    requires x in rows && RowId(t, x).IntV?
    ensures RowId(t, x).i in IdsOf(t, rows)
    decreases |rows|
  {
    var n := |rows| - 1;
    if x != rows[n] {
      assert x in rows[..n] by {
        var k :| 0 <= k < |rows| && rows[k] == x;
        assert rows[..n][k] == x;
      }
      IdsOfHas(t, rows[..n], x);
    }
  }

  // ---------------------------------------------------------------------------
  // Partitioning the items of an update

  lemma {:induction false} SelectSnoc(t: Table, rows: seq<Row>, x: Row, ids: set<int>)
    ensures Select(t, rows + [x], ids) == Select(t, rows, ids) + (if IdIn(t, x, ids) then [x] else [])
    decreases |rows|
  {
    if rows != [] {
      assert (rows + [x])[1..] == rows[1..] + [x];
      SelectSnoc(t, rows[1..], x, ids);
    }
  }

  lemma {:induction false} WithoutSnoc(t: Table, rows: seq<Row>, x: Row, ids: set<int>)
    ensures Without(t, rows + [x], ids) == Without(t, rows, ids) + (if IdIn(t, x, ids) then [] else [x])
    decreases |rows|
  {
    if rows != [] {
      assert (rows + [x])[1..] == rows[1..] + [x];
      WithoutSnoc(t, rows[1..], x, ids);
    }
  }

  /** Both sides of the partition and the ids grow by one item at a time. */
  lemma PrefixSnoc(t: Table, items: seq<Fields>, i: nat, ids: set<int>)
    requires i < |items|
    ensures Select(t, items[..i + 1], ids) == Select(t, items[..i], ids) + (if IdIn(t, items[i], ids) then [items[i]] else [])
    ensures Without(t, items[..i + 1], ids) == Without(t, items[..i], ids) + (if IdIn(t, items[i], ids) then [] else [items[i]])
    ensures IdsOf(t, items[..i + 1]) == IdsOf(t, items[..i]) + (if RowId(t, items[i]).IntV? then {RowId(t, items[i]).i} else {})
  {
    assert items[..i + 1] == items[..i] + [items[i]];
    assert items[..i + 1][..i] == items[..i];
    SelectSnoc(t, items[..i], items[i], ids);
    WithoutSnoc(t, items[..i], items[i], ids);
  }

  /** Every item goes to exactly one side of the partition, each side keeping the items' order. */
  lemma {:induction false} PartitionIsPermutation(t: Table, rows: seq<Row>, ids: set<int>)
    ensures multiset(Select(t, rows, ids)) + multiset(Without(t, rows, ids)) == multiset(rows)
    decreases |rows|
  {
    if rows != [] {
      PartitionIsPermutation(t, rows[1..], ids);
      assert rows == [rows[0]] + rows[1..];
    }
  }

  /**
   * _get_items_for_update_and_insert, given the table's staged ids (added
   * or updated): the items with a staged id are updated in the diff table;
   * the others are inserted there and their ids become dirty. Every id
   * counts as updated.
   */
  method ForUpdateAndInsert(t: Table, items: seq<Fields>, staged: set<int>)
    returns (forUpdate: seq<Fields>, forInsert: seq<Fields>, dirtyIds: set<int>, updatedIds: set<int>)
    requires forall x :: x in items ==> RowId(t, x).IntV?
    ensures forUpdate == Select(t, items, staged)
    ensures forInsert == Without(t, items, staged)
    ensures dirtyIds == IdsOf(t, forInsert) && updatedIds == IdsOf(t, items)
  {
    forUpdate, forInsert, dirtyIds, updatedIds := [], [], {}, {};
    for i := 0 to |items|
      invariant forUpdate == Select(t, items[..i], staged)
      invariant forInsert == Without(t, items[..i], staged)
      invariant dirtyIds == IdsOf(t, forInsert) && updatedIds == IdsOf(t, items[..i])
    {
      PrefixSnoc(t, items, i, staged);
      var id := RowId(t, items[i]).i;
      updatedIds := updatedIds + {id};
      if id in staged {
        forUpdate := forUpdate + [items[i]];
      } else {
        IdsOfSnoc(t, forInsert, items[i]);
        forInsert := forInsert + [items[i]];
        dirtyIds := dirtyIds + {id};
      }
    }
    assert items[..|items|] == items;
  }

  lemma IdsOfSnoc(t: Table, rows: seq<Row>, x: Row)
    ensures IdsOf(t, rows + [x]) == IdsOf(t, rows) + (if RowId(t, x).IntV? then {RowId(t, x).i} else {})
  {
    assert (rows + [x])[..|rows|] == rows;
  }

  // ---------------------------------------------------------------------------
  // UPDATE ... WHERE <primary key> = :<primary key>, executed once per item

  /** The row and the item agree on every primary key column. */
  predicate Matches(pk: seq<string>, row: Row, item: Fields)
  {
    forall k :: k in pk ==> Get(row, k) == Get(item, k)
  }

  /** The row with the columns set from the item. */
  function Assigned(row: Row, item: Fields, cols: set<string>): (r: Row)
    ensures forall k :: k in cols ==> Get(r, k) == Get(item, k)
    ensures forall k :: k !in cols ==> Get(r, k) == Get(row, k)
  {
    map k | k in row.Keys + cols :: if k in cols then Get(item, k) else row[k]
  }

  /** One UPDATE: every row matching the item's key gets the item's columns. */
  function UpdateOne(rows: seq<Row>, item: Fields, pk: seq<string>, cols: set<string>): (r: seq<Row>)
    ensures |r| == |rows|
    ensures forall i :: 0 <= i < |rows| ==>
      r[i] == if Matches(pk, rows[i], item) then Assigned(rows[i], item, cols) else rows[i]
  {
    seq(|rows|, i requires 0 <= i < |rows| =>
      if Matches(pk, rows[i], item) then Assigned(rows[i], item, cols) else rows[i])
  }

  /** executemany of the UPDATE: the items one after the other. */
  function UpdateAll(rows: seq<Row>, items: seq<Fields>, pk: seq<string>, cols: set<string>): (r: seq<Row>)
    ensures |r| == |rows|
  {
    if items == [] then rows
    else UpdateOne(UpdateAll(rows, items[..|items| - 1], pk, cols), items[|items| - 1], pk, cols)
  }

  /**
   * The columns updated: those of the table that the first item has;
   * nothing when there is no item.
   */
  function UpdateColumns(columns: set<string>, items: seq<Fields>): set<string>
  {
    if items == [] then {} else columns * items[0].Keys
  }

  /** Setting the columns of a row the item matches keeps it matching the same items. */
  lemma AssignedKeepsKey(pk: seq<string>, row: Row, item: Fields, cols: set<string>, other: Fields)
    requires Matches(pk, row, item)
    ensures Matches(pk, Assigned(row, item, cols), other) == Matches(pk, row, other)
  {
  }

  /**
   * With exactly one item matching a row's key, the row ends with that
   * item's columns and its other columns as they were; a row no item
   * matches is left alone.
   */
  lemma {:induction false} UpdateAllUnique(rows: seq<Row>, items: seq<Fields>, pk: seq<string>, cols: set<string>, i: nat, j: nat)
    requires i < |rows| && j < |items| && Matches(pk, rows[i], items[j])
    requires forall l :: 0 <= l < |items| && l != j ==> !Matches(pk, rows[i], items[l])
    ensures UpdateAll(rows, items, pk, cols)[i] == Assigned(rows[i], items[j], cols)
    decreases |items|
  {
    var n := |items| - 1;
    var before := UpdateAll(rows, items[..n], pk, cols);
    if j == n {
      UpdateAllUntouched(rows, items[..n], pk, cols, i);
    } else {
      UpdateAllUnique(rows, items[..n], pk, cols, i, j);
      AssignedKeepsKey(pk, rows[i], items[j], cols, items[n]);
    }
  }

  lemma {:induction false} UpdateAllUntouched(rows: seq<Row>, items: seq<Fields>, pk: seq<string>, cols: set<string>, i: nat)
    requires i < |rows| && forall l :: 0 <= l < |items| ==> !Matches(pk, rows[i], items[l])
    ensures UpdateAll(rows, items, pk, cols)[i] == rows[i]
    decreases |items|
  {
    if items != [] {
      UpdateAllUntouched(rows, items[..|items| - 1], pk, cols, i);
    }
  }

  /** An update never changes the primary key of a row. */
  lemma {:induction false} UpdateAllKeepsKey(rows: seq<Row>, items: seq<Fields>, pk: seq<string>, cols: set<string>, i: nat)
    requires i < |rows|
    ensures forall k :: k in pk ==> Get(UpdateAll(rows, items, pk, cols)[i], k) == Get(rows[i], k)
    decreases |items|
  {
    if items != [] {
      UpdateAllKeepsKey(rows, items[..|items| - 1], pk, cols, i);
    }
  }

  /**
   * What an executemany of the UPDATE does to a table: the rows keep their
   * number and their keys, a row no item matches is left alone, and a row
   * exactly one item matches takes that item's columns.
   */
  lemma UpdateAllRows(rows: seq<Row>, items: seq<Fields>, pk: seq<string>, cols: set<string>)
    ensures |UpdateAll(rows, items, pk, cols)| == |rows|
    ensures forall i, k :: 0 <= i < |rows| && k in pk ==> Get(UpdateAll(rows, items, pk, cols)[i], k) == Get(rows[i], k)
    ensures forall i :: 0 <= i < |rows| && (forall l :: 0 <= l < |items| ==> !Matches(pk, rows[i], items[l])) ==>
      UpdateAll(rows, items, pk, cols)[i] == rows[i]
    ensures forall i, j ::
      (0 <= i < |rows| && 0 <= j < |items| && Matches(pk, rows[i], items[j]) &&
       (forall l :: 0 <= l < |items| && l != j ==> !Matches(pk, rows[i], items[l]))) ==>
      UpdateAll(rows, items, pk, cols)[i] == Assigned(rows[i], items[j], cols)
  {
    forall i | 0 <= i < |rows|
      ensures forall k :: k in pk ==> Get(UpdateAll(rows, items, pk, cols)[i], k) == Get(rows[i], k)
    {
      UpdateAllKeepsKey(rows, items, pk, cols, i);
    }
    forall i | 0 <= i < |rows| && (forall l :: 0 <= l < |items| ==> !Matches(pk, rows[i], items[l]))
      ensures UpdateAll(rows, items, pk, cols)[i] == rows[i]
    {
      UpdateAllUntouched(rows, items, pk, cols, i);
    }
    forall i, j | 0 <= i < |rows| && 0 <= j < |items| && Matches(pk, rows[i], items[j]) &&
      (forall l :: 0 <= l < |items| && l != j ==> !Matches(pk, rows[i], items[l]))
      ensures UpdateAll(rows, items, pk, cols)[i] == Assigned(rows[i], items[j], cols)
    {
      UpdateAllUnique(rows, items, pk, cols, i, j);
    }
  }

  // ---------------------------------------------------------------------------
  // The updates of the diff mapping

  /**
   * _update_and_insert_items followed by the marking of the inserted ids:
   * the diff rows of the staged items are updated, the other items are
   * appended to the diff table, and their ids become dirty and updated.
   */
  method UpdateAndInsert(db: Store, t: Table, forUpdate: seq<Fields>, forInsert: seq<Fields>, dirtyIds: set<int>, columns: set<string>)
    requires db.Valid()
    modifies db
    ensures db.Valid()
    ensures db.diff == SetRows(old(db.diff), t,
      UpdateAll(RowsOf(old(db.diff), t), forUpdate, PrimaryKey(t), UpdateColumns(columns, forUpdate)) + forInsert)
    ensures db.dirty == SetIds(old(db.dirty), t, Of(old(db.dirty), t) + dirtyIds)
    ensures db.updated == SetIds(old(db.updated), t, Of(old(db.updated), t) + dirtyIds)
    ensures db.built == old(db.built) - {t}
    ensures db.committing == old(db.committing) && db.orig == old(db.orig) && db.nextId == old(db.nextId)
    ensures db.added == old(db.added) && db.removed == old(db.removed) && db.commits == old(db.commits)
  {
    var rows := UpdateAll(RowsOf(db.diff, t), forUpdate, PrimaryKey(t), UpdateColumns(columns, forUpdate));
    db.diff := SetRows(db.diff, t, rows + forInsert);
    db.MarkAsDirty(t, dirtyIds);
    db.updated := SetIds(db.updated, t, Of(db.updated, t) + dirtyIds);
  }

  /**
   * _do_update_items of the diff mapping. columns are the diff table's
   * columns. Without a connection only the ids are computed.
   */
  method DoUpdateItems(db: Store, t: Table, items: seq<Fields>, columns: set<string>) returns (updatedIds: set<int>)
    requires db.Valid()
    requires forall x :: x in items ==> RowId(t, x).IntV?
    modifies db
    ensures db.Valid()
    ensures updatedIds == IdsOf(t, items)
    ensures !old(db.committing) ==> db.diff == old(db.diff) && db.dirty == old(db.dirty) && db.updated == old(db.updated)
    ensures old(db.committing) ==> var staged := Of(old(db.added), t) + Of(old(db.updated), t);
      var forUpdate := Select(t, items, staged);
      var forInsert := Without(t, items, staged);
      db.diff == SetRows(old(db.diff), t,
        UpdateAll(RowsOf(old(db.diff), t), forUpdate, PrimaryKey(t), UpdateColumns(columns, forUpdate)) + forInsert)
      && db.dirty == SetIds(old(db.dirty), t, Of(old(db.dirty), t) + IdsOf(t, forInsert))
      && db.updated == SetIds(old(db.updated), t, Of(old(db.updated), t) + IdsOf(t, forInsert))
    // each item that was not staged now shows in the view, and its id is hidden in the original table
    ensures old(db.committing) ==> forall x :: x in items && !IdIn(t, x, Of(old(db.added), t) + Of(old(db.updated), t)) ==>
      x in db.Visible(t) && IdIn(t, x, Of(db.dirty, t))
    ensures db.committing == old(db.committing) && db.orig == old(db.orig) && db.nextId == old(db.nextId)
    ensures db.added == old(db.added) && db.removed == old(db.removed) && db.commits == old(db.commits)
  {
    var forUpdate, forInsert, dirtyIds;
    forUpdate, forInsert, dirtyIds, updatedIds := ForUpdateAndInsert(t, items, Of(db.added, t) + Of(db.updated, t));
    if db.committing {
      UpdateAndInsert(db, t, forUpdate, forInsert, dirtyIds, columns);
      forall x | x in items && !IdIn(t, x, Of(old(db.added), t) + Of(old(db.updated), t))
        ensures x in db.Visible(t) && IdIn(t, x, Of(db.dirty, t))
      {
        assert x in forInsert;
        IdsOfHas(t, forInsert, x);
        assert db.Staged(t);
        assert x in RowsOf(db.diff, t);
      }
    }
  }

  /** The relationship's columns without the two member lists (the entity row). */
  function EntItem(item: Fields): (r: Fields)
    ensures r.Keys == item.Keys - {"object_class_id_list", "object_id_list"}
    ensures forall k :: k in r ==> r[k] == item[k]
  {
    item - {"object_class_id_list", "object_id_list"}
  }

  /** list(value) of a popped member list; a missing or non-list value is empty. */
  function MemberList(v: Val): seq<int>
  {
    if v.IdsV? then v.ids else []
  }

  /** The relationship_entity row of one dimension of a relationship. */
  function RelEntRow(item: Fields, d: nat, memberClass: int, member: int): (r: Fields)
    ensures {"entity_id", "entity_class_id", "dimension", "member_class_id", "member_id"} <= r.Keys
    ensures r["entity_id"] == Get(item, "id") && r["entity_class_id"] == Get(item, "class_id")
    ensures r["dimension"] == IntV(d) && r["member_class_id"] == IntV(memberClass) && r["member_id"] == IntV(member)
    ensures "id" !in r && "class_id" !in r
    ensures forall k :: k in item && k !in {"id", "class_id", "object_class_id_list", "object_id_list"} && k in r ==>
      k in {"entity_id", "entity_class_id", "dimension", "member_class_id", "member_id"} || r[k] == item[k]
  {
    (EntItem(item) - {"class_id", "id"})["entity_class_id" := Get(item, "class_id")]["entity_id" := Get(item, "id")]
      ["dimension" := IntV(d)]["member_class_id" := IntV(memberClass)]["member_id" := IntV(member)]
  }

  /**
   * The relationship_entity rows of a relationship: one per dimension of
   * zip(object_class_id_list, object_id_list).
   */
  function RelEntItems(item: Fields): (r: seq<Fields>)
    ensures var classes := MemberList(Get(item, "object_class_id_list"));
      var members := MemberList(Get(item, "object_id_list"));
      |r| == (if |classes| <= |members| then |classes| else |members|)
      && forall d :: 0 <= d < |r| ==> r[d] == RelEntRow(item, d, classes[d], members[d])
  {
    var classes := MemberList(Get(item, "object_class_id_list"));
    var members := MemberList(Get(item, "object_id_list"));
    var n := if |classes| <= |members| then |classes| else |members|;
    seq(n, d requires 0 <= d < n => RelEntRow(item, d, classes[d], members[d]))
  }

  /** The relationship_entity rows of all the relationships, relationship after relationship. */
  function AllRelEntItems(items: seq<Fields>): seq<Fields>
  {
    if items == [] then [] else AllRelEntItems(items[..|items| - 1]) + RelEntItems(items[|items| - 1])
  }

  /** Each relationship_entity row is keyed by its relationship's id, so by an int when every relationship has one. */
  lemma {:induction false} RelEntItemsKeyed(items: seq<Fields>, x: Fields)
    requires forall y :: y in items ==> Get(y, "id").IntV?
    requires x in AllRelEntItems(items)
    ensures Get(x, "entity_id").IntV?
    decreases |items|
  {
    var n := |items| - 1;
    if x in AllRelEntItems(items[..n]) {
      RelEntItemsKeyed(items[..n], x);
    } else {
      var r := RelEntItems(items[n]);
      var d :| 0 <= d < |r| && r[d] == x;
      assert items[n] in items;
    }
  }

  /** A table's diff rows after an update: the staged items rewrite their rows, the others are appended. */
  function UpdatedRows(rows: seq<Row>, t: Table, items: seq<Fields>, staged: set<int>, columns: set<string>): seq<Row>
  {
    var forUpdate := Select(t, items, staged);
    UpdateAll(rows, forUpdate, PrimaryKey(t), UpdateColumns(columns, forUpdate)) + Without(t, items, staged)
  }

  /** The entity rows of relationships carry their ids. */
  lemma EntRowsKeyed(items: seq<Fields>, types: Types)
    requires forall x :: x in items ==> Get(x, "id").IntV?
    ensures forall x :: x in Map(EntItem, WithTypeId(Relationship, items, types)) ==> RowId(Entity, x).IntV?
    ensures forall x :: x in items ==> Get(x, "id").i in IdsOf(Entity, Map(EntItem, WithTypeId(Relationship, items, types)))
  {
    var entItems := Map(EntItem, WithTypeId(Relationship, items, types));
    forall x | x in entItems
      ensures RowId(Entity, x).IntV?
    {
      var k :| 0 <= k < |entItems| && entItems[k] == x;
      assert items[k] in items;
    }
    forall x | x in items
      ensures Get(x, "id").i in IdsOf(Entity, entItems)
    {
      var k :| 0 <= k < |items| && items[k] == x;
      assert entItems[k] in entItems && RowId(Entity, entItems[k]) == Get(x, "id");
      IdsOfHas(Entity, entItems, entItems[k]);
    }
  }

  /** The relationship_entity rows of relationships carry their relationship's id. */
  lemma RelEntRowsKeyed(items: seq<Fields>, types: Types)
    requires forall x :: x in items ==> Get(x, "id").IntV?
    ensures forall x :: x in AllRelEntItems(WithTypeId(Relationship, items, types)) ==> RowId(RelationshipEntity, x).IntV?
  {
    var typed := WithTypeId(Relationship, items, types);
    forall y | y in typed
      ensures Get(y, "id").IntV?
    {
      var k :| 0 <= k < |typed| && typed[k] == y;
      assert items[k] in items;
    }
    assert TableId(RelationshipEntity) == "entity_id";
    forall x | x in AllRelEntItems(typed)
      ensures RowId(RelationshipEntity, x).IntV?
    {
      RelEntItemsKeyed(typed, x);
    }
  }

  /**
   * _update_wide_relationships of the diff mapping: the entity rows and the
   * relationship_entity rows are each updated in or inserted into their
   * diff table, as an update does; the ids updated in either are returned,
   * and these include every relationship's id.
   */
  method UpdateWideRelationships(db: Store, items: seq<Fields>, types: Types, columns: Table -> set<string>) returns (updatedIds: set<int>)
    requires db.Valid()
    requires forall x :: x in items ==> Get(x, "id").IntV?
    modifies db
    ensures db.Valid()
    ensures var ents := Map(EntItem, WithTypeId(Relationship, items, types));
      var rels := AllRelEntItems(WithTypeId(Relationship, items, types));
      var sE := Of(old(db.added), Entity) + Of(old(db.updated), Entity);
      var sR := Of(old(db.added), RelationshipEntity) + Of(old(db.updated), RelationshipEntity);
      updatedIds == IdsOf(Entity, ents) + IdsOf(RelationshipEntity, rels)
      && db.diff == SetRows(SetRows(old(db.diff), Entity, UpdatedRows(RowsOf(old(db.diff), Entity), Entity, ents, sE, columns(Entity))),
                            RelationshipEntity, UpdatedRows(RowsOf(old(db.diff), RelationshipEntity), RelationshipEntity, rels, sR, columns(RelationshipEntity)))
      && db.dirty == SetIds(SetIds(old(db.dirty), Entity, Of(old(db.dirty), Entity) + IdsOf(Entity, Without(Entity, ents, sE))),
                            RelationshipEntity, Of(old(db.dirty), RelationshipEntity) + IdsOf(RelationshipEntity, Without(RelationshipEntity, rels, sR)))
      && db.updated == SetIds(SetIds(old(db.updated), Entity, Of(old(db.updated), Entity) + IdsOf(Entity, Without(Entity, ents, sE))),
                              RelationshipEntity, Of(old(db.updated), RelationshipEntity) + IdsOf(RelationshipEntity, Without(RelationshipEntity, rels, sR)))
    ensures forall x :: x in items ==> Get(x, "id").i in updatedIds
    ensures db.committing == old(db.committing) && db.orig == old(db.orig) && db.nextId == old(db.nextId)
    ensures db.added == old(db.added) && db.removed == old(db.removed) && db.commits == old(db.commits)
  {
    var typed := WithTypeId(Relationship, items, types);
    var entItems := Map(EntItem, typed);
    var relEntItems := AllRelEntItems(typed);
    EntRowsKeyed(items, types);
    RelEntRowsKeyed(items, types);
    var entUpdate, entInsert, entDirty, entUpdated := ForUpdateAndInsert(Entity, entItems, Of(db.added, Entity) + Of(db.updated, Entity));
    var reUpdate, reInsert, reDirty, reUpdated := ForUpdateAndInsert(RelationshipEntity, relEntItems, Of(db.added, RelationshipEntity) + Of(db.updated, RelationshipEntity));
    UpdateAndInsert(db, Entity, entUpdate, entInsert, entDirty, columns(Entity));
    UpdateAndInsert(db, RelationshipEntity, reUpdate, reInsert, reDirty, columns(RelationshipEntity));
    updatedIds := entUpdated + reUpdated;
  }

  /** [f(x) for x in xs]. */
  function Map(f: Fields -> Fields, xs: seq<Fields>): (r: seq<Fields>)
    ensures |r| == |xs| && forall i :: 0 <= i < |xs| ==> r[i] == f(xs[i])
  {
    seq(|xs|, i requires 0 <= i < |xs| => f(xs[i]))
  }

  // ---------------------------------------------------------------------------
  // Removing

  /** The diff tables with the rows of the given ids deleted, table by table. */
  function DeletedFrom(d: Tables, ids: map<Table, set<int>>): (r: Tables)
    ensures forall u :: RowsOf(r, u) == Without(u, RowsOf(d, u), Of(ids, u))
  {
    map u | u in d :: Without(u, RowsOf(d, u), Of(ids, u))
  }

  /** The ids of the tables already handled (those not in rest). */
  function Done(ids: map<Table, set<int>>, rest: set<Table>, u: Table): set<int>
  {
    if u in ids && u !in rest then ids[u] else {}
  }

  lemma StepMinus(before: Sets, after: Sets, start: Sets, ids: map<Table, set<int>>, rest: set<Table>, u: Table)
    requires u in rest && u in ids
    requires forall v :: Of(before, v) == Of(start, v) - Done(ids, rest, v)
    requires after == SetIds(before, u, Of(before, u) - ids[u])
    ensures forall v :: Of(after, v) == Of(start, v) - Done(ids, rest - {u}, v)
  {
    forall v
      ensures Of(after, v) == Of(start, v) - Done(ids, rest - {u}, v)
    {
      if v == u {
        assert Of(before, u) == Of(start, u);
      } else {
        assert Done(ids, rest - {u}, v) == Done(ids, rest, v);
      }
    }
  }

  lemma StepPlus(before: Sets, after: Sets, start: Sets, ids: map<Table, set<int>>, rest: set<Table>, u: Table)
    requires u in rest && u in ids
    requires forall v :: Of(before, v) == Of(start, v) + Done(ids, rest, v)
    requires after == SetIds(before, u, Of(before, u) + ids[u])
    ensures forall v :: Of(after, v) == Of(start, v) + Done(ids, rest - {u}, v)
  {
    forall v
      ensures Of(after, v) == Of(start, v) + Done(ids, rest - {u}, v)
    {
      if v == u {
        assert Of(before, u) == Of(start, u);
      } else {
        assert Done(ids, rest - {u}, v) == Done(ids, rest, v);
      }
    }
  }

  /** The bookkeeping of removing ids from one table: out of added and updated, into removed and dirty. */
  method MarkRemoved(db: Store, u: Table, these: set<int>)
    requires db.Valid()
    modifies db
    ensures db.Valid()
    ensures db.added == SetIds(old(db.added), u, Of(old(db.added), u) - these)
    ensures db.updated == SetIds(old(db.updated), u, Of(old(db.updated), u) - these)
    ensures db.removed == SetIds(old(db.removed), u, Of(old(db.removed), u) + these)
    ensures db.dirty == SetIds(old(db.dirty), u, Of(old(db.dirty), u) + these)
    ensures db.built == old(db.built) - {u}
    ensures db.committing == old(db.committing) && db.orig == old(db.orig) && db.diff == old(db.diff)
    ensures db.nextId == old(db.nextId) && db.commits == old(db.commits)
  {
    db.added := SetIds(db.added, u, Of(db.added, u) - these);
    db.updated := SetIds(db.updated, u, Of(db.updated, u) - these);
    db.removed := SetIds(db.removed, u, Of(db.removed, u) + these);
    db.MarkAsDirty(u, these);
  }

  /** The loop of remove_items over the tables: the ids of each leave the added and updated sets and join the removed and dirty ones. */
  method MarkAllRemoved(db: Store, ids: map<Table, set<int>>)
    requires db.Valid()
    modifies db
    ensures db.Valid()
    ensures forall u :: Of(db.added, u) == Of(old(db.added), u) - Of(ids, u)
    ensures forall u :: Of(db.updated, u) == Of(old(db.updated), u) - Of(ids, u)
    ensures forall u :: Of(db.removed, u) == Of(old(db.removed), u) + Of(ids, u)
    ensures forall u :: Of(db.dirty, u) == Of(old(db.dirty), u) + Of(ids, u)
    ensures forall u :: u in db.built <==> u in old(db.built) && u !in ids
    ensures db.committing == old(db.committing) && db.orig == old(db.orig) && db.nextId == old(db.nextId)
    ensures db.commits == old(db.commits) && db.diff == old(db.diff)
  {
    var rest := ids.Keys;
    while rest != {}
      invariant rest <= ids.Keys
      invariant db.Valid()
      invariant db.committing == old(db.committing) && db.orig == old(db.orig) && db.nextId == old(db.nextId)
      invariant db.commits == old(db.commits)
      invariant db.diff == old(db.diff)
      invariant forall u :: Of(db.added, u) == Of(old(db.added), u) - Done(ids, rest, u)
      invariant forall u :: Of(db.updated, u) == Of(old(db.updated), u) - Done(ids, rest, u)
      invariant forall u :: Of(db.removed, u) == Of(old(db.removed), u) + Done(ids, rest, u)
      invariant forall u :: Of(db.dirty, u) == Of(old(db.dirty), u) + Done(ids, rest, u)
      invariant forall u :: u in db.built <==> u in old(db.built) && !(u in ids && u !in rest)
      decreases rest
    {
      var u :| u in rest;
      ghost var (a0, u0, r0, d0) := (db.added, db.updated, db.removed, db.dirty);
      MarkRemoved(db, u, ids[u]);
      StepMinus(a0, db.added, old(db.added), ids, rest, u);
      StepMinus(u0, db.updated, old(db.updated), ids, rest, u);
      StepPlus(r0, db.removed, old(db.removed), ids, rest, u);
      StepPlus(d0, db.dirty, old(db.dirty), ids, rest, u);
      rest := rest - {u};
    }
  }

  /**
   * remove_items of the diff mapping (not in cascade): with a connection
   * the staged rows of the ids are deleted; in every case the ids leave
   * the added and updated sets and join the removed and dirty ones.
   */
  method RemoveItems(db: Store, ids: map<Table, set<int>>)
    requires db.Valid()
    modifies db
    ensures db.Valid()
    ensures old(db.committing) ==> db.diff == DeletedFrom(old(db.diff), ids)
    ensures !old(db.committing) ==> db.diff == old(db.diff)
    ensures forall u :: Of(db.added, u) == Of(old(db.added), u) - Of(ids, u)
    ensures forall u :: Of(db.updated, u) == Of(old(db.updated), u) - Of(ids, u)
    ensures forall u :: Of(db.removed, u) == Of(old(db.removed), u) + Of(ids, u)
    ensures forall u :: Of(db.dirty, u) == Of(old(db.dirty), u) + Of(ids, u)
    ensures forall u :: u in db.built <==> u in old(db.built) && u !in ids
    // removed rows disappear from the view at once
    ensures old(db.committing) ==> forall u, x :: x in db.Visible(u) ==> !IdIn(u, x, Of(ids, u))
    ensures db.committing == old(db.committing) && db.orig == old(db.orig) && db.nextId == old(db.nextId)
    ensures db.commits == old(db.commits)
  {
    if db.committing {
      db.diff := DeletedFrom(db.diff, ids);
    }
    MarkAllRemoved(db, ids);
    if old(db.committing) {
      forall u, x | x in db.Visible(u)
        ensures !IdIn(u, x, Of(ids, u))
      {
        if x in RowsOf(db.diff, u) && db.Staged(u) {
          assert RowsOf(db.diff, u) == Without(u, RowsOf(old(db.diff), u), Of(ids, u));
        }
      }
    }
  }
}
