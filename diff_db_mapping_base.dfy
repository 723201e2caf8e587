// The staging layer of the read-write mapping
// (spinedb_api/diff_db_mapping_base.py): every table has a temporary diff
// table and four id sets (added, updated, removed, dirty); what a query
// sees is the original rows that are not dirty followed by the diff rows.
// The class Store gathers the state that the mixins of the mapping share:
// the original and diff tables, the id sets, the next_id row and the
// commit table.

module DiffBase {
  import opened Errors
  import opened MappingBase
  import opened CacheItems

  /** A table row: column name to value. */
  type Row = Fields

  /** One id set per table; a table missing from the map has the empty set. */
  type Sets = map<Table, set<int>>

  /** The rows of each table; a table missing from the map has no rows. */
  type Tables = map<Table, seq<Row>>

  function Of(s: Sets, t: Table): set<int>
  {
    if t in s then s[t] else {}
  }

  function RowsOf(ts: Tables, t: Table): seq<Row>
  {
    if t in ts then ts[t] else []
  }

  /** The value of the table's id column in the row (table_ids.get(t, "id")). */
  function RowId(t: Table, row: Row): Val
  {
    Get(row, TableId(t))
  }

  /** The row's id is one of ids. */
  predicate IdIn(t: Table, row: Row, ids: set<int>)
  {
    RowId(t, row).IntV? && RowId(t, row).i in ids
  }

  /** `WHERE id NOT IN ids`: the rows whose id is not one of ids, in table order. */
  function Without(t: Table, rows: seq<Row>, ids: set<int>): (r: seq<Row>)
    ensures forall x :: x in r <==> x in rows && !IdIn(t, x, ids)
    ensures ids == {} ==> r == rows
    ensures |r| <= |rows|
  {
    if rows == [] then []
    else if IdIn(t, rows[0], ids) then Without(t, rows[1..], ids)
    else [rows[0]] + Without(t, rows[1..], ids)
  }

  /** `WHERE id IN ids`: the rows whose id is one of ids, in table order. */
  function Select(t: Table, rows: seq<Row>, ids: set<int>): (r: seq<Row>)
    ensures forall x :: x in r <==> x in rows && IdIn(t, x, ids)
    ensures ids == {} ==> r == []
    ensures |r| <= |rows|
  {
    if rows == [] then []
    else if IdIn(t, rows[0], ids) then [rows[0]] + Select(t, rows[1..], ids)
    else Select(t, rows[1..], ids)
  }

  /** The same table with the rows of one table replaced. */
  function SetRows(ts: Tables, t: Table, rows: seq<Row>): (r: Tables)
    ensures RowsOf(r, t) == rows
    ensures forall u :: u != t ==> RowsOf(r, u) == RowsOf(ts, u)
  {
    ts[t := rows]
  }

  /** The same sets with the set of one table replaced. */
  function SetIds(s: Sets, t: Table, ids: set<int>): (r: Sets)
    ensures Of(r, t) == ids
    ensures forall u :: u != t ==> Of(r, u) == Of(s, u)
  {
    s[t := ids]
  }

  class Store {
    var committing: bool
    /** The original tables of the database. */
    var orig: Tables
    /** The temporary diff tables holding the staged rows. */
    var diff: Tables
    var added: Sets
    var updated: Sets
    var removed: Sets
    var dirty: Sets
    /** The tables whose cached subqueries are built (not None). */
    var built: set<Table>
    /** The next_id row, when there is one: its counters that are not NULL. */
    var nextId: Option<map<string, int>>
    /** The commit table: the message of each commit, the id of the k-th being k + 1. */
    var commits: seq<string>

    /** An id is dirty exactly when it has been updated or removed. */
    ghost predicate Valid()
      reads this
    {
      forall t :: Of(dirty, t) == Of(updated, t) + Of(removed, t)
    }

    /** __init__ and _init_diff_dicts: nothing staged yet, every set empty. */
    constructor (committing: bool, orig: Tables, nextId: Option<map<string, int>>, commits: seq<string>)
      ensures Valid() && !HasPendingChanges()
      ensures this.committing == committing && this.orig == orig && this.nextId == nextId
      ensures this.commits == commits
      ensures diff == map[] && added == map[] && updated == map[] && removed == map[] && dirty == map[]
      ensures built == {}
    {
      this.committing := committing;
      this.orig := orig;
      this.nextId := nextId;
      this.commits := commits;
      diff := map[];
      added := map[];
      updated := map[];
      removed := map[];
      dirty := map[];
      built := {};
    }

    /** Some row of the table has been added or updated, so its diff table joins the view. */
    predicate Staged(t: Table)
      reads this
    {
      Of(added, t) != {} || Of(updated, t) != {}
    }

    /**
     * _subquery: the original rows whose id is not dirty, followed, once
     * anything has been added or updated in the table, by the diff rows.
     */
    function Visible(t: Table): (r: seq<Row>)
      reads this
      ensures forall x :: x in r <==>
        (x in RowsOf(orig, t) && !IdIn(t, x, Of(dirty, t))) || (Staged(t) && x in RowsOf(diff, t))
      ensures !Staged(t) ==> r == Without(t, RowsOf(orig, t), Of(dirty, t))
      ensures Staged(t) ==> |r| == |Without(t, RowsOf(orig, t), Of(dirty, t))| + |RowsOf(diff, t)|
      ensures Staged(t) ==> r[..|Without(t, RowsOf(orig, t), Of(dirty, t))|] == Without(t, RowsOf(orig, t), Of(dirty, t))
      ensures Staged(t) ==> r[|Without(t, RowsOf(orig, t), Of(dirty, t))|..] == RowsOf(diff, t)
    {
      Without(t, RowsOf(orig, t), Of(dirty, t)) + (if Staged(t) then RowsOf(diff, t) else [])
    }

    /** has_pending_changes: some table has added ids or dirty ids. */
    predicate HasPendingChanges()
      reads this
    {
      (exists t :: t in added && added[t] != {}) || (exists t :: t in dirty && dirty[t] != {})
    }

    /** diff_ids: per table, the ids whose rows live in the diff table. */
    function DiffIds(): (r: Sets)
      reads this
      ensures forall t :: Of(r, t) == Of(added, t) + Of(updated, t)
    {
      map t | t in added.Keys + updated.Keys :: Of(added, t) + Of(updated, t)
    }

    /** _clear_subqueries for the tables ts: their subqueries are rebuilt when next used. */
    method ClearSubqueries(ts: set<Table>)
      modifies this
      ensures built == old(built) - ts
      ensures committing == old(committing) && orig == old(orig) && diff == old(diff)
      ensures added == old(added) && updated == old(updated) && removed == old(removed) && dirty == old(dirty)
      ensures nextId == old(nextId) && commits == old(commits)
    {
      built := built - ts;
    }

    /** _mark_as_dirty: the ids join the table's dirty set and its subqueries are cleared. */
    method MarkAsDirty(t: Table, ids: set<int>)
      modifies this
      ensures dirty == SetIds(old(dirty), t, Of(old(dirty), t) + ids)
      ensures built == old(built) - {t}
      ensures committing == old(committing) && orig == old(orig) && diff == old(diff)
      ensures added == old(added) && updated == old(updated) && removed == old(removed)
      ensures nextId == old(nextId) && commits == old(commits)
    {
      dirty := SetIds(dirty, t, Of(dirty, t) + ids);
      ClearSubqueries({t});
    }

    /** _reset_diff_dicts: every set empty again and every subquery cleared. */
    method ResetDiffDicts()
      modifies this
      ensures Valid() && !HasPendingChanges()
      ensures forall t :: Of(added, t) == {} && Of(updated, t) == {} && Of(removed, t) == {} && Of(dirty, t) == {}
      ensures built == {}
      ensures committing == old(committing) && orig == old(orig) && diff == old(diff)
      ensures nextId == old(nextId) && commits == old(commits)
    {
      added := map[];
      updated := map[];
      removed := map[];
      dirty := map[];
      built := {};
    }

    /** _reset_diff_mapping: every diff table emptied, the tables themselves kept. */
    method ResetDiffMapping()
      modifies this
      ensures forall t :: RowsOf(diff, t) == []
      ensures committing == old(committing) && orig == old(orig)
      ensures added == old(added) && updated == old(updated) && removed == old(removed) && dirty == old(dirty)
      ensures built == old(built) && nextId == old(nextId) && commits == old(commits)
    {
      diff := map[];
    }
  }

  /** With nothing pending, every table shows exactly its original rows. */
  lemma NothingPendingShowsOriginal(s: Store, t: Table)
    requires s.Valid() && !s.HasPendingChanges()
    ensures s.Visible(t) == RowsOf(s.orig, t)
  {
    assert Of(s.added, t) == {};
    assert Of(s.dirty, t) == {};
  }

  /** Pending changes are exactly some table with a non-empty added, updated or removed set. */
  lemma PendingIffSomeSet(s: Store)
    requires s.Valid()
    ensures s.HasPendingChanges() <==>
      exists t :: Of(s.added, t) != {} || Of(s.updated, t) != {} || Of(s.removed, t) != {}
  {
    if s.HasPendingChanges() {
      if exists t :: t in s.added && s.added[t] != {} {
        var t :| t in s.added && s.added[t] != {};
        assert Of(s.added, t) != {};
      } else {
        var t :| t in s.dirty && s.dirty[t] != {};
        assert Of(s.dirty, t) == Of(s.updated, t) + Of(s.removed, t);
      }
    }
    if exists t :: Of(s.added, t) != {} || Of(s.updated, t) != {} || Of(s.removed, t) != {} {
      var t :| Of(s.added, t) != {} || Of(s.updated, t) != {} || Of(s.removed, t) != {};
      assert Of(s.dirty, t) == Of(s.updated, t) + Of(s.removed, t);
      assert (t in s.added && s.added[t] != {}) || (t in s.dirty && s.dirty[t] != {});
    }
  }
}
