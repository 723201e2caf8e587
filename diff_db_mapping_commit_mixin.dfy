// Committing and rolling back the staged changes of the read-write mapping
// (spinedb_api/diff_db_mapping_commit_mixin.py). A commit inserts a row
// into the commit table, then, table by table, deletes the removed ids
// from the original tables, copies the updated diff rows over the original
// rows with the same primary key and appends the added diff rows, the
// copied rows all carrying the new commit id; finally the diff tables are
// emptied and the id sets reset.

module CommitMixin {
  import opened Errors
  import opened MappingBase
  import opened CacheItems
  import opened DiffBase
  import opened DiffMapping

  /** The rows with the commit id set (kwargs["commit_id"] = commit_id). */
  function WithCommitId(rows: seq<Row>, c: int): (r: seq<Row>)
    ensures |r| == |rows|
    ensures forall i :: 0 <= i < |rows| ==> r[i] == rows[i]["commit_id" := IntV(c)]
  {
    seq(|rows|, i requires 0 <= i < |rows| => rows[i]["commit_id" := IntV(c)])
  }

  /** The removal phase on one table: the rows whose id was removed are deleted. */
  function RemoveStep(t: Table, rows: seq<Row>, removed: set<int>): seq<Row>
  {
    if removed == {} then rows else Without(t, rows, removed)
  }

  /**
   * The update phase on one table: the diff rows of the updated ids, with
   * the commit id, overwrite every column of the original rows with the same
   * primary key, one after the other.
   */
  function UpdateStep(t: Table, rows: seq<Row>, diffRows: seq<Row>, updated: set<int>, c: int, cols: set<string>): seq<Row>
  {
    if updated == {} then rows
    else UpdateAll(rows, WithCommitId(Select(t, diffRows, updated), c), PrimaryKey(t), cols)
  }

  /** The addition phase on one table: the diff rows of the added ids, with the commit id, are appended. */
  function AddStep(t: Table, rows: seq<Row>, diffRows: seq<Row>, added: set<int>, c: int): seq<Row>
  {
    if added == {} then rows else rows + WithCommitId(Select(t, diffRows, added), c)
  }

  /** A table after a commit with id c: removals first, then updates, then additions. */
  function CommitTable(t: Table, rows: seq<Row>, diffRows: seq<Row>, removed: set<int>, updated: set<int>, added: set<int>,
                       c: int, cols: set<string>): seq<Row>
  {
    AddStep(t, UpdateStep(t, RemoveStep(t, rows, removed), diffRows, updated, c, cols), diffRows, added, c)
  }

  /**
   * One phase of the commit: step is run on every table of keys, one table
   * at a time; the others keep their rows.
   */
  method ForEachTable(tables: Tables, keys: set<Table>, step: (Table, seq<Row>) -> seq<Row>) returns (r: Tables)
    ensures forall t :: RowsOf(r, t) == if t in keys then step(t, RowsOf(tables, t)) else RowsOf(tables, t)
  {
    r := tables;
    var rest := keys;
    while rest != {}
      invariant rest <= keys
      invariant forall t :: RowsOf(r, t) == if t in keys && t !in rest then step(t, RowsOf(tables, t)) else RowsOf(tables, t)
      decreases rest
    {
      var t :| t in rest;
      r := SetRows(r, t, step(t, RowsOf(r, t)));
      rest := rest - {t};
    }
  }

  /**
   * The original tables after a commit with id c: every table is its
   * CommitTable, given its diff rows and id sets.
   */
  ghost predicate IsCommitted(r: Tables, orig: Tables, diff: Tables, removed: Sets, updated: Sets, added: Sets, c: int,
                              columns: Table -> set<string>)
  {
    forall t :: RowsOf(r, t) ==
      CommitTable(t, RowsOf(orig, t), RowsOf(diff, t), Of(removed, t), Of(updated, t), Of(added, t), c, columns(t))
  }

  /** The three phases of a commit on the original tables: every removal, then every update, then every addition. */
  method CommitTables(orig: Tables, diff: Tables, removed: Sets, updated: Sets, added: Sets, c: int,
                      columns: Table -> set<string>) returns (r: Tables)
    ensures IsCommitted(r, orig, diff, removed, updated, added, c, columns)
  {
    r := ForEachTable(orig, removed.Keys, (t, rows) => RemoveStep(t, rows, Of(removed, t)));
    r := ForEachTable(r, updated.Keys, (t, rows) => UpdateStep(t, rows, RowsOf(diff, t), Of(updated, t), c, columns(t)));
    r := ForEachTable(r, added.Keys, (t, rows) => AddStep(t, rows, RowsOf(diff, t), Of(added, t), c));
  }

  /**
   * commit_session: with nothing pending or an empty comment the commit is
   * refused and nothing changes; otherwise the comment becomes commit
   * number |commits| + 1, every original table becomes its CommitTable, and
   * the diff tables and id sets are emptied, so nothing is pending and every
   * table shows its new original rows.
   */
  method CommitSession(db: Store, comment: string, columns: Table -> set<string>) returns (r: Result<()>)
    requires db.Valid()
    modifies db
    ensures r == CheckCommit(old(db.HasPendingChanges()), comment)
    ensures r.Err? ==> unchanged(db)
    ensures r.Ok? ==> db.commits == old(db.commits) + [comment]
    ensures r.Ok? ==> IsCommitted(db.orig, old(db.orig), old(db.diff), old(db.removed), old(db.updated), old(db.added),
                                  |old(db.commits)| + 1, columns)
    ensures r.Ok? ==> db.Valid() && !db.HasPendingChanges() && db.built == {}
    ensures r.Ok? ==> forall t :: RowsOf(db.diff, t) == [] && db.Visible(t) == RowsOf(db.orig, t)
    ensures db.committing == old(db.committing) && db.nextId == old(db.nextId)
  {
    r := CheckCommit(db.HasPendingChanges(), comment);
    if r.Err? {
      return;
    }
    var c := |db.commits| + 1;
    db.commits := db.commits + [comment];
    db.orig := CommitTables(db.orig, db.diff, db.removed, db.updated, db.added, c, columns);
    db.ResetDiffMapping();
    db.ResetDiffDicts();
    forall t
      ensures db.Visible(t) == RowsOf(db.orig, t)
    {
      NothingPendingShowsOriginal(db, t);
    }
  }

  /** reset_session: the diff tables are emptied and the id sets reset; the original tables stay. */
  method ResetSession(db: Store)
    modifies db
    ensures db.Valid() && !db.HasPendingChanges() && db.built == {}
    ensures forall t :: RowsOf(db.diff, t) == [] && db.Visible(t) == RowsOf(db.orig, t)
    ensures db.orig == old(db.orig) && db.commits == old(db.commits)
    ensures db.committing == old(db.committing) && db.nextId == old(db.nextId)
  {
    db.ResetDiffMapping();
    db.ResetDiffDicts();
    forall t
      ensures db.Visible(t) == RowsOf(db.orig, t)
    {
      NothingPendingShowsOriginal(db, t);
    }
  }

  /** rollback_session: refused with nothing pending; otherwise every staged change is discarded. */
  method RollbackSession(db: Store) returns (r: Result<()>)
    modifies db
    ensures r.Ok? <==> old(db.HasPendingChanges())
    ensures r.Err? ==> r.error == SpineDBAPIError("Nothing to rollback.") && unchanged(db)
    ensures r.Ok? ==> db.Valid() && !db.HasPendingChanges()
    ensures r.Ok? ==> forall t :: RowsOf(db.diff, t) == [] && db.Visible(t) == RowsOf(db.orig, t)
    ensures db.orig == old(db.orig) && db.commits == old(db.commits)
  {
    if !db.HasPendingChanges() {
      return Err(SpineDBAPIError("Nothing to rollback."));
    }
    ResetSession(db);
    r := Ok(());
  }

  // ---------------------------------------------------------------------------
  // What a commit does to a table

  /**
   * When every item carries commit id c and the commit_id column is
   * written, each row after the updates is either untouched or carries c.
   */
  lemma {:induction false} UpdateAllStamped(rows: seq<Row>, items: seq<Fields>, pk: seq<string>, cols: set<string>, c: int, i: nat)
    requires i < |rows| && "commit_id" in cols
    requires forall l :: 0 <= l < |items| ==> Get(items[l], "commit_id") == IntV(c)
    ensures UpdateAll(rows, items, pk, cols)[i] == rows[i] || Get(UpdateAll(rows, items, pk, cols)[i], "commit_id") == IntV(c)
    decreases |items|
  {
    if items != [] {
      var n := |items| - 1;
      UpdateAllStamped(rows, items[..n], pk, cols, c, i);
      assert Get(items[n], "commit_id") == IntV(c);
    }
  }

  /**
   * Every added diff row reaches the original table with the commit id, even
   * when its id was also removed (a row removed and then re-added): the
   * removals run first, so they cannot delete it.
   */
  lemma ReaddedRowSurvives(t: Table, rows: seq<Row>, diffRows: seq<Row>, removed: set<int>, updated: set<int>, added: set<int>,
                           c: int, cols: set<string>, x: Row)
    requires x in diffRows && IdIn(t, x, added)
    ensures x["commit_id" := IntV(c)] in CommitTable(t, rows, diffRows, removed, updated, added, c, cols)
  {
    var sel := Select(t, diffRows, added);
    var j :| 0 <= j < |sel| && sel[j] == x;
    assert WithCommitId(sel, c)[j] == x["commit_id" := IntV(c)];
  }

  /** After the removal and update phases no row has a removed id: an update never changes a row's key. */
  lemma UpdatedHasNoRemoved(t: Table, rows: seq<Row>, diffRows: seq<Row>, removed: set<int>, updated: set<int>,
                            c: int, cols: set<string>)
    ensures forall y :: y in UpdateStep(t, RemoveStep(t, rows, removed), diffRows, updated, c, cols) ==> !IdIn(t, y, removed)
  {
    var kept := RemoveStep(t, rows, removed);
    var upd := UpdateStep(t, kept, diffRows, updated, c, cols);
    assert TableId(t) in PrimaryKey(t);
    forall y | y in upd
      ensures !IdIn(t, y, removed)
    {
      var i :| 0 <= i < |upd| && upd[i] == y;
      if updated != {} {
        UpdateAllKeepsKey(kept, WithCommitId(Select(t, diffRows, updated), c), PrimaryKey(t), cols, i);
      }
      assert RowId(t, kept[i]) == RowId(t, y);
      assert kept[i] in kept;
    }
  }

  /**
   * After a commit no row of the table has a removed id unless it is one
   * of the added diff rows: a removed row is gone, and an update cannot
   * bring it back since it never changes a row's key.
   */
  lemma RemovedRowsGone(t: Table, rows: seq<Row>, diffRows: seq<Row>, removed: set<int>, updated: set<int>, added: set<int>,
                        c: int, cols: set<string>, y: Row)
    requires y in CommitTable(t, rows, diffRows, removed, updated, added, c, cols) && IdIn(t, y, removed)
    ensures exists x :: x in diffRows && IdIn(t, x, added) && y == x["commit_id" := IntV(c)]
  {
    UpdatedHasNoRemoved(t, rows, diffRows, removed, updated, c, cols);
    var sel := Select(t, diffRows, added);
    var j :| 0 <= j < |sel| && WithCommitId(sel, c)[j] == y;
    assert sel[j] in sel;
  }

  /**
   * Every row a commit writes carries the new commit id: a row of the
   * committed table either is a kept original row that no update touched,
   * or carries commit id c (the commit_id column being one of the table's
   * columns).
   */
  lemma CommittedRowsStamped(t: Table, rows: seq<Row>, diffRows: seq<Row>, removed: set<int>, updated: set<int>, added: set<int>,
                             c: int, cols: set<string>, i: nat)
    requires "commit_id" in cols
    requires i < |CommitTable(t, rows, diffRows, removed, updated, added, c, cols)|
    ensures var r := CommitTable(t, rows, diffRows, removed, updated, added, c, cols);
      var kept := RemoveStep(t, rows, removed);
      (i < |kept| && r[i] == kept[i] && kept[i] in rows) || Get(r[i], "commit_id") == IntV(c)
  {
    var kept := RemoveStep(t, rows, removed);
    var upd := UpdateStep(t, kept, diffRows, updated, c, cols);
    if i < |upd| {
      assert kept[i] in kept;
      if updated != {} {
        UpdateAllStamped(kept, WithCommitId(Select(t, diffRows, updated), c), PrimaryKey(t), cols, c, i);
      }
    }
  }
}
