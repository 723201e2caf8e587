// Importing data by name (spinedb_api/import_functions.py), part one:
// import_data, which writes what the planners produce and turns database
// errors into log items; get_data_for_import, which decides which planners
// run and in what order; and the two shapes most planners share: the keyed
// planner (one key per row, existing keys updated, new keys added, a key
// seen before in the batch skipped) and the "seen" planner (rows whose key
// is already known are dropped, the rest added).

module ImportFunctions {
  import opened Errors
  import opened Text
  import opened Items
  import opened MappingBase

  /** ImportErrorLogItem: a message and the kind of item it concerns. */
  datatype LogItem = LogItem(msg: string, dbType: string)

  /** What a planner returns: the items to add, the items to update, and the errors it logged. */
  datatype Plan = Plan(toAdd: seq<Item>, toUpdate: seq<Item>, errors: seq<LogItem>)

  /** SpineDBAPIError and its subclasses: the errors import_data logs instead of raising. */
  predicate IsSpineError(e: Error)
  {
    e.SpineDBAPIError? || e.SpineIntegrityError? || e.ParameterValueFormatError? || e.InvalidMappingComponent?
  }

  // ---------------------------------------------------------------------------
  // import_data

  /** The tables import_data can update (the keys of update_items_by_tablename). */
  predicate Updatable(t: Table)
  {
    t in {Alternative, Scenario, ScenarioAlternative, ObjectClass, RelationshipClass, ParameterValueList, ListValue,
          ParameterDefinition, Feature, Tool, ToolFeature, Object, ParameterValue}
  }

  /** The mapping's _add_* and _update_* methods: the ids they added or updated, or the error they raised. */
  datatype Writer = Writer(add: (Table, seq<Item>) -> Result<set<int>>, update: (Table, seq<Item>) -> Result<set<int>>)

  /** One write: its count, or a logged database error; any other error escapes. */
  function Written(result: Result<set<int>>, t: Table): (r: Result<(int, seq<LogItem>)>)
    ensures result.Ok? ==> r == Ok((|result.value|, []))
    ensures result.Err? && IsSpineError(result.error) ==> r == Ok((0, [LogItem(result.error.Message(), t.Name())]))
    ensures result.Err? && !IsSpineError(result.error) ==> r == Err(result.error)
  {
    match result
    case Ok(ids) => Ok((|ids|, []))
    case Err(e) => if IsSpineError(e) then Ok((0, [LogItem(e.Message(), t.Name())])) else Err(e)
  }

  /** The update a table gets: none for a table that cannot be updated. */
  function UpdateOf(t: Table, plan: Plan, w: Writer): Result<set<int>>
  {
    if Updatable(t) then w.update(t, plan.toUpdate) else Ok({})
  }

  /** One planner's output written: update, then add, then the planner's own errors. */
  function WriteBatch(t: Table, plan: Plan, w: Writer): Result<(int, seq<LogItem>)>
  {
    var u :- Written(UpdateOf(t, plan, w), t);
    var a :- Written(w.add(t, plan.toAdd), t);
    Ok((u.0 + a.0, u.1 + a.1 + plan.errors))
  }

  /** import_data over the planners' outputs: the number of ids added or updated, and the log. */
  function Imported(batches: seq<(Table, Plan)>, w: Writer): Result<(int, seq<LogItem>)>
    decreases |batches|
  {
    if batches == [] then Ok((0, []))
    else
      var done :- Imported(batches[..|batches| - 1], w);
      var last := batches[|batches| - 1];
      var step :- WriteBatch(last.0, last.1, w);
      Ok((done.0 + step.0, done.1 + step.1))
  }

  /** import_data: write each planner's output in turn, logging database errors, and count what was written. */
  method ImportData(batches: seq<(Table, Plan)>, w: Writer) returns (r: Result<(int, seq<LogItem>)>)
    ensures r == Imported(batches, w)
  {
    var numImports := 0;
    var errorLog: seq<LogItem> := [];
    for i := 0 to |batches|
      invariant Imported(batches[..i], w) == Ok((numImports, errorLog))
    {
      assert batches[..i + 1][..i] == batches[..i];
      var (t, plan) := batches[i];
      var updated := Written(UpdateOf(t, plan, w), t);
      if updated.Err? {
        ImportedErrSticks(batches, i + 1, w);
        return Err(updated.error);
      }
      var added := Written(w.add(t, plan.toAdd), t);
      if added.Err? {
        ImportedErrSticks(batches, i + 1, w);
        return Err(added.error);
      }
      numImports := numImports + updated.value.0 + added.value.0;
      errorLog := errorLog + (updated.value.1 + added.value.1 + plan.errors);
    }
    assert batches[..|batches|] == batches;
    r := Ok((numImports, errorLog));
  }

  lemma {:induction false} ImportedErrSticks(batches: seq<(Table, Plan)>, n: nat, w: Writer)
    requires n <= |batches| && Imported(batches[..n], w).Err?
    ensures Imported(batches, w) == Imported(batches[..n], w)
    decreases |batches| - n
  {
    if n < |batches| {
      assert batches[..n + 1][..n] == batches[..n];
      ImportedErrSticks(batches, n + 1, w);
    } else {
      assert batches[..n] == batches;
    }
  }

  /** No write raises an error other than a database error. */
  predicate NoForeignError(t: Table, plan: Plan, w: Writer)
  {
    (UpdateOf(t, plan, w).Ok? || IsSpineError(UpdateOf(t, plan, w).error))
    && (w.add(t, plan.toAdd).Ok? || IsSpineError(w.add(t, plan.toAdd).error))
  }

  /** Database errors never stop the import: it completes exactly when no write raises anything else. */
  lemma {:induction false} ImportCompletes(batches: seq<(Table, Plan)>, w: Writer)
    ensures Imported(batches, w).Ok? <==> forall i :: 0 <= i < |batches| ==> NoForeignError(batches[i].0, batches[i].1, w)
    decreases |batches|
  {
    if batches != [] {
      var front := batches[..|batches| - 1];
      ImportCompletes(front, w);
      assert forall i :: 0 <= i < |front| ==> front[i] == batches[i];
    }
  }

  function Count(result: Result<set<int>>): nat
  {
    if result.Ok? then |result.value| else 0
  }

  /** The ids written by every write that succeeds. */
  function WrittenIds(batches: seq<(Table, Plan)>, w: Writer): nat
    decreases |batches|
  {
    if batches == [] then 0
    else
      var last := batches[|batches| - 1];
      WrittenIds(batches[..|batches| - 1], w)
        + Count(UpdateOf(last.0, last.1, w)) + Count(w.add(last.0, last.1.toAdd))
  }

  /** The planners' own errors, in order. */
  function PlannerErrors(batches: seq<(Table, Plan)>): seq<LogItem>
    decreases |batches|
  {
    if batches == [] then [] else PlannerErrors(batches[..|batches| - 1]) + batches[|batches| - 1].1.errors
  }

  /** When every write succeeds, the count is the ids added plus the ids updated, and the log holds only the planners' errors. */
  lemma {:induction false} ImportWhenClean(batches: seq<(Table, Plan)>, w: Writer)
    requires forall i :: 0 <= i < |batches| ==>
      UpdateOf(batches[i].0, batches[i].1, w).Ok? && w.add(batches[i].0, batches[i].1.toAdd).Ok?
    ensures Imported(batches, w) == Ok((WrittenIds(batches, w), PlannerErrors(batches)))
    decreases |batches|
  {
    if batches != [] {
      var front := batches[..|batches| - 1];
      assert forall i :: 0 <= i < |front| ==> front[i] == batches[i];
      ImportWhenClean(front, w);
      var (t, plan) := batches[|batches| - 1];
      var u := UpdateOf(t, plan, w);
      var a := w.add(t, plan.toAdd);
      assert Written(u, t) == Ok((Count(u) as int, []));
      assert Written(a, t) == Ok((Count(a) as int, []));
      assert WriteBatch(t, plan, w) == Ok(((Count(u) + Count(a)) as int, [] + [] + plan.errors));
      assert [] + [] + plan.errors == plan.errors;
    }
  }

  // ---------------------------------------------------------------------------
  // get_data_for_import

  /** The keyword arguments of get_data_for_import that hold data. */
  datatype Source =
    | Alternatives | Scenarios | ScenarioAlternatives | ObjectClasses | RelationshipClasses | ParameterValueLists
    | ObjectParameters | RelationshipParameters | Features | Tools | ToolFeatures | ToolFeatureMethods | Objects
    | Relationships | ObjectGroups | ObjectParameterValues | RelationshipParameterValues | MetadataRows
    | ObjectMetadata | RelationshipMetadata | ObjectParameterValueMetadata | RelationshipParameterValueMetadata

  /**
   * One planner run: the table written, the planner, and the data it reads
   * (scenario and alternative names can be taken from the scenario
   * alternatives).
   */
  datatype Batch = Batch(table: Table, planner: Source, data: Source)

  /** A scheduled run and when it happens: when its data is given, unless some other data is. */
  datatype Slot = Slot(batch: Batch, when: Source, unless: Option<Source>)

  function Simple(t: Table, s: Source): Slot { Slot(Batch(t, s, s), s, None) }

  /** The order of get_data_for_import: every possible run, in the order it is yielded. */
  const SCHEDULE: seq<Slot> := [
    Simple(Alternative, Alternatives),
    Simple(Scenario, Scenarios),
    Slot(Batch(Scenario, Scenarios, ScenarioAlternatives), ScenarioAlternatives, Some(Scenarios)),
    Slot(Batch(Alternative, Alternatives, ScenarioAlternatives), ScenarioAlternatives, Some(Alternatives)),
    Simple(ScenarioAlternative, ScenarioAlternatives),
    Simple(ObjectClass, ObjectClasses),
    Simple(RelationshipClass, RelationshipClasses),
    Simple(ParameterValueList, ParameterValueLists),
    Slot(Batch(ListValue, ParameterValueLists, ParameterValueLists), ParameterValueLists, None),
    Simple(ParameterDefinition, ObjectParameters),
    Simple(ParameterDefinition, RelationshipParameters),
    Simple(Feature, Features),
    Simple(Tool, Tools),
    Simple(ToolFeature, ToolFeatures),
    Simple(ToolFeatureMethod, ToolFeatureMethods),
    Simple(Object, Objects),
    Simple(Relationship, Relationships),
    Simple(EntityGroup, ObjectGroups),
    Simple(ParameterValue, ObjectParameterValues),
    Simple(ParameterValue, RelationshipParameterValues),
    Simple(Metadata, MetadataRows),
    Simple(EntityMetadata, ObjectMetadata),
    Simple(EntityMetadata, RelationshipMetadata),
    Simple(ParameterValueMetadata, ObjectParameterValueMetadata),
    Simple(ParameterValueMetadata, RelationshipParameterValueMetadata)]

  predicate Runs(slot: Slot, given: set<Source>)
  {
    slot.when in given && (slot.unless.None? || slot.unless.value !in given)
  }

  /** The slots that run, in schedule order. */
  function Running(slots: seq<Slot>, given: set<Source>): (r: seq<Batch>)
    ensures forall b :: b in r <==> exists s :: s in slots && Runs(s, given) && s.batch == b
    decreases |slots|
  {
    if slots == [] then []
    else (if Runs(slots[0], given) then [slots[0].batch] else []) + Running(slots[1..], given)
  }

  /** get_data_for_import: the planner runs for the data given (the non-empty keyword arguments). */
  function Batches(given: set<Source>): seq<Batch>
  {
    Running(SCHEDULE, given)
  }

  /**
   * A stage for each table, rising along the schedule: every ancestor of a
   * table is at an earlier stage.
   */
  function Stage(t: Table): nat
  {
    match t
    case Alternative | Scenario => 0
    case ScenarioAlternative | ObjectClass => 1
    case RelationshipClass | ParameterValueList => 2
    case ListValue => 3
    case ParameterDefinition => 4
    case Feature | Tool => 5
    case ToolFeature => 6
    case ToolFeatureMethod | Object => 7
    case Relationship => 8
    case EntityGroup | ParameterValue | Metadata => 9
    case _ => 10
  }

  lemma AncestorsEarlier(t: Table)
    ensures forall a :: a in Ancestors(t) ==> Stage(a) < Stage(t)
  {
  }

  /** The stages of a run sequence never fall. */
  ghost predicate Staged(bs: seq<Batch>)
  {
    forall i, j :: 0 <= i < j < |bs| ==> Stage(bs[i].table) <= Stage(bs[j].table)
  }

  /** No run comes before a run whose table is one of its ancestors. */
  predicate NoAncestorLater(bs: seq<Batch>)
  {
    forall i, j :: 0 <= i < j < |bs| ==> bs[j].table !in Ancestors(bs[i].table)
  }

  lemma ScheduleRises()
    ensures forall i :: 0 <= i < |SCHEDULE| - 1 ==> Stage(SCHEDULE[i].batch.table) <= Stage(SCHEDULE[i + 1].batch.table)
  {
  }

  /** Keeping the running slots keeps the stages in order, from the first slot's stage up. */
  lemma {:induction false} RunningStaged(slots: seq<Slot>, given: set<Source>)
    requires forall i :: 0 <= i < |slots| - 1 ==> Stage(slots[i].batch.table) <= Stage(slots[i + 1].batch.table)
    ensures Staged(Running(slots, given))
    ensures slots != [] ==> forall b :: b in Running(slots, given) ==> Stage(slots[0].batch.table) <= Stage(b.table)
    decreases |slots|
  {
    if slots != [] {
      var tail := slots[1..];
      RunningStaged(tail, given);
      var r := Running(slots, given);
      var rest := Running(tail, given);
      if tail != [] {
        assert Stage(slots[0].batch.table) <= Stage(tail[0].batch.table);
      }
      if Runs(slots[0], given) {
        assert r == [slots[0].batch] + rest;
        forall i, j | 0 <= i < j < |r| ensures Stage(r[i].table) <= Stage(r[j].table) {
          assert r[j] == rest[j - 1];
          if i > 0 {
            assert r[i] == rest[i - 1];
          } else {
            assert r[j] in rest;
          }
        }
      } else {
        assert r == rest;
      }
    }
  }

  /** The runs come in an order where no table is written after a table it is an ancestor of. */
  lemma BatchesAncestorsFirst(given: set<Source>)
    ensures NoAncestorLater(Batches(given))
  {
    ScheduleRises();
    RunningStaged(SCHEDULE, given);
    var bs := Batches(given);
    forall i, j | 0 <= i < j < |bs| ensures bs[j].table !in Ancestors(bs[i].table) {
      AncestorsEarlier(bs[i].table);
    }
  }

  /**
   * Scenario alternatives given without scenarios, or without alternatives,
   * first import the scenarios, or alternatives, they name.
   */
  lemma ImpliedRuns(given: set<Source>)
    requires ScenarioAlternatives in given
    ensures Scenarios !in given ==> Batch(Scenario, Scenarios, ScenarioAlternatives) in Batches(given)
    ensures Alternatives !in given ==> Batch(Alternative, Alternatives, ScenarioAlternatives) in Batches(given)
    ensures Batch(ScenarioAlternative, ScenarioAlternatives, ScenarioAlternatives) in Batches(given)
  {
    RunningHas(SCHEDULE, given, 4);
    if Scenarios !in given {
      RunningHas(SCHEDULE, given, 2);
    }
    if Alternatives !in given {
      RunningHas(SCHEDULE, given, 3);
    }
  }

  lemma RunningHas(slots: seq<Slot>, given: set<Source>, k: nat)
    requires k < |slots| && Runs(slots[k], given)
    ensures slots[k].batch in Running(slots, given)
  {
    assert slots[k] in slots;
  }

  /** A run of a table comes after every run of its ancestors. */
  lemma AncestorRunsFirst(given: set<Source>, i: nat, j: nat)
    requires i < |Batches(given)| && j < |Batches(given)|
    requires Batches(given)[j].table in Ancestors(Batches(given)[i].table)
    ensures j < i
  {
    BatchesAncestorsFirst(given);
    AncestorsEarlier(Batches(given)[i].table);
  }

  // ---------------------------------------------------------------------------
  // Unpacking rows

  /** `a, b, *rest = row`: at least n values. */
  function UnpackAtLeast(row: Val, n: nat): (r: Result<seq<Val>>)
    ensures r.Ok? <==> Iterate(row).Ok? && |Iterate(row).value| >= n
    ensures r.Ok? ==> r.value == Iterate(row).value
  {
    var e :- Iterate(row);
    if |e| < n then
      Err(ValueError("not enough values to unpack (expected at least " + IntToString(n) + ", got " + IntToString(|e|) + ")"))
    else Ok(e)
  }

  /** `a, b = row`: exactly n values. */
  function UnpackExactly(row: Val, n: nat): (r: Result<seq<Val>>)
    ensures r.Ok? <==> Iterate(row).Ok? && |Iterate(row).value| == n
    ensures r.Ok? ==> r.value == Iterate(row).value
  {
    var e :- Iterate(row);
    if |e| < n then
      Err(ValueError("not enough values to unpack (expected " + IntToString(n) + ", got " + IntToString(|e|) + ")"))
    else if |e| > n then Err(ValueError("too many values to unpack (expected " + IntToString(n) + ")"))
    else Ok(e)
  }

  /** A name row: a bare string stands for the 1-tuple holding it. */
  function UnpackNamed(row: Val): (r: Result<seq<Val>>)
    ensures row.VStr? ==> r == Ok([row])
    ensures !row.VStr? ==> r == UnpackAtLeast(row, 1)
    ensures r.Ok? ==> |r.value| >= 1
  {
    if row.VStr? then Ok([row]) else UnpackAtLeast(row, 1)
  }

  /** dict(zip(fields, values)): as many fields as there are values. */
  function Zip(fields: seq<string>, values: seq<Val>): (r: Item)
    ensures forall k :: k in r <==> exists i :: 0 <= i < |fields| && i < |values| && fields[i] == k
    decreases |fields|
  {
    if fields == [] || values == [] then map[]
    else Zip(fields[1..], values[1..])[fields[0] := values[0]]
  }

  // ---------------------------------------------------------------------------
  // The keyed planner

  /**
   * What one row comes to once read: a row refused outright (logged), or a
   * key with the item to start from when the key is new, how the cached
   * item is turned into the item to start from when the key exists, the
   * row's optional values, how messages name the row, and the message logged when
   * the key was already planned (a silent skip when none is given).
   */
  datatype Prepared =
    | Prepared(key: Val, initial: Item, adopt: Item -> Item, optionals: seq<Val>, what: string, duplicate: Option<string>)
    | Refused(entry: LogItem)

  /**
   * A keyed planner: how a row is read, the fields its optional values go
   * to, the fields set whatever the row says, and the integrity check.
   */
  datatype Keyed = Keyed(
    dbType: string,
    prepare: Val -> Result<Prepared>,
    optionalFields: seq<string>,
    fixed: Item,
    check: (Item, KeyMap) -> Result<Item>)

  /** The existing-key dict handed to a check: every key but the row's own, with its id. */
  function Others(ids: map<Val, int>, key: Val): (r: KeyMap)
    ensures key !in r
    ensures forall k :: k in r <==> k in ids && k != key
    ensures forall k :: k in r ==> r[k] == Some(ids[k])
  {
    map k | k in ids && k != key :: Some(ids[k])
  }

  /** What a row comes to. */
  datatype Outcome = Skip | Logged(entry: LogItem) | Add(key: Val, item: Item) | Update(key: Val, item: Item)

  /** The item a row starts from: made from the cached item of an existing key, else the fresh one. */
  function Base(ids: map<Val, int>, cache: map<int, Item>, p: Prepared): Result<Item>
    requires p.Prepared?
  {
    if p.key !in ids then Ok(p.initial)
    else if ids[p.key] in cache then Ok(p.adopt(cache[ids[p.key]]))
    else Err(KeyError(IntToString(ids[p.key])))
  }

  /**
   * One row of a keyed planner: a key already planned in this batch is
   * skipped; otherwise the item is checked against the other existing keys,
   * a failed check is logged, and a passing item is an update when its key
   * exists (carrying that key's id) and an addition when it does not.
   */
  function KeyedStep(k: Keyed, ids: map<Val, int>, cache: map<int, Item>, checked: set<Val>, row: Val): (r: Result<Outcome>)
    ensures r.Ok? && r.value.Add? ==> r.value.key !in ids && r.value.key !in checked
    ensures r.Ok? && r.value.Update? ==>
      r.value.key in ids && r.value.key !in checked && "id" in r.value.item && r.value.item["id"] == VInt(ids[r.value.key])
    ensures k.prepare(row).Ok? && k.prepare(row).value.Prepared? && k.prepare(row).value.key in checked ==>
      r == Ok(if k.prepare(row).value.duplicate.Some? then Logged(LogItem(k.prepare(row).value.duplicate.value, k.dbType)) else Skip)
  {
    var p :- k.prepare(row);
    if p.Refused? then Ok(Logged(p.entry))
    else if p.key in checked then
      Ok(if p.duplicate.Some? then Logged(LogItem(p.duplicate.value, k.dbType)) else Skip)
    else
      var base :- Base(ids, cache, p);
      var item := base + k.fixed + Zip(k.optionalFields, p.optionals);
      match k.check(item, Others(ids, p.key))
      case Err(e) =>
        if e.SpineIntegrityError? then Ok(Logged(LogItem("Could not import " + p.what + ": " + e.Message(), k.dbType)))
        else Err(e)
      case Ok(passed) =>
        if p.key in ids then Ok(Update(p.key, passed["id" := VInt(ids[p.key])]))
        else Ok(Add(p.key, passed))
  }

  /** A planner's state: its plan so far and the keys it added and updated, in order. */
  datatype Planned = Planned(plan: Plan, added: seq<Val>, updated: seq<Val>)
  {
    /** The keys planned so far (the `checked` set). */
    function Checked(): set<Val> { set k | k in added + updated }
  }

  function Record(s: Planned, o: Outcome): Planned
  {
    match o
    case Skip => s
    case Logged(e) => s.(plan := s.plan.(errors := s.plan.errors + [e]))
    case Add(key, item) => Planned(s.plan.(toAdd := s.plan.toAdd + [item]), s.added + [key], s.updated)
    case Update(key, item) => Planned(s.plan.(toUpdate := s.plan.toUpdate + [item]), s.added, s.updated + [key])
  }

  const NOTHING_PLANNED: Planned := Planned(Plan([], [], []), [], [])

  /** The keyed planner over the rows, in order; the first row that raises stops it. */
  function KeyedPlan(k: Keyed, ids: map<Val, int>, cache: map<int, Item>, data: seq<Val>): Result<Planned>
    decreases |data|
  {
    if data == [] then Ok(NOTHING_PLANNED)
    else
      var s :- KeyedPlan(k, ids, cache, data[..|data| - 1]);
      var o :- KeyedStep(k, ids, cache, s.Checked(), data[|data| - 1]);
      Ok(Record(s, o))
  }

  /** The keyed planner on a single row: that row's outcome recorded in an empty plan, or its error. */
  lemma KeyedPlanOne(k: Keyed, ids: map<Val, int>, cache: map<int, Item>, row: Val)
    ensures var o := KeyedStep(k, ids, cache, {}, row);
      KeyedPlan(k, ids, cache, [row]) == if o.Err? then Err(o.error) else Ok(Record(NOTHING_PLANNED, o.value))
  {
    assert [row][..0] == [];
    assert NOTHING_PLANNED.Checked() == {};
  }

  /** Two rows read the same way are planned the same way after the same rows. */
  lemma SamePreparedSamePlan(k: Keyed, ids: map<Val, int>, cache: map<int, Item>, data: seq<Val>, row: Val, row': Val)
    requires k.prepare(row) == k.prepare(row')
    ensures KeyedPlan(k, ids, cache, data + [row]) == KeyedPlan(k, ids, cache, data + [row'])
  {
    assert (data + [row])[..|data|] == data;
    assert (data + [row'])[..|data|] == data;
    forall checked: set<Val> ensures KeyedStep(k, ids, cache, checked, row) == KeyedStep(k, ids, cache, checked, row') {
    }
  }

  /** The planner's invariant: keys planned once each, updates for existing keys with their ids, additions for new keys. */
  ghost predicate KeyedValid(s: Planned, ids: map<Val, int>)
  {
    && Distinct(s.added + s.updated)
    && |s.plan.toAdd| == |s.added| && |s.plan.toUpdate| == |s.updated|
    && (forall i :: 0 <= i < |s.added| ==> s.added[i] !in ids)
    && (forall i :: 0 <= i < |s.updated| ==> s.updated[i] in ids && "id" in s.plan.toUpdate[i] && s.plan.toUpdate[i]["id"] == VInt(ids[s.updated[i]]))
  }

  lemma RecordValid(s: Planned, o: Outcome, ids: map<Val, int>)
    requires KeyedValid(s, ids)
    requires o.Add? ==> o.key !in ids && o.key !in s.Checked()
    requires o.Update? ==> o.key in ids && o.key !in s.Checked() && "id" in o.item && o.item["id"] == VInt(ids[o.key])
    ensures KeyedValid(Record(s, o), ids)
  {
    var keys := s.added + s.updated;
    if o.Add? {
      var r := Record(s, o);
      assert r.added + r.updated == s.added + [o.key] + s.updated;
      assert o.key !in keys;
      forall i, j | 0 <= i < j < |r.added + r.updated| ensures (r.added + r.updated)[i] != (r.added + r.updated)[j] {
        var all := r.added + r.updated;
        if i == |s.added| {
          assert all[j] == keys[j - 1];
        } else if j == |s.added| {
          assert all[i] == keys[i];
        } else {
          assert all[i] == keys[if i < |s.added| then i else i - 1];
          assert all[j] == keys[if j < |s.added| then j else j - 1];
        }
      }
    } else if o.Update? {
      var r := Record(s, o);
      assert r.added + r.updated == keys + [o.key];
      assert o.key !in keys;
    }
  }

  /** The keyed planner plans each key at most once, updates exactly the existing keys, and adds exactly the new ones. */
  lemma {:induction false} KeyedPlanValid(k: Keyed, ids: map<Val, int>, cache: map<int, Item>, data: seq<Val>)
    ensures KeyedPlan(k, ids, cache, data).Ok? ==> KeyedValid(KeyedPlan(k, ids, cache, data).value, ids)
    decreases |data|
  {
    if data != [] {
      var front := data[..|data| - 1];
      KeyedPlanValid(k, ids, cache, front);
      var s := KeyedPlan(k, ids, cache, front);
      if s.Ok? {
        var o := KeyedStep(k, ids, cache, s.value.Checked(), data[|data| - 1]);
        if o.Ok? {
          RecordValid(s.value, o.value, ids);
        }
      }
    }
  }

  /** The item holds every field of `fixed` with its value. */
  predicate Carries(item: Item, fixed: Item)
  {
    forall f :: f in fixed ==> f in item && item[f] == fixed[f]
  }

  /**
   * Whatever every passing check promises of an item holding the planner's
   * fixed fields holds for every item planned (no optional field overrides a
   * fixed one).
   */
  lemma {:induction false} KeyedPlanKeeps(k: Keyed, ids: map<Val, int>, cache: map<int, Item>, data: seq<Val>, P: Item -> bool)
    requires forall i :: 0 <= i < |k.optionalFields| ==> k.optionalFields[i] !in k.fixed
    requires forall item, current :: Carries(item, k.fixed) && k.check(item, current).Ok? ==> P(k.check(item, current).value)
    requires forall item, id :: P(item) ==> P(item["id" := VInt(id)])
    ensures KeyedPlan(k, ids, cache, data).Ok? ==>
      forall item :: item in KeyedPlan(k, ids, cache, data).value.plan.toAdd + KeyedPlan(k, ids, cache, data).value.plan.toUpdate ==> P(item)
    decreases |data|
  {
    if data != [] {
      var front := data[..|data| - 1];
      KeyedPlanKeeps(k, ids, cache, front, P);
      var s := KeyedPlan(k, ids, cache, front);
      if s.Ok? {
        KeyedStepKeeps(k, ids, cache, s.value.Checked(), data[|data| - 1], P);
      }
    }
  }

  /** One row keeps the property: the item it adds or updates has it. */
  lemma KeyedStepKeeps(k: Keyed, ids: map<Val, int>, cache: map<int, Item>, checked: set<Val>, row: Val, P: Item -> bool)
    requires forall i :: 0 <= i < |k.optionalFields| ==> k.optionalFields[i] !in k.fixed
    requires forall item, current :: Carries(item, k.fixed) && k.check(item, current).Ok? ==> P(k.check(item, current).value)
    requires forall item, id :: P(item) ==> P(item["id" := VInt(id)])
    ensures var o := KeyedStep(k, ids, cache, checked, row);
      o.Ok? && (o.value.Add? || o.value.Update?) ==> P(o.value.item)
  {
    var o := KeyedStep(k, ids, cache, checked, row);
    if o.Ok? && (o.value.Add? || o.value.Update?) {
      var p := k.prepare(row).value;
      var item := Base(ids, cache, p).value + k.fixed + Zip(k.optionalFields, p.optionals);
      var passed := k.check(item, Others(ids, p.key));
      assert Carries(item, k.fixed);
      assert passed.Ok? && P(passed.value);
      assert o.value.item == passed.value || o.value.item == passed.value["id" := VInt(ids[p.key])];
    }
  }

  /** A row whose key was planned earlier in the batch, when it names a message for that, logs it and plans nothing else. */
  lemma RepeatedKeyLogged(k: Keyed, ids: map<Val, int>, cache: map<int, Item>, data: seq<Val>, row: Val)
    requires KeyedPlan(k, ids, cache, data).Ok?
    requires k.prepare(row).Ok? && k.prepare(row).value.Prepared? && k.prepare(row).value.duplicate.Some?
    requires k.prepare(row).value.key in KeyedPlan(k, ids, cache, data).value.Checked()
    ensures KeyedPlan(k, ids, cache, data + [row]).Ok?
    ensures (var before := KeyedPlan(k, ids, cache, data).value;
             KeyedPlan(k, ids, cache, data + [row]).value
             == before.(plan := before.plan.(errors := before.plan.errors + [LogItem(k.prepare(row).value.duplicate.value, k.dbType)])))
  {
    assert (data + [row])[..|data|] == data;
  }

  /** A row whose key was planned earlier in the batch is skipped: it changes nothing. */
  lemma RepeatedKeySkipped(k: Keyed, ids: map<Val, int>, cache: map<int, Item>, data: seq<Val>, row: Val)
    requires KeyedPlan(k, ids, cache, data).Ok?
    requires k.prepare(row).Ok? && k.prepare(row).value.Prepared? && k.prepare(row).value.duplicate.None?
    requires k.prepare(row).value.key in KeyedPlan(k, ids, cache, data).value.Checked()
    ensures KeyedPlan(k, ids, cache, data + [row]) == KeyedPlan(k, ids, cache, data)
  {
    assert (data + [row])[..|data|] == data;
  }

  /**
   * _get_*_for_import for the keyed planners: each row in turn, a key kept
   * in `checked` once planned.
   */
  method PlanKeyed(k: Keyed, ids: map<Val, int>, cache: map<int, Item>, data: seq<Val>) returns (r: Result<Plan>)
    ensures r.Ok? <==> KeyedPlan(k, ids, cache, data).Ok?
    ensures r.Ok? ==> r.value == KeyedPlan(k, ids, cache, data).value.plan
  {
    var s := NOTHING_PLANNED;
    for i := 0 to |data|
      invariant KeyedPlan(k, ids, cache, data[..i]) == Ok(s)
    {
      assert data[..i + 1][..i] == data[..i];
      var o := KeyedStep(k, ids, cache, s.Checked(), data[i]);
      if o.Err? {
        KeyedPlanErrSticks(k, ids, cache, data, i + 1);
        return Err(o.error);
      }
      s := Record(s, o.value);
    }
    assert data[..|data|] == data;
    r := Ok(s.plan);
  }

  lemma {:induction false} KeyedPlanErrSticks(k: Keyed, ids: map<Val, int>, cache: map<int, Item>, data: seq<Val>, n: nat)
    requires n <= |data| && KeyedPlan(k, ids, cache, data[..n]).Err?
    ensures KeyedPlan(k, ids, cache, data) == KeyedPlan(k, ids, cache, data[..n])
    decreases |data| - n
  {
    if n < |data| {
      assert data[..n + 1][..n] == data[..n];
      KeyedPlanErrSticks(k, ids, cache, data, n + 1);
    } else {
      assert data[..n] == data;
    }
  }

  // ---------------------------------------------------------------------------
  // The "seen" planner

  /**
   * What an add-only planner makes of a row: the items it offers, in order,
   * each with its key and the verdict of its check (a log item when it
   * fails), or a log item for a row it cannot resolve.
   */
  datatype Offer = Offer(key: Val, item: Item, verdict: Result<Option<LogItem>>) | Refused(entry: LogItem)

  /** An add-only planner's state: the items to add, their keys, the log, and the keys seen. */
  datatype Taken = Taken(items: seq<Item>, keys: seq<Val>, log: seq<LogItem>, seen: set<Val>)

  function Take(t: Taken, o: Offer): Result<Taken>
  {
    match o
    case Refused(e) => Ok(t.(log := t.log + [e]))
    case Offer(key, item, verdict) =>
      if key in t.seen then Ok(t)
      else
        var failure :- verdict;
        if failure.Some? then Ok(t.(log := t.log + [failure.value]))
        else Ok(Taken(t.items + [item], t.keys + [key], t.log, t.seen + {key}))
  }

  /** One row's offers taken in order. */
  function TakeAll(t: Taken, offers: seq<Offer>): Result<Taken>
    decreases |offers|
  {
    if offers == [] then Ok(t)
    else
      var before :- TakeAll(t, offers[..|offers| - 1]);
      Take(before, offers[|offers| - 1])
  }

  /**
   * An add-only planner over the rows, from the keys already in the
   * database: a row that cannot be read stops it, an unseen key is checked
   * and added when it passes.
   */
  function TakeUnseen(rows: seq<Val>, offers: Val -> Result<seq<Offer>>, seen: set<Val>): Result<Taken>
    decreases |rows|
  {
    if rows == [] then Ok(Taken([], [], [], seen))
    else
      var t :- TakeUnseen(rows[..|rows| - 1], offers, seen);
      var os :- offers(rows[|rows| - 1]);
      TakeAll(t, os)
  }

  ghost predicate TakenValid(t: Taken, seen: set<Val>)
  {
    && |t.items| == |t.keys| && Distinct(t.keys)
    && (forall i :: 0 <= i < |t.keys| ==> t.keys[i] !in seen)
    && t.seen == seen + set k | k in t.keys
  }

  lemma TakeValid(t: Taken, o: Offer, seen: set<Val>)
    requires TakenValid(t, seen) && Take(t, o).Ok?
    ensures TakenValid(Take(t, o).value, seen)
    ensures t.seen <= Take(t, o).value.seen
    ensures o.Offer? && o.verdict == Ok(None) ==> o.key in Take(t, o).value.seen
  {
    var r := Take(t, o).value;
    if r.keys != t.keys {
      assert r.keys == t.keys + [o.key] && o.key !in t.seen;
      assert (set k | k in r.keys) == (set k | k in t.keys) + {o.key};
    }
  }

  lemma {:induction false} TakeAllValid(t: Taken, offers: seq<Offer>, seen: set<Val>)
    requires TakenValid(t, seen) && TakeAll(t, offers).Ok?
    ensures TakenValid(TakeAll(t, offers).value, seen)
    ensures t.seen <= TakeAll(t, offers).value.seen
    ensures forall o :: o in offers && o.Offer? && o.verdict == Ok(None) ==> o.key in TakeAll(t, offers).value.seen
    decreases |offers|
  {
    if offers != [] {
      var front := offers[..|offers| - 1];
      TakeAllValid(t, front, seen);
      var before := TakeAll(t, front).value;
      TakeValid(before, offers[|offers| - 1], seen);
      assert forall o :: o in offers ==> o in front || o == offers[|offers| - 1];
    }
  }

  /**
   * An add-only planner adds each key at most once, never a key already in
   * the database, and adds every offered key whose check passes.
   */
  lemma {:induction false} TakeUnseenValid(rows: seq<Val>, offers: Val -> Result<seq<Offer>>, seen: set<Val>)
    requires TakeUnseen(rows, offers, seen).Ok?
    ensures TakenValid(TakeUnseen(rows, offers, seen).value, seen)
    ensures forall i, o :: 0 <= i < |rows| && offers(rows[i]).Ok? && o in offers(rows[i]).value && o.Offer? && o.verdict == Ok(None) ==>
      o.key in TakeUnseen(rows, offers, seen).value.seen
    decreases |rows|
  {
    if rows != [] {
      var front := rows[..|rows| - 1];
      TakeUnseenValid(front, offers, seen);
      var t := TakeUnseen(front, offers, seen).value;
      TakeAllValid(t, offers(rows[|rows| - 1]).value, seen);
      forall i | 0 <= i < |rows| - 1 ensures rows[i] == front[i] { }
    }
  }

  /** Every item added is paired with its key, and the pair satisfies P. */
  ghost predicate TakenKeep(t: Taken, P: (Val, Item) -> bool)
  {
    |t.items| == |t.keys| && forall i :: 0 <= i < |t.items| ==> P(t.keys[i], t.items[i])
  }

  lemma TakeKeeps(t: Taken, o: Offer, P: (Val, Item) -> bool)
    requires TakenKeep(t, P) && Take(t, o).Ok?
    requires o.Offer? && o.verdict == Ok(None) ==> P(o.key, o.item)
    ensures TakenKeep(Take(t, o).value, P)
  {
  }

  lemma {:induction false} TakeAllKeeps(t: Taken, offers: seq<Offer>, P: (Val, Item) -> bool)
    requires TakenKeep(t, P) && TakeAll(t, offers).Ok?
    requires forall o :: o in offers && o.Offer? && o.verdict == Ok(None) ==> P(o.key, o.item)
    ensures TakenKeep(TakeAll(t, offers).value, P)
    decreases |offers|
  {
    if offers != [] {
      TakeAllKeeps(t, offers[..|offers| - 1], P);
      TakeKeeps(TakeAll(t, offers[..|offers| - 1]).value, offers[|offers| - 1], P);
    }
  }

  /** Whatever every passing offer promises of its key and item holds for every item an add-only planner adds. */
  lemma {:induction false} TakeUnseenKeeps(rows: seq<Val>, offers: Val -> Result<seq<Offer>>, seen: set<Val>, P: (Val, Item) -> bool)
    requires forall row, o :: offers(row).Ok? && o in offers(row).value && o.Offer? && o.verdict == Ok(None) ==> P(o.key, o.item)
    requires TakeUnseen(rows, offers, seen).Ok?
    ensures TakenKeep(TakeUnseen(rows, offers, seen).value, P)
    decreases |rows|
  {
    if rows != [] {
      TakeUnseenKeeps(rows[..|rows| - 1], offers, seen, P);
      TakeAllKeeps(TakeUnseen(rows[..|rows| - 1], offers, seen).value, offers(rows[|rows| - 1]).value, P);
    }
  }

  /** One row's offers in turn. */
  method TakeOffers(t: Taken, offers: seq<Offer>) returns (r: Result<Taken>)
    ensures r == TakeAll(t, offers)
  {
    var u := t;
    for j := 0 to |offers|
      invariant TakeAll(t, offers[..j]) == Ok(u)
    {
      assert offers[..j + 1][..j] == offers[..j];
      var next := Take(u, offers[j]);
      if next.Err? {
        TakeAllErrSticks(t, offers, j + 1);
        return Err(next.error);
      }
      u := next.value;
    }
    assert offers[..|offers|] == offers;
    r := Ok(u);
  }

  lemma {:induction false} TakeAllErrSticks(t: Taken, offers: seq<Offer>, n: nat)
    requires n <= |offers| && TakeAll(t, offers[..n]).Err?
    ensures TakeAll(t, offers) == TakeAll(t, offers[..n])
    decreases |offers| - n
  {
    if n < |offers| {
      assert offers[..n + 1][..n] == offers[..n];
      TakeAllErrSticks(t, offers, n + 1);
    } else {
      assert offers[..n] == offers;
    }
  }

  /** _get_*_for_import for the add-only planners: the rows in turn, `seen` growing as items are added. */
  method PlanUnseen(rows: seq<Val>, offers: Val -> Result<seq<Offer>>, seen: set<Val>) returns (r: Result<Taken>)
    ensures r == TakeUnseen(rows, offers, seen)
  {
    var t := Taken([], [], [], seen);
    for i := 0 to |rows|
      invariant TakeUnseen(rows[..i], offers, seen) == Ok(t)
    {
      assert rows[..i + 1][..i] == rows[..i];
      var os := offers(rows[i]);
      if os.Err? {
        TakeUnseenErrSticks(rows, offers, i + 1, seen);
        return Err(os.error);
      }
      var next := TakeOffers(t, os.value);
      if next.Err? {
        TakeUnseenErrSticks(rows, offers, i + 1, seen);
        return Err(next.error);
      }
      t := next.value;
    }
    assert rows[..|rows|] == rows;
    r := Ok(t);
  }

  lemma {:induction false} TakeUnseenErrSticks(rows: seq<Val>, offers: Val -> Result<seq<Offer>>, n: nat, seen: set<Val>)
    requires n <= |rows| && TakeUnseen(rows[..n], offers, seen).Err?
    ensures TakeUnseen(rows, offers, seen) == TakeUnseen(rows[..n], offers, seen)
    decreases |rows| - n
  {
    if n < |rows| {
      assert rows[..n + 1][..n] == rows[..n];
      TakeUnseenErrSticks(rows, offers, n + 1, seen);
    } else {
      assert rows[..n] == rows;
    }
  }
}
