// What _manage_stocks does to the existing-key dicts and the cache, and
// what a batch of checks returns, stated over the functions of CheckMixin.

module CheckMixinLemmas {
  import opened Errors
  import opened Items
  import opened CheckFunctions
  import opened CheckMixin

  // ---- deleting and registering own keys ---------------------------------------------------

  /** Deleting every key from its own dict succeeds exactly when every key is there. */
  lemma {:induction false} DeleteOwnKeysSucceeds(maps: seq<KeyMap>, keys: seq<Val>, from: nat)
    requires from <= |keys| == |maps|
    ensures TargetsFit(maps, OwnTargets(keys, from))
    ensures DeleteKeys(maps, OwnTargets(keys, from)).1 <==> forall i :: from <= i < |keys| ==> keys[i] in maps[i]
    decreases |keys| - from
  {
    var targets := OwnTargets(keys, from);
    if from < |keys| && keys[from] in maps[from] {
      var next := maps[from := maps[from] - {keys[from]}];
      DeleteOwnKeysSucceeds(next, keys, from + 1);
      assert targets[1..] == OwnTargets(keys, from + 1);
      assert forall i :: from < i < |keys| ==> next[i] == maps[i];
    }
  }

  // ---- one item ----------------------------------------------------------------------------

  /**
   * An insert runs the check against the dicts as they are; if it passes,
   * each of the item's keys is registered in its dict without an id, and
   * nothing else changes; if it fails, nothing changes at all.
   */
  lemma InsertRegistersKeys(kind: ItemType, s: Stocks, item: Item, check: Check)
    requires StocksFit(kind, s)
    requires KeysOf(item, kind.PrimaryKeys()).Ok?
    ensures Step(kind, s, item, false, true, check).result == check(item, s.keyMaps)
    ensures Step(kind, s, item, false, true, check).result.Err? ==> Step(kind, s, item, false, true, check).stocks == s
    ensures Step(kind, s, item, false, true, check).result.Ok? ==>
      (&& Step(kind, s, item, false, true, check).stocks.table == s.table
       && Step(kind, s, item, false, true, check).stocks.log == s.log
       && forall i :: 0 <= i < |s.keyMaps| ==>
            Step(kind, s, item, false, true, check).stocks.keyMaps[i]
            == s.keyMaps[i][KeysOf(item, kind.PrimaryKeys()).value[i] := None])
  {
    RegisterOwnKeys(s.keyMaps, KeysOf(item, kind.PrimaryKeys()).value, 0, None);
  }

  /** The update half of UpdateReindexes, on the located item: the check and what a failing one leaves. */
  lemma UpdatedChecksWithoutOwnKeys(kind: ItemType, s: Stocks, item: Item, loc: Located, fix: bool, check: Check)
    requires StocksFit(kind, s) && loc.id.Some? && |loc.keys| == |s.keyMaps|
    requires forall i :: 0 <= i < |s.keyMaps| ==> loc.keys[i] in s.keyMaps[i]
    ensures var fixed := Fixed(kind.ImmutableFields(), loc.full, item);
            var merged := loc.full + fixed.0;
            var r := Updated(kind, s, item, loc, OwnTargets(loc.keys, 0), fix, check);
            && r.result == check(merged, WithoutOwnKeys(s.keyMaps, loc.keys, 0))
            && r.stocks.log == s.log + FixedFieldsError(fixed.1)
            && (r.result.Err? ==> r.stocks.keyMaps == WithoutOwnKeys(s.keyMaps, loc.keys, 0) && r.stocks.table == s.table[loc.id.value := merged])
  {
    DeleteOwnKeys(s.keyMaps, loc.keys, 0);
  }

  /** Merging fields into an item that has every key field keeps them all. */
  lemma MergedKeepsKeys(full: Item, update: Item, pks: seq<seq<string>>)
    requires KeysOf(full, pks).Ok?
    ensures KeysOf(full + update, pks).Ok?
  {
  }

  /** The update half of UpdateReindexes, on the located item: what a passing check leaves. */
  lemma UpdatedRegistersNewKeys(kind: ItemType, s: Stocks, item: Item, loc: Located, check: Check)
    requires StocksFit(kind, s) && loc.id.Some? && |loc.keys| == |s.keyMaps|
    requires forall i :: 0 <= i < |s.keyMaps| ==> loc.keys[i] in s.keyMaps[i]
    requires KeysOf(loc.full, kind.PrimaryKeys()).Ok?
    requires Updated(kind, s, item, loc, OwnTargets(loc.keys, 0), true, check).result.Ok?
    ensures var merged := loc.full + Fixed(kind.ImmutableFields(), loc.full, item).0;
            var r := Updated(kind, s, item, loc, OwnTargets(loc.keys, 0), true, check);
            && KeysOf(merged, kind.PrimaryKeys()).Ok?
            && r.stocks.table == s.table[loc.id.value := r.result.value.0]
            && r.stocks.keyMaps == WithOwnKeys(WithoutOwnKeys(s.keyMaps, loc.keys, 0), KeysOf(merged, kind.PrimaryKeys()).value, 0, loc.id)
  {
    var merged := loc.full + Fixed(kind.ImmutableFields(), loc.full, item).0;
    DeleteOwnKeys(s.keyMaps, loc.keys, 0);
    var maps := WithoutOwnKeys(s.keyMaps, loc.keys, 0);
    assert check(merged, maps).Ok?;
    UpdatedWhenPassing(kind, s, item, loc, OwnTargets(loc.keys, 0), maps, merged, check);
    MergedKeepsKeys(loc.full, Fixed(kind.ImmutableFields(), loc.full, item).0, kind.PrimaryKeys());
    var keys := KeysOf(merged, kind.PrimaryKeys()).value;
    assert OwnTargetsOf(kind, merged) == OwnTargets(keys, 0);
    RegisterOwnKeys(maps, keys, 0, loc.id);
  }

  /** What Updated leaves, with the fix, when the keys were deleted and the check passes. */
  lemma UpdatedWhenPassing(kind: ItemType, s: Stocks, item: Item, loc: Located, targets: seq<Target>, maps: seq<KeyMap>,
                           merged: Item, check: Check)
    requires StocksFit(kind, s) && TargetsFit(s.keyMaps, targets) && loc.id.Some?
    requires DeleteKeys(s.keyMaps, targets) == (maps, true)
    requires merged == loc.full + Fixed(kind.ImmutableFields(), loc.full, item).0
    requires check(merged, maps).Ok?
    ensures Updated(kind, s, item, loc, targets, true, check).result == check(merged, maps)
    ensures Updated(kind, s, item, loc, targets, true, check).stocks.keyMaps == RegisterKeys(maps, OwnTargetsOf(kind, merged), loc.id)
    ensures Updated(kind, s, item, loc, targets, true, check).stocks.table == s.table[loc.id.value := check(merged, maps).value.0]
  {
  }


  /**
   * An update of a cached item whose keys are all in their dicts: the check
   * runs on the cached item updated with the given fields (fixed fields
   * restored and logged) against the dicts without the item's own keys. If
   * it passes, each dict loses the item's old key and holds its new key
   * with the item's id, and the cache holds the checked item; if it fails,
   * the old keys stay out and the cache keeps the updated item.
   */
  lemma UpdateReindexes(kind: ItemType, s: Stocks, item: Item, id: int, check: Check)
    requires StocksFit(kind, s)
    requires "id" in item && item["id"] == VInt(id) && id in s.table
    requires KeysOf(s.table[id], kind.PrimaryKeys()).Ok?
    requires forall i :: 0 <= i < |s.keyMaps| ==> KeysOf(s.table[id], kind.PrimaryKeys()).value[i] in s.keyMaps[i]
    ensures var keys := KeysOf(s.table[id], kind.PrimaryKeys()).value;
            var fixed := Fixed(kind.ImmutableFields(), s.table[id], item);
            var merged := s.table[id] + fixed.0;
            var r := Step(kind, s, item, true, true, check);
            && r.result == check(merged, WithoutOwnKeys(s.keyMaps, keys, 0))
            && r.stocks.log == s.log + FixedFieldsError(fixed.1)
            && (r.result.Err? ==> r.stocks.keyMaps == WithoutOwnKeys(s.keyMaps, keys, 0) && r.stocks.table == s.table[id := merged])
            && (r.result.Ok? ==>
                  && KeysOf(merged, kind.PrimaryKeys()).Ok?
                  && r.stocks.table == s.table[id := r.result.value.0]
                  && forall i :: 0 <= i < |s.keyMaps| ==>
                       r.stocks.keyMaps[i] == (s.keyMaps[i] - {keys[i]})[KeysOf(merged, kind.PrimaryKeys()).value[i] := Some(id)])
  {
    var loc := Located(s.table[id], Some(id), KeysOf(s.table[id], kind.PrimaryKeys()).value);
    assert Locate(kind, s, item, true) == Ok(loc);
    UpdatedChecksWithoutOwnKeys(kind, s, item, loc, true, check);
    if Step(kind, s, item, true, true, check).result.Ok? {
      UpdatedRegistersNewKeys(kind, s, item, loc, check);
    }
  }

  /** An update of a cached item one of whose keys is not in its dict fails with "<type> not found.". */
  lemma UpdateOfUnindexedItemFails(kind: ItemType, s: Stocks, item: Item, id: int, i: int, check: Check)
    requires StocksFit(kind, s)
    requires "id" in item && item["id"] == VInt(id) && id in s.table
    requires KeysOf(s.table[id], kind.PrimaryKeys()).Ok?
    requires 0 <= i < |s.keyMaps| && KeysOf(s.table[id], kind.PrimaryKeys()).value[i] !in s.keyMaps[i]
    ensures Step(kind, s, item, true, true, check).result == Err(Integrity(kind.Name() + " not found."))
  {
    DeleteOwnKeysSucceeds(s.keyMaps, KeysOf(s.table[id], kind.PrimaryKeys()).value, 0);
  }

  /** An update needs an int id of a cached item. */
  lemma UpdateNeedsKnownId(kind: ItemType, s: Stocks, item: Item, check: Check)
    requires StocksFit(kind, s)
    ensures "id" !in item ==> Step(kind, s, item, true, true, check) == Outcome(s, Err(Integrity("Missing " + kind.Name() + " identifier.")))
    ensures "id" in item && !(item["id"].VInt? && item["id"].n in s.table) ==>
      Step(kind, s, item, true, true, check) == Outcome(s, Err(Integrity(kind.Name() + " not found.")))
  {
  }

  // ---- names stay unique across a batch ------------------------------------------------------

  /** The types whose check is a name that is not taken. */
  predicate NamedKind(kind: ItemType)
  {
    kind.Alternative? || kind.Scenario? || kind.ParameterValueList? || kind.Tool?
  }

  /** The id a passing item is registered with: its own on update, none on insert. */
  function RegisteredId(item: Item, forUpdate: bool): Option<int>
  {
    if forUpdate && "id" in item && item["id"].VInt? then Some(item["id"].n) else None
  }

  /**
   * A check by name, on a single dict: it passes an item, unchanged, exactly
   * when the item has a name that is not in the dict, and rejects a taken
   * name naming its holder.
   */
  ghost predicate ChecksName(check: Check)
  {
    forall full: Item, maps: seq<KeyMap> :: |maps| == 1 ==>
      && (check(full, maps).Ok? <==> "name" in full && full["name"] !in maps[0])
      && (check(full, maps).Ok? ==> check(full, maps).value.0 == full)
      && ("name" in full && full["name"] in maps[0] ==>
            check(full, maps).Err? && check(full, maps).error.SpineIntegrityError? && check(full, maps).error.id == maps[0][full["name"]])
  }

  /** The alternative, scenario, value list and tool checks are checks by name, on a key of the name alone. */
  lemma NamedKindsCheckNames(kind: ItemType, lk: Lookups, classIds: set<Val>)
    requires NamedKind(kind)
    ensures kind.PrimaryKeys() == [["name"]] && kind.ImmutableFields() == []
    ensures ChecksName(CheckOf(kind, lk, classIds))
  {
    forall full: Item, maps: seq<KeyMap> | |maps| == 1
      ensures && (CheckOf(kind, lk, classIds)(full, maps).Ok? <==> "name" in full && full["name"] !in maps[0])
              && (CheckOf(kind, lk, classIds)(full, maps).Ok? ==> CheckOf(kind, lk, classIds)(full, maps).value.0 == full)
              && ("name" in full && full["name"] in maps[0] ==>
                    && CheckOf(kind, lk, classIds)(full, maps).Err? && CheckOf(kind, lk, classIds)(full, maps).error.SpineIntegrityError?
                    && CheckOf(kind, lk, classIds)(full, maps).error.id == maps[0][full["name"]])
    {
      match kind
      case Alternative => CheckByName(kind, lk, classIds, full, maps, "Missing alternative name.", "alternative");
      case Scenario => CheckByName(kind, lk, classIds, full, maps, "Missing scenario name.", "scenario");
      case ParameterValueList =>
        CheckByName(kind, lk, classIds, full, maps, "Missing parameter value list name.", "parameter value_list");
      case Tool => CheckByName(kind, lk, classIds, full, maps, "Missing tool name.", "tool");
    }
  }

  /** A type whose check is CheckName passes and rejects items as a check by name does. */
  lemma CheckByName(kind: ItemType, lk: Lookups, classIds: set<Val>, full: Item, maps: seq<KeyMap>, missing: string, name: string)
    requires kind.PrimaryKeys() == [["name"]] && |maps| == 1
    requires TypeCheck(kind, lk, classIds, full, maps) == CheckName(full, maps[0], missing, name)
    ensures CheckOf(kind, lk, classIds)(full, maps).Ok? <==> "name" in full && full["name"] !in maps[0]
    ensures CheckOf(kind, lk, classIds)(full, maps).Ok? ==> CheckOf(kind, lk, classIds)(full, maps).value.0 == full
    ensures "name" in full && full["name"] in maps[0] ==>
      && CheckOf(kind, lk, classIds)(full, maps).Err? && CheckOf(kind, lk, classIds)(full, maps).error.SpineIntegrityError?
      && CheckOf(kind, lk, classIds)(full, maps).error.id == maps[0][full["name"]]
  {
    assert CheckOf(kind, lk, classIds)(full, maps) == RunCheck(kind, lk, classIds, full, maps);
  }

  /** Once an item passes a check by name, its name, as it now is, is in the dict with the id it is registered with. */
  lemma PassedNameIsTaken(kind: ItemType, s: Stocks, item: Item, forUpdate: bool, check: Check)
    requires kind.PrimaryKeys() == [["name"]] && ChecksName(check) && StocksFit(kind, s)
    requires Step(kind, s, item, forUpdate, true, check).result.Ok?
    ensures var r := Step(kind, s, item, forUpdate, true, check);
            && "name" in r.result.value.0
            && KeyPart(r.result.value.0["name"]) in r.stocks.keyMaps[0]
            && r.stocks.keyMaps[0][KeyPart(r.result.value.0["name"])] == RegisteredId(item, forUpdate)
  {
    if forUpdate {
      var id := item["id"].n;
      var keys := KeysOf(s.table[id], kind.PrimaryKeys()).value;
      DeleteOwnKeysSucceeds(s.keyMaps, keys, 0);
      UpdateReindexes(kind, s, item, id, check);
    } else {
      InsertRegistersKeys(kind, s, item, check);
    }
  }

  /**
   * After an item passes a check by name, a later insert in the batch with
   * the same name is rejected, naming the id the first one holds the name with.
   */
  lemma LaterInsertOfTakenNameRejected(kind: ItemType, s: Stocks, item: Item, forUpdate: bool, other: Item, check: Check)
    requires kind.PrimaryKeys() == [["name"]] && ChecksName(check) && StocksFit(kind, s)
    requires Step(kind, s, item, forUpdate, true, check).result.Ok?
    requires "name" in other && !other["name"].VList?
    requires other["name"] == Step(kind, s, item, forUpdate, true, check).result.value.0["name"]
    ensures var r := Step(kind, s, item, forUpdate, true, check);
            var later := Step(kind, r.stocks, other, false, true, check).result;
            later.Err? && later.error.SpineIntegrityError? && later.error.id == RegisteredId(item, forUpdate)
  {
    var r := Step(kind, s, item, forUpdate, true, check);
    PassedNameIsTaken(kind, s, item, forUpdate, check);
    InsertRegistersKeys(kind, r.stocks, other, check);
  }

  /**
   * With a check by name, an update that renames an indexed item to a name
   * another key holds in the dict is rejected, naming that holder's id.
   */
  lemma RenameToTakenNameRejected(kind: ItemType, t: Stocks, other: Item, otherId: int, check: Check)
    requires kind.PrimaryKeys() == [["name"]] && "name" !in kind.ImmutableFields() && ChecksName(check) && StocksFit(kind, t)
    requires "name" in other && !other["name"].VList? && other["name"] in t.keyMaps[0]
    requires "id" in other && other["id"] == VInt(otherId)
    requires otherId in t.table && "name" in t.table[otherId]
    requires KeyPart(t.table[otherId]["name"]) in t.keyMaps[0] && KeyPart(t.table[otherId]["name"]) != other["name"]
    ensures var later := Step(kind, t, other, true, true, check).result;
            later.Err? && later.error.SpineIntegrityError? && later.error.id == t.keyMaps[0][other["name"]]
  {
    var name := other["name"];
    var current := t.table[otherId];
    var keys := KeysOf(current, kind.PrimaryKeys()).value;
    assert GetKey(current, ["name"]) == Ok(keys[0]);
    assert keys[0] == KeyPart(current["name"]);
    UpdateReindexes(kind, t, other, otherId, check);
    FixedRestores(kind.ImmutableFields(), current, other);
    var merged := current + Fixed(kind.ImmutableFields(), current, other).0;
    assert merged["name"] == name;
    var deleted := WithoutOwnKeys(t.keyMaps, keys, 0);
    assert |deleted| == 1 && deleted[0] == t.keyMaps[0] - {keys[0]};
    assert name in deleted[0] && deleted[0][name] == t.keyMaps[0][name];
    assert check(merged, deleted).Err?;
  }

  /**
   * After an item passes a check by name, a later update in the batch that
   * renames another indexed item to the same name is rejected, naming the
   * id the first one holds the name with.
   */
  lemma LaterRenameToTakenNameRejected(kind: ItemType, s: Stocks, item: Item, forUpdate: bool, other: Item, otherId: int, check: Check)
    requires kind.PrimaryKeys() == [["name"]] && "name" !in kind.ImmutableFields() && ChecksName(check) && StocksFit(kind, s)
    requires Step(kind, s, item, forUpdate, true, check).result.Ok?
    requires "name" in other && !other["name"].VList?
    requires other["name"] == Step(kind, s, item, forUpdate, true, check).result.value.0["name"]
    requires "id" in other && other["id"] == VInt(otherId)
    requires var t := Step(kind, s, item, forUpdate, true, check).stocks;
             && otherId in t.table
             && "name" in t.table[otherId]
             && KeyPart(t.table[otherId]["name"]) in t.keyMaps[0]
             && KeyPart(t.table[otherId]["name"]) != other["name"]
    ensures var r := Step(kind, s, item, forUpdate, true, check);
            var later := Step(kind, r.stocks, other, true, true, check).result;
            later.Err? && later.error.SpineIntegrityError? && later.error.id == RegisteredId(item, forUpdate)
  {
    PassedNameIsTaken(kind, s, item, forUpdate, check);
    RenameToTakenNameRejected(kind, Step(kind, s, item, forUpdate, true, check).stocks, other, otherId, check);
  }

  // ---- the batch ---------------------------------------------------------------------------

  /** A batch that is not strict logs every integrity error; only other errors escape it. */
  lemma {:induction false} LenientBatchRaisesNoIntegrityError(kind: ItemType, lk: Lookups, s: Stocks, items: seq<Item>, forUpdate: bool, checked: seq<Item>)
    requires StocksFit(kind, s)
    ensures Batch(kind, lk, s, items, forUpdate, false, checked).1.Err? ==>
      !Batch(kind, lk, s, items, forUpdate, false, checked).1.error.SpineIntegrityError?
    decreases |items|
  {
    if items != [] {
      match AdvanceOne(kind, lk, s, Prepare(kind, lk, items[0], forUpdate), forUpdate, false)
      case Stop(_, _) =>
      case Continue(s', passed) => LenientBatchRaisesNoIntegrityError(kind, lk, s', items[1..], forUpdate, checked + passed);
    }
  }

  /** What a batch returns extends what was passed before it, by at most one item per item checked. */
  lemma {:induction false} BatchReturnsPassedInOrder(kind: ItemType, lk: Lookups, s: Stocks, items: seq<Item>, forUpdate: bool, strict: bool, checked: seq<Item>)
    requires StocksFit(kind, s)
    ensures var r := Batch(kind, lk, s, items, forUpdate, strict, checked).1;
            r.Ok? ==> checked <= r.value && |r.value| <= |checked| + |items|
    decreases |items|
  {
    if items != [] {
      match AdvanceOne(kind, lk, s, Prepare(kind, lk, items[0], forUpdate), forUpdate, strict)
      case Stop(_, _) =>
      case Continue(s', passed) => BatchReturnsPassedInOrder(kind, lk, s', items[1..], forUpdate, strict, checked + passed);
    }
  }

  /**
   * Inserted metadata passes when it has a name and a value, and is returned
   * exactly when that (name, value) is not yet in the dict.
   */
  lemma MetadataReturnedWhenNew(lk: Lookups, s: Stocks, item: Item, strict: bool)
    requires StocksFit(Metadata, s)
    requires "name" in item && "value" in item && !item["name"].VList? && !item["value"].VList?
    ensures AdvanceOne(Metadata, lk, s, Prepare(Metadata, lk, item, false), false, strict).Continue?
    ensures AdvanceOne(Metadata, lk, s, Prepare(Metadata, lk, item, false), false, strict).passed == if Pair(item["name"], item["value"]) in s.keyMaps[0] then [] else [item]
  {
    assert KeysOf(item, Metadata.PrimaryKeys()).Ok?;
    InsertRegistersKeys(Metadata, s, item, CheckOf(Metadata, lk, {}));
  }

  // ---- the code as written ---------------------------------------------------------------

  /**
   * As written, for a cached item whose keys differ from each other: the
   * update is checked against the dicts without its keys, and a passing
   * update puts back the keys the item had BEFORE the update.
   */
  lemma UpdateReregistersOldKeysAsWritten(kind: ItemType, s: Stocks, item: Item, id: int, check: Check)
    requires StocksFit(kind, s)
    requires "id" in item && item["id"] == VInt(id) && id in s.table
    requires KeysOf(s.table[id], kind.PrimaryKeys()).Ok?
    requires forall i :: 0 <= i < |s.keyMaps| ==> KeysOf(s.table[id], kind.PrimaryKeys()).value[i] in s.keyMaps[i]
    requires var keys := KeysOf(s.table[id], kind.PrimaryKeys()).value;
             forall i, j :: 0 <= i < j < |keys| ==> keys[i] != keys[j]
    ensures var keys := KeysOf(s.table[id], kind.PrimaryKeys()).value;
            var merged := s.table[id] + Fixed(kind.ImmutableFields(), s.table[id], item).0;
            var r := Step(kind, s, item, true, false, check);
            && r.result == check(merged, WithoutOwnKeys(s.keyMaps, keys, 0))
            && (r.result.Ok? ==>
                  && r.stocks.table == s.table[id := r.result.value.0]
                  && forall i :: 0 <= i < |s.keyMaps| ==> r.stocks.keyMaps[i] == s.keyMaps[i][keys[i] := Some(id)])
  {
    var keys := KeysOf(s.table[id], kind.PrimaryKeys()).value;
    var loc := Located(s.table[id], Some(id), keys);
    assert Locate(kind, s, item, true) == Ok(loc);
    TargetsOfDistinctKeys(keys);
    UpdatedChecksWithoutOwnKeys(kind, s, item, loc, false, check);
    if Step(kind, s, item, true, false, check).result.Ok? {
      UpdatedRegistersOldKeys(kind, s, item, loc, check);
    }
  }

  /** The as-written update on the located item: a passing check puts each old key back, with the item's id. */
  lemma UpdatedRegistersOldKeys(kind: ItemType, s: Stocks, item: Item, loc: Located, check: Check)
    requires StocksFit(kind, s) && loc.id.Some? && |loc.keys| == |s.keyMaps|
    requires forall i :: 0 <= i < |s.keyMaps| ==> loc.keys[i] in s.keyMaps[i]
    requires Updated(kind, s, item, loc, OwnTargets(loc.keys, 0), false, check).result.Ok?
    ensures var r := Updated(kind, s, item, loc, OwnTargets(loc.keys, 0), false, check);
            && r.stocks.table == s.table[loc.id.value := r.result.value.0]
            && forall i :: 0 <= i < |s.keyMaps| ==> r.stocks.keyMaps[i] == s.keyMaps[i][loc.keys[i] := loc.id]
  {
    var deleted := WithoutOwnKeys(s.keyMaps, loc.keys, 0);
    DeleteOwnKeys(s.keyMaps, loc.keys, 0);
    RegisterOwnKeys(deleted, loc.keys, 0, loc.id);
    forall i | 0 <= i < |s.keyMaps| ensures WithOwnKeys(deleted, loc.keys, 0, loc.id)[i] == s.keyMaps[i][loc.keys[i] := loc.id] {
      assert (s.keyMaps[i] - {loc.keys[i]})[loc.keys[i] := loc.id] == s.keyMaps[i][loc.keys[i] := loc.id];
    }
  }

  /**
   * As written, with a check by name: renaming an item indexed under its
   * name to a name not in the dict passes, and the dict keeps the OLD name,
   * now with the item's id, and does not get the new one.
   */
  lemma RenameAsWritten(kind: ItemType, s: Stocks, id: int, b: string, check: Check)
    requires kind.PrimaryKeys() == [["name"]] && "name" !in kind.ImmutableFields() && ChecksName(check) && StocksFit(kind, s)
    requires id in s.table && "name" in s.table[id] && s.table[id]["name"].VStr? && s.table[id]["name"] in s.keyMaps[0]
    requires VStr(b) !in s.keyMaps[0]
    ensures var r := Step(kind, s, map["id" := VInt(id), "name" := VStr(b)], true, false, check);
            && r.result.Ok?
            && id in r.stocks.table && "name" in r.stocks.table[id] && r.stocks.table[id]["name"] == VStr(b)
            && r.stocks.table == s.table[id := r.stocks.table[id]]
            && r.stocks.keyMaps == [s.keyMaps[0][s.table[id]["name"] := Some(id)]]
  {
    var item: Item := map["id" := VInt(id), "name" := VStr(b)];
    var a := s.table[id]["name"];
    var keys := KeysOf(s.table[id], kind.PrimaryKeys()).value;
    assert GetKey(s.table[id], ["name"]) == Ok(keys[0]);
    assert keys == [a];
    UpdateReregistersOldKeysAsWritten(kind, s, item, id, check);
    FixedRestores(kind.ImmutableFields(), s.table[id], item);
    var merged := s.table[id] + Fixed(kind.ImmutableFields(), s.table[id], item).0;
    assert merged["name"] == VStr(b);
    var maps := WithoutOwnKeys(s.keyMaps, keys, 0);
    assert maps == [s.keyMaps[0] - {a}];
    NameCheckPasses(check, merged, maps);
    var r := Step(kind, s, item, true, false, check);
    assert r.result == check(merged, maps) && r.result.value.0 == merged;
    assert r.stocks.table == s.table[id := merged];
  }

  /** A check by name passes an item whose name is not taken, and returns it unchanged. */
  lemma NameCheckPasses(check: Check, full: Item, maps: seq<KeyMap>)
    requires ChecksName(check) && |maps| == 1 && "name" in full && full["name"] !in maps[0]
    ensures check(full, maps).Ok? && check(full, maps).value.0 == full
  {
  }

  /**
   * As written, with a check by name: when items id1 and id2 are indexed
   * under the names a and c, a batch renaming id1 to b and then id2 to b
   * passes both updates, leaving two items named b.
   */
  lemma RenameTwiceAsWritten(kind: ItemType, s: Stocks, id1: int, id2: int, b: string, check: Check)
    requires kind.PrimaryKeys() == [["name"]] && "name" !in kind.ImmutableFields() && ChecksName(check) && StocksFit(kind, s)
    requires id1 != id2 && id1 in s.table && id2 in s.table
    requires "name" in s.table[id1] && s.table[id1]["name"].VStr? && s.table[id1]["name"] in s.keyMaps[0]
    requires "name" in s.table[id2] && s.table[id2]["name"].VStr? && s.table[id2]["name"] in s.keyMaps[0]
    requires VStr(b) !in s.keyMaps[0]
    ensures var first := Step(kind, s, map["id" := VInt(id1), "name" := VStr(b)], true, false, check);
            var second := Step(kind, first.stocks, map["id" := VInt(id2), "name" := VStr(b)], true, false, check);
            && first.result.Ok? && second.result.Ok?
            && id1 in second.stocks.table && "name" in second.stocks.table[id1] && second.stocks.table[id1]["name"] == VStr(b)
            && id2 in second.stocks.table && "name" in second.stocks.table[id2] && second.stocks.table[id2]["name"] == VStr(b)
  {
    RenameAsWritten(kind, s, id1, b, check);
    var first := Step(kind, s, map["id" := VInt(id1), "name" := VStr(b)], true, false, check);
    var t := first.stocks;
    var a1 := s.table[id1]["name"];
    assert t.keyMaps == [s.keyMaps[0][a1 := Some(id1)]];
    assert t.table[id2] == s.table[id2];
    assert VStr(b) != a1;
    assert VStr(b) !in t.keyMaps[0] && t.table[id2]["name"] in t.keyMaps[0];
    RenameAsWritten(kind, t, id2, b, check);
    var second := Step(kind, t, map["id" := VInt(id2), "name" := VStr(b)], true, false, check);
    assert second.stocks.table[id1] == t.table[id1];
  }

  /** The key of two distinct fields holding no list is the pair of their values. */
  lemma PairKey(item: Item, f: string, g: string)
    requires f in item && g in item && f != g && !item[f].VList? && !item[g].VList?
    ensures GetKey(item, [f, g]) == Ok(Pair(item[f], item[g]))
  {
    var k := GetKey(item, [f, g]).value;
    assert k.elems == [item[f], item[g]];
  }

  /** The existing-key dicts of scenario alternatives hold the item's two keys with its id. */
  predicate IndexedScenarioAlternative(s: Stocks, id: int)
    requires StocksFit(ScenarioAlternative, s) && id in s.table
  {
    var sa := s.table[id];
    && "scenario_id" in sa && "alternative_id" in sa && "rank" in sa
    && !sa["scenario_id"].VList? && !sa["alternative_id"].VList? && !sa["rank"].VList?
    && Pair(sa["scenario_id"], sa["alternative_id"]) in s.keyMaps[0]
    && s.keyMaps[0][Pair(sa["scenario_id"], sa["alternative_id"])] == Some(id)
    && Pair(sa["scenario_id"], sa["rank"]) in s.keyMaps[1]
    && s.keyMaps[1][Pair(sa["scenario_id"], sa["rank"])] == Some(id)
  }

  /** The two keys of an indexed scenario alternative. */
  lemma ScenarioAlternativeKeys(sa: Item)
    requires "scenario_id" in sa && "alternative_id" in sa && "rank" in sa
    requires !sa["scenario_id"].VList? && !sa["alternative_id"].VList? && !sa["rank"].VList?
    ensures KeysOf(sa, ScenarioAlternative.PrimaryKeys()) == Ok([Pair(sa["scenario_id"], sa["alternative_id"]), Pair(sa["scenario_id"], sa["rank"])])
  {
    var pks := ScenarioAlternative.PrimaryKeys();
    assert pks == [["scenario_id", "alternative_id"], ["scenario_id", "rank"]];
    PairKey(sa, "scenario_id", "alternative_id");
    PairKey(sa, "scenario_id", "rank");
    var r := KeysOf(sa, pks);
    assert r.Ok?;
    assert r.value == [Pair(sa["scenario_id"], sa["alternative_id"]), Pair(sa["scenario_id"], sa["rank"])];
  }

  /** Two equal keys collapse into one entry, for the later primary key. */
  lemma EqualPairCollapses(key: Val)
    ensures Targets([key, key]) == [(key, 1)]
  {
    assert [key, key][..1] == [key];
    assert Entries([key, key], 2) == [];
    assert Entries([key, key], 1) == [];
    assert LastIndex([key, key], key) == 1;
  }

  /**
   * As written, a scenario alternative whose alternative id equals its rank
   * has two equal keys, which collapse into one entry for the rank dict
   * only: an update that leaves its key fields alone is rejected as a
   * duplicate of itself.
   */
  lemma EqualKeysCollapseAsWritten(lk: Lookups, s: Stocks, item: Item, id: int)
    requires StocksFit(ScenarioAlternative, s)
    requires "id" in item && item["id"] == VInt(id) && id in s.table && IndexedScenarioAlternative(s, id)
    requires "scenario_id" !in item && "alternative_id" !in item && "rank" !in item
    requires s.table[id]["alternative_id"] == s.table[id]["rank"]
    requires GetVal(lk.scenarioNames, s.table[id]["scenario_id"], VNone) != VNone
    requires GetVal(lk.alternativeNames, s.table[id]["alternative_id"], VNone) != VNone
    ensures var r := StocksStepAsWritten(ScenarioAlternative, lk, {}, s, item, true).result;
            r.Err? && r.error.SpineIntegrityError? && r.error.id == Some(id)
  {
    var sa := s.table[id];
    var key := Pair(sa["scenario_id"], sa["alternative_id"]);
    ScenarioAlternativeKeys(sa);
    EqualPairCollapses(key);
    var loc := Located(sa, Some(id), [key, key]);
    assert Locate(ScenarioAlternative, s, item, true) == Ok(loc);
    var maps := s.keyMaps[1 := s.keyMaps[1] - {key}];
    assert DeleteKeys(s.keyMaps, [(key, 1)]) == (maps, true);
    var merged := sa + Fixed([], sa, item).0;
    assert merged == sa + item;
    var checked := CheckScenarioAlternative(merged, maps[0], maps[1], lk.scenarioNames, lk.alternativeNames);
    assert TakenWithId(maps[0], key);
    assert checked.Err? && checked.error.SpineIntegrityError? && checked.error.id == Some(id);
    assert TypeCheck(ScenarioAlternative, lk, {}, merged, maps) == checked;
  }

  /** A passing update of the located item that leaves every key as it was leaves the dicts as they were. */
  lemma UpdatedKeepingKeysKeepsIndex(kind: ItemType, s: Stocks, item: Item, loc: Located, check: Check)
    requires StocksFit(kind, s) && loc.id.Some? && |loc.keys| == |s.keyMaps|
    requires forall i :: 0 <= i < |s.keyMaps| ==> loc.keys[i] in s.keyMaps[i] && s.keyMaps[i][loc.keys[i]] == loc.id
    requires KeysOf(loc.full, kind.PrimaryKeys()).Ok?
    requires KeysOf(loc.full + Fixed(kind.ImmutableFields(), loc.full, item).0, kind.PrimaryKeys()) == Ok(loc.keys)
    requires Updated(kind, s, item, loc, OwnTargets(loc.keys, 0), true, check).result.Ok?
    ensures Updated(kind, s, item, loc, OwnTargets(loc.keys, 0), true, check).stocks.keyMaps == s.keyMaps
  {
    UpdatedRegistersNewKeys(kind, s, item, loc, check);
    ReregisterSameKeys(s.keyMaps, loc.keys, loc.id);
  }

  /** Taking each key out of its dict and putting it back with the id it had leaves the dicts as they were. */
  lemma ReregisterSameKeys(maps: seq<KeyMap>, keys: seq<Val>, id: Option<int>)
    requires |keys| == |maps|
    requires forall i :: 0 <= i < |maps| ==> keys[i] in maps[i] && maps[i][keys[i]] == id
    ensures WithOwnKeys(WithoutOwnKeys(maps, keys, 0), keys, 0, id) == maps
  {
    var after := WithOwnKeys(WithoutOwnKeys(maps, keys, 0), keys, 0, id);
    forall i | 0 <= i < |maps| ensures after[i] == maps[i] {
      assert (maps[i] - {keys[i]})[keys[i] := id] == maps[i];
    }
  }

  /** The located update of an indexed scenario alternative that leaves its key fields alone. */
  lemma LocatedScenarioAlternative(lk: Lookups, s: Stocks, item: Item, id: int)
    requires StocksFit(ScenarioAlternative, s)
    requires "id" in item && item["id"] == VInt(id) && id in s.table && IndexedScenarioAlternative(s, id)
    requires "scenario_id" !in item && "alternative_id" !in item && "rank" !in item
    ensures var sa := s.table[id];
            var keys := [Pair(sa["scenario_id"], sa["alternative_id"]), Pair(sa["scenario_id"], sa["rank"])];
            && Fixed([], sa, item).0 == item
            && KeysOf(sa, ScenarioAlternative.PrimaryKeys()) == Ok(keys)
            && KeysOf(sa + item, ScenarioAlternative.PrimaryKeys()) == Ok(keys)
            && Locate(ScenarioAlternative, s, item, true) == Ok(Located(sa, Some(id), keys))
  {
    var sa := s.table[id];
    assert Fixed([], sa, item).0 == item;
    ScenarioAlternativeKeys(sa);
    ScenarioAlternativeKeys(sa + item);
  }

  /**
   * With each key in its own dict, the same update is checked against dicts
   * that hold neither of the item's keys.
   */
  lemma EqualKeysKeptApart(lk: Lookups, s: Stocks, item: Item, id: int)
    requires StocksFit(ScenarioAlternative, s)
    requires "id" in item && item["id"] == VInt(id) && id in s.table && IndexedScenarioAlternative(s, id)
    requires "scenario_id" !in item && "alternative_id" !in item && "rank" !in item
    ensures var sa := s.table[id];
            StocksStep(ScenarioAlternative, lk, {}, s, item, true).result
            == CheckOf(ScenarioAlternative, lk, {})(sa + item,
                 [s.keyMaps[0] - {Pair(sa["scenario_id"], sa["alternative_id"])}, s.keyMaps[1] - {Pair(sa["scenario_id"], sa["rank"])}])
  {
    var sa := s.table[id];
    LocatedScenarioAlternative(lk, s, item, id);
    var keys := KeysOf(sa, ScenarioAlternative.PrimaryKeys()).value;
    UpdatedChecksWithoutOwnKeys(ScenarioAlternative, s, item, Located(sa, Some(id), keys), true, CheckOf(ScenarioAlternative, lk, {}));
    WithoutTwoKeys(s.keyMaps, keys);
  }

  /** Two dicts without their own keys. */
  lemma WithoutTwoKeys(maps: seq<KeyMap>, keys: seq<Val>)
    requires |maps| == |keys| == 2
    ensures WithoutOwnKeys(maps, keys, 0) == [maps[0] - {keys[0]}, maps[1] - {keys[1]}]
  {
    var r := WithoutOwnKeys(maps, keys, 0);
    assert r[0] == maps[0] - {keys[0]} && r[1] == maps[1] - {keys[1]};
  }

  /** An update of a located item whose keys stay as they were: once it passes, the dicts are as they were. */
  lemma StepKeepingKeysKeepsIndex(kind: ItemType, s: Stocks, item: Item, loc: Located, check: Check)
    requires StocksFit(kind, s) && Locate(kind, s, item, true) == Ok(loc)
    requires loc.id.Some? && |loc.keys| == |s.keyMaps|
    requires forall i :: 0 <= i < |s.keyMaps| ==> loc.keys[i] in s.keyMaps[i] && s.keyMaps[i][loc.keys[i]] == loc.id
    requires KeysOf(loc.full, kind.PrimaryKeys()).Ok?
    requires KeysOf(loc.full + Fixed(kind.ImmutableFields(), loc.full, item).0, kind.PrimaryKeys()) == Ok(loc.keys)
    ensures Step(kind, s, item, true, true, check).result.Ok? ==> Step(kind, s, item, true, true, check).stocks.keyMaps == s.keyMaps
  {
    assert TargetsFit(s.keyMaps, OwnTargets(loc.keys, 0));
    assert Step(kind, s, item, true, true, check) == Updated(kind, s, item, loc, OwnTargets(loc.keys, 0), true, check);
    if Step(kind, s, item, true, true, check).result.Ok? {
      UpdatedKeepingKeysKeepsIndex(kind, s, item, loc, check);
    }
  }

  /** With each key in its own dict, a passing update that leaves its key fields alone leaves the dicts as they were. */
  lemma UnchangedKeysStayIndexed(lk: Lookups, s: Stocks, item: Item, id: int)
    requires StocksFit(ScenarioAlternative, s)
    requires "id" in item && item["id"] == VInt(id) && id in s.table && IndexedScenarioAlternative(s, id)
    requires "scenario_id" !in item && "alternative_id" !in item && "rank" !in item
    ensures var r := StocksStep(ScenarioAlternative, lk, {}, s, item, true);
            r.result.Ok? ==> r.stocks.keyMaps == s.keyMaps
  {
    var sa := s.table[id];
    LocatedScenarioAlternative(lk, s, item, id);
    var keys := KeysOf(sa, ScenarioAlternative.PrimaryKeys()).value;
    StepKeepingKeysKeepsIndex(ScenarioAlternative, s, item, Located(sa, Some(id), keys), CheckOf(ScenarioAlternative, lk, {}));
  }

  /**
   * The scenario alternative the code as written rejects as a duplicate of
   * itself passes when each key stays in its own dict.
   */
  lemma EqualKeysPass(lk: Lookups, s: Stocks, item: Item, id: int)
    requires StocksFit(ScenarioAlternative, s)
    requires "id" in item && item["id"] == VInt(id) && id in s.table && IndexedScenarioAlternative(s, id)
    requires "scenario_id" !in item && "alternative_id" !in item && "rank" !in item
    requires s.table[id]["alternative_id"] == s.table[id]["rank"]
    requires GetVal(lk.scenarioNames, s.table[id]["scenario_id"], VNone) != VNone
    requires GetVal(lk.alternativeNames, s.table[id]["alternative_id"], VNone) != VNone
    ensures StocksStep(ScenarioAlternative, lk, {}, s, item, true).result.Ok?
  {
    var sa := s.table[id];
    var key := Pair(sa["scenario_id"], sa["alternative_id"]);
    EqualKeysKeptApart(lk, s, item, id);
    var maps := [s.keyMaps[0] - {key}, s.keyMaps[1] - {key}];
    var merged := sa + item;
    assert merged["scenario_id"] == sa["scenario_id"] && merged["alternative_id"] == sa["alternative_id"] && merged["rank"] == sa["rank"];
    assert TypeCheck(ScenarioAlternative, lk, {}, merged, maps)
           == CheckScenarioAlternative(merged, maps[0], maps[1], lk.scenarioNames, lk.alternativeNames);
  }
}
