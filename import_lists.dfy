// The planners of spinedb_api/import_functions.py that keep lists: the
// alternatives of each scenario in rank order, the parameter value lists and
// the values of each list with their indexes.

module ImportLists {
  import opened Errors
  import opened Text
  import opened Items
  import opened CheckFunctions
  import opened ImportFunctions

  // ---------------------------------------------------------------------------
  // Scenario alternatives

  /** The list with every occurrence of x taken out, the rest in order. */
  function Without(xs: seq<Val>, x: Val): (r: seq<Val>)
    ensures x !in r
    ensures forall y :: y in r <==> y in xs && y != x
    ensures x !in xs ==> r == xs
    decreases |xs|
  {
    if xs == [] then [] else (if xs[0] == x then [] else [xs[0]]) + Without(xs[1..], x)
  }

  lemma {:induction false} WithoutAppend(a: seq<Val>, b: seq<Val>, x: Val)
    ensures Without(a + b, x) == Without(a, x) + Without(b, x)
    decreases |a|
  {
    if a == [] {
      assert a + b == b;
    } else {
      assert (a + b)[1..] == a[1..] + b;
      WithoutAppend(a[1..], b, x);
    }
  }

  lemma {:induction false} WithoutDistinct(xs: seq<Val>, x: Val)
    requires Distinct(xs)
    ensures Distinct(Without(xs, x))
    decreases |xs|
  {
    if xs != [] {
      WithoutDistinct(xs[1..], x);
      assert xs[0] !in xs[1..];
    }
  }

  /** list.index(y): the first position of y, None when y is absent. */
  function FirstIndex(xs: seq<Val>, y: Val): (r: Option<nat>)
    ensures r.Some? ==> r.value < |xs| && xs[r.value] == y && y !in xs[..r.value]
    ensures r.None? <==> y !in xs
    decreases |xs|
  {
    if xs == [] then None
    else if xs[0] == y then Some(0)
    else
      match FirstIndex(xs[1..], y)
      case None => None
      case Some(i) =>
        assert xs[..i + 1] == [xs[0]] + xs[1..][..i];
        Some(i + 1)
  }

  lemma SpliceParts(rest: seq<Val>, alt: Val, pos: nat)
    requires alt !in rest && pos <= |rest|
    ensures Without(rest[..pos] + [alt] + rest[pos..], alt) == rest
  {
    var a, b := rest[..pos], rest[pos..];
    assert rest == a + b;
    assert alt !in a && alt !in b;
    WithoutAppend(a + [alt], b, alt);
    WithoutAppend(a, [alt], alt);
    assert Without([alt], alt) == [] by { assert [alt][1..] == []; }
    assert Without(a, alt) + [] == a;
  }

  /**
   * The alternatives of a scenario once alt is placed: taken out of the list
   * and put back before the first occurrence of `before`, or at the end when
   * `before` is not in the list.
   */
  function Splice(list: seq<Val>, alt: Val, before: Val): (r: seq<Val>)
    ensures alt in r && |r| == |Without(r, alt)| + 1
    ensures Without(r, alt) == Without(list, alt)
    ensures before != alt && before in list ==>
      (var i := FirstIndex(Without(list, alt), before).value; i + 1 < |r| && r[i] == alt && r[i + 1] == before)
    ensures before == alt || before !in list ==> r == Without(list, alt) + [alt]
  {
    var rest := Without(list, alt);
    var pos := match FirstIndex(rest, before) case Some(i) => i case None => |rest|;
    assert Without(rest[..pos] + [alt] + rest[pos..], alt) == rest by { SpliceParts(rest, alt, pos); }
    rest[..pos] + [alt] + rest[pos..]
  }

  lemma InsertDistinct(rest: seq<Val>, alt: Val, pos: nat)
    requires Distinct(rest) && alt !in rest && pos <= |rest|
    ensures Distinct(rest[..pos] + [alt] + rest[pos..])
  {
    var r := rest[..pos] + [alt] + rest[pos..];
    forall i, j | 0 <= i < j < |r| ensures r[i] != r[j] {
      if i == pos {
        assert r[j] == rest[j - 1];
      } else if j == pos {
        assert r[i] == rest[i];
      } else {
        var i' := if i < pos then i else i - 1;
        var j' := if j < pos then j else j - 1;
        assert r[i] == rest[i'] && r[j] == rest[j'] && i' < j';
      }
    }
  }

  /** Placing an alternative keeps a scenario's list free of repeats. */
  lemma SpliceDistinct(list: seq<Val>, alt: Val, before: Val)
    requires Distinct(list)
    ensures Distinct(Splice(list, alt, before))
  {
    var rest := Without(list, alt);
    WithoutDistinct(list, alt);
    var pos := match FirstIndex(rest, before) case Some(i) => i case None => |rest|;
    InsertDistinct(rest, alt, pos);
  }

  /**
   * The scenario alternative planner's state: the scenarios in dict order,
   * each scenario's alternative ids, the (scenario, alternative) name pairs
   * seen, and the log.
   */
  datatype Arranged = Arranged(order: seq<Val>, lists: map<Val, seq<Val>>, checked: set<Val>, log: seq<LogItem>)

  function ListOf(lists: map<Val, seq<Val>>, scenarioId: Val): seq<Val>
  {
    if scenarioId in lists then lists[scenarioId] else []
  }

  /** The dict entry of a scenario set to a new list; a new key goes last. */
  function Relisted(a: Arranged, scenarioId: Val, list: seq<Val>): Arranged
  {
    a.(order := if scenarioId in a.lists then a.order else a.order + [scenarioId], lists := a.lists[scenarioId := list])
  }

  /** The 'before' alternative of a row, when it names one. */
  predicate NamesBefore(parts: seq<Val>) { |parts| > 2 && Truthy(parts[2]) }

  /**
   * One row of the scenario alternative planner: scenario name, alternative
   * name and optionally the alternative to place it before.
   */
  function ArrangeStep(scenarioIds: map<Val, Val>, alternativeIds: map<Val, Val>, a: Arranged, row: Val): (r: Result<Arranged>)
    ensures r.Ok? <==> Iterate(row).Ok? && |Iterate(row).value| >= 2
    ensures r.Ok? ==> a.checked <= r.value.checked && a.log <= r.value.log && |r.value.log| <= |a.log| + 1
  {
    var parts :- UnpackAtLeast(row, 2);
    var scenarioName, alternativeName := parts[0], parts[1];
    var scenarioId := GetVal(scenarioIds, scenarioName, VNone);
    var alternativeId := GetVal(alternativeIds, alternativeName, VNone);
    if !Truthy(scenarioId) then
      Ok(a.(log := a.log + [LogItem("Scenario '" + Str(scenarioName) + "' not found.", "scenario alternative")]))
    else if !Truthy(alternativeId) then
      Ok(a.(log := a.log + [LogItem("Alternative '" + Str(alternativeName) + "' not found.", "scenario alternative")]))
    else if Pair(scenarioName, alternativeName) in a.checked then Ok(a)
    else
      var b := a.(checked := a.checked + {Pair(scenarioName, alternativeName)});
      if NamesBefore(parts) && parts[2] !in alternativeIds then
        Ok(b.(log := b.log + [LogItem("Before alternative '" + Str(parts[2]) + "' not found for '" + Str(alternativeName) + "'", "")]))
      else
        var before := if NamesBefore(parts) then alternativeIds[parts[2]] else VNone;
        Ok(Relisted(b, scenarioId, Splice(ListOf(b.lists, scenarioId), alternativeId, before)))
  }

  /** The rows in turn, from the scenarios' stored alternative lists. */
  function Arrangement(scenarioIds: map<Val, Val>, alternativeIds: map<Val, Val>, start: Arranged, rows: seq<Val>): Result<Arranged>
    decreases |rows|
  {
    if rows == [] then Ok(start)
    else
      var a :- Arrangement(scenarioIds, alternativeIds, start, rows[..|rows| - 1]);
      ArrangeStep(scenarioIds, alternativeIds, a, rows[|rows| - 1])
  }

  /** The scenario of an alternative list knows it, each once, and no list repeats an alternative. */
  ghost predicate ArrangedValid(a: Arranged)
  {
    && Distinct(a.order) && (forall s :: s in a.lists <==> s in a.order)
    && (forall s :: s in a.lists ==> Distinct(a.lists[s]))
  }

  lemma ArrangeStepValid(scenarioIds: map<Val, Val>, alternativeIds: map<Val, Val>, a: Arranged, row: Val)
    requires ArrangedValid(a) && ArrangeStep(scenarioIds, alternativeIds, a, row).Ok?
    ensures ArrangedValid(ArrangeStep(scenarioIds, alternativeIds, a, row).value)
  {
    var parts := Iterate(row).value;
    var scenarioId := GetVal(scenarioIds, parts[0], VNone);
    var alternativeId := GetVal(alternativeIds, parts[1], VNone);
    var r := ArrangeStep(scenarioIds, alternativeIds, a, row).value;
    if Truthy(scenarioId) && Truthy(alternativeId) && Pair(parts[0], parts[1]) !in a.checked
       && !(NamesBefore(parts) && parts[2] !in alternativeIds)
    {
      var b := a.(checked := a.checked + {Pair(parts[0], parts[1])});
      var before := if NamesBefore(parts) then alternativeIds[parts[2]] else VNone;
      var list := Splice(ListOf(b.lists, scenarioId), alternativeId, before);
      SpliceDistinct(ListOf(b.lists, scenarioId), alternativeId, before);
      RelistedValid(b, scenarioId, list);
      assert r == Relisted(b, scenarioId, list);
    } else {
      assert r.order == a.order && r.lists == a.lists;
    }
  }

  /** Storing a list without repeats keeps the planner's state valid. */
  lemma RelistedValid(b: Arranged, scenarioId: Val, list: seq<Val>)
    requires ArrangedValid(b) && Distinct(list)
    ensures ArrangedValid(Relisted(b, scenarioId, list))
  {
    if scenarioId !in b.lists {
      DistinctConcat(b.order, [scenarioId]);
    }
  }

  /**
   * However the rows run, the scenarios stay listed once each and no
   * scenario's alternatives repeat, so ranks go to distinct alternatives.
   */
  lemma {:induction false} ArrangementValid(scenarioIds: map<Val, Val>, alternativeIds: map<Val, Val>, start: Arranged, rows: seq<Val>)
    requires ArrangedValid(start) && Arrangement(scenarioIds, alternativeIds, start, rows).Ok?
    ensures ArrangedValid(Arrangement(scenarioIds, alternativeIds, start, rows).value)
    decreases |rows|
  {
    if rows != [] {
      ArrangementValid(scenarioIds, alternativeIds, start, rows[..|rows| - 1]);
      ArrangeStepValid(scenarioIds, alternativeIds, Arrangement(scenarioIds, alternativeIds, start, rows[..|rows| - 1]).value, rows[|rows| - 1]);
    }
  }

  /**
   * A row for a known scenario and alternative, not seen before and without
   * a 'before', moves the alternative to the end of the scenario's list and
   * keeps the order of the others.
   */
  lemma AlternativeAppended(scenarioIds: map<Val, Val>, alternativeIds: map<Val, Val>, a: Arranged, scenarioName: Val, alternativeName: Val)
    requires Truthy(GetVal(scenarioIds, scenarioName, VNone)) && Truthy(GetVal(alternativeIds, alternativeName, VNone))
    requires Pair(scenarioName, alternativeName) !in a.checked
    requires VNone !in ListOf(a.lists, scenarioIds[scenarioName])
    ensures (var r := ArrangeStep(scenarioIds, alternativeIds, a, VTuple([scenarioName, alternativeName]));
             var scenarioId, alternativeId := scenarioIds[scenarioName], alternativeIds[alternativeName];
             && r.Ok? && r.value.log == a.log && Pair(scenarioName, alternativeName) in r.value.checked
             && scenarioId in r.value.lists
             && r.value.lists[scenarioId] == Without(ListOf(a.lists, scenarioId), alternativeId) + [alternativeId])
  {
    var row := VTuple([scenarioName, alternativeName]);
    var parts := Iterate(row).value;
    assert parts == [scenarioName, alternativeName] && !NamesBefore(parts);
    var scenarioId, alternativeId := scenarioIds[scenarioName], alternativeIds[alternativeName];
    var b := a.(checked := a.checked + {Pair(scenarioName, alternativeName)});
    assert ListOf(b.lists, scenarioId) == ListOf(a.lists, scenarioId);
    var list := Splice(ListOf(a.lists, scenarioId), alternativeId, VNone);
    assert list == Without(ListOf(a.lists, scenarioId), alternativeId) + [alternativeId];
    assert ArrangeStep(scenarioIds, alternativeIds, a, row) == Ok(Relisted(b, scenarioId, list));
  }

  /**
   * A row whose (scenario, alternative) pair was seen earlier in the batch
   * changes nothing, even when the earlier row was refused for its 'before'.
   */
  lemma RepeatedPairIgnored(scenarioIds: map<Val, Val>, alternativeIds: map<Val, Val>, a: Arranged, row: Val)
    requires Iterate(row).Ok? && |Iterate(row).value| >= 2
    requires Truthy(GetVal(scenarioIds, Iterate(row).value[0], VNone)) && Truthy(GetVal(alternativeIds, Iterate(row).value[1], VNone))
    requires Pair(Iterate(row).value[0], Iterate(row).value[1]) in a.checked
    ensures ArrangeStep(scenarioIds, alternativeIds, a, row) == Ok(a)
  {
  }

  /** A row naming an unknown 'before' alternative is logged, and its pair is still marked as seen. */
  lemma UnknownBeforeLogged(scenarioIds: map<Val, Val>, alternativeIds: map<Val, Val>, a: Arranged, row: Val)
    requires Iterate(row).Ok? && |Iterate(row).value| >= 3
    requires (var parts := Iterate(row).value;
              && Truthy(GetVal(scenarioIds, parts[0], VNone)) && Truthy(GetVal(alternativeIds, parts[1], VNone))
              && Pair(parts[0], parts[1]) !in a.checked && Truthy(parts[2]) && parts[2] !in alternativeIds)
    ensures (var parts := Iterate(row).value;
             ArrangeStep(scenarioIds, alternativeIds, a, row)
             == Ok(a.(checked := a.checked + {Pair(parts[0], parts[1])},
                      log := a.log + [LogItem("Before alternative '" + Str(parts[2]) + "' not found for '" + Str(parts[1]) + "'", "")])))
  {
  }

  /** The item of the alternative at position k of a scenario's list, carrying the id of an existing scenario alternative. */
  function RankItem(scenarioId: Val, alternativeId: Val, k: nat, saIds: map<Val, int>): (r: Item)
    ensures "scenario_id" in r && r["scenario_id"] == scenarioId
    ensures "alternative_id" in r && r["alternative_id"] == alternativeId
    ensures "rank" in r && r["rank"] == VInt(k + 1)
    ensures "id" in r <==> Pair(scenarioId, alternativeId) in saIds
  {
    var item := map["scenario_id" := scenarioId, "alternative_id" := alternativeId, "rank" := VInt(k + 1)];
    if Pair(scenarioId, alternativeId) in saIds then item["id" := VInt(saIds[Pair(scenarioId, alternativeId)])] else item
  }

  /** The items of one scenario's list, in list order. */
  function Ranked(scenarioId: Val, list: seq<Val>, saIds: map<Val, int>): (r: seq<Item>)
    ensures |r| == |list|
  {
    seq(|list|, k requires 0 <= k < |list| => RankItem(scenarioId, list[k], k, saIds))
  }

  /** The items of every scenario, scenario by scenario in dict order. */
  function AllRanked(order: seq<Val>, lists: map<Val, seq<Val>>, saIds: map<Val, int>): seq<Item>
    decreases |order|
  {
    if order == [] then []
    else AllRanked(order[..|order| - 1], lists, saIds) + Ranked(order[|order| - 1], ListOf(lists, order[|order| - 1]), saIds)
  }

  /** Items with an id go to the updates, the others to the additions, each in order. */
  function Partitioned(items: seq<Item>): (r: (seq<Item>, seq<Item>))
    decreases |items|
  {
    if items == [] then ([], [])
    else
      var p := Partitioned(items[..|items| - 1]);
      var last := items[|items| - 1];
      if "id" in last then (p.0, p.1 + [last]) else (p.0 + [last], p.1)
  }

  /** The additions are the items without an id and the updates those with one, all of them and nothing else. */
  lemma {:induction false} PartitionedSplits(items: seq<Item>)
    ensures |Partitioned(items).0| + |Partitioned(items).1| == |items|
    ensures forall item :: item in Partitioned(items).0 <==> item in items && "id" !in item
    ensures forall item :: item in Partitioned(items).1 <==> item in items && "id" in item
    decreases |items|
  {
    if items != [] {
      var front := items[..|items| - 1];
      PartitionedSplits(front);
      assert items == front + [items[|items| - 1]];
    }
  }

  /** _get_scenario_alternatives_for_import. */
  function ScenarioAlternativesPlan(scenarioIds: map<Val, Val>, alternativeIds: map<Val, Val>, start: Arranged, rows: seq<Val>, saIds: map<Val, int>): Result<Plan>
  {
    var a :- Arrangement(scenarioIds, alternativeIds, start, rows);
    var p := Partitioned(AllRanked(a.order, a.lists, saIds));
    Ok(Plan(p.0, p.1, a.log))
  }

  /** Every planned item ranks its alternative by its position, from 1, in its scenario's list. */
  lemma {:induction false} RanksArePositions(order: seq<Val>, lists: map<Val, seq<Val>>, saIds: map<Val, int>)
    ensures forall item :: item in AllRanked(order, lists, saIds) ==>
      && "scenario_id" in item && item["scenario_id"] in order && "alternative_id" in item && "rank" in item
      && exists k :: 0 <= k < |ListOf(lists, item["scenario_id"])|
                     && ListOf(lists, item["scenario_id"])[k] == item["alternative_id"] && item["rank"] == VInt(k + 1)
    decreases |order|
  {
    if order != [] {
      var front := order[..|order| - 1];
      var s := order[|order| - 1];
      RanksArePositions(front, lists, saIds);
      var list := ListOf(lists, s);
      forall item | item in Ranked(s, list, saIds)
        ensures && "scenario_id" in item && item["scenario_id"] in order && "alternative_id" in item && "rank" in item
                && exists k :: 0 <= k < |ListOf(lists, item["scenario_id"])|
                               && ListOf(lists, item["scenario_id"])[k] == item["alternative_id"] && item["rank"] == VInt(k + 1)
      {
        var k :| 0 <= k < |list| && Ranked(s, list, saIds)[k] == item;
        assert item == RankItem(s, list[k], k, saIds);
      }
      forall item | item in AllRanked(front, lists, saIds) ensures item["scenario_id"] in order {
        assert item["scenario_id"] in front;
      }
    }
  }

  /** The (scenario, alternative) key of a planned item. */
  function PairOf(item: Item): Val { Pair(Get(item, "scenario_id"), Get(item, "alternative_id")) }

  /** The keys of the planned items, in order. */
  function Pairs(items: seq<Item>): (r: seq<Val>)
    ensures |r| == |items| && forall i :: 0 <= i < |items| ==> r[i] == PairOf(items[i])
  {
    seq(|items|, i requires 0 <= i < |items| => PairOf(items[i]))
  }

  lemma DistinctConcat(a: seq<Val>, b: seq<Val>)
    requires Distinct(a) && Distinct(b) && forall x :: x in a ==> x !in b
    ensures Distinct(a + b)
  {
    forall i, j | 0 <= i < j < |a + b| ensures (a + b)[i] != (a + b)[j] {
      if i < |a| && j >= |a| {
        assert (a + b)[i] in a && (a + b)[j] == b[j - |a|];
      }
    }
  }

  /** With every scenario listed once and no list repeating an alternative, no (scenario, alternative) pair is planned twice. */
  lemma {:induction false} PairsPlannedOnce(order: seq<Val>, lists: map<Val, seq<Val>>, saIds: map<Val, int>)
    requires Distinct(order) && forall s :: s in lists ==> Distinct(lists[s])
    ensures Distinct(Pairs(AllRanked(order, lists, saIds)))
    decreases |order|
  {
    if order != [] {
      var front := order[..|order| - 1];
      var s := order[|order| - 1];
      assert Distinct(front);
      PairsPlannedOnce(front, lists, saIds);
      RanksArePositions(front, lists, saIds);
      var before := AllRanked(front, lists, saIds);
      var list := ListOf(lists, s);
      var mine := Ranked(s, list, saIds);
      assert Pairs(before + mine) == Pairs(before) + Pairs(mine);
      forall k | 0 <= k < |mine| ensures Pairs(mine)[k] == Pair(s, list[k]) {
        assert mine[k] == RankItem(s, list[k], k, saIds);
      }
      forall x | x in Pairs(before) ensures x.elems[0] in front {
        var i :| 0 <= i < |before| && Pairs(before)[i] == x;
        assert before[i] in before;
      }
      assert s !in front;
      DistinctConcat(Pairs(before), Pairs(mine));
    }
  }

  /** _get_scenario_alternatives_for_import: the rows in turn, then every scenario's list ranked from 1. */
  method PlanScenarioAlternatives(scenarioIds: map<Val, Val>, alternativeIds: map<Val, Val>, start: Arranged, rows: seq<Val>, saIds: map<Val, int>)
    returns (r: Result<Plan>)
    ensures r == ScenarioAlternativesPlan(scenarioIds, alternativeIds, start, rows, saIds)
  {
    var arranged := ArrangeRows(scenarioIds, alternativeIds, start, rows);
    if arranged.Err? {
      return Err(arranged.error);
    }
    var a := arranged.value;
    var toAdd, toUpdate := RankAll(a.order, a.lists, saIds);
    r := Ok(Plan(toAdd, toUpdate, a.log));
  }

  /** The second loop of _get_scenario_alternatives_for_import: every scenario's list ranked in turn. */
  method RankAll(order: seq<Val>, lists: map<Val, seq<Val>>, saIds: map<Val, int>) returns (toAdd: seq<Item>, toUpdate: seq<Item>)
    ensures (toAdd, toUpdate) == Partitioned(AllRanked(order, lists, saIds))
  {
    toAdd, toUpdate := [], [];
    for i := 0 to |order|
      invariant Partitioned(AllRanked(order[..i], lists, saIds)) == (toAdd, toUpdate)
    {
      assert order[..i + 1][..i] == order[..i];
      toAdd, toUpdate := RankScenario(order[i], ListOf(lists, order[i]), saIds, AllRanked(order[..i], lists, saIds), toAdd, toUpdate);
    }
    assert order[..|order|] == order;
  }

  /** The first loop of _get_scenario_alternatives_for_import: each row placed in turn. */
  method ArrangeRows(scenarioIds: map<Val, Val>, alternativeIds: map<Val, Val>, start: Arranged, rows: seq<Val>) returns (r: Result<Arranged>)
    ensures r == Arrangement(scenarioIds, alternativeIds, start, rows)
  {
    var a := start;
    for i := 0 to |rows|
      invariant Arrangement(scenarioIds, alternativeIds, start, rows[..i]) == Ok(a)
    {
      assert rows[..i + 1][..i] == rows[..i];
      var next := ArrangeStep(scenarioIds, alternativeIds, a, rows[i]);
      if next.Err? {
        ArrangementErrSticks(scenarioIds, alternativeIds, start, rows, i + 1);
        return Err(next.error);
      }
      a := next.value;
    }
    assert rows[..|rows|] == rows;
    r := Ok(a);
  }

  /** One scenario's alternatives, ranked in list order, appended to the additions or the updates. */
  method RankScenario(s: Val, list: seq<Val>, saIds: map<Val, int>, ghost done: seq<Item>, toAdd: seq<Item>, toUpdate: seq<Item>)
    returns (toAdd': seq<Item>, toUpdate': seq<Item>)
    requires Partitioned(done) == (toAdd, toUpdate)
    ensures Partitioned(done + Ranked(s, list, saIds)) == (toAdd', toUpdate')
  {
    toAdd', toUpdate' := toAdd, toUpdate;
    assert done + Ranked(s, list, saIds)[..0] == done;
    for k := 0 to |list|
      invariant Partitioned(done + Ranked(s, list, saIds)[..k]) == (toAdd', toUpdate')
    {
      var item := RankItem(s, list[k], k, saIds);
      var upTo := done + Ranked(s, list, saIds)[..k + 1];
      assert upTo[..|upTo| - 1] == done + Ranked(s, list, saIds)[..k];
      assert upTo[|upTo| - 1] == item;
      if "id" in item {
        toUpdate' := toUpdate' + [item];
      } else {
        toAdd' := toAdd' + [item];
      }
    }
    assert Ranked(s, list, saIds)[..|list|] == Ranked(s, list, saIds);
  }

  lemma {:induction false} ArrangementErrSticks(scenarioIds: map<Val, Val>, alternativeIds: map<Val, Val>, start: Arranged, rows: seq<Val>, n: nat)
    requires n <= |rows| && Arrangement(scenarioIds, alternativeIds, start, rows[..n]).Err?
    ensures Arrangement(scenarioIds, alternativeIds, start, rows) == Arrangement(scenarioIds, alternativeIds, start, rows[..n])
    decreases |rows| - n
  {
    if n < |rows| {
      assert rows[..n + 1][..n] == rows[..n];
      ArrangementErrSticks(scenarioIds, alternativeIds, start, rows, n + 1);
    } else {
      assert rows[..n] == rows;
    }
  }

  // ---------------------------------------------------------------------------
  // Parameter value lists

  /** x[0] */
  function Head(x: Val): (r: Result<Val>)
    ensures (x.VList? || x.VTuple?) && x.elems != [] ==> r == Ok(x.elems[0])
    ensures x.VStr? && x.s != [] ==> r == Ok(VStr([x.s[0]]))
  {
    match x
    case VList(e) => if e == [] then Err(IndexError("list index out of range")) else Ok(e[0])
    case VTuple(e) => if e == [] then Err(IndexError("tuple index out of range")) else Ok(e[0])
    case VStr(t) => if t == [] then Err(IndexError("string index out of range")) else Ok(VStr([t[0]]))
    case VBytes(b) => if b == [] then Err(IndexError("index out of range")) else Ok(VInt(b[0] as int))
    case _ => Err(TypeError("object is not subscriptable"))
  }

  /** The first element of every row. */
  function Heads(rows: seq<Val>): (r: Result<seq<Val>>)
    ensures r.Ok? <==> forall i :: 0 <= i < |rows| ==> Head(rows[i]).Ok?
    ensures r.Ok? ==> |r.value| == |rows| && forall i :: 0 <= i < |rows| ==> r.value[i] == Head(rows[i]).value
    decreases |rows|
  {
    if rows == [] then Ok([])
    else
      var front :- Heads(rows[..|rows| - 1]);
      var last :- Head(rows[|rows| - 1]);
      Ok(front + [last])
  }

  /** The keys of a dict built from xs in order: each value once, at its first occurrence. */
  function FirstOccurrences(xs: seq<Val>): (r: seq<Val>)
    ensures Distinct(r)
    ensures forall x :: x in r <==> x in xs
    decreases |xs|
  {
    if xs == [] then []
    else
      var front := FirstOccurrences(xs[..|xs| - 1]);
      assert forall x :: x in xs <==> x in xs[..|xs| - 1] || x == xs[|xs| - 1];
      if xs[|xs| - 1] in front then front else front + [xs[|xs| - 1]]
  }

  /** The value lists planned: the names, each once and in order, that no existing list has. */
  function NewListItems(names: seq<Val>, existing: KeyMap): (r: seq<Item>)
    decreases |names|
  {
    if names == [] then []
    else
      var front := NewListItems(names[..|names| - 1], existing);
      var item := map["name" := names[|names| - 1]];
      if CheckParameterValueList(item, existing).Ok? then front + [item] else front
  }

  /**
   * _get_parameter_value_lists_for_import: the first element of each row
   * names a list; a name already taken is skipped without a log entry.
   */
  function ValueListsPlan(existing: KeyMap, rows: seq<Val>): Result<Plan>
  {
    var heads :- Heads(rows);
    Ok(Plan(NewListItems(FirstOccurrences(heads), existing), [], []))
  }

  /** The names in the planned items, in order. */
  function NamesOf(items: seq<Item>): seq<Val>
    decreases |items|
  {
    if items == [] then [] else NamesOf(items[..|items| - 1]) + [Get(items[|items| - 1], "name")]
  }

  lemma NamesOfSnoc(items: seq<Item>, item: Item)
    ensures NamesOf(items + [item]) == NamesOf(items) + [Get(item, "name")]
  {
    assert (items + [item])[..|items|] == items;
  }

  lemma {:induction false} NewListItemsNamed(names: seq<Val>, existing: KeyMap)
    requires Distinct(names)
    ensures Distinct(NamesOf(NewListItems(names, existing)))
    ensures forall n :: n in NamesOf(NewListItems(names, existing)) <==> n in names && n !in existing
    ensures forall item :: item in NewListItems(names, existing) ==> item.Keys == {"name"}
    decreases |names|
  {
    if names != [] {
      var front := names[..|names| - 1];
      var last := names[|names| - 1];
      NewListItemsNamed(front, existing);
      assert names == front + [last];
      assert last !in front;
      var items := NewListItems(front, existing);
      var item := map["name" := last];
      assert CheckParameterValueList(item, existing).Ok? <==> last !in existing;
      if last !in existing {
        assert NewListItems(names, existing) == items + [item];
        NamesOfSnoc(items, item);
        assert last !in NamesOf(items);
        DistinctConcat(NamesOf(items), [last]);
      } else {
        assert NewListItems(names, existing) == items;
      }
    }
  }

  /**
   * Every list named in the rows and not yet in the database is added, once,
   * as an item holding only its name; no other list is added.
   */
  lemma ValueListsAddedOnce(existing: KeyMap, rows: seq<Val>)
    requires ValueListsPlan(existing, rows).Ok?
    ensures (var plan := ValueListsPlan(existing, rows).value;
             && plan.toUpdate == [] && plan.errors == []
             && Distinct(NamesOf(plan.toAdd))
             && (forall n :: n in NamesOf(plan.toAdd) <==> (exists i :: 0 <= i < |rows| && Head(rows[i]) == Ok(n)) && n !in existing)
             && forall item :: item in plan.toAdd ==> item.Keys == {"name"})
  {
    var heads := Heads(rows).value;
    NewListItemsNamed(FirstOccurrences(heads), existing);
    forall n ensures n in heads <==> exists i :: 0 <= i < |rows| && Head(rows[i]) == Ok(n) {
      if n in heads {
        var i :| 0 <= i < |heads| && heads[i] == n;
        assert Head(rows[i]) == Ok(n);
      }
    }
  }

  /** _get_parameter_value_lists_for_import: the dict of first elements, then the names not taken. */
  method PlanValueLists(existing: KeyMap, rows: seq<Val>) returns (r: Result<Plan>)
    ensures r == ValueListsPlan(existing, rows)
  {
    var names := ListNames(rows);
    if names.Err? {
      return Err(names.error);
    }
    var toAdd: seq<Item> := [];
    for i := 0 to |names.value|
      invariant toAdd == NewListItems(names.value[..i], existing)
    {
      assert names.value[..i + 1][..i] == names.value[..i];
      var item := map["name" := names.value[i]];
      if CheckParameterValueList(item, existing).Ok? {
        toAdd := toAdd + [item];
      }
    }
    assert names.value[..|names.value|] == names.value;
    r := Ok(Plan(toAdd, [], []));
  }

  /** {x[0]: None for x in data}, as its keys in order. */
  method ListNames(rows: seq<Val>) returns (r: Result<seq<Val>>)
    ensures r.Ok? <==> Heads(rows).Ok?
    ensures r.Ok? ==> r.value == FirstOccurrences(Heads(rows).value)
    ensures r.Err? ==> Heads(rows) == Err(r.error)
  {
    var heads: seq<Val> := [];
    var names: seq<Val> := [];
    for i := 0 to |rows|
      invariant Heads(rows[..i]) == Ok(heads) && names == FirstOccurrences(heads)
    {
      assert rows[..i + 1][..i] == rows[..i];
      var head := Head(rows[i]);
      if head.Err? {
        HeadsErrSticks(rows, i + 1);
        return Err(head.error);
      }
      assert (heads + [head.value])[..|heads|] == heads;
      if head.value !in names {
        names := names + [head.value];
      }
      heads := heads + [head.value];
    }
    assert rows[..|rows|] == rows;
    r := Ok(names);
  }

  lemma {:induction false} HeadsErrSticks(rows: seq<Val>, n: nat)
    requires n <= |rows| && Heads(rows[..n]).Err?
    ensures Heads(rows) == Heads(rows[..n])
    decreases |rows| - n
  {
    if n < |rows| {
      assert rows[..n + 1][..n] == rows[..n];
      HeadsErrSticks(rows, n + 1);
    } else {
      assert rows[..n] == rows;
    }
  }

  // ---------------------------------------------------------------------------
  // List values

  /** What the list value planner reads besides the rows. */
  datatype ListValueContext = ListValueContext(
    lists: map<Val, (Val, seq<int>)>,   // list name -> id and the indexes of its stored values
    listNames: map<Val, Val>,           // list id -> name
    byIndex: KeyMap,                    // (list id, index) -> value id
    byValue: KeyMap,                    // (list id, type, value) -> value id
    unparse: Val -> (Val, Val),         // unparse_value: value to database value and type
    codec: Codec)

  /** A list value planned for addition. */
  datatype ListValue = ListValue(listId: Val, value: Val, valueType: Val, index: int)

  function ListValueItem(v: ListValue): Item
  {
    map["parameter_value_list_id" := v.listId, "value" := v.value, "type" := v.valueType, "index" := VInt(v.index)]
  }

  /** The (list id, type, value) key of a list value. */
  function ValueKey(v: ListValue): Val { Triple(v.listId, v.valueType, v.value) }

  /** The list value planner's state: values added, log, keys seen and the last index given per list. */
  datatype Listed = Listed(added: seq<ListValue>, log: seq<LogItem>, seen: set<Val>, maxIndexes: map<Val, int>)

  /** The index of a new value: one past the last index given in this batch, else one past the list's largest, else 0. */
  function NextIndex(maxIndexes: map<Val, int>, listId: Val, indexes: seq<int>): (r: int)
    ensures listId in maxIndexes ==> r == maxIndexes[listId] + 1
    ensures listId !in maxIndexes ==> forall i :: i in indexes ==> i < r
    ensures listId !in maxIndexes && indexes == [] ==> r == 0
  {
    if listId in maxIndexes then maxIndexes[listId] + 1
    else if indexes == [] then 0
    else Max(indexes) + 1
  }

  /** One row of the list value planner: a list name and a value. */
  function ListValueStep(c: ListValueContext, st: Listed, row: Val): (r: Result<Listed>)
    ensures r.Ok? ==> st.log <= r.value.log && st.added <= r.value.added && |r.value.added| <= |st.added| + 1
  {
    var parts :- UnpackExactly(row, 2);
    var listName, value := parts[0], parts[1];
    if listName !in c.lists then
      Ok(st.(log := st.log + [LogItem("Could not import value for list '" + Str(listName) + "': list not found", "list value")]))
    else
      var (listId, indexes) := c.lists[listName];
      var (dbValue, dbType) := c.unparse(value);
      if Triple(listId, dbType, dbValue) in st.seen then
        Ok(st.(log := st.log + [LogItem("Could not import value for list '" + Str(listName)
                                        + "': Duplicate value, only first will be considered", "list value")]))
      else
        AddListValue(c, st, ListValue(listId, dbValue, dbType, NextIndex(st.maxIndexes, listId, indexes)), listName, value)
  }

  /** A new value passes the list value check and is added, or the failure is logged, skipped or raised. */
  function AddListValue(c: ListValueContext, st: Listed, v: ListValue, listName: Val, value: Val): (r: Result<Listed>)
    ensures r.Ok? ==>
      || (r.value.added == st.added && r.value.seen == st.seen && r.value.maxIndexes == st.maxIndexes && st.log <= r.value.log)
      || r.value == Listed(st.added + [v], st.log, st.seen + {ValueKey(v)}, st.maxIndexes[v.listId := v.index])
  {
    match CheckListValue(ListValueItem(v), c.listNames, c.byIndex, c.byValue, c.codec)
    case Err(e) =>
      if !e.SpineIntegrityError? then Err(e)
      else if e.id.None? then
        Ok(st.(log := st.log + [LogItem("Could not import value '" + Str(value) + "' for list '" + Str(listName) + "': " + e.Message(),
                                        "list value")]))
      else Ok(st)
    case Ok(_) =>
      Ok(Listed(st.added + [v], st.log, st.seen + {ValueKey(v)}, st.maxIndexes[v.listId := v.index]))
  }

  function ListValuesFrom(c: ListValueContext, rows: seq<Val>): Result<Listed>
    decreases |rows|
  {
    if rows == [] then Ok(Listed([], [], {}, map[]))
    else
      var st :- ListValuesFrom(c, rows[..|rows| - 1]);
      ListValueStep(c, st, rows[|rows| - 1])
  }

  /** _get_list_values_for_import. */
  function ListValuesPlan(c: ListValueContext, rows: seq<Val>): Result<Plan>
  {
    var st :- ListValuesFrom(c, rows);
    Ok(Plan(ListValueItems(st.added), [], st.log))
  }

  function ListValueItems(added: seq<ListValue>): (r: seq<Item>)
    ensures |r| == |added|
    decreases |added|
  {
    if added == [] then [] else ListValueItems(added[..|added| - 1]) + [ListValueItem(added[|added| - 1])]
  }

  /** The indexes given to the values of one list, in order. */
  function IndexesOf(added: seq<ListValue>, listId: Val): seq<int>
    decreases |added|
  {
    if added == [] then []
    else
      var front := IndexesOf(added[..|added| - 1], listId);
      if added[|added| - 1].listId == listId then front + [added[|added| - 1].index] else front
  }

  function ValueKeys(added: seq<ListValue>): (r: seq<Val>)
    ensures |r| == |added| && forall i :: 0 <= i < |added| ==> r[i] == ValueKey(added[i])
  {
    seq(|added|, i requires 0 <= i < |added| => ValueKey(added[i]))
  }

  predicate Consecutive(xs: seq<int>)
  {
    forall i :: 0 <= i < |xs| - 1 ==> xs[i + 1] == xs[i] + 1
  }

  /**
   * The planner's invariant: the keys seen are those of the values added,
   * no key twice; each list's indexes run consecutively up to the last index
   * recorded for it, and a list with none recorded has no value added.
   */
  ghost predicate ListedValid(st: Listed)
  {
    KeysRecorded(st.added, st.seen) && IndexesRecorded(st.added, st.maxIndexes)
  }

  ghost predicate KeysRecorded(added: seq<ListValue>, seen: set<Val>)
  {
    Distinct(ValueKeys(added)) && seen == (set k | k in ValueKeys(added))
  }

  ghost predicate IndexesRecorded(added: seq<ListValue>, maxIndexes: map<Val, int>)
  {
    && (forall l :: l in maxIndexes ==> (var xs := IndexesOf(added, l); xs != [] && Consecutive(xs) && xs[|xs| - 1] == maxIndexes[l]))
    && (forall l :: l !in maxIndexes ==> IndexesOf(added, l) == [])
  }

  lemma {:induction false} IndexesOfAppend(added: seq<ListValue>, v: ListValue, l: Val)
    ensures IndexesOf(added + [v], l) == IndexesOf(added, l) + (if v.listId == l then [v.index] else [])
  {
    assert (added + [v])[..|added|] == added;
  }

  /** Adding a value with a new key, at the next index of its list, keeps the invariant. */
  lemma ListedAdd(st: Listed, v: ListValue, log: seq<LogItem>)
    requires ListedValid(st) && ValueKey(v) !in st.seen
    requires v.listId in st.maxIndexes ==> v.index == st.maxIndexes[v.listId] + 1
    ensures ListedValid(Listed(st.added + [v], log, st.seen + {ValueKey(v)}, st.maxIndexes[v.listId := v.index]))
  {
    KeysAdd(st.added, st.seen, v);
    IndexesAdd(st.added, st.maxIndexes, v);
  }

  lemma KeysAdd(added: seq<ListValue>, seen: set<Val>, v: ListValue)
    requires KeysRecorded(added, seen) && ValueKey(v) !in seen
    ensures KeysRecorded(added + [v], seen + {ValueKey(v)})
  {
    assert ValueKeys(added + [v]) == ValueKeys(added) + [ValueKey(v)];
    DistinctConcat(ValueKeys(added), [ValueKey(v)]);
  }

  lemma IndexesAdd(added: seq<ListValue>, maxIndexes: map<Val, int>, v: ListValue)
    requires IndexesRecorded(added, maxIndexes)
    requires v.listId in maxIndexes ==> v.index == maxIndexes[v.listId] + 1
    ensures IndexesRecorded(added + [v], maxIndexes[v.listId := v.index])
  {
    var m := maxIndexes[v.listId := v.index];
    forall l | l in m
      ensures (var xs := IndexesOf(added + [v], l); xs != [] && Consecutive(xs) && xs[|xs| - 1] == m[l])
    {
      IndexesOfAppend(added, v, l);
      if l == v.listId {
        var before := IndexesOf(added, l);
        assert IndexesOf(added + [v], l) == before + [v.index];
        if l in maxIndexes {
          ConsecutiveAppend(before, v.index);
        } else {
          assert before == [];
        }
      }
    }
    forall l | l !in m ensures IndexesOf(added + [v], l) == [] {
      IndexesOfAppend(added, v, l);
    }
  }

  lemma ConsecutiveAppend(xs: seq<int>, x: int)
    requires xs != [] && Consecutive(xs) && x == xs[|xs| - 1] + 1
    ensures Consecutive(xs + [x])
  {
  }

  /** One row either leaves the values, keys and indexes as they were or adds one new value at its list's next index. */
  lemma ListValueStepShape(c: ListValueContext, st: Listed, row: Val) returns (added: bool, v: ListValue)
    requires ListValueStep(c, st, row).Ok?
    ensures var r := ListValueStep(c, st, row).value;
      if added then
        && r == Listed(st.added + [v], r.log, st.seen + {ValueKey(v)}, st.maxIndexes[v.listId := v.index])
        && ValueKey(v) !in st.seen
        && (v.listId in st.maxIndexes ==> v.index == st.maxIndexes[v.listId] + 1)
      else r.added == st.added && r.seen == st.seen && r.maxIndexes == st.maxIndexes
  {
    var r := ListValueStep(c, st, row).value;
    var parts := UnpackExactly(row, 2).value;
    var listName, value := parts[0], parts[1];
    added, v := false, ListValue(VNone, VNone, VNone, 0);
    if listName in c.lists {
      var (listId, indexes) := c.lists[listName];
      var (dbValue, dbType) := c.unparse(value);
      var w := ListValue(listId, dbValue, dbType, NextIndex(st.maxIndexes, listId, indexes));
      if Triple(listId, dbType, dbValue) !in st.seen && r.added != st.added {
        added, v := true, w;
      }
    }
  }

  lemma ListValueStepValid(c: ListValueContext, st: Listed, row: Val)
    requires ListedValid(st) && ListValueStep(c, st, row).Ok?
    ensures ListedValid(ListValueStep(c, st, row).value)
  {
    var r := ListValueStep(c, st, row).value;
    var added, v := ListValueStepShape(c, st, row);
    if added {
      ListedAdd(st, v, r.log);
    }
  }

  /**
   * However the rows run, no (list, type, value) is added twice and each
   * list's new values get consecutive indexes.
   */
  lemma {:induction false} ListValuesValid(c: ListValueContext, rows: seq<Val>)
    requires ListValuesFrom(c, rows).Ok?
    ensures ListedValid(ListValuesFrom(c, rows).value)
    decreases |rows|
  {
    if rows != [] {
      ListValuesValid(c, rows[..|rows| - 1]);
      ListValueStepValid(c, ListValuesFrom(c, rows[..|rows| - 1]).value, rows[|rows| - 1]);
    }
  }

  /** The first value added to a list in a batch goes past every index the list already has. */
  lemma FirstValueIndexFree(c: ListValueContext, st: Listed, row: Val)
    requires ListValueStep(c, st, row).Ok? && |ListValueStep(c, st, row).value.added| > |st.added|
    ensures (var v := ListValueStep(c, st, row).value.added[|st.added|];
             var parts := Iterate(row).value;
             && |parts| == 2 && parts[0] in c.lists && v.listId == c.lists[parts[0]].0
             && (v.listId !in st.maxIndexes ==> forall i :: i in c.lists[parts[0]].1 ==> i < v.index)
             && (v.listId in st.maxIndexes ==> v.index == st.maxIndexes[v.listId] + 1))
  {
  }

  /** _get_list_values_for_import: the rows in turn. */
  method PlanListValues(c: ListValueContext, rows: seq<Val>) returns (r: Result<Plan>)
    ensures r == ListValuesPlan(c, rows)
  {
    var st := Listed([], [], {}, map[]);
    for i := 0 to |rows|
      invariant ListValuesFrom(c, rows[..i]) == Ok(st)
    {
      assert rows[..i + 1][..i] == rows[..i];
      var next := ListValueStep(c, st, rows[i]);
      if next.Err? {
        ListValuesErrSticks(c, rows, i + 1);
        return Err(next.error);
      }
      st := next.value;
    }
    assert rows[..|rows|] == rows;
    var toAdd: seq<Item> := [];
    for i := 0 to |st.added|
      invariant toAdd == ListValueItems(st.added[..i])
    {
      assert st.added[..i + 1][..i] == st.added[..i];
      toAdd := toAdd + [ListValueItem(st.added[i])];
    }
    assert st.added[..|st.added|] == st.added;
    r := Ok(Plan(toAdd, [], st.log));
  }

  lemma {:induction false} ListValuesErrSticks(c: ListValueContext, rows: seq<Val>, n: nat)
    requires n <= |rows| && ListValuesFrom(c, rows[..n]).Err?
    ensures ListValuesFrom(c, rows) == ListValuesFrom(c, rows[..n])
    decreases |rows| - n
  {
    if n < |rows| {
      assert rows[..n + 1][..n] == rows[..n];
      ListValuesErrSticks(c, rows, n + 1);
    } else {
      assert rows[..n] == rows;
    }
  }
}
