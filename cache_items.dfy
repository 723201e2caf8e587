// The field rules of the cache item classes (spinedb_api/db_cache.py):
// the defaults their constructors fill in, the "1,2"-style id lists they
// parse, and the derived fields of scenarios and scenario alternatives.
// Field values are a small tagged union with Python's truthiness.

module CacheItems {
  import opened Errors
  import opened Text

  /** The field values the model distinguishes. */
  datatype Val = NoneV | IntV(i: int) | StrV(s: string) | IdsV(ids: seq<int>) | BoolV(b: bool)
  {
    /** bool(v) in Python. */
    predicate Truthy()
    {
      match this
      case NoneV => false
      case IntV(i) => i != 0
      case StrV(s) => s != []
      case IdsV(ids) => ids != []
      case BoolV(b) => b
    }
  }

  type Fields = map<string, Val>

  /** dict.get(key): None for a missing key. */
  function Get(f: Fields, key: string): Val
  {
    if key in f then f[key] else NoneV
  }

  /** Python's `a or b`. */
  function Or(a: Val, b: Val): Val
  {
    if a.Truthy() then a else b
  }

  /** The type name Python's error messages use. */
  function TypeName(v: Val): string
  {
    match v
    case NoneV => "NoneType"
    case IntV(_) => "int"
    case StrV(_) => "str"
    case IdsV(_) => "tuple"
    case BoolV(_) => "bool"
  }

  /**
   * int(v): an int is kept, a bool counts as 0 or 1, a string must spell a
   * decimal integer (ValueError otherwise), and anything else is a TypeError.
   */
  function ToInt(v: Val): (r: Result<int>)
    ensures v.IntV? ==> r == Ok(v.i)
    ensures v.StrV? ==> (r.Ok? <==> ParseInt(v.s).Some?)
    ensures v.StrV? && r.Ok? ==> r.value == ParseInt(v.s).value
    ensures v.StrV? && r.Err? ==> r.error.ValueError?
    ensures (v.NoneV? || v.IdsV?) ==> r.Err? && r.error.TypeError?
  {
    match v
    case IntV(i) => Ok(i)
    case BoolV(b) => Ok(if b then 1 else 0)
    case StrV(s) =>
      (match ParseInt(s)
       case Some(n) => Ok(n)
       case None => Err(ValueError("invalid literal for int() with base 10: '" + s + "'")))
    case _ => Err(TypeError("int() argument must be a string, a bytes-like object or a number, not '" + TypeName(v) + "'"))
  }

  /** int(str(i)) == i, through the field value. */
  lemma ToIntOfString(i: int)
    ensures ToInt(StrV(IntToString(i))) == Ok(i)
  {
    ParseIntOfIntToString(i);
  }

  /** The ints of the pieces, in order; the first piece that is not an int raises. */
  function ParseInts(parts: seq<string>): (r: Result<seq<int>>)
    ensures r.Ok? ==> |r.value| == |parts|
    ensures r.Ok? ==> forall k :: 0 <= k < |parts| ==> ParseInt(parts[k]) == Some(r.value[k])
    ensures (forall k :: 0 <= k < |parts| ==> ParseInt(parts[k]).Some?) ==> r.Ok?
    decreases |parts|
  {
    if parts == [] then Ok([])
    else
      match ToInt(StrV(parts[0]))
      case Err(e) => Err(e)
      case Ok(n) =>
        match ParseInts(parts[1..])
        case Err(e) => Err(e)
        case Ok(ns) =>
          assert forall k :: 1 <= k < |parts| ==> parts[k] == parts[1..][k - 1];
          Ok([n] + ns)
  }

  /**
   * ObjectClassIdListMixin.__init__: a string id list is split at the commas
   * and every piece read with int(); any other iterable becomes a tuple.
   */
  function IdList(v: Val): (r: Result<seq<int>>)
    ensures v.IdsV? ==> r == Ok(v.ids)
    ensures v.StrV? ==> r == ParseInts(Split(v.s, ','))
    ensures v.StrV? && r.Ok? ==> |r.value| == |Split(v.s, ',')| > 0
    ensures !v.IdsV? && !v.StrV? ==> r.Err? && r.error.TypeError?
  {
    match v
    case IdsV(ids) => Ok(ids)
    case StrV(s) => ParseInts(Split(s, ','))
    case _ => Err(TypeError("'" + TypeName(v) + "' object is not iterable"))
  }

  /** str(i) for each id, in order. */
  function IntStrings(ids: seq<int>): (parts: seq<string>)
    ensures |parts| == |ids|
  {
    if ids == [] then [] else [IntToString(ids[0])] + IntStrings(ids[1..])
  }

  /** ",".join(str(i) for i in ids), the form the database stores id lists in. */
  function IdsText(ids: seq<int>): string
  {
    Join(IntStrings(ids), ",")
  }

  lemma NoCommaInInt(i: int)
    ensures ',' !in IntToString(i)
  {
    var s := IntToString(i);
    if i < 0 {
      assert s == "-" + NatToString(-i);
      assert AllDigits(NatToString(-i));
    } else {
      assert AllDigits(s);
    }
  }

  lemma {:induction false} NoCommaInIntStrings(ids: seq<int>)
    ensures forall p :: p in IntStrings(ids) ==> ',' !in p
  {
    if ids != [] {
      NoCommaInInt(ids[0]);
      NoCommaInIntStrings(ids[1..]);
    }
  }

  lemma {:induction false} ParseIntsOfStrings(ids: seq<int>)
    ensures ParseInts(IntStrings(ids)) == Ok(ids)
  {
    if ids != [] {
      var parts := IntStrings(ids);
      ToIntOfString(ids[0]);
      ParseIntsOfStrings(ids[1..]);
      assert parts[0] == IntToString(ids[0]);
      assert parts[1..] == IntStrings(ids[1..]);
      assert ParseInts(parts) == Ok([ids[0]] + ids[1..]);
      assert [ids[0]] + ids[1..] == ids;
    }
  }

  /** A non-empty id list stored as text parses back to the same ids. */
  lemma IdListOfText(ids: seq<int>)
    requires ids != []
    ensures IdList(StrV(IdsText(ids))) == Ok(ids)
  {
    NoCommaInIntStrings(ids);
    SplitJoin(IntStrings(ids), ',');
    ParseIntsOfStrings(ids);
  }

  /** The empty string is one empty piece, which int() rejects. */
  lemma EmptyIdTextFails()
    ensures IdList(StrV("")).Err?
  {
    assert Split("", ',') == [""];
    assert ParseInt("").None?;
  }

  /**
   * ParameterMixin.__init__: without an entity_class_id the object class id
   * stands in, or the relationship class id when that is falsy.
   */
  function WithEntityClass(f: Fields): (r: Fields)
    ensures r.Keys == f.Keys + {"entity_class_id"}
    ensures forall key :: key in f && key != "entity_class_id" ==> r[key] == f[key]
    ensures "entity_class_id" in f ==> r == f
    ensures "entity_class_id" !in f && Get(f, "object_class_id").Truthy() ==> r["entity_class_id"] == f["object_class_id"]
    ensures "entity_class_id" !in f && !Get(f, "object_class_id").Truthy() ==> r["entity_class_id"] == Get(f, "relationship_class_id")
  {
    if "entity_class_id" in f then f
    else f["entity_class_id" := Or(Get(f, "object_class_id"), Get(f, "relationship_class_id"))]
  }

  /**
   * The list_value_id rule shared by definitions and values: a missing or
   * None list_value_id is the int of the value field when the type field is
   * "list_value_ref" (a missing value field is a KeyError), and None
   * otherwise; a list_value_id that is set is kept.
   */
  function WithListValueId(f: Fields, valueKey: string, typeKey: string): (r: Result<Fields>)
    requires valueKey != "list_value_id" && typeKey != "list_value_id"
    ensures r.Err? <==> Get(f, "list_value_id") == NoneV && Get(f, typeKey) == StrV("list_value_ref")
                        && (valueKey !in f || ToInt(f[valueKey]).Err?)
    ensures r.Ok? ==> r.value.Keys == f.Keys + {"list_value_id"}
    ensures r.Ok? ==> forall key :: key in f && key != "list_value_id" ==> r.value[key] == f[key]
    ensures r.Ok? && Get(f, "list_value_id") != NoneV ==> r.value["list_value_id"] == f["list_value_id"]
    ensures r.Ok? && Get(f, "list_value_id") == NoneV && Get(f, typeKey) == StrV("list_value_ref")
      ==> r.value["list_value_id"] == IntV(ToInt(f[valueKey]).value)
    ensures r.Ok? && Get(f, "list_value_id") == NoneV && Get(f, typeKey) != StrV("list_value_ref")
      ==> r.value["list_value_id"] == NoneV
  {
    if Get(f, "list_value_id") != NoneV then Ok(f)
    else if Get(f, typeKey) != StrV("list_value_ref") then Ok(f["list_value_id" := NoneV])
    else if valueKey !in f then Err(KeyError(valueKey))
    else match ToInt(f[valueKey])
      case Err(e) => Err(e)
      case Ok(n) => Ok(f["list_value_id" := IntV(n)])
  }

  /** entity_id defaults to the object id, or else the relationship id. */
  function WithEntityId(f: Fields): (r: Fields)
    ensures r.Keys == f.Keys + {"entity_id"}
    ensures forall key :: key in f && key != "entity_id" ==> r[key] == f[key]
    ensures "entity_id" in f ==> r == f
    ensures "entity_id" !in f && Get(f, "object_id").Truthy() ==> r["entity_id"] == f["object_id"]
    ensures "entity_id" !in f && !Get(f, "object_id").Truthy() ==> r["entity_id"] == Get(f, "relationship_id")
  {
    if "entity_id" in f then f else f["entity_id" := Or(Get(f, "object_id"), Get(f, "relationship_id"))]
  }

  /**
   * ParameterValueItem.__init__: the entity_id default, the list_value_id
   * rule on value and type, then the ParameterMixin default.
   */
  function ParameterValueFields(f: Fields): (r: Result<Fields>)
    ensures r.Err? <==> WithListValueId(WithEntityId(f), "value", "type").Err?
    ensures r.Ok? ==> r.value == WithEntityClass(WithListValueId(WithEntityId(f), "value", "type").value)
  {
    match WithListValueId(WithEntityId(f), "value", "type")
    case Err(e) => Err(e)
    case Ok(f1) => Ok(WithEntityClass(f1))
  }

  /**
   * ParameterDefinitionItem.__init__: the list_value_id rule on
   * default_value and default_type, then the ParameterMixin default.
   */
  function ParameterDefinitionFields(f: Fields): (r: Result<Fields>)
    ensures r.Err? <==> WithListValueId(f, "default_value", "default_type").Err?
    ensures r.Ok? ==> r.value == WithEntityClass(WithListValueId(f, "default_value", "default_type").value)
  {
    match WithListValueId(f, "default_value", "default_type")
    case Err(e) => Err(e)
    case Ok(f1) => Ok(WithEntityClass(f1))
  }

  /** A value stored as a list-value reference gets that reference back as its list_value_id. */
  lemma ListValueRefRead(f: Fields, id: int)
    requires "list_value_id" !in f && Get(f, "type") == StrV("list_value_ref") && Get(f, "value") == StrV(IntToString(id))
    ensures ParameterValueFields(f).Ok? && ParameterValueFields(f).value["list_value_id"] == IntV(id)
  {
    ToIntOfString(id);
    assert Get(WithEntityId(f), "type") == Get(f, "type") && Get(WithEntityId(f), "value") == Get(f, "value");
  }

  /**
   * ObjectClassIdListMixin.__init__: object_class_id_list must be given
   * (KeyError otherwise) and becomes a tuple of ints.
   */
  function ObjectClassIdListFields(f: Fields): (r: Result<Fields>)
    ensures "object_class_id_list" !in f ==> r == Err(KeyError("object_class_id_list"))
    ensures "object_class_id_list" in f ==> (r.Ok? <==> IdList(f["object_class_id_list"]).Ok?)
    ensures r.Ok? ==> r.value == f["object_class_id_list" := IdsV(IdList(f["object_class_id_list"]).value)]
  {
    if "object_class_id_list" !in f then Err(KeyError("object_class_id_list"))
    else match IdList(f["object_class_id_list"])
      case Err(e) => Err(e)
      case Ok(ids) => Ok(f["object_class_id_list" := IdsV(ids)])
  }

  /**
   * RelationshipItem.__init__: without an object_class_id_list the one of
   * its class is taken (the empty tuple when the class is not cached or has
   * none; the class_id must be given); object_id_list, the empty tuple when
   * missing, becomes a tuple of ints; then the mixin rule applies.
   * relClass is the cached relationship class under the class_id, if any.
   */
  function RelationshipFields(f: Fields, relClass: Option<Fields>): (r: Result<Fields>)
    ensures "object_class_id_list" !in f && "class_id" !in f ==> r == Err(KeyError("class_id"))
    ensures r.Ok? ==> r.value.Keys == f.Keys + {"object_class_id_list", "object_id_list"}
    ensures r.Ok? ==> forall key :: key in f && key !in {"object_class_id_list", "object_id_list"} ==> r.value[key] == f[key]
    ensures r.Ok? ==> r.value["object_class_id_list"].IdsV? && r.value["object_id_list"].IdsV?
    ensures r.Ok? && "object_id_list" !in f ==> r.value["object_id_list"] == IdsV([])
    ensures r.Ok? && "object_class_id_list" in f ==>
      IdList(f["object_class_id_list"]).Ok? && r.value["object_class_id_list"] == IdsV(IdList(f["object_class_id_list"]).value)
    ensures r.Ok? && "object_class_id_list" !in f && (relClass.None? || "object_class_id_list" !in relClass.value)
      ==> r.value["object_class_id_list"] == IdsV([])
  {
    if "object_class_id_list" !in f && "class_id" !in f then Err(KeyError("class_id"))
    else
      var classIds :=
        if "object_class_id_list" in f then f["object_class_id_list"]
        else if relClass.Some? && "object_class_id_list" in relClass.value then relClass.value["object_class_id_list"]
        else IdsV([]);
      var objectIds := if "object_id_list" in f then f["object_id_list"] else IdsV([]);
      match IdList(objectIds)
      case Err(e) => Err(e)
      case Ok(oids) => ObjectClassIdListFields(f["object_id_list" := IdsV(oids)]["object_class_id_list" := classIds])
  }

  // Scenario alternatives, as the scenario and alternative ids and the rank.
  datatype ScenAlt = ScenAlt(scenario: int, alternative: int, rank: int)

  predicate SortedByRank(s: seq<ScenAlt>)
  {
    forall i, j :: 0 <= i < j < |s| ==> s[i].rank <= s[j].rank
  }

  /** The elements of rank r, in order. */
  function OfRank(s: seq<ScenAlt>, r: int): seq<ScenAlt>
  {
    if s == [] then [] else OfRank(s[..|s| - 1], r) + (if s[|s| - 1].rank == r then [s[|s| - 1]] else [])
  }

  /** x placed after every element of rank at most its own. */
  function Insert(x: ScenAlt, s: seq<ScenAlt>): seq<ScenAlt>
    decreases |s|
  {
    if s == [] then [x]
    else if s[|s| - 1].rank <= x.rank then s + [x]
    else Insert(x, s[..|s| - 1]) + [s[|s| - 1]]
  }

  /** sorted(s, key=itemgetter("rank")): Python's sort is stable. */
  function SortByRank(s: seq<ScenAlt>): seq<ScenAlt>
    decreases |s|
  {
    if s == [] then [] else Insert(s[|s| - 1], SortByRank(s[..|s| - 1]))
  }

  lemma {:induction false} InsertPerm(x: ScenAlt, s: seq<ScenAlt>)
    ensures multiset(Insert(x, s)) == multiset(s) + multiset{x}
    decreases |s|
  {
    if s != [] && s[|s| - 1].rank > x.rank {
      var init := s[..|s| - 1];
      InsertPerm(x, init);
      assert s == init + [s[|s| - 1]];
    }
  }

  lemma {:induction false} InsertSorted(x: ScenAlt, s: seq<ScenAlt>)
    requires SortedByRank(s)
    ensures SortedByRank(Insert(x, s))
    decreases |s|
  {
    if s != [] && s[|s| - 1].rank > x.rank {
      var init := s[..|s| - 1];
      var last := s[|s| - 1];
      InsertSorted(x, init);
      InsertPerm(x, init);
      var ins := Insert(x, init);
      forall i | 0 <= i < |ins|
        ensures ins[i].rank <= last.rank
      {
        assert ins[i] in multiset(init) + multiset{x} by {
          assert ins[i] in multiset(ins);
        }
        if ins[i] != x {
          assert ins[i] in init;
        }
      }
      assert Insert(x, s) == ins + [last];
    }
  }

  lemma {:induction false} OfRankAppend(a: seq<ScenAlt>, b: seq<ScenAlt>, r: int)
    ensures OfRank(a + b, r) == OfRank(a, r) + OfRank(b, r)
    decreases |b|
  {
    if b == [] {
      assert a + b == a;
    } else {
      var ab := a + b;
      assert ab[..|ab| - 1] == a + b[..|b| - 1];
      assert ab[|ab| - 1] == b[|b| - 1];
      OfRankAppend(a, b[..|b| - 1], r);
    }
  }

  lemma {:induction false} OfRankInsert(x: ScenAlt, s: seq<ScenAlt>, r: int)
    ensures OfRank(Insert(x, s), r) == OfRank(s, r) + OfRank([x], r)
    decreases |s|
  {
    if s == [] {
    } else if s[|s| - 1].rank <= x.rank {
      OfRankAppend(s, [x], r);
    } else {
      var init := s[..|s| - 1];
      var last := s[|s| - 1];
      assert s == init + [last];
      OfRankInsert(x, init, r);
      OfRankAppend(Insert(x, init), [last], r);
      OfRankAppend(init, [last], r);
      // last and x differ in rank, so at most one of them is kept
      assert [x] == [] + [x];
      assert [last] == [] + [last];
    }
  }

  /** The sort is ordered by rank, keeps every element, and keeps the order of equal ranks. */
  lemma {:induction false} SortByRankFacts(s: seq<ScenAlt>)
    ensures SortedByRank(SortByRank(s))
    ensures multiset(SortByRank(s)) == multiset(s)
    ensures forall r :: OfRank(SortByRank(s), r) == OfRank(s, r)
    decreases |s|
  {
    if s != [] {
      var init := s[..|s| - 1];
      SortByRankFacts(init);
      InsertSorted(s[|s| - 1], SortByRank(init));
      InsertPerm(s[|s| - 1], SortByRank(init));
      assert s == init + [s[|s| - 1]];
      forall r
        ensures OfRank(SortByRank(s), r) == OfRank(s, r)
      {
        OfRankInsert(s[|s| - 1], SortByRank(init), r);
        OfRankAppend(init, [s[|s| - 1]], r);
      }
    }
  }

  /** The scenario alternatives of one scenario, in table order. */
  function OfScenario(alts: seq<ScenAlt>, scenario: int): (r: seq<ScenAlt>)
    ensures forall x :: x in r ==> x.scenario == scenario && x in alts
    ensures forall x :: x in alts && x.scenario == scenario ==> x in r
    ensures |r| <= |alts|
  {
    if alts == [] then []
    else (OfScenario(alts[..|alts| - 1], scenario)
          + if alts[|alts| - 1].scenario == scenario then [alts[|alts| - 1]] else [])
  }

  /**
   * ScenarioItem's alternative_id_list: the alternatives of the scenario's
   * (valid) scenario alternatives, sorted by rank.
   */
  function AlternativeIdList(alts: seq<ScenAlt>, scenario: int): (r: seq<int>)
  {
    var sorted := SortByRank(OfScenario(alts, scenario));
    seq(|sorted|, k requires 0 <= k < |sorted| => sorted[k].alternative)
  }

  /** The ranks of a scenario's own alternatives are 1..n, one each. */
  predicate RanksOneToN(own: seq<ScenAlt>)
  {
    (forall y :: y in own ==> 1 <= y.rank <= |own|)
    && forall i, j :: 0 <= i < j < |own| ==> own[i].rank != own[j].rank
  }

  lemma {:induction false} OfRankAtMostOne(s: seq<ScenAlt>, r: int)
    requires forall i, j :: 0 <= i < j < |s| ==> s[i].rank != s[j].rank
    ensures |OfRank(s, r)| <= 1
    ensures |OfRank(s, r)| == 1 ==> exists i :: 0 <= i < |s| && s[i].rank == r
    decreases |s|
  {
    if s != [] {
      var init := s[..|s| - 1];
      OfRankAtMostOne(init, r);
      if |OfRank(init, r)| == 1 {
        var i :| 0 <= i < |init| && init[i].rank == r;
        assert s[i].rank == r;
      }
    }
  }

  lemma {:induction false} OfRankAtLeastTwo(s: seq<ScenAlt>, i: int, j: int)
    requires 0 <= i < j < |s| && s[i].rank == s[j].rank
    ensures |OfRank(s, s[i].rank)| >= 2
    decreases |s|
  {
    var init := s[..|s| - 1];
    if j < |s| - 1 {
      OfRankAtLeastTwo(init, i, j);
    } else {
      OfRankAtLeastOne(init, i, s[i].rank);
    }
  }

  lemma {:induction false} OfRankAtLeastOne(s: seq<ScenAlt>, i: int, r: int)
    requires 0 <= i < |s| && s[i].rank == r
    ensures |OfRank(s, r)| >= 1
    decreases |s|
  {
    if i < |s| - 1 {
      OfRankAtLeastOne(s[..|s| - 1], i, r);
    }
  }

  /** Sorting by rank keeps the ranks pairwise different. */
  lemma SortedRanksDistinct(own: seq<ScenAlt>)
    requires forall i, j :: 0 <= i < j < |own| ==> own[i].rank != own[j].rank
    ensures forall i, j :: 0 <= i < j < |SortByRank(own)| ==> SortByRank(own)[i].rank != SortByRank(own)[j].rank
  {
    var sorted := SortByRank(own);
    SortByRankFacts(own);
    forall i, j | 0 <= i < j < |sorted|
      ensures sorted[i].rank != sorted[j].rank
    {
      if sorted[i].rank == sorted[j].rank {
        OfRankAtLeastTwo(sorted, i, j);
        OfRankAtMostOne(own, sorted[i].rank);
      }
    }
  }

  /**
   * With ranks 1..n in the scenario, position k of the alternative list is
   * the alternative of rank k + 1.
   */
  lemma AlternativeIdListAtRank(alts: seq<ScenAlt>, scenario: int, x: ScenAlt)
    requires x in alts && x.scenario == scenario
    requires RanksOneToN(OfScenario(alts, scenario))
    ensures |AlternativeIdList(alts, scenario)| == |OfScenario(alts, scenario)|
    ensures AlternativeIdList(alts, scenario)[x.rank - 1] == x.alternative
  {
    var own := OfScenario(alts, scenario);
    var sorted := SortByRank(own);
    SortedPositions(own);
    SortedHas(own, x);
    var p :| 0 <= p < |sorted| && sorted[p] == x;
  }

  lemma SortedHas(own: seq<ScenAlt>, x: ScenAlt)
    requires x in own
    ensures x in SortByRank(own)
  {
    SortByRankFacts(own);
    assert x in multiset(own);
  }

  /** Sorting a scenario's own alternatives with ranks 1..n puts rank k + 1 at position k. */
  lemma SortedPositions(own: seq<ScenAlt>)
    requires RanksOneToN(own)
    ensures |SortByRank(own)| == |own|
    ensures forall k :: 0 <= k < |own| ==> SortByRank(own)[k].rank == k + 1
  {
    var sorted := SortByRank(own);
    SortByRankFacts(own);
    SortedRanksDistinct(own);
    assert |sorted| == |own| by {
      assert |multiset(sorted)| == |multiset(own)|;
    }
    forall y | y in sorted
      ensures 1 <= y.rank <= |own|
    {
      assert y in multiset(own) by {
        assert y in multiset(sorted);
      }
    }
    StrictRanks(sorted, |own|);
  }

  lemma {:induction false} StrictRanks(s: seq<ScenAlt>, n: nat)
    requires |s| == n && SortedByRank(s)
    requires forall y :: y in s ==> 1 <= y.rank <= n
    requires forall i, j :: 0 <= i < j < n ==> s[i].rank != s[j].rank
    ensures forall k :: 0 <= k < n ==> s[k].rank == k + 1
  {
    // ranks strictly increase, so s[k].rank >= k + 1 from the left and <= k + 1 from the right
    forall k | 0 <= k < n
      ensures s[k].rank == k + 1
    {
      LowerRank(s, k);
      UpperRank(s, n, k);
    }
  }

  lemma {:induction false} LowerRank(s: seq<ScenAlt>, k: nat)
    requires k < |s| && SortedByRank(s)
    requires forall y :: y in s ==> 1 <= y.rank
    requires forall i, j :: 0 <= i < j < |s| ==> s[i].rank != s[j].rank
    ensures s[k].rank >= k + 1
    decreases k
  {
    if k > 0 {
      LowerRank(s, k - 1);
    } else {
      assert s[0] in s;
    }
  }

  lemma {:induction false} UpperRank(s: seq<ScenAlt>, n: nat, k: nat)
    requires |s| == n && k < n && SortedByRank(s)
    requires forall y :: y in s ==> y.rank <= n
    requires forall i, j :: 0 <= i < j < n ==> s[i].rank != s[j].rank
    ensures s[k].rank <= k + 1
    decreases n - k
  {
    if k < n - 1 {
      UpperRank(s, n, k + 1);
    } else {
      assert s[k] in s;
    }
  }

  /** Python's seq[i]: negative indices count from the end; out of range is None (the IndexError). */
  function PyIndex(l: seq<int>, i: int): (r: Option<int>)
    ensures r.Some? <==> -|l| <= i < |l|
    ensures 0 <= i < |l| ==> r == Some(l[i])
    ensures -|l| <= i < 0 ==> r == Some(l[|l| + i])
  {
    if 0 <= i < |l| then Some(l[i])
    else if -|l| <= i < 0 then Some(l[|l| + i])
    else None
  }

  /**
   * ScenarioAlternativeItem's before_alternative_id: the entry at index rank
   * of the scenario's alternative_id_list, None past the end; a scenario the
   * cache cannot find is the empty dict, whose lookup raises KeyError.
   */
  function BeforeAlternativeId(scenarioList: Option<seq<int>>, rank: int): (r: Result<Option<int>>)
    ensures scenarioList.None? ==> r == Err(KeyError("alternative_id_list"))
    ensures scenarioList.Some? ==> r == Ok(PyIndex(scenarioList.value, rank))
  {
    match scenarioList
    case None => Err(KeyError("alternative_id_list"))
    case Some(l) => Ok(PyIndex(l, rank))
  }

  /**
   * With ranks 1..n, the alternative a scenario alternative comes before is
   * the one ranked just after it, and none for the last one.
   */
  lemma BeforeIsNextRanked(alts: seq<ScenAlt>, scenario: int, x: ScenAlt, y: ScenAlt)
    requires x in alts && y in alts && x.scenario == scenario && y.scenario == scenario && y.rank == x.rank + 1
    requires RanksOneToN(OfScenario(alts, scenario))
    ensures BeforeAlternativeId(Some(AlternativeIdList(alts, scenario)), x.rank) == Ok(Some(y.alternative))
  {
    AlternativeIdListAtRank(alts, scenario, y);
  }

  lemma LastIsBeforeNothing(alts: seq<ScenAlt>, scenario: int, x: ScenAlt)
    requires x in alts && x.scenario == scenario && x.rank == |OfScenario(alts, scenario)|
    requires RanksOneToN(OfScenario(alts, scenario))
    ensures BeforeAlternativeId(Some(AlternativeIdList(alts, scenario)), x.rank) == Ok(None)
  {
    AlternativeIdListAtRank(alts, scenario, x);
  }
}
