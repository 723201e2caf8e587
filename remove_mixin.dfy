// Removal in cascade: the ids that must go together with the ones a caller
// asks to remove (DatabaseMappingRemoveMixin.cascading_ids and its
// per-table helpers), computed over a snapshot of the in-memory cache.

module RemoveMixin {
  import opened Errors
  import opened Text
  import opened MappingBase

  // ---------------------------------------------------------------------------
  // The cache snapshot

  /**
   * One cached row, as its attributes read: scalar references (class_id,
   * entity_id, group_id, metadata_id, ...), list references
   * (object_class_id_list, object_id_list), and whether the item is valid
   * (CacheItem.is_valid: not removed and not corrupted).
   */
  datatype Row = Row(refs: map<Field, int>, lists: map<Field, seq<int>>, valid: bool)

  /** The reference attributes the cascades read. */
  datatype Field =
    | AlternativeId | ScenarioId | ClassId | ObjectClassIdList | EntityClassId | ObjectIdList
    | EntityId | GroupId | MemberId | ParameterId | ParameterDefinitionId | ParameterValueId
    | ParameterValueListId | FeatureId | ToolId | ToolFeatureId | MetadataId
  {
    /** The attribute's name on the cache item. */
    function Name(): string
    {
      match this
      case AlternativeId => "alternative_id"
      case ScenarioId => "scenario_id"
      case ClassId => "class_id"
      case ObjectClassIdList => "object_class_id_list"
      case EntityClassId => "entity_class_id"
      case ObjectIdList => "object_id_list"
      case EntityId => "entity_id"
      case GroupId => "group_id"
      case MemberId => "member_id"
      case ParameterId => "parameter_id"
      case ParameterDefinitionId => "parameter_definition_id"
      case ParameterValueId => "parameter_value_id"
      case ParameterValueListId => "parameter_value_list_id"
      case FeatureId => "feature_id"
      case ToolId => "tool_id"
      case ToolFeatureId => "tool_feature_id"
      case MetadataId => "metadata_id"
    }
  }

  /** The cache: rows by id, per table. */
  type Cache = map<Table, map<int, Row>>

  /** dict.values(cache.get(t, {})): every row, valid or not. */
  function Rows(cache: Cache, t: Table): map<int, Row>
  {
    if t in cache then cache[t] else map[]
  }

  /** A reference from a field of the rows of one table to the ids of another. */
  datatype Edge = Edge(child: Table, field: Field, parent: Table, isList: bool)

  /**
   * `x.field in ids`, or `set(x.field).intersection(ids)` for a list field;
   * a missing attribute reads as None and matches nothing.
   */
  predicate RefersTo(row: Row, e: Edge, ids: set<int>)
  {
    if e.isList then e.field in row.lists && exists k :: k in row.lists[e.field] && k in ids
    else e.field in row.refs && row.refs[e.field] in ids
  }

  /** The ids of the rows of e.child that refer to one of ids through e. */
  function Referring(cache: Cache, e: Edge, ids: set<int>): (r: set<int>)
    ensures r <= Rows(cache, e.child).Keys
    ensures forall id :: id in r <==> id in Rows(cache, e.child) && RefersTo(Rows(cache, e.child)[id], e, ids)
  {
    set id | id in Rows(cache, e.child) && RefersTo(Rows(cache, e.child)[id], e, ids)
  }

  /** A scalar or list attribute through which rows refer to ids of another table. */
  datatype Ref = Ref(field: Field, isList: bool)

  /** The rows of `child` picked through any of the attributes `via` as referring to ids of `parent`. */
  function Selected(cache: Cache, child: Table, via: seq<Ref>, parent: Table, ids: set<int>): (r: set<int>)
    ensures r <= Rows(cache, child).Keys
    ensures forall f :: f in via ==> Referring(cache, Edge(child, f.field, parent, f.isList), ids) <= r
  {
    if via == [] then {}
    else Referring(cache, Edge(child, via[0].field, parent, via[0].isList), ids) + Selected(cache, child, via[1..], parent, ids)
  }

  // The attributes the cascade follows
  const ALTERNATIVE_ID := Ref(AlternativeId, false)
  const SCENARIO_ID := Ref(ScenarioId, false)
  const CLASS_ID := Ref(ClassId, false)
  const OBJECT_CLASS_ID_LIST := Ref(ObjectClassIdList, true)
  const ENTITY_CLASS_ID := Ref(EntityClassId, false)
  const OBJECT_ID_LIST := Ref(ObjectIdList, true)
  const ENTITY_ID := Ref(EntityId, false)
  const GROUP_ID := Ref(GroupId, false)
  const MEMBER_ID := Ref(MemberId, false)
  const PARAMETER_ID := Ref(ParameterId, false)
  const PARAMETER_DEFINITION_ID := Ref(ParameterDefinitionId, false)
  const PARAMETER_VALUE_ID := Ref(ParameterValueId, false)
  const PARAMETER_VALUE_LIST_ID := Ref(ParameterValueListId, false)
  const FEATURE_ID := Ref(FeatureId, false)
  const TOOL_ID := Ref(ToolId, false)
  const TOOL_FEATURE_ID := Ref(ToolFeatureId, false)
  const METADATA_ID := Ref(MetadataId, false)

  /**
   * One step of a per-table cascade: the rows of `target` picked through
   * the attributes `via` are either handed to target's own cascade, or (for
   * metadata) added as they are.
   */
  datatype Call = Cascaded(target: Table, via: seq<Ref>) | Plain(target: Table, via: seq<Ref>)

  /** The tables a cascade lists besides its own (entity, entity_class, ...) and metadata. */
  predicate Extra(t: Table)
  {
    t.EntityClass? || t.Entity? || t.RelationshipEntityClass? || t.RelationshipEntity? || t.Metadata?
  }

  /** The depth of each per-table cascade: a cascade only calls shallower ones. */
  function Level(t: Table): nat
  {
    match t
    case ObjectClass => 6
    case Object => 5
    case RelationshipClass => 5
    case Alternative => 4
    case Relationship => 4
    case ParameterDefinition => 4
    case ParameterValue => 3
    case ParameterValueList => 3
    case Metadata => 3
    case Feature => 2
    case Tool => 2
    case EntityMetadata => 2
    case ParameterValueMetadata => 2
    case ToolFeature => 1
    case Scenario => 1
    case _ => 0
  }

  /** The tables under which a cascade lists the requested ids themselves. */
  function Own(t: Table): (r: seq<Table>)
    ensures t in r && Distinct(r)
    ensures forall o :: o in r ==> o == t || (Extra(o) && !o.Metadata?)
  {
    match t
    case ObjectClass => [EntityClass, ObjectClass]
    case Object => [Entity, Object]
    case RelationshipClass => [RelationshipClass, RelationshipEntityClass, EntityClass]
    case Relationship => [Relationship, Entity, RelationshipEntity]
    case _ => [t]
  }

  /** The steps of each per-table cascade, in the order the source merges them. */
  function Calls(t: Table): (cs: seq<Call>)
  {
    match t
    case Alternative => [Cascaded(ParameterValue, [ALTERNATIVE_ID]), Cascaded(ScenarioAlternative, [ALTERNATIVE_ID])]
    case Scenario => [Cascaded(ScenarioAlternative, [SCENARIO_ID])]
    case ObjectClass =>
      [Cascaded(Object, [CLASS_ID]), Cascaded(RelationshipClass, [OBJECT_CLASS_ID_LIST]),
       Cascaded(ParameterDefinition, [ENTITY_CLASS_ID])]
    case Object =>
      [Cascaded(Relationship, [OBJECT_ID_LIST]), Cascaded(ParameterValue, [ENTITY_ID]),
       Cascaded(EntityGroup, [GROUP_ID, MEMBER_ID]), Cascaded(EntityMetadata, [ENTITY_ID])]
    case RelationshipClass => [Cascaded(Relationship, [CLASS_ID]), Cascaded(ParameterDefinition, [ENTITY_CLASS_ID])]
    case Relationship =>
      [Cascaded(ParameterValue, [ENTITY_ID]), Cascaded(EntityGroup, [GROUP_ID, MEMBER_ID]),
       Cascaded(EntityMetadata, [ENTITY_ID])]
    case ParameterDefinition => [Cascaded(ParameterValue, [PARAMETER_ID]), Cascaded(Feature, [PARAMETER_DEFINITION_ID])]
    case ParameterValue => [Cascaded(ParameterValueMetadata, [PARAMETER_VALUE_ID])]
    case ParameterValueList => [Cascaded(Feature, [PARAMETER_VALUE_LIST_ID])]
    case Feature => [Cascaded(ToolFeature, [FEATURE_ID])]
    case Tool => [Cascaded(ToolFeature, [TOOL_ID])]
    case ToolFeature => [Cascaded(ToolFeatureMethod, [TOOL_FEATURE_ID])]
    case Metadata => [Plain(EntityMetadata, [METADATA_ID]), Plain(ParameterValueMetadata, [METADATA_ID])]
    case _ => []
  }

  /** The metadata cascade only looks up the links to the metadata it removes. */
  lemma MetadataCalls()
    ensures Calls(Metadata) == [Plain(EntityMetadata, [METADATA_ID]), Plain(ParameterValueMetadata, [METADATA_ID])]
  {
  }

  /** Each step goes to a shallower cascade. */
  lemma CallsLevels(t: Table)
    ensures forall c :: c in Calls(t) ==> Level(c.target) < Level(t)
  {
    CallsIndexLevels(t);
    forall c | c in Calls(t)
      ensures Level(c.target) < Level(t)
    {
      var i :| 0 <= i < |Calls(t)| && Calls(t)[i] == c;
    }
  }

  lemma CallsIndexLevels(t: Table)
    ensures forall i :: 0 <= i < |Calls(t)| ==> Level(Calls(t)[i].target) < Level(t)
  {
    match t
    case Alternative =>
    case Scenario =>
    case ObjectClass =>
    case Object =>
    case RelationshipClass =>
    case Relationship =>
    case ParameterDefinition =>
    case ParameterValue =>
    case ParameterValueList =>
    case Feature =>
    case Tool =>
    case ToolFeature =>
    case Metadata =>
    case _ =>
  }

  /** Only the cascades of item types have steps, and only metadata's are plain. */
  lemma CallsKinds(t: Table)
    ensures Extra(t) && !t.Metadata? ==> Calls(t) == []
    ensures forall i :: 0 <= i < |Calls(t)| && Calls(t)[i].Cascaded? ==> !Extra(t)
    ensures forall i :: 0 <= i < |Calls(t)| && Calls(t)[i].Plain? ==>
      t.Metadata? && Calls(t)[i].target != t && Calls(Calls(t)[i].target) == []
  {
    match t
    case Alternative =>
    case Scenario =>
    case ObjectClass =>
    case Object =>
    case RelationshipClass =>
    case Relationship =>
    case ParameterDefinition =>
    case ParameterValue =>
    case ParameterValueList =>
    case Feature =>
    case Tool =>
    case ToolFeature =>
    case Metadata =>
    case _ =>
  }

  // ---------------------------------------------------------------------------
  // Ids keyed by table name, in insertion order (a Python dict of sets)

  datatype IdMap = IdMap(keys: seq<Table>, sets: map<Table, set<int>>)
  {
    /** ids.get(t, set()) */
    function Of(t: Table): set<int>
    {
      if t in sets then sets[t] else {}
    }

    /** The keys are listed once each, and they are the map's keys. */
    ghost predicate Wf()
    {
      Distinct(keys) && forall t :: t in sets <==> t in keys
    }
  }

  /** {t: set(ids)} */
  function Single(t: Table, ids: set<int>): IdMap
  {
    IdMap([t], map[t := ids])
  }

  /** The dict a per-table cascade starts from: the requested ids under each of Own(t). */
  function OwnMap(t: Table, ids: set<int>): IdMap
  {
    IdMap(Own(t), map o | o in Own(t) :: ids)
  }

  /** left.setdefault(t, set()).update(ids) */
  function Add(left: IdMap, t: Table, ids: set<int>): IdMap
  {
    if t in left.sets then IdMap(left.keys, left.sets[t := left.sets[t] + ids])
    else IdMap(left.keys + [t], left.sets[t := ids])
  }

  function MergeKeys(left: IdMap, ks: seq<Table>, right: IdMap): IdMap
    decreases |ks|
  {
    if ks == [] then left else MergeKeys(Add(left, ks[0], right.Of(ks[0])), ks[1..], right)
  }

  /** The dict _merge(left, right) leaves in left. */
  function Merged(left: IdMap, right: IdMap): IdMap
  {
    MergeKeys(left, right.keys, right)
  }

  lemma AddOf(left: IdMap, t: Table, ids: set<int>)
    requires left.Wf()
    ensures Add(left, t, ids).Wf()
    ensures forall x :: Add(left, t, ids).Of(x) == left.Of(x) + (if x == t then ids else {})
    ensures Add(left, t, ids).keys == left.keys + (if t in left.keys then [] else [t])
  {
  }

  lemma {:induction false} MergeKeysOf(left: IdMap, ks: seq<Table>, right: IdMap)
    requires left.Wf()
    ensures MergeKeys(left, ks, right).Wf()
    ensures forall x :: MergeKeys(left, ks, right).Of(x) == left.Of(x) + (if x in ks then right.Of(x) else {})
    ensures left.keys <= MergeKeys(left, ks, right).keys
    ensures forall x :: x in MergeKeys(left, ks, right).keys <==> x in left.keys || x in ks
    decreases |ks|
  {
    if ks != [] {
      AddOf(left, ks[0], right.Of(ks[0]));
      MergeKeysOf(Add(left, ks[0], right.Of(ks[0])), ks[1..], right);
      assert forall x :: x in ks <==> x == ks[0] || x in ks[1..];
    }
  }

  /**
   * _merge is a per-table union: every table of either side maps to the union
   * of both sides' ids, left's tables keep their order, and right's new
   * tables follow.
   */
  lemma MergedOf(left: IdMap, right: IdMap)
    requires left.Wf() && right.Wf()
    ensures Merged(left, right).Wf()
    ensures forall x :: Merged(left, right).Of(x) == left.Of(x) + right.Of(x)
    ensures left.keys <= Merged(left, right).keys
    ensures forall x :: x in Merged(left, right).keys <==> x in left.keys || x in right.keys
  {
    MergeKeysOf(left, right.keys, right);
  }

  /** _merge(left, right): updates left table by table. */
  method Merge(left: IdMap, right: IdMap) returns (r: IdMap)
    ensures r == Merged(left, right)
  {
    r := left;
    for i := 0 to |right.keys|
      invariant MergeKeys(r, right.keys[i..], right) == Merged(left, right)
    {
      var t := right.keys[i];
      ghost var before := r;
      if t !in r.sets {
        r := IdMap(r.keys + [t], r.sets[t := {}]);
        assert r.sets[t] + right.Of(t) == right.Of(t);
      }
      r := IdMap(r.keys, r.sets[t := r.sets[t] + right.Of(t)]);
      assert r == Add(before, t, right.Of(t));
      assert right.keys[i..][0] == t && right.keys[i..][1..] == right.keys[i + 1..];
    }
  }

  // ---------------------------------------------------------------------------
  // Metadata that a removal leaves without users

  /** entry.metadata_id */
  function Meta(row: Row): Option<int>
  {
    if MetadataId in row.refs then Some(row.refs[MetadataId]) else None
  }

  /** The valid links of table lt to metadata m (the entries _metadata_usage_counts counts). */
  function Users(cache: Cache, lt: Table, m: int): set<int>
  {
    set id | id in Rows(cache, lt) && Rows(cache, lt)[id].valid && Meta(Rows(cache, lt)[id]) == Some(m)
  }

  /**
   * The removed links whose count is taken off m. As written every removed
   * link is taken off; with `fix` only the valid ones, the ones that were
   * counted.
   */
  function Discounted(cache: Cache, lt: Table, ids: set<int>, m: int, fix: bool): set<int>
  {
    set id | id in ids && id in Rows(cache, lt) && (Rows(cache, lt)[id].valid || !fix)
                && Meta(Rows(cache, lt)[id]) == Some(m)
  }

  /** The keys of the usage counter after the decrements. */
  function Counted(cache: Cache, lt: Table, ids: set<int>, fix: bool): set<int>
  {
    (set t, id | t in {EntityMetadata, ParameterValueMetadata} && id in Rows(cache, t)
                 && Rows(cache, t)[id].valid && Meta(Rows(cache, t)[id]).Some? :: Meta(Rows(cache, t)[id]).value)
    + (set id | id in ids && id in Rows(cache, lt) && (Rows(cache, lt)[id].valid || !fix)
                && Meta(Rows(cache, lt)[id]).Some? :: Meta(Rows(cache, lt)[id]).value)
  }

  /** _non_referenced_metadata_ids: the metadata whose usage count drops to zero. */
  function Orphans(cache: Cache, lt: Table, ids: set<int>, fix: bool): set<int>
  {
    set m | m in Counted(cache, lt, ids, fix)
            && |Users(cache, EntityMetadata, m)| + |Users(cache, ParameterValueMetadata, m)|
               == |Discounted(cache, lt, ids, m, fix)|
  }

  /** The other link table. */
  function OtherLinks(lt: Table): Table
  {
    if lt.EntityMetadata? then ParameterValueMetadata else EntityMetadata
  }

  lemma CardSubset<T>(a: set<T>, b: set<T>)
    requires a <= b && |a| >= |b|
    ensures a == b
  {
    assert |b - a| == |b| - |a|;
  }

  /**
   * With the fix, a removal orphans exactly the metadata that has valid links,
   * all of them in the removed table and among the removed ids; metadata still
   * used elsewhere is kept.
   */
  lemma OrphansExact(cache: Cache, lt: Table, ids: set<int>, m: int)
    requires lt.EntityMetadata? || lt.ParameterValueMetadata?
    ensures m in Orphans(cache, lt, ids, true) <==>
      Users(cache, lt, m) != {} && Users(cache, lt, m) <= ids && Users(cache, OtherLinks(lt), m) == {}
  {
    var own, other := Users(cache, lt, m), Users(cache, OtherLinks(lt), m);
    var gone := Discounted(cache, lt, ids, m, true);
    assert gone == own * ids;
    assert |own * ids| <= |own| by { CardSubsetLe(own * ids, own); }
    if m in Orphans(cache, lt, ids, true) {
      assert |own| + |other| == |gone|;
      assert other == {} by { if other != {} { CardNonEmpty(other); } }
      CardSubset(own * ids, own);
      if own == {} {
        CountedUsed(cache, lt, ids, m);
      }
    }
    if own != {} && own <= ids && other == {} {
      var id := Pick(own);
      UsedCounted(cache, lt, ids, m, id);
      assert own * ids == own;
    }
  }

  /** With the fix, a counter key is the metadata of some valid link. */
  lemma CountedUsed(cache: Cache, lt: Table, ids: set<int>, m: int)
    requires lt.EntityMetadata? || lt.ParameterValueMetadata?
    requires m in Counted(cache, lt, ids, true)
    ensures Users(cache, EntityMetadata, m) != {} || Users(cache, ParameterValueMetadata, m) != {}
  {
    if m in (set id | id in ids && id in Rows(cache, lt) && Rows(cache, lt)[id].valid
                && Meta(Rows(cache, lt)[id]).Some? :: Meta(Rows(cache, lt)[id]).value) {
      var id :| id in ids && id in Rows(cache, lt) && Rows(cache, lt)[id].valid
        && Meta(Rows(cache, lt)[id]).Some? && Meta(Rows(cache, lt)[id]).value == m;
      assert id in Users(cache, lt, m);
    } else {
      var t, id :| t in {EntityMetadata, ParameterValueMetadata} && id in Rows(cache, t)
        && Rows(cache, t)[id].valid && Meta(Rows(cache, t)[id]).Some? && Meta(Rows(cache, t)[id]).value == m;
      assert id in Users(cache, t, m);
    }
  }

  lemma UsedCounted(cache: Cache, lt: Table, ids: set<int>, m: int, id: int)
    requires lt.EntityMetadata? || lt.ParameterValueMetadata?
    requires id in Users(cache, lt, m)
    ensures m in Counted(cache, lt, ids, true)
  {
    assert Meta(Rows(cache, lt)[id]).value == m;
  }

  lemma Pick<T>(s: set<T>) returns (x: T)
    requires s != {}
    ensures x in s
  {
    x :| x in s;
  }

  lemma CardSubsetLe<T>(a: set<T>, b: set<T>)
    requires a <= b
    ensures |a| <= |b|
  {
    assert |b - a| == |b| - |a|;
  }

  lemma CardNonEmpty<T>(a: set<T>)
    requires a != {}
    ensures |a| > 0
  {
  }

  // ---------------------------------------------------------------------------
  // The per-table cascades

  /** The requested ids of a link table must be in its cache (metadata[id_] raises KeyError otherwise). */
  predicate LinksKnown(t: Table, ids: set<int>, cache: Cache)
  {
    (t.EntityMetadata? || t.ParameterValueMetadata?) ==> ids <= Rows(cache, t).Keys
  }

  /**
   * _<t>_cascading_ids(ids, cache): the requested ids under Own(t), then what
   * each step of Calls(t) contributes, merged in order; the metadata link
   * cascades add the metadata they orphan (`cascading_ids |= ...`).
   */
  function Cascade(t: Table, ids: set<int>, cache: Cache, fix: bool): IdMap
    requires LinksKnown(t, ids, cache)
    decreases Level(t), 2
  {
    var r := MergeAll(OwnMap(t, ids), Steps(t, ids, cache, fix));
    if t.EntityMetadata? || t.ParameterValueMetadata? then Merged(r, Single(Metadata, Orphans(cache, t, ids, fix)))
    else r
  }

  /** What each step of t's cascade contributes, in order. */
  function Steps(t: Table, ids: set<int>, cache: Cache, fix: bool): (ss: seq<IdMap>)
    ensures |ss| == |Calls(t)|
    decreases Level(t), 1
  {
    CallsLevels(t);
    seq(|Calls(t)|, i requires 0 <= i < |Calls(t)| => Step(t, Calls(t)[i], ids, cache, fix))
  }

  /** The ids one step of t's cascade contributes. */
  function Step(t: Table, c: Call, ids: set<int>, cache: Cache, fix: bool): IdMap
    requires Level(c.target) < Level(t)
    decreases Level(t), 0
  {
    var picked := Selected(cache, c.target, c.via, t, ids);
    if c.Cascaded? then Cascade(c.target, picked, cache, fix) else Single(c.target, picked)
  }

  /** The dicts ms merged, in order, into acc. */
  function MergeAll(acc: IdMap, ms: seq<IdMap>): IdMap
    decreases |ms|
  {
    if ms == [] then acc else MergeAll(Merged(acc, ms[0]), ms[1..])
  }

  /** The ids the dicts ms list under p. */
  function Union(ms: seq<IdMap>, p: Table): set<int>
    decreases |ms|
  {
    if ms == [] then {} else ms[0].Of(p) + Union(ms[1..], p)
  }

  ghost predicate AllWf(ms: seq<IdMap>)
  {
    forall i :: 0 <= i < |ms| ==> ms[i].Wf()
  }

  lemma {:induction false} MergeAllOf(acc: IdMap, ms: seq<IdMap>)
    requires acc.Wf() && AllWf(ms)
    ensures MergeAll(acc, ms).Wf()
    ensures forall p :: MergeAll(acc, ms).Of(p) == acc.Of(p) + Union(ms, p)
    ensures forall x :: x in acc.keys ==> x in MergeAll(acc, ms).keys
    decreases |ms|
  {
    if ms != [] {
      MergedOf(acc, ms[0]);
      assert AllWf(ms[1..]) by {
        forall i | 0 <= i < |ms[1..]| ensures ms[1..][i].Wf() { assert ms[1..][i] == ms[i + 1]; }
      }
      MergeAllOf(Merged(acc, ms[0]), ms[1..]);
    }
  }

  lemma {:induction false} UnionCovers(ms: seq<IdMap>, i: nat, p: Table)
    requires i < |ms|
    ensures ms[i].Of(p) <= Union(ms, p)
    decreases |ms|
  {
    if i > 0 {
      assert ms[1..][i - 1] == ms[i];
      UnionCovers(ms[1..], i - 1, p);
    }
  }

  lemma {:induction false} UnionNone(ms: seq<IdMap>, p: Table)
    requires forall i :: 0 <= i < |ms| ==> ms[i].Of(p) == {}
    ensures Union(ms, p) == {}
    decreases |ms|
  {
    if ms != [] {
      assert forall i :: 0 <= i < |ms[1..]| ==> ms[1..][i].Of(p) == {} by {
        forall i | 0 <= i < |ms[1..]| ensures ms[1..][i].Of(p) == {} { assert ms[1..][i] == ms[i + 1]; }
      }
      UnionNone(ms[1..], p);
    }
  }

  // ---------------------------------------------------------------------------
  // What a cascade lists

  /** The tables a cascade of s can list ids under: s itself, shallower tables, and the extra tables. */
  predicate Below(p: Table, s: Table)
  {
    p == s || Level(p) < Level(s) || Extra(p)
  }

  /** The tables one step can list ids under. */
  predicate Reaches(c: Call, p: Table)
  {
    if c.Plain? then p == c.target else Below(p, c.target)
  }

  /** A per-table cascade is a well-formed dict that lists the requested ids under each of Own(t). */
  lemma {:induction false} CascadeWf(t: Table, ids: set<int>, cache: Cache, fix: bool)
    requires LinksKnown(t, ids, cache)
    ensures Cascade(t, ids, cache, fix).Wf()
    ensures forall o :: o in Own(t) ==> ids <= Cascade(t, ids, cache, fix).Of(o)
    ensures forall o :: o in Own(t) ==> o in Cascade(t, ids, cache, fix).keys
    decreases Level(t), 2
  {
    var r := MergeAll(OwnMap(t, ids), Steps(t, ids, cache, fix));
    StepsWf(t, ids, cache, fix);
    MergeAllOf(OwnMap(t, ids), Steps(t, ids, cache, fix));
    if t.EntityMetadata? || t.ParameterValueMetadata? {
      MergedOf(r, Single(Metadata, Orphans(cache, t, ids, fix)));
    }
  }

  /** Every step of t's cascade is a well-formed dict. */
  lemma {:induction false} StepsWf(t: Table, ids: set<int>, cache: Cache, fix: bool)
    ensures AllWf(Steps(t, ids, cache, fix))
    decreases Level(t), 1
  {
    CallsLevels(t);
    CallsIndexLevels(t);
    var ss := Steps(t, ids, cache, fix);
    forall i | 0 <= i < |ss|
      ensures ss[i].Wf()
    {
      StepWf(t, Calls(t)[i], ids, cache, fix);
    }
  }

  /** One step is a well-formed dict listing the rows it picks under its target table. */
  lemma {:induction false} StepWf(t: Table, c: Call, ids: set<int>, cache: Cache, fix: bool)
    requires Level(c.target) < Level(t)
    ensures Step(t, c, ids, cache, fix).Wf()
    ensures Selected(cache, c.target, c.via, t, ids) <= Step(t, c, ids, cache, fix).Of(c.target)
    decreases Level(t), 0
  {
    var picked := Selected(cache, c.target, c.via, t, ids);
    if c.Cascaded? {
      OwnHas(c.target);
      CascadeWf(c.target, picked, cache, fix);
    }
  }

  lemma OwnHas(t: Table)
    ensures t in Own(t)
  {
  }

  /** The ids the cascade's steps list under the tables they pick from. */
  lemma MergedStepsCover(t: Table, ids: set<int>, cache: Cache, fix: bool)
    ensures forall i :: 0 <= i < |Calls(t)| ==>
      Selected(cache, Calls(t)[i].target, Calls(t)[i].via, t, ids)
      <= MergeAll(OwnMap(t, ids), Steps(t, ids, cache, fix)).Of(Calls(t)[i].target)
  {
    var ss := Steps(t, ids, cache, fix);
    StepsWf(t, ids, cache, fix);
    MergeAllOf(OwnMap(t, ids), ss);
    CallsIndexLevels(t);
    forall i | 0 <= i < |Calls(t)|
      ensures Selected(cache, Calls(t)[i].target, Calls(t)[i].via, t, ids) <= Union(ss, Calls(t)[i].target)
    {
      StepWf(t, Calls(t)[i], ids, cache, fix);
      UnionCovers(ss, i, Calls(t)[i].target);
    }
  }

  /** A per-table cascade lists the rows each of its steps picks under that step's table. */
  lemma CascadeCovers(t: Table, ids: set<int>, cache: Cache, fix: bool)
    requires LinksKnown(t, ids, cache)
    ensures forall i :: 0 <= i < |Calls(t)| ==>
      Selected(cache, Calls(t)[i].target, Calls(t)[i].via, t, ids) <= Cascade(t, ids, cache, fix).Of(Calls(t)[i].target)
  {
    MergedStepsCover(t, ids, cache, fix);
    if t.EntityMetadata? || t.ParameterValueMetadata? {
      var r := MergeAll(OwnMap(t, ids), Steps(t, ids, cache, fix));
      StepsWf(t, ids, cache, fix);
      MergeAllOf(OwnMap(t, ids), Steps(t, ids, cache, fix));
      MergedOf(r, Single(Metadata, Orphans(cache, t, ids, fix)));
    }
  }

  /** A per-table cascade lists nothing outside the tables below t. */
  lemma {:induction false} CascadeBelow(t: Table, ids: set<int>, cache: Cache, fix: bool)
    requires LinksKnown(t, ids, cache)
    ensures forall p :: !Below(p, t) ==> Cascade(t, ids, cache, fix).Of(p) == {}
    decreases Level(t), 1
  {
    var ss := Steps(t, ids, cache, fix);
    var r := MergeAll(OwnMap(t, ids), ss);
    StepsWf(t, ids, cache, fix);
    MergeAllOf(OwnMap(t, ids), ss);
    CallsIndexLevels(t);
    forall p | !Below(p, t)
      ensures r.Of(p) == {}
    {
      forall i | 0 <= i < |ss|
        ensures ss[i].Of(p) == {}
      {
        StepBelow(t, Calls(t)[i], ids, cache, fix);
      }
      UnionNone(ss, p);
    }
    if t.EntityMetadata? || t.ParameterValueMetadata? {
      MergedOf(r, Single(Metadata, Orphans(cache, t, ids, fix)));
    }
  }

  /** One step lists nothing outside the tables it reaches. */
  lemma {:induction false} StepBelow(t: Table, c: Call, ids: set<int>, cache: Cache, fix: bool)
    requires Level(c.target) < Level(t)
    ensures forall p :: !Below(p, t) ==> Step(t, c, ids, cache, fix).Of(p) == {}
    ensures forall p :: !Reaches(c, p) ==> Step(t, c, ids, cache, fix).Of(p) == {}
    decreases Level(t), 0
  {
    if c.Cascaded? {
      CascadeBelow(c.target, Selected(cache, c.target, c.via, t, ids), cache, fix);
    }
  }

  // ---------------------------------------------------------------------------
  // Closure: a removal leaves no valid row referring to a removed one

  /**
   * Every valid row that some step of p's cascade would pick because of an
   * id R lists under p is itself listed in R.
   */
  ghost predicate NoDanglingAt(cache: Cache, r: IdMap, p: Table)
  {
    forall c, id ::
      (c in Calls(p) && id in Selected(cache, c.target, c.via, p, r.Of(p)) && Rows(cache, c.target)[id].valid)
      ==> id in r.Of(c.target)
  }

  ghost predicate NoDangling(cache: Cache, r: IdMap)
  {
    forall p :: NoDanglingAt(cache, r, p)
  }

  lemma ReferringSplit(cache: Cache, e: Edge, a: set<int>, b: set<int>)
    ensures Referring(cache, e, a + b) == Referring(cache, e, a) + Referring(cache, e, b)
  {
    forall id | id in Referring(cache, e, a + b)
      ensures id in Referring(cache, e, a) + Referring(cache, e, b)
    {
      var row := Rows(cache, e.child)[id];
      if e.isList {
        var k :| k in row.lists[e.field] && k in a + b;
      }
    }
  }

  lemma {:induction false} SelectedSplit(cache: Cache, child: Table, via: seq<Ref>, parent: Table, a: set<int>, b: set<int>)
    ensures Selected(cache, child, via, parent, a + b)
            == Selected(cache, child, via, parent, a) + Selected(cache, child, via, parent, b)
    decreases |via|
  {
    if via != [] {
      ReferringSplit(cache, Edge(child, via[0].field, parent, via[0].isList), a, b);
      SelectedSplit(cache, child, via[1..], parent, a, b);
    }
  }

  lemma SelectedOne(cache: Cache, child: Table, f: Ref, parent: Table, ids: set<int>)
    ensures Selected(cache, child, [f], parent, ids) == Referring(cache, Edge(child, f.field, parent, f.isList), ids)
  {
    assert [f][1..] == [];
  }

  lemma {:induction false} SelectedNone(cache: Cache, child: Table, via: seq<Ref>, parent: Table)
    ensures Selected(cache, child, via, parent, {}) == {}
    decreases |via|
  {
    if via != [] {
      SelectedNone(cache, child, via[1..], parent);
    }
  }

  /** A table with nothing listed under it, or whose cascade has no steps, is closed. */
  lemma NoDanglingTrivial(cache: Cache, r: IdMap, p: Table)
    requires r.Of(p) == {} || Calls(p) == []
    ensures NoDanglingAt(cache, r, p)
  {
    forall c | c in Calls(p)
      ensures Selected(cache, c.target, c.via, p, r.Of(p)) == {}
    {
      SelectedNone(cache, c.target, c.via, p);
    }
  }

  lemma MergedClosed(cache: Cache, a: IdMap, b: IdMap, p: Table)
    requires a.Wf() && b.Wf() && NoDanglingAt(cache, a, p) && NoDanglingAt(cache, b, p)
    ensures NoDanglingAt(cache, Merged(a, b), p)
  {
    MergedOf(a, b);
    forall c | c in Calls(p)
      ensures Selected(cache, c.target, c.via, p, Merged(a, b).Of(p))
              == Selected(cache, c.target, c.via, p, a.Of(p)) + Selected(cache, c.target, c.via, p, b.Of(p))
    {
      SelectedSplit(cache, c.target, c.via, p, a.Of(p), b.Of(p));
    }
  }

  lemma {:induction false} MergeAllClosed(cache: Cache, acc: IdMap, ms: seq<IdMap>, p: Table)
    requires acc.Wf() && AllWf(ms) && NoDanglingAt(cache, acc, p)
    requires forall i :: 0 <= i < |ms| ==> NoDanglingAt(cache, ms[i], p)
    ensures NoDanglingAt(cache, MergeAll(acc, ms), p)
    decreases |ms|
  {
    if ms != [] {
      MergedClosed(cache, acc, ms[0], p);
      MergedOf(acc, ms[0]);
      assert AllWf(ms[1..]) && forall i :: 0 <= i < |ms[1..]| ==> NoDanglingAt(cache, ms[1..][i], p) by {
        forall i | 0 <= i < |ms[1..]|
          ensures ms[1..][i].Wf() && NoDanglingAt(cache, ms[1..][i], p)
        {
          assert ms[1..][i] == ms[i + 1];
        }
      }
      MergeAllClosed(cache, Merged(acc, ms[0]), ms[1..], p);
    }
  }

  /**
   * With the fix, a per-table cascade is closed: every valid row that refers,
   * through a reference the cascades follow, to an id the result lists is
   * listed too.
   */
  lemma {:induction false} CascadeClosed(t: Table, ids: set<int>, cache: Cache)
    requires LinksKnown(t, ids, cache)
    ensures NoDangling(cache, Cascade(t, ids, cache, true))
    decreases Level(t), 3
  {
    var r := MergeAll(OwnMap(t, ids), Steps(t, ids, cache, true));
    StepsClosedElsewhere(t, ids, cache);
    StepsClosedAtParent(t, ids, cache);
    if t.EntityMetadata? || t.ParameterValueMetadata? {
      var orphans := Single(Metadata, Orphans(cache, t, ids, true));
      CascadeWf(t, ids, cache, true);
      MergeAllOf(OwnMap(t, ids), Steps(t, ids, cache, true));
      forall p | p != Metadata
        ensures NoDanglingAt(cache, Cascade(t, ids, cache, true), p)
      {
        NoDanglingTrivial(cache, orphans, p);
        MergedClosed(cache, r, orphans, p);
      }
      OrphansClosed(t, ids, cache);
    }
  }

  /** The merged steps are closed under every table but t. */
  lemma {:induction false} StepsClosedElsewhere(t: Table, ids: set<int>, cache: Cache)
    ensures forall p :: p != t ==> NoDanglingAt(cache, MergeAll(OwnMap(t, ids), Steps(t, ids, cache, true)), p)
    decreases Level(t), 2
  {
    var ss := Steps(t, ids, cache, true);
    var own := OwnMap(t, ids);
    StepsWf(t, ids, cache, true);
    StepsClosed(t, ids, cache);
    CallsKinds(t);
    forall p | p != t
      ensures NoDanglingAt(cache, MergeAll(own, ss), p)
    {
      assert own.Of(p) == {} || Calls(p) == [] by {
        if p in Own(t) {
          CallsKinds(p);
        }
      }
      NoDanglingTrivial(cache, own, p);
      MergeAllClosed(cache, own, ss, p);
    }
  }

  /** Under t the merged steps list exactly the requested ids, and every row they pick is listed. */
  lemma StepsClosedAtParent(t: Table, ids: set<int>, cache: Cache)
    ensures NoDanglingAt(cache, MergeAll(OwnMap(t, ids), Steps(t, ids, cache, true)), t)
  {
    var r := MergeAll(OwnMap(t, ids), Steps(t, ids, cache, true));
    MergedStepsAtParent(t, ids, cache);
    forall c, id | c in Calls(t) && id in Selected(cache, c.target, c.via, t, r.Of(t)) && Rows(cache, c.target)[id].valid
      ensures id in r.Of(c.target)
    {
      var i :| 0 <= i < |Calls(t)| && Calls(t)[i] == c;
    }
  }

  lemma MergedStepsAtParent(t: Table, ids: set<int>, cache: Cache)
    ensures MergeAll(OwnMap(t, ids), Steps(t, ids, cache, true)).Of(t) == ids
    ensures forall i :: 0 <= i < |Calls(t)| ==>
      Selected(cache, Calls(t)[i].target, Calls(t)[i].via, t, ids)
      <= MergeAll(OwnMap(t, ids), Steps(t, ids, cache, true)).Of(Calls(t)[i].target)
  {
    var ss := Steps(t, ids, cache, true);
    StepsWf(t, ids, cache, true);
    MergeAllOf(OwnMap(t, ids), ss);
    forall i | 0 <= i < |ss|
      ensures ss[i].Of(t) == {}
    {
      StepReachesNotParent(t, i, ids, cache);
    }
    UnionNone(ss, t);
    MergedStepsCover(t, ids, cache, true);
  }

  /** A step of t's cascade lists nothing under t. */
  lemma StepReachesNotParent(t: Table, i: nat, ids: set<int>, cache: Cache)
    requires i < |Calls(t)|
    ensures Steps(t, ids, cache, true)[i].Of(t) == {}
  {
    var c := Calls(t)[i];
    CallsIndexLevels(t);
    CallsKinds(t);
    assert !Reaches(c, t);
    StepAt(t, i, ids, cache, true);
    StepBelow(t, c, ids, cache, true);
  }

  lemma StepAt(t: Table, i: nat, ids: set<int>, cache: Cache, fix: bool)
    requires i < |Calls(t)|
    ensures Level(Calls(t)[i].target) < Level(t)
    ensures Steps(t, ids, cache, fix)[i] == Step(t, Calls(t)[i], ids, cache, fix)
  {
    CallsIndexLevels(t);
  }

  /** Every step of t's cascade is closed. */
  lemma {:induction false} StepsClosed(t: Table, ids: set<int>, cache: Cache)
    ensures forall i, p :: 0 <= i < |Calls(t)| ==> NoDanglingAt(cache, Steps(t, ids, cache, true)[i], p)
    decreases Level(t), 1, 0
  {
    CallsLevels(t);
    CallsKinds(t);
    forall i | 0 <= i < |Calls(t)|
      ensures NoDangling(cache, Steps(t, ids, cache, true)[i])
    {
      var c := Calls(t)[i];
      assert c in Calls(t);
      var picked := Selected(cache, c.target, c.via, t, ids);
      if c.Cascaded? {
        CascadeClosed(c.target, picked, cache);
      } else {
        forall p
          ensures NoDanglingAt(cache, Single(c.target, picked), p)
        {
          NoDanglingTrivial(cache, Single(c.target, picked), p);
        }
      }
    }
  }

  /**
   * With the fix, the metadata a link cascade orphans has no valid link left
   * outside the removed ones.
   */
  lemma OrphansClosed(t: Table, ids: set<int>, cache: Cache)
    requires t.EntityMetadata? || t.ParameterValueMetadata?
    requires ids <= Rows(cache, t).Keys
    ensures NoDanglingAt(cache, Cascade(t, ids, cache, true), Metadata)
  {
    var result := Cascade(t, ids, cache, true);
    var orphans := Orphans(cache, t, ids, true);
    LinkCascadeOf(t, ids, cache, true);
    MetadataCalls();
    forall c, id | c in Calls(Metadata) && id in Selected(cache, c.target, c.via, Metadata, orphans)
      && Rows(cache, c.target)[id].valid
      ensures id in result.Of(c.target)
    {
      assert c.via == [METADATA_ID];
      SelectedOne(cache, c.target, METADATA_ID, Metadata, orphans);
      OrphanUser(t, ids, cache, c.target, id);
    }
  }

  /** A link cascade lists the requested links, and the orphaned metadata under metadata. */
  lemma LinkCascadeOf(t: Table, ids: set<int>, cache: Cache, fix: bool)
    requires t.EntityMetadata? || t.ParameterValueMetadata?
    requires ids <= Rows(cache, t).Keys
    ensures Cascade(t, ids, cache, fix).Of(Metadata) == Orphans(cache, t, ids, fix)
    ensures Cascade(t, ids, cache, fix).Of(t) == ids
  {
    var ss := Steps(t, ids, cache, fix);
    var r := MergeAll(OwnMap(t, ids), ss);
    assert ss == [];
    assert r == OwnMap(t, ids);
    MergedOf(r, Single(Metadata, Orphans(cache, t, ids, fix)));
  }

  /** A valid link to an orphaned metadata is one of the removed links. */
  lemma OrphanUser(t: Table, ids: set<int>, cache: Cache, lt: Table, id: int)
    requires t.EntityMetadata? || t.ParameterValueMetadata?
    requires lt.EntityMetadata? || lt.ParameterValueMetadata?
    requires id in Referring(cache, Edge(lt, MetadataId, Metadata, false), Orphans(cache, t, ids, true))
    requires Rows(cache, lt)[id].valid
    ensures lt == t && id in ids
  {
    var m := Rows(cache, lt)[id].refs[MetadataId];
    assert id in Users(cache, lt, m);
    OrphansExact(cache, t, ids, m);
  }


  // ---------------------------------------------------------------------------
  // A link removed earlier and still in the cache

  /**
   * As written, a link that was already removed (still in the cache, no
   * longer valid, so not counted) is still taken off its metadata's count:
   * removing entity_metadata 1 again orphans metadata 7 although the valid
   * link 2 still uses it, and the result leaves link 2 dangling.
   */
  lemma StaleLinkOrphansUsedMetadata()
    ensures var cache := StaleLinkCache();
      7 in Cascade(EntityMetadata, {1}, cache, false).Of(Metadata)
      && !NoDanglingAt(cache, Cascade(EntityMetadata, {1}, cache, false), Metadata)
  {
    var cache := StaleLinkCache();
    var em := Rows(cache, EntityMetadata);
    assert Users(cache, EntityMetadata, 7) == {2} by {
      assert forall id :: id in Users(cache, EntityMetadata, 7) ==> id in em;
    }
    assert Rows(cache, ParameterValueMetadata) == map[];
    assert Users(cache, ParameterValueMetadata, 7) == {};
    assert Discounted(cache, EntityMetadata, {1}, 7, false) == {1};
    assert 7 == Meta(em[2]).value;
    assert 7 in Counted(cache, EntityMetadata, {1}, false);
    assert 7 in Orphans(cache, EntityMetadata, {1}, false);
    var result := Cascade(EntityMetadata, {1}, cache, false);
    LinkCascadeOf(EntityMetadata, {1}, cache, false);
    var c := Plain(EntityMetadata, [METADATA_ID]);
    MetadataCalls();
    assert c == Calls(Metadata)[0];
    SelectedOne(cache, EntityMetadata, METADATA_ID, Metadata, result.Of(Metadata));
    assert 2 in Selected(cache, c.target, c.via, Metadata, result.Of(Metadata));
    assert 2 !in result.Of(EntityMetadata);
  }

  /** With the fix, the same removal keeps metadata 7, which link 2 still uses. */
  lemma StaleLinkKeepsUsedMetadata()
    ensures 7 !in Cascade(EntityMetadata, {1}, StaleLinkCache(), true).Of(Metadata)
  {
    var cache := StaleLinkCache();
    LinkCascadeOf(EntityMetadata, {1}, cache, true);
    assert 2 in Users(cache, EntityMetadata, 7);
    OrphansExact(cache, EntityMetadata, {1}, 7);
  }

  /** Two entity_metadata links to metadata 7: link 1, removed earlier, and the valid link 2. */
  function StaleLinkCache(): Cache
  {
    map[EntityMetadata := map[
      1 := Row(map[EntityId := 10, MetadataId := 7], map[], false),
      2 := Row(map[EntityId := 11, MetadataId := 7], map[], true)]]
  }

  // ---------------------------------------------------------------------------
  // cascading_ids

  /** The per-table cascades, in the order cascading_ids merges them. */
  const CASCADE_ORDER: seq<Table> := [
    ObjectClass, Object, RelationshipClass, Relationship, EntityGroup, ParameterDefinition, ParameterValue,
    ParameterValueList, ListValue, Alternative, Scenario, ScenarioAlternative, Feature, Tool, ToolFeature,
    ToolFeatureMethod, Metadata, EntityMetadata, ParameterValueMetadata]

  /** kwargs.get(t, set()) */
  function Requested(kwargs: map<Table, set<int>>, t: Table): set<int>
  {
    if t in kwargs then kwargs[t] else {}
  }

  /** The requested links are all in the cache. */
  predicate RequestsKnown(kwargs: map<Table, set<int>>, cache: Cache)
  {
    LinksKnown(EntityMetadata, Requested(kwargs, EntityMetadata), cache)
    && LinksKnown(ParameterValueMetadata, Requested(kwargs, ParameterValueMetadata), cache)
  }

  /** The dict cascading_ids has built after merging the cascades of the tables in order. */
  function Gathered(kwargs: map<Table, set<int>>, cache: Cache, order: seq<Table>): IdMap
    requires RequestsKnown(kwargs, cache)
    decreases |order|
  {
    if order == [] then IdMap([], map[])
    else
      var t := order[|order| - 1];
      Merged(Gathered(kwargs, cache, order[..|order| - 1]), Cascade(t, Requested(kwargs, t), cache, true))
  }

  lemma LastSplit<T>(s: seq<T>)
    requires s != []
    ensures forall x :: x in s ==> x in s[..|s| - 1] || x == s[|s| - 1]
  {
    assert s == s[..|s| - 1] + [s[|s| - 1]];
  }

  lemma RequestedKnown(kwargs: map<Table, set<int>>, cache: Cache, t: Table)
    requires RequestsKnown(kwargs, cache)
    ensures LinksKnown(t, Requested(kwargs, t), cache)
  {
  }

  /**
   * The gathered ids form a well-formed dict that has every table of the
   * order as a key and lists every requested id under its table (and the
   * tables it stands for).
   */
  lemma {:induction false} GatheredWf(kwargs: map<Table, set<int>>, cache: Cache, order: seq<Table>)
    requires RequestsKnown(kwargs, cache)
    ensures Gathered(kwargs, cache, order).Wf()
    ensures forall t :: t in order ==> t in Gathered(kwargs, cache, order).keys
    ensures forall t, o :: t in order && o in Own(t) ==>
      Requested(kwargs, t) <= Gathered(kwargs, cache, order).Of(o)
    decreases |order|
  {
    if order != [] {
      var init := order[..|order| - 1];
      var t := order[|order| - 1];
      var prev := Gathered(kwargs, cache, init);
      var next := Cascade(t, Requested(kwargs, t), cache, true);
      GatheredWf(kwargs, cache, init);
      RequestedKnown(kwargs, cache, t);
      CascadeWf(t, Requested(kwargs, t), cache, true);
      MergedOf(prev, next);
      assert t in Own(t);
      LastSplit(order);
    }
  }

  /** The gathered ids leave no valid row referring to a listed id unlisted. */
  lemma {:induction false} GatheredClosed(kwargs: map<Table, set<int>>, cache: Cache, order: seq<Table>)
    requires RequestsKnown(kwargs, cache)
    ensures NoDangling(cache, Gathered(kwargs, cache, order))
    decreases |order|
  {
    if order == [] {
      forall p ensures NoDanglingAt(cache, IdMap([], map[]), p) {
        NoDanglingTrivial(cache, IdMap([], map[]), p);
      }
    } else {
      var init := order[..|order| - 1];
      var t := order[|order| - 1];
      var prev := Gathered(kwargs, cache, init);
      var next := Cascade(t, Requested(kwargs, t), cache, true);
      GatheredWf(kwargs, cache, init);
      GatheredClosed(kwargs, cache, init);
      RequestedKnown(kwargs, cache, t);
      CascadeWf(t, Requested(kwargs, t), cache, true);
      CascadeClosed(t, Requested(kwargs, t), cache);
      forall p ensures NoDanglingAt(cache, Merged(prev, next), p) {
        MergedClosed(cache, prev, next, p);
      }
    }
  }

  /** Every item type is one of the per-table cascades. */
  lemma CascadeOrderCoversItemTypes()
    ensures forall t: Table :: t.IsItemType() ==> t in CASCADE_ORDER
  {
  }

  /** Gathering over an order that holds every item type gives a table list closed under ancestors. */
  lemma GatheredKeysClosed(kwargs: map<Table, set<int>>, cache: Cache, order: seq<Table>)
    requires RequestsKnown(kwargs, cache)
    requires forall t: Table :: t.IsItemType() ==> t in order
    ensures Closed(Gathered(kwargs, cache, order).keys)
  {
    var keys := Gathered(kwargs, cache, order).keys;
    GatheredWf(kwargs, cache, order);
    forall t, a | t in keys && a in Ancestors(t)
      ensures a in keys
    {
      assert a.IsItemType();
    }
  }

  lemma Uncovered(a: set<int>, b: set<int>)
    requires !(a <= b)
    ensures exists x :: x in a && x !in b
  {
    var d := a - b;
    if d == {} {
      forall x | x in a ensures x in b {
        assert x !in d;
      }
      assert false;
    }
    var x := Pick(d);
    assert x in a && x !in b;
  }

  /** Looking up each requested link in its table: the first id missing from it, if any (KeyError). */
  method MissingLink(ids: set<int>, rows: map<int, Row>) returns (missing: Option<int>)
    ensures missing.None? <==> ids <= rows.Keys
    ensures missing.Some? ==> missing.value in ids && missing.value !in rows
  {
    if ids <= rows.Keys {
      return None;
    }
    Uncovered(ids, rows.Keys);
    var id :| id in ids && id !in rows.Keys;
    return Some(id);
  }

  lemma CascadeOrderKeysClosed(kwargs: map<Table, set<int>>, cache: Cache)
    requires RequestsKnown(kwargs, cache)
    ensures Closed(Gathered(kwargs, cache, CASCADE_ORDER).keys)
  {
    CascadeOrderCoversItemTypes();
    GatheredKeysClosed(kwargs, cache, CASCADE_ORDER);
  }

  /** The loop of cascading_ids that merges the per-table cascades one after the other. */
  method GatherIds(kwargs: map<Table, set<int>>, cache: Cache) returns (ids: IdMap)
    requires RequestsKnown(kwargs, cache)
    ensures ids == Gathered(kwargs, cache, CASCADE_ORDER)
  {
    ids := IdMap([], map[]);
    for i := 0 to |CASCADE_ORDER|
      invariant ids == Gathered(kwargs, cache, CASCADE_ORDER[..i])
    {
      var t := CASCADE_ORDER[i];
      assert CASCADE_ORDER[..i + 1][..i] == CASCADE_ORDER[..i];
      ids := Merge(ids, Cascade(t, Requested(kwargs, t), cache, true));
    }
    assert CASCADE_ORDER[..|CASCADE_ORDER|] == CASCADE_ORDER;
  }

  /**
   * cascading_ids(cache, **kwargs): every per-table cascade merged in order,
   * then the tables reordered so that each comes after its ancestors. A
   * requested link that is not in the cache raises KeyError.
   */
  method CascadingIds(kwargs: map<Table, set<int>>, cache: Cache) returns (r: Result<IdMap>)
    ensures r.Err? <==> !RequestsKnown(kwargs, cache)
    ensures r.Err? ==> r.error.KeyError?
    ensures r.Ok? ==> multiset(r.value.keys) == multiset(Gathered(kwargs, cache, CASCADE_ORDER).keys)
    ensures r.Ok? ==> r.value.sets == Gathered(kwargs, cache, CASCADE_ORDER).sets
    ensures r.Ok? ==> AncestorsFirst(r.value.keys)
  {
    var missing := MissingLink(Requested(kwargs, EntityMetadata), Rows(cache, EntityMetadata));
    if missing.Some? {
      return Err(KeyError(IntToString(missing.value)));
    }
    missing := MissingLink(Requested(kwargs, ParameterValueMetadata), Rows(cache, ParameterValueMetadata));
    if missing.Some? {
      return Err(KeyError(IntToString(missing.value)));
    }
    var ids := GatherIds(kwargs, cache);
    CascadeOrderKeysClosed(kwargs, cache);
    var order := RotationOrder(ids.keys);
    r := Ok(IdMap(order, ids.sets));
  }

  /**
   * cascading_ids lists every requested id under its own table and leaves no
   * valid row referring to a listed id unlisted.
   */
  lemma CascadingIdsComplete(kwargs: map<Table, set<int>>, cache: Cache)
    requires RequestsKnown(kwargs, cache)
    ensures forall t, o :: t in CASCADE_ORDER && o in Own(t) ==>
      Requested(kwargs, t) <= Gathered(kwargs, cache, CASCADE_ORDER).Of(o)
    ensures NoDangling(cache, Gathered(kwargs, cache, CASCADE_ORDER))
  {
    GatheredWf(kwargs, cache, CASCADE_ORDER);
    GatheredClosed(kwargs, cache, CASCADE_ORDER);
  }
}

// remove_items of the removal mixin (spinedb_api/db_mapping_remove_mixin.py):
// the mapping that writes straight to the database deletes the rows of the
// given ids, table by table, and removes them from the table caches.
module MappingRemove {
  import opened MappingBase
  import opened CacheItems
  import opened DiffBase
  import opened DbCache

  /** The items of the ids that the cache held before are now removed; nothing is ever un-removed. */
  ghost predicate RemovedFrom(before: map<Key, Item>, after: map<Key, Item>, t: Table, ids: set<int>)
  {
    OnlyFlipped(before, after, true)
    && forall id :: id in ids && Key(t, id) in before ==> after[Key(t, id)].removed
  }

  /** The loop over the ids of TableCache.remove_item: each cached one is removed in cascade. */
  method RemoveCached(cache: DBCache, t: Table, ids: set<int>)
    requires cache.Valid()
    modifies cache
    ensures cache.Valid() && cache.tableNames == old(cache.tableNames)
    ensures RemovedFrom(old(cache.items), cache.items, t, ids)
  {
    var rest := ids;
    while rest != {}
      invariant rest <= ids
      invariant cache.Valid() && cache.tableNames == old(cache.tableNames)
      invariant RemovedFrom(old(cache.items), cache.items, t, ids - rest)
      decreases rest
    {
      var id := Pick(rest);
      ghost var before := cache.items;
      var _ := cache.RemoveItem(t, id);
      OnlyFlippedTrans(old(cache.items), before, cache.items, true);
      rest := rest - {id};
    }
  }

  /** Some element of a non-empty set. */
  method Pick<T>(s: set<T>) returns (x: T)
    requires s != {}
    ensures x in s
  {
    x :| x in s;
  }

  /** One table of remove_items: its rows of the ids are deleted and, when it has a cache, their items removed. */
  method RemoveFromTable(t: Table, rows: seq<DiffBase.Row>, cache: DBCache, ids: set<int>) returns (r: seq<DiffBase.Row>)
    requires cache.Valid()
    modifies cache
    ensures cache.Valid() && cache.tableNames == old(cache.tableNames)
    ensures r == Without(t, rows, ids)
    ensures OnlyFlipped(old(cache.items), cache.items, true)
    ensures t in cache.tableNames ==> RemovedFrom(old(cache.items), cache.items, t, ids)
  {
    r := rows;
    if ids != {} {
      r := Without(t, rows, ids);
      if t in cache.tableNames {
        RemoveCached(cache, t, ids);
      }
    }
  }

  /**
   * remove_items: nothing happens when the mapping is not committing;
   * otherwise every table loses the rows whose id is to be removed, and,
   * when the table has a cache, the cached items of those ids are removed
   * in cascade. A table with no ids is skipped.
   */
  method RemoveItems(committing: bool, tables: Tables, cache: DBCache, ids: map<Table, set<int>>) returns (r: Tables)
    requires cache.Valid()
    modifies cache
    ensures cache.Valid() && cache.tableNames == old(cache.tableNames)
    ensures !committing ==> r == tables && cache.items == old(cache.items)
    ensures committing ==> forall t :: RowsOf(r, t) == Without(t, RowsOf(tables, t), Of(ids, t))
    ensures OnlyFlipped(old(cache.items), cache.items, true)
    ensures committing ==> forall t, id ::
      t in ids && id in ids[t] && t in cache.tableNames && Key(t, id) in old(cache.items) ==> cache.items[Key(t, id)].removed
  {
    if !committing {
      return tables;
    }
    r := RemoveFromTables(tables, cache, ids);
  }

  /** The loop of remove_items over the tables of the ids. */
  method RemoveFromTables(tables: Tables, cache: DBCache, ids: map<Table, set<int>>) returns (r: Tables)
    requires cache.Valid()
    modifies cache
    ensures cache.Valid() && cache.tableNames == old(cache.tableNames)
    ensures RowsRemoved(r, tables, ids, {})
    ensures RemovedAll(old(cache.items), cache.items, ids, ids.Keys, cache.tableNames)
  {
    r := tables;
    var rest := ids.Keys;
    while rest != {}
      invariant rest <= ids.Keys
      invariant cache.Valid() && cache.tableNames == old(cache.tableNames)
      invariant RowsRemoved(r, tables, ids, rest)
      invariant RemovedAll(old(cache.items), cache.items, ids, ids.Keys - rest, cache.tableNames)
      decreases rest
    {
      var t :| t in rest;
      ghost var before := cache.items;
      ghost var r0 := r;
      var rows := RemoveFromTable(t, RowsOf(r, t), cache, ids[t]);
      r := SetRows(r, t, rows);
      RemovedAllStep(old(cache.items), before, cache.items, ids, ids.Keys - rest, t, cache.tableNames);
      RowsRemovedStep(r0, r, tables, ids, rest, t);
      assert ids.Keys - (rest - {t}) == (ids.Keys - rest) + {t};
      rest := rest - {t};
    }
  }

  /** The tables outside rest have lost the rows of their ids; those in rest are as they were. */
  ghost predicate RowsRemoved(r: Tables, tables: Tables, ids: map<Table, set<int>>, rest: set<Table>)
  {
    forall t :: RowsOf(r, t) == if t in rest then RowsOf(tables, t) else Without(t, RowsOf(tables, t), Of(ids, t))
  }

  lemma RowsRemovedStep(r0: Tables, r: Tables, tables: Tables, ids: map<Table, set<int>>, rest: set<Table>, t: Table)
    requires RowsRemoved(r0, tables, ids, rest) && t in rest && t in ids
    requires r == SetRows(r0, t, Without(t, RowsOf(r0, t), ids[t]))
    ensures RowsRemoved(r, tables, ids, rest - {t})
  {
  }

  /** The cached items of the ids of every table in done that has a cache are removed. */
  ghost predicate RemovedAll(before: map<Key, Item>, after: map<Key, Item>, ids: map<Table, set<int>>, done: set<Table>,
                             cached: set<Table>)
  {
    OnlyFlipped(before, after, true)
    && forall t :: t in ids && t in done && t in cached ==> RemovedFrom(before, after, t, ids[t])
  }

  lemma RemovedAllStep(before: map<Key, Item>, mid: map<Key, Item>, after: map<Key, Item>, ids: map<Table, set<int>>,
                       done: set<Table>, t: Table, cached: set<Table>)
    requires RemovedAll(before, mid, ids, done, cached) && t in ids
    requires OnlyFlipped(mid, after, true) && (t in cached ==> RemovedFrom(mid, after, t, ids[t]))
    ensures RemovedAll(before, after, ids, done + {t}, cached)
  {
    OnlyFlippedTrans(before, mid, after, true);
  }
}
