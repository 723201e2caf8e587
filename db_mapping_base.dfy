// The in-memory parts of DatabaseMappingBase (spinedb_api/db_mapping_base.py):
// the table names and their ancestor and child tables, the queue-rotation
// order of the item tables, the primary keys, the commit precondition, the
// metadata usage counter, and the state the mapping keeps about its cache
// and its lazily built subqueries.

module MappingBase {
  import opened Errors

  /** The database tables the core works with. */
  datatype Table =
    | ObjectClass | RelationshipClass | ParameterValueList | ListValue | ParameterDefinition | Object
    | Relationship | EntityGroup | ParameterValue | Alternative | Scenario | ScenarioAlternative | Feature
    | Tool | ToolFeature | ToolFeatureMethod | Metadata | EntityMetadata | ParameterValueMetadata
    | EntityClass | Entity | RelationshipEntityClass | RelationshipEntity | Commit
  {
    function Name(): string
    {
      match this
      case ObjectClass => "object_class"
      case RelationshipClass => "relationship_class"
      case ParameterValueList => "parameter_value_list"
      case ListValue => "list_value"
      case ParameterDefinition => "parameter_definition"
      case Object => "object"
      case Relationship => "relationship"
      case EntityGroup => "entity_group"
      case ParameterValue => "parameter_value"
      case Alternative => "alternative"
      case Scenario => "scenario"
      case ScenarioAlternative => "scenario_alternative"
      case Feature => "feature"
      case Tool => "tool"
      case ToolFeature => "tool_feature"
      case ToolFeatureMethod => "tool_feature_method"
      case Metadata => "metadata"
      case EntityMetadata => "entity_metadata"
      case ParameterValueMetadata => "parameter_value_metadata"
      case EntityClass => "entity_class"
      case Entity => "entity"
      case RelationshipEntityClass => "relationship_entity_class"
      case RelationshipEntity => "relationship_entity"
      case Commit => "commit"
    }

    /** The tables of ITEM_TYPES. */
    predicate IsItemType()
    {
      !(EntityClass? || Entity? || RelationshipEntityClass? || RelationshipEntity? || Commit?)
    }
  }

  /** DatabaseMappingBase.ITEM_TYPES, in the order declared. */
  const ITEM_TYPES: seq<Table> := [
    ObjectClass, RelationshipClass, ParameterValueList, ListValue, ParameterDefinition, Object, Relationship,
    EntityGroup, ParameterValue, Alternative, Scenario, ScenarioAlternative, Feature, Tool, ToolFeature,
    ToolFeatureMethod, Metadata, EntityMetadata, ParameterValueMetadata]

  /** The tables with a query that fills the cache (the keys of cache_sqs). */
  predicate Cacheable(t: Table)
  {
    t.IsItemType() || t.Entity? || t.Commit?
  }

  /**
   * A rank for ancestor_tablenames: every ancestor of a table has a smaller
   * rank, so the ancestor relation has no cycle.
   */
  function AncestorRank(t: Table): nat
  {
    match t
    case ListValue | RelationshipClass | Object | ScenarioAlternative => 1
    case Relationship | ParameterDefinition => 2
    case EntityGroup | Feature | ParameterValue | EntityMetadata => 3
    case ToolFeature | ParameterValueMetadata => 4
    case ToolFeatureMethod => 5
    case _ => 0
  }

  /** ancestor_tablenames.get(t), with a missing entry as no ancestors. */
  function Ancestors(t: Table): (r: seq<Table>)
    ensures forall a :: a in r ==> a.IsItemType() && AncestorRank(a) < AncestorRank(t)
  {
    match t
    case Feature => [ParameterDefinition]
    case ToolFeature => [Tool, Feature]
    case ToolFeatureMethod => [ToolFeature, ParameterValueList, ListValue]
    case ScenarioAlternative => [Scenario, Alternative]
    case RelationshipClass => [ObjectClass]
    case Object => [ObjectClass]
    case EntityGroup => [ObjectClass, RelationshipClass, Object, Relationship]
    case Relationship => [RelationshipClass, Object]
    case ParameterDefinition => [ObjectClass, RelationshipClass, ParameterValueList, ListValue]
    case ParameterValue =>
      [Alternative, ObjectClass, RelationshipClass, Object, Relationship, ParameterDefinition, ParameterValueList,
       ListValue]
    case EntityMetadata => [Metadata, Object, ObjectClass, Relationship, RelationshipClass]
    case ParameterValueMetadata =>
      [Metadata, ParameterValue, ParameterDefinition, Object, ObjectClass, Relationship, RelationshipClass,
       Alternative]
    case ListValue => [ParameterValueList]
    case _ => []
  }

  /** A height for the child map of _descendant_tablenames: every child is lower. */
  function ChildHeight(t: Table): nat
  {
    match t
    case EntityMetadata | ParameterValueMetadata | ToolFeature | Scenario => 1
    case ParameterValue | Feature | Tool => 2
    case ParameterDefinition | ParameterValueList | Relationship | Alternative => 3
    case RelationshipClass | Object => 4
    case ObjectClass => 5
    case _ => 0
  }

  /** The child_tablenames dict of _descendant_tablenames, a missing entry as no children. */
  function Children(t: Table): (r: seq<Table>)
    ensures forall c :: c in r ==> ChildHeight(c) < ChildHeight(t)
  {
    match t
    case Alternative => [ParameterValue, ScenarioAlternative]
    case Scenario => [ScenarioAlternative]
    case ObjectClass => [Object, RelationshipClass, ParameterDefinition]
    case Object => [Relationship, ParameterValue, EntityGroup, EntityMetadata]
    case RelationshipClass => [Relationship, ParameterDefinition]
    case Relationship => [ParameterValue, EntityGroup, EntityMetadata]
    case ParameterDefinition => [ParameterValue, Feature]
    case ParameterValueList => [Feature]
    case ParameterValue => [ParameterValueMetadata, EntityMetadata]
    case Feature => [ToolFeature]
    case Tool => [ToolFeature]
    case ToolFeature => [ToolFeatureMethod]
    case EntityMetadata => [Metadata]
    case ParameterValueMetadata => [Metadata]
    case _ => []
  }

  /** The sequence _descendant_tablenames(t) yields: each child, then that child's descendants. */
  function Descendants(t: Table): seq<Table>
    decreases ChildHeight(t), 1, 0
  {
    YieldAll(Children(t), ChildHeight(t))
  }

  /** The yields of the loop over the children cs, all lower than h. */
  function YieldAll(cs: seq<Table>, h: nat): seq<Table>
    requires forall c :: c in cs ==> ChildHeight(c) < h
    decreases h, 0, |cs|
  {
    if cs == [] then [] else [cs[0]] + Descendants(cs[0]) + YieldAll(cs[1..], h)
  }

  /** Every descendant is lower than its ancestor in the child map, so no table is its own descendant. */
  lemma {:induction false} DescendantsLower(t: Table)
    ensures forall x :: x in Descendants(t) ==> ChildHeight(x) < ChildHeight(t)
    ensures t !in Descendants(t)
    decreases ChildHeight(t), 1, 0
  {
    YieldAllLower(Children(t), ChildHeight(t));
  }

  lemma {:induction false} YieldAllLower(cs: seq<Table>, h: nat)
    requires forall c :: c in cs ==> ChildHeight(c) < h
    ensures forall x :: x in YieldAll(cs, h) ==> ChildHeight(x) < h
    decreases h, 0, |cs|
  {
    if cs != [] {
      DescendantsLower(cs[0]);
      YieldAllLower(cs[1..], h);
    }
  }

  /** The children are descendants, and so are all of their descendants. */
  lemma DescendantsClosed(t: Table, c: Table)
    requires c in Children(t)
    ensures c in Descendants(t)
    ensures forall x :: x in Descendants(c) ==> x in Descendants(t)
  {
    YieldAllClosed(Children(t), ChildHeight(t), c);
  }

  lemma {:induction false} YieldAllClosed(cs: seq<Table>, h: nat, c: Table)
    requires forall c :: c in cs ==> ChildHeight(c) < h
    requires c in cs
    ensures c in YieldAll(cs, h)
    ensures forall x :: x in Descendants(c) ==> x in YieldAll(cs, h)
    decreases |cs|
  {
    if cs[0] != c {
      YieldAllClosed(cs[1..], h, c);
    }
  }

  /** Nothing else is yielded: a descendant is a child or a descendant of a child. */
  lemma DescendantsOnlyThrough(t: Table, x: Table)
    requires x in Descendants(t)
    ensures exists c :: c in Children(t) && (x == c || x in Descendants(c))
  {
    YieldAllThrough(Children(t), ChildHeight(t), x);
  }

  lemma {:induction false} YieldAllThrough(cs: seq<Table>, h: nat, x: Table)
    requires forall c :: c in cs ==> ChildHeight(c) < h
    requires x in YieldAll(cs, h)
    ensures exists c :: c in cs && (x == c || x in Descendants(c))
    decreases |cs|
  {
    if x != cs[0] && x !in Descendants(cs[0]) {
      YieldAllThrough(cs[1..], h, x);
      var c :| c in cs[1..] && (x == c || x in Descendants(c));
      assert c in cs;
    } else {
      assert cs[0] in cs;
    }
  }

  // ---------------------------------------------------------------------------
  // The queue-rotation order of sorted_tablenames and cascading_ids

  /** all(x in done for x in ancestors) */
  predicate Ready(t: Table, done: seq<Table>)
  {
    forall a :: a in Ancestors(t) ==> a in done
  }

  /** Each table comes after all of its ancestor tables. */
  predicate AncestorsFirst(s: seq<Table>)
  {
    forall i :: 0 <= i < |s| ==> Ready(s[i], s[..i])
  }

  /** The ancestors of every table of q are in q. */
  predicate Closed(q: seq<Table>)
  {
    forall t, a :: t in q && a in Ancestors(t) ==> a in q
  }

  /** The number of tables at the head of the queue that are not ready yet. */
  ghost function Lead(q: seq<Table>, done: seq<Table>): nat
  {
    if q == [] || Ready(q[0], done) then 0 else 1 + Lead(q[1..], done)
  }

  lemma {:induction false} LeadAppend(q: seq<Table>, done: seq<Table>, t: Table, k: nat)
    requires k < |q| && Ready(q[k], done)
    ensures Lead(q + [t], done) == Lead(q, done)
  {
    if !Ready(q[0], done) {
      assert (q + [t])[1..] == q[1..] + [t];
      LeadAppend(q[1..], done, t, k - 1);
    }
  }

  /** The table of least rank in a non-empty sequence. */
  lemma {:induction false} LeastRank(q: seq<Table>) returns (k: nat)
    requires q != []
    ensures k < |q| && forall t :: t in q ==> AncestorRank(q[k]) <= AncestorRank(t)
  {
    if |q| == 1 {
      k := 0;
    } else {
      var j := LeastRank(q[1..]);
      if AncestorRank(q[0]) <= AncestorRank(q[1..][j]) {
        k := 0;
      } else {
        k := j + 1;
      }
    }
  }

  /**
   * While the queue and the placed tables together hold every ancestor of the
   * queue, some table of the queue is ready: one of least rank.
   */
  lemma SomeReady(q: seq<Table>, done: seq<Table>) returns (k: nat)
    requires q != []
    requires forall t, a :: t in q && a in Ancestors(t) ==> a in q || a in done
    ensures k < |q| && Ready(q[k], done)
  {
    k := LeastRank(q);
  }

  /** The loop state of the rotation: nothing lost, the placed tables in order, no ancestor missing. */
  ghost predicate Rotating(tables: seq<Table>, queue: seq<Table>, sorted: seq<Table>)
  {
    multiset(sorted) + multiset(queue) == multiset(tables)
    && AncestorsFirst(sorted)
    && forall t, a :: t in queue && a in Ancestors(t) ==> a in queue || a in sorted
  }

  /** Placing a ready head keeps the loop state. */
  lemma Place(tables: seq<Table>, queue: seq<Table>, sorted: seq<Table>)
    requires Rotating(tables, queue, sorted) && queue != [] && Ready(queue[0], sorted)
    ensures Rotating(tables, queue[1..], sorted + [queue[0]])
  {
    var t := queue[0];
    assert queue == [t] + queue[1..];
    assert sorted == (sorted + [t])[..|sorted|];
    assert forall i :: 0 <= i < |sorted| ==> (sorted + [t])[..i] == sorted[..i];
  }

  /** Moving a head that is not ready to the back keeps the loop state and brings a ready table closer. */
  lemma Rotate(tables: seq<Table>, queue: seq<Table>, sorted: seq<Table>)
    requires Rotating(tables, queue, sorted) && queue != [] && !Ready(queue[0], sorted)
    ensures Rotating(tables, queue[1..] + [queue[0]], sorted)
    ensures Lead(queue[1..] + [queue[0]], sorted) < Lead(queue, sorted)
  {
    RotatedSame(queue);
    var k := SomeReady(queue, sorted);
    assert k != 0;
    LeadAppend(queue[1..], sorted, queue[0], k - 1);
  }

  /** The queue with its head moved to the back holds the same tables. */
  lemma RotatedSame(queue: seq<Table>)
    requires queue != []
    ensures multiset(queue[1..] + [queue[0]]) == multiset(queue)
    ensures forall x :: x in queue[1..] + [queue[0]] <==> x in queue
  {
    assert queue == [queue[0]] + queue[1..];
  }

  /**
   * The rotation loop of sorted_tablenames (and of cascading_ids): take the
   * head of the queue; place it when all its ancestors are placed, otherwise
   * move it to the back. The queue must hold the ancestors of its tables, or
   * the loop would never end.
   */
  method RotationOrder(tables: seq<Table>) returns (sorted: seq<Table>)
    requires Closed(tables)
    ensures multiset(sorted) == multiset(tables)
    ensures AncestorsFirst(sorted)
  {
    var queue := tables;
    sorted := [];
    while queue != []
      invariant Rotating(tables, queue, sorted)
      decreases |queue|, Lead(queue, sorted)
    {
      var t := queue[0];
      if Ready(t, sorted) {
        Place(tables, queue, sorted);
        sorted := sorted + [t];
        queue := queue[1..];
      } else {
        Rotate(tables, queue, sorted);
        queue := queue[1..] + [t];
      }
    }
  }

  lemma ItemTypesClosed()
    ensures Closed(ITEM_TYPES)
  {
    forall t: Table | t.IsItemType()
      ensures t in ITEM_TYPES
    {
    }
  }

  /**
   * sorted_tablenames: ITEM_TYPES reordered so that each table comes after
   * all of its ancestor tables.
   */
  method SortedTablenames() returns (sorted: seq<Table>)
    ensures multiset(sorted) == multiset(ITEM_TYPES)
    ensures AncestorsFirst(sorted)
  {
    ItemTypesClosed();
    sorted := RotationOrder(ITEM_TYPES);
  }

  // ---------------------------------------------------------------------------
  // Primary keys, the commit precondition and metadata usage counts

  /** table_ids: the id column of the tables whose id is not called "id". */
  function TableId(t: Table): string
  {
    match t
    case RelationshipEntityClass | ObjectClass | RelationshipClass => "entity_class_id"
    case Object | Relationship | RelationshipEntity => "entity_id"
    case _ => "id"
  }

  /**
   * _get_primary_key: the two relationship_entity tables have a composite
   * key with "dimension"; every other table is keyed by its id column alone.
   */
  function PrimaryKey(t: Table): (pk: seq<string>)
    ensures |pk| == 2 <==> t.RelationshipEntity? || t.RelationshipEntityClass?
    ensures |pk| == 2 ==> pk == [TableId(t), "dimension"]
    ensures |pk| != 2 ==> pk == [TableId(t)]
  {
    match t
    case RelationshipEntity => ["entity_id", "dimension"]
    case RelationshipEntityClass => ["entity_class_id", "dimension"]
    case _ => [TableId(t)]
  }

  /** _check_commit: a commit needs pending changes and a non-empty message, checked in that order. */
  function CheckCommit(pending: bool, comment: string): (r: Result<()>)
    ensures r.Ok? <==> pending && comment != []
    ensures !pending ==> r == Err(SpineDBAPIError("Nothing to commit."))
    ensures pending && comment == [] ==> r == Err(SpineDBAPIError("Commit message cannot be empty."))
  {
    if !pending then Err(SpineDBAPIError("Nothing to commit."))
    else if comment == [] then Err(SpineDBAPIError("Commit message cannot be empty."))
    else Ok(())
  }

  /** A cached entity_metadata or parameter_value_metadata row. */
  datatype MetadataLink = MetadataLink(id: int, ownerId: int, metadataId: int)

  /** How many of the links point to metadata m. */
  function Uses(links: seq<MetadataLink>, m: int): nat
  {
    if links == [] then 0 else (if links[0].metadataId == m then 1 else 0) + Uses(links[1..], m)
  }

  lemma {:induction false} UsesPrefix(links: seq<MetadataLink>, i: nat, m: int)
    requires i < |links|
    ensures Uses(links[..i + 1], m) == Uses(links[..i], m) + (if links[i].metadataId == m then 1 else 0)
  {
    if i > 0 {
      assert links[..i + 1][1..] == links[1..][..i];
      assert links[..i][1..] == links[1..][..i - 1];
      UsesPrefix(links[1..], i - 1, m);
    }
  }

  lemma {:induction false} UsesPositive(links: seq<MetadataLink>, m: int)
    ensures Uses(links, m) > 0 <==> exists l :: l in links && l.metadataId == m
  {
    if links != [] {
      UsesPositive(links[1..], m);
      assert links == [links[0]] + links[1..];
    }
  }

  /** Counter.get(m, 0) */
  function CountOf(counts: map<int, nat>, m: int): nat
  {
    if m in counts then counts[m] else 0
  }

  /** usage_counts[link.metadata_id] += 1 over the links, in order. */
  method CountUses(counts: map<int, nat>, links: seq<MetadataLink>) returns (r: map<int, nat>)
    ensures forall m :: CountOf(r, m) == CountOf(counts, m) + Uses(links, m)
    ensures forall m :: m in r <==> m in counts || Uses(links, m) > 0
  {
    r := counts;
    for i := 0 to |links|
      invariant forall m :: CountOf(r, m) == CountOf(counts, m) + Uses(links[..i], m)
      invariant forall m :: m in r <==> m in counts || Uses(links[..i], m) > 0
    {
      var m := links[i].metadataId;
      r := r[m := CountOf(r, m) + 1];
      forall x
        ensures Uses(links[..i + 1], x) == Uses(links[..i], x) + (if links[i].metadataId == x then 1 else 0)
      {
        UsesPrefix(links, i, x);
      }
    }
    assert links[..|links|] == links;
  }

  /**
   * _metadata_usage_counts: per metadata id, how many entity_metadata and
   * parameter_value_metadata rows of the cache point to it; only ids in use
   * are keys.
   */
  method MetadataUsageCounts(entityMetadata: seq<MetadataLink>, valueMetadata: seq<MetadataLink>)
    returns (counts: map<int, nat>)
    ensures forall m :: CountOf(counts, m) == Uses(entityMetadata, m) + Uses(valueMetadata, m)
    ensures forall m :: m in counts <==>
      exists l :: (l in entityMetadata || l in valueMetadata) && l.metadataId == m
  {
    counts := CountUses(map[], entityMetadata);
    counts := CountUses(counts, valueMetadata);
    forall m
      ensures m in counts <==> exists l :: (l in entityMetadata || l in valueMetadata) && l.metadataId == m
    {
      UsesPositive(entityMetadata, m);
      UsesPositive(valueMetadata, m);
    }
  }

  // ---------------------------------------------------------------------------
  // The mapping's state: the committing flag, the cache queries run, and the
  // subquery makers with the subqueries built from them.

  /** A subquery maker: the class's own method or a function a filter installed. */
  datatype Maker = Default | Custom(id: nat)

  /** The tables whose subquery maker can be overridden and restored. */
  predicate Overridable(t: Table)
  {
    t.Entity? || t.EntityClass? || t.ParameterDefinition? || t.ParameterValue? || t.Alternative?
    || t.Scenario? || t.ScenarioAlternative?
  }

  /** A subquery attribute built from the makers of the tables it involves. */
  datatype Subquery = Subquery(attr: string, makers: map<Table, Maker>)

  /** Everything a cached subquery of attr depends on: the makers of its tables. */
  function Build(attr: string, involves: map<string, set<Table>>, makers: map<Table, Maker>): Subquery
  {
    Subquery(attr, map t | t in makers && attr in involves && t in involves[attr] :: makers[t])
  }

  class Mapping {
    var committing: bool
    /** The cache queries run so far, as a multiset of tables. */
    var queries: multiset<Table>
    /** The tables whose table cache is not empty. */
    var filled: set<Table>
    /** The current subquery makers of the overridable tables. */
    var makers: map<Table, Maker>
    /** The subquery attributes that are not None. */
    var subqueries: map<string, Subquery>
    /** _get_table_to_sq_attr, inverted: the tables each subquery attribute involves. */
    const involves: map<string, set<Table>>
    /** The tables the database has rows in. */
    const stored: set<Table>

    /** Every subquery that is not None was built by the current makers. */
    predicate Valid()
      reads this
    {
      (forall t :: t in makers <==> Overridable(t))
      && forall attr :: attr in subqueries ==> subqueries[attr] == Build(attr, involves, makers)
    }

    constructor (involves: map<string, set<Table>>, stored: set<Table>)
      ensures Valid()
      ensures committing && queries == multiset{} && filled == {} && subqueries == map[]
      ensures this.involves == involves && this.stored == stored
    {
      this.involves := involves;
      this.stored := stored;
      committing := true;
      queries := multiset{};
      filled := {};
      makers := map t | Overridable(t) :: Default;
      subqueries := map[];
    }

    /** _do_advance_cache_query: run the table's cache query. */
    method AdvanceCacheQuery(t: Table)
      modifies this
      ensures queries == old(queries) + multiset{t}
      ensures filled == old(filled) + ({t} * stored)
      ensures committing == old(committing) && makers == old(makers) && subqueries == old(subqueries)
    {
      queries := queries + multiset{t};
      filled := filled + ({t} * stored);
    }

    /**
     * make_cache: the requested tables, with their descendants, then with the
     * direct ancestors of that set, then with the forced tables; the cache
     * query runs once for each of them that has one.
     */
    method MakeCache(tablenames: set<Table>, includeDescendants: bool, includeAncestors: bool, force: set<Table>)
      returns (loaded: set<Table>)
      modifies this
      ensures loaded == CacheTables(tablenames, includeDescendants, includeAncestors, force)
      ensures queries == old(queries) + multiset(loaded)
      ensures filled == old(filled) + (loaded * stored)
      ensures committing == old(committing) && makers == old(makers) && subqueries == old(subqueries)
    {
      var names := tablenames;
      if includeDescendants {
        names := names + DescendantsOf(names);
      }
      if includeAncestors {
        names := names + AncestorsOf(names);
      }
      names := names + force;
      loaded := set t | t in names && Cacheable(t);
      var rest := loaded;
      while rest != {}
        invariant rest <= loaded
        invariant queries == old(queries) + multiset(loaded - rest)
        invariant filled == old(filled) + ((loaded - rest) * stored)
        invariant committing == old(committing) && makers == old(makers) && subqueries == old(subqueries)
        decreases rest
      {
        var t :| t in rest;
        assert multiset(loaded - (rest - {t})) == multiset(loaded - rest) + multiset{t};
        AdvanceCacheQuery(t);
        rest := rest - {t};
      }
    }

    /**
     * _clear_subqueries for one table: a non-empty table cache is dropped and
     * refetched, and every subquery attribute involving the table becomes None.
     */
    method ClearSubqueries(t: Table)
      modifies this
      ensures queries == old(queries) + (if t in old(filled) then multiset{t} else multiset{})
      ensures filled == (if t in old(filled) then old(filled) - {t} + ({t} * stored) else old(filled))
      ensures subqueries == map attr | attr in old(subqueries) && !(attr in involves && t in involves[attr])
        :: old(subqueries)[attr]
      ensures committing == old(committing) && makers == old(makers)
    {
      if t in filled {
        filled := filled - {t};
        AdvanceCacheQuery(t);
      }
      subqueries := map attr | attr in subqueries && !(attr in involves && t in involves[attr]) :: subqueries[attr];
    }

    /** Swapping a maker keeps every remaining subquery built by the current makers. */
    method SetMaker(t: Table, m: Maker)
      requires Valid() && Overridable(t)
      modifies this
      ensures Valid()
      ensures makers == old(makers)[t := m]
      ensures forall attr :: attr in subqueries <==>
        attr in old(subqueries) && !(attr in involves && t in involves[attr])
      ensures committing == old(committing)
    {
      makers := makers[t := m];
      ClearSubqueries(t);
      forall attr | attr in subqueries
        ensures subqueries[attr] == Build(attr, involves, makers)
      {
        assert Build(attr, involves, makers) == Build(attr, involves, old(makers));
      }
    }

    /** override_*_sq_maker: install the function and clear the subqueries of the table. */
    method OverrideMaker(t: Table, id: nat)
      requires Valid() && Overridable(t)
      modifies this
      ensures Valid()
      ensures makers == old(makers)[t := Custom(id)]
      ensures forall attr :: attr in subqueries <==>
        attr in old(subqueries) && !(attr in involves && t in involves[attr])
      ensures committing == old(committing)
    {
      SetMaker(t, Custom(id));
    }

    /** restore_*_sq_maker: put the class's own maker back and clear the subqueries of the table. */
    method RestoreMaker(t: Table)
      requires Valid() && Overridable(t)
      modifies this
      ensures Valid()
      ensures makers == old(makers)[t := Default]
      ensures forall attr :: attr in subqueries <==>
        attr in old(subqueries) && !(attr in involves && t in involves[attr])
      ensures committing == old(committing)
    {
      SetMaker(t, Default);
    }

    /**
     * A subquery property: build the subquery when the attribute is None and
     * keep it. What it returns is always what the current makers build.
     */
    method GetSubquery(attr: string) returns (sq: Subquery)
      requires Valid()
      modifies this
      ensures Valid()
      ensures sq == Build(attr, involves, makers)
      ensures attr in subqueries && subqueries == old(subqueries)[attr := sq]
      ensures makers == old(makers) && committing == old(committing) && queries == old(queries)
    {
      if attr !in subqueries {
        subqueries := subqueries[attr := Build(attr, involves, makers)];
      }
      sq := subqueries[attr];
    }

    /**
     * override_committing: the body runs with the new flag, whatever it
     * returns (an error included) is passed on, and the old flag is back
     * afterwards.
     */
    method OverrideCommitting<T>(newCommitting: bool, body: bool -> T) returns (r: T)
      modifies this
      ensures r == body(newCommitting)
      ensures committing == old(committing)
      ensures makers == old(makers) && subqueries == old(subqueries) && queries == old(queries)
      ensures filled == old(filled)
    {
      var saved := committing;
      committing := newCommitting;
      r := body(committing);
      committing := saved;
    }
  }

  /** The descendants of a set of tables (descendant_tablenames.get(t, ())). */
  function DescendantsOf(tables: set<Table>): (r: set<Table>)
    ensures forall x :: x in r <==> exists t :: t in tables && Cacheable(t) && x in Descendants(t)
  {
    set t, x | t in tables && Cacheable(t) && x in Descendants(t) :: x
  }

  /** The direct ancestors of a set of tables (ancestor_tablenames.get(t, ())). */
  function AncestorsOf(tables: set<Table>): (r: set<Table>)
    ensures forall x :: x in r <==> exists t :: t in tables && x in Ancestors(t)
  {
    set t, x | t in tables && x in Ancestors(t) :: x
  }

  /** The tables make_cache runs the cache query for. */
  function CacheTables(tablenames: set<Table>, includeDescendants: bool, includeAncestors: bool, force: set<Table>)
    : set<Table>
  {
    var d := if includeDescendants then tablenames + DescendantsOf(tablenames) else tablenames;
    var a := if includeAncestors then d + AncestorsOf(d) else d;
    set t | t in a + force && Cacheable(t)
  }

  /**
   * What make_cache loads: every cacheable requested or forced table, every
   * descendant of a requested table when asked, every direct ancestor of those
   * when asked, and nothing else.
   */
  lemma CacheTablesCover(tablenames: set<Table>, incD: bool, incA: bool, force: set<Table>, x: Table)
    ensures x in CacheTables(tablenames, incD, incA, force) <==>
      Cacheable(x) &&
      (x in tablenames || x in force
       || (incD && exists t :: t in tablenames && Cacheable(t) && x in Descendants(t))
       || (incA && exists t :: t in tablenames && x in Ancestors(t))
       || (incA && incD && exists t, y :: t in tablenames && Cacheable(t) && y in Descendants(t) && x in Ancestors(y)))
  {
  }
}
