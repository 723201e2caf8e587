// Setting up export mapping chains (spinedb_api/export_mapping/settings.py).
//
// An export mapping hierarchy is a chain: each mapping has at most one child.
// The model holds a chain as the list flatten() returns, root first, and
// linking a child to the tail (`tail.child = m`) or unflatten(list) as
// reassigning that list. A mapping is its class, its position, whether it
// is ignorable and, for the highlighting mappings, the dimension they
// highlight.

module ExportSettings {
  import opened Errors

  /** The export mapping classes the settings functions build chains from. */
  datatype ExportKind =
    | ObjectClass | Object | ObjectGroup | ObjectGroupObject
    | ParameterDefinition | ParameterValueList | ParameterValueListValue
    | Alternative | AlternativeDescription
    | ParameterValueType | ParameterValue | ExpandedParameterValue | ParameterValueIndex | IndexName
    | ParameterDefaultValueType | ParameterDefaultValue | ExpandedParameterDefaultValue
    | ParameterDefaultValueIndex | DefaultValueIndexName
    | RelationshipClass | RelationshipClassObjectClass | RelationshipClassObjectHighlighting
    | Relationship | RelationshipObject | RelationshipObjectHighlighting
    | Scenario | ScenarioActiveFlag | ScenarioDescription | ScenarioAlternative | ScenarioBeforeAlternative
    | FeatureEntityClass | FeatureParameterDefinition
    | Tool | ToolFeatureEntityClass | ToolFeatureParameterDefinition | ToolFeatureRequiredFlag
    | ToolFeatureMethodEntityClass | ToolFeatureMethodParameterDefinition | ToolFeatureMethodMethod

  /**
   * isinstance(m, cls) for the classes the settings functions test: the
   * highlighting mappings are subclasses of the relationship class and
   * relationship mappings.
   */
  predicate IsA(k: ExportKind, cls: ExportKind)
  {
    k == cls
    || (k == RelationshipClassObjectHighlighting && cls == RelationshipClass)
    || (k == RelationshipObjectHighlighting && cls == Relationship)
  }

  /** Where a mapping puts its data: hidden, a column, or another Position member. */
  datatype ExportPosition = Hidden | Column(index: int) | Other(name: string)

  /** One export mapping. */
  datatype ExportMapping = ExportMapping(kind: ExportKind, position: ExportPosition, ignorable: bool, highlightDimension: nat)

  /** A newly made mapping: cls(position), not ignorable. */
  function Plain(kind: ExportKind, position: ExportPosition): (m: ExportMapping)
    ensures m.kind == kind && m.position == position && !m.ignorable
  {
    ExportMapping(kind, position, false, 0)
  }

  /** The four classes a parameter value (or default value) chain is built from. */
  datatype ValueKinds = ValueKinds(single: ExportKind, expanded: ExportKind, index: ExportKind, indexName: ExportKind)

  const ValueClasses := ValueKinds(ParameterValue, ExpandedParameterValue, ParameterValueIndex, IndexName)
  const DefaultValueClasses :=
    ValueKinds(ParameterDefaultValue, ExpandedParameterDefaultValue, ParameterDefaultValueIndex, DefaultValueIndexName)

  /** The four classes are distinct. */
  predicate Distinct4(v: ValueKinds)
  {
    v.single != v.expanded && v.single != v.index && v.single != v.indexName
    && v.expanded != v.index && v.expanded != v.indexName && v.index != v.indexName
  }

  // ---------------------------------------------------------------------------
  // Counting and cutting

  /** How many mappings of exactly class k a list holds (type(m) == k). */
  function CountExact(s: seq<ExportMapping>, k: ExportKind): (n: nat)
    ensures n <= |s|
  {
    if s == [] then 0 else CountExact(s[..|s| - 1], k) + (if s[|s| - 1].kind == k then 1 else 0)
  }

  lemma {:induction false} CountExactAppend(a: seq<ExportMapping>, b: seq<ExportMapping>, k: ExportKind)
    ensures CountExact(a + b, k) == CountExact(a, k) + CountExact(b, k)
    decreases |b|
  {
    if b == [] {
      assert a + b == a;
    } else {
      assert (a + b)[..|a + b| - 1] == a + b[..|b| - 1];
      CountExactAppend(a, b[..|b| - 1], k);
    }
  }

  /** A list with no mapping of class k. */
  predicate Free(s: seq<ExportMapping>, k: ExportKind)
  {
    forall j :: 0 <= j < |s| ==> s[j].kind != k
  }

  lemma {:induction false} CountExactFree(s: seq<ExportMapping>, k: ExportKind)
    requires Free(s, k)
    ensures CountExact(s, k) == 0
    decreases |s|
  {
    if s != [] {
      CountExactFree(s[..|s| - 1], k);
    }
  }

  /** takewhile(lambda m: type(m) != k, s): the mappings before the first one of class k. */
  function TakeUntil(s: seq<ExportMapping>, k: ExportKind): (r: seq<ExportMapping>)
    ensures |r| <= |s| && r == s[..|r|] && Free(r, k)
    ensures |r| < |s| ==> s[|r|].kind == k
  {
    if s == [] || s[0].kind == k then [] else [s[0]] + TakeUntil(s[1..], k)
  }

  /** s[:n] as Python slices it: a negative n counts from the end, and the bound is clamped. */
  function Take(s: seq<ExportMapping>, n: int): (r: seq<ExportMapping>)
    ensures |r| == if n < 0 then (if |s| + n < 0 then 0 else |s| + n) else if n > |s| then |s| else n
    ensures r == s[..|r|]
  {
    if n < 0 then (if |s| + n < 0 then [] else s[..|s| + n]) else if n > |s| then s else s[..n]
  }

  /** s[n:] with Python's clamping, for n >= 0. */
  function Drop(s: seq<ExportMapping>, n: nat): (r: seq<ExportMapping>)
    ensures r == if n > |s| then [] else s[n..]
  {
    if n > |s| then [] else s[n..]
  }

  // ---------------------------------------------------------------------------
  // The chain pieces the builders put together

  /** _generate_dimensions: one mapping of the class per position, in order, hung under the parent. */
  function Dimensions(kind: ExportKind, positions: seq<ExportPosition>): (r: seq<ExportMapping>)
    ensures |r| == |positions|
    ensures forall j :: 0 <= j < |r| ==> r[j] == Plain(kind, positions[j])
  {
    if positions == [] then [] else [Plain(kind, positions[0])] + Dimensions(kind, positions[1..])
  }

  /** The first n (index name, index) pairs that zip(index_name_positions, index_positions) makes. */
  function IndexPairs(v: ValueKinds, names: seq<ExportPosition>, indexes: seq<ExportPosition>, n: nat): (r: seq<ExportMapping>)
    requires n <= |names| && n <= |indexes|
    ensures |r| == 2 * n
    ensures forall j :: 0 <= j < n ==> r[2 * j] == Plain(v.indexName, names[j]) && r[2 * j + 1] == Plain(v.index, indexes[j])
  {
    if n == 0 then [] else IndexPairs(v, names, indexes, n - 1) + [Plain(v.indexName, names[n - 1]), Plain(v.index, indexes[n - 1])]
  }

  function Min(a: nat, b: nat): nat { if a < b then a else b }

  const NoneNotIterable := "'NoneType' object is not iterable"

  /**
   * The value part of a chain below the given head mappings: with no index
   * positions a single value mapping; otherwise one (index name, index) pair
   * per position zip() pairs up and an expanded value mapping. Index
   * positions without index name positions make zip() raise TypeError.
   */
  function ValueTail(v: ValueKinds, valuePosition: ExportPosition, names: Option<seq<ExportPosition>>, indexes: seq<ExportPosition>): (r: Result<seq<ExportMapping>>)
    ensures indexes == [] ==> r == Ok([Plain(v.single, valuePosition)])
    ensures indexes != [] && names.None? ==> r.Err? && r.error.TypeError?
    ensures indexes != [] && names.Some? ==>
      (r.Ok? && |r.value| == 2 * Min(|names.value|, |indexes|) + 1 && r.value[|r.value| - 1] == Plain(v.expanded, valuePosition))
  {
    if indexes == [] then Ok([Plain(v.single, valuePosition)])
    else if names.None? then Err(TypeError(NoneNotIterable))
    else Ok(IndexPairs(v, names.value, indexes, Min(|names.value|, |indexes|)) + [Plain(v.expanded, valuePosition)])
  }

  // ---------------------------------------------------------------------------
  // A chain of export mappings

  /** An export mapping and the mappings below it, as flatten() lists them. */
  class ExportChain {
    var mappings: seq<ExportMapping>

    /** A lone root mapping. */
    constructor(root: ExportMapping)
      ensures mappings == [root]
    {
      mappings := [root];
    }

    /** tail.child = m. */
    method Link(m: ExportMapping)
      modifies this
      ensures mappings == old(mappings) + [m]
    {
      mappings := mappings + [m];
    }

    /** _generate_dimensions(tail, kind, positions): hangs one mapping per position below the tail, each below the one before. */
    method GenerateDimensions(kind: ExportKind, positions: seq<ExportPosition>)
      modifies this
      ensures mappings == old(mappings) + Dimensions(kind, positions)
      decreases |positions|
    {
      if positions == [] {
        return;
      }
      Link(Plain(kind, positions[0]));
      if |positions| == 1 {
        return;
      }
      GenerateDimensions(kind, positions[1..]);
    }

    /**
     * _generate_parameter_value_mappings(tail, ...): alternative → value type
     * → value part. The chain is built on its own and hung below the tail
     * last, so when zip() raises the tail keeps no child.
     */
    method GenerateParameterValueMappings(alternativePosition: ExportPosition, valueTypePosition: ExportPosition,
                                          valuePosition: ExportPosition, names: Option<seq<ExportPosition>>,
                                          indexes: seq<ExportPosition>) returns (error: Option<Error>)
      modifies this
      ensures var tail := ValueTail(ValueClasses, valuePosition, names, indexes);
        && (tail.Ok? ==> error == None && mappings == old(mappings) + [Plain(Alternative, alternativePosition), Plain(ParameterValueType, valueTypePosition)] + tail.value)
        && (tail.Err? ==> error == Some(tail.error) && mappings == old(mappings))
    {
      var built := [Plain(Alternative, alternativePosition), Plain(ParameterValueType, valueTypePosition)];
      var rest := IndexedTail(ValueClasses, valuePosition, names, indexes);
      if rest.Err? {
        return Some(rest.error);
      }
      mappings := mappings + built + rest.value;
      return None;
    }

    /**
     * _generate_default_value_mappings(tail, ...): default value type →
     * value part. The type mapping is hung below the tail first, so when
     * zip() raises the chain keeps it.
     */
    method GenerateDefaultValueMappings(valueTypePosition: ExportPosition, valuePosition: ExportPosition,
                                        names: Option<seq<ExportPosition>>, indexes: seq<ExportPosition>) returns (error: Option<Error>)
      modifies this
      ensures var tail := ValueTail(DefaultValueClasses, valuePosition, names, indexes);
        && (tail.Ok? ==> error == None && mappings == old(mappings) + [Plain(ParameterDefaultValueType, valueTypePosition)] + tail.value)
        && (tail.Err? ==> error == Some(tail.error) && mappings == old(mappings) + [Plain(ParameterDefaultValueType, valueTypePosition)])
    {
      Link(Plain(ParameterDefaultValueType, valueTypePosition));
      var rest := IndexedTail(DefaultValueClasses, valuePosition, names, indexes);
      if rest.Err? {
        return Some(rest.error);
      }
      mappings := mappings + rest.value;
      return None;
    }

    /**
     * set_relationship_dimensions(mapping, dimensions). When there is no
     * relationship class mapping, None + 1 raises before unflatten() and the
     * chain is left as it was.
     */
    method SetRelationshipDimensions(dimensions: int) returns (error: Option<Error>)
      modifies this
      ensures var r := RelationshipDimensions(old(mappings), dimensions);
        && (r.Ok? ==> error == None && mappings == r.value)
        && (r.Err? ==> error == Some(r.error) && mappings == old(mappings))
    {
      var list := ChangeConsecutive(mappings, RelationshipClass, RelationshipClassObjectClass, dimensions);
      if list.Err? {
        return Some(list.error);
      }
      var relationships := AnyInstance(list.value, Relationship);
      assert relationships <==> ParentIndex(list.value, Relationship).Some?;
      if relationships {
        list := ChangeConsecutive(list.value, Relationship, RelationshipObject, dimensions);
      }
      mappings := list.value;
      return None;
    }

    /**
     * _change_amount_of_dimensions(mapping, dimensions, ...): takewhile() and
     * the count of index mappings as loops over the flattened chain.
     */
    method ChangeDimensions(dimensions: int, v: ValueKinds)
      requires |mappings| > 0
      modifies this
      ensures var c := ChangedDimensions(old(mappings), dimensions, v);
        mappings == if c.Some? then c.value else old(mappings)
    {
      var list := mappings;
      var last := list[|list| - 1];
      if dimensions == 0 {
        if last.kind == v.expanded {
          var n := LeadingWithout(list, v.indexName);
          mappings := list[..n] + [Plain(v.single, last.position)];
        }
        return;
      }
      if last.kind == v.single {
        list := list[..|list| - 1] + [Plain(v.expanded, last.position)];
      }
      var existing := CountKind(list, v.index);
      if existing < dimensions {
        mappings := list[..|list| - 1] + HiddenPairs(v, dimensions - existing) + [list[|list| - 1]];
      } else if existing > dimensions {
        mappings := Take(list, -2 * (existing - dimensions) - 1) + [list[|list| - 1]];
      }
    }

    /** set_parameter_dimensions(mapping, dimensions). */
    method SetParameterDimensions(dimensions: int)
      requires |mappings| > 0
      modifies this
      ensures var c := ChangedDimensions(old(mappings), dimensions, ValueClasses);
        mappings == if c.Some? then c.value else old(mappings)
    {
      ChangeDimensions(dimensions, ValueClasses);
    }

    /** set_parameter_default_value_dimensions(mapping, dimensions). */
    method SetParameterDefaultValueDimensions(dimensions: int)
      requires |mappings| > 0
      modifies this
      ensures var c := ChangedDimensions(old(mappings), dimensions, DefaultValueClasses);
        mappings == if c.Some? then c.value else old(mappings)
    {
      ChangeDimensions(dimensions, DefaultValueClasses);
    }
  }

  /** takewhile(lambda m: type(m) != k, s) as a loop: the length of the list it keeps. */
  method LeadingWithout(s: seq<ExportMapping>, k: ExportKind) returns (n: nat)
    ensures n <= |s| && s[..n] == TakeUntil(s, k)
  {
    n := 0;
    while n < |s| && s[n].kind != k
      invariant n <= |s| && Free(s[..n], k)
    {
      n := n + 1;
    }
    TakeUntilStops(s, k, n);
  }

  /** len([m for m in s if type(m) == k]) as a loop. */
  method CountKind(s: seq<ExportMapping>, k: ExportKind) returns (n: nat)
    ensures n == CountExact(s, k)
  {
    n := 0;
    var i := 0;
    while i < |s|
      invariant i <= |s| && n == CountExact(s[..i], k)
    {
      assert s[..i + 1][..i] == s[..i];
      if s[i].kind == k {
        n := n + 1;
      }
      i := i + 1;
    }
    assert s[..i] == s;
  }

  /** The value part below the type mapping, the zip() loop adding one (index name, index) pair per step. */
  method IndexedTail(v: ValueKinds, valuePosition: ExportPosition, names: Option<seq<ExportPosition>>, indexes: seq<ExportPosition>)
    returns (r: Result<seq<ExportMapping>>)
    ensures r == ValueTail(v, valuePosition, names, indexes)
  {
    if indexes == [] {
      return Ok([Plain(v.single, valuePosition)]);
    }
    if names.None? {
      return Err(TypeError(NoneNotIterable));
    }
    var built := [];
    var j := 0;
    while j < |names.value| && j < |indexes|
      invariant j <= |names.value| && j <= |indexes|
      invariant built == IndexPairs(v, names.value, indexes, j)
    {
      built := built + [Plain(v.indexName, names.value[j]), Plain(v.index, indexes[j])];
      j := j + 1;
    }
    return Ok(built + [Plain(v.expanded, valuePosition)]);
  }

  // ---------------------------------------------------------------------------
  // The builders: each returns the root of a new chain

  /** object_export: object class → object. */
  method ObjectExport(classPosition: ExportPosition, objectPosition: ExportPosition) returns (root: ExportChain)
    ensures fresh(root) && root.mappings == [Plain(ObjectClass, classPosition), Plain(Object, objectPosition)]
  {
    root := new ExportChain(Plain(ObjectClass, classPosition));
    root.Link(Plain(Object, objectPosition));
  }

  /** object_parameter_default_value_export: object class → definition → default value part. */
  method ObjectParameterDefaultValueExport(classPosition: ExportPosition, definitionPosition: ExportPosition,
                                           valueTypePosition: ExportPosition, valuePosition: ExportPosition,
                                           names: Option<seq<ExportPosition>>, indexes: seq<ExportPosition>)
    returns (r: Result<ExportChain>)
    ensures var tail := ValueTail(DefaultValueClasses, valuePosition, names, indexes);
      && (tail.Err? ==> r == Err(tail.error))
      && (tail.Ok? ==> (r.Ok? && fresh(r.value) && r.value.mappings ==
            [Plain(ObjectClass, classPosition), Plain(ParameterDefinition, definitionPosition),
             Plain(ParameterDefaultValueType, valueTypePosition)] + tail.value))
  {
    var root := new ExportChain(Plain(ObjectClass, classPosition));
    root.Link(Plain(ParameterDefinition, definitionPosition));
    assert root.mappings == [Plain(ObjectClass, classPosition), Plain(ParameterDefinition, definitionPosition)];
    var error := root.GenerateDefaultValueMappings(valueTypePosition, valuePosition, names, indexes);
    if error.Some? {
      return Err(error.value);
    }
    return Ok(root);
  }

  /** A value list mapping as the parameter builders make it: ignorable. */
  function ValueListMapping(position: ExportPosition): (m: ExportMapping)
    ensures m.kind == ParameterValueList && m.position == position && m.ignorable
  {
    ExportMapping(ParameterValueList, position, true, 0)
  }

  /** object_parameter_export: object class → definition → value list (ignorable) → object → value part. */
  method ObjectParameterExport(classPosition: ExportPosition, definitionPosition: ExportPosition,
                               valueListPosition: ExportPosition, objectPosition: ExportPosition,
                               alternativePosition: ExportPosition, valueTypePosition: ExportPosition,
                               valuePosition: ExportPosition, names: Option<seq<ExportPosition>>,
                               indexes: seq<ExportPosition>)
    returns (r: Result<ExportChain>)
    ensures var tail := ValueTail(ValueClasses, valuePosition, names, indexes);
      && (tail.Err? ==> r == Err(tail.error))
      && (tail.Ok? ==> (r.Ok? && fresh(r.value) && r.value.mappings ==
            [Plain(ObjectClass, classPosition), Plain(ParameterDefinition, definitionPosition),
             ValueListMapping(valueListPosition), Plain(Object, objectPosition)]
            + [Plain(Alternative, alternativePosition), Plain(ParameterValueType, valueTypePosition)] + tail.value))
  {
    var root := new ExportChain(Plain(ObjectClass, classPosition));
    root.Link(Plain(ParameterDefinition, definitionPosition));
    root.Link(ValueListMapping(valueListPosition));
    root.Link(Plain(Object, objectPosition));
    assert root.mappings == [Plain(ObjectClass, classPosition), Plain(ParameterDefinition, definitionPosition),
                             ValueListMapping(valueListPosition), Plain(Object, objectPosition)];
    var error := root.GenerateParameterValueMappings(alternativePosition, valueTypePosition, valuePosition, names, indexes);
    if error.Some? {
      return Err(error.value);
    }
    return Ok(root);
  }

  /** object_group_export: object class → group → member object. */
  method ObjectGroupExport(classPosition: ExportPosition, groupPosition: ExportPosition, objectPosition: ExportPosition)
    returns (root: ExportChain)
    ensures fresh(root) && root.mappings ==
      [Plain(ObjectClass, classPosition), Plain(ObjectGroup, groupPosition), Plain(ObjectGroupObject, objectPosition)]
  {
    root := new ExportChain(Plain(ObjectClass, classPosition));
    root.Link(Plain(ObjectGroup, groupPosition));
    root.Link(Plain(ObjectGroupObject, objectPosition));
  }

  /** relationship_export: relationship class → its object classes → relationship → its objects. */
  method RelationshipExport(relationshipClassPosition: ExportPosition, relationshipPosition: ExportPosition,
                            objectClassPositions: seq<ExportPosition>, objectPositions: seq<ExportPosition>)
    returns (root: ExportChain)
    ensures fresh(root) && root.mappings ==
      [Plain(RelationshipClass, relationshipClassPosition)] + Dimensions(RelationshipClassObjectClass, objectClassPositions)
      + [Plain(Relationship, relationshipPosition)] + Dimensions(RelationshipObject, objectPositions)
  {
    root := new ExportChain(Plain(RelationshipClass, relationshipClassPosition));
    root.GenerateDimensions(RelationshipClassObjectClass, objectClassPositions);
    root.Link(Plain(Relationship, relationshipPosition));
    root.GenerateDimensions(RelationshipObject, objectPositions);
  }

  /** relationship_parameter_default_value_export: relationship class → definition → default value part. */
  method RelationshipParameterDefaultValueExport(relationshipClassPosition: ExportPosition, definitionPosition: ExportPosition,
                                                 valueTypePosition: ExportPosition, valuePosition: ExportPosition,
                                                 names: Option<seq<ExportPosition>>, indexes: seq<ExportPosition>)
    returns (r: Result<ExportChain>)
    ensures var tail := ValueTail(DefaultValueClasses, valuePosition, names, indexes);
      && (tail.Err? ==> r == Err(tail.error))
      && (tail.Ok? ==> (r.Ok? && fresh(r.value) && r.value.mappings ==
            [Plain(RelationshipClass, relationshipClassPosition), Plain(ParameterDefinition, definitionPosition),
             Plain(ParameterDefaultValueType, valueTypePosition)] + tail.value))
  {
    var root := new ExportChain(Plain(RelationshipClass, relationshipClassPosition));
    root.Link(Plain(ParameterDefinition, definitionPosition));
    assert root.mappings == [Plain(RelationshipClass, relationshipClassPosition), Plain(ParameterDefinition, definitionPosition)];
    var error := root.GenerateDefaultValueMappings(valueTypePosition, valuePosition, names, indexes);
    if error.Some? {
      return Err(error.value);
    }
    return Ok(root);
  }

  /**
   * relationship_parameter_export: relationship class → its object classes →
   * definition → value list (ignorable) → relationship → its objects → value part.
   */
  method RelationshipParameterExport(relationshipClassPosition: ExportPosition, definitionPosition: ExportPosition,
                                     valueListPosition: ExportPosition, relationshipPosition: ExportPosition,
                                     objectClassPositions: seq<ExportPosition>, objectPositions: seq<ExportPosition>,
                                     alternativePosition: ExportPosition, valueTypePosition: ExportPosition,
                                     valuePosition: ExportPosition, names: Option<seq<ExportPosition>>,
                                     indexes: seq<ExportPosition>)
    returns (r: Result<ExportChain>)
    ensures var tail := ValueTail(ValueClasses, valuePosition, names, indexes);
      && (tail.Err? ==> r == Err(tail.error))
      && (tail.Ok? ==> (r.Ok? && fresh(r.value) && r.value.mappings ==
            [Plain(RelationshipClass, relationshipClassPosition)] + Dimensions(RelationshipClassObjectClass, objectClassPositions)
            + [Plain(ParameterDefinition, definitionPosition), ValueListMapping(valueListPosition), Plain(Relationship, relationshipPosition)]
            + Dimensions(RelationshipObject, objectPositions)
            + [Plain(Alternative, alternativePosition), Plain(ParameterValueType, valueTypePosition)] + tail.value))
  {
    var root := new ExportChain(Plain(RelationshipClass, relationshipClassPosition));
    root.GenerateDimensions(RelationshipClassObjectClass, objectClassPositions);
    ghost var head := root.mappings;
    root.Link(Plain(ParameterDefinition, definitionPosition));
    root.Link(ValueListMapping(valueListPosition));
    root.Link(Plain(Relationship, relationshipPosition));
    assert root.mappings == head + [Plain(ParameterDefinition, definitionPosition), ValueListMapping(valueListPosition), Plain(Relationship, relationshipPosition)];
    root.GenerateDimensions(RelationshipObject, objectPositions);
    var error := root.GenerateParameterValueMappings(alternativePosition, valueTypePosition, valuePosition, names, indexes);
    if error.Some? {
      return Err(error.value);
    }
    return Ok(root);
  }

  /** A relationship class mapping that highlights one of its dimensions. */
  function Highlighting(position: ExportPosition, highlightDimension: nat): (m: ExportMapping)
    ensures m.kind == RelationshipClassObjectHighlighting && m.position == position && !m.ignorable
    ensures m.highlightDimension == highlightDimension
  {
    ExportMapping(RelationshipClassObjectHighlighting, position, false, highlightDimension)
  }

  /**
   * relationship_object_parameter_default_value_export: highlighting
   * relationship class → definition → the object classes → default value
   * part; the object classes come below the definition.
   */
  method RelationshipObjectParameterDefaultValueExport(relationshipClassPosition: ExportPosition, definitionPosition: ExportPosition,
                                                       objectClassPositions: seq<ExportPosition>,
                                                       valueTypePosition: ExportPosition, valuePosition: ExportPosition,
                                                       names: Option<seq<ExportPosition>>, indexes: seq<ExportPosition>,
                                                       highlightDimension: nat)
    returns (r: Result<ExportChain>)
    ensures var tail := ValueTail(DefaultValueClasses, valuePosition, names, indexes);
      && (tail.Err? ==> r == Err(tail.error))
      && (tail.Ok? ==> (r.Ok? && fresh(r.value) && r.value.mappings ==
            [Highlighting(relationshipClassPosition, highlightDimension), Plain(ParameterDefinition, definitionPosition)]
            + Dimensions(RelationshipClassObjectClass, objectClassPositions)
            + [Plain(ParameterDefaultValueType, valueTypePosition)] + tail.value))
  {
    var root := new ExportChain(Highlighting(relationshipClassPosition, highlightDimension));
    root.Link(Plain(ParameterDefinition, definitionPosition));
    root.GenerateDimensions(RelationshipClassObjectClass, objectClassPositions);
    ghost var head := root.mappings;
    assert head == [Highlighting(relationshipClassPosition, highlightDimension), Plain(ParameterDefinition, definitionPosition)]
                   + Dimensions(RelationshipClassObjectClass, objectClassPositions);
    var error := root.GenerateDefaultValueMappings(valueTypePosition, valuePosition, names, indexes);
    if error.Some? {
      return Err(error.value);
    }
    return Ok(root);
  }

  /**
   * relationship_object_parameter_export: as relationship_parameter_export,
   * with highlighting relationship class and relationship mappings.
   */
  method RelationshipObjectParameterExport(relationshipClassPosition: ExportPosition, definitionPosition: ExportPosition,
                                           valueListPosition: ExportPosition, relationshipPosition: ExportPosition,
                                           objectClassPositions: seq<ExportPosition>, objectPositions: seq<ExportPosition>,
                                           alternativePosition: ExportPosition, valueTypePosition: ExportPosition,
                                           valuePosition: ExportPosition, names: Option<seq<ExportPosition>>,
                                           indexes: seq<ExportPosition>, highlightDimension: nat)
    returns (r: Result<ExportChain>)
    ensures var tail := ValueTail(ValueClasses, valuePosition, names, indexes);
      && (tail.Err? ==> r == Err(tail.error))
      && (tail.Ok? ==> (r.Ok? && fresh(r.value) && r.value.mappings ==
            [Highlighting(relationshipClassPosition, highlightDimension)] + Dimensions(RelationshipClassObjectClass, objectClassPositions)
            + [Plain(ParameterDefinition, definitionPosition), ValueListMapping(valueListPosition),
               Plain(RelationshipObjectHighlighting, relationshipPosition)]
            + Dimensions(RelationshipObject, objectPositions)
            + [Plain(Alternative, alternativePosition), Plain(ParameterValueType, valueTypePosition)] + tail.value))
  {
    var root := new ExportChain(Highlighting(relationshipClassPosition, highlightDimension));
    root.GenerateDimensions(RelationshipClassObjectClass, objectClassPositions);
    ghost var head := root.mappings;
    root.Link(Plain(ParameterDefinition, definitionPosition));
    root.Link(ValueListMapping(valueListPosition));
    root.Link(Plain(RelationshipObjectHighlighting, relationshipPosition));
    assert root.mappings == head + [Plain(ParameterDefinition, definitionPosition), ValueListMapping(valueListPosition),
                                    Plain(RelationshipObjectHighlighting, relationshipPosition)];
    root.GenerateDimensions(RelationshipObject, objectPositions);
    var error := root.GenerateParameterValueMappings(alternativePosition, valueTypePosition, valuePosition, names, indexes);
    if error.Some? {
      return Err(error.value);
    }
    return Ok(root);
  }

  /** alternative_export: alternative → description. */
  method AlternativeExport(alternativePosition: ExportPosition, descriptionPosition: ExportPosition) returns (root: ExportChain)
    ensures fresh(root) && root.mappings == [Plain(Alternative, alternativePosition), Plain(AlternativeDescription, descriptionPosition)]
  {
    root := new ExportChain(Plain(Alternative, alternativePosition));
    root.Link(Plain(AlternativeDescription, descriptionPosition));
  }

  /** scenario_export: scenario → active flag → description. */
  method ScenarioExport(scenarioPosition: ExportPosition, activeFlagPosition: ExportPosition, descriptionPosition: ExportPosition)
    returns (root: ExportChain)
    ensures fresh(root) && root.mappings ==
      [Plain(Scenario, scenarioPosition), Plain(ScenarioActiveFlag, activeFlagPosition), Plain(ScenarioDescription, descriptionPosition)]
  {
    root := new ExportChain(Plain(Scenario, scenarioPosition));
    root.Link(Plain(ScenarioActiveFlag, activeFlagPosition));
    root.Link(Plain(ScenarioDescription, descriptionPosition));
  }

  /** scenario_alternative_export: scenario → alternative → the alternative it goes before. */
  method ScenarioAlternativeExport(scenarioPosition: ExportPosition, alternativePosition: ExportPosition,
                                   beforeAlternativePosition: ExportPosition)
    returns (root: ExportChain)
    ensures fresh(root) && root.mappings ==
      [Plain(Scenario, scenarioPosition), Plain(ScenarioAlternative, alternativePosition),
       Plain(ScenarioBeforeAlternative, beforeAlternativePosition)]
  {
    root := new ExportChain(Plain(Scenario, scenarioPosition));
    root.Link(Plain(ScenarioAlternative, alternativePosition));
    root.Link(Plain(ScenarioBeforeAlternative, beforeAlternativePosition));
  }

  /** parameter_value_list_export: value list → its values. */
  method ParameterValueListExport(valueListPosition: ExportPosition, valuePosition: ExportPosition) returns (root: ExportChain)
    ensures fresh(root) && root.mappings == [Plain(ParameterValueList, valueListPosition), Plain(ParameterValueListValue, valuePosition)]
  {
    root := new ExportChain(Plain(ParameterValueList, valueListPosition));
    root.Link(Plain(ParameterValueListValue, valuePosition));
  }

  /** feature_export: entity class → parameter definition. */
  method FeatureExport(classPosition: ExportPosition, definitionPosition: ExportPosition) returns (root: ExportChain)
    ensures fresh(root) && root.mappings == [Plain(FeatureEntityClass, classPosition), Plain(FeatureParameterDefinition, definitionPosition)]
  {
    root := new ExportChain(Plain(FeatureEntityClass, classPosition));
    root.Link(Plain(FeatureParameterDefinition, definitionPosition));
  }

  /** tool_export: a lone tool mapping. */
  method ToolExport(toolPosition: ExportPosition) returns (root: ExportChain)
    ensures fresh(root) && root.mappings == [Plain(Tool, toolPosition)]
  {
    root := new ExportChain(Plain(Tool, toolPosition));
  }

  /** tool_feature_export: tool → entity class → parameter definition → required flag. */
  method ToolFeatureExport(toolPosition: ExportPosition, classPosition: ExportPosition, definitionPosition: ExportPosition,
                           requiredFlagPosition: ExportPosition)
    returns (root: ExportChain)
    ensures fresh(root) && root.mappings ==
      [Plain(Tool, toolPosition), Plain(ToolFeatureEntityClass, classPosition),
       Plain(ToolFeatureParameterDefinition, definitionPosition), Plain(ToolFeatureRequiredFlag, requiredFlagPosition)]
  {
    root := new ExportChain(Plain(Tool, toolPosition));
    root.Link(Plain(ToolFeatureEntityClass, classPosition));
    root.Link(Plain(ToolFeatureParameterDefinition, definitionPosition));
    root.Link(Plain(ToolFeatureRequiredFlag, requiredFlagPosition));
  }

  /** tool_feature_method_export: tool → entity class → parameter definition → method. */
  method ToolFeatureMethodExport(toolPosition: ExportPosition, classPosition: ExportPosition, definitionPosition: ExportPosition,
                                 methodPosition: ExportPosition)
    returns (root: ExportChain)
    ensures fresh(root) && root.mappings ==
      [Plain(Tool, toolPosition), Plain(ToolFeatureMethodEntityClass, classPosition),
       Plain(ToolFeatureMethodParameterDefinition, definitionPosition), Plain(ToolFeatureMethodMethod, methodPosition)]
  {
    root := new ExportChain(Plain(Tool, toolPosition));
    root.Link(Plain(ToolFeatureMethodEntityClass, classPosition));
    root.Link(Plain(ToolFeatureMethodParameterDefinition, definitionPosition));
    root.Link(Plain(ToolFeatureMethodMethod, methodPosition));
  }

  // ---------------------------------------------------------------------------
  // set_relationship_dimensions: resizing a run of consecutive mappings

  /** The last mapping that is an instance of after, if there is one. */
  function ParentIndex(s: seq<ExportMapping>, after: ExportKind): (r: Option<nat>)
    ensures r.Some? ==> r.value < |s| && IsA(s[r.value].kind, after)
    ensures r.Some? ==> forall j :: r.value < j < |s| ==> !IsA(s[j].kind, after)
    ensures r.None? ==> forall j :: 0 <= j < |s| ==> !IsA(s[j].kind, after)
  {
    if s == [] then None
    else if IsA(s[|s| - 1].kind, after) then Some(|s| - 1)
    else ParentIndex(s[..|s| - 1], after)
  }

  /** A mapping the run counts: an instance of the run's class that is not one of the parent's. */
  predicate InRun(m: ExportMapping, after: ExportKind, run: ExportKind)
  {
    !IsA(m.kind, after) && IsA(m.kind, run)
  }

  /** How many mappings of a list the run counts. */
  function OldCount(s: seq<ExportMapping>, after: ExportKind, run: ExportKind): (n: nat)
    ensures n <= |s|
  {
    if s == [] then 0 else OldCount(s[..|s| - 1], after, run) + (if InRun(s[|s| - 1], after, run) then 1 else 0)
  }

  /** n hidden mappings of a class. */
  function HiddenRun(kind: ExportKind, n: int): (r: seq<ExportMapping>)
    ensures |r| == if n < 0 then 0 else n
    ensures forall j :: 0 <= j < |r| ==> r[j] == Plain(kind, Hidden)
  {
    if n <= 0 then [] else HiddenRun(kind, n - 1) + [Plain(kind, Hidden)]
  }

  function MinInt(a: int, b: int): int { if a < b then a else b }

  const NonePlusInt := "unsupported operand type(s) for +: 'NoneType' and 'int'"

  /**
   * _change_amount_of_consecutive_mappings: everything up to the last parent
   * mapping, then the first min(count, existing) mappings after it, then
   * count - existing hidden ones if the run is too short, then whatever came
   * after the existing run. Without a parent mapping, None + 1 raises TypeError.
   */
  function Consecutive(s: seq<ExportMapping>, after: ExportKind, run: ExportKind, count: int): (r: Result<seq<ExportMapping>>)
    ensures ParentIndex(s, after).None? <==> r.Err?
  {
    var parent := ParentIndex(s, after);
    if parent.None? then Err(TypeError(NonePlusInt))
    else
      var first := parent.value + 1;
      var existing := OldCount(s, after, run);
      Ok(Take(s, first + MinInt(count, existing)) + HiddenRun(run, count - existing) + Drop(s, first + existing))
  }

  /** One more mapping of the list: how the parent index and the run count move on. */
  lemma PrefixStep(s: seq<ExportMapping>, i: nat, after: ExportKind, run: ExportKind)
    requires i < |s|
    ensures ParentIndex(s[..i + 1], after) == if IsA(s[i].kind, after) then Some(i) else ParentIndex(s[..i], after)
    ensures OldCount(s[..i + 1], after, run) == OldCount(s[..i], after, run) + if InRun(s[i], after, run) then 1 else 0
  {
    assert s[..i + 1][..i] == s[..i];
  }

  /** The loop of _change_amount_of_consecutive_mappings: the last parent mapping and the length of the run. */
  method ScanRun(s: seq<ExportMapping>, after: ExportKind, run: ExportKind) returns (parent: Option<nat>, existing: nat)
    ensures parent == ParentIndex(s, after) && existing == OldCount(s, after, run)
  {
    parent := None;
    existing := 0;
    var i := 0;
    while i < |s|
      invariant i <= |s|
      invariant parent == ParentIndex(s[..i], after) && existing == OldCount(s[..i], after, run)
    {
      PrefixStep(s, i, after, run);
      if IsA(s[i].kind, after) {
        parent := Some(i);
      } else if IsA(s[i].kind, run) {
        existing := existing + 1;
      }
      i := i + 1;
    }
    assert s[..i] == s;
  }

  /** _change_amount_of_consecutive_mappings. */
  method ChangeConsecutive(s: seq<ExportMapping>, after: ExportKind, run: ExportKind, count: int)
    returns (r: Result<seq<ExportMapping>>)
    ensures r == Consecutive(s, after, run, count)
  {
    var parent, existing := ScanRun(s, after, run);
    if parent.None? {
      return Err(TypeError(NonePlusInt));
    }
    var first := parent.value + 1;
    return Ok(Take(s, first + MinInt(count, existing)) + HiddenRun(run, count - existing) + Drop(s, first + existing));
  }

  /** An instance of cls somewhere in the list: any(isinstance(m, cls) for m in s). */
  method AnyInstance(s: seq<ExportMapping>, cls: ExportKind) returns (found: bool)
    ensures found <==> exists j :: 0 <= j < |s| && IsA(s[j].kind, cls)
  {
    var i := 0;
    while i < |s|
      invariant i <= |s|
      invariant forall j :: 0 <= j < i ==> !IsA(s[j].kind, cls)
    {
      if IsA(s[i].kind, cls) {
        return true;
      }
      i := i + 1;
    }
    return false;
  }

  /**
   * set_relationship_dimensions: resize the object class run after the
   * relationship class mapping, then, if there is a relationship mapping,
   * the object run after it.
   */
  function RelationshipDimensions(s: seq<ExportMapping>, dimensions: int): (r: Result<seq<ExportMapping>>)
    ensures r.Err? <==> ParentIndex(s, RelationshipClass).None?
  {
    var classes := Consecutive(s, RelationshipClass, RelationshipClassObjectClass, dimensions);
    if classes.Err? then classes
    else if ParentIndex(classes.value, Relationship).Some? then Consecutive(classes.value, Relationship, RelationshipObject, dimensions)
    else classes
  }

  // ---------------------------------------------------------------------------
  // set_parameter_dimensions and set_parameter_default_value_dimensions

  /** n hidden (index name, index) pairs, as the zip() of the two new lists makes them. */
  function HiddenPairs(v: ValueKinds, n: nat): (r: seq<ExportMapping>)
    ensures |r| == 2 * n
    ensures forall j :: 0 <= j < |r| ==> r[j] == Plain(if j % 2 == 0 then v.indexName else v.index, Hidden)
  {
    if n == 0 then [] else HiddenPairs(v, n - 1) + [Plain(v.indexName, Hidden), Plain(v.index, Hidden)]
  }

  /**
   * _change_amount_of_dimensions on a flattened chain: the new chain, or None
   * when the chain is left as it is. Zero dimensions cut the chain at the
   * first index name mapping and end it with a single value mapping, but
   * only if it ends with an expanded one. Otherwise a single value mapping at
   * the end is replaced by an expanded one, and hidden pairs are inserted
   * before it or pairs are cut off before it until there are as many index
   * mappings as dimensions; with as many already the replacement is lost, as
   * the modified list is never unflattened.
   */
  function ChangedDimensions(s: seq<ExportMapping>, dimensions: int, v: ValueKinds): (r: Option<seq<ExportMapping>>)
    requires |s| > 0
    ensures dimensions == 0 ==> (r.Some? <==> s[|s| - 1].kind == v.expanded)
    ensures r.Some? ==> |r.value| > 0
  {
    var last := s[|s| - 1];
    if dimensions == 0 then
      if last.kind == v.expanded then Some(TakeUntil(s, v.indexName) + [Plain(v.single, last.position)]) else None
    else
      var tail := if last.kind == v.single then Plain(v.expanded, last.position) else last;
      var list := s[..|s| - 1] + [tail];
      var existing := CountExact(list, v.index);
      if existing < dimensions then Some(s[..|s| - 1] + HiddenPairs(v, dimensions - existing) + [tail])
      else if existing > dimensions then Some(Take(list, -2 * (existing - dimensions) - 1) + [tail])
      else None
  }

  /** The list of the mappings before the first one of class k, found by a loop as takewhile does. */
  lemma TakeUntilStops(s: seq<ExportMapping>, k: ExportKind, n: nat)
    requires n <= |s| && Free(s[..n], k)
    requires n < |s| ==> s[n].kind == k
    ensures TakeUntil(s, k) == s[..n]
  {
  }

  // ---------------------------------------------------------------------------
  // What resizing does to a chain

  lemma {:induction false} OldCountAppend(a: seq<ExportMapping>, b: seq<ExportMapping>, after: ExportKind, run: ExportKind)
    ensures OldCount(a + b, after, run) == OldCount(a, after, run) + OldCount(b, after, run)
    decreases |b|
  {
    if b == [] {
      assert a + b == a;
    } else {
      assert (a + b)[..|a + b| - 1] == a + b[..|b| - 1];
      OldCountAppend(a, b[..|b| - 1], after, run);
    }
  }

  /** The last parent mapping ends p when no parent mapping comes after it. */
  lemma ParentEnds(p: seq<ExportMapping>, t: seq<ExportMapping>, after: ExportKind)
    requires |p| > 0 && IsA(p[|p| - 1].kind, after)
    requires ParentIndex(t, after).None?
    ensures ParentIndex(p + t, after) == Some(|p| - 1)
  {
    assert (p + t)[|p| - 1] == p[|p| - 1];
  }

  /** Two lists without a parent mapping make one. */
  lemma NoParentAppend(a: seq<ExportMapping>, b: seq<ExportMapping>, after: ExportKind)
    requires ParentIndex(a, after).None? && ParentIndex(b, after).None?
    ensures ParentIndex(a + b, after).None?
  {
  }

  /** A list of mappings of one class: the run counts all of them or none. */
  lemma {:induction false} UniformCount(s: seq<ExportMapping>, kind: ExportKind, after: ExportKind, run: ExportKind)
    requires forall j :: 0 <= j < |s| ==> s[j].kind == kind
    ensures OldCount(s, after, run) == if !IsA(kind, after) && IsA(kind, run) then |s| else 0
    decreases |s|
  {
    if s != [] {
      var init := s[..|s| - 1];
      assert forall j :: 0 <= j < |init| ==> init[j].kind == kind;
      UniformCount(init, kind, after, run);
      assert InRun(s[|s| - 1], after, run) == (!IsA(kind, after) && IsA(kind, run));
      assert OldCount(s, after, run) == OldCount(init, after, run) + if InRun(s[|s| - 1], after, run) then 1 else 0;
    }
  }

  /** A list of mappings of one class that is not the parent's holds no parent mapping. */
  lemma UniformNoParent(s: seq<ExportMapping>, kind: ExportKind, after: ExportKind)
    requires forall j :: 0 <= j < |s| ==> s[j].kind == kind
    requires !IsA(kind, after)
    ensures ParentIndex(s, after).None?
  {
  }

  /** A list the run counts as a whole: so does every prefix of it. */
  lemma KeptCount(q: seq<ExportMapping>, m: nat, after: ExportKind, run: ExportKind)
    requires m <= |q| && OldCount(q, after, run) == |q|
    ensures OldCount(q[..m], after, run) == m
  {
    assert q[..m] + q[m..] == q;
    OldCountAppend(q[..m], q[m..], after, run);
  }

  /**
   * Resizing the run q that follows the last parent mapping (the end of p):
   * the first count mappings of the run are kept, hidden ones make up for a
   * run that is too short, and what follows the run is kept.
   */
  lemma ConsecutiveRun(p: seq<ExportMapping>, q: seq<ExportMapping>, t: seq<ExportMapping>, after: ExportKind, run: ExportKind, count: nat)
    requires |p| > 0 && IsA(p[|p| - 1].kind, after) && ParentIndex(q + t, after).None?
    requires OldCount(p, after, run) == 0 && OldCount(q, after, run) == |q| && OldCount(t, after, run) == 0
    ensures Consecutive(p + q + t, after, run, count) == Ok(p + q[..Min(count, |q|)] + HiddenRun(run, count - |q|) + t)
  {
    ParentEndsFirst(p, q, t, after);
    OldCountThree(p, q, t, after, run);
    ConsecutiveCut(p, q, t, after, run, count);
  }

  /** The parent mapping that ends p is the last one of p + q + t when q + t holds none. */
  lemma ParentEndsFirst(p: seq<ExportMapping>, q: seq<ExportMapping>, t: seq<ExportMapping>, after: ExportKind)
    requires |p| > 0 && IsA(p[|p| - 1].kind, after) && ParentIndex(q + t, after).None?
    ensures ParentIndex(p + q + t, after) == Some(|p| - 1)
  {
    ParentEnds(p, q + t, after);
    assert p + q + t == p + (q + t);
  }

  /** The run count of three lists put together. */
  lemma OldCountThree(p: seq<ExportMapping>, q: seq<ExportMapping>, t: seq<ExportMapping>, after: ExportKind, run: ExportKind)
    ensures OldCount(p + q + t, after, run) == OldCount(p, after, run) + OldCount(q, after, run) + OldCount(t, after, run)
  {
    OldCountAppend(p + q, t, after, run);
    OldCountAppend(p, q, after, run);
  }

  /** The cut Consecutive makes, once the parent mapping ends p and the run is q. */
  lemma ConsecutiveCut(p: seq<ExportMapping>, q: seq<ExportMapping>, t: seq<ExportMapping>, after: ExportKind, run: ExportKind, count: nat)
    requires |p| > 0
    requires ParentIndex(p + q + t, after) == Some(|p| - 1) && OldCount(p + q + t, after, run) == |q|
    ensures Consecutive(p + q + t, after, run, count) == Ok(p + q[..Min(count, |q|)] + HiddenRun(run, count - |q|) + t)
  {
    ConsecutiveAt(p + q + t, after, run, count, |p| - 1, |q|);
    assert |p| - 1 + 1 + MinInt(count, |q|) == |p| + Min(count, |q|);
    TakeDropCut(p, q, t, Min(count, |q|));
  }

  /** Consecutive once the parent index and the length of the run are known. */
  lemma ConsecutiveAt(s: seq<ExportMapping>, after: ExportKind, run: ExportKind, count: int, parent: nat, existing: nat)
    requires ParentIndex(s, after) == Some(parent) && OldCount(s, after, run) == existing
    ensures Consecutive(s, after, run, count)
         == Ok(Take(s, parent + 1 + MinInt(count, existing)) + HiddenRun(run, count - existing) + Drop(s, parent + 1 + existing))
  {
  }

  lemma TakeDropCut(p: seq<ExportMapping>, q: seq<ExportMapping>, t: seq<ExportMapping>, m: nat)
    requires m <= |q|
    ensures Take(p + q + t, |p| + m) == p + q[..m]
    ensures Drop(p + q + t, |p| + |q|) == t
  {
    var s := p + q + t;
    assert s[..|p| + m] == p + q[..m];
    assert s[|p| + |q|..] == t;
  }

  /** After the resize the run holds exactly count mappings. */
  lemma ConsecutiveRunLength(p: seq<ExportMapping>, q: seq<ExportMapping>, t: seq<ExportMapping>, after: ExportKind, run: ExportKind, count: nat)
    requires !IsA(run, after)
    requires OldCount(p, after, run) == 0 && OldCount(q, after, run) == |q| && OldCount(t, after, run) == 0
    ensures OldCount(p + q[..Min(count, |q|)] + HiddenRun(run, count - |q|) + t, after, run) == count
  {
    var m := Min(count, |q|);
    var kept := q[..m];
    var hidden := HiddenRun(run, count - |q|);
    var a := p + kept;
    var b := a + hidden;
    KeptCount(q, m, after, run);
    OldCountAppend(p, kept, after, run);
    HiddenCount(run, count - |q|, after);
    OldCountAppend(a, hidden, after, run);
    OldCountAppend(b, t, after, run);
  }

  lemma HiddenCount(run: ExportKind, n: int, after: ExportKind)
    requires !IsA(run, after)
    ensures OldCount(HiddenRun(run, n), after, run) == if n < 0 then 0 else n
  {
    UniformCount(HiddenRun(run, n), run, after, run);
  }

  /** Every mapping of the list is of the class. */
  predicate OfKind(s: seq<ExportMapping>, kind: ExportKind)
  {
    forall j :: 0 <= j < |s| ==> s[j].kind == kind
  }

  /** The first step of set_relationship_dimensions: the object classes after the relationship class mapping. */
  lemma RelationshipClassesResized(c: ExportMapping, classes: seq<ExportMapping>, r: ExportMapping, objects: seq<ExportMapping>, d: nat)
    requires c.kind == RelationshipClass && OfKind(classes, RelationshipClassObjectClass)
    requires r.kind == Relationship && OfKind(objects, RelationshipObject)
    ensures Consecutive([c] + classes + ([r] + objects), RelationshipClass, RelationshipClassObjectClass, d)
         == Ok([c] + classes[..Min(d, |classes|)] + HiddenRun(RelationshipClassObjectClass, d - |classes|) + ([r] + objects))
  {
    UniformCount([c], RelationshipClass, RelationshipClass, RelationshipClassObjectClass);
    UniformCount(classes, RelationshipClassObjectClass, RelationshipClass, RelationshipClassObjectClass);
    UniformCount([r], Relationship, RelationshipClass, RelationshipClassObjectClass);
    UniformCount(objects, RelationshipObject, RelationshipClass, RelationshipClassObjectClass);
    UniformNoParent(classes, RelationshipClassObjectClass, RelationshipClass);
    UniformNoParent([r], Relationship, RelationshipClass);
    UniformNoParent(objects, RelationshipObject, RelationshipClass);
    NoParentAppend([r], objects, RelationshipClass);
    NoParentAppend(classes, [r] + objects, RelationshipClass);
    OldCountAppend([r], objects, RelationshipClass, RelationshipClassObjectClass);
    ConsecutiveRun([c], classes, [r] + objects, RelationshipClass, RelationshipClassObjectClass, d);
  }

  /** The second step: the objects after the relationship mapping. */
  lemma RelationshipObjectsResized(c: ExportMapping, classes: seq<ExportMapping>, r: ExportMapping, objects: seq<ExportMapping>, d: nat)
    requires c.kind == RelationshipClass && OfKind(classes, RelationshipClassObjectClass)
    requires r.kind == Relationship && OfKind(objects, RelationshipObject)
    ensures ParentIndex([c] + classes + [r] + objects, Relationship).Some?
    ensures Consecutive([c] + classes + [r] + objects, Relationship, RelationshipObject, d)
         == Ok([c] + classes + [r] + objects[..Min(d, |objects|)] + HiddenRun(RelationshipObject, d - |objects|))
  {
    var p := [c] + classes + [r];
    ObjectsCounted(c, classes, r, objects);
    assert p + objects + [] == p + objects;
    ConsecutiveRun(p, objects, [], Relationship, RelationshipObject, d);
    ParentEnds(p, objects, Relationship);
    assert p + objects[..Min(d, |objects|)] + HiddenRun(RelationshipObject, d - |objects|) + []
        == p + objects[..Min(d, |objects|)] + HiddenRun(RelationshipObject, d - |objects|);
  }

  /** What the second step counts: the objects, and nothing before the relationship mapping. */
  lemma ObjectsCounted(c: ExportMapping, classes: seq<ExportMapping>, r: ExportMapping, objects: seq<ExportMapping>)
    requires c.kind == RelationshipClass && OfKind(classes, RelationshipClassObjectClass)
    requires r.kind == Relationship && OfKind(objects, RelationshipObject)
    ensures OldCount([c] + classes + [r], Relationship, RelationshipObject) == 0
    ensures OldCount(objects, Relationship, RelationshipObject) == |objects|
    ensures OldCount([], Relationship, RelationshipObject) == 0
    ensures ParentIndex(objects, Relationship).None? && objects + [] == objects
  {
    UniformCount([c], RelationshipClass, Relationship, RelationshipObject);
    UniformCount(classes, RelationshipClassObjectClass, Relationship, RelationshipObject);
    UniformCount([r], Relationship, Relationship, RelationshipObject);
    UniformCount(objects, RelationshipObject, Relationship, RelationshipObject);
    UniformNoParent(objects, RelationshipObject, Relationship);
    OldCountAppend([c], classes, Relationship, RelationshipObject);
    OldCountAppend([c] + classes, [r], Relationship, RelationshipObject);
  }

  /** set_relationship_dimensions as its two steps, when there is a relationship mapping after the first. */
  lemma RelationshipSteps(s: seq<ExportMapping>, d: int, mid: seq<ExportMapping>, result: seq<ExportMapping>)
    requires Consecutive(s, RelationshipClass, RelationshipClassObjectClass, d) == Ok(mid)
    requires ParentIndex(mid, Relationship).Some?
    requires Consecutive(mid, Relationship, RelationshipObject, d) == Ok(result)
    ensures RelationshipDimensions(s, d) == Ok(result)
  {
  }

  /** The kept mappings of a run and the hidden ones added to it are all of the run's class. */
  lemma ResizedKinds(kept: seq<ExportMapping>, hidden: seq<ExportMapping>, kind: ExportKind)
    requires OfKind(kept, kind) && OfKind(hidden, kind)
    ensures OfKind(kept + hidden, kind)
  {
    assert forall j :: 0 <= j < |kept + hidden| ==> (kept + hidden)[j] == if j < |kept| then kept[j] else hidden[j - |kept|];
  }

  lemma Regroup(a: seq<ExportMapping>, b: seq<ExportMapping>, c: seq<ExportMapping>, d: seq<ExportMapping>, e: seq<ExportMapping>)
    ensures a + b + c + (d + e) == a + (b + c) + d + e
    ensures a + b + (d + e) == a + b + d + e
  {
  }

  lemma Regroup6(a: seq<ExportMapping>, b: seq<ExportMapping>, c: seq<ExportMapping>, d: seq<ExportMapping>, e: seq<ExportMapping>, f: seq<ExportMapping>)
    ensures a + (b + c) + d + e + f == a + b + c + d + e + f
  {
  }

  /** Both steps, as the facts set_relationship_dimensions is made of. */
  lemma RelationshipStepsResized(c: ExportMapping, classes: seq<ExportMapping>, r: ExportMapping, objects: seq<ExportMapping>, d: nat)
    requires c.kind == RelationshipClass && OfKind(classes, RelationshipClassObjectClass)
    requires r.kind == Relationship && OfKind(objects, RelationshipObject)
    ensures var mid := [c] + (classes[..Min(d, |classes|)] + HiddenRun(RelationshipClassObjectClass, d - |classes|)) + [r] + objects;
      && Consecutive([c] + classes + [r] + objects, RelationshipClass, RelationshipClassObjectClass, d) == Ok(mid)
      && ParentIndex(mid, Relationship).Some?
      && Consecutive(mid, Relationship, RelationshipObject, d)
         == Ok([c] + classes[..Min(d, |classes|)] + HiddenRun(RelationshipClassObjectClass, d - |classes|)
               + [r] + objects[..Min(d, |objects|)] + HiddenRun(RelationshipObject, d - |objects|))
  {
    Regroup([c], classes, [], [r], objects);
    RelationshipClassesResized(c, classes, r, objects, d);
    var kept := classes[..Min(d, |classes|)];
    var hidden := HiddenRun(RelationshipClassObjectClass, d - |classes|);
    assert OfKind(kept, RelationshipClassObjectClass);
    ResizedKinds(kept, hidden, RelationshipClassObjectClass);
    Regroup([c], kept, hidden, [r], objects);
    RelationshipObjectsResized(c, kept + hidden, r, objects, d);
    Regroup6([c], kept, hidden, [r], objects[..Min(d, |objects|)], HiddenRun(RelationshipObject, d - |objects|));
  }

  /**
   * set_relationship_dimensions on a relationship class mapping, its object
   * class mappings, a relationship mapping and its object mappings, the
   * chain relationship_export makes: the first d object classes and objects
   * are kept, and hidden ones are added until there are d of each.
   */
  lemma RelationshipResized(c: ExportMapping, classes: seq<ExportMapping>, r: ExportMapping, objects: seq<ExportMapping>, d: nat)
    requires c.kind == RelationshipClass && OfKind(classes, RelationshipClassObjectClass)
    requires r.kind == Relationship && OfKind(objects, RelationshipObject)
    ensures RelationshipDimensions([c] + classes + [r] + objects, d)
         == Ok([c] + classes[..Min(d, |classes|)] + HiddenRun(RelationshipClassObjectClass, d - |classes|)
               + [r] + objects[..Min(d, |objects|)] + HiddenRun(RelationshipObject, d - |objects|))
  {
    RelationshipStepsResized(c, classes, r, objects, d);
    RelationshipSteps([c] + classes + [r] + objects, d,
                      [c] + (classes[..Min(d, |classes|)] + HiddenRun(RelationshipClassObjectClass, d - |classes|)) + [r] + objects,
                      [c] + classes[..Min(d, |classes|)] + HiddenRun(RelationshipClassObjectClass, d - |classes|)
                      + [r] + objects[..Min(d, |objects|)] + HiddenRun(RelationshipObject, d - |objects|));
  }

  /** Alternating index name and index mappings: the pairs the parameter value chains hold. */
  predicate PairRun(v: ValueKinds, q: seq<ExportMapping>)
  {
    |q| % 2 == 0 && forall j :: 0 <= j < |q| ==> q[j].kind == if j % 2 == 0 then v.indexName else v.index
  }

  /** A run of pairs holds one index mapping per pair. */
  lemma {:induction false} PairRunCount(v: ValueKinds, q: seq<ExportMapping>)
    requires Distinct4(v) && PairRun(v, q)
    ensures CountExact(q, v.index) == |q| / 2
    decreases |q|
  {
    if q != [] {
      var h := q[..|q| - 2];
      assert PairRun(v, h);
      PairRunCount(v, h);
      assert q[..|q| - 1][..|q| - 2] == h;
    }
  }

  /**
   * Giving a chain that ends with a single value mapping d > 0 dimensions:
   * d hidden pairs, then an expanded value mapping at the same position.
   */
  lemma Expand(v: ValueKinds, p: seq<ExportMapping>, last: ExportMapping, d: int)
    requires Distinct4(v) && Free(p, v.index) && last.kind == v.single && d > 0
    ensures ChangedDimensions(p + [last], d, v) == Some(p + HiddenPairs(v, d) + [Plain(v.expanded, last.position)])
  {
    var s := p + [last];
    assert s[..|s| - 1] == p;
    var e := [Plain(v.expanded, last.position)];
    CountExactAppend(p, e, v.index);
    CountExactFree(p, v.index);
    assert e[..0] == [];
  }

  /**
   * Zero dimensions for a chain ending with pairs and an expanded value
   * mapping: the pairs go, and a single value mapping at the same position
   * ends the chain.
   */
  lemma Collapse(v: ValueKinds, p: seq<ExportMapping>, q: seq<ExportMapping>, last: ExportMapping)
    requires Distinct4(v) && Free(p, v.indexName) && PairRun(v, q) && q != [] && last.kind == v.expanded
    ensures ChangedDimensions(p + q + [last], 0, v) == Some(p + [Plain(v.single, last.position)])
  {
    var s := p + q + [last];
    assert s[..|p|] == p;
    assert s[|p|] == q[0];
    TakeUntilStops(s, v.indexName, |p|);
  }

  /**
   * Zero dimensions for a chain whose expanded value mapping has no pairs
   * above it: takewhile() finds no index name mapping, so the expanded
   * mapping stays and the single value mapping comes after it.
   */
  lemma CollapseWithoutPairs(v: ValueKinds, p: seq<ExportMapping>, last: ExportMapping)
    requires Distinct4(v) && Free(p, v.indexName) && last.kind == v.expanded
    ensures ChangedDimensions(p + [last], 0, v) == Some(p + [last, Plain(v.single, last.position)])
  {
    var s := p + [last];
    assert s[..|s|] == s;
    assert Free(s, v.indexName) by {
      forall j | 0 <= j < |s|
        ensures s[j].kind != v.indexName
      {
        if j < |p| {
          assert s[j] == p[j];
        }
      }
    }
    TakeUntilStops(s, v.indexName, |s|);
    assert s + [Plain(v.single, last.position)] == p + [last, Plain(v.single, last.position)];
  }

  /** Pairs followed by pairs are a run of pairs. */
  lemma PairRunAppend(v: ValueKinds, a: seq<ExportMapping>, b: seq<ExportMapping>)
    requires PairRun(v, a) && PairRun(v, b)
    ensures PairRun(v, a + b)
  {
    forall j | |a| <= j < |a + b|
      ensures (a + b)[j].kind == if j % 2 == 0 then v.indexName else v.index
    {
      assert (a + b)[j] == b[j - |a|];
      assert (j - |a|) % 2 == j % 2;
    }
  }

  /**
   * d > 0 dimensions for a chain ending with k pairs and an expanded value
   * mapping: hidden pairs are added before the value mapping when k < d, the
   * last k - d pairs go when k > d, and nothing changes when k == d.
   */
  lemma Resize(v: ValueKinds, p: seq<ExportMapping>, q: seq<ExportMapping>, last: ExportMapping, d: int)
    requires Distinct4(v) && Free(p, v.index) && PairRun(v, q) && last.kind == v.expanded && d > 0
    ensures var k := |q| / 2;
      var c := ChangedDimensions(p + q + [last], d, v);
      && (k < d ==> c == Some(p + q + HiddenPairs(v, d - k) + [last]))
      && (k > d ==> c == Some(p + q[..2 * d] + [last]))
      && (k == d ==> c == None)
  {
    var s := p + q + [last];
    assert s[..|s| - 1] == p + q;
    CountExactAppend(p + q, [last], v.index);
    CountExactAppend(p, q, v.index);
    CountExactFree(p, v.index);
    PairRunCount(v, q);
    assert [last][..0] == [];
    var k := |q| / 2;
    if k > d {
      assert Take(s, -2 * (k - d) - 1) == p + q[..2 * d];
    }
  }

  /** A chain cut into a head, a middle and its last mapping. */
  lemma Framed(p: seq<ExportMapping>, w: seq<ExportMapping>, last: ExportMapping)
    ensures var t := p + w + [last];
      |t| == |p| + |w| + 1 && t[..|p|] == p && t[|t| - 1] == last && t[|p|..|t| - 1] == w
  {
    var t := p + w + [last];
    assert t[..|p|] == p;
    assert t[|p|..|t| - 1] == w;
  }

  /** An even prefix of a run of pairs is a run of pairs. */
  lemma PairRunPrefix(v: ValueKinds, q: seq<ExportMapping>, n: nat)
    requires PairRun(v, q) && 2 * n <= |q|
    ensures PairRun(v, q[..2 * n])
  {
    assert forall j :: 0 <= j < 2 * n ==> q[..2 * n][j] == q[j];
  }

  /** Whatever d > 0 is, the resized chain ends with exactly d pairs and the expanded value mapping. */
  lemma ResizedPairs(v: ValueKinds, p: seq<ExportMapping>, q: seq<ExportMapping>, last: ExportMapping, d: int)
    requires Distinct4(v) && Free(p, v.index) && PairRun(v, q) && last.kind == v.expanded && d > 0
    ensures var s := p + q + [last];
      var c := ChangedDimensions(s, d, v);
      var t := if c.Some? then c.value else s;
      && |t| == |p| + 2 * d + 1 && t[..|p|] == p && t[|t| - 1] == last && PairRun(v, t[|p|..|t| - 1])
  {
    Resize(v, p, q, last, d);
    var k := |q| / 2;
    var w: seq<ExportMapping>;
    if k < d {
      var h := HiddenPairs(v, d - k);
      PairRunAppend(v, q, h);
      w := q + h;
      assert p + q + h + [last] == p + w + [last];
    } else if k > d {
      PairRunPrefix(v, q, d);
      w := q[..2 * d];
    } else {
      w := q;
    }
    Framed(p, w, last);
  }

  /**
   * Expanding a single value chain to d > 0 dimensions and back to zero
   * gives the chain again, with a plain single value mapping at the end.
   */
  lemma ExpandCollapse(v: ValueKinds, p: seq<ExportMapping>, last: ExportMapping, d: int)
    requires Distinct4(v) && Free(p, v.index) && Free(p, v.indexName) && last.kind == v.single && d > 0
    ensures var c := ChangedDimensions(p + [last], d, v);
      c.Some? && ChangedDimensions(c.value, 0, v) == Some(p + [Plain(v.single, last.position)])
  {
    Expand(v, p, last, d);
    Collapse(v, p, HiddenPairs(v, d), Plain(v.expanded, last.position));
  }
}
