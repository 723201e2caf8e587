// Importing one source row through a chain of import mappings
// (ImportMapping.import_row and the _import_row of every mapping class in
// spinedb_api/import_mapping/import_mapping.py).
//
// A row threads two dicts through the chain: the state, keyed by ImportKey,
// and mapped_data, keyed by item type. Several of the lists and dicts the
// mappings create sit in both at once (a relationship class's object class
// list, a definition's extras, a scenario alternative, a value's dict) and
// are appended to later, so they live in a store of cells and are referred
// to by their place in it. Each _import_row is a function from the state,
// mapped_data and store to the new ones and to what it raised: nothing, a
// KeyError, a KeyFix, or an exception import_row does not catch.

module ImportRows {
  import opened Errors
  import opened Text
  import opened Items
  import opened ImportMappings
  import opened KeyFixes

  // ---------------------------------------------------------------------------
  // Values, cells and the world a row works on

  /** A Python value held by the state or mapped_data. */
  datatype Obj =
    | ONone
    | OStr(s: string)
    | OBool(b: bool)
    | OInt(n: int)
    | OData(v: Val)                 // a source datum, kept as it came
    | OKey(k: ImportKey)            // an ImportKey, as the argument of a KeyError or a KeyFix
    | OTuple(elems: seq<Obj>)
    | OList(elems: seq<Obj>)        // a list nothing appends to after it is built
    | ORef(cell: nat)               // a list or dict that is shared or grown later, by its cell

  /** A mutable container. */
  datatype Cell = ListCell(elems: seq<Obj>) | DictCell(entries: map<Obj, Obj>) | SetCell(members: set<Obj>)

  /** The state, mapped_data and the store of shared containers. */
  datatype World = World(state: map<ImportKey, Obj>, mapped: map<string, Cell>, store: seq<Cell>)

  /** What an _import_row raised. */
  datatype Raised = Done | Missing(key: Obj) | Fixed(key: Obj) | Escaped(error: Error)

  /** An _import_row's new world and what it raised. */
  datatype Step = Step(world: World, raised: Raised)

  /** A lookup that raises KeyError(key) when it misses. */
  datatype Got<T> = Got(value: T) | Lacks(key: Obj)
  {
    predicate IsFailure() { Lacks? }

    function PropagateFailure<U>(): Got<U>
      requires Lacks?
    {
      Lacks(key)
    }

    function Extract(): T
      requires Got?
    {
      value
    }
  }

  // The item types of mapped_data.
  const ObjectClasses := "object_classes"
  const Objects := "objects"
  const ObjectGroups := "object_groups"
  const RelationshipClasses := "relationship_classes"
  const Relationships := "relationships"
  const ObjectParameters := "object_parameters"
  const RelationshipParameters := "relationship_parameters"
  const ObjectParameterValues := "object_parameter_values"
  const RelationshipParameterValues := "relationship_parameter_values"
  const ParameterValueLists := "parameter_value_lists"
  const Alternatives := "alternatives"
  const Scenarios := "scenarios"
  const ScenarioAlternatives := "scenario_alternatives"
  const Tools := "tools"
  const Features := "features"
  const ToolFeatures := "tool_features"
  const ToolFeatureMethods := "tool_feature_methods"

  // The fields of a value's dict.
  const TypeField := OStr("type")
  const CompressField := OStr("compress")
  const OptionsField := OStr("options")
  const DataField := OStr("data")
  const IndexNamesField := OStr("index_names")

  // ---------------------------------------------------------------------------
  // Containers

  /** mapped_data.setdefault(key, set()) */
  function SetAt(mapped: map<string, Cell>, key: string): set<Obj>
  {
    if key in mapped && mapped[key].SetCell? then mapped[key].members else {}
  }

  /** mapped_data.setdefault(key, []) */
  function ListAt(mapped: map<string, Cell>, key: string): seq<Obj>
  {
    if key in mapped && mapped[key].ListCell? then mapped[key].elems else []
  }

  /** mapped_data.setdefault(key, {}) */
  function DictAt(mapped: map<string, Cell>, key: string): map<Obj, Obj>
  {
    if key in mapped && mapped[key].DictCell? then mapped[key].entries else map[]
  }

  /** mapped_data.setdefault(key, set()).add(x) */
  function AddTo(mapped: map<string, Cell>, key: string, x: Obj): (r: map<string, Cell>)
    ensures SetAt(r, key) == SetAt(mapped, key) + {x}
    ensures forall other :: other in mapped && other != key ==> other in r && r[other] == mapped[other]
  {
    mapped[key := SetCell(SetAt(mapped, key) + {x})]
  }

  /** mapped_data.setdefault(key, []).append(x) */
  function AppendTo(mapped: map<string, Cell>, key: string, x: Obj): (r: map<string, Cell>)
    ensures ListAt(r, key) == ListAt(mapped, key) + [x]
    ensures forall other :: other in mapped && other != key ==> other in r && r[other] == mapped[other]
  {
    mapped[key := ListCell(ListAt(mapped, key) + [x])]
  }

  /** mapped_data.setdefault(key, {})[k] = v */
  function PutIn(mapped: map<string, Cell>, key: string, k: Obj, v: Obj): (r: map<string, Cell>)
    ensures DictAt(r, key) == DictAt(mapped, key)[k := v]
  {
    mapped[key := DictCell(DictAt(mapped, key)[k := v])]
  }

  /** The elements of a list held by reference; a value that is no list has none. */
  function ListIn(store: seq<Cell>, o: Obj): seq<Obj>
  {
    if o.ORef? && o.cell < |store| && store[o.cell].ListCell? then store[o.cell].elems else []
  }

  /** The entries of a dict held by reference. */
  function DictIn(store: seq<Cell>, o: Obj): map<Obj, Obj>
  {
    if o.ORef? && o.cell < |store| && store[o.cell].DictCell? then store[o.cell].entries else map[]
  }

  /** Whether o refers to a list of the store. */
  predicate IsList(store: seq<Cell>, o: Obj)
  {
    o.ORef? && o.cell < |store| && store[o.cell].ListCell?
  }

  /** Whether o refers to a dict of the store. */
  predicate IsDict(store: seq<Cell>, o: Obj)
  {
    o.ORef? && o.cell < |store| && store[o.cell].DictCell?
  }

  /** list.append(x) on a list held by reference: every other cell is left as it was. */
  function Push(store: seq<Cell>, o: Obj, x: Obj): (r: seq<Cell>)
    ensures |r| == |store|
    ensures IsList(store, o) ==> IsList(r, o) && ListIn(r, o) == ListIn(store, o) + [x]
    ensures forall c :: 0 <= c < |store| && (!o.ORef? || c != o.cell) ==> r[c] == store[c]
  {
    if IsList(store, o) then store[o.cell := ListCell(store[o.cell].elems + [x])] else store
  }

  /** d[k] = v on a dict held by reference. */
  function Put(store: seq<Cell>, o: Obj, k: Obj, v: Obj): (r: seq<Cell>)
    ensures |r| == |store|
    ensures IsDict(store, o) ==> IsDict(r, o) && DictIn(r, o) == DictIn(store, o)[k := v]
    ensures forall c :: 0 <= c < |store| && (!o.ORef? || c != o.cell) ==> r[c] == store[c]
  {
    if IsDict(store, o) then store[o.cell := DictCell(store[o.cell].entries[k := v])] else store
  }

  /** A new container: its reference is the next free cell. */
  function Made(w: World, c: Cell): World
  {
    w.(store := w.store + [c])
  }

  /** The reference the next new container gets. */
  function Next(w: World): Obj
  {
    ORef(|w.store|)
  }

  /** state[key]: a missing key raises KeyError(key). */
  function Need(w: World, key: ImportKey): (r: Got<Obj>)
    ensures r.Got? <==> key in w.state
    ensures r.Got? ==> r.value == w.state[key]
    ensures r.Lacks? ==> r.key == OKey(key)
  {
    if key in w.state then Got(w.state[key]) else Lacks(OKey(key))
  }

  /** state.get(key), None when missing. */
  function Peek(w: World, key: ImportKey): Obj
  {
    if key in w.state then w.state[key] else ONone
  }

  /** state.setdefault(key, {}): the dict under key, made and stored when missing. */
  function DictDefault(w: World, key: ImportKey): (r: (World, Obj))
    ensures key in r.0.state && r.0.state[key] == r.1
    ensures key in w.state ==> r.0 == w
    ensures key !in w.state ==> IsDict(r.0.store, r.1) && DictIn(r.0.store, r.1) == map[]
  {
    if key in w.state then (w, w.state[key])
    else
      var w' := Made(w, DictCell(map[]));
      (w'.(state := w'.state[key := Next(w)]), Next(w))
  }

  /** len(names) == state[count], with an int count. */
  predicate CountReached(names: seq<Obj>, count: Obj)
  {
    count == OInt(|names|)
  }

  // ---------------------------------------------------------------------------
  // The keys of a row's values

  /**
   * _parameter_value_key: (class, entity, parameter, alternative), where the
   * entity of a relationship is the tuple of its object names, and only once
   * every dimension has its object.
   */
  function ParameterValueKey(w: World): (r: Got<Obj>)
    ensures r.Got? ==> ParameterName in w.state && r.value.OTuple? && |r.value.elems| == 4
    ensures r.Got? ==> r.value.elems[2] == w.state[ParameterName] && r.value.elems[3] == Peek(w, AlternativeName)
    ensures r.Got? && Peek(w, ObjectClassName) != ONone ==>
      ObjectName in w.state && r.value.elems[..2] == [w.state[ObjectClassName], w.state[ObjectName]]
    ensures Peek(w, ObjectClassName) == ONone ==>
      (r.Got? <==> Peek(w, RelationshipClassName) != ONone && ObjectNames in w.state && RelationshipDimensionCount in w.state
                   && CountReached(ListIn(w.store, w.state[ObjectNames]), w.state[RelationshipDimensionCount])
                   && ParameterName in w.state)
    ensures Peek(w, ObjectClassName) == ONone && r.Got? ==>
      r.value.elems[..2] == [w.state[RelationshipClassName], OTuple(ListIn(w.store, w.state[ObjectNames]))]
    ensures Peek(w, ObjectClassName) == ONone && Peek(w, RelationshipClassName) == ONone ==> r == Lacks(OKey(ClassName))
  {
    if Peek(w, ObjectClassName) != ONone then
      var entity :- Need(w, ObjectName);
      var parameter :- Need(w, ParameterName);
      Got(OTuple([w.state[ObjectClassName], entity, parameter, Peek(w, AlternativeName)]))
    else if Peek(w, RelationshipClassName) == ONone then Lacks(OKey(ClassName))
    else
      var objectNames :- Need(w, ObjectNames);
      var count :- Need(w, RelationshipDimensionCount);
      if !CountReached(ListIn(w.store, objectNames), count) then Lacks(OKey(ObjectNames))
      else
        var parameter :- Need(w, ParameterName);
        Got(OTuple([w.state[RelationshipClassName], OTuple(ListIn(w.store, objectNames)), parameter, Peek(w, AlternativeName)]))
  }

  /** The class a row is about: the object class when there is one, else the relationship class. */
  function ClassOf(w: World): Obj
  {
    if Peek(w, ObjectClassName) != ONone then Peek(w, ObjectClassName) else Peek(w, RelationshipClassName)
  }

  /** _default_value_key: (class, parameter), the object class preferred over the relationship class. */
  function DefaultValueKey(w: World): (r: Got<Obj>)
    ensures r.Got? <==> ClassOf(w) != ONone && ParameterName in w.state
    ensures r.Got? ==> r.value == OTuple([ClassOf(w), w.state[ParameterName]])
    ensures ClassOf(w) == ONone ==> r == Lacks(OKey(ClassName))
  {
    var className := ClassOf(w);
    if className == ONone then Lacks(OKey(ClassName))
    else
      var parameter :- Need(w, ParameterName);
      Got(OTuple([className, parameter]))
  }

  // ---------------------------------------------------------------------------
  // strtobool

  /** The lower case of an ASCII letter; every other character is kept. */
  function LowerChar(c: char): char
  {
    if 'A' <= c <= 'Z' then (c as int + 32) as char else c
  }

  function Lower(s: string): (r: string)
    ensures |r| == |s|
  {
    seq(|s|, i requires 0 <= i < |s| => LowerChar(s[i]))
  }

  const TrueWords: seq<string> := ["y", "yes", "t", "true", "on", "1"]
  const FalseWords: seq<string> := ["n", "no", "f", "false", "off", "0"]

  /** bool(strtobool(s)): a yes-word is true, a no-word false, anything else raises ValueError. */
  function StrToBool(s: string): (r: Result<bool>)
    ensures r == Ok(true) <==> Lower(s) in TrueWords
    ensures r == Ok(false) <==> Lower(s) in FalseWords
    ensures r.Err? ==> r.error == ValueError("invalid truth value '" + Lower(s) + "'")
  {
    var v := Lower(s);
    if v in TrueWords then Ok(true)
    else if v in FalseWords then Ok(false)
    else Err(ValueError("invalid truth value '" + v + "'"))
  }

  // ---------------------------------------------------------------------------
  // The _import_row of each mapping class

  /** str(source_data) */
  function AsStr(d: Val): Obj
  {
    OStr(Str(d))
  }

  /** The raise that state[key] makes when it misses. */
  function Lacking(w: World, key: ImportKey): Step
  {
    Step(w, Missing(OKey(key)))
  }

  /** ObjectClassMapping: names the row's object class and adds it to the object classes. */
  function ImportObjectClass(w: World, d: Val): (r: Step)
    ensures r.raised == Done && r.world.store == w.store
    ensures r.world.state == w.state[ObjectClassName := AsStr(d)]
    ensures SetAt(r.world.mapped, ObjectClasses) == SetAt(w.mapped, ObjectClasses) + {AsStr(d)}
  {
    Step(World(w.state[ObjectClassName := AsStr(d)], AddTo(w.mapped, ObjectClasses, AsStr(d)), w.store), Done)
  }

  /**
   * ObjectMapping: names the row's object. Above a group mapping the object
   * is a group whose member is still to come, so it raises KeyError(MEMBER_NAME)
   * instead of adding the object.
   */
  function ImportObject(w: World, d: Val, groupBelow: bool): (r: Step)
    ensures ObjectClassName !in w.state ==> r == Lacking(w, ObjectClassName)
    ensures ObjectClassName in w.state ==> r.world.state == w.state[ObjectName := AsStr(d)] && r.world.store == w.store
    ensures ObjectClassName in w.state && groupBelow ==> r.raised == Missing(OKey(MemberName)) && r.world.mapped == w.mapped
    ensures ObjectClassName in w.state && !groupBelow ==>
      r.raised == Done && SetAt(r.world.mapped, Objects) == SetAt(w.mapped, Objects) + {OTuple([w.state[ObjectClassName], AsStr(d)])}
  {
    if ObjectClassName !in w.state then Lacking(w, ObjectClassName)
    else
      var w' := w.(state := w.state[ObjectName := AsStr(d)]);
      if groupBelow then Step(w', Missing(OKey(MemberName)))
      else Step(w'.(mapped := AddTo(w.mapped, Objects, OTuple([w.state[ObjectClassName], AsStr(d)]))), Done)
  }

  /**
   * ObjectGroupMapping: adds (class, group, member), and with import_objects
   * the group and the member as objects, then raises KeyFix(MEMBER_NAME) to
   * clear the error its object mapping raised.
   */
  function ImportObjectGroup(w: World, d: Val, importObjects: bool): (r: Step)
    ensures ObjectClassName !in w.state ==> r == Lacking(w, ObjectClassName)
    ensures ObjectClassName in w.state && Peek(w, ObjectName) == ONone ==> r == Lacking(w, GroupName)
    ensures ObjectClassName in w.state && Peek(w, ObjectName) != ONone ==>
      && r.raised == Fixed(OKey(MemberName)) && r.world.state == w.state && r.world.store == w.store
      && SetAt(r.world.mapped, ObjectGroups) == SetAt(w.mapped, ObjectGroups) + {OTuple([w.state[ObjectClassName], w.state[ObjectName], AsStr(d)])}
      && (importObjects ==>
            SetAt(r.world.mapped, Objects) ==
            SetAt(w.mapped, Objects) + {OTuple([w.state[ObjectClassName], w.state[ObjectName]]), OTuple([w.state[ObjectClassName], AsStr(d)])})
  {
    if ObjectClassName !in w.state then Lacking(w, ObjectClassName)
    else if Peek(w, ObjectName) == ONone then Lacking(w, GroupName)
    else
      var objectClass := w.state[ObjectClassName];
      var group := w.state[ObjectName];
      var mapped := AddTo(w.mapped, ObjectGroups, OTuple([objectClass, group, AsStr(d)]));
      var mapped' := if importObjects then
          mapped[Objects := SetCell(SetAt(mapped, Objects) + {OTuple([objectClass, group]), OTuple([objectClass, AsStr(d)])})]
        else mapped;
      Step(w.(mapped := mapped'), Fixed(OKey(MemberName)))
  }

  /**
   * RelationshipClassMapping: records the class with a new, empty object
   * class list shared by the state and mapped_data, sets the dimension count
   * to the number of object class mappings from here down, and raises
   * KeyError(OBJECT_CLASS_NAMES) until the list is complete.
   */
  function ImportRelationshipClass(w: World, d: Val, dimensions: nat): (r: Step)
    ensures r.raised == Missing(OKey(ObjectClassNames))
    ensures r.world.state == w.state[RelationshipDimensionCount := OInt(dimensions)][RelationshipClassName := AsStr(d)][ObjectClassNames := Next(w)]
    ensures IsList(r.world.store, Next(w)) && ListIn(r.world.store, Next(w)) == []
    ensures r.world.store[..|w.store|] == w.store
    ensures DictAt(r.world.mapped, RelationshipClasses) == DictAt(w.mapped, RelationshipClasses)[AsStr(d) := Next(w)]
  {
    var names := Next(w);
    var w' := Made(w, ListCell([]));
    Step(World(w.state[RelationshipDimensionCount := OInt(dimensions)][RelationshipClassName := AsStr(d)][ObjectClassNames := names],
               PutIn(w.mapped, RelationshipClasses, AsStr(d), names), w'.store),
         Missing(OKey(ObjectClassNames)))
  }

  /**
   * RelationshipClassObjectClassMapping: appends an object class to the
   * class's list; the one that completes it raises KeyFix(OBJECT_CLASS_NAMES).
   */
  function ImportRelationshipClassObjectClass(w: World, d: Val): (r: Step)
    ensures RelationshipClassName !in w.state ==> r == Lacking(w, RelationshipClassName)
    ensures RelationshipClassName in w.state && ObjectClassNames !in w.state ==> r == Lacking(w, ObjectClassNames)
    ensures RelationshipClassName in w.state && ObjectClassNames in w.state ==>
      && r.world.state == w.state && r.world.mapped == w.mapped
      && r.world.store == Push(w.store, w.state[ObjectClassNames], AsStr(d))
      && (RelationshipDimensionCount in w.state ==>
            (r.raised == Fixed(OKey(ObjectClassNames)) <==>
               CountReached(ListIn(r.world.store, w.state[ObjectClassNames]), w.state[RelationshipDimensionCount])))
      && (!r.raised.Fixed? ==> r.raised == (if RelationshipDimensionCount in w.state then Done else Missing(OKey(RelationshipDimensionCount))))
  {
    if RelationshipClassName !in w.state then Lacking(w, RelationshipClassName)
    else if ObjectClassNames !in w.state then Lacking(w, ObjectClassNames)
    else
      var names := w.state[ObjectClassNames];
      var w' := w.(store := Push(w.store, names, AsStr(d)));
      if RelationshipDimensionCount !in w.state then Step(w', Missing(OKey(RelationshipDimensionCount)))
      else if CountReached(ListIn(w'.store, names), w.state[RelationshipDimensionCount]) then Step(w', Fixed(OKey(ObjectClassNames)))
      else Step(w', Done)
  }

  /** RelationshipMapping: starts a new, empty list of object names. */
  function ImportRelationship(w: World): (r: Step)
    ensures r.raised == Done && r.world.state == w.state[ObjectNames := Next(w)] && r.world.mapped == w.mapped
    ensures IsList(r.world.store, Next(w)) && ListIn(r.world.store, Next(w)) == [] && r.world.store[..|w.store|] == w.store
  {
    var w' := Made(w, ListCell([]));
    Step(w'.(state := w.state[ObjectNames := Next(w)]), Done)
  }

  /** The precondition of a relationship object: the class is named and its object classes are complete. */
  predicate ObjectClassesComplete(w: World)
  {
    && RelationshipClassName in w.state && ObjectClassNames in w.state && RelationshipDimensionCount in w.state
    && CountReached(ListIn(w.store, w.state[ObjectClassNames]), w.state[RelationshipDimensionCount])
  }

  /**
   * RelationshipObjectMapping: appends an object name. The name that
   * completes the dimensions records the relationship and raises
   * KeyFix(OBJECT_NAMES); any other raises KeyError(OBJECT_NAMES). With
   * import_objects each object is also added, with the object class of its
   * dimension, and an object beyond the last dimension raises IndexError.
   */
  function ImportRelationshipObject(w: World, d: Val, importObjects: bool): (r: Step)
    ensures (RelationshipClassName in w.state && ObjectClassNames in w.state && RelationshipDimensionCount in w.state
             && !ObjectClassesComplete(w)) ==> r == Lacking(w, ObjectClassNames)
    ensures (ObjectClassesComplete(w) && ObjectNames in w.state && IsList(w.store, w.state[ObjectNames])
             && w.state[ObjectNames] != w.state[ObjectClassNames] && !r.raised.Escaped?) ==>
      var names := ListIn(w.store, w.state[ObjectNames]) + [AsStr(d)];
      && ListIn(r.world.store, w.state[ObjectNames]) == names
      && (r.raised == Fixed(OKey(ObjectNames)) <==> CountReached(names, w.state[RelationshipDimensionCount]))
      && (r.raised.Fixed? ==> OTuple([w.state[RelationshipClassName], OTuple(names)]) in SetAt(r.world.mapped, Relationships))
      && (!r.raised.Fixed? ==> r.raised == Missing(OKey(ObjectNames)) && SetAt(r.world.mapped, Relationships) == SetAt(w.mapped, Relationships))
    ensures (ObjectClassesComplete(w) && ObjectNames in w.state && IsList(w.store, w.state[ObjectNames])
             && w.state[ObjectNames] != w.state[ObjectClassNames]) ==>
      (r.raised.Escaped? <==> importObjects && |ListIn(w.store, w.state[ObjectNames])| >= |ListIn(w.store, w.state[ObjectClassNames])|)
  {
    if RelationshipClassName !in w.state then Lacking(w, RelationshipClassName)
    else if ObjectClassNames !in w.state then Lacking(w, ObjectClassNames)
    else if RelationshipDimensionCount !in w.state then Lacking(w, RelationshipDimensionCount)
    else
      var classes := w.state[ObjectClassNames];
      var count := w.state[RelationshipDimensionCount];
      if !CountReached(ListIn(w.store, classes), count) then Lacking(w, ObjectClassNames)
      else if ObjectNames !in w.state then Lacking(w, ObjectNames)
      else
        var names := w.state[ObjectNames];
        var w1 := w.(store := Push(w.store, names, AsStr(d)));
        var k := |ListIn(w1.store, names)| - 1;
        if importObjects && !(0 <= k < |ListIn(w1.store, classes)|) then
          Step(w1, Escaped(IndexError("list index out of range")))
        else
          var w2 := if importObjects then
              var objectClass := ListIn(w1.store, classes)[k];
              w1.(mapped := AddTo(AddTo(w1.mapped, ObjectClasses, objectClass), Objects, OTuple([objectClass, AsStr(d)])))
            else w1;
          if CountReached(ListIn(w1.store, names), count) then
            Step(w2.(mapped := AddTo(w2.mapped, Relationships, OTuple([w.state[RelationshipClassName], OTuple(ListIn(w1.store, names))]))),
                 Fixed(OKey(ObjectNames)))
          else Step(w2, Missing(OKey(ObjectNames)))
  }

  /** d.setdefault(field, empty) on a dict held by reference: the container under field, made when missing. */
  function FieldDefault(w: World, dict: Obj, field: Obj, empty: Cell): (r: (World, Obj))
    ensures r.0.state == w.state && r.0.mapped == w.mapped
    ensures field in DictIn(w.store, dict) ==> r == (w, DictIn(w.store, dict)[field])
    ensures field !in DictIn(w.store, dict) && IsDict(w.store, dict) ==>
      && r.1 == Next(w) && |r.0.store| == |w.store| + 1 && r.0.store[|w.store|] == empty
      && DictIn(r.0.store, dict) == DictIn(w.store, dict)[field := Next(w)]
  {
    if field in DictIn(w.store, dict) then (w, DictIn(w.store, dict)[field])
    else
      var w' := Made(w, empty);
      (w'.(store := Put(w'.store, dict, field, Next(w))), Next(w))
  }

  /** state.setdefault(key, []) */
  function ListDefault(w: World, key: ImportKey): (r: (World, Obj))
    ensures key in r.0.state && r.0.state[key] == r.1 && r.0.mapped == w.mapped
    ensures key in w.state ==> r.0 == w
    ensures key !in w.state ==>
      |r.0.store| == |w.store| + 1 && IsList(r.0.store, r.1) && ListIn(r.0.store, r.1) == [] && r.0.store[..|w.store|] == w.store
  {
    if key in w.state then (w, w.state[key])
    else
      var w' := Made(w, ListCell([]));
      (w'.(state := w'.state[key := Next(w)]), Next(w))
  }

  /** state[key].append(x): the list the state holds under key grows by x. */
  function AppendHeld(w: World, key: ImportKey, x: Obj): (r: Step)
    ensures key !in w.state ==> r == Lacking(w, key)
    ensures key in w.state ==> r == Step(w.(store := Push(w.store, w.state[key], x)), Done)
  {
    if key !in w.state then Lacking(w, key)
    else Step(w.(store := Push(w.store, w.state[key], x)), Done)
  }

  /**
   * The dict that stands for a value of the given type: {"type": type}, with
   * compress for a map and the options for a time series when they are set.
   */
  function ValueEntries(valueType: string, compress: bool, options: Val): (r: map<Obj, Obj>)
    ensures TypeField in r && r[TypeField] == OStr(valueType)
    ensures CompressField in r <==> compress && valueType == "map"
    ensures OptionsField in r <==> Truthy(options) && valueType == "time_series"
    ensures CompressField in r ==> r[CompressField] == OBool(true)
    ensures OptionsField in r ==> r[OptionsField] == OData(options)
    ensures r.Keys <= {TypeField, CompressField, OptionsField}
  {
    var entries := map[TypeField := OStr(valueType)];
    var entries' := if compress && valueType == "map" then entries[CompressField := OBool(true)] else entries;
    if Truthy(options) && valueType == "time_series" then entries'[OptionsField := OData(options)] else entries'
  }

  /**
   * ParameterDefinitionMapping: names the parameter of the row's class,
   * starts its extras list and registers the definition with it, unless a
   * default value of this row already did.
   */
  function ImportParameterDefinition(w: World, d: Val): (r: Step)
    ensures ClassOf(w) == ONone ==> r == Lacking(w, ClassName)
    ensures ClassOf(w) != ONone ==>
      var key := OTuple([ClassOf(w), AsStr(d)]);
      var mapKey := if Peek(w, ObjectClassName) != ONone then ObjectParameters else RelationshipParameters;
      && r.raised == Done
      && r.world.state == w.state[ParameterName := AsStr(d)][ParameterDefinitionExtras := Next(w)][ParameterDefinition := key]
      && IsList(r.world.store, Next(w)) && ListIn(r.world.store, Next(w)) == [] && r.world.store[..|w.store|] == w.store
      && (key in DictIn(w.store, Peek(w, ParameterDefaultValues)) ==> r.world.mapped == w.mapped)
      && (key !in DictIn(w.store, Peek(w, ParameterDefaultValues)) ==>
            r.world.mapped == PutIn(w.mapped, mapKey, key, Next(w)))
  {
    var className := ClassOf(w);
    if className == ONone then Lacking(w, ClassName)
    else
      var mapKey := if Peek(w, ObjectClassName) != ONone then ObjectParameters else RelationshipParameters;
      var extras := Next(w);
      var key := OTuple([className, AsStr(d)]);
      var w' := Made(w, ListCell([]));
      var state := w.state[ParameterName := AsStr(d)][ParameterDefinitionExtras := extras][ParameterDefinition := key];
      var defaults := Peek(w, ParameterDefaultValues);
      var mapped := if key !in DictIn(w.store, defaults) then PutIn(w.mapped, mapKey, key, extras) else w.mapped;
      Step(World(state, mapped, w'.store), Done)
  }

  /** The value list name, when the row has one, follows a default value in the extras. */
  function WithListName(w: World, extras: Obj): seq<Cell>
  {
    var listName := Peek(w, ParameterValueListName);
    if listName != ONone then Push(w.store, extras, listName) else w.store
  }

  /** ParameterDefaultValueMapping: an empty datum is skipped; otherwise the extras get the default value, and the list name if any. */
  function ImportParameterDefaultValue(w: World, d: Val): (r: Step)
    ensures d == VStr("") ==> r == Step(w, Done)
    ensures d != VStr("") && ParameterDefinitionExtras !in w.state ==> r == Lacking(w, ParameterDefinitionExtras)
    ensures d != VStr("") && ParameterDefinitionExtras in w.state && IsList(w.store, w.state[ParameterDefinitionExtras]) ==>
      && r.raised == Done && r.world.state == w.state && r.world.mapped == w.mapped
      && ListIn(r.world.store, w.state[ParameterDefinitionExtras]) ==
           ListIn(w.store, w.state[ParameterDefinitionExtras]) + [OData(d)]
           + (if Peek(w, ParameterValueListName) != ONone then [Peek(w, ParameterValueListName)] else [])
  {
    if d == VStr("") then Step(w, Done)
    else if ParameterDefinitionExtras !in w.state then Lacking(w, ParameterDefinitionExtras)
    else
      var extras := w.state[ParameterDefinitionExtras];
      var w' := w.(store := Push(w.store, extras, OData(d)));
      Step(w'.(store := WithListName(w', extras)), Done)
  }

  /**
   * ParameterDefaultValueTypeMapping: the first type mapped for a definition
   * makes its value dict, registers it among the row's default values and
   * appends it (and the list name) to the definition's extras; a definition
   * that already has one is left alone.
   */
  function ImportParameterDefaultValueType(w: World, d: Val, compress: bool, options: Val): (r: Step)
    ensures Peek(w, ParameterDefinition) == ONone ==> r == Step(w, Done)
    ensures (Peek(w, ParameterDefinition) != ONone && ParameterDefaultValues in w.state
             && Peek(w, ParameterDefinition) in DictIn(w.store, w.state[ParameterDefaultValues])) ==> r == Step(w, Done)
    ensures Peek(w, ParameterDefinition) != ONone && !r.raised.Missing? ==> r.raised == Done && r.world.mapped == w.mapped
    ensures (Peek(w, ParameterDefinition) != ONone && ParameterDefaultValues in w.state && IsDict(w.store, w.state[ParameterDefaultValues])
             && Peek(w, ParameterDefinition) !in DictIn(w.store, w.state[ParameterDefaultValues])) ==>
      && DictIn(r.world.store, w.state[ParameterDefaultValues]) == DictIn(w.store, w.state[ParameterDefaultValues])[Peek(w, ParameterDefinition) := Next(w)]
      && |r.world.store| == |w.store| + 1 && r.world.store[|w.store|] == DictCell(ValueEntries(Str(d), compress, options))
      && (r.raised.Missing? <==> ParameterDefinitionExtras !in w.state)
  {
    var definition := Peek(w, ParameterDefinition);
    if definition == ONone then Step(w, Done)
    else
      var (w1, defaults) := DictDefault(w, ParameterDefaultValues);
      if definition in DictIn(w1.store, defaults) then Step(w1, Done)
      else
        var value := Next(w1);
        var w2 := Made(w1, DictCell(ValueEntries(Str(d), compress, options)));
        var w3 := w2.(store := Put(w2.store, defaults, definition, value));
        if ParameterDefinitionExtras !in w3.state then Lacking(w3, ParameterDefinitionExtras)
        else
          var extras := w3.state[ParameterDefinitionExtras];
          var w4 := w3.(store := Push(w3.store, extras, value));
          Step(w4.(store := WithListName(w4, extras)), Done)
  }

  /**
   * IndexNameMappingBase: the value dict found under the row's key gets the
   * datum as the name of index id, id being the number of mappings of the
   * same class above this one.
   */
  function ImportIndexName(w: World, d: Val, valuesKey: ImportKey, key: Got<Obj>, id: nat): (r: Step)
    ensures valuesKey !in w.state ==> r == Lacking(w, valuesKey)
    ensures valuesKey in w.state && key.Lacks? ==> r == Step(w, Missing(key.key))
    ensures valuesKey in w.state && key.Got? && key.value !in DictIn(w.store, w.state[valuesKey]) ==> r == Step(w, Missing(key.value))
    ensures valuesKey in w.state && key.Got? && key.value in DictIn(w.store, w.state[valuesKey]) ==>
      && r.raised == Done && r.world.state == w.state && r.world.mapped == w.mapped
      && var value := DictIn(w.store, w.state[valuesKey])[key.value];
         IsDict(w.store, value) && IndexNamesField in DictIn(w.store, value) && IsDict(w.store, DictIn(w.store, value)[IndexNamesField]) ==>
         DictIn(r.world.store, DictIn(w.store, value)[IndexNamesField]) == DictIn(w.store, DictIn(w.store, value)[IndexNamesField])[OInt(id) := OData(d)]
  {
    if valuesKey !in w.state then Lacking(w, valuesKey)
    else if key.Lacks? then Step(w, Missing(key.key))
    else
      var valueKey := key.value;
      var values := DictIn(w.store, w.state[valuesKey]);
      if valueKey !in values then Step(w, Missing(valueKey))
      else
        var (w', names) := FieldDefault(w, values[valueKey], IndexNamesField, DictCell(map[]));
        Step(w'.(store := Put(w'.store, names, OInt(id), OData(d))), Done)
  }

  /** ParameterDefaultValueIndexMapping and ParameterValueIndexMapping: the datum joins the row's indexes. */
  function ImportIndex(w: World, d: Val, indexesKey: ImportKey): (r: Step)
    ensures ParameterName !in w.state ==> r == Lacking(w, ParameterName)
    ensures ParameterName in w.state ==> r.raised == Done && r.world.mapped == w.mapped && indexesKey in r.world.state
    ensures ParameterName in w.state && indexesKey in w.state && IsList(w.store, w.state[indexesKey]) ==>
      r.world.state == w.state && ListIn(r.world.store, w.state[indexesKey]) == ListIn(w.store, w.state[indexesKey]) + [OData(d)]
    ensures ParameterName in w.state && indexesKey !in w.state ==> ListIn(r.world.store, r.world.state[indexesKey]) == [OData(d)]
  {
    if ParameterName !in w.state then Lacking(w, ParameterName)
    else
      var (w', indexes) := ListDefault(w, indexesKey);
      Step(w'.(store := Push(w'.store, indexes, OData(d))), Done)
  }

  /**
   * ExpandedParameterDefaultValueMapping and ExpandedParameterValueMapping:
   * the value dict found under the row's key gets a data point, the datum
   * alone for an array and otherwise the row's indexes followed by the datum,
   * the indexes being popped from the state.
   */
  function ImportExpanded(w: World, d: Val, valuesKey: ImportKey, parameterValue: bool, indexesKey: ImportKey): (r: Step)
    requires valuesKey != indexesKey
    ensures !r.raised.Escaped? && !r.raised.Fixed? && r.world.mapped == w.mapped
    ensures r.raised == Done ==> valuesKey in r.world.state
  {
    var (w1, values) := DictDefault(w, valuesKey);
    var key := if parameterValue then ParameterValueKey(w1) else DefaultValueKey(w1);
    if key.Lacks? then Step(w1, Missing(key.key))
    else if key.value !in DictIn(w1.store, values) then Step(w1, Missing(key.value))
    else
      var value := DictIn(w1.store, values)[key.value];
      var (w2, data) := FieldDefault(w1, value, DataField, ListCell([]));
      var entries := DictIn(w2.store, value);
      if TypeField !in entries then Step(w2, Missing(TypeField))
      else if entries[TypeField] == OStr("array") then Step(w2.(store := Push(w2.store, data, OData(d))), Done)
      else if indexesKey !in w2.state then Lacking(w2, indexesKey)
      else
        var point := OList(ListIn(w2.store, w2.state[indexesKey]) + [OData(d)]);
        Step(World(w2.state - {indexesKey}, w2.mapped, Push(w2.store, data, point)), Done)
  }

  /**
   * ParameterValueMapping: an empty datum is skipped; otherwise the row's
   * value [class, entity, parameter, value(, alternative)] is added to the
   * object or relationship parameter values, a relationship's entity being
   * its list of object names, once every dimension has its object.
   */
  function ImportParameterValue(w: World, d: Val): (r: Step)
    ensures r.world.state == w.state && r.world.store == w.store && !r.raised.Escaped? && !r.raised.Fixed?
    ensures d == VStr("") ==> r == Step(w, Done)
    ensures d != VStr("") && ClassOf(w) == ONone ==> r == Lacking(w, ClassName)
    ensures d != VStr("") && r.raised == Done ==>
      && ParameterName in w.state && (Peek(w, ObjectClassName) != ONone ==> ObjectName in w.state)
      && (Peek(w, ObjectClassName) == ONone ==>
            && ObjectNames in w.state && RelationshipDimensionCount in w.state
            && CountReached(ListIn(w.store, w.state[ObjectNames]), w.state[RelationshipDimensionCount]))
    ensures d != VStr("") && r.raised == Done ==>
      var objectValue := Peek(w, ObjectClassName) != ONone;
      var mapKey := if objectValue then ObjectParameterValues else RelationshipParameterValues;
      var entity := if objectValue then w.state[ObjectName] else w.state[ObjectNames];
      var alternative := Peek(w, AlternativeName);
      r.world.mapped == AppendTo(w.mapped, mapKey,
           OList([ClassOf(w), entity, w.state[ParameterName], OData(d)] + (if alternative != ONone then [alternative] else [])))
  {
    if d == VStr("") then Step(w, Done)
    else
      var entity: Got<(Obj, string)> :=
        if Peek(w, ObjectClassName) != ONone then
          var name :- Need(w, ObjectName);
          Got((name, ObjectParameterValues))
        else if Peek(w, RelationshipClassName) != ONone then
          var names :- Need(w, ObjectNames);
          var count :- Need(w, RelationshipDimensionCount);
          if !CountReached(ListIn(w.store, names), count) then Lacks(OKey(ObjectNames))
          else Got((names, RelationshipParameterValues))
        else Lacks(OKey(ClassName));
      if entity.Lacks? then Step(w, Missing(entity.key))
      else if ParameterName !in w.state then Lacking(w, ParameterName)
      else
        var alternative := Peek(w, AlternativeName);
        var value := [ClassOf(w), entity.value.0, w.state[ParameterName], OData(d)] + (if alternative != ONone then [alternative] else []);
        Step(w.(mapped := AppendTo(w.mapped, entity.value.1, OList(value))), Done)
  }

  /**
   * ParameterValueTypeMapping: the first type mapped for a (class, entity,
   * parameter, alternative) key makes the value's dict, registers it among
   * the row's values under that key and adds [class, entity, parameter,
   * dict(, alternative)] to the parameter values; a key already registered
   * adds nothing.
   */
  function ImportParameterValueType(w: World, d: Val, compress: bool, options: Val): (r: Step)
    ensures !r.raised.Escaped? && !r.raised.Fixed?
    ensures Peek(w, ParameterName) == ONone ==> r == Step(w, Done)
    ensures r.world.mapped != w.mapped ==>
      && r.raised == Done && ValueKeyOf(w).Got?
      && (ParameterValues in w.state ==> ValueKeyOf(w).value !in DictIn(w.store, w.state[ParameterValues]))
    ensures (Peek(w, ParameterName) != ONone && ParameterValues in w.state && ValueKeyOf(w).Got?
             && ValueKeyOf(w).value in DictIn(w.store, w.state[ParameterValues])) ==> r == Step(w, Done)
    ensures (Peek(w, ParameterName) != ONone && ParameterValues in w.state && IsDict(w.store, w.state[ParameterValues])
             && ValueKeyOf(w).Got? && ValueKeyOf(w).value !in DictIn(w.store, w.state[ParameterValues])) ==>
      && r.raised == Done && r.world.state == w.state && |r.world.store| == |w.store| + 1
      && r.world.store[|w.store|] == DictCell(ValueEntries(Str(d), compress, options))
      && (forall c :: 0 <= c < |w.store| && c != w.state[ParameterValues].cell ==> r.world.store[c] == w.store[c])
      && DictIn(r.world.store, w.state[ParameterValues]) == DictIn(w.store, w.state[ParameterValues])[ValueKeyOf(w).value := Next(w)]
      && var key := ValueKeyOf(w).value.elems;
         r.world.mapped == AppendTo(w.mapped,
           if Peek(w, ObjectClassName) != ONone then ObjectParameterValues else RelationshipParameterValues,
           OList(key[..3] + [Next(w)] + (if key[3] != ONone then [key[3]] else [])))
  {
    var parameter := Peek(w, ParameterName);
    if parameter == ONone then Step(w, Done)
    else
      var (w1, values) := DictDefault(w, ParameterValues);
      var key := ValueKeyOf(w);
      if key.Lacks? then Step(w1, Missing(key.key))
      else if key.value in DictIn(w1.store, values) then Step(w1, Done)
      else
        var value := Next(w1);
        var w2 := Made(w1, DictCell(ValueEntries(Str(d), compress, options)));
        var w3 := w2.(store := Put(w2.store, values, key.value, value));
        var elems := key.value.elems;
        var mapKey := if Peek(w, ObjectClassName) != ONone then ObjectParameterValues else RelationshipParameterValues;
        Step(w3.(mapped := AppendTo(w3.mapped, mapKey, OList(elems[..3] + [value] + (if elems[3] != ONone then [elems[3]] else [])))), Done)
  }

  /**
   * The key a typed value is registered under: (class, entity, parameter,
   * alternative), a relationship's entity being the tuple of its object
   * names. Unlike _parameter_value_key it does not ask for every dimension.
   */
  function ValueKeyOf(w: World): (r: Got<Obj>)
    requires Peek(w, ParameterName) != ONone
    ensures r.Got? ==> r.value.OTuple? && |r.value.elems| == 4 && r.value.elems[0] == ClassOf(w)
    ensures r.Got? ==> r.value.elems[2] == w.state[ParameterName] && r.value.elems[3] == Peek(w, AlternativeName)
    ensures ClassOf(w) == ONone ==> r == Lacks(OKey(ClassName))
  {
    if Peek(w, ObjectClassName) != ONone then
      var entity :- Need(w, ObjectName);
      Got(OTuple([w.state[ObjectClassName], entity, w.state[ParameterName], Peek(w, AlternativeName)]))
    else if Peek(w, RelationshipClassName) == ONone then Lacks(OKey(ClassName))
    else
      var names :- Need(w, ObjectNames);
      Got(OTuple([w.state[RelationshipClassName], OTuple(ListIn(w.store, names)), w.state[ParameterName], Peek(w, AlternativeName)]))
  }

  /** ParameterValueListMapping: names the row's value list; below another mapping it needs a definition first. */
  function ImportParameterValueList(w: World, d: Val, hasParent: bool): (r: Step)
    ensures hasParent && ParameterDefinition !in w.state ==> r == Lacking(w, ParameterDefinition)
    ensures !hasParent || ParameterDefinition in w.state ==>
      r == Step(w.(state := w.state[ParameterValueListName := AsStr(d)]), Done)
  {
    if hasParent && ParameterDefinition !in w.state then Lacking(w, ParameterDefinition)
    else Step(w.(state := w.state[ParameterValueListName := AsStr(d)]), Done)
  }

  /** ParameterValueListValueMapping: an empty datum is skipped; otherwise [list name, value] joins the value lists. */
  function ImportParameterValueListValue(w: World, d: Val): (r: Step)
    ensures d == VStr("") ==> r == Step(w, Done)
    ensures d != VStr("") && ParameterValueListName !in w.state ==> r == Lacking(w, ParameterValueListName)
    ensures d != VStr("") && ParameterValueListName in w.state ==>
      r == Step(w.(mapped := AppendTo(w.mapped, ParameterValueLists, OList([w.state[ParameterValueListName], OData(d)]))), Done)
  {
    if d == VStr("") then Step(w, Done)
    else if ParameterValueListName !in w.state then Lacking(w, ParameterValueListName)
    else Step(w.(mapped := AppendTo(w.mapped, ParameterValueLists, OList([w.state[ParameterValueListName], OData(d)]))), Done)
  }

  /** AlternativeMapping: names the row's alternative and adds it to the alternatives. */
  function ImportAlternative(w: World, d: Val): (r: Step)
    ensures r.raised == Done && r.world.store == w.store
    ensures r.world.state == w.state[AlternativeName := AsStr(d)]
    ensures SetAt(r.world.mapped, Alternatives) == SetAt(w.mapped, Alternatives) + {AsStr(d)}
  {
    Step(World(w.state[AlternativeName := AsStr(d)], AddTo(w.mapped, Alternatives, AsStr(d)), w.store), Done)
  }

  /** ScenarioActiveFlagMapping: adds (scenario, flag); a datum that is no truth value raises ValueError. */
  function ImportScenarioActiveFlag(w: World, d: Val): (r: Step)
    ensures ScenarioName !in w.state ==> r == Lacking(w, ScenarioName)
    ensures ScenarioName in w.state && StrToBool(Str(d)).Err? ==> r == Step(w, Escaped(StrToBool(Str(d)).error))
    ensures ScenarioName in w.state && StrToBool(Str(d)).Ok? ==>
      r == Step(w.(mapped := AddTo(w.mapped, Scenarios, OTuple([w.state[ScenarioName], OBool(StrToBool(Str(d)).value)]))), Done)
  {
    if ScenarioName !in w.state then Lacking(w, ScenarioName)
    else
      var active := StrToBool(Str(d));
      if active.Err? then Step(w, Escaped(active.error))
      else Step(w.(mapped := AddTo(w.mapped, Scenarios, OTuple([w.state[ScenarioName], OBool(active.value)]))), Done)
  }

  /**
   * ScenarioAlternativeMapping: an empty alternative is skipped; otherwise a
   * new [scenario, alternative] list is added to the scenario alternatives
   * and kept in the state for a before-alternative to extend.
   */
  function ImportScenarioAlternative(w: World, d: Val): (r: Step)
    ensures Str(d) == "" ==> r == Step(w, Done)
    ensures Str(d) != "" && ScenarioName !in w.state ==> r == Lacking(w, ScenarioName)
    ensures Str(d) != "" && ScenarioName in w.state ==>
      && r.raised == Done && r.world.state == w.state[ScenarioAlternative := Next(w)]
      && r.world.mapped == AppendTo(w.mapped, ScenarioAlternatives, Next(w))
      && r.world.store == w.store + [ListCell([w.state[ScenarioName], AsStr(d)])]
  {
    if Str(d) == "" then Step(w, Done)
    else if ScenarioName !in w.state then Lacking(w, ScenarioName)
    else
      var pair := Next(w);
      Step(World(w.state[ScenarioAlternative := pair], AppendTo(w.mapped, ScenarioAlternatives, pair),
                 w.store + [ListCell([w.state[ScenarioName], AsStr(d)])]), Done)
  }

  /** ToolMapping: names the row's tool, and adds it to the tools when nothing is mapped below it. */
  function ImportTool(w: World, d: Val, last: bool): (r: Step)
    ensures r.raised == Done && r.world.store == w.store && r.world.state == w.state[ToolName := AsStr(d)]
    ensures r.world.mapped == if last then AddTo(w.mapped, Tools, AsStr(d)) else w.mapped
  {
    Step(World(w.state[ToolName := AsStr(d)], if last then AddTo(w.mapped, Tools, AsStr(d)) else w.mapped, w.store), Done)
  }

  /** FeatureEntityClassMapping: starts a new feature, a list holding the entity class. */
  function ImportFeatureEntityClass(w: World, d: Val): (r: Step)
    ensures r == Step(World(w.state[Feature := Next(w)], w.mapped, w.store + [ListCell([AsStr(d)])]), Done)
  {
    var feature := Next(w);
    Step(World(w.state[Feature := feature], w.mapped, w.store + [ListCell([AsStr(d)])]), Done)
  }

  /** FeatureParameterDefinitionMapping: extends the feature with the parameter and adds the feature, as a tuple, to the features. */
  function ImportFeatureParameterDefinition(w: World, d: Val): (r: Step)
    ensures Feature !in w.state ==> r == Lacking(w, Feature)
    ensures Feature in w.state && IsList(w.store, w.state[Feature]) ==>
      && r.raised == Done && r.world.state == w.state
      && ListIn(r.world.store, w.state[Feature]) == ListIn(w.store, w.state[Feature]) + [AsStr(d)]
      && SetAt(r.world.mapped, Features) == SetAt(w.mapped, Features) + {OTuple(ListIn(w.store, w.state[Feature]) + [AsStr(d)])}
  {
    if Feature !in w.state then Lacking(w, Feature)
    else
      var feature := w.state[Feature];
      var store := Push(w.store, feature, AsStr(d));
      Step(World(w.state, AddTo(w.mapped, Features, OTuple(ListIn(store, feature))), store), Done)
  }

  /**
   * ToolFeatureEntityClassMapping and ToolFeatureMethodEntityClassMapping: a
   * new [tool, entity class] list is added to the given item type and kept in
   * the state under the given key for the mappings below to extend.
   */
  function ImportToolItem(w: World, d: Val, key: ImportKey, itemType: string): (r: Step)
    ensures ToolName !in w.state ==> r == Lacking(w, ToolName)
    ensures ToolName in w.state ==>
      && r.raised == Done && r.world.state == w.state[key := Next(w)]
      && r.world.mapped == AppendTo(w.mapped, itemType, Next(w))
      && r.world.store == w.store + [ListCell([w.state[ToolName], AsStr(d)])]
  {
    if ToolName !in w.state then Lacking(w, ToolName)
    else
      var item := Next(w);
      Step(World(w.state[key := item], AppendTo(w.mapped, itemType, item), w.store + [ListCell([w.state[ToolName], AsStr(d)])]), Done)
  }

  /** ToolFeatureRequiredFlagMapping: the flag is read first, so a datum that is no truth value raises ValueError even without a tool feature. */
  function ImportToolFeatureRequiredFlag(w: World, d: Val): (r: Step)
    ensures StrToBool(Str(d)).Err? ==> r == Step(w, Escaped(StrToBool(Str(d)).error))
    ensures StrToBool(Str(d)).Ok? ==> r == AppendHeld(w, ToolFeature, OBool(StrToBool(Str(d)).value))
  {
    var required := StrToBool(Str(d));
    if required.Err? then Step(w, Escaped(required.error))
    else AppendHeld(w, ToolFeature, OBool(required.value))
  }

  /** _skip_row: the expanded value mappings drop the row's indexes; every other mapping does nothing. */
  function SkipRow(t: MapType, w: World): (r: World)
    ensures r.mapped == w.mapped && r.store == w.store
    ensures t == ExpandedDefaultValue ==> r.state == w.state - {ParameterDefaultValueIndexes}
    ensures t == ExpandedValue ==> r.state == w.state - {ParameterValueIndexes}
    ensures t != ExpandedDefaultValue && t != ExpandedValue ==> r == w
  {
    match t
    case ExpandedDefaultValue => w.(state := w.state - {ParameterDefaultValueIndexes})
    case ExpandedValue => w.(state := w.state - {ParameterValueIndexes})
    case _ => w
  }

  // ---------------------------------------------------------------------------
  // Dispatch over a chain

  /** How many mappings of a class a chain holds. */
  function CountOf(chain: seq<MappingSpec>, t: MapType): (n: nat)
    ensures n <= |chain|
  {
    if chain == [] then 0 else (if chain[0].mapType == t then 1 else 0) + CountOf(chain[1..], t)
  }

  /** The _import_row of mapping i of a chain, on the datum it read from the row. */
  function Imported(chain: seq<MappingSpec>, i: nat, d: Val, w: World): (r: Step)
    requires i < |chain|
    ensures r.raised.Escaped? ==> r.raised.error.ValueError? || r.raised.error.IndexError?
  {
    var m := chain[i];
    match m.mapType
    case ObjectClass => ImportObjectClass(w, d)
    case Object => ImportObject(w, d, i + 1 < |chain| && chain[i + 1].mapType == ObjectGroup)
    case ObjectMetadata => Step(w, Done)
    case ObjectGroup => ImportObjectGroup(w, d, m.importObjects)
    case RelationshipClass => ImportRelationshipClass(w, d, CountOf(chain[i..], RelationshipClassObjectClass))
    case RelationshipClassObjectClass => ImportRelationshipClassObjectClass(w, d)
    case Relationship => ImportRelationship(w)
    case RelationshipObject => ImportRelationshipObject(w, d, m.importObjects)
    case RelationshipMetadata => Step(w, Done)
    case ParameterDefinitionType => ImportParameterDefinition(w, d)
    case ParameterDefaultValue => ImportParameterDefaultValue(w, d)
    case ParameterDefaultValueType => ImportParameterDefaultValueType(w, d, m.compress, m.options)
    case DefaultValueIndexName =>
      ImportIndexName(w, d, ParameterDefaultValues, DefaultValueKey(w), CountOf(chain[..i], DefaultValueIndexName))
    case ParameterDefaultValueIndex => ImportIndex(w, d, ParameterDefaultValueIndexes)
    case ExpandedDefaultValue => ImportExpanded(w, d, ParameterDefaultValues, false, ParameterDefaultValueIndexes)
    case ParameterValue => ImportParameterValue(w, d)
    case ParameterValueType => ImportParameterValueType(w, d, m.compress, m.options)
    case ParameterValueMetadata => Step(w, Done)
    case IndexName => ImportIndexName(w, d, ParameterValues, ParameterValueKey(w), CountOf(chain[..i], IndexName))
    case ParameterValueIndex => ImportIndex(w, d, ParameterValueIndexes)
    case ExpandedValue => ImportExpanded(w, d, ParameterValues, true, ParameterValueIndexes)
    case ParameterValueList => ImportParameterValueList(w, d, i > 0)
    case ParameterValueListValue => ImportParameterValueListValue(w, d)
    case Alternative => ImportAlternative(w, d)
    case Scenario => Step(w.(state := w.state[ScenarioName := AsStr(d)]), Done)
    case ScenarioActiveFlag => ImportScenarioActiveFlag(w, d)
    case ScenarioAlternativeType => ImportScenarioAlternative(w, d)
    case ScenarioBeforeAlternative => AppendHeld(w, ScenarioAlternative, AsStr(d))
    case Tool => ImportTool(w, d, i + 1 == |chain|)
    case FeatureEntityClass => ImportFeatureEntityClass(w, d)
    case FeatureParameterDefinition => ImportFeatureParameterDefinition(w, d)
    case ToolFeatureEntityClass => ImportToolItem(w, d, ToolFeature, ToolFeatures)
    case ToolFeatureParameterDefinition => AppendHeld(w, ToolFeature, AsStr(d))
    case ToolFeatureRequiredFlag => ImportToolFeatureRequiredFlag(w, d)
    case ToolFeatureMethodEntityClass => ImportToolItem(w, d, ToolFeatureMethod, ToolFeatureMethods)
    case ToolFeatureMethodParameterDefinition => AppendHeld(w, ToolFeatureMethod, AsStr(d))
    case ToolFeatureMethodMethod => if d == VStr("") then Step(w, Done) else AppendHeld(w, ToolFeatureMethod, OData(d))
  }

  // ---------------------------------------------------------------------------
  // import_row: one row through the whole chain


  /** repr() of a value held as a key. */
  function Repr(o: Obj): string
    decreases o
  {
    match o
    case ONone => "None"
    case OStr(s) => "'" + s + "'"
    case OBool(b) => if b then "True" else "False"
    case OInt(n) => IntToString(n)
    case OData(v) => Str(v)
    case OKey(k) => KeyText(k)
    case OTuple(elems) =>
      var parts := seq(|elems|, j requires 0 <= j < |elems| => Repr(elems[j]));
      if |elems| == 1 then "(" + parts[0] + ",)" else "(" + Join(parts, ", ") + ")"
    case OList(elems) => "[" + Join(seq(|elems|, j requires 0 <= j < |elems| => Repr(elems[j])), ", ") + "]"
    case ORef(c) => "<" + NatToString(c) + ">"
  }

  /** f"{key}": an ImportKey by its description, a string as itself, anything else by its repr. */
  function KeyStr(key: Obj): (r: string)
    ensures key.OKey? ==> r == KeyText(key.k)
    ensures key.OStr? ==> r == key.s
  {
    match key
    case OKey(k) => KeyText(k)
    case OStr(s) => s
    case _ => Repr(key)
  }

  const RequiredKey := "Required key '"
  const IsInvalid := "' is invalid"

  /** The error import_row records when mapping number rank raises KeyError(key). */
  function Invalid(rank: nat, key: Obj): (e: MappingError<Obj>)
    ensures e.rank == rank && e.key == key && e.msg == RequiredKey + KeyStr(key) + IsInvalid
  {
    MappingError(RequiredKey + KeyStr(key) + IsInvalid, rank, key)
  }

  /** What a row leaves: the new world, the errors, and the exception that ended it, if one did. */
  datatype Outcome = Outcome(world: World, errors: seq<MappingError<Obj>>, escaped: Option<Error>)

  /** Whether import_row skips a mapping: a hidden position with no value. */
  predicate Skipped(m: MappingSpec)
  {
    m.position == Hidden && m.value == VNone
  }

  /**
   * import_row from mapping i down: a skipped mapping does nothing; a None
   * datum calls _skip_row; a KeyError(key) records an error at the mapping's
   * rank; a KeyFix(key) removes the errors about key; any other exception
   * ends the row, leaving whatever the mappings above did. data[j] is
   * source_row[position] of mapping j.
   */
  function RowFrom(chain: seq<MappingSpec>, data: seq<Val>, i: nat, w: World, errors: seq<MappingError<Obj>>): (o: Outcome)
    requires |data| == |chain| && i <= |chain|
    decreases |chain| - i
  {
    if i == |chain| then Outcome(w, errors, None)
    else if Skipped(chain[i]) then RowFrom(chain, data, i + 1, w, errors)
    else if data[i] == VNone then RowFrom(chain, data, i + 1, SkipRow(chain[i].mapType, w), errors)
    else
      var s := Imported(chain, i, data[i], w);
      match s.raised
      case Done => RowFrom(chain, data, i + 1, s.world, errors)
      case Missing(key) => RowFrom(chain, data, i + 1, s.world, errors + [Invalid(i, key)])
      case Fixed(key) => RowFrom(chain, data, i + 1, s.world, Without(errors, key))
      case Escaped(e) => Outcome(s.world, errors, Some(e))
  }

  /**
   * The errors a row leaves are the ones it started with, less those a KeyFix
   * removed, plus one "Required key ... is invalid" per KeyError, at the
   * rank of a mapping it went through; and the only exceptions that escape
   * are a bad truth value and a relationship with more objects than classes.
   */
  lemma {:induction false} RowErrors(chain: seq<MappingSpec>, data: seq<Val>, i: nat, w: World, errors: seq<MappingError<Obj>>)
    requires |data| == |chain| && i <= |chain|
    ensures var o := RowFrom(chain, data, i, w, errors);
      && (forall e :: e in o.errors ==> e in errors || (i <= e.rank < |chain| && e == Invalid(e.rank, e.key)))
      && (o.escaped.Some? ==> o.escaped.value.ValueError? || o.escaped.value.IndexError?)
    decreases |chain| - i
  {
    if i < |chain| {
      if Skipped(chain[i]) {
        RowErrors(chain, data, i + 1, w, errors);
      } else if data[i] == VNone {
        RowErrors(chain, data, i + 1, SkipRow(chain[i].mapType, w), errors);
      } else {
        var s := Imported(chain, i, data[i], w);
        match s.raised
        case Done => RowErrors(chain, data, i + 1, s.world, errors);
        case Missing(key) => RowErrors(chain, data, i + 1, s.world, errors + [Invalid(i, key)]);
        case Fixed(key) =>
          RowErrors(chain, data, i + 1, s.world, Without(errors, key));
          forall e | e in Without(errors, key) ensures e in errors {
            WithoutMembers(errors, key, e);
          }
        case Escaped(_) =>
      }
    }
  }


  /**
   * An import of rows: the state, mapped_data and store one row threads
   * through the chain, and the errors list import_row appends to.
   */
  class RowImport {
    var state: map<ImportKey, Obj>
    var mapped: map<string, Cell>
    var store: seq<Cell>
    var errors: seq<MappingError<Obj>>

    /** The state, mapped_data and store as one value. */
    function Current(): (w: World)
      reads this
      ensures w.state == state && w.mapped == mapped && w.store == store
    {
      World(state, mapped, store)
    }

    /** A fresh import: empty state, nothing mapped, no errors. */
    constructor()
      ensures state == map[] && mapped == map[] && store == [] && errors == []
    {
      state := map[];
      mapped := map[];
      store := [];
      errors := [];
    }

    /**
     * import_row on a row whose data the chain's mappings read: a row the
     * filters reject changes nothing; otherwise the row goes down the chain
     * as RowFrom says, and the exception that ended it, if any, is returned.
     */
    method ImportRow(chain: seq<MappingSpec>, data: seq<Val>, rejected: bool) returns (escaped: Option<Error>)
      requires |data| == |chain|
      modifies this
      ensures rejected ==> escaped == None && Current() == old(Current()) && errors == old(errors)
      ensures !rejected ==> RowFrom(chain, data, 0, old(Current()), old(errors)) == Outcome(Current(), errors, escaped)
    {
      escaped := None;
      if rejected {
        return;
      }
      var w, errs := Current(), errors;
      var i := 0;
      while i < |chain| && escaped.None?
        invariant 0 <= i <= |chain|
        invariant escaped.None? ==> RowFrom(chain, data, 0, old(Current()), old(errors)) == RowFrom(chain, data, i, w, errs)
        invariant escaped.Some? ==> RowFrom(chain, data, 0, old(Current()), old(errors)) == Outcome(w, errs, escaped)
      {
        var m := chain[i];
        if !Skipped(m) {
          if data[i] == VNone {
            w := SkipRow(m.mapType, w);
          } else {
            var s := Imported(chain, i, data[i], w);
            w := s.world;
            match s.raised
            case Done =>
            case Missing(key) => errs := errs + [Invalid(i, key)];
            case Fixed(key) => errs := PopFixed(errs, key);
            case Escaped(e) => escaped := Some(e);
          }
        }
        i := i + 1;
      }
      state, mapped, store, errors := w.state, w.mapped, w.store, errs;
    }
  }

  /**
   * check_validity: the chain imports a row whose every datum is "true" into
   * an empty state, and the errors it records are the answer; an exception
   * that escapes import_row escapes check_validity too.
   */
  method CheckValidity(chain: seq<MappingSpec>, rejected: bool) returns (r: Result<seq<MappingError<Obj>>>)
    ensures var o := RowFrom(chain, Dummy(|chain|), 0, World(map[], map[], []), []);
      && (rejected ==> r == Ok([]))
      && (!rejected && o.escaped.None? ==> r == Ok(o.errors))
      && (!rejected && o.escaped.Some? ==> r == Err(o.escaped.value))
  {
    var row := new RowImport();
    var escaped := row.ImportRow(chain, Dummy(|chain|), rejected);
    if escaped.Some? {
      return Err(escaped.value);
    }
    return Ok(row.errors);
  }

  const TrueText := VStr("true")

  /** The data of check_validity's dummy row, which holds "true" at every position. */
  function Dummy(n: nat): (d: seq<Val>)
    ensures |d| == n && forall j :: 0 <= j < n ==> d[j] == TrueText
  {
    seq(n, _ => TrueText)
  }

  // ---------------------------------------------------------------------------
  // KeyError and KeyFix across a chain

  /** A mapping reading column c, with no value, filter or options. */
  function ColumnMapping(t: MapType, c: nat): (m: MappingSpec)
    ensures m.mapType == t && !Skipped(m)
  {
    MappingSpec(t, Column(c), VNone, [], 0, "", false, false, VNone)
  }

  const GroupChain := [ColumnMapping(ObjectClass, 0), ColumnMapping(Object, 1), ColumnMapping(ObjectGroup, 2)]

  /**
   * An object class, object and object group chain: the object mapping's
   * KeyError(MEMBER_NAME) is cleared by the group mapping's KeyFix, which also
   * clears any earlier error about the member, so the row adds no error.
   */
  lemma GroupChainValid(data: seq<Val>, w: World, errors: seq<MappingError<Obj>>)
    requires |data| == 3 && data[0] != VNone && data[1] != VNone && data[2] != VNone
    ensures RowFrom(GroupChain, data, 0, w, errors).errors == Without(errors, OKey(MemberName))
    ensures RowFrom(GroupChain, data, 0, w, errors).escaped == None
  {
    var s0 := ImportObjectClass(w, data[0]);
    assert Imported(GroupChain, 0, data[0], w) == s0;
    var s1 := ImportObject(s0.world, data[1], true);
    assert Imported(GroupChain, 1, data[1], s0.world) == s1;
    var s2 := ImportObjectGroup(s1.world, data[2], false);
    assert Imported(GroupChain, 2, data[2], s1.world) == s2;
    assert s2.raised == Fixed(OKey(MemberName));
    WithoutAppend(errors, [Invalid(1, OKey(MemberName))], OKey(MemberName));
  }

  /**
   * The same chain with the group mapping hidden: nothing clears the object
   * mapping's KeyError, so the row reports MEMBER_NAME at rank 1.
   */
  lemma GroupChainIncomplete(data: seq<Val>, w: World, errors: seq<MappingError<Obj>>)
    requires |data| == 3 && data[0] != VNone && data[1] != VNone
    ensures var chain := GroupChain[2 := GroupChain[2].(position := Hidden)];
      && RowFrom(chain, data, 0, w, errors).errors == errors + [Invalid(1, OKey(MemberName))]
      && RowFrom(chain, data, 0, w, errors).escaped == None
  {
    var chain := GroupChain[2 := GroupChain[2].(position := Hidden)];
    var s0 := ImportObjectClass(w, data[0]);
    assert Imported(chain, 0, data[0], w) == s0;
    var s1 := ImportObject(s0.world, data[1], true);
    assert Imported(chain, 1, data[1], s0.world) == s1;
    assert s1.raised == Missing(OKey(MemberName));
    assert Skipped(chain[2]);
    assert RowFrom(chain, data, 2, s1.world, errors + [Invalid(1, OKey(MemberName))]).errors
      == errors + [Invalid(1, OKey(MemberName))];
  }

  const RelationshipChain := [ColumnMapping(RelationshipClass, 0), ColumnMapping(RelationshipClassObjectClass, 1)]

  /**
   * A relationship class over one object class: the class mapping counts one
   * object class mapping below it and raises KeyError(OBJECT_CLASS_NAMES),
   * and the object class that completes the list clears it.
   */
  lemma RelationshipChainValid(data: seq<Val>, w: World, errors: seq<MappingError<Obj>>)
    requires |data| == 2 && data[0] != VNone && data[1] != VNone
    ensures RowFrom(RelationshipChain, data, 0, w, errors).errors == Without(errors, OKey(ObjectClassNames))
    ensures RowFrom(RelationshipChain, data, 0, w, errors).escaped == None
  {
    var chain := RelationshipChain;
    assert CountOf(chain[1..], RelationshipClassObjectClass) == 1;
    assert CountOf(chain[0..], RelationshipClassObjectClass) == 1 by { assert chain[0..] == chain; }
    var s0 := ImportRelationshipClass(w, data[0], 1);
    assert Imported(chain, 0, data[0], w) == s0;
    var names := Next(w);
    var s1 := ImportRelationshipClassObjectClass(s0.world, data[1]);
    assert Imported(chain, 1, data[1], s0.world) == s1;
    assert ListIn(s1.world.store, names) == [AsStr(data[1])];
    assert s1.raised == Fixed(OKey(ObjectClassNames));
    WithoutAppend(errors, [Invalid(0, OKey(ObjectClassNames))], OKey(ObjectClassNames));
  }

  /**
   * A relationship class with no object class mapping below it: the list it
   * waits for is never filled, so the row reports OBJECT_CLASS_NAMES at rank
   * 0, under the key's description.
   */
  lemma RelationshipClassAlone(data: seq<Val>, w: World, errors: seq<MappingError<Obj>>)
    requires |data| == 1 && data[0] != VNone
    ensures var o := RowFrom(RelationshipChain[..1], data, 0, w, errors);
      o.errors == errors + [Invalid(0, OKey(ObjectClassNames))] && o.escaped == None
  {
    var chain := RelationshipChain[..1];
    assert CountOf(chain[0..], RelationshipClassObjectClass) == 0 by { assert chain[0..] == chain; }
    assert Imported(chain, 0, data[0], w) == ImportRelationshipClass(w, data[0], 0);
  }

  /**
   * A typed value is registered once per key: once ParameterValueTypeMapping
   * has run for a (class, entity, parameter, alternative), running it again
   * for the same key, with any type, adds nothing and raises nothing.
   */
  lemma ValueTypeOnce(w: World, d: Val, compress: bool, options: Val, d': Val, compress': bool, options': Val)
    requires Peek(w, ParameterName) != ONone && ParameterValues in w.state && IsDict(w.store, w.state[ParameterValues])
    requires ValueKeyOf(w).Got?
    ensures var s := ImportParameterValueType(w, d, compress, options);
      ImportParameterValueType(s.world, d', compress', options') == Step(s.world, Done)
  {
    var s := ImportParameterValueType(w, d, compress, options);
    if ValueKeyOf(w).value !in DictIn(w.store, w.state[ParameterValues]) {
      ListsKept(w.store, s.world.store, w.state[ParameterValues].cell);
      SameValueKey(w, s.world);
    }
  }

  /** Lists held by reference read the same after a dict cell was rewritten and a dict cell appended. */
  lemma ListsKept(store: seq<Cell>, store': seq<Cell>, dict: nat)
    requires |store'| == |store| + 1 && !store'[|store|].ListCell?
    requires dict < |store| ==> !store[dict].ListCell? && !store'[dict].ListCell?
    requires forall c :: 0 <= c < |store| && c != dict ==> store'[c] == store[c]
    ensures forall o :: ListIn(store', o) == ListIn(store, o)
  {
  }

  /** The key a typed value goes under reads only the state and the lists. */
  lemma SameValueKey(w: World, w': World)
    requires Peek(w, ParameterName) != ONone && w'.state == w.state
    requires forall o :: ListIn(w'.store, o) == ListIn(w.store, o)
    ensures ValueKeyOf(w') == ValueKeyOf(w)
  {
  }
}
