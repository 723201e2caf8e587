// Renaming entity classes (spinedb_api/filters/renamer.py): the filter
// configuration, its shorthand "entity_class_rename:old:new:...", the map
// from class id to new name, and the renaming entity class view. The
// shorthand builder and parser are loops, proved against the functions
// Shorthand and NameMapOf.

module Renamer {
  import opened Errors
  import opened Text
  import opened Json
  import opened MappingBase

  const ENTITY_CLASS_RENAMER_TYPE: string := "entity_class_renamer"
  const ENTITY_CLASS_RENAMER_SHORTHAND_TAG: string := "entity_class_rename"

  /** entity_class_renamer_config: the renames become the name_map dict. */
  function RenamerConfig(renames: seq<(string, Json)>): (c: Json)
    ensures Subscript(c, "type") == Ok(JStr(ENTITY_CLASS_RENAMER_TYPE))
    ensures Subscript(c, "name_map") == Ok(JObj(renames))
  {
    var fields := [("type", JStr(ENTITY_CLASS_RENAMER_TYPE)), ("name_map", JObj(renames))];
    assert fields[0].0 != "name_map";
    assert Lookup(fields[1..], "name_map") == Some(JObj(renames));
    JObj(fields)
  }

  // ---------------------------------------------------------------------------
  // Configuration to shorthand

  /** ":" + old + ":" + new for one pair. */
  function Piece(oldName: string, newName: string): string
  {
    ":" + oldName + ":" + newName
  }

  /** The pieces of the pairs, in map order; the first new name that is not a str fails the concatenation. */
  function Pieces(renames: seq<(string, Json)>): (r: Result<string>)
    ensures r.Ok? <==> forall i :: 0 <= i < |renames| ==> renames[i].1.JStr?
    decreases |renames|
  {
    if renames == [] then Ok("")
    else
      var front :- Pieces(renames[..|renames| - 1]);
      var (oldName, newName) := renames[|renames| - 1];
      if newName.JStr? then Ok(front + Piece(oldName, newName.s))
      else Err(TypeError("can only concatenate str (not \"" + JsonTypeName(newName) + "\") to str"))
  }

  /** entity_class_renamer_config_to_shorthand, as a value. */
  function Shorthand(config: Json): Result<string>
  {
    var nameMap :- Subscript(config, "name_map");
    if !nameMap.JObj? then Err(TypeError("'" + JsonTypeName(nameMap) + "' object has no attribute 'items'"))
    else
      var pieces :- Pieces(nameMap.fields);
      Ok(ENTITY_CLASS_RENAMER_SHORTHAND_TAG + pieces)
  }

  /** entity_class_renamer_config_to_shorthand: the tag, then ":old:new" for each pair of the name map in order. */
  method ConfigToShorthand(config: Json) returns (r: Result<string>)
    ensures r == Shorthand(config)
  {
    var nameMap := Subscript(config, "name_map");
    if nameMap.Err? {
      return Err(nameMap.error);
    }
    if !nameMap.value.JObj? {
      return Err(TypeError("'" + JsonTypeName(nameMap.value) + "' object has no attribute 'items'"));
    }
    var renames := nameMap.value.fields;
    var shorthand := "";
    for i := 0 to |renames|
      invariant Pieces(renames[..i]) == Ok(shorthand)
    {
      var (oldName, newName) := renames[i];
      assert renames[..i + 1][..i] == renames[..i];
      assert renames[..i + 1][i] == renames[i];
      if !newName.JStr? {
        PiecesErrSticks(renames, i + 1);
        return Err(TypeError("can only concatenate str (not \"" + JsonTypeName(newName) + "\") to str"));
      }
      shorthand := shorthand + Piece(oldName, newName.s);
    }
    assert renames[..|renames|] == renames;
    r := Ok(ENTITY_CLASS_RENAMER_SHORTHAND_TAG + shorthand);
  }

  /** Once a prefix fails, the whole sequence fails with the same error. */
  lemma {:induction false} PiecesErrSticks(renames: seq<(string, Json)>, i: nat)
    requires i <= |renames| && Pieces(renames[..i]).Err?
    ensures Pieces(renames) == Pieces(renames[..i])
    decreases |renames| - i
  {
    if i < |renames| {
      assert renames[..i + 1][..i] == renames[..i];
      PiecesErrSticks(renames, i + 1);
    } else {
      assert renames[..i] == renames;
    }
  }

  // ---------------------------------------------------------------------------
  // Shorthand to configuration

  /** zip(names[1::2], names[2::2]): the tokens after the tag, two by two; an unpaired last token is dropped. */
  function NamePairs(names: seq<string>): (r: seq<(string, string)>)
    ensures |r| == if |names| == 0 then 0 else (|names| - 1) / 2
    ensures forall k :: 0 <= k < |r| ==> r[k] == (names[2 * k + 1], names[2 * k + 2])
  {
    var n := if |names| == 0 then 0 else (|names| - 1) / 2;
    seq(n, k requires 0 <= k < n => (names[2 * k + 1], names[2 * k + 2]))
  }

  /** name_map[old] = new for each pair in order, starting from the given dict. */
  function PutAll(acc: seq<(string, Json)>, pairs: seq<(string, string)>): seq<(string, Json)>
    decreases |pairs|
  {
    if pairs == [] then acc
    else Put(PutAll(acc, pairs[..|pairs| - 1]), pairs[|pairs| - 1].0, JStr(pairs[|pairs| - 1].1))
  }

  /** entity_class_renamer_shorthand_to_config, as a value. */
  function NameMapOf(shorthand: string): seq<(string, Json)>
  {
    PutAll([], NamePairs(Split(shorthand, ':')))
  }

  /** entity_class_renamer_shorthand_to_config: split on ":", pair the tokens after the tag, later pairs overwriting earlier ones. */
  method ShorthandToConfig(shorthand: string) returns (c: Json)
    ensures c == RenamerConfig(NameMapOf(shorthand))
  {
    var names := Split(shorthand, ':');
    var pairs := NamePairs(names);
    var nameMap: seq<(string, Json)> := [];
    for i := 0 to |pairs|
      invariant nameMap == PutAll([], pairs[..i])
    {
      assert pairs[..i + 1][..i] == pairs[..i];
      nameMap := Put(nameMap, pairs[i].0, JStr(pairs[i].1));
    }
    assert pairs[..|pairs|] == pairs;
    c := RenamerConfig(nameMap);
  }

  // ---------------------------------------------------------------------------
  // The round trip

  /** The tokens of the shorthand of string renames: old, new, old, new, ... */
  function Flat(renames: seq<(string, string)>): (r: seq<string>)
    ensures |r| == 2 * |renames|
  {
    if renames == [] then [] else [renames[0].0, renames[0].1] + Flat(renames[1..])
  }

  function AsJson(renames: seq<(string, string)>): (r: seq<(string, Json)>)
    ensures |r| == |renames|
    ensures forall k :: 0 <= k < |renames| ==> r[k] == (renames[k].0, JStr(renames[k].1))
  {
    seq(|renames|, k requires 0 <= k < |renames| => (renames[k].0, JStr(renames[k].1)))
  }

  lemma {:induction false} PiecesOfStrings(renames: seq<(string, string)>)
    ensures Pieces(AsJson(renames)).Ok?
    ensures renames != [] ==> (Pieces(AsJson(renames)).value ==
      Pieces(AsJson(renames[..|renames| - 1])).value + Piece(renames[|renames| - 1].0, renames[|renames| - 1].1))
    ensures renames == [] ==> Pieces(AsJson(renames)).value == ""
  {
    if renames != [] {
      assert AsJson(renames)[..|renames| - 1] == AsJson(renames[..|renames| - 1]);
    }
  }

  /** The pieces of a head pair come first. */
  lemma {:induction false} PiecesCons(r: (string, string), rest: seq<(string, string)>)
    ensures Pieces(AsJson([r] + rest)).Ok? && Pieces(AsJson(rest)).Ok?
    ensures Pieces(AsJson([r] + rest)).value == Piece(r.0, r.1) + Pieces(AsJson(rest)).value
    decreases |rest|
  {
    PiecesOfStrings([r] + rest);
    PiecesOfStrings(rest);
    if rest != [] {
      var all := [r] + rest;
      assert all[..|all| - 1] == [r] + rest[..|rest| - 1];
      PiecesCons(r, rest[..|rest| - 1]);
    } else {
      PiecesOfStrings([]);
      assert ([r] + rest)[..0] == [];
    }
  }

  /** x followed by the pieces is the ":"-join of x and the tokens. */
  lemma {:induction false} PiecesJoin(x: string, renames: seq<(string, string)>)
    ensures Pieces(AsJson(renames)).Ok?
    ensures x + Pieces(AsJson(renames)).value == Join([x] + Flat(renames), ":")
    decreases |renames|
  {
    PiecesOfStrings(renames);
    if renames != [] {
      var o, n, rest := renames[0].0, renames[0].1, renames[1..];
      var f := Flat(rest);
      PiecesCons(renames[0], rest);
      assert renames == [renames[0]] + rest;
      PiecesJoin(n, rest);
      var tail := Pieces(AsJson(rest)).value;
      assert [x] + Flat(renames) == [x] + ([o] + ([n] + f));
      JoinCons(o, [n] + f, ":");
      JoinCons(x, [o] + ([n] + f), ":");
      ConcatShape(x, o, n, tail);
    }
  }

  lemma ConcatShape(x: string, o: string, n: string, tail: string)
    ensures x + (":" + o + ":" + n + tail) == x + ":" + (o + ":" + (n + tail))
  {
  }

  lemma JoinCons(a: string, rest: seq<string>, sep: string)
    requires rest != []
    ensures Join([a] + rest, sep) == a + sep + Join(rest, sep)
  {
    assert ([a] + rest)[1..] == rest;
  }

  lemma {:induction false} FlatTokens(renames: seq<(string, string)>, p: string)
    requires p in Flat(renames)
    ensures exists k :: 0 <= k < |renames| && (p == renames[k].0 || p == renames[k].1)
    decreases |renames|
  {
    if p !in [renames[0].0, renames[0].1] {
      FlatTokens(renames[1..], p);
      var k :| 0 <= k < |renames[1..]| && (p == renames[1..][k].0 || p == renames[1..][k].1);
      assert renames[1..][k] == renames[k + 1];
    }
  }

  lemma {:induction false} FlatAt(renames: seq<(string, string)>, k: nat)
    requires k < |renames|
    ensures Flat(renames)[2 * k] == renames[k].0 && Flat(renames)[2 * k + 1] == renames[k].1
    decreases k
  {
    if k > 0 {
      FlatAt(renames[1..], k - 1);
      assert Flat(renames) == [renames[0].0, renames[0].1] + Flat(renames[1..]);
    }
  }

  lemma {:induction false} NamePairsOfFlat(x: string, renames: seq<(string, string)>)
    ensures NamePairs([x] + Flat(renames)) == renames
  {
    var names := [x] + Flat(renames);
    forall k | 0 <= k < |renames| ensures NamePairs(names)[k] == renames[k] {
      FlatAt(renames, k);
      assert names[2 * k + 1] == Flat(renames)[2 * k];
      assert names[2 * k + 2] == Flat(renames)[2 * k + 1];
    }
  }

  /** Assigning distinct new keys one after another lays the pairs out in order. */
  lemma {:induction false} PutAllDistinct(pairs: seq<(string, string)>)
    requires forall i, j :: 0 <= i < j < |pairs| ==> pairs[i].0 != pairs[j].0
    ensures PutAll([], pairs) == AsJson(pairs)
    decreases |pairs|
  {
    if pairs != [] {
      var front := pairs[..|pairs| - 1];
      PutAllDistinct(front);
      var last := pairs[|pairs| - 1];
      forall i | 0 <= i < |AsJson(front)| ensures AsJson(front)[i].0 != last.0 {
        assert pairs[i].0 != last.0;
      }
      PutNew(AsJson(front), last.0, JStr(last.1));
      assert AsJson(front) + [(last.0, JStr(last.1))] == AsJson(pairs);
    }
  }

  /**
   * The shorthand of a configuration whose names are distinct strings
   * without ":" reads back as the same configuration.
   */
  lemma ShorthandRoundTrip(renames: seq<(string, string)>)
    requires forall i, j :: 0 <= i < j < |renames| ==> renames[i].0 != renames[j].0
    requires forall i :: 0 <= i < |renames| ==> ':' !in renames[i].0 && ':' !in renames[i].1
    ensures Shorthand(RenamerConfig(AsJson(renames))).Ok?
    ensures RenamerConfig(NameMapOf(Shorthand(RenamerConfig(AsJson(renames))).value)) == RenamerConfig(AsJson(renames))
  {
    PiecesJoin(ENTITY_CLASS_RENAMER_SHORTHAND_TAG, renames);
    var tokens := [ENTITY_CLASS_RENAMER_SHORTHAND_TAG] + Flat(renames);
    forall p | p in tokens ensures ':' !in p {
      if p != ENTITY_CLASS_RENAMER_SHORTHAND_TAG {
        assert p in Flat(renames);
        FlatTokens(renames, p);
      }
    }
    SplitJoin(tokens, ':');
    NamePairsOfFlat(ENTITY_CLASS_RENAMER_SHORTHAND_TAG, renames);
    PutAllDistinct(renames);
  }

  // ---------------------------------------------------------------------------
  // The renaming state and view

  /** A row of entity_class_sq; the columns the renamer copies unchanged are one opaque payload. */
  datatype ClassRow = ClassRow(id: int, typeId: int, name: Json, rest: string)

  /** The row's name is a key of the name map (`name.in_(names)`). */
  predicate Named(row: ClassRow, renames: seq<(string, Json)>)
  {
    row.name.JStr? && HasKey(renames, row.name.s)
  }

  /**
   * _EntityClassRenamerState._ids: each class whose name is a key of the
   * name map, by id, with its new name; names no class has are ignored.
   */
  function Ids(rows: seq<ClassRow>, renames: seq<(string, Json)>): (r: map<int, Json>)
    ensures forall id :: id in r <==> exists row :: row in rows && row.id == id && Named(row, renames)
    ensures forall id :: id in r ==>
      exists row :: row in rows && row.id == id && Named(row, renames) && Lookup(renames, row.name.s) == Some(r[id])
    decreases |rows|
  {
    if rows == [] then map[]
    else
      var last := rows[|rows| - 1];
      var front := Ids(rows[..|rows| - 1], renames);
      assert forall row :: row in rows[..|rows| - 1] ==> row in rows;
      if Named(last, renames) then front[last.id := Lookup(renames, last.name.s).value] else front
  }

  /** _EntityClassRenamerState: the new name of each renamed class id, and the class view current when it was made. */
  datatype State = State(idToName: map<int, Json>, originalClasses: seq<ClassRow>)

  function MakeState(classes: seq<ClassRow>, renames: seq<(string, Json)>): (s: State)
    ensures s.originalClasses == classes
    ensures forall id :: id in s.idToName <==> exists row :: row in classes && row.id == id && Named(row, renames)
  {
    State(Ids(classes, renames), classes)
  }

  /**
   * _make_renaming_entity_class_sq: with nothing to rename the captured view
   * itself; otherwise every row with its name replaced when its id is mapped,
   * all other columns and the row order unchanged.
   */
  function RenamedClasses(state: State): (r: seq<ClassRow>)
    ensures |r| == |state.originalClasses|
    ensures forall i :: 0 <= i < |r| ==>
      var row := state.originalClasses[i];
      r[i].id == row.id && r[i].typeId == row.typeId && r[i].rest == row.rest
      && r[i].name == (if row.id in state.idToName then state.idToName[row.id] else row.name)
  {
    var rows := state.originalClasses;
    if state.idToName == map[] then rows
    else
      seq(|rows|, i requires 0 <= i < |rows| =>
        var row := rows[i];
        if row.id in state.idToName then row.(name := state.idToName[row.id]) else row)
  }

  /**
   * With class ids unique, a class whose name is a key of the name map is
   * shown under its new name, and every other class keeps its name.
   */
  lemma RenamedByNameMap(classes: seq<ClassRow>, renames: seq<(string, Json)>, i: nat)
    requires forall a, b :: 0 <= a < b < |classes| ==> classes[a].id != classes[b].id
    requires i < |classes|
    ensures Named(classes[i], renames) ==>
      RenamedClasses(MakeState(classes, renames))[i].name == Lookup(renames, classes[i].name.s).value
    ensures !Named(classes[i], renames) ==> RenamedClasses(MakeState(classes, renames))[i] == classes[i]
  {
    var s := MakeState(classes, renames);
    var id := classes[i].id;
    assert classes[i] in classes;
    if id in s.idToName {
      var row :| row in classes && row.id == id && Named(row, renames) && Lookup(renames, row.name.s) == Some(s.idToName[id]);
      var k :| 0 <= k < |classes| && classes[k] == row;
      assert k == i;
    }
  }

  /**
   * apply_renaming_to_entity_class_sq: the state is made, then the entity
   * class maker is overridden.
   */
  method ApplyRenaming(m: Mapping, classes: seq<ClassRow>, renames: seq<(string, Json)>, maker: nat)
    returns (s: State)
    requires m.Valid()
    modifies m
    ensures m.Valid()
    ensures s == MakeState(classes, renames)
    ensures m.makers == old(m.makers)[EntityClass := Custom(maker)]
    ensures m.committing == old(m.committing)
  {
    s := MakeState(classes, renames);
    m.OverrideMaker(EntityClass, maker);
  }
}
