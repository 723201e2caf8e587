// The dynamic values held by the item dicts that the mapping classes pass
// around: an item is a dict from field names to None, bools, ints, strs,
// bytes, lists or tuples. Ids are ints; keys of the existing-key dicts are
// single values or tuples of values.

module Items {
  import opened Errors
  import opened Text

  datatype Val =
    | VNone
    | VBool(b: bool)
    | VInt(n: int)
    | VStr(s: string)
    | VBytes(bytes: string)
    | VList(elems: seq<Val>)
    | VTuple(elems: seq<Val>)

  /** An item dict. */
  type Item = map<string, Val>

  /**
   * An existing-key dict: key to the id of the item holding it. Items
   * registered during a batch of inserts have no id yet (None).
   */
  type KeyMap = map<Val, Option<int>>

  /** bool(v) */
  predicate Truthy(v: Val)
  {
    match v
    case VNone => false
    case VBool(b) => b
    case VInt(n) => n != 0
    case VStr(s) => s != []
    case VBytes(b) => b != []
    case VList(e) => e != []
    case VTuple(e) => e != []
  }

  /** str(v) in messages; the text of a non-empty list or tuple is abbreviated. */
  function Str(v: Val): string
  {
    match v
    case VNone => "None"
    case VBool(b) => if b then "True" else "False"
    case VInt(n) => IntToString(n)
    case VStr(s) => s
    case VBytes(b) => "b'" + b + "'"
    case VList(e) => if e == [] then "[]" else "[...]"
    case VTuple(e) => if e == [] then "()" else "(...)"
  }

  /** item.get(key) */
  function Get(item: Item, key: string): (v: Val)
    ensures key !in item ==> v == VNone
    ensures key in item ==> v == item[key]
  {
    if key in item then item[key] else VNone
  }

  /** d.get(key) on a dict keyed by values. */
  function GetVal<T>(d: map<Val, T>, key: Val, default: T): T
  {
    if key in d then d[key] else default
  }

  /** iter(v): the elements of a list or tuple, the characters of a str, the byte values of bytes. */
  function Iterate(v: Val): (r: Result<seq<Val>>)
    ensures (v.VList? || v.VTuple?) ==> r == Ok(v.elems)
    ensures (v.VNone? || v.VBool? || v.VInt?) ==> r.Err?
  {
    match v
    case VList(e) => Ok(e)
    case VTuple(e) => Ok(e)
    case VStr(s) => Ok(seq(|s|, i requires 0 <= i < |s| => VStr([s[i]])))
    case VBytes(b) => Ok(seq(|b|, i requires 0 <= i < |b| => VInt(b[i] as int)))
    case _ => Err(TypeError("object is not iterable"))
  }

  /** x in container, for the containers the checks use: lists and tuples. */
  function Contains(container: Val, x: Val): (r: Result<bool>)
    ensures (container.VList? || container.VTuple?) ==> r == Ok(x in container.elems)
  {
    match container
    case VList(e) => Ok(x in e)
    case VTuple(e) => Ok(x in e)
    case _ => Err(TypeError("argument is not a container"))
  }

  /** The keys of a required set that the item lacks, in the order given. */
  function MissingKeys(item: Item, keys: seq<string>): (r: seq<string>)
    ensures forall k :: k in r <==> k in keys && k !in item
  {
    if keys == [] then []
    else (if keys[0] in item then [] else [keys[0]]) + MissingKeys(item, keys[1..])
  }

  /** The key tuple of two or three fields. */
  function Pair(a: Val, b: Val): Val { VTuple([a, b]) }
  function Triple(a: Val, b: Val, c: Val): Val { VTuple([a, b, c]) }

  /** A key is taken when the dict holds it with an id; keys registered without an id are not seen. */
  predicate TakenWithId(m: KeyMap, key: Val)
  {
    key in m && m[key].Some?
  }
  /** d[key] on a stored item: a missing field raises KeyError. */
  function Field(item: Item, key: string): (r: Result<Val>)
    ensures r.Ok? <==> key in item
    ensures r.Ok? ==> r.value == item[key]
  {
    if key in item then Ok(item[key]) else Err(KeyError(key))
  }

  /** repr(v) for the values that appear in messages: a str is quoted. */
  function Repr(v: Val): string
  {
    if v.VStr? then "'" + v.s + "'" else Str(v)
  }

  /** The inside of repr(list): the elements' reprs separated by ", ". */
  function ReprItems(vs: seq<Val>): string
  {
    if vs == [] then "" else if |vs| == 1 then Repr(vs[0]) else Repr(vs[0]) + ", " + ReprItems(vs[1..])
  }

  /** repr of a tuple of values. */
  function TupleRepr(vs: seq<Val>): string
  {
    if |vs| == 1 then "(" + Repr(vs[0]) + ",)" else "(" + ReprItems(vs) + ")"
  }

  /** str of a tuple or list of values, written out in full. */
  function SeqText(v: Val): string
  {
    match v
    case VTuple(e) => TupleRepr(e)
    case VList(e) => "[" + ReprItems(e) + "]"
    case _ => Str(v)
  }
}
