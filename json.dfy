// JSON values as Python's json module hands them over: None, bool, numbers,
// str, list and dict. Numbers are integers here (floating point is not
// modelled). A dict is an association list in insertion order; nothing keeps
// its keys distinct, and Lookup reads the first entry under a key.

module Json {
  import opened Errors
  import opened Text

  datatype Json =
    | JNull
    | JBool(b: bool)
    | JNum(n: int)
    | JStr(s: string)
    | JArr(items: seq<Json>)
    | JObj(fields: seq<(string, Json)>)

  /** The value stored under key: the first entry with that key. */
  function Lookup(fields: seq<(string, Json)>, key: string): (r: Option<Json>)
    ensures r.Some? <==> HasKey(fields, key)
    decreases |fields|
  {
    if fields == [] then None
    else if fields[0].0 == key then Some(fields[0].1)
    else Lookup(fields[1..], key)
  }

  predicate HasKey(fields: seq<(string, Json)>, key: string)
  {
    exists i :: 0 <= i < |fields| && fields[i].0 == key
  }

  function Keys(fields: seq<(string, Json)>): (ks: seq<string>)
    ensures |ks| == |fields|
    ensures forall i :: 0 <= i < |fields| ==> ks[i] == fields[i].0
    decreases |fields|
  {
    if fields == [] then [] else [fields[0].0] + Keys(fields[1..])
  }

  /** d[key] = value: replaces the value in place when the key is present, appends otherwise. */
  function Put(fields: seq<(string, Json)>, key: string, value: Json): (r: seq<(string, Json)>)
    ensures Lookup(r, key) == Some(value)
    decreases |fields|
  {
    if fields == [] then [(key, value)]
    else if fields[0].0 == key then [(key, value)] + fields[1..]
    else [fields[0]] + Put(fields[1..], key, value)
  }

  /** The value under key is the one at the first position holding key. */
  lemma {:induction false} LookupAt(fields: seq<(string, Json)>, key: string, i: nat)
    requires i < |fields| && fields[i].0 == key
    requires forall j :: 0 <= j < i ==> fields[j].0 != key
    ensures Lookup(fields, key) == Some(fields[i].1)
    decreases i
  {
    if i > 0 {
      LookupAt(fields[1..], key, i - 1);
    }
  }

  lemma HasKeyCons(fields: seq<(string, Json)>, key: string)
    requires fields != []
    ensures HasKey(fields, key) <==> fields[0].0 == key || HasKey(fields[1..], key)
  {
    if HasKey(fields[1..], key) {
      var i :| 0 <= i < |fields[1..]| && fields[1..][i].0 == key;
      assert fields[i + 1].0 == key;
    }
  }

  /** Assignment keeps the key order: an existing key stays where it is, a new one goes last. */
  lemma {:induction false} PutKeys(fields: seq<(string, Json)>, key: string, value: Json)
    ensures Keys(Put(fields, key, value)) == if HasKey(fields, key) then Keys(fields) else Keys(fields) + [key]
    decreases |fields|
  {
    if fields != [] {
      HasKeyCons(fields, key);
      var r := Put(fields, key, value);
      if fields[0].0 == key {
        assert r[1..] == fields[1..];
      } else {
        PutKeys(fields[1..], key, value);
        assert r[1..] == Put(fields[1..], key, value);
      }
    }
  }

  /** Assignment leaves the other keys' values alone. */
  lemma {:induction false} PutOther(fields: seq<(string, Json)>, key: string, value: Json, other: string)
    requires other != key
    ensures Lookup(Put(fields, key, value), other) == Lookup(fields, other)
    decreases |fields|
  {
    if fields != [] && fields[0].0 != key {
      PutOther(fields[1..], key, value, other);
    }
  }

  /** Assigning a new key appends it. */
  lemma {:induction false} PutNew(fields: seq<(string, Json)>, key: string, value: Json)
    requires !HasKey(fields, key)
    ensures Put(fields, key, value) == fields + [(key, value)]
    decreases |fields|
  {
    if fields != [] {
      HasKeyCons(fields, key);
      PutNew(fields[1..], key, value);
      assert fields == [fields[0]] + fields[1..];
    }
  }

  /** bool(x) */
  function Truthy(j: Json): bool
  {
    match j
    case JNull => false
    case JBool(b) => b
    case JNum(n) => n != 0
    case JStr(s) => s != []
    case JArr(items) => items != []
    case JObj(fields) => fields != []
  }

  /** isinstance(x, Sequence) for the JSON types: str and list. */
  predicate IsSequence(j: Json)
  {
    j.JStr? || j.JArr?
  }

  /**
   * str(x), as used in error messages and in "{}m".format(x). The text of a
   * non-empty list or dict is abbreviated to its brackets around "...".
   */
  function PyStr(j: Json): string
  {
    match j
    case JNull => "None"
    case JBool(b) => if b then "True" else "False"
    case JNum(n) => IntToString(n)
    case JStr(s) => s
    case JArr(items) => if items == [] then "[]" else "[...]"
    case JObj(fields) => if fields == [] then "{}" else "{...}"
  }

  /** Distinct keys, as every dict has. */
  predicate DistinctKeys(fields: seq<(string, Json)>)
  {
    forall i, j :: 0 <= i < j < |fields| ==> fields[i].0 != fields[j].0
  }

  /**
   * d[key] on a decoded JSON value: the value under the key of a dict,
   * KeyError when the dict lacks it, TypeError when the value is not a dict.
   */
  function Subscript(j: Json, key: string): (r: Result<Json>)
    ensures j.JObj? ==> (r.Ok? <==> HasKey(j.fields, key))
    ensures j.JObj? && r.Ok? ==> Lookup(j.fields, key) == Some(r.value)
    ensures j.JObj? && r.Err? ==> r.error == KeyError(key)
    ensures !j.JObj? ==> r.Err? && r.error.TypeError?
  {
    match j
    case JObj(fields) =>
      (match Lookup(fields, key)
       case Some(v) => Ok(v)
       case None => Err(KeyError(key)))
    case JStr(_) => Err(TypeError("string indices must be integers"))
    case JArr(_) => Err(TypeError("list indices must be integers or slices, not str"))
    case _ => Err(TypeError("'" + JsonTypeName(j) + "' object is not subscriptable"))
  }

  /** Whether key occurs in s as a run of consecutive characters (Python's `key in s` on two strings). */
  function Occurs(key: string, s: string): (r: bool)
    ensures StartsWith(s, key) ==> r
    ensures r ==> |key| <= |s|
    decreases |s|
  {
    StartsWith(s, key) || (s != [] && Occurs(key, s[1..]))
  }

  /**
   * `key in j` on a decoded JSON value: a dict tests its keys, a list its
   * elements, a str its substrings; any other value is not iterable.
   */
  function Contains(j: Json, key: string): (r: Result<bool>)
    ensures j.JObj? ==> r == Ok(HasKey(j.fields, key))
    ensures j.JArr? ==> r == Ok(JStr(key) in j.items)
    ensures j.JStr? ==> r == Ok(Occurs(key, j.s))
    ensures !j.JObj? && !j.JArr? && !j.JStr? ==> r.Err? && r.error.TypeError?
  {
    match j
    case JObj(fields) => Ok(HasKey(fields, key))
    case JArr(items) => Ok(JStr(key) in items)
    case JStr(s) => Ok(Occurs(key, s))
    case _ => Err(TypeError("argument of type '" + JsonTypeName(j) + "' is not iterable"))
  }

  /** The name of the Python type of the value. */
  function JsonTypeName(j: Json): string
  {
    match j
    case JNull => "NoneType"
    case JBool(_) => "bool"
    case JNum(_) => "int"
    case JStr(_) => "str"
    case JArr(_) => "list"
    case JObj(_) => "dict"
  }
}
