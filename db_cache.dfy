// The in-memory cache (spinedb_api/db_cache.py): a DBCache maps table names
// to TableCaches, which map ids to CacheItems. Items remember who refers to
// them, strongly (through a reference key) or weakly, and removal and
// re-adding cascade along the strong referrers.
//
// The items live in one arena keyed by (table, id): a referrer is recorded
// by its key, and a cascade reaches whatever item the cache holds under
// that key.

module DbCache {
  import opened Errors
  import opened Text
  import opened MappingBase
  import opened CacheItems

  /** A cache item's key: CacheItem.key, (item type, id). */
  datatype Key = Key(t: Table, id: int)

  /**
   * A CacheItem: its fields (the dict it is), the keys of the items its
   * reference keys resolve to, its strong and weak referrers, and the
   * _to_remove, _removed, _corrupted and _valid flags.
   */
  datatype Item = Item(
    fields: Fields,
    refs: seq<Key>,
    referrers: set<Key>,
    weak: set<Key>,
    toRemove: bool,
    removed: bool,
    corrupted: bool,
    valid: Option<bool>)

  /** A fresh item as CacheItem.__init__ leaves it. */
  function NewItem(fields: Fields, refs: seq<Key>): (it: Item)
    ensures Fresh(it) && it.fields == fields && it.refs == refs
  {
    Item(fields, refs, {}, {}, false, false, false, None)
  }

  /** An item nothing refers to yet, with every flag clear. */
  predicate Fresh(it: Item)
  {
    it.referrers == {} && it.weak == {} && !it.toRemove && !it.removed && !it.corrupted && it.valid == None
  }

  /** An item that is certainly not valid: removed, corrupted, or found invalid. */
  predicate Invalid(it: Item)
  {
    it.removed || it.corrupted || it.valid == Some(false)
  }

  /** The state cascade_remove leaves an item in. */
  function Marked(it: Item): (m: Item)
    ensures m.removed && m.valid == None && !m.toRemove
    ensures m.referrers == it.referrers && m.weak == it.weak && m.fields == it.fields && m.refs == it.refs
  {
    it.(removed := true, toRemove := false, valid := None)
  }

  /** The state cascade_readd leaves an item in. */
  function Unmarked(it: Item): (m: Item)
    ensures !m.removed
    ensures m.referrers == it.referrers && m.weak == it.weak && m.fields == it.fields && m.refs == it.refs
  {
    it.(removed := false)
  }

  /** The state a cascade leaves an item in: cascade_remove marks it, cascade_readd unmarks it. */
  function Flipped(it: Item, to: bool): (m: Item)
    ensures m.removed == to
    ensures m.referrers == it.referrers && m.weak == it.weak && m.fields == it.fields && m.refs == it.refs
  {
    if to then Marked(it) else Unmarked(it)
  }

  /** The keys of the items a cascade towards `to` can still flip. */
  ghost function Unflipped(items: map<Key, Item>, to: bool): set<Key>
  {
    set k | k in items && items[k].removed != to
  }

  /**
   * S holds the strong referrers of each of its items not yet flipped: a
   * cascade that starts in S cannot leave it.
   */
  ghost predicate FlipClosed(items: map<Key, Item>, s: set<Key>, to: bool)
  {
    forall j, r :: j in s && j in items && items[j].removed != to && r in items[j].referrers ==> r in s
  }

  /** Each item changed from old to new only by being flipped towards `to`. */
  ghost predicate OnlyFlipped(old_: map<Key, Item>, new_: map<Key, Item>, to: bool)
  {
    old_.Keys == new_.Keys
    && forall j :: j in new_ ==> new_[j] == old_[j] || (old_[j].removed != to && new_[j] == Flipped(old_[j], to))
  }

  lemma CardLess<T>(a: set<T>, b: set<T>, x: T)
    requires a <= b && x in b && x !in a
    ensures |a| < |b|
  {
    var c := b - {x};
    assert a <= c;
    assert |c - a| == |c| - |a|;
    assert |c| == |b| - 1;
  }

  lemma OnlyFlippedTrans(a: map<Key, Item>, b: map<Key, Item>, c: map<Key, Item>, to: bool)
    requires OnlyFlipped(a, b, to) && OnlyFlipped(b, c, to)
    ensures OnlyFlipped(a, c, to)
  {
  }

  /** Flipping more items only relaxes FlipClosed. */
  lemma FlipClosedMono(a: map<Key, Item>, b: map<Key, Item>, s: set<Key>, to: bool)
    requires OnlyFlipped(a, b, to) && FlipClosed(a, s, to)
    ensures FlipClosed(b, s, to)
  {
  }

  /**
   * Every item newly flipped between old and new (outside except) has all
   * its strong referrers flipped too.
   */
  ghost predicate NewlyClosed(old_: map<Key, Item>, new_: map<Key, Item>, except: set<Key>, to: bool)
    requires old_.Keys == new_.Keys
  {
    forall j, r ::
      (j in new_ && j !in except && old_[j].removed != to && new_[j].removed == to && r in new_[j].referrers && r in new_)
      ==> new_[r].removed == to
  }

  /** The items changed between old and new lie in every FlipClosed set that holds k. */
  ghost predicate Within(old_: map<Key, Item>, new_: map<Key, Item>, k: Key, to: bool)
    requires old_.Keys == new_.Keys
  {
    forall s :: k in s && FlipClosed(old_, s, to) ==> forall j :: j in new_ && new_[j] != old_[j] ==> j in s
  }

  /** The keys of `done` that the map holds are all flipped. */
  ghost predicate AllFlipped(items: map<Key, Item>, done: set<Key>, to: bool)
  {
    forall r :: r in done && r in items ==> items[r].removed == to
  }

  /** Flipping k alone starts a cascade's loop invariant. */
  lemma FlipStart(entry: map<Key, Item>, k: Key, to: bool)
    requires k in entry && entry[k].removed != to
    ensures OnlyFlipped(entry, entry[k := Flipped(entry[k], to)], to)
    ensures NewlyClosed(entry, entry[k := Flipped(entry[k], to)], {k}, to)
    ensures Within(entry, entry[k := Flipped(entry[k], to)], k, to)
  {
  }

  /** One strong referrer of k flipped in cascade keeps the loop invariant. */
  lemma FlipStep(entry: map<Key, Item>, before: map<Key, Item>, after: map<Key, Item>, k: Key, r: Key, to: bool)
    requires OnlyFlipped(entry, before, to) && OnlyFlipped(before, after, to)
    requires k in entry && entry[k].removed != to && before[k].removed == to && r in entry[k].referrers
    requires NewlyClosed(entry, before, {k}, to) && NewlyClosed(before, after, {}, to)
    requires Within(entry, before, k, to) && Within(before, after, r, to)
    ensures OnlyFlipped(entry, after, to) && NewlyClosed(entry, after, {k}, to) && Within(entry, after, k, to)
  {
    OnlyFlippedTrans(entry, before, after, to);
    forall s | k in s && FlipClosed(entry, s, to)
      ensures forall j :: j in after && after[j] != entry[j] ==> j in s
    {
      FlipClosedMono(entry, before, s, to);
    }
  }

  lemma AllFlippedStep(before: map<Key, Item>, after: map<Key, Item>, done: set<Key>, r: Key, to: bool)
    requires OnlyFlipped(before, after, to) && AllFlipped(before, done, to)
    requires r in after ==> after[r].removed == to
    ensures AllFlipped(after, done + {r}, to)
  {
  }

  /** Once every strong referrer of k is flipped, the newly flipped items are closed. */
  lemma FlipEnd(entry: map<Key, Item>, items: map<Key, Item>, k: Key, to: bool)
    requires OnlyFlipped(entry, items, to) && k in items && NewlyClosed(entry, items, {k}, to)
    requires AllFlipped(items, items[k].referrers, to)
    ensures NewlyClosed(entry, items, {}, to)
  {
  }

  lemma UnflippedShrinks(entry: map<Key, Item>, items: map<Key, Item>, k: Key, to: bool)
    requires OnlyFlipped(entry, items, to) && k in items && items[k].removed == to && entry[k].removed != to
    ensures |Unflipped(items, to)| < |Unflipped(entry, to)|
  {
    CardLess(Unflipped(items, to), Unflipped(entry, to), k);
  }

  /** add_referrer on the item: the referrer becomes strong, leaving the weak referrers. */
  function WithReferrer(it: Item, r: Key): (m: Item)
    ensures r in m.referrers && r !in m.weak
    ensures m.referrers == it.referrers + {r} && m.weak == it.weak - {r}
    ensures it.referrers !! it.weak ==> m.referrers !! m.weak
    ensures m.fields == it.fields && m.refs == it.refs && m.removed == it.removed && m.valid == it.valid
    ensures m.corrupted == it.corrupted && m.toRemove == it.toRemove
  {
    it.(referrers := it.referrers + {r}, weak := it.weak - {r})
  }

  /** add_weak_referrer on the item: ignored for a strong referrer. */
  function WithWeakReferrer(it: Item, r: Key): (m: Item)
    ensures r in it.referrers ==> m == it
    ensures r !in it.referrers ==> m == it.(weak := it.weak + {r})
    ensures r in m.referrers + m.weak
    ensures it.referrers !! it.weak ==> m.referrers !! m.weak
  {
    if r in it.referrers then it else it.(weak := it.weak + {r})
  }

  /** Weak then strong, or strong then weak: either way the referrer ends up strong only. */
  lemma ReferrerPromotion(it: Item, r: Key)
    ensures WithReferrer(WithWeakReferrer(it, r), r) == WithReferrer(it, r)
    ensures WithWeakReferrer(WithReferrer(it, r), r) == WithReferrer(it, r)
  {
  }

  /**
   * Every item's strong and weak referrers are apart, and an item found
   * valid is neither removed nor corrupted and its references are cached.
   */
  ghost predicate Consistent(items: map<Key, Item>)
  {
    forall k :: k in items ==>
      items[k].referrers !! items[k].weak
      && (items[k].valid == Some(true) ==>
            !items[k].removed && !items[k].corrupted && forall r :: r in items[k].refs ==> r in items)
  }

  lemma FlippedConsistent(a: map<Key, Item>, b: map<Key, Item>, to: bool)
    requires OnlyFlipped(a, b, to) && Consistent(a)
    ensures Consistent(b)
  {
  }

  /** is_valid answered True for the item, or it has been removed since. */
  predicate Held(it: Item)
  {
    it.valid == Some(true) || it.removed
  }

  /** Nothing cached becomes valid again or loses the validity found for it. */
  ghost predicate Stable(a: map<Key, Item>, b: map<Key, Item>)
  {
    forall j :: j in a ==> j in b && (Invalid(a[j]) ==> Invalid(b[j])) && (Held(a[j]) ==> Held(b[j]))
  }

  ghost predicate HeldAll(items: map<Key, Item>, vals: seq<Key>)
  {
    forall j :: j in vals ==> j in items && Held(items[j])
  }

  ghost predicate InvalidAll(items: map<Key, Item>, ks: set<Key>)
  {
    forall j :: j in ks ==> j in items && Invalid(items[j])
  }

  lemma StableKeeps(a: map<Key, Item>, b: map<Key, Item>, vals: seq<Key>, ks: set<Key>)
    requires Stable(a, b) && HeldAll(a, vals) && InvalidAll(a, ks)
    ensures HeldAll(b, vals) && InvalidAll(b, ks)
  {
  }

  lemma HeldAllAppend(items: map<Key, Item>, vals: seq<Key>, j: Key)
    requires HeldAll(items, vals) && j in items && Held(items[j])
    ensures HeldAll(items, vals + [j])
  {
  }

  lemma DistinctAppend(vals: seq<Key>, j: Key)
    requires Distinct(vals) && j !in vals
    ensures Distinct(vals + [j])
  {
  }

  lemma InvalidAllAdd(items: map<Key, Item>, ks: set<Key>, j: Key)
    requires InvalidAll(items, ks) && j in items && Invalid(items[j])
    ensures InvalidAll(items, ks + {j})
  {
  }

  lemma StableTrans(a: map<Key, Item>, b: map<Key, Item>, c: map<Key, Item>)
    requires Stable(a, b) && Stable(b, c)
    ensures Stable(a, c)
  {
  }

  lemma FlippedStable(a: map<Key, Item>, b: map<Key, Item>)
    requires OnlyFlipped(a, b, true)
    ensures Stable(a, b)
  {
  }

  /**
   * What resolving a reference of k may do: tables only get loaded, the
   * cached items keep their flags, fields and references and only gain
   * referrers, k may only become corrupted or to-be-removed, and the only
   * new items are of tables not loaded before.
   */
  ghost predicate Grown(a: map<Key, Item>, ta: set<Table>, b: map<Key, Item>, tb: set<Table>, k: Key)
  {
    ta <= tb
    && (forall j :: j in b ==> j in a || j.t !in ta)
    && forall j :: j in a ==>
         j in b && b[j].removed == a[j].removed && b[j].valid == a[j].valid
         && b[j].fields == a[j].fields && b[j].refs == a[j].refs && a[j].referrers <= b[j].referrers
         && (a[j].corrupted ==> b[j].corrupted) && (a[j].toRemove ==> b[j].toRemove)
         && (j != k ==> b[j].corrupted == a[j].corrupted && b[j].toRemove == a[j].toRemove)
  }

  lemma GrownTrans(a: map<Key, Item>, ta: set<Table>, b: map<Key, Item>, tb: set<Table>,
                   c: map<Key, Item>, tc: set<Table>, k: Key)
    requires Grown(a, ta, b, tb, k) && Grown(b, tb, c, tc, k)
    ensures Grown(a, ta, c, tc, k)
  {
  }

  lemma GrownStable(a: map<Key, Item>, ta: set<Table>, b: map<Key, Item>, tb: set<Table>, k: Key)
    requires Grown(a, ta, b, tb, k)
    ensures Stable(a, b)
  {
  }

  lemma GrownRefl(a: map<Key, Item>, ta: set<Table>, k: Key)
    ensures Grown(a, ta, a, ta, k)
  {
  }

  /** Setting k's own corrupted or to-remove flag. */
  lemma FlagGrown(a: map<Key, Item>, ta: set<Table>, k: Key, it: Item)
    requires k in a && it == a[k].(corrupted := it.corrupted, toRemove := it.toRemove)
    requires a[k].corrupted ==> it.corrupted
    requires a[k].toRemove ==> it.toRemove
    ensures Grown(a, ta, a[k := it], ta, k)
  {
  }

  /** Recording a strong referrer on r. */
  lemma ReferrerGrown(a: map<Key, Item>, ta: set<Table>, r: Key, k: Key)
    requires r in a
    ensures Grown(a, ta, a[r := WithReferrer(a[r], k)], ta, k)
  {
  }

  /** A row a cache query brings in, already made into a cache item. */
  datatype Row = Row(id: int, item: Item)

  function Ids(rows: seq<Row>): set<int>
  {
    set x | x in rows :: x.id
  }

  /** The items after add_item has stored each row of table t in turn, a later row replacing an earlier one. */
  function Loaded(m: map<Key, Item>, t: Table, rows: seq<Row>): map<Key, Item>
    decreases |rows|
  {
    if rows == [] then m
    else Loaded(m, t, rows[..|rows| - 1])[Key(t, rows[|rows| - 1].id) := rows[|rows| - 1].item]
  }

  /** Loading adds exactly the rows' keys, takes their items from the rows, and leaves the rest alone. */
  lemma {:induction false} LoadedFacts(m: map<Key, Item>, t: Table, rows: seq<Row>)
    ensures forall j :: j in Loaded(m, t, rows) <==> j in m || (j.t == t && j.id in Ids(rows))
    ensures forall j :: j in m && !(j.t == t && j.id in Ids(rows)) ==> Loaded(m, t, rows)[j] == m[j]
    ensures forall j :: j in Loaded(m, t, rows) && j.t == t && j.id in Ids(rows) ==>
              exists x :: x in rows && x.id == j.id && Loaded(m, t, rows)[j] == x.item
    decreases |rows|
  {
    if rows != [] {
      var init := rows[..|rows| - 1];
      var last := rows[|rows| - 1];
      LoadedFacts(m, t, init);
      assert rows == init + [last];
      assert Ids(rows) == Ids(init) + {last.id};
      forall j | j in Loaded(m, t, rows) && j.t == t && j.id in Ids(rows)
        ensures exists x :: x in rows && x.id == j.id && Loaded(m, t, rows)[j] == x.item
      {
        if j == Key(t, last.id) {
          assert last in rows;
        } else {
          var x :| x in init && x.id == j.id && Loaded(m, t, init)[j] == x.item;
          assert x in rows;
        }
      }
    }
  }

  /** Loading a table no item belongs to yet, from fresh rows, keeps the items consistent and stable. */
  lemma LoadedConsistent(m: map<Key, Item>, t: Table, rows: seq<Row>)
    requires Consistent(m) && (forall j :: j in m ==> j.t != t)
    requires forall x :: x in rows ==> Fresh(x.item)
    ensures Consistent(Loaded(m, t, rows)) && Stable(m, Loaded(m, t, rows))
  {
    LoadedFacts(m, t, rows);
    var l := Loaded(m, t, rows);
    forall j | j in l && j !in m
      ensures Fresh(l[j])
    {
      var x :| x in rows && x.id == j.id && l[j] == x.item;
    }
  }

  /** Loading a table that is not loaded yet keeps the cache consistent and adds only that table's keys. */
  lemma LoadedValid(m: map<Key, Item>, names: set<Table>, t: Table, rows: seq<Row>)
    requires Consistent(m) && t !in names && (forall j :: j in m ==> j.t in names)
    requires forall x :: x in rows ==> Fresh(x.item)
    ensures Consistent(Loaded(m, t, rows)) && Stable(m, Loaded(m, t, rows))
    ensures forall j :: j in Loaded(m, t, rows) ==> j.t in names + {t}
  {
    LoadedConsistent(m, t, rows);
    LoadedFacts(m, t, rows);
  }

  /** Loading a table that is not loaded yet only adds items. */
  lemma LoadedGrown(m: map<Key, Item>, ta: set<Table>, t: Table, rows: seq<Row>, k: Key)
    requires t !in ta && (forall j :: j in m ==> j.t in ta)
    ensures Grown(m, ta, Loaded(m, t, rows), ta + {t}, k)
  {
    LoadedFacts(m, t, rows);
  }

  /**
   * make_item: the item class of the table fills in its defaults; relClass
   * is the cached relationship class named by a relationship's class_id.
   */
  function MakeFields(t: Table, f: Fields, relClass: Option<Fields>): (r: Result<Fields>)
    ensures t == ParameterValue ==> r == ParameterValueFields(f)
    ensures t == ParameterDefinition ==> r == ParameterDefinitionFields(f)
    ensures t == RelationshipClass ==> r == ObjectClassIdListFields(f)
    ensures t == Relationship ==> r == RelationshipFields(f, relClass)
    ensures !(t in {ParameterValue, ParameterDefinition, RelationshipClass, Relationship}) ==> r == Ok(f)
  {
    match t
    case ParameterValue => ParameterValueFields(f)
    case ParameterDefinition => ParameterDefinitionFields(f)
    case RelationshipClass => ObjectClassIdListFields(f)
    case Relationship => RelationshipFields(f, relClass)
    case _ => Ok(f)
  }

  /** The items DBCache holds, the table caches it has made, and what its cache query brings in. */
  class DBCache {
    var items: map<Key, Item>
    var tableNames: set<Table>
    /** The rows _advance_cache_query brings in for each table, in query order. */
    const query: map<Table, seq<Row>>

    /** Every item sits in a table cache, the items are consistent, and the query brings in fresh items. */
    ghost predicate Valid()
      reads this
    {
      (forall k :: k in items ==> k.t in tableNames)
      && Consistent(items)
      && (forall t, x :: t in query && x in query[t] ==> Fresh(x.item))
    }

    function Rows(t: Table): seq<Row>
    {
      if t in query then query[t] else []
    }

    constructor (query: map<Table, seq<Row>>)
      requires forall t, x :: t in query && x in query[t] ==> Fresh(x.item)
      ensures Valid() && items == map[] && tableNames == {} && this.query == query
    {
      this.query := query;
      items := map[];
      tableNames := {};
    }

    /** table_cache: the table cache of the type, made empty if there is none. */
    method TableCache(t: Table)
      requires Valid()
      modifies this
      ensures Valid() && tableNames == old(tableNames) + {t} && items == old(items)
    {
      tableNames := tableNames + {t};
    }

    /** get_item: the cached item, or None (the empty dict) for an unknown type or id. */
    function GetItem(t: Table, id: int): (r: Option<Item>)
      reads this
      ensures r.Some? <==> Key(t, id) in items
      ensures r.Some? ==> r.value == items[Key(t, id)]
    {
      if Key(t, id) in items then Some(items[Key(t, id)]) else None
    }

    /** The relationship class a relationship's class_id names, when cached. */
    function RelClassOf(f: Fields): Option<Fields>
      reads this
    {
      if "class_id" in f && f["class_id"].IntV? && Key(RelationshipClass, f["class_id"].i) in items
      then Some(items[Key(RelationshipClass, f["class_id"].i)].fields)
      else None
    }

    /**
     * TableCache.add_item: with keep_existing an item already cached under
     * the id is returned as it is; otherwise make_item builds a fresh item,
     * which replaces whatever was cached under the id.
     */
    method AddItem(t: Table, id: int, fields: Fields, refs: seq<Key>, keepExisting: bool) returns (r: Result<Item>)
      requires Valid() && t in tableNames
      modifies this
      ensures Valid() && tableNames == old(tableNames)
      ensures keepExisting && Key(t, id) in old(items) ==> r == Ok(old(items)[Key(t, id)]) && items == old(items)
      ensures !(keepExisting && Key(t, id) in old(items)) ==>
        var made := MakeFields(t, fields, old(RelClassOf(fields)));
        (r.Err? <==> made.Err?)
        && (r.Err? ==> r.error == made.error && items == old(items))
        && (r.Ok? ==> r.value == NewItem(made.value, refs) && items == old(items)[Key(t, id) := r.value])
    {
      if keepExisting && Key(t, id) in items {
        return Ok(items[Key(t, id)]);
      }
      var made := MakeFields(t, fields, RelClassOf(fields));
      if made.Err? {
        return Err(made.error);
      }
      var it := NewItem(made.value, refs);
      items := items[Key(t, id) := it];
      return Ok(it);
    }

    /**
     * TableCache.update_item: the item must be cached (KeyError otherwise)
     * and takes the given fields over its own.
     */
    method UpdateItem(t: Table, id: int, fields: Fields) returns (r: Result<()>)
      requires Valid()
      modifies this
      ensures Valid() && tableNames == old(tableNames)
      ensures r.Err? <==> Key(t, id) !in old(items)
      ensures r.Err? ==> r.error == KeyError(IntToString(id)) && items == old(items)
      ensures r.Ok? ==> items == old(items)[Key(t, id) := old(items)[Key(t, id)].(fields := old(items)[Key(t, id)].fields + fields)]
    {
      var k := Key(t, id);
      if k !in items {
        return Err(KeyError(IntToString(id)));
      }
      items := items[k := items[k].(fields := items[k].fields + fields)];
      return Ok(());
    }

    /** TableCache.remove_item: a cached item is removed in cascade and returned. */
    method RemoveItem(t: Table, id: int) returns (r: Option<Item>)
      requires Valid()
      modifies this
      ensures Valid() && tableNames == old(tableNames)
      ensures r.Some? <==> Key(t, id) in old(items)
      ensures r.None? ==> items == old(items)
      ensures r.Some? ==> Key(t, id) in items && r.value == items[Key(t, id)] && r.value.removed
      ensures OnlyFlipped(old(items), items, true) && NewlyClosed(old(items), items, {}, true)
    {
      var k := Key(t, id);
      if k !in items {
        return None;
      }
      CascadeRemove(k);
      FlippedConsistent(old(items), items, true);
      return Some(items[k]);
    }

    /** add_referrer: a referrer without a key is ignored; otherwise it becomes strong, leaving the weak ones. */
    method AddReferrer(k: Key, referrer: Option<Key>)
      requires Valid() && k in items
      modifies this
      ensures Valid() && tableNames == old(tableNames)
      ensures referrer.None? ==> items == old(items)
      ensures referrer.Some? ==> items == old(items)[k := WithReferrer(old(items)[k], referrer.value)]
    {
      if referrer.Some? {
        items := items[k := WithReferrer(items[k], referrer.value)];
      }
    }

    /** add_weak_referrer: a referrer without a key, or one that is strong already, is ignored. */
    method AddWeakReferrer(k: Key, referrer: Option<Key>)
      requires Valid() && k in items
      modifies this
      ensures Valid() && tableNames == old(tableNames)
      ensures referrer.None? ==> items == old(items)
      ensures referrer.Some? ==> items == old(items)[k := WithWeakReferrer(old(items)[k], referrer.value)]
      ensures referrer.Some? && referrer.value in old(items)[k].referrers ==> items == old(items)
    {
      if referrer.Some? {
        items := items[k := WithWeakReferrer(items[k], referrer.value)];
      }
    }

    /**
     * _do_advance_cache_query: make the table cache and add every row the
     * table's query brings in.
     */
    method LoadTable(t: Table)
      requires Valid() && t !in tableNames
      modifies this
      ensures Valid() && tableNames == old(tableNames) + {t}
      ensures items == Loaded(old(items), t, Rows(t))
      ensures Stable(old(items), items)
    {
      TableCache(t);
      var rows := Rows(t);
      ghost var start := items;
      assert forall x :: x in rows ==> Fresh(x.item);
      for i := 0 to |rows|
        invariant tableNames == old(tableNames) + {t}
        invariant items == Loaded(start, t, rows[..i])
      {
        assert rows[..i + 1][..i] == rows[..i];
        items := items[Key(t, rows[i].id) := rows[i].item];
      }
      assert rows[..|rows|] == rows;
      LoadedValid(start, old(tableNames), t, rows);
    }

    /**
     * _advance_cache_query: a table that has no table cache yet is loaded,
     * and the answer is whether that happened.
     */
    method AdvanceQuery(t: Table) returns (advanced: bool)
      requires Valid()
      modifies this
      ensures Valid() && tableNames == old(tableNames) + {t}
      ensures advanced <==> t !in old(tableNames)
      ensures items == if advanced then Loaded(old(items), t, Rows(t)) else old(items)
      ensures Stable(old(items), items)
    {
      advanced := false;
      if t !in tableNames {
        advanced := true;
        LoadTable(t);
      }
    }

    /**
     * fetch_ref: advance the query while it reports progress, returning the
     * item as soon as it is cached; then look once more; else None.
     */
    method FetchRef(t: Table, id: int) returns (r: Option<Item>)
      requires Valid()
      modifies this
      ensures Valid() && tableNames == old(tableNames) + {t}
      ensures items == if t in old(tableNames) then old(items) else Loaded(old(items), t, Rows(t))
      ensures Stable(old(items), items)
      ensures r.Some? <==> Key(t, id) in old(items) || (t !in old(tableNames) && id in Ids(Rows(t)))
      ensures r.Some? <==> Key(t, id) in items
      ensures r.Some? ==> r.value == items[Key(t, id)]
    {
      LoadedFacts(items, t, Rows(t));
      var advanced := AdvanceQuery(t);
      while advanced
        invariant Valid() && tableNames == old(tableNames) + {t}
        invariant items == if t in old(tableNames) then old(items) else Loaded(old(items), t, Rows(t))
        invariant Stable(old(items), items)
        decreases advanced
      {
        if Key(t, id) in items {
          return Some(items[Key(t, id)]);
        }
        advanced := AdvanceQuery(t);
      }
      if Key(t, id) in items {
        return Some(items[Key(t, id)]);
      }
      return None;
    }

    /** Setting k's corrupted or to-remove flag keeps the cache valid when k is not found valid yet. */
    lemma FlagsValid(old_: map<Key, Item>, k: Key, it: Item)
      requires Consistent(old_) && k in old_
      requires it == old_[k].(corrupted := it.corrupted, toRemove := it.toRemove)
      requires it.corrupted ==> old_[k].valid != Some(true)
      ensures Consistent(old_[k := it])
    {
    }

    /**
     * _get_ref and _handle_ref for one of k's reference keys: a reference
     * not cached is fetched, and one that cannot be fetched corrupts k. A
     * found reference records k as a strong referrer and marks k for
     * removal if the reference is removed.
     */
    method ResolveStrong(k: Key, r: Key) returns (ref: Option<Item>)
      requires Valid() && k in items && r in items[k].refs
      modifies this
      ensures Valid() && Grown(old(items), old(tableNames), items, tableNames, k)
      ensures ref.Some? <==> r in items
      ensures r !in items ==> items[k].corrupted && r.t in tableNames && items[k].toRemove == old(items[k].toRemove)
      ensures r in items ==>
        ref == Some(items[r]) && k in items[r].referrers
        && items[k].corrupted == old(items[k].corrupted)
        && (items[k].toRemove <==> old(items[k].toRemove) || items[r].removed)
    {
      ghost var t0 := tableNames;
      if r !in items {
        FetchMissing(k, r);
        if r !in items {
          ghost var before := items;
          FlagsValid(items, k, items[k].(corrupted := true));
          items := items[k := items[k].(corrupted := true)];
          FlagGrown(before, tableNames, k, items[k]);
          GrownTrans(old(items), t0, before, tableNames, items, tableNames, k);
          return None;
        }
      } else {
        GrownRefl(items, tableNames, k);
      }
      ghost var mid := items;
      ghost var t1 := tableNames;
      AddReferrer(r, Some(k));
      ReferrerGrown(mid, t1, r, k);
      GrownTrans(old(items), t0, mid, t1, items, tableNames, k);
      assert items[k].corrupted == mid[k].corrupted && items[k].toRemove == mid[k].toRemove;
      if items[r].removed {
        ghost var before := items;
        FlagsValid(items, k, items[k].(toRemove := true));
        items := items[k := items[k].(toRemove := true)];
        FlagGrown(before, tableNames, k, items[k]);
        GrownTrans(old(items), t0, before, tableNames, items, tableNames, k);
      }
      return Some(items[r]);
    }

    /** The fetch in _get_ref: fetch_ref for a reference that is not cached, leaving k as it is. */
    method FetchMissing(k: Key, r: Key)
      requires Valid() && k in items && r !in items
      modifies this
      ensures Valid() && Grown(old(items), old(tableNames), items, tableNames, k)
      ensures k in items && items[k] == old(items)[k]
      ensures r !in items ==> r.t in tableNames
    {
      var fetched := FetchRef(r.t, r.id);
      if r.t !in old(tableNames) {
        LoadedGrown(old(items), old(tableNames), r.t, Rows(r.t), k);
        LoadedFacts(old(items), r.t, Rows(r.t));
      } else {
        GrownRefl(items, tableNames, k);
      }
    }

    /**
     * _get_ref and _handle_ref for a key that is not a reference key: a
     * reference not cached is the empty dict (None here) and nothing is
     * fetched; a found one records k as a weak referrer, and answers the
     * empty dict if it is removed.
     */
    method ResolveWeak(k: Key, r: Key) returns (ref: Option<Item>)
      requires Valid() && k in items
      modifies this
      ensures Valid() && tableNames == old(tableNames)
      ensures ref.Some? <==> r in old(items) && !old(items)[r].removed
      ensures ref.Some? ==> r in items && ref == Some(items[r])
      ensures r !in old(items) ==> items == old(items)
      ensures r in old(items) ==> items == old(items)[r := WithWeakReferrer(old(items)[r], k)]
    {
      if r !in items {
        return None;
      }
      AddWeakReferrer(r, Some(k));
      if items[r].removed {
        return None;
      }
      return Some(items[r]);
    }

    /**
     * The loop of is_valid: each of k's references is resolved in turn.
     * Afterwards k is corrupted exactly when a reference could not be found,
     * marked for removal exactly when a reference is removed, and a strong
     * referrer of every reference found.
     */
    method ResolveRefs(k: Key)
      requires Valid() && k in items
      requires items[k].valid == None && !items[k].removed && !items[k].corrupted && !items[k].toRemove
      modifies this
      ensures Valid() && k in items && Grown(old(items), old(tableNames), items, tableNames, k)
      ensures items[k].corrupted <==> exists r :: r in items[k].refs && r !in items
      ensures items[k].toRemove <==> exists r :: r in items[k].refs && r in items && items[r].removed
      ensures forall r :: r in items[k].refs && r in items ==> k in items[r].referrers
    {
      var refs := items[k].refs;
      GrownRefl(items, tableNames, k);
      for i := 0 to |refs|
        invariant Valid() && k in items && items[k].refs == refs
        invariant Grown(old(items), old(tableNames), items, tableNames, k)
        invariant items[k].corrupted <==> exists j :: 0 <= j < i && refs[j] !in items
        invariant items[k].toRemove <==> exists j :: 0 <= j < i && refs[j] in items && items[refs[j]].removed
        invariant forall j :: 0 <= j < i && refs[j] !in items ==> refs[j].t in tableNames
        invariant forall j :: 0 <= j < i && refs[j] in items ==> k in items[refs[j]].referrers
      {
        ghost var before := items;
        ghost var tables := tableNames;
        var _ := ResolveStrong(k, refs[i]);
        GrownTrans(old(items), old(tableNames), before, tables, items, tableNames, k);
        ResolvedStep(before, tables, items, tableNames, k, refs, i);
      }
      RefsByPosition(items, k, refs);
    }

    /**
     * is_valid: a validity found before is answered again; a removed or
     * corrupted item is not valid; otherwise every reference is resolved
     * (registering the item as a strong referrer), the item is removed in
     * cascade if a reference is removed, and the outcome is cached.
     */
    method IsValid(k: Key) returns (b: bool)
      requires Valid() && k in items
      modifies this
      ensures Valid() && k in items && Stable(old(items), items)
      ensures b <==> !Invalid(items[k])
      ensures b ==> items[k].valid == Some(true)
      ensures old(items[k].valid).Some? ==> b == old(items[k].valid).value && items == old(items)
      ensures old(items[k].valid) == None && (old(items[k].removed) || old(items[k].corrupted)) ==> !b && items == old(items)
      ensures old(items[k].valid) == None && !old(items[k].removed) && !old(items[k].corrupted) ==>
        (b <==> forall r :: r in items[k].refs ==> r in items && !items[r].removed)
        && (forall r :: r in items[k].refs && r in items ==> k in items[r].referrers)
    {
      if items[k].valid.Some? {
        return items[k].valid.value;
      }
      if items[k].removed || items[k].corrupted {
        return false;
      }
      b := ValidateRefs(k);
    }

    /**
     * The rest of is_valid, for an item neither removed, corrupted nor
     * found valid or invalid before.
     */
    method ValidateRefs(k: Key) returns (b: bool)
      requires Valid() && k in items
      requires items[k].valid == None && !items[k].removed && !items[k].corrupted
      modifies this
      ensures Valid() && k in items && Stable(old(items), items)
      ensures b <==> !Invalid(items[k])
      ensures b ==> items[k].valid == Some(true)
      ensures b <==> forall r :: r in items[k].refs ==> r in items && !items[r].removed
      ensures forall r :: r in items[k].refs && r in items ==> k in items[r].referrers
    {
      ResolveAndCascade(k);
      b := !items[k].removed && !items[k].corrupted;
      ghost var pre := items;
      items := items[k := items[k].(valid := Some(b))];
      ValidSet(pre, k, b);
      StableTrans(old(items), pre, items);
    }

    /**
     * The references of k resolved afresh, and k removed in cascade when
     * one of them is removed; k is then live and sound exactly when every
     * reference is cached and live.
     */
    method ResolveAndCascade(k: Key)
      requires Valid() && k in items
      requires items[k].valid == None && !items[k].removed && !items[k].corrupted
      modifies this
      ensures Valid() && k in items && Stable(old(items), items) && items[k].valid == None
      ensures (!items[k].removed && !items[k].corrupted) <==> forall r :: r in items[k].refs ==> r in items && !items[r].removed
      ensures forall r :: r in items[k].refs && r in items ==> k in items[r].referrers
    {
      FlagsValid(items, k, items[k].(toRemove := false, corrupted := false));
      ghost var start := items;
      items := items[k := items[k].(toRemove := false, corrupted := false)];
      ghost var entry := items;
      ResetStable(start, k);
      ResolveRefs(k);
      GrownStable(entry, old(tableNames), items, tableNames, k);
      ghost var resolved := items;
      if items[k].toRemove {
        CascadeRemove(k);
        FlippedConsistent(resolved, items, true);
        FlippedStable(resolved, items);
      }
      ValidOutcome(resolved, items, k);
      StableTrans(entry, resolved, items);
      StableTrans(start, entry, items);
    }

    /**
     * TableCache.values: the items of the table that is_valid accepts, each
     * checked in turn; checking one may remove an earlier one in cascade.
     */
    method Values(t: Table) returns (vals: seq<Key>)
      requires Valid()
      modifies this
      ensures Valid() && Stable(old(items), items)
      ensures Distinct(vals)
      ensures forall j :: j in vals ==> j.t == t && j in old(items) && j in items && Held(items[j])
      ensures forall j :: j in old(items) && j.t == t && j !in vals ==> j in items && Invalid(items[j])
    {
      var todo := set j | j in items && j.t == t;
      vals := [];
      ghost var rejected: set<Key> := {};
      while todo != {}
        invariant Valid() && Stable(old(items), items)
        invariant forall j :: j in todo ==> j in old(items) && j.t == t && j !in vals && j !in rejected
        invariant forall j :: j in old(items) && j.t == t ==> j in todo || j in vals || j in rejected
        invariant forall j :: j in vals ==> j.t == t && j in old(items)
        invariant Distinct(vals)
        invariant HeldAll(items, vals) && InvalidAll(items, rejected)
        decreases |todo|
      {
        var j :| j in todo;
        todo := todo - {j};
        ghost var before := items;
        var ok := IsValid(j);
        StableTrans(old(items), before, items);
        StableKeeps(before, items, vals, rejected);
        if ok {
          HeldAllAppend(items, vals, j);
          DistinctAppend(vals, j);
          vals := vals + [j];
        } else {
          InvalidAllAdd(items, rejected, j);
          rejected := rejected + {j};
        }
      }
    }

    /**
     * cascade_remove: an item already removed is left alone; otherwise it is
     * marked removed (its cached validity cleared) and each strong referrer
     * is removed in cascade. The weak referrers and the callbacks only hear
     * about it.
     */
    method CascadeRemove(k: Key)
      requires k in items
      modifies this
      ensures tableNames == old(tableNames)
      ensures OnlyFlipped(old(items), items, true)
      ensures items[k].removed
      ensures old(items[k].removed) ==> items == old(items)
      // the newly removed items keep no live strong referrer
      ensures NewlyClosed(old(items), items, {}, true)
      // and lie inside every set that holds k and the strong referrers of its live items
      ensures Within(old(items), items, k, true)
      decreases |Unflipped(items, true)|
    {
      if items[k].removed {
        return;
      }
      ghost var entry := items;
      FlipStart(entry, k, true);
      items := items[k := Marked(items[k])];
      var todo := items[k].referrers;
      ghost var done: set<Key> := {};
      while todo != {}
        invariant OnlyFlipped(entry, items, true) && items[k].removed && items[k].referrers == entry[k].referrers
        invariant tableNames == old(tableNames)
        invariant done + todo == entry[k].referrers
        invariant AllFlipped(items, done, true)
        invariant NewlyClosed(entry, items, {k}, true) && Within(entry, items, k, true)
        decreases |todo|
      {
        var r :| r in todo;
        todo := todo - {r};
        ghost var before := items;
        if r in items {
          UnflippedShrinks(entry, before, k, true);
          CascadeRemove(r);
          FlipStep(entry, before, items, k, r, true);
        }
        AllFlippedStep(before, items, done, r, true);
        done := done + {r};
      }
      FlipEnd(entry, items, k, true);
    }

    /**
     * cascade_readd: only a removed item is touched; it is unmarked and each
     * strong referrer is re-added in cascade.
     */
    method CascadeReadd(k: Key)
      requires k in items
      modifies this
      ensures tableNames == old(tableNames)
      ensures OnlyFlipped(old(items), items, false)
      ensures !items[k].removed
      ensures !old(items[k].removed) ==> items == old(items)
      // the newly re-added items keep no removed strong referrer
      ensures NewlyClosed(old(items), items, {}, false)
      // and lie inside every set that holds k and the strong referrers of its removed items
      ensures Within(old(items), items, k, false)
      decreases |Unflipped(items, false)|
    {
      if !items[k].removed {
        return;
      }
      ghost var entry := items;
      FlipStart(entry, k, false);
      items := items[k := Unmarked(items[k])];
      var todo := items[k].referrers;
      ghost var done: set<Key> := {};
      while todo != {}
        invariant OnlyFlipped(entry, items, false) && !items[k].removed && items[k].referrers == entry[k].referrers
        invariant tableNames == old(tableNames)
        invariant done + todo == entry[k].referrers
        invariant AllFlipped(items, done, false)
        invariant NewlyClosed(entry, items, {k}, false) && Within(entry, items, k, false)
        decreases |todo|
      {
        var r :| r in todo;
        todo := todo - {r};
        ghost var before := items;
        if r in items {
          UnflippedShrinks(entry, before, k, false);
          CascadeReadd(r);
          FlipStep(entry, before, items, k, r, false);
        }
        AllFlippedStep(before, items, done, r, false);
        done := done + {r};
      }
      FlipEnd(entry, items, k, false);
    }
  }

  /** One more reference resolved keeps the loop invariant of IsValid. */
  lemma ResolvedStep(before: map<Key, Item>, tables: set<Table>, after: map<Key, Item>, tablesAfter: set<Table>,
                     k: Key, refs: seq<Key>, i: int)
    requires 0 <= i < |refs| && k in before && k in after
    requires Grown(before, tables, after, tablesAfter, k)
    requires before[k].corrupted <==> exists j :: 0 <= j < i && refs[j] !in before
    requires before[k].toRemove <==> exists j :: 0 <= j < i && refs[j] in before && before[refs[j]].removed
    requires forall j :: 0 <= j < i && refs[j] !in before ==> refs[j].t in tables
    requires forall j :: 0 <= j < i && refs[j] in before ==> k in before[refs[j]].referrers
    requires refs[i] !in after ==> after[k].corrupted && refs[i].t in tablesAfter && after[k].toRemove == before[k].toRemove
    requires refs[i] in after ==>
      k in after[refs[i]].referrers && after[k].corrupted == before[k].corrupted
      && (after[k].toRemove <==> before[k].toRemove || after[refs[i]].removed)
    ensures after[k].corrupted <==> exists j :: 0 <= j < i + 1 && refs[j] !in after
    ensures after[k].toRemove <==> exists j :: 0 <= j < i + 1 && refs[j] in after && after[refs[j]].removed
    ensures forall j :: 0 <= j < i + 1 && refs[j] !in after ==> refs[j].t in tablesAfter
    ensures forall j :: 0 <= j < i + 1 && refs[j] in after ==> k in after[refs[j]].referrers
  {
    // earlier references keep whether they are cached, and their removed flag
    forall j | 0 <= j < i
      ensures (refs[j] in after <==> refs[j] in before)
      ensures refs[j] in before ==> after[refs[j]].removed == before[refs[j]].removed
    {
    }
  }

  /** The loop invariant of ResolveRefs at its end, stated over the references rather than their positions. */
  lemma RefsByPosition(items: map<Key, Item>, k: Key, refs: seq<Key>)
    requires k in items && items[k].refs == refs
    requires items[k].corrupted <==> exists j :: 0 <= j < |refs| && refs[j] !in items
    requires items[k].toRemove <==> exists j :: 0 <= j < |refs| && refs[j] in items && items[refs[j]].removed
    requires forall j :: 0 <= j < |refs| && refs[j] in items ==> k in items[refs[j]].referrers
    ensures items[k].corrupted <==> exists r :: r in items[k].refs && r !in items
    ensures items[k].toRemove <==> exists r :: r in items[k].refs && r in items && items[r].removed
    ensures forall r :: r in items[k].refs && r in items ==> k in items[r].referrers
  {
    forall r | r in refs
      ensures exists j :: 0 <= j < |refs| && refs[j] == r
    {
    }
  }

  /**
   * After the references are resolved and k is removed in cascade if one
   * is removed, k stands (neither removed nor corrupted) exactly when every
   * reference is cached and not removed.
   */
  lemma ValidOutcome(pre: map<Key, Item>, post: map<Key, Item>, k: Key)
    requires k in pre && !pre[k].removed
    requires pre[k].corrupted <==> exists r :: r in pre[k].refs && r !in pre
    requires pre[k].toRemove <==> exists r :: r in pre[k].refs && r in pre && pre[r].removed
    requires forall r :: r in pre[k].refs && r in pre ==> k in pre[r].referrers
    requires pre[k].toRemove ==> OnlyFlipped(pre, post, true) && post[k].removed
    requires !pre[k].toRemove ==> post == pre
    ensures k in post && post[k].refs == pre[k].refs && post[k].corrupted == pre[k].corrupted
    ensures (!post[k].removed && !post[k].corrupted) <==> forall r :: r in post[k].refs ==> r in post && !post[r].removed
    ensures forall r :: r in post[k].refs && r in post ==> k in post[r].referrers
  {
    if pre[k].toRemove {
      var r :| r in pre[k].refs && r in pre && pre[r].removed;
      assert post[r].removed;
    }
  }

  /** Caching the outcome b of is_valid on k, with b true only for an item that stands. */
  lemma ValidSet(pre: map<Key, Item>, k: Key, b: bool)
    requires Consistent(pre) && k in pre && pre[k].valid == None
    requires b <==> !pre[k].removed && !pre[k].corrupted
    requires b ==> forall r :: r in pre[k].refs ==> r in pre
    ensures Consistent(pre[k := pre[k].(valid := Some(b))])
    ensures Stable(pre, pre[k := pre[k].(valid := Some(b))])
    ensures forall r :: r in pre ==> pre[k := pre[k].(valid := Some(b))][r].removed == pre[r].removed
    ensures forall r :: r in pre ==> pre[k := pre[k].(valid := Some(b))][r].referrers == pre[r].referrers
  {
  }

  /** is_valid clearing the flags of an item that is neither removed, corrupted nor found valid or invalid. */
  lemma ResetStable(pre: map<Key, Item>, k: Key)
    requires k in pre && !pre[k].removed && !pre[k].corrupted && pre[k].valid == None
    ensures Stable(pre, pre[k := pre[k].(toRemove := false, corrupted := false)])
  {
  }
}
