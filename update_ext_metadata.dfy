// Updating extended item metadata (_update_ext_item_metadata of
// spinedb_api/db_mapping_update_mixin.py). An entity_metadata or
// parameter_value_metadata row names its metadata by (name, value). Each
// row to update is handled in one of three ways:
//   - the pair already exists: the row is repointed to that metadata;
//   - every remaining user of the row's current metadata is itself being
//     moved away: that metadata row is renamed in place to the new pair;
//   - otherwise new metadata is added for the pair.
// The four passes of the source are four methods, each proved against a
// function of the items it has seen; the three updates and the insertion
// the source then performs are function parameters.

module ExtMetadata {
  import opened Errors
  import opened MappingBase
  import opened CacheItems
  import opened AddMixin
  import opened Text

  /** An extended metadata item to update: the id of its row and the (name, value) pair it should name. */
  datatype ExtItem = ExtItem(id: int, name: Val, value: Val)

  function Pair(x: ExtItem): (Val, Val)
  {
    (x.name, x.value)
  }

  /** item_metadata_cache[id]: the cached row with that id (the cache is keyed by id). */
  function LinkOf(links: seq<MetadataLink>, id: int): (r: Option<MetadataLink>)
    ensures r.Some? ==> r.value in links && r.value.id == id
    ensures r.None? ==> forall l :: l in links ==> l.id != id
  {
    if links == [] then None
    else if links[0].id == id then Some(links[0])
    else LinkOf(links[1..], id)
  }

  /** The KeyError of item_metadata_cache[id]. */
  function MissingLink(id: int): Error
  {
    KeyError(IntToString(id))
  }

  /** Counter[m]: a missing key counts zero. */
  function Usage(usage: map<int, int>, m: int): int
  {
    if m in usage then usage[m] else 0
  }

  // ---------------------------------------------------------------------------
  // First pass: items naming a known pair are repointed, the others are homeless

  /** What the first pass leaves: the repointed items, the homeless items and the usage counts. */
  datatype Sorting = Sorting(updatable: seq<(ExtItem, int)>, homeless: seq<ExtItem>, usage: map<int, int>)

  /** The first pass over the items, as a function of the items seen so far. */
  function SortItems(items: seq<ExtItem>, known: map<(Val, Val), int>, links: seq<MetadataLink>, usage: map<int, int>)
    : Result<Sorting>
  {
    if items == [] then Ok(Sorting([], [], usage))
    else
      var x := items[|items| - 1];
      match SortItems(items[..|items| - 1], known, links, usage)
      case Err(e) => Err(e)
      case Ok(s) =>
        if Pair(x) !in known then Ok(Sorting(s.updatable, s.homeless + [x], s.usage))
        else
          match LinkOf(links, x.id)
          case None => Err(MissingLink(x.id))
          case Some(l) =>
            var m := known[Pair(x)];
            var u := s.usage[l.metadataId := Usage(s.usage, l.metadataId) - 1];
            Ok(Sorting(s.updatable + [(x, m)], s.homeless, u[m := Usage(u, m) + 1]))
  }

  lemma {:induction false} SortErrSticks(items: seq<ExtItem>, known: map<(Val, Val), int>, links: seq<MetadataLink>,
                                         usage: map<int, int>, i: nat)
    requires i <= |items| && SortItems(items[..i], known, links, usage).Err?
    ensures SortItems(items, known, links, usage) == SortItems(items[..i], known, links, usage)
    decreases |items| - i
  {
    if i < |items| {
      var n := |items| - 1;
      assert items[..n][..i] == items[..i];
      SortErrSticks(items[..n], known, links, usage, i);
    } else {
      assert items[..i] == items;
    }
  }

  /** The first pass of _update_ext_item_metadata. */
  method SortByPair(items: seq<ExtItem>, known: map<(Val, Val), int>, links: seq<MetadataLink>, usage: map<int, int>)
    returns (r: Result<Sorting>)
    ensures r == SortItems(items, known, links, usage)
  {
    var updatable: seq<(ExtItem, int)> := [];
    var homeless: seq<ExtItem> := [];
    var counts := usage;
    for i := 0 to |items|
      invariant SortItems(items[..i], known, links, usage) == Ok(Sorting(updatable, homeless, counts))
    {
      var x := items[i];
      assert items[..i + 1][..i] == items[..i];
      if Pair(x) !in known {
        homeless := homeless + [x];
        continue;
      }
      var m := known[Pair(x)];
      var previous := LinkOf(links, x.id);
      if previous.None? {
        SortErrSticks(items, known, links, usage, i + 1);
        return Err(MissingLink(x.id));
      }
      counts := counts[previous.value.metadataId := Usage(counts, previous.value.metadataId) - 1];
      counts := counts[m := Usage(counts, m) + 1];
      updatable := updatable + [(x, m)];
    }
    assert items[..|items|] == items;
    return Ok(Sorting(updatable, homeless, counts));
  }

  /** How many of the items with a known pair are repointed to metadata m. */
  function Arrivals(items: seq<ExtItem>, known: map<(Val, Val), int>, m: int): nat
  {
    if items == [] then 0
    else
      var x := items[|items| - 1];
      Arrivals(items[..|items| - 1], known, m) + (if Pair(x) in known && known[Pair(x)] == m then 1 else 0)
  }

  /** How many of the items with a known pair leave metadata m. */
  function Departures(items: seq<ExtItem>, known: map<(Val, Val), int>, links: seq<MetadataLink>, m: int): nat
  {
    if items == [] then 0
    else
      var x := items[|items| - 1];
      Departures(items[..|items| - 1], known, links, m)
      + (if Pair(x) in known && LinkOf(links, x.id).Some? && LinkOf(links, x.id).value.metadataId == m then 1 else 0)
  }

  /**
   * The first pass splits the items by whether their pair is known: an item
   * with a known pair is repointed to that pair's metadata, one without is
   * homeless, and the usage count of every metadata gains the items moving
   * to it and loses the items moving away from it.
   */
  lemma {:induction false} SortItemsSplits(items: seq<ExtItem>, known: map<(Val, Val), int>, links: seq<MetadataLink>,
                                           usage: map<int, int>, x: ExtItem, m: int)
    requires SortItems(items, known, links, usage).Ok?
    ensures var s := SortItems(items, known, links, usage).value;
      && (x in s.homeless <==> x in items && Pair(x) !in known)
      && (forall j :: 0 <= j < |s.updatable| ==> s.updatable[j].0 in items && Pair(s.updatable[j].0) in known && s.updatable[j].1 == known[Pair(s.updatable[j].0)])
      && (x in items && Pair(x) in known ==> (x, known[Pair(x)]) in s.updatable)
      && Usage(s.usage, m) == Usage(usage, m) + Arrivals(items, known, m) - Departures(items, known, links, m)
  {
    if items != [] {
      var n := |items| - 1;
      SortItemsSplits(items[..n], known, links, usage, x, m);
      assert forall y :: y in items <==> y in items[..n] || y == items[n];
    }
  }

  /** Every item whose pair is known has a cached row: otherwise the first pass fails on the first that has none. */
  lemma {:induction false} SortItemsOk(items: seq<ExtItem>, known: map<(Val, Val), int>, links: seq<MetadataLink>,
                                       usage: map<int, int>)
    ensures SortItems(items, known, links, usage).Ok? <==>
      forall j :: 0 <= j < |items| && Pair(items[j]) in known ==> LinkOf(links, items[j].id).Some?
  {
    if items != [] {
      var n := |items| - 1;
      SortItemsOk(items[..n], known, links, usage);
      assert forall j :: 0 <= j < n ==> items[..n][j] == items[j];
    }
  }

  // ---------------------------------------------------------------------------
  // Second pass: how many homeless items use each metadata

  /** The metadata ids of the homeless items' rows, in item order, or the KeyError of the first item with no row. */
  function HomelessMetadata(homeless: seq<ExtItem>, links: seq<MetadataLink>): (r: Result<seq<int>>)
    ensures r.Ok? ==> |r.value| == |homeless|
    ensures r.Ok? <==> forall j :: 0 <= j < |homeless| ==> LinkOf(links, homeless[j].id).Some?
  {
    if homeless == [] then Ok([])
    else
      var n := |homeless| - 1;
      assert forall j :: 0 <= j < n ==> homeless[..n][j] == homeless[j];
      match HomelessMetadata(homeless[..n], links)
      case Err(e) => Err(e)
      case Ok(ms) =>
        match LinkOf(links, homeless[n].id)
        case None => Err(MissingLink(homeless[n].id))
        case Some(l) => Ok(ms + [l.metadataId])
  }

  lemma {:induction false} HomelessMetadataIds(homeless: seq<ExtItem>, links: seq<MetadataLink>, j: nat)
    requires HomelessMetadata(homeless, links).Ok? && j < |homeless|
    ensures HomelessMetadata(homeless, links).value[j] == LinkOf(links, homeless[j].id).value.metadataId
  {
    var n := |homeless| - 1;
    if j < n {
      HomelessMetadataIds(homeless[..n], links, j);
    }
  }

  lemma {:induction false} HomelessErrSticks(homeless: seq<ExtItem>, links: seq<MetadataLink>, i: nat)
    requires i <= |homeless| && HomelessMetadata(homeless[..i], links).Err?
    ensures HomelessMetadata(homeless, links) == HomelessMetadata(homeless[..i], links)
    decreases |homeless| - i
  {
    if i < |homeless| {
      var n := |homeless| - 1;
      assert homeless[..n][..i] == homeless[..i];
      HomelessErrSticks(homeless[..n], links, i);
    } else {
      assert homeless[..i] == homeless;
    }
  }

  /** The keys of a Counter fed ms, in the order they were first counted. */
  function FirstSeen(ms: seq<int>): (r: seq<int>)
    ensures forall m :: m in r <==> m in ms
  {
    if ms == [] then []
    else
      var n := |ms| - 1;
      assert forall m :: m in ms <==> m in ms[..n] || m == ms[n];
      if ms[n] in FirstSeen(ms[..n]) then FirstSeen(ms[..n]) else FirstSeen(ms[..n]) + [ms[n]]
  }

  /** A Counter's keys are distinct. */
  lemma {:induction false} FirstSeenDistinct(ms: seq<int>)
    ensures forall a, b :: 0 <= a < b < |FirstSeen(ms)| ==> FirstSeen(ms)[a] != FirstSeen(ms)[b]
  {
    if ms != [] {
      FirstSeenDistinct(ms[..|ms| - 1]);
    }
  }

  /** Counter[m] += 1 */
  function CountOfInt(counts: map<int, nat>, m: int): nat
  {
    if m in counts then counts[m] else 0
  }

  /**
   * The second pass: per metadata id, how many homeless items' rows point
   * to it, with the ids in the order they were first counted; a KeyError
   * when a homeless item has no cached row.
   */
  method CountHomeless(homeless: seq<ExtItem>, links: seq<MetadataLink>) returns (r: Result<(seq<int>, map<int, nat>)>)
    ensures r.Ok? <==> HomelessMetadata(homeless, links).Ok?
    ensures r.Err? ==> r.error == HomelessMetadata(homeless, links).error
    ensures r.Ok? ==> r.value.0 == FirstSeen(HomelessMetadata(homeless, links).value)
    ensures r.Ok? ==> forall m :: CountOfInt(r.value.1, m) == multiset(HomelessMetadata(homeless, links).value)[m]
  {
    var order: seq<int> := [];
    var counts: map<int, nat> := map[];
    for i := 0 to |homeless|
      invariant HomelessMetadata(homeless[..i], links).Ok?
      invariant order == FirstSeen(HomelessMetadata(homeless[..i], links).value)
      invariant forall m :: CountOfInt(counts, m) == multiset(HomelessMetadata(homeless[..i], links).value)[m]
    {
      assert homeless[..i + 1][..i] == homeless[..i];
      ghost var ms := HomelessMetadata(homeless[..i], links).value;
      var l := LinkOf(links, homeless[i].id);
      if l.None? {
        HomelessErrSticks(homeless, links, i + 1);
        return Err(MissingLink(homeless[i].id));
      }
      var m := l.value.metadataId;
      assert HomelessMetadata(homeless[..i + 1], links).value == ms + [m];
      assert (ms + [m])[..|ms|] == ms;
      if m !in order {
        order := order + [m];
      }
      counts := counts[m := CountOfInt(counts, m) + 1];
      assert multiset(ms + [m]) == multiset(ms) + multiset{m};
    }
    assert homeless[..|homeless|] == homeless;
    return Ok((order, counts));
  }

  // ---------------------------------------------------------------------------
  // Third pass: metadata whose every user is homeless is renamed in place

  /** The first homeless item with the given row id. */
  function FirstHomeless(homeless: seq<ExtItem>, id: int): (r: Option<ExtItem>)
    ensures r.Some? ==> r.value in homeless && r.value.id == id
    ensures r.None? ==> forall h :: h in homeless ==> h.id != id
  {
    if homeless == [] then None
    else if homeless[0].id == id then Some(homeless[0])
    else FirstHomeless(homeless[1..], id)
  }

  /**
   * The homeless item that gives metadata m its new (name, value): the
   * first cached row pointing to m, in cache order, that belongs to a
   * homeless item, and the first such item.
   */
  function Claimant(links: seq<MetadataLink>, m: int, homeless: seq<ExtItem>): (r: Option<ExtItem>)
    ensures r.Some? ==> r.value in homeless && exists l :: l in links && l.metadataId == m && l.id == r.value.id
    ensures r.None? ==> forall l, h :: l in links && h in homeless && l.metadataId == m ==> l.id != h.id
  {
    if links == [] then None
    else if links[0].metadataId == m && FirstHomeless(homeless, links[0].id).Some? then FirstHomeless(homeless, links[0].id)
    else Claimant(links[1..], m, homeless)
  }

  /** A metadata is renamed when the homeless items using it are all of its users. */
  predicate AllUsersHomeless(counts: map<int, nat>, usage: map<int, int>, m: int)
  {
    CountOfInt(counts, m) == Usage(usage, m)
  }

  /** The metadata rows renamed, metadata by metadata in the order given. */
  function Renames(order: seq<int>, counts: map<int, nat>, usage: map<int, int>, links: seq<MetadataLink>, homeless: seq<ExtItem>)
    : seq<MetaEntry>
  {
    if order == [] then []
    else
      var m := order[|order| - 1];
      var rest := Renames(order[..|order| - 1], counts, usage, links, homeless);
      if AllUsersHomeless(counts, usage, m) then
        match Claimant(links, m, homeless)
        case None => rest
        case Some(h) => rest + [MetaEntry(m, h.name, h.value)]
      else rest
  }

  /**
   * A renamed metadata keeps its id, is one whose every user is homeless,
   * and takes the pair of a homeless item whose row points to it.
   */
  lemma {:induction false} RenamesAreSafe(order: seq<int>, counts: map<int, nat>, usage: map<int, int>, links: seq<MetadataLink>,
                                          homeless: seq<ExtItem>, e: MetaEntry)
    requires e in Renames(order, counts, usage, links, homeless)
    ensures e.id in order && AllUsersHomeless(counts, usage, e.id)
    ensures exists h, l :: h in homeless && l in links && l.metadataId == e.id && l.id == h.id && (e.name, e.value) == Pair(h)
  {
    var n := |order| - 1;
    var rest := Renames(order[..n], counts, usage, links, homeless);
    if e in rest {
      RenamesAreSafe(order[..n], counts, usage, links, homeless, e);
      assert order[..n] <= order;
    } else {
      var h := Claimant(links, order[n], homeless).value;
      var l :| l in links && l.metadataId == order[n] && l.id == h.id;
    }
  }

  /** A metadata whose users are all homeless and one of whose rows belongs to a homeless item is renamed. */
  lemma {:induction false} RenamesComplete(order: seq<int>, counts: map<int, nat>, usage: map<int, int>, links: seq<MetadataLink>,
                                           homeless: seq<ExtItem>, m: int)
    requires m in order && AllUsersHomeless(counts, usage, m)
    requires exists l, h :: l in links && h in homeless && l.metadataId == m && l.id == h.id
    ensures exists e :: e in Renames(order, counts, usage, links, homeless) && e.id == m
  {
    var n := |order| - 1;
    if order[n] == m {
      var h := Claimant(links, m, homeless).value;
      assert MetaEntry(m, h.name, h.value) in Renames(order, counts, usage, links, homeless);
    } else {
      assert m in order[..n];
      RenamesComplete(order[..n], counts, usage, links, homeless, m);
      var e :| e in Renames(order[..n], counts, usage, links, homeless) && e.id == m;
      assert e in Renames(order, counts, usage, links, homeless);
    }
  }

  /** for item in homeless_items: if item["id"] == cached_item["id"]: ... break */
  method FindHomeless(homeless: seq<ExtItem>, id: int) returns (r: Option<ExtItem>)
    ensures r == FirstHomeless(homeless, id)
  {
    for i := 0 to |homeless|
      invariant FirstHomeless(homeless, id) == FirstHomeless(homeless[i..], id)
    {
      assert homeless[i..][1..] == homeless[i + 1..];
      if homeless[i].id == id {
        return Some(homeless[i]);
      }
    }
    return None;
  }

  /** for cached_item in item_metadata_cache.values(): if cached_item["metadata_id"] == metadata_id: ... */
  method FindClaimant(links: seq<MetadataLink>, m: int, homeless: seq<ExtItem>) returns (r: Option<ExtItem>)
    ensures r == Claimant(links, m, homeless)
  {
    for i := 0 to |links|
      invariant Claimant(links, m, homeless) == Claimant(links[i..], m, homeless)
    {
      assert links[i..][1..] == links[i + 1..];
      if links[i].metadataId == m {
        var found := FindHomeless(homeless, links[i].id);
        if found.Some? {
          return found;
        }
      }
    }
    return None;
  }

  /**
   * The third pass: the metadata renamed in place, in the order the
   * homeless counts were first made, and future_metadata_ids, the new
   * pairs of those metadata.
   */
  method RenamePass(order: seq<int>, counts: map<int, nat>, usage: map<int, int>, links: seq<MetadataLink>, homeless: seq<ExtItem>)
    returns (renames: seq<MetaEntry>, future: map<(Val, Val), int>)
    ensures renames == Renames(order, counts, usage, links, homeless)
    ensures future == MetadataIds(renames)
  {
    renames := [];
    future := map[];
    for i := 0 to |order|
      invariant renames == Renames(order[..i], counts, usage, links, homeless)
      invariant future == MetadataIds(renames)
    {
      var m := order[i];
      RenamesSnoc(order, i, counts, usage, links, homeless);
      if CountOfInt(counts, m) == Usage(usage, m) {
        var h := FindClaimant(links, m, homeless);
        if h.Some? {
          var e := MetaEntry(m, h.value.name, h.value.value);
          MetadataIdsSnoc(renames, e);
          renames := renames + [e];
          future := future[(e.name, e.value) := m];
        }
      }
    }
    assert order[..|order|] == order;
  }

  lemma RenamesSnoc(order: seq<int>, i: nat, counts: map<int, nat>, usage: map<int, int>, links: seq<MetadataLink>, homeless: seq<ExtItem>)
    requires i < |order|
    ensures var m := order[i];
      Renames(order[..i + 1], counts, usage, links, homeless)
      == if AllUsersHomeless(counts, usage, m) && Claimant(links, m, homeless).Some?
         then Renames(order[..i], counts, usage, links, homeless)
              + [MetaEntry(m, Claimant(links, m, homeless).value.name, Claimant(links, m, homeless).value.value)]
         else Renames(order[..i], counts, usage, links, homeless)
  {
    assert order[..i + 1][..i] == order[..i];
  }

  lemma MetadataIdsSnoc(entries: seq<MetaEntry>, e: MetaEntry)
    ensures MetadataIds(entries + [e]) == MetadataIds(entries)[(e.name, e.value) := e.id]
  {
    assert (entries + [e])[..|entries|] == entries;
  }

  // ---------------------------------------------------------------------------
  // Fourth pass: homeless items take the renamed metadata or need new metadata

  /** The homeless items needing new metadata and those repointed to renamed metadata. */
  datatype Placement = Placement(needNew: seq<ExtItem>, repointed: seq<(ExtItem, int)>)

  /** Whether the row of x already points to metadata m. */
  predicate PointsTo(links: seq<MetadataLink>, x: ExtItem, m: int)
  {
    LinkOf(links, x.id).Some? && LinkOf(links, x.id).value.metadataId == m
  }

  /** The fourth pass over the homeless items, as a function of the items seen so far. */
  function Place(homeless: seq<ExtItem>, future: map<(Val, Val), int>, links: seq<MetadataLink>): Placement
  {
    if homeless == [] then Placement([], [])
    else
      var x := homeless[|homeless| - 1];
      var p := Place(homeless[..|homeless| - 1], future, links);
      if Pair(x) !in future then Placement(p.needNew + [x], p.repointed)
      else if PointsTo(links, x, future[Pair(x)]) then p
      else Placement(p.needNew, p.repointed + [(x, future[Pair(x)])])
  }

  /**
   * Every homeless item whose pair no renamed metadata took needs new
   * metadata; one whose pair was taken is repointed to that metadata
   * unless its row already points there; nothing else is placed.
   */
  lemma {:induction false} PlaceSplits(homeless: seq<ExtItem>, future: map<(Val, Val), int>, links: seq<MetadataLink>, x: ExtItem)
    ensures x in Place(homeless, future, links).needNew <==> x in homeless && Pair(x) !in future
    ensures x in homeless && Pair(x) in future && !PointsTo(links, x, future[Pair(x)]) ==>
      (x, future[Pair(x)]) in Place(homeless, future, links).repointed
    ensures forall j :: 0 <= j < |Place(homeless, future, links).repointed| ==>
      var (y, m) := Place(homeless, future, links).repointed[j];
      y in homeless && Pair(y) in future && m == future[Pair(y)] && !PointsTo(links, y, m)
  {
    if homeless != [] {
      var n := |homeless| - 1;
      PlaceSplits(homeless[..n], future, links, x);
      assert forall y :: y in homeless <==> y in homeless[..n] || y == homeless[n];
    }
  }

  /** The fourth pass of _update_ext_item_metadata. */
  method PlacePass(homeless: seq<ExtItem>, future: map<(Val, Val), int>, links: seq<MetadataLink>) returns (p: Placement)
    ensures p == Place(homeless, future, links)
  {
    var needNew: seq<ExtItem> := [];
    var repointed: seq<(ExtItem, int)> := [];
    for i := 0 to |homeless|
      invariant Place(homeless[..i], future, links) == Placement(needNew, repointed)
    {
      var x := homeless[i];
      assert homeless[..i + 1][..i] == homeless[..i];
      if Pair(x) !in future {
        needNew := needNew + [x];
        continue;
      }
      var m := future[Pair(x)];
      var l := LinkOf(links, x.id);
      if l.Some? && l.value.metadataId == m {
        continue;
      }
      repointed := repointed + [(x, m)];
    }
    assert homeless[..|homeless|] == homeless;
    return Placement(needNew, repointed);
  }

  // ---------------------------------------------------------------------------
  // The plan of the four passes

  /** What the four passes decide: the rows to repoint, the metadata to rename, the items needing new metadata. */
  datatype ExtPlan = ExtPlan(updatable: seq<(ExtItem, int)>, renames: seq<MetaEntry>, needNew: seq<ExtItem>)

  /** The four passes, from the items, the known pairs, the cached rows and the usage counts. */
  function PlanOf(items: seq<ExtItem>, known: map<(Val, Val), int>, links: seq<MetadataLink>, usage: map<int, int>): Result<ExtPlan>
  {
    match SortItems(items, known, links, usage)
    case Err(e) => Err(e)
    case Ok(s) =>
      match HomelessMetadata(s.homeless, links)
      case Err(e) => Err(e)
      case Ok(ms) =>
        var counts := map m | m in ms :: multiset(ms)[m];
        var renames := Renames(FirstSeen(ms), counts, s.usage, links, s.homeless);
        var p := Place(s.homeless, MetadataIds(renames), links);
        Ok(ExtPlan(s.updatable + p.repointed, renames, p.needNew))
  }

  /**
   * The fate of every item under the plan: an item naming a known pair is
   * repointed to it; an item naming an unknown pair that a renamed metadata
   * took is repointed to that metadata, unless its row already points there;
   * an item naming a pair nobody has needs new metadata. Every rename is of
   * a metadata whose every user is being moved, to the pair of one of them.
   */
  lemma ExtPlanFates(items: seq<ExtItem>, known: map<(Val, Val), int>, links: seq<MetadataLink>, usage: map<int, int>, x: ExtItem)
    requires PlanOf(items, known, links, usage).Ok?
    ensures var p := PlanOf(items, known, links, usage).value;
      var future := MetadataIds(p.renames);
      && (x in items && Pair(x) in known ==> (x, known[Pair(x)]) in p.updatable)
      && (x in items && Pair(x) !in known && Pair(x) in future && !PointsTo(links, x, future[Pair(x)]) ==>
            (x, future[Pair(x)]) in p.updatable)
      && (x in p.needNew <==> x in items && Pair(x) !in known && Pair(x) !in future)
  {
    var s := SortItems(items, known, links, usage).value;
    var ms := HomelessMetadata(s.homeless, links).value;
    var counts := map m | m in ms :: multiset(ms)[m];
    var renames := Renames(FirstSeen(ms), counts, s.usage, links, s.homeless);
    SortItemsSplits(items, known, links, usage, x, 0);
    PlaceSplits(s.homeless, MetadataIds(renames), links, x);
  }

  /** Every metadata renamed by the plan is one all of whose users the update moves, and it takes one of their pairs. */
  lemma ExtPlanRenames(items: seq<ExtItem>, known: map<(Val, Val), int>, links: seq<MetadataLink>, usage: map<int, int>, e: MetaEntry)
    requires PlanOf(items, known, links, usage).Ok?
    requires e in PlanOf(items, known, links, usage).value.renames
    ensures var s := SortItems(items, known, links, usage).value;
      exists h, l :: h in items && Pair(h) !in known && l in links && l.metadataId == e.id && l.id == h.id
        && (e.name, e.value) == Pair(h)
    ensures var s := SortItems(items, known, links, usage).value;
      multiset(HomelessMetadata(s.homeless, links).value)[e.id] == Usage(s.usage, e.id)
  {
    var s := SortItems(items, known, links, usage).value;
    var ms := HomelessMetadata(s.homeless, links).value;
    var counts := map m | m in ms :: multiset(ms)[m];
    RenamesAreSafe(FirstSeen(ms), counts, s.usage, links, s.homeless, e);
    var h, l :| h in s.homeless && l in links && l.metadataId == e.id && l.id == h.id && (e.name, e.value) == Pair(h);
    SortItemsSplits(items, known, links, usage, h, 0);
  }

  // ---------------------------------------------------------------------------
  // The writes

  /** The (name, value) pairs of the items, in order: the metadata rows to add. */
  function Pairs(xs: seq<ExtItem>): (r: seq<(Val, Val)>)
    ensures |r| == |xs| && forall i :: 0 <= i < |xs| ==> r[i] == Pair(xs[i])
  {
    seq(|xs|, i requires 0 <= i < |xs| => Pair(xs[i]))
  }

  /**
   * The rows the last update repoints: those of the plan, then each item
   * needing new metadata to the row added for its pair; a KeyError when a
   * pair got no row.
   */
  function FinalLinks(p: ExtPlan, newIds: map<(Val, Val), int>): (r: Result<seq<(ExtItem, int)>>)
    ensures r.Ok? <==> forall x :: x in p.needNew ==> Pair(x) in newIds
    ensures r.Ok? ==> |r.value| == |p.updatable| + |p.needNew|
  {
    if forall x :: x in p.needNew ==> Pair(x) in newIds then
      Ok(p.updatable + seq(|p.needNew|, i requires 0 <= i < |p.needNew| => (p.needNew[i], newIds[Pair(p.needNew[i])])))
    else Err(KeyError("metadata"))
  }

  /**
   * Once the rows are linked, every item ends up pointing to metadata that
   * names its pair: the metadata of a known pair; a renamed metadata that
   * took its pair, unless its row points there already; or the row added
   * for it.
   */
  lemma FinalLinksFates(items: seq<ExtItem>, known: map<(Val, Val), int>, links: seq<MetadataLink>, usage: map<int, int>,
                        newIds: map<(Val, Val), int>, x: ExtItem)
    requires PlanOf(items, known, links, usage).Ok?
    requires FinalLinks(PlanOf(items, known, links, usage).value, newIds).Ok?
    requires x in items
    ensures var p := PlanOf(items, known, links, usage).value;
      var future := MetadataIds(p.renames);
      var fl := FinalLinks(p, newIds).value;
      && (Pair(x) in known ==> (x, known[Pair(x)]) in fl)
      && (Pair(x) !in known && Pair(x) in future ==>
            (PointsTo(links, x, future[Pair(x)]) || (x, future[Pair(x)]) in fl)
            && exists e :: e in p.renames && e.id == future[Pair(x)] && (e.name, e.value) == Pair(x))
      && (Pair(x) !in known && Pair(x) !in future ==> Pair(x) in newIds && (x, newIds[Pair(x)]) in fl)
  {
    var p := PlanOf(items, known, links, usage).value;
    var fl := FinalLinks(p, newIds).value;
    ExtPlanFates(items, known, links, usage, x);
    var linked := seq(|p.needNew|, i requires 0 <= i < |p.needNew| => (p.needNew[i], newIds[Pair(p.needNew[i])]));
    assert fl == p.updatable + linked;
    if Pair(x) !in known && Pair(x) !in MetadataIds(p.renames) {
      var i :| 0 <= i < |p.needNew| && p.needNew[i] == x;
      assert linked[i] == (x, newIds[Pair(x)]);
    }
  }

  /** Renames reads the homeless counts only through Counter lookups. */
  lemma {:induction false} RenamesByCount(order: seq<int>, c1: map<int, nat>, c2: map<int, nat>, usage: map<int, int>,
                                          links: seq<MetadataLink>, homeless: seq<ExtItem>)
    requires forall m :: CountOfInt(c1, m) == CountOfInt(c2, m)
    ensures Renames(order, c1, usage, links, homeless) == Renames(order, c2, usage, links, homeless)
  {
    if order != [] {
      RenamesByCount(order[..|order| - 1], c1, c2, usage, links, homeless);
    }
  }

  /** The four passes run one after the other compute the plan. */
  method Plan(items: seq<ExtItem>, known: map<(Val, Val), int>, links: seq<MetadataLink>, usage: map<int, int>)
    returns (r: Result<ExtPlan>)
    ensures r == PlanOf(items, known, links, usage)
  {
    var s := SortByPair(items, known, links, usage);
    if s.Err? {
      return Err(s.error);
    }
    var c := CountHomeless(s.value.homeless, links);
    if c.Err? {
      return Err(c.error);
    }
    ghost var ms := HomelessMetadata(s.value.homeless, links).value;
    ghost var counts := map m | m in ms :: multiset(ms)[m];
    RenamesByCount(c.value.0, c.value.1, counts, s.value.usage, links, s.value.homeless);
    var renames, future := RenamePass(c.value.0, c.value.1, s.value.usage, links, s.value.homeless);
    var placed := PlacePass(s.value.homeless, future, links);
    return Ok(ExtPlan(s.value.updatable + placed.repointed, renames, placed.needNew));
  }

  /**
   * _update_ext_item_metadata: the four passes, then the writes. The
   * renamed metadata are updated (updateMetadata) and the new pairs added
   * (addMetadata), each only when there is something to write; the first
   * of the two that reports errors ends it with the rows written so far
   * and those errors. Otherwise the items needing new metadata are linked
   * to the rows added for their pairs and the repointed rows, if any, are
   * updated (updateLinks).
   */
  method UpdateExtItemMetadata(items: seq<ExtItem>, known: map<(Val, Val), int>, links: seq<MetadataLink>,
                               usage: map<int, int>,
                               updateMetadata: seq<MetaEntry> -> (seq<Fields>, seq<Error>),
                               addMetadata: seq<(Val, Val)> -> (seq<Fields>, seq<Error>),
                               updateLinks: seq<(ExtItem, int)> -> (seq<Fields>, seq<Error>))
    returns (r: Result<(seq<Fields>, seq<Error>)>)
    ensures PlanOf(items, known, links, usage).Err? ==> r == Err(PlanOf(items, known, links, usage).error)
    ensures PlanOf(items, known, links, usage).Ok? ==>
      var p := PlanOf(items, known, links, usage).value;
      var renamed := if p.renames == [] then ([], []) else updateMetadata(p.renames);
      var added := if p.needNew == [] then ([], []) else addMetadata(Pairs(p.needNew));
      && (renamed.1 != [] ==> r == Ok(renamed))
      && (renamed.1 == [] && added.1 != [] ==> r == Ok((renamed.0 + added.0, added.1)))
      && (renamed.1 == [] && added.1 == [] ==>
            match FinalLinks(p, NewIds(added.0))
            case Err(e) => r == Err(e)
            case Ok(fl) =>
              var last := if fl == [] then ([], []) else updateLinks(fl);
              r == Ok((renamed.0 + added.0 + last.0, last.1)))
  {
    var plan := Plan(items, known, links, usage);
    if plan.Err? {
      return Err(plan.error);
    }
    var p := plan.value;
    var all: seq<Fields> := [];
    var errors: seq<Error> := [];
    if p.renames != [] {
      all, errors := updateMetadata(p.renames).0, updateMetadata(p.renames).1;
      if errors != [] {
        return Ok((all, errors));
      }
    }
    var added: seq<Fields> := [];
    if p.needNew != [] {
      added := addMetadata(Pairs(p.needNew)).0;
      all := all + added;
      errors := addMetadata(Pairs(p.needNew)).1;
      if errors != [] {
        return Ok((all, errors));
      }
    }
    assert all == (if p.renames == [] then [] else updateMetadata(p.renames).0) + added;
    var fl := FinalLinks(p, NewIds(added));
    if fl.Err? {
      return Err(fl.error);
    }
    var last: (seq<Fields>, seq<Error>) := ([], []);
    if fl.value != [] {
      last := updateLinks(fl.value);
    }
    return Ok((all + last.0, last.1));
  }
}
