// Filter configurations carried in a database URL
// (spinedb_api/filters/url_tools.py). The URL is modelled after parsing:
// what precedes the query, and the query as parse_qs gives it, an ordered
// dict from key to its list of values. Filter configurations live under the
// key "spinedbfilter"; a configuration dict is stored as "cfg:" followed by
// its filter's shorthand, a path to a configuration file as it is.
//
// The alternative filter and the scenario filter's shorthand functions and
// constants are not part of this model: they come in as OtherFilters.

module UrlTools {
  import opened Errors
  import opened Text
  import opened Json
  import ToolFilter
  import Renamer

  const FILTER_IDENTIFIER: string := "spinedbfilter"
  const SHORTHAND_TAG: string := "cfg:"

  /** A parsed query: each key with its values, keys in insertion order. */
  type Query = seq<(string, seq<string>)>

  datatype Url = Url(location: string, query: Query)

  /** A filter configuration: a configuration dict, or the path of a file holding one. */
  datatype FilterConfig = Dict(config: Json) | File(path: string)

  /** The filters whose shorthand functions are defined outside this model. */
  datatype OtherFilters = OtherFilters(
    alternativeType: string, alternativeTag: string,
    alternativeToShorthand: Json -> Result<string>, alternativeToConfig: string -> Result<Json>,
    scenarioType: string, scenarioTag: string,
    scenarioToShorthand: Json -> Result<string>, scenarioToConfig: string -> Result<Json>)

  // ---------------------------------------------------------------------------
  // The query dict

  /** No key occurs twice, as in a dict. */
  predicate UniqueKeys(q: Query)
  {
    forall i, j :: 0 <= i < j < |q| ==> q[i].0 != q[j].0
  }

  /** query.get(key). */
  function Get(q: Query, key: string): (r: Option<seq<string>>)
    ensures r.None? <==> forall i :: 0 <= i < |q| ==> q[i].0 != key
    ensures r.Some? ==> (key, r.value) in q
  {
    if q == [] then None
    else if q[0].0 == key then Some(q[0].1)
    else Get(q[1..], key)
  }

  /** del query[key]: every other entry stays, in order. */
  function Remove(q: Query, key: string): (r: Query)
    ensures forall x :: x in r <==> x in q && x.0 != key
    ensures Get(q, key).None? ==> r == q
    ensures Get(r, key).None?
  {
    if q == [] then []
    else if q[0].0 == key then Remove(q[1..], key)
    else [q[0]] + Remove(q[1..], key)
  }

  /** query.setdefault(key, list()).append(value): a new key goes last. */
  function AppendValue(q: Query, key: string, value: string): (r: Query)
    ensures Get(q, key).None? ==> r == q + [(key, [value])]
  {
    if q == [] then [(key, [value])]
    else if q[0].0 == key then [(key, q[0].1 + [value])] + q[1..]
    else [q[0]] + AppendValue(q[1..], key, value)
  }

  /** After the append the key holds its old values and then the new one; every other key is as it was. */
  lemma {:induction false} AppendValueGet(q: Query, key: string, value: string)
    ensures Get(AppendValue(q, key, value), key) == Some(Get(q, key).GetOr([]) + [value])
    ensures forall k :: k != key ==> Get(AppendValue(q, key, value), k) == Get(q, k)
    decreases |q|
  {
    if q != [] && q[0].0 != key {
      AppendValueGet(q[1..], key, value);
      var r := AppendValue(q, key, value);
      assert r == [q[0]] + AppendValue(q[1..], key, value);
      assert r[1..] == AppendValue(q[1..], key, value);
    } else if q != [] {
      assert AppendValue(q, key, value)[0] == (key, q[0].1 + [value]);
    } else {
      assert Get(q, key).GetOr([]) + [value] == [value];
    }
  }

  /** The append keeps the keys unique. */
  lemma AppendValueUnique(q: Query, key: string, value: string)
    ensures UniqueKeys(q) ==> UniqueKeys(AppendValue(q, key, value))
  {
    if UniqueKeys(q) {
      var r := AppendValue(q, key, value);
      if Get(q, key).Some? {
        AppendValueKeys(q, key, value);
        assert forall i, j :: 0 <= i < j < |r| ==> r[i].0 == q[i].0 && r[j].0 == q[j].0;
      } else {
        assert r == q + [(key, [value])];
        forall i, j | 0 <= i < j < |r| ensures r[i].0 != r[j].0 {
          if j == |q| {
            assert r[i] == q[i] && r[j].0 == key;
          } else {
            assert r[i] == q[i] && r[j] == q[j];
          }
        }
      }
    }
  }

  /** Appending under a key the query has leaves every entry's key where it was. */
  lemma {:induction false} AppendValueKeys(q: Query, key: string, value: string)
    requires Get(q, key).Some?
    ensures |AppendValue(q, key, value)| == |q|
    ensures forall i :: 0 <= i < |q| ==> AppendValue(q, key, value)[i].0 == q[i].0
    decreases |q|
  {
    var r := AppendValue(q, key, value);
    if q[0].0 != key {
      AppendValueKeys(q[1..], key, value);
      var rest := AppendValue(q[1..], key, value);
      assert r == [q[0]] + rest;
      forall i | 0 < i < |q| ensures r[i].0 == q[i].0 {
        assert r[i] == rest[i - 1] && q[i] == q[1..][i - 1];
      }
    } else {
      assert r == [(key, q[0].1 + [value])] + q[1..];
    }
  }

  /** Appending under a key the query lacks and then deleting the key gives the query back. */
  lemma {:induction false} RemoveAppendValue(q: Query, key: string, value: string)
    requires Get(q, key).None?
    ensures Remove(AppendValue(q, key, value), key) == q
    decreases |q|
  {
    if q != [] {
      RemoveAppendValue(q[1..], key, value);
      assert AppendValue(q, key, value) == [q[0]] + AppendValue(q[1..], key, value);
    }
  }

  // ---------------------------------------------------------------------------
  // Shorthand dispatch

  /**
   * _config_to_shorthand: the shorthand function is chosen by the config's
   * type, a later entry of the dispatch dict winning over an earlier one
   * with the same key; an unknown type is a KeyError, an unhashable one a
   * TypeError. The result carries the "cfg:" tag.
   */
  function ConfigToShorthand(config: Json, others: OtherFilters): (r: Result<string>)
    ensures r.Ok? ==> StartsWith(r.value, SHORTHAND_TAG)
    ensures Subscript(config, "type").Err? ==> r == Err(Subscript(config, "type").error)
    ensures Subscript(config, "type") == Ok(JStr(ToolFilter.TOOL_FILTER_TYPE)) ==>
      (r.Ok? <==> ToolFilter.ConfigToShorthand(config).Ok?)
      && (r.Ok? ==> r.value == SHORTHAND_TAG + ToolFilter.ConfigToShorthand(config).value)
    ensures Subscript(config, "type").Ok? && Subscript(config, "type").value.JStr?
      && Subscript(config, "type").value.s !in {ToolFilter.TOOL_FILTER_TYPE, others.scenarioType,
                                                Renamer.ENTITY_CLASS_RENAMER_TYPE, others.alternativeType}
      ==> r == Err(KeyError(Subscript(config, "type").value.s))
  {
    var kind :- Subscript(config, "type");
    var shorthand :-
      if kind.JArr? || kind.JObj? then Err(TypeError("unhashable type: '" + JsonTypeName(kind) + "'"))
      else if kind == JStr(ToolFilter.TOOL_FILTER_TYPE) then ToolFilter.ConfigToShorthand(config)
      else if kind == JStr(others.scenarioType) then others.scenarioToShorthand(config)
      else if kind == JStr(Renamer.ENTITY_CLASS_RENAMER_TYPE) then Renamer.Shorthand(config)
      else if kind == JStr(others.alternativeType) then others.alternativeToShorthand(config)
      else Err(KeyError(PyStr(kind)));
    Ok(SHORTHAND_TAG + shorthand)
  }

  /**
   * _parse_shorthand: the parser is chosen by the text before the first
   * ":", a later entry of the dispatch dict winning; an unknown tag is a
   * KeyError. The tool filter's entry uses its tag "tool".
   */
  function ParseShorthand(shorthand: string, others: OtherFilters): (r: Result<Json>)
    ensures Partition(shorthand, ':').0 == ToolFilter.TOOL_SHORTHAND_TAG ==>
      r == Ok(ToolFilter.ShorthandToConfig(shorthand))
    ensures Partition(shorthand, ':').0 !in {ToolFilter.TOOL_SHORTHAND_TAG, others.scenarioTag,
                                             Renamer.ENTITY_CLASS_RENAMER_SHORTHAND_TAG, others.alternativeTag}
      ==> r == Err(KeyError(Partition(shorthand, ':').0))
    ensures r.Ok? && Partition(shorthand, ':').0 == Renamer.ENTITY_CLASS_RENAMER_SHORTHAND_TAG
      && others.scenarioTag != Renamer.ENTITY_CLASS_RENAMER_SHORTHAND_TAG
      ==> r.value == Renamer.RenamerConfig(Renamer.NameMapOf(shorthand))
  {
    var (tag, _, _) := Partition(shorthand, ':');
    if tag == ToolFilter.TOOL_SHORTHAND_TAG then Ok(ToolFilter.ShorthandToConfig(shorthand))
    else if tag == others.scenarioTag then others.scenarioToConfig(shorthand)
    else if tag == Renamer.ENTITY_CLASS_RENAMER_SHORTHAND_TAG then Ok(Renamer.RenamerConfig(Renamer.NameMapOf(shorthand)))
    else if tag == others.alternativeTag then others.alternativeToConfig(shorthand)
    else Err(KeyError(tag))
  }

  // ---------------------------------------------------------------------------
  // Appending, popping and clearing

  /** The query value a configuration is stored as. */
  function StoredValue(config: FilterConfig, others: OtherFilters): (r: Result<string>)
    ensures config.File? ==> r == Ok(config.path)
    ensures config.Dict? ==> r == ConfigToShorthand(config.config, others)
  {
    match config
    case Dict(c) => ConfigToShorthand(c, others)
    case File(p) => Ok(p)
  }

  /**
   * append_filter_config: the configuration goes after the filters the URL
   * has; nothing else in the URL changes.
   */
  function AppendFilterConfig(url: Url, config: FilterConfig, others: OtherFilters): (r: Result<Url>)
    ensures r.Ok? <==> StoredValue(config, others).Ok?
    ensures r.Ok? ==> r.value.location == url.location
    ensures r.Ok? ==> Get(r.value.query, FILTER_IDENTIFIER)
                      == Some(Get(url.query, FILTER_IDENTIFIER).GetOr([]) + [StoredValue(config, others).value])
    ensures r.Ok? ==> forall k :: k != FILTER_IDENTIFIER ==> Get(r.value.query, k) == Get(url.query, k)
    ensures r.Ok? && UniqueKeys(url.query) ==> UniqueKeys(r.value.query)
  {
    var value :- StoredValue(config, others);
    AppendValueGet(url.query, FILTER_IDENTIFIER, value);
    AppendValueUnique(url.query, FILTER_IDENTIFIER, value);
    Ok(Url(url.location, AppendValue(url.query, FILTER_IDENTIFIER, value)))
  }

  /** One stored filter read back: a "cfg:" entry is parsed, anything else is a file path. */
  function ParseStored(value: string, others: OtherFilters): (r: Result<FilterConfig>)
    ensures !StartsWith(value, SHORTHAND_TAG) ==> r == Ok(File(value))
    ensures StartsWith(value, SHORTHAND_TAG) ==>
      (r.Ok? <==> ParseShorthand(value[|SHORTHAND_TAG|..], others).Ok?)
      && (r.Ok? ==> r == Ok(Dict(ParseShorthand(value[|SHORTHAND_TAG|..], others).value)))
  {
    if StartsWith(value, SHORTHAND_TAG) then
      var config :- ParseShorthand(value[|SHORTHAND_TAG|..], others);
      Ok(Dict(config))
    else Ok(File(value))
  }

  /** The stored filters read back in order; the first that fails to parse fails them all. */
  function ParseAll(values: seq<string>, others: OtherFilters): (r: Result<seq<FilterConfig>>)
    ensures r.Ok? <==> forall i :: 0 <= i < |values| ==> ParseStored(values[i], others).Ok?
    ensures r.Ok? ==> (|r.value| == |values|
                       && forall i :: 0 <= i < |values| ==> Ok(r.value[i]) == ParseStored(values[i], others))
    decreases |values|
  {
    if values == [] then Ok([])
    else
      var front :- ParseAll(values[..|values| - 1], others);
      var last :- ParseStored(values[|values| - 1], others);
      ParsedSnoc(values, front, last, others);
      Ok(front + [last])
  }

  /** The filters read back from all but the last value, and the last one read back, are all of them. */
  lemma ParsedSnoc(values: seq<string>, front: seq<FilterConfig>, last: FilterConfig, others: OtherFilters)
    requires values != [] && |front| == |values| - 1
    requires forall i :: 0 <= i < |front| ==> Ok(front[i]) == ParseStored(values[..|values| - 1][i], others)
    requires Ok(last) == ParseStored(values[|values| - 1], others)
    ensures forall i :: 0 <= i < |values| ==> Ok((front + [last])[i]) == ParseStored(values[i], others)
  {
    forall i | 0 <= i < |values| ensures Ok((front + [last])[i]) == ParseStored(values[i], others) {
      if i < |front| {
        assert values[..|values| - 1][i] == values[i];
        assert (front + [last])[i] == front[i];
      } else {
        assert (front + [last])[i] == last;
      }
    }
  }

  /** pop_filter_configs, as a value: the filters read back and the URL without them. */
  function Popped(url: Url, others: OtherFilters): (r: Result<(seq<FilterConfig>, Url)>)
    ensures Get(url.query, FILTER_IDENTIFIER).None? ==> r == Ok(([], url))
    ensures Get(url.query, FILTER_IDENTIFIER).Some? ==>
      (r.Ok? <==> ParseAll(Get(url.query, FILTER_IDENTIFIER).value, others).Ok?)
    ensures Get(url.query, FILTER_IDENTIFIER).Some? && r.Ok? ==>
      r.value == (ParseAll(Get(url.query, FILTER_IDENTIFIER).value, others).value,
                  Url(url.location, Remove(url.query, FILTER_IDENTIFIER)))
  {
    match Get(url.query, FILTER_IDENTIFIER)
    case None => Ok(([], url))
    case Some(values) =>
      var configs :- ParseAll(values, others);
      Ok((configs, Url(url.location, Remove(url.query, FILTER_IDENTIFIER))))
  }

  /**
   * pop_filter_configs: the stored filters are read back one by one, in
   * order, and the key is dropped from the URL.
   */
  method PopFilterConfigs(url: Url, others: OtherFilters) returns (r: Result<(seq<FilterConfig>, Url)>)
    ensures r == Popped(url, others)
  {
    var filters := Get(url.query, FILTER_IDENTIFIER);
    if filters.None? {
      return Ok(([], url));
    }
    var values := filters.value;
    var parsed: seq<FilterConfig> := [];
    for i := 0 to |values|
      invariant ParseAll(values[..i], others) == Ok(parsed)
    {
      assert values[..i + 1][..i] == values[..i];
      var config := ParseStored(values[i], others);
      if config.Err? {
        ParseAllErrSticks(values, i + 1, others);
        return Err(config.error);
      }
      parsed := parsed + [config.value];
    }
    assert values[..|values|] == values;
    r := Ok((parsed, Url(url.location, Remove(url.query, FILTER_IDENTIFIER))));
  }

  /** Once a prefix of the stored filters fails, the whole list fails with the same error. */
  lemma {:induction false} ParseAllErrSticks(values: seq<string>, n: nat, others: OtherFilters)
    requires n <= |values| && ParseAll(values[..n], others).Err?
    ensures ParseAll(values, others) == ParseAll(values[..n], others)
    decreases |values| - n
  {
    if n < |values| {
      assert values[..n + 1][..n] == values[..n];
      ParseAllErrSticks(values, n + 1, others);
    } else {
      assert values[..n] == values;
    }
  }

  /** clear_filter_configs: the URL without its filters; a URL that has none is returned as it is. */
  function ClearFilterConfigs(url: Url): (r: Url)
    ensures r.location == url.location
    ensures Get(r.query, FILTER_IDENTIFIER).None?
    ensures forall k :: k != FILTER_IDENTIFIER ==> Get(r.query, k) == Get(url.query, k)
    ensures Get(url.query, FILTER_IDENTIFIER).None? ==> r == url
  {
    if Get(url.query, FILTER_IDENTIFIER).None? then url
    else
      var q := Remove(url.query, FILTER_IDENTIFIER);
      RemoveKeepsOthers(url.query, FILTER_IDENTIFIER);
      Url(url.location, q)
  }

  lemma {:induction false} RemoveKeepsOthers(q: Query, key: string)
    ensures forall k :: k != key ==> Get(Remove(q, key), k) == Get(q, k)
    decreases |q|
  {
    if q != [] {
      RemoveKeepsOthers(q[1..], key);
    }
  }

  // ---------------------------------------------------------------------------
  // Round trips

  /** Popping right after appending a configuration to a URL without filters gives the configuration's reading and the URL back. */
  lemma AppendThenPop(url: Url, config: FilterConfig, others: OtherFilters)
    requires Get(url.query, FILTER_IDENTIFIER).None?
    requires StoredValue(config, others).Ok?
    ensures ParseStored(StoredValue(config, others).value, others).Ok? ==>
      Popped(AppendFilterConfig(url, config, others).value, others)
        == Ok(([ParseStored(StoredValue(config, others).value, others).value], url))
    ensures ParseStored(StoredValue(config, others).value, others).Err? ==>
      Popped(AppendFilterConfig(url, config, others).value, others).Err?
  {
    var value := StoredValue(config, others).value;
    var appended := Url(url.location, url.query + [(FILTER_IDENTIFIER, [value])]);
    assert AppendFilterConfig(url, config, others).value == appended;
    RemoveAppendValue(url.query, FILTER_IDENTIFIER, value);
    AppendValueGet(url.query, FILTER_IDENTIFIER, value);
    assert Get(appended.query, FILTER_IDENTIFIER) == Some([value]);
    assert [value][..0] == [];
    var parsed := ParseAll([value], others);
    assert parsed.Ok? ==> parsed.value == [ParseStored(value, others).value];
  }

  /** A file path is stored and read back verbatim unless it happens to start with "cfg:". */
  lemma FileRoundTrip(url: Url, path: string, others: OtherFilters)
    requires Get(url.query, FILTER_IDENTIFIER).None?
    requires !StartsWith(path, SHORTHAND_TAG)
    ensures Popped(AppendFilterConfig(url, File(path), others).value, others) == Ok(([File(path)], url))
  {
    AppendThenPop(url, File(path), others);
  }

  /** A tool filter configuration goes through the URL unchanged, whatever the tool's name. */
  lemma ToolRoundTrip(url: Url, name: string, others: OtherFilters)
    requires Get(url.query, FILTER_IDENTIFIER).None?
    ensures AppendFilterConfig(url, Dict(ToolFilter.ToolFilterConfig(JStr(name))), others).Ok?
    ensures Popped(AppendFilterConfig(url, Dict(ToolFilter.ToolFilterConfig(JStr(name))), others).value, others)
      == Ok(([Dict(ToolFilter.ToolFilterConfig(JStr(name)))], url))
  {
    var config := ToolFilter.ToolFilterConfig(JStr(name));
    ToolFilter.ShorthandRoundTrip(name);
    var shorthand := ToolFilter.ConfigToShorthand(config).value;
    assert shorthand == ToolFilter.TOOL_SHORTHAND_TAG + [':'] + name;
    PartitionAfterPrefix(ToolFilter.TOOL_SHORTHAND_TAG, ':', name);
    var stored := StoredValue(Dict(config), others).value;
    assert stored == SHORTHAND_TAG + shorthand;
    assert stored[|SHORTHAND_TAG|..] == shorthand;
    AppendThenPop(url, Dict(config), others);
  }

  /**
   * A renamer configuration whose names are distinct strings without ":"
   * goes through the URL unchanged, as long as the scenario filter's type
   * and tag differ from the renamer's.
   */
  lemma RenamerRoundTrip(url: Url, renames: seq<(string, string)>, others: OtherFilters)
    requires Get(url.query, FILTER_IDENTIFIER).None?
    requires forall i, j :: 0 <= i < j < |renames| ==> renames[i].0 != renames[j].0
    requires forall i :: 0 <= i < |renames| ==> ':' !in renames[i].0 && ':' !in renames[i].1
    requires others.scenarioType != Renamer.ENTITY_CLASS_RENAMER_TYPE
    requires others.scenarioTag != Renamer.ENTITY_CLASS_RENAMER_SHORTHAND_TAG
    ensures AppendFilterConfig(url, Dict(Renamer.RenamerConfig(Renamer.AsJson(renames))), others).Ok?
    ensures Popped(AppendFilterConfig(url, Dict(Renamer.RenamerConfig(Renamer.AsJson(renames))), others).value, others)
      == Ok(([Dict(Renamer.RenamerConfig(Renamer.AsJson(renames)))], url))
  {
    var config := Renamer.RenamerConfig(Renamer.AsJson(renames));
    RenamerStored(config, others);
    RenamerParsed(renames, others);
    AppendThenPop(url, Dict(config), others);
  }

  /** A renamer configuration is stored as "cfg:" and its shorthand. */
  lemma RenamerStored(config: Json, others: OtherFilters)
    requires Subscript(config, "type") == Ok(JStr(Renamer.ENTITY_CLASS_RENAMER_TYPE))
    requires others.scenarioType != Renamer.ENTITY_CLASS_RENAMER_TYPE
    requires Renamer.Shorthand(config).Ok?
    ensures StoredValue(Dict(config), others) == Ok(SHORTHAND_TAG + Renamer.Shorthand(config).value)
  {
    assert ToolFilter.TOOL_FILTER_TYPE != Renamer.ENTITY_CLASS_RENAMER_TYPE by {
      assert |ToolFilter.TOOL_FILTER_TYPE| != |Renamer.ENTITY_CLASS_RENAMER_TYPE|;
    }
  }

  /** The stored renamer shorthand parses back to the configuration it came from. */
  lemma RenamerParsed(renames: seq<(string, string)>, others: OtherFilters)
    requires forall i, j :: 0 <= i < j < |renames| ==> renames[i].0 != renames[j].0
    requires forall i :: 0 <= i < |renames| ==> ':' !in renames[i].0 && ':' !in renames[i].1
    requires others.scenarioTag != Renamer.ENTITY_CLASS_RENAMER_SHORTHAND_TAG
    ensures Renamer.Shorthand(Renamer.RenamerConfig(Renamer.AsJson(renames))).Ok?
    ensures ParseStored(SHORTHAND_TAG + Renamer.Shorthand(Renamer.RenamerConfig(Renamer.AsJson(renames))).value, others)
      == Ok(Dict(Renamer.RenamerConfig(Renamer.AsJson(renames))))
  {
    var config := Renamer.RenamerConfig(Renamer.AsJson(renames));
    Renamer.ShorthandRoundTrip(renames);
    var shorthand := Renamer.Shorthand(config).value;
    RenamerTag(renames);
    var stored := SHORTHAND_TAG + shorthand;
    assert StartsWith(stored, SHORTHAND_TAG) && stored[|SHORTHAND_TAG|..] == shorthand;
    assert ToolFilter.TOOL_SHORTHAND_TAG != Renamer.ENTITY_CLASS_RENAMER_SHORTHAND_TAG by {
      assert |ToolFilter.TOOL_SHORTHAND_TAG| != |Renamer.ENTITY_CLASS_RENAMER_SHORTHAND_TAG|;
    }
    assert ParseShorthand(shorthand, others) == Ok(Renamer.RenamerConfig(Renamer.NameMapOf(shorthand)));
  }

  /** The renamer's shorthand starts with its tag and then, if anything, a ":". */
  lemma RenamerTag(renames: seq<(string, string)>)
    ensures Renamer.Shorthand(Renamer.RenamerConfig(Renamer.AsJson(renames))).Ok?
    ensures Partition(Renamer.Shorthand(Renamer.RenamerConfig(Renamer.AsJson(renames))).value, ':').0
      == Renamer.ENTITY_CLASS_RENAMER_SHORTHAND_TAG
  {
    var tag := Renamer.ENTITY_CLASS_RENAMER_SHORTHAND_TAG;
    Renamer.PiecesJoin(tag, renames);
    var shorthand := Renamer.Shorthand(Renamer.RenamerConfig(Renamer.AsJson(renames))).value;
    assert shorthand == Join([tag] + Renamer.Flat(renames), ":");
    if renames == [] {
      assert Partition(shorthand, ':') == (tag, false, []);
    } else {
      Renamer.JoinCons(tag, Renamer.Flat(renames), ":");
      PartitionAfterPrefix(tag, ':', Join(Renamer.Flat(renames), ":"));
    }
  }

  /** Clearing a URL after appending to it gives the URL back when it had no filters. */
  lemma ClearAfterAppend(url: Url, config: FilterConfig, others: OtherFilters)
    requires Get(url.query, FILTER_IDENTIFIER).None?
    requires AppendFilterConfig(url, config, others).Ok?
    ensures ClearFilterConfigs(AppendFilterConfig(url, config, others).value) == url
  {
    RemoveAppendValue(url.query, FILTER_IDENTIFIER, StoredValue(config, others).value);
  }
}
