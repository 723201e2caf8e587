// The parameter-value codec of spinedb_api/parameter_value.py: from_database
// reads a decoded JSON value into a typed value (date-time, duration, time
// pattern, fixed- or variable-resolution time series, or the plain JSON
// value), and to_database writes a typed value back.
//
// Date parsing and rendering belong to dateutil and numpy; they are passed
// in as a Calendar. Time-series values are kept as the JSON values they were
// read from (numpy's float64 arrays are not modelled).

module ParameterValue {
  import opened Errors
  import opened Text
  import opened Json
  import opened Duration

  /** A point in time (datetime or numpy.datetime64), kept abstract. */
  type Instant = int

  /** The date library the codec calls: dateutil's parser and three renderings of a time stamp. */
  datatype Calendar = Calendar(
    parse: string -> Option<Instant>,  // dateutil.parser.parse; None where it raises ValueError
    isoText: Instant -> string,        // datetime.isoformat()
    strText: Instant -> string,        // str(datetime)
    stampText: Instant -> string)      // str(numpy.datetime64)

  /** A time stamp of a fixed-resolution series: the start plus an offset. */
  datatype Stamp = Stamp(start: Instant, offset: Delta)

  datatype Value =
    | Plain(json: Json)
    | DateTime(stamp: Instant)
    | DurationValue(steps: seq<Delta>)
    | TimePattern(patterns: seq<string>, values: seq<Json>)
    | FixedSeries(start: Instant, resolution: seq<Delta>, values: seq<Json>, ignoreYear: bool, repeat: bool)
    | VariableSeries(stamps: seq<Instant>, values: seq<Json>, ignoreYear: bool, repeat: bool)

  const DefaultStart: string := "0001-01-01T00:00:00"
  const DefaultResolution: string := "1h"

  /** What the constructors guarantee of every value object. */
  predicate Valid(v: Value)
  {
    match v
    case Plain(j) => !j.JObj?
    case TimePattern(patterns, values) => |patterns| == |values| && |patterns| > 0
    case FixedSeries(_, _, values, _, _) => |values| >= 2
    case VariableSeries(stamps, values, _, _) => |values| >= 2 && |stamps| == |values|
    case _ => true
  }

  function Missing(key: string): Error
  {
    ParameterValueFormatError("\"" + key + "\" is missing in the parameter value description")
  }

  const TooShort: Error := RuntimeError("Time series too short. Must have two or more values")
  const LengthMismatch: Error := RuntimeError("Length of values does not match length of indexes")
  const ParserTypeError: Error := TypeError("Parser must be a string or character stream")

  // ---- constructors ----------------------------------------------------------

  /** TimePattern(indexes, values) */
  function MakeTimePattern(patterns: seq<string>, values: seq<Json>): (r: Result<Value>)
    ensures r.Ok? <==> |patterns| == |values| && |patterns| > 0
    ensures r.Ok? ==> Valid(r.value) && r.value == TimePattern(patterns, values)
    ensures |patterns| != |values| ==> r == Err(LengthMismatch)
    ensures |patterns| == |values| == 0 ==> r == Err(RuntimeError("Empty time pattern not allowed"))
  {
    if |patterns| != |values| then Err(LengthMismatch)
    else if patterns == [] then Err(RuntimeError("Empty time pattern not allowed"))
    else Ok(TimePattern(patterns, values))
  }

  /** TimeSeriesFixedResolution(start, resolution, values, ignore_year, repeat) */
  function MakeFixedSeries(start: Instant, resolution: seq<Delta>, values: seq<Json>, ignoreYear: bool, repeat: bool): (r: Result<Value>)
    ensures r.Ok? <==> |values| >= 2
    ensures r.Ok? ==> Valid(r.value) && r.value == FixedSeries(start, resolution, values, ignoreYear, repeat)
    ensures r.Err? ==> r.error == TooShort
  {
    if |values| < 2 then Err(TooShort) else Ok(FixedSeries(start, resolution, values, ignoreYear, repeat))
  }

  /** TimeSeriesVariableResolution(indexes, values, ignore_year, repeat): the length check comes first. */
  function MakeVariableSeries(stamps: seq<Instant>, values: seq<Json>, ignoreYear: bool, repeat: bool): (r: Result<Value>)
    ensures r.Ok? <==> |values| >= 2 && |stamps| == |values|
    ensures r.Ok? ==> Valid(r.value) && r.value == VariableSeries(stamps, values, ignoreYear, repeat)
    ensures |values| < 2 ==> r == Err(TooShort)
    ensures |values| >= 2 && |stamps| != |values| ==> r == Err(LengthMismatch)
  {
    if |values| < 2 then Err(TooShort)
    else if |stamps| != |values| then Err(LengthMismatch)
    else Ok(VariableSeries(stamps, values, ignoreYear, repeat))
  }

  // ---- reading -----------------------------------------------------------------

  /** The text a duration or resolution entry is read from: a str as is, anything else with "m" appended. */
  function StepText(j: Json): string
  {
    if j.JStr? then j.s else PyStr(j) + "m"
  }

  /** Reads every entry in order; the first entry that does not parse raises. */
  function ParseSteps(items: seq<Json>): (r: Result<seq<Delta>>)
    ensures r.Ok? ==> |r.value| == |items|
    ensures r.Ok? ==> forall i :: 0 <= i < |items| ==> ParseDuration(StepText(items[i])) == Ok(r.value[i])
    ensures r.Err? ==> exists i :: 0 <= i < |items| && ParseDuration(StepText(items[i])) == Err(r.error)
    decreases |items|
  {
    if items == [] then Ok([])
    else
      var first := ParseDuration(StepText(items[0]));
      if first.Err? then Err(first.error)
      else
        var rest := ParseSteps(items[1..]);
        assert forall j :: 0 <= j < |items| - 1 ==> items[1..][j] == items[j + 1];
        if rest.Err? then Err(rest.error) else Ok([first.value] + rest.value)
  }

  /** _datetime_from_database */
  function DateTimeFromDatabase(data: Json, cal: Calendar): Result<Value>
  {
    match data
    case JStr(s) =>
      (match cal.parse(s)
       case None => Err(ParameterValueFormatError("Could not parse datetime from \"" + s + "\""))
       case Some(t) => Ok(DateTime(t)))
    case _ => Err(ParserTypeError)
  }

  /**
   * _duration_from_database: a str or a number (a bool counts as a number)
   * is one step, a plain number meaning minutes; a list is read entry by
   * entry; anything else is refused.
   */
  function DurationFromDatabase(data: Json): Result<Value>
  {
    if data.JStr? || data.JNum? || data.JBool? then
      var d :- ParseDuration(StepText(data));
      Ok(DurationValue([d]))
    else if data.JArr? then
      var steps :- ParseSteps(data.items);
      Ok(DurationValue(steps))
    else
      Err(ParameterValueFormatError("Duration value is of unsupported type"))
  }

  /** _break_dictionary: the keys and the values of a dict, in order. */
  function BreakDictionary(entries: seq<(string, Json)>): (r: (seq<string>, seq<Json>))
    ensures |r.0| == |r.1| == |entries|
    ensures forall i :: 0 <= i < |entries| ==> entries[i] == (r.0[i], r.1[i])
    decreases |entries|
  {
    if entries == [] then ([], [])
    else
      var rest := BreakDictionary(entries[..|entries| - 1]);
      (rest.0 + [entries[|entries| - 1].0], rest.1 + [entries[|entries| - 1].1])
  }

  /**
   * _time_pattern_from_database: the data dict's keys are the patterns and
   * its values the values. A list or a string has a length but no `items`;
   * any other non-dict has no length.
   */
  function TimePatternFromDatabase(fields: seq<(string, Json)>): (r: Result<Value>)
    ensures Lookup(fields, "data").None? ==> r == Err(Missing("data"))
    ensures Lookup(fields, "data").Some? && Lookup(fields, "data").value.JObj? ==>
      var entries := Lookup(fields, "data").value.fields;
      (r.Ok? <==> |entries| > 0) &&
      (r.Ok? ==> r.value == TimePattern(seq(|entries|, i requires 0 <= i < |entries| => entries[i].0),
                                        seq(|entries|, i requires 0 <= i < |entries| => entries[i].1)))
    ensures Lookup(fields, "data").Some? && (Lookup(fields, "data").value.JArr? || Lookup(fields, "data").value.JStr?) ==>
      r.Err? && r.error.AttributeError?
    ensures Lookup(fields, "data").Some? && (Lookup(fields, "data").value.JNum? || Lookup(fields, "data").value.JBool? || Lookup(fields, "data").value.JNull?) ==>
      r.Err? && r.error.TypeError?
  {
    match Lookup(fields, "data")
    case None => Err(Missing("data"))
    case Some(JObj(entries)) =>
      var (patterns, values) := BreakDictionary(entries);
      MakeTimePattern(patterns, values)
    case Some(other) =>
      if other.JArr? || other.JStr? then Err(AttributeError("'" + JsonTypeName(other) + "' object has no attribute 'items'"))
      else Err(TypeError("object of type '" + JsonTypeName(other) + "' has no len()"))
  }

  /** dateutil.parser.parse on a time stamp of a series. */
  function ParseStamp(j: Json, cal: Calendar): Result<Instant>
  {
    match j
    case JStr(s) =>
      (match cal.parse(s)
       case None => Err(ParameterValueFormatError("Could not decode time stamp \"" + s + "\""))
       case Some(t) => Ok(t))
    case _ => Err(ParserTypeError)
  }

  /** The stamps and values of a dictionary-style series, read in order. */
  function DictionaryColumns(entries: seq<(string, Json)>, cal: Calendar): (r: Result<(seq<Instant>, seq<Json>)>)
    ensures r.Ok? ==> |r.value.0| == |r.value.1| == |entries|
    decreases |entries|
  {
    if entries == [] then Ok(([], []))
    else
      var prefix :- DictionaryColumns(entries[..|entries| - 1], cal);
      var stamp :- ParseStamp(JStr(entries[|entries| - 1].0), cal);
      Ok((prefix.0 + [stamp], prefix.1 + [entries[|entries| - 1].1]))
  }

  /** len(element) and element[k] for a str or list. */
  function SeqLength(j: Json): nat
    requires IsSequence(j)
  {
    if j.JStr? then |j.s| else |j.items|
  }

  function SeqItem(j: Json, k: nat): Json
    requires IsSequence(j) && k < SeqLength(j)
  {
    if j.JStr? then JStr([j.s[k]]) else j.items[k]
  }

  /** One row of a two-column series: a [stamp, value] pair. */
  function TwoColumnRow(element: Json, cal: Calendar): Result<(Instant, Json)>
  {
    if !IsSequence(element) || SeqLength(element) != 2 then
      Err(ParameterValueFormatError("Invalid value in time series array"))
    else
      var stamp :- ParseStamp(SeqItem(element, 0), cal);
      Ok((stamp, SeqItem(element, 1)))
  }

  /** The stamps and values of a two-column series, read in order. */
  function TwoColumns(rows: seq<Json>, cal: Calendar): (r: Result<(seq<Instant>, seq<Json>)>)
    ensures r.Ok? ==> |r.value.0| == |r.value.1| == |rows|
    decreases |rows|
  {
    if rows == [] then Ok(([], []))
    else
      var prefix :- TwoColumns(rows[..|rows| - 1], cal);
      var row :- TwoColumnRow(rows[|rows| - 1], cal);
      Ok((prefix.0 + [row.0], prefix.1 + [row.1]))
  }

  /**
   * _variable_resolution_time_series_info_from_index: both flags default to
   * false; an index that is not a dict has no `get`.
   */
  function VariableFlags(fields: seq<(string, Json)>): (r: Result<(bool, bool)>)
    ensures Lookup(fields, "index").None? ==> r == Ok((false, false))
    ensures Lookup(fields, "index").Some? && !Lookup(fields, "index").value.JObj? ==> r.Err? && r.error.AttributeError?
  {
    match Lookup(fields, "index")
    case None => Ok((false, false))
    case Some(JObj(index)) =>
      Ok((Truthy(Lookup(index, "ignore_year").GetOr(JBool(false))),
          Truthy(Lookup(index, "repeat").GetOr(JBool(false)))))
    case Some(other) => Err(AttributeError("'" + JsonTypeName(other) + "' object has no attribute 'get'"))
  }

  /** The start, resolution and flags of a single-column series, with their defaults. */
  datatype FixedIndex = FixedIndex(start: Json, resolution: Json, ignoreYear: bool, repeat: bool)

  /** The index of a single-column series without an "index" entry. */
  const DefaultIndex := FixedIndex(JStr(DefaultStart), JStr(DefaultResolution), true, true)

  /**
   * `value_index[key] if key in value_index else default`: whether the key
   * is there, and the value read or the default.
   */
  function IndexEntry(index: Json, key: string, default: Json): (r: Result<(bool, Json)>)
    ensures index.JObj? ==> r == Ok((HasKey(index.fields, key), Lookup(index.fields, key).GetOr(default)))
    ensures (index.JArr? || index.JStr?) ==> (r.Ok? <==> !Contains(index, key).value) && (r.Ok? ==> r.value == (false, default))
    ensures !index.JObj? && !index.JArr? && !index.JStr? ==> r.Err? && r.error.TypeError?
  {
    var present :- Contains(index, key);
    if present then
      var v :- Subscript(index, key);
      Ok((true, v))
    else Ok((false, default))
  }

  /**
   * The index of a dict: each of start and resolution from the dict or its
   * default; each flag from the dict, else true exactly when there is no start.
   */
  function DictIndex(index: seq<(string, Json)>): FixedIndex
  {
    var hasStart := HasKey(index, "start");
    FixedIndex(
      Lookup(index, "start").GetOr(JStr(DefaultStart)),
      Lookup(index, "resolution").GetOr(JStr(DefaultResolution)),
      if HasKey(index, "ignore_year") then Truthy(Lookup(index, "ignore_year").value) else !hasStart,
      if HasKey(index, "repeat") then Truthy(Lookup(index, "repeat").value) else !hasStart)
  }

  /** The index part of _time_series_from_single_column; `in` and `[]` are Python's on whatever the index is. */
  function FixedIndexOf(fields: seq<(string, Json)>): (r: Result<FixedIndex>)
    ensures Lookup(fields, "index").None? ==> r == Ok(DefaultIndex)
    ensures Lookup(fields, "index").Some? && Lookup(fields, "index").value.JObj? ==>
      r == Ok(DictIndex(Lookup(fields, "index").value.fields))
    ensures Lookup(fields, "index").Some? && (Lookup(fields, "index").value.JArr? || Lookup(fields, "index").value.JStr?) ==>
      (r.Ok? <==> HoldsNoIndexKey(Lookup(fields, "index").value))
      && (r.Ok? ==> r.value == DefaultIndex)
      && (r.Err? ==> r.error.TypeError?)
    ensures Lookup(fields, "index").Some? && !IsContainer(Lookup(fields, "index").value) ==> r.Err? && r.error.TypeError?
  {
    match Lookup(fields, "index")
    case None => Ok(DefaultIndex)
    case Some(index) =>
      var start :- IndexEntry(index, "start", JStr(DefaultStart));
      var resolution :- IndexEntry(index, "resolution", JStr(DefaultResolution));
      var ignoreYear :- IndexEntry(index, "ignore_year", JBool(!start.0));
      var repeat :- IndexEntry(index, "repeat", JBool(!start.0));
      Ok(FixedIndex(start.1, resolution.1, Truthy(ignoreYear.1), Truthy(repeat.1)))
  }

  /** `in` finds none of the keys a single-column series reads from its index. */
  predicate HoldsNoIndexKey(index: Json)
  {
    && Contains(index, "start") == Ok(false) && Contains(index, "resolution") == Ok(false)
    && Contains(index, "ignore_year") == Ok(false) && Contains(index, "repeat") == Ok(false)
  }

  predicate IsContainer(j: Json)
  {
    j.JObj? || j.JArr? || j.JStr?
  }

  /** A resolution is a list of steps; a str or a non-sequence is one step. */
  function ResolutionEntries(resolution: Json): seq<Json>
  {
    if resolution.JArr? then resolution.items else [resolution]
  }

  /** _time_series_from_single_column */
  function SingleColumn(fields: seq<(string, Json)>, values: seq<Json>, cal: Calendar): Result<Value>
  {
    var index :- FixedIndexOf(fields);
    var steps :- ParseSteps(ResolutionEntries(index.resolution));
    var start :- match index.start
                 case JStr(s) =>
                   (match cal.parse(s)
                    case None => Err(ParameterValueFormatError("Could not decode start value \"" + s + "\""))
                    case Some(t) => Ok(t))
                 case _ => Err(ParserTypeError);
    MakeFixedSeries(start, steps, values, index.ignoreYear, index.repeat)
  }

  /** _time_series_from_database: a dict is a variable series, a list of pairs too, a plain list a fixed one. */
  function TimeSeriesFromDatabase(fields: seq<(string, Json)>, cal: Calendar): Result<Value>
  {
    match Lookup(fields, "data")
    case None => Err(Missing("data"))
    case Some(JObj(entries)) =>
      var columns :- DictionaryColumns(entries, cal);
      var flags :- VariableFlags(fields);
      MakeVariableSeries(columns.0, columns.1, flags.0, flags.1)
    case Some(JArr(rows)) =>
      if rows == [] then Err(IndexError("list index out of range"))
      else if IsSequence(rows[0]) then
        var columns :- TwoColumns(rows, cal);
        var flags :- VariableFlags(fields);
        MakeVariableSeries(columns.0, columns.1, flags.0, flags.1)
      else SingleColumn(fields, rows, cal)
    case Some(_) => Err(ParameterValueFormatError("Unrecognized time series format"))
  }

  /**
   * from_database. The argument is the result of json.loads: None when the
   * text is not JSON.
   */
  function FromDatabase(decoded: Option<Json>, cal: Calendar): (r: Result<Value>)
    ensures decoded.None? ==> r.Err?
    ensures r.Ok? ==> Valid(r.value)
  {
    match decoded
    case None => Err(ParameterValueFormatError("Could not decode the value"))
    case Some(JObj(fields)) =>
      (match Lookup(fields, "type")
       case None => Err(Missing("type"))
       case Some(t) => FromTyped(t, fields, cal))
    case Some(j) => Ok(Plain(j))
  }

  /** The dispatch of from_database on the "type" entry of an object. */
  function FromTyped(t: Json, fields: seq<(string, Json)>, cal: Calendar): (r: Result<Value>)
    ensures r.Ok? ==> Valid(r.value) && !r.value.Plain?
  {
    if t == JStr("date_time") then
      (match Lookup(fields, "data")
       case None => Err(Missing("data"))
       case Some(data) => DateTimeFromDatabase(data, cal))
    else if t == JStr("duration") then
      (match Lookup(fields, "data")
       case None => Err(Missing("data"))
       case Some(data) => DurationFromDatabase(data))
    else if t == JStr("time_pattern") then TimePatternFromDatabase(fields)
    else if t == JStr("time_series") then TimeSeriesFromDatabase(fields, cal)
    else Err(ParameterValueFormatError("Unknown parameter value type \"" + PyStr(t) + "\""))
  }

  // ---- writing -----------------------------------------------------------------

  function FormatSteps(steps: seq<Delta>): (r: Result<seq<Json>>)
    ensures r.Ok? ==> |r.value| == |steps|
    ensures r.Ok? ==> forall i :: 0 <= i < |steps| ==> FormatDelta(steps[i]).Ok? && r.value[i] == JStr(FormatDelta(steps[i]).value)
    decreases |steps|
  {
    if steps == [] then Ok([])
    else
      var s :- FormatDelta(steps[0]);
      var rest :- FormatSteps(steps[1..]);
      Ok([JStr(s)] + rest)
  }

  /** data[index] = value for each pair in turn. */
  function PutAll(keys: seq<string>, values: seq<Json>): seq<(string, Json)>
    requires |keys| == |values|
    decreases |keys|
  {
    if keys == [] then []
    else Put(PutAll(keys[..|keys| - 1], values[..|values| - 1]), keys[|keys| - 1], values[|values| - 1])
  }

  function StampTexts(stamps: seq<Instant>, cal: Calendar): (texts: seq<string>)
    ensures |texts| == |stamps|
    ensures forall i :: 0 <= i < |stamps| ==> texts[i] == cal.stampText(stamps[i])
    decreases |stamps|
  {
    if stamps == [] then [] else StampTexts(stamps[..|stamps| - 1], cal) + [cal.stampText(stamps[|stamps| - 1])]
  }

  /** The "index" entry of a variable series: only the flags that are true. */
  function TrueFlags(ignoreYear: bool, repeat: bool): seq<(string, Json)>
  {
    (if ignoreYear then [("ignore_year", JBool(true))] else [])
    + (if repeat then [("repeat", JBool(true))] else [])
  }

  /** to_database, before json.dumps. */
  function ToDatabase(v: Value, cal: Calendar): (r: Result<Json>)
    requires Valid(v)
    ensures v.Plain? ==> r == Ok(v.json)
    ensures r.Ok? && !v.Plain? ==> r.value.JObj? && |r.value.fields| >= 2 && r.value.fields[0].0 == "type"
  {
    match v
    case Plain(j) => Ok(j)
    case DateTime(t) => Ok(JObj([("type", JStr("date_time")), ("data", JStr(cal.isoText(t)))]))
    case DurationValue(steps) =>
      if |steps| == 1 then
        var s :- FormatDelta(steps[0]);
        Ok(JObj([("type", JStr("duration")), ("data", JStr(s))]))
      else
        var texts :- FormatSteps(steps);
        Ok(JObj([("type", JStr("duration")), ("data", JArr(texts))]))
    case TimePattern(patterns, values) =>
      Ok(JObj([("type", JStr("time_pattern")), ("data", JObj(PutAll(patterns, values)))]))
    case FixedSeries(start, resolution, values, ignoreYear, repeat) =>
      var written :- WrittenResolution(resolution);
      Ok(FixedSeriesJson(cal.strText(start), written, values, ignoreYear, repeat))
    case VariableSeries(stamps, values, ignoreYear, repeat) =>
      Ok(VariableSeriesJson(PutAll(StampTexts(stamps, cal), values), ignoreYear, repeat))
  }

  /** The resolution entry: a list for several steps, one string for one; res[0] of an empty resolution fails. */
  function WrittenResolution(resolution: seq<Delta>): Result<Json>
  {
    if |resolution| > 1 then
      var texts :- FormatSteps(resolution);
      Ok(JArr(texts))
    else if |resolution| == 1 then
      var text :- FormatDelta(resolution[0]);
      Ok(JStr(text))
    else Err(IndexError("list index out of range"))
  }

  /** A fixed-resolution series always writes its start, resolution and both flags. */
  function FixedSeriesJson(start: string, resolution: Json, values: seq<Json>, ignoreYear: bool, repeat: bool): Json
  {
    JObj([
      ("type", JStr("time_series")),
      ("index", JObj([
        ("start", JStr(start)),
        ("resolution", resolution),
        ("ignore_year", JBool(ignoreYear)),
        ("repeat", JBool(repeat))])),
      ("data", JArr(values))])
  }

  /** A variable-resolution series writes an "index" only when a flag is true, holding the true flags. */
  function VariableSeriesJson(data: seq<(string, Json)>, ignoreYear: bool, repeat: bool): Json
  {
    var fields := [("type", JStr("time_series")), ("data", JObj(data))];
    JObj(if ignoreYear || repeat then fields + [("index", JObj(TrueFlags(ignoreYear, repeat)))] else fields)
  }

  // ---- properties ----------------------------------------------------------------

  /** The dict built from distinct keys and their values, in order. */
  function Zip(keys: seq<string>, values: seq<Json>): (r: seq<(string, Json)>)
    requires |keys| == |values|
    ensures |r| == |keys|
    ensures forall i :: 0 <= i < |keys| ==> r[i] == (keys[i], values[i])
    decreases |keys|
  {
    if keys == [] then []
    else Zip(keys[..|keys| - 1], values[..|values| - 1]) + [(keys[|keys| - 1], values[|values| - 1])]
  }

  /** Assigning distinct keys one by one lays the pairs out in order. */
  lemma {:induction false} PutAllDistinct(keys: seq<string>, values: seq<Json>)
    requires |keys| == |values| && Distinct(keys)
    ensures PutAll(keys, values) == Zip(keys, values)
    decreases |keys|
  {
    if keys != [] {
      var n := |keys| - 1;
      PutAllDistinct(keys[..n], values[..n]);
      var prefix := Zip(keys[..n], values[..n]);
      forall i | 0 <= i < |prefix|
        ensures prefix[i].0 != keys[n]
      {
        assert prefix[i].0 == keys[i];
      }
      PutNew(prefix, keys[n], values[n]);
      assert prefix + [(keys[n], values[n])] == Zip(keys, values);
    }
  }

  /** Writing positive steps one by one and reading them back gives the steps. */
  lemma {:induction false} FormatThenParseSteps(steps: seq<Delta>)
    requires forall i :: 0 <= i < |steps| ==> IsPositiveStep(steps[i])
    ensures FormatSteps(steps).Ok?
    ensures ParseSteps(FormatSteps(steps).value) == Ok(steps)
    decreases |steps|
  {
    if steps != [] {
      StepRoundTrip(steps[0]);
      FormatThenParseSteps(steps[1..]);
      RoundTripFirst(steps[0], steps[1..]);
      assert [steps[0]] + steps[1..] == steps;
    }
  }

  /** The round trip of a first step and that of the steps after it make the round trip of the list. */
  lemma RoundTripFirst(d: Delta, rest: seq<Delta>)
    requires FormatDelta(d).Ok? && ParseDuration(FormatDelta(d).value) == Ok(d)
    requires FormatSteps(rest).Ok? && ParseSteps(FormatSteps(rest).value) == Ok(rest)
    ensures FormatSteps([d] + rest).Ok? && ParseSteps(FormatSteps([d] + rest).value) == Ok([d] + rest)
  {
    var items := [JStr(FormatDelta(d).value)] + FormatSteps(rest).value;
    assert ([d] + rest)[1..] == rest;
    assert FormatSteps([d] + rest) == Ok(items);
    assert items[1..] == FormatSteps(rest).value;
  }

  /** Reading the written stamps of a variable series gives the stamps and the values back. */
  lemma {:induction false} DictionaryColumnsOfStamps(stamps: seq<Instant>, values: seq<Json>, cal: Calendar)
    requires |stamps| == |values|
    requires forall i :: 0 <= i < |stamps| ==> cal.parse(cal.stampText(stamps[i])) == Some(stamps[i])
    ensures DictionaryColumns(Zip(StampTexts(stamps, cal), values), cal) == Ok((stamps, values))
    decreases |stamps|
  {
    if stamps != [] {
      var n := |stamps| - 1;
      DictionaryColumnsOfStamps(stamps[..n], values[..n], cal);
      var entries := Zip(StampTexts(stamps, cal), values);
      assert entries[..n] == Zip(StampTexts(stamps[..n], cal), values[..n]);
      assert entries[n] == (cal.stampText(stamps[n]), values[n]);
      assert DictionaryColumns(entries[..n], cal) == Ok((stamps[..n], values[..n]));
      assert ParseStamp(JStr(entries[n].0), cal) == Ok(stamps[n]);
      assert stamps[..n] + [stamps[n]] == stamps;
      assert values[..n] + [values[n]] == values;
    }
  }

  // Which reader a typed object goes to.

  lemma DispatchDateTime(fields: seq<(string, Json)>, cal: Calendar)
    requires Lookup(fields, "type") == Some(JStr("date_time"))
    ensures FromDatabase(Some(JObj(fields)), cal)
      == if HasKey(fields, "data") then DateTimeFromDatabase(Lookup(fields, "data").value, cal) else Err(Missing("data"))
  {
  }

  lemma DispatchDuration(fields: seq<(string, Json)>, cal: Calendar)
    requires Lookup(fields, "type") == Some(JStr("duration"))
    ensures FromDatabase(Some(JObj(fields)), cal)
      == if HasKey(fields, "data") then DurationFromDatabase(Lookup(fields, "data").value) else Err(Missing("data"))
  {
    assert JStr("duration") != JStr("date_time");
  }

  lemma DispatchTimePattern(fields: seq<(string, Json)>, cal: Calendar)
    requires Lookup(fields, "type") == Some(JStr("time_pattern"))
    ensures FromDatabase(Some(JObj(fields)), cal) == TimePatternFromDatabase(fields)
  {
    assert JStr("time_pattern") != JStr("date_time");
    assert JStr("time_pattern") != JStr("duration");
  }

  lemma DispatchTimeSeries(fields: seq<(string, Json)>, cal: Calendar)
    requires Lookup(fields, "type") == Some(JStr("time_series"))
    ensures FromDatabase(Some(JObj(fields)), cal) == TimeSeriesFromDatabase(fields, cal)
  {
    assert JStr("time_series") != JStr("date_time");
    assert JStr("time_series") != JStr("duration");
    assert JStr("time_series") != JStr("time_pattern");
  }

  lemma DateTimeRoundTrip(t: Instant, cal: Calendar)
    requires cal.parse(cal.isoText(t)) == Some(t)
    ensures ToDatabase(DateTime(t), cal) == Ok(JObj([("type", JStr("date_time")), ("data", JStr(cal.isoText(t)))]))
    ensures FromDatabase(Some(ToDatabase(DateTime(t), cal).value), cal) == Ok(DateTime(t))
  {
    var fields := [("type", JStr("date_time")), ("data", JStr(cal.isoText(t)))];
    assert fields[1..] == [("data", JStr(cal.isoText(t)))];
    assert Lookup(fields, "type") == Some(JStr("date_time"));
    assert Lookup(fields, "data") == Some(JStr(cal.isoText(t)));
    DispatchDateTime(fields, cal);
  }

  /** A time pattern is written as a dict from pattern to value, in order. */
  lemma TimePatternEncoding(patterns: seq<string>, values: seq<Json>, cal: Calendar)
    requires |patterns| == |values| && |patterns| > 0 && Distinct(patterns)
    ensures ToDatabase(TimePattern(patterns, values), cal)
      == Ok(JObj([("type", JStr("time_pattern")), ("data", JObj(Zip(patterns, values)))]))
  {
    PutAllDistinct(patterns, values);
  }

  lemma TimePatternDecoding(patterns: seq<string>, values: seq<Json>, cal: Calendar)
    requires |patterns| == |values| && |patterns| > 0
    ensures FromDatabase(Some(JObj([("type", JStr("time_pattern")), ("data", JObj(Zip(patterns, values)))])), cal)
      == Ok(TimePattern(patterns, values))
  {
    var data := JObj(Zip(patterns, values));
    var fields := [("type", JStr("time_pattern")), ("data", data)];
    assert fields[1..] == [("data", data)];
    assert Lookup(fields, "type") == Some(JStr("time_pattern"));
    assert Lookup(fields, "data") == Some(data);
    DispatchTimePattern(fields, cal);
    var broken := BreakDictionary(Zip(patterns, values));
    assert broken.0 == patterns;
    assert broken.1 == values;
  }

  lemma TimePatternRoundTrip(patterns: seq<string>, values: seq<Json>, cal: Calendar)
    requires |patterns| == |values| && |patterns| > 0 && Distinct(patterns)
    ensures ToDatabase(TimePattern(patterns, values), cal).Ok?
    ensures FromDatabase(Some(ToDatabase(TimePattern(patterns, values), cal).value), cal) == Ok(TimePattern(patterns, values))
  {
    TimePatternEncoding(patterns, values, cal);
    TimePatternDecoding(patterns, values, cal);
  }
  /** One step is written as a single string, several (or none) as a list. */
  lemma DurationEncoding(steps: seq<Delta>, cal: Calendar)
    requires forall i :: 0 <= i < |steps| ==> IsPositiveStep(steps[i])
    ensures FormatSteps(steps).Ok?
    ensures ToDatabase(DurationValue(steps), cal)
      == Ok(JObj([("type", JStr("duration")), ("data", if |steps| == 1 then FormatSteps(steps).value[0] else JArr(FormatSteps(steps).value))]))
  {
    FormatThenParseSteps(steps);
  }

  /** A duration object is read by the duration reader. */
  lemma DurationObject(data: Json, cal: Calendar)
    ensures FromDatabase(Some(JObj([("type", JStr("duration")), ("data", data)])), cal) == DurationFromDatabase(data)
  {
    var fields := [("type", JStr("duration")), ("data", data)];
    LookupAt(fields, "type", 0);
    LookupAt(fields, "data", 1);
    DispatchDuration(fields, cal);
  }

  lemma DurationDataOfOneStep(step: Delta)
    requires IsPositiveStep(step)
    ensures FormatDelta(step).Ok?
    ensures DurationFromDatabase(JStr(FormatDelta(step).value)) == Ok(DurationValue([step]))
  {
    StepRoundTrip(step);
  }

  lemma DurationDataOfSteps(steps: seq<Delta>)
    requires forall i :: 0 <= i < |steps| ==> IsPositiveStep(steps[i])
    ensures FormatSteps(steps).Ok?
    ensures DurationFromDatabase(JArr(FormatSteps(steps).value)) == Ok(DurationValue(steps))
  {
    FormatThenParseSteps(steps);
  }

  lemma DurationDecoding(steps: seq<Delta>, cal: Calendar)
    requires forall i :: 0 <= i < |steps| ==> IsPositiveStep(steps[i])
    ensures FormatSteps(steps).Ok?
    ensures |steps| == 1 ==>
      FromDatabase(Some(JObj([("type", JStr("duration")), ("data", FormatSteps(steps).value[0])])), cal) == Ok(DurationValue(steps))
    ensures |steps| != 1 ==>
      FromDatabase(Some(JObj([("type", JStr("duration")), ("data", JArr(FormatSteps(steps).value))])), cal) == Ok(DurationValue(steps))
  {
    DurationDataOfSteps(steps);
    var texts := FormatSteps(steps).value;
    if |steps| == 1 {
      DurationDataOfOneStep(steps[0]);
      assert [steps[0]] == steps;
      DurationObject(texts[0], cal);
    } else {
      DurationObject(JArr(texts), cal);
    }
  }

  lemma DurationRoundTrip(steps: seq<Delta>, cal: Calendar)
    requires forall i :: 0 <= i < |steps| ==> IsPositiveStep(steps[i])
    ensures ToDatabase(DurationValue(steps), cal).Ok?
    ensures FromDatabase(Some(ToDatabase(DurationValue(steps), cal).value), cal) == Ok(DurationValue(steps))
  {
    DurationEncoding(steps, cal);
    DurationDecoding(steps, cal);
  }

  /** The resolution as written reads back as the resolution. */
  lemma ResolutionRoundTrip(resolution: seq<Delta>)
    requires |resolution| > 0
    requires forall i :: 0 <= i < |resolution| ==> IsPositiveStep(resolution[i])
    ensures WrittenResolution(resolution).Ok?
    ensures ParseSteps(ResolutionEntries(WrittenResolution(resolution).value)) == Ok(resolution)
  {
    FormatThenParseSteps(resolution);
    if |resolution| == 1 {
      StepRoundTrip(resolution[0]);
      assert [resolution[0]] == resolution;
    }
  }

  /** A list of non-sequence values is a single-column series. */
  lemma DispatchSingleColumn(fields: seq<(string, Json)>, values: seq<Json>, cal: Calendar)
    requires Lookup(fields, "data") == Some(JArr(values))
    requires values != [] && !IsSequence(values[0])
    ensures TimeSeriesFromDatabase(fields, cal) == SingleColumn(fields, values, cal)
  {
  }

  /** Reading the index a fixed-resolution series writes. */
  lemma WrittenFixedIndex(start: string, resolution: Json, values: seq<Json>, ignoreYear: bool, repeat: bool)
    ensures FixedIndexOf(FixedSeriesJson(start, resolution, values, ignoreYear, repeat).fields)
      == Ok(FixedIndex(JStr(start), resolution, ignoreYear, repeat))
  {
    var index := [
        ("start", JStr(start)),
        ("resolution", resolution),
        ("ignore_year", JBool(ignoreYear)),
        ("repeat", JBool(repeat))];
    var fields := FixedSeriesJson(start, resolution, values, ignoreYear, repeat).fields;
    LookupAt(fields, "index", 1);
    LookupAt(index, "start", 0);
    LookupAt(index, "resolution", 1);
    LookupAt(index, "ignore_year", 2);
    LookupAt(index, "repeat", 3);
  }

  lemma SingleColumnOfWritten(start: Instant, written: Json, resolution: seq<Delta>, values: seq<Json>, ignoreYear: bool, repeat: bool, cal: Calendar)
    requires |values| >= 2
    requires ParseSteps(ResolutionEntries(written)) == Ok(resolution)
    requires cal.parse(cal.strText(start)) == Some(start)
    ensures SingleColumn(FixedSeriesJson(cal.strText(start), written, values, ignoreYear, repeat).fields, values, cal)
      == Ok(FixedSeries(start, resolution, values, ignoreYear, repeat))
  {
    WrittenFixedIndex(cal.strText(start), written, values, ignoreYear, repeat);
  }

  lemma SeriesOfWrittenFixed(start: Instant, written: Json, resolution: seq<Delta>, values: seq<Json>, ignoreYear: bool, repeat: bool, cal: Calendar)
    requires |values| >= 2 && !IsSequence(values[0])
    requires ParseSteps(ResolutionEntries(written)) == Ok(resolution)
    requires cal.parse(cal.strText(start)) == Some(start)
    ensures TimeSeriesFromDatabase(FixedSeriesJson(cal.strText(start), written, values, ignoreYear, repeat).fields, cal)
      == Ok(FixedSeries(start, resolution, values, ignoreYear, repeat))
  {
    var fields := FixedSeriesJson(cal.strText(start), written, values, ignoreYear, repeat).fields;
    LookupAt(fields, "data", 2);
    DispatchSingleColumn(fields, values, cal);
    SingleColumnOfWritten(start, written, resolution, values, ignoreYear, repeat, cal);
  }

  /** A written fixed-resolution series reads back, whatever form its resolution entry takes. */
  lemma FixedSeriesDecoding(start: Instant, written: Json, resolution: seq<Delta>, values: seq<Json>, ignoreYear: bool, repeat: bool, cal: Calendar)
    requires |values| >= 2 && !IsSequence(values[0])
    requires ParseSteps(ResolutionEntries(written)) == Ok(resolution)
    requires cal.parse(cal.strText(start)) == Some(start)
    ensures FromDatabase(Some(FixedSeriesJson(cal.strText(start), written, values, ignoreYear, repeat)), cal)
      == Ok(FixedSeries(start, resolution, values, ignoreYear, repeat))
  {
    var fields := FixedSeriesJson(cal.strText(start), written, values, ignoreYear, repeat).fields;
    LookupAt(fields, "type", 0);
    DispatchTimeSeries(fields, cal);
    SeriesOfWrittenFixed(start, written, resolution, values, ignoreYear, repeat, cal);
  }

  lemma FixedSeriesRoundTrip(start: Instant, resolution: seq<Delta>, values: seq<Json>, ignoreYear: bool, repeat: bool, cal: Calendar)
    requires |values| >= 2 && !IsSequence(values[0])
    requires |resolution| > 0 && forall i :: 0 <= i < |resolution| ==> IsPositiveStep(resolution[i])
    requires cal.parse(cal.strText(start)) == Some(start)
    ensures ToDatabase(FixedSeries(start, resolution, values, ignoreYear, repeat), cal).Ok?
    ensures FromDatabase(Some(ToDatabase(FixedSeries(start, resolution, values, ignoreYear, repeat), cal).value), cal)
      == Ok(FixedSeries(start, resolution, values, ignoreYear, repeat))
  {
    ResolutionRoundTrip(resolution);
    var written := WrittenResolution(resolution).value;
    assert ToDatabase(FixedSeries(start, resolution, values, ignoreYear, repeat), cal)
      == Ok(FixedSeriesJson(cal.strText(start), written, values, ignoreYear, repeat));
    FixedSeriesDecoding(start, written, resolution, values, ignoreYear, repeat, cal);
  }
  /** The flags a variable-resolution series writes read back as written. */
  lemma VariableFlagsOfWritten(data: seq<(string, Json)>, ignoreYear: bool, repeat: bool)
    ensures VariableFlags(VariableSeriesJson(data, ignoreYear, repeat).fields) == Ok((ignoreYear, repeat))
  {
    var fields := VariableSeriesJson(data, ignoreYear, repeat).fields;
    if ignoreYear || repeat {
      var flags := TrueFlags(ignoreYear, repeat);
      LookupAt(fields, "index", 2);
      if ignoreYear {
        LookupAt(flags, "ignore_year", 0);
      } else {
        assert !HasKey(flags, "ignore_year");
      }
      if repeat {
        LookupAt(flags, "repeat", if ignoreYear then 1 else 0);
      } else {
        assert !HasKey(flags, "repeat");
      }
    } else {
      assert !HasKey(fields, "index");
    }
  }

  lemma SeriesOfWrittenVariable(stamps: seq<Instant>, values: seq<Json>, ignoreYear: bool, repeat: bool, cal: Calendar)
    requires |values| >= 2 && |stamps| == |values|
    requires forall i :: 0 <= i < |stamps| ==> cal.parse(cal.stampText(stamps[i])) == Some(stamps[i])
    ensures TimeSeriesFromDatabase(VariableSeriesJson(Zip(StampTexts(stamps, cal), values), ignoreYear, repeat).fields, cal)
      == Ok(VariableSeries(stamps, values, ignoreYear, repeat))
  {
    var entries := Zip(StampTexts(stamps, cal), values);
    var fields := VariableSeriesJson(entries, ignoreYear, repeat).fields;
    LookupAt(fields, "data", 1);
    DictionaryColumnsOfStamps(stamps, values, cal);
    VariableFlagsOfWritten(entries, ignoreYear, repeat);
  }

  lemma VariableSeriesDecoding(stamps: seq<Instant>, values: seq<Json>, ignoreYear: bool, repeat: bool, cal: Calendar)
    requires |values| >= 2 && |stamps| == |values|
    requires forall i :: 0 <= i < |stamps| ==> cal.parse(cal.stampText(stamps[i])) == Some(stamps[i])
    ensures FromDatabase(Some(VariableSeriesJson(Zip(StampTexts(stamps, cal), values), ignoreYear, repeat)), cal)
      == Ok(VariableSeries(stamps, values, ignoreYear, repeat))
  {
    var fields := VariableSeriesJson(Zip(StampTexts(stamps, cal), values), ignoreYear, repeat).fields;
    LookupAt(fields, "type", 0);
    DispatchTimeSeries(fields, cal);
    SeriesOfWrittenVariable(stamps, values, ignoreYear, repeat, cal);
  }

  lemma VariableSeriesEncoding(stamps: seq<Instant>, values: seq<Json>, ignoreYear: bool, repeat: bool, cal: Calendar)
    requires |values| >= 2 && |stamps| == |values|
    requires Distinct(StampTexts(stamps, cal))
    ensures ToDatabase(VariableSeries(stamps, values, ignoreYear, repeat), cal)
      == Ok(VariableSeriesJson(Zip(StampTexts(stamps, cal), values), ignoreYear, repeat))
  {
    assert ToDatabase(VariableSeries(stamps, values, ignoreYear, repeat), cal)
      == Ok(VariableSeriesJson(PutAll(StampTexts(stamps, cal), values), ignoreYear, repeat));
    PutAllDistinct(StampTexts(stamps, cal), values);
  }

  lemma VariableSeriesRoundTrip(stamps: seq<Instant>, values: seq<Json>, ignoreYear: bool, repeat: bool, cal: Calendar)
    requires |values| >= 2 && |stamps| == |values|
    requires forall i :: 0 <= i < |stamps| ==> cal.parse(cal.stampText(stamps[i])) == Some(stamps[i])
    requires Distinct(StampTexts(stamps, cal))
    ensures ToDatabase(VariableSeries(stamps, values, ignoreYear, repeat), cal).Ok?
    ensures FromDatabase(Some(ToDatabase(VariableSeries(stamps, values, ignoreYear, repeat), cal).value), cal)
      == Ok(VariableSeries(stamps, values, ignoreYear, repeat))
  {
    VariableSeriesEncoding(stamps, values, ignoreYear, repeat, cal);
    VariableSeriesDecoding(stamps, values, ignoreYear, repeat, cal);
  }

  /** The conditions under which a value survives writing and reading back. */
  predicate RoundTrips(v: Value, cal: Calendar)
  {
    match v
    case Plain(_) => true
    case DateTime(t) => cal.parse(cal.isoText(t)) == Some(t)
    case DurationValue(steps) => forall i :: 0 <= i < |steps| ==> IsPositiveStep(steps[i])
    case TimePattern(patterns, _) => Distinct(patterns)
    case FixedSeries(start, resolution, values, _, _) =>
      |values| > 0 && !IsSequence(values[0])
      && |resolution| > 0 && (forall i :: 0 <= i < |resolution| ==> IsPositiveStep(resolution[i]))
      && cal.parse(cal.strText(start)) == Some(start)
    case VariableSeries(stamps, _, _, _) =>
      (forall i :: 0 <= i < |stamps| ==> cal.parse(cal.stampText(stamps[i])) == Some(stamps[i]))
      && Distinct(StampTexts(stamps, cal))
  }

  /** from_database(to_database(v)) == v */
  lemma RoundTrip(v: Value, cal: Calendar)
    requires Valid(v) && RoundTrips(v, cal)
    ensures ToDatabase(v, cal).Ok?
    ensures FromDatabase(Some(ToDatabase(v, cal).value), cal) == Ok(v)
  {
    match v
    case Plain(_) =>
    case DateTime(t) => DateTimeRoundTrip(t, cal);
    case DurationValue(steps) => DurationRoundTrip(steps, cal);
    case TimePattern(patterns, values) => TimePatternRoundTrip(patterns, values, cal);
    case FixedSeries(start, resolution, values, ignoreYear, repeat) =>
      FixedSeriesRoundTrip(start, resolution, values, ignoreYear, repeat, cal);
    case VariableSeries(stamps, values, ignoreYear, repeat) =>
      VariableSeriesRoundTrip(stamps, values, ignoreYear, repeat, cal);
  }
  /**
   * Writing a fixed-resolution series fails only on an empty or unwritable
   * resolution, and then always writes start, resolution and both flags.
   */
  lemma FixedSeriesEncoding(v: Value, cal: Calendar)
    requires v.FixedSeries? && Valid(v)
    ensures ToDatabase(v, cal).Ok? <==> WrittenResolution(v.resolution).Ok?
    ensures v.resolution == [] ==> ToDatabase(v, cal) == Err(IndexError("list index out of range"))
    ensures ToDatabase(v, cal).Ok? ==>
      ToDatabase(v, cal).value == FixedSeriesJson(cal.strText(v.start), WrittenResolution(v.resolution).value, v.values, v.ignoreYear, v.repeat)
      && FixedIndexOf(ToDatabase(v, cal).value.fields)
        == Ok(FixedIndex(JStr(cal.strText(v.start)), WrittenResolution(v.resolution).value, v.ignoreYear, v.repeat))
  {
    if WrittenResolution(v.resolution).Ok? {
      WrittenFixedIndex(cal.strText(v.start), WrittenResolution(v.resolution).value, v.values, v.ignoreYear, v.repeat);
    }
  }

  /** A written resolution is one string for one step and a list of strings for several. */
  lemma WrittenResolutionShape(resolution: seq<Delta>)
    requires WrittenResolution(resolution).Ok?
    ensures |resolution| == 1 ==> WrittenResolution(resolution) == Ok(JStr(FormatDelta(resolution[0]).value))
    ensures |resolution| != 1 ==>
      (&& |resolution| > 1
       && WrittenResolution(resolution).value.JArr?
       && |WrittenResolution(resolution).value.items| == |resolution|
       && forall i :: 0 <= i < |resolution| ==> WrittenResolution(resolution).value.items[i] == JStr(FormatDelta(resolution[i]).value))
  {
  }

  /** A variable-resolution series writes an "index" exactly when a flag is true, holding only the true flags. */
  lemma VariableIndexHoldsTrueFlags(data: seq<(string, Json)>, ignoreYear: bool, repeat: bool)
    ensures var fields := VariableSeriesJson(data, ignoreYear, repeat).fields;
      && (HasKey(fields, "index") <==> ignoreYear || repeat)
      && (ignoreYear || repeat ==> Lookup(fields, "index") == Some(JObj(TrueFlags(ignoreYear, repeat))))
    ensures var flags := TrueFlags(ignoreYear, repeat);
      && (HasKey(flags, "ignore_year") <==> ignoreYear)
      && (HasKey(flags, "repeat") <==> repeat)
      && forall i :: 0 <= i < |flags| ==> flags[i].1 == JBool(true)
  {
    var fields := VariableSeriesJson(data, ignoreYear, repeat).fields;
    var flags := TrueFlags(ignoreYear, repeat);
    if ignoreYear || repeat {
      LookupAt(fields, "index", 2);
    } else {
      assert !HasKey(fields, "index");
    }
    if ignoreYear {
      assert flags[0].0 == "ignore_year";
    }
    if repeat {
      assert flags[|flags| - 1].0 == "repeat";
    }
  }

  /** Every value the reader returns satisfies the constructors' invariants. */
  lemma DecodedIsValid(decoded: Option<Json>, cal: Calendar)
    ensures FromDatabase(decoded, cal).Ok? ==> Valid(FromDatabase(decoded, cal).value)
  {
  }

  /** The reader's dispatch: what is not JSON, not an object, untyped or of an unknown type. */
  lemma DecodeDispatch(decoded: Option<Json>, cal: Calendar)
    ensures decoded.None? ==> FromDatabase(decoded, cal) == Err(ParameterValueFormatError("Could not decode the value"))
    ensures decoded.Some? && !decoded.value.JObj? ==> FromDatabase(decoded, cal) == Ok(Plain(decoded.value))
    ensures decoded.Some? && decoded.value.JObj? && !HasKey(decoded.value.fields, "type") ==>
      FromDatabase(decoded, cal) == Err(Missing("type"))
    ensures (&& decoded.Some? && decoded.value.JObj? && HasKey(decoded.value.fields, "type")
             && Lookup(decoded.value.fields, "type").value !in [JStr("date_time"), JStr("duration"), JStr("time_pattern"), JStr("time_series")]) ==>
      FromDatabase(decoded, cal)
        == Err(ParameterValueFormatError("Unknown parameter value type \"" + PyStr(Lookup(decoded.value.fields, "type").value) + "\""))
  {
  }

  /** A plain number, or a list of plain numbers, is read as minutes; null and objects are refused. */
  lemma DurationDataKinds(data: Json)
    ensures data.JNum? ==> DurationFromDatabase(data) == Ok(DurationValue([Single(data.n, Minutes)]))
    ensures data.JArr? && (forall i :: 0 <= i < |data.items| ==> data.items[i].JNum?) ==>
      (&& DurationFromDatabase(data).Ok?
       && |DurationFromDatabase(data).value.steps| == |data.items|
       && forall i :: 0 <= i < |data.items| ==> DurationFromDatabase(data).value.steps[i] == Single(data.items[i].n, Minutes))
    ensures data.JNull? || data.JObj? ==>
      DurationFromDatabase(data) == Err(ParameterValueFormatError("Duration value is of unsupported type"))
  {
    if data.JNum? {
      ParseAbbreviated(data.n, Minutes);
    }
    if data.JArr? && (forall i :: 0 <= i < |data.items| ==> data.items[i].JNum?) {
      MinutesSteps(data.items);
      assert DurationFromDatabase(data) == Ok(DurationValue(ParseSteps(data.items).value));
    }
  }

  /** A plain number reads as that many minutes. */
  lemma NumberIsMinutes(j: Json)
    requires j.JNum?
    ensures ParseDuration(StepText(j)) == Ok(Single(j.n, Minutes))
  {
    assert StepText(j) == IntToString(j.n) + Abbreviation(Minutes);
    ParseAbbreviated(j.n, Minutes);
  }

  /** A list of plain numbers reads as that many steps of minutes. */
  lemma {:induction false} MinutesSteps(items: seq<Json>)
    requires forall i :: 0 <= i < |items| ==> items[i].JNum?
    ensures ParseSteps(items).Ok? && |ParseSteps(items).value| == |items|
    ensures forall i :: 0 <= i < |items| ==> ParseSteps(items).value[i] == Single(items[i].n, Minutes)
    decreases |items|
  {
    if items != [] {
      NumberIsMinutes(items[0]);
      MinutesSteps(items[1..]);
      assert ParseSteps(items).Ok?;
      forall i | 0 <= i < |items|
        ensures ParseSteps(items).value[i] == Single(items[i].n, Minutes)
      {
        NumberIsMinutes(items[i]);
      }
    }
  }

  /** A resolution written as a number counts minutes. */
  lemma NumericResolutionIsMinutes(n: int)
    ensures ParseSteps(ResolutionEntries(JNum(n))) == Ok([Single(n, Minutes)])
  {
    var items := ResolutionEntries(JNum(n));
    assert items == [JNum(n)];
    MinutesSteps(items);
    assert ParseSteps(items).value == [Single(n, Minutes)];
  }
  /** The default resolution "1h" is one hour. */
  lemma DefaultResolutionIsOneHour()
    ensures ParseSteps(ResolutionEntries(JStr(DefaultResolution))) == Ok([Single(1, Hours)])
  {
    ParseAbbreviated(1, Hours);
    var items := ResolutionEntries(JStr(DefaultResolution));
    assert StepText(items[0]) == IntToString(1) + Abbreviation(Hours);
    assert items[1..] == [];
    assert ParseSteps(items[1..]) == Ok([]);
    assert [Single(1, Hours)] + [] == [Single(1, Hours)];
  }

  /** A bare list of values with no index: hourly steps from the default start, with both flags set. */
  lemma SingleColumnWithoutIndex(values: seq<Json>, cal: Calendar, t: Instant)
    requires |values| >= 2 && !IsSequence(values[0])
    requires cal.parse(DefaultStart) == Some(t)
    ensures FromDatabase(Some(JObj([("type", JStr("time_series")), ("data", JArr(values))])), cal)
      == Ok(FixedSeries(t, [Single(1, Hours)], values, true, true))
  {
    var fields := [("type", JStr("time_series")), ("data", JArr(values))];
    LookupAt(fields, "type", 0);
    LookupAt(fields, "data", 1);
    assert !HasKey(fields, "index");
    DispatchTimeSeries(fields, cal);
    DispatchSingleColumn(fields, values, cal);
    DefaultResolutionIsOneHour();
  }

  /**
   * With an index, a single-column series starts at the default start and
   * steps hourly unless the index says otherwise, and an absent flag is
   * true exactly when the index has no "start"; a present one is read with
   * bool().
   */
  lemma SingleColumnDefaults(fields: seq<(string, Json)>, index: seq<(string, Json)>, values: seq<Json>, cal: Calendar)
    requires Lookup(fields, "index") == Some(JObj(index))
    requires SingleColumn(fields, values, cal).Ok?
    ensures var v := SingleColumn(fields, values, cal).value;
      && v.FixedSeries? && v.values == values
      && (!HasKey(index, "start") ==> cal.parse(DefaultStart) == Some(v.start))
      && (!HasKey(index, "resolution") ==> v.resolution == [Single(1, Hours)])
      && v.ignoreYear == (if HasKey(index, "ignore_year") then Truthy(Lookup(index, "ignore_year").value) else !HasKey(index, "start"))
      && v.repeat == (if HasKey(index, "repeat") then Truthy(Lookup(index, "repeat").value) else !HasKey(index, "start"))
  {
    DefaultResolutionIsOneHour();
  }
}
