// The value classes of spinedb_api/parameter_value.py where they change
// things step by step: Duration.__init__ and the resolution setter rewrite a
// list of durations in place, the readers of dictionary-style and
// two-column series fill a value array in a loop, the time stamps of a
// fixed-resolution series are generated by a loop that walks the resolution
// cyclically, and the ignore_year / repeat / start / resolution setters
// update a series object's fields.

module ValueObjects {
  import opened Errors
  import opened Json
  import opened Duration
  import opened ParameterValue

  // ---- durations given as text or as deltas --------------------------------

  /** An element of a duration list: a str still to be read, or a relativedelta. */
  datatype StepInput = TextStep(text: string) | DeltaStep(delta: Delta)

  function ConvertStep(x: StepInput): Result<Delta>
  {
    match x
    case TextStep(t) => ParseDuration(t)
    case DeltaStep(d) => Ok(d)
  }

  /** The durations of a list, read in order; the first text that does not parse raises. */
  function ConvertSteps(xs: seq<StepInput>): (r: Result<seq<Delta>>)
    ensures r.Ok? ==> |r.value| == |xs| && forall i :: 0 <= i < |xs| ==> ConvertStep(xs[i]) == Ok(r.value[i])
    ensures r.Err? ==> exists k :: (&& 0 <= k < |xs| && ConvertStep(xs[k]) == Err(r.error)
      && forall j :: 0 <= j < k ==> ConvertStep(xs[j]).Ok?)
    decreases |xs|
  {
    if xs == [] then Ok([])
    else
      var d :- ConvertStep(xs[0]);
      var rest :- ConvertSteps(xs[1..]);
      Ok([d] + rest)
  }

  /** What a list element becomes after the in-place pass: a readable text is replaced by its delta. */
  function Converted(x: StepInput): (y: StepInput)
    ensures y.DeltaStep? <==> ConvertStep(x).Ok?
    ensures y.DeltaStep? ==> y.delta == ConvertStep(x).value
    ensures y.TextStep? ==> y == x
  {
    match ConvertStep(x)
    case Ok(d) => DeltaStep(d)
    case Err(_) => x
  }

  lemma {:induction false} ConvertStepsPrefix(xs: seq<StepInput>, k: nat)
    requires k <= |xs|
    requires forall j :: 0 <= j < k ==> ConvertStep(xs[j]).Ok?
    requires k < |xs| ==> ConvertStep(xs[k]).Err?
    ensures k < |xs| ==> ConvertSteps(xs) == Err(ConvertStep(xs[k]).error)
    ensures k == |xs| ==> ConvertSteps(xs).Ok?
    decreases k
  {
    if k > 0 {
      ConvertStepsPrefix(xs[1..], k - 1);
    }
  }

  /**
   * The loop of Duration.__init__ and of the resolution setter: each str
   * element is replaced, in place, by the delta it reads as. A text that
   * does not parse raises, leaving the elements before it converted and the
   * rest as they were.
   */
  method ConvertInPlace(a: array<StepInput>) returns (r: Result<seq<Delta>>)
    modifies a
    ensures r == ConvertSteps(old(a[..]))
    ensures r.Ok? ==> forall i :: 0 <= i < a.Length ==> a[i] == DeltaStep(r.value[i])
    ensures r.Err? ==> exists k :: (&& 0 <= k < a.Length
      && ConvertStep(old(a[k])) == Err(r.error)
      && (forall i :: 0 <= i < k ==> a[i] == Converted(old(a[i])))
      && (forall i :: k <= i < a.Length ==> a[i] == old(a[i])))
  {
    var i := 0;
    var steps := [];
    while i < a.Length
      invariant 0 <= i <= a.Length && |steps| == i
      invariant forall j :: 0 <= j < i ==> ConvertStep(old(a[j])) == Ok(steps[j]) && a[j] == DeltaStep(steps[j])
      invariant forall j :: i <= j < a.Length ==> a[j] == old(a[j])
    {
      var parsed := ConvertStep(a[i]);
      if parsed.Err? {
        ConvertStepsPrefix(old(a[..]), i);
        return Err(parsed.error);
      }
      if a[i].TextStep? {
        a[i] := DeltaStep(parsed.value);
      }
      steps := steps + [parsed.value];
      i := i + 1;
    }
    ConvertStepsPrefix(old(a[..]), a.Length);
    ConvertStepsValues(old(a[..]), steps);
    return Ok(steps);
  }

  /** Reading succeeds with exactly the deltas the elements convert to. */
  lemma ConvertStepsValues(xs: seq<StepInput>, steps: seq<Delta>)
    requires |steps| == |xs|
    requires forall j :: 0 <= j < |xs| ==> ConvertStep(xs[j]) == Ok(steps[j])
    requires ConvertSteps(xs).Ok?
    ensures ConvertSteps(xs) == Ok(steps)
  {
    assert ConvertSteps(xs).value == steps;
  }

  /**
   * What Duration(value) and the resolution setter are given: a str, a
   * single relativedelta, or a list of either.
   */
  datatype DurationInput = OneText(text: string) | OneDelta(delta: Delta) | StepList(steps: array<StepInput>)

  /** The durations an input stands for: a str is read, a relativedelta taken as it is, a list element by element. */
  function DurationSteps(input: DurationInput): (r: Result<seq<Delta>>)
    reads if input.StepList? then {input.steps} else {}
    ensures r.Ok? && !input.StepList? ==> |r.value| == 1
    ensures input.StepList? ==> r == ConvertSteps(input.steps[..])
  {
    match input
    case OneText(t) =>
      var d :- ParseDuration(t);
      Ok([d])
    case OneDelta(d) => Ok([d])
    case StepList(a) => ConvertSteps(a[..])
  }

  /** The shared conversion of Duration.__init__ and the resolution setter; a list is converted in place. */
  method ReadDurationInput(input: DurationInput) returns (r: Result<seq<Delta>>)
    modifies if input.StepList? then {input.steps} else {}
    ensures r == old(DurationSteps(input))
    ensures input.StepList? && r.Ok? ==> forall i :: 0 <= i < input.steps.Length ==> input.steps[i] == DeltaStep(r.value[i])
  {
    match input
    case OneText(t) =>
      var d :- ParseDuration(t);
      r := Ok([d]);
    case OneDelta(d) =>
      r := Ok([d]);
    case StepList(a) =>
      r := ConvertInPlace(a);
  }

  /** Duration.__init__ */
  method NewDuration(input: DurationInput) returns (r: Result<Value>)
    modifies if input.StepList? then {input.steps} else {}
    ensures r.Ok? <==> old(DurationSteps(input)).Ok?
    ensures r.Ok? ==> r.value == DurationValue(old(DurationSteps(input)).value) && Valid(r.value)
    ensures r.Err? ==> r.error == old(DurationSteps(input)).error
  {
    var steps :- ReadDurationInput(input);
    r := Ok(DurationValue(steps));
  }
}

module SeriesObjects {
  import opened Errors
  import opened Json
  import opened Duration
  import opened ParameterValue
  import opened ValueObjects

  // ---- reading loops -----------------------------------------------------------

  lemma {:induction false} DictionaryColumnsErrorPersists(entries: seq<(string, Json)>, k: nat, cal: Calendar)
    requires k <= |entries| && DictionaryColumns(entries[..k], cal).Err?
    ensures DictionaryColumns(entries, cal) == DictionaryColumns(entries[..k], cal)
    decreases |entries| - k
  {
    if k < |entries| {
      var init := entries[..|entries| - 1];
      assert init[..k] == entries[..k];
      DictionaryColumnsErrorPersists(init, k, cal);
    } else {
      assert entries[..k] == entries;
    }
  }

  /**
   * The loop of _time_series_from_dictionary: the stamps are parsed and
   * appended in order while the values are written into an array as long as
   * the dict; the first stamp that does not parse raises.
   */
  method ReadDictionary(entries: seq<(string, Json)>, cal: Calendar) returns (r: Result<(seq<Instant>, seq<Json>)>)
    ensures r == DictionaryColumns(entries, cal)
  {
    var stamps: seq<Instant> := [];
    var values := new Json[|entries|];
    var i := 0;
    while i < |entries|
      invariant 0 <= i <= |entries|
      invariant DictionaryColumns(entries[..i], cal) == Ok((stamps, values[..i]))
    {
      assert entries[..i + 1][..i] == entries[..i];
      var stamp := ParseStamp(JStr(entries[i].0), cal);
      if stamp.Err? {
        DictionaryColumnsErrorPersists(entries, i + 1, cal);
        return Err(stamp.error);
      }
      stamps := stamps + [stamp.value];
      values[i] := entries[i].1;
      assert values[..i + 1] == values[..i] + [entries[i].1];
      i := i + 1;
    }
    assert entries[..i] == entries && values[..i] == values[..];
    return Ok((stamps, values[..]));
  }

  lemma {:induction false} TwoColumnsErrorPersists(rows: seq<Json>, k: nat, cal: Calendar)
    requires k <= |rows| && TwoColumns(rows[..k], cal).Err?
    ensures TwoColumns(rows, cal) == TwoColumns(rows[..k], cal)
    decreases |rows| - k
  {
    if k < |rows| {
      var init := rows[..|rows| - 1];
      assert init[..k] == rows[..k];
      TwoColumnsErrorPersists(init, k, cal);
    } else {
      assert rows[..k] == rows;
    }
  }

  /**
   * The loop of _time_series_from_two_columns: every row must be a pair; its
   * first element is parsed as the stamp, its second goes to the value array.
   */
  method ReadTwoColumns(rows: seq<Json>, cal: Calendar) returns (r: Result<(seq<Instant>, seq<Json>)>)
    ensures r == TwoColumns(rows, cal)
  {
    var stamps: seq<Instant> := [];
    var values := new Json[|rows|];
    var i := 0;
    while i < |rows|
      invariant 0 <= i <= |rows|
      invariant TwoColumns(rows[..i], cal) == Ok((stamps, values[..i]))
    {
      assert rows[..i + 1][..i] == rows[..i];
      var row := TwoColumnRow(rows[i], cal);
      if row.Err? {
        TwoColumnsErrorPersists(rows, i + 1, cal);
        return Err(row.error);
      }
      stamps := stamps + [row.value.0];
      values[i] := row.value.1;
      assert values[..i + 1] == values[..i] + [row.value.1];
      i := i + 1;
    }
    assert rows[..i] == rows && values[..i] == values[..];
    return Ok((stamps, values[..]));
  }

  /** _break_dictionary: keys appended to a list, values written into an array as long as the dict. */
  method BreakDict(entries: seq<(string, Json)>) returns (keys: seq<string>, values: seq<Json>)
    ensures |keys| == |values| == |entries|
    ensures forall i :: 0 <= i < |entries| ==> entries[i] == (keys[i], values[i])
  {
    keys := [];
    var a := new Json[|entries|];
    var i := 0;
    while i < |entries|
      invariant 0 <= i <= |entries| && |keys| == i
      invariant forall j :: 0 <= j < i ==> entries[j] == (keys[j], a[j])
    {
      keys := keys + [entries[i].0];
      a[i] := entries[i].1;
      i := i + 1;
    }
    values := a[..];
  }

  /** The same pair of columns as the function the time pattern reader is specified with. */
  lemma BreakDictUnique(entries: seq<(string, Json)>, keys: seq<string>, values: seq<Json>)
    requires |keys| == |values| == |entries|
    requires forall i :: 0 <= i < |entries| ==> entries[i] == (keys[i], values[i])
    ensures (keys, values) == BreakDictionary(entries)
  {
    var r := BreakDictionary(entries);
    assert keys == r.0;
    assert values == r.1;
  }

  // ---- the time stamps of a fixed-resolution series ------------------------------

  /**
   * The offset of stamp i from the start: i - 1 full steps after the first,
   * the resolution's durations taken cyclically. Whole cycles are counted
   * with the sum of the resolution, the rest with a prefix sum. With an
   * empty resolution every offset is zero.
   */
  function OffsetAt(resolution: seq<Delta>, i: nat): Delta
  {
    if i == 0 || resolution == [] then Zero
    else CycleOffset(resolution, (i - 1) / |resolution|, (i - 1) % |resolution|)
  }

  /** q whole cycles of the resolution and then its first s + 1 durations. */
  function CycleOffset(resolution: seq<Delta>, q: int, s: nat): Delta
    requires s < |resolution|
  {
    Add(Scale(q, Sum(resolution)), Sum(resolution[..s + 1]))
  }

  /** The first i durations of the resolution repeated cyclically. */
  function Cycled(resolution: seq<Delta>, i: nat): (r: seq<Delta>)
    requires resolution != []
    ensures |r| == i
    ensures forall j :: 0 <= j < i ==> r[j] == resolution[j % |resolution|]
  {
    if i == 0 then [] else Cycled(resolution, i - 1) + [resolution[(i - 1) % |resolution|]]
  }

  lemma {:induction false} MulAtLeast(d: int, n: int)
    requires d >= 1 && n > 0
    ensures d * n >= n
    decreases d
  {
    if d > 1 {
      MulAtLeast(d - 1, n);
      assert d * n == (d - 1) * n + n;
    }
  }

  lemma MulDiff(a: int, b: int, n: int)
    ensures a * n - b * n == (a - b) * n
  {
  }

  /** Euclidean division leaves one quotient and one remainder. */
  lemma DivModUnique(m: int, n: int, q: int, s: int)
    requires n > 0 && 0 <= s < n && m == q * n + s
    ensures m / n == q && m % n == s
  {
    var q', s' := m / n, m % n;
    assert m == q' * n + s';
    MulDiff(q, q', n);
    MulDiff(q', q, n);
    if q' < q {
      MulAtLeast(q - q', n);
    } else if q' > q {
      MulAtLeast(q' - q, n);
    }
  }

  lemma SumPrefixStep(resolution: seq<Delta>, k: nat)
    requires k < |resolution|
    ensures Sum(resolution[..k + 1]) == Add(Sum(resolution[..k]), resolution[k])
  {
    assert resolution[..k + 1] == resolution[..k] + [resolution[k]];
    SumAppend(resolution[..k], resolution[k]);
  }

  /** The second stamp is one resolution step after the start. */
  lemma OffsetFirst(resolution: seq<Delta>)
    requires resolution != []
    ensures OffsetAt(resolution, 1) == resolution[0]
  {
    OffsetWithin(resolution, 1, 0, 0);
    CycleOffsetFirst(resolution);
  }

  lemma CycleOffsetFirst(resolution: seq<Delta>)
    requires resolution != []
    ensures CycleOffset(resolution, 0, 0) == resolution[0]
  {
    ScaleZero(Sum(resolution));
    assert resolution[..1] == [resolution[0]];
    SumSingleton(resolution[0]);
  }

  lemma ScaleZero(d: Delta)
    ensures Scale(0, d) == Zero
  {
  }

  lemma ScaleSucc(q: int, d: Delta)
    ensures Scale(q + 1, d) == Add(Scale(q, d), d)
  {
    assert (q + 1) * d.years == q * d.years + d.years;
    assert (q + 1) * d.months == q * d.months + d.months;
    assert (q + 1) * d.days == q * d.days + d.days;
    assert (q + 1) * d.hours == q * d.hours + d.hours;
    assert (q + 1) * d.minutes == q * d.minutes + d.minutes;
    assert (q + 1) * d.seconds == q * d.seconds + d.seconds;
  }

  /** Stamp i with i - 1 == q * n + s lies q whole cycles and s + 1 steps after the start. */
  lemma OffsetWithin(resolution: seq<Delta>, i: nat, q: int, s: int)
    requires resolution != [] && q >= 0 && 0 <= s < |resolution| && i == q * |resolution| + s + 1
    ensures OffsetAt(resolution, i) == CycleOffset(resolution, q, s)
  {
    var n := |resolution|;
    assert i - 1 == q * n + s;
    DivModUnique(i - 1, n, q, s);
  }

  /** Each stamp is the previous one plus the next duration of the resolution, taken cyclically. */
  lemma OffsetStep(resolution: seq<Delta>, i: nat)
    requires resolution != [] && i >= 1
    ensures OffsetAt(resolution, i + 1) == Add(OffsetAt(resolution, i), resolution[i % |resolution|])
  {
    var n := |resolution|;
    var q, s := (i - 1) / n, (i - 1) % n;
    OffsetWithin(resolution, i, q, s);
    if s + 1 < n {
      OffsetWithin(resolution, i + 1, q, s + 1);
      DivModUnique(i, n, q, s + 1);
      SumPrefixStep(resolution, s + 1);
    } else {
      assert i + 1 == (q + 1) * n + 0 + 1;
      OffsetWithin(resolution, i + 1, q + 1, 0);
      DivModUnique(i, n, q + 1, 0);
      assert resolution[..s + 1] == resolution;
      SumSingleton(resolution[0]);
      assert resolution[..1] == [resolution[0]];
      ScaleSucc(q, Sum(resolution));
    }
  }

  /** The offset of stamp i is the sum of the first i durations of the cycled resolution. */
  lemma {:induction false} OffsetIsCycledSum(resolution: seq<Delta>, i: nat)
    requires resolution != []
    ensures OffsetAt(resolution, i) == Sum(Cycled(resolution, i))
  {
    if i == 1 {
      OffsetFirst(resolution);
      SumSingleton(resolution[0]);
      assert Cycled(resolution, 1) == [resolution[0]];
    } else if i > 1 {
      OffsetIsCycledSum(resolution, i - 1);
      OffsetStep(resolution, i - 1);
      SumAppend(Cycled(resolution, i - 1), resolution[(i - 1) % |resolution|]);
    }
  }

  /** With no durations every stamp is the start. */
  lemma OffsetWithoutResolution(i: nat)
    ensures OffsetAt([], i) == Zero
  {
  }
}

module SeriesClass {
  import opened Errors
  import opened Json
  import opened Duration
  import opened ParameterValue
  import opened ValueObjects
  import opened SeriesObjects

  /** The start a fixed-resolution series is given: a str to parse or a datetime. */
  datatype StartInput = StartText(text: string) | StartInstant(instant: Instant)

  /** The start setter's reading: dateutil's parser raises ValueError on a str it cannot read. */
  function StartOf(input: StartInput, cal: Calendar): (r: Result<Instant>)
    ensures input.StartInstant? ==> r == Ok(input.instant)
    ensures input.StartText? ==> (r.Ok? <==> cal.parse(input.text).Some?)
  {
    match input
    case StartInstant(t) => Ok(t)
    case StartText(s) =>
      match cal.parse(s)
      case None => Err(ValueError("Unknown string format: " + s))
      case Some(t) => Ok(t)
  }

  /** The index part of a series object: a start and a resolution, or one stamp per value. */
  datatype SeriesIndex = Fixed(start: Instant, resolution: seq<Delta>) | Variable(stamps: seq<Instant>)

  /**
   * TimeSeries with its two subclasses: TimeSeriesFixedResolution keeps a
   * start and a resolution, TimeSeriesVariableResolution its stamps.
   */
  class TimeSeries {
    var index: SeriesIndex
    var values: seq<Json>
    var ignoreYear: bool
    var repeat: bool

    /** What the constructors establish: two values or more, and one stamp per value. */
    predicate Valid()
      reads this
    {
      |values| >= 2 && (index.Variable? ==> |index.stamps| == |values|)
    }

    /** The value this object denotes. */
    function AsValue(): (v: Value)
      reads this
      ensures Valid() ==> ParameterValue.Valid(v)
      ensures v.FixedSeries? <==> index.Fixed?
    {
      match index
      case Fixed(start, resolution) => FixedSeries(start, resolution, values, ignoreYear, repeat)
      case Variable(stamps) => VariableSeries(stamps, values, ignoreYear, repeat)
    }

    constructor (index: SeriesIndex, values: seq<Json>, ignoreYear: bool, repeat: bool)
      ensures this.index == index && this.values == values
      ensures this.ignoreYear == ignoreYear && this.repeat == repeat
    {
      this.index := index;
      this.values := values;
      this.ignoreYear := ignoreYear;
      this.repeat := repeat;
    }

    /**
     * TimeSeriesFixedResolution(start, resolution, values, ignore_year,
     * repeat): the length is checked first, then the start setter runs, then
     * the resolution setter.
     */
    static method CreateFixed(start: StartInput, resolution: DurationInput, values: seq<Json>, ignoreYear: bool, repeat: bool, cal: Calendar)
      returns (r: Result<TimeSeries>)
      modifies if resolution.StepList? then {resolution.steps} else {}
      ensures r.Ok? <==> old(FixedOutcome(start, resolution, values, ignoreYear, repeat, cal)).Ok?
      ensures r.Ok? ==> (&& fresh(r.value) && r.value.Valid()
        && r.value.AsValue() == old(FixedOutcome(start, resolution, values, ignoreYear, repeat, cal)).value)
      ensures r.Err? ==> r.error == old(FixedOutcome(start, resolution, values, ignoreYear, repeat, cal)).error
    {
      if |values| < 2 {
        return Err(TooShort);
      }
      var t :- StartOf(start, cal);
      var steps :- ReadDurationInput(resolution);
      var series := new TimeSeries(Fixed(t, steps), values, ignoreYear, repeat);
      return Ok(series);
    }

    /** TimeSeriesVariableResolution(indexes, values, ignore_year, repeat) */
    static method CreateVariable(stamps: seq<Instant>, values: seq<Json>, ignoreYear: bool, repeat: bool)
      returns (r: Result<TimeSeries>)
      ensures r.Ok? <==> MakeVariableSeries(stamps, values, ignoreYear, repeat).Ok?
      ensures r.Ok? ==> (&& fresh(r.value) && r.value.Valid()
        && r.value.AsValue() == MakeVariableSeries(stamps, values, ignoreYear, repeat).value)
      ensures r.Err? ==> r.error == MakeVariableSeries(stamps, values, ignoreYear, repeat).error
    {
      if |values| < 2 {
        return Err(TooShort);
      }
      if |stamps| != |values| {
        return Err(LengthMismatch);
      }
      var series := new TimeSeries(Variable(stamps), values, ignoreYear, repeat);
      return Ok(series);
    }

    /** The ignore_year setter stores bool(ignore_year). */
    method SetIgnoreYear(flag: Json)
      modifies this
      ensures ignoreYear == Truthy(flag)
      ensures index == old(index) && values == old(values) && repeat == old(repeat)
    {
      ignoreYear := Truthy(flag);
    }

    /** The repeat setter stores bool(repeat). */
    method SetRepeat(flag: Json)
      modifies this
      ensures repeat == Truthy(flag)
      ensures index == old(index) && values == old(values) && ignoreYear == old(ignoreYear)
    {
      repeat := Truthy(flag);
    }

    /** The start setter: a str that does not parse raises and leaves the series as it was. */
    method SetStart(start: StartInput, cal: Calendar) returns (failure: Option<Error>)
      requires index.Fixed?
      modifies this
      ensures failure.None? <==> StartOf(start, cal).Ok?
      ensures failure.None? ==> index == Fixed(StartOf(start, cal).value, old(index.resolution))
      ensures failure.Some? ==> failure.value == StartOf(start, cal).error && index == old(index)
      ensures values == old(values) && ignoreYear == old(ignoreYear) && repeat == old(repeat)
    {
      var t := StartOf(start, cal);
      if t.Err? {
        return Some(t.error);
      }
      index := index.(start := t.value);
      return None;
    }

    /**
     * The resolution setter. A list is converted in place, so a str element
     * that does not parse raises with the elements before it already
     * converted, while the series keeps its old resolution.
     */
    method SetResolution(resolution: DurationInput) returns (failure: Option<Error>)
      requires index.Fixed?
      modifies this, if resolution.StepList? then {resolution.steps} else {}
      ensures failure.None? <==> old(DurationSteps(resolution)).Ok?
      ensures failure.None? ==> index == Fixed(old(index.start), old(DurationSteps(resolution)).value)
      ensures failure.Some? ==> failure.value == old(DurationSteps(resolution)).error && index == old(index)
      ensures values == old(values) && ignoreYear == old(ignoreYear) && repeat == old(repeat)
    {
      var steps := ReadDurationInput(resolution);
      if steps.Err? {
        return Some(steps.error);
      }
      index := index.(resolution := steps.value);
      return None;
    }

    /**
     * The indexes property of a fixed-resolution series: the first stamp is
     * the start, every further one lies OffsetAt after it. The loop keeps a
     * step position within the resolution and a count of whole cycles.
     */
    method FixedIndexes() returns (r: seq<Stamp>)
      requires Valid() && index.Fixed?
      ensures |r| == |values|
      ensures forall i :: 0 <= i < |r| ==> r[i] == Stamp(index.start, OffsetAt(index.resolution, i))
    {
      var start, resolution := index.start, index.resolution;
      var n := |resolution|;
      var full := Sum(resolution);
      var stepIndex, cycle := 0, 0;
      var stamps := new Stamp[|values|];
      stamps[0] := Stamp(start, Zero);
      var k := 1;
      while k < |values|
        invariant 1 <= k <= |values| == stamps.Length
        invariant forall j :: 0 <= j < k ==> stamps[j] == Stamp(start, OffsetAt(resolution, j))
        invariant 0 <= stepIndex && 0 <= cycle
        invariant n > 0 ==> stepIndex <= n && k - 1 == cycle * n + stepIndex
      {
        if stepIndex >= n {
          if n > 0 {
            NextCycle(k - 1, n, cycle);
          }
          stepIndex, cycle := 0, cycle + 1;
        }
        var upto := if stepIndex + 1 <= n then stepIndex + 1 else n;
        var current := Sum(resolution[..upto]);
        LoopOffset(resolution, k, cycle, stepIndex);
        stamps[k] := Stamp(start, Add(Scale(cycle, full), current));
        stepIndex := stepIndex + 1;
        k := k + 1;
      }
      r := stamps[..];
    }
  }

  lemma NextCycle(m: int, n: int, cycle: int)
    requires m == cycle * n + n
    ensures m == (cycle + 1) * n + 0
  {
  }

  /** The offset the loop of FixedIndexes computes for stamp k is OffsetAt. */
  lemma LoopOffset(resolution: seq<Delta>, k: nat, cycle: nat, stepIndex: nat)
    requires k >= 1
    requires resolution != [] ==> stepIndex < |resolution| && k - 1 == cycle * |resolution| + stepIndex
    ensures var upto := if stepIndex + 1 <= |resolution| then stepIndex + 1 else |resolution|;
      Add(Scale(cycle, Sum(resolution)), Sum(resolution[..upto])) == OffsetAt(resolution, k)
  {
    if resolution != [] {
      OffsetWithin(resolution, k, cycle, stepIndex);
    } else {
      ScaleZero(Zero);
    }
  }

  /** What TimeSeriesFixedResolution(...) yields, checked in the constructor's order. */
  function FixedOutcome(start: StartInput, resolution: DurationInput, values: seq<Json>, ignoreYear: bool, repeat: bool, cal: Calendar): (r: Result<Value>)
    reads if resolution.StepList? then {resolution.steps} else {}
    ensures |values| < 2 ==> r == Err(TooShort)
    ensures r.Ok? ==> Valid(r.value) && r.value.FixedSeries?
  {
    if |values| < 2 then Err(TooShort)
    else
      var t :- StartOf(start, cal);
      var steps :- DurationSteps(resolution);
      Ok(FixedSeries(t, steps, values, ignoreYear, repeat))
  }
}
