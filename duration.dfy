// Durations of spinedb_api/parameter_value.py: the text form ("7h",
// "1 hour", "7 hours") is read by duration_to_relativedelta and written back
// by relativedelta_to_duration. A relativedelta is modelled by its six
// calendar fields, kept as given: dateutil's normalisation (60 minutes
// becoming one hour, and so on) is not part of this model.

module Duration {
  import opened Errors
  import opened Text

  datatype Unit = Seconds | Minutes | Hours | Days | Months | Years

  /** Position of a unit in the order the formatter tries them: seconds first, years last. */
  function Rank(u: Unit): (k: nat)
    ensures k < 6
  {
    match u
    case Seconds => 0
    case Minutes => 1
    case Hours => 2
    case Days => 3
    case Months => 4
    case Years => 5
  }

  /** A relativedelta with the fields the model uses. */
  datatype Delta = Delta(years: int, months: int, days: int, hours: int, minutes: int, seconds: int)
  {
    function Field(u: Unit): int
    {
      match u
      case Seconds => seconds
      case Minutes => minutes
      case Hours => hours
      case Days => days
      case Months => months
      case Years => years
    }
  }

  /** relativedelta() */
  const Zero: Delta := Delta(0, 0, 0, 0, 0, 0)

  /** relativedelta(<unit>=count) */
  function Single(count: int, u: Unit): (d: Delta)
    ensures d.Field(u) == count
    ensures forall v :: v != u ==> d.Field(v) == 0
  {
    match u
    case Seconds => Zero.(seconds := count)
    case Minutes => Zero.(minutes := count)
    case Hours => Zero.(hours := count)
    case Days => Zero.(days := count)
    case Months => Zero.(months := count)
    case Years => Zero.(years := count)
  }

  /** relativedelta + relativedelta adds field by field. */
  function Add(a: Delta, b: Delta): (r: Delta)
    ensures forall u :: r.Field(u) == a.Field(u) + b.Field(u)
  {
    Delta(a.years + b.years, a.months + b.months, a.days + b.days,
          a.hours + b.hours, a.minutes + b.minutes, a.seconds + b.seconds)
  }

  /** k * relativedelta multiplies every field. */
  function Scale(k: int, a: Delta): (r: Delta)
    ensures forall u :: r.Field(u) == k * a.Field(u)
  {
    Delta(k * a.years, k * a.months, k * a.days, k * a.hours, k * a.minutes, k * a.seconds)
  }

  /** sum(steps, relativedelta()) */
  function Sum(steps: seq<Delta>): (r: Delta)
    decreases |steps|
  {
    if steps == [] then Zero else Add(Sum(steps[..|steps| - 1]), steps[|steps| - 1])
  }

  lemma {:induction false} SumAppend(steps: seq<Delta>, d: Delta)
    ensures Sum(steps + [d]) == Add(Sum(steps), d)
  {
    assert (steps + [d])[..|steps|] == steps;
  }

  lemma {:induction false} SumSingleton(d: Delta)
    ensures Sum([d]) == d
  {
    assert [d][..0] == [];
  }

  // ---- reading -------------------------------------------------------------

  /** [a-z]|[A-Z] */
  predicate IsAsciiLetter(c: char)
  {
    ('a' <= c <= 'z') || ('A' <= c <= 'Z')
  }

  predicate IsSeparator(c: char)
  {
    IsSpace(c) || IsAsciiLetter(c)
  }

  /** Where re.split("\\s|([a-z]|[A-Z])", text, maxsplit=1) splits: the first separator. */
  function FirstSeparator(s: string): (r: Option<nat>)
    ensures r.Some? ==> r.value < |s| && IsSeparator(s[r.value])
    ensures r.Some? ==> forall i :: 0 <= i < r.value ==> !IsSeparator(s[i])
    ensures r.None? ==> forall i :: 0 <= i < |s| ==> !IsSeparator(s[i])
    decreases |s|
  {
    if s == [] then None
    else if IsSeparator(s[0]) then Some(0)
    else match FirstSeparator(s[1..])
      case None => None
      case Some(k) => Some(k + 1)
  }

  /** The unit names duration_to_relativedelta accepts. */
  function UnitOf(name: string): Option<Unit>
  {
    if name in ["s", "second", "seconds"] then Some(Seconds)
    else if name in ["m", "minute", "minutes"] then Some(Minutes)
    else if name in ["h", "hour", "hours"] then Some(Hours)
    else if name in ["D", "day", "days"] then Some(Days)
    else if name in ["M", "month", "months"] then Some(Months)
    else if name in ["Y", "year", "years"] then Some(Years)
    else None
  }

  function ParseError(s: string): Error
  {
    ParameterValueFormatError("Could not parse duration \"" + s + "\"")
  }

  /**
   * duration_to_relativedelta: the count is the text before the first
   * whitespace or ASCII letter; after a letter the unit is that one letter
   * (whatever follows it is ignored), after whitespace the unit is the rest
   * of the text.
   */
  function ParseDuration(s: string): (r: Result<Delta>)
    ensures r.Err? ==> r.error == ParseError(s)
    ensures r.Ok? ==> FirstSeparator(s).Some?
  {
    match FirstSeparator(s)
    case None => Err(ParseError(s))
    case Some(k) =>
      match ParseInt(s[..k])
      case None => Err(ParseError(s))
      case Some(count) =>
        var name := if IsAsciiLetter(s[k]) then [s[k]] else s[k + 1..];
        match UnitOf(name)
        case None => Err(ParseError(s))
        case Some(u) => Ok(Single(count, u))
  }

  function Abbreviation(u: Unit): string
  {
    match u
    case Seconds => "s"
    case Minutes => "m"
    case Hours => "h"
    case Days => "D"
    case Months => "M"
    case Years => "Y"
  }

  function Word(u: Unit): string
  {
    match u
    case Seconds => "second"
    case Minutes => "minute"
    case Hours => "hour"
    case Days => "day"
    case Months => "month"
    case Years => "year"
  }

  lemma NoSeparatorInIntText(i: int)
    ensures forall k :: 0 <= k < |IntToString(i)| ==> !IsSeparator(IntToString(i)[k])
  {
    var s := IntToString(i);
    if i < 0 {
      assert s == "-" + NatToString(-i);
      forall k | 0 <= k < |s| ensures !IsSeparator(s[k]) {
        if k > 0 { assert s[k] == NatToString(-i)[k - 1]; }
      }
    }
  }

  lemma {:induction false} FirstSeparatorAt(s: string, k: nat)
    requires k < |s| && IsSeparator(s[k])
    requires forall i :: 0 <= i < k ==> !IsSeparator(s[i])
    ensures FirstSeparator(s) == Some(k)
    decreases k
  {
    if k > 0 {
      FirstSeparatorAt(s[1..], k - 1);
    }
  }

  lemma UnitOfAbbreviation(u: Unit)
    ensures UnitOf(Abbreviation(u)) == Some(u)
  {
  }

  lemma UnitOfWord(u: Unit)
    ensures UnitOf(Word(u)) == Some(u)
  {
  }

  lemma UnitOfPlural(u: Unit)
    ensures UnitOf(Word(u) + "s") == Some(u)
  {
    match u
    case Seconds => assert Word(u) + "s" == "seconds";
    case Minutes => assert Word(u) + "s" == "minutes";
    case Hours => assert Word(u) + "s" == "hours";
    case Days => assert Word(u) + "s" == "days";
    case Months => assert Word(u) + "s" == "months";
    case Years => assert Word(u) + "s" == "years";
  }

  lemma UnitNames(u: Unit)
    ensures UnitOf(Abbreviation(u)) == Some(u)
    ensures UnitOf(Word(u)) == Some(u)
    ensures UnitOf(Word(u) + "s") == Some(u)
  {
    UnitOfAbbreviation(u);
    UnitOfWord(u);
    UnitOfPlural(u);
  }

  lemma WordName(u: Unit, plural: bool)
    ensures UnitOf(Word(u) + (if plural then "s" else "")) == Some(u)
  {
    UnitNames(u);
    if !plural { assert Word(u) + "" == Word(u); }
  }

  /** ParseDuration once the count text, the separator and the text after it are known. */
  lemma ParseSplitAt(s: string, t: string, sep: char, rest: string, count: int)
    requires s == t + [sep] + rest
    requires forall i :: 0 <= i < |t| ==> !IsSeparator(t[i])
    requires ParseInt(t) == Some(count)
    requires IsSeparator(sep)
    ensures ParseDuration(s)
      == match UnitOf(if IsAsciiLetter(sep) then [sep] else rest)
         case Some(u) => Ok(Single(count, u))
         case None => Err(ParseError(s))
  {
    FirstSeparatorAt(s, |t|);
    assert s[..|t|] == t;
    assert s[|t| + 1..] == rest;
  }

  /** "<count><abbreviation>", as in "7h" or "-3D", reads as that many units. */
  lemma {:induction false} ParseAbbreviated(count: int, u: Unit)
    ensures ParseDuration(IntToString(count) + Abbreviation(u)) == Ok(Single(count, u))
  {
    var t := IntToString(count);
    var a := Abbreviation(u);
    NoSeparatorInIntText(count);
    ParseIntOfIntToString(count);
    UnitNames(u);
    assert a == [a[0]] && IsAsciiLetter(a[0]);
    assert UnitOf([a[0]]) == Some(u);
    assert t + a == t + [a[0]] + [];
    ParseSplitAt(t + a, t, a[0], [], count);
  }

  /** "<count> <unit word>", singular or plural, as in "1 hour" or "7 hours", reads as that many units. */
  lemma {:induction false} ParseWord(count: int, u: Unit, plural: bool)
    ensures ParseDuration(IntToString(count) + " " + Word(u) + (if plural then "s" else "")) == Ok(Single(count, u))
  {
    var t := IntToString(count);
    var w := Word(u) + (if plural then "s" else "");
    var s := t + " " + Word(u) + (if plural then "s" else "");
    NoSeparatorInIntText(count);
    ParseIntOfIntToString(count);
    WordName(u, plural);
    assert s == t + [' '] + w;
    ParseSplitAt(s, t, ' ', w, count);
  }

  /**
   * After a letter the rest of the text is ignored: "<count><letter><rest>"
   * reads like "<count><letter>". So "7hours" is seven hours, "7months" is
   * seven minutes and "7days" is an error ('d' is not a unit).
   */
  lemma {:induction false} ParseIgnoresTextAfterLetter(count: int, c: char, rest: string)
    requires IsAsciiLetter(c)
    ensures ParseDuration(IntToString(count) + [c] + rest)
      == match UnitOf([c])
         case Some(u) => Ok(Single(count, u))
         case None => Err(ParseError(IntToString(count) + [c] + rest))
  {
    NoSeparatorInIntText(count);
    ParseIntOfIntToString(count);
    ParseSplitAt(IntToString(count) + [c] + rest, IntToString(count), c, rest, count);
  }

  /** A text without whitespace or letters has no unit and is rejected. */
  lemma ParseNeedsUnit(s: string)
    requires forall i :: 0 <= i < |s| ==> !IsSeparator(s[i])
    ensures ParseDuration(s) == Err(ParseError(s))
  {
  }

  // ---- writing -------------------------------------------------------------

  /**
   * relativedelta_to_duration: the first strictly positive field among
   * seconds, minutes, hours, days, months and years decides the unit; the
   * day-or-smaller fields above it are folded into it, months take twelve
   * times the years, and a delta with no positive field is refused.
   */
  function FormatDelta(d: Delta): (r: Result<string>)
    ensures r.Ok? <==> d.seconds > 0 || d.minutes > 0 || d.hours > 0 || d.days > 0 || d.months > 0 || d.years > 0
    ensures r.Err? ==> r.error == ParameterValueFormatError("Zero relativedelta")
  {
    if d.seconds > 0 then
      Ok(IntToString(d.seconds + 60 * d.minutes + 60 * 60 * d.hours + 60 * 60 * 24 * d.days) + "s")
    else if d.minutes > 0 then
      Ok(IntToString(d.minutes + 60 * d.hours + 60 * 24 * d.days) + "m")
    else if d.hours > 0 then
      Ok(IntToString(d.hours + 24 * d.days) + "h")
    else if d.days > 0 then
      Ok(IntToString(d.days) + "D")
    else if d.months > 0 then
      Ok(IntToString(d.months + 12 * d.years) + "M")
    else if d.years > 0 then
      Ok(IntToString(d.years) + "Y")
    else
      Err(ParameterValueFormatError("Zero relativedelta"))
  }

  /** The first unit, in formatting order, whose field is strictly positive. */
  function FirstPositive(d: Delta): (r: Option<Unit>)
    ensures r.Some? ==> d.Field(r.value) > 0
    ensures r.Some? ==> forall v :: Rank(v) < Rank(r.value) ==> d.Field(v) <= 0
    ensures r.None? ==> forall v :: d.Field(v) <= 0
  {
    if d.seconds > 0 then Some(Seconds)
    else if d.minutes > 0 then Some(Minutes)
    else if d.hours > 0 then Some(Hours)
    else if d.days > 0 then Some(Days)
    else if d.months > 0 then Some(Months)
    else if d.years > 0 then Some(Years)
    else None
  }

  /** Seconds in one unit, for the units of a day or less. */
  function SecondsIn(u: Unit): nat
    requires Rank(u) <= Rank(Days)
  {
    match u
    case Seconds => 1
    case Minutes => 60
    case Hours => 60 * 60
    case Days => 60 * 60 * 24
  }

  /** The time held by the fields from u up to days, in seconds. */
  function TimeFrom(d: Delta, u: Unit): int
    requires Rank(u) <= Rank(Days)
  {
    (if Rank(u) <= 0 then d.seconds else 0)
    + (if Rank(u) <= 1 then 60 * d.minutes else 0)
    + (if Rank(u) <= 2 then 60 * 60 * d.hours else 0)
    + 60 * 60 * 24 * d.days
  }

  /** Formatting succeeds exactly when some field is positive. */
  lemma FormatNeedsPositiveField(d: Delta)
    ensures FormatDelta(d).Ok? <==> FirstPositive(d).Some?
    ensures FormatDelta(d).Err? ==> FormatDelta(d).error == ParameterValueFormatError("Zero relativedelta")
  {
    if FirstPositive(d).None? {
      assert d.Field(Seconds) <= 0 && d.Field(Minutes) <= 0 && d.Field(Hours) <= 0;
      assert d.Field(Days) <= 0 && d.Field(Months) <= 0 && d.Field(Years) <= 0;
    }
  }

  /**
   * The count written for unit u: the fields from u up to days converted to
   * u, or the months plus twelve times the years.
   */
  function FoldedCount(d: Delta, u: Unit): int
  {
    match u
    case Seconds => d.seconds + 60 * d.minutes + 60 * 60 * d.hours + 60 * 60 * 24 * d.days
    case Minutes => d.minutes + 60 * d.hours + 60 * 24 * d.days
    case Hours => d.hours + 24 * d.days
    case Days => d.days
    case Months => d.months + 12 * d.years
    case Years => d.years
  }

  /** Folding keeps the time held by the fields from u up to days. */
  lemma FoldingKeepsTime(d: Delta, u: Unit)
    requires Rank(u) <= Rank(Days)
    ensures FoldedCount(d, u) * SecondsIn(u) == TimeFrom(d, u)
  {
  }

  /** The text is the folded count followed by the abbreviation of the first positive unit. */
  lemma FormatText(d: Delta)
    requires FirstPositive(d).Some?
    ensures FormatDelta(d)
      == Ok(IntToString(FoldedCount(d, FirstPositive(d).value)) + Abbreviation(FirstPositive(d).value))
  {
    match FirstPositive(d).value
    case Seconds =>
    case Minutes =>
    case Hours =>
    case Days =>
    case Months =>
    case Years =>
  }

  /** The text reads back as a single step of the first positive unit, holding the folded count. */
  lemma FormatThenParse(d: Delta)
    requires FirstPositive(d).Some?
    ensures FormatDelta(d).Ok?
    ensures ParseDuration(FormatDelta(d).value)
      == Ok(Single(FoldedCount(d, FirstPositive(d).value), FirstPositive(d).value))
  {
    FormatText(d);
    ParseAbbreviated(FoldedCount(d, FirstPositive(d).value), FirstPositive(d).value);
  }

  /** A single positive step formats as "<count><abbreviation>"; a step of zero or less is refused. */
  lemma FormatSingle(count: int, u: Unit)
    ensures count > 0 ==> FormatDelta(Single(count, u)) == Ok(IntToString(count) + Abbreviation(u))
    ensures count <= 0 ==> FormatDelta(Single(count, u)) == Err(ParameterValueFormatError("Zero relativedelta"))
  {
  }

  /** A delta made of one positive field: the steps the reader produces and the writer can reproduce. */
  predicate IsPositiveStep(d: Delta)
  {
    exists u :: d.Field(u) > 0 && d == Single(d.Field(u), u)
  }

  /** Writing a positive single step and reading it back gives the step. */
  lemma {:induction false} StepRoundTrip(d: Delta)
    requires IsPositiveStep(d)
    ensures FormatDelta(d).Ok? && ParseDuration(FormatDelta(d).value) == Ok(d)
  {
    var u :| d.Field(u) > 0 && d == Single(d.Field(u), u);
    FormatSingle(d.Field(u), u);
    ParseAbbreviated(d.Field(u), u);
  }
}
