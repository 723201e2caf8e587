# Spine Database API, core model

Spine Database API gives Python access to Spine databases. These databases hold entity classes, entities, parameter definitions and values, alternatives, scenarios, tools and metadata. This project models the in-memory core of that library in Dafny and proves what it promises:

- **Parameter values** (`Duration`, `ParameterValue`, `ValueObjects`, `SeriesObjects`, `SeriesClass`). The duration text form and its reading back. `from_database`/`to_database` for date-times, durations, time patterns, and fixed- and variable-resolution time series, with their round trips. The series classes' setters and stamp generation.
- **Integrity checks** (`CheckFunctions`, `CheckMixin`, `CheckMixinLemmas`). The `check_*` validators, and the batch loop that keeps the existing-key dicts in step with the items it checks (`_manage_stocks`).
- **The mapping** (`MappingBase`, `DiffBase`, `DiffMapping`, `AddMixin`, `UpdateMixin`, `ExtMetadata`, `CommitMixin`, `RemoveMixin`):
  - table order and primary keys;
  - the staging layer, where the visible table is the original rows that are not dirty followed by the diff rows;
  - adding, updating, removing, committing and rolling back;
  - metadata reuse and retargeting;
  - removal in cascade.
- **The cache** (`CacheItems`, `DbCache`). Items with strong and weak referrers, cascading removal and re-adding, validity, and the derived fields of scenario items.
- **Importing** (`ImportFunctions`, `ImportPlanners`, `ImportLists`, `ImportAddOnly`). `import_data`, the order of the planners, and every `_get_*_for_import` planner.
- **Import mappings** (`ImportMappings`, `ImportRows`, `KeyFixes`). Configured mappings, `from_dict`, and importing one source row through a chain of mappings.
- **Export settings** (`ExportSettings`). The export mapping chains built by `export_mapping/settings.py`.
- **Filters** (`ScenarioFilter`, `ToolFilter`, `Renamer`, `ExecutionFilter`, `UrlTools`). Their configurations and shorthands with round trips, the filtered views, and filter configurations stored in a database URL.
- **Shared values and helpers** (`Errors`, `Items`, `Json`, `Text`, `Helpers`). The exceptions, item dicts, JSON values and string helpers, plus `forward_sweep`.

Code that changes state step by step is modelled as classes and methods with loops, proved against specification functions. Pure code is modelled as functions and lemmas.

## Model

| member | source | states |
|---|---|---|
| Duration.FirstSeparator | spinedb_api/parameter_value.py:63-65 | the split point of the duration text is the first whitespace or ASCII letter, and none occurs before it; no split point means neither occurs |
| Duration.UnitNames | spinedb_api/parameter_value.py:71-83 | every unit is recognised by its abbreviation, its singular word and its plural word |
| Duration.ParseDuration | spinedb_api/parameter_value.py:52-84 | duration_to_relativedelta fails only with "Could not parse duration" naming the text, and a text without whitespace or letters never reads; ParseAbbreviated, ParseWord, ParseIgnoresTextAfterLetter and ParseNeedsUnit state what each accepted form reads as |
| Duration.ParseAbbreviated | spinedb_api/parameter_value.py:52-84 | "<count><abbreviation>" ("7h", "-3D") reads as that many units of that kind and nothing else |
| Duration.ParseWord | spinedb_api/parameter_value.py:52-84 | "<count> <word>" with a singular or plural unit word reads as that many units |
| Duration.ParseIgnoresTextAfterLetter | spinedb_api/parameter_value.py:62-84 | after the first letter the rest of the text is ignored, so "7months" reads as seven minutes and "7days" is refused |
| Duration.ParseNeedsUnit | spinedb_api/parameter_value.py:62-70 | a text with neither whitespace nor letters is refused with the "Could not parse duration" error |
| Duration.FirstPositive | spinedb_api/parameter_value.py:97-121 | the unit picked by the formatter is the first one, seconds to years, with a positive field; all earlier fields are zero or less |
| Duration.FormatDelta | spinedb_api/parameter_value.py:87-122 | relativedelta_to_duration succeeds exactly when some field is positive and otherwise raises "Zero relativedelta"; FormatText states the text, FormatThenParse and StepRoundTrip that it reads back |
| Duration.FormatNeedsPositiveField | spinedb_api/parameter_value.py:97-122 | formatting succeeds exactly when some field is positive, and otherwise raises "Zero relativedelta" |
| Duration.FoldingKeepsTime | spinedb_api/parameter_value.py:97-113 | folding minutes, hours and days into the chosen smaller unit keeps the time they held |
| Duration.FormatText | spinedb_api/parameter_value.py:97-121 | the text is the folded count followed by the abbreviation of the first positive unit |
| Duration.FormatThenParse | spinedb_api/parameter_value.py:52-122 | the formatted text reads back as a single step of the first positive unit holding the folded count |
| Duration.FormatSingle | spinedb_api/parameter_value.py:87-122 | a single positive step formats as "<count><abbreviation>"; a step of zero or less is refused |
| Duration.StepRoundTrip | spinedb_api/parameter_value.py:52-122 | formatting a positive single step and parsing the text gives the step back |
| ParameterValue.MakeTimePattern | spinedb_api/parameter_value.py:509-515 | a time pattern is built exactly when indexes and values have the same, non-zero length; a length mismatch and an empty pattern raise their own RuntimeErrors |
| ParameterValue.MakeFixedSeries | spinedb_api/parameter_value.py:465-470 | a fixed-resolution series is built exactly when it has at least two values; otherwise "Time series too short" |
| ParameterValue.MakeVariableSeries | spinedb_api/parameter_value.py:666-669 | a variable-resolution series needs two or more values (checked first) and one stamp per value |
| ParameterValue.FromDatabase | spinedb_api/parameter_value.py:125-157 | text that is not JSON is refused, and whatever is read is a valid value; DecodeDispatch states the dispatch and its errors, DispatchDateTime, DispatchDuration, DispatchTimePattern and DispatchTimeSeries the branch each type tag takes, RoundTrip that it inverts to_database |
| ParameterValue.FromTyped | spinedb_api/parameter_value.py:142-156 | a typed object reads as a valid value that is not a plain one, or fails; the Dispatch lemmas tie each type tag to its reader |
| ParameterValue.ToDatabase | spinedb_api/parameter_value.py:160-172 | a plain value is written unchanged and every other value as an object whose first entry is its "type"; the Encoding lemmas give each object, RoundTrip that from_database reads it back |
| ParameterValue.ParseSteps | spinedb_api/parameter_value.py:312-315 | every resolution entry is read in order, one step per entry, and the first entry that does not parse raises its error |
| ParameterValue.BreakDictionary | spinedb_api/parameter_value.py:175-182 | _break_dictionary returns the keys and the values of a dict, pairwise in order |
| ParameterValue.TimePatternFromDatabase | spinedb_api/parameter_value.py:347-350 | without "data" the read fails with the error that reports "data" missing; a dict reads as the time pattern of its keys and values, in order, and fails exactly when it is empty; a list or a string has no items() (AttributeError); a number, a bool or null has no len() (TypeError) |
| ParameterValue.DictionaryColumns | spinedb_api/parameter_value.py:248-262 | a dictionary-style series yields one stamp and one value per entry |
| ParameterValue.TwoColumns | spinedb_api/parameter_value.py:326-342 | a two-column series yields one stamp and one value per row |
| ParameterValue.FormatSteps | spinedb_api/parameter_value.py:635-640 | every step is written with relativedelta_to_duration, in order, and writing succeeds only if every step can be written |
| ParameterValue.StampTexts | spinedb_api/parameter_value.py:697-699 | each time stamp is written as its text, in order |
| ParameterValue.PutAllDistinct | spinedb_api/parameter_value.py:525-527 | assigning distinct keys one by one into an empty dict lays the pairs out in order |
| ParameterValue.FormatThenParseSteps | spinedb_api/parameter_value.py:312-315 | positive steps written one by one and read back give the steps |
| ParameterValue.DictionaryColumnsOfStamps | spinedb_api/parameter_value.py:248-262 | reading the stamps a variable-resolution series writes gives its stamps and values back |
| ParameterValue.DispatchDateTime | spinedb_api/parameter_value.py:142-143 | an object typed "date_time" is read by the date-time reader |
| ParameterValue.DispatchDuration | spinedb_api/parameter_value.py:144-145 | an object typed "duration" is read by the duration reader |
| ParameterValue.DispatchTimePattern | spinedb_api/parameter_value.py:146-147 | an object typed "time_pattern" is read by the time-pattern reader |
| ParameterValue.DispatchTimeSeries | spinedb_api/parameter_value.py:148-149 | an object typed "time_series" is read by the time-series reader |
| ParameterValue.DateTimeRoundTrip | spinedb_api/parameter_value.py:372-374 | a date time is written as {"type": "date_time", "data": iso text} and reads back as itself |
| ParameterValue.TimePatternEncoding | spinedb_api/parameter_value.py:523-528 | a time pattern is written as a dict from pattern to value, in order |
| ParameterValue.TimePatternDecoding | spinedb_api/parameter_value.py:347-350 | a written time pattern reads back as the same patterns and values |
| ParameterValue.TimePatternRoundTrip | spinedb_api/parameter_value.py:347-350 | from_database(to_database(p)) == p for a valid time pattern with distinct patterns |
| ParameterValue.DurationEncoding | spinedb_api/parameter_value.py:409-415 | one step is written as a single string, several or none as a list of strings |
| ParameterValue.DurationObject | spinedb_api/parameter_value.py:144-145 | an object typed "duration" is read from its "data" by the duration reader |
| ParameterValue.DurationDataOfOneStep | spinedb_api/parameter_value.py:196-209 | the text of one positive step reads back as a duration of that one step |
| ParameterValue.DurationDataOfSteps | spinedb_api/parameter_value.py:196-209 | a list of written positive steps reads back as a duration of those steps |
| ParameterValue.DurationDecoding | spinedb_api/parameter_value.py:196-209 | what to_database writes for a duration reads back as the same steps |
| ParameterValue.DurationRoundTrip | spinedb_api/parameter_value.py:409-415 | from_database(to_database(d)) == d for durations of positive single steps |
| ParameterValue.ResolutionRoundTrip | spinedb_api/parameter_value.py:633-640 | the resolution as written reads back as the resolution |
| ParameterValue.DispatchSingleColumn | spinedb_api/parameter_value.py:212-220 | a list whose first value is not a sequence is read as a single-column (fixed-resolution) series |
| ParameterValue.WrittenFixedIndex | spinedb_api/parameter_value.py:641-651 | the index a fixed-resolution series writes holds its start, resolution and both flags |
| ParameterValue.SingleColumnOfWritten | spinedb_api/parameter_value.py:267-323 | the single-column reader reads back the start, resolution, values and flags a fixed-resolution series writes |
| ParameterValue.SeriesOfWrittenFixed | spinedb_api/parameter_value.py:212-220 | a written fixed-resolution series goes to the single-column reader and reads back |
| ParameterValue.FixedSeriesDecoding | spinedb_api/parameter_value.py:125-157 | a written fixed-resolution series reads back whichever form its resolution entry takes |
| ParameterValue.FixedSeriesRoundTrip | spinedb_api/parameter_value.py:633-652 | from_database(to_database(s)) == s for a fixed-resolution series of positive steps and a parsable start |
| ParameterValue.VariableFlagsOfWritten | spinedb_api/parameter_value.py:224-245 | the flags a variable-resolution series writes read back as written, absent ones as False |
| ParameterValue.SeriesOfWrittenVariable | spinedb_api/parameter_value.py:212-216 | a written variable-resolution series goes to the dictionary reader and reads back |
| ParameterValue.VariableSeriesDecoding | spinedb_api/parameter_value.py:248-264 | a written variable-resolution series reads back with its stamps, values and flags |
| ParameterValue.VariableSeriesEncoding | spinedb_api/parameter_value.py:693-714 | a variable-resolution series is written as a dict from stamp text to value |
| ParameterValue.VariableSeriesRoundTrip | spinedb_api/parameter_value.py:693-714 | from_database(to_database(s)) == s for a variable-resolution series with distinct, parsable stamps |
| ParameterValue.RoundTrip | spinedb_api/parameter_value.py:125-172 | from_database(to_database(v)) == v for every valid value whose parts the calendar reads back |
| ParameterValue.FixedSeriesEncoding | spinedb_api/parameter_value.py:633-652 | writing a fixed-resolution series fails only on an empty resolution (IndexError) or an unwritable step, and otherwise writes start, resolution and both flags |
| ParameterValue.WrittenResolutionShape | spinedb_api/parameter_value.py:635-640 | a resolution is written as one string for one step and as a list of strings otherwise |
| ParameterValue.VariableIndexHoldsTrueFlags | spinedb_api/parameter_value.py:705-713 | a variable-resolution series writes an "index" exactly when a flag is true, and it holds only the true flags |
| ParameterValue.DecodedIsValid | spinedb_api/parameter_value.py:125-157 | every value the reader returns satisfies its constructor's checks |
| ParameterValue.DecodeDispatch | spinedb_api/parameter_value.py:135-157 | undecodable text raises "Could not decode the value", a non-object is returned as is, a missing "type" and an unknown type raise their own errors |
| ParameterValue.DurationDataKinds | spinedb_api/parameter_value.py:196-208 | a number or a list of numbers is read as minutes; other kinds raise "Duration value is of unsupported type" |
| ParameterValue.NumericResolutionIsMinutes | spinedb_api/parameter_value.py:312-315 | a resolution written as a number counts minutes |
| ParameterValue.DefaultResolutionIsOneHour | spinedb_api/parameter_value.py:47 | the default resolution "1h" is one hour |
| ParameterValue.SingleColumnWithoutIndex | spinedb_api/parameter_value.py:303-307 | a bare list with no index is an hourly series from the default start, with both flags set |
| ParameterValue.SingleColumnDefaults | spinedb_api/parameter_value.py:269-302 | start and resolution take their defaults when absent; an absent flag is True exactly when the index has no "start" |
| ParameterValue.VariableFlags | spinedb_api/parameter_value.py:224-245 | without "index" both flags are false; an index that is not a dict has no get and raises AttributeError; a dict gives its flags, absent ones false |
| ParameterValue.IndexEntry | spinedb_api/parameter_value.py:271-280 | on a dict index: whether the key is present and its value or the default; on a list or str the key is looked up with Python's in, and a hit goes on to subscript with a str, which raises TypeError; any other index raises TypeError |
| ParameterValue.FixedIndexOf | spinedb_api/parameter_value.py:269-307 | without "index" the defaults (both flags true); a dict index gives start, resolution and flags, an absent flag being true exactly when "start" is absent; a list or str index holding none of the keys takes the defaults, both flags true; one holding a key raises TypeError; a non-container raises TypeError |
| Json.Contains | spinedb_api/parameter_value.py:269 | key in a decoded JSON value: a dict tests its keys, a list its elements, a str its substrings; any other value raises TypeError |
| ValueObjects.ConvertSteps | spinedb_api/parameter_value.py:398-400 | the durations of a list are read in order, each text by duration_to_relativedelta; the first text that does not parse raises its error |
| ValueObjects.Converted | spinedb_api/parameter_value.py:399-400 | after the in-place pass an element is the delta its text reads as, and is otherwise left as it was |
| ValueObjects.ConvertInPlace | spinedb_api/parameter_value.py:398-400 | the list is rewritten in place: on success every element is its delta; on failure the elements before the bad one are converted and the rest untouched |
| ValueObjects.DurationSteps | spinedb_api/parameter_value.py:392-401 | a str is one step, a relativedelta one step, a list its elements' steps |
| ValueObjects.ReadDurationInput | spinedb_api/parameter_value.py:392-401 | the conversion shared by Duration.__init__ and the resolution setter gives DurationSteps and converts a list in place |
| SeriesClass.TimeSeries.CreateFixed | spinedb_api/parameter_value.py:553-556 | TimeSeriesFixedResolution(...) checks the length first, then sets the start, then the resolution, and builds a fresh valid series or fails exactly as FixedOutcome does; FixedOutcome refuses fewer than two values |
| SeriesClass.TimeSeries.CreateVariable | spinedb_api/parameter_value.py:666-669 | TimeSeriesVariableResolution(...) needs two or more values, then one stamp per value, and builds a fresh valid series or fails exactly as MakeVariableSeries does |
| ValueObjects.NewDuration | spinedb_api/parameter_value.py:392-401 | Duration(value) succeeds exactly when every element reads, and then holds exactly those steps |
| SeriesObjects.ReadDictionary | spinedb_api/parameter_value.py:248-262 | the reading loop of _time_series_from_dictionary computes DictionaryColumns: stamps parsed in order, values written into an array, the first bad stamp raising |
| SeriesObjects.ReadTwoColumns | spinedb_api/parameter_value.py:326-342 | the reading loop of _time_series_from_two_columns computes TwoColumns: every row must be a pair and its stamp must parse |
| SeriesObjects.BreakDict | spinedb_api/parameter_value.py:175-182 | the loop of _break_dictionary returns keys and values pairwise in order |
| SeriesObjects.BreakDictUnique | spinedb_api/parameter_value.py:175-182 | the loop's result is the pair of columns BreakDictionary specifies |
| SeriesObjects.Cycled | spinedb_api/parameter_value.py:578-589 | the first i durations of the resolution taken cyclically: element j is resolution[j mod n] |
| SeriesObjects.OffsetFirst | spinedb_api/parameter_value.py:577-588 | the second stamp lies one resolution step after the start |
| SeriesObjects.OffsetWithin | spinedb_api/parameter_value.py:582-588 | stamp i, with i - 1 == q*n + s, lies q whole cycles plus s + 1 steps after the start |
| SeriesObjects.OffsetStep | spinedb_api/parameter_value.py:578-589 | each stamp is the previous one plus the next duration of the resolution, taken cyclically |
| SeriesObjects.OffsetIsCycledSum | spinedb_api/parameter_value.py:575-590 | the offset of stamp i is the sum of the first i durations of the cycled resolution |
| SeriesObjects.OffsetWithoutResolution | spinedb_api/parameter_value.py:575-588 | with an empty resolution every stamp is the start |
| SeriesClass.StartOf | spinedb_api/parameter_value.py:605-608 | the start setter parses a str with dateutil (raising when it cannot) and takes a date time as it is |
| SeriesClass.TimeSeries.AsValue | spinedb_api/parameter_value.py:536-556 | a series object in a valid state denotes a valid value, fixed-resolution exactly when its index is |
| SeriesClass.TimeSeries.constructor | spinedb_api/parameter_value.py:465-470 | a new series holds the given index, values and flags |
| SeriesClass.TimeSeries.SetIgnoreYear | spinedb_api/parameter_value.py:482-484 | the ignore_year setter stores bool(ignore_year) and changes nothing else |
| SeriesClass.TimeSeries.SetRepeat | spinedb_api/parameter_value.py:491-493 | the repeat setter stores bool(repeat) and changes nothing else |
| SeriesClass.TimeSeries.SetStart | spinedb_api/parameter_value.py:597-608 | the start setter stores the parsed start, or raises and leaves the series unchanged |
| SeriesClass.TimeSeries.SetResolution | spinedb_api/parameter_value.py:615-631 | the resolution setter stores the converted steps, or raises leaving the old resolution while a list argument stays partly converted |
| SeriesClass.TimeSeries.FixedIndexes | spinedb_api/parameter_value.py:570-590 | the indexes of a fixed-resolution series: one per value, the first the start, stamp i lying OffsetAt(resolution, i) after it |
| SeriesClass.LoopOffset | spinedb_api/parameter_value.py:578-588 | the offset the loop computes from its step and cycle counters is OffsetAt |
| SeriesClass.FixedOutcome | spinedb_api/parameter_value.py:553-556 | TimeSeriesFixedResolution(...) checks the length first (too short raises) and yields a valid fixed-resolution series |
| Helpers.Walk | spinedb_api/helpers.py:757-777 | the nodes func receives for a subtree when the walk reaches it start with that subtree's root |
| Helpers.Sweep | spinedb_api/helpers.py:751-777 | the whole walk starts at the root, and it fails (KeyError on the root's parent) exactly when the root has no children |
| Helpers.SweepVisitsTree | spinedb_api/helpers.py:751-777 | forward_sweep calls func on every node of the tree and on nothing else |
| Helpers.RootVisitedOnce | spinedb_api/helpers.py:775-777 | the root is visited first and never again: the walk stops on climbing back to it |
| Helpers.SubtreeIsOneBlock | spinedb_api/helpers.py:757-773 | the visits to any subtree below the root form one contiguous block: each child's subtree is finished before its next sibling |
| Helpers.InnerNodeVisitedTwice | spinedb_api/helpers.py:758-775 | a node below the root that has children is visited on the way down and again on climbing back to it |
| Helpers.TrailParent | spinedb_api/helpers.py:762-770 | the parent dict maps every visited non-root node to its parent, and the root has no entry |
| Helpers.WalkDown | spinedb_api/helpers.py:760-765 | when the current node's iterator hands out a child, the walk goes down to it and keeps its invariant |
| Helpers.WalkOver | spinedb_api/helpers.py:767-773 | when the parent's iterator hands out the next sibling, the walk moves over to it and keeps its invariant |
| Helpers.WalkBack | spinedb_api/helpers.py:774-777 | when both iterators are used up, the walk climbs back to the parent and keeps its invariant |
| Helpers.ForwardSweep | spinedb_api/helpers.py:751-777 | the loop with its parent and iterator dicts visits exactly the nodes Sweep lists, in that order, and fails exactly when Sweep does |
| CheckFunctions.CheckName | spinedb_api/check_functions.py:25-41 | the alternative, scenario, value list and tool checks pass exactly when the item has a name nobody holds yet; a missing name raises the validator's message, a taken one an error naming the holder's id |
| CheckFunctions.CheckScenarioAlternative | spinedb_api/check_functions.py:43-88 | passes exactly when scenario, alternative and rank are all given, both have names, and neither the (scenario, alternative) nor the (scenario, rank) key is held with an id; a duplicate reports the holder |
| CheckFunctions.WrongType | spinedb_api/check_functions.py:110-112 | a wrong type_id always fails, reporting the id held under the name, or a KeyError when the name is not held |
| CheckFunctions.CheckObjectClass | spinedb_api/check_functions.py:91-115 | passes exactly when the name is present and non-empty, the type_id (if any) is the object class type and the name is not taken |
| CheckFunctions.CheckObject | spinedb_api/check_functions.py:118-149 | passes exactly when the name is non-empty, the type_id fits, the class is known and (class, name) is not taken; a duplicate reports the holder |
| CheckFunctions.CheckRelationshipClass | spinedb_api/check_functions.py:152-191 | passes exactly when the name is non-empty, at least one object class is given and all are known, the type_id fits and the name is new |
| CheckFunctions.Column | spinedb_api/check_functions.py:246-249 | the class id of each listed object, in order; any unknown object or missing field raises KeyError |
| CheckFunctions.CheckRelationship | spinedb_api/check_functions.py:194-262 | passes only for a new (class, name) whose objects' classes are the class's object classes in order and whose (class, objects) is new; a duplicate reports the holder |
| CheckFunctions.CheckEntityGroup | spinedb_api/check_functions.py:265-312 | passes exactly when entity, member and class are given, the class is known, both entities belong to it and the (entity, member) pair is new |
| CheckFunctions.FirstMatch | spinedb_api/check_functions.py:436 | the first list value id whose value equals the parsed value, and none when no list value does |
| CheckFunctions.Referenced | spinedb_api/check_functions.py:442-444 | the value and type keys become a reference to the list value id and list_value_id is set; every other key is kept |
| CheckFunctions.ReplaceWithListReferences | spinedb_api/check_functions.py:416-445 | no list leaves the item alone; an unknown or empty list raises; otherwise the value must equal a list value and is replaced by a reference to the first such |
| CheckFunctions.CheckParameterDefinition | spinedb_api/check_functions.py:315-345 | passes only for a named definition of a known class whose (class, name) is new, with its default value checked against its value list |
| CheckFunctions.CheckParameterValue | spinedb_api/check_functions.py:348-397 | passes only for a known definition, alternative and entity of the definition's class, a new (entity, definition, alternative), and the value checked against the definition's list |
| CheckFunctions.MissingKeysError | spinedb_api/check_functions.py:481-483 | the "Missing keys" error is raised exactly when some required key is absent |
| CheckFunctions.CheckListValue | spinedb_api/check_functions.py:469-496 | passes exactly when all four keys are given, the list is known, and neither (list, index) nor (list, type, value) is held with an id |
| CheckFunctions.CheckFeature | spinedb_api/check_functions.py:508-529 | passes exactly when the definition exists with that value list and has no feature yet |
| CheckFunctions.CheckToolFeature | spinedb_api/check_functions.py:532-557 | passes exactly when tool and feature are known, not yet paired, and the value list is the feature's |
| CheckFunctions.CheckToolFeatureMethod | spinedb_api/check_functions.py:560-587 | passes exactly when the tool feature is known with that list, the (tool feature, method) pair is not held with an id, and the method index is one of the list's value indexes |
| CheckFunctions.CheckMetadata | spinedb_api/check_functions.py:590-602 | passes exactly when the item has a name and a value |
| CheckFunctions.CheckEntityMetadata | spinedb_api/check_functions.py:605-622 | passes exactly when both keys are given and entity and metadata are known |
| CheckFunctions.CheckParameterValueMetadata | spinedb_api/check_functions.py:625-642 | passes exactly when both keys are given and value and metadata are known |
| CheckMixin.KeyPart | spinedb_api/db_mapping_check_mixin.py:868-869 | a list-valued key field becomes a tuple; any other value is kept |
| CheckMixin.KeyValues | spinedb_api/db_mapping_check_mixin.py:865-870 | the key fields of an item in order, lists turned into tuples; a missing field raises KeyError naming it |
| CheckMixin.GetKey | spinedb_api/db_mapping_check_mixin.py:873-875 | a one-field key is that field's value, a longer one the tuple of the values; an empty key raises IndexError |
| CheckMixin.SameFieldsSameKey | spinedb_api/db_mapping_check_mixin.py:873-875 | two items that agree on the fields of a key have the same key |
| CheckMixin.KeysOf | spinedb_api/db_mapping_check_mixin.py:836-841 | the item's key under every primary key, in order; the first missing field is the error |
| CheckMixin.LastIndex | spinedb_api/db_mapping_check_mixin.py:837-839 | the position of the last occurrence of a key |
| CheckMixin.Collapse | spinedb_api/db_mapping_check_mixin.py:837-839 | a dict comprehension keyed by computed keys keeps each distinct key once, at its first slot, with the value of its last occurrence |
| CheckMixin.CollapseDistinct | spinedb_api/db_mapping_check_mixin.py:837-839 | with pairwise different keys the comprehension keeps every key with its own value, in order |
| CheckMixin.DeleteKeys | spinedb_api/db_mapping_check_mixin.py:843-848 | the keys are deleted one by one, stopping at the first one that is not there |
| CheckMixin.RegisterKeys | spinedb_api/db_mapping_check_mixin.py:858-860 | every key is set to the id in its dict |
| CheckMixin.DeleteOwnKeys | spinedb_api/db_mapping_check_mixin.py:843-848 | deleting each key from its own dict, when every key is there, removes exactly those entries and succeeds |
| CheckMixin.RegisterOwnKeys | spinedb_api/db_mapping_check_mixin.py:858-860 | registering each key in its own dict sets exactly those entries |
| CheckMixin.TargetsOfDistinctKeys | spinedb_api/db_mapping_check_mixin.py:837-839 | with pairwise different keys every key lands in its own dict |
| CheckMixin.Fixed | spinedb_api/db_mapping_check_mixin.py:878-896 | _fix_immutable_fields reports at most the type's immutable fields |
| CheckMixin.FixedRestores | spinedb_api/db_mapping_check_mixin.py:878-896 | every immutable field the cached item holds is put back to its cached value, all other fields are left alone, and exactly the fields the update tried to change are reported |
| CheckMixin.CheckSession.FixImmutableFields | spinedb_api/db_mapping_check_mixin.py:878-896 | the field-by-field loop of _fix_immutable_fields computes Fixed, so FixedRestores states what it puts back and reports |
| CheckMixin.RunCheck | spinedb_api/db_mapping_check_mixin.py:100-106 | validation of the type fails exactly when its check function does; every passing item is returned except metadata already known |
| CheckMixin.TypeCheck | spinedb_api/db_mapping_check_mixin.py:727-752 | a passing metadata item has a name and a value |
| CheckMixin.Targets | spinedb_api/db_mapping_check_mixin.py:837-839 | every dict entry _manage_stocks works on refers to one of the item's keys |
| CheckMixin.Locate | spinedb_api/db_mapping_check_mixin.py:823-841 | an update needs an id held in the cache table (else "Missing identifier" or "not found") and is located on the cached item; an insert has no id and is located on the item as given, without the fields make_item would fill or convert; a missing key field is an integrity violation |
| CheckMixin.Inserted | spinedb_api/db_mapping_check_mixin.py:833-860 | an insert keeps one existing-key dict per primary key |
| CheckMixin.Updated | spinedb_api/db_mapping_check_mixin.py:842-862 | an update keeps one existing-key dict per primary key |
| CheckMixin.Step | spinedb_api/db_mapping_check_mixin.py:823-862 | one _manage_stocks call keeps the dicts in step with the primary keys of the type |
| CheckMixin.StocksStepAsWritten | spinedb_api/db_mapping_check_mixin.py:823-862 | _manage_stocks as written keeps the dicts fitting the primary keys |
| CheckMixin.StocksStep | spinedb_api/db_mapping_check_mixin.py:823-862 | the corrected _manage_stocks keeps the dicts fitting the primary keys |
| CheckMixin.Prepare | spinedb_api/db_mapping_check_mixin.py:540-566 | a definition naming both an object and a relationship class is refused; other types go on unchanged; a missing key raises KeyError |
| CheckMixin.Settle | spinedb_api/db_mapping_check_mixin.py:107-110 | an integrity error stops a strict batch and is logged otherwise; any other error stops the batch; a passing item goes on; the dicts are those the step left |
| CheckMixin.AdvanceOne | spinedb_api/db_mapping_check_mixin.py:100-110 | one item of a batch adds at most one item to the passed ones, and a non-strict batch stops only on an error other than an integrity violation |
| CheckMixin.Batch | spinedb_api/db_mapping_check_mixin.py:75-111 | check_<type>s keeps the dicts fitting the primary keys through the whole batch |
| CheckMixin.CheckSession.constructor | spinedb_api/db_mapping_check_mixin.py:87-91 | a new session holds the given dicts and cache table and an empty error log |
| CheckMixin.CheckSession.Register | spinedb_api/db_mapping_check_mixin.py:858-860 | sets every target key to the id, in order, and changes nothing else |
| CheckMixin.CheckSession.Delete | spinedb_api/db_mapping_check_mixin.py:843-848 | deletes the target keys in order, stopping at the first absent one, and changes nothing else |
| CheckMixin.CheckSession.ManageStocks | spinedb_api/db_mapping_check_mixin.py:823-862 | models the corrected code: the session's new dicts, table and log are those of StocksStep, the corrected _manage_stocks (the step as written is StocksStepAsWritten, under Findings); an insert is checked on the item as given, not on the item make_item builds |
| CheckMixin.CheckSession.CheckOne | spinedb_api/db_mapping_check_mixin.py:100-110 | one item of check_<type>s: the new state and the passed items are those AdvanceOne gives |
| CheckMixin.CheckSession.CheckPrepared | spinedb_api/db_mapping_check_mixin.py:101-110 | the handler around _manage_stocks yields what Settle gives |
| CheckMixin.CheckSession.CheckItems | spinedb_api/db_mapping_check_mixin.py:75-111 | check_<type>s over all items yields the state, passed items and stop that Batch gives |
| CheckMixinLemmas.DeleteOwnKeysSucceeds | spinedb_api/db_mapping_check_mixin.py:843-848 | deleting every key from its own dict succeeds exactly when every key is there |
| CheckMixinLemmas.InsertRegistersKeys | spinedb_api/db_mapping_check_mixin.py:833-860 | an insert, taken as given rather than as the item make_item builds, is checked against the dicts as they are; a passing one registers each of its keys without an id and changes nothing else; a failing one changes nothing |
| CheckMixinLemmas.UpdatedChecksWithoutOwnKeys | spinedb_api/db_mapping_check_mixin.py:842-852 | an update is checked against the dicts without the item's keys, with its immutable fields restored and the cached item merged with the given fields |
| CheckMixinLemmas.UpdatedRegistersNewKeys | spinedb_api/db_mapping_check_mixin.py:858-862 | with the correction, a passing update registers the keys the merged item has now, with its id, and stores it in the cache |
| CheckMixinLemmas.UpdateReindexes | spinedb_api/db_mapping_check_mixin.py:823-862 | with the correction, a passing update leaves each dict without the old key and with the new key mapped to the item's id; a failing one leaves the old keys out |
| CheckMixinLemmas.UpdateOfUnindexedItemFails | spinedb_api/db_mapping_check_mixin.py:842-848 | an update of a cached item one of whose keys is not in its dict fails with "<type> not found." |
| CheckMixinLemmas.UpdateNeedsKnownId | spinedb_api/db_mapping_check_mixin.py:824-832 | an update without an id fails with "Missing <type> identifier.", one with an id the cache lacks with "<type> not found.", and nothing changes |
| CheckMixinLemmas.NamedKindsCheckNames | spinedb_api/db_mapping_check_mixin.py:228-257 | the alternative, scenario, value list and tool checks use a key of the name alone, have no immutable fields, and are checks by name |
| CheckMixinLemmas.CheckByName | spinedb_api/check_functions.py:25-41 | a check by name passes exactly when the name is present and not held, returns the item unchanged, and reports the holder of a taken name |
| CheckMixinLemmas.PassedNameIsTaken | spinedb_api/db_mapping_check_mixin.py:858-860 | once an item passes a check by name, its name as it now is is held in the dict with the id it was registered with |
| CheckMixinLemmas.LaterInsertOfTakenNameRejected | spinedb_api/db_mapping_check_mixin.py:833-860 | after an item passes a check by name, a later insert in the same batch with that name is rejected naming the first one's id |
| CheckMixinLemmas.RenameToTakenNameRejected | spinedb_api/db_mapping_check_mixin.py:842-852 | an update renaming an indexed item to a name another item holds is rejected, naming that holder |
| CheckMixinLemmas.LaterRenameToTakenNameRejected | spinedb_api/db_mapping_check_mixin.py:823-862 | with the correction, after one item passes a check by name, a later update renaming another item to the same name is rejected |
| CheckMixinLemmas.LenientBatchRaisesNoIntegrityError | spinedb_api/db_mapping_check_mixin.py:107-110 | a batch that is not strict logs every integrity error; only other errors escape it |
| CheckMixinLemmas.BatchReturnsPassedInOrder | spinedb_api/db_mapping_check_mixin.py:100-111 | a batch returns the items passed before it followed by at most one item per item checked, in order |
| CheckMixinLemmas.MetadataReturnedWhenNew | spinedb_api/db_mapping_check_mixin.py:745-752 | inserted metadata with a name and a value passes, and is returned exactly when its (name, value) is not yet known |
| CheckMixinLemmas.UpdateReregistersOldKeysAsWritten | spinedb_api/db_mapping_check_mixin.py:836-860 | as written, a passing update puts back the keys the item had BEFORE the update, with its id |
| CheckMixinLemmas.UpdatedRegistersOldKeys | spinedb_api/db_mapping_check_mixin.py:858-860 | as written, on the located item, a passing check puts each old key back with the item's id |
| CheckMixinLemmas.RenameAsWritten | spinedb_api/db_mapping_check_mixin.py:836-860 | as written, renaming an indexed item to a free name passes and the dict keeps the OLD name, now with the item's id, and does not get the new one |
| CheckMixinLemmas.RenameTwiceAsWritten | spinedb_api/db_mapping_check_mixin.py:836-860 | as written, a batch renaming two items to the same new name passes both updates, leaving two items with that name |
| CheckMixinLemmas.ScenarioAlternativeKeys | spinedb_api/db_mapping_check_mixin.py:316 | the two keys of a scenario alternative are (scenario, alternative) and (scenario, rank) |
| CheckMixinLemmas.EqualPairCollapses | spinedb_api/db_mapping_check_mixin.py:837-839 | two equal keys collapse into one entry, in the dict of the later primary key |
| CheckMixinLemmas.EqualKeysCollapseAsWritten | spinedb_api/db_mapping_check_mixin.py:837-848 | as written, a scenario alternative whose alternative id equals its rank has one dict entry for both keys, so an update leaving its key fields alone is rejected as a duplicate of itself |
| CheckMixinLemmas.UpdatedKeepingKeysKeepsIndex | spinedb_api/db_mapping_check_mixin.py:842-862 | a passing update that leaves every key as it was leaves the dicts as they were |
| CheckMixinLemmas.LocatedScenarioAlternative | spinedb_api/db_mapping_check_mixin.py:823-841 | an update of an indexed scenario alternative that leaves its key fields alone is located with the cached item's two keys |
| CheckMixinLemmas.EqualKeysKeptApart | spinedb_api/db_mapping_check_mixin.py:842-852 | with each key in its own dict, that update is checked against dicts that hold neither of the item's keys |
| CheckMixinLemmas.UnchangedKeysStayIndexed | spinedb_api/db_mapping_check_mixin.py:858-862 | with each key in its own dict, a passing update that leaves its key fields alone leaves the dicts as they were |
| CheckMixinLemmas.EqualKeysPass | spinedb_api/db_mapping_check_mixin.py:823-862 | the scenario alternative the code as written rejects as a duplicate of itself passes when each key stays in its own dict |
| MappingBase.Ancestors | spinedb_api/db_mapping_base.py:237-269 | every ancestor table of a table is an item table of lower rank, so the ancestor relation has no cycle |
| MappingBase.Children | spinedb_api/db_mapping_base.py:308-323 | every child table is lower than its parent in the child map, so the recursion of _descendant_tablenames ends |
| MappingBase.DescendantsLower | spinedb_api/db_mapping_base.py:307-328 | every descendant is lower than its ancestor, so no table is its own descendant |
| MappingBase.DescendantsClosed | spinedb_api/db_mapping_base.py:324-328 | the children of a table are its descendants, and so are all of their descendants |
| MappingBase.DescendantsOnlyThrough | spinedb_api/db_mapping_base.py:324-328 | nothing else is yielded: a descendant is a child or a descendant of a child |
| MappingBase.SomeReady | spinedb_api/db_mapping_base.py:333-339 | while the queue and the placed tables hold every ancestor of the queued ones, some queued table is ready to be placed |
| MappingBase.Place | spinedb_api/db_mapping_base.py:336-337 | placing a ready head keeps the loop invariant of sorted_tablenames |
| MappingBase.Rotate | spinedb_api/db_mapping_base.py:338-339 | moving a head that is not ready to the back keeps the invariant and brings a ready table closer to the head, so the loop ends |
| MappingBase.RotationOrder | spinedb_api/db_mapping_base.py:330-340 | the queue rotation returns a permutation of the tables in which every table comes after all of its ancestors |
| MappingBase.ItemTypesClosed | spinedb_api/db_mapping_base.py:62-82 | ITEM_TYPES holds the ancestors of each of its tables |
| MappingBase.SortedTablenames | spinedb_api/db_mapping_base.py:330-340 | sorted_tablenames returns ITEM_TYPES reordered so that each table comes after all of its ancestor tables |
| MappingBase.PrimaryKey | spinedb_api/db_mapping_base.py:2012-2017 | the two relationship_entity tables are keyed by their id column and "dimension", every other table by its id column alone |
| MappingBase.CheckCommit | spinedb_api/db_mapping_base.py:348-357 | a commit is possible exactly when changes are pending and the message is non-empty; "Nothing to commit." is checked first |
| MappingBase.UsesPositive | spinedb_api/db_mapping_base.py:2143-2146 | a metadata id is used exactly when some link points to it |
| MappingBase.CountUses | spinedb_api/db_mapping_base.py:2143-2146 | the counting loop adds to each id's count the number of links pointing to it, and only used ids become keys |
| MappingBase.MetadataUsageCounts | spinedb_api/db_mapping_base.py:2133-2147 | each metadata id's count is the number of entity_metadata and parameter_value_metadata rows pointing to it, and only ids in use are keys |
| MappingBase.Mapping.constructor | spinedb_api/db_mapping_base.py:84-276 | a new mapping is committing, has run no cache query, holds no filled table cache and no built subquery |
| MappingBase.Mapping.AdvanceCacheQuery | spinedb_api/db_mapping_base.py:2052-2055 | running a table's cache query fills that table's cache and changes nothing else |
| MappingBase.Mapping.MakeCache | spinedb_api/db_mapping_base.py:2028-2041 | make_cache runs the cache query once for each table CacheTables lists and nothing else |
| MappingBase.Mapping.ClearSubqueries | spinedb_api/db_mapping_base.py:496-510 | a non-empty table cache is dropped and refetched, and exactly the subquery attributes involving the table are dropped |
| MappingBase.Mapping.SetMaker | spinedb_api/db_mapping_base.py:1885-1894 | swapping a maker drops every subquery involving its table, so every remaining subquery is what the current makers build |
| MappingBase.Mapping.OverrideMaker | spinedb_api/db_mapping_base.py:1885-1894 | override_*_sq_maker installs the custom maker and drops the subqueries involving the table |
| MappingBase.Mapping.RestoreMaker | spinedb_api/db_mapping_base.py:1896-1899 | restore_*_sq_maker puts the class's own maker back and drops the subqueries involving the table |
| MappingBase.Mapping.GetSubquery | spinedb_api/db_mapping_base.py:555-559 | a subquery property builds the subquery when it is None and keeps it; what it returns is always what the current makers build |
| MappingBase.Mapping.OverrideCommitting | spinedb_api/db_mapping_base.py:298-305 | the body runs with the new committing flag, its result (error included) is passed on, and the old flag is back afterwards |
| MappingBase.DescendantsOf | spinedb_api/db_mapping_base.py:2029-2032 | the descendants of a set of tables are those of its cacheable members |
| MappingBase.AncestorsOf | spinedb_api/db_mapping_base.py:2033-2036 | the direct ancestors of a set of tables, with a table missing from the dict having none |
| MappingBase.CacheTablesCover | spinedb_api/db_mapping_base.py:2028-2040 | make_cache loads every cacheable requested or forced table, their descendants when asked, the direct ancestors of those when asked, and nothing else |
| RemoveMixin.Referring | spinedb_api/db_mapping_remove_mixin.py:142 | the rows of the child table whose reference field (or any element of a list field) is one of the ids, and only those |
| RemoveMixin.Selected | spinedb_api/db_mapping_remove_mixin.py:159-164 | the rows a cascade picks through any of its reference fields include those each field picks, and are rows of the child table |
| RemoveMixin.Own | spinedb_api/db_mapping_remove_mixin.py:158 | a cascade lists the requested ids under its own table and under the entity tables it stands for, never under metadata |
| RemoveMixin.MetadataCalls | spinedb_api/db_mapping_remove_mixin.py:258-270 | the metadata cascade only looks up the entity_metadata and parameter_value_metadata links to the metadata it removes |
| RemoveMixin.CallsLevels | spinedb_api/db_mapping_remove_mixin.py:118-270 | each per-table cascade only calls cascades of shallower tables, so the mutual recursion ends |
| RemoveMixin.CallsKinds | spinedb_api/db_mapping_remove_mixin.py:199-294 | only the cascades of item types have steps, and only metadata's steps are plain look-ups |
| RemoveMixin.MergedOf | spinedb_api/db_mapping_remove_mixin.py:114-116 | _merge is a per-table union: each table of either side maps to the union of both sides' ids, left's tables keep their order and right's new tables follow |
| RemoveMixin.Merge | spinedb_api/db_mapping_remove_mixin.py:114-116 | the _merge loop updates left table by table into Merged(left, right) |
| RemoveMixin.OrphansExact | spinedb_api/db_mapping_remove_mixin.py:272-280 | with the correction, a link removal orphans exactly the metadata whose valid links are all among the removed ones |
| RemoveMixin.CountedUsed | spinedb_api/db_mapping_remove_mixin.py:273 | with the correction, every key of the usage counter is the metadata of some valid link |
| RemoveMixin.UsedCounted | spinedb_api/db_mapping_remove_mixin.py:273 | with the correction, the metadata of every valid link is a key of the usage counter |
| RemoveMixin.Steps | spinedb_api/db_mapping_remove_mixin.py:118-154 | a cascade has one step per call it makes, in the order it makes them |
| RemoveMixin.CascadeWf | spinedb_api/db_mapping_remove_mixin.py:118-294 | a per-table cascade is a well-formed dict that lists the requested ids under each table it stands for |
| RemoveMixin.StepWf | spinedb_api/db_mapping_remove_mixin.py:142-153 | one step is a well-formed dict that lists the rows it picks under its target table |
| RemoveMixin.CascadeCovers | spinedb_api/db_mapping_remove_mixin.py:118-294 | a per-table cascade lists the rows each of its steps picks under that step's table |
| RemoveMixin.CascadeBelow | spinedb_api/db_mapping_remove_mixin.py:118-294 | a per-table cascade lists nothing outside the tables below its table |
| RemoveMixin.StepBelow | spinedb_api/db_mapping_remove_mixin.py:142-153 | one step lists nothing outside the tables it reaches |
| RemoveMixin.CascadeClosed | spinedb_api/db_mapping_remove_mixin.py:118-294 | with the correction, a per-table cascade leaves no valid row referring to a listed id unlisted |
| RemoveMixin.OrphansClosed | spinedb_api/db_mapping_remove_mixin.py:282-294 | with the correction, the metadata a link cascade orphans has no valid link outside the removed ones |
| RemoveMixin.LinkCascadeOf | spinedb_api/db_mapping_remove_mixin.py:282-294 | a link cascade lists the requested links under their table and the orphaned metadata under metadata |
| RemoveMixin.OrphanUser | spinedb_api/db_mapping_remove_mixin.py:272-280 | with the correction, a valid link to an orphaned metadata is one of the removed links |
| RemoveMixin.StaleLinkOrphansUsedMetadata | spinedb_api/db_mapping_remove_mixin.py:272-280 | as written, removing an already removed entity_metadata link again orphans metadata that a valid link still uses, leaving that link dangling |
| RemoveMixin.StaleLinkKeepsUsedMetadata | spinedb_api/db_mapping_remove_mixin.py:272-280 | with the correction, the same removal keeps the metadata the valid link still uses |
| RemoveMixin.RequestedKnown | spinedb_api/db_mapping_remove_mixin.py:81-101 | when every requested link is in the cache, each per-table cascade finds all of its links |
| RemoveMixin.GatheredWf | spinedb_api/db_mapping_remove_mixin.py:80-101 | the merged cascades form a well-formed dict with every table of the order as a key and every requested id under its table |
| RemoveMixin.GatheredClosed | spinedb_api/db_mapping_remove_mixin.py:80-101 | the merged cascades leave no valid row referring to a listed id unlisted |
| RemoveMixin.CascadeOrderCoversItemTypes | spinedb_api/db_mapping_remove_mixin.py:81-101 | every item type has its per-table cascade in cascading_ids |
| RemoveMixin.GatheredKeysClosed | spinedb_api/db_mapping_remove_mixin.py:80-101 | the merged tables hold the ancestor tables of each of their tables, so the reordering loop ends |
| RemoveMixin.MissingLink | spinedb_api/db_mapping_remove_mixin.py:276-277 | the first requested link missing from its table, if any, which raises KeyError |
| RemoveMixin.CascadeOrderKeysClosed | spinedb_api/db_mapping_remove_mixin.py:80-101 | the tables cascading_ids gathers hold the ancestors of each of their tables |
| RemoveMixin.GatherIds | spinedb_api/db_mapping_remove_mixin.py:80-101 | the merging loop of cascading_ids computes Gathered over the cascade order |
| RemoveMixin.CascadingIds | spinedb_api/db_mapping_remove_mixin.py:62-111 | cascading_ids raises KeyError exactly when a requested link is not cached, and otherwise returns the merged ids with the tables reordered so that each comes after its ancestors |
| RemoveMixin.CascadingIdsComplete | spinedb_api/db_mapping_remove_mixin.py:62-111 | cascading_ids lists every requested id under its own table and leaves no valid row referring to a listed id unlisted |
| MappingRemove.RemoveCached | spinedb_api/db_mapping_remove_mixin.py:55-56 | each cached id of the table is removed from the cache in cascade |
| MappingRemove.RemoveFromTable | spinedb_api/db_mapping_remove_mixin.py:46-56 | one table loses the rows of its ids and, when it has a cache, their cached items are removed in cascade |
| MappingRemove.RemoveItems | spinedb_api/db_mapping_remove_mixin.py:37-59 | when not committing nothing changes; otherwise every table loses exactly the rows of its ids and, when it has a cache, their cached items are removed in cascade |
| MappingRemove.RemoveFromTables | spinedb_api/db_mapping_remove_mixin.py:46-56 | the loop over the tables removes the rows of every table's ids and the cached items of every cached table |
| MappingRemove.RowsRemovedStep | spinedb_api/db_mapping_remove_mixin.py:46-53 | handling one more table keeps the loop invariant of the rows |
| MappingRemove.RemovedAllStep | spinedb_api/db_mapping_remove_mixin.py:54-56 | handling one more table keeps the loop invariant of the cache |
| CacheItems.ToInt | spinedb_api/db_cache.py:400 | int(v) keeps an int, reads a decimal string (ValueError otherwise) and raises TypeError on None or a tuple |
| CacheItems.ToIntOfString | spinedb_api/db_cache.py:400 | int(str(i)) == i on the field value |
| CacheItems.ParseInts | spinedb_api/db_cache.py:297 | each comma-separated piece is read with int(), in order, and all of them succeed exactly when every piece is an integer |
| CacheItems.IdList | spinedb_api/db_cache.py:294-298 | a string id list is split at the commas and each piece read as an int; a tuple is kept; anything else is a TypeError |
| CacheItems.IdListOfText | spinedb_api/db_cache.py:296-298 | a non-empty id list stored as "1,2,3" text parses back to the same ids |
| CacheItems.EmptyIdTextFails | spinedb_api/db_cache.py:296-297 | the empty string is one empty piece, which int() rejects |
| CacheItems.WithEntityClass | spinedb_api/db_cache.py:338-341 | without an entity_class_id the object class id stands in, or the relationship class id when that is falsy; every other field is kept |
| CacheItems.WithListValueId | spinedb_api/db_cache.py:399-400 | a None list_value_id becomes the int of the value when the type is "list_value_ref" and None otherwise; a set one is kept; every other field is kept |
| CacheItems.WithEntityId | spinedb_api/db_cache.py:397-398 | without an entity_id the object id stands in, or the relationship id when that is falsy |
| CacheItems.ParameterValueFields | spinedb_api/db_cache.py:395-401 | ParameterValueItem's constructor applies the entity_id default, the list_value_id rule on value and type, then the entity class default |
| CacheItems.ParameterDefinitionFields | spinedb_api/db_cache.py:373-379 | ParameterDefinitionItem's constructor applies the list_value_id rule on default_value and default_type, then the entity class default |
| CacheItems.ListValueRefRead | spinedb_api/db_cache.py:399-400 | a value stored as a list-value reference gets that id back as its list_value_id |
| CacheItems.ObjectClassIdListFields | spinedb_api/db_cache.py:294-299 | object_class_id_list must be given (KeyError otherwise) and becomes a tuple of ints |
| CacheItems.RelationshipFields | spinedb_api/db_cache.py:315-324 | a relationship without object classes takes them from its cached class (the class_id must be given); object_id_list, empty when missing, becomes a tuple of ints; other fields are kept |
| CacheItems.SortByRankFacts | spinedb_api/db_cache.py:465-468 | sorted(..., key=rank) is ordered by rank, keeps every element, and keeps the table order of equal ranks (a stable sort) |
| CacheItems.OfScenario | spinedb_api/db_cache.py:466 | the scenario alternatives of one scenario are exactly those of the table with that scenario id |
| CacheItems.SortedRanksDistinct | spinedb_api/db_cache.py:465-468 | sorting keeps the ranks pairwise different |
| CacheItems.AlternativeIdListAtRank | spinedb_api/db_cache.py:473-474 | with ranks 1..n in the scenario, position k of alternative_id_list is the alternative of rank k + 1 |
| CacheItems.SortedPositions | spinedb_api/db_cache.py:465-468 | sorting a scenario's alternatives with ranks 1..n puts rank k + 1 at position k |
| CacheItems.PyIndex | spinedb_api/db_cache.py:493-495 | Python indexing: a negative index counts from the end, out of range is the IndexError (None) |
| CacheItems.BeforeAlternativeId | spinedb_api/db_cache.py:486-495 | before_alternative_id is entry rank of the scenario's alternative_id_list, None past the end; a missing scenario raises KeyError |
| CacheItems.BeforeIsNextRanked | spinedb_api/db_cache.py:486-495 | with ranks 1..n, a scenario alternative comes before the alternative ranked just after it |
| CacheItems.LastIsBeforeNothing | spinedb_api/db_cache.py:492-495 | with ranks 1..n, the last-ranked alternative comes before nothing |
| DbCache.NewItem | spinedb_api/db_cache.py:121-137 | a new cache item carries the given fields, no referrers, no removed, corrupted or to-remove flag and no cached validity |
| DbCache.Marked | spinedb_api/db_cache.py:235-240 | cascade_remove sets the removed flag, clears the to-remove flag and the cached validity, and keeps the fields and both referrer sets |
| DbCache.Unmarked | spinedb_api/db_cache.py:222-225 | cascade_readd clears the removed flag and keeps the fields and both referrer sets |
| DbCache.Flipped | spinedb_api/db_cache.py:222-240 | a cascade step sets the removed flag to its target and changes neither fields nor referrers |
| DbCache.FlipStart | spinedb_api/db_cache.py:235-240 | flipping the item itself starts the cascade: only it changed, and only its flag |
| DbCache.FlipStep | spinedb_api/db_cache.py:245-246 | flipping one strong referrer in cascade keeps the cascade invariant: only flags changed, toward the target, and every newly flipped item has its strong referrers flipped or pending |
| DbCache.FlipEnd | spinedb_api/db_cache.py:245-246 | once every strong referrer is flipped, the set of newly flipped items is closed under strong referrers |
| DbCache.WithReferrer | spinedb_api/db_cache.py:211-214 | add_referrer makes the referrer strong and takes it out of the weak referrers, and keeps the two sets disjoint |
| DbCache.WithWeakReferrer | spinedb_api/db_cache.py:216-220 | add_weak_referrer adds a weak referrer unless it is strong already, and keeps the two sets disjoint |
| DbCache.ReferrerPromotion | spinedb_api/db_cache.py:211-220 | weak then strong and strong then weak both leave the referrer strong only |
| DbCache.FlippedConsistent | spinedb_api/db_cache.py:235-248 | a cascade that only flips removed flags keeps the cache's referrer bookkeeping consistent |
| DbCache.LoadedFacts | spinedb_api/db_mapping_base.py:2052-2055 | loading a table adds exactly the keys of its rows, with the items made from the rows, and leaves every other item alone |
| DbCache.LoadedConsistent | spinedb_api/db_mapping_base.py:2052-2055 | loading a table with no cached item from fresh rows keeps the cache consistent and every earlier item as it was |
| DbCache.LoadedValid | spinedb_api/db_mapping_base.py:2043-2055 | loading a table not loaded yet keeps the cache consistent and adds keys of that table only |
| DbCache.LoadedGrown | spinedb_api/db_mapping_base.py:2043-2055 | loading a table not loaded yet only adds items and table names |
| DbCache.MakeFields | spinedb_api/db_cache.py:52-77 | make_item picks the item class by table: parameter values, definitions, relationship classes and relationships fill in their derived fields, every other table keeps its fields |
| DbCache.DBCache.constructor | spinedb_api/db_cache.py:22-31 | a new cache holds no table and no item and keeps the query it is given |
| DbCache.DBCache.TableCache | spinedb_api/db_cache.py:33-34 | table_cache adds the table name if missing and changes no item |
| DbCache.DBCache.GetItem | spinedb_api/db_cache.py:36-39 | get_item finds the item exactly when the key is cached, and returns that item |
| DbCache.DBCache.AddItem | spinedb_api/db_cache.py:94-100 | with keep_existing a cached item is returned unchanged; otherwise the made item is cached under the id, replacing any other |
| DbCache.DBCache.UpdateItem | spinedb_api/db_cache.py:102-104 | update_item fails with a KeyError exactly when the id is not cached, and otherwise overwrites the item's fields with the given ones |
| DbCache.DBCache.RemoveItem | spinedb_api/db_cache.py:107-111 | remove_item returns the item exactly when it is cached, removed in cascade with every strong referrer, and changes nothing but removed flags |
| DbCache.DBCache.AddReferrer | spinedb_api/db_cache.py:211-214 | a referrer without a key is ignored; otherwise it is recorded as strong |
| DbCache.DBCache.AddWeakReferrer | spinedb_api/db_cache.py:216-220 | a referrer without a key, or one already strong, changes nothing; otherwise it is recorded as weak |
| DbCache.DBCache.LoadTable | spinedb_api/db_mapping_base.py:2052-2055 | the table's query result is added to the cache and the table is marked loaded; earlier items keep their state |
| DbCache.DBCache.AdvanceQuery | spinedb_api/db_mapping_base.py:2043-2050 | the query advances exactly when the table was not loaded yet, loading it; a second call changes nothing |
| DbCache.DBCache.FetchRef | spinedb_api/db_cache.py:41-50 | fetch_ref finds the item exactly when it was cached or the table's query, run if it had not been, brings it in |
| DbCache.DBCache.ResolveStrong | spinedb_api/db_cache.py:163-183 | a strong reference not found, even after fetching, corrupts the item; a found one records the item as strong referrer and marks it to remove if the reference is removed |
| DbCache.DBCache.FetchMissing | spinedb_api/db_cache.py:164-168 | fetching a missing reference only loads its table and leaves the referring item as it was |
| DbCache.DBCache.ResolveWeak | spinedb_api/db_cache.py:163-183 | a weak reference is found exactly when it is cached and not removed, is never fetched, and records the item as weak referrer |
| DbCache.DBCache.ResolveRefs | spinedb_api/db_cache.py:199-202 | after resolving all references the item is corrupted exactly when one is missing, to be removed exactly when one is removed, and a strong referrer of each one found |
| DbCache.DBCache.IsValid | spinedb_api/db_cache.py:194-206 | a cached verdict is returned as it is; a removed or corrupted item is invalid; otherwise the item is valid exactly when every reference is found and not removed, and the verdict is cached |
| DbCache.DBCache.Values | spinedb_api/db_cache.py:91-92 | values yields each item of the table at most once, exactly those still valid, and every item of the table left out ends invalid |
| DbCache.DBCache.CascadeRemove | spinedb_api/db_cache.py:235-248 | a removed item is left alone; otherwise it and, in cascade, every strong referrer are marked removed and nothing else changes |
| DbCache.DBCache.CascadeReadd | spinedb_api/db_cache.py:222-233 | only a removed item is touched; it and, in cascade, every strong referrer are unmarked and nothing else changes |
| DbCache.RefsByPosition | spinedb_api/db_cache.py:199-202 | the per-position loop facts of resolving references give the same facts over the reference set |
| DbCache.ResolvedStep | spinedb_api/db_cache.py:201-202 | resolving one more reference keeps the corrupted and to-remove flags equal to "some reference so far is missing" and "some is removed" |
| DbCache.ValidOutcome | spinedb_api/db_cache.py:203-205 | after the references are resolved, the item stands exactly when every reference is cached and not removed |
| DbCache.ValidSet | spinedb_api/db_cache.py:205 | caching the verdict keeps the cache consistent and changes no removed flag |
| DbCache.DBCache.ValidateRefs | spinedb_api/db_cache.py:199-206 | the verdict is stored and is true exactly when every reference is cached and not removed; each cached reference records the item as a referrer; earlier verdicts and flags stay as they were |
| DbCache.DBCache.ResolveAndCascade | spinedb_api/db_cache.py:199-204 | after resolving the references (and cascading a removal), the item is neither removed nor corrupted exactly when every reference is cached and not removed |
| AddMixin.MaxId | spinedb_api/db_mapping_add_mixin.py:109-112 | the largest integer id in the table's rows, bounding every one of them, and None exactly when there is none |
| AddMixin.FirstFree | spinedb_api/db_mapping_add_mixin.py:113 | the first id to hand out lies above the maximum id, if any |
| AddMixin.Reservation | spinedb_api/db_mapping_add_mixin.py:78-116 | a table without a next-id field fails with KeyError; otherwise the stored counter (or the first free id) starts the range and the counter moves on by count |
| AddMixin.ReservedAboveExisting | spinedb_api/db_mapping_add_mixin.py:108-116 | without a stored counter every reserved id lies above every id already in the table |
| AddMixin.ReservationsAdjacent | spinedb_api/db_mapping_add_mixin.py:79-116 | two reservations on tables sharing a counter hand out adjacent ranges, so no id is handed out twice |
| AddMixin.Stamped | spinedb_api/db_mapping_add_mixin.py:67-70 | each item gets the commit id and the next id of the range, in order, and keeps its other fields |
| AddMixin.Range | spinedb_api/db_mapping_add_mixin.py:116 | the reserved range holds exactly start to start + n - 1 |
| AddMixin.StampedIds | spinedb_api/db_mapping_add_mixin.py:66-70 | the stamped items carry exactly the reserved ids |
| AddMixin.StampedDistinct | spinedb_api/db_mapping_add_mixin.py:66-70 | no two stamped items share an id |
| AddMixin.WithTypeId | spinedb_api/db_mapping_base.py:2057-2069 | items of the four entity tables get the table's type id and keep their ids; other tables' items are left alone |
| AddMixin.DefinitionRow | spinedb_api/db_mapping_add_mixin.py:265-269 | a parameter definition's entity_class_id is the first truthy of object_class_id, relationship_class_id and entity_class_id; other fields are kept |
| AddMixin.ValueRow | spinedb_api/db_mapping_add_mixin.py:271-276 | a parameter value's entity_id and entity_class_id are each the first truthy of the object, relationship and entity fields; other fields are kept |
| AddMixin.FirstBatch | spinedb_api/db_mapping_add_mixin.py:225-279 | the first batch has one row per item |
| AddMixin.SubtypeRows | spinedb_api/db_mapping_add_mixin.py:225-264 | the subtype batch of an entity table has one row per item |
| AddMixin.PerTable | spinedb_api/db_mapping_add_mixin.py:213-279 | the batches go to the table's physical tables in their insertion order, the first batch being the items themselves |
| AddMixin.WrittenTypeId | spinedb_api/db_mapping_add_mixin.py:200-203 | when committing every item of an entity table is written with the type id; when not, nothing is touched |
| AddMixin.SplitKeepsIds | spinedb_api/db_mapping_add_mixin.py:225-264 | an entity class or entity keeps one id across its entity row and its subtype row |
| AddMixin.SubtypeRowsType | spinedb_api/db_mapping_add_mixin.py:229-256 | subtype rows carry the mapping's type id, and an object's row its own type_id |
| AddMixin.InsertAllRows | spinedb_api/db_mapping_add_mixin.py:205-208 | each table ends with its old rows followed by every batch meant for it, in order |
| AddMixin.BatchOfOther | spinedb_api/db_mapping_add_mixin.py:205-208 | a table outside the split receives no row |
| AddMixin.AddCommitIdAndIds | spinedb_api/db_mapping_add_mixin.py:63-70 | no items change nothing; otherwise ids are reserved and stamped on the items in order, with nothing else in the mapping changed |
| AddMixin.DoReserveIds | spinedb_api/db_mapping_add_mixin.py:78-116 | the reservation is read from the next-id row and the advanced counter written back; on a KeyError the row is unchanged |
| AddMixin.Written | spinedb_api/db_mapping_add_mixin.py:200-203 | the written items are as many as the given ones |
| AddMixin.DoAddItems | spinedb_api/db_mapping_add_mixin.py:200-211 | nothing is written when not committing; otherwise each batch of the split is appended to its diff table and the split's tables are reported |
| AddMixin.PerTableTables | spinedb_api/db_mapping_add_mixin.py:213-279 | the batches are for exactly the tables of the split, in order |
| AddMixin.TablesOf | spinedb_api/db_mapping_add_mixin.py:205-208 | the tables reported are those of the batches, in order |
| AddMixin.InsertBatches | spinedb_api/db_mapping_add_mixin.py:205-208 | each batch is appended to its diff table and its table reported, nothing else changes |
| AddMixin.AddedTo | spinedb_api/diff_db_mapping.py:63-64 | the ids join the added set of each written table and of no other |
| AddMixin.RecordAdded | spinedb_api/diff_db_mapping.py:63-65 | the ids are recorded as added for the written tables and exactly their subqueries are cleared |
| AddMixin.AddItemsStaged | spinedb_api/diff_db_mapping.py:60-66 | empty input adds nothing; a table without a next-id field fails; otherwise the items get the reserved ids, are written to the diff tables and their ids recorded as added, so they show in each table's view |
| AddMixin.ReaddItems | spinedb_api/diff_db_mapping.py:68-72 | items are written as given, without new ids, and their ids recorded as added |
| AddMixin.AddItems | spinedb_api/db_mapping_add_mixin.py:124-167 | readd writes the items as given and returns them or their ids; with check a strict violation adds nothing; otherwise the passing items are added and returned, or their ids, plus the ids of duplicates when asked |
| AddMixin.MetadataIds | spinedb_api/db_mapping_add_mixin.py:339-341 | every cached metadata (name, value) is indexed, each to the id of a cached entry with that pair |
| AddMixin.PlanOf | spinedb_api/db_mapping_add_mixin.py:344-351 | the first pass keeps one item for each given item |
| AddMixin.PlanItems | spinedb_api/db_mapping_add_mixin.py:344-351 | the loop computes the first pass over the items |
| AddMixin.PlanItemsReuse | spinedb_api/db_mapping_add_mixin.py:350-351 | an item naming a cached pair gets that pair's id and nothing else; the others are left unchanged |
| AddMixin.PlanAddsMissing | spinedb_api/db_mapping_add_mixin.py:347-348 | a metadata row is planned for each item naming a missing pair, and for no other |
| AddMixin.PlanWaiting | spinedb_api/db_mapping_add_mixin.py:349 | the waiting dictionary holds exactly the missing pairs, each with the last item naming it |
| AddMixin.AssignAsWritten | spinedb_api/db_mapping_add_mixin.py:362-364 | the second pass succeeds exactly when every waiting pair has a new id, linking only the remembered item of each pair |
| AddMixin.Assign | spinedb_api/db_mapping_add_mixin.py:362-364 | the second pass succeeds exactly when every waiting pair has a new id, linking every item that names a missing pair |
| AddMixin.NewIds | spinedb_api/db_mapping_add_mixin.py:359-361 | every added metadata row with an integer id is indexed by its (name, value) |
| AddMixin.EveryItemLinked | spinedb_api/db_mapping_add_mixin.py:338-365 | once every missing pair has a new id, every item is linked to the cached id of its pair or to the new one |
| AddMixin.SharedNewPairAsWritten | spinedb_api/db_mapping_add_mixin.py:349 | two items naming the same new pair: only the second gets a metadata id |
| AddMixin.GetOrAddMetadataIds | spinedb_api/db_mapping_add_mixin.py:338-365 | models the corrected code, whose second pass is Assign (the pass as written is AssignAsWritten, under Findings): the missing pairs are added; on errors the added rows and errors are returned and items keep only reused ids, otherwise every item is linked |
| UpdateMixin.RealTable | spinedb_api/db_mapping_update_mixin.py:36-41 | object and relationship classes are updated in entity_class, objects and relationships in entity, every other type in its own table |
| UpdateMixin.TypedKeepsRowId | spinedb_api/db_mapping_update_mixin.py:42-43 | stamping the type id keeps each item's key in its physical table |
| UpdateMixin.UpdateItems | spinedb_api/db_mapping_update_mixin.py:30-43 | no items update nothing; relationships go to the wide update; other items are typed and staged in their physical table only, and their ids are reported |
| UpdateMixin.WithCommit | spinedb_api/db_mapping_update_mixin.py:26-28 | every item gets the commit id and keeps its other fields |
| UpdateMixin.IdVals | spinedb_api/db_mapping_update_mixin.py:58 | the id set is exactly the items' ids, and a KeyError when an item has none |
| UpdateMixin.DoUpdateItemsDirect | spinedb_api/db_mapping_update_mixin.py:45-58 | when committing the table's rows are updated by the commit-stamped items on their primary key, other tables are untouched; the ids are returned in any case |
| UpdateMixin.MissingKey | spinedb_api/db_mapping_update_mixin.py:132-141 | the first key a relationship lacks, in reading order, and none exactly when it has them all |
| UpdateMixin.EntityRow | spinedb_api/db_mapping_update_mixin.py:134-139 | the entity row of a relationship keeps its id |
| UpdateMixin.DimensionRows | spinedb_api/db_mapping_update_mixin.py:143-152 | one relationship_entity row per dimension, pairing class ids with object ids by position up to the shorter list |
| UpdateMixin.FirstIncomplete | spinedb_api/db_mapping_update_mixin.py:131-141 | the position of the first relationship lacking a key: all before it are complete |
| UpdateMixin.AllDimensionRows | spinedb_api/db_mapping_update_mixin.py:143-152 | every dimension row of every relationship is there, each with id None |
| UpdateMixin.WideRows | spinedb_api/db_mapping_update_mixin.py:128-152 | all rows are built exactly when every relationship is complete, one entity row per relationship; otherwise the KeyError of a key the first incomplete one lacks |
| UpdateMixin.TypedComplete | spinedb_api/db_mapping_update_mixin.py:128 | the type id keeps each relationship complete or incomplete |
| UpdateMixin.SameIds | spinedb_api/db_mapping_update_mixin.py:153-155 | rows carrying the items' ids position by position give the items' id set |
| UpdateMixin.WriteWideRows | spinedb_api/db_mapping_update_mixin.py:153-155 | the entity rows update entity, the dimension rows (if any) relationship_entity, nothing else changes, and the entity ids are returned |
| UpdateMixin.UpdateWideRelationshipsDirect | spinedb_api/db_mapping_update_mixin.py:127-155 | a KeyError with nothing written exactly when a relationship lacks a key; otherwise the returned ids are exactly the relationships' ids |
| UpdateMixin.IdValsTyped | spinedb_api/db_mapping_update_mixin.py:42-43 | stamping the type id keeps the items' ids |
| UpdateMixin.UpdateItemsDirect | spinedb_api/db_mapping_update_mixin.py:30-58 | no items change nothing; relationships fail exactly when one is incomplete; other types report their ids and change only their physical table |
| UpdateMixin.Ranked | spinedb_api/db_mapping_update_mixin.py:346-348 | one row per alternative in list order, ranked 1, 2, ... |
| UpdateMixin.RowIdsOf | spinedb_api/db_mapping_update_mixin.py:349-350 | the row ids are found exactly when every (scenario, alternative) pair has a row |
| UpdateMixin.RankedPrefix | spinedb_api/db_mapping_update_mixin.py:346-348 | ranking one more alternative appends exactly its row |
| UpdateMixin.RowIdsErrSticks | spinedb_api/db_mapping_update_mixin.py:349-350 | the first missing pair decides the KeyError |
| UpdateMixin.ToRemoveErrSticks | spinedb_api/db_mapping_update_mixin.py:342-350 | the first unknown scenario or pair decides the KeyError |
| UpdateMixin.ToAddRows | spinedb_api/db_mapping_update_mixin.py:342-348 | a row is to be added exactly when it ranks an alternative of a wide scenario by its position |
| UpdateMixin.RowIdsOfValues | spinedb_api/db_mapping_update_mixin.py:349-350 | the ids to remove for a scenario are exactly the rows of its current pairs |
| UpdateMixin.ToRemoveRows | spinedb_api/db_mapping_update_mixin.py:336-350 | the ids to remove are found exactly when every scenario is known and each current pair has a row, and they are those rows |
| UpdateMixin.AppendRanked | spinedb_api/db_mapping_update_mixin.py:346-348 | the loop appends the ranked rows of the scenario |
| UpdateMixin.AddRowIds | spinedb_api/db_mapping_update_mixin.py:349-350 | the loop adds the rows of the current pairs, or fails with the KeyError of the first missing pair |
| UpdateMixin.GetDataToSetScenarioAlternatives | spinedb_api/db_mapping_update_mixin.py:320-351 | the rows to add and the ids to remove, or the KeyError of the first unknown scenario or pair |
| ExtMetadata.LinkOf | spinedb_api/db_mapping_update_mixin.py:245 | the cached link row with the given id, or none when no row has that id |
| ExtMetadata.SortErrSticks | spinedb_api/db_mapping_update_mixin.py:237-248 | once the first pass fails on an item, later items do not change the error |
| ExtMetadata.SortByPair | spinedb_api/db_mapping_update_mixin.py:230-248 | the first pass loop computes the split into updatable and homeless items and the adjusted usage counts |
| ExtMetadata.SortItemsSplits | spinedb_api/db_mapping_update_mixin.py:237-248 | an item is homeless exactly when its (name, value) pair names no metadata; every other item is repointed to its pair's metadata; the usage of each metadata gains the items moving to it and loses those moving away |
| ExtMetadata.SortItemsOk | spinedb_api/db_mapping_update_mixin.py:245 | the first pass succeeds exactly when every item with a known pair has a cached link row |
| ExtMetadata.HomelessMetadata | spinedb_api/db_mapping_update_mixin.py:250-251 | one metadata id per homeless item, and success exactly when each homeless item has a cached link row |
| ExtMetadata.HomelessMetadataIds | spinedb_api/db_mapping_update_mixin.py:251 | the j-th entry is the metadata id of the j-th homeless item's link row |
| ExtMetadata.FirstSeen | spinedb_api/db_mapping_update_mixin.py:249-254 | the keys of the Counter are exactly the counted metadata ids |
| ExtMetadata.FirstSeenDistinct | spinedb_api/db_mapping_update_mixin.py:249-254 | the Counter's keys are distinct |
| ExtMetadata.CountHomeless | spinedb_api/db_mapping_update_mixin.py:249-251 | the second pass fails exactly when a homeless item has no link row, and otherwise counts, per metadata id, the homeless items whose rows point to it, keys in first-counted order |
| ExtMetadata.FirstHomeless | spinedb_api/db_mapping_update_mixin.py:259-260 | the first homeless item with the given row id, or none when no homeless item has it |
| ExtMetadata.Claimant | spinedb_api/db_mapping_update_mixin.py:256-269 | the homeless item that gives a metadata its new pair owns a link row to that metadata; none means no homeless item owns such a row |
| ExtMetadata.RenamesAreSafe | spinedb_api/db_mapping_update_mixin.py:254-267 | a renamed metadata keeps its id, all of its users are homeless items, and it takes the pair of one of them whose row points to it |
| ExtMetadata.RenamesComplete | spinedb_api/db_mapping_update_mixin.py:254-267 | every metadata whose users are all homeless, and which a homeless item's row points to, is renamed |
| ExtMetadata.FindHomeless | spinedb_api/db_mapping_update_mixin.py:259-269 | the inner search loop finds the first homeless item with the row's id |
| ExtMetadata.FindClaimant | spinedb_api/db_mapping_update_mixin.py:256-271 | the middle loop finds the claimant of the metadata over the cached rows in order |
| ExtMetadata.RenamePass | spinedb_api/db_mapping_update_mixin.py:252-271 | the third pass produces the renames and future_metadata_ids, the new pair of each renamed metadata |
| ExtMetadata.PlaceSplits | spinedb_api/db_mapping_update_mixin.py:272-283 | a homeless item needs new metadata exactly when no renamed metadata took its pair; otherwise it is repointed to that metadata unless its row already points there |
| ExtMetadata.PlacePass | spinedb_api/db_mapping_update_mixin.py:272-283 | the fourth pass loop computes the items needing new metadata and the repointed ones |
| ExtMetadata.ExtPlanFates | spinedb_api/db_mapping_update_mixin.py:237-283 | under the plan, an item naming a known pair is repointed to it; one whose unknown pair a rename took is repointed to the renamed metadata unless already there; one naming a pair nobody has needs new metadata, and only those |
| ExtMetadata.ExtPlanRenames | spinedb_api/db_mapping_update_mixin.py:249-267 | every rename is of a metadata whose usage equals the number of homeless items pointing to it, and takes the pair of one of those items |
| ExtMetadata.Pairs | spinedb_api/db_mapping_update_mixin.py:293-295 | the metadata rows to add are the items' (name, value) pairs, in order |
| ExtMetadata.FinalLinks | spinedb_api/db_mapping_update_mixin.py:305-310 | linking the new metadata succeeds exactly when every item needing new metadata got a row for its pair, and lists the plan's rows followed by one row per such item |
| ExtMetadata.FinalLinksFates | spinedb_api/db_mapping_update_mixin.py:237-310 | after linking, every item points to metadata naming its own pair: a known pair's metadata, a renamed metadata that took its pair (unless it already pointed there), or the row added for its pair |
| ExtMetadata.RenamesByCount | spinedb_api/db_mapping_update_mixin.py:254-255 | the renames depend on the homeless counts only through Counter lookups |
| ExtMetadata.Plan | spinedb_api/db_mapping_update_mixin.py:230-283 | the four passes, run one after the other, compute the plan or the first pass's error |
| ExtMetadata.UpdateExtItemMetadata | spinedb_api/db_mapping_update_mixin.py:227-318 | a failing pass raises its error; renamed metadata are updated and new pairs added, each only when there is something to write; the first write that reports errors ends the call with the rows so far; otherwise the links are rewritten and all rows and errors returned |
| DiffBase.Without | spinedb_api/diff_db_mapping_base.py:84-93 | the rows whose id is not among the ids, in table order and no more rows than before; all rows when no id is given |
| DiffBase.Select | spinedb_api/diff_db_mapping_commit_mixin.py:57 | the rows whose id is among the ids, in table order; none when no id is given |
| DiffBase.SetRows | spinedb_api/diff_db_mapping_base.py:137-138 | one table's rows replaced, every other table unchanged |
| DiffBase.SetIds | spinedb_api/diff_db_mapping_base.py:54-59 | one table's id set replaced, every other table's set unchanged |
| DiffBase.Store.constructor | spinedb_api/diff_db_mapping_base.py:40-59 | a new mapping has every added, updated, removed and dirty set empty, so nothing is pending, and no subquery built |
| DiffBase.Store.Visible | spinedb_api/diff_db_mapping_base.py:80-107 | a table shows its original rows whose id is not dirty, followed by the diff table's rows only once something was added to or updated in that table |
| DiffBase.Store.DiffIds | spinedb_api/diff_db_mapping_base.py:134-135 | per table, the added ids together with the updated ids |
| DiffBase.Store.ClearSubqueries | spinedb_api/db_mapping_base.py:496-503 | the subqueries of the given tables are dropped and nothing else changes |
| DiffBase.Store.MarkAsDirty | spinedb_api/diff_db_mapping_base.py:74-78 | the ids join the table's dirty set, the table's subquery is dropped and nothing else changes |
| DiffBase.Store.ResetDiffDicts | spinedb_api/diff_db_mapping_base.py:61-63 | every id set is empty again, so nothing is pending, and every subquery is dropped |
| DiffBase.Store.ResetDiffMapping | spinedb_api/diff_db_mapping_base.py:140-145 | every diff table is emptied and the id sets are kept |
| DiffBase.NothingPendingShowsOriginal | spinedb_api/diff_db_mapping_commit_mixin.py:104-106 | with nothing pending every table shows exactly its original rows |
| DiffBase.PendingIffSomeSet | spinedb_api/diff_db_mapping_commit_mixin.py:104-106 | the test on the added and dirty sets is the same as some table having added, updated or removed ids, since the dirty ids are the updated and removed ones |
| DiffMapping.PartitionIsPermutation | spinedb_api/diff_db_mapping.py:77-94 | splitting the items by a set of ids puts every item on exactly one side, each side keeping the items' order |
| DiffMapping.ForUpdateAndInsert | spinedb_api/diff_db_mapping.py:77-94 | the items whose id is staged (added or updated) go to the update list and the rest to the insert list, in order; the inserted items' ids become dirty and every item's id counts as updated |
| DiffMapping.Assigned | spinedb_api/diff_db_mapping.py:115 | the row takes the item's value in every written column and keeps every other column |
| DiffMapping.UpdateOne | spinedb_api/diff_db_mapping.py:110-116 | one UPDATE keeps the number of rows, writes the item's columns into each row matching its primary key and leaves the others |
| DiffMapping.UpdateAllRows | spinedb_api/diff_db_mapping.py:110-116 | an executemany of the UPDATE keeps the row count and every primary key, leaves a row no item matches as it was, and gives a row exactly one item matches that item's columns |
| DiffMapping.UpdateAllUnique | spinedb_api/diff_db_mapping.py:110-116 | a row matched by exactly one item ends with that item's columns and its other columns unchanged |
| DiffMapping.UpdateAllKeepsKey | spinedb_api/diff_db_mapping.py:112-114 | an update never changes a row's primary key |
| DiffMapping.UpdateAndInsert | spinedb_api/diff_db_mapping.py:102-118 | the staged diff rows are updated, the other items appended to the diff table, and their ids become dirty and updated |
| DiffMapping.DoUpdateItems | spinedb_api/diff_db_mapping.py:96-108 | the updated ids are the items' ids; without a connection nothing changes, otherwise the diff table and the dirty and updated sets change as an update and insert of the partition by staged ids does |
| DiffMapping.EntItem | spinedb_api/diff_db_mapping.py:126-129 | the entity row is the relationship without its two member lists |
| DiffMapping.RelEntRow | spinedb_api/diff_db_mapping.py:132-137 | the relationship_entity row of one dimension has entity_id and entity_class_id from the relationship's id and class_id (which it drops), the dimension, the member class and the member |
| DiffMapping.RelEntItems | spinedb_api/diff_db_mapping.py:131-138 | one relationship_entity row per dimension of the zip of the class and member lists, in dimension order |
| DiffMapping.UpdateWideRelationships | spinedb_api/diff_db_mapping.py:121-158 | the entity rows and the relationship_entity rows are each updated in or inserted into their diff table as an update does, and the returned ids include every relationship's id |
| DiffMapping.Map | spinedb_api/diff_db_mapping.py:126-138 | a list comprehension: one result per input, in order |
| DiffMapping.DeletedFrom | spinedb_api/diff_db_mapping.py:166-169 | every diff table loses the rows of its ids and keeps the rest in order |
| DiffMapping.MarkRemoved | spinedb_api/diff_db_mapping.py:175-179 | one table's ids leave its added and updated sets and join its removed and dirty sets |
| DiffMapping.MarkAllRemoved | spinedb_api/diff_db_mapping.py:175-179 | over every table, the ids leave the added and updated sets and join the removed and dirty sets, and the dirty ids stay the updated and removed ones |
| DiffMapping.RemoveItems | spinedb_api/diff_db_mapping.py:160-179 | with a connection the diff rows of the ids are deleted, without one the diff tables are kept; in every case the ids leave the added and updated sets and join the removed and dirty ones |
| CommitMixin.WithCommitId | spinedb_api/diff_db_mapping_commit_mixin.py:58-59 | every row, in order, with its commit_id set to the new commit |
| CommitMixin.ForEachTable | spinedb_api/diff_db_mapping_commit_mixin.py:43-78 | one commit phase runs its step on each table that has ids and keeps the other tables' rows |
| CommitMixin.CommitTables | spinedb_api/diff_db_mapping_commit_mixin.py:41-78 | the original tables go through every removal, then every update, then every addition |
| CommitMixin.CommitSession | spinedb_api/diff_db_mapping_commit_mixin.py:28-86 | a commit with nothing pending or an empty comment is refused with nothing changed; otherwise the comment is recorded, the original tables are committed, and the diff tables and id sets are emptied so nothing is pending |
| CommitMixin.ResetSession | spinedb_api/diff_db_mapping_commit_mixin.py:94-102 | the diff tables are emptied and the id sets reset, so every table shows its original rows again |
| CommitMixin.RollbackSession | spinedb_api/diff_db_mapping_commit_mixin.py:88-92 | refused with "Nothing to rollback." and nothing changed exactly when nothing is pending; otherwise every staged change is discarded |
| CommitMixin.UpdateAllStamped | spinedb_api/diff_db_mapping_commit_mixin.py:56-65 | when every updating row carries the new commit id, each row after the updates is untouched or carries it |
| CommitMixin.ReaddedRowSurvives | spinedb_api/diff_db_mapping_commit_mixin.py:41-78 | every added diff row reaches the original table stamped with the commit, even when its id was also removed, because removals run first |
| CommitMixin.UpdatedHasNoRemoved | spinedb_api/diff_db_mapping_commit_mixin.py:43-65 | after the removal and update phases no row has a removed id |
| CommitMixin.RemovedRowsGone | spinedb_api/diff_db_mapping_commit_mixin.py:41-78 | after a commit a row with a removed id can only be an added diff row stamped with the commit |
| CommitMixin.CommittedRowsStamped | spinedb_api/diff_db_mapping_commit_mixin.py:41-78 | every committed row is either a kept original row no update touched or carries the new commit id |
| ExecutionFilter.ExecutionFilterConfig | spinedb_api/filters/execution_filter.py:41-51 | the configuration has type "execution_filter" and carries the descriptor under "execution" |
| ExecutionFilter.ExecutionDescriptorFromDict | spinedb_api/filters/execution_filter.py:65-75 | a missing "type" raises its KeyError; another filter type gives None; an execution filter gives its "execution" entry |
| ExecutionFilter.ConfigToShorthand | spinedb_api/filters/execution_filter.py:78-88 | succeeds exactly when the configuration has "execution", giving "execution:" followed by that descriptor as JSON text |
| ExecutionFilter.ShorthandToConfig | spinedb_api/filters/execution_filter.py:91-102 | the text after the first ":" is read as JSON and wrapped as an execution filter configuration; a JSON error is raised as is |
| ExecutionFilter.ShorthandRoundTrip | spinedb_api/filters/execution_filter.py:78-102 | writing a configuration as a shorthand and reading it back gives the configuration, whenever JSON text reads back as the descriptor |
| ExecutionFilter.ParseExecutionDescriptor | spinedb_api/filters/execution_filter.py:125-143 | execution_item, scenarios and timestamp are read in that order, the first missing one raising an error that names it; scenarios that are not a list are refused; otherwise the three values |
| ExecutionFilter.ScenarioNames | spinedb_api/filters/execution_filter.py:158 | the join succeeds exactly when every scenario is a string, and gives those strings in order |
| ExecutionFilter.ImportAlternativeName | spinedb_api/filters/execution_filter.py:157-158 | the scenarios joined by "_", then "__" only when there are scenarios, then "<item>@<timestamp>"; non-string scenarios are refused |
| ExecutionFilter.NextRank | spinedb_api/filters/execution_filter.py:164-169 | one past the scenario's largest rank, or 1 when it has no rank or its largest rank is 0 |
| ExecutionFilter.NextRankIsLast | spinedb_api/filters/execution_filter.py:164-169 | with positive ranks the new rank is above every existing rank, so it is not one of them |
| ExecutionFilter.RanksOf | spinedb_api/filters/execution_filter.py:164-168 | exactly the ranks of the scenario's rows |
| ExecutionFilter.IdOf | spinedb_api/filters/execution_filter.py:159-162 | the id of a row with the name, and none exactly when no row has it |
| ExecutionFilter.ExecutionTarget.AddAlternative | spinedb_api/filters/execution_filter.py:159-160 | the returned id is that of an alternative with the name: the existing one, left unchanged, or a new one appended |
| ExecutionFilter.ExecutionTarget.AddScenario | spinedb_api/filters/execution_filter.py:161-162 | the returned id is that of a scenario with the name: the existing one, left unchanged, or a new one appended |
| ExecutionFilter.ExecutionTarget.CreateImportAlternative | spinedb_api/filters/execution_filter.py:146-172 | fails, changing nothing, exactly when the name cannot be built; otherwise records the name and the alternative's id, and ranks the alternative in every named scenario, keeping every existing row |
| ExecutionFilter.ExecutionTarget.RankInScenarios | spinedb_api/filters/execution_filter.py:161-172 | every scenario name ends with a scenario that ranks the alternative, and no scenario or ranking is lost |
| ExecutionFilter.ExecutionTarget.RankInScenario | spinedb_api/filters/execution_filter.py:163-172 | a scenario that already ranks the alternative is left alone; otherwise the alternative is added at the next rank |
| ExportSettings.Plain | spinedb_api/export_mapping/settings.py:633 | a newly made mapping has the class and position given and is not ignorable |
| ExportSettings.CountExactAppend | spinedb_api/export_mapping/settings.py:760 | counting the mappings of exactly one class adds up over concatenation |
| ExportSettings.TakeUntil | spinedb_api/export_mapping/settings.py:753 | takewhile keeps the longest prefix holding no mapping of the class, which ends at the first mapping of the class if there is one |
| ExportSettings.Take | spinedb_api/export_mapping/settings.py:729-770 | a Python slice s[:n]: a negative n counts from the end and the bound is clamped at both ends |
| ExportSettings.Drop | spinedb_api/export_mapping/settings.py:731 | a Python slice s[n:] for n >= 0, empty past the end |
| ExportSettings.Dimensions | spinedb_api/export_mapping/settings.py:619-637 | one mapping of the class per position, in order |
| ExportSettings.IndexPairs | spinedb_api/export_mapping/settings.py:664-669 | the j-th pair is an index name mapping at the j-th name position followed by an index mapping at the j-th index position |
| ExportSettings.ValueTail | spinedb_api/export_mapping/settings.py:659-701 | with no index positions a single value mapping; with index positions but no index name positions zip raises TypeError; otherwise one pair per position zip pairs up and an expanded value mapping last |
| ExportSettings.ExportChain.constructor | spinedb_api/export_mapping/settings.py:64-78 | a new chain is its root mapping alone |
| ExportSettings.ExportChain.Link | spinedb_api/export_mapping/settings.py:634 | setting the tail's child appends the mapping to the chain |
| ExportSettings.ExportChain.GenerateDimensions | spinedb_api/export_mapping/settings.py:619-637 | the chain grows by one mapping of the class per position, in order |
| ExportSettings.ExportChain.GenerateParameterValueMappings | spinedb_api/export_mapping/settings.py:640-671 | the chain grows by alternative, value type and the value part; when zip raises the chain is left as it was |
| ExportSettings.ExportChain.GenerateDefaultValueMappings | spinedb_api/export_mapping/settings.py:674-701 | the chain grows by default value type and the value part; when zip raises the chain keeps the type mapping |
| ExportSettings.ExportChain.SetRelationshipDimensions | spinedb_api/export_mapping/settings.py:402-418 | the chain becomes the resized list, or is left as it was when there is no relationship class mapping and the error is returned |
| ExportSettings.ExportChain.ChangeDimensions | spinedb_api/export_mapping/settings.py:735-771 | the chain becomes the changed list when there is one, and is left as it was otherwise |
| ExportSettings.ExportChain.SetParameterDimensions | spinedb_api/export_mapping/settings.py:497-512 | the change of dimensions with the parameter value classes |
| ExportSettings.ExportChain.SetParameterDefaultValueDimensions | spinedb_api/export_mapping/settings.py:515-530 | the change of dimensions with the default value classes |
| ExportSettings.LeadingWithout | spinedb_api/export_mapping/settings.py:753 | the loop finds the length of the takewhile prefix |
| ExportSettings.CountKind | spinedb_api/export_mapping/settings.py:760 | the loop counts the mappings of exactly the class |
| ExportSettings.IndexedTail | spinedb_api/export_mapping/settings.py:659-701 | the zip loop builds the value part, or the TypeError |
| ExportSettings.ObjectExport | spinedb_api/export_mapping/settings.py:64-78 | a new chain: object class, then object |
| ExportSettings.ObjectParameterDefaultValueExport | spinedb_api/export_mapping/settings.py:81-109 | a new chain: object class, definition, default value type and the value part; the zip error when the value part fails |
| ExportSettings.ValueListMapping | spinedb_api/export_mapping/settings.py:141-142 | a value list mapping at the position, ignorable |
| ExportSettings.ObjectParameterExport | spinedb_api/export_mapping/settings.py:112-151 | a new chain: object class, definition, ignorable value list, object, alternative, value type and the value part; the zip error when the value part fails |
| ExportSettings.ObjectGroupExport | spinedb_api/export_mapping/settings.py:154-173 | a new chain: object class, group, member object |
| ExportSettings.RelationshipExport | spinedb_api/export_mapping/settings.py:176-205 | a new chain: relationship class, its object classes, relationship, its objects |
| ExportSettings.RelationshipParameterDefaultValueExport | spinedb_api/export_mapping/settings.py:208-236 | a new chain: relationship class, definition, default value type and the value part, or the zip error |
| ExportSettings.RelationshipParameterExport | spinedb_api/export_mapping/settings.py:239-295 | a new chain: relationship class, its object classes, definition, ignorable value list, relationship, its objects, alternative, value type and the value part, or the zip error |
| ExportSettings.Highlighting | spinedb_api/export_mapping/settings.py:326-328 | a relationship class mapping that highlights the given dimension, not ignorable |
| ExportSettings.RelationshipObjectParameterDefaultValueExport | spinedb_api/export_mapping/settings.py:298-336 | a new chain: highlighting relationship class, definition, its object classes, default value type and the value part, or the zip error |
| ExportSettings.RelationshipObjectParameterExport | spinedb_api/export_mapping/settings.py:339-399 | a new chain as the relationship parameter export with highlighting relationship class and relationship mappings, or the zip error |
| ExportSettings.AlternativeExport | spinedb_api/export_mapping/settings.py:421-434 | a new chain: alternative, description |
| ExportSettings.ScenarioExport | spinedb_api/export_mapping/settings.py:437-456 | a new chain: scenario, active flag, description |
| ExportSettings.ScenarioAlternativeExport | spinedb_api/export_mapping/settings.py:459-477 | a new chain: scenario, alternative, the alternative it goes before |
| ExportSettings.ParameterValueListExport | spinedb_api/export_mapping/settings.py:480-494 | a new chain: value list, value |
| ExportSettings.FeatureExport | spinedb_api/export_mapping/settings.py:533-547 | a new chain: entity class, parameter definition |
| ExportSettings.ToolExport | spinedb_api/export_mapping/settings.py:550-560 | a new chain: the tool mapping alone |
| ExportSettings.ToolFeatureExport | spinedb_api/export_mapping/settings.py:563-588 | a new chain: tool, entity class, parameter definition, required flag |
| ExportSettings.ToolFeatureMethodExport | spinedb_api/export_mapping/settings.py:591-616 | a new chain: tool, entity class, parameter definition, method |
| ExportSettings.ParentIndex | spinedb_api/export_mapping/settings.py:717-723 | the index of the last mapping that is an instance of the parent class, none exactly when no mapping is |
| ExportSettings.HiddenRun | spinedb_api/export_mapping/settings.py:724-725 | max(n, 0) hidden mappings of the class |
| ExportSettings.Consecutive | spinedb_api/export_mapping/settings.py:704-732 | the list up to the parent mapping and the first min(count, existing) after it, hidden mappings making up a short run, then what followed the run; the TypeError exactly when there is no parent mapping |
| ExportSettings.ScanRun | spinedb_api/export_mapping/settings.py:717-723 | the loop finds the last parent mapping and counts the run |
| ExportSettings.ChangeConsecutive | spinedb_api/export_mapping/settings.py:704-732 | the method computes the resize of the run |
| ExportSettings.AnyInstance | spinedb_api/export_mapping/settings.py:414 | true exactly when some mapping is an instance of the class |
| ExportSettings.RelationshipDimensions | spinedb_api/export_mapping/settings.py:402-418 | resizing the object class run, then the object run when there is a relationship mapping; an error exactly when there is no relationship class mapping |
| ExportSettings.HiddenPairs | spinedb_api/export_mapping/settings.py:763-766 | n hidden (index name, index) pairs |
| ExportSettings.ChangedDimensions | spinedb_api/export_mapping/settings.py:735-771 | with zero dimensions the list changes exactly when it ends with an expanded value mapping; a changed list is never empty |
| ExportSettings.ConsecutiveRun | spinedb_api/export_mapping/settings.py:704-732 | for a run that follows the last parent mapping, the first count mappings of the run are kept, hidden ones make up a short run, and what follows is kept |
| ExportSettings.ConsecutiveRunLength | spinedb_api/export_mapping/settings.py:704-732 | after the resize the run holds exactly count mappings |
| ExportSettings.RelationshipResized | spinedb_api/export_mapping/settings.py:402-418 | on the chain relationship_export makes, the first d object classes and objects are kept and hidden ones are added until there are d of each |
| ExportSettings.Expand | spinedb_api/export_mapping/settings.py:757-768 | a chain ending with a single value mapping gets d hidden pairs and an expanded value mapping at the same position |
| ExportSettings.Collapse | spinedb_api/export_mapping/settings.py:750-756 | zero dimensions on a chain ending with pairs and an expanded value mapping: the pairs go and a single value mapping at the same position ends the chain |
| ExportSettings.CollapseWithoutPairs | spinedb_api/export_mapping/settings.py:750-756 | with no index name mapping above it, the expanded value mapping stays and the single value mapping is appended after it |
| ExportSettings.Resize | spinedb_api/export_mapping/settings.py:757-771 | with k pairs and d > 0 dimensions: hidden pairs are added when k < d, the last k - d pairs go when k > d, and nothing changes when k == d |
| ExportSettings.ResizedPairs | spinedb_api/export_mapping/settings.py:757-771 | whatever d > 0 is, the resized chain keeps its head and its expanded value mapping and holds exactly d pairs between them |
| ExportSettings.ExpandCollapse | spinedb_api/export_mapping/settings.py:735-771 | expanding a single value chain to d > 0 dimensions and back to zero gives the chain again, ending in a plain single value mapping |
| ImportAddOnly.Checked | spinedb_api/import_functions.py:1029-1042 | an item whose check passes is added; a failed integrity check is logged with the given message and the validator's own; any other error stops the import |
| ImportAddOnly.GroupOffers | spinedb_api/import_functions.py:1024-1042 | a group row unpacks into exactly class, group and member names and offers one item |
| ImportAddOnly.EntityGroupsAddedOnce | spinedb_api/import_functions.py:1013-1044 | no (group, member) pair is added twice or when the database already has it |
| ImportAddOnly.EntityGroupsChecked | spinedb_api/import_functions.py:1029-1042 | every pair added passed the entity group check |
| ImportAddOnly.PlanEntityGroups | spinedb_api/import_functions.py:1013-1044 | the loop over the rows gives the additions and the log of the planner, or its error |
| ImportAddOnly.MethodIndex | spinedb_api/import_functions.py:570-573 | the first index of the value list whose value equals the method, None when no index holds it |
| ImportAddOnly.MethodOffers | spinedb_api/import_functions.py:564-588 | a method row offers one item |
| ImportAddOnly.ToolFeatureMethodsAddedOnce | spinedb_api/import_functions.py:543-597 | no (tool feature, method index) pair is added twice or when the database has it, and every method added passes the tool feature method check |
| ImportAddOnly.MetadataOffers | spinedb_api/import_functions.py:1693-1700 | a metadata row offers one item per parsed (name, value) pair, and fails exactly when the metadata cannot be parsed |
| ImportAddOnly.MetadataAddedOnce | spinedb_api/import_functions.py:1689-1700 | metadata import logs nothing, adds no (name, value) pair twice or when the database has it, and adds every parsed pair that is new |
| ImportAddOnly.EntityMetadataOffers | spinedb_api/import_functions.py:1743-1757 | one offer per pair: an unknown (name, value) pair is logged, a known one offers a link to its metadata id |
| ImportAddOnly.LinkOffers | spinedb_api/import_functions.py:1733-1757 | a target not found is logged and offers nothing else; otherwise the row fails exactly when its metadata cannot be parsed; every link offered names a known metadata id |
| ImportAddOnly.ObjectMetadataOffers | spinedb_api/import_functions.py:1722-1758 | an object metadata row offers only links to known metadata ids |
| ImportAddOnly.RelationshipMetadataOffers | spinedb_api/import_functions.py:1782-1824 | a relationship metadata row offers only links to known metadata ids |
| ImportAddOnly.RowAlternative | spinedb_api/import_functions.py:1867-1871 | the alternative named in the row (its id when known), or the import alternative when the row names none |
| ImportAddOnly.ObjectValueMetadataOffers | spinedb_api/import_functions.py:1848-1899 | an object value metadata row offers only links to known metadata ids |
| ImportAddOnly.RelationshipValueMetadataOffers | spinedb_api/import_functions.py:1923-1973 | a relationship value metadata row offers only links to known metadata ids |
| ImportAddOnly.EntityMetadataAddedOnce | spinedb_api/import_functions.py:1722-1973 | the object, relationship and value metadata planners add no link twice or when the database has it, and every link names a known metadata id |
| ImportAddOnly.UnknownObjectLogged | spinedb_api/import_functions.py:1731-1739 | an object metadata row for an unknown object is logged with the unknown-object message and adds nothing |
| ImportLists.Without | spinedb_api/import_functions.py:777 | the list with every occurrence of the alternative taken out, the rest kept |
| ImportLists.FirstIndex | spinedb_api/import_functions.py:778-781 | list.index: the first position holding the value, None exactly when the value is absent |
| ImportLists.Splice | spinedb_api/import_functions.py:776-783 | the alternative is taken out and put back once, before the first occurrence of the 'before' alternative, or at the end when that is absent or is the alternative itself; the other alternatives keep their order |
| ImportLists.SpliceDistinct | spinedb_api/import_functions.py:776-783 | placing an alternative keeps a scenario's list free of repeats |
| ImportLists.ArrangeStep | spinedb_api/import_functions.py:751-784 | a row fails exactly when it does not unpack into at least two values; otherwise the seen pairs only grow and at most one log line is added |
| ImportLists.ArrangementValid | spinedb_api/import_functions.py:751-784 | however the rows run, every scenario is listed once and no scenario's list repeats an alternative |
| ImportLists.AlternativeAppended | spinedb_api/import_functions.py:751-784 | a new known pair without a 'before' moves the alternative to the end of the scenario's list, keeping the order of the others, and logs nothing |
| ImportLists.RepeatedPairIgnored | spinedb_api/import_functions.py:763-764 | a row whose pair was seen earlier in the batch changes nothing, even when that earlier row was refused for its 'before' |
| ImportLists.UnknownBeforeLogged | spinedb_api/import_functions.py:766-773 | an unknown 'before' alternative is logged with the source's message and the pair is still marked as seen |
| ImportLists.RankItem | spinedb_api/import_functions.py:787-793 | the item of the alternative at position k ranks it k + 1 in its scenario and carries an id exactly when that scenario alternative exists |
| ImportLists.Ranked | spinedb_api/import_functions.py:786-793 | one item per alternative of a scenario's list |
| ImportLists.PartitionedSplits | spinedb_api/import_functions.py:789-793 | the additions are exactly the items without an id and the updates those with one |
| ImportLists.RanksArePositions | spinedb_api/import_functions.py:785-793 | every planned item ranks its alternative by its position, from 1, in its scenario's list |
| ImportLists.Pairs | spinedb_api/import_functions.py:785-793 | the (scenario, alternative) keys of the planned items, in order |
| ImportLists.PairsPlannedOnce | spinedb_api/import_functions.py:785-793 | no (scenario, alternative) pair is planned twice |
| ImportLists.PlanScenarioAlternatives | spinedb_api/import_functions.py:739-795 | the two loops compute the scenario alternative plan |
| ImportLists.RankAll | spinedb_api/import_functions.py:785-793 | the ranking loop gives the additions and updates of every scenario's list |
| ImportLists.ArrangeRows | spinedb_api/import_functions.py:751-784 | the row loop computes the arrangement or its error |
| ImportLists.RankScenario | spinedb_api/import_functions.py:786-793 | one scenario's ranked items are appended to the additions and updates |
| ImportLists.Head | spinedb_api/import_functions.py:1602 | x[0] of a list, tuple or string |
| ImportLists.Heads | spinedb_api/import_functions.py:1602 | the first element of every row, failing exactly when some row has none |
| ImportLists.FirstOccurrences | spinedb_api/import_functions.py:1602 | the keys of the dict built from the values: each value once, in first-occurrence order |
| ImportLists.NewListItemsNamed | spinedb_api/import_functions.py:1602-1609 | the lists added are named once each, exactly the given names not in the database, each item holding only its name |
| ImportLists.ValueListsAddedOnce | spinedb_api/import_functions.py:1598-1610 | every list named in the rows and not yet in the database is added once, as an item holding only its name; nothing is updated or logged |
| ImportLists.PlanValueLists | spinedb_api/import_functions.py:1598-1610 | the method computes the value list plan |
| ImportLists.ListNames | spinedb_api/import_functions.py:1602 | the dict of first elements as its keys in order, or the error of a row without one |
| ImportLists.NextIndex | spinedb_api/import_functions.py:1641-1647 | one past the last index given to the list in this batch; otherwise one past the list's largest index, or 0 for an empty list |
| ImportLists.ListValueStep | spinedb_api/import_functions.py:1626-1668 | one row only adds to the log and to the values, by at most one value |
| ImportLists.AddListValue | spinedb_api/import_functions.py:1648-1668 | a new value either leaves the values, keys and indexes as they were or is added with its key recorded and its index as the list's last |
| ImportLists.ListValueStepShape | spinedb_api/import_functions.py:1626-1668 | a row either adds nothing or adds one value whose key is new, at its list's next index |
| ImportLists.ListValuesValid | spinedb_api/import_functions.py:1613-1669 | however the rows run, no (list, type, value) key is added twice and each list's new values get consecutive indexes |
| ImportLists.FirstValueIndexFree | spinedb_api/import_functions.py:1641-1647 | the first value added to a list in a batch goes past every index the list already has |
| ImportLists.PlanListValues | spinedb_api/import_functions.py:1613-1669 | the row loop computes the list value plan |
| ImportFunctions.Written | spinedb_api/import_functions.py:158-169 | a write that succeeds counts its ids; a database error is logged under the table's name and counts nothing; any other error escapes |
| ImportFunctions.ImportData | spinedb_api/import_functions.py:57-177 | the loop over the planners' outputs computes the import's count and log, or the error that escapes |
| ImportFunctions.ImportCompletes | spinedb_api/import_functions.py:155-177 | database errors never stop the import: it completes exactly when no write raises anything else |
| ImportFunctions.ImportWhenClean | spinedb_api/import_functions.py:155-177 | when every write succeeds the count is the ids updated plus the ids added, and the log holds the planners' errors in order |
| ImportFunctions.Running | spinedb_api/import_functions.py:238-317 | the batches that run are exactly those whose data is given, or that scenario alternatives imply, in schedule order |
| ImportFunctions.AncestorsEarlier | spinedb_api/import_functions.py:238-317 | every ancestor table of a table sits at an earlier stage |
| ImportFunctions.ScheduleRises | spinedb_api/import_functions.py:238-317 | the schedule's stages never go down |
| ImportFunctions.RunningStaged | spinedb_api/import_functions.py:238-317 | keeping only the running batches keeps the stages in order |
| ImportFunctions.BatchesAncestorsFirst | spinedb_api/import_functions.py:238-317 | no table is written after a table it is an ancestor of |
| ImportFunctions.ImpliedRuns | spinedb_api/import_functions.py:242-249 | scenario alternatives given without scenarios, or without alternatives, first import the scenarios, or the alternatives, that they name |
| ImportFunctions.AncestorRunsFirst | spinedb_api/import_functions.py:238-317 | a table's run comes after every run of its ancestors |
| ImportFunctions.UnpackAtLeast | spinedb_api/import_functions.py:751 | starred unpacking succeeds exactly when the row is iterable with at least n values |
| ImportFunctions.UnpackExactly | spinedb_api/import_functions.py:1024 | plain unpacking succeeds exactly when the row is iterable with exactly n values |
| ImportFunctions.UnpackNamed | spinedb_api/import_functions.py:627-629 | a bare string stands for the 1-tuple holding it; anything else needs at least one value |
| ImportFunctions.Zip | spinedb_api/import_functions.py:639 | dict(zip(fields, values)) has the fields paired with a value |
| ImportFunctions.Others | spinedb_api/import_functions.py:632-648 | the existing-key dict handed to the validator holds every key but the row's own, with its id |
| ImportFunctions.KeyedStep | spinedb_api/import_functions.py:626-655 | a key already planned in the batch is skipped, or logged when the planner names a message for it; an added item's key is new to the database and the batch; an updated item's key exists, is new to the batch and carries that key's id |
| ImportFunctions.KeyedPlanOne | spinedb_api/import_functions.py:619-657 | the planner on one row gives that row's outcome, or its error |
| ImportFunctions.SamePreparedSamePlan | spinedb_api/import_functions.py:627-631 | two rows read the same way are planned the same way after the same rows |
| ImportFunctions.KeyedPlanValid | spinedb_api/import_functions.py:619-657 | the planner plans each key at most once, updates exactly existing keys and adds exactly new ones |
| ImportFunctions.KeyedPlanKeeps | spinedb_api/import_functions.py:639-655 | whatever every passing check promises of an item holding the planner's fixed fields holds for every item planned |
| ImportFunctions.KeyedStepKeeps | spinedb_api/import_functions.py:639-655 | the item one row adds or updates keeps what the passing check promises |
| ImportFunctions.RepeatedKeyLogged | spinedb_api/import_functions.py:630-631 | a row whose key was planned earlier, for a planner that names a message for it, logs that message and plans nothing else |
| ImportFunctions.RepeatedKeySkipped | spinedb_api/import_functions.py:630-631 | a row whose key was planned earlier is skipped and changes nothing |
| ImportFunctions.PlanKeyed | spinedb_api/import_functions.py:619-657 | the row loop computes the keyed plan or its error |
| ImportFunctions.TakeValid | spinedb_api/import_functions.py:1024-1042 | taking one offer keeps the added keys distinct and new to the database, and records a passing key as seen |
| ImportFunctions.TakeAllValid | spinedb_api/import_functions.py:1024-1042 | taking a row's offers keeps the added keys distinct and new, and records every passing key |
| ImportFunctions.TakeUnseenValid | spinedb_api/import_functions.py:1013-1044 | an add-only planner adds each key at most once, never a key already in the database, and every passing offered key ends up seen |
| ImportFunctions.TakeUnseenKeeps | spinedb_api/import_functions.py:1013-1044 | whatever every passing offer promises of its key and item holds for every item an add-only planner adds |
| ImportFunctions.TakeOffers | spinedb_api/import_functions.py:1024-1042 | the loop over one row's offers computes their taking |
| ImportFunctions.PlanUnseen | spinedb_api/import_functions.py:1013-1044 | the row loop computes the add-only plan |
| ImportPlanners.NamedRow | spinedb_api/import_functions.py:626-638 | a bare string is the name alone; otherwise the first value is the name and the rest the optional values; a new name starts from the planner's defaults |
| ImportPlanners.BareNameIsOneTuple | spinedb_api/import_functions.py:627-628 | planning a bare string is the same as planning the 1-tuple holding it |
| ImportPlanners.NewAlternativeAdded | spinedb_api/import_functions.py:619-657 | a new alternative is added with the description given, or None, and nothing is updated or logged |
| ImportPlanners.NewAlternativeStep | spinedb_api/import_functions.py:633-655 | the row of a new alternative passes its check and is an addition |
| ImportPlanners.ExistingAlternativeUpdated | spinedb_api/import_functions.py:619-657 | an existing alternative is updated: its cached item with the description given, carrying its id |
| ImportPlanners.NewScenarioDefaults | spinedb_api/import_functions.py:680-716 | a new scenario given by name alone is added inactive, with no description |
| ImportPlanners.ObjectClassesTyped | spinedb_api/import_functions.py:817-856 | every object class planned carries the object class type |
| ImportPlanners.RelationshipClassRow | spinedb_api/import_functions.py:879-926 | a relationship class row's key is its name, and a new class lists the ids of its object classes, None for an unknown one |
| ImportPlanners.ObjectRow | spinedb_api/import_functions.py:949-989 | an object row's key is (class id, name), and a new object starts with its name, class and no description |
| ImportPlanners.ObjectsTyped | spinedb_api/import_functions.py:949-989 | every object planned carries the object entity type and the id of a known class |
| ImportPlanners.FeatureRow | spinedb_api/import_functions.py:337-391 | a feature row's key is the parameter definition's id, and a new feature starts with that definition, its value list and no description |
| ImportPlanners.ToolFeatureRow | spinedb_api/import_functions.py:465-523 | a tool feature row's key is (tool id, feature id), and a new tool feature starts as not required |
| ImportPlanners.DefinitionOptionals | spinedb_api/import_functions.py:1178-1198 | the default value becomes its database value and type, the value list name its id (None when unknown), and the description stays |
| ImportPlanners.DefinitionRow | spinedb_api/import_functions.py:1161-1309 | a definition row's key is (class id, name), and its optional values are stored as their database forms |
| ImportPlanners.DefinitionDefault | spinedb_api/import_functions.py:1178-1198 | a definition row with a default value stores that value's database value and type |
| ImportPlanners.BaseName | spinedb_api/import_functions.py:1065-1067 | a new relationship is first offered "<class>_" followed by the object names joined with "__", None written as "None" |
| ImportPlanners.FirstFree | spinedb_api/import_functions.py:1069-1070 | the first suffixed name free in the class, with every earlier suffixed name taken; none only when all are taken |
| ImportPlanners.UniqueNameFree | spinedb_api/import_functions.py:1064-1072 | with distinct uuids, the name chosen is free in its class |
| ImportPlanners.MakeUniqueRelationshipName | spinedb_api/import_functions.py:1064-1072 | the loop draws uuids until the name is free, and returns a name free in its class |
| ImportPlanners.RelationshipNameWhenFree | spinedb_api/import_functions.py:1068-1072 | the base name is kept when it is free |
| ImportPlanners.ObjectIdsOf | spinedb_api/import_functions.py:1095 | each object name looked up in the class at its position, as many as both lists have |
| ImportPlanners.RelationshipRow | spinedb_api/import_functions.py:1074-1138 | a relationship row's key is (class id, object ids), and a new relationship gets a unique name |
| ImportPlanners.NamesBut | spinedb_api/import_functions.py:1074-1138 | the (class id, name) dict a check sees leaves out an existing relationship's own entry |
| ImportPlanners.ValueAlternative | spinedb_api/import_functions.py:1367-1383 | the alternative named, when known, or the import alternative when the row names none; nothing for an unknown name |
| ImportPlanners.ValuePrepared | spinedb_api/import_functions.py:1384-1410 | a value row's key is (entity, definition, alternative), its value and type are the unparsed value's, and an existing value keeps what fix_conflict makes of the new and stored values |
| ImportPlanners.ObjectValueRow | spinedb_api/import_functions.py:1338-1434 | an object value row needs at least four values; an unknown alternative is logged with its message; otherwise the key is (object id, definition id, alternative id) |
| ImportPlanners.ValueObjectIds | spinedb_api/import_functions.py:1496-1499 | the object ids of a relationship value row, or None for every object when the names do not match the class's dimensions |
| ImportPlanners.RelationshipValueRow | spinedb_api/import_functions.py:1463-1575 | a relationship value row needs at least four values and iterable object names; an unknown alternative is logged; otherwise the key is (relationship id, definition id, alternative id) |
| ImportPlanners.RepeatedValueLogged | spinedb_api/import_functions.py:1385-1392 | a value row repeating an (entity, parameter, alternative) planned earlier keeps the first and logs the repeat |
| ImportPlanners.UnknownAlternativeLogged | spinedb_api/import_functions.py:1367-1380 | a value row naming an unknown alternative is logged and plans nothing |
| ImportMappings.KeyText | spinedb_api/import_mapping/import_mapping.py:51-73 | a key with a description is named by it; the others fall back to the enum member's own text |
| ImportMappings.KeyTextsShared | spinedb_api/import_mapping/import_mapping.py:53-73 | two different keys share a description, so an error's text alone does not tell which key it is about |
| ImportMappings.MapTypeNamed | spinedb_api/import_mapping/import_mapping.py:1053-1096 | corrected lookup: the class whose MAP_TYPE is the name, every mapping class included, with the legacy "ParameterIndex" read as a parameter value index mapping |
| ImportMappings.MapTypeNamesRead | spinedb_api/import_mapping/import_mapping.py:1053-1096 | with the corrected lookup, every class's MAP_TYPE is read back as that class |
| ImportMappings.MapTypeNamedAsWritten | spinedb_api/import_mapping/import_mapping.py:1053-1096 | the lookup as written, whose table leaves out the default value index name mapping; it differs from the corrected lookup only on that class's name |
| ImportMappings.DefaultValueIndexNameUnreadable | spinedb_api/import_mapping/import_mapping.py:1053-1092 | as written, the MAP_TYPE a default value index name mapping writes is not read back, while the corrected lookup reads it |
| ImportMappings.BadColumns | spinedb_api/import_mapping/import_mapping.py:124-128 | the entries of the columns that are neither str nor int; empty exactly when every column is one |
| ImportMappings.SkipColumnsOf | spinedb_api/import_mapping/import_mapping.py:115-133 | None stores no columns; a str or int stores itself alone; a list is stored when every entry is str or int and raises TypeError otherwise; any other type raises TypeError |
| ImportMappings.ReadStartRowOf | spinedb_api/import_mapping/import_mapping.py:139-145 | a non-negative int is stored (a bool counting as an int); a negative int raises ValueError with the row; any other type raises TypeError |
| ImportMappings.IndexIn | spinedb_api/import_mapping/import_mapping.py:165 | the first index of the name in the header |
| ImportMappings.HeaderAt | spinedb_api/import_mapping/import_mapping.py:190-195 | the header entry at an int index, negative indexes counting from the end, or InvalidMappingComponent when out of range |
| ImportMappings.Polished | spinedb_api/import_mapping/import_mapping.py:159-195 | a column name becomes its index in the header, or raises when absent; a table name mapping takes the table's name; a header mapping keeps a value in the header, reads a stringified index into the header, and raises otherwise |
| ImportMappings.ImportMapping.constructor | spinedb_api/import_mapping/import_mapping.py:94-108 | a new mapping skips no columns and reads from row 0 before the setters run |
| ImportMappings.ImportMapping.SetSkipColumns | spinedb_api/import_mapping/import_mapping.py:115-133 | the setter stores the validated columns, or raises and leaves them |
| ImportMappings.ImportMapping.SetReadStartRow | spinedb_api/import_mapping/import_mapping.py:139-145 | the setter stores the validated row, or raises and leaves it |
| ImportMappings.ImportMapping.PolishForImport | spinedb_api/import_mapping/import_mapping.py:159-195 | position and value become the polished ones, even when it raises; skipped columns and start row stay |
| ImportMappings.NewMapping | spinedb_api/import_mapping/import_mapping.py:94-108 | construction fails exactly when a setter raises, the skip_columns setter's error first; otherwise the mapping holds the validated settings |
| ImportMappings.PolishChain | spinedb_api/import_mapping/import_mapping.py:159-162 | the child is polished before its parent, so the deepest mapping that raises stops the walk with the mappings below it polished and those above untouched |
| ImportMappings.Reconstructed | spinedb_api/import_mapping/import_mapping.py:1097-1109 | with the corrected lookup MapTypeNamed (the lookup as written is MapTypeNamedAsWritten, under Findings): a serialized mapping without "position" raises KeyError; one that reads has a map_type the lookup names as its class |
| ImportMappings.ReadOne | spinedb_api/import_mapping/import_mapping.py:1097-1109 | one serialized mapping read through the corrected lookup and its setters checked |
| ImportMappings.Reads | spinedb_api/import_mapping/import_mapping.py:1097-1112 | what reading each serialized mapping gives, in order |
| ImportMappings.ReadStopsAtGroup | spinedb_api/import_mapping/import_mapping.py:1110-1112 | from_dict stops after the first ObjectGroup mapping: every mapping kept was read as it is and only the last kept can be a group mapping |
| ImportMappings.ReadFailsAtFirstError | spinedb_api/import_mapping/import_mapping.py:1097-1112 | from_dict fails exactly when a mapping up to the first group mapping cannot be read, with that mapping's error |
| ImportMappings.LegacyParameterIndexRead | spinedb_api/import_mapping/import_mapping.py:1096 | a legacy "ParameterIndex" mapping is read as a parameter value index mapping |
| ImportMappings.MappingFromDict | spinedb_api/import_mapping/import_mapping.py:1097-1109 | one mapping made by its class from its serialized settings, read through the corrected lookup |
| ImportMappings.FromDict | spinedb_api/import_mapping/import_mapping.py:1044-1113 | with the corrected lookup MapTypeNamed (the lookup as written is MapTypeNamedAsWritten, under Findings): the mappings, root first, each made from its serialized settings up to the first group mapping, or the first error; each mapping is a separate object |
| ImportMappings.MappingAt | spinedb_api/import_mapping/import_mapping.py:1097-1109 | the mapping at one index made from its serialized settings |
| ImportMappings.MappingsFromDict | spinedb_api/import_mapping/import_mapping.py:1097-1112 | with the corrected lookup MapTypeNamed (the lookup as written is MapTypeNamedAsWritten, under Findings): the loop of from_dict gives the mappings read up to the first group mapping, or the first error |
| ImportRows.Need | spinedb_api/import_mapping/import_mapping.py:386-387 | state[key] succeeds exactly when the key is in the state and gives its value; otherwise KeyError names that key |
| ImportRows.ParameterValueKey | spinedb_api/import_mapping/import_mapping.py:1117-1141 | the key is (class, entity, parameter, alternative), preferring the object class; a relationship entity is the tuple of its object names and needs one name per dimension; with neither class, KeyError(CLASS_NAME) |
| ImportRows.DefaultValueKey | spinedb_api/import_mapping/import_mapping.py:1144-1159 | the key exists exactly when a class and a parameter name are known; it is (class, parameter) with the object class preferred; with no class, KeyError(CLASS_NAME) |
| ImportRows.StrToBool | spinedb_api/import_mapping/import_mapping.py:877 | true exactly for the yes-words, false exactly for the no-words (case-insensitive); anything else is ValueError "invalid truth value" |
| ImportRows.ImportObjectClass | spinedb_api/import_mapping/import_mapping.py:371-374 | the row's object class is named in the state and added to mapped object_classes, with nothing else changed |
| ImportRows.ImportObject | spinedb_api/import_mapping/import_mapping.py:385-390 | needs an object class; names the object; above a group mapping it raises KeyError(MEMBER_NAME) and adds nothing, else the (class, object) pair joins objects |
| ImportRows.ImportObjectGroup | spinedb_api/import_mapping/import_mapping.py:413-423 | needs a class and a group (object) name; adds (class, group, member), and with import_objects both objects; then raises KeyFix(MEMBER_NAME) |
| ImportRows.ImportRelationshipClass | spinedb_api/import_mapping/import_mapping.py:434-441 | stores the dimension count and class name, a fresh empty object class list shared by the state and relationship_classes, and raises KeyError(OBJECT_CLASS_NAMES) |
| ImportRows.ImportRelationshipClassObjectClass | spinedb_api/import_mapping/import_mapping.py:452-458 | needs the class and its list; appends the object class; the append that reaches the dimension count raises KeyFix(OBJECT_CLASS_NAMES) |
| ImportRows.ImportRelationship | spinedb_api/import_mapping/import_mapping.py:469-472 | starts a fresh empty object-name list in the state; no stored list changes |
| ImportRows.ImportRelationshipObject | spinedb_api/import_mapping/import_mapping.py:484-501 | appends the object name; when the list is complete the relationship is added and KeyFix clears the error, otherwise KeyError(OBJECT_NAMES); with import_objects each object joins objects under its dimension's class, one too many being IndexError |
| ImportRows.ValueEntries | spinedb_api/import_mapping/import_mapping.py:729-733 | the value dict holds the type, "compress" exactly for a compressed map, "options" exactly for a time series with options, and no other key |
| ImportRows.ImportParameterDefinition | spinedb_api/import_mapping/import_mapping.py:525-543 | with no class, KeyError(CLASS_NAME); otherwise names the parameter and registers the definition with a fresh extras list unless a default value of this row registered one |
| ImportRows.ImportParameterDefaultValue | spinedb_api/import_mapping/import_mapping.py:554-562 | an empty datum is skipped; otherwise the definition's extras get the value (and the list name), a missing extras list being KeyError |
| ImportRows.ImportParameterDefaultValueType | spinedb_api/import_mapping/import_mapping.py:568-586 | without a definition nothing happens; a known key is left alone; otherwise the typed value dict is registered and appended to the extras |
| ImportRows.ImportIndexName | spinedb_api/import_mapping/import_mapping.py:598-611 | the value dict under the row's key gets the datum as index name number id, id counting the same-class mappings above; a missing dict or key is KeyError |
| ImportRows.ImportIndex | spinedb_api/import_mapping/import_mapping.py:635-638 | needs a parameter name; the datum is appended to the row's index list, which is started when missing |
| ImportRows.ImportExpanded | spinedb_api/import_mapping/import_mapping.py:652-664 | the value dict under the row's key gets a data point (the datum alone for an array, the popped indexes plus the datum otherwise); mapped_data is untouched |
| ImportRows.ImportParameterValue | spinedb_api/import_mapping/import_mapping.py:676-700 | an empty datum is skipped; with no class, KeyError(CLASS_NAME); a success adds [class, entity, parameter, value(, alternative)] to the object or relationship values, the state unchanged |
| ImportRows.ValueKeyOf | spinedb_api/import_mapping/import_mapping.py:711-725 | the registration key starts with the class and ends with the parameter and the alternative; with no class, KeyError(CLASS_NAME) |
| ImportRows.ImportParameterValueType | spinedb_api/import_mapping/import_mapping.py:706-737 | without a parameter nothing happens; a key already registered adds nothing; otherwise the value dict is registered and [class, entity, parameter, dict(, alternative)] is added |
| ImportRows.ImportParameterValueList | spinedb_api/import_mapping/import_mapping.py:816-820 | below another mapping it needs a definition (KeyError otherwise); then the list name is set |
| ImportRows.ImportParameterValueListValue | spinedb_api/import_mapping/import_mapping.py:832-839 | an empty datum is skipped; otherwise needs a list name and adds [list, value] to the value lists |
| ImportRows.ImportAlternative | spinedb_api/import_mapping/import_mapping.py:850-852 | names the alternative and adds it to alternatives, nothing else changed |
| ImportRows.ImportScenarioActiveFlag | spinedb_api/import_mapping/import_mapping.py:875-878 | needs a scenario; a datum that is no truth value escapes as ValueError; otherwise (scenario, flag) joins the scenarios |
| ImportRows.ImportScenarioAlternative | spinedb_api/import_mapping/import_mapping.py:889-895 | an empty alternative is skipped; otherwise needs a scenario and adds a fresh [scenario, alternative] list kept in the state |
| ImportRows.AppendHeld | spinedb_api/import_mapping/import_mapping.py:906-909 | the list held in the state under the key grows by the datum; a missing key is KeyError on that key |
| ImportRows.ImportTool | spinedb_api/import_mapping/import_mapping.py:920-923 | names the tool; it joins tools exactly when nothing is mapped below it |
| ImportRows.ImportFeatureEntityClass | spinedb_api/import_mapping/import_mapping.py:934-936 | a new feature list holding only the entity class is stored in the state |
| ImportRows.ImportFeatureParameterDefinition | spinedb_api/import_mapping/import_mapping.py:947-951 | needs a feature; the parameter extends it and the feature joins features as a tuple |
| ImportRows.ImportToolItem | spinedb_api/import_mapping/import_mapping.py:962-967 | needs a tool; a fresh [tool, entity class] list joins the item type and is kept in the state under the key |
| ImportRows.ImportToolFeatureRequiredFlag | spinedb_api/import_mapping/import_mapping.py:992-995 | the flag is parsed first, a bad truth value escaping as ValueError even without a tool feature; a good one is appended to the tool feature |
| ImportRows.SkipRow | spinedb_api/import_mapping/import_mapping.py:663-664 | the expanded value mappings drop their row's indexes from the state; every other mapping changes nothing |
| ImportRows.Imported | spinedb_api/import_mapping/import_mapping.py:371-1041 | dispatches on the mapping type; the only exceptions that escape are a bad truth value (ValueError) and too many relationship objects (IndexError) |
| ImportRows.KeyStr | spinedb_api/import_mapping/import_mapping.py:250 | an import key is shown by its description, a string as itself |
| ImportRows.Invalid | spinedb_api/import_mapping/import_mapping.py:248-251 | the recorded error carries the mapping's rank, the key, and "Required key '...' is invalid" |
| ImportRows.RowErrors | spinedb_api/import_mapping/import_mapping.py:234-258 | going down the chain, KeyFix removes every recorded error on its keys, each KeyError adds one error at its mapping's rank, and only ValueError or IndexError escape |
| ImportRows.RowImport.Current | spinedb_api/import_mapping/import_mapping.py:234 | the state, mapped_data and store read as one value |
| ImportRows.RowImport.constructor | spinedb_api/import_mapping/import_mapping.py:240-241 | a fresh import starts with an empty state, nothing mapped and no errors |
| ImportRows.RowImport.ImportRow | spinedb_api/import_mapping/import_mapping.py:234-258 | a row the filters reject changes nothing; otherwise the new state, mapped data and errors are those the chain computes, with the escaping exception returned |
| ImportRows.CheckValidity | spinedb_api/import_mapping/import_mapping.py:80-88 | the errors are those of importing a row of "true" at every position into an empty state |
| ImportRows.Dummy | spinedb_api/import_mapping/import_mapping.py:81-83 | the dummy row reads "true" at every position |
| ImportRows.GroupChainValid | spinedb_api/import_mapping/import_mapping.py:385-423 | an object class, object and group chain records no new error: the group's KeyFix clears the object's KeyError(MEMBER_NAME) |
| ImportRows.GroupChainIncomplete | spinedb_api/import_mapping/import_mapping.py:385-390 | with the group mapping hidden the row reports MEMBER_NAME at rank 1 |
| ImportRows.RelationshipChainValid | spinedb_api/import_mapping/import_mapping.py:434-458 | a one-dimensional relationship class chain records no error: the completing object class clears OBJECT_CLASS_NAMES |
| ImportRows.RelationshipClassAlone | spinedb_api/import_mapping/import_mapping.py:434-441 | a relationship class with no object class below reports OBJECT_CLASS_NAMES at rank 0 |
| ImportRows.ValueTypeOnce | spinedb_api/import_mapping/import_mapping.py:726-727 | a typed value is registered once per key: a second run for the same key changes nothing and raises nothing |
| Items.Get | spinedb_api/check_functions.py:298 | item.get(key) is the stored value when the key is present and None otherwise |
| Items.Iterate | spinedb_api/check_functions.py:182 | iterating a list or tuple gives its elements in order; None, a bool or an int cannot be iterated |
| Items.Contains | spinedb_api/check_functions.py:586 | membership in a list or tuple is membership among its elements |
| Items.MissingKeys | spinedb_api/check_functions.py:481-483 | a key is reported missing exactly when it is required and the item lacks it |
| Items.Field | spinedb_api/check_functions.py:26-29 | d[key] succeeds exactly when the key is present, with the stored value; otherwise it is a KeyError |
| KeyFixes.Without | spinedb_api/import_mapping/import_mapping.py:251-256 | what a KeyFix leaves is never longer than what it got |
| KeyFixes.WithoutMembers | spinedb_api/import_mapping/import_mapping.py:251-256 | an error survives a KeyFix(key) exactly when it was recorded and is not about key |
| KeyFixes.WithoutAppend | spinedb_api/import_mapping/import_mapping.py:251-256 | the errors left keep their order: fixing a concatenation fixes each part |
| KeyFixes.WithoutIdempotent | spinedb_api/import_mapping/import_mapping.py:251-256 | a second KeyFix for the same key changes nothing |
| KeyFixes.WithoutAt | spinedb_api/import_mapping/import_mapping.py:255-256 | popping an error about the key at index k, going from the last index down, leaves the prefix plus the fixed suffix |
| KeyFixes.PopFixed | spinedb_api/import_mapping/import_mapping.py:251-256 | popping the indexes of the errors about key in reverse order leaves exactly the errors not about key, in their order |
| Renamer.RenamerConfig | spinedb_api/filters/renamer.py:39-49 | the configuration's "type" is entity_class_renamer and its "name_map" is the renames |
| Renamer.Pieces | spinedb_api/filters/renamer.py:73-75 | concatenating the pairs succeeds exactly when every new name is a str |
| Renamer.ConfigToShorthand | spinedb_api/filters/renamer.py:63-76 | the loop's result is the tag followed by ":old:new" for each pair of the name map in order |
| Renamer.PiecesErrSticks | spinedb_api/filters/renamer.py:74-75 | once a pair fails the concatenation, the whole shorthand fails with that error |
| Renamer.NamePairs | spinedb_api/filters/renamer.py:89-91 | the tokens after the tag, paired two by two; an unpaired last token is dropped |
| Renamer.ShorthandToConfig | spinedb_api/filters/renamer.py:79-93 | the loop's result is the configuration of the name map read from the pairs, later pairs overwriting earlier ones |
| Renamer.PiecesOfStrings | spinedb_api/filters/renamer.py:73-76 | with string new names the shorthand always exists and is the ":"-join of old and new names |
| Renamer.PiecesJoin | spinedb_api/filters/renamer.py:73-76 | a prefix followed by the pieces is the ":"-join of the prefix and the names |
| Renamer.NamePairsOfFlat | spinedb_api/filters/renamer.py:89-91 | splitting the tokens of a shorthand and pairing them gives back the pairs |
| Renamer.PutAllDistinct | spinedb_api/filters/renamer.py:90-92 | assigning distinct old names one after another yields the pairs in order |
| Renamer.ShorthandRoundTrip | spinedb_api/filters/renamer.py:63-93 | for distinct old names and names without ":", reading back the shorthand of a configuration gives the same configuration |
| Renamer.Ids | spinedb_api/filters/renamer.py:107-120 | a class id is mapped exactly when some class row with that id has a name in the name map, and it is mapped to that name's new name |
| Renamer.MakeState | spinedb_api/filters/renamer.py:97-104 | the state keeps the original classes and maps exactly the ids of the classes named in the name map |
| Renamer.RenamedClasses | spinedb_api/filters/renamer.py:123-149 | with nothing to rename the view is the original one; otherwise the same rows in the same order, each name replaced when its id is mapped, other columns unchanged |
| Renamer.RenamedByNameMap | spinedb_api/filters/renamer.py:116-149 | with unique class ids, a class named in the name map shows its new name and every other class keeps its name |
| Renamer.ApplyRenaming | spinedb_api/filters/renamer.py:26-36 | the entity class maker becomes the renaming one built from the captured state; the other makers and the commit flag are unchanged |
| ScenarioFilter.IdByName | spinedb_api/filters/scenario_filter.py:66 | the scalar lookup finds an id exactly when some scenario has that name, and the id is one of those scenarios' ids |
| ScenarioFilter.ScenarioId | spinedb_api/filters/scenario_filter.py:54-73 | a name resolves to the id of a scenario with that name, an id must belong to some scenario; otherwise SpineDBAPIError "Scenario '...' not found" or "Scenario id ... not found" |
| ScenarioFilter.MakeState | spinedb_api/filters/scenario_filter.py:44-51 | the state exists exactly when the scenario resolves; it keeps the current value view and the resolved id, and otherwise carries the lookup's error |
| ScenarioFilter.Matches | spinedb_api/filters/scenario_filter.py:102-103 | the join rows of one value are exactly the scenario_alternative rows of the scenario holding its alternative |
| ScenarioFilter.Join | spinedb_api/filters/scenario_filter.py:89-104 | a joined row exists exactly for a value of the view and a scenario_alternative row of the scenario with the value's alternative |
| ScenarioFilter.FirstsFromRows | spinedb_api/filters/scenario_filter.py:92-105 | a row is kept from position i on exactly when it is numbered 1 in its partition at some position from i on |
| ScenarioFilter.FirstUnique | spinedb_api/filters/scenario_filter.py:92-100 | row_number() gives 1 to at most one row per (definition, entity) partition |
| ScenarioFilter.Best | spinedb_api/filters/scenario_filter.py:92-100 | the row numbered 1 in a partition belongs to the partition and no row of the partition has a higher rank; an empty partition has none |
| ScenarioFilter.CountFirsts | spinedb_api/filters/scenario_filter.py:92-105 | a partition contributes one kept row, counted from the positions that include its winner, and none otherwise |
| ScenarioFilter.FilteredInScenario | spinedb_api/filters/scenario_filter.py:102-105 | only values of the captured view whose alternative belongs to the scenario survive the filter |
| ScenarioFilter.FilteredOnePerPair | spinedb_api/filters/scenario_filter.py:89-105 | each (definition, entity) pair keeps exactly one value when one of its values has an alternative in the scenario, and none otherwise |
| ScenarioFilter.FilteredHighestRank | spinedb_api/filters/scenario_filter.py:92-105 | the value kept for a pair has an alternative in the scenario whose rank no other value of the pair beats |
| ScenarioFilter.ApplyScenarioFilter | spinedb_api/filters/scenario_filter.py:23-32 | an unknown scenario raises before the mapping changes; otherwise only the parameter value maker is replaced by the filtering one and the value subqueries are cleared |
| ToolFilter.ToolFilterConfig | spinedb_api/filters/tool_filter.py:41-51 | the configuration's "type" is tool_filter and its "tool" is the tool |
| ToolFilter.ToolNameFromDict | spinedb_api/filters/tool_filter.py:65-75 | a configuration without "type" raises KeyError; another type gives None; a tool filter gives its "tool", a missing one raising KeyError |
| ToolFilter.ConfigToShorthand | spinedb_api/filters/tool_filter.py:78-88 | the shorthand exists exactly when "tool" is present and a str, and it is "tool:" followed by the name |
| ToolFilter.ShorthandToConfig | spinedb_api/filters/tool_filter.py:91-102 | the configuration is a tool filter whose tool is everything after the first ":" (empty when there is none) |
| ToolFilter.ShorthandRoundTrip | spinedb_api/filters/tool_filter.py:78-102 | the shorthand of any tool filter configuration with a str name reads back as that configuration, ":" in the name included |
| ToolFilter.IdByName | spinedb_api/filters/tool_filter.py:142 | the scalar lookup finds an id exactly when some tool has that name, and it is one of those tools' ids |
| ToolFilter.ToolId | spinedb_api/filters/tool_filter.py:129-150 | a name resolves to the id of a tool with that name, an id must be some tool's id; otherwise SpineDBAPIError "Tool '...' not found." or "Tool id ... not found." |
| ToolFilter.Outer | spinedb_api/filters/tool_filter.py:153-191 | an outer join side is the matching rows, or a single NULL row when nothing matches |
| ToolFilter.ActiveIffFeaturesSatisfied | spinedb_api/filters/tool_filter.py:153-270 | an entity passes exactly when every tool feature on a definition of its class is satisfied: with values, each refers to the feature's method when one is set; without, the feature is not required and the definition's default refers to the method |
| ToolFilter.ActiveIds | spinedb_api/filters/tool_filter.py:153-191 | an id is stored exactly when an entity of the view with that id passes the filter |
| ToolFilter.MakeState | spinedb_api/filters/tool_filter.py:114-126 | the state exists exactly when the tool resolves; it keeps the entity view and the ids of exactly the passing entities, and otherwise carries the lookup's error |
| ToolFilter.FilteredEntities | spinedb_api/filters/tool_filter.py:272-289 | the filtered view holds exactly the captured entities whose id passed, in view order |
| ToolFilter.Keep | spinedb_api/filters/tool_filter.py:272-289 | an entity is kept exactly when it is in the view and its id is among the ids |
| ToolFilter.ApplyToolFilter | spinedb_api/filters/tool_filter.py:28-38 | an unknown tool raises before the mapping changes; otherwise only the entity maker is replaced by the filtering one |
| Json.Subscript | spinedb_api/filters/tool_filter.py:75 | d[key] on a decoded JSON value: a dict with the key gives its value, a dict without it raises KeyError(key), any other value raises TypeError |
| UrlTools.Get | spinedb_api/filters/url_tools.py:62-63 | query.get finds a key exactly when some entry has it, and gives that entry's values |
| UrlTools.Remove | spinedb_api/filters/url_tools.py:110 | del query[key] keeps every other entry in order, drops the key, and changes nothing when the key is absent |
| UrlTools.AppendValue | spinedb_api/filters/url_tools.py:63-66 | appending under a new key adds it last with the one value |
| UrlTools.AppendValueGet | spinedb_api/filters/url_tools.py:63-66 | after the append the key holds its old values followed by the new one; every other key reads as before |
| UrlTools.AppendValueUnique | spinedb_api/filters/url_tools.py:63-66 | appending keeps the query's keys distinct |
| UrlTools.RemoveAppendValue | spinedb_api/filters/url_tools.py:63-66 | appending under a key the query lacks and then deleting it gives the query back |
| UrlTools.ConfigToShorthand | spinedb_api/filters/url_tools.py:117-133 | the result starts with "cfg:"; a configuration without "type" raises its KeyError; a tool filter is written as "cfg:tool:" and its name; an unknown type is a KeyError |
| UrlTools.ParseShorthand | spinedb_api/filters/url_tools.py:136-153 | the parser is chosen by the text before the first ":"; "tool" reads a tool filter, the renamer tag a renamer configuration; an unknown tag is a KeyError |
| UrlTools.StoredValue | spinedb_api/filters/url_tools.py:64-65 | a file path is stored as it is, a configuration dict as its "cfg:" shorthand |
| UrlTools.AppendFilterConfig | spinedb_api/filters/url_tools.py:48-68 | succeeds exactly when the configuration can be stored; the stored value goes after the URL's filters; every other query key and what precedes the query are unchanged |
| UrlTools.ParseStored | spinedb_api/filters/url_tools.py:88-92 | a "cfg:" value is parsed as a shorthand, anything else is kept as a file path |
| UrlTools.ParseAll | spinedb_api/filters/url_tools.py:87-92 | the stored filters are read back one per value, in order, and the first that fails to parse fails them all |
| UrlTools.Popped | spinedb_api/filters/url_tools.py:71-94 | a URL without filters gives no filters and the URL itself; otherwise the filters read back and the URL without the filter key |
| UrlTools.PopFilterConfigs | spinedb_api/filters/url_tools.py:71-94 | the loop reads the stored filters back as Popped says |
| UrlTools.ParseAllErrSticks | spinedb_api/filters/url_tools.py:88-92 | once a stored filter fails, popping fails with that error whatever follows |
| UrlTools.ClearFilterConfigs | spinedb_api/filters/url_tools.py:97-114 | the URL loses its filter key, keeps everything else, and is returned as it is when it has no filters |
| UrlTools.AppendThenPop | spinedb_api/filters/url_tools.py:48-94 | popping right after appending to a URL without filters gives the stored configuration's reading and the URL back |
| UrlTools.FileRoundTrip | spinedb_api/filters/url_tools.py:48-94 | a file path not starting with "cfg:" is appended and popped back verbatim, with the URL |
| UrlTools.ToolRoundTrip | spinedb_api/filters/url_tools.py:48-94 | any tool filter configuration with a str name goes through the URL unchanged |
| UrlTools.RenamerRoundTrip | spinedb_api/filters/url_tools.py:48-94 | a renamer configuration with distinct names free of ":" goes through the URL unchanged |
| UrlTools.RenamerStored | spinedb_api/filters/url_tools.py:127-133 | a renamer configuration is stored as "cfg:" followed by its shorthand |
| UrlTools.RenamerParsed | spinedb_api/filters/url_tools.py:136-153 | the stored renamer shorthand parses back to the configuration it came from |
| UrlTools.ClearAfterAppend | spinedb_api/filters/url_tools.py:48-114 | clearing a URL right after appending to it gives back the URL it had without filters |
| Text.ParseInt | spinedb_api/import_mapping/import_mapping.py:184 | int() on text: it succeeds only on non-empty text, gives a non-negative value when the text holds no '-', and reads plain decimal digits as their value |
| Text.ParseIntOfIntToString | spinedb_api/db_cache.py:297 | an integer written with str() reads back as the same integer |
| Text.ParseIntIgnoresPadding | spinedb_api/import_mapping/import_mapping.py:184 | whitespace on either side of the text is ignored, as int() strips it |
| Text.UnderscoreBetweenDigits | spinedb_api/import_mapping/import_mapping.py:184 | an underscore between two digits is skipped, so "1_000" reads as 1000 |

## Left out

- ParameterValue.BreakDictionary, ParameterValue.DictionaryColumns, ParameterValue.TwoColumns: values are kept as the JSON values they were read from. The source stores them in numpy float arrays and raises ValueError for data that is not numeric (spinedb_api/parameter_value.py:178-181, 252-261, 330-341). Floating point is not modelled.
- ParameterValue.ToDatabase: the source converts each time series value with float() and raises ParameterValueFormatError when that fails (spinedb_api/parameter_value.py:697-705). The model writes the values as they are, so that error path is absent.
- ParameterValue: date parsing and rendering (dateutil, numpy datetime64) are a Calendar parameter, not a model of those libraries.
- Duration: dateutil's relativedelta normalisation (60 minutes becoming an hour, and so on) is not modelled. A delta keeps its six fields as given.
- DbCache.DBCache.AddReferrer, DbCache.DBCache.CascadeRemove: referrers are recorded by their (table, id) key, not by object. The source holds item objects, so a stale object left over after make_cache reloads a table is not modelled. Item update and remove callbacks, cascade_update, and the popping of "parsed_value" on update are left out. The order of TableCache.values() is not modelled, and make_item on query rows is not modelled: query rows arrive as ready-made items. Item references are fixed when the item is created.
- CheckMixin.Locate, CheckMixin.Step, CheckMixin.StocksStep, CheckMixin.StocksStepAsWritten, CheckMixin.CheckSession.ManageStocks, CheckMixinLemmas.InsertRegistersKeys: an insert is checked and registered on the item exactly as given. The source first builds the cache item with cache.make_item (spinedb_api/db_mapping_check_mixin.py:834), whose constructors fill and convert fields (spinedb_api/db_cache.py:294-299, 315-324, 374-379, 396-400). So the model does not capture these cases: a relationship class without object_class_id_list, where make_item raises KeyError and the batch ends; an object_class_id_list or object_id_list given as "1,2", which the source turns into the integers (1, 2) before the keys are taken; and a parameter value or definition of type "list_value_ref" whose value is not an integer, where make_item raises ValueError. In each of these the model takes the keys from the raw fields, or reports a missing key field as an integrity violation.
- Items: True and 1, and False and 0, are distinct values. As dict keys, in sets and in list comparisons they differ, where Python treats them as equal and gives them equal hashes.
- Helpers.ForwardSweep, Helpers.Sweep: a node is identified by its path from the root. The source keys its parent and children dicts by node object, so a node reached twice in a DAG overwrites its own entries. That behaviour is not modelled.
- Text.ParseInt: digits are ASCII digits. Python's int() also reads other Unicode decimal digits (Arabic-Indic, fullwidth and so on), which the model rejects.
- Json.PyStr: abbreviates a non-empty list as "[...]" and a non-empty dict as "{...}" in error messages, where Python's str() prints the contents.
- Json: numbers are integers. Floating point is not modelled.
- Json.Lookup: a decoded dict may repeat a key here; Lookup reads the first entry under it, where json.loads keeps the last, so text with repeated keys is read differently. The writers never repeat a key.
- UrlTools.AppendFilterConfig, UrlTools.AppendThenPop, UrlTools.ClearFilterConfigs: a URL is abstracted to its location and its parsed query (an ordered map from key to values). "Nothing else changes" and the round trip hold on that abstraction only. The source rewrites the path to "//" + path (spinedb_api/filters/url_tools.py:67, 93, 113), which breaks a URL that has a host. urlencode regroups repeated keys, and parse_qs drops blank values. The textual urlparse/urlencode layer is not modelled.
- UrlTools: TOOL_FILTER_SHORTHAND_TAG is imported from tool_filter.py, which does not define it; the model takes it to be "tool". The alternative and scenario filters' shorthand functions are not part of this model and are passed in as the OtherFilters parameter.
- AddMixin.Assign, AddMixin.AssignAsWritten, ExtMetadata.FinalLinks: a missing metadata name or value is reported as KeyError("metadata"), where Python's KeyError carries the missing name or value itself.
- ImportRows.Push, ImportRows.Put: appending to something that is not a list, or setting into something that is not a dict, leaves the store unchanged. The source would raise AttributeError or TypeError.
- ImportRows.ImportExpanded: the contract states only that nothing escapes or is fixed, that mapped_data is unchanged, and that a finished step leaves the value key in the state. The expanded values themselves are not described.
- ImportRows: IndexNameMappingBase caches its id in self._id, and the model recomputes it each time by counting. Row data is given per mapping, so `_data(source_row)` is not modelled. The regular-expression row filter is a `rejected` flag. Mapping options are opaque.
- ImportMappings: a mapping's rank is its index in the chain. spinedb_api/mapping.py (flatten, unflatten, parent links) is not part of this model. _polish_for_preview (spinedb_api/import_mapping/import_mapping.py:197-203) is not modelled.
- ExportSettings: export_mapping.py is not part of this model. A mapping is its kind, position, ignorable flag and highlighted dimension. The highlighting mappings are taken to subclass the relationship class and relationship mappings. Python's negative slicing is modelled explicitly in Take.
- ExecutionFilter: json.dumps/json.loads are passed in as a JsonText pair of functions. apply_execution_filter and execution_filter_from_dict (spinedb_api/filters/execution_filter.py:28-39, 54-62) install the state on a database mapping and are not modelled.
- ToolFilter, Renamer: tool_filter_from_dict (spinedb_api/filters/tool_filter.py:54-62) and entity_class_renamer_from_dict (spinedb_api/filters/renamer.py:52-60) only dispatch to the apply functions, and are not modelled.
- DiffMapping: loading and applying the URL's filter configurations at construction (spinedb_api/diff_db_mapping.py:53-58) is not modelled, because the database engine and URL parsing are outside the model.
- UpdateMixin: update_items (spinedb_api/db_mapping_update_mixin.py:60-86) and the update_* one-line wrappers, including update_ext_entity_metadata and update_ext_parameter_value_metadata (211-225), only combine the modelled check_items and _update_items. They are not modelled separately.
- AddMixin: the add_* one-line wrappers, add_ext_* and _add_ext_item_metadata (spinedb_api/db_mapping_add_mixin.py:281-401), and the add_object/get_or_add_* conveniences (460-580) are not modelled separately. _get_or_add_metadata_ids_for_items, which they rely on, is modelled.
- RemoveMixin: the usage count of each metadata is computed on every call. cascade_remove_items (spinedb_api/db_mapping_remove_mixin.py:28-35) only composes cascading_ids and remove_items.
- SQL, the engine, connections, transactions and the wrapping of DBAPIError are not modelled. Neither are the date, time and user name in diff table names, or uuid-based temporary table names. The MySQL workaround in _subquery is not modelled either. Tables are in-memory rows.
- Python dict order where the source does not rely on it, hashability, repr escaping, and str.lower() beyond ASCII are not modelled.

## Findings

| source | as written | input that shows it | evidently intended | confidence | as-written member | corrected member |
|---|---|---|---|---|---|---|
| spinedb_api/db_mapping_check_mixin.py:836-862 | On update, `existing_ids_by_key` is computed from the item before `full_item.update(item)`. After a passing check, those OLD keys are put back with the item's id, and the new keys are never registered. | Rename item 1 from "a" to a free name "b": "a" stays registered to item 1, and "b" is not registered. A second rename of item 2 to "b" in the same batch also passes, leaving two items named "b". | Drop the old keys and register the keys of the updated item, so that a later rename to "b" is rejected. | not executed | CheckMixinLemmas.RenameAsWritten, CheckMixinLemmas.RenameTwiceAsWritten, CheckMixinLemmas.UpdateReregistersOldKeysAsWritten | CheckMixinLemmas.UpdateReindexes, CheckMixinLemmas.LaterRenameToTakenNameRejected |
| spinedb_api/db_mapping_check_mixin.py:837-848 | `existing_ids_by_key` is a dict keyed by key value. When two primary keys of an item have equal values, the entries collapse into one. The update then deletes the key from only one of the existing-id dicts. | Update, without changes, a scenario_alternative whose alternative_id equals its rank. The key (scenario_id, alternative_id) equals (scenario_id, rank), so the item's own key stays in the first dict, and the validator reports the item as a duplicate of itself. | Keep one entry per primary key, so that every dict loses the item's own key before validation. | not executed | CheckMixinLemmas.EqualKeysCollapseAsWritten | CheckMixinLemmas.EqualKeysKeptApart, CheckMixinLemmas.EqualKeysPass, CheckMixinLemmas.UnchangedKeysStayIndexed |
| spinedb_api/db_mapping_remove_mixin.py:272-280 | `_non_referenced_metadata_ids` subtracts one from the usage count for every id it is given. The counts come from `_metadata_usage_counts` (spinedb_api/db_mapping_base.py:2132-2147), which counts only valid links. | Entity_metadata 1 was removed earlier and is still in the cache; valid link 2 also uses metadata 7. Removing entity_metadata 1 again drops metadata 7's count to zero, so metadata 7 is removed while link 2 still uses it. | Subtract only the links that are still counted, and keep metadata that a valid link uses. | not executed | RemoveMixin.StaleLinkOrphansUsedMetadata | RemoveMixin.StaleLinkKeepsUsedMetadata, RemoveMixin.CascadeClosed |
| spinedb_api/db_mapping_add_mixin.py:349 | `items_missing_metadata_ids` keeps one item per new (name, value) pair. At 362-364, only that last item receives the new metadata id. The loss needs check=False: with check=True, the duplicate metadata rows are rejected and the function returns at 357-358. | Two items both naming the new pair ("a", "b"), added with check=False: the second gets metadata_id 7, and the first gets no metadata_id. | Give every item that names a new pair the id of the added metadata. | not executed | AddMixin.SharedNewPairAsWritten, AddMixin.AssignAsWritten | AddMixin.Assign, AddMixin.EveryItemLinked |
| spinedb_api/import_mapping/import_mapping.py:1053-1092 | from_dict's table from MAP_TYPE to class lists every mapping class except DefaultValueIndexNameMapping. | A serialized mapping with map_type "DefaultValueIndexName", which that class writes itself, raises KeyError in from_dict. | Read every MAP_TYPE a mapping class writes back to that class. | not executed | ImportMappings.MapTypeNamedAsWritten, ImportMappings.DefaultValueIndexNameUnreadable | ImportMappings.MapTypeNamed, ImportMappings.MapTypeNamesRead |
