// The import mappings of spinedb_api/import_mapping/import_mapping.py, as
// configured objects: the import keys, the mapping types and their names,
// the validating setters of skip_columns and read_start_row, polishing a
// chain against a source table's name and header, and from_dict.
//
// A chain of mappings is a sequence, root first: the parent/child links
// and unflatten come from spinedb_api/mapping.py, which is not part of this
// model, and a mapping's rank (its depth below the root) is its index.

module ImportMappings {
  import opened Errors
  import opened Text
  import opened Items

  // ---------------------------------------------------------------------------
  // Import keys

  /** The keys of the state an import row threads through a chain. */
  datatype ImportKey =
    | ClassName | RelationshipDimensionCount | ObjectClassName | ObjectName | GroupName | MemberName
    | ParameterName | ParameterDefinition | ParameterDefinitionExtras | ParameterDefaultValues
    | ParameterDefaultValueIndexes | ParameterValues | ParameterValueIndexes | RelationshipClassName
    | ObjectClassNames | ObjectNames | AlternativeName | ScenarioName | ScenarioAlternative | Feature
    | ToolName | ToolFeature | ToolFeatureMethod | ParameterValueListName

  /** The keys without a description of their own, written as their enum member. */
  function EnumText(k: ImportKey): Option<string>
  {
    match k
    case RelationshipDimensionCount => Some("ImportKey.RELATIONSHIP_DIMENSION_COUNT")
    case ParameterDefinitionExtras => Some("ImportKey.PARAMETER_DEFINITION_EXTRAS")
    case ParameterDefaultValues => Some("ImportKey.PARAMETER_DEFAULT_VALUES")
    case ParameterValues => Some("ImportKey.PARAMETER_VALUES")
    case AlternativeName => Some("ImportKey.ALTERNATIVE_NAME")
    case _ => None
  }

  /** str(ImportKey): what an error about the key names, the enum member when the key has no description. */
  function KeyText(k: ImportKey): (r: string)
    ensures EnumText(k).Some? ==> r == EnumText(k).value
  {
    match k
    case ClassName => "Class names"
    case ObjectClassName => "Object class names"
    case ObjectName => "Object names"
    case GroupName => "Group names"
    case MemberName => "Member names"
    case ParameterName => "Parameter names"
    case ParameterDefinition => "Parameter names"
    case ParameterDefaultValueIndexes => "Parameter indexes"
    case ParameterValueIndexes => "Parameter indexes"
    case RelationshipClassName => "Relationship class names"
    case ObjectClassNames => "Object class names"
    case ObjectNames => "Object names"
    case ParameterValueListName => "Parameter value lists"
    case ScenarioName => "Scenario names"
    case ScenarioAlternative => "Alternative names"
    case ToolName => "Tool names"
    case Feature => "Entity class names"
    case ToolFeature => "Entity class names"
    case ToolFeatureMethod => "Entity class names"
    case _ => EnumText(k).value
  }

  /** Two keys share a description, so an error's text alone does not tell which key it is about. */
  lemma KeyTextsShared()
    ensures KeyText(ParameterName) == KeyText(ParameterDefinition)
    ensures KeyText(ObjectClassName) == KeyText(ObjectClassNames)
    ensures ParameterName != ParameterDefinition && ObjectClassName != ObjectClassNames
  {
  }

  // ---------------------------------------------------------------------------
  // Mapping types

  /** The import mapping classes. */
  datatype MapType =
    | ObjectClass | Object | ObjectMetadata | ObjectGroup | RelationshipClass | RelationshipClassObjectClass
    | Relationship | RelationshipObject | RelationshipMetadata | ParameterDefinitionType | ParameterDefaultValue
    | ParameterDefaultValueType | DefaultValueIndexName | ParameterDefaultValueIndex | ExpandedDefaultValue
    | ParameterValue | ParameterValueType | ParameterValueMetadata | IndexName | ParameterValueIndex
    | ExpandedValue | ParameterValueList | ParameterValueListValue | Alternative | Scenario | ScenarioActiveFlag
    | ScenarioAlternativeType | ScenarioBeforeAlternative | Tool | FeatureEntityClass | FeatureParameterDefinition
    | ToolFeatureEntityClass | ToolFeatureParameterDefinition | ToolFeatureRequiredFlag
    | ToolFeatureMethodEntityClass | ToolFeatureMethodParameterDefinition | ToolFeatureMethodMethod
  {
    /** MAP_TYPE */
    function Name(): string
    {
      match this
      case ObjectClass => ObjectClassTag
      case Object => ObjectTag
      case ObjectMetadata => ObjectMetadataTag
      case ObjectGroup => ObjectGroupTag
      case RelationshipClass => RelationshipClassTag
      case RelationshipClassObjectClass => RelationshipClassObjectClassTag
      case Relationship => RelationshipTag
      case RelationshipObject => RelationshipObjectTag
      case RelationshipMetadata => RelationshipMetadataTag
      case ParameterDefinitionType => ParameterDefinitionTypeTag
      case ParameterDefaultValue => ParameterDefaultValueTag
      case ParameterDefaultValueType => ParameterDefaultValueTypeTag
      case DefaultValueIndexName => DefaultValueIndexNameTag
      case ParameterDefaultValueIndex => ParameterDefaultValueIndexTag
      case ExpandedDefaultValue => ExpandedDefaultValueTag
      case ParameterValue => ParameterValueTag
      case ParameterValueType => ParameterValueTypeTag
      case ParameterValueMetadata => ParameterValueMetadataTag
      case IndexName => IndexNameTag
      case ParameterValueIndex => ParameterValueIndexTag
      case ExpandedValue => ExpandedValueTag
      case ParameterValueList => ParameterValueListTag
      case ParameterValueListValue => ParameterValueListValueTag
      case Alternative => AlternativeTag
      case Scenario => ScenarioTag
      case ScenarioActiveFlag => ScenarioActiveFlagTag
      case ScenarioAlternativeType => ScenarioAlternativeTypeTag
      case ScenarioBeforeAlternative => ScenarioBeforeAlternativeTag
      case Tool => ToolTag
      case FeatureEntityClass => FeatureEntityClassTag
      case FeatureParameterDefinition => FeatureParameterDefinitionTag
      case ToolFeatureEntityClass => ToolFeatureEntityClassTag
      case ToolFeatureParameterDefinition => ToolFeatureParameterDefinitionTag
      case ToolFeatureRequiredFlag => ToolFeatureRequiredFlagTag
      case ToolFeatureMethodEntityClass => ToolFeatureMethodEntityClassTag
      case ToolFeatureMethodParameterDefinition => ToolFeatureMethodParameterDefinitionTag
      case ToolFeatureMethodMethod => ToolFeatureMethodMethodTag
    }

    /** The classes that take import_objects. */
    predicate ImportsObjects()
    {
      ObjectGroup? || RelationshipObject?
    }

    /** The classes that take compress and options. */
    predicate Indexed()
    {
      ParameterDefaultValueType? || ParameterValueType?
    }
  }

  // Each class's MAP_TYPE, one constant per class.
  const ObjectClassTag := "ObjectClass"
  const ObjectTag := "Object"
  const ObjectMetadataTag := "ObjectMetadata"
  const ObjectGroupTag := "ObjectGroup"
  const RelationshipClassTag := "RelationshipClass"
  const RelationshipClassObjectClassTag := "RelationshipClassObjectClass"
  const RelationshipTag := "Relationship"
  const RelationshipObjectTag := "RelationshipObject"
  const RelationshipMetadataTag := "RelationshipMetadata"
  const ParameterDefinitionTypeTag := "ParameterDefinition"
  const ParameterDefaultValueTag := "ParameterDefaultValue"
  const ParameterDefaultValueTypeTag := "ParameterDefaultValueType"
  const DefaultValueIndexNameTag := "DefaultValueIndexName"
  const ParameterDefaultValueIndexTag := "ParameterDefaultValueIndex"
  const ExpandedDefaultValueTag := "ExpandedDefaultValue"
  const ParameterValueTag := "ParameterValue"
  const ParameterValueTypeTag := "ParameterValueType"
  const ParameterValueMetadataTag := "ParameterValueMetadata"
  const IndexNameTag := "IndexName"
  const ParameterValueIndexTag := "ParameterValueIndex"
  const ExpandedValueTag := "ExpandedValue"
  const ParameterValueListTag := "ParameterValueList"
  const ParameterValueListValueTag := "ParameterValueListValue"
  const AlternativeTag := "Alternative"
  const ScenarioTag := "Scenario"
  const ScenarioActiveFlagTag := "ScenarioActiveFlag"
  const ScenarioAlternativeTypeTag := "ScenarioAlternative"
  const ScenarioBeforeAlternativeTag := "ScenarioBeforeAlternative"
  const ToolTag := "Tool"
  const FeatureEntityClassTag := "FeatureEntityClass"
  const FeatureParameterDefinitionTag := "FeatureParameterDefinition"
  const ToolFeatureEntityClassTag := "ToolFeatureEntityClass"
  const ToolFeatureParameterDefinitionTag := "ToolFeatureParameterDefinition"
  const ToolFeatureRequiredFlagTag := "ToolFeatureRequiredFlag"
  const ToolFeatureMethodEntityClassTag := "ToolFeatureMethodEntityClass"
  const ToolFeatureMethodParameterDefinitionTag := "ToolFeatureMethodParameterDefinition"
  const ToolFeatureMethodMethodTag := "ToolFeatureMethodMethod"


  /**
   * The one class whose MAP_TYPE a name can be: the table is keyed by the
   * name's length and, among the names of that length, by one letter that
   * tells them apart.
   */
  function Candidate(name: string): Option<MapType>
  {
    match |name|
    case 4 => Some(Tool)
    case 6 => Some(Object)
    case 8 => Some(Scenario)
    case 9 => Some(IndexName)
    case 11 =>
      if name[6] == 'C' then Some(ObjectClass) else
      if name[6] == 'G' then Some(ObjectGroup) else
      Some(Alternative)
    case 12 => Some(Relationship)
    case 13 => Some(ExpandedValue)
    case 14 =>
      if name[0] == 'O' then Some(ObjectMetadata) else
      Some(ParameterValue)
    case 17 => Some(RelationshipClass)
    case 18 =>
      if name[14] == 'j' then Some(RelationshipObject) else
      if name[14] == 'T' then Some(ParameterValueType) else
      if name[14] == 'L' then Some(ParameterValueList) else
      if name[14] == 'F' then Some(ScenarioActiveFlag) else
      Some(FeatureEntityClass)
    case 19 =>
      if name[9] == 'D' then Some(ParameterDefinitionType) else
      if name[9] == 'V' then Some(ParameterValueIndex) else
      Some(ScenarioAlternativeType)
    case 20 =>
      if name[0] == 'R' then Some(RelationshipMetadata) else
      Some(ExpandedDefaultValue)
    case 21 =>
      if name[0] == 'P' then Some(ParameterDefaultValue) else
      Some(DefaultValueIndexName)
    case 22 =>
      if name[0] == 'P' then Some(ParameterValueMetadata) else
      Some(ToolFeatureEntityClass)
    case 23 =>
      if name[11] == 'l' then Some(ParameterValueListValue) else
      if name[11] == 'R' then Some(ToolFeatureRequiredFlag) else
      Some(ToolFeatureMethodMethod)
    case 25 =>
      if name[0] == 'P' then Some(ParameterDefaultValueType) else
      Some(ScenarioBeforeAlternative)
    case 26 =>
      if name[0] == 'P' then Some(ParameterDefaultValueIndex) else
      Some(FeatureParameterDefinition)
    case 28 =>
      if name[0] == 'R' then Some(RelationshipClassObjectClass) else
      Some(ToolFeatureMethodEntityClass)
    case 30 => Some(ToolFeatureParameterDefinition)
    case 36 => Some(ToolFeatureMethodParameterDefinition)
    case _ => None
  }

  /**
   * The class a MAP_TYPE names in from_dict's table: the candidate when its
   * MAP_TYPE is the name, with the legacy "ParameterIndex" read as a
   * parameter value index mapping.
   */
  function MapTypeNamed(name: string): (r: Option<MapType>)
    ensures r.Some? ==> r.value.Name() == name || (name == "ParameterIndex" && r.value == ParameterValueIndex)
  {
    if name == "ParameterIndex" then Some(ParameterValueIndex)
    else
      var candidate := Candidate(name);
      if candidate.Some? && candidate.value.Name() == name then candidate else None
  }

  /** Every class's MAP_TYPE is read back as that class. */
  lemma MapTypeNamesRead(t: MapType)
    ensures MapTypeNamed(t.Name()) == Some(t)
  {
    match t
    case ObjectClass => NamesReadPair0(t);
    case Object => NamesReadPair0(t);
    case ObjectMetadata => NamesReadPair1(t);
    case ObjectGroup => NamesReadPair1(t);
    case RelationshipClass => NamesReadPair2(t);
    case RelationshipClassObjectClass => NamesReadPair2(t);
    case Relationship => NamesReadPair3(t);
    case RelationshipObject => NamesReadPair3(t);
    case RelationshipMetadata => NamesReadPair4(t);
    case ParameterDefinitionType => NamesReadPair4(t);
    case ParameterDefaultValue => NamesReadPair5(t);
    case ParameterDefaultValueType => NamesReadPair5(t);
    case DefaultValueIndexName => NamesReadPair6(t);
    case ParameterDefaultValueIndex => NamesReadPair6(t);
    case ExpandedDefaultValue => NamesReadPair7(t);
    case ParameterValue => NamesReadPair7(t);
    case ParameterValueType => NamesReadPair8(t);
    case ParameterValueMetadata => NamesReadPair8(t);
    case IndexName => NamesReadPair9(t);
    case ParameterValueIndex => NamesReadPair9(t);
    case ExpandedValue => NamesReadPair10(t);
    case ParameterValueList => NamesReadPair10(t);
    case ParameterValueListValue => NamesReadPair11(t);
    case Alternative => NamesReadPair11(t);
    case Scenario => NamesReadPair12(t);
    case ScenarioActiveFlag => NamesReadPair12(t);
    case ScenarioAlternativeType => NamesReadPair13(t);
    case ScenarioBeforeAlternative => NamesReadPair13(t);
    case Tool => NamesReadPair14(t);
    case FeatureEntityClass => NamesReadPair14(t);
    case FeatureParameterDefinition => NamesReadPair15(t);
    case ToolFeatureEntityClass => NamesReadPair15(t);
    case ToolFeatureParameterDefinition => NamesReadPair16(t);
    case ToolFeatureRequiredFlag => NamesReadPair16(t);
    case ToolFeatureMethodEntityClass => NamesReadPair17(t);
    case ToolFeatureMethodParameterDefinition => NamesReadPair17(t);
    case ToolFeatureMethodMethod => NamesReadPair18(t);
  }

  // The round trip is proved two classes at a time, which keeps each proof small.

  lemma NamesReadPair0(t: MapType)
    requires t.ObjectClass? || t.Object?
    ensures MapTypeNamed(t.Name()) == Some(t)
  {
    match t
    case ObjectClass => assert Candidate(ObjectClassTag) == Some(ObjectClass);
    case Object => assert Candidate(ObjectTag) == Some(Object);
  }

  lemma NamesReadPair1(t: MapType)
    requires t.ObjectMetadata? || t.ObjectGroup?
    ensures MapTypeNamed(t.Name()) == Some(t)
  {
    match t
    case ObjectMetadata => assert Candidate(ObjectMetadataTag) == Some(ObjectMetadata);
    case ObjectGroup => assert Candidate(ObjectGroupTag) == Some(ObjectGroup);
  }

  lemma NamesReadPair2(t: MapType)
    requires t.RelationshipClass? || t.RelationshipClassObjectClass?
    ensures MapTypeNamed(t.Name()) == Some(t)
  {
    match t
    case RelationshipClass => assert Candidate(RelationshipClassTag) == Some(RelationshipClass);
    case RelationshipClassObjectClass => assert Candidate(RelationshipClassObjectClassTag) == Some(RelationshipClassObjectClass);
  }

  lemma NamesReadPair3(t: MapType)
    requires t.Relationship? || t.RelationshipObject?
    ensures MapTypeNamed(t.Name()) == Some(t)
  {
    match t
    case Relationship => assert Candidate(RelationshipTag) == Some(Relationship);
    case RelationshipObject => assert Candidate(RelationshipObjectTag) == Some(RelationshipObject);
  }

  lemma NamesReadPair4(t: MapType)
    requires t.RelationshipMetadata? || t.ParameterDefinitionType?
    ensures MapTypeNamed(t.Name()) == Some(t)
  {
    match t
    case RelationshipMetadata => assert Candidate(RelationshipMetadataTag) == Some(RelationshipMetadata);
    case ParameterDefinitionType => assert Candidate(ParameterDefinitionTypeTag) == Some(ParameterDefinitionType);
  }

  lemma NamesReadPair5(t: MapType)
    requires t.ParameterDefaultValue? || t.ParameterDefaultValueType?
    ensures MapTypeNamed(t.Name()) == Some(t)
  {
    match t
    case ParameterDefaultValue => assert Candidate(ParameterDefaultValueTag) == Some(ParameterDefaultValue);
    case ParameterDefaultValueType => assert Candidate(ParameterDefaultValueTypeTag) == Some(ParameterDefaultValueType);
  }

  lemma NamesReadPair6(t: MapType)
    requires t.DefaultValueIndexName? || t.ParameterDefaultValueIndex?
    ensures MapTypeNamed(t.Name()) == Some(t)
  {
    match t
    case DefaultValueIndexName => assert Candidate(DefaultValueIndexNameTag) == Some(DefaultValueIndexName);
    case ParameterDefaultValueIndex => assert Candidate(ParameterDefaultValueIndexTag) == Some(ParameterDefaultValueIndex);
  }

  lemma NamesReadPair7(t: MapType)
    requires t.ExpandedDefaultValue? || t.ParameterValue?
    ensures MapTypeNamed(t.Name()) == Some(t)
  {
    match t
    case ExpandedDefaultValue => assert Candidate(ExpandedDefaultValueTag) == Some(ExpandedDefaultValue);
    case ParameterValue => assert Candidate(ParameterValueTag) == Some(ParameterValue);
  }

  lemma NamesReadPair8(t: MapType)
    requires t.ParameterValueType? || t.ParameterValueMetadata?
    ensures MapTypeNamed(t.Name()) == Some(t)
  {
    match t
    case ParameterValueType => assert Candidate(ParameterValueTypeTag) == Some(ParameterValueType);
    case ParameterValueMetadata => assert Candidate(ParameterValueMetadataTag) == Some(ParameterValueMetadata);
  }

  lemma NamesReadPair9(t: MapType)
    requires t.IndexName? || t.ParameterValueIndex?
    ensures MapTypeNamed(t.Name()) == Some(t)
  {
    match t
    case IndexName => assert Candidate(IndexNameTag) == Some(IndexName);
    case ParameterValueIndex => assert Candidate(ParameterValueIndexTag) == Some(ParameterValueIndex);
  }

  lemma NamesReadPair10(t: MapType)
    requires t.ExpandedValue? || t.ParameterValueList?
    ensures MapTypeNamed(t.Name()) == Some(t)
  {
    match t
    case ExpandedValue => assert Candidate(ExpandedValueTag) == Some(ExpandedValue);
    case ParameterValueList => assert Candidate(ParameterValueListTag) == Some(ParameterValueList);
  }

  lemma NamesReadPair11(t: MapType)
    requires t.ParameterValueListValue? || t.Alternative?
    ensures MapTypeNamed(t.Name()) == Some(t)
  {
    match t
    case ParameterValueListValue => assert Candidate(ParameterValueListValueTag) == Some(ParameterValueListValue);
    case Alternative => assert Candidate(AlternativeTag) == Some(Alternative);
  }

  lemma NamesReadPair12(t: MapType)
    requires t.Scenario? || t.ScenarioActiveFlag?
    ensures MapTypeNamed(t.Name()) == Some(t)
  {
    match t
    case Scenario => assert Candidate(ScenarioTag) == Some(Scenario);
    case ScenarioActiveFlag => assert Candidate(ScenarioActiveFlagTag) == Some(ScenarioActiveFlag);
  }

  lemma NamesReadPair13(t: MapType)
    requires t.ScenarioAlternativeType? || t.ScenarioBeforeAlternative?
    ensures MapTypeNamed(t.Name()) == Some(t)
  {
    match t
    case ScenarioAlternativeType => assert Candidate(ScenarioAlternativeTypeTag) == Some(ScenarioAlternativeType);
    case ScenarioBeforeAlternative => assert Candidate(ScenarioBeforeAlternativeTag) == Some(ScenarioBeforeAlternative);
  }

  lemma NamesReadPair14(t: MapType)
    requires t.Tool? || t.FeatureEntityClass?
    ensures MapTypeNamed(t.Name()) == Some(t)
  {
    match t
    case Tool => assert Candidate(ToolTag) == Some(Tool);
    case FeatureEntityClass => assert Candidate(FeatureEntityClassTag) == Some(FeatureEntityClass);
  }

  lemma NamesReadPair15(t: MapType)
    requires t.FeatureParameterDefinition? || t.ToolFeatureEntityClass?
    ensures MapTypeNamed(t.Name()) == Some(t)
  {
    match t
    case FeatureParameterDefinition => assert Candidate(FeatureParameterDefinitionTag) == Some(FeatureParameterDefinition);
    case ToolFeatureEntityClass => assert Candidate(ToolFeatureEntityClassTag) == Some(ToolFeatureEntityClass);
  }

  lemma NamesReadPair16(t: MapType)
    requires t.ToolFeatureParameterDefinition? || t.ToolFeatureRequiredFlag?
    ensures MapTypeNamed(t.Name()) == Some(t)
  {
    match t
    case ToolFeatureParameterDefinition => assert Candidate(ToolFeatureParameterDefinitionTag) == Some(ToolFeatureParameterDefinition);
    case ToolFeatureRequiredFlag => assert Candidate(ToolFeatureRequiredFlagTag) == Some(ToolFeatureRequiredFlag);
  }

  lemma NamesReadPair17(t: MapType)
    requires t.ToolFeatureMethodEntityClass? || t.ToolFeatureMethodParameterDefinition?
    ensures MapTypeNamed(t.Name()) == Some(t)
  {
    match t
    case ToolFeatureMethodEntityClass => assert Candidate(ToolFeatureMethodEntityClassTag) == Some(ToolFeatureMethodEntityClass);
    case ToolFeatureMethodParameterDefinition => assert Candidate(ToolFeatureMethodParameterDefinitionTag) == Some(ToolFeatureMethodParameterDefinition);
  }

  lemma NamesReadPair18(t: MapType)
    requires t.ToolFeatureMethodMethod?
    ensures MapTypeNamed(t.Name()) == Some(t)
  {
    match t
    case ToolFeatureMethodMethod => assert Candidate(ToolFeatureMethodMethodTag) == Some(ToolFeatureMethodMethod);
  }

  /** from_dict's lookup as written: its table lists every class but the default value index name mapping. */
  function MapTypeNamedAsWritten(name: string): (r: Option<MapType>)
    ensures r != MapTypeNamed(name) ==> name == DefaultValueIndexName.Name()
  {
    if name == DefaultValueIndexName.Name() then None else MapTypeNamed(name)
  }

  /** The type a default value index name mapping writes as its MAP_TYPE is not one from_dict reads back. */
  lemma DefaultValueIndexNameUnreadable()
    ensures MapTypeNamedAsWritten(DefaultValueIndexName.Name()) == None
    ensures MapTypeNamed(DefaultValueIndexName.Name()) == Some(DefaultValueIndexName)
  {
    MapTypeNamesRead(DefaultValueIndexName);
  }

  // ---------------------------------------------------------------------------
  // Positions and the setters

  /**
   * What a mapping reads: a column by index or by header name, nothing
   * (hidden), the table name, or the header. Unusual holds a position of
   * another type, kept as given.
   */
  datatype Position = Column(index: int) | ColumnName(name: string) | Hidden | TableName | Header | Unusual(given: Val)

  /** type(v).__name__ */
  function TypeNameOf(v: Val): string
  {
    match v
    case VNone => "NoneType"
    case VBool(_) => "bool"
    case VInt(_) => "int"
    case VStr(_) => "str"
    case VBytes(_) => "bytes"
    case VList(_) => "list"
    case VTuple(_) => "tuple"
  }

  /** isinstance(v, (str, int)); a bool is an int. */
  predicate StrOrInt(v: Val)
  {
    v.VStr? || v.VInt? || v.VBool?
  }

  /** The "<type> at index <i>" entries of the columns from index i on that are neither str nor int. */
  function BadColumns(columns: seq<Val>, i: nat): (r: seq<string>)
    requires i <= |columns|
    ensures r == [] <==> forall k :: i <= k < |columns| ==> StrOrInt(columns[k])
    decreases |columns| - i
  {
    if i == |columns| then []
    else
      var rest := BadColumns(columns, i + 1);
      if StrOrInt(columns[i]) then rest else [TypeNameOf(columns[i]) + " at index " + IntToString(i)] + rest
  }

  /** The fixed starts of the setters' error messages. */
  const SkipColumnsExpected := "skip_columns must be str, int or list of str, int, instead got "
  const RowNegative := "row must be >= 0 ("
  const RowExpected := "row must be int, instead got "

  /** The skip_columns setter's check: what it stores, or the TypeError it raises. */
  function SkipColumnsOf(columns: Val): (r: Result<seq<Val>>)
    ensures columns == VNone ==> r == Ok([])
    ensures StrOrInt(columns) ==> r == Ok([columns])
    ensures columns.VList? ==> (r.Ok? <==> forall k :: 0 <= k < |columns.elems| ==> StrOrInt(columns.elems[k]))
    ensures columns.VList? && r.Ok? ==> r.value == columns.elems
    ensures (columns.VTuple? || columns.VBytes?) ==> r.Err?
    ensures r.Err? ==> r.error.TypeError?
  {
    match columns
    case VNone => Ok([])
    case VList(elems) =>
      var bad := BadColumns(elems, 0);
      if bad != [] then
        Err(TypeError(SkipColumnsExpected + "list with " + Join(bad, ", ")))
      else Ok(elems)
    case _ =>
      if StrOrInt(columns) then Ok([columns])
      else Err(TypeError(SkipColumnsExpected + TypeNameOf(columns)))
  }

  /** The read_start_row setter's check: a non-negative int (a bool counts as 0 or 1). */
  function ReadStartRowOf(row: Val): (r: Result<nat>)
    ensures r.Ok? <==> (row.VInt? && row.n >= 0) || row.VBool?
    ensures row.VInt? && r.Ok? ==> r.value == row.n
    ensures row.VInt? && row.n < 0 ==> r == Err(ValueError(RowNegative + IntToString(row.n) + ")"))
    ensures !row.VInt? && !row.VBool? ==> r.Err? && r.error.TypeError?
  {
    match row
    case VInt(n) => if n < 0 then Err(ValueError(RowNegative + IntToString(n) + ")")) else Ok(n)
    case VBool(b) => Ok(if b then 1 else 0)
    case _ => Err(TypeError(RowExpected + TypeNameOf(row)))
  }

  // ---------------------------------------------------------------------------
  // Polishing

  /** A mapping's position and value after polishing, and the error raised, if any. */
  datatype Polish = Polish(position: Position, value: Val, failure: Option<Error>)

  /** str(header) for a list of strs. */
  function HeaderText(header: seq<string>): string
  {
    "[" + ReprItems(seq(|header|, i requires 0 <= i < |header| => VStr(header[i]))) + "]"
  }

  /** header.index(name) */
  function IndexIn(header: seq<string>, name: string): (i: nat)
    requires name in header
    ensures i < |header| && header[i] == name && forall j :: 0 <= j < i ==> header[j] != name
  {
    if header[0] == name then 0 else 1 + IndexIn(header[1..], name)
  }

  /** header[value] for an int (or bool) value: negative indexes count from the end. */
  function HeaderAt(position: Position, value: Val, header: seq<string>): (p: Polish)
    requires value.VInt? || value.VBool?
    ensures p.position == position
    ensures p.failure.None? ==> p.value.VStr? && p.value.s in header
  {
    var n := if value.VInt? then value.n else if value.b then 1 else 0;
    if -|header| <= n < |header| then Polish(position, VStr(header[if n < 0 then n + |header| else n]), None)
    else Polish(position, value, Some(InvalidMappingComponent("'" + Str(value) + "' is not a valid index in header '" + HeaderText(header) + "'")))
  }

  /** _polish_for_import on one mapping. */
  function Polished(position: Position, value: Val, tableName: string, header: seq<string>): (p: Polish)
    ensures position.ColumnName? ==> (p.failure.None? <==> position.name in header)
    ensures position.ColumnName? && p.failure.None? ==>
      p.position.Column? && p.value == value && p.position.index == IndexIn(header, position.name)
    ensures position.TableName? ==> p == Polish(position, VStr(tableName), None)
    ensures position.Header? && (value.VNone? || (value.VStr? && value.s in header)) ==> p == Polish(position, value, None)
    ensures position.Header? && value.VStr? && value.s !in header && ParseInt(value.s).None? ==>
      p == Polish(position, value, Some(InvalidMappingComponent("'" + value.s + "' is not in header '" + HeaderText(header) + "'")))
    ensures position.Header? && p.failure.None? && value != VNone ==> p.value.VStr? && p.value.s in header
    ensures position.Header? && p.failure.Some? && !value.VStr? && !value.VInt? && !value.VBool? ==> p.failure.value.TypeError?
    ensures (position.Column? || position.Hidden? || position.Unusual?) ==> p == Polish(position, value, None)
  {
    match position
    case ColumnName(name) =>
      if name in header then Polish(Column(IndexIn(header, name)), value, None)
      else Polish(position, value, Some(InvalidMappingComponent("'" + name + "' is not in '" + HeaderText(header) + "'")))
    case TableName => Polish(position, VStr(tableName), None)
    case Header =>
      if value.VNone? then Polish(position, value, None)
      else if value.VStr? then
        if value.s in header then Polish(position, value, None)
        else
          match ParseInt(value.s)
          case None => Polish(position, value, Some(InvalidMappingComponent("'" + value.s + "' is not in header '" + HeaderText(header) + "'")))
          case Some(n) => HeaderAt(position, VInt(n), header)
      else if value.VInt? || value.VBool? then HeaderAt(position, value, header)
      else Polish(position, value, Some(TypeError("list indices must be integers or slices, not " + TypeNameOf(value))))
    case _ => Polish(position, value, None)
  }

  // ---------------------------------------------------------------------------
  // The mapping objects

  /** The settings of one mapping, as from_dict reads them. */
  datatype MappingSpec = MappingSpec(
    mapType: MapType, position: Position, value: Val, skipColumns: seq<Val>, readStartRow: nat,
    filterRe: string, importObjects: bool, compress: bool, options: Val)

  /** One import mapping. */
  class ImportMapping {
    const mapType: MapType
    var position: Position
    var value: Val
    var skipColumns: seq<Val>
    var readStartRow: nat
    const filterRe: string
    const importObjects: bool      // ImportObjectsMixin
    const compress: bool           // IndexedValueMixin
    const options: Val             // IndexedValueMixin; the options dict is carried as it is

    /** The settings held. */
    function Spec(): MappingSpec
      reads this
    {
      MappingSpec(mapType, position, value, skipColumns, readStartRow, filterRe, importObjects, compress, options)
    }

    /** __init__ before the setters run: no columns skipped, reading from row 0. */
    constructor(mapType: MapType, position: Position, value: Val, filterRe: string, importObjects: bool, compress: bool, options: Val)
      ensures Spec() == MappingSpec(mapType, position, value, [], 0, filterRe, importObjects, compress, options)
    {
      this.mapType := mapType;
      this.position := position;
      this.value := value;
      this.skipColumns := [];
      this.readStartRow := 0;
      this.filterRe := filterRe;
      this.importObjects := importObjects;
      this.compress := compress;
      this.options := options;
    }

    /** The skip_columns setter: stores the checked columns, or raises and leaves them. */
    method SetSkipColumns(columns: Val) returns (r: Result<()>)
      modifies this
      ensures r.Ok? <==> SkipColumnsOf(columns).Ok?
      ensures r.Ok? ==> Spec() == old(Spec()).(skipColumns := SkipColumnsOf(columns).value)
      ensures r.Err? ==> r.error == SkipColumnsOf(columns).error && Spec() == old(Spec())
    {
      var checked := SkipColumnsOf(columns);
      if checked.Err? {
        return Err(checked.error);
      }
      skipColumns := checked.value;
      r := Ok(());
    }

    /** The read_start_row setter: stores the checked row, or raises and leaves it. */
    method SetReadStartRow(row: Val) returns (r: Result<()>)
      modifies this
      ensures r.Ok? <==> ReadStartRowOf(row).Ok?
      ensures r.Ok? ==> Spec() == old(Spec()).(readStartRow := ReadStartRowOf(row).value)
      ensures r.Err? ==> r.error == ReadStartRowOf(row).error && Spec() == old(Spec())
    {
      var checked := ReadStartRowOf(row);
      if checked.Err? {
        return Err(checked.error);
      }
      readStartRow := checked.value;
      r := Ok(());
    }

    /** _polish_for_import on this mapping alone: position and value become the polished ones, even when it raises. */
    method PolishForImport(tableName: string, header: seq<string>) returns (failure: Option<Error>)
      modifies this
      ensures Polish(position, value, failure) == Polished(old(position), old(value), tableName, header)
      ensures skipColumns == old(skipColumns) && readStartRow == old(readStartRow)
    {
      var p := Polished(position, value, tableName, header);
      position, value, failure := p.position, p.value, p.failure;
    }
  }

  /** ImportMapping.__init__: the setters run, and the first to raise ends the construction. */
  method NewMapping(spec: MappingSpec, skipColumns: Val, readStartRow: Val) returns (r: Result<ImportMapping>)
    ensures r.Ok? <==> SkipColumnsOf(skipColumns).Ok? && ReadStartRowOf(readStartRow).Ok?
    ensures r.Err? ==> r.error == (if SkipColumnsOf(skipColumns).Err? then SkipColumnsOf(skipColumns).error else ReadStartRowOf(readStartRow).error)
    ensures r.Ok? ==> fresh(r.value)
    ensures r.Ok? ==>
      r.value.Spec() == spec.(skipColumns := SkipColumnsOf(skipColumns).value, readStartRow := ReadStartRowOf(readStartRow).value)
  {
    var m := new ImportMapping(spec.mapType, spec.position, spec.value, spec.filterRe, spec.importObjects, spec.compress, spec.options);
    var set1 := m.SetSkipColumns(skipColumns);
    if set1.Err? {
      return Err(set1.error);
    }
    var set2 := m.SetReadStartRow(readStartRow);
    if set2.Err? {
      return Err(set2.error);
    }
    r := Ok(m);
  }

  /** The mappings of a chain are distinct objects. */
  predicate Separate(chain: seq<ImportMapping>)
  {
    forall a, b :: 0 <= a < b < |chain| ==> chain[a] != chain[b]
  }

  /**
   * _polish_for_import on a chain: the child is polished before its parent,
   * so the deepest mapping that raises stops the walk, with the mappings
   * below it polished and those above it untouched.
   */
  method PolishChain(chain: seq<ImportMapping>, tableName: string, header: seq<string>) returns (r: Result<()>)
    requires Separate(chain)
    modifies set m | m in chain
    ensures r.Ok? ==> forall k :: 0 <= k < |chain| ==>
      Polished(old(chain[k].position), old(chain[k].value), tableName, header) == Polish(chain[k].position, chain[k].value, None)
    ensures r.Err? ==> exists e :: (0 <= e < |chain|
      && Polished(old(chain[e].position), old(chain[e].value), tableName, header) == Polish(chain[e].position, chain[e].value, Some(r.error))
      && (forall k :: e < k < |chain| ==>
            Polished(old(chain[k].position), old(chain[k].value), tableName, header) == Polish(chain[k].position, chain[k].value, None))
      && (forall k :: 0 <= k < e ==> chain[k].position == old(chain[k].position) && chain[k].value == old(chain[k].value)))
    ensures forall k :: 0 <= k < |chain| ==> chain[k].skipColumns == old(chain[k].skipColumns) && chain[k].readStartRow == old(chain[k].readStartRow)
  {
    var i := |chain|;
    while i > 0
      invariant 0 <= i <= |chain|
      invariant forall k :: i <= k < |chain| ==>
        Polished(old(chain[k].position), old(chain[k].value), tableName, header) == Polish(chain[k].position, chain[k].value, None)
      invariant forall k :: 0 <= k < i ==> chain[k].position == old(chain[k].position) && chain[k].value == old(chain[k].value)
      invariant forall k :: 0 <= k < |chain| ==> chain[k].skipColumns == old(chain[k].skipColumns) && chain[k].readStartRow == old(chain[k].readStartRow)
    {
      i := i - 1;
      var failure := chain[i].PolishForImport(tableName, header);
      if failure.Some? {
        return Err(failure.value);
      }
    }
    r := Ok(());
  }

  // ---------------------------------------------------------------------------
  // from_dict

  /** d.get(key, default) */
  function GetOr(d: Item, key: string, default: Val): Val
  {
    if key in d then d[key] else default
  }

  /** The position of a serialized mapping: a str names a Position member (looked up by the base module). */
  function PositionOf(v: Val, named: string -> Result<Position>): Result<Position>
  {
    match v
    case VStr(s) => named(s)
    case VInt(n) => Ok(Column(n))
    case VBool(b) => Ok(Column(if b then 1 else 0))
    case _ => Ok(Unusual(v))
  }

  /** One serialized mapping read: its settings, or what reading it raises; the setters are checked later. */
  function Reconstructed(d: Item, named: string -> Result<Position>): (r: Result<MappingSpec>)
    ensures r.Ok? ==> "map_type" in d && d["map_type"].VStr? && MapTypeNamed(d["map_type"].s) == Some(r.value.mapType)
    ensures "position" !in d ==> r == Err(KeyError("position"))
  {
    var positionValue :- Field(d, "position");
    var position :- PositionOf(positionValue, named);
    var typeName :- Field(d, "map_type");
    var mapType :- if typeName.VStr? && MapTypeNamed(typeName.s).Some? then Ok(MapTypeNamed(typeName.s).value)
                   else Err(KeyError(Str(typeName)));
    var filterRe := GetOr(d, "filter_re", VStr(""));
    Ok(MappingSpec(mapType, position, GetOr(d, "value", VNone), [], 0, if filterRe.VStr? then filterRe.s else Str(filterRe),
                   mapType.ImportsObjects() && Truthy(GetOr(d, "import_objects", VBool(false))),
                   mapType.Indexed() && Truthy(GetOr(d, "compress", VBool(false))),
                   if mapType.Indexed() then GetOr(d, "options", VNone) else VNone))
  }

  /** One serialized mapping read and its skip_columns and read_start_row set. */
  function ReadOne(d: Item, named: string -> Result<Position>): (r: Result<MappingSpec>)
    ensures r.Ok? ==> Reconstructed(d, named).Ok? && r.value.mapType == Reconstructed(d, named).value.mapType
  {
    var spec :- Reconstructed(d, named);
    var skipColumns :- SkipColumnsOf(GetOr(d, "skip_columns", VNone));
    var readStartRow :- ReadStartRowOf(GetOr(d, "read_start_row", VInt(0)));
    Ok(spec.(skipColumns := skipColumns, readStartRow := readStartRow))
  }

  /** What reading each serialized mapping gives, in order. */
  function Reads(serialized: seq<Item>, named: string -> Result<Position>): (r: seq<Result<MappingSpec>>)
    ensures |r| == |serialized|
    ensures forall k {:trigger ReadOne(serialized[k], named)} :: 0 <= k < |r| ==> r[k] == ReadOne(serialized[k], named)
  {
    seq(|serialized|, k requires 0 <= k < |serialized| => ReadOne(serialized[k], named))
  }

  /**
   * The mappings from_dict keeps of what reading each one from index i on
   * gives: up to and including the first ObjectGroup, or the first failure.
   */
  function ReadFrom(results: seq<Result<MappingSpec>>, i: nat): (r: Result<seq<MappingSpec>>)
    requires i <= |results|
    decreases |results| - i
  {
    if i == |results| then Ok([])
    else
      var first :- results[i];
      if first.mapType == ObjectGroup then Ok([first])
      else Prepended([first], ReadFrom(results, i + 1))
  }

  /** The mappings read so far in front of what reading the rest gives. */
  function Prepended(specs: seq<MappingSpec>, rest: Result<seq<MappingSpec>>): Result<seq<MappingSpec>>
  {
    if rest.Err? then rest else Ok(specs + rest.value)
  }

  /**
   * from_dict stops after the first ObjectGroup mapping: every mapping it keeps
   * was read as it is, and only the last one kept can be a group mapping.
   */
  lemma {:induction false} ReadStopsAtGroup(results: seq<Result<MappingSpec>>, i: nat)
    requires i <= |results| && ReadFrom(results, i).Ok?
    ensures var r := ReadFrom(results, i).value;
      && |r| <= |results| - i
      && (forall k :: 0 <= k < |r| ==> results[i + k] == Ok(r[k]))
      && (forall k :: 0 <= k < |r| - 1 ==> r[k].mapType != ObjectGroup)
      && (|r| < |results| - i ==> r != [] && r[|r| - 1].mapType == ObjectGroup)
    decreases |results| - i
  {
    if i < |results| && results[i].value.mapType != ObjectGroup {
      ReadStopsAtGroup(results, i + 1);
    }
  }

  /** The mappings from index i up to j read, and none of them is a group mapping. */
  ghost predicate ReadPast(results: seq<Result<MappingSpec>>, i: nat, j: nat)
    requires i <= j <= |results|
  {
    forall k :: i <= k < j ==> results[k].Ok? && results[k].value.mapType != ObjectGroup
  }

  /** from_dict fails exactly when a mapping up to the first group mapping cannot be read, with that mapping's error. */
  lemma {:induction false} ReadFailsAtFirstError(results: seq<Result<MappingSpec>>, i: nat)
    requires i <= |results|
    ensures ReadFrom(results, i).Err? <==> exists j :: i <= j < |results| && results[j].Err? && ReadPast(results, i, j)
    ensures forall j :: i <= j < |results| && results[j].Err? && ReadPast(results, i, j) ==>
      ReadFrom(results, i) == Err(results[j].error)
    decreases |results| - i
  {
    if i < |results| {
      ReadFailsAtFirstError(results, i + 1);
      if results[i].Ok? && results[i].value.mapType != ObjectGroup {
        forall j | i <= j < |results| && results[j].Err? && ReadPast(results, i, j)
          ensures j > i && ReadPast(results, i + 1, j)
        {
        }
        if ReadFrom(results, i).Err? {
          var j :| i + 1 <= j < |results| && results[j].Err? && ReadPast(results, i + 1, j);
          assert ReadPast(results, i, j);
        }
      } else {
        assert ReadPast(results, i, i);
      }
    }
  }

  /** A legacy "ParameterIndex" mapping is read as a parameter value index mapping. */
  lemma LegacyParameterIndexRead(d: Item, named: string -> Result<Position>)
    requires Reconstructed(d, named).Ok? && d["map_type"] == VStr("ParameterIndex")
    ensures Reconstructed(d, named).value.mapType == ParameterValueIndex
  {
  }

  /** One mapping made by its class from its serialized settings. */
  method MappingFromDict(d: Item, named: string -> Result<Position>) returns (r: Result<ImportMapping>)
    ensures r.Ok? <==> ReadOne(d, named).Ok?
    ensures r.Err? ==> r.error == ReadOne(d, named).error
    ensures r.Ok? ==> fresh(r.value) && r.value.Spec() == ReadOne(d, named).value
  {
    var spec := Reconstructed(d, named);
    if spec.Err? {
      return Err(spec.error);
    }
    r := NewMapping(spec.value, GetOr(d, "skip_columns", VNone), GetOr(d, "read_start_row", VInt(0)));
  }

  /** from_dict: the mappings, root first, each made by its class from its serialized settings. */
  method FromDict(serialized: seq<Item>, named: string -> Result<Position>) returns (r: Result<seq<ImportMapping>>)
    ensures r.Ok? <==> ReadFrom(Reads(serialized, named), 0).Ok?
    ensures r.Err? ==> r.error == ReadFrom(Reads(serialized, named), 0).error
    ensures r.Ok? ==> |r.value| == |ReadFrom(Reads(serialized, named), 0).value|
    ensures r.Ok? ==> forall k :: 0 <= k < |r.value| ==> r.value[k].Spec() == ReadFrom(Reads(serialized, named), 0).value[k]
    ensures r.Ok? ==> Separate(r.value)
  {
    r := MappingsFromDict(serialized, named, Reads(serialized, named));
  }

  /** The results are what reading each serialized mapping gives. */
  ghost predicate ReadAs(serialized: seq<Item>, named: string -> Result<Position>, results: seq<Result<MappingSpec>>)
  {
    && |results| == |serialized|
    && forall k {:trigger ReadOne(serialized[k], named)} :: 0 <= k < |serialized| ==> results[k] == ReadOne(serialized[k], named)
  }

  /** The mapping at index i made from its serialized settings, against what reading it gives. */
  method MappingAt(serialized: seq<Item>, i: nat, named: string -> Result<Position>, ghost results: seq<Result<MappingSpec>>)
    returns (r: Result<ImportMapping>)
    requires i < |serialized| && ReadAs(serialized, named, results)
    ensures r.Ok? <==> results[i].Ok?
    ensures r.Err? ==> r.error == results[i].error
    ensures r.Ok? ==> fresh(r.value) && r.value.Spec() == results[i].value
  {
    r := MappingFromDict(serialized[i], named);
  }

  /** The loop of from_dict, against what reading each serialized mapping gives. */
  method MappingsFromDict(serialized: seq<Item>, named: string -> Result<Position>, ghost results: seq<Result<MappingSpec>>)
    returns (r: Result<seq<ImportMapping>>)
    requires |results| == |serialized|
    requires ReadAs(serialized, named, results)
    ensures r.Ok? <==> ReadFrom(results, 0).Ok?
    ensures r.Err? ==> r.error == ReadFrom(results, 0).error
    ensures r.Ok? ==> |r.value| == |ReadFrom(results, 0).value|
    ensures r.Ok? ==> forall k :: 0 <= k < |r.value| ==> r.value[k].Spec() == ReadFrom(results, 0).value[k]
    ensures r.Ok? ==> Separate(r.value)
  {
    var chain: seq<ImportMapping> := [];
    ghost var specs: seq<MappingSpec> := [];
    var i := 0;
    PrependedNothing(ReadFrom(results, 0));
    while i < |serialized|
      invariant 0 <= i <= |serialized|
      invariant ReadFrom(results, 0) == Prepended(specs, ReadFrom(results, i))
      invariant |chain| == |specs| && forall k :: 0 <= k < |chain| ==> chain[k].Spec() == specs[k]
      invariant Separate(chain)
    {
      var m := MappingAt(serialized, i, named, results);
      if m.Err? {
        return Err(m.error);
      }
      PrependedAppend(specs, [m.value.Spec()], ReadFrom(results, i + 1));
      SeparateAppend(chain, m.value);
      chain := chain + [m.value];
      specs := specs + [m.value.Spec()];
      if m.value.mapType == ObjectGroup {
        return Ok(chain);
      }
      i := i + 1;
    }
    r := Ok(chain);
  }

  lemma SeparateAppend(chain: seq<ImportMapping>, m: ImportMapping)
    requires Separate(chain) && m !in chain
    ensures Separate(chain + [m])
  {
  }

  lemma PrependedNothing(rest: Result<seq<MappingSpec>>)
    ensures Prepended([], rest) == rest
  {
    if rest.Ok? {
      assert [] + rest.value == rest.value;
    }
  }

  lemma PrependedAppend(a: seq<MappingSpec>, b: seq<MappingSpec>, rest: Result<seq<MappingSpec>>)
    ensures Prepended(a, Prepended(b, rest)) == Prepended(a + b, rest)
  {
    if rest.Ok? {
      assert a + (b + rest.value) == (a + b) + rest.value;
    }
  }

}
