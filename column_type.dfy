/**
 * The type registry: a closed map from column category names to column classes. A column
 * definition can only be built for a registered category; catalog type names such as `int`
 * or `varchar` are not categories.
 */
module ColumnType {
  import opened Wrappers
  import opened OrderedMaps
  import opened SchemaErrors
  import opened RowFold
  import opened ColumnDefinitions

  const TypeInteger := "integer"
  const TypeDecimal := "decimal"
  const TypeString := "string"
  const TypeBoolean := "boolean"
  const TypeDatetime := "datetime"
  const TypeBlob := "blob"
  const TypeDate := "date"
  const TypeTime := "time"
  const TypeFloat := "float"
  const TypeBit := "bit"
  const TypeSpatialGeometry := "geometry"

  /** `$typesMap`: each category and the column class it builds, every field unset, in declaration order. */
  const TypesMap: OrderedMap<Variant> := OrderedMap(
    [TypeInteger, TypeDecimal, TypeString, TypeBoolean, TypeDatetime, TypeBlob,
     TypeDate, TypeTime, TypeFloat, TypeBit, TypeSpatialGeometry],
    map[TypeInteger := IntegerColumn(None, None),
        TypeDecimal := DecimalColumn(None, None, None),
        TypeString := StringColumn(None),
        TypeBoolean := BooleanColumn,
        TypeDatetime := DatetimeColumn,
        TypeBlob := BlobColumn(None),
        TypeDate := DateColumn,
        TypeTime := TimeColumn,
        TypeFloat := FloatColumn,
        TypeBit := BitColumn,
        TypeSpatialGeometry := GeometryColumn])

  /** `getSupportedTypes`: the registered categories, each once, in declaration order. */
  function SupportedTypes(): (r: seq<string>)
    ensures |r| == 11 && NoDuplicates(r)
    ensures forall t :: t in r <==> t in TypesMap.entries
  {
    TypesMap.keys
  }

  /** The column class `createColumnDefinition` builds for `typeName`, or why it cannot. */
  function VariantFor(typeName: string): (r: Result<Variant, Error>)
    ensures r.Success? <==> typeName in SupportedTypes()
    ensures r.Failure? ==> r.error == UnsupportedDatatype(typeName)
  {
    if typeName in TypesMap.entries then Success(TypesMap.entries[typeName]) else Failure(UnsupportedDatatype(typeName))
  }

  /** `createColumnDefinition`: a new column of the registered class, named and placed; an unknown category is an error. */
  method CreateColumnDefinition(typeName: string, name: string, tableName: Option<string>, schemaName: Option<string>)
    returns (r: Result<ColumnDefinition, Error>)
    ensures r.Success? <==> VariantFor(typeName).Success?
    ensures r.Failure? ==> r.error == UnsupportedDatatype(typeName)
    ensures r.Success? ==> && fresh(r.value) && r.value.variant == VariantFor(typeName).value
                           && r.value.name == name && r.value.tableName == BlankToNull(tableName)
                           && r.value.schemaName == BlankToNull(schemaName)
                           && !r.value.isPrimary && r.value.ordinalPosition == None
  {
    if typeName !in TypesMap.entries {
      return Failure(UnsupportedDatatype(typeName));
    }
    var column := new ColumnDefinition(TypesMap.entries[typeName], name, tableName, schemaName);
    r := Success(column);
  }

  /** The registered categories, one by one, with the class each builds. */
  lemma RegistryEntries(typeName: string)
    requires typeName in TypesMap.entries
    ensures var v := TypesMap.entries[typeName];
      || (typeName == TypeInteger && v == IntegerColumn(None, None))
      || (typeName == TypeDecimal && v == DecimalColumn(None, None, None))
      || (typeName == TypeString && v == StringColumn(None))
      || (typeName == TypeBoolean && v == BooleanColumn)
      || (typeName == TypeDatetime && v == DatetimeColumn)
      || (typeName == TypeBlob && v == BlobColumn(None))
      || (typeName == TypeDate && v == DateColumn)
      || (typeName == TypeTime && v == TimeColumn)
      || (typeName == TypeFloat && v == FloatColumn)
      || (typeName == TypeBit && v == BitColumn)
      || (typeName == TypeSpatialGeometry && v == GeometryColumn)
  {
  }

  /** Different categories build different column classes. */
  lemma VariantForInjective(a: string, b: string)
    requires VariantFor(a).Success? && VariantFor(b).Success? && a != b
    ensures VariantFor(a).value != VariantFor(b).value
  {
    RegistryEntries(a);
    RegistryEntries(b);
  }

  /**
   * The capabilities of each registered class: integer, decimal and boolean columns are
   * numeric, string columns are text, blob columns are neither, date and datetime columns are
   * date and datetime, and every class starts with its own fields unset.
   */
  lemma VariantCapabilities(typeName: string)
    requires VariantFor(typeName).Success?
    ensures var v := VariantFor(typeName).value;
      && (typeName in {TypeInteger, TypeDecimal, TypeBoolean} ==> v.IsNumeric() && !v.IsText() && !v.IsDate() && !v.IsDatetime())
      && (typeName == TypeString ==> v.IsText() && !v.IsNumeric() && !v.IsDate() && !v.IsDatetime())
      && (typeName == TypeBlob ==> !v.IsNumeric() && !v.IsText() && !v.IsDate() && !v.IsDatetime())
      && (typeName == TypeDate ==> v.IsDate() && !v.IsDatetime())
      && (typeName == TypeDatetime ==> v.IsDatetime() && !v.IsDate())
      && (v.IsNumeric() ==> v.Unsigned() == (if typeName == TypeBoolean then Some(false) else None))
      && (v.IntegerColumn? ==> v.autoIncrement == None)
      && (v.DecimalColumn? ==> v.numericPrecision == None && v.numericScale == None)
      && (v.StringColumn? ==> v.characterMaximumLength == None)
      && (v.BlobColumn? ==> v.characterOctetLength == None)
  {
    RegistryEntries(typeName);
  }

  /**
   * Of the catalog type names the row fold recognises, only `decimal`, `float`, `date`,
   * `time`, `datetime` and `blob` name a registered category; all the others are refused.
   */
  lemma CatalogNamesInRegistry(t: string)
    requires Family(t) != Unrecognised
    ensures VariantFor(t).Success? <==> t in {"decimal", "float", "date", "time", "datetime", "blob"}
  {
    if t in TypesMap.entries {
      RegistryEntries(t);
      UnrecognisedCategories();
    }
  }

  /** The category names the row fold does not recognise as catalog type names. */
  lemma UnrecognisedCategories()
    ensures Family(TypeInteger) == Unrecognised && Family(TypeString) == Unrecognised
    ensures Family(TypeBoolean) == Unrecognised && Family(TypeBit) == Unrecognised
    ensures Family(TypeSpatialGeometry) == Unrecognised
  {
  }
}
