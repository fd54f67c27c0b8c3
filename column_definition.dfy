/**
 * Typed column definitions: one class for the state every column has, and a variant for the
 * concrete column kind and the state only that kind carries. The capability queries
 * (`isNumeric`, `isText`, ...) are answered from the variant's tag.
 */
module ColumnDefinitions {
  import opened Wrappers
  import opened Text

  /** The concrete column class, with the fields it adds. Unset PHP fields are `None`. */
  datatype Variant =
    | IntegerColumn(numericUnsigned: Option<bool>, autoIncrement: Option<bool>)
    | DecimalColumn(numericPrecision: Option<int>, numericScale: Option<int>, numericUnsigned: Option<bool>)
    | StringColumn(characterMaximumLength: Option<int>)
    | BlobColumn(characterOctetLength: Option<int>)
    | BooleanColumn
    | DatetimeColumn
    | DateColumn
    | TimeColumn
    | FloatColumn
    | BitColumn
    | GeometryColumn
  {
    /** The numeric columns: integer, decimal and boolean. */
    predicate IsNumeric() {
      IntegerColumn? || DecimalColumn? || BooleanColumn?
    }

    /** The text columns: string. */
    predicate IsText() {
      StringColumn?
    }

    /** The date columns: date (`DateColumn` is taken to implement `DateColumnInterface`). */
    predicate IsDate() {
      DateColumn?
    }

    /** The datetime columns: datetime (`DatetimeColumn` is taken to implement `DatetimeColumnInterface`). */
    predicate IsDatetime() {
      DatetimeColumn?
    }

    /** `getNumericUnsigned`: a boolean column is never unsigned. */
    function Unsigned(): Option<bool>
      requires IsNumeric()
    {
      if BooleanColumn? then Some(false) else numericUnsigned
    }

    /** `setNumericUnsigned`: a boolean column ignores the call. */
    function WithUnsigned(u: Option<bool>): Variant
      requires IsNumeric()
    {
      if BooleanColumn? then this else this.(numericUnsigned := u)
    }
  }

  /**
   * Setting the unsigned flag keeps the column kind and every other field, and reads back as
   * set, except on a boolean column, which stays not unsigned.
   */
  lemma UnsignedRoundTrip(v: Variant, u: Option<bool>)
    requires v.IsNumeric()
    ensures var w := v.WithUnsigned(u);
      && w.IsNumeric() && w.IsText() == v.IsText()
      && w.Unsigned() == (if v.BooleanColumn? then Some(false) else u)
      && (v.IntegerColumn? ==> w.IntegerColumn? && w.autoIncrement == v.autoIncrement)
      && (v.DecimalColumn? ==> w.DecimalColumn? && w.numericPrecision == v.numericPrecision && w.numericScale == v.numericScale)
      && (v.BooleanColumn? ==> w == v)
  {
  }

  /** `trim($s) == ''` turns the value into null; anything else is kept as given. */
  function BlankToNull(s: Option<string>): (r: Option<string>)
    ensures r.None? <==> s.None? || IsBlank(s.value)
    ensures r.Some? ==> r == s
  {
    if s.None? || IsBlank(s.value) then None else s
  }

  class ColumnDefinition {
    var name: string
    var tableName: Option<string>
    var schemaName: Option<string>
    var ordinalPosition: Option<int>
    var columnDefault: Option<string>
    var isNullable: Option<bool>
    var dataType: Option<string>
    var nativeDataType: Option<string>
    var alias: Option<string>
    var tableAlias: Option<string>
    var catalog: Option<string>
    var isPrimary: bool
    var isGroup: bool
    /** The concrete column class and its own fields. */
    var variant: Variant

    /** The constructor of the column class `variant`: `setName`, `setTableName`, `setSchemaName`. */
    constructor (variant: Variant, name: string, tableName: Option<string>, schemaName: Option<string>)
      ensures this.variant == variant && this.name == name
      ensures this.tableName == BlankToNull(tableName) && this.schemaName == BlankToNull(schemaName)
      ensures ordinalPosition == None && columnDefault == None && isNullable == None
      ensures dataType == None && nativeDataType == None && alias == None && tableAlias == None && catalog == None
      ensures !isPrimary && !isGroup
      ensures IsComputed() <==> tableName.None? || IsBlank(tableName.value)
    {
      this.variant := variant;
      this.name := name;
      this.tableName := BlankToNull(tableName);
      this.schemaName := BlankToNull(schemaName);
      ordinalPosition, columnDefault, isNullable := None, None, None;
      dataType, nativeDataType, alias, tableAlias, catalog := None, None, None, None, None;
      isPrimary, isGroup := false, false;
    }

    /** `isComputed`: a column without a table is computed. */
    predicate IsComputed()
      reads this
    {
      tableName.None? || tableName.value == ""
    }

    predicate IsNumeric()
      reads this
    {
      variant.IsNumeric()
    }

    predicate IsText()
      reads this
    {
      variant.IsText()
    }

    predicate IsDate()
      reads this
    {
      variant.IsDate()
    }

    predicate IsDatetime()
      reads this
    {
      variant.IsDatetime()
    }

    method SetName(name: string) returns (self: ColumnDefinition)
      modifies this`name
      ensures this.name == name && self == this
    {
      this.name := name;
      self := this;
    }

    method SetTableName(tableName: Option<string>) returns (self: ColumnDefinition)
      modifies this`tableName
      ensures this.tableName == BlankToNull(tableName) && self == this
      ensures IsComputed() <==> tableName.None? || IsBlank(tableName.value)
    {
      this.tableName := if tableName.None? || IsBlank(tableName.value) then None else tableName;
      self := this;
    }

    method SetSchemaName(schemaName: Option<string>) returns (self: ColumnDefinition)
      modifies this`schemaName
      ensures this.schemaName == BlankToNull(schemaName) && self == this
    {
      this.schemaName := if schemaName.None? || IsBlank(schemaName.value) then None else schemaName;
      self := this;
    }

    method SetOrdinalPosition(ordinalPosition: Option<int>) returns (self: ColumnDefinition)
      modifies this`ordinalPosition
      ensures this.ordinalPosition == ordinalPosition && self == this
    {
      this.ordinalPosition := ordinalPosition;
      self := this;
    }

    method SetColumnDefault(columnDefault: Option<string>) returns (self: ColumnDefinition)
      modifies this`columnDefault
      ensures this.columnDefault == columnDefault && self == this
    {
      this.columnDefault := columnDefault;
      self := this;
    }

    method SetIsNullable(isNullable: Option<bool>) returns (self: ColumnDefinition)
      modifies this`isNullable
      ensures this.isNullable == isNullable && self == this
    {
      this.isNullable := isNullable;
      self := this;
    }

    method SetIsPrimary(isPrimary: bool) returns (self: ColumnDefinition)
      modifies this`isPrimary
      ensures this.isPrimary == isPrimary && self == this
    {
      this.isPrimary := isPrimary;
      self := this;
    }

    method SetDataType(dataType: Option<string>) returns (self: ColumnDefinition)
      modifies this`dataType
      ensures this.dataType == dataType && self == this
    {
      this.dataType := dataType;
      self := this;
    }

    method SetNativeDataType(nativeDataType: Option<string>) returns (self: ColumnDefinition)
      modifies this`nativeDataType
      ensures this.nativeDataType == nativeDataType && self == this
    {
      this.nativeDataType := nativeDataType;
      self := this;
    }

    method SetAlias(alias: Option<string>) returns (self: ColumnDefinition)
      modifies this`alias
      ensures this.alias == alias && self == this
    {
      this.alias := alias;
      self := this;
    }

    method SetTableAlias(tableAlias: Option<string>) returns (self: ColumnDefinition)
      modifies this`tableAlias
      ensures this.tableAlias == BlankToNull(tableAlias) && self == this
    {
      this.tableAlias := if tableAlias.None? || IsBlank(tableAlias.value) then None else tableAlias;
      self := this;
    }

    method SetCatalog(catalog: Option<string>) returns (self: ColumnDefinition)
      modifies this`catalog
      ensures this.catalog == catalog && self == this
    {
      this.catalog := catalog;
      self := this;
    }

    method SetIsGroup(isGroup: bool) returns (self: ColumnDefinition)
      modifies this`isGroup
      ensures this.isGroup == isGroup && self == this
    {
      this.isGroup := isGroup;
      self := this;
    }

    /** `getNumericUnsigned` and `isNumericUnsigned`, which return the same value. */
    function NumericUnsigned(): Option<bool>
      reads this
      requires IsNumeric()
    {
      variant.Unsigned()
    }

    /** `setNumericUnsigned` of the integer, decimal and boolean columns. */
    method SetNumericUnsigned(u: Option<bool>) returns (self: ColumnDefinition)
      requires IsNumeric()
      modifies this`variant
      ensures variant == old(variant).WithUnsigned(u) && self == this
      ensures IsNumeric() && NumericUnsigned() == (if old(variant).BooleanColumn? then Some(false) else u)
    {
      UnsignedRoundTrip(variant, u);
      if !variant.BooleanColumn? {
        variant := variant.(numericUnsigned := u);
      }
      self := this;
    }

    /** `setIsAutoIncrement` of the integer column; the unsigned flag is kept. */
    method SetIsAutoIncrement(autoIncrement: Option<bool>) returns (self: ColumnDefinition)
      requires variant.IntegerColumn?
      modifies this`variant
      ensures variant == IntegerColumn(old(variant).numericUnsigned, autoIncrement) && self == this
    {
      variant := variant.(autoIncrement := autoIncrement);
      self := this;
    }

    /** `setNumericPrecision` of the decimal column; scale and unsigned are kept. */
    method SetNumericPrecision(precision: Option<int>) returns (self: ColumnDefinition)
      requires variant.DecimalColumn?
      modifies this`variant
      ensures variant == DecimalColumn(precision, old(variant).numericScale, old(variant).numericUnsigned) && self == this
    {
      variant := variant.(numericPrecision := precision);
      self := this;
    }

    /** `setNumericScale` of the decimal column; precision and unsigned are kept. */
    method SetNumericScale(scale: Option<int>) returns (self: ColumnDefinition)
      requires variant.DecimalColumn?
      modifies this`variant
      ensures variant == DecimalColumn(old(variant).numericPrecision, scale, old(variant).numericUnsigned) && self == this
    {
      variant := variant.(numericScale := scale);
      self := this;
    }

    /** `setCharacterMaximumLength` of the string column. */
    method SetCharacterMaximumLength(length: Option<int>) returns (self: ColumnDefinition)
      requires variant.StringColumn?
      modifies this`variant
      ensures variant == StringColumn(length) && self == this
    {
      variant := StringColumn(length);
      self := this;
    }

    /** `setCharacterOctetLength` of the blob column. */
    method SetCharacterOctetLength(length: Option<int>) returns (self: ColumnDefinition)
      requires variant.BlobColumn?
      modifies this`variant
      ensures variant == BlobColumn(length) && self == this
    {
      variant := BlobColumn(length);
      self := this;
    }
  }
}
