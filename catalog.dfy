/**
 * The flat rows the information-schema query returns and the nested table graph the
 * driver folds them into (the `tables` part of the driver's `Config`).
 */
module Catalog {
  import opened Wrappers
  import opened OrderedMaps

  /**
   * One row of the wide catalog query: one column of one table, repeated once per
   * key-usage entry (constraint) the column takes part in. Text fields the query can
   * return as SQL NULL are options; the numeric fields are integers or NULL.
   */
  datatype Row = Row(
    tableName: string,
    columnName: string,
    dataType: string,
    columnType: string,
    extra: string,
    constraintType: Option<string>,
    constraintName: Option<string>,
    referencedTableName: Option<string>,
    referencedColumnName: Option<string>,
    columnDefault: Option<string>,
    isNullable: string,
    numericPrecision: Option<int>,
    numericScale: Option<int>,
    characterOctetLength: Option<int>,
    characterMaximumLength: Option<int>,
    ordinalPosition: int,
    columnKey: string,
    characterSetName: Option<string>,
    collationName: Option<string>,
    columnComment: string,
    tableType: string,
    engine: Option<string>,
    tableComment: string,
    tableCollation: Option<string>)

  /** The type-dependent entries of a column record; which ones exist depends on the type family. */
  datatype CategoryFields =
    | IntegerFields(unsigned: bool, precision: Option<int>)
    | DecimalFields(precision: Option<int>, scale: Option<int>)
    | CharacterFields(maxOctets: Option<int>, maxLength: Option<int>)
    | BlobFields(octetLength: int, length: int)
    | EnumFields(octetLength: int, length: int, values: seq<string>)
      /** Temporal and unrecognised types get no type-dependent entry. */
    | NoFields

  datatype CharsetInfo = CharsetInfo(charset: Option<string>, collation: Option<string>)

  /** The `options` entry of a column record; `charset` is only there for character types. */
  datatype ColumnOptions = ColumnOptions(
    comment: string,
    definition: string,
    columnKey: string,
    ordinalPosition: int,
    constraintType: Option<string>,
    charset: Option<CharsetInfo>)

  /** A column record; `autoincrement` is there only when the row was a PRIMARY KEY row. */
  datatype ColumnInfo = ColumnInfo(
    typeName: string,
    primary: bool,
    nullable: bool,
    default: Option<string>,
    autoincrement: Option<bool>,
    fields: CategoryFields,
    options: Option<ColumnOptions>)

  datatype ForeignKey = ForeignKey(
    referencedTable: Option<string>,
    referencedColumn: Option<string>,
    constraintName: Option<string>)

  /**
   * An inbound reference, recorded on the referenced table. As in the source,
   * `referencingColumn` holds the referenced column's name.
   */
  datatype Reference = Reference(
    column: string,
    referencingTable: string,
    referencingColumn: Option<string>,
    constraintName: Option<string>)

  datatype TableOptions = TableOptions(
    comment: string,
    collation: Option<string>,
    tableType: string,
    engine: Option<string>)

  /** One entry of `tables`; `indexes` is always left empty by the driver. */
  datatype TableGraph = TableGraph(
    name: string,
    columns: OrderedMap<ColumnInfo>,
    primaryKeys: seq<string>,
    uniqueKeys: OrderedMap<seq<string>>,
    foreignKeys: OrderedMap<ForeignKey>,
    references: OrderedMap<Reference>,
    indexes: seq<string>,
    options: Option<TableOptions>)

  /** The `tables` entry of a schema configuration, keyed by table name. */
  type Tables = OrderedMap<TableGraph>
}
