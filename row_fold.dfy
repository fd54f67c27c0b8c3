/**
 * The catalog-row fold of the MySQL driver, as pure functions: `FoldRows` is the state after
 * the row loop, `Fold` the result after the second pass that attaches inbound references.
 * The lemmas characterise each table of the result through its own rows only.
 */
module RowFold {
  import opened Wrappers
  import opened Text
  import opened OrderedMaps
  import opened Catalog

  const PrimaryKeyConstraint := "PRIMARY KEY"
  const UniqueConstraint := "UNIQUE"
  const ForeignKeyConstraint := "FOREIGN KEY"

  /** The decision table on the lower-cased `data_type`. */
  const IntegerTypes: set<string> := {"int", "tinyint", "mediumint", "bigint", "smallint", "year"}
  const DecimalTypes: set<string> := {"real", "double precision", "decimal", "numeric", "float", "dec", "fixed"}
  const TemporalTypes: set<string> := {"timestamp", "date", "time", "datetime"}
  const CharacterTypes: set<string> :=
    {"char", "varchar", "binary", "varbinary", "text", "tinytext", "mediumtext", "longtext"}
  const BlobTypes: set<string> := {"blob", "tinyblob", "mediumblob", "longblob"}
  const EnumTypes: set<string> := {"enum", "set"}

  datatype TypeFamily =
    IntegerFamily | DecimalFamily | TemporalFamily | CharacterFamily | BlobFamily | EnumFamily | Unrecognised

  /** The first family, in the order the source tests them, whose list holds `t`. */
  function Family(t: string): TypeFamily {
    if t in IntegerTypes then IntegerFamily
    else if t in DecimalTypes then DecimalFamily
    else if t in TemporalTypes then TemporalFamily
    else if t in CharacterTypes then CharacterFamily
    else if t in BlobTypes then BlobFamily
    else if t in EnumTypes then EnumFamily
    else Unrecognised
  }

  predicate IsPrimaryRow(r: Row) { r.constraintType == Some(PrimaryKeyConstraint) }
  predicate IsUniqueRow(r: Row) { r.constraintType == Some(UniqueConstraint) }
  predicate IsForeignKeyRow(r: Row) { r.constraintType == Some(ForeignKeyConstraint) }

  /** PHP's `(int)` cast of a catalog number: SQL NULL becomes 0. */
  function IntCast(x: Option<int>): int {
    x.GetOr(0)
  }

  function CategoryFieldsOf(r: Row): CategoryFields {
    match Family(ToLower(r.dataType))
    case IntegerFamily => IntegerFields(Contains(ToLower(r.columnType), "unsigned"), r.numericPrecision)
    case DecimalFamily => DecimalFields(r.numericPrecision, r.numericScale)
    case CharacterFamily => CharacterFields(r.characterOctetLength, r.characterMaximumLength)
    case BlobFamily => BlobFields(IntCast(r.characterOctetLength), IntCast(r.characterMaximumLength))
    case EnumFamily =>
      EnumFields(IntCast(r.characterOctetLength), IntCast(r.characterMaximumLength), QuotedLiterals(r.columnType))
    case TemporalFamily => NoFields
    case Unrecognised => NoFields
  }

  /** The column record one row produces (it replaces any earlier record of the column). */
  function ColumnFromRow(r: Row, includeOptions: bool): ColumnInfo
  {
    var family := Family(ToLower(r.dataType));
    var primary := IsPrimaryRow(r);
    var charset := if family == CharacterFamily then Some(CharsetInfo(r.characterSetName, r.collationName)) else None;
    ColumnInfo(
      ToLower(r.dataType),
      primary,
      r.isNullable == "YES",
      r.columnDefault,
      if primary then Some(r.extra == "auto_increment") else None,
      CategoryFieldsOf(r),
      if includeOptions then
        Some(ColumnOptions(r.columnComment, r.columnType, r.columnKey, r.ordinalPosition, r.constraintType, charset))
      else None)
  }

  /**
   * The column record, entry by entry: the type-dependent entries follow the family of the
   * lower-cased data type, and `autoincrement` exists only for PRIMARY KEY rows.
   */
  lemma ColumnFromRowDecisionTable(r: Row, includeOptions: bool)
    ensures var c := ColumnFromRow(r, includeOptions);
      && (c.typeName == ToLower(r.dataType))
      && (c.primary <==> r.constraintType == Some("PRIMARY KEY"))
      && (c.nullable <==> r.isNullable == "YES")
      && (c.default == r.columnDefault)
      && (c.autoincrement.Some? <==> c.primary)
      && (c.autoincrement.Some? ==> (c.autoincrement.value <==> r.extra == "auto_increment"))
      && (c.fields.IntegerFields? <==> c.typeName in IntegerTypes)
      && (c.fields.IntegerFields? ==>
            && (c.fields.unsigned <==> exists i :: OccursAt(ToLower(r.columnType), "unsigned", i))
            && c.fields.precision == r.numericPrecision)
      && (c.fields.DecimalFields? <==> c.typeName in DecimalTypes)
      && (c.fields.DecimalFields? ==> c.fields.precision == r.numericPrecision && c.fields.scale == r.numericScale)
      && (c.fields.CharacterFields? <==> c.typeName in CharacterTypes)
      && (c.fields.CharacterFields? ==>
            c.fields.maxOctets == r.characterOctetLength && c.fields.maxLength == r.characterMaximumLength)
      && (c.fields.BlobFields? <==> c.typeName in BlobTypes)
      && (c.fields.BlobFields? ==>
            c.fields.octetLength == r.characterOctetLength.GetOr(0) && c.fields.length == r.characterMaximumLength.GetOr(0))
      && (c.fields.EnumFields? <==> c.typeName in EnumTypes)
      && (c.fields.EnumFields? ==> c.fields.values == QuotedLiterals(r.columnType))
      && (c.fields.NoFields? <==> c.typeName !in IntegerTypes + DecimalTypes + CharacterTypes + BlobTypes + EnumTypes)
      && (c.options.Some? <==> includeOptions)
      && (c.options.Some? ==>
            && c.options.value.definition == r.columnType
            && c.options.value.constraintType == r.constraintType
            && (c.options.value.charset.Some? <==> c.fields.CharacterFields?))
  {
  }

  function TableOptionsOf(r: Row): TableOptions {
    TableOptions(r.tableComment, r.tableCollation, r.tableType, r.engine)
  }

  /** The entry created for a table at its first row. */
  function NewTable(r: Row, includeOptions: bool): TableGraph {
    TableGraph(r.tableName, Empty(), [], Empty(), Empty(), Empty(), [],
               if includeOptions then Some(TableOptionsOf(r)) else None)
  }

  function ForeignKeyFromRow(r: Row): ForeignKey {
    ForeignKey(r.referencedTableName, r.referencedColumnName, r.constraintName)
  }

  function ReferenceFromRow(r: Row): Reference {
    Reference(r.columnName, r.tableName, r.referencedColumnName, r.constraintName)
  }

  /** The key `"table:refcol->col"` of a queued reference (a NULL interpolates as ''). */
  function ReferenceKey(r: Row): string {
    r.tableName + ":" + r.referencedColumnName.GetOr("") + "->" + r.columnName
  }

  /** The table a foreign key row points at (a NULL key is '' in a PHP array). */
  function ReferencedTable(r: Row): string {
    r.referencedTableName.GetOr("")
  }

  /**
   * What one row does to the entry of its own table: its column record is (re)written, then
   * the row's constraint, if any, is recorded; the three constraint kinds exclude each other.
   */
  function ApplyRow(tg: TableGraph, r: Row, includeOptions: bool): TableGraph {
    tg.(columns := tg.columns.Put(r.columnName, ColumnFromRow(r, includeOptions)),
        primaryKeys := AddPrimaryKey(tg.primaryKeys, r),
        uniqueKeys := AddUniqueKey(tg.uniqueKeys, r),
        foreignKeys := AddForeignKey(tg.foreignKeys, r))
  }

  function AddPrimaryKey(pks: seq<string>, r: Row): seq<string> {
    if IsPrimaryRow(r) then pks + [r.columnName] else pks
  }

  function AddUniqueKey(uks: OrderedMap<seq<string>>, r: Row): OrderedMap<seq<string>> {
    if IsUniqueRow(r) then
      var name := r.constraintName.GetOr("");
      var cols := if name in uks.entries then uks.entries[name] else [];
      uks.Put(name, cols + [r.columnName])
    else uks
  }

  function AddForeignKey(fks: OrderedMap<ForeignKey>, r: Row): OrderedMap<ForeignKey> {
    if IsForeignKeyRow(r) then fks.Put(r.columnName, ForeignKeyFromRow(r)) else fks
  }

  /** The inbound references queued per referenced table, before they are attached. */
  type ReferenceQueue = OrderedMap<OrderedMap<Reference>>

  function QueueReference(queue: ReferenceQueue, r: Row): ReferenceQueue {
    if IsForeignKeyRow(r) then
      var target := ReferencedTable(r);
      var queued := if target in queue.entries then queue.entries[target] else Empty();
      queue.Put(target, queued.Put(ReferenceKey(r), ReferenceFromRow(r)))
    else queue
  }

  datatype FoldState = FoldState(tables: Tables, references: ReferenceQueue)

  /** One iteration of the row loop. */
  function FoldRow(st: FoldState, r: Row, includeOptions: bool): FoldState {
    var tables :=
      if r.tableName in st.tables.entries then st.tables
      else st.tables.Put(r.tableName, NewTable(r, includeOptions));
    FoldState(tables.Put(r.tableName, ApplyRow(tables.entries[r.tableName], r, includeOptions)),
              QueueReference(st.references, r))
  }

  /** The state after the row loop has consumed `rows`. */
  function FoldRows(rows: seq<Row>, includeOptions: bool): FoldState
    decreases |rows|
  {
    if rows == [] then FoldState(Empty(), Empty())
    else FoldRow(FoldRows(rows[..|rows| - 1], includeOptions), rows[|rows| - 1], includeOptions)
  }

  /** The second pass over the queue keys `keys`: a queued table that exists gets its references. */
  function AttachReferences(tables: Tables, queue: ReferenceQueue, keys: seq<string>): Tables
    decreases |keys|
  {
    if keys == [] then tables
    else
      var prev := AttachReferences(tables, queue, keys[..|keys| - 1]);
      var k := keys[|keys| - 1];
      if k in prev.entries && k in queue.entries then prev.Put(k, prev.entries[k].(references := queue.entries[k]))
      else prev
  }

  /** The `tables` configuration the driver returns for `rows`. */
  function Fold(rows: seq<Row>, includeOptions: bool): Tables {
    var st := FoldRows(rows, includeOptions);
    AttachReferences(st.tables, st.references, st.references.keys)
  }

  // ---------------------------------------------------------------------------------------
  // Reference definitions: projections of the row sequence that do not mention the fold.

  function TableNames(rows: seq<Row>): (names: seq<string>)
    ensures |names| == |rows|
    ensures forall i :: 0 <= i < |rows| ==> names[i] == rows[i].tableName
    decreases |rows|
  {
    if rows == [] then [] else TableNames(rows[..|rows| - 1]) + [rows[|rows| - 1].tableName]
  }

  /** The rows of table `t`, in row order. */
  function RowsOf(rows: seq<Row>, t: string): seq<Row>
    decreases |rows|
  {
    if rows == [] then []
    else
      var r := rows[|rows| - 1];
      RowsOf(rows[..|rows| - 1], t) + (if r.tableName == t then [r] else [])
  }

  /** A table's entry: its first row creates it and every one of its rows is applied in order. */
  function TableFold(trs: seq<Row>, includeOptions: bool): TableGraph
    requires |trs| > 0
  {
    ApplyRows(NewTable(trs[0], includeOptions), trs, includeOptions)
  }

  function ApplyRows(tg: TableGraph, trs: seq<Row>, includeOptions: bool): TableGraph
    decreases |trs|
  {
    if trs == [] then tg else ApplyRow(ApplyRows(tg, trs[..|trs| - 1], includeOptions), trs[|trs| - 1], includeOptions)
  }

  /** The references queued for table `t` by the foreign key rows that point at it. */
  function ReferencesTo(rows: seq<Row>, t: string): OrderedMap<Reference>
    decreases |rows|
  {
    if rows == [] then Empty()
    else
      var r := rows[|rows| - 1];
      var prev := ReferencesTo(rows[..|rows| - 1], t);
      if IsForeignKeyRow(r) && ReferencedTable(r) == t then prev.Put(ReferenceKey(r), ReferenceFromRow(r)) else prev
  }

  function ColumnNames(trs: seq<Row>): seq<string>
    decreases |trs|
  {
    if trs == [] then [] else ColumnNames(trs[..|trs| - 1]) + [trs[|trs| - 1].columnName]
  }

  /** The last row about column `c`. */
  function LastColumnRow(trs: seq<Row>, c: string): Option<Row>
    decreases |trs|
  {
    if trs == [] then None
    else if trs[|trs| - 1].columnName == c then Some(trs[|trs| - 1])
    else LastColumnRow(trs[..|trs| - 1], c)
  }

  /** The column of every PRIMARY KEY row, in row order, repeats included. */
  function PrimaryColumns(trs: seq<Row>): seq<string>
    decreases |trs|
  {
    if trs == [] then []
    else
      var r := trs[|trs| - 1];
      PrimaryColumns(trs[..|trs| - 1]) + (if IsPrimaryRow(r) then [r.columnName] else [])
  }

  function UniqueNames(trs: seq<Row>): seq<string>
    decreases |trs|
  {
    if trs == [] then []
    else
      var r := trs[|trs| - 1];
      UniqueNames(trs[..|trs| - 1]) + (if IsUniqueRow(r) then [r.constraintName.GetOr("")] else [])
  }

  /** The columns of the UNIQUE rows of constraint `name`, in row order. */
  function UniqueColumns(trs: seq<Row>, name: string): seq<string>
    decreases |trs|
  {
    if trs == [] then []
    else
      var r := trs[|trs| - 1];
      UniqueColumns(trs[..|trs| - 1], name)
        + (if IsUniqueRow(r) && r.constraintName.GetOr("") == name then [r.columnName] else [])
  }

  function ForeignKeyColumns(trs: seq<Row>): seq<string>
    decreases |trs|
  {
    if trs == [] then []
    else
      var r := trs[|trs| - 1];
      ForeignKeyColumns(trs[..|trs| - 1]) + (if IsForeignKeyRow(r) then [r.columnName] else [])
  }

  /** The last FOREIGN KEY row of column `c`. */
  function LastForeignKeyRow(trs: seq<Row>, c: string): Option<Row>
    decreases |trs|
  {
    if trs == [] then None
    else if IsForeignKeyRow(trs[|trs| - 1]) && trs[|trs| - 1].columnName == c then Some(trs[|trs| - 1])
    else LastForeignKeyRow(trs[..|trs| - 1], c)
  }

  /** A table entry as first created: every collection empty. */
  predicate Pristine(tg: TableGraph) {
    && tg.columns == Empty() && tg.primaryKeys == [] && tg.uniqueKeys == Empty()
    && tg.foreignKeys == Empty() && tg.references == Empty() && tg.indexes == []
  }

  // ---------------------------------------------------------------------------------------
  // Lemmas about one table's rows.

  /** Applying rows never touches the name, the options, the references or the indexes. */
  lemma {:induction false} ApplyRowsKeepsShape(tg: TableGraph, trs: seq<Row>, o: bool)
    ensures var t := ApplyRows(tg, trs, o);
      t.name == tg.name && t.options == tg.options && t.references == tg.references && t.indexes == tg.indexes
    decreases |trs|
  {
    if trs != [] {
      ApplyRowsKeepsShape(tg, trs[..|trs| - 1], o);
    }
  }

  /** `primary_keys` lists the column of every PRIMARY KEY row, in row order, without de-duplication. */
  lemma {:induction false} ApplyRowsPrimaryKeys(tg: TableGraph, trs: seq<Row>, o: bool)
    requires Pristine(tg)
    ensures ApplyRows(tg, trs, o).primaryKeys == PrimaryColumns(trs)
    decreases |trs|
  {
    if trs != [] {
      ApplyRowsPrimaryKeys(tg, trs[..|trs| - 1], o);
    }
  }

  /**
   * `columns` lists each column once, in order of first appearance, and holds the record
   * built from the column's last row.
   */
  lemma {:induction false} ApplyRowsColumns(tg: TableGraph, trs: seq<Row>, o: bool)
    requires Pristine(tg)
    ensures var cols := ApplyRows(tg, trs, o).columns;
      && cols.keys == Dedup(ColumnNames(trs))
      && (forall c :: c in cols.entries <==> LastColumnRow(trs, c).Some?)
      && (forall c :: c in cols.entries ==> cols.entries[c] == ColumnFromRow(LastColumnRow(trs, c).value, o))
    decreases |trs|
  {
    if trs != [] {
      var p, r := trs[..|trs| - 1], trs[|trs| - 1];
      ApplyRowsColumns(tg, p, o);
      LastColumnRowMembers(p);
      DedupMembers(ColumnNames(p));
      assert ApplyRows(tg, trs, o).columns == ApplyRows(tg, p, o).columns.Put(r.columnName, ColumnFromRow(r, o));
    }
  }

  lemma {:induction false} LastColumnRowMembers(trs: seq<Row>)
    ensures forall c :: LastColumnRow(trs, c).Some? <==> c in ColumnNames(trs)
    decreases |trs|
  {
    if trs != [] {
      LastColumnRowMembers(trs[..|trs| - 1]);
    }
  }

  /** `uks` is what the UNIQUE rows among `trs` build: per constraint, its columns in row order. */
  ghost predicate UniqueKeysBuiltFrom(uks: OrderedMap<seq<string>>, trs: seq<Row>) {
    && uks.keys == Dedup(UniqueNames(trs))
    && (forall n :: n in uks.entries <==> n in UniqueNames(trs))
    && (forall n :: n in uks.entries ==> uks.entries[n] == UniqueColumns(trs, n))
  }

  lemma AddUniqueKeyStep(uks: OrderedMap<seq<string>>, trs: seq<Row>, r: Row)
    requires UniqueKeysBuiltFrom(uks, trs)
    ensures UniqueKeysBuiltFrom(AddUniqueKey(uks, r), trs + [r])
  {
    var trs' := trs + [r];
    assert trs'[..|trs'| - 1] == trs;
    var uks' := AddUniqueKey(uks, r);
    if IsUniqueRow(r) {
      var name := r.constraintName.GetOr("");
      assert UniqueNames(trs') == UniqueNames(trs) + [name];
      DedupMembers(UniqueNames(trs));
      UniqueColumnsOfOtherNames(trs);
      forall n | n in uks'.entries
        ensures uks'.entries[n] == UniqueColumns(trs', n)
      {
        assert UniqueColumns(trs', n) == UniqueColumns(trs, n) + (if n == name then [r.columnName] else []);
      }
    } else {
      assert UniqueNames(trs') == UniqueNames(trs);
      forall n | n in uks'.entries
        ensures uks'.entries[n] == UniqueColumns(trs', n)
      {
        assert UniqueColumns(trs', n) == UniqueColumns(trs, n);
      }
    }
  }

  /** Each UNIQUE row appends its column to the list of its constraint, in row order. */
  lemma {:induction false} ApplyRowsUniqueKeys(tg: TableGraph, trs: seq<Row>, o: bool)
    requires Pristine(tg)
    ensures UniqueKeysBuiltFrom(ApplyRows(tg, trs, o).uniqueKeys, trs)
    decreases |trs|
  {
    if trs != [] {
      var p, r := trs[..|trs| - 1], trs[|trs| - 1];
      ApplyRowsUniqueKeys(tg, p, o);
      AddUniqueKeyStep(ApplyRows(tg, p, o).uniqueKeys, p, r);
      assert p + [r] == trs;
    }
  }

  lemma {:induction false} UniqueColumnsOfOtherNames(trs: seq<Row>)
    ensures forall n :: n !in UniqueNames(trs) ==> UniqueColumns(trs, n) == []
    decreases |trs|
  {
    if trs != [] {
      UniqueColumnsOfOtherNames(trs[..|trs| - 1]);
    }
  }

  /** `fks` is what the FOREIGN KEY rows among `trs` build: per column, the record of its last such row. */
  ghost predicate ForeignKeysBuiltFrom(fks: OrderedMap<ForeignKey>, trs: seq<Row>) {
    && fks.keys == Dedup(ForeignKeyColumns(trs))
    && (forall c :: c in fks.entries <==> LastForeignKeyRow(trs, c).Some?)
    && (forall c :: c in fks.entries ==> fks.entries[c] == ForeignKeyFromRow(LastForeignKeyRow(trs, c).value))
  }

  lemma AddForeignKeyStep(fks: OrderedMap<ForeignKey>, trs: seq<Row>, r: Row)
    requires ForeignKeysBuiltFrom(fks, trs)
    ensures ForeignKeysBuiltFrom(AddForeignKey(fks, r), trs + [r])
  {
    AddForeignKeyKeys(fks, trs, r);
    AddForeignKeyEntries(fks, trs, r);
  }

  lemma AddForeignKeyKeys(fks: OrderedMap<ForeignKey>, trs: seq<Row>, r: Row)
    requires ForeignKeysBuiltFrom(fks, trs)
    ensures AddForeignKey(fks, r).keys == Dedup(ForeignKeyColumns(trs + [r]))
  {
    var trs' := trs + [r];
    assert trs'[..|trs'| - 1] == trs;
    if IsForeignKeyRow(r) {
      DedupMembers(ForeignKeyColumns(trs));
      LastForeignKeyRowMembers(trs);
      assert r.columnName in fks.entries <==> r.columnName in Dedup(ForeignKeyColumns(trs));
      assert ForeignKeyColumns(trs') == ForeignKeyColumns(trs) + [r.columnName];
    } else {
      assert ForeignKeyColumns(trs') == ForeignKeyColumns(trs);
    }
  }

  lemma AddForeignKeyEntries(fks: OrderedMap<ForeignKey>, trs: seq<Row>, r: Row)
    requires ForeignKeysBuiltFrom(fks, trs)
    ensures var fks' := AddForeignKey(fks, r);
      && (forall c :: c in fks'.entries <==> LastForeignKeyRow(trs + [r], c).Some?)
      && (forall c :: c in fks'.entries ==> fks'.entries[c] == ForeignKeyFromRow(LastForeignKeyRow(trs + [r], c).value))
  {
    var trs' := trs + [r];
    assert trs'[..|trs'| - 1] == trs;
    forall c | !IsForeignKeyRow(r) || c != r.columnName
      ensures LastForeignKeyRow(trs', c) == LastForeignKeyRow(trs, c)
    {
    }
  }

  /** `foreign_keys[c]` is built from the last FOREIGN KEY row of `c`. */
  lemma {:induction false} ApplyRowsForeignKeys(tg: TableGraph, trs: seq<Row>, o: bool)
    requires Pristine(tg)
    ensures ForeignKeysBuiltFrom(ApplyRows(tg, trs, o).foreignKeys, trs)
    decreases |trs|
  {
    if trs != [] {
      var p, r := trs[..|trs| - 1], trs[|trs| - 1];
      ApplyRowsForeignKeys(tg, p, o);
      AddForeignKeyStep(ApplyRows(tg, p, o).foreignKeys, p, r);
      assert p + [r] == trs;
    }
  }

  lemma {:induction false} LastForeignKeyRowMembers(trs: seq<Row>)
    ensures forall c :: LastForeignKeyRow(trs, c).Some? <==> c in ForeignKeyColumns(trs)
    decreases |trs|
  {
    if trs != [] {
      LastForeignKeyRowMembers(trs[..|trs| - 1]);
    }
  }

  // ---------------------------------------------------------------------------------------
  // Lemmas about the whole fold.

  /** After the row loop, the tables are those named by the rows, in order of first appearance. */
  lemma {:induction false} FoldRowsTableOrder(rows: seq<Row>, o: bool)
    ensures var st := FoldRows(rows, o);
      && st.tables.keys == Dedup(TableNames(rows))
      && (forall t :: t in st.tables.entries <==> t in TableNames(rows))
      && st.references.Valid()
    decreases |rows|
  {
    if rows != [] {
      var p := rows[..|rows| - 1];
      FoldRowsTableOrder(p, o);
      DedupMembers(TableNames(p));
      assert TableNames(rows) == TableNames(p) + [rows[|rows| - 1].tableName];
    }
  }

  /** `tables` holds an entry for `t` exactly when `rows` has rows of `t`, and that entry is their fold. */
  ghost predicate EntryBuiltFrom(tables: Tables, rows: seq<Row>, o: bool, t: string) {
    && (t in tables.entries <==> |RowsOf(rows, t)| > 0)
    && (t in tables.entries ==> tables.entries[t] == TableFold(RowsOf(rows, t), o))
  }

  /** A table's next row is applied to the entry its earlier rows built (or to a fresh one). */
  lemma TableFoldSnoc(xs: seq<Row>, r: Row, o: bool)
    ensures TableFold(xs + [r], o) == ApplyRow(if |xs| > 0 then TableFold(xs, o) else NewTable(r, o), r, o)
  {
    if |xs| > 0 {
      assert (xs + [r])[0] == xs[0];
      assert (xs + [r])[..|xs|] == xs;
    } else {
      assert xs + [r] == [r];
      assert [r][..0] == [];
      assert ApplyRows(NewTable(r, o), [r], o) == ApplyRow(ApplyRows(NewTable(r, o), [], o), r, o);
    }
  }

  lemma FoldRowStep(st: FoldState, rows: seq<Row>, r: Row, o: bool, t: string)
    requires EntryBuiltFrom(st.tables, rows, o, t)
    ensures EntryBuiltFrom(FoldRow(st, r, o).tables, rows + [r], o, t)
  {
    var rows' := rows + [r];
    assert rows'[..|rows'| - 1] == rows;
    var xs := RowsOf(rows, t);
    var tables := if r.tableName in st.tables.entries then st.tables else st.tables.Put(r.tableName, NewTable(r, o));
    assert FoldRow(st, r, o).tables == tables.Put(r.tableName, ApplyRow(tables.entries[r.tableName], r, o));
    if r.tableName == t {
      assert RowsOf(rows', t) == xs + [r];
      TableFoldSnoc(xs, r, o);
    } else {
      assert RowsOf(rows', t) == xs;
    }
  }

  /** After the row loop, the entry of table `t` depends only on the rows of `t`. */
  lemma {:induction false} FoldRowsPerTable(rows: seq<Row>, o: bool, t: string)
    ensures EntryBuiltFrom(FoldRows(rows, o).tables, rows, o, t)
    decreases |rows|
  {
    if rows != [] {
      var p, r := rows[..|rows| - 1], rows[|rows| - 1];
      assert p + [r] == rows;
      assert FoldRows(rows, o) == FoldRow(FoldRows(p, o), r, o);
      FoldRowsPerTable(p, o, t);
      FoldRowStep(FoldRows(p, o), p, r, o, t);
    } else {
      assert RowsOf(rows, t) == [];
    }
  }

  /** After the row loop, the queue of table `t` holds what the foreign key rows pointing at `t` put there. */
  lemma {:induction false} FoldRowsQueue(rows: seq<Row>, o: bool, t: string)
    ensures var q := FoldRows(rows, o).references;
      && (t in q.entries ==> q.entries[t] == ReferencesTo(rows, t))
      && (t !in q.entries ==> ReferencesTo(rows, t) == Empty())
    decreases |rows|
  {
    if rows != [] {
      FoldRowsQueue(rows[..|rows| - 1], o, t);
    }
  }

  lemma {:induction false} AttachReferencesEffect(tables: Tables, queue: ReferenceQueue, keys: seq<string>)
    ensures var res := AttachReferences(tables, queue, keys);
      && res.keys == tables.keys
      && (forall t :: t in res.entries <==> t in tables.entries)
      && (forall t :: t in res.entries ==>
            res.entries[t] == if t in keys && t in queue.entries
                              then tables.entries[t].(references := queue.entries[t])
                              else tables.entries[t])
    decreases |keys|
  {
    if keys != [] {
      var p := keys[..|keys| - 1];
      AttachReferencesEffect(tables, queue, p);
      assert forall t :: t in keys <==> t in p || t == keys[|keys| - 1];
    }
  }

  /**
   * The driver's result, fully characterised: its tables are the tables of the rows in order
   * of first appearance, and the entry of each is the fold of its own rows, with the references
   * queued by the foreign key rows that point at it.
   */
  lemma FoldCharacterisation(rows: seq<Row>, o: bool)
    ensures var res := Fold(rows, o);
      && res.keys == Dedup(TableNames(rows))
      && (forall t :: t in res.entries <==> t in TableNames(rows))
      && (forall t :: t in res.entries ==>
            |RowsOf(rows, t)| > 0 && res.entries[t] == TableFold(RowsOf(rows, t), o).(references := ReferencesTo(rows, t)))
  {
    var st := FoldRows(rows, o);
    FoldRowsTableOrder(rows, o);
    AttachReferencesEffect(st.tables, st.references, st.references.keys);
    forall t | t in st.tables.entries
      ensures |RowsOf(rows, t)| > 0
      ensures Fold(rows, o).entries[t] == TableFold(RowsOf(rows, t), o).(references := ReferencesTo(rows, t))
    {
      FoldRowsPerTable(rows, o, t);
      FoldRowsQueue(rows, o, t);
      var trs := RowsOf(rows, t);
      ApplyRowsKeepsShape(NewTable(trs[0], o), trs, o);
    }
  }

  /** The entry of one table of the result, as `FoldCharacterisation` describes it. */
  lemma FoldEntry(rows: seq<Row>, o: bool, t: string)
    requires t in Fold(rows, o).entries
    ensures |RowsOf(rows, t)| > 0
    ensures Fold(rows, o).entries[t] == TableFold(RowsOf(rows, t), o).(references := ReferencesTo(rows, t))
  {
    FoldCharacterisation(rows, o);
  }

  /** Every table starts with its own name, options only when asked for, and no indexes. */
  lemma FoldTableShape(rows: seq<Row>, o: bool, t: string)
    requires t in Fold(rows, o).entries
    ensures var tg := Fold(rows, o).entries[t];
      && tg.name == t
      && (tg.options.Some? <==> o)
      && tg.indexes == []
  {
    FoldEntry(rows, o, t);
    var trs := RowsOf(rows, t);
    RowsOfTable(rows, t);
    ApplyRowsKeepsShape(NewTable(trs[0], o), trs, o);
  }

  lemma {:induction false} RowsOfTable(rows: seq<Row>, t: string)
    ensures forall i :: 0 <= i < |RowsOf(rows, t)| ==> RowsOf(rows, t)[i].tableName == t
    decreases |rows|
  {
    if rows != [] {
      RowsOfTable(rows[..|rows| - 1], t);
    }
  }

  /** Table `t`'s `primary_keys`: one entry per PRIMARY KEY row of `t`, repeats kept. */
  lemma FoldPrimaryKeys(rows: seq<Row>, o: bool, t: string)
    requires t in Fold(rows, o).entries
    ensures Fold(rows, o).entries[t].primaryKeys == PrimaryColumns(RowsOf(rows, t))
  {
    FoldEntry(rows, o, t);
    var trs := RowsOf(rows, t);
    ApplyRowsPrimaryKeys(NewTable(trs[0], o), trs, o);
  }

  /** Table `t`'s columns: first-appearance order, each holding the record of its last row. */
  lemma FoldColumns(rows: seq<Row>, o: bool, t: string)
    requires t in Fold(rows, o).entries
    ensures var cols := Fold(rows, o).entries[t].columns;
      && cols.keys == Dedup(ColumnNames(RowsOf(rows, t)))
      && (forall c :: c in cols.entries ==>
            LastColumnRow(RowsOf(rows, t), c).Some?
            && cols.entries[c] == ColumnFromRow(LastColumnRow(RowsOf(rows, t), c).value, o))
  {
    FoldEntry(rows, o, t);
    var trs := RowsOf(rows, t);
    ApplyRowsColumns(NewTable(trs[0], o), trs, o);
  }

  /** Table `t`'s unique keys: per constraint, the columns of its UNIQUE rows in row order. */
  lemma FoldUniqueKeys(rows: seq<Row>, o: bool, t: string)
    requires t in Fold(rows, o).entries
    ensures var uks := Fold(rows, o).entries[t].uniqueKeys;
      && (forall n :: n in uks.entries <==> n in UniqueNames(RowsOf(rows, t)))
      && (forall n :: n in uks.entries ==> uks.entries[n] == UniqueColumns(RowsOf(rows, t), n))
  {
    FoldEntry(rows, o, t);
    var trs := RowsOf(rows, t);
    ApplyRowsUniqueKeys(NewTable(trs[0], o), trs, o);
  }

  /** Table `t`'s foreign keys: per column, the record of its last FOREIGN KEY row. */
  lemma FoldForeignKeys(rows: seq<Row>, o: bool, t: string)
    requires t in Fold(rows, o).entries
    ensures var fks := Fold(rows, o).entries[t].foreignKeys;
      && (forall c :: c in fks.entries <==> LastForeignKeyRow(RowsOf(rows, t), c).Some?)
      && (forall c :: c in fks.entries ==>
            fks.entries[c] == ForeignKeyFromRow(LastForeignKeyRow(RowsOf(rows, t), c).value))
  {
    FoldEntry(rows, o, t);
    var trs := RowsOf(rows, t);
    ApplyRowsForeignKeys(NewTable(trs[0], o), trs, o);
  }

  /**
   * The inbound references of table `t` are exactly the `"table:refcol->col"` keys of the
   * foreign key rows pointing at `t`, each holding the reference of the last such row with
   * that key; references queued for a table without rows are dropped.
   */
  lemma FoldReferences(rows: seq<Row>, o: bool, t: string)
    requires t in Fold(rows, o).entries
    ensures AllSourced(Fold(rows, o).entries[t].references, rows, t)
    ensures var refs := Fold(rows, o).entries[t].references;
      forall k :: k in refs.entries <==> exists i :: 0 <= i < |rows| && PointsAt(rows[i], t, k)
    ensures var refs := Fold(rows, o).entries[t].references;
      forall k :: k in refs.entries ==>
        exists j :: LastPointing(rows, t, k, j) && refs.entries[k] == ReferenceFromRow(rows[j])
  {
    FoldEntry(rows, o, t);
    ReferencesToSources(rows, t);
    forall k {
      ReferencesToComplete(rows, t, k);
    }
  }

  /** Row `r` is a foreign key row pointing at `t` whose reference key is `k`. */
  predicate PointsAt(r: Row, t: string, k: string) {
    IsForeignKeyRow(r) && ReferencedTable(r) == t && ReferenceKey(r) == k
  }

  /** Row `j` is the last row of `rows` pointing at `t` under key `k`. */
  ghost predicate LastPointing(rows: seq<Row>, t: string, k: string, j: int) {
    && 0 <= j < |rows|
    && PointsAt(rows[j], t, k)
    && forall i :: j < i < |rows| ==> !PointsAt(rows[i], t, k)
  }

  /**
   * Every foreign key row pointing at `t` queues its key, and nothing else is queued; a key
   * queued by several rows holds the reference of the last of them.
   */
  lemma {:induction false} ReferencesToComplete(rows: seq<Row>, t: string, k: string)
    ensures k in ReferencesTo(rows, t).entries <==> exists i :: 0 <= i < |rows| && PointsAt(rows[i], t, k)
    ensures k in ReferencesTo(rows, t).entries ==>
      exists j :: LastPointing(rows, t, k, j) && ReferencesTo(rows, t).entries[k] == ReferenceFromRow(rows[j])
    decreases |rows|
  {
    if rows != [] {
      var p, r := rows[..|rows| - 1], rows[|rows| - 1];
      ReferencesToComplete(p, t, k);
      ReferencesToStep(p, r, t, k);
      assert p + [r] == rows;
      var prev, refs := ReferencesTo(p, t), ReferencesTo(rows, t);
      if PointsAt(r, t, k) {
        assert LastPointing(rows, t, k, |rows| - 1);
      } else {
        if k in prev.entries {
          var j :| LastPointing(p, t, k, j) && prev.entries[k] == ReferenceFromRow(p[j]);
          assert rows[j] == p[j];
          assert LastPointing(rows, t, k, j);
          assert 0 <= j < |rows| && PointsAt(rows[j], t, k);
        }
        if exists i :: 0 <= i < |rows| && PointsAt(rows[i], t, k) {
          var i :| 0 <= i < |rows| && PointsAt(rows[i], t, k);
          assert rows[i] == p[i];
        }
      }
    }
  }

  /** What one more row does to the reference queued under `k`. */
  lemma ReferencesToStep(p: seq<Row>, r: Row, t: string, k: string)
    ensures var prev, refs := ReferencesTo(p, t), ReferencesTo(p + [r], t);
      && (PointsAt(r, t, k) ==> k in refs.entries && refs.entries[k] == ReferenceFromRow(r))
      && (!PointsAt(r, t, k) ==> (k in refs.entries <==> k in prev.entries))
      && (!PointsAt(r, t, k) && k in prev.entries ==> refs.entries[k] == prev.entries[k])
  {
    assert (p + [r])[..|p|] == p;
  }

  /** Row `r` is a foreign key row pointing at `t` that queues `ref` under key `k`. */
  predicate Queues(r: Row, t: string, k: string, ref: Reference) {
    IsForeignKeyRow(r) && ReferencedTable(r) == t && ReferenceKey(r) == k && ref == ReferenceFromRow(r)
  }

  ghost predicate HasSource(rows: seq<Row>, t: string, k: string, ref: Reference) {
    exists i :: 0 <= i < |rows| && Queues(rows[i], t, k, ref)
  }

  /** Every reference in `refs` was queued by some row of `rows` pointing at `t`. */
  ghost predicate AllSourced(refs: OrderedMap<Reference>, rows: seq<Row>, t: string) {
    forall k :: k in refs.entries ==> HasSource(rows, t, k, refs.entries[k])
  }

  lemma HasSourceExtend(rows: seq<Row>, r: Row, t: string, k: string, ref: Reference)
    requires HasSource(rows, t, k, ref)
    ensures HasSource(rows + [r], t, k, ref)
  {
    var i :| 0 <= i < |rows| && Queues(rows[i], t, k, ref);
    assert (rows + [r])[i] == rows[i];
  }

  lemma {:induction false} ReferencesToSources(rows: seq<Row>, t: string)
    ensures AllSourced(ReferencesTo(rows, t), rows, t)
    decreases |rows|
  {
    if rows != [] {
      var p, r := rows[..|rows| - 1], rows[|rows| - 1];
      assert p + [r] == rows;
      ReferencesToSources(p, t);
      var refs := ReferencesTo(rows, t);
      forall k | k in refs.entries
        ensures HasSource(rows, t, k, refs.entries[k])
      {
        if IsForeignKeyRow(r) && ReferencedTable(r) == t && ReferenceKey(r) == k {
          assert Queues(rows[|rows| - 1], t, k, refs.entries[k]);
        } else {
          HasSourceExtend(p, r, t, k, refs.entries[k]);
        }
      }
    }
  }
}
