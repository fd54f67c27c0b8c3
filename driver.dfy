/**
 * The MySQL 5.1+ driver: it runs one wide information-schema query (with the server's
 * `innodb_stats_on_metadata` setting switched off around it) and folds the flat rows into
 * the nested `tables` configuration.
 */
module MysqlDriver {
  import opened Wrappers
  import opened Text
  import opened OrderedMaps
  import opened Catalog
  import opened SchemaErrors
  import opened Connection
  import opened RowFold
  import opened StatsToggle

  const ExecuteQueryMethod := "Soluble\\Schema\\Source\\Mysql\\MysqlDriver51::executeQuery"

  /** The column record and the constraint switch of one row, on the entry of the row's table. */
  method UpdateTableEntry(tg: TableGraph, row: Row, includeOptions: bool) returns (tg': TableGraph)
    ensures tg' == ApplyRow(tg, row, includeOptions)
  {
    var columns := tg.columns.Put(row.columnName, ColumnFromRow(row, includeOptions));
    var primaryKeys, uniqueKeys, foreignKeys := tg.primaryKeys, tg.uniqueKeys, tg.foreignKeys;
    if row.constraintType == Some(PrimaryKeyConstraint) {
      primaryKeys := primaryKeys + [row.columnName];
    } else if row.constraintType == Some(UniqueConstraint) {
      var name := row.constraintName.GetOr("");
      if name !in uniqueKeys.entries {
        uniqueKeys := uniqueKeys.Put(name, []);
      }
      uniqueKeys := uniqueKeys.Put(name, uniqueKeys.entries[name] + [row.columnName]);
    } else if row.constraintType == Some(ForeignKeyConstraint) {
      foreignKeys := foreignKeys.Put(row.columnName, ForeignKeyFromRow(row));
    }
    tg' := tg.(columns := columns, primaryKeys := primaryKeys, uniqueKeys := uniqueKeys, foreignKeys := foreignKeys);
  }

  /** The FOREIGN KEY case's second half: the reference is queued for the referenced table. */
  method QueueRowReference(queue: ReferenceQueue, row: Row) returns (queue': ReferenceQueue)
    ensures queue' == QueueReference(queue, row)
  {
    queue' := queue;
    if row.constraintType == Some(ForeignKeyConstraint) {
      var target := ReferencedTable(row);
      if target !in queue'.entries {
        queue' := queue'.Put(target, Empty());
      }
      queue' := queue'.Put(target, queue'.entries[target].Put(ReferenceKey(row), ReferenceFromRow(row)));
    }
  }

  /** One pass of the row loop: the row's table entry is created if new, then updated. */
  method FoldCatalogRow(tables: Tables, queue: ReferenceQueue, row: Row, includeOptions: bool)
    returns (tables': Tables, queue': ReferenceQueue)
    ensures FoldState(tables', queue') == FoldRow(FoldState(tables, queue), row, includeOptions)
  {
    tables' := tables;
    if row.tableName !in tables'.entries {
      tables' := tables'.Put(row.tableName, NewTable(row, includeOptions));
    }
    var tg := UpdateTableEntry(tables'.entries[row.tableName], row, includeOptions);
    tables' := tables'.Put(row.tableName, tg);
    queue' := QueueRowReference(queue, row);
  }

  /** The row loop of `getSchemaConfig`: builds the tables and the queue of inbound references. */
  method FoldCatalogRows(rows: seq<Row>, includeOptions: bool) returns (tables: Tables, queue: ReferenceQueue)
    ensures FoldState(tables, queue) == FoldRows(rows, includeOptions)
  {
    tables, queue := Empty(), Empty();
    var i := 0;
    while i < |rows|
      invariant 0 <= i <= |rows|
      invariant FoldState(tables, queue) == FoldRows(rows[..i], includeOptions)
    {
      assert rows[..i + 1][..i] == rows[..i];
      assert FoldRows(rows[..i + 1], includeOptions) == FoldRow(FoldRows(rows[..i], includeOptions), rows[i], includeOptions);
      tables, queue := FoldCatalogRow(tables, queue, rows[i], includeOptions);
      i := i + 1;
    }
    assert rows[..i] == rows;
  }

  /** The second pass of `getSchemaConfig`: each queue goes to its table, when that table was read. */
  method AttachQueuedReferences(tables: Tables, queue: ReferenceQueue) returns (res: Tables)
    requires queue.Valid()
    ensures res == AttachReferences(tables, queue, queue.keys)
  {
    res := tables;
    var keys := queue.keys;
    var j := 0;
    while j < |keys|
      invariant 0 <= j <= |keys|
      invariant res == AttachReferences(tables, queue, keys[..j])
    {
      var name := keys[j];
      if name in res.entries {
        res := res.Put(name, res.entries[name].(references := queue.entries[name]));
      }
      assert keys[..j + 1][..j] == keys[..j];
      j := j + 1;
    }
    assert keys[..j] == keys;
  }

  /** The query for the schema `schema`, or for `table` and the foreign keys that point at it. */
  function CatalogQueryFor(adapter: Adapter, schema: string, table: Option<string>): (q: Query)
    ensures q.quotedSchema == adapter.quote(schema)
    ensures q.quotedTable.Some? <==> table.Some?
    ensures table.Some? ==> q.quotedTable == Some(adapter.quote(table.value))
  {
    CatalogQuery(adapter.quote(schema), if table.Some? then Some(adapter.quote(table.value)) else None)
  }

  /** The folded configuration of a catalog query's outcome. */
  function ConfigOf(outcome: Result<seq<Row>, Error>, includeOptions: bool): (r: Result<Tables, Error>)
    ensures r.Success? <==> outcome.Success?
    ensures r.Failure? ==> r.error == outcome.error
  {
    match outcome
    case Success(rows) => Success(Fold(rows, includeOptions))
    case Failure(e) => Failure(e)
  }

  /** Every configuration the driver returns is a well-formed ordered map. */
  lemma ConfigWellFormed(outcome: Result<seq<Row>, Error>, includeOptions: bool)
    ensures var r := ConfigOf(outcome, includeOptions); r.Success? ==> r.value.Valid()
  {
    if outcome.Success? {
      FoldCharacterisation(outcome.value, includeOptions);
      DedupMembers(TableNames(outcome.value));
    }
  }

  /** Folds the rows of a successful query; the shared tail of the driver and the legacy source. */
  method FoldOutcome(outcome: Result<seq<Row>, Error>, includeOptions: bool) returns (r: Result<Tables, Error>)
    ensures r == ConfigOf(outcome, includeOptions)
  {
    if outcome.Failure? {
      return Failure(outcome.error);
    }
    var rows := outcome.value;
    var tables, queue := FoldCatalogRows(rows, includeOptions);
    FoldRowsTableOrder(rows, includeOptions);
    tables := AttachQueuedReferences(tables, queue);
    r := Success(tables);
  }

  class MysqlDriver51 {
    const adapter: Adapter
    const schema: string
    /** The `innodb_stats_on_metadata` toggle and its remembered value. */
    const stats: InnoDbStatsToggle

    ghost predicate Valid() {
      stats.adapter == adapter
    }

    constructor (adapter: Adapter, schema: string)
      ensures Valid() && fresh(stats)
      ensures this.adapter == adapter && this.schema == schema && stats.saved == None
    {
      this.adapter := adapter;
      this.schema := schema;
      stats := new InnoDbStatsToggle(adapter);
    }

    /** What `getSchemaConfig(table, includeOptions)` returns. */
    function SchemaConfigFor(table: Option<string>, includeOptions: bool): Result<Tables, Error> {
      ConfigOf(QueryOutcome(ExecuteQueryMethod, adapter.catalog(CatalogQueryFor(adapter, schema, table))), includeOptions)
    }

    /** Runs the catalog query with the statistics switched off, restoring them on both paths. */
    method ExecuteQuery(table: Option<string>) returns (r: Result<seq<Row>, Error>)
      requires Valid()
      modifies stats`saved, adapter`statsOnMetadata
      ensures r == QueryOutcome(ExecuteQueryMethod, adapter.catalog(CatalogQueryFor(adapter, schema, table)))
      ensures StatsTrack(true, old(adapter.statsOnMetadata), old(stats.saved), adapter.statsOnMetadata, stats.saved)
    {
      var query := CatalogQueryFor(adapter, schema, table);
      r := stats.RunWithStatsOff(query, ExecuteQueryMethod);
    }

    /**
     * `getSchemaConfig`: the row loop builds the tables and the queue of inbound references,
     * then a second pass attaches each queue to its table when that table was read.
     */
    method GetSchemaConfig(table: Option<string>, includeOptions: bool) returns (r: Result<Tables, Error>)
      requires Valid()
      modifies stats`saved, adapter`statsOnMetadata
      ensures r == SchemaConfigFor(table, includeOptions)
      ensures StatsTrack(true, old(adapter.statsOnMetadata), old(stats.saved), adapter.statsOnMetadata, stats.saved)
    {
      var results := ExecuteQuery(table);
      r := FoldOutcome(results, includeOptions);
    }
  }
}
