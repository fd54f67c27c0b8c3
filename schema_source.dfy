/**
 * The schema source over the MySQL 5.1+ driver. It reads through the class-wide cache,
 * keyed by the schema signature `"host:schema"`, so that sources on different servers never
 * share entries. Every read goes through `loadCacheInformation`: a table getter loads its
 * table, `getTablesInformation` the whole schema.
 */
module SchemaSource {
  import opened Wrappers
  import opened Text
  import opened OrderedMaps
  import opened Catalog
  import opened SchemaErrors
  import opened Connection
  import opened StatsToggle
  import opened RowFold
  import opened MysqlDriver
  import opened SourceArgs
  import opened SchemaCache

  /** Extended information (comments, collations, engines) is always read. */
  const IncludeOptions := true

  /** `new MysqlInformationSchema($adapter, $schema)`: the schema given, or else the connection's current one. */
  method Open(adapter: Adapter, schema: Arg, cache: SharedCache) returns (r: Result<MysqlInformationSchema, Error>)
    requires cache.Valid()
    ensures var resolved := ResolveSchema(schema, adapter.currentSchema);
      && (r.Success? <==> resolved.Success?)
      && (r.Failure? ==> r.error == resolved.error)
      && (r.Success? ==> && r.value.Valid() && r.value.adapter == adapter && r.value.cache == cache
                         && r.value.schema == resolved.value
                         && r.value.schemaSignature == Signature(adapter.host, resolved.value)
                         && fresh(r.value.driver.stats) && r.value.driver.stats.saved == None)
  {
    var resolved := ResolveSchema(schema, adapter.currentSchema);
    if resolved.Failure? {
      return Failure(resolved.error);
    }
    ResolveSchemaSound(schema, adapter.currentSchema);
    var source := new MysqlInformationSchema(adapter, resolved.value, cache);
    r := Success(source);
  }

  class MysqlInformationSchema {
    const adapter: Adapter
    const schema: string
    /** The cache key of this source: `"host:schema"`. */
    const schemaSignature: string
    const driver: MysqlDriver51
    /** The class-wide cache (`$localCache` and `$fullyCachedSchemas`). */
    const cache: SharedCache

    ghost predicate Valid()
      reads cache
    {
      && driver.Valid() && driver.adapter == adapter && driver.schema == schema
      && schemaSignature == Signature(adapter.host, schema)
      && !IsBlank(schema)
      && cache.Valid()
    }

    constructor (adapter: Adapter, schema: string, cache: SharedCache)
      requires !IsBlank(schema) && cache.Valid()
      ensures Valid() && this.adapter == adapter && this.schema == schema && this.cache == cache
      ensures fresh(driver.stats) && driver.stats.saved == None
    {
      this.adapter := adapter;
      this.schema := schema;
      this.schemaSignature := Signature(adapter.host, schema);
      this.cache := cache;
      driver := new MysqlDriver51(adapter, schema);
    }

    /** The driver's answer for a table or the whole schema, as the cache sees it. */
    function DriverFetch(): Fetch {
      table => driver.SchemaConfigFor(table, IncludeOptions)
    }

    lemma DriverFetchValid()
      ensures ValidFetch(DriverFetch())
    {
      forall table: Option<string>
        ensures DriverFetch()(table).Success? ==> DriverFetch()(table).value.Valid()
      {
        var q := CatalogQueryFor(driver.adapter, driver.schema, table);
        ConfigWellFormed(QueryOutcome(ExecuteQueryMethod, driver.adapter.catalog(q)), IncludeOptions);
      }
    }

    /** `getTableConfig`: a cached table, or the driver's answer merged into the cache. */
    method GetTableConfig(table: string) returns (r: Result<TableGraph, Error>)
      requires Valid()
      modifies cache, driver.stats`saved, adapter`statsOnMetadata
      ensures Valid()
      ensures var s := TableConfig(old(cache.State()), schemaSignature, table, DriverFetch(), cache.merge);
        && r == s.result && cache.State() == s.cache
        && StatsTrack(s.queried, old(adapter.statsOnMetadata), old(driver.stats.saved), adapter.statsOnMetadata, driver.stats.saved)
    {
      DriverFetchValid();
      var key := schemaSignature;
      if key in cache.entries && table in cache.entries[key].entries {
        return Success(cache.entries[key].entries[table]);
      }
      var config := driver.GetSchemaConfig(Some(table), IncludeOptions);
      if config.Failure? {
        return Failure(config.error);
      }
      if table !in config.value.entries {
        return Failure(TableNotFound(table));
      }
      var cached := if key in cache.entries then cache.entries[key] else Empty();
      TableConfigEffect(cache.State(), key, table, DriverFetch(), cache.merge);
      cache.entries := cache.entries[key := MergeTables(cached, config.value, cache.merge)];
      r := Success(config.value.entries[table]);
    }

    /** `getSchemaConfig`: the cached schema once fully read, or the driver's answer stored whole. */
    method GetSchemaConfig() returns (r: Result<Tables, Error>)
      requires Valid()
      modifies cache, driver.stats`saved, adapter`statsOnMetadata
      ensures Valid()
      ensures var s := SchemaConfig(old(cache.State()), schemaSignature, DriverFetch());
        && r == s.result && cache.State() == s.cache
        && StatsTrack(s.queried, old(adapter.statsOnMetadata), old(driver.stats.saved), adapter.statsOnMetadata, driver.stats.saved)
    {
      DriverFetchValid();
      SchemaConfigEffect(cache.State(), schemaSignature, DriverFetch());
      var key := schemaSignature;
      if key in cache.fullyCached {
        return Success(cache.entries[key]);
      }
      var config := driver.GetSchemaConfig(None, IncludeOptions);
      if config.Failure? {
        return Failure(config.error);
      }
      if |config.value.keys| == 0 {
        return Failure(SchemaNotFound(key));
      }
      cache.entries := cache.entries[key := config.value];
      cache.fullyCached := cache.fullyCached + [key];
      r := Success(config.value);
    }

    /**
     * `loadCacheInformation`: checks the table argument, then loads the table, or without one
     * the schema unless it is fully read already. The guard tests the cache key.
     */
    method LoadCacheInformation(table: Option<string>) returns (r: Result<(), Error>)
      requires Valid()
      modifies cache, driver.stats`saved, adapter`statsOnMetadata
      ensures Valid()
      ensures var s := LoadCache(old(cache.State()), schemaSignature, schemaSignature, table, DriverFetch(), cache.merge);
        && r == s.result && cache.State() == s.cache
        && StatsTrack(s.queried, old(adapter.statsOnMetadata), old(driver.stats.saved), adapter.statsOnMetadata, driver.stats.saved)
    {
      if CheckTableArgument(ArgOf(table)).Fail? {
        return Failure(InvalidArgument);
      }
      if table.Some? {
        var config := GetTableConfig(table.value);
        r := if config.Success? then Success(()) else Failure(config.error);
      } else if schemaSignature !in cache.fullyCached {
        var config := GetSchemaConfig();
        r := if config.Success? then Success(()) else Failure(config.error);
      } else {
        r := Success(());
      }
    }

    /** Loads `table` and reads its entry from the cache: what every per-table getter starts with. */
    method LoadTable(table: string) returns (r: Result<TableGraph, Error>)
      requires Valid()
      modifies cache, driver.stats`saved, adapter`statsOnMetadata
      ensures Valid()
      ensures var s := ReadTable(old(cache.State()), schemaSignature, schemaSignature, table, DriverFetch(), cache.merge);
        && r == s.result && cache.State() == s.cache
        && StatsTrack(s.queried, old(adapter.statsOnMetadata), old(driver.stats.saved), adapter.statsOnMetadata, driver.stats.saved)
    {
      DriverFetchValid();
      LoadCacheEffect(cache.State(), schemaSignature, schemaSignature, Some(table), DriverFetch(), cache.merge);
      var loaded := LoadCacheInformation(Some(table));
      if loaded.Failure? {
        return Failure(loaded.error);
      }
      r := Success(cache.entries[schemaSignature].entries[table]);
    }

    /** Loads the schema and reads its entry from the cache: what the schema-wide getters start with. */
    method LoadSchema() returns (r: Result<Tables, Error>)
      requires Valid()
      modifies cache, driver.stats`saved, adapter`statsOnMetadata
      ensures Valid()
      ensures var s := ReadSchema(old(cache.State()), schemaSignature, schemaSignature, DriverFetch(), cache.merge);
        && r == s.result && cache.State() == s.cache
        && StatsTrack(s.queried, old(adapter.statsOnMetadata), old(driver.stats.saved), adapter.statsOnMetadata, driver.stats.saved)
    {
      DriverFetchValid();
      LoadCacheEffect(cache.State(), schemaSignature, schemaSignature, None, DriverFetch(), cache.merge);
      var loaded := LoadCacheInformation(None);
      if loaded.Failure? {
        return Failure(loaded.error);
      }
      r := Success(cache.entries[schemaSignature]);
    }

    /** `getPrimaryKeys`: the table's primary key columns; none is a `NoPrimaryKey` error. */
    method GetPrimaryKeys(table: string) returns (r: Result<seq<string>, Error>)
      requires Valid()
      modifies cache, driver.stats`saved, adapter`statsOnMetadata
      ensures Valid()
      ensures var s := ReadTable(old(cache.State()), schemaSignature, schemaSignature, table, DriverFetch(), cache.merge);
        && r == (if s.result.Success? then PrimaryKeysOf(table, s.result.value.primaryKeys) else Failure(s.result.error))
        && cache.State() == s.cache
        && StatsTrack(s.queried, old(adapter.statsOnMetadata), old(driver.stats.saved), adapter.statsOnMetadata, driver.stats.saved)
    {
      var entry := LoadTable(table);
      if entry.Failure? {
        return Failure(entry.error);
      }
      var pks := entry.value.primaryKeys;
      if |pks| == 0 {
        return Failure(NoPrimaryKey(table));
      }
      r := Success(pks);
    }

    /** `getPrimaryKey`: the single primary key column; none or several is an error. */
    method GetPrimaryKey(table: string) returns (r: Result<string, Error>)
      requires Valid()
      modifies cache, driver.stats`saved, adapter`statsOnMetadata
      ensures Valid()
      ensures var s := ReadTable(old(cache.State()), schemaSignature, schemaSignature, table, DriverFetch(), cache.merge);
        && r == (if s.result.Success? then PrimaryKeyOf(table, s.result.value.primaryKeys) else Failure(s.result.error))
        && cache.State() == s.cache
        && StatsTrack(s.queried, old(adapter.statsOnMetadata), old(driver.stats.saved), adapter.statsOnMetadata, driver.stats.saved)
    {
      var pks := GetPrimaryKeys(table);
      if pks.Failure? {
        return Failure(pks.error);
      }
      if |pks.value| > 1 {
        return Failure(MultiplePrimaryKey(table, Join(pks.value, ",")));
      }
      r := Success(pks.value[0]);
    }

    /**
     * `getUniqueKeys`: the table's unique keys, with the primary key under `PRIMARY` when asked
     * for and the table has one; a missing primary key is ignored.
     */
    method GetUniqueKeys(table: string, includePrimary: bool) returns (r: Result<OrderedMap<seq<string>>, Error>)
      requires Valid()
      modifies cache, driver.stats`saved, adapter`statsOnMetadata
      ensures Valid()
      ensures var s := ReadTable(old(cache.State()), schemaSignature, schemaSignature, table, DriverFetch(), cache.merge);
        && r == TableResult(s.result, (tg: TableGraph) => UniqueKeysOf(tg.uniqueKeys, tg.primaryKeys, includePrimary))
        && cache.State() == s.cache
        && StatsTrack(s.queried, old(adapter.statsOnMetadata), old(driver.stats.saved), adapter.statsOnMetadata, driver.stats.saved)
    {
      DriverFetchValid();
      ReadTableIsTableConfig(cache.State(), schemaSignature, schemaSignature, table, DriverFetch(), cache.merge);
      if ReadTable(cache.State(), schemaSignature, schemaSignature, table, DriverFetch(), cache.merge).result.Success? {
        ReadTableRepeat(cache.State(), schemaSignature, schemaSignature, schemaSignature, table, DriverFetch(), DriverFetch(), cache.merge);
      }
      var entry := LoadTable(table);
      if entry.Failure? {
        return Failure(entry.error);
      }
      var pks: seq<string> := [];
      if includePrimary {
        var found := GetPrimaryKeys(table);
        if found.Success? {
          pks := found.value;
        }
      }
      r := Success(UniqueKeysOf(entry.value.uniqueKeys, pks, includePrimary));
    }

    /** `getIndexesInformation`. */
    method GetIndexesInformation(table: string) returns (r: Result<seq<string>, Error>)
      requires Valid()
      modifies cache, driver.stats`saved, adapter`statsOnMetadata
      ensures Valid()
      ensures var s := ReadTable(old(cache.State()), schemaSignature, schemaSignature, table, DriverFetch(), cache.merge);
        && r == TableResult(s.result, (tg: TableGraph) => tg.indexes) && cache.State() == s.cache
        && StatsTrack(s.queried, old(adapter.statsOnMetadata), old(driver.stats.saved), adapter.statsOnMetadata, driver.stats.saved)
    {
      var entry := LoadTable(table);
      r := TableResult(entry, (tg: TableGraph) => tg.indexes);
    }

    /** `getColumnsInformation`. */
    method GetColumnsInformation(table: string) returns (r: Result<OrderedMap<ColumnInfo>, Error>)
      requires Valid()
      modifies cache, driver.stats`saved, adapter`statsOnMetadata
      ensures Valid()
      ensures var s := ReadTable(old(cache.State()), schemaSignature, schemaSignature, table, DriverFetch(), cache.merge);
        && r == TableResult(s.result, (tg: TableGraph) => tg.columns) && cache.State() == s.cache
        && StatsTrack(s.queried, old(adapter.statsOnMetadata), old(driver.stats.saved), adapter.statsOnMetadata, driver.stats.saved)
    {
      var entry := LoadTable(table);
      r := TableResult(entry, (tg: TableGraph) => tg.columns);
    }

    /** `getColumns`: the column names, in the order of the columns' records. */
    method GetColumns(table: string) returns (r: Result<seq<string>, Error>)
      requires Valid()
      modifies cache, driver.stats`saved, adapter`statsOnMetadata
      ensures Valid()
      ensures var s := ReadTable(old(cache.State()), schemaSignature, schemaSignature, table, DriverFetch(), cache.merge);
        && r == TableResult(s.result, (tg: TableGraph) => tg.columns.keys) && cache.State() == s.cache
        && StatsTrack(s.queried, old(adapter.statsOnMetadata), old(driver.stats.saved), adapter.statsOnMetadata, driver.stats.saved)
    {
      var columns := GetColumnsInformation(table);
      r := if columns.Success? then Success(columns.value.keys) else Failure(columns.error);
    }

    /** `getForeignKeys`. */
    method GetForeignKeys(table: string) returns (r: Result<OrderedMap<ForeignKey>, Error>)
      requires Valid()
      modifies cache, driver.stats`saved, adapter`statsOnMetadata
      ensures Valid()
      ensures var s := ReadTable(old(cache.State()), schemaSignature, schemaSignature, table, DriverFetch(), cache.merge);
        && r == TableResult(s.result, (tg: TableGraph) => tg.foreignKeys) && cache.State() == s.cache
        && StatsTrack(s.queried, old(adapter.statsOnMetadata), old(driver.stats.saved), adapter.statsOnMetadata, driver.stats.saved)
    {
      var entry := LoadTable(table);
      r := TableResult(entry, (tg: TableGraph) => tg.foreignKeys);
    }

    /** `getReferences`. */
    method GetReferences(table: string) returns (r: Result<OrderedMap<Reference>, Error>)
      requires Valid()
      modifies cache, driver.stats`saved, adapter`statsOnMetadata
      ensures Valid()
      ensures var s := ReadTable(old(cache.State()), schemaSignature, schemaSignature, table, DriverFetch(), cache.merge);
        && r == TableResult(s.result, (tg: TableGraph) => tg.references) && cache.State() == s.cache
        && StatsTrack(s.queried, old(adapter.statsOnMetadata), old(driver.stats.saved), adapter.statsOnMetadata, driver.stats.saved)
    {
      var entry := LoadTable(table);
      r := TableResult(entry, (tg: TableGraph) => tg.references);
    }

    /** `getTablesInformation`. */
    method GetTablesInformation() returns (r: Result<Tables, Error>)
      requires Valid()
      modifies cache, driver.stats`saved, adapter`statsOnMetadata
      ensures Valid()
      ensures var s := ReadSchema(old(cache.State()), schemaSignature, schemaSignature, DriverFetch(), cache.merge);
        && r == s.result && cache.State() == s.cache
        && StatsTrack(s.queried, old(adapter.statsOnMetadata), old(driver.stats.saved), adapter.statsOnMetadata, driver.stats.saved)
    {
      r := LoadSchema();
    }

    /** `getTableInformation`: one table of the schema; an unknown table is a missing index. */
    method GetTableInformation(table: string) returns (r: Result<TableGraph, Error>)
      requires Valid()
      modifies cache, driver.stats`saved, adapter`statsOnMetadata
      ensures Valid()
      ensures var s := ReadSchema(old(cache.State()), schemaSignature, schemaSignature, DriverFetch(), cache.merge);
        && r == (if s.result.Failure? then Failure(s.result.error)
                 else if table in s.result.value.entries then Success(s.result.value.entries[table])
                 else Failure(UndefinedIndex(table)))
        && cache.State() == s.cache
        && StatsTrack(s.queried, old(adapter.statsOnMetadata), old(driver.stats.saved), adapter.statsOnMetadata, driver.stats.saved)
    {
      var infos := LoadSchema();
      if infos.Failure? {
        return Failure(infos.error);
      }
      if table in infos.value.entries {
        r := Success(infos.value.entries[table]);
      } else {
        r := Failure(UndefinedIndex(table));
      }
    }

    /** `getTables`: the table names, in the order of the catalog rows. */
    method GetTables() returns (r: Result<seq<string>, Error>)
      requires Valid()
      modifies cache, driver.stats`saved, adapter`statsOnMetadata
      ensures Valid()
      ensures var s := ReadSchema(old(cache.State()), schemaSignature, schemaSignature, DriverFetch(), cache.merge);
        && r == SchemaResult(s.result, (ts: Tables) => ts.keys) && cache.State() == s.cache
        && StatsTrack(s.queried, old(adapter.statsOnMetadata), old(driver.stats.saved), adapter.statsOnMetadata, driver.stats.saved)
    {
      var infos := LoadSchema();
      r := SchemaResult(infos, (ts: Tables) => ts.keys);
    }

    /** `hasTable`: whether `table` is one of the schema's tables. */
    method HasTable(table: string) returns (r: Result<bool, Error>)
      requires Valid()
      modifies cache, driver.stats`saved, adapter`statsOnMetadata
      ensures Valid()
      ensures var s := ReadSchema(old(cache.State()), schemaSignature, schemaSignature, DriverFetch(), cache.merge);
        && r == SchemaResult(s.result, (ts: Tables) => table in ts.keys) && cache.State() == s.cache
        && StatsTrack(s.queried, old(adapter.statsOnMetadata), old(driver.stats.saved), adapter.statsOnMetadata, driver.stats.saved)
    {
      var tables := GetTables();
      r := if tables.Success? then Success(table in tables.value) else Failure(tables.error);
    }

    /** `validateTable`: the name must not be blank and the table must exist. */
    method ValidateTable(table: string) returns (r: Result<(), Error>)
      requires Valid()
      modifies cache, driver.stats`saved, adapter`statsOnMetadata
      ensures Valid()
      ensures IsBlank(table) ==> r == Failure(InvalidArgument) && unchanged(cache, driver.stats, adapter)
      ensures !IsBlank(table) ==>
        var s := ReadSchema(old(cache.State()), schemaSignature, schemaSignature, DriverFetch(), cache.merge);
        && r == (if s.result.Failure? then Failure(s.result.error)
                 else if table in s.result.value.keys then Success(()) else Failure(TableNotFound(table)))
        && cache.State() == s.cache
        && StatsTrack(s.queried, old(adapter.statsOnMetadata), old(driver.stats.saved), adapter.statsOnMetadata, driver.stats.saved)
    {
      if CheckTableArgument(StringArg(table)).Fail? {
        return Failure(InvalidArgument);
      }
      var has := HasTable(table);
      if has.Failure? {
        return Failure(has.error);
      }
      r := if has.value then Success(()) else Failure(TableNotFound(table));
    }

    /** `clearCacheInformation`, clearing the entry under this source's cache key. */
    method ClearCacheInformation()
      requires Valid()
      modifies cache
      ensures Valid()
      ensures cache.State() == ClearCache(old(cache.State()), schemaSignature)
      ensures schemaSignature !in cache.entries && schemaSignature !in cache.fullyCached
    {
      ClearCacheEffect(cache.State(), schemaSignature);
      var key := schemaSignature;
      if key in cache.entries {
        cache.entries := cache.entries - {key};
        cache.fullyCached := RemoveFirst(cache.fullyCached, key);
      }
    }
  }

  /**
   * On a table the driver read, `getPrimaryKey` succeeds exactly when the table's rows hold
   * one PRIMARY KEY row, and then returns that row's column; a column listed by two such
   * rows counts as two keys.
   */
  lemma PrimaryKeyOfFoldedTable(rows: seq<Row>, includeOptions: bool, t: string)
    requires t in Fold(rows, includeOptions).entries
    ensures var r := PrimaryKeyOf(t, Fold(rows, includeOptions).entries[t].primaryKeys);
      && (r.Success? <==> |PrimaryColumns(RowsOf(rows, t))| == 1)
      && (r.Success? ==> r.value == PrimaryColumns(RowsOf(rows, t))[0])
      && (|PrimaryColumns(RowsOf(rows, t))| == 0 ==> r == Failure(NoPrimaryKey(t)))
  {
    FoldPrimaryKeys(rows, includeOptions, t);
  }

  /**
   * `clearCacheInformation` as written clears the entry under the bare schema name, which is
   * never the source's cache key: the source's cached tables and its fully-read mark survive.
   */
  lemma ClearBySchemaNameKeepsEntry(c: CacheState, host: string, schema: string)
    requires Signature(host, schema) in c.entries
    ensures var c' := ClearCache(c, schema);
      && Signature(host, schema) in c'.entries
      && c'.entries[Signature(host, schema)] == c.entries[Signature(host, schema)]
      && (Signature(host, schema) in c'.fullyCached <==> Signature(host, schema) in c.fullyCached)
  {
    var key := Signature(host, schema);
    SignatureIsNotSchemaName(host, schema);
    if schema in c.entries {
      RemoveFirstKeeps(c.fullyCached, schema, key);
    }
  }

  /**
   * `loadCacheInformation` as written guards with the bare schema name against a list of
   * signatures. When the schema name happens to be another source's signature, as for the
   * schema `"h:s"` on host `"h"` next to the schema `"s"` on that host, `getTablesInformation`
   * skips the load and fails on the missing entry without querying.
   */
  lemma SchemaNameGuardSkipsLoad(fetch: Fetch, merge: Merge)
    ensures var key := Signature("h", "h:s");
      var c := CacheState(map[Signature("h", "s") := Empty()], [Signature("h", "s")]);
      && WellFormed(c)
      && ReadSchema(c, "h:s", key, fetch, merge) == Step(Failure(UndefinedIndex(key)), c, false)
  {
    var key := Signature("h", "h:s");
    var c := CacheState(map[Signature("h", "s") := Empty()], [Signature("h", "s")]);
    assert Signature("h", "s") == "h:s";
    assert key != "h:s" by { SignatureIsNotSchemaName("h", "h:s"); }
    ReadSchemaWithForeignGuard(c, "h:s", key, fetch, merge);
  }
}
