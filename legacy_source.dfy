/**
 * The older MySQL schema source, which reads the catalog itself instead of through a driver.
 * It keeps its own class-wide cache keyed by the bare schema name, so sources on different
 * servers with equally named schemas share entries; otherwise it reads like the newer source.
 */
module LegacySource {
  import opened Wrappers
  import opened Text
  import opened OrderedMaps
  import opened Catalog
  import opened SchemaErrors
  import opened Connection
  import opened StatsToggle
  import opened MysqlDriver
  import opened SourceArgs
  import opened SchemaCache

  const ObjectConfigMethod := "Soluble\\Schema\\Source\\Mysql\\MysqlInformationSchema::getObjectConfig"

  /** Extended information (comments, collations, engines) is always read. */
  const IncludeOptions := true

  /** `new MysqlInformationSchema($connection, $schema)`: the schema given, or else the connection's current one. */
  method Open(adapter: Adapter, schema: Arg, cache: SharedCache) returns (r: Result<MysqlInformationSchema, Error>)
    requires cache.Valid()
    ensures var resolved := ResolveSchema(schema, adapter.currentSchema);
      && (r.Success? <==> resolved.Success?)
      && (r.Failure? ==> r.error == resolved.error)
      && (r.Success? ==> && r.value.Valid() && r.value.adapter == adapter && r.value.cache == cache
                         && r.value.schema == resolved.value
                         && fresh(r.value.stats) && r.value.stats.saved == None)
  {
    var resolved := ResolveSchema(schema, adapter.currentSchema);
    if resolved.Failure? {
      return Failure(resolved.error);
    }
    ResolveSchemaSound(schema, adapter.currentSchema);
    var source := new MysqlInformationSchema(adapter, resolved.value, cache);
    r := Success(source);
  }

  class MysqlInformationSchema {
    const adapter: Adapter
    /** The schema name, which is also this source's cache key. */
    const schema: string
    /** The `innodb_stats_on_metadata` toggle and its remembered value. */
    const stats: InnoDbStatsToggle
    /** The class-wide cache (`$localCache` and `$fullyCachedSchemas`). */
    const cache: SharedCache

    ghost predicate Valid()
      reads cache
    {
      && stats.adapter == adapter
      && !IsBlank(schema)
      && cache.Valid()
    }

    constructor (adapter: Adapter, schema: string, cache: SharedCache)
      requires !IsBlank(schema) && cache.Valid()
      ensures Valid() && this.adapter == adapter && this.schema == schema && this.cache == cache
      ensures fresh(stats) && stats.saved == None
    {
      this.adapter := adapter;
      this.schema := schema;
      this.cache := cache;
      stats := new InnoDbStatsToggle(adapter);
    }

    /** What `getObjectConfig(table)` returns: the same query and fold as the driver's. */
    function ObjectConfigFor(table: Option<string>): Result<Tables, Error> {
      ConfigOf(QueryOutcome(ObjectConfigMethod, adapter.catalog(CatalogQueryFor(adapter, schema, table))), IncludeOptions)
    }

    /** `getObjectConfig`: the catalog query, with the statistics switched off around it, folded. */
    method GetObjectConfig(table: Option<string>) returns (r: Result<Tables, Error>)
      requires Valid()
      modifies stats`saved, adapter`statsOnMetadata
      ensures r == ObjectConfigFor(table)
      ensures StatsTrack(true, old(adapter.statsOnMetadata), old(stats.saved), adapter.statsOnMetadata, stats.saved)
    {
      var query := CatalogQueryFor(adapter, schema, table);
      var results := stats.RunWithStatsOff(query, ObjectConfigMethod);
      r := FoldOutcome(results, IncludeOptions);
    }

    /** `getObjectConfig`'s answer for a table or the whole schema, as the cache sees it. */
    function ObjectFetch(): Fetch {
      table => ObjectConfigFor(table)
    }

    lemma ObjectFetchValid()
      ensures ValidFetch(ObjectFetch())
    {
      forall table: Option<string>
        ensures ObjectFetch()(table).Success? ==> ObjectFetch()(table).value.Valid()
      {
        var q := CatalogQueryFor(adapter, schema, table);
        ConfigWellFormed(QueryOutcome(ObjectConfigMethod, adapter.catalog(q)), IncludeOptions);
      }
    }

    /** `getTableConfig`: a cached table, or `getObjectConfig`'s answer merged into the cache. */
    method GetTableConfig(table: string) returns (r: Result<TableGraph, Error>)
      requires Valid()
      modifies cache, stats`saved, adapter`statsOnMetadata
      ensures Valid()
      ensures var s := TableConfig(old(cache.State()), schema, table, ObjectFetch(), cache.merge);
        && r == s.result && cache.State() == s.cache
        && StatsTrack(s.queried, old(adapter.statsOnMetadata), old(stats.saved), adapter.statsOnMetadata, stats.saved)
    {
      ObjectFetchValid();
      var key := schema;
      if key in cache.entries && table in cache.entries[key].entries {
        return Success(cache.entries[key].entries[table]);
      }
      var config := GetObjectConfig(Some(table));
      if config.Failure? {
        return Failure(config.error);
      }
      if table !in config.value.entries {
        return Failure(TableNotFound(table));
      }
      var cached := if key in cache.entries then cache.entries[key] else Empty();
      TableConfigEffect(cache.State(), key, table, ObjectFetch(), cache.merge);
      cache.entries := cache.entries[key := MergeTables(cached, config.value, cache.merge)];
      r := Success(config.value.entries[table]);
    }

    /** `getSchemaConfig`: the cached schema once fully read, or `getObjectConfig`'s answer stored whole. */
    method GetSchemaConfig() returns (r: Result<Tables, Error>)
      requires Valid()
      modifies cache, stats`saved, adapter`statsOnMetadata
      ensures Valid()
      ensures var s := SchemaConfig(old(cache.State()), schema, ObjectFetch());
        && r == s.result && cache.State() == s.cache
        && StatsTrack(s.queried, old(adapter.statsOnMetadata), old(stats.saved), adapter.statsOnMetadata, stats.saved)
    {
      ObjectFetchValid();
      SchemaConfigEffect(cache.State(), schema, ObjectFetch());
      var key := schema;
      if key in cache.fullyCached {
        return Success(cache.entries[key]);
      }
      var config := GetObjectConfig(None);
      if config.Failure? {
        return Failure(config.error);
      }
      if |config.value.keys| == 0 {
        return Failure(SchemaNotFound(key));
      }
      cache.entries := cache.entries[key := config.value];
      cache.fullyCached := cache.fullyCached + [key];
      r := Success(config.value);
    }

    /**
     * `loadCacheInformation`: checks the table argument, then loads the table, or without one
     * the schema unless it is fully read already.
     */
    method LoadCacheInformation(table: Option<string>) returns (r: Result<(), Error>)
      requires Valid()
      modifies cache, stats`saved, adapter`statsOnMetadata
      ensures Valid()
      ensures var s := LoadCache(old(cache.State()), schema, schema, table, ObjectFetch(), cache.merge);
        && r == s.result && cache.State() == s.cache
        && StatsTrack(s.queried, old(adapter.statsOnMetadata), old(stats.saved), adapter.statsOnMetadata, stats.saved)
    {
      if CheckTableArgument(ArgOf(table)).Fail? {
        return Failure(InvalidArgument);
      }
      if table.Some? {
        var config := GetTableConfig(table.value);
        r := if config.Success? then Success(()) else Failure(config.error);
      } else if schema !in cache.fullyCached {
        var config := GetSchemaConfig();
        r := if config.Success? then Success(()) else Failure(config.error);
      } else {
        r := Success(());
      }
    }

    /** Loads `table` and reads its entry from the cache: what every per-table getter starts with. */
    method LoadTable(table: string) returns (r: Result<TableGraph, Error>)
      requires Valid()
      modifies cache, stats`saved, adapter`statsOnMetadata
      ensures Valid()
      ensures var s := ReadTable(old(cache.State()), schema, schema, table, ObjectFetch(), cache.merge);
        && r == s.result && cache.State() == s.cache
        && StatsTrack(s.queried, old(adapter.statsOnMetadata), old(stats.saved), adapter.statsOnMetadata, stats.saved)
    {
      ObjectFetchValid();
      LoadCacheEffect(cache.State(), schema, schema, Some(table), ObjectFetch(), cache.merge);
      var loaded := LoadCacheInformation(Some(table));
      if loaded.Failure? {
        return Failure(loaded.error);
      }
      r := Success(cache.entries[schema].entries[table]);
    }

    /** Loads the schema and reads its entry from the cache: what the schema-wide getters start with. */
    method LoadSchema() returns (r: Result<Tables, Error>)
      requires Valid()
      modifies cache, stats`saved, adapter`statsOnMetadata
      ensures Valid()
      ensures var s := ReadSchema(old(cache.State()), schema, schema, ObjectFetch(), cache.merge);
        && r == s.result && cache.State() == s.cache
        && StatsTrack(s.queried, old(adapter.statsOnMetadata), old(stats.saved), adapter.statsOnMetadata, stats.saved)
    {
      ObjectFetchValid();
      LoadCacheEffect(cache.State(), schema, schema, None, ObjectFetch(), cache.merge);
      var loaded := LoadCacheInformation(None);
      if loaded.Failure? {
        return Failure(loaded.error);
      }
      r := Success(cache.entries[schema]);
    }

    /** `getPrimaryKeys`: the table's primary key columns; none is a `NoPrimaryKey` error. */
    method GetPrimaryKeys(table: string) returns (r: Result<seq<string>, Error>)
      requires Valid()
      modifies cache, stats`saved, adapter`statsOnMetadata
      ensures Valid()
      ensures var s := ReadTable(old(cache.State()), schema, schema, table, ObjectFetch(), cache.merge);
        && r == (if s.result.Success? then PrimaryKeysOf(table, s.result.value.primaryKeys) else Failure(s.result.error))
        && cache.State() == s.cache
        && StatsTrack(s.queried, old(adapter.statsOnMetadata), old(stats.saved), adapter.statsOnMetadata, stats.saved)
    {
      var entry := LoadTable(table);
      if entry.Failure? {
        return Failure(entry.error);
      }
      var pks := entry.value.primaryKeys;
      if |pks| == 0 {
        return Failure(NoPrimaryKey(table));
      }
      r := Success(pks);
    }

    /** `getPrimaryKey`: the single primary key column; none or several is an error. */
    method GetPrimaryKey(table: string) returns (r: Result<string, Error>)
      requires Valid()
      modifies cache, stats`saved, adapter`statsOnMetadata
      ensures Valid()
      ensures var s := ReadTable(old(cache.State()), schema, schema, table, ObjectFetch(), cache.merge);
        && r == (if s.result.Success? then PrimaryKeyOf(table, s.result.value.primaryKeys) else Failure(s.result.error))
        && cache.State() == s.cache
        && StatsTrack(s.queried, old(adapter.statsOnMetadata), old(stats.saved), adapter.statsOnMetadata, stats.saved)
    {
      var pks := GetPrimaryKeys(table);
      if pks.Failure? {
        return Failure(pks.error);
      }
      if |pks.value| > 1 {
        return Failure(MultiplePrimaryKey(table, Join(pks.value, ",")));
      }
      r := Success(pks.value[0]);
    }

    /**
     * `getUniqueKeys`: the table's unique keys, with the primary key under `PRIMARY` when asked
     * for and the table has one; a missing primary key is ignored.
     */
    method GetUniqueKeys(table: string, includePrimary: bool) returns (r: Result<OrderedMap<seq<string>>, Error>)
      requires Valid()
      modifies cache, stats`saved, adapter`statsOnMetadata
      ensures Valid()
      ensures var s := ReadTable(old(cache.State()), schema, schema, table, ObjectFetch(), cache.merge);
        && r == TableResult(s.result, (tg: TableGraph) => UniqueKeysOf(tg.uniqueKeys, tg.primaryKeys, includePrimary))
        && cache.State() == s.cache
        && StatsTrack(s.queried, old(adapter.statsOnMetadata), old(stats.saved), adapter.statsOnMetadata, stats.saved)
    {
      ObjectFetchValid();
      ReadTableIsTableConfig(cache.State(), schema, schema, table, ObjectFetch(), cache.merge);
      if ReadTable(cache.State(), schema, schema, table, ObjectFetch(), cache.merge).result.Success? {
        ReadTableRepeat(cache.State(), schema, schema, schema, table, ObjectFetch(), ObjectFetch(), cache.merge);
      }
      var entry := LoadTable(table);
      if entry.Failure? {
        return Failure(entry.error);
      }
      var pks: seq<string> := [];
      if includePrimary {
        var found := GetPrimaryKeys(table);
        if found.Success? {
          pks := found.value;
        }
      }
      r := Success(UniqueKeysOf(entry.value.uniqueKeys, pks, includePrimary));
    }

    /** `getIndexesInformation`. */
    method GetIndexesInformation(table: string) returns (r: Result<seq<string>, Error>)
      requires Valid()
      modifies cache, stats`saved, adapter`statsOnMetadata
      ensures Valid()
      ensures var s := ReadTable(old(cache.State()), schema, schema, table, ObjectFetch(), cache.merge);
        && r == TableResult(s.result, (tg: TableGraph) => tg.indexes) && cache.State() == s.cache
        && StatsTrack(s.queried, old(adapter.statsOnMetadata), old(stats.saved), adapter.statsOnMetadata, stats.saved)
    {
      var entry := LoadTable(table);
      r := TableResult(entry, (tg: TableGraph) => tg.indexes);
    }

    /** `getColumnsInformation`. */
    method GetColumnsInformation(table: string) returns (r: Result<OrderedMap<ColumnInfo>, Error>)
      requires Valid()
      modifies cache, stats`saved, adapter`statsOnMetadata
      ensures Valid()
      ensures var s := ReadTable(old(cache.State()), schema, schema, table, ObjectFetch(), cache.merge);
        && r == TableResult(s.result, (tg: TableGraph) => tg.columns) && cache.State() == s.cache
        && StatsTrack(s.queried, old(adapter.statsOnMetadata), old(stats.saved), adapter.statsOnMetadata, stats.saved)
    {
      var entry := LoadTable(table);
      r := TableResult(entry, (tg: TableGraph) => tg.columns);
    }

    /** `getColumns`: the column names, in the order of the columns' records. */
    method GetColumns(table: string) returns (r: Result<seq<string>, Error>)
      requires Valid()
      modifies cache, stats`saved, adapter`statsOnMetadata
      ensures Valid()
      ensures var s := ReadTable(old(cache.State()), schema, schema, table, ObjectFetch(), cache.merge);
        && r == TableResult(s.result, (tg: TableGraph) => tg.columns.keys) && cache.State() == s.cache
        && StatsTrack(s.queried, old(adapter.statsOnMetadata), old(stats.saved), adapter.statsOnMetadata, stats.saved)
    {
      var columns := GetColumnsInformation(table);
      r := if columns.Success? then Success(columns.value.keys) else Failure(columns.error);
    }

    /** `getForeignKeys`. */
    method GetForeignKeys(table: string) returns (r: Result<OrderedMap<ForeignKey>, Error>)
      requires Valid()
      modifies cache, stats`saved, adapter`statsOnMetadata
      ensures Valid()
      ensures var s := ReadTable(old(cache.State()), schema, schema, table, ObjectFetch(), cache.merge);
        && r == TableResult(s.result, (tg: TableGraph) => tg.foreignKeys) && cache.State() == s.cache
        && StatsTrack(s.queried, old(adapter.statsOnMetadata), old(stats.saved), adapter.statsOnMetadata, stats.saved)
    {
      var entry := LoadTable(table);
      r := TableResult(entry, (tg: TableGraph) => tg.foreignKeys);
    }

    /** `getReferences`. */
    method GetReferences(table: string) returns (r: Result<OrderedMap<Reference>, Error>)
      requires Valid()
      modifies cache, stats`saved, adapter`statsOnMetadata
      ensures Valid()
      ensures var s := ReadTable(old(cache.State()), schema, schema, table, ObjectFetch(), cache.merge);
        && r == TableResult(s.result, (tg: TableGraph) => tg.references) && cache.State() == s.cache
        && StatsTrack(s.queried, old(adapter.statsOnMetadata), old(stats.saved), adapter.statsOnMetadata, stats.saved)
    {
      var entry := LoadTable(table);
      r := TableResult(entry, (tg: TableGraph) => tg.references);
    }

    /** `getTablesInformation`. */
    method GetTablesInformation() returns (r: Result<Tables, Error>)
      requires Valid()
      modifies cache, stats`saved, adapter`statsOnMetadata
      ensures Valid()
      ensures var s := ReadSchema(old(cache.State()), schema, schema, ObjectFetch(), cache.merge);
        && r == s.result && cache.State() == s.cache
        && StatsTrack(s.queried, old(adapter.statsOnMetadata), old(stats.saved), adapter.statsOnMetadata, stats.saved)
    {
      r := LoadSchema();
    }

    /** `getTableInformation`: one table of the schema; an unknown table is a missing index. */
    method GetTableInformation(table: string) returns (r: Result<TableGraph, Error>)
      requires Valid()
      modifies cache, stats`saved, adapter`statsOnMetadata
      ensures Valid()
      ensures var s := ReadSchema(old(cache.State()), schema, schema, ObjectFetch(), cache.merge);
        && r == (if s.result.Failure? then Failure(s.result.error)
                 else if table in s.result.value.entries then Success(s.result.value.entries[table])
                 else Failure(UndefinedIndex(table)))
        && cache.State() == s.cache
        && StatsTrack(s.queried, old(adapter.statsOnMetadata), old(stats.saved), adapter.statsOnMetadata, stats.saved)
    {
      var infos := LoadSchema();
      if infos.Failure? {
        return Failure(infos.error);
      }
      if table in infos.value.entries {
        r := Success(infos.value.entries[table]);
      } else {
        r := Failure(UndefinedIndex(table));
      }
    }

    /** `getTables`: the table names, in the order of the catalog rows. */
    method GetTables() returns (r: Result<seq<string>, Error>)
      requires Valid()
      modifies cache, stats`saved, adapter`statsOnMetadata
      ensures Valid()
      ensures var s := ReadSchema(old(cache.State()), schema, schema, ObjectFetch(), cache.merge);
        && r == SchemaResult(s.result, (ts: Tables) => ts.keys) && cache.State() == s.cache
        && StatsTrack(s.queried, old(adapter.statsOnMetadata), old(stats.saved), adapter.statsOnMetadata, stats.saved)
    {
      var infos := LoadSchema();
      r := SchemaResult(infos, (ts: Tables) => ts.keys);
    }

    /** `hasTable`: whether `table` is one of the schema's tables. */
    method HasTable(table: string) returns (r: Result<bool, Error>)
      requires Valid()
      modifies cache, stats`saved, adapter`statsOnMetadata
      ensures Valid()
      ensures var s := ReadSchema(old(cache.State()), schema, schema, ObjectFetch(), cache.merge);
        && r == SchemaResult(s.result, (ts: Tables) => table in ts.keys) && cache.State() == s.cache
        && StatsTrack(s.queried, old(adapter.statsOnMetadata), old(stats.saved), adapter.statsOnMetadata, stats.saved)
    {
      var tables := GetTables();
      r := if tables.Success? then Success(table in tables.value) else Failure(tables.error);
    }

    /** `clearCacheInformation`: the schema's entry and its fully-read mark are dropped. */
    method ClearCacheInformation()
      requires Valid()
      modifies cache
      ensures Valid()
      ensures cache.State() == ClearCache(old(cache.State()), schema)
      ensures schema !in cache.entries && schema !in cache.fullyCached
    {
      ClearCacheEffect(cache.State(), schema);
      var key := schema;
      if key in cache.entries {
        cache.entries := cache.entries - {key};
        cache.fullyCached := RemoveFirst(cache.fullyCached, key);
      }
    }
  }
}
