# soluble-schema: MySQL schema sources, modelled in Dafny

This project models the part of the soluble-schema PHP library that reads a MySQL schema:

- **The driver.** `MysqlDriver51` runs one wide `information_schema` query, with the server's
  `innodb_stats_on_metadata` setting switched off around it. It folds the flat catalog rows into
  a nested `tables` configuration: columns, primary, unique and foreign keys, and inbound
  references.
- **The two schema sources.** The newer `Source\MysqlInformationSchema` reads through the driver
  and caches under the signature `"host:schema"`. The older `Source\Mysql\MysqlInformationSchema`
  holds its own copy of the fold (`getObjectConfig`) and caches under the bare schema name.
  Both share their base classes' argument checks and getters.
- **The column model.** The `Type` registry of column categories and the typed column definitions
  built from it.

Layout, one module per file:

| file | module | what it holds |
|---|---|---|
| `wrappers.dfy` | `Wrappers` | `Option`, `Result`, `Outcome` |
| `errors.dfy` | `SchemaErrors` | the library's exceptions, as one datatype |
| `text.dfy` | `Text` | PHP string functions: `trim` blankness, ASCII case mapping, `preg_match` of a plain word, the quoted-literal scanner, `implode` |
| `ordered_map.dfy` | `OrderedMaps` | string-keyed PHP arrays that remember insertion order |
| `catalog.dfy` | `Catalog` | a catalog row and the configuration records built from it |
| `row_fold.dfy` | `RowFold` | the fold as pure functions, and what it produces for each table |
| `connection.dfy` | `Connection` | the adapter: host, current schema, quoting, the query's answer, the server setting |
| `stats_toggle.dfy` | `StatsToggle` | the `innodb_stats_on_metadata` toggle |
| `driver.dfy` | `MysqlDriver` | `MysqlDriver51`, with imperative loops proved against `RowFold` |
| `source_args.dfy` | `SourceArgs` | schema and table argument checks, default schema, signature, key getters |
| `schema_cache.dfy` | `SchemaCache` | the class-wide cache and what each cached operation returns and leaves behind |
| `schema_source.dfy` | `SchemaSource` | the newer source class |
| `legacy_source.dfy` | `LegacySource` | the older source class |
| `column_definition.dfy` | `ColumnDefinitions` | the column definition class and its variants |
| `column_type.dfy` | `ColumnType` | the `Type` registry |

The class methods change state the way the PHP objects do: the shared cache's fields, the
remembered statistics setting, the column's fields. Each method is proved against a pure
function of the old state: `TableConfig`, `SchemaConfig`, `LoadCache`, `ReadTable`,
`ReadSchema` and `ClearCache` for the sources, and `FoldRows` and `Fold` for the driver's loops.
The lemmas next to those functions state what the source promises.

## Model

| member | source | states |
|---|---|---|
| Text.ToLower | src/Soluble/Schema/Source/Mysql/MysqlDriver51.php:72 | `strtolower` keeps the length and maps each A-Z letter to lower case, nothing else |
| Text.ToUpper | src/Soluble/Schema/Source/Mysql/AbstractMysqlDriver.php:49 | `strtoupper` keeps the length and maps each a-z letter to upper case, nothing else |
| Text.Contains | src/Soluble/Schema/Source/Mysql/MysqlDriver51.php:87 | `preg_match('/unsigned/', …)` holds exactly when the word occurs at some position |
| Text.QuotedLiteralsSkipsPlainText | src/Soluble/Schema/Source/Mysql/MysqlDriver51.php:106 | text without quotes in front of the rest adds no literal to what the scanner finds |
| Text.QuotedLiteralsReadsOne | src/Soluble/Schema/Source/Mysql/MysqlDriver51.php:106 | a quoted non-empty value without quotes is read back whole, and scanning resumes after its closing quote |
| Text.QuotedLiteralsOfEnumBody | src/Soluble/Schema/Source/Mysql/MysqlDriver51.php:104-109 | the scanner reads a comma-separated list of quoted values back in order, exactly |
| Text.EnumValuesRoundTrip | src/Soluble/Schema/Source/Mysql/MysqlDriver51.php:101-109 | the `values` of a column typed `enum('a','b',…)` or `set(…)` are its listed values in declaration order, when each is non-empty and has no quote |
| OrderedMaps.OrderedMap.Put | src/Soluble/Schema/Source/Mysql/MysqlDriver51.php:126 | writing a key replaces its value in place or appends the key; the map stays duplicate-free |
| OrderedMaps.DedupMembers | src/Soluble/Schema/Source/Mysql/MysqlDriver51.php:45-67 | the first-appearance order of a list has the same elements and lists none twice |
| RowFold.ColumnFromRowDecisionTable | src/Soluble/Schema/Source/Mysql/MysqlDriver51.php:72-124 | the column record, entry by entry: lower-cased type, `primary` iff PRIMARY KEY row, `autoincrement` only then, the type-family fields chosen by the first matching list, `values` from the scanner, options and charset only when asked for |
| RowFold.ApplyRowsKeepsShape | src/Soluble/Schema/Source/Mysql/MysqlDriver51.php:126-171 | the rows of a table never change its name, options, references or indexes |
| RowFold.ApplyRowsPrimaryKeys | src/Soluble/Schema/Source/Mysql/MysqlDriver51.php:135-137 | `primary_keys` is the column of every PRIMARY KEY row in row order, repeats kept |
| RowFold.ApplyRowsColumns | src/Soluble/Schema/Source/Mysql/MysqlDriver51.php:68-126 | `columns` lists each column once in order of first appearance, with the record of its last row |
| RowFold.ApplyRowsUniqueKeys | src/Soluble/Schema/Source/Mysql/MysqlDriver51.php:138-143 | `unique_keys` holds one entry per constraint named by a UNIQUE row, listing that constraint's columns in row order |
| RowFold.ApplyRowsForeignKeys | src/Soluble/Schema/Source/Mysql/MysqlDriver51.php:144-156 | `foreign_keys` holds one entry per column with a FOREIGN KEY row, built from the last such row |
| RowFold.FoldRowsTableOrder | src/Soluble/Schema/Source/Mysql/MysqlDriver51.php:45-67 | after the row loop the tables are those of the rows, in order of first appearance, each once |
| RowFold.FoldRowsPerTable | src/Soluble/Schema/Source/Mysql/MysqlDriver51.php:45-172 | after the row loop a table has an entry iff it has rows, and the entry is the fold of its own rows only |
| RowFold.FoldRowsQueue | src/Soluble/Schema/Source/Mysql/MysqlDriver51.php:157-169 | the references queued for a table are exactly those its inbound FOREIGN KEY rows produce |
| RowFold.AttachReferencesEffect | src/Soluble/Schema/Source/Mysql/MysqlDriver51.php:174-179 | the second pass keeps the tables and their order, and gives a queued table its queue; queues for tables without rows are dropped |
| RowFold.FoldCharacterisation | src/Soluble/Schema/Source/Mysql/MysqlDriver51.php:37-185 | the result lists the tables of the rows in first-appearance order; each entry is the fold of that table's rows plus the references pointing at it |
| RowFold.FoldEntry | src/Soluble/Schema/Source/Mysql/MysqlDriver51.php:45-179 | one table's entry: the fold of its rows with its inbound references |
| RowFold.FoldTableShape | src/Soluble/Schema/Source/Mysql/MysqlDriver51.php:47-67 | each table carries its own name, options exactly when asked for, and no indexes |
| RowFold.FoldPrimaryKeys | src/Soluble/Schema/Source/Mysql/MysqlDriver51.php:136 | a table's `primary_keys` are the columns of its PRIMARY KEY rows, in order |
| RowFold.FoldColumns | src/Soluble/Schema/Source/Mysql/MysqlDriver51.php:72-126 | a table's columns are its rows' columns in first-appearance order, each with its last row's record |
| RowFold.FoldUniqueKeys | src/Soluble/Schema/Source/Mysql/MysqlDriver51.php:138-143 | a table's unique keys: its UNIQUE constraints, each with its columns in row order |
| RowFold.FoldForeignKeys | src/Soluble/Schema/Source/Mysql/MysqlDriver51.php:144-156 | a table's foreign keys: per column, the record of its last FOREIGN KEY row |
| RowFold.FoldReferences | src/Soluble/Schema/Source/Mysql/MysqlDriver51.php:157-179 | a table's inbound references are exactly the `"table:refcol->col"` keys of the FOREIGN KEY rows pointing at it, each holding the reference of the last such row with that key |
| RowFold.ReferencesToComplete | src/Soluble/Schema/Source/Mysql/MysqlDriver51.php:159-169 | a key is queued for a table iff some FOREIGN KEY row pointing at that table has that key, and it holds the last such row's reference |
| RowFold.ReferencesToSources | src/Soluble/Schema/Source/Mysql/MysqlDriver51.php:159-169 | every queued reference comes from some FOREIGN KEY row that points at the queue's table |
| StatsToggle.StatsRestored | src/Soluble/Schema/Source/Mysql/AbstractMysqlDriver.php:41-72 | a readable setting other than `OFF` is back, upper-cased, after the query; on a toggle that never switched it off, any other setting is untouched; on one that did, an `OFF` or unreadable setting is replaced by the remembered one |
| StatsToggle.StaleSettingWrittenBack | src/Soluble/Schema/Source/Mysql/AbstractMysqlDriver.php:65-72 | the remembered setting is never cleared: every later query that finds `OFF` or cannot read the setting keeps the remembered value and writes it back over what the server held |
| StatsToggle.InnoDbStatsToggle.Disable | src/Soluble/Schema/Source/Mysql/AbstractMysqlDriver.php:41-60 | a setting other than `OFF` is remembered upper-cased and switched off; `OFF` or a failed read changes nothing |
| StatsToggle.InnoDbStatsToggle.Restore | src/Soluble/Schema/Source/Mysql/AbstractMysqlDriver.php:65-72 | the remembered setting, if any, is written back |
| StatsToggle.InnoDbStatsToggle.RunWithStatsOff | src/Soluble/Schema/Source/Mysql/MysqlDriver51.php:281-294 | the query's rows, or an `ErrorException` naming the method; the setting is restored on both paths |
| MysqlDriver.UpdateTableEntry | src/Soluble/Schema/Source/Mysql/MysqlDriver51.php:68-156 | the in-place update of a table entry by one row is the row step `ApplyRow` |
| MysqlDriver.QueueRowReference | src/Soluble/Schema/Source/Mysql/MysqlDriver51.php:157-169 | the queue update by one row is `QueueReference` |
| MysqlDriver.FoldCatalogRow | src/Soluble/Schema/Source/Mysql/MysqlDriver51.php:46-171 | one pass of the row loop is the fold step `FoldRow` |
| MysqlDriver.FoldCatalogRows | src/Soluble/Schema/Source/Mysql/MysqlDriver51.php:45-172 | the row loop computes `FoldRows` of all the rows |
| MysqlDriver.AttachQueuedReferences | src/Soluble/Schema/Source/Mysql/MysqlDriver51.php:174-179 | the second loop computes `AttachReferences` over the queue's tables |
| MysqlDriver.CatalogQueryFor | src/Soluble/Schema/Source/Mysql/MysqlDriver51.php:194-270 | the query names the quoted schema, and a table filter exactly when a table is given, holding that table quoted |
| MysqlDriver.ConfigOf | src/Soluble/Schema/Source/Mysql/MysqlDriver51.php:37-185 | a failed query is passed on unchanged; a successful one is folded |
| MysqlDriver.ConfigWellFormed | src/Soluble/Schema/Source/Mysql/MysqlDriver51.php:37-185 | every configuration the driver returns lists each table once, and only tables it holds |
| MysqlDriver.FoldOutcome | src/Soluble/Schema/Source/Mysql/MysqlDriver51.php:39-185 | the two loops together compute `ConfigOf` of the query outcome |
| MysqlDriver.MysqlDriver51.constructor | src/Soluble/Schema/Source/Mysql/AbstractMysqlDriver.php:32-36 | the driver holds the adapter and schema, and a toggle that has remembered nothing |
| MysqlDriver.MysqlDriver51.ExecuteQuery | src/Soluble/Schema/Source/Mysql/MysqlDriver51.php:281-294 | the query's outcome for the schema and table, with the setting switched off and restored once |
| MysqlDriver.MysqlDriver51.GetSchemaConfig | src/Soluble/Schema/Source/Mysql/MysqlDriver51.php:37-185 | the result is `ConfigOf` of the query, which the `RowFold` lemmas characterise; one toggled query |
| SourceArgs.ValidateSchema | src/Soluble/Schema/Source/AbstractSchemaSource.php:119-126 | passes iff the schema is a string that is not blank; otherwise `InvalidArgument` |
| SourceArgs.CheckTableArgument | src/Soluble/Schema/Source/AbstractSchemaSource.php:150-157 | passes iff the table is null or a string that is not blank; otherwise `InvalidArgument` |
| SourceArgs.ResolveSchemaSound | src/Soluble/Schema/Source/AbstractSchemaSource.php:38-50 | a resolved schema is never blank, is the given name when one is given, and exists iff the given or current name is usable; no current schema is `InvalidUsage` |
| SourceArgs.Signature | src/Soluble/Schema/Source/AbstractSchemaSource.php:162-167 | the signature is `host`, a colon and the schema |
| SourceArgs.SignatureInjective | src/Soluble/Schema/Source/AbstractSchemaSource.php:162-167 | on one host, different schemas have different signatures |
| SourceArgs.SignatureSeparatesHosts | src/Soluble/Schema/Source/AbstractSchemaSource.php:162-167 | one schema name on different hosts has different signatures |
| SourceArgs.SignatureIsNotSchemaName | src/Soluble/Schema/Source/AbstractSchemaSource.php:162-167 | a signature never equals the bare schema name |
| SourceArgs.PrimaryKeysOf | src/Soluble/Schema/Source/MysqlInformationSchema.php:120-129 | the primary key columns when there are any; otherwise `NoPrimaryKey` |
| SourceArgs.PrimaryKeyOf | src/Soluble/Schema/Source/MysqlInformationSchema.php:106-115 | succeeds iff there is exactly one primary key column, and returns it; none is `NoPrimaryKey`, several is `MultiplePrimaryKey` with the comma-joined list |
| SourceArgs.UniqueKeysOf | src/Soluble/Schema/Source/MysqlInformationSchema.php:75-91 | the unique keys unchanged, except that `PRIMARY` holds the primary key when it was asked for and is non-empty |
| SchemaCache.MergeTablesEffect | src/Soluble/Schema/Source/MysqlInformationSchema.php:201-206 | merging keeps every cached table, adds the fetched new ones and combines tables present in both |
| SchemaCache.RemoveFirstEffect | src/Soluble/Schema/Source/MysqlInformationSchema.php:276-278 | removing a key from the fully-read list drops exactly that key and keeps the list duplicate-free |
| SchemaCache.TableConfigEffect | src/Soluble/Schema/Source/MysqlInformationSchema.php:182-209 | a cached table is served without a query; otherwise one query, whose failure is passed on and whose answer without the table is `TableNotFound`, both changing nothing; on success every fetched table is merged into the key's entry (new ones added as fetched, cached ones combined by the merge, others kept, nothing else cached) and no other key changes |
| SchemaCache.TableConfigRepeat | src/Soluble/Schema/Source/MysqlInformationSchema.php:188-193 | after a success, the same call returns the same table without a query |
| SchemaCache.SchemaConfigEffect | src/Soluble/Schema/Source/MysqlInformationSchema.php:221-241 | queries iff the key is not fully read; a failed query is passed on and an empty answer is `SchemaNotFound`, both changing nothing; a queried success is the whole answer, stored and marked fully read |
| SchemaCache.SchemaConfigRepeat | src/Soluble/Schema/Source/MysqlInformationSchema.php:226-229 | after a success, the same call returns the same configuration without a query |
| SchemaCache.LoadCacheEffect | src/Soluble/Schema/Source/MysqlInformationSchema.php:249-264 | after a successful load the table, or without one the schema, is in the cache when the guard tests the cache key |
| SchemaCache.ClearCacheEffect | src/Soluble/Schema/Source/MysqlInformationSchema.php:271-280 | clearing a key removes its entry and its fully-read mark and touches no other key |
| SchemaCache.ReadTableIsTableConfig | src/Soluble/Schema/Source/MysqlInformationSchema.php:249-264 | a per-table getter returns what `getTableConfig` returns: a blank name is refused with no query, and the entry read after the load is always there |
| SchemaCache.ReadTableRepeat | src/Soluble/Schema/Source/MysqlInformationSchema.php:75-91 | after one per-table getter succeeds, the next one reads the same entry without a query, as `getUniqueKeys` relies on |
| SchemaCache.ReadSchemaIsSchemaConfig | src/Soluble/Schema/Source/MysqlInformationSchema.php:249-264 | when the guard tests the cache key or is not listed, `getTablesInformation` returns what `getSchemaConfig` returns |
| SchemaCache.ReadSchemaWithForeignGuard | src/Soluble/Schema/Source/MysqlInformationSchema.php:254 | a guard naming another fully-read key skips the load, so a missing entry fails without a query |
| SchemaSource.Open | src/Soluble/Schema/Source/MysqlInformationSchema.php:56-70 | a source exists iff the schema resolves; it is valid, keyed by `host:schema`, over a fresh driver |
| SchemaSource.MysqlInformationSchema.constructor | src/Soluble/Schema/Source/AbstractSchemaSource.php:38-50 | the source holds the adapter, the schema and its signature, and a new driver on the same adapter and schema |
| SchemaSource.MysqlInformationSchema.GetTableConfig | src/Soluble/Schema/Source/MysqlInformationSchema.php:182-209 | result and new cache are `TableConfig` under the signature; the setting is toggled exactly when it queries |
| SchemaSource.MysqlInformationSchema.GetSchemaConfig | src/Soluble/Schema/Source/MysqlInformationSchema.php:221-241 | result and new cache are `SchemaConfig` under the signature; toggled exactly when it queries |
| SchemaSource.MysqlInformationSchema.LoadCacheInformation | src/Soluble/Schema/Source/MysqlInformationSchema.php:249-264 | result and new cache are `LoadCache`, with the guard on the signature (see Findings) |
| SchemaSource.MysqlInformationSchema.GetPrimaryKeys | src/Soluble/Schema/Source/MysqlInformationSchema.php:120-129 | `PrimaryKeysOf` of the loaded table, or the load's error |
| SchemaSource.MysqlInformationSchema.GetPrimaryKey | src/Soluble/Schema/Source/MysqlInformationSchema.php:106-115 | `PrimaryKeyOf` of the loaded table, or the load's error |
| SchemaSource.MysqlInformationSchema.GetUniqueKeys | src/Soluble/Schema/Source/MysqlInformationSchema.php:75-91 | `UniqueKeysOf` of the loaded table; the second read of the primary keys adds no query |
| SchemaSource.MysqlInformationSchema.GetIndexesInformation | src/Soluble/Schema/Source/MysqlInformationSchema.php:96-101 | the loaded table's `indexes`, or the load's error |
| SchemaSource.MysqlInformationSchema.GetColumnsInformation | src/Soluble/Schema/Source/MysqlInformationSchema.php:134-139 | the loaded table's `columns`, or the load's error |
| SchemaSource.MysqlInformationSchema.GetColumns | src/Soluble/Schema/Source/AbstractSchemaSource.php:55-58 | the loaded table's column names in order |
| SchemaSource.MysqlInformationSchema.GetForeignKeys | src/Soluble/Schema/Source/MysqlInformationSchema.php:144-149 | the loaded table's `foreign_keys`, or the load's error |
| SchemaSource.MysqlInformationSchema.GetReferences | src/Soluble/Schema/Source/MysqlInformationSchema.php:154-159 | the loaded table's `references`, or the load's error |
| SchemaSource.MysqlInformationSchema.GetTablesInformation | src/Soluble/Schema/Source/MysqlInformationSchema.php:164-169 | result and new cache are `ReadSchema` under the signature |
| SchemaSource.MysqlInformationSchema.GetTableInformation | src/Soluble/Schema/Source/AbstractSchemaSource.php:63-68 | the table's entry in the schema; an unknown table is an undefined index |
| SchemaSource.MysqlInformationSchema.GetTables | src/Soluble/Schema/Source/AbstractSchemaSource.php:73-76 | the schema's table names in catalog order |
| SchemaSource.MysqlInformationSchema.HasTable | src/Soluble/Schema/Source/AbstractSchemaSource.php:81-86 | whether the table is among the schema's tables |
| SchemaSource.MysqlInformationSchema.ValidateTable | src/Soluble/Schema/Source/AbstractSchemaSource.php:100-108 | a blank name is `InvalidArgument` with nothing touched; otherwise passes iff the table exists, else `TableNotFound` |
| SchemaSource.MysqlInformationSchema.ClearCacheInformation | src/Soluble/Schema/Source/MysqlInformationSchema.php:271-280 | the cache becomes `ClearCache` of the signature: the entry and its mark are gone (corrected key, see Findings) |
| SchemaSource.PrimaryKeyOfFoldedTable | src/Soluble/Schema/Source/MysqlInformationSchema.php:106-129 | on a table the driver read, `getPrimaryKey` succeeds iff the table has exactly one PRIMARY KEY row, and returns its column |
| SchemaSource.ClearBySchemaNameKeepsEntry | src/Soluble/Schema/Source/MysqlInformationSchema.php:273 | clearing under the bare schema name, as written, leaves the source's signature entry and its mark as they were |
| SchemaSource.SchemaNameGuardSkipsLoad | src/Soluble/Schema/Source/MysqlInformationSchema.php:251-254 | with the guard on the schema name, as written, a schema named `h:s` on host `h` next to schema `s` fails without a query |
| LegacySource.Open | src/Soluble/Schema/Source/Mysql/MysqlInformationSchema.php:65-83 | a source exists iff the schema resolves; it is valid and has a toggle that has remembered nothing |
| LegacySource.MysqlInformationSchema.constructor | src/Soluble/Schema/Source/AbstractSource.php:223-228 | the source holds the adapter and the schema, and a new toggle on the same adapter |
| LegacySource.MysqlInformationSchema.GetObjectConfig | src/Soluble/Schema/Source/Mysql/MysqlInformationSchema.php:260-496 | the same fold as the driver, over the same query, with the setting toggled once and errors naming `getObjectConfig` |
| LegacySource.MysqlInformationSchema.GetTableConfig | src/Soluble/Schema/Source/Mysql/MysqlInformationSchema.php:191-218 | result and new cache are `TableConfig` under the schema name |
| LegacySource.MysqlInformationSchema.GetSchemaConfig | src/Soluble/Schema/Source/Mysql/MysqlInformationSchema.php:230-249 | result and new cache are `SchemaConfig` under the schema name |
| LegacySource.MysqlInformationSchema.LoadCacheInformation | src/Soluble/Schema/Source/Mysql/MysqlInformationSchema.php:546-561 | result and new cache are `LoadCache`, the guard and the key both being the schema name |
| LegacySource.MysqlInformationSchema.GetPrimaryKeys | src/Soluble/Schema/Source/Mysql/MysqlInformationSchema.php:133-141 | `PrimaryKeysOf` of the loaded table, or the load's error |
| LegacySource.MysqlInformationSchema.GetPrimaryKey | src/Soluble/Schema/Source/Mysql/MysqlInformationSchema.php:119-127 | `PrimaryKeyOf` of the loaded table, or the load's error |
| LegacySource.MysqlInformationSchema.GetUniqueKeys | src/Soluble/Schema/Source/Mysql/MysqlInformationSchema.php:89-104 | `UniqueKeysOf` of the loaded table |
| LegacySource.MysqlInformationSchema.GetIndexesInformation | src/Soluble/Schema/Source/Mysql/MysqlInformationSchema.php:110-114 | the loaded table's `indexes` |
| LegacySource.MysqlInformationSchema.GetColumnsInformation | src/Soluble/Schema/Source/Mysql/MysqlInformationSchema.php:147-151 | the loaded table's `columns` |
| LegacySource.MysqlInformationSchema.GetColumns | src/Soluble/Schema/Source/AbstractSource.php:126-129 | the loaded table's column names in order |
| LegacySource.MysqlInformationSchema.GetForeignKeys | src/Soluble/Schema/Source/Mysql/MysqlInformationSchema.php:157-161 | the loaded table's `foreign_keys` |
| LegacySource.MysqlInformationSchema.GetReferences | src/Soluble/Schema/Source/Mysql/MysqlInformationSchema.php:166-170 | the loaded table's `references` |
| LegacySource.MysqlInformationSchema.GetTablesInformation | src/Soluble/Schema/Source/Mysql/MysqlInformationSchema.php:175-179 | result and new cache are `ReadSchema` under the schema name |
| LegacySource.MysqlInformationSchema.GetTableInformation | src/Soluble/Schema/Source/AbstractSource.php:142-146 | the table's entry in the schema; an unknown table is an undefined index |
| LegacySource.MysqlInformationSchema.GetTables | src/Soluble/Schema/Source/AbstractSource.php:157-160 | the schema's table names in catalog order |
| LegacySource.MysqlInformationSchema.HasTable | src/Soluble/Schema/Source/AbstractSource.php:173-177 | whether the table is among the schema's tables |
| LegacySource.MysqlInformationSchema.ClearCacheInformation | src/Soluble/Schema/Source/Mysql/MysqlInformationSchema.php:568-577 | the cache becomes `ClearCache` of the schema name, its own key |
| ColumnDefinitions.UnsignedRoundTrip | src/Soluble/Schema/Column/Definition/BooleanColumn.php:9-32 | setting `unsigned` reads back as set and keeps the kind and other fields, except on a boolean column, which stays not unsigned |
| ColumnDefinitions.BlankToNull | src/Soluble/Schema/Column/Definition/AbstractColumnDefinition.php:138-145 | a blank name becomes null, and any other is kept |
| ColumnDefinitions.ColumnDefinition.constructor | src/Soluble/Schema/Column/Definition/AbstractColumnDefinition.php:93-98 | name as given, table and schema blank-to-null, every other field unset; computed iff no table |
| ColumnDefinitions.ColumnDefinition.SetName | src/Soluble/Schema/Column/Definition/AbstractColumnDefinition.php:106-110 | sets the name and returns the column itself |
| ColumnDefinitions.ColumnDefinition.SetTableName | src/Soluble/Schema/Column/Definition/AbstractColumnDefinition.php:138-145 | a blank table becomes null, and the column is then computed |
| ColumnDefinitions.ColumnDefinition.SetSchemaName | src/Soluble/Schema/Column/Definition/AbstractColumnDefinition.php:153-160 | a blank schema becomes null |
| ColumnDefinitions.ColumnDefinition.SetOrdinalPosition | src/Soluble/Schema/Column/Definition/AbstractColumnDefinition.php:184-188 | sets that one field and returns the column |
| ColumnDefinitions.ColumnDefinition.SetColumnDefault | src/Soluble/Schema/Column/Definition/AbstractColumnDefinition.php:202-206 | sets that one field and returns the column |
| ColumnDefinitions.ColumnDefinition.SetIsNullable | src/Soluble/Schema/Column/Definition/AbstractColumnDefinition.php:213-217 | sets that one field and returns the column |
| ColumnDefinitions.ColumnDefinition.SetIsPrimary | src/Soluble/Schema/Column/Definition/AbstractColumnDefinition.php:232-236 | sets that one field and returns the column |
| ColumnDefinitions.ColumnDefinition.SetDataType | src/Soluble/Schema/Column/Definition/AbstractColumnDefinition.php:258-262 | sets that one field and returns the column |
| ColumnDefinitions.ColumnDefinition.SetNativeDataType | src/Soluble/Schema/Column/Definition/AbstractColumnDefinition.php:279-283 | sets that one field and returns the column |
| ColumnDefinitions.ColumnDefinition.SetAlias | src/Soluble/Schema/Column/Definition/AbstractColumnDefinition.php:291-295 | sets that one field and returns the column |
| ColumnDefinitions.ColumnDefinition.SetTableAlias | src/Soluble/Schema/Column/Definition/AbstractColumnDefinition.php:310-317 | a blank alias becomes null |
| ColumnDefinitions.ColumnDefinition.SetCatalog | src/Soluble/Schema/Column/Definition/AbstractColumnDefinition.php:333-337 | sets that one field and returns the column |
| ColumnDefinitions.ColumnDefinition.SetIsGroup | src/Soluble/Schema/Column/Definition/AbstractColumnDefinition.php:353-357 | sets that one field and returns the column |
| ColumnDefinitions.ColumnDefinition.SetNumericUnsigned | src/Soluble/Schema/Column/Definition/IntegerColumn.php:30-34 | integer and decimal columns take the flag; a boolean column ignores it and stays not unsigned |
| ColumnDefinitions.ColumnDefinition.SetIsAutoIncrement | src/Soluble/Schema/Column/Definition/IntegerColumn.php:50-54 | sets the flag and keeps `unsigned` |
| ColumnDefinitions.ColumnDefinition.SetNumericPrecision | src/Soluble/Schema/Column/Definition/DecimalColumn.php:73-77 | sets precision, keeps scale and `unsigned` |
| ColumnDefinitions.ColumnDefinition.SetNumericScale | src/Soluble/Schema/Column/Definition/DecimalColumn.php:98-102 | sets scale, keeps precision and `unsigned` |
| ColumnDefinitions.ColumnDefinition.SetCharacterMaximumLength | src/Soluble/Schema/Column/Definition/StringColumn.php:26-30 | sets the maximum length |
| ColumnDefinitions.ColumnDefinition.SetCharacterOctetLength | src/Soluble/Schema/Column/Definition/BlobColumn.php:24-28 | sets the octet length |
| ColumnType.SupportedTypes | src/Soluble/Schema/Column/Type.php:64-67 | eleven categories, none listed twice, exactly the registry's keys |
| ColumnType.VariantFor | src/Soluble/Schema/Column/Type.php:49-57 | succeeds iff the category is supported; otherwise `UnsupportedDatatype` naming it |
| ColumnType.CreateColumnDefinition | src/Soluble/Schema/Column/Type.php:49-57 | a new column of the registered class, named and placed, or `UnsupportedDatatype` |
| ColumnType.RegistryEntries | src/Soluble/Schema/Column/Type.php:23-36 | each registered category and the class it builds, with that class's fields unset |
| ColumnType.VariantForInjective | src/Soluble/Schema/Column/Type.php:23-36 | different categories build different classes |
| ColumnType.VariantCapabilities | src/Soluble/Schema/Column/Type.php:23-36 | integer, decimal and boolean columns are numeric only, string columns text only, blob columns none of these, date columns date and datetime columns datetime, and new columns start with their own fields unset |
| ColumnType.CatalogNamesInRegistry | src/Soluble/Schema/Column/Type.php:8-18 | of the catalog type names the fold recognises, only `decimal`, `float`, `date`, `time`, `datetime` and `blob` are registry categories |

## Left out

- The SQL text of the catalog query (MysqlDriver51.php:194-270) is not modelled. The query is identified by the quoted schema and table filter, and its answer is a parameter of the adapter (`Adapter.catalog`). The server, PDO/mysqli and the adapter factory are left out.
- The `set global` statement in the toggle cannot fail in the model, and a failed `show global variables` is a `None` reading. That is the only failure path the source catches.
- `useLocalCaching` is always on and `include_options` is always true (`IncludeOptions`), as the sources default them. The uncached paths are not modelled.
- `array_merge_recursive` of a table already cached under a key is an opaque `Merge` function. The model says which tables it combines, not what the combination holds.
- PHP's numeric-string behaviour is not modelled: `is_numeric` on catalog values (each is an `Option<int>`), the renumbering of numeric string keys by PHP arrays, and the loose comparisons of `in_array` and `==` (all are exact string equality).
- The `count($matches) > 0` test around the enum scanner is always true in PHP, so it is not modelled; the empty-literal case `''` is skipped, as the regex does.
- Key order inside one column record and `toArray` conversions are not modelled. Records are datatypes with named fields.
- `getRelations` (abstract in AbstractSource.php:100) has no body in either source and is not modelled.
- `validateTable` is commented out in AbstractSource.php:179-197, so the legacy source has none.
- Metadata.php, the connection adapters and the test factories are not part of this model.
- The column classes `DateColumn`, `DatetimeColumn`, `TimeColumn`, `FloatColumn`, `BitColumn` and `GeometryColumn` are not part of this model. They are modelled as variants without fields. `DateColumn` is taken to implement `DateColumnInterface` and `DatetimeColumn` `DatetimeColumnInterface`, as their names and the `date`/`datetime` entries of the type map suggest. The other four are given no capability.
- ColumnType.VariantCapabilities: states capabilities only for the classes whose declarations are in the sources (integer, decimal, string, blob, boolean) and for the date/datetime assumption above; it promises nothing about whether `TimeColumn`, `FloatColumn`, `BitColumn` or `GeometryColumn` are numeric or text, because their interfaces are unknown here.
- The getters of the column definition (`getName`, `isPrimary`, …) are the class's fields themselves, and `getNumericUnsigned`/`isNumericUnsigned` are `NumericUnsigned`. The fluent `return $this` is an out-parameter equal to `this`.
- The variant-specific setters require a column of their class, where PHP would fail to find the method. That failure is not modelled.
- Table and schema arguments of the source methods are strings, or `Option<string>` where null is allowed. A non-string argument (`OtherArg`) is modelled only for the schema passed to the constructor.
- SchemaSource.MysqlInformationSchema.GetUniqueKeys: any `getPrimaryKeys` failure is ignored, not only `NoPrimaryKeyException`. After the table has loaded, `NoPrimaryKey` is the only failure possible, so the two agree.
- Exception messages are not modelled beyond the table or key they name, and the `ErrorException` raised by the query, which names its method.

## Findings

| source | as written | input that shows it | evidently intended | confidence | as-written member | corrected member |
|---|---|---|---|---|---|---|
| src/Soluble/Schema/Source/MysqlInformationSchema.php:271-280 | `clearCacheInformation` clears the entry under `$this->schema`, but this source caches under `$this->schemaSignature` (`"host:schema"`) | any source after a successful read: the entry under `host:schema` and its fully-read mark survive the clear | clear the entry and the mark under the signature | high (not executed) | SchemaSource.ClearBySchemaNameKeepsEntry | SchemaSource.MysqlInformationSchema.ClearCacheInformation |
| src/Soluble/Schema/Source/MysqlInformationSchema.php:249-264 | `loadCacheInformation` tests `$this->schema` against `$fullyCachedSchemas`, which holds signatures | host `h`, a fully read schema `s` (signature `h:s`), then a source for the schema named `h:s`: `getTablesInformation` skips the load and reads a missing entry, with no query | test the signature, as `getSchemaConfig` does | low (not executed) | SchemaSource.SchemaNameGuardSkipsLoad | SchemaSource.MysqlInformationSchema.LoadCacheInformation |

For ordinary schema names the guard in the second row never matches a signature. The load then always goes through `getSchemaConfig`, whose own test uses the signature. So the two versions differ only in the case shown (`SchemaCache.ReadSchemaIsSchemaConfig`).
