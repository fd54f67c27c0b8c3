/**
 * The class-wide cache both schema sources keep: per cache key, the `tables` configuration
 * read so far, plus the list of keys whose whole schema has been read. The functions here
 * say what one cached operation returns and leaves behind; both sources' methods are proved
 * against them, the new source with the signature as key, the legacy one with the schema name.
 */
module SchemaCache {
  import opened Wrappers
  import opened OrderedMaps
  import opened Catalog
  import opened SchemaErrors
  import opened Text
  import opened SourceArgs

  datatype CacheState = CacheState(entries: map<string, Tables>, fullyCached: seq<string>)

  /** Every fully cached key is listed once and has an entry, and every entry is a well-formed map. */
  ghost predicate WellFormed(c: CacheState) {
    && NoDuplicates(c.fullyCached)
    && (forall k :: k in c.fullyCached ==> k in c.entries)
    && (forall k :: k in c.entries ==> c.entries[k].Valid())
  }

  /** `isset($localCache[key]['tables'][table])`. */
  predicate Cached(c: CacheState, key: string, table: string) {
    key in c.entries && table in c.entries[key].entries
  }

  /** How `array_merge_recursive` combines two entries for the same table. */
  type Merge = (TableGraph, TableGraph) -> TableGraph
  /** The driver's answer for one table (`Some`) or the whole schema (`None`). */
  type Fetch = Option<string> -> Result<Tables, Error>

  /** The driver only answers with well-formed maps. */
  ghost predicate ValidFetch(fetch: Fetch) {
    forall table :: fetch(table).Success? ==> fetch(table).value.Valid()
  }

  /**
   * `array_merge_recursive` on the `tables` level: a table not cached yet is added at the
   * end, one cached already is combined with the fetched one by `merge`.
   */
  function MergeTables(cached: Tables, fetched: Tables, merge: Merge): Tables {
    MergeKeys(cached, fetched, Dedup(fetched.keys), merge)
  }

  function MergeKeys(cached: Tables, fetched: Tables, keys: seq<string>, merge: Merge): Tables
    decreases |keys|
  {
    if keys == [] then cached
    else
      var acc := MergeKeys(cached, fetched, keys[..|keys| - 1], merge);
      var k := keys[|keys| - 1];
      if k !in fetched.entries then acc
      else if k in acc.entries then acc.Put(k, merge(acc.entries[k], fetched.entries[k]))
      else acc.Put(k, fetched.entries[k])
  }

  /** The entries of a merge: cached tables stay, fetched ones are added or combined. */
  lemma {:induction false} MergeKeysEffect(cached: Tables, fetched: Tables, keys: seq<string>, merge: Merge)
    requires NoDuplicates(keys)
    ensures var m := MergeKeys(cached, fetched, keys, merge);
      && (forall k :: k in m.entries <==> k in cached.entries || (k in keys && k in fetched.entries))
      && (forall k :: k in m.entries && k !in cached.entries ==> m.entries[k] == fetched.entries[k])
      && (forall k :: k in cached.entries && k !in keys ==> m.entries[k] == cached.entries[k])
      && (forall k :: k in cached.entries && k in keys && k in fetched.entries ==>
            m.entries[k] == merge(cached.entries[k], fetched.entries[k]))
      && (cached.Valid() ==> m.Valid())
    decreases |keys|
  {
    if keys != [] {
      var p := keys[..|keys| - 1];
      assert forall i, j :: 0 <= i < j < |p| ==> p[i] == keys[i] && p[j] == keys[j];
      MergeKeysEffect(cached, fetched, p, merge);
      assert keys == p + [keys[|keys| - 1]];
      assert keys[|keys| - 1] !in p;
    }
  }

  lemma MergeTablesEffect(cached: Tables, fetched: Tables, merge: Merge)
    requires fetched.Valid()
    ensures var m := MergeTables(cached, fetched, merge);
      && (forall k :: k in m.entries <==> k in cached.entries || k in fetched.entries)
      && (forall k :: k in m.entries && k !in cached.entries ==> m.entries[k] == fetched.entries[k])
      && (forall k :: k in cached.entries && k !in fetched.entries ==> m.entries[k] == cached.entries[k])
      && (forall k :: k in cached.entries && k in fetched.entries ==>
            m.entries[k] == merge(cached.entries[k], fetched.entries[k]))
      && (cached.Valid() ==> m.Valid())
  {
    DedupMembers(fetched.keys);
    MergeKeysEffect(cached, fetched, Dedup(fetched.keys), merge);
  }

  /** The result of one cached operation: what it returns, the cache it leaves, whether it queried. */
  datatype Step<T> = Step(result: Result<T, Error>, cache: CacheState, queried: bool)

  function Forget<T>(s: Step<T>): Step<()> {
    Step(if s.result.Success? then Success(()) else Failure(s.result.error), s.cache, s.queried)
  }

  /** `getTableConfig(table)`: from the cache if present, else fetched, checked and merged in. */
  function TableConfig(c: CacheState, key: string, table: string, fetch: Fetch, merge: Merge): Step<TableGraph> {
    if Cached(c, key, table) then Step(Success(c.entries[key].entries[table]), c, false)
    else
      match fetch(Some(table))
      case Failure(e) => Step(Failure(e), c, true)
      case Success(config) =>
        if table !in config.entries then Step(Failure(TableNotFound(table)), c, true)
        else
          var cached := if key in c.entries then c.entries[key] else Empty();
          Step(Success(config.entries[table]), c.(entries := c.entries[key := MergeTables(cached, config, merge)]), true)
  }

  /** `getSchemaConfig()`: from the cache once fully read, else fetched, checked and stored whole. */
  function SchemaConfig(c: CacheState, key: string, fetch: Fetch): Step<Tables> {
    if key in c.fullyCached then
      Step(if key in c.entries then Success(c.entries[key]) else Failure(UndefinedIndex(key)), c, false)
    else
      match fetch(None)
      case Failure(e) => Step(Failure(e), c, true)
      case Success(config) =>
        if |config.keys| == 0 then Step(Failure(SchemaNotFound(key)), c, true)
        else Step(Success(config), CacheState(c.entries[key := config], c.fullyCached + [key]), true)
  }

  /**
   * `loadCacheInformation(table)`: checks the argument, then reads the table (or, without
   * one, the schema) unless `marker` is listed as fully cached; a table is read in any case.
   */
  function LoadCache(c: CacheState, marker: string, key: string, table: Option<string>, fetch: Fetch, merge: Merge)
    : Step<()>
  {
    if CheckTableArgument(ArgOf(table)).Fail? then Step(Failure(InvalidArgument), c, false)
    else if table.Some? then Forget(TableConfig(c, key, table.value, fetch, merge))
    else if marker !in c.fullyCached then Forget(SchemaConfig(c, key, fetch))
    else Step(Success(()), c, false)
  }

  /** `array_search` and `unset`: the first occurrence of `x` is dropped. */
  function RemoveFirst(s: seq<string>, x: string): seq<string>
    decreases |s|
  {
    if s == [] then [] else if s[0] == x then s[1..] else [s[0]] + RemoveFirst(s[1..], x)
  }

  /** `clearCacheInformation` for the cache key `name`: only an existing entry is cleared. */
  function ClearCache(c: CacheState, name: string): CacheState {
    if name in c.entries then CacheState(c.entries - {name}, RemoveFirst(c.fullyCached, name)) else c
  }

  /** Removing `x` keeps every other element. */
  lemma {:induction false} RemoveFirstKeeps(s: seq<string>, x: string, y: string)
    requires y != x
    ensures y in RemoveFirst(s, x) <==> y in s
    decreases |s|
  {
    if s != [] && s[0] != x {
      RemoveFirstKeeps(s[1..], x, y);
      assert s == [s[0]] + s[1..];
    }
  }

  lemma {:induction false} RemoveFirstEffect(s: seq<string>, x: string)
    requires NoDuplicates(s)
    ensures NoDuplicates(RemoveFirst(s, x))
    ensures forall y :: y in RemoveFirst(s, x) <==> y in s && y != x
    decreases |s|
  {
    if s != [] {
      assert forall i, j :: 0 <= i < j < |s[1..]| ==> s[1..][i] == s[i + 1] && s[1..][j] == s[j + 1];
      RemoveFirstEffect(s[1..], x);
      assert forall y :: y in s <==> y == s[0] || y in s[1..];
      if s[0] != x {
        var r := RemoveFirst(s[1..], x);
        assert s[0] !in s[1..];
        assert forall i :: 0 < i < |[s[0]] + r| ==> ([s[0]] + r)[i] == r[i - 1];
      }
    }
  }

  // ---------------------------------------------------------------------------------------
  // What the operations promise.

  /**
   * `getTableConfig` serves a cached table without querying; otherwise it queries. A failed
   * query is passed on and a table missing from the answer is `TableNotFound`; both leave
   * the cache as it was. On success every fetched table is merged into `key`'s entry: new
   * tables are added as fetched, tables cached already are combined by `merge`, other cached
   * tables stay, nothing else is cached, and no other key changes.
   */
  lemma TableConfigEffect(c: CacheState, key: string, table: string, fetch: Fetch, merge: Merge)
    requires WellFormed(c) && ValidFetch(fetch)
    ensures var s := TableConfig(c, key, table, fetch, merge);
      && WellFormed(s.cache)
      && (s.queried <==> !Cached(c, key, table))
      && (Cached(c, key, table) ==> s.cache == c && s.result == Success(c.entries[key].entries[table]))
      && (s.result.Success? ==> Cached(s.cache, key, table) && s.cache.entries[key].entries[table] == s.result.value)
      && (s.result.Failure? ==> s.cache == c)
      && s.cache.fullyCached == c.fullyCached
      && (forall k :: k != key ==> (k in s.cache.entries <==> k in c.entries))
      && (forall k :: k != key && k in c.entries ==> s.cache.entries[k] == c.entries[k])
      && (s.queried && fetch(Some(table)).Failure? ==> s.result == Failure(fetch(Some(table)).error))
      && (s.queried && fetch(Some(table)).Success? ==>
            s.result == if table in fetch(Some(table)).value.entries
                        then Success(fetch(Some(table)).value.entries[table])
                        else Failure(TableNotFound(table)))
      && (s.queried && s.result.Success? ==>
            var fetched := fetch(Some(table)).value;
            && (forall u :: Cached(s.cache, key, u) <==> u in fetched.entries || Cached(c, key, u))
            && (forall u :: u in fetched.entries && !Cached(c, key, u) ==>
                  s.cache.entries[key].entries[u] == fetched.entries[u])
            && (forall u :: u in fetched.entries && Cached(c, key, u) ==>
                  s.cache.entries[key].entries[u] == merge(c.entries[key].entries[u], fetched.entries[u]))
            && (forall u :: Cached(c, key, u) && u !in fetched.entries ==>
                  s.cache.entries[key].entries[u] == c.entries[key].entries[u]))
  {
    if !Cached(c, key, table) && fetch(Some(table)).Success? && table in fetch(Some(table)).value.entries {
      var config := fetch(Some(table)).value;
      var cached := if key in c.entries then c.entries[key] else Empty();
      MergeTablesEffect(cached, config, merge);
    }
  }

  /** Once `getTableConfig` has succeeded, asking again returns the same table without a query. */
  lemma TableConfigRepeat(c: CacheState, key: string, table: string, fetch: Fetch, fetch': Fetch, merge: Merge)
    requires WellFormed(c) && ValidFetch(fetch)
    requires TableConfig(c, key, table, fetch, merge).result.Success?
    ensures var s := TableConfig(c, key, table, fetch, merge);
      TableConfig(s.cache, key, table, fetch', merge) == Step(s.result, s.cache, false)
  {
    TableConfigEffect(c, key, table, fetch, merge);
  }

  /**
   * `getSchemaConfig` queries exactly when `key` is not fully cached yet. A failed query is
   * passed on and an empty answer is `SchemaNotFound`; both leave the cache as it was. On a
   * successful query the whole configuration is stored and `key` is listed once.
   */
  lemma SchemaConfigEffect(c: CacheState, key: string, fetch: Fetch)
    requires WellFormed(c) && ValidFetch(fetch)
    ensures var s := SchemaConfig(c, key, fetch);
      && WellFormed(s.cache)
      && (s.queried <==> key !in c.fullyCached)
      && (!s.queried ==> s.cache == c && s.result == Success(c.entries[key]))
      && (s.result.Success? ==> key in s.cache.fullyCached && s.cache.entries[key] == s.result.value)
      && (s.result.Success? ==> |s.result.value.keys| > 0 || !s.queried)
      && (s.result.Failure? ==> s.cache == c)
      && (forall k :: k != key ==> (k in s.cache.entries <==> k in c.entries))
      && (forall k :: k != key && k in c.entries ==> s.cache.entries[k] == c.entries[k])
      && (s.queried && fetch(None).Failure? ==> s.result == Failure(fetch(None).error))
      && (s.queried && fetch(None).Success? ==>
            s.result == if |fetch(None).value.keys| == 0 then Failure(SchemaNotFound(key)) else Success(fetch(None).value))
  {
    var s := SchemaConfig(c, key, fetch);
    if s.queried && s.result.Success? {
      assert s.cache.fullyCached == c.fullyCached + [key];
      assert forall i :: 0 <= i < |c.fullyCached| ==> s.cache.fullyCached[i] == c.fullyCached[i];
    }
  }

  /** Once `getSchemaConfig` has succeeded, asking again returns the same configuration without a query. */
  lemma SchemaConfigRepeat(c: CacheState, key: string, fetch: Fetch, fetch': Fetch)
    requires WellFormed(c) && ValidFetch(fetch)
    requires SchemaConfig(c, key, fetch).result.Success?
    ensures var s := SchemaConfig(c, key, fetch);
      SchemaConfig(s.cache, key, fetch') == Step(s.result, s.cache, false)
  {
    SchemaConfigEffect(c, key, fetch);
  }

  /**
   * After a successful `loadCacheInformation`, the table asked for (or, without one, the
   * whole schema) is in the cache, provided the marker tested is the cache key itself or is
   * not listed.
   */
  lemma LoadCacheEffect(c: CacheState, marker: string, key: string, table: Option<string>, fetch: Fetch, merge: Merge)
    requires WellFormed(c) && ValidFetch(fetch)
    ensures var s := LoadCache(c, marker, key, table, fetch, merge);
      && WellFormed(s.cache)
      && (s.result.Failure? ==> s.cache == c)
      && (s.result.Success? && table.Some? ==> Cached(s.cache, key, table.value))
      && (s.result.Success? && table.None? && (marker == key || marker !in c.fullyCached) ==> key in s.cache.entries)
  {
    if table.Some? {
      TableConfigEffect(c, key, table.value, fetch, merge);
    } else {
      SchemaConfigEffect(c, key, fetch);
    }
  }

  /** Clearing `name` removes its entry and its fully-cached mark and touches nothing else. */
  lemma ClearCacheEffect(c: CacheState, name: string)
    requires WellFormed(c)
    ensures var c' := ClearCache(c, name);
      && WellFormed(c')
      && name !in c'.entries && name !in c'.fullyCached
      && (forall k :: k != name ==> (k in c'.entries <==> k in c.entries))
      && (forall k :: k != name && k in c.entries ==> c'.entries[k] == c.entries[k])
      && (forall k :: k != name ==> (k in c'.fullyCached <==> k in c.fullyCached))
  {
    if name in c.entries {
      RemoveFirstEffect(c.fullyCached, name);
    }
  }

  /**
   * What a per-table getter sees: `loadCacheInformation(table)` with the guard `marker`, then
   * the table's entry under `key` read from the cache.
   */
  function ReadTable(c: CacheState, marker: string, key: string, table: string, fetch: Fetch, merge: Merge)
    : Step<TableGraph>
  {
    var s := LoadCache(c, marker, key, Some(table), fetch, merge);
    var r := if s.result.Failure? then Failure(s.result.error)
             else if Cached(s.cache, key, table) then Success(s.cache.entries[key].entries[table])
             else Failure(UndefinedIndex(table));
    Step(r, s.cache, s.queried)
  }

  /** What `getTablesInformation` sees: `loadCacheInformation(null)`, then the entry under `key`. */
  function ReadSchema(c: CacheState, marker: string, key: string, fetch: Fetch, merge: Merge): Step<Tables> {
    var s := LoadCache(c, marker, key, None, fetch, merge);
    var r := if s.result.Failure? then Failure(s.result.error)
             else if key in s.cache.entries then Success(s.cache.entries[key])
             else Failure(UndefinedIndex(key));
    Step(r, s.cache, s.queried)
  }

  /** The result of reading a table entry, projected by a getter. */
  function TableResult<T>(r: Result<TableGraph, Error>, field: TableGraph -> T): Result<T, Error> {
    if r.Success? then Success(field(r.value)) else Failure(r.error)
  }

  /** The result of reading the whole schema, projected by a getter. */
  function SchemaResult<T>(r: Result<Tables, Error>, field: Tables -> T): Result<T, Error> {
    if r.Success? then Success(field(r.value)) else Failure(r.error)
  }

  /**
   * A per-table getter returns exactly what `getTableConfig` returns, whatever the guard: a
   * blank name is refused without a query, and the entry read afterwards is always there.
   */
  lemma ReadTableIsTableConfig(c: CacheState, marker: string, key: string, table: string, fetch: Fetch, merge: Merge)
    requires WellFormed(c) && ValidFetch(fetch)
    ensures ReadTable(c, marker, key, table, fetch, merge) ==
      if IsBlank(table) then Step(Failure(InvalidArgument), c, false) else TableConfig(c, key, table, fetch, merge)
  {
    if !IsBlank(table) {
      TableConfigEffect(c, key, table, fetch, merge);
    }
  }

  /** Once a per-table getter has succeeded, the next one reads the same entry without a query. */
  lemma ReadTableRepeat(c: CacheState, marker: string, marker': string, key: string, table: string,
                        fetch: Fetch, fetch': Fetch, merge: Merge)
    requires WellFormed(c) && ValidFetch(fetch) && ValidFetch(fetch')
    requires ReadTable(c, marker, key, table, fetch, merge).result.Success?
    ensures var s := ReadTable(c, marker, key, table, fetch, merge);
      ReadTable(s.cache, marker', key, table, fetch', merge) == Step(s.result, s.cache, false)
  {
    ReadTableIsTableConfig(c, marker, key, table, fetch, merge);
    var s := TableConfig(c, key, table, fetch, merge);
    TableConfigRepeat(c, key, table, fetch, fetch', merge);
    TableConfigEffect(c, key, table, fetch, merge);
    ReadTableIsTableConfig(s.cache, marker', key, table, fetch', merge);
  }

  /**
   * When the guard is the cache key itself, or is not listed, `getTablesInformation` returns
   * exactly what `getSchemaConfig` returns.
   */
  lemma ReadSchemaIsSchemaConfig(c: CacheState, marker: string, key: string, fetch: Fetch, merge: Merge)
    requires WellFormed(c) && ValidFetch(fetch)
    requires marker == key || marker !in c.fullyCached
    ensures ReadSchema(c, marker, key, fetch, merge) == SchemaConfig(c, key, fetch)
  {
    SchemaConfigEffect(c, key, fetch);
  }

  /**
   * A guard that names some other fully read key skips the load: without an entry under
   * `key`, `getTablesInformation` then fails on the missing index without ever querying.
   */
  lemma ReadSchemaWithForeignGuard(c: CacheState, marker: string, key: string, fetch: Fetch, merge: Merge)
    requires marker in c.fullyCached && key !in c.entries
    ensures ReadSchema(c, marker, key, fetch, merge) == Step(Failure(UndefinedIndex(key)), c, false)
  {
  }

  /** The cache both schema source classes share among their instances (PHP static properties). */
  class SharedCache {
    var entries: map<string, Tables>
    var fullyCached: seq<string>
    /** How `array_merge_recursive` combines two entries for the same table. */
    const merge: Merge

    constructor (merge: Merge)
      ensures entries == map[] && fullyCached == [] && this.merge == merge
      ensures Valid()
    {
      entries := map[];
      fullyCached := [];
      this.merge := merge;
    }

    function State(): CacheState
      reads this
    {
      CacheState(entries, fullyCached)
    }

    ghost predicate Valid()
      reads this
    {
      WellFormed(State())
    }
  }
}
