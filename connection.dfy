/**
 * The database connection the schema sources talk to. The server is not modelled: the answer
 * to the catalog query is a fixed function of the query, and the one server setting the
 * library touches, `innodb_stats_on_metadata`, is a field.
 */
module Connection {
  import opened Wrappers
  import opened Catalog

  /** The information-schema query, identified by the quoted schema and the quoted table filter. */
  datatype Query = CatalogQuery(quotedSchema: string, quotedTable: Option<string>)

  class Adapter {
    /** The server's host name, part of a schema signature. */
    const host: string
    /** The adapter's current database; `None` when the connection has none selected. */
    const currentSchema: Option<string>
    /** The adapter's value quoting (`quoteValue`). */
    const quote: string -> string
    /** The rows the catalog query returns, or the message of the exception it throws. */
    const catalog: Query -> Result<seq<Row>, string>
    /**
     * The value `show global variables like 'innodb_stats_on_metadata'` reports; `None` when
     * that statement fails or reports nothing.
     */
    var statsOnMetadata: Option<string>

    constructor (host: string, currentSchema: Option<string>, quote: string -> string,
                 catalog: Query -> Result<seq<Row>, string>, statsOnMetadata: Option<string>)
      ensures this.host == host && this.currentSchema == currentSchema
      ensures this.quote == quote && this.catalog == catalog
      ensures this.statsOnMetadata == statsOnMetadata
    {
      this.host := host;
      this.currentSchema := currentSchema;
      this.quote := quote;
      this.catalog := catalog;
      this.statsOnMetadata := statsOnMetadata;
    }

    /** Reads the `innodb_stats_on_metadata` setting. */
    method ShowStatsOnMetadata() returns (value: Option<string>)
      ensures value == statsOnMetadata
    {
      value := statsOnMetadata;
    }

    /** `set global innodb_stats_on_metadata='value'`. */
    method SetStatsOnMetadata(value: string)
      modifies this`statsOnMetadata
      ensures statsOnMetadata == Some(value)
    {
      statsOnMetadata := Some(value);
    }

    /** Runs the catalog query. */
    method RunQuery(q: Query) returns (r: Result<seq<Row>, string>)
      ensures r == catalog(q)
    {
      r := catalog(q);
    }
  }
}
