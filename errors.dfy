/** The exception classes the schema library throws, as values. */
module SchemaErrors {

  datatype Error =
    | InvalidArgument
    | InvalidUsage
    | UnsupportedDatatype(typeName: string)
    | TableNotFound(table: string)
    | SchemaNotFound(schema: string)
    | NoPrimaryKey(table: string)
      /** `keys` is the comma-joined list of the primary key columns, as in the message. */
    | MultiplePrimaryKey(table: string, keys: string)
      /** A catalog query failure rethrown by the driver with the underlying message. */
    | ErrorException(message: string)
      /** PHP reading an array index that does not exist (a notice, then null). */
    | UndefinedIndex(key: string)
}
