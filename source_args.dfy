/**
 * The argument checks and the small read-side rules shared by both schema sources: schema
 * and table name validation, the default schema taken from the connection, the cache
 * signature, and how primary and unique keys are read from a table entry.
 */
module SourceArgs {
  import opened Wrappers
  import opened Text
  import opened OrderedMaps
  import opened SchemaErrors

  /** A PHP value passed where a schema or table name is expected. */
  datatype Arg = NullArg | StringArg(s: string) | OtherArg

  function ArgOf(name: Option<string>): Arg {
    if name.Some? then StringArg(name.value) else NullArg
  }

  /** `validateSchema`: a schema name must be a string that is not blank. */
  function ValidateSchema(schema: Arg): (r: Outcome<Error>)
    ensures r.Pass? <==> schema.StringArg? && !IsBlank(schema.s)
    ensures r.Fail? ==> r.error == InvalidArgument
  {
    if schema.StringArg? && !IsBlank(schema.s) then Pass else Fail(InvalidArgument)
  }

  /** `checkTableArgument`: a table argument is either absent or a string that is not blank. */
  function CheckTableArgument(table: Arg): (r: Outcome<Error>)
    ensures r.Pass? <==> table.NullArg? || (table.StringArg? && !IsBlank(table.s))
    ensures r.Fail? ==> r.error == InvalidArgument
  {
    if table.NullArg? then Pass
    else if table.StringArg? && !IsBlank(table.s) then Pass
    else Fail(InvalidArgument)
  }

  /**
   * The schema a source is built for: the one given, or else the connection's current one.
   * A missing or empty current schema is an `InvalidUsage`; a blank or non-string name an
   * `InvalidArgument`.
   */
  function ResolveSchema(schema: Arg, currentSchema: Option<string>): Result<string, Error> {
    if schema.NullArg? then
      if currentSchema.None? || currentSchema.value == "" then Failure(InvalidUsage)
      else if IsBlank(currentSchema.value) then Failure(InvalidArgument)
      else Success(currentSchema.value)
    else if ValidateSchema(schema).Pass? then Success(schema.s)
    else Failure(InvalidArgument)
  }

  /** A resolved schema is never blank, and it is the given name whenever one was given. */
  lemma ResolveSchemaSound(schema: Arg, currentSchema: Option<string>)
    ensures var r := ResolveSchema(schema, currentSchema);
      && (r.Success? ==> !IsBlank(r.value))
      && (r.Success? <==> if schema.NullArg? then currentSchema.Some? && !IsBlank(currentSchema.value)
                          else schema.StringArg? && !IsBlank(schema.s))
      && (r.Success? && !schema.NullArg? ==> r.value == schema.s)
      && (r.Failure? && schema.NullArg? && (currentSchema.None? || currentSchema.value == "") ==> r.error == InvalidUsage)
  {
    if schema.NullArg? && currentSchema.Some? && currentSchema.value == "" {
      assert IsBlank(currentSchema.value);
    }
  }

  /** The key a schema source caches under: `"host:schema"`. */
  function Signature(host: string, schema: string): (sig: string)
    ensures |sig| == |host| + 1 + |schema|
  {
    host + ":" + schema
  }

  /** For one host, different schemas never share a signature. */
  lemma SignatureInjective(host: string, a: string, b: string)
    requires Signature(host, a) == Signature(host, b)
    ensures a == b
  {
    assert a == Signature(host, a)[|host| + 1..];
    assert b == Signature(host, b)[|host| + 1..];
  }

  /** For one schema name, sources on different hosts never share a signature. */
  lemma SignatureSeparatesHosts(a: string, b: string, schema: string)
    requires Signature(a, schema) == Signature(b, schema)
    ensures a == b
  {
    assert a == Signature(a, schema)[..|a|];
    assert b == Signature(b, schema)[..|b|];
  }

  /** A signature is never the bare schema name. */
  lemma SignatureIsNotSchemaName(host: string, schema: string)
    ensures Signature(host, schema) != schema
  {
  }

  /** `getPrimaryKeys`: the table's primary key columns, which must not be empty. */
  function PrimaryKeysOf(table: string, pks: seq<string>): (r: Result<seq<string>, Error>)
    ensures r.Success? <==> |pks| > 0
    ensures r.Success? ==> r.value == pks
    ensures r.Failure? ==> r.error == NoPrimaryKey(table)
  {
    if |pks| == 0 then Failure(NoPrimaryKey(table)) else Success(pks)
  }

  /** `getPrimaryKey`: the single primary key column; none or several is an error. */
  function PrimaryKeyOf(table: string, pks: seq<string>): (r: Result<string, Error>)
    ensures r.Success? <==> |pks| == 1
    ensures r.Success? ==> r.value == pks[0]
    ensures |pks| == 0 ==> r == Failure(NoPrimaryKey(table))
    ensures |pks| > 1 ==> r == Failure(MultiplePrimaryKey(table, Join(pks, ",")))
  {
    match PrimaryKeysOf(table, pks)
    case Failure(e) => Failure(e)
    case Success(keys) =>
      if |keys| > 1 then Failure(MultiplePrimaryKey(table, Join(keys, ","))) else Success(keys[0])
  }

  const PrimaryEntry := "PRIMARY"

  /**
   * `getUniqueKeys`: the table's unique keys, with the primary key added under `PRIMARY`
   * when asked for and the table has one (it then replaces a constraint of that name, in place).
   */
  function UniqueKeysOf(uniques: OrderedMap<seq<string>>, pks: seq<string>, includePrimary: bool)
    : (r: OrderedMap<seq<string>>)
    ensures forall n :: n != PrimaryEntry ==>
      (n in r.entries <==> n in uniques.entries) && (n in r.entries ==> r.entries[n] == uniques.entries[n])
    ensures PrimaryEntry in r.entries <==> PrimaryEntry in uniques.entries || (includePrimary && |pks| > 0)
    ensures includePrimary && |pks| > 0 ==> r.entries[PrimaryEntry] == pks
    ensures !(includePrimary && |pks| > 0) ==> r == uniques
    ensures uniques.Valid() ==> r.Valid()
  {
    if includePrimary && |pks| > 0 then uniques.Put(PrimaryEntry, pks) else uniques
  }
}
