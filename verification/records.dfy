/**
 * The values the agent passes between the resolver wrapper (dist/Instrument.js)
 * and the reporting code (dist/Report.js).
 */
module Records {
  import opened Wrappers
  import opened Durations

  /** Identity of the GraphQL `context` object a query executes with. */
  type Token = nat

  /** Identity of an operation AST node (`info.operation`). */
  type OpId = nat

  /** `{typeName, fieldName}`: the field a wrapped resolver belongs to. */
  datatype FieldKey = FieldKey(typeName: string, fieldName: string)

  /** The part of graphql-js's resolve info the agent reads. */
  datatype ResolverInfo = ResolverInfo(operation: Option<OpId>)

  /**
   * One resolver run (`resolverReport`). Offsets are hrtime deltas from the
   * start of the request; `endOffset` stays absent until the run completes.
   */
  datatype ResolverRecord = ResolverRecord(
    startOffset: Option<HrTime>,
    endOffset: Option<HrTime>,
    fieldInfo: Option<FieldKey>,
    resolverInfo: Option<ResolverInfo>,
    resolverContext: Token,
    error: bool,
    resultNull: bool,
    resultUndefined: bool)

  /** The check reportRequestEnd makes before a record may be attached to a query. */
  predicate Complete(r: ResolverRecord) {
    && r.resolverInfo.Some?
    && r.resolverInfo.value.operation.Some?
    && r.fieldInfo.Some?
    && r.startOffset.Some?
    && r.endOffset.Some?
  }

  function Operation(r: ResolverRecord): OpId
    requires Complete(r)
  {
    r.resolverInfo.value.operation.value
  }

  /** Resolver latency: end offset minus start offset, in nanoseconds. */
  function ResolverNanos(r: ResolverRecord): int
    requires Complete(r)
  {
    ToNanos(r.endOffset.value) - ToNanos(r.startOffset.value)
  }

  /** The query descriptor graphql-js hands the schema-level hook. */
  datatype QueryInfo = QueryInfo(id: nat, operation: OpId)

  /** `{info, resolvers}`: one query execution and the records attached to it. */
  datatype QueryEntry = QueryEntry(info: QueryInfo, resolvers: seq<ResolverRecord>)

  /** What agent.normalizeVersion reports for a request. */
  datatype ClientInfo = ClientInfo(name: string, version: string)
}
