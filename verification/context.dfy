/**
 * The objects the agent keeps state in: the request, the per-request optics
 * context (dist/Instrument.js, preRequest and newContext) and the agent with
 * its aggregation store (dist/Report.js, `agent.pendingResults`).
 */
module Context {
  import opened Wrappers
  import opened Records
  import Correlation
  import Latency
  import Stats

  /** The incoming HTTP request, as far as the agent uses it. */
  class Request {
    const headers: map<string, string>
    /** `req._opticsContext`, set by preRequest. */
    var opticsContext: RequestContext?

    constructor (headers: map<string, string>)
      ensures this.headers == headers && opticsContext == null
    {
      this.headers := headers;
      opticsContext := null;
    }
  }

  /** The per-request state: resolver records and the queries seen so far. */
  class RequestContext {
    var agent: Agent?
    /** `context.queries`, absent until the first query of the request starts. */
    var queries: Option<Correlation.QueryTable>
    var resolverCalls: seq<ResolverRecord>

    ghost predicate Valid()
      reads this
    {
      queries.Some? ==> Correlation.Valid(queries.value)
    }

    /** preRequest: a fresh context with no records, no queries and no agent. */
    constructor ()
      ensures Valid() && agent == null && queries.None? && resolverCalls == []
    {
      agent := null;
      queries := None;
      resolverCalls := [];
    }
  }

  /** The agent: its settings, the store of the current period and the traces it scheduled. */
  class Agent {
    const config: Stats.AgentConfig
    var pendingResults: Stats.Store
    var traces: seq<Stats.TraceRequest>

    ghost predicate Valid()
      reads this
    {
      Stats.AggValid(config, State())
    }

    function State(): Stats.AggState
      reads this
    {
      Stats.AggState(pendingResults, traces)
    }

    constructor (config: Stats.AgentConfig)
      requires Latency.Valid(config.buckets)
      ensures Valid() && this.config == config && pendingResults == map[] && traces == []
    {
      this.config := config;
      pendingResults := map[];
      traces := [];
    }
  }

  /** The objects reportRequestEnd may update for a request. */
  function Footprint(req: Request): set<object>
    reads req, req.opticsContext
  {
    var c := req.opticsContext;
    if c == null then {} else if c.agent == null then {c} else {c, c.agent}
  }
}
