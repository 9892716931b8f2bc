/**
 * The reporting entry points of dist/Report.js: reportRequestStart, called at
 * the start of each query, and reportRequestEnd, called once per request.
 */
module Report {
  import opened Wrappers
  import opened Durations
  import opened Records
  import opened Latency
  import Correlation
  import opened Stats
  import opened Context

  /**
   * reportRequestStart: registers one query execution under its GraphQL
   * context token. Nothing happens without a context, a query or an agent.
   */
  method RequestStart(context: RequestContext?, info: Option<QueryInfo>, token: Token)
    requires context != null ==> context.Valid()
    modifies context
    ensures context != null ==> context.Valid()
    ensures context != null && (info.None? || old(context.agent) == null) ==> unchanged(context)
    ensures context != null && info.Some? && old(context.agent) != null ==>
      var before := old(context.queries).GetOr(Correlation.Empty);
      var earlier := if token in before.lists then before.lists[token] else [];
      && context.agent == old(context.agent)
      && context.resolverCalls == old(context.resolverCalls)
      && context.queries.Some?
      && context.queries.value.lists == before.lists[token := earlier + [QueryEntry(info.value, [])]]
      && context.queries.value.order == before.order + (if token in before.lists then [] else [token])
  {
    if context == null || info.None? || context.agent == null {
      return;
    }
    if context.queries.None? {
      context.queries := Some(Correlation.Empty);
    }
    var q := context.queries.value;
    if token !in q.lists {
      q := Correlation.QueryTable(q.order + [token], q.lists[token := []]);
    }
    q := q.(lists := q.lists[token := q.lists[token] + [QueryEntry(info.value, [])]]);
    context.queries := Some(q);
  }

  /** The for-of loop with `break`: push `r` onto the first entry with its operation. */
  method AttachRecord(c: RequestContext, r: ResolverRecord)
    requires c.Valid() && c.queries.Some?
    modifies c
    ensures c.queries == Some(Correlation.Attach(old(c.queries.value), r))
    ensures c.resolverCalls == old(c.resolverCalls) && c.agent == old(c.agent)
  {
    if !Complete(r) {
      return;
    }
    var t := c.queries.value;
    if r.resolverContext !in t.lists {
      return;
    }
    var list := t.lists[r.resolverContext];
    var op := Operation(r);
    var j := 0;
    while j < |list|
      invariant 0 <= j <= |list|
      invariant forall i :: 0 <= i < j ==> list[i].info.operation != op
      invariant c.queries == Some(t)
    {
      if list[j].info.operation == op {
        var e := list[j].(resolvers := list[j].resolvers + [r]);
        c.queries := Some(t.(lists := t.lists[r.resolverContext := list[j := e]]));
        return;
      }
      j := j + 1;
    }
  }

  /** The attachment loop of reportRequestEnd over all resolver records of the request. */
  method Correlate(c: RequestContext)
    requires c.Valid() && c.queries.Some?
    modifies c
    ensures c.Valid() && c.queries.Some?
    ensures c.queries.value == Correlation.Correlated(old(c.queries.value), old(c.resolverCalls))
    ensures c.resolverCalls == old(c.resolverCalls) && c.agent == old(c.agent)
  {
    var calls := c.resolverCalls;
    var i := 0;
    while i < |calls|
      invariant 0 <= i <= |calls|
      invariant c.resolverCalls == calls && c.agent == old(c.agent)
      invariant c.queries == Some(Correlation.Correlated(old(c.queries.value), calls[..i]))
      invariant c.Valid()
    {
      AttachRecord(c, calls[i]);
      assert calls[..i + 1][..i] == calls[..i];
      i := i + 1;
    }
    assert calls[..i] == calls;
  }

  /** The resolver loop of reportRequestEnd: each record's latency goes into its field's buckets. */
  method AddResolverLatencies(b: Bucketing, fields: map<FieldKey, FieldStats>, rs: seq<ResolverRecord>)
    returns (perField: map<FieldKey, FieldStats>)
    requires Valid(b) && FieldsValid(fields, b.count)
    requires forall r :: r in rs ==> Complete(r)
    ensures perField == AddResolvers(b, fields, rs)
  {
    perField := fields;
    var k := 0;
    while k < |rs|
      invariant 0 <= k <= |rs|
      invariant FieldsValid(perField, b.count)
      invariant perField == AddResolvers(b, fields, rs[..k])
    {
      var r := rs[k];
      assert r in rs;
      var key := r.fieldInfo.value;
      if r.endOffset.Some? && r.startOffset.Some? {
        var resolverNanos := ToNanos(r.endOffset.value) - ToNanos(r.startOffset.value);
        if key in perField {
          perField := perField[key := FieldStats(perField[key].returnType, Add(b, perField[key].latencyBuckets, resolverNanos))];
        }
      }
      assert rs[..k + 1][..k] == rs[..k];
      k := k + 1;
    }
    assert rs[..k] == rs;
  }

  /**
   * The body of the query loop of reportRequestEnd: update the store for one
   * query and schedule a trace if it is the first in its client bucket.
   */
  method RecordQuery(agent: Agent, e: QueryEntry, client: ClientInfo, nanos: nat)
    requires agent.Valid() && Correlation.EntryComplete(e)
    modifies agent
    ensures agent.Valid()
    ensures agent.State() == Step(agent.config, old(agent.State()), e, client, nanos)
  {
    var cfg := agent.config;
    var b := cfg.buckets;
    var sig := cfg.normalizeQuery(e.info);
    ghost var before := agent.State();
    ghost var s0 := SignatureBefore(b, before.store, sig, cfg.fieldTypes(e.info));
    ghost var c0 := ClientBefore(b, s0, client.name);
    var res := agent.pendingResults;
    if sig !in res {
      res := res[sig := SignatureStats(map[], NewFieldStats(cfg.fieldTypes(e.info), b.count))];
    }
    var stats := res[sig];
    if client.name !in stats.perClient {
      stats := stats.(perClient := stats.perClient[client.name := ClientStats(NewHistogram(b.count), map[])]);
    }
    var clientObj := stats.perClient[client.name];
    assert stats.perField == s0.perField && clientObj == c0;
    assert stats.perClient[client.name := c0] == s0.perClient[client.name := c0];
    var perVersion := clientObj.perVersion;
    if client.version !in perVersion {
      perVersion := perVersion[client.version := 0];
    }
    perVersion := perVersion[client.version := perVersion[client.version] + 1];
    clientObj := ClientStats(Add(b, clientObj.latencyBuckets, nanos), perVersion);

    var perField := AddResolverLatencies(b, stats.perField, e.resolvers);
    assert perVersion == c0.perVersion[client.version := Get(c0.perVersion, client.version) + 1];
    assert clientObj == ClientStats(Add(b, c0.latencyBuckets, nanos), perVersion);
    assert stats.perClient[client.name := clientObj] == s0.perClient[client.name := clientObj];
    assert perField == AddResolvers(b, s0.perField, e.resolvers);
    assert res - {sig} == before.store - {sig};
    agent.pendingResults := res[sig := SignatureStats(stats.perClient[client.name := clientObj], perField)];
    var numSoFar := clientObj.latencyBuckets[b.index(nanos)];
    if numSoFar == 1 && cfg.reportTraces {
      agent.traces := agent.traces + [TraceRequest(sig, client, nanos, e.info, e.resolvers)];
    }
    assert agent.pendingResults == Stats.RecordQuery(b, before.store, sig, cfg.fieldTypes(e.info), client, nanos, e.resolvers);
    assert agent.State() == Step(cfg, before, e, client, nanos);
    StepValid(cfg, before, e, client, nanos);
  }

  /** The inner `queryList.forEach` of reportRequestEnd: the queries sharing one token. */
  method RecordQueryList(agent: Agent, list: seq<QueryEntry>, client: ClientInfo, nanos: nat)
    requires agent.Valid()
    requires forall e :: e in list ==> Correlation.EntryComplete(e)
    modifies agent
    ensures agent.Valid()
    ensures agent.State() == Aggregate(agent.config, old(agent.State()), list, client, nanos)
  {
    var j := 0;
    while j < |list|
      invariant 0 <= j <= |list|
      invariant agent.Valid()
      invariant agent.State() == Aggregate(agent.config, old(agent.State()), list[..j], client, nanos)
    {
      assert list[j] in list;
      assert list[..j + 1][..j] == list[..j];
      RecordQuery(agent, list[j], client, nanos);
      j := j + 1;
    }
    assert list[..j] == list;
  }

  /** The outer `queries.forEach` of reportRequestEnd, in Map insertion order. */
  method RecordQueries(agent: Agent, table: Correlation.QueryTable, headers: map<string, string>, nanos: nat)
    requires agent.Valid() && Correlation.Valid(table)
    modifies agent
    ensures agent.Valid()
    ensures (Correlation.AllEntriesComplete(table);
             agent.State() == Aggregate(agent.config, old(agent.State()), Correlation.Entries(table.order, table.lists),
                                        agent.config.normalizeVersion(headers), nanos))
  {
    var cfg := agent.config;
    var client := cfg.normalizeVersion(headers);
    ghost var st0 := agent.State();
    var i := 0;
    while i < |table.order|
      invariant 0 <= i <= |table.order|
      invariant agent.Valid()
      invariant forall e :: e in Correlation.Entries(table.order[..i], table.lists) ==> Correlation.EntryComplete(e)
      invariant agent.State() == Aggregate(cfg, st0, Correlation.Entries(table.order[..i], table.lists), client, nanos)
    {
      Correlation.EntriesComplete(table, i + 1);
      var list := table.lists[table.order[i]];
      ghost var done := Correlation.Entries(table.order[..i], table.lists);
      assert table.order[..i + 1][..i] == table.order[..i];
      assert Correlation.Entries(table.order[..i + 1], table.lists) == done + list;
      // normalizeVersion(req) is evaluated once per Map entry here and once per query in the
      // source; it is a function of the headers, so every evaluation gives the same client.
      RecordQueryList(agent, list, cfg.normalizeVersion(headers), nanos);
      AggregateAppend(cfg, st0, done, list, client, nanos);
      i := i + 1;
    }
    assert table.order[..i] == table.order;
  }

  /**
   * reportRequestEnd: attach the request's resolver records to its queries,
   * then fold every query, in Map order then list order, into the agent's
   * store. Nothing happens without a context, registered queries or an agent.
   * `duration` is the hrtime delta postRequest stored in the context.
   */
  method RequestEnd(req: Request, duration: HrTime)
    requires req.opticsContext != null ==> req.opticsContext.Valid()
    requires req.opticsContext != null && req.opticsContext.agent != null ==> req.opticsContext.agent.Valid()
    modifies Footprint(req)
    ensures req.opticsContext == old(req.opticsContext)
    ensures var c := req.opticsContext;
      c != null && (old(c.queries).None? || old(c.agent) == null) ==> unchanged(c) && (old(c.agent) != null ==> unchanged(old(c.agent)))
    ensures var c := req.opticsContext;
      c != null && old(c.queries).Some? && old(c.agent) != null ==>
        var agent := c.agent;
        var table := Correlation.Correlated(old(c.queries.value), old(c.resolverCalls));
        && agent == old(c.agent)
        && c.Valid() && agent.Valid()
        && c.queries == Some(table)
        && c.resolverCalls == old(c.resolverCalls)
        && (Correlation.AllEntriesComplete(table);
            agent.State() == Aggregate(agent.config, old(agent.State()), Correlation.Entries(table.order, table.lists),
                                       agent.config.normalizeVersion(req.headers), ToNanos(duration)))
  {
    var c := req.opticsContext;
    if c == null || c.queries.None? || c.agent == null {
      return;
    }
    var agent := c.agent;
    Correlate(c);
    var table := c.queries.value;
    RecordQueries(agent, table, req.headers, ToNanos(duration));
  }
}
