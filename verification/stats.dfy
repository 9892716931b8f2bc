/**
 * The aggregation store `agent.pendingResults` and the per-query update that
 * reportRequestEnd performs on it (dist/Report.js, second half of
 * reportRequestEnd), including the decision to sample a trace.
 */
module Stats {
  import opened Wrappers
  import opened Records
  import opened Latency
  import Correlation

  /** `perClient[name]`: the client's query latencies and per-version counts. */
  datatype ClientStats = ClientStats(latencyBuckets: Histogram, perVersion: map<string, nat>)

  /** `perField[typeName][fieldName]`, keyed here by the pair. */
  datatype FieldStats = FieldStats(returnType: string, latencyBuckets: Histogram)

  /** `pendingResults[signature]`. */
  datatype SignatureStats = SignatureStats(perClient: map<string, ClientStats>, perField: map<FieldKey, FieldStats>)

  /** `pendingResults`: signature -> statistics for the current report period. */
  type Store = map<string, SignatureStats>

  /**
   * The agent's settings and the collaborators reportRequestEnd calls:
   * normalizeQuery, normalizeVersion (over the request headers) and the
   * TypeInfo walk that gives each field of a query its printed return type.
   */
  datatype AgentConfig = AgentConfig(
    reportTraces: bool,
    buckets: Bucketing,
    normalizeQuery: QueryInfo -> string,
    fieldTypes: QueryInfo -> map<FieldKey, string>,
    normalizeVersion: map<string, string> -> ClientInfo)

  /** A trace handed to reportTrace: the query, its records and where it was bucketed. */
  datatype TraceRequest = TraceRequest(
    signature: string,
    client: ClientInfo,
    nanos: nat,
    info: QueryInfo,
    resolvers: seq<ResolverRecord>)

  /** One client latency bucket of one signature. */
  datatype BucketKey = BucketKey(signature: string, client: string, bucket: nat)

  function TraceKey(b: Bucketing, t: TraceRequest): BucketKey {
    BucketKey(t.signature, t.client.name, b.index(t.nanos))
  }

  /** How many queries of the period landed in a client bucket (0 if none yet). */
  function BucketCount(s: Store, key: BucketKey): nat {
    if key.signature in s && key.client in s[key.signature].perClient
       && key.bucket < |s[key.signature].perClient[key.client].latencyBuckets|
    then s[key.signature].perClient[key.client].latencyBuckets[key.bucket]
    else 0
  }

  /** A count that starts from 0 when absent (`if (!m[k]) m[k] = 0`). */
  function Get(m: map<string, nat>, k: string): nat {
    if k in m then m[k] else 0
  }

  // ---------------------------------------------------------------------
  // Sum of the per-version counts

  ghost function SumValues(m: map<string, nat>): nat
    decreases |m|
  {
    if m.Keys == {} then 0
    else
      var k :| k in m.Keys;
      assert (m - {k}).Keys == m.Keys - {k};
      m[k] + SumValues(m - {k})
  }

  lemma {:induction false} SumValuesPick(m: map<string, nat>, k: string)
    requires k in m
    ensures SumValues(m) == m[k] + SumValues(m - {k})
    decreases |m|
  {
    var j :| j in m.Keys && SumValues(m) == m[j] + SumValues(m - {j});
    if j != k {
      assert (m - {j}).Keys == m.Keys - {j};
      assert (m - {k}).Keys == m.Keys - {k};
      SumValuesPick(m - {j}, k);
      SumValuesPick(m - {k}, j);
      assert m - {j} - {k} == m - {k} - {j};
    }
  }

  /** Overwriting one count changes the sum by the difference. */
  lemma SumValuesUpdate(m: map<string, nat>, k: string, v: nat)
    ensures SumValues(m[k := v]) == SumValues(m) - Get(m, k) + v
  {
    SumValuesPick(m[k := v], k);
    assert m[k := v] - {k} == m - {k};
    if k in m {
      SumValuesPick(m, k);
    } else {
      assert m - {k} == m;
    }
  }

  // ---------------------------------------------------------------------
  // Invariants of the store

  /** A client's histogram holds exactly one duration per counted query. */
  ghost predicate ClientValid(c: ClientStats, count: nat) {
    |c.latencyBuckets| == count && Total(c.latencyBuckets) == SumValues(c.perVersion)
  }

  ghost predicate FieldsValid(pf: map<FieldKey, FieldStats>, count: nat) {
    forall k :: k in pf ==> |pf[k].latencyBuckets| == count
  }

  ghost predicate SignatureValid(s: SignatureStats, count: nat) {
    && (forall n :: n in s.perClient ==> ClientValid(s.perClient[n], count))
    && FieldsValid(s.perField, count)
  }

  ghost predicate StoreValid(s: Store, count: nat) {
    forall sig :: sig in s ==> SignatureValid(s[sig], count)
  }

  // ---------------------------------------------------------------------
  // Counts only go up

  ghost predicate ClientGrows(c: ClientStats, c': ClientStats) {
    && Below(c.latencyBuckets, c'.latencyBuckets)
    && forall v :: v in c.perVersion ==> v in c'.perVersion && c.perVersion[v] <= c'.perVersion[v]
  }

  /** Clients are kept, and the field table keeps its keys and return types. */
  ghost predicate SignatureGrows(a: SignatureStats, a': SignatureStats) {
    && (forall n :: n in a.perClient ==> n in a'.perClient && ClientGrows(a.perClient[n], a'.perClient[n]))
    && a'.perField.Keys == a.perField.Keys
    && (forall k :: k in a.perField ==>
          a'.perField[k].returnType == a.perField[k].returnType
          && Below(a.perField[k].latencyBuckets, a'.perField[k].latencyBuckets))
  }

  /** No signature is dropped or reset, and no count goes down. */
  ghost predicate Grows(s: Store, s': Store) {
    forall sig :: sig in s ==> sig in s' && SignatureGrows(s[sig], s'[sig])
  }

  lemma GrowsTransitive(s1: Store, s2: Store, s3: Store)
    requires Grows(s1, s2) && Grows(s2, s3)
    ensures Grows(s1, s3)
  {
    forall sig | sig in s1
      ensures sig in s3 && SignatureGrows(s1[sig], s3[sig])
    {
      var a, b, c := s1[sig], s2[sig], s3[sig];
      forall n | n in a.perClient
        ensures n in c.perClient && ClientGrows(a.perClient[n], c.perClient[n])
      {
        BelowTransitive(a.perClient[n].latencyBuckets, b.perClient[n].latencyBuckets, c.perClient[n].latencyBuckets);
      }
      forall k | k in a.perField
        ensures Below(a.perField[k].latencyBuckets, c.perField[k].latencyBuckets)
      {
        BelowTransitive(a.perField[k].latencyBuckets, b.perField[k].latencyBuckets, c.perField[k].latencyBuckets);
      }
    }
  }

  lemma GrowsReflexive(s: Store)
    ensures Grows(s, s)
  {
    forall sig | sig in s
      ensures SignatureGrows(s[sig], s[sig])
    {
    }
  }

  /** A bucket count never goes down while the store grows. */
  lemma GrowsBucketCount(s: Store, s': Store, key: BucketKey)
    requires Grows(s, s')
    ensures BucketCount(s, key) <= BucketCount(s', key)
  {
    if key.signature in s && key.client in s[key.signature].perClient {
      assert ClientGrows(s[key.signature].perClient[key.client], s'[key.signature].perClient[key.client]);
    }
  }

  // ---------------------------------------------------------------------
  // Per-field latencies

  /** The field table built the first time a signature is seen: every field the walk visits, with empty buckets. */
  function NewFieldStats(fieldTypes: map<FieldKey, string>, count: nat): (pf: map<FieldKey, FieldStats>)
    ensures pf.Keys == fieldTypes.Keys && FieldsValid(pf, count)
    ensures forall k :: k in pf ==> pf[k].returnType == fieldTypes[k] && Total(pf[k].latencyBuckets) == 0
  {
    var pf := map k | k in fieldTypes :: FieldStats(fieldTypes[k], NewHistogram(count));
    NewHistogramTotal(count);
    pf
  }

  /** One resolver: its latency goes into its field's buckets, if the field is in the table. */
  function AddResolver(b: Bucketing, pf: map<FieldKey, FieldStats>, r: ResolverRecord): (pf': map<FieldKey, FieldStats>)
    requires Valid(b) && FieldsValid(pf, b.count) && Complete(r)
    ensures FieldsValid(pf', b.count) && pf'.Keys == pf.Keys
    ensures forall k :: k in pf && Some(k) != r.fieldInfo ==> pf'[k] == pf[k]
    ensures r.fieldInfo.value in pf ==>
      var k := r.fieldInfo.value;
      && pf'[k].returnType == pf[k].returnType
      && pf'[k].latencyBuckets == Add(b, pf[k].latencyBuckets, ResolverNanos(r))
  {
    // Attached records always carry both offsets; the source checks them again.
    if r.endOffset.Some? && r.startOffset.Some? && r.fieldInfo.value in pf then
      var k := r.fieldInfo.value;
      pf[k := FieldStats(pf[k].returnType, Add(b, pf[k].latencyBuckets, ResolverNanos(r)))]
    else pf
  }

  /** The resolver loop of reportRequestEnd over a query's attached records. */
  function AddResolvers(b: Bucketing, pf: map<FieldKey, FieldStats>, rs: seq<ResolverRecord>): (pf': map<FieldKey, FieldStats>)
    requires Valid(b) && FieldsValid(pf, b.count)
    requires forall r :: r in rs ==> Complete(r)
    ensures FieldsValid(pf', b.count) && pf'.Keys == pf.Keys
    decreases |rs|
  {
    if |rs| == 0 then pf
    else
      var pf0 := AddResolvers(b, pf, rs[..|rs| - 1]);
      AddResolver(b, pf0, rs[|rs| - 1])
  }

  /** How many records ran a resolver of field `k`. */
  function CountField(rs: seq<ResolverRecord>, k: FieldKey): nat
    decreases |rs|
  {
    if |rs| == 0 then 0
    else CountField(rs[..|rs| - 1], k) + (if rs[|rs| - 1].fieldInfo == Some(k) then 1 else 0)
  }

  /**
   * Each field of the table gains one duration per attached record of that
   * field; fields outside the table are skipped and never created.
   */
  lemma {:induction false} AddResolversSpec(b: Bucketing, pf: map<FieldKey, FieldStats>, rs: seq<ResolverRecord>)
    requires Valid(b) && FieldsValid(pf, b.count)
    requires forall r :: r in rs ==> Complete(r)
    ensures forall k :: k in pf ==>
      var f := AddResolvers(b, pf, rs)[k];
      && f.returnType == pf[k].returnType
      && Below(pf[k].latencyBuckets, f.latencyBuckets)
      && Total(f.latencyBuckets) == Total(pf[k].latencyBuckets) + CountField(rs, k)
    decreases |rs|
  {
    if |rs| > 0 {
      var init, r := rs[..|rs| - 1], rs[|rs| - 1];
      assert r in rs;
      AddResolversSpec(b, pf, init);
      var pf0 := AddResolvers(b, pf, init);
      var k0 := r.fieldInfo.value;
      if k0 in pf0 {
        AddTotal(b, pf0[k0].latencyBuckets, ResolverNanos(r));
        BelowTransitive(pf[k0].latencyBuckets, pf0[k0].latencyBuckets, Add(b, pf0[k0].latencyBuckets, ResolverNanos(r)));
      }
    }
  }

  /** How many records of field `k` took a latency that falls in bucket `j`. */
  function CountBucket(b: Bucketing, rs: seq<ResolverRecord>, k: FieldKey, j: nat): nat
    requires forall r :: r in rs ==> Complete(r)
    decreases |rs|
  {
    if |rs| == 0 then 0
    else
      var r := rs[|rs| - 1];
      assert r in rs;
      assert forall x :: x in rs[..|rs| - 1] ==> x in rs;
      CountBucket(b, rs[..|rs| - 1], k, j)
        + (if r.fieldInfo == Some(k) && b.index(ResolverNanos(r)) == j then 1 else 0)
  }

  /**
   * Bucket by bucket: each field's bucket `j` gains one count per attached
   * record of that field whose `end - start` nanoseconds fall in bucket `j`.
   */
  lemma {:induction false} AddResolversBuckets(b: Bucketing, pf: map<FieldKey, FieldStats>, rs: seq<ResolverRecord>)
    requires Valid(b) && FieldsValid(pf, b.count)
    requires forall r :: r in rs ==> Complete(r)
    ensures forall k, j :: k in pf && 0 <= j < b.count ==>
      AddResolvers(b, pf, rs)[k].latencyBuckets[j] == pf[k].latencyBuckets[j] + CountBucket(b, rs, k, j)
    decreases |rs|
  {
    if |rs| > 0 {
      var init, r := rs[..|rs| - 1], rs[|rs| - 1];
      assert r in rs;
      assert forall x :: x in init ==> x in rs;
      AddResolversBuckets(b, pf, init);
    }
  }

  // ---------------------------------------------------------------------
  // The per-query update

  /** The client entry a query starts from: the existing one or a fresh one. */
  function ClientBefore(b: Bucketing, s: SignatureStats, name: string): ClientStats {
    if name in s.perClient then s.perClient[name] else ClientStats(NewHistogram(b.count), map[])
  }

  /** The signature entry a query starts from: the existing one or a fresh one. */
  function SignatureBefore(b: Bucketing, store: Store, sig: string, fieldTypes: map<FieldKey, string>): SignatureStats {
    if sig in store then store[sig] else SignatureStats(map[], NewFieldStats(fieldTypes, b.count))
  }

  /** What reportRequestEnd does to the store for one query with duration `nanos`. */
  function RecordQuery(b: Bucketing, store: Store, sig: string, fieldTypes: map<FieldKey, string>,
                       client: ClientInfo, nanos: nat, rs: seq<ResolverRecord>): (s': Store)
    requires Valid(b) && StoreValid(store, b.count)
    requires forall r :: r in rs ==> Complete(r)
    ensures StoreValid(s', b.count)
  {
    var s0 := SignatureBefore(b, store, sig, fieldTypes);
    var c0 := ClientBefore(b, s0, client.name);
    var versions := c0.perVersion[client.version := Get(c0.perVersion, client.version) + 1];
    var c1 := ClientStats(Add(b, c0.latencyBuckets, nanos), versions);
    NewHistogramTotal(b.count);
    AddTotal(b, c0.latencyBuckets, nanos);
    SumValuesUpdate(c0.perVersion, client.version, Get(c0.perVersion, client.version) + 1);
    store[sig := SignatureStats(s0.perClient[client.name := c1], AddResolvers(b, s0.perField, rs))]
  }

  /**
   * The client of the query gains exactly one duration in its histogram and
   * its version count goes up by exactly one; no other signature, client or
   * version changes.
   */
  lemma RecordQueryClient(b: Bucketing, store: Store, sig: string, fieldTypes: map<FieldKey, string>,
                          client: ClientInfo, nanos: nat, rs: seq<ResolverRecord>)
    requires Valid(b) && StoreValid(store, b.count)
    requires forall r :: r in rs ==> Complete(r)
    ensures var s' := RecordQuery(b, store, sig, fieldTypes, client, nanos, rs);
      var c0 := ClientBefore(b, SignatureBefore(b, store, sig, fieldTypes), client.name);
      && s'.Keys == store.Keys + {sig}
      && (forall other :: other in store && other != sig ==> s'[other] == store[other])
      && client.name in s'[sig].perClient
      && Total(s'[sig].perClient[client.name].latencyBuckets) == Total(c0.latencyBuckets) + 1
      && Get(s'[sig].perClient[client.name].perVersion, client.version) == Get(c0.perVersion, client.version) + 1
      && (forall v :: v != client.version ==>
            Get(s'[sig].perClient[client.name].perVersion, v) == Get(c0.perVersion, v))
      && s'[sig].perClient[client.name].perVersion.Keys == c0.perVersion.Keys + {client.version}
      && (forall n :: n in s'[sig].perClient && n != client.name ==>
            sig in store && n in store[sig].perClient && s'[sig].perClient[n] == store[sig].perClient[n])
  {
    var c0 := ClientBefore(b, SignatureBefore(b, store, sig, fieldTypes), client.name);
    NewHistogramTotal(b.count);
    AddTotal(b, c0.latencyBuckets, nanos);
  }

  /**
   * A signature seen for the first time in the period gets the field table of
   * its query; a known signature keeps its table, which is never rebuilt.
   */
  lemma RecordQueryFields(b: Bucketing, store: Store, sig: string, fieldTypes: map<FieldKey, string>,
                          client: ClientInfo, nanos: nat, rs: seq<ResolverRecord>)
    requires Valid(b) && StoreValid(store, b.count)
    requires forall r :: r in rs ==> Complete(r)
    ensures var s' := RecordQuery(b, store, sig, fieldTypes, client, nanos, rs);
      var before := SignatureBefore(b, store, sig, fieldTypes).perField;
      && (sig !in store ==> s'[sig].perField.Keys == fieldTypes.Keys)
      && (sig in store ==> s'[sig].perField.Keys == store[sig].perField.Keys)
      && (forall k :: k in before ==>
            && s'[sig].perField[k].returnType == (if sig in store then store[sig].perField[k].returnType else fieldTypes[k])
            && Total(s'[sig].perField[k].latencyBuckets) == Total(before[k].latencyBuckets) + CountField(rs, k))
      && (forall k, j :: k in before && 0 <= j < b.count ==>
            s'[sig].perField[k].latencyBuckets[j] == before[k].latencyBuckets[j] + CountBucket(b, rs, k, j))
  {
    var s0 := SignatureBefore(b, store, sig, fieldTypes);
    AddResolversSpec(b, s0.perField, rs);
    AddResolversBuckets(b, s0.perField, rs);
  }

  /** The update never drops, resets or decrements anything. */
  lemma RecordQueryGrows(b: Bucketing, store: Store, sig: string, fieldTypes: map<FieldKey, string>,
                         client: ClientInfo, nanos: nat, rs: seq<ResolverRecord>)
    requires Valid(b) && StoreValid(store, b.count)
    requires forall r :: r in rs ==> Complete(r)
    ensures Grows(store, RecordQuery(b, store, sig, fieldTypes, client, nanos, rs))
  {
    var s' := RecordQuery(b, store, sig, fieldTypes, client, nanos, rs);
    if sig in store {
      var s0 := store[sig];
      AddResolversSpec(b, s0.perField, rs);
      if client.name in s0.perClient {
        var c0 := s0.perClient[client.name];
        AddGrows(b, c0.latencyBuckets, nanos);
        assert ClientGrows(c0, s'[sig].perClient[client.name]);
      }
      assert SignatureGrows(s0, s'[sig]);
    }
  }

  /** The query's client bucket goes up by one; every other bucket is unchanged. */
  lemma RecordQueryBucket(b: Bucketing, store: Store, sig: string, fieldTypes: map<FieldKey, string>,
                          client: ClientInfo, nanos: nat, rs: seq<ResolverRecord>, key: BucketKey)
    requires Valid(b) && StoreValid(store, b.count)
    requires forall r :: r in rs ==> Complete(r)
    ensures var s' := RecordQuery(b, store, sig, fieldTypes, client, nanos, rs);
      BucketCount(s', key) ==
        BucketCount(store, key) + (if key == BucketKey(sig, client.name, b.index(nanos)) then 1 else 0)
  {
  }

  // ---------------------------------------------------------------------
  // Aggregation over the queries of a request, with trace sampling

  /** The store and the traces handed to reportTrace so far. */
  datatype AggState = AggState(store: Store, traces: seq<TraceRequest>)

  /**
   * At most one trace per client bucket per period: each trace's bucket is
   * occupied and no two traces share a bucket.
   */
  ghost predicate TracesValid(cfg: AgentConfig, st: AggState) {
    && (!cfg.reportTraces ==> st.traces == [])
    && (forall i :: 0 <= i < |st.traces| ==> BucketCount(st.store, TraceKey(cfg.buckets, st.traces[i])) >= 1)
    && (forall i, j :: 0 <= i < j < |st.traces| ==>
          TraceKey(cfg.buckets, st.traces[i]) != TraceKey(cfg.buckets, st.traces[j]))
  }

  ghost predicate AggValid(cfg: AgentConfig, st: AggState) {
    Valid(cfg.buckets) && StoreValid(st.store, cfg.buckets.count) && TracesValid(cfg, st)
  }

  /** The key a query of signature `sig` lands in. */
  function QueryKey(cfg: AgentConfig, sig: string, client: ClientInfo, nanos: nat): BucketKey {
    BucketKey(sig, client.name, cfg.buckets.index(nanos))
  }

  /** One iteration of the query loop of reportRequestEnd. */
  function Step(cfg: AgentConfig, st: AggState, e: QueryEntry, client: ClientInfo, nanos: nat): (st': AggState)
    requires Valid(cfg.buckets) && StoreValid(st.store, cfg.buckets.count)
    requires Correlation.EntryComplete(e)
    ensures StoreValid(st'.store, cfg.buckets.count)
  {
    var sig := cfg.normalizeQuery(e.info);
    var store' := RecordQuery(cfg.buckets, st.store, sig, cfg.fieldTypes(e.info), client, nanos, e.resolvers);
    var sampled := BucketCount(store', QueryKey(cfg, sig, client, nanos)) == 1 && cfg.reportTraces;
    AggState(store', st.traces + if sampled then [TraceRequest(sig, client, nanos, e.info, e.resolvers)] else [])
  }

  /**
   * A trace is scheduled exactly when traces are enabled and the query is the
   * first of the period to land in its client bucket.
   */
  lemma StepSamplesFirst(cfg: AgentConfig, st: AggState, e: QueryEntry, client: ClientInfo, nanos: nat)
    requires Valid(cfg.buckets) && StoreValid(st.store, cfg.buckets.count)
    requires Correlation.EntryComplete(e)
    ensures var st' := Step(cfg, st, e, client, nanos);
      var key := QueryKey(cfg, cfg.normalizeQuery(e.info), client, nanos);
      && (st'.traces != st.traces <==> cfg.reportTraces && BucketCount(st.store, key) == 0)
      && (st'.traces != st.traces ==>
            st'.traces == st.traces + [TraceRequest(cfg.normalizeQuery(e.info), client, nanos, e.info, e.resolvers)])
      && st.traces <= st'.traces
      && |st'.traces| <= |st.traces| + 1
  {
    var sig := cfg.normalizeQuery(e.info);
    RecordQueryBucket(cfg.buckets, st.store, sig, cfg.fieldTypes(e.info), client, nanos, e.resolvers,
                      QueryKey(cfg, sig, client, nanos));
  }

  /** One query keeps every invariant and only grows the store. */
  lemma StepValid(cfg: AgentConfig, st: AggState, e: QueryEntry, client: ClientInfo, nanos: nat)
    requires AggValid(cfg, st)
    requires Correlation.EntryComplete(e)
    ensures var st' := Step(cfg, st, e, client, nanos);
      AggValid(cfg, st') && Grows(st.store, st'.store) && st.traces <= st'.traces
  {
    var st' := Step(cfg, st, e, client, nanos);
    var sig := cfg.normalizeQuery(e.info);
    var key := QueryKey(cfg, sig, client, nanos);
    RecordQueryGrows(cfg.buckets, st.store, sig, cfg.fieldTypes(e.info), client, nanos, e.resolvers);
    StepSamplesFirst(cfg, st, e, client, nanos);
    forall i | 0 <= i < |st.traces|
      ensures BucketCount(st'.store, TraceKey(cfg.buckets, st.traces[i])) >= 1
    {
      GrowsBucketCount(st.store, st'.store, TraceKey(cfg.buckets, st.traces[i]));
    }
    if |st'.traces| > |st.traces| {
      RecordQueryBucket(cfg.buckets, st.store, sig, cfg.fieldTypes(e.info), client, nanos, e.resolvers, key);
      assert TraceKey(cfg.buckets, st'.traces[|st.traces|]) == key;
      forall i | 0 <= i < |st.traces|
        ensures TraceKey(cfg.buckets, st.traces[i]) != key
      {
      }
    }
  }

  /** The query loop of reportRequestEnd, over the queries in order. */
  function Aggregate(cfg: AgentConfig, st: AggState, es: seq<QueryEntry>, client: ClientInfo, nanos: nat): (st': AggState)
    requires Valid(cfg.buckets) && StoreValid(st.store, cfg.buckets.count)
    requires forall e :: e in es ==> Correlation.EntryComplete(e)
    ensures StoreValid(st'.store, cfg.buckets.count)
    decreases |es|
  {
    if |es| == 0 then st
    else Step(cfg, Aggregate(cfg, st, es[..|es| - 1], client, nanos), es[|es| - 1], client, nanos)
  }

  /**
   * A whole request keeps every invariant: the store only grows, traces are
   * only appended, and no client bucket is sampled twice in a period.
   */
  lemma {:induction false} AggregateValid(cfg: AgentConfig, st: AggState, es: seq<QueryEntry>, client: ClientInfo, nanos: nat)
    requires AggValid(cfg, st)
    requires forall e :: e in es ==> Correlation.EntryComplete(e)
    ensures var st' := Aggregate(cfg, st, es, client, nanos);
      AggValid(cfg, st') && Grows(st.store, st'.store) && st.traces <= st'.traces
    decreases |es|
  {
    if |es| == 0 {
      GrowsReflexive(st.store);
    } else {
      var init := es[..|es| - 1];
      assert forall e :: e in init ==> e in es;
      AggregateValid(cfg, st, init, client, nanos);
      var mid := Aggregate(cfg, st, init, client, nanos);
      StepValid(cfg, mid, es[|es| - 1], client, nanos);
      GrowsTransitive(st.store, mid.store, Step(cfg, mid, es[|es| - 1], client, nanos).store);
    }
  }

  /** Folding two runs of queries one after the other is folding their concatenation. */
  lemma {:induction false} AggregateAppend(cfg: AgentConfig, st: AggState, es1: seq<QueryEntry>, es2: seq<QueryEntry>,
                                           client: ClientInfo, nanos: nat)
    requires Valid(cfg.buckets) && StoreValid(st.store, cfg.buckets.count)
    requires forall e :: e in es1 + es2 ==> Correlation.EntryComplete(e)
    ensures forall e :: e in es1 ==> Correlation.EntryComplete(e)
    ensures Aggregate(cfg, Aggregate(cfg, st, es1, client, nanos), es2, client, nanos) ==
            Aggregate(cfg, st, es1 + es2, client, nanos)
    decreases |es2|
  {
    assert forall e :: e in es1 ==> e in es1 + es2;
    if |es2| > 0 {
      var init := es2[..|es2| - 1];
      assert forall e :: e in es1 + init ==> e in es1 + es2;
      AggregateAppend(cfg, st, es1, init, client, nanos);
      assert (es1 + es2)[..|es1 + es2| - 1] == es1 + init;
      assert es2[|es2| - 1] in es1 + es2;
    } else {
      assert es1 + es2 == es1;
    }
  }
}
