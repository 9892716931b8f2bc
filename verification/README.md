# optics-agent-js request bookkeeping, modelled in Dafny

This project models the per-request bookkeeping of the optics-agent-js
GraphQL telemetry agent. It covers two files:

- `dist/Report.js`:
  - `reportRequestStart` registers each query under its GraphQL context object.
  - At request end, each complete resolver record is attached to the first
    query entry with the same operation.
  - Each query is then folded into the agent's per-period store, a nested table:
    signature, then client name, then latency histogram and per-version counts;
    plus per-field histograms.
  - A trace is sampled when a query is the first of its period to land in its
    client bucket.
- `dist/Instrument.js`:
  - The decorated resolver appends exactly one record per call. It sets the
    record's end offset synchronously, or later when the result's Promises
    settle (modelled as discrete settlement events).
  - `defaultResolveFn` resolves a field from the source object.
  - `instrumentSchema` is idempotent.
  - `newContext` reuses the request's context or creates a fresh one.

Modules:

- `Durations`: hrtime pairs and their conversion to nanoseconds.
- `Latency`: histograms, over an abstract bucket function.
- `Records`: resolver records and query entries.
- `Correlation`: the query table and the specification of record attachment.
- `Stats`: the store, the per-query update, trace sampling and their invariants.
- `Context`: the request, optics-context and agent objects, modelled as classes.
- `Report`: the imperative entry points, proved against `Correlation` and `Stats`.
- `Instrument`: the resolver wrapper, Promise completion, and schema and
  context set-up.

Collaborators whose code lies in files that are not part of this model are
parameters of the agent (`Stats.AgentConfig`):

- `normalizeQuery`.
- `normalizeVersion`, applied to the request headers.
- The TypeInfo walk, which gives the printed return type of each field of a
  query.
- The latency bucket function, `Latency.Bucketing` with `index` and `count`.
  Its one assumption is that every duration lands in one of `count` buckets.
  `addLatencyToBuckets` is modelled as adding one at that index.

The comments in dist/Instrument.js say that a resolver is not finished until
all the Promises it returns have completed (lines 98-99), and that an array of
Promises fires when the last one returns (line 154). The code uses
`Promise.all` (dist/Instrument.js:189-192), which finishes at the first
rejection: the run ends at once, with `error` set, while other Promises may
still be pending. The model follows the code. `Instrument.RejectionFinishes`
and `Instrument.FulfilledFinishes` state this behaviour.

## Model

| member | source | states |
|---|---|---|
| Durations.ToNanosFromNanos | dist/Report.js:87-89 | `s*1e9 + ns` inverts the split of a nanosecond count into seconds and nanoseconds |
| Durations.ToNanos | dist/Report.js:87-89 | durationHrTimeToNanos loses nothing on a normalised hrtime pair: the pair is recovered from its nanosecond value, so the conversion is injective on such pairs |
| Durations.ToNanosOrder | dist/Report.js:87-89 | the nanosecond value orders normalised pairs lexicographically (seconds, then nanoseconds) |
| Latency.NewHistogram | dist/Report.js:447 | a fresh histogram has one zero count per bucket |
| Latency.Add | dist/Report.js:477 | adding a duration raises exactly its bucket by one and leaves every other bucket unchanged |
| Latency.AddTotal | dist/Report.js:477 | adding a duration raises the histogram total by exactly one |
| Latency.AddGrows | dist/Report.js:503 | adding never lowers any bucket |
| Records.Complete | dist/Report.js:369-371 | the check before attachment: a record needs a resolver info with an operation, a field info, and both offsets |
| Correlation.FirstMatch | dist/Report.js:379-386 | finds the first entry of a token's list whose operation equals the record's; `None` exactly when no entry matches |
| Correlation.FirstMatchSameInfos | dist/Report.js:379-386 | the match depends only on the entries' query infos, not on the records already attached |
| Correlation.Attach | dist/Report.js:369-386 | attaching a record keeps the table well formed and keeps every token, entry and info |
| Correlation.AttachSpec | dist/Report.js:369-386 | a record is appended to exactly one entry, the first match under its token, and only if it is complete; every other entry is unchanged |
| Correlation.Correlated | dist/Report.js:367-401 | attaching every record keeps the table's shape |
| Correlation.CorrelatedSpec | dist/Report.js:367-401 | after correlation, each entry holds its old records followed by exactly the records that belong to it, in `resolverCalls` order |
| Correlation.AttachedForExactly | dist/Report.js:369-386 | a record is in an entry's attached list iff it is one of the request's records, it is complete, and that entry is the first match under its token |
| Correlation.AllEntriesComplete | dist/Report.js:405-409 | every entry folded at request end carries only complete records |
| Stats.NewFieldStats | dist/Report.js:421-453 | a new signature's field table has exactly the query's fields, each with its return type and an empty histogram |
| Stats.AddResolver | dist/Report.js:488-504 | one record adds `end - start` nanoseconds to its own field's histogram when that field is in the table; every other field, and a field missing from the table, is left as it was |
| Stats.AddResolvers | dist/Report.js:487-505 | adding resolver durations keeps the field table's keys: unknown fields are skipped, never created |
| Stats.AddResolversSpec | dist/Report.js:487-505 | each field's total rises by the number of attached records for that field, its return type is kept, and no bucket goes down |
| Stats.AddResolversBuckets | dist/Report.js:487-505 | bucket by bucket: each field's bucket `j` gains exactly one count per attached record of that field whose `end - start` nanoseconds fall in bucket `j` |
| Stats.RecordQuery | dist/Report.js:405-505 | the per-query update keeps, for each client, histogram total equal to the sum of its version counts |
| Stats.RecordQueryClient | dist/Report.js:457-484 | the query's client gains exactly one duration and one count for its version; other versions, clients and signatures are unchanged |
| Stats.RecordQueryFields | dist/Report.js:421-453 | a new signature gets the query's field table; a known signature keeps its table (never rebuilt); field totals rise by the count of attached records, and each bucket by the count of those records whose latency falls in it |
| Stats.RecordQueryGrows | dist/Report.js:421-505 | the update never drops a signature, client, field or version, never changes a return type, and never lowers a count |
| Stats.RecordQueryBucket | dist/Report.js:474-484 | exactly the query's client bucket goes up by one; every other bucket count is unchanged |
| Stats.Step | dist/Report.js:405-517 | one query step keeps the store valid |
| Stats.StepSamplesFirst | dist/Report.js:507-516 | a trace is scheduled iff `reportTraces` is set and the bucket held 0 before the query (equivalently 1 after it); traces are only appended, at most one per query, and the appended trace is this query's signature, client, duration, info and attached records |
| Stats.StepValid | dist/Report.js:405-517 | one query keeps every invariant: counts only grow, and at most one trace per client bucket per period |
| Stats.Aggregate | dist/Report.js:405-518 | folding a request's queries keeps the store valid |
| Stats.AggregateValid | dist/Report.js:405-518 | a whole request keeps every invariant, only grows the store and only appends traces |
| Stats.AggregateAppend | dist/Report.js:405-406 | folding the lists of the query Map one after another is folding their concatenation |
| Context.RequestContext.constructor | dist/Instrument.js:34-42 | preRequest: a fresh context with no resolver records, no queries and no agent |
| Report.RequestStart | dist/Report.js:293-326 | does nothing without a query or an agent; otherwise appends exactly one `{info, resolvers: []}` entry under the token, keeps earlier entries, and adds the token to the Map order only if it is new |
| Report.AttachRecord | dist/Report.js:378-386 | the for-of loop with `break` computes `Correlation.Attach` |
| Report.Correlate | dist/Report.js:367-401 | the `resolverCalls.forEach` loop computes `Correlation.Correlated` and leaves the records and the agent unchanged |
| Report.AddResolverLatencies | dist/Report.js:487-505 | the resolver loop computes `Stats.AddResolvers` |
| Report.RecordQuery | dist/Report.js:406-517 | one query's in-place update of `pendingResults` and the traces equals `Stats.Step` and keeps the agent's invariants |
| Report.RecordQueryList | dist/Report.js:406-517 | the inner `queryList.forEach` equals `Stats.Aggregate` over the list |
| Report.RecordQueries | dist/Report.js:405-518 | the outer `queries.forEach` folds every entry in Map insertion order, then list order |
| Report.RequestEnd | dist/Report.js:340-523 | does nothing without a context, queries or an agent; otherwise correlates the records and then folds every query into the store, with the request duration in nanoseconds |
| Instrument.Thenables | dist/Instrument.js:179-184 | a value is collected iff it is a thenable element of the array |
| Instrument.ThenablesFilter | dist/Instrument.js:179-184 | the collection is the order-preserving filter: it distributes over concatenation and keeps a single element iff it is a thenable, so each thenable element is collected once, in array order |
| Instrument.CollectThenables | dist/Instrument.js:178-184 | the `forEach` loop computes `Thenables` |
| Instrument.Advance | dist/Instrument.js:189-192 | one settlement under `Promise.all`: the Promise leaves the pending set; a rejection finishes the run; a fulfilment finishes an unfinished run iff no Promise remains pending |
| Instrument.AdvanceAllShape | dist/Instrument.js:131-134 | settlements only remove Promises from the pending set; a finished run stays finished |
| Instrument.AllSettledFinishes | dist/Instrument.js:186-192 | once every awaited Promise has settled, in any order, the run is finished |
| Instrument.FulfilledFinishes | dist/Instrument.js:163-171 | without a rejection, the run finishes iff every awaited Promise has fulfilled |
| Instrument.RejectionFinishes | dist/Instrument.js:189-192 | a rejection finishes the run at once (`Promise.all`) |
| Instrument.Indices | dist/Instrument.js:186-189 | a run awaiting n Promises waits on exactly n distinct Promise numbers |
| Instrument.DecoratedCall | dist/Instrument.js:104-213 | returns `fn`'s own outcome; without a context records nothing; otherwise appends exactly one record with start offset, field info, resolver info and context; sets `error` only on throw and `resultNull`/`resultUndefined` only for null/undefined; sets the end offset synchronously iff no Promise is awaited |
| Instrument.Settle | dist/Instrument.js:131-134 | a settlement advances the run as `Promise.all` does; the end offset (and, on rejection, `error`) is set once, when the run becomes finished; no other record changes |
| Instrument.DefaultResolve | dist/Instrument.js:226-238 | calls the source's method named after the field; yields the property's value, or undefined for a missing property or a non-object source; property access on null fails |
| Instrument.Wrap | dist/Instrument.js:259-264 | a field keeps its name and gets one decorateField layer around its resolver, or around the default resolver when it had none |
| Instrument.InstrumentSchema | dist/Instrument.js:247-277 | a second call changes nothing; the first marks the schema, installs the default resolver where none exists, wraps every field exactly once and adds the query hook |
| Instrument.QueryStart | dist/Instrument.js:268-274 | the per-query hook returns the root value and registers the query as `reportRequestStart` does |
| Instrument.NewContext | dist/Instrument.js:287-313 | reuses the request's context unchanged, or creates a fresh one as preRequest does; the agent is set either way |

## Left out

- `sendMessage`, `sendSchema`, `reportSchema`, `sendTrace`, `sendStatsReport` and `getTypesFromSchema` (dist/Report.js): HTTP, timers, protobuf construction and schema introspection. A sampled trace is modelled as an entry appended to the agent's trace list.
- `setImmediate` in `reportTrace` and `postRequest`: only the decision to send a trace is modelled, not when it runs. `postRequest`'s duration is the `duration` parameter of `Report.RequestEnd`.
- `dateToTimestamp` (dist/Report.js:92-94): floating-point arithmetic on a wall-clock `Date`.
- `process.hrtime` and `Date`: offsets and durations are inputs. Hrtime pairs are unbounded naturals, so the loss of precision past `Number.MAX_SAFE_INTEGER` nanoseconds is not modelled.
- Express and Hapi glue (`opticsMiddleware`, `instrumentHapiServer`, `onFinished`).
- Normalize.js (`latencyBucket`, `newLatencyBuckets`, `addLatencyToBuckets`, `printType`, `trimLatencyBuckets`) is not part of this model. The bucket function is the parameter `Latency.Bucketing`.
- Agent.js (`normalizeQuery`, `normalizeVersion`, the report-period swap of `pendingResults`) is not part of this model. The normalisers are parameters; a period is one value of the store.
- The GraphQL TypeInfo walk over the operation and its fragments (dist/Report.js:429-451) is an input: a map from field to printed return type.
- Plain-object key lookups in `pendingResults`, `perClient`, `perVersion` and `perField` (dist/Report.js:421, 458, 481) are modelled as maps with exact keys. Names inherited from `Object.prototype` are therefore not modelled. In the source, a client version such as "constructor" or "toString" skips the `= 0` initialisation, and `+= 1` at dist/Report.js:484 then stores a string rather than a count. A version "__proto__" is not stored at all. Such a client name leaves `clientObj.latencyBuckets` undefined, and the resulting failure is swallowed by the catch at dist/Report.js:519-522, so the request's remaining queries are not aggregated.
- The "no clientObj" branch and the `try`/`catch` logging in `reportRequestEnd`: neither can fire in the model. Console and `debugFn` logging are not modelled.
- Real Promise concurrency: a settlement is a discrete event applied to a pending run. A thenable that calls its callbacks more than once, or whose `then` throws, is not modelled. Neither is a thenable whose `then` returns a value without a `catch` method, as a Promises/A+ library may. For such a thenable, `.catch` throws at dist/Instrument.js:168 and the safety belt at dist/Instrument.js:208-211 swallows the error. Only the fulfilment callback is then registered, so a rejection never sets the record's end offset or `error`. The model treats every thenable as a Promise with `catch`.
- Object identity: a resolver record is a value in `resolverCalls`. Records attached to query entries are copies, so a record finished after `reportRequestEnd` is not reflected in the copy. The source has the same race, because records are attached only if already complete.
- Instrument.DefaultResolve: the method's own result is foreign code, so the model returns which method is called and not what it returns. The `typeof null === 'object'` case is a thrown TypeError.
- Instrument.QueryStart: a GraphQL context that is itself null or undefined, which makes the source throw on `ctx.opticsContext`, is not modelled.
- The graphql-sequelize `$proxy` property set on decorated resolvers (dist/Instrument.js:217) is not modelled.
