/**
 * The resolver wrapper and the schema instrumentation of dist/Instrument.js:
 * decorateField, defaultResolveFn, instrumentSchema and newContext.
 */
module Instrument {
  import opened Wrappers
  import opened Durations
  import opened Records
  import opened Context
  import Report
  import Correlation

  /** A resolver's result, as far as the wrapper inspects it. */
  datatype Value =
    | Null
    | Undefined
    | Thenable(id: nat)        // a value whose `then` is a function
    | List(items: seq<Value>)  // an array
    | Plain(id: nat)           // anything else: string, number, object without `then`

  /** What the wrapped resolver `fn` did: return a value or throw. */
  datatype Outcome = Returned(value: Value) | Threw(error: nat)

  // ---------------------------------------------------------------------
  // Classifying the result

  /** The thenable elements of an array, in order (nested arrays are not searched). */
  function Thenables(items: seq<Value>): (ps: seq<Value>)
    ensures forall v :: v in ps <==> v in items && v.Thenable?
    ensures |ps| <= |items|
    decreases |items|
  {
    if |items| == 0 then []
    else
      var last := items[|items| - 1];
      assert items == items[..|items| - 1] + [last];
      Thenables(items[..|items| - 1]) + (if last.Thenable? then [last] else [])
  }

  /**
   * `Thenables` is the order-preserving filter: it distributes over
   * concatenation and keeps a single element exactly when it is a thenable, so
   * every thenable element is collected once, in array order.
   */
  lemma {:induction false} ThenablesFilter(a: seq<Value>, b: seq<Value>, v: Value)
    ensures Thenables(a + b) == Thenables(a) + Thenables(b)
    ensures Thenables([v]) == if v.Thenable? then [v] else []
  {
    ThenablesConcat(a, b);
    assert [v][..0] == [];
  }

  lemma {:induction false} ThenablesConcat(a: seq<Value>, b: seq<Value>)
    ensures Thenables(a + b) == Thenables(a) + Thenables(b)
    decreases |b|
  {
    if |b| == 0 {
      assert a + b == a;
    } else {
      var init, last := b[..|b| - 1], b[|b| - 1];
      var tail := if last.Thenable? then [last] else [];
      ThenablesConcat(a, init);
      assert (a + b)[..|a + b| - 1] == a + init;
      assert (a + b)[|a + b| - 1] == last;
      calc {
        Thenables(a + b);
        Thenables(a + init) + tail;
        Thenables(a) + Thenables(init) + tail;
        Thenables(a) + (Thenables(init) + tail);
        Thenables(a) + Thenables(b);
      }
    }
  }

  /** The `forEach` that collects the Promises found in an array result. */
  method CollectThenables(items: seq<Value>) returns (promises: seq<Value>)
    ensures promises == Thenables(items)
  {
    promises := [];
    var i := 0;
    while i < |items|
      invariant 0 <= i <= |items|
      invariant promises == Thenables(items[..i])
    {
      assert items[..i + 1][..i] == items[..i];
      if items[i].Thenable? {
        promises := promises + [items[i]];
      }
      i := i + 1;
    }
    assert items[..i] == items;
  }

  /** How many Promises the wrapper waits for before the run counts as finished. */
  function Awaited(outcome: Outcome): nat {
    match outcome
    case Returned(Thenable(_)) => 1
    case Returned(List(items)) => |Thenables(items)|
    case _ => 0
  }

  // ---------------------------------------------------------------------
  // Completion of a run that waits for Promises

  /**
   * A run waiting for Promises: the index of its record in `resolverCalls`,
   * the Promises (numbered from 0) that have not settled, and whether
   * finishRun has happened. A single thenable is waited for like an array of
   * one (`then(finishRun).catch(...)` behaves as Promise.all of one).
   */
  datatype Completion = Completion(record: nat, unsettled: set<nat>, done: bool)

  /** A Promise of the result settling. Each Promise settles at most once. */
  datatype Settlement = Fulfilled(promise: nat) | Rejected(promise: nat)

  /** A waiting run is finished, or still has a Promise to wait for. */
  predicate Live(c: Completion) {
    c.done || c.unsettled != {}
  }

  /** Promise.all: finished at the first rejection or once every Promise has fulfilled. */
  function Advance(c: Completion, ev: Settlement): (c': Completion)
    ensures c'.record == c.record && c'.unsettled == c.unsettled - {ev.promise}
    ensures Live(c')
    ensures c.done || ev.Rejected? ==> c'.done
    ensures !c.done && ev.Fulfilled? ==> (c'.done <==> c'.unsettled == {})
  {
    var rest := c.unsettled - {ev.promise};
    Completion(c.record, rest, c.done || ev.Rejected? || rest == {})
  }

  /** A sequence of settlements, in the order they happen. */
  function AdvanceAll(c: Completion, evs: seq<Settlement>): Completion
    decreases |evs|
  {
    if |evs| == 0 then c else Advance(AdvanceAll(c, evs[..|evs| - 1]), evs[|evs| - 1])
  }

  function Settled(evs: seq<Settlement>): set<nat>
    decreases |evs|
  {
    if |evs| == 0 then {} else Settled(evs[..|evs| - 1]) + {evs[|evs| - 1].promise}
  }

  /** Settlements only remove Promises; a finished run stays finished and stays live. */
  lemma {:induction false} AdvanceAllShape(c: Completion, evs: seq<Settlement>)
    requires Live(c)
    ensures var c' := AdvanceAll(c, evs);
      && c'.record == c.record
      && c'.unsettled == c.unsettled - Settled(evs)
      && (c.done ==> c'.done)
      && Live(c')
    decreases |evs|
  {
    if |evs| > 0 {
      AdvanceAllShape(c, evs[..|evs| - 1]);
    }
  }

  /** Whatever the order, once every awaited Promise has settled the run is finished. */
  lemma AllSettledFinishes(c: Completion, evs: seq<Settlement>)
    requires Live(c)
    requires c.unsettled <= Settled(evs)
    ensures AdvanceAll(c, evs).done
  {
    AdvanceAllShape(c, evs);
  }

  /**
   * Without a rejection, the run finishes exactly when every awaited Promise
   * has fulfilled: never before.
   */
  lemma {:induction false} FulfilledFinishes(c: Completion, evs: seq<Settlement>)
    requires Live(c) && !c.done
    requires forall i :: 0 <= i < |evs| ==> evs[i].Fulfilled?
    ensures AdvanceAll(c, evs).done <==> c.unsettled <= Settled(evs)
    decreases |evs|
  {
    if |evs| > 0 {
      var init := evs[..|evs| - 1];
      FulfilledFinishes(c, init);
      AdvanceAllShape(c, init);
    }
  }

  /** A rejection finishes the run at once. */
  lemma {:induction false} RejectionFinishes(c: Completion, evs: seq<Settlement>, k: nat)
    requires Live(c)
    requires k < |evs| && evs[k].Rejected?
    ensures AdvanceAll(c, evs).done
    decreases |evs|
  {
    if k == |evs| - 1 {
    } else {
      RejectionFinishes(c, evs[..|evs| - 1], k);
      AdvanceAllShape(c, evs[..|evs| - 1]);
    }
  }

  /** The record of a waiting run has an end offset exactly when the run is finished. */
  ghost predicate Tracks(optics: RequestContext, c: Completion)
    reads optics
  {
    && c.record < |optics.resolverCalls|
    && (optics.resolverCalls[c.record].endOffset.Some? <==> c.done)
    && Live(c)
  }

  // ---------------------------------------------------------------------
  // The wrapped resolver

  /**
   * The resolver decorateField returns, called with `fn`'s outcome. Offsets
   * are the hrtime readings before `fn` runs (`start`) and when the run
   * finishes synchronously (`finish`). Without an optics context the call is
   * passed through; otherwise exactly one record is appended and its end
   * offset is set now, or later by `Settle` when `pending` is returned.
   * The value returned (or the exception rethrown) is always `fn`'s own.
   */
  method DecoratedCall(fieldInfo: Option<FieldKey>, optics: RequestContext?, token: Token, info: Option<ResolverInfo>,
                       outcome: Outcome, start: HrTime, finish: HrTime)
    returns (result: Outcome, pending: Option<Completion>)
    modifies optics
    ensures result == outcome
    ensures optics == null ==> pending.None?
    ensures optics != null ==>
      var n := |old(optics.resolverCalls)|;
      && optics.agent == old(optics.agent)
      && optics.queries == old(optics.queries)
      && |optics.resolverCalls| == n + 1
      && optics.resolverCalls[..n] == old(optics.resolverCalls)
      && var r := optics.resolverCalls[n];
         && r.startOffset == Some(start)
         && r.fieldInfo == fieldInfo
         && r.resolverInfo == info
         && r.resolverContext == token
         && r.error == outcome.Threw?
         && r.resultNull == (outcome == Returned(Null))
         && r.resultUndefined == (outcome == Returned(Undefined))
         && (pending.None? <==> Awaited(outcome) == 0)
         && (pending.None? ==> r.endOffset == Some(finish))
         && (pending.Some? ==>
               && r.endOffset.None?
               && pending.value.record == n
               && !pending.value.done
               && |pending.value.unsettled| == Awaited(outcome)
               && Tracks(optics, pending.value))
  {
    result := outcome;
    pending := None;
    if optics == null {
      return;
    }
    var index := |optics.resolverCalls|;
    var record := ResolverRecord(Some(start), None, fieldInfo, info, token, false, false, false);
    optics.resolverCalls := optics.resolverCalls + [record];

    if outcome.Threw? {
      record := record.(error := true, endOffset := Some(finish));
      optics.resolverCalls := optics.resolverCalls[index := record];
      return;
    }
    var value := outcome.value;
    if value.Null? {
      record := record.(resultNull := true);
    } else if value.Undefined? {
      record := record.(resultUndefined := true);
    } else if value.Thenable? {
      pending := Some(Completion(index, {0}, false));
      return;
    } else if value.List? {
      var promises := CollectThenables(value.items);
      if |promises| > 0 {
        pending := Some(Completion(index, Indices(|promises|), false));
        return;
      }
    }
    record := record.(endOffset := Some(finish));
    optics.resolverCalls := optics.resolverCalls[index := record];
  }

  /** The Promise numbers 0 .. n-1 of an array result with n thenables. */
  function Indices(n: nat): (r: set<nat>)
    ensures |r| == n
    ensures forall i: nat :: i in r <==> i < n
  {
    if n == 0 then {} else Indices(n - 1) + {n - 1}
  }

  /**
   * A Promise of a waiting run settles. finishRun happens at most once: the
   * record gets its end offset (and, for a rejection, the error flag) only when
   * the run becomes finished, and no other record changes.
   */
  method Settle(optics: RequestContext, c: Completion, ev: Settlement, now: HrTime) returns (c': Completion)
    requires Tracks(optics, c)
    requires ev.promise in c.unsettled
    modifies optics
    ensures c' == Advance(c, ev) && Tracks(optics, c')
    ensures optics.agent == old(optics.agent) && optics.queries == old(optics.queries)
    ensures |optics.resolverCalls| == |old(optics.resolverCalls)|
    ensures forall i :: 0 <= i < |optics.resolverCalls| && i != c.record ==>
      optics.resolverCalls[i] == old(optics.resolverCalls[i])
    ensures !c.done && c'.done ==>
      optics.resolverCalls[c.record] ==
        old(optics.resolverCalls[c.record]).(endOffset := Some(now), error := old(optics.resolverCalls[c.record]).error || ev.Rejected?)
    ensures c.done || !c'.done ==> optics.resolverCalls == old(optics.resolverCalls)
  {
    c' := Advance(c, ev);
    if !c.done && c'.done {
      var r := optics.resolverCalls[c.record];
      if ev.Rejected? {
        r := r.(error := true);
      }
      optics.resolverCalls := optics.resolverCalls[c.record := r.(endOffset := Some(now))];
    }
  }

  // ---------------------------------------------------------------------
  // defaultResolveFn

  /** A property of the source object: a method or a plain value. */
  datatype Property = Method(id: nat) | Data(value: Value)

  /** The `source` a resolver receives, by its `typeof`. */
  datatype Source =
    | SourceUndefined
    | SourceNull                             // typeof null is 'object'
    | Primitive                              // string, number, boolean
    | Object(props: map<string, Property>)   // object or function

  /** What defaultResolveFn does: call a method of the source, yield a value, or fail. */
  datatype Resolution = Call(methodId: nat) | Yield(value: Value) | TypeError

  /**
   * defaultResolveFn: the property named after the field, called when it is a
   * function. Property access on `null` throws, as in the source.
   */
  function DefaultResolve(source: Source, fieldName: string): (r: Resolution)
    ensures r.Call? <==> source.Object? && fieldName in source.props && source.props[fieldName].Method?
    ensures r.Call? ==> source.props[fieldName] == Method(r.methodId)
    ensures r.TypeError? <==> source.SourceNull?
    ensures r.Yield? && r.value != Undefined ==> source.Object? && fieldName in source.props && source.props[fieldName] == Data(r.value)
    ensures source.Object? && fieldName in source.props && source.props[fieldName].Data? ==>
      r == Yield(source.props[fieldName].value)
  {
    match source
    case SourceNull => TypeError
    case Object(props) =>
      if fieldName !in props then Yield(Undefined)
      else (match props[fieldName]
            case Method(id) => Call(id)
            case Data(v) => Yield(v))
    case _ => Yield(Undefined)
  }

  // ---------------------------------------------------------------------
  // instrumentSchema

  /** A field's `resolve`: graphql-js's default, the application's, or a wrapped one. */
  datatype Resolver = DefaultResolver | UserResolver(id: nat) | Decorated(inner: Resolver, field: FieldKey)

  datatype FieldDef = FieldDef(key: FieldKey, resolve: Option<Resolver>)

  /** The executable schema, with the marker and the resolvers instrumentSchema sets. */
  class Schema {
    var instrumented: bool
    var fields: seq<FieldDef>
    /** Whether the schema-level resolve function (QueryStart) is installed. */
    var queryHook: bool

    constructor (fields: seq<FieldDef>)
      ensures !instrumented && !queryHook && this.fields == fields
    {
      instrumented := false;
      this.fields := fields;
      queryHook := false;
    }
  }

  /** How many decorateField layers a resolver carries. */
  function Layers(r: Resolver): nat {
    if r.Decorated? then Layers(r.inner) + 1 else 0
  }

  /** One field after instrumentation: its resolver, or the default one, decorated once. */
  function Wrap(f: FieldDef): (g: FieldDef)
    ensures g.key == f.key && g.resolve.Some?
    ensures g.resolve.value == Decorated(if f.resolve.Some? then f.resolve.value else DefaultResolver, f.key)
    ensures Layers(g.resolve.value) == Layers(f.resolve.GetOr(DefaultResolver)) + 1
  {
    FieldDef(f.key, Some(Decorated(f.resolve.GetOr(DefaultResolver), f.key)))
  }

  /**
   * instrumentSchema: the first call marks the schema, decorates every field's
   * resolver exactly once (installing the default where there is none) and
   * adds the per-query hook; any later call returns the schema untouched.
   */
  method InstrumentSchema(schema: Schema) returns (r: Schema)
    modifies schema
    ensures r == schema
    ensures old(schema.instrumented) ==> unchanged(schema)
    ensures !old(schema.instrumented) ==>
      && schema.instrumented && schema.queryHook
      && |schema.fields| == |old(schema.fields)|
      && forall i :: 0 <= i < |schema.fields| ==> schema.fields[i] == Wrap(old(schema.fields[i]))
  {
    r := schema;
    if schema.instrumented {
      return;
    }
    schema.instrumented := true;
    var fields := schema.fields;
    var i := 0;
    while i < |fields|
      invariant 0 <= i <= |fields|
      invariant schema.instrumented && |schema.fields| == |fields|
      invariant forall j :: 0 <= j < i ==> schema.fields[j] == Wrap(fields[j])
      invariant forall j :: i <= j < |fields| ==> schema.fields[j] == fields[j]
    {
      var field := schema.fields[i];
      if field.resolve.None? {
        field := field.(resolve := Some(DefaultResolver));
      }
      field := field.(resolve := Some(Decorated(field.resolve.value, field.key)));
      schema.fields := schema.fields[i := field];
      i := i + 1;
    }
    schema.queryHook := true;
  }

  /**
   * The schema-level resolve function instrumentSchema adds: registers the
   * query with reportRequestStart when the GraphQL context carries an optics
   * context, and passes the root value through.
   */
  method QueryStart(optics: RequestContext?, info: QueryInfo, token: Token, root: Value) returns (r: Value)
    requires optics != null ==> optics.Valid()
    modifies optics
    ensures r == root
    ensures optics != null ==> optics.Valid()
    ensures optics != null && old(optics.agent) == null ==> unchanged(optics)
    ensures optics != null && old(optics.agent) != null ==>
      var before := old(optics.queries).GetOr(Correlation.Empty);
      var earlier := if token in before.lists then before.lists[token] else [];
      && optics.agent == old(optics.agent)
      && optics.resolverCalls == old(optics.resolverCalls)
      && optics.queries.Some?
      && optics.queries.value.lists == before.lists[token := earlier + [QueryEntry(info, [])]]
      && optics.queries.value.order == before.order + (if token in before.lists then [] else [token])
  {
    if optics != null {
      Report.RequestStart(optics, Some(info), token);
    }
    r := root;
  }

  // ---------------------------------------------------------------------
  // newContext

  /**
   * newContext: the request's optics context, created as preRequest would if
   * the middleware did not run, with `agent` set.
   */
  method NewContext(req: Request, agent: Agent) returns (c: RequestContext)
    requires req.opticsContext != null ==> req.opticsContext.Valid()
    modifies req, req.opticsContext
    ensures req.opticsContext == c && c.agent == agent && c.Valid()
    ensures old(req.opticsContext) != null ==>
      c == old(req.opticsContext) && c.queries == old(c.queries) && c.resolverCalls == old(c.resolverCalls)
    ensures old(req.opticsContext) == null ==> fresh(c) && c.queries.None? && c.resolverCalls == []
  {
    if req.opticsContext == null {
      req.opticsContext := new RequestContext();
    }
    c := req.opticsContext;
    c.agent := agent;
  }
}
