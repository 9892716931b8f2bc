/**
 * Correlation of resolver records with the queries of one request
 * (dist/Report.js, reportRequestStart and the first half of reportRequestEnd).
 */
module Correlation {
  import opened Wrappers
  import opened Records

  /**
   * `context.queries`: a JavaScript Map from a GraphQL context token to the list
   * of query executions that used it. `order` is the Map's insertion order.
   */
  datatype QueryTable = QueryTable(order: seq<Token>, lists: map<Token, seq<QueryEntry>>)

  const Empty := QueryTable([], map[])

  /** `order` lists each key of `lists` exactly once. */
  ghost predicate WellFormed(t: QueryTable) {
    && (forall i, j :: 0 <= i < j < |t.order| ==> t.order[i] != t.order[j])
    && (forall k :: k in t.lists <==> k in t.order)
  }

  ghost predicate EntryComplete(e: QueryEntry) {
    forall r :: r in e.resolvers ==> Complete(r)
  }

  /** A well-formed table whose attached records all passed the completeness check. */
  ghost predicate Valid(t: QueryTable) {
    && WellFormed(t)
    && forall k, i :: k in t.lists && 0 <= i < |t.lists[k]| ==> EntryComplete(t.lists[k][i])
  }

  /** Two entry lists that describe the same queries, whatever is attached. */
  ghost predicate SameInfos(l: seq<QueryEntry>, l': seq<QueryEntry>) {
    |l| == |l'| && forall i :: 0 <= i < |l| ==> l[i].info == l'[i].info
  }

  /** Same keys, same order, same queries under every key. */
  ghost predicate SameShape(t: QueryTable, t': QueryTable) {
    && t'.order == t.order
    && t'.lists.Keys == t.lists.Keys
    && forall k :: k in t.lists ==> SameInfos(t.lists[k], t'.lists[k])
  }

  /** The position of the first entry whose operation is `op`, if any. */
  function FirstMatch(list: seq<QueryEntry>, op: OpId): (r: Option<nat>)
    ensures r.Some? ==> r.value < |list| && list[r.value].info.operation == op
    ensures r.Some? ==> forall j :: 0 <= j < r.value ==> list[j].info.operation != op
    ensures r.None? ==> forall j :: 0 <= j < |list| ==> list[j].info.operation != op
  {
    if |list| == 0 then None
    else if list[0].info.operation == op then Some(0)
    else
      match FirstMatch(list[1..], op)
      case None => None
      case Some(k) => Some(k + 1)
  }

  /** Only the operations of the entries decide the first match. */
  lemma FirstMatchSameInfos(l: seq<QueryEntry>, l': seq<QueryEntry>, op: OpId)
    requires SameInfos(l, l')
    ensures FirstMatch(l, op) == FirstMatch(l', op)
  {
    var a, b := FirstMatch(l, op), FirstMatch(l', op);
    if a.Some? {
      assert l[a.value].info == l'[a.value].info;
    }
    if b.Some? {
      assert l[b.value].info == l'[b.value].info;
    }
  }

  /** Record `r` goes to entry `k` of the list registered under `tok`. */
  predicate Belongs(r: ResolverRecord, tok: Token, list: seq<QueryEntry>, k: nat) {
    Complete(r) && r.resolverContext == tok && FirstMatch(list, Operation(r)) == Some(k)
  }

  /**
   * One step of the attachment loop: a complete record is pushed onto the
   * resolvers of the first entry under its token with the same operation;
   * an incomplete or unmatched record is dropped.
   */
  function Attach(t: QueryTable, r: ResolverRecord): (t': QueryTable)
    requires Valid(t)
    ensures Valid(t') && SameShape(t, t')
  {
    if !Complete(r) || r.resolverContext !in t.lists then t
    else
      var list := t.lists[r.resolverContext];
      match FirstMatch(list, Operation(r))
      case None => t
      case Some(k) =>
        var e := list[k].(resolvers := list[k].resolvers + [r]);
        var t' := t.(lists := t.lists[r.resolverContext := list[k := e]]);
        assert forall k, i :: k in t'.lists && 0 <= i < |t'.lists[k]| ==> EntryComplete(t'.lists[k][i]);
        t'
  }

  /** Attaching records in order: the table after the attachment loop. */
  function Correlated(t: QueryTable, rs: seq<ResolverRecord>): (t': QueryTable)
    requires Valid(t)
    ensures Valid(t') && SameShape(t, t')
    decreases |rs|
  {
    if |rs| == 0 then t else Attach(Correlated(t, rs[..|rs| - 1]), rs[|rs| - 1])
  }

  /** The records, in their original order, that belong to entry `k` under `tok`. */
  function AttachedFor(rs: seq<ResolverRecord>, tok: Token, list: seq<QueryEntry>, k: nat): seq<ResolverRecord>
    decreases |rs|
  {
    if |rs| == 0 then []
    else
      var r := rs[|rs| - 1];
      AttachedFor(rs[..|rs| - 1], tok, list, k) + (if Belongs(r, tok, list, k) then [r] else [])
  }

  /** A record is attached to an entry exactly when it belongs there. */
  lemma {:induction false} AttachedForExactly(rs: seq<ResolverRecord>, tok: Token, list: seq<QueryEntry>, k: nat)
    ensures forall r :: r in AttachedFor(rs, tok, list, k) <==> r in rs && Belongs(r, tok, list, k)
    decreases |rs|
  {
    if |rs| > 0 {
      var init := rs[..|rs| - 1];
      AttachedForExactly(init, tok, list, k);
      assert rs == init + [rs[|rs| - 1]];
    }
  }

  /** What one attachment step adds to each entry. */
  lemma AttachSpec(t: QueryTable, r: ResolverRecord)
    requires Valid(t)
    ensures forall tok, k :: tok in t.lists && 0 <= k < |t.lists[tok]| ==>
      Attach(t, r).lists[tok][k].resolvers ==
        t.lists[tok][k].resolvers + (if Belongs(r, tok, t.lists[tok], k) then [r] else [])
  {
  }

  /**
   * After correlation every entry holds what it held before, followed by
   * exactly the records that belong to it, in record order.
   */
  lemma {:induction false} CorrelatedSpec(t: QueryTable, rs: seq<ResolverRecord>)
    requires Valid(t)
    ensures forall tok, k :: tok in t.lists && 0 <= k < |t.lists[tok]| ==>
      Correlated(t, rs).lists[tok][k].resolvers ==
        t.lists[tok][k].resolvers + AttachedFor(rs, tok, t.lists[tok], k)
    decreases |rs|
  {
    if |rs| > 0 {
      var init, r := rs[..|rs| - 1], rs[|rs| - 1];
      var c := Correlated(t, init);
      CorrelatedSpec(t, init);
      AttachSpec(c, r);
      forall tok, k | tok in t.lists && 0 <= k < |t.lists[tok]|
        ensures Correlated(t, rs).lists[tok][k].resolvers ==
          t.lists[tok][k].resolvers + AttachedFor(rs, tok, t.lists[tok], k)
      {
        if Complete(r) {
          FirstMatchSameInfos(t.lists[tok], c.lists[tok], Operation(r));
        }
      }
    }
  }

  /** The queries of a table in Map iteration order, then list order. */
  function Entries(order: seq<Token>, lists: map<Token, seq<QueryEntry>>): seq<QueryEntry>
    requires forall k :: k in order ==> k in lists
    decreases |order|
  {
    if |order| == 0 then []
    else Entries(order[..|order| - 1], lists) + lists[order[|order| - 1]]
  }

  /** Every query the loop visits carries only complete records. */
  lemma {:induction false} EntriesComplete(t: QueryTable, n: nat)
    requires Valid(t) && n <= |t.order|
    ensures forall e :: e in Entries(t.order[..n], t.lists) ==> EntryComplete(e)
  {
    if n > 0 {
      EntriesComplete(t, n - 1);
      assert t.order[..n][..n - 1] == t.order[..n - 1];
      var last := t.lists[t.order[n - 1]];
      forall e | e in last ensures EntryComplete(e) {
        var i :| 0 <= i < |last| && last[i] == e;
      }
    }
  }

  lemma AllEntriesComplete(t: QueryTable)
    requires Valid(t)
    ensures forall e :: e in Entries(t.order, t.lists) ==> EntryComplete(e)
  {
    EntriesComplete(t, |t.order|);
    assert t.order[..|t.order|] == t.order;
  }
}
