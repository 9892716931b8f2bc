/**
 * Latency histograms. The bucket function, the empty histogram and the add
 * operation live in Normalize.js, which is not part of this model: the bucket
 * assignment is taken as a value (`Bucketing`) constrained only to yield a
 * valid bucket index, and a histogram is a sequence of per-bucket counts.
 */
module Latency {

  /** latencyBucket as a value: `count` buckets and the index of a duration. */
  datatype Bucketing = Bucketing(count: nat, index: int -> nat)

  /** Every duration lands in one of the buckets. */
  ghost predicate Valid(b: Bucketing) {
    b.count > 0 && forall n: int :: b.index(n) < b.count
  }

  type Histogram = seq<nat>

  /** newLatencyBuckets: every bucket empty. */
  function NewHistogram(count: nat): (h: Histogram)
    ensures |h| == count
    ensures forall i :: 0 <= i < count ==> h[i] == 0
  {
    seq(count, _ => 0)
  }

  /** The number of durations a histogram holds. */
  function Total(h: Histogram): nat {
    if |h| == 0 then 0 else Total(h[..|h| - 1]) + h[|h| - 1]
  }

  /** addLatencyToBuckets: the bucket of `nanos` goes up by one. */
  function Add(b: Bucketing, h: Histogram, nanos: int): (h': Histogram)
    requires Valid(b) && |h| == b.count
    ensures |h'| == |h|
    ensures h'[b.index(nanos)] == h[b.index(nanos)] + 1
    ensures forall i :: 0 <= i < |h| && i != b.index(nanos) ==> h'[i] == h[i]
  {
    h[b.index(nanos) := h[b.index(nanos)] + 1]
  }

  /** Each bucket of `h'` holds at least as much as the same bucket of `h`. */
  ghost predicate Below(h: Histogram, h': Histogram) {
    |h| == |h'| && forall i :: 0 <= i < |h| ==> h[i] <= h'[i]
  }

  lemma {:induction false} NewHistogramTotal(count: nat)
    ensures Total(NewHistogram(count)) == 0
  {
    if count > 0 {
      assert NewHistogram(count)[..count - 1] == NewHistogram(count - 1);
      NewHistogramTotal(count - 1);
    }
  }

  lemma {:induction false} UpdateTotal(h: Histogram, i: nat, v: nat)
    requires i < |h|
    ensures Total(h[i := v]) == Total(h) - h[i] + v
  {
    var n := |h|;
    if i == n - 1 {
      assert h[i := v][..n - 1] == h[..n - 1];
    } else {
      assert h[i := v][..n - 1] == h[..n - 1][i := v];
      UpdateTotal(h[..n - 1], i, v);
    }
  }

  /** The sum of the bucket counts equals the number of adds. */
  lemma AddTotal(b: Bucketing, h: Histogram, nanos: int)
    requires Valid(b) && |h| == b.count
    ensures Total(Add(b, h, nanos)) == Total(h) + 1
  {
    UpdateTotal(h, b.index(nanos), h[b.index(nanos)] + 1);
  }

  /** Counts are never decremented: an add only grows the histogram. */
  lemma AddGrows(b: Bucketing, h: Histogram, nanos: int)
    requires Valid(b) && |h| == b.count
    ensures Below(h, Add(b, h, nanos))
  {
  }

  lemma BelowTransitive(h1: Histogram, h2: Histogram, h3: Histogram)
    requires Below(h1, h2) && Below(h2, h3)
    ensures Below(h1, h3)
  {
  }
}
