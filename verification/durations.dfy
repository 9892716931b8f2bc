/**
 * Durations as the agent receives them from `process.hrtime`: a pair of
 * whole seconds and nanoseconds (dist/Report.js, durationHrTimeToNanos).
 */
module Durations {

  const NanosPerSecond: nat := 1_000_000_000

  /** An hrtime delta `[seconds, nanoseconds]`. */
  datatype HrTime = HrTime(seconds: nat, nanos: nat)

  /** `process.hrtime` always yields a nanosecond part below one second. */
  predicate Normal(t: HrTime) {
    t.nanos < NanosPerSecond
  }

  /**
   * durationHrTimeToNanos: `seconds * 1e9 + nanoseconds`. On normal pairs the
   * conversion loses nothing: the pair is recovered from the count.
   */
  function ToNanos(t: HrTime): (n: nat)
    ensures Normal(t) ==> FromNanos(n) == t
  {
    var n := t.seconds * NanosPerSecond + t.nanos;
    if Normal(t) then DivModUnique(n, t.seconds, t.nanos); n else n
  }

  /** The normal hrtime pair denoting a nanosecond count. */
  function FromNanos(n: nat): (t: HrTime)
    ensures Normal(t)
  {
    HrTime(n / NanosPerSecond, n % NanosPerSecond)
  }

  /** Every nanosecond count has an hrtime pair that converts back to it. */
  lemma ToNanosFromNanos(n: nat)
    ensures ToNanos(FromNanos(n)) == n
  {
  }

  /** On normal pairs the nanosecond count orders durations lexicographically. */
  lemma ToNanosOrder(a: HrTime, b: HrTime)
    requires Normal(a) && Normal(b)
    ensures ToNanos(a) <= ToNanos(b) <==>
            a.seconds < b.seconds || (a.seconds == b.seconds && a.nanos <= b.nanos)
  {
    if a.seconds < b.seconds {
      MulMonotone(a.seconds + 1, b.seconds);
    } else if b.seconds < a.seconds {
      MulMonotone(b.seconds + 1, a.seconds);
    }
  }

  lemma MulMonotone(x: nat, y: nat)
    requires x <= y
    ensures x * NanosPerSecond <= y * NanosPerSecond
  {
  }

  lemma DivModUnique(n: nat, q: nat, r: nat)
    requires r < NanosPerSecond && n == q * NanosPerSecond + r
    ensures n / NanosPerSecond == q && n % NanosPerSecond == r
  {
  }
}
