/**
 The totals that a mailbox accumulates and that the scheduler merges.
 A histogram's nine bucket counters are a multiset of bucket indices.
 */
module Metrics {

  const UPPER_BOUNDS_NS: seq<nat> := [
    1_000, 10_000, 100_000, 1_000_000, 10_000_000, 100_000_000, 1_000_000_000, 10_000_000_000]

  datatype Histogram = Histogram(count: nat, totalNs: nat, maxNs: nat, buckets: multiset<nat>)

  const NoSamples := Histogram(0, 0, 0, multiset{})

  datatype Totals = Totals(
    completed: nat, failed: nat, cancelled: nat, yielded: nat, suspensions: nat,
    queueDelay: Histogram, resumeDuration: Histogram, latency: Histogram)

  const NoTotals := Totals(0, 0, 0, 0, 0, NoSamples, NoSamples, NoSamples)

  function Max(a: nat, b: nat): nat {
    if a < b then b else a
  }

  /** The bucket that the loop of `record_duration` stops at when it has reached index `from`. */
  function BucketFrom(elapsed: nat, from: nat): nat
    requires from <= |UPPER_BOUNDS_NS|
    decreases |UPPER_BOUNDS_NS| - from
  {
    if from < |UPPER_BOUNDS_NS| && elapsed > UPPER_BOUNDS_NS[from] then BucketFrom(elapsed, from + 1) else from
  }

  function Record(h: Histogram, elapsed: nat): Histogram {
    Histogram(h.count + 1, h.totalNs + elapsed, Max(h.maxNs, elapsed), h.buckets + multiset{BucketFrom(elapsed, 0)})
  }

  function MergeHistogram(a: Histogram, b: Histogram): Histogram {
    Histogram(a.count + b.count, a.totalNs + b.totalNs, Max(a.maxNs, b.maxNs), a.buckets + b.buckets)
  }

  /** `accumulate_mailbox_metrics`. */
  function Merge(a: Totals, b: Totals): Totals {
    Totals(a.completed + b.completed, a.failed + b.failed, a.cancelled + b.cancelled,
           a.yielded + b.yielded, a.suspensions + b.suspensions,
           MergeHistogram(a.queueDelay, b.queueDelay),
           MergeHistogram(a.resumeDuration, b.resumeDuration),
           MergeHistogram(a.latency, b.latency))
  }

  /** The number of invocations that a mailbox has finished, however they ended. */
  function Finished(t: Totals): nat {
    t.completed + t.failed + t.cancelled
  }

  lemma MergeLaws(a: Totals, b: Totals, c: Totals)
    ensures Merge(Merge(a, b), c) == Merge(a, Merge(b, c))
    ensures Merge(a, b) == Merge(b, a)
    ensures Merge(NoTotals, a) == a
  {
  }

  /** Merging adds everything up, and keeps the longer of the longest durations. */
  lemma MergeAdds(a: Totals, b: Totals)
    ensures var t := Merge(a, b);
            && t.completed == a.completed + b.completed && t.failed == a.failed + b.failed
            && t.cancelled == a.cancelled + b.cancelled
            && t.yielded == a.yielded + b.yielded && t.suspensions == a.suspensions + b.suspensions
            && Adds(a.queueDelay, b.queueDelay, t.queueDelay) && Adds(a.latency, b.latency, t.latency)
            && Adds(a.resumeDuration, b.resumeDuration, t.resumeDuration)
  {
  }

  predicate Adds(a: Histogram, b: Histogram, h: Histogram) {
    && h.count == a.count + b.count && h.totalNs == a.totalNs + b.totalNs && h.buckets == a.buckets + b.buckets
    && h.maxNs >= a.maxNs && h.maxNs >= b.maxNs && (h.maxNs == a.maxNs || h.maxNs == b.maxNs)
  }

  /** The sample lies above all bounds before bucket `b` and not above its own; the last bucket has no bound. */
  predicate Encloses(b: nat, elapsed: nat) {
    && b <= |UPPER_BOUNDS_NS|
    && (forall i | 0 <= i < b :: UPPER_BOUNDS_NS[i] < elapsed)
    && (b < |UPPER_BOUNDS_NS| ==> elapsed <= UPPER_BOUNDS_NS[b])
  }

  /** Every sample falls in the one bucket whose bounds enclose it. */
  lemma BucketEncloses(elapsed: nat)
    ensures forall b: nat :: Encloses(b, elapsed) <==> b == BucketFrom(elapsed, 0)
  {
    BucketEnclosesFrom(elapsed, 0);
  }

  lemma {:induction false} BucketEnclosesFrom(elapsed: nat, from: nat)
    requires from <= |UPPER_BOUNDS_NS|
    requires forall i | 0 <= i < from :: UPPER_BOUNDS_NS[i] < elapsed
    ensures Encloses(BucketFrom(elapsed, from), elapsed)
    decreases |UPPER_BOUNDS_NS| - from
  {
    if from < |UPPER_BOUNDS_NS| && elapsed > UPPER_BOUNDS_NS[from] {
      BucketEnclosesFrom(elapsed, from + 1);
    }
  }
}
