/**
  The metric snapshots the reporter reads, as plain values. The reporter owns none of
  them: each is a frozen read of one dropwizard metric, taken once per reporting cycle.
  Numeric readings are of an abstract type N (a Java long, double or float); the
  arithmetic and IEEE semantics behind them belong to the metrics library.
 */
module Metrics {

  /** A Java `long`. */
  type Long = x: int | -0x8000_0000_0000_0000 <= x < 0x8000_0000_0000_0000

  /** java.util.concurrent.TimeUnit, used for the configured rate and duration units. */
  datatype TimeUnit = NANOSECONDS | MICROSECONDS | MILLISECONDS | SECONDS | MINUTES | HOURS | DAYS

  /** What `Gauge.getValue()` returned: a `Number` (read through `floatValue()`) or any other object. */
  datatype GaugeValue<N> = Number(floatValue: N) | NotANumber

  /** A counter's monotonic count. */
  datatype Counter = Counter(count: Long)

  /** The ten statistics of a dropwizard `Snapshot`, as read by the reporter. */
  datatype Snapshot<N> = Snapshot(
    min: N, max: N, mean: N, stdDev: N, median: N,
    p75: N, p95: N, p98: N, p99: N, p999: N)

  /** A histogram, seen through its snapshot. */
  datatype Histogram<N> = Histogram(snapshot: Snapshot<N>)

  /** The `Metered` view shared by meters and timers: a count and four rates per second. */
  datatype Metered<N> = Metered(
    count: Long, meanRate: N, oneMinuteRate: N, fiveMinuteRate: N, fifteenMinuteRate: N)

  /** A timer: its call count and rates, plus the snapshot of its durations. */
  datatype Timer<N> = Timer(metered: Metered<N>, snapshot: Snapshot<N>)

  /** The entries of a `SortedMap<String, M>`, in iteration order. */
  type Entries<M> = seq<(string, M)>

  /** `String.compareTo(a, b) < 0`: char-wise comparison, a proper prefix comes first. */
  predicate LexLess(a: string, b: string)
  {
    if |a| == 0 then |b| > 0
    else if |b| == 0 then false
    else a[0] < b[0] || (a[0] == b[0] && LexLess(a[1..], b[1..]))
  }

  /** A `SortedMap` iterates its keys in strictly increasing order. */
  predicate IsSortedMap<M>(m: Entries<M>)
  {
    forall i, j :: 0 <= i < j < |m| ==> LexLess(m[i].0, m[j].0)
  }

  /** A key never precedes itself. */
  lemma {:induction false} LexLessIrreflexive(a: string)
    ensures !LexLess(a, a)
  {
    if |a| > 0 {
      LexLessIrreflexive(a[1..]);
    }
  }

  /** Putting the same prefix in front of two keys keeps their order. */
  lemma {:induction false} LexLessPrefix(p: string, a: string, b: string)
    requires LexLess(a, b)
    ensures LexLess(p + a, p + b)
  {
    if |p| > 0 {
      LexLessPrefix(p[1..], a, b);
      assert (p + a)[1..] == p[1..] + a;
      assert (p + b)[1..] == p[1..] + b;
    } else {
      assert p + a == a && p + b == b;
    }
  }

  /** No two entries share a key, as in any `Map`. */
  predicate DistinctKeys<M>(m: Entries<M>)
  {
    forall i, j :: 0 <= i < |m| && 0 <= j < |m| && i != j ==> m[i].0 != m[j].0
  }

  /** The keys of a sorted map are distinct. */
  lemma SortedMapKeysDistinct<M>(m: Entries<M>)
    requires IsSortedMap(m)
    ensures DistinctKeys(m)
  {
    forall i, j | 0 <= i < |m| && 0 <= j < |m| && i != j
      ensures m[i].0 != m[j].0
    {
      if i < j {
        LexLessIrreflexive(m[i].0);
      } else {
        LexLessIrreflexive(m[j].0);
      }
    }
  }
}
