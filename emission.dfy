/**
  The record-emission scheme of AppInsightsReporter.report, as pure functions: the
  sequence of (name, value) pairs that one report hands to the telemetry client, and
  what that sequence looks like — how many records each metric kind yields, under
  which keys, with which converted values, and in which order.
 */
module Emission {
  import opened Metrics
  import opened SeqUtil

  /**
    What the ScheduledReporter base class derives from the configured units. The base
    class is not part of this model, so its unit names and conversions are uninterpreted.
   */
  datatype ScheduledBase<!N> = ScheduledBase(
    rateUnitName: TimeUnit -> string,       // getRateUnit()
    durationUnitName: TimeUnit -> string,   // getDurationUnit()
    convertRate: (TimeUnit, N) -> N,        // convertRate(rate)
    convertDuration: (TimeUnit, N) -> N)    // convertDuration(duration)

  /** Java's numeric conversions and float tests, uninterpreted. */
  datatype JavaFloat<!N> = JavaFloat(
    narrow: N -> N,          // the (float) cast of a double
    ofLong: Long -> N,       // the implicit widening of a long argument to float
    isNaN: N -> bool,        // Float.isNaN
    isInfinite: N -> bool)   // Float.isInfinite

  /** The reporter's final configuration: its name prefix, its units, and the base class behind them. */
  datatype Settings<!N> = Settings(
    metricNamePrefix: string,
    rateUnit: TimeUnit,
    durationUnit: TimeUnit,
    base: ScheduledBase<N>,
    floats: JavaFloat<N>)
  {
    function RateUnit(): string { base.rateUnitName(rateUnit) }

    function DurationUnit(): string { base.durationUnitName(durationUnit) }

    /** `(float) convertRate(x)` */
    function Rate(x: N): N { floats.narrow(base.convertRate(rateUnit, x)) }

    /** `(float) convertDuration(x)` */
    function Duration(x: N): N { floats.narrow(base.convertDuration(durationUnit, x)) }

    /** What `record(name, value)` hands to the telemetry client. */
    function Sent(name: string, value: N): (string, N) { (metricNamePrefix + name, value) }
  }

  type TrackedMetric<N> = (string, N)

  /** `s` names something under `p`. */
  predicate NamedUnder(p: string, s: string)
  {
    |p| <= |s| && s[..|p|] == p
  }

  lemma NamedUnderAppend(p: string, x: string)
    ensures NamedUnder(p, p + x)
  {
    assert (p + x)[..|p|] == p;
  }

  // ---------------------------------------------------------------- gauges

  /** A gauge is reported when its value is a Number whose float is neither NaN nor infinite. */
  predicate Reportable<N>(floats: JavaFloat<N>, g: GaugeValue<N>)
  {
    g.Number? && !floats.isNaN(g.floatValue) && !floats.isInfinite(g.floatValue)
  }

  /** doGauge: one record under the gauge's bare name, or none. */
  function GaugeRecords<N>(st: Settings<N>, name: string, g: GaugeValue<N>): (r: seq<TrackedMetric<N>>)
    ensures Reportable(st.floats, g) ==> r == [(st.metricNamePrefix + name, g.floatValue)]
    ensures !Reportable(st.floats, g) ==> r == []
  {
    match g
    case Number(n) =>
      if !st.floats.isNaN(n) && !st.floats.isInfinite(n) then [st.Sent(name, n)] else []
    case NotANumber => []
  }

  /** How many of the gauges are reported. */
  function ReportableCount<N>(floats: JavaFloat<N>, gauges: Entries<GaugeValue<N>>): (r: nat)
    ensures r <= |gauges|
  {
    if gauges == [] then 0
    else (if Reportable(floats, gauges[0].1) then 1 else 0) + ReportableCount(floats, gauges[1..])
  }

  // ---------------------------------------------------------------- counters

  /** The counter loop of report: one `/count` record. */
  function CounterRecords<N>(st: Settings<N>, name: string, c: Counter): (r: seq<TrackedMetric<N>>)
    ensures |r| == 1
  {
    [st.Sent(name + "/count", st.floats.ofLong(c.count))]
  }

  // ---------------------------------------------------------------- meters

  /** The keys of the four rates, each followed by the rate unit. */
  const RateKeys: seq<string> := ["/meanRate/", "/1MinuteRate/", "/5MinuteRate/", "/15MinuteRate/"]

  /** The rate that goes with `RateKeys[j]`. */
  function RateAt<N>(m: Metered<N>, j: nat): N
    requires j < 4
  {
    match j
    case 0 => m.meanRate
    case 1 => m.oneMinuteRate
    case 2 => m.fiveMinuteRate
    case 3 => m.fifteenMinuteRate
  }

  /** Record `j` of a metered metric, by table: the raw count, then the four converted rates. */
  function MeteredItem<N>(st: Settings<N>, name: string, m: Metered<N>, j: nat): TrackedMetric<N>
    requires j < 5
  {
    if j == 0 then st.Sent(name + "/count", st.floats.ofLong(m.count))
    else st.Sent(name + RateKeys[j - 1] + st.RateUnit(), st.Rate(RateAt(m, j - 1)))
  }

  /** doMetered, as written: five records. */
  function MeteredRecords<N>(st: Settings<N>, name: string, m: Metered<N>): (r: seq<TrackedMetric<N>>)
    ensures |r| == 5
  {
    [ st.Sent(name + "/count", st.floats.ofLong(m.count)),
      st.Sent(name + "/meanRate/" + st.RateUnit(), st.Rate(m.meanRate)),
      st.Sent(name + "/1MinuteRate/" + st.RateUnit(), st.Rate(m.oneMinuteRate)),
      st.Sent(name + "/5MinuteRate/" + st.RateUnit(), st.Rate(m.fiveMinuteRate)),
      st.Sent(name + "/15MinuteRate/" + st.RateUnit(), st.Rate(m.fifteenMinuteRate)) ]
  }

  /** doMetered agrees with the table, record by record. */
  lemma MeteredRecordAt<N>(st: Settings<N>, name: string, m: Metered<N>, j: nat)
    requires j < 5
    ensures MeteredRecords(st, name, m)[j] == MeteredItem(st, name, m, j)
  {
    var r := MeteredRecords(st, name, m);
    if j == 0 {
    } else if j == 1 {
      assert name + "/meanRate/" + st.RateUnit() == name + RateKeys[0] + st.RateUnit();
    } else if j == 2 {
      assert name + "/1MinuteRate/" + st.RateUnit() == name + RateKeys[1] + st.RateUnit();
    } else if j == 3 {
      assert name + "/5MinuteRate/" + st.RateUnit() == name + RateKeys[2] + st.RateUnit();
    } else {
      assert name + "/15MinuteRate/" + st.RateUnit() == name + RateKeys[3] + st.RateUnit();
    }
  }

  // ---------------------------------------------------------------- snapshots

  /** The keys of the ten snapshot statistics. */
  const SnapshotKeys: seq<string> :=
    ["/min", "/max", "/mean", "/stdDev", "/median", "/75th", "/95th", "/98th", "/99th", "/99.9th"]

  /** The statistic that goes with `SnapshotKeys[j]`. */
  function StatAt<N>(s: Snapshot<N>, j: nat): N
    requires j < 10
  {
    match j
    case 0 => s.min
    case 1 => s.max
    case 2 => s.mean
    case 3 => s.stdDev
    case 4 => s.median
    case 5 => s.p75
    case 6 => s.p95
    case 7 => s.p98
    case 8 => s.p99
    case 9 => s.p999
  }

  /** Record `j` of a snapshot, by table: key, then `nameSuffix`, and the converted duration. */
  function SnapshotItem<N>(st: Settings<N>, name: string, s: Snapshot<N>, nameSuffix: string, j: nat): TrackedMetric<N>
    requires j < 10
  {
    st.Sent(name + SnapshotKeys[j] + nameSuffix, st.Duration(StatAt(s, j)))
  }

  /** doHistogramSnapshot, as written: ten records, no unit in the keys. */
  function HistogramRecords<N>(st: Settings<N>, name: string, h: Histogram<N>): (r: seq<TrackedMetric<N>>)
    ensures |r| == 10
  {
    var s := h.snapshot;
    [ st.Sent(name + "/min", st.Duration(s.min)),
      st.Sent(name + "/max", st.Duration(s.max)),
      st.Sent(name + "/mean", st.Duration(s.mean)),
      st.Sent(name + "/stdDev", st.Duration(s.stdDev)),
      st.Sent(name + "/median", st.Duration(s.median)),
      st.Sent(name + "/75th", st.Duration(s.p75)),
      st.Sent(name + "/95th", st.Duration(s.p95)),
      st.Sent(name + "/98th", st.Duration(s.p98)),
      st.Sent(name + "/99th", st.Duration(s.p99)),
      st.Sent(name + "/99.9th", st.Duration(s.p999)) ]
  }

  /** doTimerSnapshot, as written: ten records, each key ending in "/" and the duration unit. */
  function TimerSnapshotRecords<N>(st: Settings<N>, name: string, s: Snapshot<N>): (r: seq<TrackedMetric<N>>)
    ensures |r| == 10
  {
    var nameSuffix := "/" + st.DurationUnit();
    [ st.Sent(name + "/min" + nameSuffix, st.Duration(s.min)),
      st.Sent(name + "/max" + nameSuffix, st.Duration(s.max)),
      st.Sent(name + "/mean" + nameSuffix, st.Duration(s.mean)),
      st.Sent(name + "/stdDev" + nameSuffix, st.Duration(s.stdDev)),
      st.Sent(name + "/median" + nameSuffix, st.Duration(s.median)),
      st.Sent(name + "/75th" + nameSuffix, st.Duration(s.p75)),
      st.Sent(name + "/95th" + nameSuffix, st.Duration(s.p95)),
      st.Sent(name + "/98th" + nameSuffix, st.Duration(s.p98)),
      st.Sent(name + "/99th" + nameSuffix, st.Duration(s.p99)),
      st.Sent(name + "/99.9th" + nameSuffix, st.Duration(s.p999)) ]
  }

  /** doHistogramSnapshot agrees with the table, with an empty suffix. */
  lemma HistogramRecordAt<N>(st: Settings<N>, name: string, h: Histogram<N>, j: nat)
    requires j < 10
    ensures HistogramRecords(st, name, h)[j] == SnapshotItem(st, name, h.snapshot, "", j)
  {
    assert name + SnapshotKeys[j] + "" == name + SnapshotKeys[j];
  }

  /** doTimerSnapshot agrees with the table, with the duration unit as suffix. */
  lemma TimerSnapshotRecordAt<N>(st: Settings<N>, name: string, s: Snapshot<N>, j: nat)
    requires j < 10
    ensures TimerSnapshotRecords(st, name, s)[j] == SnapshotItem(st, name, s, "/" + st.DurationUnit(), j)
  {
  }

  // ---------------------------------------------------------------- timers

  /** The timer loop of report: doTimerMetered, then doTimerSnapshot. */
  function TimerRecords<N>(st: Settings<N>, name: string, t: Timer<N>): (r: seq<TrackedMetric<N>>)
    ensures |r| == 15
  {
    MeteredRecords(st, name, t.metered) + TimerSnapshotRecords(st, name, t.snapshot)
  }

  /** The timer loop agrees with the tables: five meter-style records, then ten unit-suffixed statistics. */
  lemma TimerRecordAt<N>(st: Settings<N>, name: string, t: Timer<N>, j: nat)
    requires j < 15
    ensures TimerRecords(st, name, t)[j]
         == if j < 5 then MeteredItem(st, name, t.metered, j)
            else SnapshotItem(st, name, t.snapshot, "/" + st.DurationUnit(), j - 5)
  {
    var meter, stats := MeteredRecords(st, name, t.metered), TimerSnapshotRecords(st, name, t.snapshot);
    if j < 5 {
      assert TimerRecords(st, name, t)[j] == meter[j];
      MeteredRecordAt(st, name, t.metered, j);
    } else {
      assert TimerRecords(st, name, t)[j] == stats[j - 5];
      TimerSnapshotRecordAt(st, name, t.snapshot, j - 5);
    }
  }

  // ---------------------------------------------------------------- report

  function GaugeFn<N>(st: Settings<N>): ((string, GaugeValue<N>)) -> seq<TrackedMetric<N>>
  {
    (e: (string, GaugeValue<N>)) => GaugeRecords(st, e.0, e.1)
  }

  function CounterFn<N>(st: Settings<N>): ((string, Counter)) -> seq<TrackedMetric<N>>
  {
    (e: (string, Counter)) => CounterRecords(st, e.0, e.1)
  }

  function HistogramFn<N>(st: Settings<N>): ((string, Histogram<N>)) -> seq<TrackedMetric<N>>
  {
    (e: (string, Histogram<N>)) => HistogramRecords(st, e.0, e.1)
  }

  function MeteredFn<N>(st: Settings<N>): ((string, Metered<N>)) -> seq<TrackedMetric<N>>
  {
    (e: (string, Metered<N>)) => MeteredRecords(st, e.0, e.1)
  }

  function TimerFn<N>(st: Settings<N>): ((string, Timer<N>)) -> seq<TrackedMetric<N>>
  {
    (e: (string, Timer<N>)) => TimerRecords(st, e.0, e.1)
  }

  /** Everything one `report` call hands to the telemetry client, in order. */
  function ReportRecords<N>(
    st: Settings<N>,
    gauges: Entries<GaugeValue<N>>, counters: Entries<Counter>, histograms: Entries<Histogram<N>>,
    meters: Entries<Metered<N>>, timers: Entries<Timer<N>>): seq<TrackedMetric<N>>
  {
    FlatMap(gauges, GaugeFn(st)) + FlatMap(counters, CounterFn(st)) + FlatMap(histograms, HistogramFn(st))
      + FlatMap(meters, MeteredFn(st)) + FlatMap(timers, TimerFn(st))
  }
}
