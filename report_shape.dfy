/**
  The shape of what one report sends: its length, where each metric's records sit,
  which key and value each record carries, and the gauge rule.
 */
module ReportShape {
  import opened Metrics
  import opened SeqUtil
  import opened Emission

  /** Only the reportable gauges produce records, one each. */
  lemma {:induction false} GaugeSectionLength<N>(st: Settings<N>, gauges: Entries<GaugeValue<N>>)
    ensures |FlatMap(gauges, GaugeFn(st))| == ReportableCount(st.floats, gauges)
  {
    if gauges != [] {
      GaugeSectionLength(st, gauges[1..]);
    }
  }

  /** The total: reportable gauges + counters + 10 per histogram + 5 per meter + 15 per timer. */
  lemma ReportLength<N>(
    st: Settings<N>,
    g: Entries<GaugeValue<N>>, c: Entries<Counter>, h: Entries<Histogram<N>>,
    m: Entries<Metered<N>>, t: Entries<Timer<N>>)
    ensures |ReportRecords(st, g, c, h, m, t)|
         == ReportableCount(st.floats, g) + |c| + 10 * |h| + 5 * |m| + 15 * |t|
  {
    GaugeSectionLength(st, g);
    FlatMapLength(c, CounterFn(st), 1);
    FlatMapLength(h, HistogramFn(st), 10);
    FlatMapLength(m, MeteredFn(st), 5);
    FlatMapLength(t, TimerFn(st), 15);
  }

  /** A reportable gauge's record comes after those of the reportable gauges before it. */
  lemma GaugeSectionAt<N>(st: Settings<N>, g: Entries<GaugeValue<N>>, k: nat)
    requires k < |g| && Reportable(st.floats, g[k].1)
    ensures ReportableCount(st.floats, g[..k]) < |FlatMap(g, GaugeFn(st))|
    ensures FlatMap(g, GaugeFn(st))[ReportableCount(st.floats, g[..k])]
         == (st.metricNamePrefix + g[k].0, g[k].1.floatValue)
  {
    FlatMapAt(g, GaugeFn(st), k, 0);
    GaugeSectionLength(st, g[..k]);
  }

  /** When no two gauges share a name, the only gauge record named after gauge `k` is the one above. */
  lemma GaugeSectionNamed<N>(st: Settings<N>, g: Entries<GaugeValue<N>>, k: nat, p: nat)
    requires DistinctKeys(g)
    requires k < |g| && p < |FlatMap(g, GaugeFn(st))|
    requires FlatMap(g, GaugeFn(st))[p].0 == st.metricNamePrefix + g[k].0
    ensures Reportable(st.floats, g[k].1) && p == ReportableCount(st.floats, g[..k])
  {
    var i, j := FlatMapSource(g, GaugeFn(st), p);
    var prefix := st.metricNamePrefix;
    assert Reportable(st.floats, g[i].1) && j == 0;
    assert prefix + g[i].0 == prefix + g[k].0;
    assert g[i].0 == (prefix + g[i].0)[|prefix|..];
    assert g[k].0 == (prefix + g[k].0)[|prefix|..];
    GaugeSectionLength(st, g[..k]);
  }

  /** In a sorted map, the gauge records are sent in strictly increasing name order. */
  lemma GaugeSectionSorted<N>(st: Settings<N>, g: Entries<GaugeValue<N>>, p: nat, q: nat)
    requires IsSortedMap(g)
    requires p < q < |FlatMap(g, GaugeFn(st))|
    ensures LexLess(FlatMap(g, GaugeFn(st))[p].0, FlatMap(g, GaugeFn(st))[q].0)
  {
    var i, j := FlatMapSource(g, GaugeFn(st), p);
    var i', j' := FlatMapSource(g, GaugeFn(st), q);
    assert j == 0 && j' == 0;
    if i' <= i {
      if i' < i {
        FlatMapPrefixGrows(g, GaugeFn(st), i', i);
      }
      assert false;
    }
    LexLessPrefix(st.metricNamePrefix, g[i].0, g[i'].0);
  }

  /**
    Gauge `k` yields exactly one record, under its bare name and at the place its key order
    gives it, if it is reportable; otherwise no gauge record carries its name.
   */
  lemma ReportGauge<N>(
    st: Settings<N>,
    g: Entries<GaugeValue<N>>, c: Entries<Counter>, h: Entries<Histogram<N>>,
    m: Entries<Metered<N>>, t: Entries<Timer<N>>, k: nat)
    requires DistinctKeys(g) && k < |g|
    ensures ReportableCount(st.floats, g) <= |ReportRecords(st, g, c, h, m, t)|
    ensures Reportable(st.floats, g[k].1) ==>
      ReportableCount(st.floats, g[..k]) < ReportableCount(st.floats, g) &&
      ReportRecords(st, g, c, h, m, t)[ReportableCount(st.floats, g[..k])]
        == (st.metricNamePrefix + g[k].0, g[k].1.floatValue)
    ensures forall p ::
      (0 <= p < ReportableCount(st.floats, g) &&
       ReportRecords(st, g, c, h, m, t)[p].0 == st.metricNamePrefix + g[k].0) ==>
        Reportable(st.floats, g[k].1) && p == ReportableCount(st.floats, g[..k])
  {
    var section := FlatMap(g, GaugeFn(st));
    var r := ReportRecords(st, g, c, h, m, t);
    GaugeSectionLength(st, g);
    assert forall p :: 0 <= p < |section| ==> r[p] == section[p];
    if Reportable(st.floats, g[k].1) {
      GaugeSectionAt(st, g, k);
    }
    forall p | 0 <= p < |section| && r[p].0 == st.metricNamePrefix + g[k].0
      ensures Reportable(st.floats, g[k].1) && p == ReportableCount(st.floats, g[..k])
    {
      GaugeSectionNamed(st, g, k, p);
    }
  }

  /** The five sections of a report, one per metric kind, and their lengths. */
  lemma ReportSections<N>(
    st: Settings<N>,
    g: Entries<GaugeValue<N>>, c: Entries<Counter>, h: Entries<Histogram<N>>,
    m: Entries<Metered<N>>, t: Entries<Timer<N>>)
    ensures ReportRecords(st, g, c, h, m, t)
         == FlatMap(g, GaugeFn(st)) + FlatMap(c, CounterFn(st)) + FlatMap(h, HistogramFn(st))
            + FlatMap(m, MeteredFn(st)) + FlatMap(t, TimerFn(st))
    ensures |FlatMap(g, GaugeFn(st))| == ReportableCount(st.floats, g)
    ensures |FlatMap(c, CounterFn(st))| == |c|
    ensures |FlatMap(h, HistogramFn(st))| == 10 * |h|
    ensures |FlatMap(m, MeteredFn(st))| == 5 * |m|
    ensures |FlatMap(t, TimerFn(st))| == 15 * |t|
  {
    GaugeSectionLength(st, g);
    FlatMapLength(c, CounterFn(st), 1);
    FlatMapLength(h, HistogramFn(st), 10);
    FlatMapLength(m, MeteredFn(st), 5);
    FlatMapLength(t, TimerFn(st), 15);
  }

  /** Within the counter section, counter `k`'s record is the `k`-th. */
  lemma CounterSectionAt<N>(st: Settings<N>, c: Entries<Counter>, k: nat)
    requires k < |c|
    ensures k < |FlatMap(c, CounterFn(st))|
    ensures FlatMap(c, CounterFn(st))[k]
         == (st.metricNamePrefix + c[k].0 + "/count", st.floats.ofLong(c[k].1.count))
  {
    FlatMapAt(c, CounterFn(st), k, 0);
    FlatMapLength(c[..k], CounterFn(st), 1);
    assert st.metricNamePrefix + (c[k].0 + "/count") == st.metricNamePrefix + c[k].0 + "/count";
  }

  /** Within the histogram section, record `j` of histogram `i` is at `10 * i + j`. */
  lemma HistogramSectionAt<N>(st: Settings<N>, h: Entries<Histogram<N>>, i: nat, j: nat)
    requires i < |h| && j < 10
    ensures 10 * i + j < |FlatMap(h, HistogramFn(st))|
    ensures FlatMap(h, HistogramFn(st))[10 * i + j]
         == (st.metricNamePrefix + h[i].0 + SnapshotKeys[j], st.Duration(StatAt(h[i].1.snapshot, j)))
  {
    FlatMapAt(h, HistogramFn(st), i, j);
    FlatMapLength(h[..i], HistogramFn(st), 10);
    HistogramRecordAt(st, h[i].0, h[i].1, j);
    var key := h[i].0 + SnapshotKeys[j];
    assert key + "" == key;
    assert st.metricNamePrefix + key == st.metricNamePrefix + h[i].0 + SnapshotKeys[j];
  }

  /** Within the meter section, record `j` of meter `i` is at `5 * i + j`. */
  lemma MeterSectionAt<N>(st: Settings<N>, m: Entries<Metered<N>>, i: nat, j: nat)
    requires i < |m| && j < 5
    ensures 5 * i + j < |FlatMap(m, MeteredFn(st))|
    ensures FlatMap(m, MeteredFn(st))[5 * i + j] == MeteredItem(st, m[i].0, m[i].1, j)
  {
    FlatMapAt(m, MeteredFn(st), i, j);
    FlatMapLength(m[..i], MeteredFn(st), 5);
    MeteredRecordAt(st, m[i].0, m[i].1, j);
  }

  /** Within the timer section, record `j` of timer `i` is at `15 * i + j`. */
  lemma TimerSectionAt<N>(st: Settings<N>, t: Entries<Timer<N>>, i: nat, j: nat)
    requires i < |t| && j < 15
    ensures 15 * i + j < |FlatMap(t, TimerFn(st))|
    ensures FlatMap(t, TimerFn(st))[15 * i + j]
         == if j < 5 then MeteredItem(st, t[i].0, t[i].1.metered, j)
            else SnapshotItem(st, t[i].0, t[i].1.snapshot, "/" + st.DurationUnit(), j - 5)
  {
    FlatMapAt(t, TimerFn(st), i, j);
    FlatMapLength(t[..i], TimerFn(st), 15);
    TimerRecordAt(st, t[i].0, t[i].1, j);
  }

  /** Counter `k` yields one `/count` record carrying its count, right after the gauges before it. */
  lemma ReportCounterAt<N>(
    st: Settings<N>,
    g: Entries<GaugeValue<N>>, c: Entries<Counter>, h: Entries<Histogram<N>>,
    m: Entries<Metered<N>>, t: Entries<Timer<N>>, k: nat)
    requires k < |c|
    ensures ReportableCount(st.floats, g) + k < |ReportRecords(st, g, c, h, m, t)|
    ensures ReportRecords(st, g, c, h, m, t)[ReportableCount(st.floats, g) + k]
         == (st.metricNamePrefix + c[k].0 + "/count", st.floats.ofLong(c[k].1.count))
  {
    CounterSectionAt(st, c, k);
    ReportCounterPosition(st, g, c, h, m, t, k);
  }

  /**
    In a report, counter `k` follows the earlier sections, at its offset within its own
    section.
   */
  lemma ReportCounterPosition<N>(
    st: Settings<N>,
    g: Entries<GaugeValue<N>>, c: Entries<Counter>, h: Entries<Histogram<N>>,
    m: Entries<Metered<N>>, t: Entries<Timer<N>>, k: nat)
    requires k < |c|
    ensures ReportableCount(st.floats, g) + k < |ReportRecords(st, g, c, h, m, t)|
    ensures k < |FlatMap(c, CounterFn(st))|
    ensures ReportRecords(st, g, c, h, m, t)[ReportableCount(st.floats, g) + k]
         == FlatMap(c, CounterFn(st))[k]
  {
    var p := ReportableCount(st.floats, g) + k;
    ReportSections(st, g, c, h, m, t);
    SecondPartAt(ReportRecords(st, g, c, h, m, t),
      FlatMap(g, GaugeFn(st)), FlatMap(c, CounterFn(st)), FlatMap(h, HistogramFn(st)),
      FlatMap(m, MeteredFn(st)), FlatMap(t, TimerFn(st)),
      ReportableCount(st.floats, g), k, p, FlatMap(c, CounterFn(st))[k]);
  }

  /** Record `j` of histogram `i`: the `j`-th statistic key, no unit, the converted duration. */
  lemma ReportHistogramAt<N>(
    st: Settings<N>,
    g: Entries<GaugeValue<N>>, c: Entries<Counter>, h: Entries<Histogram<N>>,
    m: Entries<Metered<N>>, t: Entries<Timer<N>>, i: nat, j: nat)
    requires i < |h| && j < 10
    ensures ReportableCount(st.floats, g) + |c| + 10 * i + j < |ReportRecords(st, g, c, h, m, t)|
    ensures ReportRecords(st, g, c, h, m, t)[ReportableCount(st.floats, g) + |c| + 10 * i + j]
         == (st.metricNamePrefix + h[i].0 + SnapshotKeys[j], st.Duration(StatAt(h[i].1.snapshot, j)))
  {
    HistogramSectionAt(st, h, i, j);
    ReportHistogramPosition(st, g, c, h, m, t, i, j);
  }

  /**
    In a report, record `j` of histogram `i` follows the earlier sections, at its offset within its own
    section.
   */
  lemma ReportHistogramPosition<N>(
    st: Settings<N>,
    g: Entries<GaugeValue<N>>, c: Entries<Counter>, h: Entries<Histogram<N>>,
    m: Entries<Metered<N>>, t: Entries<Timer<N>>, i: nat, j: nat)
    requires i < |h| && j < 10
    ensures ReportableCount(st.floats, g) + |c| + 10 * i + j < |ReportRecords(st, g, c, h, m, t)|
    ensures 10 * i + j < |FlatMap(h, HistogramFn(st))|
    ensures ReportRecords(st, g, c, h, m, t)[ReportableCount(st.floats, g) + |c| + 10 * i + j]
         == FlatMap(h, HistogramFn(st))[10 * i + j]
  {
    var p := ReportableCount(st.floats, g) + |c| + 10 * i + j;
    ReportSections(st, g, c, h, m, t);
    ThirdPartAt(ReportRecords(st, g, c, h, m, t),
      FlatMap(g, GaugeFn(st)), FlatMap(c, CounterFn(st)), FlatMap(h, HistogramFn(st)),
      FlatMap(m, MeteredFn(st)), FlatMap(t, TimerFn(st)),
      ReportableCount(st.floats, g) + |c|, 10 * i + j, p, FlatMap(h, HistogramFn(st))[10 * i + j]);
  }

  /** Record `j` of meter `i`: the raw count first, then the four converted rates with the rate unit. */
  lemma ReportMeterAt<N>(
    st: Settings<N>,
    g: Entries<GaugeValue<N>>, c: Entries<Counter>, h: Entries<Histogram<N>>,
    m: Entries<Metered<N>>, t: Entries<Timer<N>>, i: nat, j: nat)
    requires i < |m| && j < 5
    ensures ReportableCount(st.floats, g) + |c| + 10 * |h| + 5 * i + j < |ReportRecords(st, g, c, h, m, t)|
    ensures ReportRecords(st, g, c, h, m, t)[ReportableCount(st.floats, g) + |c| + 10 * |h| + 5 * i + j]
         == MeteredItem(st, m[i].0, m[i].1, j)
  {
    MeterSectionAt(st, m, i, j);
    ReportMeterPosition(st, g, c, h, m, t, i, j);
  }

  /**
    In a report, record `j` of meter `i` follows the earlier sections, at its offset within its own
    section.
   */
  lemma ReportMeterPosition<N>(
    st: Settings<N>,
    g: Entries<GaugeValue<N>>, c: Entries<Counter>, h: Entries<Histogram<N>>,
    m: Entries<Metered<N>>, t: Entries<Timer<N>>, i: nat, j: nat)
    requires i < |m| && j < 5
    ensures ReportableCount(st.floats, g) + |c| + 10 * |h| + 5 * i + j < |ReportRecords(st, g, c, h, m, t)|
    ensures 5 * i + j < |FlatMap(m, MeteredFn(st))|
    ensures ReportRecords(st, g, c, h, m, t)[ReportableCount(st.floats, g) + |c| + 10 * |h| + 5 * i + j]
         == FlatMap(m, MeteredFn(st))[5 * i + j]
  {
    var p := ReportableCount(st.floats, g) + |c| + 10 * |h| + 5 * i + j;
    ReportSections(st, g, c, h, m, t);
    FourthPartAt(ReportRecords(st, g, c, h, m, t),
      FlatMap(g, GaugeFn(st)), FlatMap(c, CounterFn(st)), FlatMap(h, HistogramFn(st)),
      FlatMap(m, MeteredFn(st)), FlatMap(t, TimerFn(st)),
      ReportableCount(st.floats, g) + |c| + 10 * |h|, 5 * i + j, p, FlatMap(m, MeteredFn(st))[5 * i + j]);
  }

  /**
    Record `j` of timer `i`: its five meter-style records, then its ten statistics, each key
    ending in "/" and the duration unit.
   */
  lemma ReportTimerAt<N>(
    st: Settings<N>,
    g: Entries<GaugeValue<N>>, c: Entries<Counter>, h: Entries<Histogram<N>>,
    m: Entries<Metered<N>>, t: Entries<Timer<N>>, i: nat, j: nat)
    requires i < |t| && j < 15
    ensures ReportableCount(st.floats, g) + |c| + 10 * |h| + 5 * |m| + 15 * i + j
          < |ReportRecords(st, g, c, h, m, t)|
    ensures ReportRecords(st, g, c, h, m, t)[ReportableCount(st.floats, g) + |c| + 10 * |h| + 5 * |m| + 15 * i + j]
         == if j < 5 then MeteredItem(st, t[i].0, t[i].1.metered, j)
            else SnapshotItem(st, t[i].0, t[i].1.snapshot, "/" + st.DurationUnit(), j - 5)
  {
    TimerSectionAt(st, t, i, j);
    ReportTimerPosition(st, g, c, h, m, t, i, j);
  }

  /**
    In a report, record `j` of timer `i` follows the earlier sections, at its offset within its own
    section.
   */
  lemma ReportTimerPosition<N>(
    st: Settings<N>,
    g: Entries<GaugeValue<N>>, c: Entries<Counter>, h: Entries<Histogram<N>>,
    m: Entries<Metered<N>>, t: Entries<Timer<N>>, i: nat, j: nat)
    requires i < |t| && j < 15
    ensures ReportableCount(st.floats, g) + |c| + 10 * |h| + 5 * |m| + 15 * i + j
          < |ReportRecords(st, g, c, h, m, t)|
    ensures 15 * i + j < |FlatMap(t, TimerFn(st))|
    ensures ReportRecords(st, g, c, h, m, t)[ReportableCount(st.floats, g) + |c| + 10 * |h| + 5 * |m| + 15 * i + j]
         == FlatMap(t, TimerFn(st))[15 * i + j]
  {
    var p := ReportableCount(st.floats, g) + |c| + 10 * |h| + 5 * |m| + 15 * i + j;
    ReportSections(st, g, c, h, m, t);
    FifthPartAt(ReportRecords(st, g, c, h, m, t),
      FlatMap(g, GaugeFn(st)), FlatMap(c, CounterFn(st)), FlatMap(h, HistogramFn(st)),
      FlatMap(m, MeteredFn(st)), FlatMap(t, TimerFn(st)),
      ReportableCount(st.floats, g) + |c| + 10 * |h| + 5 * |m|, 15 * i + j, p,
      FlatMap(t, TimerFn(st))[15 * i + j]);
  }

  /** Every record sent is named `metricNamePrefix` followed by the name the code built. */
  lemma ReportNamesPrefixed<N>(
    st: Settings<N>,
    g: Entries<GaugeValue<N>>, c: Entries<Counter>, h: Entries<Histogram<N>>,
    m: Entries<Metered<N>>, t: Entries<Timer<N>>, p: nat)
    requires p < |ReportRecords(st, g, c, h, m, t)|
    ensures NamedUnder(st.metricNamePrefix, ReportRecords(st, g, c, h, m, t)[p].0)
  {
    ReportLength(st, g, c, h, m, t);
    var gauged := ReportableCount(st.floats, g);
    var counted := gauged + |c|;
    var histogrammed := counted + 10 * |h|;
    var metered := histogrammed + 5 * |m|;
    if p < gauged {
      GaugeNamesPrefixed(st, g, c, h, m, t, p);
    } else if p < counted {
      CounterNamesPrefixed(st, g, c, h, m, t, p - gauged);
    } else if p < histogrammed {
      HistogramsNamesPrefixed(st, g, c, h, m, t, p);
    } else if p < metered {
      MetersNamesPrefixed(st, g, c, h, m, t, p);
    } else {
      TimersNamesPrefixed(st, g, c, h, m, t, p);
    }
  }

  lemma HistogramsNamesPrefixed<N>(
    st: Settings<N>,
    g: Entries<GaugeValue<N>>, c: Entries<Counter>, h: Entries<Histogram<N>>,
    m: Entries<Metered<N>>, t: Entries<Timer<N>>, p: nat)
    requires ReportableCount(st.floats, g) + |c| <= p < ReportableCount(st.floats, g) + |c| + 10 * |h|
    ensures p < |ReportRecords(st, g, c, h, m, t)|
    ensures NamedUnder(st.metricNamePrefix, ReportRecords(st, g, c, h, m, t)[p].0)
  {
    var offset := p - (ReportableCount(st.floats, g) + |c|);
    var i, j := offset / 10, offset % 10;
    assert offset == 10 * i + j;
    HistogramNamesPrefixed(st, g, c, h, m, t, i, j);
  }

  lemma MetersNamesPrefixed<N>(
    st: Settings<N>,
    g: Entries<GaugeValue<N>>, c: Entries<Counter>, h: Entries<Histogram<N>>,
    m: Entries<Metered<N>>, t: Entries<Timer<N>>, p: nat)
    requires ReportableCount(st.floats, g) + |c| + 10 * |h| <= p
    requires p < ReportableCount(st.floats, g) + |c| + 10 * |h| + 5 * |m|
    ensures p < |ReportRecords(st, g, c, h, m, t)|
    ensures NamedUnder(st.metricNamePrefix, ReportRecords(st, g, c, h, m, t)[p].0)
  {
    var offset := p - (ReportableCount(st.floats, g) + |c| + 10 * |h|);
    var i, j := offset / 5, offset % 5;
    assert offset == 5 * i + j;
    MeterNamesPrefixed(st, g, c, h, m, t, i, j);
  }

  lemma TimersNamesPrefixed<N>(
    st: Settings<N>,
    g: Entries<GaugeValue<N>>, c: Entries<Counter>, h: Entries<Histogram<N>>,
    m: Entries<Metered<N>>, t: Entries<Timer<N>>, p: nat)
    requires ReportableCount(st.floats, g) + |c| + 10 * |h| + 5 * |m| <= p
    requires p < ReportableCount(st.floats, g) + |c| + 10 * |h| + 5 * |m| + 15 * |t|
    ensures p < |ReportRecords(st, g, c, h, m, t)|
    ensures NamedUnder(st.metricNamePrefix, ReportRecords(st, g, c, h, m, t)[p].0)
  {
    var offset := p - (ReportableCount(st.floats, g) + |c| + 10 * |h| + 5 * |m|);
    var i, j := offset / 15, offset % 15;
    assert offset == 15 * i + j;
    TimerNamesPrefixed(st, g, c, h, m, t, i, j);
  }

  lemma GaugeNamesPrefixed<N>(
    st: Settings<N>,
    g: Entries<GaugeValue<N>>, c: Entries<Counter>, h: Entries<Histogram<N>>,
    m: Entries<Metered<N>>, t: Entries<Timer<N>>, p: nat)
    requires p < ReportableCount(st.floats, g)
    ensures p < |ReportRecords(st, g, c, h, m, t)|
    ensures NamedUnder(st.metricNamePrefix, ReportRecords(st, g, c, h, m, t)[p].0)
  {
    ReportSections(st, g, c, h, m, t);
    var gs := FlatMap(g, GaugeFn(st));
    assert ReportRecords(st, g, c, h, m, t)[p] == gs[p];
    var i, j := FlatMapSource(g, GaugeFn(st), p);
    NamedUnderAppend(st.metricNamePrefix, g[i].0);
  }

  lemma CounterNamesPrefixed<N>(
    st: Settings<N>,
    g: Entries<GaugeValue<N>>, c: Entries<Counter>, h: Entries<Histogram<N>>,
    m: Entries<Metered<N>>, t: Entries<Timer<N>>, k: nat)
    requires k < |c|
    ensures ReportableCount(st.floats, g) + k < |ReportRecords(st, g, c, h, m, t)|
    ensures NamedUnder(st.metricNamePrefix, ReportRecords(st, g, c, h, m, t)[ReportableCount(st.floats, g) + k].0)
  {
    ReportCounterAt(st, g, c, h, m, t, k);
    var prefix := st.metricNamePrefix;
    NamedUnderAppend(prefix, c[k].0 + "/count");
    assert prefix + (c[k].0 + "/count") == prefix + c[k].0 + "/count";
  }

  lemma HistogramNamesPrefixed<N>(
    st: Settings<N>,
    g: Entries<GaugeValue<N>>, c: Entries<Counter>, h: Entries<Histogram<N>>,
    m: Entries<Metered<N>>, t: Entries<Timer<N>>, i: nat, j: nat)
    requires i < |h| && j < 10
    ensures ReportableCount(st.floats, g) + |c| + 10 * i + j < |ReportRecords(st, g, c, h, m, t)|
    ensures NamedUnder(st.metricNamePrefix,
      ReportRecords(st, g, c, h, m, t)[ReportableCount(st.floats, g) + |c| + 10 * i + j].0)
  {
    ReportHistogramAt(st, g, c, h, m, t, i, j);
    var prefix := st.metricNamePrefix;
    NamedUnderAppend(prefix, h[i].0 + SnapshotKeys[j]);
    assert prefix + (h[i].0 + SnapshotKeys[j]) == prefix + h[i].0 + SnapshotKeys[j];
  }

  lemma MeterNamesPrefixed<N>(
    st: Settings<N>,
    g: Entries<GaugeValue<N>>, c: Entries<Counter>, h: Entries<Histogram<N>>,
    m: Entries<Metered<N>>, t: Entries<Timer<N>>, i: nat, j: nat)
    requires i < |m| && j < 5
    ensures ReportableCount(st.floats, g) + |c| + 10 * |h| + 5 * i + j < |ReportRecords(st, g, c, h, m, t)|
    ensures NamedUnder(st.metricNamePrefix,
      ReportRecords(st, g, c, h, m, t)[ReportableCount(st.floats, g) + |c| + 10 * |h| + 5 * i + j].0)
  {
    ReportMeterAt(st, g, c, h, m, t, i, j);
    if j == 0 {
      NamedUnderAppend(st.metricNamePrefix, m[i].0 + "/count");
    } else {
      NamedUnderAppend(st.metricNamePrefix, m[i].0 + RateKeys[j - 1] + st.RateUnit());
    }
  }

  lemma TimerNamesPrefixed<N>(
    st: Settings<N>,
    g: Entries<GaugeValue<N>>, c: Entries<Counter>, h: Entries<Histogram<N>>,
    m: Entries<Metered<N>>, t: Entries<Timer<N>>, i: nat, j: nat)
    requires i < |t| && j < 15
    ensures ReportableCount(st.floats, g) + |c| + 10 * |h| + 5 * |m| + 15 * i + j
          < |ReportRecords(st, g, c, h, m, t)|
    ensures NamedUnder(st.metricNamePrefix,
      ReportRecords(st, g, c, h, m, t)[ReportableCount(st.floats, g) + |c| + 10 * |h| + 5 * |m| + 15 * i + j].0)
  {
    ReportTimerAt(st, g, c, h, m, t, i, j);
    if j == 0 {
      NamedUnderAppend(st.metricNamePrefix, t[i].0 + "/count");
    } else if j < 5 {
      NamedUnderAppend(st.metricNamePrefix, t[i].0 + RateKeys[j - 1] + st.RateUnit());
    } else {
      NamedUnderAppend(st.metricNamePrefix, t[i].0 + SnapshotKeys[j - 5] + ("/" + st.DurationUnit()));
    }
  }

  /** A counter "jobs" at 3, reported with prefix "app/", yields the single record "app/jobs/count". */
  lemma CounterScenario<N>(st: Settings<N>)
    requires st.metricNamePrefix == "app/"
    ensures ReportRecords(st, [], [("jobs", Counter(3))], [], [], [])
         == [("app/jobs/count", st.floats.ofLong(3))]
  {
    var c := [("jobs", Counter(3))];
    assert c[1..] == [];
    assert FlatMap(c, CounterFn(st)) == CounterRecords(st, "jobs", Counter(3));
    assert "app/" + ("jobs" + "/count") == "app/jobs/count";
  }

  /** A gauge whose float is NaN yields nothing. */
  lemma NaNGaugeScenario<N>(st: Settings<N>, name: string, n: N)
    requires st.floats.isNaN(n)
    ensures ReportRecords(st, [(name, Number(n))], [], [], [], []) == []
  {
    var g := [(name, Number(n))];
    assert g[1..] == [];
    assert FlatMap(g, GaugeFn(st)) == [];
  }
}
