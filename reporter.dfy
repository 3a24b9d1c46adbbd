/**
  AppInsightsReporter itself: a reporter whose `report` walks the five sorted metric maps
  and hands one (name, value) pair per record to the App Insights telemetry client, and
  the Builder that configures it. The client is seen only through the metrics it has
  been asked to track.
 */
module AppInsights {
  import opened Metrics
  import opened SeqUtil
  import opened Emission

  /** The App Insights TelemetryClient: every `trackMetric` call is appended to `tracked`. */
  class TelemetryClient<N> {
    var tracked: seq<TrackedMetric<N>>

    /** `new TelemetryClient()`: a fresh client that has tracked nothing yet. */
    constructor ()
      ensures tracked == []
    {
      tracked := [];
    }

    method TrackMetric(name: string, value: N)
      modifies this
      ensures tracked == old(tracked) + [(name, value)]
    {
      tracked := tracked + [(name, value)];
    }
  }

  /** A MetricFilter: ALL, or a test on the metric's name. */
  datatype MetricFilter = ALL | Matching(matches: string -> bool)

  class AppInsightsReporter<N> {
    const name: string
    const filter: MetricFilter
    const settings: Settings<N>
    const telemetryClient: TelemetryClient<N>

    /** The private constructor; `base` is what the ScheduledReporter super-constructor derives from the units. */
    constructor (name: string, filter: MetricFilter, rateUnit: TimeUnit, durationUnit: TimeUnit,
                 metricNamePrefix: string, telemetryClient: TelemetryClient<N>,
                 base: ScheduledBase<N>, floats: JavaFloat<N>)
      ensures this.name == name && this.filter == filter
      ensures settings == Settings(metricNamePrefix, rateUnit, durationUnit, base, floats)
      ensures this.telemetryClient == telemetryClient
    {
      this.name := name;
      this.filter := filter;
      this.settings := Settings(metricNamePrefix, rateUnit, durationUnit, base, floats);
      this.telemetryClient := telemetryClient;
    }

    /** Exactly one call to the client, under the prefixed name. */
    method Record(name: string, value: N)
      modifies telemetryClient
      ensures telemetryClient.tracked == old(telemetryClient.tracked) + [settings.Sent(name, value)]
    {
      var fullMetricName := settings.metricNamePrefix + name;
      telemetryClient.TrackMetric(fullMetricName, value);
    }

    method DoGauge(name: string, gauge: GaugeValue<N>)
      modifies telemetryClient
      ensures telemetryClient.tracked == old(telemetryClient.tracked) + GaugeRecords(settings, name, gauge)
    {
      if gauge.Number? {
        var n := gauge.floatValue;
        if !settings.floats.isNaN(n) && !settings.floats.isInfinite(n) {
          Record(name, n);
        }
      }
    }

    method DoMetered(name: string, meter: Metered<N>)
      modifies telemetryClient
      ensures telemetryClient.tracked == old(telemetryClient.tracked) + MeteredRecords(settings, name, meter)
    {
      Record(name + "/count", settings.floats.ofLong(meter.count));
      Record(name + "/meanRate/" + settings.RateUnit(), settings.Rate(meter.meanRate));
      Record(name + "/1MinuteRate/" + settings.RateUnit(), settings.Rate(meter.oneMinuteRate));
      Record(name + "/5MinuteRate/" + settings.RateUnit(), settings.Rate(meter.fiveMinuteRate));
      Record(name + "/15MinuteRate/" + settings.RateUnit(), settings.Rate(meter.fifteenMinuteRate));
    }

    method DoTimerMetered(timer: Timer<N>, name: string)
      modifies telemetryClient
      ensures telemetryClient.tracked == old(telemetryClient.tracked) + MeteredRecords(settings, name, timer.metered)
    {
      DoMetered(name, timer.metered);
    }

    method DoHistogramSnapshot(name: string, snapshot: Snapshot<N>)
      modifies telemetryClient
      ensures telemetryClient.tracked
           == old(telemetryClient.tracked) + HistogramRecords(settings, name, Histogram(snapshot))
    {
      Record(name + "/min", settings.Duration(snapshot.min));
      Record(name + "/max", settings.Duration(snapshot.max));
      Record(name + "/mean", settings.Duration(snapshot.mean));
      Record(name + "/stdDev", settings.Duration(snapshot.stdDev));
      Record(name + "/median", settings.Duration(snapshot.median));
      Record(name + "/75th", settings.Duration(snapshot.p75));
      Record(name + "/95th", settings.Duration(snapshot.p95));
      Record(name + "/98th", settings.Duration(snapshot.p98));
      Record(name + "/99th", settings.Duration(snapshot.p99));
      Record(name + "/99.9th", settings.Duration(snapshot.p999));
    }

    method DoTimerSnapshot(timer: Timer<N>, name: string, snapshot: Snapshot<N>)
      modifies telemetryClient
      ensures telemetryClient.tracked
           == old(telemetryClient.tracked) + TimerSnapshotRecords(settings, name, snapshot)
    {
      var nameSuffix := "/" + settings.DurationUnit();
      Record(name + "/min" + nameSuffix, settings.Duration(snapshot.min));
      Record(name + "/max" + nameSuffix, settings.Duration(snapshot.max));
      Record(name + "/mean" + nameSuffix, settings.Duration(snapshot.mean));
      Record(name + "/stdDev" + nameSuffix, settings.Duration(snapshot.stdDev));
      Record(name + "/median" + nameSuffix, settings.Duration(snapshot.median));
      Record(name + "/75th" + nameSuffix, settings.Duration(snapshot.p75));
      Record(name + "/95th" + nameSuffix, settings.Duration(snapshot.p95));
      Record(name + "/98th" + nameSuffix, settings.Duration(snapshot.p98));
      Record(name + "/99th" + nameSuffix, settings.Duration(snapshot.p99));
      Record(name + "/99.9th" + nameSuffix, settings.Duration(snapshot.p999));
    }

    /** One reporting cycle: gauges, counters, histograms, meters, timers, each in key order. */
    method Report(gauges: Entries<GaugeValue<N>>, counters: Entries<Counter>, histograms: Entries<Histogram<N>>,
                  meters: Entries<Metered<N>>, timers: Entries<Timer<N>>)
      modifies telemetryClient
      ensures telemetryClient.tracked
           == old(telemetryClient.tracked) + ReportRecords(settings, gauges, counters, histograms, meters, timers)
    {
      ghost var start := telemetryClient.tracked;
      ghost var gs, cs, hs := FlatMap(gauges, GaugeFn(settings)), FlatMap(counters, CounterFn(settings)),
                              FlatMap(histograms, HistogramFn(settings));
      ghost var ms, ts := FlatMap(meters, MeteredFn(settings)), FlatMap(timers, TimerFn(settings));
      ReportGauges(gauges);
      ReportCounters(counters);
      ReportHistograms(histograms);
      ReportMeters(meters);
      ReportTimers(timers);
      AppendAssoc(start, gs + cs + hs + ms, ts);
      AppendAssoc(start, gs + cs + hs, ms);
      AppendAssoc(start, gs + cs, hs);
      AppendAssoc(start, gs, cs);
    }

    /** The gauge loop of `report`. */
    method ReportGauges(gauges: Entries<GaugeValue<N>>)
      modifies telemetryClient
      ensures telemetryClient.tracked == old(telemetryClient.tracked) + FlatMap(gauges, GaugeFn(settings))
    {
      for i := 0 to |gauges|
        invariant telemetryClient.tracked == old(telemetryClient.tracked) + FlatMap(gauges[..i], GaugeFn(settings))
      {
        DoGauge(gauges[i].0, gauges[i].1);
        FlatMapStep(gauges, i, GaugeFn(settings));
      }
      assert gauges[..|gauges|] == gauges;
    }

    /** The counter loop of `report`. */
    method ReportCounters(counters: Entries<Counter>)
      modifies telemetryClient
      ensures telemetryClient.tracked == old(telemetryClient.tracked) + FlatMap(counters, CounterFn(settings))
    {
      for i := 0 to |counters|
        invariant telemetryClient.tracked == old(telemetryClient.tracked) + FlatMap(counters[..i], CounterFn(settings))
      {
        var name := counters[i].0;
        var counter := counters[i].1;
        Record(name + "/count", settings.floats.ofLong(counter.count));
        FlatMapStep(counters, i, CounterFn(settings));
      }
      assert counters[..|counters|] == counters;
    }

    /** The histogram loop of `report`. */
    method ReportHistograms(histograms: Entries<Histogram<N>>)
      modifies telemetryClient
      ensures telemetryClient.tracked == old(telemetryClient.tracked) + FlatMap(histograms, HistogramFn(settings))
    {
      for i := 0 to |histograms|
        invariant telemetryClient.tracked
               == old(telemetryClient.tracked) + FlatMap(histograms[..i], HistogramFn(settings))
      {
        var name := histograms[i].0;
        var snapshot := histograms[i].1.snapshot;
        DoHistogramSnapshot(name, snapshot);
        FlatMapStep(histograms, i, HistogramFn(settings));
      }
      assert histograms[..|histograms|] == histograms;
    }

    /** The meter loop of `report`. */
    method ReportMeters(meters: Entries<Metered<N>>)
      modifies telemetryClient
      ensures telemetryClient.tracked == old(telemetryClient.tracked) + FlatMap(meters, MeteredFn(settings))
    {
      for i := 0 to |meters|
        invariant telemetryClient.tracked == old(telemetryClient.tracked) + FlatMap(meters[..i], MeteredFn(settings))
      {
        DoMetered(meters[i].0, meters[i].1);
        FlatMapStep(meters, i, MeteredFn(settings));
      }
      assert meters[..|meters|] == meters;
    }

    /** The timer loop of `report`. */
    method ReportTimers(timers: Entries<Timer<N>>)
      modifies telemetryClient
      ensures telemetryClient.tracked == old(telemetryClient.tracked) + FlatMap(timers, TimerFn(settings))
    {
      for i := 0 to |timers|
        invariant telemetryClient.tracked == old(telemetryClient.tracked) + FlatMap(timers[..i], TimerFn(settings))
      {
        var timer := timers[i].1;
        var name := timers[i].0;
        var snapshot := timer.snapshot;
        DoTimerMetered(timer, name);
        DoTimerSnapshot(timer, name, snapshot);
        FlatMapStep(timers, i, TimerFn(settings));
      }
      assert timers[..|timers|] == timers;
    }
  }

  /**
    The reporter's fields are final, so reporting the same metrics twice appends the same
    records twice: `report` accumulates nothing of its own between calls.
   */
  method ReportTwice<N>(reporter: AppInsightsReporter<N>,
                        gauges: Entries<GaugeValue<N>>, counters: Entries<Counter>,
                        histograms: Entries<Histogram<N>>, meters: Entries<Metered<N>>,
                        timers: Entries<Timer<N>>)
    modifies reporter.telemetryClient
    ensures var before := old(reporter.telemetryClient.tracked);
            var once := ReportRecords(reporter.settings, gauges, counters, histograms, meters, timers);
            var after := reporter.telemetryClient.tracked;
            |after| == |before| + 2 * |once| &&
            after[..|before|] == before &&
            after[|before|..|before| + |once|] == once &&
            after[|before| + |once|..] == once
  {
    reporter.Report(gauges, counters, histograms, meters, timers);
    reporter.Report(gauges, counters, histograms, meters, timers);
  }

  class Builder<N> {
    var name: string
    var filter: MetricFilter
    var rateUnit: TimeUnit
    var durationUnit: TimeUnit
    var metricNamePrefix: string
    var telemetryClient: TelemetryClient?<N>

    /** The defaults: per-second rates, millisecond durations, no prefix, all metrics, no client yet. */
    constructor ()
      ensures rateUnit == SECONDS && durationUnit == MILLISECONDS
      ensures metricNamePrefix == "" && name == "App Insights reporter"
      ensures filter == ALL && telemetryClient == null
    {
      rateUnit := SECONDS;
      durationUnit := MILLISECONDS;
      metricNamePrefix := "";
      name := "App Insights reporter";
      filter := ALL;
      telemetryClient := null;
    }

    method Name(name: string) returns (self: Builder<N>)
      modifies this`name
      ensures self == this && this.name == name
    {
      this.name := name;
      self := this;
    }

    method Filter(filter: MetricFilter) returns (self: Builder<N>)
      modifies this`filter
      ensures self == this && this.filter == filter
    {
      this.filter := filter;
      self := this;
    }

    method RateUnit(rateUnit: TimeUnit) returns (self: Builder<N>)
      modifies this`rateUnit
      ensures self == this && this.rateUnit == rateUnit
    {
      this.rateUnit := rateUnit;
      self := this;
    }

    method DurationUnit(durationUnit: TimeUnit) returns (self: Builder<N>)
      modifies this`durationUnit
      ensures self == this && this.durationUnit == durationUnit
    {
      this.durationUnit := durationUnit;
      self := this;
    }

    method MetricNamePrefix(metricNamePrefix: string) returns (self: Builder<N>)
      modifies this`metricNamePrefix
      ensures self == this && this.metricNamePrefix == metricNamePrefix
    {
      this.metricNamePrefix := metricNamePrefix;
      self := this;
    }

    method TelemetryClient(telemetryClient: TelemetryClient?<N>) returns (self: Builder<N>)
      modifies this`telemetryClient
      ensures self == this && this.telemetryClient == telemetryClient
    {
      this.telemetryClient := telemetryClient;
      self := this;
    }

    /** A reporter with the collected settings, on the supplied client or else on a fresh one. */
    method Build(base: ScheduledBase<N>, floats: JavaFloat<N>) returns (reporter: AppInsightsReporter<N>)
      ensures fresh(reporter)
      ensures reporter.name == name && reporter.filter == filter
      ensures reporter.settings == Settings(metricNamePrefix, rateUnit, durationUnit, base, floats)
      ensures telemetryClient != null ==> reporter.telemetryClient == telemetryClient
      ensures telemetryClient == null ==> fresh(reporter.telemetryClient) && reporter.telemetryClient.tracked == []
    {
      var client: TelemetryClient<N>;
      if telemetryClient != null {
        client := telemetryClient;
      } else {
        client := new TelemetryClient();
      }
      reporter := new AppInsightsReporter(name, filter, rateUnit, durationUnit, metricNamePrefix, client, base, floats);
    }
  }
}
