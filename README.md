# AppInsights metrics reporter — Dafny model

This project models `AppInsightsReporter`, a dropwizard-metrics `ScheduledReporter`. On each
reporting cycle it receives five name-sorted maps: gauges, counters, histograms, meters and
timers. It flattens every metric into `(metricNamePrefix + name + suffix, value)` pairs and
hands each pair to an Azure App Insights `TelemetryClient` through `trackMetric`. The model
proves what that stream looks like:

- which keys each metric kind gets, and how many records each kind produces;
- which values are unit-converted, and which keys carry the rate or duration unit;
- the order of the five groups, and the order of metrics inside each group;
- the rule that drops gauges that are not numbers, or whose float is NaN or infinite.

Layout:

- `metrics.dfy` (module `Metrics`): the metric snapshots as datatypes. A `SortedMap` is the
  sequence of its entries. Its key order is `String.compareTo`, written `LexLess`.
- `seq_util.dfy` (module `SeqUtil`): `FlatMap`, which concatenates each entry's records. Its
  lemmas say where each entry's records land.
- `emission.dfy` (module `Emission`): the records of one metric, and of one whole report, as
  pure functions. Each function is written as the source code writes it. Beside it sits a
  table-driven reference (`MeteredItem`, `SnapshotItem`, `RateKeys`, `SnapshotKeys`), and a
  lemma ties the two together.
- `report_shape.dfy` (module `ReportShape`): lemmas about a whole report. They cover the
  length, the position and content of every record, the gauge rule, the name prefix, and two
  concrete scenarios.
- `reporter.dfy` (module `AppInsights`): the imperative part, in the source's own form.
  - `TelemetryClient` is the sink. It keeps the sequence of metrics it was asked to track.
  - `AppInsightsReporter` has final (`const`) fields. Its `Record`, `DoGauge`, `DoMetered`,
    `DoTimerMetered`, `DoHistogramSnapshot`, `DoTimerSnapshot` and `Report` methods append to
    the client. Each method's postcondition states the new sequence in terms of the
    `Emission` functions.
  - `Builder` has mutable fields and setters that return `this`.

Values are of an abstract type `N`. Java's numeric conversions are uninterpreted parameters,
grouped in `JavaFloat`: the `(float)` cast, the widening of a `long` passed to
`record(String, float)`, `Float.isNaN` and `Float.isInfinite`. The unit names and conversions
come from the `ScheduledReporter` base class, which is not part of this model. They are
uninterpreted too, grouped in `ScheduledBase`: `getRateUnit`, `getDurationUnit`,
`convertRate` and `convertDuration`, each a function of the configured `TimeUnit`.

## Model

| member | source | states |
|---|---|---|
| `Metrics.LexLess` | src/main/java/com/github/shtratos/metrics/appinsights/AppInsightsReporter.java:66-67 | defines `String.compareTo(a, b) < 0` on keys: char by char, with a proper prefix first |
| `Metrics.IsSortedMap` | src/main/java/com/github/shtratos/metrics/appinsights/AppInsightsReporter.java:66-67 | defines the iteration order of a `SortedMap<String, M>`: keys strictly increasing under `LexLess` |
| `Metrics.DistinctKeys` | src/main/java/com/github/shtratos/metrics/appinsights/AppInsightsReporter.java:66-67 | defines the key uniqueness of any `Map`: no two entries share a key |
| `Metrics.LexLessIrreflexive` | src/main/java/com/github/shtratos/metrics/appinsights/AppInsightsReporter.java:66-67 | no key of a sorted map precedes itself under `String.compareTo` order |
| `Metrics.LexLessPrefix` | src/main/java/com/github/shtratos/metrics/appinsights/AppInsightsReporter.java:155-156 | putting the same prefix in front of two keys keeps their order |
| `Metrics.SortedMapKeysDistinct` | src/main/java/com/github/shtratos/metrics/appinsights/AppInsightsReporter.java:66-67 | a `SortedMap` has pairwise distinct keys, because `LexLess` never puts a key before itself |
| `Emission.Settings.Sent` | src/main/java/com/github/shtratos/metrics/appinsights/AppInsightsReporter.java:155-159 | defines what `record(name, value)` hands to `trackMetric`: `metricNamePrefix + name` and the value unchanged |
| `Emission.Settings.Rate` | src/main/java/com/github/shtratos/metrics/appinsights/AppInsightsReporter.java:106-110 | defines a rate as sent: `convertRate` of the configured rate unit, then the `(float)` cast |
| `Emission.Settings.Duration` | src/main/java/com/github/shtratos/metrics/appinsights/AppInsightsReporter.java:118-127 | defines a duration as sent: `convertDuration` of the configured duration unit, then the `(float)` cast |
| `Emission.Reportable` | src/main/java/com/github/shtratos/metrics/appinsights/AppInsightsReporter.java:147-149 | defines the gauge test: the value is a `Number` whose `floatValue` is neither NaN nor infinite |
| `Emission.GaugeRecords` | src/main/java/com/github/shtratos/metrics/appinsights/AppInsightsReporter.java:144-153 | a gauge yields exactly `[(prefix + name, floatValue)]` when its value is a Number whose float is neither NaN nor infinite, and nothing otherwise |
| `Emission.ReportableCount` | src/main/java/com/github/shtratos/metrics/appinsights/AppInsightsReporter.java:71-73 | counts the gauges that pass `Reportable`; never more than the gauges given |
| `Emission.CounterRecords` | src/main/java/com/github/shtratos/metrics/appinsights/AppInsightsReporter.java:75-79 | a counter yields exactly one record |
| `Emission.MeteredItem` | src/main/java/com/github/shtratos/metrics/appinsights/AppInsightsReporter.java:105-111 | the meter record table: record 0 is `name/count` with the raw count; record `j` is `name` + `RateKeys[j-1]` + rate unit with the `j`-th converted rate |
| `Emission.MeteredRecords` | src/main/java/com/github/shtratos/metrics/appinsights/AppInsightsReporter.java:105-111 | a meter yields exactly five records |
| `Emission.MeteredRecordAt` | src/main/java/com/github/shtratos/metrics/appinsights/AppInsightsReporter.java:105-111 | record 0 of a meter is `name/count` with the raw count; record `j` (1 to 4) is `name` + `RateKeys[j-1]` + rate unit, carrying the `j`-th rate after `convertRate` and the float cast |
| `Emission.SnapshotItem` | src/main/java/com/github/shtratos/metrics/appinsights/AppInsightsReporter.java:117-142 | the snapshot record table: record `j` is `name + SnapshotKeys[j]` + a suffix, with the `j`-th statistic after `convertDuration` and the float cast |
| `Emission.HistogramRecords` | src/main/java/com/github/shtratos/metrics/appinsights/AppInsightsReporter.java:117-128 | a histogram yields exactly ten records |
| `Emission.HistogramRecordAt` | src/main/java/com/github/shtratos/metrics/appinsights/AppInsightsReporter.java:117-128 | record `j` of a histogram is `name + SnapshotKeys[j]` with no unit suffix, carrying the `j`-th statistic after `convertDuration` and the float cast |
| `Emission.TimerSnapshotRecords` | src/main/java/com/github/shtratos/metrics/appinsights/AppInsightsReporter.java:130-142 | a timer's snapshot yields exactly ten records |
| `Emission.TimerSnapshotRecordAt` | src/main/java/com/github/shtratos/metrics/appinsights/AppInsightsReporter.java:130-142 | record `j` of a timer snapshot is `name + SnapshotKeys[j] + "/" + durationUnit`, carrying the converted `j`-th statistic |
| `Emission.TimerRecords` | src/main/java/com/github/shtratos/metrics/appinsights/AppInsightsReporter.java:95-102 | a timer yields exactly fifteen records |
| `Emission.TimerRecordAt` | src/main/java/com/github/shtratos/metrics/appinsights/AppInsightsReporter.java:95-102 | record `j` of a timer is the `j`-th meter-table record for `j` below 5, and otherwise the `(j-5)`-th snapshot-table record with `"/" + durationUnit` |
| `Emission.ReportRecords` | src/main/java/com/github/shtratos/metrics/appinsights/AppInsightsReporter.java:65-103 | defines everything one `report` sends, in order: the gauge, counter, histogram, meter and timer records, each group in key order |
| `ReportShape.GaugeSectionLength` | src/main/java/com/github/shtratos/metrics/appinsights/AppInsightsReporter.java:71-73 | the gauge loop sends one record per reportable gauge and none for the others |
| `ReportShape.ReportLength` | src/main/java/com/github/shtratos/metrics/appinsights/AppInsightsReporter.java:66-103 | a report sends reportable gauges + counters + 10·histograms + 5·meters + 15·timers records |
| `ReportShape.GaugeSectionAt` | src/main/java/com/github/shtratos/metrics/appinsights/AppInsightsReporter.java:71-73 | a reportable gauge's record comes right after the records of the reportable gauges before it in key order |
| `ReportShape.GaugeSectionNamed` | src/main/java/com/github/shtratos/metrics/appinsights/AppInsightsReporter.java:144-153 | when no two gauges share a name, a gauge record named after gauge `k` can only be gauge `k`'s own, and only if that gauge is reportable |
| `ReportShape.GaugeSectionSorted` | src/main/java/com/github/shtratos/metrics/appinsights/AppInsightsReporter.java:71-73 | over a sorted map, the gauge records are sent in strictly increasing name order, prefix included |
| `ReportShape.CounterSectionAt` | src/main/java/com/github/shtratos/metrics/appinsights/AppInsightsReporter.java:75-79 | in the counter loop's output, counter `k`'s record `prefix + name + "/count"` with its count is the `k`-th |
| `ReportShape.HistogramSectionAt` | src/main/java/com/github/shtratos/metrics/appinsights/AppInsightsReporter.java:81-87 | in the histogram loop's output, record `j` of histogram `i` is at `10·i + j` and carries `prefix + name + SnapshotKeys[j]` with the converted statistic |
| `ReportShape.MeterSectionAt` | src/main/java/com/github/shtratos/metrics/appinsights/AppInsightsReporter.java:89-93 | in the meter loop's output, record `j` of meter `i` is at `5·i + j` and is the `j`-th meter-table record |
| `ReportShape.TimerSectionAt` | src/main/java/com/github/shtratos/metrics/appinsights/AppInsightsReporter.java:95-102 | in the timer loop's output, record `j` of timer `i` is at `15·i + j`: meter-table records first, then unit-suffixed statistics |
| `ReportShape.ReportGauge` | src/main/java/com/github/shtratos/metrics/appinsights/AppInsightsReporter.java:144-153 | when no two gauges share a name, among a report's gauge records gauge `k` has exactly one record under its bare prefixed name, carrying its float, if it is reportable, and none if it is not |
| `ReportShape.ReportCounterAt` | src/main/java/com/github/shtratos/metrics/appinsights/AppInsightsReporter.java:75-79 | counter `k` sends `prefix + name + "/count"` with its count, at position gauges + `k`: after all gauges, in key order |
| `ReportShape.ReportHistogramAt` | src/main/java/com/github/shtratos/metrics/appinsights/AppInsightsReporter.java:81-87 | record `j` of histogram `i` sits at gauges + counters + 10·`i` + `j` and carries `prefix + name + SnapshotKeys[j]` with the converted `j`-th statistic |
| `ReportShape.ReportMeterAt` | src/main/java/com/github/shtratos/metrics/appinsights/AppInsightsReporter.java:89-93 | record `j` of meter `i` sits after all histograms, at offset 5·`i` + `j`, and is the `j`-th meter record of the table |
| `ReportShape.ReportTimerAt` | src/main/java/com/github/shtratos/metrics/appinsights/AppInsightsReporter.java:95-102 | record `j` of timer `i` sits after all meters, at offset 15·`i` + `j`. Records 0 to 4 are the meter-style ones. Records 5 to 14 are the statistics, each key ending in `"/" + durationUnit` |
| `ReportShape.ReportNamesPrefixed` | src/main/java/com/github/shtratos/metrics/appinsights/AppInsightsReporter.java:155-159 | every record a report sends is named `metricNamePrefix` followed by the name the code built |
| `ReportShape.CounterScenario` | src/main/java/com/github/shtratos/metrics/appinsights/AppInsightsReporter.java:75-79 | a counter `jobs` at 3, reported with prefix `app/`, yields exactly `[("app/jobs/count", 3)]` |
| `ReportShape.NaNGaugeScenario` | src/main/java/com/github/shtratos/metrics/appinsights/AppInsightsReporter.java:147-151 | a gauge whose float is NaN yields no record |
| `AppInsights.TelemetryClient.constructor` | src/main/java/com/github/shtratos/metrics/appinsights/AppInsightsReporter.java:236 | a freshly made client has tracked nothing |
| `AppInsights.TelemetryClient.TrackMetric` | src/main/java/com/github/shtratos/metrics/appinsights/AppInsightsReporter.java:158 | each call appends exactly one `(name, value)` pair to what the client has tracked |
| `AppInsights.AppInsightsReporter.constructor` | src/main/java/com/github/shtratos/metrics/appinsights/AppInsightsReporter.java:54-63 | the reporter keeps the given name, filter, units, prefix and client |
| `AppInsights.AppInsightsReporter.Record` | src/main/java/com/github/shtratos/metrics/appinsights/AppInsightsReporter.java:155-159 | exactly one client call is made, with `metricNamePrefix + name` and the value |
| `AppInsights.AppInsightsReporter.DoGauge` | src/main/java/com/github/shtratos/metrics/appinsights/AppInsightsReporter.java:144-153 | appends exactly `GaugeRecords` of the gauge: one record or none |
| `AppInsights.AppInsightsReporter.DoMetered` | src/main/java/com/github/shtratos/metrics/appinsights/AppInsightsReporter.java:105-111 | appends exactly the five meter records |
| `AppInsights.AppInsightsReporter.DoTimerMetered` | src/main/java/com/github/shtratos/metrics/appinsights/AppInsightsReporter.java:113-115 | appends the timer's five meter-style records |
| `AppInsights.AppInsightsReporter.DoHistogramSnapshot` | src/main/java/com/github/shtratos/metrics/appinsights/AppInsightsReporter.java:117-128 | appends exactly the ten histogram records |
| `AppInsights.AppInsightsReporter.DoTimerSnapshot` | src/main/java/com/github/shtratos/metrics/appinsights/AppInsightsReporter.java:130-142 | appends exactly the ten unit-suffixed snapshot records |
| `AppInsights.AppInsightsReporter.Report` | src/main/java/com/github/shtratos/metrics/appinsights/AppInsightsReporter.java:65-103 | appends exactly `ReportRecords` of the five maps, whose shape the `ReportShape` lemmas give |
| `AppInsights.AppInsightsReporter.ReportGauges` | src/main/java/com/github/shtratos/metrics/appinsights/AppInsightsReporter.java:71-73 | the gauge loop appends each gauge's records in key order |
| `AppInsights.AppInsightsReporter.ReportCounters` | src/main/java/com/github/shtratos/metrics/appinsights/AppInsightsReporter.java:75-79 | the counter loop appends each counter's `/count` record in key order |
| `AppInsights.AppInsightsReporter.ReportHistograms` | src/main/java/com/github/shtratos/metrics/appinsights/AppInsightsReporter.java:81-87 | the histogram loop appends each histogram's ten records in key order |
| `AppInsights.AppInsightsReporter.ReportMeters` | src/main/java/com/github/shtratos/metrics/appinsights/AppInsightsReporter.java:89-93 | the meter loop appends each meter's five records in key order |
| `AppInsights.AppInsightsReporter.ReportTimers` | src/main/java/com/github/shtratos/metrics/appinsights/AppInsightsReporter.java:95-102 | the timer loop appends each timer's fifteen records in key order |
| `AppInsights.ReportTwice` | src/main/java/com/github/shtratos/metrics/appinsights/AppInsightsReporter.java:30-31 | with final fields, two reports of the same metrics append two identical record sequences |
| `AppInsights.Builder.constructor` | src/main/java/com/github/shtratos/metrics/appinsights/AppInsightsReporter.java:170-178 | the defaults: SECONDS, MILLISECONDS, prefix `""`, name `"App Insights reporter"`, filter ALL, no client |
| `AppInsights.Builder.Name` | src/main/java/com/github/shtratos/metrics/appinsights/AppInsightsReporter.java:184-187 | sets only the name and returns the same builder |
| `AppInsights.Builder.Filter` | src/main/java/com/github/shtratos/metrics/appinsights/AppInsightsReporter.java:193-196 | sets only the filter and returns the same builder |
| `AppInsights.Builder.RateUnit` | src/main/java/com/github/shtratos/metrics/appinsights/AppInsightsReporter.java:202-205 | sets only the rate unit and returns the same builder |
| `AppInsights.Builder.DurationUnit` | src/main/java/com/github/shtratos/metrics/appinsights/AppInsightsReporter.java:211-214 | sets only the duration unit and returns the same builder |
| `AppInsights.Builder.MetricNamePrefix` | src/main/java/com/github/shtratos/metrics/appinsights/AppInsightsReporter.java:221-224 | sets only the prefix and returns the same builder |
| `AppInsights.Builder.TelemetryClient` | src/main/java/com/github/shtratos/metrics/appinsights/AppInsightsReporter.java:230-233 | sets only the client and returns the same builder |
| `AppInsights.Builder.Build` | src/main/java/com/github/shtratos/metrics/appinsights/AppInsightsReporter.java:235-239 | a fresh reporter with the collected settings. It uses the supplied client when there is one, and otherwise a fresh client that has tracked nothing |

## Left out

- `ReportGauges`, `ReportCounters`, `ReportHistograms`, `ReportMeters` and `ReportTimers`: in the source, `report` runs its five loops inline. Here each loop is its own method, and `Report` calls them in order. The loops and what they send are unchanged; only the extra method boundary is an addition.
- The `TelemetryClient.trackMetric` transport (batching, network, errors) is not modelled. The client only records the calls it receives. A failing client call, which in Java would end `report` early, is not modelled.
- Java `null` passed to the `Builder` is not modelled: its setters take a `string`, `MetricFilter` or `TimeUnit`, none of which can be null. In the source, `metricNamePrefix(null)` makes every key start with `"null"` (string concatenation at line 156). `filter(null)`, `rateUnit(null)` and `durationUnit(null)` make `build` throw a `NullPointerException`, because the constructor's log call at line 62 dereferences all three.
- A metric getter that throws (for example a user gauge's `getValue()` at line 145) ends `report` early in the source, and the remaining records are not sent. The model's metric values are plain data that cannot fail, so every report runs to the end.
- SLF4J logging (constructor, `report`, `record`) is left out: it does not affect what is sent.
- The `MetricRegistry` handle, `forRegistry` and the `ScheduledReporter` scheduling (`start`, the periodic timer, applying the filter before `report`) belong to the base class or the metrics library. They are left out. `Builder` keeps the filter, and the reporter stores it, but nothing applies it. `MetricFilter` is modelled as `ALL` or a test on the metric's name.
- `convertRate`, `convertDuration`, `getRateUnit` and `getDurationUnit` are uninterpreted (`ScheduledBase`), because they live in the base class. The concrete spellings of the unit strings are therefore not fixed by the model.
- Java float semantics are uninterpreted. `JavaFloat` holds the `(float)` narrowing, the `long`-to-`float` widening, `Float.isNaN` and `Float.isInfinite`. `Number.floatValue` is not a function of the model: a gauge's value is given already read through it, as `GaugeValue.Number(floatValue)`. The widening of `getMin()`/`getMax()` (a `long`) to `double` is folded into the snapshot value. So is the widening of the `float` argument to `trackMetric`'s `double`. As a result, no numeric claim (for example that a 5 ms timer reports about 5.0) is stated.
- `Snapshot` percentile statistics and meter rates are taken as given values. They come from dropwizard's algorithms, which are not part of this model.
- `Metrics.LexLess` compares `char`s by code point. `String.compareTo` compares UTF-16 code units. The two differ only outside the Basic Multilingual Plane.
- Thread safety (`@ThreadSafe`) and concurrent reports are not modelled. `Report` is a single sequential call.
- The test file's behaviour is not modelled: it schedules random updates, and the reporter, on a thread pool, with no assertions.
