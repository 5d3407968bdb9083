/** The older single-file variant metrics-build/metrics_reader.py: SDK-typed
    time series, a histogram with explicit buckets, a seven-metric test run and
    a batch run aggregating "Maximum Random Value" scalars. Its
    `add_scalar_metrics`, `add_plotly_metrics` and `add_text_metrics` do what the
    builder's functions of the same purpose do, and the model reuses those. */
module MetricsReader {
  import opened Wrappers
  import opened Metrics
  import opened FlightData
  import opened NameTracker
  import opened MetricsBuilder
  import Stats

  // ---------------------------------------------------------------------------
  // Time series

  /** One SDK Timestamp per sample, in sample order: whole seconds, no nanoseconds. */
  function WholeSeconds(samples: seq<Sample>): (r: seq<Timestamp>)
    ensures |r| == |samples|
    ensures forall i :: 0 <= i < |samples| ==> r[i].secs == samples[i].timestamp && r[i].nanos == 0
  {
    seq(|samples|, i requires 0 <= i < |samples| => Timestamp(samples[i].timestamp, 0))
  }

  /** The sample loop of `add_double_over_time_metrics`. */
  method SpeedSeries(samples: seq<Sample>) returns (timestamps: seq<Timestamp>, speeds: seq<real>)
    ensures timestamps == WholeSeconds(samples)
    ensures speeds == Speeds(samples)
  {
    timestamps, speeds := [], [];
    for i := 0 to |samples|
      invariant timestamps == WholeSeconds(samples[..i])
      invariant speeds == Speeds(samples[..i])
    {
      assert samples[..i + 1] == samples[..i] + [samples[i]];
      timestamps := timestamps + [Timestamp(samples[i].timestamp, 0)];
      speeds := speeds + [samples[i].speed];
    }
    assert samples[..|samples|] == samples;
  }

  /** The sample loop of `add_states_over_time_metrics`. */
  method StateSeries(samples: seq<Sample>) returns (timestamps: seq<Timestamp>, states: seq<string>)
    ensures timestamps == WholeSeconds(samples)
    ensures states == States(samples)
  {
    timestamps, states := [], [];
    for i := 0 to |samples|
      invariant timestamps == WholeSeconds(samples[..i])
      invariant states == States(samples[..i])
    {
      assert samples[..i + 1] == samples[..i] + [samples[i]];
      timestamps := timestamps + [Timestamp(samples[i].timestamp, 0)];
      states := states + [samples[i].state];
    }
    assert samples[..|samples|] == samples;
  }

  /** The single failure definition of the speed series, `DoubleFailureDefinition(0.0, 100.0)`,
      under the assumed positional reading (fails_below, fails_above). */
  const SpeedFailure := FailureDef(0.0, 100.0)

  /** `add_double_over_time_metrics`: "Speed Over Time", HIGH, PASSED, with
      every status PASSED. */
  method AddDoubleOverTimeMetrics(w: MetricsWriter, record: FlightRecord)
    modifies w
    ensures w.metrics == old(w.metrics) + [Metric(SpeedOverTimeName, HighImportance, Passed,
      DoubleOverTime(WholeSeconds(record.samples), Speeds(record.samples),
                     AllPassed(|record.samples|), [SpeedFailure]))]
  {
    var timestamps, speeds := SpeedSeries(record.samples);
    w.Add(Metric(SpeedOverTimeName, HighImportance, Passed,
                 DoubleOverTime(timestamps, speeds, AllPassed(|speeds|), [SpeedFailure])));
  }

  /** `{str(sample["state"]) for sample in samples}`. */
  function StateSet(samples: seq<Sample>): (r: set<string>)
    ensures forall x :: x in r <==> x in States(samples)
  {
    set i | 0 <= i < |samples| :: samples[i].state
  }

  /** `add_states_over_time_metrics`: "Flight States Over Time", HIGH, PASSED,
      the observed states as its state set and no failure states. */
  method AddStatesOverTimeMetrics(w: MetricsWriter, record: FlightRecord)
    modifies w
    ensures w.metrics == old(w.metrics) + [Metric(FlightStatesName, HighImportance, Passed,
      StatesOverTime(WholeSeconds(record.samples), States(record.samples),
                     AllPassed(|record.samples|), StateSet(record.samples), {}))]
  {
    var timestamps, states := StateSeries(record.samples);
    w.Add(Metric(FlightStatesName, HighImportance, Passed,
                 StatesOverTime(timestamps, states, AllPassed(|states|), StateSet(record.samples), {})));
  }

  /** Seconds since the first sample. */
  function SecondsFromStart(samples: seq<Sample>): (r: seq<int>)
    requires |samples| > 0
    ensures |r| == |samples| && r[0] == 0
    ensures forall i :: 0 <= i < |samples| ==> r[i] == samples[i].timestamp - samples[0].timestamp
  {
    seq(|samples|, i requires 0 <= i < |samples| => samples[i].timestamp - samples[0].timestamp)
  }

  function XPositions(samples: seq<Sample>): (r: seq<real>)
    ensures |r| == |samples|
    ensures forall i :: 0 <= i < |samples| ==> r[i] == samples[i].position.x
  {
    seq(|samples|, i requires 0 <= i < |samples| => samples[i].position.x)
  }

  /** `add_line_plot_metrics`: "X Position Over Time", HIGH, PASSED, or raises
      (appending nothing) when there is no first sample. */
  method AddLinePlotMetrics(w: MetricsWriter, record: FlightRecord) returns (o: Outcome<FlightError>)
    modifies w
    ensures o.Fail? <==> |record.samples| == 0
    ensures o.Fail? ==> o.error == NoFirstSample && w.metrics == old(w.metrics)
    ensures o.Pass? ==> w.metrics == old(w.metrics) + [Metric(XPositionName, HighImportance, Passed,
      LinePlot(SecondsFromStart(record.samples), XPositions(record.samples), AllPassed(|record.samples|)))]
  {
    var series := RelativeTimes(record.samples);
    if series.Failure? {
      return Fail(series.error);
    }
    assert series.value.x == SecondsFromStart(record.samples);
    assert series.value.y == XPositions(record.samples);
    w.Add(Metric(XPositionName, HighImportance, Passed,
                 LinePlot(series.value.x, series.value.y, AllPassed(|series.value.x|))));
    o := Pass;
  }

  // ---------------------------------------------------------------------------
  // Histogram

  /** `[HistogramBucket(i * size, (i + 1) * size) for i in range(10)]` with
      `size = max_speed / 10`: ten contiguous buckets of equal width from 0 to
      the maximum. */
  function HistogramBuckets(maxSpeed: real): (r: seq<Bucket>)
    ensures |r| == 10
    ensures r[0].lower == 0.0 && r[9].upper == maxSpeed
    ensures forall i :: 0 <= i < 10 ==> r[i].upper - r[i].lower == maxSpeed / 10.0
    ensures forall i :: 0 <= i < 9 ==> r[i].upper == r[i + 1].lower
  {
    var size := maxSpeed / 10.0;
    seq(10, i requires 0 <= i < 10 => Bucket(i as real * size, (i + 1) as real * size))
  }

  /** Every value in [0, max] lies in some bucket; for a maximum of 0 all ten
      buckets are [0, 0] and hold the value 0. */
  lemma BucketsCover(maxSpeed: real, v: real)
    requires 0.0 <= v <= maxSpeed
    ensures exists i :: 0 <= i < 10 && HistogramBuckets(maxSpeed)[i].lower <= v <= HistogramBuckets(maxSpeed)[i].upper
  {
    CoverFrom(HistogramBuckets(maxSpeed), 0, v);
  }

  /** Scanning contiguous buckets from `k` finds the one holding `v`. */
  lemma {:induction false} CoverFrom(b: seq<Bucket>, k: nat, v: real)
    requires |b| == 10 && k < 10
    requires forall i :: 0 <= i < 9 ==> b[i].upper == b[i + 1].lower
    requires b[k].lower <= v <= b[9].upper
    ensures exists i :: 0 <= i < 10 && b[i].lower <= v <= b[i].upper
    decreases 10 - k
  {
    if v > b[k].upper {
      assert k < 9;
      CoverFrom(b, k + 1, v);
    }
  }

  /** `add_histogram_metrics`: "Speed Distribution", MEDIUM, PASSED, buckets
      over [0, max speed] and those declared bounds; raises (appending nothing)
      for no samples. */
  method AddHistogramMetrics(w: MetricsWriter, record: FlightRecord) returns (o: Outcome<FlightError>)
    modifies w
    ensures o.Fail? <==> |record.samples| == 0
    ensures o.Fail? ==> o.error == MaxOfEmpty && w.metrics == old(w.metrics)
    ensures o.Pass? ==> w.metrics == old(w.metrics) + [Metric(SpeedDistributionName, MediumImportance, Passed,
      Histogram(Speeds(record.samples), AllPassed(|record.samples|),
                HistogramBuckets(MaxSpeed(record.samples).value), 0.0, MaxSpeed(record.samples).value))]
  {
    var speeds := Speeds(record.samples);
    var maxSpeed := MaxSpeed(record.samples);
    if maxSpeed.Failure? {
      return Fail(maxSpeed.error);
    }
    w.Add(Metric(SpeedDistributionName, MediumImportance, Passed,
                 Histogram(speeds, AllPassed(|speeds|), HistogramBuckets(maxSpeed.value), 0.0, maxSpeed.value)));
    o := Pass;
  }

  /** A payload's status series is all PASSED and as long as its data series. */
  predicate StatusesMatchData(p: Payload)
  {
    match p
    case DoubleOverTime(ts, vs, ss, _) => |ss| == |vs| == |ts| && forall i :: 0 <= i < |ss| ==> ss[i] == Passed
    case StatesOverTime(ts, vs, ss, _, _) => |ss| == |vs| == |ts| && forall i :: 0 <= i < |ss| ==> ss[i] == Passed
    case LinePlot(xs, ys, ss) => |ss| == |xs| == |ys| && forall i :: 0 <= i < |ss| ==> ss[i] == Passed
    case Histogram(vs, ss, _, _, _) => |ss| == |vs| && forall i :: 0 <= i < |ss| ==> ss[i] == Passed
    case _ => true
  }

  // ---------------------------------------------------------------------------
  // The test run

  /** The names `run_test_metrics` logs, in order (no altitude plot here). */
  const ReaderMetricNames: seq<string> := [
    MaximumSpeedName, SpeedOverTimeName, FlightStatesName, XPositionName,
    SpeedDistributionName, FlightPathName, FlightSummaryName]

  /** Each name differs from every name logged before it. */
  lemma ReaderNamesFresh()
    ensures SpeedOverTimeName !in {MaximumSpeedName}
    ensures FlightStatesName !in {MaximumSpeedName, SpeedOverTimeName}
    ensures XPositionName !in {MaximumSpeedName, SpeedOverTimeName, FlightStatesName}
    ensures SpeedDistributionName !in {MaximumSpeedName, SpeedOverTimeName, FlightStatesName, XPositionName}
    ensures FlightPathName !in {MaximumSpeedName, SpeedOverTimeName, FlightStatesName, XPositionName,
                                SpeedDistributionName}
    ensures FlightSummaryName !in {MaximumSpeedName, SpeedOverTimeName, FlightStatesName, XPositionName,
                                   SpeedDistributionName, FlightPathName}
  {
  }

  /** What a successful run prints: one "Adding metric" line per name. */
  const ReaderRunLog: seq<LogLine> := [
    AddingMetric(MaximumSpeedName), AddingMetric(SpeedOverTimeName), AddingMetric(FlightStatesName),
    AddingMetric(XPositionName), AddingMetric(SpeedDistributionName), AddingMetric(FlightPathName),
    AddingMetric(FlightSummaryName)]

  /** The tracker's set after a successful run. */
  const ReaderNameSet: set<string> := {
    MaximumSpeedName, SpeedOverTimeName, FlightStatesName, XPositionName,
    SpeedDistributionName, FlightPathName, FlightSummaryName}

  /** The run's log and set are what the tracker yields for the seven distinct names. */
  lemma ReaderRunNeverWarns()
    ensures NoDuplicates(ReaderMetricNames)
    ensures LogAfter(ReaderMetricNames) == ReaderRunLog
    ensures AddedAfter(ReaderMetricNames) == ReaderNameSet
  {
    DistinctNamesNeverWarn(ReaderMetricNames);
    AddedAfterIsElements(ReaderMetricNames);
  }

  /** The metrics a successful run writes, in order. */
  function ReaderMetrics(record: FlightRecord): seq<Metric>
    requires |record.samples| > 0 && HasUnits(record)
  {
    ReaderSeriesMetrics(record) + [SpeedHistogramMetric(record), Metric(FlightPathName, HighImportance, Passed, Plotly),
                                   Metric(FlightSummaryName, MediumImportance, Passed, FlightText(Summarize(record).value))]
  }

  /** The first four metrics of a run: the maximum speed and the three series. */
  function ReaderSeriesMetrics(record: FlightRecord): seq<Metric>
    requires |record.samples| > 0
  {
    var n := |record.samples|;
    [ Metric(MaximumSpeedName, HighImportance, Passed, Scalar(MaxSpeed(record.samples).value, Some("m/s"), None)),
      Metric(SpeedOverTimeName, HighImportance, Passed,
             DoubleOverTime(WholeSeconds(record.samples), Speeds(record.samples), AllPassed(n), [SpeedFailure])),
      Metric(FlightStatesName, HighImportance, Passed,
             StatesOverTime(WholeSeconds(record.samples), States(record.samples), AllPassed(n),
                            StateSet(record.samples), {})),
      Metric(XPositionName, HighImportance, Passed,
             LinePlot(SecondsFromStart(record.samples), XPositions(record.samples), AllPassed(n))) ]
  }

  /** The histogram metric of a flight with samples. */
  function SpeedHistogramMetric(record: FlightRecord): Metric
    requires |record.samples| > 0
  {
    var maxSpeed := MaxSpeed(record.samples).value;
    Metric(SpeedDistributionName, MediumImportance, Passed,
           Histogram(Speeds(record.samples), AllPassed(|record.samples|), HistogramBuckets(maxSpeed), 0.0, maxSpeed))
  }

  /** Every metric of a successful run is PASSED, carries the name logged just
      before it, and has an all-PASSED status series as long as its data. */
  lemma ReaderMetricsWellFormed(record: FlightRecord)
    requires |record.samples| > 0 && HasUnits(record)
    ensures |ReaderMetrics(record)| == |ReaderRunLog| == 7
    ensures forall i :: 0 <= i < 7 ==>
              && ReaderRunLog[i] == AddingMetric(ReaderMetrics(record)[i].name)
              && ReaderMetrics(record)[i].status == Passed
              && StatusesMatchData(ReaderMetrics(record)[i].payload)
  {
  }

  /** Steps two to four of a run: the speed series, the state series and the line plot. */
  method AddSeriesMetrics(writer: MetricsWriter, tracker: MetricNameTracker, record: FlightRecord)
    requires |record.samples| > 0
    requires SpeedOverTimeName !in tracker.added && FlightStatesName !in tracker.added
    requires XPositionName !in tracker.added
    modifies writer, tracker
    ensures writer.metrics == old(writer.metrics) + ReaderSeriesMetrics(record)[1..]
    ensures tracker.log == old(tracker.log) + ReaderRunLog[1..4]
    ensures tracker.added == old(tracker.added) + {SpeedOverTimeName, FlightStatesName, XPositionName}
  {
    var _ := tracker.LogMetricAddition(SpeedOverTimeName);
    AddDoubleOverTimeMetrics(writer, record);
    var _ := tracker.LogMetricAddition(FlightStatesName);
    AddStatesOverTimeMetrics(writer, record);
    var _ := tracker.LogMetricAddition(XPositionName);
    var o := AddLinePlotMetrics(writer, record);
    assert o.Pass?;
  }

  /** Steps five and six of a run: the histogram and the 3D path. */
  method AddHistogramAndPath(writer: MetricsWriter, tracker: MetricNameTracker, record: FlightRecord)
    requires |record.samples| > 0
    requires SpeedDistributionName !in tracker.added && FlightPathName !in tracker.added
    modifies writer, tracker
    ensures writer.metrics == old(writer.metrics) +
              [SpeedHistogramMetric(record), Metric(FlightPathName, HighImportance, Passed, Plotly)]
    ensures tracker.log == old(tracker.log) + ReaderRunLog[4..6]
    ensures tracker.added == old(tracker.added) + {SpeedDistributionName, FlightPathName}
  {
    var _ := tracker.LogMetricAddition(SpeedDistributionName);
    var o := AddHistogramMetrics(writer, record);
    assert o.Pass?;
    var _ := tracker.LogMetricAddition(FlightPathName);
    AddPlotlyMetricsFromFlightData(writer, record);
  }

  /** Steps five to seven of a run: the histogram, the 3D path and the summary
      text, which fails, after its name is logged, when the metadata or its
      units are missing. */
  method AddClosingMetrics(writer: MetricsWriter, tracker: MetricNameTracker, record: FlightRecord)
    returns (o: Outcome<FlightError>)
    requires |record.samples| > 0
    requires SpeedDistributionName !in tracker.added && FlightPathName !in tracker.added
    requires FlightSummaryName !in tracker.added
    modifies writer, tracker
    ensures o.Fail? <==> !HasUnits(record)
    ensures o.Fail? ==> o.error == UnitsOf(record).error
    ensures o.Fail? ==>
              writer.metrics == old(writer.metrics) +
                                [SpeedHistogramMetric(record), Metric(FlightPathName, HighImportance, Passed, Plotly)]
    ensures o.Pass? ==> writer.metrics == old(writer.metrics) + ReaderMetrics(record)[4..]
    ensures tracker.log == old(tracker.log) + ReaderRunLog[4..]
    ensures tracker.added == old(tracker.added) + {SpeedDistributionName, FlightPathName, FlightSummaryName}
  {
    AddHistogramAndPath(writer, tracker, record);
    var _ := tracker.LogMetricAddition(FlightSummaryName);
    o := AddTextMetrics(writer, record);
  }

  /** Steps two to seven of a run, after the maximum speed is logged and
      written; the last step raises when the metadata or its units are missing. */
  method AddFlightMetrics(writer: MetricsWriter, tracker: MetricNameTracker, record: FlightRecord)
    returns (o: Outcome<FlightError>)
    requires |record.samples| > 0
    requires tracker.log == [AddingMetric(MaximumSpeedName)] && tracker.added == {MaximumSpeedName}
    requires writer.metrics == ReaderSeriesMetrics(record)[..1]
    modifies writer, tracker
    ensures o.Fail? <==> !HasUnits(record)
    ensures o.Fail? ==> o.error == UnitsOf(record).error
    ensures o.Pass? ==> writer.metrics == ReaderMetrics(record)
    ensures tracker.log == ReaderRunLog && tracker.added == ReaderNameSet
  {
    ReaderNamesFresh();
    AddSeriesMetrics(writer, tracker, record);
    assert writer.metrics == ReaderSeriesMetrics(record);
    o := AddClosingMetrics(writer, tracker, record);
  }

  /** The log as this variant's `json.load` returns it, unvalidated: the
      "metadata" object and the "samples" list, each None when the key is absent. */
  datatype RawLog = RawLog(metadata: Option<Metadata>, samples: Option<seq<Sample>>)

  /** The flight record a log with a "samples" list stands for. */
  function RecordOf(raw: RawLog): (record: FlightRecord)
    requires raw.samples.Some?
    ensures record.samples == raw.samples.value && record.metadata == raw.metadata
  {
    FlightRecord(raw.metadata, raw.samples.value)
  }

  /** `run_test_metrics` over an unvalidated log. A missing "samples" key
      (KeyError) or an empty list (`max()`) raises at the first metric, after
      one name is logged. A missing "metadata" or "units" key raises at the
      summary, after all seven names are logged. Otherwise seven metrics are
      written, each after its logged name, and no warning is printed. */
  method RunTestMetrics(raw: RawLog)
    returns (r: Result<seq<Metric>, FlightError>, log: seq<LogLine>, added: set<string>)
    ensures r.Failure? <==> raw.samples.None? || |raw.samples.value| == 0 || !HasUnits(RecordOf(raw))
    ensures raw.samples.None? ==> r == Failure(MissingKey("samples"))
    ensures raw.samples == Some([]) ==> r == Failure(MaxOfEmpty)
    ensures raw.samples.None? || raw.samples == Some([]) ==>
              log == [AddingMetric(MaximumSpeedName)] && added == {MaximumSpeedName}
    ensures raw.samples.Some? && |raw.samples.value| > 0 ==> log == ReaderRunLog && added == ReaderNameSet
    ensures raw.samples.Some? && |raw.samples.value| > 0 && !HasUnits(RecordOf(raw)) ==>
              r == Failure(UnitsOf(RecordOf(raw)).error)
    ensures r.Success? ==> r.value == ReaderMetrics(RecordOf(raw))
  {
    ReaderNamesFresh();
    var writer := new MetricsWriter();
    var tracker := new MetricNameTracker();
    var _ := tracker.LogMetricAddition(MaximumSpeedName);
    if raw.samples.None? {
      return Failure(MissingKey("samples")), tracker.log, tracker.added;
    }
    var record := RecordOf(raw);
    var o := AddScalarMetrics(writer, record);
    if o.Fail? {
      return Failure(o.error), tracker.log, tracker.added;
    }
    o := AddFlightMetrics(writer, tracker, record);
    if o.Fail? {
      return Failure(o.error), tracker.log, tracker.added;
    }
    r, log, added := Success(writer.metrics), tracker.log, tracker.added;
  }

  // ---------------------------------------------------------------------------
  // The batch run

  const MaximumRandomValueName := "Maximum Random Value"
  const BatchMaximumName := "Batch Maximum Value"
  const BatchAverageName := "Batch Average Maximum"

  /** The values one job's metric list contributes, in order; reading `.value`
      off a matching metric that is not a scalar raises. */
  function RandomValuesIn(metrics: seq<FetchedMetric>): (r: Result<seq<real>, BatchError>)
    ensures r.Success? ==> |r.value| <= |metrics|
    ensures r.Failure? ==>
              r.error == NotAScalar &&
              exists j :: 0 <= j < |metrics| && metrics[j].name == MaximumRandomValueName && !metrics[j].body.ScalarBody?
  {
    if |metrics| == 0 then Success([])
    else
      match RandomValuesIn(metrics[..|metrics| - 1])
      case Failure(e) => Failure(e)
      case Success(vs) =>
        var m := metrics[|metrics| - 1];
        if m.name != MaximumRandomValueName then Success(vs)
        else if m.body.ScalarBody? then Success(vs + [m.body.value])
        else Failure(NotAScalar)
  }

  /** `all_max_values` after the nested loop over every job, or the exception
      that aborts it. */
  function RandomValuesOf(jobs: seq<Job>): (r: Result<seq<real>, BatchError>)
    ensures r.Failure? ==> r.error == UnreadableJobMetrics || r.error == NotAScalar
    ensures r == Failure(UnreadableJobMetrics) ==> exists k :: 0 <= k < |jobs| && jobs[k].metrics.None?
    ensures r.Success? ==> forall k :: 0 <= k < |jobs| ==> jobs[k].metrics.Some?
  {
    if |jobs| == 0 then Success([])
    else
      match RandomValuesOf(jobs[..|jobs| - 1])
      case Failure(e) => Failure(e)
      case Success(vs) =>
        var job := jobs[|jobs| - 1];
        if job.metrics.None? then Failure(UnreadableJobMetrics)
        else
          match RandomValuesIn(job.metrics.value)
          case Failure(e) => Failure(e)
          case Success(more) => Success(vs + more)
  }

  /** A metric that contributes `v`. */
  predicate Contributes(m: FetchedMetric, v: real)
  {
    m.name == MaximumRandomValueName && m.body == ScalarBody(v)
  }

  /** A job's collected values are exactly the values of its matching metrics:
      nothing is skipped (no early break) and nothing else is taken. */
  lemma {:induction false} RandomValuesInExact(metrics: seq<FetchedMetric>)
    requires RandomValuesIn(metrics).Success?
    ensures forall j :: 0 <= j < |metrics| && metrics[j].name == MaximumRandomValueName ==>
              metrics[j].body.ScalarBody? && metrics[j].body.value in RandomValuesIn(metrics).value
    ensures forall v :: v in RandomValuesIn(metrics).value ==>
              exists j :: 0 <= j < |metrics| && Contributes(metrics[j], v)
  {
    if |metrics| > 0 {
      var init := metrics[..|metrics| - 1];
      RandomValuesInExact(init);
      assert forall j :: 0 <= j < |init| ==> init[j] == metrics[j];
    }
  }

  /** Across the batch, the collected values are exactly the values of every
      matching metric of every job, in both directions. */
  lemma {:induction false} RandomValuesOfExact(jobs: seq<Job>)
    requires RandomValuesOf(jobs).Success?
    ensures forall k :: 0 <= k < |jobs| ==> jobs[k].metrics.Some?
    ensures forall k, j ::
              (0 <= k < |jobs| && 0 <= j < |jobs[k].metrics.value| && jobs[k].metrics.value[j].name == MaximumRandomValueName)
              ==> (jobs[k].metrics.value[j].body.ScalarBody?
                   && jobs[k].metrics.value[j].body.value in RandomValuesOf(jobs).value)
    ensures forall v :: v in RandomValuesOf(jobs).value ==>
              exists k, j :: 0 <= k < |jobs| && 0 <= j < |jobs[k].metrics.value| && Contributes(jobs[k].metrics.value[j], v)
  {
    if |jobs| > 0 {
      var init := jobs[..|jobs| - 1];
      var last := jobs[|jobs| - 1];
      RandomValuesOfExact(init);
      assert forall k :: 0 <= k < |init| ==> init[k] == jobs[k];
      RandomValuesInExact(last.metrics.value);
    }
  }

  /** How many of a job's metrics contribute `v`. */
  function ContributionCount(metrics: seq<FetchedMetric>, v: real): nat
  {
    if |metrics| == 0 then 0
    else ContributionCount(metrics[..|metrics| - 1], v) + (if Contributes(metrics[|metrics| - 1], v) then 1 else 0)
  }

  /** How many metrics, over every job with a readable list, contribute `v`. */
  function BatchContributionCount(jobs: seq<Job>, v: real): nat
  {
    if |jobs| == 0 then 0
    else
      var job := jobs[|jobs| - 1];
      BatchContributionCount(jobs[..|jobs| - 1], v) + (if job.metrics.Some? then ContributionCount(job.metrics.value, v) else 0)
  }

  /** A job's collected values hold each value exactly as often as its metrics
      contribute it, so repeated maxima weigh in the average as often as they occur. */
  lemma {:induction false} RandomValuesInCounts(metrics: seq<FetchedMetric>)
    requires RandomValuesIn(metrics).Success?
    ensures forall v :: multiset(RandomValuesIn(metrics).value)[v] == ContributionCount(metrics, v)
  {
    if |metrics| > 0 {
      var init := metrics[..|metrics| - 1];
      var m := metrics[|metrics| - 1];
      RandomValuesInCounts(init);
      forall v ensures multiset(RandomValuesIn(metrics).value)[v] == ContributionCount(metrics, v) {
        if m.name == MaximumRandomValueName {
          assert RandomValuesIn(metrics).value == RandomValuesIn(init).value + [m.body.value];
        } else {
          assert RandomValuesIn(metrics).value == RandomValuesIn(init).value;
        }
      }
    }
  }

  /** Across the batch, the collected values hold each value exactly as often
      as the metrics of all jobs contribute it. */
  lemma {:induction false} RandomValuesOfCounts(jobs: seq<Job>)
    requires RandomValuesOf(jobs).Success?
    ensures forall v :: multiset(RandomValuesOf(jobs).value)[v] == BatchContributionCount(jobs, v)
  {
    if |jobs| > 0 {
      var init := jobs[..|jobs| - 1];
      var last := jobs[|jobs| - 1];
      RandomValuesOfCounts(init);
      RandomValuesInCounts(last.metrics.value);
      assert RandomValuesOf(jobs).value == RandomValuesOf(init).value + RandomValuesIn(last.metrics.value).value;
    }
  }

  /** Once a prefix of a job's metric list raises, the whole list raises the same way. */
  lemma {:induction false} RandomValuesInFailureSticks(metrics: seq<FetchedMetric>, n: nat)
    requires n <= |metrics| && RandomValuesIn(metrics[..n]).Failure?
    ensures RandomValuesIn(metrics) == RandomValuesIn(metrics[..n])
    decreases |metrics|
  {
    if n < |metrics| {
      var init := metrics[..|metrics| - 1];
      assert init[..n] == metrics[..n];
      RandomValuesInFailureSticks(init, n);
    } else {
      assert metrics[..n] == metrics;
    }
  }

  /** Once a prefix of the jobs raises, the whole batch raises the same way. */
  lemma {:induction false} RandomValuesOfFailureSticks(jobs: seq<Job>, n: nat)
    requires n <= |jobs| && RandomValuesOf(jobs[..n]).Failure?
    ensures RandomValuesOf(jobs) == RandomValuesOf(jobs[..n])
    decreases |jobs|
  {
    if n < |jobs| {
      var init := jobs[..|jobs| - 1];
      assert init[..n] == jobs[..n];
      RandomValuesOfFailureSticks(init, n);
    } else {
      assert jobs[..n] == jobs;
    }
  }

  /** The nested loop of `run_batch_metrics`, which never breaks early; the
      first job whose metric list cannot be read, or the first matching metric
      that is not a scalar, aborts it. */
  method CollectMaxRandomValues(jobs: seq<Job>) returns (r: Result<seq<real>, BatchError>)
    ensures r == RandomValuesOf(jobs)
  {
    var allMaxValues: seq<real> := [];
    for i := 0 to |jobs|
      invariant RandomValuesOf(jobs[..i]) == Success(allMaxValues)
    {
      assert jobs[..i + 1][..i] == jobs[..i];
      var job := jobs[i];
      if job.metrics.None? {
        RandomValuesOfFailureSticks(jobs, i + 1);
        return Failure(UnreadableJobMetrics);
      }
      var metrics := job.metrics.value;
      var jobValues: seq<real> := [];
      for j := 0 to |metrics|
        invariant RandomValuesIn(metrics[..j]) == Success(jobValues)
      {
        assert metrics[..j + 1][..j] == metrics[..j];
        var metric := metrics[j];
        if metric.name == MaximumRandomValueName {
          if !metric.body.ScalarBody? {
            RandomValuesInFailureSticks(metrics, j + 1);
            RandomValuesOfFailureSticks(jobs, i + 1);
            return Failure(NotAScalar);
          }
          jobValues := jobValues + [metric.body.value];
        }
      }
      assert metrics[..|metrics|] == metrics;
      allMaxValues := allMaxValues + jobValues;
    }
    assert jobs[..|jobs|] == jobs;
    r := Success(allMaxValues);
  }

  /** The batch-level scalars: none for no values, otherwise "Batch Maximum
      Value" (HIGH) holding the maximum and "Batch Average Maximum" (MEDIUM)
      holding the mean, both PASSED and without unit. */
  function BatchScalars(values: seq<real>): (r: seq<Metric>)
    ensures |values| == 0 <==> r == []
    ensures |values| > 0 ==>
              && |r| == 2
              && r[0] == Metric(BatchMaximumName, HighImportance, Passed, Scalar(Stats.Max(values), None, None))
              && r[1] == Metric(BatchAverageName, MediumImportance, Passed, Scalar(Stats.Mean(values), None, None))
    ensures |values| > 0 ==>
              && (forall i :: 0 <= i < |values| ==> values[i] <= r[0].payload.value)
              && (exists i :: 0 <= i < |values| && values[i] == r[0].payload.value)
              && Stats.Min(values) <= r[1].payload.value <= r[0].payload.value
  {
    if |values| == 0 then []
    else
      Stats.MeanBounds(values);
      [ Metric(BatchMaximumName, HighImportance, Passed, Scalar(Stats.Max(values), None, None)),
        Metric(BatchAverageName, MediumImportance, Passed, Scalar(Stats.Mean(values), None, None)) ]
  }

  /** `run_batch_metrics`: the scalars over every collected value, or the
      exception raised while collecting them. */
  method RunBatchMetrics(jobs: seq<Job>) returns (r: Result<seq<Metric>, BatchError>)
    ensures RandomValuesOf(jobs).Failure? ==> r == Failure(RandomValuesOf(jobs).error)
    ensures RandomValuesOf(jobs).Success? ==> r == Success(BatchScalars(RandomValuesOf(jobs).value))
  {
    var values := CollectMaxRandomValues(jobs);
    if values.Failure? {
      return Failure(values.error);
    }
    var writer := new MetricsWriter();
    if |values.value| > 0 {
      var batchMax := Stats.Max(values.value);
      var batchAvg := Stats.Mean(values.value);
      writer.Add(Metric(BatchMaximumName, HighImportance, Passed, Scalar(batchMax, None, None)));
      writer.Add(Metric(BatchAverageName, MediumImportance, Passed, Scalar(batchAvg, None, None)));
      assert writer.metrics == BatchScalars(values.value);
    }
    r := Success(writer.metrics);
  }
}
