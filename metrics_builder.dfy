/** The metric-building functions of metrics-build/metrics_builder.py, each
    appending its metric to the writer, with the loops and lookups they run. */
module MetricsBuilder {
  import opened Wrappers
  import opened Metrics
  import opened FlightData

  // Metric names, each spelled once
  const MaximumSpeedName := "Maximum Speed"
  const SpeedOverTimeName := "Speed Over Time"
  const AltitudeOverTimeName := "Altitude Over Time"
  const FlightStatesName := "Flight States Over Time"
  const XPositionName := "X Position Over Time"
  const SpeedDistributionName := "Speed Distribution"
  const FlightPathName := "3D Flight Path"
  const FlightSummaryName := "Flight Summary"
  const AltitudeComparisonName := "Altitude Comparison"

  // ---------------------------------------------------------------------------
  // Per-flight metrics

  /** `add_scalar_metrics`: appends "Maximum Speed" with the flight's maximum
      speed, or raises (appending nothing) when there are no samples. */
  method AddScalarMetrics(w: MetricsWriter, record: FlightRecord) returns (o: Outcome<FlightError>)
    modifies w
    ensures o.Fail? <==> |record.samples| == 0
    ensures o.Fail? ==> o.error == MaxOfEmpty && w.metrics == old(w.metrics)
    ensures o.Pass? ==>
              w.metrics == old(w.metrics) + [Metric(MaximumSpeedName, HighImportance, Passed,
                                                    Scalar(MaxSpeed(record.samples).value, Some("m/s"), None))]
  {
    var maxSpeed := MaxSpeed(record.samples);
    if maxSpeed.Failure? {
      return Fail(maxSpeed.error);
    }
    w.Add(Metric(MaximumSpeedName, HighImportance, Passed, Scalar(maxSpeed.value, Some("m/s"), None)));
    o := Pass;
  }

  /** Which sample value a status plot draws. */
  datatype Channel = SpeedChannel | AltitudeChannel

  function ChannelValue(s: Sample, c: Channel): real
  {
    match c
    case SpeedChannel => s.speed
    case AltitudeChannel => s.position.z
  }

  /** The sample loop of `add_speed_over_time_plot` and `add_altitude_warning_plot`:
      one timestamp, value and status per sample, in order, and the two flags. */
  method CollectStatusSeries(samples: seq<Sample>, channel: Channel)
    returns (timestamps: seq<int>, values: seq<real>, statuses: seq<Status>, hasError: bool, hasWarning: bool)
    ensures |timestamps| == |samples| && |values| == |samples| && |statuses| == |samples|
    ensures forall i :: 0 <= i < |samples| ==>
              && timestamps[i] == samples[i].timestamp
              && values[i] == ChannelValue(samples[i], channel)
              && statuses[i] == ClassifyStatus(samples[i].status)
    ensures hasError <==> exists i :: 0 <= i < |samples| && samples[i].status == "Error"
    ensures hasWarning <==> exists i :: 0 <= i < |samples| && ClassifyStatus(samples[i].status) == FailWarn
  {
    timestamps, values, statuses := [], [], [];
    hasError, hasWarning := false, false;
    for i := 0 to |samples|
      invariant |timestamps| == i && |values| == i && |statuses| == i
      invariant forall k :: 0 <= k < i ==>
                  && timestamps[k] == samples[k].timestamp
                  && values[k] == ChannelValue(samples[k], channel)
                  && statuses[k] == ClassifyStatus(samples[k].status)
      invariant hasError <==> exists k :: 0 <= k < i && samples[k].status == "Error"
      invariant hasWarning <==> exists k :: 0 <= k < i && ClassifyStatus(samples[k].status) == FailWarn
    {
      var sample := samples[i];
      timestamps := timestamps + [sample.timestamp];
      values := values + [ChannelValue(sample, channel)];
      if sample.status == "Error" {
        hasError := true;
        statuses := statuses + [FailBlock];
      } else if Lower(sample.status) == "warning" {
        hasWarning := true;
        statuses := statuses + [FailWarn];
      } else {
        statuses := statuses + [Passed];
      }
    }
  }

  /** `add_speed_over_time_plot`: one plotly metric "Speed Over Time", HIGH,
      whose status is the flight's overall status. */
  method AddSpeedOverTimePlot(w: MetricsWriter, record: FlightRecord)
    modifies w
    ensures w.metrics == old(w.metrics) +
              [Metric(SpeedOverTimeName, HighImportance, FlightStatus(record.samples), Plotly)]
  {
    var _, _, _, hasError, hasWarning := CollectStatusSeries(record.samples, SpeedChannel);
    w.Add(Metric(SpeedOverTimeName, HighImportance, OverallStatus(hasError, hasWarning), Plotly));
  }

  /** `add_altitude_warning_plot`: the same classification over the altitudes,
      appended as "Altitude Over Time" with MEDIUM importance. */
  method AddAltitudeWarningPlot(w: MetricsWriter, record: FlightRecord)
    modifies w
    ensures w.metrics == old(w.metrics) +
              [Metric(AltitudeOverTimeName, MediumImportance, FlightStatus(record.samples), Plotly)]
  {
    var _, _, _, hasError, hasWarning := CollectStatusSeries(record.samples, AltitudeChannel);
    w.Add(Metric(AltitudeOverTimeName, MediumImportance, OverallStatus(hasError, hasWarning), Plotly));
  }

  /** The state encoding `add_states_over_time_plot` and
      `add_plotly_metrics_from_flight_data` colour their markers with. */
  function FlightStateEncoding(samples: seq<Sample>): (e: StateEncoding)
    ensures NoDuplicates(e.tickText)
    ensures forall x :: x in e.tickText <==> x in States(samples)
    ensures |e.colorValues| == |samples|
    ensures forall i :: 0 <= i < |samples| ==>
              e.colorValues[i] < |e.tickText| && e.tickText[e.colorValues[i]] == samples[i].state
    ensures |e.tickVals| == |e.tickText| && forall k :: 0 <= k < |e.tickVals| ==> e.tickVals[k] == k
  {
    var states := States(samples);
    EncodeStates(states, Dedup(states))
  }

  /** `add_states_over_time_plot`: "Flight States Over Time", HIGH, PASSED. */
  method AddStatesOverTimePlot(w: MetricsWriter, record: FlightRecord)
    modifies w
    ensures w.metrics == old(w.metrics) + [Metric(FlightStatesName, HighImportance, Passed, Plotly)]
  {
    var _ := FlightStateEncoding(record.samples);
    w.Add(Metric(FlightStatesName, HighImportance, Passed, Plotly));
  }

  /** A line plot's x and y series. */
  datatype XYSeries = XYSeries(x: seq<int>, y: seq<real>)

  /** The loop of `add_position_over_time_plot`: seconds since the first sample
      and the X position, one of each per sample; raises when there is no first sample. */
  method RelativeTimes(samples: seq<Sample>) returns (r: Result<XYSeries, FlightError>)
    ensures r.Failure? <==> |samples| == 0
    ensures r.Failure? ==> r.error == NoFirstSample
    ensures r.Success? ==>
              && |r.value.x| == |samples| && |r.value.y| == |samples|
              && r.value.x[0] == 0
              && forall i :: 0 <= i < |samples| ==>
                   r.value.x[i] == samples[i].timestamp - samples[0].timestamp
                   && r.value.y[i] == samples[i].position.x
  {
    if |samples| == 0 {
      return Failure(NoFirstSample);
    }
    var startTime := samples[0].timestamp;
    var xs, ys := [], [];
    for i := 0 to |samples|
      invariant |xs| == i && |ys| == i
      invariant forall k :: 0 <= k < i ==>
                  xs[k] == samples[k].timestamp - startTime && ys[k] == samples[k].position.x
    {
      xs := xs + [samples[i].timestamp - startTime];
      ys := ys + [samples[i].position.x];
    }
    r := Success(XYSeries(xs, ys));
  }

  /** `add_position_over_time_plot`: "X Position Over Time", HIGH, PASSED, or
      raises (appending nothing) when there are no samples. */
  method AddPositionOverTimePlot(w: MetricsWriter, record: FlightRecord) returns (o: Outcome<FlightError>)
    modifies w
    ensures o.Fail? <==> |record.samples| == 0
    ensures o.Fail? ==> o.error == NoFirstSample && w.metrics == old(w.metrics)
    ensures o.Pass? ==> w.metrics == old(w.metrics) + [Metric(XPositionName, HighImportance, Passed, Plotly)]
  {
    var series := RelativeTimes(record.samples);
    if series.Failure? {
      return Fail(series.error);
    }
    w.Add(Metric(XPositionName, HighImportance, Passed, Plotly));
    o := Pass;
  }

  /** `add_speed_distribution_plot`: "Speed Distribution", MEDIUM, PASSED. */
  method AddSpeedDistributionPlot(w: MetricsWriter, record: FlightRecord)
    modifies w
    ensures w.metrics == old(w.metrics) + [Metric(SpeedDistributionName, MediumImportance, Passed, Plotly)]
  {
    w.Add(Metric(SpeedDistributionName, MediumImportance, Passed, Plotly));
  }

  /** `add_plotly_metrics_from_flight_data`: "3D Flight Path", HIGH, PASSED. */
  method AddPlotlyMetricsFromFlightData(w: MetricsWriter, record: FlightRecord)
    modifies w
    ensures w.metrics == old(w.metrics) + [Metric(FlightPathName, HighImportance, Passed, Plotly)]
  {
    var _ := FlightStateEncoding(record.samples);
    w.Add(Metric(FlightPathName, HighImportance, Passed, Plotly));
  }

  /** `add_text_metrics`: "Flight Summary", MEDIUM, PASSED, carrying the summary
      values, or raises (appending nothing) when there are no samples or the
      metadata has no units. */
  method AddTextMetrics(w: MetricsWriter, record: FlightRecord) returns (o: Outcome<FlightError>)
    modifies w
    ensures o.Fail? <==> |record.samples| == 0 || !HasUnits(record)
    ensures o.Fail? ==> Failure(o.error) == Summarize(record) && w.metrics == old(w.metrics)
    ensures o.Pass? ==>
              w.metrics == old(w.metrics) + [Metric(FlightSummaryName, MediumImportance, Passed,
                                                    FlightText(Summarize(record).value))]
  {
    var summary := Summarize(record);
    if summary.Failure? {
      return Fail(summary.error);
    }
    w.Add(Metric(FlightSummaryName, MediumImportance, Passed, FlightText(summary.value)));
    o := Pass;
  }

  // ---------------------------------------------------------------------------
  // Altitude comparison across the jobs of a batch

  /** An "Altitude Over Time" PlotlyMetric whose plotly data is present. */
  predicate HasAltitudeText(m: FetchedMetric)
  {
    m.name == AltitudeOverTimeName && m.body.PlotlyBody? && m.body.plotlyData.Some?
  }

  /** ... and whose parsed document has a non-empty "data" list. */
  predicate UsableAltitude(m: FetchedMetric)
  {
    HasAltitudeText(m) && m.body.plotlyData.value.Document?
    && m.body.plotlyData.value.data.Some? && |m.body.plotlyData.value.data.value| > 0
  }

  /** ... or whose plotly data does not parse. */
  predicate UndecodableAltitude(m: FetchedMetric)
  {
    HasAltitudeText(m) && m.body.plotlyData.value.Malformed?
  }

  /** What the inner search of `add_altitude_comparison_plot` finds in one job's metrics. */
  function AltitudeTraceOf(metrics: seq<FetchedMetric>): (r: Result<Option<PlotlyTrace>, BatchError>)
    ensures r.Failure? ==> r.error == PlotlyDecodeError && exists k :: 0 <= k < |metrics| && UndecodableAltitude(metrics[k])
    ensures r.Success? && r.value.Some? ==>
              exists k :: 0 <= k < |metrics| && UsableAltitude(metrics[k]) &&
                          r.value.value == metrics[k].body.plotlyData.value.data.value[0]
  {
    if |metrics| == 0 then Success(None)
    else if UndecodableAltitude(metrics[0]) then Failure(PlotlyDecodeError)
    else if UsableAltitude(metrics[0]) then Success(Some(metrics[0].body.plotlyData.value.data.value[0]))
    else
      var r := AltitudeTraceOf(metrics[1..]);
      assert forall j :: 0 <= j < |metrics| - 1 ==> metrics[1..][j] == metrics[j + 1];
      r
  }

  /** The search keeps the first trace of the first usable "Altitude Over Time"
      plot, skipping metrics without plotly data, and raises if a plot before it
      does not parse. */
  lemma {:induction false} AltitudeTraceIsFirstUsable(metrics: seq<FetchedMetric>, k: nat)
    requires k < |metrics|
    requires forall j :: 0 <= j < k ==> !UsableAltitude(metrics[j]) && !UndecodableAltitude(metrics[j])
    ensures UsableAltitude(metrics[k]) ==>
              AltitudeTraceOf(metrics) == Success(Some(metrics[k].body.plotlyData.value.data.value[0]))
    ensures UndecodableAltitude(metrics[k]) ==> AltitudeTraceOf(metrics) == Failure(PlotlyDecodeError)
  {
    if k > 0 {
      var tail := metrics[1..];
      assert forall j :: 0 <= j < k - 1 ==> tail[j] == metrics[j + 1];
      AltitudeTraceIsFirstUsable(tail, k - 1);
    }
  }

  /** Without a usable or unparsable altitude plot the search finds nothing. */
  lemma {:induction false} AltitudeTraceAbsent(metrics: seq<FetchedMetric>)
    requires forall j :: 0 <= j < |metrics| ==> !UsableAltitude(metrics[j]) && !UndecodableAltitude(metrics[j])
    ensures AltitudeTraceOf(metrics) == Success(None)
  {
    if |metrics| > 0 {
      var tail := metrics[1..];
      assert forall j :: 0 <= j < |tail| ==> tail[j] == metrics[j + 1];
      AltitudeTraceAbsent(tail);
    }
  }

  /** The inner loop with its `continue` and `break`. */
  method FindAltitudeTrace(metrics: seq<FetchedMetric>) returns (r: Result<Option<PlotlyTrace>, BatchError>)
    ensures r == AltitudeTraceOf(metrics)
  {
    var k := 0;
    while k < |metrics|
      invariant 0 <= k <= |metrics|
      invariant AltitudeTraceOf(metrics) == AltitudeTraceOf(metrics[k..])
    {
      var metric := metrics[k];
      assert metrics[k..][1..] == metrics[k + 1..];
      if metric.name == AltitudeOverTimeName && metric.body.PlotlyBody? {
        if metric.body.plotlyData.None? {
          k := k + 1;
          continue;
        }
        match metric.body.plotlyData.value
        case Malformed =>
          return Failure(PlotlyDecodeError);
        case Document(data) =>
          if data.Some? && |data.value| > 0 {
            return Success(Some(data.value[0]));
          }
      }
      k := k + 1;
    }
    r := Success(None);
  }

  /** The eight trace colours. */
  const Palette: seq<string> := ["#636efa", "#EF553B", "#00cc96", "#ab63fa", "#FFA15A", "#19d3f3", "#FF6692", "#B6E880"]

  /** One flight's trace in the comparison plot. */
  datatype ComparisonTrace = ComparisonTrace(name: string, colorIndex: nat, x: seq<real>, y: seq<real>)

  /** The trace for the job at position `i`, when its altitude trace has both x and y. */
  function JobTrace(i: nat, job: Job, found: Option<PlotlyTrace>): Option<ComparisonTrace>
  {
    if found.Some? && found.value.x.Some? && found.value.y.Some? then
      Some(ComparisonTrace("Flight " + job.id, i % |Palette|, found.value.x.value, found.value.y.value))
    else None
  }

  /** The traces `add_altitude_comparison_plot` adds over the jobs in order. */
  function ComparisonOf(jobs: seq<Job>): (r: Result<seq<ComparisonTrace>, BatchError>)
    ensures r.Failure? ==> r.error == UnreadableJobMetrics || r.error == PlotlyDecodeError
    ensures r == Failure(UnreadableJobMetrics) ==> exists k :: 0 <= k < |jobs| && jobs[k].metrics.None?
    ensures r.Success? ==> forall k :: 0 <= k < |jobs| ==> jobs[k].metrics.Some?
  {
    if |jobs| == 0 then Success([])
    else
      var n := |jobs| - 1;
      match ComparisonOf(jobs[..n])
      case Failure(e) => Failure(e)
      case Success(traces) =>
        if jobs[n].metrics.None? then Failure(UnreadableJobMetrics)
        else
          match AltitudeTraceOf(jobs[n].metrics.value)
          case Failure(e) => Failure(e)
          case Success(found) =>
            var t := JobTrace(n, jobs[n], found);
            Success(if t.Some? then traces + [t.value] else traces)
  }

  /** At most one trace per job, each with a palette colour and named after a job. */
  lemma {:induction false} ComparisonTracesBounded(jobs: seq<Job>)
    requires ComparisonOf(jobs).Success?
    ensures |ComparisonOf(jobs).value| <= |jobs|
    ensures forall t :: 0 <= t < |ComparisonOf(jobs).value| ==>
              ComparisonOf(jobs).value[t].colorIndex < |Palette|
              && exists k :: 0 <= k < |jobs| && ComparisonOf(jobs).value[t].name == "Flight " + jobs[k].id
  {
    if |jobs| > 0 {
      var n := |jobs| - 1;
      ComparisonTracesBounded(jobs[..n]);
      var prev := ComparisonOf(jobs[..n]).value;
      var all := ComparisonOf(jobs).value;
      forall t | 0 <= t < |all|
        ensures all[t].colorIndex < |Palette| && exists k :: 0 <= k < |jobs| && all[t].name == "Flight " + jobs[k].id
      {
        if t < |prev| {
          assert all[t] == prev[t];
          var k :| 0 <= k < n && prev[t].name == "Flight " + jobs[..n][k].id;
          assert jobs[..n][k] == jobs[k];
        } else {
          assert all[t].name == "Flight " + jobs[n].id;
        }
      }
    }
  }

  /** The outer loop over the jobs, numbered from 0. */
  method AltitudeComparison(jobs: seq<Job>) returns (r: Result<seq<ComparisonTrace>, BatchError>)
    ensures r == ComparisonOf(jobs)
  {
    var traces := [];
    for i := 0 to |jobs|
      invariant ComparisonOf(jobs[..i]) == Success(traces)
    {
      assert jobs[..i + 1][..i] == jobs[..i];
      var job := jobs[i];
      if job.metrics.None? {
        assert ComparisonOf(jobs[..i + 1]) == Failure(UnreadableJobMetrics);
        ComparisonFailureSticks(jobs, i + 1);
        return Failure(UnreadableJobMetrics);
      }
      var found := FindAltitudeTrace(job.metrics.value);
      if found.Failure? {
        assert ComparisonOf(jobs[..i + 1]) == Failure(found.error);
        ComparisonFailureSticks(jobs, i + 1);
        return Failure(found.error);
      }
      var t := JobTrace(i, job, found.value);
      if t.Some? {
        traces := traces + [t.value];
      }
    }
    assert jobs[..|jobs|] == jobs;
    r := Success(traces);
  }

  /** A job that raises aborts the comparison whatever follows it. */
  lemma {:induction false} ComparisonFailureSticks(jobs: seq<Job>, i: nat)
    requires i <= |jobs| && ComparisonOf(jobs[..i]).Failure?
    ensures ComparisonOf(jobs) == ComparisonOf(jobs[..i])
    decreases |jobs| - i
  {
    if i < |jobs| {
      assert jobs[..i + 1][..i] == jobs[..i];
      ComparisonFailureSticks(jobs, i + 1);
    } else {
      assert jobs[..i] == jobs;
    }
  }

  /** `add_altitude_comparison_plot`: "Altitude Comparison", HIGH, PASSED, or
      raises (appending nothing). */
  method AddAltitudeComparisonPlot(w: MetricsWriter, jobs: seq<Job>) returns (o: Outcome<BatchError>)
    modifies w
    ensures o.Pass? <==> ComparisonOf(jobs).Success?
    ensures o.Fail? ==> Failure(o.error) == ComparisonOf(jobs) && w.metrics == old(w.metrics)
    ensures o.Pass? ==> w.metrics == old(w.metrics) + [Metric(AltitudeComparisonName, HighImportance, Passed, Plotly)]
  {
    var traces := AltitudeComparison(jobs);
    if traces.Failure? {
      return Fail(traces.error);
    }
    w.Add(Metric(AltitudeComparisonName, HighImportance, Passed, Plotly));
    o := Pass;
  }

  // ---------------------------------------------------------------------------
  // 3D flight path from a fetched proto

  /** An entry of a proto's `metrics_data`; `series` is None when the entry has none. */
  datatype SeriesData = SeriesData(name: string, series: Option<seq<real>>)

  /** The series of the last entry named `name`, or None when there is none. */
  function LastSeries(data: seq<SeriesData>, name: string): (r: Option<seq<real>>)
    ensures r.Some? ==> exists k :: 0 <= k < |data| && data[k].name == name && data[k].series == r
  {
    if |data| == 0 then None
    else if data[|data| - 1].name == name then data[|data| - 1].series
    else LastSeries(data[..|data| - 1], name)
  }

  /** LastSeries is None when no entry has the name. */
  lemma {:induction false} LastSeriesAbsent(data: seq<SeriesData>, name: string)
    requires forall k :: 0 <= k < |data| ==> data[k].name != name
    ensures LastSeries(data, name) == None
  {
    if |data| > 0 {
      LastSeriesAbsent(data[..|data| - 1], name);
    }
  }

  /** LastSeries is the series of the last entry with the name. */
  lemma {:induction false} LastSeriesIsLastMatch(data: seq<SeriesData>, name: string, k: nat)
    requires k < |data| && data[k].name == name
    requires forall j :: k < j < |data| ==> data[j].name != name
    ensures LastSeries(data, name) == data[k].series
  {
    if k < |data| - 1 {
      var init := data[..|data| - 1];
      assert init[k] == data[k];
      LastSeriesIsLastMatch(init, name, k);
    }
  }

  const XName := XPositionName
  const YName := "Y Position Over Time"
  const ZName := AltitudeOverTimeName

  /** The lookup loop of `add_plotly_metrics_from_proto`. */
  method LookupPositionSeries(data: seq<SeriesData>) returns (x: Option<seq<real>>, y: Option<seq<real>>, z: Option<seq<real>>)
    ensures x == LastSeries(data, XName) && y == LastSeries(data, YName) && z == LastSeries(data, ZName)
  {
    x, y, z := None, None, None;
    for i := 0 to |data|
      invariant x == LastSeries(data[..i], XName)
      invariant y == LastSeries(data[..i], YName)
      invariant z == LastSeries(data[..i], ZName)
    {
      assert data[..i + 1][..i] == data[..i];
      var entry := data[i];
      if entry.name == XName {
        x := entry.series;
      } else if entry.name == YName {
        y := entry.series;
      } else if entry.name == ZName {
        z := entry.series;
      }
    }
    assert data[..|data|] == data;
  }

  /** Python truthiness of an optional string. */
  predicate Truthy(s: Option<string>)
  {
    s.Some? && |s.value| > 0
  }

  /** The plot title: the job name when it is truthy, else the job id when that is. */
  function PlotTitle(jobId: Option<string>, jobName: Option<string>): (t: string)
    ensures Truthy(jobName) ==> t == "3D Flight Path - " + jobName.value
    ensures !Truthy(jobName) && Truthy(jobId) ==> t == "3D Flight Path - " + jobId.value
    ensures !Truthy(jobName) && !Truthy(jobId) ==> t == "3D Flight Path"
  {
    var title := "3D Flight Path";
    if Truthy(jobName) then title + " - " + jobName.value
    else if Truthy(jobId) then title + " - " + jobId.value
    else title
  }

  /** A truthy job name makes the job id irrelevant to the title. */
  lemma TitlePrefersName(id1: Option<string>, id2: Option<string>, jobName: Option<string>)
    requires Truthy(jobName)
    ensures PlotTitle(id1, jobName) == PlotTitle(id2, jobName)
  {
  }

  /** `add_plotly_metrics_from_proto`: appends one metric titled by PlotTitle
      when the X, Y and Z series are all present, and nothing otherwise. */
  method AddPlotlyMetricsFromProto(w: MetricsWriter, data: seq<SeriesData>, jobId: Option<string>, jobName: Option<string>)
    returns (added: bool)
    modifies w
    ensures added <==> LastSeries(data, XName).Some? && LastSeries(data, YName).Some? && LastSeries(data, ZName).Some?
    ensures !added ==> w.metrics == old(w.metrics)
    ensures added ==> w.metrics == old(w.metrics) + [Metric(PlotTitle(jobId, jobName), HighImportance, Passed, Plotly)]
  {
    var x, y, z := LookupPositionSeries(data);
    if x.None? || y.None? || z.None? {
      return false;
    }
    w.Add(Metric(PlotTitle(jobId, jobName), HighImportance, Passed, Plotly));
    added := true;
  }
}
