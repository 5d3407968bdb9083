/** `run_test_metrics` of metrics-build/run_test_metrics.py: eight logged
    names, each followed by one builder call, into a fresh writer. */
module TestRun {
  import opened Wrappers
  import opened Metrics
  import opened FlightData
  import opened NameTracker
  import opened MetricsBuilder

  /** The names logged, in order. */
  const BuilderMetricNames: seq<string> := [
    MaximumSpeedName, SpeedOverTimeName, AltitudeOverTimeName, FlightStatesName,
    XPositionName, SpeedDistributionName, FlightPathName, FlightSummaryName]

  /** Each name differs from every name logged before it. */
  lemma BuilderNamesFresh()
    ensures SpeedOverTimeName !in {MaximumSpeedName}
    ensures AltitudeOverTimeName !in {MaximumSpeedName, SpeedOverTimeName}
    ensures FlightStatesName !in {MaximumSpeedName, SpeedOverTimeName, AltitudeOverTimeName}
    ensures XPositionName !in {MaximumSpeedName, SpeedOverTimeName, AltitudeOverTimeName, FlightStatesName}
    ensures SpeedDistributionName !in {MaximumSpeedName, SpeedOverTimeName, AltitudeOverTimeName, FlightStatesName, XPositionName}
    ensures FlightPathName !in {MaximumSpeedName, SpeedOverTimeName, AltitudeOverTimeName, FlightStatesName, XPositionName, SpeedDistributionName}
    ensures FlightSummaryName !in {MaximumSpeedName, SpeedOverTimeName, AltitudeOverTimeName, FlightStatesName, XPositionName, SpeedDistributionName, FlightPathName}
  {
  }

  /** The eight names are pairwise distinct, so a run never warns, and the
      tracker ends up holding exactly them. */
  lemma BuilderRunNeverWarns()
    ensures NoDuplicates(BuilderMetricNames)
    ensures |LogAfter(BuilderMetricNames)| == 8
    ensures forall i :: 0 <= i < 8 ==> LogAfter(BuilderMetricNames)[i] == AddingMetric(BuilderMetricNames[i])
    ensures forall x :: x in AddedAfter(BuilderMetricNames) <==> x in BuilderMetricNames
    ensures LogAfter(BuilderMetricNames) == BuilderRunLog
    ensures AddedAfter(BuilderMetricNames) == BuilderNameSet
  {
    DistinctNamesNeverWarn(BuilderMetricNames);
    AddedAfterIsElements(BuilderMetricNames);
  }

  /** What a successful run prints: one "Adding metric" line per name. */
  const BuilderRunLog: seq<LogLine> := [
    AddingMetric(MaximumSpeedName), AddingMetric(SpeedOverTimeName), AddingMetric(AltitudeOverTimeName),
    AddingMetric(FlightStatesName), AddingMetric(XPositionName),
    AddingMetric(SpeedDistributionName), AddingMetric(FlightPathName), AddingMetric(FlightSummaryName)]

  /** The tracker's set after a successful run. */
  const BuilderNameSet: set<string> := {
    MaximumSpeedName, SpeedOverTimeName, AltitudeOverTimeName, FlightStatesName,
    XPositionName, SpeedDistributionName, FlightPathName, FlightSummaryName}

  /** The metrics a successful run writes, in order. */
  function BuilderMetrics(record: FlightRecord): (r: seq<Metric>)
    requires |record.samples| > 0 && HasUnits(record)
    ensures |r| == 8 && r[1].status == r[2].status == FlightStatus(record.samples)
    ensures r[0].payload.Scalar? && r[0].payload.value == MaxSpeed(record.samples).value
    ensures r[7].payload.FlightText? && Success(r[7].payload.flight) == Summarize(record)
  {
    [ Metric(MaximumSpeedName, HighImportance, Passed, Scalar(MaxSpeed(record.samples).value, Some("m/s"), None)),
      Metric(SpeedOverTimeName, HighImportance, FlightStatus(record.samples), Plotly),
      Metric(AltitudeOverTimeName, MediumImportance, FlightStatus(record.samples), Plotly),
      Metric(FlightStatesName, HighImportance, Passed, Plotly),
      Metric(XPositionName, HighImportance, Passed, Plotly),
      Metric(SpeedDistributionName, MediumImportance, Passed, Plotly),
      Metric(FlightPathName, HighImportance, Passed, Plotly),
      Metric(FlightSummaryName, MediumImportance, Passed, FlightText(Summarize(record).value)) ]
  }

  /** Steps two to four of a run: log and add the speed, altitude and
      flight-state plots. */
  method AddTimeSeriesPlots(writer: MetricsWriter, tracker: MetricNameTracker, record: FlightRecord)
    requires SpeedOverTimeName !in tracker.added && AltitudeOverTimeName !in tracker.added
    requires FlightStatesName !in tracker.added
    modifies writer, tracker
    ensures writer.metrics == old(writer.metrics) + [
      Metric(SpeedOverTimeName, HighImportance, FlightStatus(record.samples), Plotly),
      Metric(AltitudeOverTimeName, MediumImportance, FlightStatus(record.samples), Plotly),
      Metric(FlightStatesName, HighImportance, Passed, Plotly)]
    ensures tracker.log == old(tracker.log) + [
      AddingMetric(SpeedOverTimeName), AddingMetric(AltitudeOverTimeName), AddingMetric(FlightStatesName)]
    ensures tracker.added == old(tracker.added) + {SpeedOverTimeName, AltitudeOverTimeName, FlightStatesName}
  {
    BuilderNamesFresh();
    var _ := tracker.LogMetricAddition(SpeedOverTimeName);
    AddSpeedOverTimePlot(writer, record);
    var _ := tracker.LogMetricAddition(AltitudeOverTimeName);
    AddAltitudeWarningPlot(writer, record);
    var _ := tracker.LogMetricAddition(FlightStatesName);
    AddStatesOverTimePlot(writer, record);
  }

  /** Steps five and six of a run: log and add the position and distribution
      plots; neither can fail once samples exist. */
  method AddPositionMetrics(writer: MetricsWriter, tracker: MetricNameTracker, record: FlightRecord)
    requires |record.samples| > 0
    requires XPositionName !in tracker.added && SpeedDistributionName !in tracker.added
    modifies writer, tracker
    ensures writer.metrics == old(writer.metrics) + [
      Metric(XPositionName, HighImportance, Passed, Plotly),
      Metric(SpeedDistributionName, MediumImportance, Passed, Plotly)]
    ensures tracker.log == old(tracker.log) + [AddingMetric(XPositionName), AddingMetric(SpeedDistributionName)]
    ensures tracker.added == old(tracker.added) + {XPositionName, SpeedDistributionName}
  {
    BuilderNamesFresh();
    var _ := tracker.LogMetricAddition(XPositionName);
    var o := AddPositionOverTimePlot(writer, record);
    assert o.Pass?;
    var _ := tracker.LogMetricAddition(SpeedDistributionName);
    AddSpeedDistributionPlot(writer, record);
  }

  /** Steps seven and eight of a run: log and add the flight path and the
      summary; the summary raises, after its name is logged, when the metadata
      has no units. */
  method AddPathAndSummary(writer: MetricsWriter, tracker: MetricNameTracker, record: FlightRecord)
    returns (o: Outcome<FlightError>)
    requires |record.samples| > 0
    requires FlightPathName !in tracker.added && FlightSummaryName !in tracker.added
    modifies writer, tracker
    ensures o.Fail? <==> !HasUnits(record)
    ensures o.Fail? ==> o.error == UnitsOf(record).error
    ensures o.Fail? ==> writer.metrics == old(writer.metrics) + [Metric(FlightPathName, HighImportance, Passed, Plotly)]
    ensures o.Pass? ==> writer.metrics == old(writer.metrics) + [
      Metric(FlightPathName, HighImportance, Passed, Plotly),
      Metric(FlightSummaryName, MediumImportance, Passed, FlightText(Summarize(record).value))]
    ensures tracker.log == old(tracker.log) + [AddingMetric(FlightPathName), AddingMetric(FlightSummaryName)]
    ensures tracker.added == old(tracker.added) + {FlightPathName, FlightSummaryName}
  {
    BuilderNamesFresh();
    var _ := tracker.LogMetricAddition(FlightPathName);
    AddPlotlyMetricsFromFlightData(writer, record);
    var _ := tracker.LogMetricAddition(FlightSummaryName);
    o := AddTextMetrics(writer, record);
  }

  /** Steps two to eight of a run, after the maximum speed is logged and
      written; the last step raises when the metadata has no units. */
  method AddFlightMetrics(writer: MetricsWriter, tracker: MetricNameTracker, record: FlightRecord)
    returns (o: Outcome<FlightError>)
    requires |record.samples| > 0
    requires tracker.log == [AddingMetric(MaximumSpeedName)] && tracker.added == {MaximumSpeedName}
    requires writer.metrics == [Metric(MaximumSpeedName, HighImportance, Passed,
                                       Scalar(MaxSpeed(record.samples).value, Some("m/s"), None))]
    modifies writer, tracker
    ensures o.Fail? <==> !HasUnits(record)
    ensures o.Fail? ==> o.error == UnitsOf(record).error
    ensures o.Pass? ==> writer.metrics == BuilderMetrics(record)
    ensures tracker.log == BuilderRunLog && tracker.added == BuilderNameSet
  {
    BuilderNamesFresh();
    AddTimeSeriesPlots(writer, tracker, record);
    AddPositionMetrics(writer, tracker, record);
    o := AddPathAndSummary(writer, tracker, record);
  }

  /** One run over a flight record. It raises at the first builder call when
      there are no samples, and at the last, after all eight names are logged,
      when the metadata has no units. Otherwise every logged name is followed
      by exactly one metric of that name. No warning is printed, and the
      tracker holds exactly the eight names. */
  method RunTestMetrics(record: FlightRecord)
    returns (r: Result<seq<Metric>, FlightError>, log: seq<LogLine>, added: set<string>)
    ensures r.Failure? <==> |record.samples| == 0 || !HasUnits(record)
    ensures |record.samples| == 0 ==>
              r == Failure(MaxOfEmpty) && log == [AddingMetric(MaximumSpeedName)] && added == {MaximumSpeedName}
    ensures |record.samples| > 0 ==> log == BuilderRunLog && added == BuilderNameSet
    ensures |record.samples| > 0 && !HasUnits(record) ==> r == Failure(UnitsOf(record).error)
    ensures r.Success? ==> r.value == BuilderMetrics(record)
  {
    BuilderNamesFresh();
    var writer := new MetricsWriter();
    var tracker := new MetricNameTracker();
    var _ := tracker.LogMetricAddition(MaximumSpeedName);
    var o := AddScalarMetrics(writer, record);
    if o.Fail? {
      return Failure(o.error), tracker.log, tracker.added;
    }
    o := AddFlightMetrics(writer, tracker, record);
    if o.Fail? {
      return Failure(o.error), tracker.log, tracker.added;
    }
    r, log, added := Success(writer.metrics), tracker.log, tracker.added;
  }

  /** Every metric of a successful run carries the name logged just before it. */
  lemma BuilderMetricsFollowLog(record: FlightRecord)
    requires |record.samples| > 0 && HasUnits(record)
    ensures |BuilderMetrics(record)| == |BuilderRunLog| == 8
    ensures forall i :: 0 <= i < 8 ==> BuilderRunLog[i] == AddingMetric(BuilderMetrics(record)[i].name)
  {
  }
}
