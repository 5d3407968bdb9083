/** `run_batch_metrics` of metrics-build/run_batch_metrics.py: per-job
    extraction of the maximum speed and the status counts from the metrics of
    a batch's jobs, the aggregates over them and the batch-level metrics. */
module BatchMetrics {
  import opened Wrappers
  import opened Metrics
  import opened MetricsBuilder
  import Stats

  // ---------------------------------------------------------------------------
  // Per-job extraction

  /** A "Maximum Speed" metric that is a ScalarMetric. */
  predicate IsMaxSpeedScalar(m: FetchedMetric)
  {
    m.name == MaximumSpeedName && m.body.ScalarBody?
  }

  /** The value of the first "Maximum Speed" ScalarMetric of a job, if any. */
  function FirstMaxSpeed(metrics: seq<FetchedMetric>): (r: Option<real>)
    ensures r.None? <==> forall j :: 0 <= j < |metrics| ==> !IsMaxSpeedScalar(metrics[j])
    ensures r.Some? ==>
              exists k :: (0 <= k < |metrics| && IsMaxSpeedScalar(metrics[k]) && metrics[k].body.value == r.value
                           && forall j :: 0 <= j < k ==> !IsMaxSpeedScalar(metrics[j]))
  {
    if |metrics| == 0 then None
    else if IsMaxSpeedScalar(metrics[0]) then Some(metrics[0].body.value)
    else
      var rest := FirstMaxSpeed(metrics[1..]);
      assert forall j :: 1 <= j < |metrics| ==> metrics[j] == metrics[1..][j - 1];
      rest
  }

  /** `sum(1 for metric in metrics if getattr(metric, "status", None) == s)`. */
  function CountStatus(metrics: seq<FetchedMetric>, s: Status): (n: nat)
    ensures n <= |metrics|
    ensures n == 0 <==> forall j :: 0 <= j < |metrics| ==> metrics[j].status != Some(s)
  {
    if |metrics| == 0 then 0
    else CountStatus(metrics[..|metrics| - 1], s) + (if metrics[|metrics| - 1].status == Some(s) then 1 else 0)
  }

  /** Each metric has at most one status, so the three counts of a job add up to
      at most its number of metrics. */
  lemma {:induction false} CountsAtMostMetrics(metrics: seq<FetchedMetric>)
    ensures CountStatus(metrics, FailBlock) + CountStatus(metrics, FailWarn) + CountStatus(metrics, Passed) <= |metrics|
  {
    if |metrics| > 0 {
      CountsAtMostMetrics(metrics[..|metrics| - 1]);
    }
  }

  /** The four lists the per-job loop builds. */
  datatype JobStats = JobStats(maxSpeeds: seq<real>, errorCounts: seq<nat>, warningCounts: seq<nat>, successCounts: seq<nat>)

  /** The lists after the loop over `jobs`: a job whose metric list cannot be
      read is skipped; every other job adds its three counts, and its maximum
      speed when it has one. */
  function JobStatsOf(jobs: seq<Job>): (stats: JobStats)
    ensures |stats.errorCounts| == |stats.warningCounts| == |stats.successCounts| <= |jobs|
    ensures |stats.maxSpeeds| <= |stats.errorCounts|
  {
    if |jobs| == 0 then JobStats([], [], [], [])
    else
      var prev := JobStatsOf(jobs[..|jobs| - 1]);
      var job := jobs[|jobs| - 1];
      if job.metrics.None? then prev
      else
        var ms := job.metrics.value;
        var found := FirstMaxSpeed(ms);
        JobStats(prev.maxSpeeds + (if found.Some? then [found.value] else []),
                 prev.errorCounts + [CountStatus(ms, FailBlock)],
                 prev.warningCounts + [CountStatus(ms, FailWarn)],
                 prev.successCounts + [CountStatus(ms, Passed)])
  }

  /** How many jobs can be read. */
  function ReadableJobs(jobs: seq<Job>): nat
  {
    if |jobs| == 0 then 0
    else ReadableJobs(jobs[..|jobs| - 1]) + (if jobs[|jobs| - 1].metrics.Some? then 1 else 0)
  }

  /** Counts are kept for every readable job, speeds only for those that have
      one, so there are never more speeds than count entries. */
  lemma {:induction false} JobStatsShape(jobs: seq<Job>)
    ensures |JobStatsOf(jobs).errorCounts| == ReadableJobs(jobs)
    ensures |JobStatsOf(jobs).warningCounts| == ReadableJobs(jobs)
    ensures |JobStatsOf(jobs).successCounts| == ReadableJobs(jobs)
    ensures |JobStatsOf(jobs).maxSpeeds| <= ReadableJobs(jobs) <= |jobs|
  {
    if |jobs| > 0 {
      JobStatsShape(jobs[..|jobs| - 1]);
    }
  }

  /** A job whose metric list cannot be read contributes to none of the lists. */
  lemma UnreadableJobSkipped(jobs: seq<Job>, job: Job)
    requires job.metrics.None?
    ensures JobStatsOf(jobs + [job]) == JobStatsOf(jobs)
  {
    assert (jobs + [job])[..|jobs|] == jobs;
  }

  /** The inner loop over one job's metrics, with its first-match `break`. */
  method FindMaxSpeed(metrics: seq<FetchedMetric>) returns (maxSpeed: Option<real>)
    ensures maxSpeed == FirstMaxSpeed(metrics)
  {
    maxSpeed := None;
    var j := 0;
    while j < |metrics|
      invariant 0 <= j <= |metrics|
      invariant forall k :: 0 <= k < j ==> !IsMaxSpeedScalar(metrics[k])
    {
      if metrics[j].name == MaximumSpeedName && metrics[j].body.ScalarBody? {
        maxSpeed := Some(metrics[j].body.value);
        break;
      }
      j := j + 1;
    }
  }

  /** The per-job loop; a job whose metric list cannot be read is skipped. */
  method CollectJobStats(jobs: seq<Job>) returns (stats: JobStats)
    ensures stats == JobStatsOf(jobs)
  {
    var maxSpeeds: seq<real> := [];
    var errorCounts: seq<nat> := [];
    var warningCounts: seq<nat> := [];
    var successCounts: seq<nat> := [];
    for i := 0 to |jobs|
      invariant JobStatsOf(jobs[..i]) == JobStats(maxSpeeds, errorCounts, warningCounts, successCounts)
    {
      assert jobs[..i + 1][..i] == jobs[..i];
      var job := jobs[i];
      if job.metrics.None? {
        continue;
      }
      var metrics := job.metrics.value;
      var maxSpeed := FindMaxSpeed(metrics);
      if maxSpeed.Some? {
        maxSpeeds := maxSpeeds + [maxSpeed.value];
      }
      errorCounts := errorCounts + [CountStatus(metrics, FailBlock)];
      warningCounts := warningCounts + [CountStatus(metrics, FailWarn)];
      successCounts := successCounts + [CountStatus(metrics, Passed)];
    }
    assert jobs[..|jobs|] == jobs;
    stats := JobStats(maxSpeeds, errorCounts, warningCounts, successCounts);
  }

  // ---------------------------------------------------------------------------
  // Aggregates

  /** The batch-level numbers. */
  datatype Aggregates = Aggregates(
    averageMaxSpeed: real, highestSpeed: real,
    totalErrors: nat, totalWarnings: nat, totalSuccesses: nat, totalSamples: nat,
    successRate: real)

  /** `(total_successes / total_samples) * 100 if total_samples > 0 else 0`. */
  function SuccessRate(successes: nat, samples: nat): (rate: real)
    requires successes <= samples
    ensures 0.0 <= rate <= 100.0
    ensures samples == 0 ==> rate == 0.0
    ensures samples > 0 && successes == samples ==> rate == 100.0
    ensures samples > 0 && successes == 0 ==> rate == 0.0
  {
    if samples > 0 then
      Stats.QuotientBounds(successes as real, samples as real, 0.0, 1.0);
      (successes as real / samples as real) * 100.0
    else 0.0
  }

  /** The aggregates over the collected lists; defined only when some job had
      a maximum speed, as the script computes them only then. */
  function Aggregate(stats: JobStats): (a: Aggregates)
    requires |stats.maxSpeeds| > 0
    ensures a.totalErrors == Stats.SumNat(stats.errorCounts)
    ensures a.totalWarnings == Stats.SumNat(stats.warningCounts)
    ensures a.totalSuccesses == Stats.SumNat(stats.successCounts)
    ensures a.totalSamples == a.totalErrors + a.totalWarnings + a.totalSuccesses
    ensures 0.0 <= a.successRate <= 100.0
    ensures a.totalSamples == 0 ==> a.successRate == 0.0
    ensures forall i :: 0 <= i < |stats.maxSpeeds| ==> stats.maxSpeeds[i] <= a.highestSpeed
    ensures exists i :: 0 <= i < |stats.maxSpeeds| && stats.maxSpeeds[i] == a.highestSpeed
    ensures Stats.Min(stats.maxSpeeds) <= a.averageMaxSpeed <= a.highestSpeed
  {
    var errors := Stats.SumNat(stats.errorCounts);
    var warnings := Stats.SumNat(stats.warningCounts);
    var successes := Stats.SumNat(stats.successCounts);
    Stats.MeanBounds(stats.maxSpeeds);
    Aggregates(Stats.Mean(stats.maxSpeeds), Stats.Max(stats.maxSpeeds),
               errors, warnings, successes, errors + warnings + successes,
               SuccessRate(successes, errors + warnings + successes))
  }

  /** The status of "Overall Success Rate". */
  function SuccessRateStatus(rate: real): (s: Status)
    ensures s == FailBlock <==> rate < 70.0
    ensures s == FailWarn <==> 70.0 <= rate < 74.0
    ensures s == Passed <==> 74.0 <= rate
  {
    if rate < 70.0 then FailBlock
    else if rate < 74.0 then FailWarn
    else Passed
  }

  /** A higher success rate never gives a worse status. */
  lemma SuccessRateStatusMonotone(lower: real, higher: real)
    requires lower <= higher
    ensures Severity(SuccessRateStatus(higher)) <= Severity(SuccessRateStatus(lower))
  {
  }

  // ---------------------------------------------------------------------------
  // The batch metrics

  const HighestSpeedName := "Highest Recorded Speed"
  const AverageMaxSpeedName := "Average Max Speed"
  const SuccessRateName := "Overall Success Rate"
  const BatchSummaryName := "Batch Summary"

  /** The three scalars written before the comparison plot. */
  function BatchScalars(stats: JobStats): (r: seq<Metric>)
    requires |stats.maxSpeeds| > 0
    ensures |r| == 3 && r[0].payload.Scalar? && r[1].payload.Scalar? && r[2].payload.Scalar?
    ensures r[0].name == HighestSpeedName && r[1].name == AverageMaxSpeedName && r[2].name == SuccessRateName
    ensures forall i :: 0 <= i < 3 ==> r[i].importance == HighImportance && r[i].payload.failure == None
    ensures r[0].payload.unit == Some("m/s") && r[1].payload.unit == Some("m/s") && r[2].payload.unit == Some("%")
    ensures forall i :: 0 <= i < |stats.maxSpeeds| ==> stats.maxSpeeds[i] <= r[0].payload.value
    ensures Stats.Min(stats.maxSpeeds) <= r[1].payload.value <= r[0].payload.value
    ensures 0.0 <= r[2].payload.value <= 100.0
    ensures r[0].status == Passed && r[1].status == Passed && r[2].status == SuccessRateStatus(r[2].payload.value)
  {
    var a := Aggregate(stats);
    [ Metric(HighestSpeedName, HighImportance, Passed, Scalar(a.highestSpeed, Some("m/s"), None)),
      Metric(AverageMaxSpeedName, HighImportance, Passed, Scalar(a.averageMaxSpeed, Some("m/s"), None)),
      Metric(SuccessRateName, HighImportance, SuccessRateStatus(a.successRate), Scalar(a.successRate, Some("%"), None)) ]
  }

  /** The text summary written after the comparison plot. */
  function BatchSummaryMetric(stats: JobStats): (m: Metric)
    requires |stats.maxSpeeds| > 0
    ensures m.name == BatchSummaryName && m.importance == HighImportance && m.status == Passed
    ensures m.payload.BatchText? && m.payload.batch.totalFlights == |stats.maxSpeeds|
    ensures m.payload.batch.totalErrors == Stats.SumNat(stats.errorCounts)
    ensures m.payload.batch.totalWarnings == Stats.SumNat(stats.warningCounts)
    ensures 0.0 <= m.payload.batch.successRate <= 100.0
  {
    var a := Aggregate(stats);
    Metric(BatchSummaryName, HighImportance, Passed,
           BatchText(BatchSummary(|stats.maxSpeeds|, a.highestSpeed, a.averageMaxSpeed,
                                  a.totalErrors, a.totalWarnings, a.successRate)))
  }

  /** Every metric of a batch run: the scalars, the comparison plot, the summary. */
  function BatchRunMetrics(stats: JobStats): (r: seq<Metric>)
    requires |stats.maxSpeeds| > 0
    ensures |r| == 5 && r[..3] == BatchScalars(stats) && r[4] == BatchSummaryMetric(stats)
    ensures r[3] == Metric(AltitudeComparisonName, HighImportance, Passed, Plotly)
  {
    BatchScalars(stats) + [Metric(AltitudeComparisonName, HighImportance, Passed, Plotly), BatchSummaryMetric(stats)]
  }

  /** A batch run's five metrics: the highest speed bounds every job's maximum
      speed, the average lies between the least and the highest, the rate's
      status follows the thresholds and the summary counts one flight per
      collected speed. */
  lemma BatchRunMetricsFacts(stats: JobStats)
    requires |stats.maxSpeeds| > 0
    ensures |BatchRunMetrics(stats)| == 5
    ensures forall i :: 0 <= i < |stats.maxSpeeds| ==> stats.maxSpeeds[i] <= BatchRunMetrics(stats)[0].payload.value
    ensures Stats.Min(stats.maxSpeeds) <= BatchRunMetrics(stats)[1].payload.value <= BatchRunMetrics(stats)[0].payload.value
    ensures 0.0 <= BatchRunMetrics(stats)[2].payload.value <= 100.0
    ensures BatchRunMetrics(stats)[2].status == SuccessRateStatus(BatchRunMetrics(stats)[2].payload.value)
    ensures BatchRunMetrics(stats)[4].payload.batch.totalFlights == |stats.maxSpeeds|
  {
  }

  /** The three scalars: the highest speed, the average maximum speed and the
      success rate with its threshold status. */
  method AddBatchScalars(writer: MetricsWriter, stats: JobStats)
    requires |stats.maxSpeeds| > 0
    modifies writer
    ensures writer.metrics == old(writer.metrics) + BatchScalars(stats)
  {
    var a := Aggregate(stats);
    writer.Add(Metric(HighestSpeedName, HighImportance, Passed, Scalar(a.highestSpeed, Some("m/s"), None)));
    writer.Add(Metric(AverageMaxSpeedName, HighImportance, Passed, Scalar(a.averageMaxSpeed, Some("m/s"), None)));
    writer.Add(Metric(SuccessRateName, HighImportance, SuccessRateStatus(a.successRate),
                      Scalar(a.successRate, Some("%"), None)));
  }

  /** `run_batch_metrics` over the fetched jobs: None (no writer, nothing
      written) when no job has a maximum speed; otherwise the five metrics, or
      the exception the comparison plot raises. */
  method RunBatchMetrics(jobs: seq<Job>) returns (r: Result<Option<seq<Metric>>, BatchError>)
    ensures |JobStatsOf(jobs).maxSpeeds| == 0 ==> r == Success(None)
    ensures |JobStatsOf(jobs).maxSpeeds| > 0 && ComparisonOf(jobs).Failure? ==>
              r == Failure(ComparisonOf(jobs).error)
    ensures |JobStatsOf(jobs).maxSpeeds| > 0 && ComparisonOf(jobs).Success? ==>
              r == Success(Some(BatchRunMetrics(JobStatsOf(jobs))))
  {
    var stats := CollectJobStats(jobs);
    if |stats.maxSpeeds| == 0 {
      return Success(None);
    }
    var writer := new MetricsWriter();
    AddBatchScalars(writer, stats);
    assert writer.metrics == BatchScalars(stats);
    var o := AddAltitudeComparisonPlot(writer, jobs);
    if o.Fail? {
      return Failure(o.error);
    }
    writer.Add(BatchSummaryMetric(stats));
    assert writer.metrics == BatchRunMetrics(stats);
    r := Success(Some(writer.metrics));
  }
}
