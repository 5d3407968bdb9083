# Flight metrics: a verified model

This project models the metrics scripts of a drone-flight demo. On a single test, the scripts read a flight log (a JSON object with `metadata` and an ordered list of `samples`, one per time step with speed, position, state and a status string) and write a list of metric records:
- scalars;
- status-coloured time series;
- histograms;
- text summaries.

On a batch of tests, they aggregate the metrics the individual jobs wrote earlier.

The metrics SDK's writer becomes a class whose single field is the list of metric records appended so far. Each builder chain `add_*_metric(name).with_*(...)` appends exactly one record. A record holds four things:
- the metric's name;
- its importance;
- its status;
- a payload, which carries the values the scripts compute.

A plotly figure's content is not modelled: a plotly metric appears only as a record with its name, importance and status.

Modules, following the program's files:

- `Wrappers`: `Option`, `Result` and `Outcome`.
- `Stats`: `max`, the minimum, `sum` and the mean over exact reals.
- `Metrics`: the status and importance enumerations; the worst-of order on statuses; payloads and metric records; the `MetricsWriter` class; the fetched metrics of earlier jobs, as a batch fetch returns them.
- `FlightData`: the flight record, shared by both metrics files. It covers:
  - its structural validation;
  - the maximum speed;
  - per-sample status classification and its worst-of aggregation;
  - the encoding of flight states as indices;
  - the values of the text summary.
- `MetricsBuilder` (`metrics-build/metrics_builder.py`): every `add_*` function, with its loops as methods:
  - the status loops;
  - the time offsets;
  - the first-match search over each job's metrics, with `continue` and `break`;
  - the per-job colour index;
  - the last-match lookup of the X, Y and Z series;
  - the title rule.
- `NameTracker`: the `log_metric_addition` closure, as a class over the set of names added and the lines printed.
- `TestRun` (`metrics-build/run_test_metrics.py`): the fixed sequence of eight logged names and builder calls.
- `BatchMetrics` (`metrics-build/run_batch_metrics.py`): the per-job loop, the aggregates, the success-rate thresholds and the five batch metrics.
- `MetricsReader` (`metrics-build/metrics_reader.py`, the older single-file variant):
  - SDK-typed time series;
  - explicit histogram buckets;
  - the seven-metric test run;
  - the "Maximum Random Value" batch aggregation.
- `LogReader` (the root `metrics_reader.py`): `strip`, `split(',')`, `read_last_line` and the 100-iteration loop of `main`.

Exceptions are explicit results: each function that can raise returns a `Result` or an `Outcome` naming the exception. A builder call that raises has appended nothing; a run that raises part-way has logged the names and written the metrics before the failing call.

## Model

| member | source | states |
|---|---|---|
| Metrics.AllPassed | metrics-build/metrics_reader.py:65-69 | `[PASSED] * n` has exactly n entries, each PASSED |
| Metrics.WorstOfIsWorst | metrics-build/metrics_builder.py:113-122 | the worst-of aggregation is PASSED or one of the statuses, and no status in the list is more severe than it |
| Metrics.MetricsWriter.constructor | metrics-build/run_test_metrics.py:22 | a fresh writer holds no metrics |
| Metrics.MetricsWriter.Add | metrics-build/metrics_builder.py:125-131 | one builder chain appends exactly one record and keeps all earlier records |
| Stats.Max | metrics-build/run_batch_metrics.py:75 | `max` of a non-empty list is at least every element and equal to one of them |
| Stats.MeanBounds | metrics-build/run_batch_metrics.py:74-75 | `sum(xs)/len(xs)` lies between the least and the greatest element |
| FlightData.ReadFlightData | metrics-build/metrics_builder.py:20-44 | the checks run in order: a missing file, then unparsable JSON, then a non-object, then missing `metadata`, then missing `samples`; each error occurs exactly when its check is the first to fail; otherwise the data is returned unchanged |
| FlightData.ValidatedLogHasMetadata | metrics-build/metrics_builder.py:36-42 | a record standing for a validated log has its metadata, so its summary can lack only the units, and does exactly when the metadata object has no "units" key |
| FlightData.Speeds | metrics-build/metrics_builder.py:327 | one speed per sample, in sample order |
| FlightData.MaxSpeed | metrics-build/metrics_builder.py:50 | raises exactly when there are no samples; otherwise at least every sample's speed and equal to some sample's speed |
| FlightData.ClassifyStatus | metrics-build/metrics_builder.py:78-89 | a sample blocks iff its status is exactly "Error"; it warns iff it is not "Error" and its lower-casing is "warning"; it passes iff neither holds |
| FlightData.ClassifyStatusExamples | metrics-build/metrics_builder.py:151-162 | "ERROR" and "error" pass while "Error" blocks; "Warning", "WARNING" and "warning" all warn; "OK" passes |
| FlightData.SampleStatuses | metrics-build/metrics_builder.py:72-89 | the status list is as long as the samples and entry i classifies sample i |
| FlightData.FlightStatusIsWorstOf | metrics-build/metrics_builder.py:113-122 | the overall status built from the `has_error`/`has_warning` flags is the worst of the per-sample statuses |
| FlightData.FlightStatus | metrics-build/metrics_builder.py:113-122 | the overall status blocks iff some sample is "Error", warns iff no sample is "Error" and some sample lower-cases to "warning", and no sample's status is worse than it (the altitude plot, metrics-build/metrics_builder.py:187-195, uses the same rule) |
| FlightData.Dedup | metrics-build/metrics_builder.py:222 | one possible value of `list(set(states))`: no duplicates and exactly the observed states |
| FlightData.EncodeStates | metrics-build/metrics_builder.py:222-224 | for any duplicate-free ordering of the observed states: tick text is that ordering; tick values are 0..n-1; each colour value indexes its sample's state; two samples share a colour iff they share a state |
| FlightData.UnitsOf | metrics-build/metrics_builder.py:421 | `flight_data['metadata']['units']`: KeyError "metadata" iff the metadata is absent, KeyError "units" iff it is present without units, otherwise the units (metrics-build/metrics_reader.py:271 is the same expression) |
| FlightData.Summarize | metrics-build/metrics_builder.py:411-421 | raises iff there are no samples (the `max` error) or the units cannot be looked up (that KeyError); otherwise the total duration is the number of samples (not a time span), the states observed are exactly the sample states, the maximum speed is MaxSpeed's, and the units are the record's (the same values in metrics-build/metrics_reader.py:263-271) |
| MetricsBuilder.AddScalarMetrics | metrics-build/metrics_builder.py:47-58 | on no samples it raises the `max` error and appends nothing; otherwise it appends only "Maximum Speed" (HIGH, PASSED, unit m/s) holding the maximum speed (metrics-build/metrics_reader.py:34-45 writes the same record) |
| MetricsBuilder.CollectStatusSeries | metrics-build/metrics_builder.py:72-89 | one timestamp, value and status per sample, in order; each status is that sample's classification; `has_error` iff some status is exactly "Error"; `has_warning` iff some sample took the warning branch |
| MetricsBuilder.AddSpeedOverTimePlot | metrics-build/metrics_builder.py:61-131 | appends only "Speed Over Time", HIGH, whose status is the flight's overall (worst-of) status |
| MetricsBuilder.AddAltitudeWarningPlot | metrics-build/metrics_builder.py:134-205 | the same loop and classification, over the altitudes; appends only "Altitude Over Time", MEDIUM, with the flight's overall status |
| MetricsBuilder.FlightStateEncoding | metrics-build/metrics_builder.py:222-257 | the tick text has no duplicates and holds exactly the observed states; there is one colour value per sample; each colour value is below the number of states and indexes its sample's state; tick values are 0..n-1 (metrics-build/metrics_reader.py:220-222 uses the same encoding) |
| MetricsBuilder.AddStatesOverTimePlot | metrics-build/metrics_builder.py:209-267 | appends only "Flight States Over Time", HIGH, PASSED |
| MetricsBuilder.RelativeTimes | metrics-build/metrics_builder.py:279-288 | raises exactly when there is no first sample; otherwise one x and one y per sample, `x[0] == 0`, `x[i] = t_i - t_0` and `y[i]` is sample i's X position |
| MetricsBuilder.AddPositionOverTimePlot | metrics-build/metrics_builder.py:271-318 | raises and appends nothing on no samples; otherwise appends only "X Position Over Time", HIGH, PASSED |
| MetricsBuilder.AddSpeedDistributionPlot | metrics-build/metrics_builder.py:322-357 | appends only "Speed Distribution", MEDIUM, PASSED |
| MetricsBuilder.AddPlotlyMetricsFromFlightData | metrics-build/metrics_builder.py:361-408 | appends only "3D Flight Path", HIGH, PASSED (the variant's `add_plotly_metrics`, metrics-build/metrics_reader.py:211-258, too) |
| MetricsBuilder.AddTextMetrics | metrics-build/metrics_builder.py:410-429 | raises iff there are no samples or no units to look up, with Summarize's error, and then appends nothing; otherwise appends only "Flight Summary", MEDIUM, PASSED, carrying Summarize's values (the variant's `add_text_metrics`, metrics-build/metrics_reader.py:261-281, too) |
| MetricsBuilder.AltitudeTraceOf | metrics-build/metrics_builder.py:443-451 | the search raises only the plotly decode error, and only when some altitude plot does not parse; a found trace is the first trace of some usable altitude plot |
| MetricsBuilder.AltitudeTraceIsFirstUsable | metrics-build/metrics_builder.py:443-451 | if the first "Altitude Over Time" plot with plotly data is well-formed with a non-empty data list, the search yields that list's first trace; if it does not parse, the search raises; metrics without plotly data are skipped |
| MetricsBuilder.AltitudeTraceAbsent | metrics-build/metrics_builder.py:443-451 | with no such plot the search yields nothing |
| MetricsBuilder.FindAltitudeTrace | metrics-build/metrics_builder.py:444-451 | the inner loop, with its `continue` and `break`, computes exactly the first-usable search |
| MetricsBuilder.ComparisonOf | metrics-build/metrics_builder.py:441-468 | the comparison raises only for an unreadable job list or an unparsable plot, the former only when some job's list is unreadable; when it succeeds every job's list was readable |
| MetricsBuilder.ComparisonTracesBounded | metrics-build/metrics_builder.py:441-462 | at most one trace per job; every colour index is below the palette size; every trace is named "Flight " plus some job's id |
| MetricsBuilder.AltitudeComparison | metrics-build/metrics_builder.py:441-468 | the outer loop computes the traces in job order; a trace is added only when the found trace has both x and y; the colour is the position modulo 8 |
| MetricsBuilder.ComparisonFailureSticks | metrics-build/metrics_builder.py:441-448 | once a job raises (its metric list is unreadable, or its plotly data does not parse), the whole comparison raises that error whatever jobs follow |
| MetricsBuilder.AddAltitudeComparisonPlot | metrics-build/metrics_builder.py:433-487 | appends only "Altitude Comparison", HIGH, PASSED exactly when the comparison succeeds; otherwise it raises the comparison's error and appends nothing |
| MetricsBuilder.LastSeries | metrics-build/metrics_builder.py:499-505 | a found series is the series of some entry carrying the name |
| MetricsBuilder.LastSeriesAbsent | metrics-build/metrics_builder.py:499-510 | a name no entry carries yields no series, so the plot is skipped |
| MetricsBuilder.LastSeriesIsLastMatch | metrics-build/metrics_builder.py:499-505 | the lookup yields the series of the last entry with the name |
| MetricsBuilder.LookupPositionSeries | metrics-build/metrics_builder.py:499-505 | the reassigning loop leaves x, y and z as the last-match series of the X, Y and Z names |
| MetricsBuilder.PlotTitle | metrics-build/metrics_builder.py:537-541 | "3D Flight Path - " followed by the job name when it is truthy; otherwise followed by the job id when that is truthy; otherwise the bare title |
| MetricsBuilder.TitlePrefersName | metrics-build/metrics_builder.py:537-541 | with a truthy job name the job id does not affect the title |
| MetricsBuilder.AddPlotlyMetricsFromProto | metrics-build/metrics_builder.py:491-554 | appends one HIGH, PASSED metric titled by the title rule iff the X, Y and Z series are all found; otherwise nothing is appended |
| NameTracker.MetricNameTracker.constructor | metrics-build/run_test_metrics.py:25 | the tracker starts with no names and no output |
| NameTracker.MetricNameTracker.LogMetricAddition | metrics-build/run_test_metrics.py:27-32 | warns iff the name was already added; afterwards the name is present; a new name grows the set by exactly it; a duplicate leaves the set unchanged; exactly one line is printed (the variant's tracker, metrics-build/metrics_reader.py:305-312, is the same) |
| NameTracker.AddedAfterIsElements | metrics-build/run_test_metrics.py:27-32 | after logging a sequence of names, the tracker holds exactly those names |
| NameTracker.DistinctNamesNeverWarn | metrics-build/run_test_metrics.py:27-32 | logging pairwise distinct names prints one "Adding metric" line per name, in order, and no warning |
| TestRun.BuilderNamesFresh | metrics-build/run_test_metrics.py:35-57 | each of the eight names differs from every name logged before it |
| TestRun.BuilderRunNeverWarns | metrics-build/run_test_metrics.py:35-57 | the eight names are pairwise distinct; a run prints eight "Adding metric" lines and no warning; the final set is exactly the eight names |
| TestRun.BuilderMetrics | metrics-build/run_test_metrics.py:35-57 | a successful run's eight metrics: the speed and altitude plots carry the flight's overall status, the first holds the maximum speed and the last the summary values |
| TestRun.AddTimeSeriesPlots | metrics-build/run_test_metrics.py:38-45 | logs the speed, altitude and state plots in turn, each followed by its one metric |
| TestRun.AddPositionMetrics | metrics-build/run_test_metrics.py:47-51 | logs the position and distribution plots in turn, each followed by its one metric; neither raises once samples exist |
| TestRun.AddPathAndSummary | metrics-build/run_test_metrics.py:53-57 | logs the 3D path and the summary, each followed by its metric; the summary raises exactly when the units cannot be looked up, with that KeyError, after the path is written and both names are logged |
| TestRun.AddFlightMetrics | metrics-build/run_test_metrics.py:38-57 | steps two to eight after the maximum speed: raises exactly when the units cannot be looked up; otherwise the writer holds the eight metrics; either way all eight names are logged once, with no warning |
| TestRun.RunTestMetrics | metrics-build/run_test_metrics.py:25-57 | raises exactly when there are no samples (after printing only the first name) or the units cannot be looked up (after printing all eight names, with that KeyError); otherwise it writes the eight metrics in the fixed order; it never warns and, past the first call, leaves exactly the eight names in the set |
| TestRun.BuilderMetricsFollowLog | metrics-build/run_test_metrics.py:35-57 | metric i of a run carries the name logged just before it |
| MetricsReader.WholeSeconds | metrics-build/metrics_reader.py:55-58 | one SDK timestamp per sample, in sample order, with the sample's seconds and `nanos == 0` |
| MetricsReader.SpeedSeries | metrics-build/metrics_reader.py:53-58 | the loop yields the whole-second timestamps and the speeds of every sample, in order |
| MetricsReader.StateSeries | metrics-build/metrics_reader.py:92-97 | the loop yields the whole-second timestamps and the states of every sample, in order |
| MetricsReader.AddDoubleOverTimeMetrics | metrics-build/metrics_reader.py:48-84 | appends only "Speed Over Time", HIGH, PASSED; it holds the timestamps, the speeds, an all-PASSED status series as long as the speeds, and the single failure definition |
| MetricsReader.StateSet | metrics-build/metrics_reader.py:113 | the states set holds exactly the observed sample states |
| MetricsReader.AddStatesOverTimeMetrics | metrics-build/metrics_reader.py:87-127 | appends only "Flight States Over Time", HIGH, PASSED; it holds the state series, an all-PASSED status series, exactly the observed states as its set, and no failure states |
| MetricsReader.SecondsFromStart | metrics-build/metrics_reader.py:138-147 | one offset per sample, starting at 0, each the sample's time minus the first sample's |
| MetricsReader.XPositions | metrics-build/metrics_reader.py:142-147 | one X position per sample, in order |
| MetricsReader.AddLinePlotMetrics | metrics-build/metrics_reader.py:130-171 | raises and appends nothing when there is no first sample; otherwise appends only "X Position Over Time", HIGH, PASSED; it holds the offsets, the X positions and an all-PASSED status series |
| MetricsReader.HistogramBuckets | metrics-build/metrics_reader.py:191-195 | exactly 10 buckets; the first starts at 0 and the last ends at max speed (in exact arithmetic); each is max/10 wide; each ends where the next starts |
| MetricsReader.BucketsCover | metrics-build/metrics_reader.py:191-195 | every value in [0, max] lies in some bucket, including the all-zero flight whose ten buckets are [0, 0] |
| MetricsReader.AddHistogramMetrics | metrics-build/metrics_reader.py:174-208 | raises and appends nothing on no samples; otherwise appends only "Speed Distribution", MEDIUM, PASSED; it holds the speeds, an all-PASSED status series, the buckets over the maximum speed, and the declared bounds [0.0, max speed] |
| MetricsReader.ReaderNamesFresh | metrics-build/metrics_reader.py:315-334 | each of the seven names differs from every name logged before it |
| MetricsReader.ReaderRunNeverWarns | metrics-build/metrics_reader.py:305-334 | the seven names are pairwise distinct; a run prints one "Adding metric" line per name; the set ends up holding exactly them |
| MetricsReader.ReaderMetricsWellFormed | metrics-build/metrics_reader.py:315-334 | each of the seven metrics is PASSED, carries the name logged just before it, and has an all-PASSED status series as long as its data series |
| MetricsReader.AddSeriesMetrics | metrics-build/metrics_reader.py:318-325 | logs and writes the speed series, the state series and the line plot, in that order |
| MetricsReader.AddHistogramAndPath | metrics-build/metrics_reader.py:327-331 | logs and writes the histogram and the 3D path, in that order |
| MetricsReader.AddClosingMetrics | metrics-build/metrics_reader.py:327-334 | logs and writes the histogram, the 3D path and the summary; the summary raises exactly when the metadata or its units are missing, with that KeyError, after the first two are written |
| MetricsReader.AddFlightMetrics | metrics-build/metrics_reader.py:318-334 | steps two to seven after the maximum speed: raises exactly when the metadata or its units are missing; otherwise the writer holds the seven metrics; either way all seven names are logged once |
| MetricsReader.RunTestMetrics | metrics-build/metrics_reader.py:295-334 | with no validation: a missing "samples" key raises KeyError and an empty list the `max` error, both after printing only the first name; a missing "metadata" or "units" key raises KeyError after all seven names are printed; otherwise it writes the seven metrics in order; it never warns |
| MetricsReader.RandomValuesIn | metrics-build/metrics_reader.py:385-389 | a job yields at most one value per metric; it raises only NotAScalar, and only when some "Maximum Random Value" metric is not a scalar |
| MetricsReader.RandomValuesOf | metrics-build/metrics_reader.py:381-389 | the collection raises only for an unreadable job list or a non-scalar match, the former only when some job's list is unreadable; when it succeeds every job's list was readable |
| MetricsReader.RandomValuesInExact | metrics-build/metrics_reader.py:385-389 | within one job, every "Maximum Random Value" metric is collected, with no early break, and every collected value comes from such a metric |
| MetricsReader.RandomValuesOfExact | metrics-build/metrics_reader.py:381-389 | across the batch, the collected values are exactly the values of every matching metric of every job, in both directions |
| MetricsReader.RandomValuesInCounts | metrics-build/metrics_reader.py:385-389 | within one job, each value is collected exactly as often as the job's metrics contribute it |
| MetricsReader.RandomValuesOfCounts | metrics-build/metrics_reader.py:381-394 | across the batch, each value is collected exactly as often as all jobs' metrics contribute it, so the average weighs repeated maxima by their count |
| MetricsReader.RandomValuesInFailureSticks | metrics-build/metrics_reader.py:385-389 | a matching metric that is not a scalar aborts the job's collection whatever follows |
| MetricsReader.RandomValuesOfFailureSticks | metrics-build/metrics_reader.py:383-389 | a job that raises aborts the batch's collection whatever follows |
| MetricsReader.CollectMaxRandomValues | metrics-build/metrics_reader.py:381-389 | the nested loop computes exactly the collection, or the exception that aborts it |
| MetricsReader.BatchScalars | metrics-build/metrics_reader.py:392-411 | no scalar when nothing was collected; otherwise "Batch Maximum Value" (HIGH) and "Batch Average Maximum" (MEDIUM), both PASSED and without unit: the maximum is at least every collected value and equal to one of them, and the average lies between the least value and the maximum |
| MetricsReader.RunBatchMetrics | metrics-build/metrics_reader.py:362-415 | writes exactly the batch scalars over every collected value, or raises the collection's exception |
| BatchMetrics.FirstMaxSpeed | metrics-build/run_batch_metrics.py:41-45 | nothing iff no metric is a "Maximum Speed" ScalarMetric; otherwise the value of the first such metric |
| BatchMetrics.FindMaxSpeed | metrics-build/run_batch_metrics.py:41-45 | the inner loop with its `break` computes exactly the first "Maximum Speed" scalar |
| BatchMetrics.CountStatus | metrics-build/run_batch_metrics.py:51-62 | a `sum(1 for …)` status count is at most the number of metrics, and is 0 iff no metric has that status |
| BatchMetrics.CountsAtMostMetrics | metrics-build/run_batch_metrics.py:51-62 | a job's error, warning and success counts add up to at most its number of metrics |
| BatchMetrics.JobStatsOf | metrics-build/run_batch_metrics.py:38-66 | the three count lists have equal length, at most the number of jobs, and there are never more maximum speeds than count entries |
| BatchMetrics.JobStatsShape | metrics-build/run_batch_metrics.py:47-70 | each count list has one entry per readable job; there are never more maximum speeds than count entries |
| BatchMetrics.UnreadableJobSkipped | metrics-build/run_batch_metrics.py:68-70 | a job whose processing raises contributes to none of the four lists |
| BatchMetrics.CollectJobStats | metrics-build/run_batch_metrics.py:38-70 | the per-job loop, with its `break` and per-job `continue`, builds exactly the four lists |
| BatchMetrics.SuccessRate | metrics-build/run_batch_metrics.py:82-84 | the rate is in [0, 100]; it is 0 for no samples, 100 when every sample succeeded, and 0 when none did |
| BatchMetrics.Aggregate | metrics-build/run_batch_metrics.py:73-84 | the totals are the sums of the count lists; total samples is errors + warnings + successes; the rate is in [0, 100] and 0 for no samples; the highest speed bounds every maximum speed and equals one; min ≤ average ≤ highest |
| BatchMetrics.SuccessRateStatus | metrics-build/run_batch_metrics.py:113-121 | FAIL_BLOCK iff the rate is below 70; FAIL_WARN iff it is in [70, 74); PASSED iff it is at least 74 |
| BatchMetrics.SuccessRateStatusMonotone | metrics-build/run_batch_metrics.py:113-121 | a higher rate never gives a worse status |
| BatchMetrics.BatchScalars | metrics-build/run_batch_metrics.py:88-121 | three HIGH scalars, "Highest Recorded Speed" and "Average Max Speed" in m/s, PASSED, and "Overall Success Rate" in %: the highest bounds every maximum speed, min ≤ average ≤ highest, the rate is in [0, 100] and its status follows the thresholds |
| BatchMetrics.AddBatchScalars | metrics-build/run_batch_metrics.py:88-121 | the three builder chains append exactly the three scalars |
| BatchMetrics.BatchSummaryMetric | metrics-build/run_batch_metrics.py:126-143 | "Batch Summary", HIGH, PASSED, formatted from the number of collected speeds, the summed error and warning counts, and a rate in [0, 100] |
| BatchMetrics.BatchRunMetrics | metrics-build/run_batch_metrics.py:88-143 | five metrics in source order: the three scalars, the HIGH PASSED "Altitude Comparison" plot, then the summary |
| BatchMetrics.BatchRunMetricsFacts | metrics-build/run_batch_metrics.py:89-143 | five metrics: the highest speed bounds every collected maximum speed; min ≤ average ≤ highest; the rate is in [0, 100] with its threshold status; "Total Flights" is the number of collected speeds |
| BatchMetrics.RunBatchMetrics | metrics-build/run_batch_metrics.py:33-143 | nothing is written when no job had a maximum speed; otherwise the three scalars, comparison plot and summary are written in that order, or the comparison's exception is raised |
| LogReader.StripRight | metrics_reader.py:17 | removes exactly the trailing whitespace: the result is a prefix, ends in a non-space, and only whitespace was removed |
| LogReader.StripLeft | metrics_reader.py:17 | removes exactly the leading whitespace: the result is a suffix, starts with a non-space, and only whitespace was removed |
| LogReader.Strip | metrics_reader.py:17 | `strip()` never lengthens the text and leaves it neither starting nor ending with whitespace |
| LogReader.StripTrims | metrics_reader.py:17 | the stripped text is a contiguous part of the line with only whitespace before and after it |
| LogReader.SplitFieldsCommaFree | metrics_reader.py:17 | no field of `split(',')` contains a comma |
| LogReader.SplitJoin | metrics_reader.py:17 | joining the fields with commas gives back the text |
| LogReader.SplitCommas | metrics_reader.py:17 | `split(',')` yields at least one field; there is a second field iff the text contains a comma; a comma-free text is its own single field |
| LogReader.SplitAfterField | metrics_reader.py:17 | the fields of `a,t`, for comma-free `a`, are `a` followed by the fields of `t` |
| LogReader.SecondFieldValue | metrics_reader.py:17 | IndexError without a second field; ValueError when `float` rejects it; otherwise its float value |
| LogReader.ReadLastLine | metrics_reader.py:12-18 | 0.0 for a file without lines; otherwise IndexError iff the stripped last line has no comma, and then ValueError iff `float` rejects the comma-free second field, else its value; it never fails to open |
| LogReader.OnlyLastLineMatters | metrics_reader.py:17 | lines before the last never change the result |
| LogReader.TrailingSpaceStripped | metrics_reader.py:17 | trailing whitespace is removed before splitting |
| LogReader.TrailingSpaceIgnored | metrics_reader.py:16-17 | a last line with or without trailing whitespace (a newline, say) gives the same result |
| LogReader.SecondFieldIsValue | metrics_reader.py:16-17 | the second field of `a,b,rest` is `b`: the value comes from field index 1, and fields after it are ignored |
| LogReader.IterationOutcome | metrics_reader.py:24-52 | FileUnreadable iff the file cannot be opened, and a failing read raises its own error, both caught; an empty file gives one 0.0 record and a last line without a comma IndexError; on success exactly one "Random Value" scalar (HIGH, PASSED, no unit) is written, holding the value read and the failure definition fails_below 0, fails_above 100 |
| LogReader.RunIteration | metrics_reader.py:24-52 | one iteration, with its fresh writer, yields exactly the outcome above: the caught exception, or the single record written |
| LogReader.RunReader | metrics_reader.py:20-54 | exactly 100 iterations whatever each raises; iteration i's outcome depends only on the log as iteration i finds it |

## Left out

- Plotly figures are not modelled: figure construction, traces, layouts, `to_json` and the plotly data text. A plotly metric is a record with its name, importance and status only. Fetched plotly data arrives already parsed, as malformed or as a document with an optional "data" list.
- The metrics SDK itself is not modelled: the builder chain's descriptions, axis and legend names, `blocking` and `should_display`; `write()`, `validate_job_metrics` and `SerializeToString`. The writer is the list of records appended.
- The network fetch `fetch_job_metrics_by_batch` is not modelled. Its result is an input sequence of jobs in the mapping's order. A job whose metric list cannot be read carries no list.
- File I/O is not modelled: config files, `open`, `json.load`, path existence, `mkdir` and the binproto writes. The flight log is an input value. The root reader's log is given per iteration as an optional list of lines.
- The dispatch on whether the batch config exists (metrics-build/main.py, and `main` of metrics-build/metrics_reader.py) is not modelled: both branches are modelled separately.
- The variant's `read_flight_data` only opens and parses the file, so its result is the input `RawLog`: the metadata and the samples, each absent when the key is. A log that is not a JSON object (a TypeError there) is not modelled.
- FlightData.ReadFlightData: the decoding of the validated JSON into a `FlightRecord` is not modelled (sample fields, the `str()` text of the units); `Describes` ties only the presence of the metadata and of its units to the JSON. A metadata value that is not an object, on which `['units']` raises TypeError, is not modelled.
- Timestamp parsing is not modelled. `datetime.fromisoformat` of RFC 3339 date-times and `total_seconds()` are abstracted to whole integer seconds per sample.
- Floating-point behaviour is not modelled. Speeds, averages, bucket bounds and the success rate are exact reals, so the last bucket's upper bound equals the maximum exactly, which floats need not give.
- The text metrics' f-string formatting (`.2f`, `.1f`, `', '.join`) is not modelled: the summaries are kept as the values they are formatted from.
- `float()` on a string is a parameter of the reader (`parse`), not a model of Python's float syntax.
- Entries in the order Python iterates a `set` are not modelled: the state encoding is proved for every duplicate-free ordering of the observed states, and the methods use first occurrences.
- FlightData.LowerChar: `str.lower` folds ASCII letters only; other Unicode case mappings are not modelled.
- The units in the example log are a JSON object, which the summary prints with `str()`; the model's units field stands for that printed text.
- Samples are typed records, so the `KeyError` of a sample missing a field is not modelled, and neither is `str()` of a non-string state.
- `DoubleFailureDefinition(0.0, 100.0)` in metrics-build/metrics_reader.py is read positionally as (fails_below, fails_above). That reading is an assumption: the SDK's signature is not part of this model. The root reader passes the same two values by keyword, as `fails_above=100, fails_below=0`.
- The prints and debug output are left out, except the tracker's two lines: progress lines, the per-job and per-metric echo, and the proto names. The `RuntimeError` wrapping is modelled as the failure the wrapped exception gives.
