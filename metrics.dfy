/** The metric records the scripts hand to the metrics SDK, the SDK's writer
    abstracted as an append-only list of such records, and the metrics of
    earlier jobs as a batch fetch returns them. */
module Metrics {
  import opened Wrappers

  /** MetricStatus. `NoStatusReported` stands for every status the scripts
      never assign (the SDK defines more than the three they use). */
  datatype Status = Passed | FailWarn | FailBlock | NoStatusReported

  /** MetricImportance; the scripts only assign these two. */
  datatype Importance = HighImportance | MediumImportance

  /** How bad a status is: PASSED < FAIL_WARN < FAIL_BLOCK. */
  function Severity(s: Status): nat
  {
    match s
    case FailBlock => 2
    case FailWarn => 1
    case _ => 0
  }

  /** The worse of two statuses. */
  function Worse(a: Status, b: Status): Status
  {
    if Severity(b) > Severity(a) then b else a
  }

  /** Worst-of aggregation, starting from PASSED. */
  function WorstOf(statuses: seq<Status>): Status
  {
    if |statuses| == 0 then Passed
    else Worse(WorstOf(statuses[..|statuses| - 1]), statuses[|statuses| - 1])
  }

  /** DoubleFailureDefinition: a value fails below `failsBelow` or above `failsAbove`. */
  datatype FailureDef = FailureDef(failsBelow: real, failsAbove: real)

  /** The SDK's Timestamp. */
  datatype Timestamp = Timestamp(secs: int, nanos: int)

  /** HistogramBucket. */
  datatype Bucket = Bucket(lower: real, upper: real)

  /** The values a single-flight text summary is formatted from. */
  datatype FlightSummary = FlightSummary(totalDuration: nat, statesObserved: set<string>, maxSpeed: real, units: string)

  /** The values the batch text summary is formatted from. */
  datatype BatchSummary = BatchSummary(
    totalFlights: nat, highestSpeed: real, averageMaxSpeed: real,
    totalErrors: nat, totalWarnings: nat, successRate: real)

  /** What each kind of metric carries besides its name, importance and status.
      A plotly figure's content is not modelled. */
  datatype Payload =
    | Scalar(value: real, unit: Option<string>, failure: Option<FailureDef>)
    | DoubleOverTime(timestamps: seq<Timestamp>, values: seq<real>, statuses: seq<Status>, failures: seq<FailureDef>)
    | StatesOverTime(timestamps: seq<Timestamp>, states: seq<string>, statuses: seq<Status>,
                     statesSet: set<string>, failureStates: set<string>)
    | LinePlot(x: seq<int>, y: seq<real>, statuses: seq<Status>)
    | Histogram(values: seq<real>, statuses: seq<Status>, buckets: seq<Bucket>, lowerBound: real, upperBound: real)
    | Plotly
    | FlightText(flight: FlightSummary)
    | BatchText(batch: BatchSummary)

  /** One metric record as the writer's builder chain leaves it. */
  datatype Metric = Metric(name: string, importance: Importance, status: Status, payload: Payload)

  /** A status series of `n` PASSED entries, `[PASSED_METRIC_STATUS] * n`. */
  function AllPassed(n: nat): (r: seq<Status>)
    ensures |r| == n
    ensures forall i :: 0 <= i < n ==> r[i] == Passed
  {
    seq(n, _ => Passed)
  }

  /** ResimMetricsWriter, reduced to the metrics added so far. */
  class MetricsWriter {
    var metrics: seq<Metric>

    constructor ()
      ensures metrics == []
    {
      metrics := [];
    }

    /** One `add_*_metric(name)...with_*` builder chain: exactly one record is appended. */
    method Add(m: Metric)
      modifies this
      ensures metrics == old(metrics) + [m]
    {
      metrics := metrics + [m];
    }
  }

  /** A trace of a parsed plotly figure: its "x" and "y" entries when present. */
  datatype PlotlyTrace = PlotlyTrace(x: Option<seq<real>>, y: Option<seq<real>>)

  /** The result of `json.loads(plotly_data)`: malformed text raises, otherwise
      the document's "data" list when it has that key. */
  datatype PlotlyJson = Malformed | Document(data: Option<seq<PlotlyTrace>>)

  /** The typed part of a fetched metric. */
  datatype FetchedBody =
    | ScalarBody(value: real)
    | PlotlyBody(plotlyData: Option<PlotlyJson>)
    | OtherBody

  /** A metric of an earlier job; `status` is None when the object has no status attribute. */
  datatype FetchedMetric = FetchedMetric(name: string, status: Option<Status>, body: FetchedBody)

  /** One entry of the job-id-to-metrics mapping of a batch fetch, in its order;
      `metrics` is None when reading the job's metric list raises. */
  datatype Job = Job(id: string, metrics: Option<seq<FetchedMetric>>)

  /** Exceptions that abort a whole batch run: reading a job's metric list
      raises (AttributeError), `json.loads` of plotly data raises, or `.value`
      is read off a metric that is not a ScalarMetric. */
  datatype BatchError = UnreadableJobMetrics | PlotlyDecodeError | NotAScalar

  /** The status of `WorstOf` is one of the inputs (or PASSED for none) and no input is worse. */
  lemma {:induction false} WorstOfIsWorst(statuses: seq<Status>)
    ensures forall i :: 0 <= i < |statuses| ==> Severity(statuses[i]) <= Severity(WorstOf(statuses))
    ensures WorstOf(statuses) == Passed || WorstOf(statuses) in statuses
  {
    if |statuses| > 0 {
      var init := statuses[..|statuses| - 1];
      WorstOfIsWorst(init);
      assert forall i :: 0 <= i < |init| ==> init[i] == statuses[i];
    }
  }
}
