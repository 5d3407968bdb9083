/** The flight record the metrics scripts read, its structural validation, and
    the per-sample rules both metrics files apply to it: the maximum speed,
    status classification and its worst-of aggregation, the encoding of
    flight states as indices, and the text summary's values. */
module FlightData {
  import opened Wrappers
  import opened Metrics
  import Stats

  datatype Position = Position(x: real, y: real, z: real)

  /** One sample; the ISO timestamp is abstracted to whole seconds. */
  datatype Sample = Sample(timestamp: int, speed: real, position: Position, state: string, status: string)

  /** The log's "metadata" object; `units` is None when it has no "units" key,
      and otherwise the text `str()` gives for the value (in the example log an
      object, not a string). */
  datatype Metadata = Metadata(units: Option<string>)

  /** A flight record: the metadata (None when the key is absent) and the
      ordered samples. */
  datatype FlightRecord = FlightRecord(metadata: Option<Metadata>, samples: seq<Sample>)

  // ---------------------------------------------------------------------------
  // Reading and validating the flight log

  /** A JSON value as `json.load` returns it. */
  datatype Json =
    | JObject(members: map<string, Json>)
    | JArray(items: seq<Json>)
    | JString(text: string)
    | JNumber(number: real)
    | JBool(truth: bool)
    | JNull

  /** The flight log file: absent, not JSON, or parsed. */
  datatype LogFile = Missing | Unparsable | Parsed(data: Json)

  /** FileNotFoundError, json.JSONDecodeError and the three ValueErrors of the checks. */
  datatype LogError = FileNotFound | JsonDecodeError | NotAnObject | MissingMetadata | MissingSamples

  /** `read_flight_data`: the file must exist and parse; then the checks run in
      order (a JSON object, then "metadata", then "samples") and the data is
      returned unchanged. */
  function ReadFlightData(file: LogFile): (r: Result<Json, LogError>)
    ensures r == Failure(FileNotFound) <==> file.Missing?
    ensures r == Failure(JsonDecodeError) <==> file.Unparsable?
    ensures r == Failure(NotAnObject) <==> file.Parsed? && !file.data.JObject?
    ensures r == Failure(MissingMetadata) <==>
              file.Parsed? && file.data.JObject? && "metadata" !in file.data.members
    ensures r == Failure(MissingSamples) <==>
              file.Parsed? && file.data.JObject? && "metadata" in file.data.members && "samples" !in file.data.members
    ensures r.Success? <==>
              file.Parsed? && file.data.JObject? && "metadata" in file.data.members && "samples" in file.data.members
    ensures r.Success? ==> r.value == file.data
  {
    match file
    case Missing => Failure(FileNotFound)
    case Unparsable => Failure(JsonDecodeError)
    case Parsed(data) =>
      if !data.JObject? then Failure(NotAnObject)
      else if "metadata" !in data.members then Failure(MissingMetadata)
      else if "samples" !in data.members then Failure(MissingSamples)
      else Success(data)
  }

  /** How a flight record stands for a JSON object: the metadata is present
      exactly when the key is, and for an object metadata the units are present
      exactly when its "units" key is. The decoding of the samples and of the
      units' text is not part of this model. */
  predicate Describes(data: Json, record: FlightRecord)
  {
    && data.JObject?
    && (record.metadata.Some? <==> "metadata" in data.members)
    && (record.metadata.Some? && data.members["metadata"].JObject? ==>
          (record.metadata.value.units.Some? <==> "units" in data.members["metadata"].members))
  }

  /** A record read through `read_flight_data` always has its metadata, so the
      summary can fail only for lack of units, and it does exactly when the
      metadata object has no "units" key. */
  lemma ValidatedLogHasMetadata(file: LogFile, record: FlightRecord)
    requires ReadFlightData(file).Success? && Describes(ReadFlightData(file).value, record)
    ensures record.metadata.Some?
    ensures UnitsOf(record) != Failure(MissingKey("metadata"))
    ensures file.data.members["metadata"].JObject? ==>
              (UnitsOf(record) == Failure(MissingKey("units")) <==> "units" !in file.data.members["metadata"].members)
  {
  }

  // ---------------------------------------------------------------------------
  // Maximum speed

  /** The exceptions the per-flight metrics raise: on an empty `samples` list
      ValueError from `max()` and IndexError from `samples[0]`, and KeyError
      for a key the log lacks. */
  datatype FlightError = MaxOfEmpty | NoFirstSample | MissingKey(key: string)

  function Speeds(samples: seq<Sample>): (r: seq<real>)
    ensures |r| == |samples|
    ensures forall i :: 0 <= i < |samples| ==> r[i] == samples[i].speed
  {
    seq(|samples|, i requires 0 <= i < |samples| => samples[i].speed)
  }

  /** `max(sample["speed"] for sample in samples)`: at least every sample's
      speed and equal to one of them; raises for no samples. */
  function MaxSpeed(samples: seq<Sample>): (r: Result<real, FlightError>)
    ensures r.Failure? <==> |samples| == 0
    ensures r.Failure? ==> r.error == MaxOfEmpty
    ensures r.Success? ==> forall i :: 0 <= i < |samples| ==> samples[i].speed <= r.value
    ensures r.Success? ==> exists i :: 0 <= i < |samples| && samples[i].speed == r.value
  {
    if |samples| == 0 then Failure(MaxOfEmpty)
    else
      var m := Stats.Max(Speeds(samples));
      assert forall i :: 0 <= i < |samples| ==> Speeds(samples)[i] == samples[i].speed;
      Success(m)
  }

  // ---------------------------------------------------------------------------
  // Status classification

  /** `str.lower` on one character; only ASCII letters are folded. */
  function LowerChar(c: char): char
  {
    if 'A' <= c <= 'Z' then (c as int - 'A' as int + 'a' as int) as char else c
  }

  function Lower(s: string): (r: string)
    ensures |r| == |s|
    ensures forall i :: 0 <= i < |s| ==> r[i] == LowerChar(s[i])
  {
    seq(|s|, i requires 0 <= i < |s| => LowerChar(s[i]))
  }

  /** A sample's status: "Error" exactly blocks, any casing of "warning" warns,
      anything else passes. */
  function ClassifyStatus(status: string): (r: Status)
    ensures r == FailBlock <==> status == "Error"
    ensures r == FailWarn <==> status != "Error" && Lower(status) == "warning"
    ensures r == Passed <==> status != "Error" && Lower(status) != "warning"
  {
    if status == "Error" then FailBlock
    else if Lower(status) == "warning" then FailWarn
    else Passed
  }

  /** Only the exact spelling "Error" blocks, while every casing of "warning" warns. */
  lemma ClassifyStatusExamples()
    ensures ClassifyStatus("Error") == FailBlock
    ensures ClassifyStatus("ERROR") == Passed && ClassifyStatus("error") == Passed
    ensures ClassifyStatus("Warning") == FailWarn && ClassifyStatus("WARNING") == FailWarn
    ensures ClassifyStatus("warning") == FailWarn
    ensures ClassifyStatus("OK") == Passed
  {
    assert Lower("ERROR") == "error";
    assert Lower("error") == "error";
    assert Lower("Warning") == "warning";
    assert Lower("WARNING") == "warning";
    assert Lower("OK") == "ok";
  }

  /** The per-sample status series. */
  function SampleStatuses(samples: seq<Sample>): (r: seq<Status>)
    ensures |r| == |samples|
    ensures forall i :: 0 <= i < |samples| ==> r[i] == ClassifyStatus(samples[i].status)
  {
    seq(|samples|, i requires 0 <= i < |samples| => ClassifyStatus(samples[i].status))
  }

  /** The `has_error` flag: some sample's status is exactly "Error". */
  predicate HasError(samples: seq<Sample>)
  {
    exists i :: 0 <= i < |samples| && samples[i].status == "Error"
  }

  /** The `has_warning` flag: some sample took the warning branch. */
  predicate HasWarning(samples: seq<Sample>)
  {
    exists i :: 0 <= i < |samples| && ClassifyStatus(samples[i].status) == FailWarn
  }

  /** The overall status expression over the two flags. */
  function OverallStatus(hasError: bool, hasWarning: bool): Status
  {
    if hasError then FailBlock else if hasWarning then FailWarn else Passed
  }

  /** The overall status of a flight: it blocks iff some sample is "Error",
      else warns iff some sample is a warning; no sample's status is worse. */
  function FlightStatus(samples: seq<Sample>): (r: Status)
    ensures r == FailBlock <==> exists i :: 0 <= i < |samples| && samples[i].status == "Error"
    ensures r == FailWarn <==>
              (forall i :: 0 <= i < |samples| ==> samples[i].status != "Error") &&
              exists i :: 0 <= i < |samples| && Lower(samples[i].status) == "warning"
    ensures forall i :: 0 <= i < |samples| ==> Severity(ClassifyStatus(samples[i].status)) <= Severity(r)
  {
    OverallStatus(HasError(samples), HasWarning(samples))
  }

  /** The flag-based overall status is the worst of the per-sample statuses. */
  lemma {:induction false} FlightStatusIsWorstOf(samples: seq<Sample>)
    ensures FlightStatus(samples) == WorstOf(SampleStatuses(samples))
  {
    if |samples| > 0 {
      var n := |samples|;
      var init := samples[..n - 1];
      FlightStatusIsWorstOf(init);
      assert SampleStatuses(samples)[..n - 1] == SampleStatuses(init);
      assert HasError(samples) <==> HasError(init) || samples[n - 1].status == "Error" by {
        if HasError(init) {
          var i :| 0 <= i < n - 1 && init[i].status == "Error";
          assert samples[i] == init[i];
        }
      }
      assert HasWarning(samples) <==> HasWarning(init) || ClassifyStatus(samples[n - 1].status) == FailWarn by {
        if HasWarning(init) {
          var i :| 0 <= i < n - 1 && ClassifyStatus(init[i].status) == FailWarn;
          assert samples[i] == init[i];
        }
      }
    }
  }

  // ---------------------------------------------------------------------------
  // State encoding

  function States(samples: seq<Sample>): (r: seq<string>)
    ensures |r| == |samples|
    ensures forall i :: 0 <= i < |samples| ==> r[i] == samples[i].state
  {
    seq(|samples|, i requires 0 <= i < |samples| => samples[i].state)
  }

  predicate NoDuplicates(s: seq<string>)
  {
    forall i, j :: 0 <= i < j < |s| ==> s[i] != s[j]
  }

  /** `list(set(states))`, for whatever order the set is iterated in: no
      duplicates and exactly the observed states. */
  ghost predicate IsOrderingOf(unique: seq<string>, states: seq<string>)
  {
    NoDuplicates(unique) && (forall x :: x in unique <==> x in states)
  }

  /** One such ordering: first occurrences, in sample order. */
  function Dedup(states: seq<string>): (r: seq<string>)
    ensures IsOrderingOf(r, states)
  {
    if |states| == 0 then []
    else
      var init := states[..|states| - 1];
      var last := states[|states| - 1];
      var r := Dedup(init);
      assert forall x :: x in states <==> x in init || x == last;
      if last in r then r else r + [last]
  }

  /** The first position of `x` in `s`. */
  function IndexOf(s: seq<string>, x: string): (k: nat)
    requires x in s
    ensures k < |s| && s[k] == x
    ensures forall j :: 0 <= j < k ==> s[j] != x
  {
    if s[0] == x then 0 else 1 + IndexOf(s[1..], x)
  }

  /** Colour values per sample and the colour bar's tick text and tick values. */
  datatype StateEncoding = StateEncoding(tickText: seq<string>, tickVals: seq<nat>, colorValues: seq<nat>)

  /** `state_to_num = {state: i for i, state in enumerate(unique_states)}`,
      `color_values = [state_to_num[s] for s in states]`,
      `tickvals = list(range(len(unique_states)))`. */
  function EncodeStates(states: seq<string>, unique: seq<string>): (e: StateEncoding)
    requires IsOrderingOf(unique, states)
    ensures e.tickText == unique
    ensures |e.tickVals| == |unique| && forall k :: 0 <= k < |unique| ==> e.tickVals[k] == k
    ensures |e.colorValues| == |states|
    ensures forall i :: 0 <= i < |states| ==>
              e.colorValues[i] < |unique| && unique[e.colorValues[i]] == states[i]
    ensures forall i, j :: 0 <= i < |states| && 0 <= j < |states| ==>
              (e.colorValues[i] == e.colorValues[j] <==> states[i] == states[j])
  {
    var stateToNum := map x | x in unique :: IndexOf(unique, x);
    var colors := seq(|states|, i requires 0 <= i < |states| => stateToNum[states[i]]);
    StateEncoding(unique, seq(|unique|, k => k), colors)
  }

  // ---------------------------------------------------------------------------
  // Text summary

  /** `flight_data['metadata']['units']`: KeyError for the first key missing. */
  function UnitsOf(record: FlightRecord): (r: Result<string, FlightError>)
    ensures r == Failure(MissingKey("metadata")) <==> record.metadata.None?
    ensures r == Failure(MissingKey("units")) <==> record.metadata.Some? && record.metadata.value.units.None?
    ensures r.Success? <==> HasUnits(record)
    ensures r.Success? ==> r.value == record.metadata.value.units.value
  {
    match record.metadata
    case None => Failure(MissingKey("metadata"))
    case Some(m) => if m.units.None? then Failure(MissingKey("units")) else Success(m.units.value)
  }

  /** The record has metadata with a "units" key. */
  predicate HasUnits(record: FlightRecord)
  {
    record.metadata.Some? && record.metadata.value.units.Some?
  }

  /** The values `add_text_metrics` formats: "Total Duration" is the number of
      samples (not a time span), the set of observed states, the maximum speed
      and the units. `max()` raises first for no samples; the units lookup in
      the f-string raises next. */
  function Summarize(record: FlightRecord): (r: Result<FlightSummary, FlightError>)
    ensures r.Failure? <==> |record.samples| == 0 || !HasUnits(record)
    ensures |record.samples| == 0 ==> r == Failure(MaxOfEmpty)
    ensures |record.samples| > 0 && !HasUnits(record) ==> r == Failure(UnitsOf(record).error)
    ensures r.Success? ==>
              && r.value.totalDuration == |record.samples|
              && (forall x :: x in r.value.statesObserved <==> x in States(record.samples))
              && Success(r.value.maxSpeed) == MaxSpeed(record.samples)
              && Success(r.value.units) == UnitsOf(record)
  {
    var states := set i | 0 <= i < |record.samples| :: record.samples[i].state;
    match MaxSpeed(record.samples)
    case Failure(e) => Failure(e)
    case Success(m) =>
      match UnitsOf(record)
      case Failure(e) => Failure(e)
      case Success(units) => Success(FlightSummary(|record.samples|, states, m, units))
  }
}
