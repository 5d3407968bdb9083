/** The `log_metric_addition` closure of both run_test_metrics scripts: a set
    of metric names added so far, warning when a name is added again. */
module NameTracker {
  import opened FlightData

  /** The two lines the closure prints. */
  datatype LogLine = AddingMetric(name: string) | DuplicateWarning(name: string)

  class MetricNameTracker {
    /** `added_metrics`. */
    var added: set<string>
    /** What has been printed so far. */
    var log: seq<LogLine>

    constructor ()
      ensures added == {} && log == []
    {
      added := {};
      log := [];
    }

    /** Warns iff the name is already present; otherwise adds it. Either way
        the name is present afterwards and a duplicate leaves the set as it was. */
    method LogMetricAddition(name: string) returns (warned: bool)
      modifies this
      ensures warned <==> name in old(added)
      ensures added == old(added) + {name}
      ensures warned ==> added == old(added)
      ensures log == old(log) + [if warned then DuplicateWarning(name) else AddingMetric(name)]
    {
      if name in added {
        log := log + [DuplicateWarning(name)];
        warned := true;
      } else {
        log := log + [AddingMetric(name)];
        added := added + {name};
        warned := false;
      }
    }
  }

  /** The set a fresh tracker holds after logging `names` in order. */
  function AddedAfter(names: seq<string>): set<string>
  {
    if |names| == 0 then {} else AddedAfter(names[..|names| - 1]) + {names[|names| - 1]}
  }

  /** The lines a fresh tracker prints while logging `names` in order. */
  function LogAfter(names: seq<string>): seq<LogLine>
  {
    if |names| == 0 then []
    else
      var init := names[..|names| - 1];
      var name := names[|names| - 1];
      LogAfter(init) + [if name in AddedAfter(init) then DuplicateWarning(name) else AddingMetric(name)]
  }

  /** The tracker ends up holding exactly the names logged. */
  lemma {:induction false} AddedAfterIsElements(names: seq<string>)
    ensures forall x :: x in AddedAfter(names) <==> x in names
  {
    if |names| > 0 {
      var init := names[..|names| - 1];
      AddedAfterIsElements(init);
      assert forall x :: x in names <==> x in init || x == names[|names| - 1];
    }
  }

  /** Logging pairwise distinct names never warns. */
  lemma {:induction false} DistinctNamesNeverWarn(names: seq<string>)
    requires NoDuplicates(names)
    ensures |LogAfter(names)| == |names|
    ensures forall i :: 0 <= i < |names| ==> LogAfter(names)[i] == AddingMetric(names[i])
  {
    if |names| > 0 {
      var init := names[..|names| - 1];
      var name := names[|names| - 1];
      assert NoDuplicates(init) by {
        forall i, j | 0 <= i < j < |init| ensures init[i] != init[j] {
          assert init[i] == names[i] && init[j] == names[j];
        }
      }
      DistinctNamesNeverWarn(init);
      AddedAfterIsElements(init);
      assert name !in init;
    }
  }
}
