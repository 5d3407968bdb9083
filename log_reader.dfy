/** The root metrics_reader.py: the value of the last line of a log file and a
    100-iteration loop that writes it as a "Random Value" scalar, carrying on
    after any iteration that raises. */
module LogReader {
  import opened Wrappers
  import opened Metrics

  // ---------------------------------------------------------------------------
  // str.strip and str.split(',')

  /** The characters Python's `str.isspace` accepts, which `strip()` removes. */
  predicate IsSpace(c: char)
  {
    var n := c as int;
    n == 0x20 || 0x09 <= n <= 0x0D || 0x1C <= n <= 0x1F || n == 0x85 || n == 0xA0 || n == 0x1680
    || 0x2000 <= n <= 0x200A || n == 0x2028 || n == 0x2029 || n == 0x202F || n == 0x205F || n == 0x3000
  }

  /** `s.rstrip()`. */
  function StripRight(s: string): (r: string)
    ensures |r| <= |s| && r == s[..|r|]
    ensures |r| > 0 ==> !IsSpace(r[|r| - 1])
    ensures forall k :: |r| <= k < |s| ==> IsSpace(s[k])
  {
    if |s| == 0 || !IsSpace(s[|s| - 1]) then s else StripRight(s[..|s| - 1])
  }

  /** `s.lstrip()`. */
  function StripLeft(s: string): (r: string)
    ensures |r| <= |s| && r == s[|s| - |r|..]
    ensures |r| > 0 ==> !IsSpace(r[0])
    ensures forall k :: 0 <= k < |s| - |r| ==> IsSpace(s[k])
  {
    if |s| == 0 || !IsSpace(s[0]) then s
    else
      var r := StripLeft(s[1..]);
      assert forall k :: 1 <= k < |s| ==> s[k] == s[1..][k - 1];
      r
  }

  /** `s.strip()`. */
  function Strip(s: string): (r: string)
    ensures |r| <= |s|
    ensures |r| > 0 ==> !IsSpace(r[0]) && !IsSpace(r[|r| - 1])
  {
    StripLeft(StripRight(s))
  }

  /** `strip()` keeps a contiguous part of the text and removes only the
      whitespace around it. */
  lemma StripTrims(s: string)
    ensures exists k :: TrimmedAt(s, Strip(s), k)
  {
    var t := StripRight(s);
    var r := StripLeft(t);
    var k := |t| - |r|;
    assert Strip(s) == r;
    assert t == s[..|t|] && r == t[k..];
    assert r == s[k..k + |r|] by {
      assert forall j :: 0 <= j < |r| ==> r[j] == t[k + j] == s[k + j];
    }
    assert forall j :: 0 <= j < k ==> s[j] == t[j];
    assert TrimmedAt(s, r, k);
  }

  /** `r` is the part of `s` at offset `k`, and only whitespace surrounds it. */
  predicate TrimmedAt(s: string, r: string, k: nat)
  {
    && k + |r| <= |s| && r == s[k..k + |r|]
    && (forall j :: 0 <= j < k ==> IsSpace(s[j]))
    && (forall j :: k + |r| <= j < |s| ==> IsSpace(s[j]))
  }

  /** The position of the first comma. */
  function FirstComma(s: string): (k: nat)
    requires ',' in s
    ensures k < |s| && s[k] == ','
    ensures forall j :: 0 <= j < k ==> s[j] != ','
  {
    if s[0] == ',' then 0
    else
      assert ',' in s[1..] by {
        var j :| 0 <= j < |s| && s[j] == ',';
        assert s[1..][j - 1] == ',';
      }
      1 + FirstComma(s[1..])
  }

  /** `s.split(',')`: the text up to the first comma, then the fields of the
      rest; a text without a comma is one field. */
  function SplitCommas(s: string): (fields: seq<string>)
    ensures |fields| > 0
    ensures |fields| >= 2 <==> ',' in s
    ensures ',' !in s ==> fields == [s]
    decreases |s|
  {
    if ',' !in s then [s]
    else
      var k := FirstComma(s);
      [s[..k]] + SplitCommas(s[k + 1..])
  }

  /** `','.join(fields)`. */
  function JoinCommas(fields: seq<string>): string
    requires |fields| > 0
  {
    if |fields| == 1 then fields[0] else fields[0] + "," + JoinCommas(fields[1..])
  }

  /** No field holds a comma. */
  lemma {:induction false} SplitFieldsCommaFree(s: string)
    ensures forall k :: 0 <= k < |SplitCommas(s)| ==> ',' !in SplitCommas(s)[k]
    decreases |s|
  {
    if ',' in s {
      var k := FirstComma(s);
      var rest := s[k + 1..];
      SplitFieldsCommaFree(rest);
      var fields := SplitCommas(s);
      assert fields == [s[..k]] + SplitCommas(rest);
      assert ',' !in s[..k] by {
        forall j | 0 <= j < k ensures s[..k][j] != ',' {
          assert s[..k][j] == s[j];
        }
      }
      forall i | 0 <= i < |fields| ensures ',' !in fields[i] {
        if i > 0 {
          assert fields[i] == SplitCommas(rest)[i - 1];
        }
      }
    }
  }

  /** Joining the fields back with commas gives the text again. */
  lemma {:induction false} SplitJoin(s: string)
    ensures JoinCommas(SplitCommas(s)) == s
    decreases |s|
  {
    if ',' in s {
      var k := FirstComma(s);
      var rest := s[k + 1..];
      SplitJoin(rest);
      var fields := SplitCommas(s);
      assert fields == [s[..k]] + SplitCommas(rest);
      assert fields[1..] == SplitCommas(rest);
      assert JoinCommas(fields) == s[..k] + "," + rest;
      assert s == s[..k] + "," + rest;
    }
  }

  /** The first field of `a + "," + t` is a comma-free `a`; the rest are the fields of `t`. */
  lemma SplitAfterField(a: string, t: string)
    requires ',' !in a
    ensures SplitCommas(a + "," + t) == [a] + SplitCommas(t)
  {
    var s := a + "," + t;
    assert s[|a|] == ',';
    assert forall j :: 0 <= j < |a| ==> s[j] == a[j];
    assert FirstComma(s) == |a|;
    assert s[..|a|] == a && s[|a| + 1..] == t;
  }

  // ---------------------------------------------------------------------------
  // read_last_line

  /** What `read_last_line` raises: the file cannot be opened, the line has no
      second field (IndexError) or the field is not a float (ValueError). */
  datatype ReaderError = FileUnreadable | IndexError | ValueError

  /** `float(fields[1])`: IndexError without a second field, ValueError when
      `parse` (Python's `float` on a string) rejects it. */
  function SecondFieldValue(fields: seq<string>, parse: string -> Option<real>): (r: Result<real, ReaderError>)
    ensures |fields| < 2 ==> r == Failure(IndexError)
    ensures |fields| >= 2 && parse(fields[1]).None? ==> r == Failure(ValueError)
    ensures |fields| >= 2 && parse(fields[1]).Some? ==> r == Success(parse(fields[1]).value)
  {
    if |fields| < 2 then Failure(IndexError)
    else
      match parse(fields[1])
      case None => Failure(ValueError)
      case Some(v) => Success(v)
  }

  /** `float(lines[-1].strip().split(',')[1])`, or 0.0 for a file without lines. */
  function ReadLastLine(lines: seq<string>, parse: string -> Option<real>): (r: Result<real, ReaderError>)
    ensures |lines| == 0 ==> r == Success(0.0)
    ensures r != Failure(FileUnreadable)
    ensures |lines| > 0 ==> (r == Failure(IndexError) <==> ',' !in Strip(lines[|lines| - 1]))
    ensures |lines| > 0 && ',' in Strip(lines[|lines| - 1]) ==>
              var second := SplitCommas(Strip(lines[|lines| - 1]))[1];
              && ',' !in second
              && (r == Failure(ValueError) <==> parse(second).None?)
              && (r.Success? ==> Some(r.value) == parse(second))
  {
    if |lines| == 0 then Success(0.0)
    else
      var fields := SplitCommas(Strip(lines[|lines| - 1]));
      SplitFieldsCommaFree(Strip(lines[|lines| - 1]));
      SecondFieldValue(fields, parse)
  }

  /** Only the last line is read: earlier lines never change the result. */
  lemma OnlyLastLineMatters(before1: seq<string>, before2: seq<string>, last: string, parse: string -> Option<real>)
    ensures ReadLastLine(before1 + [last], parse) == ReadLastLine(before2 + [last], parse)
  {
    assert (before1 + [last])[|before1|] == last;
    assert (before2 + [last])[|before2|] == last;
  }

  /** Trailing whitespace (a newline, say) is stripped off before splitting. */
  lemma {:induction false} TrailingSpaceStripped(line: string, space: string)
    requires forall k :: 0 <= k < |space| ==> IsSpace(space[k])
    ensures StripRight(line + space) == StripRight(line)
    decreases |space|
  {
    if |space| > 0 {
      var shorter := space[..|space| - 1];
      assert (line + space)[..|line + space| - 1] == line + shorter;
      TrailingSpaceStripped(line, shorter);
    } else {
      assert line + space == line;
    }
  }

  /** A line and the line with trailing whitespace give the same value. */
  lemma TrailingSpaceIgnored(before: seq<string>, line: string, space: string, parse: string -> Option<real>)
    requires forall k :: 0 <= k < |space| ==> IsSpace(space[k])
    ensures ReadLastLine(before + [line + space], parse) == ReadLastLine(before + [line], parse)
  {
    TrailingSpaceStripped(line, space);
    assert Strip(line + space) == Strip(line);
    assert (before + [line + space])[|before|] == line + space;
    assert (before + [line])[|before|] == line;
  }

  /** With comma-free first and second fields, the value is `float` of the
      second field; what follows a second comma is ignored. */
  lemma SecondFieldIsValue(a: string, b: string, rest: string)
    requires ',' !in a && ',' !in b
    ensures |SplitCommas(a + "," + b + "," + rest)| >= 3
    ensures SplitCommas(a + "," + b + "," + rest)[1] == b
  {
    assert a + "," + b + "," + rest == a + "," + (b + "," + rest);
    SplitAfterField(a, b + "," + rest);
    SplitAfterField(b, rest);
  }

  // ---------------------------------------------------------------------------
  // main

  const RandomValueName := "Random Value"

  /** The failure definition `DoubleFailureDefinition(fails_above=100, fails_below=0)`. */
  const RandomValueFailure := FailureDef(0.0, 100.0)

  /** The one metric an iteration writes for the value it read. */
  function RandomValueMetric(value: real): Metric
  {
    Metric(RandomValueName, HighImportance, Passed, Scalar(value, None, Some(RandomValueFailure)))
  }

  /** What one iteration writes to its fresh writer, or the exception it
      catches; `file` is None when the log cannot be opened. */
  function IterationOutcome(file: Option<seq<string>>, parse: string -> Option<real>): (r: Result<seq<Metric>, ReaderError>)
    ensures r == Failure(FileUnreadable) <==> file.None?
    ensures file.Some? && ReadLastLine(file.value, parse).Failure? ==> r == Failure(ReadLastLine(file.value, parse).error)
    ensures file == Some([]) ==> r == Success([RandomValueMetric(0.0)])
    ensures file.Some? && |file.value| > 0 && ',' !in Strip(file.value[|file.value| - 1]) ==> r == Failure(IndexError)
    ensures r.Success? ==>
              && |r.value| == 1 && r.value[0].name == RandomValueName && r.value[0].status == Passed
              && r.value[0].importance == HighImportance && r.value[0].payload.Scalar?
              && r.value[0].payload.unit == None
              && r.value[0].payload.Scalar? && r.value[0].payload.failure == Some(RandomValueFailure)
              && file.Some? && ReadLastLine(file.value, parse) == Success(r.value[0].payload.value)
  {
    if file.None? then Failure(FileUnreadable)
    else
      var read := ReadLastLine(file.value, parse);
      if read.Failure? then Failure(read.error) else Success([RandomValueMetric(read.value)])
  }

  /** One iteration of `main`'s loop: a fresh writer, the read, and the one
      metric written, or the exception the `except` catches. */
  method RunIteration(file: Option<seq<string>>, parse: string -> Option<real>)
    returns (outcome: Result<seq<Metric>, ReaderError>)
    ensures outcome == IterationOutcome(file, parse)
  {
    var writer := new MetricsWriter();
    if file.None? {
      return Failure(FileUnreadable);
    }
    var value := ReadLastLine(file.value, parse);
    if value.Failure? {
      return Failure(value.error);
    }
    writer.Add(RandomValueMetric(value.value));
    assert writer.metrics == [RandomValueMetric(value.value)];
    outcome := Success(writer.metrics);
  }

  /** The outcomes of the first `n` iterations, in order. */
  function Outcomes(fileAt: nat -> Option<seq<string>>, parse: string -> Option<real>, n: nat)
    : (r: seq<Result<seq<Metric>, ReaderError>>)
    ensures |r| == n
    ensures forall i :: 0 <= i < n ==> r[i] == IterationOutcome(fileAt(i), parse)
  {
    if n == 0 then [] else Outcomes(fileAt, parse, n - 1) + [IterationOutcome(fileAt(n - 1), parse)]
  }

  /** `main`: exactly 100 iterations whatever each of them raises; iteration `i`
      reads the log as `fileAt(i)` finds it. */
  method RunReader(fileAt: nat -> Option<seq<string>>, parse: string -> Option<real>)
    returns (outcomes: seq<Result<seq<Metric>, ReaderError>>)
    ensures |outcomes| == 100
    ensures forall i :: 0 <= i < 100 ==> outcomes[i] == IterationOutcome(fileAt(i), parse)
  {
    outcomes := [];
    for i := 0 to 100
      invariant outcomes == Outcomes(fileAt, parse, i)
    {
      var outcome := RunIteration(fileAt(i), parse);
      outcomes := outcomes + [outcome];
    }
  }
}
