// The benchmark analyzer's flattening of the collected performance data:
// every test result of every collection entry becomes one flat row, with the
// entry's fields copied down and the result's performance, tag and score
// fields lifted to top-level columns. Values are JSON values; a row is the
// dictionary of its columns. Where the script would raise (a missing key, a
// value of the wrong kind), the flattening fails.

module PerformanceAnalyzer {

  datatype Option<T> = None | Some(value: T)

  /** A decoded JSON value. Numbers keep the kind the decoder gives them. */
  datatype Json =
    | JNull
    | JBool(b: bool)
    | JInt(i: int)
    | JReal(r: real)
    | JStr(s: string)
    | JArr(items: seq<Json>)
    | JObj(fields: map<string, Json>)

  /** A group of three counter columns, present or absent together. */
  datatype Counters = Counters(performed: Json, perSecond: Json, detail: Json)

  /** The three score columns `min_score`, `max_score` and `average_score`. */
  datatype Scores = Scores(minimum: Json, maximum: Json, average: Json)

  /**
   * A flat row. The entry's columns and `test_name` are always present; the
   * others are present (Some) only for the results that carry them:
   * `duration_microseconds` and `duration_seconds`; the move group
   * (`moves_generated`, `moves_per_second`, `positions_evaluated`), the
   * evaluation group (`evaluations_performed`, `evaluations_per_second`,
   * `average_evaluation_time`) and the operation group
   * (`operations_performed`, `operations_per_second`,
   * `average_operation_time`); the tags `board_configuration`, `operation`
   * and `evaluation_type`; and the scores.
   */
  datatype Row = Row(
    appVersion: Json,
    timestamp: Json,
    testGroup: Json,
    testFile: Json,
    filePath: Json,
    testName: Json,
    durationMicroseconds: Option<Json>,
    durationSeconds: Option<real>,
    moves: Option<Counters>,
    evaluations: Option<Counters>,
    operations: Option<Counters>,
    boardConfiguration: Option<Json>,
    operation: Option<Json>,
    evaluationType: Option<Json>,
    scores: Option<Scores>)

  /**
   * The elements a `for` loop visits, or None when iterating them raises
   * further on: a list gives its items; an empty dictionary or string gives
   * nothing; a non-empty dictionary or string gives keys or characters that
   * cannot be indexed by a column name; other values are not iterable.
   */
  function Elements(j: Json): Option<seq<Json>>
  {
    match j
    case JArr(items) => Some(items)
    case JObj(fields) => if fields == map[] then Some([]) else None
    case JStr(s) => if s == "" then Some([]) else None
    case _ => None
  }

  /** `dict.get(key, default)`. */
  function Get(m: map<string, Json>, key: string, default: Json): Json
  {
    if key in m then m[key] else default
  }

  /** The number a value stands for in arithmetic (a boolean counts as 0 or 1); None for a string, list, dictionary or null. */
  function NumberOf(j: Json): Option<real>
  {
    match j
    case JInt(i) => Some(i as real)
    case JReal(r) => Some(r)
    case JBool(b) => Some(if b then 1.0 else 0.0)
    case _ => None
  }

  /** The entry has the fields every row copies from it. */
  predicate HasEntryFields(entry: map<string, Json>)
  {
    "app_version" in entry && "timestamp" in entry && "test_group" in entry && "test_file" in entry && "file_path" in entry
  }

  /** The value under `key`, when present. */
  function Lookup(m: map<string, Json>, key: string): Option<Json>
  {
    if key in m then Some(m[key]) else None
  }

  /** A counter group: present when its counter key is, each column defaulting to 0. */
  function CounterGroup(perf: map<string, Json>, performed: string, perSecond: string, detail: string): Option<Counters>
  {
    if performed in perf then Some(Counters(Get(perf, performed, JInt(0)), Get(perf, perSecond, JInt(0)), Get(perf, detail, JInt(0))))
    else None
  }

  /** The score columns, None for a result without scores; Some(None) when the scores are not a dictionary. */
  function ScoreColumns(result: map<string, Json>): Option<Option<Scores>>
  {
    if "scores" !in result then Some(None)
    else match result["scores"]
      case JObj(scores) => Some(Some(Scores(Get(scores, "minimum", JInt(0)), Get(scores, "maximum", JInt(0)), Get(scores, "average", JInt(0)))))
      case _ => None
  }

  /** The performance block of a result, when it has one that can be read: a dictionary with a numeric duration. */
  predicate PerformanceReadable(result: map<string, Json>)
  {
    "performance" in result ==>
      result["performance"].JObj? && NumberOf(Get(result["performance"].fields, "durationMicroseconds", JInt(0))).Some?
  }

  /**
   * The row of one test result of an entry; `toDateTime` is the timestamp
   * conversion, None where it raises.
   */
  function ResultRow(entry: map<string, Json>, result: Json, toDateTime: Json -> Option<Json>): Option<Row>
  {
    if !HasEntryFields(entry) || toDateTime(entry["timestamp"]).None? || !result.JObj? then None
    else
      var r := result.fields;
      var scores := ScoreColumns(r);
      if !PerformanceReadable(r) || scores.None? then None
      else
        var row := Row(entry["app_version"], toDateTime(entry["timestamp"]).value, entry["test_group"],
                       entry["test_file"], entry["file_path"], Get(r, "testName", JStr("Unknown")),
                       None, None, None, None, None,
                       Lookup(r, "boardConfiguration"), Lookup(r, "operation"), Lookup(r, "evaluationType"),
                       scores.value);
        if "performance" !in r then Some(row)
        else
          var perf := r["performance"].fields;
          var micros := Get(perf, "durationMicroseconds", JInt(0));
          Some(row.(durationMicroseconds := Some(micros),
                    durationSeconds := Some(NumberOf(micros).value / 1000000.0),
                    moves := CounterGroup(perf, "movesGenerated", "movesPerSecond", "positionsEvaluated"),
                    evaluations := CounterGroup(perf, "evaluationsPerformed", "evaluationsPerSecond", "averageEvaluationTimeMicroseconds"),
                    operations := CounterGroup(perf, "operationsPerformed", "operationsPerSecond", "averageOperationTimeMicroseconds")))
  }

  /** Two runs of rows one after the other; None when either failed. */
  function Join(x: Option<seq<Row>>, y: Option<seq<Row>>): Option<seq<Row>>
  {
    if x.None? || y.None? then None else Some(x.value + y.value)
  }

  /** The rows of the results `results` of an entry, in order. */
  function ResultRows(entry: map<string, Json>, results: seq<Json>, toDateTime: Json -> Option<Json>): Option<seq<Row>>
    decreases |results|
  {
    if results == [] then Some([])
    else
      var before := ResultRows(entry, results[..|results| - 1], toDateTime);
      var row := ResultRow(entry, results[|results| - 1], toDateTime);
      if before.None? || row.None? then None else Some(before.value + [row.value])
  }

  /** The results of an entry, or None when the entry is not a dictionary with iterable results. */
  function ResultsOf(entry: Json): Option<seq<Json>>
  {
    if entry.JObj? && "results" in entry.fields then Elements(entry.fields["results"]) else None
  }

  /** The rows of an entry. */
  function EntryRows(entry: Json, toDateTime: Json -> Option<Json>): Option<seq<Row>>
  {
    var results := ResultsOf(entry);
    if results.None? then None else ResultRows(entry.fields, results.value, toDateTime)
  }

  /** The rows of the entries `entries`, entry after entry. */
  function EntriesRows(entries: seq<Json>, toDateTime: Json -> Option<Json>): Option<seq<Row>>
    decreases |entries|
  {
    if entries == [] then Some([])
    else
      Join(EntriesRows(entries[..|entries| - 1], toDateTime), EntryRows(entries[|entries| - 1], toDateTime))
  }

  /** The entries of the collected data: the iterable under its "data" key. */
  function EntriesOf(data: Json): Option<seq<Json>>
  {
    if data.JObj? && "data" in data.fields then Elements(data.fields["data"]) else None
  }

  /** `_create_dataframe`'s rows for the whole data set. */
  function Flatten(data: Json, toDateTime: Json -> Option<Json>): Option<seq<Row>>
  {
    var entries := EntriesOf(data);
    if entries.None? then None else EntriesRows(entries.value, toDateTime)
  }

  /** The number of results of an entry, 0 for an entry without iterable results. */
  function ResultCount(entry: Json): nat
  {
    var results := ResultsOf(entry);
    if results.None? then 0 else |results.value|
  }

  function TotalResults(entries: seq<Json>): nat
    decreases |entries|
  {
    if entries == [] then 0 else TotalResults(entries[..|entries| - 1]) + ResultCount(entries[|entries| - 1])
  }

  /**
   * `_create_dataframe`: the loop over the entries, appending each entry's
   * rows; None where the script raises.
   */
  method CreateDataFrame(data: Json, toDateTime: Json -> Option<Json>) returns (rows: Option<seq<Row>>)
    ensures rows == Flatten(data, toDateTime)
  {
    var entries := EntriesOf(data);
    if entries.None? {
      return None;
    }
    var es := entries.value;
    var acc: seq<Row> := [];
    var i := 0;
    while i < |es|
      invariant 0 <= i <= |es|
      invariant EntriesRows(es[..i], toDateTime) == Some(acc)
    {
      assert es[..i + 1][..i] == es[..i];
      var entryRows := EntryRowsOf(es[i], toDateTime);
      if entryRows.None? {
        EntriesFail(es, i + 1, toDateTime);
        return None;
      }
      acc := acc + entryRows.value;
      i := i + 1;
    }
    assert es[..i] == es;
    return Some(acc);
  }

  /** The inner loop of `_create_dataframe`: one row per result of the entry, in order. */
  method EntryRowsOf(entry: Json, toDateTime: Json -> Option<Json>) returns (rows: Option<seq<Row>>)
    ensures rows == EntryRows(entry, toDateTime)
  {
    var results := ResultsOf(entry);
    if results.None? {
      return None;
    }
    var rs := results.value;
    var acc: seq<Row> := [];
    var k := 0;
    while k < |rs|
      invariant 0 <= k <= |rs|
      invariant ResultRows(entry.fields, rs[..k], toDateTime) == Some(acc)
    {
      assert rs[..k + 1][..k] == rs[..k];
      var row := ResultRow(entry.fields, rs[k], toDateTime);
      if row.None? {
        ResultsFail(entry.fields, rs, k + 1, toDateTime);
        return None;
      }
      acc := acc + [row.value];
      k := k + 1;
    }
    assert rs[..k] == rs;
    return Some(acc);
  }

  /** Once a prefix of the results fails, the whole entry fails. */
  lemma {:induction false} ResultsFail(entry: map<string, Json>, results: seq<Json>, n: nat, toDateTime: Json -> Option<Json>)
    requires n <= |results| && ResultRows(entry, results[..n], toDateTime).None?
    ensures ResultRows(entry, results, toDateTime).None?
    decreases |results| - n
  {
    if n < |results| {
      assert results[..n + 1][..n] == results[..n];
      ResultsFail(entry, results, n + 1, toDateTime);
    } else {
      assert results[..n] == results;
    }
  }

  /** Once a prefix of the entries fails, the whole data set fails. */
  lemma {:induction false} EntriesFail(entries: seq<Json>, n: nat, toDateTime: Json -> Option<Json>)
    requires n <= |entries| && EntriesRows(entries[..n], toDateTime).None?
    ensures EntriesRows(entries, toDateTime).None?
    decreases |entries| - n
  {
    if n < |entries| {
      assert entries[..n + 1][..n] == entries[..n];
      EntriesFail(entries, n + 1, toDateTime);
    } else {
      assert entries[..n] == entries;
    }
  }

  // ---------------------------------------------------------------
  // Properties of the flattening
  // ---------------------------------------------------------------

  /** An entry's rows are its results' rows one for one, in order. */
  lemma {:induction false} ResultRowsOneForOne(entry: map<string, Json>, results: seq<Json>, toDateTime: Json -> Option<Json>)
    ensures var rows := ResultRows(entry, results, toDateTime);
            rows.Some? ==> |rows.value| == |results|
                           && forall k :: 0 <= k < |results| ==> ResultRow(entry, results[k], toDateTime) == Some(rows.value[k])
    ensures ResultRows(entry, results, toDateTime).None? <==>
              exists k :: 0 <= k < |results| && ResultRow(entry, results[k], toDateTime).None?
    decreases |results|
  {
    if results != [] {
      var init := results[..|results| - 1];
      ResultRowsOneForOne(entry, init, toDateTime);
      var rows := ResultRows(entry, results, toDateTime);
      if rows.Some? {
        var before := ResultRows(entry, init, toDateTime);
        forall k | 0 <= k < |results|
          ensures ResultRow(entry, results[k], toDateTime) == Some(rows.value[k])
        {
          if k < |init| {
            assert results[k] == init[k];
            assert rows.value[k] == before.value[k];
          }
        }
      }
      if exists k :: 0 <= k < |init| && ResultRow(entry, init[k], toDateTime).None? {
        var k :| 0 <= k < |init| && ResultRow(entry, init[k], toDateTime).None?;
        assert results[k] == init[k];
      }
      if exists k :: 0 <= k < |results| && ResultRow(entry, results[k], toDateTime).None? {
        var k :| 0 <= k < |results| && ResultRow(entry, results[k], toDateTime).None?;
        if k < |init| {
          assert results[k] == init[k];
        }
      }
    }
  }

  /** A successful flattening has one row per result, in total. */
  lemma {:induction false} RowCount(entries: seq<Json>, toDateTime: Json -> Option<Json>)
    ensures var rows := EntriesRows(entries, toDateTime);
            rows.Some? ==> |rows.value| == TotalResults(entries)
    decreases |entries|
  {
    if entries != [] {
      var last := entries[|entries| - 1];
      RowCount(entries[..|entries| - 1], toDateTime);
      var results := ResultsOf(last);
      if results.Some? {
        ResultRowsOneForOne(last.fields, results.value, toDateTime);
      }
    }
  }

  /** The rows of two runs of entries are the rows of the first followed by those of the second. */
  lemma {:induction false} EntriesRowsConcat(a: seq<Json>, b: seq<Json>, toDateTime: Json -> Option<Json>)
    ensures EntriesRows(a + b, toDateTime) == Join(EntriesRows(a, toDateTime), EntriesRows(b, toDateTime))
    decreases |b|
  {
    var ra := EntriesRows(a, toDateTime);
    if b == [] {
      assert a + b == a;
      if ra.Some? {
        assert ra.value + [] == ra.value;
      }
    } else {
      var binit := b[..|b| - 1];
      var last := b[|b| - 1];
      var ab := a + b;
      assert ab[..|ab| - 1] == a + binit;
      assert ab[|ab| - 1] == last;
      EntriesRowsConcat(a, binit, toDateTime);
      var rbi := EntriesRows(binit, toDateTime);
      var rl := EntryRows(last, toDateTime);
      assert EntriesRows(ab, toDateTime) == Join(Join(ra, rbi), rl);
      assert EntriesRows(b, toDateTime) == Join(rbi, rl);
      JoinAssociative(ra, rbi, rl);
    }
  }

  lemma JoinAssociative(x: Option<seq<Row>>, y: Option<seq<Row>>, z: Option<seq<Row>>)
    ensures Join(Join(x, y), z) == Join(x, Join(y, z))
  {
    if x.Some? && y.Some? && z.Some? {
      assert x.value + y.value + z.value == x.value + (y.value + z.value);
    }
  }

  /** An entry with no results contributes no rows, whatever its other fields. */
  lemma NoResultsNoRows(entry: map<string, Json>, toDateTime: Json -> Option<Json>)
    ensures EntryRows(JObj(entry["results" := JArr([])]), toDateTime) == Some([])
  {
  }

  /**
   * Every row copies its entry's fields (the timestamp converted) and names
   * its test, `Unknown` when the result has no name.
   */
  lemma RowCopiesEntry(entry: map<string, Json>, result: Json, toDateTime: Json -> Option<Json>)
    requires ResultRow(entry, result, toDateTime).Some?
    ensures var row := ResultRow(entry, result, toDateTime).value;
            row.appVersion == entry["app_version"] && row.testGroup == entry["test_group"]
            && row.testFile == entry["test_file"] && row.filePath == entry["file_path"]
            && Some(row.timestamp) == toDateTime(entry["timestamp"])
            && row.testName == (if "testName" in result.fields then result.fields["testName"] else JStr("Unknown"))
  {
  }

  /**
   * With a performance block, the row carries the duration in microseconds
   * (0 when absent) and the same duration in seconds; without one, neither
   * column and no counter group.
   */
  lemma DurationRule(entry: map<string, Json>, result: Json, toDateTime: Json -> Option<Json>)
    requires ResultRow(entry, result, toDateTime).Some?
    ensures var row := ResultRow(entry, result, toDateTime).value;
            var r := result.fields;
            (row.durationSeconds.Some? <==> "performance" in r)
            && (row.durationMicroseconds.Some? <==> "performance" in r)
            && ("performance" !in r ==> row.moves.None? && row.evaluations.None? && row.operations.None?)
    ensures var row := ResultRow(entry, result, toDateTime).value;
            var r := result.fields;
            "performance" in r ==>
              r["performance"].JObj?
              && row.durationMicroseconds == Some(Get(r["performance"].fields, "durationMicroseconds", JInt(0)))
              && NumberOf(row.durationMicroseconds.value).Some?
              && row.durationSeconds.value * 1000000.0 == NumberOf(row.durationMicroseconds.value).value
  {
  }

  /**
   * Each counter group is present exactly when its counter key is in the
   * performance block, with 0 for each of its missing columns.
   */
  lemma CounterGroupsRule(entry: map<string, Json>, result: Json, toDateTime: Json -> Option<Json>)
    requires ResultRow(entry, result, toDateTime).Some?
    requires "performance" in result.fields
    ensures var row := ResultRow(entry, result, toDateTime).value;
            var perf := result.fields["performance"].fields;
            (row.moves.Some? <==> "movesGenerated" in perf)
            && (row.evaluations.Some? <==> "evaluationsPerformed" in perf)
            && (row.operations.Some? <==> "operationsPerformed" in perf)
    ensures var row := ResultRow(entry, result, toDateTime).value;
            var perf := result.fields["performance"].fields;
            (row.moves.Some? ==> row.moves.value == Counters(perf["movesGenerated"], Get(perf, "movesPerSecond", JInt(0)), Get(perf, "positionsEvaluated", JInt(0))))
            && (row.evaluations.Some? ==> row.evaluations.value.perSecond == Get(perf, "evaluationsPerSecond", JInt(0)))
            && (row.operations.Some? ==> row.operations.value.detail == Get(perf, "averageOperationTimeMicroseconds", JInt(0)))
  {
  }

  /** Each tag is present exactly when the result has it, and is copied. */
  lemma TagsRule(entry: map<string, Json>, result: Json, toDateTime: Json -> Option<Json>)
    requires ResultRow(entry, result, toDateTime).Some?
    ensures var row := ResultRow(entry, result, toDateTime).value;
            var r := result.fields;
            row.boardConfiguration == Lookup(r, "boardConfiguration")
            && row.operation == Lookup(r, "operation")
            && row.evaluationType == Lookup(r, "evaluationType")
  {
  }

  /** The scores are present exactly when the result has them, with 0 for a missing one. */
  lemma ScoresRule(entry: map<string, Json>, result: Json, toDateTime: Json -> Option<Json>)
    requires ResultRow(entry, result, toDateTime).Some?
    ensures var row := ResultRow(entry, result, toDateTime).value;
            var r := result.fields;
            (row.scores.Some? <==> "scores" in r)
            && ("scores" in r ==>
                  r["scores"].JObj?
                  && row.scores.value == Scores(Get(r["scores"].fields, "minimum", JInt(0)),
                                                Get(r["scores"].fields, "maximum", JInt(0)),
                                                Get(r["scores"].fields, "average", JInt(0))))
  {
  }

  /**
   * A result's row fails exactly when an entry field is missing, the
   * timestamp does not convert, the result is not a dictionary, its
   * performance block is not a dictionary with a numeric duration, or its
   * scores are not a dictionary.
   */
  lemma RowFailure(entry: map<string, Json>, result: Json, toDateTime: Json -> Option<Json>)
    ensures ResultRow(entry, result, toDateTime).None? <==>
              !HasEntryFields(entry)
              || toDateTime(entry["timestamp"]).None?
              || !result.JObj?
              || ("performance" in result.fields
                  && (!result.fields["performance"].JObj?
                      || NumberOf(Get(result.fields["performance"].fields, "durationMicroseconds", JInt(0))).None?))
              || ("scores" in result.fields && !result.fields["scores"].JObj?)
  {
  }
}
