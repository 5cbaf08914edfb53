/**
 * The log manager's per-function execution log and metrics. Of the two
 * `log_execution` definitions in the class, Python keeps the second, which
 * appends a block to `executions/<name>_executions.log` (outside any error
 * handling) and then, inside a `try`, updates `metrics/<name>_metrics.json`.
 *
 * The directory tree is part of the state: the two sub-directories exist only
 * once `setup_logging` has run, so a missing `executions` directory makes the
 * call raise, and a missing `metrics` directory makes the metrics write fail
 * silently. File contents are modelled as values: the execution log as a
 * list of records, the metrics file as a `Metrics` value.
 */
module Logs {
  import opened Base
  import opened Executor

  /** One entry of `execution_history`. */
  datatype HistoryEntry = HistoryEntry(timestamp: string, success: bool, executionTime: nat, memoryUsed: nat)

  /** The JSON object kept in a metrics file. */
  datatype Metrics = Metrics(
    totalExecutions: nat,
    successfulExecutions: nat,
    totalExecutionTime: nat,
    averageExecutionTime: real,
    totalMemoryUsed: nat,
    averageMemoryUsed: real,
    errorCount: nat,
    lastExecution: Option<string>,
    history: seq<HistoryEntry>)

  /** One block appended to the execution log: the error line only for a failure. */
  datatype ExecutionRecord = ExecutionRecord(timestamp: string, success: bool, executionTime: nat, memoryUsed: nat, error: Option<string>)

  /** An error recorded by `log_error`. */
  datatype ErrorRecord = ErrorRecord(timestamp: string, functionName: string, error: string, context: map<string, string>)

  /** The two files `log_error` appends to: `errors.log`, and `functions/<name>_errors.log`
      for each function. */
  datatype ErrorLogs = ErrorLogs(general: seq<ErrorRecord>, byFunction: map<string, seq<ErrorRecord>>)

  const NoErrorLogs := ErrorLogs([], map[])

  /** A function's own error file, empty when it does not exist. */
  function FunctionErrors(logs: ErrorLogs, functionName: string): seq<ErrorRecord>
  {
    if functionName in logs.byFunction then logs.byFunction[functionName] else []
  }

  /** The records of `records` written for `functionName`, in order. */
  function RecordsFor(records: seq<ErrorRecord>, functionName: string): (r: seq<ErrorRecord>)
    ensures |r| <= |records|
    ensures forall k :: 0 <= k < |r| ==> r[k].functionName == functionName
  {
    if records == [] then []
    else
      var last := records[|records| - 1];
      RecordsFor(records[..|records| - 1], functionName) + (if last.functionName == functionName then [last] else [])
  }

  /** Both files take the record. */
  function WithError(logs: ErrorLogs, record: ErrorRecord): ErrorLogs
  {
    ErrorLogs(logs.general + [record],
              logs.byFunction[record.functionName := FunctionErrors(logs, record.functionName) + [record]])
  }

  /** Each function's error file holds exactly its records of `errors.log`, in order. */
  ghost predicate ErrorLogsAgree(logs: ErrorLogs)
  {
    forall f :: FunctionErrors(logs, f) == RecordsFor(logs.general, f)
  }

  lemma NoErrorLogsAgree()
    ensures ErrorLogsAgree(NoErrorLogs)
  {
  }

  /** Writing one record to both files keeps them in agreement, and the function's own
      file grows by exactly that record while the others stay as they were. */
  lemma WithErrorAgrees(logs: ErrorLogs, record: ErrorRecord)
    requires ErrorLogsAgree(logs)
    ensures ErrorLogsAgree(WithError(logs, record))
    ensures FunctionErrors(WithError(logs, record), record.functionName) ==
      RecordsFor(logs.general, record.functionName) + [record]
    ensures forall f :: f != record.functionName ==>
      FunctionErrors(WithError(logs, record), f) == FunctionErrors(logs, f)
  {
    var after := WithError(logs, record);
    assert after.general[..|after.general| - 1] == logs.general;
    forall f
      ensures FunctionErrors(after, f) == RecordsFor(after.general, f)
    {
      assert RecordsFor(after.general, f) ==
        RecordsFor(logs.general, f) + (if record.functionName == f then [record] else []);
    }
  }

  /** How many history entries a metrics file keeps. */
  const HistoryLimit: nat := 100

  /** The metrics a function starts from when it has no file. */
  const ZeroMetrics := Metrics(0, 0, 0, 0.0, 0, 0.0, 0, None, [])

  function EntryOf(data: ExecResult, now: string): HistoryEntry
  {
    HistoryEntry(now, data.Succeeded?, TimeOf(data), MemoryOf(data))
  }

  function RecordOf(data: ExecResult, now: string): ExecutionRecord
  {
    ExecutionRecord(now, data.Succeeded?, TimeOf(data), MemoryOf(data),
      if data.Succeeded? then None else Some(data.error))
  }

  /** `a / n` in Python for a positive count `n`: true division. */
  function Ratio(a: nat, n: nat): real
    requires n > 0
  {
    a as real / n as real
  }

  /** The metrics after one more execution whose result is `data`. */
  function Updated(m: Metrics, data: ExecResult, now: string): Metrics
  {
    var total := m.totalExecutions + 1;
    var time := m.totalExecutionTime + TimeOf(data);
    var memory := m.totalMemoryUsed + MemoryOf(data);
    Metrics(
      total,
      m.successfulExecutions + (if data.Succeeded? then 1 else 0),
      time,
      Ratio(time, total),
      memory,
      Ratio(memory, total),
      m.errorCount + (if data.Succeeded? then 0 else 1),
      Some(now),
      LastN(m.history + [EntryOf(data, now)], HistoryLimit))
  }

  /** What every metrics file written by `log_execution` satisfies: each execution is
      counted as exactly one success or one error, the averages are the totals over the
      count, and the history holds at most 100 entries, no more than there were calls. */
  predicate ValidMetrics(m: Metrics)
  {
    && m.successfulExecutions + m.errorCount == m.totalExecutions
    && (m.totalExecutions > 0 ==>
          && m.averageExecutionTime == Ratio(m.totalExecutionTime, m.totalExecutions)
          && m.averageMemoryUsed == Ratio(m.totalMemoryUsed, m.totalExecutions))
    && (m.totalExecutions == 0 ==> m.totalExecutionTime == 0 && m.totalMemoryUsed == 0 && m.history == [])
    && |m.history| <= HistoryLimit
    && |m.history| <= m.totalExecutions
  }

  lemma ZeroMetricsValid()
    ensures ValidMetrics(ZeroMetrics)
    ensures ZeroMetrics.totalExecutions == 0 && ZeroMetrics.lastExecution == None && ZeroMetrics.history == []
  {
  }

  /** One update keeps the metrics valid. */
  lemma UpdatedValid(m: Metrics, data: ExecResult, now: string)
    requires ValidMetrics(m)
    ensures ValidMetrics(Updated(m, data, now))
  {
  }

  /** One update counts the call once, as a success exactly when the run succeeded,
      and puts the new entry last in the history with the previous entries before it
      in their order. */
  lemma UpdatedCounts(m: Metrics, data: ExecResult, now: string)
    ensures var u := Updated(m, data, now);
      && u.totalExecutions == m.totalExecutions + 1
      && (data.Succeeded? <==> u.successfulExecutions == m.successfulExecutions + 1)
      && (data.Succeeded? <==> u.errorCount == m.errorCount)
      && u.lastExecution == Some(now)
      && u.history[|u.history| - 1] == EntryOf(data, now)
      && u.history[..|u.history| - 1] == LastN(m.history, HistoryLimit - 1)
  {
    AppendThenLastN(m.history, EntryOf(data, now), HistoryLimit);
  }

  /** The metrics of a function after the calls with results `calls`, from an absent file. */
  function MetricsAfter(calls: seq<(ExecResult, string)>): Metrics
  {
    if |calls| == 0 then ZeroMetrics
    else Updated(MetricsAfter(calls[..|calls| - 1]), calls[|calls| - 1].0, calls[|calls| - 1].1)
  }

  function Successes(calls: seq<(ExecResult, string)>): nat
  {
    if |calls| == 0 then 0
    else Successes(calls[..|calls| - 1]) + (if calls[|calls| - 1].0.Succeeded? then 1 else 0)
  }

  function TotalTime(calls: seq<(ExecResult, string)>): nat
  {
    if |calls| == 0 then 0 else TotalTime(calls[..|calls| - 1]) + TimeOf(calls[|calls| - 1].0)
  }

  function TotalMemory(calls: seq<(ExecResult, string)>): nat
  {
    if |calls| == 0 then 0 else TotalMemory(calls[..|calls| - 1]) + MemoryOf(calls[|calls| - 1].0)
  }

  function Entries(calls: seq<(ExecResult, string)>): (r: seq<HistoryEntry>)
    ensures |r| == |calls|
  {
    if |calls| == 0 then [] else Entries(calls[..|calls| - 1]) + [EntryOf(calls[|calls| - 1].0, calls[|calls| - 1].1)]
  }

  /** Keeping the last `n` after every append is keeping the last `n` at the end. */
  lemma LastNAppend<T>(s: seq<T>, x: T, n: nat)
    requires n > 0
    ensures LastN(LastN(s, n) + [x], n) == LastN(s + [x], n)
  {
    var a := LastN(s, n) + [x];
    var b := s + [x];
    if |s| <= n {
      assert LastN(s, n) == s;
    } else {
      var kept := s[|s| - n + 1..];
      assert a[|a| - n..] == kept + [x];
      assert b[|b| - n..] == kept + [x];
    }
  }

  /** Metrics built only by `log_execution` are valid. */
  lemma {:induction false} MetricsAfterValid(calls: seq<(ExecResult, string)>)
    ensures ValidMetrics(MetricsAfter(calls))
  {
    if |calls| == 0 {
      ZeroMetricsValid();
    } else {
      MetricsAfterValid(calls[..|calls| - 1]);
      UpdatedValid(MetricsAfter(calls[..|calls| - 1]), calls[|calls| - 1].0, calls[|calls| - 1].1);
    }
  }

  /** After a run of calls from no file the counters are the number of calls, of
      successes and of failures, and the totals are the sums over the calls. */
  lemma {:induction false} MetricsAfterCounts(calls: seq<(ExecResult, string)>)
    ensures var m := MetricsAfter(calls);
      && m.totalExecutions == |calls|
      && m.successfulExecutions == Successes(calls)
      && m.errorCount == |calls| - Successes(calls)
      && m.totalExecutionTime == TotalTime(calls)
      && m.totalMemoryUsed == TotalMemory(calls)
  {
    if |calls| > 0 {
      MetricsAfterCounts(calls[..|calls| - 1]);
    }
  }

  /** The history after a run of calls is the last 100 of them, oldest first. */
  lemma {:induction false} MetricsAfterHistory(calls: seq<(ExecResult, string)>)
    ensures MetricsAfter(calls).history == LastN(Entries(calls), HistoryLimit)
  {
    if |calls| > 0 {
      var init := calls[..|calls| - 1];
      MetricsAfterHistory(init);
      LastNAppend(Entries(init), EntryOf(calls[|calls| - 1].0, calls[|calls| - 1].1), HistoryLimit);
    }
  }

  /** The average execution time after a run of calls is the mean over all of them,
      failures included with time 0. */
  lemma MetricsAfterMean(calls: seq<(ExecResult, string)>)
    requires |calls| > 0
    ensures MetricsAfter(calls).averageExecutionTime == Ratio(TotalTime(calls), |calls|)
    ensures MetricsAfter(calls).averageMemoryUsed == Ratio(TotalMemory(calls), |calls|)
  {
    MetricsAfterValid(calls);
    MetricsAfterCounts(calls);
  }

  /** Because the executor always reports `max_time` for a success and nothing for a
      failure, the total time recorded is 30 seconds per success. */
  lemma {:induction false} TotalTimeIsMaxTimePerSuccess(calls: seq<(ExecResult, string)>)
    requires forall k :: 0 <= k < |calls| ==> calls[k].0.Succeeded? ==> calls[k].0.executionTime == MaxTime
    ensures TotalTime(calls) == MaxTime * Successes(calls)
  {
    if |calls| > 0 {
      TotalTimeIsMaxTimePerSuccess(calls[..|calls| - 1]);
    }
  }

  class LogManager {
    /** Whether `resources/logs/executions` exists. */
    var executionsDir: bool
    /** Whether `resources/logs/metrics` exists. */
    var metricsDir: bool
    /** `executions/<name>_executions.log`, per function. */
    var executionLogs: map<string, seq<ExecutionRecord>>
    /** `metrics/<name>_metrics.json`, per function. */
    var metricsFiles: map<string, Metrics>
    /** `errors.log` and the files of `functions/`, in directories the constructor made. */
    var errorLogs: ErrorLogs

    /** The constructor creates only `resources/logs` and `resources/logs/functions`;
        the two sub-directories log_execution needs are as the disk has them. */
    constructor(executionsExist: bool, metricsExist: bool)
      ensures executionsDir == executionsExist && metricsDir == metricsExist
      ensures executionLogs == map[] && metricsFiles == map[] && errorLogs == NoErrorLogs
      ensures Valid()
    {
      executionsDir := executionsExist;
      metricsDir := metricsExist;
      executionLogs := map[];
      metricsFiles := map[];
      errorLogs := NoErrorLogs;
      NoErrorLogsAgree();
    }

    /** `setup_logging`: creates the sub-directories and leaves every file as it was. */
    method SetupLogging()
      modifies this
      ensures old(Valid()) ==> Valid()
      ensures executionsDir && metricsDir
      ensures executionLogs == old(executionLogs) && metricsFiles == old(metricsFiles) && errorLogs == old(errorLogs)
    {
      executionsDir := true;
      metricsDir := true;
    }

    /**
     * The second `log_execution`. `raised` tells that opening the execution log
     * failed, which happens exactly when its directory is missing; then nothing
     * changes. Otherwise one record is appended to this function's log, and the
     * metrics file, when its directory exists, is replaced by the update of what it
     * held (all zero when there was no file). Other functions' files are untouched.
     */
    method LogExecution(functionName: string, data: ExecResult, now: string) returns (raised: bool)
      requires Valid()
      modifies this
      ensures Valid()
      ensures raised <==> !old(executionsDir)
      ensures executionsDir == old(executionsDir) && metricsDir == old(metricsDir) && errorLogs == old(errorLogs)
      ensures raised ==> executionLogs == old(executionLogs) && metricsFiles == old(metricsFiles)
      ensures !raised ==> executionLogs == old(executionLogs)[functionName :=
        (if functionName in old(executionLogs) then old(executionLogs)[functionName] else []) + [RecordOf(data, now)]]
      ensures !raised && metricsDir ==> metricsFiles == old(metricsFiles)[functionName :=
        Updated(Current(old(metricsFiles), functionName), data, now)]
      ensures !metricsDir ==> metricsFiles == old(metricsFiles)
    {
      if !executionsDir {
        return true;
      }
      var previous := if functionName in executionLogs then executionLogs[functionName] else [];
      executionLogs := executionLogs[functionName := previous + [RecordOf(data, now)]];
      if metricsDir {
        var metrics := Current(metricsFiles, functionName);
        CurrentValid(metricsFiles, functionName);
        UpdatedValid(metrics, data, now);
        metrics := Updated(metrics, data, now);
        AllValidUpdate(metricsFiles, functionName, metrics);
        metricsFiles := metricsFiles[functionName := metrics];
      }
      return false;
    }

    /** `log_error`: its writes go to directories the constructor made, so it always
        appends the record to `errors.log` and to the function's `<name>_errors.log`. */
    method LogError(functionName: string, error: string, context: map<string, string>, now: string)
      requires Valid()
      modifies this
      ensures Valid()
      ensures errorLogs == WithError(old(errorLogs), ErrorRecord(now, functionName, error, context))
      ensures errorLogs.general == old(errorLogs.general) + [ErrorRecord(now, functionName, error, context)]
      ensures FunctionErrors(errorLogs, functionName) ==
        FunctionErrors(old(errorLogs), functionName) + [ErrorRecord(now, functionName, error, context)]
      ensures executionsDir == old(executionsDir) && metricsDir == old(metricsDir)
      ensures executionLogs == old(executionLogs) && metricsFiles == old(metricsFiles)
    {
      WithErrorAgrees(errorLogs, ErrorRecord(now, functionName, error, context));
      errorLogs := WithError(errorLogs, ErrorRecord(now, functionName, error, context));
    }

    /** `get_function_metrics`: the file's contents, or nothing (`{}`) without a file. */
    function GetFunctionMetrics(functionName: string): (r: Option<Metrics>)
      reads this
      ensures r.None? <==> !metricsDir || functionName !in metricsFiles
      ensures r.Some? ==> r.value == metricsFiles[functionName]
    {
      if metricsDir && functionName in metricsFiles then Some(metricsFiles[functionName]) else None
    }

    /** The metrics files of functions that were only ever logged through this class. */
    ghost predicate Valid()
      reads this
    {
      (!metricsDir ==> metricsFiles == map[]) && AllValid(metricsFiles) && ErrorLogsAgree(errorLogs)
    }
  }

  /** Every metrics file of `files` is valid. */
  predicate AllValid(files: map<string, Metrics>)
  {
    forall f :: f in files ==> ValidMetrics(files[f])
  }

  /** What a metrics file holds, or the zero metrics when there is none. */
  function Current(files: map<string, Metrics>, functionName: string): Metrics
  {
    if functionName in files then files[functionName] else ZeroMetrics
  }

  lemma CurrentValid(files: map<string, Metrics>, functionName: string)
    requires AllValid(files)
    ensures ValidMetrics(Current(files, functionName))
  {
    if functionName !in files {
      ZeroMetricsValid();
    }
  }

  /** Replacing one file by valid metrics keeps every file valid. */
  lemma AllValidUpdate(files: map<string, Metrics>, functionName: string, m: Metrics)
    requires AllValid(files) && ValidMetrics(m)
    ensures AllValid(files[functionName := m])
  {
    var u := files[functionName := m];
    forall f | f in u
      ensures ValidMetrics(u[f])
    {
      if f != functionName {
        assert u[f] == files[f];
      }
    }
  }
}
