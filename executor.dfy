/**
 * `SafeExecutor`: runs a function on a thread inside a temporary working
 * directory and turns the way the run ended into a dictionary. Threads,
 * signals and resource limits are not modelled: how the function's thread
 * ended is given as a `RunEvent`.
 *
 * The executor keeps `self.result` and `self.error` between runs. The thread
 * sets `result` when the function returns and `error` to `str(e)` when it
 * raises; neither is ever reset, and `if self.error` treats an empty message
 * like no error. So a run reports the error message left by the last run that
 * raised, and a run whose exception has an empty message reports success with
 * the last value returned. `ResourceLimitError` is declared and caught, but
 * nothing raises it.
 *
 * The `finally` block changes to the parent of the current directory, which
 * the `with` block has just removed. Where a removed directory can no longer
 * be asked for (POSIX systems), `Path.cwd()` raises `FileNotFoundError` and
 * that exception replaces whatever `execute` was returning. `restoresDirectory`
 * selects an executor whose `finally` returns to a directory that still
 * exists; then the dictionary comes out.
 */
module Executor {
  /** `max_time`, the default time limit in seconds. */
  const MaxTime: nat := 30

  datatype FailureKind = Timeout | ResourceLimit | Runtime

  /** How the function's thread ended: it returned (the value as `str` shows it), it
      was still running at the time limit, or it raised an exception with this message. */
  datatype RunEvent = Completed(value: string) | TimedOut | Threw(message: string)

  /** The dictionary `execute` returns: on success the result, an execution time that is
      always `max_time` and a memory use that is always 0; on failure the error text and
      its kind, and neither a time nor a memory figure. */
  datatype ExecResult =
    | Succeeded(value: string, executionTime: nat, memoryUsed: nat)
    | Failed(error: string, kind: FailureKind)

  /** What a call of `execute` gives the caller: the dictionary, or the message of the
      exception that escaped from it. */
  datatype Outcome = Returned(result: ExecResult) | Raised(error: string)

  /** `self.result` and `self.error` as later runs see them: `result` as `str` shows it
      ("None" before any run returned), `error` with "" for `None` (both are false). */
  datatype Fields = Fields(result: string, error: string)

  const TimeoutMessage := "Función excedió el tiempo límite"
  /** `str(e)` for the `FileNotFoundError` of `os.getcwd()` in a removed directory. */
  const CwdGoneMessage := "[Errno 2] No such file or directory"
  const Fresh := Fields("None", "")

  function KindName(k: FailureKind): string
  {
    match k
    case Timeout => "timeout"
    case ResourceLimit => "resource_limit"
    case Runtime => "runtime"
  }

  /** The fields once the thread has ended as `event`. A thread still running at the
      limit has written neither yet. */
  function AfterRun(f: Fields, event: RunEvent): Fields
  {
    match event
    case Completed(v) => Fields(v, f.error)
    case TimedOut => f
    case Threw(m) => Fields(f.result, m)
  }

  /** The dictionary built from the fields after the run. */
  function Report(event: RunEvent, g: Fields): (r: ExecResult)
    ensures r.Succeeded? <==> !event.TimedOut? && g.error == ""
    ensures r.Failed? ==> r.kind != ResourceLimit
    ensures r.Succeeded? ==> r.value == g.result && r.executionTime == MaxTime && r.memoryUsed == 0
    ensures event.TimedOut? ==> r == Failed(TimeoutMessage, Timeout)
    ensures !event.TimedOut? && g.error != "" ==> r == Failed(g.error, Runtime)
  {
    if event.TimedOut? then Failed(TimeoutMessage, Timeout)
    else if g.error != "" then Failed(g.error, Runtime)
    else Succeeded(g.result, MaxTime, 0)
  }

  /** What `execute` gives for a run that ended as `event`, with `f` the fields before it. */
  function ExecuteOutcome(restoresDirectory: bool, f: Fields, event: RunEvent): Outcome
  {
    if restoresDirectory then Returned(Report(event, AfterRun(f, event))) else Raised(CwdGoneMessage)
  }

  class SafeExecutor {
    var result: string
    var error: string
    const restoresDirectory: bool

    function State(): Fields
      reads this
    {
      Fields(result, error)
    }

    /** `__init__`: no result and no error yet. */
    constructor(restoresDirectory: bool)
      ensures State() == Fresh && this.restoresDirectory == restoresDirectory
    {
      result := "None";
      error := "";
      this.restoresDirectory := restoresDirectory;
    }

    /** `execute(function)` for a run that ended as `event`. */
    method Execute(event: RunEvent) returns (r: Outcome)
      modifies this
      ensures State() == AfterRun(old(State()), event)
      ensures r == ExecuteOutcome(restoresDirectory, old(State()), event)
    {
      match event {
        case Completed(v) => result := v;
        case TimedOut =>
        case Threw(m) => error := m;
      }
      if !restoresDirectory {
        return Raised(CwdGoneMessage);
      }
      if event.TimedOut? {
        return Returned(Failed(TimeoutMessage, Timeout));
      }
      if error != "" {
        return Returned(Failed(error, Runtime));
      }
      return Returned(Succeeded(result, MaxTime, 0));
    }
  }

  /** `result.get('execution_time', 0)` */
  function TimeOf(r: ExecResult): nat
  {
    if r.Succeeded? then r.executionTime else 0
  }

  /** `result.get('memory_used', 0)` */
  function MemoryOf(r: ExecResult): nat
  {
    if r.Succeeded? then r.memoryUsed else 0
  }

  // ---------------------------------------------------------------------
  // A series of runs on one executor
  // ---------------------------------------------------------------------

  /** The fields after a series of runs on a fresh executor. */
  function FieldsAfter(events: seq<RunEvent>): Fields
  {
    if events == [] then Fresh else AfterRun(FieldsAfter(events[..|events| - 1]), events[|events| - 1])
  }

  /** The value of the last run that returned, or "None". */
  function LastValue(events: seq<RunEvent>): string
  {
    if events == [] then "None"
    else if events[|events| - 1].Completed? then events[|events| - 1].value
    else LastValue(events[..|events| - 1])
  }

  /** The message of the last run that raised (possibly ""), or "". */
  function LastMessage(events: seq<RunEvent>): string
  {
    if events == [] then ""
    else if events[|events| - 1].Threw? then events[|events| - 1].message
    else LastMessage(events[..|events| - 1])
  }

  /** The fields hold the last value returned and the last message raised. */
  lemma {:induction false} FieldsAfterHistory(events: seq<RunEvent>)
    ensures FieldsAfter(events) == Fields(LastValue(events), LastMessage(events))
    decreases |events|
  {
    if events != [] {
      FieldsAfterHistory(events[..|events| - 1]);
    }
  }

  /** The dictionary of the run that follows `earlier`: a timeout or an exception with a
      message reports itself; otherwise the last message raised before decides, and a
      run that returned or raised an empty message reports the last value returned. */
  lemma ReportAfterHistory(earlier: seq<RunEvent>, event: RunEvent)
    ensures var r := Report(event, FieldsAfter(earlier + [event]));
      && (event.TimedOut? ==> r == Failed(TimeoutMessage, Timeout))
      && (event.Threw? && event.message != "" ==> r == Failed(event.message, Runtime))
      && (event.Completed? && LastMessage(earlier) != "" ==> r == Failed(LastMessage(earlier), Runtime))
      && (event.Completed? && LastMessage(earlier) == "" ==> r == Succeeded(event.value, MaxTime, 0))
      && (event == Threw("") ==> r == Succeeded(LastValue(earlier), MaxTime, 0))
  {
    assert (earlier + [event])[..|earlier|] == earlier;
    FieldsAfterHistory(earlier);
  }

  /** A fresh executor whose `finally` finds its directory returns each run's own
      report: its value, its timeout or its message. */
  lemma FirstRunReportsItself(event: RunEvent)
    ensures event.Completed? ==> ExecuteOutcome(true, Fresh, event) == Returned(Succeeded(event.value, MaxTime, 0))
    ensures event.Threw? && event.message != "" ==> ExecuteOutcome(true, Fresh, event) == Returned(Failed(event.message, Runtime))
    ensures event.TimedOut? ==> ExecuteOutcome(true, Fresh, event) == Returned(Failed(TimeoutMessage, Timeout))
  {
  }

  /** Once a run has raised "boom", a later run that returns still reports "boom". */
  lemma StaleErrorPersists(v: string, m: string)
    requires m != ""
    ensures Report(Completed(v), FieldsAfter([Threw(m), Completed(v)])) == Failed(m, Runtime)
  {
    assert [Threw(m), Completed(v)][..1] == [Threw(m)];
    assert [Threw(m)][..0] == [];
  }

  /** As written every call raises from its `finally`, whatever the run did. */
  lemma AsWrittenAlwaysRaises(f: Fields, event: RunEvent)
    ensures ExecuteOutcome(false, f, event) == Raised(CwdGoneMessage)
    ensures ExecuteOutcome(true, f, event).Returned?
  {
  }
}
