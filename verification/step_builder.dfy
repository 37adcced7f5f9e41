/**
 * AbstractStepBuilder: the listener bodies the base step builder hands to the
 * chunk-oriented step. They keep the step's counters, append rows to the job
 * log and write one result row per step execution.
 *
 * The chunk loop that calls them is not modelled: each listener is a method
 * here, and the facts the loop would supply (the write count, the failure
 * exception, the terminate-only flag, the status, the skip counts, the clock)
 * are its parameters.
 */
module AbstractStepBuilder {
  import opened Wrappers
  import opened Domain
  import opened JavaText
  import opened Params

  const ChunkSize: int := 1000
  const SkipLimit: int := 99
  const ChunkProcessLogSize: int := 1000
  const MaxMessageLength: nat := 4000

  /** The fault-tolerant step skips every Exception except an IOException; an Error is never skipped. */
  predicate Skippable(t: Throwable) {
    t.kind == OtherExceptionKind
  }

  /** The message stored with an ERROR log: cut to its first 4000 characters. */
  function Truncate(message: Option<string>): (r: Option<string>)
    ensures r.None? <==> message.None?
    ensures r.Some? ==> |r.value| <= MaxMessageLength && r.value <= message.value
    ensures r.Some? && |message.value| <= MaxMessageLength ==> r == message
    ensures r.Some? && |message.value| > MaxMessageLength ==> |r.value| == MaxMessageLength
  {
    if message.Some? && |message.value| > MaxMessageLength then Some(message.value[..MaxMessageLength])
    else message
  }

  /** An INFO log a concrete step appends from one of its hooks. */
  datatype InfoLog = InfoLog(message: string, note: string)

  /** Where a concrete step's countTotalItems gets its number. */
  datatype TotalSource =
    | FixedTotal(n: int)
    | PackageCount   // a long count from the page source, cast to int

  /** What a concrete step builder supplies to the base class. */
  datatype StepDefinition = StepDefinition(
    stepName: string,
    logMessageAtStart: Option<string>,
    total: TotalSource,
    beforeStepLog: Option<InfoLog>,
    afterStepLog: int -> Option<InfoLog>)   // given getNumberOfProcessed()

  /** What the step execution tells beforeStep. */
  datatype StepExecution = StepExecution(jobName: string, id: int, jobExecutionId: int, terminateOnly: bool)

  /** The step execution's skip counters (longs) as afterStep reads them. */
  datatype SkipCounts = SkipCounts(read: int, process: int, write: int, total: int)

  /** ExitStatus.COMPLETED's exit code. */
  const ExitCompleted: string := "COMPLETED"

  /** countTotalItems(); packageCount is what the page source reports when asked. */
  function CountTotalItems(source: TotalSource, packageCount: int): int {
    match source
    case FixedTotal(n) => n
    case PackageCount => Wrap32(packageCount)
  }

  /** Every field of the builder and of its chunk listener, as one value. */
  datatype StepState = StepState(
    numberOfProcessed: int,
    numberOfFailures: int,
    totalItems: int,
    noteResult: Option<string>,
    numItemPerLog: int,
    startTime: Option<Instant>,
    endTime: Option<Instant>,
    jobName: Option<string>,
    stepExecutionId: Option<int>,
    jobExecutionId: Option<int>,
    parameters: Option<ParamMap>,
    logs: seq<JobLog>,
    results: seq<JobLogResult>)

  /** addJobLog: a row under the step's name, stamped with the current ids and job name. */
  function LogEntry(stepName: string, s: StepState, logType: LogType, message: Option<string>, note: Option<string>): JobLog {
    JobLog(stepName, logType, message, note, s.stepExecutionId, s.jobExecutionId, s.jobName)
  }

  /** addJobError: an ERROR row with the truncated message and the stack trace as note. */
  function ErrorEntry(stepName: string, s: StepState, t: Throwable): JobLog {
    LogEntry(stepName, s, ERROR, Truncate(t.message), Some(t.stackTrace))
  }

  /** The hook's INFO row, if the concrete step has one. */
  function HookEntries(stepName: string, s: StepState, hook: Option<InfoLog>): seq<JobLog> {
    if hook.None? then [] else [LogEntry(stepName, s, INFO, Some(hook.value.message), Some(hook.value.note))]
  }

  /** "Count: processed/total". */
  function ProgressText(processed: int, total: int): string {
    "Count: " + IntToString(processed) + "/" + IntToString(total)
  }

  /** The chunk listener writes a COUNT row once enough items have piled up, or on a short chunk. */
  predicate ReportsProgress(accumulated: int, writeCount: int) {
    accumulated >= ChunkProcessLogSize || writeCount < ChunkSize
  }

  class StepBuilder {
    const definition: StepDefinition
    var numberOfProcessed: int
    var numberOfFailures: int
    var totalItems: int
    var noteResult: Option<string>
    var numItemPerLog: int
    var startTime: Option<Instant>
    var endTime: Option<Instant>
    var jobName: Option<string>
    var stepExecutionId: Option<int>
    var jobExecutionId: Option<int>
    var parameters: Option<ParamMap>
    var logs: seq<JobLog>
    var results: seq<JobLogResult>

    function State(): StepState
      reads this
    {
      StepState(numberOfProcessed, numberOfFailures, totalItems, noteResult, numItemPerLog,
        startTime, endTime, jobName, stepExecutionId, jobExecutionId, parameters, logs, results)
    }

    /** Before any step has run the counters hold -1 and nothing is logged. */
    constructor (definition: StepDefinition)
      ensures this.definition == definition
      ensures State() == StepState(-1, -1, -1, None, 0, None, None, None, None, None, None, [], [])
    {
      this.definition := definition;
      numberOfProcessed := -1;
      numberOfFailures := -1;
      totalItems := -1;
      noteResult := None;
      numItemPerLog := 0;
      startTime := None;
      endTime := None;
      jobName := None;
      stepExecutionId := None;
      jobExecutionId := None;
      parameters := None;
      logs := [];
      results := [];
    }

    /** setParameters. */
    method SetParameters(parameters: Option<ParamMap>)
      modifies this
      ensures State() == old(State()).(parameters := parameters)
    {
      this.parameters := parameters;
    }

    /** setNoteResult. */
    method SetNoteResult(note: Option<string>)
      modifies this
      ensures State() == old(State()).(noteResult := note)
    {
      noteResult := note;
    }

    /** addJobLog: one row stamped with the step name and the current ids; nothing else changes. */
    method AddJobLog(logType: LogType, message: Option<string>, note: Option<string>)
      modifies this
      ensures State() == old(State()).(logs := old(logs) + [LogEntry(definition.stepName, old(State()), logType, message, note)])
    {
      logs := logs + [LogEntry(definition.stepName, State(), logType, message, note)];
    }

    /**
     * The step listener's beforeStep: both counters restart at 0, the ids are
     * taken from the execution, the concrete step's hook logs first, the total
     * is counted unless the step is terminate-only, the note is set only if it
     * is still null, and the START row comes last.
     */
    method BeforeStep(execution: StepExecution, packageCount: int, now: Instant)
      modifies this
      ensures numberOfProcessed == 0 && numberOfFailures == 0 && startTime == Some(now)
      ensures jobName == Some(execution.jobName) && stepExecutionId == Some(execution.id)
      ensures jobExecutionId == Some(execution.jobExecutionId)
      ensures totalItems == if execution.terminateOnly then old(totalItems) else CountTotalItems(definition.total, packageCount)
      ensures noteResult == if old(noteResult).Some? then old(noteResult)
                            else if execution.terminateOnly then Some("Terminate Step")
                            else Some("Total: " + IntToString(totalItems))
      ensures logs == old(logs) + HookEntries(definition.stepName, State(), definition.beforeStepLog)
                + [LogEntry(definition.stepName, State(), START, definition.logMessageAtStart,
                     Some("Total: " + IntToString(totalItems) + ", " + Render(parameters)))]
      ensures numItemPerLog == old(numItemPerLog) && endTime == old(endTime)
      ensures parameters == old(parameters) && results == old(results)
    {
      Start(execution, now);
      if definition.beforeStepLog.Some? {
        AddJobLog(INFO, Some(definition.beforeStepLog.value.message), Some(definition.beforeStepLog.value.note));
      }
      CountTotal(execution.terminateOnly, packageCount);
      AddJobLog(START, definition.logMessageAtStart, Some("Total: " + IntToString(totalItems) + ", " + Render(parameters)));
    }

    /** The first half of beforeStep: fresh counters, the start time and the execution's ids. */
    method Start(execution: StepExecution, now: Instant)
      modifies this
      ensures State() == old(State()).(numberOfProcessed := 0, numberOfFailures := 0, startTime := Some(now),
        jobName := Some(execution.jobName), stepExecutionId := Some(execution.id),
        jobExecutionId := Some(execution.jobExecutionId))
    {
      numberOfProcessed := 0;
      numberOfFailures := 0;
      startTime := Some(now);
      jobName := Some(execution.jobName);
      stepExecutionId := Some(execution.id);
      jobExecutionId := Some(execution.jobExecutionId);
    }

    /** The total is counted unless the step is terminate-only; the note is set only while it is null. */
    method CountTotal(terminateOnly: bool, packageCount: int)
      modifies this
      ensures var total := if terminateOnly then old(totalItems) else CountTotalItems(definition.total, packageCount);
              State() == old(State()).(totalItems := total,
                noteResult := if old(noteResult).Some? then old(noteResult)
                              else if terminateOnly then Some("Terminate Step")
                              else Some("Total: " + IntToString(total)))
    {
      if !terminateOnly {
        totalItems := CountTotalItems(definition.total, packageCount);
        if noteResult.None? {
          noteResult := Some("Total: " + IntToString(totalItems));
        }
      } else {
        if noteResult.None? {
          noteResult := Some("Terminate Step");
        }
      }
    }

    /**
     * afterChunk: the write count (a long, cast to int) is added to the
     * processed counter and to the items since the last COUNT row; a COUNT row
     * is written, and that tally restarts, exactly when it reaches 1000 or the
     * write count is below the chunk size.
     */
    method AfterChunk(writeCount: int)
      modifies this
      ensures var s := old(State());
              var processed := Wrap32(s.numberOfProcessed + Wrap32(writeCount));
              var accumulated := Wrap32(s.numItemPerLog + Wrap32(writeCount));
              var reported := ReportsProgress(accumulated, writeCount);
              State() == s.(numberOfProcessed := processed,
                numItemPerLog := if reported then 0 else accumulated,
                logs := s.logs + if reported then
                  [LogEntry(definition.stepName, s, COUNT, Some(ProgressText(processed, s.totalItems)), Some(Render(s.parameters)))]
                  else [])
    {
      var processed := Wrap32(numberOfProcessed + Wrap32(writeCount));
      numberOfProcessed := processed;
      numItemPerLog := Wrap32(numItemPerLog + Wrap32(writeCount));
      if numItemPerLog >= ChunkProcessLogSize || writeCount < ChunkSize {
        logs := logs + [LogEntry(definition.stepName, State(), COUNT, Some(ProgressText(processed, totalItems)), Some(Render(parameters)))];
        numItemPerLog := 0;
      }
    }

    /** afterChunkError: with a failure exception, one more failure and one ERROR row; without one, nothing. */
    method AfterChunkError(failure: Option<Throwable>)
      modifies this
      ensures var s := old(State());
              State() == if failure.None? then s
                else s.(numberOfFailures := Wrap32(s.numberOfFailures + 1),
                        logs := s.logs + [ErrorEntry(definition.stepName, s, failure.value)])
    {
      if failure.Some? {
        numberOfFailures := Wrap32(numberOfFailures + 1);
        logs := logs + [ErrorEntry(definition.stepName, State(), failure.value)];
      }
    }

    /** onSkipInRead: one ERROR row, no counter moves. */
    method OnSkipInRead(t: Throwable)
      modifies this
      ensures State() == old(State()).(logs := old(logs) + [ErrorEntry(definition.stepName, old(State()), t)])
    {
      logs := logs + [ErrorEntry(definition.stepName, State(), t)];
    }

    /** onSkipInProcess: one ERROR row, no counter moves. */
    method OnSkipInProcess(t: Throwable)
      modifies this
      ensures State() == old(State()).(logs := old(logs) + [ErrorEntry(definition.stepName, old(State()), t)])
    {
      logs := logs + [ErrorEntry(definition.stepName, State(), t)];
    }

    /** onSkipInWrite: one failure fewer, and one ERROR row. */
    method OnSkipInWrite(t: Throwable)
      modifies this
      ensures var s := old(State());
              State() == s.(numberOfFailures := Wrap32(s.numberOfFailures - 1),
                            logs := s.logs + [ErrorEntry(definition.stepName, s, t)])
    {
      numberOfFailures := Wrap32(numberOfFailures - 1);
      logs := logs + [ErrorEntry(definition.stepName, State(), t)];
    }

    /**
     * The step listener's afterStep: the END row, then the concrete step's
     * hook, then exactly one result row carrying the counters, the skip counts
     * (cast to int) and the constant skip limit; the exit status is always
     * COMPLETED.
     */
    method AfterStep(status: Option<string>, skips: SkipCounts, now: Instant) returns (exitCode: string)
      modifies this
      ensures exitCode == ExitCompleted
      ensures var s := old(State()).(endTime := Some(now));
              State() == s.(
                logs := s.logs
                  + [LogEntry(definition.stepName, s, END, Some(ProgressText(s.numberOfProcessed, s.totalItems)), Some(Render(s.parameters)))]
                  + HookEntries(definition.stepName, s, definition.afterStepLog(s.numberOfProcessed)),
                results := s.results + [JobLogResult(definition.stepName, s.numberOfProcessed, s.numberOfFailures,
                  s.startTime, s.endTime, s.noteResult, s.totalItems,
                  Wrap32(skips.read), Wrap32(skips.process), Wrap32(skips.write), Wrap32(skips.total),
                  SkipLimit, s.stepExecutionId, s.jobExecutionId, status, s.jobName)])
    {
      endTime := Some(now);
      logs := logs + [LogEntry(definition.stepName, State(), END, Some(ProgressText(numberOfProcessed, totalItems)), Some(Render(parameters)))];
      logs := logs + HookEntries(definition.stepName, State(), definition.afterStepLog(numberOfProcessed));
      results := results + [JobLogResult(definition.stepName, numberOfProcessed, numberOfFailures,
        startTime, endTime, noteResult, totalItems,
        Wrap32(skips.read), Wrap32(skips.process), Wrap32(skips.write), Wrap32(skips.total),
        SkipLimit, stepExecutionId, jobExecutionId, status, jobName)];
      return ExitCompleted;
    }
  }
}
