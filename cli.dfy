/**
 * The multi-resource dispatcher of the command line: for every discovered
 * resource handle, in order, reconfigure the logger, load the configuration,
 * call the requested operation, classify any failure, and print a status
 * line in compact ("silent") mode. The exit code is always 0.
 *
 * Discovery, configuration loading and the operations themselves are
 * outside the model: each resource's outcome is supplied as a `Step`.
 * Everything the dispatcher prints, every operation call and every log
 * record it emits is recorded in a trace of `Event`s.
 */
module Cli {
  import opened Wrappers
  import opened Timestamp
  import opened ResourceLogging

  /** A discovered resource configuration; only its working directory is read here. */
  datatype Handle = Handle(workdir: Path)

  datatype Command = Clean | Run | Install

  /** The per-resource call: `run(config, ...)` or `install(config, ...)`. */
  datatype Operation = DoRun | DoInstall

  /**
   * What a raised exception is classified as: an `InstallException` or
   * `ImportException` carries its first argument as message; anything
   * else is unexpected and logged with its trace.
   */
  datatype Failure = DomainFailure(message: string) | UnexpectedFailure

  datatype LoadResult = Loaded(resourceId: string) | LoadFailed(failure: Failure)

  datatype OpResult = Returned | OpFailed(failure: Failure)

  /**
   * The outside world for one resource: the clock reading taken by the
   * logger setup, the result of loading its configuration, and the result
   * of the operation (read only if loading succeeded).
   */
  datatype Step = Step(now: DateTime, load: LoadResult, op: OpResult)

  datatype Event =
    | Configured(workdir: Path)
    | Printed(line: string)
    | Called(operation: Operation, resourceId: string, subcommand: Option<seq<string>>)
    | Logged(level: Level, message: string, excInfo: bool, sinks: seq<Handler>)

  /**
   * Stand-ins for the terminal's coloured success and failure markers. The
   * proofs use only that the success marker's first character is neither
   * 'R' nor 'I', so a success line never begins like "Running" or
   * "Installing"; the status-line proofs use only the lines' fixed suffixes.
   */
  const GreenBox: string := "[ok]"
  const RedBox: string := "[!!]"

  /** The `subcommand` keyword argument: passed only when some module was named. */
  function SubcommandArg(modules: seq<string>): Option<seq<string>> {
    if |modules| > 0 then Some(modules) else None
  }

  /** Compact output is chosen exactly when more than one resource was discovered. */
  predicate Silent(count: nat) {
    count > 1
  }

  function OperationOf(c: Command): Operation
    requires c != Clean
  {
    if c == Run then DoRun else DoInstall
  }

  function TaskOutput(op: Operation): string {
    match op
    case DoRun => "Running"
    case DoInstall => "Installing"
  }

  /** `print(task_output, resource_id)` separates its arguments with one space. */
  function Announcement(op: Operation, resourceId: string): string {
    TaskOutput(op) + " " + resourceId
  }

  function SuccessLine(resourceId: string): string {
    GreenBox + " " + resourceId + "\t success"
  }

  function FailLine(workdir: Path): string {
    RedBox + " " + workdir + "\t fail"
  }

  function FailureMessage(f: Failure): string {
    match f
    case DomainFailure(m) => "Exception for resource: " + m
    case UnexpectedFailure => "Exception for resource"
  }

  predicate Succeeds(s: Step) {
    s.load.Loaded? && s.op.Returned?
  }

  /** The failure that ended an unsuccessful step: the load's, or else the operation's. */
  function RaisedFailure(s: Step): Failure
    requires !Succeeds(s)
  {
    if s.load.LoadFailed? then s.load.failure else s.op.failure
  }

  /** The log record the except clause emits, routed to the handler of this resource. */
  function FailureLog(f: Failure, silent: bool, h: Handle): Event {
    Logged(Error, FailureMessage(f), f.UnexpectedFailure?, [SinkFor(h.workdir, silent, false)])
  }

  function FailureEvents(f: Failure, silent: bool, h: Handle): seq<Event> {
    [FailureLog(f, silent, h)] + (if silent then [Printed(FailLine(h.workdir))] else [])
  }

  /** In verbose mode the operation is announced before it is called. */
  function AnnounceEvents(op: Operation, silent: bool, resourceId: string): seq<Event> {
    if silent then [] else [Printed(Announcement(op, resourceId))]
  }

  /** What follows the operation call: the success line, or the except clause. */
  function OutcomeEvents(silent: bool, h: Handle, resourceId: string, result: OpResult): seq<Event> {
    match result
    case Returned => if silent then [Printed(SuccessLine(resourceId))] else []
    case OpFailed(f) => FailureEvents(f, silent, h)
  }

  /** Everything one iteration of the dispatch loop does, in order. */
  function StepEvents(op: Operation, sub: Option<seq<string>>, silent: bool, h: Handle, s: Step): seq<Event> {
    [Configured(h.workdir)] +
    match s.load
    case LoadFailed(f) => FailureEvents(f, silent, h)
    case Loaded(id) => AnnounceEvents(op, silent, id) + [Called(op, id, sub)] + OutcomeEvents(silent, h, id, s.op)
  }

  /** The events of each resource of `configs`, in order. */
  function Chunks(op: Operation, sub: Option<seq<string>>, silent: bool,
                  configs: seq<Handle>, steps: seq<Step>): seq<seq<Event>>
    requires |configs| == |steps|
  {
    seq(|configs|, i requires 0 <= i < |configs| => StepEvents(op, sub, silent, configs[i], steps[i]))
  }

  function Flatten(chunks: seq<seq<Event>>): seq<Event>
    decreases |chunks|
  {
    if |chunks| == 0 then [] else Flatten(chunks[..|chunks| - 1]) + chunks[|chunks| - 1]
  }

  /** The trace of the whole loop over `configs`. */
  function TraceOf(op: Operation, sub: Option<seq<string>>, silent: bool,
                   configs: seq<Handle>, steps: seq<Step>): seq<Event>
    requires |configs| == |steps|
  {
    Flatten(Chunks(op, sub, silent, configs, steps))
  }

  /** The trace of a non-empty list is that of all but its last resource, then the last one's events. */
  lemma TraceSnoc(op: Operation, sub: Option<seq<string>>, silent: bool, configs: seq<Handle>, steps: seq<Step>)
    requires |configs| == |steps| && |configs| > 0
    ensures TraceOf(op, sub, silent, configs, steps)
            == TraceOf(op, sub, silent, configs[..|configs| - 1], steps[..|configs| - 1])
               + StepEvents(op, sub, silent, configs[|configs| - 1], steps[|configs| - 1])
  {
    var n := |configs| - 1;
    var chunks := Chunks(op, sub, silent, configs, steps);
    assert chunks[..n] == Chunks(op, sub, silent, configs[..n], steps[..n]);
  }

  /** The run.log files after the loop's logger setups. */
  function FilesAfter(files: map<Path, seq<string>>, configs: seq<Handle>, steps: seq<Step>,
                      compact: bool): map<Path, seq<string>>
    requires |configs| == |steps|
    decreases |configs|
  {
    if |configs| == 0 then files
    else
      var n := |configs| - 1;
      var before := FilesAfter(files, configs[..n], steps[..n], compact);
      if compact then AppendLines(before, RunLogPath(configs[n].workdir), RunHeader(steps[n].now))
      else before
  }

  /** Extending the processed prefix by one resource extends the trace and the files by that resource's share. */
  lemma PrefixStep(op: Operation, sub: Option<seq<string>>, silent: bool, files: map<Path, seq<string>>,
                   configs: seq<Handle>, steps: seq<Step>, i: nat)
    requires |configs| == |steps| && i < |configs|
    ensures TraceOf(op, sub, silent, configs[..i + 1], steps[..i + 1])
            == TraceOf(op, sub, silent, configs[..i], steps[..i]) + StepEvents(op, sub, silent, configs[i], steps[i])
    ensures FilesAfter(files, configs[..i + 1], steps[..i + 1], silent)
            == var before := FilesAfter(files, configs[..i], steps[..i], silent);
               if silent then AppendLines(before, RunLogPath(configs[i].workdir), RunHeader(steps[i].now)) else before
  {
    assert configs[..i + 1][..i] == configs[..i] && steps[..i + 1][..i] == steps[..i];
    TraceSnoc(op, sub, silent, configs[..i + 1], steps[..i + 1]);
  }

  // ---------------------------------------------------------------------
  // The dispatcher

  /**
   * The except clause: an `InstallException` or `ImportException` is logged
   * at error level with its message only, anything else with its trace;
   * compact mode then prints the fail line naming the working directory.
   */
  method ReportFailure(e: Failure, silent: bool, handle: Handle, logger: Logger) returns (events: seq<Event>)
    requires logger.handlers == [SinkFor(handle.workdir, silent, false)] && logger.level == Info
    ensures events == FailureEvents(e, silent, handle)
  {
    var message := if e.DomainFailure? then "Exception for resource: " + e.message
                   else "Exception for resource";
    var sinks := if logger.IsEnabledFor(Error) then logger.handlers else [];
    events := [Logged(Error, message, e.UnexpectedFailure?, sinks)];
    if silent {
      events := events + [Printed(RedBox + " " + handle.workdir + "\t fail")];
    }
  }

  /**
   * One iteration of the loop: the logger setup, then the try block (load,
   * announcement, operation call, success line) and its except clause.
   * Returns what the iteration emits.
   */
  method ProcessResource(doRun: bool, doInstall: bool, kwargs: Option<seq<string>>, silent: bool,
                         handle: Handle, step: Step, logger: Logger)
    returns (events: seq<Event>)
    requires doRun != doInstall
    modifies logger
    ensures events == StepEvents(if doRun then DoRun else DoInstall, kwargs, silent, handle, step)
    ensures logger.handlers == [SinkFor(handle.workdir, silent, false)] && logger.level == Info
    ensures logger.files == if silent then AppendLines(old(logger.files), RunLogPath(handle.workdir), RunHeader(step.now))
                            else old(logger.files)
  {
    ghost var op := if doRun then DoRun else DoInstall;
    logger.SetupResourceLogging(handle.workdir, silent, false, step.now);
    events := [Configured(handle.workdir)];

    // try: a raised exception is recorded in `raised` and skips the rest of the block
    var raised: Option<Failure> := None;
    match step.load {
      case LoadFailed(f) =>
        raised := Some(f);
      case Loaded(resourceId) =>
        if !silent {
          var taskOutput := if doRun then "Running" else if doInstall then "Installing" else "Unknown action";
          events := events + [Printed(taskOutput + " " + resourceId)];
        }
        assert events == [Configured(handle.workdir)] + AnnounceEvents(op, silent, resourceId);
        if doInstall {
          events := events + [Called(DoInstall, resourceId, kwargs)];
          if step.op.OpFailed? { raised := Some(step.op.failure); }
        } else if doRun {
          events := events + [Called(DoRun, resourceId, kwargs)];
          if step.op.OpFailed? { raised := Some(step.op.failure); }
        }
        assert raised == if step.op.OpFailed? then Some(step.op.failure) else None;
        if raised.None? && silent {
          events := events + [Printed(GreenBox + " " + resourceId + "\t success")];
        }
        assert raised.None? ==> events == [Configured(handle.workdir)] + AnnounceEvents(op, silent, resourceId)
                                          + [Called(op, resourceId, kwargs)] + OutcomeEvents(silent, handle, resourceId, step.op);
    }

    // except Exception
    if raised.Some? {
      var reported := ReportFailure(raised.value, silent, handle, logger);
      events := events + reported;
    }
  }

  /**
   * `cli()` after argument parsing: `configs` is what discovery returned,
   * `steps[i]` is the outside world's answer for `configs[i]`.
   * The call `setup_resource_logging(workdir, silent=silent)` is modelled
   * as `SetupResourceLogging(workdir, silent, false, now)`: the logging
   * module's parameter is named `compact_output` and its `json_output` is
   * never set by the command line.
   */
  method RunCli(command: Command, modules: seq<string>, configs: seq<Handle>, steps: seq<Step>,
                logger: Logger)
    returns (exitCode: int, trace: seq<Event>)
    requires |steps| == |configs|
    modifies logger
    ensures exitCode == 0
    ensures command == Clean ==> logger.handlers == old(logger.handlers) && logger.level == old(logger.level)
    ensures command != Clean ==>
      trace == TraceOf(OperationOf(command), SubcommandArg(modules), Silent(|configs|), configs, steps)
    ensures command != Clean ==>
      logger.files == FilesAfter(old(logger.files), configs, steps, Silent(|configs|))
    ensures command != Clean && |configs| > 0 ==>
      && logger.handlers == [SinkFor(configs[|configs| - 1].workdir, Silent(|configs|), false)]
      && logger.level == Info
    ensures |configs| == 0 ==> logger.handlers == old(logger.handlers) && logger.level == old(logger.level)
  {
    if command == Clean {
      // clean(): its "Remove <path>" lines and the removal of the log and
      // output directories are not part of this model
      return 0, [];
    }
    var doRun := command == Run;
    var doInstall := command == Install;
    ghost var op := OperationOf(command);

    var kwargs: Option<seq<string>> := None;
    if |modules| > 0 {
      kwargs := Some(modules);
    }

    var silent := false;
    if |configs| > 1 {
      silent := true;
    }

    trace := [];
    for i := 0 to |configs|
      invariant trace == TraceOf(op, kwargs, silent, configs[..i], steps[..i])
      invariant logger.files == FilesAfter(old(logger.files), configs[..i], steps[..i], silent)
      invariant i > 0 ==> logger.handlers == [SinkFor(configs[i - 1].workdir, silent, false)]
      invariant i > 0 ==> logger.level == Info
      invariant i == 0 ==> logger.handlers == old(logger.handlers) && logger.level == old(logger.level)
    {
      var events := ProcessResource(doRun, doInstall, kwargs, silent, configs[i], steps[i], logger);
      trace := trace + events;
      PrefixStep(op, kwargs, silent, old(logger.files), configs, steps, i);
    }
    assert configs[..|configs|] == configs && steps[..|steps|] == steps;
    return 0, trace;
  }
}
