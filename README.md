# karp-pipeline dispatcher and resource logging, modelled in Dafny

`karp-pipeline run|install [modules...]` finds every resource configuration
below the current directory and processes them one at a time. For each
resource the command line:

- points the process-wide `karppipeline` logger at that resource;
- loads the resource's configuration;
- calls `run` or `install`;
- catches any `Exception` raised while loading or running, logs it and moves
  on to the next resource. The logger setup sits outside the `try`, and
  exceptions that are not `Exception`s (a keyboard interrupt, `SystemExit`)
  are not caught.

With more than one resource the output is compact ("silent"). Each resource
logs to `<workdir>/log/run.log` and prints one status line, success or fail.
With a single resource, log records go to standard output, and a `Running
<id>` or `Installing <id>` line is printed before the operation. The exit
code is always 0.

The project has these files:

- `wrappers.dfy`: `Option`.
- `timestamp.dfy` (module `Timestamp`): the timestamp rendering
  `%Y-%m-%d %H:%M:%S,%f` of `format`. It comes with a parser that works as its
  inverse, and the two round trips are proved.
- `logging.dfy` (module `ResourceLogging`):
  - the logger as a class `Logger`, with a handler sequence, a level, and the
    lines the setup itself has written to each file (the run.log headers);
  - `SetupResourceLogging`, which replaces the handler, sets the level to INFO
    and appends the run header in compact mode;
  - the JSON formatter's payload, modelled as a map.
- `cli.dfy` (module `Cli`):
  - the dispatch loop as the method `RunCli`, one iteration being the method
    `ProcessResource` and its except clause being `ReportFailure`;
  - the specification functions the methods are proved against: `StepEvents`
    for one iteration, `TraceOf` and `FilesAfter` for a whole batch.
- `cli_properties.dfy` (module `CliProperties`): what every batch satisfies,
  stated on `TraceOf`, `StepEvents` and `FilesAfter`. Each property holds for
  every resource list and every combination of outcomes. The properties are:
  - every handle is attempted exactly once, in order;
  - a failure does not affect the other resources;
  - the status lines, their order and their counts;
  - the announcements;
  - the operation calls;
  - how failures are classified and logged;
  - the run.log header blocks.

The outside world is a parameter, with one `Step` per discovered handle. A
step holds:

- the clock reading taken by the logger setup;
- the result of loading the configuration: the resource id, or a failure;
- the result of the operation: it returned, or it raised a failure.

A failure is a `DomainFailure(message)`, meaning an `InstallException` or
`ImportException` whose first argument is `message`, or an
`UnexpectedFailure`. Standard output, the operation calls and the log records
are recorded in order as a trace of `Event`s. Each log record carries the
handlers it reached and whether it has exception info.

The logging module takes its mode through the parameter `compact_output`.
The command line calls it with `silent=`, so the two files come from
different revisions. The model passes `silent` as `compact_output`, and
`json_output` is never set by the command line. A comment on `Cli.RunCli`
records this.

## Model

| member | source | states |
|---|---|---|
| Cli.RunCli | src/karppipeline/cli.py:72-116 | The exit code is 0 for every command and every outcome. `clean` leaves the logger's handlers and level as they were. For run/install, compact mode is on exactly when more than one handle was found. The trace is exactly the events of each handle in discovery order, with the requested operation and the module argument. The files gain exactly the run.log header lines that compact-mode setups write. Afterwards the logger holds the last resource's single sink at level INFO. The loop invariant states this for every prefix of the handles. |
| Cli.ProcessResource | src/karppipeline/cli.py:88-114 | One iteration emits exactly `StepEvents`. After the logger setup it either loads; prints "Running"/"Installing" in verbose mode; calls the single selected operation; prints the success line in compact mode. Or it reports the failure that stopped it. The logger ends with one sink for this resource at INFO, and the files gain this resource's header only in compact mode. |
| Cli.ReportFailure | src/karppipeline/cli.py:108-114 | The except clause emits one ERROR record. For a domain failure the message is "Exception for resource: " plus the failure's message, with no trace. For anything else it is "Exception for resource", with the trace. The record reaches the one configured handler because ERROR is enabled at INFO. In compact mode the fail line with the working directory follows. |
| Cli.FailureLog | src/karppipeline/cli.py:109-112 | The except clause's record: level ERROR, the classified message, exception info exactly for a non-domain failure, reaching the one handler the setup installed for this resource. `LoggedRecordsShape` and `FailuresLogged` are proved about it. |
| Cli.FailureEvents | src/karppipeline/cli.py:108-114 | The except clause's events: the record, then the fail line in compact mode only. `ReportFailure` is proved to emit exactly this. |
| Cli.AnnounceEvents | src/karppipeline/cli.py:93-100 | The verbose announcement before the call, and nothing in compact mode. `StepOrder` and `VerbosePrintsAnnouncements` are proved about it. |
| Cli.OutcomeEvents | src/karppipeline/cli.py:105-114 | What follows the call: the success line in compact mode when the operation returned, or the except clause's events when it raised. `SuccessLineOnlyAfterReturn` is proved about it. |
| Cli.OperationOf | src/karppipeline/cli.py:78-104 | The single operation a command selects: run for `run`, install for `install`. `RunCli` is proved to call only that one (with `CallsUseOneOperation`). |
| Cli.TaskOutput | src/karppipeline/cli.py:94-99 | The verbose progress word: "Running" for run, "Installing" for install. |
| Cli.Silent | src/karppipeline/cli.py:85-87 | Compact output is chosen once, before the loop, exactly when more than one handle was discovered. `RunCli`'s contract applies it to the number of handles for both the trace and the files. |
| Cli.SubcommandArg | src/karppipeline/cli.py:81-83 | The `subcommand` keyword is passed only when at least one module was named, and it then carries the module list unchanged. `CallsUseOneOperation` and `CallsInOrder` show that every call carries it. |
| Cli.Announcement | src/karppipeline/cli.py:93-100 | The verbose progress line: "Running" or "Installing", one space, the resource id. `VerbosePrintsAnnouncements` shows these are the only verbose prints. |
| Cli.SuccessLine | src/karppipeline/cli.py:107 | The compact success line: the success marker, the resource id, then "\t success". `SuccessLineDistinct` and `StatusLineShape` show it cannot be confused with other lines. |
| Cli.FailLine | src/karppipeline/cli.py:114 | The compact fail line: the failure marker, the handle's working directory, then "\t fail". |
| Cli.FailureMessage | src/karppipeline/cli.py:109-112 | The logged message: "Exception for resource: " plus the first argument for an `InstallException` or `ImportException`, the bare "Exception for resource" for anything else. `LoggedRecordsShape` shows exception info goes with the bare message exactly. |
| Cli.StepEvents | src/karppipeline/cli.py:88-114 | Everything one iteration does, in order: the setup, then the except clause's record and fail line after a load failure, or else the announcement, the call, and the success line or the except clause. `ProcessResource` is proved to emit exactly this. |
| Cli.TraceOf | src/karppipeline/cli.py:88-114 | The whole loop's trace: the iterations' events, in discovery order. `RunCli` is proved to emit exactly this, and the `CliProperties` lemmas are proved about it. |
| Cli.FilesAfter | src/karppipeline/cli.py:88-89 | The setup-written file lines after the loop: each compact-mode iteration appends its header to its own run.log, and verbose mode writes none. `RunCli` is proved to leave exactly this. |
| Cli.TraceSnoc | src/karppipeline/cli.py:88-114 | The trace of a batch is the trace of all but its last handle, followed by the last handle's events. |
| Cli.PrefixStep | src/karppipeline/cli.py:88-114 | Processing one more handle extends the trace by that handle's events. In compact mode it extends the files by that handle's header, and otherwise leaves them unchanged. |
| ResourceLogging.Logger.constructor | src/karppipeline/logging.py:8 | The logger named "karppipeline" starts with no handlers at level NOTSET. |
| ResourceLogging.SinkFor | src/karppipeline/logging.py:22-50 | The one handler a setup installs: a file handler on `<path>/log/run.log` in compact mode, a stdout stream handler otherwise, with the JSON formatter exactly when `json_output` is set. `SetupResourceLogging` is proved to install exactly it. |
| ResourceLogging.RunHeader | src/karppipeline/logging.py:28-29 | The two header lines: the dashed separator, then "pipeline run, " and the formatted time. |
| ResourceLogging.Logger.IsEnabledFor | src/karppipeline/logging.py:19 | A record level passes the logger when it is at least the effective level (WARNING when the level is NOTSET). `ReportFailure` routes ERROR through it at INFO and is proved to reach the installed handler. |
| ResourceLogging.Logger.SetupResourceLogging | src/karppipeline/logging.py:15-52 | Afterwards there is exactly one handler and the level is INFO. The handler is a file handler on `<path>/log/run.log` exactly in compact mode, and a stdout stream handler otherwise. It has the JSON formatter exactly when `json_output` is set, and no custom formatter otherwise. In compact mode run.log keeps its content and gains the dashed separator and "pipeline run, <timestamp>". No other file changes. |
| ResourceLogging.SetupTwice | src/karppipeline/logging.py:17-52 | For any two setups, with any paths and flags, only the second sink remains, at level INFO. The first sink is gone whenever it differs from the second, because handlers never accumulate. The files are the old files with the first setup's header appended if it was compact, then the second's if that was compact. Two compact setups on one resource leave both header blocks in its run.log, the first first. |
| ResourceLogging.AppendLines | src/karppipeline/logging.py:27-29 | Appending to a file keeps its earlier content and adds the lines at the end. It creates the file if missing and leaves every other file unchanged. |
| ResourceLogging.JsonPayload | src/karppipeline/logging.py:37-47 | The payload always has the keys timestamp, level, logger and message, carrying the level's name, the logger's name and the message. The key exc_info is present if and only if the record carries exception info, and then holds the rendered trace. |
| ResourceLogging.JsonTimestampReadsBack | src/karppipeline/logging.py:40 | The payload's timestamp parses back to the local datetime the formatter derives from `record.created`. |
| Timestamp.Format | src/karppipeline/logging.py:11-12 | `%Y-%m-%d %H:%M:%S,%f`, every field zero-padded. `FormatShape`, `FormatThenParse`, `ParseThenFormat` and `FormatInjective` are proved about it. |
| Timestamp.Digits | src/karppipeline/logging.py:12 | A zero-padded field of width w has exactly w characters, all digits. |
| Timestamp.DigitsThenValue | src/karppipeline/logging.py:12 | A number below 10^w reads back from its padded rendering. |
| Timestamp.ValueThenDigits | src/karppipeline/logging.py:12 | Every digit string is the padded rendering of the number it denotes. |
| Timestamp.FormatShape | src/karppipeline/logging.py:11-12 | Every rendering has 26 characters, with `-`, `-`, space, `:`, `:` and `,` at positions 4, 7, 10, 13, 16 and 19. |
| Timestamp.FormatThenParse | src/karppipeline/logging.py:11-12 | Parsing the rendering of any valid datetime gives back that datetime. |
| Timestamp.ParseThenFormat | src/karppipeline/logging.py:11-12 | Whatever parses is a valid datetime whose rendering is exactly the parsed text. |
| Timestamp.FormatInjective | src/karppipeline/logging.py:11-12 | Distinct valid datetimes render differently. |
| CliProperties.StepAttempts | src/karppipeline/cli.py:88-89 | One iteration configures the logger for its handle exactly once, whatever the outcome. |
| CliProperties.StepLines | src/karppipeline/cli.py:93-114 | In compact mode an iteration prints exactly its status line. In verbose mode it prints exactly the announcement when the configuration loaded, and nothing otherwise. |
| CliProperties.StepCalls | src/karppipeline/cli.py:101-104 | An iteration calls the requested operation once with the module argument when the configuration loaded, and makes no call otherwise. |
| CliProperties.StepLogs | src/karppipeline/cli.py:108-112 | An iteration logs exactly one failure record when it fails, and none when it succeeds. |
| CliProperties.SuccessLineDistinct | src/karppipeline/cli.py:100-114 | A success line is never a fail line or an announcement, and it determines its resource id. |
| CliProperties.SuccessLineOnlyAfterReturn | src/karppipeline/cli.py:91-107 | A resource's success line is printed if and only if compact mode is on, the configuration loaded with that id and the operation returned. A load failure or an operation failure never prints it. |
| CliProperties.StepOrder | src/karppipeline/cli.py:89-107 | The logger setup comes first. In verbose mode the announcement comes directly before the call. A successful compact iteration is exactly setup, call, success line. |
| CliProperties.FlattenConcat | src/karppipeline/cli.py:88 | Helper lemma (list algebra behind the loop's trace): concatenating two lists of per-resource event lists and flattening gives the two flattenings one after the other. |
| CliProperties.TraceConcat | src/karppipeline/cli.py:88-114 | Processing two lists of handles back to back gives the trace of processing their concatenation. |
| CliProperties.FailureIsolation | src/karppipeline/cli.py:88-114 | Whatever resource k's outcome, the trace is the trace of the resources before k, then k's own events, then exactly the trace a batch of the resources after k would give. A failure in k never stops or alters what k+1 onwards do. |
| CliProperties.SelectConcat | src/karppipeline/cli.py:88 | Helper lemma (list algebra behind the loop's trace): picking events out of a concatenation picks from each part in turn. |
| CliProperties.SelectFlatten | src/karppipeline/cli.py:88 | Helper lemma (list algebra behind the loop's trace): picking events out of the concatenated iterations is the concatenation of what is picked from each iteration. |
| CliProperties.SelectTrace | src/karppipeline/cli.py:88-114 | A projection of the whole trace is the concatenation of its projections of the single iterations, in discovery order. |
| CliProperties.GatherSingleAt | src/karppipeline/cli.py:88 | Helper lemma (list algebra behind the loop's trace): when every resource yields one item, the batch yields one item per resource and item i belongs to resource i. |
| CliProperties.AttemptedOnceInOrder | src/karppipeline/cli.py:88-89 | The logger is configured once per handle, as many times as there are handles, and the i-th time for handle i. |
| CliProperties.CompactPrintsStatusLines | src/karppipeline/cli.py:85-114 | In compact mode the printed output is exactly one status line per resource, in order. There is no announcement. |
| CliProperties.VerbosePrintsAnnouncements | src/karppipeline/cli.py:93-107 | In verbose mode the printed output is exactly one "Running"/"Installing" line per loaded resource, in order, with no status line. |
| CliProperties.StatusLineAt | src/karppipeline/cli.py:105-114 | Status line i is about resource i. It is the success line with its resource id exactly when the load and the operation both succeeded, and otherwise the fail line with its working directory. |
| CliProperties.StatusLineShape | src/karppipeline/cli.py:107-114 | A status line ends in "\t success" exactly when the resource succeeded, and in "\t fail" exactly when it did not. |
| CliProperties.StatusCounts | src/karppipeline/cli.py:105-114 | Compact mode prints as many success lines as resources that succeeded, and a fail line for each of the others. |
| CliProperties.CountSucceededBound | src/karppipeline/cli.py:105-114 | Helper lemma (arithmetic behind `StatusCounts`): no more resources succeed than there are. |
| CliProperties.CallsUseOneOperation | src/karppipeline/cli.py:78-104 | Every call is to the one requested operation, carrying the one module argument. Run never calls install and install never calls run. |
| CliProperties.CallsInOrder | src/karppipeline/cli.py:91-104 | Exactly the resources whose configuration loaded are handed to the operation, in discovery order. |
| CliProperties.LoggedRecordsShape | src/karppipeline/cli.py:108-112 | Every logged record is at level ERROR and reaches exactly one handler, never formatted as JSON. That handler is run.log in compact mode and standard output otherwise. A record carries exception info exactly when its message is the bare "Exception for resource". |
| CliProperties.FailuresLogged | src/karppipeline/cli.py:108-112 | Exactly the failed resources, in order, each yield one error record routed to that resource's own sink. |
| CliProperties.VerboseLeavesFiles | src/karppipeline/logging.py:22-32 | A verbose batch touches no file. |
| CliProperties.CompactAppendsHeaders | src/karppipeline/logging.py:24-29 | After a compact batch, the setup-written lines of every file are its earlier lines followed by one two-line header block per resource whose run.log it is, in order. |
| CliProperties.TwoBatchesKeepBothHeaders | src/karppipeline/logging.py:27-29 | Two compact batches over the same resources leave both batches' header blocks, the first batch's first. |

## Left out

- Argument parsing and help text (`src/karppipeline/cli.py:28-63`) are library plumbing. The model takes the command and the module list as parameters.
- Resource discovery, configuration loading, `run` and `install` are not part of this model. Their results are the `steps` parameter, one per discovered handle.
- Cli.RunCli: for `clean` it promises only the exit code 0 and an unchanged logger handler and level. The body of `clean()` (`src/karppipeline/cli.py:12-25`) prints "Remove <path>" for each existing log or output directory and removes it, which would also drop the run.log lines held in `Logger.files`. That is file-system work on paths from helpers that are not part of this model.
- The log directory helper is opaque. The model puts run.log at `<workdir>/log/run.log`, and creating the directory cannot fail in the model.
- Logger.files, Cli.FilesAfter, CliProperties.CompactAppendsHeaders: these hold only the header lines the setup writes itself (`src/karppipeline/logging.py:27-29`). The lines the installed file handler (`src/karppipeline/logging.py:30`) appends for each logged record are not added to them. A compact failure's record is an event in the trace naming the run.log handler it reached, not a line of that file.
- The coloured terminal markers are stand-in constants (`[ok]`, `[!!]`).
- ResourceLogging.JsonTimestampReadsBack: `record.created` is a floating-point count of seconds since the epoch. The formatter's `datetime.fromtimestamp` turns it into local time with no offset, rounded to the microsecond. The model takes that converted datetime as the record's `created`, so the round trip is about the converted datetime. It does not recover the original instant: sub-microsecond digits are lost, and two instants in the hour repeated when daylight saving ends render alike.
- The clock is a parameter: each `Step` carries the time the setup reads.
- `Timestamp.Format`: renders the year with four digits. It does not model how the C library's strftime renders years below 1000.
- The text of `formatException`, the JSON serialisation of the payload, and the formatting of log records into file lines are not modelled. A log record is an event naming the handlers it reached.
- Logging library internals, such as propagation to the root logger and handler buffering, are left out.
- An `InstallException` or `ImportException` raised without arguments would make `e.args[0]` raise inside the except clause. The modelled domain failure always carries a message.
- The `"Unknown action"` branch (`src/karppipeline/cli.py:98-99`) needs a command that is neither run nor install after the clean return, so it is unreachable. The method keeps the branch; the specification functions have no such case.
