/**
 * The per-resource log router: the process-wide "karppipeline" logger,
 * whose handler, level and formatter are replaced before each resource is
 * processed, and the JSON record formatter.
 */
module ResourceLogging {
  import opened Wrappers
  import opened Timestamp

  type Path = string

  /** The standard logging levels, with their numeric values and names. */
  datatype Level = NotSet | Debug | Info | Warning | Error | Critical
  {
    function Value(): nat {
      match this
      case NotSet => 0
      case Debug => 10
      case Info => 20
      case Warning => 30
      case Error => 40
      case Critical => 50
    }

    function Name(): string {
      match this
      case NotSet => "NOTSET"
      case Debug => "DEBUG"
      case Info => "INFO"
      case Warning => "WARNING"
      case Error => "ERROR"
      case Critical => "CRITICAL"
    }
  }

  const LoggerName: string := "karppipeline"

  /** `DefaultFormatter` stands for a handler on which no formatter was set. */
  datatype Formatter = DefaultFormatter | JsonFormatter

  /** A file handler appends to a file; a stream handler writes to standard output. */
  datatype Handler =
    | FileHandler(file: Path, formatter: Formatter)
    | StreamHandler(formatter: Formatter)

  /**
   * The resource's log directory. The directory helper is outside this
   * model; the model puts it at `<workdir>/log`, so run.log is
   * `<workdir>/log/run.log`.
   */
  function LogDir(workdir: Path): Path {
    workdir + "/log"
  }

  function RunLogPath(workdir: Path): Path {
    LogDir(workdir) + "/run.log"
  }

  const Separator: string := "-------------------------------"

  /** The two lines written to run.log at the start of each setup in compact mode. */
  function RunHeader(now: DateTime): seq<string> {
    [Separator, "pipeline run, " + Format(now)]
  }

  /** What a file holds, as a sequence of lines; an absent file holds nothing. */
  function Content(files: map<Path, seq<string>>, p: Path): seq<string> {
    if p in files then files[p] else []
  }

  /** Opening `p` in append mode and writing `lines`: earlier content is kept. */
  function AppendLines(files: map<Path, seq<string>>, p: Path, lines: seq<string>): (r: map<Path, seq<string>>)
    ensures r.Keys == files.Keys + {p}
    ensures Content(r, p) == Content(files, p) + lines
    ensures forall q :: q != p ==> Content(r, q) == Content(files, q)
  {
    files[p := Content(files, p) + lines]
  }

  /** The one handler a setup installs. */
  function SinkFor(workdir: Path, compactOutput: bool, jsonOutput: bool): Handler {
    var formatter := if jsonOutput then JsonFormatter else DefaultFormatter;
    if compactOutput then FileHandler(RunLogPath(workdir), formatter) else StreamHandler(formatter)
  }

  /** The exception information a record carries, already rendered as text. */
  datatype ExcInfo = ExcInfo(trace: string)

  /**
   * The fields of a log record that the JSON formatter reads. `created` is
   * the local date and time the formatter derives from the record's creation
   * instant, already converted and rounded to the microsecond.
   */
  datatype LogRecord = LogRecord(name: string, level: Level, message: string,
                                 created: DateTime, excInfo: Option<ExcInfo>)

  const RequiredKeys: set<string> := {"timestamp", "level", "logger", "message"}

  /**
   * The payload `JsonFormatter.format` serialises for one record. Without
   * exception information the "exc_info" key is left out, never set to null.
   */
  function JsonPayload(r: LogRecord): (p: map<string, string>)
    ensures p.Keys == if r.excInfo.Some? then RequiredKeys + {"exc_info"} else RequiredKeys
    ensures p["level"] == r.level.Name() && p["logger"] == r.name && p["message"] == r.message
    ensures r.excInfo.Some? ==> p["exc_info"] == r.excInfo.value.trace
  {
    var payload := map["timestamp" := Format(r.created),
                       "level" := r.level.Name(),
                       "logger" := r.name,
                       "message" := r.message];
    if r.excInfo.Some? then payload["exc_info" := r.excInfo.value.trace] else payload
  }

  /** The "timestamp" field of a payload reads back as the record's local creation datetime. */
  lemma JsonTimestampReadsBack(r: LogRecord)
    requires r.created.Valid()
    ensures "timestamp" in JsonPayload(r)
    ensures Parse(JsonPayload(r)["timestamp"]) == Some(r.created)
  {
    FormatThenParse(r.created);
  }

  /** The process-wide logger named "karppipeline", with the header lines its setups have written to each file. */
  class Logger {
    const name: string
    var handlers: seq<Handler>
    var level: Level
    var files: map<Path, seq<string>>

    /** A fresh named logger: no handlers, level NOTSET; `existing` is what is on disk. */
    constructor (existing: map<Path, seq<string>>)
      ensures name == LoggerName && handlers == [] && level == NotSet && files == existing
    {
      name := LoggerName;
      handlers := [];
      level := NotSet;
      files := existing;
    }

    /** A logger at NOTSET defers to the root logger, whose default is WARNING. */
    function EffectiveLevel(): Level
      reads this
    {
      if level == NotSet then Warning else level
    }

    predicate IsEnabledFor(l: Level)
      reads this
    {
      l.Value() >= EffectiveLevel().Value()
    }

    /**
     * `setup_resource_logging`: drop every handler, set the level to INFO,
     * and install one handler, a file handler on `<path>/log/run.log` after
     * appending the two header lines when `compactOutput` holds, a stdout
     * stream handler otherwise; the JSON formatter only when `jsonOutput`.
     */
    method SetupResourceLogging(path: Path, compactOutput: bool, jsonOutput: bool, now: DateTime)
      modifies this
      ensures handlers == [SinkFor(path, compactOutput, jsonOutput)]
      ensures |handlers| == 1
      ensures handlers[0].FileHandler? <==> compactOutput
      ensures compactOutput ==> handlers[0].file == RunLogPath(path)
      ensures handlers[0].formatter == DefaultFormatter <==> !jsonOutput
      ensures level == Info
      ensures files == if compactOutput then AppendLines(old(files), RunLogPath(path), RunHeader(now)) else old(files)
    {
      handlers := [];
      level := Info;
      var handler: Handler;
      if compactOutput {
        var logFile := RunLogPath(path);
        files := files[logFile := Content(files, logFile) + [Separator]];
        files := files[logFile := files[logFile] + ["pipeline run, " + Format(now)]];
        assert files[logFile] == Content(old(files), logFile) + RunHeader(now);
        handler := FileHandler(logFile, DefaultFormatter);
      } else {
        handler := StreamHandler(DefaultFormatter);
      }
      if jsonOutput {
        handler := handler.(formatter := JsonFormatter);
      }
      handlers := handlers + [handler];
    }
  }

  /**
   * Two setups in a row: only the second sink remains, the first is gone
   * whenever it differs, and two compact setups on one resource leave both
   * header blocks in its run.log.
   */
  method SetupTwice(logger: Logger, p1: Path, c1: bool, j1: bool, t1: DateTime,
                    p2: Path, c2: bool, j2: bool, t2: DateTime)
    modifies logger
    ensures logger.handlers == [SinkFor(p2, c2, j2)]
    ensures SinkFor(p1, c1, j1) != SinkFor(p2, c2, j2) ==> SinkFor(p1, c1, j1) !in logger.handlers
    ensures logger.level == Info
    ensures c1 && c2 && p1 == p2 ==>
      Content(logger.files, RunLogPath(p1)) == Content(old(logger.files), RunLogPath(p1)) + RunHeader(t1) + RunHeader(t2)
    ensures var afterFirst := if c1 then AppendLines(old(logger.files), RunLogPath(p1), RunHeader(t1)) else old(logger.files);
      logger.files == if c2 then AppendLines(afterFirst, RunLogPath(p2), RunHeader(t2)) else afterFirst
  {
    logger.SetupResourceLogging(p1, c1, j1, t1);
    logger.SetupResourceLogging(p2, c2, j2, t2);
  }
}
