/** The logger front-end (src/utils/logger/index.ts): it validates the logger settings
    of the configuration snapshot against allow-lists, falling back to its own
    defaults, configures the underlying winston logger (level, record layout, a
    console transport and a daily-rotating file transport), and offers four leveled
    logging methods that refuse an empty message.

    The winston logger is modelled by the options it is created with and the trace of
    records forwarded to it; writing, rotation and compression are its business. */
module Logging {
  import opened Wrappers
  import opened ConfigTypes
  import opened ConfigManagement

  // ---------------------------------------------------------------------------
  // Levels, formats and the resolved logger configuration
  // ---------------------------------------------------------------------------

  datatype Level = Error | Warn | Info | Debug

  function LevelName(level: Level): string
  {
    match level
    case Error => "error"
    case Warn => "warn"
    case Info => "info"
    case Debug => "debug"
  }

  /** The level allow-list, in the order the source lists it. */
  const LevelNames: seq<string> := ["error", "warn", "info", "debug"]

  datatype Format = Json | Text

  function FormatName(format: Format): string
  {
    match format
    case Json => "json"
    case Text => "text"
  }

  /** The format allow-list. */
  const FormatNames: seq<string> := ["json", "text"]

  /** The validated configuration the winston logger is built from. */
  datatype LoggerConfig = LoggerConfig(level: Level, format: Format, outputPath: string)

  /** The logger's own defaults; they differ from the configuration loader's, whose
      format default is json and whose path default is logs/app.log. */
  const DefaultLoggerConfig := LoggerConfig(Info, Text, "logs/app-%DATE%.log")

  /** The level named by `level` if it is on the allow-list, otherwise nothing. */
  function ValidateLogLevel(level: string): (r: Option<Level>)
    ensures r.Some? <==> level in LevelNames
    ensures r.Some? ==> LevelName(r.value) == level
  {
    if level == "error" then Some(Error)
    else if level == "warn" then Some(Warn)
    else if level == "info" then Some(Info)
    else if level == "debug" then Some(Debug)
    else None
  }

  /** The format named by `format` if it is on the allow-list, otherwise nothing. */
  function ValidateLogFormat(format: string): (r: Option<Format>)
    ensures r.Some? <==> format in FormatNames
    ensures r.Some? ==> FormatName(r.value) == format
  {
    if format == "json" then Some(Json)
    else if format == "text" then Some(Text)
    else None
  }

  /** The path if it is a non-empty string, otherwise nothing. */
  function ValidateOutputPath(path: string): (r: Option<string>)
    ensures r.Some? <==> |path| > 0
    ensures r.Some? ==> r.value == path
  {
    if |path| > 0 then Some(path) else None
  }

  /** Validation and the names of levels and formats are inverse to each other: every
      level and format is accepted under its own name and under no other. */
  lemma ValidateNames(level: Level, format: Format)
    ensures ValidateLogLevel(LevelName(level)) == Some(level)
    ensures ValidateLogFormat(FormatName(format)) == Some(format)
    ensures forall other: Level :: LevelName(other) == LevelName(level) ==> other == level
  {
  }

  /** Each setting is validated on its own and replaced by the logger's default when
      it is rejected; nothing here ever fails. */
  function ResolveLoggerConfig(settings: LoggerSettings): (c: LoggerConfig)
    ensures LevelName(c.level) == if settings.level in LevelNames then settings.level else "info"
    ensures FormatName(c.format) == if settings.format in FormatNames then settings.format else "text"
    ensures c.outputPath == if settings.outputPath != "" then settings.outputPath else "logs/app-%DATE%.log"
    ensures LevelName(c.level) in LevelNames && FormatName(c.format) in FormatNames && c.outputPath != ""
  {
    LoggerConfig(
      ValidateLogLevel(settings.level).GetOr(DefaultLoggerConfig.level),
      ValidateLogFormat(settings.format).GetOr(DefaultLoggerConfig.format),
      ValidateOutputPath(settings.outputPath).GetOr(DefaultLoggerConfig.outputPath))
  }

  /** Settings that are all valid pass through unchanged. */
  lemma ResolveKeepsValidSettings(level: Level, format: Format, path: string)
    requires path != ""
    ensures ResolveLoggerConfig(LoggerSettings(LevelName(level), FormatName(format), path))
      == LoggerConfig(level, format, path)
  {
    ValidateNames(level, format);
  }

  // ---------------------------------------------------------------------------
  // Options of the winston logger
  // ---------------------------------------------------------------------------

  /** How the logger itself lays out a record: winston's JSON format, or a timestamp
      followed by the text line of `TextLine`. */
  datatype RecordLayout = JsonLayout | TimestampedText

  /** The console transport always colorizes and uses winston's simple format,
      whatever the configured format is. */
  datatype ConsoleTransportOptions = ColorizedSimple

  datatype FileTransportOptions = FileTransportOptions(
    filename: string,
    datePattern: string,
    zippedArchive: bool,
    maxSize: string,
    maxFiles: string)

  datatype SinkOptions = SinkOptions(
    level: Level,
    layout: RecordLayout,
    console: ConsoleTransportOptions,
    file: FileTransportOptions)

  /** The options handed to `winston.createLogger`: the resolved level, the layout the
      resolved format selects, and the two transports; the file transport writes to
      the resolved path, rotates daily, compresses old files and keeps at most 20 MB
      per file and 14 days of files. */
  function SinkOptionsFor(c: LoggerConfig): (o: SinkOptions)
    ensures o.level == c.level
    ensures o.layout == JsonLayout <==> c.format == Json
    ensures o.file.filename == c.outputPath
    ensures o.file == FileTransportOptions(o.file.filename, "YYYY-MM-DD", true, "20m", "14d")
    ensures o.console == ColorizedSimple
  {
    SinkOptions(
      c.level,
      if c.format == Json then JsonLayout else TimestampedText,
      ColorizedSimple,
      FileTransportOptions(c.outputPath, "YYYY-MM-DD", true, "20m", "14d"))
  }

  /** From raw settings to winston options: the sink level is the configured level if
      it is allowed and info otherwise; JSON layout exactly for the format "json"; the
      file is the configured path or, when that is empty, the dated default; the
      rotation parameters are fixed. */
  lemma SinkOptionsFromSettings(settings: LoggerSettings)
    ensures var o := SinkOptionsFor(ResolveLoggerConfig(settings));
      && LevelName(o.level) == (if settings.level in LevelNames then settings.level else "info")
      && (o.layout == JsonLayout <==> settings.format == "json")
      && o.file.filename == (if settings.outputPath != "" then settings.outputPath else "logs/app-%DATE%.log")
      && o.file.datePattern == "YYYY-MM-DD" && o.file.zippedArchive
      && o.file.maxSize == "20m" && o.file.maxFiles == "14d"
      && o.console == ColorizedSimple
  {
    var c := ResolveLoggerConfig(settings);
    if settings.format == "json" {
      assert settings.format in FormatNames;
    }
    if c.format == Json {
      assert FormatName(c.format) == "json";
    }
  }

  /** For settings that come from the configuration loader the logger's path fallback
      is never reached, because the loader already replaced an empty path: the file is
      the loaded path, `logs/app.log` when `LOG_OUTPUT_PATH` is unset or empty. Unset
      `LOG_FORMAT` gives the loader's json, so JSON layout; an unset or unknown
      `LOG_LEVEL` gives info. */
  lemma SinkOptionsFromEnv(env: Env)
    ensures var o := SinkOptionsFor(ResolveLoggerConfig(LoadConfig(env).logger));
      && o.file.filename == LoadConfig(env).logger.outputPath
      && (!Present(env, "LOG_OUTPUT_PATH") ==> o.file.filename == "logs/app.log")
      && (!Present(env, "LOG_FORMAT") ==> o.layout == JsonLayout)
      && (!Present(env, "LOG_LEVEL") || env["LOG_LEVEL"] !in LevelNames ==> o.level == Info)
      && (Present(env, "LOG_LEVEL") && env["LOG_LEVEL"] in LevelNames ==> LevelName(o.level) == env["LOG_LEVEL"])
  {
    var settings := LoadConfig(env).logger;
    LoggerSettingsFromEnv(env);
    SinkOptionsFromSettings(settings);
    if !Present(env, "LOG_LEVEL") {
      assert ValidateLogLevel(settings.level) == Some(Info);
    } else if env["LOG_LEVEL"] !in LevelNames {
      assert ValidateLogLevel(settings.level) == None;
    }
    if !Present(env, "LOG_FORMAT") {
      assert ValidateLogFormat(settings.format) == Some(Json);
    }
  }

  // ---------------------------------------------------------------------------
  // The text layout
  // ---------------------------------------------------------------------------

  /** A stand-in for the arbitrary values metadata can hold. */
  datatype Value =
    | NullValue
    | BoolValue(b: bool)
    | NumberValue(n: int)
    | StringValue(s: string)
    | ListValue(items: seq<Value>)
    | ObjectValue(fields: map<string, Value>)

  /** Metadata: string keys to arbitrary values. */
  type Meta = map<string, Value>

  function UpperChar(c: char): char
  {
    if 'a' <= c <= 'z' then (c as int - 32) as char else c
  }

  /** ASCII upper-casing, which is what `toUpperCase` does to a level name. */
  function UpperAscii(s: string): (u: string)
    ensures |u| == |s|
    ensures forall i :: 0 <= i < |s| ==> u[i] == UpperChar(s[i])
  {
    if |s| == 0 then "" else [UpperChar(s[0])] + UpperAscii(s[1..])
  }

  /** The bracketed level of a text line: the upper-cased level name. */
  function LevelTag(level: Level): (tag: string)
    ensures tag == match level
      case Error => "ERROR"
      case Warn => "WARN"
      case Info => "INFO"
      case Debug => "DEBUG"
  {
    var tag := UpperAscii(LevelName(level));
    assert UpperAscii("error") == "ERROR" && UpperAscii("warn") == "WARN";
    assert UpperAscii("info") == "INFO" && UpperAscii("debug") == "DEBUG";
    tag
  }

  /** The `printf` callback of the text layout. `rest` is what remains of the record
      besides timestamp, level and message; its rendering (`JSON.stringify`) is a
      parameter. From left to right the line reads the timestamp, ` [`, the level tag,
      `]:`, a space, the message and a space; then the rendering of `rest` when `rest`
      has a key, and nothing when it has none. */
  function TextLine(timestamp: string, level: Level, message: string, rest: Meta,
                    render: Meta -> string): (line: string)
    ensures var t, g, m := |timestamp|, |LevelTag(level)|, |message|;
      && |line| == t + g + m + 6 + (if |rest| > 0 then |render(rest)| else 0)
      && line[..t] == timestamp
      && line[t..t + 2] == " ["
      && line[t + 2..t + 2 + g] == LevelTag(level)
      && line[t + 2 + g..t + g + 4] == "]:"
      && line[t + g + 4] == ' '
      && line[t + g + 5..t + g + 5 + m] == message
      && line[t + g + 5 + m] == ' '
      && line[t + g + 6 + m..] == (if |rest| > 0 then render(rest) else "")
  {
    var tail := if |rest| > 0 then render(rest) else "";
    LinePieces(timestamp, LevelTag(level), message, tail);
    timestamp + " [" + LevelTag(level) + "]: " + message + " " + tail
  }

  /** Where each piece of `<timestamp> [<tag>]: <message> <tail>` sits. */
  lemma LinePieces(timestamp: string, tag: string, message: string, tail: string)
    ensures var line := timestamp + " [" + tag + "]: " + message + " " + tail;
      var t, g, m := |timestamp|, |tag|, |message|;
      && |line| == t + g + m + 6 + |tail|
      && line[..t] == timestamp
      && line[t..t + 2] == " ["
      && line[t + 2..t + 2 + g] == tag
      && line[t + 2 + g..t + g + 4] == "]:"
      && line[t + g + 4] == ' '
      && line[t + g + 5..t + g + 5 + m] == message
      && line[t + g + 5 + m] == ' '
      && line[t + g + 6 + m..] == tail
  {
    var front := timestamp + " [" + tag + "]: ";
    var header := front + message + " ";
    var line := header + tail;
    var t, g, m := |timestamp|, |tag|, |message|;
    assert line == timestamp + " [" + tag + "]: " + message + " " + tail;
    assert line[..|header|] == header && line[|header|..] == tail;
    assert header[..|front|] == front && header[|front|..|front| + m] == message;
    assert front[..t] == timestamp && front[t..t + 2] == " [" && front[t + 2..t + 2 + g] == tag;
    assert front[t + 2 + g..t + g + 4] == "]:";
  }

  // ---------------------------------------------------------------------------
  // The winston logger and the front-end
  // ---------------------------------------------------------------------------

  /** A record as the front-end forwards it: level, message and the metadata argument
      exactly as the caller passed it (`None` for an omitted argument). */
  datatype LogRecord = LogRecord(level: Level, message: string, meta: Option<Meta>)

  /** The underlying winston logger: the options it was created with, and every record
      forwarded to it so far. */
  class WinstonLogger {
    const options: SinkOptions
    var records: seq<LogRecord>

    /** `winston.createLogger(options)`. */
    constructor (options: SinkOptions)
      ensures this.options == options && records == []
    {
      this.options := options;
      records := [];
    }

    /** `logger.<level>(message, meta)`: appends one record. */
    method Log(level: Level, message: string, meta: Option<Meta>)
      modifies this
      ensures records == old(records) + [LogRecord(level, message, meta)]
    {
      records := records + [LogRecord(level, message, meta)];
    }
  }

  const EmptyMessage := "Log message cannot be empty"

  class Logger {
    const logger: WinstonLogger

    /** Resolves the logger settings and creates the winston logger from them. */
    constructor (settings: LoggerSettings)
      ensures fresh(logger)
      ensures logger.options == SinkOptionsFor(ResolveLoggerConfig(settings))
      ensures logger.records == []
    {
      logger := new WinstonLogger(SinkOptionsFor(ResolveLoggerConfig(settings)));
    }

    /** Logs at info level; an empty message is refused and nothing is forwarded. */
    method Info(message: string, meta: Option<Meta>) returns (r: Outcome<string>)
      modifies logger
      ensures message == "" ==> r == Fail(EmptyMessage) && logger.records == old(logger.records)
      ensures message != "" ==>
        r == Pass && logger.records == old(logger.records) + [LogRecord(Level.Info, message, meta)]
    {
      if message == "" {
        return Fail(EmptyMessage);
      }
      logger.Log(Level.Info, message, meta);
      return Pass;
    }

    /** Logs at error level; an empty message is refused and nothing is forwarded. */
    method Error(message: string, meta: Option<Meta>) returns (r: Outcome<string>)
      modifies logger
      ensures message == "" ==> r == Fail(EmptyMessage) && logger.records == old(logger.records)
      ensures message != "" ==>
        r == Pass && logger.records == old(logger.records) + [LogRecord(Level.Error, message, meta)]
    {
      if message == "" {
        return Fail(EmptyMessage);
      }
      logger.Log(Level.Error, message, meta);
      return Pass;
    }

    /** Logs at warn level; an empty message is refused and nothing is forwarded. */
    method Warn(message: string, meta: Option<Meta>) returns (r: Outcome<string>)
      modifies logger
      ensures message == "" ==> r == Fail(EmptyMessage) && logger.records == old(logger.records)
      ensures message != "" ==>
        r == Pass && logger.records == old(logger.records) + [LogRecord(Level.Warn, message, meta)]
    {
      if message == "" {
        return Fail(EmptyMessage);
      }
      logger.Log(Level.Warn, message, meta);
      return Pass;
    }

    /** Logs at debug level; an empty message is refused and nothing is forwarded. */
    method Debug(message: string, meta: Option<Meta>) returns (r: Outcome<string>)
      modifies logger
      ensures message == "" ==> r == Fail(EmptyMessage) && logger.records == old(logger.records)
      ensures message != "" ==>
        r == Pass && logger.records == old(logger.records) + [LogRecord(Level.Debug, message, meta)]
    {
      if message == "" {
        return Fail(EmptyMessage);
      }
      logger.Log(Level.Debug, message, meta);
      return Pass;
    }
  }

  /** The class's static `instance` field: empty, or holding the cached logger. */
  class LoggerSingleton {
    var instance: Logger?

    /** The field starts out empty. */
    constructor ()
      ensures instance == null
    {
      instance := null;
    }

    /** The cached logger, created if there is none from the logger settings of
        `captured`, the configuration snapshot the module took when it was loaded. */
    method GetInstance(captured: Config) returns (l: Logger)
      modifies this
      ensures instance == l
      ensures old(instance) != null ==> l == old(instance)
      ensures old(instance) == null ==>
        && fresh(l) && fresh(l.logger)
        && l.logger.options == SinkOptionsFor(ResolveLoggerConfig(captured.logger))
        && l.logger.records == []
    {
      if instance == null {
        instance := new Logger(captured.logger);
      }
      l := instance;
    }

    /** Drops the cached logger. */
    method ResetInstance()
      modifies this
      ensures instance == null
    {
      instance := null;
    }
  }

  /** The singleton lifecycle the tests rely on: two calls without a reset give the
      same logger; after a reset the next call creates a new logger, with a new
      winston logger and an empty trace. */
  method LoggerLifecycle(s: LoggerSingleton, captured: Config)
    returns (first: Logger, second: Logger, rebuilt: Logger)
    modifies s
    ensures first == second
    ensures rebuilt != first && rebuilt.logger.records == []
    ensures rebuilt.logger.options == SinkOptionsFor(ResolveLoggerConfig(captured.logger))
    ensures s.instance == rebuilt
  {
    s.ResetInstance();
    first := s.GetInstance(captured);
    second := s.GetInstance(captured);
    s.ResetInstance();
    rebuilt := s.GetInstance(captured);
  }
}
