/**
 * A surrogate for the parts of the logrus library that the adapter reads, sets and calls.
 * Logrus's own behaviour behind these entry points (formatting, writing to the output, running
 * hooks, exiting on Fatal, panicking on Panic) is not modelled: a logger or entry only records
 * the logging calls it receives.
 */
module Logrus {
  import opened Go

  /**
   * `logrus.Level`: seven named levels. The type is an unsigned integer, so other values exist
   * too; `Unlisted` stands for any of them.
   */
  datatype Level = Panic | Fatal | Error | Warn | Info | Debug | Trace | Unlisted

  /** The configuration of a `*logrus.TextFormatter`, of a `*logrus.JSONFormatter`, or of any other formatter. */
  type TextFormatter
  type JSONFormatter
  type CustomFormatter

  /** A value of the `logrus.Formatter` interface. */
  datatype Formatter = Text(text: TextFormatter) | Json(json: JSONFormatter) | Custom(custom: CustomFormatter)

  type Hook

  /** `logrus.LevelHooks`: the hooks registered for each level. */
  type LevelHooks = map<Level, seq<Hook>>

  /**
   * `IsLevelEnabled` as a relation between a logger's configured level and a requested level.
   * Its ordering is logrus's business, so it is a parameter of everything that consults it.
   */
  type Gate = (Level, Level) -> bool

  /** The six settings of a logger that the adapter reads and writes. */
  datatype Settings = Settings(
    level: Level,
    out: Writer,
    formatter: Formatter,
    hooks: LevelHooks,
    reportCaller: bool,
    exitFunc: ExitFunc)

  /** The process objects that `logrus.New` and the adapter's defaults take: `os.Stderr`, `os.Exit`, `new(logrus.TextFormatter)`. */
  datatype Environment = Environment(stderr: Writer, osExit: ExitFunc, textFormatter: TextFormatter)

  /** The arguments of a `Log` call, or the format and arguments of a `Logf` call. */
  datatype Message = Args(args: seq<Any>) | Formatted(format: string, args: seq<Any>)

  /** One logging call received by a logger or an entry. */
  datatype Call = Call(level: Level, message: Message)

  /** `*logrus.Logger`. */
  class Logger {
    var level: Level
    var out: Writer
    var formatter: Formatter
    var hooks: LevelHooks
    var reportCaller: bool
    var exitFunc: ExitFunc
    /** The logging calls this logger has received, oldest first. */
    var calls: seq<Call>

    /** A logger with logrus's defaults: level Info, standard error, a text formatter, no hooks, no caller report, `os.Exit`. */
    constructor (env: Environment)
      ensures Current() == Settings(Info, env.stderr, Text(env.textFormatter), map[], false, env.osExit)
      ensures calls == []
    {
      level := Info;
      out := env.stderr;
      formatter := Text(env.textFormatter);
      hooks := map[];
      reportCaller := false;
      exitFunc := env.osExit;
      calls := [];
    }

    /** The six settings as they stand. */
    function Current(): Settings
      reads this
    {
      Settings(level, out, formatter, hooks, reportCaller, exitFunc)
    }

    /** `IsLevelEnabled`: decided by the gate from this logger's configured level. */
    predicate IsLevelEnabled(gate: Gate, requested: Level)
      reads this`level
    {
      gate(level, requested)
    }

    method SetLevel(l: Level)
      modifies this`level
      ensures level == l
    {
      level := l;
    }

    method SetOutput(w: Writer)
      modifies this`out
      ensures out == w
    {
      out := w;
    }

    method SetFormatter(f: Formatter)
      modifies this`formatter
      ensures formatter == f
    {
      formatter := f;
    }

    /** Installs `h` and hands back the hooks it replaces. */
    method ReplaceHooks(h: LevelHooks) returns (previous: LevelHooks)
      modifies this`hooks
      ensures hooks == h && previous == old(hooks)
    {
      previous := hooks;
      hooks := h;
    }

    method SetReportCaller(b: bool)
      modifies this`reportCaller
      ensures reportCaller == b
    {
      reportCaller := b;
    }

    /** A new entry of this logger carrying `fields`. */
    method WithFields(fields: map<string, Any>) returns (e: Entry)
      ensures fresh(e) && e.logger == this && e.data == fields && e.calls == []
    {
      e := new Entry(this, fields);
    }

    method Log(l: Level, args: seq<Any>)
      modifies this`calls
      ensures calls == old(calls) + [Call(l, Args(args))]
    {
      calls := calls + [Call(l, Args(args))];
    }

    method Logf(l: Level, format: string, args: seq<Any>)
      modifies this`calls
      ensures calls == old(calls) + [Call(l, Formatted(format, args))]
    {
      calls := calls + [Call(l, Formatted(format, args))];
    }
  }

  /** `logrus.New()`. */
  method New(env: Environment) returns (logger: Logger)
    ensures fresh(logger)
    ensures logger.Current() == Settings(Info, env.stderr, Text(env.textFormatter), map[], false, env.osExit)
    ensures logger.calls == []
  {
    logger := new Logger(env);
  }

  /** `*logrus.Entry`: a logger together with fields attached to everything logged through it. */
  class Entry {
    const logger: Logger
    const data: map<string, Any>
    /** The logging calls this entry has received, oldest first. */
    var calls: seq<Call>

    /** `logrus.NewEntry(logger)` when `data` is empty. */
    constructor (logger: Logger, data: map<string, Any>)
      ensures this.logger == logger && this.data == data && calls == []
    {
      this.logger := logger;
      this.data := data;
      calls := [];
    }

    /** A new entry of the same logger whose fields are this entry's, overridden by `fields`. */
    method WithFields(fields: map<string, Any>) returns (e: Entry)
      ensures fresh(e) && e.logger == logger && e.data == data + fields && e.calls == []
    {
      e := new Entry(logger, data + fields);
    }

    method Log(l: Level, args: seq<Any>)
      modifies this`calls
      ensures calls == old(calls) + [Call(l, Args(args))]
    {
      calls := calls + [Call(l, Args(args))];
    }

    method Logf(l: Level, format: string, args: seq<Any>)
      modifies this`calls
      ensures calls == old(calls) + [Call(l, Formatted(format, args))]
    {
      calls := calls + [Call(l, Formatted(format, args))];
    }
  }
}
