// The leveled logger (internal/logger/logger.go): four ordered levels, a
// case-insensitive level parser, and a package-wide logger that is nil until
// initialised. The package globals become the fields of class Logging: the
// optional logger and the lines written so far to any writer.

module Logger {
  import opened Types

  /** Go declares LogLevel as an int, so values outside the four constants exist. */
  type LogLevel = int

  const ERROR: LogLevel := 0
  const INFO: LogLevel := 1
  const DEBUG: LogLevel := 2
  const VERBOSE: LogLevel := 3

  const ErrorPrefix := "ERROR: "
  const InfoPrefix := "INFO:  "
  const DebugPrefix := "DEBUG: "
  const VerbosePrefix := "VERBOSE: "

  /** The level names the parser recognises. */
  const KnownNames: set<string> := {"ERROR", "INFO", "DEBUG", "VERBOSE"}

  /** ASCII upper-casing of one character. */
  function UpperChar(c: char): char {
    if 'a' <= c <= 'z' then (c as int - 32) as char else c
  }

  /** Upper-cases every character of s (ASCII letters only). */
  function ToUpper(s: string): (r: string)
    ensures |r| == |s|
    ensures forall i :: 0 <= i < |s| ==> r[i] == UpperChar(s[i])
  {
    if s == [] then [] else [UpperChar(s[0])] + ToUpper(s[1..])
  }

  /** The name GetLevel reports for a level; anything but the four constants reads as INFO. */
  function LevelName(l: LogLevel): (name: string)
    ensures name in KnownNames
    ensures l < ERROR || l > VERBOSE ==> name == "INFO"
  {
    if l == ERROR then "ERROR"
    else if l == INFO then "INFO"
    else if l == DEBUG then "DEBUG"
    else if l == VERBOSE then "VERBOSE"
    else "INFO"
  }

  /** The level named by s, ignoring case; unknown names, including "", give INFO. */
  function ParseLogLevel(s: string): (l: LogLevel)
    ensures ERROR <= l <= VERBOSE
    ensures ToUpper(s) in KnownNames ==> LevelName(l) == ToUpper(s)
    ensures ToUpper(s) !in KnownNames ==> l == INFO
  {
    var u := ToUpper(s);
    if u == "ERROR" then ERROR
    else if u == "INFO" then INFO
    else if u == "DEBUG" then DEBUG
    else if u == "VERBOSE" then VERBOSE
    else INFO
  }

  /** Whether a logger at level `current` writes a message of level `severity`
      (Info, Debug and Verbose are gated this way; Error is not gated). */
  predicate Emits(current: LogLevel, severity: LogLevel) {
    current >= severity
  }

  /** A `*log.Logger`: the writer it prints to and the prefix of every line. */
  datatype SubLogger = SubLogger(out: Writer, prefix: string)

  /** An opened log file, seen only through the error closing it would report. */
  datatype LogFile = LogFile(closeError: Option<string>)

  /** The Go struct Logger. */
  datatype Logger = Logger(
    errorLogger: SubLogger,
    infoLogger: SubLogger,
    debugLogger: SubLogger,
    verboseLogger: SubLogger,
    level: LogLevel,
    logFile: Option<LogFile>)

  /** One line written by a sub-logger (its timestamp is not modelled). */
  datatype Line = Line(out: Writer, prefix: string, message: string)

  /** The logger Init builds: errors to standard error, the rest to standard output. */
  function ConsoleLogger(level: LogLevel): Logger {
    Logger(SubLogger(Stderr, ErrorPrefix), SubLogger(Stdout, InfoPrefix),
           SubLogger(Stdout, DebugPrefix), SubLogger(Stdout, VerbosePrefix), level, None)
  }

  /** The same logger with all four sub-loggers writing to w. */
  function Redirected(lg: Logger, w: Writer): Logger {
    lg.(errorLogger := lg.errorLogger.(out := w),
        infoLogger := lg.infoLogger.(out := w),
        debugLogger := lg.debugLogger.(out := w),
        verboseLogger := lg.verboseLogger.(out := w))
  }

  /** The line a sub-logger writes for a message, if the gate lets it through. */
  function Emitted(open: bool, sub: SubLogger, message: string): seq<Line> {
    if open then [Line(sub.out, sub.prefix, message)] else []
  }

  /** A higher level never suppresses a message that a lower level writes. */
  lemma EmitsMonotone(low: LogLevel, high: LogLevel, severity: LogLevel)
    requires low <= high && Emits(low, severity)
    ensures Emits(high, severity)
  {
  }

  /** The levels are strictly ordered. */
  lemma LevelsOrdered()
    ensures ERROR < INFO < DEBUG < VERBOSE
  {
  }

  /** Two strings equal up to ASCII case parse to the same level. */
  lemma {:induction false} ParseIgnoresCase(s: string, t: string)
    requires |s| == |t|
    requires forall i :: 0 <= i < |s| ==> UpperChar(s[i]) == UpperChar(t[i])
    ensures ParseLogLevel(s) == ParseLogLevel(t)
  {
    assert ToUpper(s) == ToUpper(t);
  }

  /** Parsing the name of each of the four levels gives that level back. */
  lemma {:induction false} LevelNameRoundTrip(l: LogLevel)
    requires ERROR <= l <= VERBOSE
    ensures ParseLogLevel(LevelName(l)) == l
  {
    KnownNameParses(LevelName(l));
  }

  /** Each of the four names is already upper case and parses to the level of that name. */
  lemma {:induction false} KnownNameParses(name: string)
    requires name in KnownNames
    ensures ToUpper(name) == name
    ensures LevelName(ParseLogLevel(name)) == name
  {
    if name == "ERROR" {
      UpperOfUpper("ERROR");
    } else if name == "INFO" {
      UpperOfUpper("INFO");
    } else if name == "DEBUG" {
      UpperOfUpper("DEBUG");
    } else {
      UpperOfUpper("VERBOSE");
    }
  }

  /** Upper-casing a string made of capitals changes nothing. */
  lemma UpperOfUpper(s: string)
    requires forall i :: 0 <= i < |s| ==> 'A' <= s[i] <= 'Z'
    ensures ToUpper(s) == s
  {
  }

  /** The package state: the optional default logger and everything written so far. */
  class Logging {
    var defaultLogger: Option<Logger>
    var written: seq<Line>

    /** Program start: no logger yet, nothing written. */
    constructor ()
      ensures defaultLogger == None && written == []
    {
      defaultLogger := None;
      written := [];
    }

    /** Replaces any previous logger with a console logger at exactly `level`. */
    method Init(level: LogLevel)
      modifies this`defaultLogger
      ensures defaultLogger == Some(ConsoleLogger(level))
    {
      defaultLogger := Some(ConsoleLogger(level));
    }

    method InitFromString(levelName: string)
      modifies this`defaultLogger
      ensures defaultLogger == Some(ConsoleLogger(ParseLogLevel(levelName)))
    {
      var level := ParseLogLevel(levelName);
      Init(level);
    }

    /** Points all four sub-loggers at w; does nothing before Init. */
    method SetOutput(w: Writer)
      modifies this`defaultLogger
      ensures old(defaultLogger).None? ==> defaultLogger == None
      ensures old(defaultLogger).Some? ==> defaultLogger == Some(Redirected(old(defaultLogger).value, w))
    {
      if defaultLogger.Some? {
        defaultLogger := Some(Redirected(defaultLogger.value, w));
      }
    }

    /** Error and Errorf: written whenever a logger exists, whatever its level. */
    method Error(message: string)
      modifies this`written
      ensures written == old(written) +
        if defaultLogger.None? then [] else Emitted(true, defaultLogger.value.errorLogger, message)
    {
      if defaultLogger.Some? {
        written := written + [Line(defaultLogger.value.errorLogger.out, defaultLogger.value.errorLogger.prefix, message)];
      }
    }

    /** Info and Infof: written when the level is at least INFO. */
    method Info(message: string)
      modifies this`written
      ensures written == old(written) +
        if defaultLogger.None? then []
        else Emitted(Emits(defaultLogger.value.level, INFO), defaultLogger.value.infoLogger, message)
    {
      if defaultLogger.Some? && defaultLogger.value.level >= INFO {
        written := written + [Line(defaultLogger.value.infoLogger.out, defaultLogger.value.infoLogger.prefix, message)];
      }
    }

    /** Debug and Debugf: written when the level is at least DEBUG. */
    method Debug(message: string)
      modifies this`written
      ensures written == old(written) +
        if defaultLogger.None? then []
        else Emitted(Emits(defaultLogger.value.level, DEBUG), defaultLogger.value.debugLogger, message)
    {
      if defaultLogger.Some? && defaultLogger.value.level >= DEBUG {
        written := written + [Line(defaultLogger.value.debugLogger.out, defaultLogger.value.debugLogger.prefix, message)];
      }
    }

    /** Verbose and Verbosef: written when the level is at least VERBOSE. */
    method Verbose(message: string)
      modifies this`written
      ensures written == old(written) +
        if defaultLogger.None? then []
        else Emitted(Emits(defaultLogger.value.level, VERBOSE), defaultLogger.value.verboseLogger, message)
    {
      if defaultLogger.Some? && defaultLogger.value.level >= VERBOSE {
        written := written + [Line(defaultLogger.value.verboseLogger.out, defaultLogger.value.verboseLogger.prefix, message)];
      }
    }

    /** The name of the current level; "INFO" before Init. */
    function GetLevel(): (name: string)
      reads this
      ensures defaultLogger.None? ==> name == "INFO"
      ensures defaultLogger.Some? ==> name == LevelName(defaultLogger.value.level)
    {
      match defaultLogger
      case None => "INFO"
      case Some(lg) => LevelName(lg.level)
    }

    /** Closes the log file if there is one; otherwise reports no error. */
    method Close() returns (err: Option<string>)
      ensures defaultLogger.None? || defaultLogger.value.logFile.None? ==> err == None
      ensures defaultLogger.Some? && defaultLogger.value.logFile.Some? ==>
                err == defaultLogger.value.logFile.value.closeError
    {
      if defaultLogger.Some? && defaultLogger.value.logFile.Some? {
        err := defaultLogger.value.logFile.value.closeError;
      } else {
        err := None;
      }
    }
  }

  /** Initialising from any of the four names and asking for the level gives that name back. */
  method GetLevelAfterInit(levelName: string) returns (name: string)
    requires levelName in KnownNames
    ensures name == levelName
  {
    var logging := new Logging();
    logging.InitFromString(levelName);
    name := logging.GetLevel();
    KnownNameParses(levelName);
  }

  /** What one call of each emitter writes to a buffer after Init(level) and SetOutput. */
  method EmitAllLevels(level: LogLevel, buffer: Writer) returns (lines: seq<Line>)
    ensures lines ==
      [Line(buffer, ErrorPrefix, "error message")] +
      (if level >= INFO then [Line(buffer, InfoPrefix, "info message")] else []) +
      (if level >= DEBUG then [Line(buffer, DebugPrefix, "debug message")] else []) +
      (if level >= VERBOSE then [Line(buffer, VerbosePrefix, "verbose message")] else [])
  {
    var logging := new Logging();
    logging.Init(level);
    logging.SetOutput(buffer);
    logging.Error("error message");
    logging.Info("info message");
    logging.Debug("debug message");
    logging.Verbose("verbose message");
    lines := logging.written;
  }

  /** Without Init every emitter and SetOutput does nothing, the level reads
      "INFO" and Close reports no error. */
  method UninitialisedIsSafe(buffer: Writer) returns (lines: seq<Line>, name: string, err: Option<string>)
    ensures lines == [] && name == "INFO" && err == None
  {
    var logging := new Logging();
    logging.SetOutput(buffer);
    logging.Error("test");
    logging.Info("test");
    logging.Debug("test");
    logging.Verbose("test");
    lines := logging.written;
    name := logging.GetLevel();
    err := logging.Close();
  }
}
