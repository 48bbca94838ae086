/** logger.go: a logger with one output, a level threshold and an optional context tag. */
module Logging {
  import opened Wrappers
  import opened Levels
  import opened Env
  import opened Errors
  import Strings
  import Paths

  /** The label table `NewLogger` fills in: each level's upper-case name in its colour. */
  function LoggerLabels(ansi: Ansi): (labels: map<int, string>)
    reads ansi
    ensures labels.Keys == AllLevels
  {
    map[
      LevelError := ansi.Color("ERROR", "red"),
      LevelWarning := ansi.Color("WARNING", "yellow"),
      LevelNotice := ansi.Color("NOTICE", "magenta"),
      LevelInfo := ansi.Color("INFO", "blue"),
      LevelDebug := ansi.Color("DEBUG", "cyan")
    ]
  }

  /** The text `print` hands to the underlying writer. It starts with the label and ": ", ends with the
      message, and carries the context and a second ": " exactly when there is a context. */
  function PrintLine(levelLabel: string, context: string, msg: string): (line: string)
    ensures |line| == |levelLabel| + 2 + (if context == "" then 0 else |context| + 2) + |msg|
    ensures line[..|levelLabel| + 2] == levelLabel + ": "
    ensures line[|line| - |msg|..] == msg
    ensures context != "" ==> line[|levelLabel| + 2..|levelLabel| + 2 + |context| + 2] == context + ": "
  {
    if context != "" then levelLabel + ": " + context + ": " + msg else levelLabel + ": " + msg
  }

  // The label literals are the upper-cased level names, one lemma each to keep every proof small.
  lemma UpperError() ensures Strings.ToUpper("error") == "ERROR" {}
  lemma UpperWarning() ensures Strings.ToUpper("warning") == "WARNING" {}
  lemma UpperNotice() ensures Strings.ToUpper("notice") == "NOTICE" {}
  lemma UpperInfo() ensures Strings.ToUpper("info") == "INFO" {}
  lemma UpperDebug() ensures Strings.ToUpper("debug") == "DEBUG" {}

  /** The label of a level is that level's upper-cased name in its colour. */
  lemma LoggerLabelAt(ansi: Ansi, level: int)
    requires IsLevel(level)
    ensures LoggerLabels(ansi)[level] == ansi.Color(Strings.ToUpper(LevelName(level)), LevelColors[level])
  {
    var labels := LoggerLabels(ansi);
    if level == LevelError {
      assert LevelName(level) == "error" && labels[level] == ansi.Color("ERROR", "red");
      UpperError();
    } else if level == LevelWarning {
      assert LevelName(level) == "warning" && labels[level] == ansi.Color("WARNING", "yellow");
      UpperWarning();
    } else if level == LevelNotice {
      assert LevelName(level) == "notice" && labels[level] == ansi.Color("NOTICE", "magenta");
      UpperNotice();
    } else if level == LevelInfo {
      assert LevelName(level) == "info" && labels[level] == ansi.Color("INFO", "blue");
      UpperInfo();
    } else {
      assert LevelName(level) == "debug" && labels[level] == ansi.Color("DEBUG", "cyan");
      UpperDebug();
    }
  }

  /** With colours disabled, as after any file logger was set up, each label is the plain upper-cased
      level name. */
  lemma PlainLoggerLabels(ansi: Ansi, level: int)
    requires IsLevel(level) && ansi.colorsDisabled
    ensures LoggerLabels(ansi)[level] == Strings.ToUpper(LevelName(level))
  {
    LoggerLabelAt(ansi, level);
  }

  /** A context is the same as a message prefixed with that context and ": ". */
  lemma ContextIsMessagePrefix(levelLabel: string, context: string, msg: string)
    requires context != ""
    ensures PrintLine(levelLabel, context, msg) == PrintLine(levelLabel, "", context + ": " + msg)
  {
  }

  /** For a fixed label and context, different messages give different lines. */
  lemma PrintLineInjective(levelLabel: string, context: string, msg: string, msg': string)
    requires PrintLine(levelLabel, context, msg) == PrintLine(levelLabel, context, msg')
    ensures msg == msg'
  {
    var line := PrintLine(levelLabel, context, msg);
    assert msg == line[|line| - |msg|..];
  }

  /** A logger (`*Logger`). `labels` stands for the package-level `levelLabels` table as this
      logger's construction left it. */
  class Logger {
    var logger: StdLogger?
    var level: int
    var context: string
    var out: OutFile?
    var labels: map<int, string>

    ghost predicate Valid()
      reads this
    {
      && logger != null && out != null && logger.out == out
      && IsLevel(level)
      && labels.Keys == AllLevels
    }

    /** `&Logger{level: levelMap[defaultLevel]}`. */
    constructor ()
      ensures level == LevelInfo && context == "" && logger == null && out == null && labels == map[]
    {
      level := LevelMap[DefaultLevel];
      context := "";
      logger := null;
      out := null;
      labels := map[];
    }

    /** The struct copy `*l`. */
    constructor Copy(l: Logger)
      ensures logger == l.logger && level == l.level && context == l.context
      ensures out == l.out && labels == l.labels
    {
      logger := l.logger;
      level := l.level;
      context := l.context;
      out := l.out;
      labels := l.labels;
    }

    /** What a message at `lvl` would look like from this logger. */
    function Line(lvl: int, msg: string): string
      reads this
    {
      PrintLine(LabelOf(labels, lvl), context, msg)
    }

    /** A new logger that differs from this one in its context only; both share the writer and the
        output, and this one is left as it was. */
    method Context(context: string) returns (r: Logger)
      ensures fresh(r) && unchanged(this)
      ensures r.context == context
      ensures r.logger == logger && r.level == level && r.out == out && r.labels == labels
      ensures Valid() ==> r.Valid()
    {
      r := new Logger.Copy(this);
      r.context := context;
    }

    /** `print`: a message above the threshold is dropped; any other becomes one line on the output. */
    method Print(lvl: int, msg: string) returns (r: Logger)
      requires Valid()
      modifies out
      ensures r == this
      ensures out.closed == old(out.closed)
      ensures out.written == old(out.written) + (if Passes(level, lvl) && !old(out.closed) then [Line(lvl, msg)] else [])
    {
      r := this;
      if lvl > level {
        return;
      }
      if context != "" {
        logger.Printf(LabelOf(labels, lvl) + ": " + context + ": " + msg);
      } else {
        logger.Printf(LabelOf(labels, lvl) + ": " + msg);
      }
    }

    method Error(msg: string) returns (r: Logger)
      requires Valid()
      modifies out
      ensures r == this && out.closed == old(out.closed)
      ensures out.written == old(out.written) + (if old(out.closed) then [] else [Line(LevelError, msg)])
    {
      r := Print(LevelError, msg);
    }

    method Warning(msg: string) returns (r: Logger)
      requires Valid()
      modifies out
      ensures r == this && out.closed == old(out.closed)
      ensures out.written == old(out.written) + (if Passes(level, LevelWarning) && !old(out.closed) then [Line(LevelWarning, msg)] else [])
    {
      r := Print(LevelWarning, msg);
    }

    method Notice(msg: string) returns (r: Logger)
      requires Valid()
      modifies out
      ensures r == this && out.closed == old(out.closed)
      ensures out.written == old(out.written) + (if Passes(level, LevelNotice) && !old(out.closed) then [Line(LevelNotice, msg)] else [])
    {
      r := Print(LevelNotice, msg);
    }

    method Info(msg: string) returns (r: Logger)
      requires Valid()
      modifies out
      ensures r == this && out.closed == old(out.closed)
      ensures out.written == old(out.written) + (if Passes(level, LevelInfo) && !old(out.closed) then [Line(LevelInfo, msg)] else [])
    {
      r := Print(LevelInfo, msg);
    }

    /** A debug message gets through only a "debug" logger. */
    method Debug(msg: string) returns (r: Logger)
      requires Valid()
      modifies out
      ensures r == this && out.closed == old(out.closed)
      ensures out.written == old(out.written) + (if level == LevelDebug && !old(out.closed) then [Line(LevelDebug, msg)] else [])
    {
      r := Print(LevelDebug, msg);
    }

    /** Closes the output if there is one; closing it a second time reports the error of the file. */
    method Close() returns (r: IoOutcome)
      modifies out
      ensures out != null ==> out.closed && out.written == old(out.written)
      ensures r == if out != null && old(out.closed) then IoFailed(CloseFailure(out.target)) else IoOk
    {
      if out != null {
        r := out.Close();
      } else {
        r := IoOk;
      }
    }
  }

  /** `NewLogger`: checks the level name, then opens the output (standard error, or the file after
      creating its directory), then fills the levelLabel table. A file output disables colours for the
      whole process, also when creating the directory or opening the file then fails. */
  method NewLogger(logPath: string, levelName: string, fs: FileSystem, ansi: Ansi, stderr: OutFile)
    returns (l: Logger?, err: Option<Error>)
    requires stderr.target == Stderr
    modifies fs, ansi
    ensures (l == null) <==> err.Some?
    ensures l != null ==>
      && fresh(l) && l.Valid() && fresh(l.logger)
      && LookupLevel(levelName) == Some(l.level)
      && l.context == ""
      && l.labels == LoggerLabels(ansi)
    ensures LookupLevel(levelName).None? ==>
      && err == Some(ErrInvalidLevel)
      && fs.calls == old(fs.calls) && ansi.colorsDisabled == old(ansi.colorsDisabled)
    ensures LookupLevel(levelName).Some? && UsesStderr(logPath) ==>
      && err == None && l.out == stderr
      && fs.calls == old(fs.calls) && ansi.colorsDisabled == old(ansi.colorsDisabled)
    ensures LookupLevel(levelName).Some? && !UsesStderr(logPath) ==>
      && ansi.colorsDisabled
      && OpenedLogFile(fs, old(fs.calls), logPath, "", if l == null then null else l.out, err)
      && (l != null ==> fresh(l.out))
  {
    var logger := new Logger();
    var found := LookupLevel(levelName);
    if found.None? {
      return null, Some(ErrInvalidLevel);
    }
    logger.level := found.value;
    var out;
    out, err := OpenOutput(logPath, fs, ansi, stderr);
    if out == null {
      return null, err;
    }
    logger.out := out;
    logger.labels := LoggerLabels(ansi);
    logger.logger := new StdLogger(logger.out);
    return logger, None;
  }

  /** The output branch of `NewLogger`: standard error for the empty path or "-"; otherwise colours
      are switched off for the process, the parent directory is created and the file opened for
      appending. */
  method OpenOutput(logPath: string, fs: FileSystem, ansi: Ansi, stderr: OutFile)
    returns (out: OutFile?, err: Option<Error>)
    requires stderr.target == Stderr
    modifies fs, ansi
    ensures (out == null) <==> err.Some?
    ensures UsesStderr(logPath) ==>
      && err == None && out == stderr
      && fs.calls == old(fs.calls) && ansi.colorsDisabled == old(ansi.colorsDisabled)
    ensures !UsesStderr(logPath) ==>
      && ansi.colorsDisabled
      && OpenedLogFile(fs, old(fs.calls), logPath, "", out, err)
      && (out != null ==> fresh(out))
  {
    if logPath != "" && logPath != "-" {
      ansi.DisableColors(true);
      var (dirPath, _) := Paths.Split(logPath);
      var made := fs.MkdirAllCall(dirPath, DirPerm);
      if made.IoFailed? {
        return null, Some(IoError(made.reason));
      }
      var f, openResult := fs.OpenFileCall(logPath, AppendFlags, FilePerm);
      if openResult.IoFailed? {
        assert "" + openResult.reason == openResult.reason;
        return null, Some(IoError(openResult.reason));
      }
      return f, None;
    }
    return stderr, None;
  }
}

/** How a caller sees the logger: a standard-error logger at "warning" drops a debug message, writes
    an error message, and a logger derived with a context tags its lines while the first one keeps
    writing untagged lines. */
module LoggingExample {
  import opened Wrappers
  import Errors
  import opened Levels
  import opened Env
  import opened Logging

  method StderrWarningLogger(fs: FileSystem, ansi: Ansi, stderr: OutFile) returns (l: Logger)
    requires stderr.target == Stderr
    modifies fs, ansi
    ensures l.Valid() && l.out == stderr && l.level == LevelWarning && l.context == ""
    ensures l.labels == LoggerLabels(ansi) && ansi.colorsDisabled == old(ansi.colorsDisabled)
  {
    var r, err := NewLogger("-", "warning", fs, ansi, stderr);
    assert LookupLevel("warning") == Some(LevelWarning);
    l := r;
  }

  /** A bare file name has the empty directory part, so the logger is created only if the file system
      accepts creating the empty directory; Go's `os.MkdirAll("")` does not. */
  method BareFileNameFails(fs: FileSystem, ansi: Ansi, stderr: OutFile) returns (l: Logger?, err: Option<Errors.Error>)
    requires stderr.target == Stderr && fs.mkdirOutcome("").IoFailed?
    modifies fs, ansi
    ensures l == null && err == Some(Errors.IoError(fs.mkdirOutcome("").reason))
    ensures fs.calls == old(fs.calls) + [MkdirAll("", DirPerm)]
  {
    assert LookupLevel("info") == Some(LevelInfo);
    l, err := NewLogger("app.log", "info", fs, ansi, stderr);
    BareNameOpensNothing(fs, old(fs.calls), "app.log", "", if l == null then null else l.out, err);
  }

  /** An error message, and then one through a logger derived with the context "db". */
  method ErrorThenContextError(l: Logger)
    requires l.Valid() && l.context == "" && !l.out.closed
    modifies l.out
    ensures !l.out.closed
    ensures l.out.written == old(l.out.written) + [
      LabelOf(l.labels, LevelError) + ": boom",
      LabelOf(l.labels, LevelError) + ": db: down"
    ]
  {
    ghost var before := l.out.written;
    ghost var e := LabelOf(l.labels, LevelError);
    assert l.Line(LevelError, "boom") == e + ": boom";
    var _ := l.Error("boom");
    assert l.out.written == before + [e + ": boom"];
    var db := l.Context("db");
    assert db.Line(LevelError, "down") == e + ": db: down";
    var _ := db.Error("down");
    assert l.out.written == before + [e + ": boom"] + [e + ": db: down"];
  }

  method WarningLoggerWrites(l: Logger)
    requires l.Valid() && l.level == LevelWarning && l.context == "" && !l.out.closed
    modifies l.out
    ensures l.out.written == old(l.out.written) + [
      LabelOf(l.labels, LevelError) + ": boom",
      LabelOf(l.labels, LevelError) + ": db: down",
      LabelOf(l.labels, LevelWarning) + ": again"
    ]
  {
    ghost var before := l.out.written;
    ghost var boom, down := LabelOf(l.labels, LevelError) + ": boom", LabelOf(l.labels, LevelError) + ": db: down";
    ghost var again := LabelOf(l.labels, LevelWarning) + ": again";
    var _ := l.Debug("x");
    assert l.out.written == before;
    ErrorThenContextError(l);
    assert l.Line(LevelWarning, "again") == again;
    var _ := l.Warning("again");
    assert l.out.written == before + [boom, down] + [again];
  }
}
