/** file.go: the file-or-console backend, with its own label table and line templates. */
module FileBackends {
  import opened Wrappers
  import opened Levels
  import opened Env
  import opened Errors
  import Strings
  import Paths
  import Logging

  /** The prefix file.go puts before the error of a failed open. */
  const OpenFailurePrefix := "failed to open logging file: "

  /** The label of the level named `name`: coloured on the console, colon-suffixed in a file. */
  function FileLabel(name: string, useColors: bool, ansi: Ansi): (fileLabel: string)
    requires name in LevelMap
    reads ansi
    ensures !useColors ==> |fileLabel| == |name| + 1 && fileLabel[|name|] == ':'
    ensures !useColors ==> fileLabel[..|name|] == Strings.ToUpper(name)
    ensures useColors && ansi.colorsDisabled ==> fileLabel == Strings.ToUpper(name)
  {
    if useColors then ansi.Color(Strings.ToUpper(name), LevelColors[LevelMap[name]])
    else Strings.ToUpper(name) + ":"
  }

  /** A label table as the construction leaves it: one entry per level, each the label of its name. */
  ghost predicate HasFileLabels(labels: map<int, string>, useColors: bool, ansi: Ansi)
    reads ansi
  {
    && labels.Keys == AllLevels
    && forall level :: level in labels ==> labels[level] == FileLabel(LevelName(level), useColors, ansi)
  }

  /** The text `Write` hands to the writer. It starts with the label and a space, ends with the
      message, and carries the context and ": " exactly when there is a context. */
  function WriteLine(levelLabel: string, context: string, msg: string): (line: string)
    ensures |line| == |levelLabel| + 1 + (if context == "" then 0 else |context| + 2) + |msg|
    ensures line[..|levelLabel| + 1] == levelLabel + " "
    ensures line[|line| - |msg|..] == msg
    ensures context != "" ==> line[|levelLabel| + 1..|levelLabel| + 1 + |context| + 2] == context + ": "
  {
    if context != "" then levelLabel + " " + context + ": " + msg else levelLabel + " " + msg
  }

  /** The `for name, level := range levelMap` loop: the map is visited in no particular order. */
  method FillLabels(useColors: bool, ansi: Ansi) returns (labels: map<int, string>)
    ensures HasFileLabels(labels, useColors, ansi)
  {
    labels := map[];
    var todo := LevelMap.Keys;
    while todo != {}
      invariant todo <= LevelMap.Keys
      invariant forall level :: level in labels <==> IsLevel(level) && LevelName(level) !in todo
      invariant forall level :: level in labels ==> labels[level] == FileLabel(LevelName(level), useColors, ansi)
      decreases todo
    {
      var name :| name in todo;
      var level := LevelMap[name];
      LevelNameOfLookup(name);
      if useColors {
        labels := labels[level := ansi.Color(Strings.ToUpper(name), LevelColors[level])];
      } else {
        labels := labels[level := Strings.ToUpper(name) + ":"];
      }
      todo := todo - {name};
    }
    KeysAreAllLevels(labels);
  }

  lemma KeysAreAllLevels(labels: map<int, string>)
    requires forall level :: level in labels <==> IsLevel(level)
    ensures labels.Keys == AllLevels
  {
    AllLevelsAreLevels();
    assert forall level :: level in labels.Keys <==> level in AllLevels;
  }

  /** A file backend (`fileBackend`). `labels` stands for the package-level `fileLabels` table as
      this backend's construction left it. */
  class FileBackend {
    const output: OutFile
    const writer: StdLogger
    const labels: map<int, string>

    ghost predicate Valid() {
      writer.out == output && labels.Keys == AllLevels
    }

    constructor (output: OutFile, writer: StdLogger, labels: map<int, string>)
      ensures this.output == output && this.writer == writer && this.labels == labels
    {
      this.output := output;
      this.writer := writer;
      this.labels := labels;
    }

    /** Closes the output whatever it is, standard error included; the error is dropped. */
    method Close()
      modifies output
      ensures output.closed && output.written == old(output.written)
    {
      var _ := output.Close();
    }

    /** Writes one line at any level: the backend does no filtering of its own. */
    method Write(level: int, context: string, msg: string)
      requires Valid()
      modifies output
      ensures output.closed == old(output.closed)
      ensures output.written == old(output.written)
        + (if old(output.closed) then [] else [WriteLine(LabelOf(labels, level), context, msg)])
    {
      if context != "" {
        writer.Printf(LabelOf(labels, level) + " " + context + ": " + msg);
      } else {
        writer.Printf(LabelOf(labels, level) + " " + msg);
      }
    }
  }

  /** `newFileBackend`: a file path creates the directory and opens the file, and keeps colours off;
      the empty path or "-" writes to standard error with colours on. */
  method NewFileBackend(path: string, fs: FileSystem, ansi: Ansi, stderr: OutFile)
    returns (b: FileBackend?, err: Option<Error>)
    requires stderr.target == Stderr
    modifies fs
    ensures (b == null) <==> err.Some?
    ensures b != null ==> fresh(b) && b.Valid() && fresh(b.writer)
    ensures UsesStderr(path) ==>
      && err == None && b.output == stderr
      && HasFileLabels(b.labels, true, ansi)
      && fs.calls == old(fs.calls)
    ensures !UsesStderr(path) ==>
      && OpenedLogFile(fs, old(fs.calls), path, OpenFailurePrefix, if b == null then null else b.output, err)
      && (b != null ==> fresh(b.output) && HasFileLabels(b.labels, false, ansi))
  {
    var output: OutFile;
    var useColors := false;
    if path != "" && path != "-" {
      var (dirPath, _) := Paths.Split(path);
      var made := fs.MkdirAllCall(dirPath, DirPerm);
      if made.IoFailed? {
        return null, Some(IoError(made.reason));
      }
      var f, openResult := fs.OpenFileCall(path, AppendFlags, FilePerm);
      if openResult.IoFailed? {
        return null, Some(IoError(OpenFailurePrefix + openResult.reason));
      }
      output := f;
    } else {
      output := stderr;
      useColors := true;
    }
    var writer := new StdLogger(output);
    var labels := FillLabels(useColors, ansi);
    b := new FileBackend(output, writer, labels);
    err := None;
  }

  /** With colours on, a backend label is the label the logger itself uses for that level. */
  lemma ColoredLabelsMatchLogger(ansi: Ansi, level: int)
    requires IsLevel(level)
    ensures FileLabel(LevelName(level), true, ansi) == Logging.LoggerLabels(ansi)[level]
  {
    Logging.LoggerLabelAt(ansi, level);
  }

  /** Without colours a backend label is the upper-case level name and a colon: "ERROR:" and so on. */
  lemma PlainLabelsAreUpperNames(ansi: Ansi, level: int)
    requires IsLevel(level)
    ensures FileLabel(LevelName(level), false, ansi)
      == ["ERROR:", "WARNING:", "NOTICE:", "INFO:", "DEBUG:"][level - 1]
  {
    if level == LevelError {
      assert LevelName(level) == "error";
      Logging.UpperError();
    } else if level == LevelWarning {
      assert LevelName(level) == "warning";
      Logging.UpperWarning();
    } else if level == LevelNotice {
      assert LevelName(level) == "notice";
      Logging.UpperNotice();
    } else if level == LevelInfo {
      assert LevelName(level) == "info";
      Logging.UpperInfo();
    } else {
      assert LevelName(level) == "debug";
      Logging.UpperDebug();
    }
  }

  /** A file backend writing without colours and a logger writing to a file put the same text on the
      line for the same level, context and message. */
  lemma PlainTextsAgree(ansi: Ansi, level: int, context: string, msg: string)
    requires IsLevel(level) && ansi.colorsDisabled
    ensures WriteLine(FileLabel(LevelName(level), false, ansi), context, msg)
      == Logging.PrintLine(Logging.LoggerLabels(ansi)[level], context, msg)
  {
    Logging.PlainLoggerLabels(ansi, level);
    var upper := Strings.ToUpper(LevelName(level));
    if context != "" {
      assert upper + ":" + " " + context + ": " + msg == upper + ": " + context + ": " + msg;
    } else {
      assert upper + ":" + " " + msg == upper + ": " + msg;
    }
  }

  /** For a fixed label and context, different messages give different lines. */
  lemma WriteLineInjective(levelLabel: string, context: string, msg: string, msg': string)
    requires WriteLine(levelLabel, context, msg) == WriteLine(levelLabel, context, msg')
    ensures msg == msg'
  {
    var line := WriteLine(levelLabel, context, msg);
    assert msg == line[|line| - |msg|..];
  }
}
