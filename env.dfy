/** The environment the logger runs in: open files, the file system, Go's `log.Logger` and the
    process-wide switch of the ANSI colouring library. Each is reduced to what the logger observes. */
module Env {
  import opened Wrappers
  import Paths
  import opened Errors

  /** Where an open file writes to. */
  datatype Target = Stderr | Path(path: string)

  /** The empty path and "-" both mean standard error; any other path names a file. */
  predicate UsesStderr(path: string) {
    path == "" || path == "-"
  }

  /** The flags the logger opens its file with: append, create if absent, write only. */
  datatype OpenFlag = Append | Create | WriteOnly

  const AppendFlags: set<OpenFlag> := {Append, Create, WriteOnly}

  /** Permissions 0755 (directories) and 0644 (the log file), written in decimal. */
  const DirPerm := 493
  const FilePerm := 420

  /** The message of the error a second close returns. */
  const ErrClosed := "file already closed"

  /** The name Go gives the file behind a target; standard error is "/dev/stderr". */
  function TargetName(target: Target): string {
    match target
    case Stderr => "/dev/stderr"
    case Path(path) => path
  }

  /** The error of closing a closed file: the operation, the file name and `ErrClosed`. */
  function CloseFailure(target: Target): (reason: string)
    ensures |reason| == 6 + |TargetName(target)| + 2 + |ErrClosed|
    ensures reason[..6] == "close " && reason[6..6 + |TargetName(target)|] == TargetName(target)
    ensures reason[6 + |TargetName(target)|..] == ": " + ErrClosed
  {
    "close " + TargetName(target) + ": " + ErrClosed
  }

  /** A handle on an output stream (an `*os.File`). `written` is every line that reached it through
      this handle, after the time-stamp prefix. */
  class OutFile {
    const target: Target
    var closed: bool
    ghost var written: seq<string>

    constructor (target: Target)
      ensures this.target == target && !closed && written == []
    {
      this.target := target;
      closed := false;
      written := [];
    }

    /** A write to a closed file fails, and its error is dropped by the caller, so nothing is added. */
    method Write(text: string)
      modifies this
      ensures closed == old(closed)
      ensures written == if old(closed) then old(written) else old(written) + [text]
    {
      if !closed {
        written := written + [text];
      }
    }

    method Close() returns (r: IoOutcome)
      modifies this
      ensures closed && written == old(written)
      ensures r == if old(closed) then IoFailed(CloseFailure(target)) else IoOk
    {
      r := if closed then IoFailed(CloseFailure(target)) else IoOk;
      closed := true;
    }
  }

  /** A call the logger made on the file system. */
  datatype FsCall = MkdirAll(dir: string, perm: int) | OpenFile(path: string, flags: set<OpenFlag>, perm: int)

  /** Opening the log file `path` went as the file system's answers dictate: its directory (the
      `path.Split` directory part) is created with mode 0755, and only if that succeeds is the file
      opened with mode 0644 for appending. `f` is the open, empty handle when both succeed; otherwise
      `err` carries the failing step's message, that of the open after `openPrefix`. */
  ghost predicate OpenedLogFile(fs: FileSystem, before: seq<FsCall>, path: string, openPrefix: string,
                                f: OutFile?, err: Option<Error>)
    reads fs, f
  {
    var dir := Paths.Split(path).0;
    if fs.mkdirOutcome(dir).IoFailed? then
      && fs.calls == before + [MkdirAll(dir, DirPerm)]
      && f == null && err == Some(IoError(fs.mkdirOutcome(dir).reason))
    else
      && fs.calls == before + [MkdirAll(dir, DirPerm), OpenFile(path, AppendFlags, FilePerm)]
      && if fs.openOutcome(path).IoFailed? then
           f == null && err == Some(IoError(openPrefix + fs.openOutcome(path).reason))
         else
           f != null && f.target == Path(path) && !f.closed && f.written == [] && err == None
  }

  /** A path without a directory part asks `os.MkdirAll` to create the empty directory; when the file
      system refuses that, as Go's does, no file is opened and the error is the refusal. */
  lemma BareNameOpensNothing(fs: FileSystem, before: seq<FsCall>, path: string, openPrefix: string,
                             f: OutFile?, err: Option<Error>)
    requires forall j :: 0 <= j < |path| ==> path[j] != '/'
    requires fs.mkdirOutcome("").IoFailed?
    requires OpenedLogFile(fs, before, path, openPrefix, f, err)
    ensures f == null && err == Some(IoError(fs.mkdirOutcome("").reason))
    ensures fs.calls == before + [MkdirAll("", DirPerm)]
  {
    Paths.BareNameHasEmptyDir(path);
  }

  /** The file system: what it answers for each path is fixed when it is set up, and it records
      every call made on it. */
  class FileSystem {
    var calls: seq<FsCall>
    const mkdirOutcome: string -> IoOutcome
    const openOutcome: string -> IoOutcome

    constructor (mkdirOutcome: string -> IoOutcome, openOutcome: string -> IoOutcome)
      ensures calls == [] && this.mkdirOutcome == mkdirOutcome && this.openOutcome == openOutcome
    {
      calls := [];
      this.mkdirOutcome := mkdirOutcome;
      this.openOutcome := openOutcome;
    }

    /** `os.MkdirAll`. */
    method MkdirAllCall(dir: string, perm: int) returns (r: IoOutcome)
      modifies this
      ensures r == mkdirOutcome(dir)
      ensures calls == old(calls) + [MkdirAll(dir, perm)]
    {
      r := mkdirOutcome(dir);
      calls := calls + [MkdirAll(dir, perm)];
    }

    /** `os.OpenFile`: a fresh, open handle on success, none on failure. */
    method OpenFileCall(path: string, flags: set<OpenFlag>, perm: int) returns (f: OutFile?, r: IoOutcome)
      modifies this
      ensures r == openOutcome(path)
      ensures calls == old(calls) + [OpenFile(path, flags, perm)]
      ensures r.IoOk? ==> f != null && fresh(f) && f.target == Path(path) && !f.closed && f.written == []
      ensures r.IoFailed? ==> f == null
    {
      r := openOutcome(path);
      calls := calls + [OpenFile(path, flags, perm)];
      if r.IoOk? {
        f := new OutFile(Path(path));
      } else {
        f := null;
      }
    }
  }

  /** Go's `log.Logger` over one output. The time-stamp prefix it writes is left out. */
  class StdLogger {
    const out: OutFile

    constructor (out: OutFile)
      ensures this.out == out
    {
      this.out := out;
    }

    method Printf(text: string)
      modifies out
      ensures out.closed == old(out.closed)
      ensures out.written == if old(out.closed) then old(out.written) else old(out.written) + [text]
    {
      out.Write(text);
    }
  }

  /** The ANSI colouring library: `paint` stands for the escape codes it wraps around a text, and
      `colorsDisabled` for its process-wide plain-text switch. */
  class Ansi {
    var colorsDisabled: bool
    const paint: (string, string) -> string

    constructor (paint: (string, string) -> string)
      ensures !colorsDisabled && this.paint == paint
    {
      colorsDisabled := false;
      this.paint := paint;
    }

    method DisableColors(b: bool)
      modifies this
      ensures colorsDisabled == b
    {
      colorsDisabled := b;
    }

    /** `ansi.Color`: the text itself while colours are disabled or no colour is named. */
    function Color(s: string, color: string): (r: string)
      reads this
      ensures colorsDisabled || color == "" ==> r == s
    {
      if colorsDisabled || color == "" then s else paint(s, color)
    }
  }
}
