# facette/logger in Dafny

This is a model of the Go package `logger` from facette. The package wraps Go's `log.Logger`
and gives it the five severities "error", "warning", "notice", "info" and "debug". A `Logger`
has a level threshold, one output, and an optional context tag:

- `NewLogger` checks the level name.
- It then opens the output. The empty path or "-" means standard error. Any other path means a
  file: colours are switched off for the whole process, the parent directory is created and the
  file is opened for appending.
- Finally it builds the level label table.
- Each levelled method drops a message above the threshold and writes every other message as one
  line. The line is `LABEL: msg`, or `LABEL: context: msg` when there is a context.
- `Context` copies the logger with a new context. The copy shares the writer and the output.

The file backend of `file.go` has its own label table, filled by a loop over the level map. The
console variant has coloured labels; the file variant has plain labels such as `ERROR:`. The
backend writes `label msg` or `label context: msg`, and it does no filtering of its own.

Modules:

- `Levels`: the level constants and the name table, the lookup and the threshold test.
- `Strings`: ASCII `strings.ToUpper`.
- `Paths`: `path.Split`.
- `Env`: the environment. It has output files, a file system with fixed per-path answers and a log
  of the calls made on it, `log.Logger`, and the ANSI library's process-wide colour switch.
- `Logging`: `logger.go`.
- `LoggingExample`: a short use of the logger.
- `FileBackends`: `file.go`.
- `Wrappers` and `Errors`: helper types. `Errors` holds `ErrInvalidLevel` from `error.go`.

Each output file has a ghost field `written`. It holds the text of every `Printf` call that reached
the file, as it stands after `log.Logger`'s time stamp and before the newline `log.Logger` adds.
The operations that write are specified by what they append to `written`; "one line" below means
the text of one such call.

## Model

| member | source | states |
|---|---|---|
| Errors.Message | error.go:7 | a definition: the text of ErrInvalidLevel is "invalid logging level", and an I/O error carries the text it was given |
| Levels.LevelsIncrease | logger.go:22-28 | along the names error…debug the level numbers are 1, 2, 3, 4, 5 and increase strictly; 0 is no level |
| Levels.LevelMapExact | logger.go:35-41 | the level map holds exactly the five names, its values are exactly the five levels, and every level has a colour |
| Levels.AllLevelsAreLevels | logger.go:22-28 | the set of the five constants is exactly the numbers 1 to 5 |
| Levels.LevelNameCases | logger.go:35-41 | a name the map accepts is one of the five lower-case names |
| Levels.LevelName | logger.go:35-41 | the name given for a level is a key of the map and maps back to that level |
| Levels.LevelNameOfLookup | logger.go:35-41 | looking up a name and then naming the level gives the name back |
| Levels.LevelMapInjective | logger.go:35-41 | two names that map to the same level are the same name |
| Levels.LookupLevel | logger.go:55-57 | a name is accepted (ok) exactly when it names a level, and then gives that level; any other name names no level |
| Levels.Passes | logger.go:138-140 | the threshold test: an error passes every threshold, and a "debug" threshold lets every level through |
| Levels.LabelOf | logger.go:145 | a definition, Go's map read: the entry, or "" for a missing key; the contracts of `Print` and `Write` are stated through it |
| Levels.PassesMonotone | logger.go:138-140 | a message that passes a threshold also passes at any more severe level and under any higher threshold |
| Levels.PassingNames | logger.go:138-140 | a threshold lets a level through exactly when that level's name is among the names up to and including the threshold's |
| Levels.WarningThreshold | logger.go:44-46 | a "warning" threshold lets through "error" and "warning" and nothing else |
| Strings.ToUpper | file.go:63-65 | the result has the same length, and every character is the upper-cased input character |
| Strings.ToUpperIdempotent | file.go:63-65 | an upper-cased name has no lower-case letter left, and upper-casing it again changes nothing |
| Paths.LastSlash | logger.go:64 | gives -1 or the index of a '/', and no '/' comes after it |
| Paths.Split | file.go:40 | directory + file is the path, the directory is empty or ends in '/', and the file part has no '/' |
| Paths.SplitUnique | file.go:40 | any decomposition with those three properties is the one Split gives |
| Paths.BareNameHasEmptyDir | logger.go:64 | a path without '/' has the empty directory part |
| Env.UsesStderr | logger.go:59 | the empty path and "-" mean standard error, any other path a file |
| Env.TargetName | logger.go:75 | a definition: a file's name is its path, and standard error's is "/dev/stderr" |
| Env.CloseFailure | logger.go:131 | the error of a second close reads "close ", the file name, then ": file already closed" |
| Env.OutFile.Write | logger.go:143-149 | a write to an open file appends the text; a write to a closed file changes nothing |
| Env.OutFile.Close | logger.go:131 | the file is closed afterwards and its contents are kept; closing an already closed file reports the close error naming that file |
| Env.FileSystem.MkdirAllCall | logger.go:66 | returns the file system's answer for the directory and logs the call with its mode |
| Env.FileSystem.OpenFileCall | logger.go:70 | returns the answer for the path and logs the call; on success the handle is fresh, open, empty and targets the path; on failure there is none |
| Env.BareNameOpensNothing | logger.go:64-72 | for a path without '/' the directory to create is the empty one; when the file system refuses it, only that one call is made, no file is opened and its error is returned |
| Env.StdLogger.constructor | logger.go:86 | the writer writes to the given output |
| Env.StdLogger.Printf | logger.go:143-149 | the text is appended to the output when it is open |
| Env.Ansi.DisableColors | logger.go:61 | the process-wide switch takes the given value |
| Env.Ansi.Color | logger.go:79-83 | with colours disabled, or with no colour named, the text is returned unchanged |
| Logging.LoggerLabels | logger.go:78-84 | the label table has an entry for exactly the five levels |
| Logging.PrintLine | logger.go:142-150 | the line starts with the label and ": ", ends with the message, and has the context and ": " in between exactly when the context is not empty |
| Logging.LoggerLabelAt | logger.go:78-84 | each level's label is its upper-cased name in its own colour |
| Logging.PlainLoggerLabels | logger.go:61 | with colours switched off, each label is the plain upper-cased level name |
| Logging.ContextIsMessagePrefix | logger.go:142-150 | a logger's context gives the same line as putting "context: " in front of the message |
| Logging.PrintLineInjective | logger.go:142-150 | with the same label and context, different messages give different lines |
| Logging.Logger.constructor | logger.go:53 | a new logger starts at the default level "info", with no context, no output and no labels |
| Logging.Logger.Copy | logger.go:98 | the copy has every field of the original |
| Logging.Logger.Context | logger.go:97-101 | the result is a new logger with the given context and every other field of the original, so it shares the writer and the output; the original is unchanged; a valid logger gives a valid copy |
| Logging.Logger.Print | logger.go:137-153 | a message above the threshold adds nothing; any other message adds exactly one line, the label and the message with the context in between; the receiver is returned |
| Logging.Logger.Error | logger.go:103-106 | an error message always adds its line to an open output; the receiver is returned |
| Logging.Logger.Warning | logger.go:108-111 | a warning adds its line exactly when it passes the threshold; the receiver is returned |
| Logging.Logger.Notice | logger.go:113-116 | a notice adds its line exactly when it passes the threshold; the receiver is returned |
| Logging.Logger.Info | logger.go:118-121 | an information message adds its line exactly when it passes the threshold; the receiver is returned |
| Logging.Logger.Debug | logger.go:123-126 | a debug message adds its line exactly when the threshold is "debug"; the receiver is returned |
| Logging.Logger.Close | logger.go:128-135 | closes the output if there is one and returns the file's answer, the close error naming the file when it was already closed; with no output it succeeds |
| Logging.NewLogger | logger.go:47-89 | an unknown level name gives ErrInvalidLevel and touches nothing; otherwise the logger has the looked-up level, no context, the label table and its own writer; "" or "-" uses standard error and touches neither the file system nor the colours; any other path switches colours off, creates the directory, opens the file, and stops at the first error; a logger is returned exactly when there is no error |
| Logging.OpenOutput | logger.go:59-76 | standard error for "" or "-"; otherwise colours are off, the directory part is created with mode 0755 and the file opened with append, create, write-only and mode 0644, and each failure is passed on |
| LoggingExample.StderrWarningLogger | logger.go:44-46 | a "-" path and level "warning" give a valid standard-error logger at the warning level with no context |
| LoggingExample.BareFileNameFails | logger.go:64-68 | on a file system that refuses to create the empty directory, a logger on "app.log" is not created and the refusal is returned |
| LoggingExample.ErrorThenContextError | logger.go:97-106 | an error line, then a line from a logger derived with the context "db", both on the shared output in that order |
| LoggingExample.WarningLoggerWrites | logger.go:104-126 | on a warning logger a debug message is dropped; an error line, a context-tagged error line and a warning line are written, in that order |
| FileBackends.FillLabels | file.go:58-67 | whatever order the loop visits the map in, the table has one entry per level, the coloured upper-cased name or the upper-cased name and ":" |
| FileBackends.FileLabel | file.go:62-66 | a plain label is the upper-cased name and ":", one character longer than the name; a coloured label with colours disabled is the upper-cased name |
| FileBackends.WriteLine | file.go:80-86 | the line starts with the label and a space, ends with the message, and has the context and ": " in between exactly when the context is not empty |
| FileBackends.FileBackend.constructor | file.go:69-73 | the backend keeps the given output, writer and labels |
| FileBackends.FileBackend.Close | file.go:76-78 | the output is closed, standard error included; its contents are kept and the error is dropped |
| FileBackends.FileBackend.Write | file.go:80-86 | every call appends exactly one line to an open output, whatever the level: `label msg`, or `label context: msg` |
| FileBackends.NewFileBackend | file.go:31-74 | "" or "-" uses standard error with coloured labels and no file-system call; any other path creates the directory, opens the file, has plain labels, and wraps an open error as "failed to open logging file: …"; a backend is returned exactly when there is no error |
| FileBackends.ColoredLabelsMatchLogger | file.go:63 | a coloured backend label equals the logger's label for the same level |
| FileBackends.PlainLabelsAreUpperNames | file.go:65 | the plain labels are "ERROR:", "WARNING:", "NOTICE:", "INFO:" and "DEBUG:" |
| FileBackends.PlainTextsAgree | file.go:80-86 | with colours off, a plain backend and a logger write the same text for the same level, context and message |
| FileBackends.WriteLineInjective | file.go:80-86 | with the same label and context, different messages give different lines |

## Left out

- Time stamps: `log.Logger`'s date and microsecond prefix depends on the clock. The model keeps only the text after it.
- Newlines: `log.Logger` ends each output with a newline unless the text already ends in one, so a message that holds a newline becomes several physical lines. The model keeps one entry per `Printf` call and does not split or terminate it.
- Formatting: `fmt.Sprintf` and its format verbs are not modelled. Every method takes the message already formatted.
- Files and streams: `os.MkdirAll`, `os.OpenFile` and standard error are environment objects whose answers are parameters. Of the possible write errors, only writing to a closed file is modelled.
- Env.FileSystem.MkdirAllCall: the file system's answers are parameters, including the answer for the empty directory. Go's `os.MkdirAll("")` fails with "no such file or directory", as the Go standard library behaves. So in Go a bare file name such as "app.log" makes both `NewLogger` and `newFileBackend` fail. The model shows this consequence only for a file system that refuses the empty directory (Env.BareNameOpensNothing, LoggingExample.BareFileNameFails).
- Env.OutFile.Close: closing an open file always succeeds in the model. The operating system's own close errors are not modelled.
- Colours: `paint` is an opaque parameter that stands for the ANSI escape codes. Only the library's process-wide disable switch is modelled.
- Label tables: in the package, `levelLabels` and `fileLabels` are shared variables that every construction overwrites. The model gives each logger or backend its own table. So "the last one constructed wins" across instances is not modelled.
- The `Logger()` accessor is not modelled because it only returns a field.
- `fileBackend.logger` and `FileConfig`: the model's file backend takes just the path, and it has no back-reference to a logger. Neither type is defined in the files modelled here.
- Several backends fanning out, the system-log backend, the unsupported-backend error and locking: none of these is in the modelled code. The code has one output per logger and no mutex, so concurrency is not modelled.
- Strings.ToUpper: only ASCII letters are upper-cased. Unicode case mapping is not modelled; it is not needed for the five names.
- The severity filter follows the code's `level > l.level` test. The package comment speaks of "severity higher than level", which means the numerically greater, less severe levels.
