# Leveled multi-sink logger: a Dafny model

This project models the logging package in `logger.go`. A `Logger` sends
each log call to up to three sinks: an optional log file, stdout or stderr,
and an optional syslog writer. The model covers:

- the severity labels (`LogLevelToString`);
- the line formatter (`formatLog`): a 7-wide level column, the time zone, the
  time stamp and the message, joined by `" | "`;
- the dispatch engine (`printLog`, `printLogf`, `writeToSyslog`) and the
  per-level methods that fix the formatting flag, the severity and the stream;
- construction (`newLogger`, `NewLogger`, `NewLoggerOrFatal`, `openLogFile`,
  `checkFileDir`, `newSysLogger`, `newSyslog`);
- the package-level default logger: `NewGlobalLogger`,
  `NewGlobalLoggerOrFatal` and the package functions that forward to it.

Layout:

- `options.dfy` (`Options`): Option and Result.
- `severity.dfy` (`Severity`): priorities, labels and the severity-to-method switch.
- `format.dfy` (`Format`): padding and the formatter, with a parser that reads
  a formatted line back.
- `effects.dfy` (`Effects`): what the process does to the outside world, as
  one ordered trace. The contents of each sink are projections of that trace.
- `dispatch.dfy` (`Dispatch`): the rendered line and the writes of one call,
  as functions, plus the routing table.
- `logger.dfy` (`Logging`): the `Logger` and `Process` classes, the dispatch
  methods and the constructors.
- `global.dfy` (`DefaultLogger`): installing the default logger and the
  package functions.

Modelling choices:

- **Trace of effects.** Every side effect is appended to `Process.effects`:
  a syslog connection attempt, a file open, a line appended to a file, a line
  on stdout or stderr, a syslog writer call, an exit or a panic. Because all
  sinks share one trace, the order of writes within one call can be stated.
  A line is the text given to `fmt.Fprintln`; the trailing newline is implied.
- **Logger.** `Logger` is a class with the fields of the Go struct.
  `fileWriter` is the path of the open file or nil. `syslogWriter` is the
  priority and tag the connection was opened with, or nil. `formatter` says
  whether the formatter is set; `formatLog` is the only formatter ever set.
  `Value()` is the struct value, which `logger = *l` copies.
- **Zero Logger.** The package-level logger starts as the zero `Logger`,
  with no formatter. A formatted call on it calls a nil function value, so Go
  panics before anything is written. The model records a `Panic` effect.
  Unformatted calls (`Printf`, `Println`) still write to stdout.
- **Host.** The operating system is a `Host` value. It gives `filepath.Dir`,
  `os.Stat`, the error `os.OpenFile` would return and the error `syslog.New`
  would return. `fmt.Sprint` and `fmt.Sprintf` are uninterpreted functions in
  `Process.fmt`. The two clock readings of a formatted line (zone and stamp)
  are a `Clock` parameter.
- **Behaviour worth noting:**
  - `Alert` and `Alertf` write to stdout (logger.go:65-72).
  - The level column comes from `%-7s` (logger.go:422), which pads but never
    truncates; no label is longer than 7 characters, so the column is always
    exactly 7 wide.
  - A missing parent directory and a parent that is not a directory give two
    different errors (logger.go:209-218).

## Model

| member | source | states |
|---|---|---|
| `Severity.LevelToString` | logger.go:430-452 | Total: every priority gets a label of 4 to 7 upper-case letters, and the label is "UNKNOWN" exactly when the priority is not one of the eight bare severities |
| `Severity.LabelRoundTrip` | logger.go:431-451 | Reading a label back gives the priority for each of the eight severities 0..7 (EMERG, ALERT, CRIT, ERROR, WARNING, NOTICE, INFO, DEBUG) and nothing for any other priority, so the eight labels are distinct |
| `Severity.FacilityBitsGiveUnknown` | logger.go:431-451 | A priority with facility bits set, such as LOG_INFO|LOG_USER, is labelled "UNKNOWN" |
| `Severity.SyslogMethodFor` | logger.go:182-201 | A known severity selects the writer method that sends at that same severity; any other priority selects Info |
| `Format.PadRight` | logger.go:422 | `%-7s`: the text is kept whole at the start, followed by spaces up to the width, and is never truncated |
| `Format.TrimPadded` | logger.go:422 | Padding a label that does not end in a space can be undone by trimming trailing spaces |
| `Format.LevelField` | logger.go:421-423 | The level column is exactly 7 characters: the label, then spaces; trimming it gives back the label |
| `Format.FormatLog` | logger.go:416-428 | The line starts with the 7-wide level column and is as long as the header plus the message |
| `Format.FormatLogParses` | logger.go:416-428 | Every formatted line reads back as level, zone, stamp and message in that order, with `" | "` between them; the message is interpolated if and only if arguments were given |
| `Format.FormatLogVerbatim` | logger.go:417-419 | With no arguments, Sprintf is never consulted and the message appears verbatim |
| `Format.FormatLogClockConfined` | logger.go:421-427 | Two lines from the same inputs differ only in the clock fields; level and message read back the same |
| `Dispatch.PrintLogLineParses` | logger.go:142-146 | printLog's line is the bare Sprint text, or a formatted line whose message reads back as exactly that text and whose level reads back as the level: the formatter gets no arguments, so the text is never reinterpreted as a template |
| `Dispatch.PrintLogfLineParses` | logger.go:163-167 | printLogf's formatted line reads back with the level and a message interpolated only when arguments are present; its unformatted line is always the Sprintf result, even with no arguments |
| `Dispatch.PrintLogIgnoresSprintf` | logger.go:142-146 | printLog's line does not depend on Sprintf at all |
| `Dispatch.SyslogEffects` | logger.go:177-202 | No writer: no syslog call; a writer: exactly one call, with the method the level selects and the rendered message |
| `Dispatch.Fanout` | logger.go:148-153 | One dispatch makes one write per attached sink plus the stream write, all carrying the line, in the strict order file, stream, syslog, and no other effect; it starts with a file write exactly when a file is attached and ends with a syslog call exactly when a writer is attached |
| `Dispatch.FanoutStreams` | logger.go:152 | Exactly one line is added to the chosen stream and none to the other |
| `Dispatch.FanoutFiles` | logger.go:148-150 | Exactly one line is appended to the attached file, and none to any other file (none at all without a file sink) |
| `Dispatch.FanoutSyslog` | logger.go:153 | The syslog call log grows by one call (method chosen by level, rendered line) if a writer is attached, otherwise not at all |
| `Dispatch.FanoutNoSetup` | logger.go:136-175 | A dispatch opens no file and makes no syslog connection |
| `Dispatch.RouteOf` | logger.go:24-112 | Every entry point uses one of the eight severities; exactly Error, Critical and Emergency (and their f forms) go to stderr, so Alert goes to stdout; exactly Printf and Println skip formatting, and they use INFO |
| `Dispatch.EntryDelivers` | logger.go:136-153 | A variadic entry point (Println, Info, Debug, ...) on a logger with a formatter adds its printLog line to the routed stream, the file if attached and syslog if attached; a formatted line reads back with the routed level, and Println's line is the bare Sprint text sent to syslog as Info |
| `Dispatch.EntryfDelivers` | logger.go:155-175 | A template entry point (Printf, Infof, Debugf, ...) on a logger with a formatter adds its printLogf line to the routed stream, the file if attached and syslog if attached; a formatted line reads back with the routed level and the template interpolated only when there are arguments, and Printf's line is the Sprintf rendering sent to syslog as Info |
| `Dispatch.ZeroLoggerFormattedPanics` | logger.go:136-146 | On a zero Logger (no formatter) every formatted variadic entry point panics before writing anything, while Println still writes its bare Sprint line to stdout |
| `Dispatch.ZeroLoggerTemplatePanics` | logger.go:155-166 | On a zero Logger every formatted template entry point panics before writing anything, while Printf still writes its Sprintf rendering to stdout |
| `Logging.ErrorText` | logger.go:204-222 | Only a syslog setup error starts with the text of ErrSyslogConnFailed; a wrapping error (stat, open, syslog) ends with the text it wraps (messages of lines 130, 210-221 and 312) |
| `Logging.EffectivePriority` | logger.go:408-414 | A zero priority becomes LOG_INFO|LOG_SYSLOG (severity INFO, facility SYSLOG); any other is kept |
| `Logging.CheckFileDir` | logger.go:204-222 | No error exactly when the parent directory exists and is a directory; each error names the parent, and missing, not-a-directory and other stat errors are told apart |
| `Logging.Construct` | logger.go:281-307 | Construction makes only setup effects, at most one syslog connection attempt and at most one file open, never with the file before syslog; a built logger has its formatter set |
| `Logging.ConstructSetup` | logger.go:286-304 | Syslog is dialled exactly when enabled, with the defaulted priority and the app name; the file is opened exactly when syslog is fine, the path is non-empty and the directory check passes |
| `Logging.ConstructSucceeds` | logger.go:281-307 | Construction succeeds exactly when every step succeeds, and then the logger has syslog iff enabled, a file sink iff a path was given, and the formatter |
| `Logging.ConstructFails` | logger.go:281-316 | Syslog failure gives a wrapped syslog setup error and no file is opened; a bad directory is reported with no file opened; an open failure is reported with the path; an empty path can only fail on syslog |
| `Logging.Process.constructor` | logger.go:15 | A process starts with no effects and the zero Logger as its package-level logger |
| `Logging.Logger.constructor` | logger.go:296-299 | The Logger literal: the given syslog writer and formatter, no file |
| `Logging.Logger.OpenLogFile` | logger.go:114-134 | Empty path: nothing happens; bad directory: its error, no file opened, logger unchanged; otherwise one open, with the file sink set to the file, or to nil and an open error if the open fails |
| `Logging.Logger.PrintLog` | logger.go:136-154 | The trace grows by exactly printLog's effects: the panic of a nil formatter, or the fan-out of the rendered line |
| `Logging.Logger.PrintLogf` | logger.go:156-175 | The trace grows by exactly printLogf's effects |
| `Logging.Logger.WriteToSyslog` | logger.go:177-202 | The trace grows by the single syslog call the level selects, or by nothing without a writer |
| `Logging.Logger.Printf` | logger.go:24-27 | Unformatted Printf: Sprintf, INFO, stdout |
| `Logging.Logger.Println` | logger.go:29-32 | Unformatted Println: Sprint, INFO, stdout |
| `Logging.Logger.Info` | logger.go:34-37 | Formatted, INFO, stdout |
| `Logging.Logger.Infof` | logger.go:39-42 | Formatted template, INFO, stdout |
| `Logging.Logger.Debug` | logger.go:44-47 | Formatted, DEBUG, stdout |
| `Logging.Logger.Debugf` | logger.go:49-52 | Formatted template, DEBUG, stdout |
| `Logging.Logger.Warn` | logger.go:54-57 | Formatted, WARNING, stdout |
| `Logging.Logger.Warnf` | logger.go:59-62 | Formatted template, WARNING, stdout |
| `Logging.Logger.Alert` | logger.go:64-67 | Formatted, ALERT, stdout |
| `Logging.Logger.Alertf` | logger.go:69-72 | Formatted template, ALERT, stdout |
| `Logging.Logger.Notice` | logger.go:74-77 | Formatted, NOTICE, stdout |
| `Logging.Logger.Noticef` | logger.go:79-82 | Formatted template, NOTICE, stdout |
| `Logging.Logger.Error` | logger.go:84-87 | Formatted, ERR, stderr |
| `Logging.Logger.Errorf` | logger.go:89-92 | Formatted template, ERR, stderr |
| `Logging.Logger.Critical` | logger.go:94-97 | Formatted, CRIT, stderr |
| `Logging.Logger.Criticalf` | logger.go:99-102 | Formatted template, CRIT, stderr |
| `Logging.Logger.Emergency` | logger.go:104-107 | Formatted, EMERG, stderr |
| `Logging.Logger.Emergancyf` | logger.go:109-112 | Formatted template, EMERG, stderr |
| `Logging.NewSyslog` | logger.go:408-414 | One connection attempt with the defaulted priority, tagged with the app name; the writer on success, the transport error otherwise |
| `Logging.NewSysLogger` | logger.go:309-316 | newSyslog, with a failure wrapped as a syslog setup error |
| `Logging.BuildLogger` | logger.go:281-307 | A fresh logger with exactly the value construction describes, or nil and its error; the trace grows by construction's setup effects |
| `Logging.NewLogger` | logger.go:256-268 | The same as newLogger |
| `Logging.NewLoggerOrFatal` | logger.go:224-238 | On success the new logger; on error the error text on stderr, then exit status 1 |
| `DefaultLogger.NewGlobalLogger` | logger.go:270-279 | On success the package-level logger becomes a copy of the built logger; on error it is unchanged and the error is returned |
| `DefaultLogger.NewGlobalLoggerOrFatal` | logger.go:240-254 | As NewGlobalLogger; on error the global is unchanged, the error goes to stderr and the process exits with status 1 |
| `DefaultLogger.Install` | logger.go:253 | `logger = *l`: the package-level logger takes a copy of the fields |
| `DefaultLogger.Printf` | logger.go:319-321 | The same effects as Printf called on the package-level logger |
| `DefaultLogger.Println` | logger.go:324-326 | The same effects as Println called on the package-level logger |
| `DefaultLogger.Info` | logger.go:329-331 | The same effects as Info called on the package-level logger |
| `DefaultLogger.Infof` | logger.go:334-336 | The same effects as Infof called on the package-level logger |
| `DefaultLogger.Debug` | logger.go:339-341 | The same effects as Debug called on the package-level logger |
| `DefaultLogger.Debugf` | logger.go:344-346 | The same effects as Debugf called on the package-level logger |
| `DefaultLogger.Warn` | logger.go:349-351 | The same effects as Warn called on the package-level logger |
| `DefaultLogger.Warnf` | logger.go:354-356 | The same effects as Warnf called on the package-level logger |
| `DefaultLogger.Alert` | logger.go:359-361 | The same effects as Alert called on the package-level logger |
| `DefaultLogger.Alertf` | logger.go:364-366 | The same effects as Alertf called on the package-level logger |
| `DefaultLogger.Notice` | logger.go:369-371 | The same effects as Notice called on the package-level logger |
| `DefaultLogger.Noticef` | logger.go:374-376 | The same effects as Noticef called on the package-level logger |
| `DefaultLogger.Error` | logger.go:379-381 | The same effects as Error called on the package-level logger |
| `DefaultLogger.Errorf` | logger.go:384-386 | The same effects as Errorf called on the package-level logger |
| `DefaultLogger.Critical` | logger.go:389-391 | The same effects as Critical called on the package-level logger |
| `DefaultLogger.Criticalf` | logger.go:394-396 | The same effects as Criticalf called on the package-level logger |
| `DefaultLogger.Emergency` | logger.go:399-401 | The same effects as Emergency called on the package-level logger |
| `DefaultLogger.Emergancyf` | logger.go:404-406 | The same effects as Emergancyf called on the package-level logger |

## Left out

- Real I/O: the bytes written by `os.OpenFile`, `fmt.Fprintln` and the `*syslog.Writer` methods. Their errors are ignored by the code, so each write is modelled as an effect that always happens.
- The semantics of `fmt.Sprint` and `fmt.Sprintf`. They are uninterpreted functions.
- `%w` error chains. Errors are a datatype of kinds. `Wrapped` gives the wrapped error's text, and `ErrorText` gives the message.
- `filepath.Dir`, and the priority validation inside `syslog.New`. Both belong to the Go standard library; their outcomes come from `Host`.
- `time.Now().Format(...)`: the zone and the stamp are a `Clock` parameter. The two separate clock reads cannot be modelled.
- `os.Exit(1)` and the panic are trace effects. The model does not stop the process after them: the behaviour is the trace up to the first `Exit` or `Panic`.
- Concurrency: the unsynchronised writes to the package-level logger and the interleaving of lines between goroutines.
- The unused field `useStdBackupWritter`.
- The formatter as a swappable function value: it is modelled as set or nil, because `formatLog` is the only formatter ever installed.
- Integer width of `syslog.Priority`: the code does no arithmetic on priorities, so unbounded integers are used.
- `example/main.go` is not part of this model.
