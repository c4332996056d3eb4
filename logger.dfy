/**
  The Logger object and its construction (logger.go): connecting to syslog
  when enabled, checking the log file's directory and opening the file, and
  the dispatch methods that write one line to every attached sink.
*/
module Logging {
  import opened Options
  import opened Severity
  import opened Format
  import opened Effects
  import opened Dispatch

  /** The outcome of os.Stat on a path. */
  datatype Stat = Found(isDir: bool) | Missing | StatFailed(cause: string)

  /**
    The operating system as the constructors see it: filepath.Dir, os.Stat,
    the error os.OpenFile would return for a path (None: it opens), and the
    error syslog.New would return for a priority and tag (None: it connects).
  */
  datatype Host = Host(
    dir: string -> string,
    stat: string -> Stat,
    openFile: string -> Option<string>,
    dialSyslog: (int, string) -> Option<string>)

  /** The errors construction returns, by kind, with what their messages name. */
  datatype Error =
    | SyslogConnFailed(cause: string)            // wraps ErrSyslogConnFailed and the transport error
    | NotDirectory(dir: string)
    | DirMissing(dir: string)
    | DirStatFailed(dir: string, cause: string)  // wraps the stat error
    | FileOpenFailed(path: string, cause: string) // wraps the open error

  /** The text of ErrSyslogConnFailed. */
  const ErrSyslogConnFailedText: string := "new syslog setup error"

  /** The error an error wraps with %w, as text. */
  function Wrapped(e: Error): Option<string> {
    match e
    case SyslogConnFailed(cause) => Some(cause)
    case DirStatFailed(_, cause) => Some(cause)
    case FileOpenFailed(_, cause) => Some(cause)
    case _ => None
  }

  /**
    err.Error(): the message built by fmt.Errorf. Only a syslog setup error
    starts with the text of ErrSyslogConnFailed, and a wrapping error ends
    with the text of the error it wraps.
  */
  function ErrorText(e: Error): (text: string)
    ensures e.SyslogConnFailed? <==> ErrSyslogConnFailedText + ": " <= text
    ensures Wrapped(e).Some? ==>
      |Wrapped(e).value| <= |text| && text[|text| - |Wrapped(e).value|..] == Wrapped(e).value
  {
    var text := match e
      case SyslogConnFailed(cause) => ErrSyslogConnFailedText + ": " + cause
      case NotDirectory(dir) => "the path=" + dir + " exists but is not directory"
      case DirMissing(dir) => "log file dir=" + dir + " does not exist"
      case DirStatFailed(dir, cause) => "log file dir=" + dir + " stat error: " + cause
      case FileOpenFailed(path, cause) => "log file=" + path + " open error: " + cause;
    assert !e.SyslogConnFailed? ==> text[0] != ErrSyslogConnFailedText[0];
    text
  }

  /** newSyslog's default: a zero priority means LOG_INFO|LOG_SYSLOG. */
  function EffectivePriority(flags: int): (p: int)
    ensures p != 0
    ensures flags != 0 ==> p == flags
    ensures flags == 0 ==> p % 8 == LogInfo && p / 8 == LogSyslog / 8
  {
    if flags == 0 then LogInfo + LogSyslog else flags
  }

  /**
    checkFileDir: the parent directory must exist and be a directory. Each
    failure names the parent directory; a missing parent, a parent that is
    not a directory and any other stat error are told apart.
  */
  function CheckFileDir(path: string, host: Host): (err: Option<Error>)
    ensures err.None? <==> host.stat(host.dir(path)) == Found(true)
    ensures err.Some? ==> (err.value.NotDirectory? || err.value.DirMissing? || err.value.DirStatFailed?)
                          && err.value.dir == host.dir(path)
    ensures err.Some? ==> (err.value.DirMissing? <==> host.stat(host.dir(path)).Missing?)
                          && (err.value.DirStatFailed? <==> host.stat(host.dir(path)).StatFailed?)
  {
    var parentDir := host.dir(path);
    match host.stat(parentDir)
    case Found(isDir) => if isDir then None else Some(NotDirectory(parentDir))
    case Missing => Some(DirMissing(parentDir))
    case StatFailed(cause) => Some(DirStatFailed(parentDir, cause))
  }

  /** The effects of one construction step and what it produced. */
  datatype Step<T> = Step(effects: seq<Effect>, result: Result<T, Error>)

  /** newSysLogger (with newSyslog): one connection attempt; a failure wraps ErrSyslogConnFailed. */
  function DialStep(appName: string, flags: int, host: Host): Step<SyslogWriter> {
    var priority := EffectivePriority(flags);
    Step([SyslogDial(priority, appName)],
         match host.dialSyslog(priority, appName)
         case None => Success(SyslogWriter(priority, appName))
         case Some(cause) => Failure(SyslogConnFailed(cause)))
  }

  /** openLogFile: no path, no file; otherwise the directory is checked before the file is opened. */
  function OpenStep(path: string, host: Host): Step<Option<string>> {
    if path == "" then Step([], Success(None))
    else match CheckFileDir(path, host)
      case Some(err) => Step([], Failure(err))
      case None =>
        Step([FileOpen(path)],
             match host.openFile(path)
             case None => Success(Some(path))
             case Some(cause) => Failure(FileOpenFailed(path, cause)))
  }

  /** The position of a setup effect in construction order: syslog, then the file. */
  function SetupRank(e: Effect): nat {
    match e
    case SyslogDial(_, _) => 0
    case FileOpen(_) => 1
    case _ => 2
  }

  /**
    newLogger: syslog first, and only if enabled; then the file; the formatter
    is always set. Construction makes at most one connection attempt and opens
    at most one file, and never in the other order.
  */
  function Construct(appName: string, path: string, enableSyslog: bool, flags: int, host: Host): (b: Step<LoggerValue>)
    ensures forall i :: 0 <= i < |b.effects| ==> SetupRank(b.effects[i]) < 2
    ensures forall i, j :: 0 <= i < j < |b.effects| ==> SetupRank(b.effects[i]) < SetupRank(b.effects[j])
    ensures b.result.Success? ==> b.result.value.formatter
  {
    var syslog: Step<Option<SyslogWriter>> :=
      if !enableSyslog then Step([], Success(None))
      else
        var d := DialStep(appName, flags, host);
        Step(d.effects, if d.result.Success? then Success(Some(d.result.value)) else Failure(d.result.error));
    if syslog.result.Failure? then Step(syslog.effects, Failure(syslog.result.error))
    else
      var file := OpenStep(path, host);
      Step(syslog.effects + file.effects,
           if file.result.Success? then Success(LoggerValue(file.result.value, syslog.result.value, true))
           else Failure(file.result.error))
  }

  /** Syslog is reachable, or not asked for. */
  predicate SyslogOk(appName: string, enableSyslog: bool, flags: int, host: Host) {
    enableSyslog ==> host.dialSyslog(EffectivePriority(flags), appName).None?
  }

  /** Both setup projections of a trace of at most two setup effects. */
  lemma SetupSelect<X>(a: seq<Effect>, b: seq<Effect>, pick: Effect -> seq<X>)
    requires |a| <= 1 && |b| <= 1
    ensures Select(a + b, pick) == (if a == [] then [] else pick(a[0])) + (if b == [] then [] else pick(b[0]))
  {
    SelectAppend(a, b, pick);
    if a != [] { SelectOne(a[0], pick); }
    if b != [] { SelectOne(b[0], pick); }
  }

  /**
    Construction connects to syslog exactly when it is enabled, with the
    defaulted priority and the application name as tag, and opens the file
    exactly when syslog is fine, a path is given and its directory checks out.
  */
  lemma ConstructSetup(appName: string, path: string, enableSyslog: bool, flags: int, host: Host)
    ensures var b := Construct(appName, path, enableSyslog, flags, host);
      && Dialled(b.effects) == (if enableSyslog then [(EffectivePriority(flags), appName)] else [])
      && Opened(b.effects)
         == (if SyslogOk(appName, enableSyslog, flags, host) && path != "" && CheckFileDir(path, host).None?
             then [path] else [])
  {
    var d: seq<Effect> := if enableSyslog then [SyslogDial(EffectivePriority(flags), appName)] else [];
    var o: seq<Effect> :=
      if SyslogOk(appName, enableSyslog, flags, host) && path != "" && CheckFileDir(path, host).None?
      then [FileOpen(path)] else [];
    assert Construct(appName, path, enableSyslog, flags, host).effects == d + o;
    SetupSelect(d, o, SyslogDialled());
    SetupSelect(d, o, FileOpened());
  }

  /**
    Construction succeeds exactly when every step it takes succeeds, and then
    yields a logger with the formatter set, a syslog writer exactly when
    enabled, and a file sink exactly when a path was given.
  */
  lemma ConstructSucceeds(appName: string, path: string, enableSyslog: bool, flags: int, host: Host)
    ensures var b := Construct(appName, path, enableSyslog, flags, host);
      && (b.result.Success?
          <==> SyslogOk(appName, enableSyslog, flags, host)
               && (path != "" ==> CheckFileDir(path, host).None? && host.openFile(path).None?))
      && (b.result.Success? ==>
            b.result.value == LoggerValue(
              if path == "" then None else Some(path),
              if enableSyslog then Some(SyslogWriter(EffectivePriority(flags), appName)) else None,
              true))
  {
  }

  /**
    The errors of construction: a failed syslog connection is reported as a
    syslog setup error and no file is opened; a bad directory is reported as
    such before any open; an open failure is reported with the path. Without a
    path, the only possible error is the syslog one.
  */
  lemma ConstructFails(appName: string, path: string, enableSyslog: bool, flags: int, host: Host)
    ensures var b := Construct(appName, path, enableSyslog, flags, host);
      && (!SyslogOk(appName, enableSyslog, flags, host) ==>
            b.result == Failure(SyslogConnFailed(host.dialSyslog(EffectivePriority(flags), appName).value))
            && Opened(b.effects) == [])
      && (SyslogOk(appName, enableSyslog, flags, host) && path != "" && CheckFileDir(path, host).Some? ==>
            b.result == Failure(CheckFileDir(path, host).value) && Opened(b.effects) == [])
      && (SyslogOk(appName, enableSyslog, flags, host) && path != "" && CheckFileDir(path, host).None?
          && host.openFile(path).Some? ==>
            b.result == Failure(FileOpenFailed(path, host.openFile(path).value)))
      && (path == "" && b.result.Failure? ==> b.result.error.SyslogConnFailed?)
  {
    ConstructSetup(appName, path, enableSyslog, flags, host);
  }

  /** Unformatted lines never read the clock; this reading stands in for the one not taken. */
  const NoClock: Clock := Clock("", "")

  /**
    The process: the package-level `logger` variable, the fmt package it
    formats with, and the ordered effects it has had on files, the standard
    streams and syslog.
  */
  class Process {
    const fmt: Fmt
    var effects: seq<Effect>
    var global: Logger

    /** A process that has done nothing yet; its package-level logger is the zero Logger. */
    constructor (fmt: Fmt)
      ensures this.fmt == fmt && effects == []
      ensures fresh(global) && global.Value() == ZeroLogger
    {
      this.fmt := fmt;
      effects := [];
      global := new Logger(None, false);
    }
  }

  /**
    A Logger: its log file (nil: none), its syslog writer (nil: none), and
    whether its formatter is set (formatLog is the only one ever set).
  */
  class Logger {
    var fileWriter: Option<string>
    var syslogWriter: Option<SyslogWriter>
    var formatter: bool

    /** A Logger literal with no file; `new Logger(None, false)` is the zero Logger. */
    constructor (syslogWriter: Option<SyslogWriter>, formatter: bool)
      ensures Value() == LoggerValue(None, syslogWriter, formatter)
    {
      fileWriter := None;
      this.syslogWriter := syslogWriter;
      this.formatter := formatter;
    }

    /** The struct value, which `*l` copies. */
    function Value(): LoggerValue
      reads this
    {
      LoggerValue(fileWriter, syslogWriter, formatter)
    }

    /**
      openLogFile: with no path nothing happens; a bad directory is reported
      with no file opened and the logger untouched; otherwise the file is
      opened and the file sink set to it, or to nil if the open failed.
    */
    method OpenLogFile(p: Process, path: string, host: Host) returns (err: Option<Error>)
      modifies this`fileWriter, p`effects
      ensures p.effects == old(p.effects) + OpenStep(path, host).effects
      ensures err.None? <==> OpenStep(path, host).result.Success?
      ensures err.Some? ==> err.value == OpenStep(path, host).result.error
      ensures fileWriter
           == if path != "" && CheckFileDir(path, host).None? then
                (if host.openFile(path).None? then Some(path) else None)
              else old(fileWriter)
    {
      if path == "" {
        return None;
      }
      err := CheckFileDir(path, host);
      if err.Some? {
        return err;
      }
      p.effects := p.effects + [FileOpen(path)];
      var openErr := host.openFile(path);
      fileWriter := if openErr.None? then Some(path) else None;
      if openErr.Some? {
        return Some(FileOpenFailed(path, openErr.value));
      }
      return None;
    }

    /** printLog: Sprint the values, format if asked, then write to file, stream and syslog. */
    method PrintLog(p: Process, applyFormatting: bool, level: int, stream: Stream, s: seq<Arg>, now: Clock)
      modifies p`effects
      ensures p.effects == old(p.effects) + PrintLogEffects(Value(), applyFormatting, level, stream, s, p.fmt, now)
    {
      var msg := p.fmt.sprint(s);
      if applyFormatting {
        if !formatter {
          p.effects := p.effects + [Panic];
          return;
        }
        msg := FormatLog(level, msg, [], p.fmt, now);
      }
      assert msg == PrintLogLine(applyFormatting, level, s, p.fmt, now);
      if fileWriter.Some? {
        p.effects := p.effects + [FileAppend(fileWriter.value, msg)];
      }
      p.effects := p.effects + [StreamWrite(stream, msg)];
      WriteToSyslog(p, level, msg);
    }

    /** printLogf: format with the arguments, or Sprintf them; then write to file, stream and syslog. */
    method PrintLogf(p: Process, applyFormatting: bool, level: int, stream: Stream,
                     format: string, args: seq<Arg>, now: Clock)
      modifies p`effects
      ensures p.effects
           == old(p.effects) + PrintLogfEffects(Value(), applyFormatting, level, stream, format, args, p.fmt, now)
    {
      var msg;
      if applyFormatting {
        if !formatter {
          p.effects := p.effects + [Panic];
          return;
        }
        msg := FormatLog(level, format, args, p.fmt, now);
      } else {
        msg := p.fmt.sprintf(format, args);
      }
      assert msg == PrintLogfLine(applyFormatting, level, format, args, p.fmt, now);
      if fileWriter.Some? {
        p.effects := p.effects + [FileAppend(fileWriter.value, msg)];
      }
      p.effects := p.effects + [StreamWrite(stream, msg)];
      WriteToSyslog(p, level, msg);
    }

    /** writeToSyslog: nothing without a writer; otherwise one call, chosen by the level. */
    method WriteToSyslog(p: Process, level: int, msg: string)
      modifies p`effects
      ensures p.effects == old(p.effects) + SyslogEffects(syslogWriter, level, msg)
    {
      if syslogWriter.None? {
        return;
      }
      p.effects := p.effects + [SyslogSend(syslogWriter.value, SyslogMethodFor(level), msg)];
    }

    method Printf(p: Process, format: string, args: seq<Arg>)
      modifies p`effects
      ensures p.effects == old(p.effects) + CallfEffects(Value(), Entry.Printf, format, args, p.fmt, NoClock)
    {
      PrintLogf(p, false, LogInfo, Stdout, format, args, NoClock);
    }

    method Println(p: Process, s: seq<Arg>)
      modifies p`effects
      ensures p.effects == old(p.effects) + CallEffects(Value(), Entry.Println, s, p.fmt, NoClock)
    {
      PrintLog(p, false, LogInfo, Stdout, s, NoClock);
    }

    method Info(p: Process, s: seq<Arg>, now: Clock)
      modifies p`effects
      ensures p.effects == old(p.effects) + CallEffects(Value(), Entry.Info, s, p.fmt, now)
    {
      PrintLog(p, true, LogInfo, Stdout, s, now);
    }

    method Infof(p: Process, format: string, args: seq<Arg>, now: Clock)
      modifies p`effects
      ensures p.effects == old(p.effects) + CallfEffects(Value(), Entry.Infof, format, args, p.fmt, now)
    {
      PrintLogf(p, true, LogInfo, Stdout, format, args, now);
    }

    method Debug(p: Process, s: seq<Arg>, now: Clock)
      modifies p`effects
      ensures p.effects == old(p.effects) + CallEffects(Value(), Entry.Debug, s, p.fmt, now)
    {
      PrintLog(p, true, LogDebug, Stdout, s, now);
    }

    method Debugf(p: Process, format: string, args: seq<Arg>, now: Clock)
      modifies p`effects
      ensures p.effects == old(p.effects) + CallfEffects(Value(), Entry.Debugf, format, args, p.fmt, now)
    {
      PrintLogf(p, true, LogDebug, Stdout, format, args, now);
    }

    method Warn(p: Process, s: seq<Arg>, now: Clock)
      modifies p`effects
      ensures p.effects == old(p.effects) + CallEffects(Value(), Entry.Warn, s, p.fmt, now)
    {
      PrintLog(p, true, LogWarning, Stdout, s, now);
    }

    method Warnf(p: Process, format: string, args: seq<Arg>, now: Clock)
      modifies p`effects
      ensures p.effects == old(p.effects) + CallfEffects(Value(), Entry.Warnf, format, args, p.fmt, now)
    {
      PrintLogf(p, true, LogWarning, Stdout, format, args, now);
    }

    method Alert(p: Process, s: seq<Arg>, now: Clock)
      modifies p`effects
      ensures p.effects == old(p.effects) + CallEffects(Value(), Entry.Alert, s, p.fmt, now)
    {
      PrintLog(p, true, LogAlert, Stdout, s, now);
    }

    method Alertf(p: Process, format: string, args: seq<Arg>, now: Clock)
      modifies p`effects
      ensures p.effects == old(p.effects) + CallfEffects(Value(), Entry.Alertf, format, args, p.fmt, now)
    {
      PrintLogf(p, true, LogAlert, Stdout, format, args, now);
    }

    method Notice(p: Process, s: seq<Arg>, now: Clock)
      modifies p`effects
      ensures p.effects == old(p.effects) + CallEffects(Value(), Entry.Notice, s, p.fmt, now)
    {
      PrintLog(p, true, LogNotice, Stdout, s, now);
    }

    method Noticef(p: Process, format: string, args: seq<Arg>, now: Clock)
      modifies p`effects
      ensures p.effects == old(p.effects) + CallfEffects(Value(), Entry.Noticef, format, args, p.fmt, now)
    {
      PrintLogf(p, true, LogNotice, Stdout, format, args, now);
    }

    method Error(p: Process, s: seq<Arg>, now: Clock)
      modifies p`effects
      ensures p.effects == old(p.effects) + CallEffects(Value(), Entry.Error, s, p.fmt, now)
    {
      PrintLog(p, true, LogErr, Stderr, s, now);
    }

    method Errorf(p: Process, format: string, args: seq<Arg>, now: Clock)
      modifies p`effects
      ensures p.effects == old(p.effects) + CallfEffects(Value(), Entry.Errorf, format, args, p.fmt, now)
    {
      PrintLogf(p, true, LogErr, Stderr, format, args, now);
    }

    method Critical(p: Process, s: seq<Arg>, now: Clock)
      modifies p`effects
      ensures p.effects == old(p.effects) + CallEffects(Value(), Entry.Critical, s, p.fmt, now)
    {
      PrintLog(p, true, LogCrit, Stderr, s, now);
    }

    method Criticalf(p: Process, format: string, args: seq<Arg>, now: Clock)
      modifies p`effects
      ensures p.effects == old(p.effects) + CallfEffects(Value(), Entry.Criticalf, format, args, p.fmt, now)
    {
      PrintLogf(p, true, LogCrit, Stderr, format, args, now);
    }

    method Emergency(p: Process, s: seq<Arg>, now: Clock)
      modifies p`effects
      ensures p.effects == old(p.effects) + CallEffects(Value(), Entry.Emergency, s, p.fmt, now)
    {
      PrintLog(p, true, LogEmerg, Stderr, s, now);
    }

    method Emergancyf(p: Process, format: string, args: seq<Arg>, now: Clock)
      modifies p`effects
      ensures p.effects == old(p.effects) + CallfEffects(Value(), Entry.Emergancyf, format, args, p.fmt, now)
    {
      PrintLogf(p, true, LogEmerg, Stderr, format, args, now);
    }
  }

  /** newSyslog: one connection attempt with the defaulted priority, tagged with the application name. */
  method NewSyslog(p: Process, appName: string, flags: int, host: Host) returns (r: Result<SyslogWriter, string>)
    modifies p`effects
    ensures p.effects == old(p.effects) + [SyslogDial(EffectivePriority(flags), appName)]
    ensures r.Success? <==> host.dialSyslog(EffectivePriority(flags), appName).None?
    ensures r.Success? ==> r.value == SyslogWriter(EffectivePriority(flags), appName)
    ensures r.Failure? ==> r.error == host.dialSyslog(EffectivePriority(flags), appName).value
  {
    var priority := EffectivePriority(flags);
    p.effects := p.effects + [SyslogDial(priority, appName)];
    var err := host.dialSyslog(priority, appName);
    if err.Some? {
      return Failure(err.value);
    }
    return Success(SyslogWriter(priority, appName));
  }

  /** newSysLogger: newSyslog, with a failure wrapped as a syslog setup error. */
  method NewSysLogger(p: Process, appName: string, flags: int, host: Host) returns (r: Result<SyslogWriter, Error>)
    modifies p`effects
    ensures p.effects == old(p.effects) + DialStep(appName, flags, host).effects
    ensures r == DialStep(appName, flags, host).result
  {
    var w := NewSyslog(p, appName, flags, host);
    if w.Failure? {
      return Failure(SyslogConnFailed(w.error));
    }
    return Success(w.value);
  }

  /** newLogger: the logger Construct describes, freshly allocated, or the error it reports. */
  method BuildLogger(p: Process, appName: string, path: string, enableSyslog: bool, flags: int, host: Host)
    returns (l: Logger?, err: Option<Error>)
    modifies p`effects
    ensures p.effects == old(p.effects) + Construct(appName, path, enableSyslog, flags, host).effects
    ensures l == null <==> err.Some?
    ensures l != null ==> fresh(l) && Construct(appName, path, enableSyslog, flags, host).result == Success(l.Value())
    ensures err.Some? ==> Construct(appName, path, enableSyslog, flags, host).result == Failure(err.value)
  {
    var syslogWriter: Option<SyslogWriter> := None;
    if enableSyslog {
      var r := NewSysLogger(p, appName, flags, host);
      if r.Failure? {
        return null, Some(r.error);
      }
      syslogWriter := Some(r.value);
    }
    var logger := new Logger(syslogWriter, true);
    err := logger.OpenLogFile(p, path, host);
    if err.Some? {
      return null, err;
    }
    return logger, None;
  }

  /** NewLogger: newLogger, returning nil with the error on failure. */
  method NewLogger(p: Process, appName: string, path: string, enableSyslog: bool, flags: int, host: Host)
    returns (l: Logger?, err: Option<Error>)
    modifies p`effects
    ensures p.effects == old(p.effects) + Construct(appName, path, enableSyslog, flags, host).effects
    ensures l == null <==> err.Some?
    ensures l != null ==> fresh(l) && Construct(appName, path, enableSyslog, flags, host).result == Success(l.Value())
    ensures err.Some? ==> Construct(appName, path, enableSyslog, flags, host).result == Failure(err.value)
  {
    l, err := BuildLogger(p, appName, path, enableSyslog, flags, host);
    if err.Some? {
      return null, err;
    }
  }

  /** What the OrFatal constructors do on an error: print it on stderr, then exit with status 1. */
  function Fatal(e: Error): seq<Effect> {
    [StreamWrite(Stderr, ErrorText(e)), Exit(1)]
  }

  /** NewLoggerOrFatal: NewLogger, or the error on stderr and exit status 1. */
  method NewLoggerOrFatal(p: Process, appName: string, path: string, enableSyslog: bool, flags: int, host: Host)
    returns (l: Logger?)
    modifies p`effects
    ensures var b := Construct(appName, path, enableSyslog, flags, host);
      && (b.result.Success? ==>
            l != null && fresh(l) && l.Value() == b.result.value && p.effects == old(p.effects) + b.effects)
      && (b.result.Failure? ==>
            l == null && p.effects == old(p.effects) + b.effects + Fatal(b.result.error))
  {
    var err;
    l, err := NewLogger(p, appName, path, enableSyslog, flags, host);
    if err.Some? {
      p.effects := p.effects + [StreamWrite(Stderr, ErrorText(err.value))];
      p.effects := p.effects + [Exit(1)];
      return null;
    }
  }
}
