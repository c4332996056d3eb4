/**
  The package-level default logger (logger.go): installing a constructed
  logger by copy, and the package functions that forward to it.
*/
module DefaultLogger {
  import opened Options
  import opened Format
  import opened Effects
  import opened Dispatch
  import opened Severity
  import opened Logging

  /**
    NewGlobalLogger: construct as newLogger does; on success copy the new
    logger into the package-level logger, on error leave it as it was.
  */
  method NewGlobalLogger(p: Process, appName: string, path: string, enableSyslog: bool, flags: int, host: Host)
    returns (err: Option<Error>)
    modifies p`effects, p.global
    ensures p.effects == old(p.effects) + Construct(appName, path, enableSyslog, flags, host).effects
    ensures var r := Construct(appName, path, enableSyslog, flags, host).result;
      && (r.Success? ==> err == None && p.global.Value() == r.value)
      && (r.Failure? ==> err == Some(r.error) && p.global.Value() == old(p.global.Value()))
  {
    var l;
    l, err := BuildLogger(p, appName, path, enableSyslog, flags, host);
    if err.Some? {
      return err;
    }
    Install(p, l);
    return None;
  }

  /**
    NewGlobalLoggerOrFatal: as NewGlobalLogger, but an error is printed on
    stderr and the process exits with status 1, the global untouched.
  */
  method NewGlobalLoggerOrFatal(p: Process, appName: string, path: string, enableSyslog: bool, flags: int, host: Host)
    modifies p`effects, p.global
    ensures var b := Construct(appName, path, enableSyslog, flags, host);
      && (b.result.Success? ==> p.global.Value() == b.result.value && p.effects == old(p.effects) + b.effects)
      && (b.result.Failure? ==>
            p.global.Value() == old(p.global.Value()) && p.effects == old(p.effects) + b.effects + Fatal(b.result.error))
  {
    var l, err := BuildLogger(p, appName, path, enableSyslog, flags, host);
    if err.Some? {
      p.effects := p.effects + [StreamWrite(Stderr, ErrorText(err.value))];
      p.effects := p.effects + [Exit(1)];
      return;
    }
    Install(p, l);
  }

  /** `logger = *l`: the package-level logger becomes a copy of l's fields. */
  method Install(p: Process, l: Logger)
    modifies p.global
    ensures p.global.Value() == l.Value()
  {
    p.global.fileWriter := l.fileWriter;
    p.global.syslogWriter := l.syslogWriter;
    p.global.formatter := l.formatter;
  }

  /** The package-level Printf: the same call on the package-level logger. */
  method Printf(p: Process, format: string, args: seq<Arg>)
    modifies p`effects
    ensures p.effects == old(p.effects) + CallfEffects(p.global.Value(), Entry.Printf, format, args, p.fmt, NoClock)
  {
    p.global.PrintLogf(p, false, LogInfo, Stdout, format, args, NoClock);
  }

  /** The package-level Println: the same call on the package-level logger. */
  method Println(p: Process, s: seq<Arg>)
    modifies p`effects
    ensures p.effects == old(p.effects) + CallEffects(p.global.Value(), Entry.Println, s, p.fmt, NoClock)
  {
    p.global.PrintLog(p, false, LogInfo, Stdout, s, NoClock);
  }

  /** The package-level Info: the same call on the package-level logger. */
  method Info(p: Process, s: seq<Arg>, now: Clock)
    modifies p`effects
    ensures p.effects == old(p.effects) + CallEffects(p.global.Value(), Entry.Info, s, p.fmt, now)
  {
    p.global.Info(p, s, now);
  }

  /** The package-level Infof: the same call on the package-level logger. */
  method Infof(p: Process, format: string, args: seq<Arg>, now: Clock)
    modifies p`effects
    ensures p.effects == old(p.effects) + CallfEffects(p.global.Value(), Entry.Infof, format, args, p.fmt, now)
  {
    p.global.Infof(p, format, args, now);
  }

  /** The package-level Debug: the same call on the package-level logger. */
  method Debug(p: Process, s: seq<Arg>, now: Clock)
    modifies p`effects
    ensures p.effects == old(p.effects) + CallEffects(p.global.Value(), Entry.Debug, s, p.fmt, now)
  {
    p.global.Debug(p, s, now);
  }

  /** The package-level Debugf: the same call on the package-level logger. */
  method Debugf(p: Process, format: string, args: seq<Arg>, now: Clock)
    modifies p`effects
    ensures p.effects == old(p.effects) + CallfEffects(p.global.Value(), Entry.Debugf, format, args, p.fmt, now)
  {
    p.global.Debugf(p, format, args, now);
  }

  /** The package-level Warn: the same call on the package-level logger. */
  method Warn(p: Process, s: seq<Arg>, now: Clock)
    modifies p`effects
    ensures p.effects == old(p.effects) + CallEffects(p.global.Value(), Entry.Warn, s, p.fmt, now)
  {
    p.global.Warn(p, s, now);
  }

  /** The package-level Warnf: the same call on the package-level logger. */
  method Warnf(p: Process, format: string, args: seq<Arg>, now: Clock)
    modifies p`effects
    ensures p.effects == old(p.effects) + CallfEffects(p.global.Value(), Entry.Warnf, format, args, p.fmt, now)
  {
    p.global.Warnf(p, format, args, now);
  }

  /** The package-level Alert: the same call on the package-level logger. */
  method Alert(p: Process, s: seq<Arg>, now: Clock)
    modifies p`effects
    ensures p.effects == old(p.effects) + CallEffects(p.global.Value(), Entry.Alert, s, p.fmt, now)
  {
    p.global.Alert(p, s, now);
  }

  /** The package-level Alertf: the same call on the package-level logger. */
  method Alertf(p: Process, format: string, args: seq<Arg>, now: Clock)
    modifies p`effects
    ensures p.effects == old(p.effects) + CallfEffects(p.global.Value(), Entry.Alertf, format, args, p.fmt, now)
  {
    p.global.Alertf(p, format, args, now);
  }

  /** The package-level Notice: the same call on the package-level logger. */
  method Notice(p: Process, s: seq<Arg>, now: Clock)
    modifies p`effects
    ensures p.effects == old(p.effects) + CallEffects(p.global.Value(), Entry.Notice, s, p.fmt, now)
  {
    p.global.Notice(p, s, now);
  }

  /** The package-level Noticef: the same call on the package-level logger. */
  method Noticef(p: Process, format: string, args: seq<Arg>, now: Clock)
    modifies p`effects
    ensures p.effects == old(p.effects) + CallfEffects(p.global.Value(), Entry.Noticef, format, args, p.fmt, now)
  {
    p.global.Noticef(p, format, args, now);
  }

  /** The package-level Error: the same call on the package-level logger. */
  method Error(p: Process, s: seq<Arg>, now: Clock)
    modifies p`effects
    ensures p.effects == old(p.effects) + CallEffects(p.global.Value(), Entry.Error, s, p.fmt, now)
  {
    p.global.Error(p, s, now);
  }

  /** The package-level Errorf: the same call on the package-level logger. */
  method Errorf(p: Process, format: string, args: seq<Arg>, now: Clock)
    modifies p`effects
    ensures p.effects == old(p.effects) + CallfEffects(p.global.Value(), Entry.Errorf, format, args, p.fmt, now)
  {
    p.global.Errorf(p, format, args, now);
  }

  /** The package-level Critical: the same call on the package-level logger. */
  method Critical(p: Process, s: seq<Arg>, now: Clock)
    modifies p`effects
    ensures p.effects == old(p.effects) + CallEffects(p.global.Value(), Entry.Critical, s, p.fmt, now)
  {
    p.global.Critical(p, s, now);
  }

  /** The package-level Criticalf: the same call on the package-level logger. */
  method Criticalf(p: Process, format: string, args: seq<Arg>, now: Clock)
    modifies p`effects
    ensures p.effects == old(p.effects) + CallfEffects(p.global.Value(), Entry.Criticalf, format, args, p.fmt, now)
  {
    p.global.Criticalf(p, format, args, now);
  }

  /** The package-level Emergency: the same call on the package-level logger. */
  method Emergency(p: Process, s: seq<Arg>, now: Clock)
    modifies p`effects
    ensures p.effects == old(p.effects) + CallEffects(p.global.Value(), Entry.Emergency, s, p.fmt, now)
  {
    p.global.Emergency(p, s, now);
  }

  /** The package-level Emergancyf: the same call on the package-level logger. */
  method Emergancyf(p: Process, format: string, args: seq<Arg>, now: Clock)
    modifies p`effects
    ensures p.effects == old(p.effects) + CallfEffects(p.global.Value(), Entry.Emergancyf, format, args, p.fmt, now)
  {
    p.global.Emergancyf(p, format, args, now);
  }
}
