/**
  The dispatch engine as specification functions (logger.go, printLog,
  printLogf, writeToSyslog and the per-level methods): what line one call
  renders, and which writes it makes, in which order.
*/
module Dispatch {
  import opened Options
  import opened Severity
  import opened Format
  import opened Effects

  /**
    The value of a Logger struct: the log file it appends to (nil: none), its
    syslog writer (nil: none), and whether its formatter is set. The only
    formatter ever installed is formatLog; a zero Logger has none.
  */
  datatype LoggerValue = LoggerValue(fileWriter: Option<string>, syslogWriter: Option<SyslogWriter>, formatter: bool)

  /** The Logger zero value, which the package-level logger holds until one is installed. */
  const ZeroLogger := LoggerValue(None, None, false)

  /** The line printLog renders: Sprint of the values, decorated by the formatter with no arguments. */
  function PrintLogLine(applyFormatting: bool, level: int, s: seq<Arg>, fmt: Fmt, now: Clock): string {
    var msg := fmt.sprint(s);
    if applyFormatting then FormatLog(level, msg, [], fmt, now) else msg
  }

  /** The line printLogf renders: the template through the formatter, or through Sprintf. */
  function PrintLogfLine(applyFormatting: bool, level: int, msg: string, args: seq<Arg>, fmt: Fmt, now: Clock): string {
    if applyFormatting then FormatLog(level, msg, args, fmt, now) else fmt.sprintf(msg, args)
  }

  /**
    printLog's line is the bare Sprint text, or a formatted line whose message
    is that text: with no arguments passed to the formatter it is never
    interpolated.
  */
  lemma PrintLogLineParses(applyFormatting: bool, level: int, s: seq<Arg>, fmt: Fmt, now: Clock)
    ensures var line := PrintLogLine(applyFormatting, level, s, fmt, now);
      && (applyFormatting ==>
            ParseLine(line, |now.zone|, |now.stamp|)
              == Some(LineFields(if IsSeverity(level) then Some(level) else None, now.zone, now.stamp, fmt.sprint(s))))
      && (!applyFormatting ==> line == fmt.sprint(s))
  {
    FormatLogParses(level, fmt.sprint(s), [], fmt, now);
  }

  /**
    printLogf's formatted line interpolates the template only when there are
    arguments, while its unformatted line always goes through Sprintf.
  */
  lemma PrintLogfLineParses(applyFormatting: bool, level: int, msg: string, args: seq<Arg>, fmt: Fmt, now: Clock)
    ensures var line := PrintLogfLine(applyFormatting, level, msg, args, fmt, now);
      && (applyFormatting ==>
            ParseLine(line, |now.zone|, |now.stamp|)
              == Some(LineFields(if IsSeverity(level) then Some(level) else None, now.zone, now.stamp,
                                 if |args| > 0 then fmt.sprintf(msg, args) else msg)))
      && (!applyFormatting ==> line == fmt.sprintf(msg, args))
  {
    FormatLogParses(level, msg, args, fmt, now);
  }

  /** The Sprint text of printLog is never run through Sprintf, formatted or not. */
  lemma PrintLogIgnoresSprintf(applyFormatting: bool, level: int, s: seq<Arg>, fmt: Fmt, now: Clock,
                               other: (string, seq<Arg>) -> string)
    ensures PrintLogLine(applyFormatting, level, s, fmt, now)
         == PrintLogLine(applyFormatting, level, s, fmt.(sprintf := other), now)
  {
  }

  /** writeToSyslog: nothing without a writer, otherwise one call to the method the level selects. */
  function SyslogEffects(w: Option<SyslogWriter>, level: int, msg: string): (e: seq<Effect>)
    ensures w.None? ==> e == []
    ensures w.Some? ==> SyslogCalls(e) == [(SyslogMethodFor(level), msg)] && |e| == 1
  {
    if w.None? then []
    else
      var e := [SyslogSend(w.value, SyslogMethodFor(level), msg)];
      SelectOne(e[0], ToSyslog());
      e
  }

  /**
    The writes of one dispatch of a rendered line: the file sink if attached,
    the chosen stream, then syslog if attached. Every write carries the line,
    and they come in strictly increasing sink order, so each sink is written
    at most once and no effect other than a sink write occurs.
  */
  function Fanout(v: LoggerValue, level: int, stream: Stream, line: string): (e: seq<Effect>)
    ensures |e| == 1 + (if v.fileWriter.Some? then 1 else 0) + (if v.syslogWriter.Some? then 1 else 0)
    ensures forall i :: 0 <= i < |e| ==> SinkRank(e[i]) < 3 && Written(e[i]) == line
    ensures forall i, j :: 0 <= i < j < |e| ==> SinkRank(e[i]) < SinkRank(e[j])
    ensures SinkRank(e[0]) == 0 <==> v.fileWriter.Some?
    ensures SinkRank(e[|e| - 1]) == 2 <==> v.syslogWriter.Some?
  {
    FileEffects(v.fileWriter, line) + [StreamWrite(stream, line)] + SyslogEffects(v.syslogWriter, level, line)
  }

  function FileEffects(f: Option<string>, line: string): seq<Effect> {
    if f.Some? then [FileAppend(f.value, line)] else []
  }

  /** Any projection of a fan-out is the projection of its three parts. */
  lemma FanoutSelect<X>(v: LoggerValue, level: int, stream: Stream, line: string, pick: Effect -> seq<X>)
    ensures Select(Fanout(v, level, stream, line), pick)
         == (if v.fileWriter.Some? then pick(FileAppend(v.fileWriter.value, line)) else [])
          + pick(StreamWrite(stream, line))
          + (if v.syslogWriter.Some? then pick(SyslogSend(v.syslogWriter.value, SyslogMethodFor(level), line)) else [])
  {
    var f := FileEffects(v.fileWriter, line);
    var w := [StreamWrite(stream, line)];
    var y := SyslogEffects(v.syslogWriter, level, line);
    SelectAppend(f + w, y, pick);
    SelectAppend(f, w, pick);
    SelectOne(w[0], pick);
    if f != [] { SelectOne(f[0], pick); }
    if y != [] { SelectOne(y[0], pick); }
  }

  /** printLog: a formatted call through a nil formatter panics before any write. */
  function PrintLogEffects(v: LoggerValue, applyFormatting: bool, level: int, stream: Stream,
                           s: seq<Arg>, fmt: Fmt, now: Clock): seq<Effect>
  {
    if applyFormatting && !v.formatter then [Panic]
    else Fanout(v, level, stream, PrintLogLine(applyFormatting, level, s, fmt, now))
  }

  /** printLogf, likewise. */
  function PrintLogfEffects(v: LoggerValue, applyFormatting: bool, level: int, stream: Stream,
                            msg: string, args: seq<Arg>, fmt: Fmt, now: Clock): seq<Effect>
  {
    if applyFormatting && !v.formatter then [Panic]
    else Fanout(v, level, stream, PrintLogfLine(applyFormatting, level, msg, args, fmt, now))
  }

  /** One dispatch writes exactly one line to the chosen stream and none to the other. */
  lemma FanoutStreams(t: seq<Effect>, v: LoggerValue, level: int, stream: Stream, line: string)
    ensures LinesOn(t + Fanout(v, level, stream, line), stream) == LinesOn(t, stream) + [line]
    ensures LinesOn(t + Fanout(v, level, stream, line), Other(stream)) == LinesOn(t, Other(stream))
  {
    var e := Fanout(v, level, stream, line);
    SelectAppend(t, e, OnStream(stream));
    FanoutSelect(v, level, stream, line, OnStream(stream));
    SelectAppend(t, e, OnStream(Other(stream)));
    FanoutSelect(v, level, stream, line, OnStream(Other(stream)));
  }

  /** One dispatch appends exactly one line to the attached file, and nothing to any other file. */
  lemma FanoutFiles(t: seq<Effect>, v: LoggerValue, level: int, stream: Stream, line: string, path: string)
    ensures FileContents(t + Fanout(v, level, stream, line), path)
         == FileContents(t, path) + (if v.fileWriter == Some(path) then [line] else [])
  {
    SelectAppend(t, Fanout(v, level, stream, line), InFile(path));
    FanoutSelect(v, level, stream, line, InFile(path));
  }

  /** One dispatch makes one syslog call, with the method the level selects, when a writer is attached, and none otherwise. */
  lemma FanoutSyslog(t: seq<Effect>, v: LoggerValue, level: int, stream: Stream, line: string)
    ensures SyslogCalls(t + Fanout(v, level, stream, line))
         == SyslogCalls(t) + (if v.syslogWriter.Some? then [(SyslogMethodFor(level), line)] else [])
  {
    SelectAppend(t, Fanout(v, level, stream, line), ToSyslog());
    FanoutSelect(v, level, stream, line, ToSyslog());
  }

  /** One dispatch neither opens a file nor connects to syslog. */
  lemma FanoutNoSetup(t: seq<Effect>, v: LoggerValue, level: int, stream: Stream, line: string)
    ensures Opened(t + Fanout(v, level, stream, line)) == Opened(t)
    ensures Dialled(t + Fanout(v, level, stream, line)) == Dialled(t)
  {
    var e := Fanout(v, level, stream, line);
    SelectAppend(t, e, FileOpened());
    FanoutSelect(v, level, stream, line, FileOpened());
    SelectAppend(t, e, SyslogDialled());
    FanoutSelect(v, level, stream, line, SyslogDialled());
  }

  /** The public entry points of a Logger (and the same-named package functions). */
  datatype Entry =
    | Printf | Println
    | Info | Infof | Debug | Debugf | Warn | Warnf | Alert | Alertf | Notice | Noticef
    | Error | Errorf | Critical | Criticalf | Emergency | Emergancyf

  /** What an entry point passes to printLog or printLogf. */
  datatype Route = Route(format: bool, level: int, stream: Stream)

  predicate ToStderr(e: Entry) {
    e in {Entry.Error, Entry.Errorf, Entry.Critical, Entry.Criticalf, Entry.Emergency, Entry.Emergancyf}
  }

  predicate Unformatted(e: Entry) {
    e == Entry.Printf || e == Entry.Println
  }

  /** The entry points that take values (and go through printLog) rather than a template. */
  predicate Variadic(e: Entry) {
    e in {Entry.Println, Entry.Info, Entry.Debug, Entry.Warn, Entry.Alert, Entry.Notice,
          Entry.Error, Entry.Critical, Entry.Emergency}
  }

  /** The routing table of the per-level methods. */
  function RouteOf(e: Entry): (r: Route)
    ensures IsSeverity(r.level)
    ensures r.stream == Stderr <==> ToStderr(e)
    ensures !r.format <==> Unformatted(e)
    ensures Unformatted(e) ==> r.level == LogInfo
  {
    match e
    case Printf => Route(false, LogInfo, Stdout)
    case Println => Route(false, LogInfo, Stdout)
    case Info => Route(true, LogInfo, Stdout)
    case Infof => Route(true, LogInfo, Stdout)
    case Debug => Route(true, LogDebug, Stdout)
    case Debugf => Route(true, LogDebug, Stdout)
    case Warn => Route(true, LogWarning, Stdout)
    case Warnf => Route(true, LogWarning, Stdout)
    case Alert => Route(true, LogAlert, Stdout)
    case Alertf => Route(true, LogAlert, Stdout)
    case Notice => Route(true, LogNotice, Stdout)
    case Noticef => Route(true, LogNotice, Stdout)
    case Error => Route(true, LogErr, Stderr)
    case Errorf => Route(true, LogErr, Stderr)
    case Critical => Route(true, LogCrit, Stderr)
    case Criticalf => Route(true, LogCrit, Stderr)
    case Emergency => Route(true, LogEmerg, Stderr)
    case Emergancyf => Route(true, LogEmerg, Stderr)
  }

  /** The effects of a variadic entry point (Println, Info, ...). */
  function CallEffects(v: LoggerValue, e: Entry, s: seq<Arg>, fmt: Fmt, now: Clock): seq<Effect> {
    var r := RouteOf(e);
    PrintLogEffects(v, r.format, r.level, r.stream, s, fmt, now)
  }

  /** The effects of a template entry point (Printf, Infof, ...). */
  function CallfEffects(v: LoggerValue, e: Entry, format: string, args: seq<Arg>, fmt: Fmt, now: Clock): seq<Effect> {
    var r := RouteOf(e);
    PrintLogfEffects(v, r.format, r.level, r.stream, format, args, fmt, now)
  }

  /**
    A call on a logger with a formatter writes one line to the routed stream,
    to the file if attached, and to syslog if attached; the printed level
    column of a formatted entry reads back as the routed level, and an
    unformatted entry goes to syslog as Info.
  */
  lemma EntryDelivers(t: seq<Effect>, v: LoggerValue, e: Entry, s: seq<Arg>, fmt: Fmt, now: Clock)
    requires v.formatter && Variadic(e)
    ensures var line := PrintLogLine(RouteOf(e).format, RouteOf(e).level, s, fmt, now);
            var t' := t + CallEffects(v, e, s, fmt, now);
      && LinesOn(t', if ToStderr(e) then Stderr else Stdout) == LinesOn(t, if ToStderr(e) then Stderr else Stdout) + [line]
      && (v.fileWriter.Some? ==> FileContents(t', v.fileWriter.value) == FileContents(t, v.fileWriter.value) + [line])
      && (v.syslogWriter.Some? ==> SyslogCalls(t') == SyslogCalls(t) + [(SyslogMethodFor(RouteOf(e).level), line)])
      && (Unformatted(e) ==> line == fmt.sprint(s) && SyslogMethodFor(RouteOf(e).level) == SyslogMethod.Info)
      && (!Unformatted(e) ==> ParseLine(line, |now.zone|, |now.stamp|).value.level == Some(RouteOf(e).level))
  {
    var r := RouteOf(e);
    var line := PrintLogLine(r.format, r.level, s, fmt, now);
    PrintLogLineParses(r.format, r.level, s, fmt, now);
    FanoutStreams(t, v, r.level, r.stream, line);
    if v.fileWriter.Some? {
      FanoutFiles(t, v, r.level, r.stream, line, v.fileWriter.value);
    }
    FanoutSyslog(t, v, r.level, r.stream, line);
  }

  /**
    The template entry points likewise: one line to the routed stream, the
    file and syslog; a formatted line reads back with the routed level and
    interpolates the template only when there are arguments, and Printf's line
    is the Sprintf rendering, sent to syslog as Info.
  */
  lemma EntryfDelivers(t: seq<Effect>, v: LoggerValue, e: Entry, format: string, args: seq<Arg>, fmt: Fmt, now: Clock)
    requires v.formatter && !Variadic(e)
    ensures var line := PrintLogfLine(RouteOf(e).format, RouteOf(e).level, format, args, fmt, now);
            var t' := t + CallfEffects(v, e, format, args, fmt, now);
      && LinesOn(t', if ToStderr(e) then Stderr else Stdout) == LinesOn(t, if ToStderr(e) then Stderr else Stdout) + [line]
      && (v.fileWriter.Some? ==> FileContents(t', v.fileWriter.value) == FileContents(t, v.fileWriter.value) + [line])
      && (v.syslogWriter.Some? ==> SyslogCalls(t') == SyslogCalls(t) + [(SyslogMethodFor(RouteOf(e).level), line)])
      && (Unformatted(e) ==> line == fmt.sprintf(format, args) && SyslogMethodFor(RouteOf(e).level) == SyslogMethod.Info)
      && (!Unformatted(e) ==>
            ParseLine(line, |now.zone|, |now.stamp|)
              == Some(LineFields(Some(RouteOf(e).level), now.zone, now.stamp,
                                 if |args| > 0 then fmt.sprintf(format, args) else format)))
  {
    var r := RouteOf(e);
    var line := PrintLogfLine(r.format, r.level, format, args, fmt, now);
    PrintLogfLineParses(r.format, r.level, format, args, fmt, now);
    FanoutStreams(t, v, r.level, r.stream, line);
    if v.fileWriter.Some? {
      FanoutFiles(t, v, r.level, r.stream, line, v.fileWriter.value);
    }
    FanoutSyslog(t, v, r.level, r.stream, line);
  }

  /** A zero-value logger still serves Println, but panics, writing nothing, on a formatted variadic call. */
  lemma ZeroLoggerFormattedPanics(e: Entry, s: seq<Arg>, fmt: Fmt, now: Clock)
    requires Variadic(e)
    ensures !Unformatted(e) ==> CallEffects(ZeroLogger, e, s, fmt, now) == [Panic]
    ensures Unformatted(e) ==> CallEffects(ZeroLogger, e, s, fmt, now) == [StreamWrite(Stdout, fmt.sprint(s))]
  {
  }

  /** A zero-value logger still serves Printf with its Sprintf text, but panics, writing nothing, on a formatted template call. */
  lemma ZeroLoggerTemplatePanics(e: Entry, format: string, args: seq<Arg>, fmt: Fmt, now: Clock)
    requires !Variadic(e)
    ensures !Unformatted(e) ==> CallfEffects(ZeroLogger, e, format, args, fmt, now) == [Panic]
    ensures Unformatted(e) ==> CallfEffects(ZeroLogger, e, format, args, fmt, now) == [StreamWrite(Stdout, fmt.sprintf(format, args))]
  {
  }
}
