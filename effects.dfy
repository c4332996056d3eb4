/**
  What the logger does to the world outside the process, as one ordered
  trace: connecting to syslog, opening the log file, appending a line to it,
  writing a line to stdout or stderr, sending a message through a syslog
  writer, exiting and panicking. The contents of each sink are projections of
  that trace, so the order in which one call reaches the sinks is visible.
*/
module Effects {
  import opened Severity

  datatype Stream = Stdout | Stderr

  /** An open syslog connection: the priority (facility and severity mask) and tag it was opened with. */
  datatype SyslogWriter = SyslogWriter(priority: int, tag: string)

  datatype Effect =
    | SyslogDial(priority: int, tag: string)                            // syslog.New
    | FileOpen(path: string)                                            // os.OpenFile, append mode
    | FileAppend(path: string, line: string)                            // fmt.Fprintln to the log file
    | StreamWrite(stream: Stream, line: string)                         // fmt.Fprintln to os.Stdout or os.Stderr
    | SyslogSend(writer: SyslogWriter, via: SyslogMethod, msg: string)    // one syslog.Writer method call
    | Exit(code: int)                                                   // os.Exit
    | Panic                                                             // a nil function called

  /** The items a projection picks out of a trace, in trace order. */
  function Select<X>(t: seq<Effect>, pick: Effect -> seq<X>): seq<X> {
    if t == [] then [] else pick(t[0]) + Select(t[1..], pick)
  }

  lemma {:induction false} SelectAppend<X>(a: seq<Effect>, b: seq<Effect>, pick: Effect -> seq<X>)
    ensures Select(a + b, pick) == Select(a, pick) + Select(b, pick)
  {
    if a != [] {
      assert (a + b)[1..] == a[1..] + b;
      SelectAppend(a[1..], b, pick);
    } else {
      assert a + b == b;
    }
  }

  lemma SelectOne<X>(e: Effect, pick: Effect -> seq<X>)
    ensures Select([e], pick) == pick(e)
  {
    assert [e][1..] == [];
  }

  function OnStream(s: Stream): Effect -> seq<string> {
    (e: Effect) => if e.StreamWrite? && e.stream == s then [e.line] else []
  }

  function InFile(path: string): Effect -> seq<string> {
    (e: Effect) => if e.FileAppend? && e.path == path then [e.line] else []
  }

  function ToSyslog(): Effect -> seq<(SyslogMethod, string)> {
    (e: Effect) => if e.SyslogSend? then [(e.via, e.msg)] else []
  }

  function FileOpened(): Effect -> seq<string> {
    (e: Effect) => if e.FileOpen? then [e.path] else []
  }

  function SyslogDialled(): Effect -> seq<(int, string)> {
    (e: Effect) => if e.SyslogDial? then [(e.priority, e.tag)] else []
  }

  /** Lines written to a standard stream. */
  function LinesOn(t: seq<Effect>, s: Stream): seq<string> {
    Select(t, OnStream(s))
  }

  /** Lines appended to the log file at a path. */
  function FileContents(t: seq<Effect>, path: string): seq<string> {
    Select(t, InFile(path))
  }

  /** Syslog writer calls: which method, with which message. */
  function SyslogCalls(t: seq<Effect>): seq<(SyslogMethod, string)> {
    Select(t, ToSyslog())
  }

  /** Paths of the files opened. */
  function Opened(t: seq<Effect>): seq<string> {
    Select(t, FileOpened())
  }

  /** Syslog connections attempted. */
  function Dialled(t: seq<Effect>): seq<(int, string)> {
    Select(t, SyslogDialled())
  }

  /** The position of a write in the fixed dispatch order: file, then stream, then syslog. */
  function SinkRank(e: Effect): nat {
    match e
    case FileAppend(_, _) => 0
    case StreamWrite(_, _) => 1
    case SyslogSend(_, _, _) => 2
    case _ => 3
  }

  /** The text a sink write carries; other effects carry none. */
  function Written(e: Effect): string {
    match e
    case FileAppend(_, line) => line
    case StreamWrite(_, line) => line
    case SyslogSend(_, _, msg) => msg
    case _ => ""
  }

  function Other(s: Stream): Stream {
    if s == Stdout then Stderr else Stdout
  }
}
