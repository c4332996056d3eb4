/**
  The line formatter (logger.go, formatLog): a 7-wide level column, the time
  zone, the time stamp and the message, separated by " | ". The message is
  interpolated with its arguments only when there are some.
*/
module Format {
  import opened Options
  import opened Severity

  /** A value passed through Go's `...any` parameters. */
  datatype Arg = StrArg(s: string) | IntArg(i: int) | BoolArg(b: bool)

  /** The two functions of Go's fmt package the logger relies on; their semantics are not modelled. */
  datatype Fmt = Fmt(sprint: seq<Arg> -> string, sprintf: (string, seq<Arg>) -> string)

  /** The two readings of the clock one formatted line contains: the zone ("MST") and the stamp. */
  datatype Clock = Clock(zone: string, stamp: string)

  const LevelWidth: nat := 7
  const Separator: string := " | "

  function Spaces(n: nat): (r: string)
    ensures |r| == n
    ensures forall i :: 0 <= i < n ==> r[i] == ' '
  {
    if n == 0 then "" else Spaces(n - 1) + " "
  }

  /** `%-7s`: the text left-justified in a field at least `width` wide; it is never truncated. */
  function PadRight(s: string, width: nat): (r: string)
    ensures |r| == if |s| < width then width else |s|
    ensures r[..|s|] == s
    ensures forall i :: |s| <= i < |r| ==> r[i] == ' '
  {
    if |s| < width then s + Spaces(width - |s|) else s
  }

  /** Drops trailing spaces; used to read the level column back. */
  function TrimRight(s: string): (r: string)
    ensures r <= s
    ensures r == [] || r[|r| - 1] != ' '
    ensures forall i :: |r| <= i < |s| ==> s[i] == ' '
  {
    if s != [] && s[|s| - 1] == ' ' then TrimRight(s[..|s| - 1]) else s
  }

  /** Padding a text that does not end in a space can be undone by trimming. */
  lemma {:induction false} TrimPadded(s: string, n: nat)
    requires s == [] || s[|s| - 1] != ' '
    ensures TrimRight(s + Spaces(n)) == s
  {
    if n == 0 {
      assert s + Spaces(0) == s;
    } else {
      var t := s + Spaces(n);
      assert t[..|t| - 1] == s + Spaces(n - 1);
      TrimPadded(s, n - 1);
    }
  }

  /** The level column: the label followed by spaces, exactly seven characters wide. */
  function LevelField(level: int): (f: string)
    ensures |f| == LevelWidth
    ensures f[..|LevelToString(level)|] == LevelToString(level)
    ensures forall i :: |LevelToString(level)| <= i < LevelWidth ==> f[i] == ' '
    ensures TrimRight(f) == LevelToString(level)
  {
    var name := LevelToString(level);
    TrimPadded(name, LevelWidth - |name|);
    PadRight(name, LevelWidth)
  }

  /** The message part of a formatted line: interpolated only when arguments are present. */
  function Interpolated(msg: string, args: seq<Arg>, fmt: Fmt): string {
    if |args| > 0 then fmt.sprintf(msg, args) else msg
  }

  /** formatLog with the two clock readings taken as a parameter. */
  function FormatLog(level: int, msg: string, args: seq<Arg>, fmt: Fmt, now: Clock): (line: string)
    ensures |line| == HeaderLength(|now.zone|, |now.stamp|) + |Interpolated(msg, args, fmt)|
    ensures line[..LevelWidth] == LevelField(level)
  {
    LevelField(level) + (Separator + (now.zone + (Separator + (now.stamp + (Separator
      + Interpolated(msg, args, fmt))))))
  }

  /** What a formatted line says, read back from its text. */
  datatype LineFields = LineFields(level: Option<int>, zone: string, stamp: string, msg: string)

  /** Length of everything before the message, for a zone and stamp of the given lengths. */
  function HeaderLength(zoneLength: nat, stampLength: nat): nat {
    LevelWidth + |Separator| + zoneLength + |Separator| + stampLength + |Separator|
  }

  /**
    Reads a line field by field: the level column, a separator, a zone of
    `zoneLength` characters, a separator, a stamp of `stampLength` characters,
    a separator, and the message. The lengths are needed because the zone, the
    stamp and the message may themselves contain " | ".
  */
  function ParseLine(line: string, zoneLength: nat, stampLength: nat): Option<LineFields> {
    if |line| < HeaderLength(zoneLength, stampLength) then None
    else
      var afterLevel := line[LevelWidth..];
      var atZone := afterLevel[|Separator|..];
      var afterZone := atZone[zoneLength..];
      var atStamp := afterZone[|Separator|..];
      var afterStamp := atStamp[stampLength..];
      if afterLevel[..|Separator|] != Separator
        || afterZone[..|Separator|] != Separator
        || afterStamp[..|Separator|] != Separator
      then None
      else Some(LineFields(
        ParseLabel(TrimRight(line[..LevelWidth])),
        atZone[..zoneLength],
        atStamp[..stampLength],
        afterStamp[|Separator|..]))
  }

  lemma Halves(s: string, x: string, y: string)
    requires s == x + y
    ensures s[..|x|] == x && s[|x|..] == y
  {
  }

  /**
    Every formatted line can be read back: its level (None for a priority
    outside the eight severities, printed as UNKNOWN), the zone and stamp, and
    the message, interpolated if and only if arguments were given.
  */
  lemma FormatLogParses(level: int, msg: string, args: seq<Arg>, fmt: Fmt, now: Clock)
    ensures ParseLine(FormatLog(level, msg, args, fmt, now), |now.zone|, |now.stamp|)
         == Some(LineFields(
              if IsSeverity(level) then Some(level) else None,
              now.zone, now.stamp, Interpolated(msg, args, fmt)))
  {
    var line := FormatLog(level, msg, args, fmt, now);
    var text := Interpolated(msg, args, fmt);
    var afterStamp := Separator + text;
    var atStamp := now.stamp + afterStamp;
    var afterZone := Separator + atStamp;
    var atZone := now.zone + afterZone;
    var afterLevel := Separator + atZone;
    Halves(line, LevelField(level), afterLevel);
    Halves(afterLevel, Separator, atZone);
    Halves(atZone, now.zone, afterZone);
    Halves(afterZone, Separator, atStamp);
    Halves(atStamp, now.stamp, afterStamp);
    Halves(afterStamp, Separator, text);
    LabelRoundTrip(level);
  }

  /** With no arguments the message is embedded verbatim: Sprintf is never consulted. */
  lemma FormatLogVerbatim(level: int, msg: string, fmt: Fmt, now: Clock, other: (string, seq<Arg>) -> string)
    ensures FormatLog(level, msg, [], fmt, now) == FormatLog(level, msg, [], fmt.(sprintf := other), now)
    ensures ParseLine(FormatLog(level, msg, [], fmt, now), |now.zone|, |now.stamp|).value.msg == msg
  {
    FormatLogParses(level, msg, [], fmt, now);
  }

  /**
    Two lines formatted from the same level, message and arguments differ only
    in the clock fields: the level and the message read back identically.
  */
  lemma FormatLogClockConfined(level: int, msg: string, args: seq<Arg>, fmt: Fmt, now1: Clock, now2: Clock)
    ensures var f1 := ParseLine(FormatLog(level, msg, args, fmt, now1), |now1.zone|, |now1.stamp|);
            var f2 := ParseLine(FormatLog(level, msg, args, fmt, now2), |now2.zone|, |now2.stamp|);
            f1.Some? && f2.Some? && f1.value.level == f2.value.level && f1.value.msg == f2.value.msg
  {
    FormatLogParses(level, msg, args, fmt, now1);
    FormatLogParses(level, msg, args, fmt, now2);
  }
}
