/**
  Syslog priorities, the labels the logger prints for them, and the choice of
  syslog writer method for a priority (logger.go, LogLevelToString and the
  switch in writeToSyslog).
*/
module Severity {
  import opened Options

  // A syslog priority is a facility (a multiple of 8) combined with a
  // severity (0..7). The logger passes priorities around as plain integers
  // and never does arithmetic on them.
  const LogEmerg: int := 0
  const LogAlert: int := 1
  const LogCrit: int := 2
  const LogErr: int := 3
  const LogWarning: int := 4
  const LogNotice: int := 5
  const LogInfo: int := 6
  const LogDebug: int := 7

  // Facilities are multiples of 8, so combining one with a severity by
  // bitwise or is the same as adding them.
  const LogUser: int := 1 * 8
  const LogSyslog: int := 5 * 8

  /** The eight bare severities, with no facility bits. */
  predicate IsSeverity(p: int) {
    LogEmerg <= p <= LogDebug
  }

  predicate IsUpper(s: string) {
    forall i :: 0 <= i < |s| ==> 'A' <= s[i] <= 'Z'
  }

  /** The label printed in the level column of a formatted line. */
  function LevelToString(level: int): (name: string)
    ensures 4 <= |name| <= 7 && IsUpper(name)
    ensures name == "UNKNOWN" <==> !IsSeverity(level)
  {
    if level == LogEmerg then "EMERG"
    else if level == LogAlert then "ALERT"
    else if level == LogCrit then "CRIT"
    else if level == LogErr then "ERROR"
    else if level == LogWarning then "WARNING"
    else if level == LogNotice then "NOTICE"
    else if level == LogInfo then "INFO"
    else if level == LogDebug then "DEBUG"
    else "UNKNOWN"
  }

  /** Reads a level label back; "UNKNOWN" and anything else give None. */
  function ParseLabel(name: string): Option<int> {
    match name
    case "EMERG" => Some(LogEmerg)
    case "ALERT" => Some(LogAlert)
    case "CRIT" => Some(LogCrit)
    case "ERROR" => Some(LogErr)
    case "WARNING" => Some(LogWarning)
    case "NOTICE" => Some(LogNotice)
    case "INFO" => Some(LogInfo)
    case "DEBUG" => Some(LogDebug)
    case _ => None
  }

  /** The label table is a bijection between the eight severities and their labels. */
  lemma LabelRoundTrip(level: int)
    ensures ParseLabel(LevelToString(level)) == if IsSeverity(level) then Some(level) else None
  {
  }

  /** A priority with facility bits set, such as LOG_INFO|LOG_USER, is not in the table. */
  lemma FacilityBitsGiveUnknown(facility: int, severity: int)
    requires 1 <= facility && IsSeverity(severity)
    ensures LevelToString(facility * 8 + severity) == "UNKNOWN"
  {
  }

  /** The methods of the syslog writer, one per severity. */
  datatype SyslogMethod = Emerg | Alert | Crit | Err | Warning | Notice | Info | Debug

  /** The severity at which each writer method sends its message. */
  function MethodSeverity(m: SyslogMethod): int {
    match m
    case Emerg => LogEmerg
    case Alert => LogAlert
    case Crit => LogCrit
    case Err => LogErr
    case Warning => LogWarning
    case Notice => LogNotice
    case Info => LogInfo
    case Debug => LogDebug
  }

  /** The switch in writeToSyslog: a known severity selects its own method, anything else Info. */
  function SyslogMethodFor(level: int): (m: SyslogMethod)
    ensures IsSeverity(level) ==> MethodSeverity(m) == level
    ensures !IsSeverity(level) ==> m == Info
  {
    if level == LogDebug then Debug
    else if level == LogInfo then Info
    else if level == LogWarning then Warning
    else if level == LogNotice then Notice
    else if level == LogAlert then Alert
    else if level == LogErr then Err
    else if level == LogCrit then Crit
    else if level == LogEmerg then Emerg
    else Info
  }
}
