/**
 * Logback levels and their mapping onto the six OpenTelemetry severities.
 * The level integers are Logback's `Level.*_INT` constants.
 */
module Severities {

  const ALL_INT: int := -0x8000_0000     // Integer.MIN_VALUE
  const TRACE_INT: int := 5000
  const DEBUG_INT: int := 10000
  const INFO_INT: int := 20000
  const WARN_INT: int := 30000
  const ERROR_INT: int := 40000
  const OFF_INT: int := 0x7fff_ffff      // Integer.MAX_VALUE

  /** A Logback level: its integer and its display string (`levelStr`). */
  datatype Level = Level(levelInt: int, levelStr: string)

  /** The OpenTelemetry severities the mapper produces. */
  datatype Severity = UndefinedSeverity | Trace | Debug | Info | Warn | Error

  /** OpenTelemetry's severity number for each severity. */
  function SeverityNumber(s: Severity): nat {
    match s
    case UndefinedSeverity => 0
    case Trace => 1
    case Debug => 5
    case Info => 9
    case Warn => 13
    case Error => 17
  }

  /** The levels the switch in `levelToSeverity` names, other than OFF. */
  predicate IsStandardLevel(levelInt: int) {
    levelInt in {ALL_INT, TRACE_INT, DEBUG_INT, INFO_INT, WARN_INT, ERROR_INT}
  }

  function LevelToSeverity(levelInt: int): (s: Severity)
    ensures s == Trace <==> levelInt == ALL_INT || levelInt == TRACE_INT
    ensures s == Debug <==> levelInt == DEBUG_INT
    ensures s == Info <==> levelInt == INFO_INT
    ensures s == Warn <==> levelInt == WARN_INT
    ensures s == Error <==> levelInt == ERROR_INT
    ensures s == UndefinedSeverity <==> !IsStandardLevel(levelInt)
  {
    if levelInt == ALL_INT || levelInt == TRACE_INT then Trace
    else if levelInt == DEBUG_INT then Debug
    else if levelInt == INFO_INT then Info
    else if levelInt == WARN_INT then Warn
    else if levelInt == ERROR_INT then Error
    else UndefinedSeverity
  }

  /** Among the standard levels the mapping preserves order. */
  lemma LevelToSeverityMonotonic(a: int, b: int)
    requires IsStandardLevel(a) && IsStandardLevel(b) && a <= b
    ensures SeverityNumber(LevelToSeverity(a)) <= SeverityNumber(LevelToSeverity(b))
    ensures a < b && a != ALL_INT ==> SeverityNumber(LevelToSeverity(a)) < SeverityNumber(LevelToSeverity(b))
  {
  }

  /** The Logback level each severity comes from (TRACE for Trace, OFF for UndefinedSeverity). */
  function LevelOf(s: Severity): (levelInt: int)
    ensures LevelToSeverity(levelInt) == s
  {
    match s
    case UndefinedSeverity => OFF_INT
    case Trace => TRACE_INT
    case Debug => DEBUG_INT
    case Info => INFO_INT
    case Warn => WARN_INT
    case Error => ERROR_INT
  }
}
