/**
 The text of every error the trigger validator throws. Each message about a
 property starts with that property's path in single quotes.
 */
module Messages {
  import opened TriggerTypes

  /** The path of a property as the messages quote it. */
  function FieldName(f: Field): string {
    match f
    case TriggerTimestamp => "trigger.timestamp"
    case TriggerRepeatFrequency => "trigger.repeatFrequency"
    case AlarmManagerType => "alarmManager.type"
    case TriggerInterval => "trigger.interval"
    case TriggerTimeUnit => "trigger.timeUnit"
    case TriggerYear => "trigger.year"
    case TriggerMonth => "trigger.month"
    case TriggerDay => "trigger.day"
    case TriggerHour => "trigger.hour"
    case TriggerMinute => "trigger.minute"
    case TriggerSecond => "trigger.second"
  }

  /**
   The enumeration an `isValidEnum` error names. Only the three fields below
   are ever checked against an enumeration; the last case gives the text for
   an `ExpectedEnum` error no normaliser produces.
   */
  function EnumName(f: Field): string {
    match f
    case TriggerRepeatFrequency => "RepeatFrequency"
    case AlarmManagerType => "AlarmType"
    case TriggerTimeUnit => "TimeUnit"
    case _ => "enumeration"
  }

  function DigitChar(d: nat): char
    requires d < 10
  {
    "0123456789"[d]
  }

  /** Decimal notation of a natural number, most significant digit first. */
  function NatToString(n: nat): (s: string)
    ensures |s| >= 1
    ensures forall i :: 0 <= i < |s| ==> '0' <= s[i] <= '9'
    decreases n
  {
    if n < 10 then [DigitChar(n)] else NatToString(n / 10) + [DigitChar(n % 10)]
  }

  /** Decimal notation of an integer, as JavaScript interpolates it into a template string. */
  function IntToString(i: int): string {
    if i < 0 then "-" + NatToString(-i) else NatToString(i)
  }

  /** The property an error is about, if it names one. */
  function Subject(e: Err): Option<string> {
    match e
    case ExpectedObject => Some("trigger")
    case UnknownTriggerType => None
    case ExpectedNumber(f) => Some(FieldName(f))
    case ExpectedEnum(f) => Some(FieldName(f))
    case TimestampNotInFuture => Some(FieldName(TriggerTimestamp))
    case IntervalBelowMinimum => Some(FieldName(TriggerInterval))
    case OutOfRange(f, _, _) => Some(FieldName(f))
    case InAlarmManager(_) => Some("trigger.alarmManager")
  }

  /** A property path in single quotes, as it opens a message. */
  function Quote(path: string): string {
    "'" + path + "'"
  }

  /**
   The message of the `Error` the validator throws. Every message but the
   unknown-type one is a sentence ending in a period.
   */
  function Message(e: Err): (m: string)
    ensures |m| > 0
    ensures e != UnknownTriggerType ==> m[|m| - 1] == '.'
  {
    match e
    case ExpectedObject => Quote("trigger") + " expected an object value."
    case UnknownTriggerType => "Unknown trigger type"
    case ExpectedNumber(f) => Quote(FieldName(f)) + " expected a number value."
    case ExpectedEnum(f) => Quote(FieldName(f)) + (" expected a " + EnumName(f) + " value.")
    case TimestampNotInFuture => Quote(FieldName(TriggerTimestamp)) + " date must be in the future."
    case IntervalBelowMinimum => Quote(FieldName(TriggerInterval)) + " expected to be at least 15 minutes."
    case OutOfRange(f, lo, hi) =>
      Quote(FieldName(f)) + (" expected a value between " + IntToString(lo) + " and " + IntToString(hi) + ".")
    case InAlarmManager(inner) => Quote("trigger.alarmManager") + (" " + Message(inner) + ".")
  }

  /** Every message about a property starts with that property's path in single quotes. */
  lemma MessageStartsWithSubject(e: Err)
    requires Subject(e).Some?
    ensures Quote(Subject(e).value) <= Message(e)
  {
  }

  /** Distinct properties have distinct paths, so a message identifies the property it is about. */
  lemma FieldNameIsInjective(f: Field, g: Field)
    requires FieldName(f) == FieldName(g)
    ensures f == g
  {
  }
}
