/**
 `validateTrigger`: rejects a non-object, dispatches on the `type` property
 to the matching normaliser, and rejects any other `type`. Also the invariant
 every normalised trigger satisfies, and the fact that feeding a normalised
 trigger back in returns it unchanged.
 */
module Validation {
  import opened TriggerTypes
  import IntervalTrigger
  import TimestampTrigger
  import CalendarTrigger

  /** `validateTrigger`, with `now` standing for `Date.now()`. */
  function ValidateTrigger(input: Input, now: int): (r: Result<Trigger>)
    ensures input.NotAnObject? ==> r == Fail(ExpectedObject)
    ensures input.Object? && !input.raw.kind.Member? ==> r == Fail(UnknownTriggerType)
    ensures input.Object? && input.raw.kind == Member(TIMESTAMP) ==> r == TimestampTrigger.ValidateTimestamp(input.raw, now)
    ensures input.Object? && input.raw.kind == Member(INTERVAL) ==> r == IntervalTrigger.ValidateInterval(input.raw)
    ensures input.Object? && input.raw.kind == Member(CALENDAR) ==> r == CalendarTrigger.ValidateCalendar(input.raw)
    ensures r.Ok? ==> input.Object? && input.raw.kind == Member(r.value.Kind())
    ensures r.Ok? ==> WellFormed(r.value, now)
  {
    match input
    case NotAnObject => Fail(ExpectedObject)
    case Object(raw) =>
      match raw.kind
      case Member(TIMESTAMP) => TimestampTrigger.ValidateTimestamp(raw, now)
      case Member(INTERVAL) => IntervalTrigger.ValidateInterval(raw)
      case Member(CALENDAR) => CalendarTrigger.ValidateCalendar(raw)
      case _ => Fail(UnknownTriggerType)
  }

  /**
   What every normalised trigger satisfies: a timestamp lies after `now`, an
   interval passes the minimum for its unit, and a calendar trigger's month,
   day, hour, minute and second lie in their ranges.
   */
  predicate WellFormed(t: Trigger, now: int) {
    match t
    case Timestamp(timestamp, _, _) => timestamp > now as real
    case Interval(interval, unit) => IntervalTrigger.IsMinimumInterval(interval, unit)
    case Calendar(_, month, day, hour, minute, second, _) =>
      && 1.0 <= month <= 12.0
      && 1.0 <= day <= 31.0
      && 0.0 <= hour <= 23.0
      && 0.0 <= minute <= 59.0
      && 0.0 <= second <= 59.0
  }

  /** An object with none of the properties the validator reads. */
  const Blank := RawTrigger(Unset, Undefined, Unset, NoAlarmManager, Undefined, Unset,
                            Undefined, Undefined, Undefined, Undefined, Undefined, Undefined, Undefined)

  /**
   A normalised trigger seen as a raw object: the properties it has and
   nothing else. The `-1` written for a missing `repeatFrequency` is left
   out, because whether `isValidEnum` accepts `-1` depends on the
   `RepeatFrequency` enumeration, which is not part of this model.
   */
  function ToRaw(t: Trigger): (raw: RawTrigger)
    requires !(t.Timestamp? && t.repeatFrequency.NoRepeat?)
    ensures raw.kind == Member(t.Kind())
  {
    match t
    case Timestamp(timestamp, repeat, alarm) =>
      Blank.(kind := Member(TIMESTAMP), timestamp := Num(timestamp),
             repeatFrequency := Member(repeat.frequency),
             alarmManager := if alarm.Some? then Settings(AlarmManagerSpec(Undefined, Member(alarm.value))) else NoAlarmManager)
    case Interval(interval, unit) =>
      Blank.(kind := Member(INTERVAL), interval := Num(interval), timeUnit := Member(unit))
    case Calendar(year, month, day, hour, minute, second, repeats) =>
      Blank.(kind := Member(CALENDAR), year := Num(year), month := Num(month), day := Num(day),
             hour := Num(hour), minute := Num(minute), second := Num(second), repeats := repeats)
  }

  /** Validating a well-formed normalised trigger returns it unchanged. */
  lemma RevalidationIsIdentity(t: Trigger, now: int)
    requires !(t.Timestamp? && t.repeatFrequency.NoRepeat?)
    requires WellFormed(t, now)
    ensures ValidateTrigger(Object(ToRaw(t)), now) == Ok(t)
  {
  }

  /**
   Validation is idempotent: validating the output of a successful
   validation, at the same time, gives that output again.
   */
  lemma ValidateTriggerIsIdempotent(input: Input, now: int)
    requires ValidateTrigger(input, now).Ok?
    requires !(ValidateTrigger(input, now).value.Timestamp? && ValidateTrigger(input, now).value.repeatFrequency.NoRepeat?)
    ensures ValidateTrigger(Object(ToRaw(ValidateTrigger(input, now).value)), now) == ValidateTrigger(input, now)
  {
  }

  /** A successful calendar validation hands back the input's `repeats` as it was, whatever it held. */
  lemma CalendarRepeatsPassThrough(raw: RawTrigger, now: int)
    requires raw.kind == Member(CALENDAR)
    requires ValidateTrigger(Object(raw), now).Ok?
    ensures ValidateTrigger(Object(raw), now).value.repeats == raw.repeats
  {
  }
}
