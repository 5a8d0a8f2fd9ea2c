/**
 Data model of the trigger validator in
 packages/react-native/src/validators/validateTrigger.ts.

 The input is a loosely typed JavaScript object. Every property the validator
 reads is classified here by what the validator can observe about it:
 a number, a boolean, `undefined` (or missing), or anything else; and for the
 properties checked with `isValidEnum`, whether the value is a member of the
 enumeration. The outputs are the canonical triggers the validator returns.
 */
module TriggerTypes {

  /** The trigger kinds the validator dispatches on (`TriggerType`). */
  datatype TriggerType = TIMESTAMP | INTERVAL | CALENDAR

  /** Units of an interval trigger (`TimeUnit`). */
  datatype TimeUnit = SECONDS | MINUTES | HOURS | DAYS

  /**
   Repeat cadences of a timestamp trigger (`RepeatFrequency`). The validator
   treats every member alike (it only asks whether a value is a member), so
   the member list here is illustrative; none of its members stands for the
   `-1` the validator writes when no cadence is given.
   */
  datatype RepeatFrequency = HOURLY | DAILY | WEEKLY

  /**
   Android alarm-manager scheduling modes (`AlarmType`). The validator names
   only `SET_EXACT` and `SET_EXACT_AND_ALLOW_WHILE_IDLE`; the other members are
   illustrative, and every member is treated alike by the membership check.
   */
  datatype AlarmType =
    | SET
    | SET_AND_ALLOW_WHILE_IDLE
    | SET_EXACT
    | SET_EXACT_AND_ALLOW_WHILE_IDLE
    | SET_ALARM_CLOCK

  datatype Option<+T> = None | Some(value: T)

  /**
   A raw property value as the checks `isNumber`, `isBoolean` and `isUndefined`
   see it. `Undefined` covers both a missing property and one holding
   `undefined`: the validator always tests `objectHasProperty` together with
   `!isUndefined`, so it never tells the two apart. `Other` is any other value
   (a string, `null`, an object, ...).
   */
  datatype Value = Undefined | Num(n: real) | Bool(b: bool) | Other

  /**
   A raw property that the validator checks with `isValidEnum` against the
   enumeration `E`: missing or `undefined`, a member of `E`, or present but
   not a member.
   */
  datatype EnumProp<E> = Unset | Member(member: E) | NotAMember

  /** The properties of an `alarmManager` object that the validator reads. */
  datatype AlarmManagerSpec = AlarmManagerSpec(allowWhileIdle: Value, alarmType: EnumProp<AlarmType>)

  /**
   The raw `alarmManager` property of a timestamp trigger: missing or
   `undefined`, a boolean, or any other value. A value that is not an object
   has neither `allowWhileIdle` nor an own `type` property and is written
   `Settings(AlarmManagerSpec(Undefined, Unset))`.
   */
  datatype AlarmManagerProp = NoAlarmManager | Flag(on: bool) | Settings(spec: AlarmManagerSpec)

  /**
   Every property of the raw trigger object that some normaliser reads.
   `kind` is the object's `type` property (`type` is a Dafny keyword).
   */
  datatype RawTrigger = RawTrigger(
    kind: EnumProp<TriggerType>,
    timestamp: Value,
    repeatFrequency: EnumProp<RepeatFrequency>,
    alarmManager: AlarmManagerProp,
    interval: Value,
    timeUnit: EnumProp<TimeUnit>,
    year: Value,
    month: Value,
    day: Value,
    hour: Value,
    minute: Value,
    second: Value,
    repeats: Value)

  /** The argument of `validateTrigger`, as `isObject` classifies it. */
  datatype Input = NotAnObject | Object(raw: RawTrigger)

  /**
   The `repeatFrequency` of a normalised timestamp trigger: `NoRepeat` is the
   literal `-1` the validator writes when the input has none.
   */
  datatype Repeat = NoRepeat | RepeatEvery(frequency: RepeatFrequency)

  /**
   A normalised trigger. The `alarmManager` of a timestamp trigger is the
   `type` of the `{type}` object the validator builds, or `None` when the
   output has no `alarmManager` property. A calendar trigger's `repeats` is
   whatever the input held.
   */
  datatype Trigger =
    | Timestamp(timestamp: real, repeatFrequency: Repeat, alarmManager: Option<AlarmType>)
    | Interval(interval: real, timeUnit: TimeUnit)
    | Calendar(year: real, month: real, day: real, hour: real, minute: real, second: real, repeats: Value)
  {
    /** The `type` property of the normalised trigger. */
    function Kind(): TriggerType {
      match this
      case Timestamp(_, _, _) => TIMESTAMP
      case Interval(_, _) => INTERVAL
      case Calendar(_, _, _, _, _, _, _) => CALENDAR
    }
  }

  /** The property an error message is about. */
  datatype Field =
    | TriggerTimestamp
    | TriggerRepeatFrequency
    | AlarmManagerType
    | TriggerInterval
    | TriggerTimeUnit
    | TriggerYear
    | TriggerMonth
    | TriggerDay
    | TriggerHour
    | TriggerMinute
    | TriggerSecond

  /** The errors the validator throws, tagged by kind and field. */
  datatype Err =
    | ExpectedObject
    | UnknownTriggerType
    | ExpectedNumber(field: Field)
    | ExpectedEnum(field: Field)
    | TimestampNotInFuture
    | IntervalBelowMinimum
    | OutOfRange(field: Field, lo: int, hi: int)
      /** An alarm-manager error re-thrown with the `'trigger.alarmManager' ` prefix. */
    | InAlarmManager(inner: Err)

  /** A normalised value, or the error the validator throws. */
  datatype Result<+T> = Ok(value: T) | Fail(error: Err) {
    predicate IsFailure() {
      Fail?
    }

    function PropagateFailure<U>(): Result<U>
      requires Fail?
    {
      Fail(error)
    }

    function Extract(): T
      requires Ok?
    {
      value
    }
  }

  /**
   Resolves an optional enumeration property the way the validator does:
   a missing or `undefined` property gives `None`, a member is kept, and any
   other value fails with the `isValidEnum` error for `field`.
   */
  function ResolveEnum<E>(p: EnumProp<E>, field: Field): (r: Result<Option<E>>)
    ensures r.Fail? <==> p.NotAMember?
    ensures r.Fail? ==> r.error == ExpectedEnum(field)
    ensures r.Ok? ==> (r.value.Some? <==> p.Member?)
    ensures p.Member? ==> r == Ok(Some(p.member))
  {
    match p
    case Unset => Ok(None)
    case Member(e) => Ok(Some(e))
    case NotAMember => Fail(ExpectedEnum(field))
  }
}
