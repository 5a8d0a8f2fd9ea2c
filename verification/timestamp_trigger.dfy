/**
 The timestamp normaliser (`validateTimestampTrigger`) and the alarm-manager
 resolution it delegates to (`validateTimestampAlarmManager`). The current
 time is the parameter `now`, in epoch milliseconds.
 */
module TimestampTrigger {
  import opened TriggerTypes

  /**
   `validateTimestampAlarmManager`. Without settings (called with no
   argument, or with a falsy value) it gives `SET_EXACT`. With settings it
   starts from `SET_EXACT`, upgrades to `SET_EXACT_AND_ALLOW_WHILE_IDLE` when
   `allowWhileIdle` is the boolean `true`, and lets a given `type` override
   both; a given `type` that is not an `AlarmType` fails.
   */
  function ValidateAlarmManager(settings: Option<AlarmManagerSpec>): (r: Result<AlarmType>)
    ensures r.Fail? <==> settings.Some? && settings.value.alarmType.NotAMember?
    ensures r.Fail? ==> r.error == ExpectedEnum(AlarmManagerType)
    ensures settings.Some? && settings.value.alarmType.Member? ==> r == Ok(settings.value.alarmType.member)
    ensures settings.None? || settings.value.alarmType.Unset? ==>
      r.Ok? && (r.value == SET_EXACT_AND_ALLOW_WHILE_IDLE <==> settings.Some? && settings.value.allowWhileIdle == Bool(true))
    ensures settings.None? || settings.value.alarmType.Unset? ==>
      r.Ok? && r.value in {SET_EXACT, SET_EXACT_AND_ALLOW_WHILE_IDLE}
  {
    match settings
    case None => Ok(SET_EXACT)
    case Some(spec) =>
      var fallback := if spec.allowWhileIdle.Bool? && spec.allowWhileIdle.b then SET_EXACT_AND_ALLOW_WHILE_IDLE else SET_EXACT;
      var explicit :- ResolveEnum(spec.alarmType, AlarmManagerType);
      Ok(if explicit.Some? then explicit.value else fallback)
  }

  /**
   The `alarmManager` part of `validateTimestampTrigger`: a missing property or
   `false` leaves the output without one, `true` stands for the default
   settings, anything else is resolved as settings, and an error from the
   resolution is re-thrown with the `'trigger.alarmManager' ` prefix.
   */
  function ResolveAlarmManager(p: AlarmManagerProp): (r: Result<Option<AlarmType>>)
    ensures p.NoAlarmManager? || p == Flag(false) ==> r == Ok(None)
    ensures p == Flag(true) ==> r == Ok(Some(SET_EXACT))
    ensures p.Settings? ==> r.Ok? == ValidateAlarmManager(Some(p.spec)).Ok?
    ensures p.Settings? && r.Ok? ==> r.value == Some(ValidateAlarmManager(Some(p.spec)).value)
    ensures r.Fail? ==> r.error == InAlarmManager(ExpectedEnum(AlarmManagerType))
  {
    match p
    case NoAlarmManager => Ok(None)
    case Flag(on) =>
      if on then
        Ok(Some(ValidateAlarmManager(None).value))
      else
        Ok(None)
    case Settings(spec) =>
      match ValidateAlarmManager(Some(spec))
      case Ok(t) => Ok(Some(t))
      case Fail(e) => Fail(InAlarmManager(e))
  }

  /** The `repeatFrequency` part: `-1` when none is given, the given member otherwise. */
  function ResolveRepeat(p: EnumProp<RepeatFrequency>): (r: Result<Repeat>)
    ensures p.Unset? ==> r == Ok(NoRepeat)
    ensures p.NotAMember? ==> r == Fail(ExpectedEnum(TriggerRepeatFrequency))
    ensures p.Member? ==> r == Ok(RepeatEvery(p.member))
  {
    var given :- ResolveEnum(p, TriggerRepeatFrequency);
    Ok(if given.Some? then RepeatEvery(given.value) else NoRepeat)
  }

  /**
   `validateTimestampTrigger`: `timestamp` must be a number strictly later
   than `now`; then `repeatFrequency` and `alarmManager` are resolved, in that
   order. The output keeps the timestamp unchanged.
   */
  function ValidateTimestamp(raw: RawTrigger, now: int): (r: Result<Trigger>)
    ensures !raw.timestamp.Num? ==> r == Fail(ExpectedNumber(TriggerTimestamp))
    ensures raw.timestamp.Num? && raw.timestamp.n <= now as real ==> r == Fail(TimestampNotInFuture)
    ensures raw.timestamp.Num? && raw.timestamp.n > now as real && raw.repeatFrequency.NotAMember? ==>
      r == Fail(ExpectedEnum(TriggerRepeatFrequency))
    ensures && raw.timestamp.Num? && raw.timestamp.n > now as real && !raw.repeatFrequency.NotAMember?
            && ResolveAlarmManager(raw.alarmManager).Fail? ==>
      r == Fail(InAlarmManager(ExpectedEnum(AlarmManagerType)))
    ensures r.Ok? <==>
      && raw.timestamp.Num? && raw.timestamp.n > now as real
      && !raw.repeatFrequency.NotAMember?
      && ResolveAlarmManager(raw.alarmManager).Ok?
    ensures r.Ok? ==> r.value.Timestamp? && r.value.timestamp == raw.timestamp.n && r.value.timestamp > now as real
    ensures r.Ok? ==> (r.value.repeatFrequency == NoRepeat <==> raw.repeatFrequency.Unset?)
    ensures r.Ok? && raw.repeatFrequency.Member? ==> r.value.repeatFrequency == RepeatEvery(raw.repeatFrequency.member)
    ensures r.Ok? ==> r.value.alarmManager == ResolveAlarmManager(raw.alarmManager).value
  {
    if !raw.timestamp.Num? then
      Fail(ExpectedNumber(TriggerTimestamp))
    else if raw.timestamp.n <= now as real then
      Fail(TimestampNotInFuture)
    else
      var repeat :- ResolveRepeat(raw.repeatFrequency);
      var alarm :- ResolveAlarmManager(raw.alarmManager);
      Ok(Timestamp(raw.timestamp.n, repeat, alarm))
  }

  /**
   Alarm-manager settings that name a type, with nothing else set, resolve to
   that type: the `{type}` object the normaliser outputs is a fixed point.
   */
  lemma AlarmManagerOutputIsFixedPoint(t: AlarmType, allowWhileIdle: Value)
    ensures ResolveAlarmManager(Settings(AlarmManagerSpec(allowWhileIdle, Member(t)))) == Ok(Some(t))
  {
  }

  /** The normaliser reads nothing but `timestamp`, `repeatFrequency` and `alarmManager`. */
  lemma ValidateTimestampReadsOnlyItsFields(raw: RawTrigger, other: RawTrigger, now: int)
    requires raw.timestamp == other.timestamp
    requires raw.repeatFrequency == other.repeatFrequency
    requires raw.alarmManager == other.alarmManager
    ensures ValidateTimestamp(raw, now) == ValidateTimestamp(other, now)
  {
  }

  /** A timestamp accepted at some time is accepted, with the same result, at every earlier time. */
  lemma ValidateTimestampEarlierNow(raw: RawTrigger, now: int, earlier: int)
    requires earlier <= now
    requires ValidateTimestamp(raw, now).Ok?
    ensures ValidateTimestamp(raw, earlier) == ValidateTimestamp(raw, now)
  {
  }
}
