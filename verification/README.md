# Trigger validation for scheduled notifications

A Dafny model of the trigger validator of the notifee React Native library
(`packages/react-native/src/validators/validateTrigger.ts`). The validator
takes a loosely typed trigger object. It rejects anything that is not an
object. It then dispatches on the object's `type` to one of three normalisers:

- **timestamp**: the time must be a number strictly in the future.
  `repeatFrequency` defaults to `-1`. The `alarmManager` shorthand (a boolean
  or an object) is resolved to a `{type}` object.
- **interval**: `interval` must be a number. `timeUnit` defaults to
  `SECONDS`. The interval must pass a fifteen-minute minimum that depends on
  the unit.
- **calendar**: year, month, day, hour, minute and second must all be
  numbers. Then month, day, hour, minute and second must lie in their ranges.

Each normaliser returns a canonical trigger or throws an error that names the
offending property.

Files:

- `trigger_types.dfy` (module `TriggerTypes`): the data model.
  - The enumerations `TriggerType`, `TimeUnit`, `RepeatFrequency` and `AlarmType`.
  - Raw property values `Value` and `EnumProp`. Membership in `EnumProp` plays the role of `isValidEnum`.
  - The raw trigger `RawTrigger`, the normalised `Trigger`, and the errors `Err`.
- `interval_trigger.dfy` (module `IntervalTrigger`): `isMinimumInterval` and `validateIntervalTrigger`.
- `timestamp_trigger.dfy` (module `TimestampTrigger`): `validateTimestampTrigger` and `validateTimestampAlarmManager`.
- `calendar_trigger.dfy` (module `CalendarTrigger`): `validateCalendarTrigger`. Also a reference definition of
  its discipline: all type checks, then all range checks, with the first failure deciding the error.
- `messages.dfy` (module `Messages`): the exact text of every thrown message.
- `validation.dfy` (module `Validation`): the dispatcher, the invariant of normalised triggers, and the
  round trip "validating a normalised trigger returns it unchanged".

Modelling choices:

- The current time (`Date.now()`) is the parameter `now`, in epoch milliseconds.
- JavaScript numbers are Dafny `real`s.
- A missing property and a property holding `undefined` are one case (`Value.Undefined`, `EnumProp.Unset`).
  The code only ever tests `objectHasProperty` together with `!isUndefined`, so it never tells them apart.
- `EnumProp<E>` records whether a value is a member of the enumeration `E`. It does not record the
  numeric or string code of the member.
- An `alarmManager` value that is neither undefined nor a boolean is `Settings(spec)`, where `spec` holds the
  two properties the code reads. A non-object value such as `null`, `0` or `"x"` has neither property. It
  therefore resolves to `SET_EXACT`, exactly as the code does: falsy values take the `!alarmManager` return
  and truthy ones find no properties.
- `validateTimestampTrigger` and `validateIntervalTrigger` copy `type` from their input. Their only caller
  has already matched it against `TIMESTAMP` or `INTERVAL`. So in the model the output's constructor carries
  the type (`Trigger.Kind`), and `Validation.ValidateTrigger` states that it equals the input's.
- Errors are the datatype `Err`, tagged by kind and field. `Messages.Message` gives the exact text.

Behaviour of the code worth noting:

- Calendar `repeats` is neither defaulted to `false` nor coerced to `false`. The assignment of `false` at
  line 195 is overwritten by line 196. The output's `repeats` is therefore always the input's, including
  `undefined` and non-boolean values.
- `year` has no range check.
- For `HOURS` and `DAYS` the minimum is one whole unit. That is stricter than fifteen minutes: half an hour
  is rejected. For `SECONDS` and `MINUTES` the minimum is exactly fifteen minutes.
- The alarm-manager error wraps the inner message, which already ends in a period, and adds another period.

## Model

| member | source | states |
|---|---|---|
| `IntervalTrigger.IsMinimumInterval` | packages/react-native/src/validators/validateTrigger.ts:25-39 | For seconds and minutes, an interval passes iff it lasts at least fifteen minutes (`interval >= 900` seconds, `>= 15` minutes). For hours and days it passes iff it is at least 1. Every passing interval lasts at least fifteen minutes. |
| `IntervalTrigger.MinimumIsMonotone` | packages/react-native/src/validators/validateTrigger.ts:27-39 | If an interval passes the minimum, every longer interval in the same unit passes too. |
| `IntervalTrigger.ValidateInterval` | packages/react-native/src/validators/validateTrigger.ts:122-145 | A non-number `interval` fails first, then an invalid `timeUnit`, then the minimum, which fails with the "at least 15 minutes" error. It succeeds iff all three checks pass. The output is exactly the interval and the resolved unit (default `SECONDS`), and lasts at least fifteen minutes. No other error is possible. |
| `IntervalTrigger.ValidateIntervalReadsOnlyItsFields` | packages/react-native/src/validators/validateTrigger.ts:127-131 | Two inputs that agree on `interval` and `timeUnit` give the same result. No other input property reaches the output. |
| `TriggerTypes.ResolveEnum` | packages/react-native/src/validators/validateTrigger.ts:133-138 | An optional enumeration property fails iff present and not a member, with the error naming the field. Otherwise it yields the member, or nothing when the property is unset. |
| `TimestampTrigger.ValidateAlarmManager` | packages/react-native/src/validators/validateTrigger.ts:99-120 | No settings gives `SET_EXACT`. Settings fail iff their `type` is present and not an `AlarmType`. A valid `type` wins. Otherwise the result is `SET_EXACT_AND_ALLOW_WHILE_IDLE` iff `allowWhileIdle` is boolean `true`, else `SET_EXACT`. |
| `TimestampTrigger.ResolveAlarmManager` | packages/react-native/src/validators/validateTrigger.ts:82-94 | Missing or `false` gives no `alarmManager`. `true` gives `SET_EXACT`. Settings give what `ValidateAlarmManager` gives. The only failure is the alarm-type error wrapped with the `'trigger.alarmManager'` prefix. |
| `TimestampTrigger.ResolveRepeat` | packages/react-native/src/validators/validateTrigger.ts:68-80 | An unset `repeatFrequency` gives the `-1` sentinel. A member is copied. Anything else fails with the `RepeatFrequency` error. |
| `TimestampTrigger.ValidateTimestamp` | packages/react-native/src/validators/validateTrigger.ts:58-97 | A non-number timestamp fails first, then one not after `now`, then an invalid `repeatFrequency`, then the alarm manager, whose failure is the alarm-type error with the `'trigger.alarmManager'` prefix. It succeeds iff none of these fail. The output keeps the timestamp (so it lies after `now`). Its `repeatFrequency` is `-1` iff none was given, and is otherwise the given member. Its alarm manager is the resolved one. |
| `TimestampTrigger.AlarmManagerOutputIsFixedPoint` | packages/react-native/src/validators/validateTrigger.ts:112-117 | Settings that name a valid `type` resolve to exactly that type, whatever `allowWhileIdle` holds. So the `{type}` object the normaliser outputs resolves to itself. |
| `TimestampTrigger.ValidateTimestampReadsOnlyItsFields` | packages/react-native/src/validators/validateTrigger.ts:68-72 | Two inputs that agree on `timestamp`, `repeatFrequency` and `alarmManager` give the same result. |
| `TimestampTrigger.ValidateTimestampEarlierNow` | packages/react-native/src/validators/validateTrigger.ts:63-66 | A trigger accepted at time `now` is accepted, with the same output, at every earlier time. |
| `CalendarTrigger.FirstNonNumber` | packages/react-native/src/validators/validateTrigger.ts:159-176 | Finds the first component that is not a number. It finds none iff all components are numbers. |
| `CalendarTrigger.FirstOutOfRange` | packages/react-native/src/validators/validateTrigger.ts:178-192 | Finds the first component outside its range. It finds none iff all components are in range. |
| `CalendarTrigger.FirstFailure` | packages/react-native/src/validators/validateTrigger.ts:159-192 | The reference discipline finds no failure iff every component is a number in its range. Its failure is a type error iff some component is not a number, so type checks come before range checks. |
| `CalendarTrigger.ValidateCalendar` | packages/react-native/src/validators/validateTrigger.ts:147-200 | On success all six components are numbers, copied unchanged together with `repeats`. Month lies in 1..12, day in 1..31, hour in 0..23, minute and second in 0..59. Every failure is a type error or a range error. |
| `CalendarTrigger.ValidateCalendarChecksInOrder` | packages/react-native/src/validators/validateTrigger.ts:159-192 | The normaliser succeeds iff all six components are in range. It fails exactly when the reference discipline does, with the same error: the first failing check in the order year, month, day, hour, minute, second, with all type checks first. |
| `CalendarTrigger.AnyYearIsAccepted` | packages/react-native/src/validators/validateTrigger.ts:178-192 | Replacing the year of an accepted calendar trigger by any number keeps it accepted, with that year in the output. |
| `CalendarTrigger.ValidateCalendarReadsOnlyItsFields` | packages/react-native/src/validators/validateTrigger.ts:148-157 | Two inputs that agree on the six components and `repeats` give the same result. |
| `Messages.MessageStartsWithSubject` | packages/react-native/src/validators/validateTrigger.ts:43-191 | Every error message about a property begins with that property's path in single quotes. |
| `Messages.Message` | packages/react-native/src/validators/validateTrigger.ts:43-191 | The exact text of each thrown error (lines 43, 54, 60, 65, 76, 91, 114, 124, 135, 141 and 160-191). Every message is non-empty, and every message except "Unknown trigger type" ends in a period. |
| `Messages.FieldNameIsInjective` | packages/react-native/src/validators/validateTrigger.ts:159-176 | Distinct properties are quoted under distinct paths. |
| `Validation.ValidateTrigger` | packages/react-native/src/validators/validateTrigger.ts:41-56 | A non-object fails with the object error. A `type` that is not a trigger type fails with "Unknown trigger type". Otherwise the result is exactly the matching normaliser's. A successful output has the input's `type` and is well formed. |
| `Validation.RevalidationIsIdentity` | packages/react-native/src/validators/validateTrigger.ts:122-200 | A well-formed normalised trigger, fed back in as an object with just its properties, validates to itself. |
| `Validation.ValidateTriggerIsIdempotent` | packages/react-native/src/validators/validateTrigger.ts:41-56 | Validating the output of a successful validation, at the same `now`, returns the same output. |
| `Validation.CalendarRepeatsPassThrough` | packages/react-native/src/validators/validateTrigger.ts:194-197 | A successful calendar validation returns the input's `repeats` unchanged, whether it is missing, a boolean or any other value. |

## Left out

- Reading the clock: `Date.now()` at line 63 is the parameter `now`.
- JavaScript number semantics: `NaN`, infinities and floating-point rounding are not modelled. Numbers are exact reals. In the code a `NaN` timestamp passes the `<= now` test; the model has no `NaN`.
- The helpers `isObject`, `isNumber`, `isBoolean`, `isUndefined`, `objectHasProperty` and `isValidEnum` come from the library's utilities module, which is not part of this model. They are represented by the shape of the input datatypes.
- The enumerations' numeric and string codes come from the library's trigger types module, which is not part of this model. Only membership is modelled, plus the `-1` the code writes for a missing `repeatFrequency`.
- `IntervalTrigger.IsMinimumInterval`: takes a `TimeUnit`, so the fall-through `return true` at line 38 for a non-unit value is not modelled. Its only caller always passes a resolved unit, so that return is unreachable.
- `Validation.RevalidationIsIdentity`: does not cover timestamp triggers whose `repeatFrequency` is the `-1` sentinel. Whether `isValidEnum` accepts `-1` depends on the `RepeatFrequency` enumeration, which is not part of this model.
- `Validation.ValidateTriggerIsIdempotent`: does not cover a successful validation whose output is a timestamp trigger with the `-1` sentinel as `repeatFrequency`, for the same reason.
- `TimestampTrigger.ValidateTimestamp`: the clause "the output's `repeatFrequency` is `-1` iff none was given" assumes that no `RepeatFrequency` member has the code `-1`. The enumeration is not part of this model. If a member did have that code, an input naming it would also yield `-1` (line 79).
- `TimestampTrigger.ResolveRepeat`: keeps a given member apart from the `-1` sentinel under the same assumption about the `RepeatFrequency` codes.
- The distinction between a missing property and one holding `undefined` is not modelled. The output of a calendar trigger always has a `repeats` property, possibly `undefined`, and the model does not separate that from a missing one.
- The example app's trigger factories (`packages/react-native/example/src/utils/triggers.ts`) are left out. They only build literal triggers from the wall clock and contain no logic to verify.
- Scheduling, the operating system's alarm manager, and the native code that consumes the normalised trigger are left out. They are outside the validator.
