/**
 The calendar normaliser (`validateCalendarTrigger`), and a reference
 definition of its checking discipline: a list of components, each with an
 allowed range, checked first all for being numbers and then all for lying in
 range, the first failure deciding the error.
 */
module CalendarTrigger {
  import opened TriggerTypes

  /** The allowed values of a calendar component: `year` has no bound. */
  datatype Range = Unbounded | Between(lo: int, hi: int)

  /** One component of a calendar trigger, as the normaliser checks it. */
  datatype Component = Component(field: Field, value: Value, range: Range)

  /** A component holds a number within its range. */
  predicate InRange(c: Component) {
    && c.value.Num?
    && match c.range
       case Unbounded => true
       case Between(lo, hi) => lo as real <= c.value.n <= hi as real
  }

  /** The six components in the order the normaliser checks them, with their ranges. */
  function Components(raw: RawTrigger): (cs: seq<Component>)
    ensures |cs| == 6
  {
    [ Component(TriggerYear, raw.year, Unbounded),
      Component(TriggerMonth, raw.month, Between(1, 12)),
      Component(TriggerDay, raw.day, Between(1, 31)),
      Component(TriggerHour, raw.hour, Between(0, 23)),
      Component(TriggerMinute, raw.minute, Between(0, 59)),
      Component(TriggerSecond, raw.second, Between(0, 59)) ]
  }

  /** The position of the first component that is not a number, if any. */
  function FirstNonNumber(cs: seq<Component>): (r: Option<nat>)
    ensures r.None? <==> forall i :: 0 <= i < |cs| ==> cs[i].value.Num?
    ensures r.Some? ==> r.value < |cs| && !cs[r.value].value.Num?
    ensures r.Some? ==> forall j :: 0 <= j < r.value ==> cs[j].value.Num?
  {
    if |cs| == 0 then None
    else if !cs[0].value.Num? then Some(0)
    else
      match FirstNonNumber(cs[1..])
      case None => None
      case Some(i) => Some(i + 1)
  }

  /** The position of the first component out of its range, if any. */
  function FirstOutOfRange(cs: seq<Component>): (r: Option<nat>)
    ensures r.None? <==> forall i :: 0 <= i < |cs| ==> InRange(cs[i])
    ensures r.Some? ==> r.value < |cs| && !InRange(cs[r.value])
    ensures r.Some? ==> forall j :: 0 <= j < r.value ==> InRange(cs[j])
  {
    if |cs| == 0 then None
    else if !InRange(cs[0]) then Some(0)
    else
      match FirstOutOfRange(cs[1..])
      case None => None
      case Some(i) => Some(i + 1)
  }

  /** The error the normaliser throws for a component out of range. */
  function RangeError(c: Component): (e: Err)
    requires c.range.Between?
    ensures e.OutOfRange? && e.field == c.field
  {
    OutOfRange(c.field, c.range.lo, c.range.hi)
  }

  /**
   The reference checking discipline: every type check before every range
   check, the first failing check deciding the error.
   */
  function FirstFailure(cs: seq<Component>): (r: Option<Err>)
    ensures r.None? <==> forall i :: 0 <= i < |cs| ==> InRange(cs[i])
    ensures (exists i :: 0 <= i < |cs| && !cs[i].value.Num?) <==> r.Some? && r.value.ExpectedNumber?
  {
    match FirstNonNumber(cs)
    case Some(i) => Some(ExpectedNumber(cs[i].field))
    case None =>
      match FirstOutOfRange(cs)
      case Some(i) => Some(RangeError(cs[i]))
      case None => None
  }

  /**
   `validateCalendarTrigger`: the six components must be numbers, checked in
   the order year, month, day, hour, minute, second; then month, day, hour,
   minute and second must lie in 1..12, 1..31, 0..23, 0..59 and 0..59, checked
   in that order. `year` is never range-checked. The output copies the six
   components and `repeats` unchanged: `repeats` is neither defaulted nor
   coerced, because the assignment of `false` at line 195 is overwritten on
   the next line.
   */
  function ValidateCalendar(raw: RawTrigger): (r: Result<Trigger>)
    ensures r.Ok? ==> raw.year.Num? && raw.month.Num? && raw.day.Num? && raw.hour.Num? && raw.minute.Num? && raw.second.Num?
    ensures r.Ok? ==> r.value == Calendar(raw.year.n, raw.month.n, raw.day.n, raw.hour.n, raw.minute.n, raw.second.n, raw.repeats)
    ensures r.Ok? ==> 1.0 <= r.value.month <= 12.0 && 1.0 <= r.value.day <= 31.0
    ensures r.Ok? ==> 0.0 <= r.value.hour <= 23.0 && 0.0 <= r.value.minute <= 59.0 && 0.0 <= r.value.second <= 59.0
    ensures r.Fail? ==> r.error.ExpectedNumber? || r.error.OutOfRange?
  {
    if !raw.year.Num? then Fail(ExpectedNumber(TriggerYear))
    else if !raw.month.Num? then Fail(ExpectedNumber(TriggerMonth))
    else if !raw.day.Num? then Fail(ExpectedNumber(TriggerDay))
    else if !raw.hour.Num? then Fail(ExpectedNumber(TriggerHour))
    else if !raw.minute.Num? then Fail(ExpectedNumber(TriggerMinute))
    else if !raw.second.Num? then Fail(ExpectedNumber(TriggerSecond))
    else if raw.month.n < 1.0 || raw.month.n > 12.0 then Fail(OutOfRange(TriggerMonth, 1, 12))
    else if raw.day.n < 1.0 || raw.day.n > 31.0 then Fail(OutOfRange(TriggerDay, 1, 31))
    else if raw.hour.n < 0.0 || raw.hour.n > 23.0 then Fail(OutOfRange(TriggerHour, 0, 23))
    else if raw.minute.n < 0.0 || raw.minute.n > 59.0 then Fail(OutOfRange(TriggerMinute, 0, 59))
    else if raw.second.n < 0.0 || raw.second.n > 59.0 then Fail(OutOfRange(TriggerSecond, 0, 59))
    else Ok(Calendar(raw.year.n, raw.month.n, raw.day.n, raw.hour.n, raw.minute.n, raw.second.n, raw.repeats))
  }

  /**
   The normaliser follows the reference discipline on its six components: it
   fails exactly when some check fails, with the error of the first failing
   check, type checks first.
   */
  lemma ValidateCalendarChecksInOrder(raw: RawTrigger)
    ensures ValidateCalendar(raw).Ok? <==> forall i :: 0 <= i < 6 ==> InRange(Components(raw)[i])
    ensures ValidateCalendar(raw).Fail? <==> FirstFailure(Components(raw)).Some?
    ensures ValidateCalendar(raw).Fail? ==> ValidateCalendar(raw).error == FirstFailure(Components(raw)).value
  {
    var cs := Components(raw);
    assert cs[0] == Component(TriggerYear, raw.year, Unbounded);
    assert cs[1] == Component(TriggerMonth, raw.month, Between(1, 12));
    assert cs[2] == Component(TriggerDay, raw.day, Between(1, 31));
    assert cs[3] == Component(TriggerHour, raw.hour, Between(0, 23));
    assert cs[4] == Component(TriggerMinute, raw.minute, Between(0, 59));
    assert cs[5] == Component(TriggerSecond, raw.second, Between(0, 59));
  }

  /** The year is never range-checked: any numeric year is accepted with valid other components. */
  lemma AnyYearIsAccepted(raw: RawTrigger, year: real)
    requires ValidateCalendar(raw).Ok?
    ensures ValidateCalendar(raw.(year := Num(year))).Ok?
    ensures ValidateCalendar(raw.(year := Num(year))).value.year == year
  {
  }

  /** The normaliser reads nothing but the six components and `repeats`. */
  lemma ValidateCalendarReadsOnlyItsFields(raw: RawTrigger, other: RawTrigger)
    requires raw.year == other.year && raw.month == other.month && raw.day == other.day
    requires raw.hour == other.hour && raw.minute == other.minute && raw.second == other.second
    requires raw.repeats == other.repeats
    ensures ValidateCalendar(raw) == ValidateCalendar(other)
  {
  }
}
