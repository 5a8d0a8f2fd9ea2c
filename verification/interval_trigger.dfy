/**
 The interval normaliser (`validateIntervalTrigger`) and the fifteen-minute
 minimum it enforces (`isMinimumInterval`).
 */
module IntervalTrigger {
  import opened TriggerTypes

  /** `MINIMUM_INTERVAL`: the shortest interval, in minutes, the policy aims for. */
  const MINIMUM_INTERVAL: real := 15.0

  /** How many seconds one unit lasts: the reference against which the minimum is judged. */
  function SecondsPer(unit: TimeUnit): (s: real)
    ensures s >= 1.0
  {
    match unit
    case SECONDS => 1.0
    case MINUTES => 60.0
    case HOURS => 3600.0
    case DAYS => 86400.0
  }

  /** The interval lasts at least `MINIMUM_INTERVAL` minutes. */
  predicate SpansMinimum(interval: real, unit: TimeUnit) {
    interval * SecondsPer(unit) >= MINIMUM_INTERVAL * 60.0
  }

  /**
   `isMinimumInterval`. For seconds and minutes it accepts exactly the
   intervals lasting fifteen minutes or more; for hours and days it asks for
   at least one whole unit, which is stricter than fifteen minutes. Either
   way an accepted interval lasts at least fifteen minutes.
   */
  function IsMinimumInterval(interval: real, unit: TimeUnit): (r: bool)
    ensures (unit == SECONDS || unit == MINUTES) ==> (r <==> SpansMinimum(interval, unit))
    ensures (unit == HOURS || unit == DAYS) ==> (r <==> interval >= 1.0)
    ensures r ==> SpansMinimum(interval, unit)
  {
    match unit
    case SECONDS => interval / 60.0 >= MINIMUM_INTERVAL
    case MINUTES => interval >= MINIMUM_INTERVAL
    case HOURS => interval >= 1.0
    case DAYS => interval >= 1.0
  }

  /** Once an interval passes the minimum, every longer interval in the same unit passes too. */
  lemma MinimumIsMonotone(interval: real, longer: real, unit: TimeUnit)
    requires interval <= longer
    requires IsMinimumInterval(interval, unit)
    ensures IsMinimumInterval(longer, unit)
  {
  }

  /** The unit the normaliser settles on: the given one, or `SECONDS` when none is given. */
  function UnitOrDefault(p: EnumProp<TimeUnit>): TimeUnit {
    if p.Member? then p.member else SECONDS
  }

  /**
   `validateIntervalTrigger`: `interval` must be a number, `timeUnit`
   defaults to `SECONDS` and otherwise must be a `TimeUnit`, and the
   interval must pass the minimum for the resolved unit. The checks run in
   that order; the output holds only the interval and the resolved unit.
   */
  function ValidateInterval(raw: RawTrigger): (r: Result<Trigger>)
    ensures !raw.interval.Num? ==> r == Fail(ExpectedNumber(TriggerInterval))
    ensures raw.interval.Num? && raw.timeUnit.NotAMember? ==> r == Fail(ExpectedEnum(TriggerTimeUnit))
    ensures raw.interval.Num? && !raw.timeUnit.NotAMember? && !IsMinimumInterval(raw.interval.n, UnitOrDefault(raw.timeUnit)) ==>
      r == Fail(IntervalBelowMinimum)
    ensures r.Ok? <==>
      raw.interval.Num? && !raw.timeUnit.NotAMember? && IsMinimumInterval(raw.interval.n, UnitOrDefault(raw.timeUnit))
    ensures r.Ok? ==> r.value == Interval(raw.interval.n, UnitOrDefault(raw.timeUnit))
    ensures r.Ok? ==> SpansMinimum(r.value.interval, r.value.timeUnit)
    ensures r.Fail? ==> r.error in {ExpectedNumber(TriggerInterval), ExpectedEnum(TriggerTimeUnit), IntervalBelowMinimum}
  {
    if !raw.interval.Num? then
      Fail(ExpectedNumber(TriggerInterval))
    else
      var given :- ResolveEnum(raw.timeUnit, TriggerTimeUnit);
      var unit := if given.Some? then given.value else SECONDS;
      if !IsMinimumInterval(raw.interval.n, unit) then
        Fail(IntervalBelowMinimum)
      else
        Ok(Interval(raw.interval.n, unit))
  }

  /** The normaliser reads nothing but `interval` and `timeUnit`. */
  lemma ValidateIntervalReadsOnlyItsFields(raw: RawTrigger, other: RawTrigger)
    requires raw.interval == other.interval && raw.timeUnit == other.timeUnit
    ensures ValidateInterval(raw) == ValidateInterval(other)
  {
  }
}
