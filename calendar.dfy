/**
 * The calendar rules that Python's `datetime(...)` constructor enforces when
 * `parse_filename` builds its result: proleptic Gregorian dates in years
 * 1..9999, times of day in 24-hour form, and microseconds below one second.
 */
module Calendar {

  const MIN_YEAR := 1
  const MAX_YEAR := 9999

  /** A timestamp in UTC, field by field (the source never applies an offset). */
  datatype DateTime = DateTime(
    year: int, month: int, day: int,
    hour: int, minute: int, second: int, microsecond: int)

  /** The first field the constructor rejects; each is a `ValueError` in Python. */
  datatype CalendarError =
    | YearOutOfRange
    | MonthOutOfRange
    | DayOutOfRange
    | HourOutOfRange
    | MinuteOutOfRange
    | SecondOutOfRange
    | MicrosecondOutOfRange

  /** What the constructor does: returns the value or raises. */
  datatype Construction = Built(dt: DateTime) | Raised(error: CalendarError)

  /** The 4/100/400 leap-year rule of the Gregorian calendar. */
  predicate IsLeapYear(year: int)
  {
    year % 4 == 0 && (year % 100 != 0 || year % 400 == 0)
  }

  function DaysInMonth(year: int, month: int): (n: int)
    requires 1 <= month <= 12
    ensures 28 <= n <= 31
    ensures n == 29 <==> month == 2 && IsLeapYear(year)
  {
    if month == 2 then (if IsLeapYear(year) then 29 else 28)
    else if month in {4, 6, 9, 11} then 30
    else 31
  }

  /** The number of days in the months of `year` before `month`; `DaysBefore(year, 13)` is the year's length. */
  function DaysBefore(year: int, month: int): int
    requires 1 <= month <= 13
    decreases month
  {
    if month == 1 then 0 else DaysBefore(year, month - 1) + DaysInMonth(year, month - 1)
  }

  /** A year has 366 days exactly when it is a leap year, 365 otherwise. */
  lemma YearLength(year: int)
    ensures DaysBefore(year, 13) == if IsLeapYear(year) then 366 else 365
  {
  }

  /** Every field of `dt` lies in the range the constructor accepts. */
  predicate IsValid(dt: DateTime)
  {
    && MIN_YEAR <= dt.year <= MAX_YEAR
    && 1 <= dt.month <= 12
    && 1 <= dt.day <= DaysInMonth(dt.year, dt.month)
    && 0 <= dt.hour <= 23
    && 0 <= dt.minute <= 59
    && 0 <= dt.second <= 59
    && 0 <= dt.microsecond <= 999999
  }

  /** The position of each check in the order the constructor makes them. */
  function CheckOrder(e: CalendarError): nat
  {
    match e
    case YearOutOfRange => 0
    case MonthOutOfRange => 1
    case DayOutOfRange => 2
    case HourOutOfRange => 3
    case MinuteOutOfRange => 4
    case SecondOutOfRange => 5
    case MicrosecondOutOfRange => 6
  }

  /** The single check that error `e` reports a failure of; the day check
      presupposes the month check (the month length is undefined otherwise). */
  predicate Passes(dt: DateTime, e: CalendarError)
  {
    match e
    case YearOutOfRange => MIN_YEAR <= dt.year <= MAX_YEAR
    case MonthOutOfRange => 1 <= dt.month <= 12
    case DayOutOfRange => 1 <= dt.month <= 12 && 1 <= dt.day <= DaysInMonth(dt.year, dt.month)
    case HourOutOfRange => 0 <= dt.hour <= 23
    case MinuteOutOfRange => 0 <= dt.minute <= 59
    case SecondOutOfRange => 0 <= dt.second <= 59
    case MicrosecondOutOfRange => 0 <= dt.microsecond <= 999999
  }

  /**
   * `datetime(year, month, day, hour, minute, second, microsecond)`: builds
   * the value when every field is in range, and otherwise raises for the
   * first check, in the constructor's order, that fails.
   */
  function NewDateTime(year: int, month: int, day: int,
                       hour: int, minute: int, second: int, microsecond: int): (r: Construction)
    ensures r.Built? <==> IsValid(DateTime(year, month, day, hour, minute, second, microsecond))
    ensures r.Built? ==> r.dt == DateTime(year, month, day, hour, minute, second, microsecond)
    ensures r.Raised? ==>
      && !Passes(DateTime(year, month, day, hour, minute, second, microsecond), r.error)
      && forall e :: CheckOrder(e) < CheckOrder(r.error) ==>
           Passes(DateTime(year, month, day, hour, minute, second, microsecond), e)
  {
    if !(MIN_YEAR <= year <= MAX_YEAR) then Raised(YearOutOfRange)
    else if !(1 <= month <= 12) then Raised(MonthOutOfRange)
    else if !(1 <= day <= DaysInMonth(year, month)) then Raised(DayOutOfRange)
    else if !(0 <= hour <= 23) then Raised(HourOutOfRange)
    else if !(0 <= minute <= 59) then Raised(MinuteOutOfRange)
    else if !(0 <= second <= 59) then Raised(SecondOutOfRange)
    else if !(0 <= microsecond <= 999999) then Raised(MicrosecondOutOfRange)
    else Built(DateTime(year, month, day, hour, minute, second, microsecond))
  }

  /** A value is valid exactly when it passes every single check. */
  lemma ValidIffAllPass(dt: DateTime)
    ensures IsValid(dt) <==> forall e :: Passes(dt, e)
  {
    if !IsValid(dt) {
      var r := NewDateTime(dt.year, dt.month, dt.day, dt.hour, dt.minute, dt.second, dt.microsecond);
      assert !Passes(dt, r.error);
    }
  }
}
