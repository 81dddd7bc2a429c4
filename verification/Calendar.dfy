/**
 * UTC calendar arithmetic of ECMA-262 section 21.4.1 on integer milliseconds: days,
 * months, and the Date setters the recurrence engine uses. A month carries one
 * absolute index, 12 * year + month, so adding months is integer addition.
 */
module Calendar {

  const MS_PER_DAY: int := 86_400_000
  /** Largest time value a Date can hold (section 21.4.1.1). */
  const MAX_TIME: int := 8_640_000_000_000_000
  /** January 1970, the month of day 0. */
  const EPOCH_MONTH: int := 12 * 1970

  datatype Instant = Invalid | At(ms: int)

  function TimeClip(ms: int): Instant {
    if -MAX_TIME <= ms <= MAX_TIME then At(ms) else Invalid
  }

  function Day(ms: int): int { ms / MS_PER_DAY }

  function TimeInDay(ms: int): int { ms % MS_PER_DAY }

  predicate Leap(y: int) { y % 4 == 0 && (y % 100 != 0 || y % 400 == 0) }

  function DaysInMonth(k: int): (days: int)
    ensures 28 <= days <= 31
  {
    var m := k % 12;
    if m == 1 then (if Leap(k / 12) then 29 else 28)
    else if m == 3 || m == 5 || m == 8 || m == 10 then 30
    else 31
  }

  /** Day number of the first day of month k: month lengths summed from the epoch. */
  function MonthStart(k: int): int
    decreases if k < EPOCH_MONTH then EPOCH_MONTH - k else k - EPOCH_MONTH
  {
    if k == EPOCH_MONTH then 0
    else if k < EPOCH_MONTH then MonthStart(k + 1) - DaysInMonth(k)
    else MonthStart(k - 1) + DaysInMonth(k - 1)
  }

  lemma MonthLength(k: int)
    ensures MonthStart(k + 1) == MonthStart(k) + DaysInMonth(k)
  {}

  lemma {:induction false} MonthStartMonotone(a: int, b: int)
    requires a <= b
    ensures MonthStart(a) + 28 * (b - a) <= MonthStart(b) <= MonthStart(a) + 31 * (b - a)
    decreases b - a
  {
    if a < b {
      MonthLength(b - 1);
      MonthStartMonotone(a, b - 1);
    }
  }

  /** Day number of January 1st by the standard's closed formula (section 21.4.1.3). */
  function DayFromYear(y: int): int {
    365 * (y - 1970) + (y - 1969) / 4 - (y - 1901) / 100 + (y - 1601) / 400
  }

  lemma FourthYears(y: int)
    ensures (y - 1968) / 4 - (y - 1969) / 4 == if y % 4 == 0 then 1 else 0
  {}

  lemma HundredthYears(y: int)
    ensures (y - 1900) / 100 - (y - 1901) / 100 == if y % 100 == 0 then 1 else 0
  {}

  lemma FourHundredthYears(y: int)
    ensures (y - 1600) / 400 - (y - 1601) / 400 == if y % 400 == 0 then 1 else 0
  {}

  lemma CenturiesAreFourths(y: int)
    ensures y % 100 == 0 ==> y % 4 == 0
  {}

  lemma FourCenturies(y: int)
    ensures y % 400 == 0 ==> y % 100 == 0
  {}

  lemma LeapCount(y: int)
    ensures (if Leap(y) then 1 else 0)
            == (if y % 4 == 0 then 1 else 0) - (if y % 100 == 0 then 1 else 0) + (if y % 400 == 0 then 1 else 0)
  {
    CenturiesAreFourths(y);
    FourCenturies(y);
  }

  lemma YearLength(y: int)
    ensures DayFromYear(y + 1) - DayFromYear(y) == if Leap(y) then 366 else 365
  {
    FourthYears(y);
    HundredthYears(y);
    FourHundredthYears(y);
    LeapCount(y);
  }

  lemma MonthInYear(y: int, m: int)
    requires 0 <= m < 12
    ensures (12 * y + m) / 12 == y && (12 * y + m) % 12 == m
    ensures MonthStart(12 * y + m + 1) == MonthStart(12 * y + m) + DaysInMonth(12 * y + m)
  {
    MonthLength(12 * y + m);
  }

  /** Days of a common year before each of its months. */
  const DAYS_BEFORE_MONTH: seq<int> := [0, 31, 59, 90, 120, 151, 181, 212, 243, 273, 304, 334]

  lemma {:induction false} MonthOffset(y: int, m: nat)
    requires m < 12
    ensures MonthStart(12 * y + m) == MonthStart(12 * y) + DAYS_BEFORE_MONTH[m] + if m >= 2 && Leap(y) then 1 else 0
  {
    if m > 0 {
      MonthOffset(y, m - 1);
      MonthInYear(y, m - 1);
    }
  }

  lemma NextYear(y: int)
    ensures MonthStart(12 * (y + 1)) == MonthStart(12 * y) + if Leap(y) then 366 else 365
  {
    MonthOffset(y, 11);
    MonthInYear(y, 11);
  }

  /** Summing month lengths agrees with the standard's formula in every year. */
  lemma {:induction false} JanuaryIsDayFromYear(y: int)
    ensures MonthStart(12 * y) == DayFromYear(y)
    decreases if y < 1970 then 1970 - y else y - 1970
  {
    if y < 1970 {
      JanuaryIsDayFromYear(y + 1);
      NextYear(y);
      YearLength(y);
    } else if y > 1970 {
      JanuaryIsDayFromYear(y - 1);
      NextYear(y - 1);
      YearLength(y - 1);
    }
  }

  /** Every month starts where the standard's table puts it. */
  lemma MonthsAreTabulated(y: int, m: nat)
    requires m < 12
    ensures MonthStart(12 * y + m) == DayFromYear(y) + DAYS_BEFORE_MONTH[m] + if m >= 2 && Leap(y) then 1 else 0
  {
    JanuaryIsDayFromYear(y);
    MonthOffset(y, m);
  }

  function MonthAtOrAfter(d: int, k: int): (r: int)
    requires MonthStart(k) <= d
    ensures MonthStart(r) <= d < MonthStart(r + 1)
    decreases d - MonthStart(k)
  {
    MonthLength(k);
    if d < MonthStart(k + 1) then k else MonthAtOrAfter(d, k + 1)
  }

  function MonthAtOrBefore(d: int, k: int): (r: int)
    requires d < MonthStart(k + 1)
    ensures MonthStart(r) <= d < MonthStart(r + 1)
    decreases MonthStart(k + 1) - d
  {
    MonthLength(k);
    if MonthStart(k) <= d then k else MonthAtOrBefore(d, k - 1)
  }

  /** The month holding day d. */
  function MonthOfDay(d: int): (k: int)
    ensures MonthStart(k) <= d < MonthStart(k + 1)
  {
    if 0 <= d then MonthAtOrAfter(d, EPOCH_MONTH) else MonthAtOrBefore(d, EPOCH_MONTH - 1)
  }

  /** The month of a day is the only month whose days include it. */
  lemma MonthOfDayUnique(d: int, k: int)
    requires MonthStart(k) <= d < MonthStart(k + 1)
    ensures MonthOfDay(d) == k
  {
    var j := MonthOfDay(d);
    if j < k {
      MonthStartMonotone(j + 1, k);
    } else if k < j {
      MonthStartMonotone(k + 1, j);
    }
  }

  /** A later day never falls in an earlier month. */
  lemma MonthMonotone(a: int, b: int)
    requires a <= b
    ensures MonthOfDay(a) <= MonthOfDay(b)
  {
    if MonthOfDay(b) < MonthOfDay(a) {
      MonthStartMonotone(MonthOfDay(b) + 1, MonthOfDay(a));
    }
  }

  function MonthAt(ms: int): int { MonthOfDay(Day(ms)) }

  function DayOfMonth(ms: int): (d: int)
    ensures 1 <= d <= DaysInMonth(MonthAt(ms))
  {
    MonthLength(MonthAt(ms));
    Day(ms) - MonthStart(MonthAt(ms)) + 1
  }

  /** Time value of day `date` (1-based, any integer) of month k at a time of day. */
  function MakeTime(k: int, date: int, timeInDay: int): int {
    (MonthStart(k) + date - 1) * MS_PER_DAY + timeInDay
  }

  /** setUTCDate; an invalid Date stays invalid. */
  function SetUtcDate(t: Instant, date: int): Instant {
    match t
    case Invalid => Invalid
    case At(ms) => TimeClip(MakeTime(MonthAt(ms), date, TimeInDay(ms)))
  }

  /** setUTCMonth, whose argument counts from January of the Date's year. */
  function SetUtcMonth(t: Instant, month: int): Instant {
    match t
    case Invalid => Invalid
    case At(ms) => TimeClip(MakeTime(12 * (MonthAt(ms) / 12) + month, DayOfMonth(ms), TimeInDay(ms)))
  }

  /** Date.UTC, which reads a year 0 to 99 as one of the 1900s. */
  function DateUtc(year: int, month: int, date: int): Instant {
    var y := if 0 <= year <= 99 then 1900 + year else year;
    TimeClip(MakeTime(12 * y + month, date, 0))
  }

  lemma DivMod(d: int, r: int)
    requires 0 <= r < MS_PER_DAY
    ensures Day(d * MS_PER_DAY + r) == d && TimeInDay(d * MS_PER_DAY + r) == r
  {}

  /** Writing fields and reading them back: month, day and time of day all survive. */
  lemma MakeTimeFields(k: int, date: int, timeInDay: int)
    requires 1 <= date <= DaysInMonth(k) && 0 <= timeInDay < MS_PER_DAY
    ensures MonthAt(MakeTime(k, date, timeInDay)) == k
    ensures DayOfMonth(MakeTime(k, date, timeInDay)) == date
    ensures TimeInDay(MakeTime(k, date, timeInDay)) == timeInDay
  {
    var d := MonthStart(k) + date - 1;
    MonthLength(k);
    DivMod(d, timeInDay);
    MonthOfDayUnique(d, k);
  }

  /** Every instant is rebuilt from its own fields. */
  lemma FieldsMakeTime(ms: int)
    ensures MakeTime(MonthAt(ms), DayOfMonth(ms), TimeInDay(ms)) == ms
  {}
}
