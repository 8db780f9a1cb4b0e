/** The proleptic Gregorian calendar as JavaScript's `Date` uses it, in UTC.
    A subscription end date is the `YYYY-MM-DD` string the application
    stores; `new Date(thatString)` is midnight UTC of that day. The clock is
    an `Instant`: the current UTC date and the milliseconds since its
    midnight, which together give `Date.now()`. */
module Calendar {

  /** A civil date as an ISO `YYYY-MM-DD` string holds it. */
  datatype Date = Date(year: int, month: int, day: int)

  /** A reading of the clock: the UTC date and the milliseconds elapsed since its midnight. */
  datatype Instant = Instant(date: Date, msOfDay: int)

  /** `1000 * 60 * 60 * 24`. */
  const DayMs: int := 86400000

  predicate IsLeapYear(y: int)
  {
    y % 4 == 0 && (y % 100 != 0 || y % 400 == 0)
  }

  function DaysInYear(y: int): int
  {
    if IsLeapYear(y) then 366 else 365
  }

  function DaysInMonth(y: int, m: int): (n: int)
    ensures 28 <= n <= 31
  {
    if m == 2 then (if IsLeapYear(y) then 29 else 28)
    else if m == 4 || m == 6 || m == 9 || m == 11 then 30
    else 31
  }

  predicate Valid(d: Date)
  {
    1 <= d.month <= 12 && 1 <= d.day <= DaysInMonth(d.year, d.month)
  }

  predicate ValidInstant(t: Instant)
  {
    Valid(t.date) && 0 <= t.msOfDay < DayMs
  }

  /** Days from 1970-01-01 to January 1st of year `y` (negative before 1970). */
  function DaysBeforeYear(y: int): int
    decreases if y < 1970 then 1970 - y else y - 1970
  {
    if y == 1970 then 0
    else if y > 1970 then DaysBeforeYear(y - 1) + DaysInYear(y - 1)
    else DaysBeforeYear(y + 1) - DaysInYear(y)
  }

  /** Days from January 1st of year `y` to the first day of month `m`; month 13 is the next January. */
  function DaysBeforeMonth(y: int, m: int): int
  {
    var common :=
      if m <= 1 then 0 else if m == 2 then 31 else if m == 3 then 59
      else if m == 4 then 90 else if m == 5 then 120 else if m == 6 then 151
      else if m == 7 then 181 else if m == 8 then 212 else if m == 9 then 243
      else if m == 10 then 273 else if m == 11 then 304 else if m == 12 then 334
      else 365;
    common + (if m > 2 && IsLeapYear(y) then 1 else 0)
  }

  /** Months counted from January of year 0: the index that `setMonth` arithmetic works on. */
  function MonthIndex(d: Date): int
  {
    d.year * 12 + d.month - 1
  }

  /** Day number of the first day of the month with index `i`. */
  function MonthStart(i: int): int
  {
    DaysBeforeYear(i / 12) + DaysBeforeMonth(i / 12, i % 12 + 1)
  }

  /** Days since 1970-01-01: `new Date(d).getTime() / DayMs`. */
  function DayNumber(d: Date): int
  {
    MonthStart(MonthIndex(d)) + d.day - 1
  }

  /** `new Date("YYYY-MM-DD").getTime()`. */
  function MidnightMs(d: Date): int
  {
    DayNumber(d) * DayMs
  }

  /** `Date.now()`. */
  function EpochMs(t: Instant): int
  {
    DayNumber(t.date) * DayMs + t.msOfDay
  }

  lemma YearStep(y: int)
    ensures DaysBeforeYear(y + 1) == DaysBeforeYear(y) + DaysInYear(y)
  {
  }

  /** Consecutive months are as far apart as the first one is long. */
  lemma MonthStartStep(i: int)
    ensures MonthStart(i + 1) == MonthStart(i) + DaysInMonth(i / 12, i % 12 + 1)
  {
  }

  /** Month starts grow by at least 28 days a month. */
  lemma {:induction false} MonthStartGrows(i: int, k: nat)
    ensures MonthStart(i + k) >= MonthStart(i) + 28 * k
  {
    if k > 0 {
      MonthStartGrows(i, k - 1);
      MonthStartStep(i + k - 1);
    }
  }

  /** The month index of the date built from a month index and a day. */
  lemma MonthIndexOf(i: int, day: int)
    ensures MonthIndex(Date(i / 12, i % 12 + 1, day)) == i
  {
  }

  /** A valid date's month index splits back into its year and month. */
  lemma MonthIndexParts(d: Date)
    requires 1 <= d.month <= 12
    ensures MonthIndex(d) / 12 == d.year && MonthIndex(d) % 12 + 1 == d.month
  {
  }

  /** The day after the last day of a month is the first of the next month. */
  lemma FirstOfNextMonth(d: Date)
    requires Valid(d) && d.day == DaysInMonth(d.year, d.month)
    ensures var i := MonthIndex(d) + 1;
      DayNumber(Date(i / 12, i % 12 + 1, 1)) == DayNumber(d) + 1
  {
    var i := MonthIndex(d) + 1;
    MonthIndexOf(i, 1);
    MonthIndexParts(d);
    MonthStartStep(i - 1);
  }

  /** The next calendar day. */
  function NextDay(d: Date): (r: Date)
    ensures Valid(d) ==> Valid(r) && DayNumber(r) == DayNumber(d) + 1
  {
    if d.day < DaysInMonth(d.year, d.month) then d.(day := d.day + 1)
    else
      var i := MonthIndex(d) + 1;
      if Valid(d) then FirstOfNextMonth(d); Date(i / 12, i % 12 + 1, 1)
      else Date(i / 12, i % 12 + 1, 1)
  }

  /** The date `n` days after `d`, as `new Date(d.getTime() + n * DayMs)` gives it. */
  function AddDays(d: Date, n: nat): (r: Date)
    decreases n
    ensures Valid(d) ==> Valid(r) && DayNumber(r) == DayNumber(d) + n
  {
    if n == 0 then d else AddDays(NextDay(d), n - 1)
  }

  /** `date.setMonth(date.getMonth() + k)` on a UTC date: the month moves by `k`
      and a day past the end of the new month runs over into the following one. */
  function AddMonths(d: Date, k: int): (r: Date)
    ensures Valid(d) ==> Valid(r) && DayNumber(r) == MonthStart(MonthIndex(d) + k) + d.day - 1
  {
    var i := MonthIndex(d) + k;
    var length := DaysInMonth(i / 12, i % 12 + 1);
    MonthIndexOf(i, d.day);
    if d.day <= length then Date(i / 12, i % 12 + 1, d.day)
    else
      MonthIndexOf(i + 1, d.day - length);
      MonthStartStep(i);
      Date((i + 1) / 12, (i + 1) % 12 + 1, d.day - length)
  }

  /** Extending by at least one month moves a valid date strictly later. */
  lemma AddMonthsIsLater(d: Date, k: int)
    requires Valid(d) && k >= 1
    ensures DayNumber(AddMonths(d, k)) > DayNumber(d)
  {
    MonthStartGrows(MonthIndex(d), k);
  }

  /** Adding no months leaves a valid date as it is. */
  lemma AddZeroMonths(d: Date)
    requires Valid(d)
    ensures AddMonths(d, 0) == d
  {
    assert (d.year * 12 + d.month - 1) / 12 == d.year;
    assert (d.year * 12 + d.month - 1) % 12 + 1 == d.month;
  }

  /** The clock reading, in day numbers, is the day of its UTC midnight. */
  lemma EpochDay(t: Instant)
    requires ValidInstant(t)
    ensures MidnightMs(t.date) <= EpochMs(t) < MidnightMs(t.date) + DayMs
  {
  }
}
