/**
 * The proleptic Gregorian calendar that JavaScript's `Date` and date-fns use,
 * at the granularity of whole days. A day is identified by its day number:
 * 0 is 1970-01-01 (a Thursday), as in `Date.getTime() / 86400000`.
 */
module Calendar {

  datatype CivilDate = CivilDate(year: int, month: int, day: int)

  predicate IsLeapYear(y: int)
  {
    y % 4 == 0 && (y % 100 != 0 || y % 400 == 0)
  }

  function YearLength(y: int): int
  {
    if IsLeapYear(y) then 366 else 365
  }

  function DaysInMonth(y: int, m: int): (n: int)
    requires 1 <= m <= 12
    ensures 28 <= n <= 31
    ensures n == 29 <==> m == 2 && IsLeapYear(y)
  {
    if m == 2 then (if IsLeapYear(y) then 29 else 28)
    else if m == 4 || m == 6 || m == 9 || m == 11 then 30
    else 31
  }

  predicate Valid(d: CivilDate)
  {
    1 <= d.month <= 12 && 1 <= d.day <= DaysInMonth(d.year, d.month)
  }

  /** Days from 1970-01-01 to January 1st of year `y` (negative before 1970). */
  function DaysBeforeYear(y: int): int
    decreases if y >= 1970 then y - 1970 else 1970 - y
  {
    if y == 1970 then 0
    else if y > 1970 then DaysBeforeYear(y - 1) + YearLength(y - 1)
    else DaysBeforeYear(y + 1) - YearLength(y)
  }

  /** Days from January 1st to the first of month `m` in year `y`. */
  function DaysBeforeMonth(y: int, m: int): int
    requires 1 <= m <= 12
  {
    var leap := if m > 2 && IsLeapYear(y) then 1 else 0;
    [0, 31, 59, 90, 120, 151, 181, 212, 243, 273, 304, 334][m - 1] + leap
  }

  function DayNumber(d: CivilDate): int
    requires Valid(d)
  {
    DaysBeforeYear(d.year) + DaysBeforeMonth(d.year, d.month) + d.day - 1
  }

  /** `Date.getDay()`: 0 is Sunday, 6 is Saturday; day 0 was a Thursday. */
  function Weekday(n: int): (w: int)
    ensures 0 <= w < 7
  {
    (n + 4) % 7
  }

  lemma DaysBeforeYearStep(y: int)
    ensures DaysBeforeYear(y + 1) == DaysBeforeYear(y) + YearLength(y)
  {
  }

  lemma DaysBeforeMonthStep(y: int, m: int)
    requires 1 <= m < 12
    ensures DaysBeforeMonth(y, m + 1) == DaysBeforeMonth(y, m) + DaysInMonth(y, m)
  {
  }

  /** The days of the year before a date, plus the day itself, fit in the year. */
  lemma DayOfYearBound(d: CivilDate)
    requires Valid(d)
    ensures 0 <= DaysBeforeMonth(d.year, d.month) + d.day - 1 < YearLength(d.year)
  {
  }

  /** The day after `d`, rolling over the month and the year. */
  function NextDay(d: CivilDate): (r: CivilDate)
    requires Valid(d)
    ensures Valid(r)
  {
    if d.day < DaysInMonth(d.year, d.month) then d.(day := d.day + 1)
    else if d.month < 12 then CivilDate(d.year, d.month + 1, 1)
    else CivilDate(d.year + 1, 1, 1)
  }

  /** The day before `d`, rolling back over the month and the year. */
  function PrevDay(d: CivilDate): (r: CivilDate)
    requires Valid(d)
    ensures Valid(r)
  {
    if d.day > 1 then d.(day := d.day - 1)
    else if d.month > 1 then CivilDate(d.year, d.month - 1, DaysInMonth(d.year, d.month - 1))
    else CivilDate(d.year - 1, 12, 31)
  }

  lemma NextDayNumber(d: CivilDate)
    requires Valid(d)
    ensures DayNumber(NextDay(d)) == DayNumber(d) + 1
  {
    if d.day == DaysInMonth(d.year, d.month) {
      if d.month < 12 {
        DaysBeforeMonthStep(d.year, d.month);
      } else {
        DaysBeforeYearStep(d.year);
      }
    }
  }

  lemma PrevDayNumber(d: CivilDate)
    requires Valid(d)
    ensures DayNumber(PrevDay(d)) == DayNumber(d) - 1
  {
    if d.day == 1 {
      if d.month > 1 {
        DaysBeforeMonthStep(d.year, d.month - 1);
      } else {
        DaysBeforeYearStep(d.year - 1);
      }
    }
  }

  /** `d` moved by `k` days (`setDate(getDate() + k)`), one day at a time. */
  function AddDays(d: CivilDate, k: int): (r: CivilDate)
    requires Valid(d)
    ensures Valid(r)
    decreases if k >= 0 then k else -k
  {
    if k == 0 then d
    else if k > 0 then AddDays(NextDay(d), k - 1)
    else AddDays(PrevDay(d), k + 1)
  }

  lemma {:induction false} AddDaysNumber(d: CivilDate, k: int)
    requires Valid(d)
    ensures DayNumber(AddDays(d, k)) == DayNumber(d) + k
    decreases if k >= 0 then k else -k
  {
    if k > 0 {
      NextDayNumber(d);
      AddDaysNumber(NextDay(d), k - 1);
    } else if k < 0 {
      PrevDayNumber(d);
      AddDaysNumber(PrevDay(d), k + 1);
    }
  }

  lemma {:induction false} DaysBeforeYearMonotone(a: int, b: int)
    requires a < b
    ensures DaysBeforeYear(a) + YearLength(a) <= DaysBeforeYear(b)
    decreases b - a
  {
    DaysBeforeYearStep(a);
    if a + 1 < b {
      DaysBeforeYearMonotone(a + 1, b);
      DaysBeforeYearStep(a + 1);
    }
  }

  lemma DaysBeforeMonthMonotone(y: int, a: int, b: int)
    requires 1 <= a < b <= 12
    ensures DaysBeforeMonth(y, a) + DaysInMonth(y, a) <= DaysBeforeMonth(y, b)
  {
  }

  /** Earlier in the calendar means a smaller day number. */
  lemma DayNumberStrictlyMonotone(a: CivilDate, b: CivilDate)
    requires Valid(a) && Valid(b)
    requires a.year < b.year
          || (a.year == b.year && a.month < b.month)
          || (a.year == b.year && a.month == b.month && a.day < b.day)
    ensures DayNumber(a) < DayNumber(b)
  {
    if a.year < b.year {
      DayOfYearBound(a);
      DayOfYearBound(b);
      DaysBeforeYearMonotone(a.year, b.year);
    } else if a.month < b.month {
      DaysBeforeMonthMonotone(a.year, a.month, b.month);
    }
  }

  /** Distinct valid dates have distinct day numbers. */
  lemma DayNumberInjective(a: CivilDate, b: CivilDate)
    requires Valid(a) && Valid(b)
    requires DayNumber(a) == DayNumber(b)
    ensures a == b
  {
    if a.year != b.year || a.month != b.month || a.day != b.day {
      if a.year < b.year || (a.year == b.year && a.month < b.month)
        || (a.year == b.year && a.month == b.month && a.day < b.day) {
        DayNumberStrictlyMonotone(a, b);
      } else {
        DayNumberStrictlyMonotone(b, a);
      }
    }
  }

  /** Moving `k` days and then `-k` days comes back to the same date. */
  lemma AddDaysRoundTrip(d: CivilDate, k: int)
    requires Valid(d)
    ensures AddDays(AddDays(d, k), -k) == d
  {
    AddDaysNumber(d, k);
    AddDaysNumber(AddDays(d, k), -k);
    DayNumberInjective(AddDays(AddDays(d, k), -k), d);
  }

  /**
   * date-fns `addMonths(d, k)`: the same day in the month `k` months away,
   * clamped to that month's last day.
   */
  function AddMonths(d: CivilDate, k: int): (r: CivilDate)
    requires Valid(d)
    ensures Valid(r)
    ensures r.year * 12 + r.month == d.year * 12 + d.month + k
    ensures r.day == if d.day <= DaysInMonth(r.year, r.month) then d.day else DaysInMonth(r.year, r.month)
  {
    var index := d.year * 12 + (d.month - 1) + k;
    var y := index / 12;
    var m := index % 12 + 1;
    var last := DaysInMonth(y, m);
    CivilDate(y, m, if d.day <= last then d.day else last)
  }

  /** A month forward and back returns to the same date whenever its day exists in the target month. */
  lemma AddMonthsRoundTrip(d: CivilDate, k: int)
    requires Valid(d) && d.day <= DaysInMonth(AddMonths(d, k).year, AddMonths(d, k).month)
    ensures AddMonths(AddMonths(d, k), -k) == d
  {
    var r := AddMonths(d, k);
    var b := AddMonths(r, -k);
    assert r.day == d.day;
    assert b.year * 12 + b.month == d.year * 12 + d.month;
    MonthIndexInjective(b.year, b.month, d.year, d.month);
  }

  /** A year and a month are determined by their month index. */
  lemma MonthIndexInjective(y1: int, m1: int, y2: int, m2: int)
    requires 1 <= m1 <= 12 && 1 <= m2 <= 12 && y1 * 12 + m1 == y2 * 12 + m2
    ensures y1 == y2 && m1 == m2
  {
  }

  /** Days up to the 28th exist in every month, so they always come back. */
  lemma AddMonthsRoundTripEarlyDays(d: CivilDate, k: int)
    requires Valid(d) && d.day <= 28
    ensures AddMonths(AddMonths(d, k), -k) == d
  {
    AddMonthsRoundTrip(d, k);
  }

  /** One month on from January 31st of a common year is February 28th: the clamp at work. */
  lemma AddMonthsClampsToMonthEnd()
    ensures AddMonths(CivilDate(2023, 1, 31), 1) == CivilDate(2023, 2, 28)
    ensures AddMonths(AddMonths(CivilDate(2023, 1, 31), 1), -1) == CivilDate(2023, 1, 28)
  {
  }
}
