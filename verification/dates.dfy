/**
 * The slice of JavaScript's `Date` (and of date-fns) the core uses, on an
 * integer day count. A date-time is a local calendar day, numbered from
 * 1970-01-01 (day 0, a Thursday), plus a time of day; time zones and
 * daylight-saving shifts are not modelled.
 */
module Dates {

  type Hour = h: int | 0 <= h < 24
  type Minute = m: int | 0 <= m < 60
  type Second = s: int | 0 <= s < 60
  type Millisecond = ms: int | 0 <= ms < 1000

  const MinutesPerDay := 1440
  const MillisPerDay := 86400000

  datatype DateTime = DateTime(day: int, hour: Hour, minute: Minute, second: Second, ms: Millisecond)

  /** `getDay()`: 0 is Sunday, 6 is Saturday; day 0 (1970-01-01) is a Thursday. */
  function Weekday(day: int): (w: int)
    ensures 0 <= w < 7
  {
    (day + 4) % 7
  }

  /** Stepping one day forward advances the weekday by one, Saturday wrapping to Sunday. */
  lemma WeekdayShift(day: int, n: int)
    ensures Weekday(day + n) == (Weekday(day) + n) % 7
  {
  }

  /** Milliseconds since the epoch (`getTime()`, on the local clock). */
  function Instant(d: DateTime): (t: int)
    ensures d.day * MillisPerDay <= t < (d.day + 1) * MillisPerDay
  {
    d.day * MillisPerDay + d.hour * 3600000 + d.minute * 60000 + d.second * 1000 + d.ms
  }

  /** date-fns `isBefore`. */
  predicate IsBefore(a: DateTime, b: DateTime) {
    Instant(a) < Instant(b)
  }

  /** Whole days order instants: an earlier day is before any time of a later day. */
  lemma EarlierDayIsBefore(a: DateTime, b: DateTime)
    requires a.day < b.day
    ensures IsBefore(a, b) && !IsBefore(b, a)
  {
  }

  /** Midnight (00:00:00.000) at the start of a day (date-fns `startOfDay`). */
  function StartOfDay(day: int): (r: DateTime)
    ensures r.day == day && Instant(r) == day * MillisPerDay
  {
    DateTime(day, 0, 0, 0, 0)
  }

  /** 23:59:59.999 at the end of a day (date-fns `endOfDay`). */
  function EndOfDay(day: int): (r: DateTime)
    ensures r.day == day && Instant(r) == (day + 1) * MillisPerDay - 1
  {
    DateTime(day, 23, 59, 59, 999)
  }

  /** date-fns `addDays`, and `setDate(getDate() + n)`: the clock time is kept. */
  function AddDays(d: DateTime, n: int): (r: DateTime)
    ensures r.day == d.day + n
    ensures Instant(r) == Instant(d) + n * MillisPerDay
  {
    d.(day := d.day + n)
  }

  /**
   * `setHours(h, m, 0, 0)`: sets the clock to h:m:00.000 on the same day,
   * where an hour above 23 or a minute above 59 carries into later days.
   */
  function SetHours(d: DateTime, h: nat, m: nat): (r: DateTime)
    ensures r.day * MinutesPerDay + r.hour * 60 + r.minute == d.day * MinutesPerDay + h * 60 + m
    ensures r.second == 0 && r.ms == 0
    ensures r.day >= d.day
    ensures h < 24 && m < 60 ==> r.day == d.day && r.hour == h && r.minute == m
  {
    var total := h * 60 + m;
    DateTime(d.day + total / MinutesPerDay, (total % MinutesPerDay) / 60, (total % MinutesPerDay) % 60, 0, 0)
  }

  // ---------------------------------------------------------------------
  // The proleptic Gregorian calendar, for date-fns' month functions.
  // ---------------------------------------------------------------------

  predicate IsLeapYear(y: int) {
    y % 4 == 0 && (y % 100 != 0 || y % 400 == 0)
  }

  function YearLength(y: int): (n: int)
    ensures n == 365 || n == 366
  {
    if IsLeapYear(y) then 366 else 365
  }

  function MonthLength(y: int, m: int): (n: int)
    requires 1 <= m <= 12
    ensures 28 <= n <= 31
  {
    if m == 2 then (if IsLeapYear(y) then 29 else 28)
    else if m == 4 || m == 6 || m == 9 || m == 11 then 30
    else 31
  }

  /** Days of year `y` before the first of month `m`. */
  function DaysBeforeMonth(y: int, m: int): (n: int)
    requires 1 <= m <= 12
    ensures m == 1 ==> n == 0
    ensures n + MonthLength(y, m) <= YearLength(y)
    ensures m == 12 ==> n + MonthLength(y, m) == YearLength(y)
  {
    var common := [0, 31, 59, 90, 120, 151, 181, 212, 243, 273, 304, 334][m - 1];
    if m > 2 && IsLeapYear(y) then common + 1 else common
  }

  /** Days from 1970-01-01 to the first of January of year `y` (negative before 1970). */
  function DaysBeforeYear(y: int): int
    decreases if y >= 1970 then y - 1970 else 1970 - y
  {
    if y == 1970 then 0
    else if y > 1970 then DaysBeforeYear(y - 1) + YearLength(y - 1)
    else DaysBeforeYear(y + 1) - YearLength(y)
  }

  /** Consecutive years are adjacent on the day line. */
  lemma DaysBeforeNextYear(y: int)
    ensures DaysBeforeYear(y + 1) == DaysBeforeYear(y) + YearLength(y)
  {
  }

  /** Years are disjoint, ordered intervals of days. */
  lemma {:induction false} DaysBeforeYearIncreasing(y: int, z: int)
    requires y < z
    ensures DaysBeforeYear(y) + YearLength(y) <= DaysBeforeYear(z)
    decreases z - y
  {
    DaysBeforeNextYear(y);
    if y + 1 < z {
      DaysBeforeYearIncreasing(y + 1, z);
    }
  }

  datatype CivilDate = CivilDate(year: int, month: int, dom: int)

  predicate ValidCivil(c: CivilDate) {
    1 <= c.month <= 12 && 1 <= c.dom <= MonthLength(c.year, c.month)
  }

  /** The day number of a calendar date. */
  function DaysFromCivil(c: CivilDate): int
    requires ValidCivil(c)
  {
    DaysBeforeYear(c.year) + DaysBeforeMonth(c.year, c.month) + c.dom - 1
  }

  /** The year holding day `DaysBeforeYear(y) + offset`, and the offset within it. */
  function LocateYear(y: int, offset: int): (r: (int, int))
    ensures 0 <= r.1 < YearLength(r.0)
    ensures DaysBeforeYear(r.0) + r.1 == DaysBeforeYear(y) + offset
    decreases if offset < 0 then 1 else 0, if offset < 0 then -offset else offset
  {
    if offset < 0 then
      DaysBeforeNextYear(y - 1);
      LocateYear(y - 1, offset + YearLength(y - 1))
    else if offset < YearLength(y) then (y, offset)
    else
      DaysBeforeNextYear(y);
      LocateYear(y + 1, offset - YearLength(y))
  }

  /** The month of year `y` holding day-of-year `DaysBeforeMonth(y, m) + offset`, and the offset within it. */
  function LocateMonth(y: int, m: int, offset: int): (r: (int, int))
    requires 1 <= m <= 12 && 0 <= offset && DaysBeforeMonth(y, m) + offset < YearLength(y)
    ensures 1 <= r.0 <= 12 && 0 <= r.1 < MonthLength(y, r.0)
    ensures DaysBeforeMonth(y, r.0) + r.1 == DaysBeforeMonth(y, m) + offset
    decreases 12 - m
  {
    if offset < MonthLength(y, m) then (m, offset)
    else LocateMonth(y, m + 1, offset - MonthLength(y, m))
  }

  /** The calendar date (`getFullYear`, `getMonth() + 1`, `getDate()`) of a day number. */
  function CivilFromDays(day: int): (c: CivilDate)
    ensures ValidCivil(c)
    ensures DaysFromCivil(c) == day
  {
    var (y, offset) := LocateYear(1970, day);
    var (m, d) := LocateMonth(y, 1, offset);
    CivilDate(y, m, d + 1)
  }

  /** Within one year, the months are disjoint, ordered intervals of days. */
  lemma MonthsOrdered(y: int, m1: int, m2: int)
    requires 1 <= m1 < m2 <= 12
    ensures DaysBeforeMonth(y, m1) + MonthLength(y, m1) <= DaysBeforeMonth(y, m2)
  {
  }

  /** A day of the year lies in exactly one month. */
  lemma MonthUnique(y: int, m1: int, o1: int, m2: int, o2: int)
    requires 1 <= m1 <= 12 && 0 <= o1 < MonthLength(y, m1)
    requires 1 <= m2 <= 12 && 0 <= o2 < MonthLength(y, m2)
    requires DaysBeforeMonth(y, m1) + o1 == DaysBeforeMonth(y, m2) + o2
    ensures m1 == m2 && o1 == o2
  {
    if m1 < m2 {
      MonthsOrdered(y, m1, m2);
    } else if m2 < m1 {
      MonthsOrdered(y, m2, m1);
    }
  }

  /** Each day number has exactly one calendar date: `CivilFromDays` inverts `DaysFromCivil`. */
  lemma CivilRoundTrip(c: CivilDate)
    requires ValidCivil(c)
    ensures CivilFromDays(DaysFromCivil(c)) == c
  {
    var r := CivilFromDays(DaysFromCivil(c));
    var o1 := DaysBeforeMonth(c.year, c.month) + c.dom - 1;
    var o2 := DaysBeforeMonth(r.year, r.month) + r.dom - 1;
    assert 0 <= o1 < YearLength(c.year) && 0 <= o2 < YearLength(r.year);
    if c.year < r.year {
      DaysBeforeYearIncreasing(c.year, r.year);
    } else if r.year < c.year {
      DaysBeforeYearIncreasing(r.year, c.year);
    }
    MonthUnique(c.year, c.month, c.dom - 1, r.month, r.dom - 1);
  }

  /** Two days fall in the same calendar month (date-fns `isSameMonth`). */
  predicate SameMonth(a: int, b: int) {
    CivilFromDays(a).year == CivilFromDays(b).year && CivilFromDays(a).month == CivilFromDays(b).month
  }

  /** Day number of the first of the month holding `day`. */
  function FirstOfMonth(day: int): (r: int)
    ensures r <= day
    ensures CivilFromDays(r).dom == 1 && SameMonth(r, day)
  {
    var c := CivilFromDays(day);
    CivilRoundTrip(CivilDate(c.year, c.month, 1));
    DaysFromCivil(CivilDate(c.year, c.month, 1))
  }

  /** Day number of the last day of the month holding `day`. */
  function LastOfMonth(day: int): (r: int)
    ensures day <= r
    ensures r - FirstOfMonth(day) + 1 == MonthLength(CivilFromDays(day).year, CivilFromDays(day).month)
    ensures SameMonth(r, day)
  {
    var c := CivilFromDays(day);
    var last := CivilDate(c.year, c.month, MonthLength(c.year, c.month));
    CivilRoundTrip(last);
    DaysFromCivil(last)
  }

  /** The days of a month are exactly the run from its first to its last day. */
  lemma SameMonthIff(x: int, day: int)
    ensures SameMonth(x, day) <==> FirstOfMonth(day) <= x <= LastOfMonth(day)
  {
    var c := CivilFromDays(day);
    var cx := CivilFromDays(x);
    if FirstOfMonth(day) <= x <= LastOfMonth(day) {
      var d := CivilDate(c.year, c.month, x - FirstOfMonth(day) + 1);
      assert DaysFromCivil(d) == x;
      CivilRoundTrip(d);
    }
  }
}
