/**
 * The calendar helpers of src/utils/dateUtils.ts, on the day numbers of
 * `Dates`. Weeks start on Monday (`weekStartsOn: 1`); a start-of helper
 * returns midnight, an end-of helper 23:59:59.999.
 */
module DateUtils {
  import opened Dates

  /** Days since the most recent Monday: 0 on a Monday, 6 on a Sunday. */
  function DaysSinceMonday(day: int): (n: int)
    ensures 0 <= n < 7
    ensures Weekday(day - n) == 1
  {
    (Weekday(day) + 6) % 7
  }

  /** `getStartOfWeek`: midnight of the Monday on or before the date. */
  function GetStartOfWeek(date: DateTime): (r: DateTime)
    ensures r == StartOfDay(r.day)
    ensures Weekday(r.day) == 1 && date.day - 6 <= r.day <= date.day
  {
    StartOfDay(date.day - DaysSinceMonday(date.day))
  }

  /** `getEndOfWeek`: the last millisecond of the Sunday on or after the date. */
  function GetEndOfWeek(date: DateTime): (r: DateTime)
    ensures r == EndOfDay(r.day)
    ensures Weekday(r.day) == 0 && date.day <= r.day <= date.day + 6
    ensures r.day == GetStartOfWeek(date).day + 6
  {
    EndOfDay(date.day - DaysSinceMonday(date.day) + 6)
  }

  /** `getStartOfMonth`: midnight of the first of the date's month. */
  function GetStartOfMonth(date: DateTime): (r: DateTime)
    ensures r == StartOfDay(r.day) && r.day <= date.day
    ensures CivilFromDays(r.day).dom == 1 && SameMonth(r.day, date.day)
  {
    StartOfDay(FirstOfMonth(date.day))
  }

  /** `getEndOfMonth`: the last millisecond of the last day of the date's month. */
  function GetEndOfMonth(date: DateTime): (r: DateTime)
    ensures r == EndOfDay(r.day) && date.day <= r.day
    ensures SameMonth(r.day, date.day)
    ensures r.day - GetStartOfMonth(date).day + 1 == MonthLength(CivilFromDays(date.day).year, CivilFromDays(date.day).month)
  {
    EndOfDay(LastOfMonth(date.day))
  }

  /** `isSameDayFn`: the same calendar day, whatever the clock times. */
  predicate IsSameDayFn(date1: DateTime, date2: DateTime) {
    date1.day == date2.day
  }

  /** `isSameWeekFn`: the same Monday-to-Sunday week. */
  predicate IsSameWeekFn(date1: DateTime, date2: DateTime): (same: bool)
    ensures same ==> -6 <= date1.day - date2.day <= 6
  {
    GetStartOfWeek(date1) == GetStartOfWeek(date2)
  }

  /** `isSameMonthFn`: the same month of the same year. */
  predicate IsSameMonthFn(date1: DateTime, date2: DateTime): (same: bool)
    ensures same <==> FirstOfMonth(date2.day) <= date1.day <= LastOfMonth(date2.day)
  {
    SameMonthIff(date1.day, date2.day);
    SameMonth(date1.day, date2.day)
  }

  /** Two dates share a week exactly when one falls between the other's Monday and Sunday. */
  lemma SameWeekIff(date1: DateTime, date2: DateTime)
    ensures IsSameWeekFn(date1, date2) <==> GetStartOfWeek(date1).day <= date2.day <= GetEndOfWeek(date1).day
  {
    var s := GetStartOfWeek(date1).day;
    if s <= date2.day <= s + 6 {
      var k := date2.day - s;
      WeekdayShift(s, k);
      assert DaysSinceMonday(date2.day) == k;
    }
  }

  /** Sharing a day implies sharing a week and a month. */
  lemma SameDayNarrowest(date1: DateTime, date2: DateTime)
    requires IsSameDayFn(date1, date2)
    ensures IsSameWeekFn(date1, date2) && IsSameMonthFn(date1, date2)
  {
  }

  /** `getDaysInWeek`: Monday to Sunday of the date's week, each at midnight. */
  method GetDaysInWeek(date: DateTime) returns (days: seq<DateTime>)
    ensures |days| == 7
    ensures forall i :: 0 <= i < 7 ==> days[i] == StartOfDay(GetStartOfWeek(date).day + i)
    ensures Weekday(days[0].day) == 1 && Weekday(days[6].day) == 0
    ensures forall x: DateTime :: IsSameWeekFn(x, date) <==> exists i :: 0 <= i < 7 && days[i].day == x.day
  {
    var start := GetStartOfWeek(date);
    days := [];
    for i := 0 to 7
      invariant |days| == i
      invariant forall j :: 0 <= j < i ==> days[j] == StartOfDay(start.day + j)
    {
      days := days + [AddDays(start, i)];
    }
    assert Weekday(days[6].day) == 0 by {
      assert days[6].day == GetEndOfWeek(date).day;
    }
    WeekGridCoversWeek(date, days);
  }

  /** Seven consecutive days from the week's Monday are exactly the days sharing the week. */
  lemma WeekGridCoversWeek(date: DateTime, days: seq<DateTime>)
    requires |days| == 7 && forall i :: 0 <= i < 7 ==> days[i].day == GetStartOfWeek(date).day + i
    ensures forall x: DateTime :: IsSameWeekFn(x, date) <==> exists i :: 0 <= i < 7 && days[i].day == x.day
  {
    var s := GetStartOfWeek(date).day;
    forall x: DateTime
      ensures IsSameWeekFn(x, date) <==> exists i :: 0 <= i < 7 && days[i].day == x.day
    {
      SameWeekIff(date, x);
      if s <= x.day <= s + 6 {
        assert days[x.day - s].day == x.day;
      }
    }
  }

  /**
   * `getDaysInMonth`: the calendar grid of the date's month, whole weeks
   * from the Monday on or before the first to the Sunday on or after the
   * last, each day at midnight.
   */
  method GetDaysInMonth(date: DateTime) returns (days: seq<DateTime>)
    ensures |days| % 7 == 0 && 28 <= |days| <= 42
    ensures forall i :: 0 <= i < |days| ==> days[i] == StartOfDay(days[0].day + i)
    ensures Weekday(days[0].day) == 1 && Weekday(days[|days| - 1].day) == 0
    ensures days[0].day <= FirstOfMonth(date.day) < days[0].day + 7
    ensures days[|days| - 1].day - 7 < LastOfMonth(date.day) <= days[|days| - 1].day
    ensures forall x :: SameMonth(x, date.day) ==> exists i :: 0 <= i < |days| && days[i].day == x
  {
    var start := GetStartOfMonth(date);
    var end := GetEndOfMonth(date);
    days := [];

    var currentDate := GetStartOfWeek(start);
    var endWeek := GetEndOfWeek(end);
    var first := currentDate.day;

    while Instant(currentDate) <= Instant(endWeek)
      invariant currentDate == StartOfDay(first + |days|)
      invariant first + |days| <= endWeek.day + 1
      invariant forall i :: 0 <= i < |days| ==> days[i] == StartOfDay(first + i)
      decreases endWeek.day - currentDate.day
    {
      days := days + [currentDate];
      currentDate := AddDays(currentDate, 1);
    }
    assert |days| == endWeek.day - first + 1;
    GridIsWholeWeeks(first, endWeek.day);
    forall x | SameMonth(x, date.day)
      ensures exists i :: 0 <= i < |days| && days[i].day == x
    {
      SameMonthIff(x, date.day);
      assert days[x - first].day == x;
    }
  }

  /** A run of days from a Monday to a later Sunday spans whole weeks. */
  lemma GridIsWholeWeeks(monday: int, sunday: int)
    requires Weekday(monday) == 1 && Weekday(sunday) == 0 && monday <= sunday
    ensures (sunday - monday + 1) % 7 == 0
  {
    WeekdayShift(monday, sunday - monday);
  }

  /** `getHoursInDay`: the hours 0 to 23, in order, each once. */
  function GetHoursInDay(): (hours: seq<int>)
    ensures |hours| == 24
    ensures forall i :: 0 <= i < 24 ==> hours[i] == i
    ensures forall h :: 0 <= h < 24 ==> h in hours
    ensures forall h :: h in hours ==> 0 <= h < 24
  {
    var hs := seq(24, i => i);
    assert forall h :: 0 <= h < 24 ==> h in hs by {
      forall h | 0 <= h < 24 ensures h in hs {
        assert hs[h] == h;
      }
    }
    hs
  }
}
