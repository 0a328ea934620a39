/**
  The proleptic Gregorian calendar as day numbers: day 0 is 1 January of year 1, a Monday.
*/
module Civil {
  predicate Leap(y: int) {
    y % 4 == 0 && (y % 100 != 0 || y % 400 == 0)
  }

  function DaysIn(y: int, m: int): (n: nat)
    requires 1 <= m <= 12
    ensures 28 <= n <= 31
  {
    if m == 2 then (if Leap(y) then 29 else 28)
    else if m == 4 || m == 6 || m == 9 || m == 11 then 30
    else 31
  }

  function DaysInYear(y: int): nat {
    if Leap(y) then 366 else 365
  }

  /** The first day of a year, counted from year 1. */
  function DaysBeforeYear(y: int): int
    decreases if y >= 1 then y - 1 else 1 - y
  {
    if y == 1 then 0
    else if y > 1 then DaysBeforeYear(y - 1) + DaysInYear(y - 1)
    else DaysBeforeYear(y + 1) - DaysInYear(y)
  }

  function DaysBeforeMonth(y: int, m: int): nat
    requires 1 <= m <= 13
  {
    if m == 1 then 0 else DaysBeforeMonth(y, m - 1) + DaysIn(y, m - 1)
  }

  function DayNumber(y: int, m: int, d: int): int
    requires 1 <= m <= 12
  {
    DaysBeforeYear(y) + DaysBeforeMonth(y, m) + d - 1
  }

  /** Monday is 0. */
  function Weekday(day: int): (w: nat)
    ensures w < 7
  {
    day % 7
  }

  lemma YearLength(y: int)
    ensures DaysBeforeYear(y + 1) == DaysBeforeYear(y) + DaysInYear(y)
  {
  }

  lemma YearOfMonths(y: int)
    ensures DaysBeforeMonth(y, 13) == DaysInYear(y)
  {
    assert DaysBeforeMonth(y, 2) == 31;
    assert DaysBeforeMonth(y, 3) == 31 + DaysIn(y, 2);
    assert DaysBeforeMonth(y, 4) == 62 + DaysIn(y, 2);
    assert DaysBeforeMonth(y, 5) == 92 + DaysIn(y, 2);
    assert DaysBeforeMonth(y, 6) == 123 + DaysIn(y, 2);
    assert DaysBeforeMonth(y, 7) == 153 + DaysIn(y, 2);
    assert DaysBeforeMonth(y, 8) == 184 + DaysIn(y, 2);
    assert DaysBeforeMonth(y, 9) == 215 + DaysIn(y, 2);
    assert DaysBeforeMonth(y, 10) == 245 + DaysIn(y, 2);
    assert DaysBeforeMonth(y, 11) == 276 + DaysIn(y, 2);
    assert DaysBeforeMonth(y, 12) == 306 + DaysIn(y, 2);
  }

  /** The year of a day at or after the start of year y, or before it. */
  function YearFrom(y: int, day: int): (r: int)
    ensures DaysBeforeYear(r) <= day < DaysBeforeYear(r + 1)
    decreases if DaysBeforeYear(y) <= day then day - DaysBeforeYear(y) else DaysBeforeYear(y) - day + 366
  {
    YearLength(y);
    YearLength(y - 1);
    if DaysBeforeYear(y + 1) <= day then YearFrom(y + 1, day)
    else if day < DaysBeforeYear(y) then YearFrom(y - 1, day)
    else y
  }

  function YearOf(day: int): (r: int)
    ensures DaysBeforeYear(r) <= day < DaysBeforeYear(r + 1)
  {
    YearFrom(1, day)
  }

  function MonthFrom(y: int, m: int, n: nat): (r: int)
    requires 1 <= m <= 12 && DaysBeforeMonth(y, m) <= n < DaysBeforeMonth(y, 13)
    ensures m <= r <= 12 && DaysBeforeMonth(y, r) <= n < DaysBeforeMonth(y, r + 1)
    decreases 12 - m
  {
    if m < 12 && DaysBeforeMonth(y, m + 1) <= n then MonthFrom(y, m + 1, n) else m
  }

  function DayOfYear(day: int): (n: nat)
    ensures n < DaysBeforeMonth(YearOf(day), 13)
  {
    YearLength(YearOf(day));
    YearOfMonths(YearOf(day));
    day - DaysBeforeYear(YearOf(day))
  }

  function MonthOf(day: int): (m: int)
    ensures 1 <= m <= 12
  {
    MonthFrom(YearOf(day), 1, DayOfYear(day))
  }

  function DayOf(day: int): (d: int)
    ensures 1 <= d <= DaysIn(YearOf(day), MonthOf(day))
  {
    DayOfYear(day) - DaysBeforeMonth(YearOf(day), MonthOf(day)) + 1
  }

  /** A day is the day of its date. */
  lemma DateRoundTrip(day: int)
    ensures DayNumber(YearOf(day), MonthOf(day), DayOf(day)) == day
  {
  }

  lemma {:induction false} YearsGrow(a: int, b: int)
    requires a <= b
    ensures DaysBeforeYear(a) <= DaysBeforeYear(b) && (a < b ==> DaysBeforeYear(a) < DaysBeforeYear(b))
    decreases b - a
  {
    if a < b {
      YearLength(b - 1);
      YearsGrow(a, b - 1);
    }
  }

  lemma {:induction false} MonthsGrow(y: int, a: int, b: int)
    requires 1 <= a <= b <= 13
    ensures DaysBeforeMonth(y, a) <= DaysBeforeMonth(y, b) && (a < b ==> DaysBeforeMonth(y, a) + DaysIn(y, a) <= DaysBeforeMonth(y, b))
    decreases b - a
  {
    if a < b {
      MonthsGrow(y, a, b - 1);
    }
  }

  lemma YearOfDay(y: int, day: int)
    requires DaysBeforeYear(y) <= day < DaysBeforeYear(y + 1)
    ensures YearOf(day) == y
  {
    var r := YearOf(day);
    if r < y {
      YearsGrow(r + 1, y);
    } else if r > y {
      YearsGrow(y + 1, r);
    }
  }

  lemma MonthOfDay(y: int, m: int, n: nat)
    requires 1 <= m <= 12 && DaysBeforeMonth(y, m) <= n < DaysBeforeMonth(y, m + 1) <= DaysBeforeMonth(y, 13)
    ensures MonthFrom(y, 1, n) == m
  {
    var k := MonthFrom(y, 1, n);
    if k < m {
      MonthsGrow(y, k, m);
    } else if k > m {
      MonthsGrow(y, m, k);
    }
  }

  lemma DayOfYearIs(y: int, day: int)
    requires YearOf(day) == y
    ensures DayOfYear(day) == day - DaysBeforeYear(y)
  {
  }

  lemma DayInYear(y: int, n: nat)
    requires n < DaysBeforeMonth(y, 13)
    ensures YearOf(DaysBeforeYear(y) + n) == y && DayOfYear(DaysBeforeYear(y) + n) == n
  {
    YearOfMonths(y);
    YearLength(y);
    YearOfDay(y, DaysBeforeYear(y) + n);
    DayOfYearIs(y, DaysBeforeYear(y) + n);
  }

  lemma DayInMonth(y: int, m: int, d: int)
    requires 1 <= m <= 12 && 1 <= d <= DaysIn(y, m)
    ensures 0 <= DaysBeforeMonth(y, m) + d - 1 < DaysBeforeMonth(y, 13)
    ensures MonthFrom(y, 1, DaysBeforeMonth(y, m) + d - 1) == m
  {
    MonthsGrow(y, m, 13);
    MonthsGrow(y, m + 1, 13);
    MonthOfDay(y, m, DaysBeforeMonth(y, m) + d - 1);
  }

  lemma DateOfDay(day: int, y: int, m: int, n: nat)
    requires YearOf(day) == y && DayOfYear(day) == n < DaysBeforeMonth(y, 13) && MonthFrom(y, 1, n) == m
    ensures MonthOf(day) == m && DayOf(day) == n - DaysBeforeMonth(y, m) + 1
  {
  }

  /** A date is the date of its day. */
  lemma DayRoundTrip(y: int, m: int, d: int)
    requires 1 <= m <= 12 && 1 <= d <= DaysIn(y, m)
    ensures var day := DayNumber(y, m, d);
      YearOf(day) == y && MonthOf(day) == m && DayOf(day) == d
  {
    var n := DaysBeforeMonth(y, m) + d - 1;
    DayInMonth(y, m, d);
    DayInYear(y, n);
    DateOfDay(DaysBeforeYear(y) + n, y, m, n);
  }
}
