/** The proleptic Gregorian calendar that schedule arithmetic runs on. */
module Calendar {

  datatype Date = Date(year: int, month: int, day: int)

  predicate IsLeap(year: int) {
    year % 4 == 0 && (year % 100 != 0 || year % 400 == 0)
  }

  function DaysInMonth(year: int, month: int): int {
    if month == 2 then (if IsLeap(year) then 29 else 28)
    else if month == 4 || month == 6 || month == 9 || month == 11 then 30
    else 31
  }

  predicate Valid(d: Date) {
    d.year >= 1 && 1 <= d.month <= 12 && 1 <= d.day <= DaysInMonth(d.year, d.month)
  }

  /** date + timedelta(days=1). */
  function NextDay(d: Date): Date {
    if d.day < DaysInMonth(d.year, d.month) then d.(day := d.day + 1)
    else if d.month < 12 then Date(d.year, d.month + 1, 1)
    else Date(d.year + 1, 1, 1)
  }

  function AddDays(d: Date, n: nat): Date {
    if n == 0 then d else NextDay(AddDays(d, n - 1))
  }

  function DaysBeforeYear(year: int): int {
    var y := year - 1;
    y * 365 + y / 4 - y / 100 + y / 400
  }

  function DaysBeforeMonth(year: int, month: int): int
    decreases month
  {
    if month <= 1 then 0 else DaysBeforeMonth(year, month - 1) + DaysInMonth(year, month - 1)
  }

  /** date.toordinal(): day 1 is the first of January of year 1. */
  function Ordinal(d: Date): int {
    DaysBeforeYear(d.year) + DaysBeforeMonth(d.year, d.month) + d.day
  }

  /** date.weekday(): Monday is 0. */
  function Weekday(d: Date): int {
    (Ordinal(d) + 6) % 7
  }

  // ------------------------------------------------------------ laws

  function YearLength(year: int): int {
    if IsLeap(year) then 366 else 365
  }

  lemma YearStep(year: int)
    requires year >= 1
    ensures DaysBeforeYear(year + 1) == DaysBeforeYear(year) + YearLength(year)
  {
    FourthYears(year);
    Centuries(year);
    FourthCenturies(year);
  }

  lemma FourthYears(year: int)
    ensures year / 4 == (year - 1) / 4 + if year % 4 == 0 then 1 else 0
  {
  }

  lemma Centuries(year: int)
    ensures year / 100 == (year - 1) / 100 + if year % 100 == 0 then 1 else 0
    ensures year % 100 == 0 ==> year % 4 == 0
  {
  }

  lemma FourthCenturies(year: int)
    ensures year / 400 == (year - 1) / 400 + if year % 400 == 0 then 1 else 0
    ensures year % 400 == 0 ==> year % 100 == 0
  {
  }

  /** The month table of a year, unfolded. */
  lemma MonthTable(year: int)
    ensures var l := if IsLeap(year) then 1 else 0;
      && DaysBeforeMonth(year, 1) == 0 && DaysBeforeMonth(year, 2) == 31
      && DaysBeforeMonth(year, 3) == 59 + l && DaysBeforeMonth(year, 4) == 90 + l
      && DaysBeforeMonth(year, 5) == 120 + l && DaysBeforeMonth(year, 6) == 151 + l
      && DaysBeforeMonth(year, 7) == 181 + l && DaysBeforeMonth(year, 8) == 212 + l
      && DaysBeforeMonth(year, 9) == 243 + l && DaysBeforeMonth(year, 10) == 273 + l
      && DaysBeforeMonth(year, 11) == 304 + l && DaysBeforeMonth(year, 12) == 334 + l
  {
    assert DaysBeforeMonth(year, 3) == DaysBeforeMonth(year, 2) + DaysInMonth(year, 2);
    assert DaysBeforeMonth(year, 5) == DaysBeforeMonth(year, 4) + DaysInMonth(year, 4);
    assert DaysBeforeMonth(year, 7) == DaysBeforeMonth(year, 6) + DaysInMonth(year, 6);
    assert DaysBeforeMonth(year, 9) == DaysBeforeMonth(year, 8) + DaysInMonth(year, 8);
    assert DaysBeforeMonth(year, 11) == DaysBeforeMonth(year, 10) + DaysInMonth(year, 10);
  }

  /** Ordinals count days: the next day has the next ordinal. */
  lemma NextDayOrdinal(d: Date)
    requires Valid(d)
    ensures Valid(NextDay(d)) && Ordinal(NextDay(d)) == Ordinal(d) + 1
  {
    if d.day == DaysInMonth(d.year, d.month) && d.month == 12 {
      MonthTable(d.year);
      MonthTable(d.year + 1);
      YearStep(d.year);
    }
  }

  lemma {:induction false} AddDaysOrdinal(d: Date, n: nat)
    requires Valid(d)
    ensures Valid(AddDays(d, n)) && Ordinal(AddDays(d, n)) == Ordinal(d) + n
  {
    if n > 0 {
      AddDaysOrdinal(d, n - 1);
      NextDayOrdinal(AddDays(d, n - 1));
    }
  }

  lemma {:induction false} MonthsGrow(year: int, a: int, b: int)
    requires 1 <= a <= b
    ensures DaysBeforeMonth(year, a) <= DaysBeforeMonth(year, b)
    ensures a < b ==> DaysBeforeMonth(year, a) + DaysInMonth(year, a) <= DaysBeforeMonth(year, b)
    decreases b - a
  {
    if a < b {
      MonthsGrow(year, a + 1, b);
    }
  }

  lemma {:induction false} YearsGrow(a: int, b: int)
    requires 1 <= a <= b
    ensures DaysBeforeYear(a) <= DaysBeforeYear(b)
    decreases b - a
  {
    if a < b {
      YearStep(a);
      YearsGrow(a + 1, b);
    }
  }

  lemma DayWithinYear(d: Date)
    requires Valid(d)
    ensures DaysBeforeYear(d.year) < Ordinal(d) <= DaysBeforeYear(d.year + 1)
  {
    MonthTable(d.year);
    MonthsGrow(d.year, 1, d.month);
    MonthsGrow(d.year, d.month, 12);
    YearStep(d.year);
  }

  /** date.max is the 31st of December 9999. */
  const LAST_YEAR := 9999
  const LAST_ORDINAL := 3_652_059

  lemma LastDay(d: Date)
    requires Valid(d)
    ensures Ordinal(d) >= 1
    ensures d.year <= LAST_YEAR <==> Ordinal(d) <= LAST_ORDINAL
  {
    assert DaysBeforeYear(LAST_YEAR + 1) == LAST_ORDINAL;
    DayWithinYear(d);
    YearsGrow(1, d.year);
    if d.year <= LAST_YEAR {
      YearsGrow(d.year + 1, LAST_YEAR + 1);
    } else {
      YearsGrow(LAST_YEAR + 1, d.year);
    }
  }

  ghost predicate Before(a: Date, b: Date) {
    a.year < b.year || (a.year == b.year && (a.month < b.month || (a.month == b.month && a.day < b.day)))
  }

  /** Ordinals order dates as the calendar does. */
  lemma OrdinalOrder(a: Date, b: Date)
    requires Valid(a) && Valid(b) && Before(a, b)
    ensures Ordinal(a) < Ordinal(b)
  {
    hide DaysBeforeYear, DaysBeforeMonth, DaysInMonth;
    if a.year < b.year {
      hide Ordinal;
      DayWithinYear(a);
      DayWithinYear(b);
      YearsGrow(a.year + 1, b.year);
    } else if a.month < b.month {
      MonthsGrow(a.year, a.month, b.month);
    }
  }

  /** An ordinal names one date; counting days from a date reaches every later one. */
  lemma AddDaysReaches(a: Date, b: Date)
    requires Valid(a) && Valid(b) && Ordinal(a) <= Ordinal(b)
    ensures AddDays(a, Ordinal(b) - Ordinal(a)) == b
  {
    var c := AddDays(a, Ordinal(b) - Ordinal(a));
    AddDaysOrdinal(a, Ordinal(b) - Ordinal(a));
    if c != b {
      if Before(c, b) { OrdinalOrder(c, b); } else { OrdinalOrder(b, c); }
    }
  }

  /** The same date a year later is 365 or 366 days away. */
  lemma YearApart(year: int, month: int, day: int)
    requires year >= 1 && 1 <= month <= 12
    ensures 365 <= Ordinal(Date(year + 1, month, day)) - Ordinal(Date(year, month, day)) <= 366
  {
    MonthTable(year);
    MonthTable(year + 1);
    YearStep(year);
  }

  /** Any date of a common year comes back within 366 days. */
  lemma DateRecurs(start: Date, month: int, day: int) returns (n: nat)
    requires Valid(start) && 1 <= month <= 12 && 1 <= day <= DaysInMonth(2001, month)
    ensures 1 <= n <= 366
    ensures AddDays(start, n).month == month && AddDays(start, n).day == day
  {
    var thisYear := Date(start.year, month, day);
    var target := if Before(start, thisYear) then thisYear else Date(start.year + 1, month, day);
    assert Valid(thisYear) && Valid(target);
    WithinYear(start, month, day);
    hide Ordinal, DaysInMonth, IsLeap;
    n := Ordinal(target) - Ordinal(start);
    AddDaysReaches(start, target);
  }

  /** The next such date is at most 366 days away. */
  lemma WithinYear(start: Date, month: int, day: int)
    requires Valid(start) && Valid(Date(start.year, month, day)) && Valid(Date(start.year + 1, month, day))
    ensures var thisYear := Date(start.year, month, day);
      var target := if Before(start, thisYear) then thisYear else Date(start.year + 1, month, day);
      1 <= Ordinal(target) - Ordinal(start) <= 366
  {
    hide Ordinal, DaysInMonth, IsLeap, DaysBeforeYear;
    var thisYear := Date(start.year, month, day);
    if Before(start, thisYear) {
      OrdinalOrder(start, thisYear);
      DayWithinYear(start);
      DayWithinYear(thisYear);
      YearStep(start.year);
    } else {
      YearApart(start.year, month, day);
      if start != thisYear {
        OrdinalOrder(thisYear, start);
      }
      OrdinalOrder(start, Date(start.year + 1, month, day));
    }
  }

  /** The second of January 2000 was a Sunday. */
  const SUNDAY := Date(2000, 1, 2)

  /** Whole days from a to b, back in time when negative. */
  ghost predicate DaysApart(a: Date, b: Date, n: int) {
    if n >= 0 then AddDays(a, n) == b else AddDays(b, -n) == a
  }

  lemma ApartByOrdinal(a: Date, b: Date, n: int)
    requires Valid(a) && Valid(b)
    ensures DaysApart(a, b, n) <==> n == Ordinal(b) - Ordinal(a)
  {
    hide Ordinal, AddDays;
    if n >= 0 { AddDaysOrdinal(a, n); } else { AddDaysOrdinal(b, -n); }
    if n == Ordinal(b) - Ordinal(a) {
      if n >= 0 { AddDaysReaches(a, b); } else { AddDaysReaches(b, a); }
    }
  }

  /** The week goes round with the days: a day's place in it is its distance from a known Sunday, modulo seven. */
  lemma WeekdayByDistance(d: Date, n: int)
    requires Valid(d) && DaysApart(SUNDAY, d, n)
    ensures Weekday(d) == (n + 6) % 7
  {
    hide AddDays, DaysApart;
    ApartByOrdinal(SUNDAY, d, n);
    SundayOrdinal();
    hide Ordinal;
  }

  lemma SundayOrdinal()
    ensures Valid(SUNDAY) && Ordinal(SUNDAY) == 730121
  {
  }

  /** Seven days in a row show every weekday. */
  lemma WeekdayRecurs(start: Date, weekday: int) returns (n: nat)
    requires Valid(start) && 0 <= weekday < 7
    ensures n < 7 && Weekday(AddDays(start, n)) == weekday
  {
    n := (weekday - Weekday(start)) % 7;
    AddDaysOrdinal(start, n);
    hide Ordinal, AddDays;
  }
}
