/** When the 400-day search is long enough: exactly for which expressions it succeeds from every start. */
module CronBound {
  import opened Basics
  import opened Calendar
  import opened Cron

  /** Some allowed day of an allowed month exists in a common year. */
  predicate CommonDate(c: Cron) {
    exists m, d :: m in c.months && d in c.doms && d <= DaysInMonth(2001, m)
  }

  /** What the operator can read off the expression. */
  predicate AlwaysFound(c: Cron) {
    c.domAny || !c.dowAny || CommonDate(c)
  }

  /** Any weekday comes up in the first week of any month, at most 372 days ahead. */
  lemma WeekdayInMonth(start: Date, month: int, dow: int) returns (n: nat)
    requires Valid(start) && 1 <= month <= 12 && 0 <= dow < 7
    ensures 1 <= n <= 372 && Valid(AddDays(start, n))
    ensures AddDays(start, n).month == month && (Weekday(AddDays(start, n)) + 1) % 7 == dow
  {
    hide Weekday, AddDays, Ordinal;
    var first := DateRecurs(start, month, 1);
    var monthStart := AddDays(start, first);
    AddDaysOrdinal(start, first);
    var k := WeekdayRecurs(monthStart, (dow + 6) % 7);
    n := first + k;
    AddDaysSum(start, first, k);
    FirstWeek(monthStart, k);
    AddDaysOrdinal(start, n);
    assert AddDays(start, n) == Date(monthStart.year, month, 1 + k);
  }

  /** A matching day lies ahead, within the days searched. */
  lemma MatchingDay(c: Cron, start: Date) returns (n: nat)
    requires WellFormed(c) && Valid(start) && AlwaysFound(c)
    ensures 1 <= n < SEARCH_LIMIT_DAYS && DayMatches(c, AddDays(start, n))
  {
    if !c.dowAny {
      n := WeekdayInMonth(start, AnyOf(c.months), AnyOf(c.dows));
    } else if c.domAny {
      n := DateRecurs(start, AnyOf(c.months), 1);
    } else {
      var m, d :| m in c.months && d in c.doms && d <= DaysInMonth(2001, m);
      n := DateRecurs(start, m, d);
    }
  }

  lemma {:induction false} AddDaysSum(d: Date, a: nat, b: nat)
    ensures AddDays(AddDays(d, a), b) == AddDays(d, a + b)
  {
    if b > 0 {
      AddDaysSum(d, a, b - 1);
    }
  }

  /** The first week of a month stays in the month. */
  lemma {:induction false} FirstWeek(d: Date, k: nat)
    requires Valid(d) && d.day == 1 && k < 7
    ensures AddDays(d, k) == Date(d.year, d.month, 1 + k)
  {
    if k > 0 {
      FirstWeek(d, k - 1);
    }
  }

  /** On a matching day after the first there is a firing. */
  lemma FiringOn(c: Cron, after: Instant, first: Date, day: Date) returns (f: Minute)
    requires WellFormed(c) && ValidInstant(after) && first == FirstMinute(after).date
    requires Valid(day) && DayMatches(c, day) && Ordinal(first) < Ordinal(day) < Ordinal(first) + SEARCH_LIMIT_DAYS
    ensures InWindow(c, after, f)
  {
    FirstMinuteIsLeast(after, Minute(after.date, 0));
    var h := AnyOf(c.hours);
    var m := AnyOf(c.minutes);
    TimeOf(c, h, m);
    f := Minute(day, h * 60 + m);
    FirstMinuteIsLeast(after, f);
  }

  /**
   From every start the search succeeds, when the day of month is
   free, or the weekday is not, or some date is common.
   */
  lemma BoundSuffices(c: Cron, after: Instant) returns (f: Minute)
    requires WellFormed(c) && ValidInstant(after) && AlwaysFound(c)
    ensures InWindow(c, after, f)
  {
    FirstMinuteIsLeast(after, Minute(after.date, 0));
    var n := MatchingDay(c, FirstMinute(after).date);
    var first := FirstMinute(after).date;
    AddDaysOrdinal(first, n);
    f := FiringOn(c, after, first, AddDays(first, n));
  }

  const MARCH_2021 := Instant(Date(2021, 3, 1), 0)

  /** Otherwise only the 29th of February is left, and from March 2021 none is near enough. */
  lemma BoundFails(c: Cron, f: Minute)
    requires WellFormed(c) && !AlwaysFound(c)
    ensures ValidInstant(MARCH_2021) && !InWindow(c, MARCH_2021, f)
  {
    if ValidMinute(f) && Fires(c, f) && StrictlyAfter(f, MARCH_2021) {
      FirstMinuteIsLeast(MARCH_2021, f);
      assert FirstMinute(MARCH_2021).date == Date(2021, 3, 1);
      assert f.date.month in c.months && f.date.day in c.doms;
      assert f.date.day > DaysInMonth(2001, f.date.month);
      assert IsLeap(f.date.year) && f.date.month == 2;
      MonthTable(2021);
      if f.date.year < 2021 {
        OrdinalOrder(f.date, Date(2021, 3, 1));
      } else {
        assert f.date.year >= 2024;
        MonthTable(2023);
        var late := Date(2023, 12, 31);
        OrdinalOrder(late, f.date);
      }
    }
  }

  /** The search succeeds from every start if and only if the expression meets the condition. */
  lemma BoundExact(c: Cron)
    requires WellFormed(c)
    ensures AlwaysFound(c) <==> forall after :: ValidInstant(after) ==> exists f :: InWindow(c, after, f)
  {
    if AlwaysFound(c) {
      forall after | ValidInstant(after) ensures exists f :: InWindow(c, after, f) {
        var f := BoundSuffices(c, after);
      }
    } else {
      forall f ensures !InWindow(c, MARCH_2021, f) {
        BoundFails(c, f);
      }
      assert ValidInstant(MARCH_2021);
    }
  }

  /** Inside the calendar the search then finds the earliest firing from every start, and only then. */
  lemma SearchAlwaysSucceeds(c: Cron)
    requires WellFormed(c)
    ensures AlwaysFound(c) <==> forall after :: ValidInstant(after) && !NearEnd(after) ==>
      exists f :: Chosen(c, after, f)
  {
    if AlwaysFound(c) {
      forall after | ValidInstant(after) && !NearEnd(after) ensures exists f :: Chosen(c, after, f) {
        var f := BoundSuffices(c, after);
        var g := EarliestExists(c, after, f);
        LastDay(g.date);
        assert Chosen(c, after, g);
      }
    } else {
      forall f ensures !Chosen(c, MARCH_2021, f) {
        BoundFails(c, f);
      }
      MarchIsEarly();
    }
  }

  lemma MarchIsEarly()
    ensures ValidInstant(MARCH_2021) && !NearEnd(MARCH_2021)
  {
    assert FirstMinute(MARCH_2021).date == Date(2021, 3, 1);
    MonthTable(2021);
  }
}
