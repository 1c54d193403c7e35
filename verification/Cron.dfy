/** The cron day rule and the bounded forward search (schedule.py). */
module Cron {
  import opened Basics
  import opened Calendar

  const SEARCH_LIMIT_DAYS: nat := 400
  const MICROS_PER_MINUTE := 60_000_000
  const MINUTES_PER_DAY := 1440

  datatype Cron = Cron(
    minutes: set<int>, hours: set<int>, doms: set<int>, months: set<int>, dows: set<int>,
    domAny: bool, dowAny: bool)

  /** A point of wall-clock time. */
  datatype Instant = Instant(date: Date, micros: int)

  /** A whole minute. */
  datatype Minute = Minute(date: Date, minute: int)

  predicate ValidInstant(t: Instant) {
    Valid(t.date) && 0 <= t.micros < MINUTES_PER_DAY * MICROS_PER_MINUTE
  }

  predicate ValidMinute(m: Minute) {
    Valid(m.date) && 0 <= m.minute < MINUTES_PER_DAY
  }

  function DayMatches(c: Cron, d: Date): bool {
    if d.month !in c.months then false
    else
      var dowOk := (Weekday(d) + 1) % 7 in c.dows;
      var domOk := d.day in c.doms;
      if c.domAny && c.dowAny then true
      else if c.domAny then dowOk
      else if c.dowAny then domOk
      else domOk || dowOk
  }

  /** The reference meaning of an expression: this minute is a firing. */
  predicate Fires(c: Cron, m: Minute) {
    DayMatches(c, m.date) && TimeMatches(c, m.minute)
  }

  predicate TimeMatches(c: Cron, minute: int) {
    minute / 60 in c.hours && minute % 60 in c.minutes
  }

  /**
   The day rule, with the week counted from a known Sunday: a free field is no
   restriction, one restricted field decides, and of two either is enough.
   */
  lemma DayRule(c: Cron, d: Date, n: int)
    requires Valid(d) && DaysApart(SUNDAY, d, n)
    ensures DayMatches(c, d) <==>
      && d.month in c.months
      && (!c.domAny && c.dowAny ==> d.day in c.doms)
      && (c.domAny && !c.dowAny ==> n % 7 in c.dows)
      && (!c.domAny && !c.dowAny ==> d.day in c.doms || n % 7 in c.dows)
  {
    WeekdayByDistance(d, n);
    assert ((n + 6) % 7 + 1) % 7 == n % 7;
  }

  /** A minute fires exactly when its day does and its hour and minute are allowed. */
  lemma FiresMeaning(c: Cron, d: Date, n: int, hour: int, minute: int)
    requires Valid(d) && DaysApart(SUNDAY, d, n) && 0 <= hour < 24 && 0 <= minute < 60
    ensures Fires(c, Minute(d, hour * 60 + minute)) <==>
      && hour in c.hours && minute in c.minutes && d.month in c.months
      && (if c.domAny then c.dowAny || n % 7 in c.dows
          else d.day in c.doms || (!c.dowAny && n % 7 in c.dows))
  {
    DayRule(c, d, n);
    hide DayMatches;
    assert (hour * 60 + minute) / 60 == hour && (hour * 60 + minute) % 60 == minute;
  }

  /** What parse_cron guarantees: no empty field, values in range. */
  predicate WellFormed(c: Cron) {
    && c.minutes != {} && c.hours != {} && c.doms != {} && c.months != {} && c.dows != {}
    && (forall v :: v in c.minutes ==> 0 <= v < 60) && (forall v :: v in c.hours ==> 0 <= v < 24)
    && (forall v :: v in c.doms ==> 1 <= v <= 31) && (forall v :: v in c.months ==> 1 <= v <= 12)
    && (forall v :: v in c.dows ==> 0 <= v < 7)
  }

  // ------------------------------------------------------------ time order

  function Count(m: Minute): int {
    Ordinal(m.date) * MINUTES_PER_DAY + m.minute
  }

  function Micros(t: Instant): int {
    Ordinal(t.date) * MINUTES_PER_DAY * MICROS_PER_MINUTE + t.micros
  }

  predicate StrictlyAfter(m: Minute, t: Instant) {
    Count(m) * MICROS_PER_MINUTE > Micros(t)
  }

  /** (after + one minute) with seconds and microseconds cleared. */
  function FirstMinute(after: Instant): Minute {
    var minute := after.micros / MICROS_PER_MINUTE + 1;
    if minute < MINUTES_PER_DAY then Minute(after.date, minute) else Minute(NextDay(after.date), 0)
  }

  /** That is the least whole minute strictly after the instant. */
  lemma FirstMinuteIsLeast(after: Instant, m: Minute)
    requires ValidInstant(after) && ValidMinute(m)
    ensures ValidMinute(FirstMinute(after))
    ensures StrictlyAfter(m, after) <==> Count(FirstMinute(after)) <= Count(m)
  {
    NextDayOrdinal(after.date);
    var whole := Ordinal(after.date) * MINUTES_PER_DAY + after.micros / MICROS_PER_MINUTE;
    assert Count(FirstMinute(after)) == whole + 1;
    assert whole * MICROS_PER_MINUTE <= Micros(after) < (whole + 1) * MICROS_PER_MINUTE;
  }

  /** sorted() of a set whose members lie in low..high-1. */
  function Sorted(s: set<int>, low: int, high: int): (r: seq<int>)
    requires low <= high
    ensures forall v :: v in r <==> v in s && low <= v < high
    ensures forall i, j :: 0 <= i < j < |r| ==> r[i] < r[j]
    decreases high - low
  {
    if low == high then []
    else
      var rest := Sorted(s, low + 1, high);
      assert forall i :: 0 <= i < |rest| ==> rest[i] in rest;
      (if low in s then [low] else []) + rest
  }

  // ------------------------------------------------------------ the search

  /** f is the earliest firing strictly after the instant. */
  ghost predicate IsNext(c: Cron, after: Instant, f: Minute) {
    && ValidMinute(f) && Fires(c, f) && StrictlyAfter(f, after)
    && forall g :: ValidMinute(g) && Fires(c, g) && StrictlyAfter(g, after) ==> Count(f) <= Count(g)
  }

  /** A firing strictly after the instant on one of the days searched. */
  ghost predicate InWindow(c: Cron, after: Instant, f: Minute) {
    && ValidMinute(f) && Fires(c, f) && StrictlyAfter(f, after)
    && Ordinal(f.date) < Ordinal(FirstMinute(after).date) + SEARCH_LIMIT_DAYS
  }

  predicate InCalendar(d: Date) {
    d.year <= LAST_YEAR
  }

  /** The firing the search is to find. */
  ghost predicate Chosen(c: Cron, after: Instant, f: Minute) {
    IsNext(c, after, f) && InWindow(c, after, f) && InCalendar(f.date)
  }

  /** The days searched do not all lie in the calendar. */
  predicate NearEnd(after: Instant) {
    Ordinal(FirstMinute(after).date) + SEARCH_LIMIT_DAYS > LAST_ORDINAL
  }

  /** Two earliest firings are one. */
  lemma ChosenUnique(c: Cron, after: Instant, f: Minute, g: Minute)
    requires Chosen(c, after, f) && Chosen(c, after, g)
    ensures f == g
  {
    assert Count(f) == Count(g);
    SameDay(f.date, g.date);
  }

  /** Where there is a firing in the window there is an earliest one. */
  lemma {:induction false} EarliestExists(c: Cron, after: Instant, f: Minute) returns (g: Minute)
    requires InWindow(c, after, f)
    ensures IsNext(c, after, g) && InWindow(c, after, g) && Count(g) <= Count(f)
    decreases Count(f)
  {
    LastDay(f.date);
    if h :| ValidMinute(h) && Fires(c, h) && StrictlyAfter(h, after) && Count(h) < Count(f) {
      g := EarliestExists(c, after, h);
    } else {
      g := f;
    }
  }

  /** Nothing on the days before offset fires from the first minute on. */
  ghost predicate NothingBefore(c: Cron, start: Minute, offset: nat) {
    forall g :: ValidMinute(g) && Fires(c, g) && Count(start) <= Count(g) ==>
      Ordinal(g.date) >= Ordinal(start.date) + offset
  }

  /** at is the first matching minute of a day from the floor on, or there is none. */
  ghost predicate FirstTime(c: Cron, floor: int, at: Option<int>) {
    if at.Some? then
      && floor <= at.value && 0 <= at.value < MINUTES_PER_DAY && TimeMatches(c, at.value)
      && forall k :: 0 <= k < MINUTES_PER_DAY && floor <= k && TimeMatches(c, k) ==> at.value <= k
    else
      forall k :: 0 <= k < MINUTES_PER_DAY && floor <= k ==> !TimeMatches(c, k)
  }

  method FirstOfDay(c: Cron, floor: int) returns (at: Option<int>)
    requires WellFormed(c)
    ensures FirstTime(c, floor, at)
    ensures floor <= 0 ==> at.Some?
  {
    var hours := Sorted(c.hours, 0, 24);
    var minutes := Sorted(c.minutes, 0, 60);
    var found := FirstPair(hours, minutes, floor);
    if found.Some? {
      var (h, m) := found.value;
      FoundFirst(c, hours, minutes, h, m, floor);
      at := Some(hours[h] * 60 + minutes[m]);
    } else {
      NothingLeft(c, hours, minutes, floor);
      at := None;
    }
  }

  /** The pair loop over one day's hours and minutes. */
  method FirstPair(hours: seq<int>, minutes: seq<int>, floor: int) returns (found: Option<(nat, nat)>)
    ensures found.Some? ==> found.value.0 < |hours| && found.value.1 < |minutes|
    ensures found.Some? ==> AllBelow(hours, found.value.0, minutes, floor)
    ensures found.Some? ==> RowBelow(hours[found.value.0], minutes, found.value.1, floor)
    ensures found.Some? ==> floor <= hours[found.value.0] * 60 + minutes[found.value.1]
    ensures found.None? ==> AllBelow(hours, |hours|, minutes, floor)
  {
    for h := 0 to |hours|
      invariant AllBelow(hours, h, minutes, floor)
    {
      var m := FirstOfHour(hours[h], minutes, floor);
      if m.Some? {
        return Some((h, m.value));
      }
    }
    found := None;
  }

  /** The inner loop: the index of the first minute at or above the floor. */
  method FirstOfHour(hour: int, minutes: seq<int>, floor: int) returns (found: Option<nat>)
    ensures found.Some? ==> found.value < |minutes| && floor <= hour * 60 + minutes[found.value]
    ensures found.Some? ==> RowBelow(hour, minutes, found.value, floor)
    ensures found.None? ==> RowBelow(hour, minutes, |minutes|, floor)
  {
    for m := 0 to |minutes|
      invariant RowBelow(hour, minutes, m, floor)
    {
      if floor <= hour * 60 + minutes[m] {
        return Some(m);
      }
    }
    found := None;
  }

  ghost predicate RowBelow(hour: int, minutes: seq<int>, m: nat, floor: int)
    requires m <= |minutes|
  {
    forall j :: 0 <= j < m ==> hour * 60 + minutes[j] < floor
  }

  ghost predicate AllBelow(hours: seq<int>, h: nat, minutes: seq<int>, floor: int)
    requires h <= |hours|
  {
    forall i :: 0 <= i < h ==> RowBelow(hours[i], minutes, |minutes|, floor)
  }

  lemma NothingLeft(c: Cron, hours: seq<int>, minutes: seq<int>, floor: int)
    requires WellFormed(c)
    requires forall v :: v in hours <==> v in c.hours && 0 <= v < 24
    requires forall v :: v in minutes <==> v in c.minutes && 0 <= v < 60
    requires AllBelow(hours, |hours|, minutes, floor)
    ensures FirstTime(c, floor, None) && floor > 0
  {
    forall k | 0 <= k < MINUTES_PER_DAY && floor <= k ensures !TimeMatches(c, k) {
      var hour, minute := k / 60, k % 60;
      if hour in hours && minute in minutes {
        PairBelow(hours, minutes, floor, hour, minute);
      }
    }
    PairBelow(hours, minutes, floor, AnyOf(c.hours), AnyOf(c.minutes));
  }

  lemma PairBelow(hours: seq<int>, minutes: seq<int>, floor: int, hour: int, minute: int)
    requires AllBelow(hours, |hours|, minutes, floor) && hour in hours && minute in minutes
    ensures hour * 60 + minute < floor
  {
    var i :| 0 <= i < |hours| && hours[i] == hour;
    assert RowBelow(hours[i], minutes, |minutes|, floor);
  }

  ghost predicate Ascending(r: seq<int>) {
    forall i, j :: 0 <= i < j < |r| ==> r[i] < r[j]
  }

  /** The first pair not below the floor is the first matching minute. */
  lemma FoundFirst(c: Cron, hours: seq<int>, minutes: seq<int>, h: nat, m: nat, floor: int)
    requires h < |hours| && m < |minutes| && Ascending(hours) && Ascending(minutes)
    requires forall v :: v in hours <==> v in c.hours && 0 <= v < 24
    requires forall v :: v in minutes <==> v in c.minutes && 0 <= v < 60
    requires WellFormed(c)
    requires AllBelow(hours, h, minutes, floor) && RowBelow(hours[h], minutes, m, floor)
    requires floor <= hours[h] * 60 + minutes[m]
    ensures FirstTime(c, floor, Some(hours[h] * 60 + minutes[m]))
  {
    var found := hours[h] * 60 + minutes[m];
    assert hours[h] in hours && minutes[m] in minutes;
    TimeOf(c, hours[h], minutes[m]);
    forall k | 0 <= k < MINUTES_PER_DAY && floor <= k && TimeMatches(c, k) ensures found <= k {
      var hour, minute := k / 60, k % 60;
      assert hour in hours && minute in minutes && k == hour * 60 + minute;
      NotEarlier(hours, minutes, h, m, floor, hour, minute);
    }
  }

  lemma TimeOf(c: Cron, hour: int, minute: int)
    requires hour in c.hours && minute in c.minutes && 0 <= hour < 24 && 0 <= minute < 60
    ensures 0 <= hour * 60 + minute < MINUTES_PER_DAY && TimeMatches(c, hour * 60 + minute)
  {
    assert (hour * 60 + minute) / 60 == hour && (hour * 60 + minute) % 60 == minute;
  }

  lemma NotEarlier(hours: seq<int>, minutes: seq<int>, h: nat, m: nat, floor: int, hour: int, minute: int)
    requires h < |hours| && m < |minutes| && hour in hours && minute in minutes && 0 <= minute && 0 <= minutes[m] < 60
    requires Ascending(hours) && Ascending(minutes)
    requires AllBelow(hours, h, minutes, floor) && RowBelow(hours[h], minutes, m, floor)
    requires floor <= hour * 60 + minute
    ensures hours[h] * 60 + minutes[m] <= hour * 60 + minute
  {
    var i :| 0 <= i < |hours| && hours[i] == hour;
    var j :| 0 <= j < |minutes| && minutes[j] == minute;
  }

  /** PastEnd is the OverflowError of counting past the last day of the calendar. */
  datatype Search = Found(minute: Minute) | NoneFound | PastEnd

  /**
   next_cron: the earliest firing strictly after the instant, if one lies in
   the calendar within the days searched; otherwise the calendar's end, when
   the days searched reach it, and else nothing.
   */
  method NextCron(c: Cron, after: Instant) returns (r: Search)
    requires WellFormed(c) && ValidInstant(after)
    ensures r.Found? ==> Chosen(c, after, r.minute)
    ensures !r.Found? ==>
      && (forall f :: InWindow(c, after, f) ==> !InCalendar(f.date))
      && r == if NearEnd(after) then PastEnd else NoneFound
  {
    var moment := FirstMinute(after);
    FirstMinuteIsLeast(after, Minute(after.date, 0));
    var day := moment.date;
    assert NothingBefore(c, moment, 0);
    LastDay(day);
    if !InCalendar(day) {
      NothingReached(c, after, 0);
      return PastEnd;
    }
    for offset := 0 to SEARCH_LIMIT_DAYS
      invariant day == AddDays(moment.date, offset) && Valid(day) && InCalendar(day)
      invariant Ordinal(day) == Ordinal(moment.date) + offset <= LAST_ORDINAL
      invariant NothingBefore(c, moment, offset)
    {
      var found := SearchDay(c, after, day, offset);
      if found.Some? {
        return Found(found.value);
      }
      NextDayOrdinal(day);
      day := NextDay(day);
      LastDay(day);
      if !InCalendar(day) {
        NothingReached(c, after, offset + 1);
        return PastEnd;
      }
    }
    NothingReached(c, after, SEARCH_LIMIT_DAYS);
    r := NoneFound;
  }

  /** One day of the search. */
  method SearchDay(c: Cron, after: Instant, day: Date, offset: nat) returns (found: Option<Minute>)
    requires WellFormed(c) && ValidInstant(after) && ValidMinute(FirstMinute(after)) && Valid(day) && InCalendar(day)
    requires offset < SEARCH_LIMIT_DAYS && Ordinal(day) == Ordinal(FirstMinute(after).date) + offset
    requires offset == 0 ==> day == FirstMinute(after).date
    requires NothingBefore(c, FirstMinute(after), offset)
    ensures found.Some? ==> Chosen(c, after, found.value)
    ensures found.None? ==> NothingBefore(c, FirstMinute(after), offset + 1)
  {
    var moment := FirstMinute(after);
    if DayMatches(c, day) {
      var at := FirstOfDay(c, if offset == 0 then moment.minute else 0);
      if at.Some? {
        FoundIsNext(c, after, day, offset, at.value);
        return Some(Minute(day, at.value));
      }
    }
    DayPassed(c, moment, day, offset);
    found := None;
  }

  /** Once the days searched, or the calendar's, are used up, no firing is left. */
  lemma NothingReached(c: Cron, after: Instant, offset: nat)
    requires ValidInstant(after) && ValidMinute(FirstMinute(after)) && NothingBefore(c, FirstMinute(after), offset)
    requires offset >= SEARCH_LIMIT_DAYS || Ordinal(FirstMinute(after).date) + offset > LAST_ORDINAL
    ensures forall f :: InWindow(c, after, f) ==> !InCalendar(f.date)
  {
    forall f | InWindow(c, after, f) ensures !InCalendar(f.date) {
      FirstMinuteIsLeast(after, f);
      LastDay(f.date);
    }
  }

  lemma SameDay(a: Date, b: Date)
    requires Valid(a) && Valid(b)
    ensures Ordinal(a) == Ordinal(b) ==> a == b
  {
    if Ordinal(a) == Ordinal(b) {
      AddDaysReaches(a, b);
    }
  }

  lemma FoundIsNext(c: Cron, after: Instant, day: Date, offset: nat, at: int)
    requires ValidInstant(after) && offset < SEARCH_LIMIT_DAYS && Valid(day) && 0 <= at < MINUTES_PER_DAY
    requires var moment := FirstMinute(after);
      && Ordinal(day) == Ordinal(moment.date) + offset
      && NothingBefore(c, moment, offset)
      && (offset == 0 ==> moment.minute <= at)
    requires DayMatches(c, day) && FirstTime(c, if offset == 0 then FirstMinute(after).minute else 0, Some(at))
    ensures IsNext(c, after, Minute(day, at)) && InWindow(c, after, Minute(day, at))
  {
    var moment := FirstMinute(after);
    var f := Minute(day, at);
    FirstMinuteIsLeast(after, f);
    forall g | ValidMinute(g) && Fires(c, g) && StrictlyAfter(g, after) ensures Count(f) <= Count(g) {
      FirstMinuteIsLeast(after, g);
      assert Ordinal(g.date) >= Ordinal(day);
      if Ordinal(g.date) == Ordinal(day) {
        SameDay(g.date, day);
      }
    }
  }

  lemma DayPassed(c: Cron, moment: Minute, day: Date, offset: nat)
    requires ValidMinute(moment) && Valid(day) && Ordinal(day) == Ordinal(moment.date) + offset
    requires NothingBefore(c, moment, offset)
    requires !DayMatches(c, day) || FirstTime(c, if offset == 0 then moment.minute else 0, None)
    ensures NothingBefore(c, moment, offset + 1)
  {
    forall g | ValidMinute(g) && Fires(c, g) && Count(moment) <= Count(g)
      ensures Ordinal(g.date) >= Ordinal(moment.date) + offset + 1
    {
      if Ordinal(g.date) == Ordinal(day) {
        SameDay(g.date, day);
      }
    }
  }
}
