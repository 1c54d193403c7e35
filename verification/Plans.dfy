/** When a task runs next: next_interval and next_run of schedule.py, with the calendar's limits. */
module Plans {
  import opened Basics
  import opened Calendar
  import opened Cron
  import opened CronParse
  import opened Text

  const SECOND := 1_000_000
  const MICROS_PER_DAY := 86_400_000_000

  /** datetime.min and datetime.max, in microseconds counted from ordinal zero. */
  const FIRST_MOMENT := MICROS_PER_DAY
  const LAST_MOMENT := (LAST_ORDINAL + 1) * MICROS_PER_DAY - 1

  type Moment = m: int | FIRST_MOMENT <= m <= LAST_MOMENT witness FIRST_MOMENT

  /** A stored time: an ISO text of whole seconds. */
  type Stamp = s: int | FIRST_MOMENT <= s * SECOND <= LAST_MOMENT witness 86_400

  /** isoformat(timespec="seconds"). */
  function Whole(m: Moment): (s: Stamp)
    ensures s * SECOND <= m < (s + 1) * SECOND
  {
    m / SECOND
  }

  function MomentOf(s: Stamp): Moment {
    s * SECOND
  }

  /** What float() makes of a text. */
  datatype Days = Unreadable | NotANumber | PlusInfinity | MinusInfinity | Finite(days: real)

  /** The schedule fields of a task row; days is float() of the stripped expression. */
  datatype Schedule = Schedule(kind: string, expression: string, days: Days, jitter: int)

  const DEFAULT_INTERVAL_DAYS := Finite(25.0)

  /** A moment, a ScheduleError, or an OverflowError or ValueError that no caller catches. */
  datatype Plan = At(moment: Moment) | Unusable | Raised

  function KindOf(s: Schedule): string {
    if s.kind == "" then "interval" else s.kind
  }

  predicate IsMoment(m: int) {
    FIRST_MOMENT <= m <= LAST_MOMENT
  }

  /** datetime + timedelta. */
  function Shift(m: int): Plan {
    if IsMoment(m) then At(m) else Raised
  }

  /** Round half to even, as timedelta does. */
  function Round(x: real): int {
    var low := x.Floor;
    var rest := x - low as real;
    if rest < 0.5 || (rest == 0.5 && low % 2 == 0) then low else low + 1
  }

  function IntervalMicros(days: real): int {
    Round(days * 86_400_000_000.0)
  }

  // ------------------------------------------------------------ intervals

  function IntervalOf(s: Schedule): Days {
    if Strip(s.expression) == "" then DEFAULT_INTERVAL_DAYS else s.days
  }

  function NextInterval(days: Days, after: Moment): Plan {
    match days
    case Unreadable => Unusable
    case MinusInfinity => Unusable
    case NotANumber => Raised
    case PlusInfinity => Raised
    case Finite(d) => if d <= 0.0 then Unusable else Shift(after + IntervalMicros(d))
  }

  // ------------------------------------------------------------ cron

  /** The date with an ordinal. */
  function DateOf(ordinal: int): Date
    requires ordinal >= 1
  {
    AddDays(Date(1, 1, 1), ordinal - 1)
  }

  function InstantOf(m: Moment): Instant {
    Instant(DateOf(m / MICROS_PER_DAY), m % MICROS_PER_DAY)
  }

  lemma InstantIsValid(m: Moment)
    ensures ValidInstant(InstantOf(m)) && Micros(InstantOf(m)) == m && InCalendar(InstantOf(m).date)
  {
    AddDaysOrdinal(Date(1, 1, 1), m / MICROS_PER_DAY - 1);
    assert Ordinal(Date(1, 1, 1)) == 1;
    LastDay(InstantOf(m).date);
  }

  lemma MinuteIsMoment(f: Minute)
    requires ValidMinute(f) && InCalendar(f.date)
    ensures IsMoment(Count(f) * MICROS_PER_MINUTE)
  {
    LastDay(f.date);
  }

  /** next_cron as a value: the chosen firing is unique. */
  ghost function NextByCron(expression: string, after: Moment): (p: Plan)
  {
    match ReadCron(expression)
    case Err(_) => Unusable
    case Ok(c) =>
      var t := InstantOf(after);
      if f :| Chosen(c, t, f) then
        MinuteIsMoment(f);
        At(Count(f) * MICROS_PER_MINUTE)
      else if NearEnd(t) then Raised
      else Unusable
  }

  // ------------------------------------------------------------ next_run

  predicate IsCron(s: Schedule) {
    KindOf(s) == "cron"
  }

  /** The moment the schedule itself names, before jitter and floor. */
  ghost function OwnMoment(s: Schedule, after: Moment): Plan {
    if IsCron(s) then NextByCron(Strip(s.expression), after)
    else if KindOf(s) == "interval" then NextInterval(IntervalOf(s), after)
    else Unusable
  }

  function Jittered(s: Schedule, own: Plan, draw: int): Plan {
    if own.At? && s.jitter != 0 then Shift(own.moment + draw) else own
  }

  function NotBefore(plan: Plan, floor: Moment): Plan {
    if plan.At? && plan.moment < floor then At(floor) else plan
  }

  /** next_run: draw is what uniform(-jitter, jitter) gives, in microseconds. */
  ghost function NextRun(s: Schedule, after: Moment, floor: Moment, draw: int): Plan {
    NotBefore(Jittered(s, OwnMoment(s, after), draw), floor)
  }

  function Spread(s: Schedule): (r: int)
    ensures r >= 0
  {
    (if s.jitter < 0 then -s.jitter else s.jitter) * SECOND
  }

  predicate DrawFits(s: Schedule, draw: int) {
    -Spread(s) <= draw <= Spread(s)
  }

  method ComputeInterval(days: Days, after: Moment) returns (p: Plan)
    ensures p == NextInterval(days, after)
  {
    match days
    case Unreadable => p := Unusable;
    case NotANumber => p := Raised;
    case PlusInfinity => p := Raised;
    case MinusInfinity => p := Unusable;
    case Finite(d) =>
      if d <= 0.0 {
        return Unusable;
      }
      p := Shift(after + IntervalMicros(d));
  }

  method ComputeCron(expression: string, after: Moment) returns (p: Plan)
    ensures p == NextByCron(expression, after)
  {
    InstantIsValid(after);
    var firing := NextFiring(expression, InstantOf(after));
    hide ReadCron, InstantOf, NearEnd, NextByCron, Chosen, InWindow;
    if ReadCron(expression).Err? {
      RefusedCron(expression, after);
    } else if firing.FiresAt? {
      ChosenIsNext(expression, after, firing.minute);
    } else {
      NoneIsNext(expression, after);
    }
    match firing
    case Refused(_) => p := Unusable;
    case Overflowed => p := Raised;
    case FiresAt(minute) => p := At(Count(minute) * MICROS_PER_MINUTE);
  }

  lemma RefusedCron(expression: string, after: Moment)
    requires ReadCron(expression).Err?
    ensures NextByCron(expression, after) == Unusable
  {
  }

  lemma ChosenIsNext(expression: string, after: Moment, minute: Minute)
    requires ReadCron(expression).Ok? && Chosen(ReadCron(expression).value, InstantOf(after), minute)
    ensures IsMoment(Count(minute) * MICROS_PER_MINUTE)
    ensures NextByCron(expression, after) == At(Count(minute) * MICROS_PER_MINUTE)
  {
    hide ReadCron, InstantOf, NearEnd;
    var c := ReadCron(expression).value;
    MinuteIsMoment(minute) by {
      assert InWindow(c, InstantOf(after), minute);
    }
    hide Chosen;
    forall f | Chosen(c, InstantOf(after), f) ensures f == minute {
      ChosenUnique(c, InstantOf(after), f, minute);
    }
  }

  lemma NoneIsNext(expression: string, after: Moment)
    requires ReadCron(expression).Ok?
    requires forall f :: InWindow(ReadCron(expression).value, InstantOf(after), f) ==> !InCalendar(f.date)
    ensures NextByCron(expression, after) == if NearEnd(InstantOf(after)) then Raised else Unusable
  {
    hide ReadCron, InstantOf, NearEnd, InWindow, IsNext;
  }

  /** The kind decides, jitter moves the moment, the floor has the last word. */
  method ComputeNextRun(s: Schedule, after: Moment, floor: Moment, draw: int) returns (p: Plan)
    ensures p == NextRun(s, after, floor, draw)
  {
    hide NextByCron, NextInterval, Strip;
    var kind := if s.kind == "" then "interval" else s.kind;
    var expression := Strip(s.expression);
    if kind == "cron" {
      p := ComputeCron(expression, after);
    } else if kind == "interval" {
      p := ComputeInterval(if expression == "" then DEFAULT_INTERVAL_DAYS else s.days, after);
    } else {
      p := Unusable;
    }
    if p.At? && s.jitter != 0 {
      p := Shift(p.moment + draw);
    }
    if p.At? && p.moment < floor {
      p := At(floor);
    }
  }

  // ------------------------------------------------------------ what it means

  /** Rounding goes to the nearest whole number, from half way to the even one. */
  lemma RoundIsNearest(x: real)
    ensures x - 0.5 <= Round(x) as real <= x + 0.5
    ensures Round(x) as real == x - 0.5 || Round(x) as real == x + 0.5 ==> Round(x) % 2 == 0
  {
    if x.Floor % 2 != 0 {
      assert (x.Floor + 1) % 2 == 0;
    }
  }

  /** The schedule's own moment with the draw added, when there is any jitter. */
  function Moved(s: Schedule, own: Moment, draw: int): int {
    own + if s.jitter == 0 then 0 else draw
  }

  /**
   The floor replaces only what lies before it: a moved moment at or after the
   floor is kept, an earlier one gives the floor itself, one outside the
   calendar raises, and without an own moment there is nothing to move.
   */
  lemma FloorDecides(s: Schedule, after: Moment, floor: Moment, draw: int)
    ensures var own, p := OwnMoment(s, after), NextRun(s, after, floor, draw);
      if own.At? then
        var m := Moved(s, own.moment, draw);
        && (s.jitter == 0 || IsMoment(m) ==> p == At(Max(m, floor)))
        && (s.jitter != 0 && !IsMoment(m) ==> p == Raised)
      else p == own
  {
    hide OwnMoment;
  }

  /** A task of no kind and no expression runs every 25 days, whatever its floor allows. */
  lemma BlankInterval(s: Schedule, after: Moment, floor: Moment, draw: int)
    requires s.kind == "" && Strip(s.expression) == "" && s.jitter == 0
    requires after + 25 * MICROS_PER_DAY <= LAST_MOMENT
    ensures NextRun(s, after, floor, draw) == At(Max(after + 25 * MICROS_PER_DAY, floor))
  {
    assert IntervalMicros(25.0) == 25 * MICROS_PER_DAY;
  }

  /**
   A planned moment is never before the floor, and is the floor or lies within
   the jitter of the schedule's own moment: the earliest firing of a cron
   expression strictly after the anchor, or the anchor plus the interval to the
   nearest microsecond.
   */
  lemma PlanMeaning(s: Schedule, after: Moment, floor: Moment, draw: int)
    requires DrawFits(s, draw) && NextRun(s, after, floor, draw).At?
    ensures var p := NextRun(s, after, floor, draw).moment;
      var own := OwnMoment(s, after);
      && own.At? && floor <= p && (p == floor || own.moment - Spread(s) <= p <= own.moment + Spread(s))
      && (s.kind == "cron" ==>
            && ReadCron(Strip(s.expression)).Ok? && own.moment > after
            && exists f :: IsNext(ReadCron(Strip(s.expression)).value, InstantOf(after), f)
                           && own.moment == Count(f) * MICROS_PER_MINUTE)
      && (s.kind != "cron" ==>
            && (s.kind == "" || s.kind == "interval") && (Strip(s.expression) != "" ==> s.days.Finite?)
            && var days := if Strip(s.expression) == "" then 25.0 else s.days.days;
               days > 0.0 && -0.5 <= (own.moment - after) as real - days * 86_400_000_000.0 <= 0.5)
  {
    hide NextByCron, IntervalMicros, Strip, IsNext;
    if IsCron(s) {
      OwnFiring(Strip(s.expression), after);
    } else {
      OwnInterval(IntervalOf(s), after);
    }
  }

  lemma OwnFiring(expression: string, after: Moment)
    requires NextByCron(expression, after).At?
    ensures var own := NextByCron(expression, after).moment;
      && ReadCron(expression).Ok? && own > after
      && exists f :: IsNext(ReadCron(expression).value, InstantOf(after), f) && own == Count(f) * MICROS_PER_MINUTE
  {
    InstantIsValid(after);
    hide InstantOf, ReadCron, Count, Micros, Fires, NearEnd;
    var c := ReadCron(expression).value;
    var f :| Chosen(c, InstantOf(after), f) && NextByCron(expression, after) == At(Count(f) * MICROS_PER_MINUTE);
    assert IsNext(c, InstantOf(after), f);
    assert StrictlyAfter(f, InstantOf(after));
  }

  lemma OwnInterval(days: Days, after: Moment)
    requires NextInterval(days, after).At?
    ensures days.Finite? && days.days > 0.0
    ensures var own := NextInterval(days, after).moment;
      -0.5 <= (own - after) as real - days.days * 86_400_000_000.0 <= 0.5
  {
    RoundIsNearest(days.days * 86_400_000_000.0);
  }

  /**
   What raises, read off the expression, the anchor and the draw: a number of
   days that is no number or carries the anchor past the calendar, a cron
   search that meets the calendar's end, or a jitter that does.
   */
  ghost predicate LeavesCalendar(s: Schedule, after: Moment, draw: int) {
    if IsCron(s) then
      var expression := ReadCron(Strip(s.expression));
      expression.Ok? &&
      if exists f :: Chosen(expression.value, InstantOf(after), f)
      then
        s.jitter != 0
        && exists f :: Chosen(expression.value, InstantOf(after), f) && !IsMoment(Count(f) * MICROS_PER_MINUTE + draw)
      else NearEnd(InstantOf(after))
    else
      KindOf(s) == "interval" &&
      match IntervalOf(s)
      case NotANumber => true
      case PlusInfinity => true
      case MinusInfinity => false
      case Unreadable => false
      case Finite(days) =>
        days > 0.0 &&
        (after + IntervalMicros(days) > LAST_MOMENT ||
          (s.jitter != 0 && !IsMoment(after + IntervalMicros(days) + draw)))
  }

  /** next_run lets an exception through exactly then, whatever the floor. */
  lemma RaisesIff(s: Schedule, after: Moment, floor: Moment, draw: int)
    ensures NextRun(s, after, floor, draw).Raised? <==> LeavesCalendar(s, after, draw)
  {
    if IsCron(s) {
      CronRaisesIff(s, after, floor, draw);
    } else {
      hide IntervalMicros, Strip;
      if KindOf(s) == "interval" && IntervalOf(s).Finite? {
        IntervalGrows(IntervalOf(s).days);
      }
    }
  }

  lemma CronRaisesIff(s: Schedule, after: Moment, floor: Moment, draw: int)
    requires IsCron(s)
    ensures NextRun(s, after, floor, draw).Raised? <==> LeavesCalendar(s, after, draw)
  {
    hide Strip, ReadCron, InstantOf, Chosen, NearEnd;
    var expression := Strip(s.expression);
    if ReadCron(expression).Ok? {
      var c := ReadCron(expression).value;
      if f :| Chosen(c, InstantOf(after), f) {
        ChosenIsNext(expression, after, f);
        hide NextByCron;
        forall g | Chosen(c, InstantOf(after), g) ensures g == f {
          ChosenUnique(c, InstantOf(after), g, f);
        }
      }
    }
  }

  /** Some draw makes next_run raise: its own moment does, or the jitter reaches past the calendar. */
  ghost predicate MayRaise(s: Schedule, after: Moment) {
    match OwnMoment(s, after)
    case Raised => true
    case Unusable => false
    case At(m) => !IsMoment(m - Spread(s)) || !IsMoment(m + Spread(s))
  }

  lemma RaisesForSomeDraw(s: Schedule, after: Moment, floor: Moment)
    ensures MayRaise(s, after) <==> exists draw :: DrawFits(s, draw) && NextRun(s, after, floor, draw).Raised?
  {
    hide OwnMoment;
    if MayRaise(s, after) {
      var own := OwnMoment(s, after);
      var draw := if own.At? && IsMoment(own.moment - Spread(s)) then Spread(s) else -Spread(s);
      assert DrawFits(s, draw) && NextRun(s, after, floor, draw).Raised?;
    }
  }

  /** What an operator can check: a number of days, or a cron expression, with the calendar's ends out of reach. */
  predicate RoomLeft(s: Schedule, after: Moment) {
    && IsMoment(after - Spread(s))
    && if IsCron(s) then after + (SEARCH_LIMIT_DAYS + 1) * MICROS_PER_DAY + Spread(s) <= LAST_MOMENT
       else match IntervalOf(s)
            case Finite(d) => d > 0.0 ==> after + IntervalMicros(d) + Spread(s) <= LAST_MOMENT
            case NotANumber => false
            case PlusInfinity => false
            case _ => true
  }

  /** Then no draw raises. */
  lemma RoomIsEnough(s: Schedule, after: Moment)
    requires RoomLeft(s, after)
    ensures !MayRaise(s, after)
  {
    hide NextByCron, Strip, IntervalMicros;
    if IsCron(s) {
      CronStaysNear(Strip(s.expression), after);
    } else if IntervalOf(s).Finite? {
      IntervalGrows(IntervalOf(s).days);
    }
  }

  lemma IntervalGrows(days: real)
    ensures days > 0.0 ==> IntervalMicros(days) >= 0
  {
    RoundIsNearest(days * 86_400_000_000.0);
  }

  lemma CronStaysNear(expression: string, after: Moment)
    requires after + (SEARCH_LIMIT_DAYS + 1) * MICROS_PER_DAY <= LAST_MOMENT
    ensures NextByCron(expression, after).At? ==>
      after <= NextByCron(expression, after).moment <= after + (SEARCH_LIMIT_DAYS + 1) * MICROS_PER_DAY
    ensures !NextByCron(expression, after).Raised?
  {
    InstantIsValid(after);
    NotNearEnd(InstantOf(after));
    hide NearEnd, ReadCron, InstantOf, Micros, Count, ValidInstant;
    if NextByCron(expression, after).At? {
      var c := ReadCron(expression).value;
      var f :| Chosen(c, InstantOf(after), f) && NextByCron(expression, after) == At(Count(f) * MICROS_PER_MINUTE);
      hide Chosen;
      WindowIsNear(c, InstantOf(after), f);
    }
  }

  lemma StartsWithinADay(t: Instant)
    requires ValidInstant(t)
    ensures Ordinal(t.date) <= Ordinal(FirstMinute(t).date) <= Ordinal(t.date) + 1
  {
    NextDayOrdinal(t.date);
    hide Ordinal;
  }

  lemma NotNearEnd(t: Instant)
    requires ValidInstant(t) && Micros(t) + (SEARCH_LIMIT_DAYS + 1) * MICROS_PER_DAY <= LAST_MOMENT
    ensures !NearEnd(t)
  {
    StartsWithinADay(t);
    hide Ordinal;
  }

  lemma WindowIsNear(c: Cron, t: Instant, f: Minute)
    requires ValidInstant(t) && Chosen(c, t, f)
    ensures Micros(t) <= Count(f) * MICROS_PER_MINUTE <= Micros(t) + (SEARCH_LIMIT_DAYS + 1) * MICROS_PER_DAY
  {
    StartsWithinADay(t);
    hide Ordinal, Fires;
  }
}
