/** Reading a cron expression (schedule.py), against the meaning of its five fields. */
module CronParse {
  import opened Basics
  import opened Cron
  import opened Text

  datatype CronError =
      FieldCount | EmptyField | BadStep | StepNotPositive | NotANumber | Reversed | OutsideRange | NoRun

  /** start, start + step, … up to end. */
  datatype Steps = Steps(start: int, end: int, step: int)

  predicate Hits(r: Steps, v: int)
    requires r.step >= 1
  {
    r.start <= v <= r.end && (v - r.start) % r.step == 0
  }

  /** range(start, end + 1, step) as a set. */
  function Covered(r: Steps): (s: set<int>)
    requires r.step >= 1
  {
    set v | r.start <= v <= r.end && Hits(r, v)
  }

  predicate InRange(r: Steps, low: int, high: int) {
    low <= r.start <= r.end <= high && r.step >= 1
  }

  function StepOf(part: string): Result<int, CronError> {
    var slash := IndexOf(part, '/');
    if slash == |part| then Ok(1)
    else
      match ParseInt(part[slash + 1..])
      case None => Err(BadStep)
      case Some(step) => if step < 1 then Err(StepNotPositive) else Ok(step)
  }

  function BoundsOf(body: string, low: int, high: int, step: int): Result<(int, int), CronError> {
    var dash := IndexOf(body, '-');
    if body == "*" || body == "" then Ok((low, high))
    else if dash < |body| then
      match (ParseInt(body[..dash]), ParseInt(body[dash + 1..]))
      case (Some(start), Some(end)) => Ok((start, end))
      case _ => Err(NotANumber)
    else
      match ParseInt(body)
      case None => Err(NotANumber)
      case Some(start) => Ok((start, if step > 1 then high else start))
  }

  /** One part between commas. */
  function ReadPart(part: string, low: int, high: int): (r: Result<Steps, CronError>)
    ensures r.Ok? ==> InRange(r.value, low, high)
  {
    match StepOf(part)
    case Err(e) => Err(e)
    case Ok(step) =>
      match BoundsOf(part[..IndexOf(part, '/')], low, high, step)
      case Err(e) => Err(e)
      case Ok((start, end)) =>
        if start > end then Err(Reversed)
        else if start < low || end > high then Err(OutsideRange)
        else Ok(Steps(start, end, step))
  }

  /** The first part that cannot be read decides; otherwise the union of the parts. */
  function ReadParts(parts: seq<string>, low: int, high: int): Result<set<int>, CronError> {
    if parts == [] then Ok({})
    else
      match ReadParts(parts[..|parts| - 1], low, high)
      case Err(e) => Err(e)
      case Ok(front) =>
        match ReadPart(parts[|parts| - 1], low, high)
        case Err(e) => Err(e)
        case Ok(steps) => Ok(front + Covered(steps))
  }

  /** The values of a field, and whether it is the bare star. */
  function ReadField(raw: string, low: int, high: int): Result<(set<int>, bool), CronError> {
    var text := Strip(raw);
    if text == "" then Err(EmptyField)
    else if text == "*" then Ok((Covered(Steps(low, high, 1)), true))
    else
      match ReadParts(Split(text, ','), low, high)
      case Err(e) => Err(e)
      case Ok(values) => Ok((values, false))
  }

  /** _parse_field: the loop that fills the set part by part. */
  method ParseField(raw: string, low: int, high: int) returns (r: Result<(set<int>, bool), CronError>)
    ensures r == ReadField(raw, low, high)
  {
    var text := Strip(raw);
    if text == "" {
      return Err(EmptyField);
    }
    if text == "*" {
      return Ok((Covered(Steps(low, high, 1)), true));
    }
    var parts := Split(text, ',');
    var values: set<int> := {};
    for i := 0 to |parts|
      invariant ReadParts(parts[..i], low, high) == Ok(values)
    {
      assert parts[..i + 1][..i] == parts[..i];
      var steps := ReadPart(parts[i], low, high);
      if steps.Err? {
        FirstErrorDecides(parts, i + 1, low, high);
        return Err(steps.error);
      }
      values := values + Covered(steps.value);
    }
    assert parts[..|parts|] == parts;
    r := Ok((values, false));
  }

  lemma {:induction false} FirstErrorDecides(parts: seq<string>, i: nat, low: int, high: int)
    requires i <= |parts| && ReadParts(parts[..i], low, high).Err?
    ensures ReadParts(parts, low, high) == ReadParts(parts[..i], low, high)
    decreases |parts|
  {
    if i == |parts| {
      assert parts[..i] == parts;
    } else {
      var front := parts[..|parts| - 1];
      assert front[..i] == parts[..i];
      FirstErrorDecides(front, i, low, high);
    }
  }

  predicate PartCovers(part: string, low: int, high: int, v: int) {
    var steps := ReadPart(part, low, high);
    steps.Ok? && v in Covered(steps.value)
  }

  lemma CoveredInRange(low: int, high: int)
    ensures forall p, u :: PartCovers(p, low, high, u) ==> low <= u <= high
  {
  }

  /** What a successful read contains: v, exactly when some part covers it. */
  lemma {:induction false} ReadPartsMembers(parts: seq<string>, low: int, high: int, v: int)
    requires ReadParts(parts, low, high).Ok?
    ensures v in ReadParts(parts, low, high).value <==>
      exists i :: 0 <= i < |parts| && PartCovers(parts[i], low, high, v)
    ensures v in ReadParts(parts, low, high).value ==> low <= v <= high
  {
    hide ReadPart, Covered;
    if parts != [] {
      assert forall p, u :: PartCovers(p, low, high, u) ==> low <= u <= high by {
        CoveredInRange(low, high);
      }
      var front, last := parts[..|parts| - 1], parts[|parts| - 1];
      ReadPartsMembers(front, low, high, v);
      assert v in ReadParts(parts, low, high).value <==>
        v in ReadParts(front, low, high).value || PartCovers(last, low, high, v);
      if v in ReadParts(front, low, high).value {
        var i :| 0 <= i < |front| && PartCovers(front[i], low, high, v);
        assert PartCovers(parts[i], low, high, v);
      }
    }
  }

  /** A part with nothing before its step is read as one with a star there. */
  lemma EmptyIsStar(rest: string, low: int, high: int)
    requires rest == "" || rest[0] == '/'
    ensures ReadPart(rest, low, high) == ReadPart("*" + rest, low, high)
  {
    var starred := "*" + rest;
    assert starred[1..] == rest;
    assert IndexOf(starred, '/') == 1 + IndexOf(rest, '/');
    assert starred[..1] == "*" && rest[..0] == "";
    if rest != "" {
      assert starred[2..] == rest[1..];
    }
  }

  /**
   So an accepted list with an empty part, as in "1,,2", is every
   value of its field, though not flagged as the star.
   */
  lemma EmptyPartFillsField(raw: string, low: int, high: int)
    requires low <= high && ReadField(raw, low, high).Ok? && "" in Split(Strip(raw), ',') && Strip(raw) != "*"
    ensures !ReadField(raw, low, high).value.1
    ensures forall v :: v in ReadField(raw, low, high).value.0 <==> low <= v <= high
  {
    var parts := Split(Strip(raw), ',');
    var i :| 0 <= i < |parts| && parts[i] == "";
    assert ReadPart("", low, high) == Ok(Steps(low, high, 1));
    forall v ensures v in ReadParts(parts, low, high).value <==> low <= v <= high {
      ReadPartsMembers(parts, low, high, v);
      assert low <= v <= high ==> PartCovers(parts[i], low, high, v);
    }
  }

  lemma PartsInRange(parts: seq<string>, low: int, high: int)
    requires |parts| >= 1 && ReadParts(parts, low, high).Ok?
    ensures ReadParts(parts, low, high).value != {}
    ensures forall v :: v in ReadParts(parts, low, high).value ==> low <= v <= high
  {
    var values := ReadParts(parts, low, high).value;
    forall v | v in values ensures low <= v <= high {
      ReadPartsMembers(parts, low, high, v);
    }
    var last := ReadPart(parts[|parts| - 1], low, high).value;
    assert last.start in Covered(last);
  }

  /** An accepted field is never empty and stays in range. */
  lemma FieldInRange(raw: string, low: int, high: int)
    requires low <= high && ReadField(raw, low, high).Ok?
    ensures ReadField(raw, low, high).value.0 != {}
    ensures forall v :: v in ReadField(raw, low, high).value.0 ==> low <= v <= high
  {
    var text := Strip(raw);
    if text == "*" {
      assert low in Covered(Steps(low, high, 1));
    } else {
      PartsInRange(Split(text, ','), low, high);
    }
  }

  /** Both 0 and 7 mean Sunday. */
  function SundayIsZero(dows: set<int>): set<int> {
    set v | v in dows :: if v == 7 then 0 else v
  }

  function ReadCron(expression: string): (r: Result<Cron, CronError>) {
    var fields := Words(expression);
    if |fields| != 5 then Err(FieldCount)
    else
      match ReadField(fields[0], 0, 59)
      case Err(e) => Err(e)
      case Ok((minutes, _)) =>
        match ReadField(fields[1], 0, 23)
        case Err(e) => Err(e)
        case Ok((hours, _)) =>
          match ReadField(fields[2], 1, 31)
          case Err(e) => Err(e)
          case Ok((doms, domAny)) =>
            match ReadField(fields[3], 1, 12)
            case Err(e) => Err(e)
            case Ok((months, _)) =>
              match ReadField(fields[4], 0, 7)
              case Err(e) => Err(e)
              case Ok((dows, dowAny)) => Ok(Cron(minutes, hours, doms, months, SundayIsZero(dows), domAny, dowAny))
  }

  /** Every accepted expression can be searched. */
  lemma AcceptedIsWellFormed(expression: string)
    ensures ReadCron(expression).Ok? ==> WellFormed(ReadCron(expression).value)
  {
    if ReadCron(expression).Err? {
      return;
    }
    var fields := Words(expression);
    FieldInRange(fields[0], 0, 59);
    FieldInRange(fields[1], 0, 23);
    FieldInRange(fields[2], 1, 31);
    FieldInRange(fields[3], 1, 12);
    FieldInRange(fields[4], 0, 7);
    var dows := ReadField(fields[4], 0, 7).value.0;
    var any := AnyOf(dows);
    assert (if any == 7 then 0 else any) in SundayIsZero(dows);
  }

  method ParseCron(expression: string) returns (r: Result<Cron, CronError>)
    ensures r == ReadCron(expression)
    ensures r.Ok? ==> WellFormed(r.value)
  {
    var fields := Words(expression);
    if |fields| != 5 {
      return Err(FieldCount);
    }
    var minutes := ParseField(fields[0], 0, 59);
    if minutes.Err? { return Err(minutes.error); }
    var hours := ParseField(fields[1], 0, 23);
    if hours.Err? { return Err(hours.error); }
    var doms := ParseField(fields[2], 1, 31);
    if doms.Err? { return Err(doms.error); }
    var months := ParseField(fields[3], 1, 12);
    if months.Err? { return Err(months.error); }
    var dows := ParseField(fields[4], 0, 7);
    if dows.Err? { return Err(dows.error); }
    r := Ok(Cron(minutes.value.0, hours.value.0, doms.value.0, months.value.0, SundayIsZero(dows.value.0),
                 doms.value.1, dows.value.1));
    AcceptedIsWellFormed(expression);
  }

  /** What next_cron does: return, raise its ScheduleError, or let an OverflowError through. */
  datatype Firing = FiresAt(minute: Minute) | Refused(error: CronError) | Overflowed

  /**
   next_cron: the earliest firing of an accepted expression within the days
   searched. Without one the error is NoRun, unless those days run past the
   last one of the calendar.
   */
  method NextFiring(expression: string, after: Instant) returns (r: Firing)
    requires ValidInstant(after)
    ensures ReadCron(expression).Err? ==> r == Refused(ReadCron(expression).error)
    ensures ReadCron(expression).Ok? ==>
      var c := ReadCron(expression).value;
      && (r.FiresAt? ==> Chosen(c, after, r.minute))
      && (!r.FiresAt? ==>
            && (forall f :: InWindow(c, after, f) ==> !InCalendar(f.date))
            && r == if NearEnd(after) then Overflowed else Refused(NoRun))
  {
    var cron := ParseCron(expression);
    if cron.Err? { return Refused(cron.error); }
    var found := NextCron(cron.value, after);
    match found
    case Found(minute) => r := FiresAt(minute);
    case NoneFound => r := Refused(NoRun);
    case PastEnd => r := Overflowed;
  }
}
