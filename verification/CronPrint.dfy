/** Writing cron fields out, and the round trip through the reader. */
module CronPrint {
  import opened Basics
  import opened Calendar
  import opened Cron
  import opened Text
  import opened CronParse

  datatype Body = Star | Single(n: nat) | Range(from: nat, to: nat)

  /** A part as an operator writes it; no step is step one. */
  datatype Part = Part(body: Body, step: Option<nat>)

  /** The reference meaning of a part, on the field's own range. */
  function Meaning(p: Part, low: int, high: int): Steps {
    var step := if p.step.Some? then p.step.value else 1;
    match p.body
    case Star => Steps(low, high, step)
    case Single(n) => Steps(n, if step > 1 then high else n, step)
    case Range(a, b) => Steps(a, b, step)
  }

  /** Parts that mean something on the range. */
  predicate Legal(p: Part, low: int, high: int) {
    InRange(Meaning(p, low, high), low, high)
  }

  function PrintBody(b: Body): string {
    match b
    case Star => "*"
    case Single(n) => PrintNat(n)
    case Range(x, y) => PrintNat(x) + "-" + PrintNat(y)
  }

  function PrintPart(p: Part): string {
    if p.step.None? then PrintBody(p.body) else PrintBody(p.body) + "/" + PrintNat(p.step.value)
  }

  function PrintParts(ps: seq<Part>): (r: seq<string>)
    ensures |r| == |ps| && forall i :: 0 <= i < |ps| ==> r[i] == PrintPart(ps[i])
  {
    seq(|ps|, i requires 0 <= i < |ps| => PrintPart(ps[i]))
  }

  function PrintField(ps: seq<Part>): string
    requires |ps| >= 1
  {
    Join(PrintParts(ps), ',')
  }

  /** The characters a part is made of. */
  predicate Plain(s: string) {
    forall c :: c in s ==> IsDigit(c) || c == '*' || c == '-' || c == '/'
  }

  lemma BodyText(b: Body)
    ensures '/' !in PrintBody(b) && PrintBody(b) != "" && Plain(PrintBody(b))
    ensures PrintBody(b) == "*" <==> b == Star
  {
    match b
    case Star =>
    case Single(n) =>
      assert PrintNat(n)[0] in PrintNat(n);
    case Range(x, y) =>
      assert PrintNat(x)[0] in PrintNat(x);
  }

  lemma PartText(p: Part)
    ensures PrintPart(p) != "" && Plain(PrintPart(p))
  {
    BodyText(p.body);
  }

  lemma StepReads(p: Part)
    ensures IndexOf(PrintPart(p), '/') == |PrintBody(p.body)| &&
      PrintPart(p)[..|PrintBody(p.body)|] == PrintBody(p.body)
    ensures StepOf(PrintPart(p)) ==
      if p.step.None? then Ok(1) else if p.step.value < 1 then Err(StepNotPositive) else Ok(p.step.value as int)
  {
    var body := PrintBody(p.body);
    BodyText(p.body);
    if p.step.None? {
      IndexAfter(body, '/', "");
    } else {
      var digits := PrintNat(p.step.value);
      IndexAfter(body, '/', digits);
      assert (body + "/" + digits)[|body| + 1..] == digits;
      ParseIntPrinted(p.step.value);
    }
  }

  lemma BoundsRead(b: Body, low: int, high: int, step: int)
    requires step >= 1
    ensures var m := Meaning(Part(b, Some(step)), low, high);
      BoundsOf(PrintBody(b), low, high, step) == Ok((m.start, m.end))
  {
    BodyText(b);
    match b
    case Star =>
    case Single(n) =>
      IndexAfter(PrintNat(n), '-', "");
      ParseIntPrinted(n);
    case Range(x, y) =>
      IndexAfter(PrintNat(x), '-', PrintNat(y));
      var text := PrintNat(x) + "-" + PrintNat(y);
      assert text[..|PrintNat(x)|] == PrintNat(x) && text[|PrintNat(x)| + 1..] == PrintNat(y);
      ParseIntPrinted(x);
      ParseIntPrinted(y);
  }

  /** A printed part is accepted exactly when it is legal, and then read as what it means. */
  lemma PartReadsBack(p: Part, low: int, high: int)
    requires low <= high
    ensures ReadPart(PrintPart(p), low, high).Ok? <==> Legal(p, low, high)
    ensures Legal(p, low, high) ==> ReadPart(PrintPart(p), low, high) == Ok(Meaning(p, low, high))
  {
    StepReads(p);
    var step := StepOf(PrintPart(p));
    if step.Ok? {
      BoundsRead(p.body, low, high, step.value);
    }
  }

  /** The union of what the parts mean. */
  function FieldMeaning(ps: seq<Part>, low: int, high: int): set<int>
    requires forall p :: p in ps ==> Legal(p, low, high)
  {
    if ps == [] then {}
    else
      assert Legal(ps[|ps| - 1], low, high);
      FieldMeaning(ps[..|ps| - 1], low, high) + Covered(Meaning(ps[|ps| - 1], low, high))
  }

  lemma {:induction false} PartsReadBack(ps: seq<Part>, low: int, high: int)
    requires low <= high
    ensures ReadParts(PrintParts(ps), low, high).Ok? <==> forall p :: p in ps ==> Legal(p, low, high)
    ensures (forall p :: p in ps ==> Legal(p, low, high)) ==>
      ReadParts(PrintParts(ps), low, high) == Ok(FieldMeaning(ps, low, high))
  {
    hide PrintPart, ReadPart, Meaning, Legal, Covered;
    if ps != [] {
      var front := ps[..|ps| - 1];
      assert PrintParts(ps)[..|ps| - 1] == PrintParts(front);
      PartsReadBack(front, low, high);
      PartReadsBack(ps[|ps| - 1], low, high);
      assert ps == front + [ps[|ps| - 1]];
    }
  }

  predicate IsStar(ps: seq<Part>) {
    ps == [Part(Star, None)]
  }

  lemma {:induction false} JoinPlain(parts: seq<string>)
    requires |parts| >= 1 && forall i :: 0 <= i < |parts| ==> parts[i] != "" && Plain(parts[i])
    ensures IsWord(Join(parts, ','))
    ensures Join(parts, ',') == "*" ==> parts == ["*"]
  {
    var first := parts[0];
    assert forall k :: 0 <= k < |first| ==> first[k] in first;
    if |parts| > 1 {
      JoinPlain(parts[1..]);
    }
  }

  /**
   Every list of stars, numbers, ranges and steps reads back as its meaning:
   accepted exactly when each part is legal, the bare star flagged, nothing
   else flagged.
   */
  lemma FieldReadsBack(ps: seq<Part>, low: int, high: int)
    requires |ps| >= 1 && low <= high
    ensures ReadField(PrintField(ps), low, high).Ok? <==> forall p :: p in ps ==> Legal(p, low, high)
    ensures (forall p :: p in ps ==> Legal(p, low, high)) ==>
      ReadField(PrintField(ps), low, high) == Ok((FieldMeaning(ps, low, high), IsStar(ps)))
    ensures IsWord(PrintField(ps))
  {
    var parts := PrintParts(ps);
    forall i | 0 <= i < |ps| ensures parts[i] != "" && Plain(parts[i]) {
      PartText(ps[i]);
    }
    JoinPlain(parts);
    StripWord(PrintField(ps));
    SplitJoin(parts, ',');
    PartsReadBack(ps, low, high);
    StarOnly(ps);
    if IsStar(ps) {
      assert ps[..0] == [] && Covered(Steps(low, high, 1)) == FieldMeaning(ps, low, high);
    }
  }

  /** Only the bare star prints as a star. */
  lemma StarOnly(ps: seq<Part>)
    requires |ps| >= 1
    ensures PrintField(ps) == "*" <==> IsStar(ps)
  {
    var parts := PrintParts(ps);
    forall i | 0 <= i < |ps| ensures parts[i] != "" && Plain(parts[i]) {
      PartText(ps[i]);
    }
    JoinPlain(parts);
    if PrintField(ps) == "*" {
      BodyText(ps[0].body);
      assert parts[0] == "*" == PrintPart(ps[0]);
      assert ps == [ps[0]];
    }
  }

  datatype Fields = Fields(minute: seq<Part>, hour: seq<Part>, dom: seq<Part>, month: seq<Part>, dow: seq<Part>)

  predicate LegalFields(f: Fields) {
    && |f.minute| >= 1 && |f.hour| >= 1 && |f.dom| >= 1 && |f.month| >= 1 && |f.dow| >= 1
    && (forall p :: p in f.minute ==> Legal(p, 0, 59)) && (forall p :: p in f.hour ==> Legal(p, 0, 23))
    && (forall p :: p in f.dom ==> Legal(p, 1, 31)) && (forall p :: p in f.month ==> Legal(p, 1, 12))
    && (forall p :: p in f.dow ==> Legal(p, 0, 7))
  }

  function PrintCron(f: Fields): string
    requires LegalFields(f)
  {
    Join(PrintedFields(f), ' ')
  }

  function PrintedFields(f: Fields): seq<string>
    requires LegalFields(f)
  {
    [PrintField(f.minute), PrintField(f.hour), PrintField(f.dom), PrintField(f.month), PrintField(f.dow)]
  }

  lemma WordsOfCron(f: Fields)
    requires LegalFields(f)
    ensures Words(PrintCron(f)) == PrintedFields(f)
  {
    hide ReadField, FieldMeaning, IsWord, PrintField, Join, Words, Legal;
    FieldReadsBack(f.minute, 0, 59);
    FieldReadsBack(f.hour, 0, 23);
    FieldReadsBack(f.dom, 1, 31);
    FieldReadsBack(f.month, 1, 12);
    FieldReadsBack(f.dow, 0, 7);
    WordsJoin(PrintedFields(f));
  }

  /** A printed expression reads back as the meaning of its five fields, 7 as Sunday. */
  lemma CronReadsBack(f: Fields)
    requires LegalFields(f)
    ensures ReadCron(PrintCron(f)) == Ok(Cron(
      FieldMeaning(f.minute, 0, 59), FieldMeaning(f.hour, 0, 23), FieldMeaning(f.dom, 1, 31),
      FieldMeaning(f.month, 1, 12), SundayIsZero(FieldMeaning(f.dow, 0, 7)), IsStar(f.dom), IsStar(f.dow)))
  {
    hide PrintField, ReadField, FieldMeaning, SundayIsZero, IsStar, Words, PrintCron, Legal;
    WordsOfCron(f);
    assert ReadField(PrintField(f.minute), 0, 59) == Ok((FieldMeaning(f.minute, 0, 59), IsStar(f.minute))) by {
      FieldReadsBack(f.minute, 0, 59);
    }
    assert ReadField(PrintField(f.hour), 0, 23) == Ok((FieldMeaning(f.hour, 0, 23), IsStar(f.hour))) by {
      FieldReadsBack(f.hour, 0, 23);
    }
    assert ReadField(PrintField(f.dom), 1, 31) == Ok((FieldMeaning(f.dom, 1, 31), IsStar(f.dom))) by {
      FieldReadsBack(f.dom, 1, 31);
    }
    assert ReadField(PrintField(f.month), 1, 12) == Ok((FieldMeaning(f.month, 1, 12), IsStar(f.month))) by {
      FieldReadsBack(f.month, 1, 12);
    }
    assert ReadField(PrintField(f.dow), 0, 7) == Ok((FieldMeaning(f.dow, 0, 7), IsStar(f.dow))) by {
      FieldReadsBack(f.dow, 0, 7);
    }
  }

  // ------------------------------------------------------------ when a printed expression fires

  /** What one part says on its range, in plain words: a star, a number, a range, each with its step. */
  predicate PartSays(p: Part, low: int, high: int, v: int) {
    var step := if p.step.Some? then p.step.value else 1;
    && step >= 1
    && match p.body
       case Star => low <= v <= high && (v - low) % step == 0
       case Single(n) => v == n || (step > 1 && n <= v <= high && (v - n) % step == 0)
       case Range(from, to) => from <= v <= to && (v - from) % step == 0
  }

  ghost predicate Says(ps: seq<Part>, low: int, high: int, v: int) {
    exists p :: p in ps && PartSays(p, low, high, v)
  }

  lemma {:induction false} FieldSays(ps: seq<Part>, low: int, high: int, v: int)
    requires forall p :: p in ps ==> Legal(p, low, high)
    ensures v in FieldMeaning(ps, low, high) <==> Says(ps, low, high, v)
  {
    if ps != [] {
      var front, last := ps[..|ps| - 1], ps[|ps| - 1];
      assert ps == front + [last] && last in ps;
      FieldSays(front, low, high, v);
      PartMeans(last, low, high, v);
      hide PartSays, Legal;
      assert Says(ps, low, high, v) <==> Says(front, low, high, v) || PartSays(last, low, high, v) by {
        SaysSnoc(front, last, low, high, v);
      }
    }
  }

  lemma SaysSnoc(front: seq<Part>, last: Part, low: int, high: int, v: int)
    ensures Says(front + [last], low, high, v) <==> Says(front, low, high, v) || PartSays(last, low, high, v)
  {
    hide PartSays;
    assert last in front + [last];
  }

  lemma PartMeans(p: Part, low: int, high: int, v: int)
    requires Legal(p, low, high)
    ensures v in Covered(Meaning(p, low, high)) <==> PartSays(p, low, high, v)
  {
  }

  /** The day of the week, Sunday written as 0 or as 7. */
  ghost predicate SaysWeekday(ps: seq<Part>, weekday: int) {
    Says(ps, 0, 7, weekday) || (weekday == 0 && Says(ps, 0, 7, 7))
  }

  /**
   A printed expression fires at a time of a day exactly when its fields say
   so, with the days of the week counted from a known Sunday: a day field that
   is the bare star is no restriction, and of two restricted ones either is
   enough.
   */
  lemma PrintedFires(f: Fields, d: Date, n: int, hour: int, minute: int)
    requires LegalFields(f) && Valid(d) && DaysApart(SUNDAY, d, n) && 0 <= hour < 24 && 0 <= minute < 60
    ensures ReadCron(PrintCron(f)).Ok?
    ensures var anyDay, anyWeekday := f.dom == [Part(Star, None)], f.dow == [Part(Star, None)];
      Fires(ReadCron(PrintCron(f)).value, Minute(d, hour * 60 + minute)) <==>
      && Says(f.minute, 0, 59, minute) && Says(f.hour, 0, 23, hour) && Says(f.month, 1, 12, d.month)
      && (if anyDay then anyWeekday || SaysWeekday(f.dow, n % 7)
          else Says(f.dom, 1, 31, d.day) || (!anyWeekday && SaysWeekday(f.dow, n % 7)))
  {
    CronReadsBack(f);
    var c := ReadCron(PrintCron(f)).value;
    FiresMeaning(c, d, n, hour, minute);
    FieldSays(f.minute, 0, 59, minute);
    FieldSays(f.hour, 0, 23, hour);
    FieldSays(f.dom, 1, 31, d.day);
    FieldSays(f.month, 1, 12, d.month);
    WeekdaySays(f.dow, n % 7);
    hide ReadCron, PrintCron, Fires, FieldMeaning, Says, SaysWeekday, SundayIsZero, Legal, DaysApart;
  }

  lemma WeekdaySays(ps: seq<Part>, weekday: int)
    requires (forall p :: p in ps ==> Legal(p, 0, 7)) && 0 <= weekday < 7
    ensures weekday in SundayIsZero(FieldMeaning(ps, 0, 7)) <==> SaysWeekday(ps, weekday)
  {
    FieldSays(ps, 0, 7, weekday);
    FieldSays(ps, 0, 7, 7);
    hide FieldMeaning, Says, Legal;
  }
}
