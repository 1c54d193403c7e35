/** The operator scan: balanced groups, their fields, and the printer on the other side (modem.py, mock.py). */
module OperatorList {
  import opened Basics
  import opened Text
  import opened Csv

  datatype Operator = Operator(
    status: Option<int>, longName: string, shortName: string, numeric: string, accessTechnology: Option<int>)

  // ------------------------------------------------------------ groups

  /** current is the text since the opening bracket of depth one. */
  datatype Scan = Scan(current: Option<string>, depth: nat, quoted: bool, escaped: bool, groups: seq<string>)

  const NEW_SCAN := Scan(None, 0, false, false, [])

  function Grown(s: Scan, c: char): Scan {
    if s.current.Some? then s.(current := Some(s.current.value + [c])) else s
  }

  function OnScan(s: Scan, c: char): Scan {
    if s.escaped then Grown(s, c).(escaped := false)
    else if c == '\\' && s.quoted then Grown(s, c).(escaped := true)
    else if c == '"' then Grown(s, c).(quoted := !s.quoted)
    else if s.quoted then Grown(s, c)
    else if c == '(' then
      if s.depth == 0 then s.(current := Some(""), depth := 1) else Grown(s, c).(depth := s.depth + 1)
    else if c == ')' && s.depth > 0 then
      if s.depth == 1 && s.current.Some? then
        s.(depth := 0, groups := s.groups + [s.current.value], current := None)
      else Grown(s, c).(depth := s.depth - 1)
    else Grown(s, c)
  }

  function ScanText(s: Scan, text: string): Scan
    decreases |text|
  {
    if text == "" then s else ScanText(OnScan(s, text[0]), text[1..])
  }

  lemma {:induction false} ScanAppend(s: Scan, a: string, b: string)
    ensures ScanText(s, a + b) == ScanText(ScanText(s, a), b)
    decreases |a|
  {
    if a == "" {
      assert a + b == b;
    } else {
      assert (a + b)[1..] == a[1..] + b;
      ScanAppend(OnScan(s, a[0]), a[1..], b);
    }
  }

  /** _operator_groups: one pass over the characters, remembering where the open group starts. */
  method OperatorGroups(value: string) returns (groups: seq<string>)
    ensures groups == ScanText(NEW_SCAN, value).groups
  {
    groups := [];
    var start: Option<nat> := None;
    var depth := 0;
    var quoted, escaped := false, false;
    for index := 0 to |value|
      invariant depth >= 0 && (start.Some? <==> depth > 0) && (start.Some? ==> start.value <= index)
      invariant ScanText(NEW_SCAN, value[..index]) ==
        Scan(if start.Some? then Some(value[start.value..index]) else None, depth, quoted, escaped, groups)
    {
      var c := value[index];
      assert value[..index + 1] == value[..index] + [c];
      ScanAppend(NEW_SCAN, value[..index], [c]);
      assert [c][1..] == "" && value[index + 1..index + 1] == "";
      if start.Some? {
        assert value[start.value..index + 1] == value[start.value..index] + [c];
      }
      if escaped {
        escaped := false;
      } else if c == '\\' && quoted {
        escaped := true;
      } else if c == '"' {
        quoted := !quoted;
      } else if quoted {
      } else if c == '(' {
        if depth == 0 {
          start := Some(index + 1);
        }
        depth := depth + 1;
      } else if c == ')' && depth > 0 {
        depth := depth - 1;
        if depth == 0 && start.Some? {
          groups := groups + [value[start.value..index]];
          start := None;
        }
      }
    }
    assert value[..|value|] == value;
  }

  // ------------------------------------------------------------ entries

  /** re.fullmatch("[0-9]{5,6}", …). */
  predicate IsNumeric(s: string) {
    (|s| == 5 || |s| == 6) && forall c :: c in s ==> IsDigit(c)
  }

  /** The operator a group describes, if it describes one. */
  function ReadGroup(group: string): Option<Operator> {
    var fields := Fields(group);
    if |fields| < 4 || !IsNumeric(Strip(fields[3])) then None
    else
      Some(Operator(ParseInt(fields[0]), StripQuotes(Strip(fields[1])), StripQuotes(Strip(fields[2])), Strip(fields[3]),
                    if |fields| > 4 then ParseInt(fields[4]) else None))
  }

  function Numerics(ops: seq<Operator>): set<string> {
    set o | o in ops :: o.numeric
  }

  /** The operators of the groups, the first of each numeric. */
  function ReadGroups(groups: seq<string>): seq<Operator> {
    if groups == [] then []
    else
      var before, last := ReadGroups(groups[..|groups| - 1]), ReadGroup(groups[|groups| - 1]);
      if last.None? || last.value.numeric in Numerics(before) then before else before + [last.value]
  }

  /** parse_operator_scan. */
  method ParseOperatorScan(value: string) returns (operators: seq<Operator>)
    ensures operators == ReadGroups(ScanText(NEW_SCAN, value).groups)
  {
    hide ReadGroup;
    var groups := OperatorGroups(value);
    operators := [];
    var seen: set<string> := {};
    for i := 0 to |groups|
      invariant operators == ReadGroups(groups[..i]) && seen == Numerics(operators)
    {
      assert groups[..i + 1][..i] == groups[..i];
      var found := ReadGroup(groups[i]);
      if found.Some? && found.value.numeric !in seen {
        seen := seen + {found.value.numeric};
        operators := operators + [found.value];
      }
    }
    assert groups[..|groups|] == groups;
  }

  /** No numeric is listed twice, whatever the modem answered. */
  lemma {:induction false} EachNumericOnce(groups: seq<string>)
    ensures forall i, j :: 0 <= i < j < |ReadGroups(groups)| ==>
      ReadGroups(groups)[i].numeric != ReadGroups(groups)[j].numeric
    ensures forall i :: 0 <= i < |ReadGroups(groups)| ==> IsNumeric(ReadGroups(groups)[i].numeric)
  {
    if groups != [] {
      EachNumericOnce(groups[..|groups| - 1]);
      var before := ReadGroups(groups[..|groups| - 1]);
      forall i | 0 <= i < |before| ensures before[i].numeric in Numerics(before) {
        assert before[i] in before;
      }
    }
  }

  // ------------------------------------------------------------ the printer

  predicate Printable(o: Operator) {
    && o.status.Some? && o.accessTechnology.Some?
    && 5 <= |o.numeric| <= 6 && (forall c :: c in o.numeric ==> '0' <= c <= '9')
    && IsName(o.longName) && IsName(o.shortName)
  }

  /** Trimmed, and free of quotes, backslashes and line ends; commas and brackets are allowed. */
  predicate IsName(s: string) {
    Strip(s) == s && forall c :: c in s ==> c != '"' && c != '\\' && !IsNewline(c)
  }

  /** What stands between the brackets. */
  function Body(o: Operator): string
    requires Printable(o)
  {
    PrintInt(o.status.value) + "," + Quoted(o.longName) + "," + Quoted(o.shortName) + "," + Quoted(o.numeric) + ","
    + PrintInt(o.accessTechnology.value)
  }

  function Bodies(ops: seq<Operator>): (r: seq<string>)
    requires forall o :: o in ops ==> Printable(o)
    ensures |r| == |ops| && forall i :: 0 <= i < |ops| ==> r[i] == Body(ops[i])
  {
    seq(|ops|, i requires 0 <= i < |ops| => Body(ops[i]))
  }

  function Entry(o: Operator): string
    requires Printable(o)
  {
    "(" + Body(o) + ")"
  }

  /** The entries after "+COPS: ", joined with commas. */
  function PrintScan(ops: seq<Operator>): string
    requires forall o :: o in ops ==> Printable(o)
  {
    if ops == [] then ""
    else if |ops| == 1 then Entry(ops[0])
    else PrintScan(ops[..|ops| - 1]) + ("," + Entry(ops[|ops| - 1]))
  }

  // ------------------------------------------------------------ the round trip, character by character

  /** The open group grown by a text. */
  function Grow(s: Scan, text: string): Scan {
    if s.current.Some? then s.(current := Some(s.current.value + text)) else s
  }

  lemma GrowTwice(s: Scan, a: string, b: string)
    ensures Grow(Grow(s, a), b) == Grow(s, a + b)
    ensures Grow(s, "") == s
  {
    if s.current.Some? {
      assert s.current.value + a + b == s.current.value + (a + b);
      assert s.current.value + "" == s.current.value;
    }
  }

  /**
   Outside quotes, text without brackets and quotes passes through;
   inside quotes, text without quotes and backslashes.
   */
  lemma {:induction false} ScanPlain(s: Scan, text: string)
    requires !s.escaped
    requires forall c :: c in text ==> c != '"' && if s.quoted then c != '\\' else c != '(' && c != ')'
    ensures ScanText(s, text) == Grow(s, text)
    decreases |text|
  {
    GrowTwice(s, "", "");
    if text != "" {
      assert text[0] in text && forall c :: c in text[1..] ==> c in text;
      assert OnScan(s, text[0]) == Grow(s, [text[0]]);
      ScanPlain(Grow(s, [text[0]]), text[1..]);
      GrowTwice(s, [text[0]], text[1..]);
      assert [text[0]] + text[1..] == text;
    }
  }

  predicate Inside(s: Scan) {
    s.current.Some? && s.depth == 1 && !s.quoted && !s.escaped
  }

  lemma ScanOne(s: Scan, c: char)
    ensures ScanText(s, [c]) == OnScan(s, c)
  {
    assert [c][1..] == "";
    assert ScanText(OnScan(s, c), "") == OnScan(s, c);
  }

  lemma ScanQuoted(s: Scan, text: string)
    requires Inside(s) && '"' !in text && '\\' !in text
    ensures ScanText(s, Quoted(text)) == Grow(s, Quoted(text))
  {
    var open := Grow(s, "\"").(quoted := true);
    ScanOne(s, '"');
    ScanPlain(open, text);
    ScanOne(Grow(open, text), '"');
    GrowTwice(s, "\"", text);
    GrowTwice(s, "\"" + text, "\"");
    assert ScanText(Grow(open, text), "\"") == Grow(s, Quoted(text));
    hide ScanText, Grow;
    ScanAppend(s, "\"" + text, "\"");
    ScanAppend(s, "\"", text);
  }

  /** A part of a body that the scanner passes over, and grows the group by. */
  ghost predicate Passes(text: string) {
    forall s :: Inside(s) ==> ScanText(s, text) == Grow(s, text)
  }

  lemma PassesBoth(a: string, b: string)
    requires Passes(a) && Passes(b)
    ensures Passes(a + b)
  {
    forall s | Inside(s) ensures ScanText(s, a + b) == Grow(s, a + b) {
      assert Inside(Grow(s, a));
      hide ScanText, Grow;
      ScanAppend(s, a, b);
      GrowTwice(s, a, b);
    }
  }

  lemma PassesPlain(text: string)
    requires forall c :: c in text ==> c != '(' && c != ')' && c != '"'
    ensures Passes(text)
  {
    forall s | Inside(s) ensures ScanText(s, text) == Grow(s, text) {
      ScanPlain(s, text);
    }
  }

  lemma PassesQuoted(text: string)
    requires '"' !in text && '\\' !in text
    ensures Passes(Quoted(text))
  {
    forall s | Inside(s) ensures ScanText(s, Quoted(text)) == Grow(s, Quoted(text)) {
      ScanQuoted(s, text);
    }
  }

  lemma NumericText(s: string)
    requires IsNumeric(s)
    ensures '"' !in s && '\\' !in s && Strip(s) == s && IsName(s)
  {
    assert s[0] in s && s[|s| - 1] in s;
  }

  lemma BodyPasses(o: Operator)
    requires Printable(o)
    ensures Passes(Body(o))
  {
    hide ScanText, Passes, Body;
    var status, act := PrintInt(o.status.value), PrintInt(o.accessTechnology.value);
    PrintIntPlain(o.status.value);
    PrintIntPlain(o.accessTechnology.value);
    NumericText(o.numeric);
    PassesPlain(status);
    PassesPlain(",");
    PassesQuoted(o.longName);
    PassesQuoted(o.shortName);
    PassesQuoted(o.numeric);
    PassesPlain(act);
    BodyParts(o);
    PassesBoth(status, ",");
    PassesBoth(status + ",", Quoted(o.longName));
    PassesBoth(status + "," + Quoted(o.longName), ",");
    PassesBoth(status + "," + Quoted(o.longName) + ",", Quoted(o.shortName));
    PassesBoth(status + "," + Quoted(o.longName) + "," + Quoted(o.shortName), ",");
    PassesBoth(status + "," + Quoted(o.longName) + "," + Quoted(o.shortName) + ",", Quoted(o.numeric));
    PassesBoth(status + "," + Quoted(o.longName) + "," + Quoted(o.shortName) + "," + Quoted(o.numeric), ",");
    PassesBoth(status + "," + Quoted(o.longName) + "," + Quoted(o.shortName) + "," + Quoted(o.numeric) + ",", act);
  }

  lemma BodyParts(o: Operator)
    requires Printable(o)
    ensures Body(o) == PrintInt(o.status.value) + "," + Quoted(o.longName) + "," + Quoted(o.shortName) + "," +
      Quoted(o.numeric) + "," + PrintInt(o.accessTechnology.value)
  {
  }

  /** Scanning one entry from outside adds its body as a group. */
  lemma ScanEntry(s: Scan, o: Operator)
    requires Printable(o) && s.current.None? && s.depth == 0 && !s.quoted && !s.escaped
    ensures ScanText(s, Entry(o)) == s.(groups := s.groups + [Body(o)])
  {
    hide Body;
    var body := Body(o);
    var open := s.(current := Some(""), depth := 1);
    assert ("(" + body + ")")[1..] == body + ")";
    assert ScanText(s, "(" + body + ")") == ScanText(open, body + ")");
    ScanAppend(open, body, ")");
    BodyPasses(o);
    assert Inside(open) && "" + body == body;
    var inside := open.(current := Some(body));
    assert ScanText(open, body) == inside;
    assert ")"[1..] == "";
    assert ScanText(inside, ")") == ScanText(OnScan(inside, ')'), "");
  }

  lemma BodiesSnoc(front: seq<Operator>, last: Operator)
    requires (forall o :: o in front ==> Printable(o)) && Printable(last)
    ensures forall o :: o in front + [last] ==> Printable(o)
    ensures Bodies(front + [last]) == Bodies(front) + [Body(last)]
  {
  }

  lemma PrintSnoc(front: seq<Operator>, last: Operator)
    requires front != [] && (forall o :: o in front ==> Printable(o)) && Printable(last)
    ensures forall o :: o in front + [last] ==> Printable(o)
    ensures PrintScan(front + [last]) == PrintScan(front) + ("," + Entry(last))
  {
    hide Body, Entry, Printable;
    assert (front + [last])[..|front|] == front;
  }

  /** The groups of a printed scan are the bodies of its entries. */
  lemma {:induction false} ScanPrinted(ops: seq<Operator>)
    requires forall o :: o in ops ==> Printable(o)
    ensures ScanText(NEW_SCAN, PrintScan(ops)) == NEW_SCAN.(groups := Bodies(ops))
  {
    if ops == [] {
    } else if |ops| == 1 {
      hide Body, Printable;
      ScanEntry(NEW_SCAN, ops[0]);
      assert Bodies(ops) == NEW_SCAN.groups + [Body(ops[0])];
    } else {
      hide ScanText, PrintScan, Body, Bodies, Printable, Entry, OnScan;
      var front, last := ops[..|ops| - 1], ops[|ops| - 1];
      assert ops == front + [last];
      ScanPrinted(front);
      BodiesSnoc(front, last);
      PrintSnoc(front, last);
      var mid := NEW_SCAN.(groups := Bodies(front));
      ScanSeparated(mid, last);
      ScanAppend(NEW_SCAN, PrintScan(front), "," + Entry(last));
    }
  }

  lemma ScanSeparated(s: Scan, o: Operator)
    requires Printable(o) && s.current.None? && s.depth == 0 && !s.quoted && !s.escaped
    ensures ScanText(s, "," + Entry(o)) == s.(groups := s.groups + [Body(o)])
  {
    ScanOne(s, ',');
    ScanEntry(s, o);
    hide ScanText, Entry, Body, Printable;
    ScanAppend(s, ",", Entry(o));
  }

  // ------------------------------------------------------------ fields of a body

  lemma FieldsOfBody(o: Operator)
    requires Printable(o)
    ensures AtEnd(Read(NEW_READER, Body(o))) ==
      [PrintInt(o.status.value), o.longName, o.shortName, o.numeric, PrintInt(o.accessTechnology.value)]
  {
    hide Read, Strip, PrintInt;
    var status, act := PrintInt(o.status.value), PrintInt(o.accessTechnology.value);
    PrintIntPlain(o.status.value);
    PrintIntPlain(o.accessTechnology.value);
    NumericText(o.numeric);
    BodyParts(o);
    BodyFields(status, o.longName, o.shortName, o.numeric, act);
  }

  lemma BodyFields(status: string, long: string, short: string, numeric: string, act: string)
    requires IsPlain(status) && IsPlain(act) && Quotable(long) && Quotable(short) && Quotable(numeric)
    ensures AtEnd(Read(NEW_READER,
      status + "," + Quoted(long) + "," + Quoted(short) + "," + Quoted(numeric) + "," + act))
      == [status, long, short, numeric, act]
  {
    hide Read, Quoted;
    var p1, p2, p3 := Quoted(long) + ",", Quoted(short) + ",", Quoted(numeric) + ",";
    assert status + "," + Quoted(long) + "," + Quoted(short) + "," + Quoted(numeric) + "," + act
      == (status + ",") + (p1 + (p2 + (p3 + act)));
    var r1, r2 := Reader(StartField, "", [status]), Reader(StartField, "", [status, long]);
    var r3, r4 := Reader(StartField, "", [status, long, short]), Reader(StartField, "", [status, long, short, numeric]);
    assert Read(NEW_READER, status + ",") == r1 by {
      ReadAppend(NEW_READER, status, ",");
      ReadPlain(NEW_READER, status);
      ReadComma(NEW_READER.(mode := InField, field := status));
    }
    ReadAppend(NEW_READER, status + ",", p1 + (p2 + (p3 + act)));
    QuotedThenComma(r1, long);
    assert r1.fields + [long] == r2.fields;
    ReadAppend(r1, p1, p2 + (p3 + act));
    QuotedThenComma(r2, short);
    assert r2.fields + [short] == r3.fields;
    ReadAppend(r2, p2, p3 + act);
    QuotedThenComma(r3, numeric);
    assert r3.fields + [numeric] == r4.fields;
    ReadAppend(r3, p3, act);
    ReadPlain(r4, act);
    assert r4.fields + [act] == [status, long, short, numeric, act];
  }

  lemma GroupReadsBack(o: Operator)
    requires Printable(o)
    ensures ReadGroup(Body(o)) == Some(o)
  {
    FieldsOfBody(o);
    PrintIntPlain(o.status.value);
    PrintIntPlain(o.accessTechnology.value);
    IntReadsBack(o.status.value);
    IntReadsBack(o.accessTechnology.value);
    NumericText(o.numeric);
    var fields := [PrintInt(o.status.value), o.longName, o.shortName, o.numeric, PrintInt(o.accessTechnology.value)];
    assert StripAll(fields) == fields;
    NoQuotesToStrip(o.longName);
    NoQuotesToStrip(o.shortName);
  }

  lemma {:induction false} GroupsReadBack(ops: seq<Operator>)
    requires forall o :: o in ops ==> Printable(o)
    requires forall i, j :: 0 <= i < j < |ops| ==> ops[i].numeric != ops[j].numeric
    ensures ReadGroups(Bodies(ops)) == ops
  {
    hide ReadGroup, Body, Printable, Bodies;
    if ops != [] {
      var front, last := ops[..|ops| - 1], ops[|ops| - 1];
      assert ops == front + [last];
      GroupsReadBack(front);
      BodiesSnoc(front, last);
      GroupReadsBack(last);
      assert last.numeric !in Numerics(front);
      var bodies := Bodies(front) + [Body(last)];
      assert bodies[..|bodies| - 1] == Bodies(front);
    }
  }

  /** Parsing a printed operator list gives the list back, in order. */
  lemma ScanReadsBack(ops: seq<Operator>)
    requires forall o :: o in ops ==> Printable(o)
    requires forall i, j :: 0 <= i < j < |ops| ==> ops[i].numeric != ops[j].numeric
    ensures ReadGroups(ScanText(NEW_SCAN, PrintScan(ops)).groups) == ops
  {
    ScanPrinted(ops);
    GroupsReadBack(ops);
  }
}
