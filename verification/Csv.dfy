/**
 One record of comma-separated text as the csv reader takes it
 (modem.py _csv_fields), spaces after a comma skipped.
 */
module Csv {
  import opened Text

  datatype Mode = StartRecord | StartField | InField | InQuoted | QuoteInQuoted | AfterNewline | Broken

  datatype Reader = Reader(mode: Mode, field: string, fields: seq<string>)

  predicate IsNewline(c: char) {
    c == '\n' || c == '\r'
  }

  function Save(r: Reader, mode: Mode): Reader {
    Reader(mode, "", r.fields + [r.field])
  }

  /** A character at the start of a field. */
  function OnStart(r: Reader, c: char): Reader {
    if IsNewline(c) then Save(r, AfterNewline)
    else if c == '"' then r.(mode := InQuoted)
    else if c == ' ' then r.(mode := StartField)
    else if c == ',' then Save(r, StartField)
    else r.(mode := InField, field := r.field + [c])
  }

  function OnChar(r: Reader, c: char): Reader {
    match r.mode
    case StartRecord => if IsNewline(c) then r.(mode := AfterNewline) else OnStart(r, c)
    case StartField => OnStart(r, c)
    case InField =>
      if IsNewline(c) then Save(r, AfterNewline)
      else if c == ',' then Save(r, StartField)
      else r.(field := r.field + [c])
    case InQuoted => if c == '"' then r.(mode := QuoteInQuoted) else r.(field := r.field + [c])
    case QuoteInQuoted =>
      if c == '"' then r.(mode := InQuoted, field := r.field + [c])
      else if c == ',' then Save(r, StartField)
      else if IsNewline(c) then Save(r, AfterNewline)
      else r.(mode := InField, field := r.field + [c])
    case AfterNewline => if IsNewline(c) then r else r.(mode := Broken)
    case Broken => r
  }

  function Read(r: Reader, s: string): Reader
    decreases |s|
  {
    if s == "" then r else Read(OnChar(r, s[0]), s[1..])
  }

  function AtEnd(r: Reader): seq<string> {
    match r.mode
    case StartRecord => []
    case AfterNewline => r.fields
    case Broken => []
    case _ => r.fields + [r.field]
  }

  function StripAll(fields: seq<string>): (r: seq<string>)
    ensures |r| == |fields| && forall i :: 0 <= i < |fields| ==> r[i] == Strip(fields[i])
  {
    seq(|fields|, i requires 0 <= i < |fields| => Strip(fields[i]))
  }

  const NEW_READER := Reader(StartRecord, "", [])

  function Fields(s: string): seq<string> {
    StripAll(AtEnd(Read(NEW_READER, s)))
  }

  // ------------------------------------------------------------ reading what was printed

  lemma {:induction false} ReadAppend(r: Reader, a: string, b: string)
    ensures Read(r, a + b) == Read(Read(r, a), b)
    decreases |a|
  {
    if a == "" {
      assert a + b == b;
    } else {
      assert (a + b)[1..] == a[1..] + b;
      ReadAppend(OnChar(r, a[0]), a[1..], b);
    }
  }

  /** Text without separators is a field. */
  predicate IsPlain(s: string) {
    s != "" && forall c :: c in s ==> c != ',' && c != '"' && c != ' ' && !IsNewline(c)
  }

  predicate Quotable(s: string) {
    '"' !in s
  }

  lemma {:induction false} ReadInside(r: Reader, s: string)
    requires r.mode == InField || r.mode == InQuoted
    requires if r.mode == InField then forall c :: c in s ==> c != ',' && !IsNewline(c) else '"' !in s
    ensures Read(r, s) == r.(field := r.field + s)
    decreases |s|
  {
    if s == "" {
      assert r.field + s == r.field;
    } else {
      var next := OnChar(r, s[0]);
      assert s[0] in s && next == r.(field := r.field + [s[0]]);
      assert forall c :: c in s[1..] ==> c in s;
      ReadInside(next, s[1..]);
      assert r.field + [s[0]] + s[1..] == r.field + s;
    }
  }

  predicate AtStart(r: Reader) {
    (r.mode == StartRecord || r.mode == StartField) && r.field == ""
  }

  lemma ReadPlain(r: Reader, s: string)
    requires AtStart(r) && IsPlain(s)
    ensures Read(r, s) == r.(mode := InField, field := s)
  {
    assert s[0] in s;
    var next := OnChar(r, s[0]);
    assert next == r.(mode := InField, field := [s[0]]);
    assert forall c :: c in s[1..] ==> c in s;
    ReadInside(next, s[1..]);
    assert [s[0]] + s[1..] == s;
  }

  lemma ReadQuoted(r: Reader, s: string)
    requires AtStart(r) && Quotable(s)
    ensures Read(r, "\"" + s + "\"") == r.(mode := QuoteInQuoted, field := s)
  {
    var open := r.(mode := InQuoted);
    assert ("\"" + s + "\"")[1..] == s + "\"";
    assert Read(r, "\"" + s + "\"") == Read(open, s + "\"");
    ReadAppend(open, s, "\"");
    ReadInside(open, s);
    assert open.field + s == s;
    var inside := open.(field := s);
    assert "\""[1..] == "";
    assert Read(inside, "\"") == Read(OnChar(inside, '"'), "");
  }

  /** A field that has been read is saved by the comma. */
  lemma ReadComma(r: Reader)
    requires r.mode == InField || r.mode == QuoteInQuoted
    ensures Read(r, ",") == Save(r, StartField)
  {
    assert ","[1..] == "";
    assert Read(r, ",") == Read(OnChar(r, ','), "");
  }

  function Quoted(s: string): string {
    "\"" + s + "\""
  }

  lemma QuotedThenComma(r: Reader, s: string)
    requires AtStart(r) && Quotable(s)
    ensures Read(r, Quoted(s) + ",") == Reader(StartField, "", r.fields + [s])
  {
    ReadAppend(r, Quoted(s), ",");
    ReadQuoted(r, s);
    ReadComma(r.(mode := QuoteInQuoted, field := s));
  }

  lemma PrintIntPlain(n: int)
    ensures forall c :: c in PrintInt(n) ==> IsDigit(c) || c == '-'
    ensures PrintInt(n) != "" && IsPlain(PrintInt(n)) && Strip(PrintInt(n)) == PrintInt(n)
  {
    var s := PrintInt(n);
    assert s[0] in s && s[|s| - 1] in s;
  }
}
