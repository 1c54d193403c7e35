/** Which upgrade responses and which frames the self check takes, in terms of what a server may send. */
module WebSocketHead {
  import opened Basics
  import opened Text
  import opened WebSocketReader

  // ------------------------------------------------------------ frames

  /** The bytes are a final, unmasked frame without reserved bits under a header of k bytes, and then the rest. */
  ghost predicate Framed(all: seq<Byte>, f: Frame, rest: seq<Byte>, k: nat) {
    && f.opcode < 16 && |f.payload| <= MAX_FRAME && 2 <= k <= |all|
    && all[0] == 128 + f.opcode && all[k..] == f.payload + rest
    && (|| (k == 2 && all[1] == |f.payload| < 126)
        || (k == 4 && all[1] == 126 && (all[2] as int) * 256 + (all[3] as int) == |f.payload|)
        || (k == 10 && all[1] == 127 && Number(all[2..10]) == |f.payload|))
  }

  /** Exactly such bytes are read as that frame. */
  lemma FrameIff(all: seq<Byte>, f: Frame, rest: seq<Byte>)
    ensures ParseFrame(all) == Ok((f, rest)) <==> exists k: nat :: Framed(all, f, rest, k)
  {
    hide Framed, ParseFrame;
    if ParseFrame(all) == Ok((f, rest)) {
      ReadIsFramed(all, f, rest);
    }
    if k: nat :| Framed(all, f, rest, k) {
      FramedIsRead(all, f, rest, k);
    }
  }

  lemma ReadIsFramed(all: seq<Byte>, f: Frame, rest: seq<Byte>)
    requires ParseFrame(all) == Ok((f, rest))
    ensures Framed(all, f, rest, 2 + Extension(all[1]))
  {
    hide Number;
    ExtendedTwo(all);
    assert all[2 + Extension(all[1])..] == f.payload + rest;
  }

  lemma FramedIsRead(all: seq<Byte>, f: Frame, rest: seq<Byte>, k: nat)
    requires Framed(all, f, rest, k)
    ensures ParseFrame(all) == Ok((f, rest))
  {
    hide Number;
    ExtendedTwo(all);
    Slices(all, k, f.payload, rest);
    assert k == 2 + Extension(all[1]);
  }

  lemma Slices(all: seq<Byte>, k: nat, payload: seq<Byte>, rest: seq<Byte>)
    requires k <= |all| && all[k..] == payload + rest
    ensures k + |payload| <= |all| && all[k..k + |payload|] == payload && all[k + |payload|..] == rest
  {
    assert all[k..k + |payload|] == all[k..][..|payload|];
    assert all[k + |payload|..] == all[k..][|payload|..];
  }

  lemma ExtendedTwo(all: seq<Byte>)
    ensures |all| >= 4 ==> Number(all[2..4]) == (all[2] as int) * 256 + (all[3] as int)
  {
    if |all| >= 4 {
      assert all[2..4] == [all[2], all[3]];
      NumberOfTwo(all[2], all[3]);
    }
  }

  /**
   What the first two bytes refuse, by their bits: any reserved bit, then a
   missing final bit, then the mask bit. After that only the length is left.
   */
  lemma FrameRefused(final: bool, reserved: nat, opcode: nat, masked: bool, length: nat, more: seq<Byte>)
    requires reserved < 8 && opcode < 16 && length < 128
    ensures var first := (if final then 128 else 0) + reserved * 16 + opcode;
      var r := ParseFrame([first, (if masked then 128 else 0) + length] + more);
      if reserved != 0 then r == Err(Reserved)
      else if !final then r == Err(Fragmented)
      else if masked then r == Err(Masked)
      else r.Ok? || r == Err(FrameTooLarge) || r == Err(ClosedInFrame)
  {
    var first := (if final then 128 else 0) + reserved * 16 + opcode;
    assert first / 16 == (if final then 8 else 0) + reserved;
    assert first / 16 % 8 == reserved;
    assert (first < 128) == !final;
    hide Number;
  }

  /** Behind a response that switches, only a text frame is read; a close frame and any other are refused. */
  lemma OnlyTextIsRead(stream: seq<Byte>, u: Upgrade, f: Frame, rest: seq<Byte>, accept: string)
    requires ParseUpgrade(stream) == Ok(u) && NoSwitch(u.status, u.headers, accept) == None
    requires ParseFrame(u.remainder) == Ok((f, rest))
    ensures ParseReply(stream, accept) ==
      if f.opcode == 1 then Ok((f.payload, rest))
      else if f.opcode == 8 then Err(ClosedByServer(f.payload))
      else Err(WrongOpcode(f.opcode))
  {
    hide ParseUpgrade, NoSwitch, ParseFrame;
  }

  // ------------------------------------------------------------ the response, printed

  datatype Header = Header(name: string, value: string)

  predicate Clean(s: string) {
    forall c :: c in s ==> c != '\r' && (c as int) < 256
  }

  predicate Sendable(h: Header) {
    Clean(h.name) && Clean(h.value) && ':' !in h.name && Strip(h.name) == h.name && Strip(h.value) == h.value
  }

  function Line(h: Header): string {
    h.name + ([':'] + (" " + h.value))
  }

  function Lines(hs: seq<Header>): (r: seq<string>)
    ensures |r| == |hs| && forall i :: 0 <= i < |hs| ==> r[i] == Line(hs[i])
  {
    seq(|hs|, i requires 0 <= i < |hs| => Line(hs[i]))
  }

  function StatusLine(status: nat, reason: string): string {
    "HTTP/1.1" + ([' '] + (PrintNat(status) + ([' '] + reason)))
  }

  function JoinLines(lines: seq<string>): string
    requires |lines| >= 1
  {
    if |lines| == 1 then lines[0] else lines[0] + (['\r'] + ("\n" + JoinLines(lines[1..])))
  }

  function PrintHead(status: nat, reason: string, hs: seq<Header>): string {
    JoinLines([StatusLine(status, reason)] + Lines(hs))
  }

  function Bytes(s: string): (r: seq<Byte>)
    requires forall c :: c in s ==> (c as int) < 256
    ensures |r| == |s| && forall i :: 0 <= i < |s| ==> r[i] == s[i] as int
  {
    if s == "" then []
    else
      assert s[0] in s && forall c :: c in s[1..] ==> c in s;
      [s[0] as int] + Bytes(s[1..])
  }

  // ------------------------------------------------------------ and read back

  lemma {:induction false} SplitJoined(lines: seq<string>)
    requires |lines| >= 1 && forall l :: l in lines ==> '\r' !in l
    ensures SplitLines(JoinLines(lines)) == lines
  {
    hide SplitLines, JoinLines;
    assert lines == [lines[0]] + lines[1..];
    if |lines| == 1 {
      SplitOne(lines);
    } else {
      SplitJoined(lines[1..]);
      SplitFirst(lines[0], JoinLines(lines[1..]));
      JoinTwo(lines);
    }
  }

  lemma SplitOne(lines: seq<string>)
    requires |lines| == 1 && '\r' !in lines[0]
    ensures SplitLines(JoinLines(lines)) == lines
  {
    hide IndexOf;
    IndexAfter(lines[0], '\r', "");
  }

  lemma JoinTwo(lines: seq<string>)
    requires |lines| > 1
    ensures JoinLines(lines) == lines[0] + (['\r'] + ("\n" + JoinLines(lines[1..])))
  {
  }

  lemma SplitFirst(first: string, rest: string)
    requires '\r' !in first
    ensures SplitLines(first + (['\r'] + ("\n" + rest))) == [first] + SplitLines(rest)
  {
    hide IndexOf;
    IndexAfter(first, '\r', "\n" + rest);
    var s := first + (['\r'] + ("\n" + rest));
    assert s == first + ['\r'] + ("\n" + rest);
    assert s[..|first|] == first && s[|first| + 1] == '\n' && s[|first| + 2..] == rest;
  }

  lemma {:induction false} JoinedClean(lines: seq<string>)
    requires |lines| >= 1 && forall l :: l in lines ==> Clean(l)
    ensures forall c :: c in JoinLines(lines) ==> (c as int) < 256
  {
    assert lines[0] in lines;
    if |lines| > 1 {
      JoinedClean(lines[1..]);
    }
  }

  lemma StatusReadsBack(status: nat, reason: string)
    ensures StatusOf(StatusLine(status, reason)) == Some(status)
  {
    hide IndexOf, PrintNat, Strip;
    var digits := PrintNat(status);
    var line, rest := StatusLine(status, reason), digits + ([' '] + reason);
    IndexAfter("HTTP/1.1", ' ', rest);
    assert line == "HTTP/1.1" + [' '] + rest && line[9..] == rest;
    assert ' ' !in digits && rest == digits + [' '] + reason;
    IndexAfter(digits, ' ', reason);
    assert rest[..|digits|] == digits;
    DigitsStripped(digits);
    ParseIntPrinted(status);
  }

  lemma DigitsStripped(digits: string)
    requires digits != "" && forall c :: c in digits ==> IsDigit(c)
    ensures Strip(digits) == digits
  {
    assert digits[0] in digits && digits[|digits| - 1] in digits;
  }

  lemma HeaderReadsBack(h: Header)
    requires Sendable(h)
    ensures var i := IndexOf(Line(h), ':');
      i < |Line(h)| && Strip(Line(h)[..i]) == h.name && Strip(Line(h)[i + 1..]) == h.value
  {
    hide IndexOf;
    var value := " " + h.value;
    IndexAfter(h.name, ':', value);
    assert Line(h) == h.name + [':'] + value;
    assert Line(h)[..|h.name|] == h.name && Line(h)[|h.name| + 1..] == value;
    assert value[1..] == h.value;
  }

  /** The map the headers make: names without regard to case, the last of one name. */
  function Made(hs: seq<Header>): map<string, string> {
    if hs == [] then map[]
    else
      var last := hs[|hs| - 1];
      Made(hs[..|hs| - 1])[Lower(last.name) := last.value]
  }

  lemma {:induction false} HeadersReadBack(hs: seq<Header>)
    requires forall h :: h in hs ==> Sendable(h)
    ensures Headers(Lines(hs)) == Ok(Made(hs))
  {
    if hs != [] {
      hide Line, Headers, Lower, Sendable;
      var n := |hs| - 1;
      assert hs[n] in hs && Lines(hs) == Lines(hs[..n]) + [Line(hs[n])];
      HeadersReadBack(hs[..n]);
      HeadersSnoc(Lines(hs[..n]), hs[n]);
    }
  }

  lemma HeadersSnoc(lines: seq<string>, h: Header)
    requires Sendable(h) && Headers(lines).Ok?
    ensures Headers(lines + [Line(h)]) == Ok(Headers(lines).value[Lower(h.name) := h.value])
  {
    hide Line, IndexOf, Strip, Lower, Sendable;
    assert (lines + [Line(h)])[..|lines|] == lines;
    HeaderReadsBack(h);
  }

  lemma LinesClean(status: nat, reason: string, hs: seq<Header>)
    requires Clean(reason) && forall h :: h in hs ==> Sendable(h)
    ensures forall l :: l in [StatusLine(status, reason)] + Lines(hs) ==> Clean(l)
  {
    hide PrintNat, Strip;
    assert forall c :: c in PrintNat(status) ==> IsDigit(c);
    assert Clean(StatusLine(status, reason));
    forall l | l in Lines(hs) ensures Clean(l) {
      var i :| 0 <= i < |hs| && Lines(hs)[i] == l;
      assert hs[i] in hs;
    }
  }

  /** A printed response is read as its status and its headers. */
  lemma HeadReadsBack(status: nat, reason: string, hs: seq<Header>)
    requires Clean(reason) && forall h :: h in hs ==> Sendable(h)
    ensures forall c :: c in PrintHead(status, reason, hs) ==> (c as int) < 256
    ensures ParseHead(Bytes(PrintHead(status, reason, hs))) == Ok((status, Made(hs)))
  {
    hide StatusOf, Headers, SplitLines, StatusLine, Made, JoinLines, Sendable;
    var lines := [StatusLine(status, reason)] + Lines(hs);
    LinesClean(status, reason, hs);
    JoinedClean(lines);
    SplitJoined(lines);
    StatusReadsBack(status, reason);
    HeadersReadBack(hs);
    assert lines[1..] == Lines(hs);
    Latin1Bytes(JoinLines(lines));
  }

  lemma Latin1Bytes(s: string)
    requires forall c :: c in s ==> (c as int) < 256
    ensures Latin1(Bytes(s)) == s
  {
    hide Bytes;
    forall i | 0 <= i < |s| ensures Bytes(s)[i] as char == s[i] {
      assert s[i] in s;
    }
  }

  // ------------------------------------------------------------ which responses switch

  /** The same letters, in either case. */
  predicate SameLetters(s: string, lower: string) {
    && |s| == |lower|
    && forall k :: 0 <= k < |s| ==>
         s[k] == lower[k] || ('a' <= lower[k] <= 'z' && (s[k] as int) + 32 == lower[k] as int)
  }

  lemma LowerIs(s: string, lower: string)
    requires forall c :: c in lower ==> 'a' <= c <= 'z' || c == '-'
    ensures Lower(s) == lower <==> SameLetters(s, lower)
  {
    if |s| == |lower| {
      forall k | 0 <= k < |s|
        ensures LowerChar(s[k]) == lower[k] <==>
          s[k] == lower[k] || ('a' <= lower[k] <= 'z' && (s[k] as int) + 32 == lower[k] as int)
      {
        assert lower[k] in lower;
      }
      if Lower(s) == lower {
        assert forall k :: 0 <= k < |s| ==> Lower(s)[k] == lower[k];
      }
    }
  }

  ghost predicate DistinctNames(hs: seq<Header>) {
    forall i, j :: 0 <= i < j < |hs| ==> Lower(hs[i].name) != Lower(hs[j].name)
  }

  /** The response carries the header with the value. */
  ghost predicate Carries(hs: seq<Header>, name: string, value: string) {
    exists h :: h in hs && SameLetters(h.name, name) && h.value == value
  }

  lemma {:induction false} MadeOf(hs: seq<Header>, name: string)
    requires DistinctNames(hs)
    ensures name in Made(hs) ==> exists h :: h in hs && Lower(h.name) == name && h.value == Made(hs)[name]
    ensures forall h :: h in hs && Lower(h.name) == name ==> name in Made(hs) && Made(hs)[name] == h.value
  {
    if hs != [] {
      hide Lower;
      var n := |hs| - 1;
      MadeOf(hs[..n], name);
      assert hs[n] in hs && forall h :: h in hs <==> h in hs[..n] || h == hs[n];
      forall h | h in hs[..n] ensures Lower(h.name) != Lower(hs[n].name) {
        var i :| 0 <= i < n && hs[i] == h;
      }
    }
  }

  lemma CarriesIff(hs: seq<Header>, name: string, value: string)
    requires DistinctNames(hs) && forall c :: c in name ==> 'a' <= c <= 'z' || c == '-'
    ensures Carries(hs, name, value) <==> name in Made(hs) && Made(hs)[name] == value
  {
    MadeOf(hs, name);
    hide Made, Lower, SameLetters, DistinctNames;
    forall h | h in hs ensures Lower(h.name) == name <==> SameLetters(h.name, name) {
      LowerIs(h.name, name);
    }
  }

  /** Some item of the comma-separated list is the token. */
  ghost predicate Lists(value: string, token: string) {
    exists part :: part in Split(value, ',') && SameLetters(Strip(part), token)
  }

  /**
   A printed response switches protocols exactly when its status is 101, it
   upgrades to websocket, its connection header lists the upgrade, and it
   carries the accept value asked for; names and tokens in either case.
   */
  lemma SwitchesIff(status: nat, hs: seq<Header>, accept: string)
    requires DistinctNames(hs)
    ensures NoSwitch(status, Made(hs), accept) == None <==>
      && status == 101
      && (exists v :: Carries(hs, "upgrade", v) && SameLetters(v, "websocket"))
      && (exists v :: Carries(hs, "connection", v) && Lists(v, "upgrade"))
      && Carries(hs, "sec-websocket-accept", accept)
  {
    hide Carries, Lists, SameLetters, Made, Lower, Split, Strip, Get, DistinctNames;
    UpgradesIff(hs);
    ConnectionIff(hs);
    CarriesIff(hs, "sec-websocket-accept", accept);
  }

  lemma UpgradesIff(hs: seq<Header>)
    requires DistinctNames(hs)
    ensures (exists v :: Carries(hs, "upgrade", v) && SameLetters(v, "websocket"))
      <==> Lower(Get(Made(hs), "upgrade")) == "websocket"
  {
    hide Carries, SameLetters, Made, Lower, DistinctNames;
    var upgrade := Get(Made(hs), "upgrade");
    LowerIs(upgrade, "websocket");
    NothingSaid();
    CarriesIff(hs, "upgrade", upgrade);
    if v :| Carries(hs, "upgrade", v) && SameLetters(v, "websocket") {
      CarriesIff(hs, "upgrade", v);
    }
  }

  lemma ConnectionIff(hs: seq<Header>)
    requires DistinctNames(hs)
    ensures (exists v :: Carries(hs, "connection", v) && Lists(v, "upgrade"))
      <==> exists part :: part in Split(Get(Made(hs), "connection"), ',') && Lower(Strip(part)) == "upgrade"
  {
    hide Carries, Lists, Made, Lower, Split, Strip, DistinctNames;
    var connection := Get(Made(hs), "connection");
    ListsIff(connection);
    NothingSaid();
    CarriesIff(hs, "connection", connection);
    if v :| Carries(hs, "connection", v) && Lists(v, "upgrade") {
      CarriesIff(hs, "connection", v);
    }
  }

  lemma ListsIff(value: string)
    ensures Lists(value, "upgrade") <==> exists part :: part in Split(value, ',') && Lower(Strip(part)) == "upgrade"
  {
    hide Split, Strip, Lower, SameLetters;
    if part :| part in Split(value, ',') && SameLetters(Strip(part), "upgrade") {
      LowerIs(Strip(part), "upgrade");
      assert Lower(Strip(part)) == "upgrade";
    }
    if part :| part in Split(value, ',') && Lower(Strip(part)) == "upgrade" {
      LowerIs(Strip(part), "upgrade");
      assert SameLetters(Strip(part), "upgrade");
    }
  }

  lemma NothingSaid()
    ensures !SameLetters("", "websocket") && !Lists("", "upgrade")
  {
    assert Split("", ',') == [""];
  }
}
