/** What the data switch makes of printed +CGDCONT and +CGACT lines: which contexts it closes and which it keeps. */
module DataLines {
  import opened Basics
  import opened Text
  import opened Csv
  import opened DataSwitch

  // ------------------------------------------------------------ which APN is the IMS one

  /** The letters i, m, s, in either case, stand at this place, and all else is white space. */
  predicate SaysIms(apn: string, i: nat) {
    && i + 3 <= |apn|
    && (apn[i] == 'i' || apn[i] == 'I') && (apn[i + 1] == 'm' || apn[i + 1] == 'M')
    && (apn[i + 2] == 's' || apn[i + 2] == 'S')
    && forall k :: 0 <= k < |apn| && !(i <= k < i + 3) ==> IsSpace(apn[k])
  }

  ghost predicate ImsText(apn: string) {
    exists i: nat :: SaysIms(apn, i)
  }

  /** Stripping leaves a stretch of the text, with white space on both sides of it and none at its ends. */
  lemma {:induction false} StripStretch(s: string) returns (i: nat)
    ensures i + |Strip(s)| <= |s| && Strip(s) == s[i..i + |Strip(s)|]
    ensures forall k :: 0 <= k < |s| && !(i <= k < i + |Strip(s)|) ==> IsSpace(s[k])
    ensures Strip(s) != "" ==> !IsSpace(Strip(s)[0]) && !IsSpace(Strip(s)[|Strip(s)| - 1])
    decreases |s|
  {
    hide IsSpace;
    if s == "" {
      i := 0;
    } else if IsSpace(s[0]) {
      var j := StripStretch(s[1..]);
      i := j + 1;
      assert forall k :: 0 < k < |s| ==> s[k] == s[1..][k - 1];
      assert s[1..][j..j + |Strip(s)|] == s[i..i + |Strip(s)|];
    } else if IsSpace(s[|s| - 1]) {
      i := StripStretch(s[..|s| - 1]);
    } else {
      i := 0;
    }
  }

  /** Only that stretch can be left. */
  lemma {:induction false} StripCore(s: string, i: nat, n: nat)
    requires 0 < n && i + n <= |s| && !IsSpace(s[i]) && !IsSpace(s[i + n - 1])
    requires forall k :: 0 <= k < |s| && !(i <= k < i + n) ==> IsSpace(s[k])
    ensures Strip(s) == s[i..i + n]
    decreases |s|
  {
    if i > 0 {
      assert IsSpace(s[0]);
      assert s[1..][i - 1..i - 1 + n] == s[i..i + n];
      StripCore(s[1..], i - 1, n);
    } else if n < |s| {
      assert IsSpace(s[|s| - 1]);
      assert s[..|s| - 1][i..i + n] == s[i..i + n];
      StripCore(s[..|s| - 1], i, n);
    } else {
      assert s[i..i + n] == s;
    }
  }

  lemma LettersOfIms(t: string)
    ensures Lower(t) == "ims" <==>
      && |t| == 3 && (t[0] == 'i' || t[0] == 'I') && (t[1] == 'm' || t[1] == 'M') && (t[2] == 's' || t[2] == 'S')
  {
    if |t| == 3 {
      assert Lower(t) == [LowerChar(t[0]), LowerChar(t[1]), LowerChar(t[2])];
    }
  }

  /** The IMS context is the one whose APN is the letters i, m, s in either case between white space. */
  lemma ImsByCharacters(c: Context)
    ensures IsIms(c) <==> c.apn.Some? && ImsText(c.apn.value)
  {
    if c.apn.Some? {
      var s := c.apn.value;
      LettersOfIms(Strip(s));
      if IsIms(c) {
        var i := StripStretch(s);
        assert SaysIms(s, i);
      }
      if i: nat :| SaysIms(s, i) {
        StripCore(s, i, 3);
      }
    }
  }

  /** Stripping does not change which it is. */
  lemma ImsStripped(s: string)
    ensures ImsText(Strip(s)) <==> ImsText(s)
  {
    ImsByCharacters(Context(0, true, Some(s)));
    ImsByCharacters(Context(0, true, Some(Strip(s))));
    StripTwice(s);
  }

  lemma StripTwice(s: string)
    ensures Strip(Strip(s)) == Strip(s)
    ensures forall c :: c in Strip(s) ==> c in s
  {
    var i := StripStretch(s);
  }

  // ------------------------------------------------------------ the lines

  /** One context's definition; more is what the module adds after the APN. */
  datatype Definition = Definition(cid: int, kind: string, apn: string, more: string)

  datatype Activation = Activation(cid: int, state: int)

  predicate Sendable(d: Definition) {
    && Quotable(d.kind) && Quotable(d.apn) && (d.more == "" || d.more[0] == ',')
    && forall c :: c in d.more ==> !IsNewline(c)
  }

  function DefinitionLine(d: Definition): string {
    PrintInt(d.cid) + "," + ((Quoted(d.kind) + ",") + (Quoted(d.apn) + d.more))
  }

  function ActivationLine(a: Activation): string {
    PrintInt(a.cid) + "," + PrintInt(a.state)
  }

  function DefinitionLines(ds: seq<Definition>): (r: seq<string>)
    ensures |r| == |ds| && forall i :: 0 <= i < |ds| ==> r[i] == DefinitionLine(ds[i])
  {
    seq(|ds|, i requires 0 <= i < |ds| => DefinitionLine(ds[i]))
  }

  function ActivationLines(acts: seq<Activation>): (r: seq<string>)
    ensures |r| == |acts| && forall i :: 0 <= i < |acts| ==> r[i] == ActivationLine(acts[i])
  {
    seq(|acts|, i requires 0 <= i < |acts| => ActivationLine(acts[i]))
  }

  // ------------------------------------------------------------ their fields

  /** Text without line ends adds fields and takes none away. */
  lemma {:induction false} ReadKeepsFields(r: Reader, s: string)
    requires r.mode !in {StartRecord, AfterNewline, Broken} && forall c :: c in s ==> !IsNewline(c)
    ensures r.fields <= Read(r, s).fields && Read(r, s).mode !in {StartRecord, AfterNewline, Broken}
    decreases |s|
  {
    if s != "" {
      assert s[0] in s && forall c :: c in s[1..] ==> c in s;
      ReadKeepsFields(OnChar(r, s[0]), s[1..]);
    }
  }

  lemma FirstField(text: string)
    requires IsPlain(text)
    ensures Read(NEW_READER, text + ",") == Reader(StartField, "", [text])
  {
    ReadAppend(NEW_READER, text, ",");
    ReadPlain(NEW_READER, text);
    ReadComma(NEW_READER.(mode := InField, field := text));
  }

  lemma LastQuoted(r: Reader, apn: string, more: string)
    requires AtStart(r) && r.mode == StartField && Quotable(apn) && (more == "" || more[0] == ',')
    requires forall c :: c in more ==> !IsNewline(c)
    ensures r.fields + [apn] <= AtEnd(Read(r, Quoted(apn) + more))
  {
    hide Read;
    ReadAppend(r, Quoted(apn), more);
    ReadQuoted(r, apn);
    var inside := r.(mode := QuoteInQuoted, field := apn);
    if more == "" {
      ReadNothing(inside);
    } else {
      var rest := more[1..];
      assert more == "," + rest && forall c :: c in rest ==> c in more;
      ReadAppend(inside, ",", rest);
      ReadComma(inside);
      ReadKeepsFields(Save(inside, StartField), rest);
    }
  }

  lemma ReadNothing(r: Reader)
    ensures Read(r, "") == r
  {
  }

  /** A definition's first three fields are the cid, the type and the APN. */
  lemma DefinitionFields(d: Definition)
    requires Sendable(d)
    ensures [PrintInt(d.cid), d.kind, d.apn] <= AtEnd(Read(NEW_READER, DefinitionLine(d)))
  {
    hide Read, PrintInt, Quoted;
    var cid, rest := PrintInt(d.cid), (Quoted(d.kind) + ",") + (Quoted(d.apn) + d.more);
    PrintIntPlain(d.cid);
    FirstField(cid);
    ReadAppend(NEW_READER, cid + ",", rest);
    var r1, r2 := Reader(StartField, "", [cid]), Reader(StartField, "", [cid, d.kind]);
    QuotedThenComma(r1, d.kind);
    assert r1.fields + [d.kind] == r2.fields;
    ReadAppend(r1, Quoted(d.kind) + ",", Quoted(d.apn) + d.more);
    LastQuoted(r2, d.apn, d.more);
    assert r2.fields + [d.apn] == [cid, d.kind, d.apn];
  }

  lemma DefinitionReadsBack(d: Definition)
    requires Sendable(d)
    ensures var fields := Fields(DefinitionLine(d));
      |fields| >= 3 && ParseInt(fields[0]) == Some(d.cid) && StripQuotes(Strip(fields[2])) == Strip(d.apn)
  {
    hide Read, PrintInt, ParseInt, DefinitionLine, Strip, StripQuotes;
    DefinitionFields(d);
    PrintIntPlain(d.cid);
    IntReadsBack(d.cid);
    StripTwice(d.apn);
    NoQuotesToStrip(Strip(d.apn));
  }

  lemma ActivationReadsBack(a: Activation)
    ensures var fields := Fields(ActivationLine(a));
      |fields| == 2 && ParseInt(fields[0]) == Some(a.cid) && ParseInt(fields[1]) == Some(a.state)
  {
    hide Read, PrintInt, ParseInt, Strip;
    var cid, state := PrintInt(a.cid), PrintInt(a.state);
    PrintIntPlain(a.cid);
    PrintIntPlain(a.state);
    IntReadsBack(a.cid);
    IntReadsBack(a.state);
    FirstField(cid);
    ReadAppend(NEW_READER, cid + ",", state);
    ReadPlain(Reader(StartField, "", [cid]), state);
    assert AtEnd(Read(NEW_READER, ActivationLine(a))) == [cid, state];
  }

  // ------------------------------------------------------------ what the two queries together say

  ghost predicate DistinctCids(ds: seq<Definition>) {
    forall i, j :: 0 <= i < j < |ds| ==> ds[i].cid != ds[j].cid
  }

  lemma {:induction false} DefinitionsReadBack(ds: seq<Definition>)
    requires DistinctCids(ds) && forall d :: d in ds ==> Sendable(d)
    ensures var m := Definitions(DefinitionLines(ds));
      && (forall d :: d in ds ==> d.cid in m && m[d.cid] == Strip(d.apn))
      && (forall cid :: cid in m ==> exists d :: d in ds && d.cid == cid)
  {
    if ds != [] {
      hide Fields, DefinitionLine, Strip, ParseInt, StripQuotes, Sendable;
      var front, last := ds[..|ds| - 1], ds[|ds| - 1];
      assert ds == front + [last] && last in ds;
      DefinitionsReadBack(front);
      assert DefinitionLines(ds) == DefinitionLines(front) + [DefinitionLine(last)];
      DefinitionsSnoc(DefinitionLines(front), last);
      hide Definitions, DefinitionLines;
      OneMoreDefined(Definitions(DefinitionLines(front)), front, last);
    }
  }

  lemma DefinitionsSnoc(values: seq<string>, d: Definition)
    requires Sendable(d)
    ensures Definitions(values + [DefinitionLine(d)]) == Definitions(values)[d.cid := Strip(d.apn)]
  {
    hide Fields, DefinitionLine, Strip, ParseInt, StripQuotes, Sendable;
    assert (values + [DefinitionLine(d)])[..|values|] == values;
    DefinitionReadsBack(d);
  }

  lemma OneMoreDefined(m: map<int, string>, front: seq<Definition>, last: Definition)
    requires DistinctCids(front + [last])
    requires forall d :: d in front ==> d.cid in m && m[d.cid] == Strip(d.apn)
    requires forall cid :: cid in m ==> exists d :: d in front && d.cid == cid
    ensures var after := m[last.cid := Strip(last.apn)];
      && (forall d :: d in front + [last] ==> d.cid in after && after[d.cid] == Strip(d.apn))
      && (forall cid :: cid in after ==> exists d :: d in front + [last] && d.cid == cid)
  {
    hide Strip;
    var ds := front + [last];
    forall d | d in front ensures d.cid != last.cid {
      var i :| 0 <= i < |front| && front[i] == d;
      assert ds[i] == d && ds[|front|] == last;
    }
    assert last in ds && forall d :: d in front ==> d in ds;
  }

  /** The contexts the module means, as the driver keeps them. */
  function Meant(acts: seq<Activation>, m: map<int, string>): (r: seq<Context>)
    ensures |r| == |acts|
    ensures forall i :: 0 <= i < |acts| ==> r[i] == MeantBy(acts[i], m)
  {
    seq(|acts|, i requires 0 <= i < |acts| => MeantBy(acts[i], m))
  }

  function MeantBy(a: Activation, m: map<int, string>): Context {
    Context(a.cid, a.state == 1, if a.cid in m then Some(m[a.cid]) else None)
  }

  lemma {:induction false} ContextsReadBack(acts: seq<Activation>, m: map<int, string>)
    ensures Contexts(ActivationLines(acts), Some(m)) == Meant(acts, m)
  {
    if acts != [] {
      hide Fields, ActivationLine, ParseInt;
      var front, last := acts[..|acts| - 1], acts[|acts| - 1];
      assert acts == front + [last];
      ContextsReadBack(front, m);
      assert ActivationLines(acts)[..|acts| - 1] == ActivationLines(front);
      assert Meant(acts, m)[..|acts| - 1] == Meant(front, m);
      ActivationReadsBack(last);
    }
  }

  /** The module sent these lines. */
  ghost predicate Printed(definitions: Reply, active: Reply, ds: seq<Definition>, acts: seq<Activation>) {
    && DistinctCids(ds) && (forall d :: d in ds ==> Sendable(d))
    && definitions == Lines(DefinitionLines(ds)) && active == Lines(ActivationLines(acts))
  }

  /** Every active context has a definition. */
  ghost predicate AllDefined(ds: seq<Definition>, acts: seq<Activation>) {
    forall a :: a in acts && a.state == 1 ==> exists d :: d in ds && d.cid == a.cid
  }

  /** The context is active under an APN that is not the IMS one. */
  ghost predicate CarriesUserData(ds: seq<Definition>, acts: seq<Activation>, cid: int) {
    Activation(cid, 1) in acts && exists d :: d in ds && d.cid == cid && !ImsText(d.apn)
  }

  /** Printed lines read back: the contexts in order, each active or not, under its stripped APN. */
  lemma SnapshotReadsBack(definitions: Reply, active: Reply, ds: seq<Definition>, acts: seq<Activation>)
      returns (m: map<int, string>)
    requires Printed(definitions, active, ds, acts)
    ensures Snapshot(definitions, active) == Some(Meant(acts, m))
    ensures forall d :: d in ds ==> d.cid in m && m[d.cid] == Strip(d.apn)
    ensures forall cid :: cid in m ==> exists d :: d in ds && d.cid == cid
  {
    DefinitionsReadBack(ds);
    m := Definitions(DefinitionLines(ds));
    ContextsReadBack(acts, m);
  }

  /** A context of the read is the IMS one exactly when its printed APN is. */
  lemma MeantIms(ds: seq<Definition>, acts: seq<Activation>, m: map<int, string>, i: nat, d: Definition)
    requires i < |acts| && d in ds && d.cid == acts[i].cid && d.cid in m && m[d.cid] == Strip(d.apn)
    ensures IsIms(Meant(acts, m)[i]) <==> ImsText(d.apn)
  {
    hide ImsText, Strip;
    ImsByCharacters(Meant(acts, m)[i]);
    ImsStripped(d.apn);
  }

  /**
   What is asked to close after a read: nothing while an active context has no
   definition, and else exactly the active ones under an APN that is not the
   IMS one.
   */
  lemma ClosesUsers(log: seq<Exchange>, at: nat, ds: seq<Definition>, acts: seq<Activation>)
    requires 2 <= at <= |log| && Printed(log[at - 2].reply, log[at - 1].reply, ds, acts)
    requires Asked(log, at, UserContexts(ReadOf(log, at - 2)))
    ensures !AllDefined(ds, acts) ==> |log| == at
    ensures AllDefined(ds, acts) ==> forall cid ::
      CarriesUserData(ds, acts, cid) <==> exists k :: at <= k < |log| && log[k].command == Deactivate(cid)
  {
    var m := SnapshotReadsBack(log[at - 2].reply, log[at - 1].reply, ds, acts);
    hide Snapshot, Printed, IsIms, ImsText, Strip;
    var contexts := Meant(acts, m);
    DefinedIff(ds, acts, m);
    if AllDefined(ds, acts) {
      var users := ActiveUser(contexts);
      forall cid ensures CarriesUserData(ds, acts, cid) <==> exists c :: c in users && c.cid == cid {
        UserIff(ds, acts, m, cid);
      }
      AskedUsers(log, at, users);
    }
  }

  lemma DefinedIff(ds: seq<Definition>, acts: seq<Activation>, m: map<int, string>)
    requires forall d :: d in ds ==> d.cid in m
    requires forall cid :: cid in m ==> exists d :: d in ds && d.cid == cid
    ensures Obscure(Meant(acts, m)) <==> !AllDefined(ds, acts)
  {
    var contexts := Meant(acts, m);
    if !AllDefined(ds, acts) {
      var a :| a in acts && a.state == 1 && forall d :: d in ds ==> d.cid != a.cid;
      var i :| 0 <= i < |acts| && acts[i] == a;
      assert contexts[i].active && contexts[i].apn.None?;
    }
    if i :| 0 <= i < |contexts| && contexts[i].active && contexts[i].apn.None? {
      assert acts[i] in acts;
    }
  }

  lemma UserIff(ds: seq<Definition>, acts: seq<Activation>, m: map<int, string>, cid: int)
    requires AllDefined(ds, acts) && DistinctCids(ds)
    requires forall d :: d in ds ==> d.cid in m && m[d.cid] == Strip(d.apn)
    requires forall cid :: cid in m ==> exists d :: d in ds && d.cid == cid
    ensures CarriesUserData(ds, acts, cid) <==> exists c :: c in ActiveUser(Meant(acts, m)) && c.cid == cid
  {
    hide IsIms, ImsText, Strip;
    var contexts := Meant(acts, m);
    if CarriesUserData(ds, acts, cid) {
      var d :| d in ds && d.cid == cid && !ImsText(d.apn);
      var i :| 0 <= i < |acts| && acts[i] == Activation(cid, 1);
      MeantIms(ds, acts, m, i, d);
      assert contexts[i] in contexts && contexts[i] in ActiveUser(contexts);
    }
    if c :| c in ActiveUser(contexts) && c.cid == cid {
      assert c in contexts;
      var i :| 0 <= i < |contexts| && contexts[i] == c;
      assert acts[i] in acts && acts[i] == Activation(cid, 1);
      var d :| d in ds && d.cid == cid;
      MeantIms(ds, acts, m, i, d);
    }
  }

  lemma AskedUsers(log: seq<Exchange>, at: nat, users: seq<Context>)
    requires Asked(log, at, Some(users))
    ensures forall cid ::
      (exists c :: c in users && c.cid == cid) <==> exists k :: at <= k < |log| && log[k].command == Deactivate(cid)
  {
    forall cid
      ensures (exists c :: c in users && c.cid == cid)
        <==> exists k :: at <= k < |log| && log[k].command == Deactivate(cid)
    {
      if c :| c in users && c.cid == cid {
        var i :| 0 <= i < |users| && users[i] == c;
        assert log[at + i].command == Deactivate(cid);
      }
      if k :| at <= k < |log| && log[k].command == Deactivate(cid) {
        assert users[k - at] in users && log[at + (k - at)].command == Deactivate(users[k - at].cid);
      }
    }
  }

  // ------------------------------------------------------------ attachment

  lemma {:induction false} DigitsRun(digits: string, rest: string)
    requires (forall c :: c in digits ==> IsDigit(c)) && (rest == "" || !IsDigit(rest[0]))
    ensures DigitRun(digits + rest) == |digits|
  {
    if digits == "" {
      assert digits + rest == rest;
    } else {
      assert digits[0] in digits && forall c :: c in digits[1..] ==> c in digits;
      assert (digits + rest)[1..] == digits[1..] + rest;
      DigitsRun(digits[1..], rest);
    }
  }

  lemma {:induction false} SpacesRun(spaces: string, rest: string)
    requires (forall c :: c in spaces ==> IsSpace(c)) && (rest == "" || !IsSpace(rest[0]))
    ensures RunLength(spaces + rest, true) == |spaces|
  {
    if spaces == "" {
      assert spaces + rest == rest;
    } else {
      assert spaces[0] in spaces && forall c :: c in spaces[1..] ==> c in spaces;
      assert (spaces + rest)[1..] == spaces[1..] + rest;
      SpacesRun(spaces[1..], rest);
    }
  }

  /** The module is attached when the number after any white space is one, whatever follows it. */
  lemma AttachedReadsBack(spaces: string, n: nat, rest: string)
    requires (forall c :: c in spaces ==> IsSpace(c)) && (rest == "" || !IsDigit(rest[0]))
    ensures ReadAttached(spaces + (PrintNat(n) + rest)) == Some(n == 1)
  {
    hide PrintNat, DigitRun, RunLength;
    var digits := PrintNat(n);
    var value := spaces + (digits + rest);
    assert digits[0] in digits && !IsSpace(digits[0]);
    SpacesRun(spaces, digits + rest);
    assert value[|spaces|..] == digits + rest;
    DigitsRun(digits, rest);
    assert (digits + rest)[..|digits|] == digits;
    PrintedOne(n);
  }

  lemma PrintedOne(n: nat)
    ensures PrintNat(n) == "1" <==> n == 1
  {
    ParseIntPrinted(n);
    ParseIntPrinted(1);
  }

  // ------------------------------------------------------------ the last read

  /** Data is reported inactive exactly when every active context is defined under an IMS APN. */
  lemma InactiveMeans(definitions: Reply, active: Reply, ds: seq<Definition>, acts: seq<Activation>)
    requires Printed(definitions, active, ds, acts)
    ensures OnlyIms(Snapshot(definitions, active)) <==>
      AllDefined(ds, acts) && forall cid :: !CarriesUserData(ds, acts, cid)
  {
    hide Snapshot, IsIms, ImsText, Strip, OnlyIms, Sendable, AllDefined, CarriesUserData;
    var m := SnapshotReadsBack(definitions, active, ds, acts);
    EmptyMeansOnlyIms(Some(Meant(acts, m)));
    DefinedIff(ds, acts, m);
    if AllDefined(ds, acts) {
      NoUsersIff(ds, acts, m);
    }
    hide Printed, Obscure, ActiveUser, DistinctCids, Meant;
  }

  lemma NoUsersIff(ds: seq<Definition>, acts: seq<Activation>, m: map<int, string>)
    requires AllDefined(ds, acts) && DistinctCids(ds)
    requires forall d :: d in ds ==> d.cid in m && m[d.cid] == Strip(d.apn)
    requires forall cid :: cid in m ==> exists d :: d in ds && d.cid == cid
    ensures ActiveUser(Meant(acts, m)) == [] <==> forall cid :: !CarriesUserData(ds, acts, cid)
  {
    hide IsIms, ImsText, Strip, AllDefined, CarriesUserData, DistinctCids;
    var users := ActiveUser(Meant(acts, m));
    forall cid ensures CarriesUserData(ds, acts, cid) <==> exists c :: c in users && c.cid == cid {
      UserIff(ds, acts, m, cid);
    }
    if users != [] {
      assert users[0] in users && CarriesUserData(ds, acts, users[0].cid);
    }
  }
}
