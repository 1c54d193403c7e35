/** The user-data switch against a modem that may answer anything (modem.py). */
module DataSwitch {
  import opened Basics
  import opened Text
  import opened Csv

  /** The AT commands of the data paths; Detach is there to be excluded. */
  datatype Command = AskAttached | AskDefinitions | AskActive | Attach | Detach | Deactivate(cid: int)

  /** The values after each command's own prefix, or an AT error. */
  datatype Reply = Lines(values: seq<string>) | Failed

  datatype Exchange = Exchange(command: Command, reply: Reply)

  /** An activation state and its APN, None when no definition is known. */
  datatype Context = Context(cid: int, active: bool, apn: Option<string>)

  /** The last reading of the data state. */
  datatype Reading = Reading(attached: Option<bool>, active: Option<bool>)

  predicate IsIms(c: Context) {
    c.apn.Some? && Lower(Strip(c.apn.value)) == "ims"
  }

  // ------------------------------------------------------------ what replies mean

  /** cid to APN, from the AT+CGDCONT? lines. */
  function Definitions(values: seq<string>): map<int, string> {
    if values == [] then map[]
    else
      var before, fields := Definitions(values[..|values| - 1]), Fields(values[|values| - 1]);
      if |fields| < 3 || ParseInt(fields[0]).None? then before
      else before[ParseInt(fields[0]).value := StripQuotes(Strip(fields[2]))]
  }

  /** The contexts of the AT+CGACT? lines, with the APNs known. */
  function Contexts(values: seq<string>, definitions: Option<map<int, string>>): seq<Context> {
    if values == [] then []
    else
      var before, fields := Contexts(values[..|values| - 1], definitions), Fields(values[|values| - 1]);
      if |fields| < 2 || ParseInt(fields[0]).None? || ParseInt(fields[1]).None? then before
      else
        var cid := ParseInt(fields[0]).value;
        var apn := if definitions.Some? && cid in definitions.value then Some(definitions.value[cid]) else None;
        before + [Context(cid, ParseInt(fields[1]).value == 1, apn)]
  }

  /** What the two queries together say; None when the activation query failed. */
  function Snapshot(definitions: Reply, active: Reply): Option<seq<Context>> {
    match active
    case Failed => None
    case Lines(values) =>
      Some(Contexts(values, if definitions.Lines? then Some(Definitions(definitions.values)) else None))
  }

  /** The digits at the front of an AT+CGATT? value say whether it is attached. */
  function ReadAttached(value: string): Option<bool> {
    var text := value[RunLength(value, true)..];
    var n := DigitRun(text);
    if n == 0 then None else Some(text[..n] == "1")
  }

  function DigitRun(s: string): (n: nat)
    ensures n <= |s|
  {
    if s == "" || !IsDigit(s[0]) then 0 else 1 + DigitRun(s[1..])
  }

  function ActiveUser(contexts: seq<Context>): (r: seq<Context>)
    ensures forall c :: c in r <==> c in contexts && c.active && !IsIms(c)
  {
    if contexts == [] then []
    else
      var before, last := ActiveUser(contexts[..|contexts| - 1]), contexts[|contexts| - 1];
      assert contexts == contexts[..|contexts| - 1] + [last];
      if last.active && !IsIms(last) then before + [last] else before
  }

  /** Some active context has no known APN. */
  predicate Obscure(contexts: seq<Context>) {
    exists i :: 0 <= i < |contexts| && contexts[i].active && contexts[i].apn.None?
  }

  /** _user_data_contexts: the active non-IMS contexts, None when unknown. */
  function UserContexts(contexts: Option<seq<Context>>): Option<seq<Context>> {
    if contexts.None? || Obscure(contexts.value) then None else Some(ActiveUser(contexts.value))
  }

  /** An answered query in which every active context is the IMS one. */
  ghost predicate OnlyIms(contexts: Option<seq<Context>>) {
    contexts.Some? && forall c :: c in contexts.value && c.active ==> IsIms(c)
  }

  lemma EmptyMeansOnlyIms(contexts: Option<seq<Context>>)
    ensures UserContexts(contexts) == Some([]) <==> OnlyIms(contexts)
  {
    hide IsIms;
    if contexts.Some? {
      var cs, users := contexts.value, ActiveUser(contexts.value);
      if users != [] {
        assert users[0] in users;
      }
      if !Obscure(cs) {
        assert (forall c :: c !in users) <==> OnlyIms(contexts);
      } else {
        var i :| 0 <= i < |cs| && cs[i].active && cs[i].apn.None?;
        assert cs[i] in cs && !IsIms(cs[i]) by {
          UnknownIsNotIms(cs[i]);
        }
      }
    }
  }

  lemma UnknownIsNotIms(c: Context)
    requires c.apn.None?
    ensures !IsIms(c)
  {
  }

  // ------------------------------------------------------------ what may be sent

  /** The two queries at place j are the last read before place i: only deactivations lie between. */
  ghost predicate ReadAt(log: seq<Exchange>, j: nat, i: nat) {
    && j + 2 <= i <= |log|
    && log[j].command == AskDefinitions && log[j + 1].command == AskActive
    && forall k :: j + 2 <= k < i ==> log[k].command.Deactivate?
  }

  /** What that read said. */
  function ReadOf(log: seq<Exchange>, j: nat): Option<seq<Context>>
    requires j + 2 <= |log|
  {
    Snapshot(log[j].reply, log[j + 1].reply)
  }

  /** The read shows the context active, every active APN known, and this one not the IMS one. */
  ghost predicate ShowsUser(read: Option<seq<Context>>, cid: int) {
    && read.Some? && !Obscure(read.value)
    && exists c :: c in read.value && c.cid == cid && c.active && c.apn.Some? && !IsIms(c)
  }

  /** A command that cannot hurt registration or the IMS bearer, given what was read last. */
  ghost predicate Harmless(log: seq<Exchange>, i: nat)
    requires i < |log|
  {
    && log[i].command != Detach
    && (log[i].command.Deactivate? ==> exists j :: ReadAt(log, j, i) && ShowsUser(ReadOf(log, j), log[i].command.cid))
  }

  /** From a place of the log on, every command is harmless. */
  ghost predicate HarmlessFrom(log: seq<Exchange>, from: nat) {
    forall i :: from <= i < |log| ==> Harmless(log, i)
  }

  lemma HarmlessStays(log: seq<Exchange>, after: seq<Exchange>, i: nat)
    requires log <= after && i < |log| && Harmless(log, i)
    ensures Harmless(after, i)
  {
    hide ShowsUser, Snapshot;
    if log[i].command.Deactivate? {
      var j :| ReadAt(log, j, i) && ShowsUser(ReadOf(log, j), log[i].command.cid);
      assert ReadAt(after, j, i) && ReadOf(after, j) == ReadOf(log, j);
    }
  }

  /** Nothing harmful was sent between the two. */
  ghost predicate Carries(before: seq<Exchange>, after: seq<Exchange>) {
    before <= after && HarmlessFrom(after, |before|)
  }

  lemma CarriesPrefix(before: seq<Exchange>, after: seq<Exchange>)
    requires Carries(before, after)
    ensures before <= after
  {
  }

  lemma CarriesOn(a: seq<Exchange>, b: seq<Exchange>, c: seq<Exchange>)
    requires Carries(a, b) && Carries(b, c)
    ensures Carries(a, c)
  {
    forall i | |a| <= i < |c| ensures Harmless(c, i) {
      if i < |b| {
        HarmlessStays(b, c, i);
      }
    }
  }

  /** Queries and attaching are harmless at any time. */
  lemma SendPlain(log: seq<Exchange>, e: Exchange)
    requires e.command != Detach && !e.command.Deactivate?
    ensures Carries(log, log + [e])
  {
  }

  /** So is deactivating what the last read shows as active user data. */
  lemma SendDeactivate(log: seq<Exchange>, at: nat, contexts: seq<Context>, k: nat, e: Exchange)
    requires ReadAt(log, at, |log|) && UserContexts(ReadOf(log, at)) == Some(contexts)
    requires k < |contexts| && e.command == Deactivate(contexts[k].cid)
    ensures Carries(log, log + [e])
    ensures ReadAt(log + [e], at, |log| + 1) && ReadOf(log + [e], at) == ReadOf(log, at)
  {
    UserIsShown(ReadOf(log, at), contexts, k);
    hide ShowsUser, UserContexts, Snapshot;
    assert ReadAt(log + [e], at, |log|);
  }

  lemma UserIsShown(read: Option<seq<Context>>, contexts: seq<Context>, k: nat)
    requires UserContexts(read) == Some(contexts) && k < |contexts|
    ensures ShowsUser(read, contexts[k].cid)
  {
    hide IsIms;
    assert contexts[k] in contexts && contexts[k] in read.value;
    var i :| 0 <= i < |read.value| && read.value[i] == contexts[k];
    assert read.value[i].active;
  }

  /** Whether an AT+CGATT? reply says attached. */
  function AttachedBy(reply: Reply): Option<bool> {
    if reply.Lines? && reply.values != [] then ReadAttached(reply.values[0]) else None
  }

  /** From place at to place end: the three queries, then one command to close for each user context they show. */
  ghost predicate Round(log: seq<Exchange>, at: nat, end: nat) {
    && at + 3 <= end <= |log|
    && log[at].command == AskAttached && log[at + 1].command == AskDefinitions && log[at + 2].command == AskActive
    && var user := UserContexts(ReadOf(log, at + 1));
       end == at + 3 + (if user.Some? then |user.value| else 0)
       && forall k :: at + 3 <= k < end ==> log[k].command == Deactivate(user.value[k - at - 3].cid)
  }

  /**
   A round, and unless it saw the module attached a command to attach; and if
   that is accepted a second round, for what attaching may have opened.
   */
  ghost predicate Rounds(log: seq<Exchange>, from: nat, to: nat) {
    exists mid: nat :: RoundsVia(log, from, mid, to)
  }

  ghost predicate RoundsVia(log: seq<Exchange>, from: nat, mid: nat, to: nat) {
    && Round(log, from, mid) && to <= |log|
    && if AttachedBy(log[from].reply) == Some(true) then to == mid
       else
         && mid < to && log[mid].command == Attach
         && if log[mid].reply.Failed? then to == mid + 1 else Round(log, mid + 1, to)
  }

  lemma RoundStays(log: seq<Exchange>, after: seq<Exchange>, at: nat, end: nat)
    requires log <= after && Round(log, at, end)
    ensures Round(after, at, end)
  {
    hide UserContexts, Snapshot;
    assert ReadOf(after, at + 1) == ReadOf(log, at + 1);
  }

  lemma RoundsStay(log: seq<Exchange>, after: seq<Exchange>, from: nat, to: nat)
    requires log <= after && Rounds(log, from, to)
    ensures Rounds(after, from, to)
  {
    hide Round;
    var mid: nat :| RoundsVia(log, from, mid, to);
    RoundBegins(log, from, mid);
    RoundStays(log, after, from, mid);
    if AttachedBy(log[from].reply) != Some(true) && log[mid].reply.Lines? {
      RoundStays(log, after, mid + 1, to);
    }
    assert RoundsVia(after, from, mid, to);
  }

  lemma RoundBegins(log: seq<Exchange>, at: nat, end: nat)
    requires Round(log, at, end)
    ensures at < end <= |log|
  {
  }

  // ------------------------------------------------------------ the driver

  class Air780E {
    /** What the modem will answer, one reply a command; it then stops answering. */
    var script: seq<Reply>
    /** What was sent and answered. */
    var log: seq<Exchange>

    /** The AT client: sends, and waits for the reply or an error. */
    method Execute(command: Command) returns (r: Reply)
      modifies this
      ensures log == old(log) + [Exchange(command, r)]
    {
      if script == [] {
        r := Failed;
      } else {
        r := script[0];
        script := script[1..];
      }
      log := log + [Exchange(command, r)];
    }

    /** _read_pdp_context_states. */
    method ReadContexts() returns (contexts: Option<seq<Context>>)
      modifies this
      ensures Carries(old(log), log) && |log| == |old(log)| + 2
      ensures ReadAt(log, |log| - 2, |log|) && contexts == ReadOf(log, |log| - 2)
    {
      var definitions := Execute(AskDefinitions);
      ghost var middle := log;
      SendPlain(old(log), middle[|middle| - 1]);
      var active := Execute(AskActive);
      SendPlain(middle, log[|log| - 1]);
      CarriesOn(old(log), middle, log);
      contexts := Snapshot(definitions, active);
    }

    /** _read_data_snapshot. */
    method ReadSnapshot() returns (attached: Option<bool>, contexts: Option<seq<Context>>)
      modifies this
      ensures Carries(old(log), log) && |log| == |old(log)| + 3
      ensures ReadAt(log, |log| - 2, |log|) && contexts == ReadOf(log, |log| - 2)
      ensures log[|old(log)|].command == AskAttached && attached == AttachedBy(log[|old(log)|].reply)
    {
      var reply := Execute(AskAttached);
      ghost var middle := log;
      SendPlain(old(log), middle[|middle| - 1]);
      attached := if reply.Lines? && reply.values != [] then ReadAttached(reply.values[0]) else None;
      contexts := ReadContexts();
      CarriesOn(old(log), middle, log);
    }

    /** read_data_status. */
    method ReadDataStatus() returns (status: Reading)
      modifies this
      ensures Carries(old(log), log) && |log| == |old(log)| + 3 && ReadAt(log, |log| - 2, |log|)
      ensures status.active == Some(false) <==> OnlyIms(ReadOf(log, |log| - 2))
      ensures log[|old(log)|].command == AskAttached && status.attached == AttachedBy(log[|old(log)|].reply)
    {
      var attached, contexts := ReadSnapshot();
      var user := UserContexts(contexts);
      EmptyMeansOnlyIms(contexts);
      status := Reading(attached, if user.None? then None else Some(user.value != []));
    }

    /** _deactivate_user_data_contexts: one attempt for each context, whatever the modem answers. */
    method DeactivateContexts(contexts: seq<Context>, ghost at: nat) returns (errors: nat)
      requires ReadAt(log, at, |log|) && UserContexts(ReadOf(log, at)) == Some(contexts)
      modifies this
      ensures Carries(old(log), log) && |log| == |old(log)| + |contexts|
      ensures forall i :: 0 <= i < |contexts| ==> log[|old(log)| + i].command == Deactivate(contexts[i].cid)
    {
      hide UserContexts, Harmless, HarmlessFrom, ReadOf;
      errors := 0;
      assert Carries(old(log), log) by {
        CarriesNothing(log);
      }
      for i := 0 to |contexts|
        invariant Carries(old(log), log) && |log| == |old(log)| + i
        invariant forall k :: 0 <= k < i ==> log[|old(log)| + k].command == Deactivate(contexts[k].cid)
        invariant ReadAt(log, at, |log|) && ReadOf(log, at) == ReadOf(old(log), at)
      {
        ghost var before := log;
        var reply := Execute(Deactivate(contexts[i].cid));
        SendDeactivate(before, at, contexts, i, log[|log| - 1]);
        CarriesOn(old(log), before, log);
        if reply.Failed? {
          errors := errors + 1;
        }
      }
    }

    /** One round of the disable path: read, and ask every context known to carry user data to close. */
    method Quench() returns (attached: Option<bool>)
      modifies this
      ensures Carries(old(log), log) && |log| >= |old(log)| + 3
      ensures Asked(log, |old(log)| + 3, UserContexts(ReadOf(log, |old(log)| + 1)))
      ensures Round(log, |old(log)|, |log|) && attached == AttachedBy(log[|old(log)|].reply)
    {
      hide UserContexts, Harmless, HarmlessFrom, Snapshot;
      var contexts;
      attached, contexts := ReadSnapshot();
      var user := UserContexts(contexts);
      if user.Some? && user.value != [] {
        ghost var middle := log;
        var errors := DeactivateContexts(user.value, |log| - 2);
        CarriesOn(old(log), middle, log);
      }
    }

    /** The disable path up to its final read. */
    method StopUserData()
      modifies this
      ensures Carries(old(log), log) && Rounds(log, |old(log)|, |log|)
    {
      hide Round, Harmless, HarmlessFrom, AttachedBy, Asked;
      ghost var from := |log|;
      var attached := Quench();
      ghost var before := log;
      if attached != Some(true) {
        var reply := Execute(Attach);
        ghost var after := log;
        SendPlain(before, after[|after| - 1]);
        CarriesOn(old(log), before, after);
        if reply.Lines? {
          var again := Quench();
          CarriesOn(old(log), after, log);
        }
        RoundStays(before, log, from, |before|);
      }
      assert RoundsVia(log, from, |before|, |log|);
    }

    /**
     set_data_enabled. Whatever the modem answers, nothing harmful is sent; and
     the disable path returns only after a read, its last command, in which
     every active context is the IMS one.
     */
    method SetDataEnabled(enabled: bool) returns (r: Option<Reading>)
      modifies this
      ensures Carries(old(log), log)
      ensures !enabled && r.Some? ==> r.value.active == Some(false)
      ensures !enabled && r.Some? ==> |log| >= 2 && ReadAt(log, |log| - 2, |log|) && OnlyIms(ReadOf(log, |log| - 2))
      ensures !enabled ==> |log| >= 3 && Rounds(log, |old(log)|, |log| - 3)
      ensures !enabled && r.None? ==> |log| >= 2 && !OnlyIms(ReadOf(log, |log| - 2))
      ensures enabled ==>
        |log| > |old(log)| && log[|old(log)|].command == Attach && (r.Some? <==> log[|old(log)|].reply.Lines?)
    {
      hide Harmless, HarmlessFrom, ReadOf, OnlyIms, Rounds;
      if enabled {
        var reply := Execute(Attach);
        SendPlain(old(log), log[|log| - 1]);
        if reply.Failed? {
          return None;
        }
      } else {
        StopUserData();
      }
      ghost var asked := log;
      var status := ReadDataStatus();
      CarriesOn(old(log), asked, log);
      if !enabled {
        RoundsStay(asked, log, |old(log)|, |asked|);
      }
      if !enabled && status.active != Some(false) {
        return None;
      }
      r := Some(status);
    }
  }

  /** From place at on, exactly the known user contexts are asked to close. */
  ghost predicate Asked(log: seq<Exchange>, at: nat, user: Option<seq<Context>>) {
    var n := if user.Some? then |user.value| else 0;
    |log| == at + n && forall k :: 0 <= k < n ==> log[at + k].command == Deactivate(user.value[k].cid)
  }

  lemma CarriesNothing(log: seq<Exchange>)
    ensures Carries(log, log)
  {
  }
}
