/** Laws of the command journal: one status change per command, one result per command. */
module Journal {
  import opened Basics
  import opened Database
  import opened Queue

  /** A report of a run: its id, what the frame addressed, its status, and "ok" for success only. */
  ghost predicate Tells(o: Outcome, id: string, run: Run) {
    && o.cmdId == id && o.device == run.frame.device && o.resultToken == run.frame.resultToken
    && o.runId == run.frame.runId && o.imei == run.frame.imei && o.iccid == run.frame.iccid
    && o.status == run.status && (o.ok <==> run.status == Succeeded)
  }

  /** A running row has no result yet; a finished one carries its own result. */
  ghost predicate RunOk(id: string, run: Run) {
    && run.frame.cmdId == Name(id)
    && (run.status == Running <==> run.result == None)
    && (run.result.Some? ==> Tells(run.result.value, id, run))
  }

  ghost predicate JournalOk(db: Db) {
    forall id :: id in db.runs ==> RunOk(id, db.runs[id])
  }

  /** e, if it reports a journalled command, reports what the journal holds. */
  ghost predicate Agrees(db: Db, e: Event) {
    e.payload.Journalled? ==>
      var id := e.payload.outcome.cmdId;
      id in db.runs && db.runs[id].result == Some(e.payload.outcome)
  }

  /** Rows persist, keep their frame, and change status only out of Running. */
  ghost predicate Advances(a: Db, b: Db) {
    forall id :: id in a.runs ==>
      && id in b.runs
      && b.runs[id].frame == a.runs[id].frame
      && (a.runs[id].status != Running ==> b.runs[id] == a.runs[id])
  }

  /** The events b queued on top of a. */
  function Fresh(a: Db, b: Db): seq<Event>
    requires |a.events| <= |b.events|
  {
    Unacked(b.events[|a.events|..])
  }

  lemma FreshOfAppend(a: Db, kind: string, payload: Payload)
    ensures Fresh(a, AppendEvent(a, kind, payload)) == [Event(a.counter + 1, kind, payload)]
    ensures Extends(a, AppendEvent(a, kind, payload))
  {
    var b := AppendEvent(a, kind, payload);
    var row := Row(Event(a.counter + 1, kind, payload), false);
    assert b.events[|a.events|..] == [row];
    assert [row][1..] == [];
    assert Unacked([row]) == [row.event];
    assert b.events[..|a.events|] == a.events;
  }

  lemma BeginKeeps(db: Db, f: Frame)
    requires JournalOk(db) && f.cmdId.Name?
    ensures var after := BeginCommand(db, f);
      && JournalOk(after) && Extends(db, after) && Advances(db, after)
      && forall e :: e in Fresh(db, after) ==> Agrees(after, e)
  {
    var after := BeginCommand(db, f);
    if ClaimOf(db, f) == Replayed {
      FreshOfAppend(db, RESULT_KIND, Journalled(db.runs[f.cmdId.name].result.value));
    } else {
      assert db.events[|db.events|..] == [];
    }
  }

  /**
   A status change and its cmd_result event are one transaction: either the row
   was running and now holds the outcome the single new event carries, or
   nothing at all changed.
   */
  lemma FinishIsAtomic(db: Db, f: Frame, status: Status, data: Option<string>, error: Option<string>)
    requires JournalOk(db) && f.cmdId.Name? && status != Running
    requires f.cmdId.name in db.runs ==> db.runs[f.cmdId.name].frame == f
    ensures var after := FinishCommand(db, f, status, data, error); var id := f.cmdId.name;
      && JournalOk(after) && Extends(db, after) && Advances(db, after)
      && (forall e :: e in Fresh(db, after) ==> Agrees(after, e))
      && (forall other :: other != id ==>
            (other in after.runs <==> other in db.runs) && (other in db.runs ==> after.runs[other] == db.runs[other]))
      && (if id in db.runs && db.runs[id].status == Running
          then id in after.runs && after.runs[id].status == status && after.runs[id].result.Some?
               && after.runs[id].result.value.data == data && after.runs[id].result.value.error == error
               && Fresh(db, after) == [Event(db.counter + 1, RESULT_KIND, Journalled(after.runs[id].result.value))]
          else after == db)
  {
    var after := FinishCommand(db, f, status, data, error);
    var id := f.cmdId.name;
    if id in db.runs && db.runs[id].status == Running {
      var outcome := MakeOutcome(f, status, data, error);
      var mid := db.(runs := db.runs[id := Run(db.runs[id].frame, status, Some(outcome))]);
      FreshOfAppend(mid, RESULT_KIND, Journalled(outcome));
      assert Extends(db, after);
      hide Extends;
    } else {
      assert db.events[|db.events|..] == [];
    }
  }

  ghost predicate Distinct(ids: seq<string>) {
    forall i, j :: 0 <= i < j < |ids| ==> ids[i] != ids[j]
  }

  /** A report that agrees with the journal goes on agreeing with it. */
  lemma AgreesForGood(a: Db, b: Db, e: Event)
    requires JournalOk(a) && Advances(a, b) && Agrees(a, e)
    ensures Agrees(b, e)
  {
  }

  /** Two successive changes compose. */
  lemma Composes(a: Db, b: Db, c: Db)
    requires JournalOk(b) && Extends(a, b) && Extends(b, c) && Advances(a, b) && Advances(b, c)
    requires forall e :: e in Fresh(a, b) ==> Agrees(b, e)
    requires forall e :: e in Fresh(b, c) ==> Agrees(c, e)
    ensures Extends(a, c) && Advances(a, c)
    ensures Fresh(a, c) == Fresh(a, b) + Fresh(b, c)
    ensures forall e :: e in Fresh(a, c) ==> Agrees(c, e)
  {
    ExtendsTransitive(a, b, c);
    assert b.events == c.events[..|b.events|];
    assert c.events[|a.events|..] == b.events[|a.events|..] + c.events[|b.events|..];
    UnackedAppend(b.events[|a.events|..], c.events[|b.events|..]);
    forall e | e in Fresh(a, b) ensures Agrees(c, e) {
      AgreesForGood(b, c, e);
    }
  }

  ghost predicate RunningIds(db: Db, ids: seq<string>) {
    Distinct(ids) && forall id :: id in ids ==>
      id in db.runs && db.runs[id].frame.cmdId == Name(id) && db.runs[id].status == Running
  }

  /** Recovery changes the listed rows, to "unknown", and no other. */
  lemma {:induction false} RecoverRows(db: Db, ids: seq<string>)
    requires JournalOk(db) && RunningIds(db, ids)
    ensures var after := RecoverCommands(db, ids);
      && after.runs.Keys == db.runs.Keys && after.kv == db.kv
      && (forall id :: id in ids ==> after.runs[id].status == Unknown)
      && (forall id :: id in db.runs && id !in ids ==> after.runs[id] == db.runs[id])
    decreases |ids|
  {
    if ids != [] {
      assert ids == [ids[0]] + ids[1..];
      var f := db.runs[ids[0]].frame;
      FinishIsAtomic(db, f, Unknown, None, Some(RESTARTED));
      RecoverRows(FinishCommand(db, f, Unknown, None, Some(RESTARTED)), ids[1..]);
    }
  }

  /**
   Recovery, whatever order the rows come back in, queues one report per
   listed row and each report agrees with the journal.
   */
  lemma {:induction false} RecoverKeeps(db: Db, ids: seq<string>)
    requires JournalOk(db) && RunningIds(db, ids)
    ensures var after := RecoverCommands(db, ids);
      && JournalOk(after) && Extends(db, after) && Advances(db, after)
      && (forall e :: e in Fresh(db, after) ==> Agrees(after, e))
      && |Fresh(db, after)| == |ids|
    decreases |ids|
  {
    if ids == [] {
      assert db.events[|db.events|..] == [];
    } else {
      var f := db.runs[ids[0]].frame;
      var mid := FinishCommand(db, f, Unknown, None, Some(RESTARTED));
      FinishIsAtomic(db, f, Unknown, None, Some(RESTARTED));
      RecoverKeeps(mid, ids[1..]);
      Composes(db, mid, RecoverCommands(mid, ids[1..]));
    }
  }

  /** The ids SELECT finds when the store is opened, in any order. */
  ghost predicate ListsRunning(db: Db, ids: seq<string>) {
    && Distinct(ids)
    && forall id :: id in ids <==> id in db.runs && db.runs[id].status == Running
  }

  /** No row is running once the store has been reopened. */
  lemma NothingRunningAfterReopen(db: Db, ids: seq<string>)
    requires JournalOk(db) && ListsRunning(db, ids)
    ensures var after := RecoverCommands(db, ids);
      && JournalOk(after)
      && forall id :: id in after.runs ==> after.runs[id].status != Running
  {
    RecoverRows(db, ids);
    RecoverKeeps(db, ids);
  }

  /** Replaying a finished command queues the stored result again, unchanged, and touches no row. */
  lemma ReplayRepeatsTheResult(db: Db, f: Frame)
    requires JournalOk(db) && f.cmdId.Name? && f.cmdId.name in db.runs
    requires db.runs[f.cmdId.name].frame == f && db.runs[f.cmdId.name].status != Running
    ensures var after := BeginCommand(db, f);
      && after.runs == db.runs
      && Fresh(db, after) == [Event(db.counter + 1, RESULT_KIND, Journalled(db.runs[f.cmdId.name].result.value))]
  {
    FreshOfAppend(db, RESULT_KIND, Journalled(db.runs[f.cmdId.name].result.value));
  }
}
