/** The store object of store.py: each method proved against its transaction on the file. */
module LocalStore {
  import opened Basics
  import opened Database
  import opened Queue
  import opened Journal
  import opened TaskTable

  class Store {
    var events: seq<Row>
    /** The sqlite_sequence entry of the events table. */
    var counter: nat
    var kv: map<string, string>
    var runs: map<string, Run>
    var tasks: map<int, Task>

    ghost function File(): Db
      reads this
    {
      Db(events, counter, kv, runs, tasks)
    }

    /** Open a file; token is the label drawn in case the file has none. */
    constructor (file: Db, token: string, ghost ids: seq<string>)
      requires JournalOk(file) && ListsRunning(file, ids)
      ensures exists order :: ListsRunning(file, order) && File() == RecoverCommands(EnsureStreamId(file, token), order)
      ensures forall id :: id in runs ==> runs[id].status != Running
    {
      events, counter, kv, runs, tasks := file.events, file.counter, file.kv, file.runs, file.tasks;
      new;
      OpenStreamId(token);
      ghost var order := Recover();
      assert ListsRunning(file, order);
      NothingRunningAfterReopen(EnsureStreamId(file, token), order);
    }

    method OpenStreamId(token: string)
      modifies this`kv
      ensures File() == EnsureStreamId(old(File()), token)
    {
      if STREAM_ID_KEY !in kv {
        var last := ReadLastSeq();
        kv := kv[STREAM_ID_KEY := if last != 0 then "" else token];
      }
    }

    // ---------------------------------------------------- command journal

    method Begin(frame: Frame) returns (claim: Claim)
      requires frame.cmdId.Name?
      modifies this
      ensures File() == BeginCommand(old(File()), frame) && claim == ClaimOf(old(File()), frame)
    {
      var id := frame.cmdId.name;
      if id in runs {
        if runs[id].frame != frame {
          return Conflict;
        }
        if runs[id].result.Some? {
          var _ := Append(RESULT_KIND, Journalled(runs[id].result.value));
          return Replayed;
        }
        return StillRunning;
      }
      runs := runs[id := Run(frame, Running, None)];
      claim := New;
    }

    method Finish(frame: Frame, status: Status, data: Option<string>, error: Option<string>)
      requires frame.cmdId.Name?
      modifies this
      ensures File() == FinishCommand(old(File()), frame, status, data, error)
    {
      var id := frame.cmdId.name;
      var payload := MakeOutcome(frame, status, data, error);
      if id in runs && runs[id].status == Running {
        runs := runs[id := Run(runs[id].frame, status, Some(payload))];
        var _ := Append(RESULT_KIND, Journalled(payload));
      }
    }

    /** Settle every row still running, in the order the rows come back. */
    method Recover() returns (ghost order: seq<string>)
      requires JournalOk(File())
      modifies this
      ensures ListsRunning(old(File()), order) && File() == RecoverCommands(old(File()), order)
    {
      order := [];
      var left := set id | id in runs && runs[id].status == Running;
      ghost var start := File();
      while left != {}
        invariant forall id :: id in left ==> id in runs && runs[id] == start.runs[id] && id in start.runs
        invariant Distinct(order) && RunningIds(start, order) && JournalOk(start)
        invariant forall id :: id in order <==> id in start.runs && start.runs[id].status == Running && id !in left
        invariant File() == RecoverCommands(start, order)
        decreases left
      {
        var id :| id in left;
        RecoverRows(start, order);
        Finish(runs[id].frame, Unknown, None, Some(RESTARTED));
        RecoverSnoc(start, order, id);
        order := order + [id];
        left := left - {id};
      }
    }

    // ---------------------------------------------------- outbound queue

    method Append(kind: string, payload: Payload) returns (event: Event)
      modifies this`events, this`counter
      ensures File() == AppendEvent(old(File()), kind, payload)
      ensures event == Event(old(counter) + 1, kind, payload) && Row(event, false) in events
      ensures old(QueueOk(File())) ==>
        QueueOk(File()) && event.num == LastSeq(File()) && forall r :: r in old(events) ==> r.event.num < event.num
    {
      counter := counter + 1;
      event := Event(counter, kind, payload);
      events := events + [Row(event, false)];
    }

    method ReadUnacked(limit: nat) returns (found: seq<Event>)
      requires QueueOk(File())
      ensures found == UnackedEvents(File(), limit)
      ensures AscendingEvents(found) && forall e :: e in found ==> Row(e, false) in events
    {
      found := UnackedEvents(Db(events, counter, kv, runs, tasks), limit);
      UnackedAscending(events);
      forall e | e in found ensures Row(e, false) in events {
        assert e in Unacked(events);
        UnackedMember(events, e);
      }
    }

    /** Two statements; the rowcount of the first is returned. */
    method AckUpTo(upTo: int) returns (removed: nat)
      requires QueueOk(File())
      modifies this`events
      ensures File() == AckThrough(old(File()), upTo) && removed == NewlyAcked(old(events), upTo)
      ensures forall r :: r in events <==> r in old(events) && r.event.num > upTo
    {
      AckRemovesPrefix(File(), upTo);
      removed := NewlyAcked(events, upTo);
      events := MarkAcked(events, upTo);
      events := DeleteAcked(events, upTo);
    }

    method ReadLastSeq() returns (last: nat)
      ensures last == LastSeq(File())
    {
      if events != [] {
        return events[|events| - 1].event.num;
      }
      last := counter;
    }

    method Trim(keep: int) returns (dropped: nat)
      requires QueueOk(File())
      modifies this`events
      ensures File() == TrimEvents(old(File()), keep)
      ensures dropped == Min(Max(0, |Unacked(old(events))| - keep), StatusCount(old(events)))
      ensures forall r :: r in old(events) && r !in events ==> IsStatus(r)
    {
      TrimLosesOnlyStatus(File(), keep);
      var excess := |Unacked(events)| - keep;
      if excess <= 0 {
        return 0;
      }
      dropped := Min(excess, StatusCount(events));
      events := DropOldestStatus(events, excess);
    }

    // ---------------------------------------------------- tasks

    /** BEGIN; delete, upsert, revision, receipt; COMMIT, or ROLLBACK on the first failure. */
    method Replace(items: seq<Item>, revision: string, syncId: string) returns (r: Result<nat, Failure>)
      modifies this
      ensures (File(), r) == ReplaceTasks(old(File()), items, revision, syncId)
      ensures r.Err? ==> File() == old(File())
    {
      var ids: set<int> := {};
      for i := 0 to |items|
        invariant DistinctIds(items, {}) == DistinctIds(items[i..], ids)
      {
        assert items[i..][1..] == items[i + 1..];
        if !HasId(items[i]) || items[i].id.value in ids {
          return Err(BadIds);
        }
        ids := ids + {items[i].id.value};
      }
      var saved := tasks;
      tasks := Keep(tasks, Ids(items));
      for i := 0 to |items|
        invariant UpsertAll(tasks, items[i..]) == UpsertAll(Keep(saved, Ids(items)), items)
        invariant File() == old(File()).(tasks := tasks) && saved == old(tasks)
      {
        assert items[i..][1..] == items[i + 1..];
        if !Usable(items[i]) {
          tasks := saved;
          return Err(ConstraintFailed);
        }
        tasks := Upsert(tasks, items[i]);
      }
      kv := kv[REVISION_KEY := revision];
      if syncId != "" {
        var _ := Append(APPLIED_KIND, Receipt(syncId, revision, true, |items|, ""));
      }
      r := Ok(|items|);
    }

    method MarkRun(id: int, lastRun: Option<string>, nextRun: Option<string>)
      modifies this`tasks
      ensures tasks == MarkTaskRun(old(tasks), id, lastRun, nextRun)
    {
      if id in tasks {
        tasks := tasks[id := tasks[id].(lastRun := lastRun, nextRun := nextRun)];
      }
    }

    method Plan(id: int, nextRun: Option<string>)
      modifies this`tasks
      ensures tasks == SetNextRun(old(tasks), id, nextRun)
    {
      if id in tasks {
        tasks := tasks[id := tasks[id].(nextRun := nextRun)];
      }
    }
  }

  /** Recovering one more row at the end of the order. */
  lemma {:induction false} RecoverSnoc(db: Db, order: seq<string>, id: string)
    requires JournalOk(db) && RunningIds(db, order) && id in db.runs && id !in order
    requires db.runs[id].frame.cmdId == Name(id) && db.runs[id].status == Running
    ensures RunningIds(db, order + [id])
    ensures RecoverCommands(db, order + [id])
      == FinishCommand(RecoverCommands(db, order), db.runs[id].frame, Unknown, None, Some(RESTARTED))
    decreases |order|
  {
    hide FinishCommand, JournalOk, Advances, Extends;
    if order == [] {
      assert [id][1..] == [];
    } else {
      assert (order + [id])[1..] == order[1..] + [id];
      var f := db.runs[order[0]].frame;
      var mid := FinishCommand(db, f, Unknown, None, Some(RESTARTED));
      FinishIsAtomic(db, f, Unknown, None, Some(RESTARTED));
      assert order == [order[0]] + order[1..];
      RecoverSnoc(mid, order[1..], id);
    }
  }
}
