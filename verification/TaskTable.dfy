/** The task table and its full replacement by a sync_tasks payload (store.replace_tasks). */
module TaskTable {
  import opened Basics
  import opened Database
  import opened Queue

  /**
   One element of the payload. id is None unless it is an integer; a field is
   None when it is missing, null or of a type SQLite cannot bind. The three
   flags default to true when missing.
   */
  datatype Item =
    | NotAnObject
    | Item(id: Option<int>, device: Option<string>, name: Option<string>, enabled: Option<bool>,
           action: Option<string>, target: Option<string>, content: Option<string>,
           scheduleType: Option<string>, scheduleExpr: Option<string>, jitter: Option<int>,
           randomSuffix: Option<bool>, retryMax: Option<int>, notify: Option<bool>)

  const REVISION_KEY := "tasks_revision"
  const APPLIED_KIND := "tasks_applied"

  predicate HasId(item: Item) {
    item.Item? && item.id.Some? && item.id.value > 0
  }

  predicate Usable(item: Item)
  {
    && HasId(item) && item.device.Some? && item.name.Some? && item.action.Some? && item.target.Some?
    && item.content.Some? && item.scheduleType.Some? && item.scheduleExpr.Some? && item.jitter.Some?
    && item.retryMax.Some?
    && Bindable(item.id.value) && Bindable(item.jitter.value) && Bindable(item.retryMax.value)
  }

  function Flag(f: Option<bool>): bool {
    if f.Some? then f.value else true
  }

  /** The validation loop: ids must be distinct positive integers. */
  function DistinctIds(items: seq<Item>, seen: set<int>): bool {
    if items == [] then true
    else
      HasId(items[0]) && items[0].id.value !in seen && DistinctIds(items[1..], seen + {items[0].id.value})
  }

  function Ids(items: seq<Item>): set<int> {
    set item | item in items && HasId(item) :: item.id.value
  }

  predicate ScheduleChanged(tasks: map<int, Task>, item: Item)
    requires Usable(item)
  {
    item.id.value in tasks &&
    var old_ := tasks[item.id.value];
    || old_.scheduleType != item.scheduleType.value
    || old_.scheduleExpr != item.scheduleExpr.value
    || old_.jitter != item.jitter.value
  }

  function ToTask(item: Item, lastRun: Option<string>, nextRun: Option<string>): Task
    requires Usable(item)
  {
    Task(item.id.value, item.device.value, item.name.value, Flag(item.enabled), item.action.value,
         item.target.value, item.content.value, item.scheduleType.value, item.scheduleExpr.value,
         item.jitter.value, Flag(item.randomSuffix), item.retryMax.value, Flag(item.notify), lastRun, nextRun)
  }

  /** INSERT ... ON CONFLICT(id) DO UPDATE, dropping the plan of a changed schedule. */
  function Upsert(tasks: map<int, Task>, item: Item): map<int, Task>
    requires Usable(item)
  {
    var id := item.id.value;
    var lastRun := if id in tasks then tasks[id].lastRun else None;
    var nextRun := if id in tasks && !ScheduleChanged(tasks, item) then tasks[id].nextRun else None;
    tasks[id := ToTask(item, lastRun, nextRun)]
  }

  /** The loop of upserts; None when a row violates a column constraint or a value cannot be bound. */
  function UpsertAll(tasks: map<int, Task>, items: seq<Item>): Option<map<int, Task>>
    decreases |items|
  {
    if items == [] then Some(tasks)
    else if Usable(items[0]) then UpsertAll(Upsert(tasks, items[0]), items[1..])
    else None
  }

  function Keep(tasks: map<int, Task>, ids: set<int>): map<int, Task> {
    map id | id in tasks && id in ids :: tasks[id]
  }

  datatype Failure = BadIds | ConstraintFailed

  function Replaced(db: Db, tasks: map<int, Task>, revision: string, syncId: string, count: nat): Db {
    var db1 := db.(tasks := tasks, kv := db.kv[REVISION_KEY := revision]);
    if syncId == "" then db1 else AppendEvent(db1, APPLIED_KIND, Receipt(syncId, revision, true, count, ""))
  }

  /** The whole transaction: a failure leaves the file as it was. */
  function ReplaceTasks(db: Db, items: seq<Item>, revision: string, syncId: string): (Db, Result<nat, Failure>) {
    if !DistinctIds(items, {}) then (db, Err(BadIds))
    else
      match UpsertAll(Keep(db.tasks, Ids(items)), items)
      case None => (db, Err(ConstraintFailed))
      case Some(tasks) => (Replaced(db, tasks, revision, syncId, |items|), Ok(|items|))
  }

  function MarkTaskRun(tasks: map<int, Task>, id: int, lastRun: Option<string>, nextRun: Option<string>)
      : map<int, Task> {
    if id in tasks then tasks[id := tasks[id].(lastRun := lastRun, nextRun := nextRun)] else tasks
  }

  function SetNextRun(tasks: map<int, Task>, id: int, nextRun: Option<string>): map<int, Task> {
    if id in tasks then tasks[id := tasks[id].(nextRun := nextRun)] else tasks
  }

  // ------------------------------------------------------ the refinement

  ghost predicate ValidPayload(items: seq<Item>) {
    && (forall i :: 0 <= i < |items| ==> HasId(items[i]))
    && forall i, j :: 0 <= i < j < |items| ==> items[i].id != items[j].id
  }

  /** The validation loop accepts exactly the payloads with distinct positive ids. */
  lemma {:induction false} ValidationExact(items: seq<Item>, seen: set<int>)
    ensures DistinctIds(items, seen) <==>
      ValidPayload(items) && forall i :: 0 <= i < |items| ==> items[i].id.value !in seen
  {
    if items != [] && HasId(items[0]) {
      var rest := items[1..];
      ValidationExact(rest, seen + {items[0].id.value});
      assert forall i :: 0 <= i < |rest| ==> rest[i] == items[i + 1];
      if ValidPayload(items) && (forall i :: 0 <= i < |items| ==> items[i].id.value !in seen) {
        forall i | 0 <= i < |rest| ensures rest[i].id.value !in seen + {items[0].id.value} {
          assert rest[i] == items[i + 1];
        }
      }
      if DistinctIds(items, seen) {
        forall i, j | 0 <= i < j < |items| ensures items[i].id != items[j].id {
          assert items[j] == rest[j - 1];
          if i > 0 { assert items[i] == rest[i - 1]; }
        }
        forall i | 0 <= i < |items| ensures HasId(items[i]) && items[i].id.value !in seen {
          if i > 0 { assert items[i] == rest[i - 1]; }
        }
      }
    }
  }

  /** What a task becomes: payload fields, kept last run, plan kept unless the schedule changed. */
  ghost predicate Merged(before: map<int, Task>, item: Item, after: Task) {
    && Usable(item)
    && Some(after.id) == item.id && Some(after.device) == item.device && Some(after.name) == item.name
    && Some(after.action) == item.action && Some(after.target) == item.target && Some(after.content) == item.content
    && Some(after.scheduleType) == item.scheduleType && Some(after.scheduleExpr) == item.scheduleExpr
    && Some(after.jitter) == item.jitter && Some(after.retryMax) == item.retryMax
    && (after.enabled <==> item.enabled != Some(false)) && (after.randomSuffix <==> item.randomSuffix != Some(false))
    && (after.notify <==> item.notify != Some(false))
    && after.lastRun == (if item.id.value in before then before[item.id.value].lastRun else None)
    && after.nextRun == (if item.id.value in before
                         && before[item.id.value].scheduleType == item.scheduleType.value
                         && before[item.id.value].scheduleExpr == item.scheduleExpr.value
                         && before[item.id.value].jitter == item.jitter.value
                         then before[item.id.value].nextRun else None)
  }

  lemma {:induction false} UpsertsSucceed(tasks: map<int, Task>, items: seq<Item>)
    ensures UpsertAll(tasks, items).Some? <==> forall item :: item in items ==> Usable(item)
    decreases |items|
  {
    if items != [] {
      assert items == [items[0]] + items[1..];
      if Usable(items[0]) {
        UpsertsSucceed(Upsert(tasks, items[0]), items[1..]);
      }
    }
  }

  /** The upserts write the listed ids and leave the other rows alone. */
  lemma {:induction false} UpsertsWrite(tasks: map<int, Task>, items: seq<Item>)
    requires UpsertAll(tasks, items).Some?
    ensures var after := UpsertAll(tasks, items).value;
      && after.Keys == tasks.Keys + Ids(items)
      && (forall id :: id in tasks && id !in Ids(items) ==> after[id] == tasks[id])
    decreases |items|
  {
    if items == [] {
      assert Ids(items) == {};
    } else {
      assert items == [items[0]] + items[1..];
      assert Ids(items) == {items[0].id.value} + Ids(items[1..]);
      UpsertsWrite(Upsert(tasks, items[0]), items[1..]);
    }
  }

  lemma {:induction false} UpsertsMerge(tasks: map<int, Task>, items: seq<Item>, i: nat)
    requires ValidPayload(items) && UpsertAll(tasks, items).Some? && i < |items|
    ensures var after := UpsertAll(tasks, items).value;
      items[i].id.value in after && Merged(tasks, items[i], after[items[i].id.value])
    decreases |items|
  {
    var rest := items[1..];
    var next := Upsert(tasks, items[0]);
    assert forall k :: 0 <= k < |rest| ==> rest[k] == items[k + 1];
    if i == 0 {
      UpsertsWrite(next, rest);
      assert items[0].id.value !in Ids(rest);
    } else {
      UpsertsMerge(next, rest, i - 1);
      assert items[i].id != items[0].id;
    }
  }

  /**
   Replacement is an atomic map replacement: it succeeds exactly for a payload
   of usable items with distinct positive ids; then the table's ids are the
   payload's, every task is merged with what it replaces, and the revision and
   the receipt are written with it. Otherwise nothing changes.
   */
  lemma ReplaceRefinesMap(db: Db, items: seq<Item>, revision: string, syncId: string)
    ensures var (after, r) := ReplaceTasks(db, items, revision, syncId);
      && (r.Ok? <==> ValidPayload(items) && forall i :: 0 <= i < |items| ==> Usable(items[i]))
      && (r.Err? ==> after == db)
      && (r.Ok? ==>
            && r.value == |items| && after.tasks.Keys == Ids(items)
            && (forall i :: 0 <= i < |items| ==>
                  items[i].id.value in after.tasks && Merged(db.tasks, items[i], after.tasks[items[i].id.value]))
            && after.kv == db.kv[REVISION_KEY := revision] && after.runs == db.runs
            && after.events == (if syncId == "" then db.events else
                  db.events + [
                  Row(Event(db.counter + 1, APPLIED_KIND, Receipt(syncId, revision, true, |items|, "")), false)]))
  {
    ValidationExact(items, {});
    UpsertsSucceed(Keep(db.tasks, Ids(items)), items);
    if DistinctIds(items, {}) && UpsertAll(Keep(db.tasks, Ids(items)), items).Some? {
      UpsertsReplace(db.tasks, items);
    }
    hide DistinctIds, UpsertAll, Usable, Merged;
  }

  /** Deleting what is not listed and upserting what is leaves exactly the payload's tasks, merged. */
  lemma UpsertsReplace(tasks: map<int, Task>, items: seq<Item>)
    requires ValidPayload(items) && UpsertAll(Keep(tasks, Ids(items)), items).Some?
    ensures var after := UpsertAll(Keep(tasks, Ids(items)), items).value;
      && after.Keys == Ids(items)
      && forall i :: 0 <= i < |items| ==>
           items[i].id.value in after && Merged(tasks, items[i], after[items[i].id.value])
  {
    var kept := Keep(tasks, Ids(items));
    var after := UpsertAll(kept, items).value;
    UpsertsWrite(kept, items);
    forall i | 0 <= i < |items|
      ensures items[i].id.value in after && Merged(tasks, items[i], after[items[i].id.value])
    {
      assert items[i] in items && HasId(items[i]);
      UpsertsMerge(kept, items, i);
    }
  }

  /** The payload item that describes a task. */
  function ItemOf(t: Task): Item {
    Item(Some(t.id), Some(t.device), Some(t.name), Some(t.enabled), Some(t.action), Some(t.target), Some(t.content),
         Some(t.scheduleType), Some(t.scheduleExpr), Some(t.jitter), Some(t.randomSuffix), Some(t.retryMax),
         Some(t.notify))
  }

  ghost predicate OwnIds(tasks: map<int, Task>) {
    forall id :: id in tasks ==> tasks[id].id == id
  }

  /** A payload that describes the table as it is changes no row of it, run times and plans included. */
  lemma OwnTableStays(db: Db, items: seq<Item>, revision: string, syncId: string)
    requires OwnIds(db.tasks) && ValidPayload(items) && Ids(items) == db.tasks.Keys
    requires forall item :: item in items ==>
      Usable(item) && item.id.value in db.tasks && item == ItemOf(db.tasks[item.id.value])
    ensures var (after, r) := ReplaceTasks(db, items, revision, syncId); r == Ok(|items|) && after.tasks == db.tasks
  {
    ReplaceRefinesMap(db, items, revision, syncId);
    var after := ReplaceTasks(db, items, revision, syncId).0;
    hide ReplaceTasks, Merged, Usable;
    forall id | id in db.tasks ensures id in after.tasks && after.tasks[id] == db.tasks[id] {
      assert id in Ids(items);
      var item :| item in items && HasId(item) && item.id.value == id;
      var i :| 0 <= i < |items| && items[i] == item;
      assert Merged(db.tasks, items[i], after.tasks[id]);
      MergedWithItself(db.tasks, db.tasks[id], after.tasks[id]);
    }
  }

  lemma MergedWithItself(tasks: map<int, Task>, t: Task, after: Task)
    requires t.id in tasks && tasks[t.id] == t && Merged(tasks, ItemOf(t), after)
    ensures after == t
  {
  }

  predicate SameSchedule(a: Task, b: Task) {
    a.scheduleType == b.scheduleType && a.scheduleExpr == b.scheduleExpr && a.jitter == b.jitter
  }

  /**
   A recorded run survives a later sync: whether the sync succeeds and what it
   makes of every other task do not depend on the mark, a listed task keeps the
   marked last run, and it keeps the marked plan unless its schedule changed.
   */
  lemma RunSurvivesSync(db: Db, id: int, lastRun: Option<string>, nextRun: Option<string>,
                        items: seq<Item>, revision: string, syncId: string)
    requires id in db.tasks
    ensures var marked := db.(tasks := MarkTaskRun(db.tasks, id, lastRun, nextRun));
      var (plain, outcome) := ReplaceTasks(db, items, revision, syncId);
      var (after, r) := ReplaceTasks(marked, items, revision, syncId);
      && r == outcome && after.tasks.Keys == (if r.Ok? then Ids(items) else db.tasks.Keys)
      && (forall other :: other in after.tasks && other != id ==>
            other in plain.tasks && after.tasks[other] == plain.tasks[other])
      && (id in after.tasks ==>
            && after.tasks[id].lastRun == lastRun
            && after.tasks[id].nextRun == if SameSchedule(db.tasks[id], after.tasks[id]) then nextRun else None)
  {
    var marked := db.(tasks := MarkTaskRun(db.tasks, id, lastRun, nextRun));
    var (plain, outcome) := ReplaceTasks(db, items, revision, syncId);
    var (after, r) := ReplaceTasks(marked, items, revision, syncId);
    SyncOutcome(db, marked, items, revision, syncId);
    hide ReplaceTasks;
    if r.Ok? {
      forall other | other in after.tasks
        ensures other != id ==> other in plain.tasks && after.tasks[other] == plain.tasks[other]
        ensures other == id ==>
          && after.tasks[id].lastRun == lastRun
          && after.tasks[id].nextRun == if SameSchedule(db.tasks[id], after.tasks[id]) then nextRun else None
      {
        var item := MergedBoth(db, marked, items, revision, syncId, other);
      }
    }
  }

  /** Neither the outcome nor the ids left depend on what the table held. */
  lemma SyncOutcome(a: Db, b: Db, items: seq<Item>, revision: string, syncId: string)
    requires b == a.(tasks := b.tasks)
    ensures ReplaceTasks(a, items, revision, syncId).1 == ReplaceTasks(b, items, revision, syncId).1
    ensures ReplaceTasks(b, items, revision, syncId).0.tasks.Keys
      == if ReplaceTasks(b, items, revision, syncId).1.Ok? then Ids(items) else b.tasks.Keys
    ensures ReplaceTasks(b, items, revision, syncId).1.Err? ==>
      ReplaceTasks(b, items, revision, syncId).0 == b && ReplaceTasks(a, items, revision, syncId).0 == a
  {
    ReplaceRefinesMap(a, items, revision, syncId);
    ReplaceRefinesMap(b, items, revision, syncId);
    hide UpsertAll, Replaced, ValidPayload;
  }

  /** The payload item that both replacements merged under one id. */
  lemma MergedBoth(a: Db, b: Db, items: seq<Item>, revision: string, syncId: string, id: int) returns (item: Item)
    requires ReplaceTasks(a, items, revision, syncId).1.Ok? && ReplaceTasks(b, items, revision, syncId).1.Ok?
    requires id in ReplaceTasks(b, items, revision, syncId).0.tasks
    ensures item.Item? && item.id == Some(id) && id in ReplaceTasks(a, items, revision, syncId).0.tasks
    ensures Merged(a.tasks, item, ReplaceTasks(a, items, revision, syncId).0.tasks[id])
    ensures Merged(b.tasks, item, ReplaceTasks(b, items, revision, syncId).0.tasks[id])
  {
    ReplaceRefinesMap(a, items, revision, syncId);
    ReplaceRefinesMap(b, items, revision, syncId);
    hide ReplaceTasks, Merged, ValidPayload, Usable;
    item :| item in items && HasId(item) && item.id.value == id;
    var i :| 0 <= i < |items| && items[i] == item;
  }

  /** A plan made between two syncs survives the second in the same way, and the last run stays. */
  lemma PlanSurvivesSync(db: Db, id: int, nextRun: Option<string>, items: seq<Item>, revision: string, syncId: string)
    requires id in db.tasks
    ensures var planned := db.(tasks := SetNextRun(db.tasks, id, nextRun));
      var (after, r) := ReplaceTasks(planned, items, revision, syncId);
      && r == ReplaceTasks(db, items, revision, syncId).1
      && (id in after.tasks ==>
            && after.tasks[id].lastRun == db.tasks[id].lastRun
            && after.tasks[id].nextRun == if SameSchedule(db.tasks[id], after.tasks[id]) then nextRun else None)
  {
    assert SetNextRun(db.tasks, id, nextRun) == MarkTaskRun(db.tasks, id, db.tasks[id].lastRun, nextRun);
    RunSurvivesSync(db, id, db.tasks[id].lastRun, nextRun, items, revision, syncId);
  }

  /** To the outbound queue a replacement is one more transaction that only queues. */
  lemma ReplaceExtends(db: Db, items: seq<Item>, revision: string, syncId: string)
    ensures Extends(db, ReplaceTasks(db, items, revision, syncId).0)
    ensures ReplaceTasks(db, items, revision, syncId).0.runs == db.runs
  {
  }
}
