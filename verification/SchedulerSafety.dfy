/** The scheduler over every run of ticks, requests, task syncs, turns and stops. */
module SchedulerSafety {
  import opened Basics
  import opened Plans
  import opened Scheduler
  import Text

  // ------------------------------------------------------------ what is recorded of an execution

  function Tally(tries: seq<Try>, id: nat): nat {
    if tries == [] then 0
    else Tally(tries[..|tries| - 1], id) + if tries[|tries| - 1].exec == id then 1 else 0
  }

  ghost predicate AllFailed(tries: seq<Try>, id: nat) {
    forall i :: 0 <= i < |tries| && tries[i].exec == id ==> tries[i].outcome == Failed
  }

  /** Only the last attempt of an execution can be anything but a failure. */
  ghost predicate StopsAtFirst(tries: seq<Try>) {
    forall i, j :: 0 <= i < j < |tries| && tries[i].exec == tries[j].exec ==> tries[i].outcome == Failed
  }

  function Updated(updates: seq<Update>): set<nat> {
    set u | u in updates :: u.exec
  }

  function Received(receipts: seq<Receipt>): set<nat> {
    set r | r in receipts && r.exec.Some? :: r.exec.value
  }

  ghost predicate UpdatedOnce(updates: seq<Update>) {
    forall i, j :: 0 <= i < j < |updates| ==> updates[i].exec != updates[j].exec
  }

  ghost predicate ReceivedOnce(receipts: seq<Receipt>) {
    forall i, j :: 0 <= i < j < |receipts| && receipts[i].exec.Some? ==> receipts[i].exec != receipts[j].exec
  }

  function Broke(broken: seq<Break>): set<nat> {
    set b | b in broken :: b.exec
  }

  /** The update stores what next_run gives for the schedule, the completion and the draw. */
  ghost predicate Derived(started: seq<Started>, u: Update) {
    && u.exec < |started|
    && var row := started[u.exec].row;
       DrawFits(row.schedule, u.draw) && !Replan(row, u.at, u.draw).Raised? &&
         u.nextRun == Stored(Replan(row, u.at, u.draw))
  }

  /** The rescheduling raised for the schedule, the completion and the draw. */
  ghost predicate Raising(started: seq<Started>, b: Break) {
    && b.exec < |started|
    && var row := started[b.exec].row; DrawFits(row.schedule, b.draw) && Replan(row, b.at, b.draw).Raised?
  }

  ghost predicate AllDerived(started: seq<Started>, updates: seq<Update>) {
    forall i :: 0 <= i < |updates| ==> Derived(started, updates[i])
  }

  ghost predicate AllRaising(started: seq<Started>, broken: seq<Break>) {
    forall i :: 0 <= i < |broken| ==> Raising(started, broken[i])
  }

  // ------------------------------------------------------------ invariant

  /** Everything the trace holds of one execution, live (Some) or ended. */
  ghost predicate Consistent(s: Started, e: Option<Exec>, tally: nat, failed: bool, r: Records) {
    && tally <= Allowance(s)
    && match e
       case None => Closed(s, r) && (s.kind == Manual && r.broke ==> tally == 0)
       case Some(x) =>
         && x.task == s.task && x.row == s.row && x.kind == s.kind
         && match x.phase
            case Ready => s.kind == Timer && x.attempts == 0 && tally == 0 && failed && r == NO_RECORDS
            case Performing =>
              && 1 <= x.attempts <= Allowance(s) && tally == x.attempts - 1 && failed
              && r == NO_RECORDS.(updated := s.kind == Manual)
            case Waiting(_) => s.kind == Timer && 1 <= x.attempts < Allowance(s) && tally == x.attempts && failed &&
              r == NO_RECORDS
            case Done => s.kind == Timer && Closed(s, r)
  }

  /** Which records name an execution. */
  datatype Records = Records(updated: bool, received: bool, dropped: bool, broke: bool)

  const NO_RECORDS := Records(false, false, false, false)

  /** An update and a receipt, or neither after a cancellation or a raising rescheduling. */
  ghost predicate Closed(s: Started, r: Records) {
    && r.updated == r.received == (!r.dropped && !r.broke)
    && !(r.dropped && r.broke) && (s.kind == Manual ==> !r.dropped)
  }

  function RecordsOf(w: World, id: nat): Records {
    Records(id in Updated(w.updates), id in Received(w.receipts), id in w.dropped, id in Broke(w.broken))
  }

  function Live(w: World, id: nat): Option<Exec> {
    if id in w.execs then Some(w.execs[id]) else None
  }

  ghost predicate ExecOk(w: World, id: nat)
    requires id < |w.started|
  {
    Consistent(w.started[id], Live(w, id), Tally(w.tries, id), AllFailed(w.tries, id), RecordsOf(w, id))
  }

  ghost predicate ExecsOk(w: World) {
    forall id: nat :: id < |w.started| ==> ExecOk(w, id)
  }

  /** A task is running exactly while an execution of it is live, and it is that one. */
  ghost predicate OneEach(w: World) {
    && (forall id :: id in w.execs ==> w.execs[id].task in w.running && w.running[w.execs[id].task] == id)
    && (forall t :: t in w.running ==> w.running[t] in w.execs && w.execs[w.running[t]].task == t)
  }

  /** Records name executions that were started. */
  ghost predicate Known(w: World) {
    && (forall id :: id in w.execs ==> id < |w.started|)
    && (forall i :: 0 <= i < |w.tries| ==> w.tries[i].exec < |w.started|)
    && (forall id :: id in Updated(w.updates) ==> id < |w.started|)
    && (forall id :: id in Received(w.receipts) ==> id < |w.started|)
    && (forall id :: id in w.dropped ==> id < |w.started|)
    && (forall id :: id in Broke(w.broken) ==> id < |w.started|)
  }

  ghost predicate RecordsOk(w: World) {
    && StopsAtFirst(w.tries) && UpdatedOnce(w.updates) && ReceivedOnce(w.receipts)
    && AllDerived(w.started, w.updates) && AllRaising(w.started, w.broken)
  }

  ghost predicate Inv(w: World) {
    ExecsOk(w) && OneEach(w) && Known(w) && RecordsOk(w)
  }

  // ------------------------------------------------------------ growing records

  lemma TallySnoc(tries: seq<Try>, t: Try, id: nat)
    ensures Tally(tries + [t], id) == Tally(tries, id) + if t.exec == id then 1 else 0
    ensures AllFailed(tries + [t], id) <==> AllFailed(tries, id) && (t.exec == id ==> t.outcome == Failed)
  {
    assert (tries + [t])[..|tries|] == tries;
    var after := tries + [t];
    assert after[|tries|] == t;
    forall i | 0 <= i < |tries| ensures after[i] == tries[i] {
    }
    if AllFailed(after, id) {
      forall i | 0 <= i < |tries| && tries[i].exec == id ensures tries[i].outcome == Failed {
        assert after[i].exec == id;
      }
    }
  }

  lemma {:induction false} NoTries(tries: seq<Try>, id: nat)
    requires forall i :: 0 <= i < |tries| ==> tries[i].exec != id
    ensures Tally(tries, id) == 0 && AllFailed(tries, id)
  {
    if tries != [] {
      NoTries(tries[..|tries| - 1], id);
    }
  }

  lemma UpdatedSnoc(updates: seq<Update>, u: Update)
    ensures Updated(updates + [u]) == Updated(updates) + {u.exec}
    ensures UpdatedOnce(updates) && u.exec !in Updated(updates) ==> UpdatedOnce(updates + [u])
  {
    var after := updates + [u];
    assert forall x :: x in after <==> x in updates || x == u;
    forall i | 0 <= i < |updates| ensures updates[i].exec in Updated(updates) {
      assert updates[i] in updates;
    }
  }

  lemma ReceivedSnoc(receipts: seq<Receipt>, r: Receipt)
    ensures Received(receipts + [r]) == Received(receipts) + if r.exec.Some? then {r.exec.value} else {}
    ensures ReceivedOnce(receipts) && (r.exec.Some? ==> r.exec.value !in Received(receipts)) ==>
      ReceivedOnce(receipts + [r])
  {
    var after := receipts + [r];
    assert forall x :: x in after <==> x in receipts || x == r;
    forall i | 0 <= i < |receipts| && receipts[i].exec.Some? ensures receipts[i].exec.value in Received(receipts) {
      assert receipts[i] in receipts;
    }
  }

  lemma BrokeSnoc(broken: seq<Break>, b: Break)
    ensures Broke(broken + [b]) == Broke(broken) + {b.exec}
  {
    assert forall x :: x in broken + [b] <==> x in broken || x == b;
  }

  // ------------------------------------------------------------ starting

  lemma StartKeepsOthers(w: World, task: int, row: Row, kind: Kind)
    requires Inv(w) && task !in w.running
    ensures var after := Start(w, task, row, kind);
      && OneEach(after) && Known(after) && RecordsOk(after)
      && (forall id: nat :: id < |w.started| ==> ExecOk(after, id))
      && Tally(after.tries, |w.started|) == 0 && AllFailed(after.tries, |w.started|)
      && RecordsOf(after, |w.started|) == NO_RECORDS
  {
    var after := Start(w, task, row, kind);
    NoTries(w.tries, |w.started|);
    StartedGrows(w, after);
    hide Consistent, RecordsOk, Updated, Received, Broke;
    forall id: nat | id < |w.started| ensures ExecOk(after, id) {
      assert ExecOk(w, id) && after.started[id] == w.started[id] && Live(after, id) == Live(w, id);
    }
  }

  /** What was derived for an execution does not depend on those started later. */
  lemma StartedGrows(w: World, after: World)
    requires RecordsOk(w) && w.started <= after.started && after.tries == w.tries
    requires after.updates == w.updates && after.receipts == w.receipts && after.broken == w.broken
    ensures RecordsOk(after)
  {
    hide Replan, Stored;
  }

  lemma StartTimerKeeps(w: World, task: int, row: Row)
    requires Inv(w) && task !in w.running
    ensures Inv(Start(w, task, row, Timer))
  {
    StartKeepsOthers(w, task, row, Timer);
    hide OneEach, Known, RecordsOk;
    assert ExecOk(Start(w, task, row, Timer), |w.started|);
  }

  lemma RunManualKeeps(w: World, task: int, draw: int)
    requires Inv(w) && CanRun(w, task) && DrawFits(w.tasks[task].schedule, draw)
    ensures Inv(RunManual(w, task, draw))
  {
    hide Inv, Reschedule, Replan, RecordsOf;
    var id, row := |w.started|, w.tasks[task];
    StartKeepsOthers(w, task, row, Manual);
    var begun := Start(w, task, row, Manual);
    RescheduleRecords(begun, id, task, row, true, draw);
    ManualBegins(begun, id, Reschedule(begun, id, task, row, true, draw), Replan(row, w.now, draw).Raised?);
  }

  /** A manual run whose rescheduling raised is over; any other one goes on to its hardware call. */
  lemma ManualBegins(w: World, id: nat, after: World, raised: bool)
    requires |w.started| == id + 1 && OneEach(w) && RecordsGood(after) && w.started[id].kind == Manual
    requires forall other: nat :: other < id ==> ExecOk(w, other)
    requires id in w.execs && w.execs[id] == Exec(w.started[id].task, w.started[id].row, Manual, Performing, 1, false)
    requires Tally(w.tries, id) == 0 && AllFailed(w.tries, id)
    requires OnlyFor(w, after, id, if raised then NO_RECORDS.(broke := true) else NO_RECORDS.(updated := true))
    ensures Inv(if raised then Leave(after, id) else after)
  {
    var end := if raised then Leave(after, id) else after;
    if raised {
      LeaveLive(w, id);
      SameLive(Leave(w, id), end);
    } else {
      SameLive(w, after);
    }
    SameRecords(after, end);
    hide RecordsOf, RecordsOk, Known, Tally, AllFailed, OneEach;
    assert ExecOk(end, id);
    hide Consistent;
    NewcomerKeeps(w, end, id);
  }

  /** Settling the newest execution leaves the older ones consistent. */
  lemma NewcomerKeeps(w: World, after: World, id: nat)
    requires |w.started| == id + 1 && after.started == w.started && after.tries == w.tries
    requires forall other: nat :: other < id ==> ExecOk(w, other)
    requires forall other: nat :: other != id ==>
      Live(after, other) == Live(w, other) && RecordsOf(after, other) == RecordsOf(w, other)
    requires ExecOk(after, id)
    ensures ExecsOk(after)
  {
    hide Consistent, RecordsOf, Tally, AllFailed;
    forall other: nat | other < id ensures ExecOk(after, other) {
      SameExec(w, after, other);
    }
  }

  lemma SameRecords(w: World, after: World)
    requires after == w.(execs := after.execs, running := after.running)
    ensures RecordsOk(w) ==> RecordsOk(after)
    ensures Known(w) && (forall id :: id in after.execs ==> id in w.execs) ==> Known(after)
    ensures forall id: nat :: RecordsOf(after, id) == RecordsOf(w, id)
  {
  }

  ghost predicate RecordsGood(w: World) {
    Known(w) && RecordsOk(w)
  }

  /** Only execution id gets a new record. */
  ghost predicate OnlyFor(w: World, after: World, id: nat, r: Records) {
    && after.started == w.started && after.execs == w.execs && after.running == w.running && after.tries == w.tries
    && RecordsOf(after, id) == r
    && forall other: nat :: other != id ==> RecordsOf(after, other) == RecordsOf(w, other)
  }

  lemma BreakRecorded(w: World, b: Break)
    requires RecordsGood(w) && Raising(w.started, b)
    ensures var after := w.(broken := w.broken + [b]);
      RecordsGood(after) && OnlyFor(w, after, b.exec, RecordsOf(w, b.exec).(broke := true))
  {
    BrokeSnoc(w.broken, b);
    hide Updated, Received, Broke, UpdatedOnce, ReceivedOnce, StopsAtFirst, AllDerived, Replan;
  }

  lemma UpdateRecorded(w: World, u: Update, tasks: map<int, Row>)
    requires RecordsGood(w) && Derived(w.started, u) && u.exec !in Updated(w.updates)
    ensures var after := w.(tasks := tasks, updates := w.updates + [u]);
      RecordsGood(after) && OnlyFor(w, after, u.exec, RecordsOf(w, u.exec).(updated := true))
  {
    UpdatedSnoc(w.updates, u);
    hide Updated, Received, Broke, UpdatedOnce, ReceivedOnce, StopsAtFirst, AllRaising, Replan;
  }

  lemma ReceiptRecorded(w: World, id: nat, r: Receipt)
    requires RecordsGood(w) && r.exec == Some(id) && id < |w.started| && id !in Received(w.receipts)
    ensures var after := w.(receipts := w.receipts + [r]);
      RecordsGood(after) && OnlyFor(w, after, id, RecordsOf(w, id).(received := true))
  {
    ReceivedSnoc(w.receipts, r);
    hide Updated, Received, Broke, UpdatedOnce, ReceivedOnce, StopsAtFirst, AllDerived, AllRaising;
  }

  lemma DropRecorded(w: World, id: nat)
    requires RecordsGood(w) && id < |w.started|
    ensures var after := w.(dropped := w.dropped + {id});
      RecordsGood(after) && OnlyFor(w, after, id, RecordsOf(w, id).(dropped := true))
  {
    hide Updated, Received, Broke, UpdatedOnce, ReceivedOnce, StopsAtFirst, AllDerived, AllRaising;
  }

  /** What a rescheduling records: an update of the planned time, or the break. */
  lemma RescheduleRecords(w: World, id: nat, task: int, row: Row, ran: bool, draw: int)
    requires RecordsGood(w) && id < |w.started| && w.started[id].row == row && DrawFits(row.schedule, draw)
    requires !RecordsOf(w, id).updated
    ensures var after := Reschedule(w, id, task, row, ran, draw);
      && RecordsGood(after) && after.receipts == w.receipts && after.now == w.now
      && OnlyFor(w, after, id, if Replan(row, w.now, draw).Raised?
           then RecordsOf(w, id).(broke := true) else RecordsOf(w, id).(updated := true))
  {
    hide RecordsGood, OnlyFor, Replan, Updated, Received, Broke;
    var after := Reschedule(w, id, task, row, ran, draw);
    if Replan(row, w.now, draw).Raised? {
      BreakRecorded(w, Break(id, w.now, draw));
    } else {
      var lastRun := if ran then Some(Whole(w.now)) else row.lastRun;
      UpdateRecorded(w, Update(id, w.now, draw, lastRun, Stored(Replan(row, w.now, draw))), after.tasks);
    }
  }

  /** An execution whose records are as before is as consistent as before. */
  lemma SameExec(w: World, after: World, id: nat)
    requires id < |w.started| && |after.started| >= |w.started| && after.started[id] == w.started[id] && ExecOk(w, id)
    requires Live(after, id) == Live(w, id)
    requires Tally(after.tries, id) == Tally(w.tries, id) && AllFailed(after.tries, id) == AllFailed(w.tries, id)
    requires RecordsOf(after, id) == RecordsOf(w, id)
    ensures ExecOk(after, id)
  {
  }

  lemma SameLive(w: World, after: World)
    requires OneEach(w) && after.execs == w.execs && after.running == w.running
    ensures OneEach(after)
  {
  }

  lemma TickTaskKeeps(w: World, task: int, draw: int)
    requires Inv(w)
    ensures Inv(TickTask(w, task, draw).world)
  {
    hide Inv, NextRun;
    if task in w.tasks && w.tasks[task].enabled && task !in w.running {
      var row := w.tasks[task];
      var plan := NextRun(row.schedule, Anchor(row, w.now), w.now, draw);
      StartTimerKeeps(w, task, row);
      UnplannedKeeps(w);
      if plan.At? {
        var planned := w.(tasks := w.tasks[task := row.(nextRun := Some(Whole(plan.moment)))]);
        TasksKeep(w, planned.tasks);
        StartTimerKeeps(planned, task, row);
      }
    }
  }

  lemma UnplannedKeeps(w: World)
    requires Inv(w)
    ensures Inv(w.(receipts := w.receipts + [Receipt(None, WasSkipped, 0)]))
  {
    var r := Receipt(None, WasSkipped, 0);
    var after := w.(receipts := w.receipts + [r]);
    ReceivedSnoc(w.receipts, r);
    hide Consistent, OneEach, Received, Replan, Stored;
    SameLive(w, after);
    forall id: nat | id < |w.started| ensures ExecOk(after, id) {
      SameExec(w, after, id);
    }
  }

  lemma TasksKeep(w: World, tasks: map<int, Row>)
    requires Inv(w)
    ensures Inv(w.(tasks := tasks))
  {
    var after := w.(tasks := tasks);
    hide Consistent, OneEach;
    SameLive(w, after);
    forall id: nat | id < |w.started| ensures ExecOk(after, id) {
      SameExec(w, after, id);
    }
  }

  lemma {:induction false} TickKeeps(w: World, order: seq<int>, draws: seq<int>)
    requires Inv(w) && |draws| == |order|
    ensures Inv(Tick(w, order, draws).world)
    decreases |order|
  {
    hide Inv, TickTask;
    if order != [] {
      var last := |order| - 1;
      TickKeeps(w, order[..last], draws[..last]);
      TickTaskKeeps(Tick(w, order[..last], draws[..last]).world, order[last], draws[last]);
    }
  }

  // ------------------------------------------------------------ turns

  /** A turn that changes the records of one execution only. */
  ghost predicate Touches(w: World, after: World, id: nat) {
    && after.started == w.started && id in w.execs
    && (forall other: nat :: other != id ==> Live(after, other) == Live(w, other))
    && (forall other: nat :: other != id ==>
      && Tally(after.tries, other) == Tally(w.tries, other) &&
         AllFailed(after.tries, other) == AllFailed(w.tries, other)
      && RecordsOf(after, other) == RecordsOf(w, other))
  }

  lemma TouchKeeps(w: World, after: World, id: nat)
    requires ExecsOk(w) && Touches(w, after, id) && id < |w.started| && ExecOk(after, id)
    ensures ExecsOk(after)
  {
    hide Consistent;
    forall other: nat | other < |after.started| ensures ExecOk(after, other) {
      if other != id {
        SameExec(w, after, other);
      }
    }
  }

  lemma LeaveLive(w: World, id: nat)
    requires OneEach(w) && id in w.execs
    ensures OneEach(Leave(w, id))
  {
  }

  lemma LeaveKeeps(w: World, id: nat)
    requires Inv(w) && id in w.execs && w.execs[id].phase.Done?
    ensures Inv(Leave(w, id))
  {
    LeaveLive(w, id);
    assert ExecOk(w, id);
    assert ExecOk(Leave(w, id), id);
    hide Consistent, OneEach, Tally, AllFailed, Updated, Received, Broke, Derived, Raising;
    TouchKeeps(w, Leave(w, id), id);
  }

  lemma PhaseLive(w: World, id: nat, e: Exec)
    requires OneEach(w) && id in w.execs && e.task == w.execs[id].task
    ensures OneEach(SetExec(w, id, e))
  {
  }

  /** Moving on without leaving a record. */
  lemma PhaseKeeps(w: World, id: nat, e: Exec)
    requires Inv(w) && id in w.execs && id < |w.started| && e.task == w.execs[id].task && ExecOk(SetExec(w, id, e), id)
    ensures Inv(SetExec(w, id, e))
  {
    PhaseLive(w, id, e);
    hide Consistent, OneEach, Tally, AllFailed, Updated, Received, Broke, Derived, Raising;
    TouchKeeps(w, SetExec(w, id, e), id);
  }

  /** The records after an attempt. */
  lemma TriedRecords(w: World, id: nat, outcome: Outcome)
    requires Inv(w) && id in w.execs && AllFailed(w.tries, id)
    ensures var tried := w.(tries := w.tries + [Try(id, outcome, w.now)]);
      && Known(tried) && RecordsOk(tried) && Touches(w, tried, id)
      && Tally(tried.tries, id) == Tally(w.tries, id) + 1 && (AllFailed(tried.tries, id) <==> outcome == Failed)
  {
    hide Consistent, OneEach, Derived, Raising, Updated, Received, Broke;
    var tries := w.tries + [Try(id, outcome, w.now)];
    forall other: nat
      ensures Tally(tries, other) == Tally(w.tries, other) + (if other == id then 1 else 0)
      ensures AllFailed(tries, other) <==> AllFailed(w.tries, other) && (other == id ==> outcome == Failed)
    {
      TallySnoc(w.tries, Try(id, outcome, w.now), other);
    }
  }

  lemma RetryKeeps(w: World, id: nat)
    requires Inv(w) && id in w.execs && w.execs[id].phase.Performing? && w.execs[id].kind == Timer
    requires w.execs[id].attempts <= Max(0, w.execs[id].row.retryMax)
    ensures forall draw :: Inv(TimerTried(w, id, Failed, draw))
  {
    assert ExecOk(w, id);
    TriedRecords(w, id, Failed);
    var e := w.execs[id];
    var waiting := e.(phase := Waiting(w.now + w.retryDelay * e.attempts));
    var tried := w.(tries := w.tries + [Try(id, Failed, w.now)]);
    assert forall draw :: TimerTried(w, id, Failed, draw) == SetExec(tried, id, waiting);
    hide TimerTried, Tally, AllFailed, RecordsOf, RecordsOk;
    assert ExecOk(SetExec(tried, id, waiting), id);
    PhaseLive(tried, id, waiting);
    SetExecRecords(tried, id, waiting);
    hide Consistent, OneEach, Known;
    TouchKeeps(w, SetExec(tried, id, waiting), id);
  }

  /** The records after the end of a timer execution. */
  lemma FinishRecords(w: World, id: nat, outcome: Outcome, draw: int)
    requires RecordsGood(w) && id in w.execs && id < |w.started| && w.started[id].row == w.execs[id].row
    requires DrawFits(w.execs[id].row.schedule, draw) && RecordsOf(w, id) == NO_RECORDS
    ensures var after := Finish(w, id, outcome, draw);
      && RecordsGood(after) && Touches(w, after, id)
      && after.execs == w.execs[id := w.execs[id].(phase := Done)] && after.running == w.running &&
         after.tries == w.tries
      && RecordsOf(after, id) == if Replan(w.execs[id].row, w.now, draw).Raised?
           then NO_RECORDS.(broke := true) else NO_RECORDS.(updated := true, received := true)
  {
    var e := w.execs[id];
    var marked := Reschedule(w, id, e.task, e.row, outcome != Skipped, draw);
    var r := Receipt(Some(id), StatusOf(outcome), e.attempts);
    var raised := Replan(e.row, w.now, draw).Raised?;
    var reported := if raised then marked else marked.(receipts := marked.receipts + [r]);
    assert Finish(w, id, outcome, draw) == SetExec(reported, id, e.(phase := Done));
    RescheduleRecords(w, id, e.task, e.row, outcome != Skipped, draw);
    hide Finish, Reschedule, Replan, RecordsGood, OnlyFor, Touches;
    if !raised {
      ReportRecorded(w, marked, id, r);
    }
    DoneRecorded(w, reported, id, e.(phase := Done));
  }

  lemma ReportRecorded(w: World, marked: World, id: nat, r: Receipt)
    requires RecordsGood(marked) && OnlyFor(w, marked, id, NO_RECORDS.(updated := true)) && r.exec == Some(id) &&
      id < |w.started|
    ensures var after := marked.(receipts := marked.receipts + [r]);
      RecordsGood(after) && OnlyFor(w, after, id, NO_RECORDS.(updated := true, received := true))
  {
    assert !RecordsOf(marked, id).received;
    ReceiptRecorded(marked, id, r);
    hide RecordsOf, RecordsGood;
  }

  /** Ending an execution after its records were made. */
  lemma DoneRecorded(w: World, reported: World, id: nat, e: Exec)
    requires RecordsGood(reported) && OnlyFor(w, reported, id, RecordsOf(reported, id)) && id in w.execs
    ensures var after := SetExec(reported, id, e);
      && RecordsGood(after) && Touches(w, after, id) && RecordsOf(after, id) == RecordsOf(reported, id)
      && after.execs == w.execs[id := e] && after.running == w.running && after.tries == w.tries
  {
    SetExecRecords(reported, id, e);
    hide RecordsGood, Tally, AllFailed, Updated, Received, Broke;
  }

  lemma SetExecRecords(w: World, id: nat, e: Exec)
    requires RecordsGood(w) && id in w.execs
    ensures RecordsGood(SetExec(w, id, e))
  {
    hide Updated, Received, Broke, UpdatedOnce, ReceivedOnce, StopsAtFirst, AllDerived, AllRaising;
  }

  lemma FinishKeeps(w: World, id: nat, outcome: Outcome, draw: int)
    requires Inv(w) && id in w.execs && w.execs[id].phase.Performing? && w.execs[id].kind == Timer
    requires DrawFits(w.execs[id].row.schedule, draw)
    ensures Inv(Finish(w.(tries := w.tries + [Try(id, outcome, w.now)]), id, outcome, draw))
  {
    assert ExecOk(w, id);
    TriedRecords(w, id, outcome);
    var tried := w.(tries := w.tries + [Try(id, outcome, w.now)]);
    assert RecordsGood(tried) && RecordsOf(tried, id) == NO_RECORDS && id < |w.started|;
    hide Finish, Replan, Tally, AllFailed, RecordsOf, RecordsGood, RecordsOk, Known;
    FinishRecords(tried, id, outcome, draw);
    TouchesTransitive(w, tried, Finish(tried, id, outcome, draw), id);
    FinishEnds(w, tried, id, Finish(tried, id, outcome, draw));
  }

  lemma TouchesTransitive(a: World, b: World, c: World, id: nat)
    requires Touches(a, b, id) && Touches(b, c, id)
    ensures Touches(a, c, id)
  {
    hide Live, RecordsOf, Tally, AllFailed;
  }

  lemma FinishEnds(w: World, tried: World, id: nat, after: World)
    requires ExecsOk(w) && OneEach(w) && Touches(w, after, id) && RecordsGood(after)
    requires id < |w.started|
    requires ExecOk(w, id) && w.execs[id].kind == Timer && w.execs[id].phase.Performing?
    requires after.tries == tried.tries && Tally(tried.tries, id) == Tally(w.tries, id) + 1
    requires after.execs == w.execs[id := w.execs[id].(phase := Done)] && after.running == w.running
    requires Closed(w.started[id], RecordsOf(after, id))
    ensures Inv(after)
  {
    var e := w.execs[id].(phase := Done);
    PhaseLive(w, id, e);
    SameLive(SetExec(w, id, e), after);
    assert after.started == w.started;
    FinishedOk(w, after, id);
    hide Tally, AllFailed, RecordsOf, RecordsOk, Known, OneEach, Consistent;
    TouchKeeps(w, after, id);
  }

  lemma FinishedOk(w: World, after: World, id: nat)
    requires id < |w.started| && after.started == w.started && id in w.execs && ExecOk(w, id)
    requires w.execs[id].kind == Timer && w.execs[id].phase.Performing? &&
      Tally(after.tries, id) == Tally(w.tries, id) + 1
    requires after.execs == w.execs[id := w.execs[id].(phase := Done)] && Closed(w.started[id], RecordsOf(after, id))
    ensures ExecOk(after, id)
  {
    hide Tally, AllFailed, RecordsOf;
  }

  /** The one receipt of a manual run, on leaving. */
  lemma LeaveRecords(w: World, id: nat, r: Receipt)
    requires RecordsGood(w) && id in w.execs && id < |w.started| && r.exec == Some(id) && !RecordsOf(w, id).received
    ensures var after := Leave(w.(receipts := w.receipts + [r]), id);
      && RecordsGood(after) && Touches(w, after, id) && RecordsOf(after, id) == RecordsOf(w, id).(received := true)
      && after.execs == Leave(w, id).execs && after.running == Leave(w, id).running
  {
    assert id !in Received(w.receipts);
    ReceiptRecorded(w, id, r);
    var reported := w.(receipts := w.receipts + [r]);
    SameRecords(reported, Leave(reported, id));
    hide Tally, AllFailed, RecordsOf, RecordsOk, Known;
  }

  lemma ManualKeeps(w: World, id: nat, outcome: Outcome)
    requires Inv(w) && id in w.execs && w.execs[id].phase.Performing? && w.execs[id].kind == Manual
    ensures Inv(ManualTried(w, id, outcome))
  {
    assert ExecOk(w, id);
    TriedRecords(w, id, outcome);
    var tried := w.(tries := w.tries + [Try(id, outcome, w.now)]);
    assert RecordsOf(tried, id) == RecordsOf(w, id);
    var r := ManualTried(w, id, outcome).receipts[|w.receipts|];
    assert ManualTried(w, id, outcome) == Leave(tried.(receipts := tried.receipts + [r]), id);
    assert RecordsGood(tried) && id < |w.started|;
    hide RecordsGood, RecordsOf, RecordsOk, Known, Tally, AllFailed, ManualTried;
    ManualLeaves(w, tried, id, r);
  }

  lemma ManualLeaves(w: World, tried: World, id: nat, r: Receipt)
    requires ExecsOk(w) && OneEach(w) && RecordsGood(tried) && Touches(w, tried, id) && id < |w.started|
    requires tried.execs == w.execs && tried.running == w.running && r.exec == Some(id) &&
      !RecordsOf(tried, id).received
    requires var closed := RecordsOf(tried, id).(received := true);
      ExecOk(w, id) && Consistent(w.started[id], None, Tally(tried.tries, id), AllFailed(tried.tries, id), closed)
    ensures Inv(Leave(tried.(receipts := tried.receipts + [r]), id))
  {
    var after := Leave(tried.(receipts := tried.receipts + [r]), id);
    LeaveRecords(tried, id, r);
    LeaveLive(w, id);
    SameLive(Leave(w, id), after);
    assert Live(after, id) == None && after.tries == tried.tries;
    hide Leave, RecordsOf, RecordsOk, Known, Tally, AllFailed, Consistent, OneEach;
    TouchKeeps(w, after, id);
  }

  lemma DropKeeps(w: World, id: nat)
    requires Inv(w) && id in w.execs && !w.execs[id].phase.Done? && w.execs[id].kind == Timer
    ensures Inv(Interrupted(w, id))
  {
    assert ExecOk(w, id);
    var e := w.execs[id].(phase := Done);
    var marked := w.(dropped := w.dropped + {id});
    assert Interrupted(w, id) == SetExec(marked, id, e) && RecordsOf(w, id) == NO_RECORDS;
    DropRecorded(w, id);
    PhaseLive(w, id, e);
    SameLive(SetExec(w, id, e), Interrupted(w, id));
    hide Interrupted, RecordsOf, RecordsOk, Known, Tally, AllFailed;
    SetExecRecords(marked, id, e);
    assert ExecOk(SetExec(marked, id, e), id);
    hide Consistent, OneEach;
    TouchKeeps(w, SetExec(marked, id, e), id);
  }

  lemma InterruptKeeps(w: World, id: nat)
    requires Inv(w) && id in w.execs && !w.execs[id].phase.Done?
    ensures Inv(Interrupted(w, id))
  {
    assert ExecOk(w, id);
    if w.execs[id].kind == Manual {
      hide RecordsOf, RecordsOk, Known, Tally, AllFailed, OneEach;
      ManualLeaves(w, w, id, Receipt(Some(id), Unknown, 1));
    } else {
      DropKeeps(w, id);
    }
  }

  lemma TurnKeeps(w: World, id: nat, outcome: Outcome, draw: int)
    requires Inv(w) && CanTurn(w, id) && DrawFits(w.execs[id].row.schedule, draw)
    ensures Inv(Turn(w, id, outcome, draw))
  {
    hide RecordsOk, OneEach, Tally, AllFailed, Updated, Received, Broke, Finish;
    var e := w.execs[id];
    assert ExecOk(w, id);
    if e.phase.Done? {
      LeaveKeeps(w, id);
    } else if e.cancelled {
      InterruptKeeps(w, id);
    } else {
      match e.phase
      case Ready => PhaseKeeps(w, id, e.(phase := Performing, attempts := 1));
      case Waiting(_) => PhaseKeeps(w, id, e.(phase := Performing, attempts := e.attempts + 1));
      case Performing =>
        if e.kind == Manual {
          ManualKeeps(w, id, outcome);
        } else if outcome == Failed && e.attempts <= Max(0, e.row.retryMax) {
          RetryKeeps(w, id);
        } else {
          FinishKeeps(w, id, outcome, draw);
        }
    }
  }

  lemma StopKeeps(w: World)
    requires Inv(w)
    ensures Inv(Stop(w))
  {
    var after := Stop(w);
    hide StopsAtFirst, UpdatedOnce, ReceivedOnce, AllDerived, AllRaising, Tally, AllFailed, Updated, Received, Broke;
    forall id: nat | id < |after.started| ensures ExecOk(after, id) {
      assert ExecOk(w, id);
    }
  }

  /** Cancelling the command of one manual run leaves its phase and its records alone. */
  lemma CancelKeeps(w: World, id: nat)
    requires Inv(w) && id in w.execs
    ensures Inv(SetExec(w, id, w.execs[id].(cancelled := true)))
  {
    assert ExecOk(w, id);
    hide Tally, AllFailed, RecordsOf, RecordsOk, OneEach;
    assert ExecOk(SetExec(w, id, w.execs[id].(cancelled := true)), id);
    PhaseKeeps(w, id, w.execs[id].(cancelled := true));
  }

  lemma WaitKeeps(w: World, micros: nat)
    requires Inv(w) && IsMoment(w.now + micros)
    ensures Inv(w.(now := w.now + micros))
  {
    var after := w.(now := w.now + micros);
    hide Consistent, OneEach;
    SameLive(w, after);
    forall id: nat | id < |w.started| ensures ExecOk(after, id) {
      SameExec(w, after, id);
    }
  }

  lemma StepKeeps(w: World, step: Step)
    requires Inv(w) && Enabled(w, step)
    ensures Inv(Next(w, step))
  {
    hide Inv;
    match step
    case Wait(micros) => WaitKeeps(w, micros);
    case Synced(tasks) => TasksKeep(w, tasks);
    case Ticked(order, draws) => TickKeeps(w, order, draws);
    case Requested(task) => StartTimerKeeps(w, task, w.tasks[task]);
    case RequestedManual(task, draw) => RunManualKeeps(w, task, draw);
    case Turned(id, outcome, draw) => TurnKeeps(w, id, outcome, draw);
    case CommandCancelled(id) => CancelKeeps(w, id);
    case Stopped => StopKeeps(w);
  }

  lemma {:induction false} PathKeeps(worlds: seq<World>, steps: seq<Step>, k: nat)
    requires Path(worlds, steps) && k <= |steps| && Inv(worlds[0])
    ensures Inv(worlds[k])
  {
    hide Inv;
    if k > 0 {
      PathKeeps(worlds, steps, k - 1);
      assert Moves(worlds, steps, k - 1);
      StepKeeps(worlds[k - 1], steps[k - 1]);
    }
  }

  lemma RunKeeps(w: World, steps: seq<Step>, end: World)
    requires Inv(w) && Reaches(w, steps, end)
    ensures Inv(end)
  {
    hide Inv;
    var worlds :| Path(worlds, steps) && worlds[0] == w && worlds[|steps|] == end;
    PathKeeps(worlds, steps, |steps|);
  }

  lemma InitHolds(w: World)
    requires Init(w)
    ensures Inv(w)
  {
  }

  // ------------------------------------------------------------ main results

  /** In every run, a task never has two live executions. */
  lemma OneExecution(w: World, steps: seq<Step>, end: World, a: nat, b: nat)
    requires Init(w) && Reaches(w, steps, end) && a in end.execs && b in end.execs
    ensures end.execs[a].task == end.execs[b].task ==> a == b
  {
    InitHolds(w);
    RunKeeps(w, steps, end);
  }

  /** In every run, an execution makes no more attempts than it may, and none after its first success or skip. */
  lemma AttemptsBounded(w: World, steps: seq<Step>, end: World, id: nat)
    requires Init(w) && Reaches(w, steps, end) && id < |end.started|
    ensures Tally(end.tries, id) <= Allowance(end.started[id])
    ensures StopsAtFirst(end.tries)
  {
    InitHolds(w);
    RunKeeps(w, steps, end);
    assert ExecOk(end, id);
  }

  /** The rescheduling of the execution raised, at some time and for some draw its schedule allows. */
  ghost predicate ReplanRaised(w: World, id: nat)
    requires id < |w.started|
  {
    exists b :: b in w.broken && b.exec == id && Raising(w.started, b)
  }

  lemma BrokeMeansRaised(w: World, id: nat)
    requires Inv(w) && id < |w.started|
    ensures id in Broke(w.broken) <==> ReplanRaised(w, id)
  {
    hide Consistent, OneEach, Known, Replan;
    if id in Broke(w.broken) {
      var b :| b in w.broken && b.exec == id;
      var i :| 0 <= i < |w.broken| && w.broken[i] == b;
      assert Raising(w.started, b);
    }
  }

  /**
   In every run, an ended timer execution has one schedule update and one
   receipt if and only if it was not cancelled and its rescheduling did not
   raise; otherwise it has neither, and not both happened.
   */
  lemma OneUpdateOneReceipt(w: World, steps: seq<Step>, end: World, id: nat)
    requires Init(w) && Reaches(w, steps, end) && id < |end.started| && id !in end.execs &&
      end.started[id].kind == Timer
    ensures UpdatedOnce(end.updates) && ReceivedOnce(end.receipts)
    ensures id in Updated(end.updates) <==> id !in end.dropped && !ReplanRaised(end, id)
    ensures id in Received(end.receipts) <==> id in Updated(end.updates)
    ensures !(id in end.dropped && ReplanRaised(end, id))
  {
    InitHolds(w);
    RunKeeps(w, steps, end);
    BrokeMeansRaised(end, id);
    assert ExecOk(end, id);
    hide Raising, Updated, Received, Broke, OneEach, Known;
  }

  /**
   In every run, a manual run has advanced the schedule before its hardware
   call, or that raised: then the call was never made and there is no receipt.
   One that advanced it has its one receipt at the end however it ends.
   */
  lemma ManualAdvancesFirst(w: World, steps: seq<Step>, end: World, id: nat)
    requires Init(w) && Reaches(w, steps, end) && id < |end.started| && end.started[id].kind == Manual
    ensures id in Updated(end.updates) <==> !ReplanRaised(end, id)
    ensures UpdatedOnce(end.updates) && ReceivedOnce(end.receipts)
    ensures id in Received(end.receipts) <==> id !in end.execs && !ReplanRaised(end, id)
    ensures ReplanRaised(end, id) ==> id !in end.execs && Tally(end.tries, id) == 0
  {
    InitHolds(w);
    RunKeeps(w, steps, end);
    BrokeMeansRaised(end, id);
    assert ExecOk(end, id);
    hide Raising, Updated, Received, Broke, OneEach, Known;
  }

  /**
   In every run, a stored next run is never before the completion it was
   planned at, in whole seconds: it is the second of the schedule's own moment
   counted from the completion and moved by at most the jitter, or of the
   completion when that moment lies before it. Nothing is stored exactly when
   the schedule names no moment.
   */
  lemma NextRunNotBefore(w: World, steps: seq<Step>, end: World, i: nat)
    requires Init(w) && Reaches(w, steps, end) && i < |end.updates|
    ensures var u := end.updates[i];
      u.exec < |end.started| &&
      var s := end.started[u.exec].row.schedule;
      var own := OwnMoment(s, u.at);
      && -Spread(s) <= u.draw <= Spread(s)
      && !own.Raised? && (own.Unusable? ==> u.nextRun == None)
      && (own.At? ==>
            var moved := Max(Moved(s, own.moment, u.draw), u.at);
            IsMoment(moved) && u.nextRun == Some(Whole(moved)) && Whole(moved) >= Whole(u.at))
  {
    InitHolds(w);
    RunKeeps(w, steps, end);
    var u := end.updates[i];
    assert Derived(end.started, u);
    hide Inv, OwnMoment, NextRun;
    var s := end.started[u.exec].row.schedule;
    FloorDecides(s, u.at, u.at, u.draw);
  }

  // ------------------------------------------------------------ what a tick starts

  /** The task is one the tick looks at: stored, enabled, idle. */
  predicate Open(w: World, task: int) {
    task in w.tasks && w.tasks[task].enabled && task !in w.running
  }

  ghost function PlanOf(w: World, task: int, draw: int): Plan
    requires task in w.tasks
  {
    NextRun(w.tasks[task].schedule, Anchor(w.tasks[task], w.now), w.now, draw)
  }

  /** The task is due by its stored time or by the plan just made. */
  ghost predicate DueNow(w: World, task: int, draw: int) {
    && Open(w, task)
    && (if w.tasks[task].nextRun.Some? then MomentOf(w.tasks[task].nextRun.value) <= w.now
        else PlanOf(w, task, draw).At? && PlanOf(w, task, draw).moment <= w.now)
  }

  /** Planning the task leaves the calendar, by its expression, its anchor and the draw. */
  ghost predicate PlanRaises(w: World, task: int, draw: int) {
    && Open(w, task) && w.tasks[task].nextRun.None?
    && LeavesCalendar(w.tasks[task].schedule, Anchor(w.tasks[task], w.now), draw)
  }

  /** Tasks not asked about are left alone. */
  lemma {:induction false} TickLeavesOthers(w: World, order: seq<int>, draws: seq<int>, task: int)
    requires |draws| == |order| && task !in order
    ensures var after := Tick(w, order, draws).world;
      && after.now == w.now
      && (task in after.tasks <==> task in w.tasks) && (task in w.tasks ==> after.tasks[task] == w.tasks[task])
      && (task in after.running <==> task in w.running)
    decreases |order|
  {
    hide TickTask;
    if order != [] {
      var last := |order| - 1;
      assert order[last] in order && forall t :: t in order[..last] ==> t in order;
      TickLeavesOthers(w, order[..last], draws[..last], task);
      TickTaskLeaves(Tick(w, order[..last], draws[..last]).world, order[last], draws[last], task);
    }
  }

  lemma TickTaskLeaves(w: World, asked: int, draw: int, task: int)
    requires task != asked
    ensures var after := TickTask(w, asked, draw).world;
      && after.now == w.now
      && (task in after.tasks <==> task in w.tasks) && (task in w.tasks ==> after.tasks[task] == w.tasks[task])
      && (task in after.running <==> task in w.running)
  {
    hide NextRun;
  }

  ghost predicate Distinct(order: seq<int>) {
    forall i, j :: 0 <= i < j < |order| ==> order[i] != order[j]
  }

  /** What the tick sees of the last task is what was there before the tick. */
  lemma LastAsBefore(w: World, order: seq<int>, draws: seq<int>)
    requires |draws| == |order| && Distinct(order) && order != []
    ensures var last := |order| - 1;
      var before := Tick(w, order[..last], draws[..last]).world;
      && (DueNow(before, order[last], draws[last]) <==> DueNow(w, order[last], draws[last]))
      && (PlanRaises(before, order[last], draws[last]) <==> PlanRaises(w, order[last], draws[last]))
      && (order[last] in before.running <==> order[last] in w.running)
      && (order[last] in w.tasks ==> order[last] in before.tasks && before.tasks[order[last]] == w.tasks[order[last]])
      && before.now == w.now
  {
    hide NextRun, LeavesCalendar;
    TickLeavesOthers(w, order[..|order| - 1], draws[..|order| - 1], order[|order| - 1]);
  }

  /** One task's turn in a tick. */
  lemma TaskTurn(w: World, task: int, draw: int)
    ensures var after := TickTask(w, task, draw);
      && (after.raised <==> PlanRaises(w, task, draw))
      && (task in after.world.running && task !in w.running <==> DueNow(w, task, draw))
      && (forall t :: t != task ==> (t in after.world.running <==> t in w.running))
  {
    hide NextRun, LeavesCalendar;
    if task in w.tasks {
      RaisesIff(w.tasks[task].schedule, Anchor(w.tasks[task], w.now), w.now, draw);
    }
  }

  /** The last task of a tick, given the tick up to it. */
  lemma TickStep(w: World, order: seq<int>, draws: seq<int>)
    requires |draws| == |order| && Distinct(order) && order != []
    ensures var last := |order| - 1;
      var before, after := Tick(w, order[..last], draws[..last]), Tick(w, order, draws);
      && (after.raised <==> before.raised || PlanRaises(w, order[last], draws[last]))
      && (order[last] in after.world.running && order[last] !in w.running <==>
         !before.raised && DueNow(w, order[last], draws[last]))
      && (forall t :: t != order[last] ==> (t in after.world.running <==> t in before.world.running))
  {
    hide TickTask, DueNow, PlanRaises;
    LastAsBefore(w, order, draws);
    var last := |order| - 1;
    TaskTurn(Tick(w, order[..last], draws[..last]).world, order[last], draws[last]);
  }

  /** A tick raises exactly when planning one of the tasks does. */
  lemma {:induction false} TickRaisesIff(w: World, order: seq<int>, draws: seq<int>)
    requires |draws| == |order| && Distinct(order)
    ensures Tick(w, order, draws).raised <==> exists i :: 0 <= i < |order| && PlanRaises(w, order[i], draws[i])
    decreases |order|
  {
    hide NextRun, TickTask, PlanRaises, DueNow;
    if order != [] {
      var last := |order| - 1;
      TickRaisesIff(w, order[..last], draws[..last]);
      TickStep(w, order, draws);
      hide Tick;
      PrefixRaises(w, order, draws, last);
    }
  }

  lemma PrefixRaises(w: World, order: seq<int>, draws: seq<int>, n: nat)
    requires |draws| == |order| && n <= |order|
    ensures (exists i :: 0 <= i < n && PlanRaises(w, order[..n][i], draws[..n][i]))
      <==> exists i :: 0 <= i < n && PlanRaises(w, order[i], draws[i])
  {
    hide PlanRaises;
    if i :| 0 <= i < n && PlanRaises(w, order[..n][i], draws[..n][i]) {
      assert PlanRaises(w, order[i], draws[i]);
    }
    if i :| 0 <= i < n && PlanRaises(w, order[i], draws[i]) {
      assert PlanRaises(w, order[..n][i], draws[..n][i]);
    }
  }

  /** A tick starts exactly the due tasks that no task with a raising plan precedes. */
  lemma {:induction false} TickStartsDue(w: World, order: seq<int>, draws: seq<int>, i: nat)
    requires |draws| == |order| && Distinct(order) && i < |order|
    ensures order[i] in Tick(w, order, draws).world.running && order[i] !in w.running
      <==> DueNow(w, order[i], draws[i]) && forall j :: 0 <= j < i ==> !PlanRaises(w, order[j], draws[j])
    decreases |order|
  {
    hide Tick, PlanRaises, DueNow;
    var last := |order| - 1;
    TickStep(w, order, draws);
    if i < last {
      TickStartsDue(w, order[..last], draws[..last], i);
      PrefixDue(w, order, draws, last, i);
    } else {
      NoneRaisesBefore(w, order, draws, last);
    }
  }

  /** Being due, and following no raising row, are the same seen from the front of the rows. */
  lemma PrefixDue(w: World, order: seq<int>, draws: seq<int>, n: nat, i: nat)
    requires |draws| == |order| && i < n <= |order|
    ensures order[..n][i] == order[i] && (DueNow(w, order[..n][i], draws[..n][i]) <==> DueNow(w, order[i], draws[i]))
    ensures (forall j :: 0 <= j < i ==> !PlanRaises(w, order[..n][j], draws[..n][j]))
      <==> forall j :: 0 <= j < i ==> !PlanRaises(w, order[j], draws[j])
  {
    hide PlanRaises, DueNow;
    assert forall j :: 0 <= j < n ==> order[..n][j] == order[j] && draws[..n][j] == draws[j];
  }

  lemma NoneRaisesBefore(w: World, order: seq<int>, draws: seq<int>, n: nat)
    requires |draws| == |order| && Distinct(order) && n <= |order|
    ensures Tick(w, order[..n], draws[..n]).raised <==> exists j :: 0 <= j < n && PlanRaises(w, order[j], draws[j])
  {
    hide Tick, PlanRaises, DueNow;
    TickRaisesIff(w, order[..n], draws[..n]);
    PrefixRaises(w, order, draws, n);
  }

  /** So a tick starts every due task if and only if no due task comes after one whose plan raises. */
  lemma TickStartsAllDueIff(w: World, order: seq<int>, draws: seq<int>)
    requires |draws| == |order| && Distinct(order)
    ensures (forall i :: 0 <= i < |order| && DueNow(w, order[i], draws[i]) ==>
      order[i] in Tick(w, order, draws).world.running)
      <==> (forall i, j :: 0 <= j < i < |order| && DueNow(w, order[i], draws[i]) ==> !PlanRaises(w, order[j], draws[j]))
  {
    hide Tick, PlanRaises;
    forall i | 0 <= i < |order| && DueNow(w, order[i], draws[i])
      ensures order[i] in Tick(w, order, draws).world.running
        <==> forall j :: 0 <= j < i ==> !PlanRaises(w, order[j], draws[j])
    {
      TickStartsDue(w, order, draws, i);
    }
  }

  /** The execution was started from task order[i], due by what the tick read. */
  ghost predicate StartedFrom(w: World, order: seq<int>, draws: seq<int>, s: Started, i: nat)
    requires |draws| == |order|
  {
    i < |order| && s.task == order[i] && DueNow(w, s.task, draws[i]) &&
      s == Started(s.task, w.tasks[s.task], Timer, w.now)
  }

  lemma StartsOne(w: World, before: World, task: int, draw: int)
    requires before.now == w.now && (task in before.tasks <==> task in w.tasks) &&
      (task in w.tasks ==> before.tasks[task] == w.tasks[task])
    requires task in before.running <==> task in w.running
    ensures var after := TickTask(before, task, draw).world;
      after.started == before.started
      || (DueNow(w, task, draw) && after.started == before.started + [Started(task, w.tasks[task], Timer, w.now)])
  {
    hide NextRun;
  }

  /** Every execution a tick starts is of a due task it was asked about, from the row it read. */
  lemma {:induction false} TickStartsFromRows(w: World, order: seq<int>, draws: seq<int>, id: nat) returns (i: nat)
    requires |draws| == |order| && Distinct(order) && |w.started| <= id < |Tick(w, order, draws).world.started|
    ensures StartedFrom(w, order, draws, Tick(w, order, draws).world.started[id], i)
    decreases |order|
  {
    var last := |order| - 1;
    var before := Tick(w, order[..last], draws[..last]);
    TickLeavesOthers(w, order[..last], draws[..last], order[last]);
    StartsOne(w, before.world, order[last], draws[last]);
    hide TickTask, DueNow;
    if id < |before.world.started| {
      i := TickStartsFromRows(w, order[..last], draws[..last], id);
    } else {
      i := last;
    }
  }

  // ------------------------------------------------------------ a schedule that raises

  const FAR := Schedule("interval", "4000000", Finite(4000000.0), 0)

  /** Eleven thousand years from any moment lie past the calendar. */
  lemma FarRaises(after: Moment, floor: Moment, draw: int)
    ensures NextRun(FAR, after, floor, draw) == Raised
  {
    assert Text.Strip("4000000") != "" by {
      assert "4000000"[0] == '4' && !Text.IsSpace('4');
    }
    assert IntervalMicros(4000000.0) == 4000000 * MICROS_PER_DAY;
  }

  /**
   The input: an enabled interval task of 4000000 days that was never planned,
   listed before a task that is due. Every tick raises, leaves both rows as
   they were and starts nothing, whatever the draws and however late it is.
   */
  lemma FarStarves(w: World, due: int, draws: seq<int>)
    requires 1 < due && w.running == map[] && |draws| == 2
    requires w.tasks.Keys == {1, due}
    requires w.tasks[1].enabled && w.tasks[1].schedule == FAR && w.tasks[1].nextRun == None
    requires w.tasks[due].enabled && w.tasks[due].nextRun.Some? && MomentOf(w.tasks[due].nextRun.value) <= w.now
    ensures Listed(w.tasks, [1, due]) && DueNow(w, due, draws[1])
    ensures Tick(w, [1, due], draws) == Ticking(w, true)
  {
    var order := [1, due];
    assert order[..1] == [1] && order[..1][..0] == [];
    FarRaises(Anchor(w.tasks[1], w.now), w.now, draws[0]);
    hide NextRun;
    assert Tick(w, [1], draws[..1]) == Ticking(w, true);
  }
}
