/** What the scheduler's receipts and schedule updates say, and when it retries, over every run. */
module SchedulerReports {
  import opened Basics
  import opened Plans
  import opened Scheduler
  import opened SchedulerSafety

  // ------------------------------------------------------------ what a record should say

  function LastTry(tries: seq<Try>, id: nat): Option<Try> {
    if tries == [] then None
    else if tries[|tries| - 1].exec == id then Some(tries[|tries| - 1])
    else LastTry(tries[..|tries| - 1], id)
  }

  /**
   A receipt says how the last attempt went and how many there were; a failure
   is reported once no attempt is left. A manual run that failed, or was
   cancelled, is unknown, and a skipped one counts no attempt. A receipt of no
   execution is that of a schedule that cannot be used.
   */
  ghost predicate ReceiptTells(started: seq<Started>, tries: seq<Try>, r: Receipt) {
    match r.exec
    case None => r.status == WasSkipped && r.attempts == 0
    case Some(id) =>
      id < |started| &&
      var last := LastTry(tries, id);
      if started[id].kind == Timer then
        last.Some? && r.attempts == Tally(tries, id) &&
        match last.value.outcome
        case Succeeded => r.status == WasOk
        case Skipped => r.status == WasSkipped
        case Failed => r.status == HasFailed && r.attempts == Max(0, started[id].row.retryMax) + 1
      else if last.None? then r.status == Unknown && r.attempts == 1
      else
        match last.value.outcome
        case Succeeded => r.status == WasOk && r.attempts == 1
        case Skipped => r.status == WasSkipped && r.attempts == 0
        case Failed => r.status == Unknown && r.attempts == 1
  }

  /**
   An update is made at the end of the last attempt and records that time as
   the last run, unless the attempt was skipped: then the last run stays. A
   manual run is recorded when it starts.
   */
  ghost predicate UpdateTells(started: seq<Started>, tries: seq<Try>, u: Update) {
    u.exec < |started| &&
    if started[u.exec].kind == Manual then u.at == started[u.exec].at && u.lastRun == Some(Whole(u.at))
    else
      var last := LastTry(tries, u.exec);
      last.Some? && u.at == last.value.at
      && u.lastRun == if last.value.outcome == Skipped then started[u.exec].row.lastRun else Some(Whole(u.at))
  }

  ghost predicate ReceiptsTell(w: World) {
    forall i :: 0 <= i < |w.receipts| ==> ReceiptTells(w.started, w.tries, w.receipts[i])
  }

  ghost predicate UpdatesTell(w: World) {
    forall i :: 0 <= i < |w.updates| ==> UpdateTells(w.started, w.tries, w.updates[i])
  }

  /** Attempt j ended no sooner than the delay, times the attempts before it, after the one before it. */
  ghost predicate SpacedAt(tries: seq<Try>, delay: nat, j: nat)
    requires j < |tries|
  {
    var before := LastTry(tries[..j], tries[j].exec);
    before.Some? ==> tries[j].at >= before.value.at + delay * Tally(tries[..j], tries[j].exec)
  }

  ghost predicate Spaced(tries: seq<Try>, delay: nat) {
    forall j :: 0 <= j < |tries| ==> SpacedAt(tries, delay, j)
  }

  /** A waiting execution goes on exactly the delay, times its attempts so far, after the last of them. */
  ghost predicate WaitsRight(tries: seq<Try>, delay: nat, now: int, id: nat, e: Exec) {
    var last := LastTry(tries, id);
    match e.phase
    case Waiting(until) => last.Some? && until == last.value.at + delay * e.attempts
    case Performing => last.Some? ==> now >= last.value.at + delay * (e.attempts - 1)
    case _ => true
  }

  ghost predicate AllWaitRight(w: World) {
    forall id :: id in w.execs ==> WaitsRight(w.tries, w.retryDelay, w.now, id, w.execs[id])
  }

  ghost predicate Reports(w: World) {
    ReceiptsTell(w) && UpdatesTell(w) && Spaced(w.tries, w.retryDelay) && AllWaitRight(w)
  }

  // ------------------------------------------------------------ growing records

  lemma LastSnoc(tries: seq<Try>, t: Try, id: nat)
    ensures LastTry(tries + [t], id) == if t.exec == id then Some(t) else LastTry(tries, id)
    ensures Tally(tries + [t], id) == Tally(tries, id) + if t.exec == id then 1 else 0
  {
    assert (tries + [t])[..|tries|] == tries;
  }

  lemma {:induction false} NoLast(tries: seq<Try>, id: nat)
    ensures Tally(tries, id) == 0 <==> LastTry(tries, id) == None
  {
    if tries != [] {
      NoLast(tries[..|tries| - 1], id);
    }
  }

  /** An attempt of an execution without receipt, and without update if it is a timer one, unsays nothing. */
  lemma TriedTells(w: World, t: Try)
    requires Reports(w) && t.exec < |w.started| && t.exec !in Received(w.receipts)
    requires w.started[t.exec].kind == Timer ==> t.exec !in Updated(w.updates)
    requires var last := LastTry(w.tries, t.exec);
      last.Some? ==> t.at >= last.value.at + w.retryDelay * Tally(w.tries, t.exec)
    ensures var tried := w.(tries := w.tries + [t]);
      ReceiptsTell(tried) && UpdatesTell(tried) && Spaced(tried.tries, w.retryDelay)
  {
    var tries := w.tries + [t];
    forall i | 0 <= i < |w.receipts| ensures ReceiptTells(w.started, tries, w.receipts[i]) {
      var r := w.receipts[i];
      assert r in w.receipts && ReceiptTells(w.started, w.tries, r);
      if r.exec.Some? {
        LastSnoc(w.tries, t, r.exec.value);
      }
    }
    forall i | 0 <= i < |w.updates| ensures UpdateTells(w.started, tries, w.updates[i]) {
      var u := w.updates[i];
      assert u in w.updates && UpdateTells(w.started, w.tries, u);
      LastSnoc(w.tries, t, u.exec);
    }
    hide ReceiptTells, UpdateTells;
    forall j | 0 <= j < |tries| ensures SpacedAt(tries, w.retryDelay, j) {
      assert tries[..j] == w.tries[..j];
      assert j == |w.tries| ==> w.tries[..j] == w.tries;
      if j < |w.tries| {
        assert SpacedAt(w.tries, w.retryDelay, j);
      }
    }
  }

  /** Whatever leaves the records alone, lets time pass and sets phases that wait as they should, keeps the reports. */
  lemma SameReports(w: World, after: World)
    requires Reports(w) && after.tries == w.tries && after.receipts == w.receipts && after.updates == w.updates
    requires |w.started| <= |after.started| && after.started[..|w.started|] == w.started
    requires after.retryDelay == w.retryDelay && w.now <= after.now
    requires forall id :: id in after.execs ==>
      || (id in w.execs && after.execs[id] == w.execs[id].(cancelled := after.execs[id].cancelled))
      || WaitsRight(after.tries, after.retryDelay, after.now, id, after.execs[id])
    ensures Reports(after)
  {
    assert forall id: nat :: id < |w.started| ==> after.started[id] == w.started[id];
    forall i | 0 <= i < |w.receipts| ensures ReceiptTells(after.started, w.tries, w.receipts[i]) {
      assert ReceiptTells(w.started, w.tries, w.receipts[i]);
    }
    forall i | 0 <= i < |w.updates| ensures UpdateTells(after.started, w.tries, w.updates[i]) {
      assert UpdateTells(w.started, w.tries, w.updates[i]);
    }
    hide ReceiptTells, UpdateTells;
    forall id | id in after.execs
      ensures WaitsRight(after.tries, after.retryDelay, after.now, id, after.execs[id])
    {
      assert id in w.execs ==> WaitsRight(w.tries, w.retryDelay, w.now, id, w.execs[id]);
    }
  }

  lemma ReceiptTold(w: World, r: Receipt)
    requires Reports(w) && ReceiptTells(w.started, w.tries, r)
    ensures Reports(w.(receipts := w.receipts + [r]))
  {
    hide ReceiptTells, UpdateTells, Spaced, WaitsRight;
  }

  lemma UpdateTold(w: World, u: Update, tasks: map<int, Row>)
    requires Reports(w) && UpdateTells(w.started, w.tries, u)
    ensures Reports(w.(updates := w.updates + [u], tasks := tasks))
  {
    hide ReceiptTells, UpdateTells, Spaced, WaitsRight;
  }

  // ------------------------------------------------------------ the steps

  lemma StartTells(w: World, task: int, row: Row, kind: Kind)
    requires Inv(w) && Reports(w)
    ensures Reports(Start(w, task, row, kind))
  {
    var after, id := Start(w, task, row, kind), |w.started|;
    NoTries(w.tries, id);
    NoLast(w.tries, id);
    hide Reports, Inv;
    SameReports(w, after);
  }

  lemma RescheduleTells(w: World, id: nat, task: int, row: Row, ran: bool, draw: int)
    requires Reports(w)
    requires UpdateTells(w.started, w.tries,
      Update(id, w.now, draw, if ran then Some(Whole(w.now)) else row.lastRun, Stored(Replan(row, w.now, draw))))
    ensures Reports(Reschedule(w, id, task, row, ran, draw))
  {
    hide Reports, Replan, UpdateTells;
    var plan := Replan(row, w.now, draw);
    if plan.Raised? {
      SameReports(w, w.(broken := w.broken + [Break(id, w.now, draw)]));
    } else {
      var tasks := Reschedule(w, id, task, row, ran, draw).tasks;
      UpdateTold(w, Update(id, w.now, draw, if ran then Some(Whole(w.now)) else row.lastRun, Stored(plan)), tasks);
    }
  }

  lemma ManualTells(w: World, task: int, draw: int)
    requires Inv(w) && Reports(w) && CanRun(w, task)
    ensures Reports(RunManual(w, task, draw))
  {
    hide Reports, Inv, Replan, Reschedule;
    var row, id := w.tasks[task], |w.started|;
    var begun := Start(w, task, row, Manual);
    StartTells(w, task, row, Manual);
    RescheduleTells(begun, id, task, row, true, draw);
    var after := Reschedule(begun, id, task, row, true, draw);
    RescheduleKeepsExecs(begun, id, task, row, true, draw);
    if Replan(row, w.now, draw).Raised? {
      SameReports(after, Leave(after, id));
    }
  }

  lemma RescheduleKeepsExecs(w: World, id: nat, task: int, row: Row, ran: bool, draw: int)
    ensures var after := Reschedule(w, id, task, row, ran, draw);
      && after.execs == w.execs && after.started == w.started && after.tries == w.tries && after.now == w.now
      && after.retryDelay == w.retryDelay && after.receipts == w.receipts
  {
  }

  lemma TickTaskTells(w: World, task: int, draw: int)
    requires Inv(w) && Reports(w)
    ensures Reports(TickTask(w, task, draw).world)
  {
    hide Inv, NextRun, Reports;
    if task in w.tasks && w.tasks[task].enabled && task !in w.running {
      var row := w.tasks[task];
      var plan := NextRun(row.schedule, Anchor(row, w.now), w.now, draw);
      StartTells(w, task, row, Timer);
      ReceiptTold(w, Receipt(None, WasSkipped, 0));
      if plan.At? {
        var planned := w.(tasks := w.tasks[task := row.(nextRun := Some(Whole(plan.moment)))]);
        SameReports(w, planned);
        TasksKeep(w, planned.tasks);
        StartTells(planned, task, row, Timer);
      }
    }
  }

  lemma {:induction false} TickTells(w: World, order: seq<int>, draws: seq<int>)
    requires Inv(w) && Reports(w) && |draws| == |order|
    ensures Reports(Tick(w, order, draws).world)
    decreases |order|
  {
    hide Inv, Reports, TickTask;
    if order != [] {
      var last := |order| - 1;
      TickTells(w, order[..last], draws[..last]);
      TickKeeps(w, order[..last], draws[..last]);
      TickTaskTells(Tick(w, order[..last], draws[..last]).world, order[last], draws[last]);
    }
  }

  /** What the scheduler's invariant says of an execution that is performing. */
  lemma PerformingFacts(w: World, id: nat)
    requires Inv(w) && id in w.execs && w.execs[id].phase.Performing?
    ensures id < |w.started| && w.execs[id].row == w.started[id].row && w.execs[id].kind == w.started[id].kind
    ensures w.execs[id].attempts == Tally(w.tries, id) + 1 <= Allowance(w.started[id])
    ensures id !in Received(w.receipts) && (w.started[id].kind == Timer ==> id !in Updated(w.updates))
  {
    assert ExecOk(w, id);
    hide RecordsOk, OneEach, Tally, AllFailed, Updated, Received, Broke;
  }

  /** The attempt that came back is in the records, and unsays nothing. */
  lemma AttemptTells(w: World, id: nat, outcome: Outcome)
    requires Inv(w) && Reports(w) && id in w.execs && w.execs[id].phase.Performing?
    ensures var tried := w.(tries := w.tries + [Try(id, outcome, w.now)]);
      && ReceiptsTell(tried) && UpdatesTell(tried) && Spaced(tried.tries, w.retryDelay)
      && LastTry(tried.tries, id) == Some(Try(id, outcome, w.now)) && Tally(tried.tries, id) == w.execs[id].attempts
      && forall other :: other in w.execs && other != id ==>
           WaitsRight(tried.tries, w.retryDelay, w.now, other, w.execs[other])
  {
    PerformingFacts(w, id);
    hide Inv;
    var t := Try(id, outcome, w.now);
    assert WaitsRight(w.tries, w.retryDelay, w.now, id, w.execs[id]);
    NoLast(w.tries, id);
    TriedTells(w, t);
    LastSnoc(w.tries, t, id);
    hide ReceiptsTell, UpdatesTell, Spaced;
    forall other | other in w.execs && other != id
      ensures WaitsRight(w.tries + [t], w.retryDelay, w.now, other, w.execs[other])
    {
      assert WaitsRight(w.tries, w.retryDelay, w.now, other, w.execs[other]);
      LastSnoc(w.tries, t, other);
    }
  }

  /** With the execution's own phase set, all is told. */
  lemma TriedReports(w: World, id: nat, outcome: Outcome, e: Exec)
    requires Inv(w) && Reports(w) && id in w.execs && w.execs[id].phase.Performing?
    requires WaitsRight(w.tries + [Try(id, outcome, w.now)], w.retryDelay, w.now, id, e)
    ensures Reports(SetExec(w.(tries := w.tries + [Try(id, outcome, w.now)]), id, e))
  {
    AttemptTells(w, id, outcome);
    hide Inv, WaitsRight, ReceiptTells, UpdateTells, Spaced, LastTry, Tally;
  }

  lemma TimerTells(w: World, id: nat, outcome: Outcome, draw: int)
    requires Inv(w) && Reports(w) && id in w.execs && w.execs[id].phase.Performing? && w.execs[id].kind == Timer
    ensures Reports(TimerTried(w, id, outcome, draw))
  {
    hide Inv, Reports, Replan, Reschedule, LastTry, Tally;
    var e := w.execs[id];
    PerformingFacts(w, id);
    AttemptTells(w, id, outcome);
    var tried := w.(tries := w.tries + [Try(id, outcome, w.now)]);
    if outcome == Failed && e.attempts <= Max(0, e.row.retryMax) {
      TriedReports(w, id, outcome, e.(phase := Waiting(w.now + w.retryDelay * e.attempts)));
    } else {
      var done := e.(phase := Done);
      TriedReports(w, id, outcome, done);
      FinishTells(SetExec(tried, id, done), tried, id, outcome, draw);
    }
  }

  /** The update and the receipt at the end tell the last attempt. */
  lemma FinishTells(done: World, tried: World, id: nat, outcome: Outcome, draw: int)
    requires id in tried.execs && done == SetExec(tried, id, tried.execs[id].(phase := Done)) && Reports(done)
    requires id < |tried.started| && tried.started[id].kind == Timer && tried.execs[id].row == tried.started[id].row
    requires LastTry(tried.tries, id) == Some(Try(id, outcome, tried.now))
    requires Tally(tried.tries, id) == tried.execs[id].attempts
    requires outcome == Failed ==> tried.execs[id].attempts == Max(0, tried.started[id].row.retryMax) + 1
    ensures Reports(Finish(tried, id, outcome, draw))
  {
    hide Reports, Replan, LastTry, Tally;
    var e := tried.execs[id];
    var after := Reschedule(done, id, e.task, e.row, outcome != Skipped, draw);
    RescheduleTells(done, id, e.task, e.row, outcome != Skipped, draw);
    if !Replan(e.row, tried.now, draw).Raised? {
      ReceiptTold(after, Receipt(Some(id), StatusOf(outcome), e.attempts));
    }
  }

  lemma ManualTriedTells(w: World, id: nat, outcome: Outcome)
    requires Inv(w) && Reports(w) && id in w.execs && w.execs[id].phase.Performing? && w.execs[id].kind == Manual
    ensures Reports(ManualTried(w, id, outcome))
  {
    hide Inv, Reports, LastTry, Tally;
    PerformingFacts(w, id);
    AttemptTells(w, id, outcome);
    var done := SetExec(w.(tries := w.tries + [Try(id, outcome, w.now)]), id, w.execs[id].(phase := Done));
    TriedReports(w, id, outcome, w.execs[id].(phase := Done));
    var r := ManualTried(w, id, outcome).receipts[|w.receipts|];
    ReceiptTold(done, r);
    SameReports(done.(receipts := done.receipts + [r]), ManualTried(w, id, outcome));
  }

  lemma InterruptTells(w: World, id: nat)
    requires Inv(w) && Reports(w) && id in w.execs && !w.execs[id].phase.Done?
    ensures Reports(Interrupted(w, id))
  {
    if w.execs[id].kind == Manual {
      assert ExecOk(w, id);
      assert w.execs[id].phase.Performing? && Tally(w.tries, id) == 0;
      NoLast(w.tries, id);
      hide Inv, Reports, LastTry, Tally;
      ReceiptTold(w, Receipt(Some(id), Unknown, 1));
      SameReports(w.(receipts := w.receipts + [Receipt(Some(id), Unknown, 1)]), Interrupted(w, id));
    } else {
      hide Inv, Reports;
      SameReports(w, Interrupted(w, id));
    }
  }

  /** A retry begins when the wait is over. */
  lemma RetryTells(w: World, id: nat)
    requires Inv(w) && Reports(w) && CanTurn(w, id) && !w.execs[id].cancelled && w.execs[id].phase.Waiting?
    ensures Reports(SetExec(w, id, w.execs[id].(phase := Performing, attempts := w.execs[id].attempts + 1)))
  {
    assert WaitsRight(w.tries, w.retryDelay, w.now, id, w.execs[id]);
    hide Inv, Reports, LastTry;
    SameReports(w, SetExec(w, id, w.execs[id].(phase := Performing, attempts := w.execs[id].attempts + 1)));
  }

  lemma FirstTells(w: World, id: nat)
    requires Inv(w) && Reports(w) && id in w.execs && w.execs[id].phase.Ready?
    ensures Reports(SetExec(w, id, w.execs[id].(phase := Performing, attempts := 1)))
  {
    assert ExecOk(w, id) && Tally(w.tries, id) == 0;
    NoLast(w.tries, id);
    hide Inv, Reports, LastTry, Tally;
    SameReports(w, SetExec(w, id, w.execs[id].(phase := Performing, attempts := 1)));
  }

  lemma TurnTells(w: World, id: nat, outcome: Outcome, draw: int)
    requires Inv(w) && Reports(w) && CanTurn(w, id)
    ensures Reports(Turn(w, id, outcome, draw))
  {
    hide Inv, Reports, TimerTried, ManualTried, Interrupted;
    var e := w.execs[id];
    if e.phase.Done? {
      SameReports(w, Leave(w, id));
    } else if e.cancelled {
      InterruptTells(w, id);
    } else {
      match e.phase
      case Ready => FirstTells(w, id);
      case Waiting(_) => RetryTells(w, id);
      case Performing =>
        if e.kind == Manual { ManualTriedTells(w, id, outcome); } else { TimerTells(w, id, outcome, draw); }
    }
  }

  /** Every step keeps the reports true. */
  lemma StepTells(w: World, step: Step)
    requires Inv(w) && Reports(w) && Enabled(w, step)
    ensures Reports(Next(w, step))
  {
    hide Inv, Reports, Tick, RunManual, Turn;
    match step
    case Wait(micros) => SameReports(w, w.(now := w.now + micros));
    case Synced(tasks) => SameReports(w, w.(tasks := tasks));
    case Ticked(order, draws) => TickTells(w, order, draws);
    case Requested(task) => StartTells(w, task, w.tasks[task], Timer);
    case RequestedManual(task, draw) => ManualTells(w, task, draw);
    case Turned(id, outcome, draw) => TurnTells(w, id, outcome, draw);
    case CommandCancelled(id) => SameReports(w, SetExec(w, id, w.execs[id].(cancelled := true)));
    case Stopped => SameReports(w, Stop(w));
  }

  // ------------------------------------------------------------ over every run

  lemma {:induction false} PathTells(worlds: seq<World>, steps: seq<Step>, k: nat)
    requires Path(worlds, steps) && k <= |steps| && Inv(worlds[0]) && Reports(worlds[0])
    ensures Inv(worlds[k]) && Reports(worlds[k])
  {
    hide Inv, Reports, Enabled, Next;
    PathKeeps(worlds, steps, k);
    if k > 0 {
      PathTells(worlds, steps, k - 1);
      assert Moves(worlds, steps, k - 1);
      StepTells(worlds[k - 1], steps[k - 1]);
    }
  }

  lemma RunTells(w: World, steps: seq<Step>, end: World)
    requires Init(w) && Reaches(w, steps, end)
    ensures Inv(end) && Reports(end)
  {
    InitHolds(w);
    assert Reports(w);
    hide Inv, Reports, Init;
    var worlds :| Path(worlds, steps) && worlds[0] == w && worlds[|steps|] == end;
    PathTells(worlds, steps, |steps|);
  }

  /** In every run each receipt says how its execution went. */
  lemma ReceiptsAreTrue(w: World, steps: seq<Step>, end: World, r: Receipt)
    requires Init(w) && Reaches(w, steps, end) && r in end.receipts
    ensures ReceiptTells(end.started, end.tries, r)
  {
    RunTells(w, steps, end);
    hide Reaches, Inv, ReceiptTells;
    var i :| 0 <= i < |end.receipts| && end.receipts[i] == r;
  }

  /** In every run each schedule update records the run, unless it was skipped. */
  lemma UpdatesAreTrue(w: World, steps: seq<Step>, end: World, u: Update)
    requires Init(w) && Reaches(w, steps, end) && u in end.updates
    ensures UpdateTells(end.started, end.tries, u)
  {
    RunTells(w, steps, end);
    hide Reaches, Inv, UpdateTells;
    var i :| 0 <= i < |end.updates| && end.updates[i] == u;
  }

  /**
   In every run a retry may begin exactly the delay, times the attempts so far,
   after the last of them ended; and it ends no sooner than that.
   */
  lemma RetriesAreDelayed(w: World, steps: seq<Step>, end: World)
    requires Init(w) && Reaches(w, steps, end)
    ensures forall id :: id in end.execs && end.execs[id].phase.Waiting? && !end.execs[id].cancelled ==>
      var last := LastTry(end.tries, id);
      last.Some? && last.value.outcome == Failed
      && (CanTurn(end, id) <==> end.now >= last.value.at + end.retryDelay * Tally(end.tries, id))
    ensures forall j :: 0 <= j < |end.tries| ==> SpacedAt(end.tries, end.retryDelay, j)
  {
    RunTells(w, steps, end);
    forall id | id in end.execs && end.execs[id].phase.Waiting? && !end.execs[id].cancelled
      ensures var last := LastTry(end.tries, id);
        last.Some? && last.value.outcome == Failed
        && (CanTurn(end, id) <==> end.now >= last.value.at + end.retryDelay * Tally(end.tries, id))
    {
      assert ExecOk(end, id) && WaitsRight(end.tries, end.retryDelay, end.now, id, end.execs[id]);
      LastFailed(end.tries, id);
    }
  }

  lemma {:induction false} LastFailed(tries: seq<Try>, id: nat)
    requires AllFailed(tries, id)
    ensures LastTry(tries, id).Some? ==> LastTry(tries, id).value.outcome == Failed
  {
    if tries != [] && tries[|tries| - 1].exec != id {
      assert AllFailed(tries[..|tries| - 1], id);
      LastFailed(tries[..|tries| - 1], id);
    }
  }

  // ------------------------------------------------------------ stopping

  /** The execution was started, is cancelled while it lives, and has made this many attempts. */
  ghost predicate Quiet(w: World, id: nat, attempts: nat) {
    id < |w.started| && Tally(w.tries, id) == attempts && (id in w.execs ==> w.execs[id].cancelled)
  }

  lemma TurnQuiet(w: World, turned: nat, outcome: Outcome, draw: int, id: nat, attempts: nat)
    requires Inv(w) && CanTurn(w, turned) && Quiet(w, id, attempts)
    ensures Quiet(Turn(w, turned, outcome, draw), id, attempts)
  {
    hide Inv, TimerTried, Tally;
    var e := w.execs[turned];
    LastSnoc(w.tries, Try(turned, outcome, w.now), id);
    TimerShape(w, turned, outcome, draw);
  }

  lemma TimerShape(w: World, id: nat, outcome: Outcome, draw: int)
    requires id in w.execs
    ensures var after := TimerTried(w, id, outcome, draw);
      && after.started == w.started && after.tries == w.tries + [Try(id, outcome, w.now)]
      && after.execs == w.execs[id := w.execs[id].(phase := after.execs[id].phase)]
  {
    hide Reschedule, Replan;
    var e := w.execs[id];
    RescheduleKeepsExecs(w.(tries := w.tries + [Try(id, outcome, w.now)]), id, e.task, e.row, outcome != Skipped, draw);
  }

  lemma {:induction false} TickQuiet(w: World, order: seq<int>, draws: seq<int>, id: nat, attempts: nat)
    requires |draws| == |order| && Quiet(w, id, attempts)
    ensures Quiet(Tick(w, order, draws).world, id, attempts)
    decreases |order|
  {
    hide NextRun, Tally;
    if order != [] {
      TickQuiet(w, order[..|order| - 1], draws[..|order| - 1], id, attempts);
    }
  }

  lemma StepQuiet(w: World, step: Step, id: nat, attempts: nat)
    requires Inv(w) && Enabled(w, step) && Quiet(w, id, attempts)
    ensures Quiet(Next(w, step), id, attempts)
  {
    hide Inv, Tick, Turn, Tally, Replan;
    match step
    case Ticked(order, draws) => TickQuiet(w, order, draws, id, attempts);
    case Turned(turned, outcome, draw) => TurnQuiet(w, turned, outcome, draw, id, attempts);
    case _ =>
  }

  /** A cancelled execution makes no further attempt, in whatever run follows. */
  lemma {:induction false} CancelledStaysQuiet(worlds: seq<World>, steps: seq<Step>, k: nat, id: nat)
    requires Path(worlds, steps) && k <= |steps| && Inv(worlds[0])
    requires id in worlds[0].execs && worlds[0].execs[id].cancelled
    ensures Quiet(worlds[k], id, Tally(worlds[0].tries, id))
  {
    if k == 0 {
      assert Known(worlds[0]);
    } else {
      hide Inv, Enabled, Next, Tally, Quiet;
      PathKeeps(worlds, steps, k - 1);
      CancelledStaysQuiet(worlds, steps, k - 1, id);
      assert Moves(worlds, steps, k - 1);
      StepQuiet(worlds[k - 1], steps[k - 1], id, Tally(worlds[0].tries, id));
    }
  }

  /** So after a stop: what was going on makes no attempt, whatever is started later. */
  lemma StopEndsAttempts(w: World, before: seq<Step>, mid: World, more: seq<Step>, end: World, id: nat)
    requires Init(w) && Reaches(w, before, mid) && id in mid.execs
    requires Reaches(Next(mid, Stopped), more, end)
    ensures Tally(end.tries, id) == Tally(mid.tries, id) && (id in end.execs ==> end.execs[id].cancelled)
  {
    InitHolds(w);
    RunKeeps(w, before, mid);
    var stopped := Next(mid, Stopped);
    assert stopped.execs[id].cancelled && stopped.tries == mid.tries;
    assert Inv(stopped) by {
      SchedulerSafety.StepKeeps(mid, Stopped);
    }
    hide Inv, Init, Next, Tally;
    var worlds :| Path(worlds, more) && worlds[0] == stopped && worlds[|more|] == end;
    CancelledStaysQuiet(worlds, more, |more|, id);
  }

  // ------------------------------------------------------------ what a tick plans

  /** Where a first plan counts from: an interval from the last run if there was one, and else from now. */
  function CountsFrom(row: Row, now: Moment): Moment {
    if row.schedule.kind != "cron" && row.lastRun.Some? then row.lastRun.value * SECOND else now
  }

  /** The row a tick leaves of an unplanned one. */
  ghost predicate PlannedBy(row: Row, now: Moment, draw: int, after: Row) {
    var own := OwnMoment(row.schedule, CountsFrom(row, now));
    if own.At? then
      var moved := Max(Moved(row.schedule, own.moment, draw), now);
      IsMoment(moved) && after == row.(nextRun := Some(Whole(moved)))
    else own.Unusable? && after == row
  }

  /**
   A tick plans every enabled idle row without a plan that it comes to and that
   does not raise: the schedule's own moment moved by the jitter, or now when
   that lies behind; a row whose schedule names no moment it leaves as it is.
   */
  lemma {:induction false} TickPlans(w: World, order: seq<int>, draws: seq<int>, i: nat)
    requires |draws| == |order| && Distinct(order) && i < |order|
    requires Open(w, order[i]) && w.tasks[order[i]].nextRun.None?
    requires forall j :: 0 <= j <= i ==> !PlanRaises(w, order[j], draws[j])
    ensures var after := Tick(w, order, draws).world;
      order[i] in after.tasks && PlannedBy(w.tasks[order[i]], w.now, draws[i], after.tasks[order[i]])
    decreases |order|
  {
    hide PlanRaises, PlannedBy, TickTask, Tick;
    var last := |order| - 1;
    var before := Tick(w, order[..last], draws[..last]);
    TickSnoc(w, order, draws);
    if i < last {
      PrefixCalm(w, order, draws, last, i);
      TickPlans(w, order[..last], draws[..last], i);
      TickTaskLeaves(before.world, order[last], draws[last], order[i]);
    } else {
      NoneRaisesBefore(w, order, draws, last);
      LastAsBefore(w, order, draws);
      PlansOne(before.world, order[last], draws[last]);
    }
  }

  lemma TickSnoc(w: World, order: seq<int>, draws: seq<int>)
    requires |draws| == |order| && order != []
    ensures var last := |order| - 1;
      var before := Tick(w, order[..last], draws[..last]);
      Tick(w, order, draws) == if before.raised then before else TickTask(before.world, order[last], draws[last])
  {
  }

  lemma PrefixCalm(w: World, order: seq<int>, draws: seq<int>, n: nat, i: nat)
    requires |draws| == |order| && i < n <= |order| && forall j :: 0 <= j <= i ==> !PlanRaises(w, order[j], draws[j])
    ensures forall j :: 0 <= j <= i ==> !PlanRaises(w, order[..n][j], draws[..n][j])
  {
    hide PlanRaises;
    assert forall j :: 0 <= j < n ==> order[..n][j] == order[j] && draws[..n][j] == draws[j];
  }

  lemma PlansOne(w: World, task: int, draw: int)
    requires Open(w, task) && w.tasks[task].nextRun.None? && !PlanRaises(w, task, draw)
    ensures var after := TickTask(w, task, draw).world;
      task in after.tasks && PlannedBy(w.tasks[task], w.now, draw, after.tasks[task])
  {
    var row := w.tasks[task];
    assert Anchor(row, w.now) == CountsFrom(row, w.now) by {
      hide NextRun, OwnMoment;
    }
    RaisesIff(row.schedule, Anchor(row, w.now), w.now, draw);
    FloorDecides(row.schedule, Anchor(row, w.now), w.now, draw);
    hide NextRun, OwnMoment, LeavesCalendar;
  }
}
