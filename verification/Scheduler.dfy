/** The keep-alive scheduler (scheduler.py): ticks, executions with retries, manual runs and stopping. */
module Scheduler {
  import opened Basics
  import opened Plans

  /** What the scheduler reads of a task row; a time is None when missing or unreadable. */
  datatype Row = Row(enabled: bool, retryMax: int, schedule: Schedule, lastRun: Option<Stamp>, nextRun: Option<Stamp>)

  datatype Kind = Timer | Manual

  datatype Phase = Ready | Performing | Waiting(until: int) | Done

  /** A live execution, with the copy of the row it was started from. */
  datatype Exec = Exec(task: int, row: Row, kind: Kind, phase: Phase, attempts: nat, cancelled: bool)

  datatype Outcome = Succeeded | Skipped | Failed

  datatype Status = WasOk | WasSkipped | HasFailed | Unknown

  datatype Try = Try(exec: nat, outcome: Outcome, at: Moment)

  /** draw is the jitter drawn when the next run was planned. */
  datatype Update = Update(exec: nat, at: Moment, draw: int, lastRun: Option<Stamp>, nextRun: Option<Stamp>)

  /** The end of an execution whose rescheduling raised. */
  datatype Break = Break(exec: nat, at: Moment, draw: int)

  /** exec is None for the receipt of a schedule that cannot be planned. */
  datatype Receipt = Receipt(exec: Option<nat>, status: Status, attempts: nat)

  datatype Started = Started(task: int, row: Row, kind: Kind, at: Moment)

  datatype World = World(
    now: Moment, retryDelay: nat, tasks: map<int, Row>, running: map<int, nat>, execs: map<nat, Exec>,
    started: seq<Started>, tries: seq<Try>, updates: seq<Update>, receipts: seq<Receipt>, dropped: set<nat>,
    broken: seq<Break>)

  /** How many attempts an execution may make. */
  function Allowance(s: Started): nat {
    if s.kind == Timer then Max(0, s.row.retryMax) + 1 else 1
  }

  /** Where _plan counts from: an interval from the last run, a cron expression from now. */
  function Anchor(row: Row, now: Moment): Moment {
    if IsCron(row.schedule) || row.lastRun.None? then now else MomentOf(row.lastRun.value)
  }

  /** The plan as it is stored. */
  function Stored(plan: Plan): Option<Stamp> {
    if plan.At? then Some(Whole(plan.moment)) else None
  }

  // ------------------------------------------------------------ starting

  function Start(w: World, task: int, row: Row, kind: Kind): World {
    var id := |w.started|;
    w.(started := w.started + [Started(task, row, kind, w.now)],
       running := w.running[task := id],
       execs := w.execs[id :=
         Exec(task, row, kind, if kind == Timer then Ready else Performing, if kind == Timer then 0 else 1, false)])
  }

  /** raised: the tick ended in an exception that next_run let through. */
  datatype Ticking = Ticking(world: World, raised: bool)

  /** One task of the tick; draw is the jitter drawn if next_run is asked. */
  ghost function TickTask(w: World, task: int, draw: int): Ticking {
    if task !in w.tasks || !w.tasks[task].enabled || task in w.running then Ticking(w, false)
    else
      var row := w.tasks[task];
      if row.nextRun.Some? then
        Ticking(if MomentOf(row.nextRun.value) > w.now then w else Start(w, task, row, Timer), false)
      else
        match NextRun(row.schedule, Anchor(row, w.now), w.now, draw)
        case Raised => Ticking(w, true)
        case Unusable => Ticking(w.(receipts := w.receipts + [Receipt(None, WasSkipped, 0)]), false)
        case At(due) =>
          var planned := w.(tasks := w.tasks[task := row.(nextRun := Some(Whole(due)))]);
          Ticking(if due > w.now then planned else Start(planned, task, row, Timer), false)
  }

  /** tick_once: the tasks in the order of their ids, until one raises. */
  ghost function Tick(w: World, order: seq<int>, draws: seq<int>): Ticking
    requires |draws| == |order|
    decreases |order|
  {
    if order == [] then Ticking(w, false)
    else
      var last := |order| - 1;
      var before := Tick(w, order[..last], draws[..last]);
      if before.raised then before else TickTask(before.world, order[last], draws[last])
  }

  predicate CanRun(w: World, task: int) {
    task in w.tasks && task !in w.running
  }

  /** run_now. */
  function RunNow(w: World, task: int): World
    requires CanRun(w, task)
  {
    Start(w, task, w.tasks[task], Timer)
  }

  /** mark_task_run, on the row if it is still there. */
  function Mark(w: World, id: nat, task: int, draw: int, lastRun: Option<Stamp>, nextRun: Option<Stamp>): World {
    w.(tasks :=
      if task in w.tasks then w.tasks[task := w.tasks[task].(lastRun := lastRun, nextRun := nextRun)] else w.tasks,
       updates := w.updates + [Update(id, w.now, draw, lastRun, nextRun)])
  }

  /** The plan of _reschedule, which counts from the completion. */
  ghost function Replan(row: Row, now: Moment, draw: int): Plan {
    NextRun(row.schedule, now, now, draw)
  }

  /** _reschedule: an exception of next_run other than ScheduleError leaves the row as it was. */
  ghost function Reschedule(w: World, id: nat, task: int, row: Row, ran: bool, draw: int): World {
    var plan := Replan(row, w.now, draw);
    if plan.Raised? then w.(broken := w.broken + [Break(id, w.now, draw)])
    else Mark(w, id, task, draw, if ran then Some(Whole(w.now)) else row.lastRun, Stored(plan))
  }

  /** run_manual up to its hardware call: the schedule is advanced first, and if that raises the run is over. */
  ghost function RunManual(w: World, task: int, draw: int): World
    requires CanRun(w, task)
  {
    var row := w.tasks[task];
    var begun := Start(w, task, row, Manual);
    var after := Reschedule(begun, |w.started|, task, row, true, draw);
    if Replan(row, w.now, draw).Raised? then Leave(after, |w.started|) else after
  }

  // ------------------------------------------------------------ turns of an execution

  function SetExec(w: World, id: nat, e: Exec): World {
    w.(execs := w.execs[id := e])
  }

  /** The done callback (or the finally clause of a manual run): the task may run again. */
  function Leave(w: World, id: nat): World
    requires id in w.execs
  {
    w.(running := w.running - {w.execs[id].task}, execs := w.execs - {id})
  }

  function StatusOf(outcome: Outcome): Status {
    match outcome
    case Succeeded => WasOk
    case Skipped => WasSkipped
    case Failed => HasFailed
  }

  /** The end of _execute: one schedule update and one receipt, or neither when the rescheduling raises. */
  ghost function Finish(w: World, id: nat, outcome: Outcome, draw: int): World
    requires id in w.execs
  {
    var e := w.execs[id];
    var marked := Reschedule(w, id, e.task, e.row, outcome != Skipped, draw);
    var reported :=
      if Replan(e.row, w.now, draw).Raised? then marked
      else marked.(receipts := marked.receipts + [Receipt(Some(id), StatusOf(outcome), e.attempts)]);
    SetExec(reported, id, e.(phase := Done))
  }

  /** An attempt of a timer execution returned or raised. */
  ghost function TimerTried(w: World, id: nat, outcome: Outcome, draw: int): World
    requires id in w.execs
  {
    var e := w.execs[id];
    var tried := w.(tries := w.tries + [Try(id, outcome, w.now)]);
    if outcome == Failed && e.attempts <= Max(0, e.row.retryMax) then
      SetExec(tried, id, e.(phase := Waiting(w.now + w.retryDelay * e.attempts)))
    else Finish(tried, id, outcome, draw)
  }

  /** The hardware call of a manual run returned or raised. */
  function ManualTried(w: World, id: nat, outcome: Outcome): World
    requires id in w.execs
  {
    var status := match outcome case Succeeded => WasOk case Skipped => WasSkipped case Failed => Unknown;
    var tried := w.(tries := w.tries + [Try(id, outcome, w.now)],
                    receipts := w.receipts + [Receipt(Some(id), status, if outcome == Skipped then 0 else 1)]);
    Leave(tried, id)
  }

  /** A cancelled execution: a timer one leaves no trace, a manual one reports "unknown". */
  function Interrupted(w: World, id: nat): World
    requires id in w.execs
  {
    var e := w.execs[id];
    if e.kind == Manual then Leave(w.(receipts := w.receipts + [Receipt(Some(id), Unknown, 1)]), id)
    else SetExec(w.(dropped := w.dropped + {id}), id, e.(phase := Done))
  }

  predicate CanTurn(w: World, id: nat) {
    id in w.execs
    && (w.execs[id].phase.Waiting? && !w.execs[id].cancelled ==> w.now >= w.execs[id].phase.until)
  }

  ghost function Turn(w: World, id: nat, outcome: Outcome, draw: int): World
    requires id in w.execs
  {
    var e := w.execs[id];
    if e.phase.Done? then Leave(w, id)
    else if e.cancelled then Interrupted(w, id)
    else
      match e.phase
      case Ready => SetExec(w, id, e.(phase := Performing, attempts := 1))
      case Waiting(_) => SetExec(w, id, e.(phase := Performing, attempts := e.attempts + 1))
      case Performing => if e.kind == Manual then ManualTried(w, id, outcome) else TimerTried(w, id, outcome, draw)
      case Done => w
  }

  /** stop: everything running is cancelled; the command of a manual run can be cancelled before, by the link's stop. */
  function Stop(w: World): World {
    w.(execs := map id | id in w.execs :: w.execs[id].(cancelled := true))
  }

  // ------------------------------------------------------------ runs

  datatype Step =
    | Wait(micros: nat)
    | Synced(tasks: map<int, Row>)
    | Ticked(order: seq<int>, draws: seq<int>)
    | Requested(task: int)
    | RequestedManual(task: int, draw: int)
    | Turned(id: nat, outcome: Outcome, draw: int)
    | CommandCancelled(id: nat)
    | Stopped

  /** all_tasks(): every id once, in ascending order. */
  ghost predicate Listed(tasks: map<int, Row>, order: seq<int>) {
    && (forall i, j :: 0 <= i < j < |order| ==> order[i] < order[j])
    && forall t :: t in order <==> t in tasks
  }

  ghost predicate DrawsFit(tasks: map<int, Row>, order: seq<int>, draws: seq<int>)
    requires |draws| == |order|
  {
    forall i :: 0 <= i < |order| && order[i] in tasks ==> DrawFits(tasks[order[i]].schedule, draws[i])
  }

  ghost predicate Enabled(w: World, step: Step) {
    match step
    case Wait(micros) => IsMoment(w.now + micros)
    case Ticked(order, draws) => |draws| == |order| && Listed(w.tasks, order) && DrawsFit(w.tasks, order, draws)
    case Requested(task) => CanRun(w, task)
    case RequestedManual(task, draw) => CanRun(w, task) && DrawFits(w.tasks[task].schedule, draw)
    case CommandCancelled(id) => id in w.execs && w.execs[id].kind == Manual
    case Turned(id, _, draw) => CanTurn(w, id) && DrawFits(w.execs[id].row.schedule, draw)
    case _ => true
  }

  ghost function Next(w: World, step: Step): World
    requires Enabled(w, step)
  {
    match step
    case Wait(micros) => w.(now := w.now + micros)
    case Synced(tasks) => w.(tasks := tasks)
    case Ticked(order, draws) => Tick(w, order, draws).world
    case Requested(task) => RunNow(w, task)
    case RequestedManual(task, draw) => RunManual(w, task, draw)
    case Turned(id, outcome, draw) => Turn(w, id, outcome, draw)
    case CommandCancelled(id) => SetExec(w, id, w.execs[id].(cancelled := true))
    case Stopped => Stop(w)
  }

  ghost predicate Moves(worlds: seq<World>, steps: seq<Step>, i: nat)
    requires i < |steps| && |worlds| == |steps| + 1
  {
    Enabled(worlds[i], steps[i]) && worlds[i + 1] == Next(worlds[i], steps[i])
  }

  ghost predicate Path(worlds: seq<World>, steps: seq<Step>) {
    |worlds| == |steps| + 1 && forall i :: 0 <= i < |steps| ==> Moves(worlds, steps, i)
  }

  /** The steps, each enabled where it is taken, lead from w to end. */
  ghost predicate Reaches(w: World, steps: seq<Step>, end: World) {
    exists worlds :: Path(worlds, steps) && worlds[0] == w && worlds[|steps|] == end
  }

  ghost predicate Init(w: World) {
    w.running == map[] && w.execs == map[] && w.started == [] && w.tries == [] && w.updates == [] && w.receipts == []
    && w.dropped == {} && w.broken == []
  }
}
