/** The scheduler as an object (scheduler.py): its running map and its executions, updated in place. */
module KeepAliveScheduler {
  import opened Basics
  import opened Plans
  import opened Scheduler

  /** What a tick has raised, it has raised for good. */
  lemma {:induction false} RaisedPrefix(w: World, order: seq<int>, draws: seq<int>, n: nat)
    requires |draws| == |order| && n <= |order| && Tick(w, order[..n], draws[..n]).raised
    ensures Tick(w, order, draws) == Tick(w, order[..n], draws[..n])
    decreases |order|
  {
    hide TickTask;
    if n < |order| {
      var last := |order| - 1;
      assert order[..last][..n] == order[..n] && draws[..last][..n] == draws[..n];
      RaisedPrefix(w, order[..last], draws[..last], n);
    } else {
      assert order[..n] == order && draws[..n] == draws;
    }
  }

  class KeepAliveScheduler {
    const retryDelay: nat
    var clock: Moment
    /** The task rows of the store. */
    var tasks: map<int, Row>
    var running: map<int, nat>
    var execs: map<nat, Exec>
    /** What was started, tried, stored and reported, and which executions were cancelled. */
    var started: seq<Started>
    var tries: seq<Try>
    var updates: seq<Update>
    var receipts: seq<Receipt>
    var dropped: set<nat>
    /** The executions whose rescheduling raised. */
    var broken: seq<Break>

    ghost function State(): World
      reads this
    {
      World(clock, retryDelay, tasks, running, execs, started, tries, updates, receipts, dropped, broken)
    }

    constructor (delay: nat, now: Moment, stored: map<int, Row>)
      ensures Init(State()) && State().tasks == stored && State().now == now
    {
      retryDelay, clock, tasks := delay, now, stored;
      running, execs := map[], map[];
      started, tries, updates, receipts, dropped, broken := [], [], [], [], {}, [];
    }

    /** create_task, entered into the running map. */
    method Begin(task: int, row: Row, kind: Kind)
      modifies this
      ensures State() == Start(old(State()), task, row, kind)
    {
      var id := |started|;
      started := started + [Started(task, row, kind, clock)];
      running := running[task := id];
      execs := execs[id :=
        Exec(task, row, kind, if kind == Timer then Ready else Performing, if kind == Timer then 0 else 1, false)];
    }

    /**
     tick_once over the rows in the order all_tasks lists them; draws are the
     jitters drawn. raised is the exception that ends the tick early.
     */
    method TickOnce(order: seq<int>, draws: seq<int>) returns (count: nat, raised: bool)
      requires Listed(tasks, order) && |draws| == |order|
      modifies this
      ensures Ticking(State(), raised) == Tick(old(State()), order, draws)
      ensures |started| == |old(started)| + count
    {
      hide TickTask;
      count, raised := 0, false;
      for i := 0 to |order|
        invariant Ticking(State(), false) == Tick(old(State()), order[..i], draws[..i])
        invariant |started| == |old(started)| + count
      {
        assert order[..i + 1][..i] == order[..i] && draws[..i + 1][..i] == draws[..i];
        assert Tick(old(State()), order[..i + 1], draws[..i + 1]) == TickTask(State(), order[i], draws[i]);
        var one;
        one, raised := TickOne(order[i], draws[i]);
        if raised {
          RaisedPrefix(old(State()), order, draws, i + 1);
          return;
        }
        if one {
          count := count + 1;
        }
      }
      assert order[..|order|] == order && draws[..|draws|] == draws;
    }

    /** The body of the loop: plan an unplanned task, start a due one. */
    method TickOne(task: int, draw: int) returns (starts: bool, raised: bool)
      modifies this
      ensures Ticking(State(), raised) == TickTask(old(State()), task, draw)
      ensures |started| == |old(started)| + (if starts then 1 else 0) && (raised ==> !starts)
    {
      starts, raised := false, false;
      if task !in tasks || !tasks[task].enabled || task in running {
        return;
      }
      var row := tasks[task];
      var due: Moment;
      if row.nextRun.Some? {
        due := MomentOf(row.nextRun.value);
      } else {
        var plan := ComputeNextRun(row.schedule, Anchor(row, clock), clock, draw);
        if plan.Raised? {
          raised := true;
          return;
        }
        if plan.Unusable? {
          receipts := receipts + [Receipt(None, WasSkipped, 0)];
          return;
        }
        due := plan.moment;
        tasks := tasks[task := row.(nextRun := Some(Whole(due)))];
      }
      if due > clock {
        return;
      }
      Begin(task, row, Timer);
      starts := true;
    }

    /** run_now; false is the error for a missing or running task. */
    method RunTaskNow(task: int) returns (accepted: bool)
      modifies this
      ensures accepted <==> task in old(tasks) && task !in old(running)
      ensures State() == if accepted then RunNow(old(State()), task) else old(State())
    {
      accepted := task in tasks && task !in running;
      if accepted {
        Begin(task, tasks[task], Timer);
      }
    }

    /** _reschedule; raised says that next_run let an exception through and nothing was stored. */
    method Advance(id: nat, task: int, row: Row, ran: bool, draw: int) returns (raised: bool)
      modifies this
      ensures State() == Reschedule(old(State()), id, task, row, ran, draw)
      ensures raised == Replan(row, old(clock), draw).Raised?
    {
      var plan := ComputeNextRun(row.schedule, clock, clock, draw);
      raised := plan.Raised?;
      if raised {
        broken := broken + [Break(id, clock, draw)];
        return;
      }
      var lastRun := if ran then Some(Whole(clock)) else row.lastRun;
      if task in tasks {
        tasks := tasks[task := tasks[task].(lastRun := lastRun, nextRun := Stored(plan))];
      }
      updates := updates + [Update(id, clock, draw, lastRun, Stored(plan))];
    }

    /** run_manual up to the hardware call, or to its end when the rescheduling raises. */
    method BeginManual(task: int, draw: int) returns (accepted: bool, calls: bool)
      modifies this
      ensures accepted <==> task in old(tasks) && task !in old(running)
      ensures State() == if accepted then RunManual(old(State()), task, draw) else old(State())
      ensures calls <==> accepted && !Replan(old(tasks[task]), old(clock), draw).Raised?
    {
      accepted, calls := task in tasks && task !in running, false;
      if accepted {
        var id, row := |started|, tasks[task];
        Begin(task, row, Manual);
        var raised := Advance(id, task, row, true, draw);
        if raised {
          Pop(id);
        }
        calls := !raised;
      }
    }

    method Pop(id: nat)
      requires id in execs
      modifies this
      ensures State() == Leave(old(State()), id)
    {
      running := running - {execs[id].task};
      execs := execs - {id};
    }

    /** An attempt of _execute has come back. */
    method AttemptReturned(id: nat, outcome: Outcome, draw: int)
      requires id in execs
      modifies this
      ensures State() == TimerTried(old(State()), id, outcome, draw)
    {
      var e := execs[id];
      tries := tries + [Try(id, outcome, clock)];
      if outcome == Failed && e.attempts <= Max(0, e.row.retryMax) {
        execs := execs[id := e.(phase := Waiting(clock + retryDelay * e.attempts))];
      } else {
        var raised := Advance(id, e.task, e.row, outcome != Skipped, draw);
        if !raised {
          receipts := receipts + [Receipt(Some(id), StatusOf(outcome), e.attempts)];
        }
        execs := execs[id := e.(phase := Done)];
      }
    }

    /** The hardware call of run_manual has come back. */
    method ManualReturned(id: nat, outcome: Outcome)
      requires id in execs
      modifies this
      ensures State() == ManualTried(old(State()), id, outcome)
    {
      tries := tries + [Try(id, outcome, clock)];
      match outcome {
        case Succeeded => receipts := receipts + [Receipt(Some(id), WasOk, 1)];
        case Skipped => receipts := receipts + [Receipt(Some(id), WasSkipped, 0)];
        case Failed => receipts := receipts + [Receipt(Some(id), Unknown, 1)];
      }
      Pop(id);
    }

    method StopAll()
      modifies this
      ensures State() == Stop(old(State()))
    {
      execs := map id | id in execs :: execs[id].(cancelled := true);
    }
  }
}
