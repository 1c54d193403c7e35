/**
 At-most-once execution of journalled commands: the dispatcher, AgentApp and
 the journal together, over every run with duplicated and conflicting frames,
 full queues, discards, stops and crashes.
 */
module Commands {
  import opened Basics
  import opened Database
  import opened Journal
  import opened App
  import opened Dispatch

  /** Where the command a worker is running stands. */
  datatype Phase = InHandler(frame: Frame) | Leaving(frame: Frame)

  /**
   entered and ended are history: the cmd_ids of journalled commands whose
   handler was called, and how a handler ended. reports are the cmd_result
   events of journalled commands, in the order they were queued.
   */
  datatype World = World(
    db: Db, dispatch: State, phases: map<Key, Phase>,
    entered: seq<string>, ended: map<string, Ending>, reports: seq<Event>)

  /**
   The transactions of the interrupted step that had committed when the process
   died: none, the claim of a journalled frame on its way to a handler or to a
   rejection, or the "unknown" status of a handler cancelled by a stop.
   */
  datatype Cut = Between | Claimed(frame: Frame) | Settled(key: Key, keep: int)

  /** keep is the queue cap emit trims to. */
  datatype Action =
    | Received(frame: Frame, keep: int)
    | Began(key: Key, now: int, workers: map<string, Identity>, keep: int)
    | HandlerEnded(key: Key, ending: Ending, keep: int)
    | WorkerEnded(key: Key)
    | HandlerBroke(key: Key, keep: int)
    | WorkerLeft(key: Key)
    | Interrupted(key: Key, keep: int)
    | Dropped(key: Key, reason: string, keep: int)
    | StopBegan
    | StopEnded
    | OtherTraffic(db: Db)
    | Crashed(cut: Cut, token: string, ids: seq<string>)

  const FULL := "command queue is full; command was not started"
  const BROKE := "command handler failed; execution result is unknown"
  const INTERRUPTED := "agent stopped while command was running; execution result is unknown"

  ghost predicate Enabled(w: World, a: Action) {
    match a
    case Received(_, _) => true
    case Began(key, _, _, _) => CanBegin(w.dispatch, key)
    case HandlerEnded(key, ending, _) =>
      key in w.phases && w.phases[key].InHandler? && !ending.Interrupted?
    case WorkerEnded(key) => key in w.phases && w.phases[key].Leaving? && CanEnd(w.dispatch, key)
    case HandlerBroke(key, _) => key in w.phases && w.phases[key].InHandler? && CanEnd(w.dispatch, key)
    case WorkerLeft(key) => CanLeave(w.dispatch, key)
    case Interrupted(key, _) =>
      w.dispatch.stopped && key in w.phases && w.phases[key].InHandler? && CanEnd(w.dispatch, key)
    case Dropped(key, _, _) => CanDrop(w.dispatch, key)
    case StopBegan => true
    case StopEnded => CanEndStop(w.dispatch)
    case OtherTraffic(db) => db.runs == w.db.runs
    case Crashed(cut, _, ids) =>
      CutEnabled(w, cut) && JournalOk(AtCrash(w, cut).db) && ListsRunning(AtCrash(w, cut).db, ids)
  }

  predicate CutEnabled(w: World, cut: Cut) {
    match cut
    case Between => true
    case Claimed(f) => Durable(f)
    case Settled(key, _) => key in w.phases && w.phases[key].InHandler?
  }

  /** What the file holds when the process dies. */
  ghost function AtCrash(w: World, cut: Cut): World
    requires CutEnabled(w, cut)
  {
    match cut
    case Between => w
    case Claimed(f) => WithDb(w, f, BeginCommand(w.db, f))
    case Settled(key, keep) => AfterEnding(w, key, App.Interrupted, keep)
  }

  /** The handler a worker was in ended, and what handle_command did then. */
  ghost function AfterEnding(w: World, key: Key, ending: Ending, keep: int): World
    requires key in w.phases
  {
    var f := w.phases[key].frame;
    WithDb(w, f, HandleAfterHandler(w.db, f, ending, keep)).(
      phases := w.phases - {key},
      ended := if Durable(f) then w.ended[f.cmdId.name := ending] else w.ended)
  }

  /** The file changes on account of frame f; what a journalled frame queues is a report. */
  ghost function WithDb(w: World, f: Frame, db: Db): World {
    w.(db := db, reports := if Durable(f) && |w.db.events| <= |db.events| then w.reports + Fresh(w.db, db)
      else w.reports)
  }

  /** The journalled commands named by a frame. */
  function IdsOf(f: Frame): seq<string> {
    if Durable(f) then [f.cmdId.name] else []
  }

  ghost function Next(w: World, a: Action): World
    requires Enabled(w, a)
  {
    match a
    case Received(f, keep) =>
      var w1 := if Refuses(w.dispatch, f) then WithDb(w, f, RejectCommand(w.db, f, FULL, keep)) else w;
      w1.(dispatch := Submit(w.dispatch, f))
    case Began(key, now, workers, keep) =>
      var f := w.dispatch.queues[key].frames[0].frame;
      var enters := Enters(w.db, f, now, workers);
      var w1 := WithDb(w, f, HandleUntilHandler(w.db, f, now, workers, keep));
      w1.(dispatch := Begin(w.dispatch, key),
          phases := w.phases[key := if enters then InHandler(f) else Leaving(f)],
          entered := if enters then w.entered + IdsOf(f) else w.entered)
    case HandlerEnded(key, ending, keep) =>
      AfterEnding(w, key, ending, keep).(phases := w.phases[key := Leaving(w.phases[key].frame)])
    case WorkerEnded(key) =>
      w.(dispatch := End(w.dispatch, key, true), phases := w.phases - {key})
    case HandlerBroke(key, keep) =>
      var f := w.phases[key].frame;
      var w1 := WithDb(w, f, RejectCommand(w.db, f, BROKE, keep));
      w1.(dispatch := End(w.dispatch, key, false), phases := w.phases - {key})
    case WorkerLeft(key) => w.(dispatch := Leave(w.dispatch, key))
    case Interrupted(key, keep) =>
      var f := w.phases[key].frame;
      var w1 := AfterEnding(w, key, App.Interrupted, keep);
      WithDb(w1, f, RejectCommand(w1.db, f, INTERRUPTED, keep)).(dispatch := Cancel(w.dispatch, key))
    case Dropped(key, reason, keep) =>
      var frames := w.dispatch.queues[key].frames;
      var f := frames[|frames| - 1].frame;
      var w1 := WithDb(w, f, RejectCommand(w.db, f, reason, keep));
      w1.(dispatch := DropLast(w.dispatch, key))
    case StopBegan => w.(dispatch := w.dispatch.(stopped := true))
    case StopEnded => w.(dispatch := EndStop(w.dispatch))
    case OtherTraffic(db) => w.(db := db)
    case Crashed(cut, token, ids) => Reopened(AtCrash(w, cut), token, ids)
  }

  /** The file is opened again by a new process. */
  ghost function Reopened(w: World, token: string, ids: seq<string>): World
    requires JournalOk(w.db) && ListsRunning(w.db, ids)
  {
    var file := EnsureStreamId(w.db, token);
    RecoverKeeps(file, ids);
    var db := RecoverCommands(file, ids);
    w.(db := db, reports := w.reports + Fresh(file, db),
       dispatch := Start(w.dispatch.limits), phases := map[])
  }

  // ------------------------------------------------------------ invariant

  ghost predicate DistinctIds(ids: seq<string>) {
    forall i, j :: 0 <= i < j < |ids| ==> ids[i] != ids[j]
  }

  /** A handler that was called left its row, and never under a cancelled status. */
  ghost predicate EntriesJournalled(db: Db, entered: seq<string>) {
    forall id :: id in entered ==> id in db.runs && db.runs[id].status != Cancelled
  }

  /** What the journal holds of a command whose handler ended so. */
  ghost predicate Honest(run: Run, e: Ending) {
    run.result.Some? &&
    match e
    case Returned(data) =>
      run.status == Succeeded && run.result.value.data == Some(data) && run.result.value.error == None
    case Refused(error) =>
      run.status == Failed && run.result.value.data == None && run.result.value.error == Some(error)
    case Raised(error) =>
      run.status == Unknown && run.result.value.data == None && run.result.value.error == Some(error)
    case Interrupted =>
      run.status == Unknown && run.result.value.data == None && run.result.value.error == Some(STOPPED)
  }

  /** Every ending is told as it was, and only a return is told as a success. */
  ghost predicate EndingsTold(db: Db, ended: map<string, Ending>) {
    && (forall id :: id in ended ==> id in db.runs && Honest(db.runs[id], ended[id]))
    && (forall id :: id in db.runs && db.runs[id].status == Succeeded ==> id in ended && ended[id].Returned?)
  }

  /** The command of this id is in its handler under this key. */
  ghost predicate InHand(phases: map<Key, Phase>, key: Key, id: string) {
    key in phases && phases[key].InHandler? && Durable(phases[key].frame) && phases[key].frame.cmdId == Name(id)
  }

  /** While a handler runs, under one key only, its row does too. */
  ghost predicate PhasesOk(phases: map<Key, Phase>, runs: map<string, Run>, entered: seq<string>) {
    && (forall key, id :: InHand(phases, key, id) ==>
          id in runs && runs[id] == Run(phases[key].frame, Running, None) && id in entered)
    && (forall a, b, id :: InHand(phases, a, id) && InHand(phases, b, id) ==> a == b)
  }

  /** Every report ever queued says what the journal holds. */
  ghost predicate ReportsAgree(db: Db, reports: seq<Event>) {
    forall e :: e in reports ==> e.payload.Journalled? && Agrees(db, e)
  }

  ghost predicate Reported(reports: seq<Event>, id: string) {
    exists e :: e in reports && e.payload.Journalled? && e.payload.outcome.cmdId == id
  }

  /** A row has left "running" exactly when a report of it has been queued. */
  ghost predicate ReportedWhenFinished(db: Db, reports: seq<Event>) {
    forall id :: id in db.runs ==> (db.runs[id].status != Running <==> Reported(reports, id))
  }

  ghost predicate Inv(w: World) {
    && JournalOk(w.db)
    && DistinctIds(w.entered) && EntriesJournalled(w.db, w.entered) && EndingsTold(w.db, w.ended)
    && (forall id :: id in w.ended ==> id in w.entered)
    && PhasesOk(w.phases, w.db.runs, w.entered)
    && ReportsAgree(w.db, w.reports) && ReportedWhenFinished(w.db, w.reports)
  }
}
