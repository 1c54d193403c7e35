/** What app.py and the journal promise of one command, in the words of the frame, the clock and the devices. */
module AppMeaning {
  import opened Basics
  import opened Database
  import opened Queue
  import opened Journal
  import opened App
  import opened CommandSafety

  /** The commands a server may send. */
  predicate Known(kind: string) {
    || kind == "send_sms" || kind == "ussd" || kind == "raw_at" || kind == "query" || kind == "network_diagnostics"
    || kind == "sync_tasks" || kind == "run_task" || kind == "set_radio" || kind == "set_data"
    || kind == "set_roaming_data" || kind == "scan_operators" || kind == "select_operator"
  }

  /** The addressed device is here, and nothing known of it contradicts the frame. */
  predicate Addressed(f: Frame, workers: map<string, Identity>) {
    var device := if f.device.Some? then f.device.value else "";
    && device in workers
    && (f.imei == workers[device].imei || f.imei == "" || workers[device].imei == "")
    && (f.iccid == workers[device].iccid || f.iccid == "" || workers[device].iccid == "")
  }

  /**
   A journalled command enters its handler if and only if its id was never seen,
   its kind is known, its deadline lies ahead and the device is the one meant.
   */
  lemma EntersIff(db: Db, f: Frame, now: int, workers: map<string, Identity>)
    ensures Durable(f) ==> (Enters(db, f, now, workers) <==>
      f.cmdId.name !in db.runs && Known(f.kind) && f.deadline.At? && now < f.deadline.time && Addressed(f, workers))
    ensures !Durable(f) ==> (Enters(db, f, now, workers) <==> Known(f.kind))
  {
  }

  /**
   A new journalled command that does not enter is finished at once: an expired
   one is cancelled, one whose deadline cannot be compared is unknown, and any
   other has failed. One that enters is running.
   */
  lemma ScreenedMeaning(db: Db, f: Frame, now: int, workers: map<string, Identity>, keep: int)
    requires JournalOk(db) && Durable(f) && f.cmdId.name !in db.runs
    ensures var after := HandleUntilHandler(db, f, now, workers, keep); var id := f.cmdId.name;
      && id in after.runs
      && (Enters(db, f, now, workers) ==> after.runs[id] == Run(f, Running, None))
      && (!Enters(db, f, now, workers) ==>
            after.runs[id].result.Some? && after.runs[id].result.value.data == None
            && after.runs[id].result.value.error.Some? && after.runs[id].status ==
               if Known(f.kind) && f.deadline.At? && f.deadline.time <= now then Cancelled
               else if Known(f.kind) && f.deadline.Unusable? then Unknown
               else Failed)
  {
    if !Enters(db, f, now, workers) {
      var verdict := Screen(f, now, workers);
      ScreenedKeeps(db, f, verdict.status, verdict.error);
      hide FinishCommand, BeginCommand, JournalOk, Keeps, ReportsExactly;
    }
  }

  /**
   Claiming an id: a new one is entered as running; a used one changes no row,
   and queues the stored result again if and only if the frame is the same one
   and it is finished.
   */
  lemma ClaimMeaning(db: Db, f: Frame)
    requires f.cmdId.Name?
    ensures var after := BeginCommand(db, f); var id := f.cmdId.name;
      if id !in db.runs then after == db.(runs := db.runs[id := Run(f, Running, None)])
      else if db.runs[id].frame == f && db.runs[id].result.Some? then
        && after.runs == db.runs && after.kv == db.kv && after.tasks == db.tasks && Extends(db, after)
        && Fresh(db, after) == [Event(db.counter + 1, "cmd_result", Journalled(db.runs[id].result.value))]
      else after == db
  {
    if ClaimOf(db, f) == Replayed {
      FreshOfAppend(db, RESULT_KIND, Journalled(db.runs[f.cmdId.name].result.value));
    }
  }

  /** The report is queued, and no trim takes it. */
  ghost predicate QueuedPlain(before: Db, after: Db, cmdId: CmdRef, ok: bool, data: Option<string>,
      error: Option<string>) {
    Row(Event(before.counter + 1, "cmd_result", Plain(cmdId, ok, data, error)), false) in after.events
  }

  lemma PlainIsQueued(db: Db, cmdId: CmdRef, ok: bool, data: Option<string>, error: Option<string>, keep: int)
    requires QueueOk(db) && !cmdId.Missing?
    ensures QueuedPlain(db, PlainResult(db, cmdId, ok, data, error, keep), cmdId, ok, data, error)
  {
    hide QueueOk, TrimEvents, Unacked;
    var mid := AppendEvent(db, RESULT_KIND, Plain(cmdId, ok, data, error));
    AppendKeepsQueueOk(db, RESULT_KIND, Plain(cmdId, ok, data, error));
    TrimKeeps(mid, mid.events[|db.events|], keep);
  }

  lemma TrimKeeps(db: Db, row: Row, keep: int)
    requires QueueOk(db) && row in db.events && row.event.kind != STATUS_KIND
    ensures row in TrimEvents(db, keep).events
  {
    TrimLosesOnlyStatus(db, keep);
  }

  /**
   A command without journal that carries an id is answered: refused ones and
   unknown ones with the error, and a handler's with how it ended; only one
   that a stop cancels is left to the dispatcher.
   */
  lemma PlainMeaning(db: Db, f: Frame, now: int, workers: map<string, Identity>, ending: Ending, error: string,
      keep: int)
    requires QueueOk(db) && !Durable(f) && !f.cmdId.Missing?
    ensures QueuedPlain(db, RejectCommand(db, f, error, keep), f.cmdId, false, None, Some(error))
    ensures var until := HandleUntilHandler(db, f, now, workers, keep);
      if Known(f.kind) then until == db
      else QueuedPlain(db, until, f.cmdId, false, None, Some("unknown command " + f.kind))
    ensures var after := HandleAfterHandler(db, f, ending, keep);
      match ending
      case Returned(data) => QueuedPlain(db, after, f.cmdId, true, Some(data), None)
      case Refused(problem) => QueuedPlain(db, after, f.cmdId, false, None, Some(problem))
      case Raised(problem) => QueuedPlain(db, after, f.cmdId, false, None, Some(problem))
      case Interrupted => after == db
  {
    hide QueuedPlain, QueueOk, PlainResult;
    PlainIsQueued(db, f.cmdId, false, None, Some(error), keep);
    PlainIsQueued(db, f.cmdId, false, None, Some("unknown command " + f.kind), keep);
    PlainIsQueued(db, f.cmdId, ending.Returned?, DataOf(ending), ErrorOf(ending), keep);
  }
}
