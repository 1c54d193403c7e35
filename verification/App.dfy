/** What AgentApp does with a command up to and after its handler (app.py). */
module App {
  import opened Basics
  import opened Database

  const EXPIRED := "expired before execution"
  const IDENTITY_CHANGED := "device identity changed"
  const STOPPED := "agent stopped during execution"

  const HANDLERS: set<string> := {
    "send_sms", "sync_tasks", "run_task", "query", "set_radio", "set_data", "set_roaming_data",
    "scan_operators", "select_operator", "network_diagnostics", "ussd", "raw_at"}

  /** The identity a worker's module last reported; empty while unknown. */
  datatype Identity = Identity(imei: string, iccid: string)

  /** What the checks before the handler decide: enter it, or finish the command at once. */
  datatype Verdict = Enter | Finish(status: Status, error: string)

  predicate IdentityChanged(f: Frame, id: Identity) {
    || (f.imei != "" && id.imei != "" && f.imei != id.imei)
    || (f.iccid != "" && id.iccid != "" && f.iccid != id.iccid)
  }

  function Screen(f: Frame, now: int, workers: map<string, Identity>): Verdict {
    if f.kind !in HANDLERS then Finish(Failed, "unknown command " + f.kind)
    else if f.deadline.Unusable? then Finish(Unknown, "deadline")
    else if f.deadline.Malformed? then Finish(Failed, "Invalid isoformat string")
    else if f.deadline.time <= now then Finish(Cancelled, EXPIRED)
    else
      var device := if f.device.Some? then f.device.value else "";
      if device !in workers then Finish(Failed, "no such device: " + device)
      else if IdentityChanged(f, workers[device]) then Finish(Failed, IDENTITY_CHANGED)
      else Enter
  }

  /** _cmd_result: nothing to report against without a cmd_id. */
  function PlainResult(db: Db, cmdId: CmdRef, ok: bool, data: Option<string>, error: Option<string>, keep: int): Db {
    if cmdId.Missing? then db else Emit(db, RESULT_KIND, Plain(cmdId, ok, data, error), keep)
  }

  function RejectCommand(db: Db, f: Frame, error: string, keep: int): Db {
    if Durable(f) then
      var claimed := BeginCommand(db, f);
      if ClaimOf(db, f) == New then FinishCommand(claimed, f, Cancelled, None, Some(error)) else claimed
    else PlainResult(db, f.cmdId, false, None, Some(error), keep)
  }

  /** True when handle_command gets as far as calling the handler. */
  predicate Enters(db: Db, f: Frame, now: int, workers: map<string, Identity>) {
    if Durable(f) then ClaimOf(db, f) == New && Screen(f, now, workers) == Enter
    else f.kind in HANDLERS
  }

  /** handle_command up to the handler, or to its end when it does not get there: no await lies between. */
  function HandleUntilHandler(db: Db, f: Frame, now: int, workers: map<string, Identity>, keep: int): Db {
    if Durable(f) then
      var claimed := BeginCommand(db, f);
      if ClaimOf(db, f) != New then claimed
      else
        match Screen(f, now, workers)
        case Enter => claimed
        case Finish(status, error) => FinishCommand(claimed, f, status, None, Some(error))
    else if f.kind in HANDLERS then db
    else PlainResult(db, f.cmdId, false, None, Some("unknown command " + f.kind), keep)
  }

  /** How a handler ended: returned, refused the request, failed otherwise, or was cancelled by a stop. */
  datatype Ending = Returned(data: string) | Refused(error: string) | Raised(error: string) | Interrupted

  function FinalStatus(e: Ending): Status {
    match e
    case Returned(_) => Succeeded
    case Refused(_) => Failed
    case Raised(_) => Unknown
    case Interrupted => Unknown
  }

  function ErrorOf(e: Ending): Option<string> {
    match e
    case Returned(_) => None
    case Refused(error) => Some(error)
    case Raised(error) => Some(error)
    case Interrupted => Some(STOPPED)
  }

  function DataOf(e: Ending): Option<string> {
    if e.Returned? then Some(e.data) else None
  }

  /** handle_command after the handler. A cancelled command without journal is reported by the dispatcher only. */
  function HandleAfterHandler(db: Db, f: Frame, e: Ending, keep: int): Db {
    if Durable(f) then FinishCommand(db, f, FinalStatus(e), DataOf(e), ErrorOf(e))
    else if e.Interrupted? then db
    else PlainResult(db, f.cmdId, e.Returned?, DataOf(e), ErrorOf(e), keep)
  }
}
