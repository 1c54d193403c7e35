/**
 The agent's SQLite file as a value: the outbound event queue with its
 AUTOINCREMENT counter, the key/value table and the command journal.
 One function per statement or transaction of LocalStore; a table is kept in
 primary-key order.
 */
module Database {
  import opened Basics

  // ------------------------------------------------------------ entities

  /** The cmd_id of a server frame: absent, a string, or some other JSON value. */
  datatype CmdRef = Missing | Name(name: string) | Other(json: string)

  /** A deadline that parsed, one that is no ISO date, and one that is absent or cannot be compared. */
  datatype Deadline = At(time: int) | Malformed | Unusable

  /** A frame sent by the server. */
  datatype Frame = Frame(
    kind: string, cmdId: CmdRef, device: Option<string>, resultToken: string,
    runId: Option<string>, imei: string, iccid: string,
    deadline: Deadline, body: string)

  datatype Status = Running | Succeeded | Failed | Cancelled | Unknown

  /** The cmd_result payload of a journalled command. */
  datatype Outcome = Outcome(
    cmdId: string, device: Option<string>, resultToken: string,
    runId: Option<string>, imei: string, iccid: string,
    status: Status, ok: bool, data: Option<string>, error: Option<string>)

  datatype Payload =
    | Text(text: string)
    | Journalled(outcome: Outcome)
    | Plain(cmdId: CmdRef, ok: bool, data: Option<string>, error: Option<string>)
    | Receipt(syncId: string, revision: string, ok: bool, count: nat, problem: string)

  datatype Event = Event(num: nat, kind: string, payload: Payload)

  datatype Row = Row(event: Event, acked: bool)

  datatype Run = Run(frame: Frame, status: Status, result: Option<Outcome>)

  /** A row of the tasks table; times are the stored ISO texts. */
  datatype Task = Task(
    id: int, device: string, name: string, enabled: bool, action: string,
    target: string, content: string, scheduleType: string, scheduleExpr: string,
    jitter: int, randomSuffix: bool, retryMax: int, notify: bool,
    lastRun: Option<string>, nextRun: Option<string>)

  /** events is ordered by num, the seq column; counter is the sqlite_sequence entry. */
  datatype Db = Db(
    events: seq<Row>, counter: nat, kv: map<string, string>, runs: map<string, Run>,
    tasks: map<int, Task>)

  const STREAM_ID_KEY := "stream_id"
  const STATUS_KIND := "status"
  const RESULT_KIND := "cmd_result"
  const EMPTY := Db([], 0, map[], map[], map[])

  /** An integer SQLite can bind as a parameter. */
  predicate Bindable(n: int) {
    -0x8000_0000_0000_0000 <= n < 0x8000_0000_0000_0000
  }

  // ------------------------------------------------------- outbound queue

  function AppendEvent(db: Db, kind: string, payload: Payload): Db {
    db.(events := db.events + [Row(Event(db.counter + 1, kind, payload), false)],
        counter := db.counter + 1)
  }

  /** SELECT ... WHERE acked = 0 ORDER BY seq. */
  function Unacked(rows: seq<Row>): seq<Event> {
    if rows == [] then []
    else (if rows[0].acked then [] else [rows[0].event]) + Unacked(rows[1..])
  }

  function UnackedEvents(db: Db, limit: nat): seq<Event> {
    Unacked(db.events)[..Min(limit, |Unacked(db.events)|)]
  }

  /** First statement of ack_through. */
  function MarkAcked(rows: seq<Row>, upTo: int): (r: seq<Row>)
    ensures |r| == |rows|
    ensures forall i :: 0 <= i < |r| ==>
      r[i] == Row(rows[i].event, rows[i].acked || rows[i].event.num <= upTo)
  {
    if rows == [] then []
    else [Row(rows[0].event, rows[0].acked || rows[0].event.num <= upTo)] + MarkAcked(rows[1..], upTo)
  }

  /** Second statement of ack_through. */
  function DeleteAcked(rows: seq<Row>, upTo: int): seq<Row> {
    Filter(rows, (r: Row) => !(r.acked && r.event.num <= upTo))
  }

  function AckThrough(db: Db, upTo: int): Db {
    db.(events := DeleteAcked(MarkAcked(db.events, upTo), upTo))
  }

  /** Rows the first statement of ack_through updates (its rowcount). */
  function NewlyAcked(rows: seq<Row>, upTo: int): nat {
    |Filter(rows, (r: Row) => !r.acked && r.event.num <= upTo)|
  }

  predicate IsStatus(r: Row) {
    !r.acked && r.event.kind == STATUS_KIND
  }

  /** DELETE of the n oldest unacked status rows. */
  function DropOldestStatus(rows: seq<Row>, n: nat): seq<Row> {
    if rows == [] || n == 0 then rows
    else if IsStatus(rows[0]) then DropOldestStatus(rows[1..], n - 1)
    else [rows[0]] + DropOldestStatus(rows[1..], n)
  }

  function TrimEvents(db: Db, keep: int): Db {
    var excess := |Unacked(db.events)| - keep;
    if excess <= 0 then db else db.(events := DropOldestStatus(db.events, excess))
  }

  /** AgentApp.emit's effect on the file. */
  function Emit(db: Db, kind: string, payload: Payload, keep: int): Db {
    TrimEvents(AppendEvent(db, kind, payload), keep)
  }

  function LastSeq(db: Db): nat {
    if db.events != [] then db.events[|db.events| - 1].event.num else db.counter
  }

  function StreamId(db: Db): string {
    if STREAM_ID_KEY in db.kv then db.kv[STREAM_ID_KEY] else ""
  }

  /** Runs once per opening; token is the fresh secrets.token_hex(8). */
  function EnsureStreamId(db: Db, token: string): Db {
    if STREAM_ID_KEY in db.kv then db
    else db.(kv := db.kv[STREAM_ID_KEY := if LastSeq(db) != 0 then "" else token])
  }

  // ------------------------------------------------------ command journal

  /** A frame whose execution is journalled. */
  predicate Durable(f: Frame) {
    f.resultToken != "" && f.cmdId.Name?
  }

  datatype Claim = New | Conflict | Replayed | StillRunning

  function ClaimOf(db: Db, f: Frame): Claim
    requires f.cmdId.Name?
  {
    if f.cmdId.name !in db.runs then New
    else
      var run := db.runs[f.cmdId.name];
      if run.frame != f then Conflict
      else if run.result.Some? then Replayed
      else StillRunning
  }

  function BeginCommand(db: Db, f: Frame): Db
    requires f.cmdId.Name?
  {
    match ClaimOf(db, f)
    case New => db.(runs := db.runs[f.cmdId.name := Run(f, Running, None)])
    case Replayed => AppendEvent(db, RESULT_KIND, Journalled(db.runs[f.cmdId.name].result.value))
    case Conflict => db
    case StillRunning => db
  }

  function MakeOutcome(f: Frame, status: Status, data: Option<string>, error: Option<string>): Outcome
    requires f.cmdId.Name?
  {
    Outcome(f.cmdId.name, f.device, f.resultToken, f.runId, f.imei, f.iccid,
            status, status == Succeeded, data, error)
  }

  function FinishCommand(db: Db, f: Frame, status: Status, data: Option<string>, error: Option<string>): Db
    requires f.cmdId.Name?
  {
    var id := f.cmdId.name;
    if id in db.runs && db.runs[id].status == Running then
      var outcome := MakeOutcome(f, status, data, error);
      AppendEvent(db.(runs := db.runs[id := Run(db.runs[id].frame, status, Some(outcome))]),
                  RESULT_KIND, Journalled(outcome))
    else db
  }

  const RESTARTED := "agent restarted after command started; execution result is unknown"

  /** _recover_commands over the rows in the order the SELECT returned them. */
  function RecoverCommands(db: Db, ids: seq<string>): Db
    requires forall id :: id in ids ==> id in db.runs && db.runs[id].frame.cmdId == Name(id)
    decreases |ids|
  {
    if ids == [] then db
    else
      var db1 := FinishCommand(db, db.runs[ids[0]].frame, Unknown, None, Some(RESTARTED));
      RecoverCommands(db1, ids[1..])
  }
}
