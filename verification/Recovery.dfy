/** Registration recovery of one module (worker.py): its state, and each step as a function. */
module Recovery {
  import opened Basics

  /** RECOVERY_WINDOW, in seconds. */
  const DAY := 86400

  datatype Action =
      OperatorReselect | RadioCycle | ModuleReset | SerialReconnect | RegistrationRecovery
    | RegistrationWatch

  const STAGES: seq<Action> := [OperatorReselect, RadioCycle, ModuleReset]

  datatype Outcome = Succeeded | Failed | Cancelled

  datatype Inflight = Inflight(action: Action, attempt: nat)

  /** What is written to the store under the module's recovery key. */
  datatype Record = Record(
    attempts: seq<int>, stage: nat, sequence: nat, inflight: Option<Inflight>, issueOpen: bool,
    lastAction: Option<Action>, lastAttempt: nat, limitReported: bool)

  const NEW_RECORD := Record([], 0, 0, None, false, None, 0, false)

  datatype Note =
      Started(action: Action, attempt: nat)
    | Finished(action: Action, attempt: nat, outcome: Outcome) | Exhausted(attempt: nat)

  datatype Settings = Settings(delay: nat, cooldown: nat, limit: nat)

  /** A module's recovery state in memory, its stored row, and the events logged. */
  datatype Worker = Worker(rec: Record, since: Option<int>, disk: Option<Record>, notes: seq<Note>)

  /** What one status sample saw. */
  datatype Sample = Sample(radioOff: bool, manual: bool, registered: bool)

  predicate Recent(at: int, now: int) {
    0 <= now - at < DAY
  }

  // ------------------------------------------------------------ steps

  function Persist(w: Worker): Worker {
    w.(disk := Some(w.rec))
  }

  function Start(w: Worker, action: Action): Worker {
    var attempt := w.rec.sequence + 1;
    var rec := w.rec.(sequence := attempt, inflight := Some(Inflight(action, attempt)), issueOpen := true,
                      lastAction := Some(action), lastAttempt := attempt);
    Persist(w.(rec := rec)).(notes := w.notes + [Started(action, attempt)])
  }

  function Finish(w: Worker, action: Action, attempt: nat, outcome: Outcome): Worker {
    var rec := w.rec.(inflight := None, issueOpen := outcome == Failed && w.rec.issueOpen);
    Persist(w.(rec := rec, notes := w.notes + [Finished(action, attempt, outcome)]))
  }

  /** Registration is back (Succeeded), or recovery is called off (Cancelled). */
  function Close(w: Worker, outcome: Outcome): Worker {
    var changed := w.since.Some? || w.rec.stage != 0 || w.rec.limitReported;
    var cleared := w.(since := None, rec := w.rec.(stage := 0, limitReported := false));
    if w.rec.issueOpen then
      Finish(cleared, if w.rec.lastAction.Some? then w.rec.lastAction.value else RegistrationWatch,
        w.rec.lastAttempt, outcome)
    else if changed then Persist(cleared)
    else cleared
  }

  /** The attempts left once those no longer recent are popped from the front. */
  function Pruned(attempts: seq<int>, now: int): (r: seq<int>)
    ensures |r| <= |attempts|
  {
    if attempts == [] || Recent(attempts[0], now) then attempts else Pruned(attempts[1..], now)
  }

  /** What is left is a tail that begins with a recent attempt; nothing before it is recent. */
  lemma {:induction false} PrunedIsTail(attempts: seq<int>, now: int)
    ensures var r := Pruned(attempts, now);
      && (forall i :: 0 <= i < |r| ==> r[i] == attempts[|attempts| - |r| + i])
      && (forall i :: 0 <= i < |attempts| - |r| ==> !Recent(attempts[i], now))
      && (r != [] ==> Recent(r[0], now))
  {
    if attempts != [] && !Recent(attempts[0], now) {
      PrunedIsTail(attempts[1..], now);
      var r := Pruned(attempts, now);
      forall i | 0 <= i < |attempts| - |r| ensures !Recent(attempts[i], now) {
        assert i > 0 ==> attempts[i] == attempts[1..][i - 1];
      }
    }
  }

  function Prune(w: Worker, now: int, limit: nat): Worker {
    var kept := Pruned(w.rec.attempts, now);
    var lifted := w.rec.limitReported && |kept| < limit;
    var pruned := w.(rec := w.rec.(attempts := kept, limitReported := w.rec.limitReported && !lifted));
    if |kept| < |w.rec.attempts| || lifted then Persist(pruned) else pruned
  }

  function ReportLimit(w: Worker): Worker {
    if w.rec.limitReported then w
    else
      var rec := w.rec.(limitReported := true, issueOpen := true, lastAction := Some(RegistrationRecovery));
      Persist(w.(rec := rec, notes := w.notes + [Exhausted(w.rec.lastAttempt)]))
  }

  /** The clock of being unregistered starts at the first sample that sees it. */
  function Waiting(w: Worker, now: int): Worker {
    if w.since.None? then w.(since := Some(now)) else w
  }

  predicate Due(w: Worker, now: int, s: Settings) {
    var pruned := Prune(Waiting(w, now), now, s.limit);
    && now - Waiting(w, now).since.value >= s.delay
    && |pruned.rec.attempts| < s.limit
    && (pruned.rec.attempts == [] || now - pruned.rec.attempts[|pruned.rec.attempts| - 1] >= s.cooldown)
  }

  /** Choose and record an action: everything before the AT command goes out. */
  function Engage(w: Worker, now: int): (Worker, Inflight)
    requires w.rec.stage < |STAGES|
  {
    var action := STAGES[w.rec.stage];
    var engaged := Start(w.(rec := w.rec.(attempts := w.rec.attempts + [now])), action);
    (engaged, Inflight(action, engaged.rec.sequence))
  }

  /** One status sample up to its first await: the new state, and the action to issue if any. */
  function Decide(w: Worker, seen: Sample, now: int, s: Settings): (Worker, Option<Inflight>)
    requires w.rec.stage < |STAGES|
  {
    if seen.radioOff || seen.manual then (Close(w, Cancelled), None)
    else if seen.registered then (Close(w, Succeeded), None)
    else if s.limit == 0 then (Close(w, Cancelled), None)
    else
      var waiting := Waiting(w, now);
      if now - waiting.since.value < s.delay then (waiting, None)
      else
        var pruned := Prune(waiting, now, s.limit);
        if |pruned.rec.attempts| >= s.limit then (ReportLimit(pruned), None)
        else if !Due(w, now, s) then (pruned, None)
        else
          var (engaged, inflight) := Engage(pruned, now);
          (engaged, Some(inflight))
  }

  /** The radio action returned: recovered, or one stage further. */
  function Acted(w: Worker, inflight: Inflight, recovered: bool): Worker {
    if recovered then
      Finish(w.(since := None, rec := w.rec.(stage := 0, limitReported := false)), inflight.action, inflight.attempt,
        Succeeded)
    else
      Finish(w.(rec := w.rec.(stage := (w.rec.stage + 1) % |STAGES|)), inflight.action, inflight.attempt, Failed)
  }

  /** The module reset was requested; the port is about to be reopened. */
  function ResetAsked(w: Worker, began: int): Worker {
    Persist(w.(since := Some(began), rec := w.rec.(stage := 0)))
  }

  /** What became of the action in flight when the port was lost. */
  function Settled(w: Worker, radioOff: bool, registered: bool): Worker {
    if w.rec.inflight.None? then w
    else
      var f := w.rec.inflight.value;
      var outcome :=
        if f.action == SerialReconnect || (registered && !radioOff) then Succeeded
        else if radioOff then Cancelled
        else Failed;
      Finish(w, f.action, f.attempt, outcome)
  }

  /** The first thing after the port was reopened. */
  function Settle(w: Worker, radioOff: bool, registered: bool, now: int): Worker {
    var settled := Settled(w, radioOff, registered);
    if registered then Close(settled, Succeeded)
    else if radioOff then Close(settled, Cancelled)
    else settled.(since := Some(now))
  }

  /** An operator's radio or network choice finished. */
  function Chosen(w: Worker, registered: bool, calledOff: bool, now: int): Worker {
    if registered then Close(w, Succeeded)
    else if calledOff then Close(w, Cancelled)
    else w.(since := Some(now))
  }

  // ------------------------------------------------------------ loading

  function InsertTime(at: int, sorted: seq<int>): seq<int> {
    if sorted == [] || at <= sorted[0] then [at] + sorted else [sorted[0]] + InsertTime(at, sorted[1..])
  }

  /** sorted() of the attempt times. */
  function SortTimes(times: seq<int>): seq<int> {
    if times == [] then [] else InsertTime(times[0], SortTimes(times[1..]))
  }

  /** A new process reads the stored row back. */
  function Load(disk: Option<Record>, now: int, notes: seq<Note>): (w: Worker)
    ensures w.rec.stage < |STAGES|
  {
    if disk.None? then Worker(NEW_RECORD, None, None, notes)
    else
      var r := disk.value;
      var rec := r.(
        attempts := SortTimes(Filter(r.attempts, at => Recent(at, now))),
        stage := if r.stage < |STAGES| then r.stage else 0,
        inflight := if r.inflight.Some? && r.inflight.value.attempt > 0 then r.inflight else None);
      Worker(rec, None, disk, notes)
  }
}
