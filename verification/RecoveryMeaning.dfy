/** When recovery acts, what it announces, and where it starts again: in terms of what was sent, seen and answered. */
module RecoveryMeaning {
  import opened Basics
  import opened Recovery
  import opened RecoverySafety

  // ------------------------------------------------------------ when it acts

  /** The places of the actions sent in the last 24 hours. */
  function LastDay(w: World): set<int> {
    WindowOf(w.issued, w.now - DAY + 1)
  }

  /** How long the module has been seen unregistered. */
  function Unregistered(w: World): int {
    if w.worker.since.Some? then w.now - w.worker.since.value else 0
  }

  /** Everything the settings ask for before an action. */
  ghost predicate Allowed(w: World) {
    && Unregistered(w) >= w.settings.delay && |LastDay(w)| < w.settings.limit
    && forall i :: i in LastDay(w) ==> w.now - w.issued[i].at >= w.settings.cooldown
  }

  /** Recovery may concern itself with the module: radio on, operator chosen automatically, not registered. */
  predicate Lost(seen: Sample) {
    !seen.radioOff && !seen.manual && !seen.registered
  }

  function ActionOf(stage: nat): Action {
    if stage == 0 then OperatorReselect else if stage == 1 then RadioCycle else ModuleReset
  }

  function Places(low: int, high: int): (s: set<int>)
    requires low <= high
    ensures |s| == high - low && forall i :: i in s <==> low <= i < high
    decreases high - low
  {
    if low == high then {} else Places(low, high - 1) + {high - 1}
  }

  /** The attempts left by pruning are the actions of the last day. */
  lemma PrunedIsLastDay(w: World)
    requires Inv(w)
    ensures var kept, n := Pruned(w.worker.rec.attempts, w.now), |w.issued|;
      && |kept| <= n && LastDay(w) == Places(n - |kept|, n)
      && forall i :: 0 <= i < |kept| ==> kept[i] == w.issued[n - |kept| + i].at
  {
    hide Pruned, Spaced, Numbered;
    var attempts := w.worker.rec.attempts;
    PrunedTail(attempts, w.issued, w.now);
    TailSorted(attempts, w.issued, w.now);
    PrunedRecent(attempts, w.now);
    var kept, n := Pruned(attempts, w.now), |w.issued|;
    forall i | n - |kept| <= i < n ensures i in LastDay(w) {
      assert kept[i - (n - |kept|)] == w.issued[i].at;
    }
    hide Recent;
    assert LastDay(w) == Places(n - |kept|, n);
  }

  /** The guard on the pruned attempts is the one on the last day. */
  lemma GuardIsAllowed(w: World)
    requires Inv(w)
    ensures var kept := Pruned(w.worker.rec.attempts, w.now);
      |kept| == |LastDay(w)| && (Allowed(w) <==>
        && Unregistered(w) >= w.settings.delay && |kept| < w.settings.limit
        && (kept == [] || w.now - kept[|kept| - 1] >= w.settings.cooldown))
  {
    PrunedIsLastDay(w);
    hide Pruned, WindowOf, Spaced, Numbered, Tail;
    assert |LastDay(w)| == |Pruned(w.worker.rec.attempts, w.now)|;
    var kept, n := Pruned(w.worker.rec.attempts, w.now), |w.issued|;
    if kept != [] {
      assert n - 1 in LastDay(w) && kept[|kept| - 1] == w.issued[n - 1].at;
      assert forall i :: i in LastDay(w) ==> w.issued[i].at <= w.issued[n - 1].at;
    }
  }

  /** The settings' guard, on the attempts left by pruning. */
  ghost predicate Guard(w: Worker, now: int, s: Settings) {
    var kept := Pruned(w.rec.attempts, now);
    && now - Since(w, now) >= s.delay && |kept| < s.limit
    && (kept == [] || now - kept[|kept| - 1] >= s.cooldown)
  }

  function Since(w: Worker, now: int): int {
    if w.since.Some? then w.since.value else now
  }

  lemma DecideActs(w: Worker, seen: Sample, now: int, s: Settings)
    requires w.rec.stage < |STAGES|
    ensures var (v, action) := Decide(w, seen, now, s);
      if Lost(seen) && s.limit > 0 && Guard(w, now, s) then
        && action == Some(Inflight(ActionOf(w.rec.stage), w.rec.sequence + 1))
        && v.notes == w.notes + [Started(ActionOf(w.rec.stage), w.rec.sequence + 1)]
      else action == None
  {
    hide Pruned, Close;
  }

  lemma DecideWaits(w: Worker, seen: Sample, now: int, s: Settings)
    requires w.rec.stage < |STAGES| && Lost(seen) && s.limit > 0
    ensures var v := Decide(w, seen, now, s).0;
      && v.since == Some(Since(w, now))
      && (!Guard(w, now, s) ==>
            v.notes == w.notes +
            if now - Since(w, now) >= s.delay && |Pruned(w.rec.attempts, now)| >= s.limit && !w.rec.limitReported
            then [Exhausted(w.rec.lastAttempt)] else [])
  {
    hide Pruned, Close;
  }

  /**
   In every reachable state a status sample sends an action if and only if the
   radio is on, the operator chosen automatically and the module unregistered,
   for the delay at least, fewer actions than the limit were sent in the last
   24 hours, and each of those at least the cooldown ago. It then sends the
   action of its stage under a new number, and announces it.
   */
  lemma ActsIff(w: World, steps: seq<Step>, end: World, seen: Sample)
    requires Init(w) && Reaches(w, steps, end)
    ensures end.worker.rec.stage < |STAGES|
    ensures var next := Next(end, Sampled(seen));
      var action, attempt := ActionOf(end.worker.rec.stage), end.worker.rec.sequence + 1;
      if Lost(seen) && end.settings.limit > 0 && Allowed(end) then
        && next.pending == end.pending + [(Inflight(action, attempt), end.now)]
        && next.issued == end.issued
           + [Issued(end.now, end.worker.rec.stage, end.settings.limit, end.settings.cooldown)]
        && next.worker.notes == end.worker.notes + [Started(action, attempt)]
      else next.pending == end.pending && next.issued == end.issued
  {
    RunKeeps(w, steps, end);
    GuardIsAllowed(end);
    hide Inv, Reaches, Allowed, Pruned, LastDay, Decide;
    DecideActs(end.worker, seen, end.now, end.settings);
  }

  /**
   A sample of a lost module without an action announces only that the limit of
   the last 24 hours is reached, once; and the clock of being unregistered
   starts at the first such sample.
   */
  lemma WaitsQuietly(w: World, steps: seq<Step>, end: World, seen: Sample)
    requires Init(w) && Reaches(w, steps, end) && Lost(seen) && end.settings.limit > 0
    ensures end.worker.rec.stage < |STAGES|
    ensures var next := Next(end, Sampled(seen)).worker;
      && next.since == (if end.worker.since.Some? then end.worker.since else Some(end.now))
      && (!Allowed(end) ==>
            next.notes == end.worker.notes
            + (if Unregistered(end) >= end.settings.delay && |LastDay(end)| >= end.settings.limit
                 && !end.worker.rec.limitReported
               then [Exhausted(end.worker.rec.lastAttempt)] else []))
  {
    RunKeeps(w, steps, end);
    GuardIsAllowed(end);
    hide Inv, Reaches, Allowed, Pruned, LastDay;
    DecideWaits(end.worker, seen, end.now, end.settings);
    hide Decide;
  }

  // ------------------------------------------------------------ what ends it

  /** No stage, no clock, no open issue, no reported limit. */
  predicate AtRest(w: Worker) {
    w.since == None && w.rec.stage == 0 && !w.rec.issueOpen && !w.rec.limitReported
  }

  /**
   A sample that sees the module registered, the radio off or the operator
   chosen by hand, and any sample while recovery is switched off, puts recovery
   at rest, and announces that once if an issue was open: as a success only
   when the module is registered under automatic operation.
   */
  lemma SampleEndsIt(w: World, seen: Sample)
    requires w.worker.rec.stage < |STAGES| && (!Lost(seen) || w.settings.limit == 0)
    ensures var next := Next(w, Sampled(seen)).worker; var rec := w.worker.rec;
      var outcome := if seen.registered && !seen.radioOff && !seen.manual then Succeeded else Cancelled;
      && AtRest(next)
      && next.notes == w.worker.notes
         + (if rec.issueOpen then
              [Finished(if rec.lastAction.Some? then rec.lastAction.value else RegistrationWatch,
                        rec.lastAttempt, outcome)]
            else [])
  {
  }

  /**
   What an action's return announces: success or failure of that action under
   its number; a reset is announced only once the port is open again.
   */
  lemma ReturnAnnounces(w: World, k: nat, recovered: bool)
    requires w.worker.rec.stage < |STAGES| && k < |w.pending|
    ensures var (sent, began) := w.pending[k]; var next := Next(w, Returned(k, recovered)).worker;
      if sent.action == ModuleReset then
        next.notes == w.worker.notes && next.rec.stage == 0 && next.since == Some(began)
      else
        && next.notes == w.worker.notes + [Finished(sent.action, sent.attempt, if recovered then Succeeded else Failed)]
        && next.rec.inflight == None
        && (recovered ==> next.since == None && next.rec.stage == 0 && !next.rec.issueOpen && !next.rec.limitReported)
        && (!recovered ==>
              && next.since == w.worker.since && next.rec.issueOpen == w.worker.rec.issueOpen
              && next.rec.stage == if w.worker.rec.stage == 2 then 0 else w.worker.rec.stage + 1)
  {
  }

  /**
   Once the port is open again the action in flight is announced, first of all:
   a reconnect as a success, another one by what the module says. A module
   that is registered or whose radio is off puts recovery at rest; otherwise
   the clock starts afresh.
   */
  lemma ReopenSettles(w: World, radioOff: bool, registered: bool)
    requires w.worker.rec.stage < |STAGES|
    ensures var next := Next(w, Reopened(radioOff, registered)).worker; var before := w.worker;
      && next.rec.inflight == None
      && (before.rec.inflight.Some? ==>
            var sent := before.rec.inflight.value;
            |next.notes| > |before.notes| && next.notes[|before.notes|] == Finished(sent.action, sent.attempt,
              if sent.action == SerialReconnect then Succeeded else if radioOff then Cancelled
              else if registered then Succeeded else Failed))
      && (if registered || radioOff then AtRest(next)
          else next.since == Some(w.now) && next.rec.stage == before.rec.stage
               && |next.notes| == |before.notes| + if before.rec.inflight.Some? then 1 else 0)
  {
  }

  // ------------------------------------------------------------ starting over

  /** The step shows that nothing is lost any more. */
  predicate Calms(step: Step) {
    || (step.Sampled? && !Lost(step.seen)) || (step.Returned? && step.recovered)
    || (step.Reopened? && (step.radioOff || step.registered))
    || (step.OperatorChose? && (step.registered || step.calledOff))
  }

  predicate Fails(step: Step) {
    step.Returned? && !step.recovered
  }

  /** The stored stage is the one in memory, so a restart goes on with it. */
  ghost predicate StageStored(w: World) {
    w.worker.rec.stage < |STAGES| && OnDisk(w.worker).stage == w.worker.rec.stage
  }

  lemma StepStage(w: World, step: Step)
    requires StageStored(w) && Enabled(w, step)
    ensures StageStored(Next(w, step))
    ensures Calms(step) || (w.worker.rec.stage == 0 && !Fails(step)) ==> Next(w, step).worker.rec.stage == 0
  {
    hide Decide, Load, Acted, Settle, Chosen, Start;
    match step
    case Sampled(seen) => SampleStage(w.worker, seen, w.now, w.settings);
    case Restart(_) => LoadStage(w.worker, w.now);
    case Returned(k, recovered) => ActedStage(w.worker, w.pending[k].0, recovered);
    case HealthLost => StartStage(w.worker, SerialReconnect);
    case Reopened(radioOff, registered) => SettleStage(w.worker, radioOff, registered, w.now);
    case OperatorChose(registered, calledOff) => ChosenStage(w.worker, registered, calledOff, w.now);
    case _ =>
  }

  lemma LoadStage(w: Worker, now: int)
    requires w.rec.stage < |STAGES| && OnDisk(w).stage == w.rec.stage
    ensures var v := Load(w.disk, now, w.notes); v.rec.stage == w.rec.stage && OnDisk(v).stage == v.rec.stage
  {
    hide SortTimes;
  }

  lemma StartStage(w: Worker, action: Action)
    ensures var v := Start(w, action); v.rec.stage == w.rec.stage && OnDisk(v).stage == v.rec.stage
  {
  }

  lemma ActedStage(w: Worker, inflight: Inflight, recovered: bool)
    requires w.rec.stage < |STAGES|
    ensures var v := Acted(w, inflight, recovered);
      v.rec.stage < |STAGES| && OnDisk(v).stage == v.rec.stage && (recovered ==> v.rec.stage == 0)
  {
  }

  /** The stage is as it was or cleared, and stored. */
  ghost predicate KeptStage(w: Worker, v: Worker, cleared: bool) {
    && (v.rec.stage == w.rec.stage || v.rec.stage == 0) && OnDisk(v).stage == v.rec.stage
    && (cleared ==> v.rec.stage == 0)
  }

  lemma SettleStage(w: Worker, radioOff: bool, registered: bool, now: int)
    requires OnDisk(w).stage == w.rec.stage
    ensures KeptStage(w, Settle(w, radioOff, registered, now), radioOff || registered)
  {
  }

  lemma ChosenStage(w: Worker, registered: bool, calledOff: bool, now: int)
    requires OnDisk(w).stage == w.rec.stage
    ensures KeptStage(w, Chosen(w, registered, calledOff, now), registered || calledOff)
  {
  }

  lemma CloseStage(w: Worker, outcome: Outcome)
    requires OnDisk(w).stage == w.rec.stage
    ensures KeptStage(w, Close(w, outcome), true)
  {
  }

  lemma SampleStage(w: Worker, seen: Sample, now: int, s: Settings)
    requires w.rec.stage < |STAGES| && OnDisk(w).stage == w.rec.stage
    ensures KeptStage(w, Decide(w, seen, now, s).0, !Lost(seen))
  {
    hide Pruned, Close;
    CloseStage(w, Succeeded);
    CloseStage(w, Cancelled);
  }

  lemma {:induction false} PathStage(worlds: seq<World>, steps: seq<Step>, k: nat)
    requires Path(worlds, steps) && k <= |steps| && StageStored(worlds[0])
    ensures StageStored(worlds[k])
  {
    hide StageStored, Enabled;
    if k > 0 {
      PathStage(worlds, steps, k - 1);
      assert Moves(worlds, steps, k - 1) && worlds[k - 1].worker.rec.stage < |STAGES|;
      hide Next;
      StepStage(worlds[k - 1], steps[k - 1]);
    }
  }

  /**
   In every run, once recovery was calmed it stays at its first stage until an
   action fails, across restarts: the next action is a reselection.
   */
  lemma {:induction false} CalmStartsOver(worlds: seq<World>, steps: seq<Step>, i: nat, j: nat)
    requires Path(worlds, steps) && Init(worlds[0]) && i < j <= |steps| && Calms(steps[i])
    requires forall k :: i < k < j ==> !Fails(steps[k])
    ensures worlds[j].worker.rec.stage == 0
    decreases j - i
  {
    PathStage(worlds, steps, j - 1);
    assert Moves(worlds, steps, j - 1);
    if j > i + 1 {
      CalmStartsOver(worlds, steps, i, j - 1);
    }
    hide Next, Enabled;
    StepStage(worlds[j - 1], steps[j - 1]);
  }
}
