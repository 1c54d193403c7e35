/** Escalation: what the actions do one after another (worker.py). */
module RecoveryStages {
  import opened Basics
  import opened Recovery
  import opened RecoverySafety

  function LastStage(issued: seq<Issued>): int {
    if issued == [] then -1 else issued[|issued| - 1].stage
  }

  /** Each action is at most one stage past the one before; the first is the first stage. */
  ghost predicate Climbs(issued: seq<Issued>) {
    forall j :: 0 <= j < |issued| ==> issued[j].stage < |STAGES| && issued[j].stage <= LastStage(issued[..j]) + 1
  }

  ghost predicate StageInv(w: World) {
    && Climbs(w.issued)
    && w.worker.rec.stage < |STAGES|
    && w.worker.rec.stage <= LastStage(w.issued) + 1 && OnDisk(w.worker).stage <= LastStage(w.issued) + 1
    && |w.pending| <= 1
    && (w.pending != [] ==> w.worker.rec.stage <= LastStage(w.issued) && w.issued != [])
  }

  /** The step is a sample that sends an action to the module. */
  predicate Issues(w: World, step: Step)
    requires w.worker.rec.stage < |STAGES|
  {
    step.Sampled? && Decide(w.worker, step.seen, w.now, w.settings).1.Some?
  }

  /** A run in which no action is sent while another is still running. */
  ghost predicate OneAtATime(worlds: seq<World>, steps: seq<Step>) {
    Path(worlds, steps) && forall i :: 0 <= i < |steps| ==> AloneAt(worlds, steps, i)
  }

  ghost predicate AloneAt(worlds: seq<World>, steps: seq<Step>, i: nat)
    requires i < |steps| && |worlds| == |steps| + 1
  {
    worlds[i].worker.rec.stage < |STAGES| && Issues(worlds[i], steps[i]) ==> worlds[i].pending == []
  }

  /** A step that keeps the stage or clears it, and stores what it holds if it stores anything. */
  ghost predicate StageKept(w: Worker, v: Worker) {
    && (v.rec.stage == w.rec.stage || v.rec.stage == 0)
    && (v.disk == w.disk || v.disk == Some(v.rec))
  }

  lemma CloseStage(w: Worker, outcome: Outcome)
    ensures StageKept(w, Close(w, outcome))
  {
  }

  lemma DecideStage(w: Worker, seen: Sample, now: int, s: Settings)
    requires w.rec.stage < |STAGES|
    ensures var (v, action) := Decide(w, seen, now, s);
      StageKept(w, v) && (action.Some? ==> v.rec.stage == w.rec.stage && v.disk == Some(v.rec))
  {
    hide Prune, Close, Start, ReportLimit;
    if seen.radioOff || seen.manual || seen.registered || s.limit == 0 {
      CloseStage(w, Cancelled);
      CloseStage(w, Succeeded);
    } else {
      PruneStage(Waiting(w, now), now, s.limit);
      var pruned := Prune(Waiting(w, now), now, s.limit);
      ReportStage(pruned);
      EngageStage(pruned, now);
    }
  }

  lemma ReportStage(w: Worker)
    ensures ReportLimit(w) == w || (ReportLimit(w).rec.stage == w.rec.stage &&
      ReportLimit(w).disk == Some(ReportLimit(w).rec))
  {
  }

  lemma EngageStage(w: Worker, now: int)
    requires w.rec.stage < |STAGES|
    ensures Engage(w, now).0.rec.stage == w.rec.stage && Engage(w, now).0.disk == Some(Engage(w, now).0.rec)
  {
  }

  lemma PruneStage(w: Worker, now: int, limit: nat)
    ensures var pruned := Prune(w, now, limit);
      StageKept(w, pruned) && pruned.rec.stage == w.rec.stage
  {
    hide Pruned, Recent;
  }

  lemma {:induction false} ClimbsOnce(issued: seq<Issued>, next: Issued)
    requires Climbs(issued) && next.stage < |STAGES| && next.stage <= LastStage(issued) + 1
    ensures Climbs(issued + [next]) && LastStage(issued + [next]) == next.stage
  {
    var after := issued + [next];
    forall j | 0 <= j < |after| ensures after[j].stage < |STAGES| && after[j].stage <= LastStage(after[..j]) + 1 {
      if j < |issued| {
        assert after[..j] == issued[..j];
      } else {
        assert after[..j] == issued;
      }
    }
  }

  lemma SampleClimbs(w: World, seen: Sample)
    requires StageInv(w) && (Issues(w, Sampled(seen)) ==> w.pending == [])
    ensures StageInv(Next(w, Sampled(seen)))
  {
    hide Decide;
    DecideStage(w.worker, seen, w.now, w.settings);
    var decided, next := Decide(w.worker, seen, w.now, w.settings), Next(w, Sampled(seen));
    assert next.worker == decided.0;
    if decided.1.Some? {
      ClimbsOnce(w.issued, Issued(w.now, w.worker.rec.stage, w.settings.limit, w.settings.cooldown));
      assert |next.pending| == 1;
    } else {
      assert next == w.(worker := decided.0);
      KeptClimbs(w, decided.0);
    }
  }

  lemma KeptClimbs(w: World, v: Worker)
    requires StageInv(w) && StageKept(w.worker, v)
    ensures StageInv(w.(worker := v))
  {
  }

  lemma ReturnClimbs(w: World, k: nat, recovered: bool)
    requires StageInv(w) && k < |w.pending|
    ensures StageInv(Next(w, Returned(k, recovered)))
  {
    var (inflight, began) := w.pending[k];
    assert ResetAsked(w.worker, began).rec.stage == 0;
    var v := Acted(w.worker, inflight, recovered);
    assert v.rec.stage <= w.worker.rec.stage + 1 && v.rec.stage < |STAGES| && v.disk == Some(v.rec);
  }

  lemma ReopenClimbs(w: World, radioOff: bool, registered: bool)
    requires StageInv(w)
    ensures StageInv(Next(w, Reopened(radioOff, registered)))
  {
    var settled := Settled(w.worker, radioOff, registered);
    KeptClimbs(w, settled);
    var there := w.(worker := settled);
    CloseStage(settled, Succeeded);
    CloseStage(settled, Cancelled);
    KeptClimbs(there, Close(settled, Succeeded));
    KeptClimbs(there, Close(settled, Cancelled));
  }

  lemma StepClimbs(w: World, step: Step)
    requires StageInv(w) && Enabled(w, step) && (Issues(w, step) ==> w.pending == [])
    ensures StageInv(Next(w, step))
  {
    match step
    case Sampled(seen) => SampleClimbs(w, seen);
    case Returned(k, recovered) => ReturnClimbs(w, k, recovered);
    case Reopened(radioOff, registered) => ReopenClimbs(w, radioOff, registered);
    case OperatorChose(registered, calledOff) =>
      CloseStage(w.worker, Succeeded);
      CloseStage(w.worker, Cancelled);
      KeptClimbs(w, Close(w.worker, Succeeded));
      KeptClimbs(w, Close(w.worker, Cancelled));
    case _ =>
  }

  lemma {:induction false} PathClimbs(worlds: seq<World>, steps: seq<Step>, k: nat)
    requires OneAtATime(worlds, steps) && k <= |steps| && StageInv(worlds[0])
    ensures StageInv(worlds[k])
  {
    hide StageInv, Issues;
    if k > 0 {
      PathClimbs(worlds, steps, k - 1);
      assert Moves(worlds, steps, k - 1) && AloneAt(worlds, steps, k - 1);
      StepClimbs(worlds[k - 1], steps[k - 1]);
    }
  }

  /**
   In every run in which actions do not overlap, no stage is
   skipped: a reset follows a radio cycle or another reset.
   */
  lemma NoStageSkipped(worlds: seq<World>, steps: seq<Step>)
    requires OneAtATime(worlds, steps) && Init(worlds[0])
    ensures Climbs(worlds[|steps|].issued)
  {
    StartsAtTheBottom(worlds[0]);
    PathClimbs(worlds, steps, |steps|);
  }

  lemma StartsAtTheBottom(w: World)
    requires Init(w)
    ensures StageInv(w)
  {
  }

  // ------------------------------------------------------------ which settings rule overlaps out

  /** The least time between two actions under these settings. */
  function Gap(s: Settings): int {
    if s.limit == 1 then DAY else Min(s.cooldown, DAY)
  }

  /** Every action still running was sent at most this long ago. */
  ghost predicate AgesFit(w: World, longest: nat) {
    forall k :: 0 <= k < |w.pending| ==> w.now - w.pending[k].1 <= longest
  }

  /** A run under fixed settings in which no action takes longer. */
  ghost predicate Within(worlds: seq<World>, steps: seq<Step>, s: Settings, longest: nat) {
    Path(worlds, steps) && forall i :: 0 <= i < |worlds| ==> FitsAt(worlds[i], s, longest)
  }

  ghost predicate FitsAt(w: World, s: Settings, longest: nat) {
    w.settings == s && AgesFit(w, longest)
  }

  /** Actions still running were sent no later than the last one issued. */
  ghost predicate PendingIssued(w: World) {
    w.pending != [] ==>
      w.issued != [] && forall k :: 0 <= k < |w.pending| ==> w.pending[k].1 <= w.issued[|w.issued| - 1].at
  }

  lemma StepPending(w: World, step: Step)
    requires Inv(w) && PendingIssued(w) && Enabled(w, step)
    ensures PendingIssued(Next(w, step))
  {
    hide Decide, Spaced, Tail, Numbered;
    var next := Next(w, step);
    if step.Returned? || step.GaveUp? {
      assert next.issued == w.issued && next.pending == Remove(w.pending, step.k);
      forall k | 0 <= k < |next.pending| ensures next.pending[k] in w.pending {
        assert next.pending[k] == w.pending[if k < step.k then k else k + 1];
      }
    } else if step.Sampled? {
      assert w.issued != [] ==> w.issued[|w.issued| - 1].at <= w.now;
    }
  }

  lemma {:induction false} PathPending(worlds: seq<World>, steps: seq<Step>, k: nat)
    requires Path(worlds, steps) && k <= |steps| && Init(worlds[0])
    ensures Inv(worlds[k]) && PendingIssued(worlds[k])
  {
    if k > 0 {
      hide Inv, PendingIssued;
      PathPending(worlds, steps, k - 1);
      assert Moves(worlds, steps, k - 1);
      StepKeeps(worlds[k - 1], steps[k - 1]);
      StepPending(worlds[k - 1], steps[k - 1]);
    }
  }

  /** An action sent while another runs comes a whole gap after it. */
  lemma OverlapTakesAGap(w: World, step: Step, k: nat)
    requires Inv(w) && PendingIssued(w) && Issues(w, step) && k < |w.pending|
    ensures w.settings.limit > 0 && w.now - w.pending[k].1 >= Gap(w.settings)
  {
    StepKeeps(w, step);
    var next := Next(w, step);
    var j := |w.issued|;
    assert next.issued == w.issued + [Issued(w.now, w.worker.rec.stage, w.settings.limit, w.settings.cooldown)];
    hide Decide, Tail, Numbered, InOrder;
    assert WellSpaced(next.issued, j);
  }

  /** Actions shorter than the gap run one at a time. */
  lemma ShortActionsAlone(worlds: seq<World>, steps: seq<Step>, s: Settings, longest: nat)
    requires Within(worlds, steps, s, longest) && Init(worlds[0]) && (s.limit == 0 || longest < Gap(s))
    ensures OneAtATime(worlds, steps)
  {
    hide Issues, Inv, PendingIssued, Init;
    forall i | 0 <= i < |steps| ensures AloneAt(worlds, steps, i) {
      PathPending(worlds, steps, i);
      assert FitsAt(worlds[i], s, longest);
      if worlds[i].worker.rec.stage < |STAGES| && Issues(worlds[i], steps[i]) && worlds[i].pending != [] {
        OverlapTakesAGap(worlds[i], steps[i], 0);
      }
    }
  }

  const LOST := Sample(false, false, false)

  /** next is w after an action was sent. */
  ghost predicate Acts(w: World, next: World) {
    var stage := w.worker.rec.stage;
    && stage < |STAGES|
    && next.now == w.now && next.settings == w.settings
    && next.issued == w.issued + [Issued(w.now, stage, w.settings.limit, w.settings.cooldown)]
    && |next.pending| == |w.pending| + 1 && (forall k :: 0 <= k < |w.pending| ==> next.pending[k] == w.pending[k])
    && next.pending[|w.pending|].1 == w.now && next.pending[|w.pending|].0.action == STAGES[stage]
    && next.worker.since == w.worker.since && next.worker.rec.stage == stage
    && next.worker.rec.attempts == Pruned(w.worker.rec.attempts, w.now) + [w.now]
  }

  /** A sample that finds the module lost sends an action when the guards allow it. */
  lemma SampleActs(w: World)
    requires w.worker.rec.stage < |STAGES| && w.worker.since.Some? && w.now - w.worker.since.value >= w.settings.delay
    requires var kept := Pruned(w.worker.rec.attempts, w.now);
      |kept| < w.settings.limit && (kept == [] || w.now - kept[|kept| - 1] >= w.settings.cooldown)
    ensures Acts(w, Next(w, Sampled(LOST)))
  {
    DueDecides(w.worker, w.now, w.settings);
    EngageFacts(Prune(w.worker, w.now, w.settings.limit), w.now);
    hide Decide, Prune, Pruned, Engage;
  }

  lemma PruneFacts(w: Worker, now: int, limit: nat)
    ensures var pruned := Prune(w, now, limit);
      pruned.rec.attempts == Pruned(w.rec.attempts, now) && pruned.rec.stage == w.rec.stage && pruned.since == w.since
  {
    hide Pruned;
  }

  lemma EngageFacts(w: Worker, now: int)
    requires w.rec.stage < |STAGES|
    ensures var (engaged, inflight) := Engage(w, now);
      && engaged.rec.attempts == w.rec.attempts + [now] && engaged.rec.stage == w.rec.stage
      && engaged.since == w.since && inflight.action == STAGES[w.rec.stage]
  {
  }

  lemma DueDecides(w: Worker, now: int, s: Settings)
    requires w.rec.stage < |STAGES| && w.since.Some? && now - w.since.value >= s.delay
    requires var kept := Pruned(w.rec.attempts, now);
      |kept| < s.limit && (kept == [] || now - kept[|kept| - 1] >= s.cooldown)
    ensures var pruned := Prune(w, now, s.limit);
      && pruned.rec.attempts == Pruned(w.rec.attempts, now) && pruned.rec.stage == w.rec.stage &&
         pruned.since == w.since
      && Decide(w, LOST, now, s) == (Engage(pruned, now).0, Some(Engage(pruned, now).1))
  {
    PruneFacts(w, now, s.limit);
    hide Prune, Pruned, Engage, Close, ReportLimit;
  }

  lemma OldPruned(attempts: seq<int>, now: int)
    requires forall i :: 0 <= i < |attempts| ==> now - attempts[i] >= DAY
    ensures Pruned(attempts, now) == []
  {
    PrunedIsTail(attempts, now);
  }

  lemma Joined(first: seq<World>, up: seq<Step>, second: seq<World>, down: seq<Step>)
    requires Path(first, up) && Path(second, down) && first[|up|] == second[0]
    ensures Path(first + second[1..], up + down)
    ensures forall i :: 0 <= i <= |down| ==> (first + second[1..])[|up| + i] == second[i]
  {
    hide Next;
    var worlds, steps := first + second[1..], up + down;
    forall i | 0 <= i < |steps| ensures Moves(worlds, steps, i) {
      assert if i < |up| then Moves(first, up, i) else Moves(second, down, i - |up|);
    }
  }

  ghost predicate AllFit(worlds: seq<World>, s: Settings, longest: nat) {
    forall i :: 0 <= i < |worlds| ==> FitsAt(worlds[i], s, longest)
  }

  /** A reselection is running, sent just now. */
  ghost predicate OneRunning(w: World) {
    && |w.pending| == 1 && w.pending[0].0.action == OperatorReselect && w.pending[0].1 == w.now
    && w.worker.rec.stage == 0 && w.worker.since == Some(0) && w.now == w.settings.delay
    && w.worker.rec.attempts == [w.now]
    && |w.issued| == 1 && w.issued[0].stage == 0
  }

  lemma FirstAction(s: Settings) returns (worlds: seq<World>, steps: seq<Step>)
    requires s.limit > 0
    ensures Path(worlds, steps) && Init(worlds[0]) && AllFit(worlds, s, 0) && OneRunning(worlds[|steps|])
  {
    hide Next, OneRunning, Acts, Pruned;
    var w0 := World(0, s, Worker(NEW_RECORD, None, None, []), [], []);
    var w1 := w0.(worker := w0.worker.(since := Some(0)));
    ReopenedNew(w0);
    var w2 := w1.(now := s.delay);
    Waited(w1, s.delay);
    OldPruned(w2.worker.rec.attempts, w2.now);
    SampleActs(w2);
    var w3 := Next(w2, Sampled(LOST));
    FirstSent(w2, w3);
    worlds, steps := [w0, w1, w2, w3], [Reopened(false, false), Wait(s.delay), Sampled(LOST)];
    assert Moves(worlds, steps, 0) && Moves(worlds, steps, 1) && Moves(worlds, steps, 2);
  }

  /** Reopening the port of a new module only starts its clock. */
  lemma ReopenedNew(w: World)
    requires w.worker == Worker(NEW_RECORD, None, None, [])
    ensures Next(w, Reopened(false, false)) == w.(worker := w.worker.(since := Some(w.now)))
  {
  }

  lemma Waited(w: World, seconds: nat)
    requires w.worker.rec.stage < |STAGES|
    ensures Next(w, Wait(seconds)) == w.(now := w.now + seconds)
  {
  }

  lemma FirstSent(w: World, next: World)
    requires w.worker == Worker(NEW_RECORD, Some(0), None, []) && w.now == w.settings.delay
    requires w.pending == [] && w.issued == [] && Acts(w, next)
    ensures OneRunning(next) && FitsAt(next, w.settings, 0)
  {
    OldPruned([], w.now);
    hide Pruned;
  }

  /** Two reselections are running, the second sent just now. */
  ghost predicate TwoRunning(w: World) {
    && |w.pending| == 2 && w.pending[0].0.action == OperatorReselect && w.pending[1].0.action == OperatorReselect
    && w.pending[1].1 == w.now
    && w.worker.rec.stage == 0 && w.worker.since == Some(0) && w.now >= w.settings.delay
    && (forall i :: 0 <= i < |w.worker.rec.attempts| ==> w.worker.rec.attempts[i] <= w.now)
    && |w.issued| == 2 && w.issued[0].stage == 0 && w.issued[1].stage == 0
  }

  /** A gap after the first, while that is still running, a second is sent. */
  lemma SecondAction(w: World) returns (worlds: seq<World>, steps: seq<Step>)
    requires OneRunning(w) && w.settings.limit > 0
    ensures Path(worlds, steps) && worlds[0] == w && AllFit(worlds, w.settings, Gap(w.settings)) &&
      TwoRunning(worlds[|steps|])
  {
    hide Next, TwoRunning, Acts, Pruned, Recent;
    var gap := Gap(w.settings);
    var w1 := w.(now := w.now + gap);
    Waited(w, gap);
    PrunedOne(w.now, w1.now);
    SecondDue(w.settings, w.now, Pruned([w.now], w1.now));
    SampleActs(w1);
    var w2 := Next(w1, Sampled(LOST));
    SecondSent(w, w1, w2);
    worlds, steps := [w, w1, w2], [Wait(gap), Sampled(LOST)];
    assert Moves(worlds, steps, 0) && Moves(worlds, steps, 1);
    assert FitsAt(w, w.settings, gap) && FitsAt(w1, w.settings, gap);
  }

  lemma SecondSent(w: World, later: World, next: World)
    requires OneRunning(w) && w.settings.limit > 0 && later == w.(now := w.now + Gap(w.settings)) && Acts(later, next)
    ensures TwoRunning(next) && FitsAt(next, w.settings, Gap(w.settings))
  {
    PrunedOne(w.now, later.now);
    hide Pruned, Recent;
  }

  /** A gap after one attempt the guards allow the next. */
  lemma SecondDue(s: Settings, at: int, kept: seq<int>)
    requires s.limit > 0 && kept == if Recent(at, at + Gap(s)) then [at] else []
    ensures |kept| < s.limit && (kept == [] || at + Gap(s) - kept[|kept| - 1] >= s.cooldown)
  {
  }

  lemma PrunedOne(at: int, now: int)
    ensures Pruned([at], now) == if Recent(at, now) then [at] else []
  {
    assert [at][1..] == [];
  }

  lemma FailedReturn(w: World)
    requires w.worker.rec.stage < 2 && w.pending != [] && w.pending[0].0.action == OperatorReselect
    ensures var next := Next(w, Returned(0, false));
      && next == w.(worker := next.worker, pending := w.pending[1..])
      && next.worker.rec.stage == w.worker.rec.stage + 1
      && next.worker.rec.attempts == w.worker.rec.attempts && next.worker.since == w.worker.since
  {
  }

  /** Both fail; a day later the next action is a reset, with no radio cycle between. */
  lemma BothFail(w: World) returns (worlds: seq<World>, steps: seq<Step>)
    requires TwoRunning(w) && w.settings.limit > 0
    ensures Path(worlds, steps) && worlds[0] == w && AllFit(worlds[1..], w.settings, 0)
    ensures var end := worlds[|steps|];
      |end.issued| == 3 && end.issued[1].stage == 0 && end.issued[2].stage == 2
  {
    hide Next, Acts, Pruned;
    FailedReturn(w);
    var w1 := Next(w, Returned(0, false));
    FailedReturn(w1);
    var w2 := Next(w1, Returned(0, false));
    var w3 := w2.(now := w2.now + DAY);
    Waited(w2, DAY);
    OldPruned(w3.worker.rec.attempts, w3.now);
    SampleActs(w3);
    var w4 := Next(w3, Sampled(LOST));
    worlds := [w, w1, w2, w3, w4];
    steps := [Returned(0, false), Returned(0, false), Wait(DAY), Sampled(LOST)];
    ResetSent(w3, w4);
    assert Moves(worlds, steps, 0) && Moves(worlds, steps, 1) && Moves(worlds, steps, 2) && Moves(worlds, steps, 3);
    assert worlds[1..] == [w1, w2, w3, w4];
  }

  lemma ResetSent(w: World, next: World)
    requires Acts(w, next) && w.pending == [] && w.worker.rec.stage == 2 && |w.issued| == 2 && w.issued[1].stage == 0
    ensures FitsAt(next, w.settings, 0) && |next.issued| == 3 && next.issued[1].stage == 0 && next.issued[2].stage == 2
  {
    hide Pruned;
  }

  /** From a fresh start, an action as long as the gap lets the radio cycle be skipped. */
  lemma SkippingRun(s: Settings, longest: nat) returns (worlds: seq<World>, steps: seq<Step>)
    requires s.limit > 0 && longest >= Gap(s)
    ensures Within(worlds, steps, s, longest) && Init(worlds[0]) && !Climbs(worlds[|steps|].issued)
  {
    hide Next, Init, OneRunning, TwoRunning, Path;
    var a, up := FirstAction(s);
    assert |a| == |up| + 1 && FitsAt(a[|up|], s, 0) by {
      PathLength(a, up);
    }
    var b, on := SecondAction(a[|up|]);
    PathLength(b, on);
    assert FitsAt(b[|on|], s, Gap(s));
    var c, down := BothFail(b[|on|]);
    PathLength(c, down);
    Joined(a, up, b, on);
    Joined(a + b[1..], up + on, c, down);
    worlds, steps := a + b[1..] + c[1..], up + on + down;
    AllFitJoined(a, b, c, s, longest);
    SkippedStage(worlds[|steps|].issued);
  }

  lemma PathLength(worlds: seq<World>, steps: seq<Step>)
    requires Path(worlds, steps)
    ensures |worlds| == |steps| + 1
  {
  }

  lemma AllFitJoined(a: seq<World>, b: seq<World>, c: seq<World>, s: Settings, longest: nat)
    requires a != [] && b != [] && c != [] && longest >= Gap(s)
    requires AllFit(a, s, 0) && AllFit(b, s, Gap(s)) && AllFit(c[1..], s, 0)
    ensures AllFit(a + b[1..] + c[1..], s, longest)
  {
    var worlds := a + b[1..] + c[1..];
    forall i | 0 <= i < |worlds| ensures FitsAt(worlds[i], s, longest) {
      if i < |a| {
        assert FitsAt(a[i], s, 0);
      } else if i < |a + b[1..]| {
        assert FitsAt(b[i - |a| + 1], s, Gap(s));
      } else {
        assert FitsAt(c[1..][i - |a + b[1..]|], s, 0);
      }
    }
  }

  lemma SkippedStage(issued: seq<Issued>)
    requires |issued| == 3 && issued[1].stage == 0 && issued[2].stage == 2
    ensures !Climbs(issued)
  {
    assert LastStage(issued[..2]) == 0;
  }

  /**
   Under fixed settings, with no action running longer than longest, no run
   skips a stage if and only if recovery is switched off or the actions are
   shorter than the gap between them.
   */
  lemma NoSkipIff(s: Settings, longest: nat)
    ensures (forall worlds: seq<World>, steps: seq<Step> :: Within(worlds, steps, s, longest) && Init(worlds[0])
               ==> Climbs(worlds[|steps|].issued))
      <==> s.limit == 0 || longest < Gap(s)
  {
    if s.limit == 0 || longest < Gap(s) {
      forall worlds: seq<World>, steps: seq<Step> | Within(worlds, steps, s, longest) && Init(worlds[0])
        ensures Climbs(worlds[|steps|].issued)
      {
        ShortActionsAlone(worlds, steps, s, longest);
        NoStageSkipped(worlds, steps);
      }
    } else {
      var worlds, steps := SkippingRun(s, longest);
    }
  }
}
