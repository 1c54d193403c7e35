/** The rate limit of registration recovery over every run, restarts included. */
module RecoverySafety {
  import opened Basics
  import opened Recovery

  /** An action sent to the module, with the settings it was taken under. */
  datatype Issued = Issued(at: int, stage: nat, limit: nat, cooldown: nat)

  /** pending: the actions whose AT command has not returned; a forced refresh can overlap a periodic sample. */
  datatype World =
      World(now: int, settings: Settings, worker: Worker, pending: seq<(Inflight, int)>, issued: seq<Issued>)

  datatype Step =
    | Wait(seconds: nat)
    | Sampled(seen: Sample)
    | Returned(k: nat, recovered: bool)
    | GaveUp(k: nat)
    | HealthLost
    | Reopened(radioOff: bool, registered: bool)
    | OperatorChose(registered: bool, calledOff: bool)
    | Restart(settings: Settings)

  function Remove<T>(s: seq<T>, k: nat): seq<T>
    requires k < |s|
  {
    s[..k] + s[k + 1..]
  }

  ghost predicate Enabled(w: World, step: Step) {
    match step
    case Returned(k, _) => k < |w.pending|
    case GaveUp(k) => k < |w.pending|
    case _ => true
  }

  function Next(w: World, step: Step): World
    requires w.worker.rec.stage < |STAGES|
    requires step.Returned? || step.GaveUp? ==> step.k < |w.pending|
  {
    match step
    case Wait(seconds) => w.(now := w.now + seconds)
    case Sampled(seen) =>
      var (worker, action) := Decide(w.worker, seen, w.now, w.settings);
      if action.None? then w.(worker := worker)
      else
        w.(worker := worker, pending := w.pending + [(action.value, w.now)],
           issued := w.issued + [Issued(w.now, w.worker.rec.stage, w.settings.limit, w.settings.cooldown)])
    case Returned(k, recovered) =>
      var (inflight, began) := w.pending[k];
      var worker :=
        if inflight.action == ModuleReset then ResetAsked(w.worker, began) else Acted(w.worker, inflight, recovered);
      w.(worker := worker, pending := Remove(w.pending, k))
    case GaveUp(k) => w.(pending := Remove(w.pending, k))
    case HealthLost => w.(worker := Start(w.worker, SerialReconnect))
    case Reopened(radioOff, registered) => w.(worker := Settle(w.worker, radioOff, registered, w.now))
    case OperatorChose(registered, calledOff) => w.(worker := Chosen(w.worker, registered, calledOff, w.now))
    case Restart(settings) =>
      w.(settings := settings, worker := Load(w.worker.disk, w.now, w.worker.notes), pending := [])
  }

  // ------------------------------------------------------------ invariant

  /** The attempts are the tail of what was issued; whatever is missing is a day old. */
  ghost predicate Tail(attempts: seq<int>, issued: seq<Issued>, now: int) {
    && |attempts| <= |issued|
    && (forall i :: 0 <= i < |attempts| ==> attempts[i] == issued[|issued| - |attempts| + i].at)
    && (forall i :: 0 <= i < |issued| - |attempts| ==> now - issued[i].at >= DAY)
  }

  ghost predicate InOrder(issued: seq<Issued>, now: int) {
    && (forall i, j :: 0 <= i <= j < |issued| ==> issued[i].at <= issued[j].at)
    && (forall i :: 0 <= i < |issued| ==> issued[i].at <= now)
  }

  /** Each action keeps its distance from the one before, and from the one limit places back. */
  ghost predicate Spaced(issued: seq<Issued>) {
    forall j :: 0 <= j < |issued| ==> WellSpaced(issued, j)
  }

  ghost predicate WellSpaced(issued: seq<Issued>, j: nat)
    requires j < |issued|
  {
    && issued[j].limit > 0
    && (j >= issued[j].limit ==> issued[j].at - issued[j - issued[j].limit].at >= DAY)
    && (j > 0 ==> issued[j].at - issued[j - 1].at >= Min(issued[j].cooldown, DAY))
  }

  function OnDisk(w: Worker): Record {
    if w.disk.Some? then w.disk.value else NEW_RECORD
  }

  /** Attempt numbers only grow, and the counter is on disk. */
  ghost predicate Numbered(w: Worker) {
    && OnDisk(w).sequence == w.rec.sequence
    && (forall i :: 0 <= i < |w.notes| && w.notes[i].Started? ==> w.notes[i].attempt <= w.rec.sequence)
    && (forall i, j :: 0 <= i < j < |w.notes| && w.notes[i].Started? && w.notes[j].Started? ==>
      w.notes[i].attempt < w.notes[j].attempt)
  }

  ghost predicate Inv(w: World) {
    && w.worker.rec.stage < |STAGES|
    && InOrder(w.issued, w.now)
    && Spaced(w.issued)
    && Tail(w.worker.rec.attempts, w.issued, w.now)
    && Tail(OnDisk(w.worker).attempts, w.issued, w.now)
    && Numbered(w.worker)
  }

  ghost predicate Init(w: World) {
    w.issued == [] && w.pending == [] && w.worker == Worker(NEW_RECORD, None, None, [])
  }

  // ------------------------------------------------------------ pruning and loading

  ghost predicate Sorted(times: seq<int>) {
    forall i, j :: 0 <= i <= j < |times| ==> times[i] <= times[j]
  }

  lemma TailSorted(attempts: seq<int>, issued: seq<Issued>, now: int)
    requires Tail(attempts, issued, now) && InOrder(issued, now)
    ensures Sorted(attempts) && forall i :: 0 <= i < |attempts| ==> attempts[i] <= now
  {
  }

  lemma PrunedRecent(attempts: seq<int>, now: int)
    requires Sorted(attempts) && forall i :: 0 <= i < |attempts| ==> attempts[i] <= now
    ensures forall i :: 0 <= i < |Pruned(attempts, now)| ==> Recent(Pruned(attempts, now)[i], now)
  {
    PrunedIsTail(attempts, now);
    var kept := Pruned(attempts, now);
    var cut := |attempts| - |kept|;
    forall i | 0 <= i < |kept| ensures Recent(kept[i], now) {
      assert kept[0] == attempts[cut] && kept[i] == attempts[cut + i];
    }
  }

  /** Pruning a tail leaves exactly the recent part. */
  lemma PrunedTail(attempts: seq<int>, issued: seq<Issued>, now: int)
    requires Tail(attempts, issued, now) && InOrder(issued, now)
    ensures Tail(Pruned(attempts, now), issued, now)
  {
    hide Pruned;
    PrunedIsTail(attempts, now);
    var kept := Pruned(attempts, now);
    var cut, old0 := |attempts| - |kept|, |issued| - |attempts|;
    forall i | 0 <= i < |kept| ensures kept[i] == issued[|issued| - |kept| + i].at {
      assert kept[i] == attempts[cut + i];
    }
    forall i | 0 <= i < |issued| - |kept| ensures now - issued[i].at >= DAY {
      if i >= old0 {
        assert attempts[i - old0] == issued[i].at && !Recent(attempts[i - old0], now);
      }
    }
  }

  /** Filtering a sorted list by age is pruning its front, and leaves it sorted. */
  lemma {:induction false} FilterIsPruned(times: seq<int>, now: int)
    requires Sorted(times) && forall i :: 0 <= i < |times| ==> times[i] <= now
    ensures Filter(times, at => Recent(at, now)) == Pruned(times, now)
  {
    if times != [] {
      FilterIsPruned(times[1..], now);
      if Recent(times[0], now) {
        AllKept(times, now);
      }
    }
  }

  lemma {:induction false} AllKept(times: seq<int>, now: int)
    requires forall i :: 0 <= i < |times| ==> Recent(times[i], now)
    ensures Filter(times, at => Recent(at, now)) == times
  {
    if times != [] {
      AllKept(times[1..], now);
    }
  }

  lemma {:induction false} SortedStays(times: seq<int>)
    requires Sorted(times)
    ensures SortTimes(times) == times
  {
    if times != [] {
      SortedStays(times[1..]);
    }
  }

  lemma LoadTail(disk: Record, issued: seq<Issued>, now: int)
    requires Tail(disk.attempts, issued, now) && InOrder(issued, now)
    ensures Tail(SortTimes(Filter(disk.attempts, at => Recent(at, now))), issued, now)
  {
    TailSorted(disk.attempts, issued, now);
    FilterIsPruned(disk.attempts, now);
    PrunedTail(disk.attempts, issued, now);
    PrunedRecent(disk.attempts, now);
    TailSorted(Pruned(disk.attempts, now), issued, now);
    SortedStays(Pruned(disk.attempts, now));
  }

  // ------------------------------------------------------------ steps

  /** An action taken when the guard allows keeps the distances. */
  lemma IssueKeeps(attempts: seq<int>, issued: seq<Issued>, now: int, stage: nat, s: Settings)
    requires InOrder(issued, now) && Spaced(issued) && Tail(attempts, issued, now)
    requires forall i :: 0 <= i < |attempts| ==> Recent(attempts[i], now)
    requires |attempts| < s.limit
    requires attempts == [] || now - attempts[|attempts| - 1] >= s.cooldown
    ensures var after := issued + [Issued(now, stage, s.limit, s.cooldown)];
      InOrder(after, now) && Spaced(after) && Tail(attempts + [now], after, now)
  {
    var after := issued + [Issued(now, stage, s.limit, s.cooldown)];
    var n := |issued|;
    forall j | 0 <= j < |after| ensures WellSpaced(after, j) {
      if j < n {
        assert WellSpaced(issued, j);
      } else {
        LastSpaced(attempts, issued, now, stage, s);
      }
    }
    forall i | 0 <= i < |attempts| + 1 ensures (attempts + [now])[i] == after[|after| - |attempts| - 1 + i].at {
      if i < |attempts| {
        assert attempts[i] == issued[n - |attempts| + i].at;
      }
    }
  }

  lemma LastSpaced(attempts: seq<int>, issued: seq<Issued>, now: int, stage: nat, s: Settings)
    requires Tail(attempts, issued, now) && |attempts| < s.limit
    requires attempts == [] || now - attempts[|attempts| - 1] >= s.cooldown
    ensures WellSpaced(issued + [Issued(now, stage, s.limit, s.cooldown)], |issued|)
  {
    var n := |issued|;
    if n > 0 {
      if attempts == [] {
        assert now - issued[n - 1].at >= DAY;
      } else {
        assert attempts[|attempts| - 1] == issued[n - 1].at;
      }
    }
  }

  lemma CloseKeeps(w: Worker, outcome: Outcome)
    requires w.rec.stage < |STAGES| && Numbered(w)
    ensures Close(w, outcome).rec.stage == 0 && Numbered(Close(w, outcome))
    ensures Close(w, outcome).rec.attempts == w.rec.attempts
    ensures OnDisk(Close(w, outcome)).attempts == w.rec.attempts || OnDisk(Close(w, outcome)) == OnDisk(w)
  {
  }

  lemma StartNumbered(w: Worker, action: Action)
    requires Numbered(w)
    ensures Numbered(Start(w, action))
  {
  }

  lemma SameNumbers(w: Worker, after: Worker)
    requires Numbered(w) && after.notes == w.notes && after.rec.sequence == w.rec.sequence
    requires after.disk == w.disk || after.disk == Some(after.rec)
    ensures Numbered(after)
  {
  }

  lemma PruneKeeps(w: Worker, now: int, limit: nat)
    requires Numbered(w)
    ensures var pruned := Prune(w, now, limit);
      && Numbered(pruned)
      && pruned.rec.attempts == Pruned(w.rec.attempts, now) && pruned.rec.stage == w.rec.stage
      && (pruned.disk == w.disk || pruned.disk == Some(pruned.rec))
  {
    SameNumbers(w, Prune(w, now, limit));
  }

  lemma EngageKeeps(w: World, pruned: Worker)
    requires Inv(w.(worker := pruned))
    requires forall i :: 0 <= i < |pruned.rec.attempts| ==> Recent(pruned.rec.attempts[i], w.now)
    requires |pruned.rec.attempts| < w.settings.limit
    requires pruned.rec.attempts == [] || w.now - pruned.rec.attempts[|pruned.rec.attempts| - 1] >= w.settings.cooldown
    ensures Inv(w.(worker := Engage(pruned, w.now).0,
      issued := w.issued + [Issued(w.now, pruned.rec.stage, w.settings.limit, w.settings.cooldown)]))
  {
    IssueKeeps(pruned.rec.attempts, w.issued, w.now, pruned.rec.stage, w.settings);
    var ready := pruned.(rec := pruned.rec.(attempts := pruned.rec.attempts + [w.now]));
    StartNumbered(ready, STAGES[pruned.rec.stage]);
  }

  /** The invariant only looks at the attempts, the stored row, the stage and the numbering. */
  lemma Rebuild(w: World, v: Worker)
    requires Inv(w) && v.rec.stage < |STAGES| && Numbered(v) && Tail(v.rec.attempts, w.issued, w.now)
    requires v.disk == w.worker.disk || v.disk == Some(v.rec)
    ensures Inv(w.(worker := v))
  {
  }

  lemma LateSampleKeeps(w: World, waiting: Worker)
    requires Inv(w) && waiting == Waiting(w.worker, w.now)
    ensures var pruned := Prune(waiting, w.now, w.settings.limit);
      && Inv(w.(worker := pruned)) && pruned.rec.stage == w.worker.rec.stage
      && forall i :: 0 <= i < |pruned.rec.attempts| ==> Recent(pruned.rec.attempts[i], w.now)
  {
    hide Tail, InOrder, Spaced, Recent, Numbered;
    SameNumbers(w.worker, waiting);
    PruneKeeps(waiting, w.now, w.settings.limit);
    TailSorted(w.worker.rec.attempts, w.issued, w.now);
    PrunedTail(w.worker.rec.attempts, w.issued, w.now);
    PrunedRecent(w.worker.rec.attempts, w.now);
    Rebuild(w, Prune(waiting, w.now, w.settings.limit));
  }

  lemma ReportKeeps(w: World)
    requires Inv(w)
    ensures Inv(w.(worker := ReportLimit(w.worker)))
  {
  }

  lemma SampleKeeps(w: World, seen: Sample)
    requires Inv(w)
    ensures Inv(Next(w, Sampled(seen)))
  {
    if seen.radioOff || seen.manual || seen.registered || w.settings.limit == 0 {
      ClosedKeeps(w, Cancelled);
      ClosedKeeps(w, Succeeded);
    } else {
      UnregisteredKeeps(w, seen);
    }
  }

  lemma UnregisteredKeeps(w: World, seen: Sample)
    requires Inv(w) && !seen.radioOff && !seen.manual && !seen.registered && w.settings.limit > 0
    ensures Inv(Next(w, Sampled(seen)))
  {
    hide Tail, InOrder, Spaced, Recent, Numbered, Prune, ReportLimit, Start;
    var waiting := Waiting(w.worker, w.now);
    SameNumbers(w.worker, waiting);
    Rebuild(w, waiting);
    if w.now - waiting.since.value >= w.settings.delay {
      LateSampleKeeps(w, waiting);
      var pruned := Prune(waiting, w.now, w.settings.limit);
      if |pruned.rec.attempts| >= w.settings.limit {
        ReportKeeps(w.(worker := pruned));
      } else if Due(w.worker, w.now, w.settings) {
        EngageKeeps(w, pruned);
      }
    }
  }

  lemma ReturnKeeps(w: World, k: nat, recovered: bool)
    requires Inv(w) && k < |w.pending|
    ensures Inv(Next(w, Returned(k, recovered)))
  {
  }

  lemma FinishKeeps(w: World, action: Action, attempt: nat, outcome: Outcome)
    requires Inv(w)
    ensures Inv(w.(worker := Finish(w.worker, action, attempt, outcome)))
  {
  }

  lemma ClosedKeeps(w: World, outcome: Outcome)
    requires Inv(w)
    ensures Inv(w.(worker := Close(w.worker, outcome)))
  {
    CloseKeeps(w.worker, outcome);
  }

  lemma SettledKeeps(w: World, radioOff: bool, registered: bool)
    requires Inv(w)
    ensures Inv(w.(worker := Settled(w.worker, radioOff, registered)))
  {
    if w.worker.rec.inflight.Some? {
      var f := w.worker.rec.inflight.value;
      FinishKeeps(w, f.action, f.attempt, Succeeded);
      FinishKeeps(w, f.action, f.attempt, Cancelled);
      FinishKeeps(w, f.action, f.attempt, Failed);
    }
  }

  lemma SettleKeeps(w: World, radioOff: bool, registered: bool)
    requires Inv(w)
    ensures Inv(Next(w, Reopened(radioOff, registered)))
  {
    hide Tail, InOrder, Spaced, Numbered;
    SettledKeeps(w, radioOff, registered);
    var settled := w.(worker := Settled(w.worker, radioOff, registered));
    ClosedKeeps(settled, Succeeded);
    ClosedKeeps(settled, Cancelled);
    SameNumbers(settled.worker, settled.worker.(since := Some(w.now)));
  }

  lemma StepKeeps(w: World, step: Step)
    requires Inv(w) && Enabled(w, step)
    ensures Inv(Next(w, step))
  {
    match step
    case Wait(_) =>
    case Sampled(seen) => SampleKeeps(w, seen);
    case Returned(k, recovered) => ReturnKeeps(w, k, recovered);
    case GaveUp(_) =>
    case HealthLost => StartNumbered(w.worker, SerialReconnect);
    case Reopened(radioOff, registered) => SettleKeeps(w, radioOff, registered);
    case OperatorChose(registered, calledOff) =>
      ClosedKeeps(w, if registered then Succeeded else Cancelled);
    case Restart(_) =>
      if w.worker.disk.Some? {
        LoadTail(w.worker.disk.value, w.issued, w.now);
      }
  }

  // ------------------------------------------------------------ runs

  ghost predicate Moves(worlds: seq<World>, steps: seq<Step>, i: nat)
    requires i < |steps| && |worlds| == |steps| + 1
  {
    && worlds[i].worker.rec.stage < |STAGES| && Enabled(worlds[i], steps[i])
    && worlds[i + 1] == Next(worlds[i], steps[i])
  }

  ghost predicate Path(worlds: seq<World>, steps: seq<Step>) {
    |worlds| == |steps| + 1 && forall i :: 0 <= i < |steps| ==> Moves(worlds, steps, i)
  }

  /** The steps, each enabled where it is taken, lead from w to end. */
  ghost predicate Reaches(w: World, steps: seq<Step>, end: World) {
    exists worlds :: Path(worlds, steps) && worlds[0] == w && worlds[|steps|] == end
  }

  lemma {:induction false} PathKeeps(worlds: seq<World>, steps: seq<Step>, k: nat)
    requires Path(worlds, steps) && k <= |steps| && Inv(worlds[0])
    ensures Inv(worlds[k])
  {
    hide Inv;
    if k > 0 {
      PathKeeps(worlds, steps, k - 1);
      assert Moves(worlds, steps, k - 1);
      StepKeeps(worlds[k - 1], steps[k - 1]);
    }
  }

  lemma RunKeeps(w: World, steps: seq<Step>, end: World)
    requires Inv(w) && Reaches(w, steps, end)
    ensures Inv(end)
  {
    hide Inv;
    var worlds :| Path(worlds, steps) && worlds[0] == w && worlds[|steps|] == end;
    PathKeeps(worlds, steps, |steps|);
  }

  lemma {:induction false} Interval(s: set<int>, low: int, high: int)
    requires low <= high && forall v :: v in s ==> low <= v < high
    ensures |s| <= high - low
    decreases high - low
  {
    if low == high {
      assert s == {};
    } else {
      Interval(s - {high - 1}, low, high - 1);
    }
  }

  /** The places of the actions issued in the 24 hours from start. */
  function WindowOf(issued: seq<Issued>, start: int): set<int> {
    set i | 0 <= i < |issued| && start <= issued[i].at < start + DAY
  }

  lemma WindowBounded(issued: seq<Issued>, now: int, start: int, limit: nat)
    requires InOrder(issued, now) && Spaced(issued)
    requires forall i :: 0 <= i < |issued| ==> issued[i].limit <= limit
    ensures |WindowOf(issued, start)| <= limit
  {
    var inside := WindowOf(issued, start);
    if inside != {} {
      var last := LastIn(issued, start, AnyOf(inside));
      var low := last - issued[last].limit + 1;
      assert WellSpaced(issued, last);
      if low > 0 {
        assert issued[last].at - issued[low - 1].at >= DAY;
      }
      Interval(inside, low, last + 1);
    }
  }

  lemma {:induction false} LastIn(issued: seq<Issued>, start: int, m: nat) returns (last: nat)
    requires m in WindowOf(issued, start)
    ensures last in WindowOf(issued, start) && forall i :: i in WindowOf(issued, start) ==> i <= last
    decreases |issued| - m
  {
    if i :| i in WindowOf(issued, start) && i > m {
      last := LastIn(issued, start, i);
    } else {
      last := m;
    }
  }

  /** In every run, any 24 hours hold at most as many actions as the settings allow. */
  lemma RateLimited(w: World, steps: seq<Step>, end: World, start: int, limit: nat)
    requires Init(w) && Reaches(w, steps, end)
    requires forall i :: 0 <= i < |end.issued| ==> end.issued[i].limit <= limit
    ensures |WindowOf(end.issued, start)| <= limit
  {
    RunKeeps(w, steps, end);
    WindowBounded(end.issued, end.now, start, limit);
  }

  /** In every run, each action keeps its cooldown from the one before it, up to a day. */
  lemma CooledDown(w: World, steps: seq<Step>, end: World, j: nat)
    requires Init(w) && Reaches(w, steps, end) && 0 < j < |end.issued|
    ensures end.issued[j].at - end.issued[j - 1].at >= Min(end.issued[j].cooldown, DAY)
  {
    RunKeeps(w, steps, end);
    assert WellSpaced(end.issued, j);
  }

  /** In every run, an action of the last day is in the stored row, so no restart forgets it. */
  lemma StoredWhileRecent(w: World, steps: seq<Step>, end: World, j: nat)
    requires Init(w) && Reaches(w, steps, end) && j < |end.issued| && end.now - end.issued[j].at < DAY
    ensures end.worker.disk.Some? && end.issued[j].at in end.worker.disk.value.attempts
  {
    RunKeeps(w, steps, end);
    var attempts := OnDisk(end.worker).attempts;
    assert attempts[j - (|end.issued| - |attempts|)] == end.issued[j].at;
  }

  /** The action and its attempt are in the stored row when its AT command goes out. */
  lemma StoredBeforeCommand(w: World, seen: Sample)
    requires Inv(w)
    ensures var next := Next(w, Sampled(seen));
      |next.issued| > |w.issued| ==>
      && next.worker.disk == Some(next.worker.rec)
      && next.worker.rec.attempts != [] && next.worker.rec.attempts[|next.worker.rec.attempts| - 1] == w.now
      && next.pending == w.pending + [(next.worker.rec.inflight.value, w.now)]
      && next.worker.rec.inflight.value.action == STAGES[w.worker.rec.stage]
  {
  }

  /** In every run, no two recoveries announce the same attempt number. */
  lemma AttemptsDistinct(w: World, steps: seq<Step>, end: World, i: nat, j: nat)
    requires Init(w) && Reaches(w, steps, end) && i < j < |end.worker.notes|
    requires end.worker.notes[i].Started? && end.worker.notes[j].Started?
    ensures end.worker.notes[i].attempt < end.worker.notes[j].attempt
  {
    RunKeeps(w, steps, end);
  }
}
