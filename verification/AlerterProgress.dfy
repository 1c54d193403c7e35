/** The alerter does page: what becomes of a timer that nobody calls off. */
module AlerterProgress {
  import opened Alerter
  import opened AlerterSafety

  // ------------------------------------------------------------ the way to a page

  /** How many turns of its task a timer has behind it. */
  function Stage(phase: Phase): nat {
    match phase
    case Unstarted => 0
    case ReadingEnabled => 1
    case Sleeping(_) => 2
    case Recording => 3
    case Delivering => 4
  }

  /** Nothing is noted of the module, the alerter is not closed, and the timer's questions are answered with yes. */
  predicate Leaves(step: Step, id: nat, key: Key) {
    match step
    case Wait(_) => true
    case Note(other, _) => other != key
    case Resume(other, answer) => other == id ==> answer
    case Close => false
  }

  ghost predicate AllLeave(steps: seq<Step>, id: nat, key: Key) {
    forall i :: 0 <= i < |steps| ==> Leaves(steps[i], id, key)
  }

  function TurnsOf(steps: seq<Step>, id: nat): nat {
    if steps == [] then 0
    else
      var last := steps[|steps| - 1];
      TurnsOf(steps[..|steps| - 1], id) + if last.Resume? && last.id == id then 1 else 0
  }

  function PagesOf(history: seq<Happening>, key: Key): nat {
    if history == [] then 0
    else
      var last := history[|history| - 1];
      PagesOf(history[..|history| - 1], key) + if last.Paged? && last.key == key then 1 else 0
  }

  /** The timer has n turns behind it: before the fourth the module is counting down, from then on it is paged. */
  ghost predicate OnItsWay(s: State, id: nat, key: Key, n: nat, pages: nat) {
    && !s.closed
    && if n < 4 then
         && id in s.timers && s.timers[id].key == key && !s.timers[id].cancelled && Stage(s.timers[id].phase) == n
         && PagesOf(s.history, key) == pages && key !in s.alerted
       else key in s.alerted && PagesOf(s.history, key) == pages + 1
  }

  lemma PagesSnoc(history: seq<Happening>, h: Happening, key: Key)
    ensures PagesOf(history + [h], key) == PagesOf(history, key) + if h.Paged? && h.key == key then 1 else 0
  {
    assert (history + [h])[..|history|] == history;
  }

  /** A counting timer is the only one of its module. */
  lemma OnlyTimer(s: State, id: nat, other: nat)
    requires Inv(s) && id in s.timers && other in s.timers && id != other && Counting(s.timers[id])
    requires s.timers[id].key == s.timers[other].key
    ensures !Counting(s.timers[other])
  {
  }

  lemma PagedNotCounting(s: State, id: nat, key: Key)
    requires Inv(s) && id in s.timers && key in s.alerted
    ensures Counting(s.timers[id]) ==> s.timers[id].key != key
  {
  }

  lemma NoteOnWay(s: State, step: Step, id: nat, key: Key, n: nat, pages: nat)
    requires Inv(s) && step.Note? && step.key != key && OnItsWay(s, id, key, n, pages)
    ensures OnItsWay(Next(s, step), id, key, n, pages)
  {
    var noted := Noted(step.key, step.online, s.now);
    PagesSnoc(s.history, noted, key);
    PagesSnoc(s.history + [noted], Announced(step.key, s.now), key);
    hide PagesOf, Alternates, AllPatient, Open, DownSince;
  }

  lemma TurnOnWay(s: State, step: Step, id: nat, key: Key, n: nat, pages: nat)
    requires Inv(s) && step.Resume? && CanResume(s, step.id) && Leaves(step, id, key) && OnItsWay(s, id, key, n, pages)
    ensures OnItsWay(Next(s, step), id, key, n + if step.id == id then 1 else 0, pages)
  {
    hide PagesOf, Inv;
    var t := s.timers[step.id];
    PagesSnoc(s.history, Paged(t.key, s.now), key);
    if n >= 4 {
      PagedNotCounting(s, step.id, key);
    } else if step.id != id && t.key == key {
      OnlyTimer(s, id, step.id);
    }
  }

  lemma {:induction false} StaysOnWay(worlds: seq<State>, steps: seq<Step>, id: nat, key: Key, n: nat, k: nat)
    requires Path(worlds, steps) && AllLeave(steps, id, key) && k <= |steps| && Inv(worlds[0])
    requires OnItsWay(worlds[0], id, key, n, PagesOf(worlds[0].history, key))
    ensures OnItsWay(worlds[k], id, key, n + TurnsOf(steps[..k], id), PagesOf(worlds[0].history, key))
    decreases k
  {
    hide OnItsWay, Next, Inv, CanResume, PagesOf;
    if k > 0 {
      PathKeeps(worlds, steps, k - 1);
      StaysOnWay(worlds, steps, id, key, n, k - 1);
      assert Moves(worlds, steps, k - 1) && Leaves(steps[k - 1], id, key);
      assert steps[..k][..k - 1] == steps[..k - 1];
      var before := n + TurnsOf(steps[..k - 1], id);
      OneStepOnWay(worlds[k - 1], steps[k - 1], id, key, before, PagesOf(worlds[0].history, key));
    }
  }

  lemma OneStepOnWay(s: State, step: Step, id: nat, key: Key, n: nat, pages: nat)
    requires Inv(s) && Enabled(s, step) && Leaves(step, id, key) && OnItsWay(s, id, key, n, pages)
    ensures OnItsWay(Next(s, step), id, key, n + if step.Resume? && step.id == id then 1 else 0, pages)
  {
    match step
    case Wait(_) =>
    case Note(_, _) => NoteOnWay(s, step, id, key, n, pages);
    case Resume(_, _) => TurnOnWay(s, step, id, key, n, pages);
  }

  /**
   From every reachable state in which a timer of a module counts, whatever
   else happens meanwhile: while nothing is noted of the module and the timer's
   questions are answered with yes, its fourth turn pages the module, once, and
   no other turn does.
   */
  lemma PagesInTime(grace: nat, now: int, before: seq<Step>, s: State, id: nat, steps: seq<Step>, end: State)
    requires Reaches(Start(grace, now), before, s) && !s.closed && id in s.timers && Counting(s.timers[id])
    requires Reaches(s, steps, end) && AllLeave(steps, id, s.timers[id].key)
    ensures var key := s.timers[id].key; var n := Stage(s.timers[id].phase) + TurnsOf(steps, id);
      && (n < 4 ==> key !in end.alerted && PagesOf(end.history, key) == PagesOf(s.history, key) && id in end.timers)
      && (n >= 4 ==> key in end.alerted && PagesOf(end.history, key) == PagesOf(s.history, key) + 1)
  {
    RunKeeps(Start(grace, now), before, s);
    var worlds :| Path(worlds, steps) && worlds[0] == s && worlds[|steps|] == end;
    var key := s.timers[id].key;
    CountingNotPaged(s, id);
    hide Reaches, Inv, PagesOf;
    StaysOnWay(worlds, steps, id, key, Stage(s.timers[id].phase), |steps|);
    assert steps[..|steps|] == steps;
  }

  lemma CountingNotPaged(s: State, id: nat)
    requires Inv(s) && id in s.timers && Counting(s.timers[id])
    ensures s.timers[id].key !in s.alerted
  {
  }

  /** Nothing holds a counting timer up for longer than the grace period. */
  lemma CanGoOn(grace: nat, now: int, before: seq<Step>, s: State, id: nat)
    requires Reaches(Start(grace, now), before, s) && id in s.timers
    ensures CanResume(Next(s, Wait(grace)), id)
  {
    RunKeeps(Start(grace, now), before, s);
    if Counting(s.timers[id]) {
      assert TimerOk(s, s.timers[id]);
    }
    hide Reaches, PagesOk, DownSince;
  }

  /** So the shortest run: resume, yes, the grace period, resume, yes. The page is the last thing that happened. */
  lemma PagedAfterGrace(grace: nat, now: int, before: seq<Step>, s: State, id: nat)
      returns (steps: seq<Step>, end: State)
    requires Reaches(Start(grace, now), before, s) && !s.closed
    requires id in s.timers && Counting(s.timers[id]) && s.timers[id].phase == Unstarted
    ensures steps == [Resume(id, true), Resume(id, true), Wait(grace), Resume(id, true), Resume(id, true)]
    ensures Reaches(s, steps, end)
    ensures end.history == s.history + [Paged(s.timers[id].key, s.now + grace)] && s.timers[id].key in end.alerted
  {
    RunKeeps(Start(grace, now), before, s);
    hide Inv, Reaches, Start;
    steps, end := ShortRun(s, id);
  }

  lemma ShortRun(s: State, id: nat) returns (steps: seq<Step>, end: State)
    requires id in s.timers && !s.timers[id].cancelled && s.timers[id].phase == Unstarted
    ensures steps == [Resume(id, true), Resume(id, true), Wait(s.grace), Resume(id, true), Resume(id, true)]
    ensures Reaches(s, steps, end)
    ensures end.history == s.history + [Paged(s.timers[id].key, s.now + s.grace)] && s.timers[id].key in end.alerted
  {
    hide Turn, CanResume;
    steps := [Resume(id, true), Resume(id, true), Wait(s.grace), Resume(id, true), Resume(id, true)];
    FallsAsleep(s, id);
    var s1 := Turn(s, id, true);
    var s2 := Turn(s1, id, true);
    var s3 := s2.(now := s2.now + s.grace);
    assert s3.timers[id] == s.timers[id].(phase := Sleeping(s.now + s.grace)) && s3.history == s.history;
    WakesUp(s3, id);
    hide SetPhase;
    var s4 := Turn(s3, id, true);
    end := Turn(s4, id, true);
    var worlds := [s, s1, s2, s3, s4, end];
    assert Moves(worlds, steps, 0);
    assert Moves(worlds, steps, 1);
    assert Moves(worlds, steps, 2);
    assert Moves(worlds, steps, 3);
    assert Moves(worlds, steps, 4);
    hide Moves;
    assert Path(worlds, steps);
  }

  lemma FallsAsleep(s: State, id: nat)
    requires id in s.timers && !s.timers[id].cancelled && s.timers[id].phase == Unstarted
    ensures CanResume(s, id) && id in Turn(s, id, true).timers && CanResume(Turn(s, id, true), id)
    ensures Turn(Turn(s, id, true), id, true) == SetPhase(s, id, Sleeping(s.now + s.grace))
  {
  }

  lemma WakesUp(s: State, id: nat)
    requires id in s.timers && !s.timers[id].cancelled && s.timers[id].phase.Sleeping?
    requires s.now >= s.timers[id].phase.until
    ensures CanResume(s, id) && id in Turn(s, id, true).timers && CanResume(Turn(s, id, true), id)
    ensures var end := Turn(Turn(s, id, true), id, true);
      end.history == s.history + [Paged(s.timers[id].key, s.now)] && s.timers[id].key in end.alerted
  {
  }

  // ------------------------------------------------------------ when it does not page

  /** A "no" at either question ends the countdown: no page, no entry, and the next offline note starts a new one. */
  lemma NoEndsQuietly(grace: nat, now: int, before: seq<Step>, s: State, id: nat)
    requires Reaches(Start(grace, now), before, s) && !s.closed && id in s.timers && Counting(s.timers[id])
    requires s.timers[id].phase.ReadingEnabled? || s.timers[id].phase.Recording?
    ensures var key, after := s.timers[id].key, Next(s, Resume(id, false));
      && after.history == s.history && after.alerted == s.alerted && key !in after.alerted
      && key !in after.pending && id !in after.timers
      && (forall other :: other in after.timers && after.timers[other].key == key ==> !Counting(after.timers[other]))
      && var again := Next(after, Note(key, false));
         key in again.pending && again.pending[key] in again.timers && Counting(again.timers[again.pending[key]])
  {
    RunKeeps(Start(grace, now), before, s);
    hide Reaches, Alternates, AllPatient, Open, DownSince;
  }

  /** An online note announces the recovery of a module whose page is open, and of no other. */
  lemma RecoveryIsAnnounced(grace: nat, now: int, before: seq<Step>, s: State, key: Key)
    requires Reaches(Start(grace, now), before, s)
    ensures Next(s, Note(key, true)).history ==
      s.history + [Noted(key, true, s.now)] + if Open(s.history, key) then [Announced(key, s.now)] else []
    ensures Next(s, Note(key, false)).history == s.history + [Noted(key, false, s.now)]
  {
    RunKeeps(Start(grace, now), before, s);
    hide Reaches, Alternates, AllPatient, TimersOk, PendingOk, Numbered;
  }

  // ------------------------------------------------------------ closing

  /** No live timer counts. */
  ghost predicate AllCancelled(s: State) {
    forall id :: id in s.timers ==> s.timers[id].cancelled
  }

  lemma StepSilent(s: State, step: Step)
    requires AllCancelled(s) && Enabled(s, step) && !(step.Note? && !step.online)
    ensures AllCancelled(Next(s, step)) && Next(s, step).history == s.history + NewsOf(s, step)
  {
  }

  /** What a step adds to the history while no timer counts. */
  function NewsOf(s: State, step: Step): seq<Happening> {
    if !step.Note? then []
    else
      [Noted(step.key, step.online, s.now)]
      + if step.online && step.key in s.alerted then [Announced(step.key, s.now)] else []
  }

  lemma {:induction false} SilentPath(worlds: seq<State>, steps: seq<Step>, k: nat)
    requires Path(worlds, steps) && k <= |steps| && AllCancelled(worlds[0])
    requires forall i :: 0 <= i < |steps| && steps[i].Note? ==> steps[i].online
    ensures AllCancelled(worlds[k]) && worlds[0].history <= worlds[k].history
    ensures forall h :: h in worlds[k].history[|worlds[0].history|..] ==> !h.Paged?
  {
    if k > 0 {
      hide Next, Enabled, AllCancelled;
      SilentPath(worlds, steps, k - 1);
      assert Moves(worlds, steps, k - 1);
      StepSilent(worlds[k - 1], steps[k - 1]);
      assert worlds[k].history == worlds[k - 1].history + NewsOf(worlds[k - 1], steps[k - 1]);
    }
  }

  /** Once the alerter is closed nobody is paged any more, unless a module is noted offline anew. */
  lemma CloseSilences(s: State, steps: seq<Step>, end: State)
    requires Reaches(Next(s, Close), steps, end)
    requires forall i :: 0 <= i < |steps| && steps[i].Note? ==> steps[i].online
    ensures s.history <= end.history && forall h :: h in end.history[|s.history|..] ==> !h.Paged?
  {
    var closed := Next(s, Close);
    assert AllCancelled(closed) && closed.history == s.history;
    var worlds :| Path(worlds, steps) && worlds[0] == closed && worlds[|steps|] == end;
    SilentPath(worlds, steps, |steps|);
  }
}
