/** The alerter over every interleaving of notes, timer turns and cancellations. */
module AlerterSafety {
  import opened Alerter

  // ------------------------------------------------------------ invariant

  /** How long a waiting timer's module has been down, at least. */
  ghost predicate TimerOk(s: State, t: Timer) {
    && DownSince(s.history, t.key, t.armed) && s.history[t.armed].at <= s.now
    && (t.phase.Sleeping? ==> s.history[t.armed].at + s.grace <= t.phase.until <= s.now + s.grace)
    && (t.phase.Recording? ==> s.now >= s.history[t.armed].at + s.grace)
  }

  ghost predicate Counting(t: Timer) {
    !t.cancelled && !t.phase.Delivering?
  }

  /** A timer that still counts is the pending one of its module. */
  ghost predicate TimersOk(s: State) {
    forall id :: id in s.timers && Counting(s.timers[id]) ==>
      s.timers[id].key in s.pending && s.pending[s.timers[id].key] == id && TimerOk(s, s.timers[id])
  }

  /** A pending entry names a timer that still counts, until the alerter is closed. */
  ghost predicate PendingOk(s: State) {
    forall key :: key in s.pending ==>
      && s.pending[key] < s.spawned
      && (!s.closed ==>
           s.pending[key] in s.timers && s.timers[s.pending[key]].key == key && Counting(s.timers[s.pending[key]]))
  }

  ghost predicate Numbered(s: State) {
    forall id :: id in s.timers ==> id < s.spawned
  }

  /** A module is never both counting down and paged, and it is paged exactly while a page is open. */
  ghost predicate PagesOk(s: State) {
    && s.alerted !! s.pending.Keys
    && (forall key :: key in s.alerted <==> Open(s.history, key))
    && Alternates(s.history) && AllPatient(s.history, s.grace)
  }

  ghost predicate Inv(s: State) {
    TimersOk(s) && PendingOk(s) && Numbered(s) && PagesOk(s)
  }

  // ------------------------------------------------------------ the history grows

  lemma HistoryGrows(history: seq<Happening>, h: Happening, grace: nat)
    requires Alternates(history) && AllPatient(history, grace)
    requires h.Paged? ==> !Open(history, h.key) && exists armed: nat ::
      armed < |history| && DownSince(history, h.key, armed) && h.at - history[armed].at >= grace
    requires h.Announced? ==> Open(history, h.key)
    ensures Alternates(history + [h]) && AllPatient(history + [h], grace)
  {
    var after := history + [h];
    forall i | 0 <= i < |after|
      ensures after[i].Paged? ==> !Open(after[..i], after[i].key)
      ensures after[i].Announced? ==> Open(after[..i], after[i].key)
    {
      assert after[..i] == if i < |history| then history[..i] else history;
    }
    forall i | 0 <= i < |after| && after[i].Paged? ensures Patient(after, grace, i) {
      if i < |history| {
        var armed: nat :| armed < i && DownSince(history[..i], history[i].key, armed) &&
          history[i].at - history[armed].at >= grace;
        assert after[..i] == history[..i];
      } else {
        var armed: nat :| armed < |history| && DownSince(history, h.key, armed) && h.at - history[armed].at >= grace;
        assert after[..i] == history;
      }
    }
  }

  lemma OpenGrows(history: seq<Happening>, h: Happening, key: Key)
    ensures Open(history + [h], key) ==
      match h
      case Paged(k, _) => k == key || Open(history, key)
      case Announced(k, _) => k != key && Open(history, key)
      case Noted(_, _, _) => Open(history, key)
  {
    assert (history + [h])[..|history|] == history;
  }

  lemma DownGrows(history: seq<Happening>, h: Happening, key: Key, armed: nat)
    requires DownSince(history, key, armed) && (h.Noted? && h.online ==> h.key != key)
    ensures DownSince(history + [h], key, armed) && (history + [h])[armed] == history[armed]
  {
  }

  // ------------------------------------------------------------ notes

  /** A happening that is not an online note of a counting module leaves the timers as they were. */
  lemma TimersGrow(s: State, h: Happening)
    requires TimersOk(s) && (h.Noted? && h.online ==> h.key !in s.pending)
    ensures TimersOk(s.(history := s.history + [h]))
  {
    var after := s.(history := s.history + [h]);
    forall id | id in after.timers && Counting(after.timers[id]) ensures TimerOk(after, after.timers[id]) {
      var t := s.timers[id];
      assert TimerOk(s, t);
      DownGrows(s.history, h, t.key, t.armed);
    }
  }

  lemma PagesGrow(s: State, h: Happening)
    requires PagesOk(s) && h.Noted?
    ensures PagesOk(s.(history := s.history + [h]))
  {
    HistoryGrows(s.history, h, s.grace);
    forall key ensures Open(s.history + [h], key) == Open(s.history, key) {
      OpenGrows(s.history, h, key);
    }
  }

  lemma OfflineKeeps(s: State, key: Key)
    requires Inv(s)
    ensures Inv(Noting(s, key, false))
  {
    var h := Noted(key, false, s.now);
    TimersGrow(s, h);
    PagesGrow(s, h);
    var noted := s.(history := s.history + [h]);
    assert DownSince(noted.history, key, |s.history|) && noted.history[|s.history|].at == s.now;
    hide DownSince, Alternates, AllPatient, Open;
    SpawnKeeps(noted, key, |s.history|);
  }

  /** A fresh timer counts from a note after which the module was down. */
  lemma SpawnKeeps(s: State, key: Key, armed: nat)
    requires TimersOk(s) && PendingOk(s) && Numbered(s)
    requires DownSince(s.history, key, armed) && s.history[armed].at <= s.now
    ensures var after := NoteOffline(s, key, armed); TimersOk(after) && PendingOk(after) && Numbered(after)
  {
    hide DownSince;
    var after := NoteOffline(s, key, armed);
    forall id | id in after.timers && Counting(after.timers[id])
      ensures after.timers[id].key in after.pending && after.pending[after.timers[id].key] == id &&
        TimerOk(after, after.timers[id])
    {
      if id in s.timers && id != s.spawned {
        assert TimerOk(s, s.timers[id]);
      }
    }
  }

  /** Dropping a module's entry and cancelling its timer leaves the other timers as they were. */
  lemma CancelKeeps(s: State, key: Key)
    requires TimersOk(s) && PendingOk(s) && Numbered(s)
    ensures var off := s.(timers := if key in s.pending then CancelTimer(s.timers, s.pending[key]) else s.timers,
                          pending := s.pending - {key});
      TimersOk(off) && PendingOk(off) && Numbered(off)
  {
    var off := s.(timers := if key in s.pending then CancelTimer(s.timers, s.pending[key]) else s.timers,
                  pending := s.pending - {key});
    forall id | id in off.timers && Counting(off.timers[id])
      ensures off.timers[id].key in off.pending && off.pending[off.timers[id].key] == id && TimerOk(off, off.timers[id])
    {
      assert off.timers[id] == s.timers[id] && TimerOk(s, s.timers[id]);
    }
  }

  lemma OnlineTimers(s: State, key: Key)
    requires TimersOk(s) && PendingOk(s) && Numbered(s)
    ensures TimersOk(Noting(s, key, true)) && PendingOk(Noting(s, key, true)) && Numbered(Noting(s, key, true))
  {
    var h := Noted(key, true, s.now);
    CancelKeeps(s, key);
    var off := s.(timers := if key in s.pending then CancelTimer(s.timers, s.pending[key]) else s.timers,
                  pending := s.pending - {key});
    TimersGrow(off, h);
    TimersGrow(off.(history := s.history + [h]), Announced(key, s.now));
    var after := Noting(s, key, true);
    assert after.timers == off.timers && after.pending == off.pending && after.spawned == off.spawned;
    hide CancelTimer, TimersOk, TimerOk;
    SameTimers(off.(history := after.history), after);
  }

  lemma SameTimers(s: State, after: State)
    requires TimersOk(s) && after == s.(alerted := after.alerted)
    ensures TimersOk(after)
  {
    forall id | id in after.timers && Counting(after.timers[id]) ensures TimerOk(after, after.timers[id]) {
      assert TimerOk(s, s.timers[id]);
    }
  }

  lemma OnlineKeeps(s: State, key: Key)
    requires Inv(s)
    ensures Inv(Noting(s, key, true))
  {
    OnlineTimers(s, key);
    hide TimersOk, PendingOk, Numbered;
    var h := Noted(key, true, s.now);
    PagesGrow(s, h);
    if key in s.alerted {
      AnnouncedKeeps(s.(history := s.history + [h]), key);
    }
  }

  lemma AnnouncedKeeps(s: State, key: Key)
    requires PagesOk(s) && key in s.alerted
    ensures PagesOk(s.(alerted := s.alerted - {key}, pending := s.pending - {key},
      history := s.history + [Announced(key, s.now)]))
  {
    var said := Announced(key, s.now);
    HistoryGrows(s.history, said, s.grace);
    forall k ensures Open(s.history + [said], k) == (k != key && Open(s.history, k)) {
      OpenGrows(s.history, said, k);
    }
  }

  // ------------------------------------------------------------ turns

  lemma FinishKeeps(s: State, id: nat)
    requires Inv(s) && id in s.timers
    ensures Inv(Finished(s, id))
  {
    var after := Finished(s, id);
    forall other | other in after.timers && Counting(after.timers[other])
      ensures after.timers[other].key in after.pending && after.pending[after.timers[other].key] == other
        && TimerOk(after, after.timers[other])
    {
      assert TimerOk(s, s.timers[other]);
    }
  }

  /** A cancelled timer that never had a turn leaves nothing behind but, at closing time, its entry. */
  lemma UnstartedKeeps(s: State, id: nat)
    requires Inv(s) && id in s.timers && s.timers[id].cancelled
    ensures Inv(s.(timers := s.timers - {id}))
  {
    var after := s.(timers := s.timers - {id});
    forall other | other in after.timers && Counting(after.timers[other]) ensures TimerOk(after, after.timers[other]) {
      assert TimerOk(s, s.timers[other]);
    }
  }

  lemma PhaseKeeps(s: State, id: nat, phase: Phase)
    requires Inv(s) && id in s.timers && Counting(s.timers[id]) && !phase.Delivering?
    requires TimerOk(s, s.timers[id].(phase := phase))
    ensures Inv(SetPhase(s, id, phase))
  {
    var after := SetPhase(s, id, phase);
    forall other | other in after.timers && Counting(after.timers[other])
      ensures after.timers[other].key in after.pending && after.pending[after.timers[other].key] == other
        && TimerOk(after, after.timers[other])
    {
      assert TimerOk(s, s.timers[other]);
    }
  }

  lemma FirePages(s: State, id: nat)
    requires Inv(s) && id in s.timers && Counting(s.timers[id]) && s.timers[id].phase.Recording?
    ensures PagesOk(Fire(s, id))
  {
    var t := s.timers[id];
    var page := Paged(t.key, s.now);
    assert TimerOk(s, t);
    HistoryGrows(s.history, page, s.grace);
    forall key ensures Open(s.history + [page], key) == (key == t.key || Open(s.history, key)) {
      OpenGrows(s.history, page, key);
    }
  }

  lemma SameTimer(s: State, after: State, t: Timer)
    requires TimerOk(s, t) && after.history == s.history && after.now == s.now && after.grace == s.grace
    ensures TimerOk(after, t)
  {
  }

  lemma FireTimers(s: State, id: nat)
    requires TimersOk(s) && id in s.timers && Counting(s.timers[id])
    ensures TimersOk(Fire(s, id))
  {
    var page, after := Paged(s.timers[id].key, s.now), Fire(s, id);
    TimersGrow(s, page);
    hide TimerOk;
    forall other | other in after.timers && Counting(after.timers[other])
      ensures after.timers[other].key in after.pending && after.pending[after.timers[other].key] == other
        && TimerOk(after, after.timers[other])
    {
      assert after.timers[other] == s.timers[other];
      SameTimer(s.(history := s.history + [page]), after, s.timers[other]);
    }
  }

  lemma FireKeeps(s: State, id: nat)
    requires Inv(s) && id in s.timers && Counting(s.timers[id]) && s.timers[id].phase.Recording?
    ensures Inv(Fire(s, id))
  {
    FirePages(s, id);
    FireTimers(s, id);
    var key := s.timers[id].key;
    assert key in s.pending && s.pending[key] == id;
    hide PagesOk, TimersOk;
  }

  lemma TurnKeeps(s: State, id: nat, answer: bool)
    requires Inv(s) && CanResume(s, id)
    ensures Inv(Turn(s, id, answer))
  {
    hide PendingOk, PagesOk, Numbered;
    var t := s.timers[id];
    FinishKeeps(s, id);
    if t.cancelled {
      UnstartedKeeps(s, id);
    } else if !t.phase.Delivering? {
      assert TimerOk(s, t);
      match t.phase
      case Unstarted => PhaseKeeps(s, id, ReadingEnabled);
      case ReadingEnabled => PhaseKeeps(s, id, Sleeping(s.now + s.grace));
      case Sleeping(_) => PhaseKeeps(s, id, Recording);
      case Recording => FireKeeps(s, id);
    }
  }

  lemma WaitKeeps(s: State, seconds: nat)
    requires Inv(s)
    ensures Inv(s.(now := s.now + seconds))
  {
    var after := s.(now := s.now + seconds);
    forall id | id in after.timers && Counting(after.timers[id]) ensures TimerOk(after, after.timers[id]) {
      assert TimerOk(s, s.timers[id]);
    }
  }

  lemma StepKeeps(s: State, step: Step)
    requires Inv(s) && Enabled(s, step)
    ensures Inv(Next(s, step))
  {
    match step
    case Wait(seconds) => WaitKeeps(s, seconds);
    case Note(key, online) => if online { OnlineKeeps(s, key); } else { OfflineKeeps(s, key); }
    case Resume(id, answer) => TurnKeeps(s, id, answer);
    case Close =>
  }

  lemma {:induction false} PathKeeps(worlds: seq<State>, steps: seq<Step>, k: nat)
    requires Path(worlds, steps) && k <= |steps| && Inv(worlds[0])
    ensures Inv(worlds[k]) && worlds[k].grace == worlds[0].grace
  {
    hide Inv;
    if k > 0 {
      PathKeeps(worlds, steps, k - 1);
      assert Moves(worlds, steps, k - 1);
      StepKeeps(worlds[k - 1], steps[k - 1]);
    }
  }

  lemma RunKeeps(s: State, steps: seq<Step>, end: State)
    requires Inv(s) && Reaches(s, steps, end)
    ensures Inv(end) && end.grace == s.grace
  {
    hide Inv;
    var worlds :| Path(worlds, steps) && worlds[0] == s && worlds[|steps|] == end;
    PathKeeps(worlds, steps, |steps|);
  }

  // ------------------------------------------------------------ main results

  /** An open page has a place, and no announcement comes after it. */
  lemma {:induction false} OpenMeansPaged(history: seq<Happening>, key: Key) returns (i: nat)
    requires Open(history, key)
    ensures i < |history| && history[i].Paged? && history[i].key == key
    ensures forall j :: i < j < |history| && history[j].Announced? ==> history[j].key != key
  {
    var last := |history| - 1;
    if history[last].Paged? && history[last].key == key {
      i := last;
    } else {
      i := OpenMeansPaged(history[..last], key);
    }
  }

  lemma {:induction false} StaysOpen(history: seq<Happening>, key: Key, i: nat)
    requires i < |history| && history[i].Paged? && history[i].key == key
    requires forall j :: i < j < |history| && history[j].Announced? ==> history[j].key != key
    ensures Open(history, key)
  {
    if i < |history| - 1 {
      StaysOpen(history[..|history| - 1], key, i);
    }
  }

  /** In every run, between two pages of a module its recovery is announced. */
  lemma PagesApart(grace: nat, now: int, steps: seq<Step>, end: State, i: nat, j: nat)
    requires Reaches(Start(grace, now), steps, end) && i < j < |end.history|
    requires end.history[i].Paged? && end.history[j].Paged? && end.history[i].key == end.history[j].key
    ensures exists k :: i < k < j && end.history[k].Announced? && end.history[k].key == end.history[i].key
  {
    RunKeeps(Start(grace, now), steps, end);
    if forall k :: i < k < j && end.history[k].Announced? ==> end.history[k].key != end.history[i].key {
      StaysOpen(end.history[..j], end.history[i].key, i);
    }
  }

  /** In every run, a recovery is announced only for a page, one announcement a page. */
  lemma AnnouncementFollowsPage(grace: nat, now: int, steps: seq<Step>, end: State, j: nat) returns (i: nat)
    requires Reaches(Start(grace, now), steps, end) && j < |end.history| && end.history[j].Announced?
    ensures i < j && end.history[i].Paged? && end.history[i].key == end.history[j].key
    ensures forall k :: i < k < j && end.history[k].Announced? ==> end.history[k].key != end.history[j].key
  {
    RunKeeps(Start(grace, now), steps, end);
    i := OpenMeansPaged(end.history[..j], end.history[j].key);
    assert end.history[..j][i] == end.history[i];
    forall k | i < k < j && end.history[k].Announced? ensures end.history[k].key != end.history[j].key {
      assert end.history[..j][k] == end.history[k];
    }
  }

  /** In every run, a page comes after a full grace period without an online note. */
  lemma PageAfterGrace(grace: nat, now: int, steps: seq<Step>, end: State, i: nat) returns (armed: nat)
    requires Reaches(Start(grace, now), steps, end) && i < |end.history| && end.history[i].Paged?
    ensures armed < i && DownSince(end.history[..i], end.history[i].key, armed)
    ensures end.history[i].at - end.history[armed].at >= grace
  {
    RunKeeps(Start(grace, now), steps, end);
    assert Patient(end.history, grace, i);
    armed :| armed < i && DownSince(end.history[..i], end.history[i].key, armed) &&
      end.history[i].at - end.history[armed].at >= grace;
  }

  /** In every run, no module is both counting down and paged. */
  lemma NeverBoth(grace: nat, now: int, steps: seq<Step>, end: State, key: Key)
    requires Reaches(Start(grace, now), steps, end)
    ensures !(key in end.pending && key in end.alerted)
    ensures key in end.alerted <==> Open(end.history, key)
  {
    RunKeeps(Start(grace, now), steps, end);
  }

  /**
   In every run, a turn of a cancelled timer pages nobody and leaves the entry
   of any other timer; and a timer that pages takes its own entry out.
   */
  lemma SuccessorSafe(grace: nat, now: int, steps: seq<Step>, s: State, id: nat, answer: bool, key: Key)
    requires Reaches(Start(grace, now), steps, s) && CanResume(s, id)
    requires key in s.pending && s.pending[key] != id
    ensures key in Turn(s, id, answer).pending && Turn(s, id, answer).pending[key] == s.pending[key]
    ensures s.timers[id].cancelled ==>
      Turn(s, id, answer).history == s.history && Turn(s, id, answer).alerted == s.alerted
  {
    RunKeeps(Start(grace, now), steps, s);
    hide Reaches, PagesOk, TimerOk, PendingOk, Numbered, Start;
  }

  /** In every run, a module noted offline is counting down or paged afterwards; noted online, neither. */
  lemma NoteTakesEffect(grace: nat, now: int, steps: seq<Step>, s: State, key: Key)
    requires Reaches(Start(grace, now), steps, s) && !s.closed
    ensures var off := Noting(s, key, false);
      key in off.alerted || (key in off.pending && off.pending[key] in off.timers &&
        Counting(off.timers[off.pending[key]]))
    ensures var on := Noting(s, key, true);
      key !in on.alerted && key !in on.pending &&
        forall id :: id in on.timers && on.timers[id].key == key ==> !Counting(on.timers[id])
  {
    RunKeeps(Start(grace, now), steps, s);
    OfflineKeeps(s, key);
    OnlineKeeps(s, key);
  }
}
