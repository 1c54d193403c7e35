/** The offline alerter (alerts.py): armed timers, pages and recoveries, one task resumption at a time. */
module Alerter {

  /** (agent_id, device). */
  type Key = (string, string)

  /** Where a timer task waits. */
  datatype Phase = Unstarted | ReadingEnabled | Sleeping(until: int) | Recording | Delivering

  /** A live timer task; armed is the place of its offline note in the history. */
  datatype Timer = Timer(key: Key, phase: Phase, cancelled: bool, armed: nat)

  datatype Happening =
    | Noted(key: Key, online: bool, at: int)
    | Paged(key: Key, at: int)
    | Announced(key: Key, at: int)

  datatype State = State(
    grace: nat, now: int, alerted: set<Key>, pending: map<Key, nat>, timers: map<nat, Timer>,
    spawned: nat, closed: bool, history: seq<Happening>)

  datatype Step =
    | Wait(seconds: nat)
    | Note(key: Key, online: bool)
    | Resume(id: nat, answer: bool)
    | Close

  function Start(grace: nat, now: int): State {
    State(grace, now, {}, map[], map[], 0, false, [])
  }

  // ------------------------------------------------------------ notes

  /** The first offline note arms a timer; armed is the place of the note. */
  function NoteOffline(s: State, key: Key, armed: nat): State {
    if key in s.pending || key in s.alerted then s
    else
      s.(pending := s.pending[key := s.spawned], spawned := s.spawned + 1,
         timers := s.timers[s.spawned := Timer(key, Unstarted, false, armed)])
  }

  function CancelTimer(timers: map<nat, Timer>, id: nat): map<nat, Timer> {
    if id in timers then timers[id := timers[id].(cancelled := true)] else timers
  }

  /** An online note calls off a pending timer, and announces the recovery of a paged module. */
  function NoteOnline(s: State, key: Key): State {
    s.(timers := if key in s.pending then CancelTimer(s.timers, s.pending[key]) else s.timers,
       pending := s.pending - {key},
       alerted := s.alerted - {key},
       history := if key in s.alerted then s.history + [Announced(key, s.now)] else s.history)
  }

  function Noting(s: State, key: Key, online: bool): State {
    var noted := s.(history := s.history + [Noted(key, online, s.now)]);
    if online then NoteOnline(noted, key) else NoteOffline(noted, key, |s.history|)
  }

  // ------------------------------------------------------------ the timer task

  /** The finally clause, and the task is done. */
  function Finished(s: State, id: nat): State
    requires id in s.timers
  {
    var key := s.timers[id].key;
    s.(pending := if key in s.pending && s.pending[key] == id then s.pending - {key} else s.pending,
       timers := s.timers - {id})
  }

  /** The module is paged: from here on its recovery is announced. */
  function Fire(s: State, id: nat): State
    requires id in s.timers
  {
    var key := s.timers[id].key;
    s.(alerted := s.alerted + {key}, pending := s.pending - {key},
       timers := s.timers[id := s.timers[id].(phase := Delivering)],
       history := s.history + [Paged(key, s.now)])
  }

  function SetPhase(s: State, id: nat, phase: Phase): State
    requires id in s.timers
  {
    s.(timers := s.timers[id := s.timers[id].(phase := phase)])
  }

  /** A sleeping task wakes when its time is up; a cancelled one at once. */
  predicate CanResume(s: State, id: nat) {
    id in s.timers
    && (s.timers[id].phase.Sleeping? && !s.timers[id].cancelled ==> s.now >= s.timers[id].phase.until)
  }

  /** One turn of a timer task; answer is what the awaited database call returned. */
  function Turn(s: State, id: nat, answer: bool): State
    requires id in s.timers
  {
    var t := s.timers[id];
    if t.cancelled then
      if t.phase.Unstarted? then s.(timers := s.timers - {id}) else Finished(s, id)
    else
      match t.phase
      case Unstarted => SetPhase(s, id, ReadingEnabled)
      case ReadingEnabled => if answer then SetPhase(s, id, Sleeping(s.now + s.grace)) else Finished(s, id)
      case Sleeping(_) => SetPhase(s, id, Recording)
      case Recording => if answer then Fire(s, id) else Finished(s, id)
      case Delivering => Finished(s, id)
  }

  function CloseAll(s: State): State {
    s.(closed := true, timers := map id | id in s.timers :: s.timers[id].(cancelled := true))
  }

  ghost predicate Enabled(s: State, step: Step) {
    step.Resume? ==> CanResume(s, step.id)
  }

  function Next(s: State, step: Step): State
    requires step.Resume? ==> step.id in s.timers
  {
    match step
    case Wait(seconds) => s.(now := s.now + seconds)
    case Note(key, online) => Noting(s, key, online)
    case Resume(id, answer) => Turn(s, id, answer)
    case Close => CloseAll(s)
  }

  ghost predicate Moves(worlds: seq<State>, steps: seq<Step>, i: nat)
    requires i < |steps| && |worlds| == |steps| + 1
  {
    Enabled(worlds[i], steps[i]) && worlds[i + 1] == Next(worlds[i], steps[i])
  }

  ghost predicate Path(worlds: seq<State>, steps: seq<Step>) {
    |worlds| == |steps| + 1 && forall i :: 0 <= i < |steps| ==> Moves(worlds, steps, i)
  }

  /** The steps, each enabled where it is taken, lead from s to end. */
  ghost predicate Reaches(s: State, steps: seq<Step>, end: State) {
    exists worlds :: Path(worlds, steps) && worlds[0] == s && worlds[|steps|] == end
  }

  // ------------------------------------------------------------ what is claimed

  /** Of the pages and announcements of a module, the last is a page. */
  function Open(history: seq<Happening>, key: Key): bool {
    if history == [] then false
    else
      match history[|history| - 1]
      case Paged(k, _) => k == key || Open(history[..|history| - 1], key)
      case Announced(k, _) => k != key && Open(history[..|history| - 1], key)
      case Noted(_, _, _) => Open(history[..|history| - 1], key)
  }

  /** A page comes when none is open, an announcement when one is. */
  ghost predicate Alternates(history: seq<Happening>) {
    forall i :: 0 <= i < |history| ==>
      && (history[i].Paged? ==> !Open(history[..i], history[i].key))
      && (history[i].Announced? ==> Open(history[..i], history[i].key))
  }

  /** The module was noted offline at this place, and not online since. */
  ghost predicate DownSince(history: seq<Happening>, key: Key, armed: nat) {
    && armed < |history| && history[armed].Noted? && history[armed].key == key && !history[armed].online
    && forall j :: armed < j < |history| && history[j].Noted? && history[j].online ==> history[j].key != key
  }

  /** The page at place i follows a full grace period of the module being down. */
  ghost predicate Patient(history: seq<Happening>, grace: nat, i: nat)
    requires i < |history|
  {
    exists armed: nat :: armed < i && DownSince(history[..i], history[i].key, armed) &&
      history[i].at - history[armed].at >= grace
  }

  ghost predicate AllPatient(history: seq<Happening>, grace: nat) {
    forall i :: 0 <= i < |history| && history[i].Paged? ==> Patient(history, grace, i)
  }
}
