/**
 Bounded command execution (commands.py): one FIFO queue and one worker task
 per key, three limits, discarding on disconnect and on stop.
 */
module Dispatch {
  import opened Basics
  import opened Database

  /** None is the shared control queue. */
  type Key = Option<string>

  /** A submission; serial numbers the calls of submit and is read by nothing. */
  datatype Job = Job(serial: nat, frame: Frame)

  /** entered: the worker task has had its first turn. */
  datatype DeviceQueue = DeviceQueue(frames: seq<Job>, running: bool, entered: bool)

  datatype Limits = Limits(maxPending: nat, maxPerDevice: nat, maxWorkers: nat)

  datatype Fate = Completed | RejectedUnstarted | RejectedUnknown

  /** submitted, starts and fates are history: every frame submitted, what started, what became of it. */
  datatype State = State(
    limits: Limits, queues: map<Key, DeviceQueue>, pending: int, stopped: bool,
    submitted: seq<Frame>, starts: seq<nat>, fates: seq<(nat, Fate)>)

  function KeyOf(f: Frame): Key {
    if f.kind == "sync_tasks" || f.kind == "run_task" then None
    else if f.device.Some? && f.device.value != "" then f.device
    else None
  }

  function Start(limits: Limits): State {
    State(limits, map[], 0, false, [], [], [])
  }

  // ------------------------------------------------------------ submit

  predicate Refuses(s: State, f: Frame) {
    var key := KeyOf(f);
    || s.stopped
    || s.pending >= s.limits.maxPending
    || (key in s.queues && |s.queues[key].frames| >= s.limits.maxPerDevice)
    || (key !in s.queues && |s.queues| >= s.limits.maxWorkers)
  }

  function Submit(s: State, f: Frame): State {
    var key := KeyOf(f);
    var n := |s.submitted|;
    if Refuses(s, f) then
      s.(submitted := s.submitted + [f], fates := s.fates + [(n, RejectedUnstarted)])
    else
      var q := if key in s.queues then s.queues[key] else DeviceQueue([], false, false);
      s.(submitted := s.submitted + [f],
         queues := s.queues[key := q.(frames := q.frames + [Job(n, f)])],
         pending := s.pending + 1)
  }

  // ------------------------------------------------------------ worker

  predicate CanBegin(s: State, key: Key) {
    key in s.queues && !s.queues[key].running && s.queues[key].frames != []
    && (s.queues[key].entered || !s.stopped)
  }

  /** The worker takes the head of its queue and calls execute. */
  function Begin(s: State, key: Key): State
    requires CanBegin(s, key)
  {
    var q := s.queues[key];
    s.(queues := s.queues[key := q.(running := true, entered := true)],
       starts := s.starts + [q.frames[0].serial])
  }

  predicate CanEnd(s: State, key: Key) {
    key in s.queues && s.queues[key].running && s.queues[key].frames != []
  }

  /** execute returned, or raised and the frame was rejected as unknown: the finally clause. */
  function End(s: State, key: Key, returned: bool): State
    requires CanEnd(s, key)
  {
    var q := s.queues[key];
    s.(queues := s.queues[key := q.(running := false, frames := q.frames[1..])],
       pending := s.pending - 1,
       fates := s.fates + [(q.frames[0].serial, if returned then Completed else RejectedUnknown)])
  }

  /** The worker finds its queue empty and leaves. A task cancelled before its first turn never gets here. */
  predicate CanLeave(s: State, key: Key) {
    key in s.queues && !s.queues[key].running && s.queues[key].frames == []
    && (s.queues[key].entered || !s.stopped)
  }

  function Leave(s: State, key: Key): State
    requires CanLeave(s, key)
  {
    s.(queues := s.queues - {key})
  }

  /** The running command of a stopping dispatcher is cancelled: rejected as unknown, worker gone. */
  function Cancel(s: State, key: Key): State
    requires CanEnd(s, key)
  {
    var s1 := End(s, key, false);
    s1.(queues := s1.queues - {key})
  }

  // ------------------------------------------------------------ discard and stop

  function Kept(q: DeviceQueue): nat {
    if q.running then 1 else 0
  }

  predicate CanDrop(s: State, key: Key) {
    key in s.queues && |s.queues[key].frames| > Kept(s.queues[key])
  }

  /** Pop the last frame of a queue and reject it as not started. */
  function DropLast(s: State, key: Key): State
    requires CanDrop(s, key)
  {
    var q := s.queues[key];
    var last := |q.frames| - 1;
    s.(queues := s.queues[key := q.(frames := q.frames[..last])],
       pending := s.pending - 1,
       fates := s.fates + [(q.frames[last].serial, RejectedUnstarted)])
  }

  function DiscardQueue(s: State, key: Key): State
    decreases if key in s.queues then |s.queues[key].frames| else 0
  {
    if CanDrop(s, key) then DiscardQueue(DropLast(s, key), key) else s
  }

  /** discard_queued over the queues in the order the dictionary lists them. */
  function Discard(s: State, order: seq<Key>): State
    decreases |order|
  {
    if order == [] then s else Discard(DiscardQueue(s, order[0]), order[1..])
  }

  ghost predicate Lists(s: State, order: seq<Key>) {
    forall key :: key in order <==> key in s.queues
  }

  /** stop: no more submissions, nothing waiting; the running commands are then cancelled one by one. */
  function BeginStop(s: State, order: seq<Key>): State {
    if s.stopped then s else Discard(s.(stopped := true), order)
  }

  /** Every task the stop waits for is done: the workers that entered have left. */
  ghost predicate CanEndStop(s: State) {
    s.stopped && forall key :: key in s.queues ==> !s.queues[key].entered
  }

  function EndStop(s: State): State {
    s.(queues := map[], pending := 0)
  }

  // ------------------------------------------------------------ runs

  datatype Action =
    | Submitted(frame: Frame)
    | Began(key: Key)
    | Ended(key: Key, returned: bool)
    | Left(key: Key)
    | WasCancelled(key: Key)
    | Discarded(order: seq<Key>)
    | StopBegan(order: seq<Key>)
    | StopEnded

  ghost predicate Enabled(s: State, a: Action) {
    match a
    case Submitted(_) => true
    case Began(key) => CanBegin(s, key)
    case Ended(key, _) => CanEnd(s, key)
    case Left(key) => CanLeave(s, key)
    case WasCancelled(key) => s.stopped && CanEnd(s, key)
    case Discarded(order) => Lists(s, order)
    case StopBegan(order) => Lists(s, order)
    case StopEnded => CanEndStop(s)
  }

  ghost function Next(s: State, a: Action): State
    requires Enabled(s, a)
  {
    match a
    case Submitted(f) => Submit(s, f)
    case Began(key) => Begin(s, key)
    case Ended(key, returned) => End(s, key, returned)
    case Left(key) => Leave(s, key)
    case WasCancelled(key) => Cancel(s, key)
    case Discarded(order) => Discard(s, order)
    case StopBegan(order) => BeginStop(s, order)
    case StopEnded => EndStop(s)
  }

  ghost predicate Moves(worlds: seq<State>, acts: seq<Action>, i: nat)
    requires i < |acts| && |worlds| == |acts| + 1
  {
    Enabled(worlds[i], acts[i]) && worlds[i + 1] == Next(worlds[i], acts[i])
  }

  ghost predicate Path(worlds: seq<State>, acts: seq<Action>) {
    |worlds| == |acts| + 1 && forall i :: 0 <= i < |acts| ==> Moves(worlds, acts, i)
  }

  /** The actions, each enabled where it is taken, lead from s to end. */
  ghost predicate Reaches(s: State, acts: seq<Action>, end: State) {
    exists worlds :: Path(worlds, acts) && worlds[0] == s && worlds[|acts|] == end
  }
}
