/** What the dispatcher does for its callers: who shares a queue, who gets in, who can go on, and why a fate befell. */
module DispatchMeaning {
  import opened Basics
  import opened Database
  import opened Dispatch
  import opened DispatchSafety

  // ------------------------------------------------------------ who shares a queue

  /** The frame is for the agent as a whole: task configuration, a manual run, or no device. */
  predicate ForAll(f: Frame) {
    f.kind == "sync_tasks" || f.kind == "run_task" || f.device == None || f.device == Some("")
  }

  /** Two frames wait for one another. */
  predicate Together(f: Frame, g: Frame) {
    (ForAll(f) && ForAll(g)) || (!ForAll(f) && !ForAll(g) && f.device == g.device)
  }

  /**
   In every run two commands stand in one queue if and only if both are for the
   agent as a whole or both are for one device; so no device waits for another.
   */
  lemma OneQueueEach(limits: Limits, acts: seq<Action>, end: State, a: Key, b: Key, i: nat, j: nat)
    requires Reaches(Start(limits), acts, end) && a in end.queues && b in end.queues
    requires i < |end.queues[a].frames| && j < |end.queues[b].frames|
    ensures a == b <==> Together(end.queues[a].frames[i].frame, end.queues[b].frames[j].frame)
  {
    StartSafe(limits);
    RunKeeps(Start(limits), acts, end);
    hide Reaches, KeyOf;
    InItsQueue(end, a, i);
    InItsQueue(end, b, j);
    hide Safe;
    TogetherIff(end.queues[a].frames[i].frame, end.queues[b].frames[j].frame);
  }

  lemma InItsQueue(s: State, key: Key, i: nat)
    requires Safe(s) && key in s.queues && i < |s.queues[key].frames|
    ensures KeyOf(s.queues[key].frames[i].frame) == key
  {
    hide KeyOf;
    assert QueueOk(s.submitted, key, s.queues[key]) && s.queues[key].frames[i] in s.queues[key].frames;
    hide Conserved, WithinLimits, OneFate, StartsInOrder, HeadsStarted, FatesHonest, Quiet;
  }

  lemma TogetherIff(f: Frame, g: Frame)
    ensures KeyOf(f) == KeyOf(g) <==> Together(f, g)
  {
  }

  // ------------------------------------------------------------ who gets in

  /** Room for one more: in all, and in its queue or for a queue of its own. */
  ghost predicate Room(s: State, key: Key) {
    && Total(s.queues) < s.limits.maxPending
    && if key in s.queues then |s.queues[key].frames| < s.limits.maxPerDevice else |s.queues| < s.limits.maxWorkers
  }

  /**
   In every run a submission is accepted if and only if the dispatcher is not
   stopped and there is room: then it comes last in its queue, and else it is
   rejected as not started. No other queue changes.
   */
  lemma AcceptedIff(limits: Limits, acts: seq<Action>, end: State, f: Frame)
    requires Reaches(Start(limits), acts, end)
    ensures var key := if ForAll(f) then None else f.device;
      if !end.stopped && Room(end, key) then Joins(end, f, key, Next(end, Submitted(f)))
      else
        var after := Next(end, Submitted(f));
        after.queues == end.queues && after.fates == end.fates + [(|end.submitted|, RejectedUnstarted)]
  {
    StartSafe(limits);
    RunKeeps(Start(limits), acts, end);
    assert Conserved(end);
    hide Reaches, Safe;
    SubmitMeaning(end, f);
  }

  /** The frame comes last in its queue, and nothing else changes. */
  ghost predicate Joins(s: State, f: Frame, key: Key, after: State) {
    && after.fates == s.fates && after.queues.Keys == s.queues.Keys + {key}
    && after.queues[key].frames == (if key in s.queues then s.queues[key].frames else []) + [Job(|s.submitted|, f)]
    && forall other :: other in s.queues && other != key ==> after.queues[other] == s.queues[other]
  }

  lemma SubmitMeaning(s: State, f: Frame)
    requires Conserved(s)
    ensures var key := if ForAll(f) then None else f.device;
      if !s.stopped && Room(s, key) then Joins(s, f, key, Submit(s, f))
      else
        Submit(s, f).queues == s.queues && Submit(s, f).fates == s.fates + [(|s.submitted|, RejectedUnstarted)]
  {
    hide Total;
  }

  // ------------------------------------------------------------ who can go on

  /** In every run, until a stop, every queue can go on: its worker runs a command, can take the next, or can leave. */
  lemma NobodyWaitsForever(limits: Limits, acts: seq<Action>, end: State, key: Key)
    requires Reaches(Start(limits), acts, end) && !end.stopped && key in end.queues
    ensures CanEnd(end, key) || CanBegin(end, key) || CanLeave(end, key)
    ensures CanBegin(end, key) <==> end.queues[key].frames != [] && !end.queues[key].running
  {
    StartSafe(limits);
    RunKeeps(Start(limits), acts, end);
    assert QueueOk(end.submitted, key, end.queues[key]);
  }

  /** An accepted command of an idle device can start at once, whatever the other devices are doing. */
  lemma IdleDeviceStarts(limits: Limits, acts: seq<Action>, end: State, f: Frame)
    requires Reaches(Start(limits), acts, end) && !end.stopped
    requires var key := if ForAll(f) then None else f.device;
      Room(end, key) && (key in end.queues ==> end.queues[key].frames == [])
    ensures var key, after := if ForAll(f) then None else f.device, Next(end, Submitted(f));
      CanBegin(after, key) && Begin(after, key).starts == end.starts + [|end.submitted|]
  {
    StartSafe(limits);
    RunKeeps(Start(limits), acts, end);
    assert Conserved(end);
    var key := if ForAll(f) then None else f.device;
    assert key in end.queues ==> QueueOk(end.submitted, key, end.queues[key]);
    hide Reaches, Total, Safe;
  }

  // ------------------------------------------------------------ why a fate befell

  /** The step gives the submission this fate. */
  ghost predicate Gives(s: State, a: Action, fate: (nat, Fate)) {
    match a
    case Submitted(f) => fate == (|s.submitted|, RejectedUnstarted)
    case Ended(key, returned) =>
      CanEnd(s, key) && fate == (s.queues[key].frames[0].serial, if returned then Completed else RejectedUnknown)
    case WasCancelled(key) => CanEnd(s, key) && fate == (s.queues[key].frames[0].serial, RejectedUnknown)
    case Discarded(_) => fate.1 == RejectedUnstarted
    case StopBegan(_) => fate.1 == RejectedUnstarted
    case _ => false
  }

  lemma {:induction false} DiscardQueueFates(s: State, key: Key)
    ensures s.fates <= DiscardQueue(s, key).fates
    ensures forall x :: x in DiscardQueue(s, key).fates ==> x in s.fates || x.1 == RejectedUnstarted
    decreases if key in s.queues then |s.queues[key].frames| else 0
  {
    if CanDrop(s, key) {
      DiscardQueueFates(DropLast(s, key), key);
    }
  }

  lemma {:induction false} DiscardFates(s: State, order: seq<Key>)
    ensures s.fates <= Discard(s, order).fates
    ensures forall x :: x in Discard(s, order).fates ==> x in s.fates || x.1 == RejectedUnstarted
    decreases |order|
  {
    if order != [] {
      DiscardQueueFates(s, order[0]);
      DiscardFates(DiscardQueue(s, order[0]), order[1..]);
    }
  }

  lemma StepFates(s: State, a: Action)
    requires Enabled(s, a)
    ensures s.fates <= Next(s, a).fates
    ensures forall x :: x in Next(s, a).fates ==> x in s.fates || Gives(s, a, x)
    ensures a.Ended? ==>
      (s.queues[a.key].frames[0].serial, if a.returned then Completed else RejectedUnknown) in Next(s, a).fates
    ensures a.WasCancelled? ==> (s.queues[a.key].frames[0].serial, RejectedUnknown) in Next(s, a).fates
  {
    match a
    case Discarded(order) => DiscardFates(s, order);
    case StopBegan(order) => DiscardFates(s.(stopped := true), order);
    case _ =>
  }

  lemma {:induction false} FateHasCause(worlds: seq<State>, acts: seq<Action>, k: nat, fate: (nat, Fate))
    requires Path(worlds, acts) && k <= |acts| && worlds[0].fates == [] && fate in worlds[k].fates
    ensures exists i :: 0 <= i < k && Gives(worlds[i], acts[i], fate)
  {
    if k > 0 {
      hide Next, Enabled, Gives;
      assert Moves(worlds, acts, k - 1);
      StepFates(worlds[k - 1], acts[k - 1]);
      if fate in worlds[k - 1].fates {
        FateHasCause(worlds, acts, k - 1, fate);
      }
    }
  }

  lemma {:induction false} FatesStay(worlds: seq<State>, acts: seq<Action>, i: nat, k: nat)
    requires Path(worlds, acts) && i <= k <= |acts|
    ensures worlds[i].fates <= worlds[k].fates
    decreases k
  {
    if i < k {
      hide Next, Enabled;
      FatesStay(worlds, acts, i, k - 1);
      assert Moves(worlds, acts, k - 1);
      StepFates(worlds[k - 1], acts[k - 1]);
    }
  }

  /** The step ends the handling of the submission: it was the head of its queue. */
  ghost predicate Ends(s: State, a: Action, n: nat, returned: bool) {
    match a
    case Ended(key, did) => CanEnd(s, key) && s.queues[key].frames[0].serial == n && did == returned
    case WasCancelled(key) => CanEnd(s, key) && s.queues[key].frames[0].serial == n && !returned
    case _ => false
  }

  /**
   In every run a submission is completed if and only if its handling returned,
   and rejected as unknown if and only if its handling raised or was cancelled.
   */
  lemma FateTells(limits: Limits, worlds: seq<State>, acts: seq<Action>, n: nat)
    requires Path(worlds, acts) && worlds[0] == Start(limits)
    ensures (n, Completed) in worlds[|acts|].fates <==>
      exists i :: 0 <= i < |acts| && Ends(worlds[i], acts[i], n, true)
    ensures (n, RejectedUnknown) in worlds[|acts|].fates <==>
      exists i :: 0 <= i < |acts| && Ends(worlds[i], acts[i], n, false)
  {
    hide Next, Enabled;
    var last := |acts|;
    if (n, Completed) in worlds[last].fates {
      FateHasCause(worlds, acts, last, (n, Completed));
      var i :| 0 <= i < last && Gives(worlds[i], acts[i], (n, Completed));
      assert Ends(worlds[i], acts[i], n, true);
    }
    if (n, RejectedUnknown) in worlds[last].fates {
      FateHasCause(worlds, acts, last, (n, RejectedUnknown));
      var i :| 0 <= i < last && Gives(worlds[i], acts[i], (n, RejectedUnknown));
      assert Ends(worlds[i], acts[i], n, false);
    }
    forall i, returned | 0 <= i < last && Ends(worlds[i], acts[i], n, returned)
      ensures (n, if returned then Completed else RejectedUnknown) in worlds[last].fates
    {
      assert Moves(worlds, acts, i);
      StepFates(worlds[i], acts[i]);
      FatesStay(worlds, acts, i + 1, last);
    }
  }
}
