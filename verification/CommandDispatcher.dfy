/** The dispatcher object of commands.py, each method proved against Dispatch. */
module CommandDispatcher {
  import opened Database
  import opened Dispatch

  const STOPPING := "agent is stopping; command was not started"
  const FULL := "command queue is full; command was not started"
  const HANDLER_FAILED := "command handler failed; execution result is unknown"
  const INTERRUPTED := "agent stopped while command was running; execution result is unknown"

  lemma {:induction false} DiscardSnoc(s: State, order: seq<Key>, key: Key)
    ensures Discard(s, order + [key]) == DiscardQueue(Discard(s, order), key)
    decreases |order|
  {
    if order == [] {
      assert ([key])[1..] == [];
    } else {
      assert (order + [key])[1..] == order[1..] + [key];
      DiscardSnoc(DiscardQueue(s, order[0]), order[1..], key);
    }
  }

  class Dispatcher {
    const limits: Limits
    var queues: map<Key, DeviceQueue>
    var pending: int
    var stopped: bool
    /** The calls made to the reject callback. */
    var rejections: seq<(Frame, string)>
    var calls: nat
    ghost var submitted: seq<Frame>
    ghost var starts: seq<nat>
    ghost var fates: seq<(nat, Fate)>

    ghost function View(): State
      reads this
    {
      State(limits, queues, pending, stopped, submitted, starts, fates)
    }

    ghost predicate Valid()
      reads this
    {
      calls == |submitted|
    }

    constructor (limits: Limits)
      ensures Valid() && View() == Start(limits) && rejections == []
    {
      this.limits := limits;
      queues, pending, stopped, rejections, calls := map[], 0, false, [], 0;
      submitted, starts, fates := [], [], [];
    }

    method Submit(frame: Frame) returns (accepted: bool)
      requires Valid()
      modifies this
      ensures Valid() && View() == Dispatch.Submit(old(View()), frame)
      ensures accepted <==> !Refuses(old(View()), frame)
      ensures rejections == old(rejections)
        + if accepted then [] else [(frame, if old(stopped) then STOPPING else FULL)]
    {
      var n := calls;
      calls := calls + 1;
      submitted := submitted + [frame];
      if stopped {
        Reject(frame, STOPPING, n, RejectedUnstarted);
        return false;
      }
      var key := KeyOf(frame);
      if
        || pending >= limits.maxPending
        || (key in queues && |queues[key].frames| >= limits.maxPerDevice)
        || (key !in queues && |queues| >= limits.maxWorkers)
      {
        Reject(frame, FULL, n, RejectedUnstarted);
        return false;
      }
      if key !in queues {
        queues := queues[key := DeviceQueue([], false, false)];
      }
      queues := queues[key := queues[key].(frames := queues[key].frames + [Job(n, frame)])];
      pending := pending + 1;
      accepted := true;
    }

    method Reject(frame: Frame, reason: string, ghost n: nat, ghost fate: Fate)
      modifies this`rejections, this`fates
      ensures rejections == old(rejections) + [(frame, reason)]
      ensures fates == old(fates) + [(n, fate)]
    {
      rejections := rejections + [(frame, reason)];
      fates := fates + [(n, fate)];
    }

    /** One turn of the worker loop: take the head and call execute. */
    method BeginHead(key: Key) returns (frame: Frame)
      requires Valid() && CanBegin(View(), key)
      modifies this
      ensures Valid() && View() == Begin(old(View()), key) && rejections == old(rejections)
      ensures frame == old(queues[key].frames[0].frame)
    {
      frame := queues[key].frames[0].frame;
      starts := starts + [queues[key].frames[0].serial];
      queues := queues[key := queues[key].(running := true, entered := true)];
    }

    /** execute came back, or raised: pop the head, and report a raised command as unknown. */
    method EndHead(key: Key, returned: bool)
      requires Valid() && CanEnd(View(), key)
      modifies this
      ensures Valid() && View() == End(old(View()), key, returned)
      ensures rejections == old(rejections)
        + if returned then [] else [(old(queues[key].frames[0].frame), HANDLER_FAILED)]
    {
      var head := queues[key].frames[0];
      if returned {
        fates := fates + [(head.serial, Completed)];
      } else {
        Reject(head.frame, HANDLER_FAILED, head.serial, RejectedUnknown);
      }
      queues := queues[key := queues[key].(running := false, frames := queues[key].frames[1..])];
      pending := pending - 1;
    }

    /** The cancelled worker reports its running command as unknown and leaves. */
    method CancelHead(key: Key)
      requires Valid() && stopped && CanEnd(View(), key)
      modifies this
      ensures Valid() && View() == Cancel(old(View()), key)
      ensures rejections == old(rejections) + [(old(queues[key].frames[0].frame), INTERRUPTED)]
    {
      var head := queues[key].frames[0];
      Reject(head.frame, INTERRUPTED, head.serial, RejectedUnknown);
      queues := queues[key := queues[key].(running := false, frames := queues[key].frames[1..])];
      pending := pending - 1;
      queues := queues - {key};
    }

    method LeaveQueue(key: Key)
      requires Valid() && CanLeave(View(), key)
      modifies this
      ensures Valid() && View() == Leave(old(View()), key) && rejections == old(rejections)
    {
      queues := queues - {key};
    }

    /** Pop one queue's frames from the back, down to a running head. */
    method DiscardFrames(key: Key, reason: string)
      requires Valid() && key in queues
      modifies this
      ensures Valid() && View() == DiscardQueue(old(View()), key)
      ensures queues.Keys == old(queues.Keys) && stopped == old(stopped)
      ensures AllReported(old(rejections), reason) && |rejections| - |old(rejections)| == |fates| - |old(fates)|
    {
      while |queues[key].frames| > Kept(queues[key])
        invariant Valid() && key in queues && queues.Keys == old(queues.Keys) && stopped == old(stopped)
        invariant DiscardQueue(View(), key) == DiscardQueue(old(View()), key)
        invariant AllReported(old(rejections), reason) && |rejections| - |old(rejections)| == |fates| - |old(fates)|
        decreases |queues[key].frames|
      {
        PopBack(key, reason);
      }
    }

    /** The frame that came last goes first. */
    method PopBack(key: Key, reason: string)
      requires Valid() && CanDrop(View(), key)
      modifies this
      ensures Valid() && View() == DropLast(old(View()), key) && |queues[key].frames| == |old(queues[key].frames)| - 1
      ensures rejections == old(rejections) + [(old(queues[key].frames[|queues[key].frames| - 1].frame), reason)]
    {
      var q := queues[key];
      var last := |q.frames| - 1;
      queues := queues[key := q.(frames := q.frames[..last])];
      pending := pending - 1;
      Reject(q.frames[last].frame, reason, q.frames[last].serial, RejectedUnstarted);
    }

    /** Every rejection since before was for this reason. */
    ghost predicate AllReported(before: seq<(Frame, string)>, reason: string)
      reads this
    {
      before <= rejections && forall i :: |before| <= i < |rejections| ==> rejections[i].1 == reason
    }

    /** Drop everything not yet started, in whatever order the dictionary lists its queues. */
    method DiscardQueued(reason: string) returns (ghost order: seq<Key>)
      requires Valid()
      modifies this
      ensures Valid() && stopped == old(stopped)
      ensures Lists(old(View()), order) && View() == Discard(old(View()), order)
      ensures AllReported(old(rejections), reason) && |rejections| - |old(rejections)| == |fates| - |old(fates)|
    {
      order := [];
      var keys := queues.Keys;
      while keys != {}
        invariant Valid() && stopped == old(stopped) && keys <= queues.Keys && queues.Keys == old(queues.Keys)
        invariant View() == Discard(old(View()), order)
        invariant forall key :: key in order <==> key in old(queues.Keys) && key !in keys
        invariant AllReported(old(rejections), reason) && |rejections| - |old(rejections)| == |fates| - |old(fates)|
        decreases keys
      {
        var key :| key in keys;
        DiscardFrames(key, reason);
        DiscardSnoc(old(View()), order, key);
        order := order + [key];
        keys := keys - {key};
      }
    }

    /** stop() up to its await: refuse from now on, discard what waits. */
    method BeginStop() returns (ghost order: seq<Key>)
      requires Valid()
      modifies this
      ensures Valid() && stopped && Lists(old(View()), order)
      ensures View() == Dispatch.BeginStop(old(View()), order)
      ensures forall i :: |old(rejections)| <= i < |rejections| ==> rejections[i].1 == STOPPING
    {
      if stopped {
        order := AnyOrder();
      } else {
        stopped := true;
        order := DiscardQueued(STOPPING);
      }
    }

    ghost method AnyOrder() returns (order: seq<Key>)
      ensures Lists(View(), order)
    {
      order := [];
      var keys := queues.Keys;
      while keys != {}
        invariant keys <= queues.Keys
        invariant forall key :: key in order <==> key in queues && key !in keys
        decreases keys
      {
        var key :| key in keys;
        order := order + [key];
        keys := keys - {key};
      }
    }

    /** stop() after every task it waits for is done. */
    method EndStop()
      requires Valid() && CanEndStop(View())
      modifies this
      ensures Valid() && View() == Dispatch.EndStop(old(View()))
    {
      queues, pending := map[], 0;
    }
  }
}
