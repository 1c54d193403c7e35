/** The application object of app.py: emitting events, rejecting and handling commands. */
module AgentApp {
  import opened Basics
  import opened Database
  import opened Queue
  import opened App
  import opened LocalStore
  import opened ServerLink

  class Agent {
    const store: Store
    const link: Sender
    const maxQueued: nat

    constructor (store: Store, link: Sender, maxQueued: nat)
      ensures this.store == store && this.link == link && this.maxQueued == maxQueued
    {
      this.store, this.link, this.maxQueued := store, link, maxQueued;
    }

    /** Append, trim, nudge; afterwards the queue is within its cap or holds no status sample. */
    method EmitEvent(kind: string, payload: Payload)
      requires QueueOk(store.File())
      modifies store, link
      ensures store.File() == Emit(old(store.File()), kind, payload, maxQueued) && link.wake
      ensures QueueOk(store.File())
      ensures |Unacked(store.events)| <= maxQueued || forall r :: r in store.events ==> !IsStatus(r)
    {
      EmitRespectsCap(store.File(), kind, payload, maxQueued);
      var _ := store.Append(kind, payload);
      TrimLosesOnlyStatus(store.File(), maxQueued);
      var _ := store.Trim(maxQueued);
      link.Nudge();
    }

    method ReportPlain(cmdId: CmdRef, ok: bool, data: Option<string>, error: Option<string>)
      requires QueueOk(store.File())
      modifies store, link
      ensures store.File() == PlainResult(old(store.File()), cmdId, ok, data, error, maxQueued)
    {
      if cmdId.Missing? {
        return;
      }
      EmitEvent(RESULT_KIND, Plain(cmdId, ok, data, error));
    }

    method Reject(frame: Frame, error: string)
      requires QueueOk(store.File())
      modifies store, link
      ensures store.File() == RejectCommand(old(store.File()), frame, error, maxQueued)
      ensures Durable(frame) ==> link.wake
    {
      if Durable(frame) {
        var claim := store.Begin(frame);
        if claim == New {
          store.Finish(frame, Cancelled, None, Some(error));
        }
        link.Nudge();
        return;
      }
      ReportPlain(frame.cmdId, false, None, Some(error));
    }

    /** handle_command up to the call of its handler; enters says whether it is called. */
    method Handle(frame: Frame, now: int, workers: map<string, Identity>) returns (enters: bool)
      requires QueueOk(store.File())
      modifies store, link
      ensures store.File() == HandleUntilHandler(old(store.File()), frame, now, workers, maxQueued)
      ensures enters <==> Enters(old(store.File()), frame, now, workers)
      ensures Durable(frame) && !enters ==> link.wake
    {
      var durable := Durable(frame);
      if durable {
        var claim := store.Begin(frame);
        if claim != New {
          link.Nudge();
          return false;
        }
      }
      if frame.kind !in HANDLERS {
        if durable {
          store.Finish(frame, Failed, None, Some("unknown command " + frame.kind));
          link.Nudge();
        } else {
          ReportPlain(frame.cmdId, false, None, Some("unknown command " + frame.kind));
        }
        return false;
      }
      if durable {
        match Screen(frame, now, workers)
        case Enter =>
        case Finish(status, error) =>
          store.Finish(frame, status, None, Some(error));
          link.Nudge();
          return false;
      }
      enters := true;
    }

    /** handle_command once its handler ended. */
    method Complete(frame: Frame, ending: Ending)
      requires QueueOk(store.File())
      modifies store, link
      ensures store.File() == HandleAfterHandler(old(store.File()), frame, ending, maxQueued)
      ensures Durable(frame) ==> link.wake
    {
      if Durable(frame) {
        store.Finish(frame, FinalStatus(ending), DataOf(ending), ErrorOf(ending));
        link.Nudge();
      } else if !ending.Interrupted? {
        ReportPlain(frame.cmdId, ending.Returned?, DataOf(ending), ErrorOf(ending));
      }
    }
  }
}
