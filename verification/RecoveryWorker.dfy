/** The recovery part of one module's worker (worker.py), on mutable fields. */
module RecoveryWorker {
  import opened Basics
  import opened Recovery

  class DeviceWorker {
    const settings: Settings
    var attempts: seq<int>
    var stage: nat
    var sequence: nat
    var inflight: Option<Inflight>
    var issueOpen: bool
    var lastAction: Option<Action>
    var lastAttempt: nat
    var limitReported: bool
    var since: Option<int>
    /** The stored row and the logged events. */
    var disk: Option<Record>
    var notes: seq<Note>

    ghost function Rec(): Record
      reads this
    {
      Record(attempts, stage, sequence, inflight, issueOpen, lastAction, lastAttempt, limitReported)
    }

    ghost function State(): Worker
      reads this
    {
      Worker(Rec(), since, disk, notes)
    }

    /** Recovery state of a new process, from what the store holds. */
    constructor (s: Settings, stored: Option<Record>, logged: seq<Note>, now: int)
      ensures State() == Load(stored, now, logged) && settings == s
    {
      settings := s;
      since := None;
      disk := stored;
      notes := logged;
      var r := if stored.Some? then stored.value else NEW_RECORD;
      attempts := if stored.Some? then SortTimes(Filter(r.attempts, at => Recent(at, now))) else [];
      stage := if r.stage < |STAGES| then r.stage else 0;
      sequence := r.sequence;
      inflight := if r.inflight.Some? && r.inflight.value.attempt > 0 then r.inflight else None;
      issueOpen := r.issueOpen;
      lastAction := r.lastAction;
      lastAttempt := r.lastAttempt;
      limitReported := r.limitReported;
    }

    method Store()
      modifies this
      ensures State() == Persist(old(State()))
    {
      disk := Some(Record(attempts, stage, sequence, inflight, issueOpen, lastAction, lastAttempt, limitReported));
    }

    method StartRecovery(action: Action) returns (attempt: nat)
      modifies this
      ensures State() == Start(old(State()), action) && attempt == sequence
    {
      sequence := sequence + 1;
      attempt := sequence;
      inflight := Some(Inflight(action, attempt));
      issueOpen := true;
      lastAction := Some(action);
      lastAttempt := attempt;
      Store();
      notes := notes + [Started(action, attempt)];
    }

    method FinishRecovery(action: Action, attempt: nat, outcome: Outcome)
      modifies this
      ensures State() == Finish(old(State()), action, attempt, outcome)
    {
      notes := notes + [Finished(action, attempt, outcome)];
      inflight := None;
      if outcome != Failed {
        issueOpen := false;
      }
      Store();
    }

    /** _registration_restored (Succeeded) and _cancel_registration_recovery (Cancelled). */
    method CloseRecovery(outcome: Outcome)
      modifies this
      ensures State() == Close(old(State()), outcome)
    {
      var changed := since.Some? || stage != 0 || limitReported;
      since := None;
      stage := 0;
      limitReported := false;
      if issueOpen {
        FinishRecovery(if lastAction.Some? then lastAction.value else RegistrationWatch, lastAttempt, outcome);
      } else if changed {
        Store();
      }
    }

    /** Pops the attempts that are no longer recent off the front of the deque. */
    method PopOldAttempts(now: int)
      modifies `attempts
      ensures attempts == Pruned(old(attempts), now)
    {
      while attempts != [] && !Recent(attempts[0], now)
        invariant Pruned(attempts, now) == Pruned(old(attempts), now)
        decreases |attempts|
      {
        attempts := attempts[1..];
      }
    }

    method PruneAttempts(now: int)
      modifies this
      ensures State() == Prune(old(State()), now, settings.limit)
    {
      hide Pruned, Recent;
      var before := |attempts|;
      PopOldAttempts(now);
      var changed := |attempts| < before;
      if limitReported && |attempts| < settings.limit {
        limitReported := false;
        changed := true;
      }
      if changed {
        Store();
      }
    }

    method ReportRecoveryLimit()
      modifies this
      ensures State() == ReportLimit(old(State()))
    {
      if limitReported {
        return;
      }
      limitReported := true;
      issueOpen := true;
      lastAction := Some(RegistrationRecovery);
      notes := notes + [Exhausted(lastAttempt)];
      Store();
    }

    /** One status sample up to the AT command; the action to issue, if any. */
    method MaybeRecover(seen: Sample, now: int) returns (action: Option<Inflight>)
      requires stage < |STAGES|
      modifies this
      ensures (State(), action) == Decide(old(State()), seen, now, settings)
    {
      hide Close, Prune;
      action := None;
      if seen.radioOff || seen.manual {
        CloseRecovery(Cancelled);
      } else if seen.registered {
        CloseRecovery(Succeeded);
      } else if settings.limit == 0 {
        CloseRecovery(Cancelled);
      } else {
        if since.None? {
          since := Some(now);
        }
        assert State() == Waiting(old(State()), now);
        if now - since.value >= settings.delay {
          action := Escalate(old(State()), now);
        }
      }
    }

    /** The part of a sample that comes once the module has been unregistered for long enough. */
    method Escalate(ghost before: Worker, now: int) returns (action: Option<Inflight>)
      requires stage < |STAGES| && before.rec.stage == stage && State() == Waiting(before, now)
      requires since.value <= now - settings.delay
      modifies this
      ensures settings.limit > 0 ==> (State(), action) == Decide(before, Sample(false, false, false), now, settings)
    {
      action := None;
      PruneAttempts(now);
      hide Prune, Start, ReportLimit;
      if |attempts| >= settings.limit {
        ReportRecoveryLimit();
      } else if attempts == [] || now - attempts[|attempts| - 1] >= settings.cooldown {
        var chosen := STAGES[stage];
        attempts := attempts + [now];
        var attempt := StartRecovery(chosen);
        action := Some(Inflight(chosen, attempt));
      }
    }

    /** The radio action returned. */
    method ActionReturned(issued: Inflight, recovered: bool)
      modifies this
      ensures State() == Acted(old(State()), issued, recovered)
    {
      if recovered {
        stage := 0;
        since := None;
        limitReported := false;
        FinishRecovery(issued.action, issued.attempt, Succeeded);
      } else {
        stage := (stage + 1) % |STAGES|;
        FinishRecovery(issued.action, issued.attempt, Failed);
      }
    }

    /** The reset was asked for. */
    method ResetReturned(began: int)
      modifies this
      ensures State() == ResetAsked(old(State()), began)
    {
      stage := 0;
      since := Some(began);
      Store();
    }

    /** _settle_recovery_after_connect. */
    method SettleAfterConnect(radioOff: bool, registered: bool, now: int)
      modifies this
      ensures State() == Settle(old(State()), radioOff, registered, now)
    {
      if inflight.Some? {
        var f := inflight.value;
        if f.action == SerialReconnect {
          FinishRecovery(f.action, f.attempt, Succeeded);
        } else if radioOff {
          FinishRecovery(f.action, f.attempt, Cancelled);
        } else if registered {
          FinishRecovery(f.action, f.attempt, Succeeded);
        } else {
          FinishRecovery(f.action, f.attempt, Failed);
        }
      }
      if registered {
        CloseRecovery(Succeeded);
      } else if radioOff {
        CloseRecovery(Cancelled);
      } else {
        since := Some(now);
      }
    }
  }
}
