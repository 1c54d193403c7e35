/** The alerter as an object (alerts.py): its set, its map and its tasks, updated in place. */
module OfflineAlerter {
  import opened Alerter

  class OfflineAlerter {
    const grace: nat
    var alerted: set<Key>
    var pending: map<Key, nat>
    /** The live timer tasks, by number. */
    var tasks: map<nat, Timer>
    var spawned: nat
    var closed: bool
    /** The loop's clock, and what has been noted, paged and announced. */
    var now: int
    var history: seq<Happening>

    ghost function State(): State
      reads this
    {
      Alerter.State(grace, now, alerted, pending, tasks, spawned, closed, history)
    }

    constructor (seconds: nat, clock: int)
      ensures State() == Start(seconds, clock)
    {
      grace := seconds;
      alerted := {};
      pending := map[];
      tasks := map[];
      spawned := 0;
      closed := false;
      now := clock;
      history := [];
    }

    method Note(key: Key, online: bool)
      modifies this
      ensures State() == Noting(old(State()), key, online)
    {
      history := history + [Noted(key, online, now)];
      if online {
        NoteOnline(key);
      } else {
        NoteOffline(key, |history| - 1);
      }
    }

    method NoteOffline(key: Key, armed: nat)
      modifies this
      ensures State() == Alerter.NoteOffline(old(State()), key, armed)
    {
      if key in pending || key in alerted {
        return;
      }
      tasks := tasks[spawned := Timer(key, Unstarted, false, armed)];
      pending := pending[key := spawned];
      spawned := spawned + 1;
    }

    method NoteOnline(key: Key)
      modifies this
      ensures State() == Alerter.NoteOnline(old(State()), key)
    {
      if key in pending {
        tasks := CancelTimer(tasks, pending[key]);
      }
      pending := pending - {key};
      if key in alerted {
        alerted := alerted - {key};
        history := history + [Announced(key, now)];
      }
    }

    method Finish(id: nat)
      requires id in tasks
      modifies this
      ensures State() == Finished(old(State()), id)
    {
      var key := tasks[id].key;
      if key in pending && pending[key] == id {
        pending := pending - {key};
      }
      tasks := tasks - {id};
    }

    /** One turn of a timer task. */
    method FireAfterGrace(id: nat, answer: bool)
      requires id in tasks
      modifies this
      ensures State() == Turn(old(State()), id, answer)
    {
      var t := tasks[id];
      if t.cancelled {
        if t.phase.Unstarted? {
          tasks := tasks - {id};
        } else {
          Finish(id);
        }
        return;
      }
      match t.phase
      case Unstarted => tasks := tasks[id := t.(phase := ReadingEnabled)];
      case ReadingEnabled =>
        if answer {
          tasks := tasks[id := t.(phase := Sleeping(now + grace))];
        } else {
          Finish(id);
        }
      case Sleeping(_) => tasks := tasks[id := t.(phase := Recording)];
      case Recording =>
        if answer {
          alerted := alerted + {t.key};
          pending := pending - {t.key};
          history := history + [Paged(t.key, now)];
          tasks := tasks[id := t.(phase := Delivering)];
        } else {
          Finish(id);
        }
      case Delivering => Finish(id);
    }

    method Close()
      modifies this
      ensures State() == CloseAll(old(State()))
    {
      closed := true;
      tasks := map id | id in tasks :: tasks[id].(cancelled := true);
    }
  }
}
