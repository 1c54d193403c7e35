/** At-most-once execution with honest outcomes, over every run. */
module CommandSafety {
  import opened Basics
  import opened Database
  import opened Queue
  import opened Journal
  import opened App
  import Dispatch
  import opened Commands

  // ------------------------------------------------------ one frame's effect

  /** What a journal transaction on account of a frame keeps. */
  ghost predicate Keeps(a: Db, b: Db) {
    && JournalOk(b) && Extends(a, b) && Advances(a, b)
    && forall e :: e in Fresh(a, b) ==> e.payload.Journalled? && Agrees(b, e)
  }

  /** Exactly the rows that leave "running" are reported, and repeats concern finished rows. */
  ghost predicate ReportsExactly(a: Db, b: Db)
    requires |a.events| <= |b.events|
  {
    && (forall id :: id in b.runs && b.runs[id].status != Running && (id !in a.runs || a.runs[id].status == Running) ==>
          Reported(Fresh(a, b), id))
    && (forall e :: e in Fresh(a, b) && e.payload.Journalled? ==>
          e.payload.outcome.cmdId in b.runs && b.runs[e.payload.outcome.cmdId].status != Running)
  }

  lemma BeginReports(db: Db, f: Frame)
    requires JournalOk(db) && f.cmdId.Name?
    ensures Keeps(db, BeginCommand(db, f)) && ReportsExactly(db, BeginCommand(db, f))
  {
    BeginKeeps(db, f);
    if ClaimOf(db, f) == Replayed {
      FreshOfAppend(db, RESULT_KIND, Journalled(db.runs[f.cmdId.name].result.value));
    } else {
      assert db.events[|db.events|..] == [];
    }
  }

  lemma FinishReports(db: Db, f: Frame, status: Status, data: Option<string>, error: Option<string>)
    requires JournalOk(db) && f.cmdId.Name? && status != Running
    requires f.cmdId.name in db.runs ==> db.runs[f.cmdId.name].frame == f
    ensures var after := FinishCommand(db, f, status, data, error); Keeps(db, after) && ReportsExactly(db, after)
  {
    FinishIsAtomic(db, f, status, data, error);
    var after := FinishCommand(db, f, status, data, error);
    hide FinishCommand, JournalOk, Extends;
    if after == db {
      assert db.events[|db.events|..] == [];
    } else {
      var e := Fresh(db, after)[0];
      assert Fresh(db, after) == [e];
      assert e in Fresh(db, after);
    }
  }

  lemma KeepsCompose(a: Db, b: Db, c: Db)
    requires JournalOk(a) && Keeps(a, b) && ReportsExactly(a, b) && Keeps(b, c) && ReportsExactly(b, c)
    ensures Keeps(a, c) && ReportsExactly(a, c)
  {
    Composes(a, b, c);
    forall id | id in c.runs && c.runs[id].status != Running && (id !in a.runs || a.runs[id].status == Running)
      ensures Reported(Fresh(a, c), id)
    {
      if id in b.runs && b.runs[id].status != Running {
        var e :| e in Fresh(a, b) && e.payload.Journalled? && e.payload.outcome.cmdId == id;
        assert e in Fresh(a, c);
      } else {
        var e :| e in Fresh(b, c) && e.payload.Journalled? && e.payload.outcome.cmdId == id;
        assert e in Fresh(a, c);
      }
    }
  }

  /** A run that ended without its handler. */
  ghost predicate Told(run: Run, status: Status, error: string) {
    run.status == status && run.result.Some? && run.result.value.data == None && run.result.value.error == Some(error)
  }

  /**
   Rejecting a journalled frame: a command never seen before is cancelled and
   can never run; one already journalled keeps its row.
   */
  lemma RejectKeeps(db: Db, f: Frame, error: string, keep: int)
    requires JournalOk(db) && Durable(f)
    ensures var after := RejectCommand(db, f, error, keep);
      && Keeps(db, after) && ReportsExactly(db, after)
      && (forall id :: id in db.runs ==> after.runs[id] == db.runs[id])
      && (f.cmdId.name !in db.runs ==> f.cmdId.name in after.runs && Told(after.runs[f.cmdId.name], Cancelled, error))
      && (forall id :: id in after.runs && id !in db.runs ==> id == f.cmdId.name)
  {
    BeginReports(db, f);
    if ClaimOf(db, f) == New {
      ScreenedKeeps(db, f, Cancelled, error);
    }
  }

  /** Finishing a command just claimed, without its handler. */
  lemma ScreenedKeeps(db: Db, f: Frame, status: Status, error: string)
    requires JournalOk(db) && Durable(f) && ClaimOf(db, f) == New && status != Running
    ensures var after := FinishCommand(BeginCommand(db, f), f, status, None, Some(error));
      && Keeps(db, after) && ReportsExactly(db, after)
      && (forall id :: id in db.runs ==> after.runs[id] == db.runs[id])
      && f.cmdId.name in after.runs && Told(after.runs[f.cmdId.name], status, error)
      && (forall id :: id in after.runs && id !in db.runs ==> id == f.cmdId.name)
  {
    var claimed := BeginCommand(db, f);
    BeginReports(db, f);
    assert claimed.runs == db.runs[f.cmdId.name := Run(f, Running, None)];
    hide BeginCommand, ReportsExactly, Agrees, ClaimOf;
    FinishReports(claimed, f, status, None, Some(error));
    KeepsCompose(db, claimed, FinishCommand(claimed, f, status, None, Some(error)));
  }

  /** Handling a journalled frame up to its handler: it is entered only when its id was new, and is then running. */
  lemma HandleKeeps(db: Db, f: Frame, now: int, workers: map<string, Identity>, keep: int)
    requires JournalOk(db) && Durable(f)
    ensures var after := HandleUntilHandler(db, f, now, workers, keep);
      && Keeps(db, after) && ReportsExactly(db, after)
      && (forall id :: id in db.runs ==> after.runs[id] == db.runs[id])
      && (forall id :: id in after.runs && id !in db.runs ==> id == f.cmdId.name && after.runs[id].status != Succeeded)
      && (Enters(db, f, now, workers) ==>
            f.cmdId.name !in db.runs && f.cmdId.name in after.runs && after.runs[f.cmdId.name] == Run(f, Running, None))
  {
    hide Keeps, ReportsExactly, JournalOk, FinishCommand;
    BeginReports(db, f);
    if ClaimOf(db, f) == New && Screen(f, now, workers).Finish? {
      var verdict := Screen(f, now, workers);
      assert verdict.status in {Failed, Unknown, Cancelled};
      ScreenedKeeps(db, f, verdict.status, verdict.error);
    }
  }

  /** Ending a handler: only its own row changes, and if it was running it then tells the ending. */
  lemma EndKeeps(db: Db, f: Frame, e: Ending, keep: int)
    requires JournalOk(db) && Durable(f) && f.cmdId.name in db.runs && db.runs[f.cmdId.name].frame == f
    ensures var after := HandleAfterHandler(db, f, e, keep); var id := f.cmdId.name;
      && Keeps(db, after) && ReportsExactly(db, after)
      && after.runs.Keys == db.runs.Keys
      && (forall other :: other in db.runs && other != id ==> after.runs[other] == db.runs[other])
      && after.runs[id].frame == f
      && (if db.runs[id].status == Running then Honest(after.runs[id], e) else after.runs[id] == db.runs[id])
  {
    FinishReports(db, f, FinalStatus(e), DataOf(e), ErrorOf(e));
    FinishIsAtomic(db, f, FinalStatus(e), DataOf(e), ErrorOf(e));
  }

  /** A frame without journal leaves the journal alone. */
  lemma PlainKeepsJournal(db: Db, f: Frame, error: string, now: int, workers: map<string, Identity>, e: Ending,
      keep: int)
    requires !Durable(f)
    ensures RejectCommand(db, f, error, keep).runs == db.runs
    ensures HandleUntilHandler(db, f, now, workers, keep).runs == db.runs
    ensures HandleAfterHandler(db, f, e, keep).runs == db.runs
  {
  }

  // ------------------------------------------------------------ the steps

  /** Whatever only extends the journal keeps the reports in agreement with it. */
  lemma ReportsFollow(w: World, db: Db, reports: seq<Event>)
    requires Inv(w) && Keeps(w.db, db) && ReportsExactly(w.db, db)
    requires reports == w.reports + Fresh(w.db, db)
    ensures ReportsAgree(db, reports) && ReportedWhenFinished(db, reports)
  {
    forall e | e in reports ensures e.payload.Journalled? && Agrees(db, e) {
      if e in w.reports {
        AgreesForGood(w.db, db, e);
      }
    }
    forall id | id in db.runs ensures db.runs[id].status != Running <==> Reported(reports, id) {
      if db.runs[id].status != Running {
        if id in w.db.runs && w.db.runs[id].status != Running {
          var e :| e in w.reports && e.payload.Journalled? && e.payload.outcome.cmdId == id;
          assert e in reports;
        } else {
          var e :| e in Fresh(w.db, db) && e.payload.Journalled? && e.payload.outcome.cmdId == id;
          assert e in reports;
        }
      }
      if Reported(reports, id) {
        var e :| e in reports && e.payload.Journalled? && e.payload.outcome.cmdId == id;
        assert Agrees(db, e);
      }
    }
  }

  lemma HandledPhases(w: World, key: Dispatch.Key, f: Frame, after: Db, enters: bool)
    requires PhasesOk(w.phases, w.db.runs, w.entered) && Durable(f)
    requires forall id :: id in w.db.runs ==> id in after.runs && after.runs[id] == w.db.runs[id]
    requires enters ==>
      f.cmdId.name !in w.db.runs && f.cmdId.name in after.runs && after.runs[f.cmdId.name] == Run(f, Running, None)
    ensures PhasesOk(w.phases[key := if enters then InHandler(f) else Leaving(f)], after.runs,
                     if enters then w.entered + [f.cmdId.name] else w.entered)
  {
    var phases := w.phases[key := if enters then InHandler(f) else Leaving(f)];
    forall k, id | InHand(phases, k, id)
      ensures InHand(w.phases, k, id) || (enters && k == key && id == f.cmdId.name)
    {
    }
  }

  lemma HandledHistory(w: World, f: Frame, after: Db, enters: bool)
    requires Inv(w) && Durable(f)
    requires forall id :: id in w.db.runs ==> id in after.runs && after.runs[id] == w.db.runs[id]
    requires forall id :: id in after.runs && id !in w.db.runs ==>
      id == f.cmdId.name && after.runs[id].status != Succeeded
    requires enters ==>
      f.cmdId.name !in w.db.runs && f.cmdId.name in after.runs && after.runs[f.cmdId.name].status == Running
    ensures var entered := if enters then w.entered + [f.cmdId.name] else w.entered;
      DistinctIds(entered) && EntriesJournalled(after, entered) && EndingsTold(after, w.ended)
  {
    if enters {
      assert f.cmdId.name !in w.entered;
    }
  }

  lemma PhasesStay(w: World, after: Db)
    requires PhasesOk(w.phases, w.db.runs, w.entered)
    requires forall id :: id in w.db.runs ==> id in after.runs && after.runs[id] == w.db.runs[id]
    ensures PhasesOk(w.phases, after.runs, w.entered)
  {
  }

  /** A rejection keeps the invariant. */
  lemma RejectStep(w: World, f: Frame, error: string, keep: int)
    requires Inv(w)
    ensures Inv(WithDb(w, f, RejectCommand(w.db, f, error, keep)))
  {
    hide JournalOk, RejectCommand, PhasesOk, EntriesJournalled, EndingsTold, ReportsAgree, ReportedWhenFinished;
    if Durable(f) {
      RejectHistory(w, f, error, keep);
      RejectReports(w, f, error, keep);
    } else {
      PlainKeepsJournal(w.db, f, error, 0, map[], App.Interrupted, keep);
      SameJournal(w, WithDb(w, f, RejectCommand(w.db, f, error, keep)));
    }
  }

  lemma RejectHistory(w: World, f: Frame, error: string, keep: int)
    requires Inv(w) && Durable(f)
    ensures var after := RejectCommand(w.db, f, error, keep);
      EntriesJournalled(after, w.entered) && EndingsTold(after, w.ended) && PhasesOk(w.phases, after.runs, w.entered)
  {
    hide JournalOk, RejectCommand, ReportsExactly, ReportsAgree, ReportedWhenFinished, Honest;
    RejectKeeps(w.db, f, error, keep);
    var after := RejectCommand(w.db, f, error, keep);
    HandledHistory(w, f, after, false);
    PhasesStay(w, after);
  }

  lemma RejectReports(w: World, f: Frame, error: string, keep: int)
    requires Inv(w) && Durable(f)
    ensures var after := RejectCommand(w.db, f, error, keep);
      && JournalOk(after) && |w.db.events| <= |after.events|
      && ReportsAgree(after, w.reports + Fresh(w.db, after))
      && ReportedWhenFinished(after, w.reports + Fresh(w.db, after))
  {
    hide JournalOk, RejectCommand, ReportsExactly, ReportsAgree, ReportedWhenFinished, PhasesOk, EndingsTold;
    RejectKeeps(w.db, f, error, keep);
    var after := RejectCommand(w.db, f, error, keep);
    ReportsFollow(w, after, w.reports + Fresh(w.db, after));
    KeepsParts(w.db, after);
    hide Keeps;
  }

  lemma BeganDurable(w: World, key: Dispatch.Key, f: Frame, now: int, workers: map<string, Identity>, keep: int,
      w': World)
    requires Inv(w) && Durable(f)
    requires w' == WithDb(w, f, HandleUntilHandler(w.db, f, now, workers, keep)).(
      dispatch := w'.dispatch,
      phases := w.phases[key := if Enters(w.db, f, now, workers) then InHandler(f) else Leaving(f)],
      entered := if Enters(w.db, f, now, workers) then w.entered + [f.cmdId.name] else w.entered)
    ensures Inv(w')
  {
    hide JournalOk, HandleUntilHandler, ReportsExactly, Enters, ReportsAgree, ReportedWhenFinished, Durable;
    var after, enters := HandleUntilHandler(w.db, f, now, workers, keep), Enters(w.db, f, now, workers);
    HandleKeeps(w.db, f, now, workers, keep);
    ReportsFollow(w, after, w.reports + Fresh(w.db, after));
    HandledHistory(w, f, after, enters);
    HandledPhases(w, key, f, after, enters);
    hide PhasesOk, DistinctIds, EntriesJournalled, EndingsTold;
  }

  lemma BeganStep(w: World, a: Action)
    requires Inv(w) && a.Began? && Enabled(w, a)
    ensures Inv(Next(w, a))
  {
    var f := w.dispatch.queues[a.key].frames[0].frame;
    if Durable(f) {
      hide Inv, HandleUntilHandler, Enters;
      BeganDurable(w, a.key, f, a.now, a.workers, a.keep, Next(w, a));
    } else {
      PlainKeepsJournal(w.db, f, "", a.now, a.workers, App.Interrupted, a.keep);
      hide Inv, HandleUntilHandler, Enters;
      PlainPhase(w, a.key, Next(w, a).phases[a.key]);
      SameJournal(w.(phases := Next(w, a).phases), Next(w, a));
    }
  }

  /** The phase of an unjournalled frame may be anything. */
  lemma PlainPhase(w: World, key: Dispatch.Key, phase: Phase)
    requires Inv(w) && !Durable(phase.frame)
    ensures Inv(w.(phases := w.phases[key := phase]))
  {
    var next := w.(phases := w.phases[key := phase]);
    assert forall k, id :: InHand(next.phases, k, id) ==> InHand(w.phases, k, id);
    hide JournalOk, ReportsAgree, ReportedWhenFinished, EntriesJournalled, EndingsTold;
  }

  /** A change that leaves the journal, the phases and the history alone. */
  lemma SameJournal(w: World, w': World)
    requires Inv(w) && w'.db.runs == w.db.runs && w'.reports == w.reports && w'.entered == w.entered
    requires w'.ended == w.ended && w'.phases == w.phases
    ensures Inv(w')
  {
    hide PhasesOk;
  }

  /** Steps that touch only the dispatcher, and phases that come to their end, keep the invariant. */
  lemma PhasesEnd(w: World, w': World)
    requires Inv(w) && w' == w.(dispatch := w'.dispatch, phases := w'.phases)
    requires forall key :: key in w'.phases ==>
      w'.phases[key].Leaving? || (key in w.phases && w'.phases[key] == w.phases[key])
    ensures Inv(w')
  {
    assert forall key, id :: InHand(w'.phases, key, id) ==> InHand(w.phases, key, id);
    hide JournalOk, ReportsAgree, ReportedWhenFinished, EntriesJournalled, EndingsTold;
  }

  /** An ended handler keeps the invariant. */
  lemma EndedStep(w: World, key: Dispatch.Key, ending: Ending, keep: int)
    requires Inv(w) && key in w.phases && w.phases[key].InHandler?
    ensures Inv(AfterEnding(w, key, ending, keep))
  {
    var f := w.phases[key].frame;
    if Durable(f) {
      assert InHand(w.phases, key, f.cmdId.name);
      EndedReports(w, key, ending, keep);
      EndedHistory(w, key, ending, keep);
      EndedPhases(w, key, ending, keep);
      hide JournalOk, HandleAfterHandler, ReportsAgree, ReportedWhenFinished, PhasesOk, EntriesJournalled, EndingsTold;
    } else {
      PlainKeepsJournal(w.db, f, "", 0, map[], ending, keep);
      hide HandleAfterHandler, ReportsAgree, ReportedWhenFinished;
      PhasesEnd(w, w.(phases := w.phases - {key}));
      SameJournal(w.(phases := w.phases - {key}), AfterEnding(w, key, ending, keep));
    }
  }

  lemma EndedReports(w: World, key: Dispatch.Key, ending: Ending, keep: int)
    requires Inv(w) && key in w.phases && w.phases[key].InHandler? && Durable(w.phases[key].frame)
    ensures var after := HandleAfterHandler(w.db, w.phases[key].frame, ending, keep);
      && JournalOk(after) && |w.db.events| <= |after.events|
      && ReportsAgree(after, w.reports + Fresh(w.db, after))
      && ReportedWhenFinished(after, w.reports + Fresh(w.db, after))
  {
    hide HandleAfterHandler, ReportsExactly, ReportsAgree, ReportedWhenFinished, Honest;
    var f := w.phases[key].frame;
    assert InHand(w.phases, key, f.cmdId.name);
    EndKeeps(w.db, f, ending, keep);
    var after := HandleAfterHandler(w.db, f, ending, keep);
    hide EntriesJournalled, EndingsTold, PhasesOk;
    ReportsFollow(w, after, w.reports + Fresh(w.db, after));
  }

  lemma EndedHistory(w: World, key: Dispatch.Key, ending: Ending, keep: int)
    requires Inv(w) && key in w.phases && w.phases[key].InHandler? && Durable(w.phases[key].frame)
    ensures var f := w.phases[key].frame;
      var after, ended := HandleAfterHandler(w.db, f, ending, keep), w.ended[f.cmdId.name := ending];
      && EntriesJournalled(after, w.entered) && EndingsTold(after, ended)
      && f.cmdId.name !in w.ended && f.cmdId.name in w.entered
  {
    hide HandleAfterHandler, Honest, JournalOk, Keeps, ReportsExactly, ReportsAgree, ReportedWhenFinished;
    var f := w.phases[key].frame;
    assert InHand(w.phases, key, f.cmdId.name);
    EndKeeps(w.db, f, ending, keep);
    hide PhasesOk, EndingsTold, EntriesJournalled;
    EndingAdded(w, f.cmdId.name, ending, HandleAfterHandler(w.db, f, ending, keep));
  }

  /** One more ending is told, of a command whose row was running. */
  lemma EndingAdded(w: World, id: string, e: Ending, after: Db)
    requires EntriesJournalled(w.db, w.entered) && EndingsTold(w.db, w.ended)
    requires id in w.db.runs && w.db.runs[id].status == Running && after.runs.Keys == w.db.runs.Keys
    requires forall other :: other in w.db.runs && other != id ==> after.runs[other] == w.db.runs[other]
    requires Honest(after.runs[id], e)
    ensures EntriesJournalled(after, w.entered) && EndingsTold(after, w.ended[id := e]) && id !in w.ended
  {
    hide Honest;
    HonestStatus(after.runs[id], e);
    if id in w.ended {
      HonestStatus(w.db.runs[id], w.ended[id]);
    }
    assert forall other :: other in w.ended ==> after.runs[other] == w.db.runs[other];
  }

  lemma HonestStatus(run: Run, e: Ending)
    requires Honest(run, e)
    ensures run.status != Running && run.status != Cancelled && (run.status == Succeeded <==> e.Returned?)
  {
  }

  lemma EndedPhases(w: World, key: Dispatch.Key, ending: Ending, keep: int)
    requires Inv(w) && key in w.phases && w.phases[key].InHandler? && Durable(w.phases[key].frame)
    ensures PhasesOk(w.phases - {key}, HandleAfterHandler(w.db, w.phases[key].frame, ending, keep).runs, w.entered)
  {
    var f := w.phases[key].frame;
    assert InHand(w.phases, key, f.cmdId.name);
    EndKeeps(w.db, f, ending, keep);
    hide JournalOk, ReportsAgree, ReportedWhenFinished, DistinctIds, Keeps, ReportsExactly, HandleAfterHandler, Honest;
    forall k, id | InHand(w.phases - {key}, k, id) ensures InHand(w.phases, k, id) && id != f.cmdId.name {
      assert InHand(w.phases, k, id);
    }
  }

  /** A claim alone, with nothing after it, keeps the invariant: its row runs, and no handler was entered. */
  lemma ClaimStep(w: World, f: Frame)
    requires Inv(w) && Durable(f)
    ensures Inv(WithDb(w, f, BeginCommand(w.db, f)))
    ensures Continues(w, WithDb(w, f, BeginCommand(w.db, f)))
  {
    hide JournalOk, ReportsExactly, ReportsAgree, ReportedWhenFinished;
    var after := BeginCommand(w.db, f);
    BeginReports(w.db, f);
    ReportsFollow(w, after, w.reports + Fresh(w.db, after));
    HandledHistory(w, f, after, false);
    PhasesStay(w, after);
    hide PhasesOk, EntriesJournalled, EndingsTold, BeginCommand;
  }

  lemma CutStep(w: World, cut: Cut)
    requires Inv(w) && CutEnabled(w, cut)
    ensures Inv(AtCrash(w, cut)) && Continues(w, AtCrash(w, cut))
  {
    match cut
    case Between =>
    case Claimed(f) =>
      hide Inv, Continues, WithDb, BeginCommand;
      ClaimStep(w, f);
    case Settled(key, keep) =>
      hide Inv, Continues, AfterEnding;
      EndedStep(w, key, App.Interrupted, keep);
      EndContinues(w, key, App.Interrupted, keep);
  }

  lemma CrashedStep(w: World, a: Action)
    requires Inv(w) && a.Crashed? && Enabled(w, a)
    ensures Inv(Next(w, a))
    ensures forall id :: id in Next(w, a).db.runs ==> Next(w, a).db.runs[id].status != Running
    ensures Continues(w, Next(w, a))
  {
    hide Inv, Continues, AtCrash;
    CutStep(w, a.cut);
    OpenedAgain(AtCrash(w, a.cut), a.token, a.ids);
    ContinuesTransitive(w, AtCrash(w, a.cut), Next(w, a));
  }

  lemma OpenedAgain(w: World, token: string, ids: seq<string>)
    requires Inv(w) && JournalOk(w.db) && ListsRunning(w.db, ids)
    ensures Inv(Reopened(w, token, ids)) && Continues(w, Reopened(w, token, ids))
    ensures forall id :: id in Reopened(w, token, ids).db.runs ==> Reopened(w, token, ids).db.runs[id].status != Running
  {
    var file := EnsureStreamId(w.db, token);
    LabelStep(w, token, ids);
    hide Inv, Continues, RecoverCommands, EnsureStreamId;
    RecoverKeeps(file, ids);
    RecoveredStep(w.(db := file), ids, Reopened(w, token, ids));
    hide Reopened;
    ContinuesTransitive(w, w.(db := file), Reopened(w, token, ids));
  }

  lemma RecoveredStep(w: World, ids: seq<string>, w': World)
    requires Inv(w) && JournalOk(w.db) && ListsRunning(w.db, ids)
    requires var db := RecoverCommands(w.db, ids);
      && |w.db.events| <= |db.events|
      && w' == w.(db := db, reports := w.reports + Fresh(w.db, db), dispatch := Dispatch.Start(w.dispatch.limits),
         phases := map[])
    ensures Inv(w') && Continues(w, w')
    ensures forall id :: id in w'.db.runs ==> w'.db.runs[id].status != Running
  {
    hide Inv, RecoverCommands, ReportsExactly, JournalOk, RunningIds, ListsRunning, Keeps, Dispatch.Start, Advances,
      Fresh;
    RunningListed(w.db, ids);
    RecoverRows(w.db, ids);
    RecoverReports(w.db, ids);
    KeepsParts(w.db, w'.db);
    ReopenedStep(w, ids, w'.db);
  }

  lemma RunningListed(db: Db, ids: seq<string>)
    requires JournalOk(db) && ListsRunning(db, ids)
    ensures RunningIds(db, ids)
  {
  }

  /** Labelling the file touches no journal row. */
  lemma LabelStep(w: World, token: string, ids: seq<string>)
    requires Inv(w) && ListsRunning(w.db, ids)
    ensures var file := EnsureStreamId(w.db, token);
      && Inv(w.(db := file)) && Continues(w, w.(db := file)) && ListsRunning(file, ids) && JournalOk(file)
  {
  }

  lemma ReopenedStep(w: World, ids: seq<string>, db: Db)
    requires Inv(w) && ListsRunning(w.db, ids) && Keeps(w.db, db) && ReportsExactly(w.db, db)
    requires db.runs.Keys == w.db.runs.Keys && forall id :: id in ids ==> db.runs[id].status == Unknown
    requires forall id :: id in w.db.runs && id !in ids ==> db.runs[id] == w.db.runs[id]
    ensures Inv(w.(db := db, reports := w.reports + Fresh(w.db, db), dispatch := Dispatch.Start(w.dispatch.limits),
      phases := map[]))
    ensures forall id :: id in db.runs ==> db.runs[id].status != Running
  {
    hide ReportsAgree, ReportedWhenFinished, Agrees, RunOk, Honest, PhasesOk;
    EndingsStay(w, db);
    hide EndingsTold;
    assert PhasesOk(map[], db.runs, w.entered) by {
      NoPhases(db, w.entered);
    }
    ReportsFollow(w, db, w.reports + Fresh(w.db, db));
  }

  /** Endings go on being told while finished rows stay and none turns into a success. */
  lemma EndingsStay(w: World, after: Db)
    requires EndingsTold(w.db, w.ended)
    requires forall id :: id in w.db.runs && w.db.runs[id].status != Running ==>
      id in after.runs && after.runs[id] == w.db.runs[id]
    requires forall id :: id in after.runs && after.runs[id].status == Succeeded ==>
      id in w.db.runs && w.db.runs[id].status == Succeeded
    ensures EndingsTold(after, w.ended)
  {
    hide Honest;
    forall id | id in w.ended ensures id in after.runs && Honest(after.runs[id], w.ended[id]) {
      HonestStatus(w.db.runs[id], w.ended[id]);
    }
  }

  lemma NoPhases(db: Db, entered: seq<string>)
    ensures PhasesOk(map[], db.runs, entered)
  {
  }

  lemma {:induction false} RecoverReports(db: Db, ids: seq<string>)
    requires JournalOk(db) && RunningIds(db, ids)
    ensures Keeps(db, RecoverCommands(db, ids)) && ReportsExactly(db, RecoverCommands(db, ids))
    decreases |ids|
  {
    if ids == [] {
      assert db.events[|db.events|..] == [];
    } else {
      var f := db.runs[ids[0]].frame;
      var mid := FinishCommand(db, f, Unknown, None, Some(RESTARTED));
      FinishReports(db, f, Unknown, None, Some(RESTARTED));
      FinishIsAtomic(db, f, Unknown, None, Some(RESTARTED));
      hide Keeps, ReportsExactly, FinishCommand, Extends, Advances;
      RecoverReports(mid, ids[1..]);
      KeepsCompose(db, mid, RecoverCommands(mid, ids[1..]));
    }
  }

  lemma InterruptedStep(w: World, a: Action)
    requires Inv(w) && a.Interrupted? && Enabled(w, a)
    ensures Inv(Next(w, a))
  {
    var f := w.phases[a.key].frame;
    var w1 := AfterEnding(w, a.key, App.Interrupted, a.keep);
    EndedStep(w, a.key, App.Interrupted, a.keep);
    RejectStep(w1, f, INTERRUPTED, a.keep);
    PhasesEnd(WithDb(w1, f, RejectCommand(w1.db, f, INTERRUPTED, a.keep)), Next(w, a));
  }

  lemma HandlerEndedStep(w: World, a: Action)
    requires Inv(w) && a.HandlerEnded? && Enabled(w, a)
    ensures Inv(Next(w, a))
  {
    EndedStep(w, a.key, a.ending, a.keep);
    PhasesEnd(AfterEnding(w, a.key, a.ending, a.keep), Next(w, a));
  }

  /** The steps on which a frame is rejected. */
  lemma RejectedStep(w: World, a: Action)
    requires Inv(w) && Enabled(w, a) && (a.Received? || a.HandlerBroke? || a.Dropped?)
    ensures Inv(Next(w, a))
  {
    match a
    case Received(f, keep) =>
      RejectStep(w, f, FULL, keep);
      PhasesEnd(if Dispatch.Refuses(w.dispatch, f) then WithDb(w, f, RejectCommand(w.db, f, FULL, keep))
        else w, Next(w, a));
    case HandlerBroke(key, keep) =>
      var f := w.phases[key].frame;
      RejectStep(w, f, BROKE, keep);
      PhasesEnd(WithDb(w, f, RejectCommand(w.db, f, BROKE, keep)), Next(w, a));
    case Dropped(key, reason, keep) =>
      var frames := w.dispatch.queues[key].frames;
      var f := frames[|frames| - 1].frame;
      RejectStep(w, f, reason, keep);
      PhasesEnd(WithDb(w, f, RejectCommand(w.db, f, reason, keep)), Next(w, a));
  }

  /** Every step keeps the invariant. */
  lemma StepKeeps(w: World, a: Action)
    requires Inv(w) && Enabled(w, a)
    ensures Inv(Next(w, a))
  {
    match a
    case Received(_, _) => RejectedStep(w, a);
    case Began(_, _, _, _) => BeganStep(w, a);
    case HandlerEnded(_, _, _) => HandlerEndedStep(w, a);
    case WorkerEnded(_) => PhasesEnd(w, Next(w, a));
    case HandlerBroke(_, _) => RejectedStep(w, a);
    case WorkerLeft(_) => PhasesEnd(w, Next(w, a));
    case Interrupted(_, _) => InterruptedStep(w, a);
    case Dropped(_, _, _) => RejectedStep(w, a);
    case StopBegan => PhasesEnd(w, Next(w, a));
    case StopEnded => PhasesEnd(w, Next(w, a));
    case OtherTraffic(_) =>
    case Crashed(_, _, _) => CrashedStep(w, a);
  }

  // ------------------------------------------------------------ whole runs

  ghost predicate Init(w: World) {
    && JournalOk(w.db) && w.db.runs == map[]
    && w.phases == map[] && w.entered == [] && w.ended == map[] && w.reports == []
  }

  ghost predicate Moves(worlds: seq<World>, acts: seq<Action>, i: nat)
    requires i < |acts| && |worlds| == |acts| + 1
  {
    Enabled(worlds[i], acts[i]) && worlds[i + 1] == Next(worlds[i], acts[i])
  }

  ghost predicate Path(worlds: seq<World>, acts: seq<Action>) {
    |worlds| == |acts| + 1 && forall i :: 0 <= i < |acts| ==> Moves(worlds, acts, i)
  }

  /** The actions, each enabled where it is taken, lead from w to end. */
  ghost predicate Reaches(w: World, acts: seq<Action>, end: World) {
    exists worlds :: Path(worlds, acts) && worlds[0] == w && worlds[|acts|] == end
  }

  lemma {:induction false} PathKeeps(worlds: seq<World>, acts: seq<Action>, k: nat)
    requires Path(worlds, acts) && k <= |acts| && Inv(worlds[0])
    ensures Inv(worlds[k])
  {
    hide Inv;
    if k > 0 {
      PathKeeps(worlds, acts, k - 1);
      assert Moves(worlds, acts, k - 1);
      StepKeeps(worlds[k - 1], acts[k - 1]);
    }
  }

  lemma RunKeeps(w: World, acts: seq<Action>, end: World)
    requires Inv(w) && Reaches(w, acts, end)
    ensures Inv(end)
  {
    hide Inv;
    var worlds :| Path(worlds, acts) && worlds[0] == w && worlds[|acts|] == end;
    PathKeeps(worlds, acts, |acts|);
  }

  /** No step takes back a status, a frame, an entry, an ending or a report. */
  ghost predicate Continues(w: World, w': World) {
    Advances(w.db, w'.db) && w.entered <= w'.entered && w.reports <= w'.reports
    && forall id :: id in w.ended ==> id in w'.ended && w'.ended[id] == w.ended[id]
  }

  lemma RejectContinues(w: World, f: Frame, error: string, keep: int)
    requires Inv(w)
    ensures Continues(w, WithDb(w, f, RejectCommand(w.db, f, error, keep)))
  {
    if Durable(f) {
      RejectKeeps(w.db, f, error, keep);
    }
  }

  lemma EndContinues(w: World, key: Dispatch.Key, ending: Ending, keep: int)
    requires Inv(w) && key in w.phases && w.phases[key].InHandler?
    ensures Continues(w, AfterEnding(w, key, ending, keep))
  {
    hide HandleAfterHandler, JournalOk, ReportsAgree, ReportedWhenFinished, Honest, ReportsExactly, EndingsTold,
      EntriesJournalled;
    var f := w.phases[key].frame;
    if Durable(f) {
      assert InHand(w.phases, key, f.cmdId.name);
      EndKeeps(w.db, f, ending, keep);
      EndedHistory(w, key, ending, keep);
      hide PhasesOk, Agrees;
    } else {
      PlainKeepsJournal(w.db, f, "", 0, map[], ending, keep);
    }
  }

  lemma InterruptContinues(w: World, a: Action)
    requires Inv(w) && a.Interrupted? && Enabled(w, a)
    ensures Continues(w, Next(w, a))
  {
    var f := w.phases[a.key].frame;
    var w1 := AfterEnding(w, a.key, App.Interrupted, a.keep);
    EndedStep(w, a.key, App.Interrupted, a.keep);
    EndContinues(w, a.key, App.Interrupted, a.keep);
    RejectContinues(w1, f, INTERRUPTED, a.keep);
    ContinuesTransitive(w, w1, WithDb(w1, f, RejectCommand(w1.db, f, INTERRUPTED, a.keep)));
  }

  lemma ContinuesTransitive(a: World, b: World, c: World)
    requires Continues(a, b) && Continues(b, c)
    ensures Continues(a, c)
  {
    forall id | id in a.db.runs
      ensures id in c.db.runs && c.db.runs[id].frame == a.db.runs[id].frame
      ensures a.db.runs[id].status != Running ==> c.db.runs[id] == a.db.runs[id]
    {
      assert id in b.db.runs;
    }
  }

  lemma KeepsParts(a: Db, b: Db)
    requires Keeps(a, b)
    ensures JournalOk(b) && Advances(a, b) && |a.events| <= |b.events|
  {
  }

  lemma BeganContinues(w: World, a: Action)
    requires Inv(w) && a.Began? && Enabled(w, a)
    ensures Continues(w, Next(w, a))
  {
    hide Keeps, ReportsExactly, HandleUntilHandler, Enters, JournalOk, PhasesOk, EndingsTold, ReportsAgree,
      ReportedWhenFinished, EntriesJournalled;
    var f := w.dispatch.queues[a.key].frames[0].frame;
    if Durable(f) {
      HandleKeeps(w.db, f, a.now, a.workers, a.keep);
      KeepsParts(w.db, HandleUntilHandler(w.db, f, a.now, a.workers, a.keep));
    } else {
      PlainKeepsJournal(w.db, f, "", a.now, a.workers, App.Interrupted, a.keep);
    }
  }

  lemma StepContinues(w: World, a: Action)
    requires Inv(w) && Enabled(w, a)
    ensures Continues(w, Next(w, a))
  {
    hide Inv, Continues, AfterEnding, WithDb;
    match a
    case Received(f, keep) => RejectedContinues(w, a);
    case Began(_, _, _, _) => BeganContinues(w, a);
    case HandlerEnded(key, ending, keep) =>
      EndContinues(w, key, ending, keep);
      GoesOn(w, AfterEnding(w, key, ending, keep), Next(w, a));
    case WorkerEnded(_) => GoesOn(w, w, Next(w, a));
    case HandlerBroke(key, keep) => RejectedContinues(w, a);
    case WorkerLeft(_) => GoesOn(w, w, Next(w, a));
    case Interrupted(_, _) => InterruptContinues(w, a);
    case Dropped(_, _, _) => RejectedContinues(w, a);
    case StopBegan => GoesOn(w, w, Next(w, a));
    case StopEnded => GoesOn(w, w, Next(w, a));
    case OtherTraffic(_) => GoesOn(w, w, Next(w, a));
    case Crashed(_, _, _) => CrashedStep(w, a);
  }

  /** Queues and phases do not matter. */
  lemma GoesOn(w: World, mid: World, w': World)
    requires mid == w || Continues(w, mid)
    requires w'.db.runs == mid.db.runs && w'.entered == mid.entered && w'.ended == mid.ended
    requires w'.reports == mid.reports
    ensures Continues(w, w')
  {
  }

  lemma RejectedContinues(w: World, a: Action)
    requires Inv(w) && Enabled(w, a) && (a.Received? || a.HandlerBroke? || a.Dropped?)
    ensures Continues(w, Next(w, a))
  {
    hide Inv, Continues, RejectCommand;
    match a
    case Received(f, keep) =>
      RejectContinues(w, f, FULL, keep);
      GoesOn(w, if Dispatch.Refuses(w.dispatch, f) then WithDb(w, f, RejectCommand(w.db, f, FULL, keep)) else w,
             Next(w, a));
    case HandlerBroke(key, keep) =>
      var f := w.phases[key].frame;
      RejectContinues(w, f, BROKE, keep);
      GoesOn(w, WithDb(w, f, RejectCommand(w.db, f, BROKE, keep)), Next(w, a));
    case Dropped(key, reason, keep) =>
      var frames := w.dispatch.queues[key].frames;
      var f := frames[|frames| - 1].frame;
      RejectContinues(w, f, reason, keep);
      GoesOn(w, WithDb(w, f, RejectCommand(w.db, f, reason, keep)), Next(w, a));
  }

  lemma {:induction false} PathContinues(worlds: seq<World>, acts: seq<Action>, k: nat)
    requires Path(worlds, acts) && k <= |acts| && Inv(worlds[0])
    ensures Continues(worlds[0], worlds[k])
  {
    hide Next;
    if k > 0 {
      PathKeeps(worlds, acts, k - 1);
      PathContinues(worlds, acts, k - 1);
      hide Inv, Continues;
      assert Moves(worlds, acts, k - 1);
      StepContinues(worlds[k - 1], acts[k - 1]);
      ContinuesTransitive(worlds[0], worlds[k - 1], worlds[k]);
    }
  }

  lemma RunContinues(w: World, acts: seq<Action>, end: World)
    requires Inv(w) && Reaches(w, acts, end)
    ensures Continues(w, end)
  {
    hide Inv, Continues;
    var worlds :| Path(worlds, acts) && worlds[0] == w && worlds[|acts|] == end;
    PathContinues(worlds, acts, |acts|);
  }

  /** The handler of a journalled command is called at most once, and its success means it returned. */
  lemma AtMostOnce(w: World, acts: seq<Action>, end: World)
    requires Init(w) && Reaches(w, acts, end)
    ensures DistinctIds(end.entered)
    ensures forall id :: (id in end.db.runs && end.db.runs[id].status == Succeeded) <==>
      (id in end.ended && end.ended[id].Returned?)
    ensures forall id :: id in end.ended ==> id in end.entered
  {
    RunKeeps(w, acts, end);
    hide Reaches, PhasesOk, JournalOk, ReportsAgree, ReportedWhenFinished, Honest;
  }

  /** A report of a run says what its row says, and that something succeeded only when it did. */
  ghost predicate ToldBy(o: Outcome, run: Run, e: Ending) {
    && run.result == Some(o) && o.status == run.status && (o.ok <==> e.Returned?)
    && o.device == run.frame.device && o.resultToken == run.frame.resultToken && o.runId == run.frame.runId
    && o.imei == run.frame.imei && o.iccid == run.frame.iccid
  }

  /**
   However a handler of a journalled command ended, it is told so for the rest
   of the run: in the journal, and in every report of the command, of which
   there is one at least.
   */
  lemma OutcomeIsHonest(w: World, acts: seq<Action>, mid: World, more: seq<Action>, end: World, id: string)
    requires Init(w) && Reaches(w, acts, mid) && Reaches(mid, more, end) && id in mid.ended
    ensures id in end.db.runs && Honest(end.db.runs[id], mid.ended[id]) && Reported(end.reports, id)
    ensures forall e :: e in end.reports && e.payload.Journalled? && e.payload.outcome.cmdId == id ==>
      ToldBy(e.payload.outcome, end.db.runs[id], mid.ended[id])
  {
    RunKeeps(w, acts, mid);
    RunKeeps(mid, more, end);
    RunContinues(mid, more, end);
    hide Reaches, Inv, Honest, ToldBy;
    OutcomeNow(end, id);
  }

  lemma OutcomeNow(w: World, id: string)
    requires Inv(w) && id in w.ended
    ensures id in w.db.runs && Honest(w.db.runs[id], w.ended[id]) && Reported(w.reports, id)
    ensures forall e :: e in w.reports && e.payload.Journalled? && e.payload.outcome.cmdId == id ==>
      ToldBy(e.payload.outcome, w.db.runs[id], w.ended[id])
  {
    hide PhasesOk, EntriesJournalled, Honest;
    HonestStatus(w.db.runs[id], w.ended[id]);
    assert RunOk(id, w.db.runs[id]);
    hide JournalOk, EndingsTold;
    forall e | e in w.reports && e.payload.Journalled? && e.payload.outcome.cmdId == id
      ensures w.db.runs[id].result == Some(e.payload.outcome)
    {
      assert Agrees(w.db, e);
    }
  }

  /** A command once reported cancelled was not executed before, and is not afterwards. */
  lemma CancelledNeverRuns(w: World, acts: seq<Action>, mid: World, more: seq<Action>, end: World, id: string)
    requires Init(w) && Reaches(w, acts, mid) && Reaches(mid, more, end)
    requires id in mid.db.runs && mid.db.runs[id].status == Cancelled
    ensures id !in mid.entered && id !in end.entered
    ensures id in end.db.runs && end.db.runs[id].status == Cancelled
  {
    RunKeeps(w, acts, mid);
    RunKeeps(mid, more, end);
    RunContinues(mid, more, end);
  }

  /** A row changes status at most once and keeps its frame, whatever comes after. */
  lemma StatusIsFinal(w: World, acts: seq<Action>, mid: World, more: seq<Action>, end: World, id: string)
    requires Init(w) && Reaches(w, acts, mid) && Reaches(mid, more, end) && id in mid.db.runs
    ensures id in end.db.runs && end.db.runs[id].frame == mid.db.runs[id].frame
    ensures mid.db.runs[id].status != Running ==> end.db.runs[id] == mid.db.runs[id]
  {
    RunKeeps(w, acts, mid);
    RunContinues(mid, more, end);
  }

  /**
   All reports of one command ever queued carry the same payload, the one the
   journal holds, and a command has a report exactly when it is finished.
   */
  lemma ReplaysAgree(w: World, acts: seq<Action>, end: World, a: Event, b: Event)
    requires Init(w) && Reaches(w, acts, end) && a in end.reports && b in end.reports
    ensures a.payload.Journalled? && b.payload.Journalled?
    ensures a.payload.outcome.cmdId == b.payload.outcome.cmdId ==> a.payload == b.payload
    ensures forall id :: id in end.db.runs ==> (end.db.runs[id].status != Running <==> Reported(end.reports, id))
  {
    RunKeeps(w, acts, end);
    assert Agrees(end.db, a) && Agrees(end.db, b);
  }

  /** After a crash no command is left running, in whatever order the rows are recovered. */
  lemma CrashLeavesNothingRunning(w: World, acts: seq<Action>, mid: World, a: Action)
    requires Init(w) && Reaches(w, acts, mid) && a.Crashed? && Enabled(mid, a)
    ensures forall id :: id in Next(mid, a).db.runs ==> Next(mid, a).db.runs[id].status != Running
  {
    RunKeeps(w, acts, mid);
    CrashedStep(mid, a);
  }
}
