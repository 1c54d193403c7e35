# Verified model of the SMS gateway's protocols

The repository drives SMS modems with an agent that keeps a durable queue and
reports to a server over a link that may drop at any time. This project models
its step-by-step protocols and its fast forms in Dafny and proves what they are
for. `dafny verify dfyconfig.toml` checks everything.

Everything in the agent and in the alerter runs on one event loop, so a step of
a model is what runs between two awaits. A protocol is a value (`World`,
`State`), a predicate saying which steps are enabled, a function giving the next
value, and an invariant proved over runs of any length. A class that updates
fields in place stands beside it; each of its methods is proved to take the old
state to the value the function gives. Loops of the source are loops here.

What the modules are about:

- **Delivery** (`Database`, `Queue`, `Delivery`, `DeliverySession`,
  `DeliverySafety`, `DeliveryProgress`, `DeliveryResend`, `DeliveryLoss`,
  `LocalStore`, `ServerLink`, `AgentApp`): the event queue, the sender and the receiver, with crashes, lost
  connections, duplicate acks, rewinding resends, trims and rebuilt files. The
  peer applies the frames of a connection in order and those of a dead one at
  any later time, remembers label and number, and acknowledges after applying.
- **Commands** (`Journal`, `Dispatch`, `DispatchSafety`, `DispatchMeaning`,
  `CommandDispatcher`, `App`, `AppMeaning`, `Commands`, `CommandSafety`): the write-ahead journal, the bounded
  per-device queues, rejection, cancellation and crash recovery.
- **Tasks and schedules** (`TaskTable`, `Calendar`, `Cron`, `CronBound`, `Text`,
  `CronParse`, `CronPrint`, `Plans`, `Scheduler`, `SchedulerSafety`,
  `SchedulerReports`, `KeepAliveScheduler`): table replacement, cron text and arithmetic on the
  proleptic Gregorian calendar up to its end in year 9999, next runs with jitter
  and floor, ticks, retries and manual runs.
- **Recovery** (`Recovery`, `RecoverySafety`, `RecoveryStages`,
  `RecoveryMeaning`, `RecoveryWorker`): registration recovery, its rate limit
  across restarts, and exactly when it acts.
- **Alerts** (`Alerter`, `AlerterSafety`, `AlerterProgress`, `OfflineAlerter`):
  debounced pages, which come neither too early nor not at all.
- **Data** (`DataSwitch`, `DataLines`, `DataOverlap`, `DataPolicy`): the packet-data switch
  against a modem that answers anything, and the policy above it, both one call
  at a time and with any calls overlapping.
- **Fast forms** (`Samples`, `Intervals`, `Threads`, `Csv`, `OperatorList`,
  `WebSocketReader`, `WebSocketHead`): each against the simple form it replaces.

Clocks, random draws, the order a dictionary or a query lists things in, what a
modem answers, how bytes are cut into chunks, when a task is cancelled and what
a handler does are parameters or steps, so the theorems hold for all of them.

Things the code does that a reader may not expect, each with its exact condition:

- A resend request for a number whose predecessors were not sent on this
  connection can lose an event. `ResendLosesNothingIff` says exactly when some
  run after a request loses one; a peer that asks for a number at most one past
  one it was sent is always safe (`PeerAskIsSafe`).
- An interval such as `4000000`, `inf` or `nan` makes `next_run` raise something
  other than a `ScheduleError`, and so does a cron search or a jitter that meets
  the end of the calendar (`RaisesIff`). A tick then ends early, and the due
  tasks listed after that row are not started (`TickStartsAllDueIff`,
  `FarStarves`); a run whose rescheduling raises ends without update or receipt.
- A forced refresh can overlap a running recovery action; two reselections that
  run at once and fail are followed by a reset, with no radio cycle between
  (`SkippingRun`). `NoSkipIff` says which settings rule that out for actions of
  a given length.
- With a timestamp that does not parse the comparator of merged messages need
  not be an order; `TransitiveIff` says exactly when it is.
- Whether an upgrade response is refused as too large can depend on how it is
  cut into chunks; `PiecesMatter` says exactly when.
- Calls of the data policy overlap without a lock. Data can then be left shown
  as enabled though it is not allowed; `HonestIff` says exactly which overlaps
  do that.
- An empty part of a cron field, as in `1,,2`, stands for the whole range
  (`EmptyIsStar`, `EmptyPartFillsField`).
- The per-device limit is not applied to the first frame of a new queue; it
  holds in every run exactly under the settings of `PerDeviceIff`.

## Model

| member | source | states |
|---|---|---|
| DeliverySafety.NoLossExactlyOnce | agent/src/air780e_agent/link.py:120-237 | over every run, frames of dead connections applied late included, each event of the current file that is no status sample is still queued or was applied by the peer, none was applied twice, and no label and number name two events |
| DeliverySafety.BoundedInFlight | agent/src/air780e_agent/link.py:162-185 | in every session at most one batch of queued events lies at or below the sent marker, and all of those were sent in it |
| DeliverySafety.IdleOnlyWhenDoneOrFull | agent/src/air780e_agent/link.py:162-185 | the sender finds nothing to send only when all was sent or exactly a batch is in flight, and never waits with something to send and no wake pending |
| DeliveryProgress.CanAlwaysDrain | agent/src/air780e_agent/link.py:120-237 | from every reachable state some run without new events empties the queue; at its end everything that was queued, and every event of the file that is no status sample, has been applied |
| DeliveryLoss.ResendLosesNothingIff | agent/src/air780e_agent/link.py:162-237 | in every reachable state with a connection, all runs after a resend request for any number lose nothing if and only if not: the sender is between batches, and the new marker passes over an unapplied event, or will over the next one queued, while the oldest batch still reaches above it |
| DeliveryLoss.PeerAskIsSafe | agent/src/air780e_agent/link.py:230-237 | a request for a number at most one past one sent on this connection never loses anything |
| DeliveryLoss.SafeIsHarmless | agent/src/air780e_agent/link.py:230-237 | the guard under which runs take resend requests rules the losing condition out |
| DeliveryResend.HarmlessRunsLoseNothing | agent/src/air780e_agent/link.py:120-237 | the delivery theorem over every run in which no resend request meets the losing condition, whatever numbers are asked for |
| DeliveryResend.SoundStep | agent/src/air780e_agent/link.py:120-237 | every step after a harmless request keeps the weaker account under which no ack can pass over an unapplied event |
| DeliveryLoss.DoomedIsLost | agent/src/air780e_agent/link.py:162-237 | an event the marker passes over is lost in some run under the file's one cap: status samples fill the queue and are trimmed until a later event goes out, and its ack drops the earlier one |
| DeliveryLoss.ResendBeyondSentLoses | agent/src/air780e_agent/link.py:230-237 | a run from a new file to a state where asking for number 2 loses the only message |
| DeliverySafety.StepKeeps | agent/src/air780e_agent/link.py:120-237 | every step of queue, link and peer keeps the invariant |
| DeliverySafety.CrashedInAckKeeps | agent/src/air780e_agent/store.py:236-242 | a crash between the two statements of a cumulative ack keeps the invariant |
| DeliverySession.LookKeeps | agent/src/air780e_agent/link.py:163-181 | reading the next batch keeps the account of what was sent on this connection |
| DeliverySession.FreshMarkerReplaysAll | agent/src/air780e_agent/link.py:130-132 | a new connection replays the whole oldest batch |
| DeliverySession.SendReturnKeeps | agent/src/air780e_agent/link.py:183-185 | once a send returned, everything queued up to the new marker was sent on this connection |
| DeliverySession.ResendKeeps | agent/src/air780e_agent/link.py:230-237 | rewinding is safe when everything queued below was sent on this connection |
| Queue.BatchIsLowest | agent/src/air780e_agent/store.py:215-224 | a batch holds the lowest unacked numbers: none outside it lies below one inside |
| Queue.AckRemovesPrefix | agent/src/air780e_agent/store.py:236-242 | a cumulative ack removes exactly the rows at or below it and changes no other |
| Queue.MarkedRows | agent/src/air780e_agent/store.py:236-242 | between its two statements an ack has only set flags at or below it |
| Queue.TrimLosesOnlyStatus | agent/src/air780e_agent/store.py:286-305 | trimming loses only status samples, oldest first, no more than the excess |
| Queue.DropsOldestFirst | agent/src/air780e_agent/store.py:286-305 | every status sample dropped is older than every one kept |
| Queue.EmitRespectsCap | agent/src/air780e_agent/app.py:97-101 | after an emit the queue is within its cap or holds no status sample |
| Queue.LastSeqZeroIffFresh | agent/src/air780e_agent/store.py:250-259 | last_seq is zero exactly for a file that never issued a number |
| LocalStore.Store.constructor | agent/src/air780e_agent/store.py:128-137 | opening a file settles running commands and gives it a stream label |
| LocalStore.Store.OpenStreamId | agent/src/air780e_agent/store.py:273-284 | a file keeps its label; a new one gets the fresh token, a legacy one the empty label |
| LocalStore.Store.Begin | agent/src/air780e_agent/store.py:154-169 | the claim and the new state are those of the journal transaction |
| LocalStore.Store.Finish | agent/src/air780e_agent/store.py:171-193 | the new state is that of the finishing transaction |
| LocalStore.Store.Recover | agent/src/air780e_agent/store.py:195-203 | the loop over running rows is recovery in the order they come back |
| LocalStore.Store.Append | agent/src/air780e_agent/store.py:207-213 | the event gets the next number, above every number in the file, and is the last one the file shows |
| LocalStore.Store.ReadUnacked | agent/src/air780e_agent/store.py:215-224 | the oldest unacked events, at most the limit |
| LocalStore.Store.AckUpTo | agent/src/air780e_agent/store.py:236-242 | both statements of an ack and the number of rows it newly covers |
| LocalStore.Store.ReadLastSeq | agent/src/air780e_agent/store.py:250-259 | the highest number the file still shows |
| LocalStore.Store.Trim | agent/src/air780e_agent/store.py:286-305 | the queue after trimming and how many rows went |
| LocalStore.Store.Replace | agent/src/air780e_agent/store.py:340-399 | the transaction with its commit or rollback gives the atomic replacement, a number too wide for SQLite included |
| TaskTable.RunSurvivesSync | agent/src/air780e_agent/store.py:340-427 | a recorded run survives a later sync: the last run stays, the plan stays unless the schedule changed, and nothing else depends on the mark |
| TaskTable.PlanSurvivesSync | agent/src/air780e_agent/store.py:340-432 | a plan survives a later sync unless the schedule changed, and the last run stays |
| ServerLink.Sender.Look | agent/src/air780e_agent/link.py:163-181 | the flag is cleared before the query, and the batch is what lies above the marker |
| ServerLink.Sender.HandleAck | agent/src/air780e_agent/link.py:218-228 | what is no integer is ignored, booleans counting as 0 and 1; an integer SQLite can bind removes exactly the rows at or below it and wakes the sender if any was new; a wider one raises before anything changes |
| ServerLink.Sender.HandleResend | agent/src/air780e_agent/link.py:230-237 | the marker goes to just below the number asked for, booleans counting as 0 and 1, and the sender is woken |
| AgentApp.Agent.EmitEvent | agent/src/air780e_agent/app.py:97-101 | append, trim and wake; afterwards the queue is within its cap or free of status samples |
| AgentApp.Agent.Reject | agent/src/air780e_agent/app.py:278-285 | rejection as the journal sees it |
| AgentApp.Agent.Handle | agent/src/air780e_agent/app.py:287-342 | handling up to the handler, which is called only for a newly claimed or unjournalled frame |
| AgentApp.Agent.Complete | agent/src/air780e_agent/app.py:342-372 | the state after a handler returned, raised or was interrupted, which OutcomeIsHonest and PlainMeaning read |
| CommandSafety.AtMostOnce | agent/src/air780e_agent/app.py:287-372 | over every run with duplicate frames and crashes, also between a claim and what follows it, a journalled handler is called at most once, and a command is "succeeded" if and only if its handler returned |
| CommandSafety.OutcomeIsHonest | agent/src/air780e_agent/app.py:342-372 | however a journalled handler ended, the journal and every report of the command say so for the rest of the run: succeeded with the data, failed or unknown with the error, "ok" for a return only |
| AppMeaning.EntersIff | agent/src/air780e_agent/app.py:287-342 | a journalled command enters its handler if and only if its id is new, its kind is known, its deadline lies ahead and the device with the expected identity is there |
| AppMeaning.ScreenedMeaning | agent/src/air780e_agent/app.py:310-342 | a new command that does not enter is finished at once: cancelled when expired, unknown when its deadline cannot be compared, failed otherwise |
| AppMeaning.ClaimMeaning | agent/src/air780e_agent/store.py:154-169 | a new id becomes a running row; a used one changes no row, and the stored result is queued again if and only if the frame is the same and finished |
| AppMeaning.PlainMeaning | agent/src/air780e_agent/app.py:278-372 | a command without journal that carries an id is answered by how it ended, and no trim takes the answer |
| CommandSafety.CancelledNeverRuns | agent/src/air780e_agent/app.py:278-285 | a command once cancelled was not executed before and is not afterwards |
| CommandSafety.StatusIsFinal | agent/src/air780e_agent/store.py:171-193 | a row changes status at most once and keeps its frame |
| CommandSafety.ReplaysAgree | agent/src/air780e_agent/store.py:154-193 | all reports of one command ever queued carry the payload the journal holds, and there is one exactly when it is finished |
| CommandSafety.CrashLeavesNothingRunning | agent/src/air780e_agent/store.py:195-203 | after a crash, wherever it cut the step, no command is left running, in whatever order the rows come |
| CommandSafety.ClaimStep | agent/src/air780e_agent/app.py:280-295 | a claim that nothing followed is sound: its row runs and no handler was entered |
| CommandSafety.RejectKeeps | agent/src/air780e_agent/app.py:278-285 | rejecting cancels a command never seen, with the reason, and leaves a known one alone |
| CommandSafety.HandleKeeps | agent/src/air780e_agent/app.py:287-342 | a handler is entered only when its id was new, and its row is then running |
| CommandSafety.EndKeeps | agent/src/air780e_agent/app.py:342-372 | ending changes its own row only, and if that was running it then tells the ending: succeeded, failed or unknown with its data or error |
| Journal.BeginKeeps | agent/src/air780e_agent/store.py:154-169 | claiming keeps the journal sound and changes no finished row |
| Journal.FinishIsAtomic | agent/src/air780e_agent/store.py:171-193 | a status change and its one report, with the data and error given, are the same transaction, or nothing changes |
| Journal.RecoverKeeps | agent/src/air780e_agent/store.py:195-203 | recovery queues one agreeing report per running row |
| Journal.NothingRunningAfterReopen | agent/src/air780e_agent/store.py:195-203 | no row is running once the store is open |
| Journal.ReplayRepeatsTheResult | agent/src/air780e_agent/store.py:154-169 | a repeated command queues the stored result unchanged and touches no row |
| DispatchSafety.ConservedWithinLimits | agent/src/air780e_agent/commands.py:49-109 | over every run the limits are the configured ones to the end and hold, the pending count is the sum of queue lengths, and one command runs per key |
| DispatchSafety.PerDeviceIff | agent/src/air780e_agent/commands.py:49-77 | every run keeps every queue within the per-device limit if and only if that limit is at least one or nothing is accepted at all; otherwise a single frame passes it |
| DispatchSafety.ExactlyOneFate | agent/src/air780e_agent/commands.py:49-109 | no submission gets two fates, and "not started" is the truth |
| DispatchSafety.StopResolvesAll | agent/src/air780e_agent/commands.py:111-121 | after stop every submission has its fate and nothing is pending, workers cancelled before their first turn included |
| DispatchSafety.NoOvertaking | agent/src/air780e_agent/commands.py:79-100 | starts under one key follow submission order, after every earlier submission is resolved |
| DispatchSafety.ConfigurationBeforeRun | agent/src/air780e_agent/commands.py:54-60 | a manual run starts only once every task configuration submitted before it is resolved |
| DispatchMeaning.OneQueueEach | agent/src/air780e_agent/commands.py:54-60 | two commands wait for one another if and only if both are for the agent as a whole or both for one device |
| DispatchMeaning.AcceptedIff | agent/src/air780e_agent/commands.py:49-77 | in every run a submission is accepted, last in its queue, if and only if the dispatcher is not stopped and there is room; else it is rejected as not started, and no queue changes |
| DispatchMeaning.NobodyWaitsForever | agent/src/air780e_agent/commands.py:79-100 | until a stop every queue can go on: its worker runs a command, can take the next, or can leave |
| DispatchMeaning.IdleDeviceStarts | agent/src/air780e_agent/commands.py:49-85 | an accepted command of an idle device can start at once, whatever the others do |
| DispatchMeaning.FateTells | agent/src/air780e_agent/commands.py:79-121 | over every run a submission is completed if and only if its handling returned, and unknown if and only if it raised or was cancelled |
| CommandDispatcher.Dispatcher.Submit | agent/src/air780e_agent/commands.py:49-77 | acceptance or refusal, and the queues after it |
| CommandDispatcher.Dispatcher.BeginHead | agent/src/air780e_agent/commands.py:79-85 | the worker takes the head of its queue |
| CommandDispatcher.Dispatcher.EndHead | agent/src/air780e_agent/commands.py:85-98 | the head is popped and resolved, as unknown when execute raised |
| CommandDispatcher.Dispatcher.CancelHead | agent/src/air780e_agent/commands.py:79-100 | a cancelled worker resolves its command as unknown and leaves |
| CommandDispatcher.Dispatcher.DiscardQueued | agent/src/air780e_agent/commands.py:102-109 | everything not started is rejected, back to front, in any order of queues |
| CommandDispatcher.Dispatcher.BeginStop | agent/src/air780e_agent/commands.py:111-114 | stop refuses from then on and discards everything not started |
| CommandDispatcher.Dispatcher.EndStop | agent/src/air780e_agent/commands.py:117-121 | what stop leaves when its tasks are done |
| TaskTable.ReplaceRefinesMap | agent/src/air780e_agent/store.py:340-413 | replacement succeeds exactly for usable payloads, whose numbers SQLite can bind, with distinct positive ids; then ids, rows field by field, run times, revision and receipt are as promised, otherwise nothing changes |
| TaskTable.ValidationExact | agent/src/air780e_agent/store.py:340-365 | the validation loop accepts exactly distinct positive ids |
| TaskTable.ReplaceExtends | agent/src/air780e_agent/store.py:340-399 | to the queue a replacement only adds its receipt |
| TaskTable.OwnTableStays | agent/src/air780e_agent/store.py:340-399 | a payload that describes the table as it is changes no row, run times and plans included |
| Calendar.NextDayOrdinal | agent/src/air780e_agent/schedule.py:141-153 | stepping a day on adds one to the ordinal, over month and year ends |
| Calendar.AddDaysReaches | agent/src/air780e_agent/schedule.py:141-153 | counting days from a date reaches every later date |
| Calendar.WeekdayByDistance | agent/src/air780e_agent/schedule.py:46-60 | the weekday of a date is its distance in days from a known Sunday, modulo seven |
| Cron.NextCron | agent/src/air780e_agent/schedule.py:134-156 | the least firing minute strictly after the instant if one lies in the calendar within 400 days; otherwise the overflow exactly when those days run past the last one of the calendar |
| Cron.DayRule | agent/src/air780e_agent/schedule.py:46-60 | a date matches if and only if its month is allowed and, with the week counted from a known Sunday, a free field is no restriction, one restricted field decides, and of two either is enough |
| Cron.FiresMeaning | agent/src/air780e_agent/schedule.py:46-60 | a minute fires exactly when its hour, minute, month and day are allowed |
| Cron.ChosenUnique | agent/src/air780e_agent/schedule.py:134-156 | the minute the search gives is the only one with that property |
| Cron.FirstMinuteIsLeast | agent/src/air780e_agent/schedule.py:137 | the start of the search is the least whole minute strictly after the instant |
| CronBound.BoundExact | agent/src/air780e_agent/schedule.py:27-60 | some firing lies within the search from every start if and only if the day of month is free, the weekday is restricted, or some allowed date exists in a common year |
| CronBound.SearchAlwaysSucceeds | agent/src/air780e_agent/schedule.py:134-156 | under that condition and only then the search finds the earliest firing from every start that has 400 days left in the calendar |
| CronBound.BoundSuffices | agent/src/air780e_agent/schedule.py:141-156 | a firing within the search from any start, under that condition |
| CronBound.BoundFails | agent/src/air780e_agent/schedule.py:141-156 | from March 2021 no firing lies within the search when only the 29th of February is left |
| CronParse.ParseField | agent/src/air780e_agent/schedule.py:63-102 | the loop reads the union of the parts, or the first part's error |
| CronParse.ReadPartsMembers | agent/src/air780e_agent/schedule.py:71-102 | a value is in an accepted field exactly when some part covers it, and is in range |
| CronParse.EmptyIsStar | agent/src/air780e_agent/schedule.py:71-84 | a part that is empty, or has nothing before its step, reads as one with a star there, in every range |
| CronParse.EmptyPartFillsField | agent/src/air780e_agent/schedule.py:71-102 | an accepted list with an empty part holds every value of its field, and is not flagged as the star |
| CronParse.AcceptedIsWellFormed | agent/src/air780e_agent/schedule.py:112-131 | every accepted expression has five non-empty fields in range |
| CronParse.ParseCron | agent/src/air780e_agent/schedule.py:112-131 | five fields in order, the first error decides |
| CronParse.NextFiring | agent/src/air780e_agent/schedule.py:134-156 | from text to the earliest firing, the no-run error, or the overflow past the calendar |
| CronPrint.PartReadsBack | agent/src/air780e_agent/schedule.py:72-99 | a printed part is accepted exactly when it is legal, with its meaning |
| CronPrint.FieldReadsBack | agent/src/air780e_agent/schedule.py:63-102 | lists of stars, numbers, ranges and steps read back as the union of their meanings, only the bare star flagged |
| CronPrint.CronReadsBack | agent/src/air780e_agent/schedule.py:112-131 | a printed expression reads back as the meaning of its five fields, 7 as Sunday |
| CronPrint.PrintedFires | agent/src/air780e_agent/schedule.py:46-131 | from text to firing: a printed expression fires at an hour and minute of a date exactly when its fields say so, stars, numbers, ranges and steps in plain words, days of the week counted from a known Sunday, Sunday as 0 or 7 |
| Plans.ComputeNextRun | agent/src/air780e_agent/schedule.py:172-203 | kind dispatch, jitter and floor give the specified plan |
| Plans.ComputeCron | agent/src/air780e_agent/schedule.py:134-156 | the search gives the unique earliest firing as a moment, the unusable plan, or the overflow |
| Plans.PlanMeaning | agent/src/air780e_agent/schedule.py:159-203 | the own moment of a plan is the earliest firing strictly after the anchor, or the anchor plus the days given, 25 by default, to the nearest microsecond; a plan is never before the floor |
| Plans.FloorDecides | agent/src/air780e_agent/schedule.py:196-203 | the own moment moved by the draw is kept when it lies at or after the floor, and replaced by the floor when before; outside the calendar it raises |
| Plans.BlankInterval | agent/src/air780e_agent/schedule.py:159-203 | a task without kind and expression runs 25 days after its anchor, or at the floor |
| Plans.RaisesIff | agent/src/air780e_agent/schedule.py:159-199 | what raises, read off the expression, the anchor and the draw: a number of days that is no number or leaves the calendar, or a cron search or jitter that does |
| Plans.RaisesForSomeDraw | agent/src/air780e_agent/schedule.py:196-199 | some draw raises exactly when the schedule's own moment does or the jitter reaches past the calendar |
| Plans.RoomIsEnough | agent/src/air780e_agent/schedule.py:159-199 | with the anchor, the interval or 401 days, and the jitter inside the calendar, no draw raises |
| SchedulerSafety.OneExecution | agent/src/air780e_agent/scheduler.py:110-180 | over every run a task never has two live executions |
| SchedulerSafety.AttemptsBounded | agent/src/air780e_agent/scheduler.py:206-243 | an execution makes at most retry_max + 1 attempts and none after its first success or skip |
| SchedulerSafety.OneUpdateOneReceipt | agent/src/air780e_agent/scheduler.py:206-265 | an ended timer execution has one schedule update and one receipt if and only if it was not cancelled and its rescheduling did not raise, and otherwise neither |
| SchedulerSafety.ManualAdvancesFirst | agent/src/air780e_agent/scheduler.py:125-151 | a manual run advances the schedule before its hardware call and then reports once however it ends, unless the rescheduling raises: then there is no call, no update and no receipt |
| SchedulerSafety.NextRunNotBefore | agent/src/air780e_agent/scheduler.py:245-265 | a stored next run is the second of the schedule's own moment counted from the completion and moved by the draw, or of the completion when that lies behind; nothing is stored exactly when there is no such moment |
| SchedulerReports.ReceiptsAreTrue | agent/src/air780e_agent/scheduler.py:125-243 | in every run a receipt says how the last attempt went and how many there were; failure is reported once no attempt is left; a manual run that failed or was cancelled is unknown |
| SchedulerReports.UpdatesAreTrue | agent/src/air780e_agent/scheduler.py:239-265 | in every run an update records the end of the last attempt as the last run, unless it was skipped |
| SchedulerReports.RetriesAreDelayed | agent/src/air780e_agent/scheduler.py:213-236 | a retry may begin exactly the delay, times the attempts so far, after the last of them |
| SchedulerReports.StopEndsAttempts | agent/src/air780e_agent/scheduler.py:100-104 | after a stop in any run, no execution that was going on makes another attempt |
| SchedulerReports.TickPlans | agent/src/air780e_agent/scheduler.py:155-204 | a tick gives an unplanned row it comes to the own moment of its schedule, counted from the last run for an interval and from now otherwise, or now when that lies behind |
| SchedulerSafety.TickStartsDue | agent/src/air780e_agent/scheduler.py:155-204 | a tick starts exactly the enabled, idle, due tasks that no row with a raising plan precedes |
| SchedulerSafety.TickStartsAllDueIff | agent/src/air780e_agent/scheduler.py:155-204 | a tick starts every due task if and only if none comes after an unplanned row whose expression and anchor leave the calendar |
| SchedulerSafety.TickRaisesIff | agent/src/air780e_agent/scheduler.py:155-204 | a tick ends in an exception exactly when planning one of its rows leaves the calendar |
| SchedulerSafety.FarStarves | agent/src/air780e_agent/scheduler.py:155-204 | an unplanned row of 4000000 days before a due task: every tick raises and starts nothing |
| SchedulerSafety.TickStartsFromRows | agent/src/air780e_agent/scheduler.py:155-180 | every execution a tick starts is of a due task, from the row it read |
| SchedulerSafety.CancelKeeps | agent/src/air780e_agent/scheduler.py:125-151 | cancelling one manual run, as stopping its command does, keeps the invariant |
| KeepAliveScheduler.KeepAliveScheduler.TickOnce | agent/src/air780e_agent/scheduler.py:155-180 | the loop over the rows gives the tick's state, the number started, and whether it was cut short |
| KeepAliveScheduler.KeepAliveScheduler.RunTaskNow | agent/src/air780e_agent/scheduler.py:110-123 | refused for a missing or running task, started otherwise |
| KeepAliveScheduler.KeepAliveScheduler.BeginManual | agent/src/air780e_agent/scheduler.py:125-139 | the schedule is advanced before the hardware call, which is not made when that raises |
| KeepAliveScheduler.KeepAliveScheduler.AttemptReturned | agent/src/air780e_agent/scheduler.py:213-243 | retry with a growing delay, or update and report, or neither when the rescheduling raises |
| KeepAliveScheduler.KeepAliveScheduler.ManualReturned | agent/src/air780e_agent/scheduler.py:138-151 | one receipt, and the task may run again |
| RecoverySafety.RateLimited | agent/src/air780e_agent/worker.py:509-607 | over every run, restarts and overlapping samples included, any 24 hours hold at most the allowed number of actions |
| RecoverySafety.CooledDown | agent/src/air780e_agent/worker.py:535-540 | consecutive actions are at least the cooldown apart, up to a day |
| RecoverySafety.StoredWhileRecent | agent/src/air780e_agent/worker.py:237-288 | an action of the last day is in the stored row |
| RecoverySafety.StoredBeforeCommand | agent/src/air780e_agent/worker.py:541-547 | the action and its attempt are stored when its command goes out |
| RecoverySafety.AttemptsDistinct | agent/src/air780e_agent/worker.py:590-607 | no two recoveries announce the same attempt number, across restarts |
| RecoverySafety.LoadTail | agent/src/air780e_agent/worker.py:245-252 | what a restart loads is the recent part of what was issued |
| RecoverySafety.PrunedTail | agent/src/air780e_agent/worker.py:699-706 | pruning the front leaves exactly the recent attempts |
| RecoveryMeaning.ActsIff | agent/src/air780e_agent/worker.py:509-547 | in every reachable state a sample sends the action of its stage if and only if the radio is on, the operator chosen automatically, the module unregistered for the delay, fewer actions than the limit sent in 24 hours, and none within the cooldown |
| RecoveryMeaning.WaitsQuietly | agent/src/air780e_agent/worker.py:523-540 | a lost module without an action is announced only once, when the limit of the day is reached; the clock starts at the first such sample |
| RecoveryMeaning.SampleEndsIt | agent/src/air780e_agent/worker.py:509-522 | a sample that shows nothing to recover puts recovery at rest and announces an open issue once, as a success only for a registered module |
| RecoveryMeaning.ReturnAnnounces | agent/src/air780e_agent/worker.py:549-588 | what an action's return announces, and the next stage |
| RecoveryMeaning.ReopenSettles | agent/src/air780e_agent/worker.py:631-659 | what was in flight is announced first once the port is open, by what the module says |
| RecoveryMeaning.CalmStartsOver | agent/src/air780e_agent/worker.py:509-588 | in every run recovery once calmed stays at its first stage until an action fails, across restarts |
| RecoveryStages.NoStageSkipped | agent/src/air780e_agent/worker.py:541-587 | when no action is sent while another is running, no escalation stage is skipped |
| RecoveryStages.NoSkipIff | agent/src/air780e_agent/worker.py:531-587 | under fixed settings and for actions of at most a given length, no run skips a stage if and only if recovery is off or the actions are shorter than the gap: the cooldown up to a day, or a day when one action a day is allowed |
| RecoveryStages.OverlapTakesAGap | agent/src/air780e_agent/worker.py:531-547 | an action sent while another runs comes a whole gap after it |
| RecoveryStages.SkippingRun | agent/src/air780e_agent/worker.py:1275-1277 | from a fresh start, an action as long as the gap leads to two overlapping reselections and then a reset, with no radio cycle between |
| RecoveryWorker.DeviceWorker.constructor | agent/src/air780e_agent/worker.py:237-268 | a new process holds what the stored row says, filtered and sorted |
| RecoveryWorker.DeviceWorker.StartRecovery | agent/src/air780e_agent/worker.py:590-607 | numbered, marked in flight, stored and announced |
| RecoveryWorker.DeviceWorker.FinishRecovery | agent/src/air780e_agent/worker.py:609-629 | announced, cleared and stored |
| RecoveryWorker.DeviceWorker.CloseRecovery | agent/src/air780e_agent/worker.py:661-697 | restored or called off |
| RecoveryWorker.DeviceWorker.PruneAttempts | agent/src/air780e_agent/worker.py:699-714 | old attempts popped, a reported limit lifted, stored when anything changed |
| RecoveryWorker.DeviceWorker.ReportRecoveryLimit | agent/src/air780e_agent/worker.py:716-735 | the limit is reported once |
| RecoveryWorker.DeviceWorker.MaybeRecover | agent/src/air780e_agent/worker.py:509-547 | one sample up to its command |
| RecoveryWorker.DeviceWorker.ActionReturned | agent/src/air780e_agent/worker.py:567-588 | recovered, or one stage further |
| RecoveryWorker.DeviceWorker.SettleAfterConnect | agent/src/air780e_agent/worker.py:631-659 | what was in flight is settled after a reconnect |
| AlerterSafety.PagesApart | server/src/hub_server/alerts.py:85-125 | over every run, between two pages of a module its recovery is announced |
| AlerterSafety.AnnouncementFollowsPage | server/src/hub_server/alerts.py:92-109 | a recovery is announced only for a page, once a page |
| AlerterSafety.PageAfterGrace | server/src/hub_server/alerts.py:111-125 | a page comes a full grace period after arming with no online note between |
| AlerterSafety.NeverBoth | server/src/hub_server/alerts.py:85-125 | a module is never both pending and paged, and is paged exactly while a page is open |
| AlerterSafety.SuccessorSafe | server/src/hub_server/alerts.py:111-125 | a turn leaves the entry of any other timer, and a cancelled timer pages nobody |
| AlerterSafety.NoteTakesEffect | server/src/hub_server/alerts.py:71-98 | after an offline note the module is pending or paged, after an online note neither |
| AlerterProgress.PagesInTime | server/src/hub_server/alerts.py:111-125 | from every reachable state in which a timer counts, whatever else happens: with no note of the module and every question answered yes, the fourth turn of the timer pages it, once, and no other turn does |
| AlerterProgress.CanGoOn | server/src/hub_server/alerts.py:111-125 | nothing holds a timer up for longer than the grace period |
| AlerterProgress.PagedAfterGrace | server/src/hub_server/alerts.py:111-125 | the run: resume, yes, the grace period, resume, yes, ends with the page |
| AlerterProgress.NoEndsQuietly | server/src/hub_server/alerts.py:111-125 | a no at either question ends the countdown without page or entry, and the next offline note starts a new one |
| AlerterProgress.RecoveryIsAnnounced | server/src/hub_server/alerts.py:92-109 | an online note announces the recovery of a module whose page is open, and of no other |
| AlerterProgress.CloseSilences | server/src/hub_server/alerts.py:204-207 | once closed nobody is paged, unless a module is noted offline anew |
| OfflineAlerter.OfflineAlerter.Note | server/src/hub_server/alerts.py:71-98 | the set, the map and the tasks after a note |
| OfflineAlerter.OfflineAlerter.FireAfterGrace | server/src/hub_server/alerts.py:111-125 | one turn of the timer task |
| OfflineAlerter.OfflineAlerter.Close | server/src/hub_server/alerts.py:204-207 | every task is cancelled |
| DataSwitch.Air780E.SetDataEnabled | agent/src/air780e_agent/modem.py:794-860 | against any answers nothing harmful is sent; disabling is a round of closing, an attach unless the module is attached, a second round if that was accepted, and a last read, and returns exactly when that shows only the IMS context active |
| DataSwitch.Air780E.Quench | agent/src/air780e_agent/modem.py:813-824 | after a read exactly the known user contexts are asked to close |
| DataSwitch.Air780E.DeactivateContexts | agent/src/air780e_agent/modem.py:862-877 | one attempt per context, whatever is answered |
| DataSwitch.Air780E.ReadDataStatus | agent/src/air780e_agent/modem.py:777-792 | inactive is reported exactly when every active context is the IMS one |
| DataSwitch.EmptyMeansOnlyIms | agent/src/air780e_agent/modem.py:749-760 | no user context exactly when all active contexts are known and IMS |
| DataLines.ImsByCharacters | agent/src/air780e_agent/modem.py:147-150 | the IMS context is the one whose APN is the letters i, m, s in either case between white space |
| DataLines.SnapshotReadsBack | agent/src/air780e_agent/modem.py:700-748 | printed definitions and activations read back as the contexts in order, each active or not, under its APN |
| DataLines.ClosesUsers | agent/src/air780e_agent/modem.py:749-824 | after printed lines nothing is closed while an active context has no definition, and else exactly the active ones under an APN that is not ims |
| DataLines.InactiveMeans | agent/src/air780e_agent/modem.py:777-792 | data is inactive exactly when every active context is defined under an ims APN |
| DataLines.AttachedReadsBack | agent/src/air780e_agent/modem.py:762-775 | the module is attached when the number after any white space is one |
| DataOverlap.HonestIff | agent/src/air780e_agent/worker.py:1148-1229 | with any samples, commands and reconnects overlapping, once no call is left data shown as enabled is asked for and allowed, in every run, if and only if no call ends before it decides, nothing forbids data while an attach is awaited, and the permission to roam is not withdrawn during a read |
| DataOverlap.HarmfulRun | agent/src/air780e_agent/worker.py:1151-1196 | each of those by itself has a run after which no call is left and forbidden data is shown as enabled |
| DataOverlap.StepKeeps | agent/src/air780e_agent/worker.py:745-1229 | without them every step keeps the invariant: an awaited attach is permitted, a read decides on a permission still given, and unless a call is still to decide what is shown is allowed |
| DataPolicy.DeviceWorker.DecidePolicy | agent/src/air780e_agent/worker.py:1155-1184 | what is shown after a read, and whether the switch is asked to attach, to disable or not at all |
| DataPolicy.DeviceWorker.EnforceDataPolicy | agent/src/air780e_agent/worker.py:1148-1199 | with no other call between its awaits: data is shown as enabled exactly when it is asked for and at home or allowed abroad; it is then attached if the registered module was not, and nothing else is sent; forbidden data is never left active, and exactly inactive when forced |
| DataPolicy.DeviceWorker.SetDataEnabled | agent/src/air780e_agent/worker.py:1201-1214 | turning data off returns only with the context confirmed inactive |
| DataPolicy.DeviceWorker.SetRoamingDataAllowed | agent/src/air780e_agent/worker.py:1216-1229 | withdrawing the permission away from home returns only with the context confirmed inactive |
| Intervals.BuildIntervals | frontend/src/signalHistory.ts:41-86 | the intervals tile the range, neighbours differ, and the state at every instant is that of the last sample at or before it |
| Intervals.StateMeaning | frontend/src/signalHistory.ts:31-58 | the lookup is unknown without a report at or before the time, and else offline, registered or unregistered by the last one |
| Intervals.IntervalsDetermined | frontend/src/signalHistory.ts:41-86 | those three properties leave one list only |
| Intervals.Summarize | frontend/src/signalHistory.ts:89-113 | counts and durations per state |
| Intervals.TimeIsInstants | frontend/src/signalHistory.ts:89-113 | the time summed for a state is the number of instants at which the lookup gives it |
| Intervals.TimesAddUp | frontend/src/signalHistory.ts:89-113 | the four states account for the whole range |
| Samples.SampleAt | frontend/src/components/SignalChart.tsx:149-163 | the binary search finds the latest sample at or before the time |
| Samples.BuildSamples | frontend/src/components/SignalChart.tsx:104-123 | the sorted entries of the map, the current sample last |
| Samples.Lookup | frontend/src/components/SignalChart.tsx:104-163 | build and search together are the reference lookup on the raw samples |
| Samples.MapFindsLast | frontend/src/signalHistory.ts:50-58 | the map finds what the reference finds at every time of the range |
| Threads.MergeThreadPages | frontend/src/messages.ts:54-67 | every id once, in its first copy, and strictly in order of time and id if and only if the comparator is an order on them |
| Threads.UnionOfIds | frontend/src/messages.ts:54-67 | the ids are the union of the pages' ids |
| Threads.FirstCopyIsFirst | frontend/src/messages.ts:57-62 | the copy kept is the first of the pages |
| Threads.TransitiveIff | frontend/src/messages.ts:63-66 | on messages with distinct ids the comparator is transitive if and only if no unparseable timestamp has an id between two parseable ones whose times run against their ids |
| Threads.OrderedMeansSortable | frontend/src/messages.ts:63-66 | only then can any arrangement be in order |
| Threads.ComparatorCircle | frontend/src/messages.ts:63-66 | three messages of which no arrangement is in order |
| Threads.BoundariesDoNotMatter | frontend/src/messages.ts:54-67 | the order does not depend on boundaries or overlap |
| OperatorList.OperatorGroups | agent/src/air780e_agent/modem.py:340-368 | the pass with indices finds the groups the character automaton finds |
| OperatorList.ParseOperatorScan | agent/src/air780e_agent/modem.py:371-402 | the first operator of each numeric, in order |
| OperatorList.EachNumericOnce | agent/src/air780e_agent/modem.py:374-391 | no numeric is listed twice, whatever was answered |
| OperatorList.ScanReadsBack | agent/src/air780e_agent/mock.py:374-379 | parsing a printed list of distinct numerics and trimmed names gives the list back in order |
| WebSocketReader.ReadExact | deploy/self_check.py:299-307 | the first bytes of buffer and stream together, the rest kept, however chunked |
| WebSocketReader.ReadFrame | deploy/self_check.py:278-296 | the frame the whole-stream parser finds, or its error, the rest kept |
| WebSocketReader.FrameReadsBack | deploy/self_check.py:278-296 | every frame a server writes (section 5.2 of RFC 6455) is read back |
| WebSocketHead.FrameIff | deploy/self_check.py:278-296 | exactly a final, unmasked frame without reserved bits, in any of the three length forms, is read as that frame |
| WebSocketHead.FrameRefused | deploy/self_check.py:278-287 | a reserved bit, a missing final bit and the mask bit are refused, in this order |
| WebSocketReader.ReadUpgradeResponse | deploy/self_check.py:250-275 | the upgrade the whole-stream parser finds, or the size error where the header or the chunk passes the cap |
| WebSocketReader.ReadReply | deploy/self_check.py:210-234 | upgrade, its checks and one frame together: the payload of the first message the whole-stream parser finds, or the first error, the rest kept; only the upgrade's size error can depend on the chunks |
| WebSocketReader.ReplyReadsBack | deploy/self_check.py:210-234 | a message sent right behind a response that switches protocols is the one read |
| WebSocketHead.OnlyTextIsRead | deploy/self_check.py:229-234 | behind a response that switches only a text frame is read; a close frame and any other are refused |
| WebSocketHead.HeadReadsBack | deploy/self_check.py:262-275 | a printed response is read as its status and its headers, names in lower case, the last of one name |
| WebSocketHead.SwitchesIff | deploy/self_check.py:213-227 | a printed response switches exactly with status 101, an upgrade to websocket, a connection header that lists it, and the accept value, in either case of letters |
| WebSocketReader.PiecesMatter | deploy/self_check.py:253-260 | exactly when the chunking decides between reading and refusing |
| WebSocketReader.ReceiveOutcome | deploy/self_check.py:253-260 | what the receive loop gives for any chunks up to a given size |

## Left out

- FastAPI routes, React pages, CSV export, command line tools, password hashing, tokens, serial input and output, the AT client's own timing.
- SQL text: tables are maps and sequences with atomic transactions, and a counter that is never reused; loss of committed transactions by a power failure is not part of this model.
- The server's gateway and database: the peer is an abstract one with the stated behaviour, and how the server prunes its memory of labels and numbers is not part of this model.
- JSON encoding and hashing: payloads are compared as values, and different stream labels drawn at random are taken to differ.
- DeliverySafety.NoLossExactlyOnce: a resend request that arrives during a batch may be overwritten by the next send, so no claim is made that a request is honoured at once.
- Queue.LastSeqZeroIffFresh: last_seq may fall below the counter after the tail is trimmed, so only the zero case is claimed.
- CommandSafety.AtMostOnce: the journal is one file; a file that is lost takes its memory of executed commands with it.
- CommandSafety.CancelledNeverRuns: discarding and stopping are taken one popped frame at a time, which allows more interleavings than the code has.
- Cron.NextCron: wall-clock minutes of one fixed offset from UTC; daylight saving and a stored time under another offset are not part of this model.
- CronParse.ParseField: digits beyond ASCII and numbers of more than 4300 digits are not part of this model.
- Plans.ComputeNextRun: what float() makes of an interval expression is a parameter, a finite number of days is a real number rounded once to microseconds, and a drawn jitter is a whole number of microseconds.
- SchedulerSafety.OneExecution: negative jitter can bring a second run before the same cron firing, and a run in progress reschedules from its old copy of the row, so neither one run per firing nor a plan cleared by a concurrent sync is claimed.
- KeepAliveScheduler.KeepAliveScheduler.AttemptReturned: what an attempt does on the hardware is its outcome only.
- RecoverySafety.RateLimited: a clock that runs backwards and a stored row that something else wrote are not part of this model; times are whole seconds.
- TaskTable.ReplaceRefinesMap: text in an integer column, which SQLite stores for a new row and `int()` then refuses when the row is planned, is not part of this model.
- AlerterSafety.PagesApart: pages and announcements are ordered by when they are committed, not by when a push arrives; incident rows are left out.
- AlerterSafety.NoteTakesEffect: claimed until the alerter is closed; a timer cancelled at closing time before its first turn leaves its entry behind.
- DataOverlap.HonestIff: what a driver without a data-state reader would do is not part of this model.
- Csv: the reader's limit of 131072 characters a field is not part of this model.
- DataLines.ClosesUsers: a context defined twice in one answer, where the last definition counts, and texts with quotes are excluded.
- OperatorList.ScanReadsBack: names with quotes, backslashes or line ends cannot be printed unambiguously and are excluded.
- Threads.BoundariesDoNotMatter: claimed for merges in order; which arrangement the engine picks when the comparator is no order is not part of this model.
- WebSocketReader.ReadUpgradeResponse: headers are Latin-1 text; the TLS layer below is not part of this model.
- WebSocketReader.ReadReply: the accept value computed from the key is a parameter, and the JSON text of the payload is not read.
