# PitLane agent: a verified model

This project models the stateful parts of the PitLane agent, the service that runs AC EVO game servers on behalf of
one or more Hubs, and proves what they keep over whole runs. `dafny verify dfyconfig.toml` checks all of it.

## What is modelled

**Durable commands** (`Journal`, `JournalStore`, `Protocol*`, `Coordinator`). The Hub sends fenced, idempotent
commands. The agent stores them, acknowledges them, runs their effects in a pool with one lock per target, replays
what a crash interrupted and purges what is confirmed.

- `Journal` has the tables (command rows, last fence per hub and target) and each SQL transaction as a function.
  `JournalStore.AgentCommandJournal` is the class that updates them in place; each method's `ensures` says which
  function it computes.
- `Protocol` is a transition system whose steps are single journal transactions, single operations on the scheduled
  set or on a lock, and the two ends of an effect. Deliveries, duplicates, replays, workers, confirmations, purges and
  crashes interleave freely. A caller keeps the record it read, which may be out of date when it acts on it: the
  status is read (`durable_command_executor.py:48-52`, `66-90`) before the scheduled set is tested.
- Single flight, acknowledgements, purge, recovery and progress hold at that granularity in every run. *At most once
  does not*: a caller that read `received` can schedule a command again after it was finished, and `_execute` does not
  look at the status that `mark_executing` returns. `ProtocolEffects.EffectCanRunTwice` gives a run, two deliveries of
  one command that are both answered with `received` before the first worker enters; each of its schedules is matched
  by a read of its own (`ProtocolReads`). In every run an effect that has already run in the lifetime shows as a terminal
  record from `mark_executing`, which the worker could test before running it (`RepeatsAreVisible`). With "read the
  status and schedule" as one step (`AllFresh`), at most once holds. Non-replayable effects never run in two process
  lifetimes, fresh or not.
- The journal accepts the id of a purged command for another one, and the machine lets the Hub do so. What depends on it,
  and exactly how:
  - *Mutual exclusion and the order of the fences* need that deliveries are `Calm`: an accepted command is for the same
    instance as the record of every worker of its id that waits between its first read and the re-read of
    `mark_executing`. The lock is chosen from the first, the effect from the second. `ProtocolReuse` proves that, from
    every state reached by calm deliveries, a delivery is calm if and only if every run of calm deliveries after it
    keeps mutual exclusion, and if and only if every such run keeps the order of the fences.
  - *An overtaken command never runs* exactly when it is not due for a worker: up to the re-read it is the row of the
    worker's id that counts, and not the record the worker was cleared on (`ProtocolSafety.OvertakenExactlyWhen`, with a
    run, `OvertakenByRecordRuns`, in which the record misleads).
  - *A terminal record tells that the command has run or been given up* needs that deliveries are `Fair`: no worker of
    the id is between its fence check, or its re-read, and `mark_terminal`, since it would finish the row of the new
    command. `ProtocolEffects.AccountExactlyWhen` is the same kind of equivalence.
  - *A row and the record read under its id are of one command* no longer. `RowsGoForward`,
    `AcknowledgementsAreConfirmable` and `RecoveryCompletes` speak of rows that are still of the command.
  - All other theorems of the `Protocol*` modules hold in every run. When the Hub never uses an id again every delivery
    is calm and fair, and a row is always of the command read under its id (`ProtocolIds`).
- The state components `history`, `acks`, `trace`, `interrupted`, `handled` and `life` only record the past; no guard
  reads them.
- `Coordinator.DurableCommandCoordinator` is the class with the scheduled set, the locks and the journal, where a job
  given to the pool runs at once. Its `ReplayPending` is proved with acknowledgements, callbacks and effects that may
  do anything. `CoordinatorRefinement` shows that each execution is a run of one worker of the machine, with the same
  tables, effects and acknowledgements; `CallerRefinement` shows the same of a delivery, of each record of a replay and of
  a purge. `ProtocolOutcomes` says of every run which stored commands are successes and where their outcomes come from.

**The result spool** (`Spool`, `SpoolScan`, `SpoolSightings`, `SpoolStore`, `SpoolPipeline`, `SpoolMeanings`, `SpoolResend`,
`SpoolWindows`, `SpoolLost`, `SpoolRefinement`). Results written by the game are copied into a spool and announced, each for the launch in whose
window it falls.

- Every `os.replace` is an atomic write. `SpoolStore.ResultArtifactSpool` keeps a ghost list of the disks after each
  write; its `Valid()` says that each of them, hence each crash point, keeps the write-ahead order.
- `SpoolScan` describes a scan as a fold over the files it visits, and shows that a crash anywhere in a scan makes no
  difference once unchanged sources have been scanned often enough again.
- `SpoolSightings` takes scans of directories, manifests and windows that may all differ from look to look, from empty
  counters on: a look makes an artifact exactly when the file passes the filter, is a JSON object, and had the same size
  and time the last `stable` times it passed. The spool keeps the list of all looks, and its counters are proved to come
  from them. `SpoolMeanings` spells out what windows, retries, resync and purge do to each file.
- `SpoolWindows` is a transition system in which time, the results directories, registrations (clock read, each close,
  listing, manifest, one step each), takes and crashes interleave. No file is made into artifacts of two launches of
  one instance. The attribution needs only that a file's mtime is never before its appearance and that the clock
  does not go back; a registration need not be one step. `SpoolRefinement` shows that the scans and registrations of
  the class are runs of this machine.
- Findings: a file that appears between the clock reading and the listing of a registration is taken by no launch of
  this instance in any continuation (`SpoolLost.LostBetweenClockAndListing`, and a run that loses one,
  `FileCanBeLost`); another instance that shares the directory may still take it. A crash in the middle of a purge,
  then a resync, leaves a pending artifact without its copy. Over all later scans, resyncs, deliveries and purges it can
  be sent if and only if its file is still wanted: there with the same bytes, in the window, not in the baseline and
  not observed (`SpoolResend.InterruptedPurgeThenResync`). An observed file is not wanted any more, so then it is never
  sent; an earlier crash between the artifact's manifest and the launch's can have kept it from being observed. The cap
  of 300 seconds on the retry delay is never reached (`DelayDoublesThenStays`).

**The log observer and the restart guard** (`GameLog`, `GameLogFacts`, `LogObserver`, `RestartGuard`). Reading a growing log
in any pieces gives the same facts as reading it whole, and `GameLogFacts` says which line each fact comes from. In a log whose lines are dated, the guard stops an instance exactly
when a restart comes with or after a crash, a qualifying start or a race start, however it polls. For every log,
dated or not, `NeverMissesExactlyWhen` says when no choice of polls can miss a restart: if and only if in each
prefix that covers it the last restart line is dated, and there is a dated start or the last crash line is dated.
`UndatedLinesAreMissed` shows the three ways in which undated lines break that.

**Process tracking** (`Processes`), **semantic revisions** (`Revisions`), **load summary** (`LoadSummary`),
**auto-trigger** (`AutoTrigger`) and **runtime bundle** (`RuntimeBundle`) are the smaller machines and functions.
`Common`, `Strings` and `Sorting` have what several of them share.

## Model

| member | source | states |
|---|---|---|
| Journal.TargetKeyIdentifiesInstance | agent/services/agent_command_journal.py:380-391 | two commands share a lock and a fence slot exactly when they name the same instance, or both none |
| Journal.NormalizeRoundTrip | agent/services/agent_command_journal.py:357-404 | a message is accepted as this command exactly when it is that command written as a message and within all limits; every other message is refused as malformed |
| Journal.ReceiveDuplicate | agent/services/agent_command_journal.py:94-98 | a redelivery is answered as a duplicate exactly when the stored row is the same command; otherwise nothing changes and it is refused |
| Journal.RefusedBecause | agent/services/agent_command_journal.py:94-130 | a delivery is refused as a conflict exactly when its idempotency key belongs to another command, as stale when its fence is not above the last of its target, and as a duplicate id otherwise; a refusal changes nothing |
| Journal.AcceptedIsOwed | agent/services/agent_command_journal.py:114-163 | an accepted command is stored as received, without outcome, still owed its first confirmation, and its fence becomes the last of its slot |
| Journal.ReceiveKeeps | agent/services/agent_command_journal.py:79-163 | receive keeps the table invariant (unique ids and idempotency keys, last fence at least every accepted fence, fences identify commands) and nothing goes back |
| Journal.MarkTerminalKeeps | agent/services/agent_command_journal.py:184-222 | the terminal transition keeps the table invariant and every row's progress |
| Journal.FinishedIsFinal | agent/services/agent_command_journal.py:184-205 | a finished row is returned as it is; the other terminal state conflicts |
| Journal.UnknownIsRefused | agent/services/agent_command_journal.py:168-260 | nothing can be done to a command that is not stored |
| Journal.ConfirmKeeps | agent/services/agent_command_journal.py:224-254 | a confirmation keeps -1 <= confirmed rank <= rank of the status and never lowers the confirmed rank |
| Journal.ConfirmedExactlyWhen | agent/services/agent_command_journal.py:224-254 | a confirmation is taken exactly for the state the command is in or one it has passed, changes only confirmed rank and update time, and raises the rank to that of the state, never lowers it |
| Journal.PurgeKeeps | agent/services/agent_command_maintenance.py:111-138 | a purge keeps the invariant, the fences included, and removes only succeeded rows confirmed at rank 2 |
| Journal.OutsideBothQueries | agent/services/agent_command_journal.py:262-296 | a stored command is in neither the pending nor the incomplete query exactly when it is terminal and confirmed at rank 2 |
| Journal.AwaitsWhatIsUnconfirmed | agent/services/agent_command_journal.py:269-273 | a row awaits confirmation exactly when its confirmed rank is below the rank of its status |
| Journal.PurgedIsStale | agent/services/agent_command_journal.py:100-112 | an accepted command whose row is gone is refused as stale when it is delivered again |
| Journal.AcceptsOnlyHigherFences | agent/services/agent_command_journal.py:100-112 | only a fence above every fence ever accepted for the slot is accepted as new |
| JournalStore.AgentCommandJournal.Receive | agent/services/agent_command_journal.py:79-163 | the method stores, answers or refuses as the transaction on the old tables says, and tells whether it created the row |
| JournalStore.AgentCommandJournal.Transition | agent/services/agent_command_journal.py:326-355 | a terminal row, or a step back, is returned unchanged; otherwise the status is written |
| JournalStore.AgentCommandJournal.MarkTerminal | agent/services/agent_command_journal.py:168-222 | the first terminal state and response are kept; a contradicting one conflicts and changes nothing |
| JournalStore.AgentCommandJournal.Confirm | agent/services/agent_command_journal.py:224-254 | confirms up to the local rank, refuses a state not reached or contradicting, and leaves all other rows alone |
| JournalStore.AgentCommandJournal.SupersedingFence | agent/services/agent_command_journal.py:298-314 | the last fence of the slot if it is above the command's own |
| JournalStore.AgentCommandJournal.PendingAcknowledgements | agent/services/agent_command_journal.py:262-280 | the oldest rows of the hub confirmed below the rank of their status, oldest first, each once, up to the limit taken between 1 and 2000; all of them when there are no more than that |
| JournalStore.AgentCommandJournal.IncompleteCommands | agent/services/agent_command_journal.py:282-296 | the oldest received or executing rows of the hub, oldest first, each once, up to the limit taken between 1 and 2000; all of them when there are no more than that |
| JournalStore.AgentCommandJournal.PurgeConfirmedSuccesses | agent/services/agent_command_maintenance.py:99-147 | deletes only successes confirmed at rank 2 and last updated max(1, retention days) days ago or more, the oldest first and at most 5000; all of those when the limit is not reached; a dry run only counts them |
| JournalStore.LimitNotReached | agent/services/agent_command_journal.py:274-277 | a query with no more matching rows than its limit returns all of them |
| ProtocolInvariant.NextInv | agent/services/durable_command_executor.py:41-240 | every step of callers, workers, confirmations, purge and crash keeps the invariant of tables, records, flight and trace, and nothing accepted before is accepted again |
| ProtocolSteps.CallersAreFree | agent/services/durable_command_executor.py:41-115 | at any moment deliveries, confirmations, reads, acknowledgements of what was read and a crash are possible; a crash leaves the tables and the past and nothing else |
| ProtocolCalm.EffectsFollowFences | agent/services/durable_command_executor.py:157-203 | in every run of calm deliveries the fences of the effects run for one hub and target never decrease, and equal fences mean the same command |
| ProtocolCalm.NextCalm | agent/services/durable_command_executor.py:155-203 | every step but an uncalm delivery keeps locks, waiting workers and fences in order |
| ProtocolSafety.OvertakenNeverRuns | agent/services/durable_command_executor.py:159-185 | a command with a lower fence than the last of its slot, and not due for a worker, never runs, however the run goes on and whatever ids are used again |
| ProtocolSafety.OvertakenExactlyWhen | agent/services/durable_command_executor.py:159-191 | a command with a lower fence than the last of its slot never runs in any continuation if and only if it is not due: in the row of a worker up to the re-read, in its record after it |
| ProtocolReuseRuns.OvertakenByRecordRuns | agent/services/durable_command_executor.py:159-191 | a run in which every cleared worker has the record of another command, and the overtaken one still runs |
| ProtocolSafety.RowsGoForward | agent/services/agent_command_journal.py:184-252 | in every run status rank and confirmed rank of a row never go down, within their bounds, and its first terminal state is final, exactly as long as it is of the same command |
| ProtocolSafety.AcknowledgementsAreConfirmable | agent/services/durable_command_executor.py:48-49 | in every run an acknowledgement carries a durable state, and confirming it at any later time succeeds as long as the row is of its command |
| ProtocolSafety.AcceptedIsAccounted | agent/services/agent_command_maintenance.py:113-135 | in every run an accepted command keeps its row until a purge finds it succeeded and confirmed |
| ProtocolSafety.PurgeCannotReopen | agent/services/agent_command_journal.py:100-112 | in every run a command once accepted is never accepted as new again, purged or not, also when another has taken its id |
| ProtocolSafety.SingleFlight | agent/services/durable_command_executor.py:128-146 | in every run each command id has at most one job, and the scheduled set is exactly the ids with a job |
| ProtocolCalm.MutualExclusion | agent/services/durable_command_executor.py:155-159 | at every point of every run of calm deliveries at most one effect runs per instance, across all hubs |
| ProtocolReuse.ExclusionExactlyWhen | agent/services/durable_command_executor.py:151-191 | from every state that calm deliveries lead to, a delivery is calm if and only if every run of calm deliveries after it keeps mutual exclusion |
| ProtocolReuse.FenceOrderExactlyWhen | agent/services/durable_command_executor.py:151-191 | and if and only if every such run keeps the order of the fences |
| ProtocolReuseRuns.ReuseBreaksMutualExclusion | agent/services/durable_command_executor.py:151-159 | an uncalm delivery can come: a day after its success the id is purged and used again while a worker waits with the old record, and a run, each read used once, ends with two effects of one instance running, the later with the lower fence |
| ProtocolAccount.NextAccount | agent/services/durable_command_executor.py:148-232 | every step but an unfair delivery keeps the account of one lifetime: a finished command was run, given up or superseded |
| ProtocolOnce.NextRepeat | agent/services/durable_command_executor.py:148-232 | every step keeps: a command that has run in this lifetime and is open is running, and its record from mark_executing is terminal otherwise |
| ProtocolEffects.RepeatsAreVisible | agent/services/durable_command_executor.py:187-191 | of an effect about to run: in every run, if it has run before in this lifetime then mark_executing returned a terminal record; with fair deliveries a terminal record means that it has run or been given up, and exactly that it has run when no lost command was read under its id |
| ProtocolEffects.AccountExactlyWhen | agent/services/durable_command_executor.py:157-222 | from every state that fair deliveries lead to, a delivery is fair if and only if in every run of fair deliveries after it terminal records tell of a run or of giving up |
| ProtocolReuseRuns.ReuseHidesRepeats | agent/services/durable_command_executor.py:206-222 | an unfair delivery can come, and then a command is finished that nobody has run or given up |
| ProtocolIds.NewIdsAreHarmless | agent/services/agent_command_journal.py:114-140 | when the Hub never uses an id again every delivery is calm and fair |
| ProtocolIds.NewIdsKeepCommand | agent/services/agent_command_journal.py:114-140 | then the row of an id is of the command read or acknowledged under it |
| ProtocolIds.NewIdsShowRepeats | agent/services/durable_command_executor.py:187-191 | then a replayable effect about to run has run before in this lifetime if and only if mark_executing returned a terminal record |
| ProtocolEffects.StaleReadRepeatsEffect | agent/services/durable_command_executor.py:51-52 | whenever a caller still holds a record read as received and not yet used, the finished command can be run once more, each schedule being matched by a read of its own |
| ProtocolEffects.EffectCanRunTwice | agent/services/durable_command_executor.py:48-52 | a run from the empty journal, no id used again, with two deliveries and each read used once, in which one effect runs twice in one lifetime |
| ProtocolAtMostOnce.AtMostOncePerLifetime | agent/services/durable_command_executor.py:128-146 | in every run with the status read and the scheduling as one step an effect runs at most once per lifetime |
| ProtocolAtMostOnce.NonReplayableInOneLifetime | agent/services/durable_command_executor.py:92-107 | in every run a Steam update never runs in two lifetimes, whatever callers read and whatever ids are used again |
| ProtocolAtMostOnce.NonReplayableAtMostOnce | agent/services/durable_command_executor.py:11-14 | with fresh scheduling a Steam update runs at most once across any crashes and replays |
| ProtocolRecovery.RecoveryCompletes | agent/services/durable_command_executor.py:66-115 | after a crash at any step, once a replay has handled all incomplete commands of a hub and the workers rest, each row that is still of its command is terminal |
| ProtocolRecovery.RecoveryRunsOnlyLastFence | agent/services/durable_command_executor.py:160-185 | during recovery only the command holding the last fence of its slot may run |
| ProtocolRecovery.GivenUpNeverRuns | agent/services/durable_command_executor.py:92-107 | an interrupted non-replayable command never runs again in any continuation |
| ProtocolRecovery.InterruptedEndsFailed | agent/services/durable_command_executor.py:92-107 | once replayed it is failed as interrupted, without having run |
| ProtocolProgress.SomeWorkerMoves | agent/services/durable_command_executor.py:159-232 | the target locks never deadlock: while a job exists some worker can move |
| ProtocolProgress.WorkersCanFinish | agent/services/durable_command_executor.py:148-232 | from every reachable state the workers can run to completion |
| ProtocolProgress.WorkersMustFinish | agent/services/durable_command_executor.py:148-232 | no schedule of the workers alone goes on forever |
| Coordinator.CourseEnds | agent/services/durable_command_executor.py:157-222 | an execution whose acknowledgement does not raise ends its open command, and runs it exactly when it holds the last fence |
| Coordinator.CourseStores | agent/services/durable_command_executor.py:159-222 | of an open command: the execution raises exactly when it held the last fence and the executing acknowledgement raised; one that ran is stored with its outcome, succeeded exactly for 200 to 299; a superseded one is failed with 409 and stale_fence; and the acknowledgements are the stored rows of these stages |
| Coordinator.DurableCommandCoordinator.Execute | agent/services/durable_command_executor.py:148-232 | tables, effects, acknowledgements and held locks after an execution, whatever effect and acknowledgement do; an open command that ran and did not raise has its outcome stored, and succeeded exactly for a status code from 200 to 299; the command leaves the scheduled set |
| Coordinator.DurableCommandCoordinator.Receive | agent/services/durable_command_executor.py:41-54 | a refused delivery changes nothing; any other is journalled, its stored row is acknowledged next, and it is executed exactly when it is still received and that acknowledgement did not raise; tables, effects and acknowledgements are those of that course |
| Coordinator.DurableCommandCoordinator.ReplayPending | agent/services/durable_command_executor.py:59-115 | with neither query at its limit and nothing raised: each row of the hub that was open, or confirmed below rank 2, is acknowledged as it was read, the count is the number of these rows, and every open command has ended, interrupted non-replayable ones without running; whatever raises, only such rows are treated, only holders of the last fence run, none twice |
| CoordinatorRefinement.ExecutionIsRun | agent/services/durable_command_executor.py:148-232 | an execution of the coordinator, superseded, raising or run to its outcome, is a run of one worker of the protocol: same tables, effects and acknowledgements, lock and scheduled set given back; an open command that ran has its outcome stored and succeeded exactly for 200 to 299 |
| CallerRefinement.DeliveryIsRun | agent/services/durable_command_executor.py:41-54 | a delivery of the coordinator is a run of the protocol when nobody else moves: same tables, effects and acknowledgements |
| CallerRefinement.ReplayIsRun | agent/services/durable_command_executor.py:73-114 | the replay of one record is such a run: acknowledged, then scheduled, given up or left alone |
| CallerRefinement.PurgeIsClean | agent/services/agent_command_maintenance.py:107-138 | the rows an executed purge picks may be removed by one enabled Clean step, with the same tables |
| CallerRefinement.CleanTakesOnlyOld | agent/services/agent_command_maintenance.py:107-135 | that step takes exactly successes confirmed at rank 2 and not updated for a day |
| ProtocolOutcomes.SucceededExactlyWhen | agent/services/durable_command_executor.py:190-222 | in every run a stored command has succeeded exactly when its stored status code is 200 to 299, and each stored outcome is that of an effect that ended under its id, or one made up for a superseded or interrupted command, which has failed |
| ProtocolOutcomes.FinishStores | agent/services/durable_command_executor.py:205-222 | in any state the worker whose effect ended stores its outcome in its open row, succeeded exactly for 200 to 299, and leaves a finished row alone |
| GameLog.SplitCuts | agent/services/player_count_observer.py:137-142 | the lines and the buffer are the one way to cut the text at its separators |
| GameLog.SplitJoins | agent/services/player_count_observer.py:137-142 | buffer plus appended text splits as the whole text does, also when cut in mid-line |
| GameLog.FoldCounts | agent/services/player_count_observer.py:144-180 | the restart count is the number of restart lines, and a race start implies a sport start |
| GameLog.FirstsStay | agent/services/player_count_observer.py:153-172 | first driver, sport start and race start, once set, never change |
| GameLogFacts.PlayersTell | agent/services/player_count_observer.py:147-154 | the player count and its time are those of the last line with one; the first driver was seen at the first such line with a positive count |
| GameLogFacts.SessionTells | agent/services/player_count_observer.py:156-159 | the session and its time are those of the last created session, also when that line is undated |
| GameLogFacts.SportTells | agent/services/player_count_observer.py:161-171 | the sport started at the first dated line that starts a timed session in qualifying or a race in a race session, and not without one |
| GameLogFacts.RaceTells | agent/services/player_count_observer.py:167-172 | the race started at the first dated line that starts a race in a race session, and not without one |
| GameLogFacts.RestartTells | agent/services/player_count_observer.py:174-176 | the restart time is that of the last restart line, absent when that line is undated |
| GameLogFacts.CrashTells | agent/services/player_count_observer.py:178-180 | the crash time is that of the last crash line, absent when it is undated, and the message its last 500 characters |
| GameLog.ReadOnConsumes | agent/services/player_count_observer.py:109-180 | reading on from any earlier length, or after a truncation, gives the state of one pass over all complete lines, with the rest in the buffer |
| GameLog.IncrementalIsBatch | agent/services/player_count_observer.py:109-180 | any sequence of pieces gives the state of one pass over the whole log |
| LogObserver.PlayerCountObserver.Observe | agent/services/player_count_observer.py:35-82 | the observer reports the facts of the log read so far by this process, starting over for another process or log |
| RestartGuard.SeasonRestartGuard.Turn | agent/services/season_restart_guard.py:25-72 | one instance's turn: ignored, allowed and counted, or stopped; a stop that raises leaves the guard armed |
| RestartGuard.DecidesExactlyWhen | agent/services/season_restart_guard.py:25-83 | an instance is stopped exactly when it runs, is to be stopped on restarts, was not stopped yet, shows a new dated restart, and its log was not read whole or the sport, the race or a crash has a time; any other new dated restart counts as seen |
| RestartGuard.SeasonRestartGuard.RunOnce | agent/services/season_restart_guard.py:22-74 | a poll takes each running instance's turn in order, stops exactly those decided to be stopped, in that order, and counts the stops that did not raise; a raising stop ends the poll for the later ones |
| RestartGuard.BegunMeans | agent/services/player_count_observer.py:153-180 | for every log the guard's test holds exactly when some line is a dated start in its phase or the last crash line is dated |
| RestartGuard.NeverMissesExactlyWhen | agent/services/season_restart_guard.py:36-83 | for every log and restart line: every choice of polls stops the instance by the first poll that covers the line if and only if each prefix that covers it has a dated last restart line, and a dated start or a dated last crash line |
| RestartGuard.BegunAtLine | agent/services/player_count_observer.py:153-180 | in a dated log the guard's test holds exactly when a crash line, a timed start in qualifying or a race start in the race was read |
| RestartGuard.StopsExactlyWhen | agent/services/season_restart_guard.py:43-72 | in a dated log a poll stops the instance if and only if it covers a restart line that the poll before did not, and some line it covers is a crash, a qualifying start or a race start |
| RestartGuard.NeverMisses | agent/services/season_restart_guard.py:36-83 | if a restart line comes with or after a crash line, a qualifying start or a race start, the first poll that covers it stops the instance unless an earlier one did, for every choice of polls |
| RestartGuard.NeverMissesText | agent/services/season_restart_guard.py:36-83 | the same for the text of the log polled at any lengths, also in mid-line: the decision to stop is taken on what the observer reports |
| RestartGuard.StopsAtTheFirst | agent/services/season_restart_guard.py:43-60 | polled after every line, the guard stops at exactly the first restart line with a crash, a qualifying start or a race start at it or before it |
| RestartGuard.StopIsRetried | agent/services/season_restart_guard.py:65-71 | a stop that raised is decided again at the next poll, whatever dated lines were appended |
| RestartGuard.UndatedLinesAreMissed | agent/services/player_count_observer.py:178-180 | logs that are not decisive: an undated crash, an undated crash after a dated one, an undated restart |
| Spool.EnqueueKeepsOrder | agent/services/result_artifact_spool.py:416-447 | each of the three writes of an enqueued file keeps: observed names have manifests, manifests have intact copies unless purgeable |
| Spool.OtherOrdersBreak | agent/services/result_artifact_spool.py:401-404 | writing the manifest before the copy, or the launch before the manifest, breaks that order |
| Spool.DeletionKeepsOrder | agent/services/result_artifact_spool.py:298-330 | deleting a copy keeps the order exactly when the artifact is PRACTICE or WARMUP, or unknown |
| Spool.NextIsNearest | agent/services/result_artifact_spool.py:87-98 | looking only at the next manifest in the sorted list, no launch of the instance registered in between is passed over |
| Spool.HintMeans | agent/services/result_artifact_spool.py:482-495 | the session of a name is the first of practice, qualifying, warm-up and race of which a marker occurs anywhere in it, whatever its case |
| SpoolScan.VisitsAreBetween | agent/services/result_artifact_spool.py:362-407 | a scan only adds artifacts and copies of wanted files, and observes a file only with both in place |
| SpoolScan.VisitsMake | agent/services/result_artifact_spool.py:87-100 | a scan reports exactly the wanted files it has observed, each once |
| SpoolScan.ScansSettle | agent/services/result_artifact_spool.py:409-414 | after as many scans as the stability limit, every wanted file of unchanged sources is observed |
| SpoolScan.CrashMakesNoDifference | agent/services/result_artifact_spool.py:362-447 | a crash at any point of scanning followed by enough scans gives the same observed names, artifact ids and copies as no crash |
| SpoolSightings.MadeExactlyWhenStable | agent/services/result_artifact_spool.py:376-414 | for any looks at any disks and directories, from empty counters: a look makes an artifact exactly when the file passes the filter, is a JSON object, and the last stable times its path and name passed the filter, this one included, it had this size and time |
| SpoolSightings.ScanMakesRipe | agent/services/result_artifact_spool.py:87-100 | a scan makes exactly the artifacts of such looks, in their order, counting the looks of all scans before it |
| SpoolStore.InsertedIsSorted | agent/services/result_artifact_spool.py:449-451 | manifests are put in order of instance and registration time |
| SpoolStore.NextsAgree | agent/services/result_artifact_spool.py:449-451 | unless two launches of an instance were registered at the same time, the order gives every launch one successor time |
| SpoolStore.ResultArtifactSpool.Enqueue | agent/services/result_artifact_spool.py:416-447 | copy, artifact manifest and launch manifest are written in that order, the copy only when absent |
| SpoolStore.ResultArtifactSpool.ScanOnce | agent/services/result_artifact_spool.py:87-100 | a scan visits every file of every launch and reports exactly what it observed, the looks at files unchanged for stable sightings since the process began; at each of its crash points the disk is on the way to the settled one |
| SpoolStore.ResultArtifactSpool.Rescan | agent/services/result_artifact_spool.py:72-73 | scanning as often as the stability limit collects everything wanted in the windows, when no registration times tie |
| SpoolStore.ResultArtifactSpool.CloseOpenLaunches | agent/services/result_artifact_spool.py:453-462 | exactly the open launches of the instance are closed, at one time; every crash point has some of them closed |
| SpoolStore.ResultArtifactSpool.RegisterLaunch | agent/services/result_artifact_spool.py:55-85 | refusals change nothing, a known launch is returned as it is; otherwise old windows are finished, closed, and the new one opened with the present files as baseline |
| SpoolStore.ResultArtifactSpool.CloseResultWindow | agent/services/result_artifact_spool.py:102-106 | the open window is finished and closed |
| SpoolStore.ResultArtifactSpool.Pending | agent/services/result_artifact_spool.py:108-118 | exactly the pending artifacts whose time has come, each once |
| SpoolStore.ResultArtifactSpool.MarkDelivered | agent/services/result_artifact_spool.py:123-135 | the artifact becomes delivered and keeps its attempts; an unknown one changes nothing |
| SpoolStore.ResultArtifactSpool.MarkFailed | agent/services/result_artifact_spool.py:137-150 | the artifact stays pending with one attempt more and its next time |
| SpoolStore.DelayDoublesThenStays | agent/services/result_artifact_spool.py:148 | the delay doubles up to the eighth attempt, then stays at 256 seconds; the cap of 300 is never reached |
| SpoolMeanings.WindowBounds | agent/services/result_artifact_spool.py:376-389 | a launch takes a name neither in its baseline nor observed, dated from 2 seconds before its registration up to the next registration and its close, both excluded |
| SpoolMeanings.RegisteredTakesOnlyNew | agent/services/result_artifact_spool.py:70-83 | a new launch is open and takes of its directory exactly what is not there when it is registered, from 2 seconds before on |
| SpoolMeanings.ClosedTakesNothingLater | agent/services/result_artifact_spool.py:453-462 | closing an instance keeps each open launch from files dated at or after it, and changes nothing else |
| SpoolMeanings.RefusedExactlyWhen | agent/services/result_artifact_spool.py:42-57 | a registration is refused for an absent server section, for incomplete data when results are collected, or for a correlation id without any hexadecimal digit, in this order |
| SpoolMeanings.NewIsDue | agent/services/result_artifact_spool.py:426-445 | a new artifact is due at once with no attempt made, and has the size and time of its file and the instance and address of its launch |
| SpoolMeanings.HexOnlyJoins | agent/services/result_artifact_spool.py:467-471 | the part of the correlation id in a manifest name is made of the parts of its pieces, so with HexOnlyOne exactly its hexadecimal digits in their order |
| SpoolMeanings.AttemptMeans | agent/services/result_artifact_spool.py:123-150 | a delivered artifact is due no more; a failed one counts one attempt more and is due again after 2, 4, 8, up to 256 seconds |
| SpoolMeanings.ResyncTouchesOnly | agent/services/result_artifact_spool.py:163-179 | a resync makes due exactly the delivered artifacts that match instance, launch and correlation, each where given |
| SpoolMeanings.PurgeTouchesOnly | agent/services/result_artifact_spool.py:290-330 | a purge removes the copies of exactly the delivered artifacts asked for, of the instance if given, named as practice or warm-up, and marks these purged |
| SpoolMeanings.BytesAreFreed | agent/services/result_artifact_spool.py:302-312 | the bytes reported are conserved: with what is left they make up what was stored |
| SpoolMeanings.SentIsChecked | agent/services/result_pipeline.py:36-65 | also on a disk that was tampered with, only a copy with the size and hash of its manifest is sent |
| SpoolStore.ResultArtifactSpool.Resync | agent/services/result_artifact_spool.py:152-181 | after a scan exactly the matching delivered artifacts are pending again, purged ones stay purged, and the two totals are their numbers |
| SpoolStore.ResultArtifactSpool.PurgeDelivered | agent/services/result_artifact_spool.py:268-332 | exactly the delivered PRACTICE and WARMUP artifacts asked for lose their copies; every request is counted once as eligible, protected or not found; a dry run changes nothing |
| SpoolPipeline.ResultPipeline.RunOnce | agent/services/result_pipeline.py:21-34 | a scan comes first and its artifacts are counted; then every due artifact is attempted, one failure never stops the others, and only intact copies are sent and counted |
| SpoolPipeline.SentExactlyWhen | agent/services/result_pipeline.py:36-40 | a stored copy is never corrupt: a delivery fails only when the upload fails or a purgeable copy is gone |
| SpoolResend.InterruptedPurgeThenResync | agent/services/result_artifact_spool.py:298-330 | after a purge interrupted between its two writes and a resync, the pending artifact can be sent in a later run if and only if its file is still wanted |
| SpoolResend.SentAgainExactlyWhen | agent/services/result_artifact_spool.py:362-447 | an artifact without its copy is sent in some run of scans, resyncs, deliveries and purges if and only if a file of its name and bytes is still wanted by its launch |
| SpoolResend.ObservedIsNoTarget | agent/services/result_artifact_spool.py:367-391 | once its launches have observed the name nothing is wanted under it, so the artifact is never sent |
| SpoolWindows.StepKeeps | agent/services/result_artifact_spool.py:55-106 | time, files, registrations, takes and crashes keep the windows ordered and every taken file in one window |
| SpoolWindows.OutsideIsFree | agent/services/result_artifact_spool.py:55-106 | at any moment of a registration or take, time may go on, directories and files may come, change and go, and the agent may crash |
| SpoolWindows.OneLaunchPerFile | agent/services/result_artifact_spool.py:367-391 | in every run no result file is made into artifacts of two launches of one instance, despite the 2 seconds of slack |
| SpoolWindows.WindowsAreDisjoint | agent/services/result_artifact_spool.py:453-462 | per instance at most one launch is open, and of two launches one was closed before the other was registered |
| SpoolWindows.RunsKeepWriteAhead | agent/services/result_artifact_spool.py:401-404 | every crash point of every such run keeps the write-ahead order |
| SpoolLost.LostBetweenClockAndListing | agent/services/result_artifact_spool.py:75-81 | in every run a file that appears between the clock reading and the listing of a registration is taken by no launch of this instance, in any continuation |
| SpoolLost.FileCanBeLost | agent/services/result_artifact_spool.py:75-81 | a run from a fresh spool, a first registration, that loses a result for good |
| SpoolLost.LostForGood | agent/services/result_artifact_spool.py:362-407 | a file outside the reach of every launch of an instance stays so over registrations, scans and crashes |
| SpoolLost.CandidateExactlyWhen | agent/services/result_artifact_spool.py:367-391 | a present file is a candidate of a launch exactly when it appeared after the listing under a free name, is not observed, and was last written before the close; the 2 seconds of slack never decide |
| SpoolRefinement.ScanIsRun | agent/services/result_artifact_spool.py:87-100 | a whole scan, whatever its counters let through, is a run of that machine, so what holds over its runs holds of the class |
| SpoolRefinement.RegistrationIsRun | agent/services/result_artifact_spool.py:75-85 | closing the open launches and opening the new one is such a run, with the same closed windows, baseline and manifest |
| Processes.ProcessSupervisor.RequestStop | agent/services/process_supervisor.py:32-41 | the first request keeps its time, the last one its reason; nothing changes when nothing runs |
| Processes.ProcessSupervisor.RestoreTerminated | agent/services/process_supervisor.py:27-30 | a terminated entry is restored only for an instance that does not run |
| Processes.ProcessSupervisor.ObserveExit | agent/services/process_supervisor.py:43-88 | an exited process moves from running to terminated with its code; a live one stays |
| Processes.ProcessSupervisor.Forget | agent/services/process_supervisor.py:94-99 | only what does not run is forgotten |
| Processes.AskedAgain | agent/services/process_supervisor.py:32-41 | however often a stop is asked for, its time is that of the first request and its reason that of the last |
| Processes.ExitMoves | agent/services/process_supervisor.py:43-88 | an observed exit moves the entry with its process, its stop request and the code, and touches no other instance |
| Processes.ForgottenOnlyExits | agent/services/process_supervisor.py:94-99 | forgetting takes away what is known of an exit and never touches a running entry |
| Processes.StartRuns | agent/services/server_manager.py:137-211 | where nothing runs and the lock is free a start goes through: one new process, registered without a stop request, lock free again |
| Processes.RestartGoesOn | agent/services/server_manager.py:213-271 | a restart keeps the lock between stop and start; a stop alone frees it; a restart of nothing only starts |
| Processes.NoLiveProcessIsLost | agent/services/server_manager.py:137-211 | in every run each live process is the running entry of its instance from registration on, and before that its instance is locked with nothing else live |
| Processes.AtMostOneLive | agent/services/server_manager.py:112-146 | no instance ever has two live processes |
| Processes.EntriesAreTrue | agent/services/process_supervisor.py:66-86 | running and terminated stay disjoint, and a terminated entry tells the true exit of a process of its instance |
| Processes.StopStops | agent/services/server_manager.py:224-271 | a stop that returns leaves no live process of the instance |
| Processes.NothingToStop | agent/services/server_manager.py:229-237 | a stop answered as already stopped has missed no live process |
| Revisions.SignatureSays | agent/services/runtime_state_tracker.py:6-23 | with distinct ids two states have one signature exactly when they agree up to order and the two timestamps |
| Revisions.StrippedSame | agent/services/runtime_state_tracker.py:6-21 | two instances count as the same exactly when they agree on every field but drivers_seen_at and log_drivers_seen_at |
| Revisions.SignatureIgnores | agent/services/runtime_state_tracker.py:10-21 | reordering instances and sampling again keep the signature |
| Revisions.RuntimeStateTracker.Observe | agent/services/runtime_state_tracker.py:36-49 | the returned revision is the number of signature changes observed so far, with the state just given |
| Revisions.RevisionIdentifies | agent/services/runtime_state_tracker.py:36-49 | two snapshots with one revision have one signature |
| Revisions.RevisionCountsChanges | agent/services/runtime_state_tracker.py:36-49 | under any interleaving of sessions the revision is the number of signature changes |
| Revisions.MessagesAgree | agent/services/runtime_state_session.py:23-47 | messages with one revision, to whatever hubs, carry one signature |
| Revisions.SentRises | agent/services/runtime_state_session.py:23-47 | a session's sent revisions never decrease, and each change message is strictly above all sent before |
| Revisions.QuietMeansCurrent | agent/services/runtime_state_session.py:29-34 | a session that finds nothing to send has already sent a state with the signature just observed |
| Revisions.RuntimeStateSession.SendSync | agent/services/runtime_state_session.py:23-27 | a sync is always sent; a send that raises is not recorded as sent |
| Revisions.RuntimeStateSession.SendIfChanged | agent/services/runtime_state_session.py:29-36 | a change is sent exactly when the revision is above the last one sent |
| Revisions.CallsAreSteps | agent/services/runtime_state_session.py:23-47 | a call of a session is one observing step of the machine and, unless nothing is to be sent, one sending step, with the same messages |
| LoadSummary.ClassifyIsWorst | agent/core/capacity_profiler_constants.py:56-93 | the severity is the worst known level, or CRITICAL after a crash; the factor is the first at that level |
| LoadSummary.ClassifyByThresholds | agent/core/capacity_profiler_constants.py:9-93 | CRITICAL from a crash or 95 on one core; RISK from 85 on one core, less than 15 RAM or 95 in all; WATCH from 75, less than 25, or 85; and the factor named is the first that reaches the level |
| Sorting.SortedIsUnique | agent/services/capacity_profiler_summary.py:20 | under an antisymmetric order there is one sorted permutation, whichever sort is used |
| LoadSummary.OrderStatisticsAreMonotone | agent/services/capacity_profiler_summary.py:20 | the k-th smallest of pointwise higher readings is no lower |
| LoadSummary.PercentileIsMonotone | agent/services/capacity_profiler_summary.py:16-33 | the interpolated percentile is monotone in its readings |
| LoadSummary.PercentileIgnoresOrder | agent/services/capacity_profiler_summary.py:16-33 | the percentile does not depend on the order of the readings |
| LoadSummary.PercentileIsBetween | agent/services/capacity_profiler_summary.py:16-33 | the percentile lies between the two order statistics next to p percent of the last place, at the linear weights of that rank |
| LoadSummary.WorseLoadIsNoSafer | agent/services/capacity_profiler_summary.py:105-127 | snapshots pointwise no better, with no fewer crashes, never lower the severity |
| LoadSummary.RamIsLeastReading | agent/services/capacity_profiler_summary.py:111-119 | the RAM reading of the summary is that of some snapshot and no snapshot has less; without readings there is none |
| LoadSummary.RamAvailableMeans | agent/services/capacity_profiler_summary.py:36-50 | the RAM available is the megabytes in percent of all when the total is known and not 0, else what the percentage in use leaves |
| LoadSummary.RiskExactlyWhen | agent/services/capacity_profiler_summary.py:105-127 | the severity is at least 2 exactly after a crash, with a core percentile of 85, a total of 95, or a single snapshot below 15 % RAM; and OK exactly below all watch thresholds |
| AutoTrigger.TimerIsStreak | agent/services/capacity_profiler_runner.py:292-336 | each timer is the time of the first evaluation of the running unbroken streak |
| AutoTrigger.ActsOnlyAfterGrace | agent/services/capacity_profiler_runner.py:308-335 | a run is auto-started or auto-stopped only after an unbroken streak spanning the grace |
| AutoTrigger.ActsExactlyAfterGrace | agent/services/capacity_profiler_runner.py:292-336 | with a clock that does not go back it is done exactly then |
| AutoTrigger.WatcherLoop | agent/services/capacity_profiler_runner.py:278-336 | the loop does what the fold over the evaluations says, so every action spans its grace |
| RuntimeBundle.CopiesCommute | agent/services/runtime_bundle.py:89-106 | two path overwrites from one source commute |
| RuntimeBundle.OrderDoesNotMatter | agent/services/runtime_bundle.py:79-81 | any order of the overwrites gives the same configuration |
| RuntimeBundle.RedactsExactlyWhen | agent/services/runtime_bundle.py:79-84 | the redacted private configuration equals the canonical one exactly when all listed paths exist and the two agree outside them |
| RuntimeBundle.AcceptedExactlyWhen | agent/services/runtime_bundle.py:51-86 | the bundle is accepted if and only if its version, fields, trimmed and lower-cased hash and redacted configuration are right, and its hash is returned |
| RuntimeBundle.RefusedBecause | agent/services/runtime_bundle.py:51-106 | which error is raised: version, field list, configuration objects, hash of 64 lower-case hexadecimal digits, listed path, or divergence, the first that fails |
| RuntimeBundle.ListedFields | agent/services/runtime_bundle.py:8-31 | both lists name fields of the Server section; the second has EntryListPath besides the seven of the first |
| RuntimeBundle.AnnouncedAnyway | agent/services/runtime_bundle.py:71-77 | white space around the announced hash, and upper case in it, make no difference |
| Strings.SpacesListed | agent/services/runtime_bundle.py:71 | the characters stripped around the hash are the 29 white space characters, listed by code point |
| Strings.LowerIsByLetter | agent/services/runtime_bundle.py:71 | each ASCII capital becomes its small letter, and no other character changes |
| RuntimeBundle.ListedFieldsAreFree | agent/services/runtime_bundle.py:79-86 | acceptance does not depend on the listed fields of the private configuration, Server being an object |

## Left out

- SQLite, file locking, JSON text and SHA-256: transactions and `os.replace` are atomic steps over maps; hashes, fingerprints and name-based UUIDs are injective; there are no storage errors other than a crash.
- Informational timestamps, `error_message` and the bounding of error texts to 4000 or 500 characters.
- The journal's limits on lengths in the protocol machine: any command may be delivered there.
- The equality of `True` and `1` when the private and the canonical configuration are compared (`runtime_bundle.py:84`): the model tells booleans from numbers.
- Conversions before the journal's checks: message fields are taken as converted and trimmed, and whether the id is a UUID is a flag.
- Text comparison of ISO times in SQL: times are integers in the journal and reals in the spool.
- The pool's threads in the coordinator class: a job runs when it is submitted there; the interleavings are those of `Protocol`.
- Line classification by regular expressions, trimming of lines, UTF-8 decoding and byte offsets in the observer: each line has abstract facts, lines end with one separator, offsets count characters.
- `PlayerCountResolver`, which merges the log with other sources of player counts.
- In-place writes of `_copy_path_value`: overwriting is modelled on values, so aliasing between the two configurations is not.
- The order in which a scan visits files, and ties between launches registered at the same time: any order is allowed, so the order of the list of created artifacts is not modelled.
- A result file that changes between being examined and being read within one scan; case-insensitive file names; temporary files left by a crash.
- `inventory`, `storage_usage` and hub notifications of the spool: reports without effect on delivery.
- SpoolWindows.OneLaunchPerFile: leaves out the stability counter (a file may be taken at any time its filter allows) and purge, delivery and resync, which do not touch windows.
- SpoolStore.ResultArtifactSpool.PurgeDelivered: takes the requested ids as distinct and known by value; the removal of duplicates and blanks before is not modelled.
- Restoring processes by pid and executable path, waiting for ports, and an exception between spawning a process and registering it.
- An execution that raises after the effect and before the terminal write, because the response cannot be written as JSON or the status code is not a number (`durable_command_executor.py:206-222`): the row stays executing and is replayed, also in the same lifetime, so the at-most-once results do not cover it.
- Game observations, last configurations and log files kept with a process.
- SHA and text details of signatures: canonical JSON is taken as the value it stands for; non-object entries among the instances are not modelled.
- Sample quality, duration and distributions of the load summary; floating point is real arithmetic with any monotone rounding.
- Evaluations of the watcher that raise: they leave the timers as they were and are not part of the sequence.
- Hub connection, authentication, Flask routes, firewall, Steam, sampling, configuration encoding and installers.
