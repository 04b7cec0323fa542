# PersonalityRAG: a verified model of its durable core

This project models the parts of PersonalityRAG that must not go wrong when tasks overlap, the
process dies or data is damaged, and proves what they guarantee. `dafny verify dfyconfig.toml`
checks all of it.

| file | what it models |
|---|---|
| `JobRecord.dfy` | one job as the manager keeps it, and the effect of one update on it |
| `JobStore.dfy` | the job table with the snapshots in memory in front of it, listing, and recovery at startup |
| `JobEngine.dfy` | the job engine as a state machine: ten statuses, the long-lane worker, short tasks, locks, control calls, rollback |
| `JobEngineInv.dfy` | the invariant of the engine, kept by every event |
| `JobEngineTheorems.dfy` | what follows for every run |
| `JobEngineStops.dfy` | what becomes of an accepted stop in every run, and what can still lose it |
| `JobEnginePauses.dfy` | which pauses are shutdowns, what a pause lets go, and how a paused job runs on |
| `JobEngineLives.dfy` | how a job gets on from its start to each of its ends |
| `JobEngineRecords.dfy` | what the record of a job says after every change, and where its checkpoint, result and progress come from |
| `JobRestarts.dfy` | a run over a restart after which a rollback cannot restore |
| `JobSteps.dfy`, `JobManager.dfy` | the manager as an object over the job table: each method is one event of the engine, and any use of it is a run |
| `JobPages.dfy` | the order of listings, and their pages |
| `StorageLayout.dfy` | the journalled move of the database roots, with a disk that may fail or stop at every action |
| `SqlitePool.dfy` | the lazy connection pool with leases, reaper and draining close |
| `Checkpoint.dfy` | the two-slot checkpoint and its atomic replacement |
| `Quotas.dfy` | the two-level slots for background and foreground work |
| `Adapters.dfy` | adapter connections with time to live, forced offline state and legacy mirror |
| `Values.dfy` | values as Python holds them after reading JSON, compared by `==`, and the form that tells equal ones apart in JSON |
| `Providers.dfy`, `ProviderLaws.dfy` | provider revisions, their use by libraries, the operations on both, and what they do row by row |
| `PackagePaths.dfy`, `Packages.dfy` | writing and verified extraction of configuration packages |
| `Versions.dfy` | release tags and their precedence |

Tasks that run at the same time are modelled by steps: a step is the code between two points
where a task can yield, and steps of different tasks may follow each other in any order. Where
an outside event decides (a write fails, a rename is never reached, another process finishes an
update), the model leaves it open, so every theorem covers all outcomes. Times are integers
handed in by the caller. A table is a map and a transaction one step that commits or changes
nothing; a hash is as good as what it was computed from.

The job engine assumes of an operation that a rollback which succeeds restores what the database
held before the job's first run, provided the database is still as the job left it, and proves
that it is. A rollback over anything else may leave anything. For a job that first ran in an earlier
process it proves the same, from what that process knew. `_update`, the resolver and the capture of
database states are one step each.

The JSON text of a configuration shows every form of value, so that equal texts are texts of the same
value in the same form. There is one `nan`: `json.loads` gives the same object for every `NaN`, and
`==` on containers takes an object to be equal to itself.

## Where the code falls short

Each of these is proved, with the exact condition where there is one.

- A stop whose rollback fails ends with the job `interrupted` and released by the worker; it stays
  that way and a later stop is accepted but never carried out (`HowJobsAreAbandoned`,
  `AbandonedForever`, `AcceptedStopIsHeld`).
- The worker calls the resolver before it looks at the request. When a stop was accepted while the job
  was at rest or waiting, a resolver that raises turns the job into `failed` with `manager_error`:
  nothing is rolled back, and the lock is freed (`ResolverLosesAStop`, `InterruptedStopIsLost`).
- `progress` always writes `running`. After it a pause, or a shutdown request, is accepted over a
  pending stop and replaces it (`ProgressLetsAPauseReplaceAStop`, `CallsThatLoseAStop`).
- When an operation fails and its rollback fails too, a pending stop is kept, but a resume drops it
  (`ParkedByFailure`, `ParkedStopIsDroppedByResume`). These three are all: every other stop is carried
  out or left with an abandoned job (`StopStep`, `StopStandsUnlessLost`).
- `resume` takes no lock, so two overlapping calls can leave the control event set, and the next
  pause then ends at once (`DoubledResumeLeavesASignal`, `SignalStays`).
- An unfinished job waits in the queue after a restart without the lock of its database. A short job of
  the same resource can write there first, and a rollback then does not restore what the job found
  (`ForeignWriteBreaksARollback`; without such a write it does, `RollbackRestoresEarlierRun`).
- A listing reads its rows, waits, and then lays the snapshots over them: a job that finishes in
  between is listed as it was (`ListingAcrossAnAwait`, `FinishedWhileListing`).
- If the journal write that says `moved` fails and the process dies in the rollback that follows, the
  journal can say `moved` while a tree is still at its old root. The next start then finishes without
  moving it, and only the start after that moves it (`Prepare`, `Survive`, `SurviveFailures`).
- Two overlapping closes of a pool can end with a connection leased, exactly when a turn brings a
  connection between the drain of one and its end, which takes the end of the other
  (`OverlappingCloses`, `Close`).
- A waiter woken just before a close opens a connection in the closed pool; without such a waiter the
  closed pool stays empty (`WokenWaiterReopens`, `AfterClose`).
- The reaper's loop counts what it has taken twice, so a pass takes at most half of the connections
  (`Reap`, `PassesAreLogarithmic`).
- With a limit of one, a background task can shut out the foreground (`LimitOneBlocks`).
- Over a legacy checkpoint or none at all, a first checkpoint that goes bad turns reading into an error
  (`BadNewSlot`).
- A slot file that is JSON but whose `sequence` is `Infinity` or `1e400` makes `int` raise
  `OverflowError`, and one nested too deeply a `RecursionError`; the handlers expect neither, so that
  reading and saving fail although the other slot is valid (`RaisingSlotBlocks`,
  `OneBadSlotIsSurvived`).
- Renaming a library leaves its old name in the older connection table; the next start copies it back
  and the library cannot be renamed back (`RenameBreaksMirror`, `OldNameReturns`).
- Functional equality compares with `==`, the hash the JSON text, and nothing turns a value into the
  type of its field. So an edit of 30.0 to 30, or of 1 to `true`, is made in place at the same
  revision but changes the hash, and with it every answer that goes by fingerprint
  (`HashIsFunctional`, `RebuildAnswers`, `DisplayEditIsSilent`, `TypedEdit`).
- After a debug reset that does not delete later revisions, functional edits fail on the primary key
  (`FunctionalEditOutcome`, `ResetBlocksEdits`).
- A package with a manifest over 8 MiB, or with one name below another, is written but not accepted
  (`RoundTrip`).
- Tags that differ only in the case of letters tie, which section 11 of Semantic Versioning 2.0.0 does
  not allow (`UpperCaseTies`, `AgreementIsExact`). Digits outside ASCII are accepted in its numbers
  (`ForeignDigitsTie`, `ForeignTag`), and a number of too many digits raises an error that is not the one
  for invalid tags (`ParseTag`).

## Model

| member | source | states |
|---|---|---|
| `JobRecord.ApplyMeaning` | personalityrag/jobs.py:1189-1234 | one update sets exactly the fields it names, leaves kind, resource, resumability and creation time, and counts an attempt exactly when it enters execution |
| `JobRecord.ApplyKeepsBooks` | personalityrag/jobs.py:1196-1233 | the values an update gives: the first start is noted when a queued or resting job begins to run, the end when a job that was not over is, and a change of status adds one entry to the history, of which the last hundred stay |
| `JobRecord.NothingMoves` | personalityrag/jobs.py:1189-1195 | an update that leaves status, progress, message, result, error, checkpoint, reason and control as they are leaves the whole record, its times too |
| `JobRecord.NewJobIs` | personalityrag/jobs.py:512-540 | a new job is queued, has progress 0 and no attempt, result, error, checkpoint, request or start time, and one history entry |
| `JobRecord.AppendHistoryInv` | personalityrag/jobs.py:1149-1169 | appending keeps the history free of equal neighbours, at most 100 long, and ending in the new status |
| `JobRecord.ApplyInv` | personalityrag/jobs.py:1196-1233 | an allowed update keeps the record invariant: history ends in the status, `started_at` set iff an attempt was counted, `finished_at` set iff terminal, pause and stop statuses only on resumable jobs |
| `JobRecord.RunInv` | personalityrag/jobs.py:1171-1274 | the record invariant holds after any sequence of allowed updates |
| `JobRecord.StoredHistoryIsNewest` | personalityrag/jobs.py:1149-1169 | after any sequence of updates the stored history is exactly the newest 100 entries of the unbounded one |
| `JobRecord.AttemptsCountEntries` | personalityrag/jobs.py:1199-1210 | `attempt_count` is the number of entries into execution in the unbounded history, even when the stored one has forgotten some |
| `JobRecord.TerminalIsFinal` | personalityrag/jobs.py:1196-1233 | once terminal, a status is the same after any further allowed updates |
| `JobStore.AppendStatusHistory` | personalityrag/jobs.py:1149-1169 | the program's append and cut computes the specified history |
| `JobStore.ApplyFields` | personalityrag/jobs.py:1196-1233 | the field-by-field assignments of an update compute the specified record |
| `JobStore.UrgentOrInStep` | personalityrag/jobs.py:1238-1246 | an update that is not written at once leaves memory ahead of the table only in progress, message, result, error and update time, and never for a finished job |
| `JobStore.Store.WriteBehind` | personalityrag/jobs.py:1238-1274 | an update is written at once exactly when the job is over, its status, checkpoint, control request or reason has changed, or the last write is a second or more ago; a stored job that is over leaves memory; the merged view never changes, and with a successful write nothing that must not be late is late |
| `JobStore.Store.Create` | personalityrag/jobs.py:512-540 | a new job appears in the merged view, stored at once |
| `JobStore.Store.Update` | personalityrag/jobs.py:1171-1274 | whether or not the write succeeds, the merged view is the old one with the update applied to that job, and the table holds old rows and that job as the view has it; when writes succeed memory and table stay in step, and a change of status, checkpoint, request or reason, a job that is over, and any change a second after the last write are in the table at once |
| `JobStore.Store.Get` | personalityrag/jobs.py:1476-1487 | reading one job is a lookup in the merged view |
| `JobStore.Store.List` | personalityrag/jobs.py:1612-1631 | the merge of rows and snapshots in scope, and while no write is lost exactly the jobs of the merged view whose status is in scope |
| `JobStore.ListingIsView` | personalityrag/jobs.py:1612-1631 | a listing shows the merged view if and only if no row in scope is overtaken by a snapshot out of scope |
| `JobStore.ListingAcrossAnAwait` | personalityrag/jobs.py:1612-1631 | rows are read before an await and snapshots laid over them after it; the listing shows the merged view of the later moment if and only if every row in scope without a snapshot is still the one in the table, none is missing, and none in scope is overtaken by a snapshot out of scope |
| `JobStore.FinishedWhileListing` | personalityrag/jobs.py:1612-1631 | a job that finishes during that await, and is stored and forgotten, is listed among the active ones as it was |
| `JobPages.OrderIsUnique` | personalityrag/jobs.py:1633-1655 | the sort keys and the identifier order a listing in exactly one way, so pages read one after the other fit together |
| `JobPages.ComesMeans` | personalityrag/jobs.py:1633-1655 | that order: unfinished jobs by creation, finished ones by their last update with the newest first, in a full listing the unfinished before the finished, and jobs of the same time by identifier |
| `JobPages.PagesJoin` | personalityrag/jobs.py:1633-1661 | a page is the stretch of its limit from its offset; a page and the page its cursor asks for are one longer page, and without a cursor nothing follows |
| `JobPages.FinishedPage` | personalityrag/jobs.py:1583-1611 | the page of finished jobs that the table sorts and cuts, with snapshots put over its rows, is the stretch of the merged view in order, and there is a next cursor exactly when jobs follow |
| `JobPages.ListPage` | personalityrag/jobs.py:1563-1665 | by whichever of the two ways, in whatever scope: while no write is lost a page is the stretch of the merged view in order from its cursor on, and the next cursor says where to go on |
| `JobStore.CrashImage` | personalityrag/jobs.py:1238-1274 | what a crash leaves: status, checkpoint, reason, control request, attempts and history of every row equal the merged view, and the row satisfies the record invariant |
| `JobStore.RecoveredInv` | personalityrag/jobs.py:202-262 | recovery of one row re-establishes the record invariant, leaves no queued or in-flight status, keeps attempts and checkpoint, and leaves unfinished exactly the resumable jobs that had been started and not finished |
| `JobStore.RecoveredMeans` | personalityrag/jobs.py:202-262 | told by statuses: a queued job becomes `cancelled` with reason `shutdown`; one in flight becomes `interrupted` if it can be resumed and otherwise `cancelled`, with reason `process_interrupted`; a job that ends here ends now, its control request is gone and its last history entry agrees; `completed`, `failed` and `stopped` stay what they were, and nothing becomes one of them |
| `JobStore.SettleRows` | personalityrag/jobs.py:196-262 | the two UPDATE statements and the history loop together recover every row, to the status, reason, times and history stated for one row |
| `JobStore.NewestFinished` | personalityrag/jobs.py:268-275 | the rows that pass the limit are the newest finished ones, and fewer than the limit only if there are no more |
| `JobStore.Prune` | personalityrag/jobs.py:263-275 | pruning drops only finished rows, each because it is more than thirty days old or because a thousand newer ones are kept |
| `JobStore.SortOldestFirst` | personalityrag/jobs.py:277-293 | the queue after recovery holds the unfinished jobs, each once, in order of creation |
| `JobStore.Store.Recover` | personalityrag/jobs.py:156-303 | from any table of sound records: every kept row is the recovered one, with the status, reason, times and history that its old status calls for; what is dropped was finished and over thirty days old or beyond the newest thousand, and the queue is the unfinished jobs, oldest first |
| `JobStore.RecoveryStartsTheEngine` | personalityrag/jobs.py:156-303 | recovery leaves the engine in an initial state, from which the theorems about runs start |
| `JobEngineInv.MovesAreSound` | personalityrag/jobs.py:834-999 | every step of the worker writes only what the record allows, fits the place it goes to, keeps an accepted stop, and completes only with no request pending |
| `JobEngineInv.StepKeepsInv` | personalityrag/jobs.py:690-1092 | every event of any task keeps the invariant of the engine |
| `JobEngineInv.RunKeepsInv` | personalityrag/jobs.py:690-1092 | the invariant holds after every interleaving of calls, worker and short tasks |
| `JobEngineTheorems.OneUpdate` | personalityrag/jobs.py:690-1080 | every event makes at most one update on a job, the one the code writes there, and no job disappears |
| `JobEngineTheorems.WriteAllowed` | personalityrag/jobs.py:690-1080 | in every reachable state each of these updates is one that keeps the record invariant |
| `JobEngineTheorems.ReachableRecords` | personalityrag/jobs.py:1171-1274 | in every reachable state every job satisfies the record invariant |
| `JobEngineTheorems.AttemptsAreEntries` | personalityrag/jobs.py:1199-1210 | along any interleaving the attempt count grows by the number of entries into execution |
| `JobEngineTheorems.TerminalForever` | personalityrag/jobs.py:690-1080 | no call, worker step or short task ever changes a terminal status |
| `JobEngineTheorems.OneJobPerKey` | personalityrag/jobs.py:686-778 | two jobs that execute under the same resource key, in whatever lanes, are the same job |
| `JobEngineTheorems.LongJobsInOrder` | personalityrag/jobs.py:546-555 | long jobs start in the order they were enqueued, and once one has started every earlier one is terminal or abandoned |
| `JobEngineTheorems.NoJobIsLost` | personalityrag/jobs.py:546-778 | every unfinished job is abandoned, queued, waiting in its own task, or with the worker, and the queue is what is left of everything enqueued |
| `JobEngineTheorems.RollbackEnding` | personalityrag/jobs.py:938-999 | a resumable job becomes `stopped`, or `failed` with reason `operation_failed`, only by the worker's write after a rollback that succeeded, with the databases untouched in between |
| `JobEngineTheorems.FirstRun` | personalityrag/jobs.py:846-859 | the first attempt of a resumable job is begun by the worker under the lock, over the database as it is then |
| `JobEngineTheorems.RememberedForever` | personalityrag/jobs.py:834-999 | what the database held before a job's first run is never forgotten or changed by later events |
| `JobEngineTheorems.AbandonedForever` | personalityrag/jobs.py:978-989 | an abandoned job stays paused, interrupted or stopping forever: nothing rolls it back in this process |
| `JobEngineTheorems.LockHeldUntilTheEnd` | personalityrag/jobs.py:740-960 | from its first run on, a job that will ever finish holds the lock of its database, which is as it left it, through every pause and interruption |
| `JobEngineTheorems.RollbackRestoresFirstRun` | personalityrag/jobs.py:834-999 | in every run, a job that is stopped, or fails by its operation, leaves its database equal to what it was before the job's first run in this process |
| `JobEngineTheorems.RollbackRestoresEarlierRun` | personalityrag/jobs.py:277-303 | the same for a job that first ran in an earlier process, provided no other job writes its database between the restart and the moment the worker has its lock again |
| `JobRestarts.ForeignWriteBreaksARollback` | personalityrag/jobs.py:277-303 | without that condition it fails: after every restart with an unfinished job first in the queue, a short job of the same resource can take the lock first and write another content; the job is then resumed and stopped by a rollback that succeeds, and its database holds whatever that rollback makes of it |
| `JobEngineTheorems.RollbackWithinARun` | personalityrag/jobs.py:834-999 | the same told by positions in one run: the state before the first run and the state after the end hold the same database |
| `JobEngineTheorems.NoCompletionOverARequest` | personalityrag/jobs.py:863-874 | no resumable job becomes `completed` while a pause or stop is pending, and none is pending right after |
| `JobEngineTheorems.StopIsKept` | personalityrag/jobs.py:847-926 | an accepted stop goes on showing as `stopping` after an event if and only if that is neither a bare progress write of the job nor one of the events that end it |
| `JobEngineTheorems.StopIsNeverLost` | personalityrag/jobs.py:847-1057 | over whole runs it shows until such an event, whatever pauses, resumes, interruptions, closings and other jobs come in between |
| `JobEngineStops.StopStep` | personalityrag/jobs.py:834-999 | after any event a pending stop is still pending, carried out, or left with an abandoned job, if and only if the event is none of these, before the worker is in `_perform_stop`: a resolver that raises, a pause, a shutdown request or a resume that is accepted |
| `JobEngineStops.StopStandsUnlessLost` | personalityrag/jobs.py:834-1057 | over every run a stop stands in every state if and only if none of those events meets it while it is pending |
| `JobEngineStops.StopEndsInARollback` | personalityrag/jobs.py:834-1057 | over every run in which none does, the job is on its way through the stop, or `stopped` or `failed` by a rollback, or abandoned after a rollback that raised; it is never `completed` or `cancelled`, and fails only as `operation_failed` |
| `JobEngineStops.AbandonedFromAStop` | personalityrag/jobs.py:978-989 | a pending stop is left with an abandoned job only after the rollback of the stop itself has raised |
| `JobEngineStops.OnlyTheResolverLosesAHeldStop` | personalityrag/jobs.py:845-852 | while the stop shows as `stopping`, the only one of those events that can happen is a resolver that raises |
| `JobEngineStops.ResolverLosesAStop` | personalityrag/jobs.py:771-778 | whenever the worker comes back to a job with a held stop the resolver can raise; then the job has failed as `manager_error`, its database is as it was left, and its lock is free |
| `JobEngineStops.InterruptedStopIsLost` | personalityrag/jobs.py:843-923 | and that can happen to every job whose operation runs undisturbed: an interruption, a stop, and a resolver that raises |
| `JobEngineStops.CallsThatLoseAStop` | personalityrag/jobs.py:1001-1034 | what the losing calls need and leave: a pause or a shutdown request needs the status `running` or `pausing` and replaces the stop, a resume needs a job at rest and drops it |
| `JobEngineTheorems.StopIsObeyed` | personalityrag/jobs.py:847-926 | at every point where the worker decides what to do with a job, a held stop sends it to the rollback |
| `JobEngineTheorems.AcceptedStopIsHeld` | personalityrag/jobs.py:1036-1057 | an accepted stop is held from then on if and only if the job was not abandoned before |
| `JobEngineTheorems.ProgressLetsAPauseReplaceAStop` | personalityrag/task_control.py:51-57 | after a bare progress write a pause is accepted over the stop, and a shutdown request too in a closing manager; a call replaces the stop if and only if it is one of the two |
| `JobEngineTheorems.ParkedByFailure` | personalityrag/jobs.py:943-952 | a rollback that fails after the operation failed parks the job with its stop still requested |
| `JobEngineTheorems.ParkedStopIsDroppedByResume` | personalityrag/jobs.py:1018-1034 | such a parked stop is dropped by a call if and only if the call is a resume of that job |
| `JobEngineTheorems.HowJobsAreAbandoned` | personalityrag/jobs.py:905-989 | the worker lets an unfinished job go exactly after a failed rollback in a stop, or when a pause it holds for a shutdown is done; which pauses these are is told by `PauseIsAsAsked` and `ShutdownsAreCloses` |
| `JobEngineTheorems.AsleepUntilAsked` | personalityrag/jobs.py:840-843 | a paused job the worker waits with is woken by nothing but a resume or stop of it, and until then no long job starts |
| `JobEngineTheorems.DoubledResumeLeavesASignal` | personalityrag/jobs.py:1018-1034 | two overlapping resumes can leave the control event set while the job runs |
| `JobEngineTheorems.SignalStays` | personalityrag/jobs.py:840-843 | a control event that is set stays set until the worker consumes it, so a left-over one ends the next pause at once |
| `JobEnginePauses.PauseIsAsAsked` | personalityrag/task_control.py:74-79 | the worker takes up a pause only at a control point or at the check before completion, and takes it for a shutdown exactly if the request of the job is then that of a shutdown |
| `JobEnginePauses.ShutdownsAreCloses` | personalityrag/jobs.py:305-343 | in every reachable state a pause is taken for a shutdown only in a closing manager, and only of a job whose shutdown was asked for in that run |
| `JobEnginePauses.PausesThatAbandon` | personalityrag/jobs.py:884-906 | along every run a pause lets a job go only in a closing manager that has asked for the shutdown of that job; the only other way to be let go is a stop whose rollback raised |
| `JobEnginePauses.PauseIsWritten` | personalityrag/jobs.py:884-904 | in every manager, closing or not: a pause accepted for a running job is written, at the next control point, as `paused` with reason `manual` |
| `JobEnginePauses.PauseAtTheEnd` | personalityrag/jobs.py:863-864 | a pause the operation does not see before it returns is taken up by the check under the lock, as a manual one |
| `JobEnginePauses.PausedJobRunsOn` | personalityrag/jobs.py:840-859 | the paused job stays with the worker under its lock, and a resume and its signal bring the worker back into the operation, over the same checkpoint and database, with one more attempt |
| `JobEnginePauses.WaitingJobRunsOn` | personalityrag/jobs.py:1018-1034 | the same for every job that rests with the worker, interrupted or paused |
| `JobEnginePauses.ShutdownLetsGo` | personalityrag/jobs.py:305-343 | a close leaves the job it finds running `paused` with reason `shutdown`, its checkpoint and database kept and its lock free, and the worker done with it |
| `JobEngineLives.NewJobRuns` | personalityrag/jobs.py:742-860 | from every reachable state in which the long lane has nothing to do and the lock is free: a resumable job that is started comes to its first attempt, under its lock, over the database as it is |
| `JobEngineLives.ReturnCompletes` | personalityrag/jobs.py:860-874 | an operation that returns with nothing requested completes its job with its result, and frees the lock and the worker |
| `JobEngineLives.ErrorFails` | personalityrag/jobs.py:937-960 | an operation that raises is rolled back and its job fails as `operation_failed` with its error; only the database of the job changes |
| `JobEngineLives.StopStops` | personalityrag/jobs.py:966-999 | a stop of a running job, or of one that rests with the worker, ends in a rollback and `stopped`, with the request gone and lock and worker free; only the database of the job changes |
| `JobEngineLives.InterruptedJobRests` | personalityrag/jobs.py:907-923 | an operation that is interrupted leaves its job `interrupted` under the reason it gave, resting with the worker, with nothing requested and over its checkpoint and database |
| `JobEngineLives.ShortJobIsDone` | personalityrag/jobs.py:690-832 | a short job whose lock is free is done at once, whatever the worker does, and leaves nothing but its record |
| `JobEngineLives.LongJobIsDone` | personalityrag/jobs.py:742-832 | a job that is not resumable and goes to the long lane, while that has nothing to do and its lock is free, is done, and worker and lock are free again |
| `JobEngineLives.ReportsAreWritten` | personalityrag/task_control.py:51-72 | progress is written clamped, with its message, as `running`; a checkpoint as it is, with progress and message if given, and the status untouched; nothing else changes |
| `JobEngineRecords.StatusChange` | personalityrag/jobs.py:690-1092 | every change of status of every job, by whatever event: its cause, and the reason, control request, progress, error and result the record then shows |
| `JobEngineRecords.OnlySavesAndCompletions` | personalityrag/jobs.py:860-874 | no event but a saved checkpoint touches the checkpoint of a job, and none but a completion its result, which is the one handed in |
| `JobEngineRecords.NewestCheckpoint` | personalityrag/task_control.py:59-72 | after every run the checkpoint of a job is the newest its operation has saved |
| `JobEngineRecords.ProgressStaysInRange` | personalityrag/task_control.py:51-72 | in every state of every run the progress of a resumable job is between 0 and 1, whatever its operation reports |
| `JobEngineRecords.LocksApart` | personalityrag/jobs.py:686-688 | two jobs share a lock if and only if they name the same resource, where no name and the empty one stand for the global one |
| `JobEngineRecords.EntersWhenFree` | personalityrag/jobs.py:690-768 | in every reachable state a job that waits for its lock can go on if and only if no job executes under it |
| `JobManager.Manager.constructor` | personalityrag/jobs.py:156-303 | a start on whatever job table was left gives an initial state of the engine, with memory and table in step and a table of sound rows |
| `JobManager.Manager.UpdateJob` | personalityrag/jobs.py:1171-1274 | `_update` is the engine's update of the merged view, whether or not the write reaches the table |
| `JobManager.Manager.TakesJobs` | personalityrag/jobs.py:470-471 | a closing manager refuses new jobs |
| `JobManager.Manager.Enqueue` | personalityrag/jobs.py:472-555 | past that check, even if a close has begun since, the engine's start: the job is stored, its operation kept, and it enters the long queue or gets a task |
| `JobManager.Manager.Pause` | personalityrag/jobs.py:1001-1016 | accepted exactly for a resumable running job, and then the engine's pause; otherwise nothing changes and a missing job is told apart |
| `JobManager.Manager.Resume` | personalityrag/jobs.py:1018-1034 | accepted exactly for a resumable job at rest, and then the engine's resume; otherwise nothing changes |
| `JobManager.Manager.Stop` | personalityrag/jobs.py:1036-1057 | accepted exactly for a resumable job that runs, pauses or is at rest, and then the engine's stop; otherwise nothing changes |
| `JobManager.Manager.Cancel` | personalityrag/jobs.py:1059-1080 | accepted exactly for a queued job, and then the engine's cancellation; otherwise nothing changes |
| `JobManager.Manager.RequestShutdown` | personalityrag/jobs.py:329-343 | the request `close` makes of the current job, made exactly when it is resumable and running or pausing |
| `JobManager.Manager.BeginClose` | personalityrag/jobs.py:310-313 | a close begins by setting the flag |
| `JobManager.Manager.FetchNext` | personalityrag/jobs.py:742-753 | the worker takes the next job of the queue and passes over finished ones |
| `JobManager.Manager.EnterLane` | personalityrag/jobs.py:754-768 | with the execution lock the job resumes, starts, or is cancelled because its operation is lost |
| `JobManager.Manager.LoopTop` | personalityrag/jobs.py:836-842 | a finished job is left, a job at rest is waited with, any other begins an attempt |
| `JobManager.Manager.WakeUp` | personalityrag/jobs.py:842-859 | the control event is consumed and an attempt begins |
| `JobManager.Manager.BeginAttempt` | personalityrag/jobs.py:846-859 | a requested stop goes to the rollback, otherwise the request is dropped and the run begins |
| `JobManager.Manager.ResolverRaises` | personalityrag/jobs.py:771-778 | a resolver that raises fails the job with reason `manager_error` and releases the lock |
| `JobManager.Manager.ControlPoint` | personalityrag/task_control.py:74-79 | a pending request becomes the stop signal or the pause signal, a shutdown exactly if a shutdown was requested (`PauseIsAsAsked`) |
| `JobManager.Manager.Progress` | personalityrag/task_control.py:51-57 | progress is clamped to 0..1 and always writes `running` |
| `JobManager.Manager.SaveCheckpoint` | personalityrag/task_control.py:59-72 | a checkpoint is written, with clamped progress and message if given, without touching the status |
| `JobManager.Manager.OperationWrites` | personalityrag/jobs.py:860-862 | the operation of a job writes its database, and the manager changes nothing |
| `JobManager.Manager.OperationEnds` | personalityrag/jobs.py:860-937 | the operation returns, is interrupted or raises, and the worker goes to the matching place |
| `JobManager.Manager.CheckCompletion` | personalityrag/jobs.py:863-864 | under the transition lock a pending request wins, as at a control point (`PauseIsAsAsked`), otherwise the lock is kept for the completion |
| `JobManager.Manager.Complete` | personalityrag/jobs.py:865-874 | `completed` is written while the lock is held |
| `JobManager.Manager.OnPause` | personalityrag/jobs.py:884-904 | a stop that arrived meanwhile wins over the pause, otherwise `paused` is written under the lock |
| `JobManager.Manager.AfterPause` | personalityrag/jobs.py:900-906 | the request is dropped; a shutdown ends the worker's hold on the job |
| `JobManager.Manager.OnInterruption` | personalityrag/jobs.py:907-923 | a stop that arrived meanwhile wins over the interruption, otherwise `interrupted` is written under the lock |
| `JobManager.Manager.EnterStop` | personalityrag/jobs.py:968-974 | the stop is marked before the rollback |
| `JobManager.Manager.StopRolledBack` | personalityrag/jobs.py:975-987 | a failed rollback is recorded as `interrupted` with reason `rollback_failed` |
| `JobManager.Manager.LeaveStop` | personalityrag/jobs.py:988-999 | the request is dropped; a good rollback ends in `stopped`, a failed one abandons the job |
| `JobManager.Manager.FailureRolledBack` | personalityrag/jobs.py:940-952 | the rollback after a failure; when it fails too the job goes back to the head of the loop as `interrupted` |
| `JobManager.Manager.Fail` | personalityrag/jobs.py:953-960 | `failed` with reason `operation_failed` is written after the rollback |
| `JobManager.Manager.EnterShort` | personalityrag/jobs.py:695-710 | with the lock, a short job starts, is over already, or is cancelled because its operation is lost |
| `JobManager.Manager.LeaveShort` | personalityrag/jobs.py:786-832 | a short job ends by one of its final writes and gives the lock back |
| `JobManager.Manager.LongReports` | personalityrag/jobs.py:783-784 | the progress of a job that is not resumable is written unclamped, as `running` |
| `JobManager.Manager.LeaveLong` | personalityrag/jobs.py:786-832 | such a job in the long lane ends by one of its final writes, and the worker gives the lock back |
| `JobManager.Manager.AnyRun` | personalityrag/jobs.py:690-1092 | whatever steps the tasks take with the manager, in whatever order and with whatever writes lost, form a run of the engine that ends in the manager's state, and leave every row of the table sound |
| `JobManager.Manager.AnyLife` | personalityrag/jobs.py:156-303 | from recovery on any table of sound rows, through any steps of any tasks: no two jobs execute under one key, every job whose first run falls in this life and that was later stopped, or failed by its operation, left its database as it found it, and the table left behind is sound again |
| `JobManager.Manager.AnyLives` | personalityrag/jobs.py:156-303 | any number of lives one after the other on the same table and databases, each cut off anywhere by a crash, with whatever writes lost: these theorems hold of each of them |
| `StorageLayout.Layout.EachTreeOnce` | personalityrag/storage_layout.py:242-302 | in every state in which the process may die, each tree stands at exactly one of its roots with nothing in its way at the other, and a redirect has its directory |
| `StorageLayout.CleanMeans` | personalityrag/storage_layout.py:94-98 | a tree may be moved exactly if every file in it whose name ends in `.db` is a sound database and nothing in it is a redirect |
| `StorageLayout.Layout.Preflight` | personalityrag/storage_layout.py:224-240 | passes exactly over sound directories, clears only empty new roots, and never refuses to merge in a state the code produces |
| `StorageLayout.Layout.Describe` | personalityrag/storage_layout.py:167-181 | the journal entries carry the manifests, and a tree with a redirect inside is refused |
| `StorageLayout.Layout.Move` | personalityrag/storage_layout.py:242-256 | wherever it stops, every tree is whole at one root, and the journal on the disk notes every move but perhaps one; ended well, every listed root has moved, its tree unchanged, and is noted |
| `StorageLayout.Layout.Rollback` | personalityrag/storage_layout.py:258-269 | wherever it stops, every tree is whole at one root, and every root moved back but perhaps one is noted; ended well, the journal is gone and exactly the roots noted as moved are back at their old places, unless there was something there |
| `StorageLayout.Layout.MoveAll` | personalityrag/storage_layout.py:182-190 | ends with every tree moved and the journal saying so, or raises with every tree whole; if only one disk action has failed, the journal is gone and every root but perhaps the one being moved is back where it was |
| `StorageLayout.Layout.CreateUpdateRedirects` | personalityrag/storage_layout.py:278-287 | every moved root is reachable at its old place, and nothing is redirected over data |
| `StorageLayout.Layout.FinalizeSuccess` | personalityrag/storage_layout.py:289-302 | ended well: no redirect, all new roots, the marker, no journal; data at an old root is never removed |
| `StorageLayout.Layout.Prepare` | personalityrag/storage_layout.py:135-198 | wherever it stops the state is safe; undisturbed and outside an update it succeeds if and only if there is nothing that cannot be moved, and then all trees have moved if and only if the journal did not already say `moved` over a tree at its old root. Undisturbed under an active update and without a journal it succeeds under the same condition, and then every root it moved is a redirect with its directory at the new root, the journal says `redirects` and lists exactly these, the finaliser is started, and the marker is as before |
| `StorageLayout.Layout.FinalizerFires` | personalityrag/storage_layout.py:351-362 | the finaliser thread keeps safety and ends like the finalisation |
| `StorageLayout.Layout.Survive` | personalityrag/storage_layout.py:135-198 | after any number of starts that die, raise or finish anywhere, one undisturbed start outside an update finishes, and with every tree at its new root unless a disk action has failed in between |
| `StorageLayout.Layout.SurviveFailures` | personalityrag/storage_layout.py:135-198 | whatever failed before, two undisturbed starts bring every tree to its new root |
| `SqlitePool.Pool.Start` | personalityrag/sqlite_pool.py:139-149 | a pool that is closing is not started |
| `SqlitePool.Pool.Turn` | personalityrag/sqlite_pool.py:153-164 | the four outcomes of a turn by closing, idle connections and free room; a granted connection was leased to nobody |
| `SqlitePool.Pool.Acquire` | personalityrag/sqlite_pool.py:151-164 | an acquire starts the pool, or is refused by a closing one, and takes its first turn |
| `SqlitePool.Pool.WokenTurn` | personalityrag/sqlite_pool.py:165-169 | a waiter goes on with its next turn without starting the pool again; in an empty pool it opens a connection exactly when no close is under way |
| `SqlitePool.Pool.OpenFailed` | personalityrag/sqlite_pool.py:174-178 | a failed opening gives its place back |
| `SqlitePool.Pool.Opened` | personalityrag/sqlite_pool.py:180-192 | a new connection is registered and leased, or set aside to be closed when the pool is closing |
| `SqlitePool.Pool.CloseLease` | personalityrag/sqlite_pool.py:60-64 | only the first close of a lease releases its connection |
| `SqlitePool.Pool.RollbackFailed` | personalityrag/sqlite_pool.py:195-199 | a connection whose rollback fails is closed, for the first and only time |
| `SqlitePool.Pool.Deregister` | personalityrag/sqlite_pool.py:200-205 | it then leaves the pool for good |
| `SqlitePool.Pool.Release` | personalityrag/sqlite_pool.py:206-219 | a released connection of an open pool is idle from now on, at the end of the line, and the times of all others stay; in a closing pool it leaves to be closed |
| `SqlitePool.Pool.CloseConnection` | personalityrag/sqlite_pool.py:17-35 | a connection that left the pool is closed, and never was before |
| `SqlitePool.Pool.TakeTired` | personalityrag/sqlite_pool.py:239-248 | the loop of the reaper takes the connections idle long enough, in order, up to half of all |
| `SqlitePool.Pool.Reap` | personalityrag/sqlite_pool.py:235-250 | of n >= 2 connections a pass takes min(number idle long enough, n/2), so never the last one; otherwise none |
| `SqlitePool.TiredMeans` | personalityrag/sqlite_pool.py:235-248 | a connection is taken by a pass only if it has been idle for thirty seconds or more |
| `SqlitePool.Pool.RestsAWhile` | personalityrag/sqlite_pool.py:206-250 | a pass at t takes no connection that came back later than t minus thirty seconds, whatever other tasks did in between |
| `SqlitePool.Pool.Converge` | personalityrag/sqlite_pool.py:230-260 | an idle pool reaches one connection in the stated number of passes |
| `SqlitePool.PassesAreLogarithmic` | personalityrag/sqlite_pool.py:230-260 | that number is the binary logarithm of n, rounded up |
| `SqlitePool.Pool.Drain` | personalityrag/sqlite_pool.py:276-282 | draining waits until nothing is leased or being opened, and then sets every connection aside |
| `SqlitePool.Pool.EndClose` | personalityrag/sqlite_pool.py:291-295 | closing ends with an empty pool if it was drained since the last close ended |
| `SqlitePool.Pool.Others` | personalityrag/sqlite_pool.py:139-295 | any steps of other tasks keep the invariant: registered connections are idle or leased, each leased to one lease, open plus being opened within the size, none closed twice. An empty pool stays empty throughout if and only if no turn is granted a connection or begins to open one; in a closing pool that takes another close that ends |
| `SqlitePool.Pool.Close` | personalityrag/sqlite_pool.py:267-295 | between its own drain and its end the pool is empty throughout if and only if no turn brings a connection; it ends non-empty if and only if such a turn came since it was last empty; and that takes another close which ends while this one is under way |
| `SqlitePool.Pool.AfterClose` | personalityrag/sqlite_pool.py:151-169 | until somebody starts it again, an empty closed pool stays empty if and only if no task that has waited since before the close takes its turn, unless a new close refuses it |
| `SqlitePool.OverlappingCloses` | personalityrag/sqlite_pool.py:267-295 | while a first close closes an idle connection, a second close can end, the pool be started again and lease a connection, and then the first close ends |
| `SqlitePool.WokenWaiterReopens` | personalityrag/sqlite_pool.py:153-169 | a waiter woken just before a close opens a connection in the closed pool |
| `Checkpoint.Directory.ReadSlot` | personalityrag/io_utils.py:87-98 | a slot is read exactly when it holds a positive sequence number, a payload and their checksum; reading raises an error that no handler expects exactly for a slot of that form |
| `Checkpoint.Directory.Scan` | personalityrag/io_utils.py:104-115 | the loop over the slots collects the valid ones in order and notes whether there is any file; it ends with that error exactly if one of the slots raises it |
| `Checkpoint.Directory.Read` | personalityrag/io_utils.py:101-129 | reading raises that error if a slot does, and otherwise gives the newest valid slot, else an error if there is a slot file, else the legacy checkpoint |
| `Checkpoint.Directory.Replace` | personalityrag/io_utils.py:37-74 | the file is replaced if and only if the temporary file was written, the process lives, and fewer than max(1, retries) attempts are denied; otherwise nothing changes |
| `Checkpoint.Directory.Write` | personalityrag/io_utils.py:132-169 | a write replaces one slot by the sealed payload under the next sequence number, or changes nothing; it raises that error exactly if a slot does |
| `Checkpoint.ReadingMeans` | personalityrag/io_utils.py:101-129 | told by the files, unless a slot raises: the newest valid slot, or an error when there are slot files and none is valid; without slot files `checkpoint.json`, and without that `checkpoint.prev.json`, where one that cannot be read is an error |
| `Checkpoint.WritingMeans` | personalityrag/io_utils.py:132-169 | told by the files: the next sequence number is one above the newest valid one, and its parity names the slot that is replaced |
| `Checkpoint.WriteAlternates` | personalityrag/io_utils.py:149-151 | valid checkpoints stay in the slot of their parity, and a write never targets the slot of the newest valid one |
| `Checkpoint.ReadAfterWrite` | personalityrag/io_utils.py:101-169 | reading after a successful write gives the payload just written |
| `Checkpoint.BadNewSlot` | personalityrag/io_utils.py:101-169 | when the slot just written goes bad, reading gives what it gave before the write if and only if there was a slot file before and the bad slot is not one whose reading raises |
| `Checkpoint.RaisingSlotBlocks` | personalityrag/io_utils.py:87-151 | such a slot blocks the directory: no later save changes anything, and reading raises, although the other slot is valid |
| `Checkpoint.LegacyNeverCorruptSlots` | personalityrag/io_utils.py:121-129 | the legacy path never reports corrupt slots |
| `Checkpoint.RunKeepsParity` | personalityrag/io_utils.py:132-169 | over any run of writes, lost writes and spoilt slots the parity is kept |
| `Checkpoint.OneBadSlotIsSurvived` | personalityrag/io_utils.py:101-169 | after two saves, whatever came before, one bad slot costs at most the newer of them, exactly when it is its slot, if and only if it is not one whose reading raises; then reading raises too |
| `Quotas.Lanes.Current` | personalityrag/resource_quotas.py:31-49 | the registered semaphores are kept, new ones are made with the configured limit |
| `Quotas.Lanes.Arrive` | personalityrag/resource_quotas.py:66-70 | a task comes to the slots of the current generation |
| `Quotas.Lanes.TakeBackground` | personalityrag/resource_quotas.py:69-70 | a background permit is taken exactly when one is free |
| `Quotas.Lanes.TakeTotal` | personalityrag/resource_quotas.py:72 | a total permit is taken exactly when one is free |
| `Quotas.Lanes.Leave` | personalityrag/resource_quotas.py:75-79 | a task gives back what it holds, to the semaphores it took it from |
| `Quotas.BackgroundLeavesRoom` | personalityrag/resource_quotas.py:45-46 | with a limit of at least two background tasks hold at most limit - 1 slots; while only background tasks hold some, one is free if and only if the limit is at least two |
| `Quotas.LimitOneBlocks` | personalityrag/resource_quotas.py:45-46 | with a limit of one a single background task shuts the foreground out |
| `Quotas.SomeoneCanMove` | personalityrag/resource_quotas.py:66-80 | no deadlock: if a task is at the slots, some task of its generation can take a permit or leave |
| `Quotas.AllPermitsReturn` | personalityrag/resource_quotas.py:66-80 | once all tasks of a generation have left, its counters are back at their start values |
| `Adapters.Store.Register` | personalityrag/control.py:1042-1134 | told by the row: a known key is accepted exactly if it has no row, or its active row is of the same instance, or was last seen before now minus the time to live, or the row is forced offline and the call is manual; the connection time is kept exactly when the same instance renews an active row; refused, nothing changes |
| `Adapters.Store.ForceDisconnect` | personalityrag/control.py:1162-1210 | accepted exactly for the expected instance, and then only state, time and reason of that row change, in both tables |
| `Adapters.Store.CopyLegacy` | personalityrag/control.py:406-421 | the copy at startup overwrites exactly the rows the older table names, with the contents of such a row |
| `Adapters.Store.Rename` | personalityrag/control.py:2509-2587 | refused for a library in use, an occupied name or, where no soft-deleted library makes room, a key that is taken; else the rows move, after those of a soft-deleted library under the new name are removed |
| `Adapters.RoomKeepsMirror` | personalityrag/control.py:2473-2481 | making room keeps the mirror and the rows of every other library |
| `Adapters.CopyOfMirror` | personalityrag/control.py:406-421 | over an exact mirror the copy at startup changes nothing |
| `Adapters.MirrorStaysExact` | personalityrag/control.py:1032-1219 | over any run of heartbeats, forced disconnects and starts the older table is an exact mirror, and starts change nothing |
| `Adapters.OneInstancePerLease` | personalityrag/control.py:1050-1084 | after an accepted heartbeat at t no other instance is accepted up to t plus the time to live, unless a manual reconnect ended a forced disconnect |
| `Adapters.ExpiredLeaseIsGiven` | personalityrag/control.py:1070-1077 | over runs: after the last accepted heartbeat at t, the first heartbeat of any other instance later than t plus the time to live is accepted, if no forced disconnect came between |
| `Adapters.Store.AnyUse` | personalityrag/control.py:1032-1219 | any sequence of heartbeats, forced disconnects and starts on the store is a run of that kind, so the laws over runs hold of it |
| `Adapters.ForcedOfflineStays` | personalityrag/control.py:1062-1069 | a forced-offline row survives any number of ordinary heartbeats, each of which is refused |
| `Adapters.ConnectedSinceTheFirst` | personalityrag/control.py:1079-1084 | the connection time is that of the heartbeat which began the unbroken series of one instance |
| `Adapters.RenameBreaksMirror` | personalityrag/control.py:2579-2587 | a rename keeps the mirror if and only if the library has no connection rows |
| `Adapters.OldNameReturns` | personalityrag/control.py:2579-2587 | otherwise the next start brings the rows back under the old name too, and renaming back fails |
| `Values.TextIs` | personalityrag/providers.py:214-217 | two values are written alike in JSON if and only if they are equal under `==` and everywhere of the same form |
| `Values.EqualMeans` | personalityrag/control.py:135-142 | `==` by the kinds of the two values: numbers and truth values by what they count for, lists and dictionaries part by part, and everything else only to itself |
| `Providers.HashIsFunctional` | personalityrag/control.py:124-142 | configurations with the same hash are functionally equal; of functionally equal ones the hashes are equal if and only if every functional field holds the same form of value |
| `Providers.FieldByField` | personalityrag/providers.py:203-217 | functional equality is `==` field by field, and equality of the hash is `==` in the same form, over all but the same seven fields |
| `Providers.SameFunction` | personalityrag/control.py:124-142 | functional equality is an equivalence, over configurations with a `nan` too |
| `Providers.Store.UsageMap` | personalityrag/control.py:850-972 | for every requested provider the uses are its embedding bindings, with their rebuild answers, then its rerank bindings, in the order of the libraries |
| `Providers.Store.PurgeDeleted` | personalityrag/control.py:471-495 | a provider is purged exactly when it is marked deleted and unused |
| `Providers.Store.CreateProvider` | personalityrag/control.py:1980-2011 | a new identifier gets revision 1, an existing one is refused without a change |
| `Providers.Store.UpdateProvider` | personalityrag/control.py:2013-2194 | refusals, display-only edit in place, new revision and rename, with exactly what is committed in each case |
| `Providers.Store.CarryHistory` | personalityrag/control.py:2101-2124 | the rows of a renamed provider keep revision and configuration under the new name, with new hashes |
| `Providers.Store.FreeCopyId` | personalityrag/control.py:2208-2218 | the search for a free copy name ends, with the first name whose provider does not exist or can be purged |
| `Providers.Store.CopyProvider` | personalityrag/control.py:2196-2228 | the copy is a disabled provider with the latest configuration under a fresh name; nothing else changes but purged providers |
| `Providers.Store.DeleteProvider` | personalityrag/control.py:2230-2247 | an unused provider is removed with all its revisions |
| `Providers.Store.DebugReset` | personalityrag/control.py:1656-1743 | either the whole reset or, on any failing check, nothing |
| `Providers.Store.DebugPatch` | personalityrag/control.py:1612-1654 | an existing revision of a provider that is not deleted is written over under its number, with a new hash |
| `Providers.Store.Restore` | personalityrag/control.py:1803-1882 | a snapshot is accepted if and only if its identifiers are distinct, its rows belong to them, latest revisions are listed and no revision is listed twice; then the tables say what it says |
| `Providers.Store.AnyHistory` | personalityrag/control.py:1656-2247 | over any sequence of operations every latest revision has a row, every revision has a provider, and rows agree with their key and hash |
| `Providers.RenamingKeepsWhole` | personalityrag/control.py:2074-2190 | a rename keeps that invariant |
| `Providers.ResettingKeepsWhole` | personalityrag/control.py:1656-1743 | a debug reset keeps that invariant |
| `Providers.RestoringIsWhole` | personalityrag/control.py:1803-1882 | a restored snapshot satisfies it, whatever was there before |
| `Providers.LatestNeedsNone` | personalityrag/control.py:917-936 | a library bound to the latest revision needs no rebuild |
| `Providers.RebuildAnswers` | personalityrag/library_types/text_media_v1/manager.py:1358-1363 | the answer by fingerprint and the answer by comparison differ exactly for a revision that is functionally equal to the latest one in another form: then only the fingerprint asks for a rebuild |
| `Providers.DisplayEditIsSilent` | personalityrag/control.py:2043-2073 | a functionally equal edit keeps the revision number and the rebuild answer of every library bound to a revision; the hash at that revision, and with it the answer for libraries bound by fingerprint, stays the same if and only if every functional field keeps its form |
| `Providers.TypedEdit` | personalityrag/control.py:1803-1882 | the input: a snapshot with `timeout_seconds` 30.0 is restored and edited to 30; the edit is made in place, the hash is another one, and a knowledge library built before it must be rebuilt |
| `Providers.FunctionalEditOutcome` | personalityrag/control.py:2172-2188 | a functional edit succeeds if and only if no row stands at the next revision, and always when nothing lies beyond the latest |
| `Providers.FunctionalEditMarks` | personalityrag/control.py:925-936 | after a functional edit a library needs no rebuild if and only if it is bound to the new revision or to one that is functionally equal to it; those bound to the revision before do |
| `Providers.ResetLeavesAhead` | personalityrag/control.py:1686-1742 | a reset leaves revisions beyond the latest if and only if it aims below one and does not delete it |
| `Providers.ResetBlocksEdits` | personalityrag/control.py:1686-1742 | after a reset by one revision without deletion no functional edit of the provider succeeds |
| `ProviderLaws.RebuildMeans` | personalityrag/control.py:917-936 | a binding needs no rebuild if and only if provider and revision are there and every field but the seven named ones is equal in the bound and the latest revision |
| `ProviderLaws.PurgeMeans` | personalityrag/control.py:471-495 | what a purge leaves: without exactly the deleted provider that no library uses, and its rows |
| `ProviderLaws.RefusalMeans` | personalityrag/control.py:2019-2042 | an update is refused if and only if the provider is not there, or a library uses it and the update renames it or switches it off |
| `ProviderLaws.UsedProvidersStay` | personalityrag/control.py:2019-2042 | a provider in use keeps its name and stays switched on, whatever is asked of it |
| `ProviderLaws.UpdateMeans` | personalityrag/control.py:2043-2073 | an update under the same name writes over the latest revision if no functional field changes, and otherwise adds the next revision and points to it, or fails on the key |
| `ProviderLaws.RenameMeans` | personalityrag/control.py:2074-2190 | a rename succeeds if and only if the name is free or of a deleted provider without use, and no row stands at the next revision; then providers and the bindings of all libraries follow |
| `ProviderLaws.RenamedHistory` | personalityrag/control.py:2101-2124 | row by row: every revision is found under the new name with its configuration but for the identifier and with the hash of it, the edit is the next revision, and all other rows stay |
| `ProviderLaws.CopyMeans` | personalityrag/control.py:2196-2228 | the names tried for a copy, and the copy: disabled, under its new name and a marked display name, and otherwise the same |
| `ProviderLaws.ResetMeans` | personalityrag/control.py:1656-1743 | a debug reset without single bindings: the revision it aims at, when it is refused, and what it leaves in the three tables |
| `ProviderLaws.BindMeans` | personalityrag/control.py:1700-1730 | a single binding is refused for a revision that is not there, a library that is not there or one bound to another provider, in this order, and otherwise binds exactly that library |
| `ProviderLaws.RestorableMeans` | personalityrag/control.py:1803-1844 | the snapshots that are accepted, told by their rows |
| `ProviderLaws.SaysMeans` | personalityrag/control.py:1845-1882 | what a restore leaves: exactly the providers of the snapshot at their latest revisions, and exactly the revisions that belong to them |
| `PackagePaths.NormalIsAccepted` | personalityrag/backup_migration.py:146-157 | a normal downward name is accepted as it is |
| `PackagePaths.AcceptedIsNormal` | personalityrag/backup_migration.py:146-157 | whatever is accepted becomes a normal downward name, and accepting twice changes nothing |
| `Packages.ValidatedMembers` | personalityrag/backup_migration.py:461-489 | the members are accepted if and only if each is a plain encrypted file with a safe name and a size, names are distinct, the total is within the limit and the manifest is there |
| `Packages.ReadManifest` | personalityrag/backup_migration.py:442-458 | the manifest is read if and only if header and stream agree within the limit |
| `Packages.ReadDeclaration` | personalityrag/backup_migration.py:633-656 | the file list is accepted if and only if every entry is well formed, names are distinct and the total is within the limit |
| `Packages.CheckLibrary` | personalityrag/backup_migration.py:517-581 | a library entry is accepted if and only if it is well formed, and it calls for the stated members |
| `Packages.ValidateStructure` | personalityrag/backup_migration.py:492-602 | a structure is accepted if and only if scope, entries, default database, required members and JSON sizes are in order |
| `Packages.Target.Stream` | personalityrag/backup_migration.py:684-706 | at every step of the streaming loop the output is within its declared size and the total within the limit; it ends well exactly for the declared size and digest |
| `Packages.ExtractFiles` | personalityrag/backup_migration.py:669-707 | all files are extracted if and only if each matches its declaration and no name is a directory of another; in every case within the limits |
| `Packages.Extract` | personalityrag/backup_migration.py:605-710 | a package is accepted if and only if archive, manifest, declaration, structure and contents are in order; then exactly the declared files with the contents of their members are written |
| `Packages.AcceptedIsComplete` | personalityrag/backup_migration.py:605-710 | of an accepted package, told by its members: the manifest is of this format and version and small enough, every declared file is there with its size and digest, and every file the scope and the libraries call for is declared |
| `Packages.LibraryMeans` | personalityrag/backup_migration.py:517-581 | a library entry is in order if and only if its identifier, type, files and their places are as stated for its type |
| `Packages.RequiredMeans` | personalityrag/backup_migration.py:492-602 | the files a package must declare: the global configuration, the lists of providers and libraries if they are in scope, and for each library its description and its files |
| `Packages.StructureMeans` | personalityrag/backup_migration.py:492-602 | a structure is in order if and only if libraries are listed only in scope, no two share a reference or a place, the default database is one of them, the required files are declared and no JSON file is over 64 MiB |
| `Packages.WritePackage` | personalityrag/backup_migration.py:229-275 | a package is written if and only if names are safe, a password is given and the limits hold, and it holds exactly the files and the manifest that lists them |
| `Packages.RoundTrip` | personalityrag/backup_migration.py:229-275 | a package written from normal names is accepted if and only if its structure is in order, no name is a directory of another and the manifest is small enough to be read; then the same files come out |
| `Versions.MatchIsExact` | personalityrag/update_manifest.py:77-80 | a text is accepted with given groups if and only if it is spelled by them and they are well formed |
| `Versions.FormedMeans` | personalityrag/update_manifest.py:77-80 | the well-formed groups, told by their characters: each number is 0 or starts with a digit from 1 to 9, and the pre-release part is not empty and made of ASCII letters, digits, dots and hyphens |
| `Versions.AllReadableMeans` | personalityrag/update_manifest.py:146-163 | a tag can be read if and only if the interpreter has no limit, or no number in it has more digits than the limit |
| `Versions.ParseTag` | personalityrag/update_manifest.py:146-163 | a text is refused as invalid exactly if it is no tag; a tag with a number of more digits than the interpreter reads raises another error; any other gives the key of its groups |
| `Versions.CompareTags` | personalityrag/update_manifest.py:166-169 | two tags that can be read are compared by their keys; otherwise what is wrong is raised, of the left one first |
| `Versions.NeverMixed` | personalityrag/update_manifest.py:146-169 | no comparison of accepted tags meets a number and a text |
| `Versions.TagsAreOrdered` | personalityrag/update_manifest.py:166-169 | the comparison is antisymmetric, and ties are exactly equal keys |
| `Versions.TagsAreTransitive` | personalityrag/update_manifest.py:166-169 | the comparison is transitive |
| `Versions.AgreesWithTheStandard` | personalityrag/update_manifest.py:146-169 | on lower-case tags valid under Semantic Versioning 2.0.0 it is the precedence of section 11, and only equal tags tie |
| `Versions.UpperCaseTies` | personalityrag/update_manifest.py:156 | a valid tag with an upper-case letter ties with its lower-case form, which the standard puts after it |
| `Versions.ForeignDigitsTie` | personalityrag/update_manifest.py:77-80 | a tag ties with the tag that has the same digits in ASCII, which is another one exactly if some digit of its numbers is outside ASCII |
| `Versions.ForeignTag` | personalityrag/update_manifest.py:77-80 | such a tag is accepted: 1 followed by an Arabic zero ties with 10 |
| `Versions.AgreementIsExact` | personalityrag/update_manifest.py:146-169 | the lower-case tags are exactly those that compare with every lower-case tag as the standard says |

## Left out

- StorageLayout.Layout.Prepare: trees are followed up to the migration itself; what the application or an older version writes through a redirect afterwards is not modelled.
- Packages.ExtractFiles: files are written in the order of the declaration instead of sorted; the outcome does not depend on it.
- Packages.Extract: file names are compared exactly; on a file system that ignores case, names that differ only in case are one file.
- Packages.WritePackage: the sorted order of the names is given, and compression, encryption and the size of the archive on the disk are parameters or left out.
- Providers.CopyOf: how Python prints a display name that is neither text nor a whole number.
- Providers.Store.Restore: the checks of `validate_provider_config` on ranges and known types are not modelled.
- Providers.Store.UpdateProvider: the merge of the requested changes into a configuration is done by the caller; bindings and manifests of index generations, and time stamps, are not modelled.
- Adapters.Store.Register: identifiers and the adapter type are taken as already normalised.
- JobPages.ListPage: a cursor is the offset it encodes, and a page that is invalid by its limit or cursor is refused before; what a listing shows while a write is lost, or when jobs change between the reading of the rows and the overlay, is told for `JobStore.Store.List` only.
- Quotas.Lanes.Arrive: I/O and provider slots have the same form, and one of them is modelled.
- Cancellation of asyncio tasks at arbitrary awaits, in the job engine and in the pool.
- Leases of database runtimes around short jobs, apart from one that cannot be taken.
- Captured database states, completion futures, event subscribers, log lines, most message texts of jobs, and the error texts of interruptions and of rollbacks that failed; the search for an active job of the same kind; `clear_finished`; the 90-second waits of `close`.
- The cleanup after completion (`finalize_completed`) and before cancellation (`cancel_queued`).
- The scheduling of the pool's reaper task and the registry of pools.
- SQLite, ZIP, AES, SHA-256 and JSON themselves; the repositories and library types, which appear as the rows they read.
- HTTP, the web interface, configuration merging, launchers and update installation.
