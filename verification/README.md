# Airflow's two schedulers, modelled in Dafny

This project models the parts of Airflow that decide what runs next and keep track of it: the
executor family (`airflow/executors/`) and the DAG file processing manager
(`airflow/dag_processing/`). Both keep several redundant collections - queues, running sets,
per-key dictionaries, counters - that have to agree over every run while workers, watchers,
timeouts and re-queues interleave with them. The proofs are about exactly that agreement.

How the files fit together:

- `Sequences`, `OrderedMaps`, `StableSort`: duplicate-free sequences, insertion-ordered
  dictionaries, and the stable order in terms of the place each element deserves.
- `BaseExecutor.dfy` (module `Executor`): queueing, priority selection, state changes and the event
  buffer, as a value and as the class `BaseExecutor`.
- `LocalWork`, `LocalLimited`, `LocalShutdown`, `LocalUnlimited`: LocalExecutor. The loops are methods of a class;
  the protocol of executor, workers, queues and poison pills is a step relation over every
  interleaving, and the loops are proved to be runs of it.
- `Celery`, `CeleryProofs`, `CeleryTheorems`, `CeleryScan`, `CeleryAdoption`, `CeleryRuns`,
  `CeleryReports`, `TerminalEvents`, `CeleryExecutor.dfy` (module `CeleryObject`): the state of
  CeleryExecutor with a per-key ledger of what happened, what every run keeps, what is reported for
  each key, the early-exit scan, chunked sending, adoption, when events can be lost, and the class
  whose loops do what the specification says.
- `KubernetesQueues`, `KubernetesExecutor.dfy` (module `KubernetesObject`): join/task_done
  accounting, the re-queueing drain loop, the task batch, adoption of orphaned pods, shutdown.
- `Manager`, `ManagerProofs`, `ManagerSelection`, `ManagerCallbacks`, `ManagerRuns`,
  `DagFileProcessorManager.dfy` (module `ManagerObject`): the steps of the parsing loop, what every
  run of them keeps, what one step does to one file, what one callback can do, runs outside the
  conditions, and the class whose parsing loop is such a run.
- `SlaCheck`: the schedule loop of `manage_slas`.

Time is an integer and the clock does not go back. The broker, result backends, the Kubernetes
API, directory listings, modification times, finished processes and incoming requests are inputs.
Where a property holds only under a condition, the condition is stated exactly, as something that
can be checked before the step, with a run or an input for the failing case:

- After any run the two indexes of live processors agree and nothing has raised, exactly if no file
  vanished while it was in progress; otherwise its waitable stays until collecting it ends the loop
  in an exception (`RunAgreesIff`, `VanishedFileCrashes`, `StaleHandleCrashes`).
- The run limit (runs + queued + in progress) holds for a file in every state of a run exactly if
  each callback for it comes when its runs, plus one if it is in progress, are below the limit -
  whatever files are deleted. Past the limit the comparison for equality no longer holds a file back
  (`RunWithinLimit`, `CallbackOvershoots`).
- Every start respects the re-parse interval if each callback comes when its file is late enough
  already, or is in progress and the interval asks for no wait. A callback at any other time can be
  followed, with no further callback, by a start that comes too early (`EveryStartLateEnough`,
  `CallbackHarmlessIff`, `CallbackStartsEarly`).
- `max_runs_reached` is documented as all file paths having been processed; it looks only at files
  that have stats, so the documented claim holds exactly if every listed file has some
  (`LimitReachedMeansDone`, `LimitReachedTooSoon`); everything is done at that moment exactly if every
  file is within the limit and tracked (`LimitReachedDoneIff`, `LimitReachedWhileQueued`).
- The comment in the stalled-task scan says the timeouts are stored sorted. The scan is right at
  every moment exactly if they are; removals keep that, adoption keeps it exactly if the deadline
  fits at the place the key gets (`ScanAlwaysRightIffSorted`, `AdoptionKeepsSorted`,
  `AdoptionCanHideStalled`).
- A Celery sync raises exactly if the backend left out some task (`SyncRaisesExactly`,
  `SyncCanRaise`), and adoption of a key that is still queued makes it queued and running at once
  unless it had already finished (`AdoptionKeepsApart`, `AdoptionCanDouble`).
- A LocalExecutor command that does not start with `airflow tasks run` raises after its key has
  entered the running set, so the running set ends up empty exactly if no such command is handed
  over (`EndedEmptyIff`, `ClosedEmptyIff`, `ValidCommandsPass`, `RefusedKeyStays`).
- The Kubernetes result loop ends exactly if every result fails only finitely often
  (`DrainEndsIff`, `StuckResultStays`).
- Celery's conservation equation holds exactly if no send published a key that was already running
  and the key is not queued and running at once (`ConservedIff`, `ConservationCanBreak`). A key is
  never both over a run exactly if it is never adopted, unfinished, while it is queued (`ApartIff`).
- Unless one was lost before, queueing a key can lose a terminal event of it exactly if one is
  buffered at that moment; adopting it can exactly if one is buffered or the key is still queued
  (`QueueingLosesIff`, `AdoptingLosesIff`, `AdoptingQueuedLoses`, `EventCanBeLost`).
- Checking SLAs twice records what the later check alone would, with every timetable Airflow has
  (`TimetablesCheckOnce`). For an arbitrary schedule it does so exactly if the later check gets to
  every task in which the earlier one found a miss (`CheckTwiceIsCheckOnce`); a schedule that ends,
  which no timetable here is, would break it (`EndedScheduleHidesMiss`). The loop ends with every
  increasing schedule; a time delta is not checked for being positive, and the loop ends exactly if
  it is or there is nothing to check (`DeltaEndsIff`).

## Model

| member | source | states |
|---|---|---|
| `StableSort.SortPlaces` | airflow/executors/base_executor.py:170-174 | every element of a sorted sequence stands at the place given by how many rank below it and how many equals came before it |
| `StableSort.SortKeepsItems` | airflow/executors/base_executor.py:170-174 | sorting neither loses nor repeats an item |
| `StableSort.PlacesDiffer` | airflow/executors/base_executor.py:170-174 | of two elements the lower rank, or the earlier of equals, has the earlier place; no two share one |
| `Executor.TriggerTakesBest` | airflow/executors/base_executor.py:176-188 | a task is triggered if and only if its place in the stable priority order is below min(open slots, queued), in that order, and the rest stay in insertion order |
| `Executor.HigherPriorityFirst` | airflow/executors/base_executor.py:164-174 | an earlier insertion goes first if and only if its priority is at least the later one's |
| `Executor.SelectedDistinct` | airflow/executors/base_executor.py:184-185 | the tasks triggered are distinct queued keys, exactly min(open slots, queued) of them |
| `Executor.TakeAllTogether` | airflow/executors/base_executor.py:184-188 | moving keys one by one from the queue to the running set equals moving them together |
| `Executor.TriggerKeeps` | airflow/executors/base_executor.py:176-188 | a trigger round keeps queued and running disjoint and adds exactly the batch to the running set |
| `Executor.HeartbeatFills` | airflow/executors/base_executor.py:140-158 | after a heartbeat nothing is queued, or the running set has reached the parallelism; with parallelism zero nothing is queued |
| `Executor.QueueingAccepts` | airflow/executors/base_executor.py:81-85 | a command is accepted if and only if its key is neither queued nor running, and then waits last with its own task |
| `Executor.ApplyKeeps` | airflow/executors/base_executor.py:73-241 | every operation keeps queue and running set disjoint and the running set within a non-zero parallelism |
| `Executor.RunStaysConsistent` | airflow/executors/base_executor.py:60-241 | over every run of queueing, heartbeats, state changes and flushes, the same |
| `Executor.FlushIsSplit` | airflow/executors/base_executor.py:232-241 | any division of the buffer by dag id is exactly the flush: what is returned and what stays partition it |
| `Executor.BaseExecutor.constructor` | airflow/executors/base_executor.py:60-65 | a new executor is empty and consistent |
| `Executor.BaseExecutor.Trigger` | airflow/executors/base_executor.py:176-188 | the loop hands over exactly the best tasks in order, each with its own command, and moves them to the running set |
| `Executor.BaseExecutor.SendAll` | airflow/executors/base_executor.py:184-188 | the loop body over the chosen keys: the unguarded pop always finds its key |
| `Executor.BaseExecutor.Heartbeat` | airflow/executors/base_executor.py:140-158 | a heartbeat triggers for the open slots, all queued tasks if parallelism is zero, in priority order, and keeps the running set disjoint from the queue and within the parallelism |
| `Executor.BaseExecutor.ClearEvents` | airflow/executors/base_executor.py:237-239 | the per-dag loop partitions the buffer by dag id |
| `Executor.BaseExecutor.GetEventBuffer` | airflow/executors/base_executor.py:223-241 | returns and removes exactly the events asked for |
| `LocalWork.WorkerLoopDelivers` | airflow/executors/local_executor.py:175-192 | a worker turns the commands before the first pill into results one for one, in order, settles every item it took, and touches nothing behind the pill |
| `LocalWork.ResultsTold` | airflow/executors/local_executor.py:319-329 | after a batch of results each key that has one is out of the running set and its event is SUCCESS or FAILED as its last one says; nothing else moves |
| `LocalWork.ValidCommandWords` | airflow/executors/base_executor.py:295-298 | a command passes if and only if its first three words are airflow, tasks and run |
| `LocalWork.LocalExecutor.constructor` | airflow/executors/local_executor.py:204-213 | queues, counters and running set start empty |
| `LocalWork.LocalExecutor.ExecuteAsync` | airflow/executors/local_executor.py:358-371 | an invalid command is refused; a valid one is queued, or with unlimited parallelism counted as a process |
| `LocalWork.LocalExecutor.DoWork` | airflow/executors/local_executor.py:175-192 | the worker's loop over the shared queues computes `WorkerLoop` |
| `LocalWork.LocalExecutor.SendPills` | airflow/executors/local_executor.py:333-334 | one pill per worker behind all commands, each counted as unfinished |
| `LocalWork.LocalExecutor.Sync` | airflow/executors/local_executor.py:253-260 | the result queue is emptied in order; each key that has a result leaves the running set and its event is SUCCESS or FAILED as its last one says; the counter falls by one for each in unlimited mode |
| `LocalLimited.StartInv` | airflow/executors/local_executor.py:283-298 | the started executor satisfies the protocol invariant |
| `LocalLimited.WorkerKeepsControl` | airflow/executors/local_executor.py:175-192 | each worker step keeps unfinished equal to queued plus held items, pills sent equal to pills queued plus taken, and commands ahead of pills |
| `LocalLimited.ExecutorKeepsControl` | airflow/executors/local_executor.py:317-338 | each executor step keeps the same |
| `LocalLimited.WorkerKeepsKey` | airflow/executors/local_executor.py:69-88 | each worker step keeps one copy in flight for every key running and not refused, none for others |
| `LocalLimited.StepKeepsInv` | airflow/executors/local_executor.py:175-338 | every step of every process keeps the accounting of items, keys and results |
| `LocalLimited.RunKeepsInv` | airflow/executors/local_executor.py:175-338 | the invariant holds after every interleaving |
| `LocalLimited.EndedDeliversOnce` | airflow/executors/local_executor.py:331-338 | once end() returned, in every interleaving, each submission was executed once, gave one result and one state change; the running set holds precisely the refused keys; queues are empty and every worker took its pill |
| `LocalLimited.RunTells` | airflow/executors/local_executor.py:319-329 | in every interleaving the event buffer says of each key SUCCESS or FAILED as its last state change, and of any other key what it said before |
| `LocalLimited.EndedReports` | airflow/executors/local_executor.py:331-338 | once end() returned, a key submitted once has the event SUCCESS if and only if its worker succeeded and FAILED if and only if it failed; the event of a key never submitted is untouched |
| `LocalShutdown.EndedEmptyIff` | airflow/executors/local_executor.py:358-371 | once end() returned the running set is empty if and only if no command handed over was refused |
| `LocalShutdown.ValidCommandsPass` | airflow/executors/base_executor.py:295-298 | if every command queued at the start or later starts with airflow tasks run, none is refused |
| `LocalShutdown.RefusedKeyStays` | airflow/executors/base_executor.py:184-188 | from any base and with any number of workers, a run to the end after which the key of an invalid command is still running |
| `LocalShutdown.PillsMatchWorkers` | airflow/executors/local_executor.py:331-337 | while join waits, workers yet to take a pill equal pills queued, and no command is behind a pill |
| `LocalShutdown.ShutdownStepShrinks` | airflow/executors/local_executor.py:175-192 | every step after end() is called makes the measure smaller |
| `LocalShutdown.ShutdownNeverStuck` | airflow/executors/local_executor.py:331-338 | until end() has returned some process can always step: no deadlock |
| `LocalShutdown.IdleWorkerLeft` | airflow/executors/local_executor.py:175-192 | while an item is queued and no worker is busy, some worker is waiting for it |
| `LocalShutdown.ShutdownTerminates` | airflow/executors/local_executor.py:331-338 | the measure bounds every interleaving of the shutdown, which can stop if and only if end() has returned |
| `LocalShutdown.ShutdownCompletes` | airflow/executors/local_executor.py:331-338 | from every state of the shutdown some interleaving completes it |
| `LocalShutdown.WorkerLoopIsRun` | airflow/executors/local_executor.py:175-192 | the worker's loop is a run of the protocol that ends with the worker gone |
| `LocalShutdown.SyncLoopIsRun` | airflow/executors/local_executor.py:319-329 | the sync loop is a run of the protocol, one step per result |
| `LocalUnlimited.MoveKeepsInv` | airflow/executors/local_executor.py:231-260 | every move keeps workers_active equal to unreported processes plus unread results, and each key's and result's account |
| `LocalUnlimited.MovesKeepInv` | airflow/executors/local_executor.py:226-269 | the same after every interleaving |
| `LocalUnlimited.ClosedDeliversOnce` | airflow/executors/local_executor.py:262-269 | once end() returned, each submission was executed once and changed state once, one process each; only refused keys are still running |
| `LocalUnlimited.ClosedReports` | airflow/executors/local_executor.py:262-269 | the same in unlimited mode |
| `LocalUnlimited.ClosedEmptyIff` | airflow/executors/local_executor.py:358-371 | once end() returned the running set is empty if and only if no command handed over was refused |
| `LocalUnlimited.ValidCommandsPass` | airflow/executors/base_executor.py:295-298 | if every command queued at the start or later is valid, none is refused |
| `LocalUnlimited.RefusedKeyStays` | airflow/executors/base_executor.py:184-188 | a run to the end after which the key of an invalid command is still running |
| `LocalUnlimited.DrainTerminates` | airflow/executors/local_executor.py:268-269 | every move of the drain makes progress, some move is possible until end() returns, and it returns exactly when nothing is left |
| `CeleryTheorems.CollectionsAgree` | airflow/executors/celery_executor.py:241-478 | in every reachable state keys(tasks) = running, timeouts within running, retry keys within queued with counters in 1..limit+1, no state change met an unknown key, no stalled task is skipped by the early return, and only a key adopted while queued is both queued and running |
| `CeleryTheorems.InstancesConserved` | airflow/executors/celery_executor.py:262-304 | over every run and for every key, acceptances equal terminal transitions, sends that returned nothing, publications while running, and whether it is queued and whether it is running now |
| `CeleryRuns.StepMerges` | airflow/executors/celery_executor.py:293-296 | a step adds a publication while running if and only if it sends a running key with success |
| `CeleryRuns.ConservedIff` | airflow/executors/celery_executor.py:262-304 | acceptances equal terminal transitions plus sends that returned nothing plus one if queued or running now, if and only if no send of the run published the key while it was running and it is not both now |
| `CeleryRuns.ConservationCanBreak` | airflow/executors/celery_executor.py:475-478 | a run after which a key is accepted twice and known once |
| `CeleryRuns.StepApartIff` | airflow/executors/celery_executor.py:475-478 | a step keeps a key from being queued and running at once if and only if it does not adopt it, unfinished by the last answer about it, while it is queued |
| `CeleryRuns.ApartIff` | airflow/executors/celery_executor.py:475-478 | over every run a key is never queued and running at once if and only if it is never adopted, unfinished, while it is queued |
| `CeleryRuns.AdoptAllRuns` | airflow/executors/celery_executor.py:469-478 | after adoption a key runs if and only if the last answer about it does not finish it, or there is none and it was running |
| `CeleryTheorems.TerminalEventsOnce` | airflow/executors/base_executor.py:223-241 | one terminal event per terminal transition; flushes returned each exactly once unless still buffered, for every key not accepted again before its flush |
| `TerminalEvents.QueueingLosesIff` | airflow/executors/base_executor.py:81-85 | unless one was lost before, some continuation of queueing an unknown key, without further acceptance, loses a terminal event of it if and only if one is buffered at that moment |
| `TerminalEvents.AdoptingLosesIff` | airflow/executors/celery_executor.py:469-478 | unless one was lost before, some continuation of adopting a key, running or not, loses a terminal event of it if and only if one is buffered at that moment or the key is still queued |
| `TerminalEvents.AdoptingQueuedLoses` | airflow/executors/celery_executor.py:469-478 | after adopting a queued key the adopted task can finish and the queued copy be sent, which loses the event |
| `TerminalEvents.RunKeepsCalm` | airflow/executors/celery_executor.py:262-304 | without acceptances every run keeps that nothing was overwritten, the key is not both queued and running, and a buffered terminal event means it is neither |
| `TerminalEvents.EventCanBeLost` | airflow/executors/celery_executor.py:298-304 | for every key a run of queueing and sending twice before any flush that loses its first terminal event |
| `CeleryTheorems.SyncRaisesExactly` | airflow/executors/celery_executor.py:380-389 | a sync raises if and only if the backend left out a task, which a key-value or database backend never does |
| `CeleryReports.SyncReports` | airflow/executors/celery_executor.py:380-411 | after a sync in which every task is answered for, a task whose stored id the backend calls SUCCESS has that event and its info and no longer runs; FAILURE and REVOKED give FAILED; STARTED only ends the adoption timeout; anything else changes nothing, except that an overdue adopted task may be failed, and is if the timeouts are sorted |
| `CeleryReports.SyncLeavesOthers` | airflow/executors/celery_executor.py:380-389 | a key that is no task of the executor is untouched by a sync |
| `CeleryReports.TriggerReports` | airflow/executors/celery_executor.py:272-304 | every task picked fares as its own send came out: running under the id it was given with a QUEUED event, or ended as the returned state says, failed, dropped, or still queued with one try used; no other task is touched |
| `CeleryReports.AdoptionReports` | airflow/executors/celery_executor.py:469-478 | after adoption a key has the event of the last answer that finishes it, and runs under the last id asked about, with a deadline counted from when it was queued, unless that answer finishes or has started it |
| `CeleryTheorems.NeverKeyError` | airflow/executors/celery_executor.py:272-289 | no run of any operations ends in a KeyError |
| `CeleryTheorems.TimedOutStep` | airflow/executors/celery_executor.py:272-292 | a timed-out send uses up one try; the last takes the task out of the queue as FAILED, the earlier ones leave it queued |
| `CeleryTheorems.OtherStep` | airflow/executors/celery_executor.py:252-260 | whatever does not send a task leaves its queue place and tries alone |
| `CeleryTheorems.TimeoutStepCases` | airflow/executors/celery_executor.py:252-292 | each step sends a timing-out task once if it picks it and not otherwise, and takes it out of the queue as FAILED exactly on its last try |
| `CeleryTheorems.PublishedExactly` | airflow/executors/celery_executor.py:252-292 | over every run up to its leaving the queue, a task whose sends all time out is published once per round that picks it, at most as often as its tries allow, and has left the queue, as FAILED, if and only if it was published exactly that often: limit + 1 times for a fresh task, once for a negative limit |
| `CeleryProofs.FinishKeeps` | airflow/executors/celery_executor.py:391-394 | a state change of a running key keeps its collections, conservation and event account |
| `CeleryProofs.UpdateKeeps` | airflow/executors/celery_executor.py:396-411 | so does every reported Celery state |
| `CeleryProofs.LaunchKeeps` | airflow/executors/celery_executor.py:293-304 | so does a successful send, even if the task has already finished |
| `CeleryProofs.SettleKeeps` | airflow/executors/celery_executor.py:288-304 | a key that has just left the queue is accounted for again whatever the send came to |
| `CeleryProofs.ProcessKeeps` | airflow/executors/celery_executor.py:272-304 | so does every outcome of a send of a queued task |
| `CeleryProofs.ProcessAllNeverRaises` | airflow/executors/celery_executor.py:288-289 | over a whole round the unguarded pops find their keys |
| `CeleryProofs.TriggerNeverRaises` | airflow/executors/celery_executor.py:241-304 | triggering never raises, whatever the broker answers |
| `CeleryProofs.AdoptKeeps` | airflow/executors/celery_executor.py:469-478 | so does adoption, for the adopted key and for every other |
| `CeleryProofs.QueueKeeps` | airflow/executors/base_executor.py:81-85 | so does queueing |
| `CeleryProofs.FlushKeeps` | airflow/executors/base_executor.py:223-241 | so does a full or per-dag flush |
| `CeleryProofs.SyncKeepsKey` | airflow/executors/celery_executor.py:322-366 | so does a sync, stalled-task clearing included |
| `CeleryProofs.RunKeeps` | airflow/executors/celery_executor.py:241-487 | so does every run of all operations |
| `CeleryScan.ScanFindsExpired` | airflow/executors/celery_executor.py:342-356 | the scan never selects an unexpired key, and finds all expired ones if and only if none stands behind a future deadline |
| `CeleryScan.ScanAlwaysRightIffSorted` | airflow/executors/celery_executor.py:343-347 | the scan equals the full filter at every moment if and only if the timeouts are sorted |
| `CeleryScan.RemovalKeepsSorted` | airflow/executors/celery_executor.py:391-405 | removals keep the timeouts sorted |
| `CeleryScan.AdoptionKeepsSorted` | airflow/executors/celery_executor.py:469-475 | adopting a key, new or already there, keeps them sorted if and only if its deadline fits between those around the place it gets |
| `CeleryScan.AdoptionCanHideStalled` | airflow/executors/celery_executor.py:469-475 | a concrete adoption after which the scan misses an overdue task |
| `CeleryScan.ChunkSize` | airflow/executors/celery_executor.py:232-239 | the chunk size is the least one, at least one, for which the processes suffice |
| `CeleryScan.ChunkingExact` | airflow/executors/celery_executor.py:311-319 | at most min(tasks, processes) chunks, none empty, whose concatenation is the list of tasks |
| `CeleryScan.SendTasks` | airflow/executors/celery_executor.py:306-320 | one result per task, in order, in the main process or through the pool |
| `CeleryAdoption.NotAdoptedExactly` | airflow/executors/celery_executor.py:449-460 | exactly the instances without a Celery id are handed back |
| `CeleryAdoption.LastIdWins` | airflow/executors/celery_executor.py:452-454 | of several instances with one Celery id the last is the one adopted |
| `CeleryAdoption.AdoptionFollowsAnswers` | airflow/executors/celery_executor.py:462-487 | for any instances, ids and keys shared or not: a key is taken in if the backend answered for an id under which it is known, and otherwise nothing about it changes although an instance with an id is never handed back |
| `CeleryAdoption.AdoptionKeepsApart` | airflow/executors/celery_executor.py:475-478 | after adoption a key is not both queued and running if and only if it was not queued or had already finished |
| `CeleryAdoption.AdoptionCanDouble` | airflow/executors/celery_executor.py:475-478 | a concrete adoption of a queued key that makes it queued and running |
| `CeleryAdoption.SyncCanRaise` | airflow/executors/celery_executor.py:386-389 | a reachable state with one running task, and a sync with the same kind of backend that raises in it |
| `CeleryObject.PrepareStates` | airflow/executors/celery_executor.py:560-574 | every id asked for gets an answer, pending if nothing is stored |
| `CeleryObject.PollStates` | airflow/executors/celery_executor.py:586-596 | exactly the ids whose query did not raise get an answer |
| `CeleryObject.FetchStates` | airflow/executors/celery_executor.py:529-538 | the answers of the backend in use |
| `CeleryObject.SplitInstances` | airflow/executors/celery_executor.py:449-456 | instances with a Celery id by id, the last one winning, and the others in order |
| `CeleryObject.DoKeepsAll` | airflow/executors/celery_executor.py:241-487 | every operation keeps the account of every key, and triggering never raises |
| `CeleryObject.CeleryExecutor.constructor` | airflow/executors/celery_executor.py:210-227 | a new executor is empty and every key is accounted for |
| `CeleryObject.CeleryExecutor.Trigger` | airflow/executors/celery_executor.py:241-304 | selection, try marking, chunked sending and the result loop together compute `TriggerSends`, keep every key accounted for, and never raise |
| `CeleryObject.CeleryExecutor.MarkAll` | airflow/executors/celery_executor.py:252-257 | a key picked for the first time starts at try one, the others keep their count |
| `CeleryObject.CeleryExecutor.UpdateAllStates` | airflow/executors/celery_executor.py:380-389 | the loop over a copy of the tasks, stopping at the first missing answer |
| `CeleryObject.CeleryExecutor.FindStalled` | airflow/executors/celery_executor.py:342-356 | the early-exit loop computes the scan whose meaning `ScanFindsExpired` states |
| `CeleryObject.CeleryExecutor.CheckForStalled` | airflow/executors/celery_executor.py:331-366 | exactly the keys found are failed |
| `CeleryObject.CeleryExecutor.Sync` | airflow/executors/celery_executor.py:322-329 | early return, update loop and stalled-task check together compute `SyncStates` and keep every key accounted for |
| `CeleryObject.CeleryExecutor.AdoptInstances` | airflow/executors/celery_executor.py:432-487 | adoption in the order of the answers, what is handed back, and every key still accounted for |
| `KubernetesQueues.JoinWaitsForAll` | airflow/executors/kubernetes_executor.py:540-584 | whatever is put, taken, put back and reported in any order, join returns if and only if nothing is queued and nothing in hand; every loop over the three queues is proved to be such a run |
| `KubernetesQueues.RoundIsRun` | airflow/executors/kubernetes_executor.py:542-558 | a round of any of the loops - take, perhaps put back, report done - is a run of those steps with nothing in hand at either end |
| `KubernetesQueues.AttemptsFall` | airflow/executors/kubernetes_executor.py:540-560 | every round of the drain loop lowers the number of attempts left by one, re-queues included |
| `KubernetesQueues.DrainedInFailureOrder` | airflow/executors/kubernetes_executor.py:540-560 | results are applied in the order of how often each fails, first come first served among equals |
| `KubernetesQueues.DrainedOnce` | airflow/executors/kubernetes_executor.py:540-560 | every queued result is applied exactly once however often it fails first |
| `KubernetesQueues.StuckResultStays` | airflow/executors/kubernetes_executor.py:544-556 | a result that raises every time never leaves the queue, whatever the other results do |
| `KubernetesQueues.FiniteFailuresEnd` | airflow/executors/kubernetes_executor.py:540-560 | if every result fails finitely often the loop has ended after one round per attempt, with exactly the drained results applied |
| `KubernetesQueues.DrainEndsIff` | airflow/executors/kubernetes_executor.py:540-560 | the loop ends after some number of rounds if and only if every result fails only finitely often |
| `KubernetesQueues.ResultsApplied` | airflow/executors/kubernetes_executor.py:624-636 | after these results a key is running if and only if it was and each of them for it says RUNNING; its event is the state of the last one for it |
| `KubernetesQueues.DrainApplies` | airflow/executors/kubernetes_executor.py:540-560 | after the drain a key is running if and only if it was and every queued result for it says RUNNING, however often results fail |
| `KubernetesQueues.RunOneConserves` | airflow/executors/kubernetes_executor.py:566-584 | one attempt at a task neither loses nor doubles it, whatever its outcome |
| `KubernetesQueues.BatchConserves` | airflow/executors/kubernetes_executor.py:565-584 | over a batch each task is launched, refused and failed, still queued, or was the one in hand when an exception escaped |
| `KubernetesQueues.BatchByOutcomes` | airflow/executors/kubernetes_executor.py:565-584 | by the outcomes of its attempts: a batch takes tasks first in first out, those that met an API error having joined the end; those launched are launched; the keys of bad requests, and no others, are failed and no longer running; it ends after the batch size, with an empty queue, or with an exception that is no API error |
| `KubernetesQueues.AdoptPodSplits` | airflow/executors/kubernetes_executor.py:653-681 | adopting a pod keeps awaited keys split between waiting and adopted |
| `KubernetesQueues.AwaitingValid` | airflow/executors/kubernetes_executor.py:641 | the dictionary of awaited pods holds exactly the instances with a job, by key |
| `KubernetesQueues.AdoptionPartitions` | airflow/executors/kubernetes_executor.py:638-681 | for distinct keys, any pods and any patch failures, each instance is handed back once or its key adopted once, never both; those without a job are handed back; nothing else is handed back or enters the running set |
| `KubernetesQueues.AdoptedIff` | airflow/executors/kubernetes_executor.py:653-681 | a key is adopted if and only if it is awaited and some pod carries it and can be patched, with no pod before it that names no key |
| `KubernetesQueues.AdoptionKeepsApart` | airflow/executors/kubernetes_executor.py:678-679 | the running set stays disjoint from the queue if and only if no queued key has an instance with a job and such a pod; what is new in it are the adopted keys that were not running |
| `KubernetesObject.KubernetesExecutor.constructor` | airflow/executors/kubernetes_executor.py:419-429 | empty queues, all accounted for |
| `KubernetesObject.KubernetesExecutor.ExecuteAsync` | airflow/executors/kubernetes_executor.py:496-519 | an invalid executor_config fails the task, otherwise it is queued and reported QUEUED |
| `KubernetesObject.KubernetesExecutor.ForwardWatched` | airflow/executors/kubernetes_executor.py:353-373 | watcher tasks become results in order, up to the first that names no key; the loop is a run of queue steps |
| `KubernetesObject.DrainStep` | airflow/executors/kubernetes_executor.py:542-558 | one round of the drain loop leaves the overall outcome unchanged |
| `KubernetesObject.RaisesWhen` | airflow/executors/kubernetes_executor.py:625-631 | a state change raises if and only if the pod is to be deleted - the state is not RUNNING, deletion is configured, and for FAILED deletion on failure too - and the deletion raises |
| `KubernetesObject.AppliedAtEndExactly` | airflow/executors/kubernetes_executor.py:722-747 | the flush applies exactly the results that do not raise, and the last of them for a key is the last in the queue |
| `KubernetesObject.ForwardedExactly` | airflow/executors/kubernetes_executor.py:366-373 | what is forwarded carries key, state, pod, namespace and version of the watcher task, for all tasks before the first that names no key |
| `KubernetesObject.KubernetesExecutor.DrainOne` | airflow/executors/kubernetes_executor.py:542-558 | one round of the result loop: applied, or put back before it is reported done |
| `KubernetesObject.KubernetesExecutor.DrainResults` | airflow/executors/kubernetes_executor.py:539-560 | given finitely many failures the loop terminates; a key is running afterwards if and only if it was and every queued result for it says RUNNING, its event is the state of the one applied last; the loop is a run of queue steps and yields the last resource version |
| `KubernetesObject.KubernetesExecutor.LaunchBatch` | airflow/executors/kubernetes_executor.py:565-584 | the batch loop is a run of queue steps and does by the outcomes of its attempts what `BatchByOutcomes` says |
| `KubernetesObject.KubernetesExecutor.FlushTasks` | airflow/executors/kubernetes_executor.py:709-720 | the task queue is emptied by a run of queue steps |
| `KubernetesObject.KubernetesExecutor.FlushResults` | airflow/executors/kubernetes_executor.py:722-747 | a key is running afterwards if and only if it was and every queued result for it that does not raise says RUNNING; its event is the state of the last such result; by a run of queue steps |
| `KubernetesObject.KubernetesExecutor.FlushWatcher` | airflow/executors/kubernetes_executor.py:376-385 | the watcher queue is emptied by a run of queue steps |
| `KubernetesObject.KubernetesExecutor.End` | airflow/executors/kubernetes_executor.py:749-767 | after the flushes every join returns at once and every queue is empty, and the queued results that do not raise have been applied |
| `KubernetesObject.KubernetesExecutor.AdoptInstances` | airflow/executors/kubernetes_executor.py:638-652 | the adoption loop computes the partition, and what is handed back |
| `ManagerProofs.CandidatesDistinct` | airflow/dag_processing/manager.py:981-989 | each parsing order is a duplicate-free arrangement of the listed files |
| `ManagerSelection.PrepareQueuesExactly` | airflow/dag_processing/manager.py:944-1020 | a refill queues a file if and only if it is listed, not in progress, has not run just as often as the limit says, and never finished, or finished the interval ago, or - in modified_time mode - was modified since |
| `ManagerSelection.LatestFirst` | airflow/dag_processing/manager.py:981-983 | in modified_time mode the queue has the latest modified first and equals in the order of the listing |
| `ManagerSelection.PrepareKeepsStats` | airflow/dag_processing/manager.py:1014-1018 | files without stats get blank ones, the others keep theirs |
| `ManagerSelection.RefreshExactly` | airflow/dag_processing/manager.py:856-869 | a listing keeps of the queue exactly what it names, stops exactly the processors of files it does not name, drops their stats and no others, and leaves the waitables |
| `ManagerSelection.CollectRecords` | airflow/dag_processing/manager.py:877-898 | a finished processor leaves what it reported, or 0 and -1 without a result, the time, its duration and one run more, and nothing else changes |
| `ManagerSelection.StartRecords` | airflow/dag_processing/manager.py:930-942 | a started processor has the time of its start and all pending requests of its file |
| `ManagerSelection.CallbackFirst` | airflow/dag_processing/manager.py:637-647 | a callback's file is first in the queue, once, and the request last among those pending for it |
| `ManagerSelection.NotReachedWhen` | airflow/dag_processing/manager.py:1085-1094 | the limit is not reported if and only if there is none, the loop is short of it, or some file with stats is |
| `ManagerProofs.StepStructured` | airflow/dag_processing/manager.py:849-1020 | every step keeps at most parallelism processors, one per path, each findable under its handle, and a duplicate-free queue |
| `ManagerProofs.RunStructured` | airflow/dag_processing/manager.py:512-625 | the same after every run, callbacks and deletions included |
| `ManagerProofs.RefreshAgreesIff` | airflow/dag_processing/manager.py:857-869 | a refresh keeps the two indexes in agreement if and only if no file vanishes in progress |
| `ManagerProofs.StepAgrees` | airflow/dag_processing/manager.py:564-574 | every step that deletes no file in progress keeps the indexes in agreement and never raises |
| `ManagerProofs.RunAgreesIff` | airflow/dag_processing/manager.py:564-574 | after every run the two indexes agree and nothing has raised if and only if no file vanished in progress on the way; agreeing indexes name the same processors |
| `ManagerProofs.StepStaysStale` | airflow/dag_processing/manager.py:859-869 | a waitable whose processor was stopped stays through every step |
| `ManagerProofs.VanishedFileCrashes` | airflow/dag_processing/manager.py:857-869 | a file that vanishes in progress leaves its waitable, and collecting it raises |
| `ManagerProofs.StepKeepsCallbacks` | airflow/dag_processing/manager.py:637-647 | every step keeps received requests equal to those handed over plus those pending |
| `ManagerProofs.StartHands` | airflow/dag_processing/manager.py:930-935 | a start hands all that is pending for its file to the processor and leaves every other file alone |
| `ManagerProofs.RunKeepsCallbacks` | airflow/dag_processing/manager.py:923-942 | over every run and for every file, the requests received are the batches handed to its processors in start order followed by the pending ones |
| `ManagerProofs.SkippedCallbackWaits` | airflow/dag_processing/manager.py:926-928 | a request for a file in progress stays pending and its path is queued no more |
| `ManagerProofs.StepWithinLimit` | airflow/dag_processing/manager.py:991-1020 | a step keeps runs + queued + in progress of a file within the limit if and only if it is no callback for the file while runs + in progress have reached it; it keeps queued and running files in the stats if and only if it is no callback for a file without any |
| `ManagerProofs.RefreshWithinLimit` | airflow/dag_processing/manager.py:857-869 | a deletion keeps the bound even for files in progress |
| `ManagerProofs.RunWithinLimit` | airflow/dag_processing/manager.py:877-1020 | over every run, deletions included, runs + queued + in progress stay within the limit in every state passed through if and only if every callback for the file comes while runs + in progress are below it |
| `ManagerProofs.RunTracks` | airflow/dag_processing/manager.py:1014-1020 | if every callback comes for a file with stats, every file queued or in progress has stats |
| `ManagerProofs.LimitReachedMeansDone` | airflow/dag_processing/manager.py:1085-1094 | if every callback comes for a file with stats and below the limit, then when the limit is reported reached nothing is queued or in progress and every file with stats ran exactly that often; all listed files did if and only if all have stats |
| `ManagerProofs.LimitReachedDoneIff` | airflow/dag_processing/manager.py:1085-1094 | when the limit is reported reached, nothing is queued or in progress and every run count equals it, if and only if every file is within the bound and in the stats when queued or in progress |
| `ManagerProofs.CallbackWithinLimitIff` | airflow/dag_processing/manager.py:637-647 | a callback keeps the bound if and only if runs + in progress of its file are below the limit, and keeps the file in the stats if and only if it is there |
| `ManagerProofs.LimitMissesOvershoot` | airflow/dag_processing/manager.py:991-993 | a file past the limit is queued again |
| `ManagerProofs.NewFileNeedsALimit` | airflow/dag_processing/manager.py:1014-1020 | a file that never ran is queued whatever the limit; the bound holds if and only if the limit is at least one |
| `ManagerProofs.StepEligible` | airflow/dag_processing/manager.py:944-1020 | a queued file stays startable through a step if and only if the step is no untimely callback for it |
| `ManagerProofs.EveryStartLateEnough` | airflow/dag_processing/manager.py:923-1020 | if every callback is timely (late enough, or for a file in progress when the interval asks for no wait), every start comes at least the interval after the file's last finish, except in modified_time mode with a later modification, deletions included |
| `ManagerCallbacks.UntimelyStartsEarly` | airflow/dag_processing/manager.py:637-647 | after an untimely callback there is a run without further callbacks that starts its file too early, whether the file is in progress, a slot is free, or none is |
| `ManagerCallbacks.CallbackHarmlessIff` | airflow/dag_processing/manager.py:637-647 | every start after a callback is late enough, whatever follows without further callbacks, if and only if the callback is timely or there is no slot at all |
| `ManagerProofs.FreshIsSound` | airflow/dag_processing/manager.py:399-439 | a new manager satisfies what the theorems start from |
| `ManagerRuns.CallbackStartsEarly` | airflow/dag_processing/manager.py:637-647 | a run from a new manager in which a callback starts a file before the interval is over |
| `ManagerRuns.CallbackOvershoots` | airflow/dag_processing/manager.py:991-993 | a run in which the limit is never reported, a callback takes a file past it while another file has still to run, and the first is queued again |
| `ManagerRuns.LimitReachedTooSoon` | airflow/dag_processing/manager.py:1085-1094 | a run in which the limit is reported reached while a listed file was never processed |
| `ManagerRuns.LimitReachedWhileQueued` | airflow/dag_processing/manager.py:1085-1094 | a run in which callbacks leave one file queued and one in progress when the limit is reported reached |
| `ManagerRuns.StaleHandleCrashes` | airflow/dag_processing/manager.py:564-574 | a run in which a file vanishes in progress, comes back and is started again, and its old handle ends the loop in an exception |
| `ManagerObject.DagFileProcessorManager.constructor` | airflow/dag_processing/manager.py:399-439 | a new manager is empty |
| `ManagerObject.DagFileProcessorManager.AddCallbackToQueue` | airflow/dag_processing/manager.py:637-647 | the request is appended and its file moved to the front of the queue |
| `ManagerObject.DagFileProcessorManager.UpdateFilePaths` | airflow/dag_processing/manager.py:849-869 | the queue is filtered, and processors and stats of vanished files go, their waitables stay |
| `ManagerObject.DagFileProcessorManager.StopVanished` | airflow/dag_processing/manager.py:859-869 | the loop over the processors removes exactly the vanished ones and raises if one had no stats |
| `ManagerObject.DagFileProcessorManager.CollectOne` | airflow/dag_processing/manager.py:564-574 | a ready handle: unknown ones are skipped, known ones recorded and popped |
| `ManagerObject.DagFileProcessorManager.Finish` | airflow/dag_processing/manager.py:877-898 | the recorded stat and the two pops, and that a stopped processor raises instead |
| `ManagerObject.DagFileProcessorManager.CollectReady` | airflow/dag_processing/manager.py:900-910 | every ready handle is collected in order unless one raises; the queue is untouched |
| `ManagerObject.DagFileProcessorManager.WaitForAll` | airflow/dag_processing/manager.py:871-875 | in sync mode every processor is among those collected |
| `ManagerObject.DagFileProcessorManager.CollectLast` | airflow/dag_processing/manager.py:594-603 | the end of a round: what is found ready, stopped processes included, and in sync mode everything in progress, so that unless something raises nothing is left |
| `ManagerObject.DagFileProcessorManager.StartOne` | airflow/dag_processing/manager.py:925-942 | one round of the start loop, skip included |
| `ManagerObject.DagFileProcessorManager.StartNewProcesses` | airflow/dag_processing/manager.py:923-942 | the start loop is a run of start steps, after which nothing is queued or all slots are taken |
| `ManagerObject.DagFileProcessorManager.FindRecent` | airflow/dag_processing/manager.py:959-979 | the loop singles out exactly the files processed too recently |
| `ManagerObject.DagFileProcessorManager.SelectFiles` | airflow/dag_processing/manager.py:981-1003 | which files are queued, in which order |
| `ManagerObject.DagFileProcessorManager.AddStats` | airflow/dag_processing/manager.py:1014-1018 | files without stats get blank ones, the others keep theirs |
| `ManagerObject.DagFileProcessorManager.PrepareFilePathQueue` | airflow/dag_processing/manager.py:944-1020 | selection, stats and queue together compute `PrepareQueue` |
| `ManagerObject.DagFileProcessorManager.CheckMaxRuns` | airflow/dag_processing/manager.py:1085-1094 | true if and only if a limit is set, every file with stats and the loop have reached it |
| `ManagerObject.DagFileProcessorManager.RefillQueue` | airflow/dag_processing/manager.py:583-585 | the queue is refilled if and only if it is empty |
| `ManagerObject.DagFileProcessorManager.TakeIn` | airflow/dag_processing/manager.py:533-577 | unless it crashes, the round takes in its request, its finished processes, its listing and its zombies, each once and in order |
| `ManagerObject.DagFileProcessorManager.RunRound` | airflow/dag_processing/manager.py:530-625 | a round is a run of the steps that deals with all its inputs, fills the slots, in sync mode leaves nothing in progress and passes over a round with nothing ready, and stops exactly on an exception, on a signal to end or an invalid one, or at the run limit |
| `ManagerObject.DagFileProcessorManager.StartUp` | airflow/dag_processing/manager.py:522-528 | listing, first queue, and in async mode full slots |
| `ManagerObject.DagFileProcessorManager.RunParsingLoop` | airflow/dag_processing/manager.py:522-625 | the loop is a run of the steps that takes in every round, stops exactly on an exception, a signal to end or an invalid one, or the run limit, keeps the structure and loses no callback |
| `SlaCheck.MissedIsPrefix` | airflow/dag_processing/processor.py:412-419 | if a scheduled date is missed, so is every earlier one |
| `SlaCheck.CheckRecordsMisses` | airflow/dag_processing/processor.py:412-419 | the loop records exactly the dates d < ts with next(d) + sla < ts, in order, as a prefix of the remaining schedule |
| `SlaCheck.CheckRaisesIff` | airflow/dag_processing/processor.py:412-419 | the loop raises if and only if the schedule ends at a date before ts |
| `SlaCheck.MissesGrow` | airflow/dag_processing/processor.py:400-419 | a later check finds the earlier misses first, then possibly more |
| `SlaCheck.WrittenExactly` | airflow/dag_processing/processor.py:401-419 | a key is recorded if and only if the check gets to a task that missed the date |
| `SlaCheck.TaskRecords` | airflow/dag_processing/processor.py:402-419 | nothing is recorded for a task without SLA or with one of zero, one of the wrong type raises, and otherwise exactly the missed dates of the schedule after its last success are recorded |
| `SlaCheck.WrittenGrows` | airflow/dag_processing/processor.py:400-419 | a later check records all that an earlier one did if it gets to every task with misses the earlier one got to, and for distinct tasks only then |
| `SlaCheck.RaisingAlikeGetsAsFar` | airflow/dag_processing/processor.py:401-419 | that is so if every task that raises later raises at the earlier check too |
| `SlaCheck.CheckTwiceIsCheckOnce` | airflow/dag_processing/processor.py:416-418 | for any increasing schedule, checking at one moment and again later leaves the records the later check alone would, timestamps included, if it gets to every task with misses the earlier one got to; for distinct tasks and an empty table only then |
| `SlaCheck.TimetablesCheckOnce` | airflow/models/dag.py:498-510 | with every timetable there is, checking at one moment and again later leaves the records the later check alone would |
| `SlaCheck.IncreasingEnds` | airflow/dag_processing/processor.py:413-419 | the loop ends with every increasing schedule, after at most ts - date turns |
| `SlaCheck.DeltaEndsIff` | airflow/timetables/schedules.py:184-188 | with a time delta the loop ends if and only if the delta is positive or the date is not before ts |
| `SlaCheck.CheckOne` | airflow/dag_processing/processor.py:412-419 | the schedule loop of one task terminates and merges exactly its misses |
| `SlaCheck.CheckRun` | airflow/dag_processing/processor.py:402-419 | a task without SLA is skipped, one with an SLA of the wrong type raises |
| `SlaCheck.AnySla` | airflow/dag_processing/processor.py:376 | whether any task of the dag has a timedelta for an SLA |
| `SlaCheck.ManageSlas` | airflow/dag_processing/processor.py:376-419 | nothing at all if no task of the dag has a timedelta SLA; otherwise the records of all tasks up to the first that raises, with this timestamp, and the others as they were |

## Left out

- CeleryTheorems.PublishedExactly: how soon a task is picked depends on priorities and slots.
- KubernetesQueues.AdoptionPartitions: assumes distinct keys; a pod whose annotations name no key
  ends the adoption with an exception, after which nothing is handed back.
- KubernetesObject.KubernetesExecutor.DrainResults: for results that fail for ever there is no end
  state to describe; `DrainEndsIff` says so.
- KubernetesObject.KubernetesExecutor.End: the watcher process is stopped before its queue is
  flushed; its concurrent puts appear only in `JoinWaitsForAll`.
- SlaCheck.CheckOne: a schedule that does not increase, such as a time delta of zero, keeps the loop
  from ending (`DeltaEndsIff`), so there is no result to describe.
- SlaCheck.ManageSlas: the records are those merged into the session; whether an exception later
  rolls them back, and the e-mails, are not modelled.
- LocalLimited.EndedDeliversOnce: every command yields SUCCESS or FAILED; worker crashes and a
  closed task queue are not modelled. Tasks are triggered in any order, of which the priority order
  is one.
- ManagerProofs.VanishedFileCrashes: takes it that polling a channel which `terminate` has closed
  raises, as Python's multiprocessing connections do; what is recorded before the exception ends
  the loop is not modelled.
- ManagerObject.DagFileProcessorManager.SelectFiles: the alphabetical order and the seeded shuffle
  are arbitrary rearrangements of the listing, and a listing names each file once.
- ManagerObject.DagFileProcessorManager.RunParsingLoop: the status messages to the agent are not
  modelled.
- One-line methods that only set fields (queueing, state changes, registering a processor) are
  verified against the specification and used by the loops, but have no row: what they keep is
  stated by the lemmas about the specification.
- Killing timed-out parsers and the state of the killed process.
- Exceptions other than those on missing entries and on stopped processors; in the task batch, an
  exception other than an API error ends the batch.
- Sends and state queries running in several processes: only their results and order.
- The configured number of Celery sync processes is taken to be at least one.
- Adoption of completed Kubernetes pods, pending-pod timeouts, pod construction, labels, watch
  streams and resource versions other than the last one seen.
- The dask, sequential, debug and celery-kubernetes executors: routing or simpler use of the same state.
- Fork, subprocesses, signals, the file system, database sessions, zombie queries, e-mail, metrics
  and logging; configuration look-up; unique task ids.
