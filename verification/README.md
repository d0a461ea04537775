# Verified model of the serial run orchestrator

This project models the part of `opencode_session` that decides what a multi-worker run does next and what it keeps on
disk, and proves what that part guarantees on every input, every graph, every interleaving and every run.

* **Planning** (`dependency_walk.dfy`, `dependency_analysis.dfy`, `blocker_laws.dfy`, `planner.dfy`, `replanning.dfy`):
  the depth-first walk over worker dependencies, the two seeded blocker maps and their propagation, and the planning
  step, on arbitrary graphs. The walk does not find every cycle; the proofs show that seeds and propagation make up for it.
* **Worker lifecycle** (`lifecycle.dfy`, `worker.dfy`, `lifecycle_laws.dfy`, `field_laws.dfy`, `worker_record.dfy`): the
  fourteen states, the eleven transitions with their reducers and what each shows field by field, the accepted-abort
  rule, snapshot replay and the attempt log.
* **Serial execution** (`execution.dfy`, `attempt_laws.dfy`, `executor.dfy`, `serial_loop.dfy`, `serial_laws.dfy`,
  `run_logs.dfy`, `termination.dfy`, `endless_runs.dfy`, `start_failure.dfy`, `attempt_recovery.dfy`, `run_flow.dfy`,
  `start_raises.dfy`): one attempt as a sequence of persisted writes with abort
  commands landing between any two of them, the loop that plans and attempts, recovery of expired attempts, and a whole
  start with its probe, its early return and its error path. How attempts end is chosen by an adversary.
* **Remote mutations** (`remote_journal.dfy`, `outbox.dfy`): the journal inside a run record, and the outbox protocol as a
  step relation over interleaved transactions in which any write may fail and any transaction may die at any point.
* **Created sessions** (`cleanup_recovery.dfy`, `session_conservation.dfy`, `session_losses.dfy`, `creation_steps.dfy`,
  `start_steps.dfy`, `forgotten_session.dfy`): finding, deleting and verifying the sessions created for workers, and
  whole starts, cleanup included, as steps of that protocol.
* **Store** (`run_store.dfy`, `cleanup_fence.dfy`, `storage.dfy`, `storage_laws.dfy`, `run_record.dfy`,
  `run_directory.dfy`): the update fence, the cleanup audit with its compare-and-set, the codec that the compare-and-set
  rests on, and the directory of run files. `run_store.dfy` and `cleanup_fence.dfy` speak of one record, which is stored
  under its own name; `run_directory.dfy` shows when that is so.

`common.dfy` and `json.dfy` hold shared vocabulary. `dafny verify dfyconfig.toml` checks everything.

What the code changes step by step is a method over loops or objects (`Walker`, `WorkerRecord`, `PersistenceBoundary`,
`JournalledRun`, `RemoteMutationRunner`, `Store`, `Directory`, `PersistedWorker`, and the seeding, propagation, planning, recovery and
cleanup loops), proved equal to a specification function; the laws are lemmas about those functions.

## Where the code does less than one might expect

Six statements that a reader could take for granted are false of the code. For each there is a concrete input or run
and an exact condition.

* **The loop need not end.** A timeout that still has retry budget leaves the worker executable without charging the
  budget, so under the continue policy it can be attempted for ever. `EndlessRuns.OneWorkerForEver` is such a run of one
  worker; `EndlessRuns.TerminatesIff` gives the exact condition on the first run. (`docs/ocs/orchestration.md:69-71` says
  that a retry increments `retry_count` and that a timeout retry uses a new session; the timeout path does neither, and
  the model follows the code.)
* **A start can issue an illegal transition.** When creating a later session fails, the flow marks failed the workers that
  were pending in the run it *started* with. A worker that finished meanwhile makes the whole batch illegal.
  `RunFlow.StartThatRaises` is such a start; `RunFlow.StartRaisesIff` shows that nothing else a start issues is ever
  illegal, and exactly when this is. `StartRaises.MayRaiseIff` gives the condition on the recovered run alone.
* **A created session can be forgotten.** The cleanup write replaces the worker's cleanup record. If another process
  applied a creation for that worker after the plan was made, only the journal entry still names its session, and
  finalizing that entry forgets it: `ForgottenSession.OverlappingCleanupForgets`. If the entry is finalized first, the
  cleanup write itself forgets the session: `ForgottenSession.LateCleanupForgets`. `SessionLosses.LosesIff` shows that
  exactly these two kinds of step forget a session, `SessionLosses.CreatedSessionsAreKeptIff` carries that to whole runs,
  and `StartSteps.StartsForgetNothing` shows that starts that follow one another never take either.
* **A deleted run may have had a later update.** Deletion compares contents, so an update committed after the plan that
  leaves the content as it was, as a second save in the same clock second does, goes down with the record:
  `CleanupFence.UnchangedUpdateIsDeletedToo`. `CleanupFence.LateUpdateIsDeletedIff` gives the exact condition, and
  `CleanupFence.DeletedRecordsWereUpToDate` the guarantee when each update raises a stamp.
* **Hydration can raise instead of repairing.** A lifecycle state that is a list or an object, blockers that cannot be put
  into a set, timeout seconds that are an integer beyond the floats, an infinite retry count or limit, and a worker
  without any id all raise. `StorageLaws.SnapshotsThatRaise` has one snapshot for each, and
  `StorageLaws.HydrationRaisesIff` the exact condition.
* **An update need not reach the record it was asked for.** A record is written to the file that its own name field says,
  while it was read, and locked, under the name of the call. In a file that was copied to another name an update is lost
  to that name and lands in the other record (`RunDirectory.MisnamedUpdateIsLost`), a cleanup puts its fence up there
  (`RunDirectory.MisnamedFenceIsMissed`), and a name field that is a path or no text makes every update raise
  (`RunDirectory.UnwritableNamesRaise`). `RunDirectory.UpdateReadsBackIff`, `RunDirectory.FenceHoldsIff` and
  `RunDirectory.UpdateRaisesIff` are the exact conditions; `RunDirectory.UpdatesAreReadBack` shows that no sequence of
  creations, updates that keep the name, and deletions brings such a record about.

## Model

| member | source | states |
|---|---|---|
| DependencyWalk.DependencyOrderAndCycles | opencode_session/worker_dependencies.py:53-78 | the imperative walk over mutable `ordered`, `cycles`, `visited` and `visiting` computes the specified walk, for every graph |
| DependencyWalk.OrderListsEveryWorkerOnce | opencode_session/worker_dependencies.py:53-78 | the order lists each graph worker exactly once and nothing else |
| DependencyWalk.DependenciesComeFirst | opencode_session/worker_dependencies.py:53-78 | each edge has its dependency earlier in the order, unless it is the edge that closes a recorded cycle holding both ends |
| DependencyWalk.SmallerWorkersFirst | opencode_session/worker_dependencies.py:76-78 | a worker stands before a smaller one only if it is reached from that one or a smaller one still |
| DependencyWalk.RecordedCyclesAreSimple | opencode_session/worker_dependencies.py:62-64 | each recorded cycle is a closed path of the graph that repeats no worker |
| DependencyWalk.EveryClosedWalkIsCut | opencode_session/worker_dependencies.py:53-78 | every closed walk, recorded or not, uses the closing edge of some recorded cycle |
| DependencyWalk.CyclesEmptyIffAcyclic | opencode_session/worker_dependencies.py:53-78 | the cycle list is empty iff the graph has no closed walk |
| DependencyAnalysis.InvalidGraphBlockerSeeds | opencode_session/worker_dependencies.py:94-118 | the seeding loops build, per worker, its cycle blockers in cycle order or else its not-runnable dependencies in dependency order |
| DependencyAnalysis.DependencyBlockerSeeds | opencode_session/worker_dependencies.py:121-136 | the loop seeds exactly the missing or failed dependencies of each blockable worker |
| DependencyAnalysis.PropagateBlockerMaps | opencode_session/worker_dependencies.py:139-165 | running both kinds side by side equals propagating each alone, within one round more than there are workers |
| DependencyAnalysis.MergeBlockerMaps | opencode_session/worker_dependencies.py:168-177 | each worker of either map shows the first map's distinct blockers in order and then the second map's new ones in order |
| DependencyAnalysis.ReadyWorkerIds | opencode_session/worker_dependencies.py:81-91 | the loop lists, in id order, exactly the executable unblocked workers whose dependencies are all done |
| DependencyAnalysis.AnalyzeWorkerDependencies | opencode_session/worker_dependencies.py:24-42 | the analysis lists every worker once with dependencies first but for recorded cycles, the ready workers in id order, and the merged blockers of both kinds |
| BlockerLaws.InvalidSeedIff | opencode_session/worker_dependencies.py:94-118 | a worker is seeded invalid iff it is blockable and on a recorded cycle, or waits for a runnable worker without a prompt; it lists exactly its cycles, or else exactly those workers |
| BlockerLaws.DependencySeedIff | opencode_session/worker_dependencies.py:121-136 | a worker is seeded by dependency iff it is blockable and waits for a missing or failed worker, and then lists exactly those |
| BlockerLaws.PropagatedIsLeastClosed | opencode_session/worker_dependencies.py:139-165 | the propagated ids are the least set that holds the seeds and is closed under depending on a blocked worker; seed lists stay |
| BlockerLaws.BlockersNameEarlierRounds | opencode_session/worker_dependencies.py:146-159 | a propagated worker lists exactly its dependencies blocked in earlier rounds, at least one, in dependency order |
| BlockerLaws.ListsKeepOrder | opencode_session/worker_dependencies.py:94-159 | the lists of not-runnable, failed and blocked dependencies keep the order of the dependencies |
| BlockerLaws.AnalyzedBlockers | opencode_session/worker_dependencies.py:24-42 | a worker shows the blockers of the invalid kind, then those of the dependency kind, each once: together exactly the reasons for which seeds and propagation block it |
| BlockerLaws.ExplanationEndsAtSeed | opencode_session/worker_dependencies.py:139-165 | following named blockers from any blocked worker leads to a seed |
| BlockerLaws.BlockedWorkersHaveBlockers | opencode_session/worker_dependencies.py:24-42 | every blocked worker is a prompted blockable one and shows a non-empty list; every seeded or propagated worker is blocked |
| Planner.PlanDependencyOrderedSerialStep | opencode_session/multi_worker_orchestration_phases.py:234-246 | the step selects the ready worker with the least id, or none if none is ready, and blocks each blocked worker exactly once, in id order, for exactly its reasons |
| Planner.BatchIsAllOrNothing | opencode_session/run_persistence.py:49-60 | a batch over distinct workers is written as a whole iff no transition of it is illegal on its own; otherwise nothing is written |
| Planner.PlanIsLegal | opencode_session/multi_worker_orchestration_phases.py:51-59 | the transitions of a plan are legal on the run it was made for |
| Planner.BlockedIff | opencode_session/worker_dependencies.py:94-165 | exactly which blockable workers a plan blocks |
| Planner.UnblockedLeadsToProgress | opencode_session/worker_dependencies.py:24-165 | on any graph, from every unblocked worker a chain of unblocked dependencies leads to one that is ready or being waited for |
| Planner.NoSilentStarvation | opencode_session/worker_dependencies.py:24-165 | when nothing is ready and no prompted worker is active, every prompted queued or retrying worker shows a blocker |
| Planner.SelectedIsReady | opencode_session/worker_dependencies.py:81-91 | a selected worker is executable, unblocked, and has all dependencies done |
| Replanning.PlanningIsIdempotent | opencode_session/multi_worker_orchestration_phases.py:51-59 | after a plan was persisted, planning again blocks nobody, selects the same worker and changes nothing, for every graph |
| Replanning.BlocksNobodyIff | opencode_session/worker_dependencies.py:24-165 | a plan blocks nobody iff every prompted worker that is queued, waits or waits to retry is on no recorded cycle and has only dependencies that are there and done, or are prompted and in one of those states |
| WorkerRecords.WorkerRecord.AppendAttempt | opencode_session/worker_state.py:1772-1780 | an attempt becomes the last one of the log unless its id is listed; nothing else changes |
| WorkerRecords.WorkerRecord.FinalizeAttempt | opencode_session/worker_state.py:1782-1799 | exactly the attempts with the id take what the finalization gives and keep what it leaves open; the log keeps its order and length |
| WorkerRecords.WorkerRecord.RememberSessionForCleanup | opencode_session/worker_state.py:1884-1895 | the cleanup is requested and not done, lists what it listed before and then the session, once, and nothing else of the worker changes |
| WorkerRecords.WorkerRecord.ApplyTransition | opencode_session/worker_state.py:1865-1873 | an illegal transition changes nothing and raises unless it is a stale snapshot; a legal one shows its payload field by field, keeps all other fields and finishes the finalized attempt; the state moves along the table, final states and accepted aborts stay |
| FieldLaws.OfferShows | opencode_session/worker_state.py:1019-1150 | for each payload which fields a legal transition sets, clears, merges or keeps, over an accepted abort too |
| LifecycleLaws.AcceptedAbortIsAbsorbing | opencode_session/worker_state.py:984-1016 | after an accepted abort every sequence of transitions, snapshots included, leaves the worker aborted with the abort accepted |
| LifecycleLaws.AcceptedAbortFreezesWorker | opencode_session/worker_state.py:1004-1016 | results, retries, timeouts and activations then reach its prompt ids and attempt log only, and never lengthen the log |
| Lifecycle.EdgesAre | opencode_session/worker_state.py:1190-1348 | the source and target sets of the transitions make up exactly the spelled-out graph of the states |
| LifecycleLaws.TraceFollowsTable | opencode_session/worker_state.py:1190-1348 | every state change in every sequence of transitions is an edge of that graph or stays within the aborted states |
| LifecycleLaws.FinalStatesAbsorb | opencode_session/worker_state.py:1190-1348 | done and the terminal failed and timeout states are never left, nor is the aborted status |
| LifecycleLaws.SnapshotReplay | opencode_session/worker_state.py:1368-1396 | a builder-made snapshot is replayed field by field iff it is at most one edge ahead or both it and the stored worker are aborted; over another accepted abort only its prompt ids and cleanup pass, merged and replaced; else it is stale and changes nothing |
| LifecycleLaws.AttemptLogGrows | opencode_session/worker_state.py:1761-1799 | attempts numbered from an earlier state keep ids distinct, and no transition drops or reorders an attempt |
| Execution.AbortsOverlay | opencode_session/run_services.py:386-391 | any number of abort commands changes only the abort record, and the state only to aborted from a state that may abort; a worker without a session is never touched |
| Execution.OutcomeStep | opencode_session/worker_attempt_policy.py:87-145 | the decision taken on one state is legal on the state it lands on, even if aborts came between, and ends where its outcome says |
| Execution.AttemptNeverIllegal | opencode_session/worker_execution.py:111-190 | no write of an attempt is illegal whatever aborts are interleaved; the attempt ends in the state and with the budget that its outcome implies, an error is reported iff there was neither a result nor an api or provider failure within the budget (or an abort intervened), and other workers at most gain aborts |
| Executor.PersistenceBoundary.ApplyWorkerTransition | opencode_session/worker_execution.py:77-82 | the write raises exactly for an illegal transition and then keeps the run; otherwise its worker is as offered and every other worker at most gained aborts |
| AttemptLaws.AttemptIsLogged | opencode_session/worker_execution.py:145-181 | an attempt adds to a numbered log exactly one attempt: started and finished by the clock, with its session, status, error, category, result status and message ids; only an abort accepted before it started leaves the log as it was |
| AttemptLaws.OutcomeIsShown | opencode_session/worker_attempt_policy.py:87-145 | unless it was aborted the worker shows the result, the scheduled retry or the failure with its reason and category, the start of its lease, its session, cleanup and message ids |
| Executor.Execute | opencode_session/worker_execution.py:111-190 | for a worker that may start the executor never meets an illegal write and leaves the worker as its event says and the others at most with aborts; the log and the outcome are recorded as above |
| RunLogs.LoopFinishesAttempts | opencode_session/multi_worker_orchestration_phases.py:119-139 | wherever the loop replans every attempt that it started is finished in a numbered log, for all outcomes, policies and interleaved aborts |
| SerialLoop.ExecuteSerialWorkers | opencode_session/multi_worker_orchestration_phases.py:106-139 | the while loop equals iterating one round, for both policies, and tells the error of the earliest attempt that reported one |
| SerialLoop.FirstErrorIsTold | opencode_session/multi_worker_orchestration_phases.py:119-139 | over whole runs the first error is absent iff no attempt reported one, and else is the earliest; under fail-fast the loop stops with it and goes on only without |
| SerialLoop.PlanWriteIsLegal | opencode_session/multi_worker_orchestration_phases.py:51-59 | persisting a plan is legal even on a run that gained aborts since it was planned, and blocks or overlays each worker as planned |
| SerialLoop.RoundHasEffect | opencode_session/multi_worker_orchestration_phases.py:119-139 | one round attempts exactly the selected worker, replans on the run the attempt left, and stops early only under fail-fast or after a failed creation |
| SerialLaws.LoopNeverIllegal | opencode_session/multi_worker_orchestration_phases.py:106-139 | executor and planner never issue an illegal transition, for all outcomes, policies and interleaved aborts |
| SerialLaws.FailFastRecordsBlockers | opencode_session/multi_worker_orchestration_phases.py:127-137 | a run that stopped fast was replanned first: whoever waits for a failed, blocked, aborted, timed out or missing worker is recorded as blocked, or was aborted |
| SerialLaws.RunCompletes | opencode_session/multi_worker_orchestration_phases.py:116-139 | if nobody waited at the start and the loop ends with nothing selected, no prompted worker is queued, waiting or to be retried |
| SerialLaws.DependenciesPrecede | opencode_session/multi_worker_orchestration_phases.py:119-160 | whatever was attempted has all dependencies done then and ever after, and no dependency is attempted after its dependent |
| Termination.TerminationBound | opencode_session/multi_worker_orchestration_phases.py:119-139 | under fail-fast, and under continue without such a timeout, the loop makes at most the sum of one plus the retries left over the executable prompted workers, and then has stopped |
| EndlessRuns.NeverEnds | opencode_session/worker_attempt_policy.py:117-132 | if such a worker can be reached by successes, some environment keeps the continue policy attempting for ever |
| EndlessRuns.OneWorkerForEver | opencode_session/worker_attempt_policy.py:117-132 | a run of one worker that is attempted for ever |
| EndlessRuns.TerminatesIff | opencode_session/worker_attempt_policy.py:117-132 | the continue policy is bounded for all environments iff no worker reachable by successes may time out uncharged; the sum of weights is then a bound |
| StartFailure.MarkPromptedWorkersFailed | opencode_session/run_start_policy.py:14-19 | the loop over the pending workers persists one batch, after which each of them shows the error as its terminal failure or was aborted, and nobody else changed |
| StartFailure.MarkPromptedFailedIff | opencode_session/multi_worker_orchestration_phases.py:162-164 | marking pending workers failed is written iff each worker pending in the stale run can still fail in the run it lands on, and then each has failed or was aborted |
| StartFailure.FreshMarkingIsLegal | opencode_session/multi_worker_orchestration_phases.py:73-81 | it never raises when nothing was attempted in between, whatever aborts landed |
| StartFailure.SettledWorkerMakesMarkingRaise | opencode_session/multi_worker_orchestration_phases.py:102-104 | one worker that reached a final state meanwhile makes it raise |
| StartFailure.CreationFailureAfterSuccessRaises | opencode_session/multi_worker_orchestration_phases.py:69-104 | a run of two independent workers in which this happens |
| AttemptRecovery.LastUnfinishedAttempt | opencode_session/worker_active_attempt_recovery.py:43-53 | scanning backwards finds the last active unfinished attempt |
| AttemptRecovery.RecoverExpiredActiveAttempts | opencode_session/worker_active_attempt_recovery.py:26-62 | the scan names, once and in id order, exactly the workers that wait on an open attempt and whose timeout has passed since the worker's start, or else the attempt's, or that have no start |
| AttemptRecovery.RunningAttemptIsLeased | opencode_session/worker_active_attempt_recovery.py:43-62 | after the executor's active and started writes recovery leaves the attempt alone until its timeout has passed, and times it out from then on |
| AttemptRecovery.RecoveryIsLegal | opencode_session/worker_active_attempt_recovery.py:65-80 | its batch is legal even if aborts land before it is written |
| AttemptRecovery.RecoveryTimesOutExactly | opencode_session/worker_active_attempt_recovery.py:26-92 | exactly those workers time out, with exactly that one attempt finalized when ids are distinct; every other worker is unchanged |
| AttemptRecovery.RecoveryIsIdempotent | opencode_session/worker_active_attempt_recovery.py:26-38 | repeating recovery at the same instant finds nothing, even with aborts in between |
| RunFlow.Start | opencode_session/multi_worker_orchestration_phases.py:198-217 | recovering, planning, skipping, probing, executing and marking in place equals the composed flow, for every probe outcome and policy |
| RunFlow.StartEnds | opencode_session/multi_worker_orchestration_phases.py:69-217 | a start attempts nobody iff nobody is ready or an attempt was overdue under fail-fast; a failed probe or creation marks exactly the workers that could run, by its error; else the loop ran |
| RunFlow.NoErrorMeansClean | opencode_session/multi_worker_execution_outcome.py:33-122 | a start reports no error iff nothing was overdue, nobody was marked, and no attempt reported one |
| RunFlow.StartRaisesIff | opencode_session/multi_worker_orchestration_phases.py:69-104 | of everything a start issues, from recovery to marking, only marking after a failed creation can be illegal, exactly when some worker that could run when the loop began can no longer fail in the run the batch lands on |
| RunFlow.StartThatRaises | opencode_session/multi_worker_orchestration_phases.py:102-104 | a start of two independent workers that raises |
| StartRaises.MayRaiseIff | opencode_session/multi_worker_orchestration_phases.py:69-164 | some course of a start raises iff it goes on after recovery and the recovered run has a worker without a session that successes would get to, other than the one selected first |
| RunFlow.FlowCompletes | opencode_session/multi_worker_orchestration_phases.py:198-217 | a start that stops because nothing is selected, at once or after attempts, leaves no prompted worker queued, waiting or to be retried, if whoever waited before had outlived its lease |
| RemoteJournal.JournalledRun.RecordIntent | opencode_session/remote_journal.py:404-409 | the new entry is the last one of its id, of the record's kind, in intent state and with exactly the record's fields; all items stay in place, also when the field was no list |
| RemoteJournal.JournalledRun.Mark | opencode_session/remote_journal.py:411-457 | the first entry of the id takes the state and the record's fields and keeps all others, and no other item changes; without one an entry is appended or not as the policy says; a record for another id raises |
| RemoteJournal.JournalledRun.Finalize | opencode_session/remote_journal.py:459-468 | exactly the entries of the id are removed, and an empty field disappears |
| RemoteJournal.PendingKeepsOrder | opencode_session/remote_journal.py:459-507 | pending lists and finalized journals keep the order of the journal |
| RemoteJournal.JournalledRun.MarkUncertain | opencode_session/remote_journal.py:479-488 | the first entry of the id turns uncertain and shows the failure; nothing else changes |
| RemoteJournal.JournalledRun.PendingEntries | opencode_session/remote_journal.py:490-507 | exactly the entries of the kind in a requested state: the one its state text names, or, without one, its legacy status |
| RemoteJournal.FinalizeIsIsolated | opencode_session/remote_journal.py:459-468 | finalizing keeps all other entries and all items that are no entries, in order |
| Outbox.RemoteMutationRunner.Execute | opencode_session/remote_journal.py:291-341 | the runner's calls and writes, with any writes failing, are a run of the outbox protocol for that transaction alone; with all writes committed the entry ends uncertain with the failure, succeeded with the intent or the record, applied with the result's record, or removed, as call and result say |
| Outbox.StepKeepsConsistent | opencode_session/remote_journal.py:291-341 | any step of any transaction keeps every transaction consistent with its entry |
| Outbox.NoLostRemoteEffect | opencode_session/remote_journal.py:291-341 | over all interleavings, failed writes and crashes, a call that took effect has a pending entry until the one write that commits its result |
| Outbox.JournalIsHonest | opencode_session/remote_journal.py:305-341 | succeeded or applied entries had their call return, uncertain ones had it raise; a result commits at most once and only after a return |
| Outbox.EntriesMoveForward | opencode_session/remote_journal.py:404-488 | an entry only moves intent to succeeded to applied to removed, succeeded to removed, or intent to uncertain |
| Outbox.RunIsIsolated | opencode_session/remote_journal.py:399-488 | entries that no running transaction owns survive every run unchanged and in order |
| CleanupRecovery.DisposeSessions | opencode_session/disposable_session_lifecycle.py:17-30 | verifies exactly the sessions the server confirmed gone and reports the first complaint first |
| CleanupRecovery.DisposalKeepsOrder | opencode_session/disposable_session_lifecycle.py:17-30 | verified sessions and errors keep the order of the list |
| CleanupRecovery.VerifiedMeansGone | opencode_session/disposable_session_lifecycle.py:32-44 | a session counts as verified iff the server once confirmed it gone: deleted or already missing, and then not readable |
| CleanupRecovery.CleanupCreatedWorkerSessions | opencode_session/worker_cleanup_recovery.py:19-52 | the cleanup record is done iff there was something to delete and each session was confirmed gone; it lists exactly the others, shows the first complaint, and keeps the verified list only when it has more than one or an error remains |
| CleanupRecovery.WantedAfterCleanup | opencode_session/worker_cleanup_recovery.py:27-49 | afterwards a session is still wanted iff it was attempted and never confirmed gone |
| CleanupRecovery.FindRecoverableCreations | opencode_session/worker_session_provisioning.py:329-342 | the loop lists exactly the sessions that succeeded or applied creations for cleanup name, alone or in their list |
| CleanupRecovery.FindRecoverable | opencode_session/worker_cleanup_recovery.py:55-71 | the merged map lists exactly the sessions that a record which is not done lists, or that such a creation names |
| CleanupRecovery.RecoverableExactly | opencode_session/worker_cleanup_recovery.py:55-71 | the map lists exactly the sessions that a record wants or that a succeeded or applied creation for cleanup names |
| CleanupRecovery.PlanCleanup | opencode_session/run_start_core.py:93-101 | a plan attempts exactly the remembered and the recoverable sessions, each once |
| CleanupRecovery.PlanListsOnce | opencode_session/run_start_core.py:150-157 | it lists only workers with something to delete, the remembered sessions first |
| SessionLosses.LosesIff | opencode_session/run_start_core.py:109-132 | a step makes a session unknown before its deletion was verified iff it is a committed cleanup write of its worker, for which it is outside the plan, unverified and in no entry, or a committed finalization of the last entry that holds it when it is neither wanted nor verified |
| SessionLosses.PersistedSuccessIsKept | opencode_session/worker_session_provisioning.py:125-128 | the write that persists a remote success for cleanup makes the session recoverable |
| SessionLosses.CreatedSessionsAreKeptIff | opencode_session/worker_session_provisioning.py:98-145 | from then on it is verified or recoverable in every later state of a run iff the run has no such step |
| SessionConservation.SessionsAreConserved | opencode_session/worker_session_provisioning.py:98-145 | in every run without such a write each session for cleanup is recoverable from its persisted success until its deletion is verified |
| StartSteps.FlowLeads | opencode_session/multi_worker_orchestration_phases.py:198-217 | all that a start writes, from recovery through planning, attempts with their creations, and marking, is a sequence of journal and worker steps that leaves the store with the run of the flow |
| StartSteps.StartsRun | opencode_session/multi_worker_orchestration_phases.py:198-227 | any starts one after another, each flow followed by its cleanup, are such steps, each start executing before it plans and works off its cleanup |
| StartSteps.StartsForgetNothing | opencode_session/multi_worker_orchestration_phases.py:198-227 | at every moment of any such starts, each of which may die anywhere, each session for cleanup whose success was persisted is verified or recoverable |
| SessionConservation.CleanupWorkers | opencode_session/run_start_core.py:109-132 | the cleanup loop takes exactly the listed cleanup steps; without an error every planned session is verified as deleted |
| ForgottenSession.OverlappingCleanupForgets | opencode_session/run_start_core.py:109-132 | a run in which a cleanup write leaves a new session to its entry alone, and finalizing the entry forgets it |
| ForgottenSession.LateCleanupForgets | opencode_session/worker_cleanup_recovery.py:34-49 | a run in which the cleanup write itself forgets the session |
| RunStore.Store.UpdateRun | opencode_session/run_store.py:56-75 | a missing run, a fenced one for anybody but the cleanup, and a raising mutator leave the record as it was; otherwise it becomes what the mutator made of it |
| RunStore.Store.DeleteRun | opencode_session/run_store.py:77-92 | deletion happens iff the record exists and is the expected one |
| RunStore.Store.BeginCleanupAudit | opencode_session/run_cleanup_audit.py:6-9 | begins iff the record is the expected one, which is then fenced and otherwise unchanged |
| RunStore.Store.FinishCleanupAudit | opencode_session/run_cleanup_audit.py:12-23 | commits iff the run exists, attaches the record itself iff the baseline is there and else one that shows the conflict as its last error, and never touches the rest of the run |
| RunStore.Store.DeleteAuditedRun | opencode_session/run_cleanup_audit.py:26-39 | deletes iff the record is the audited one; any other stays, with an audit that shows one more error |
| RunStore.Store.Cleanup | opencode_session/run_cleanup.py:59-102 | undisturbed, a cleanup is refused on an interrupted one unless forced, and deletes iff asked to and nothing failed |
| CleanupFence.NothingCommitsWhileRemoving | opencode_session/run_store.py:56-75 | in every interleaving no ordinary update commits between audit begin and finish |
| CleanupFence.FinishNeverConflicts | opencode_session/run_cleanup_audit.py:12-23 | so finishing never meets a conflict and attaches exactly its record |
| CleanupFence.CrashWhileRemovingFences | opencode_session/run_cleanup.py:65-77 | a cleanup that dies while removing leaves the record as it was, fenced until a cleanup is forced |
| CleanupFence.DeletesIff | opencode_session/run_cleanup.py:177-217 | the record is deleted iff removal had no error, the updates between plan and begin left the plan's content and those after finish the audited content |
| CleanupFence.LateUpdateIsDeletedIff | opencode_session/run_cleanup_audit.py:26-51 | a record is deleted with an update committed after its plan iff it is deleted at all and some update between plan and begin, or after the finish, commits |
| CleanupFence.DeletedRecordsWereUpToDate | opencode_session/run_cleanup_audit.py:26-51 | when every update raises a stamp, a deleted record had no update committed after its plan, in any interleaving |
| CleanupFence.UnchangedUpdateIsDeletedToo | opencode_session/run_cleanup_audit.py:42-51 | a run in which an update after the plan that changes nothing is deleted with the record |
| Storage.PersistedWorker.Migrate | opencode_session/worker_storage_adapter.py:153-209 | the in-place repairs and coercions, list by list, equal one migration of the raw snapshot, and raise iff the lifecycle state or the coercion of some number does |
| StorageLaws.HydratedIsCanonical | opencode_session/worker_storage_adapter.py:212-215 | whatever was persisted, hydration raises or yields all required fields, no unknown one, each valid for its kind |
| StorageLaws.HydratedFields | opencode_session/worker_storage_adapter.py:153-209 | what hydration makes of each field: counts, seconds, policies, lists and ids as their names say, the default of each missing one, and everything else as stored |
| StorageLaws.HydrationRaisesIff | opencode_session/worker_storage_adapter.py:153-270 | exactly which snapshots make hydration raise: by lifecycle state, blockers, timeout seconds, retry count, retry limit or a missing id |
| StorageLaws.SnapshotsThatRaise | opencode_session/worker_field_spec.py:133-158 | one snapshot for each way of raising, and a large float that is repaired |
| StorageLaws.StorageRoundTrip | opencode_session/worker_storage_adapter.py:229-253 | hydrating what was stored for a canonical worker gives it back, whatever snapshot it was stored over |
| StorageLaws.MigrationIsIdempotent | opencode_session/worker_storage_adapter.py:122-162 | migrating twice is migrating once |
| StorageLaws.UnknownFieldsSurvive | opencode_session/worker_storage_adapter.py:229-253 | unknown fields survive any number of update cycles with any changes, and a worker that hydrates once always will |
| StorageLaws.HydrationDerives | opencode_session/worker_storage_adapter.py:69-119 | a snapshot without a known lifecycle state is hydrated to the one state that its status, category, blockers, action and retry budget stand for |
| StorageLaws.LegacyRoundTrip | opencode_session/worker_storage_adapter.py:69-119 | a worker that was stored with its public status and action instead of its state, and whose fields tell the state, is hydrated unchanged |
| RunRecord.NormalizedFieldsRead | opencode_session/run_record.py:192-219 | what normalization makes of each run field, and the default of each missing one |
| RunRecord.LoadedStays | opencode_session/run_record.py:158-172 | normalizing a normalized run, workers included, changes nothing |
| RunRecord.StoredIsReadBack | opencode_session/run_record.py:175-219 | storing a normalized run over any readable file never raises and is read back as that run |
| RunDirectory.Directory.UpdateRun | opencode_session/run_store.py:56-75 | an update that raises changes nothing; any other replaces one file, the one of the record's own name, which then holds the returned run |
| RunDirectory.Directory.CreateRun | opencode_session/run_store.py:32-42 | exactly the valid names without a file are created, as queued runs with the given name, place and server and no workers, and read back |
| RunDirectory.Directory.DeleteRun | opencode_session/run_store.py:77-92 | the file of the name goes iff it exists and holds the expected run |
| RunDirectory.UpdateReadsBackIff | opencode_session/run_store.py:56-135 | an update is read back under the record's own name; under the name it was asked for iff the two agree or nothing changed |
| RunDirectory.UpdateRaisesIff | opencode_session/run_store.py:56-153 | exactly when an update raises: by its name, the file, the fence, the mutator, the normalization or a name field that names no file |
| RunDirectory.FenceHoldsIff | opencode_session/run_store.py:56-75 | a fence stops every ordinary update of the name iff the record is stored under its own name or was fenced before |
| RunDirectory.OperationKeepsNames | opencode_session/run_store.py:32-92 | creating, updating without renaming, and deleting keep every record under its own name and touch no other record |
| RunDirectory.UpdatesAreReadBack | opencode_session/run_store.py:32-92 | from an empty directory through any such operations each update is read back under its name, and its fence holds |
| RunDirectory.MisnamedUpdateIsLost | opencode_session/run_store.py:127-135 | a record copied to another file name on which an update is lost |
| RunDirectory.MisnamedFenceIsMissed | opencode_session/run_store.py:127-135 | and on which the cleanup's fence stops nobody |

## Left out

- HTTP, route planning and capability detection: an attempt's outcome, a created session and a server's answers are parameters that range over everything the code distinguishes.
- Exceptions that the attempt policy does not classify: they propagate like a crash, which the journal and session protocols cover.
- Command line, rendering, exit codes, run summaries and the `updated_at` of a run: presentation, or fields that no decision modelled here reads.
- Removal of worktrees, branches, logs and project metadata: one opaque step between audit begin and finish.
- Texts: blockers are values, not rendered strings; error messages are opaque; stripping, lowering and parsing numbers out of texts are parameters, with the stated laws only where a round trip needs them.
- A file system that fails halfway, or for which two run names are one file: not modelled; which names it can open is a parameter.
- JSON text, numbers that are no numbers, time zones, file locks and leases: identity codec, no NaN values, an integer clock, atomic critical sections, one cleanup process at a time.
- A mutator that sets a run's `schema_version` to an infinite number.
- Equality of JSON values: structural here, while the host language also equates `True`, `1` and `1.0`; a compare-and-set could pass on such a pair.
- Recursion limit of the host language: the walk is modelled without one.
- Optional worker fields that are present but null: the lifecycle model identifies them with absent ones; the storage model keeps them apart.
- Timeout seconds in the lifecycle model: whole seconds; the storage model has fractions.
- Worker ids in the planner: opaque ordered values; every worker carries the id it is stored under, as hydration forces. Only the storage model has a worker that is stored under an empty name.
- Two processes executing the same run: interference during an attempt is limited to abort commands, and lease recovery does not run against a live executor. Journal, session and fence protocols are modelled under full interleaving.
- Hand-made snapshot patches: only patches that the snapshot builder makes; no flow of the repository issues snapshot transitions.
- Execution.Execute: attaching a created session and finalizing its journal entry is one step here; `CreationSteps` and `StartSteps.FlowLeads` take it apart.
- SerialLoop.ExecuteSerialWorkers: observed for any chosen number of rounds, because a run need not end.
- Steering a worker: its remote mutation is covered by the outbox protocol, its run update only remembers a prompt id.
- Single-worker flow, event streaming, watching, diagnostics and live validation.
