# The workflow engine, modelled and verified

This project models the durable workflow engine in `src/core`: the compiler, the frontier scheduler and its
selector, the reducer, the runtime service with its loop, the event log, the checkpoints and the stores. It proves
what the engine is for: that the log and the state never part, that runs end and stop for a stated reason, that the
outcome does not depend on scheduling, and that nothing behind a human gate starts before the gate was approved.

## How the model is built

- **Values.** Threads, runs, nodes, interrupts, artifacts, decisions, side effects, snapshots and patches are
  datatypes (`Models`), definitions and compiled workflows too (`Workflow`). Identifiers are numbered in the order the
  generator hands them out; node names carry their place in the order of names.
- **The reducer** is a function `Apply`, stage by stage, and the loops of `apply` are methods proved to compute it
  (`Reducer`). What one application keeps is in `ReducerFacts`, which versions it raises in `ReducerVersions`, what it
  leaves alone and in which order it links records in `ReducerFrames`, what every field reads afterwards in
  `ReducerReads`, and which patches are accepted in `ReducerAccepts`.
- **Deciding.** `Selector` and `Scheduler` compute readiness and decisions as the code does; `Readiness` and
  `QueueOrder` say what the answers mean, over the edges, artifacts, decisions and interrupts of the snapshot, the names
  of the nodes and the stored frontier. `Compiler` compiles; `CompileFaults` says what is rejected, with which error, and
  what the compiled form holds.
- **One run** is a state machine (`RunMachine`): a `View` holds everything stored about the run, and each operation
  of the runtime service is a function from view to view. `RunInvariant` says what holds of every stored view, and
  `RunOps`, `RunResults`, `RunResume`, `RunLifecycle` and `RunSteps` prove it operation by operation. `RunLoop` is the
  scheduler loop, and `RunHistory` is a run through any list of commands: resumes, cancels, and `Others`, which is
  whatever other runs do in between (they use identifiers, and the thread once the run has ended). `RunEffects`,
  `CommandEffects` and `BatchOrder` spell out, field by field and event by event, what each operation leaves stored.
- **The stores and the service** are classes over mutable fields (`EventStores`, `Emitter`, `CheckpointStores`,
  `StateStores`, `Registry`, `RuntimeServices`). Every method of the service is proved to do to the stored run what
  the run machine does to its view, and to leave the other runs alone. The class invariant `Valid` says that each
  stored run *is* a history (`RunLedger`), so the theorems about histories hold of every run in every state that any
  sequence of calls can reach (`StoreTheorems`).
- **The environment.** The node executor is an arbitrary function of all it can observe, limited only by the contract
  `Honest`; it may raise, emit events of its own and use identifiers. Whether an executor exists, whether the input
  of a node can be selected and what the clock says are arbitrary functions as well. `ContractLimits` and
  `BlockedLoops` show what the two kinds of result that break the contract do: a run that can never be resumed, and a
  loop that never ends. `Samples` gives environments and a workflow that meet the hypotheses of the main theorems.

The executor is handed the stored snapshot and the next identifier. Since identifiers never repeat, no two calls see
the same arguments, so a function of them is as free as an arbitrary environment.

## What the code does that one might not expect

- A version does not always name one content. A failure mark made after a node failed is computed from a snapshot two
  writes old: the thread record and the run state are both stored a second time, with other contents, under the
  versions they already had. This happens exactly when a node fails (`WriteVersions.ReusedExactlyOnFailure`); every
  other commit raises the version of all it changes (`WriteVersions.CommitWritesRaise`), and versions never go back.
- A single append that is refused for its number stays in the id index (`EventStores.AppendKeepsInStepIff`); a
  refused batch leaves nothing behind.
- A thread's record and its state carry the same status in every history as long as a run is live. The next command
  parts the two exactly when it cancels the run while it waits or is interrupted: the record stays paused, the state
  becomes active (`ThreadStatuses.StatusesPartExactly`).
- An executor that succeeds and opens an interrupt is believed; the interrupted run can then never be resumed with a
  payload (`ContractLimits.SuccessWithInterruptCannotResume`). One that blocks without opening an interrupt is started
  again in every round of a loop that never ends, exactly if the node's dependencies are met
  (`BlockedLoops.BlockingSpinsExactly`).
- The latest version of a workflow cannot be looked up when one version is written in numbers and another is not
  (`Registry.WorkflowProvider.GetDefinition`).
- A page with a negative limit leaves off the end of the stream (`EventStores.NegativeLimitDropsLast`).
- A workflow whose terminal conditions are only of the kinds that succeeding nodes cannot meet ends with
  `NO_PROGRESS` although every node succeeded (`Liveness.RunsToTheEnd`).
- Deep merge is not associative in general; `JsonValues.MergeAssociativeIff` gives the exact condition.

## Model

| member | source | states |
|---|---|---|
| JsonValues.ExtractPath | src/core/state/selectors.py:29-43 | the cursor loop reads a nested tree or raises exactly when a segment is missing |
| JsonValues.ExtractIff | src/core/state/selectors.py:29-43 | a path reads a value exactly when dicts lead to it, one for each segment |
| JsonValues.DeepMerge | src/core/state/selectors.py:46-53 | the recursive merging loop computes the merge whose reads the next rows describe |
| JsonValues.MergeReadsIncoming | src/core/state/selectors.py:46-53 | a path ending at a non-dict of the incoming tree reads that value |
| JsonValues.MergeReadsBase | src/core/state/selectors.py:46-53 | a path the incoming tree does not touch reads the base, present or absent alike |
| JsonValues.MergeReadsBoth | src/core/state/selectors.py:46-53 | every other path reads the merge of the two subtrees there |
| JsonValues.MergeIdentity | src/core/state/selectors.py:98-104 | the empty tree is the identity on both sides |
| JsonValues.MergeIdempotent | src/core/state/selectors.py:46-53 | merging a tree with itself changes nothing |
| JsonValues.MergeAssociativeIff | src/core/state/selectors.py:98-104 | folding is associative exactly when no leaf of the middle tree hides what the first would add to the last |
| Compiler.CycleSearch.Visit | src/core/workflow/compiler.py:164-179 | the visiting/visited search terminates; a true answer comes with a cycle, a false one finishes the node after all it leads to |
| Compiler.EdgeLowersRank | src/core/workflow/compiler.py:164-179 | after a false answer every edge leads to an earlier place in the finishing order |
| Compiler.ContainsCycle | src/core/workflow/compiler.py:159-181 | the answer is true exactly when the edge relation has a directed cycle |
| Compiler.CompileDefinition | src/core/workflow/compiler.py:43-72 | the loops compute the compiled form or the first error; the next rows say over the definition which |
| CompileFaults.CompileSucceedsIff | src/core/workflow/compiler.py:43-157 | compiling succeeds exactly when edges and terminal conditions name known nodes, no merge node lacks an edge into it, no gate an approval policy, no quorum exceeds the edges there are, and cycles are allowed and have a terminal condition; each fault gives its own error, the first one first |
| CompileFaults.CompiledCarries | src/core/workflow/compiler.py:43-72 | the compiled form holds every node of the definition in order, and for each node the edges into it and out of it, each once and in their order |
| Compiler.CompileIsWellCompiled | src/core/workflow/compiler.py:92-157 | both indexes list the same edges, quorums can be reached, cycles come only with permission and terminal conditions |
| Compiler.WorkflowCompiler.Run | src/core/workflow/compiler.py:32-41 | a cached result is returned whatever the definition says now; a success is cached |
| Compiler.WorkflowCompiler.Invalidate | src/core/workflow/compiler.py:78-87 | exactly the named version, or every version, leaves the cache |
| Registry.WorkflowProvider.GetDefinition | src/core/workflow/registry.py:10-36 | the version asked for, or one that no other exceeds; a type error exactly when none is asked for and two versions do not compare |
| Selector.CheckDependencies | src/core/state/selectors.py:229-267 | the loop over the incoming edges decides the join over the sources whose conditions hold; the next rows say what that asks |
| Readiness.ConditionIff | src/core/state/selectors.py:269-306 | an edge condition holds exactly when it is absent or always true, when its path leads from the payload of the source's output artifact to some value or to the expected one, or when a decision with the action names the source |
| Readiness.DependenciesIff | src/core/state/selectors.py:229-267 | dependencies are met exactly when the node is the entry and has no incoming edge, or all sources are stored, some edge counts, and of the edges that count all, one, or at least the quorum have a succeeded source, or all an ended one, as the policy says |
| Selector.SelectReadyNodes | src/core/state/selectors.py:108-130 | the loop over the node map computes the selection described next |
| Readiness.SelectionIff | src/core/state/selectors.py:108-130 | selected are exactly the nodes made ready, and those pending or blocked without an open interrupt of their own and with their dependencies met, each once and in the order of the node map |
| Readiness.TerminalIff | src/core/state/selectors.py:132-147 | a run is over exactly when one of its terminal conditions holds, or without any when every node has ended |
| Selector.SatisfiedHasFinishedSource | src/core/state/selectors.py:229-267 | whatever policy and conditions, a satisfied join has a finished source |
| QueueOrder.QueueInTurn | src/core/runtime/scheduler.py:100-112 | the queue holds the same nodes; by priority names rise along it, first in first out it follows the frontier, whose nodes come first, and then the names |
| QueueOrder.DispatchFillsInTurn | src/core/runtime/scheduler.py:48-61 | a dispatch happens exactly when a node may run and a slot is free; it fills the slots as far as there are nodes, in turn, and passes over none that comes before one it takes |
| QueueOrder.DecisionIff | src/core/runtime/scheduler.py:63-98 | each other decision is made exactly in its own state; the wait on the parallelism limit never is |
| Reducer.ApplyPatch | src/core/state/reducers.py:77-273 | the loops over the patch compute the fold of its stages, errors included; the next rows say which patches are accepted and what every field reads afterwards |
| ReducerAccepts.AcceptsIff | src/core/state/reducers.py:57-261 | a patch is accepted exactly when its records are of this run and thread, their ids new and distinct, the nodes and interrupts it updates known, and every updated record one its constructor accepts |
| ReducerAccepts.RefusalIsValueError | src/core/state/reducers.py:57-66 | whatever is wrong with a patch, the error is the same |
| ReducerReads.RecordsTake | src/core/state/reducers.py:88-115 | thread, run and their states take exactly the fields their updates name, and new artifacts join the list of the thread at its end |
| ReducerReads.NodesTake | src/core/state/reducers.py:117-152 | every node takes exactly the fields its update names, over the stored or the last upserted state |
| ReducerReads.OutputIsFirstArtifact | src/core/state/reducers.py:138-152 | a stored node without an output gets the first artifact of the patch that names it as producer, and rises in version, and stays without one exactly if there is none; an output is kept |
| ReducerReads.RecordsCreated | src/core/state/reducers.py:138-261 | artifacts, decisions and side effects are stored as they are, and nothing else is |
| ReducerReads.InterruptsTake | src/core/state/reducers.py:162-233 | stored and created interrupts take exactly the fields their updates name |
| ReducerReads.PendingGrows | src/core/state/reducers.py:162-196 | interrupts opened join the pending ones, and approvals the pending approvals, at the end and in their order |
| ReducerReads.PendingShrinks | src/core/state/reducers.py:198-233 | interrupts closed leave both pending lists, whose other ids keep their order |
| ReducerReads.NodeRisesBy | src/core/state/reducers.py:125-261 | a node rises by one for its update, one for its output and one for each record linked to it |
| ReducerReads.RunStateRisesBy | src/core/state/reducers.py:112-233 | the run state rises by one for its update, one for interrupts opened and one for interrupts updated |
| ReducerFacts.ApplyKeepsSnapshotOk | src/core/state/reducers.py:77-273 | one application keeps every index in agreement with its records: pending ids are the open interrupts, pending approvals the open ones of that kind, back-links name exactly the records, artifacts are listed |
| ReducerFacts.UpsertKeepsIff | src/core/state/reducers.py:117-123 | inserting or replacing a node keeps that agreement exactly when the node is valid and lists the records naming it |
| ReducerFacts.DecisionLinks | src/core/state/reducers.py:235-247 | the decision ids of a node grow by exactly the new decisions naming it, in creation order |
| ReducerFacts.SideEffectLinks | src/core/state/reducers.py:249-261 | the same for side effects |
| ReducerVersions.ApplyRaises | src/core/state/reducers.py:41-54 | one application raises the version of every component it changes; thread, run and both states stay equal unless the patch speaks of them |
| ReducerFrames.ApplyLeavesUnnamed | src/core/state/reducers.py:117-261 | nodes and interrupts that a patch does not name are the same before and after |
| ReducerFrames.ApplyLinksInOrder | src/core/state/reducers.py:235-261 | one application appends to each node's lists exactly the ids of the patch's decisions and side effects naming it, in the order of the patch |
| EventStores.EventStore.Append | src/core/stores/memory_event_store.py:13-26 | accepted exactly when the id is new and the number exceeds the run's last; the id index is written first |
| EventStores.AppendKeepsInStepIff | src/core/stores/memory_event_store.py:17-26 | a single append keeps the two indexes in step exactly when it is accepted or its id was taken |
| EventStores.EventStore.AppendBatch | src/core/stores/memory_event_store.py:28-53 | for batches mixing any runs: all events in order, or an error and both indexes unchanged |
| EventStores.ForeseesFits | src/core/stores/memory_event_store.py:31-50 | the simulated ids and previous numbers accept an event exactly when the store would |
| EventStores.AddAllKeepsInStep | src/core/stores/memory_event_store.py:28-53 | an accepted batch keeps both indexes in step and numbers increasing |
| EventStores.BatchExtendsLogs | src/core/stores/memory_event_store.py:52-53 | an accepted batch extends each run's list by its own events, in their order |
| EventStores.EventStore.ListByRun | src/core/stores/memory_event_store.py:59-74 | the loop returns the page of events above a number, cut at the limit, from the end if it is negative |
| EventStores.PageIsPositions | src/core/stores/memory_event_store.py:59-74 | on a gap-free log the page after k of size m is positions k+1 to k+m |
| EventStores.PagesConcatenate | src/core/stores/memory_event_store.py:59-74 | reading page after page yields the whole stream once |
| Emitter.RuntimeEventEmitter.EmitRunEvents | src/core/events/emitter.py:48-57 | a batch gets the numbers after the last stored one; it is accepted exactly when these exceed what the runs of its drafts have stored, so always for drafts of the run itself |
| Emitter.EmittedGapFree | src/core/events/emitter.py:84-88 | whichever runs emit in between, the i-th stored event of every run keeps number i |
| CheckpointStores.CheckpointStore.Create | src/core/stores/memory_checkpoint_store.py:14-30 | stores under a new id when the records of the payload agree, else changes nothing |
| CheckpointStores.ConsistentIff | src/core/stores/memory_checkpoint_store.py:56-81 | a payload is consistent exactly when its records name one thread and one run, those of the checkpoint |
| CheckpointStores.CheckpointStore.ListForRun | src/core/stores/memory_checkpoint_store.py:42-48 | the run's checkpoints sorted by number and time |
| StoreTheorems.StoredCheckpointsRestore | src/core/stores/memory_checkpoint_store.py:36-54 | in every reachable state a run's listing is in creation order, its latest checkpoint is the last one created, and each restores its own payload |
| StoreTheorems.RestoredLater | src/core/stores/memory_checkpoint_store.py:14-54 | however many calls follow, each of which keeps every run's checkpoints, a checkpoint is restored as it was |
| CheckpointStores.LatestIsLastCreated | src/core/stores/memory_checkpoint_store.py:36-48 | with increasing numbers the latest checkpoint is the last one created, whatever the clock said |
| StateStores.SavedReadsBack | src/core/stores/memory_state_store.py:151-199 | a saved snapshot is read back as it was |
| StateStores.SaveKeepsOthers | src/core/stores/memory_state_store.py:35-149 | saving a run leaves the rows of every other run alone |
| StateStores.PersistSnapshot | src/core/runtime/runtime_service.py:902-917 | the loops save every record of the snapshot and nothing else |
| RunSteps.ExecuteNodeKeeps | src/core/runtime/runtime_service.py:488-598 | executing a node keeps the invariant whatever the executor does, and ends untouched, in execution, or with a result |
| RunSteps.FinishNodeKeeps | src/core/runtime/runtime_service.py:548-598 | folding a result in, and failing the run from the stale snapshot, are never rejected |
| RunEffects.CommitLeaves | src/core/runtime/runtime_service.py:844-900 | a commit leaves the patched snapshot stamped with the last event and the checkpoint, one event for each kind in order, and a checkpoint that holds the snapshot before its own stamp |
| RunEffects.FinishDelivers | src/core/runtime/runtime_service.py:548-693 | a result is stored as reported: status and error, the executor's artifact or else one new artifact carrying a bound output, the output of its producer, interrupts, decisions and side effects, their events, and for a failure the end of the run with its code |
| CommandEffects.ExecutionDelivers | src/core/runtime/runtime_service.py:488-598 | everything an execution can come to, in the order of the code; the executor is given the run with the node in execution and one attempt more |
| CommandEffects.StopLeaves | src/core/runtime/runtime_service.py:717-842 | what completing, pausing and failing a run leave, field by field |
| BatchOrder.BatchStartsInOrder | src/core/runtime/runtime_service.py:457-464 | the log tells the starts of a batch in the order of the dispatch, to its end unless it raises or the run ends |
| RunResume.ResumeKeeps | src/core/runtime/runtime_service.py:255-321 | resuming is never rejected; it resolves what was pending and readies exactly the holders |
| CommandEffects.ResumeObeyed | src/core/runtime/runtime_service.py:243-339 | a resume is accepted exactly while the run waits or is interrupted; with a payload every pending interrupt is resolved and its node made ready without error, queued in the order of the interrupts; without one only statuses change; then the loop runs |
| RunHistory.BeginKeeps | src/core/runtime/runtime_service.py:194-239 | beginning a run is never rejected and leaves it ready for the scheduler |
| CommandEffects.StartRuns | src/core/runtime/runtime_service.py:176-240 | a new run is stored with its entry ready and on the frontier and every other node pending, tells its first three events, and is the loop from there |
| RunHistory.CancelRunKeeps | src/core/runtime/runtime_service.py:341-394 | cancelling a live run is never rejected, cancels what had not finished and frees the thread, even with a node left in execution |
| CommandEffects.CancelObeyed | src/core/runtime/runtime_service.py:341-394 | a cancel is accepted exactly until the run has ended, and cancels every node that has not ended |
| ThreadStatuses.StatusesPartExactly | src/core/runtime/runtime_service.py:341-394 | in every history a live run's thread is active in both its records if the run runs and paused in both otherwise; the next command parts the two exactly when it cancels a run that waits or is interrupted |
| RunLoop.Loop | src/core/runtime/runtime_service.py:445-486 | the loop ends by a falling count of startable nodes, keeps the invariant and never leaves a run running |
| RunLoop.BlockedIsHeld | src/core/state/selectors.py:121-128 | a blocked node always has an open interrupt, so it is not picked again before a resume |
| RunAttempts.AttemptsAreStarts | src/core/runtime/runtime_service.py:517-525 | in every history a node's attempt is the number of its start events, at most one more than its resolved interrupts |
| RunAttempts.LoopStartsEachNodeOnce | src/core/runtime/runtime_service.py:445-464 | one loop, even over a cyclic workflow, starts only nodes that were ready or pending, each at most once |
| RunStops.LoopNeverRaises | src/core/runtime/runtime_service.py:445-486 | the loop never trips the validation of its own records: it raises only when its environment does |
| RunStops.StopIsExact | src/core/runtime/scheduler.py:53-98 | with nothing in execution the scheduler stops exactly when nothing is ready; the wait on the limit cannot be reached |
| RunStops.LoopStopsExactly | src/core/runtime/runtime_service.py:466-484 | the status a loop leaves says how the run stands: completed only on its condition and without a failed node, no progress only at a deadlock |
| RunTheorems.LogDeterminesState | src/core/runtime/runtime_service.py:844-880 | folding a run's events rebuilds node statuses, open interrupts and run status, at the end and at every checkpoint |
| RunTheorems.CheckpointsFollowTheLog | src/core/runtime/runtime_service.py:856-895 | event numbers are gap-free, checkpoint numbers strictly increase, and the three cursors of a checkpoint agree |
| RunTheorems.RecordsAgree | src/core/state/models.py:264-289 | every stored run state, in a checkpoint taken inside an operation too, satisfies its constructor's checks and its lists name exactly the nodes with their status |
| RunRecords.HistoryOnlyGrows | src/core/runtime/runtime_service.py:844-917 | over every history no event, checkpoint or record is lost, no persisted version goes back, and each node's decisions and side effects stay listed in creation order |
| WriteVersions.CommitWritesRaise | src/core/runtime/runtime_service.py:844-917 | whatever the patch, every write of a commit made from the stored snapshot raises the version of all it changes |
| WriteVersions.ReusedExactlyOnFailure | src/core/runtime/runtime_service.py:548-598 | folding a result in raises every version it writes under exactly when the node did not fail; otherwise the thread record and the run state are stored twice, with different contents, under one version |
| Confluence.BatchIsSound | src/core/runtime/runtime_service.py:457-464 | with unconditional edges each node of a batch is still ready when its turn comes |
| Confluence.DispatchIsSound | src/core/runtime/scheduler.py:51-61 | so every dispatch is a valid sequence of single dispatches |
| Confluence.ExecutesLeastFixpoint | src/core/state/selectors.py:108-130 | with fixed outcomes a loop executes exactly the least set closed under readiness, and the statuses are a function of it |
| Confluence.Confluent | src/core/runtime/scheduler.py:100-112 | neither the parallelism nor the queue policy changes the final node statuses or the run status |
| Liveness.RunsToTheEnd | src/core/runtime/scheduler.py:48-98 | an acyclic workflow with unconditional edges and reachable nodes ends with every node succeeded, and completes exactly when its terminal conditions allow it |
| Liveness.FedHasCycle | src/core/workflow/compiler.py:129-181 | nodes that all wait for one another contain a cycle |
| Approval.HumanGateIsHonest | src/core/executors/basic.py:157-218 | the gate executor meets the contract, raises exactly without a policy, succeeds exactly if no approval is required or one was given, and otherwise waits on one new approval |
| Approval.GateDominates | src/core/executors/basic.py:157-202 | a node behind a required gate on every path starts only after the creation and the later resolution of an interrupt of the gate, in every history |
| ContractLimits.ResumeRaisesExactly | src/core/state/models.py:282-287 | resuming with a payload raises exactly when the holder of a pending interrupt is listed as completed |
| ContractLimits.SuccessWithInterruptCannotResume | src/core/runtime/runtime_service.py:255-321 | whatever a node in execution reports, resuming the run once it is interrupted raises exactly when the node succeeded and opened an interrupt |
| BlockedLoops.BlockingSpinsExactly | src/core/runtime/runtime_service.py:445-464 | when the only ready node blocks without an interrupt, the loop dispatches it for ever exactly if its dependencies are met, starting it once more each round |
| BlockedLoops.BlockedEntrySpins | src/core/state/selectors.py:108-130 | a new run whose entry does so never leaves the loop, unless an edge leads back to the entry |
| RunLedger.OneLiveRunPerThread | src/core/runtime/runtime_service.py:164-210 | in every reachable state a thread names a run exactly while it is live, in both its records, and has one live run at most |
| RunLedger.CommandKeepsLedger | src/core/runtime/runtime_service.py:243-394 | a resume or a cancel keeps every stored run a history, and the rule of one live run |
| RunLedger.StartKeepsLedger | src/core/runtime/runtime_service.py:155-241 | so does starting a run |
| StoreTheorems.StoredLogTellsState | src/core/runtime/runtime_service.py:844-895 | in every reachable state of the stores each run's log tells its state and its checkpoints |
| StoreTheorems.StoredStartsApproved | src/core/executors/basic.py:157-218 | in every reachable state no run has started a gated node without an approval |
| RuntimeServices.RuntimeService.CommitPatch | src/core/runtime/runtime_service.py:844-900 | patch, persist, log and checkpoint do to the stored run what the machine does to its view |
| RuntimeServices.RuntimeService.BuildResultPatch | src/core/runtime/runtime_service.py:628-693 | the list-building code computes the result patch, with a fresh artifact for a bound output; `RunEffects.FinishDelivers` says what it does |
| RuntimeServices.RuntimeService.BuildResumePatch | src/core/runtime/runtime_service.py:254-320 | the loop over the pending interrupts computes the resume patch and its events |
| RuntimeServices.RuntimeService.ExecuteNode | src/core/runtime/runtime_service.py:488-598 | one execution on the stores is one execution of the machine |
| RuntimeServices.RuntimeService.RunSchedulerLoop | src/core/runtime/runtime_service.py:445-486 | the unbounded loop terminates and refines the machine's loop, exceptions included |
| RuntimeServices.RuntimeService.CreateThread | src/core/runtime/runtime_service.py:123-153 | a fresh thread in both its records; every stored run stays a history |
| RuntimeServices.RuntimeService.StartRun | src/core/runtime/runtime_service.py:155-241 | refused exactly, and with the error, for an unknown or busy thread, an unknown version, versions that do not compare, a workflow that does not compile or bindings that do not resolve; otherwise a new run of that workflow that is the history of its start |
| RuntimeServices.RuntimeService.ResumeRun | src/core/runtime/runtime_service.py:243-339 | rejected without a change exactly when the run does not wait, else the machine's resume |
| RuntimeServices.RuntimeService.CancelRun | src/core/runtime/runtime_service.py:341-394 | always succeeds on a stored run and frees the thread of a live one |

## Left out

- Adapters, consoles, command line, file and database repositories, domain packs, tools, memory and evaluation: code around the engine.
- Event payloads, trace contexts, actors, metadata, goals, titles, extensions, budgets and timestamps beyond set or unset: carried along and never branched on here.
- Hints of a result (`next_hints`): a malformed hint raises, which the model counts among the exceptions of an executor; well-formed ones only change extensions.
- Agent bindings: whether they resolve, and which executor they name, are arbitrary answers of the environment (`bindable`, `canExecute`).
- `select_node_input` apart from deep merge and paths: whether it raises is an arbitrary answer of the environment.
- The condition, merge and noop executors and the tool executor: instances of the contract of executors, which is all the proofs use.
- Reducer.ApplyPatch: does not model the fields whose values are dicts (extensions, metadata), which merge key by key, nor updates that name unknown fields, which raise.
- RuntimeServices.RuntimeService.BuildResultPatch: does not model the extension updates that hints of a result make.
- JsonValues.ExtractPath: does not model attribute access on payload values that are not dicts.
- Artifact payloads stored by reference: a payload is always inline.
- Node names and workflow versions as text: only their order, and whether a version is written in numbers, matters and is kept.
- Retry and timeout policies, custom edge and terminal conditions, execution replay: declared by the code and not acted on; custom conditions are false as in the code.
- Patches that set `version` explicitly: the runtime makes none.
- RuntimeServices.RuntimeService.ResumeRun: assumes that nobody invalidates the compile cache, so a run resumes in the workflow it started with.
- RuntimeServices.RuntimeService.ExecuteNode: hands the executor the stored snapshot, where the code hands over the one before the start event and its checkpoint were stamped; as the next identifier tells all calls apart, an executor of the model can still answer anything to any call.
- RunStops.LoopStopsExactly: says nothing of a loop that an exception of the environment left; the run is then still running and can be cancelled.
- Confluence.Confluent: leaves out executors that fail a node, since the first failure ends the run and which comes first does depend on the order.
- Concurrent callers: the service takes no lock, so calls are sequential steps.
- Copying of records: values cannot be shared, so aliasing does not arise.
