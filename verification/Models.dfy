/** The engine's records: threads, runs, nodes, interrupts, and the snapshot the reducer folds. */
module Models {
  import opened Common
  import opened JsonValues
  import opened Lists

  /** Generated identifiers, numbered in the order the generator hands them out. */
  datatype Id = Id(serial: nat)

  /** Node names. The engine compares them and sorts them; `rank` is the place in that order. */
  datatype NodeId = NodeId(rank: int)

  /* ---- Statuses ---- */

  datatype ThreadStatus = ThreadCreated | ThreadActive | ThreadPaused

  datatype RunStatus = RunRunning | RunWaiting | RunInterrupted | RunCompleted | RunFailed | RunCancelled {
    predicate Terminal() { RunCompleted? || RunFailed? || RunCancelled? }
  }

  datatype NodeStatus =
    Pending | Ready | Running | Waiting | Blocked | Succeeded | Failed | Skipped | Cancelled
  {
    predicate Terminal() { Succeeded? || Failed? || Skipped? || Cancelled? }
  }

  datatype InterruptType = ApprovalRequired | MissingInput | SystemPause | PolicyPause | ExternalAsyncWait

  datatype InterruptStatus = Open | Resolved | Withdrawn

  datatype PolicyAction = Allow | Deny | RequireApproval | Redact | Degrade | RetryLater

  datatype FailureCode = ExecutorNotAvailable | NoProgress | NodeFailure(code: Option<nat>)

  /** What the engine raises: a rejected value or a failed lookup. */
  datatype Error = ValueError | KeyError | TypeError

  /* ---- Records ---- */

  datatype ThreadRecord = ThreadRecord(
    threadId: Id, status: ThreadStatus, currentRun: Option<Id>, latestCheckpoint: Option<Id>, version: nat)

  datatype ThreadState = ThreadState(
    threadId: Id, status: ThreadStatus, activeRun: Option<Id>, artifactIds: seq<Id>, version: nat)

  datatype RunRecord = RunRecord(
    runId: Id, threadId: Id, workflowId: Id, workflowVersion: Id, entry: NodeId,
    status: RunStatus, failure: Option<FailureCode>, version: nat)

  datatype RunState = RunState(
    runId: Id, threadId: Id, status: RunStatus,
    frontier: seq<NodeId>, completed: seq<NodeId>, failed: seq<NodeId>,
    waiting: seq<NodeId>, blocked: seq<NodeId>, active: seq<NodeId>,
    pendingInterrupts: seq<Id>, pendingApprovals: seq<Id>,
    lastEvent: Option<Id>, version: nat)
  {
    /** The checks of the constructor. */
    predicate Valid() {
      && Unique(frontier) && Unique(completed) && Unique(failed) && Unique(waiting)
      && Unique(blocked) && Unique(active) && Unique(pendingInterrupts) && Unique(pendingApprovals)
      && (forall n | n in frontier :: n !in completed)
      && (status == RunCompleted ==> frontier == [])
    }
  }

  datatype NodeState = NodeState(
    runId: Id, nodeId: NodeId, status: NodeStatus, attempt: nat, started: bool,
    output: Option<Id>, error: Option<nat>, sideEffectIds: seq<Id>, decisionIds: seq<Id>, version: nat)
  {
    predicate Valid() {
      && Unique(sideEffectIds) && Unique(decisionIds)
      && (status == Running ==> started)
    }
  }

  datatype ArtifactRecord = ArtifactRecord(
    artifactId: Id, runId: Id, threadId: Id, producer: NodeId, payload: Json)

  datatype InterruptRecord = InterruptRecord(
    interruptId: Id, runId: Id, threadId: Id, nodeId: Option<NodeId>, kind: InterruptType,
    status: InterruptStatus, resolvedAt: bool, resolution: bool, version: nat)
  {
    predicate Valid() { status == Resolved ==> resolvedAt }
  }

  datatype PolicyDecision = PolicyDecision(
    decisionId: Id, runId: Id, nodeId: Option<NodeId>, action: PolicyAction)

  datatype SideEffect = SideEffect(sideEffectId: Id, runId: Id, nodeId: NodeId)

  datatype Snapshot = Snapshot(
    thread: ThreadRecord, run: RunRecord, threadState: ThreadState, runState: RunState,
    nodes: map<NodeId, NodeState>, artifacts: map<Id, ArtifactRecord>,
    interrupts: map<Id, InterruptRecord>, decisions: map<Id, PolicyDecision>,
    sideEffects: map<Id, SideEffect>)

  /* ---- Patches: `None` is a field the update leaves out ---- */

  datatype ThreadUpdate = ThreadUpdate(
    status: Option<ThreadStatus>, currentRun: Option<Option<Id>>, latestCheckpoint: Option<Id>)

  datatype ThreadStateUpdate = ThreadStateUpdate(status: Option<ThreadStatus>, activeRun: Option<Option<Id>>)

  datatype RunUpdate = RunUpdate(status: Option<RunStatus>, failure: Option<Option<FailureCode>>)

  datatype RunStateUpdate = RunStateUpdate(
    status: Option<RunStatus>, frontier: Option<seq<NodeId>>, completed: Option<seq<NodeId>>,
    failed: Option<seq<NodeId>>, waiting: Option<seq<NodeId>>, blocked: Option<seq<NodeId>>,
    active: Option<seq<NodeId>>, lastEvent: Option<Id>)

  datatype NodeUpdate = NodeUpdate(
    status: Option<NodeStatus>, attempt: Option<nat>, started: Option<bool>, error: Option<Option<nat>>)

  datatype InterruptUpdate = InterruptUpdate(
    status: Option<InterruptStatus>, resolvedAt: Option<bool>, resolution: Option<bool>)

  const NO_THREAD := ThreadUpdate(None, None, None)
  const NO_THREAD_STATE := ThreadStateUpdate(None, None)
  const NO_RUN := RunUpdate(None, None)
  const NO_RUN_STATE := RunStateUpdate(None, None, None, None, None, None, None, None)

  datatype StatePatch = StatePatch(
    thread: ThreadUpdate, run: RunUpdate, threadState: ThreadStateUpdate, runState: RunStateUpdate,
    upserts: seq<NodeState>, nodes: map<NodeId, NodeUpdate>,
    artifacts: seq<ArtifactRecord>, interrupts: seq<InterruptRecord>,
    interruptUpdates: seq<(Id, InterruptUpdate)>,
    decisions: seq<PolicyDecision>, sideEffects: seq<SideEffect>)

  const NO_PATCH :=
    StatePatch(NO_THREAD, NO_RUN, NO_THREAD_STATE, NO_RUN_STATE, [], map[], [], [], [], [], [])
}
