/** One run as a state machine: what each operation of the runtime service does to the persisted
    snapshot, the event log and the checkpoints of the run. */
module RunMachine {
  import opened Common
  import opened JsonValues
  import opened Lists
  import opened Models
  import opened Workflow
  import opened Reducer
  import opened Events

  /** Everything stored about one run, and the next unused identifier. */
  datatype View = View(snap: Snapshot, log: seq<Event>, saved: seq<(Checkpoint, Payload)>, nextId: nat) {
    function Run(): Id { snap.run.runId }
  }

  /** `raised` is an exception that leaves the operation; the view is what stays stored. */
  datatype Stepped = Stepped(view: View, raised: bool)

  /* ---- The environment ---- */

  datatype NodeResult = NodeResult(
    status: NodeStatus, artifact: Option<ArtifactRecord>, output: Option<Json>, interrupts: seq<InterruptRecord>,
    decisions: seq<PolicyDecision>, sideEffects: seq<SideEffect>, error: Option<nat>)

  /** An execution emits some external events, uses some identifiers, and returns or raises. */
  datatype Outcome = Outcome(result: Option<NodeResult>, emitted: nat, nextId: nat)

  /** The executor, the input selection and the clock, as functions of all they can observe. Since
      identifiers never repeat, no two calls see the same arguments. */
  datatype Env = Env(
    canExecute: (Snapshot, NodeId) -> bool,
    selectsInput: (Snapshot, NodeId) -> bool,
    execute: (Snapshot, NodeId, nat) -> Outcome,
    clock: nat -> int)

  ghost predicate FreshIds(ids: seq<Id>, low: nat, high: nat) {
    Unique(ids) && forall x | x in ids :: low <= x.serial < high
  }

  /** Interrupts come only with waiting or blocking, and blocking never without one. */
  ghost predicate HonestStatus(r: NodeResult) {
    && (r.interrupts != [] ==> r.status.Waiting? || r.status.Blocked?)
    && (r.status.Blocked? ==> r.interrupts != [])
  }

  /** Records are new, belong to the run, and interrupts to the node. */
  ghost predicate HonestRecords(s: Snapshot, n: NodeId, r: NodeResult, low: nat, high: nat) {
    && (forall i | i in r.interrupts ::
          i.nodeId == Some(n) && i.runId == s.run.runId && i.threadId == s.run.threadId && i.status == Open)
    && (r.artifact.Some? ==> r.artifact.value.runId == s.run.runId && r.artifact.value.threadId == s.run.threadId
                             && low <= r.artifact.value.artifactId.serial < high)
    && (forall d | d in r.decisions :: d.runId == s.run.runId)
    && (forall e | e in r.sideEffects :: e.runId == s.run.runId)
    && FreshIds(seq(|r.interrupts|, i requires 0 <= i < |r.interrupts| => r.interrupts[i].interruptId), low, high)
    && FreshIds(seq(|r.decisions|, i requires 0 <= i < |r.decisions| => r.decisions[i].decisionId), low, high)
    && FreshIds(seq(|r.sideEffects|, i requires 0 <= i < |r.sideEffects| => r.sideEffects[i].sideEffectId), low, high)
  }

  ghost predicate HonestResult(s: Snapshot, n: NodeId, r: NodeResult, low: nat, high: nat) {
    && !r.status.Pending? && !r.status.Ready? && !r.status.Running?
    && HonestStatus(r) && HonestRecords(s, n, r, low, high)
  }

  /** The contract of node executors. */
  ghost predicate Honest(env: Env) {
    forall s, n, low: nat ::
      var o := env.execute(s, n, low);
      low <= o.nextId && (o.result.Some? ==> HonestResult(s, n, o.result.value, low, o.nextId))
  }

  /* ---- Events and checkpoints ---- */

  function Drafts(s: Snapshot, kinds: seq<EventKind>): (r: seq<EventDraft>)
    ensures |r| == |kinds|
    ensures forall i :: 0 <= i < |r| ==> r[i] == EventDraft(kinds[i], s.run.threadId, Some(s.run.runId))
  {
    seq(|kinds|, i requires 0 <= i < |kinds| =>
      EventDraft(kinds[i], s.run.threadId, Some(s.run.runId)))
  }

  /** Events of other emitters reach the log, not the snapshot. */
  function Emit(v: View, kinds: seq<EventKind>): View {
    v.(log := v.log + Materialize(Drafts(v.snap, kinds), NextSequence(v.log), v.nextId),
       nextId := v.nextId + |kinds|)
  }

  function AppendEvents(v: View, kinds: seq<EventKind>): View {
    if kinds == [] then v
    else
      var w := Emit(v, kinds);
      w.(snap := w.snap.(runState := w.snap.runState.(
           lastEvent := LatestId(w.log), version := w.snap.runState.version + 1)))
  }

  function CheckpointOf(env: Env, v: View): Checkpoint {
    Checkpoint(Id(v.nextId), v.snap.run.threadId, v.Run(),
               if v.log == [] then 0 else v.log[|v.log| - 1].sequenceNo,
               env.clock(v.nextId), v.snap.runState.frontier, LatestId(v.log))
  }

  function SaveCheckpoint(env: Env, v: View): View {
    v.(saved := v.saved + [(CheckpointOf(env, v), PayloadOf(v.snap, LatestId(v.log)))],
       nextId := v.nextId + 1,
       snap := v.snap.(thread := v.snap.thread.(
         latestCheckpoint := Some(Id(v.nextId)), version := v.snap.thread.version + 1)))
  }

  /** Patch, persist, log, checkpoint: the pattern of every operation. `base` is the snapshot the
      operation holds in memory, which need not be the persisted one. */
  function Commit(env: Env, v: View, base: Snapshot, p: StatePatch, kinds: seq<EventKind>): Stepped {
    match Apply(base, p)
    case Err(_) => Stepped(v, true)
    case Ok(s) => Stepped(SaveCheckpoint(env, AppendEvents(v.(snap := s), kinds)), false)
  }

  /* ---- Patches ---- */

  function FrontierPatch(nodes: seq<NodeId>): StatePatch {
    NO_PATCH.(runState := NO_RUN_STATE.(frontier := Some(nodes)))
  }

  function StartPatch(s: Snapshot, n: NodeId): StatePatch
    requires n in s.nodes
  {
    NO_PATCH.(
      runState := NO_RUN_STATE.(active := Some(MergeUnique(s.runState.active, [n])),
                                frontier := Some(Without(s.runState.frontier, {n}))),
      nodes := map[n := NodeUpdate(Some(Running), Some(s.nodes[n].attempt + 1), Some(true), None)])
  }

  function Relist(xs: seq<NodeId>, n: NodeId, add: bool): seq<NodeId> {
    Dedupe(if add then Without(xs, {n}) + [n] else Without(xs, {n}))
  }

  /** An output becomes an artifact when the node binds it; an artifact of the executor goes first. */
  function ResultArtifacts(s: Snapshot, wf: Compiled, n: NodeId, r: NodeResult, nextId: nat): seq<ArtifactRecord> {
    if r.artifact.Some? then [r.artifact.value]
    else if r.output.Some? && n in wf.specs && wf.specs[n].binds then
      [ArtifactRecord(Id(nextId), s.run.runId, s.run.threadId, n, r.output.value)]
    else []
  }

  function ResultPatch(s: Snapshot, wf: Compiled, n: NodeId, r: NodeResult, nextId: nat): StatePatch {
    NO_PATCH.(
      runState := NO_RUN_STATE.(
        active := Some(Without(s.runState.active, {n})),
        completed := Some(Relist(s.runState.completed, n, r.status == Succeeded)),
        failed := Some(Relist(s.runState.failed, n, r.status == Failed)),
        waiting := Some(Relist(s.runState.waiting, n, r.status == Waiting)),
        blocked := Some(Relist(s.runState.blocked, n, r.status == Blocked))),
      nodes := map[n := NodeUpdate(Some(r.status), None, None, Some(r.error))],
      artifacts := ResultArtifacts(s, wf, n, r, nextId),
      interrupts := r.interrupts,
      decisions := r.decisions,
      sideEffects := r.sideEffects)
  }

  const RELEASE_THREAD := ThreadUpdate(None, Some(None), None)
  const RELEASE_THREAD_STATE := ThreadStateUpdate(Some(ThreadActive), Some(None))

  function EndPatch(status: RunStatus, failure: Option<Option<FailureCode>>): StatePatch {
    NO_PATCH.(
      thread := RELEASE_THREAD, threadState := RELEASE_THREAD_STATE, run := RunUpdate(Some(status), failure),
      runState := NO_RUN_STATE.(status := Some(status), frontier := Some([]), active := Some([])))
  }

  function PausePatch(status: RunStatus): StatePatch {
    NO_PATCH.(
      thread := ThreadUpdate(Some(ThreadPaused), None, None), threadState := ThreadStateUpdate(Some(ThreadPaused), None),
      run := RunUpdate(Some(status), None),
      runState := NO_RUN_STATE.(status := Some(status), frontier := Some([])))
  }

  /** The nodes of a list of interrupts, in the order of the list. */
  function Holders(interrupts: map<Id, InterruptRecord>, ids: seq<Id>): seq<NodeId> {
    if ids == [] then []
    else
      var rest := Holders(interrupts, ids[1..]);
      if ids[0] in interrupts && interrupts[ids[0]].nodeId.Some? then [interrupts[ids[0]].nodeId.value] + rest
      else rest
  }

  const RESOLVE := InterruptUpdate(Some(Resolved), Some(true), Some(true))
  const RELEASE_NODE := NodeUpdate(Some(Ready), None, None, Some(None))

  function Resolutions(ids: seq<Id>): (r: seq<(Id, InterruptUpdate)>)
    ensures |r| == |ids| && forall i :: 0 <= i < |r| ==> r[i] == (ids[i], RESOLVE)
  {
    seq(|ids|, i requires 0 <= i < |ids| => (ids[i], RESOLVE))
  }

  /** Resuming with a payload resolves every pending interrupt and readies the nodes that held them. */
  function ResumePatch(s: Snapshot, ids: seq<Id>): StatePatch {
    var holders := Holders(s.interrupts, ids);
    var lists :=
      if ids == [] then NO_RUN_STATE
      else
        NO_RUN_STATE.(waiting := Some(Without(s.runState.waiting, ToSet(holders))),
                      blocked := Some(Without(s.runState.blocked, ToSet(holders))),
                      frontier := Some(MergeUnique(s.runState.frontier, holders)));
    NO_PATCH.(
      thread := ThreadUpdate(Some(ThreadActive), None, None), threadState := ThreadStateUpdate(Some(ThreadActive), None),
      run := RunUpdate(Some(RunRunning), None),
      runState := lists.(status := Some(RunRunning)),
      nodes := map n | n in ToSet(holders) :: RELEASE_NODE,
      interruptUpdates := Resolutions(ids))
  }

  function ResumeKinds(ids: seq<Id>): (r: seq<EventKind>)
    ensures |r| == |ids| + 1 && r[|ids|] == RunResumed
    ensures forall i :: 0 <= i < |ids| ==> r[i] == InterruptResolved(ids[i])
  {
    seq(|ids|, i requires 0 <= i < |ids| => InterruptResolved(ids[i])) + [RunResumed]
  }

  function CancelPatch(s: Snapshot): StatePatch {
    NO_PATCH.(
      thread := RELEASE_THREAD, threadState := RELEASE_THREAD_STATE, run := RunUpdate(Some(RunCancelled), None),
      runState := NO_RUN_STATE.(status := Some(RunCancelled), frontier := Some([]), active := Some([]),
                                waiting := Some([]), blocked := Some([])),
      nodes := map n | n in s.nodes && !s.nodes[n].status.Terminal() :: NodeUpdate(Some(Cancelled), None, None, None))
  }

  /* ---- Operations ---- */

  function InitialNodes(run: Id, wf: Compiled): (r: seq<NodeState>)
    ensures |r| == |wf.order|
    ensures forall i :: 0 <= i < |r| ==> r[i] == InitialNode(run, wf, wf.order[i])
  {
    seq(|wf.order|, i requires 0 <= i < |wf.order| => InitialNode(run, wf, wf.order[i]))
  }

  function InitialNode(run: Id, wf: Compiled, n: NodeId): NodeState {
    NodeState(run, n, if n == wf.entry then Ready else Pending, 0, false, None, None, [], [], 0)
  }

  function EmptySnapshot(thread: ThreadRecord, threadState: ThreadState, run: Id, wf: Compiled): Snapshot {
    Snapshot(
      thread,
      RunRecord(run, thread.threadId, wf.workflowId, wf.version, wf.entry, RunRunning, None, 0),
      threadState,
      RunState(run, thread.threadId, RunRunning, [wf.entry], [], [], [], [], [], [], [], None, 0),
      map[], map[], map[], map[], map[])
  }

  function InitialPatch(run: Id, wf: Compiled): StatePatch {
    NO_PATCH.(
      thread := ThreadUpdate(Some(ThreadActive), Some(Some(run)), None),
      threadState := ThreadStateUpdate(Some(ThreadActive), Some(Some(run))),
      upserts := InitialNodes(run, wf))
  }

  function InitialKinds(wf: Compiled): seq<EventKind> {
    [RunCreated, RunStarted, NodeReady(wf.entry)]
  }

  /** The run is stored with its entry node ready. `nextId` is unused when the run gets its id. */
  function Begin(env: Env, thread: ThreadRecord, threadState: ThreadState, wf: Compiled, nextId: nat): Stepped {
    var empty := EmptySnapshot(thread, threadState, Id(nextId), wf);
    Commit(env, View(empty, [], [], nextId + 1), empty, InitialPatch(Id(nextId), wf), InitialKinds(wf))
  }

  function MarkFailed(env: Env, v: View, base: Snapshot, code: FailureCode): Stepped {
    Commit(env, v, base, EndPatch(RunFailed, Some(Some(code))), [RunFailure(code)])
  }

  function MarkCompleted(env: Env, v: View): Stepped {
    Commit(env, v, v.snap, EndPatch(RunCompleted, None), [RunDone])
  }

  function MarkInterrupted(env: Env, v: View): Stepped {
    Commit(env, v, v.snap, PausePatch(RunInterrupted), [RunHalted])
  }

  function MarkWaiting(env: Env, v: View): Stepped {
    Commit(env, v, v.snap, PausePatch(RunWaiting), [RunIdle])
  }

  function StartNode(env: Env, v: View, n: NodeId): Stepped
    requires n in v.snap.nodes
  {
    Commit(env, v, v.snap, StartPatch(v.snap, n), [NodeStarted(n)])
  }

  function CreatedKinds(interrupts: seq<InterruptRecord>): (r: seq<EventKind>)
    ensures |r| == |interrupts|
    ensures forall i :: 0 <= i < |r| ==> r[i] == InterruptCreated(interrupts[i].nodeId, interrupts[i].interruptId)
  {
    seq(|interrupts|, i requires 0 <= i < |interrupts| =>
      InterruptCreated(interrupts[i].nodeId, interrupts[i].interruptId))
  }

  function Externals(k: nat): (r: seq<EventKind>)
    ensures |r| == k && forall x | x in r :: x == External
  {
    seq(k, i => External)
  }

  /** What the executor does while it runs: external events and used identifiers. */
  function DuringExecution(v: View, o: Outcome): View {
    Emit(v.(nextId := o.nextId), Externals(o.emitted))
  }

  /** A bound output takes the next identifier for its artifact. */
  function AfterArtifact(s: Snapshot, wf: Compiled, n: NodeId, r: NodeResult, nextId: nat): nat {
    if ResultArtifacts(s, wf, n, r, nextId) != [] && r.artifact == None then nextId + 1 else nextId
  }

  function SettleNode(env: Env, wf: Compiled, v: View, n: NodeId, r: NodeResult): Stepped {
    Commit(env, v.(nextId := AfterArtifact(v.snap, wf, n, r, v.nextId)), v.snap,
           ResultPatch(v.snap, wf, n, r, v.nextId), [NodeReported(n, r.status)] + CreatedKinds(r.interrupts))
  }

  /** Folds a result in. A failure ends the run from the snapshot held since before the last events
      and checkpoint were stored. */
  function FinishNode(env: Env, wf: Compiled, v: View, n: NodeId, r: NodeResult): Stepped {
    var settled := SettleNode(env, wf, v, n, r);
    if !settled.raised && r.status == Failed then
      MarkFailed(env, settled.view, Apply(v.snap, ResultPatch(v.snap, wf, n, r, v.nextId)).value, NodeFailure(r.error))
    else settled
  }

  function ExecuteNode(env: Env, wf: Compiled, v: View, n: NodeId): Stepped
    requires n in v.snap.nodes
  {
    if !env.canExecute(v.snap, n) then MarkFailed(env, v, v.snap, ExecutorNotAvailable)
    else if !env.selectsInput(v.snap, n) then Stepped(v, true)
    else
      var started := StartNode(env, v, n);
      if started.raised || !env.selectsInput(started.view.snap, n) then Stepped(started.view, true)
      else
        var o := env.execute(started.view.snap, n, started.view.nextId);
        var w := DuringExecution(started.view, o);
        if o.result == None then Stepped(w, true) else FinishNode(env, wf, w, n, o.result.value)
  }

  function Resume(env: Env, v: View, withPayload: bool): Stepped {
    var ids := if withPayload then v.snap.runState.pendingInterrupts else [];
    Commit(env, v, v.snap, ResumePatch(v.snap, ids), ResumeKinds(ids))
  }

  function Cancel(env: Env, v: View): Stepped {
    Commit(env, v, v.snap, CancelPatch(v.snap), [RunAborted])
  }

  function Dispatched(v: View, nodes: seq<NodeId>): Stepped {
    match Apply(v.snap, FrontierPatch(nodes))
    case Err(_) => Stepped(v, true)
    case Ok(s) => Stepped(v.(snap := s), false)
  }
}
