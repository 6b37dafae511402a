/** What holds of every stored run between operations, and why one committed operation keeps it. */
module RunInvariant {
  import opened Common
  import opened Lists
  import opened Models
  import opened Workflow
  import opened Reducer
  import opened ReducerFacts
  import opened Events
  import opened RunMachine

  /* ---- The snapshot ---- */

  /** A status list names exactly the nodes with that status, once each. */
  ghost predicate ListIs(xs: seq<NodeId>, nodes: map<NodeId, NodeState>, status: NodeStatus) {
    Unique(xs) && forall n :: n in xs <==> n in nodes && nodes[n].status == status
  }

  ghost predicate ListsMatch(r: RunState, nodes: map<NodeId, NodeState>) {
    && ListIs(r.completed, nodes, Succeeded)
    && ListIs(r.failed, nodes, Failed)
    && ListIs(r.waiting, nodes, Waiting)
    && ListIs(r.blocked, nodes, Blocked)
    && ListIs(r.active, nodes, Running)
  }

  ghost predicate ListsAgree(s: Snapshot) {
    ListsMatch(s.runState, s.nodes)
  }

  ghost predicate OpenAt(interrupts: map<Id, InterruptRecord>, n: NodeId) {
    exists i :: i in interrupts && interrupts[i].nodeId == Some(n) && interrupts[i].status == Open
  }

  /** Every interrupt belongs to a node, open ones hold theirs, and a blocked node has an open one. */
  ghost predicate InterruptsHeld(nodes: map<NodeId, NodeState>, interrupts: map<Id, InterruptRecord>, cancelled: bool) {
    && (forall i | i in interrupts ::
          && interrupts[i].nodeId.Some? && interrupts[i].nodeId.value in nodes
          && interrupts[i].status != Withdrawn
          && (interrupts[i].status == Resolved ==> interrupts[i].resolution))
    && (forall i | i in interrupts && interrupts[i].status == Open ::
          Holds(nodes[interrupts[i].nodeId.value].status, cancelled))
    && (forall n | n in nodes && nodes[n].status == Blocked :: OpenAt(interrupts, n))
  }

  predicate Holds(status: NodeStatus, cancelled: bool) {
    status == Waiting || status == Blocked || (status == Cancelled && cancelled)
  }

  ghost predicate NoneRunning(nodes: map<NodeId, NodeState>) {
    forall n | n in nodes :: nodes[n].status != Running
  }

  ghost predicate Phase(s: Snapshot) {
    s.run.status == s.runState.status && (s.run.status != RunRunning ==> NoneRunning(s.nodes))
  }

  ghost predicate NoneFailed(nodes: map<NodeId, NodeState>) {
    forall n | n in nodes :: nodes[n].status != Failed
  }

  ghost function ResolvedFor(interrupts: map<Id, InterruptRecord>, n: NodeId): set<Id> {
    set i | i in interrupts && interrupts[i].nodeId == Some(n) && interrupts[i].status == Resolved
  }

  /** A node starts once, and once more for each of its resolved interrupts at most. */
  ghost predicate AttemptsBounded(nodes: map<NodeId, NodeState>, interrupts: map<Id, InterruptRecord>) {
    forall n | n in nodes ::
      && nodes[n].attempt <= |ResolvedFor(interrupts, n)| + (if nodes[n].status == Ready then 0 else 1)
      && (nodes[n].status == Pending ==> nodes[n].attempt == 0)
  }

  ghost predicate Finished(nodes: map<NodeId, NodeState>, n: NodeId) {
    n in nodes && nodes[n].status.Terminal()
  }

  /** A walk from the entry to `n` whose nodes before `n` have all finished. */
  ghost predicate Trail(wf: Compiled, nodes: map<NodeId, NodeState>, path: seq<NodeId>, n: NodeId) {
    && Walk(wf.outgoing, path) && path[0] == wf.entry && path[|path| - 1] == n
    && forall k :: 0 <= k < |path| - 1 ==> Finished(nodes, path[k])
  }

  ghost predicate HasTrail(wf: Compiled, nodes: map<NodeId, NodeState>, n: NodeId) {
    exists path :: Trail(wf, nodes, path, n)
  }

  /** The node was started, or at least made ready. */
  predicate Entered(n: NodeState) {
    n.attempt > 0 || n.status == Ready
  }

  /** Only starting a node moves it on, except that cancelling the run cancels nodes never started. */
  ghost predicate Begun(nodes: map<NodeId, NodeState>, cancelled: bool) {
    forall n | n in nodes && nodes[n].attempt == 0 ::
      nodes[n].status == Pending || nodes[n].status == Ready || (nodes[n].status == Cancelled && cancelled)
  }

  ghost predicate Trails(wf: Compiled, nodes: map<NodeId, NodeState>) {
    forall n | n in nodes && Entered(nodes[n]) :: HasTrail(wf, nodes, n)
  }

  ghost predicate Shape(wf: Compiled, s: Snapshot) {
    && s.nodes.Keys == wf.specs.Keys
    && s.run.workflowId == wf.workflowId && s.run.workflowVersion == wf.version && s.run.entry == wf.entry
  }

  /** The thread names the run exactly as long as the run is live. */
  ghost predicate ThreadNames(s: Snapshot) {
    && s.threadState.activeRun == s.thread.currentRun
    && (s.thread.currentRun == Some(s.run.runId) <==> !s.run.status.Terminal())
  }

  ghost predicate IdsBelow(s: Snapshot, nextId: nat) {
    && s.run.runId.serial < nextId
    && (forall a | a in s.artifacts :: a.serial < nextId)
    && (forall i | i in s.interrupts :: i.serial < nextId)
    && (forall d | d in s.decisions :: d.serial < nextId)
    && (forall e | e in s.sideEffects :: e.serial < nextId)
  }

  /** Everything but the rule that a failed node fails its run, which a failing operation breaks and
      restores. */
  ghost predicate SnapCore(wf: Compiled, s: Snapshot) {
    SnapshotOk(s) && RunCore(wf, s)
  }

  /** The frontier names nodes that have still to start. */
  ghost predicate FrontierWaits(frontier: seq<NodeId>, nodes: map<NodeId, NodeState>) {
    forall n | n in frontier :: n in nodes && (nodes[n].status == Ready || nodes[n].status == Pending)
  }

  ghost predicate RunCore(wf: Compiled, s: Snapshot) {
    && Shape(wf, s) && ListsAgree(s) && FrontierWaits(s.runState.frontier, s.nodes)
    && InterruptsHeld(s.nodes, s.interrupts, s.run.status == RunCancelled)
    && Begun(s.nodes, s.run.status == RunCancelled)
    && Phase(s) && AttemptsBounded(s.nodes, s.interrupts) && Trails(wf, s.nodes)
  }

  ghost predicate SnapInv(wf: Compiled, s: Snapshot) {
    SnapCore(wf, s) && (NoneFailed(s.nodes) || s.run.status == RunFailed)
  }

  /* ---- The log ---- */

  /** What a log tells about a run. */
  datatype LogState = LogState(
    nodes: map<NodeId, NodeStatus>, owner: map<Id, Option<NodeId>>, pending: set<Id>, run: RunStatus)

  const EMPTY_LOG := LogState(map[], map[], {}, RunRunning)

  function ReplayEvent(ids: set<NodeId>, l: LogState, k: EventKind): LogState {
    match k
    case RunCreated => LogState(map n | n in ids :: Pending, map[], {}, RunRunning)
    case NodeReady(n) => l.(nodes := l.nodes[n := Ready])
    case NodeStarted(n) => l.(nodes := l.nodes[n := Running])
    case NodeReported(n, status) => l.(nodes := l.nodes[n := status])
    case InterruptCreated(n, i) => l.(owner := l.owner[i := n], pending := l.pending + {i})
    case InterruptResolved(i) =>
      var freed := l.(pending := l.pending - {i});
      if i in l.owner && l.owner[i].Some? then freed.(nodes := freed.nodes[l.owner[i].value := Ready]) else freed
    case RunStarted | RunResumed => l.(run := RunRunning)
    case RunHalted => l.(run := RunInterrupted)
    case RunIdle => l.(run := RunWaiting)
    case RunDone => l.(run := RunCompleted)
    case RunFailure(_) => l.(run := RunFailed)
    case RunAborted =>
      l.(run := RunCancelled,
         nodes := map n | n in l.nodes :: if l.nodes[n].Terminal() then l.nodes[n] else Cancelled)
    case External | ThreadOpened => l
  }

  function ReplayKinds(ids: set<NodeId>, l: LogState, kinds: seq<EventKind>): LogState
    decreases |kinds|
  {
    if kinds == [] then l else ReplayKinds(ids, ReplayEvent(ids, l, kinds[0]), kinds[1..])
  }

  function Kinds(log: seq<Event>): (r: seq<EventKind>)
    ensures |r| == |log| && forall i :: 0 <= i < |r| ==> r[i] == log[i].kind
  {
    seq(|log|, i requires 0 <= i < |log| => log[i].kind)
  }

  /** The run as its log tells it. */
  function Replay(ids: set<NodeId>, log: seq<Event>): LogState {
    ReplayKinds(ids, EMPTY_LOG, Kinds(log))
  }

  lemma {:induction false} ReplayAppend(ids: set<NodeId>, l: LogState, a: seq<EventKind>, b: seq<EventKind>)
    ensures ReplayKinds(ids, l, a + b) == ReplayKinds(ids, ReplayKinds(ids, l, a), b)
    decreases |a|
  {
    if a == [] {
      assert a + b == b;
    } else {
      assert (a + b)[1..] == a[1..] + b;
      ReplayAppend(ids, ReplayEvent(ids, l, a[0]), a[1..], b);
    }
  }

  function Statuses(nodes: map<NodeId, NodeState>): map<NodeId, NodeStatus> {
    map n | n in nodes :: nodes[n].status
  }

  function Owners(interrupts: map<Id, InterruptRecord>): map<Id, Option<NodeId>> {
    map i | i in interrupts :: interrupts[i].nodeId
  }

  /** The run as its snapshot tells it. */
  function Abs(s: Snapshot): LogState {
    LogState(Statuses(s.nodes), Owners(s.interrupts), ToSet(s.runState.pendingInterrupts), s.run.status)
  }

  /** A saved run state satisfies its constructor's checks and lists the saved nodes by their status. */
  ghost predicate SavedSound(p: Payload) {
    p.runState.Valid() && NodesValid(p.nodes) && ListsMatch(p.runState, p.nodes)
  }

  ghost predicate SavedMatches(ids: set<NodeId>, log: seq<Event>, c: Checkpoint, p: Payload) {
    && 1 <= c.sequenceNo <= |log|
    && c.runId == p.run.runId
    && c.cursor == Some(log[c.sequenceNo - 1].eventId)
    && p.lastEvent == c.cursor && p.runState.lastEvent == c.cursor
    && c.frontier == p.runState.frontier && SavedSound(p)
    && var l := Replay(ids, log[..c.sequenceNo]);
       && l.nodes == Statuses(p.nodes) && l.owner.Keys == p.interruptIds
       && l.pending == ToSet(p.runState.pendingInterrupts) && l.run == p.run.status
  }

  /** Identifiers of events and checkpoints grow, and so do the sequence numbers of the checkpoints. */
  ghost predicate Ordered(v: View) {
    && (forall i, j :: 0 <= i < j < |v.log| ==> v.log[i].eventId.serial < v.log[j].eventId.serial)
    && (forall i :: 0 <= i < |v.log| ==> v.log[i].eventId.serial < v.nextId)
    && (forall i, j :: 0 <= i < j < |v.saved| ==> v.saved[i].0.sequenceNo < v.saved[j].0.sequenceNo)
    && (forall i, j :: 0 <= i < j < |v.saved| ==> v.saved[i].0.checkpointId.serial < v.saved[j].0.checkpointId.serial)
    && (forall i :: 0 <= i < |v.saved| ==>
          v.saved[i].0.sequenceNo <= |v.log| && v.saved[i].0.checkpointId.serial < v.nextId)
  }

  ghost predicate LogOk(wf: Compiled, v: View) {
    && GapFree(v.Run(), v.log)
    && Replay(wf.specs.Keys, v.log) == Abs(v.snap)
  }

  ghost predicate SavedOk(wf: Compiled, v: View) {
    forall k :: 0 <= k < |v.saved| ==> SavedMatches(wf.specs.Keys, v.log, v.saved[k].0, v.saved[k].1)
  }

  ghost predicate HistoryOk(wf: Compiled, v: View) {
    LogOk(wf, v) && SavedOk(wf, v) && Ordered(v)
  }

  ghost predicate RunInv(wf: Compiled, v: View) {
    SnapInv(wf, v.snap) && ThreadNames(v.snap) && IdsBelow(v.snap, v.nextId) && HistoryOk(wf, v)
  }

  /** Stamping the last event and the last checkpoint touches nothing the invariant speaks of. */
  ghost predicate Stamped(s: Snapshot, t: Snapshot) {
    && t == s.(thread := t.thread, runState := t.runState)
    && t.thread == s.thread.(latestCheckpoint := t.thread.latestCheckpoint, version := t.thread.version)
    && t.runState == s.runState.(lastEvent := t.runState.lastEvent, version := t.runState.version)
    && t.thread.version >= s.thread.version && t.runState.version >= s.runState.version
  }

  lemma StampKeeps(wf: Compiled, s: Snapshot, t: Snapshot)
    requires Stamped(s, t)
    ensures SnapCore(wf, s) ==> SnapCore(wf, t)
    ensures SnapInv(wf, s) ==> SnapInv(wf, t)
    ensures ThreadNames(s) ==> ThreadNames(t)
    ensures Abs(t) == Abs(s)
  {
  }

  lemma CommitStamps(env: Env, v: View, base: Snapshot, p: StatePatch, kinds: seq<EventKind>)
    requires Apply(base, p).Ok? && kinds != []
    ensures var w := Commit(env, v, base, p, kinds).view;
            Stamped(Apply(base, p).value, w.snap) && w.nextId == v.nextId + |kinds| + 1
  {
  }

  lemma CommitOk(env: Env, v: View, base: Snapshot, p: StatePatch, kinds: seq<EventKind>)
    ensures Commit(env, v, base, p, kinds).raised <==> Apply(base, p).Err?
  {
  }

  /* ---- Events and checkpoints keep the history in order ---- */

  lemma LongerLogKeepsSaved(ids: set<NodeId>, log: seq<Event>, added: seq<Event>, c: Checkpoint, p: Payload)
    requires SavedMatches(ids, log, c, p)
    ensures SavedMatches(ids, log + added, c, p)
  {
    assert (log + added)[..c.sequenceNo] == log[..c.sequenceNo];
  }

  lemma EmitKeeps(wf: Compiled, v: View, kinds: seq<EventKind>)
    requires GapFree(v.Run(), v.log) && SavedOk(wf, v) && Ordered(v)
    ensures var w := Emit(v, kinds);
            && GapFree(w.Run(), w.log) && SavedOk(wf, w) && Ordered(w)
            && Replay(wf.specs.Keys, w.log) == ReplayKinds(wf.specs.Keys, Replay(wf.specs.Keys, v.log), kinds)
  {
    var w := Emit(v, kinds);
    var added := Materialize(Drafts(v.snap, kinds), NextSequence(v.log), v.nextId);
    MaterializeKeepsGapFree(v.Run(), v.log, Drafts(v.snap, kinds), v.nextId);
    forall k | 0 <= k < |w.saved| ensures SavedMatches(wf.specs.Keys, w.log, w.saved[k].0, w.saved[k].1) {
      LongerLogKeepsSaved(wf.specs.Keys, v.log, added, v.saved[k].0, v.saved[k].1);
    }
    assert Kinds(w.log) == Kinds(v.log) + kinds;
    ReplayAppend(wf.specs.Keys, EMPTY_LOG, Kinds(v.log), kinds);
    EmitKeepsOrder(v, kinds);
  }

  lemma EmitKeepsOrder(v: View, kinds: seq<EventKind>)
    requires Ordered(v)
    ensures Ordered(Emit(v, kinds))
  {
    var w := Emit(v, kinds);
    forall i, j | 0 <= i < j < |w.log| ensures w.log[i].eventId.serial < w.log[j].eventId.serial {
      if i < |v.log| {
        assert w.log[i] == v.log[i];
      }
    }
  }

  /** A checkpoint taken when the log has told the snapshot, and its last event is stamped on the run. */
  lemma SaveKeeps(wf: Compiled, env: Env, v: View)
    requires HistoryOk(wf, v) && v.log != [] && v.snap.runState.lastEvent == LatestId(v.log)
    requires forall k :: 0 <= k < |v.saved| ==> v.saved[k].0.sequenceNo < |v.log|
    requires v.snap.runState.Valid() && NodesValid(v.snap.nodes) && ListsAgree(v.snap)
    ensures HistoryOk(wf, SaveCheckpoint(env, v))
  {
    hide Replay, Statuses, ListIs, NodesValid;
    var w := SaveCheckpoint(env, v);
    assert v.log[..|v.log|] == v.log;
    assert SavedMatches(wf.specs.Keys, v.log, CheckpointOf(env, v), PayloadOf(v.snap, LatestId(v.log)));
    assert Abs(w.snap) == Abs(v.snap);
  }

  /** The generic step: if the new events tell the patched snapshot, the history stays in order. */
  lemma CommitKeepsHistory(wf: Compiled, env: Env, v: View, base: Snapshot, p: StatePatch, kinds: seq<EventKind>)
    requires GapFree(v.Run(), v.log) && SavedOk(wf, v) && Ordered(v) && kinds != []
    requires Apply(base, p).Ok? && Apply(base, p).value.run.runId == v.Run()
    requires ReplayKinds(wf.specs.Keys, Replay(wf.specs.Keys, v.log), kinds) == Abs(Apply(base, p).value)
    requires RecordsValid(Apply(base, p).value) && ListsAgree(Apply(base, p).value)
    ensures HistoryOk(wf, Commit(env, v, base, p, kinds).view)
  {
    hide Apply, ReplayKinds, ListIs, NodesValid, SavedMatches;
    var u := v.(snap := Apply(base, p).value);
    EmitKeeps(wf, u, kinds);
    var w := AppendEvents(u, kinds);
    assert Abs(w.snap) == Abs(u.snap);
    SaveKeeps(wf, env, w);
  }
}
