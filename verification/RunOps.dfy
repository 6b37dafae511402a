/** Each operation keeps the invariant of its run, and its patch is never rejected. */
module RunOps {
  import opened Common
  import opened Lists
  import opened Models
  import opened Workflow
  import opened Reducer
  import opened ReducerFacts
  import opened Events
  import opened RunMachine
  import opened RunInvariant

  /* ---- Patches that create no records ---- */

  ghost predicate IsPlain(p: StatePatch) {
    && p.upserts == [] && p.artifacts == [] && p.interrupts == [] && p.interruptUpdates == []
    && p.decisions == [] && p.sideEffects == []
  }

  function Patched(nodes: map<NodeId, NodeState>, updates: map<NodeId, NodeUpdate>): map<NodeId, NodeState> {
    map n | n in nodes :: if n in updates then AmendNode(nodes[n], updates[n]) else nodes[n]
  }

  function Plain(s: Snapshot, p: StatePatch): Snapshot {
    s.(thread := UpdateThread(s.thread, p.thread), run := UpdateRun(s.run, p.run),
       threadState := UpdateThreadState(s.threadState, p.threadState),
       runState := AmendRunState(s.runState, p.runState),
       nodes := Patched(s.nodes, p.nodes))
  }

  lemma ApplyPlain(s: Snapshot, p: StatePatch)
    requires IsPlain(p) && p.runState != NO_RUN_STATE
    requires AmendRunState(s.runState, p.runState).Valid()
    requires forall n | n in p.nodes :: n in s.nodes && AmendNode(s.nodes[n], p.nodes[n]).Valid()
    ensures Apply(s, p) == Ok(Plain(s, p))
  {
    var s1 := ApplyRecords(s, p).value;
    var s3 := s1.(nodes := Patched(s.nodes, p.nodes));
    assert ApplyNodeUpdates(s1, p.nodes) == Ok(s3);
    assert ApplyArtifacts(s3, []) == Ok(s3);
    assert ApplyInterrupts(s3, []) == Ok(s3);
    assert ApplyInterruptUpdates(s3, []) == Ok(s3);
    assert Fold(AddDecision, s3, []) == Ok(s3);
  }

  lemma PatchedByNothing(nodes: map<NodeId, NodeState>)
    ensures Patched(nodes, map[]) == nodes
  {
  }

  /* ---- Operations that leave the nodes alone: frontier, completion, pauses, failure ---- */

  /** A patch on statuses, frontier and thread only. */
  ghost predicate IsMark(s: Snapshot, p: StatePatch) {
    && IsPlain(p) && p.nodes == map[]
    && p.runState.completed == None && p.runState.failed == None && p.runState.waiting == None
    && p.runState.blocked == None && p.runState.lastEvent == None
    && (p.runState.active == None || p.runState.active == Some([]))
    && p.runState.status == p.run.status
    && p.runState.frontier.Some?
  }

  /** A snapshot that differs in statuses, frontier, thread and an emptied active list only. */
  lemma RestatusKeeps(wf: Compiled, s: Snapshot, t: Snapshot)
    requires SnapCore(wf, s) && SnapshotOk(t)
    requires t == s.(thread := t.thread, run := t.run, threadState := t.threadState, runState := t.runState)
    requires t.run == s.run.(status := t.run.status, failure := t.run.failure, version := t.run.version)
    requires t.runState == s.runState.(status := t.run.status, frontier := t.runState.frontier,
                                       active := t.runState.active, version := t.runState.version)
    requires t.runState.active == s.runState.active || (NoneRunning(s.nodes) && t.runState.active == [])
    requires t.run.status != RunRunning ==> NoneRunning(s.nodes)
    requires t.run.status == RunCancelled <==> s.run.status == RunCancelled
    requires FrontierWaits(t.runState.frontier, s.nodes)
    ensures SnapCore(wf, t) && Abs(t) == Abs(s).(run := t.run.status)
  {
    assert ListIs(t.runState.active, t.nodes, Running);
  }

  lemma MarkApplies(wf: Compiled, s: Snapshot, p: StatePatch)
    requires SnapCore(wf, s) && IsMark(s, p)
    requires p.runState.active == Some([]) ==> NoneRunning(s.nodes)
    requires Unique(p.runState.frontier.value) && FrontierWaits(p.runState.frontier.value, s.nodes)
    requires p.run.status == Some(RunCompleted) ==> p.runState.frontier == Some([])
    requires p.run.status == None ==> s.run.status == RunRunning
    ensures Apply(s, p) == Ok(Plain(s, p)) && SnapshotOk(Plain(s, p)) && Plain(s, p).nodes == s.nodes
  {
    PatchedByNothing(s.nodes);
    ApplyPlain(s, p);
    ApplyKeepsSnapshotOk(s, p);
  }

  lemma MarkKeeps(wf: Compiled, s: Snapshot, p: StatePatch)
    requires SnapCore(wf, s) && IsMark(s, p)
    requires p.runState.active == Some([]) ==> NoneRunning(s.nodes)
    requires Unique(p.runState.frontier.value) && FrontierWaits(p.runState.frontier.value, s.nodes)
    requires p.run.status.Some? ==>
      p.run.status.value != RunCancelled && s.run.status != RunCancelled && NoneRunning(s.nodes)
      && p.runState.frontier == Some([])
    requires p.run.status == None ==> s.run.status == RunRunning && p.run == NO_RUN
    ensures Apply(s, p) == Ok(Plain(s, p)) && SnapCore(wf, Plain(s, p)) && Plain(s, p).nodes == s.nodes
    ensures Abs(Plain(s, p)) == Abs(s).(run := p.run.status.GetOr(s.run.status))
  {
    MarkApplies(wf, s, p);
    RestatusKeeps(wf, s, Plain(s, p));
  }

  /* ---- Starting a node ---- */

  /** A node the scheduler may pick: ready, or pending with a finished entry path. */
  ghost predicate MayStart(wf: Compiled, s: Snapshot, n: NodeId) {
    && n in s.nodes && (s.nodes[n].status == Ready || s.nodes[n].status == Pending)
    && HasTrail(wf, s.nodes, n)
  }

  lemma StartApplies(wf: Compiled, s: Snapshot, n: NodeId)
    requires SnapCore(wf, s) && MayStart(wf, s, n) && s.run.status == RunRunning
    ensures Apply(s, StartPatch(s, n)) == Ok(Plain(s, StartPatch(s, n)))
    ensures SnapshotOk(Plain(s, StartPatch(s, n)))
  {
    hide HasTrail, ListsAgree, InterruptsHeld, AttemptsBounded, Trails, Begun;
    ApplyPlain(s, StartPatch(s, n));
    ApplyKeepsSnapshotOk(s, StartPatch(s, n));
  }

  /** Only the status and counters of `n` differ. */
  ghost predicate OnlyAt(before: map<NodeId, NodeState>, after: map<NodeId, NodeState>, n: NodeId) {
    && after.Keys == before.Keys && n in before
    && forall m | m in before && m != n ::
         after[m].status == before[m].status && after[m].attempt == before[m].attempt
  }

  /** Paths through finished nodes survive as long as finished nodes stay finished. */
  lemma TrailsSurvive(wf: Compiled, before: map<NodeId, NodeState>, after: map<NodeId, NodeState>, n: NodeId)
    requires HasTrail(wf, before, n)
    requires forall m | Finished(before, m) :: Finished(after, m)
    ensures HasTrail(wf, after, n)
  {
    var path :| Trail(wf, before, path, n);
    assert Trail(wf, after, path, n);
  }

  lemma TrailsSurviveAt(wf: Compiled, before: map<NodeId, NodeState>, after: map<NodeId, NodeState>, n: NodeId)
    requires Trails(wf, before) && OnlyAt(before, after, n) && HasTrail(wf, before, n)
    requires !before[n].status.Terminal()
    ensures Trails(wf, after)
  {
    forall m | m in after && Entered(after[m]) ensures HasTrail(wf, after, m) {
      TrailsSurvive(wf, before, after, m);
    }
  }

  /** `ys` is `xs` with `n` taken out, and put back if `add`. */
  ghost predicate Relisted(xs: seq<NodeId>, ys: seq<NodeId>, n: NodeId, add: bool) {
    Unique(ys) && forall m :: m in ys <==> (m in xs && m != n) || (m == n && add)
  }

  lemma RelistRelists(xs: seq<NodeId>, n: NodeId, add: bool)
    requires Unique(xs)
    ensures Relisted(xs, Relist(xs, n, add), n, add)
  {
    var ys := if add then Without(xs, {n}) + [n] else Without(xs, {n});
    assert Unique(ys);
    DedupeOfUnique(ys);
  }

  lemma KeptRelists(xs: seq<NodeId>, n: NodeId)
    requires Unique(xs) && n !in xs
    ensures Relisted(xs, xs, n, false)
  {
  }

  lemma RelistedIs(xs: seq<NodeId>, ys: seq<NodeId>, before: map<NodeId, NodeState>, after: map<NodeId, NodeState>,
                   n: NodeId, status: NodeStatus)
    requires ListIs(xs, before, status) && OnlyAt(before, after, n)
    requires Relisted(xs, ys, n, after[n].status == status)
    ensures ListIs(ys, after, status)
  {
  }

  /** The five lists follow a change of one node. */
  lemma ListsFollow(s: Snapshot, t: Snapshot, n: NodeId)
    requires ListsAgree(s) && OnlyAt(s.nodes, t.nodes, n)
    requires Relisted(s.runState.completed, t.runState.completed, n, t.nodes[n].status == Succeeded)
    requires Relisted(s.runState.failed, t.runState.failed, n, t.nodes[n].status == Failed)
    requires Relisted(s.runState.waiting, t.runState.waiting, n, t.nodes[n].status == Waiting)
    requires Relisted(s.runState.blocked, t.runState.blocked, n, t.nodes[n].status == Blocked)
    requires Relisted(s.runState.active, t.runState.active, n, t.nodes[n].status == Running)
    ensures ListsAgree(t)
  {
    RelistedIs(s.runState.completed, t.runState.completed, s.nodes, t.nodes, n, Succeeded);
    RelistedIs(s.runState.failed, t.runState.failed, s.nodes, t.nodes, n, Failed);
    RelistedIs(s.runState.waiting, t.runState.waiting, s.nodes, t.nodes, n, Waiting);
    RelistedIs(s.runState.blocked, t.runState.blocked, s.nodes, t.nodes, n, Blocked);
    RelistedIs(s.runState.active, t.runState.active, s.nodes, t.nodes, n, Running);
  }

  /** The snapshot after a start, spelled out. */
  ghost predicate StartedFrom(s: Snapshot, n: NodeId, t: Snapshot) {
    && n in s.nodes
    && t == s.(runState := t.runState, nodes := t.nodes)
    && t.runState == s.runState.(active := MergeUnique(s.runState.active, [n]),
                                 frontier := Without(s.runState.frontier, {n}), version := s.runState.version + 1)
    && t.nodes == s.nodes[n := s.nodes[n].(status := Running, attempt := s.nodes[n].attempt + 1, started := true,
                                           version := s.nodes[n].version + 1)]
  }

  lemma StartEffect(s: Snapshot, n: NodeId)
    requires n in s.nodes
    ensures StartedFrom(s, n, Plain(s, StartPatch(s, n)))
  {
  }

  lemma StartListsAgree(s: Snapshot, n: NodeId, t: Snapshot)
    requires ListsAgree(s) && StartedFrom(s, n, t) && (s.nodes[n].status == Ready || s.nodes[n].status == Pending)
    ensures OnlyAt(s.nodes, t.nodes, n) && ListsAgree(t)
  {
    var r := s.runState;
    KeptRelists(r.completed, n);
    KeptRelists(r.failed, n);
    KeptRelists(r.waiting, n);
    KeptRelists(r.blocked, n);
    ListsFollow(s, t, n);
  }

  /** Interrupts and attempts after one node without open interrupts changes. */
  lemma StartHolds(s: Snapshot, nodes: map<NodeId, NodeState>, n: NodeId, cancelled: bool)
    requires InterruptsHeld(s.nodes, s.interrupts, cancelled) && AttemptsBounded(s.nodes, s.interrupts)
    requires OnlyAt(s.nodes, nodes, n) && (s.nodes[n].status == Ready || s.nodes[n].status == Pending)
    requires nodes[n].status == Running && nodes[n].attempt == s.nodes[n].attempt + 1
    ensures InterruptsHeld(nodes, s.interrupts, cancelled) && AttemptsBounded(nodes, s.interrupts)
    ensures Begun(s.nodes, cancelled) ==> Begun(nodes, cancelled)
  {
    forall i | i in s.interrupts && s.interrupts[i].status == Open
      ensures Holds(nodes[s.interrupts[i].nodeId.value].status, cancelled)
    {
      assert Holds(s.nodes[s.interrupts[i].nodeId.value].status, cancelled);
    }
  }

  lemma StartKeepsNodes(wf: Compiled, s: Snapshot, n: NodeId, t: Snapshot)
    requires InterruptsHeld(s.nodes, s.interrupts, false) && AttemptsBounded(s.nodes, s.interrupts)
    requires Begun(s.nodes, false) && Trails(wf, s.nodes) && FrontierWaits(s.runState.frontier, s.nodes)
    requires MayStart(wf, s, n) && StartedFrom(s, n, t)
    ensures InterruptsHeld(t.nodes, s.interrupts, false) && AttemptsBounded(t.nodes, s.interrupts)
    ensures Begun(t.nodes, false) && Trails(wf, t.nodes) && FrontierWaits(t.runState.frontier, t.nodes)
  {
    assert OnlyAt(s.nodes, t.nodes, n);
    TrailsSurviveAt(wf, s.nodes, t.nodes, n);
    StartHolds(s, t.nodes, n, false);
  }

  lemma StartKeepsCore(wf: Compiled, s: Snapshot, n: NodeId, t: Snapshot)
    requires RunCore(wf, s) && MayStart(wf, s, n) && s.run.status == RunRunning
    requires StartedFrom(s, n, t)
    ensures RunCore(wf, t) && OnlyAt(s.nodes, t.nodes, n)
  {
    StartListsAgree(s, n, t);
    StartKeepsNodes(wf, s, n, t);
  }

  lemma StartKeeps(wf: Compiled, s: Snapshot, n: NodeId)
    requires SnapCore(wf, s) && MayStart(wf, s, n) && s.run.status == RunRunning
    ensures var t := Plain(s, StartPatch(s, n));
            && Apply(s, StartPatch(s, n)) == Ok(t)
            && SnapCore(wf, t) && StartedFrom(s, n, t)
            && Abs(t) == ReplayEvent(wf.specs.Keys, Abs(s), NodeStarted(n))
  {
    StartApplies(wf, s, n);
    StartEffect(s, n);
    var t := Plain(s, StartPatch(s, n));
    StartKeepsCore(wf, s, n, t);
    StartTold(wf.specs.Keys, s, n, t);
  }

  lemma StartTold(ids: set<NodeId>, s: Snapshot, n: NodeId, t: Snapshot)
    requires StartedFrom(s, n, t)
    ensures Abs(t) == ReplayEvent(ids, Abs(s), NodeStarted(n))
  {
    assert Statuses(t.nodes) == Statuses(s.nodes)[n := Running];
  }
}
