/** Beginning, resuming and cancelling a run. */
module RunLifecycle {
  import opened Common
  import opened Lists
  import opened Models
  import opened Workflow
  import opened Compiler
  import opened Reducer
  import opened ReducerFacts
  import opened Events
  import opened RunMachine
  import opened RunInvariant
  import opened RunOps

  /* ---- Cancelling ---- */

  ghost predicate CancelledFrom(s: Snapshot, t: Snapshot) {
    && t == s.(thread := t.thread, run := t.run, threadState := t.threadState, runState := t.runState, nodes := t.nodes)
    && t.run == s.run.(status := RunCancelled, version := s.run.version + 1)
    && t.runState == s.runState.(status := RunCancelled, frontier := [], active := [], waiting := [], blocked := [],
                                 version := s.runState.version + 1)
    && CancelledNodes(s.nodes, t.nodes)
  }

  lemma CancelApplies(wf: Compiled, s: Snapshot)
    requires SnapCore(wf, s)
    ensures Apply(s, CancelPatch(s)) == Ok(Plain(s, CancelPatch(s))) && SnapshotOk(Plain(s, CancelPatch(s)))
  {
    ApplyPlain(s, CancelPatch(s));
    ApplyKeepsSnapshotOk(s, CancelPatch(s));
  }

  lemma CancelEffect(s: Snapshot)
    ensures CancelledFrom(s, Plain(s, CancelPatch(s)))
  {
  }

  lemma CancelKeepsCore(wf: Compiled, s: Snapshot, t: Snapshot)
    requires RunCore(wf, s) && CancelledFrom(s, t)
    ensures RunCore(wf, t)
  {
    CancelKeepsLists(s, t);
    CancelKeepsNodes(s.nodes, t.nodes, s.interrupts, s.run.status == RunCancelled);
    CancelKeepsTrails(wf, s.nodes, t.nodes);
  }

  lemma CancelKeepsLists(s: Snapshot, t: Snapshot)
    requires ListsAgree(s) && CancelledFrom(s, t)
    ensures ListsAgree(t)
  {
  }

  /** What cancelling does to the nodes. */
  ghost predicate CancelledNodes(before: map<NodeId, NodeState>, after: map<NodeId, NodeState>) {
    && after.Keys == before.Keys
    && forall n | n in before ::
         && after[n].status == (if before[n].status.Terminal() then before[n].status else Cancelled)
         && after[n].attempt == before[n].attempt
  }

  lemma CancelKeepsTrails(wf: Compiled, before: map<NodeId, NodeState>, after: map<NodeId, NodeState>)
    requires Trails(wf, before) && CancelledNodes(before, after)
    ensures Trails(wf, after)
  {
    hide HasTrail;
    forall n | n in after && Entered(after[n]) ensures HasTrail(wf, after, n) {
      TrailsSurvive(wf, before, after, n);
    }
  }

  lemma CancelKeepsNodes(before: map<NodeId, NodeState>, after: map<NodeId, NodeState>,
                         interrupts: map<Id, InterruptRecord>, already: bool)
    requires InterruptsHeld(before, interrupts, already) && AttemptsBounded(before, interrupts) && Begun(before, already)
    requires CancelledNodes(before, after)
    ensures InterruptsHeld(after, interrupts, true) && AttemptsBounded(after, interrupts)
    ensures NoneRunning(after) && Begun(after, true)
  {
    hide OpenAt;
  }

  lemma CancelKeeps(wf: Compiled, s: Snapshot)
    requires SnapInv(wf, s) && !s.run.status.Terminal()
    ensures var t := Plain(s, CancelPatch(s));
            && Apply(s, CancelPatch(s)) == Ok(t) && SnapInv(wf, t) && CancelledFrom(s, t)
            && Abs(t) == ReplayEvent(wf.specs.Keys, Abs(s), RunAborted)
  {
    CancelApplies(wf, s);
    CancelEffect(s);
    var t := Plain(s, CancelPatch(s));
    CancelKeepsCore(wf, s, t);
    CancelTold(wf.specs.Keys, s, t);
  }

  lemma CancelTold(ids: set<NodeId>, s: Snapshot, t: Snapshot)
    requires CancelledFrom(s, t)
    ensures Abs(t) == ReplayEvent(ids, Abs(s), RunAborted)
    ensures NoneFailed(s.nodes) ==> NoneFailed(t.nodes)
  {
    assert Statuses(t.nodes) == ReplayEvent(ids, Abs(s), RunAborted).nodes;
  }

  /* ---- Beginning ---- */

  ghost predicate BegunFrom(thread: ThreadRecord, threadState: ThreadState, run: Id, wf: Compiled, t: Snapshot) {
    && t == EmptySnapshot(thread, threadState, run, wf).(
              thread := thread.(status := ThreadActive, currentRun := Some(run), version := thread.version + 1),
              threadState := threadState.(status := ThreadActive, activeRun := Some(run), version := threadState.version + 1),
              nodes := t.nodes)
    && t.nodes == map n | n in wf.specs :: InitialNode(run, wf, n)
  }

  lemma InitialNodesFresh(run: Id, wf: Compiled, s: Snapshot)
    requires WellCompiled(wf) && s.nodes == map[]
    ensures var xs := InitialNodes(run, wf);
            && (forall i, j :: 0 <= i < j < |xs| ==> xs[i].nodeId != xs[j].nodeId)
            && (forall n | n in xs :: n.nodeId !in s.nodes)
  {
    hide SameEdges, QuorumsReachable, HasCycle;
  }

  lemma {:induction false} InitialNodesAccepted(s: Snapshot, xs: seq<NodeState>)
    requires forall x | x in xs :: x.runId == s.runState.runId
    ensures Fold(UpsertNode, s, xs).Ok?
    decreases |xs|
  {
    if xs != [] {
      assert xs[0] in xs;
      InitialNodesAccepted(UpsertNode(s, xs[0]).value, xs[1..]);
    }
  }

  /** A patch that only inserts nodes, after its record stage. */
  lemma UpsertOnly(s: Snapshot, p: StatePatch, s1: Snapshot)
    requires p.nodes == map[] && p.artifacts == [] && p.interrupts == [] && p.interruptUpdates == []
    requires p.decisions == [] && p.sideEffects == []
    requires ApplyRecords(s, p) == Ok(s1) && Fold(UpsertNode, s1, p.upserts).Ok?
    ensures Apply(s, p) == Fold(UpsertNode, s1, p.upserts)
  {
    var s2 := Fold(UpsertNode, s1, p.upserts).value;
    assert ApplyNodeUpdates(s2, p.nodes).value.nodes == s2.nodes;
    assert ApplyArtifacts(s2, []) == Ok(s2);
    assert ApplyInterrupts(s2, []) == Ok(s2);
    assert ApplyInterruptUpdates(s2, []) == Ok(s2);
    assert Fold(AddDecision, s2, []) == Ok(s2);
  }

  lemma BeginApplies(thread: ThreadRecord, threadState: ThreadState, run: Id, wf: Compiled)
    requires WellCompiled(wf)
    ensures var empty := EmptySnapshot(thread, threadState, run, wf);
            && Apply(empty, InitialPatch(run, wf)).Ok?
            && BegunFrom(thread, threadState, run, wf, Apply(empty, InitialPatch(run, wf)).value)
  {
    var p := InitialPatch(run, wf);
    var empty := EmptySnapshot(thread, threadState, run, wf);
    var s1 := ApplyRecords(empty, p).value;
    BeginFolds(run, wf, s1);
    UpsertOnly(empty, p, s1);
  }

  lemma BeginFolds(run: Id, wf: Compiled, s1: Snapshot)
    requires WellCompiled(wf) && s1.runState.runId == run
    requires s1.nodes == map[] && s1.decisions == map[] && s1.sideEffects == map[]
    ensures var r := Fold(UpsertNode, s1, InitialNodes(run, wf));
            r.Ok? && r.value == s1.(nodes := map n | n in wf.specs :: InitialNode(run, wf, n))
  {
    InitialNodesAccepted(s1, InitialNodes(run, wf));
    InitialNodesFresh(run, wf, s1);
    UpsertFold(s1, InitialNodes(run, wf));
    InitialNodesMap(run, wf, Fold(UpsertNode, s1, InitialNodes(run, wf)).value.nodes);
  }

  lemma InitialNodesMap(run: Id, wf: Compiled, nodes: map<NodeId, NodeState>)
    requires WellCompiled(wf)
    requires forall x | x in InitialNodes(run, wf) :: x.nodeId in nodes && nodes[x.nodeId] == x
    requires forall n | n in nodes :: nodes[n] in InitialNodes(run, wf) && nodes[n].nodeId == n
    ensures nodes == map n | n in wf.specs :: InitialNode(run, wf, n)
  {
    hide SameEdges, QuorumsReachable, HasCycle;
    var xs := InitialNodes(run, wf);
    forall n | n in wf.specs ensures n in nodes && nodes[n] == InitialNode(run, wf, n) {
      var k :| 0 <= k < |wf.order| && wf.order[k] == n;
      assert xs[k] in xs;
    }
    forall n | n in nodes ensures n in wf.specs {
      var k :| 0 <= k < |xs| && xs[k] == nodes[n];
      assert wf.order[k] == n;
    }
  }

  lemma BeginSnapshotOk(thread: ThreadRecord, threadState: ThreadState, run: Id, wf: Compiled, t: Snapshot)
    requires WellCompiled(wf) && BegunFrom(thread, threadState, run, wf, t)
    requires thread.threadId == threadState.threadId && Unique(threadState.artifactIds)
    ensures SnapshotOk(t)
  {
  }

  lemma BeginKeepsCore(thread: ThreadRecord, threadState: ThreadState, run: Id, wf: Compiled, t: Snapshot)
    requires WellCompiled(wf) && BegunFrom(thread, threadState, run, wf, t)
    ensures RunCore(wf, t) && NoneFailed(t.nodes) && ThreadNames(t)
  {
    hide Trails, AttemptsBounded, InterruptsHeld, Begun, ListIs, WellCompiled;
    EntryCompiledIn(wf);
    InitialNodesCore(run, wf, t.nodes);
  }

  lemma EntryCompiledIn(wf: Compiled)
    requires WellCompiled(wf)
    ensures wf.entry in wf.specs && wf.specs.Keys == wf.outgoing.Keys
  {
  }

  lemma InitialNodesCore(run: Id, wf: Compiled, nodes: map<NodeId, NodeState>)
    requires wf.entry in wf.specs && wf.specs.Keys == wf.outgoing.Keys
    requires nodes == map n | n in wf.specs :: InitialNode(run, wf, n)
    ensures forall status :: status != Ready && status != Pending ==> ListIs([], nodes, status)
    ensures FrontierWaits([wf.entry], nodes) && InterruptsHeld(nodes, map[], false)
    ensures AttemptsBounded(nodes, map[]) && Trails(wf, nodes) && Begun(nodes, false)
  {
    assert Trail(wf, nodes, [wf.entry], wf.entry);
  }

  lemma BeginTold(thread: ThreadRecord, threadState: ThreadState, run: Id, wf: Compiled, t: Snapshot)
    requires wf.entry in wf.specs && BegunFrom(thread, threadState, run, wf, t)
    ensures Abs(t) == ReplayKinds(wf.specs.Keys, EMPTY_LOG, InitialKinds(wf))
  {
    var ids, k := wf.specs.Keys, InitialKinds(wf);
    assert k[1..] == [RunStarted, NodeReady(wf.entry)] && k[1..][1..] == [NodeReady(wf.entry)] && k[1..][1..][1..] == [];
    var l := ReplayEvent(ids, EMPTY_LOG, RunCreated);
    assert ReplayKinds(ids, EMPTY_LOG, k) == ReplayKinds(ids, l, k[1..]);
    assert ReplayKinds(ids, l, k[1..]) == ReplayKinds(ids, l, k[1..][1..]);
    assert ReplayKinds(ids, l, k[1..][1..]) == ReplayEvent(ids, l, NodeReady(wf.entry));
    assert Statuses(t.nodes) == (map n | n in ids :: Pending)[wf.entry := Ready];
    assert Owners(t.interrupts) == map[] && ToSet(t.runState.pendingInterrupts) == {};
  }
}
