/** Resuming: every pending interrupt is resolved and the nodes that held them become ready. */
module RunResume {
  import opened Common
  import opened Lists
  import opened Models
  import opened Workflow
  import opened Reducer
  import opened ReducerFacts
  import opened Events
  import opened RunMachine
  import opened RunInvariant
  import opened RunOps

  lemma {:induction false} HoldersMembers(interrupts: map<Id, InterruptRecord>, ids: seq<Id>)
    ensures forall n :: n in Holders(interrupts, ids) <==>
              exists i :: i in ids && i in interrupts && interrupts[i].nodeId == Some(n)
  {
    if ids != [] {
      HoldersMembers(interrupts, ids[1..]);
      assert forall i :: i in ids <==> i == ids[0] || i in ids[1..];
    }
  }

  function ResolveAll(interrupts: map<Id, InterruptRecord>, ids: seq<Id>): map<Id, InterruptRecord> {
    map i | i in interrupts :: if i in ids then AmendInterrupt(interrupts[i], RESOLVE) else interrupts[i]
  }

  /** The fold over the resolutions, in closed form. */
  lemma {:induction false} ResolveFold(s: Snapshot, ids: seq<Id>)
    requires Unique(ids) && forall i | i in ids :: i in s.interrupts
    ensures Fold(UpdateInterrupt, s, Resolutions(ids)) == Ok(s.(
              interrupts := ResolveAll(s.interrupts, ids),
              runState := s.runState.(
                pendingInterrupts := Without(s.runState.pendingInterrupts, ToSet(ids)),
                pendingApprovals := Without(s.runState.pendingApprovals, ToSet(ids)))))
    decreases |ids|
  {
    if ids == [] {
      WithoutNothing(s.runState.pendingInterrupts, {});
      WithoutNothing(s.runState.pendingApprovals, {});
      assert ToSet(ids) == {};
      assert ResolveAll(s.interrupts, ids) == s.interrupts;
    } else {
      var t := UpdateInterrupt(s, (ids[0], RESOLVE)).value;
      var r := s.runState;
      assert t == s.(interrupts := s.interrupts[ids[0] := AmendInterrupt(s.interrupts[ids[0]], RESOLVE)],
                     runState := r.(pendingInterrupts := Without(r.pendingInterrupts, {ids[0]}),
                                    pendingApprovals := Without(r.pendingApprovals, {ids[0]})));
      assert Resolutions(ids)[0] == (ids[0], RESOLVE) && Resolutions(ids)[1..] == Resolutions(ids[1..]);
      ResolveFold(t, ids[1..]);
      ResolveOneMore(s.interrupts, ids);
      WithoutTwice(r.pendingInterrupts, {ids[0]}, ToSet(ids[1..]));
      WithoutTwice(r.pendingApprovals, {ids[0]}, ToSet(ids[1..]));
    }
  }

  lemma ResolveOneMore(interrupts: map<Id, InterruptRecord>, ids: seq<Id>)
    requires ids != [] && Unique(ids) && ids[0] in interrupts
    ensures ResolveAll(interrupts[ids[0] := AmendInterrupt(interrupts[ids[0]], RESOLVE)], ids[1..])
            == ResolveAll(interrupts, ids)
    ensures {ids[0]} + ToSet(ids[1..]) == ToSet(ids)
  {
    assert forall i :: i in ids <==> i == ids[0] || i in ids[1..];
    assert ids[0] !in ids[1..];
  }

  /** The snapshot after a resume, spelled out. */
  ghost predicate ResumedFrom(s: Snapshot, ids: seq<Id>, t: Snapshot) {
    && t == s.(thread := t.thread, run := t.run, threadState := t.threadState, runState := t.runState,
               nodes := t.nodes, interrupts := t.interrupts)
    && t.thread == s.thread.(status := ThreadActive, version := s.thread.version + 1)
    && t.threadState == s.threadState.(status := ThreadActive, version := s.threadState.version + 1)
    && t.run == s.run.(status := RunRunning, version := s.run.version + 1)
    && ResumedLists(s.runState, ids, Holders(s.interrupts, ids), t.runState)
    && t.nodes == Patched(s.nodes, map n | n in ToSet(Holders(s.interrupts, ids)) :: RELEASE_NODE)
    && t.interrupts == ResolveAll(s.interrupts, ids)
  }

  ghost predicate ResumedLists(r: RunState, ids: seq<Id>, holders: seq<NodeId>, t: RunState) {
    && t.status == RunRunning
    && t.completed == r.completed && t.failed == r.failed && t.active == r.active
    && t.waiting == (if ids == [] then r.waiting else Without(r.waiting, ToSet(holders)))
    && t.blocked == (if ids == [] then r.blocked else Without(r.blocked, ToSet(holders)))
    && t.frontier == (if ids == [] then r.frontier else MergeUnique(r.frontier, holders))
    && t.pendingInterrupts == Without(r.pendingInterrupts, ToSet(ids))
    && t.pendingApprovals == Without(r.pendingApprovals, ToSet(ids))
    && t.runId == r.runId && t.threadId == r.threadId && t.lastEvent == r.lastEvent
  }

  ghost predicate Resumable(wf: Compiled, s: Snapshot, ids: seq<Id>) {
    && SnapCore(wf, s) && NoneRunning(s.nodes) && s.run.status != RunCancelled
    && (ids == [] || ids == s.runState.pendingInterrupts)
  }

  lemma HoldersAreHeld(wf: Compiled, s: Snapshot, ids: seq<Id>)
    requires Resumable(wf, s, ids)
    ensures forall n | n in Holders(s.interrupts, ids) ::
              n in s.nodes && (s.nodes[n].status == Waiting || s.nodes[n].status == Blocked)
    ensures forall i | i in ids :: i in s.interrupts && s.interrupts[i].status == Open
  {
    HoldersMembers(s.interrupts, ids);
    forall n | n in Holders(s.interrupts, ids)
      ensures n in s.nodes && (s.nodes[n].status == Waiting || s.nodes[n].status == Blocked)
    {
      var i :| i in ids && i in s.interrupts && s.interrupts[i].nodeId == Some(n);
      assert Holds(s.nodes[s.interrupts[i].nodeId.value].status, false);
    }
  }

  lemma ResumeListsValid(wf: Compiled, s: Snapshot, ids: seq<Id>)
    requires Resumable(wf, s, ids)
    ensures AmendRunState(s.runState, ResumePatch(s, ids).runState).Valid()
  {
    HoldersAreHeld(wf, s, ids);
  }

  lemma ResumeStages(s: Snapshot, p: StatePatch, ids: seq<Id>, b: Snapshot)
    requires p.upserts == [] && p.artifacts == [] && p.interrupts == [] && p.decisions == [] && p.sideEffects == []
    requires p.interruptUpdates == Resolutions(ids) && Unique(ids) && forall i | i in ids :: i in s.interrupts
    requires ApplyRecords(s, p).Ok? && ApplyNodeUpdates(ApplyRecords(s, p).value, p.nodes) == Ok(b)
    requires b.interrupts == s.interrupts
    ensures Apply(s, p).Ok?
    ensures var t := Apply(s, p).value;
            && t == b.(runState := t.runState, interrupts := ResolveAll(s.interrupts, ids))
            && t.runState == b.runState.(pendingInterrupts := Without(b.runState.pendingInterrupts, ToSet(ids)),
                                         pendingApprovals := Without(b.runState.pendingApprovals, ToSet(ids)),
                                         version := t.runState.version)
            && t.runState.version >= b.runState.version
  {
    assert ApplyArtifacts(b, p.artifacts) == Ok(b);
    assert ApplyInterrupts(b, p.interrupts) == Ok(b);
    ResolveFold(b, ids);
    var t := ApplyInterruptUpdates(b, p.interruptUpdates).value;
    assert Fold(AddDecision, t, p.decisions) == Ok(t);
  }

  lemma ResumeNodes(s: Snapshot, updates: map<NodeId, NodeUpdate>)
    requires forall n | n in updates :: n in s.nodes && updates[n] == RELEASE_NODE
    requires NodesValid(s.nodes)
    ensures ApplyNodeUpdates(s, updates) == Ok(s.(nodes := Patched(s.nodes, updates)))
  {
  }

  lemma ResumeApplies(wf: Compiled, s: Snapshot, ids: seq<Id>)
    requires Resumable(wf, s, ids)
    ensures Apply(s, ResumePatch(s, ids)).Ok? && ResumedFrom(s, ids, Apply(s, ResumePatch(s, ids)).value)
  {
    hide RunCore, Apply, Holders, SnapshotOk, ApplyNodeUpdates, ApplyRecords, Patched, ResumePatch, ResolveAll;
    var p := ResumePatch(s, ids);
    ResumeListsValid(wf, s, ids);
    HoldersAreHeld(wf, s, ids);
    ResumeRecords(s, ids);
    var b := ApplyRecords(s, p).value;
    ValidNodes(s);
    ResumeNodes(b, p.nodes);
    var c := b.(nodes := Patched(s.nodes, p.nodes));
    UniquePending(s, ids);
    ResumeStages(s, p, ids, c);
    ResumedParts(s, ids, c, Apply(s, p).value);
  }

  lemma ValidNodes(s: Snapshot)
    requires SnapshotOk(s)
    ensures NodesValid(s.nodes)
  {
  }

  lemma UniquePending(s: Snapshot, ids: seq<Id>)
    requires SnapshotOk(s) && (ids == [] || ids == s.runState.pendingInterrupts)
    ensures Unique(ids)
  {
  }

  /** The stage of the records, and the shape of the patch for the others. */
  lemma ResumeRecords(s: Snapshot, ids: seq<Id>)
    requires AmendRunState(s.runState, ResumePatch(s, ids).runState).Valid()
    ensures var p := ResumePatch(s, ids);
            && p.upserts == [] && p.artifacts == [] && p.interrupts == [] && p.decisions == [] && p.sideEffects == []
            && p.interruptUpdates == Resolutions(ids)
            && p.nodes == (map n | n in ToSet(Holders(s.interrupts, ids)) :: RELEASE_NODE)
            && ApplyRecords(s, p) == Ok(s.(
                 thread := s.thread.(status := ThreadActive, version := s.thread.version + 1),
                 threadState := s.threadState.(status := ThreadActive, version := s.threadState.version + 1),
                 run := s.run.(status := RunRunning, version := s.run.version + 1),
                 runState := AmendRunState(s.runState, p.runState)))
    ensures var r := AmendRunState(s.runState, ResumePatch(s, ids).runState);
            && r.pendingInterrupts == s.runState.pendingInterrupts
            && r.pendingApprovals == s.runState.pendingApprovals
            && ResumedLists(s.runState, ids, Holders(s.interrupts, ids),
                            r.(pendingInterrupts := Without(s.runState.pendingInterrupts, ToSet(ids)),
                               pendingApprovals := Without(s.runState.pendingApprovals, ToSet(ids))))
  {
    hide Holders, Without, MergeUnique;
  }

  lemma ResumedParts(s: Snapshot, ids: seq<Id>, c: Snapshot, t: Snapshot)
    requires c == s.(thread := s.thread.(status := ThreadActive, version := s.thread.version + 1),
                     threadState := s.threadState.(status := ThreadActive, version := s.threadState.version + 1),
                     run := s.run.(status := RunRunning, version := s.run.version + 1),
                     runState := c.runState, nodes := c.nodes)
    requires c.nodes == Patched(s.nodes, map n | n in ToSet(Holders(s.interrupts, ids)) :: RELEASE_NODE)
    requires ResumedLists(s.runState, ids, Holders(s.interrupts, ids),
                          c.runState.(pendingInterrupts := Without(s.runState.pendingInterrupts, ToSet(ids)),
                                      pendingApprovals := Without(s.runState.pendingApprovals, ToSet(ids))))
    requires c.runState.pendingInterrupts == s.runState.pendingInterrupts
    requires c.runState.pendingApprovals == s.runState.pendingApprovals
    requires t == c.(runState := t.runState, interrupts := ResolveAll(s.interrupts, ids))
    requires t.runState == c.runState.(pendingInterrupts := Without(c.runState.pendingInterrupts, ToSet(ids)),
                                       pendingApprovals := Without(c.runState.pendingApprovals, ToSet(ids)),
                                       version := t.runState.version)
    ensures ResumedFrom(s, ids, t)
  {
    hide Holders, Without, MergeUnique, Patched, ResolveAll;
  }

  /* ---- The invariant after a resume ---- */

  /** Statuses change only at the released nodes, which become ready. */
  ghost predicate Released(before: map<NodeId, NodeState>, after: map<NodeId, NodeState>, held: set<NodeId>) {
    && after.Keys == before.Keys && held <= before.Keys
    && forall n | n in before ::
         && after[n].attempt == before[n].attempt
         && after[n].status == (if n in held then Ready else before[n].status)
  }

  /** A list of a status that no released node had is unchanged. */
  lemma OtherList(xs: seq<NodeId>, before: map<NodeId, NodeState>, after: map<NodeId, NodeState>, holders: seq<NodeId>,
                  status: NodeStatus)
    requires ListIs(xs, before, status) && Released(before, after, ToSet(holders))
    requires status != Ready && forall n | n in holders :: before[n].status != status
    ensures ListIs(xs, after, status)
  {
  }

  lemma ReleaseList(xs: seq<NodeId>, before: map<NodeId, NodeState>, after: map<NodeId, NodeState>, holders: seq<NodeId>,
                    status: NodeStatus)
    requires ListIs(xs, before, status) && Released(before, after, ToSet(holders)) && status != Ready
    ensures ListIs(Without(xs, ToSet(holders)), after, status)
    ensures holders == [] ==> ListIs(xs, after, status)
  {
  }

  lemma ResumeListsAgree(s: Snapshot, ids: seq<Id>, holders: seq<NodeId>, t: Snapshot)
    requires ListsAgree(s) && ResumedLists(s.runState, ids, holders, t.runState)
    requires Released(s.nodes, t.nodes, ToSet(holders)) && (ids == [] ==> holders == [])
    requires forall n | n in holders :: s.nodes[n].status == Waiting || s.nodes[n].status == Blocked
    ensures ListsAgree(t)
  {
    OtherList(s.runState.completed, s.nodes, t.nodes, holders, Succeeded);
    OtherList(s.runState.failed, s.nodes, t.nodes, holders, Failed);
    OtherList(s.runState.active, s.nodes, t.nodes, holders, Running);
    ReleaseList(s.runState.waiting, s.nodes, t.nodes, holders, Waiting);
    ReleaseList(s.runState.blocked, s.nodes, t.nodes, holders, Blocked);
  }

  /** Resolving interrupts of a node raises its count of resolved ones. */
  lemma ResolvedGrows(interrupts: map<Id, InterruptRecord>, ids: seq<Id>, n: NodeId)
    requires forall i | i in ids :: i in interrupts && interrupts[i].status == Open
    ensures var before, after := ResolvedFor(interrupts, n), ResolvedFor(ResolveAll(interrupts, ids), n);
            |before| <= |after| && (n in Holders(interrupts, ids) ==> |before| < |after|)
  {
    HoldersMembers(interrupts, ids);
    var before, after := ResolvedFor(interrupts, n), ResolvedFor(ResolveAll(interrupts, ids), n);
    assert before <= after;
    Subset(before, after);
    if n in Holders(interrupts, ids) {
      var i :| i in ids && i in interrupts && interrupts[i].nodeId == Some(n);
      assert i in after && i !in before;
      Subset(before, after - {i});
    }
  }

  lemma Subset<T>(a: set<T>, b: set<T>)
    requires a <= b
    ensures |a| <= |b|
  {
    assert b == a + (b - a);
  }

  lemma ResumeAttempts(before: map<NodeId, NodeState>, after: map<NodeId, NodeState>,
                       interrupts: map<Id, InterruptRecord>, ids: seq<Id>)
    requires AttemptsBounded(before, interrupts) && Released(before, after, ToSet(Holders(interrupts, ids)))
    requires forall i | i in ids :: i in interrupts && interrupts[i].status == Open
    ensures AttemptsBounded(after, ResolveAll(interrupts, ids))
  {
    forall n | n in after
      ensures after[n].attempt <= |ResolvedFor(ResolveAll(interrupts, ids), n)| + (if after[n].status == Ready then 0 else 1)
    {
      ResolvedGrows(interrupts, ids, n);
    }
  }

  /** Either nothing is resolved, or nothing stays open. */
  lemma ResumeHolds(before: map<NodeId, NodeState>, after: map<NodeId, NodeState>,
                    interrupts: map<Id, InterruptRecord>, ids: seq<Id>)
    requires InterruptsHeld(before, interrupts, false) && Released(before, after, ToSet(Holders(interrupts, ids)))
    requires ids == [] || forall i | i in interrupts && interrupts[i].status == Open :: i in ids
    ensures InterruptsHeld(after, ResolveAll(interrupts, ids), false)
  {
    HoldersMembers(interrupts, ids);
    var resolved := ResolveAll(interrupts, ids);
    forall i | i in resolved && resolved[i].status == Open ensures Holds(after[resolved[i].nodeId.value].status, false) {
      assert ids == [] && Holds(before[interrupts[i].nodeId.value].status, false);
    }
    forall n | n in after && after[n].status == Blocked ensures OpenAt(resolved, n) {
      var i :| i in interrupts && interrupts[i].nodeId == Some(n) && interrupts[i].status == Open;
      assert i !in ids;
      assert resolved[i] == interrupts[i];
    }
  }

  lemma ResumeTrails(wf: Compiled, before: map<NodeId, NodeState>, after: map<NodeId, NodeState>, held: set<NodeId>)
    requires Trails(wf, before) && Begun(before, false) && Released(before, after, held)
    requires forall n | n in held :: before[n].status == Waiting || before[n].status == Blocked
    ensures Trails(wf, after) && Begun(after, false)
  {
    forall n | n in after && Entered(after[n]) ensures HasTrail(wf, after, n) {
      TrailsSurvive(wf, before, after, n);
    }
  }

  lemma ResumeKeepsNodes(wf: Compiled, before: map<NodeId, NodeState>, after: map<NodeId, NodeState>,
                         interrupts: map<Id, InterruptRecord>, ids: seq<Id>)
    requires InterruptsHeld(before, interrupts, false) && AttemptsBounded(before, interrupts)
    requires Trails(wf, before) && Begun(before, false)
    requires Released(before, after, ToSet(Holders(interrupts, ids))) && NoneRunning(before)
    requires forall n | n in Holders(interrupts, ids) :: before[n].status == Waiting || before[n].status == Blocked
    requires forall i | i in ids :: i in interrupts && interrupts[i].status == Open
    requires ids == [] || forall i | i in interrupts && interrupts[i].status == Open :: i in ids
    ensures InterruptsHeld(after, ResolveAll(interrupts, ids), false)
    ensures AttemptsBounded(after, ResolveAll(interrupts, ids))
    ensures Trails(wf, after) && Begun(after, false) && NoneRunning(after)
  {
    ResumeHolds(before, after, interrupts, ids);
    ResumeAttempts(before, after, interrupts, ids);
    ResumeTrails(wf, before, after, ToSet(Holders(interrupts, ids)));
  }

  lemma ResumeReleases(s: Snapshot, ids: seq<Id>, t: Snapshot)
    requires ResumedFrom(s, ids, t) && forall n | n in Holders(s.interrupts, ids) :: n in s.nodes
    ensures Released(s.nodes, t.nodes, ToSet(Holders(s.interrupts, ids)))
  {
  }

  lemma ResumeKeepsCore(wf: Compiled, s: Snapshot, ids: seq<Id>, t: Snapshot)
    requires RunCore(wf, s) && NoneRunning(s.nodes) && s.run.status != RunCancelled && ResumedFrom(s, ids, t)
    requires forall n | n in Holders(s.interrupts, ids) ::
               n in s.nodes && (s.nodes[n].status == Waiting || s.nodes[n].status == Blocked)
    requires forall i | i in ids :: i in s.interrupts && s.interrupts[i].status == Open
    requires ids == [] || forall i | i in s.interrupts && s.interrupts[i].status == Open :: i in ids
    ensures RunCore(wf, t)
  {
    ResumeReleases(s, ids, t);
    ResumeListsAgree(s, ids, Holders(s.interrupts, ids), t);
    ResumeKeepsNodes(wf, s.nodes, t.nodes, s.interrupts, ids);
    ResumeFrontier(s.runState.frontier, Holders(s.interrupts, ids), s.nodes, t.nodes);
  }

  lemma ResumeFrontier(frontier: seq<NodeId>, holders: seq<NodeId>, before: map<NodeId, NodeState>,
                       after: map<NodeId, NodeState>)
    requires FrontierWaits(frontier, before) && Released(before, after, ToSet(holders))
    ensures FrontierWaits(MergeUnique(frontier, holders), after) && FrontierWaits(frontier, after)
  {
  }

  /** The nodes that the log knows as owners of some interrupts. */
  function Freed(owner: map<Id, Option<NodeId>>, ids: seq<Id>): set<NodeId> {
    if ids == [] then {}
    else
      (if ids[0] in owner && owner[ids[0]].Some? then {owner[ids[0]].value} else {}) + Freed(owner, ids[1..])
  }

  function MadeReady(nodes: map<NodeId, NodeStatus>, freed: set<NodeId>): map<NodeId, NodeStatus> {
    map n | n in nodes.Keys + freed :: if n in freed then Ready else nodes[n]
  }

  lemma {:induction false} ReplayResolved(all: set<NodeId>, l: LogState, ids: seq<Id>)
    ensures ReplayKinds(all, l, ResumeKinds(ids))
            == l.(run := RunRunning, pending := l.pending - ToSet(ids), nodes := MadeReady(l.nodes, Freed(l.owner, ids)))
    decreases |ids|
  {
    var kinds := ResumeKinds(ids);
    if ids == [] {
      assert kinds[1..] == [] && kinds[0] == RunResumed;
      assert ToSet(ids) == {} && MadeReady(l.nodes, {}) == l.nodes;
    } else {
      assert kinds[1..] == ResumeKinds(ids[1..]) && kinds[0] == InterruptResolved(ids[0]);
      var next := ReplayEvent(all, l, InterruptResolved(ids[0]));
      ReplayResolved(all, next, ids[1..]);
      assert ToSet(ids) == {ids[0]} + ToSet(ids[1..]);
      var first := if ids[0] in l.owner && l.owner[ids[0]].Some? then {l.owner[ids[0]].value} else {};
      assert next == l.(pending := l.pending - {ids[0]}, nodes := MadeReady(l.nodes, first));
      MadeReadyTwice(l.nodes, first, Freed(l.owner, ids[1..]));
    }
  }

  lemma MadeReadyTwice(nodes: map<NodeId, NodeStatus>, a: set<NodeId>, b: set<NodeId>)
    ensures MadeReady(MadeReady(nodes, a), b) == MadeReady(nodes, a + b)
  {
  }

  lemma {:induction false} FreedAreHolders(interrupts: map<Id, InterruptRecord>, ids: seq<Id>)
    requires forall i | i in ids :: i in interrupts
    ensures Freed(Owners(interrupts), ids) == ToSet(Holders(interrupts, ids))
  {
    if ids != [] {
      assert ids[0] in ids;
      FreedAreHolders(interrupts, ids[1..]);
    }
  }

  lemma ReleasedTold(before: map<NodeId, NodeState>, after: map<NodeId, NodeState>, held: set<NodeId>)
    requires Released(before, after, held)
    ensures MadeReady(Statuses(before), held) == Statuses(after)
  {
  }

  lemma ResolvedTold(interrupts: map<Id, InterruptRecord>, ids: seq<Id>, pending: seq<Id>)
    ensures Owners(ResolveAll(interrupts, ids)) == Owners(interrupts)
    ensures ToSet(Without(pending, ToSet(ids))) == ToSet(pending) - ToSet(ids)
  {
  }

  lemma ResumeTold(all: set<NodeId>, s: Snapshot, ids: seq<Id>, t: Snapshot)
    requires Released(s.nodes, t.nodes, ToSet(Holders(s.interrupts, ids)))
    requires t.run.status == RunRunning && t.interrupts == ResolveAll(s.interrupts, ids)
    requires t.runState.pendingInterrupts == Without(s.runState.pendingInterrupts, ToSet(ids))
    requires forall i | i in ids :: i in s.interrupts
    ensures ReplayKinds(all, Abs(s), ResumeKinds(ids)) == Abs(t)
  {
    ReplayResolved(all, Abs(s), ids);
    FreedAreHolders(s.interrupts, ids);
    ReleasedTold(s.nodes, t.nodes, ToSet(Holders(s.interrupts, ids)));
    ResolvedTold(s.interrupts, ids, s.runState.pendingInterrupts);
  }

  lemma ResumeSnapshotOk(s: Snapshot, ids: seq<Id>)
    requires SnapshotOk(s) && Apply(s, ResumePatch(s, ids)).Ok?
    ensures SnapshotOk(Apply(s, ResumePatch(s, ids)).value)
  {
    ApplyKeepsSnapshotOk(s, ResumePatch(s, ids));
  }

  /** Resuming is never rejected and keeps the invariant. */
  lemma ResumeKeeps(wf: Compiled, s: Snapshot, ids: seq<Id>)
    requires Resumable(wf, s, ids)
    ensures Apply(s, ResumePatch(s, ids)).Ok?
    ensures var t := Apply(s, ResumePatch(s, ids)).value;
            && SnapCore(wf, t) && ResumedFrom(s, ids, t)
            && Released(s.nodes, t.nodes, ToSet(Holders(s.interrupts, ids)))
            && ReplayKinds(wf.specs.Keys, Abs(s), ResumeKinds(ids)) == Abs(t)
  {
    ResumeApplies(wf, s, ids);
    var t := Apply(s, ResumePatch(s, ids)).value;
    ResumeSnapshotOk(s, ids);
    HoldersAreHeld(wf, s, ids);
    ResumeReleases(s, ids, t);
    ResumeKeepsCore(wf, s, ids, t);
    ResumeTold(wf.specs.Keys, s, ids, t);
  }
}
