/** Folding an executor's result into the run. */
module RunResults {
  import opened Common
  import opened Lists
  import opened Models
  import opened Workflow
  import opened Reducer
  import opened ReducerFacts
  import opened Events
  import opened RunMachine
  import opened RunInvariant
  import opened RunOps

  /* ---- An honest result is accepted ---- */

  ghost predicate NewArtifacts(run: Id, thread: Id, old_: map<Id, ArtifactRecord>, xs: seq<ArtifactRecord>) {
    |xs| <= 1 && forall x | x in xs :: x.runId == run && x.threadId == thread && x.artifactId !in old_
  }

  ghost predicate NewInterrupts(run: Id, thread: Id, old_: map<Id, InterruptRecord>, xs: seq<InterruptRecord>) {
    && (forall x | x in xs :: x.runId == run && x.threadId == thread && x.interruptId !in old_)
    && (forall i, j :: 0 <= i < j < |xs| ==> xs[i].interruptId != xs[j].interruptId)
  }

  ghost predicate NewDecisions(run: Id, old_: map<Id, PolicyDecision>, xs: seq<PolicyDecision>) {
    && (forall x | x in xs :: x.runId == run && x.decisionId !in old_)
    && (forall i, j :: 0 <= i < j < |xs| ==> xs[i].decisionId != xs[j].decisionId)
  }

  ghost predicate NewSideEffects(run: Id, old_: map<Id, SideEffect>, xs: seq<SideEffect>) {
    && (forall x | x in xs :: x.runId == run && x.sideEffectId !in old_)
    && (forall i, j :: 0 <= i < j < |xs| ==> xs[i].sideEffectId != xs[j].sideEffectId)
  }

  lemma ArtifactsAccepted(s: Snapshot, xs: seq<ArtifactRecord>)
    requires NewArtifacts(s.runState.runId, s.threadState.threadId, s.artifacts, xs)
    ensures ApplyArtifacts(s, xs).Ok?
  {
    if xs != [] {
      assert xs[0] in xs;
      assert Fold(AddArtifact, s, xs) == Fold(AddArtifact, AddArtifact(s, xs[0]).value, []);
    }
  }

  lemma {:induction false} InterruptsAccepted(s: Snapshot, xs: seq<InterruptRecord>)
    requires NewInterrupts(s.runState.runId, s.threadState.threadId, s.interrupts, xs)
    ensures Fold(AddInterrupt, s, xs).Ok?
    decreases |xs|
  {
    if xs != [] {
      assert xs[0] in xs;
      forall x | x in xs[1..] ensures x.interruptId != xs[0].interruptId {
        var k :| 0 <= k < |xs[1..]| && xs[1..][k] == x;
        assert xs[k + 1] == x;
      }
      InterruptsAccepted(AddInterrupt(s, xs[0]).value, xs[1..]);
    }
  }

  lemma {:induction false} DecisionsAccepted(s: Snapshot, xs: seq<PolicyDecision>)
    requires NewDecisions(s.runState.runId, s.decisions, xs)
    ensures Fold(AddDecision, s, xs).Ok?
    decreases |xs|
  {
    if xs != [] {
      assert xs[0] in xs;
      forall x | x in xs[1..] ensures x.decisionId != xs[0].decisionId {
        var k :| 0 <= k < |xs[1..]| && xs[1..][k] == x;
        assert xs[k + 1] == x;
      }
      DecisionsAccepted(AddDecision(s, xs[0]).value, xs[1..]);
    }
  }

  lemma {:induction false} SideEffectsAccepted(s: Snapshot, xs: seq<SideEffect>)
    requires NewSideEffects(s.runState.runId, s.sideEffects, xs)
    ensures Fold(AddSideEffect, s, xs).Ok?
    decreases |xs|
  {
    if xs != [] {
      assert xs[0] in xs;
      forall x | x in xs[1..] ensures x.sideEffectId != xs[0].sideEffectId {
        var k :| 0 <= k < |xs[1..]| && xs[1..][k] == x;
        assert xs[k + 1] == x;
      }
      SideEffectsAccepted(AddSideEffect(s, xs[0]).value, xs[1..]);
    }
  }

  /** What the contract gives for a running node's result: records new to the snapshot and of its run. */
  ghost predicate Acceptable(s: Snapshot, n: NodeId, r: NodeResult, artifacts: seq<ArtifactRecord>) {
    && !r.status.Pending? && !r.status.Ready? && !r.status.Running?
    && HonestStatus(r) && BringsNew(s, n, r, artifacts)
  }

  ghost predicate BringsNew(s: Snapshot, n: NodeId, r: NodeResult, artifacts: seq<ArtifactRecord>) {
    && (forall x | x in r.interrupts :: x.nodeId == Some(n) && x.status == Open)
    && NewInterrupts(s.run.runId, s.run.threadId, s.interrupts, r.interrupts)
    && NewDecisions(s.run.runId, s.decisions, r.decisions)
    && NewSideEffects(s.run.runId, s.sideEffects, r.sideEffects)
    && NewArtifacts(s.run.runId, s.run.threadId, s.artifacts, artifacts)
  }

  ghost predicate RunsNode(wf: Compiled, s: Snapshot, n: NodeId) {
    SnapCore(wf, s) && s.run.status == RunRunning && n in s.nodes && s.nodes[n].status == Running
  }

  lemma ResultListsValid(wf: Compiled, s: Snapshot, n: NodeId, r: NodeResult, nextId: nat)
    requires RunsNode(wf, s, n)
    ensures AmendRunState(s.runState, ResultPatch(s, wf, n, r, nextId).runState).Valid()
  {
    var x := s.runState;
    RelistRelists(x.completed, n, r.status == Succeeded);
    RelistRelists(x.failed, n, r.status == Failed);
    RelistRelists(x.waiting, n, r.status == Waiting);
    RelistRelists(x.blocked, n, r.status == Blocked);
  }

  /** The snapshot after the record and node stages. */
  function ResultBase(s: Snapshot, p: StatePatch): Snapshot {
    s.(runState := AmendRunState(s.runState, p.runState), nodes := Patched(s.nodes, p.nodes))
  }

  lemma BaseApplies(s: Snapshot, p: StatePatch, n: NodeId, u: NodeUpdate)
    requires p.thread == NO_THREAD && p.run == NO_RUN && p.threadState == NO_THREAD_STATE
    requires p.runState != NO_RUN_STATE && AmendRunState(s.runState, p.runState).Valid()
    requires p.nodes == map[n := u] && n in s.nodes && AmendNode(s.nodes[n], u).Valid()
    ensures ApplyRecords(s, p).Ok? && ApplyNodeUpdates(ApplyRecords(s, p).value, p.nodes) == Ok(ResultBase(s, p))
  {
  }

  /** The stages that add records to `b`. */
  function Recorded(b: Snapshot, p: StatePatch): Result<Snapshot, Error> {
    var s4 :- ApplyArtifacts(b, p.artifacts);
    var s5 :- ApplyInterrupts(s4, p.interrupts);
    var s7 :- Fold(AddDecision, s5, p.decisions);
    Fold(AddSideEffect, s7, p.sideEffects)
  }

  lemma RecordedOk(b: Snapshot, p: StatePatch, run: Id, thread: Id)
    requires run == b.runState.runId && thread == b.threadState.threadId
    requires NewArtifacts(run, thread, b.artifacts, p.artifacts) && NewInterrupts(run, thread, b.interrupts, p.interrupts)
    requires NewDecisions(run, b.decisions, p.decisions) && NewSideEffects(run, b.sideEffects, p.sideEffects)
    ensures Recorded(b, p).Ok?
  {
    hide Fold, OpenIds, MergeUnique, NodesLinked, Extends, AddArtifact, AddInterrupt, AddDecision, AddSideEffect;
    ArtifactsAccepted(b, p.artifacts);
    ArtifactFold(b, p.artifacts);
    var s4 := ApplyArtifacts(b, p.artifacts).value;
    InterruptsAccepted(s4, p.interrupts);
    InterruptFold(s4, p.interrupts);
    var s5 := ApplyInterrupts(s4, p.interrupts).value;
    DecisionsAccepted(s5, p.decisions);
    DecisionRecords(s5, p.decisions);
    SideEffectsAccepted(Fold(AddDecision, s5, p.decisions).value, p.sideEffects);
  }

  lemma ApplyIsRecorded(s: Snapshot, p: StatePatch)
    requires p.upserts == [] && p.interruptUpdates == []
    requires ApplyRecords(s, p).Ok? && ApplyNodeUpdates(ApplyRecords(s, p).value, p.nodes) == Ok(ResultBase(s, p))
    ensures Apply(s, p) == Recorded(ResultBase(s, p), p)
  {
  }

  ghost predicate StatusKept(before: map<NodeId, NodeState>, after: map<NodeId, NodeState>) {
    && after.Keys == before.Keys
    && forall n | n in before :: after[n].status == before[n].status && after[n].attempt == before[n].attempt
  }

  lemma {:induction false} DecisionsKeepStatus(s: Snapshot, xs: seq<PolicyDecision>)
    requires Fold(AddDecision, s, xs).Ok?
    ensures StatusKept(s.nodes, Fold(AddDecision, s, xs).value.nodes)
    decreases |xs|
  {
    if xs != [] {
      DecisionsKeepStatus(AddDecision(s, xs[0]).value, xs[1..]);
    }
  }

  lemma {:induction false} SideEffectsKeepStatus(s: Snapshot, xs: seq<SideEffect>)
    requires Fold(AddSideEffect, s, xs).Ok?
    ensures StatusKept(s.nodes, Fold(AddSideEffect, s, xs).value.nodes)
    decreases |xs|
  {
    if xs != [] {
      SideEffectsKeepStatus(AddSideEffect(s, xs[0]).value, xs[1..]);
    }
  }

  lemma RecordedKeepsStatus(b: Snapshot, p: StatePatch)
    requires Recorded(b, p).Ok?
    ensures StatusKept(b.nodes, Recorded(b, p).value.nodes)
  {
    var s4 := ApplyArtifacts(b, p.artifacts).value;
    ArtifactFold(b, p.artifacts);
    LinkedKeepsIdentity(b.nodes, s4.nodes);
    var s5 := ApplyInterrupts(s4, p.interrupts).value;
    InterruptFold(s4, p.interrupts);
    DecisionsKeepStatus(s5, p.decisions);
    SideEffectsKeepStatus(Fold(AddDecision, s5, p.decisions).value, p.sideEffects);
  }

  /** Added records are exactly the given ones, under their own ids; nothing is overwritten. */
  ghost predicate RecordsAdded(b: Snapshot, p: StatePatch, t: Snapshot) {
    && Extends(b.interrupts, t.interrupts)
    && (forall x | x in p.interrupts :: x.interruptId in t.interrupts && t.interrupts[x.interruptId] == x)
    && (forall i | i in t.interrupts && i !in b.interrupts :: t.interrupts[i] in p.interrupts && t.interrupts[i].interruptId == i)
    && Extends(b.artifacts, t.artifacts)
    && (forall a | a in t.artifacts && a !in b.artifacts :: t.artifacts[a] in p.artifacts && t.artifacts[a].artifactId == a)
    && Extends(b.decisions, t.decisions)
    && (forall d | d in t.decisions && d !in b.decisions :: t.decisions[d] in p.decisions && t.decisions[d].decisionId == d)
    && Extends(b.sideEffects, t.sideEffects)
    && (forall e | e in t.sideEffects && e !in b.sideEffects ::
          t.sideEffects[e] in p.sideEffects && t.sideEffects[e].sideEffectId == e)
  }

  lemma RecordedAdds(b: Snapshot, p: StatePatch)
    requires Recorded(b, p).Ok?
    ensures var t := Recorded(b, p).value;
            && RecordsAdded(b, p, t)
            && t.thread == b.thread && t.run == b.run
            && t.threadState == b.threadState.(artifactIds := t.threadState.artifactIds, version := t.threadState.version)
            && t.runState == b.runState.(pendingInterrupts := t.runState.pendingInterrupts,
                                         pendingApprovals := t.runState.pendingApprovals,
                                         version := t.runState.version)
  {
    ArtifactFold(b, p.artifacts);
    var s4 := ApplyArtifacts(b, p.artifacts).value;
    InterruptFold(s4, p.interrupts);
    var s5 := ApplyInterrupts(s4, p.interrupts).value;
    DecisionRecords(s5, p.decisions);
    SideEffectRecords(Fold(AddDecision, s5, p.decisions).value, p.sideEffects);
  }

  /** What a result leaves behind: statuses and lists change at `n`, records are added, the rest stays. */
  ghost predicate ResultFrom(s: Snapshot, n: NodeId, p: StatePatch, status: NodeStatus, t: Snapshot) {
    Settled(s, n, status, t) && RecordsAdded(s, p, t)
  }

  ghost predicate Settled(s: Snapshot, n: NodeId, status: NodeStatus, t: Snapshot) {
    && t.thread == s.thread && t.run == s.run
    && t.threadState == s.threadState.(artifactIds := t.threadState.artifactIds, version := t.threadState.version)
    && t.runState.status == s.runState.status && t.runState.frontier == s.runState.frontier
    && t.runState.completed == Relist(s.runState.completed, n, status == Succeeded)
    && t.runState.failed == Relist(s.runState.failed, n, status == Failed)
    && t.runState.waiting == Relist(s.runState.waiting, n, status == Waiting)
    && t.runState.blocked == Relist(s.runState.blocked, n, status == Blocked)
    && t.runState.active == Without(s.runState.active, {n})
    && OnlyAt(s.nodes, t.nodes, n)
    && t.nodes[n].status == status && t.nodes[n].attempt == s.nodes[n].attempt
  }

  lemma ResultApplies(wf: Compiled, s: Snapshot, n: NodeId, r: NodeResult, nextId: nat)
    requires RunsNode(wf, s, n) && BringsNew(s, n, r, ResultArtifacts(s, wf, n, r, nextId))
    ensures var p := ResultPatch(s, wf, n, r, nextId);
            && Apply(s, p).Ok? && Apply(s, p) == Recorded(ResultBase(s, p), p)
  {
    var p := ResultPatch(s, wf, n, r, nextId);
    ResultListsValid(wf, s, n, r, nextId);
    BaseApplies(s, p, n, NodeUpdate(Some(r.status), None, None, Some(r.error)));
    ApplyIsRecorded(s, p);
    RecordedOk(ResultBase(s, p), p, s.run.runId, s.run.threadId);
  }

  lemma SameRecordsAdded(s: Snapshot, b: Snapshot, p: StatePatch, t: Snapshot)
    requires RecordsAdded(b, p, t) && b == s.(runState := b.runState, nodes := b.nodes)
    ensures RecordsAdded(s, p, t)
  {
  }

  lemma BaseChangesOne(wf: Compiled, s: Snapshot, n: NodeId, r: NodeResult, nextId: nat)
    requires n in s.nodes
    ensures var b := ResultBase(s, ResultPatch(s, wf, n, r, nextId));
            OnlyAt(s.nodes, b.nodes, n) && b.nodes[n].status == r.status && b.nodes[n].attempt == s.nodes[n].attempt
  {
  }

  lemma ResultEffect(wf: Compiled, s: Snapshot, n: NodeId, r: NodeResult, nextId: nat)
    requires RunsNode(wf, s, n) && BringsNew(s, n, r, ResultArtifacts(s, wf, n, r, nextId))
    ensures var p := ResultPatch(s, wf, n, r, nextId);
            Apply(s, p).Ok? && ResultFrom(s, n, p, r.status, Apply(s, p).value)
  {
    var p := ResultPatch(s, wf, n, r, nextId);
    ResultApplies(wf, s, n, r, nextId);
    var b := ResultBase(s, p);
    var t := Apply(s, p).value;
    RecordedKeepsStatus(b, p);
    RecordedAdds(b, p);
    SameRecordsAdded(s, b, p, t);
    BaseChangesOne(wf, s, n, r, nextId);
  }

  /* ---- The invariant after a result ---- */

  /** `after` has the interrupts of `before` and the open ones of `xs`. */
  ghost predicate Opened(before: map<Id, InterruptRecord>, after: map<Id, InterruptRecord>, xs: seq<InterruptRecord>) {
    && Extends(before, after)
    && (forall x | x in xs :: x.status == Open && x.interruptId !in before
                              && x.interruptId in after && after[x.interruptId] == x)
    && (forall i | i in after && i !in before :: after[i] in xs && after[i].interruptId == i)
  }

  lemma ResultListsAgree(s: Snapshot, n: NodeId, status: NodeStatus, t: Snapshot)
    requires ListsAgree(s) && Settled(s, n, status, t) && status != Running
    ensures ListsAgree(t)
  {
    RelistRelists(s.runState.completed, n, status == Succeeded);
    RelistRelists(s.runState.failed, n, status == Failed);
    RelistRelists(s.runState.waiting, n, status == Waiting);
    RelistRelists(s.runState.blocked, n, status == Blocked);
    ListsFollow(s, t, n);
  }

  lemma ResultHolds(before: map<NodeId, NodeState>, after: map<NodeId, NodeState>, n: NodeId,
                    old_: map<Id, InterruptRecord>, new_: map<Id, InterruptRecord>, xs: seq<InterruptRecord>)
    requires InterruptsHeld(before, old_, false) && OnlyAt(before, after, n) && before[n].status == Running
    requires Opened(old_, new_, xs)
    requires xs != [] ==> after[n].status == Waiting || after[n].status == Blocked
    requires after[n].status == Blocked ==> xs != []
    requires forall x | x in xs :: x.nodeId == Some(n)
    ensures InterruptsHeld(after, new_, false)
  {
    forall i | i in new_ && new_[i].status == Open
      ensures new_[i].nodeId.Some? && new_[i].nodeId.value in after && Holds(after[new_[i].nodeId.value].status, false)
    {
      if i in old_ {
        assert Holds(before[old_[i].nodeId.value].status, false);
      } else {
        assert new_[i] in xs;
      }
    }
    forall m | m in after && after[m].status == Blocked ensures OpenAt(new_, m) {
      if m == n {
        assert xs[0] in xs;
        assert new_[xs[0].interruptId] == xs[0];
      } else {
        var i :| i in old_ && old_[i].nodeId == Some(m) && old_[i].status == Open;
        assert new_[i] == old_[i];
      }
    }
  }

  lemma OpenedKeepsResolved(before: map<Id, InterruptRecord>, after: map<Id, InterruptRecord>, xs: seq<InterruptRecord>)
    requires Opened(before, after, xs)
    ensures forall m :: ResolvedFor(after, m) == ResolvedFor(before, m)
  {
  }

  lemma ResultAttempts(before: map<NodeId, NodeState>, after: map<NodeId, NodeState>, n: NodeId,
                       old_: map<Id, InterruptRecord>, new_: map<Id, InterruptRecord>)
    requires AttemptsBounded(before, old_) && OnlyAt(before, after, n)
    requires forall m :: ResolvedFor(new_, m) == ResolvedFor(old_, m)
    requires before[n].status == Running && after[n].attempt == before[n].attempt
    requires after[n].status != Ready && after[n].status != Pending
    ensures AttemptsBounded(after, new_)
  {
  }

  lemma FrontierStillWaits(frontier: seq<NodeId>, before: map<NodeId, NodeState>, after: map<NodeId, NodeState>, n: NodeId)
    requires FrontierWaits(frontier, before) && OnlyAt(before, after, n)
    requires before[n].status != Ready && before[n].status != Pending
    ensures FrontierWaits(frontier, after)
  {
  }

  lemma ResultKeepsNodes(wf: Compiled, s: Snapshot, n: NodeId, xs: seq<InterruptRecord>,
                         nodes: map<NodeId, NodeState>, interrupts: map<Id, InterruptRecord>)
    requires InterruptsHeld(s.nodes, s.interrupts, false) && AttemptsBounded(s.nodes, s.interrupts)
    requires Trails(wf, s.nodes) && Begun(s.nodes, false)
    requires OnlyAt(s.nodes, nodes, n) && s.nodes[n].status == Running && Opened(s.interrupts, interrupts, xs)
    requires nodes[n].status != Ready && nodes[n].status != Pending && nodes[n].attempt == s.nodes[n].attempt
    requires xs != [] ==> nodes[n].status == Waiting || nodes[n].status == Blocked
    requires nodes[n].status == Blocked ==> xs != []
    requires forall x | x in xs :: x.nodeId == Some(n)
    ensures InterruptsHeld(nodes, interrupts, false) && AttemptsBounded(nodes, interrupts)
    ensures Trails(wf, nodes) && Begun(nodes, false)
  {
    ResultHolds(s.nodes, nodes, n, s.interrupts, interrupts, xs);
    OpenedKeepsResolved(s.interrupts, interrupts, xs);
    ResultAttempts(s.nodes, nodes, n, s.interrupts, interrupts);
    TrailsSurviveAt(wf, s.nodes, nodes, n);
  }

  lemma ResultKeepsCore(wf: Compiled, s: Snapshot, n: NodeId, xs: seq<InterruptRecord>, status: NodeStatus, t: Snapshot)
    requires RunCore(wf, s) && s.run.status == RunRunning && n in s.nodes && s.nodes[n].status == Running
    requires Settled(s, n, status, t) && Opened(s.interrupts, t.interrupts, xs)
    requires status != Ready && status != Pending && status != Running
    requires xs != [] ==> status == Waiting || status == Blocked
    requires status == Blocked ==> xs != []
    requires forall x | x in xs :: x.nodeId == Some(n)
    ensures RunCore(wf, t)
  {
    ResultListsAgree(s, n, status, t);
    ResultKeepsNodes(wf, s, n, xs, t.nodes, t.interrupts);
    FrontierStillWaits(s.runState.frontier, s.nodes, t.nodes, n);
  }

  lemma {:induction false} ReplayCreated(ids: set<NodeId>, l: LogState, xs: seq<InterruptRecord>)
    ensures var r := ReplayKinds(ids, l, CreatedKinds(xs));
            && r.nodes == l.nodes && r.run == l.run
            && (forall i :: i in r.pending <==> i in l.pending || exists x :: x in xs && x.interruptId == i)
            && (forall i :: i in r.owner <==> i in l.owner || exists x :: x in xs && x.interruptId == i)
            && (forall i | i in r.owner ::
                  || (i in l.owner && r.owner[i] == l.owner[i])
                  || exists x :: x in xs && x.interruptId == i && r.owner[i] == x.nodeId)
    decreases |xs|
  {
    if xs != [] {
      assert CreatedKinds(xs)[1..] == CreatedKinds(xs[1..]);
      ReplayCreated(ids, ReplayEvent(ids, l, CreatedKinds(xs)[0]), xs[1..]);
      assert forall x :: x in xs <==> x == xs[0] || x in xs[1..];
    }
  }

  lemma OpenedOwners(before: map<Id, InterruptRecord>, after: map<Id, InterruptRecord>, xs: seq<InterruptRecord>,
                     owner: map<Id, Option<NodeId>>)
    requires Opened(before, after, xs)
    requires forall i :: i in owner <==> i in before || exists x :: x in xs && x.interruptId == i
    requires forall i | i in owner ::
               || (i in before && owner[i] == before[i].nodeId)
               || exists x :: x in xs && x.interruptId == i && owner[i] == x.nodeId
    ensures owner == Owners(after)
  {
  }

  lemma OpenedPending(before: map<Id, InterruptRecord>, after: map<Id, InterruptRecord>, xs: seq<InterruptRecord>,
                      old_: seq<Id>, new_: seq<Id>, oa: seq<Id>, na: seq<Id>, pending: set<Id>)
    requires Opened(before, after, xs) && PendingAgrees(old_, oa, before) && PendingAgrees(new_, na, after)
    requires forall i :: i in pending <==> i in old_ || exists x :: x in xs && x.interruptId == i
    ensures pending == ToSet(new_)
  {
    forall i ensures i in pending <==> i in new_ {
      if i in new_ && i !in before {
        assert after[i] in xs;
      }
    }
  }

  /** The created events tell exactly the opened interrupts. */
  lemma OpenedTold(ids: set<NodeId>, l: LogState, before: map<Id, InterruptRecord>, after: map<Id, InterruptRecord>,
                   xs: seq<InterruptRecord>, old_: seq<Id>, new_: seq<Id>, oa: seq<Id>, na: seq<Id>)
    requires Opened(before, after, xs) && PendingAgrees(old_, oa, before) && PendingAgrees(new_, na, after)
    requires l.owner == Owners(before) && l.pending == ToSet(old_)
    ensures ReplayKinds(ids, l, CreatedKinds(xs)) == l.(owner := Owners(after), pending := ToSet(new_))
  {
    ReplayCreated(ids, l, xs);
    var r := ReplayKinds(ids, l, CreatedKinds(xs));
    OpenedOwners(before, after, xs, r.owner);
    OpenedPending(before, after, xs, old_, new_, oa, na, r.pending);
  }

  lemma ReplayHead(ids: set<NodeId>, l: LogState, kinds: seq<EventKind>)
    requires kinds != []
    ensures ReplayKinds(ids, l, kinds) == ReplayKinds(ids, ReplayEvent(ids, l, kinds[0]), kinds[1..])
  {
  }

  lemma ResultTold(ids: set<NodeId>, s: Snapshot, n: NodeId, xs: seq<InterruptRecord>, status: NodeStatus, t: Snapshot)
    requires OnlyAt(s.nodes, t.nodes, n) && t.nodes[n].status == status && t.run == s.run
    requires Opened(s.interrupts, t.interrupts, xs)
    requires PendingAgrees(s.runState.pendingInterrupts, s.runState.pendingApprovals, s.interrupts)
    requires PendingAgrees(t.runState.pendingInterrupts, t.runState.pendingApprovals, t.interrupts)
    ensures ReplayKinds(ids, Abs(s), [NodeReported(n, status)] + CreatedKinds(xs)) == Abs(t)
  {
    hide Opened, PendingAgrees, Owners, ReplayKinds;
    var kinds := [NodeReported(n, status)] + CreatedKinds(xs);
    var l := Abs(s).(nodes := Abs(s).nodes[n := status]);
    assert kinds[1..] == CreatedKinds(xs) && kinds[0] == NodeReported(n, status);
    ReplayHead(ids, Abs(s), kinds);
    assert l.nodes == Statuses(t.nodes);
    OpenedTold(ids, l, s.interrupts, t.interrupts, xs,
               s.runState.pendingInterrupts, t.runState.pendingInterrupts,
               s.runState.pendingApprovals, t.runState.pendingApprovals);
  }

  /** A running node's result is accepted and keeps everything but the rule on failed nodes. */
  lemma ResultKeeps(wf: Compiled, s: Snapshot, n: NodeId, r: NodeResult, nextId: nat)
    requires RunsNode(wf, s, n) && Acceptable(s, n, r, ResultArtifacts(s, wf, n, r, nextId))
    ensures var p := ResultPatch(s, wf, n, r, nextId);
            && Apply(s, p).Ok?
            && var t := Apply(s, p).value;
               && SnapCore(wf, t) && ResultFrom(s, n, p, r.status, t) && Opened(s.interrupts, t.interrupts, r.interrupts)
               && ReplayKinds(wf.specs.Keys, Abs(s), [NodeReported(n, r.status)] + CreatedKinds(r.interrupts)) == Abs(t)
  {
    var p := ResultPatch(s, wf, n, r, nextId);
    ResultEffect(wf, s, n, r, nextId);
    var t := Apply(s, p).value;
    ResultSnapshotOk(wf, s, n, r, nextId);
    ResultOpens(s, n, p, r, t);
    ResultKeepsCore(wf, s, n, r.interrupts, r.status, t);
    ResultTold(wf.specs.Keys, s, n, r.interrupts, r.status, t);
  }

  lemma ResultOpens(s: Snapshot, n: NodeId, p: StatePatch, r: NodeResult, t: Snapshot)
    requires ResultFrom(s, n, p, r.status, t) && p.interrupts == r.interrupts
    requires forall x | x in r.interrupts :: x.status == Open && x.interruptId !in s.interrupts
    ensures Opened(s.interrupts, t.interrupts, r.interrupts)
  {
  }

  lemma ResultSnapshotOk(wf: Compiled, s: Snapshot, n: NodeId, r: NodeResult, nextId: nat)
    requires RunsNode(wf, s, n) && BringsNew(s, n, r, ResultArtifacts(s, wf, n, r, nextId))
    requires Apply(s, ResultPatch(s, wf, n, r, nextId)).Ok?
    ensures SnapshotOk(Apply(s, ResultPatch(s, wf, n, r, nextId)).value)
  {
    hide Apply, RunCore, NewInterrupts, NewDecisions, NewSideEffects, NewArtifacts;
    ApplyKeepsSnapshotOk(s, ResultPatch(s, wf, n, r, nextId));
  }
}
