/** What one execution leaves stored, told by the executor's result: its status and error, its artifact or
    its bound output, its interrupts, decisions and side effects, and the events that tell them. */
module RunEffects {
  import opened Common
  import opened Models
  import opened Workflow
  import opened Reducer
  import opened ReducerFacts
  import opened ReducerFrames
  import opened ReducerReads
  import opened Events
  import opened RunMachine
  import opened RunInvariant
  import opened RunOps
  import opened RunResults
  import opened RunSteps

  /* ---- The result folded in ---- */

  /** The artifacts grow by the executor's own, or else by a new one for an output the node binds. */
  ghost predicate ArtifactsDelivered(wf: Compiled, s: Snapshot, n: NodeId, r: NodeResult, t: Snapshot) {
    if r.artifact.Some? then
      && r.artifact.value.artifactId !in s.artifacts
      && t.artifacts == s.artifacts[r.artifact.value.artifactId := r.artifact.value]
    else if r.output.Some? && n in wf.specs && wf.specs[n].binds then
      exists a: ArtifactRecord ::
        && a.artifactId !in s.artifacts && t.artifacts == s.artifacts[a.artifactId := a]
        && a.runId == s.run.runId && a.threadId == s.run.threadId && a.producer == n && a.payload == r.output.value
    else t.artifacts == s.artifacts
  }

  /** Every node that had no output gets the new artifact if it is the one named as its producer. */
  ghost predicate OutputsDelivered(s: Snapshot, t: Snapshot) {
    && t.nodes.Keys == s.nodes.Keys
    && forall m | m in s.nodes ::
         && (s.nodes[m].output.Some? ==> t.nodes[m].output == s.nodes[m].output)
         && (s.nodes[m].output == None ==>
               && (forall a | a in t.artifacts && a !in s.artifacts && t.artifacts[a].producer == m ::
                     t.nodes[m].output == Some(a))
               && ((forall a | a in t.artifacts && a !in s.artifacts :: t.artifacts[a].producer != m) ==>
                     t.nodes[m].output == None))
  }

  /** The node has the reported status and error; the other nodes keep theirs. */
  ghost predicate StatusDelivered(s: Snapshot, n: NodeId, r: NodeResult, t: Snapshot) {
    && n in s.nodes && t.nodes.Keys == s.nodes.Keys
    && t.nodes[n].status == r.status && t.nodes[n].error == r.error
    && (forall m | m in s.nodes ::
          && t.nodes[m].attempt == s.nodes[m].attempt && t.nodes[m].started == s.nodes[m].started
          && (m != n ==> t.nodes[m].status == s.nodes[m].status && t.nodes[m].error == s.nodes[m].error))
  }

  /** Interrupts, decisions and side effects grow by exactly those of the result, linked in their order. */
  ghost predicate RecordsDelivered(s: Snapshot, r: NodeResult, t: Snapshot) {
    && Opened(s.interrupts, t.interrupts, r.interrupts)
    && Appended(s.runState.pendingInterrupts, r.interrupts, false, t.runState.pendingInterrupts)
    && Appended(s.runState.pendingApprovals, r.interrupts, true, t.runState.pendingApprovals)
    && Extends(s.decisions, t.decisions)
    && (forall d | d in r.decisions :: d.decisionId in t.decisions && t.decisions[d.decisionId] == d)
    && (forall d | d in t.decisions && d !in s.decisions :: t.decisions[d] in r.decisions)
    && Extends(s.sideEffects, t.sideEffects)
    && (forall e | e in r.sideEffects :: e.sideEffectId in t.sideEffects && t.sideEffects[e.sideEffectId] == e)
    && (forall e | e in t.sideEffects && e !in s.sideEffects :: t.sideEffects[e] in r.sideEffects)
    && t.nodes.Keys == s.nodes.Keys
    && (forall m | m in s.nodes ::
          && t.nodes[m].decisionIds == s.nodes[m].decisionIds + DecisionIdsFor(r.decisions, m)
          && t.nodes[m].sideEffectIds == s.nodes[m].sideEffectIds + SideEffectIdsFor(r.sideEffects, m))
  }

  ghost predicate Delivered(wf: Compiled, s: Snapshot, n: NodeId, r: NodeResult, t: Snapshot) {
    && ArtifactsDelivered(wf, s, n, r, t) && OutputsDelivered(s, t)
    && StatusDelivered(s, n, r, t) && RecordsDelivered(s, r, t)
  }

  lemma GrowsByOne(before: map<Id, ArtifactRecord>, after: map<Id, ArtifactRecord>, xs: seq<ArtifactRecord>)
    requires |xs| <= 1 && Extends(before, after)
    requires forall x | x in xs :: x.artifactId in after && after[x.artifactId] == x
    requires forall a | a in after && a !in before :: after[a] in xs && after[a].artifactId == a
    ensures after == if xs == [] then before else before[xs[0].artifactId := xs[0]]
  {
    if xs != [] {
      assert xs[0] in xs;
      assert forall x | x in xs :: x == xs[0];
    }
  }

  lemma ResultArtifactsDelivered(wf: Compiled, s: Snapshot, n: NodeId, r: NodeResult, nextId: nat)
    requires Apply(s, ResultPatch(s, wf, n, r, nextId)).Ok?
    ensures ArtifactsDelivered(wf, s, n, r, Apply(s, ResultPatch(s, wf, n, r, nextId)).value)
  {
    hide Apply, Extends;
    var p := ResultPatch(s, wf, n, r, nextId);
    var t := Apply(s, p).value;
    RecordsCreated(s, p);
    ArtifactsNew(s, p);
    GrowsByOne(s.artifacts, t.artifacts, p.artifacts);
    assert p.artifacts != [] ==> p.artifacts[0] in p.artifacts;
  }

  lemma ArtifactsNew(s: Snapshot, p: StatePatch)
    requires Apply(s, p).Ok? && p.upserts == []
    ensures forall a | a in p.artifacts :: a.artifactId !in s.artifacts
  {
    var s2, s3, s4, s5, s6, s7 := Stages(s, p);
    ArtifactFold(s3, p.artifacts);
  }

  lemma ResultOutputsDelivered(wf: Compiled, s: Snapshot, n: NodeId, r: NodeResult, nextId: nat)
    requires Apply(s, ResultPatch(s, wf, n, r, nextId)).Ok?
    ensures OutputsDelivered(s, Apply(s, ResultPatch(s, wf, n, r, nextId)).value)
  {
    hide Apply, Extends;
    var p := ResultPatch(s, wf, n, r, nextId);
    var t := Apply(s, p).value;
    RecordsCreated(s, p);
    ArtifactsNew(s, p);
    NodeKeys(s, p);
    OneArtifact(s, wf, n, r, nextId);
    forall m | m in s.nodes
      ensures s.nodes[m].output.Some? ==> t.nodes[m].output == s.nodes[m].output
      ensures s.nodes[m].output == None ==>
                && (forall a | a in t.artifacts && a !in s.artifacts && t.artifacts[a].producer == m ::
                      t.nodes[m].output == Some(a))
                && ((forall a | a in t.artifacts && a !in s.artifacts :: t.artifacts[a].producer != m) ==>
                      t.nodes[m].output == None)
    {
      OutputIsFirstArtifact(s, p, m);
      forall a | a in t.artifacts && a !in s.artifacts && t.artifacts[a].producer == m ensures FirstBy(p.artifacts, m, 0) {
        assert t.artifacts[a] in p.artifacts;
      }
    }
  }

  lemma OneArtifact(s: Snapshot, wf: Compiled, n: NodeId, r: NodeResult, nextId: nat)
    ensures var xs := ResultPatch(s, wf, n, r, nextId).artifacts; xs == [] || xs == [xs[0]]
  {
  }

  lemma ResultStatusDelivered(wf: Compiled, s: Snapshot, n: NodeId, r: NodeResult, nextId: nat)
    requires n in s.nodes && Apply(s, ResultPatch(s, wf, n, r, nextId)).Ok?
    ensures StatusDelivered(s, n, r, Apply(s, ResultPatch(s, wf, n, r, nextId)).value)
  {
    hide Apply, OutputIs, Given;
    var p := ResultPatch(s, wf, n, r, nextId);
    var t := Apply(s, p).value;
    NodeKeys(s, p);
    forall m | m in s.nodes ensures NodeTakes(s.nodes[m], p, m, t.nodes[m]) {
      StoredGiven(s.nodes, m);
      NodeFieldsFrom(s, p, m, s.nodes[m]);
    }
  }

  lemma StoredGiven(nodes: map<NodeId, NodeState>, m: NodeId)
    requires m in nodes
    ensures Given(nodes, [], m, nodes[m])
  {
  }

  lemma ResultRecordsDelivered(wf: Compiled, s: Snapshot, n: NodeId, r: NodeResult, nextId: nat)
    requires SnapshotOk(s) && Apply(s, ResultPatch(s, wf, n, r, nextId)).Ok?
    requires Opened(s.interrupts, Apply(s, ResultPatch(s, wf, n, r, nextId)).value.interrupts, r.interrupts)
    ensures RecordsDelivered(s, r, Apply(s, ResultPatch(s, wf, n, r, nextId)).value)
  {
    var p := ResultPatch(s, wf, n, r, nextId);
    hide Apply, Opened, Appended;
    RecordsCreated(s, p);
    PendingGrows(s, p);
    ApplyLinksInOrder(s, p);
  }

  lemma ResultDelivered(wf: Compiled, s: Snapshot, n: NodeId, r: NodeResult, nextId: nat)
    requires SnapshotOk(s) && n in s.nodes && Apply(s, ResultPatch(s, wf, n, r, nextId)).Ok?
    requires Opened(s.interrupts, Apply(s, ResultPatch(s, wf, n, r, nextId)).value.interrupts, r.interrupts)
    ensures Delivered(wf, s, n, r, Apply(s, ResultPatch(s, wf, n, r, nextId)).value)
  {
    hide Apply, SnapshotOk, Opened, ArtifactsDelivered, OutputsDelivered, StatusDelivered, RecordsDelivered;
    ResultArtifactsDelivered(wf, s, n, r, nextId);
    ResultOutputsDelivered(wf, s, n, r, nextId);
    ResultStatusDelivered(wf, s, n, r, nextId);
    ResultRecordsDelivered(wf, s, n, r, nextId);
  }

  /* ---- What a commit leaves behind ---- */

  /** The log has grown by one event of the run for each kind, in their order. */
  ghost predicate Told(before: seq<Event>, after: seq<Event>, run: RunRecord, kinds: seq<EventKind>) {
    && before <= after && |after| == |before| + |kinds|
    && forall i :: |before| <= i < |after| ==>
         after[i].kind == kinds[i - |before|] && after[i].runId == Some(run.runId) && after[i].threadId == run.threadId
  }

  /** The patched snapshot stamped with the last event and the checkpoint, the new events in the log, and
      one checkpoint more that holds the snapshot as it was before its own stamp. */
  ghost predicate Left(env: Env, v: View, t: Snapshot, kinds: seq<EventKind>, w: View) {
    && kinds != [] && Stamped(t, w.snap)
    && Told(v.log, w.log, t.run, kinds)
    && |w.saved| == |v.saved| + 1 && v.saved <= w.saved
    && var (c, x) := w.saved[|v.saved|];
       && c.runId == t.run.runId && c.threadId == t.run.threadId
       && c.sequenceNo == w.log[|w.log| - 1].sequenceNo && c.cursor == Some(w.log[|w.log| - 1].eventId)
       && c.createdAt == env.clock(c.checkpointId.serial) && c.frontier == t.runState.frontier
       && x.thread == t.thread && x.run == t.run && x.threadState == t.threadState && x.runState == w.snap.runState
       && x.nodes == t.nodes && x.artifactIds == t.artifacts.Keys && x.interruptIds == t.interrupts.Keys
       && x.decisionIds == t.decisions.Keys && x.sideEffectIds == t.sideEffects.Keys && x.lastEvent == c.cursor
       && w.snap.runState.lastEvent == c.cursor && w.snap.thread.latestCheckpoint == Some(c.checkpointId)
  }

  lemma CommitLeaves(env: Env, v: View, base: Snapshot, p: StatePatch, kinds: seq<EventKind>)
    requires Apply(base, p).Ok? && kinds != []
    ensures var r := Commit(env, v, base, p, kinds); !r.raised && Left(env, v, Apply(base, p).value, kinds, r.view)
  {
    hide Apply, AppendEvents, SaveCheckpoint, Stamped, Left, CheckpointOf;
    var t := Apply(base, p).value;
    var w := AppendEvents(v.(snap := t), kinds);
    AppendLeaves(v, t, kinds);
    SaveLeaves(env, w);
    CommitStamps(env, v, base, p, kinds);
    LeftFrom(env, v, t, kinds, w, SaveCheckpoint(env, w));
  }

  lemma LeftFrom(env: Env, v: View, t: Snapshot, kinds: seq<EventKind>, w: View, x: View)
    requires kinds != [] && Stamped(t, x.snap) && w.log != []
    requires w.snap == t.(runState := w.snap.runState) && w.snap.runState.frontier == t.runState.frontier
    requires w.saved == v.saved && Told(v.log, w.log, t.run, kinds)
    requires w.snap.runState.lastEvent == Some(w.log[|w.log| - 1].eventId)
    requires x.log == w.log && |x.saved| == |w.saved| + 1 && w.saved <= x.saved
    requires x.saved[|w.saved|] == (CheckpointOf(env, w), PayloadOf(w.snap, LatestId(w.log)))
    requires x.snap.runState == w.snap.runState
    requires x.snap.thread.latestCheckpoint == Some(CheckpointOf(env, w).checkpointId)
    ensures Left(env, v, t, kinds, x)
  {
  }

  lemma AppendLeaves(v: View, t: Snapshot, kinds: seq<EventKind>)
    requires kinds != []
    ensures var w := AppendEvents(v.(snap := t), kinds);
            && w.snap == t.(runState := w.snap.runState) && w.snap.runState.frontier == t.runState.frontier
            && w.saved == v.saved && Told(v.log, w.log, t.run, kinds)
            && w.snap.runState.lastEvent == Some(w.log[|w.log| - 1].eventId)
  {
  }

  lemma SaveLeaves(env: Env, w: View)
    requires w.log != []
    ensures var x := SaveCheckpoint(env, w);
            && x.log == w.log && |x.saved| == |w.saved| + 1 && w.saved <= x.saved
            && x.saved[|w.saved|] == (CheckpointOf(env, w), PayloadOf(w.snap, LatestId(w.log)))
            && x.snap.runState == w.snap.runState
            && x.snap.thread.latestCheckpoint == Some(CheckpointOf(env, w).checkpointId)
  {
  }

  /* ---- Ending a run ---- */

  /** The run has the status and the failure given, its thread is free and active, nothing is queued or in
      execution, and all its records stand as they did. */
  ghost predicate Ended(s: Snapshot, status: RunStatus, failure: Option<FailureCode>, t: Snapshot) {
    && t == s.(thread := t.thread, run := t.run, threadState := t.threadState, runState := t.runState)
    && t.run == s.run.(status := status, failure := failure, version := s.run.version + 1)
    && t.thread.currentRun == None && t.thread.status == s.thread.status && t.thread.threadId == s.thread.threadId
    && t.threadState.activeRun == None && t.threadState.status == ThreadActive
    && t.threadState.threadId == s.threadState.threadId && t.threadState.artifactIds == s.threadState.artifactIds
    && t.runState.status == status && t.runState.frontier == [] && t.runState.active == []
    && t.runState.completed == s.runState.completed && t.runState.failed == s.runState.failed
    && t.runState.waiting == s.runState.waiting && t.runState.blocked == s.runState.blocked
    && t.runState.pendingInterrupts == s.runState.pendingInterrupts
    && t.runState.pendingApprovals == s.runState.pendingApprovals
  }

  lemma EndedStamped(s: Snapshot, status: RunStatus, failure: Option<FailureCode>, t: Snapshot, u: Snapshot)
    requires Ended(s, status, failure, t) && Stamped(t, u)
    ensures Ended(s, status, failure, u)
  {
  }

  lemma EndEnds(wf: Compiled, s: Snapshot, status: RunStatus, failure: Option<Option<FailureCode>>, low: nat)
    requires SnapCore(wf, s) && s.run.status == RunRunning && NoneRunning(s.nodes) && IdsBelow(s, low)
    requires status == RunFailed || (status == RunCompleted && NoneFailed(s.nodes))
    ensures Apply(s, EndPatch(status, failure)).Ok?
    ensures Ended(s, status, failure.GetOr(s.run.failure), Apply(s, EndPatch(status, failure)).value)
  {
    hide Apply, SnapCore, SnapInv, ThreadNames, IdsBelow;
    EndSnapshot(wf, s, status, failure, low);
    PatchedByNothing(s.nodes);
  }

  /* ---- Finishing a node ---- */

  lemma DeliveredLater(wf: Compiled, s: Snapshot, n: NodeId, r: NodeResult, t: Snapshot, u: Snapshot)
    requires Delivered(wf, s, n, r, t)
    requires u.nodes == t.nodes && u.artifacts == t.artifacts && u.interrupts == t.interrupts
    requires u.decisions == t.decisions && u.sideEffects == t.sideEffects
    requires u.runState.pendingInterrupts == t.runState.pendingInterrupts
    requires u.runState.pendingApprovals == t.runState.pendingApprovals
    ensures Delivered(wf, s, n, r, u)
  {
    hide Opened, Appended, Extends;
  }

  function ToldKinds(n: NodeId, r: NodeResult): seq<EventKind> {
    [NodeReported(n, r.status)] + CreatedKinds(r.interrupts)
  }

  /** What is stored of the run once the node's result is in. */
  ghost predicate Finishes(wf: Compiled, v: View, n: NodeId, r: NodeResult, w: View) {
    && Delivered(wf, v.snap, n, r, w.snap)
    && if r.status == Failed then
         && Told(v.log, w.log, v.snap.run, ToldKinds(n, r) + [RunFailure(NodeFailure(r.error))])
         && w.snap.run == v.snap.run.(status := RunFailed, failure := Some(NodeFailure(r.error)),
                                      version := v.snap.run.version + 1)
         && w.snap.thread.currentRun == None && w.snap.threadState.activeRun == None
         && w.snap.threadState.status == ThreadActive && w.snap.runState.frontier == []
       else
         && Told(v.log, w.log, v.snap.run, ToldKinds(n, r))
         && w.snap.run == v.snap.run && w.snap.runState.frontier == v.snap.runState.frontier
         && w.snap.thread.currentRun == v.snap.thread.currentRun && w.snap.thread.status == v.snap.thread.status
         && w.snap.threadState.activeRun == v.snap.threadState.activeRun
         && w.snap.threadState.status == v.snap.threadState.status
  }

  lemma SettleLeaves(wf: Compiled, env: Env, v: View, n: NodeId, r: NodeResult, low: nat)
    requires Executing(wf, v, n) && IdsBelow(v.snap, low)
    requires HonestResult(v.snap, n, r, low, v.nextId) && low <= v.nextId
    ensures Apply(v.snap, ResultPatch(v.snap, wf, n, r, v.nextId)).Ok?
    ensures var t := Apply(v.snap, ResultPatch(v.snap, wf, n, r, v.nextId)).value;
            && Delivered(wf, v.snap, n, r, t) && RecordsTaken(v.snap, t)
            && SnapCore(wf, t) && t.run == v.snap.run && t.run.status == RunRunning && NoneRunning(t.nodes)
            && IdsBelow(t, AfterArtifact(v.snap, wf, n, r, v.nextId))
            && !SettleNode(env, wf, v, n, r).raised
            && Left(env, v, t, ToldKinds(n, r), SettleNode(env, wf, v, n, r).view)
  {
    hide Apply, Delivered, Left, HonestRecords, HonestStatus, HistoryOk, ResultPatch, Commit, RunCore;
    FoldResult(wf, v.snap, n, r, low, v.nextId);
    var p := ResultPatch(v.snap, wf, n, r, v.nextId);
    var t := Apply(v.snap, p).value;
    NowIdle(v.snap, n, t);
    ResultDelivered(wf, v.snap, n, r, v.nextId);
    var u := v.(nextId := AfterArtifact(v.snap, wf, n, r, v.nextId));
    CommitLeaves(env, u, v.snap, p, ToldKinds(n, r));
    LeftSame(env, u, v, t, ToldKinds(n, r), SettleNode(env, wf, v, n, r).view);
    ResultTakesNoRecords(v.snap, wf, n, r, v.nextId);
  }

  lemma LeftSame(env: Env, u: View, v: View, t: Snapshot, kinds: seq<EventKind>, w: View)
    requires Left(env, u, t, kinds, w) && u == v.(nextId := u.nextId)
    ensures Left(env, v, t, kinds, w)
  {
  }

  /** The thread, its state and the queue as they were. */
  ghost predicate RecordsTaken(s: Snapshot, t: Snapshot) {
    && t.thread.currentRun == s.thread.currentRun && t.thread.status == s.thread.status
    && t.threadState.activeRun == s.threadState.activeRun && t.threadState.status == s.threadState.status
    && t.runState.frontier == s.runState.frontier
  }

  lemma ResultTakesNoRecords(s: Snapshot, wf: Compiled, n: NodeId, r: NodeResult, nextId: nat)
    requires Apply(s, ResultPatch(s, wf, n, r, nextId)).Ok?
    ensures RecordsTaken(s, Apply(s, ResultPatch(s, wf, n, r, nextId)).value)
  {
    hide Apply;
    RecordsTake(s, ResultPatch(s, wf, n, r, nextId));
  }

  /** A result is stored as it was reported: see `Finishes`. */
  lemma FinishDelivers(wf: Compiled, env: Env, v: View, n: NodeId, r: NodeResult, low: nat)
    requires Executing(wf, v, n) && IdsBelow(v.snap, low)
    requires HonestResult(v.snap, n, r, low, v.nextId) && low <= v.nextId
    ensures !FinishNode(env, wf, v, n, r).raised && Finishes(wf, v, n, r, FinishNode(env, wf, v, n, r).view)
  {
    hide Apply, Delivered, HonestResult, Executing, SettleNode, MarkFailed, SnapCore, Ended, ToldKinds, ResultPatch;
    SettleLeaves(wf, env, v, n, r, low);
    var t := Apply(v.snap, ResultPatch(v.snap, wf, n, r, v.nextId)).value;
    var settled := SettleNode(env, wf, v, n, r).view;
    DeliveredLater(wf, v.snap, n, r, t, settled.snap);
    if r.status == Failed {
      FailureLeaves(wf, env, v, n, r, t, settled, AfterArtifact(v.snap, wf, n, r, v.nextId));
    }
  }

  /** The failure mark on top of a result. */
  lemma FailureLeaves(wf: Compiled, env: Env, v: View, n: NodeId, r: NodeResult, t: Snapshot, settled: View, low: nat)
    requires Delivered(wf, v.snap, n, r, t) && Left(env, v, t, ToldKinds(n, r), settled) && r.status == Failed
    requires SnapCore(wf, t) && t.run == v.snap.run && t.run.status == RunRunning && NoneRunning(t.nodes) && IdsBelow(t, low)
    ensures var f := MarkFailed(env, settled, t, NodeFailure(r.error)); !f.raised && Finishes(wf, v, n, r, f.view)
  {
    hide Apply, Delivered, SnapCore, IdsBelow, ToldKinds, Commit, EndPatch;
    var code := NodeFailure(r.error);
    EndEnds(wf, t, RunFailed, Some(Some(code)), low);
    var u := Apply(t, EndPatch(RunFailed, Some(Some(code)))).value;
    CommitLeaves(env, settled, t, EndPatch(RunFailed, Some(Some(code))), [RunFailure(code)]);
    var w := MarkFailed(env, settled, t, code).view;
    EndedStamped(t, RunFailed, Some(code), u, w.snap);
    DeliveredLater(wf, v.snap, n, r, t, w.snap);
    ToldTwice(v.log, settled.log, w.log, v.snap.run, u.run, ToldKinds(n, r), [RunFailure(code)]);
  }

  lemma ToldTwice(a: seq<Event>, b: seq<Event>, c: seq<Event>, run: RunRecord, later: RunRecord, x: seq<EventKind>,
                  y: seq<EventKind>)
    requires Told(a, b, run, x) && Told(b, c, later, y) && later.runId == run.runId && later.threadId == run.threadId
    ensures Told(a, c, run, x + y)
  {
    forall i | |a| <= i < |b| ensures c[i] == b[i] && (x + y)[i - |a|] == x[i - |a|] {
    }
  }
}
