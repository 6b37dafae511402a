/** Every operation on a stored run keeps its invariant, and no patch it applies is rejected. */
module RunSteps {
  import opened Common
  import opened Lists
  import opened Models
  import opened Workflow
  import opened Reducer
  import opened ReducerFacts
  import opened Events
  import opened RunMachine
  import opened RunInvariant
  import opened RunOps
  import opened RunResults

  lemma CommitKeeps(wf: Compiled, env: Env, v: View, base: Snapshot, p: StatePatch, kinds: seq<EventKind>, t: Snapshot)
    requires GapFree(v.Run(), v.log) && SavedOk(wf, v) && Ordered(v) && kinds != []
    requires Apply(base, p) == Ok(t) && t.run.runId == v.Run()
    requires SnapCore(wf, t) && ThreadNames(t) && IdsBelow(t, v.nextId)
    requires ReplayKinds(wf.specs.Keys, Replay(wf.specs.Keys, v.log), kinds) == Abs(t)
    ensures var r := Commit(env, v, base, p, kinds);
            && !r.raised && SnapCore(wf, r.view.snap) && ThreadNames(r.view.snap)
            && IdsBelow(r.view.snap, r.view.nextId) && HistoryOk(wf, r.view) && Stamped(t, r.view.snap)
            && r.view.nextId > v.nextId
            && (SnapInv(wf, t) ==> RunInv(wf, r.view))
  {
    var r := Commit(env, v, base, p, kinds);
    CommitStamps(env, v, base, p, kinds);
    StampKeeps(wf, t, r.view.snap);
    CommitKeepsHistory(wf, env, v, base, p, kinds);
    StampIds(t, r.view.snap, v.nextId, r.view.nextId);
  }

  lemma StampIds(t: Snapshot, u: Snapshot, low: nat, high: nat)
    requires Stamped(t, u) && IdsBelow(t, low) && low <= high
    ensures IdsBelow(u, high)
  {
  }

  /** A run the scheduler may look at: running, with no node in execution. */
  ghost predicate Idle(wf: Compiled, v: View) {
    RunInv(wf, v) && v.snap.run.status == RunRunning && NoneRunning(v.snap.nodes)
  }

  lemma ReplayOne(ids: set<NodeId>, l: LogState, k: EventKind)
    ensures ReplayKinds(ids, l, [k]) == ReplayEvent(ids, l, k)
  {
    assert [k][1..] == [];
    assert ReplayKinds(ids, ReplayEvent(ids, l, k), []) == ReplayEvent(ids, l, k);
  }

  /* ---- Ending and pausing ---- */

  /** Ending a run from a snapshot whose nodes have settled, which may be older than the stored one. */
  lemma EndKeeps(wf: Compiled, env: Env, v: View, base: Snapshot, status: RunStatus,
                 failure: Option<Option<FailureCode>>, kind: EventKind)
    requires SnapCore(wf, base) && base.run.status == RunRunning && NoneRunning(base.nodes)
    requires ThreadNames(base) && IdsBelow(base, v.nextId) && HistoryOk(wf, v) && Abs(v.snap) == Abs(base)
    requires base.run.runId == v.Run()
    requires status == RunFailed || (status == RunCompleted && NoneFailed(base.nodes))
    requires if status == RunFailed then kind.RunFailure? else kind == RunDone
    ensures var r := Commit(env, v, base, EndPatch(status, failure), [kind]);
            && !r.raised && RunInv(wf, r.view) && r.view.snap.run.status == status
            && r.view.snap.nodes == base.nodes && r.view.snap.interrupts == base.interrupts
            && r.view.Run() == v.Run() && r.view.nextId > v.nextId
  {
    hide Plain, Apply, SnapshotOk, RunCore, Stamped, EndPatch;
    var p := EndPatch(status, failure);
    EndSnapshot(wf, base, status, failure, v.nextId);
    var t := Plain(base, p);
    ReplayOne(wf.specs.Keys, Abs(v.snap), kind);
    CommitKeeps(wf, env, v, base, p, [kind], t);
  }

  lemma EndSnapshot(wf: Compiled, s: Snapshot, status: RunStatus, failure: Option<Option<FailureCode>>, nextId: nat)
    requires SnapCore(wf, s) && s.run.status == RunRunning && NoneRunning(s.nodes) && IdsBelow(s, nextId)
    requires status == RunFailed || (status == RunCompleted && NoneFailed(s.nodes))
    ensures var t := Plain(s, EndPatch(status, failure));
            && Apply(s, EndPatch(status, failure)) == Ok(t) && SnapInv(wf, t) && ThreadNames(t) && IdsBelow(t, nextId)
            && t.run.status == status && t.run.runId == s.run.runId
            && t.nodes == s.nodes && t.interrupts == s.interrupts && Abs(t) == Abs(s).(run := status)
  {
    MarkKeeps(wf, s, EndPatch(status, failure));
    EndNames(s, status, failure);
  }

  lemma EndNames(s: Snapshot, status: RunStatus, failure: Option<Option<FailureCode>>)
    requires status.Terminal()
    ensures var t := Plain(s, EndPatch(status, failure));
            && ThreadNames(t) && t.run.status == status && t.run.runId == s.run.runId
            && forall k: nat :: IdsBelow(s, k) ==> IdsBelow(t, k)
  {
  }

  lemma PauseKeeps(wf: Compiled, env: Env, v: View, status: RunStatus, kind: EventKind)
    requires Idle(wf, v) && (status == RunInterrupted || status == RunWaiting)
    requires kind == if status == RunInterrupted then RunHalted else RunIdle
    ensures var r := Commit(env, v, v.snap, PausePatch(status), [kind]);
            && !r.raised && RunInv(wf, r.view) && r.view.snap.run.status == status
            && r.view.snap.nodes == v.snap.nodes && r.view.snap.interrupts == v.snap.interrupts
            && r.view.Run() == v.Run() && r.view.nextId > v.nextId
  {
    hide Apply, SnapshotOk, RunCore, GapFree, SavedOk, Ordered;
    var p := PausePatch(status);
    MarkKeeps(wf, v.snap, p);
    PauseNames(v.snap, status);
    ReplayOne(wf.specs.Keys, Abs(v.snap), kind);
    CommitKeeps(wf, env, v, v.snap, p, [kind], Plain(v.snap, p));
  }

  lemma PauseNames(s: Snapshot, status: RunStatus)
    requires ThreadNames(s) && !s.run.status.Terminal() && !status.Terminal()
    ensures var t := Plain(s, PausePatch(status));
            && ThreadNames(t) && t.run.status == status && t.run.runId == s.run.runId
            && forall k: nat :: IdsBelow(s, k) ==> IdsBelow(t, k)
  {
  }

  /* ---- Dispatching ---- */

  lemma DispatchKeeps(wf: Compiled, v: View, nodes: seq<NodeId>)
    requires Idle(wf, v) && Unique(nodes) && forall n | n in nodes :: MayStart(wf, v.snap, n)
    ensures var r := Dispatched(v, nodes);
            && !r.raised && Idle(wf, r.view)
            && r.view == v.(snap := r.view.snap) && r.view.snap == v.snap.(runState := r.view.snap.runState)
            && r.view.snap.runState == v.snap.runState.(frontier := nodes, version := v.snap.runState.version + 1)
  {
    hide Apply, SnapshotOk, Replay, Trails, AttemptsBounded, InterruptsHeld, Begun, GapFree;
    var p := FrontierPatch(nodes);
    MarkKeeps(wf, v.snap, p);
    var t := Plain(v.snap, p);
    assert t == v.snap.(runState := t.runState);
    assert v.(snap := t).log == v.log;
  }

  /* ---- Executing a node ---- */

  /** Exactly `n` is in execution. */
  ghost predicate Executing(wf: Compiled, v: View, n: NodeId) {
    && RunInv(wf, v) && v.snap.run.status == RunRunning
    && n in v.snap.nodes && v.snap.nodes[n].status == Running
    && forall m | m in v.snap.nodes && m != n :: v.snap.nodes[m].status != Running
  }

  lemma StartNodeKeeps(wf: Compiled, env: Env, v: View, n: NodeId)
    requires Idle(wf, v) && MayStart(wf, v.snap, n)
    ensures var r := StartNode(env, v, n);
            && !r.raised && Executing(wf, r.view, n) && r.view.nextId > v.nextId
            && OnlyAt(v.snap.nodes, r.view.snap.nodes, n)
            && r.view.snap.nodes[n].attempt == v.snap.nodes[n].attempt + 1
            && r.view.snap.interrupts == v.snap.interrupts && r.view.snap.run.runId == v.snap.run.runId
  {
    hide Plain, Apply, SnapshotOk, RunCore, HasTrail, StartPatch, IdsBelow, GapFree, SavedOk, Ordered, Commit,
         ReplayKinds, Replay, ThreadNames;
    var p := StartPatch(v.snap, n);
    StartSnapshot(wf, v.snap, n, v.nextId);
    var t := Plain(v.snap, p);
    ReplayOne(wf.specs.Keys, Abs(v.snap), NodeStarted(n));
    CommitKeeps(wf, env, v, v.snap, p, [NodeStarted(n)], t);
  }

  lemma StartSnapshot(wf: Compiled, s: Snapshot, n: NodeId, nextId: nat)
    requires SnapCore(wf, s) && MayStart(wf, s, n) && s.run.status == RunRunning
    requires NoneFailed(s.nodes) && ThreadNames(s) && IdsBelow(s, nextId)
    ensures var t := Plain(s, StartPatch(s, n));
            && Apply(s, StartPatch(s, n)) == Ok(t) && SnapCore(wf, t) && StartedFrom(s, n, t)
            && NoneFailed(t.nodes) && ThreadNames(t) && IdsBelow(t, nextId)
            && Abs(t) == ReplayEvent(wf.specs.Keys, Abs(s), NodeStarted(n))
  {
    StartKeeps(wf, s, n);
    StartNames(s, n, Plain(s, StartPatch(s, n)), nextId);
  }

  lemma StartNames(s: Snapshot, n: NodeId, t: Snapshot, nextId: nat)
    requires StartedFrom(s, n, t)
    ensures ThreadNames(s) ==> ThreadNames(t)
    ensures IdsBelow(s, nextId) ==> IdsBelow(t, nextId)
    ensures NoneFailed(s.nodes) ==> NoneFailed(t.nodes)
  {
  }

  lemma {:induction false} ReplayExternals(ids: set<NodeId>, l: LogState, k: nat)
    ensures ReplayKinds(ids, l, Externals(k)) == l
    decreases k
  {
    if k > 0 {
      assert Externals(k)[1..] == Externals(k - 1) && Externals(k)[0] == External;
      ReplayExternals(ids, l, k - 1);
    }
  }

  lemma HigherIdsKeep(wf: Compiled, v: View, nextId: nat)
    requires v.nextId <= nextId
    ensures RunInv(wf, v) ==> RunInv(wf, v.(nextId := nextId))
    ensures HistoryOk(wf, v) ==> HistoryOk(wf, v.(nextId := nextId))
  {
  }

  lemma DuringExecutionKeeps(wf: Compiled, v: View, o: Outcome)
    requires RunInv(wf, v) && v.nextId <= o.nextId
    ensures var w := DuringExecution(v, o);
            RunInv(wf, w) && w.snap == v.snap && w.nextId == o.nextId + o.emitted
  {
    var u := v.(nextId := o.nextId);
    HigherIdsKeep(wf, v, o.nextId);
    EmitKeeps(wf, u, Externals(o.emitted));
    ReplayExternals(wf.specs.Keys, Replay(wf.specs.Keys, v.log), o.emitted);
  }

  /** The contract makes the result acceptable to the snapshot it is folded into. */
  lemma HonestIsAcceptable(wf: Compiled, s: Snapshot, n: NodeId, r: NodeResult, low: nat, high: nat, nextId: nat)
    requires HonestResult(s, n, r, low, high) && IdsBelow(s, low) && high <= nextId && low <= high
    ensures Acceptable(s, n, r, ResultArtifacts(s, wf, n, r, nextId))
  {
    HonestRecordsAreNew(wf, s, n, r, low, high, nextId);
  }

  lemma HonestRecordsAreNew(wf: Compiled, s: Snapshot, n: NodeId, r: NodeResult, low: nat, high: nat, nextId: nat)
    requires HonestRecords(s, n, r, low, high) && IdsBelow(s, low) && high <= nextId && low <= high
    ensures BringsNew(s, n, r, ResultArtifacts(s, wf, n, r, nextId))
  {
    HonestInterrupts(s, n, r, low, high);
    HonestDecisions(s, n, r, low, high);
    HonestSideEffects(s, n, r, low, high);
  }

  lemma HonestInterrupts(s: Snapshot, n: NodeId, r: NodeResult, low: nat, high: nat)
    requires HonestRecords(s, n, r, low, high) && IdsBelow(s, low)
    ensures NewInterrupts(s.run.runId, s.run.threadId, s.interrupts, r.interrupts)
    ensures forall x | x in r.interrupts :: low <= x.interruptId.serial < high
  {
    var ids := seq(|r.interrupts|, i requires 0 <= i < |r.interrupts| => r.interrupts[i].interruptId);
    forall x | x in r.interrupts ensures low <= x.interruptId.serial < high && x.interruptId !in s.interrupts {
      var k :| 0 <= k < |r.interrupts| && r.interrupts[k] == x;
      assert ids[k] in ids;
    }
    forall i, j | 0 <= i < j < |r.interrupts| ensures r.interrupts[i].interruptId != r.interrupts[j].interruptId {
      assert ids[i] != ids[j];
    }
  }

  lemma HonestDecisions(s: Snapshot, n: NodeId, r: NodeResult, low: nat, high: nat)
    requires HonestRecords(s, n, r, low, high) && IdsBelow(s, low)
    ensures NewDecisions(s.run.runId, s.decisions, r.decisions)
    ensures forall x | x in r.decisions :: low <= x.decisionId.serial < high
  {
    var ids := seq(|r.decisions|, i requires 0 <= i < |r.decisions| => r.decisions[i].decisionId);
    forall x | x in r.decisions ensures low <= x.decisionId.serial < high && x.decisionId !in s.decisions {
      var k :| 0 <= k < |r.decisions| && r.decisions[k] == x;
      assert ids[k] in ids;
    }
    forall i, j | 0 <= i < j < |r.decisions| ensures r.decisions[i].decisionId != r.decisions[j].decisionId {
      assert ids[i] != ids[j];
    }
  }

  lemma HonestSideEffects(s: Snapshot, n: NodeId, r: NodeResult, low: nat, high: nat)
    requires HonestRecords(s, n, r, low, high) && IdsBelow(s, low)
    ensures NewSideEffects(s.run.runId, s.sideEffects, r.sideEffects)
    ensures forall x | x in r.sideEffects :: low <= x.sideEffectId.serial < high
  {
    var ids := seq(|r.sideEffects|, i requires 0 <= i < |r.sideEffects| => r.sideEffects[i].sideEffectId);
    forall x | x in r.sideEffects ensures low <= x.sideEffectId.serial < high && x.sideEffectId !in s.sideEffects {
      var k :| 0 <= k < |r.sideEffects| && r.sideEffects[k] == x;
      assert ids[k] in ids;
    }
    forall i, j | 0 <= i < j < |r.sideEffects| ensures r.sideEffects[i].sideEffectId != r.sideEffects[j].sideEffectId {
      assert ids[i] != ids[j];
    }
  }

  lemma ResultIdsBelow(s: Snapshot, p: StatePatch, t: Snapshot, low: nat, high: nat)
    requires IdsBelow(s, low) && low <= high && RecordsAdded(s, p, t) && t.run == s.run
    requires forall x | x in p.artifacts :: x.artifactId.serial < high
    requires forall x | x in p.interrupts :: x.interruptId.serial < high
    requires forall x | x in p.decisions :: x.decisionId.serial < high
    requires forall x | x in p.sideEffects :: x.sideEffectId.serial < high
    ensures IdsBelow(t, high)
  {
  }

  /** The result folded in: the snapshot the operation holds from then on. */
  ghost predicate Folded(wf: Compiled, s: Snapshot, n: NodeId, r: NodeResult, nextId: nat, t: Snapshot, high: nat) {
    && Apply(s, ResultPatch(s, wf, n, r, nextId)) == Ok(t)
    && SnapCore(wf, t) && ThreadNames(t) && IdsBelow(t, high)
    && t.run == s.run && OnlyAt(s.nodes, t.nodes, n)
    && t.nodes[n].status == r.status && t.nodes[n].attempt == s.nodes[n].attempt
    && Opened(s.interrupts, t.interrupts, r.interrupts)
    && ReplayKinds(wf.specs.Keys, Abs(s), [NodeReported(n, r.status)] + CreatedKinds(r.interrupts)) == Abs(t)
  }

  lemma FoldResultIds(wf: Compiled, s: Snapshot, n: NodeId, r: NodeResult, low: nat, nextId: nat, t: Snapshot)
    requires IdsBelow(s, low) && HonestResult(s, n, r, low, nextId) && low <= nextId && t.run == s.run
    requires RecordsAdded(s, ResultPatch(s, wf, n, r, nextId), t)
    ensures IdsBelow(t, AfterArtifact(s, wf, n, r, nextId))
  {
    var p := ResultPatch(s, wf, n, r, nextId);
    HonestInterrupts(s, n, r, low, nextId);
    HonestDecisions(s, n, r, low, nextId);
    HonestSideEffects(s, n, r, low, nextId);
    ResultIdsBelow(s, p, t, low, AfterArtifact(s, wf, n, r, nextId));
  }

  lemma FoldResult(wf: Compiled, s: Snapshot, n: NodeId, r: NodeResult, low: nat, nextId: nat)
    requires RunsNode(wf, s, n) && ThreadNames(s) && IdsBelow(s, low)
    requires HonestResult(s, n, r, low, nextId) && low <= nextId
    ensures Apply(s, ResultPatch(s, wf, n, r, nextId)).Ok?
    ensures Folded(wf, s, n, r, nextId, Apply(s, ResultPatch(s, wf, n, r, nextId)).value,
                   AfterArtifact(s, wf, n, r, nextId))
  {
    HonestIsAcceptable(wf, s, n, r, low, nextId, nextId);
    ResultKeeps(wf, s, n, r, nextId);
    FoldResultIds(wf, s, n, r, low, nextId, Apply(s, ResultPatch(s, wf, n, r, nextId)).value);
  }

  lemma NowIdle(s: Snapshot, n: NodeId, t: Snapshot)
    requires OnlyAt(s.nodes, t.nodes, n) && t.nodes[n].status != Running
    requires forall m | m in s.nodes && m != n :: s.nodes[m].status != Running
    ensures NoneRunning(t.nodes)
    ensures NoneFailed(s.nodes) && t.nodes[n].status != Failed ==> NoneFailed(t.nodes)
  {
  }

  /** The first half of finishing: the result is stored, told and checkpointed. */
  lemma SettleKeeps(wf: Compiled, env: Env, v: View, n: NodeId, r: NodeResult, t: Snapshot)
    requires HistoryOk(wf, v) && Folded(wf, v.snap, n, r, v.nextId, t, AfterArtifact(v.snap, wf, n, r, v.nextId))
    ensures var u := SettleNode(env, wf, v, n, r);
            && !u.raised && HistoryOk(wf, u.view) && Stamped(t, u.view.snap)
            && u.view.nextId > AfterArtifact(v.snap, wf, n, r, v.nextId)
            && (NoneFailed(t.nodes) ==> RunInv(wf, u.view)) && Abs(u.view.snap) == Abs(t)
  {
    var w := v.(nextId := AfterArtifact(v.snap, wf, n, r, v.nextId));
    HigherIdsKeep(wf, v, w.nextId);
    CommitKeeps(wf, env, w, v.snap, ResultPatch(v.snap, wf, n, r, v.nextId),
                [NodeReported(n, r.status)] + CreatedKinds(r.interrupts), t);
  }

  /** A finished node's run: idle and running on, or failed with the node. */
  lemma FinishNodeKeeps(wf: Compiled, env: Env, v: View, n: NodeId, r: NodeResult, low: nat)
    requires Executing(wf, v, n) && IdsBelow(v.snap, low)
    requires HonestResult(v.snap, n, r, low, v.nextId) && low <= v.nextId
    ensures var f := FinishNode(env, wf, v, n, r);
            && !f.raised && RunInv(wf, f.view) && f.view.Run() == v.Run() && f.view.nextId > v.nextId
            && OnlyAt(v.snap.nodes, f.view.snap.nodes, n)
            && f.view.snap.nodes[n].status == r.status
            && f.view.snap.nodes[n].attempt == v.snap.nodes[n].attempt
            && Opened(v.snap.interrupts, f.view.snap.interrupts, r.interrupts)
            && (if r.status == Failed then f.view.snap.run.status == RunFailed else Idle(wf, f.view))
  {
    FoldResult(wf, v.snap, n, r, low, v.nextId);
    var t := Apply(v.snap, ResultPatch(v.snap, wf, n, r, v.nextId)).value;
    NowIdle(v.snap, n, t);
    if r.status == Failed {
      SettleKeeps(wf, env, v, n, r, t);
      FailAfterResult(wf, env, v, n, r, t);
    } else {
      RunOn(wf, env, v, n, r, t);
    }
  }

  lemma RunOn(wf: Compiled, env: Env, v: View, n: NodeId, r: NodeResult, t: Snapshot)
    requires HistoryOk(wf, v) && Folded(wf, v.snap, n, r, v.nextId, t, AfterArtifact(v.snap, wf, n, r, v.nextId))
    requires v.snap.run.status == RunRunning && NoneRunning(t.nodes) && NoneFailed(t.nodes)
    ensures var u := SettleNode(env, wf, v, n, r);
            && !u.raised && Idle(wf, u.view) && u.view.Run() == v.Run() && u.view.nextId > v.nextId
            && u.view.snap.nodes == t.nodes && u.view.snap.interrupts == t.interrupts
  {
    SettleKeeps(wf, env, v, n, r, t);
  }

  /** The second half after a failure: the run ends from the snapshot held before the result was told. */
  lemma FailAfterResult(wf: Compiled, env: Env, v: View, n: NodeId, r: NodeResult, t: Snapshot)
    requires HistoryOk(wf, v) && Folded(wf, v.snap, n, r, v.nextId, t, AfterArtifact(v.snap, wf, n, r, v.nextId))
    requires v.snap.run.status == RunRunning && NoneRunning(t.nodes)
    ensures var f := MarkFailed(env, SettleNode(env, wf, v, n, r).view, t, NodeFailure(r.error));
            && !f.raised && RunInv(wf, f.view) && f.view.snap.run.status == RunFailed
            && f.view.snap.nodes == t.nodes && f.view.snap.interrupts == t.interrupts
            && f.view.Run() == v.Run() && f.view.nextId > v.nextId
  {
    SettleKeeps(wf, env, v, n, r, t);
    EndAfter(wf, env, SettleNode(env, wf, v, n, r).view, t, NodeFailure(r.error),
             AfterArtifact(v.snap, wf, n, r, v.nextId));
  }

  lemma IdsBelowHigher(s: Snapshot, low: nat, high: nat)
    requires IdsBelow(s, low) && low <= high
    ensures IdsBelow(s, high)
  {
  }

  lemma EndAfter(wf: Compiled, env: Env, u: View, t: Snapshot, code: FailureCode, low: nat)
    requires SnapCore(wf, t) && ThreadNames(t) && IdsBelow(t, low) && low <= u.nextId
    requires t.run.status == RunRunning && NoneRunning(t.nodes)
    requires HistoryOk(wf, u) && Stamped(t, u.snap) && Abs(u.snap) == Abs(t)
    ensures var f := MarkFailed(env, u, t, code);
            && !f.raised && RunInv(wf, f.view) && f.view.snap.run.status == RunFailed
            && f.view.snap.nodes == t.nodes && f.view.snap.interrupts == t.interrupts
            && f.view.Run() == u.Run() && f.view.nextId > u.nextId
  {
    IdsBelowHigher(t, low, u.nextId);
    EndKeeps(wf, env, u, t, RunFailed, Some(Some(code)), RunFailure(code));
  }

  /* ---- One execution ---- */

  /** What an execution of `n` can end in. */
  ghost predicate Executed(wf: Compiled, v: View, n: NodeId, r: Stepped) {
    && RunInv(wf, r.view) && r.view.Run() == v.Run() && r.view.nextId >= v.nextId
    && (Untouched(v, r) || Touched(wf, v, n, r))
  }

  /** No executor was available, or the input could not be selected: no node has changed. */
  ghost predicate Untouched(v: View, r: Stepped) {
    && r.view.snap.nodes == v.snap.nodes && r.view.snap.interrupts == v.snap.interrupts
    && (if r.raised then r.view == v else r.view.snap.run.status == RunFailed)
  }

  /** The node was started: an exception leaves it in execution, otherwise it has a result. */
  ghost predicate Touched(wf: Compiled, v: View, n: NodeId, r: Stepped) {
    && OnlyAt(v.snap.nodes, r.view.snap.nodes, n)
    && r.view.snap.nodes[n].attempt == v.snap.nodes[n].attempt + 1
    && (if r.raised then
          Executing(wf, r.view, n) && r.view.snap.interrupts == v.snap.interrupts
        else
          && (exists xs: seq<InterruptRecord> ::
                Opened(v.snap.interrupts, r.view.snap.interrupts, xs) && forall x: InterruptRecord | x in xs :: x.nodeId == Some(n))
          && Result(r.view.snap.nodes[n].status)
          && if r.view.snap.nodes[n].status == Failed then r.view.snap.run.status == RunFailed else Idle(wf, r.view))
  }

  predicate Result(status: NodeStatus) {
    status.Succeeded? || status.Failed? || status.Waiting? || status.Blocked? || status.Skipped? || status.Cancelled?
  }

  lemma StartLeavesExecuting(wf: Compiled, env: Env, v: View, n: NodeId, r: Stepped)
    requires Idle(wf, v) && MayStart(wf, v.snap, n) && r == Stepped(StartNode(env, v, n).view, true)
    ensures Executed(wf, v, n, r)
  {
    hide RunInv, StartNode, HasTrail;
    StartNodeKeeps(wf, env, v, n);
  }

  lemma StillExecuting(wf: Compiled, u: View, n: NodeId, o: Outcome)
    requires Executing(wf, u, n) && u.nextId <= o.nextId
    ensures Executing(wf, DuringExecution(u, o), n)
    ensures DuringExecution(u, o).snap == u.snap && DuringExecution(u, o).nextId >= u.nextId
  {
    DuringExecutionKeeps(wf, u, o);
  }

  lemma RaiseLeavesExecuting(wf: Compiled, env: Env, v: View, n: NodeId, o: Outcome)
    requires Idle(wf, v) && MayStart(wf, v.snap, n) && StartNode(env, v, n).view.nextId <= o.nextId
    ensures Executed(wf, v, n, Stepped(DuringExecution(StartNode(env, v, n).view, o), true))
  {
    hide RunInv, StartNode, DuringExecution, HasTrail;
    StartNodeKeeps(wf, env, v, n);
    StillExecuting(wf, StartNode(env, v, n).view, n, o);
  }

  lemma ResultEndsExecution(wf: Compiled, env: Env, v: View, n: NodeId, o: Outcome)
    requires Idle(wf, v) && MayStart(wf, v.snap, n)
    requires var u := StartNode(env, v, n).view;
             && u.nextId <= o.nextId && o.result.Some? && HonestResult(u.snap, n, o.result.value, u.nextId, o.nextId)
    ensures Executed(wf, v, n, FinishNode(env, wf, DuringExecution(StartNode(env, v, n).view, o), n, o.result.value))
  {
    StartNodeKeeps(wf, env, v, n);
    var u := StartNode(env, v, n).view;
    DuringExecutionKeeps(wf, u, o);
    var w := DuringExecution(u, o);
    HonestLonger(w.snap, n, o.result.value, u.nextId, o.nextId, w.nextId);
    FinishNodeKeeps(wf, env, w, n, o.result.value, u.nextId);
    FinishTouches(wf, v, u, w, n, o.result.value, FinishNode(env, wf, w, n, o.result.value), u.nextId, w.nextId);
  }

  lemma FinishTouches(wf: Compiled, v: View, u: View, w: View, n: NodeId, r: NodeResult, f: Stepped, low: nat, high: nat)
    requires OnlyAt(v.snap.nodes, u.snap.nodes, n) && u.snap.nodes[n].attempt == v.snap.nodes[n].attempt + 1
    requires u.snap.interrupts == v.snap.interrupts && w.snap == u.snap
    requires HonestResult(w.snap, n, r, low, high) && !f.raised
    requires OnlyAt(w.snap.nodes, f.view.snap.nodes, n)
    requires f.view.snap.nodes[n].status == r.status && f.view.snap.nodes[n].attempt == w.snap.nodes[n].attempt
    requires Opened(w.snap.interrupts, f.view.snap.interrupts, r.interrupts)
    requires if r.status == Failed then f.view.snap.run.status == RunFailed else Idle(wf, f.view)
    ensures Touched(wf, v, n, f)
  {
  }

  lemma HonestLonger(s: Snapshot, n: NodeId, r: NodeResult, low: nat, high: nat, higher: nat)
    requires HonestResult(s, n, r, low, high) && high <= higher
    ensures HonestResult(s, n, r, low, higher)
  {
  }

  lemma UnavailableExecuted(wf: Compiled, env: Env, v: View, n: NodeId)
    requires Idle(wf, v)
    ensures Executed(wf, v, n, MarkFailed(env, v, v.snap, ExecutorNotAvailable))
  {
    EndKeeps(wf, env, v, v.snap, RunFailed, Some(Some(ExecutorNotAvailable)), RunFailure(ExecutorNotAvailable));
  }

  lemma UnselectedExecuted(wf: Compiled, v: View, n: NodeId)
    requires Idle(wf, v)
    ensures Executed(wf, v, n, Stepped(v, true))
  {
    hide RunInv;
  }

  /** One execution of a startable node keeps the invariant, whatever the executor does. */
  lemma ExecuteNodeKeeps(wf: Compiled, env: Env, v: View, n: NodeId)
    requires Honest(env) && Idle(wf, v) && MayStart(wf, v.snap, n)
    ensures Executed(wf, v, n, ExecuteNode(env, wf, v, n))
  {
    hide RunInv, StartNode, FinishNode, DuringExecution, Executed, MarkFailed, HasTrail;
    if !env.canExecute(v.snap, n) {
      UnavailableExecuted(wf, env, v, n);
    } else if !env.selectsInput(v.snap, n) {
      UnselectedExecuted(wf, v, n);
    } else {
      StartNodeKeeps(wf, env, v, n);
      var u := StartNode(env, v, n).view;
      if !env.selectsInput(u.snap, n) {
        StartLeavesExecuting(wf, env, v, n, Stepped(u, true));
      } else {
        var o := env.execute(u.snap, n, u.nextId);
        if o.result == None {
          RaiseLeavesExecuting(wf, env, v, n, o);
        } else {
          ResultEndsExecution(wf, env, v, n, o);
        }
      }
    }
  }
}
