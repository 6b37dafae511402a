/** Over every history: events and checkpoints are only added, and persisted versions never go back. */
module RunRecords {
  import opened Common
  import opened Models
  import opened Workflow
  import opened Compiler
  import opened Reducer
  import opened ReducerFacts
  import opened ReducerVersions
  import opened ReducerFrames
  import opened Scheduler
  import opened Events
  import opened RunMachine
  import opened RunInvariant
  import opened RunOps
  import opened RunSteps
  import opened RunLoop
  import opened RunHistory

  /* ---- From commits to steps ---- */

  /** Once the run has begun, patches of the runtime give a thread up, and never take one, and insert no
      node. */
  predicate Releases(p: StatePatch) {
    p.upserts == [] && (p.thread.currentRun == None || p.thread.currentRun == Some(None))
  }

  /** `rel` holds across every commit made from the stored snapshot, across what happens while an
      executor runs, across a dispatch, and across the failure mark made from a stale snapshot. */
  ghost predicate CommitsRelate(env: Env, rel: (View, View) -> bool) {
    && (forall v :: rel(v, v))
    && (forall a, b, c :: rel(a, b) && rel(b, c) ==> rel(a, c))
    && (forall v: View, k: nat, p: StatePatch, kinds: seq<EventKind> :: kinds != [] && Releases(p) ==>
          rel(v, Commit(env, v.(nextId := k), v.snap, p, kinds).view))
    && (forall v, o :: rel(v, DuringExecution(v, o)))
    && (forall v, nodes :: rel(v, Dispatched(v, nodes).view))
    && (forall wf, v, n, r :: rel(SettleNode(env, wf, v, n, r).view, FinishNode(env, wf, v, n, r).view))
  }

  lemma CommitRelates(env: Env, v: View, p: StatePatch, kinds: seq<EventKind>, rel: (View, View) -> bool)
    requires CommitsRelate(env, rel) && kinds != [] && Releases(p)
    ensures rel(v, Commit(env, v, v.snap, p, kinds).view)
  {
    hide Commit, DuringExecution, Dispatched, SettleNode, FinishNode;
    assert v.(nextId := v.nextId) == v;
    assert rel(v, Commit(env, v.(nextId := v.nextId), v.snap, p, kinds).view);
  }

  lemma FinishRelates(env: Env, wf: Compiled, v: View, n: NodeId, r: NodeResult, rel: (View, View) -> bool)
    requires CommitsRelate(env, rel)
    ensures rel(v, FinishNode(env, wf, v, n, r).view)
  {
    hide Commit, DuringExecution, Dispatched, FinishNode;
    var p := ResultPatch(v.snap, wf, n, r, v.nextId);
    var kinds := [NodeReported(n, r.status)] + CreatedKinds(r.interrupts);
    var k := AfterArtifact(v.snap, wf, n, r, v.nextId);
    assert rel(v, Commit(env, v.(nextId := k), v.snap, p, kinds).view);
    assert rel(SettleNode(env, wf, v, n, r).view, FinishNode(env, wf, v, n, r).view);
  }

  lemma ExecutionRelates(env: Env, wf: Compiled, v: View, n: NodeId, rel: (View, View) -> bool)
    requires CommitsRelate(env, rel) && n in v.snap.nodes
    ensures rel(v, ExecuteNode(env, wf, v, n).view)
  {
    hide Commit, DuringExecution, Dispatched, SettleNode, FinishNode, ExecuteNode;
    CommitRelates(env, v, EndPatch(RunFailed, Some(Some(ExecutorNotAvailable))), [RunFailure(ExecutorNotAvailable)], rel);
    CommitRelates(env, v, StartPatch(v.snap, n), [NodeStarted(n)], rel);
    var u := StartNode(env, v, n).view;
    var o := env.execute(u.snap, n, u.nextId);
    assert rel(u, DuringExecution(u, o));
    if o.result.Some? {
      FinishRelates(env, wf, DuringExecution(u, o), n, o.result.value, rel);
    }
    ExecuteRelates(env, wf, v, n, rel);
  }

  lemma StopRelates(env: Env, v: View, d: Decision, rel: (View, View) -> bool)
    requires CommitsRelate(env, rel) && !d.Dispatch?
    ensures rel(v, Stop(env, v, d).view)
  {
    hide Commit, DuringExecution, Dispatched, SettleNode, FinishNode;
    CommitRelates(env, v, EndPatch(RunFailed, Some(Some(NoProgress))), [RunFailure(NoProgress)], rel);
    CommitRelates(env, v, EndPatch(RunCompleted, None), [RunDone], rel);
    CommitRelates(env, v, PausePatch(RunInterrupted), [RunHalted], rel);
    CommitRelates(env, v, PausePatch(RunWaiting), [RunIdle], rel);
  }

  lemma ResumeRelates(env: Env, v: View, withPayload: bool, rel: (View, View) -> bool)
    requires CommitsRelate(env, rel)
    ensures rel(v, Resume(env, v, withPayload).view)
  {
    hide Commit, DuringExecution, Dispatched, SettleNode, FinishNode;
    var ids := if withPayload then v.snap.runState.pendingInterrupts else [];
    CommitRelates(env, v, ResumePatch(v.snap, ids), ResumeKinds(ids), rel);
  }

  lemma CommitsGiveLoopSteps(env: Env, config: SchedulerConfig, wf: Compiled, rel: (View, View) -> bool)
    requires CommitsRelate(env, rel)
    ensures LoopStepsRelate(env, config, wf, rel)
  {
    hide Commit, DuringExecution, Dispatched, SettleNode, FinishNode, ExecuteNode, Stop, RunInv;
    forall v, n | Idle(wf, v) && MayStart(wf, v.snap, n) ensures rel(v, ExecuteNode(env, wf, v, n).view) {
      ExecutionRelates(env, wf, v, n, rel);
    }
    forall v, d: Decision | !d.Dispatch? ensures rel(v, Stop(env, v, d).view) {
      StopRelates(env, v, d, rel);
    }
  }

  lemma CommitsGiveSteps(env: Env, config: SchedulerConfig, wf: Compiled, rel: (View, View) -> bool)
    requires CommitsRelate(env, rel) && forall v, w :: Elsewhere(v, w) ==> rel(v, w)
    ensures StepsRelate(env, config, wf, rel)
  {
    CommitsGiveLoopSteps(env, config, wf, rel);
    hide Commit, DuringExecution, Dispatched, SettleNode, FinishNode, Resume, RunInv, Elsewhere;
    forall v, p ensures rel(v, Resume(env, v, p).view) {
      ResumeRelates(env, v, p, rel);
    }
    forall v ensures rel(v, Cancel(env, v).view) {
      CommitRelates(env, v, CancelPatch(v.snap), [RunAborted], rel);
    }
  }

  /* ---- The log and the checkpoints only grow; versions never go back ---- */

  /** Every versioned component is at least as new, created records are as they were, and the link lists
      of every node have at most grown at their end. */
  ghost predicate NotOlder(s: Snapshot, t: Snapshot) {
    && s.thread.version <= t.thread.version && s.run.version <= t.run.version
    && s.threadState.version <= t.threadState.version && s.runState.version <= t.runState.version
    && (forall n | n in s.nodes :: n in t.nodes && s.nodes[n].version <= t.nodes[n].version)
    && (forall i | i in s.interrupts :: i in t.interrupts && s.interrupts[i].version <= t.interrupts[i].version)
    && Extends(s.artifacts, t.artifacts) && Extends(s.decisions, t.decisions) && Extends(s.sideEffects, t.sideEffects)
    && LinksGrow(s.nodes, t.nodes)
  }

  ghost predicate Extended(v: View, w: View) {
    v.log <= w.log && v.saved <= w.saved && NotOlder(v.snap, w.snap)
  }

  lemma NotOlderTransitive(a: Snapshot, b: Snapshot, c: Snapshot)
    requires NotOlder(a, b) && NotOlder(b, c)
    ensures NotOlder(a, c)
  {
  }

  lemma RaisedIsNotOlder(s: Snapshot, t: Snapshot)
    requires Raised(s, t) && LinksGrow(s.nodes, t.nodes)
    ensures NotOlder(s, t)
  {
  }

  lemma StampedIsNotOlder(s: Snapshot, t: Snapshot)
    requires Stamped(s, t)
    ensures NotOlder(s, t)
  {
  }

  lemma CommitGrows(env: Env, v: View, base: Snapshot, p: StatePatch, kinds: seq<EventKind>)
    ensures var w := Commit(env, v, base, p, kinds).view; v.log <= w.log && v.saved <= w.saved
  {
  }

  lemma CommitExtends(env: Env, v: View, k: nat, p: StatePatch, kinds: seq<EventKind>)
    requires kinds != [] && Releases(p)
    ensures Extended(v, Commit(env, v.(nextId := k), v.snap, p, kinds).view)
  {
    var u := v.(nextId := k);
    CommitGrows(env, u, u.snap, p, kinds);
    if Apply(u.snap, p).Ok? {
      ApplyRaises(u.snap, p);
      ApplyGrowsLinks(u.snap, p);
      var t := Apply(u.snap, p).value;
      RaisedIsNotOlder(u.snap, t);
      CommitStamps(env, u, u.snap, p, kinds);
      var w := Commit(env, u, u.snap, p, kinds).view;
      StampedIsNotOlder(t, w.snap);
      NotOlderTransitive(u.snap, t, w.snap);
    }
  }

  /** What one commit writes: the patched snapshot, then the last event, then the checkpoint. */
  lemma CommitVersions(env: Env, v: View, base: Snapshot, p: StatePatch, kinds: seq<EventKind>)
    requires Apply(base, p).Ok? && kinds != []
    ensures var t := Apply(base, p).value;
            var w := Commit(env, v, base, p, kinds).view;
            && w.snap == t.(thread := w.snap.thread, runState := w.snap.runState)
            && w.snap.thread.version == t.thread.version + 1 && w.snap.runState.version == t.runState.version + 1
  {
  }

  /** Ending from a snapshot one commit old still writes nothing older: the patch raises what the
      stored snapshot had gained. */
  lemma StaleEndNotOlder(base: Snapshot, stored: Snapshot, status: RunStatus, failure: Option<Option<FailureCode>>)
    requires Apply(base, EndPatch(status, failure)).Ok?
    requires stored == base.(thread := stored.thread, runState := stored.runState)
    requires stored.thread.version == base.thread.version + 1 && stored.runState.version == base.runState.version + 1
    ensures NotOlder(stored, Apply(base, EndPatch(status, failure)).value)
  {
    var p := EndPatch(status, failure);
    ApplyRaises(base, p);
    ApplyGrowsLinks(base, p);
    EndRaisesState(base, status, failure);
  }

  lemma EndRaisesState(base: Snapshot, status: RunStatus, failure: Option<Option<FailureCode>>)
    requires Apply(base, EndPatch(status, failure)).Ok?
    ensures var t := Apply(base, EndPatch(status, failure)).value;
            && t.runState.version == base.runState.version + 1 && t.runState.status == status
            && t.thread == base.thread.(currentRun := None, version := base.thread.version + 1)
  {
    var p := EndPatch(status, failure);
    var s1 := ApplyRecords(base, p).value;
    var s3 := ApplyNodeUpdates(s1, p.nodes).value;
    assert ApplyArtifacts(s3, []) == Ok(s3);
    assert ApplyInterrupts(s3, []) == Ok(s3);
    assert ApplyInterruptUpdates(s3, []) == Ok(s3);
    assert Fold(AddDecision, s3, []) == Ok(s3);
  }

  lemma FinishExtends(env: Env, wf: Compiled, v: View, n: NodeId, r: NodeResult)
    ensures Extended(SettleNode(env, wf, v, n, r).view, FinishNode(env, wf, v, n, r).view)
  {
    var p := ResultPatch(v.snap, wf, n, r, v.nextId);
    var u := SettleNode(env, wf, v, n, r);
    if !u.raised && r.status == Failed {
      SettleVersions(env, wf, v, n, r);
      MarkExtends(env, u.view, Apply(v.snap, p).value, NodeFailure(r.error));
    }
  }

  lemma SettleVersions(env: Env, wf: Compiled, v: View, n: NodeId, r: NodeResult)
    requires !SettleNode(env, wf, v, n, r).raised
    ensures Apply(v.snap, ResultPatch(v.snap, wf, n, r, v.nextId)).Ok?
    ensures var t := Apply(v.snap, ResultPatch(v.snap, wf, n, r, v.nextId)).value;
            var u := SettleNode(env, wf, v, n, r).view;
            && u.snap == t.(thread := u.snap.thread, runState := u.snap.runState)
            && u.snap.thread.version == t.thread.version + 1 && u.snap.runState.version == t.runState.version + 1
            && u.snap.thread.currentRun == t.thread.currentRun
  {
    var kinds := [NodeReported(n, r.status)] + CreatedKinds(r.interrupts);
    var w := v.(nextId := AfterArtifact(v.snap, wf, n, r, v.nextId));
    CommitVersions(env, w, v.snap, ResultPatch(v.snap, wf, n, r, v.nextId), kinds);
    CommitStamps(env, w, v.snap, ResultPatch(v.snap, wf, n, r, v.nextId), kinds);
  }

  lemma MarkExtends(env: Env, u: View, base: Snapshot, code: FailureCode)
    requires u.snap == base.(thread := u.snap.thread, runState := u.snap.runState)
    requires u.snap.thread.version == base.thread.version + 1 && u.snap.runState.version == base.runState.version + 1
    ensures Extended(u, MarkFailed(env, u, base, code).view)
  {
    var q := EndPatch(RunFailed, Some(Some(code)));
    CommitGrows(env, u, base, q, [RunFailure(code)]);
    if Apply(base, q).Ok? {
      StaleEndNotOlder(base, u.snap, RunFailed, Some(Some(code)));
      CommitStamps(env, u, base, q, [RunFailure(code)]);
      StampedIsNotOlder(Apply(base, q).value, MarkFailed(env, u, base, code).view.snap);
      NotOlderTransitive(u.snap, Apply(base, q).value, MarkFailed(env, u, base, code).view.snap);
    }
  }

  lemma CommitsExtend(env: Env)
    ensures CommitsRelate(env, (v: View, w: View) => Extended(v, w))
  {
    forall v: View, k: nat, p: StatePatch, kinds: seq<EventKind> | kinds != [] && Releases(p)
      ensures Extended(v, Commit(env, v.(nextId := k), v.snap, p, kinds).view)
    {
      CommitExtends(env, v, k, p, kinds);
    }
    forall v, nodes ensures Extended(v, Dispatched(v, nodes).view) {
      DispatchExtends(v, nodes);
    }
    forall v, o ensures Extended(v, DuringExecution(v, o)) {
      DuringExtends(v, o);
    }
    forall wf, v, n, r ensures Extended(SettleNode(env, wf, v, n, r).view, FinishNode(env, wf, v, n, r).view) {
      FinishExtends(env, wf, v, n, r);
    }
  }

  lemma ElsewhereExtends()
    ensures forall v, w :: Elsewhere(v, w) ==> Extended(v, w)
  {
  }

  lemma DuringExtends(v: View, o: Outcome)
    ensures Extended(v, DuringExecution(v, o))
  {
  }

  lemma DispatchExtends(v: View, nodes: seq<NodeId>)
    ensures Extended(v, Dispatched(v, nodes).view)
  {
    if Apply(v.snap, FrontierPatch(nodes)).Ok? {
      ApplyRaises(v.snap, FrontierPatch(nodes));
      ApplyGrowsLinks(v.snap, FrontierPatch(nodes));
      RaisedIsNotOlder(v.snap, Apply(v.snap, FrontierPatch(nodes)).value);
    }
  }

  /** Over every history no event and no checkpoint is changed or dropped, no record is lost, no
      persisted version goes back, and the decisions and side effects of a node stay listed in the order
      they were created in. */
  lemma HistoryOnlyGrows(env: Env, config: SchedulerConfig, wf: Compiled, v: View, commands: seq<Command>)
    requires WellCompiled(wf) && Honest(env) && RunInv(wf, v)
    ensures Extended(v, Drive(env, config, wf, v, commands))
  {
    hide WellCompiled, Honest, RunInv, NotOlder, CommitsRelate, Elsewhere;
    CommitsExtend(env);
    ElsewhereExtends();
    CommitsGiveSteps(env, config, wf, (v: View, w: View) => Extended(v, w));
    DriveRelates(env, config, wf, v, commands, (v: View, w: View) => Extended(v, w));
  }
}
