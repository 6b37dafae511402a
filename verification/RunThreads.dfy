/** What the operations of a run do to its thread: they give it up at most, and list its artifacts. */
module RunThreads {
  import opened Common
  import opened Models
  import opened Workflow
  import opened Compiler
  import opened Reducer
  import opened ReducerVersions
  import opened Scheduler
  import opened Events
  import opened RunMachine
  import opened RunInvariant
  import opened RunLoop
  import opened RunHistory
  import opened RunRecords

  /** The thread stays the same thread, is kept or given up, and loses no artifact. */
  ghost predicate ThreadMoves(s: Snapshot, t: Snapshot) {
    && t.thread.threadId == s.thread.threadId && t.threadState.threadId == s.threadState.threadId
    && t.run.threadId == s.run.threadId
    && (t.thread.currentRun == s.thread.currentRun || t.thread.currentRun == None)
    && s.threadState.artifactIds <= t.threadState.artifactIds
  }

  lemma ThreadMovesTwice(a: Snapshot, b: Snapshot, c: Snapshot)
    requires ThreadMoves(a, b) && ThreadMoves(b, c)
    ensures ThreadMoves(a, c)
  {
  }

  lemma ApplyMovesThread(s: Snapshot, p: StatePatch)
    requires Apply(s, p).Ok? && Releases(p)
    ensures ThreadMoves(s, Apply(s, p).value)
  {
    ApplyKeepsRun(s, p);
    var s2 := Fold(UpsertNode, ApplyRecords(s, p).value, p.upserts).value;
    RecordStagesRaise(s, p);
    var s3 := ApplyNodeUpdates(s2, p.nodes).value;
    FoldArtifactsKeepsRecords(s3, p.artifacts);
    var s4 := ApplyArtifacts(s3, p.artifacts).value;
    InterruptStageRaises(s4, p.interrupts);
    var s5 := ApplyInterrupts(s4, p.interrupts).value;
    InterruptUpdateStageRaises(s5, p.interruptUpdates);
    var s6 := ApplyInterruptUpdates(s5, p.interruptUpdates).value;
    LinkStagesRaise(s6, p.decisions, p.sideEffects);
    assert Apply(s, p).value == Fold(AddSideEffect, Fold(AddDecision, s6, p.decisions).value, p.sideEffects).value;
  }

  lemma StampMovesThread(s: Snapshot, t: Snapshot)
    requires Stamped(s, t)
    ensures ThreadMoves(s, t)
  {
  }

  lemma CommitMovesThread(env: Env, v: View, k: nat, p: StatePatch, kinds: seq<EventKind>)
    requires kinds != [] && Releases(p)
    ensures ThreadMoves(v.snap, Commit(env, v.(nextId := k), v.snap, p, kinds).view.snap)
  {
    var u := v.(nextId := k);
    if Apply(u.snap, p).Ok? {
      ApplyMovesThread(u.snap, p);
      CommitStamps(env, u, u.snap, p, kinds);
      StampMovesThread(Apply(u.snap, p).value, Commit(env, u, u.snap, p, kinds).view.snap);
    }
  }

  /** The failure mark from the stale snapshot still only gives the thread up. */
  lemma FinishMovesThread(env: Env, wf: Compiled, v: View, n: NodeId, r: NodeResult)
    ensures ThreadMoves(SettleNode(env, wf, v, n, r).view.snap, FinishNode(env, wf, v, n, r).view.snap)
  {
    var u := SettleNode(env, wf, v, n, r);
    if !u.raised && r.status == Failed {
      SettleStamps(env, wf, v, n, r);
      StaleMarkMovesThread(env, u.view, Apply(v.snap, ResultPatch(v.snap, wf, n, r, v.nextId)).value, NodeFailure(r.error));
    }
  }

  lemma SettleStamps(env: Env, wf: Compiled, v: View, n: NodeId, r: NodeResult)
    requires !SettleNode(env, wf, v, n, r).raised
    ensures Apply(v.snap, ResultPatch(v.snap, wf, n, r, v.nextId)).Ok?
    ensures Stamped(Apply(v.snap, ResultPatch(v.snap, wf, n, r, v.nextId)).value, SettleNode(env, wf, v, n, r).view.snap)
  {
    CommitStamps(env, v.(nextId := AfterArtifact(v.snap, wf, n, r, v.nextId)), v.snap,
                 ResultPatch(v.snap, wf, n, r, v.nextId), [NodeReported(n, r.status)] + CreatedKinds(r.interrupts));
  }

  lemma StaleMarkMovesThread(env: Env, u: View, base: Snapshot, code: FailureCode)
    requires Stamped(base, u.snap)
    ensures ThreadMoves(u.snap, MarkFailed(env, u, base, code).view.snap)
  {
    var p := EndPatch(RunFailed, Some(Some(code)));
    if Apply(base, p).Ok? {
      ApplyMovesThread(base, p);
      CommitStamps(env, u, base, p, [RunFailure(code)]);
      StampMovesThread(Apply(base, p).value, MarkFailed(env, u, base, code).view.snap);
    }
  }

  lemma CommitsMoveThread(env: Env)
    ensures CommitsRelate(env, (v: View, w: View) => ThreadMoves(v.snap, w.snap))
  {
    hide ThreadMoves, Commit, Apply, FinishNode, SettleNode;
    forall v: View, w: View | v.snap == w.snap ensures ThreadMoves(v.snap, w.snap) {
      SameThreadMoves(v.snap);
    }
    forall a: View, b: View, c: View | ThreadMoves(a.snap, b.snap) && ThreadMoves(b.snap, c.snap) ensures ThreadMoves(a.snap, c.snap) {
      ThreadMovesTwice(a.snap, b.snap, c.snap);
    }
    forall v: View, k: nat, p: StatePatch, kinds: seq<EventKind> | kinds != [] && Releases(p)
      ensures ThreadMoves(v.snap, Commit(env, v.(nextId := k), v.snap, p, kinds).view.snap)
    {
      CommitMovesThread(env, v, k, p, kinds);
    }
    forall v: View, nodes ensures ThreadMoves(v.snap, Dispatched(v, nodes).view.snap) {
      DispatchMovesThread(v, nodes);
    }
    forall v: View, o ensures ThreadMoves(v.snap, DuringExecution(v, o).snap) {
    }
    forall wf, v, n, r
      ensures ThreadMoves(SettleNode(env, wf, v, n, r).view.snap, FinishNode(env, wf, v, n, r).view.snap)
    {
      FinishMovesThread(env, wf, v, n, r);
    }
  }

  lemma SameThreadMoves(s: Snapshot)
    ensures ThreadMoves(s, s)
  {
  }

  lemma DispatchMovesThread(v: View, nodes: seq<NodeId>)
    ensures ThreadMoves(v.snap, Dispatched(v, nodes).view.snap)
  {
    if Apply(v.snap, FrontierPatch(nodes)).Ok? {
      ApplyMovesThread(v.snap, FrontierPatch(nodes));
    }
  }

  /** A resume with its loop, and a cancel, keep the thread or give it up. */
  lemma ObeyMovesThread(env: Env, config: SchedulerConfig, wf: Compiled, v: View, c: Command)
    requires WellCompiled(wf) && Honest(env) && RunInv(wf, v) && !c.Others?
    ensures ThreadMoves(v.snap, Obey(env, config, wf, v, c).snap)
  {
    hide ThreadMoves, Commit, RunInv, WellCompiled, Honest, CommitsRelate;
    var rel := (v: View, w: View) => ThreadMoves(v.snap, w.snap);
    CommitsMoveThread(env);
    SameThreadMoves(v.snap);
    if c.ResumeRun? && MayResume(v) {
      ResumeRunKeeps(wf, env, v, c.withPayload);
      var u := Resume(env, v, c.withPayload).view;
      ResumeRelates(env, v, c.withPayload, rel);
      CommitsGiveLoopSteps(env, config, wf, rel);
      LoopRelates(env, config, wf, u, rel);
      ThreadMovesTwice(v.snap, u.snap, Loop(env, config, wf, u).view.snap);
    } else if c.CancelRun? && !v.snap.run.status.Terminal() {
      CommitRelates(env, v, CancelPatch(v.snap), [RunAborted], rel);
    }
  }

  /** A run's first loop keeps its thread or gives it up. */
  lemma LoopMovesThread(env: Env, config: SchedulerConfig, wf: Compiled, v: View)
    requires WellCompiled(wf) && Honest(env) && Decidable(wf, v)
    ensures ThreadMoves(v.snap, Loop(env, config, wf, v).view.snap)
  {
    hide ThreadMoves, Commit, RunInv, WellCompiled, Honest, CommitsRelate;
    var rel := (v: View, w: View) => ThreadMoves(v.snap, w.snap);
    CommitsMoveThread(env);
    CommitsGiveLoopSteps(env, config, wf, rel);
    LoopRelates(env, config, wf, v, rel);
  }

  lemma StepsMoveThread(env: Env, wf: Compiled, v: View)
    ensures forall n | n in v.snap.nodes :: ThreadMoves(v.snap, ExecuteNode(env, wf, v, n).view.snap)
    ensures forall d: Decision | !d.Dispatch? :: ThreadMoves(v.snap, Stop(env, v, d).view.snap)
    ensures forall p :: ThreadMoves(v.snap, Resume(env, v, p).view.snap)
  {
    hide ThreadMoves, CommitsRelate, ExecuteNode, Stop, Resume;
    var rel := (v: View, w: View) => ThreadMoves(v.snap, w.snap);
    CommitsMoveThread(env);
    forall n | n in v.snap.nodes ensures rel(v, ExecuteNode(env, wf, v, n).view) {
      ExecutionRelates(env, wf, v, n, rel);
    }
    forall d: Decision | !d.Dispatch? ensures rel(v, Stop(env, v, d).view) {
      StopRelates(env, v, d, rel);
    }
    forall p ensures rel(v, Resume(env, v, p).view) {
      ResumeRelates(env, v, p, rel);
    }
  }
}
