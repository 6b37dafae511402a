/** The status a thread carries twice, in its record and in its state, and exactly when the two part. */
module ThreadStatuses {
  import opened Common
  import opened Models
  import opened Workflow
  import opened Compiler
  import opened Reducer
  import opened ReducerVersions
  import opened Scheduler
  import opened Events
  import opened RunMachine
  import opened RunInvariant
  import opened RunOps
  import opened RunLifecycle
  import opened RunSteps
  import opened RunLoop
  import opened RunHistory
  import opened RunRecords
  import opened RunTheorems

  /** What both statuses are while a run holds the thread. */
  function Due(status: RunStatus): ThreadStatus {
    if status == RunRunning then ThreadActive else ThreadPaused
  }

  ghost predicate Agree(s: Snapshot) {
    s.thread.status == s.threadState.status
  }

  /** The statuses agree, and while the run is live they say whether it runs. */
  ghost predicate Tidy(s: Snapshot) {
    Agree(s) && (!s.run.status.Terminal() ==> s.thread.status == Due(s.run.status))
  }

  /* ---- One commit ---- */

  lemma ApplyStatuses(s: Snapshot, p: StatePatch)
    requires Apply(s, p).Ok?
    ensures var t := Apply(s, p).value;
            && t.thread.status == p.thread.status.GetOr(s.thread.status)
            && t.threadState.status == p.threadState.status.GetOr(s.threadState.status)
            && t.run.status == p.run.status.GetOr(s.run.status)
  {
    ApplyKeepsRun(s, p);
    var s3 := ApplyNodeUpdates(Fold(UpsertNode, ApplyRecords(s, p).value, p.upserts).value, p.nodes).value;
    RecordStagesRaise(s, p);
    FoldArtifactsKeepsRecords(s3, p.artifacts);
    var s4 := ApplyArtifacts(s3, p.artifacts).value;
    InterruptStageRaises(s4, p.interrupts);
    var s5 := ApplyInterrupts(s4, p.interrupts).value;
    InterruptUpdateStageRaises(s5, p.interruptUpdates);
    var s6 := ApplyInterruptUpdates(s5, p.interruptUpdates).value;
    LinkStagesRaise(s6, p.decisions, p.sideEffects);
    assert Apply(s, p).value == Fold(AddSideEffect, Fold(AddDecision, s6, p.decisions).value, p.sideEffects).value;
  }

  lemma CommitStatuses(env: Env, v: View, base: Snapshot, p: StatePatch, kinds: seq<EventKind>)
    requires Apply(base, p).Ok? && kinds != []
    ensures var t := Commit(env, v, base, p, kinds).view.snap;
            && t.thread.status == p.thread.status.GetOr(base.thread.status)
            && t.threadState.status == p.threadState.status.GetOr(base.threadState.status)
            && t.run.status == p.run.status.GetOr(base.run.status)
  {
    hide Apply;
    ApplyStatuses(base, p);
    CommitStamps(env, v, base, p, kinds);
  }

  /** A patch that leaves the statuses alone, or sets them as the run's new status wants them. */
  predicate Proper(p: StatePatch) {
    match p.run.status
    case None => p.thread.status == None && p.threadState.status == None
    case Some(RunRunning) => p.thread.status == p.threadState.status == Some(ThreadActive)
    case Some(RunWaiting) | Some(RunInterrupted) => p.thread.status == p.threadState.status == Some(ThreadPaused)
    case Some(_) => p.thread.status == None && p.threadState.status == Some(ThreadActive)
  }

  /** Proper patches keep the statuses tidy, save that one that ends a run must find it running. */
  lemma ProperKeepsTidy(env: Env, v: View, base: Snapshot, p: StatePatch, kinds: seq<EventKind>)
    requires kinds != [] && Proper(p) && Tidy(base) && Tidy(v.snap)
    requires p.run.status.Some? && p.run.status.value.Terminal() ==> base.run.status == RunRunning
    ensures Tidy(Commit(env, v, base, p, kinds).view.snap)
  {
    hide Apply;
    if Apply(base, p).Ok? {
      CommitStatuses(env, v, base, p, kinds);
    }
  }

  /* ---- Steps ---- */

  lemma MarkKeepsTidy(env: Env, v: View, base: Snapshot, code: FailureCode)
    requires Tidy(base) && Tidy(v.snap) && base.run.status == RunRunning
    ensures Tidy(MarkFailed(env, v, base, code).view.snap)
  {
    hide Commit, Tidy;
    ProperKeepsTidy(env, v, base, EndPatch(RunFailed, Some(Some(code))), [RunFailure(code)]);
  }

  lemma SettleKeepsTidy(env: Env, wf: Compiled, v: View, n: NodeId, r: NodeResult)
    requires Tidy(v.snap)
    ensures Tidy(SettleNode(env, wf, v, n, r).view.snap)
  {
    hide Commit, Tidy;
    var w := v.(nextId := AfterArtifact(v.snap, wf, n, r, v.nextId));
    ProperKeepsTidy(env, w, v.snap, ResultPatch(v.snap, wf, n, r, v.nextId),
                    [NodeReported(n, r.status)] + CreatedKinds(r.interrupts));
  }

  lemma FinishKeepsTidy(env: Env, wf: Compiled, v: View, n: NodeId, r: NodeResult)
    requires Tidy(v.snap) && v.snap.run.status == RunRunning
    ensures Tidy(FinishNode(env, wf, v, n, r).view.snap)
  {
    hide Apply, Commit, MarkFailed;
    SettleKeepsTidy(env, wf, v, n, r);
    var p := ResultPatch(v.snap, wf, n, r, v.nextId);
    if !SettleNode(env, wf, v, n, r).raised && r.status == Failed {
      SettleVersions(env, wf, v, n, r);
      ApplyStatuses(v.snap, p);
      MarkKeepsTidy(env, SettleNode(env, wf, v, n, r).view, Apply(v.snap, p).value, NodeFailure(r.error));
    }
  }

  lemma ExecuteKeepsTidy(env: Env, wf: Compiled, v: View, n: NodeId)
    requires n in v.snap.nodes && Tidy(v.snap) && v.snap.run.status == RunRunning
    ensures Tidy(ExecuteNode(env, wf, v, n).view.snap)
  {
    hide Apply, Commit, FinishNode, Tidy;
    MarkKeepsTidy(env, v, v.snap, ExecutorNotAvailable);
    ProperKeepsTidy(env, v, v.snap, StartPatch(v.snap, n), [NodeStarted(n)]);
    StillRunning(env, v, n);
    var u := StartNode(env, v, n).view;
    var o := env.execute(u.snap, n, u.nextId);
    if o.result.Some? {
      FinishKeepsTidy(env, wf, DuringExecution(u, o), n, o.result.value);
    }
  }

  lemma StillRunning(env: Env, v: View, n: NodeId)
    requires n in v.snap.nodes && v.snap.run.status == RunRunning
    ensures StartNode(env, v, n).view.snap.run.status == RunRunning
  {
    hide Apply;
    if Apply(v.snap, StartPatch(v.snap, n)).Ok? {
      CommitStatuses(env, v, v.snap, StartPatch(v.snap, n), [NodeStarted(n)]);
    }
  }

  lemma StopKeepsTidy(env: Env, v: View, d: Decision)
    requires !d.Dispatch? && Tidy(v.snap) && v.snap.run.status == RunRunning
    ensures Tidy(Stop(env, v, d).view.snap)
  {
    hide Commit, Tidy;
    ProperKeepsTidy(env, v, v.snap, EndPatch(RunCompleted, None), [RunDone]);
    ProperKeepsTidy(env, v, v.snap, PausePatch(RunInterrupted), [RunHalted]);
    ProperKeepsTidy(env, v, v.snap, PausePatch(RunWaiting), [RunIdle]);
    ProperKeepsTidy(env, v, v.snap, EndPatch(RunFailed, Some(Some(NoProgress))), [RunFailure(NoProgress)]);
  }

  lemma DispatchKeepsTidy(v: View, nodes: seq<NodeId>)
    requires Tidy(v.snap)
    ensures Tidy(Dispatched(v, nodes).view.snap)
  {
    hide Apply;
    if Apply(v.snap, FrontierPatch(nodes)).Ok? {
      ApplyStatuses(v.snap, FrontierPatch(nodes));
    }
  }

  lemma ResumeKeepsTidy(env: Env, v: View, withPayload: bool)
    requires Tidy(v.snap)
    ensures Tidy(Resume(env, v, withPayload).view.snap)
  {
    hide Commit, Tidy;
    var ids := if withPayload then v.snap.runState.pendingInterrupts else [];
    ProperKeepsTidy(env, v, v.snap, ResumePatch(v.snap, ids), ResumeKinds(ids));
  }

  lemma LoopStepsKeepTidy(env: Env, config: SchedulerConfig, wf: Compiled)
    ensures LoopStepsRelate(env, config, wf, (v: View, w: View) => Tidy(v.snap) ==> Tidy(w.snap))
  {
    hide Tidy, RunInv, ExecuteNode, Dispatched, Stop;
    forall v, n | Idle(wf, v) && MayStart(wf, v.snap, n) && Tidy(v.snap)
      ensures Tidy(ExecuteNode(env, wf, v, n).view.snap)
    {
      ExecuteKeepsTidy(env, wf, v, n);
    }
    forall v: View, nodes | Tidy(v.snap) ensures Tidy(Dispatched(v, nodes).view.snap) {
      DispatchKeepsTidy(v, nodes);
    }
    forall v, d: Decision | Idle(wf, v) && !d.Dispatch? && Tidy(v.snap) ensures Tidy(Stop(env, v, d).view.snap) {
      StopKeepsTidy(env, v, d);
    }
  }

  /* ---- Commands ---- */

  /** Cancelling leaves the record's status and makes the state active: the two part exactly when the run
      was waiting or interrupted. */
  lemma CancelParts(wf: Compiled, env: Env, v: View)
    requires RunInv(wf, v) && !v.snap.run.status.Terminal() && Tidy(v.snap)
    ensures var s := Cancel(env, v).view.snap;
            && (Agree(s) <==> !MayResume(v))
            && s.thread.status == v.snap.thread.status && s.threadState.status == ThreadActive
  {
    hide RunInv, Apply, Commit;
    CancelRunKeeps(wf, env, v);
    CancelApplied(wf, env, v);
    CommitStatuses(env, v, v.snap, CancelPatch(v.snap), [RunAborted]);
  }

  lemma CancelApplied(wf: Compiled, env: Env, v: View)
    requires RunInv(wf, v) && !v.snap.run.status.Terminal()
    ensures Apply(v.snap, CancelPatch(v.snap)).Ok?
  {
    CancelRunKeeps(wf, env, v);
  }

  /** A command keeps the two statuses in agreement, however its loop ends, unless it cancels a run that
      waits or is interrupted; that always parts them. */
  lemma CommandParts(env: Env, config: SchedulerConfig, wf: Compiled, v: View, c: Command)
    requires WellCompiled(wf) && Honest(env) && RunInv(wf, v) && Tidy(v.snap) && !v.snap.run.status.Terminal()
    requires !c.Others?
    ensures var u := Obey(env, config, wf, v, c).snap;
            && (Agree(u) <==> !(c.CancelRun? && MayResume(v)))
            && (!Agree(u) ==> u.thread.status == ThreadPaused && u.threadState.status == ThreadActive)
            && (!u.run.status.Terminal() ==> Tidy(u))
  {
    hide WellCompiled, Honest, RunInv, Commit, Loop;
    if c.ResumeRun? && MayResume(v) {
      ResumeRunKeeps(wf, env, v, c.withPayload);
      ResumeKeepsTidy(env, v, c.withPayload);
      LoopStepsKeepTidy(env, config, wf);
      LoopRelates(env, config, wf, Resume(env, v, c.withPayload).view, (v: View, w: View) => Tidy(v.snap) ==> Tidy(w.snap));
    } else if c.CancelRun? {
      CancelParts(wf, env, v);
      CancelRunKeeps(wf, env, v);
    }
  }

  /** What holds of every stored run: as long as it is live its thread is tidy. */
  ghost predicate TidyWhileLive(s: Snapshot) {
    !s.run.status.Terminal() ==> Tidy(s)
  }

  lemma BeginIsTidy(wf: Compiled, env: Env, start: Start)
    requires WellCompiled(wf)
    ensures Tidy(Begin(env, start.thread, start.threadState, wf, start.nextId).view.snap)
  {
    hide WellCompiled, Apply, Commit;
    var run := Id(start.nextId);
    var empty := EmptySnapshot(start.thread, start.threadState, run, wf);
    BeginApplies(start.thread, start.threadState, run, wf);
    CommitStatuses(env, View(empty, [], [], start.nextId + 1), empty, InitialPatch(run, wf), InitialKinds(wf));
  }

  lemma EndedStaysEnded(env: Env, config: SchedulerConfig, wf: Compiled, v: View, c: Command)
    requires WellCompiled(wf) && Honest(env) && RunInv(wf, v) && v.snap.run.status.Terminal()
    ensures Obey(env, config, wf, v, c).snap.run.status.Terminal()
  {
    hide WellCompiled, Honest, RunInv, Loop, Commit;
  }

  lemma ObeyKeepsTidy(env: Env, config: SchedulerConfig, wf: Compiled, v: View, c: Command)
    requires WellCompiled(wf) && Honest(env) && RunInv(wf, v) && TidyWhileLive(v.snap)
    ensures TidyWhileLive(Obey(env, config, wf, v, c).snap)
  {
    hide WellCompiled, Honest, RunInv, Tidy;
    if v.snap.run.status.Terminal() {
      hide Obey;
      EndedStaysEnded(env, config, wf, v, c);
    } else if c.Others? {
      OthersKeepTidy(env, config, wf, v, c);
    } else {
      hide Obey;
      CommandParts(env, config, wf, v, c);
    }
  }

  lemma OthersKeepTidy(env: Env, config: SchedulerConfig, wf: Compiled, v: View, c: Command)
    requires WellCompiled(wf) && Honest(env) && RunInv(wf, v) && c.Others? && !v.snap.run.status.Terminal()
    ensures Tidy(v.snap) ==> Tidy(Obey(env, config, wf, v, c).snap)
  {
    hide WellCompiled, Honest, RunInv;
  }

  lemma {:induction false} DriveKeepsTidy(env: Env, config: SchedulerConfig, wf: Compiled, v: View, commands: seq<Command>)
    requires WellCompiled(wf) && Honest(env) && RunInv(wf, v) && TidyWhileLive(v.snap)
    ensures TidyWhileLive(Drive(env, config, wf, v, commands).snap)
    decreases |commands|
  {
    hide WellCompiled, Honest, RunInv, TidyWhileLive, Obey;
    if commands != [] {
      ObeyKeepsTidy(env, config, wf, v, commands[0]);
      DriveKeepsTidy(env, config, wf, Obey(env, config, wf, v, commands[0]), commands[1..]);
    }
  }

  /* ---- The theorem ---- */

  /** In every history, while a run is live both statuses of its thread are active if it runs and paused
      if it waits or is interrupted. The next command leaves them in agreement, unless it cancels the run
      while it waits or is interrupted: then, and only then, the record stays paused while the state says
      active. */
  lemma StatusesPartExactly(env: Env, config: SchedulerConfig, wf: Compiled, start: Start, commands: seq<Command>,
                            c: Command)
    requires WellCompiled(wf) && Honest(env) && start.Sound()
    requires !RunOf(env, config, wf, start, commands).snap.run.status.Terminal()
    ensures var v := RunOf(env, config, wf, start, commands);
            var u := Obey(env, config, wf, v, c).snap;
            && v.snap.thread.status == v.snap.threadState.status == Due(v.snap.run.status)
            && (u.thread.status != u.threadState.status <==> c.CancelRun? && MayResume(v))
            && (u.thread.status != u.threadState.status ==>
                  u.thread.status == ThreadPaused && u.threadState.status == ThreadActive)
  {
    hide WellCompiled, Honest, RunInv, Obey, Begin, Loop, Drive;
    BeginKeeps(wf, env, start.thread, start.threadState, start.nextId);
    BeginIsTidy(wf, env, start);
    var b := Begin(env, start.thread, start.threadState, wf, start.nextId).view;
    LoopStepsKeepTidy(env, config, wf);
    LoopRelates(env, config, wf, b, (v: View, w: View) => Tidy(v.snap) ==> Tidy(w.snap));
    DriveKeepsTidy(env, config, wf, Loop(env, config, wf, b).view, commands);
    var v := RunOf(env, config, wf, start, commands);
    if c.Others? {
      OthersKeepTidy(env, config, wf, v, c);
    } else {
      CommandParts(env, config, wf, v, c);
    }
  }
}
