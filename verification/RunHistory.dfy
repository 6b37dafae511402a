/** Runs as callers drive them: begin, then any resumes and cancels. What every step keeps, every
    history keeps. */
module RunHistory {
  import opened Common
  import opened Lists
  import opened Models
  import opened Workflow
  import opened Compiler
  import opened Reducer
  import opened ReducerFacts
  import opened Scheduler
  import opened Events
  import opened RunMachine
  import opened RunInvariant
  import opened RunOps
  import opened RunResume
  import opened RunLifecycle
  import opened RunSteps
  import opened RunLoop

  /* ---- The view after beginning, resuming and cancelling ---- */

  lemma BeginKeeps(wf: Compiled, env: Env, thread: ThreadRecord, threadState: ThreadState, nextId: nat)
    requires WellCompiled(wf) && thread.threadId == threadState.threadId && Unique(threadState.artifactIds)
    ensures var r := Begin(env, thread, threadState, wf, nextId);
            && !r.raised && Idle(wf, r.view) && r.view.Run() == Id(nextId) && r.view.nextId > nextId
  {
    var empty := EmptySnapshot(thread, threadState, Id(nextId), wf);
    var p := InitialPatch(Id(nextId), wf);
    BeginApplies(thread, threadState, Id(nextId), wf);
    var t := Apply(empty, p).value;
    BeginSnapshotOk(thread, threadState, Id(nextId), wf, t);
    BeginKeepsCore(thread, threadState, Id(nextId), wf, t);
    BeginTold(thread, threadState, Id(nextId), wf, t);
    assert Kinds([]) == [];
    CommitKeeps(wf, env, View(empty, [], [], nextId + 1), empty, p, InitialKinds(wf), t);
  }

  predicate MayResume(v: View) {
    v.snap.run.status == RunInterrupted || v.snap.run.status == RunWaiting
  }

  lemma ResumeNames(s: Snapshot, ids: seq<Id>, t: Snapshot, nextId: nat)
    requires ResumedFrom(s, ids, t) && ThreadNames(s) && !s.run.status.Terminal() && IdsBelow(s, nextId)
    requires NoneFailed(s.nodes) && Released(s.nodes, t.nodes, ToSet(Holders(s.interrupts, ids)))
    requires NoneRunning(s.nodes)
    ensures ThreadNames(t) && IdsBelow(t, nextId) && NoneFailed(t.nodes) && NoneRunning(t.nodes)
  {
  }

  lemma ResumeRunKeeps(wf: Compiled, env: Env, v: View, withPayload: bool)
    requires RunInv(wf, v) && MayResume(v)
    ensures var r := Resume(env, v, withPayload);
            && !r.raised && Idle(wf, r.view) && r.view.Run() == v.Run() && r.view.nextId > v.nextId
  {
    hide Apply, SnapshotOk, Trails, AttemptsBounded, InterruptsHeld, Begun, SavedOk, Ordered, GapFree, Commit, ResumePatch;
    var ids := if withPayload then v.snap.runState.pendingInterrupts else [];
    ResumeKeeps(wf, v.snap, ids);
    var t := Apply(v.snap, ResumePatch(v.snap, ids)).value;
    ResumeNames(v.snap, ids, t, v.nextId);
    CommitKeeps(wf, env, v, v.snap, ResumePatch(v.snap, ids), ResumeKinds(ids), t);
  }

  lemma CancelNames(s: Snapshot, t: Snapshot, nextId: nat)
    requires t == Plain(s, CancelPatch(s)) && IdsBelow(s, nextId)
    ensures ThreadNames(t) && IdsBelow(t, nextId)
  {
  }

  /** Cancelling a live run always succeeds and frees its thread, even with a node left in execution. */
  lemma CancelRunKeeps(wf: Compiled, env: Env, v: View)
    requires RunInv(wf, v) && !v.snap.run.status.Terminal()
    ensures var r := Cancel(env, v);
            && !r.raised && RunInv(wf, r.view) && r.view.snap.run.status == RunCancelled
            && r.view.snap.thread.currentRun == None && r.view.snap.threadState.activeRun == None
            && r.view.Run() == v.Run() && r.view.nextId > v.nextId
            && NoneRunning(r.view.snap.nodes)
            && (forall n | n in v.snap.nodes :: r.view.snap.nodes[n].status
                  == if v.snap.nodes[n].status.Terminal() then v.snap.nodes[n].status else Cancelled)
  {
    hide Apply, SnapshotOk, Trails, AttemptsBounded, InterruptsHeld, Begun, SavedOk, Ordered, GapFree, Commit;
    var t := Plain(v.snap, CancelPatch(v.snap));
    CancelKeeps(wf, v.snap);
    CancelNames(v.snap, t, v.nextId);
    ReplayOne(wf.specs.Keys, Abs(v.snap), RunAborted);
    CommitKeeps(wf, env, v, v.snap, CancelPatch(v.snap), [RunAborted], t);
  }

  /* ---- Histories ---- */

  /** `Others` is what other runs do in the meantime: they use identifiers, and once the run has ended
      they may use its thread. */
  datatype Command =
    | ResumeRun(withPayload: bool)
    | CancelRun
    | Others(thread: ThreadRecord, threadState: ThreadState, nextId: nat)

  /** `w` is the run of `v` after others have been at work. */
  predicate Elsewhere(v: View, w: View) {
    && w == v.(snap := v.snap.(thread := w.snap.thread, threadState := w.snap.threadState), nextId := w.nextId)
    && v.nextId <= w.nextId
    && w.snap.thread.threadId == v.snap.thread.threadId && w.snap.threadState.threadId == v.snap.threadState.threadId
    && v.snap.thread.version <= w.snap.thread.version && v.snap.threadState.version <= w.snap.threadState.version
    && v.snap.threadState.artifactIds <= w.snap.threadState.artifactIds && Unique(w.snap.threadState.artifactIds)
    && if v.snap.run.status.Terminal() then
         w.snap.threadState.activeRun == w.snap.thread.currentRun && w.snap.thread.currentRun != Some(v.Run())
       else w.snap.thread == v.snap.thread && w.snap.threadState == v.snap.threadState
  }

  function Aside(v: View, thread: ThreadRecord, threadState: ThreadState, nextId: nat): View {
    v.(snap := v.snap.(thread := thread, threadState := threadState), nextId := nextId)
  }

  lemma ElsewhereKeeps(wf: Compiled, v: View, w: View)
    requires RunInv(wf, v) && Elsewhere(v, w)
    ensures RunInv(wf, w)
  {
    hide SavedMatches;
    assert Abs(w.snap) == Abs(v.snap);
    hide Replay, AttemptsBounded, Trails;
  }

  /** A command on a run that does not accept it changes nothing. */
  function Obey(env: Env, config: SchedulerConfig, wf: Compiled, v: View, c: Command): (r: View)
    requires WellCompiled(wf) && Honest(env) && RunInv(wf, v)
    ensures RunInv(wf, r) && r.Run() == v.Run() && r.nextId >= v.nextId
  {
    match c
    case ResumeRun(withPayload) =>
      if !MayResume(v) then v
      else
        ResumeRunKeeps(wf, env, v, withPayload);
        Loop(env, config, wf, Resume(env, v, withPayload).view).view
    case CancelRun =>
      if v.snap.run.status.Terminal() then v
      else
        CancelRunKeeps(wf, env, v);
        Cancel(env, v).view
    case Others(thread, threadState, nextId) =>
      var w := Aside(v, thread, threadState, nextId);
      if !Elsewhere(v, w) then v
      else
        ElsewhereKeeps(wf, v, w);
        w
  }

  function Drive(env: Env, config: SchedulerConfig, wf: Compiled, v: View, commands: seq<Command>): (r: View)
    requires WellCompiled(wf) && Honest(env) && RunInv(wf, v)
    ensures RunInv(wf, r) && r.Run() == v.Run() && r.nextId >= v.nextId
    decreases |commands|
  {
    if commands == [] then v else Drive(env, config, wf, Obey(env, config, wf, v, commands[0]), commands[1..])
  }

  /** A run from its start through any commands. */
  function History(env: Env, config: SchedulerConfig, wf: Compiled, thread: ThreadRecord, threadState: ThreadState,
                   nextId: nat, commands: seq<Command>): (r: View)
    requires WellCompiled(wf) && Honest(env)
    requires thread.threadId == threadState.threadId && Unique(threadState.artifactIds)
    ensures RunInv(wf, r)
  {
    BeginKeeps(wf, env, thread, threadState, nextId);
    Drive(env, config, wf, Loop(env, config, wf, Begin(env, thread, threadState, wf, nextId).view).view, commands)
  }

  /* ---- From steps to histories ---- */

  /** `rel` holds across every elementary step of the loop. */
  ghost predicate LoopStepsRelate(env: Env, config: SchedulerConfig, wf: Compiled, rel: (View, View) -> bool) {
    && (forall v :: rel(v, v))
    && (forall a, b, c :: rel(a, b) && rel(b, c) ==> rel(a, c))
    && (forall v, n :: Idle(wf, v) && MayStart(wf, v.snap, n) ==> rel(v, ExecuteNode(env, wf, v, n).view))
    && (forall v, nodes :: Idle(wf, v) && AllMayStart(wf, v.snap, nodes) ==> rel(v, Dispatched(v, nodes).view))
    && (forall v, d: Decision :: Idle(wf, v) && !d.Dispatch? ==> rel(v, Stop(env, v, d).view))
  }

  /** `rel` holds across every elementary step of the machine. */
  ghost predicate StepsRelate(env: Env, config: SchedulerConfig, wf: Compiled, rel: (View, View) -> bool) {
    && LoopStepsRelate(env, config, wf, rel)
    && (forall v, p :: RunInv(wf, v) && MayResume(v) ==> rel(v, Resume(env, v, p).view))
    && (forall v :: RunInv(wf, v) && !v.snap.run.status.Terminal() ==> rel(v, Cancel(env, v).view))
    && (forall v, w :: RunInv(wf, v) && Elsewhere(v, w) ==> rel(v, w))
  }

  /** An execution is a failure mark, or a start, the executor's own events, and a finish. */
  lemma ExecuteRelates(env: Env, wf: Compiled, v: View, n: NodeId, rel: (View, View) -> bool)
    requires n in v.snap.nodes && rel(v, v)
    requires forall a, b, c :: rel(a, b) && rel(b, c) ==> rel(a, c)
    requires rel(v, MarkFailed(env, v, v.snap, ExecutorNotAvailable).view)
    requires rel(v, StartNode(env, v, n).view)
    requires var u := StartNode(env, v, n).view;
             var o := env.execute(u.snap, n, u.nextId);
             var w := DuringExecution(u, o);
             rel(u, w) && (o.result.Some? ==> rel(w, FinishNode(env, wf, w, n, o.result.value).view))
    ensures rel(v, ExecuteNode(env, wf, v, n).view)
  {
  }

  lemma {:induction false} BatchRelates(env: Env, config: SchedulerConfig, wf: Compiled, v: View, nodes: seq<NodeId>,
                                        rel: (View, View) -> bool)
    requires Honest(env) && Decidable(wf, v) && LoopStepsRelate(env, config, wf, rel)
    requires v.snap.run.status.Terminal() || AllMayStart(wf, v.snap, nodes)
    ensures rel(v, RunBatch(env, wf, v, nodes).view)
    decreases |nodes|
  {
    if nodes != [] && !v.snap.run.status.Terminal() {
      assert nodes[0] in nodes;
      BatchStep(wf, env, v, nodes[0]);
      var r := ExecuteNode(env, wf, v, nodes[0]);
      RestMayStart(wf, v.snap, r.view.snap, nodes);
      if !r.raised {
        BatchRelates(env, config, wf, r.view, nodes[1..], rel);
      }
    }
  }

  lemma DispatchRelates(env: Env, config: SchedulerConfig, wf: Compiled, v: View, rel: (View, View) -> bool)
    requires WellCompiled(wf) && Honest(env) && Idle(wf, v) && LoopStepsRelate(env, config, wf, rel)
    requires Decide(config, v.snap, wf).Dispatch?
    ensures rel(v, DispatchBatch(env, wf, v, Decide(config, v.snap, wf).nodes).view)
  {
    var nodes := Decide(config, v.snap, wf).nodes;
    DispatchMayStart(wf, config, v);
    DispatchKeeps(wf, v, nodes);
    var d := Dispatched(v, nodes).view;
    SameNodesMayStart(wf, v.snap, d.snap, nodes);
    BatchRelates(env, config, wf, d, nodes, rel);
  }

  lemma {:induction false} LoopRelates(env: Env, config: SchedulerConfig, wf: Compiled, v: View, rel: (View, View) -> bool)
    requires WellCompiled(wf) && Honest(env) && Decidable(wf, v) && LoopStepsRelate(env, config, wf, rel)
    ensures rel(v, Loop(env, config, wf, v).view)
    decreases Measure(v.snap)
  {
    hide WellCompiled, Honest, RunInv, DispatchBatch, Stop, Decide;
    if !v.snap.run.status.Terminal() {
      var d := Decide(config, v.snap, wf);
      if d.Dispatch? {
        DispatchBatchKeeps(wf, env, config, v);
        DispatchRelates(env, config, wf, v, rel);
        var b := DispatchBatch(env, wf, v, d.nodes);
        if !b.raised {
          LoopRelates(env, config, wf, b.view, rel);
        }
      }
    }
  }

  lemma ObeyRelates(env: Env, config: SchedulerConfig, wf: Compiled, v: View, c: Command, rel: (View, View) -> bool)
    requires WellCompiled(wf) && Honest(env) && RunInv(wf, v) && StepsRelate(env, config, wf, rel)
    ensures rel(v, Obey(env, config, wf, v, c))
  {
    hide WellCompiled, Honest, RunInv, Loop, Resume, Cancel, Elsewhere;
    if c.ResumeRun? && MayResume(v) {
      ResumeRunKeeps(wf, env, v, c.withPayload);
      LoopRelates(env, config, wf, Resume(env, v, c.withPayload).view, rel);
    }
  }

  /** Whatever every elementary step relates, every history relates, from any point of it on. */
  lemma {:induction false} DriveRelates(env: Env, config: SchedulerConfig, wf: Compiled, v: View, commands: seq<Command>,
                                        rel: (View, View) -> bool)
    requires WellCompiled(wf) && Honest(env) && RunInv(wf, v) && StepsRelate(env, config, wf, rel)
    ensures rel(v, Drive(env, config, wf, v, commands))
    decreases |commands|
  {
    hide WellCompiled, Honest, RunInv, Obey;
    if commands != [] {
      ObeyRelates(env, config, wf, v, commands[0], rel);
      DriveRelates(env, config, wf, Obey(env, config, wf, v, commands[0]), commands[1..], rel);
    }
  }
}
