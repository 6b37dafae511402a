/** Why a loop ends: it raises only when its environment does, it stops only when nothing is ready, and
    the status it leaves says exactly how the run stands. */
module RunStops {
  import opened Common
  import opened Models
  import opened Workflow
  import opened Compiler
  import opened Reducer
  import opened ReducerFacts
  import opened Selector
  import opened Scheduler
  import opened Events
  import opened RunMachine
  import opened RunInvariant
  import opened RunOps
  import opened RunSteps
  import opened RunLoop

  /* ---- Ending inside an execution ---- */

  /** Inputs can be selected and executors return. */
  ghost predicate Calm(env: Env) {
    && (forall s, n :: env.selectsInput(s, n))
    && (forall s, n, k: nat :: env.execute(s, n, k).result.Some?)
  }

  /** A failure other than the scheduler's names its cause. */
  ghost predicate FailedForCause(s: Snapshot) {
    && s.run.status == RunFailed && s.run.failure.Some?
    && (s.run.failure.value == ExecutorNotAvailable || (s.run.failure.value.NodeFailure? && !NoneFailed(s.nodes)))
  }

  /** The run goes on, or has ended for a cause other than the scheduler's. */
  ghost predicate EndsForCause(s: Snapshot) {
    s.run.status == RunRunning || FailedForCause(s)
  }

  lemma MarkNamesCause(env: Env, v: View, base: Snapshot, code: FailureCode)
    requires !MarkFailed(env, v, base, code).raised
    ensures MarkFailed(env, v, base, code).view.snap.run.failure == Some(code)
  {
    var p := EndPatch(RunFailed, Some(Some(code)));
    CommitStamps(env, v, base, p, [RunFailure(code)]);
    EndNamesCause(base, code);
  }

  lemma EndNamesCause(base: Snapshot, code: FailureCode)
    requires Apply(base, EndPatch(RunFailed, Some(Some(code)))).Ok?
    ensures Apply(base, EndPatch(RunFailed, Some(Some(code)))).value.run.failure == Some(code)
  {
    var p := EndPatch(RunFailed, Some(Some(code)));
    var s3 := ApplyNodeUpdates(ApplyRecords(base, p).value, p.nodes).value;
    assert ApplyArtifacts(s3, []) == Ok(s3);
    assert ApplyInterrupts(s3, []) == Ok(s3);
    assert ApplyInterruptUpdates(s3, []) == Ok(s3);
    assert Fold(AddDecision, s3, []) == Ok(s3);
  }

  lemma FinishMarks(env: Env, wf: Compiled, v: View, n: NodeId, r: NodeResult)
    requires !SettleNode(env, wf, v, n, r).raised && r.status == Failed
    ensures Apply(v.snap, ResultPatch(v.snap, wf, n, r, v.nextId)).Ok?
    ensures FinishNode(env, wf, v, n, r)
            == MarkFailed(env, SettleNode(env, wf, v, n, r).view,
                          Apply(v.snap, ResultPatch(v.snap, wf, n, r, v.nextId)).value, NodeFailure(r.error))
  {
  }

  lemma FinishSettles(wf: Compiled, env: Env, v: View, n: NodeId, r: NodeResult, low: nat)
    requires Executing(wf, v, n) && IdsBelow(v.snap, low)
    requires HonestResult(v.snap, n, r, low, v.nextId) && low <= v.nextId
    ensures !SettleNode(env, wf, v, n, r).raised
  {
    FoldResult(wf, v.snap, n, r, low, v.nextId);
  }

  lemma FinishEnds(wf: Compiled, env: Env, v: View, n: NodeId, r: NodeResult, low: nat)
    requires Executing(wf, v, n) && IdsBelow(v.snap, low)
    requires HonestResult(v.snap, n, r, low, v.nextId) && low <= v.nextId
    ensures var f := FinishNode(env, wf, v, n, r); !f.raised && EndsForCause(f.view.snap)
  {
    hide FinishNode, SettleNode, MarkFailed, Apply, RunInv, Executing, HonestResult;
    FinishNodeKeeps(wf, env, v, n, r, low);
    if r.status == Failed {
      FinishSettles(wf, env, v, n, r, low);
      FinishMarks(env, wf, v, n, r);
      MarkNamesCause(env, SettleNode(env, wf, v, n, r).view,
                     Apply(v.snap, ResultPatch(v.snap, wf, n, r, v.nextId)).value, NodeFailure(r.error));
    }
  }

  /** What a started node's executor finds, and what it hands back. */
  lemma StartedRun(wf: Compiled, env: Env, v: View, n: NodeId, u: View, o: Outcome, w: View)
    requires Honest(env) && Idle(wf, v) && MayStart(wf, v.snap, n)
    requires u == StartNode(env, v, n).view && o == env.execute(u.snap, n, u.nextId) && w == DuringExecution(u, o)
    ensures !StartNode(env, v, n).raised
    ensures o.result.Some? ==>
      && Executing(wf, w, n) && IdsBelow(w.snap, u.nextId) && u.nextId <= w.nextId
      && HonestResult(w.snap, n, o.result.value, u.nextId, w.nextId)
  {
    hide StartNode;
    StartNodeKeeps(wf, env, v, n);
    DuringExecutionKeeps(wf, u, o);
    StillExecuting(wf, u, n, o);
    if o.result.Some? {
      HonestLonger(w.snap, n, o.result.value, u.nextId, o.nextId, w.nextId);
    }
  }

  lemma UnavailableEnds(wf: Compiled, env: Env, v: View)
    requires Idle(wf, v)
    ensures var r := MarkFailed(env, v, v.snap, ExecutorNotAvailable); !r.raised && EndsForCause(r.view.snap)
  {
    EndKeeps(wf, env, v, v.snap, RunFailed, Some(Some(ExecutorNotAvailable)), RunFailure(ExecutorNotAvailable));
    hide MarkFailed, RunInv;
    MarkNamesCause(env, v, v.snap, ExecutorNotAvailable);
  }

  /** A run that ends inside an execution names its cause, and only the environment raises. */
  lemma ExecuteEnds(wf: Compiled, env: Env, v: View, n: NodeId)
    requires Honest(env) && Idle(wf, v) && MayStart(wf, v.snap, n)
    ensures var r := ExecuteNode(env, wf, v, n);
            (Calm(env) ==> !r.raised) && (r.raised || EndsForCause(r.view.snap))
  {
    hide StartNode, FinishNode, DuringExecution, MarkFailed, RunInv, Idle, Executing, HonestResult, EndsForCause, Honest;
    UnavailableEnds(wf, env, v);
    var u := StartNode(env, v, n).view;
    var o := env.execute(u.snap, n, u.nextId);
    var w := DuringExecution(u, o);
    StartedRun(wf, env, v, n, u, o, w);
    if o.result.Some? {
      FinishEnds(wf, env, w, n, o.result.value, u.nextId);
    }
  }

  lemma {:induction false} BatchNeverRaises(wf: Compiled, env: Env, v: View, nodes: seq<NodeId>)
    requires Honest(env) && Calm(env) && Decidable(wf, v)
    requires v.snap.run.status.Terminal() || AllMayStart(wf, v.snap, nodes)
    ensures !RunBatch(env, wf, v, nodes).raised
    decreases |nodes|
  {
    if nodes != [] && !v.snap.run.status.Terminal() {
      assert nodes[0] in nodes;
      BatchStep(wf, env, v, nodes[0]);
      ExecuteEnds(wf, env, v, nodes[0]);
      var r := ExecuteNode(env, wf, v, nodes[0]);
      RestMayStart(wf, v.snap, r.view.snap, nodes);
      BatchNeverRaises(wf, env, r.view, nodes[1..]);
    }
  }

  /** The loop never trips the validation of its own records: with an environment that does not raise,
      it does not raise. */
  lemma {:induction false} LoopNeverRaises(env: Env, config: SchedulerConfig, wf: Compiled, v: View)
    requires WellCompiled(wf) && Honest(env) && Calm(env) && Decidable(wf, v)
    ensures !Loop(env, config, wf, v).raised
    decreases Measure(v.snap)
  {
    hide WellCompiled, Honest, RunInv, Decide, RunBatch, Dispatched, Stop, Calm, HasTrail;
    if !v.snap.run.status.Terminal() {
      var d := Decide(config, v.snap, wf);
      if d.Dispatch? {
        DispatchBatchKeeps(wf, env, config, v);
        DispatchMayStart(wf, config, v);
        DispatchKeeps(wf, v, d.nodes);
        var w := Dispatched(v, d.nodes).view;
        SameNodesMayStart(wf, v.snap, w.snap, d.nodes);
        BatchNeverRaises(wf, env, w, d.nodes);
        LoopNeverRaises(env, config, wf, DispatchBatch(env, wf, v, d.nodes).view);
      } else {
        StopKeeps(wf, env, v, d);
      }
    }
  }

  /* ---- What each status says ---- */

  ghost predicate NothingReady(s: Snapshot, wf: Compiled) {
    forall n | n in wf.order :: !IsReady(s, wf, n)
  }

  /** Nothing can move the run on: nothing is ready, in execution or waiting, and no interrupt is open. */
  ghost predicate Deadlocked(s: Snapshot, wf: Compiled) {
    && NothingReady(s, wf) && s.runState.pendingInterrupts == []
    && forall n | n in s.nodes :: s.nodes[n].status == Pending || s.nodes[n].status.Terminal()
  }

  ghost predicate StatusIsExact(config: SchedulerConfig, wf: Compiled, s: Snapshot) {
    match s.run.status
    case RunRunning => false
    case RunCancelled => false
    case RunCompleted => NothingReady(s, wf) && TerminalConditionMet(s, wf) && NoneFailed(s.nodes)
    case RunInterrupted =>
      NothingReady(s, wf) && !TerminalConditionMet(s, wf) && s.runState.pendingInterrupts != []
    case RunWaiting =>
      && NothingReady(s, wf) && !TerminalConditionMet(s, wf) && s.runState.pendingInterrupts == []
      && ((exists n | n in s.nodes :: s.nodes[n].status == Waiting) || !config.deadlockDetection)
    case RunFailed =>
      if s.run.failure == Some(NoProgress) then
        Deadlocked(s, wf) && !TerminalConditionMet(s, wf) && config.deadlockDetection
      else FailedForCause(s)
  }

  /* ---- Stopping changes nothing the scheduler looks at ---- */

  ghost predicate LooksTheSame(s: Snapshot, t: Snapshot) {
    && t.nodes == s.nodes && t.interrupts == s.interrupts && t.artifacts == s.artifacts && t.decisions == s.decisions
    && t.runState.pendingInterrupts == s.runState.pendingInterrupts
  }

  lemma {:induction false} SameUpstream(s: Snapshot, t: Snapshot, edges: seq<EdgeSpec>)
    requires LooksTheSame(s, t)
    ensures Upstream(t, edges) == Upstream(s, edges)
  {
    if edges != [] && edges[0].source in s.nodes {
      SameUpstream(s, t, edges[1..]);
      SameEdge(s, t, s.nodes[edges[0].source], edges[0].condition);
    }
  }

  lemma SameEdge(s: Snapshot, t: Snapshot, source: NodeState, condition: Option<EdgeCondition>)
    requires LooksTheSame(s, t)
    ensures EdgeSatisfied(t, source, condition) == EdgeSatisfied(s, source, condition)
  {
  }

  lemma SameIsReady(s: Snapshot, t: Snapshot, wf: Compiled, n: NodeId)
    requires LooksTheSame(s, t)
    ensures IsReady(t, wf, n) == IsReady(s, wf, n)
  {
    if n in wf.incoming {
      SameUpstream(s, t, wf.incoming[n]);
    }
  }

  lemma SameReady(s: Snapshot, t: Snapshot, wf: Compiled)
    requires LooksTheSame(s, t)
    ensures NothingReady(t, wf) == NothingReady(s, wf)
    ensures TerminalConditionMet(t, wf) == TerminalConditionMet(s, wf)
  {
    forall n ensures IsReady(t, wf, n) == IsReady(s, wf, n) {
      SameIsReady(s, t, wf, n);
    }
    assert forall c | c in wf.terminals :: TerminalMet(t, wf, c) == TerminalMet(s, wf, c);
  }

  lemma EndLooksTheSame(wf: Compiled, env: Env, v: View, status: RunStatus, failure: Option<Option<FailureCode>>,
                        kind: EventKind)
    requires Idle(wf, v) && (status == RunFailed || (status == RunCompleted && NoneFailed(v.snap.nodes)))
    ensures var w := Commit(env, v, v.snap, EndPatch(status, failure), [kind]).view;
            && LooksTheSame(v.snap, w.snap) && w.snap.run.failure == failure.GetOr(v.snap.run.failure)
  {
    MarkKeeps(wf, v.snap, EndPatch(status, failure));
    CommitStamps(env, v, v.snap, EndPatch(status, failure), [kind]);
  }

  lemma PauseLooksTheSame(wf: Compiled, env: Env, v: View, status: RunStatus, kind: EventKind)
    requires Idle(wf, v) && (status == RunInterrupted || status == RunWaiting)
    ensures LooksTheSame(v.snap, Commit(env, v, v.snap, PausePatch(status), [kind]).view.snap)
  {
    MarkKeeps(wf, v.snap, PausePatch(status));
    CommitStamps(env, v, v.snap, PausePatch(status), [kind]);
  }

  lemma StopLooksTheSame(wf: Compiled, env: Env, v: View, d: Decision)
    requires Idle(wf, v) && !d.Dispatch?
    ensures LooksTheSame(v.snap, Stop(env, v, d).view.snap)
    ensures d.Fail? ==> Stop(env, v, d).view.snap.run.failure == Some(NoProgress)
  {
    match d
    case Complete => EndLooksTheSame(wf, env, v, RunCompleted, None, RunDone);
    case Interrupt => PauseLooksTheSame(wf, env, v, RunInterrupted, RunHalted);
    case Wait(_) => PauseLooksTheSame(wf, env, v, RunWaiting, RunIdle);
    case Fail => EndLooksTheSame(wf, env, v, RunFailed, Some(Some(NoProgress)), RunFailure(NoProgress));
  }

  /* ---- What a decision to stop says ---- */

  lemma EmptyOrListed(xs: seq<NodeId>)
    ensures xs == [] || exists n :: n in xs
  {
    assert xs != [] ==> xs[0] in xs;
  }

  /** With nothing in execution a list is empty exactly when no node has its status. */
  lemma EmptyLists(s: Snapshot)
    requires ListsAgree(s) && NoneRunning(s.nodes)
    ensures s.runState.active == []
    ensures s.runState.waiting != [] <==> exists n | n in s.nodes :: s.nodes[n].status == Waiting
    ensures s.runState.blocked != [] <==> exists n | n in s.nodes :: s.nodes[n].status == Blocked
  {
    EmptyOrListed(s.runState.active);
    assert s.runState.waiting != [] ==> s.runState.waiting[0] in s.runState.waiting;
    assert s.runState.blocked != [] ==> s.runState.blocked[0] in s.runState.blocked;
  }

  /** Blocked nodes are held by open interrupts, so without any the scheduler sees none. */
  lemma NoneBlocked(s: Snapshot)
    requires InterruptsHeld(s.nodes, s.interrupts, false) && s.runState.pendingInterrupts == []
    requires PendingAgrees(s.runState.pendingInterrupts, s.runState.pendingApprovals, s.interrupts)
    ensures forall n | n in s.nodes :: s.nodes[n].status != Blocked
  {
    forall n | n in s.nodes && s.nodes[n].status == Blocked ensures false {
      BlockedIsHeld(s, n);
    }
  }

  ghost predicate DecisionIsExact(config: SchedulerConfig, wf: Compiled, s: Snapshot, d: Decision) {
    && NothingReady(s, wf)
    && (d.Complete? <==> TerminalConditionMet(s, wf))
    && (d.Interrupt? <==> !TerminalConditionMet(s, wf) && s.runState.pendingInterrupts != [])
    && (d.Wait? ==> d.reason != ParallelismLimit)
    && (d.Wait? || d.Fail? <==> !TerminalConditionMet(s, wf) && s.runState.pendingInterrupts == [])
    && (d.Wait? ==> (exists n | n in s.nodes :: s.nodes[n].status == Waiting) || !config.deadlockDetection)
    && (d.Fail? ==> Deadlocked(s, wf) && config.deadlockDetection)
  }

  /** The scheduler stops exactly when no node is ready, and says why; the wait on the parallelism limit
      cannot be reached. */
  lemma StopIsExact(wf: Compiled, config: SchedulerConfig, s: Snapshot)
    requires ListsAgree(s) && NoneRunning(s.nodes) && InterruptsHeld(s.nodes, s.interrupts, false)
    requires PendingAgrees(s.runState.pendingInterrupts, s.runState.pendingApprovals, s.interrupts)
    requires s.nodes.Keys == wf.specs.Keys && (forall n | n in wf.specs :: n in wf.order)
    ensures Decide(config, s, wf).Dispatch? <==> !NothingReady(s, wf)
    ensures !Decide(config, s, wf).Dispatch? ==> DecisionIsExact(config, wf, s, Decide(config, s, wf))
  {
    EmptyLists(s);
    StopsOnlyWhenNothingReady(config, s, wf);
    var d := Decide(config, s, wf);
    if !d.Dispatch? && s.runState.pendingInterrupts == [] {
      NoneBlocked(s);
      if d.Fail? {
        forall n | n in s.nodes ensures s.nodes[n].status == Pending || s.nodes[n].status.Terminal() {
          assert s.nodes[n].status == Ready ==> IsReady(s, wf, n);
        }
      }
    }
  }

  lemma IdleDecides(wf: Compiled, config: SchedulerConfig, v: View)
    requires WellCompiled(wf) && Idle(wf, v) && !Decide(config, v.snap, wf).Dispatch?
    ensures DecisionIsExact(config, wf, v.snap, Decide(config, v.snap, wf)) && NoneFailed(v.snap.nodes)
  {
    hide Decide, DecisionIsExact, NothingReady;
    StopIsExact(wf, config, v.snap);
  }

  lemma StopLeavesExact(wf: Compiled, env: Env, config: SchedulerConfig, v: View)
    requires WellCompiled(wf) && Idle(wf, v) && !Decide(config, v.snap, wf).Dispatch?
    ensures StatusIsExact(config, wf, Stop(env, v, Decide(config, v.snap, wf)).view.snap)
  {
    hide Stop, Decide, IsReady, TerminalConditionMet, RunInv, NothingReady, WellCompiled;
    var d := Decide(config, v.snap, wf);
    IdleDecides(wf, config, v);
    StopKeeps(wf, env, v, d);
    StopLooksTheSame(wf, env, v, d);
    SameReady(v.snap, Stop(env, v, d).view.snap, wf);
  }

  lemma {:induction false} BatchFailsForCause(wf: Compiled, env: Env, v: View, nodes: seq<NodeId>)
    requires Honest(env) && Idle(wf, v) && AllMayStart(wf, v.snap, nodes)
    ensures var r := RunBatch(env, wf, v, nodes);
            r.raised || EndsForCause(r.view.snap)
    decreases |nodes|
  {
    hide Honest, RunInv, ExecuteNode, FailedForCause, HasTrail;
    if nodes != [] {
      assert nodes[0] in nodes;
      BatchStep(wf, env, v, nodes[0]);
      ExecuteEnds(wf, env, v, nodes[0]);
      var r := ExecuteNode(env, wf, v, nodes[0]);
      RestMayStart(wf, v.snap, r.view.snap, nodes);
      if !r.raised && r.view.snap.run.status == RunRunning {
        BatchFailsForCause(wf, env, r.view, nodes[1..]);
      }
    }
  }

  /** A loop that returns has stopped with nothing ready, and its status says exactly how the run
      stands: completed only on its terminal condition and without a failed node, failed for lack of
      progress only at a deadlock. */
  lemma {:induction false} LoopStopsExactly(env: Env, config: SchedulerConfig, wf: Compiled, v: View)
    requires WellCompiled(wf) && Honest(env) && Idle(wf, v)
    ensures var r := Loop(env, config, wf, v); r.raised || StatusIsExact(config, wf, r.view.snap)
    decreases Measure(v.snap)
  {
    hide RunBatch, Dispatched, Stop, Decide, NothingReady, TerminalConditionMet, WellCompiled, Honest, RunInv, MayStart;
    var d := Decide(config, v.snap, wf);
    if d.Dispatch? {
      DispatchBatchKeeps(wf, env, config, v);
      DispatchMayStart(wf, config, v);
      DispatchKeeps(wf, v, d.nodes);
      var w := Dispatched(v, d.nodes).view;
      SameNodesMayStart(wf, v.snap, w.snap, d.nodes);
      BatchFailsForCause(wf, env, w, d.nodes);
      var b := DispatchBatch(env, wf, v, d.nodes);
      if !b.raised && b.view.snap.run.status == RunRunning {
        LoopStopsExactly(env, config, wf, b.view);
      }
    } else {
      StopLeavesExact(wf, env, config, v);
    }
  }
}
