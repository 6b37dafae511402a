/** The scheduler loop: it terminates, keeps the invariant, and stops for exactly one reason. */
module RunLoop {
  import opened Common
  import opened Lists
  import opened Models
  import opened Workflow
  import opened Compiler
  import opened ReducerFacts
  import opened Selector
  import opened Scheduler
  import opened Events
  import opened RunMachine
  import opened RunInvariant
  import opened RunOps
  import opened RunSteps

  /* ---- Ready nodes may start ---- */

  lemma FinishedSourceExtendsTrail(wf: Compiled, s: Snapshot, n: NodeId, e: EdgeSpec)
    requires WellCompiled(wf) && n in wf.specs && e in wf.incoming[n]
    requires Finished(s.nodes, e.source) && HasTrail(wf, s.nodes, e.source)
    ensures HasTrail(wf, s.nodes, n)
  {
    var path :| Trail(wf, s.nodes, path, e.source);
    assert Successor(wf.outgoing, e.source, n);
    ExtendWalk(wf.outgoing, path, n);
    var longer := path + [n];
    forall k | 0 <= k < |longer| - 1 ensures Finished(s.nodes, longer[k]) {
      assert longer[k] == path[k];
    }
    assert Trail(wf, s.nodes, longer, n);
  }

  lemma SatisfiedHasTrail(wf: Compiled, s: Snapshot, n: NodeId)
    requires WellCompiled(wf) && n in wf.specs && n in s.nodes
    requires Begun(s.nodes, false) && Trails(wf, s.nodes)
    requires DependenciesSatisfied(s, wf, n, wf.specs[n].join)
    ensures HasTrail(wf, s.nodes, n)
  {
    if n == wf.entry {
      assert Trail(wf, s.nodes, [n], n);
    } else {
      SatisfiedHasFinishedSource(s, wf, n, wf.specs[n].join);
      var e :| e in wf.incoming[n] && e.source in s.nodes && s.nodes[e.source].status.Terminal();
      assert Entered(s.nodes[e.source]);
      FinishedSourceExtendsTrail(wf, s, n, e);
    }
  }

  /** Whatever the join policy and the edge conditions, a ready node has a finished entry path. */
  lemma ReadyMayStart(wf: Compiled, s: Snapshot, n: NodeId)
    requires WellCompiled(wf) && IsReady(s, wf, n)
    requires InterruptsHeld(s.nodes, s.interrupts, false) && Begun(s.nodes, false) && Trails(wf, s.nodes)
    requires PendingAgrees(s.runState.pendingInterrupts, s.runState.pendingApprovals, s.interrupts)
    ensures MayStart(wf, s, n)
  {
    if s.nodes[n].status == Ready {
      assert Entered(s.nodes[n]);
    } else {
      if s.nodes[n].status == Blocked {
        BlockedIsHeld(s, n);
      }
      SatisfiedHasTrail(wf, s, n);
    }
  }

  /** A blocked node always has an open interrupt, so it is never picked again before a resume. */
  lemma BlockedIsHeld(s: Snapshot, n: NodeId)
    requires InterruptsHeld(s.nodes, s.interrupts, false) && n in s.nodes && s.nodes[n].status == Blocked
    requires PendingAgrees(s.runState.pendingInterrupts, s.runState.pendingApprovals, s.interrupts)
    ensures HasOpenInterrupt(s, n)
  {
    var i :| i in s.interrupts && s.interrupts[i].nodeId == Some(n) && s.interrupts[i].status == Open;
    assert i in s.runState.pendingInterrupts;
  }

  /* ---- The measure ---- */

  /** The nodes a loop may still execute: ready, pending, or blocked without an open interrupt. */
  function Unstarted(s: Snapshot): set<NodeId> {
    set n | n in s.nodes &&
      (s.nodes[n].status == Ready || s.nodes[n].status == Pending
       || (s.nodes[n].status == Blocked && !HasOpenInterrupt(s, n)))
  }

  function Measure(s: Snapshot): nat {
    if s.run.status.Terminal() then 0 else 1 + |Unstarted(s)|
  }

  function NotStarted(nodes: map<NodeId, NodeState>): set<NodeId> {
    set n | n in nodes && (nodes[n].status == Ready || nodes[n].status == Pending)
  }

  lemma UnstartedOf(s: Snapshot)
    requires InterruptsHeld(s.nodes, s.interrupts, false)
    requires PendingAgrees(s.runState.pendingInterrupts, s.runState.pendingApprovals, s.interrupts)
    ensures Unstarted(s) == NotStarted(s.nodes)
  {
    forall n | n in s.nodes && s.nodes[n].status == Blocked ensures HasOpenInterrupt(s, n) {
      BlockedIsHeld(s, n);
    }
  }

  lemma MeasureOf(wf: Compiled, v: View)
    requires RunInv(wf, v) && v.snap.run.status != RunCancelled
    ensures Measure(v.snap) == if v.snap.run.status.Terminal() then 0 else 1 + |NotStarted(v.snap.nodes)|
  {
    UnstartedOf(v.snap);
  }

  /** Nothing has moved, or `n` has moved on from ready or pending. */
  ghost predicate Moved(before: map<NodeId, NodeState>, after: map<NodeId, NodeState>, n: NodeId) {
    || after == before
    || (&& OnlyAt(before, after, n)
        && (before[n].status == Ready || before[n].status == Pending)
        && after[n].status != Ready && after[n].status != Pending
        && after[n].attempt == before[n].attempt + 1)
  }

  lemma ExecutedMoves(wf: Compiled, v: View, n: NodeId, r: Stepped)
    requires Untouched(v, r) || Touched(wf, v, n, r)
    requires n in v.snap.nodes && (v.snap.nodes[n].status == Ready || v.snap.nodes[n].status == Pending)
    ensures Moved(v.snap.nodes, r.view.snap.nodes, n)
    ensures r.raised || r.view.snap.run.status == RunFailed || Idle(wf, r.view)
    ensures !r.raised && Idle(wf, r.view) ==> r.view.snap.nodes != v.snap.nodes
  {
    hide RunInv;
  }

  /** A started node leaves the measure. */
  lemma MoveLowers(before: map<NodeId, NodeState>, after: map<NodeId, NodeState>, n: NodeId)
    requires Moved(before, after, n)
    ensures after != before ==> n in NotStarted(before) && NotStarted(after) == NotStarted(before) - {n}
    ensures |NotStarted(after)| == |NotStarted(before)| - (if after == before then 0 else 1)
  {
    if after != before {
      assert NotStarted(after) == NotStarted(before) - {n};
    }
  }

  /* ---- A batch ---- */

  function RunBatch(env: Env, wf: Compiled, v: View, nodes: seq<NodeId>): Stepped
    decreases |nodes|
  {
    if nodes == [] || v.snap.run.status.Terminal() then Stepped(v, false)
    else if nodes[0] !in v.snap.nodes then Stepped(v, true)
    else
      var r := ExecuteNode(env, wf, v, nodes[0]);
      if r.raised then r else RunBatch(env, wf, r.view, nodes[1..])
  }

  /** The run has ended, or the scheduler may look at it. */
  ghost predicate Decidable(wf: Compiled, v: View) {
    RunInv(wf, v) && (v.snap.run.status.Terminal() || Idle(wf, v))
  }

  lemma OthersMayStart(wf: Compiled, before: Snapshot, after: Snapshot, n: NodeId, m: NodeId)
    requires Moved(before.nodes, after.nodes, n) && MayStart(wf, before, m) && m != n
    ensures MayStart(wf, after, m)
  {
    TrailsSurvive(wf, before.nodes, after.nodes, m);
  }

  /** One execution inside a batch. */
  lemma BatchStep(wf: Compiled, env: Env, v: View, n: NodeId)
    requires Honest(env) && Idle(wf, v) && MayStart(wf, v.snap, n)
    ensures var r := ExecuteNode(env, wf, v, n);
            && RunInv(wf, r.view) && r.view.Run() == v.Run() && r.view.nextId >= v.nextId
            && Moved(v.snap.nodes, r.view.snap.nodes, n)
            && (r.raised || Decidable(wf, r.view))
            && Measure(r.view.snap) <= Measure(v.snap)
            && (r.raised || Measure(r.view.snap) < Measure(v.snap))
            && r.view.snap.run.status != RunCancelled
  {
    ExecuteNodeKeeps(wf, env, v, n);
    var r := ExecuteNode(env, wf, v, n);
    ExecutedMoves(wf, v, n, r);
    StepLowers(wf, v, n, r);
  }

  lemma StepLowers(wf: Compiled, v: View, n: NodeId, r: Stepped)
    requires RunInv(wf, v) && v.snap.run.status == RunRunning && RunInv(wf, r.view)
    requires r.view.snap.run.status == RunRunning || r.view.snap.run.status == RunFailed
    requires Moved(v.snap.nodes, r.view.snap.nodes, n)
    requires r.view.snap.run.status == RunFailed || r.raised || r.view.snap.nodes != v.snap.nodes
    ensures Measure(r.view.snap) <= Measure(v.snap)
    ensures r.raised || Measure(r.view.snap) < Measure(v.snap)
  {
    MeasureOf(wf, v);
    MeasureOf(wf, r.view);
    MoveLowers(v.snap.nodes, r.view.snap.nodes, n);
  }

  ghost predicate AllMayStart(wf: Compiled, s: Snapshot, nodes: seq<NodeId>) {
    Unique(nodes) && forall n | n in nodes :: MayStart(wf, s, n)
  }

  lemma RestMayStart(wf: Compiled, before: Snapshot, after: Snapshot, nodes: seq<NodeId>)
    requires nodes != [] && AllMayStart(wf, before, nodes) && Moved(before.nodes, after.nodes, nodes[0])
    ensures AllMayStart(wf, after, nodes[1..])
  {
    forall m | m in nodes[1..] ensures MayStart(wf, after, m) {
      assert m in nodes && m != nodes[0];
      OthersMayStart(wf, before, after, nodes[0], m);
    }
  }

  /** What a batch or a loop started from `v` may leave behind. */
  ghost predicate Progress(wf: Compiled, v: View, r: Stepped) {
    && RunInv(wf, r.view) && r.view.Run() == v.Run() && r.view.nextId >= v.nextId
    && (r.raised || Decidable(wf, r.view))
    && Measure(r.view.snap) <= Measure(v.snap)
  }

  lemma {:induction false} BatchKeeps(wf: Compiled, env: Env, v: View, nodes: seq<NodeId>)
    requires Honest(env) && Decidable(wf, v)
    requires v.snap.run.status.Terminal() || AllMayStart(wf, v.snap, nodes)
    ensures var r := RunBatch(env, wf, v, nodes);
            && Progress(wf, v, r)
            && (r.raised || nodes == [] || v.snap.run.status.Terminal() || Measure(r.view.snap) < Measure(v.snap))
    decreases |nodes|
  {
    if nodes != [] && !v.snap.run.status.Terminal() {
      assert nodes[0] in nodes;
      BatchStep(wf, env, v, nodes[0]);
      var r := ExecuteNode(env, wf, v, nodes[0]);
      RestMayStart(wf, v.snap, r.view.snap, nodes);
      if !r.raised {
        BatchKeeps(wf, env, r.view, nodes[1..]);
      }
    }
  }

  /* ---- The loop ---- */

  /** Ready nodes the scheduler takes may start, so its dispatch is accepted. */
  lemma DispatchMayStart(wf: Compiled, config: SchedulerConfig, v: View)
    requires WellCompiled(wf) && Idle(wf, v) && Decide(config, v.snap, wf).Dispatch?
    ensures AllMayStart(wf, v.snap, Decide(config, v.snap, wf).nodes) && Decide(config, v.snap, wf).nodes != []
  {
    DispatchTakesReady(config, v.snap, wf);
    forall n | n in Decide(config, v.snap, wf).nodes ensures MayStart(wf, v.snap, n) {
      ReadyMayStart(wf, v.snap, n);
    }
  }

  lemma SameNodesMayStart(wf: Compiled, s: Snapshot, t: Snapshot, nodes: seq<NodeId>)
    requires AllMayStart(wf, s, nodes) && t.nodes == s.nodes
    ensures AllMayStart(wf, t, nodes)
  {
  }

  /** The frontier is stored and the batch executed. */
  function DispatchBatch(env: Env, wf: Compiled, v: View, nodes: seq<NodeId>): Stepped {
    var d := Dispatched(v, nodes);
    if d.raised then d else RunBatch(env, wf, d.view, nodes)
  }

  lemma DispatchBatchKeeps(wf: Compiled, env: Env, config: SchedulerConfig, v: View)
    requires WellCompiled(wf) && Honest(env) && Idle(wf, v) && Decide(config, v.snap, wf).Dispatch?
    ensures var r := DispatchBatch(env, wf, v, Decide(config, v.snap, wf).nodes);
            Progress(wf, v, r) && (r.raised || Measure(r.view.snap) < Measure(v.snap))
  {
    hide Honest, WellCompiled, RunInv, Dispatched, RunBatch, Decide, MayStart;
    var nodes := Decide(config, v.snap, wf).nodes;
    DispatchMayStart(wf, config, v);
    DispatchKeeps(wf, v, nodes);
    var d := Dispatched(v, nodes).view;
    SameNodesMayStart(wf, v.snap, d.snap, nodes);
    BatchKeeps(wf, env, d, nodes);
    SameMeasure(wf, v, d);
  }

  lemma SameMeasure(wf: Compiled, v: View, d: View)
    requires RunInv(wf, v) && RunInv(wf, d) && d.snap.nodes == v.snap.nodes
    requires d.snap.run.status == v.snap.run.status != RunCancelled
    ensures Measure(d.snap) == Measure(v.snap)
  {
    MeasureOf(wf, v);
    MeasureOf(wf, d);
  }

  /** What the scheduler's other decisions do to the run. */
  function Stop(env: Env, v: View, d: Decision): Stepped
    requires !d.Dispatch?
  {
    match d
    case Complete => MarkCompleted(env, v)
    case Interrupt => MarkInterrupted(env, v)
    case Wait(_) => MarkWaiting(env, v)
    case Fail => MarkFailed(env, v, v.snap, NoProgress)
  }

  lemma StopKeeps(wf: Compiled, env: Env, v: View, d: Decision)
    requires Idle(wf, v) && !d.Dispatch?
    ensures var r := Stop(env, v, d);
            && !r.raised && RunInv(wf, r.view) && r.view.Run() == v.Run() && r.view.nextId >= v.nextId
            && r.view.snap.nodes == v.snap.nodes && r.view.snap.interrupts == v.snap.interrupts
            && r.view.snap.run.status == StatusAfter(d) && StatusAfter(d) != RunRunning
  {
    match d
    case Complete => EndKeeps(wf, env, v, v.snap, RunCompleted, None, RunDone);
    case Interrupt => PauseKeeps(wf, env, v, RunInterrupted, RunHalted);
    case Wait(_) => PauseKeeps(wf, env, v, RunWaiting, RunIdle);
    case Fail => EndKeeps(wf, env, v, v.snap, RunFailed, Some(Some(NoProgress)), RunFailure(NoProgress));
  }

  function StatusAfter(d: Decision): RunStatus {
    match d
    case Dispatch(_) => RunRunning
    case Complete => RunCompleted
    case Interrupt => RunInterrupted
    case Wait(_) => RunWaiting
    case Fail => RunFailed
  }

  /** The loop from a stored run on: either it has ended, or it is idle and the scheduler decides. It
      returns because every batch lowers the measure. */
  function Loop(env: Env, config: SchedulerConfig, wf: Compiled, v: View): (r: Stepped)
    requires WellCompiled(wf) && Honest(env) && Decidable(wf, v)
    ensures RunInv(wf, r.view) && r.view.Run() == v.Run() && r.view.nextId >= v.nextId
    ensures !r.raised ==> r.view.snap.run.status != RunRunning
    decreases Measure(v.snap)
  {
    if v.snap.run.status.Terminal() then Stepped(v, false)
    else
      var d := Decide(config, v.snap, wf);
      if d.Dispatch? then
        DispatchBatchKeeps(wf, env, config, v);
        var b := DispatchBatch(env, wf, v, d.nodes);
        if b.raised then b else Loop(env, config, wf, b.view)
      else
        StopKeeps(wf, env, v, d);
        Stop(env, v, d)
  }
}
