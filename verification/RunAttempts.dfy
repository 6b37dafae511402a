/** How often nodes start: the attempt counter counts the start events of the log, a scheduler loop
    starts each startable node at most once, and only resolved interrupts allow another start. */
module RunAttempts {
  import opened Common
  import opened Lists
  import opened Models
  import opened Workflow
  import opened Compiler
  import opened Reducer
  import opened ReducerFacts
  import opened Scheduler
  import opened Events
  import opened RunMachine
  import opened RunInvariant
  import opened RunOps
  import opened RunResume
  import opened RunLifecycle
  import opened RunSteps
  import opened RunLoop
  import opened RunHistory

  /* ---- Start events ---- */

  /** How often `n` starts in a list of events. */
  function Starts(kinds: seq<EventKind>, n: NodeId): nat {
    if kinds == [] then 0 else (if kinds[0] == NodeStarted(n) then 1 else 0) + Starts(kinds[1..], n)
  }

  lemma {:induction false} StartsAppend(a: seq<EventKind>, b: seq<EventKind>, n: NodeId)
    ensures Starts(a + b, n) == Starts(a, n) + Starts(b, n)
    decreases |a|
  {
    if a == [] {
      assert a + b == b;
    } else {
      assert (a + b)[1..] == a[1..] + b;
      StartsAppend(a[1..], b, n);
    }
  }

  lemma {:induction false} NoStarts(kinds: seq<EventKind>, n: NodeId)
    requires NodeStarted(n) !in kinds
    ensures Starts(kinds, n) == 0
  {
    if kinds != [] {
      NoStarts(kinds[1..], n);
    }
  }

  /** The counters moved as much as the log tells. */
  ghost predicate Counted(v: View, w: View) {
    && w.snap.nodes.Keys == v.snap.nodes.Keys
    && forall n | n in v.snap.nodes ::
         w.snap.nodes[n].attempt + Starts(Kinds(v.log), n) == v.snap.nodes[n].attempt + Starts(Kinds(w.log), n)
  }

  /** Events added to the log of `v`, with no start among them. */
  ghost predicate Quiet(v: View, w: View) {
    && v.log <= w.log
    && forall k :: |v.log| <= k < |w.log| ==> !w.log[k].kind.NodeStarted?
  }

  ghost predicate SameAttempts(before: map<NodeId, NodeState>, after: map<NodeId, NodeState>) {
    after.Keys == before.Keys && forall n | n in before :: after[n].attempt == before[n].attempt
  }

  lemma QuietCounts(v: View, w: View)
    requires Quiet(v, w) && SameAttempts(v.snap.nodes, w.snap.nodes)
    ensures Counted(v, w)
  {
    var added := Kinds(w.log)[|v.log|..];
    assert Kinds(w.log) == Kinds(v.log) + added;
    forall n | n in v.snap.nodes ensures Starts(Kinds(w.log), n) == Starts(Kinds(v.log), n) {
      StartsAppend(Kinds(v.log), added, n);
      NoStarts(added, n);
    }
  }

  lemma QuietTransitive(a: View, b: View, c: View)
    requires Quiet(a, b) && Quiet(b, c)
    ensures Quiet(a, c)
  {
    forall k | |a.log| <= k < |c.log| ensures !c.log[k].kind.NodeStarted? {
      if k < |b.log| {
        assert c.log[k] == b.log[k];
      }
    }
  }

  lemma CommitQuiet(env: Env, v: View, base: Snapshot, p: StatePatch, kinds: seq<EventKind>)
    requires forall k | k in kinds :: !k.NodeStarted?
    ensures Quiet(v, Commit(env, v, base, p, kinds).view)
  {
  }

  /* ---- Steps ---- */

  lemma StartCounts(wf: Compiled, env: Env, v: View, n: NodeId)
    requires Idle(wf, v) && MayStart(wf, v.snap, n)
    ensures Counted(v, StartNode(env, v, n).view)
  {
    hide RunInv, StartNode, HasTrail;
    StartNodeKeeps(wf, env, v, n);
    var w := StartNode(env, v, n).view;
    StartLogs(env, v, n);
    forall m | m in v.snap.nodes
      ensures w.snap.nodes[m].attempt + Starts(Kinds(v.log), m) == v.snap.nodes[m].attempt + Starts(Kinds(w.log), m)
    {
      StartsAppend(Kinds(v.log), [NodeStarted(n)], m);
      assert [NodeStarted(n)][1..] == [];
      assert Starts([NodeStarted(n)], m) == (if m == n then 1 else 0) + Starts([], m);
    }
  }

  lemma StartLogs(env: Env, v: View, n: NodeId)
    requires n in v.snap.nodes && !StartNode(env, v, n).raised
    ensures Kinds(StartNode(env, v, n).view.log) == Kinds(v.log) + [NodeStarted(n)]
  {
  }

  lemma DuringQuiet(v: View, o: Outcome)
    ensures Quiet(v, DuringExecution(v, o)) && DuringExecution(v, o).snap == v.snap
  {
  }

  lemma FinishQuiet(env: Env, wf: Compiled, v: View, n: NodeId, r: NodeResult)
    ensures Quiet(v, FinishNode(env, wf, v, n, r).view)
  {
    var p := ResultPatch(v.snap, wf, n, r, v.nextId);
    var kinds := [NodeReported(n, r.status)] + CreatedKinds(r.interrupts);
    CommitQuiet(env, v.(nextId := AfterArtifact(v.snap, wf, n, r, v.nextId)), v.snap, p, kinds);
    var u := SettleNode(env, wf, v, n, r);
    if !u.raised && r.status == Failed {
      var code := NodeFailure(r.error);
      CommitQuiet(env, u.view, Apply(v.snap, p).value, EndPatch(RunFailed, Some(Some(code))), [RunFailure(code)]);
      QuietTransitive(v, u.view, FinishNode(env, wf, v, n, r).view);
    }
  }

  lemma StartedRunCounts(wf: Compiled, env: Env, v: View, n: NodeId, o: Outcome)
    requires Honest(env) && Idle(wf, v) && MayStart(wf, v.snap, n)
    requires var u := StartNode(env, v, n).view; o == env.execute(u.snap, n, u.nextId)
    ensures var w := DuringExecution(StartNode(env, v, n).view, o);
            && Counted(StartNode(env, v, n).view, w)
            && (o.result.Some? ==> Counted(w, FinishNode(env, wf, w, n, o.result.value).view))
  {
    hide FinishNode, StartNode;
    StartNodeKeeps(wf, env, v, n);
    var u := StartNode(env, v, n).view;
    DuringQuiet(u, o);
    var w := DuringExecution(u, o);
    QuietCounts(u, w);
    if o.result.Some? {
      DuringExecutionKeeps(wf, u, o);
      HonestLonger(w.snap, n, o.result.value, u.nextId, o.nextId, w.nextId);
      FinishNodeKeeps(wf, env, w, n, o.result.value, u.nextId);
      FinishQuiet(env, wf, w, n, o.result.value);
      QuietCounts(w, FinishNode(env, wf, w, n, o.result.value).view);
    }
  }

  lemma CountingIsTransitive()
    ensures forall v :: Counted(v, v)
    ensures forall a, b, c :: Counted(a, b) && Counted(b, c) ==> Counted(a, c)
  {
  }

  lemma ExecuteCounts(wf: Compiled, env: Env, v: View, n: NodeId)
    requires Honest(env) && Idle(wf, v) && MayStart(wf, v.snap, n)
    ensures Counted(v, ExecuteNode(env, wf, v, n).view)
  {
    hide FinishNode, StartNode, DuringExecution, RunInv, ExecuteNode, Commit, Counted;
    var p := EndPatch(RunFailed, Some(Some(ExecutorNotAvailable)));
    EndCounts(wf, env, v, RunFailed, Some(Some(ExecutorNotAvailable)), RunFailure(ExecutorNotAvailable));
    StartCounts(wf, env, v, n);
    var u := StartNode(env, v, n).view;
    StartedRunCounts(wf, env, v, n, env.execute(u.snap, n, u.nextId));
    CountingIsTransitive();
    ExecuteRelates(env, wf, v, n, (v: View, w: View) => Counted(v, w));
  }

  lemma EndCounts(wf: Compiled, env: Env, v: View, status: RunStatus, failure: Option<Option<FailureCode>>, kind: EventKind)
    requires Idle(wf, v)
    requires status == RunFailed || (status == RunCompleted && NoneFailed(v.snap.nodes))
    requires if status == RunFailed then kind.RunFailure? else kind == RunDone
    ensures Counted(v, Commit(env, v, v.snap, EndPatch(status, failure), [kind]).view)
  {
    hide Commit, RunInv;
    var w := Commit(env, v, v.snap, EndPatch(status, failure), [kind]).view;
    EndMoves(wf, env, v, status, failure, kind);
    CommitQuiet(env, v, v.snap, EndPatch(status, failure), [kind]);
    QuietCounts(v, w);
  }

  lemma EndMoves(wf: Compiled, env: Env, v: View, status: RunStatus, failure: Option<Option<FailureCode>>, kind: EventKind)
    requires Idle(wf, v)
    requires status == RunFailed || (status == RunCompleted && NoneFailed(v.snap.nodes))
    requires if status == RunFailed then kind.RunFailure? else kind == RunDone
    ensures Commit(env, v, v.snap, EndPatch(status, failure), [kind]).view.snap.nodes == v.snap.nodes
  {
    EndKeeps(wf, env, v, v.snap, status, failure, kind);
  }

  lemma StopCounts(wf: Compiled, env: Env, v: View, d: Decision)
    requires Idle(wf, v) && !d.Dispatch?
    ensures Counted(v, Stop(env, v, d).view)
  {
    StopKeeps(wf, env, v, d);
    StopQuiet(env, v, d);
    QuietCounts(v, Stop(env, v, d).view);
  }

  lemma StopQuiet(env: Env, v: View, d: Decision)
    requires !d.Dispatch?
    ensures Quiet(v, Stop(env, v, d).view)
  {
    match d
    case Complete => CommitQuiet(env, v, v.snap, EndPatch(RunCompleted, None), [RunDone]);
    case Interrupt => CommitQuiet(env, v, v.snap, PausePatch(RunInterrupted), [RunHalted]);
    case Wait(_) => CommitQuiet(env, v, v.snap, PausePatch(RunWaiting), [RunIdle]);
    case Fail => CommitQuiet(env, v, v.snap, EndPatch(RunFailed, Some(Some(NoProgress))), [RunFailure(NoProgress)]);
  }

  lemma DispatchCounts(wf: Compiled, v: View, nodes: seq<NodeId>)
    requires Idle(wf, v) && AllMayStart(wf, v.snap, nodes)
    ensures Counted(v, Dispatched(v, nodes).view)
  {
    DispatchKeeps(wf, v, nodes);
    QuietCounts(v, Dispatched(v, nodes).view);
  }

  lemma ResumeMoves(wf: Compiled, env: Env, v: View, ids: seq<Id>)
    requires RunInv(wf, v) && MayResume(v) && (ids == [] || ids == v.snap.runState.pendingInterrupts)
    ensures SameAttempts(v.snap.nodes, Commit(env, v, v.snap, ResumePatch(v.snap, ids), ResumeKinds(ids)).view.snap.nodes)
  {
    ResumeKeeps(wf, v.snap, ids);
    CommitStamps(env, v, v.snap, ResumePatch(v.snap, ids), ResumeKinds(ids));
  }

  lemma ResumeCounts(wf: Compiled, env: Env, v: View, withPayload: bool)
    requires RunInv(wf, v) && MayResume(v)
    ensures Counted(v, Resume(env, v, withPayload).view)
  {
    hide RunInv, Commit;
    var ids := if withPayload then v.snap.runState.pendingInterrupts else [];
    ResumeMoves(wf, env, v, ids);
    CommitQuiet(env, v, v.snap, ResumePatch(v.snap, ids), ResumeKinds(ids));
    QuietCounts(v, Resume(env, v, withPayload).view);
  }

  lemma CancelMoves(wf: Compiled, env: Env, v: View)
    requires RunInv(wf, v) && !v.snap.run.status.Terminal()
    ensures SameAttempts(v.snap.nodes, Commit(env, v, v.snap, CancelPatch(v.snap), [RunAborted]).view.snap.nodes)
  {
    hide RunCore, SnapshotOk, Abs;
    CancelKeeps(wf, v.snap);
    CommitStamps(env, v, v.snap, CancelPatch(v.snap), [RunAborted]);
  }

  lemma CancelCounts(wf: Compiled, env: Env, v: View)
    requires RunInv(wf, v) && !v.snap.run.status.Terminal()
    ensures Counted(v, Cancel(env, v).view)
  {
    hide Commit, RunInv;
    CancelMoves(wf, env, v);
    CommitQuiet(env, v, v.snap, CancelPatch(v.snap), [RunAborted]);
    QuietCounts(v, Cancel(env, v).view);
  }

  lemma StepsCount(env: Env, config: SchedulerConfig, wf: Compiled)
    requires Honest(env)
    ensures StepsRelate(env, config, wf, (v: View, w: View) => Counted(v, w))
  {
    hide RunInv, ExecuteNode, Dispatched, Stop, Resume, Cancel;
    forall v, n | Idle(wf, v) && MayStart(wf, v.snap, n) ensures Counted(v, ExecuteNode(env, wf, v, n).view) {
      ExecuteCounts(wf, env, v, n);
    }
    forall v, nodes | Idle(wf, v) && AllMayStart(wf, v.snap, nodes) ensures Counted(v, Dispatched(v, nodes).view) {
      DispatchCounts(wf, v, nodes);
    }
    forall v, d: Decision | Idle(wf, v) && !d.Dispatch? ensures Counted(v, Stop(env, v, d).view) {
      StopCounts(wf, env, v, d);
    }
    forall v, p | RunInv(wf, v) && MayResume(v) ensures Counted(v, Resume(env, v, p).view) {
      ResumeCounts(wf, env, v, p);
    }
    forall v | RunInv(wf, v) && !v.snap.run.status.Terminal() ensures Counted(v, Cancel(env, v).view) {
      CancelCounts(wf, env, v);
    }
    forall v, w | Elsewhere(v, w) ensures Counted(v, w) {
    }
  }

  /* ---- Histories ---- */

  ghost predicate CountedSoFar(v: View) {
    forall n | n in v.snap.nodes :: v.snap.nodes[n].attempt == Starts(Kinds(v.log), n)
  }

  lemma BeginCounts(wf: Compiled, env: Env, thread: ThreadRecord, threadState: ThreadState, nextId: nat)
    requires WellCompiled(wf)
    ensures CountedSoFar(Begin(env, thread, threadState, wf, nextId).view)
  {
    hide WellCompiled;
    var empty := EmptySnapshot(thread, threadState, Id(nextId), wf);
    BeginApplies(thread, threadState, Id(nextId), wf);
    var v := View(empty, [], [], nextId + 1);
    CommitStamps(env, v, empty, InitialPatch(Id(nextId), wf), InitialKinds(wf));
    CommitQuiet(env, v, empty, InitialPatch(Id(nextId), wf), InitialKinds(wf));
    var w := Begin(env, thread, threadState, wf, nextId).view;
    forall n | n in w.snap.nodes ensures w.snap.nodes[n].attempt == Starts(Kinds(w.log), n) {
      NoStarts(Kinds(w.log), n);
    }
  }

  lemma CountedOn(v: View, w: View)
    requires CountedSoFar(v) && Counted(v, w)
    ensures CountedSoFar(w)
  {
  }

  /** In every history the attempt counter of a node is the number of its start events, and that number
      exceeds its resolved interrupts by at most one: only resuming lets a node start again. */
  lemma AttemptsAreStarts(env: Env, config: SchedulerConfig, wf: Compiled, thread: ThreadRecord,
                          threadState: ThreadState, nextId: nat, commands: seq<Command>)
    requires WellCompiled(wf) && Honest(env)
    requires thread.threadId == threadState.threadId && Unique(threadState.artifactIds)
    ensures var v := History(env, config, wf, thread, threadState, nextId, commands);
            forall n | n in wf.specs ::
              && n in v.snap.nodes && v.snap.nodes[n].attempt == Starts(Kinds(v.log), n)
              && Starts(Kinds(v.log), n) <= 1 + |ResolvedFor(v.snap.interrupts, n)|
  {
    hide WellCompiled, Begin, Loop, Drive, SnapshotOk, HistoryOk;
    BeginKeeps(wf, env, thread, threadState, nextId);
    BeginCounts(wf, env, thread, threadState, nextId);
    StepsCount(env, config, wf);
    var b := Begin(env, thread, threadState, wf, nextId).view;
    LoopRelates(env, config, wf, b, (v: View, w: View) => Counted(v, w));
    var l := Loop(env, config, wf, b).view;
    CountedOn(b, l);
    DriveRelates(env, config, wf, l, commands, (v: View, w: View) => Counted(v, w));
    CountedOn(l, Drive(env, config, wf, l, commands));
    var v := History(env, config, wf, thread, threadState, nextId, commands);
    BoundedSoFar(wf, v);
  }

  lemma BoundedSoFar(wf: Compiled, v: View)
    requires RunInv(wf, v)
    ensures v.snap.nodes.Keys == wf.specs.Keys
    ensures forall n | n in v.snap.nodes :: v.snap.nodes[n].attempt <= 1 + |ResolvedFor(v.snap.interrupts, n)|
  {
    hide SnapshotOk, HistoryOk, Trails;
  }

  /* ---- One loop ---- */

  predicate MayYetStart(nodes: map<NodeId, NodeState>, n: NodeId) {
    n in nodes && (nodes[n].status == Ready || nodes[n].status == Pending)
  }

  /** Every node either kept its counter or started once, and a node that started cannot start again. */
  ghost predicate AtMostOnce(v: View, w: View) {
    && w.snap.nodes.Keys == v.snap.nodes.Keys
    && forall n | n in v.snap.nodes ::
         || (w.snap.nodes[n].attempt == v.snap.nodes[n].attempt
             && (MayYetStart(w.snap.nodes, n) ==> MayYetStart(v.snap.nodes, n)))
         || (w.snap.nodes[n].attempt == v.snap.nodes[n].attempt + 1
             && MayYetStart(v.snap.nodes, n) && !MayYetStart(w.snap.nodes, n))
  }

  lemma LoopStepsOnce(env: Env, config: SchedulerConfig, wf: Compiled)
    requires Honest(env)
    ensures LoopStepsRelate(env, config, wf, (v: View, w: View) => AtMostOnce(v, w))
  {
    hide RunInv, ExecuteNode, Dispatched, Stop, Honest, HasTrail, Unstarted;
    forall v, n | Idle(wf, v) && MayStart(wf, v.snap, n) ensures AtMostOnce(v, ExecuteNode(env, wf, v, n).view) {
      BatchStep(wf, env, v, n);
    }
    forall v, nodes | Idle(wf, v) && AllMayStart(wf, v.snap, nodes) ensures AtMostOnce(v, Dispatched(v, nodes).view) {
      DispatchKeeps(wf, v, nodes);
    }
    forall v, d: Decision | Idle(wf, v) && !d.Dispatch? ensures AtMostOnce(v, Stop(env, v, d).view) {
      StopKeeps(wf, env, v, d);
    }
  }

  /** One loop, even over a cyclic workflow, starts only nodes that were ready or pending when it
      began, each at most once: no more executions than nodes. */
  lemma LoopStartsEachNodeOnce(env: Env, config: SchedulerConfig, wf: Compiled, v: View)
    requires WellCompiled(wf) && Honest(env) && Decidable(wf, v)
    ensures var w := Loop(env, config, wf, v).view;
            forall n | n in v.snap.nodes ::
              && Starts(Kinds(w.log), n) <= Starts(Kinds(v.log), n) + 1
              && (Starts(Kinds(w.log), n) > Starts(Kinds(v.log), n) ==> MayYetStart(v.snap.nodes, n))
  {
    hide WellCompiled, RunInv, Loop;
    LoopStepsOnce(env, config, wf);
    LoopRelates(env, config, wf, v, (v: View, w: View) => AtMostOnce(v, w));
    StepsCount(env, config, wf);
    LoopRelates(env, config, wf, v, (v: View, w: View) => Counted(v, w));
  }
}
