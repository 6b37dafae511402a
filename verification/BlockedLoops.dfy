/** What the contract of executors keeps out of the loop: a node that blocks without opening an interrupt.
    If nothing else is ready, the loop dispatches it for ever exactly when its dependencies are met. */
module BlockedLoops {
  import opened Common
  import opened Lists
  import opened Models
  import opened Workflow
  import opened Compiler
  import opened Reducer
  import opened ReducerFacts
  import opened Selector
  import opened Scheduler
  import opened Events
  import opened RunMachine
  import opened RunInvariant
  import opened RunOps
  import opened RunSteps
  import opened RunLoop
  import opened RunLifecycle
  import opened RunHistory
  import opened RunStops

  /* ---- An executor that breaks the contract ---- */

  const BLOCKED := NodeResult(Blocked, None, None, [], [], [], None)

  ghost predicate Blocks(env: Env, n: NodeId) {
    && (forall s :: env.canExecute(s, n) && env.selectsInput(s, n))
    && (forall s, k: nat :: env.execute(s, n, k).result == Some(BLOCKED))
  }

  lemma SomeExecutorBlocks(n: NodeId)
    ensures exists env :: Blocks(env, n)
  {
    var env := Env((s, m) => true, (s, m) => true, (s, m, k: nat) => Outcome(Some(BLOCKED), 0, k), k => 0);
    assert Blocks(env, n);
  }

  /** The first `k` rounds of the scheduler's loop, or fewer if it stops before. */
  function Rounds(env: Env, config: SchedulerConfig, wf: Compiled, v: View, k: nat): Stepped {
    if k == 0 then Stepped(v, false)
    else
      var r := Rounds(env, config, wf, v, k - 1);
      if r.raised || !Decide(config, r.view.snap, wf).Dispatch? then r
      else DispatchBatch(env, wf, r.view, Decide(config, r.view.snap, wf).nodes)
  }

  /** The loop is still dispatching after any number of rounds. */
  ghost predicate NeverStops(env: Env, config: SchedulerConfig, wf: Compiled, v: View) {
    forall k: nat :: var r := Rounds(env, config, wf, v, k); !r.raised && Decide(config, r.view.snap, wf).Dispatch?
  }

  /* ---- One round ---- */

  /** No other node is ready, and `n` has not finished. */
  ghost predicate Poised(wf: Compiled, s: Snapshot, n: NodeId) {
    && SnapshotOk(s) && s.run.status == RunRunning && s.runState.status == RunRunning && s.runState.active == []
    && n in s.nodes && n in wf.specs && n !in s.runState.completed
    && (s.nodes[n].status == Ready || s.nodes[n].status == Pending || s.nodes[n].status == Blocked)
    && !HasOpenInterrupt(s, n)
    && forall m :: IsReady(s, wf, m) ==> m == n
  }

  /** Only the node's status and counters, the lists and the stamps differ. */
  ghost predicate Beside(s: Snapshot, t: Snapshot, n: NodeId) {
    && t == s.(thread := t.thread, runState := t.runState, nodes := t.nodes)
    && t.runState.pendingInterrupts == s.runState.pendingInterrupts && t.runState.status == s.runState.status
    && n in s.nodes && n in t.nodes && t.nodes == s.nodes[n := t.nodes[n]]
    && t.nodes[n].output == s.nodes[n].output && t.nodes[n].decisionIds == s.nodes[n].decisionIds
  }

  lemma BesideTransitive(a: Snapshot, b: Snapshot, c: Snapshot, n: NodeId)
    requires Beside(a, b, n) && Beside(b, c, n)
    ensures Beside(a, c, n)
  {
    assert c.nodes == a.nodes[n := c.nodes[n]];
  }

  /** A commit's stamps add nothing. */
  lemma StampBeside(s: Snapshot, t: Snapshot, u: Snapshot, n: NodeId)
    requires Beside(s, t, n) && Stamped(t, u) && SnapshotOk(t)
    ensures Beside(s, u, n) && SnapshotOk(u)
  {
  }

  lemma DispatchOf(s: Snapshot, n: NodeId)
    requires SnapshotOk(s) && s.runState.status == RunRunning && n in s.nodes && n !in s.runState.completed
    ensures var t := Plain(s, FrontierPatch([n]));
            && Apply(s, FrontierPatch([n])) == Ok(t) && SnapshotOk(t) && Beside(s, t, n)
            && t.runState == s.runState.(frontier := [n], version := s.runState.version + 1) && t.nodes == s.nodes
  {
    hide Owned, PendingAgrees, DecisionsLinked, SideEffectsLinked, InterruptsValid, ArtifactsListed;
    PatchedByNothing(s.nodes);
    ApplyPlain(s, FrontierPatch([n]));
    ApplyKeepsSnapshotOk(s, FrontierPatch([n]));
  }

  lemma StartOf(s: Snapshot, n: NodeId)
    requires SnapshotOk(s) && n in s.nodes && s.runState.active == [] && s.runState.status == RunRunning
    ensures var t := Plain(s, StartPatch(s, n));
            && Apply(s, StartPatch(s, n)) == Ok(t) && SnapshotOk(t) && Beside(s, t, n)
            && t.runState.active == [n] && t.runState.completed == s.runState.completed
            && t.nodes[n].attempt == s.nodes[n].attempt + 1
  {
    hide Owned, PendingAgrees, DecisionsLinked, SideEffectsLinked, InterruptsValid, ArtifactsListed;
    DedupeOfUnique([n]);
    ApplyPlain(s, StartPatch(s, n));
    ApplyKeepsSnapshotOk(s, StartPatch(s, n));
    StartEffect(s, n);
  }

  lemma RelistOf(xs: seq<NodeId>, n: NodeId, add: bool)
    requires Unique(xs)
    ensures Unique(Relist(xs, n, add)) && forall m :: m in Relist(xs, n, add) <==> (m in xs && m != n) || (m == n && add)
  {
    RelistRelists(xs, n, add);
  }

  lemma BlockedListsValid(wf: Compiled, s: Snapshot, n: NodeId, k: nat)
    requires s.runState.Valid() && s.runState.status == RunRunning && s.runState.active == [n]
    ensures var a := AmendRunState(s.runState, ResultPatch(s, wf, n, BLOCKED, k).runState);
            a.Valid() && n !in a.completed && a.active == []
  {
    hide Relist;
    var r := s.runState;
    RelistOf(r.completed, n, false);
    RelistOf(r.failed, n, false);
    RelistOf(r.waiting, n, false);
    RelistOf(r.blocked, n, true);
    assert Without([n], {n}) == [];
  }

  lemma BlockOf(wf: Compiled, s: Snapshot, n: NodeId, k: nat)
    requires SnapshotOk(s) && n in s.nodes && s.runState.active == [n] && s.runState.status == RunRunning
    ensures var p := ResultPatch(s, wf, n, BLOCKED, k);
            var t := Plain(s, p);
            && Apply(s, p) == Ok(t) && SnapshotOk(t) && Beside(s, t, n)
            && t.runState.active == [] && n !in t.runState.completed
            && t.nodes[n].status == Blocked && t.nodes[n].attempt == s.nodes[n].attempt
  {
    hide Relist, Owned, PendingAgrees, DecisionsLinked, SideEffectsLinked, InterruptsValid, ArtifactsListed;
    var p := ResultPatch(s, wf, n, BLOCKED, k);
    BlockedListsValid(wf, s, n, k);
    ApplyPlain(s, p);
    ApplyKeepsSnapshotOk(s, p);
  }

  /** One execution by an executor that blocks. */
  lemma ExecuteBlocks(env: Env, wf: Compiled, v: View, n: NodeId)
    requires SnapshotOk(v.snap) && n in v.snap.nodes && v.snap.runState.active == []
    requires v.snap.runState.status == RunRunning && Blocks(env, n)
    ensures var r := ExecuteNode(env, wf, v, n);
            var t := r.view.snap;
            && !r.raised && SnapshotOk(t) && Beside(v.snap, t, n)
            && t.runState.active == [] && n !in t.runState.completed
            && t.nodes[n].status == Blocked && t.nodes[n].attempt == v.snap.nodes[n].attempt + 1
  {
    hide SnapshotOk, Plain, Apply, StartPatch, ResultPatch, Commit, DuringExecution;
    StartOf(v.snap, n);
    CommitStamps(env, v, v.snap, StartPatch(v.snap, n), [NodeStarted(n)]);
    CommitOk(env, v, v.snap, StartPatch(v.snap, n), [NodeStarted(n)]);
    var u := StartNode(env, v, n).view;
    StampBeside(v.snap, Plain(v.snap, StartPatch(v.snap, n)), u.snap, n);
    var o := env.execute(u.snap, n, u.nextId);
    var w := DuringExecution(u, o);
    DuringIsQuiet(u, o);
    BlockOf(wf, w.snap, n, w.nextId);
    var p := ResultPatch(w.snap, wf, n, BLOCKED, w.nextId);
    var kinds := [NodeReported(n, Blocked)] + CreatedKinds([]);
    var w' := w.(nextId := AfterArtifact(w.snap, wf, n, BLOCKED, w.nextId));
    CommitStamps(env, w', w.snap, p, kinds);
    CommitOk(env, w', w.snap, p, kinds);
    var x := SettleNode(env, wf, w, n, BLOCKED).view;
    StampBeside(w.snap, Plain(w.snap, p), x.snap, n);
    BesideTransitive(v.snap, w.snap, x.snap, n);
  }

  lemma DuringIsQuiet(v: View, o: Outcome)
    ensures DuringExecution(v, o).snap == v.snap
  {
  }

  /* ---- A node that has not finished looks the same to its dependents ---- */

  ghost predicate Alike(a: NodeState, b: NodeState) {
    && a.output == b.output && a.decisionIds == b.decisionIds
    && (a.status == Succeeded <==> b.status == Succeeded) && (a.status.Terminal() <==> b.status.Terminal())
  }

  ghost predicate AllAlike(a: seq<NodeState>, b: seq<NodeState>) {
    |a| == |b| && forall i :: 0 <= i < |a| ==> Alike(a[i], b[i])
  }

  ghost predicate NodesAlike(s: Snapshot, t: Snapshot) {
    && t.nodes.Keys == s.nodes.Keys && t.artifacts == s.artifacts && t.decisions == s.decisions
    && forall n | n in s.nodes :: Alike(s.nodes[n], t.nodes[n])
  }

  lemma {:induction false} AlikeUpstream(s: Snapshot, t: Snapshot, edges: seq<EdgeSpec>)
    requires NodesAlike(s, t)
    ensures Upstream(s, edges).Some? <==> Upstream(t, edges).Some?
    ensures Upstream(s, edges).Some? ==> AllAlike(Upstream(s, edges).value, Upstream(t, edges).value)
  {
    if edges != [] && edges[0].source in s.nodes {
      AlikeUpstream(s, t, edges[1..]);
      AlikeEdge(s, t, edges[0].source, edges[0].condition);
    }
  }

  lemma AlikeEdge(s: Snapshot, t: Snapshot, n: NodeId, condition: Option<EdgeCondition>)
    requires NodesAlike(s, t) && n in s.nodes
    ensures EdgeSatisfied(t, t.nodes[n], condition) == EdgeSatisfied(s, s.nodes[n], condition)
  {
    assert Alike(s.nodes[n], t.nodes[n]);
  }

  lemma {:induction false} AlikeSuccesses(a: seq<NodeState>, b: seq<NodeState>)
    requires AllAlike(a, b)
    ensures Successes(a) == Successes(b)
  {
    if a != [] {
      AlikeSuccesses(a[1..], b[1..]);
    }
  }

  lemma AlikeJoin(join: Option<JoinPolicy>, a: seq<NodeState>, b: seq<NodeState>)
    requires AllAlike(a, b)
    ensures JoinSatisfied(join, a) ==> JoinSatisfied(join, b)
  {
    AlikeSuccesses(a, b);
    if join == Some(AnySuccess) && JoinSatisfied(join, a) {
      var i :| 0 <= i < |a| && a[i].status == Succeeded;
      assert b[i] in b;
    }
  }

  lemma AlikeDependencies(s: Snapshot, t: Snapshot, wf: Compiled, n: NodeId, join: Option<JoinPolicy>)
    requires NodesAlike(s, t)
    ensures DependenciesSatisfied(t, wf, n, join) == DependenciesSatisfied(s, wf, n, join)
  {
    hide JoinSatisfied;
    var edges := if n in wf.incoming then wf.incoming[n] else [];
    AlikeUpstream(s, t, edges);
    if Upstream(s, edges).Some? {
      var a, b := Upstream(s, edges).value, Upstream(t, edges).value;
      AlikeJoin(join, a, b);
      AlikeJoin(join, b, a);
    }
  }

  lemma BesideIsAlike(s: Snapshot, t: Snapshot, n: NodeId)
    requires Beside(s, t, n) && !s.nodes[n].status.Terminal() && !t.nodes[n].status.Terminal()
    ensures NodesAlike(s, t)
  {
  }

  lemma OtherAsReady(wf: Compiled, s: Snapshot, t: Snapshot, n: NodeId, m: NodeId)
    requires Beside(s, t, n) && NodesAlike(s, t)
    ensures m != n && IsReady(t, wf, m) ==> IsReady(s, wf, m)
    ensures HasOpenInterrupt(t, n) == HasOpenInterrupt(s, n)
  {
    hide DependenciesSatisfied;
    if m in wf.specs {
      AlikeDependencies(s, t, wf, m, wf.specs[m].join);
    }
  }

  /** So the round leaves `n` alone in the running, ready again exactly if its dependencies are met. */
  lemma StaysPoised(wf: Compiled, s: Snapshot, t: Snapshot, n: NodeId)
    requires Poised(wf, s, n) && Beside(s, t, n) && SnapshotOk(t)
    requires t.runState.active == [] && n !in t.runState.completed && t.nodes[n].status == Blocked
    ensures Poised(wf, t, n) && NodesAlike(s, t)
    ensures IsReady(t, wf, n) <==> DependenciesSatisfied(t, wf, n, wf.specs[n].join)
    ensures DependenciesSatisfied(t, wf, n, wf.specs[n].join) <==> DependenciesSatisfied(s, wf, n, wf.specs[n].join)
  {
    hide SnapshotOk, DependenciesSatisfied, HasOpenInterrupt;
    BesideIsAlike(s, t, n);
    AlikeDependencies(s, t, wf, n, wf.specs[n].join);
    OtherAsReady(wf, s, t, n, n);
    forall m ensures IsReady(t, wf, m) ==> m == n {
      OtherAsReady(wf, s, t, n, m);
    }
  }

  /* ---- The loop ---- */

  lemma AloneIsDispatched(config: SchedulerConfig, wf: Compiled, s: Snapshot, n: NodeId)
    requires WellCompiled(wf) && Poised(wf, s, n)
    ensures if IsReady(s, wf, n) then Decide(config, s, wf) == Dispatch([n]) else !Decide(config, s, wf).Dispatch?
  {
    hide SnapshotOk, IsReady, Decide;
    StopsOnlyWhenNothingReady(config, s, wf);
    OrderListsSpecs(wf);
    if Decide(config, s, wf).Dispatch? {
      DispatchTakesReady(config, s, wf);
      var nodes := Decide(config, s, wf).nodes;
      forall m | m in nodes ensures m == n {
        assert IsReady(s, wf, m);
      }
      OnlyOne(nodes, n);
    }
  }

  lemma OnlyOne(xs: seq<NodeId>, n: NodeId)
    requires xs != [] && Unique(xs) && forall x | x in xs :: x == n
    ensures xs == [n]
  {
    assert xs[0] in xs && xs[|xs| - 1] in xs;
  }

  lemma OrderListsSpecs(wf: Compiled)
    requires WellCompiled(wf)
    ensures Unique(wf.order) && forall n :: n in wf.order <==> n in wf.specs
  {
  }

  lemma RoundBlocks(env: Env, wf: Compiled, v: View, n: NodeId)
    requires Poised(wf, v.snap, n) && Blocks(env, n)
    ensures var r := DispatchBatch(env, wf, v, [n]);
            var t := r.view.snap;
            && !r.raised && SnapshotOk(t) && Beside(v.snap, t, n)
            && t.runState.active == [] && n !in t.runState.completed
            && t.nodes[n].status == Blocked && t.nodes[n].attempt == v.snap.nodes[n].attempt + 1
  {
    hide SnapshotOk, Apply, Plain, FrontierPatch, ExecuteNode, IsReady, HasOpenInterrupt;
    DispatchOf(v.snap, n);
    var d := Dispatched(v, [n]).view;
    ExecuteBlocks(env, wf, d, n);
    var r := ExecuteNode(env, wf, d, n);
    BesideTransitive(v.snap, d.snap, r.view.snap, n);
    assert [n][1..] == [];
    assert RunBatch(env, wf, r.view, []) == Stepped(r.view, false);
  }

  /** `k` rounds into the loop. */
  lemma {:induction false} RoundsBlock(env: Env, config: SchedulerConfig, wf: Compiled, v: View, n: NodeId, k: nat)
    requires WellCompiled(wf) && Poised(wf, v.snap, n) && IsReady(v.snap, wf, n) && Blocks(env, n)
    ensures var r := Rounds(env, config, wf, v, k);
            && !r.raised && Poised(wf, r.view.snap, n) && (k > 0 ==> r.view.snap.nodes[n].status == Blocked)
            && NodesAlike(v.snap, r.view.snap)
            && (DependenciesSatisfied(v.snap, wf, n, wf.specs[n].join) ==>
                  && Decide(config, r.view.snap, wf) == Dispatch([n])
                  && r.view.snap.nodes[n].attempt == v.snap.nodes[n].attempt + k)
  {
    hide WellCompiled, SnapshotOk, DependenciesSatisfied, Blocks, DispatchBatch, Decide, HasOpenInterrupt;
    AloneIsDispatched(config, wf, v.snap, n);
    if k > 0 {
      RoundsBlock(env, config, wf, v, n, k - 1);
      var u := Rounds(env, config, wf, v, k - 1).view;
      AloneIsDispatched(config, wf, u.snap, n);
      if Decide(config, u.snap, wf).Dispatch? {
        RoundBlocks(env, wf, u, n);
        var w := DispatchBatch(env, wf, u, [n]).view;
        StaysPoised(wf, u.snap, w.snap, n);
        AlikeDependencies(v.snap, w.snap, wf, n, wf.specs[n].join);
        AloneIsDispatched(config, wf, w.snap, n);
      }
    }
  }

  /** With nothing in execution the only ready node poises the run. */
  lemma IdleIsPoised(wf: Compiled, v: View, n: NodeId)
    requires Idle(wf, v) && IsReady(v.snap, wf, n) && forall m :: IsReady(v.snap, wf, m) ==> m == n
    ensures Poised(wf, v.snap, n)
  {
    hide HistoryOk, Trails, AttemptsBounded, Begun, DependenciesSatisfied, DecisionsLinked, SideEffectsLinked;
    var s := v.snap;
    EmptyLists(s);
    ReadyHoldsNothing(wf, s, n);
  }

  lemma ReadyHoldsNothing(wf: Compiled, s: Snapshot, n: NodeId)
    requires InterruptsHeld(s.nodes, s.interrupts, false) && IsReady(s, wf, n)
    requires PendingAgrees(s.runState.pendingInterrupts, s.runState.pendingApprovals, s.interrupts)
    ensures !HasOpenInterrupt(s, n)
  {
  }

  lemma OneRound(env: Env, config: SchedulerConfig, wf: Compiled, v: View, n: NodeId)
    requires WellCompiled(wf) && Poised(wf, v.snap, n) && IsReady(v.snap, wf, n) && Blocks(env, n)
    ensures Decide(config, Rounds(env, config, wf, v, 1).view.snap, wf).Dispatch?
            <==> DependenciesSatisfied(v.snap, wf, n, wf.specs[n].join)
  {
    hide WellCompiled, SnapshotOk, DependenciesSatisfied, Blocks, DispatchBatch, Decide, HasOpenInterrupt, IsReady;
    AloneIsDispatched(config, wf, v.snap, n);
    RoundBlocks(env, wf, v, n);
    var w := DispatchBatch(env, wf, v, [n]).view;
    StaysPoised(wf, v.snap, w.snap, n);
    AloneIsDispatched(config, wf, w.snap, n);
    assert Rounds(env, config, wf, v, 0) == Stepped(v, false);
  }

  /** The k-th round starts the node for the k-th time. */
  ghost predicate StartsEachRound(env: Env, config: SchedulerConfig, wf: Compiled, v: View, n: NodeId)
    requires n in v.snap.nodes
  {
    forall k: nat :: var s := Rounds(env, config, wf, v, k).view.snap;
                     n in s.nodes && s.nodes[n].attempt == v.snap.nodes[n].attempt + k
  }

  lemma PoisedSpins(env: Env, config: SchedulerConfig, wf: Compiled, v: View, n: NodeId)
    requires WellCompiled(wf) && Poised(wf, v.snap, n) && IsReady(v.snap, wf, n) && Blocks(env, n)
    requires DependenciesSatisfied(v.snap, wf, n, wf.specs[n].join)
    ensures NeverStops(env, config, wf, v) && StartsEachRound(env, config, wf, v, n)
  {
    hide WellCompiled, SnapshotOk, IsReady, HasOpenInterrupt, DependenciesSatisfied, Blocks, Decide, Rounds, NodesAlike;
    forall k: nat
      ensures var r := Rounds(env, config, wf, v, k);
              && !r.raised && Decide(config, r.view.snap, wf).Dispatch?
              && n in r.view.snap.nodes && r.view.snap.nodes[n].attempt == v.snap.nodes[n].attempt + k
    {
      RoundsBlock(env, config, wf, v, n, k);
    }
  }

  /** When the only ready node of a run blocks without opening an interrupt, the loop goes on for ever if
      and only if the node's dependencies are met; then each round starts it once more, so no measure can
      fall. */
  lemma BlockingSpinsExactly(env: Env, config: SchedulerConfig, wf: Compiled, v: View, n: NodeId)
    requires WellCompiled(wf) && Idle(wf, v) && Blocks(env, n)
    requires IsReady(v.snap, wf, n) && forall m :: IsReady(v.snap, wf, m) ==> m == n
    ensures NeverStops(env, config, wf, v) <==> DependenciesSatisfied(v.snap, wf, n, wf.specs[n].join)
    ensures NeverStops(env, config, wf, v) ==> StartsEachRound(env, config, wf, v, n)
  {
    hide WellCompiled, RunInv, SnapshotOk, IsReady, DependenciesSatisfied, Blocks, Decide, Rounds, StartsEachRound;
    IdleIsPoised(wf, v, n);
    OneRound(env, config, wf, v, n);
    if DependenciesSatisfied(v.snap, wf, n, wf.specs[n].join) {
      PoisedSpins(env, config, wf, v, n);
    }
  }

  /** At its start a run has one ready node, its entry. */
  lemma OnlyEntryReady(wf: Compiled, s: Snapshot)
    requires WellCompiled(wf) && s.nodes.Keys == wf.specs.Keys
    requires forall n | n in s.nodes :: s.nodes[n].status == if n == wf.entry then Ready else Pending
    ensures forall m :: IsReady(s, wf, m) <==> m == wf.entry
    ensures DependenciesSatisfied(s, wf, wf.entry, wf.specs[wf.entry].join)
            <==> (wf.entry in wf.incoming ==> wf.incoming[wf.entry] == [])
  {
    hide DependenciesSatisfied, WellCompiled;
    EntryIsSpec(wf);
    forall m | IsReady(s, wf, m) ensures m == wf.entry {
      if m != wf.entry {
        SatisfiedHasFinishedSource(s, wf, m, wf.specs[m].join);
      }
    }
    EntryDependencies(s, wf);
  }

  lemma EntryIsSpec(wf: Compiled)
    requires WellCompiled(wf)
    ensures wf.entry in wf.specs
  {
  }

  lemma EntryDependencies(s: Snapshot, wf: Compiled)
    requires wf.entry in wf.specs && forall n | n in s.nodes :: !s.nodes[n].status.Terminal()
    ensures DependenciesSatisfied(s, wf, wf.entry, wf.specs[wf.entry].join)
            <==> (wf.entry in wf.incoming ==> wf.incoming[wf.entry] == [])
  {
    var join := wf.specs[wf.entry].join;
    if DependenciesSatisfied(s, wf, wf.entry, join) && wf.entry in wf.incoming && wf.incoming[wf.entry] != [] {
      SatisfiedHasFinishedSource(s, wf, wf.entry, join);
    }
  }

  /** So a new run whose entry blocks without an interrupt never leaves the loop, unless an edge leads
      back to the entry. */
  lemma BlockedEntrySpins(env: Env, config: SchedulerConfig, wf: Compiled, thread: ThreadRecord,
                          threadState: ThreadState, nextId: nat)
    requires WellCompiled(wf) && thread.threadId == threadState.threadId && Unique(threadState.artifactIds)
    requires Blocks(env, wf.entry)
    ensures NeverStops(env, config, wf, Begin(env, thread, threadState, wf, nextId).view)
            <==> (wf.entry in wf.incoming ==> wf.incoming[wf.entry] == [])
  {
    hide WellCompiled, Blocks, IsReady, Begin, RunInv;
    BeginKeeps(wf, env, thread, threadState, nextId);
    var v := Begin(env, thread, threadState, wf, nextId).view;
    BegunNodes(wf, env, thread, threadState, nextId);
    OnlyEntryReady(wf, v.snap);
    BlockingSpinsExactly(env, config, wf, v, wf.entry);
  }

  lemma BegunNodes(wf: Compiled, env: Env, thread: ThreadRecord, threadState: ThreadState, nextId: nat)
    requires WellCompiled(wf)
    ensures Begin(env, thread, threadState, wf, nextId).view.snap.nodes == map n | n in wf.specs :: InitialNode(Id(nextId), wf, n)
  {
    hide WellCompiled, Apply, Commit;
    var run := Id(nextId);
    var empty := EmptySnapshot(thread, threadState, run, wf);
    BeginApplies(thread, threadState, run, wf);
    CommitStamps(env, View(empty, [], [], nextId + 1), empty, InitialPatch(run, wf), InitialKinds(wf));
  }
}
