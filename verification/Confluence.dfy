/** With unconditional edges and executors whose outcome depends on the node alone, the nodes a loop
    executes are the least fixpoint of readiness, whatever the parallelism and the queue. */
module Confluence {
  import opened Common
  import opened Lists
  import opened Models
  import opened Workflow
  import opened Compiler
  import opened ReducerFacts
  import opened Selector
  import opened Scheduler
  import opened RunMachine
  import opened RunInvariant
  import opened RunOps
  import opened RunResults
  import opened RunLifecycle
  import opened RunSteps
  import opened RunLoop
  import opened RunHistory
  import opened RunAttempts
  import opened RunStops
  import opened RunTheorems

  ghost predicate Unconditional(wf: Compiled) {
    forall n, e | n in wf.incoming && e in wf.incoming[n] :: e.Unconditional()
  }

  /* ---- Joins only ever become satisfied ---- */

  predicate Unfinished(status: NodeStatus) {
    status == Pending || status == Ready
  }

  /** Where the two lists differ, the first has a node that has still to start. */
  ghost predicate Advances(a: seq<NodeState>, b: seq<NodeState>) {
    |a| == |b| && forall i :: 0 <= i < |a| ==> a[i].status == b[i].status || Unfinished(a[i].status)
  }

  lemma {:induction false} SuccessesAdvance(a: seq<NodeState>, b: seq<NodeState>)
    requires Advances(a, b)
    ensures Successes(a) <= Successes(b)
  {
    if a != [] {
      assert Advances(a[1..], b[1..]);
      SuccessesAdvance(a[1..], b[1..]);
    }
  }

  /** No join policy is ever lost when unfinished sources move on. */
  lemma JoinSurvives(join: Option<JoinPolicy>, a: seq<NodeState>, b: seq<NodeState>)
    requires Advances(a, b) && JoinSatisfied(join, a)
    ensures JoinSatisfied(join, b)
  {
    SuccessesAdvance(a, b);
    if join == Some(AnySuccess) {
      var i :| 0 <= i < |a| && a[i].status == Succeeded;
      assert b[i] in b;
    } else {
      forall n | n in b && !(join.Some? && join.value.AtLeast?)
        ensures (join == Some(AllDone) ==> n.status.Terminal()) && (join != Some(AllDone) ==> n.status == Succeeded)
      {
        var i :| 0 <= i < |b| && b[i] == n;
        assert a[i] in a;
      }
    }
  }

  function Sources(nodes: map<NodeId, NodeState>, edges: seq<EdgeSpec>): (r: seq<NodeState>)
    requires forall e | e in edges :: e.source in nodes
  {
    seq(|edges|, i requires 0 <= i < |edges| => nodes[edges[i].source])
  }

  lemma {:induction false} UpstreamIsAll(s: Snapshot, edges: seq<EdgeSpec>)
    requires forall e | e in edges :: e.source in s.nodes && e.Unconditional()
    ensures Upstream(s, edges) == Some(Sources(s.nodes, edges))
  {
    if edges != [] {
      assert edges[0] in edges;
      assert EdgeSatisfied(s, s.nodes[edges[0].source], edges[0].condition);
      UpstreamIsAll(s, edges[1..]);
      assert Sources(s.nodes, edges) == [s.nodes[edges[0].source]] + Sources(s.nodes, edges[1..]);
    }
  }

  lemma IncomingKnown(wf: Compiled, nodes: map<NodeId, NodeState>, n: NodeId)
    requires WellCompiled(wf) && nodes.Keys == wf.specs.Keys && n in wf.incoming
    ensures forall e | e in wf.incoming[n] :: e.source in nodes
  {
  }

  /** With unconditional edges readiness is a matter of the sources' statuses. */
  lemma SatisfiedBySources(wf: Compiled, s: Snapshot, n: NodeId)
    requires WellCompiled(wf) && Unconditional(wf) && s.nodes.Keys == wf.specs.Keys && n in wf.specs
    ensures n in wf.incoming && forall e | e in wf.incoming[n] :: e.source in s.nodes
    ensures DependenciesSatisfied(s, wf, n, wf.specs[n].join)
            <==> if wf.incoming[n] == [] then n == wf.entry
                 else JoinSatisfied(wf.specs[n].join, Sources(s.nodes, wf.incoming[n]))
  {
    IncomingKnown(wf, s.nodes, n);
    UpstreamIsAll(s, wf.incoming[n]);
  }

  /* ---- A batch is a sequence of single dispatches ---- */

  lemma DependenciesSurvive(wf: Compiled, s: Snapshot, t: Snapshot, m: NodeId, n: NodeId)
    requires WellCompiled(wf) && Unconditional(wf) && s.nodes.Keys == t.nodes.Keys == wf.specs.Keys && n in wf.specs
    requires OnlyAt(s.nodes, t.nodes, m) && Unfinished(s.nodes[m].status)
    requires DependenciesSatisfied(s, wf, n, wf.specs[n].join)
    ensures DependenciesSatisfied(t, wf, n, wf.specs[n].join)
  {
    hide WellCompiled, Unconditional, DependenciesSatisfied, JoinSatisfied;
    SatisfiedBySources(wf, s, n);
    SatisfiedBySources(wf, t, n);
    var edges := wf.incoming[n];
    if edges != [] {
      assert Advances(Sources(s.nodes, edges), Sources(t.nodes, edges));
      JoinSurvives(wf.specs[n].join, Sources(s.nodes, edges), Sources(t.nodes, edges));
    }
  }

  /** `n` stays ready while another node starts and ends. */
  lemma ReadyStaysReady(wf: Compiled, s: Snapshot, t: Snapshot, m: NodeId, n: NodeId)
    requires WellCompiled(wf) && Unconditional(wf) && s.nodes.Keys == t.nodes.Keys == wf.specs.Keys
    requires IsReady(s, wf, n) && m != n && s.nodes[n].status != Blocked
    requires OnlyAt(s.nodes, t.nodes, m) && Unfinished(s.nodes[m].status)
    requires HasOpenInterrupt(t, n) ==> HasOpenInterrupt(s, n)
    ensures IsReady(t, wf, n)
  {
    hide WellCompiled, Unconditional, DependenciesSatisfied, HasOpenInterrupt;
    if s.nodes[n].status != Ready {
      DependenciesSurvive(wf, s, t, m, n);
    }
  }

  lemma OpenedElsewhere(s: Snapshot, t: Snapshot, m: NodeId, n: NodeId, xs: seq<InterruptRecord>)
    requires Opened(s.interrupts, t.interrupts, xs) && m != n
    requires forall x: InterruptRecord | x in xs :: x.nodeId == Some(m)
    requires PendingAgrees(s.runState.pendingInterrupts, s.runState.pendingApprovals, s.interrupts)
    requires PendingAgrees(t.runState.pendingInterrupts, t.runState.pendingApprovals, t.interrupts)
    ensures HasOpenInterrupt(t, n) ==> HasOpenInterrupt(s, n)
  {
    if HasOpenInterrupt(t, n) {
      var i :| i in t.runState.pendingInterrupts && i in t.interrupts && t.interrupts[i].nodeId == Some(n);
      assert t.interrupts[i].status == Open;
      assert i in s.interrupts;
    }
  }

  /** Each node of the batch is ready when its turn comes. */
  ghost predicate EachReadyInTurn(env: Env, wf: Compiled, v: View, nodes: seq<NodeId>)
    decreases |nodes|
  {
    nodes == [] || v.snap.run.status.Terminal()
    || (&& IsReady(v.snap, wf, nodes[0])
        && var r := ExecuteNode(env, wf, v, nodes[0]); r.raised || EachReadyInTurn(env, wf, r.view, nodes[1..]))
  }

  /** A finished execution opens interrupts of its own node only. */
  lemma TouchedElsewhere(wf: Compiled, v: View, m: NodeId, n: NodeId, r: Stepped)
    requires RunInv(wf, v) && RunInv(wf, r.view) && Touched(wf, v, m, r) && !r.raised && m != n
    ensures OnlyAt(v.snap.nodes, r.view.snap.nodes, m)
    ensures v.snap.nodes.Keys == r.view.snap.nodes.Keys == wf.specs.Keys
    ensures HasOpenInterrupt(r.view.snap, n) ==> HasOpenInterrupt(v.snap, n)
  {
    hide RunInv, HasOpenInterrupt, PendingAgrees, InterruptsHeld;
    var xs: seq<InterruptRecord> :| Opened(v.snap.interrupts, r.view.snap.interrupts, xs)
      && forall x: InterruptRecord | x in xs :: x.nodeId == Some(m);
    IdleAgrees(wf, v);
    IdleAgrees(wf, r.view);
    OpenedElsewhere(v.snap, r.view.snap, m, n, xs);
  }

  lemma ExecuteKeepsOthersReady(wf: Compiled, env: Env, v: View, m: NodeId, n: NodeId)
    requires WellCompiled(wf) && Unconditional(wf) && Honest(env) && Idle(wf, v) && MayStart(wf, v.snap, m)
    requires IsReady(v.snap, wf, n) && m != n && v.snap.nodes[n].status != Blocked
    ensures var r := ExecuteNode(env, wf, v, m);
            || r.raised || r.view.snap.run.status.Terminal()
            || (IsReady(r.view.snap, wf, n) && r.view.snap.nodes[n].status != Blocked)
  {
    hide ExecuteNode, WellCompiled, Unconditional, IsReady, HasOpenInterrupt, Honest, RunInv, HasTrail, Touched;
    ExecuteNodeKeeps(wf, env, v, m);
    var r := ExecuteNode(env, wf, v, m);
    IsReadyKnown(wf, v.snap, n);
    if !r.raised && !r.view.snap.run.status.Terminal() {
      TouchedElsewhere(wf, v, m, n, r);
      ReadyStaysReady(wf, v.snap, r.view.snap, m, n);
    }
  }

  lemma IsReadyKnown(wf: Compiled, s: Snapshot, n: NodeId)
    requires IsReady(s, wf, n)
    ensures n in s.nodes
  {
  }

  lemma IdleAgrees(wf: Compiled, v: View)
    requires RunInv(wf, v)
    ensures PendingAgrees(v.snap.runState.pendingInterrupts, v.snap.runState.pendingApprovals, v.snap.interrupts)
    ensures v.snap.nodes.Keys == wf.specs.Keys
    ensures InterruptsHeld(v.snap.nodes, v.snap.interrupts, v.snap.run.status == RunCancelled)
  {
    hide HistoryOk, Trails, AttemptsBounded, Begun;
  }

  /** Without conditions on edges, every node of a dispatched batch still satisfies its join policy when it
      starts: a batch of any size is a valid sequence of single dispatches. */
  lemma {:induction false} BatchIsSound(wf: Compiled, env: Env, v: View, nodes: seq<NodeId>)
    requires WellCompiled(wf) && Unconditional(wf) && Honest(env) && Idle(wf, v) && Unique(nodes)
    requires forall n | n in nodes :: IsReady(v.snap, wf, n) && MayStart(wf, v.snap, n)
    ensures EachReadyInTurn(env, wf, v, nodes)
    decreases |nodes|
  {
    hide ExecuteNode, WellCompiled, Unconditional, IsReady, Honest, RunInv, HasTrail;
    if nodes != [] {
      assert nodes[0] in nodes;
      BatchStep(wf, env, v, nodes[0]);
      var r := ExecuteNode(env, wf, v, nodes[0]);
      if !r.raised && !r.view.snap.run.status.Terminal() {
        forall n | n in nodes[1..] ensures IsReady(r.view.snap, wf, n) && MayStart(wf, r.view.snap, n) {
          assert n in nodes && n != nodes[0];
          ExecuteKeepsOthersReady(wf, env, v, nodes[0], n);
          OthersMayStart(wf, v.snap, r.view.snap, nodes[0], n);
        }
        BatchIsSound(wf, env, r.view, nodes[1..]);
      } else if !r.raised {
        assert EachReadyInTurn(env, wf, r.view, nodes[1..]);
      }
    }
  }

  lemma DispatchIsSound(wf: Compiled, env: Env, config: SchedulerConfig, v: View)
    requires WellCompiled(wf) && Unconditional(wf) && Honest(env) && Idle(wf, v) && Decide(config, v.snap, wf).Dispatch?
    ensures var nodes := Decide(config, v.snap, wf).nodes;
            EachReadyInTurn(env, wf, Dispatched(v, nodes).view, nodes)
  {
    hide Dispatched, IsReady, Unconditional, Decide;
    var nodes := Decide(config, v.snap, wf).nodes;
    DispatchTakesReady(config, v.snap, wf);
    DispatchMayStart(wf, config, v);
    DispatchKeeps(wf, v, nodes);
    var w := Dispatched(v, nodes).view;
    forall n | n in nodes ensures IsReady(w.snap, wf, n) && MayStart(wf, w.snap, n) {
      SameIsReady(v.snap, w.snap, wf, n);
    }
    BatchIsSound(wf, env, w, nodes);
  }

  /* ---- Scripted executors and the least fixpoint ---- */

  /** What each node's executor returns, whatever it is given: a status, and whether it opens interrupts. */
  datatype Script = Script(status: NodeId -> NodeStatus, opens: NodeId -> bool) {
    ghost predicate Sound() {
      forall n :: RunSteps.Result(status(n)) && status(n) != Failed
    }
  }

  ghost predicate Scripted(env: Env, sc: Script) {
    && sc.Sound() && Calm(env)
    && (forall s, n :: env.canExecute(s, n))
    && (forall s, n, k: nat ::
          var r := env.execute(s, n, k).result.value; r.status == sc.status(n) && (r.interrupts != [] <==> sc.opens(n)))
  }

  /** The states of the nodes when exactly those of `done` have been executed. */
  function StateIn(sc: Script, done: set<NodeId>, n: NodeId): NodeState {
    NodeState(Id(0), n, if n in done then sc.status(n) else Pending, 0, n in done, None, None, [], [], 0)
  }

  function SourcesIn(sc: Script, done: set<NodeId>, edges: seq<EdgeSpec>): (r: seq<NodeState>)
    ensures |r| == |edges| && forall i :: 0 <= i < |r| ==> r[i] == StateIn(sc, done, edges[i].source)
  {
    seq(|edges|, i requires 0 <= i < |edges| => StateIn(sc, done, edges[i].source))
  }

  /** `n` may be executed once exactly the nodes of `done` have been. */
  predicate Enabled(wf: Compiled, sc: Script, done: set<NodeId>, n: NodeId) {
    && n in wf.specs
    && (n == wf.entry
        || (n in wf.incoming && wf.incoming[n] != []
            && JoinSatisfied(wf.specs[n].join, SourcesIn(sc, done, wf.incoming[n]))))
  }

  lemma EnabledMonotone(wf: Compiled, sc: Script, c: set<NodeId>, d: set<NodeId>, n: NodeId)
    requires c <= d && Enabled(wf, sc, c, n)
    ensures Enabled(wf, sc, d, n)
  {
    if n != wf.entry {
      var edges := wf.incoming[n];
      JoinSurvives(wf.specs[n].join, SourcesIn(sc, c, edges), SourcesIn(sc, d, edges));
    }
  }

  ghost predicate ClosedUnder(wf: Compiled, sc: Script, c: set<NodeId>) {
    forall n :: Enabled(wf, sc, c, n) ==> n in c
  }

  /** The least set closed under readiness. */
  ghost predicate Least(wf: Compiled, sc: Script, d: set<NodeId>) {
    ClosedUnder(wf, sc, d) && forall c :: ClosedUnder(wf, sc, c) ==> d <= c
  }

  lemma LeastIsUnique(wf: Compiled, sc: Script, c: set<NodeId>, d: set<NodeId>)
    requires Least(wf, sc, c) && Least(wf, sc, d)
    ensures c == d
  {
  }

  /* ---- Snapshots that follow the script ---- */

  function Done(nodes: map<NodeId, NodeState>): set<NodeId> {
    set n | n in nodes && !Unfinished(nodes[n].status)
  }

  ghost predicate Follows(wf: Compiled, sc: Script, nodes: map<NodeId, NodeState>, interrupts: map<Id, InterruptRecord>) {
    && nodes.Keys == wf.specs.Keys
    && (forall n | n in nodes ::
          nodes[n].status == if n in Done(nodes) then sc.status(n) else if n == wf.entry then Ready else Pending)
    && (forall n | n in nodes :: OpenAt(interrupts, n) <==> n in Done(nodes) && sc.opens(n))
  }

  lemma FollowsEnabled(wf: Compiled, sc: Script, s: Snapshot, n: NodeId)
    requires WellCompiled(wf) && Unconditional(wf) && sc.Sound() && Follows(wf, sc, s.nodes, s.interrupts)
    requires n in wf.specs && n != wf.entry
    ensures DependenciesSatisfied(s, wf, n, wf.specs[n].join) <==> Enabled(wf, sc, Done(s.nodes), n)
  {
    SatisfiedBySources(wf, s, n);
    var edges := wf.incoming[n];
    if edges != [] {
      var a, b := Sources(s.nodes, edges), SourcesIn(sc, Done(s.nodes), edges);
      forall i | 0 <= i < |edges| ensures a[i].status == b[i].status || (Unfinished(a[i].status) && Unfinished(b[i].status)) {
        assert edges[i] in edges;
      }
      if JoinSatisfied(wf.specs[n].join, a) {
        JoinSurvives(wf.specs[n].join, a, b);
      }
      if JoinSatisfied(wf.specs[n].join, b) {
        JoinSurvives(wf.specs[n].join, b, a);
      }
    }
  }

  /** The ready nodes are the enabled ones that have not been executed. */
  lemma ReadyIsEnabled(wf: Compiled, sc: Script, s: Snapshot, n: NodeId)
    requires WellCompiled(wf) && Unconditional(wf) && sc.Sound() && Follows(wf, sc, s.nodes, s.interrupts)
    requires InterruptsHeld(s.nodes, s.interrupts, false)
    requires PendingAgrees(s.runState.pendingInterrupts, s.runState.pendingApprovals, s.interrupts)
    ensures IsReady(s, wf, n) <==> n !in Done(s.nodes) && Enabled(wf, sc, Done(s.nodes), n)
  {
    hide DependenciesSatisfied, WellCompiled, Unconditional, Enabled;
    EnabledKnown(wf, sc, Done(s.nodes), n);
    if n in wf.specs {
      EntryKnown(wf);
      if n in Done(s.nodes) {
        if s.nodes[n].status == Blocked {
          BlockedIsHeld(s, n);
        }
      } else if n != wf.entry {
        NotOpen(s, n);
        FollowsEnabled(wf, sc, s, n);
      }
    }
  }

  lemma EntryKnown(wf: Compiled)
    requires WellCompiled(wf)
    ensures wf.entry in wf.specs
  {
  }

  lemma EnabledKnown(wf: Compiled, sc: Script, done: set<NodeId>, n: NodeId)
    ensures Enabled(wf, sc, done, n) ==> n in wf.specs
    ensures n == wf.entry && n in wf.specs ==> Enabled(wf, sc, done, n)
  {
  }

  lemma NotOpen(s: Snapshot, n: NodeId)
    requires !OpenAt(s.interrupts, n)
    requires PendingAgrees(s.runState.pendingInterrupts, s.runState.pendingApprovals, s.interrupts)
    ensures !HasOpenInterrupt(s, n)
  {
  }

  /* ---- Executions follow the script ---- */

  lemma MoveFollows(wf: Compiled, sc: Script, before: map<NodeId, NodeState>, after: map<NodeId, NodeState>,
                    held: map<Id, InterruptRecord>, holds: map<Id, InterruptRecord>, n: NodeId, xs: seq<InterruptRecord>)
    requires sc.Sound() && Follows(wf, sc, before, held) && OnlyAt(before, after, n)
    requires Unfinished(before[n].status) && after[n].status == sc.status(n)
    requires Opened(held, holds, xs) && (forall x | x in xs :: x.nodeId == Some(n)) && (xs != [] <==> sc.opens(n))
    ensures Follows(wf, sc, after, holds) && Done(after) == Done(before) + {n}
  {
    assert Done(after) == Done(before) + {n};
    forall m | m in after ensures OpenAt(holds, m) <==> m in Done(after) && sc.opens(m) {
      OpenedAt(held, holds, xs, n, m);
    }
  }

  lemma OpenedAt(held: map<Id, InterruptRecord>, holds: map<Id, InterruptRecord>, xs: seq<InterruptRecord>,
                 n: NodeId, m: NodeId)
    requires Opened(held, holds, xs) && forall x | x in xs :: x.nodeId == Some(n)
    ensures OpenAt(holds, m) <==> OpenAt(held, m) || (m == n && xs != [])
  {
    if OpenAt(held, m) {
      var i :| i in held && held[i].nodeId == Some(m) && held[i].status == Open;
      assert i in holds;
    }
    if m == n && xs != [] {
      assert xs[0] in xs;
      assert xs[0].interruptId in holds;
    }
  }

  lemma FinishFollows(wf: Compiled, env: Env, sc: Script, w: View, n: NodeId, r: NodeResult, low: nat)
    requires Executing(wf, w, n) && IdsBelow(w.snap, low)
    requires HonestResult(w.snap, n, r, low, w.nextId) && low <= w.nextId && r.status != Failed
    ensures var f := FinishNode(env, wf, w, n, r);
            && !f.raised && Idle(wf, f.view) && OnlyAt(w.snap.nodes, f.view.snap.nodes, n)
            && f.view.snap.nodes[n].status == r.status
            && Opened(w.snap.interrupts, f.view.snap.interrupts, r.interrupts)
            && forall x: InterruptRecord | x in r.interrupts :: x.nodeId == Some(n)
  {
    hide FinishNode, RunInv;
    FinishNodeKeeps(wf, env, w, n, r, low);
  }

  lemma StartedMoves(wf: Compiled, env: Env, v: View, n: NodeId, u: View, o: Outcome, w: View)
    requires Honest(env) && Idle(wf, v) && MayStart(wf, v.snap, n)
    requires u == StartNode(env, v, n).view && o == env.execute(u.snap, n, u.nextId) && w == DuringExecution(u, o)
    ensures OnlyAt(v.snap.nodes, w.snap.nodes, n) && w.snap.interrupts == v.snap.interrupts
  {
    hide StartNode, RunInv;
    StartNodeKeeps(wf, env, v, n);
    DuringQuiet(u, o);
  }

  lemma ScriptedResult(env: Env, sc: Script, s: Snapshot, n: NodeId, k: nat)
    requires Scripted(env, sc)
    ensures env.canExecute(s, n) && env.selectsInput(s, n)
    ensures var o := env.execute(s, n, k);
            && o.result.Some? && o.result.value.status == sc.status(n) && sc.status(n) != Failed
            && (o.result.value.interrupts != [] <==> sc.opens(n))
  {
  }

  lemma ExecuteCases(env: Env, wf: Compiled, v: View, n: NodeId, u: View, o: Outcome)
    requires n in v.snap.nodes && env.canExecute(v.snap, n) && env.selectsInput(v.snap, n)
    requires !StartNode(env, v, n).raised && u == StartNode(env, v, n).view && env.selectsInput(u.snap, n)
    requires o == env.execute(u.snap, n, u.nextId) && o.result.Some?
    ensures ExecuteNode(env, wf, v, n) == FinishNode(env, wf, DuringExecution(u, o), n, o.result.value)
  {
    hide StartNode, FinishNode, DuringExecution;
  }

  lemma ExecuteFollows(wf: Compiled, env: Env, sc: Script, v: View, n: NodeId)
    requires Honest(env) && Scripted(env, sc) && Idle(wf, v) && MayStart(wf, v.snap, n)
    requires Follows(wf, sc, v.snap.nodes, v.snap.interrupts)
    ensures var r := ExecuteNode(env, wf, v, n);
            && !r.raised && Idle(wf, r.view) && Follows(wf, sc, r.view.snap.nodes, r.view.snap.interrupts)
            && Done(r.view.snap.nodes) == Done(v.snap.nodes) + {n}
  {
    hide StartNode, FinishNode, DuringExecution, ExecuteNode, RunInv, Idle, Executing, HonestResult, Honest, Scripted,
         Follows, Opened, HasTrail;
    var u := StartNode(env, v, n).view;
    var o := env.execute(u.snap, n, u.nextId);
    var w := DuringExecution(u, o);
    ScriptedResult(env, sc, v.snap, n, v.nextId);
    ScriptedResult(env, sc, u.snap, n, u.nextId);
    StartedRun(wf, env, v, n, u, o, w);
    StartedMoves(wf, env, v, n, u, o, w);
    ExecuteCases(env, wf, v, n, u, o);
    FinishFollows(wf, env, sc, w, n, o.result.value, u.nextId);
    var f := FinishNode(env, wf, w, n, o.result.value).view;
    OnlyAtTwice(v.snap.nodes, w.snap.nodes, f.snap.nodes, n);
    SoundOf(env, sc);
    MoveFollows(wf, sc, v.snap.nodes, f.snap.nodes, v.snap.interrupts, f.snap.interrupts, n, o.result.value.interrupts);
  }

  lemma OnlyAtTwice(a: map<NodeId, NodeState>, b: map<NodeId, NodeState>, c: map<NodeId, NodeState>, n: NodeId)
    requires OnlyAt(a, b, n) && OnlyAt(b, c, n)
    ensures OnlyAt(a, c, n)
  {
  }

  lemma SoundOf(env: Env, sc: Script)
    requires Scripted(env, sc)
    ensures sc.Sound()
  {
  }

  /** A run whose executed nodes all had to be executed. */
  ghost predicate OnTrack(wf: Compiled, sc: Script, v: View) {
    && Idle(wf, v) && Follows(wf, sc, v.snap.nodes, v.snap.interrupts)
    && forall c :: ClosedUnder(wf, sc, c) ==> Done(v.snap.nodes) <= c
  }

  lemma {:induction false} BatchFollows(wf: Compiled, env: Env, sc: Script, v: View, nodes: seq<NodeId>)
    requires Honest(env) && Scripted(env, sc) && OnTrack(wf, sc, v) && AllMayStart(wf, v.snap, nodes)
    requires forall n | n in nodes :: Enabled(wf, sc, Done(v.snap.nodes), n)
    ensures var r := RunBatch(env, wf, v, nodes); !r.raised && OnTrack(wf, sc, r.view)
    decreases |nodes|
  {
    hide ExecuteNode, RunInv, Honest, Scripted, Follows, HasTrail, Enabled;
    if nodes != [] {
      var n := nodes[0];
      assert n in nodes;
      BatchStep(wf, env, v, n);
      ExecuteFollows(wf, env, sc, v, n);
      var r := ExecuteNode(env, wf, v, n);
      RestMayStart(wf, v.snap, r.view.snap, nodes);
      forall m | m in nodes ensures Enabled(wf, sc, Done(r.view.snap.nodes), m) {
        EnabledMonotone(wf, sc, Done(v.snap.nodes), Done(r.view.snap.nodes), m);
      }
      forall c | ClosedUnder(wf, sc, c) ensures Done(r.view.snap.nodes) <= c {
        EnabledMonotone(wf, sc, Done(v.snap.nodes), c, n);
      }
      BatchFollows(wf, env, sc, r.view, nodes[1..]);
    }
  }

  lemma DispatchFollows(wf: Compiled, env: Env, sc: Script, config: SchedulerConfig, v: View)
    requires WellCompiled(wf) && Unconditional(wf) && Honest(env) && Scripted(env, sc) && OnTrack(wf, sc, v)
    requires Decide(config, v.snap, wf).Dispatch?
    ensures var r := DispatchBatch(env, wf, v, Decide(config, v.snap, wf).nodes); !r.raised && OnTrack(wf, sc, r.view)
  {
    hide RunBatch, Dispatched, IsReady, Unconditional, Decide, Enabled, Follows, RunInv, ClosedUnder, HasTrail, Scripted,
         Honest, WellCompiled;
    var nodes := Decide(config, v.snap, wf).nodes;
    DispatchReady(wf, config, v);
    DispatchMayStart(wf, config, v);
    DispatchKeeps(wf, v, nodes);
    var w := Dispatched(v, nodes).view;
    SameNodesMayStart(wf, v.snap, w.snap, nodes);
    SoundOf(env, sc);
    IdleAgrees(wf, v);
    forall n | n in nodes ensures Enabled(wf, sc, Done(w.snap.nodes), n) {
      ReadyIsEnabled(wf, sc, v.snap, n);
    }
    BatchFollows(wf, env, sc, w, nodes);
  }

  lemma DispatchReady(wf: Compiled, config: SchedulerConfig, v: View)
    requires WellCompiled(wf) && Decide(config, v.snap, wf).Dispatch?
    ensures forall n | n in Decide(config, v.snap, wf).nodes :: IsReady(v.snap, wf, n)
  {
    DispatchTakesReady(config, v.snap, wf);
  }

  /* ---- Where a loop ends ---- */

  predicate ScriptEnds(wf: Compiled, sc: Script, done: set<NodeId>, t: TerminalCondition) {
    match t
    case AllTerminal => forall n | n in wf.specs :: n in done && sc.status(n).Terminal()
    case NodeCompleted(n) => n in wf.specs && n in done && sc.status(n) == Succeeded
    case AnyFatalFailure => false
    case CustomTerminal => false
  }

  /** The status of a run whose executed nodes are `done`. */
  function FinalStatus(detect: bool, wf: Compiled, sc: Script, done: set<NodeId>): RunStatus {
    if if wf.terminals == [] then ScriptEnds(wf, sc, done, AllTerminal)
       else exists t | t in wf.terminals :: ScriptEnds(wf, sc, done, t) then RunCompleted
    else if exists n | n in done :: sc.opens(n) then RunInterrupted
    else if (exists n | n in done :: sc.status(n) == Waiting) || !detect then RunWaiting
    else RunFailed
  }

  lemma ScriptTerminal(wf: Compiled, sc: Script, s: Snapshot)
    requires sc.Sound() && Follows(wf, sc, s.nodes, s.interrupts)
    ensures TerminalConditionMet(s, wf)
            <==> if wf.terminals == [] then ScriptEnds(wf, sc, Done(s.nodes), AllTerminal)
                 else exists t | t in wf.terminals :: ScriptEnds(wf, sc, Done(s.nodes), t)
  {
    forall t ensures TerminalMet(s, wf, t) <==> ScriptEnds(wf, sc, Done(s.nodes), t) {
      ScriptMeets(wf, sc, s, t);
    }
  }

  lemma ScriptMeets(wf: Compiled, sc: Script, s: Snapshot, t: TerminalCondition)
    requires sc.Sound() && Follows(wf, sc, s.nodes, s.interrupts)
    ensures TerminalMet(s, wf, t) <==> ScriptEnds(wf, sc, Done(s.nodes), t)
  {
    hide OpenAt;
  }

  lemma ScriptPending(wf: Compiled, sc: Script, s: Snapshot)
    requires Follows(wf, sc, s.nodes, s.interrupts) && InterruptsHeld(s.nodes, s.interrupts, false)
    requires PendingAgrees(s.runState.pendingInterrupts, s.runState.pendingApprovals, s.interrupts)
    ensures s.runState.pendingInterrupts != [] <==> exists n | n in Done(s.nodes) :: sc.opens(n)
  {
    if s.runState.pendingInterrupts != [] {
      var i := s.runState.pendingInterrupts[0];
      assert i in s.runState.pendingInterrupts;
      assert OpenAt(s.interrupts, s.interrupts[i].nodeId.value);
    }
    if exists n | n in Done(s.nodes) :: sc.opens(n) {
      var n :| n in Done(s.nodes) && sc.opens(n);
      var i :| i in s.interrupts && s.interrupts[i].nodeId == Some(n) && s.interrupts[i].status == Open;
      assert i in s.runState.pendingInterrupts;
    }
  }

  lemma ScriptDecides(wf: Compiled, sc: Script, config: SchedulerConfig, s: Snapshot)
    requires sc.Sound() && Follows(wf, sc, s.nodes, s.interrupts)
    requires InterruptsHeld(s.nodes, s.interrupts, false)
    requires PendingAgrees(s.runState.pendingInterrupts, s.runState.pendingApprovals, s.interrupts)
    requires var d := Decide(config, s, wf); !d.Dispatch? && DecisionIsExact(config, wf, s, d)
    ensures StatusAfter(Decide(config, s, wf)) == FinalStatus(config.deadlockDetection, wf, sc, Done(s.nodes))
  {
    hide Decide, NothingReady, TerminalConditionMet, ScriptEnds;
    ScriptTerminal(wf, sc, s);
    ScriptPending(wf, sc, s);
    assert (exists n | n in s.nodes :: s.nodes[n].status == Waiting)
      <==> (exists n | n in Done(s.nodes) :: sc.status(n) == Waiting) by {
      forall n | n in s.nodes ensures s.nodes[n].status == Waiting <==> n in Done(s.nodes) && sc.status(n) == Waiting {
      }
    }
  }

  /** What a loop leaves behind when executors are scripted. */
  ghost predicate Ended(wf: Compiled, sc: Script, detect: bool, s: Snapshot) {
    && Follows(wf, sc, s.nodes, s.interrupts) && Least(wf, sc, Done(s.nodes))
    && s.run.status == FinalStatus(detect, wf, sc, Done(s.nodes))
  }

  lemma StopEnds(wf: Compiled, env: Env, sc: Script, config: SchedulerConfig, v: View)
    requires WellCompiled(wf) && Unconditional(wf) && sc.Sound() && OnTrack(wf, sc, v)
    requires !Decide(config, v.snap, wf).Dispatch?
    ensures var r := Stop(env, v, Decide(config, v.snap, wf));
            !r.raised && Ended(wf, sc, config.deadlockDetection, r.view.snap)
  {
    hide Stop, Decide, RunInv, IsReady, Unconditional, Enabled, FinalStatus, Follows, WellCompiled;
    var d := Decide(config, v.snap, wf);
    IdleDecides(wf, config, v);
    IdleAgrees(wf, v);
    StopKeeps(wf, env, v, d);
    ScriptDecides(wf, sc, config, v.snap);
    forall n | Enabled(wf, sc, Done(v.snap.nodes), n) ensures n in Done(v.snap.nodes) {
      ReadyIsEnabled(wf, sc, v.snap, n);
      EnabledInOrder(wf, sc, Done(v.snap.nodes), n);
    }
    assert ClosedUnder(wf, sc, Done(v.snap.nodes));
  }

  lemma EnabledInOrder(wf: Compiled, sc: Script, done: set<NodeId>, n: NodeId)
    requires WellCompiled(wf) && Enabled(wf, sc, done, n)
    ensures n in wf.order
  {
    assert n in ToSet(wf.order);
  }

  lemma {:induction false} LoopEnds(wf: Compiled, env: Env, sc: Script, config: SchedulerConfig, v: View)
    requires WellCompiled(wf) && Unconditional(wf) && Honest(env) && Scripted(env, sc) && OnTrack(wf, sc, v)
    ensures var r := Loop(env, config, wf, v); !r.raised && Ended(wf, sc, config.deadlockDetection, r.view.snap)
    decreases Measure(v.snap)
  {
    hide Stop, Decide, RunInv, Unconditional, Follows, Ended, Scripted, Honest, WellCompiled, RunBatch;
    if Decide(config, v.snap, wf).Dispatch? {
      DispatchBatchKeeps(wf, env, config, v);
      DispatchFollows(wf, env, sc, config, v);
      LoopEnds(wf, env, sc, config, DispatchBatch(env, wf, v, Decide(config, v.snap, wf).nodes).view);
    } else {
      SoundOf(env, sc);
      StopEnds(wf, env, sc, config, v);
    }
  }

  lemma BeginOnTrack(wf: Compiled, env: Env, sc: Script, start: Start)
    requires WellCompiled(wf) && start.Sound()
    ensures var b := Begin(env, start.thread, start.threadState, wf, start.nextId);
            !b.raised && OnTrack(wf, sc, b.view)
  {
    hide WellCompiled, RunInv;
    var run := Id(start.nextId);
    BeginKeeps(wf, env, start.thread, start.threadState, start.nextId);
    BeginNodes(wf, env, start);
    var b := Begin(env, start.thread, start.threadState, wf, start.nextId).view;
    assert Done(b.snap.nodes) == {};
  }

  lemma BeginNodes(wf: Compiled, env: Env, start: Start)
    requires WellCompiled(wf)
    ensures var s := Begin(env, start.thread, start.threadState, wf, start.nextId).view.snap;
            && s.nodes == (map n | n in wf.specs :: InitialNode(Id(start.nextId), wf, n)) && s.interrupts == map[]
  {
    hide WellCompiled;
    var run := Id(start.nextId);
    var empty := EmptySnapshot(start.thread, start.threadState, run, wf);
    BeginApplies(start.thread, start.threadState, run, wf);
    CommitStamps(env, View(empty, [], [], start.nextId + 1), empty, InitialPatch(run, wf), InitialKinds(wf));
  }

  /** The first loop of a run executes exactly the least set closed under readiness, and its statuses and
      the run's status are a function of that set. */
  lemma ExecutesLeastFixpoint(env: Env, config: SchedulerConfig, wf: Compiled, start: Start, sc: Script)
    requires WellCompiled(wf) && Unconditional(wf) && Honest(env) && Scripted(env, sc) && start.Sound()
    ensures Ended(wf, sc, config.deadlockDetection, RunOf(env, config, wf, start, []).snap)
  {
    hide WellCompiled, Unconditional, Honest, Scripted, Ended, Begin, Loop, OnTrack, RunInv;
    BeginKeeps(wf, env, start.thread, start.threadState, start.nextId);
    BeginOnTrack(wf, env, sc, start);
    LoopEnds(wf, env, sc, config, Begin(env, start.thread, start.threadState, wf, start.nextId).view);
  }

  lemma EndedAlike(wf: Compiled, sc: Script, detect: bool, s: Snapshot, t: Snapshot)
    requires WellCompiled(wf) && Ended(wf, sc, detect, s) && Ended(wf, sc, detect, t)
    ensures Statuses(s.nodes) == Statuses(t.nodes) && s.run.status == t.run.status
  {
    hide WellCompiled, ClosedUnder, FinalStatus;
    LeastIsUnique(wf, sc, Done(s.nodes), Done(t.nodes));
  }

  /** Confluence: neither the parallelism nor the queue, nor anything else in which two executions of a
      workflow may differ, changes the final node statuses or the final run status. */
  lemma Confluent(env: Env, config: SchedulerConfig, start: Start,
                  otherEnv: Env, otherConfig: SchedulerConfig, otherStart: Start, wf: Compiled, sc: Script)
    requires WellCompiled(wf) && Unconditional(wf)
    requires Honest(env) && Scripted(env, sc) && start.Sound()
    requires Honest(otherEnv) && Scripted(otherEnv, sc) && otherStart.Sound()
    requires config.deadlockDetection == otherConfig.deadlockDetection
    ensures var s := RunOf(env, config, wf, start, []).snap;
            var t := RunOf(otherEnv, otherConfig, wf, otherStart, []).snap;
            Statuses(s.nodes) == Statuses(t.nodes) && s.run.status == t.run.status
  {
    hide Unconditional, Honest, Scripted, Ended, RunOf;
    ExecutesLeastFixpoint(env, config, wf, start, sc);
    ExecutesLeastFixpoint(otherEnv, otherConfig, wf, otherStart, sc);
    EndedAlike(wf, sc, config.deadlockDetection,
               RunOf(env, config, wf, start, []).snap, RunOf(otherEnv, otherConfig, wf, otherStart, []).snap);
  }
}
