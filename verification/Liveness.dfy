/** Acyclic workflows run to the end: every node succeeds and the run completes. */
module Liveness {
  import opened Lists
  import opened Models
  import opened Workflow
  import opened Compiler
  import opened Selector
  import opened Scheduler
  import opened RunMachine
  import opened RunTheorems
  import opened Confluence

  /* ---- Nodes that all wait for each other form a cycle ---- */

  /** Every node of the set follows another one of it. */
  ghost predicate Fed(outgoing: Graph, waiting: set<NodeId>) {
    forall n | n in waiting :: HasFeeder(outgoing, waiting, n)
  }

  ghost predicate HasFeeder(outgoing: Graph, waiting: set<NodeId>, n: NodeId) {
    exists m :: m in waiting && Successor(outgoing, m, n)
  }

  /** Meeting a node of the walk again, from its front, closes a cycle. */
  lemma CloseBackwards(outgoing: Graph, path: seq<NodeId>, m: NodeId)
    requires Walk(outgoing, path) && m in path && Successor(outgoing, m, path[0])
    ensures HasCycle(outgoing)
  {
    var i :| 0 <= i < |path| && path[i] == m;
    var cycle := path[..i + 1];
    forall k | 0 <= k < |cycle| - 1 ensures Successor(outgoing, cycle[k], cycle[k + 1]) {
      assert Successor(outgoing, path[k], path[k + 1]);
    }
    assert Cycle(outgoing, cycle);
  }

  lemma StepBackwards(outgoing: Graph, path: seq<NodeId>, m: NodeId)
    requires Walk(outgoing, path) && Successor(outgoing, m, path[0])
    ensures Walk(outgoing, [m] + path) && ToSet([m] + path) == ToSet(path) + {m}
  {
    var longer := [m] + path;
    forall k | 0 <= k < |longer| - 1 ensures Successor(outgoing, longer[k], longer[k + 1]) {
      if k > 0 {
        assert Successor(outgoing, path[k - 1], path[k - 1 + 1]);
      }
    }
    assert forall x :: x in longer <==> x == m || x in path;
  }

  /** Walking backwards inside the set must meet a node again. */
  lemma {:induction false} FedHasCycle(outgoing: Graph, waiting: set<NodeId>, path: seq<NodeId>)
    requires Fed(outgoing, waiting) && Walk(outgoing, path) && ToSet(path) <= waiting
    ensures HasCycle(outgoing)
    decreases waiting - ToSet(path)
  {
    hide Walk, Successor, HasCycle, HasFeeder;
    WalkStarts(outgoing, path);
    assert HasFeeder(outgoing, waiting, path[0]);
    var m := FeederOf(outgoing, waiting, path[0]);
    if m in path {
      CloseBackwards(outgoing, path, m);
    } else {
      StepBackwards(outgoing, path, m);
      assert m in waiting - ToSet(path);
      FedHasCycle(outgoing, waiting, [m] + path);
    }
  }

  lemma FeederOf(outgoing: Graph, waiting: set<NodeId>, n: NodeId) returns (m: NodeId)
    requires HasFeeder(outgoing, waiting, n)
    ensures m in waiting && Successor(outgoing, m, n)
  {
    m :| m in waiting && Successor(outgoing, m, n);
  }

  lemma WalkStarts(outgoing: Graph, path: seq<NodeId>)
    requires Walk(outgoing, path)
    ensures path != [] && path[0] in ToSet(path)
  {
  }

  /* ---- Everything is reached ---- */

  ghost predicate Reachable(wf: Compiled, n: NodeId) {
    exists path :: Walk(wf.outgoing, path) && path[0] == wf.entry && path[|path| - 1] == n
  }

  lemma ReachableHasSource(wf: Compiled, n: NodeId)
    requires WellCompiled(wf) && Reachable(wf, n) && n in wf.specs && n != wf.entry
    ensures wf.incoming[n] != []
  {
    var path :| Walk(wf.outgoing, path) && path[0] == wf.entry && path[|path| - 1] == n;
    var k := |path| - 2;
    assert Successor(wf.outgoing, path[k], path[k + 1]);
    var e :| e in wf.outgoing[path[k]] && e.target == n;
    assert e in wf.incoming[n];
  }

  const ALL_SUCCEED := Script((n: NodeId) => Succeeded, (n: NodeId) => false)

  lemma {:induction false} AllSuccesses(states: seq<NodeState>)
    requires forall n | n in states :: n.status == Succeeded
    ensures Successes(states) == |states|
  {
    SuccessesWitness(states);
  }

  /** With every source succeeded any join policy holds: a quorum never exceeds the sources. */
  lemma SourcesEnable(wf: Compiled, done: set<NodeId>, n: NodeId)
    requires WellCompiled(wf) && n in wf.specs && wf.incoming[n] != []
    requires forall e | e in wf.incoming[n] :: e.source in done
    ensures Enabled(wf, ALL_SUCCEED, done, n)
  {
    var states := SourcesIn(ALL_SUCCEED, done, wf.incoming[n]);
    forall i | 0 <= i < |states| ensures states[i].status == Succeeded {
      assert wf.incoming[n][i] in wf.incoming[n];
    }
    AllSuccesses(states);
    assert states[0] in states;
  }

  lemma LeftOutHasSource(wf: Compiled, done: set<NodeId>, n: NodeId)
    requires WellCompiled(wf) && ClosedUnder(wf, ALL_SUCCEED, done)
    requires n in wf.specs && n !in done && Reachable(wf, n)
    ensures exists m :: m in wf.specs && m !in done && Successor(wf.outgoing, m, n)
  {
    assert !Enabled(wf, ALL_SUCCEED, done, n);
    ReachableHasSource(wf, n);
    if forall e | e in wf.incoming[n] :: e.source in done {
      SourcesEnable(wf, done, n);
    }
    var e :| e in wf.incoming[n] && e.source !in done;
    assert Successor(wf.outgoing, e.source, n);
  }

  lemma SingleWalk(wf: Compiled, n: NodeId)
    requires WellCompiled(wf) && n in wf.specs
    ensures Walk(wf.outgoing, [n]) && ToSet([n]) == {n}
  {
  }

  lemma LeftOutIsFed(wf: Compiled, done: set<NodeId>)
    requires WellCompiled(wf) && ClosedUnder(wf, ALL_SUCCEED, done)
    requires forall n | n in wf.specs :: Reachable(wf, n)
    ensures Fed(wf.outgoing, wf.specs.Keys - done)
  {
    hide WellCompiled, ClosedUnder, Reachable, Successor;
    var waiting := wf.specs.Keys - done;
    forall n | n in waiting ensures HasFeeder(wf.outgoing, waiting, n) {
      LeftOutHasSource(wf, done, n);
      var m :| m in wf.specs && m !in done && Successor(wf.outgoing, m, n);
      assert m in waiting;
    }
  }

  /** A closed set that leaves a node out leaves out a cycle. */
  lemma ClosedIsAll(wf: Compiled, done: set<NodeId>)
    requires WellCompiled(wf) && !HasCycle(wf.outgoing) && ClosedUnder(wf, ALL_SUCCEED, done)
    requires forall n | n in wf.specs :: Reachable(wf, n)
    ensures wf.specs.Keys <= done
  {
    hide WellCompiled, ClosedUnder, Reachable, Fed, HasCycle, Walk;
    var waiting := wf.specs.Keys - done;
    LeftOutIsFed(wf, done);
    if waiting != {} {
      var n :| n in waiting;
      SingleWalk(wf, n);
      FedHasCycle(wf.outgoing, waiting, [n]);
    }
    assert forall n | n in wf.specs :: n in done || n in waiting;
  }

  /* ---- The theorem ---- */

  /** The terminal conditions that some run of succeeding nodes can meet. */
  predicate CanComplete(wf: Compiled) {
    wf.terminals == [] || exists t | t in wf.terminals :: t.AllTerminal? || t.NodeCompleted?
  }

  lemma FinalOfAll(wf: Compiled, detect: bool)
    requires WellCompiled(wf)
    ensures FinalStatus(detect, wf, ALL_SUCCEED, wf.specs.Keys)
            == if CanComplete(wf) then RunCompleted else if detect then RunFailed else RunWaiting
  {
    forall t | t in wf.terminals
      ensures ScriptEnds(wf, ALL_SUCCEED, wf.specs.Keys, t) <==> t.AllTerminal? || t.NodeCompleted?
    {
    }
  }

  lemma CyclesFlagged(wf: Compiled)
    requires WellCompiled(wf)
    ensures wf.containsCycles <==> HasCycle(wf.outgoing)
  {
  }

  lemma EndedClosed(wf: Compiled, detect: bool, s: Snapshot)
    requires Ended(wf, ALL_SUCCEED, detect, s)
    ensures ClosedUnder(wf, ALL_SUCCEED, Done(s.nodes)) && s.nodes.Keys == wf.specs.Keys
    ensures forall n | n in Done(s.nodes) :: n in s.nodes && s.nodes[n].status == Succeeded
    ensures s.run.status == FinalStatus(detect, wf, ALL_SUCCEED, Done(s.nodes))
  {
    hide ClosedUnder, FinalStatus;
  }

  ghost predicate AllSucceeded(wf: Compiled, detect: bool, s: Snapshot) {
    && s.nodes.Keys == wf.specs.Keys && (forall n | n in s.nodes :: s.nodes[n].status == Succeeded)
    && s.run.status == if CanComplete(wf) then RunCompleted else if detect then RunFailed else RunWaiting
  }

  lemma EndedAll(wf: Compiled, detect: bool, s: Snapshot)
    requires WellCompiled(wf) && !wf.containsCycles && Ended(wf, ALL_SUCCEED, detect, s)
    requires forall n | n in wf.specs :: Reachable(wf, n)
    ensures AllSucceeded(wf, detect, s)
  {
    hide Reachable, FinalStatus, CanComplete, WellCompiled, ClosedUnder, Ended, HasCycle;
    CyclesFlagged(wf);
    EndedClosed(wf, detect, s);
    ClosedIsAll(wf, Done(s.nodes));
    assert Done(s.nodes) == wf.specs.Keys;
    FinalOfAll(wf, detect);
  }

  /** Liveness: a compiled workflow without cycles, whose edges are unconditional and whose nodes can all
      be reached, executes every node to success when executors succeed, under any mix of join policies,
      any parallelism and any queue. The run completes exactly when its terminal conditions are empty or
      include one that succeeding nodes can meet; otherwise it ends for lack of progress, or waits when
      the detection of deadlocks is off. */
  lemma RunsToTheEnd(env: Env, config: SchedulerConfig, wf: Compiled, start: Start)
    requires WellCompiled(wf) && Unconditional(wf) && !wf.containsCycles
    requires forall n | n in wf.specs :: Reachable(wf, n)
    requires Honest(env) && Scripted(env, ALL_SUCCEED) && start.Sound()
    ensures AllSucceeded(wf, config.deadlockDetection, RunOf(env, config, wf, start, []).snap)
  {
    hide RunOf, Honest, Scripted, Unconditional, Reachable, WellCompiled, Ended, AllSucceeded;
    ExecutesLeastFixpoint(env, config, wf, start, ALL_SUCCEED);
    EndedAll(wf, config.deadlockDetection, RunOf(env, config, wf, start, []).snap);
  }
}
