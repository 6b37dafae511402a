/** What makes a node ready, told by its edges and the records behind them. */
module Readiness {
  import opened Common
  import opened JsonValues
  import opened Lists
  import opened Models
  import opened Workflow
  import opened ReducerFacts
  import opened Selector

  /* ---- Conditions ---- */

  /** The node's output artifact is stored, and following the path in its payload leads to `found`. */
  ghost predicate OutputReads(s: Snapshot, n: NodeId, path: seq<string>, found: Json)
    requires n in s.nodes
  {
    exists a :: a in s.artifacts && s.nodes[n].output == Some(a) && Reaches(s.artifacts[a].payload, path, found)
  }

  /** The condition of an edge out of `n`, told by the artifacts and decisions of the run. */
  ghost predicate Fires(s: Snapshot, n: NodeId, condition: Option<EdgeCondition>)
    requires n in s.nodes
  {
    && condition != Some(CustomEdge)
    && (forall path, expected | condition == Some(FieldEquals(path, expected)) :: OutputReads(s, n, path, expected))
    && (forall path | condition == Some(FieldExists(path)) :: exists found :: OutputReads(s, n, path, found))
    && (forall action | condition == Some(ActionIs(action)) ::
          exists d :: d in s.decisions && s.decisions[d].nodeId == Some(n) && s.decisions[d].action == action)
  }

  lemma OutputReadsIff(s: Snapshot, n: NodeId, path: seq<string>, found: Json)
    requires n in s.nodes
    ensures OutputReads(s, n, path, found)
            <==> HasOutput(s, s.nodes[n]) && Extract(s.artifacts[s.nodes[n].output.value].payload, path) == Some(found)
  {
    if HasOutput(s, s.nodes[n]) {
      ExtractIff(s.artifacts[s.nodes[n].output.value].payload, path, found);
    }
  }

  lemma ConditionIff(s: Snapshot, n: NodeId, condition: Option<EdgeCondition>)
    requires n in s.nodes && DecisionsLinked(s.nodes, s.decisions)
    ensures EdgeSatisfied(s, s.nodes[n], condition) <==> Fires(s, n, condition)
  {
    hide OutputReads, Reaches, Extract;
    match condition
    case Some(FieldEquals(path, expected)) => OutputReadsIff(s, n, path, expected);
    case Some(FieldExists(path)) =>
      forall found {
        OutputReadsIff(s, n, path, found);
      }
      if EdgeSatisfied(s, s.nodes[n], condition) {
        var found := Extract(s.artifacts[s.nodes[n].output.value].payload, path).value;
        assert OutputReads(s, n, path, found);
      }
    case _ =>
  }

  /* ---- Joins ---- */

  /** The edges into a node that count: their sources are stored and their conditions hold. */
  ghost function Counted(s: Snapshot, edges: seq<EdgeSpec>): set<nat> {
    set i | 0 <= i < |edges| && edges[i].source in s.nodes && Fires(s, edges[i].source, edges[i].condition)
  }

  ghost function CountedIn(s: Snapshot, edges: seq<EdgeSpec>, status: NodeStatus): set<nat> {
    set i | i in Counted(s, edges) && s.nodes[edges[i].source].status == status
  }

  const ENDED := {Succeeded, Failed, Skipped, Cancelled}

  /** What a join policy asks of the sources of the edges that count. */
  ghost predicate JoinMet(s: Snapshot, edges: seq<EdgeSpec>, join: Option<JoinPolicy>) {
    && (forall e | e in edges :: e.source in s.nodes) && Counted(s, edges) != {}
    && (join == None || join == Some(AllSuccess) ==>
          forall i | i in Counted(s, edges) :: s.nodes[edges[i].source].status == Succeeded)
    && (join == Some(AnySuccess) ==>
          exists i :: i in Counted(s, edges) && s.nodes[edges[i].source].status == Succeeded)
    && (join == Some(AllDone) ==> forall i | i in Counted(s, edges) :: s.nodes[edges[i].source].status in ENDED)
    && (forall q | join == Some(AtLeast(q)) :: |CountedIn(s, edges, Succeeded)| >= q)
  }

  /** The states of the sources that count. */
  ghost function CountedStates(s: Snapshot, edges: seq<EdgeSpec>): set<NodeState> {
    set i | i in Counted(s, edges) :: s.nodes[edges[i].source]
  }

  ghost function Later(places: set<nat>): set<nat> {
    set i | i in places :: i + 1
  }

  lemma {:induction false} LaterSize(places: set<nat>)
    ensures |Later(places)| == |places|
    decreases |places|
  {
    if places != {} {
      var i :| i in places;
      LaterSize(places - {i});
      assert i + 1 !in Later(places - {i});
      forall k ensures k in Later(places) <==> k in Later(places - {i}) + {i + 1} {
        if k in Later(places) && k != i + 1 {
          assert k - 1 in places - {i};
        }
      }
      assert Later(places) == Later(places - {i}) + {i + 1};
    }
  }

  /** Whether the first edge counts. */
  ghost function First(s: Snapshot, edges: seq<EdgeSpec>): set<nat>
    requires edges != [] && edges[0].source in s.nodes
  {
    if Fires(s, edges[0].source, edges[0].condition) then {0} else {}
  }

  lemma CountedStep(s: Snapshot, edges: seq<EdgeSpec>)
    requires edges != [] && edges[0].source in s.nodes
    ensures Counted(s, edges) == First(s, edges) + Later(Counted(s, edges[1..]))
  {
    hide Fires;
    var rest := edges[1..];
    forall i: nat | i > 0 ensures i in Counted(s, edges) <==> i in Later(Counted(s, rest)) {
      if i < |edges| {
        assert edges[i] == rest[i - 1];
        assert i - 1 in Counted(s, rest) ==> (i - 1) + 1 in Later(Counted(s, rest));
      }
    }
    forall i: nat ensures i in Counted(s, edges) <==> i in First(s, edges) + Later(Counted(s, rest)) {
    }
  }

  lemma CountedInRest(s: Snapshot, edges: seq<EdgeSpec>, status: NodeStatus, i: nat)
    requires edges != [] && edges[0].source in s.nodes && i < |edges| - 1
    ensures i + 1 in CountedIn(s, edges, status) <==> i in CountedIn(s, edges[1..], status)
  {
    hide Fires;
    assert edges[i + 1] == edges[1..][i];
  }

  lemma CountedInSet(s: Snapshot, edges: seq<EdgeSpec>, status: NodeStatus)
    requires edges != [] && edges[0].source in s.nodes
    ensures CountedIn(s, edges, status)
            == (if First(s, edges) != {} && s.nodes[edges[0].source].status == status then {0} else {})
               + Later(CountedIn(s, edges[1..], status))
  {
    hide Fires;
    var first := if First(s, edges) != {} && s.nodes[edges[0].source].status == status then {0} else {};
    forall i: nat ensures i in CountedIn(s, edges, status) <==> i in first + Later(CountedIn(s, edges[1..], status)) {
      if 0 < i < |edges| {
        CountedInRest(s, edges, status, i - 1);
        assert i - 1 in CountedIn(s, edges[1..], status) ==> (i - 1) + 1 in Later(CountedIn(s, edges[1..], status));
      }
    }
  }

  lemma CountedInStep(s: Snapshot, edges: seq<EdgeSpec>, status: NodeStatus)
    requires edges != [] && edges[0].source in s.nodes
    ensures |CountedIn(s, edges, status)|
            == (if First(s, edges) != {} && s.nodes[edges[0].source].status == status then 1 else 0)
               + |CountedIn(s, edges[1..], status)|
  {
    hide Fires, Counted, CountedIn, First;
    CountedInSet(s, edges, status);
    LaterSize(CountedIn(s, edges[1..], status));
    assert 0 !in Later(CountedIn(s, edges[1..], status));
  }

  lemma CountedStatesStep(s: Snapshot, edges: seq<EdgeSpec>)
    requires edges != [] && edges[0].source in s.nodes
    ensures CountedStates(s, edges)
            == (if First(s, edges) != {} then {s.nodes[edges[0].source]} else {}) + CountedStates(s, edges[1..])
  {
    hide Fires;
    CountedStep(s, edges);
    var rest := edges[1..];
    forall i | i in Counted(s, rest) ensures i + 1 in Counted(s, edges) && edges[i + 1] == rest[i] {
    }
    forall i | i in Counted(s, edges) && i > 0 ensures i - 1 in Counted(s, rest) && edges[i] == rest[i - 1] {
    }
  }

  /** The states the engine gathers are those of the sources that count; what it counts among them is
      counted over the edges. */
  lemma {:induction false} UpstreamCounts(s: Snapshot, edges: seq<EdgeSpec>)
    requires DecisionsLinked(s.nodes, s.decisions)
    ensures Upstream(s, edges).Some? <==> forall e | e in edges :: e.source in s.nodes
    ensures Upstream(s, edges).Some? ==>
              && Successes(Upstream(s, edges).value) == |CountedIn(s, edges, Succeeded)|
              && (forall st :: st in Upstream(s, edges).value <==> st in CountedStates(s, edges))
  {
    hide Fires, EdgeSatisfied, DecisionsLinked, Counted, CountedIn, CountedStates;
    if edges == [] {
      NoneCounted(s);
    } else {
      assert edges[0] in edges;
      UpstreamCounts(s, edges[1..]);
      assert forall e :: e in edges <==> e == edges[0] || e in edges[1..];
      if edges[0].source in s.nodes {
        ConditionIff(s, edges[0].source, edges[0].condition);
        CountedInStep(s, edges, Succeeded);
        CountedStatesStep(s, edges);
      }
    }
  }

  lemma NoneCounted(s: Snapshot)
    ensures Counted(s, []) == {} && CountedIn(s, [], Succeeded) == {} && CountedStates(s, []) == {}
  {
  }

  lemma JoinOverStates(s: Snapshot, edges: seq<EdgeSpec>, join: Option<JoinPolicy>, states: seq<NodeState>)
    requires forall e | e in edges :: e.source in s.nodes
    requires Successes(states) == |CountedIn(s, edges, Succeeded)|
    requires forall st :: st in states <==> st in CountedStates(s, edges)
    ensures states != [] && JoinSatisfied(join, states) <==> JoinMet(s, edges, join)
  {
    hide Fires, CountedIn;
    assert states != [] ==> states[0] in states;
    forall i | i in Counted(s, edges) ensures s.nodes[edges[i].source] in states {
      assert s.nodes[edges[i].source] in CountedStates(s, edges);
    }
  }

  /** A node without incoming edges depends on nothing if it is the entry, and can never be reached
      otherwise; a node with some waits for what its policy asks of the sources whose edges hold. */
  lemma DependenciesIff(s: Snapshot, wf: Compiled, n: NodeId, join: Option<JoinPolicy>)
    requires DecisionsLinked(s.nodes, s.decisions) && n in wf.incoming
    ensures DependenciesSatisfied(s, wf, n, join)
            <==> if wf.incoming[n] == [] then n == wf.entry else JoinMet(s, wf.incoming[n], join)
  {
    hide JoinSatisfied, JoinMet, DecisionsLinked;
    var edges := wf.incoming[n];
    UpstreamCounts(s, edges);
    if Upstream(s, edges).Some? {
      JoinOverStates(s, edges, join, Upstream(s, edges).value);
    } else {
      NotMet(s, edges, join);
    }
  }

  lemma NotMet(s: Snapshot, edges: seq<EdgeSpec>, join: Option<JoinPolicy>)
    requires !forall e | e in edges :: e.source in s.nodes
    ensures !JoinMet(s, edges, join)
  {
  }

  /* ---- Ready nodes ---- */

  ghost predicate DependenciesMet(s: Snapshot, wf: Compiled, n: NodeId)
    requires n in wf.specs && n in wf.incoming
  {
    if wf.incoming[n] == [] then n == wf.entry else JoinMet(s, wf.incoming[n], wf.specs[n].join)
  }

  /** Made ready, or not started or blocked with no interrupt of its own open and its dependencies met. */
  ghost predicate MayRun(s: Snapshot, wf: Compiled, n: NodeId)
    requires wf.specs.Keys <= wf.incoming.Keys
  {
    && n in s.nodes && n in wf.specs && s.nodes[n].status in {Ready, Pending, Blocked}
    && (s.nodes[n].status != Ready ==>
          && (forall i | i in s.interrupts && s.interrupts[i].status == Open :: s.interrupts[i].nodeId != Some(n))
          && DependenciesMet(s, wf, n))
  }

  lemma HasOpenInterruptIff(s: Snapshot, n: NodeId)
    requires PendingAgrees(s.runState.pendingInterrupts, s.runState.pendingApprovals, s.interrupts)
    ensures HasOpenInterrupt(s, n)
            <==> exists i :: i in s.interrupts && s.interrupts[i].status == Open && s.interrupts[i].nodeId == Some(n)
  {
    if i :| i in s.interrupts && s.interrupts[i].status == Open && s.interrupts[i].nodeId == Some(n) {
      assert i in s.runState.pendingInterrupts;
    }
  }

  lemma ReadyIff(s: Snapshot, wf: Compiled, n: NodeId)
    requires DecisionsLinked(s.nodes, s.decisions) && wf.specs.Keys <= wf.incoming.Keys
    requires PendingAgrees(s.runState.pendingInterrupts, s.runState.pendingApprovals, s.interrupts)
    ensures IsReady(s, wf, n) <==> MayRun(s, wf, n)
  {
    hide JoinMet, DependenciesSatisfied, HasOpenInterrupt, DecisionsLinked, PendingAgrees;
    HasOpenInterruptIff(s, n);
    if n in wf.specs {
      DependenciesIff(s, wf, n, wf.specs[n].join);
    }
  }

  /** The selection is exactly the nodes that may run, in the order of the node map. */
  lemma {:induction false} SelectionIff(s: Snapshot, wf: Compiled, order: seq<NodeId>)
    requires DecisionsLinked(s.nodes, s.decisions) && wf.specs.Keys <= wf.incoming.Keys
    requires PendingAgrees(s.runState.pendingInterrupts, s.runState.pendingApprovals, s.interrupts)
    ensures Filters(ReadyAmong(s, wf, order), order, n => MayRun(s, wf, n))
  {
    hide MayRun, IsReady, Filters, DecisionsLinked, PendingAgrees;
    var keep := n => MayRun(s, wf, n);
    if order == [] {
      FiltersNothing(keep);
    } else {
      ReadyIff(s, wf, order[0]);
      SelectionIff(s, wf, order[1..]);
      FiltersCons(ReadyAmong(s, wf, order[1..]), order[1..], keep, order[0]);
      assert [order[0]] + order[1..] == order;
    }
  }

  /* ---- The end of a run ---- */

  ghost predicate AllEnded(s: Snapshot, wf: Compiled) {
    forall n | n in wf.specs :: n in s.nodes && s.nodes[n].status in ENDED
  }

  /** Without terminal conditions a run is over when every node has ended, otherwise when one of them holds;
      custom conditions never do. */
  ghost predicate Over(s: Snapshot, wf: Compiled) {
    || (AllEnded(s, wf) && (wf.terminals == [] || AllTerminal in wf.terminals))
    || (exists n :: NodeCompleted(n) in wf.terminals && n in s.nodes && s.nodes[n].status == Succeeded)
    || (AnyFatalFailure in wf.terminals && exists n :: n in s.nodes && s.nodes[n].status == Failed)
  }

  lemma TerminalIff(s: Snapshot, wf: Compiled)
    ensures TerminalConditionMet(s, wf) <==> Over(s, wf)
  {
    EndedIff(s, wf);
    if t :| t in wf.terminals && TerminalMet(s, wf, t) {
      match t
      case NodeCompleted(n) => assert NodeCompleted(n) in wf.terminals;
      case _ =>
    }
    if AllTerminal in wf.terminals && AllEnded(s, wf) {
      assert TerminalMet(s, wf, AllTerminal);
    }
    if n :| NodeCompleted(n) in wf.terminals && n in s.nodes && s.nodes[n].status == Succeeded {
      assert TerminalMet(s, wf, NodeCompleted(n));
    }
    if AnyFatalFailure in wf.terminals && exists n :: n in s.nodes && s.nodes[n].status == Failed {
      assert TerminalMet(s, wf, AnyFatalFailure);
    }
  }

  lemma EndedIff(s: Snapshot, wf: Compiled)
    ensures AllNodesTerminal(s, wf) <==> AllEnded(s, wf)
  {
    assert forall status: NodeStatus :: status.Terminal() <==> status in ENDED;
  }
}
