/** Which nodes may run, and whether a run is over. */
module Selector {
  import opened Common
  import opened JsonValues
  import opened Lists
  import opened Models
  import opened Workflow

  /** Conditions look at the source node: at its decisions, or at the payload of its output artifact. */
  predicate EdgeSatisfied(s: Snapshot, source: NodeState, condition: Option<EdgeCondition>) {
    match condition
    case None | Some(Always) => true
    case Some(ActionIs(action)) =>
      exists d | d in source.decisionIds :: d in s.decisions && s.decisions[d].action == action
    case Some(CustomEdge) => false
    case Some(FieldExists(path)) =>
      HasOutput(s, source) && Extract(s.artifacts[source.output.value].payload, path).Some?
    case Some(FieldEquals(path, expected)) =>
      HasOutput(s, source) && Extract(s.artifacts[source.output.value].payload, path) == Some(expected)
  }

  predicate HasOutput(s: Snapshot, n: NodeState) {
    n.output.Some? && n.output.value in s.artifacts
  }

  /** The states of the sources whose edges count; `None` when a source is unknown. */
  function Upstream(s: Snapshot, edges: seq<EdgeSpec>): Option<seq<NodeState>> {
    if edges == [] then Some([])
    else if edges[0].source !in s.nodes then None
    else
      var rest := Upstream(s, edges[1..]);
      if rest == None then None
      else if EdgeSatisfied(s, s.nodes[edges[0].source], edges[0].condition) then
        Some([s.nodes[edges[0].source]] + rest.value)
      else rest
  }

  function Successes(states: seq<NodeState>): nat {
    if states == [] then 0
    else (if states[0].status == Succeeded then 1 else 0) + Successes(states[1..])
  }

  predicate JoinSatisfied(join: Option<JoinPolicy>, states: seq<NodeState>) {
    match join
    case None | Some(AllSuccess) => forall n | n in states :: n.status == Succeeded
    case Some(AnySuccess) => exists n | n in states :: n.status == Succeeded
    case Some(AllDone) => forall n | n in states :: n.status.Terminal()
    case Some(AtLeast(quorum)) => Successes(states) >= quorum
  }

  predicate DependenciesSatisfied(s: Snapshot, wf: Compiled, n: NodeId, join: Option<JoinPolicy>) {
    var edges := if n in wf.incoming then wf.incoming[n] else [];
    if edges == [] then n == wf.entry
    else
      var upstream := Upstream(s, edges);
      upstream.Some? && upstream.value != [] && JoinSatisfied(join, upstream.value)
  }

  predicate HasOpenInterrupt(s: Snapshot, n: NodeId) {
    exists i | i in s.runState.pendingInterrupts :: i in s.interrupts && s.interrupts[i].nodeId == Some(n)
  }

  predicate IsReady(s: Snapshot, wf: Compiled, n: NodeId) {
    && n in s.nodes && n in wf.specs
    && (|| s.nodes[n].status == Ready
        || (&& (s.nodes[n].status == Pending || s.nodes[n].status == Blocked)
            && !HasOpenInterrupt(s, n)
            && DependenciesSatisfied(s, wf, n, wf.specs[n].join)))
  }

  function ReadyAmong(s: Snapshot, wf: Compiled, nodes: seq<NodeId>): seq<NodeId> {
    if nodes == [] then []
    else
      var rest := ReadyAmong(s, wf, nodes[1..]);
      if IsReady(s, wf, nodes[0]) then [nodes[0]] + rest else rest
  }

  lemma {:induction false} ReadyMembers(s: Snapshot, wf: Compiled, nodes: seq<NodeId>)
    ensures forall n :: n in ReadyAmong(s, wf, nodes) <==> n in nodes && IsReady(s, wf, n)
    ensures Unique(nodes) ==> Unique(ReadyAmong(s, wf, nodes))
  {
    if nodes != [] {
      ReadyMembers(s, wf, nodes[1..]);
    }
  }

  predicate TerminalMet(s: Snapshot, wf: Compiled, t: TerminalCondition) {
    match t
    case AllTerminal => AllNodesTerminal(s, wf)
    case NodeCompleted(n) => n in s.nodes && s.nodes[n].status == Succeeded
    case AnyFatalFailure => exists n | n in s.nodes :: s.nodes[n].status == Failed
    case CustomTerminal => false
  }

  predicate AllNodesTerminal(s: Snapshot, wf: Compiled) {
    forall n | n in wf.specs :: n in s.nodes && s.nodes[n].status.Terminal()
  }

  predicate TerminalConditionMet(s: Snapshot, wf: Compiled) {
    if wf.terminals != [] then exists t | t in wf.terminals :: TerminalMet(s, wf, t) else AllNodesTerminal(s, wf)
  }

  /* ---- The loops ---- */

  method CheckDependencies(s: Snapshot, wf: Compiled, n: NodeId, join: Option<JoinPolicy>) returns (r: bool)
    ensures r == DependenciesSatisfied(s, wf, n, join)
  {
    var edges := if n in wf.incoming then wf.incoming[n] else [];
    if edges == [] {
      return n == wf.entry;
    }
    var states: seq<NodeState> := [];
    assert edges[0..] == edges;
    assert Upstream(s, edges).Some? ==> [] + Upstream(s, edges).value == Upstream(s, edges).value;
    for i := 0 to |edges|
      invariant Upstream(s, edges[i..]) == None ==> Upstream(s, edges) == None
      invariant Upstream(s, edges[i..]).Some? ==> Upstream(s, edges) == Some(states + Upstream(s, edges[i..]).value)
    {
      assert edges[i..][0] == edges[i] && edges[i..][1..] == edges[i + 1..];
      if edges[i].source !in s.nodes {
        return false;
      }
      var source := s.nodes[edges[i].source];
      if EdgeSatisfied(s, source, edges[i].condition) {
        ghost var later := Upstream(s, edges[i + 1..]);
        assert later.Some? ==> states + ([source] + later.value) == (states + [source]) + later.value;
        states := states + [source];
      }
    }
    assert edges[|edges|..] == [] && states + [] == states;
    return states != [] && JoinSatisfied(join, states);
  }

  method CheckReady(s: Snapshot, wf: Compiled, n: NodeId) returns (r: bool)
    requires n in wf.specs
    ensures r == IsReady(s, wf, n)
  {
    if n !in s.nodes {
      return false;
    }
    if s.nodes[n].status == Ready {
      return true;
    }
    if s.nodes[n].status != Pending && s.nodes[n].status != Blocked {
      return false;
    }
    if HasOpenInterrupt(s, n) {
      return false;
    }
    r := CheckDependencies(s, wf, n, wf.specs[n].join);
  }

  method SelectReadyNodes(s: Snapshot, wf: Compiled) returns (ready: seq<NodeId>)
    requires forall n | n in wf.order :: n in wf.specs
    ensures ready == ReadyAmong(s, wf, wf.order)
  {
    ready := [];
    for i := 0 to |wf.order|
      invariant ready + ReadyAmong(s, wf, wf.order[i..]) == ReadyAmong(s, wf, wf.order)
    {
      var n := wf.order[i];
      assert wf.order[i..][0] == n && wf.order[i..][1..] == wf.order[i + 1..];
      ghost var rest := ReadyAmong(s, wf, wf.order[i + 1..]);
      assert ready + ([n] + rest) == (ready + [n]) + rest;
      var isReady := CheckReady(s, wf, n);
      if isReady {
        ready := ready + [n];
      }
    }
  }

  /* ---- What satisfied dependencies imply ---- */

  lemma {:induction false} UpstreamMembers(s: Snapshot, edges: seq<EdgeSpec>)
    requires Upstream(s, edges).Some?
    ensures forall e | e in edges :: e.source in s.nodes
    ensures forall st :: st in Upstream(s, edges).value <==>
              exists e :: e in edges && s.nodes[e.source] == st && EdgeSatisfied(s, st, e.condition)
  {
    if edges != [] {
      UpstreamMembers(s, edges[1..]);
      assert forall e :: e in edges <==> e == edges[0] || e in edges[1..];
    }
  }

  lemma {:induction false} SuccessesWitness(states: seq<NodeState>)
    ensures Successes(states) <= |states|
    ensures Successes(states) > 0 ==> exists n :: n in states && n.status == Succeeded
    ensures Successes(states) == |states| <==> forall n | n in states :: n.status == Succeeded
  {
    if states != [] {
      SuccessesWitness(states[1..]);
      assert forall n :: n in states <==> n == states[0] || n in states[1..];
    }
  }

  /** Whatever the policy and the conditions, a satisfied join has a finished source. */
  lemma SatisfiedHasFinishedSource(s: Snapshot, wf: Compiled, n: NodeId, join: Option<JoinPolicy>)
    requires DependenciesSatisfied(s, wf, n, join)
    requires n != wf.entry || (n in wf.incoming && wf.incoming[n] != [])
    ensures n in wf.incoming
    ensures exists e :: e in wf.incoming[n] && e.source in s.nodes && s.nodes[e.source].status.Terminal()
  {
    var edges := wf.incoming[n];
    UpstreamMembers(s, edges);
    var states := Upstream(s, edges).value;
    SuccessesWitness(states);
    assert states[0] in states;
    var st :| st in states && st.status.Terminal();
  }
}
