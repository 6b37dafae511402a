/** What compiling rejects and what it hands on, told by the lists of the definition alone. */
module CompileFaults {
  import opened Common
  import opened Lists
  import opened Models
  import opened Workflow
  import opened Compiler

  /* ---- Faults ---- */

  ghost predicate Known(d: Definition, n: NodeId) {
    exists node :: node in d.nodes && node.nodeId == n
  }

  ghost predicate EdgeSound(d: Definition, e: EdgeSpec) {
    Known(d, e.source) && Known(d, e.target)
  }

  ghost predicate TerminalsSound(d: Definition) {
    forall n | NodeCompleted(n) in d.terminals :: Known(d, n)
  }

  /** The edges into a node, by their places in the definition. */
  function InEdges(edges: seq<EdgeSpec>, n: NodeId): set<nat> {
    set i | 0 <= i < |edges| && edges[i].target == n
  }

  predicate LacksInput(d: Definition, node: NodeSpec) {
    node.nodeType == MergeNode && forall e | e in d.edges :: e.target != node.nodeId
  }

  predicate LacksApproval(node: NodeSpec) {
    node.nodeType == HumanGate && node.approval == None
  }

  predicate AsksTooMany(d: Definition, node: NodeSpec) {
    && node.join.Some? && node.join.value.AtLeast?
    && 0 < |InEdges(d.edges, node.nodeId)| < node.join.value.quorum
  }

  predicate NodeSound(d: Definition, node: NodeSpec) {
    !LacksInput(d, node) && !LacksApproval(node) && !AsksTooMany(d, node)
  }

  ghost predicate Follows(edges: seq<EdgeSpec>, a: NodeId, b: NodeId) {
    exists e :: e in edges && e.source == a && e.target == b
  }

  /** Nodes of which each is followed by the next, and the last by the first. */
  ghost predicate Round(edges: seq<EdgeSpec>, path: seq<NodeId>) {
    && path != [] && Follows(edges, path[|path| - 1], path[0])
    && forall i :: 0 <= i < |path| - 1 ==> Follows(edges, path[i], path[i + 1])
  }

  ghost predicate Cyclic(d: Definition) {
    exists path :: Round(d.edges, path)
  }

  lemma KnownIff(d: Definition, n: NodeId)
    ensures n in NodeMap(d.nodes) <==> Known(d, n)
  {
    NodesAreMapped(d.nodes);
  }

  lemma {:induction false} InEdgesSize(edges: seq<EdgeSpec>, n: NodeId)
    ensures |EdgesTo(edges, n)| == |InEdges(edges, n)|
    decreases |edges|
  {
    if edges == [] {
      assert InEdges(edges, n) == {};
    } else {
      var k := |edges| - 1;
      InEdgesSize(edges[..k], n);
      assert InEdges(edges, n) == InEdges(edges[..k], n) + if edges[k].target == n then {k} else {};
    }
  }

  lemma InputsIff(edges: seq<EdgeSpec>, n: NodeId)
    ensures EdgesTo(edges, n) == [] <==> forall e | e in edges :: e.target != n
  {
    EdgesOf(edges, n);
    if EdgesTo(edges, n) != [] {
      assert EdgesTo(edges, n)[0] in EdgesTo(edges, n);
    }
  }

  /** The check of one node finds the first of its three possible faults. */
  lemma NodeFaultIs(d: Definition, node: NodeSpec)
    ensures CheckNode(node, EdgesTo(d.edges, node.nodeId))
            == if LacksInput(d, node) then Some(MergeWithoutInput)
               else if LacksApproval(node) then Some(GateWithoutApproval)
               else if AsksTooMany(d, node) then Some(QuorumTooLarge)
               else None
  {
    InEdgesSize(d.edges, node.nodeId);
    InputsIff(d.edges, node.nodeId);
  }

  lemma SuccessorIff(d: Definition, a: NodeId, b: NodeId)
    requires forall e | e in d.edges :: EdgeSound(d, e)
    ensures Successor(Outgoing(d.edges, NodeMap(d.nodes).Keys), a, b) <==> Follows(d.edges, a, b)
  {
    EdgesOf(d.edges, a);
    KnownIff(d, a);
  }

  lemma CyclicIff(d: Definition)
    requires forall e | e in d.edges :: EdgeSound(d, e)
    ensures HasCycle(Outgoing(d.edges, NodeMap(d.nodes).Keys)) <==> Cyclic(d)
  {
    hide Successor, Follows, NodeMap, Outgoing, EdgeSound;
    var outgoing := Outgoing(d.edges, NodeMap(d.nodes).Keys);
    forall a, b ensures Successor(outgoing, a, b) <==> Follows(d.edges, a, b) {
      SuccessorIff(d, a, b);
    }
    forall path | Round(d.edges, path) ensures Cycle(outgoing, path) {
      RoundStarts(d, path);
    }
    forall path | Cycle(outgoing, path) ensures Round(d.edges, path) {
    }
  }

  lemma RoundStarts(d: Definition, path: seq<NodeId>)
    requires Round(d.edges, path) && forall e | e in d.edges :: EdgeSound(d, e)
    ensures path[0] in Outgoing(d.edges, NodeMap(d.nodes).Keys)
  {
    KnownIff(d, path[0]);
  }

  /* ---- Which error ---- */

  ghost predicate EdgesSound(d: Definition) {
    forall e | e in d.edges :: EdgeSound(d, e)
  }

  predicate NodesSound(d: Definition) {
    forall n | n in d.nodes :: NodeSound(d, n)
  }

  /** The edges before the k-th refer to known nodes, the k-th does not. */
  ghost predicate FirstBadEdge(d: Definition, k: int) {
    0 <= k < |d.edges| && !EdgeSound(d, d.edges[k]) && forall i :: 0 <= i < k ==> EdgeSound(d, d.edges[i])
  }

  predicate FirstBadNode(d: Definition, k: int) {
    0 <= k < |d.nodes| && !NodeSound(d, d.nodes[k]) && forall i :: 0 <= i < k ==> NodeSound(d, d.nodes[i])
  }

  /** The error a definition deserves: that of its first bad edge; else a missing terminal node; else that of
      its first bad node; else that of a cycle it may not have, or may not have without terminal conditions. */
  ghost predicate Deserves(d: Definition, error: CompileError) {
    match error
    case MissingSource => exists k :: FirstBadEdge(d, k) && !Known(d, d.edges[k].source)
    case MissingTarget => exists k :: FirstBadEdge(d, k) && Known(d, d.edges[k].source)
    case MissingTerminalNode => EdgesSound(d) && !TerminalsSound(d)
    case MergeWithoutInput =>
      EdgesSound(d) && TerminalsSound(d) && exists k :: FirstBadNode(d, k) && LacksInput(d, d.nodes[k])
    case GateWithoutApproval =>
      EdgesSound(d) && TerminalsSound(d) && exists k :: FirstBadNode(d, k) && LacksApproval(d.nodes[k])
    case QuorumTooLarge =>
      && EdgesSound(d) && TerminalsSound(d)
      && exists k :: FirstBadNode(d, k) && AsksTooMany(d, d.nodes[k]) && !LacksApproval(d.nodes[k])
    case CycleNotAllowed => EdgesSound(d) && TerminalsSound(d) && NodesSound(d) && Cyclic(d) && !d.allowCycles
    case CycleWithoutTerminal =>
      EdgesSound(d) && TerminalsSound(d) && NodesSound(d) && Cyclic(d) && d.allowCycles && d.terminals == []
  }

  lemma {:induction false} EdgeErrorIs(d: Definition, from: nat)
    requires from <= |d.edges| && forall i :: 0 <= i < from ==> EdgeSound(d, d.edges[i])
    ensures var error := CheckEdges(d.edges[from..], NodeMap(d.nodes).Keys);
            if error == None then EdgesSound(d)
            else exists k :: FirstBadEdge(d, k)
                   && error == Some(if Known(d, d.edges[k].source) then MissingTarget else MissingSource)
    decreases |d.edges| - from
  {
    hide Known, NodeMap;
    if from < |d.edges| {
      KnownIff(d, d.edges[from].source);
      KnownIff(d, d.edges[from].target);
      assert d.edges[from..][0] == d.edges[from] && d.edges[from..][1..] == d.edges[from + 1..];
      if EdgeSound(d, d.edges[from]) {
        EdgeErrorIs(d, from + 1);
      } else {
        assert FirstBadEdge(d, from);
      }
    }
  }

  lemma {:induction false} NodeErrorIs(d: Definition, from: nat)
    requires from <= |d.nodes| && forall i :: 0 <= i < from ==> NodeSound(d, d.nodes[i])
    ensures var error := CheckNodes(d.nodes[from..], d.edges);
            if error == None then NodesSound(d)
            else exists k :: FirstBadNode(d, k)
                   && error == Some(if LacksInput(d, d.nodes[k]) then MergeWithoutInput
                                    else if LacksApproval(d.nodes[k]) then GateWithoutApproval else QuorumTooLarge)
    decreases |d.nodes| - from
  {
    hide LacksInput, LacksApproval, AsksTooMany, CheckNode, EdgesTo;
    if from < |d.nodes| {
      NodeFaultIs(d, d.nodes[from]);
      assert d.nodes[from..][0] == d.nodes[from] && d.nodes[from..][1..] == d.nodes[from + 1..];
      if NodeSound(d, d.nodes[from]) {
        NodeErrorIs(d, from + 1);
      } else {
        assert FirstBadNode(d, from);
      }
    }
  }

  lemma TerminalErrorIs(d: Definition)
    ensures CheckTerminals(d.terminals, NodeMap(d.nodes).Keys) == if TerminalsSound(d) then None else Some(MissingTerminalNode)
  {
    CheckedTerminals(d.terminals, NodeMap(d.nodes).Keys);
    TerminalErrorOnly(d.terminals, NodeMap(d.nodes).Keys);
    forall n ensures n in NodeMap(d.nodes) <==> Known(d, n) {
      KnownIff(d, n);
    }
    forall t | t in d.terminals && t.NodeCompleted? ensures t == NodeCompleted(t.node) {
    }
  }

  lemma {:induction false} TerminalErrorOnly(terminals: seq<TerminalCondition>, ids: set<NodeId>)
    ensures CheckTerminals(terminals, ids) == None || CheckTerminals(terminals, ids) == Some(MissingTerminalNode)
  {
    if terminals != [] {
      TerminalErrorOnly(terminals[1..], ids);
    }
  }

  /** What every fault leads to, and what is left when there is none. */
  lemma CompileErrorIs(d: Definition)
    ensures match Compile(d)
            case Err(error) => Deserves(d, error)
            case Ok(_) => EdgesSound(d) && TerminalsSound(d) && NodesSound(d)
                          && (Cyclic(d) ==> d.allowCycles && d.terminals != [])
  {
    hide Known, EdgeSound, LacksInput, AsksTooMany, LacksApproval, NodeMap, HasCycle, Cyclic, CheckEdges, CheckNodes,
         CheckTerminals;
    assert d.edges[0..] == d.edges && d.nodes[0..] == d.nodes;
    EdgeErrorIs(d, 0);
    TerminalErrorIs(d);
    NodeErrorIs(d, 0);
    if EdgesSound(d) {
      CyclicIff(d);
    }
    QuorumIsLast(d);
  }

  lemma QuorumIsLast(d: Definition)
    ensures forall node :: !NodeSound(d, node) && !LacksInput(d, node) && !LacksApproval(node) ==> AsksTooMany(d, node)
  {
  }

  /** A definition deserves one error at most, and none exactly when it has no fault. */
  lemma DeservesOne(d: Definition, a: CompileError, b: CompileError)
    requires Deserves(d, a) && Deserves(d, b)
    ensures a == b
    ensures !(EdgesSound(d) && TerminalsSound(d) && NodesSound(d) && (Cyclic(d) ==> d.allowCycles && d.terminals != []))
  {
    hide Known, EdgeSound, LacksInput, LacksApproval, AsksTooMany, Cyclic;
    forall k | FirstBadEdge(d, k) ensures !EdgesSound(d) {
      assert d.edges[k] in d.edges;
    }
    forall k, l | FirstBadEdge(d, k) && FirstBadEdge(d, l) ensures k == l {
    }
    forall k | FirstBadNode(d, k)
      ensures !NodesSound(d)
      ensures !(LacksInput(d, d.nodes[k]) && LacksApproval(d.nodes[k]))
      ensures !(LacksInput(d, d.nodes[k]) && AsksTooMany(d, d.nodes[k]))
    {
      assert d.nodes[k] in d.nodes;
      OneFaultEach(d, d.nodes[k]);
    }
    forall k, l | FirstBadNode(d, k) && FirstBadNode(d, l) ensures k == l {
    }
  }

  lemma OneFaultEach(d: Definition, node: NodeSpec)
    ensures !(LacksInput(d, node) && LacksApproval(node)) && !(LacksInput(d, node) && AsksTooMany(d, node))
  {
    assert LacksInput(d, node) ==> InEdges(d.edges, node.nodeId) == {};
  }

  /** Compiling succeeds exactly on the definitions without a fault, and fails with exactly the error each
      fault deserves. */
  lemma CompileSucceedsIff(d: Definition)
    ensures Compile(d).Ok? <==>
              && EdgesSound(d) && TerminalsSound(d) && NodesSound(d)
              && (Cyclic(d) ==> d.allowCycles && d.terminals != [])
    ensures forall error :: Compile(d) == Err(error) <==> Deserves(d, error)
  {
    hide Compile, Deserves, EdgesSound, TerminalsSound, NodesSound, Cyclic;
    CompileErrorIs(d);
    forall error ensures Compile(d) == Err(error) <==> Deserves(d, error) {
      if Deserves(d, error) {
        DeservesOne(d, error, error);
        if Compile(d).Err? {
          DeservesOne(d, error, Compile(d).error);
        }
      }
    }
    if Compile(d).Err? {
      DeservesOne(d, Compile(d).error, Compile(d).error);
    }
  }

  /* ---- The compiled form ---- */

  lemma {:induction false} EdgesFilter(edges: seq<EdgeSpec>, n: NodeId)
    ensures Filters(EdgesTo(edges, n), edges, (e: EdgeSpec) => e.target == n)
    ensures Filters(EdgesFrom(edges, n), edges, (e: EdgeSpec) => e.source == n)
    decreases |edges|
  {
    hide Filters;
    var to, from := (e: EdgeSpec) => e.target == n, (e: EdgeSpec) => e.source == n;
    if edges == [] {
      FiltersNothing(to);
      FiltersNothing(from);
    } else {
      var k := |edges| - 1;
      EdgesFilter(edges[..k], n);
      assert edges == edges[..k] + [edges[k]];
      FiltersSnoc(EdgesTo(edges[..k], n), edges[..k], to, edges[k]);
      FiltersSnoc(EdgesFrom(edges[..k], n), edges[..k], from, edges[k]);
    }
  }

  lemma {:induction false} NodeMapHolds(nodes: seq<NodeSpec>, k: nat)
    requires k < |nodes| && forall i, j :: 0 <= i < j < |nodes| ==> nodes[i].nodeId != nodes[j].nodeId
    ensures nodes[k].nodeId in NodeMap(nodes) && NodeMap(nodes)[nodes[k].nodeId] == nodes[k]
    decreases |nodes|
  {
    var last := |nodes| - 1;
    if k < last {
      NodeMapHolds(nodes[..last], k);
      assert nodes[..last][k] == nodes[k];
    }
  }

  /** The compiled workflow carries the definition unchanged: its names, its nodes in their order, and for
      each node the edges into it and out of it, each once and in their order. */
  lemma CompiledCarries(d: Definition)
    requires d.Valid() && Compile(d).Ok?
    ensures var wf := Compile(d).value;
            && wf.workflowId == d.workflowId && wf.version == d.version && wf.entry == d.entry
            && wf.allowCycles == d.allowCycles && wf.terminals == d.terminals && (wf.containsCycles <==> Cyclic(d))
            && |wf.order| == |d.nodes| && wf.specs.Keys == wf.incoming.Keys == wf.outgoing.Keys
            && (forall k :: 0 <= k < |d.nodes| ==>
                  wf.order[k] == d.nodes[k].nodeId && wf.order[k] in wf.specs && wf.specs[wf.order[k]] == d.nodes[k])
            && (forall n | n in wf.specs ::
                  && Filters(wf.incoming[n], d.edges, (e: EdgeSpec) => e.target == n)
                  && Filters(wf.outgoing[n], d.edges, (e: EdgeSpec) => e.source == n))
  {
    hide Filters, Cyclic, EdgesTo, EdgesFrom, NodeMap;
    CompileErrorIs(d);
    CyclicIff(d);
    forall k | 0 <= k < |d.nodes| ensures d.nodes[k].nodeId in NodeMap(d.nodes) && NodeMap(d.nodes)[d.nodes[k].nodeId] == d.nodes[k] {
      NodeMapHolds(d.nodes, k);
    }
    forall n
      ensures Filters(EdgesTo(d.edges, n), d.edges, (e: EdgeSpec) => e.target == n)
      ensures Filters(EdgesFrom(d.edges, n), d.edges, (e: EdgeSpec) => e.source == n)
    {
      EdgesFilter(d.edges, n);
    }
  }
}
