/** Workflow definitions as authors write them, and the compiled form the runtime uses. */
module Workflow {
  import opened Common
  import opened JsonValues
  import opened Models

  datatype NodeType = AgentNode | ToolNode | RouterNode | MergeNode | ConditionNode | HumanGate | NoopNode

  /** The constructor rejects a quorum below one. */
  type Quorum = q: int | q > 0 witness 1

  datatype JoinPolicy = AllSuccess | AnySuccess | AllDone | AtLeast(quorum: Quorum)

  datatype EdgeCondition =
    | Always
    | FieldEquals(path: seq<string>, expected: Json)
    | FieldExists(operand: seq<string>)
    | ActionIs(action: PolicyAction)
    | CustomEdge

  datatype TerminalCondition = AllTerminal | NodeCompleted(node: NodeId) | AnyFatalFailure | CustomTerminal

  /** `approval` is `Some(required)` when the node has an approval policy; `binds` says whether its
      output is stored as an artifact. */
  datatype NodeSpec = NodeSpec(
    nodeId: NodeId, nodeType: NodeType, join: Option<JoinPolicy>, approval: Option<bool>, binds: bool)
  {
    predicate RequiredGate() { nodeType == HumanGate && approval == Some(true) }
  }

  datatype EdgeSpec = EdgeSpec(edgeId: Id, source: NodeId, target: NodeId, condition: Option<EdgeCondition>) {
    predicate Unconditional() { condition == None || condition == Some(Always) }
  }

  datatype Definition = Definition(
    workflowId: Id, version: Id, entry: NodeId, nodes: seq<NodeSpec>, edges: seq<EdgeSpec>,
    allowCycles: bool, terminals: seq<TerminalCondition>)
  {
    /** The checks of the constructor. */
    ghost predicate Valid() {
      && (forall i, j :: 0 <= i < j < |nodes| ==> nodes[i].nodeId != nodes[j].nodeId)
      && (exists n :: n in nodes && n.nodeId == entry)
      && (forall i, j :: 0 <= i < j < |edges| ==> edges[i].edgeId != edges[j].edgeId)
    }
  }

  /** `order` is the iteration order of the node map. */
  datatype Compiled = Compiled(
    workflowId: Id, version: Id, entry: NodeId,
    order: seq<NodeId>, specs: map<NodeId, NodeSpec>,
    outgoing: map<NodeId, seq<EdgeSpec>>, incoming: map<NodeId, seq<EdgeSpec>>,
    allowCycles: bool, containsCycles: bool, terminals: seq<TerminalCondition>)

  /* ---- Graphs ---- */

  type Graph = map<NodeId, seq<EdgeSpec>>

  ghost predicate Successor(outgoing: Graph, a: NodeId, b: NodeId) {
    a in outgoing && exists e :: e in outgoing[a] && e.target == b
  }

  /** Every edge stays inside the node map. */
  ghost predicate Closed(outgoing: Graph) {
    forall a, e | a in outgoing && e in outgoing[a] :: e.target in outgoing
  }

  /** A nonempty list of nodes in which each one follows its predecessor. */
  ghost predicate Walk(outgoing: Graph, path: seq<NodeId>) {
    && path != []
    && path[0] in outgoing
    && forall i :: 0 <= i < |path| - 1 ==> Successor(outgoing, path[i], path[i + 1])
  }

  ghost predicate Cycle(outgoing: Graph, path: seq<NodeId>) {
    Walk(outgoing, path) && Successor(outgoing, path[|path| - 1], path[0])
  }

  ghost predicate HasCycle(outgoing: Graph) {
    exists path :: Cycle(outgoing, path)
  }
}
