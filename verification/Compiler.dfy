/** The compiler: edge indexes, structural checks, cycle detection and the compile cache. */
module Compiler {
  import opened Common
  import opened Lists
  import opened Models
  import opened Workflow

  datatype CompileError =
    | MissingSource | MissingTarget | MissingTerminalNode
    | MergeWithoutInput | GateWithoutApproval | QuorumTooLarge
    | CycleNotAllowed | CycleWithoutTerminal

  /* ---- Meaning of compilation ---- */

  function NodeIds(nodes: seq<NodeSpec>): (r: seq<NodeId>)
    ensures |r| == |nodes| && forall i :: 0 <= i < |r| ==> r[i] == nodes[i].nodeId
  {
    seq(|nodes|, i requires 0 <= i < |nodes| => nodes[i].nodeId)
  }

  function NodeMap(nodes: seq<NodeSpec>): (r: map<NodeId, NodeSpec>)
    ensures forall n :: n in r <==> n in NodeIds(nodes)
    ensures forall n | n in r :: r[n] in nodes && r[n].nodeId == n
  {
    if nodes == [] then map[]
    else
      var init, last := nodes[..|nodes| - 1], nodes[|nodes| - 1];
      assert NodeIds(nodes) == NodeIds(init) + [last.nodeId];
      NodeMap(init)[last.nodeId := last]
  }

  function EdgesFrom(edges: seq<EdgeSpec>, n: NodeId): seq<EdgeSpec> {
    if edges == [] then []
    else if edges[|edges| - 1].source == n then EdgesFrom(edges[..|edges| - 1], n) + [edges[|edges| - 1]]
    else EdgesFrom(edges[..|edges| - 1], n)
  }

  function EdgesTo(edges: seq<EdgeSpec>, n: NodeId): seq<EdgeSpec> {
    if edges == [] then []
    else if edges[|edges| - 1].target == n then EdgesTo(edges[..|edges| - 1], n) + [edges[|edges| - 1]]
    else EdgesTo(edges[..|edges| - 1], n)
  }

  lemma {:induction false} EdgesOf(edges: seq<EdgeSpec>, n: NodeId)
    ensures forall e :: e in EdgesFrom(edges, n) <==> e in edges && e.source == n
    ensures forall e :: e in EdgesTo(edges, n) <==> e in edges && e.target == n
    decreases |edges|
  {
    if edges != [] {
      var k := |edges| - 1;
      EdgesOf(edges[..k], n);
      assert edges == edges[..k] + [edges[k]];
    }
  }

  function Outgoing(edges: seq<EdgeSpec>, ids: set<NodeId>): Graph {
    map n | n in ids :: EdgesFrom(edges, n)
  }

  function Incoming(edges: seq<EdgeSpec>, ids: set<NodeId>): Graph {
    map n | n in ids :: EdgesTo(edges, n)
  }

  function CheckEdges(edges: seq<EdgeSpec>, ids: set<NodeId>): Option<CompileError> {
    if edges == [] then None
    else if edges[0].source !in ids then Some(MissingSource)
    else if edges[0].target !in ids then Some(MissingTarget)
    else CheckEdges(edges[1..], ids)
  }

  function CheckTerminals(terminals: seq<TerminalCondition>, ids: set<NodeId>): Option<CompileError> {
    if terminals == [] then None
    else if terminals[0].NodeCompleted? && terminals[0].node !in ids then Some(MissingTerminalNode)
    else CheckTerminals(terminals[1..], ids)
  }

  function CheckNode(node: NodeSpec, incoming: seq<EdgeSpec>): Option<CompileError> {
    if node.nodeType == MergeNode && incoming == [] then Some(MergeWithoutInput)
    else if node.nodeType == HumanGate && node.approval == None then Some(GateWithoutApproval)
    else if node.join.Some? && node.join.value.AtLeast? && incoming != [] && node.join.value.quorum > |incoming| then
      Some(QuorumTooLarge)
    else None
  }

  function CheckNodes(nodes: seq<NodeSpec>, edges: seq<EdgeSpec>): Option<CompileError> {
    if nodes == [] then None
    else
      var here := CheckNode(nodes[0], EdgesTo(edges, nodes[0].nodeId));
      if here.Some? then here else CheckNodes(nodes[1..], edges)
  }

  ghost function Compile(d: Definition): Result<Compiled, CompileError> {
    var specs := NodeMap(d.nodes);
    var outgoing := Outgoing(d.edges, specs.Keys);
    var edgeError, terminalError, nodeError :=
      CheckEdges(d.edges, specs.Keys), CheckTerminals(d.terminals, specs.Keys), CheckNodes(d.nodes, d.edges);
    if edgeError.Some? then Err(edgeError.value)
    else if terminalError.Some? then Err(terminalError.value)
    else if nodeError.Some? then Err(nodeError.value)
    else if HasCycle(outgoing) && !d.allowCycles then Err(CycleNotAllowed)
    else if HasCycle(outgoing) && d.terminals == [] then Err(CycleWithoutTerminal)
    else
      Ok(Compiled(d.workflowId, d.version, d.entry, NodeIds(d.nodes), specs, outgoing,
                  Incoming(d.edges, specs.Keys), d.allowCycles, HasCycle(outgoing), d.terminals))
  }

  /* ---- Cycle detection ---- */

  /** Depth-first search with its two node sets. `finished` lists the visited nodes in the order their
      visits ended. */
  class CycleSearch {
    const outgoing: Graph
    var visiting: set<NodeId>
    var visited: set<NodeId>
    ghost var finished: seq<NodeId>

    constructor (outgoing: Graph)
      ensures this.outgoing == outgoing && visiting == {} && visited == {} && finished == []
    {
      this.outgoing := outgoing;
      visiting, visited, finished := {}, {}, [];
    }

    ghost predicate Valid()
      reads this
    {
      && visited == ToSet(finished)
      && visited !! visiting
      && visiting <= outgoing.Keys
      && FinishOrder(outgoing, finished)
    }

    /** Visits `n`, reached along `stack`. A true answer comes with a cycle; after a false one `n` is
        finished, and so is everything it leads to. */
    method Visit(n: NodeId, ghost stack: seq<NodeId>) returns (found: bool, ghost cycle: seq<NodeId>)
      requires Valid() && Closed(outgoing) && n in outgoing
      requires visiting == ToSet(stack) && (stack != [] ==> Walk(outgoing, stack))
      requires stack != [] ==> Successor(outgoing, stack[|stack| - 1], n)
      modifies this
      ensures found ==> Cycle(outgoing, cycle)
      ensures !found ==> Valid() && visiting == old(visiting) && old(finished) <= finished && n in visited
      decreases |outgoing.Keys - visiting|, 0
    {
      cycle := [];
      if n in visiting {
        cycle := CloseCycle(outgoing, stack, n);
        return true, cycle;
      }
      if n in visited {
        return false, cycle;
      }
      visiting := visiting + {n};
      ExtendWalk(outgoing, stack, n);
      OneFewer(outgoing.Keys, old(visiting), n);
      found, cycle := VisitSuccessors(n, stack + [n]);
      if found {
        return;
      }
      FinishOneMore(outgoing, finished, n);
      PushPop(old(visiting), n);
      visiting, visited, finished := visiting - {n}, visited + {n}, finished + [n];
    }

    /** The loop over the outgoing edges of the node on top of the stack. */
    method VisitSuccessors(n: NodeId, ghost stack: seq<NodeId>) returns (found: bool, ghost cycle: seq<NodeId>)
      requires Valid() && Closed(outgoing)
      requires visiting == ToSet(stack) && Walk(outgoing, stack) && stack[|stack| - 1] == n && n in outgoing
      modifies this
      ensures found ==> Cycle(outgoing, cycle)
      ensures !found ==> Valid() && visiting == old(visiting) && old(finished) <= finished
      ensures !found ==> forall e | e in outgoing[n] :: e.target in visited
      decreases |outgoing.Keys - visiting|, 1
    {
      cycle := [];
      var edges := outgoing[n];
      for i := 0 to |edges|
        invariant Valid() && visiting == old(visiting) && old(finished) <= finished
        invariant forall k :: 0 <= k < i ==> edges[k].target in visited
      {
        assert edges[i] in outgoing[n];
        found, cycle := Visit(edges[i].target, stack);
        if found {
          return;
        }
      }
      return false, cycle;
    }
  }

  lemma PushPop(nodes: set<NodeId>, n: NodeId)
    requires n !in nodes
    ensures nodes + {n} - {n} == nodes
  {
  }

  lemma OneFewer(all: set<NodeId>, nodes: set<NodeId>, n: NodeId)
    requires n in all && n !in nodes
    ensures all - (nodes + {n}) < all - nodes
  {
    assert n in all - nodes && n !in all - (nodes + {n});
  }

  lemma ExtendWalk(outgoing: Graph, stack: seq<NodeId>, n: NodeId)
    requires stack != [] ==> Walk(outgoing, stack) && Successor(outgoing, stack[|stack| - 1], n)
    requires n in outgoing
    ensures Walk(outgoing, stack + [n]) && ToSet(stack + [n]) == ToSet(stack) + {n}
  {
    var path := stack + [n];
    forall k | 0 <= k < |path| - 1 ensures Successor(outgoing, path[k], path[k + 1]) {
      if k + 1 < |stack| {
        assert Successor(outgoing, stack[k], stack[k + 1]);
      }
    }
    assert forall x :: x in path <==> x in stack || x == n;
  }

  /** Meeting a node of the current stack again closes a cycle. */
  lemma CloseCycle(outgoing: Graph, stack: seq<NodeId>, n: NodeId) returns (cycle: seq<NodeId>)
    requires n in stack && Walk(outgoing, stack) && Successor(outgoing, stack[|stack| - 1], n) && n in outgoing
    ensures Cycle(outgoing, cycle)
  {
    var i :| 0 <= i < |stack| && stack[i] == n;
    cycle := stack[i..];
    forall k | 0 <= k < |cycle| - 1 ensures Successor(outgoing, cycle[k], cycle[k + 1]) {
      var m := i + k;
      assert Successor(outgoing, stack[m], stack[m + 1]);
    }
  }

  /** Every successor of a finished node finished before it. */
  ghost predicate FinishOrder(outgoing: Graph, order: seq<NodeId>) {
    order == []
    || var earlier, n := order[..|order| - 1], order[|order| - 1];
       FinishOrder(outgoing, earlier) && forall b :: Successor(outgoing, n, b) ==> b in earlier
  }

  lemma FinishOneMore(outgoing: Graph, order: seq<NodeId>, n: NodeId)
    requires FinishOrder(outgoing, order)
    requires n in outgoing && forall e | e in outgoing[n] :: e.target in order
    ensures FinishOrder(outgoing, order + [n])
    ensures ToSet(order + [n]) == ToSet(order) + {n}
  {
    var longer := order + [n];
    assert longer[..|longer| - 1] == order;
    assert forall x :: x in longer <==> x in order || x == n;
  }

  function IndexOf(order: seq<NodeId>, n: NodeId): (k: nat)
    requires n in order
    ensures k < |order| && order[k] == n && n !in order[..k]
  {
    if order[0] == n then 0
    else
      assert order == [order[0]] + order[1..];
      var k := 1 + IndexOf(order[1..], n);
      assert order[..k] == [order[0]] + order[1..][..k - 1];
      k
  }

  lemma {:induction false} IndexOfPrefix(order: seq<NodeId>, k: nat, n: NodeId)
    requires k <= |order| && n in order[..k]
    ensures n in order && IndexOf(order, n) == IndexOf(order[..k], n)
  {
    var i, j := IndexOf(order[..k], n), IndexOf(order, n);
    assert order[i] == n && order[..k][j..] == order[j..k];
    assert order[..k][..i] == order[..i];
  }

  /** An edge leads to a node that finished earlier: the false answer comes with a rank. */
  lemma {:induction false} EdgeLowersRank(outgoing: Graph, order: seq<NodeId>, a: NodeId, b: NodeId)
    requires FinishOrder(outgoing, order) && a in order && Successor(outgoing, a, b)
    ensures b in order && IndexOf(order, b) < IndexOf(order, a)
    decreases |order|
  {
    var k := |order| - 1;
    assert order == order[..k] + [order[k]];
    if a in order[..k] {
      EdgeLowersRank(outgoing, order[..k], a, b);
      IndexOfPrefix(order, k, a);
    }
    IndexOfPrefix(order, k, b);
  }

  lemma {:induction false} WalkLowersRank(outgoing: Graph, order: seq<NodeId>, path: seq<NodeId>, i: nat)
    requires FinishOrder(outgoing, order) && outgoing.Keys <= ToSet(order)
    requires Walk(outgoing, path) && i < |path|
    ensures path[i] in order && IndexOf(order, path[i]) + i <= IndexOf(order, path[0])
  {
    if i > 0 {
      WalkLowersRank(outgoing, order, path, i - 1);
      assert Successor(outgoing, path[i - 1], path[i - 1 + 1]);
      EdgeLowersRank(outgoing, order, path[i - 1], path[i]);
    }
  }

  lemma FinishOrderExcludesCycles(outgoing: Graph, order: seq<NodeId>)
    requires FinishOrder(outgoing, order) && outgoing.Keys <= ToSet(order)
    ensures !HasCycle(outgoing)
  {
    forall path | Walk(outgoing, path) ensures !Cycle(outgoing, path) {
      if Cycle(outgoing, path) {
        var last := path[|path| - 1];
        assert last in order && path[0] in order;
        EdgeLowersRank(outgoing, order, last, path[0]);
        WalkLowersRank(outgoing, order, path, |path| - 1);
      }
    }
  }

  method ContainsCycle(order: seq<NodeId>, outgoing: Graph) returns (found: bool)
    requires outgoing.Keys == ToSet(order) && Closed(outgoing)
    ensures found <==> HasCycle(outgoing)
  {
    var search := new CycleSearch(outgoing);
    for i := 0 to |order|
      invariant search.outgoing == outgoing && search.Valid() && search.visiting == {} && fresh(search)
      invariant forall k :: 0 <= k < i ==> order[k] in search.visited
    {
      var inner, _ := search.Visit(order[i], []);
      if inner {
        return true;
      }
    }
    FinishOrderExcludesCycles(outgoing, search.finished);
    return false;
  }

  /* ---- The compiler and its cache ---- */

  lemma {:induction false} CheckedEdges(edges: seq<EdgeSpec>, ids: set<NodeId>)
    ensures CheckEdges(edges, ids) == None <==> forall e | e in edges :: e.source in ids && e.target in ids
  {
    if edges != [] {
      CheckedEdges(edges[1..], ids);
      assert forall e :: e in edges <==> e == edges[0] || e in edges[1..];
    }
  }

  lemma OutgoingClosed(edges: seq<EdgeSpec>, ids: set<NodeId>)
    requires CheckEdges(edges, ids) == None
    ensures Closed(Outgoing(edges, ids))
  {
    CheckedEdges(edges, ids);
    forall n ensures forall e | e in EdgesFrom(edges, n) :: e.target in ids {
      EdgesOf(edges, n);
    }
  }

  lemma {:induction false} CheckedNodes(nodes: seq<NodeSpec>, edges: seq<EdgeSpec>)
    ensures CheckNodes(nodes, edges) == None
            <==> forall n | n in nodes :: CheckNode(n, EdgesTo(edges, n.nodeId)) == None
  {
    if nodes != [] {
      CheckedNodes(nodes[1..], edges);
      assert forall n :: n in nodes <==> n == nodes[0] || n in nodes[1..];
    }
  }

  lemma {:induction false} CheckedTerminals(terminals: seq<TerminalCondition>, ids: set<NodeId>)
    ensures CheckTerminals(terminals, ids) == None
            <==> forall t | t in terminals && t.NodeCompleted? :: t.node in ids
  {
    if terminals != [] {
      CheckedTerminals(terminals[1..], ids);
      assert forall t :: t in terminals <==> t == terminals[0] || t in terminals[1..];
    }
  }

  method IndexEdges(edges: seq<EdgeSpec>, specs: map<NodeId, NodeSpec>)
      returns (error: Option<CompileError>, outgoing: Graph, incoming: Graph)
    ensures error == CheckEdges(edges, specs.Keys)
    ensures error == None ==> outgoing == Outgoing(edges, specs.Keys) && incoming == Incoming(edges, specs.Keys)
  {
    outgoing := map n | n in specs :: [];
    incoming := map n | n in specs :: [];
    for i := 0 to |edges|
      invariant CheckEdges(edges, specs.Keys) == CheckEdges(edges[i..], specs.Keys)
      invariant outgoing == Outgoing(edges[..i], specs.Keys) && incoming == Incoming(edges[..i], specs.Keys)
    {
      var edge := edges[i];
      assert edges[i..][0] == edge && edges[i..][1..] == edges[i + 1..];
      assert edges[..i + 1][..i] == edges[..i];
      if edge.source !in specs {
        return Some(MissingSource), outgoing, incoming;
      }
      if edge.target !in specs {
        return Some(MissingTarget), outgoing, incoming;
      }
      outgoing := outgoing[edge.source := outgoing[edge.source] + [edge]];
      incoming := incoming[edge.target := incoming[edge.target] + [edge]];
    }
    assert edges[..|edges|] == edges;
    error := None;
  }

  method ValidateTerminals(terminals: seq<TerminalCondition>, specs: map<NodeId, NodeSpec>)
      returns (error: Option<CompileError>)
    ensures error == CheckTerminals(terminals, specs.Keys)
  {
    for i := 0 to |terminals|
      invariant CheckTerminals(terminals, specs.Keys) == CheckTerminals(terminals[i..], specs.Keys)
    {
      if terminals[i].NodeCompleted? && terminals[i].node !in specs {
        return Some(MissingTerminalNode);
      }
    }
    return None;
  }

  method ValidateNodes(nodes: seq<NodeSpec>, edges: seq<EdgeSpec>, incoming: Graph)
      returns (error: Option<CompileError>)
    requires forall n | n in nodes :: n.nodeId in incoming && incoming[n.nodeId] == EdgesTo(edges, n.nodeId)
    ensures error == CheckNodes(nodes, edges)
  {
    for i := 0 to |nodes|
      invariant CheckNodes(nodes, edges) == CheckNodes(nodes[i..], edges)
    {
      var node := nodes[i];
      var sources := incoming[node.nodeId];
      if node.nodeType == MergeNode && sources == [] {
        return Some(MergeWithoutInput);
      }
      if node.nodeType == HumanGate && node.approval == None {
        return Some(GateWithoutApproval);
      }
      if node.join.Some? && node.join.value.AtLeast? && sources != [] && node.join.value.quorum > |sources| {
        return Some(QuorumTooLarge);
      }
    }
    return None;
  }

  method MaterializeNodeMap(nodes: seq<NodeSpec>) returns (specs: map<NodeId, NodeSpec>)
    ensures specs == NodeMap(nodes)
  {
    specs := map[];
    for i := 0 to |nodes|
      invariant specs == NodeMap(nodes[..i])
    {
      assert nodes[..i + 1][..i] == nodes[..i];
      specs := specs[nodes[i].nodeId := nodes[i]];
    }
    assert nodes[..|nodes|] == nodes;
  }

  /** Compiles from scratch. */
  method CompileDefinition(d: Definition) returns (r: Result<Compiled, CompileError>)
    requires d.Valid()
    ensures r == Compile(d)
  {
    var specs := MaterializeNodeMap(d.nodes);
    var edgeError, outgoing, incoming := IndexEdges(d.edges, specs);
    if edgeError.Some? {
      return Err(edgeError.value);
    }
    var terminalError := ValidateTerminals(d.terminals, specs);
    if terminalError.Some? {
      return Err(terminalError.value);
    }
    NodesAreMapped(d.nodes);
    var nodeError := ValidateNodes(d.nodes, d.edges, incoming);
    if nodeError.Some? {
      return Err(nodeError.value);
    }
    OutgoingClosed(d.edges, specs.Keys);
    var containsCycles := ContainsCycle(NodeIds(d.nodes), outgoing);
    if containsCycles && !d.allowCycles {
      return Err(CycleNotAllowed);
    }
    if containsCycles && d.terminals == [] {
      return Err(CycleWithoutTerminal);
    }
    return Ok(Compiled(d.workflowId, d.version, d.entry, NodeIds(d.nodes), specs, outgoing, incoming,
                       d.allowCycles, containsCycles, d.terminals));
  }

  lemma NodesAreMapped(nodes: seq<NodeSpec>)
    ensures forall n | n in nodes :: n.nodeId in NodeMap(nodes)
    ensures NodeMap(nodes).Keys == ToSet(NodeIds(nodes))
  {
    forall n | n in nodes ensures n.nodeId in NodeMap(nodes) {
      var k :| 0 <= k < |nodes| && nodes[k] == n;
      assert NodeIds(nodes)[k] == n.nodeId;
    }
  }

  class WorkflowCompiler {
    var cache: map<(Id, Id), Compiled>

    constructor ()
      ensures cache == map[]
    {
      cache := map[];
    }

    /** A cached result is returned as it is, whatever the definition says now. */
    method Run(d: Definition, useCache: bool) returns (r: Result<Compiled, CompileError>)
      requires d.Valid()
      modifies this
      ensures useCache && (d.workflowId, d.version) in old(cache) ==>
        r == Ok(old(cache)[(d.workflowId, d.version)]) && cache == old(cache)
      ensures !(useCache && (d.workflowId, d.version) in old(cache)) ==>
        && r == Compile(d)
        && cache == if useCache && r.Ok? then old(cache)[(d.workflowId, d.version) := r.value] else old(cache)
    {
      var key := (d.workflowId, d.version);
      if useCache && key in cache {
        return Ok(cache[key]);
      }
      r := CompileDefinition(d);
      if useCache && r.Ok? {
        cache := cache[key := r.value];
      }
    }

    /** Drops one version, or every version when none is given. */
    method Invalidate(workflowId: Id, version: Option<Id>)
      modifies this
      ensures forall k :: k in cache <==>
        k in old(cache) && !(k.0 == workflowId && (version.Some? ==> k.1 == version.value))
      ensures forall k | k in cache :: cache[k] == old(cache)[k]
    {
      cache := map k | k in cache && !(k.0 == workflowId && (version.Some? ==> k.1 == version.value)) :: cache[k];
    }
  }

  /* ---- What the runtime may rely on ---- */

  ghost predicate SameEdges(outgoing: Graph, incoming: Graph) {
    && incoming.Keys == outgoing.Keys
    && (forall n, e | n in incoming ::
          e in incoming[n] <==> e.target == n && e.source in outgoing && e in outgoing[e.source])
    && (forall n, e | n in outgoing && e in outgoing[n] :: e.source == n && e.target in outgoing)
  }

  ghost predicate QuorumsReachable(specs: map<NodeId, NodeSpec>, incoming: Graph) {
    forall n | n in specs && n in incoming && incoming[n] != [] ::
      specs[n].join.Some? && specs[n].join.value.AtLeast? ==> specs[n].join.value.quorum <= |incoming[n]|
  }

  /** Both edge indexes list the same edges, quorums can be reached, and cycles are flagged exactly. */
  ghost predicate WellCompiled(wf: Compiled) {
    && Unique(wf.order)
    && wf.specs.Keys == ToSet(wf.order) == wf.incoming.Keys == wf.outgoing.Keys
    && wf.entry in wf.specs
    && (forall n | n in wf.specs :: wf.specs[n].nodeId == n)
    && SameEdges(wf.outgoing, wf.incoming)
    && QuorumsReachable(wf.specs, wf.incoming)
    && (wf.containsCycles <==> HasCycle(wf.outgoing))
    && (wf.containsCycles ==> wf.allowCycles && wf.terminals != [])
    && (forall t | t in wf.terminals && t.NodeCompleted? :: t.node in wf.specs)
  }

  lemma IndexesListSameEdges(edges: seq<EdgeSpec>, ids: set<NodeId>)
    requires CheckEdges(edges, ids) == None
    ensures SameEdges(Outgoing(edges, ids), Incoming(edges, ids))
  {
    CheckedEdges(edges, ids);
    forall n ensures forall e :: e in EdgesFrom(edges, n) <==> e in edges && e.source == n {
      EdgesOf(edges, n);
    }
    forall n ensures forall e :: e in EdgesTo(edges, n) <==> e in edges && e.target == n {
      EdgesOf(edges, n);
    }
    SameEdgesOf(edges, Outgoing(edges, ids), Incoming(edges, ids));
  }

  lemma SameEdgesOf(edges: seq<EdgeSpec>, outgoing: Graph, incoming: Graph)
    requires incoming.Keys == outgoing.Keys
    requires forall e | e in edges :: e.source in outgoing && e.target in outgoing
    requires forall n | n in outgoing :: forall e :: e in outgoing[n] <==> e in edges && e.source == n
    requires forall n | n in incoming :: forall e :: e in incoming[n] <==> e in edges && e.target == n
    ensures SameEdges(outgoing, incoming)
  {
  }

  lemma EntryCompiled(d: Definition)
    requires d.Valid()
    ensures d.entry in NodeMap(d.nodes) && Unique(NodeIds(d.nodes))
  {
    var n :| n in d.nodes && n.nodeId == d.entry;
    var k :| 0 <= k < |d.nodes| && d.nodes[k] == n;
    assert NodeIds(d.nodes)[k] == d.entry;
  }

  lemma CheckedQuorums(d: Definition)
    requires CheckNodes(d.nodes, d.edges) == None
    ensures QuorumsReachable(NodeMap(d.nodes), Incoming(d.edges, NodeMap(d.nodes).Keys))
  {
    CheckedNodes(d.nodes, d.edges);
    var specs := NodeMap(d.nodes);
    forall n | n in specs ensures CheckNode(specs[n], EdgesTo(d.edges, n)) == None {
      assert specs[n] in d.nodes;
    }
  }

  lemma CompileIsWellCompiled(d: Definition)
    requires d.Valid() && Compile(d).Ok?
    ensures WellCompiled(Compile(d).value)
  {
    var wf := Compile(d).value;
    EntryCompiled(d);
    NodesAreMapped(d.nodes);
    IndexesListSameEdges(d.edges, wf.specs.Keys);
    CheckedQuorums(d);
    CheckedTerminals(d.terminals, wf.specs.Keys);
  }
}
