/** The frontier scheduler: what the run should do next. */
module Scheduler {
  import opened Lists
  import opened Models
  import opened Workflow
  import opened Selector

  /** The constructor rejects a limit below one. */
  type Slots = n: int | n > 0 witness 1

  datatype QueuePolicy = Fifo | Priority

  datatype SchedulerConfig = SchedulerConfig(maxParallel: Slots, queue: QueuePolicy, deadlockDetection: bool)

  datatype WaitReason = OpenNodes | ParallelismLimit | DetectionDisabled

  datatype Decision = Dispatch(nodes: seq<NodeId>) | Complete | Interrupt | Wait(reason: WaitReason) | Fail

  function Position(frontier: seq<NodeId>, n: NodeId): nat {
    if frontier == [] || frontier[0] == n then 0 else 1 + Position(frontier[1..], n)
  }

  /** By name, or by place in the frontier and then by name. */
  predicate Before(config: SchedulerConfig, frontier: seq<NodeId>, a: NodeId, b: NodeId) {
    if config.queue == Priority then a.rank <= b.rank
    else
      var pa, pb := Position(frontier, a), Position(frontier, b);
      pa < pb || (pa == pb && a.rank <= b.rank)
  }

  function OrderReady(config: SchedulerConfig, frontier: seq<NodeId>, ready: seq<NodeId>): (r: seq<NodeId>)
  {
    Sort((a, b) => Before(config, frontier, a, b), ready)
  }

  function Decide(config: SchedulerConfig, s: Snapshot, wf: Compiled): Decision {
    var ready := OrderReady(config, s.runState.frontier, ReadyAmong(s, wf, wf.order));
    var slots := if config.maxParallel > |s.runState.active| then config.maxParallel - |s.runState.active| else 0;
    if ready != [] && slots > 0 then Dispatch(ready[..if slots <= |ready| then slots else |ready|])
    else if TerminalConditionMet(s, wf) then Complete
    else if s.runState.pendingInterrupts != [] then Interrupt
    else if s.runState.active != [] || s.runState.waiting != [] || s.runState.blocked != [] then Wait(OpenNodes)
    else if ready != [] && slots == 0 then Wait(ParallelismLimit)
    else if !config.deadlockDetection then Wait(DetectionDisabled)
    else Fail
  }

  lemma OrderReadySorts(config: SchedulerConfig, frontier: seq<NodeId>, ready: seq<NodeId>)
    ensures var r := OrderReady(config, frontier, ready);
            && (forall n :: n in r <==> n in ready)
            && (Unique(ready) ==> Unique(r))
            && (forall i, j :: 0 <= i < j < |r| ==> Before(config, frontier, r[i], r[j]))
  {
    var le := (a, b) => Before(config, frontier, a, b);
    SortMembers(le, ready);
    SortSorted(le, ready);
    var r := OrderReady(config, frontier, ready);
    forall i, j | 0 <= i < j < |r| ensures Before(config, frontier, r[i], r[j]) {
      assert le(Sort(le, ready)[i], Sort(le, ready)[j]);
    }
  }

  /** A dispatch takes distinct ready nodes, never more than the limit, and first ones first. */
  lemma DispatchTakesReady(config: SchedulerConfig, s: Snapshot, wf: Compiled)
    requires Unique(wf.order) && Decide(config, s, wf).Dispatch?
    ensures var nodes := Decide(config, s, wf).nodes;
            && nodes != [] && Unique(nodes) && |nodes| <= config.maxParallel
            && (forall n | n in nodes :: n in wf.order && IsReady(s, wf, n))
            && (forall a, b | a in nodes && b in wf.order && IsReady(s, wf, b) && b !in nodes ::
                  Before(config, s.runState.frontier, a, b))
  {
    var ready := ReadyAmong(s, wf, wf.order);
    ReadyMembers(s, wf, wf.order);
    OrderReadySorts(config, s.runState.frontier, ready);
    var nodes := Decide(config, s, wf).nodes;
    PrefixIsFirst(config, s.runState.frontier, OrderReady(config, s.runState.frontier, ready), |nodes|);
  }

  lemma PrefixIsFirst(config: SchedulerConfig, frontier: seq<NodeId>, sorted: seq<NodeId>, k: nat)
    requires k <= |sorted| && Unique(sorted)
    requires forall i, j :: 0 <= i < j < |sorted| ==> Before(config, frontier, sorted[i], sorted[j])
    ensures Unique(sorted[..k]) && forall n | n in sorted[..k] :: n in sorted
    ensures forall a, b | a in sorted[..k] && b in sorted && b !in sorted[..k] :: Before(config, frontier, a, b)
  {
    forall a, b | a in sorted[..k] && b in sorted && b !in sorted[..k] ensures Before(config, frontier, a, b) {
      var i :| 0 <= i < k && sorted[i] == a;
      var j :| 0 <= j < |sorted| && sorted[j] == b;
      assert j < k ==> sorted[..k][j] == b;
    }
  }

  /** With nothing active the scheduler stops only when no node is ready, so the limit never idles a run. */
  lemma StopsOnlyWhenNothingReady(config: SchedulerConfig, s: Snapshot, wf: Compiled)
    requires s.runState.active == []
    ensures Decide(config, s, wf).Dispatch? <==> exists n :: n in wf.order && IsReady(s, wf, n)
    ensures Decide(config, s, wf) != Wait(ParallelismLimit)
  {
    var ready := ReadyAmong(s, wf, wf.order);
    ReadyMembers(s, wf, wf.order);
    OrderReadySorts(config, s.runState.frontier, ready);
    var sorted := OrderReady(config, s.runState.frontier, ready);
    assert ready != [] ==> ready[0] in sorted;
    assert sorted != [] ==> sorted[0] in ready;
  }
}
