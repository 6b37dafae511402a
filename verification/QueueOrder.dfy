/** The order a dispatch follows and how much it takes, told by node names and the stored frontier. */
module QueueOrder {
  import opened Lists
  import opened Models
  import opened Workflow
  import opened Compiler
  import opened ReducerFacts
  import opened Selector
  import opened Scheduler
  import opened RunMachine
  import opened RunInvariant
  import opened Readiness

  /** `a` may stand before `b`: by name, or by the frontier, whose nodes come first, and then by name. */
  ghost predicate InTurn(policy: QueuePolicy, frontier: seq<NodeId>, a: NodeId, b: NodeId) {
    match policy
    case Priority => a.rank <= b.rank
    case Fifo =>
      && (forall y :: 0 <= y < |frontier| && frontier[y] == b ==> exists x :: 0 <= x <= y && frontier[x] == a)
      && (a !in frontier && b !in frontier ==> a.rank <= b.rank)
  }

  lemma {:induction false} PositionIs(frontier: seq<NodeId>, n: NodeId)
    requires Unique(frontier)
    ensures n !in frontier ==> Position(frontier, n) == |frontier|
    ensures forall y :: 0 <= y < |frontier| && frontier[y] == n ==> Position(frontier, n) == y
  {
    if frontier != [] {
      PositionIs(frontier[1..], n);
      forall y | 0 <= y < |frontier| && frontier[y] == n ensures Position(frontier, n) == y {
        if y > 0 {
          assert frontier[1..][y - 1] == n && frontier[0] != frontier[y];
        }
      }
    }
  }

  lemma BeforeIff(config: SchedulerConfig, frontier: seq<NodeId>, a: NodeId, b: NodeId)
    requires Unique(frontier) && a != b
    ensures Before(config, frontier, a, b) <==> InTurn(config.queue, frontier, a, b)
  {
    PositionIs(frontier, a);
    PositionIs(frontier, b);
    if a in frontier {
      var x :| 0 <= x < |frontier| && frontier[x] == a;
    }
    if b in frontier {
      var y :| 0 <= y < |frontier| && frontier[y] == b;
    }
  }

  /** The queue holds the same nodes, and whatever stands earlier may do so. */
  lemma QueueInTurn(config: SchedulerConfig, frontier: seq<NodeId>, ready: seq<NodeId>)
    requires Unique(frontier) && Unique(ready)
    ensures var r := OrderReady(config, frontier, ready);
            && multiset(r) == multiset(ready)
            && forall i, j :: 0 <= i < j < |r| ==> InTurn(config.queue, frontier, r[i], r[j])
  {
    OrderReadySorts(config, frontier, ready);
    var r := OrderReady(config, frontier, ready);
    forall i, j | 0 <= i < j < |r| ensures InTurn(config.queue, frontier, r[i], r[j]) {
      BeforeIff(config, frontier, r[i], r[j]);
    }
  }

  /* ---- Decisions ---- */

  /** The nodes of the workflow that may run. */
  ghost function Able(s: Snapshot, wf: Compiled): set<NodeId>
    requires wf.specs.Keys <= wf.incoming.Keys
  {
    set n | n in wf.order && MayRun(s, wf, n)
  }

  function Slots(config: SchedulerConfig, s: Snapshot): nat {
    if config.maxParallel <= |s.runState.active| then 0 else config.maxParallel - |s.runState.active|
  }

  lemma {:induction false} UniqueSize(xs: seq<NodeId>)
    requires Unique(xs)
    ensures |ToSet(xs)| == |xs|
  {
    if xs != [] {
      var init, last := xs[..|xs| - 1], xs[|xs| - 1];
      UniqueSize(init);
      assert xs == init + [last];
      assert ToSet(xs) == ToSet(init) + {last};
    }
  }

  /** What the scheduler may read: indexes that agree with their records, and a frontier without repeats. */
  ghost predicate Readable(s: Snapshot, wf: Compiled) {
    && DecisionsLinked(s.nodes, s.decisions) && wf.specs.Keys <= wf.incoming.Keys && Unique(wf.order)
    && PendingAgrees(s.runState.pendingInterrupts, s.runState.pendingApprovals, s.interrupts)
    && Unique(s.runState.frontier)
  }

  /** Every stored run can be read so. */
  lemma StoredIsReadable(wf: Compiled, v: View)
    requires WellCompiled(wf) && RunInv(wf, v)
    ensures Readable(v.snap, wf)
  {
    hide HistoryOk, Trails, AttemptsBounded, InterruptsHeld, HasCycle, SameEdges;
  }

  /** The queue of the able nodes. */
  lemma QueueOfAble(config: SchedulerConfig, s: Snapshot, wf: Compiled)
    requires Readable(s, wf)
    ensures var q := OrderReady(config, s.runState.frontier, ReadyAmong(s, wf, wf.order));
            && Unique(q) && ToSet(q) == Able(s, wf) && |q| == |Able(s, wf)|
            && forall i, j :: 0 <= i < j < |q| ==> InTurn(config.queue, s.runState.frontier, q[i], q[j])
  {
    hide MayRun, IsReady, InTurn, DecisionsLinked, PendingAgrees, OrderReady;
    var ready := ReadyAmong(s, wf, wf.order);
    ReadyMembers(s, wf, wf.order);
    OrderReadySorts(config, s.runState.frontier, ready);
    QueueInTurn(config, s.runState.frontier, ready);
    var q := OrderReady(config, s.runState.frontier, ready);
    forall n | n in wf.order ensures IsReady(s, wf, n) <==> MayRun(s, wf, n) {
      ReadyIff(s, wf, n);
    }
    assert ToSet(q) == Able(s, wf);
    UniqueSize(q);
  }

  lemma LeftBehind(q: seq<NodeId>, k: nat, j: int)
    requires k <= |q| && 0 <= j < |q|
    ensures q[j] !in q[..k] ==> j >= k
  {
    assert j < k ==> q[..k][j] == q[j];
  }

  /** A dispatch happens exactly when a node may run and a slot is free. It fills the free slots as far as
      there are nodes, takes them in turn, and passes over none that comes before one it takes. */
  lemma DispatchFillsInTurn(config: SchedulerConfig, s: Snapshot, wf: Compiled)
    requires Readable(s, wf)
    ensures Decide(config, s, wf).Dispatch? <==> Able(s, wf) != {} && Slots(config, s) > 0
    ensures Decide(config, s, wf).Dispatch? ==>
              var nodes, able, frontier := Decide(config, s, wf).nodes, Able(s, wf), s.runState.frontier;
              && Unique(nodes) && (forall n | n in nodes :: n in able)
              && |nodes| == (if Slots(config, s) <= |able| then Slots(config, s) else |able|)
              && (forall i, j :: 0 <= i < j < |nodes| ==> InTurn(config.queue, frontier, nodes[i], nodes[j]))
              && forall a, b | a in nodes && b in able && b !in nodes :: InTurn(config.queue, frontier, a, b)
  {
    hide MayRun, IsReady, InTurn, DecisionsLinked, PendingAgrees, OrderReady, ReadyAmong, Able;
    QueueOfAble(config, s, wf);
    var q := OrderReady(config, s.runState.frontier, ReadyAmong(s, wf, wf.order));
    if Decide(config, s, wf).Dispatch? {
      var nodes := Decide(config, s, wf).nodes;
      assert nodes == q[..|nodes|];
      forall a, b | a in nodes && b in q && b !in nodes ensures InTurn(config.queue, s.runState.frontier, a, b) {
        var i :| 0 <= i < |nodes| && nodes[i] == a;
        var j :| 0 <= j < |q| && q[j] == b;
        LeftBehind(q, |nodes|, j);
      }
    }
  }

  /** Each other decision has its own state: the run is over; an interrupt is pending; a node is active,
      waiting or blocked; nothing of this and deadlocks are left alone; or they are not. */
  lemma DecisionIff(config: SchedulerConfig, s: Snapshot, wf: Compiled)
    requires Readable(s, wf)
    ensures var d, r := Decide(config, s, wf), s.runState;
            var stops := Able(s, wf) == {} || Slots(config, s) == 0;
            var open := r.active != [] || r.waiting != [] || r.blocked != [];
            && (d == Complete <==> stops && Over(s, wf))
            && (d == Interrupt <==> stops && !Over(s, wf) && r.pendingInterrupts != [])
            && (d == Wait(OpenNodes) <==> stops && !Over(s, wf) && r.pendingInterrupts == [] && open)
            && d != Wait(ParallelismLimit)
            && (d == Wait(DetectionDisabled) <==>
                  stops && !Over(s, wf) && r.pendingInterrupts == [] && !open && !config.deadlockDetection)
            && (d == Fail <==>
                  stops && !Over(s, wf) && r.pendingInterrupts == [] && !open && config.deadlockDetection)
  {
    hide DecisionsLinked, PendingAgrees, OrderReady, ReadyAmong, Able, TerminalConditionMet, Over;
    TerminalIff(s, wf);
    DispatchFillsInTurn(config, s, wf);
  }
}
