/** Environments and a workflow that meet the hypotheses of the main theorems, so none of them is about
    nothing. */
module Samples {
  import opened Common
  import opened Models
  import opened Workflow
  import opened Compiler
  import opened Scheduler
  import opened RunMachine
  import opened RunTheorems
  import opened Confluence
  import opened Liveness
  import opened Approval

  /* ---- Environments ---- */

  function ScriptedResult(sc: Script, s: Snapshot, n: NodeId, k: nat): NodeResult {
    NodeResult(sc.status(n), None, None, if sc.opens(n) then [GateInterrupt(s, n, Id(k))] else [], [], [], None)
  }

  /** Executors that follow a script. */
  function ScriptedEnv(sc: Script): Env {
    Env((s, n) => true, (s, n) => true, (s, n, k: nat) => Outcome(Some(ScriptedResult(sc, s, n, k)), 0, k + 1), k => 0)
  }

  lemma FreshOne(k: nat)
    ensures FreshIds([Id(k)], k, k + 1) && FreshIds([], k, k + 1)
  {
  }

  lemma ScriptedResultIsHonest(sc: Script, s: Snapshot, n: NodeId, k: nat)
    requires sc.Sound() && (sc.opens(n) ==> sc.status(n).Waiting? || sc.status(n).Blocked?)
    requires sc.status(n).Blocked? ==> sc.opens(n)
    ensures HonestResult(s, n, ScriptedResult(sc, s, n, k), k, k + 1)
  {
    var r := ScriptedResult(sc, s, n, k);
    FreshOne(k);
    assert seq(|r.interrupts|, i requires 0 <= i < |r.interrupts| => r.interrupts[i].interruptId)
      == if sc.opens(n) then [Id(k)] else [];
  }

  /** A script can be followed within the contract of executors exactly when interrupts come only with
      waiting or blocking, and blocking never without one. */
  lemma ScriptIsFollowed(sc: Script)
    requires sc.Sound()
    ensures (exists env :: Honest(env) && Scripted(env, sc))
            <==> forall n :: (sc.opens(n) ==> sc.status(n).Waiting? || sc.status(n).Blocked?)
                             && (sc.status(n).Blocked? ==> sc.opens(n))
  {
    if forall n :: (sc.opens(n) ==> sc.status(n).Waiting? || sc.status(n).Blocked?)
                   && (sc.status(n).Blocked? ==> sc.opens(n)) {
      var env := ScriptedEnv(sc);
      forall s, n, low: nat ensures HonestResult(s, n, env.execute(s, n, low).result.value, low, low + 1) {
        ScriptedResultIsHonest(sc, s, n, low);
      }
      assert Honest(env) && Scripted(env, sc);
    }
    if exists env :: Honest(env) && Scripted(env, sc) {
      var env :| Honest(env) && Scripted(env, sc);
      forall n ensures (sc.opens(n) ==> sc.status(n).Waiting? || sc.status(n).Blocked?)
                       && (sc.status(n).Blocked? ==> sc.opens(n)) {
        HonestScript(env, sc, n);
      }
    }
  }

  lemma HonestScript(env: Env, sc: Script, n: NodeId)
    requires Honest(env) && Scripted(env, sc)
    ensures sc.opens(n) ==> sc.status(n).Waiting? || sc.status(n).Blocked?
    ensures sc.status(n).Blocked? ==> sc.opens(n)
  {
    var s := EmptySnapshot(ThreadRecord(Id(0), ThreadCreated, None, None, 0), ThreadState(Id(0), ThreadCreated, None, [], 0),
                           Id(1), CHAIN);
    var o := env.execute(s, n, 0);
    assert HonestResult(s, n, o.result.value, 0, o.nextId);
  }

  /** Every node is a human gate, with the policy its spec gives it. */
  function GateEnv(wf: Compiled): Env {
    Env((s, n) => true, (s, n) => true,
        (s, n, k: nat) => HumanGateOutcome(s, n, if n in wf.specs then wf.specs[n].approval else None, k), k => 0)
  }

  lemma GateEnvIsHonest(wf: Compiled)
    ensures Honest(GateEnv(wf)) && GatesInstalled(GateEnv(wf), wf)
  {
    forall s, n, k: nat
      ensures var o := GateEnv(wf).execute(s, n, k);
              k <= o.nextId && (o.result.Some? ==> HonestResult(s, n, o.result.value, k, o.nextId))
    {
      HumanGateIsHonest(s, n, if n in wf.specs then wf.specs[n].approval else None, k);
    }
  }

  /* ---- A workflow ---- */

  const FIRST := NodeId(0)
  const SECOND := NodeId(1)
  const LINK := EdgeSpec(Id(0), FIRST, SECOND, None)
  const GATE := NodeSpec(FIRST, HumanGate, None, Some(true), false)
  const TASK := NodeSpec(SECOND, NoopNode, None, None, false)

  /** A required gate, then a task. */
  const CHAIN := Compiled(
    Id(0), Id(0), FIRST, [FIRST, SECOND], map[FIRST := GATE, SECOND := TASK],
    map[FIRST := [LINK], SECOND := []], map[FIRST := [], SECOND := [LINK]], false, false, [])

  lemma ChainIsAcyclic()
    ensures !HasCycle(CHAIN.outgoing)
  {
    var order := [SECOND, FIRST];
    assert order[..1] == [SECOND] && [SECOND][..0] == [];
    assert FinishOrder(CHAIN.outgoing, []);
    assert FinishOrder(CHAIN.outgoing, [SECOND]);
    assert FinishOrder(CHAIN.outgoing, order);
    FinishOrderExcludesCycles(CHAIN.outgoing, order);
  }

  lemma ChainIsWellCompiled()
    ensures WellCompiled(CHAIN) && Unconditional(CHAIN) && !CHAIN.containsCycles
  {
    hide HasCycle;
    ChainIsAcyclic();
  }

  lemma ChainIsReachable()
    ensures forall n | n in CHAIN.specs :: Reachable(CHAIN, n)
  {
    assert LINK in CHAIN.outgoing[FIRST];
    assert Walk(CHAIN.outgoing, [FIRST]) && Walk(CHAIN.outgoing, [FIRST, SECOND]);
  }

  lemma GateBeforeTask()
    ensures Gated(CHAIN, FIRST, SECOND)
  {
    forall path | Walk(CHAIN.outgoing, path) && path[0] == CHAIN.entry && path[|path| - 1] == SECOND
      ensures FIRST in path[..|path| - 1]
    {
      assert path[..|path| - 1][0] == FIRST;
    }
  }

  const START := Start(ThreadRecord(Id(0), ThreadCreated, None, None, 0), ThreadState(Id(0), ThreadCreated, None, [], 0), 1)

  /** A run the liveness theorem is about. */
  lemma ChainRuns(config: SchedulerConfig)
    ensures exists env :: Honest(env) && Scripted(env, ALL_SUCCEED) && WellCompiled(CHAIN) && START.Sound()
              && RunOf(env, config, CHAIN, START, []).snap.run.status == RunCompleted
  {
    hide RunOf, Honest, Scripted, WellCompiled;
    ChainIsWellCompiled();
    ChainIsReachable();
    ScriptIsFollowed(ALL_SUCCEED);
    var env :| Honest(env) && Scripted(env, ALL_SUCCEED);
    RunsToTheEnd(env, config, CHAIN, START);
  }
}
