/** What holds of every run in every reachable state of the stores, whatever calls were made on whatever
    runs in between: a stored run is a history, so the theorems about histories are theorems about it. */
module StoreTheorems {
  import opened Models
  import opened Compiler
  import opened Scheduler
  import opened CheckpointStores
  import opened RunMachine
  import opened RunInvariant
  import opened RunTheorems
  import opened Approval
  import opened RunWorld
  import opened RunLedger

  lemma StoredIsHistory(env: Env, config: SchedulerConfig, ledger: Ledger, w: World, run: Id)
    requires LedgerInv(env, config, ledger, w) && run in w.state.runs
    ensures Honest(env) && Sane(w) && Hosted(w, run) && FlowName(w, run) in ledger.flows && run in ledger.starts
    ensures run in ledger.commands && WellCompiled(ledger.flows[FlowName(w, run)]) && ledger.starts[run].Sound()
    ensures ViewOf(w, run) == RunOf(env, config, ledger.flows[FlowName(w, run)], ledger.starts[run], ledger.commands[run])
  {
    hide RunFollows, Sane, RunOf, WellCompiled, Honest;
    LedgerParts(env, config, ledger, w, run);
    RunNamed(env, config, ledger, w, run);
    StoredParts(env, config, ledger, w, run);
  }

  lemma StoredParts(env: Env, config: SchedulerConfig, ledger: Ledger, w: World, run: Id)
    requires RunFollows(env, config, ledger, w, run)
    ensures Hosted(w, run) && Recorded(ledger, w, run) && Sane(w) && FlowsSound(ledger.flows) && Honest(env)
    ensures ViewOf(w, run) == RunOf(env, config, ledger.flows[FlowName(w, run)], ledger.starts[run], ledger.commands[run])
  {
    hide Sane, RunOf, WellCompiled, Honest;
  }

  /** The stored log of a run rebuilds its stored statuses, its open interrupts and its status, and so does
      the part of the log before any of its stored checkpoints. */
  lemma StoredLogTellsState(env: Env, config: SchedulerConfig, ledger: Ledger, w: World, run: Id)
    requires LedgerInv(env, config, ledger, w) && run in w.state.runs
    ensures Sane(w) && Hosted(w, run) && FlowName(w, run) in ledger.flows
    ensures Tells(ledger.flows[FlowName(w, run)].specs.Keys, ViewOf(w, run))
  {
    hide LedgerInv, Sane, RunOf, WellCompiled, Honest, Tells, ViewOf;
    StoredIsHistory(env, config, ledger, w, run);
    LogDeterminesState(env, config, ledger.flows[FlowName(w, run)], ledger.starts[run], ledger.commands[run]);
  }

  /** In every reachable state the latest checkpoint of a run is the last one created, and each restores
      the payload it was created with. */
  lemma StoredCheckpointsRestore(env: Env, config: SchedulerConfig, ledger: Ledger, w: World, run: Id)
    requires LedgerInv(env, config, ledger, w) && run in w.state.runs
    ensures RestoresInOrder(w.checkpoints, run)
  {
    hide LedgerInv, RunOf, WellCompiled, Honest, ViewOf, RestoresInOrder;
    StoredIsHistory(env, config, ledger, w, run);
    CheckpointsFollowTheLog(env, config, ledger.flows[FlowName(w, run)], ledger.starts[run], ledger.commands[run]);
    SavedOfView(w, run);
    IncreasingRestores(w.checkpoints, run);
  }

  /** However many calls follow, a checkpoint taken now is restored as it is now. */
  lemma {:induction false} RestoredLater(worlds: seq<World>, i: nat, j: nat, run: Id, k: nat)
    requires forall n :: 0 < n < |worlds| ==> CheckpointsKept(worlds[n - 1], worlds[n])
    requires i <= j < |worlds| && worlds[i].checkpoints.Valid() && k < |worlds[i].checkpoints.Saved(run)|
    ensures worlds[j].checkpoints.Valid() && worlds[i].checkpoints.Saved(run) <= worlds[j].checkpoints.Saved(run)
    ensures var (c, p) := worlds[i].checkpoints.Saved(run)[k];
            c.checkpointId in worlds[j].checkpoints.payloads && worlds[j].checkpoints.payloads[c.checkpointId] == p
    decreases j
  {
    if i < j {
      RestoredLater(worlds, i, j - 1, run, k);
      assert CheckpointsKept(worlds[j - 1], worlds[j]);
    }
    assert worlds[j].checkpoints.Saved(run)[k] == worlds[i].checkpoints.Saved(run)[k];
  }

  /** No stored run has started a node behind a required gate without an approval of the gate before. */
  lemma StoredStartsApproved(env: Env, config: SchedulerConfig, ledger: Ledger, w: World, run: Id, g: NodeId, n: NodeId)
    requires LedgerInv(env, config, ledger, w) && run in w.state.runs && FlowName(w, run) in ledger.flows
    requires GatesInstalled(env, ledger.flows[FlowName(w, run)]) && Gated(ledger.flows[FlowName(w, run)], g, n)
    ensures Sane(w) && Hosted(w, run)
    ensures StartsAfterApproval(Kinds(ViewOf(w, run).log), g, n)
  {
    hide LedgerInv, Sane, RunOf, WellCompiled, Honest, Gated, GatesInstalled, StartsAfterApproval, ViewOf;
    StoredIsHistory(env, config, ledger, w, run);
    GateDominates(env, config, ledger.flows[FlowName(w, run)], ledger.starts[run], ledger.commands[run], g, n);
  }
}
