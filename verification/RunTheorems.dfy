/** What the invariant of a run says over every history, spelled out. */
module RunTheorems {
  import opened Common
  import opened Lists
  import opened Models
  import opened Workflow
  import opened Compiler
  import opened ReducerFacts
  import opened Scheduler
  import opened RunMachine
  import opened RunInvariant
  import opened RunHistory

  /** What one run was begun with. */
  datatype Start = Start(thread: ThreadRecord, threadState: ThreadState, nextId: nat) {
    ghost predicate Sound() {
      thread.threadId == threadState.threadId && Unique(threadState.artifactIds)
    }
  }

  function RunOf(env: Env, config: SchedulerConfig, wf: Compiled, start: Start, commands: seq<Command>): (v: View)
    requires WellCompiled(wf) && Honest(env) && start.Sound()
    ensures RunInv(wf, v)
  {
    History(env, config, wf, start.thread, start.threadState, start.nextId, commands)
  }

  /** The log tells the stored snapshot, and the part of it up to each checkpoint tells the checkpoint. */
  ghost predicate Tells(ids: set<NodeId>, v: View) {
    && TellsState(Replay(ids, v.log), v.snap.nodes, v.snap.runState, v.snap.run)
    && forall k :: 0 <= k < |v.saved| ==>
         var (c, p) := v.saved[k];
         && 1 <= c.sequenceNo <= |v.log| && c.cursor == Some(v.log[c.sequenceNo - 1].eventId)
         && TellsState(Replay(ids, v.log[..c.sequenceNo]), p.nodes, p.runState, p.run)
  }

  ghost predicate TellsState(told: LogState, nodes: map<NodeId, NodeState>, runState: RunState, run: RunRecord) {
    && told.nodes == Statuses(nodes) && told.pending == ToSet(runState.pendingInterrupts) && told.run == run.status
  }

  /** Folding the events of a run rebuilds its node statuses, its open interrupts and its status: for the
      stored snapshot from the whole log, and for every checkpoint ever stored from the part of the log
      up to its cursor. */
  lemma LogDeterminesState(env: Env, config: SchedulerConfig, wf: Compiled, start: Start, commands: seq<Command>)
    requires WellCompiled(wf) && Honest(env) && start.Sound()
    ensures Tells(wf.specs.Keys, RunOf(env, config, wf, start, commands))
  {
    hide History, SnapInv;
    var v := RunOf(env, config, wf, start, commands);
    forall k | 0 <= k < |v.saved|
      ensures SavedMatches(wf.specs.Keys, v.log, v.saved[k].0, v.saved[k].1)
    {
    }
  }

  /** Event numbers count the events of the run, and checkpoints follow the log strictly: each carries the
      cursor three times over and lies behind the one before it. */
  lemma CheckpointsFollowTheLog(env: Env, config: SchedulerConfig, wf: Compiled, start: Start, commands: seq<Command>)
    requires WellCompiled(wf) && Honest(env) && start.Sound()
    ensures var v := RunOf(env, config, wf, start, commands);
            && (forall i :: 0 <= i < |v.log| ==> v.log[i].runId == Some(v.Run()) && v.log[i].sequenceNo == i + 1)
            && (forall i, j :: 0 <= i < j < |v.saved| ==> v.saved[i].0.sequenceNo < v.saved[j].0.sequenceNo)
            && (forall k :: 0 <= k < |v.saved| ==>
                  var (c, p) := v.saved[k];
                  && c.runId == p.run.runId && c.cursor == p.lastEvent == p.runState.lastEvent
                  && c.cursor.Some? && c.frontier == p.runState.frontier)
  {
    hide History, SnapInv, Replay;
    var v := RunOf(env, config, wf, start, commands);
    forall k | 0 <= k < |v.saved|
      ensures SavedMatches(wf.specs.Keys, v.log, v.saved[k].0, v.saved[k].1)
    {
    }
  }

  /** Every stored run state satisfies the checks of its constructor and its lists name exactly the nodes
      with their status, between operations and in every checkpoint taken within one; between operations
      its interrupt lists name exactly the open interrupts, and every index agrees with its records. */
  lemma RecordsAgree(env: Env, config: SchedulerConfig, wf: Compiled, start: Start, commands: seq<Command>)
    requires WellCompiled(wf) && Honest(env) && start.Sound()
    ensures var v := RunOf(env, config, wf, start, commands);
            var s := v.snap;
            && s.runState.Valid() && (forall n | n in s.nodes :: s.nodes[n].Valid())
            && ListsAgree(s) && IndexesAgree(s)
            && (forall n | n in s.runState.frontier :: n in s.nodes && !s.nodes[n].status.Terminal())
            && forall k :: 0 <= k < |v.saved| ==> SavedSound(v.saved[k].1)
  {
    hide History, LogOk, Ordered, Replay, Trails, AttemptsBounded, IndexesAgree;
    var v := RunOf(env, config, wf, start, commands);
    forall k | 0 <= k < |v.saved| ensures SavedSound(v.saved[k].1) {
      assert SavedMatches(wf.specs.Keys, v.log, v.saved[k].0, v.saved[k].1);
    }
  }
}
