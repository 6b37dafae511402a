/** Why the contract of executors asks what it asks: what happens to results that break it. */
module ContractLimits {
  import opened Common
  import opened Lists
  import opened Models
  import opened Workflow
  import opened Reducer
  import opened ReducerFacts
  import opened Events
  import opened RunMachine
  import opened RunInvariant
  import opened RunOps
  import opened RunResults
  import opened RunResume
  import opened RunSteps
  import opened RunHistory

  /** Interrupts that a resume can resolve: known ones, each held by a known node if by any. */
  ghost predicate Resolvable(s: Snapshot, ids: seq<Id>) {
    && ids != [] && Unique(ids) && (forall i | i in ids :: i in s.interrupts)
    && (forall n | n in Holders(s.interrupts, ids) :: n in s.nodes)
  }

  lemma FrontierClash(r: RunState, p: RunStateUpdate, holders: seq<NodeId>)
    requires r.Valid()
    requires p == NO_RUN_STATE.(status := Some(RunRunning), waiting := Some(Without(r.waiting, ToSet(holders))),
                                blocked := Some(Without(r.blocked, ToSet(holders))),
                                frontier := Some(MergeUnique(r.frontier, holders)))
    ensures AmendRunState(r, p).Valid() <==> forall n | n in holders :: n !in r.completed
  {
    var t := AmendRunState(r, p);
    if exists n :: n in holders && n in r.completed {
      var n :| n in holders && n in r.completed;
      assert n in t.frontier && n in t.completed;
    }
  }

  /** Resuming with a payload raises exactly when a node that holds a pending interrupt is listed as
      completed: its return to the frontier clashes with the constructor's check. */
  lemma ResumeRaisesExactly(s: Snapshot, ids: seq<Id>)
    requires Resolvable(s, ids) && s.runState.Valid() && NodesValid(s.nodes)
    ensures Apply(s, ResumePatch(s, ids)).Err? <==>
              exists n :: n in Holders(s.interrupts, ids) && n in s.runState.completed
  {
    hide MergeUnique, Without;
    var p := ResumePatch(s, ids);
    FrontierClash(s.runState, p.runState, Holders(s.interrupts, ids));
    if ApplyRecords(s, p).Ok? {
      var b := ApplyRecords(s, p).value;
      ResumeNodes(b, p.nodes);
      ResumeStages(s, p, ids, b.(nodes := Patched(s.nodes, p.nodes)));
    }
  }

  lemma ResumeWithoutInterrupts(s: Snapshot)
    requires s.runState.Valid()
    ensures Apply(s, ResumePatch(s, [])).Ok?
  {
    ApplyPlain(s, ResumePatch(s, []));
  }

  /* ---- An executor that opens an interrupt and reports another status than waiting or blocked ---- */

  /** An open interrupt whose node is listed as completed. */
  ghost predicate Clash(s: Snapshot) {
    exists i :: i in s.interrupts && s.interrupts[i].status == Open && s.interrupts[i].nodeId.Some?
                && s.interrupts[i].nodeId.value in s.runState.completed
  }

  /** The snapshot has sound indexes, and every interrupt belongs to one of its nodes. */
  ghost predicate Indexed(s: Snapshot) {
    && s.runState.Valid() && NodesValid(s.nodes)
    && PendingAgrees(s.runState.pendingInterrupts, s.runState.pendingApprovals, s.interrupts)
    && forall i | i in s.interrupts :: s.interrupts[i].nodeId.Some? && s.interrupts[i].nodeId.value in s.nodes
  }

  lemma ResumeRaisesOnClash(s: Snapshot)
    requires Indexed(s)
    ensures Apply(s, ResumePatch(s, s.runState.pendingInterrupts)).Err? <==> Clash(s)
  {
    hide Apply, ResumePatch;
    var ids := s.runState.pendingInterrupts;
    HoldersMembers(s.interrupts, ids);
    if ids == [] {
      ResumeWithoutInterrupts(s);
    } else {
      ResumeRaisesExactly(s, ids);
    }
    if Clash(s) {
      var i :| i in s.interrupts && s.interrupts[i].status == Open && s.interrupts[i].nodeId.Some?
               && s.interrupts[i].nodeId.value in s.runState.completed;
      assert i in ids;
      assert s.interrupts[i].nodeId.value in Holders(s.interrupts, ids);
    }
  }

  /** Folding the result in: accepted, and the clash is there exactly for a success with interrupts. */
  lemma ResultClashes(wf: Compiled, s: Snapshot, n: NodeId, r: NodeResult, nextId: nat)
    requires RunsNode(wf, s, n) && BringsNew(s, n, r, ResultArtifacts(s, wf, n, r, nextId)) && r.status != Running
    ensures Apply(s, ResultPatch(s, wf, n, r, nextId)).Ok?
    ensures var t := Apply(s, ResultPatch(s, wf, n, r, nextId)).value;
            && Indexed(t) && t.run == s.run && t.runState.status == s.runState.status
            && (Clash(t) <==> r.status == Succeeded && r.interrupts != [])
  {
    hide Apply, ResultPatch, Settled, Opened, Trails, AttemptsBounded, Begun, SnapshotOk, Relist;
    ResultSettles(wf, s, n, r, nextId);
    var t := Apply(s, ResultPatch(s, wf, n, r, nextId)).value;
    ResultListsAgree(s, n, r.status, t);
    SettledNodes(s, n, r.status, t);
    SnapshotIndexed(t);
    OpenedBelong(s, n, r.interrupts, t);
    ClashIsAtNode(s, n, r.interrupts, t);
  }

  lemma ResultSettles(wf: Compiled, s: Snapshot, n: NodeId, r: NodeResult, nextId: nat)
    requires RunsNode(wf, s, n) && BringsNew(s, n, r, ResultArtifacts(s, wf, n, r, nextId))
    ensures Apply(s, ResultPatch(s, wf, n, r, nextId)).Ok?
    ensures var t := Apply(s, ResultPatch(s, wf, n, r, nextId)).value;
            SnapshotOk(t) && Settled(s, n, r.status, t) && Opened(s.interrupts, t.interrupts, r.interrupts)
  {
    hide Apply, Settled, SnapshotOk, RecordsAdded, Opened, NewDecisions, NewSideEffects, NewArtifacts, RunsNode;
    ResultEffect(wf, s, n, r, nextId);
    ResultSnapshotOk(wf, s, n, r, nextId);
    ResultOpens(s, n, ResultPatch(s, wf, n, r, nextId), r, Apply(s, ResultPatch(s, wf, n, r, nextId)).value);
  }

  lemma SettledNodes(s: Snapshot, n: NodeId, status: NodeStatus, t: Snapshot)
    requires Settled(s, n, status, t)
    ensures OnlyAt(s.nodes, t.nodes, n) && t.nodes[n].status == status
    ensures t.run == s.run && t.runState.status == s.runState.status
  {
  }

  lemma SnapshotIndexed(t: Snapshot)
    requires SnapshotOk(t)
    ensures t.runState.Valid() && NodesValid(t.nodes)
    ensures PendingAgrees(t.runState.pendingInterrupts, t.runState.pendingApprovals, t.interrupts)
  {
  }

  lemma OpenedBelong(s: Snapshot, n: NodeId, xs: seq<InterruptRecord>, t: Snapshot)
    requires InterruptsHeld(s.nodes, s.interrupts, false) && OnlyAt(s.nodes, t.nodes, n)
    requires Opened(s.interrupts, t.interrupts, xs) && forall x | x in xs :: x.nodeId == Some(n)
    ensures forall i | i in t.interrupts :: t.interrupts[i].nodeId.Some? && t.interrupts[i].nodeId.value in t.nodes
  {
  }

  lemma ClashIsAtNode(s: Snapshot, n: NodeId, xs: seq<InterruptRecord>, t: Snapshot)
    requires InterruptsHeld(s.nodes, s.interrupts, false) && OnlyAt(s.nodes, t.nodes, n) && s.nodes[n].status == Running
    requires Opened(s.interrupts, t.interrupts, xs) && forall x | x in xs :: x.nodeId == Some(n)
    requires ListIs(t.runState.completed, t.nodes, Succeeded)
    ensures Clash(t) <==> t.nodes[n].status == Succeeded && xs != []
  {
    forall i | i in s.interrupts && s.interrupts[i].status == Open
      ensures t.interrupts[i].nodeId.value !in t.runState.completed
    {
      assert Holds(s.nodes[s.interrupts[i].nodeId.value].status, false);
    }
    if Clash(t) {
      var i :| i in t.interrupts && t.interrupts[i].status == Open && t.interrupts[i].nodeId.Some?
               && t.interrupts[i].nodeId.value in t.runState.completed;
      assert i !in s.interrupts;
      assert t.interrupts[i] in xs;
    }
    if t.nodes[n].status == Succeeded && xs != [] {
      assert xs[0] in xs;
      assert t.interrupts[xs[0].interruptId] == xs[0] && n in t.runState.completed;
    }
  }

  /** Stamping and pausing change nothing a resume looks at. */
  lemma PauseKeepsClash(s: Snapshot, t: Snapshot)
    requires Indexed(s) && t.interrupts == s.interrupts && t.nodes == s.nodes && t.runState.Valid()
    requires t.runState.completed == s.runState.completed
    requires t.runState.pendingInterrupts == s.runState.pendingInterrupts
    requires t.runState.pendingApprovals == s.runState.pendingApprovals
    ensures Indexed(t) && (Clash(t) <==> Clash(s))
  {
  }

  lemma PauseApplies(s: Snapshot)
    requires s.runState.Valid()
    ensures Apply(s, PausePatch(RunInterrupted)) == Ok(Plain(s, PausePatch(RunInterrupted)))
    ensures var t := Plain(s, PausePatch(RunInterrupted));
            && t.runState.Valid() && t.interrupts == s.interrupts && t.nodes == s.nodes
            && t.runState.completed == s.runState.completed && t.run.status == RunInterrupted
            && t.runState.pendingInterrupts == s.runState.pendingInterrupts
            && t.runState.pendingApprovals == s.runState.pendingApprovals
  {
    PatchedByNothing(s.nodes);
    ApplyPlain(s, PausePatch(RunInterrupted));
  }

  lemma PausedCommit(env: Env, v: View)
    requires Indexed(v.snap)
    ensures var u := MarkInterrupted(env, v);
            && !u.raised && u.view.snap.run.status == RunInterrupted
            && Indexed(u.view.snap) && (Clash(u.view.snap) <==> Clash(v.snap))
  {
    hide Apply, Indexed, Clash;
    IndexedIsValid(v.snap);
    PauseApplies(v.snap);
    var t := Plain(v.snap, PausePatch(RunInterrupted));
    CommitStamps(env, v, v.snap, PausePatch(RunInterrupted), [RunHalted]);
    PauseKeepsClash(v.snap, t);
    StampKeepsClash(t, MarkInterrupted(env, v).view.snap);
  }

  lemma IndexedIsValid(s: Snapshot)
    requires Indexed(s)
    ensures s.runState.Valid()
  {
  }

  lemma StampKeepsClash(s: Snapshot, t: Snapshot)
    requires Stamped(s, t) && Indexed(s)
    ensures Indexed(t) && (Clash(t) <==> Clash(s))
  {
  }

  /** Whatever status a node in execution reports and whatever new records it brings, the result is stored
      without complaint. Once the run is interrupted, resuming it with a payload raises if and only if the
      node succeeded and opened an interrupt. */
  lemma SuccessWithInterruptCannotResume(wf: Compiled, env: Env, v: View, n: NodeId, r: NodeResult, low: nat)
    requires Executing(wf, v, n) && IdsBelow(v.snap, low) && low <= v.nextId && r.status != Running
    requires HonestRecords(v.snap, n, r, low, v.nextId)
    ensures var settled := SettleNode(env, wf, v, n, r);
            var paused := MarkInterrupted(env, settled.view);
            && !settled.raised && !paused.raised && MayResume(paused.view)
            && (Resume(env, paused.view, true).raised <==> r.status == Succeeded && r.interrupts != [])
  {
    hide Apply, Commit, ResultPatch, HonestRecords, HistoryOk, SnapCore, Indexed, Clash, ResumePatch;
    HonestRecordsAreNew(wf, v.snap, n, r, low, v.nextId, v.nextId);
    ResultClashes(wf, v.snap, n, r, v.nextId);
    var p := ResultPatch(v.snap, wf, n, r, v.nextId);
    var w := v.(nextId := AfterArtifact(v.snap, wf, n, r, v.nextId));
    var kinds := [NodeReported(n, r.status)] + CreatedKinds(r.interrupts);
    CommitStamps(env, w, v.snap, p, kinds);
    CommitOk(env, w, v.snap, p, kinds);
    var settled := SettleNode(env, wf, v, n, r);
    StampKeepsClash(Apply(v.snap, p).value, settled.view.snap);
    PausedCommit(env, settled.view);
    var x := MarkInterrupted(env, settled.view).view;
    ResumeRaisesOnClash(x.snap);
    CommitOk(env, x, x.snap, ResumePatch(x.snap, x.snap.runState.pendingInterrupts),
             ResumeKinds(x.snap.runState.pendingInterrupts));
  }
}
