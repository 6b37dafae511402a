/** The reducer: folds one patch into a snapshot. `Apply` is its meaning stage by stage, `ReducerApply`
    the loops that compute it. */
module Reducer {
  import opened Common
  import opened Lists
  import opened Models

  /* ---- Field updates: an empty update changes nothing, any other one bumps the version ---- */

  function UpdateThread(t: ThreadRecord, u: ThreadUpdate): ThreadRecord {
    if u == NO_THREAD then t
    else
      t.(status := u.status.GetOr(t.status),
         currentRun := u.currentRun.GetOr(t.currentRun),
         latestCheckpoint := if u.latestCheckpoint.Some? then u.latestCheckpoint else t.latestCheckpoint,
         version := t.version + 1)
  }

  function UpdateThreadState(t: ThreadState, u: ThreadStateUpdate): ThreadState {
    if u == NO_THREAD_STATE then t
    else
      t.(status := u.status.GetOr(t.status), activeRun := u.activeRun.GetOr(t.activeRun),
         version := t.version + 1)
  }

  function UpdateRun(r: RunRecord, u: RunUpdate): RunRecord {
    if u == NO_RUN then r
    else
      r.(status := u.status.GetOr(r.status), failure := u.failure.GetOr(r.failure), version := r.version + 1)
  }

  function AmendRunState(r: RunState, u: RunStateUpdate): RunState {
    r.(status := u.status.GetOr(r.status),
       frontier := u.frontier.GetOr(r.frontier),
       completed := u.completed.GetOr(r.completed),
       failed := u.failed.GetOr(r.failed),
       waiting := u.waiting.GetOr(r.waiting),
       blocked := u.blocked.GetOr(r.blocked),
       active := u.active.GetOr(r.active),
       lastEvent := if u.lastEvent.Some? then u.lastEvent else r.lastEvent,
       version := r.version + 1)
  }

  /** Raises when the merged run state fails its constructor's checks. */
  function UpdateRunState(r: RunState, u: RunStateUpdate): Result<RunState, Error> {
    if u == NO_RUN_STATE then Ok(r)
    else if AmendRunState(r, u).Valid() then Ok(AmendRunState(r, u))
    else Err(ValueError)
  }

  function AmendNode(n: NodeState, u: NodeUpdate): NodeState {
    n.(status := u.status.GetOr(n.status), attempt := u.attempt.GetOr(n.attempt),
       started := u.started.GetOr(n.started), error := u.error.GetOr(n.error), version := n.version + 1)
  }

  function AmendInterrupt(i: InterruptRecord, u: InterruptUpdate): InterruptRecord {
    i.(status := u.status.GetOr(i.status), resolvedAt := u.resolvedAt.GetOr(i.resolvedAt),
       resolution := u.resolution.GetOr(i.resolution), version := i.version + 1)
  }

  /* ---- Single items ---- */

  type Step<!A> = (Snapshot, A) -> Result<Snapshot, Error>

  function UpsertNode(s: Snapshot, n: NodeState): Result<Snapshot, Error> {
    if n.runId != s.runState.runId then Err(ValueError)
    else
      var stored := if n.nodeId in s.nodes then n.(version := s.nodes[n.nodeId].version + 1) else n;
      Ok(s.(nodes := s.nodes[n.nodeId := stored]))
  }

  /** The producer keeps its first artifact as output. */
  function AddArtifact(s: Snapshot, a: ArtifactRecord): Result<Snapshot, Error> {
    if a.runId != s.runState.runId || a.threadId != s.threadState.threadId || a.artifactId in s.artifacts then
      Err(ValueError)
    else
      var nodes :=
        if a.producer in s.nodes && s.nodes[a.producer].output.None? then
          var n := s.nodes[a.producer];
          s.nodes[a.producer := n.(output := Some(a.artifactId), version := n.version + 1)]
        else s.nodes;
      Ok(s.(artifacts := s.artifacts[a.artifactId := a], nodes := nodes))
  }

  function AddInterrupt(s: Snapshot, i: InterruptRecord): Result<Snapshot, Error> {
    if i.runId != s.runState.runId || i.threadId != s.threadState.threadId || i.interruptId in s.interrupts then
      Err(ValueError)
    else
      Ok(s.(interrupts := s.interrupts[i.interruptId := i]))
  }

  /** An interrupt that is not open any more leaves both pending lists, a reopened one joins them. */
  function UpdateInterrupt(s: Snapshot, item: (Id, InterruptUpdate)): Result<Snapshot, Error> {
    var (id, u) := item;
    if id !in s.interrupts || !AmendInterrupt(s.interrupts[id], u).Valid() then Err(ValueError)
    else
      var updated := AmendInterrupt(s.interrupts[id], u);
      var r := s.runState;
      var pending, approvals :=
        if updated.status == Open then MergeUnique(r.pendingInterrupts, [id])
        else Without(r.pendingInterrupts, {id}),
        if updated.status != Open then Without(r.pendingApprovals, {id})
        else if updated.kind == ApprovalRequired then MergeUnique(r.pendingApprovals, [id])
        else r.pendingApprovals;
      Ok(s.(interrupts := s.interrupts[id := updated],
            runState := r.(pendingInterrupts := pending, pendingApprovals := approvals)))
  }

  function AddDecision(s: Snapshot, d: PolicyDecision): Result<Snapshot, Error> {
    if d.runId != s.runState.runId || d.decisionId in s.decisions then Err(ValueError)
    else
      var nodes :=
        if d.nodeId.Some? && d.nodeId.value in s.nodes && d.decisionId !in s.nodes[d.nodeId.value].decisionIds then
          var n := s.nodes[d.nodeId.value];
          s.nodes[d.nodeId.value := n.(decisionIds := n.decisionIds + [d.decisionId], version := n.version + 1)]
        else s.nodes;
      Ok(s.(decisions := s.decisions[d.decisionId := d], nodes := nodes))
  }

  function AddSideEffect(s: Snapshot, e: SideEffect): Result<Snapshot, Error> {
    if e.runId != s.runState.runId || e.sideEffectId in s.sideEffects then Err(ValueError)
    else
      var nodes :=
        if e.nodeId in s.nodes && e.sideEffectId !in s.nodes[e.nodeId].sideEffectIds then
          var n := s.nodes[e.nodeId];
          s.nodes[e.nodeId := n.(sideEffectIds := n.sideEffectIds + [e.sideEffectId], version := n.version + 1)]
        else s.nodes;
      Ok(s.(sideEffects := s.sideEffects[e.sideEffectId := e], nodes := nodes))
  }

  function Fold<A>(step: Step<A>, s: Snapshot, items: seq<A>): Result<Snapshot, Error>
    decreases |items|
  {
    if items == [] then Ok(s)
    else
      var next :- step(s, items[0]);
      Fold(step, next, items[1..])
  }

  /* ---- Stages, in the order of the patch ---- */

  function ApplyRecords(s: Snapshot, p: StatePatch): Result<Snapshot, Error> {
    var runState :- UpdateRunState(s.runState, p.runState);
    Ok(s.(thread := UpdateThread(s.thread, p.thread), run := UpdateRun(s.run, p.run),
          threadState := UpdateThreadState(s.threadState, p.threadState), runState := runState))
  }

  function ApplyNodeUpdates(s: Snapshot, updates: map<NodeId, NodeUpdate>): Result<Snapshot, Error> {
    if forall n | n in updates :: n in s.nodes && AmendNode(s.nodes[n], updates[n]).Valid() then
      Ok(s.(nodes := map n | n in s.nodes :: if n in updates then AmendNode(s.nodes[n], updates[n]) else s.nodes[n]))
    else Err(ValueError)
  }

  function ArtifactIds(artifacts: seq<ArtifactRecord>): (r: seq<Id>)
    ensures |r| == |artifacts| && forall i :: 0 <= i < |r| ==> r[i] == artifacts[i].artifactId
  {
    seq(|artifacts|, i requires 0 <= i < |artifacts| => artifacts[i].artifactId)
  }

  function ApplyArtifacts(s: Snapshot, artifacts: seq<ArtifactRecord>): Result<Snapshot, Error> {
    var added :- Fold(AddArtifact, s, artifacts);
    if artifacts == [] then Ok(added)
    else
      Ok(added.(threadState := added.threadState.(
                  artifactIds := MergeUnique(added.threadState.artifactIds, ArtifactIds(artifacts)),
                  version := added.threadState.version + 1)))
  }

  /** Ids of the open interrupts of a batch, or of those that ask for an approval. */
  function OpenIds(interrupts: seq<InterruptRecord>, approvalsOnly: bool): seq<Id> {
    if interrupts == [] then []
    else
      var rest := OpenIds(interrupts[1..], approvalsOnly);
      if Asks(interrupts[0], approvalsOnly) then [interrupts[0].interruptId] + rest else rest
  }

  predicate Asks(i: InterruptRecord, approvalsOnly: bool) {
    i.status == Open && (approvalsOnly ==> i.kind == ApprovalRequired)
  }

  function ApplyInterrupts(s: Snapshot, interrupts: seq<InterruptRecord>): Result<Snapshot, Error> {
    var added :- Fold(AddInterrupt, s, interrupts);
    if OpenIds(interrupts, false) == [] then Ok(added)
    else
      var r := added.runState;
      Ok(added.(runState := r.(pendingInterrupts := MergeUnique(r.pendingInterrupts, OpenIds(interrupts, false)),
                               pendingApprovals := MergeUnique(r.pendingApprovals, OpenIds(interrupts, true)),
                               version := r.version + 1)))
  }

  function ApplyInterruptUpdates(s: Snapshot, updates: seq<(Id, InterruptUpdate)>): Result<Snapshot, Error> {
    var updated :- Fold(UpdateInterrupt, s, updates);
    if updates == [] then Ok(updated)
    else Ok(updated.(runState := updated.runState.(version := updated.runState.version + 1)))
  }

  function Apply(s: Snapshot, p: StatePatch): Result<Snapshot, Error> {
    var s1 :- ApplyRecords(s, p);
    var s2 :- Fold(UpsertNode, s1, p.upserts);
    var s3 :- ApplyNodeUpdates(s2, p.nodes);
    var s4 :- ApplyArtifacts(s3, p.artifacts);
    var s5 :- ApplyInterrupts(s4, p.interrupts);
    var s6 :- ApplyInterruptUpdates(s5, p.interruptUpdates);
    var s7 :- Fold(AddDecision, s6, p.decisions);
    Fold(AddSideEffect, s7, p.sideEffects)
  }

  /* ---- The loops of `apply`, each computing its stage ---- */

  method UpsertNodes(s: Snapshot, upserts: seq<NodeState>) returns (r: Result<Snapshot, Error>)
    ensures r == Fold(UpsertNode, s, upserts)
  {
    var nodes := s.nodes;
    for i := 0 to |upserts|
      invariant Fold(UpsertNode, s, upserts) == Fold(UpsertNode, s.(nodes := nodes), upserts[i..])
    {
      var n := upserts[i];
      assert upserts[i..][0] == n && upserts[i..][1..] == upserts[i + 1..];
      if n.runId != s.runState.runId {
        return Err(ValueError);
      }
      var upserted := n;
      if n.nodeId in nodes {
        upserted := n.(version := nodes[n.nodeId].version + 1);
      }
      nodes := nodes[n.nodeId := upserted];
    }
    return Ok(s.(nodes := nodes));
  }

  method UpdateNodes(s: Snapshot, updates: map<NodeId, NodeUpdate>) returns (r: Result<Snapshot, Error>)
    ensures r == ApplyNodeUpdates(s, updates)
  {
    var nodes := s.nodes;
    var todo := updates.Keys;
    while todo != {}
      invariant todo <= updates.Keys && nodes.Keys == s.nodes.Keys
      invariant forall n :: n in updates && n !in todo ==>
        n in s.nodes && AmendNode(s.nodes[n], updates[n]).Valid()
      invariant forall n :: n in nodes ==>
        nodes[n] == if n in updates && n !in todo then AmendNode(s.nodes[n], updates[n]) else s.nodes[n]
      decreases todo
    {
      var n :| n in todo;
      if n !in nodes || !AmendNode(nodes[n], updates[n]).Valid() {
        return Err(ValueError);
      }
      nodes := nodes[n := AmendNode(nodes[n], updates[n])];
      todo := todo - {n};
    }
    assert nodes == map n | n in s.nodes ::
      if n in updates then AmendNode(s.nodes[n], updates[n]) else s.nodes[n];
    return Ok(s.(nodes := nodes));
  }

  method CreateArtifacts(s: Snapshot, created: seq<ArtifactRecord>) returns (r: Result<Snapshot, Error>)
    ensures r == ApplyArtifacts(s, created)
  {
    var artifacts, nodes, ids := s.artifacts, s.nodes, [];
    for i := 0 to |created|
      invariant ids == ArtifactIds(created)[..i]
      invariant Fold(AddArtifact, s, created)
                == Fold(AddArtifact, s.(artifacts := artifacts, nodes := nodes), created[i..])
    {
      var a := created[i];
      assert created[i..][0] == a && created[i..][1..] == created[i + 1..];
      if a.runId != s.runState.runId || a.threadId != s.threadState.threadId || a.artifactId in artifacts {
        return Err(ValueError);
      }
      artifacts := artifacts[a.artifactId := a];
      ids := ids + [a.artifactId];
      if a.producer in nodes && nodes[a.producer].output.None? {
        var n := nodes[a.producer];
        nodes := nodes[a.producer := n.(output := Some(a.artifactId), version := n.version + 1)];
      }
    }
    var threadState := s.threadState;
    if ids != [] {
      threadState := threadState.(artifactIds := MergeUnique(threadState.artifactIds, ids),
                                  version := threadState.version + 1);
    }
    assert ids == ArtifactIds(created);
    FoldArtifactsKeepsRecords(s, created);
    return Ok(s.(artifacts := artifacts, nodes := nodes, threadState := threadState));
  }

  lemma {:induction false} FoldArtifactsKeepsRecords(s: Snapshot, created: seq<ArtifactRecord>)
    requires Fold(AddArtifact, s, created).Ok?
    ensures var r := Fold(AddArtifact, s, created).value;
            r == s.(artifacts := r.artifacts, nodes := r.nodes)
    decreases |created|
  {
    if created != [] {
      FoldArtifactsKeepsRecords(AddArtifact(s, created[0]).value, created[1..]);
    }
  }

  method CreateInterrupts(s: Snapshot, created: seq<InterruptRecord>) returns (r: Result<Snapshot, Error>)
    ensures r == ApplyInterrupts(s, created)
  {
    hide MergeUnique;
    var interrupts, openIds, approvalIds := s.interrupts, [], [];
    for i := 0 to |created|
      invariant openIds == OpenIds(created[..i], false)
      invariant approvalIds == OpenIds(created[..i], true)
      invariant Fold(AddInterrupt, s, created) == Fold(AddInterrupt, s.(interrupts := interrupts), created[i..])
    {
      var item := created[i];
      assert created[i..][0] == item && created[i..][1..] == created[i + 1..];
      assert created[..i + 1] == created[..i] + [item];
      OpenIdsSnoc(created[..i], item, false);
      OpenIdsSnoc(created[..i], item, true);
      if item.runId != s.runState.runId || item.threadId != s.threadState.threadId || item.interruptId in interrupts {
        return Err(ValueError);
      }
      interrupts := interrupts[item.interruptId := item];
      if item.status == Open {
        openIds := openIds + [item.interruptId];
        if item.kind == ApprovalRequired {
          approvalIds := approvalIds + [item.interruptId];
        }
      }
    }
    var runState := s.runState;
    if openIds != [] || approvalIds != [] {
      runState := runState.(pendingInterrupts := MergeUnique(runState.pendingInterrupts, openIds),
                            pendingApprovals := MergeUnique(runState.pendingApprovals, approvalIds),
                            version := runState.version + 1);
    }
    assert created[..|created|] == created;
    ApprovalsAreOpen(created);
    FoldInterruptsKeepsRecords(s, created);
    return Ok(s.(interrupts := interrupts, runState := runState));
  }

  lemma {:induction false} OpenIdsSnoc(xs: seq<InterruptRecord>, x: InterruptRecord, approvalsOnly: bool)
    ensures OpenIds(xs + [x], approvalsOnly)
            == OpenIds(xs, approvalsOnly) + if Asks(x, approvalsOnly) then [x.interruptId] else []
  {
    if xs != [] {
      assert (xs + [x])[1..] == xs[1..] + [x];
      OpenIdsSnoc(xs[1..], x, approvalsOnly);
    }
  }

  lemma {:induction false} ApprovalsAreOpen(created: seq<InterruptRecord>)
    ensures OpenIds(created, false) == [] ==> OpenIds(created, true) == []
  {
    if created != [] {
      ApprovalsAreOpen(created[1..]);
    }
  }

  lemma {:induction false} FoldInterruptsKeepsRecords(s: Snapshot, created: seq<InterruptRecord>)
    requires Fold(AddInterrupt, s, created).Ok?
    ensures var r := Fold(AddInterrupt, s, created).value; r == s.(interrupts := r.interrupts)
    decreases |created|
  {
    if created != [] {
      FoldInterruptsKeepsRecords(AddInterrupt(s, created[0]).value, created[1..]);
    }
  }

  method UpdateInterrupts(s: Snapshot, updates: seq<(Id, InterruptUpdate)>) returns (r: Result<Snapshot, Error>)
    ensures r == ApplyInterruptUpdates(s, updates)
  {
    var interrupts := s.interrupts;
    var pending, approvals := s.runState.pendingInterrupts, s.runState.pendingApprovals;
    for i := 0 to |updates|
      invariant Fold(UpdateInterrupt, s, updates)
                == Fold(UpdateInterrupt,
                        s.(interrupts := interrupts,
                           runState := s.runState.(pendingInterrupts := pending, pendingApprovals := approvals)),
                        updates[i..])
    {
      var (id, u) := updates[i];
      assert updates[i..][0] == updates[i] && updates[i..][1..] == updates[i + 1..];
      if id !in interrupts || !AmendInterrupt(interrupts[id], u).Valid() {
        return Err(ValueError);
      }
      var updated := AmendInterrupt(interrupts[id], u);
      interrupts := interrupts[id := updated];
      if updated.status == Open {
        pending := MergeUnique(pending, [id]);
        if updated.kind == ApprovalRequired {
          approvals := MergeUnique(approvals, [id]);
        }
      } else {
        pending := Without(pending, {id});
        approvals := Without(approvals, {id});
      }
    }
    if updates == [] {
      return Ok(s);
    }
    return Ok(s.(interrupts := interrupts,
                 runState := s.runState.(pendingInterrupts := pending, pendingApprovals := approvals,
                                         version := s.runState.version + 1)));
  }

  method CreateDecisions(s: Snapshot, created: seq<PolicyDecision>) returns (r: Result<Snapshot, Error>)
    ensures r == Fold(AddDecision, s, created)
  {
    var decisions, nodes := s.decisions, s.nodes;
    for i := 0 to |created|
      invariant Fold(AddDecision, s, created)
                == Fold(AddDecision, s.(decisions := decisions, nodes := nodes), created[i..])
    {
      var d := created[i];
      assert created[i..][0] == d && created[i..][1..] == created[i + 1..];
      if d.runId != s.runState.runId || d.decisionId in decisions {
        return Err(ValueError);
      }
      decisions := decisions[d.decisionId := d];
      if d.nodeId.Some? && d.nodeId.value in nodes {
        var n := nodes[d.nodeId.value];
        if d.decisionId !in n.decisionIds {
          nodes := nodes[d.nodeId.value :=
            n.(decisionIds := n.decisionIds + [d.decisionId], version := n.version + 1)];
        }
      }
    }
    return Ok(s.(decisions := decisions, nodes := nodes));
  }

  method CreateSideEffects(s: Snapshot, created: seq<SideEffect>) returns (r: Result<Snapshot, Error>)
    ensures r == Fold(AddSideEffect, s, created)
  {
    var sideEffects, nodes := s.sideEffects, s.nodes;
    for i := 0 to |created|
      invariant Fold(AddSideEffect, s, created)
                == Fold(AddSideEffect, s.(sideEffects := sideEffects, nodes := nodes), created[i..])
    {
      var e := created[i];
      assert created[i..][0] == e && created[i..][1..] == created[i + 1..];
      if e.runId != s.runState.runId || e.sideEffectId in sideEffects {
        return Err(ValueError);
      }
      sideEffects := sideEffects[e.sideEffectId := e];
      if e.nodeId in nodes {
        var n := nodes[e.nodeId];
        if e.sideEffectId !in n.sideEffectIds {
          nodes := nodes[e.nodeId :=
            n.(sideEffectIds := n.sideEffectIds + [e.sideEffectId], version := n.version + 1)];
        }
      }
    }
    return Ok(s.(sideEffects := sideEffects, nodes := nodes));
  }

  method ApplyPatch(s: Snapshot, p: StatePatch) returns (r: Result<Snapshot, Error>)
    ensures r == Apply(s, p)
  {
    r := ApplyRecords(s, p);
    if r.Err? { return; }
    r := UpsertNodes(r.value, p.upserts);
    if r.Err? { return; }
    r := UpdateNodes(r.value, p.nodes);
    if r.Err? { return; }
    r := CreateArtifacts(r.value, p.artifacts);
    if r.Err? { return; }
    r := CreateInterrupts(r.value, p.interrupts);
    if r.Err? { return; }
    r := UpdateInterrupts(r.value, p.interruptUpdates);
    if r.Err? { return; }
    r := CreateDecisions(r.value, p.decisions);
    if r.Err? { return; }
    r := CreateSideEffects(r.value, p.sideEffects);
  }
}
