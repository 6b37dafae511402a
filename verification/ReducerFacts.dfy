/** What one reducer application guarantees, whatever the patch: indexes keep agreeing with the
    records they list, versions move only forward, and nothing else changes. */
module ReducerFacts {
  import opened Common
  import opened Lists
  import opened Models
  import opened Reducer

  /* ---- Exact effect of each fold ---- */

  /** A node up to the fields the record-creating stages may touch. */
  function Core(n: NodeState): NodeState {
    n.(output := None, decisionIds := [], sideEffectIds := [], version := 0)
  }

  /** Untouched, or touched with a higher version and only back-links changed. */
  ghost predicate Linked(before: NodeState, after: NodeState) {
    Core(after) == Core(before) && (after == before || after.version > before.version)
  }

  ghost predicate NodesLinked(before: map<NodeId, NodeState>, after: map<NodeId, NodeState>) {
    after.Keys == before.Keys && forall n | n in before :: Linked(before[n], after[n])
  }

  ghost predicate Extends<K, V>(before: map<K, V>, after: map<K, V>) {
    forall k | k in before :: k in after && after[k] == before[k]
  }

  lemma {:induction false} ArtifactFold(s: Snapshot, xs: seq<ArtifactRecord>)
    requires Fold(AddArtifact, s, xs).Ok?
    ensures var r := Fold(AddArtifact, s, xs).value;
            && r == s.(artifacts := r.artifacts, nodes := r.nodes)
            && NodesLinked(s.nodes, r.nodes)
            && (forall n | n in s.nodes ::
                  && r.nodes[n].decisionIds == s.nodes[n].decisionIds
                  && r.nodes[n].sideEffectIds == s.nodes[n].sideEffectIds
                  && (s.nodes[n].output.Some? ==> r.nodes[n] == s.nodes[n]))
            && Extends(s.artifacts, r.artifacts)
            && (forall x | x in xs :: x.artifactId !in s.artifacts && x.artifactId in r.artifacts
                                      && r.artifacts[x.artifactId] == x
                                      && x.runId == s.runState.runId && x.threadId == s.threadState.threadId)
            && (forall a | a in r.artifacts && a !in s.artifacts :: r.artifacts[a] in xs && r.artifacts[a].artifactId == a)
    decreases |xs|
  {
    if xs != [] {
      ArtifactFold(AddArtifact(s, xs[0]).value, xs[1..]);
      assert forall x :: x in xs <==> x == xs[0] || x in xs[1..];
    }
  }

  lemma {:induction false} InterruptFold(s: Snapshot, xs: seq<InterruptRecord>)
    requires Fold(AddInterrupt, s, xs).Ok?
    ensures var r := Fold(AddInterrupt, s, xs).value;
            && r == s.(interrupts := r.interrupts)
            && Extends(s.interrupts, r.interrupts)
            && (forall x | x in xs :: x.interruptId !in s.interrupts && x.interruptId in r.interrupts
                                      && r.interrupts[x.interruptId] == x
                                      && x.runId == s.runState.runId && x.threadId == s.threadState.threadId)
            && (forall i | i in r.interrupts && i !in s.interrupts ::
                  r.interrupts[i] in xs && r.interrupts[i].interruptId == i)
    decreases |xs|
  {
    if xs != [] {
      InterruptFold(AddInterrupt(s, xs[0]).value, xs[1..]);
      assert forall x :: x in xs <==> x == xs[0] || x in xs[1..];
    }
  }

  /** The ids of the decisions naming a node, in order. */
  function DecisionIdsFor(xs: seq<PolicyDecision>, n: NodeId): seq<Id> {
    if xs == [] then []
    else if xs[0].nodeId == Some(n) then [xs[0].decisionId] + DecisionIdsFor(xs[1..], n)
    else DecisionIdsFor(xs[1..], n)
  }

  lemma {:induction false} DecisionIdsForMembers(xs: seq<PolicyDecision>, n: NodeId)
    ensures forall d :: d in DecisionIdsFor(xs, n) <==> exists x :: x in xs && x.nodeId == Some(n) && x.decisionId == d
  {
    if xs != [] {
      DecisionIdsForMembers(xs[1..], n);
      assert forall x :: x in xs <==> x == xs[0] || x in xs[1..];
    }
  }

  ghost predicate DecisionListsWithin(s: Snapshot) {
    forall n, d | n in s.nodes && d in s.nodes[n].decisionIds :: d in s.decisions
  }

  lemma AddDecisionStep(s: Snapshot, x: PolicyDecision)
    requires AddDecision(s, x).Ok? && DecisionListsWithin(s)
    ensures var r := AddDecision(s, x).value;
            && r == s.(decisions := s.decisions[x.decisionId := x], nodes := r.nodes)
            && NodesLinked(s.nodes, r.nodes)
            && (forall n | n in s.nodes ::
                  && r.nodes[n].decisionIds == s.nodes[n].decisionIds + (if x.nodeId == Some(n) then [x.decisionId] else [])
                  && r.nodes[n].sideEffectIds == s.nodes[n].sideEffectIds)
            && DecisionListsWithin(r)
  {
  }

  lemma {:induction false} DecisionRecords(s: Snapshot, xs: seq<PolicyDecision>)
    requires Fold(AddDecision, s, xs).Ok?
    ensures var r := Fold(AddDecision, s, xs).value;
            && r == s.(decisions := r.decisions, nodes := r.nodes)
            && Extends(s.decisions, r.decisions)
            && (forall x | x in xs :: x.decisionId !in s.decisions && x.decisionId in r.decisions
                                      && r.decisions[x.decisionId] == x && x.runId == s.runState.runId)
            && (forall k | k in r.decisions && k !in s.decisions :: r.decisions[k] in xs && r.decisions[k].decisionId == k)
    decreases |xs|
  {
    if xs != [] {
      DecisionRecords(AddDecision(s, xs[0]).value, xs[1..]);
      assert forall x :: x in xs <==> x == xs[0] || x in xs[1..];
    }
  }

  /** Each node's list grows by exactly the new records naming it, in creation order. */
  lemma {:induction false} DecisionLinks(s: Snapshot, xs: seq<PolicyDecision>)
    requires Fold(AddDecision, s, xs).Ok? && DecisionListsWithin(s)
    ensures var r := Fold(AddDecision, s, xs).value;
            && NodesLinked(s.nodes, r.nodes)
            && (forall n | n in s.nodes ::
                  && r.nodes[n].decisionIds == s.nodes[n].decisionIds + DecisionIdsFor(xs, n)
                  && r.nodes[n].sideEffectIds == s.nodes[n].sideEffectIds)
    decreases |xs|
  {
    hide AddDecision, Core;
    if xs != [] {
      var t := AddDecision(s, xs[0]).value;
      AddDecisionStep(s, xs[0]);
      DecisionLinks(t, xs[1..]);
    }
  }

  function SideEffectIdsFor(xs: seq<SideEffect>, n: NodeId): seq<Id> {
    if xs == [] then []
    else if xs[0].nodeId == n then [xs[0].sideEffectId] + SideEffectIdsFor(xs[1..], n)
    else SideEffectIdsFor(xs[1..], n)
  }

  lemma {:induction false} SideEffectIdsForMembers(xs: seq<SideEffect>, n: NodeId)
    ensures forall e :: e in SideEffectIdsFor(xs, n) <==> exists x :: x in xs && x.nodeId == n && x.sideEffectId == e
  {
    if xs != [] {
      SideEffectIdsForMembers(xs[1..], n);
      assert forall x :: x in xs <==> x == xs[0] || x in xs[1..];
    }
  }

  ghost predicate SideEffectListsWithin(s: Snapshot) {
    forall n, e | n in s.nodes && e in s.nodes[n].sideEffectIds :: e in s.sideEffects
  }

  lemma AddSideEffectStep(s: Snapshot, x: SideEffect)
    requires AddSideEffect(s, x).Ok? && SideEffectListsWithin(s)
    ensures var r := AddSideEffect(s, x).value;
            && r == s.(sideEffects := s.sideEffects[x.sideEffectId := x], nodes := r.nodes)
            && NodesLinked(s.nodes, r.nodes)
            && (forall n | n in s.nodes ::
                  && r.nodes[n].sideEffectIds == s.nodes[n].sideEffectIds + (if x.nodeId == n then [x.sideEffectId] else [])
                  && r.nodes[n].decisionIds == s.nodes[n].decisionIds)
            && SideEffectListsWithin(r)
  {
  }

  lemma {:induction false} SideEffectRecords(s: Snapshot, xs: seq<SideEffect>)
    requires Fold(AddSideEffect, s, xs).Ok?
    ensures var r := Fold(AddSideEffect, s, xs).value;
            && r == s.(sideEffects := r.sideEffects, nodes := r.nodes)
            && Extends(s.sideEffects, r.sideEffects)
            && (forall x | x in xs :: x.sideEffectId !in s.sideEffects && x.sideEffectId in r.sideEffects
                                      && r.sideEffects[x.sideEffectId] == x && x.runId == s.runState.runId)
            && (forall k | k in r.sideEffects && k !in s.sideEffects :: r.sideEffects[k] in xs && r.sideEffects[k].sideEffectId == k)
    decreases |xs|
  {
    if xs != [] {
      SideEffectRecords(AddSideEffect(s, xs[0]).value, xs[1..]);
      assert forall x :: x in xs <==> x == xs[0] || x in xs[1..];
    }
  }

  /** Each node's list grows by exactly the new records naming it, in creation order. */
  lemma {:induction false} SideEffectLinks(s: Snapshot, xs: seq<SideEffect>)
    requires Fold(AddSideEffect, s, xs).Ok? && SideEffectListsWithin(s)
    ensures var r := Fold(AddSideEffect, s, xs).value;
            && NodesLinked(s.nodes, r.nodes)
            && (forall n | n in s.nodes ::
                  && r.nodes[n].sideEffectIds == s.nodes[n].sideEffectIds + SideEffectIdsFor(xs, n)
                  && r.nodes[n].decisionIds == s.nodes[n].decisionIds)
    decreases |xs|
  {
    hide AddSideEffect, Core;
    if xs != [] {
      var t := AddSideEffect(s, xs[0]).value;
      AddSideEffectStep(s, xs[0]);
      SideEffectLinks(t, xs[1..]);
    }
  }

  /** The same interrupt at a later version, or untouched. */
  ghost predicate Amended(before: InterruptRecord, after: InterruptRecord) {
    || after == before
    || (&& after.version > before.version
        && after == before.(status := after.status, resolvedAt := after.resolvedAt,
                            resolution := after.resolution, version := after.version))
  }

  ghost predicate InterruptsAmended(before: map<Id, InterruptRecord>, after: map<Id, InterruptRecord>) {
    after.Keys == before.Keys && forall i | i in before :: Amended(before[i], after[i])
  }

  /** Pending interrupts are the open ones, pending approvals the open ones asking for an approval. */
  ghost predicate PendingAgrees(pending: seq<Id>, approvals: seq<Id>, interrupts: map<Id, InterruptRecord>) {
    && (forall i :: i in pending <==> i in interrupts && interrupts[i].status == Open)
    && (forall i :: i in approvals <==> i in interrupts && Asks(interrupts[i], true))
  }

  ghost predicate PendingUnique(r: RunState) {
    Unique(r.pendingInterrupts) && Unique(r.pendingApprovals)
  }

  ghost predicate InterruptsValid(interrupts: map<Id, InterruptRecord>) {
    forall i | i in interrupts :: interrupts[i].Valid()
  }

  lemma UpdateInterruptStep(s: Snapshot, x: (Id, InterruptUpdate))
    requires UpdateInterrupt(s, x).Ok?
    ensures var r := UpdateInterrupt(s, x).value;
            && r == s.(interrupts := s.interrupts[x.0 := AmendInterrupt(s.interrupts[x.0], x.1)],
                       runState := s.runState.(pendingInterrupts := r.runState.pendingInterrupts,
                                               pendingApprovals := r.runState.pendingApprovals))
            && InterruptsAmended(s.interrupts, r.interrupts)
            && (InterruptsValid(s.interrupts) ==> InterruptsValid(r.interrupts))
            && (PendingUnique(s.runState) ==> PendingUnique(r.runState))
            && (PendingAgrees(s.runState.pendingInterrupts, s.runState.pendingApprovals, s.interrupts) ==>
                  PendingAgrees(r.runState.pendingInterrupts, r.runState.pendingApprovals, r.interrupts))
  {
  }

  lemma {:induction false} InterruptUpdateFold(s: Snapshot, xs: seq<(Id, InterruptUpdate)>)
    requires Fold(UpdateInterrupt, s, xs).Ok?
    ensures var r := Fold(UpdateInterrupt, s, xs).value;
            && r == s.(interrupts := r.interrupts,
                       runState := s.runState.(pendingInterrupts := r.runState.pendingInterrupts,
                                               pendingApprovals := r.runState.pendingApprovals))
            && InterruptsAmended(s.interrupts, r.interrupts)
            && (InterruptsValid(s.interrupts) ==> InterruptsValid(r.interrupts))
            && (PendingUnique(s.runState) ==> PendingUnique(r.runState))
            && (PendingAgrees(s.runState.pendingInterrupts, s.runState.pendingApprovals, s.interrupts) ==>
                  PendingAgrees(r.runState.pendingInterrupts, r.runState.pendingApprovals, r.interrupts))
    decreases |xs|
  {
    if xs != [] {
      UpdateInterruptStep(s, xs[0]);
      InterruptUpdateFold(UpdateInterrupt(s, xs[0]).value, xs[1..]);
    }
  }

  /* ---- Snapshots whose indexes agree with their records ---- */

  /** Every record sits under its own id and belongs to the run. */
  ghost predicate Owned(run: Id, nodes: map<NodeId, NodeState>, artifacts: map<Id, ArtifactRecord>,
                        interrupts: map<Id, InterruptRecord>, decisions: map<Id, PolicyDecision>,
                        sideEffects: map<Id, SideEffect>) {
    && (forall n | n in nodes :: nodes[n].nodeId == n && nodes[n].runId == run)
    && (forall a | a in artifacts :: artifacts[a].artifactId == a && artifacts[a].runId == run)
    && (forall i | i in interrupts :: interrupts[i].interruptId == i && interrupts[i].runId == run)
    && (forall d | d in decisions :: decisions[d].decisionId == d && decisions[d].runId == run)
    && (forall e | e in sideEffects :: sideEffects[e].sideEffectId == e && sideEffects[e].runId == run)
  }

  ghost predicate Coherent(s: Snapshot) {
    && s.runState.runId == s.run.runId
    && s.thread.threadId == s.threadState.threadId == s.runState.threadId == s.run.threadId
    && Owned(s.run.runId, s.nodes, s.artifacts, s.interrupts, s.decisions, s.sideEffects)
  }

  ghost predicate NodesValid(nodes: map<NodeId, NodeState>) {
    forall n | n in nodes :: nodes[n].Valid()
  }

  /** Every record passed the checks of its constructor. */
  ghost predicate RecordsValid(s: Snapshot) {
    s.runState.Valid() && Unique(s.threadState.artifactIds) && NodesValid(s.nodes) && InterruptsValid(s.interrupts)
  }

  ghost predicate DecisionsLinked(nodes: map<NodeId, NodeState>, decisions: map<Id, PolicyDecision>) {
    forall n, d | n in nodes :: d in nodes[n].decisionIds <==> d in decisions && decisions[d].nodeId == Some(n)
  }

  ghost predicate SideEffectsLinked(nodes: map<NodeId, NodeState>, sideEffects: map<Id, SideEffect>) {
    forall n, e | n in nodes :: e in nodes[n].sideEffectIds <==> e in sideEffects && sideEffects[e].nodeId == n
  }

  ghost predicate ArtifactsListed(listed: seq<Id>, artifacts: map<Id, ArtifactRecord>) {
    forall a | a in artifacts :: a in listed
  }

  ghost predicate IndexesAgree(s: Snapshot) {
    && PendingAgrees(s.runState.pendingInterrupts, s.runState.pendingApprovals, s.interrupts)
    && DecisionsLinked(s.nodes, s.decisions)
    && SideEffectsLinked(s.nodes, s.sideEffects)
    && ArtifactsListed(s.threadState.artifactIds, s.artifacts)
  }

  ghost predicate SnapshotOk(s: Snapshot) {
    Coherent(s) && RecordsValid(s) && IndexesAgree(s)
  }

  lemma RecordsStageKeeps(s: Snapshot, p: StatePatch)
    requires SnapshotOk(s) && ApplyRecords(s, p).Ok?
    ensures SnapshotOk(ApplyRecords(s, p).value)
  {
  }

  ghost predicate SameLinks(before: map<NodeId, NodeState>, after: map<NodeId, NodeState>) {
    && after.Keys == before.Keys
    && forall n | n in before ::
         && after[n].nodeId == before[n].nodeId
         && after[n].runId == before[n].runId
         && after[n].decisionIds == before[n].decisionIds
         && after[n].sideEffectIds == before[n].sideEffectIds
  }

  lemma SameLinksKeep(before: map<NodeId, NodeState>, after: map<NodeId, NodeState>,
                      decisions: map<Id, PolicyDecision>, sideEffects: map<Id, SideEffect>)
    requires SameLinks(before, after)
    ensures DecisionsLinked(before, decisions) ==> DecisionsLinked(after, decisions)
    ensures SideEffectsLinked(before, sideEffects) ==> SideEffectsLinked(after, sideEffects)
  {
  }

  lemma NodeStageKeeps(s: Snapshot, updates: map<NodeId, NodeUpdate>)
    requires SnapshotOk(s) && ApplyNodeUpdates(s, updates).Ok?
    ensures SnapshotOk(ApplyNodeUpdates(s, updates).value)
  {
    var r := ApplyNodeUpdates(s, updates).value;
    assert SameLinks(s.nodes, r.nodes) && NodesValid(r.nodes);
    SameLinksKeep(s.nodes, r.nodes, s.decisions, s.sideEffects);
  }

  lemma ArtifactsValid(before: map<NodeId, NodeState>, after: map<NodeId, NodeState>)
    requires NodesLinked(before, after) && SameLinks(before, after) && NodesValid(before)
    ensures NodesValid(after)
  {
    forall n | n in after ensures after[n].Valid() {
      assert Linked(before[n], after[n]);
      assert Core(after[n]).status == before[n].status && Core(after[n]).started == before[n].started;
    }
  }

  lemma ArtifactStageNodes(s: Snapshot, xs: seq<ArtifactRecord>)
    requires ApplyArtifacts(s, xs).Ok? && NodesValid(s.nodes)
    requires DecisionsLinked(s.nodes, s.decisions) && SideEffectsLinked(s.nodes, s.sideEffects)
    ensures var nodes := ApplyArtifacts(s, xs).value.nodes;
            NodesValid(nodes) && DecisionsLinked(nodes, s.decisions) && SideEffectsLinked(nodes, s.sideEffects)
  {
    hide DecisionsLinked, SideEffectsLinked, NodesValid;
    ArtifactFold(s, xs);
    var nodes := ApplyArtifacts(s, xs).value.nodes;
    LinkedKeepsIdentity(s.nodes, nodes);
    ArtifactsValid(s.nodes, nodes);
    SameLinksKeep(s.nodes, nodes, s.decisions, s.sideEffects);
  }

  lemma ArtifactStageFrame(s: Snapshot, xs: seq<ArtifactRecord>)
    requires ApplyArtifacts(s, xs).Ok? && Coherent(s)
    ensures var r := ApplyArtifacts(s, xs).value;
            && Coherent(r)
            && r == s.(artifacts := r.artifacts, nodes := r.nodes,
                       threadState := s.threadState.(artifactIds := r.threadState.artifactIds,
                                                     version := r.threadState.version))
            && (Unique(s.threadState.artifactIds) ==> Unique(r.threadState.artifactIds))
  {
    ArtifactFold(s, xs);
    LinkedKeepsIdentity(s.nodes, ApplyArtifacts(s, xs).value.nodes);
  }

  lemma ArtifactStageKeeps(s: Snapshot, xs: seq<ArtifactRecord>)
    requires SnapshotOk(s) && ApplyArtifacts(s, xs).Ok?
    ensures SnapshotOk(ApplyArtifacts(s, xs).value)
  {
    hide ApplyArtifacts, DecisionsLinked, SideEffectsLinked, NodesValid, PendingAgrees, InterruptsValid, Coherent;
    ArtifactStageNodes(s, xs);
    ArtifactStageFrame(s, xs);
    ArtifactStageLists(s, xs);
  }

  lemma ArtifactStageLists(s: Snapshot, xs: seq<ArtifactRecord>)
    requires ArtifactsListed(s.threadState.artifactIds, s.artifacts) && ApplyArtifacts(s, xs).Ok?
    ensures var r := ApplyArtifacts(s, xs).value; ArtifactsListed(r.threadState.artifactIds, r.artifacts)
  {
    ArtifactFold(s, xs);
    forall x | x in xs ensures x.artifactId in ArtifactIds(xs) {
      var k :| 0 <= k < |xs| && xs[k] == x;
      assert ArtifactIds(xs)[k] == x.artifactId;
    }
  }

  lemma {:induction false} OpenIdsMembers(xs: seq<InterruptRecord>, approvalsOnly: bool)
    ensures forall x :: x in OpenIds(xs, approvalsOnly) <==>
              exists i :: i in xs && i.interruptId == x && Asks(i, approvalsOnly)
  {
    if xs != [] {
      OpenIdsMembers(xs[1..], approvalsOnly);
      assert forall i :: i in xs <==> i == xs[0] || i in xs[1..];
    }
  }

  lemma InterruptStagePending(s: Snapshot, xs: seq<InterruptRecord>)
    requires PendingAgrees(s.runState.pendingInterrupts, s.runState.pendingApprovals, s.interrupts) && ApplyInterrupts(s, xs).Ok?
    ensures var r := ApplyInterrupts(s, xs).value;
            PendingAgrees(r.runState.pendingInterrupts, r.runState.pendingApprovals, r.interrupts)
  {
    InterruptFold(s, xs);
    OpenIdsMembers(xs, false);
    OpenIdsMembers(xs, true);
    ApprovalsAreOpen(xs);
    var r := ApplyInterrupts(s, xs).value;
    forall i ensures i in r.runState.pendingInterrupts <==> i in r.interrupts && r.interrupts[i].status == Open {
      assert i in r.runState.pendingInterrupts <==> (i in s.runState.pendingInterrupts || i in OpenIds(xs, false));
    }
    forall i ensures i in r.runState.pendingApprovals <==> i in r.interrupts && Asks(r.interrupts[i], true) {
      assert i in r.runState.pendingApprovals <==> (i in s.runState.pendingApprovals || i in OpenIds(xs, true));
    }
  }

  lemma InterruptStageKeeps(s: Snapshot, xs: seq<InterruptRecord>)
    requires SnapshotOk(s) && ApplyInterrupts(s, xs).Ok?
    requires forall i | i in xs :: i.Valid()
    ensures SnapshotOk(ApplyInterrupts(s, xs).value)
  {
    InterruptFold(s, xs);
    InterruptStagePending(s, xs);
  }

  lemma InterruptUpdateStageKeeps(s: Snapshot, xs: seq<(Id, InterruptUpdate)>)
    requires SnapshotOk(s) && ApplyInterruptUpdates(s, xs).Ok?
    ensures SnapshotOk(ApplyInterruptUpdates(s, xs).value)
  {
    InterruptUpdateFold(s, xs);
    var r := ApplyInterruptUpdates(s, xs).value;
    assert Coherent(r);
    assert RecordsValid(r);
    assert PendingAgrees(r.runState.pendingInterrupts, r.runState.pendingApprovals, r.interrupts);
  }

  lemma LinkedKeepsIdentity(before: map<NodeId, NodeState>, after: map<NodeId, NodeState>)
    requires NodesLinked(before, after)
    ensures forall n | n in before ::
              after[n].nodeId == before[n].nodeId && after[n].runId == before[n].runId
              && after[n].status == before[n].status && after[n].attempt == before[n].attempt
              && after[n].started == before[n].started && after[n].version >= before[n].version
  {
    forall n | n in before
      ensures after[n].nodeId == before[n].nodeId && after[n].runId == before[n].runId
              && after[n].status == before[n].status && after[n].attempt == before[n].attempt
              && after[n].started == before[n].started && after[n].version >= before[n].version
    {
      var c := Core(after[n]);
      assert Linked(before[n], after[n]);
      assert c.nodeId == before[n].nodeId && c.runId == before[n].runId && c.status == before[n].status
          && c.attempt == before[n].attempt && c.started == before[n].started;
    }
  }

  lemma DecisionNaming(s: Snapshot, xs: seq<PolicyDecision>, n: NodeId, x: Id)
    requires Fold(AddDecision, s, xs).Ok?
    ensures var r := Fold(AddDecision, s, xs).value;
            (x in r.decisions && r.decisions[x].nodeId == Some(n))
            <==> (x in s.decisions && s.decisions[x].nodeId == Some(n)) || x in DecisionIdsFor(xs, n)
  {
    DecisionRecords(s, xs);
    DecisionIdsForMembers(xs, n);
  }

  lemma DecisionStageLinks(s: Snapshot, xs: seq<PolicyDecision>)
    requires DecisionsLinked(s.nodes, s.decisions) && Fold(AddDecision, s, xs).Ok?
    ensures var r := Fold(AddDecision, s, xs).value; DecisionsLinked(r.nodes, r.decisions)
  {
    DecisionLinks(s, xs);
    var r := Fold(AddDecision, s, xs).value;
    forall n, x | n in r.nodes
      ensures x in r.nodes[n].decisionIds <==> x in r.decisions && r.decisions[x].nodeId == Some(n)
    {
      DecisionNaming(s, xs, n, x);
    }
  }

  lemma DecisionStageNodes(s: Snapshot, xs: seq<PolicyDecision>)
    requires DecisionsLinked(s.nodes, s.decisions) && Fold(AddDecision, s, xs).Ok?
    ensures var r := Fold(AddDecision, s, xs).value;
            && r == s.(decisions := r.decisions, nodes := r.nodes)
            && NodesLinked(s.nodes, r.nodes)
            && (forall n | n in s.nodes :: r.nodes[n].sideEffectIds == s.nodes[n].sideEffectIds)
            && (NodesValid(s.nodes) ==> NodesValid(r.nodes))
  {
    DecisionRecords(s, xs);
    DecisionLinks(s, xs);
    var r := Fold(AddDecision, s, xs).value;
    if NodesValid(s.nodes) {
      forall n | n in r.nodes ensures r.nodes[n].Valid() {
        FreshIdsStayUnique(s, xs, n);
        assert Linked(s.nodes[n], r.nodes[n]);
        assert Core(r.nodes[n]).status == s.nodes[n].status && Core(r.nodes[n]).started == s.nodes[n].started;
      }
    }
  }

  /** Once nodes and link records are known to be in order, the rest of the snapshot is unchanged. */
  lemma Reassemble(s: Snapshot, r: Snapshot)
    requires RecordsValid(s) && PendingAgrees(s.runState.pendingInterrupts, s.runState.pendingApprovals, s.interrupts)
    requires ArtifactsListed(s.threadState.artifactIds, s.artifacts)
    requires r == s.(decisions := r.decisions, sideEffects := r.sideEffects, nodes := r.nodes)
    requires Coherent(r) && NodesValid(r.nodes)
    requires DecisionsLinked(r.nodes, r.decisions) && SideEffectsLinked(r.nodes, r.sideEffects)
    ensures SnapshotOk(r)
  {
  }

  lemma DecisionStageCoherent(s: Snapshot, xs: seq<PolicyDecision>)
    requires Coherent(s) && DecisionListsWithin(s) && Fold(AddDecision, s, xs).Ok?
    ensures Coherent(Fold(AddDecision, s, xs).value)
  {
    DecisionRecords(s, xs);
    DecisionLinks(s, xs);
    LinkedKeepsIdentity(s.nodes, Fold(AddDecision, s, xs).value.nodes);
  }

  lemma DecisionStageFrame(s: Snapshot, xs: seq<PolicyDecision>)
    requires DecisionsLinked(s.nodes, s.decisions)
    requires SideEffectsLinked(s.nodes, s.sideEffects) && Fold(AddDecision, s, xs).Ok?
    ensures var r := Fold(AddDecision, s, xs).value; SideEffectsLinked(r.nodes, s.sideEffects)
  {
    hide Fold, AddDecision;
    DecisionStageNodes(s, xs);
    var r := Fold(AddDecision, s, xs).value;
    forall n, x | n in r.nodes
      ensures x in r.nodes[n].sideEffectIds <==> x in s.sideEffects && s.sideEffects[x].nodeId == n
    {
    }
  }

  lemma DecisionStageKeeps(s: Snapshot, xs: seq<PolicyDecision>)
    requires SnapshotOk(s) && Fold(AddDecision, s, xs).Ok?
    ensures SnapshotOk(Fold(AddDecision, s, xs).value)
  {
    hide SideEffectsLinked, PendingAgrees, Coherent, NodesValid;
    DecisionStageNodes(s, xs);
    DecisionStageLinks(s, xs);
    DecisionStageCoherent(s, xs);
    DecisionStageFrame(s, xs);
    Reassemble(s, Fold(AddDecision, s, xs).value);
  }

  /** New decisions carry distinct new ids, so appending them keeps a list free of duplicates. */
  lemma {:induction false} FreshIdsStayUnique(s: Snapshot, xs: seq<PolicyDecision>, n: NodeId)
    requires Fold(AddDecision, s, xs).Ok? && n in s.nodes && DecisionListsWithin(s)
    requires Unique(s.nodes[n].decisionIds)
    ensures Unique(s.nodes[n].decisionIds + DecisionIdsFor(xs, n))
    decreases |xs|
  {
    hide NodesLinked;
    if xs == [] {
      assert s.nodes[n].decisionIds + [] == s.nodes[n].decisionIds;
    } else {
      var t := AddDecision(s, xs[0]).value;
      AddDecisionStep(s, xs[0]);
      FreshIdsStayUnique(t, xs[1..], n);
      assert s.nodes[n].decisionIds + DecisionIdsFor(xs, n) == t.nodes[n].decisionIds + DecisionIdsFor(xs[1..], n);
    }
  }

  lemma SideEffectNaming(s: Snapshot, xs: seq<SideEffect>, n: NodeId, x: Id)
    requires Fold(AddSideEffect, s, xs).Ok?
    ensures var r := Fold(AddSideEffect, s, xs).value;
            (x in r.sideEffects && r.sideEffects[x].nodeId == n)
            <==> (x in s.sideEffects && s.sideEffects[x].nodeId == n) || x in SideEffectIdsFor(xs, n)
  {
    SideEffectRecords(s, xs);
    SideEffectIdsForMembers(xs, n);
  }

  lemma SideEffectStageLinks(s: Snapshot, xs: seq<SideEffect>)
    requires SideEffectsLinked(s.nodes, s.sideEffects) && Fold(AddSideEffect, s, xs).Ok?
    ensures var r := Fold(AddSideEffect, s, xs).value; SideEffectsLinked(r.nodes, r.sideEffects)
  {
    SideEffectLinks(s, xs);
    var r := Fold(AddSideEffect, s, xs).value;
    forall n, x | n in r.nodes
      ensures x in r.nodes[n].sideEffectIds <==> x in r.sideEffects && r.sideEffects[x].nodeId == n
    {
      SideEffectNaming(s, xs, n, x);
    }
  }

  lemma SideEffectStageNodes(s: Snapshot, xs: seq<SideEffect>)
    requires SideEffectsLinked(s.nodes, s.sideEffects) && Fold(AddSideEffect, s, xs).Ok?
    ensures var r := Fold(AddSideEffect, s, xs).value;
            && r == s.(sideEffects := r.sideEffects, nodes := r.nodes)
            && NodesLinked(s.nodes, r.nodes)
            && (forall n | n in s.nodes :: r.nodes[n].decisionIds == s.nodes[n].decisionIds)
            && (NodesValid(s.nodes) ==> NodesValid(r.nodes))
  {
    SideEffectRecords(s, xs);
    SideEffectLinks(s, xs);
    var r := Fold(AddSideEffect, s, xs).value;
    if NodesValid(s.nodes) {
      forall n | n in r.nodes ensures r.nodes[n].Valid() {
        FreshEffectsStayUnique(s, xs, n);
        assert Linked(s.nodes[n], r.nodes[n]);
        assert Core(r.nodes[n]).status == s.nodes[n].status && Core(r.nodes[n]).started == s.nodes[n].started;
      }
    }
  }

  lemma SideEffectStageCoherent(s: Snapshot, xs: seq<SideEffect>)
    requires Coherent(s) && SideEffectListsWithin(s) && Fold(AddSideEffect, s, xs).Ok?
    ensures Coherent(Fold(AddSideEffect, s, xs).value)
  {
    SideEffectRecords(s, xs);
    SideEffectLinks(s, xs);
    LinkedKeepsIdentity(s.nodes, Fold(AddSideEffect, s, xs).value.nodes);
  }

  lemma SideEffectStageFrame(s: Snapshot, xs: seq<SideEffect>)
    requires SideEffectsLinked(s.nodes, s.sideEffects)
    requires DecisionsLinked(s.nodes, s.decisions) && Fold(AddSideEffect, s, xs).Ok?
    ensures var r := Fold(AddSideEffect, s, xs).value; DecisionsLinked(r.nodes, s.decisions)
  {
    hide Fold, AddSideEffect;
    SideEffectStageNodes(s, xs);
    var r := Fold(AddSideEffect, s, xs).value;
    forall n, x | n in r.nodes
      ensures x in r.nodes[n].decisionIds <==> x in s.decisions && s.decisions[x].nodeId == Some(n)
    {
    }
  }

  lemma SideEffectStageKeeps(s: Snapshot, xs: seq<SideEffect>)
    requires SnapshotOk(s) && Fold(AddSideEffect, s, xs).Ok?
    ensures SnapshotOk(Fold(AddSideEffect, s, xs).value)
  {
    hide DecisionsLinked, PendingAgrees, Coherent, NodesValid;
    SideEffectStageNodes(s, xs);
    SideEffectStageLinks(s, xs);
    SideEffectStageCoherent(s, xs);
    SideEffectStageFrame(s, xs);
    Reassemble(s, Fold(AddSideEffect, s, xs).value);
  }

  lemma {:induction false} FreshEffectsStayUnique(s: Snapshot, xs: seq<SideEffect>, n: NodeId)
    requires Fold(AddSideEffect, s, xs).Ok? && n in s.nodes && SideEffectListsWithin(s)
    requires Unique(s.nodes[n].sideEffectIds)
    ensures Unique(s.nodes[n].sideEffectIds + SideEffectIdsFor(xs, n))
    decreases |xs|
  {
    hide NodesLinked;
    if xs == [] {
      assert s.nodes[n].sideEffectIds + [] == s.nodes[n].sideEffectIds;
    } else {
      var t := AddSideEffect(s, xs[0]).value;
      AddSideEffectStep(s, xs[0]);
      FreshEffectsStayUnique(t, xs[1..], n);
      assert s.nodes[n].sideEffectIds + SideEffectIdsFor(xs, n)
          == t.nodes[n].sideEffectIds + SideEffectIdsFor(xs[1..], n);
    }
  }

  /** A constructed node state that lists exactly the stored records naming its node. */
  ghost predicate LinkedNode(n: NodeState, decisions: map<Id, PolicyDecision>, sideEffects: map<Id, SideEffect>) {
    && n.Valid()
    && (forall d :: d in n.decisionIds <==> d in decisions && decisions[d].nodeId == Some(n.nodeId))
    && (forall e :: e in n.sideEffectIds <==> e in sideEffects && sideEffects[e].nodeId == n.nodeId)
  }

  lemma {:induction false} UpsertFold(s: Snapshot, xs: seq<NodeState>)
    requires Fold(UpsertNode, s, xs).Ok?
    requires forall i, j :: 0 <= i < j < |xs| ==> xs[i].nodeId != xs[j].nodeId
    requires forall n | n in xs :: n.nodeId !in s.nodes
    ensures var r := Fold(UpsertNode, s, xs).value;
            && r == s.(nodes := r.nodes)
            && Extends(s.nodes, r.nodes)
            && (forall x | x in xs :: x.nodeId in r.nodes && r.nodes[x.nodeId] == x && x.runId == s.runState.runId)
            && (forall n | n in r.nodes && n !in s.nodes :: r.nodes[n] in xs && r.nodes[n].nodeId == n)
    decreases |xs|
  {
    if xs != [] {
      forall n | n in xs[1..] ensures n.nodeId != xs[0].nodeId {
        var k :| 0 <= k < |xs[1..]| && xs[1..][k] == n;
        assert xs[k + 1] == n;
      }
      UpsertFold(UpsertNode(s, xs[0]).value, xs[1..]);
      assert forall x :: x in xs <==> x == xs[0] || x in xs[1..];
    }
  }

  lemma UpsertLinksIff(s: Snapshot, n: NodeState)
    requires UpsertNode(s, n).Ok? && DecisionsLinked(s.nodes, s.decisions) && SideEffectsLinked(s.nodes, s.sideEffects)
    ensures var nodes := UpsertNode(s, n).value.nodes;
            && (DecisionsLinked(nodes, s.decisions)
                <==> forall d :: d in n.decisionIds <==> d in s.decisions && s.decisions[d].nodeId == Some(n.nodeId))
            && (SideEffectsLinked(nodes, s.sideEffects)
                <==> forall e :: e in n.sideEffectIds <==> e in s.sideEffects && s.sideEffects[e].nodeId == n.nodeId)
  {
    var nodes := UpsertNode(s, n).value.nodes;
    assert nodes[n.nodeId] == n.(version := nodes[n.nodeId].version);
  }

  lemma UpsertValidIff(s: Snapshot, n: NodeState)
    requires UpsertNode(s, n).Ok? && NodesValid(s.nodes) && Coherent(s)
    ensures NodesValid(UpsertNode(s, n).value.nodes) <==> n.Valid()
    ensures var r := UpsertNode(s, n).value; r == s.(nodes := r.nodes) && Coherent(r)
  {
    var r := UpsertNode(s, n).value;
    assert r.nodes[n.nodeId].Valid() <==> n.Valid();
  }

  /** Inserting or replacing a node keeps the snapshot in order exactly when the node lists its records. */
  lemma UpsertKeepsIff(s: Snapshot, n: NodeState)
    requires SnapshotOk(s) && UpsertNode(s, n).Ok?
    ensures SnapshotOk(UpsertNode(s, n).value) <==> LinkedNode(n, s.decisions, s.sideEffects)
  {
    hide Coherent, NodesValid, InterruptsValid, PendingAgrees, ArtifactsListed, DecisionsLinked, SideEffectsLinked, UpsertNode;
    UpsertLinksIff(s, n);
    UpsertValidIff(s, n);
  }

  lemma {:induction false} UpsertStageKeeps(s: Snapshot, xs: seq<NodeState>)
    requires SnapshotOk(s) && Fold(UpsertNode, s, xs).Ok?
    requires forall x | x in xs :: LinkedNode(x, s.decisions, s.sideEffects)
    ensures var r := Fold(UpsertNode, s, xs).value; SnapshotOk(r) && r == s.(nodes := r.nodes)
    decreases |xs|
  {
    hide SnapshotOk, LinkedNode;
    if xs != [] {
      assert xs[0] in xs;
      UpsertKeepsIff(s, xs[0]);
      UpsertStageKeeps(UpsertNode(s, xs[0]).value, xs[1..]);
    }
  }

  /** The records a patch brings have passed their constructors, and its nodes list their records. */
  ghost predicate PatchOk(s: Snapshot, p: StatePatch) {
    && (forall n | n in p.upserts :: LinkedNode(n, s.decisions, s.sideEffects))
    && forall i | i in p.interrupts :: i.Valid()
  }

  /** After every patch the snapshot's redundant indexes still agree with its records. */
  lemma ApplyKeepsSnapshotOk(s: Snapshot, p: StatePatch)
    requires SnapshotOk(s) && PatchOk(s, p) && Apply(s, p).Ok?
    ensures SnapshotOk(Apply(s, p).value)
  {
    var s1 := ApplyRecords(s, p).value;
    RecordsStageKeeps(s, p);
    var s2 := Fold(UpsertNode, s1, p.upserts).value;
    UpsertStageKeeps(s1, p.upserts);
    var s3 := ApplyNodeUpdates(s2, p.nodes).value;
    NodeStageKeeps(s2, p.nodes);
    var s4 := ApplyArtifacts(s3, p.artifacts).value;
    ArtifactStageKeeps(s3, p.artifacts);
    var s5 := ApplyInterrupts(s4, p.interrupts).value;
    InterruptStageKeeps(s4, p.interrupts);
    var s6 := ApplyInterruptUpdates(s5, p.interruptUpdates).value;
    InterruptUpdateStageKeeps(s5, p.interruptUpdates);
    var s7 := Fold(AddDecision, s6, p.decisions).value;
    DecisionStageKeeps(s6, p.decisions);
    SideEffectStageKeeps(s7, p.sideEffects);
  }
}
