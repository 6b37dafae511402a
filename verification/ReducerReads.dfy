/** What a patch does to a snapshot, field by field, and which patches are accepted. */
module ReducerReads {
  import opened Common
  import opened Lists
  import opened Models
  import opened Reducer
  import opened ReducerFacts
  import opened ReducerVersions
  import opened ReducerFrames

  /** A field takes the value of its update, or keeps its own. */
  ghost predicate Takes<T>(before: T, update: Option<T>, after: T) {
    (update.Some? ==> after == update.value) && (update == None ==> after == before)
  }

  /* ---- Nodes ---- */

  ghost predicate LastUpsert(upserts: seq<NodeState>, n: NodeId, k: int) {
    0 <= k < |upserts| && upserts[k].nodeId == n && forall i :: k < i < |upserts| ==> upserts[i].nodeId != n
  }

  /** The node state that updates and artifacts of the patch meet: the last one upserted, or the stored one. */
  ghost predicate Given(nodes: map<NodeId, NodeState>, upserts: seq<NodeState>, n: NodeId, base: NodeState) {
    || (exists k :: LastUpsert(upserts, n, k) && base == upserts[k])
    || ((forall x | x in upserts :: x.nodeId != n) && n in nodes && base == nodes[n])
  }

  ghost predicate FirstBy(artifacts: seq<ArtifactRecord>, n: NodeId, k: int) {
    0 <= k < |artifacts| && artifacts[k].producer == n && forall i :: 0 <= i < k ==> artifacts[i].producer != n
  }

  /** The output of a node is its own, or else the first artifact it is named as producer of. */
  ghost predicate OutputIs(before: Option<Id>, artifacts: seq<ArtifactRecord>, n: NodeId, after: Option<Id>) {
    && (before.Some? ==> after == before)
    && (before == None ==>
          && (after == None <==> forall a | a in artifacts :: a.producer != n)
          && forall k :: FirstBy(artifacts, n, k) ==> after == Some(artifacts[k].artifactId))
  }

  lemma {:induction false} UpsertsGive(s: Snapshot, xs: seq<NodeState>, n: NodeId)
    requires Fold(UpsertNode, s, xs).Ok?
    ensures var r := Fold(UpsertNode, s, xs).value.nodes;
            && (n in r <==> n in s.nodes || exists x :: x in xs && x.nodeId == n)
            && (n in r ==> exists base :: Given(s.nodes, xs, n, base) && r[n] == base.(version := r[n].version))
    decreases |xs|
  {
    if xs == [] {
      assert n in s.nodes ==> Given(s.nodes, xs, n, s.nodes[n]);
    } else {
      var t := UpsertNode(s, xs[0]).value;
      UpsertsGive(t, xs[1..], n);
      assert forall x :: x in xs <==> x == xs[0] || x in xs[1..];
      var r := Fold(UpsertNode, s, xs).value.nodes;
      if n in r {
        var base :| Given(t.nodes, xs[1..], n, base) && r[n] == base.(version := r[n].version);
        if k :| LastUpsert(xs[1..], n, k) && base == xs[1..][k] {
          assert LastUpsert(xs, n, k + 1);
          assert Given(s.nodes, xs, n, base);
        } else if xs[0].nodeId == n {
          assert LastUpsert(xs, n, 0);
          assert Given(s.nodes, xs, n, xs[0]);
        } else {
          assert Given(s.nodes, xs, n, base);
        }
      }
    }
  }

  lemma GivenOne(nodes: map<NodeId, NodeState>, upserts: seq<NodeState>, n: NodeId, a: NodeState, b: NodeState)
    requires Given(nodes, upserts, n, a) && Given(nodes, upserts, n, b)
    ensures a == b
  {
    forall k, l | LastUpsert(upserts, n, k) && LastUpsert(upserts, n, l) ensures k == l {
    }
    forall k | LastUpsert(upserts, n, k) ensures upserts[k] in upserts {
    }
  }

  lemma {:induction false} ArtifactsSetOutput(s: Snapshot, xs: seq<ArtifactRecord>, n: NodeId)
    requires Fold(AddArtifact, s, xs).Ok? && n in s.nodes
    ensures var r := Fold(AddArtifact, s, xs).value.nodes;
            && n in r && r[n] == s.nodes[n].(output := r[n].output, version := r[n].version)
            && r[n].version == s.nodes[n].version + (if r[n].output == s.nodes[n].output then 0 else 1)
            && OutputIs(s.nodes[n].output, xs, n, r[n].output)
    decreases |xs|
  {
    if xs != [] {
      var t := AddArtifact(s, xs[0]).value;
      ArtifactsSetOutput(t, xs[1..], n);
      assert forall x :: x in xs <==> x == xs[0] || x in xs[1..];
      forall k | FirstBy(xs, n, k) && k > 0 ensures FirstBy(xs[1..], n, k - 1) {
        assert xs[0].producer != n;
        forall i | 0 <= i < k - 1 ensures xs[1..][i].producer != n {
          assert xs[1..][i] == xs[i + 1];
        }
      }
    }
  }

  lemma {:induction false} DecisionsKeepFields(s: Snapshot, xs: seq<PolicyDecision>, n: NodeId)
    requires Fold(AddDecision, s, xs).Ok?
    ensures var r := Fold(AddDecision, s, xs).value.nodes;
            && r.Keys == s.nodes.Keys
            && (n in s.nodes ==> r[n] == s.nodes[n].(decisionIds := r[n].decisionIds, version := r[n].version))
    decreases |xs|
  {
    if xs != [] {
      DecisionsKeepFields(AddDecision(s, xs[0]).value, xs[1..], n);
    }
  }

  lemma {:induction false} SideEffectsKeepFields(s: Snapshot, xs: seq<SideEffect>, n: NodeId)
    requires Fold(AddSideEffect, s, xs).Ok?
    ensures var r := Fold(AddSideEffect, s, xs).value.nodes;
            && r.Keys == s.nodes.Keys
            && (n in s.nodes ==> r[n] == s.nodes[n].(sideEffectIds := r[n].sideEffectIds, version := r[n].version))
    decreases |xs|
  {
    if xs != [] {
      SideEffectsKeepFields(AddSideEffect(s, xs[0]).value, xs[1..], n);
    }
  }

  /** A node's fields after a patch, from the state the patch found or brought. */
  ghost predicate NodeTakes(base: NodeState, p: StatePatch, n: NodeId, after: NodeState) {
    var u := if n in p.nodes then p.nodes[n] else NodeUpdate(None, None, None, None);
    && after.nodeId == base.nodeId && after.runId == base.runId
    && Takes(base.status, u.status, after.status) && Takes(base.attempt, u.attempt, after.attempt)
    && Takes(base.started, u.started, after.started) && Takes(base.error, u.error, after.error)
    && OutputIs(base.output, p.artifacts, n, after.output)
  }

  lemma UpdatesMeetBase(s: Snapshot, p: StatePatch, s1: Snapshot, s2: Snapshot, s3: Snapshot, n: NodeId, base: NodeState)
    requires s1.nodes == s.nodes && Fold(UpsertNode, s1, p.upserts) == Ok(s2) && ApplyNodeUpdates(s2, p.nodes) == Ok(s3)
    requires Given(s.nodes, p.upserts, n, base)
    ensures n in s3.nodes
    ensures s3.nodes[n] == (if n in p.nodes then AmendNode(base, p.nodes[n]) else base).(version := s3.nodes[n].version)
  {
    hide Fold;
    UpsertsGive(s1, p.upserts, n);
    GivenKnown(s.nodes, p.upserts, n, base);
    var found :| Given(s1.nodes, p.upserts, n, found) && s2.nodes[n] == found.(version := s2.nodes[n].version);
    GivenOne(s.nodes, p.upserts, n, base, found);
  }

  /** The stages after the updates touch a node's output and links only. */
  lemma LaterStages(s3: Snapshot, p: StatePatch, s4: Snapshot, s5: Snapshot, s6: Snapshot, s7: Snapshot, t: Snapshot, n: NodeId)
    requires ApplyArtifacts(s3, p.artifacts) == Ok(s4) && ApplyInterrupts(s4, p.interrupts) == Ok(s5)
    requires ApplyInterruptUpdates(s5, p.interruptUpdates) == Ok(s6)
    requires Fold(AddDecision, s6, p.decisions) == Ok(s7) && Fold(AddSideEffect, s7, p.sideEffects) == Ok(t)
    requires n in s3.nodes
    ensures n in t.nodes && OutputIs(s3.nodes[n].output, p.artifacts, n, t.nodes[n].output)
    ensures var x := t.nodes[n];
            x == s3.nodes[n].(output := x.output, decisionIds := x.decisionIds, sideEffectIds := x.sideEffectIds,
                              version := x.version)
  {
    hide Fold, ApplyArtifacts, ApplyInterrupts, ApplyInterruptUpdates, OutputIs;
    MiddleStages(s3, p, s4, s5, s6);
    ArtifactsSetOutput(s3, p.artifacts, n);
    DecisionsKeepFields(s6, p.decisions, n);
    SideEffectsKeepFields(s7, p.sideEffects, n);
  }

  lemma NodeFieldsFrom(s: Snapshot, p: StatePatch, n: NodeId, base: NodeState)
    requires Apply(s, p).Ok? && Given(s.nodes, p.upserts, n, base)
    ensures n in Apply(s, p).value.nodes && NodeTakes(base, p, n, Apply(s, p).value.nodes[n])
  {
    var s2, s3, s4, s5, s6, s7 := Stages(s, p);
    hide Apply, Fold, ApplyNodeUpdates, ApplyArtifacts, ApplyInterrupts, ApplyInterruptUpdates, OutputIs, Given;
    UpdatesMeetBase(s, p, ApplyRecords(s, p).value, s2, s3, n, base);
    LaterStages(s3, p, s4, s5, s6, s7, Apply(s, p).value, n);
  }

  lemma GivenKnown(nodes: map<NodeId, NodeState>, upserts: seq<NodeState>, n: NodeId, base: NodeState)
    requires Given(nodes, upserts, n, base)
    ensures n in nodes || exists x :: x in upserts && x.nodeId == n
  {
    if k :| LastUpsert(upserts, n, k) && base == upserts[k] {
      assert upserts[k] in upserts;
    }
  }

  lemma NodeKeys(s: Snapshot, p: StatePatch)
    requires Apply(s, p).Ok?
    ensures forall n :: n in Apply(s, p).value.nodes <==> n in s.nodes || exists x :: x in p.upserts && x.nodeId == n
  {
    var s2, s3, s4, s5, s6, s7 := Stages(s, p);
    hide Apply, ApplyArtifacts, ApplyInterrupts, ApplyInterruptUpdates, Given;
    MiddleStages(s3, p, s4, s5, s6);
    ArtifactFold(s3, p.artifacts);
    forall n ensures n in Apply(s, p).value.nodes <==> n in s.nodes || exists x :: x in p.upserts && x.nodeId == n {
      UpsertsGive(ApplyRecords(s, p).value, p.upserts, n);
      DecisionsKeepFields(s6, p.decisions, n);
      SideEffectsKeepFields(s7, p.sideEffects, n);
    }
  }

  /** Every node after a patch takes the fields its update names, and its output from the first artifact that
      names it as producer, if it has none yet; a stored node it changes rises in version. */
  lemma NodesTake(s: Snapshot, p: StatePatch)
    requires Apply(s, p).Ok?
    ensures var t := Apply(s, p).value;
            && (forall n :: n in t.nodes <==> n in s.nodes || exists x :: x in p.upserts && x.nodeId == n)
            && (forall n, base | Given(s.nodes, p.upserts, n, base) :: n in t.nodes && NodeTakes(base, p, n, t.nodes[n]))
            && (forall n | n in s.nodes && t.nodes[n] != s.nodes[n] :: t.nodes[n].version > s.nodes[n].version)
  {
    hide Apply, NodeTakes, Given;
    NodeKeys(s, p);
    ApplyRaises(s, p);
    forall n, base | Given(s.nodes, p.upserts, n, base)
      ensures n in Apply(s, p).value.nodes && NodeTakes(base, p, n, Apply(s, p).value.nodes[n])
    {
      NodeFieldsFrom(s, p, n, base);
    }
  }

  /** The output of a stored node after a patch that upserts none of its name. */
  lemma OutputIsFirstArtifact(s: Snapshot, p: StatePatch, n: NodeId)
    requires Apply(s, p).Ok? && n in s.nodes && forall x | x in p.upserts :: x.nodeId != n
    ensures var t := Apply(s, p).value;
            && n in t.nodes
            && (s.nodes[n].output.Some? ==> t.nodes[n].output == s.nodes[n].output)
            && (s.nodes[n].output == None ==>
                  && (t.nodes[n].output == None <==> forall a | a in p.artifacts :: a.producer != n)
                  && (forall k :: FirstBy(p.artifacts, n, k) ==>
                        && t.nodes[n].output == Some(p.artifacts[k].artifactId)
                        && t.nodes[n].version > s.nodes[n].version))
  {
    hide Apply;
    assert Given(s.nodes, p.upserts, n, s.nodes[n]);
    NodesTake(s, p);
  }

  /* ---- Thread, run and their states ---- */

  ghost predicate ThreadTakes(before: ThreadRecord, u: ThreadUpdate, after: ThreadRecord) {
    && after.threadId == before.threadId
    && Takes(before.status, u.status, after.status) && Takes(before.currentRun, u.currentRun, after.currentRun)
    && (u.latestCheckpoint.Some? ==> after.latestCheckpoint == u.latestCheckpoint)
    && (u.latestCheckpoint == None ==> after.latestCheckpoint == before.latestCheckpoint)
    && after.version == before.version + (if u == NO_THREAD then 0 else 1)
  }

  ghost predicate RunTakes(before: RunRecord, u: RunUpdate, after: RunRecord) {
    && after == before.(status := after.status, failure := after.failure, version := after.version)
    && Takes(before.status, u.status, after.status) && Takes(before.failure, u.failure, after.failure)
    && after.version == before.version + (if u == NO_RUN then 0 else 1)
  }

  /** The new artifacts join the list at its end. */
  ghost predicate ThreadStateTakes(before: ThreadState, u: ThreadStateUpdate, artifacts: seq<ArtifactRecord>,
                                   after: ThreadState) {
    && after.threadId == before.threadId
    && Takes(before.status, u.status, after.status) && Takes(before.activeRun, u.activeRun, after.activeRun)
    && before.artifactIds <= after.artifactIds
    && (forall a :: a in after.artifactIds <==> a in before.artifactIds || exists x :: x in artifacts && x.artifactId == a)
    && (Unique(before.artifactIds) ==> Unique(after.artifactIds))
    && after.version == before.version + (if u == NO_THREAD_STATE then 0 else 1) + (if artifacts == [] then 0 else 1)
  }

  ghost predicate RunStateTakes(before: RunState, u: RunStateUpdate, after: RunState) {
    && after.runId == before.runId && after.threadId == before.threadId
    && Takes(before.status, u.status, after.status) && Takes(before.frontier, u.frontier, after.frontier)
    && Takes(before.completed, u.completed, after.completed) && Takes(before.failed, u.failed, after.failed)
    && Takes(before.waiting, u.waiting, after.waiting) && Takes(before.blocked, u.blocked, after.blocked)
    && Takes(before.active, u.active, after.active)
    && (u.lastEvent.Some? ==> after.lastEvent == u.lastEvent) && (u.lastEvent == None ==> after.lastEvent == before.lastEvent)
  }

  lemma ArtifactIdsMembers(xs: seq<ArtifactRecord>, a: Id)
    ensures a in ArtifactIds(xs) <==> exists x :: x in xs && x.artifactId == a
  {
    if x :| x in xs && x.artifactId == a {
      var k :| 0 <= k < |xs| && xs[k] == x;
      assert ArtifactIds(xs)[k] == a;
    }
    if a in ArtifactIds(xs) {
      var k :| 0 <= k < |xs| && ArtifactIds(xs)[k] == a;
      assert xs[k] in xs;
    }
  }

  lemma ArtifactsListThemselves(s: Snapshot, u: ThreadStateUpdate, xs: seq<ArtifactRecord>, before: ThreadState)
    requires ApplyArtifacts(s, xs).Ok? && s.threadState == UpdateThreadState(before, u)
    ensures ThreadStateTakes(before, u, xs, ApplyArtifacts(s, xs).value.threadState)
  {
    FoldArtifactsKeepsRecords(s, xs);
    forall a ensures a in ArtifactIds(xs) <==> exists x :: x in xs && x.artifactId == a {
      ArtifactIdsMembers(xs, a);
    }
  }

  /** Only the pending lists and the version differ. */
  ghost predicate PendingOnly(before: RunState, after: RunState) {
    after == before.(pendingInterrupts := after.pendingInterrupts, pendingApprovals := after.pendingApprovals,
                     version := after.version)
  }

  lemma InterruptsPendOnly(s: Snapshot, xs: seq<InterruptRecord>)
    requires ApplyInterrupts(s, xs).Ok?
    ensures PendingOnly(s.runState, ApplyInterrupts(s, xs).value.runState)
  {
    hide MergeUnique, OpenIds;
    InterruptFold(s, xs);
  }

  lemma UpdatesPendOnly(s: Snapshot, updates: seq<(Id, InterruptUpdate)>)
    requires ApplyInterruptUpdates(s, updates).Ok?
    ensures PendingOnly(s.runState, ApplyInterruptUpdates(s, updates).value.runState)
  {
    InterruptUpdateFold(s, updates);
  }

  lemma PendingAside(before: RunState, u: RunStateUpdate, mid: RunState, after: RunState)
    requires UpdateRunState(before, u) == Ok(mid) && PendingOnly(mid, after)
    ensures RunStateTakes(before, u, after)
  {
  }

  lemma InterruptStagesTake(s: Snapshot, before: RunState, u: RunStateUpdate, xs: seq<InterruptRecord>,
                            updates: seq<(Id, InterruptUpdate)>)
    requires ApplyInterrupts(s, xs).Ok? && ApplyInterruptUpdates(ApplyInterrupts(s, xs).value, updates).Ok?
    requires UpdateRunState(before, u) == Ok(s.runState)
    ensures var t := ApplyInterruptUpdates(ApplyInterrupts(s, xs).value, updates).value;
            RunStateTakes(before, u, t.runState)
  {
    hide ApplyInterrupts, ApplyInterruptUpdates, UpdateRunState, RunStateTakes;
    var s5 := ApplyInterrupts(s, xs).value;
    InterruptsPendOnly(s, xs);
    UpdatesPendOnly(s5, updates);
    PendingAside(before, u, s.runState, ApplyInterruptUpdates(s5, updates).value.runState);
  }

  /** The thread, the run and their states take the fields their updates name. */
  lemma RecordsTake(s: Snapshot, p: StatePatch)
    requires Apply(s, p).Ok?
    ensures var t := Apply(s, p).value;
            && ThreadTakes(s.thread, p.thread, t.thread) && RunTakes(s.run, p.run, t.run)
            && ThreadStateTakes(s.threadState, p.threadState, p.artifacts, t.threadState)
            && RunStateTakes(s.runState, p.runState, t.runState)
  {
    hide Apply, ThreadStateTakes, RunStateTakes;
    var s3, s4, s5, s6 := RecordStages(s, p);
    ArtifactsListThemselves(s3, p.threadState, p.artifacts, s.threadState);
    InterruptStagesTake(s4, s.runState, p.runState, p.interrupts, p.interruptUpdates);
  }

  /** Which stage settles which record. */
  lemma RecordStages(s: Snapshot, p: StatePatch) returns (s3: Snapshot, s4: Snapshot, s5: Snapshot, s6: Snapshot)
    requires Apply(s, p).Ok?
    ensures ApplyArtifacts(s3, p.artifacts) == Ok(s4) && ApplyInterrupts(s4, p.interrupts) == Ok(s5)
    ensures ApplyInterruptUpdates(s5, p.interruptUpdates) == Ok(s6)
    ensures s3.threadState == UpdateThreadState(s.threadState, p.threadState)
    ensures UpdateRunState(s.runState, p.runState) == Ok(s4.runState)
    ensures var t := Apply(s, p).value;
            && t.thread == UpdateThread(s.thread, p.thread) && t.run == UpdateRun(s.run, p.run)
            && t.threadState == s4.threadState && t.runState == s6.runState && t.interrupts == s6.interrupts
            && s4.interrupts == s.interrupts
  {
    var u2, u3, u4, u5, u6, u7 := Stages(s, p);
    s3, s4, s5, s6 := u3, u4, u5, u6;
    hide Apply, ApplyArtifacts, ApplyInterrupts, ApplyInterruptUpdates, Raised;
    UpsertsKeepInterrupts(ApplyRecords(s, p).value, p.upserts);
    ArtifactStage(s3, p.artifacts);
    ArtifactStageRaises(s3, p.artifacts);
    InterruptStageRaises(s4, p.interrupts);
    InterruptUpdateStageRaises(s5, p.interruptUpdates);
    DecisionRecords(s6, p.decisions);
    SideEffectRecords(u7, p.sideEffects);
  }

  /* ---- By how much versions rise ---- */

  lemma {:induction false} DecisionVersions(s: Snapshot, xs: seq<PolicyDecision>, n: NodeId)
    requires Fold(AddDecision, s, xs).Ok? && DecisionListsWithin(s) && n in s.nodes
    ensures var r := Fold(AddDecision, s, xs).value.nodes;
            n in r && r[n].version == s.nodes[n].version + |DecisionIdsFor(xs, n)|
    decreases |xs|
  {
    if xs != [] {
      AddDecisionStep(s, xs[0]);
      DecisionVersions(AddDecision(s, xs[0]).value, xs[1..], n);
    }
  }

  lemma {:induction false} SideEffectVersions(s: Snapshot, xs: seq<SideEffect>, n: NodeId)
    requires Fold(AddSideEffect, s, xs).Ok? && SideEffectListsWithin(s) && n in s.nodes
    ensures var r := Fold(AddSideEffect, s, xs).value.nodes;
            n in r && r[n].version == s.nodes[n].version + |SideEffectIdsFor(xs, n)|
    decreases |xs|
  {
    if xs != [] {
      AddSideEffectStep(s, xs[0]);
      SideEffectVersions(AddSideEffect(s, xs[0]).value, xs[1..], n);
    }
  }

  /** A stored node rises by one for its update, one for its output, and one for each record linked to it. */
  lemma NodeRisesBy(s: Snapshot, p: StatePatch, n: NodeId)
    requires Apply(s, p).Ok? && p.upserts == [] && n in s.nodes
    requires DecisionListsWithin(s) && SideEffectListsWithin(s)
    ensures var t := Apply(s, p).value.nodes;
            && n in t
            && t[n].version == s.nodes[n].version + (if n in p.nodes then 1 else 0)
                               + (if t[n].output == s.nodes[n].output then 0 else 1)
                               + |DecisionIdsFor(p.decisions, n)| + |SideEffectIdsFor(p.sideEffects, n)|
  {
    var s2, s3, s4, s5, s6, s7 := Stages(s, p);
    hide Apply, ApplyArtifacts, ApplyInterrupts, ApplyInterruptUpdates, OutputIs;
    LinksUntouched(s, p, s2, s3, s4, s5, s6, s7, Apply(s, p).value);
    MiddleStages(s3, p, s4, s5, s6);
    ArtifactsSetOutput(s3, p.artifacts, n);
    DecisionVersions(s6, p.decisions, n);
    DecisionsKeepFields(s6, p.decisions, n);
    LinksWithin(s6, p.decisions);
    SideEffectVersions(s7, p.sideEffects, n);
    SideEffectsKeepFields(s7, p.sideEffects, n);
  }

  lemma LinksWithin(s: Snapshot, xs: seq<PolicyDecision>)
    requires Fold(AddDecision, s, xs).Ok? && DecisionListsWithin(s) && SideEffectListsWithin(s)
    ensures SideEffectListsWithin(Fold(AddDecision, s, xs).value)
  {
    DecisionRecords(s, xs);
    DecisionLinks(s, xs);
  }

  /** The run state rises by one for its update, one for interrupts opened and one for interrupts updated. */
  lemma RunStateRisesBy(s: Snapshot, p: StatePatch)
    requires Apply(s, p).Ok?
    ensures Apply(s, p).value.runState.version
            == s.runState.version + (if p.runState == NO_RUN_STATE then 0 else 1)
               + (if exists x :: x in p.interrupts && x.status == Open then 1 else 0)
               + (if p.interruptUpdates == [] then 0 else 1)
  {
    hide Apply;
    var s3, s4, s5, s6 := RecordStages(s, p);
    OpenIdsMembers(p.interrupts, false);
    if x :| x in p.interrupts && x.status == Open {
      assert x.interruptId in OpenIds(p.interrupts, false);
    }
    if OpenIds(p.interrupts, false) != [] {
      assert OpenIds(p.interrupts, false)[0] in OpenIds(p.interrupts, false);
    }
    InterruptFold(s4, p.interrupts);
    InterruptUpdateFold(s5, p.interruptUpdates);
  }

  /* ---- Interrupts ---- */

  /** The updates are keyed by interrupt, as a dict is. */
  ghost predicate Keyed(updates: seq<(Id, InterruptUpdate)>) {
    forall i, j :: 0 <= i < j < |updates| ==> updates[i].0 != updates[j].0
  }

  ghost predicate InterruptTakes(before: InterruptRecord, u: InterruptUpdate, after: InterruptRecord) {
    && after == before.(status := after.status, resolvedAt := after.resolvedAt, resolution := after.resolution,
                        version := before.version + 1)
    && Takes(before.status, u.status, after.status) && Takes(before.resolvedAt, u.resolvedAt, after.resolvedAt)
    && Takes(before.resolution, u.resolution, after.resolution)
  }

  ghost predicate Updated(before: InterruptRecord, updates: seq<(Id, InterruptUpdate)>, i: Id, after: InterruptRecord) {
    && ((forall x | x in updates :: x.0 != i) ==> after == before)
    && (forall x | x in updates && x.0 == i :: InterruptTakes(before, x.1, after))
  }

  lemma {:induction false} UpdatesTake(s: Snapshot, xs: seq<(Id, InterruptUpdate)>, i: Id)
    requires Fold(UpdateInterrupt, s, xs).Ok? && Keyed(xs)
    ensures var r := Fold(UpdateInterrupt, s, xs).value.interrupts;
            && r.Keys == s.interrupts.Keys
            && (i in s.interrupts ==> Updated(s.interrupts[i], xs, i, r[i]))
    decreases |xs|
  {
    if xs != [] {
      var t := UpdateInterrupt(s, xs[0]).value;
      UpdatesTake(t, xs[1..], i);
      assert forall x :: x in xs <==> x == xs[0] || x in xs[1..];
      forall x | x in xs[1..] ensures x.0 != xs[0].0 {
        var k :| 0 <= k < |xs[1..]| && xs[1..][k] == x;
        assert xs[k + 1] == x;
      }
    }
  }

  /** The interrupt an update meets: a stored one, or one of the patch. */
  ghost predicate InterruptGiven(s: Snapshot, p: StatePatch, i: Id, before: InterruptRecord) {
    || (i in s.interrupts && before == s.interrupts[i])
    || (before in p.interrupts && before.interruptId == i)
  }

  lemma InterruptsTake(s: Snapshot, p: StatePatch)
    requires Apply(s, p).Ok? && Keyed(p.interruptUpdates)
    ensures var t := Apply(s, p).value.interrupts;
            && (forall i :: i in t <==> i in s.interrupts || exists x :: x in p.interrupts && x.interruptId == i)
            && (forall i, before | InterruptGiven(s, p, i, before) ::
                  i in t && Updated(before, p.interruptUpdates, i, t[i]))
  {
    hide Apply, Keyed, Updated;
    var s3, s4, s5, s6 := RecordStages(s, p);
    InterruptFold(s4, p.interrupts);
    assert s5.interrupts == Fold(AddInterrupt, s4, p.interrupts).value.interrupts;
    InterruptUpdateStage(s5, p.interruptUpdates);
    forall i ensures s6.interrupts.Keys == s5.interrupts.Keys
                     && (i in s5.interrupts ==> Updated(s5.interrupts[i], p.interruptUpdates, i, s6.interrupts[i]))
    {
      UpdatesTake(s5, p.interruptUpdates, i);
    }
  }

  /* ---- Created records ---- */

  /** The records of a patch are stored as they are under their own ids, and nothing else is. */
  lemma RecordsCreated(s: Snapshot, p: StatePatch)
    requires Apply(s, p).Ok?
    ensures var t := Apply(s, p).value;
            && Extends(s.artifacts, t.artifacts)
            && (forall x | x in p.artifacts :: x.artifactId in t.artifacts && t.artifacts[x.artifactId] == x)
            && (forall a | a in t.artifacts && a !in s.artifacts :: t.artifacts[a] in p.artifacts && t.artifacts[a].artifactId == a)
            && Extends(s.decisions, t.decisions)
            && (forall x | x in p.decisions :: x.decisionId in t.decisions && t.decisions[x.decisionId] == x)
            && (forall d | d in t.decisions && d !in s.decisions ::
                  t.decisions[d] in p.decisions && t.decisions[d].decisionId == d)
            && Extends(s.sideEffects, t.sideEffects)
            && (forall x | x in p.sideEffects :: x.sideEffectId in t.sideEffects && t.sideEffects[x.sideEffectId] == x)
            && (forall e | e in t.sideEffects && e !in s.sideEffects ::
                  t.sideEffects[e] in p.sideEffects && t.sideEffects[e].sideEffectId == e)
  {
    var s2, s3, s4, s5, s6, s7 := Stages(s, p);
    hide Apply, ApplyInterrupts, ApplyInterruptUpdates;
    UpsertsKeepInterrupts(ApplyRecords(s, p).value, p.upserts);
    MiddleStages(s3, p, s4, s5, s6);
    ArtifactFold(s3, p.artifacts);
    ArtifactsKept(s4, s5, s6, p);
    DecisionRecords(s6, p.decisions);
    SideEffectRecords(s7, p.sideEffects);
  }

  lemma ArtifactsKept(s4: Snapshot, s5: Snapshot, s6: Snapshot, p: StatePatch)
    requires ApplyInterrupts(s4, p.interrupts) == Ok(s5) && ApplyInterruptUpdates(s5, p.interruptUpdates) == Ok(s6)
    ensures s6.artifacts == s4.artifacts
  {
    InterruptFold(s4, p.interrupts);
    InterruptUpdateFold(s5, p.interruptUpdates);
  }

  /* ---- The order of what is pending ---- */

  function InterruptIds(xs: seq<InterruptRecord>): (r: seq<Id>)
    ensures |r| == |xs| && forall i :: 0 <= i < |r| ==> r[i] == xs[i].interruptId
  {
    seq(|xs|, i requires 0 <= i < |xs| => xs[i].interruptId)
  }

  lemma {:induction false} OpenIdsFilter(xs: seq<InterruptRecord>, approvalsOnly: bool) returns (asked: seq<InterruptRecord>)
    ensures OpenIds(xs, approvalsOnly) == InterruptIds(asked)
    ensures Filters(asked, xs, (x: InterruptRecord) => x.status == Open && (approvalsOnly ==> x.kind == ApprovalRequired))
  {
    hide Filters;
    var keep := (x: InterruptRecord) => x.status == Open && (approvalsOnly ==> x.kind == ApprovalRequired);
    if xs == [] {
      asked := [];
      FiltersNothing(keep);
    } else {
      var rest := OpenIdsFilter(xs[1..], approvalsOnly);
      asked := if keep(xs[0]) then [xs[0]] + rest else rest;
      FiltersCons(rest, xs[1..], keep, xs[0]);
      assert [xs[0]] + xs[1..] == xs;
      assert keep(xs[0]) ==> InterruptIds(asked) == [xs[0].interruptId] + InterruptIds(rest);
    }
  }

  /** New ids follow the pending ones, in the order the patch creates the interrupts that ask. */
  ghost predicate Appended(before: seq<Id>, xs: seq<InterruptRecord>, approvalsOnly: bool, after: seq<Id>) {
    exists asked ::
      && Filters(asked, xs, (x: InterruptRecord) => x.status == Open && (approvalsOnly ==> x.kind == ApprovalRequired))
      && after == before + InterruptIds(asked)
  }

  /** Of the pending ids those the patch updates are gone, the others stand as they stood. */
  ghost predicate Removed(before: seq<Id>, updates: seq<(Id, InterruptUpdate)>, after: seq<Id>) {
    Filters(after, before, i => forall x | x in updates :: x.0 != i)
  }

  lemma {:induction false} CreatedDistinct(s: Snapshot, xs: seq<InterruptRecord>)
    requires Fold(AddInterrupt, s, xs).Ok?
    ensures forall i, j :: 0 <= i < j < |xs| ==> xs[i].interruptId != xs[j].interruptId
    decreases |xs|
  {
    if xs != [] {
      var t := AddInterrupt(s, xs[0]).value;
      CreatedDistinct(t, xs[1..]);
      InterruptFold(t, xs[1..]);
      forall j | 0 < j < |xs| ensures xs[0].interruptId != xs[j].interruptId {
        assert xs[1..][j - 1] in xs[1..];
      }
      forall i, j | 0 < i < j < |xs| ensures xs[i].interruptId != xs[j].interruptId {
        assert xs[1..][i - 1] == xs[i] && xs[1..][j - 1] == xs[j];
      }
    }
  }

  lemma {:induction false} OpenIdsUnique(xs: seq<InterruptRecord>, approvalsOnly: bool)
    requires forall i, j :: 0 <= i < j < |xs| ==> xs[i].interruptId != xs[j].interruptId
    ensures Unique(OpenIds(xs, approvalsOnly))
  {
    if xs != [] {
      OpenIdsUnique(xs[1..], approvalsOnly);
      OpenIdsMembers(xs[1..], approvalsOnly);
      forall x | x in xs[1..] ensures x.interruptId != xs[0].interruptId {
        var k :| 0 <= k < |xs[1..]| && xs[1..][k] == x;
        assert xs[k + 1] == x;
      }
      var rest := OpenIds(xs[1..], approvalsOnly);
      assert xs[0].interruptId !in rest;
      if Asks(xs[0], approvalsOnly) {
        UniqueCons(xs[0].interruptId, rest);
      }
    }
  }

  lemma UniqueCons(x: Id, rest: seq<Id>)
    requires Unique(rest) && x !in rest
    ensures Unique([x] + rest)
  {
    var all := [x] + rest;
    forall i, j | 0 <= i < j < |all| ensures all[i] != all[j] {
      assert all[j] == rest[j - 1];
    }
  }

  lemma UniqueJoin(a: seq<Id>, b: seq<Id>)
    requires Unique(a) && Unique(b) && forall x | x in b :: x !in a
    ensures Unique(a + b)
  {
    forall i, j | 0 <= i < j < |a + b| ensures (a + b)[i] != (a + b)[j] {
      if j >= |a| {
        assert (a + b)[j] == b[j - |a|] && b[j - |a|] in b;
        assert if i < |a| then (a + b)[i] in a else (a + b)[i] == b[i - |a|];
      }
    }
  }

  lemma AppendsFresh(before: seq<Id>, s: Snapshot, xs: seq<InterruptRecord>, approvalsOnly: bool)
    requires Fold(AddInterrupt, s, xs).Ok? && Unique(before) && forall i | i in before :: i in s.interrupts
    ensures Appended(before, xs, approvalsOnly, MergeUnique(before, OpenIds(xs, approvalsOnly)))
  {
    var ids := OpenIds(xs, approvalsOnly);
    CreatedDistinct(s, xs);
    OpenIdsUnique(xs, approvalsOnly);
    OpenIdsFresh(s, xs, approvalsOnly);
    hide Filters, Fold, OpenIds, MergeUnique, Unique;
    var asked := OpenIdsFilter(xs, approvalsOnly);
    UniqueJoin(before, ids);
    MergeUniqueOfFresh(before, ids);
  }

  lemma OpenIdsFresh(s: Snapshot, xs: seq<InterruptRecord>, approvalsOnly: bool)
    requires Fold(AddInterrupt, s, xs).Ok?
    ensures forall i | i in OpenIds(xs, approvalsOnly) :: i !in s.interrupts
  {
    InterruptFold(s, xs);
    OpenIdsMembers(xs, approvalsOnly);
  }

  /** Interrupts a patch opens join the pending ones, and approvals the pending approvals, at the end. */
  lemma PendingGrows(s: Snapshot, p: StatePatch)
    requires Apply(s, p).Ok? && p.interruptUpdates == [] && PendingUnique(s.runState)
    requires PendingAgrees(s.runState.pendingInterrupts, s.runState.pendingApprovals, s.interrupts)
    ensures var r := Apply(s, p).value.runState;
            && Appended(s.runState.pendingInterrupts, p.interrupts, false, r.pendingInterrupts)
            && Appended(s.runState.pendingApprovals, p.interrupts, true, r.pendingApprovals)
  {
    hide Apply, Appended, MergeUnique, OpenIds;
    var s3, s4, s5, s6 := RecordStages(s, p);
    AppendsFresh(s.runState.pendingInterrupts, s4, p.interrupts, false);
    AppendsFresh(s.runState.pendingApprovals, s4, p.interrupts, true);
    ApprovalsAreOpen(p.interrupts);
    NoneMerged(s.runState.pendingInterrupts);
    NoneMerged(s.runState.pendingApprovals);
    InterruptFold(s4, p.interrupts);
  }

  lemma NoneMerged(before: seq<Id>)
    ensures MergeUnique(before, []) == before
  {
  }

  function UpdatedIds(updates: seq<(Id, InterruptUpdate)>): set<Id> {
    set x | x in updates :: x.0
  }

  lemma {:induction false} ClosingFold(s: Snapshot, xs: seq<(Id, InterruptUpdate)>)
    requires Fold(UpdateInterrupt, s, xs).Ok? && Keyed(xs)
    requires forall x | x in xs :: x.0 in s.interrupts && AmendInterrupt(s.interrupts[x.0], x.1).status != Open
    ensures var r := Fold(UpdateInterrupt, s, xs).value.runState;
            && r.pendingInterrupts == Without(s.runState.pendingInterrupts, UpdatedIds(xs))
            && r.pendingApprovals == Without(s.runState.pendingApprovals, UpdatedIds(xs))
    decreases |xs|
  {
    if xs == [] {
      WithoutNothing(s.runState.pendingInterrupts, {});
      WithoutNothing(s.runState.pendingApprovals, {});
      assert UpdatedIds(xs) == {};
    } else {
      var t := UpdateInterrupt(s, xs[0]).value;
      assert xs[0] in xs;
      forall x | x in xs[1..] ensures x.0 in t.interrupts && AmendInterrupt(t.interrupts[x.0], x.1).status != Open {
        var k :| 0 <= k < |xs[1..]| && xs[1..][k] == x;
        assert xs[k + 1] == x && x in xs;
      }
      ClosingFold(t, xs[1..]);
      assert forall x :: x in xs <==> x == xs[0] || x in xs[1..];
      assert UpdatedIds(xs) == {xs[0].0} + UpdatedIds(xs[1..]);
      WithoutTwice(s.runState.pendingInterrupts, {xs[0].0}, UpdatedIds(xs[1..]));
      WithoutTwice(s.runState.pendingApprovals, {xs[0].0}, UpdatedIds(xs[1..]));
    }
  }

  lemma RemovesUpdated(before: seq<Id>, xs: seq<(Id, InterruptUpdate)>)
    ensures Removed(before, xs, Without(before, UpdatedIds(xs)))
  {
    var drop := UpdatedIds(xs);
    WithoutFilters(before, drop);
    FiltersSame(Without(before, drop), before, i => i !in drop, i => forall x | x in xs :: x.0 != i);
  }

  /** Interrupts a patch closes leave both pending lists, whose other ids keep their order. */
  lemma PendingShrinks(s: Snapshot, p: StatePatch)
    requires Apply(s, p).Ok? && p.interrupts == [] && Keyed(p.interruptUpdates)
    requires var t := Apply(s, p).value.interrupts;
             forall x | x in p.interruptUpdates :: x.0 in t && t[x.0].status != Open
    ensures var r := Apply(s, p).value.runState;
            && Removed(s.runState.pendingInterrupts, p.interruptUpdates, r.pendingInterrupts)
            && Removed(s.runState.pendingApprovals, p.interruptUpdates, r.pendingApprovals)
  {
    hide Apply, Removed, Without, Keyed, Updated;
    var s3, s4, s5, s6 := RecordStages(s, p);
    NoneCreated(s4);
    forall x | x in p.interruptUpdates
      ensures x.0 in s5.interrupts && AmendInterrupt(s5.interrupts[x.0], x.1).status != Open
    {
      UpdatesTake(s5, p.interruptUpdates, x.0);
      UpdatedStatus(s5.interrupts[x.0], p.interruptUpdates, x, s6.interrupts[x.0]);
    }
    ClosingFold(s5, p.interruptUpdates);
    RemovesUpdated(s.runState.pendingInterrupts, p.interruptUpdates);
    RemovesUpdated(s.runState.pendingApprovals, p.interruptUpdates);
    ClosedStage(s5, p.interruptUpdates);
  }

  lemma NoneCreated(s: Snapshot)
    ensures ApplyInterrupts(s, []) == Ok(s)
  {
  }

  lemma UpdatedStatus(before: InterruptRecord, updates: seq<(Id, InterruptUpdate)>, x: (Id, InterruptUpdate),
                      after: InterruptRecord)
    requires Updated(before, updates, x.0, after) && x in updates
    ensures after.status == AmendInterrupt(before, x.1).status
  {
    assert InterruptTakes(before, x.1, after);
  }

  lemma ClosedStage(s: Snapshot, updates: seq<(Id, InterruptUpdate)>)
    requires ApplyInterruptUpdates(s, updates).Ok?
    ensures Fold(UpdateInterrupt, s, updates).Ok?
    ensures var r, f := ApplyInterruptUpdates(s, updates).value.runState, Fold(UpdateInterrupt, s, updates).value.runState;
            r.pendingInterrupts == f.pendingInterrupts && r.pendingApprovals == f.pendingApprovals
  {
  }
}
