/** What one application leaves alone, and the order it keeps: nodes and interrupts the patch does not
    name stay equal, and each node's link lists grow at their end by the patch's own records. */
module ReducerFrames {
  import opened Common
  import opened Models
  import opened Reducer
  import opened ReducerFacts

  /* ---- Unnamed records ---- */

  predicate NamesNode(p: StatePatch, n: NodeId) {
    || (exists x :: x in p.upserts && x.nodeId == n) || n in p.nodes
    || (exists x :: x in p.artifacts && x.producer == n)
    || (exists x :: x in p.decisions && x.nodeId == Some(n))
    || (exists x :: x in p.sideEffects && x.nodeId == n)
  }

  predicate NamesInterrupt(p: StatePatch, i: Id) {
    exists x :: x in p.interruptUpdates && x.0 == i
  }

  lemma {:induction false} UpsertsLeave(s: Snapshot, xs: seq<NodeState>, n: NodeId)
    requires Fold(UpsertNode, s, xs).Ok? && n in s.nodes && forall x | x in xs :: x.nodeId != n
    ensures var r := Fold(UpsertNode, s, xs).value;
            n in r.nodes && r.nodes[n] == s.nodes[n] && r.interrupts == s.interrupts
    decreases |xs|
  {
    if xs != [] {
      assert xs[0] in xs;
      UpsertsLeave(UpsertNode(s, xs[0]).value, xs[1..], n);
    }
  }

  lemma {:induction false} ArtifactsLeave(s: Snapshot, xs: seq<ArtifactRecord>, n: NodeId)
    requires Fold(AddArtifact, s, xs).Ok? && n in s.nodes && forall x | x in xs :: x.producer != n
    ensures var r := Fold(AddArtifact, s, xs).value; n in r.nodes && r.nodes[n] == s.nodes[n]
    decreases |xs|
  {
    if xs != [] {
      assert xs[0] in xs;
      ArtifactsLeave(AddArtifact(s, xs[0]).value, xs[1..], n);
    }
  }

  lemma {:induction false} DecisionsLeave(s: Snapshot, xs: seq<PolicyDecision>, n: NodeId)
    requires Fold(AddDecision, s, xs).Ok? && n in s.nodes && forall x | x in xs :: x.nodeId != Some(n)
    ensures var r := Fold(AddDecision, s, xs).value; n in r.nodes && r.nodes[n] == s.nodes[n]
    decreases |xs|
  {
    if xs != [] {
      assert xs[0] in xs;
      DecisionsLeave(AddDecision(s, xs[0]).value, xs[1..], n);
    }
  }

  lemma {:induction false} SideEffectsLeave(s: Snapshot, xs: seq<SideEffect>, n: NodeId)
    requires Fold(AddSideEffect, s, xs).Ok? && n in s.nodes && forall x | x in xs :: x.nodeId != n
    ensures var r := Fold(AddSideEffect, s, xs).value; n in r.nodes && r.nodes[n] == s.nodes[n]
    decreases |xs|
  {
    if xs != [] {
      assert xs[0] in xs;
      SideEffectsLeave(AddSideEffect(s, xs[0]).value, xs[1..], n);
    }
  }

  lemma {:induction false} InterruptUpdatesLeave(s: Snapshot, xs: seq<(Id, InterruptUpdate)>, i: Id)
    requires Fold(UpdateInterrupt, s, xs).Ok? && i in s.interrupts && forall x | x in xs :: x.0 != i
    ensures var r := Fold(UpdateInterrupt, s, xs).value; i in r.interrupts && r.interrupts[i] == s.interrupts[i]
    decreases |xs|
  {
    if xs != [] {
      assert xs[0] in xs;
      InterruptUpdatesLeave(UpdateInterrupt(s, xs[0]).value, xs[1..], i);
    }
  }

  /** The snapshots between the stages of one application. */
  ghost predicate Staged(s: Snapshot, p: StatePatch, s2: Snapshot, s3: Snapshot, s4: Snapshot, s5: Snapshot,
                         s6: Snapshot, s7: Snapshot, t: Snapshot) {
    && ApplyRecords(s, p).Ok? && Fold(UpsertNode, ApplyRecords(s, p).value, p.upserts) == Ok(s2)
    && ApplyNodeUpdates(s2, p.nodes) == Ok(s3)
    && ApplyArtifacts(s3, p.artifacts) == Ok(s4)
    && ApplyInterrupts(s4, p.interrupts) == Ok(s5)
    && ApplyInterruptUpdates(s5, p.interruptUpdates) == Ok(s6)
    && Fold(AddDecision, s6, p.decisions) == Ok(s7)
    && Fold(AddSideEffect, s7, p.sideEffects) == Ok(t)
  }

  lemma Stages(s: Snapshot, p: StatePatch)
    returns (s2: Snapshot, s3: Snapshot, s4: Snapshot, s5: Snapshot, s6: Snapshot, s7: Snapshot)
    requires Apply(s, p).Ok?
    ensures Staged(s, p, s2, s3, s4, s5, s6, s7, Apply(s, p).value)
  {
    s2 := Fold(UpsertNode, ApplyRecords(s, p).value, p.upserts).value;
    s3 := ApplyNodeUpdates(s2, p.nodes).value;
    s4 := ApplyArtifacts(s3, p.artifacts).value;
    s5 := ApplyInterrupts(s4, p.interrupts).value;
    s6 := ApplyInterruptUpdates(s5, p.interruptUpdates).value;
    s7 := Fold(AddDecision, s6, p.decisions).value;
  }

  lemma ArtifactStage(s: Snapshot, xs: seq<ArtifactRecord>)
    requires ApplyArtifacts(s, xs).Ok?
    ensures Fold(AddArtifact, s, xs).Ok?
    ensures var r := ApplyArtifacts(s, xs).value;
            && r.nodes == Fold(AddArtifact, s, xs).value.nodes && r.interrupts == s.interrupts
            && r.decisions == s.decisions && r.sideEffects == s.sideEffects
  {
    ArtifactFold(s, xs);
  }

  lemma InterruptStage(s: Snapshot, xs: seq<InterruptRecord>)
    requires ApplyInterrupts(s, xs).Ok?
    ensures var r := ApplyInterrupts(s, xs).value;
            && r.nodes == s.nodes && Extends(s.interrupts, r.interrupts)
            && r.decisions == s.decisions && r.sideEffects == s.sideEffects
  {
    InterruptFold(s, xs);
  }

  lemma InterruptUpdateStage(s: Snapshot, xs: seq<(Id, InterruptUpdate)>)
    requires ApplyInterruptUpdates(s, xs).Ok?
    ensures Fold(UpdateInterrupt, s, xs).Ok?
    ensures var r := ApplyInterruptUpdates(s, xs).value;
            && r.nodes == s.nodes && r.interrupts == Fold(UpdateInterrupt, s, xs).value.interrupts
            && r.decisions == s.decisions && r.sideEffects == s.sideEffects
  {
    InterruptUpdateFold(s, xs);
  }

  /** The stages between the artifacts and the decisions touch no node; only two touch interrupts. */
  lemma MiddleStages(s3: Snapshot, p: StatePatch, s4: Snapshot, s5: Snapshot, s6: Snapshot)
    requires ApplyArtifacts(s3, p.artifacts) == Ok(s4) && ApplyInterrupts(s4, p.interrupts) == Ok(s5)
    requires ApplyInterruptUpdates(s5, p.interruptUpdates) == Ok(s6)
    ensures Fold(AddArtifact, s3, p.artifacts).Ok? && Fold(UpdateInterrupt, s5, p.interruptUpdates).Ok?
    ensures s4.nodes == Fold(AddArtifact, s3, p.artifacts).value.nodes && s6.nodes == s5.nodes == s4.nodes
    ensures s4.interrupts == s3.interrupts && Extends(s4.interrupts, s5.interrupts)
    ensures s6.interrupts == Fold(UpdateInterrupt, s5, p.interruptUpdates).value.interrupts
    ensures s6.decisions == s5.decisions == s4.decisions == s3.decisions
    ensures s6.sideEffects == s5.sideEffects == s4.sideEffects == s3.sideEffects
  {
    hide *;
    ArtifactStage(s3, p.artifacts);
    InterruptStage(s4, p.interrupts);
    InterruptUpdateStage(s5, p.interruptUpdates);
  }

  lemma UnnamedNodeStays(s: Snapshot, p: StatePatch, n: NodeId)
    requires Apply(s, p).Ok? && n in s.nodes && !NamesNode(p, n)
    ensures n in Apply(s, p).value.nodes && Apply(s, p).value.nodes[n] == s.nodes[n]
  {
    var s2, s3, s4, s5, s6, s7 := Stages(s, p);
    hide Apply, ApplyArtifacts, ApplyInterrupts, ApplyInterruptUpdates;
    UpsertsLeave(ApplyRecords(s, p).value, p.upserts, n);
    MiddleStages(s3, p, s4, s5, s6);
    ArtifactsLeave(s3, p.artifacts, n);
    DecisionsLeave(s6, p.decisions, n);
    SideEffectsLeave(s7, p.sideEffects, n);
  }

  lemma UnnamedInterruptStays(s: Snapshot, p: StatePatch, i: Id)
    requires Apply(s, p).Ok? && i in s.interrupts && !NamesInterrupt(p, i)
    ensures i in Apply(s, p).value.interrupts && Apply(s, p).value.interrupts[i] == s.interrupts[i]
  {
    var s2, s3, s4, s5, s6, s7 := Stages(s, p);
    hide Apply, ApplyArtifacts, ApplyInterrupts, ApplyInterruptUpdates;
    UpsertsKeepInterrupts(ApplyRecords(s, p).value, p.upserts);
    MiddleStages(s3, p, s4, s5, s6);
    InterruptUpdatesLeave(s5, p.interruptUpdates, i);
    DecisionRecords(s6, p.decisions);
    SideEffectRecords(s7, p.sideEffects);
  }

  lemma {:induction false} UpsertsKeepInterrupts(s: Snapshot, xs: seq<NodeState>)
    requires Fold(UpsertNode, s, xs).Ok?
    ensures Fold(UpsertNode, s, xs).value == s.(nodes := Fold(UpsertNode, s, xs).value.nodes)
    decreases |xs|
  {
    if xs != [] {
      UpsertsKeepInterrupts(UpsertNode(s, xs[0]).value, xs[1..]);
    }
  }

  /** Nodes and interrupts that a patch does not name are the same before and after. */
  lemma ApplyLeavesUnnamed(s: Snapshot, p: StatePatch)
    requires Apply(s, p).Ok?
    ensures var t := Apply(s, p).value;
            && (forall n | n in s.nodes && !NamesNode(p, n) :: n in t.nodes && t.nodes[n] == s.nodes[n])
            && (forall i | i in s.interrupts && !NamesInterrupt(p, i) ::
                  i in t.interrupts && t.interrupts[i] == s.interrupts[i])
  {
    hide Apply, NamesNode, NamesInterrupt;
    forall n | n in s.nodes && !NamesNode(p, n)
      ensures n in Apply(s, p).value.nodes && Apply(s, p).value.nodes[n] == s.nodes[n]
    {
      UnnamedNodeStays(s, p, n);
    }
    forall i | i in s.interrupts && !NamesInterrupt(p, i)
      ensures i in Apply(s, p).value.interrupts && Apply(s, p).value.interrupts[i] == s.interrupts[i]
    {
      UnnamedInterruptStays(s, p, i);
    }
  }

  /* ---- Creation order ---- */

  /** Link lists only gain ids, and only at their end. */
  ghost predicate LinksGrow(before: map<NodeId, NodeState>, after: map<NodeId, NodeState>) {
    forall n | n in before ::
      && n in after && before[n].decisionIds <= after[n].decisionIds
      && before[n].sideEffectIds <= after[n].sideEffectIds
  }

  lemma {:induction false} DecisionsGrow(s: Snapshot, xs: seq<PolicyDecision>)
    requires Fold(AddDecision, s, xs).Ok?
    ensures LinksGrow(s.nodes, Fold(AddDecision, s, xs).value.nodes)
    decreases |xs|
  {
    if xs != [] {
      DecisionsGrow(AddDecision(s, xs[0]).value, xs[1..]);
    }
  }

  lemma {:induction false} SideEffectsGrow(s: Snapshot, xs: seq<SideEffect>)
    requires Fold(AddSideEffect, s, xs).Ok?
    ensures LinksGrow(s.nodes, Fold(AddSideEffect, s, xs).value.nodes)
    decreases |xs|
  {
    if xs != [] {
      SideEffectsGrow(AddSideEffect(s, xs[0]).value, xs[1..]);
    }
  }

  /** What the stages before the decisions do to the link lists: nothing. */
  lemma LinksUntouched(s: Snapshot, p: StatePatch, s2: Snapshot, s3: Snapshot, s4: Snapshot, s5: Snapshot,
                       s6: Snapshot, s7: Snapshot, t: Snapshot)
    requires Staged(s, p, s2, s3, s4, s5, s6, s7, t) && p.upserts == []
    ensures s6.nodes.Keys == s.nodes.Keys && s6.decisions == s.decisions && s6.sideEffects == s.sideEffects
    ensures forall n | n in s.nodes ::
              && s6.nodes[n].decisionIds == s.nodes[n].decisionIds
              && s6.nodes[n].sideEffectIds == s.nodes[n].sideEffectIds
  {
    hide ApplyArtifacts, ApplyInterrupts, ApplyInterruptUpdates;
    MiddleStages(s3, p, s4, s5, s6);
    ArtifactFold(s3, p.artifacts);
  }

  lemma ApplyGrowsLinks(s: Snapshot, p: StatePatch)
    requires Apply(s, p).Ok? && p.upserts == []
    ensures LinksGrow(s.nodes, Apply(s, p).value.nodes)
  {
    var s2, s3, s4, s5, s6, s7 := Stages(s, p);
    hide Apply;
    LinksUntouched(s, p, s2, s3, s4, s5, s6, s7, Apply(s, p).value);
    DecisionsGrow(s6, p.decisions);
    SideEffectsGrow(s7, p.sideEffects);
  }

  /** One application appends to each node's lists exactly the ids of the patch's decisions and side
      effects that name it, in the order of the patch. */
  lemma ApplyLinksInOrder(s: Snapshot, p: StatePatch)
    requires Apply(s, p).Ok? && p.upserts == [] && DecisionListsWithin(s) && SideEffectListsWithin(s)
    ensures var t := Apply(s, p).value;
            && t.nodes.Keys == s.nodes.Keys
            && forall n | n in s.nodes ::
                 && t.nodes[n].decisionIds == s.nodes[n].decisionIds + DecisionIdsFor(p.decisions, n)
                 && t.nodes[n].sideEffectIds == s.nodes[n].sideEffectIds + SideEffectIdsFor(p.sideEffects, n)
  {
    var s2, s3, s4, s5, s6, s7 := Stages(s, p);
    hide Apply;
    LinksUntouched(s, p, s2, s3, s4, s5, s6, s7, Apply(s, p).value);
    DecisionRecords(s6, p.decisions);
    DecisionLinks(s6, p.decisions);
    assert SideEffectListsWithin(s7);
    SideEffectLinks(s7, p.sideEffects);
  }
}
