/** Which patches the reducer accepts: exactly those without a record of another run or thread, a repeated
    id, an unknown name, or a result that its constructor would reject. */
module ReducerAccepts {
  import opened Common
  import opened Lists
  import opened Models
  import opened Reducer
  import opened ReducerFacts
  import opened ReducerFrames
  import opened ReducerReads

  /* ---- What a patch must satisfy ---- */

  ghost predicate RunStateFits(before: RunState, u: RunStateUpdate) {
    u == NO_RUN_STATE
    || exists after: RunState ::
         && RunStateTakes(before, u, after) && after.pendingInterrupts == before.pendingInterrupts
         && after.pendingApprovals == before.pendingApprovals && after.Valid()
  }

  ghost predicate NodeFits(base: NodeState, u: NodeUpdate) {
    && Unique(base.sideEffectIds) && Unique(base.decisionIds)
    && (u.status.GetOr(base.status) == Running ==> u.started.GetOr(base.started))
  }

  ghost predicate NodesFit(s: Snapshot, p: StatePatch) {
    && (forall x | x in p.upserts :: x.runId == s.runState.runId)
    && (forall n | n in p.nodes :: exists base :: Given(s.nodes, p.upserts, n, base) && NodeFits(base, p.nodes[n]))
  }

  /** Ids that are new and do not repeat. */
  ghost predicate NewIds(known: set<Id>, ids: seq<Id>) {
    Unique(ids) && forall i | i in ids :: i !in known
  }

  function DecisionIdsOf(xs: seq<PolicyDecision>): (r: seq<Id>)
    ensures |r| == |xs| && forall i :: 0 <= i < |r| ==> r[i] == xs[i].decisionId
  {
    seq(|xs|, i requires 0 <= i < |xs| => xs[i].decisionId)
  }

  function SideEffectIdsOf(xs: seq<SideEffect>): (r: seq<Id>)
    ensures |r| == |xs| && forall i :: 0 <= i < |r| ==> r[i] == xs[i].sideEffectId
  {
    seq(|xs|, i requires 0 <= i < |xs| => xs[i].sideEffectId)
  }

  ghost predicate ArtifactsFit(run: Id, thread: Id, known: set<Id>, xs: seq<ArtifactRecord>) {
    (forall x | x in xs :: x.runId == run && x.threadId == thread) && NewIds(known, ArtifactIds(xs))
  }

  ghost predicate InterruptsFit(run: Id, thread: Id, known: set<Id>, xs: seq<InterruptRecord>) {
    (forall x | x in xs :: x.runId == run && x.threadId == thread) && NewIds(known, InterruptIds(xs))
  }

  ghost predicate DecisionsFit(run: Id, known: set<Id>, xs: seq<PolicyDecision>) {
    (forall x | x in xs :: x.runId == run) && NewIds(known, DecisionIdsOf(xs))
  }

  ghost predicate SideEffectsFit(run: Id, known: set<Id>, xs: seq<SideEffect>) {
    (forall x | x in xs :: x.runId == run) && NewIds(known, SideEffectIdsOf(xs))
  }

  ghost predicate UpdatesFit(s: Snapshot, p: StatePatch) {
    forall x | x in p.interruptUpdates ::
      exists before :: InterruptGiven(s, p, x.0, before) && UpdateFits(before, x.1)
  }

  ghost predicate UpdateFits(before: InterruptRecord, u: InterruptUpdate) {
    u.status.GetOr(before.status) == Resolved ==> u.resolvedAt.GetOr(before.resolvedAt)
  }

  ghost predicate Fits(s: Snapshot, p: StatePatch) {
    && RunStateFits(s.runState, p.runState) && NodesFit(s, p)
    && ArtifactsFit(s.runState.runId, s.threadState.threadId, s.artifacts.Keys, p.artifacts)
    && InterruptsFit(s.runState.runId, s.threadState.threadId, s.interrupts.Keys, p.interrupts)
    && UpdatesFit(s, p)
    && DecisionsFit(s.runState.runId, s.decisions.Keys, p.decisions)
    && SideEffectsFit(s.runState.runId, s.sideEffects.Keys, p.sideEffects)
  }

  /* ---- Records and nodes ---- */

  lemma AmendTakes(before: RunState, u: RunStateUpdate)
    ensures RunStateTakes(before, u, AmendRunState(before, u))
  {
  }

  lemma TakesOnlyAmended(before: RunState, u: RunStateUpdate, after: RunState)
    requires RunStateTakes(before, u, after)
    requires after.pendingInterrupts == before.pendingInterrupts && after.pendingApprovals == before.pendingApprovals
    ensures AmendRunState(before, u) == after.(version := before.version + 1)
  {
  }

  lemma VersionIsFree(r: RunState, version: nat)
    ensures r.(version := version).Valid() <==> r.Valid()
  {
  }

  lemma RunStateIff(before: RunState, u: RunStateUpdate)
    ensures UpdateRunState(before, u).Ok? <==> RunStateFits(before, u)
  {
    hide RunStateTakes, Unique;
    var a := AmendRunState(before, u);
    AmendTakes(before, u);
    if after: RunState :| && RunStateTakes(before, u, after) && after.pendingInterrupts == before.pendingInterrupts
                          && after.pendingApprovals == before.pendingApprovals && after.Valid() {
      TakesOnlyAmended(before, u, after);
      VersionIsFree(after, a.version);
    }
  }

  lemma {:induction false} UpsertsIff(s: Snapshot, xs: seq<NodeState>)
    ensures Fold(UpsertNode, s, xs).Ok? <==> forall x | x in xs :: x.runId == s.runState.runId
    decreases |xs|
  {
    if xs != [] {
      assert xs[0] in xs;
      assert forall x :: x in xs <==> x == xs[0] || x in xs[1..];
      if UpsertNode(s, xs[0]).Ok? {
        UpsertsIff(UpsertNode(s, xs[0]).value, xs[1..]);
      }
    }
  }

  lemma NodeFitsIff(base: NodeState, version: nat, u: NodeUpdate)
    ensures AmendNode(base.(version := version), u).Valid() <==> NodeFits(base, u)
  {
  }

  lemma NodeUpdatesIff(s: Snapshot, p: StatePatch, s1: Snapshot)
    requires s1.nodes == s.nodes && Fold(UpsertNode, s1, p.upserts).Ok?
    ensures ApplyNodeUpdates(Fold(UpsertNode, s1, p.upserts).value, p.nodes).Ok? <==>
              forall n | n in p.nodes :: exists base :: Given(s.nodes, p.upserts, n, base) && NodeFits(base, p.nodes[n])
  {
    hide Fold, Given, AmendNode, NodeFits;
    var s2 := Fold(UpsertNode, s1, p.upserts).value;
    forall n | n in p.nodes
      ensures (n in s2.nodes && AmendNode(s2.nodes[n], p.nodes[n]).Valid())
              <==> exists base :: Given(s.nodes, p.upserts, n, base) && NodeFits(base, p.nodes[n])
    {
      UpsertsGive(s1, p.upserts, n);
      if n in s2.nodes {
        var found :| Given(s1.nodes, p.upserts, n, found) && s2.nodes[n] == found.(version := s2.nodes[n].version);
        NodeFitsIff(found, s2.nodes[n].version, p.nodes[n]);
        if base :| Given(s.nodes, p.upserts, n, base) && NodeFits(base, p.nodes[n]) {
          GivenOne(s.nodes, p.upserts, n, base, found);
        }
      } else if base :| Given(s.nodes, p.upserts, n, base) && NodeFits(base, p.nodes[n]) {
        GivenKnown(s.nodes, p.upserts, n, base);
      }
    }
  }

  /* ---- Created records ---- */

  lemma NewIdsStep(known: set<Id>, ids: seq<Id>)
    requires ids != []
    ensures NewIds(known, ids) <==> ids[0] !in known && NewIds(known + {ids[0]}, ids[1..])
  {
    assert forall x :: x in ids <==> x == ids[0] || x in ids[1..];
    if NewIds(known, ids) {
      forall x | x in ids[1..] ensures x != ids[0] {
        var k :| 0 <= k < |ids[1..]| && ids[1..][k] == x;
        assert ids[k + 1] == x;
      }
    }
    if ids[0] !in known && NewIds(known + {ids[0]}, ids[1..]) {
      UniqueCons(ids[0], ids[1..]);
      assert [ids[0]] + ids[1..] == ids;
    }
  }

  lemma {:induction false} ArtifactsIff(s: Snapshot, xs: seq<ArtifactRecord>)
    ensures Fold(AddArtifact, s, xs).Ok?
            <==> ArtifactsFit(s.runState.runId, s.threadState.threadId, s.artifacts.Keys, xs)
    decreases |xs|
  {
    hide NewIds;
    if xs == [] {
      NoNewIds(s.artifacts.Keys);
    } else {
      assert forall x :: x in xs <==> x == xs[0] || x in xs[1..];
      NewIdsStep(s.artifacts.Keys, ArtifactIds(xs));
      assert ArtifactIds(xs)[1..] == ArtifactIds(xs[1..]);
      if AddArtifact(s, xs[0]).Ok? {
        var t := AddArtifact(s, xs[0]).value;
        ArtifactsIff(t, xs[1..]);
        assert t.artifacts.Keys == s.artifacts.Keys + {xs[0].artifactId};
      }
    }
  }

  lemma NoNewIds(known: set<Id>)
    ensures NewIds(known, [])
  {
  }

  lemma {:induction false} InterruptsIff(s: Snapshot, xs: seq<InterruptRecord>)
    ensures Fold(AddInterrupt, s, xs).Ok?
            <==> InterruptsFit(s.runState.runId, s.threadState.threadId, s.interrupts.Keys, xs)
    decreases |xs|
  {
    hide NewIds;
    if xs == [] {
      NoNewIds(s.interrupts.Keys);
    } else {
      assert forall x :: x in xs <==> x == xs[0] || x in xs[1..];
      NewIdsStep(s.interrupts.Keys, InterruptIds(xs));
      assert InterruptIds(xs)[1..] == InterruptIds(xs[1..]);
      if AddInterrupt(s, xs[0]).Ok? {
        var t := AddInterrupt(s, xs[0]).value;
        InterruptsIff(t, xs[1..]);
        assert t.interrupts.Keys == s.interrupts.Keys + {xs[0].interruptId};
      }
    }
  }

  lemma {:induction false} DecisionsIff(s: Snapshot, xs: seq<PolicyDecision>)
    ensures Fold(AddDecision, s, xs).Ok? <==> DecisionsFit(s.runState.runId, s.decisions.Keys, xs)
    decreases |xs|
  {
    hide NewIds;
    if xs == [] {
      NoNewIds(s.decisions.Keys);
    } else {
      assert forall x :: x in xs <==> x == xs[0] || x in xs[1..];
      NewIdsStep(s.decisions.Keys, DecisionIdsOf(xs));
      assert DecisionIdsOf(xs)[1..] == DecisionIdsOf(xs[1..]);
      if AddDecision(s, xs[0]).Ok? {
        var t := AddDecision(s, xs[0]).value;
        DecisionsIff(t, xs[1..]);
        assert t.decisions.Keys == s.decisions.Keys + {xs[0].decisionId};
      }
    }
  }

  lemma {:induction false} SideEffectsIff(s: Snapshot, xs: seq<SideEffect>)
    ensures Fold(AddSideEffect, s, xs).Ok? <==> SideEffectsFit(s.runState.runId, s.sideEffects.Keys, xs)
    decreases |xs|
  {
    hide NewIds;
    if xs == [] {
      NoNewIds(s.sideEffects.Keys);
    } else {
      assert forall x :: x in xs <==> x == xs[0] || x in xs[1..];
      NewIdsStep(s.sideEffects.Keys, SideEffectIdsOf(xs));
      assert SideEffectIdsOf(xs)[1..] == SideEffectIdsOf(xs[1..]);
      if AddSideEffect(s, xs[0]).Ok? {
        var t := AddSideEffect(s, xs[0]).value;
        SideEffectsIff(t, xs[1..]);
        assert t.sideEffects.Keys == s.sideEffects.Keys + {xs[0].sideEffectId};
      }
    }
  }

  lemma {:induction false} UpdatesIff(s: Snapshot, xs: seq<(Id, InterruptUpdate)>)
    requires Keyed(xs)
    ensures Fold(UpdateInterrupt, s, xs).Ok?
            <==> forall x | x in xs :: x.0 in s.interrupts && UpdateFits(s.interrupts[x.0], x.1)
    decreases |xs|
  {
    if xs != [] {
      assert forall x :: x in xs <==> x == xs[0] || x in xs[1..];
      forall x | x in xs[1..] ensures x.0 != xs[0].0 {
        var k :| 0 <= k < |xs[1..]| && xs[1..][k] == x;
        assert xs[k + 1] == x;
      }
      if UpdateInterrupt(s, xs[0]).Ok? {
        UpdatesIff(UpdateInterrupt(s, xs[0]).value, xs[1..]);
      }
    }
  }

  /* ---- The whole patch ---- */

  /** The stages up to the node updates. */
  function FirstStages(s: Snapshot, p: StatePatch): Result<Snapshot, Error> {
    var s1 :- ApplyRecords(s, p);
    var s2 :- Fold(UpsertNode, s1, p.upserts);
    ApplyNodeUpdates(s2, p.nodes)
  }

  /** The stages that add or update records. */
  function LastStages(s3: Snapshot, p: StatePatch): Result<Snapshot, Error> {
    var s4 :- ApplyArtifacts(s3, p.artifacts);
    var s5 :- ApplyInterrupts(s4, p.interrupts);
    var s6 :- ApplyInterruptUpdates(s5, p.interruptUpdates);
    var s7 :- Fold(AddDecision, s6, p.decisions);
    Fold(AddSideEffect, s7, p.sideEffects)
  }

  lemma ApplyInStages(s: Snapshot, p: StatePatch)
    ensures Apply(s, p).Ok? <==> FirstStages(s, p).Ok? && LastStages(FirstStages(s, p).value, p).Ok?
  {
    hide ApplyRecords, Fold, ApplyNodeUpdates, ApplyArtifacts, ApplyInterrupts, ApplyInterruptUpdates;
  }

  lemma FirstStagesIff(s: Snapshot, p: StatePatch)
    ensures FirstStages(s, p).Ok? <==> RunStateFits(s.runState, p.runState) && NodesFit(s, p)
    ensures FirstStages(s, p).Ok? ==>
              var t := FirstStages(s, p).value;
              && t.runState.runId == s.runState.runId && t.threadState.threadId == s.threadState.threadId
              && t.artifacts == s.artifacts && t.interrupts == s.interrupts
              && t.decisions == s.decisions && t.sideEffects == s.sideEffects
  {
    hide RunStateFits, Given, NodeFits, Fold;
    RunStateIff(s.runState, p.runState);
    if ApplyRecords(s, p).Ok? {
      var s1 := ApplyRecords(s, p).value;
      UpsertsIff(s1, p.upserts);
      if Fold(UpsertNode, s1, p.upserts).Ok? {
        UpsertsKeepInterrupts(s1, p.upserts);
        NodeUpdatesIff(s, p, s1);
      }
    }
  }

  lemma ArtifactsStageIff(s: Snapshot, p: StatePatch)
    ensures ApplyArtifacts(s, p.artifacts).Ok?
            <==> ArtifactsFit(s.runState.runId, s.threadState.threadId, s.artifacts.Keys, p.artifacts)
    ensures ApplyArtifacts(s, p.artifacts).Ok? ==>
              var t := ApplyArtifacts(s, p.artifacts).value;
              && t.runState == s.runState && t.threadState.threadId == s.threadState.threadId
              && t.interrupts == s.interrupts && t.decisions == s.decisions && t.sideEffects == s.sideEffects
  {
    hide ArtifactsFit;
    ArtifactsIff(s, p.artifacts);
    if Fold(AddArtifact, s, p.artifacts).Ok? {
      FoldArtifactsKeepsRecords(s, p.artifacts);
    }
  }

  lemma InterruptsStageIff(s: Snapshot, p: StatePatch)
    ensures ApplyInterrupts(s, p.interrupts).Ok?
            <==> InterruptsFit(s.runState.runId, s.threadState.threadId, s.interrupts.Keys, p.interrupts)
    ensures ApplyInterrupts(s, p.interrupts).Ok? ==>
              var t := ApplyInterrupts(s, p.interrupts).value;
              && t.runState.runId == s.runState.runId && t.decisions == s.decisions && t.sideEffects == s.sideEffects
              && t.interrupts == Fold(AddInterrupt, s, p.interrupts).value.interrupts
  {
    hide InterruptsFit, OpenIds, MergeUnique;
    InterruptsIff(s, p.interrupts);
    if Fold(AddInterrupt, s, p.interrupts).Ok? {
      InterruptFold(s, p.interrupts);
    }
  }

  /** The updates meet the interrupts stored or created. */
  lemma UpdatesStageIff(s: Snapshot, p: StatePatch, s4: Snapshot, s5: Snapshot)
    requires Keyed(p.interruptUpdates) && s4.interrupts == s.interrupts && Fold(AddInterrupt, s4, p.interrupts).Ok?
    requires s5.interrupts == Fold(AddInterrupt, s4, p.interrupts).value.interrupts
    ensures ApplyInterruptUpdates(s5, p.interruptUpdates).Ok? <==> UpdatesFit(s, p)
    ensures ApplyInterruptUpdates(s5, p.interruptUpdates).Ok? ==>
              var t := ApplyInterruptUpdates(s5, p.interruptUpdates).value;
              t.runState.runId == s5.runState.runId && t.decisions == s5.decisions && t.sideEffects == s5.sideEffects
  {
    hide UpdateFits, Keyed;
    UpdatesIff(s5, p.interruptUpdates);
    InterruptFold(s4, p.interrupts);
    forall x | x in p.interruptUpdates
      ensures (x.0 in s5.interrupts && UpdateFits(s5.interrupts[x.0], x.1))
              <==> exists before :: InterruptGiven(s, p, x.0, before) && UpdateFits(before, x.1)
    {
      if x.0 in s5.interrupts {
        assert InterruptGiven(s, p, x.0, s5.interrupts[x.0]);
      }
    }
    if Fold(UpdateInterrupt, s5, p.interruptUpdates).Ok? {
      InterruptUpdateFold(s5, p.interruptUpdates);
    }
  }

  lemma LastStagesIff(s: Snapshot, p: StatePatch, s3: Snapshot)
    requires Keyed(p.interruptUpdates)
    requires s3.runState.runId == s.runState.runId && s3.threadState.threadId == s.threadState.threadId
    requires s3.artifacts == s.artifacts && s3.interrupts == s.interrupts
    requires s3.decisions == s.decisions && s3.sideEffects == s.sideEffects
    ensures LastStages(s3, p).Ok? <==>
              && ArtifactsFit(s.runState.runId, s.threadState.threadId, s.artifacts.Keys, p.artifacts)
              && InterruptsFit(s.runState.runId, s.threadState.threadId, s.interrupts.Keys, p.interrupts)
              && UpdatesFit(s, p)
              && DecisionsFit(s.runState.runId, s.decisions.Keys, p.decisions)
              && SideEffectsFit(s.runState.runId, s.sideEffects.Keys, p.sideEffects)
  {
    hide ApplyArtifacts, ApplyInterrupts, ApplyInterruptUpdates, Fold, ArtifactsFit, InterruptsFit, UpdatesFit,
         DecisionsFit, SideEffectsFit, Keyed;
    ArtifactsStageIff(s3, p);
    if ApplyArtifacts(s3, p.artifacts).Ok? {
      var s4 := ApplyArtifacts(s3, p.artifacts).value;
      InterruptsStageIff(s4, p);
      if ApplyInterrupts(s4, p.interrupts).Ok? {
        var s5 := ApplyInterrupts(s4, p.interrupts).value;
        InterruptsIff(s4, p.interrupts);
        UpdatesStageIff(s, p, s4, s5);
        if ApplyInterruptUpdates(s5, p.interruptUpdates).Ok? {
          var s6 := ApplyInterruptUpdates(s5, p.interruptUpdates).value;
          DecisionsIff(s6, p.decisions);
          if Fold(AddDecision, s6, p.decisions).Ok? {
            DecisionRecords(s6, p.decisions);
            SideEffectsIff(Fold(AddDecision, s6, p.decisions).value, p.sideEffects);
          }
        }
      }
    }
  }

  /** A patch is accepted exactly when all its parts fit. */
  lemma AcceptsIff(s: Snapshot, p: StatePatch)
    requires Keyed(p.interruptUpdates)
    ensures Apply(s, p).Ok? <==> Fits(s, p)
  {
    hide Apply, FirstStages, LastStages, RunStateFits, NodesFit, ArtifactsFit, InterruptsFit, UpdatesFit, DecisionsFit,
         SideEffectsFit;
    ApplyInStages(s, p);
    FirstStagesIff(s, p);
    if FirstStages(s, p).Ok? {
      LastStagesIff(s, p, FirstStages(s, p).value);
    }
  }

  lemma {:induction false} FoldRaises<A(!new)>(step: Step<A>, s: Snapshot, items: seq<A>)
    requires forall t, x :: step(t, x).Err? ==> step(t, x).error == ValueError
    ensures Fold(step, s, items).Err? ==> Fold(step, s, items).error == ValueError
    decreases |items|
  {
    if items != [] && step(s, items[0]).Ok? {
      FoldRaises(step, step(s, items[0]).value, items[1..]);
    }
  }

  /** Whatever is wrong with a patch, the error is the same. */
  lemma RefusalIsValueError(s: Snapshot, p: StatePatch)
    ensures Apply(s, p).Ok? || Apply(s, p) == Err(ValueError)
  {
    hide UpsertNode, AddArtifact, AddInterrupt, UpdateInterrupt, AddDecision, AddSideEffect, Fold;
    StepsRaise();
    forall t { FoldRaises(UpsertNode, t, p.upserts); }
    forall t { FoldRaises(AddArtifact, t, p.artifacts); }
    forall t { FoldRaises(AddInterrupt, t, p.interrupts); }
    forall t { FoldRaises(UpdateInterrupt, t, p.interruptUpdates); }
    forall t { FoldRaises(AddDecision, t, p.decisions); }
    forall t { FoldRaises(AddSideEffect, t, p.sideEffects); }
  }

  lemma StepsRaise()
    ensures forall s, x :: UpsertNode(s, x).Err? ==> UpsertNode(s, x).error == ValueError
    ensures forall s, x :: AddArtifact(s, x).Err? ==> AddArtifact(s, x).error == ValueError
    ensures forall s, x :: AddInterrupt(s, x).Err? ==> AddInterrupt(s, x).error == ValueError
    ensures forall s, x :: UpdateInterrupt(s, x).Err? ==> UpdateInterrupt(s, x).error == ValueError
    ensures forall s, x :: AddDecision(s, x).Err? ==> AddDecision(s, x).error == ValueError
    ensures forall s, x :: AddSideEffect(s, x).Err? ==> AddSideEffect(s, x).error == ValueError
  {
  }
}
