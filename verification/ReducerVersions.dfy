/** Versions: a reducer application raises the version of every component it changes. */
module ReducerVersions {
  import opened Common
  import opened Models
  import opened Reducer
  import opened ReducerFacts

  ghost predicate NodesRaised(before: map<NodeId, NodeState>, after: map<NodeId, NodeState>) {
    forall n | n in before :: n in after && (after[n] == before[n] || after[n].version > before[n].version)
  }

  ghost predicate InterruptsRaised(before: map<Id, InterruptRecord>, after: map<Id, InterruptRecord>) {
    forall i | i in before :: i in after && (after[i] == before[i] || after[i].version > before[i].version)
  }

  /** Every versioned component is untouched or at a higher version; created records never change. */
  ghost predicate Raised(s: Snapshot, r: Snapshot) {
    && (r.thread == s.thread || r.thread.version > s.thread.version)
    && (r.run == s.run || r.run.version > s.run.version)
    && (r.threadState == s.threadState || r.threadState.version > s.threadState.version)
    && (r.runState == s.runState || r.runState.version > s.runState.version)
    && NodesRaised(s.nodes, r.nodes)
    && InterruptsRaised(s.interrupts, r.interrupts)
    && Extends(s.artifacts, r.artifacts)
    && Extends(s.decisions, r.decisions)
    && Extends(s.sideEffects, r.sideEffects)
  }

  lemma RaisedTransitive(a: Snapshot, b: Snapshot, c: Snapshot)
    requires Raised(a, b) && Raised(b, c)
    ensures Raised(a, c)
  {
  }

  lemma {:induction false} UpsertRaises(s: Snapshot, xs: seq<NodeState>)
    requires Fold(UpsertNode, s, xs).Ok?
    ensures var r := Fold(UpsertNode, s, xs).value; r == s.(nodes := r.nodes) && NodesRaised(s.nodes, r.nodes)
    decreases |xs|
  {
    if xs != [] {
      UpsertRaises(UpsertNode(s, xs[0]).value, xs[1..]);
    }
  }

  lemma {:induction false} DecisionsRaise(s: Snapshot, xs: seq<PolicyDecision>)
    requires Fold(AddDecision, s, xs).Ok?
    ensures NodesRaised(s.nodes, Fold(AddDecision, s, xs).value.nodes)
    decreases |xs|
  {
    if xs != [] {
      DecisionsRaise(AddDecision(s, xs[0]).value, xs[1..]);
    }
  }

  lemma {:induction false} SideEffectsRaise(s: Snapshot, xs: seq<SideEffect>)
    requires Fold(AddSideEffect, s, xs).Ok?
    ensures NodesRaised(s.nodes, Fold(AddSideEffect, s, xs).value.nodes)
    decreases |xs|
  {
    if xs != [] {
      SideEffectsRaise(AddSideEffect(s, xs[0]).value, xs[1..]);
    }
  }

  lemma RecordStagesRaise(s: Snapshot, p: StatePatch)
    requires ApplyRecords(s, p).Ok? && Fold(UpsertNode, ApplyRecords(s, p).value, p.upserts).Ok?
    requires ApplyNodeUpdates(Fold(UpsertNode, ApplyRecords(s, p).value, p.upserts).value, p.nodes).Ok?
    ensures var r := ApplyNodeUpdates(Fold(UpsertNode, ApplyRecords(s, p).value, p.upserts).value, p.nodes).value;
            && Raised(s, r)
            && r.thread == UpdateThread(s.thread, p.thread) && r.run == UpdateRun(s.run, p.run)
            && r.threadState == UpdateThreadState(s.threadState, p.threadState)
            && Ok(r.runState) == UpdateRunState(s.runState, p.runState)
  {
    UpsertRaises(ApplyRecords(s, p).value, p.upserts);
  }

  lemma ArtifactStageRaises(s: Snapshot, xs: seq<ArtifactRecord>)
    requires ApplyArtifacts(s, xs).Ok?
    ensures var r := ApplyArtifacts(s, xs).value;
            && Raised(s, r) && r.thread == s.thread && r.run == s.run && r.runState == s.runState
            && (xs == [] ==> r.threadState == s.threadState)
  {
    ArtifactFold(s, xs);
    forall n | n in s.nodes
      ensures var after := ApplyArtifacts(s, xs).value.nodes;
              n in after && (after[n] == s.nodes[n] || after[n].version > s.nodes[n].version)
    {
      assert Linked(s.nodes[n], ApplyArtifacts(s, xs).value.nodes[n]);
    }
  }

  lemma InterruptStageRaises(s: Snapshot, xs: seq<InterruptRecord>)
    requires ApplyInterrupts(s, xs).Ok?
    ensures var r := ApplyInterrupts(s, xs).value;
            && Raised(s, r) && r.thread == s.thread && r.run == s.run && r.threadState == s.threadState
            && (xs == [] ==> r.runState == s.runState)
  {
    InterruptFold(s, xs);
  }

  lemma InterruptUpdateStageRaises(s: Snapshot, xs: seq<(Id, InterruptUpdate)>)
    requires ApplyInterruptUpdates(s, xs).Ok?
    ensures var r := ApplyInterruptUpdates(s, xs).value;
            && Raised(s, r) && r.thread == s.thread && r.run == s.run && r.threadState == s.threadState
            && (xs == [] ==> r.runState == s.runState)
  {
    InterruptUpdateFold(s, xs);
  }

  lemma LinkStagesRaise(s: Snapshot, ds: seq<PolicyDecision>, es: seq<SideEffect>)
    requires Fold(AddDecision, s, ds).Ok? && Fold(AddSideEffect, Fold(AddDecision, s, ds).value, es).Ok?
    ensures var r := Fold(AddSideEffect, Fold(AddDecision, s, ds).value, es).value;
            Raised(s, r) && r == s.(decisions := r.decisions, sideEffects := r.sideEffects, nodes := r.nodes)
  {
    DecisionRecords(s, ds);
    DecisionsRaise(s, ds);
    var t := Fold(AddDecision, s, ds).value;
    SideEffectRecords(t, es);
    SideEffectsRaise(t, es);
    RaisedTransitive(s, t, Fold(AddSideEffect, t, es).value);
  }

  /** One application raises the version of every component it changes, and a record its patch does
      not speak of stays as it is. */
  lemma ApplyRaises(s: Snapshot, p: StatePatch)
    requires Apply(s, p).Ok?
    ensures var r := Apply(s, p).value;
            && Raised(s, r)
            && (r.thread == s.thread <==> p.thread == NO_THREAD)
            && (r.run == s.run <==> p.run == NO_RUN)
            && (p.threadState == NO_THREAD_STATE && p.artifacts == [] ==> r.threadState == s.threadState)
            && (p.runState == NO_RUN_STATE && p.interrupts == [] && p.interruptUpdates == [] ==>
                  r.runState == s.runState)
  {
    var s3 := ApplyNodeUpdates(Fold(UpsertNode, ApplyRecords(s, p).value, p.upserts).value, p.nodes).value;
    RecordStagesRaise(s, p);
    var s4 := ApplyArtifacts(s3, p.artifacts).value;
    ArtifactStageRaises(s3, p.artifacts);
    var s5 := ApplyInterrupts(s4, p.interrupts).value;
    InterruptStageRaises(s4, p.interrupts);
    var s6 := ApplyInterruptUpdates(s5, p.interruptUpdates).value;
    InterruptUpdateStageRaises(s5, p.interruptUpdates);
    LinkStagesRaise(s6, p.decisions, p.sideEffects);
    var r := Apply(s, p).value;
    assert r == Fold(AddSideEffect, Fold(AddDecision, s6, p.decisions).value, p.sideEffects).value;
    RaisedChain(s, s3, s4, s5, s6, r);
  }

  lemma RaisedChain(a: Snapshot, b: Snapshot, c: Snapshot, d: Snapshot, e: Snapshot, f: Snapshot)
    requires Raised(a, b) && Raised(b, c) && Raised(c, d) && Raised(d, e) && Raised(e, f)
    ensures Raised(a, f)
  {
    RaisedTransitive(a, b, c);
    RaisedTransitive(a, c, d);
    RaisedTransitive(a, d, e);
    RaisedTransitive(a, e, f);
  }

  /** A patch never moves a run to another thread. */
  lemma ApplyKeepsRun(s: Snapshot, p: StatePatch)
    requires Apply(s, p).Ok?
    ensures Apply(s, p).value.run == UpdateRun(s.run, p.run)
  {
    var s3 := ApplyNodeUpdates(Fold(UpsertNode, ApplyRecords(s, p).value, p.upserts).value, p.nodes).value;
    RecordStagesRaise(s, p);
    var s4 := ApplyArtifacts(s3, p.artifacts).value;
    ArtifactStageRaises(s3, p.artifacts);
    var s5 := ApplyInterrupts(s4, p.interrupts).value;
    InterruptStageRaises(s4, p.interrupts);
    var s6 := ApplyInterruptUpdates(s5, p.interruptUpdates).value;
    InterruptUpdateStageRaises(s5, p.interruptUpdates);
    LinkStagesRaise(s6, p.decisions, p.sideEffects);
    assert Apply(s, p).value == Fold(AddSideEffect, Fold(AddDecision, s6, p.decisions).value, p.sideEffects).value;
  }
}
