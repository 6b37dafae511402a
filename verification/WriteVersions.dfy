/** What an operation stores on its way, write by write, and exactly when a version comes to name two contents. */
module WriteVersions {
  import opened Common
  import opened Models
  import opened Workflow
  import opened Reducer
  import opened ReducerVersions
  import opened Events
  import opened RunMachine
  import opened RunInvariant
  import opened RunSteps
  import opened RunRecords
  import opened RunStops

  /* ---- Writes ---- */

  /** What one commit stores, in order: the patched snapshot, the run state with the last event stamped
      on it, the thread with the checkpoint stamped on it. */
  function CommitWrites(env: Env, v: View, base: Snapshot, p: StatePatch, kinds: seq<EventKind>): seq<Snapshot> {
    match Apply(base, p)
    case Err(_) => []
    case Ok(t) =>
      var w := AppendEvents(v.(snap := t), kinds);
      [t, w.snap, SaveCheckpoint(env, w).snap]
  }

  function SettleWrites(env: Env, wf: Compiled, v: View, n: NodeId, r: NodeResult): seq<Snapshot> {
    CommitWrites(env, v.(nextId := AfterArtifact(v.snap, wf, n, r, v.nextId)), v.snap,
                 ResultPatch(v.snap, wf, n, r, v.nextId), [NodeReported(n, r.status)] + CreatedKinds(r.interrupts))
  }

  function MarkWrites(env: Env, v: View, base: Snapshot, code: FailureCode): seq<Snapshot> {
    CommitWrites(env, v, base, EndPatch(RunFailed, Some(Some(code))), [RunFailure(code)])
  }

  /** What folding a result in stores: for a failure twice three writes, the last three from the snapshot
      patched first. */
  function FinishWrites(env: Env, wf: Compiled, v: View, n: NodeId, r: NodeResult): seq<Snapshot> {
    var settled := SettleNode(env, wf, v, n, r);
    if settled.raised || r.status != Failed then SettleWrites(env, wf, v, n, r)
    else
      SettleWrites(env, wf, v, n, r)
      + MarkWrites(env, settled.view, Apply(v.snap, ResultPatch(v.snap, wf, n, r, v.nextId)).value, NodeFailure(r.error))
  }

  /** Each write raises the version of whatever it changes, starting from what was stored before. */
  ghost predicate EachRaises(s: Snapshot, writes: seq<Snapshot>) {
    forall k :: 0 <= k < |writes| ==> Raised(if k == 0 then s else writes[k - 1], writes[k])
  }

  /** The last write of a commit is the snapshot it leaves stored. */
  lemma LastWriteStays(env: Env, v: View, base: Snapshot, p: StatePatch, kinds: seq<EventKind>)
    ensures var ws, c := CommitWrites(env, v, base, p, kinds), Commit(env, v, base, p, kinds);
            if c.raised then ws == [] && c.view == v else |ws| == 3 && ws[2] == c.view.snap
  {
    hide Apply, AppendEvents, SaveCheckpoint;
  }

  lemma SettleStays(env: Env, wf: Compiled, v: View, n: NodeId, r: NodeResult)
    ensures var ws, u := SettleWrites(env, wf, v, n, r), SettleNode(env, wf, v, n, r);
            if u.raised then ws == [] && u.view.snap == v.snap else |ws| == 3 && ws[2] == u.view.snap
  {
    hide Apply, Commit, CommitWrites, ResultPatch;
    var w := v.(nextId := AfterArtifact(v.snap, wf, n, r, v.nextId));
    LastWriteStays(env, w, v.snap, ResultPatch(v.snap, wf, n, r, v.nextId),
                   [NodeReported(n, r.status)] + CreatedKinds(r.interrupts));
  }

  lemma MarkStays(env: Env, v: View, base: Snapshot, code: FailureCode)
    ensures var ws, u := MarkWrites(env, v, base, code), MarkFailed(env, v, base, code);
            if u.raised then ws == [] && u.view == v else |ws| == 3 && ws[2] == u.view.snap
  {
    hide Apply, Commit, CommitWrites, EndPatch;
    LastWriteStays(env, v, base, EndPatch(RunFailed, Some(Some(code))), [RunFailure(code)]);
  }

  /** The last write of a finish is the snapshot it leaves stored. */
  lemma FinishStays(env: Env, wf: Compiled, v: View, n: NodeId, r: NodeResult)
    requires Apply(v.snap, ResultPatch(v.snap, wf, n, r, v.nextId)).Ok?
    ensures var ws := FinishWrites(env, wf, v, n, r);
            ws != [] && FinishNode(env, wf, v, n, r).view.snap == ws[|ws| - 1]
  {
    hide Apply, SettleNode, MarkFailed, SettleWrites, MarkWrites, ResultPatch;
    SettleStays(env, wf, v, n, r);
    SettleIsOk(env, wf, v, n, r);
    var u := SettleNode(env, wf, v, n, r);
    MarkStays(env, u.view, Apply(v.snap, ResultPatch(v.snap, wf, n, r, v.nextId)).value, NodeFailure(r.error));
  }

  lemma SettleIsOk(env: Env, wf: Compiled, v: View, n: NodeId, r: NodeResult)
    ensures SettleNode(env, wf, v, n, r).raised <==> Apply(v.snap, ResultPatch(v.snap, wf, n, r, v.nextId)).Err?
  {
    hide Apply, ResultPatch;
  }

  /* ---- A commit from the stored snapshot ---- */

  lemma AppendRaises(v: View, kinds: seq<EventKind>)
    ensures Raised(v.snap, AppendEvents(v, kinds).snap)
  {
  }

  lemma SaveRaises(env: Env, v: View)
    ensures Raised(v.snap, SaveCheckpoint(env, v).snap)
  {
  }

  /** Whatever the patch, a commit made from the stored snapshot never reuses a version: this covers
      every operation but the failure mark that follows a failed node. */
  lemma CommitWritesRaise(env: Env, v: View, p: StatePatch, kinds: seq<EventKind>)
    ensures EachRaises(v.snap, CommitWrites(env, v, v.snap, p, kinds))
  {
    hide Apply, AppendEvents, SaveCheckpoint, Raised;
    if Apply(v.snap, p).Ok? {
      ApplyRaises(v.snap, p);
      var t := Apply(v.snap, p).value;
      AppendRaises(v.(snap := t), kinds);
      SaveRaises(env, AppendEvents(v.(snap := t), kinds));
    }
  }

  lemma SettleWritesRaise(env: Env, wf: Compiled, v: View, n: NodeId, r: NodeResult)
    ensures EachRaises(v.snap, SettleWrites(env, wf, v, n, r))
  {
    hide CommitWrites, EachRaises;
    CommitWritesRaise(env, v.(nextId := AfterArtifact(v.snap, wf, n, r, v.nextId)), ResultPatch(v.snap, wf, n, r, v.nextId),
                      [NodeReported(n, r.status)] + CreatedKinds(r.interrupts));
  }

  /* ---- The stale failure mark ---- */

  /** Two contents under one version, in the thread record and in the run state. */
  ghost predicate ReusesBoth(s: Snapshot, t: Snapshot) {
    && t.thread.version == s.thread.version && t.thread != s.thread
    && t.runState.version == s.runState.version && t.runState != s.runState
  }

  lemma SettledReads(wf: Compiled, env: Env, v: View, n: NodeId, r: NodeResult, low: nat)
    requires Executing(wf, v, n) && IdsBelow(v.snap, low)
    requires HonestResult(v.snap, n, r, low, v.nextId) && low <= v.nextId
    ensures !SettleNode(env, wf, v, n, r).raised
    ensures var p := ResultPatch(v.snap, wf, n, r, v.nextId);
            && Apply(v.snap, p).Ok? && SnapCore(wf, Apply(v.snap, p).value)
            && Apply(v.snap, p).value.run.status == RunRunning && ThreadNames(Apply(v.snap, p).value)
            && NoneRunning(Apply(v.snap, p).value.nodes)
            && IdsBelow(Apply(v.snap, p).value, AfterArtifact(v.snap, wf, n, r, v.nextId))
  {
    hide SettleNode, Apply, ResultPatch, SnapCore, HistoryOk;
    FinishSettles(wf, env, v, n, r, low);
    FoldResult(wf, v.snap, n, r, low, v.nextId);
    NowIdle(v.snap, n, Apply(v.snap, ResultPatch(v.snap, wf, n, r, v.nextId)).value);
  }

  /** Ending from `base` when a commit has already stamped it. */
  lemma StaleEndReuses(wf: Compiled, base: Snapshot, stored: Snapshot, code: FailureCode, low: nat)
    requires SnapCore(wf, base) && base.run.status == RunRunning && ThreadNames(base)
    requires NoneRunning(base.nodes) && IdsBelow(base, low)
    requires Stamped(base, stored) && stored.thread.version == base.thread.version + 1
    requires stored.runState.version == base.runState.version + 1
    ensures Apply(base, EndPatch(RunFailed, Some(Some(code)))).Ok?
    ensures ReusesBoth(stored, Apply(base, EndPatch(RunFailed, Some(Some(code)))).value)
  {
    hide Apply;
    EndSnapshot(wf, base, RunFailed, Some(Some(code)), low);
    EndRaisesState(base, RunFailed, Some(Some(code)));
  }

  lemma NotRaised(s: Snapshot, t: Snapshot)
    requires ReusesBoth(s, t)
    ensures !Raised(s, t)
  {
  }

  lemma MarkReuses(wf: Compiled, env: Env, v: View, n: NodeId, r: NodeResult, low: nat)
    requires Executing(wf, v, n) && IdsBelow(v.snap, low) && r.status == Failed
    requires HonestResult(v.snap, n, r, low, v.nextId) && low <= v.nextId
    ensures !SettleNode(env, wf, v, n, r).raised && Apply(v.snap, ResultPatch(v.snap, wf, n, r, v.nextId)).Ok?
    ensures var before := SettleWrites(env, wf, v, n, r);
            var after := MarkWrites(env, SettleNode(env, wf, v, n, r).view,
                                    Apply(v.snap, ResultPatch(v.snap, wf, n, r, v.nextId)).value, NodeFailure(r.error));
            |before| == |after| == 3 && ReusesBoth(before[2], after[0]) && !Raised(before[2], after[0])
  {
    hide Commit, Apply, AppendEvents, SaveCheckpoint, ResultPatch, Executing, HonestResult, ReusesBoth, Raised;
    SettledReads(wf, env, v, n, r, low);
    SettleVersions(env, wf, v, n, r);
    var p := ResultPatch(v.snap, wf, n, r, v.nextId);
    var t := Apply(v.snap, p).value;
    var w := v.(nextId := AfterArtifact(v.snap, wf, n, r, v.nextId));
    var kinds := [NodeReported(n, r.status)] + CreatedKinds(r.interrupts);
    CommitStamps(env, w, v.snap, p, kinds);
    LastWriteStays(env, w, v.snap, p, kinds);
    var stored := SettleNode(env, wf, v, n, r).view.snap;
    StaleEndReuses(wf, t, stored, NodeFailure(r.error), AfterArtifact(v.snap, wf, n, r, v.nextId));
    NotRaised(stored, Apply(t, EndPatch(RunFailed, Some(Some(NodeFailure(r.error))))).value);
  }

  /** Folding in the result of the node in execution raises every version it writes under if and only if
      the node did not fail. If it failed, the second commit stores another thread record and another run
      state under the versions the first one has just used. */
  lemma ReusedExactlyOnFailure(wf: Compiled, env: Env, v: View, n: NodeId, r: NodeResult, low: nat)
    requires Executing(wf, v, n) && IdsBelow(v.snap, low)
    requires HonestResult(v.snap, n, r, low, v.nextId) && low <= v.nextId
    ensures var ws := FinishWrites(env, wf, v, n, r);
            && (EachRaises(v.snap, ws) <==> r.status != Failed)
            && (r.status == Failed ==> |ws| == 6 && ReusesBoth(ws[2], ws[3]))
  {
    hide SettleWrites, MarkWrites, SettleNode, Apply, ResultPatch, Executing, HonestResult, Raised;
    SettledReads(wf, env, v, n, r, low);
    SettleWritesRaise(env, wf, v, n, r);
    if r.status == Failed {
      MarkReuses(wf, env, v, n, r, low);
      var before, ws := SettleWrites(env, wf, v, n, r), FinishWrites(env, wf, v, n, r);
      assert ws[2] == before[2];
      assert !Raised(ws[2], ws[3]);
      assert 3 != 0 && !Raised(if 3 == 0 then v.snap else ws[3 - 1], ws[3]);
    }
  }
}
