/** Human gates: a node behind a required gate starts only after an interrupt of the gate was resolved. */
module Approval {
  import opened Common
  import opened JsonValues
  import opened Models
  import opened Workflow
  import opened Compiler
  import opened Reducer
  import opened ReducerFacts
  import opened Scheduler
  import opened Events
  import opened RunMachine
  import opened RunInvariant
  import opened RunOps
  import opened RunResume
  import opened RunLifecycle
  import opened RunSteps
  import opened RunLoop
  import opened RunHistory
  import opened RunStops
  import opened RunAttempts
  import opened RunTheorems

  /* ---- The gate executor ---- */

  /** An interrupt of the gate that is no longer open and carries a resolution. */
  predicate ResolvedAt(interrupts: map<Id, InterruptRecord>, g: NodeId) {
    exists i | i in interrupts ::
      interrupts[i].nodeId == Some(g) && interrupts[i].resolution && interrupts[i].status != Open
  }

  function GateResult(status: NodeStatus, interrupts: seq<InterruptRecord>): NodeResult {
    NodeResult(status, None, Some(Obj(map[])), interrupts, [], [], None)
  }

  function GateInterrupt(s: Snapshot, g: NodeId, i: Id): InterruptRecord {
    InterruptRecord(i, s.run.runId, s.run.threadId, Some(g), ApprovalRequired, Open, false, false, 0)
  }

  /** A gate without a policy raises, one whose approval is not required lets the run pass, and a required
      one passes once an interrupt of it was resolved; until then it waits on a new interrupt. */
  function HumanGateOutcome(s: Snapshot, g: NodeId, approval: Option<bool>, nextId: nat): Outcome {
    match approval
    case None => Outcome(None, 0, nextId)
    case Some(false) => Outcome(Some(GateResult(Succeeded, [])), 0, nextId)
    case Some(true) =>
      if ResolvedAt(s.interrupts, g) then Outcome(Some(GateResult(Succeeded, [])), 0, nextId)
      else Outcome(Some(GateResult(Waiting, [GateInterrupt(s, g, Id(nextId))])), 0, nextId + 1)
  }

  /** The gate executor meets the contract of executors. It raises exactly without a policy, succeeds exactly
      if no approval is required or one was given, and otherwise waits on one new open approval of its own. */
  lemma HumanGateIsHonest(s: Snapshot, g: NodeId, approval: Option<bool>, nextId: nat)
    ensures var o := HumanGateOutcome(s, g, approval, nextId);
            && nextId <= o.nextId
            && (o.result.Some? ==> HonestResult(s, g, o.result.value, nextId, o.nextId))
            && (o.result == None <==> approval == None)
            && (approval.Some? ==>
                  var r := o.result.value;
                  && (r.status == Succeeded <==> !approval.value || ResolvedAt(s.interrupts, g))
                  && (r.status == Succeeded ==> r.interrupts == [])
                  && (r.status != Succeeded ==>
                        && r.status == Waiting && |r.interrupts| == 1 && r.interrupts[0].nodeId == Some(g)
                        && r.interrupts[0].kind == ApprovalRequired && r.interrupts[0].status == Open
                        && (IdsBelow(s, nextId) ==> r.interrupts[0].interruptId !in s.interrupts)))
  {
    var o := HumanGateOutcome(s, g, approval, nextId);
    if o.result.Some? {
      var r := o.result.value;
      var ids := seq(|r.interrupts|, i requires 0 <= i < |r.interrupts| => r.interrupts[i].interruptId);
      assert FreshIds(ids, nextId, o.nextId);
    }
  }

  /** Required gates are executed by the gate executor. */
  ghost predicate GatesInstalled(env: Env, wf: Compiled) {
    forall s, g, k: nat :: g in wf.specs && wf.specs[g].RequiredGate() ==>
      env.execute(s, g, k) == HumanGateOutcome(s, g, Some(true), k)
  }

  /* ---- A finished gate was approved ---- */

  ghost predicate GatesHeld(wf: Compiled, s: Snapshot) {
    s.run.status != RunCancelled ==>
      forall g | g in wf.specs && wf.specs[g].RequiredGate() && Finished(s.nodes, g) :: ResolvedAt(s.interrupts, g)
  }

  /** Resolutions are never taken back, and nothing but `n` may have finished. */
  lemma GatesStayHeld(wf: Compiled, s: Snapshot, t: Snapshot, n: NodeId)
    requires GatesHeld(wf, s) && s.run.status != RunCancelled
    requires forall g | ResolvedAt(s.interrupts, g) :: ResolvedAt(t.interrupts, g)
    requires forall g | Finished(t.nodes, g) && g != n :: Finished(s.nodes, g)
    requires n in wf.specs && wf.specs[n].RequiredGate() && Finished(t.nodes, n) ==> ResolvedAt(t.interrupts, n)
    ensures GatesHeld(wf, t)
  {
  }

  lemma ExtendsResolved(before: map<Id, InterruptRecord>, after: map<Id, InterruptRecord>)
    requires Extends(before, after)
    ensures forall g | ResolvedAt(before, g) :: ResolvedAt(after, g)
  {
    forall g | ResolvedAt(before, g) ensures ResolvedAt(after, g) {
      var i :| i in before && before[i].nodeId == Some(g) && before[i].resolution && before[i].status != Open;
      assert i in after && after[i] == before[i];
    }
  }

  /* ---- The log of a resolved interrupt ---- */

  /** Somewhere in the list the interrupt is created for the node and later resolved. */
  ghost predicate Approved(kinds: seq<EventKind>, g: NodeId) {
    exists i, j, x :: 0 <= i < j < |kinds| && kinds[i] == InterruptCreated(Some(g), x) && kinds[j] == InterruptResolved(x)
  }

  ghost predicate Traced(kinds: seq<EventKind>, owner: Option<NodeId>, x: Id, pending: bool) {
    exists i :: 0 <= i < |kinds| && kinds[i] == InterruptCreated(owner, x)
      && (pending || exists j :: i < j < |kinds| && kinds[j] == InterruptResolved(x))
  }

  lemma TracedLonger(kinds: seq<EventKind>, more: seq<EventKind>, owner: Option<NodeId>, x: Id, pending: bool)
    requires Traced(kinds, owner, x, pending)
    ensures Traced(kinds + more, owner, x, pending)
  {
    var i :| 0 <= i < |kinds| && kinds[i] == InterruptCreated(owner, x)
      && (pending || exists j :: i < j < |kinds| && kinds[j] == InterruptResolved(x));
    assert (kinds + more)[i] == kinds[i];
    if !pending {
      var j :| i < j < |kinds| && kinds[j] == InterruptResolved(x);
      assert (kinds + more)[j] == kinds[j];
    }
  }

  /** An interrupt the log knows was created in it, and one no longer pending was resolved after that. */
  lemma {:induction false} ReplayTraces(ids: set<NodeId>, kinds: seq<EventKind>)
    ensures var l := ReplayKinds(ids, EMPTY_LOG, kinds);
            forall x | x in l.owner :: Traced(kinds, l.owner[x], x, x in l.pending)
    decreases |kinds|
  {
    if kinds != [] {
      var k := |kinds| - 1;
      var before, last := kinds[..k], kinds[k];
      assert kinds == before + [last];
      ReplayTraces(ids, before);
      ReplayAppend(ids, EMPTY_LOG, before, [last]);
      var l := ReplayKinds(ids, EMPTY_LOG, before);
      ReplayOne(ids, l, last);
      forall x | x in ReplayEvent(ids, l, last).owner
        ensures var m := ReplayEvent(ids, l, last); Traced(kinds, m.owner[x], x, x in m.pending)
      {
        StepTraces(ids, l, before, last, x);
      }
    }
  }

  lemma StepTraces(ids: set<NodeId>, l: LogState, before: seq<EventKind>, last: EventKind, x: Id)
    requires forall y | y in l.owner :: Traced(before, l.owner[y], y, y in l.pending)
    requires x in ReplayEvent(ids, l, last).owner
    ensures var m := ReplayEvent(ids, l, last); Traced(before + [last], m.owner[x], x, x in m.pending)
  {
    var m := ReplayEvent(ids, l, last);
    var kinds := before + [last];
    assert kinds[|before|] == last;
    if last == InterruptCreated(m.owner[x], x) {
    } else if last == InterruptResolved(x) {
      var i :| 0 <= i < |before| && before[i] == InterruptCreated(m.owner[x], x);
      assert kinds[i] == before[i];
    } else {
      TracedLonger(before, [last], m.owner[x], x, x in m.pending);
    }
  }

  lemma TracedIn(ids: set<NodeId>, kinds: seq<EventKind>, x: Id)
    requires x in ReplayKinds(ids, EMPTY_LOG, kinds).owner
    ensures var l := ReplayKinds(ids, EMPTY_LOG, kinds); Traced(kinds, l.owner[x], x, x in l.pending)
  {
    ReplayTraces(ids, kinds);
  }

  /** A resolved interrupt of a stored run was created and resolved in its log. */
  lemma ResolvedWasApproved(wf: Compiled, v: View, g: NodeId)
    requires RunInv(wf, v) && ResolvedAt(v.snap.interrupts, g)
    ensures Approved(Kinds(v.log), g)
  {
    hide Trails, AttemptsBounded, Begun, ListsAgree, SavedOk, Ordered;
    var i :| i in v.snap.interrupts && v.snap.interrupts[i].nodeId == Some(g) && v.snap.interrupts[i].status != Open;
    var l := Replay(wf.specs.Keys, v.log);
    assert l == Abs(v.snap);
    assert i in l.owner && l.owner[i] == Some(g) && i !in l.pending;
    TracedIn(wf.specs.Keys, Kinds(v.log), i);
    TracedIsApproved(Kinds(v.log), g, i);
  }

  lemma TracedIsApproved(kinds: seq<EventKind>, g: NodeId, x: Id)
    requires Traced(kinds, Some(g), x, false)
    ensures Approved(kinds, g)
  {
    var i :| 0 <= i < |kinds| && kinds[i] == InterruptCreated(Some(g), x)
      && exists j :: i < j < |kinds| && kinds[j] == InterruptResolved(x);
    var j :| i < j < |kinds| && kinds[j] == InterruptResolved(x);
    assert 0 <= i < j < |kinds|;
  }

  /* ---- Every step keeps gated starts approved ---- */

  /** The gate lies on every path from the entry to the node, before it. */
  ghost predicate OnEveryPath(wf: Compiled, g: NodeId, n: NodeId) {
    forall path :: Walk(wf.outgoing, path) && path[0] == wf.entry && path[|path| - 1] == n ==> g in path[..|path| - 1]
  }

  ghost predicate Gated(wf: Compiled, g: NodeId, n: NodeId) {
    g in wf.specs && wf.specs[g].RequiredGate() && OnEveryPath(wf, g, n)
  }

  ghost predicate StartsApproved(wf: Compiled, kinds: seq<EventKind>) {
    forall k, g :: 0 <= k < |kinds| && kinds[k].NodeStarted? && Gated(wf, g, kinds[k].node) ==> Approved(kinds[..k], g)
  }

  /** Each start of the node comes after the creation and the later resolution of an interrupt of the gate. */
  ghost predicate StartsAfterApproval(kinds: seq<EventKind>, g: NodeId, n: NodeId) {
    forall k :: 0 <= k < |kinds| && kinds[k] == NodeStarted(n) ==> Approved(kinds[..k], g)
  }

  ghost predicate Gatekept(wf: Compiled, v: View) {
    GatesHeld(wf, v.snap) && StartsApproved(wf, Kinds(v.log))
  }

  lemma QuietKeepsApproved(wf: Compiled, v: View, w: View)
    requires StartsApproved(wf, Kinds(v.log)) && Quiet(v, w)
    ensures StartsApproved(wf, Kinds(w.log))
  {
    forall k, g | 0 <= k < |w.log| && w.log[k].kind.NodeStarted? && Gated(wf, g, w.log[k].kind.node)
      ensures Approved(Kinds(w.log)[..k], g)
    {
      assert Kinds(v.log)[k] == Kinds(w.log)[k];
      assert Kinds(w.log)[..k] == Kinds(v.log)[..k];
    }
  }

  lemma TrailPassesGate(wf: Compiled, s: Snapshot, g: NodeId, n: NodeId)
    requires HasTrail(wf, s.nodes, n) && OnEveryPath(wf, g, n)
    ensures Finished(s.nodes, g)
  {
    var path :| Trail(wf, s.nodes, path, n);
    var k :| 0 <= k < |path| - 1 && path[k] == g;
  }

  lemma StartKeepsGates(wf: Compiled, env: Env, v: View, n: NodeId)
    requires Idle(wf, v) && MayStart(wf, v.snap, n) && Gatekept(wf, v)
    ensures Gatekept(wf, StartNode(env, v, n).view)
  {
    hide RunInv, StartNode, Approved, OnEveryPath, HasTrail;
    StartNodeKeeps(wf, env, v, n);
    var w := StartNode(env, v, n).view;
    StartLogs(env, v, n);
    GatesStayHeld(wf, v.snap, w.snap, n);
    forall k, g | 0 <= k < |w.log| && w.log[k].kind.NodeStarted? && Gated(wf, g, w.log[k].kind.node)
      ensures Approved(Kinds(w.log)[..k], g)
    {
      if k < |v.log| {
        assert Kinds(v.log)[k] == Kinds(w.log)[k] == w.log[k].kind;
        assert Kinds(w.log)[..k] == Kinds(v.log)[..k];
      } else {
        assert Kinds(w.log)[k] == NodeStarted(n);
        assert Kinds(w.log)[..k] == Kinds(v.log);
        TrailPassesGate(wf, v.snap, g, n);
        ResolvedWasApproved(wf, v, g);
      }
    }
  }

  lemma FinishKeepsGates(wf: Compiled, env: Env, u: View, n: NodeId, r: NodeResult, low: nat)
    requires Executing(wf, u, n) && IdsBelow(u.snap, low)
    requires HonestResult(u.snap, n, r, low, u.nextId) && low <= u.nextId
    requires n in wf.specs && wf.specs[n].RequiredGate() && r.status.Terminal() ==> ResolvedAt(u.snap.interrupts, n)
    requires Gatekept(wf, u)
    ensures Gatekept(wf, FinishNode(env, wf, u, n, r).view)
  {
    hide RunInv, FinishNode, HonestResult;
    FinishNodeKeeps(wf, env, u, n, r, low);
    var f := FinishNode(env, wf, u, n, r).view;
    ExtendsResolved(u.snap.interrupts, f.snap.interrupts);
    GatesStayHeld(wf, u.snap, f.snap, n);
    FinishQuiet(env, wf, u, n, r);
    QuietKeepsApproved(wf, u, f);
  }

  /** What a required gate returns on the snapshot it was started in. */
  lemma InstalledGate(wf: Compiled, env: Env, u: View, n: NodeId, o: Outcome)
    requires GatesInstalled(env, wf) && o == env.execute(u.snap, n, u.nextId) && o.result.Some?
    ensures n in wf.specs && wf.specs[n].RequiredGate() && o.result.value.status.Terminal() ==>
              ResolvedAt(u.snap.interrupts, n)
  {
  }

  lemma StartedRunKeepsGates(wf: Compiled, env: Env, v: View, n: NodeId)
    requires Honest(env) && GatesInstalled(env, wf) && Idle(wf, v) && MayStart(wf, v.snap, n) && Gatekept(wf, v)
    ensures var u := StartNode(env, v, n).view;
            var o := env.execute(u.snap, n, u.nextId);
            var w := DuringExecution(u, o);
            Gatekept(wf, u) && Gatekept(wf, w)
            && (o.result.Some? ==> Gatekept(wf, FinishNode(env, wf, w, n, o.result.value).view))
  {
    hide StartNode, FinishNode, DuringExecution, RunInv, Idle, Executing, HonestResult, Honest, GatesInstalled,
         StartsApproved, GatesHeld;
    StartKeepsGates(wf, env, v, n);
    var u := StartNode(env, v, n).view;
    var o := env.execute(u.snap, n, u.nextId);
    var w := DuringExecution(u, o);
    DuringQuiet(u, o);
    QuietKeepsApproved(wf, u, w);
    StartedRun(wf, env, v, n, u, o, w);
    if o.result.Some? {
      InstalledGate(wf, env, u, n, o);
      FinishKeepsGates(wf, env, w, n, o.result.value, u.nextId);
    }
  }

  lemma UnavailableKeepsGates(wf: Compiled, env: Env, v: View)
    requires Idle(wf, v) && Gatekept(wf, v)
    ensures Gatekept(wf, MarkFailed(env, v, v.snap, ExecutorNotAvailable).view)
  {
    hide RunInv, Commit, StartsApproved;
    var p, kind := EndPatch(RunFailed, Some(Some(ExecutorNotAvailable))), RunFailure(ExecutorNotAvailable);
    EndLooksTheSame(wf, env, v, RunFailed, Some(Some(ExecutorNotAvailable)), kind);
    CommitQuiet(env, v, v.snap, p, [kind]);
    QuietKeepsApproved(wf, v, Commit(env, v, v.snap, p, [kind]).view);
  }

  lemma ExecuteKeepsGates(wf: Compiled, env: Env, v: View, n: NodeId)
    requires Honest(env) && GatesInstalled(env, wf) && Idle(wf, v) && MayStart(wf, v.snap, n) && Gatekept(wf, v)
    ensures Gatekept(wf, ExecuteNode(env, wf, v, n).view)
  {
    hide StartNode, FinishNode, DuringExecution, MarkFailed, RunInv, Idle, Honest, GatesInstalled, Gatekept;
    UnavailableKeepsGates(wf, env, v);
    StartedRunKeepsGates(wf, env, v, n);
  }

  lemma StopKeepsGates(wf: Compiled, env: Env, v: View, d: Decision)
    requires Idle(wf, v) && !d.Dispatch? && Gatekept(wf, v)
    ensures Gatekept(wf, Stop(env, v, d).view)
  {
    hide RunInv, Stop, StartsApproved;
    StopKeeps(wf, env, v, d);
    StopQuiet(env, v, d);
    QuietKeepsApproved(wf, v, Stop(env, v, d).view);
  }

  lemma DispatchKeepsGates(wf: Compiled, v: View, nodes: seq<NodeId>)
    requires Idle(wf, v) && AllMayStart(wf, v.snap, nodes) && Gatekept(wf, v)
    ensures Gatekept(wf, Dispatched(v, nodes).view)
  {
    hide RunInv, Dispatched, StartsApproved;
    DispatchKeeps(wf, v, nodes);
  }

  lemma ResumeKeepsGates(wf: Compiled, env: Env, v: View, withPayload: bool)
    requires RunInv(wf, v) && MayResume(v) && Gatekept(wf, v)
    ensures Gatekept(wf, Resume(env, v, withPayload).view)
  {
    hide RunInv, Commit, StartsApproved, ResumeKinds;
    var ids := if withPayload then v.snap.runState.pendingInterrupts else [];
    ResumeEffect(wf, env, v, ids);
    var w := Resume(env, v, withPayload).view;
    GatesStayHeld(wf, v.snap, w.snap, wf.entry);
    CommitQuiet(env, v, v.snap, ResumePatch(v.snap, ids), ResumeKinds(ids));
    QuietKeepsApproved(wf, v, w);
  }

  lemma ResumeEffect(wf: Compiled, env: Env, v: View, ids: seq<Id>)
    requires RunInv(wf, v) && MayResume(v) && (ids == [] || ids == v.snap.runState.pendingInterrupts)
    ensures var w := Commit(env, v, v.snap, ResumePatch(v.snap, ids), ResumeKinds(ids)).view;
            && (forall n | Finished(w.snap.nodes, n) :: Finished(v.snap.nodes, n))
            && (forall g | ResolvedAt(v.snap.interrupts, g) :: ResolvedAt(w.snap.interrupts, g))
            && (forall k | k in ResumeKinds(ids) :: !k.NodeStarted?)
  {
    hide Commit, Resumable, RunInv;
    AcceptsResume(wf, v, ids);
    ResumeMoves(wf, v.snap, ids);
    ResumeStamps(wf, env, v, ids);
  }

  lemma AcceptsResume(wf: Compiled, v: View, ids: seq<Id>)
    requires RunInv(wf, v) && MayResume(v) && (ids == [] || ids == v.snap.runState.pendingInterrupts)
    ensures Resumable(wf, v.snap, ids)
  {
    hide SnapshotOk, HistoryOk;
  }

  lemma ResumeStamps(wf: Compiled, env: Env, v: View, ids: seq<Id>)
    requires Apply(v.snap, ResumePatch(v.snap, ids)).Ok?
    ensures var w := Commit(env, v, v.snap, ResumePatch(v.snap, ids), ResumeKinds(ids)).view;
            var t := Apply(v.snap, ResumePatch(v.snap, ids)).value;
            w.snap.nodes == t.nodes && w.snap.interrupts == t.interrupts
  {
    hide Apply, ResumePatch;
    CommitStamps(env, v, v.snap, ResumePatch(v.snap, ids), ResumeKinds(ids));
  }

  lemma ResumeMoves(wf: Compiled, s: Snapshot, ids: seq<Id>)
    requires Resumable(wf, s, ids)
    ensures Apply(s, ResumePatch(s, ids)).Ok?
    ensures var t := Apply(s, ResumePatch(s, ids)).value;
            && (forall n | Finished(t.nodes, n) :: Finished(s.nodes, n))
            && (forall g | ResolvedAt(s.interrupts, g) :: ResolvedAt(t.interrupts, g))
  {
    hide Apply, ResumePatch, SnapCore, ResolvedAt, Patched;
    ResumeKeeps(wf, s, ids);
    ResolveAllResolved(s.interrupts, ids);
  }

  lemma ResolveAllResolved(interrupts: map<Id, InterruptRecord>, ids: seq<Id>)
    ensures forall g | ResolvedAt(interrupts, g) :: ResolvedAt(ResolveAll(interrupts, ids), g)
  {
    forall g | ResolvedAt(interrupts, g) ensures ResolvedAt(ResolveAll(interrupts, ids), g) {
      var i :| i in interrupts && interrupts[i].nodeId == Some(g) && interrupts[i].resolution && interrupts[i].status != Open;
      assert i in ResolveAll(interrupts, ids);
    }
  }

  lemma CancelKeepsGates(wf: Compiled, env: Env, v: View)
    requires RunInv(wf, v) && !v.snap.run.status.Terminal() && Gatekept(wf, v)
    ensures Gatekept(wf, Cancel(env, v).view)
  {
    hide RunInv, Commit, StartsApproved;
    CancelRunKeeps(wf, env, v);
    CommitQuiet(env, v, v.snap, CancelPatch(v.snap), [RunAborted]);
    QuietKeepsApproved(wf, v, Cancel(env, v).view);
  }

  lemma StepsKeepGates(env: Env, config: SchedulerConfig, wf: Compiled)
    requires Honest(env) && GatesInstalled(env, wf)
    ensures StepsRelate(env, config, wf, (v: View, w: View) => Gatekept(wf, v) ==> Gatekept(wf, w))
  {
    hide RunInv, ExecuteNode, Dispatched, Stop, Resume, Cancel, Gatekept, Idle, Honest, GatesInstalled;
    forall v, n | Idle(wf, v) && MayStart(wf, v.snap, n) && Gatekept(wf, v)
      ensures Gatekept(wf, ExecuteNode(env, wf, v, n).view)
    {
      ExecuteKeepsGates(wf, env, v, n);
    }
    forall v, nodes | Idle(wf, v) && AllMayStart(wf, v.snap, nodes) && Gatekept(wf, v)
      ensures Gatekept(wf, Dispatched(v, nodes).view)
    {
      DispatchKeepsGates(wf, v, nodes);
    }
    forall v, d: Decision | Idle(wf, v) && !d.Dispatch? && Gatekept(wf, v) ensures Gatekept(wf, Stop(env, v, d).view) {
      StopKeepsGates(wf, env, v, d);
    }
    forall v, p | RunInv(wf, v) && MayResume(v) && Gatekept(wf, v) ensures Gatekept(wf, Resume(env, v, p).view) {
      ResumeKeepsGates(wf, env, v, p);
    }
    forall v | RunInv(wf, v) && !v.snap.run.status.Terminal() && Gatekept(wf, v)
      ensures Gatekept(wf, Cancel(env, v).view)
    {
      CancelKeepsGates(wf, env, v);
    }
    forall v, w | Elsewhere(v, w) && Gatekept(wf, v) ensures Gatekept(wf, w) {
      OthersKeepGates(wf, v, w);
    }
  }

  lemma OthersKeepGates(wf: Compiled, v: View, w: View)
    requires Elsewhere(v, w) && Gatekept(wf, v)
    ensures Gatekept(wf, w)
  {
    hide StartsApproved;
  }

  /* ---- The theorem ---- */

  lemma BeginKeepsGates(wf: Compiled, env: Env, start: Start)
    requires WellCompiled(wf) && start.Sound()
    ensures Gatekept(wf, Begin(env, start.thread, start.threadState, wf, start.nextId).view)
  {
    hide WellCompiled;
    var run := Id(start.nextId);
    var empty := EmptySnapshot(start.thread, start.threadState, run, wf);
    BeginApplies(start.thread, start.threadState, run, wf);
    var v := View(empty, [], [], start.nextId + 1);
    CommitStamps(env, v, empty, InitialPatch(run, wf), InitialKinds(wf));
    CommitQuiet(env, v, empty, InitialPatch(run, wf), InitialKinds(wf));
    QuietKeepsApproved(wf, v, Begin(env, start.thread, start.threadState, wf, start.nextId).view);
  }

  /** If a required gate lies on every path from the entry to a node, then in every history, whatever the
      join policies, the edge conditions and the other executors do, each start of the node comes after the
      creation and the later resolution of an interrupt of the gate. */
  lemma GateDominates(env: Env, config: SchedulerConfig, wf: Compiled, start: Start, commands: seq<Command>,
                      g: NodeId, n: NodeId)
    requires WellCompiled(wf) && Honest(env) && start.Sound() && GatesInstalled(env, wf) && Gated(wf, g, n)
    ensures StartsAfterApproval(Kinds(RunOf(env, config, wf, start, commands).log), g, n)
  {
    hide WellCompiled, Begin, Loop, Drive, RunInv, Gatekept, GatesInstalled, Honest;
    BeginKeeps(wf, env, start.thread, start.threadState, start.nextId);
    BeginKeepsGates(wf, env, start);
    StepsKeepGates(env, config, wf);
    var b := Begin(env, start.thread, start.threadState, wf, start.nextId).view;
    var rel := (v: View, w: View) => Gatekept(wf, v) ==> Gatekept(wf, w);
    LoopRelates(env, config, wf, b, rel);
    DriveRelates(env, config, wf, Loop(env, config, wf, b).view, commands, rel);
    assert Gatekept(wf, RunOf(env, config, wf, start, commands));
    ApprovedStarts(wf, RunOf(env, config, wf, start, commands), g, n);
  }

  lemma ApprovedStarts(wf: Compiled, v: View, g: NodeId, n: NodeId)
    requires Gatekept(wf, v) && Gated(wf, g, n)
    ensures StartsAfterApproval(Kinds(v.log), g, n)
  {
  }
}
