/** What starting a node, beginning, pausing, resuming and cancelling a run leave stored, field by field. */
module CommandEffects {
  import opened Common
  import opened Lists
  import opened Models
  import opened Workflow
  import opened Compiler
  import opened Reducer
  import opened ReducerFacts
  import opened Events
  import opened RunMachine
  import opened RunInvariant
  import opened RunOps
  import opened RunResume
  import opened RunLifecycle
  import opened Scheduler
  import opened RunSteps
  import opened RunLoop
  import opened RunStops
  import opened RunHistory
  import opened RunTheorems
  import opened RunEffects

  /* ---- Executing a node ---- */

  /** The node is in execution with one attempt more; it has left the frontier; the rest is as it was. */
  ghost predicate Starts(s: Snapshot, n: NodeId, t: Snapshot) {
    && n in s.nodes && n in t.nodes && t == s.(runState := t.runState, nodes := t.nodes)
    && t.nodes == s.nodes[n := t.nodes[n]]
    && t.nodes[n] == s.nodes[n].(status := Running, attempt := s.nodes[n].attempt + 1, started := true,
                                 version := s.nodes[n].version + 1)
    && t.runState == s.runState.(active := t.runState.active, frontier := t.runState.frontier,
                                 version := s.runState.version + 1)
    && s.runState.active <= t.runState.active && (forall m :: m in t.runState.active <==> m in s.runState.active || m == n)
    && Filters(t.runState.frontier, s.runState.frontier, m => m != n)
  }

  lemma StartStarts(wf: Compiled, s: Snapshot, n: NodeId)
    requires SnapCore(wf, s) && MayStart(wf, s, n) && s.run.status == RunRunning
    ensures Apply(s, StartPatch(s, n)).Ok? && Starts(s, n, Apply(s, StartPatch(s, n)).value)
  {
    hide Filters, SnapshotOk, RunCore, Apply;
    StartKeeps(wf, s, n);
    WithoutOne(s.runState.frontier, n);
  }

  lemma WithoutOne(xs: seq<NodeId>, n: NodeId)
    ensures Filters(Without(xs, {n}), xs, m => m != n)
  {
    var drop := {n};
    WithoutFilters(xs, drop);
    FiltersSame(Without(xs, drop), xs, m => m !in drop, m => m != n);
  }

  /** The executor's own events and identifiers, and nothing else. */
  ghost predicate Meanwhile(u: View, o: Outcome, w: View) {
    w.snap == u.snap && w.saved == u.saved && Told(u.log, w.log, u.snap.run, Externals(o.emitted))
  }

  /** After the start: the input cannot be selected, which raises; or the executor is given the node in
      execution, and raises; or it returns, and its result is stored. */
  ghost predicate Proceeds(env: Env, wf: Compiled, u: View, n: NodeId, r: Stepped) {
    if !env.selectsInput(u.snap, n) then r == Stepped(u, true)
    else
      var o := env.execute(u.snap, n, u.nextId);
      exists w :: Meanwhile(u, o, w)
                  && if o.result == None then r == Stepped(w, true)
                     else !r.raised && Finishes(wf, w, n, o.result.value, r.view)
  }

  /** Everything one execution can come to: no executor is found and the run fails; the input cannot be
      selected, which raises; or the node is started and proceeds. */
  ghost predicate Executes(env: Env, wf: Compiled, v: View, n: NodeId, r: Stepped) {
    if !env.canExecute(v.snap, n) then
      && !r.raised
      && exists t :: Ended(v.snap, RunFailed, Some(ExecutorNotAvailable), t)
                     && Left(env, v, t, [RunFailure(ExecutorNotAvailable)], r.view)
    else if !env.selectsInput(v.snap, n) then r == Stepped(v, true)
    else
      exists t, u :: Starts(v.snap, n, t) && Left(env, v, t, [NodeStarted(n)], u) && Proceeds(env, wf, u, n, r)
  }

  lemma NotExecutable(wf: Compiled, env: Env, v: View)
    requires Idle(wf, v)
    ensures var r := MarkFailed(env, v, v.snap, ExecutorNotAvailable);
            && !r.raised
            && exists t :: Ended(v.snap, RunFailed, Some(ExecutorNotAvailable), t)
                           && Left(env, v, t, [RunFailure(ExecutorNotAvailable)], r.view)
  {
    hide Apply, HistoryOk, SnapCore, Left, Ended;
    var p := EndPatch(RunFailed, Some(Some(ExecutorNotAvailable)));
    EndEnds(wf, v.snap, RunFailed, Some(Some(ExecutorNotAvailable)), v.nextId);
    CommitLeaves(env, v, v.snap, p, [RunFailure(ExecutorNotAvailable)]);
  }

  lemma StartLeaves(wf: Compiled, env: Env, v: View, n: NodeId)
    requires Idle(wf, v) && MayStart(wf, v.snap, n)
    ensures var r := StartNode(env, v, n);
            !r.raised && exists t :: Starts(v.snap, n, t) && Left(env, v, t, [NodeStarted(n)], r.view)
  {
    hide Apply, HistoryOk, SnapCore, Left, Starts, StartPatch;
    StartStarts(wf, v.snap, n);
    CommitLeaves(env, v, v.snap, StartPatch(v.snap, n), [NodeStarted(n)]);
  }

  lemma EmitTells(v: View, kinds: seq<EventKind>)
    ensures Told(v.log, Emit(v, kinds).log, v.snap.run, kinds) && Emit(v, kinds).snap == v.snap
    ensures Emit(v, kinds).saved == v.saved
  {
  }

  lemma StartProceeds(wf: Compiled, env: Env, v: View, n: NodeId)
    requires Honest(env) && Idle(wf, v) && MayStart(wf, v.snap, n)
    requires env.canExecute(v.snap, n) && env.selectsInput(v.snap, n)
    ensures Proceeds(env, wf, StartNode(env, v, n).view, n, ExecuteNode(env, wf, v, n))
  {
    hide Honest, Idle, HasTrail, StartNode, FinishNode, Executing, HonestResult, IdsBelow, Finishes;
    var u := StartNode(env, v, n).view;
    var o := env.execute(u.snap, n, u.nextId);
    var w := DuringExecution(u, o);
    StartedRun(wf, env, v, n, u, o, w);
    EmitTells(u.(nextId := o.nextId), Externals(o.emitted));
    assert Meanwhile(u, o, w);
    if o.result.Some? {
      FinishDelivers(wf, env, w, n, o.result.value, u.nextId);
    }
  }

  lemma ExecutionDelivers(wf: Compiled, env: Env, v: View, n: NodeId)
    requires Honest(env) && Idle(wf, v) && MayStart(wf, v.snap, n)
    ensures Executes(env, wf, v, n, ExecuteNode(env, wf, v, n))
  {
    hide Honest, Idle, StartNode, FinishNode, MarkFailed, DuringExecution, Proceeds, Starts, Left, Ended, HasTrail;
    if !env.canExecute(v.snap, n) {
      NotExecutable(wf, env, v);
    } else if env.selectsInput(v.snap, n) {
      StartLeaves(wf, env, v, n);
      StartProceeds(wf, env, v, n);
    }
  }

  /* ---- Beginning ---- */

  /** A running run of the compiled workflow, its entry ready and on the frontier, every other node pending,
      nothing else recorded, and the thread's to it. */
  ghost predicate Begins(thread: ThreadRecord, threadState: ThreadState, run: Id, wf: Compiled, t: Snapshot) {
    && t.thread == thread.(status := ThreadActive, currentRun := Some(run), version := thread.version + 1)
    && t.threadState == threadState.(status := ThreadActive, activeRun := Some(run), version := threadState.version + 1)
    && t.run == RunRecord(run, thread.threadId, wf.workflowId, wf.version, wf.entry, RunRunning, None, 0)
    && t.runState == RunState(run, thread.threadId, RunRunning, [wf.entry], [], [], [], [], [], [], [], None, 0)
    && t.nodes.Keys == wf.specs.Keys
    && (forall n | n in t.nodes ::
          t.nodes[n] == NodeState(run, n, if n == wf.entry then Ready else Pending, 0, false, None, None, [], [], 0))
    && t.artifacts == map[] && t.interrupts == map[] && t.decisions == map[] && t.sideEffects == map[]
  }

  lemma BeginBegins(wf: Compiled, env: Env, thread: ThreadRecord, threadState: ThreadState, nextId: nat)
    requires WellCompiled(wf)
    ensures var r := Begin(env, thread, threadState, wf, nextId);
            && !r.raised && |r.view.log| == 3 && |r.view.saved| == 1
            && exists t, v: View :: v.log == [] && v.saved == [] && Begins(thread, threadState, Id(nextId), wf, t)
                 && Left(env, v, t, [RunCreated, RunStarted, NodeReady(wf.entry)], r.view)
  {
    hide WellCompiled, Apply, Left;
    var run := Id(nextId);
    var empty := EmptySnapshot(thread, threadState, run, wf);
    var v := View(empty, [], [], nextId + 1);
    BeginApplies(thread, threadState, run, wf);
    var t := Apply(empty, InitialPatch(run, wf)).value;
    assert Begins(thread, threadState, run, wf, t);
    CommitLeaves(env, v, empty, InitialPatch(run, wf), InitialKinds(wf));
    LeftCounts(env, v, t, InitialKinds(wf), Begin(env, thread, threadState, wf, nextId).view);
  }

  lemma LeftCounts(env: Env, v: View, t: Snapshot, kinds: seq<EventKind>, w: View)
    requires Left(env, v, t, kinds, w)
    ensures |w.log| == |v.log| + |kinds| && |w.saved| == |v.saved| + 1
  {
  }

  /* ---- Pausing ---- */

  ghost predicate Pauses(s: Snapshot, status: RunStatus, t: Snapshot) {
    && t == s.(thread := s.thread.(status := ThreadPaused, version := s.thread.version + 1),
               threadState := s.threadState.(status := ThreadPaused, version := s.threadState.version + 1),
               run := s.run.(status := status, version := s.run.version + 1),
               runState := s.runState.(status := status, frontier := [], version := s.runState.version + 1))
  }

  lemma PauseOf(wf: Compiled, s: Snapshot, status: RunStatus)
    requires SnapCore(wf, s) && NoneRunning(s.nodes) && s.run.status == RunRunning
    requires status == RunInterrupted || status == RunWaiting
    ensures Apply(s, PausePatch(status)).Ok? && Pauses(s, status, Apply(s, PausePatch(status)).value)
  {
    hide Apply, SnapCore;
    MarkKeeps(wf, s, PausePatch(status));
    PatchedByNothing(s.nodes);
  }

  /** What each decision to stop leaves: an interrupt or a wait pauses the run, the others end it. */
  lemma StopLeaves(wf: Compiled, env: Env, v: View, d: Decision)
    requires Idle(wf, v) && !d.Dispatch? && (d == Complete ==> NoneFailed(v.snap.nodes))
    ensures !Stop(env, v, d).raised
    ensures exists t ::
      match d
      case Complete => Ended(v.snap, RunCompleted, v.snap.run.failure, t) && Left(env, v, t, [RunDone], Stop(env, v, d).view)
      case Interrupt => Pauses(v.snap, RunInterrupted, t) && Left(env, v, t, [RunHalted], Stop(env, v, d).view)
      case Wait(_) => Pauses(v.snap, RunWaiting, t) && Left(env, v, t, [RunIdle], Stop(env, v, d).view)
      case _ => Ended(v.snap, RunFailed, Some(NoProgress), t)
                && Left(env, v, t, [RunFailure(NoProgress)], Stop(env, v, d).view)
  {
    hide Apply, SnapCore, HistoryOk, Left, Ended, Pauses, EndPatch, PausePatch;
    match d
    case Complete =>
      EndEnds(wf, v.snap, RunCompleted, None, v.nextId);
      CommitLeaves(env, v, v.snap, EndPatch(RunCompleted, None), [RunDone]);
    case Interrupt =>
      PauseOf(wf, v.snap, RunInterrupted);
      CommitLeaves(env, v, v.snap, PausePatch(RunInterrupted), [RunHalted]);
    case Wait(_) =>
      PauseOf(wf, v.snap, RunWaiting);
      CommitLeaves(env, v, v.snap, PausePatch(RunWaiting), [RunIdle]);
    case Fail =>
      EndEnds(wf, v.snap, RunFailed, Some(Some(NoProgress)), v.nextId);
      CommitLeaves(env, v, v.snap, EndPatch(RunFailed, Some(Some(NoProgress))), [RunFailure(NoProgress)]);
  }

  /* ---- Cancelling ---- */

  /** Every node that has not ended is cancelled, nothing is listed as queued, in execution, waiting or
      blocked, the thread is free, and the records stay. */
  ghost predicate Cancels(s: Snapshot, t: Snapshot) {
    && t == s.(thread := s.thread.(currentRun := None, version := s.thread.version + 1),
               threadState := s.threadState.(status := ThreadActive, activeRun := None, version := s.threadState.version + 1),
               run := s.run.(status := RunCancelled, version := s.run.version + 1),
               runState := s.runState.(status := RunCancelled, frontier := [], active := [], waiting := [], blocked := [],
                                       version := s.runState.version + 1),
               nodes := t.nodes)
    && t.nodes.Keys == s.nodes.Keys
    && forall n | n in s.nodes ::
         t.nodes[n] == if s.nodes[n].status in {Succeeded, Failed, Skipped, Cancelled} then s.nodes[n]
                       else s.nodes[n].(status := Cancelled, version := s.nodes[n].version + 1)
  }

  lemma CancelLeaves(wf: Compiled, env: Env, v: View)
    requires RunInv(wf, v) && !v.snap.run.status.Terminal()
    ensures var r := Cancel(env, v);
            !r.raised && exists t :: Cancels(v.snap, t) && Left(env, v, t, [RunAborted], r.view)
  {
    hide Apply, SnapCore, HistoryOk, Left;
    CancelKeeps(wf, v.snap);
    CancelSpelled(v.snap);
    CommitLeaves(env, v, v.snap, CancelPatch(v.snap), [RunAborted]);
  }

  lemma CancelSpelled(s: Snapshot)
    ensures Cancels(s, Plain(s, CancelPatch(s)))
  {
  }

  /* ---- Resuming ---- */

  /** The pending interrupt at a place is the node's. */
  ghost predicate HeldAt(s: Snapshot, k: int, m: NodeId) {
    && 0 <= k < |s.runState.pendingInterrupts| && s.runState.pendingInterrupts[k] in s.interrupts
    && s.interrupts[s.runState.pendingInterrupts[k]].nodeId == Some(m)
  }

  ghost predicate Held(s: Snapshot, m: NodeId) {
    exists k :: HeldAt(s, k, m)
  }

  /** Each pending interrupt of `b` comes after one of `a`. */
  ghost predicate HeldBefore(s: Snapshot, a: NodeId, b: NodeId) {
    forall y | HeldAt(s, y, b) :: exists x :: x < y && HeldAt(s, x, a)
  }

  /** Behind what is on the frontier stand the freed nodes, in the order of their first pending interrupts. */
  ghost predicate QueuesFreed(s: Snapshot, after: seq<NodeId>) {
    var before := s.runState.frontier;
    && before <= after && (Unique(before) ==> Unique(after))
    && (forall m :: m in after <==> m in before || Held(s, m))
    && forall i, j :: |before| <= i < j < |after| ==> HeldBefore(s, after[i], after[j])
  }

  /** Every pending interrupt is resolved, and the nodes that held one are ready again, without error. */
  ghost predicate Frees(s: Snapshot, t: Snapshot) {
    && t.interrupts.Keys == s.interrupts.Keys && t.nodes.Keys == s.nodes.Keys
    && (forall i | i in s.interrupts ::
          t.interrupts[i] == if i in s.runState.pendingInterrupts then
                               s.interrupts[i].(status := Resolved, resolvedAt := true, resolution := true,
                                                version := s.interrupts[i].version + 1)
                             else s.interrupts[i])
    && (forall m | m in s.nodes :: Held(s, m) ==>
          t.nodes[m] == s.nodes[m].(status := Ready, error := None, version := s.nodes[m].version + 1))
    && (forall m | m in s.nodes :: !Held(s, m) ==> t.nodes[m] == s.nodes[m])
    && Filters(t.runState.waiting, s.runState.waiting, m => !Held(s, m))
    && Filters(t.runState.blocked, s.runState.blocked, m => !Held(s, m))
    && t.runState.pendingInterrupts == [] && t.runState.pendingApprovals == []
    && QueuesFreed(s, t.runState.frontier)
  }

  ghost predicate Resumes(s: Snapshot, withPayload: bool, t: Snapshot) {
    && t == s.(thread := s.thread.(status := ThreadActive, version := s.thread.version + 1),
               threadState := s.threadState.(status := ThreadActive, version := s.threadState.version + 1),
               run := s.run.(status := RunRunning, version := s.run.version + 1),
               runState := t.runState, nodes := t.nodes, interrupts := t.interrupts)
    && t.runState == s.runState.(status := RunRunning, frontier := t.runState.frontier, waiting := t.runState.waiting,
                                 blocked := t.runState.blocked, pendingInterrupts := t.runState.pendingInterrupts,
                                 pendingApprovals := t.runState.pendingApprovals, version := t.runState.version)
    && if withPayload && s.runState.pendingInterrupts != [] then Frees(s, t)
       else
         && t.nodes == s.nodes && t.interrupts == s.interrupts
         && t.runState == s.runState.(status := RunRunning, version := t.runState.version)
  }

  lemma HeldIff(s: Snapshot, m: NodeId)
    ensures Held(s, m) <==> m in Holders(s.interrupts, s.runState.pendingInterrupts)
  {
    var ids := s.runState.pendingInterrupts;
    HoldersMembers(s.interrupts, ids);
    if m in Holders(s.interrupts, ids) {
      var i :| i in ids && i in s.interrupts && s.interrupts[i].nodeId == Some(m);
      var k :| 0 <= k < |ids| && ids[k] == i;
      assert HeldAt(s, k, m);
    }
  }

  /** With a node behind every interrupt the holders stand place by place. */
  lemma {:induction false} HoldersByPlace(interrupts: map<Id, InterruptRecord>, ids: seq<Id>)
    requires forall i | i in ids :: i in interrupts && interrupts[i].nodeId.Some?
    ensures var h := Holders(interrupts, ids);
            |h| == |ids| && forall k :: 0 <= k < |ids| ==> interrupts[ids[k]].nodeId == Some(h[k])
  {
    if ids != [] {
      HoldersByPlace(interrupts, ids[1..]);
    }
  }

  lemma MergedMembers(base: seq<NodeId>, incoming: seq<NodeId>)
    ensures var r := MergeUnique(base, incoming);
            && base <= r && (Unique(base) ==> Unique(r)) && forall m :: m in r <==> m in base || m in incoming
  {
  }

  lemma MergedStep(base: seq<NodeId>, incoming: seq<NodeId>) returns (next: seq<NodeId>)
    requires incoming != []
    ensures next == (if incoming[0] in base then base else base + [incoming[0]]) && incoming[0] in next
    ensures MergeUnique(base, incoming) == MergeUnique(next, incoming[1..]) && next <= MergeUnique(base, incoming)
  {
    next := if incoming[0] in base then base else base + [incoming[0]];
  }

  /** What merging appends follows the first places of the items in the list merged in. */
  lemma {:induction false} MergedInOrder(base: seq<NodeId>, incoming: seq<NodeId>, r: seq<NodeId>, i: int, j: int, y: int)
    requires r == MergeUnique(base, incoming) && Unique(r)
    requires |base| <= i < j < |r| && 0 <= y < |incoming| && incoming[y] == r[j]
    ensures exists x :: 0 <= x < y && incoming[x] == r[i]
    decreases |incoming|
  {
    hide MergeUnique, Unique;
    var next := MergedStep(base, incoming);
    var k :| 0 <= k < |next| && next[k] == incoming[0];
    PlaceIsOne(r, k, j);
    if |next| <= i {
      MergedInOrder(next, incoming[1..], r, i, j, y - 1);
      var x :| 0 <= x < y - 1 && incoming[1..][x] == r[i];
      assert incoming[x + 1] == r[i];
    } else {
      assert r[i] == incoming[0];
      PlaceIsOne(r, i, j);
    }
  }

  lemma PlaceIsOne(r: seq<NodeId>, k: int, j: int)
    requires Unique(r) && 0 <= k < |r| && 0 <= j < |r|
    ensures r[k] == r[j] ==> k == j
  {
  }

  /* ---- A resume ---- */

  lemma FreedOrder(s: Snapshot, after: seq<NodeId>)
    requires forall i | i in s.runState.pendingInterrupts :: i in s.interrupts && s.interrupts[i].nodeId.Some?
    requires Unique(s.runState.frontier)
    requires after == MergeUnique(s.runState.frontier, Holders(s.interrupts, s.runState.pendingInterrupts))
    ensures QueuesFreed(s, after)
  {
    hide Holders, MergeUnique, HeldBefore, Held;
    var before := s.runState.frontier;
    MergedMembers(before, Holders(s.interrupts, s.runState.pendingInterrupts));
    forall m ensures m in after <==> m in before || Held(s, m) {
      HeldIff(s, m);
    }
    forall i, j | |before| <= i < j < |after| ensures HeldBefore(s, after[i], after[j]) {
      FreedInOrder(s, after, i, j);
    }
  }

  lemma FreedInOrder(s: Snapshot, after: seq<NodeId>, i: int, j: int)
    requires forall i | i in s.runState.pendingInterrupts :: i in s.interrupts && s.interrupts[i].nodeId.Some?
    requires Unique(s.runState.frontier) && |s.runState.frontier| <= i < j < |after|
    requires after == MergeUnique(s.runState.frontier, Holders(s.interrupts, s.runState.pendingInterrupts))
    ensures HeldBefore(s, after[i], after[j])
  {
    hide Holders, MergeUnique;
    var before, ids := s.runState.frontier, s.runState.pendingInterrupts;
    var h := Holders(s.interrupts, ids);
    HoldersByPlace(s.interrupts, ids);
    MergedMembers(before, h);
    forall y | HeldAt(s, y, after[j]) ensures exists x :: x < y && HeldAt(s, x, after[i]) {
      assert h[y] == after[j];
      MergedInOrder(before, h, after, i, j, y);
      var x :| 0 <= x < y && h[x] == after[i];
      assert s.interrupts[ids[x]].nodeId == Some(h[x]);
      assert HeldAt(s, x, after[i]);
    }
  }

  lemma FreedNodes(s: Snapshot, t: Snapshot)
    requires t.nodes == Patched(s.nodes, map n | n in ToSet(Holders(s.interrupts, s.runState.pendingInterrupts)) :: RELEASE_NODE)
    ensures t.nodes.Keys == s.nodes.Keys
    ensures forall m | m in s.nodes :: Held(s, m) ==>
              t.nodes[m] == s.nodes[m].(status := Ready, error := None, version := s.nodes[m].version + 1)
    ensures forall m | m in s.nodes :: !Held(s, m) ==> t.nodes[m] == s.nodes[m]
  {
    hide Holders, Held;
    forall m ensures Held(s, m) <==> m in ToSet(Holders(s.interrupts, s.runState.pendingInterrupts)) {
      HeldIff(s, m);
    }
  }

  lemma FreedLists(s: Snapshot, before: seq<NodeId>, after: seq<NodeId>)
    requires after == Without(before, ToSet(Holders(s.interrupts, s.runState.pendingInterrupts)))
    ensures Filters(after, before, m => !Held(s, m))
  {
    hide Holders, Held, Filters, Without;
    var drop := ToSet(Holders(s.interrupts, s.runState.pendingInterrupts));
    forall m ensures Held(s, m) <==> m in drop {
      HeldIff(s, m);
    }
    WithoutFilters(before, drop);
    FiltersSame(after, before, m => m !in drop, m => !Held(s, m));
  }

  lemma FreesFrom(wf: Compiled, s: Snapshot, t: Snapshot)
    requires SnapCore(wf, s) && SnapshotOk(t) && s.run.status != RunCancelled && s.runState.pendingInterrupts != []
    requires ResumedFrom(s, s.runState.pendingInterrupts, t)
    ensures Frees(s, t)
  {
    hide Filters, QueuesFreed, Holders, MergeUnique, Without, Patched, SnapCore, SnapshotOk, Held;
    PendingHaveNodes(wf, s);
    FreedOrder(s, t.runState.frontier);
    FreedNodes(s, t);
    FreedLists(s, s.runState.waiting, t.runState.waiting);
    FreedLists(s, s.runState.blocked, t.runState.blocked);
    NothingPending(s.runState.pendingInterrupts, t);
  }

  lemma PendingHaveNodes(wf: Compiled, s: Snapshot)
    requires SnapCore(wf, s)
    ensures forall i | i in s.runState.pendingInterrupts :: i in s.interrupts && s.interrupts[i].nodeId.Some?
    ensures Unique(s.runState.frontier)
  {
  }

  lemma EmptyOrHolds(xs: seq<Id>)
    ensures xs == [] || exists x :: x in xs
  {
    assert xs != [] ==> xs[0] in xs;
  }

  lemma NothingPending(ids: seq<Id>, t: Snapshot)
    requires SnapshotOk(t) && t.runState.pendingInterrupts == Without(ids, ToSet(ids))
    ensures t.runState.pendingInterrupts == [] && t.runState.pendingApprovals == []
  {
    EmptyOrHolds(t.runState.pendingInterrupts);
    EmptyOrHolds(t.runState.pendingApprovals);
  }

  lemma ResumesFrom(wf: Compiled, s: Snapshot, withPayload: bool)
    requires SnapCore(wf, s) && NoneRunning(s.nodes) && s.run.status != RunCancelled
    ensures var p := ResumePatch(s, if withPayload then s.runState.pendingInterrupts else []);
            Apply(s, p).Ok? && Resumes(s, withPayload, Apply(s, p).value)
  {
    hide Apply, SnapshotOk, RunCore, Frees, Holders, ResumePatch;
    var ids := if withPayload then s.runState.pendingInterrupts else [];
    ResumeKeeps(wf, s, ids);
    var t := Apply(s, ResumePatch(s, ids)).value;
    if ids == [] {
      ResumesNothing(s, t);
    } else {
      FreesFrom(wf, s, t);
    }
  }

  lemma NoListsMove(r: RunState, holders: seq<NodeId>, t: RunState)
    requires ResumedLists(r, [], holders, t)
    ensures t == r.(status := RunRunning, version := t.version)
  {
    var none: seq<Id> := [];
    assert ToSet(none) == {};
    WithoutNothing(r.pendingInterrupts, {});
    WithoutNothing(r.pendingApprovals, {});
  }

  lemma ResumesNothing(s: Snapshot, t: Snapshot)
    requires ResumedFrom(s, [], t)
    ensures t.nodes == s.nodes && t.interrupts == s.interrupts
    ensures t.runState == s.runState.(status := RunRunning, version := t.runState.version)
  {
    hide ResumedLists;
    NoListsMove(s.runState, Holders(s.interrupts, []), t.runState);
    assert forall n: NodeId :: n !in ToSet(Holders(s.interrupts, []));
  }

  lemma PausedIsQuiet(wf: Compiled, v: View)
    requires RunInv(wf, v) && MayResume(v)
    ensures SnapCore(wf, v.snap) && NoneRunning(v.snap.nodes) && v.snap.run.status != RunCancelled
  {
    hide HistoryOk, SnapshotOk;
  }

  /** A resume tells each resolved interrupt in turn, and then that the run goes on. */
  ghost predicate ResumeTold(pending: seq<Id>, withPayload: bool, kinds: seq<EventKind>) {
    var n := if withPayload then |pending| else 0;
    && |kinds| == n + 1 && kinds[n] == RunResumed
    && forall k :: 0 <= k < n ==> kinds[k] == InterruptResolved(pending[k])
  }

  /** What a resume leaves: with a payload every pending interrupt is resolved and its node freed. */
  lemma ResumeLeaves(wf: Compiled, env: Env, v: View, withPayload: bool)
    requires RunInv(wf, v) && MayResume(v)
    ensures var r := Resume(env, v, withPayload);
            && !r.raised
            && exists t, kinds :: Resumes(v.snap, withPayload, t) && Left(env, v, t, kinds, r.view)
                                  && ResumeTold(v.snap.runState.pendingInterrupts, withPayload, kinds)
  {
    hide Apply, SnapCore, HistoryOk, Left, Resumes, ResumePatch, Commit;
    var ids := if withPayload then v.snap.runState.pendingInterrupts else [];
    PausedIsQuiet(wf, v);
    ResumesFrom(wf, v.snap, withPayload);
    CommitLeaves(env, v, v.snap, ResumePatch(v.snap, ids), ResumeKinds(ids));
    assert ResumeTold(v.snap.runState.pendingInterrupts, withPayload, ResumeKinds(ids));
  }

  /* ---- Commands ---- */

  /** A resume is accepted exactly while the run waits or is interrupted; the loop goes on from what it
      leaves. */
  lemma ResumeObeyed(env: Env, config: SchedulerConfig, wf: Compiled, v: View, withPayload: bool)
    requires WellCompiled(wf) && Honest(env) && RunInv(wf, v)
    ensures v.snap.run.status !in {RunWaiting, RunInterrupted} ==> Obey(env, config, wf, v, ResumeRun(withPayload)) == v
    ensures v.snap.run.status in {RunWaiting, RunInterrupted} ==>
              exists t, kinds, u ::
                && Resumes(v.snap, withPayload, t) && ResumeTold(v.snap.runState.pendingInterrupts, withPayload, kinds)
                && Left(env, v, t, kinds, u) && Idle(wf, u)
                && Obey(env, config, wf, v, ResumeRun(withPayload)) == Loop(env, config, wf, u).view
  {
    hide WellCompiled, Honest, RunInv, Resume, Resumes, ResumeTold, Left, Loop;
    if MayResume(v) {
      ResumeRunKeeps(wf, env, v, withPayload);
      ResumeLeaves(wf, env, v, withPayload);
    }
  }

  /** A cancel is accepted exactly until the run has ended. */
  lemma CancelObeyed(env: Env, config: SchedulerConfig, wf: Compiled, v: View)
    requires WellCompiled(wf) && Honest(env) && RunInv(wf, v)
    ensures v.snap.run.status in {RunCompleted, RunFailed, RunCancelled} ==> Obey(env, config, wf, v, CancelRun) == v
    ensures v.snap.run.status !in {RunCompleted, RunFailed, RunCancelled} ==>
              exists t :: Cancels(v.snap, t) && Left(env, v, t, [RunAborted], Obey(env, config, wf, v, CancelRun))
  {
    hide WellCompiled, Honest, RunInv, Cancel, Cancels, Left;
    if !v.snap.run.status.Terminal() {
      CancelLeaves(wf, env, v);
    }
  }

  /** A new run is its beginning and the loop from there. */
  lemma StartRuns(env: Env, config: SchedulerConfig, wf: Compiled, start: Start)
    requires WellCompiled(wf) && Honest(env) && start.Sound()
    ensures exists t, e: View, b ::
              && e.log == [] && e.saved == [] && Begins(start.thread, start.threadState, Id(start.nextId), wf, t)
              && Left(env, e, t, [RunCreated, RunStarted, NodeReady(wf.entry)], b) && Idle(wf, b)
              && RunOf(env, config, wf, start, []) == Loop(env, config, wf, b).view
  {
    hide WellCompiled, Honest, RunInv, Begin, Begins, Left, Loop, Obey;
    BeginBegins(wf, env, start.thread, start.threadState, start.nextId);
    BeginKeeps(wf, env, start.thread, start.threadState, start.nextId);
  }
}
