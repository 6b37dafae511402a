/** Facts about the stores that the methods of the runtime service rely on. */
module ServiceFacts {
  import opened Common
  import opened Lists
  import opened Models
  import opened Workflow
  import opened Compiler
  import opened Registry
  import opened Reducer
  import opened ReducerFacts
  import opened ReducerVersions
  import opened Scheduler
  import opened Events
  import opened EventStores
  import opened Emitter
  import opened CheckpointStores
  import opened StateStores
  import opened RunMachine
  import opened RunInvariant
  import opened RunOps
  import opened RunResults
  import opened RunResume
  import opened RunLifecycle
  import opened RunSteps
  import opened RunLoop
  import opened RunHistory
  import opened RunThreads
  import opened RunTheorems
  import opened RunWorld
  import opened RunLedger

  lemma SolidDrafts(w: World, run: Id, kinds: seq<EventKind>)
    requires Solid(w, run)
    ensures forall d | d in Drafts(SnapshotOf(w.state, run), kinds) :: d.runId == Some(run)
    ensures IdsUnused(w.events, w.nextId)
  {
    SnapshotKnown(w, run);
  }

  lemma SolidIsConsistent(w: World, run: Id, c: Checkpoint, last: Option<Id>)
    requires Solid(w, run) && c.checkpointId == Id(w.nextId)
    requires c.runId == SnapshotOf(w.state, run).run.runId && c.threadId == SnapshotOf(w.state, run).run.threadId
    ensures Consistent(c, PayloadOf(SnapshotOf(w.state, run), last)) && c.checkpointId !in w.checkpoints.checkpoints
    ensures c.runId == run
  {
    SnapshotKnown(w, run);
  }

  lemma SolidHosted(w: World, run: Id)
    requires Solid(w, run)
    ensures Sane(w) && Hosted(w, run)
  {
  }

  lemma ViewParts(w: World, run: Id)
    requires Solid(w, run)
    ensures var v := ViewOf(w, run);
            && v.snap == SnapshotOf(w.state, run) && v.log == w.events.Log(run) && v.nextId == w.nextId
            && v.saved == w.checkpoints.Saved(run) && v.Run() == run
  {
    SnapshotKnown(w, run);
  }

  lemma NothingAppended(w: World, run: Id)
    requires Solid(w, run)
    ensures Beside(w, w, run, SnapshotOf(w.state, run).run.threadId)
    ensures AppendEvents(ViewOf(w, run), []) == ViewOf(w, run)
  {
  }

  lemma EmittedSolid(w: World, x: World, run: Id, kinds: seq<EventKind>)
    requires Solid(w, run) && x == w.(events := x.events, nextId := w.nextId + |kinds|)
    requires IdsUnused(x.events, x.nextId)
    requires x.events.Log(run) == w.events.Log(run)
               + Materialize(Drafts(SnapshotOf(w.state, run), kinds), NextSequence(w.events.Log(run)), w.nextId)
    requires forall q | q != run :: x.events.Log(q) == w.events.Log(q)
    ensures Solid(x, run) && Hosted(x, run)
  {
    hide Coherent, SnapshotOf, Beside;
    EmitView(w, x, run, kinds);
  }

  lemma EventStamps(x: World, run: Id, id: Id)
    requires Solid(x, run)
    ensures Apply(SnapshotOf(x.state, run), EventStamp(id)).Ok?
    ensures Coherent(Apply(SnapshotOf(x.state, run), EventStamp(id)).value)
  {
    EventStampApplies(SnapshotOf(x.state, run), id);
  }

  lemma CheckpointStamps(x: World, run: Id, id: Id)
    requires Solid(x, run)
    ensures Apply(SnapshotOf(x.state, run), CheckpointStamp(id)).Ok?
    ensures Coherent(Apply(SnapshotOf(x.state, run), CheckpointStamp(id)).value)
  {
    CheckpointStampApplies(SnapshotOf(x.state, run), id);
  }

  /** Emitting events and stamping the last one is appending them. */
  lemma AppendedView(w: World, x: World, y: World, run: Id, kinds: seq<EventKind>, id: Id)
    requires Solid(w, run) && x == w.(events := x.events, nextId := w.nextId + |kinds|)
    requires IdsUnused(x.events, x.nextId) && kinds != []
    requires x.events.Log(run) == w.events.Log(run)
               + Materialize(Drafts(SnapshotOf(w.state, run), kinds), NextSequence(w.events.Log(run)), w.nextId)
    requires forall q | q != run :: x.events.Log(q) == w.events.Log(q)
    requires id == x.events.Log(run)[|x.events.Log(run)| - 1].eventId
    requires Apply(SnapshotOf(x.state, run), EventStamp(id)).Ok?
    requires y == x.(state := Save(x.state, Apply(SnapshotOf(x.state, run), EventStamp(id)).value))
    ensures Solid(y, run) && Beside(w, y, run, SnapshotOf(w.state, run).run.threadId)
    ensures ViewOf(y, run) == AppendEvents(ViewOf(w, run), kinds)
  {
    hide Coherent, SnapshotOf, Beside, Save, Apply, IdsUnused, Emit, Storable, IdsBelow, OthersKept;
    EmitView(w, x, run, kinds);
    var s := SnapshotOf(x.state, run);
    EventStampApplies(s, id);
    StampedView(x, run, Apply(s, EventStamp(id)).value);
    SolidHosted(x, run);
    BesideTwice(w, x, y, run, SnapshotOf(w.state, run).run.threadId);
  }

  lemma CreatedSolid(w: World, x: World, run: Id, c: Checkpoint, p: Payload)
    requires Solid(w, run) && c.runId == run && c.checkpointId == Id(w.nextId)
    requires x == w.(checkpoints := Store(w.checkpoints, c, p), nextId := w.nextId + 1)
    ensures Solid(x, run)
  {
    hide Coherent, SnapshotOf, Beside;
    CreateView(w, x, run, c, p);
  }

  /** Storing a checkpoint and stamping it on the thread is saving it. */
  lemma SavedView(env: Env, w: World, x: World, y: World, run: Id, c: Checkpoint, last: Option<Id>)
    requires Solid(w, run)
    requires var v := ViewOf(w, run); c == CheckpointOf(env, v) && last == LatestId(v.log)
    requires x == w.(checkpoints := Store(w.checkpoints, c, PayloadOf(SnapshotOf(w.state, run), last)), nextId := w.nextId + 1)
    requires Apply(SnapshotOf(x.state, run), CheckpointStamp(c.checkpointId)).Ok?
    requires y == x.(state := Save(x.state, Apply(SnapshotOf(x.state, run), CheckpointStamp(c.checkpointId)).value))
    ensures Solid(y, run) && Beside(w, y, run, SnapshotOf(w.state, run).run.threadId)
    ensures ViewOf(y, run) == SaveCheckpoint(env, ViewOf(w, run))
  {
    hide Coherent, SnapshotOf, Beside, Save, Apply, Store, Storable, IdsBelow, OthersKept, Sane;
    SnapshotKnown(w, run);
    var s := SnapshotOf(w.state, run);
    CreateView(w, x, run, c, PayloadOf(s, last));
    CheckpointStampApplies(s, c.checkpointId);
    StampedView(x, run, Apply(s, CheckpointStamp(c.checkpointId)).value);
    SolidHosted(x, run);
    BesideTwice(w, x, y, run, s.run.threadId);
  }

  /* ---- Committing ---- */

  /** `v` is what is stored of its run, or what will be once it is stored for the first time. */
  ghost predicate Stands(w: World, v: View) {
    && Sane(w) && v.log == w.events.Log(v.Run()) && v.saved == w.checkpoints.Saved(v.Run()) && v.nextId == w.nextId
    && (Hosted(w, v.Run()) ==> v.snap == SnapshotOf(w.state, v.Run()))
  }

  /** `t` can be stored for the run. */
  ghost predicate Fitting(w: World, run: Id, t: Snapshot) {
    && Storable(w.state, t) && t.runState.Valid() && IdsBelow(t, w.nextId) && t.thread.threadId in w.state.threads
    && t.run.runId == run
  }

  lemma FittingView(w: World, v: View, t: Snapshot)
    requires Stands(w, v) && Fitting(w, v.Run(), t)
    ensures Coherent(t)
    ensures var x := w.(state := Save(w.state, t));
            && Solid(x, v.Run()) && Beside(w, x, v.Run(), t.run.threadId) && SnapshotOf(x.state, v.Run()) == t
            && ViewOf(x, v.Run()) == v.(snap := t)
  {
    hide SnapshotOf, Save, Beside;
    StorableIds(w.state, t);
    PersistView(w, t);
    ViewParts(w.(state := Save(w.state, t)), v.Run());
  }

  /** The steps after the patch, in one. */
  lemma CommittedView(env: Env, v: View, base: Snapshot, p: StatePatch, kinds: seq<EventKind>, t: Snapshot)
    requires Apply(base, p) == Ok(t)
    ensures Commit(env, v, base, p, kinds) == Stepped(SaveCheckpoint(env, AppendEvents(v.(snap := t), kinds)), false)
  {
  }

  lemma StillTheThread(x: World, y: World, run: Id, kinds: seq<EventKind>, t: Snapshot)
    requires Solid(x, run) && Solid(y, run) && SnapshotOf(x.state, run) == t
    requires ViewOf(y, run) == AppendEvents(ViewOf(x, run), kinds)
    ensures SnapshotOf(y.state, run).run.threadId == t.run.threadId && x.checkpoints.Valid() && y.checkpoints.Valid()
  {
    ViewParts(x, run);
    ViewParts(y, run);
  }

  lemma BesideThrice(a: World, b: World, c: World, d: World, run: Id, thread: Id)
    requires Beside(a, b, run, thread) && Beside(b, c, run, thread) && Beside(c, d, run, thread)
    requires b.checkpoints.Valid() && c.checkpoints.Valid()
    ensures Beside(a, d, run, thread)
  {
    hide OthersKept;
    BesideTwice(a, b, c, run, thread);
    BesideTwice(a, c, d, run, thread);
  }

  /* ---- What the operations commit can be stored ---- */

  lemma InvStands(wf: Compiled, w: World, run: Id)
    requires Sane(w) && Hosted(w, run) && RunInv(wf, ViewOf(w, run))
    ensures Solid(w, run) && Stands(w, ViewOf(w, run)) && ViewOf(w, run).Run() == run
    ensures ViewOf(w, run).snap == SnapshotOf(w.state, run) && ViewOf(w, run).nextId == w.nextId
  {
    hide SnapshotOf, HistoryOk, RunCore, IndexesAgree, Owned, Sane;
    RunKeyed(w, run);
  }

  lemma RunKeyed(w: World, run: Id)
    requires Sane(w) && Hosted(w, run)
    ensures SnapshotOf(w.state, run).run.runId == run
  {
  }

  /** A snapshot with the rows, the thread and the run of a stored one. */
  ghost predicate SamePlace(s: Snapshot, t: Snapshot) {
    && t.nodes.Keys == s.nodes.Keys && t.artifacts.Keys == s.artifacts.Keys && t.interrupts.Keys == s.interrupts.Keys
    && t.decisions.Keys == s.decisions.Keys && t.sideEffects.Keys == s.sideEffects.Keys
    && t.run.runId == s.run.runId && t.run.threadId == s.run.threadId && t.thread.threadId == s.thread.threadId
  }

  lemma SamePlaceFits(w: World, run: Id, t: Snapshot)
    requires Solid(w, run) && SamePlace(SnapshotOf(w.state, run), t) && Coherent(t) && t.runState.Valid()
    ensures Fitting(w, run, t)
  {
    hide SnapshotOf, Storable, Owned;
    SnapshotKnown(w, run);
    StorableAgain(w, run, t);
  }

  lemma PlainSamePlace(s: Snapshot, p: StatePatch)
    ensures SamePlace(s, Plain(s, p))
  {
  }

  lemma OkParts(t: Snapshot)
    requires SnapshotOk(t)
    ensures Coherent(t) && t.runState.Valid()
  {
  }

  lemma PlainFits(w: World, run: Id, p: StatePatch)
    requires Solid(w, run) && SnapshotOk(Plain(SnapshotOf(w.state, run), p))
    ensures Fitting(w, run, Plain(SnapshotOf(w.state, run), p))
  {
    hide SnapshotOk, SnapshotOf, Plain, Fitting, SamePlace, Solid;
    SolidHosted(w, run);
    var s := SnapshotOf(w.state, run);
    OkParts(Plain(s, p));
    PlainSamePlace(s, p);
    SamePlaceFits(w, run, Plain(s, p));
  }

  lemma EndFits(wf: Compiled, w: World, run: Id, status: RunStatus, failure: Option<Option<FailureCode>>)
    requires Sane(w) && Hosted(w, run) && Idle(wf, ViewOf(w, run))
    requires status == RunFailed || (status == RunCompleted && NoneFailed(ViewOf(w, run).snap.nodes))
    ensures var s := ViewOf(w, run).snap;
            Apply(s, EndPatch(status, failure)).Ok? && Fitting(w, run, Apply(s, EndPatch(status, failure)).value)
  {
    hide SnapshotOk, SnapshotOf, Plain, Fitting, Solid, Sane, Apply, HistoryOk, RunCore;
    InvStands(wf, w, run);
    EndSnapshot(wf, ViewOf(w, run).snap, status, failure, w.nextId);
    PlainFits(w, run, EndPatch(status, failure));
  }

  lemma PauseFits(wf: Compiled, w: World, run: Id, status: RunStatus)
    requires Sane(w) && Hosted(w, run) && Idle(wf, ViewOf(w, run)) && (status == RunInterrupted || status == RunWaiting)
    ensures var s := ViewOf(w, run).snap;
            Apply(s, PausePatch(status)).Ok? && Fitting(w, run, Apply(s, PausePatch(status)).value)
  {
    hide SnapshotOk, SnapshotOf, Plain, Fitting, Solid, Sane, Apply, HistoryOk;
    InvStands(wf, w, run);
    MarkKeeps(wf, ViewOf(w, run).snap, PausePatch(status));
    PlainFits(w, run, PausePatch(status));
  }

  lemma StartFits(wf: Compiled, w: World, run: Id, n: NodeId)
    requires Sane(w) && Hosted(w, run) && Idle(wf, ViewOf(w, run)) && MayStart(wf, ViewOf(w, run).snap, n)
    ensures var s := ViewOf(w, run).snap;
            Apply(s, StartPatch(s, n)).Ok? && Fitting(w, run, Apply(s, StartPatch(s, n)).value)
  {
    hide SnapshotOk, SnapshotOf, Plain, Fitting, Solid, Sane, Apply, HistoryOk, RunCore, HasTrail;
    InvStands(wf, w, run);
    StartSnapshot(wf, ViewOf(w, run).snap, n, w.nextId);
    PlainFits(w, run, StartPatch(ViewOf(w, run).snap, n));
  }

  lemma CancelFits(wf: Compiled, w: World, run: Id)
    requires Sane(w) && Hosted(w, run) && RunInv(wf, ViewOf(w, run)) && !ViewOf(w, run).snap.run.status.Terminal()
    ensures var s := ViewOf(w, run).snap;
            Apply(s, CancelPatch(s)).Ok? && Fitting(w, run, Apply(s, CancelPatch(s)).value)
  {
    hide SnapshotOk, SnapshotOf, Plain, Fitting, Solid, Sane, Apply, HistoryOk, RunCore;
    InvStands(wf, w, run);
    CancelKeeps(wf, ViewOf(w, run).snap);
    PlainFits(w, run, CancelPatch(ViewOf(w, run).snap));
  }

  lemma ResumedSamePlace(s: Snapshot, ids: seq<Id>, t: Snapshot)
    requires ResumedFrom(s, ids, t)
    ensures SamePlace(s, t)
  {
  }

  lemma ResumeFits(wf: Compiled, w: World, run: Id, ids: seq<Id>)
    requires Sane(w) && Hosted(w, run) && RunInv(wf, ViewOf(w, run)) && MayResume(ViewOf(w, run))
    requires ids == [] || ids == ViewOf(w, run).snap.runState.pendingInterrupts
    ensures var s := ViewOf(w, run).snap;
            Apply(s, ResumePatch(s, ids)).Ok? && Fitting(w, run, Apply(s, ResumePatch(s, ids)).value)
  {
    hide SnapshotOk, SnapshotOf, Fitting, Solid, Sane, Apply, HistoryOk, ResumedFrom, Released;
    InvStands(wf, w, run);
    var s := ViewOf(w, run).snap;
    ResumeKeeps(wf, s, ids);
    var t := Apply(s, ResumePatch(s, ids)).value;
    OkParts(t);
    ResumedSamePlace(s, ids, t);
    SamePlaceFits(w, run, t);
  }

  /** Storing the scheduler's choice is dispatching it. */
  lemma DispatchFits(wf: Compiled, w: World, run: Id, nodes: seq<NodeId>)
    requires Sane(w) && Hosted(w, run) && Idle(wf, ViewOf(w, run)) && AllMayStart(wf, ViewOf(w, run).snap, nodes)
    ensures var s := ViewOf(w, run).snap;
            && Apply(s, FrontierPatch(nodes)).Ok?
            && var t := Apply(s, FrontierPatch(nodes)).value;
               && Coherent(t)
               && var x := w.(state := Save(w.state, t));
                  && Sane(x) && Hosted(x, run) && ViewOf(x, run) == Dispatched(ViewOf(w, run), nodes).view
                  && Beside(w, x, run, s.run.threadId)
  {
    hide SnapshotOk, SnapshotOf, Plain, Fitting, Solid, Sane, Apply, HistoryOk, Beside, Save, Stands;
    InvStands(wf, w, run);
    var s := ViewOf(w, run).snap;
    MarkKeeps(wf, s, FrontierPatch(nodes));
    PlainFits(w, run, FrontierPatch(nodes));
    PlainSamePlace(s, FrontierPatch(nodes));
    FittingView(w, ViewOf(w, run), Plain(s, FrontierPatch(nodes)));
    SolidHosted(w.(state := Save(w.state, Plain(s, FrontierPatch(nodes)))), run);
  }

  /* ---- Results, failures after them, and beginnings ---- */

  ghost predicate TablesBelow(db: StateDb, low: nat) {
    KeysBelow(db.artifacts, low) && KeysBelow(db.interrupts, low) && KeysBelow(db.decisions, low) && KeysBelow(db.sideEffects, low)
  }

  lemma GrownCovers<R(!new)>(rows: map<Id, R>, owner: R -> Id, run: Id, grown: map<Id, R>, low: nat)
    requires KeysBelow(rows, low) && Extends(RowsOf(rows, owner, run), grown)
    requires forall i | i in grown && i !in RowsOf(rows, owner, run) :: i.serial >= low
    ensures Covers(rows, grown, owner, run)
  {
  }

  lemma GrownFits(w: World, run: Id, t: Snapshot, low: nat)
    requires Solid(w, run) && TablesBelow(w.state, low) && Coherent(t) && t.runState.Valid() && IdsBelow(t, w.nextId)
    requires var s := SnapshotOf(w.state, run);
             && t.nodes.Keys == s.nodes.Keys && t.run == s.run && t.thread == s.thread
             && Extends(s.artifacts, t.artifacts) && (forall i | i in t.artifacts && i !in s.artifacts :: i.serial >= low)
             && Extends(s.interrupts, t.interrupts) && (forall i | i in t.interrupts && i !in s.interrupts :: i.serial >= low)
             && Extends(s.decisions, t.decisions) && (forall i | i in t.decisions && i !in s.decisions :: i.serial >= low)
             && Extends(s.sideEffects, t.sideEffects) && (forall i | i in t.sideEffects && i !in s.sideEffects :: i.serial >= low)
    ensures Fitting(w, run, t)
  {
    hide RowsOf, NodesOf, Owned, Covers, Sane, KeysBelow;
    SnapshotKnown(w, run);
    StorableAsStored(w, run);
    GrownCovers(w.state.artifacts, ArtifactRun, run, t.artifacts, low);
    GrownCovers(w.state.interrupts, InterruptRun, run, t.interrupts, low);
    GrownCovers(w.state.decisions, DecisionRun, run, t.decisions, low);
    GrownCovers(w.state.sideEffects, SideEffectRun, run, t.sideEffects, low);
  }

  /** What a result adds carries identifiers from `low` on. */
  lemma ResultAddsFrom(wf: Compiled, s: Snapshot, n: NodeId, r: NodeResult, low: nat, nextId: nat, t: Snapshot)
    requires IdsBelow(s, low) && HonestResult(s, n, r, low, nextId) && low <= nextId
    requires RecordsAdded(s, ResultPatch(s, wf, n, r, nextId), t)
    ensures Extends(s.artifacts, t.artifacts) && (forall i | i in t.artifacts && i !in s.artifacts :: i.serial >= low)
    ensures Extends(s.interrupts, t.interrupts) && (forall i | i in t.interrupts && i !in s.interrupts :: i.serial >= low)
    ensures Extends(s.decisions, t.decisions) && (forall i | i in t.decisions && i !in s.decisions :: i.serial >= low)
    ensures Extends(s.sideEffects, t.sideEffects) && (forall i | i in t.sideEffects && i !in s.sideEffects :: i.serial >= low)
  {
    HonestInterrupts(s, n, r, low, nextId);
    HonestDecisions(s, n, r, low, nextId);
    HonestSideEffects(s, n, r, low, nextId);
  }

  lemma ResultAdds(wf: Compiled, s: Snapshot, n: NodeId, r: NodeResult, low: nat, nextId: nat)
    requires RunsNode(wf, s, n) && IdsBelow(s, low) && HonestResult(s, n, r, low, nextId) && low <= nextId
    ensures Apply(s, ResultPatch(s, wf, n, r, nextId)).Ok?
    ensures var t := Apply(s, ResultPatch(s, wf, n, r, nextId)).value;
            RecordsAdded(s, ResultPatch(s, wf, n, r, nextId), t) && OnlyAt(s.nodes, t.nodes, n) && SnapCore(wf, t)
            && t.run == s.run && t.thread == s.thread
  {
    hide RecordsAdded, Apply, SnapCore;
    HonestIsAcceptable(wf, s, n, r, low, nextId, nextId);
    ResultKeeps(wf, s, n, r, nextId);
  }

  lemma ResultFits(wf: Compiled, w: World, run: Id, n: NodeId, r: NodeResult, low: nat, nextId: nat)
    requires Sane(w) && Hosted(w, run) && Executing(wf, ViewOf(w, run), n) && TablesBelow(w.state, low)
    requires var s := ViewOf(w, run).snap;
             && IdsBelow(s, low) && HonestResult(s, n, r, low, nextId) && low <= nextId
             && w.nextId == AfterArtifact(s, wf, n, r, nextId)
    ensures var s := ViewOf(w, run).snap;
            && Apply(s, ResultPatch(s, wf, n, r, nextId)).Ok?
            && var t := Apply(s, ResultPatch(s, wf, n, r, nextId)).value;
               && Fitting(w, run, t) && Folded(wf, s, n, r, nextId, t, w.nextId)
  {
    hide SnapshotOf, Solid, Sane, Fitting, Apply, RecordsAdded, SnapCore, HistoryOk, HonestResult, IdsBelow, TablesBelow;
    InvStands(wf, w, run);
    var s := ViewOf(w, run).snap;
    ResultAdds(wf, s, n, r, low, nextId);
    FoldResult(wf, s, n, r, low, nextId);
    var t := Apply(s, ResultPatch(s, wf, n, r, nextId)).value;
    ResultAddsFrom(wf, s, n, r, low, nextId, t);
    CoreParts(wf, t);
    GrownFits(w, run, t, low);
  }

  lemma CoreParts(wf: Compiled, t: Snapshot)
    requires SnapCore(wf, t)
    ensures Coherent(t) && t.runState.Valid()
  {
  }

  /** The stale failure mark takes the place of what was stored meanwhile. */
  lemma StaleFits(wf: Compiled, w: World, run: Id, t: Snapshot, code: FailureCode)
    requires Solid(w, run) && Stamped(t, SnapshotOf(w.state, run)) && IdsBelow(t, w.nextId)
    requires SnapCore(wf, t) && t.run.status == RunRunning && NoneRunning(t.nodes)
    ensures var p := EndPatch(RunFailed, Some(Some(code)));
            Apply(t, p).Ok? && Fitting(w, run, Apply(t, p).value)
  {
    hide SnapshotOk, SnapshotOf, Plain, Fitting, Solid, Apply, RunCore;
    var p := EndPatch(RunFailed, Some(Some(code)));
    EndSnapshot(wf, t, RunFailed, Some(Some(code)), w.nextId);
    SolidHosted(w, run);
    PlainSamePlace(t, p);
    OkParts(Plain(t, p));
    SamePlaceFits(w, run, Plain(t, p));
  }

  lemma BeginFits(wf: Compiled, w: World, thread: Id, k: nat)
    requires Sane(w) && WellCompiled(wf) && w.nextId == k + 1 && Id(k) !in w.state.runs
    requires thread in w.state.threads && thread in w.state.threadStates && w.state.threadStates[thread].threadId == thread
    requires Unique(w.state.threadStates[thread].artifactIds)
    requires OwnersBelow(w.state, k) && NodeKeysBelow(w.state.nodes, k)
    ensures var empty := EmptySnapshot(w.state.threads[thread], w.state.threadStates[thread], Id(k), wf);
            && Apply(empty, InitialPatch(Id(k), wf)).Ok?
            && Fitting(w, Id(k), Apply(empty, InitialPatch(Id(k), wf)).value)
            && Apply(empty, InitialPatch(Id(k), wf)).value.run.threadId == thread
  {
    hide WellCompiled, Apply, Owned, PendingAgrees, DecisionsLinked, SideEffectsLinked, SameEdges, ArtifactsListed,
         InterruptsValid, NodesValid;
    BeginApplies(w.state.threads[thread], w.state.threadStates[thread], Id(k), wf);
    BeginSnapshotOk(w.state.threads[thread], w.state.threadStates[thread], Id(k), wf,
                    Apply(EmptySnapshot(w.state.threads[thread], w.state.threadStates[thread], Id(k), wf),
                          InitialPatch(Id(k), wf)).value);
  }

  /* ---- One execution ---- */

  lemma UsedIds(w: World, run: Id, nextId: nat)
    requires Solid(w, run) && w.nextId <= nextId
    ensures Solid(w.(nextId := nextId), run) && IdsUnused(w.events, nextId)
  {
    hide Coherent, SnapshotOf, Beside;
    HigherIdsView(w, run, nextId);
  }

  /** Using identifiers and emitting external events is what an execution does to the stores. */
  lemma ExecutedView(w: World, x: World, run: Id, o: Outcome)
    requires Solid(w, run) && w.nextId <= o.nextId
    requires x == w.(events := x.events, nextId := o.nextId + o.emitted) && IdsUnused(x.events, x.nextId)
    requires x.events.Log(run) == w.events.Log(run)
               + Materialize(Drafts(SnapshotOf(w.state, run), Externals(o.emitted)), NextSequence(w.events.Log(run)), o.nextId)
    requires forall q | q != run :: x.events.Log(q) == w.events.Log(q)
    ensures Solid(x, run) && Beside(w, x, run, SnapshotOf(w.state, run).run.threadId)
    ensures ViewOf(x, run) == DuringExecution(ViewOf(w, run), o)
  {
    hide Coherent, SnapshotOf, Beside, Solid, Emit;
    HigherIdsView(w, run, o.nextId);
    var y := w.(nextId := o.nextId);
    EmitView(y, x, run, Externals(o.emitted));
    SolidHosted(y, run);
    BesideTwice(w, y, x, run, SnapshotOf(w.state, run).run.threadId);
  }

  lemma SettledStands(wf: Compiled, env: Env, w: World, run: Id, v: View, n: NodeId, r: NodeResult, t: Snapshot)
    requires Solid(w, run) && ViewOf(w, run) == SettleNode(env, wf, v, n, r).view && v.Run() == run
    requires Apply(v.snap, ResultPatch(v.snap, wf, n, r, v.nextId)) == Ok(t)
    requires HistoryOk(wf, v) && Folded(wf, v.snap, n, r, v.nextId, t, AfterArtifact(v.snap, wf, n, r, v.nextId))
    ensures Stands(w, ViewOf(w, run)) && Stamped(t, SnapshotOf(w.state, run)) && IdsBelow(t, w.nextId)
  {
    hide Apply, Solid, SnapshotOf, SnapCore, HistoryOk, SettleNode;
    SettleKeeps(wf, env, v, n, r, t);
    ViewParts(w, run);
    SolidHosted(w, run);
    IdsBelowHigher(t, AfterArtifact(v.snap, wf, n, r, v.nextId), w.nextId);
  }

  lemma SettledView(env: Env, wf: Compiled, v: View, n: NodeId, r: NodeResult, t: Snapshot)
    requires Apply(v.snap, ResultPatch(v.snap, wf, n, r, v.nextId)) == Ok(t)
    ensures var k := [NodeReported(n, r.status)] + CreatedKinds(r.interrupts);
            var u := v.(nextId := AfterArtifact(v.snap, wf, n, r, v.nextId));
            && SettleNode(env, wf, v, n, r) == Commit(env, u, v.snap, ResultPatch(v.snap, wf, n, r, v.nextId), k)
            && !SettleNode(env, wf, v, n, r).raised
            && FinishNode(env, wf, v, n, r)
               == if r.status == Failed then MarkFailed(env, SettleNode(env, wf, v, n, r).view, t, NodeFailure(r.error))
                  else SettleNode(env, wf, v, n, r)
  {
  }

  lemma ExecutingFolds(wf: Compiled, v: View, n: NodeId, t: Snapshot, r: NodeResult, high: nat)
    requires Executing(wf, v, n) && Folded(wf, v.snap, n, r, v.nextId, t, high) && r.status != Running
    ensures SnapCore(wf, t) && t.run.status == RunRunning && NoneRunning(t.nodes) && HistoryOk(wf, v)
  {
    hide SnapCore, HistoryOk;
    NowIdle(v.snap, n, t);
  }

  lemma ExecutingStands(wf: Compiled, w: World, run: Id, n: NodeId)
    requires Sane(w) && Hosted(w, run) && Executing(wf, ViewOf(w, run), n)
    ensures Solid(w, run) && Stands(w, ViewOf(w, run)) && ViewOf(w, run).nextId == w.nextId && ViewOf(w, run).Run() == run
    ensures ViewOf(w, run).snap == SnapshotOf(w.state, run)
  {
    InvStands(wf, w, run);
  }

  lemma UsedView(w: World, x: World, run: Id, v: View, s: Snapshot)
    requires Solid(w, run) && v == ViewOf(w, run) && s == v.snap && x == w.(nextId := x.nextId) && w.nextId <= x.nextId
    ensures Solid(x, run) && Sane(x) && Hosted(x, run) && Stands(x, v.(nextId := x.nextId))
    ensures ViewOf(x, run) == v.(nextId := x.nextId) && Beside(w, x, run, s.run.threadId) && v.Run() == run
  {
    hide Coherent, SnapshotOf, Beside;
    ViewParts(w, run);
    HigherIdsView(w, run, x.nextId);
    ViewParts(x, run);
  }

  lemma ResultFitsAt(wf: Compiled, w: World, x: World, run: Id, n: NodeId, r: NodeResult, low: nat, v: View)
    requires Sane(x) && Hosted(x, run) && Executing(wf, v, n) && TablesBelow(x.state, low)
    requires ViewOf(x, run) == v.(nextId := x.nextId) && x.nextId == AfterArtifact(v.snap, wf, n, r, v.nextId)
    requires IdsBelow(v.snap, low) && HonestResult(v.snap, n, r, low, v.nextId) && low <= v.nextId
    ensures Apply(v.snap, ResultPatch(v.snap, wf, n, r, v.nextId)).Ok?
    ensures var t := Apply(v.snap, ResultPatch(v.snap, wf, n, r, v.nextId)).value;
            Fitting(x, run, t) && Folded(wf, v.snap, n, r, v.nextId, t, x.nextId)
  {
    hide Sane, Fitting, Apply, Folded, HonestResult, IdsBelow, TablesBelow, RunInv;
    HigherIdsKeep(wf, v, x.nextId);
    ResultFits(wf, x, run, n, r, low, v.nextId);
  }

  lemma SettledBeside(a: World, b: World, c: World, run: Id, thread: Id)
    requires Beside(a, b, run, thread) && Beside(b, c, run, thread) && Solid(b, run)
    ensures Beside(a, c, run, thread)
  {
    hide OthersKept;
    SolidHosted(b, run);
    BesideTwice(a, b, c, run, thread);
  }

  lemma ResultKeepsRun(s: Snapshot, wf: Compiled, n: NodeId, r: NodeResult, nextId: nat)
    requires Apply(s, ResultPatch(s, wf, n, r, nextId)).Ok?
    ensures Apply(s, ResultPatch(s, wf, n, r, nextId)).value.run == s.run
  {
    hide Apply;
    ApplyKeepsRun(s, ResultPatch(s, wf, n, r, nextId));
  }

  lemma HonestIds(env: Env, s: Snapshot, n: NodeId, k: nat)
    requires Honest(env)
    ensures env.execute(s, n, k).nextId >= k
  {
  }

  lemma IdleParts(wf: Compiled, w: World, run: Id, n: NodeId)
    requires Sane(w) && Hosted(w, run) && Idle(wf, ViewOf(w, run))
    ensures Solid(w, run) && Stands(w, ViewOf(w, run)) && ViewOf(w, run).Run() == run
    ensures ViewOf(w, run).snap == SnapshotOf(w.state, run) && ViewOf(w, run).nextId == w.nextId
  {
    InvStands(wf, w, run);
  }

  lemma MayStartKnown(wf: Compiled, s: Snapshot, n: NodeId)
    requires MayStart(wf, s, n)
    ensures n in s.nodes
  {
  }

  lemma TablesOf(w: World)
    requires Sane(w)
    ensures TablesBelow(w.state, w.nextId)
  {
  }

  lemma StartedView(env: Env, v: View, n: NodeId, t: Snapshot)
    requires n in v.snap.nodes && Apply(v.snap, StartPatch(v.snap, n)) == Ok(t)
    ensures StartNode(env, v, n) == Commit(env, v, v.snap, StartPatch(v.snap, n), [NodeStarted(n)])
    ensures !StartNode(env, v, n).raised
  {
  }

  /** The four ways an execution can go. */
  lemma ExecutionCases(env: Env, wf: Compiled, v: View, n: NodeId)
    requires n in v.snap.nodes && !StartNode(env, v, n).raised
    ensures !env.canExecute(v.snap, n) ==>
      ExecuteNode(env, wf, v, n) == MarkFailed(env, v, v.snap, ExecutorNotAvailable)
    ensures env.canExecute(v.snap, n) && !env.selectsInput(v.snap, n) ==> ExecuteNode(env, wf, v, n) == Stepped(v, true)
    ensures env.canExecute(v.snap, n) && env.selectsInput(v.snap, n) ==>
      var u := StartNode(env, v, n).view;
      var o := env.execute(u.snap, n, u.nextId);
      var w := DuringExecution(u, o);
      ExecuteNode(env, wf, v, n)
      == if !env.selectsInput(u.snap, n) then Stepped(u, true)
         else if o.result == None then Stepped(w, true)
         else FinishNode(env, wf, w, n, o.result.value)
  {
    hide StartNode, FinishNode, DuringExecution, MarkFailed;
  }

  /** Starting a node, and what its executor does, leave the run on its thread. */
  lemma SameThread(v: View, u: View, n: NodeId, s: Snapshot, held: Snapshot, env: Env)
    requires n in v.snap.nodes && !StartNode(env, v, n).raised && u == StartNode(env, v, n).view
    requires s == v.snap && held == u.snap
    ensures held.run.threadId == s.run.threadId
  {
    hide Apply;
    CommitStamps(env, v, v.snap, StartPatch(v.snap, n), [NodeStarted(n)]);
    ApplyKeepsRun(v.snap, StartPatch(v.snap, n));
  }

  /* ---- The loop ---- */

  lemma StillOnThread(env: Env, wf: Compiled, v: View, n: NodeId)
    requires n in v.snap.nodes
    ensures ExecuteNode(env, wf, v, n).view.snap.run.threadId == v.snap.run.threadId
  {
    hide ExecuteNode;
    StepsMoveThread(env, wf, v);
  }

  /** One more node of a batch. */
  lemma BatchUnfolds(env: Env, wf: Compiled, v: View, nodes: seq<NodeId>, i: nat)
    requires Honest(env) && i < |nodes| && Idle(wf, v) && AllMayStart(wf, v.snap, nodes[i..])
    ensures nodes[i] in v.snap.nodes && MayStart(wf, v.snap, nodes[i])
    ensures var r := ExecuteNode(env, wf, v, nodes[i]);
            && RunBatch(env, wf, v, nodes[i..]) == (if r.raised then r else RunBatch(env, wf, r.view, nodes[i + 1..]))
            && (r.raised || Decidable(wf, r.view))
            && (r.raised || AllMayStart(wf, r.view.snap, nodes[i + 1..]))
            && r.view.Run() == v.Run() && r.view.snap.run.threadId == v.snap.run.threadId
  {
    hide ExecuteNode, RunInv, Honest, HasTrail;
    var rest := nodes[i..];
    assert rest[0] == nodes[i] && rest[1..] == nodes[i + 1..] && rest[0] in rest;
    BatchStep(wf, env, v, rest[0]);
    RestMayStart(wf, v.snap, ExecuteNode(env, wf, v, rest[0]).view.snap, rest);
    StillOnThread(env, wf, v, rest[0]);
    BatchNotEnded(env, wf, v, rest);
  }

  lemma BatchNotEnded(env: Env, wf: Compiled, v: View, nodes: seq<NodeId>)
    requires nodes != [] && !v.snap.run.status.Terminal() && nodes[0] in v.snap.nodes
    ensures var r := ExecuteNode(env, wf, v, nodes[0]);
            RunBatch(env, wf, v, nodes) == if r.raised then r else RunBatch(env, wf, r.view, nodes[1..])
  {
  }

  lemma BatchEnds(env: Env, wf: Compiled, v: View, nodes: seq<NodeId>, i: nat)
    requires i <= |nodes| && (i == |nodes| || v.snap.run.status.Terminal())
    ensures RunBatch(env, wf, v, nodes[i..]) == Stepped(v, false)
  {
  }

  lemma DecidableIdle(wf: Compiled, v: View)
    requires Decidable(wf, v) && !v.snap.run.status.Terminal()
    ensures Idle(wf, v)
  {
  }

  /** What the loop does next. */
  lemma LoopUnfolds(env: Env, config: SchedulerConfig, wf: Compiled, v: View)
    requires WellCompiled(wf) && Honest(env) && Decidable(wf, v)
    ensures v.snap.run.status.Terminal() ==> Loop(env, config, wf, v) == Stepped(v, false)
    ensures !v.snap.run.status.Terminal() && !Decide(config, v.snap, wf).Dispatch? ==>
      Loop(env, config, wf, v) == Stop(env, v, Decide(config, v.snap, wf))
  {
    hide WellCompiled, Honest, RunInv, Stop, Decide;
  }

  lemma LoopDispatches(env: Env, config: SchedulerConfig, wf: Compiled, v: View)
    requires WellCompiled(wf) && Honest(env) && Idle(wf, v) && Decide(config, v.snap, wf).Dispatch?
    ensures var nodes := Decide(config, v.snap, wf).nodes;
            var d := Dispatched(v, nodes).view;
            var b := RunBatch(env, wf, d, nodes);
            && AllMayStart(wf, v.snap, nodes) && Idle(wf, d) && AllMayStart(wf, d.snap, nodes)
            && d.snap.run == v.snap.run
            && (b.raised || (Decidable(wf, b.view) && Measure(b.view.snap) < Measure(v.snap)))
            && Loop(env, config, wf, v) == if b.raised then b else Loop(env, config, wf, b.view)
  {
    hide WellCompiled, Honest, RunInv, Decide, RunBatch, Dispatched, HasTrail;
    var nodes := Decide(config, v.snap, wf).nodes;
    DispatchMayStart(wf, config, v);
    DispatchKeeps(wf, v, nodes);
    SameNodesMayStart(wf, v.snap, Dispatched(v, nodes).view.snap, nodes);
    DispatchBatchKeeps(wf, env, config, v);
  }

  lemma StopFits(wf: Compiled, w: World, run: Id, d: Decision)
    requires Sane(w) && Hosted(w, run) && Idle(wf, ViewOf(w, run)) && !d.Dispatch?
    ensures var s := ViewOf(w, run).snap;
            && (d.Complete? ==> Apply(s, EndPatch(RunCompleted, None)).Ok?
                                && Fitting(w, run, Apply(s, EndPatch(RunCompleted, None)).value))
            && (d.Interrupt? ==> Apply(s, PausePatch(RunInterrupted)).Ok?
                                 && Fitting(w, run, Apply(s, PausePatch(RunInterrupted)).value))
            && (d.Wait? ==> Apply(s, PausePatch(RunWaiting)).Ok? && Fitting(w, run, Apply(s, PausePatch(RunWaiting)).value))
            && (d.Fail? ==> var p := EndPatch(RunFailed, Some(Some(NoProgress)));
                            Apply(s, p).Ok? && Fitting(w, run, Apply(s, p).value))
  {
    hide Apply, Fitting, Sane, SnapshotOf, EndPatch, PausePatch, SnapCore, HistoryOk;
    match d
    case Complete => EndFits(wf, w, run, RunCompleted, None);
    case Interrupt => PauseFits(wf, w, run, RunInterrupted);
    case Wait(_) => PauseFits(wf, w, run, RunWaiting);
    case Fail => EndFits(wf, w, run, RunFailed, Some(Some(NoProgress)));
  }

  lemma StopNotRaised(wf: Compiled, env: Env, v: View, d: Decision)
    requires Idle(wf, v) && !d.Dispatch?
    ensures !Stop(env, v, d).raised && Stop(env, v, d).view.snap.run.threadId == v.snap.run.threadId
  {
    hide Stop, RunInv;
    StopKeeps(wf, env, v, d);
    StepsMoveThread(env, wf, v);
  }

  lemma IdleIsDecidable(wf: Compiled, v: View)
    requires Idle(wf, v)
    ensures Decidable(wf, v)
  {
  }

  lemma DecidableParts(wf: Compiled, w: World, run: Id)
    requires Sane(w) && Hosted(w, run) && Decidable(wf, ViewOf(w, run))
    ensures Solid(w, run) && ViewOf(w, run).snap == SnapshotOf(w.state, run) && ViewOf(w, run).Run() == run
    ensures Stands(w, ViewOf(w, run))
  {
    InvStands(wf, w, run);
  }

  lemma BesideSane(a: World, b: World, c: World, run: Id, thread: Id)
    requires Beside(a, b, run, thread) && Beside(b, c, run, thread) && Sane(b)
    ensures Beside(a, c, run, thread)
  {
    hide OthersKept, StateSane;
    BesideTwice(a, b, c, run, thread);
  }

  /* ---- Resuming ---- */

  lemma {:induction false} HoldersSnoc(interrupts: map<Id, InterruptRecord>, ids: seq<Id>, id: Id)
    ensures Holders(interrupts, ids + [id])
            == Holders(interrupts, ids)
               + if id in interrupts && interrupts[id].nodeId.Some? then [interrupts[id].nodeId.value] else []
  {
    if ids == [] {
      assert ids + [id] == [id] && [id][1..] == [];
    } else {
      assert (ids + [id])[0] == ids[0] && (ids + [id])[1..] == ids[1..] + [id];
      HoldersSnoc(interrupts, ids[1..], id);
    }
  }

  /** What the resuming loop has built after some of the pending interrupts. */
  ghost predicate Gathered(s: Snapshot, ids: seq<Id>, waiting: seq<NodeId>, blocked: seq<NodeId>, frontier: seq<NodeId>,
                           nodes: map<NodeId, NodeUpdate>, updates: seq<(Id, InterruptUpdate)>, kinds: seq<EventKind>) {
    var holders := Holders(s.interrupts, ids);
    && waiting == Without(s.runState.waiting, ToSet(holders))
    && blocked == Without(s.runState.blocked, ToSet(holders))
    && frontier == MergeUnique(s.runState.frontier, holders)
    && nodes == (map n | n in ToSet(holders) :: RELEASE_NODE)
    && updates == Resolutions(ids)
    && kinds + [RunResumed] == ResumeKinds(ids)
  }

  lemma GatherNone(s: Snapshot)
    ensures Gathered(s, [], s.runState.waiting, s.runState.blocked, s.runState.frontier, map[], [], [])
  {
    WithoutNothing(s.runState.waiting, ToSet(Holders(s.interrupts, [])));
    WithoutNothing(s.runState.blocked, ToSet(Holders(s.interrupts, [])));
    assert [] + [RunResumed] == ResumeKinds([]);
  }

  lemma GatherSkips(s: Snapshot, ids: seq<Id>, id: Id, waiting: seq<NodeId>, blocked: seq<NodeId>, frontier: seq<NodeId>,
                    nodes: map<NodeId, NodeUpdate>, updates: seq<(Id, InterruptUpdate)>, kinds: seq<EventKind>)
    requires Gathered(s, ids, waiting, blocked, frontier, nodes, updates, kinds)
    requires !(id in s.interrupts && s.interrupts[id].nodeId.Some?)
    ensures Gathered(s, ids + [id], waiting, blocked, frontier, nodes, updates + [(id, RESOLVE)], kinds + [InterruptResolved(id)])
  {
    HoldersSnoc(s.interrupts, ids, id);
    assert Holders(s.interrupts, ids) + [] == Holders(s.interrupts, ids);
    ResolutionsSnoc(ids, id);
    KindsSnoc(ids, id, kinds);
  }

  lemma GatherOne(s: Snapshot, ids: seq<Id>, id: Id, waiting: seq<NodeId>, blocked: seq<NodeId>, frontier: seq<NodeId>,
                  nodes: map<NodeId, NodeUpdate>, updates: seq<(Id, InterruptUpdate)>, kinds: seq<EventKind>, n: NodeId)
    requires Gathered(s, ids, waiting, blocked, frontier, nodes, updates, kinds)
    requires id in s.interrupts && s.interrupts[id].nodeId == Some(n)
    ensures Gathered(s, ids + [id], Without(waiting, {n}), Without(blocked, {n}), MergeUnique(frontier, [n]),
                     nodes[n := RELEASE_NODE], updates + [(id, RESOLVE)], kinds + [InterruptResolved(id)])
  {
    hide Without, MergeUnique, Resolutions, ResumeKinds, Holders;
    var holders := Holders(s.interrupts, ids);
    HoldersSnoc(s.interrupts, ids, id);
    OneMore(holders, n);
    WithoutTwice(s.runState.waiting, ToSet(holders), {n});
    WithoutTwice(s.runState.blocked, ToSet(holders), {n});
    MergeUniqueAppend(s.runState.frontier, holders, [n]);
    ResolutionsSnoc(ids, id);
    KindsSnoc(ids, id, kinds);
  }

  lemma OneMore(holders: seq<NodeId>, n: NodeId)
    ensures ToSet(holders + [n]) == ToSet(holders) + {n}
    ensures (map m | m in ToSet(holders) :: RELEASE_NODE)[n := RELEASE_NODE]
            == map m | m in ToSet(holders + [n]) :: RELEASE_NODE
  {
    assert forall m :: m in holders + [n] <==> m in holders || m == n;
  }

  lemma ResolutionsSnoc(ids: seq<Id>, id: Id)
    ensures Resolutions(ids + [id]) == Resolutions(ids) + [(id, RESOLVE)]
  {
  }

  lemma KindsSnoc(ids: seq<Id>, id: Id, kinds: seq<EventKind>)
    requires kinds + [RunResumed] == ResumeKinds(ids)
    ensures kinds + [InterruptResolved(id)] + [RunResumed] == ResumeKinds(ids + [id])
  {
    assert |kinds| == |ids|;
    forall i | 0 <= i < |ids| ensures kinds[i] == InterruptResolved(ids[i]) {
      assert (kinds + [RunResumed])[i] == ResumeKinds(ids)[i];
    }
    assert kinds + [InterruptResolved(id)] + [RunResumed] == ResumeKinds(ids + [id]);
  }

  /* ---- Beginning and creating ---- */

  lemma BeginStands(w: World, run: Id, empty: Snapshot, thread: Id)
    requires Sane(w) && run == Id(w.nextId) && empty.run.runId == run
    ensures var x := w.(nextId := w.nextId + 1);
            && Sane(x) && Stands(x, View(empty, [], [], w.nextId + 1)) && run !in w.state.runs
            && Beside(w, x, run, thread)
  {
    hide OthersKept, StateSane;
    StateSaneHigher(w.state, w.nextId, w.nextId + 1);
    NotYetRun(w, run);
    assert w.checkpoints.Saved(run) == [];
    OthersKeptItself(w.state, run, thread);
  }

  lemma NotYetRun(w: World, run: Id)
    requires Sane(w) && run.serial >= w.nextId
    ensures run !in w.state.runs && run !in w.state.threads
  {
  }

  lemma BeginFitsAt(wf: Compiled, w: World, thread: Id)
    requires Sane(w) && WellCompiled(wf) && ThreadFollows(w, thread)
    ensures var x := w.(nextId := w.nextId + 1);
            var empty := EmptySnapshot(w.state.threads[thread], w.state.threadStates[thread], Id(w.nextId), wf);
            && Apply(empty, InitialPatch(Id(w.nextId), wf)).Ok?
            && Fitting(x, Id(w.nextId), Apply(empty, InitialPatch(Id(w.nextId), wf)).value)
  {
    hide WellCompiled, Fitting, Apply, OthersKept;
    var x := w.(nextId := w.nextId + 1);
    StateSaneHigher(w.state, w.nextId, w.nextId + 1);
    NotYetRun(w, Id(w.nextId));
    BeginFits(wf, x, thread, w.nextId);
  }

  lemma CreatedState(db: StateDb, record: ThreadRecord, state: ThreadState, nextId: nat)
    requires StateSane(db, nextId) && record.threadId == state.threadId == Id(nextId)
    ensures var x := db.(threads := db.threads[record.threadId := record],
                         threadStates := db.threadStates[record.threadId := state]);
            StateSane(x, nextId + 2) && OthersKept(db, x, record.threadId, record.threadId)
  {
    hide NodesOf, RowsOf;
  }

  lemma CreatedEvents(db: EventDb, event: Event, nextId: nat)
    requires IdsUnused(db, nextId) && event.eventId == Id(nextId + 1) && event.runId == None
    ensures IdsUnused(Add(db, event), nextId + 2) && forall q :: Add(db, event).Log(q) == db.Log(q)
  {
  }

  /** A thread stored under a fresh id, with its event. */
  lemma CreatedThread(w: World, x: World, record: ThreadRecord, state: ThreadState, event: Event)
    requires Sane(w) && record.threadId == state.threadId == Id(w.nextId)
    requires record.currentRun == None && state.activeRun == None && state.artifactIds == []
    requires event.eventId == Id(w.nextId + 1) && event.runId == None
    requires x == w.(state := w.state.(threads := w.state.threads[record.threadId := record],
                                       threadStates := w.state.threadStates[record.threadId := state]),
                     events := Add(w.events, event), nextId := w.nextId + 2)
    ensures Sane(x) && Beside(w, x, record.threadId, record.threadId) && ThreadFollows(x, record.threadId)
    ensures record.threadId !in w.state.runs && record.threadId !in w.state.threads && x.state.runs == w.state.runs
  {
    hide StateSane, OthersKept, IdsUnused, Add;
    NotYetRun(w, record.threadId);
    CreatedState(w.state, record, state, w.nextId);
    CreatedEvents(w.events, event, w.nextId);
  }

  lemma BegunView(env: Env, thread: ThreadRecord, threadState: ThreadState, wf: Compiled, nextId: nat)
    ensures var empty := EmptySnapshot(thread, threadState, Id(nextId), wf);
            Begin(env, thread, threadState, wf, nextId)
            == Commit(env, View(empty, [], [], nextId + 1), empty, InitialPatch(Id(nextId), wf), InitialKinds(wf))
  {
  }

  /** The first loop of a run, from its beginning. */
  lemma FirstLoop(env: Env, config: SchedulerConfig, wf: Compiled, start: Start)
    requires WellCompiled(wf) && Honest(env) && start.Sound()
    ensures var b := Begin(env, start.thread, start.threadState, wf, start.nextId).view;
            && Decidable(wf, b) && b.snap.run.threadId == start.thread.threadId
            && RunOf(env, config, wf, start, []) == Loop(env, config, wf, b).view
  {
    hide WellCompiled, Honest, RunInv, Begin, Loop;
    BeginKeeps(wf, env, start.thread, start.threadState, start.nextId);
    var b := Begin(env, start.thread, start.threadState, wf, start.nextId).view;
    BeginOnThread(wf, env, start.thread, start.threadState, start.nextId);
  }

  lemma BeginOnThread(wf: Compiled, env: Env, thread: ThreadRecord, threadState: ThreadState, nextId: nat)
    requires WellCompiled(wf)
    ensures Begin(env, thread, threadState, wf, nextId).view.snap.run.threadId == thread.threadId
  {
    hide WellCompiled;
    var empty := EmptySnapshot(thread, threadState, Id(nextId), wf);
    BeginApplies(thread, threadState, Id(nextId), wf);
    CommitStamps(env, View(empty, [], [], nextId + 1), empty, InitialPatch(Id(nextId), wf), InitialKinds(wf));
  }

  /** Resuming and cancelling as commands. */
  lemma ResumeObeyed(env: Env, config: SchedulerConfig, wf: Compiled, v: View, withPayload: bool)
    requires WellCompiled(wf) && Honest(env) && RunInv(wf, v) && MayResume(v)
    ensures var ids := if withPayload then v.snap.runState.pendingInterrupts else [];
            var r := Commit(env, v, v.snap, ResumePatch(v.snap, ids), ResumeKinds(ids));
            && !r.raised && Decidable(wf, r.view) && r.view.snap.run.threadId == v.snap.run.threadId
            && Obey(env, config, wf, v, ResumeRun(withPayload)) == Loop(env, config, wf, r.view).view
  {
    hide WellCompiled, Honest, RunInv, Commit, Loop;
    ResumeRunKeeps(wf, env, v, withPayload);
    StepsMoveThread(env, wf, v);
  }

  lemma CancelObeyed(env: Env, config: SchedulerConfig, wf: Compiled, v: View)
    requires WellCompiled(wf) && Honest(env) && RunInv(wf, v) && !v.snap.run.status.Terminal()
    ensures Obey(env, config, wf, v, CancelRun)
            == Commit(env, v, v.snap, CancelPatch(v.snap), [RunAborted]).view
    ensures var u := Obey(env, config, wf, v, CancelRun);
            u.snap.run.status == RunCancelled && u.snap.thread.currentRun == None && u.snap.threadState.activeRun == None
  {
    hide WellCompiled, Honest, RunInv, Commit;
    CancelRunKeeps(wf, env, v);
  }

  /** What the ledger knows of a stored run. */
  lemma LedgerKnows(env: Env, config: SchedulerConfig, ledger: Ledger, w: World, run: Id)
    requires LedgerInv(env, config, ledger, w) && run in w.state.runs
    ensures Sane(w) && Hosted(w, run) && Honest(env) && FlowName(w, run) in ledger.flows
    ensures var wf, v := ledger.flows[FlowName(w, run)], ViewOf(w, run);
            && WellCompiled(wf) && RunInv(wf, v) && Solid(w, run) && Stands(w, v) && v.Run() == run
            && v.snap == SnapshotOf(w.state, run) && v.snap.run == w.state.runs[run]
  {
    hide RunInv, WellCompiled, Honest, RunFollows, Solid, Stands, ThreadFollows;
    LedgerParts(env, config, ledger, w, run);
    RunNamed(env, config, ledger, w, run);
    FollowsHosted(env, config, ledger, w, run);
    InvStands(ledger.flows[FlowName(w, run)], w, run);
    ViewNames(w, run);
  }

  lemma HostedIffStored(env: Env, config: SchedulerConfig, ledger: Ledger, w: World, run: Id)
    requires LedgerInv(env, config, ledger, w)
    ensures Hosted(w, run) <==> run in w.state.runs
  {
    hide RunInv, Honest, RunFollows, ThreadFollows, FlowsSound;
    if run in w.state.runs {
      LedgerKnows(env, config, ledger, w, run);
    }
  }

  lemma ExtendsItself<K, V>(m: map<K, V>)
    ensures Extends(m, m)
  {
  }

  lemma FlowAdded(flows: map<(Id, Id), Compiled>, key: (Id, Id), wf: Compiled)
    requires FlowsSound(flows) && WellCompiled(wf) && wf.workflowId == key.0 && wf.version == key.1 && key !in flows
    ensures FlowsSound(flows[key := wf]) && Extends(flows, flows[key := wf])
  {
    hide WellCompiled;
  }

  lemma CompiledNames(d: Definition)
    requires d.Valid() && Compile(d).Ok?
    ensures Compile(d).value.workflowId == d.workflowId && Compile(d).value.version == d.version
    ensures WellCompiled(Compile(d).value)
  {
    CompileIsWellCompiled(d);
  }

  /** What a definition compiles to, the cache first. */
  ghost function CompiledAs(cache: map<(Id, Id), Compiled>, d: Definition): Result<Compiled, Error> {
    if (d.workflowId, d.version) in cache then Ok(cache[(d.workflowId, d.version)])
    else if Compile(d).Ok? then Ok(Compile(d).value)
    else Err(ValueError)
  }

  /** What asking for a workflow comes to: it is unknown, its versions do not compare, or the version asked
      for, or else the latest, compiles or does not. */
  ghost predicate Resolves(key: Id -> VersionKey, definitions: Definitions, cache: map<(Id, Id), Compiled>,
                           workflowId: Id, version: Option<Id>, r: Result<Compiled, Error>) {
    if !KnownVersion(definitions, workflowId, version) then r == Err(KeyError)
    else if version == None && !AllCompare(key, definitions[workflowId]) then r == Err(TypeError)
    else
      exists v :: v in definitions[workflowId] && r == CompiledAs(cache, definitions[workflowId][v])
                  && if version.Some? then v == version.value else IsLatest(key, definitions[workflowId], v)
  }

  /** A definition compiled for the first time joins the ledger. */
  lemma CompiledFlow(env: Env, config: SchedulerConfig, ledger: Ledger, w: World, definitions: Definitions, d: Definition,
                     wf: Compiled)
    requires LedgerInv(env, config, ledger, w) && Defined(ledger.flows, definitions)
    requires d.Valid() && Compile(d) == Ok(wf) && (d.workflowId, d.version) !in ledger.flows
    requires d.workflowId in definitions && d.version in definitions[d.workflowId]
    ensures var flows := ledger.flows[(d.workflowId, d.version) := wf];
            && LedgerInv(env, config, ledger.(flows := flows), w) && Defined(flows, definitions)
            && Extends(ledger.flows, flows) && wf.workflowId == d.workflowId && wf.version == d.version
  {
    hide LedgerInv, WellCompiled, Honest, FlowsSound, Compile, Defined, Extends;
    var key := (d.workflowId, d.version);
    LedgerFlows(env, config, ledger, w);
    CompiledNames(d);
    FlowAdded(ledger.flows, key, wf);
    FlowKeepsLedger(env, config, ledger, w, ledger.flows[key := wf]);
    DefinedOne(ledger.flows, definitions, key, wf);
  }

  lemma SaneLedger(env: Env, config: SchedulerConfig, ledger: Ledger, w: World)
    requires LedgerInv(env, config, ledger, w)
    ensures Sane(w) && IdsUnused(w.events, w.nextId) && Honest(env)
  {
  }

  lemma SaneIds(w: World)
    requires Sane(w)
    ensures IdsUnused(w.events, w.nextId) && IdsUnused(w.events, w.nextId + 1)
  {
  }

  lemma GatheredPatch(s: Snapshot, ids: seq<Id>, waiting: seq<NodeId>, blocked: seq<NodeId>, frontier: seq<NodeId>,
                      nodes: map<NodeId, NodeUpdate>, updates: seq<(Id, InterruptUpdate)>, kinds: seq<EventKind>)
    requires Gathered(s, ids, waiting, blocked, frontier, nodes, updates, kinds)
    ensures var lists := NO_RUN_STATE.(status := Some(RunRunning));
            ResumePatch(s, ids) == NO_PATCH.(
              thread := ThreadUpdate(Some(ThreadActive), None, None),
              threadState := ThreadStateUpdate(Some(ThreadActive), None), run := RunUpdate(Some(RunRunning), None),
              runState := if updates == [] then lists
                          else lists.(waiting := Some(waiting), blocked := Some(blocked), frontier := Some(frontier)),
              nodes := nodes, interruptUpdates := updates)
    ensures kinds + [RunResumed] == ResumeKinds(ids)
  {
    hide Without, MergeUnique, Holders;
    assert updates == [] <==> ids == [] by {
      assert |updates| == |ids|;
    }
  }

  lemma NotResumed(env: Env, config: SchedulerConfig, wf: Compiled, v: View, withPayload: bool)
    requires WellCompiled(wf) && Honest(env) && RunInv(wf, v) && !MayResume(v)
    ensures Obey(env, config, wf, v, ResumeRun(withPayload)) == v
  {
    hide WellCompiled, Honest, RunInv;
  }

  lemma NotCancelled(env: Env, config: SchedulerConfig, wf: Compiled, v: View)
    requires WellCompiled(wf) && Honest(env) && RunInv(wf, v) && v.snap.run.status.Terminal()
    ensures Obey(env, config, wf, v, CancelRun) == v
  {
    hide WellCompiled, Honest, RunInv;
  }

  /** A resumed run still names its workflow. */
  lemma ResumedFlow(s: Snapshot, p: StatePatch, name: (Id, Id), withPayload: bool)
    requires p == ResumePatch(s, if withPayload then s.runState.pendingInterrupts else []) && Apply(s, p).Ok?
    requires name == (s.run.workflowId, s.run.workflowVersion)
    ensures (Apply(s, p).value.run.workflowId, Apply(s, p).value.run.workflowVersion) == name
  {
    hide Apply, ResumePatch;
    ApplyKeepsRun(s, p);
  }

  lemma StoredRun(w: World, run: Id)
    requires Hosted(w, run)
    ensures run in w.state.runs
  {
  }

  lemma EmptyLedger(env: Env, config: SchedulerConfig)
    ensures var w := World(StateDb(map[], map[], map[], map[], map[], map[], map[], map[], map[]), EventDb(map[], map[]),
                           CheckpointDb(map[], map[], map[]), 0);
            Honest(env) ==> LedgerInv(env, config, Ledger(map[], map[], map[]), w)
  {
    hide Honest;
  }

  lemma EmptyNames(thread: ThreadRecord, threadState: ThreadState, run: Id, wf: Compiled)
    ensures var s := EmptySnapshot(thread, threadState, run, wf); s.run.runId == run && s.run.threadId == thread.threadId
  {
  }

  lemma LedgerFlows(env: Env, config: SchedulerConfig, ledger: Ledger, w: World)
    requires LedgerInv(env, config, ledger, w)
    ensures FlowsSound(ledger.flows)
  {
  }

  lemma FlowNames(flows: map<(Id, Id), Compiled>, key: (Id, Id))
    requires key in flows
    ensures FlowsSound(flows) ==> flows[key].workflowId == key.0 && flows[key].version == key.1 && WellCompiled(flows[key])
  {
  }

  lemma FlowKnown(env: Env, config: SchedulerConfig, ledger: Ledger, w: World, name: (Id, Id))
    requires LedgerInv(env, config, ledger, w) && name in ledger.flows
    ensures WellCompiled(ledger.flows[name]) && Honest(env) && Sane(w)
  {
  }

  lemma ThreadFollowsIn(env: Env, config: SchedulerConfig, ledger: Ledger, w: World, t: Id)
    requires LedgerInv(env, config, ledger, w) && t in w.state.threads
    ensures ThreadFollows(w, t)
  {
  }

  lemma ThreadStored(env: Env, config: SchedulerConfig, ledger: Ledger, w: World, t: Id)
    requires LedgerInv(env, config, ledger, w) && (t !in w.state.threads || t !in w.state.threadStates)
    ensures t !in w.state.threads
  {
    if t in w.state.threads {
      ThreadFollowsIn(env, config, ledger, w, t);
    }
  }

  lemma StartedFlow(env: Env, config: SchedulerConfig, ledger: Ledger, w: World, x: World, thread: Id, name: (Id, Id))
    requires thread in w.state.threads && thread in w.state.threadStates
    requires var after := AfterStart(ledger, w, x, Id(w.nextId), thread);
             LedgerInv(env, config, after, x) && Id(w.nextId) in x.state.runs
    requires name in ledger.flows && FlowsSound(ledger.flows) && WellCompiled(ledger.flows[name]) && Honest(env)
    requires Start(w.state.threads[thread], w.state.threadStates[thread], w.nextId).Sound()
    requires Sane(x) && Hosted(x, Id(w.nextId))
    requires ViewOf(x, Id(w.nextId)) == RunOf(env, config, ledger.flows[name],
                                              Start(w.state.threads[thread], w.state.threadStates[thread], w.nextId), [])
    ensures FlowName(x, Id(w.nextId)) == name
  {
    hide LedgerInv, Sane, Hosted, SnapshotOf, Honest, WellCompiled, RunInv, RunOf, ViewOf, AfterStart;
    FlowNames(ledger.flows, name);
    StartTakesOver(env, config, ledger.flows[name],
                   Start(w.state.threads[thread], w.state.threadStates[thread], w.nextId), ViewOf(x, Id(w.nextId)));
    ViewNames(x, Id(w.nextId));
  }
}
