/** The runtime service over its stores. Every method does to the stored run what the run machine does to
    its view, and leaves the other runs alone. */
module RuntimeServices {
  import opened Common
  import opened Lists
  import opened Models
  import opened Workflow
  import opened Compiler
  import opened Registry
  import opened Reducer
  import opened ReducerFacts
  import opened ReducerVersions
  import opened Scheduler
  import opened Events
  import opened EventStores
  import opened Emitter
  import opened CheckpointStores
  import opened StateStores
  import opened RunMachine
  import opened RunInvariant
  import opened RunOps
  import opened RunSteps
  import opened RunLoop
  import opened RunHistory
  import opened RunStops
  import opened RunTheorems
  import opened RunWorld
  import opened RunLedger
  import opened ServiceFacts

  /** A call returns the run's record, is rejected before it changes any record, or lets an exception of
      the environment escape from the scheduler loop. */
  datatype Reply = Returned(run: RunRecord) | Rejected(error: Error) | Escaped

  class RuntimeService {
    const store: StateStore
    const events: EventStore
    const checkpoints: CheckpointStore
    const ids: IdGenerator
    const emitter: RuntimeEventEmitter
    const compiler: WorkflowCompiler
    const provider: WorkflowProvider
    const env: Env
    const config: SchedulerConfig
    const bindable: Compiled -> bool
    ghost var ledger: Ledger

    ghost function Stored(): World
      reads store, events, checkpoints, ids
    {
      World(store.Db(), events.Db(), checkpoints.Db(), ids.next)
    }

    constructor (env: Env, config: SchedulerConfig, bindable: Compiled -> bool, versionKey: Id -> VersionKey)
      ensures Wired() && (Honest(env) ==> Valid())
      ensures fresh(store) && fresh(events) && fresh(checkpoints) && fresh(ids) && fresh(compiler) && fresh(provider)
      ensures this.env == env && this.config == config && this.bindable == bindable
    {
      this.env, this.config, this.bindable := env, config, bindable;
      store := new StateStore();
      var eventStore := new EventStore();
      var idGenerator := new IdGenerator();
      events, ids := eventStore, idGenerator;
      emitter := new RuntimeEventEmitter(eventStore, idGenerator);
      checkpoints := new CheckpointStore();
      compiler := new WorkflowCompiler();
      provider := new WorkflowProvider(versionKey);
      ledger := Ledger(map[], map[], map[]);
      new;
      hide LedgerInv;
      EmptyLedger(env, config);
    }

    ghost predicate Wired() {
      emitter.store == events && emitter.ids == ids
    }

    /** Every stored run is the history of its own calls and of what the other runs did in between, in the
        workflow it was started with. */
    ghost predicate Valid()
      reads this, store, events, checkpoints, ids, compiler, provider
    {
      && Wired() && Filed(provider.definitions) && ledger.flows == compiler.cache
      && Defined(compiler.cache, provider.definitions)
      && LedgerInv(env, config, ledger, Stored())
    }

    /** What is stored of a run. */
    ghost function RunView(run: Id): (v: View)
      requires Valid() && run in store.runs
      reads this, store, events, checkpoints, ids, compiler, provider
      ensures RunInv(Flow(run), v) && v.Run() == run && v.snap.run == store.runs[run]
    {
      LedgerKnows(env, config, ledger, Stored(), run);
      ViewOf(Stored(), run)
    }

    /** The workflow a run was started with. */
    ghost function Flow(run: Id): (wf: Compiled)
      requires Valid() && run in store.runs
      reads this, store, events, checkpoints, ids, compiler, provider
      ensures WellCompiled(wf) && Honest(env)
    {
      LedgerKnows(env, config, ledger, Stored(), run);
      ledger.flows[FlowName(Stored(), run)]
    }

    method GetState(run: Id) returns (r: Result<Snapshot, Error>)
      ensures r == if Hosted(Stored(), run) then Ok(SnapshotOf(Stored().state, run)) else Err(KeyError)
    {
      r := store.BuildSnapshot(run);
    }

    method ApplyAndPersist(s: Snapshot, p: StatePatch) returns (r: Result<Snapshot, Error>)
      requires Apply(s, p).Ok? ==> Coherent(Apply(s, p).value)
      modifies store
      ensures r == Apply(s, p)
      ensures store.Db() == if r.Ok? then Save(old(store.Db()), r.value) else old(store.Db())
    {
      r := ApplyPatch(s, p);
      if r.Ok? {
        PersistSnapshot(store, r.value);
      }
    }

    /** Numbers the events, stores them, and stamps the last one on the run. */
    method AppendRunEvents(run: Id, drafts: seq<EventDraft>, ghost kinds: seq<EventKind>)
      requires Wired() && Solid(Stored(), run) && drafts == Drafts(SnapshotOf(store.Db(), run), kinds)
      modifies store, events, ids
      ensures Solid(Stored(), run)
      ensures Beside(old(Stored()), Stored(), run, old(SnapshotOf(store.Db(), run).run.threadId))
      ensures ViewOf(Stored(), run) == old(AppendEvents(ViewOf(Stored(), run), kinds))
    {
      hide Coherent, Solid, SnapshotOf, Beside, Save, Apply, ViewOf, AppendEvents, IdsUnused;
      ghost var w := Stored();
      if drafts == [] {
        NothingAppended(w, run);
        return;
      }
      SolidDrafts(w, run, kinds);
      var emitted := emitter.EmitRunEvents(run, drafts);
      ghost var x := Stored();
      var latest := emitted.value[|emitted.value| - 1];
      EmittedSolid(w, x, run, kinds);
      var current := GetState(run);
      EventStamps(x, run, latest.eventId);
      var updated := ApplyAndPersist(current.value, EventStamp(latest.eventId));
      AppendedView(w, x, Stored(), run, kinds, latest.eventId);
    }

    /** Stores what is stored now, under the number of the last event. */
    method MakeCheckpoint(run: Id)
      requires Solid(Stored(), run)
      modifies store, checkpoints, ids
      ensures Solid(Stored(), run)
      ensures Beside(old(Stored()), Stored(), run, old(SnapshotOf(store.Db(), run).run.threadId))
      ensures ViewOf(Stored(), run) == old(SaveCheckpoint(env, ViewOf(Stored(), run)))
    {
      hide Coherent, Solid, SnapshotOf, Beside, Save, Apply, ViewOf, SaveCheckpoint, IdsUnused, Consistent, Store,
           OthersKept, Sane;
      ghost var w := Stored();
      SolidHosted(w, run);
      var got := GetState(run);
      var current := got.value;
      var latest := events.LatestForRun(run);
      var createdAt := env.clock(ids.next);
      var id := ids.New();
      var last := if latest.Some? then Some(latest.value.eventId) else None;
      var c := Checkpoint(id, current.run.threadId, current.run.runId,
                          if latest.Some? then latest.value.sequenceNo else 0, createdAt, current.runState.frontier, last);
      ViewParts(w, run);
      SolidIsConsistent(w, run, c, last);
      var stored := checkpoints.Create(c, PayloadOf(current, last));
      ghost var x := Stored();
      CreatedSolid(w, x, run, c, PayloadOf(current, last));
      CheckpointStamps(x, run, id);
      var updated := ApplyAndPersist(current, CheckpointStamp(id));
      SavedView(env, w, x, Stored(), run, c, last);
    }

    /** Patch, persist, log, checkpoint: how every operation ends. `base` is the snapshot in memory. */
    method CommitPatch(base: Snapshot, p: StatePatch, kinds: seq<EventKind>, ghost v: View)
        returns (r: Result<Snapshot, Error>)
      requires Wired() && kinds != [] && Stands(Stored(), v) && base.run.runId == v.Run()
      requires Apply(base, p).Ok? ==> Fitting(Stored(), v.Run(), Apply(base, p).value)
      modifies store, events, checkpoints, ids
      ensures r == Apply(base, p)
      ensures r.Err? ==> Stored() == old(Stored())
      ensures r.Ok? ==>
        && Solid(Stored(), v.Run()) && Beside(old(Stored()), Stored(), v.Run(), base.run.threadId)
        && ViewOf(Stored(), v.Run()) == Commit(env, v, base, p, kinds).view
    {
      hide Coherent, Solid, SnapshotOf, Beside, Save, Apply, ViewOf, SaveCheckpoint, AppendEvents, Fitting, Stands, Sane;
      ghost var w, run := Stored(), v.Run();
      if Apply(base, p).Ok? {
        FittingView(w, v, Apply(base, p).value);
      }
      r := ApplyAndPersist(base, p);
      if r.Err? {
        return;
      }
      ghost var x := Stored();
      AppendRunEvents(base.run.runId, Drafts(r.value, kinds), kinds);
      ghost var y := Stored();
      SolidHosted(y, run);
      MakeCheckpoint(base.run.runId);
      CommittedView(env, v, base, p, kinds, r.value);
      StillTheThread(x, y, run, kinds, r.value);
      ApplyKeepsRun(base, p);
      BesideThrice(w, x, y, Stored(), run, base.run.threadId);
    }

    method MarkRunFailed(base: Snapshot, code: FailureCode, ghost v: View)
      requires Wired() && Stands(Stored(), v) && base.run.runId == v.Run()
      requires var p := EndPatch(RunFailed, Some(Some(code)));
               Apply(base, p).Ok? && Fitting(Stored(), v.Run(), Apply(base, p).value)
      modifies store, events, checkpoints, ids
      ensures Solid(Stored(), v.Run()) && Beside(old(Stored()), Stored(), v.Run(), base.run.threadId)
      ensures Stepped(ViewOf(Stored(), v.Run()), false) == MarkFailed(env, v, base, code)
    {
      hide Solid, Beside, Apply, ViewOf, Fitting, Stands;
      var p := EndPatch(RunFailed, Some(Some(code)));
      var r := CommitPatch(base, p, [RunFailure(code)], v);
      CommittedView(env, v, base, p, [RunFailure(code)], r.value);
    }

    method MarkRunCompleted(s: Snapshot, ghost v: View)
      requires Wired() && Stands(Stored(), v) && s == v.snap
      requires Apply(s, EndPatch(RunCompleted, None)).Ok?
      requires Fitting(Stored(), v.Run(), Apply(s, EndPatch(RunCompleted, None)).value)
      modifies store, events, checkpoints, ids
      ensures Solid(Stored(), v.Run()) && Beside(old(Stored()), Stored(), v.Run(), s.run.threadId)
      ensures ViewOf(Stored(), v.Run()) == MarkCompleted(env, v).view
    {
      hide Solid, Beside, Apply, ViewOf, Fitting, Stands;
      var r := CommitPatch(s, EndPatch(RunCompleted, None), [RunDone], v);
    }

    method MarkRunInterrupted(s: Snapshot, ghost v: View)
      requires Wired() && Stands(Stored(), v) && s == v.snap
      requires Apply(s, PausePatch(RunInterrupted)).Ok?
      requires Fitting(Stored(), v.Run(), Apply(s, PausePatch(RunInterrupted)).value)
      modifies store, events, checkpoints, ids
      ensures Solid(Stored(), v.Run()) && Beside(old(Stored()), Stored(), v.Run(), s.run.threadId)
      ensures ViewOf(Stored(), v.Run()) == MarkInterrupted(env, v).view
    {
      hide Solid, Beside, Apply, ViewOf, Fitting, Stands;
      var r := CommitPatch(s, PausePatch(RunInterrupted), [RunHalted], v);
    }

    method MarkRunWaiting(s: Snapshot, ghost v: View)
      requires Wired() && Stands(Stored(), v) && s == v.snap
      requires Apply(s, PausePatch(RunWaiting)).Ok?
      requires Fitting(Stored(), v.Run(), Apply(s, PausePatch(RunWaiting)).value)
      modifies store, events, checkpoints, ids
      ensures Solid(Stored(), v.Run()) && Beside(old(Stored()), Stored(), v.Run(), s.run.threadId)
      ensures ViewOf(Stored(), v.Run()) == MarkWaiting(env, v).view
    {
      hide Solid, Beside, Apply, ViewOf, Fitting, Stands;
      var r := CommitPatch(s, PausePatch(RunWaiting), [RunIdle], v);
    }

    /* ---- Executing a node ---- */

    static method DedupeItems(items: seq<NodeId>) returns (r: seq<NodeId>)
      ensures r == Dedupe(items)
    {
      var seen: set<NodeId> := {};
      r := [];
      for i := 0 to |items|
        invariant forall n :: n in seen <==> n in r
        invariant MergeUnique(r, items[i..]) == MergeUnique([], items)
      {
        assert items[i..][0] == items[i] && items[i..][1..] == items[i + 1..];
        if items[i] in seen {
          continue;
        }
        seen := seen + {items[i]};
        r := r + [items[i]];
      }
    }

    static method MergeUniqueItems(base: seq<NodeId>, incoming: seq<NodeId>) returns (r: seq<NodeId>)
      ensures r == MergeUnique(base, incoming)
    {
      r := base;
      for i := 0 to |incoming|
        invariant MergeUnique(r, incoming[i..]) == MergeUnique(base, incoming)
      {
        assert incoming[i..][0] == incoming[i] && incoming[i..][1..] == incoming[i + 1..];
        if incoming[i] !in r {
          r := r + [incoming[i]];
        }
      }
    }

    /** The lists without the node, and with it again where its new status puts it. */
    method BuildResultPatch(s: Snapshot, wf: Compiled, n: NodeId, result: NodeResult) returns (p: StatePatch)
      modifies ids
      ensures p == ResultPatch(s, wf, n, result, old(ids.next))
      ensures ids.next == AfterArtifact(s, wf, n, result, old(ids.next)) >= old(ids.next)
    {
      var completed, failed := Without(s.runState.completed, {n}), Without(s.runState.failed, {n});
      var waiting, blocked := Without(s.runState.waiting, {n}), Without(s.runState.blocked, {n});
      match result.status {
        case Succeeded => completed := completed + [n];
        case Failed => failed := failed + [n];
        case Waiting => waiting := waiting + [n];
        case Blocked => blocked := blocked + [n];
        case _ =>
      }
      completed := DedupeItems(completed);
      failed := DedupeItems(failed);
      waiting := DedupeItems(waiting);
      blocked := DedupeItems(blocked);
      var artifacts: seq<ArtifactRecord> := [];
      if result.artifact.Some? {
        artifacts := [result.artifact.value];
      } else if result.output.Some? && n in wf.specs && wf.specs[n].binds {
        var id := ids.New();
        artifacts := [ArtifactRecord(id, s.run.runId, s.run.threadId, n, result.output.value)];
      }
      p := NO_PATCH.(
        runState := NO_RUN_STATE.(active := Some(Without(s.runState.active, {n})), completed := Some(completed),
                                  failed := Some(failed), waiting := Some(waiting), blocked := Some(blocked)),
        nodes := map[n := NodeUpdate(Some(result.status), None, None, Some(result.error))],
        artifacts := artifacts, interrupts := result.interrupts, decisions := result.decisions,
        sideEffects := result.sideEffects);
    }

    /** The executor sees the stored run; it may emit events and use identifiers. */
    method RunExecutor(run: Id, held: Snapshot, n: NodeId) returns (o: Outcome)
      requires Wired() && Solid(Stored(), run) && held == SnapshotOf(store.Db(), run)
      requires env.execute(held, n, ids.next).nextId >= ids.next
      modifies events, ids
      ensures o == env.execute(held, n, old(ids.next)) && store.Db() == old(store.Db())
      ensures Solid(Stored(), run) && Beside(old(Stored()), Stored(), run, held.run.threadId)
      ensures ViewOf(Stored(), run) == DuringExecution(old(ViewOf(Stored(), run)), o)
    {
      hide Coherent, Solid, SnapshotOf, Beside, ViewOf, DuringExecution, IdsUnused;
      ghost var w := Stored();
      o := env.execute(held, n, ids.next);
      SnapshotKnown(w, run);
      UsedIds(w, run, o.nextId);
      SolidDrafts(w, run, Externals(o.emitted));
      ids.Skip(o.nextId);
      var emitted := emitter.EmitRunEvents(held.run.runId, Drafts(held, Externals(o.emitted)));
      ExecutedView(w, Stored(), run, o);
    }

    /** Folds the result in, tells it and checkpoints it; hands back the snapshot in memory. */
    method SettleExecution(s: Snapshot, wf: Compiled, n: NodeId, result: NodeResult, ghost v: View, ghost low: nat)
        returns (t: Snapshot)
      requires Wired() && Sane(Stored()) && Hosted(Stored(), v.Run()) && v == ViewOf(Stored(), v.Run()) && s == v.snap
      requires Executing(wf, v, n) && IdsBelow(s, low) && TablesBelow(store.Db(), low)
      requires HonestResult(s, n, result, low, v.nextId) && low <= v.nextId
      modifies store, events, checkpoints, ids
      ensures Apply(s, ResultPatch(s, wf, n, result, v.nextId)) == Ok(t)
      ensures Folded(wf, s, n, result, v.nextId, t, AfterArtifact(s, wf, n, result, v.nextId))
      ensures Solid(Stored(), v.Run()) && Beside(old(Stored()), Stored(), v.Run(), s.run.threadId)
      ensures ViewOf(Stored(), v.Run()) == SettleNode(env, wf, v, n, result).view
    {
      hide Solid, Beside, Apply, ViewOf, Fitting, Stands, Sane, Executing, HonestResult, Folded, SettleNode, Commit,
           IdsBelow, TablesBelow, ResultPatch, AfterArtifact;
      ghost var w, run := Stored(), v.Run();
      ExecutingStands(wf, w, run, n);
      var p := BuildResultPatch(s, wf, n, result);
      ghost var x := Stored();
      UsedView(w, x, run, v, s);
      ResultFitsAt(wf, w, x, run, n, result, low, v);
      var settled := CommitPatch(s, p, [NodeReported(n, result.status)] + CreatedKinds(result.interrupts),
                                 v.(nextId := ids.next));
      t := settled.value;
      SettledView(env, wf, v, n, result, t);
      SettledBeside(w, x, Stored(), run, s.run.threadId);
    }

    /** A failed node ends its run, from the snapshot in memory. */
    method FinishExecution(s: Snapshot, wf: Compiled, n: NodeId, result: NodeResult, ghost v: View, ghost low: nat)
      requires Wired() && Sane(Stored()) && Hosted(Stored(), v.Run()) && v == ViewOf(Stored(), v.Run()) && s == v.snap
      requires Executing(wf, v, n) && IdsBelow(s, low) && TablesBelow(store.Db(), low)
      requires HonestResult(s, n, result, low, v.nextId) && low <= v.nextId
      modifies store, events, checkpoints, ids
      ensures Solid(Stored(), v.Run()) && Beside(old(Stored()), Stored(), v.Run(), s.run.threadId)
      ensures Stepped(ViewOf(Stored(), v.Run()), false) == RunMachine.FinishNode(env, wf, v, n, result)
    {
      hide Solid, Beside, Apply, ViewOf, Fitting, Stands, Sane, Executing, HonestResult, Folded, SnapCore, Stamped,
           RunMachine.FinishNode, SettleNode, MarkFailed, IdsBelow, TablesBelow, ResultPatch, AfterArtifact, EndPatch;
      ghost var w, run := Stored(), v.Run();
      var t := SettleExecution(s, wf, n, result, v, low);
      ghost var y := Stored();
      SettledView(env, wf, v, n, result, t);
      if result.status == Failed {
        ExecutingFolds(wf, v, n, t, result, AfterArtifact(s, wf, n, result, v.nextId));
        SettledStands(wf, env, y, run, v, n, result, t);
        StaleFits(wf, y, run, t, NodeFailure(result.error));
        ResultKeepsRun(s, wf, n, result, v.nextId);
        SolidHosted(y, run);
        ViewParts(y, run);
        MarkRunFailed(t, NodeFailure(result.error), ViewOf(y, run));
        SettledBeside(w, y, Stored(), run, s.run.threadId);
      }
    }

    /** Executes one node: the run fails when no executor takes it, the call raises when its input cannot
        be selected or the executor raises, and otherwise the result is folded in. */
    method ExecuteNode(s: Snapshot, wf: Compiled, n: NodeId) returns (raised: bool)
      requires Wired() && Honest(env) && Sane(Stored()) && Hosted(Stored(), s.run.runId)
      requires var v := ViewOf(Stored(), s.run.runId); s == v.snap && Idle(wf, v) && MayStart(wf, s, n)
      modifies store, events, checkpoints, ids
      ensures Sane(Stored()) && Hosted(Stored(), s.run.runId)
      ensures Beside(old(Stored()), Stored(), s.run.runId, s.run.threadId)
      ensures Stepped(ViewOf(Stored(), s.run.runId), raised)
              == RunMachine.ExecuteNode(env, wf, old(ViewOf(Stored(), s.run.runId)), n)
    {
      hide Solid, Beside, Apply, ViewOf, Fitting, Stands, Sane, Idle, MayStart, Executing, HonestResult, Honest, Hosted,
           RunMachine.ExecuteNode, RunMachine.FinishNode, StartNode, Commit, MarkFailed, IdsBelow, TablesBelow,
           DuringExecution, StartPatch, EndPatch, SnapshotOf;
      ghost var w, run := Stored(), s.run.runId;
      ghost var v := ViewOf(w, run);
      IdleParts(wf, w, run, n);
      MayStartKnown(wf, s, n);
      StartFits(wf, w, run, n);
      StartedView(env, v, n, Apply(s, StartPatch(s, n)).value);
      ExecutionCases(env, wf, v, n);
      if !env.canExecute(s, n) {
        EndFits(wf, w, run, RunFailed, Some(Some(ExecutorNotAvailable)));
        MarkRunFailed(s, ExecutorNotAvailable, v);
        SolidHosted(Stored(), run);
        return false;
      }
      if !env.selectsInput(s, n) {
        BesideItself(w, run, s.run.threadId);
        return true;
      }
      var started := CommitPatch(s, StartPatch(s, n), [NodeStarted(n)], v);
      ghost var x, u := Stored(), StartNode(env, v, n).view;
      SolidHosted(x, run);
      var held := GetState(s.run.runId);
      ViewParts(x, run);
      if !env.selectsInput(held.value, n) {
        return true;
      }
      HonestIds(env, held.value, n, ids.next);
      var o := RunExecutor(s.run.runId, held.value, n);
      ghost var y := Stored();
      SolidHosted(y, run);
      StartedRun(wf, env, v, n, u, o, ViewOf(y, run));
      SameThread(v, u, n, s, held.value, env);
      SettledBeside(w, x, y, run, s.run.threadId);
      if o.result == None {
        return true;
      }
      TablesOf(x);
      ViewParts(y, run);
      var current := GetState(s.run.runId);
      FinishExecution(current.value, wf, n, o.result.value, ViewOf(y, run), u.nextId);
      SettledBeside(w, y, Stored(), run, s.run.threadId);
      SolidHosted(Stored(), run);
      return false;
    }

    /** Executes the nodes of one dispatch in turn, unless the run has ended meanwhile. */
    method DispatchNodes(run: Id, wf: Compiled, nodes: seq<NodeId>) returns (raised: bool)
      requires Wired() && Honest(env) && Sane(Stored()) && Hosted(Stored(), run)
      requires Idle(wf, ViewOf(Stored(), run)) && AllMayStart(wf, ViewOf(Stored(), run).snap, nodes)
      modifies store, events, checkpoints, ids
      ensures Sane(Stored()) && Hosted(Stored(), run)
      ensures Beside(old(Stored()), Stored(), run, old(ViewOf(Stored(), run)).snap.run.threadId)
      ensures ViewOf(Stored(), run).snap.run.threadId == old(ViewOf(Stored(), run)).snap.run.threadId
      ensures Stepped(ViewOf(Stored(), run), raised) == RunBatch(env, wf, old(ViewOf(Stored(), run)), nodes)
    {
      hide Beside, ViewOf, Sane, Idle, Honest, Hosted, RunMachine.ExecuteNode, RunBatch, SnapshotOf, RunInv, AllMayStart,
           MayStart, Stands, Solid;
      ghost var w := Stored();
      ghost var v, thread := ViewOf(w, run), ViewOf(w, run).snap.run.threadId;
      BesideItself(w, run, thread);
      assert nodes[0..] == nodes;
      IdleParts(wf, w, run, wf.entry);
      IdleIsDecidable(wf, v);
      for i := 0 to |nodes|
        invariant Sane(Stored()) && Hosted(Stored(), run) && Beside(w, Stored(), run, thread)
        invariant ViewOf(Stored(), run).snap.run.threadId == thread && ViewOf(Stored(), run).Run() == run
        invariant Decidable(wf, ViewOf(Stored(), run))
        invariant AllMayStart(wf, ViewOf(Stored(), run).snap, nodes[i..]) || ViewOf(Stored(), run).snap.run.status.Terminal()
        invariant RunBatch(env, wf, v, nodes) == RunBatch(env, wf, ViewOf(Stored(), run), nodes[i..])
      {
        ghost var x := Stored();
        ghost var u := ViewOf(x, run);
        DecidableParts(wf, x, run);
        var got := GetState(run);
        var current := got.value;
        if current.run.status.Terminal() {
          BatchEnds(env, wf, u, nodes, i);
          return false;
        }
        DecidableIdle(wf, u);
        BatchUnfolds(env, wf, u, nodes, i);
        raised := ExecuteNode(current, wf, nodes[i]);
        DecidableParts(wf, x, run);
        BesideSane(w, x, Stored(), run, thread);
        if raised {
          return true;
        }
      }
      BatchEnds(env, wf, ViewOf(Stored(), run), nodes, |nodes|);
      return false;
    }

    /** The scheduler's choice becomes the stored frontier. */
    method StoreFrontier(s: Snapshot, wf: Compiled, nodes: seq<NodeId>)
      requires Wired() && Sane(Stored()) && Hosted(Stored(), s.run.runId) && s == ViewOf(Stored(), s.run.runId).snap
      requires Idle(wf, ViewOf(Stored(), s.run.runId)) && AllMayStart(wf, s, nodes)
      modifies store
      ensures Sane(Stored()) && Hosted(Stored(), s.run.runId)
      ensures Beside(old(Stored()), Stored(), s.run.runId, s.run.threadId)
      ensures ViewOf(Stored(), s.run.runId) == Dispatched(old(ViewOf(Stored(), s.run.runId)), nodes).view
    {
      hide Beside, ViewOf, Sane, Idle, Hosted, SnapshotOf, AllMayStart, Apply, Save, Dispatched;
      DispatchFits(wf, Stored(), s.run.runId, nodes);
      var updated := ApplyAndPersist(s, FrontierPatch(nodes));
    }

    /** What the scheduler's other decisions store. */
    method StopRun(s: Snapshot, wf: Compiled, d: Decision)
      requires Wired() && Sane(Stored()) && Hosted(Stored(), s.run.runId) && s == ViewOf(Stored(), s.run.runId).snap
      requires Idle(wf, ViewOf(Stored(), s.run.runId)) && !d.Dispatch?
      modifies store, events, checkpoints, ids
      ensures Sane(Stored()) && Hosted(Stored(), s.run.runId)
      ensures Beside(old(Stored()), Stored(), s.run.runId, s.run.threadId)
      ensures Stepped(ViewOf(Stored(), s.run.runId), false) == Stop(env, old(ViewOf(Stored(), s.run.runId)), d)
    {
      hide Beside, ViewOf, Sane, Idle, Hosted, SnapshotOf, Apply, Fitting, Stands, Solid, MarkCompleted, MarkInterrupted,
           MarkWaiting, MarkFailed, EndPatch, PausePatch;
      ghost var w, run := Stored(), s.run.runId;
      ghost var v := ViewOf(w, run);
      IdleParts(wf, w, run, wf.entry);
      StopFits(wf, w, run, d);
      StopNotRaised(wf, env, v, d);
      match d {
        case Complete => MarkRunCompleted(s, v);
        case Interrupt => MarkRunInterrupted(s, v);
        case Wait(_) => MarkRunWaiting(s, v);
        case Fail => MarkRunFailed(s, NoProgress, v);
      }
      SolidHosted(Stored(), run);
    }

    /** Looks at the stored run, lets the scheduler decide, and acts, until the run has ended or stopped.
        Every dispatch starts a node that cannot start again before a resume, so the loop ends. */
    method RunSchedulerLoop(run: Id, wf: Compiled) returns (raised: bool)
      requires Wired() && Honest(env) && WellCompiled(wf) && Sane(Stored()) && Hosted(Stored(), run)
      requires Decidable(wf, ViewOf(Stored(), run))
      modifies store, events, checkpoints, ids
      ensures Sane(Stored()) && Hosted(Stored(), run)
      ensures Beside(old(Stored()), Stored(), run, old(ViewOf(Stored(), run)).snap.run.threadId)
      ensures Stepped(ViewOf(Stored(), run), raised) == Loop(env, config, wf, old(ViewOf(Stored(), run)))
    {
      hide Beside, ViewOf, Sane, Idle, Honest, Hosted, RunBatch, SnapshotOf, RunInv, AllMayStart, MayStart, Stands, Solid,
           WellCompiled, Decidable, Decide, Stop, Dispatched, Measure, Loop;
      ghost var w := Stored();
      ghost var v, thread := ViewOf(w, run), ViewOf(w, run).snap.run.threadId;
      BesideItself(w, run, thread);
      while true
        invariant Sane(Stored()) && Hosted(Stored(), run) && Beside(w, Stored(), run, thread)
        invariant ViewOf(Stored(), run).snap.run.threadId == thread
        invariant Decidable(wf, ViewOf(Stored(), run))
        invariant Loop(env, config, wf, v) == Loop(env, config, wf, ViewOf(Stored(), run))
        decreases Measure(ViewOf(Stored(), run).snap)
      {
        ghost var x := Stored();
        ghost var u := ViewOf(x, run);
        DecidableParts(wf, x, run);
        LoopUnfolds(env, config, wf, u);
        var got := GetState(run);
        var s := got.value;
        if s.run.status.Terminal() {
          return false;
        }
        DecidableIdle(wf, u);
        var decision := Decide(config, s, wf);
        if decision.Dispatch? {
          LoopDispatches(env, config, wf, u);
          StoreFrontier(s, wf, decision.nodes);
          ghost var y := Stored();
          raised := DispatchNodes(run, wf, decision.nodes);
          BesideSane(x, y, Stored(), run, thread);
          BesideSane(w, x, Stored(), run, thread);
          if raised {
            return true;
          }
        } else {
          StopRun(s, wf, decision);
          BesideSane(w, x, Stored(), run, thread);
          return false;
        }
      }
    }

    /* ---- The calls ---- */

    method CreateThread() returns (record: ThreadRecord)
      requires Valid()
      modifies this, store, events, ids
      ensures Valid()
      ensures record == ThreadRecord(Id(old(ids.next)), ThreadCreated, None, None, 0)
      ensures Beside(old(Stored()), Stored(), record.threadId, record.threadId)
      ensures record.threadId !in old(store.threads) && record.threadId in store.threads
      ensures store.threads[record.threadId] == record
      ensures CheckpointsKept(old(Stored()), Stored())
    {
      hide LedgerInv, Beside, Sane, ThreadFollows, Filed, Defined, CheckpointsKept;
      ghost var w := Stored();
      SaneLedger(env, config, ledger, w);
      record := StoreThread();
      SameCheckpointsKept(w, Stored());
      CreateKeepsLedger(env, config, ledger, w, Stored(), record.threadId);
      ledger := AfterCreate(ledger, Stored());
    }

    /** The thread's two records and its event, under a fresh id. */
    method StoreThread() returns (record: ThreadRecord)
      requires Wired() && Sane(Stored())
      modifies store, events, ids
      ensures record == ThreadRecord(Id(old(ids.next)), ThreadCreated, None, None, 0)
      ensures Sane(Stored()) && ThreadFollows(Stored(), record.threadId)
      ensures Beside(old(Stored()), Stored(), record.threadId, record.threadId)
      ensures record.threadId !in old(store.runs) && store.runs == old(store.runs)
      ensures record.threadId !in old(store.threads) && record.threadId in store.threads
      ensures store.threads[record.threadId] == record
    {
      hide Beside, Sane, ThreadFollows, Add, IdsUnused;
      ghost var w := Stored();
      SaneIds(w);
      var id := ids.New();
      record := ThreadRecord(id, ThreadCreated, None, None, 0);
      var state := ThreadState(id, ThreadCreated, None, [], 0);
      store.SaveThreadRecord(record);
      store.SaveThreadState(state);
      var event := emitter.EmitThreadEvent(EventDraft(ThreadOpened, id, None));
      CreatedThread(w, Stored(), record, state, event.value);
    }

    /** The workflow a definition compiles to, by way of the cache. */
    method ResolveWorkflow(workflowId: Id, version: Option<Id>) returns (r: Result<Compiled, Error>)
      requires Valid()
      modifies this, compiler
      ensures Valid() && Stored() == old(Stored())
      ensures ledger == old(ledger).(flows := compiler.cache) && Extends(old(compiler.cache), compiler.cache)
      ensures r.Ok? ==>
        && r.value.workflowId == workflowId && (version.Some? ==> r.value.version == version.value)
        && (workflowId, r.value.version) in compiler.cache
        && compiler.cache[(workflowId, r.value.version)] == r.value
      ensures Resolves(provider.key, provider.definitions, old(compiler.cache), workflowId, version, r)
    {
      hide LedgerInv, Filed, Defined, Extends, AllCompare, Compile;
      var found := provider.GetDefinition(workflowId, version);
      ExtendsItself(compiler.cache);
      if found.Err? {
        return Err(found.error);
      }
      var definition := found.value;
      if definition == None {
        return Err(KeyError);
      }
      ghost var v :| v in provider.definitions[workflowId] && definition.value == provider.definitions[workflowId][v]
        && (if version.Some? then v == version.value else IsLatest(provider.key, provider.definitions[workflowId], v));
      FiledNames(provider.definitions, workflowId, v);
      var compiled := CompileFiled(definition.value);
      return if compiled.Err? then Err(ValueError) else Ok(compiled.value);
    }

    method CompileFiled(d: Definition) returns (r: Result<Compiled, CompileError>)
      requires Valid() && d.workflowId in provider.definitions && d.version in provider.definitions[d.workflowId]
      requires d.Valid()
      modifies this, compiler
      ensures Valid() && Stored() == old(Stored())
      ensures ledger == old(ledger).(flows := compiler.cache) && Extends(old(compiler.cache), compiler.cache)
      ensures r.Ok? ==>
        && r.value.workflowId == d.workflowId && r.value.version == d.version
        && (d.workflowId, d.version) in compiler.cache && compiler.cache[(d.workflowId, d.version)] == r.value
      ensures (if r.Ok? then Ok(r.value) else Err(ValueError)) == CompiledAs(old(compiler.cache), d)
    {
      hide LedgerInv, WellCompiled, Honest, FlowsSound, Compile, Defined, Filed, Extends;
      var key := (d.workflowId, d.version);
      ghost var flows := compiler.cache;
      LedgerFlows(env, config, ledger, Stored());
      ExtendsItself(flows);
      r := compiler.Run(d, true);
      if r.Ok? {
        if key !in flows {
          CompiledFlow(env, config, ledger, Stored(), provider.definitions, d, r.value);
        } else {
          FlowNames(flows, key);
        }
        ledger := ledger.(flows := compiler.cache);
      }
    }

    /** A thread without a live run starts one and runs it as far as it goes. */
    method StartRun(threadId: Id, workflowId: Id, version: Option<Id>) returns (reply: Reply)
      requires Valid()
      modifies this, store, events, checkpoints, ids, compiler
      ensures Valid()
      ensures threadId !in old(store.threads) ==> reply == Rejected(KeyError)
      ensures threadId in old(store.threads) && old(store.threads[threadId].currentRun).Some? ==>
        reply == Rejected(ValueError)
      ensures threadId in old(store.threads) && old(store.threads[threadId].currentRun) == None ==>
        exists resolved ::
          && Resolves(provider.key, provider.definitions, old(compiler.cache), workflowId, version, resolved)
          && if resolved.Err? then reply == Rejected(resolved.error)
             else if !bindable(resolved.value) then reply == Rejected(ValueError)
             else !reply.Rejected? && Id(old(ids.next)) in store.runs && Flow(Id(old(ids.next))) == resolved.value
      ensures reply.Rejected? ==> Stored() == old(Stored())
      ensures !reply.Rejected? ==>
        var run := Id(old(ids.next));
        && threadId in old(store.threads) && threadId in old(store.threadStates)
        && run !in old(store.runs) && run in store.runs && Flow(run).workflowId == workflowId
        && var start := Start(old(store.threads[threadId]), old(store.threadStates[threadId]), old(ids.next));
           && start.Sound() && RunView(run) == RunOf(env, config, Flow(run), start, [])
           && (reply.Returned? ==> reply.run == store.runs[run])
           && Beside(old(Stored()), Stored(), run, threadId)
      ensures CheckpointsKept(old(Stored()), Stored())
    {
      hide LedgerInv, Beside, Sane, Hosted, ViewOf, SnapshotOf, Honest, WellCompiled, RunInv, RunOf, FlowsSound, Filed,
           Defined, CheckpointsKept, Resolves;
      SaneLedger(env, config, ledger, Stored());
      SameCheckpointsKept(Stored(), Stored());
      if threadId !in store.threads || threadId !in store.threadStates {
        ThreadStored(env, config, ledger, Stored(), threadId);
        return Rejected(KeyError);
      }
      if store.threads[threadId].currentRun.Some? {
        return Rejected(ValueError);
      }
      var compiled := ResolveWorkflow(workflowId, version);
      if compiled.Err? {
        return Rejected(compiled.error);
      }
      var wf := compiled.value;
      if !bindable(wf) {
        return Rejected(ValueError);
      }
      ghost var w := Stored();
      ghost var start := Start(store.threads[threadId], store.threadStates[threadId], ids.next);
      ghost var name := (workflowId, wf.version);
      KnownThread(env, config, ledger, w, threadId);
      ThreadFollowsIn(env, config, ledger, w, threadId);
      FlowKnown(env, config, ledger, w, name);
      LedgerFlows(env, config, ledger, w);
      reply := LaunchRun(threadId, wf, start);
      StartKeepsLedger(env, config, ledger, w, Stored(), threadId, name);
      StartedFlow(env, config, ledger, w, Stored(), threadId, name);
      StartKeepsCheckpoints(w, Stored(), threadId);
      ledger := AfterStart(ledger, w, Stored(), Id(w.nextId), threadId);
    }

    /** The start itself: the run's records, its first events and checkpoint, and the loop. */
    method LaunchRun(threadId: Id, wf: Compiled, ghost start: Start) returns (reply: Reply)
      requires Wired() && Honest(env) && WellCompiled(wf) && Sane(Stored()) && ThreadFollows(Stored(), threadId)
      requires start == Start(store.threads[threadId], store.threadStates[threadId], ids.next) && start.Sound()
      modifies store, events, checkpoints, ids
      ensures var run := Id(start.nextId);
              && run !in old(store.runs) && run in store.runs && Sane(Stored()) && Hosted(Stored(), run)
              && ViewOf(Stored(), run) == RunOf(env, config, wf, start, [])
              && Beside(old(Stored()), Stored(), run, threadId)
              && (reply == Returned(store.runs[run]) || reply == Escaped)
    {
      hide Beside, Sane, Hosted, ViewOf, SnapshotOf, Honest, WellCompiled, RunInv, RunOf, Solid, Stands, Apply, Fitting, Commit,
           Loop, Decidable, InitialPatch, EmptySnapshot, Begin;
      ghost var w := Stored();
      var thread, threadState := store.threads[threadId], store.threadStates[threadId];
      BeginFitsAt(wf, w, threadId);
      var run := ids.New();
      var empty := EmptySnapshot(thread, threadState, run, wf);
      EmptyNames(thread, threadState, run, wf);
      BeginStands(w, run, empty, threadId);
      ghost var x := Stored();
      var begun := CommitPatch(empty, InitialPatch(run, wf), InitialKinds(wf), View(empty, [], [], start.nextId + 1));
      ghost var y := Stored();
      BegunView(env, thread, threadState, wf, start.nextId);
      SolidHosted(y, run);
      BesideSane(w, x, y, run, threadId);
      FirstLoop(env, config, wf, start);
      var raised := RunSchedulerLoop(run, wf);
      BesideSane(w, y, Stored(), run, threadId);
      StoredRun(Stored(), run);
      return if raised then Escaped else Returned(store.runs[run]);
    }

    /** Resuming with a payload resolves every pending interrupt, frees the nodes that held them, and puts
        those on the frontier. */
    method BuildResumePatch(s: Snapshot, withPayload: bool) returns (p: StatePatch, kinds: seq<EventKind>)
      ensures var ids := if withPayload then s.runState.pendingInterrupts else [];
              p == ResumePatch(s, ids) && kinds == ResumeKinds(ids)
    {
      hide Gathered;
      var waiting, blocked, frontier := s.runState.waiting, s.runState.blocked, s.runState.frontier;
      var nodes: map<NodeId, NodeUpdate> := map[];
      var updates: seq<(Id, InterruptUpdate)> := [];
      kinds := [];
      var pending := if withPayload then s.runState.pendingInterrupts else [];
      GatherNone(s);
      for i := 0 to |pending|
        invariant Gathered(s, pending[..i], waiting, blocked, frontier, nodes, updates, kinds)
        invariant |updates| == i
      {
        var id := pending[i];
        assert pending[..i + 1] == pending[..i] + [id];
        if id in s.interrupts && s.interrupts[id].nodeId.Some? {
          var n := s.interrupts[id].nodeId.value;
          GatherOne(s, pending[..i], id, waiting, blocked, frontier, nodes, updates, kinds, n);
          nodes := nodes[n := RELEASE_NODE];
          waiting := Without(waiting, {n});
          blocked := Without(blocked, {n});
          frontier := MergeUniqueItems(frontier, [n]);
        } else {
          GatherSkips(s, pending[..i], id, waiting, blocked, frontier, nodes, updates, kinds);
        }
        updates := updates + [(id, RESOLVE)];
        kinds := kinds + [InterruptResolved(id)];
      }
      assert pending[..|pending|] == pending;
      GatheredPatch(s, pending, waiting, blocked, frontier, nodes, updates, kinds);
      var lists := NO_RUN_STATE.(status := Some(RunRunning));
      if updates != [] {
        lists := lists.(waiting := Some(waiting), blocked := Some(blocked), frontier := Some(frontier));
      }
      kinds := kinds + [RunResumed];
      p := NO_PATCH.(
        thread := ThreadUpdate(Some(ThreadActive), None, None), threadState := ThreadStateUpdate(Some(ThreadActive), None),
        run := RunUpdate(Some(RunRunning), None), runState := lists, nodes := nodes, interruptUpdates := updates);
    }

    /** A waiting or interrupted run goes on; any other is left alone. */
    method ResumeRun(run: Id, withPayload: bool) returns (reply: Reply)
      requires Valid()
      modifies this, store, events, checkpoints, ids, compiler
      ensures Valid()
      ensures run !in old(store.runs) ==> reply == Rejected(KeyError)
      ensures run in old(store.runs) ==>
        && run in store.runs
        && RunView(run) == Obey(env, config, old(Flow(run)), old(RunView(run)), Command.ResumeRun(withPayload))
        && (reply.Rejected? <==> old(store.runs[run].status) !in {RunInterrupted, RunWaiting})
        && (reply.Rejected? ==> reply.error == ValueError)
        && (reply.Returned? ==> reply.run == store.runs[run])
        && Beside(old(Stored()), Stored(), run, old(store.runs[run].threadId))
      ensures reply.Rejected? ==> Stored() == old(Stored())
      ensures CheckpointsKept(old(Stored()), Stored())
    {
      hide LedgerInv, Beside, Sane, Hosted, ViewOf, SnapshotOf, Honest, WellCompiled, RunInv, Solid, Stands, Apply, Fitting,
           Commit, Loop, Decidable, FlowsSound, ResumePatch, ResumeKinds, Obey, CheckpointsKept, Filed, Defined;
      ghost var w := Stored();
      SaneLedger(env, config, ledger, w);
      SameCheckpointsKept(w, w);
      HostedIffStored(env, config, ledger, w, run);
      var got := GetState(run);
      if got.Err? {
        return Rejected(KeyError);
      }
      var s := got.value;
      LedgerKnows(env, config, ledger, w, run);
      ghost var wf, v := Flow(run), RunView(run);
      if s.run.status != RunInterrupted && s.run.status != RunWaiting {
        NotResumed(env, config, wf, v, withPayload);
        BesideItself(w, run, w.state.runs[run].threadId);
        return Rejected(ValueError);
      }
      DefinedName(compiler.cache, provider.definitions, (s.run.workflowId, s.run.workflowVersion));
      reply := GoOn(s, withPayload, wf, v);
      CommandKeepsLedger(env, config, ledger, w, Stored(), run, Command.ResumeRun(withPayload));
      ledger := AfterCommand(ledger, Stored(), run, Command.ResumeRun(withPayload));
    }

    /** The resume itself: patch, workflow, loop. */
    method GoOn(s: Snapshot, withPayload: bool, ghost wf: Compiled, ghost v: View) returns (reply: Reply)
      requires Wired() && Filed(provider.definitions) && Honest(env) && WellCompiled(wf)
      requires Sane(Stored()) && Hosted(Stored(), s.run.runId) && v == ViewOf(Stored(), s.run.runId) && s == v.snap
      requires RunInv(wf, v) && MayResume(v)
      requires (s.run.workflowId, s.run.workflowVersion) in compiler.cache
      requires compiler.cache[(s.run.workflowId, s.run.workflowVersion)] == wf
      requires s.run.workflowId in provider.definitions && s.run.workflowVersion in provider.definitions[s.run.workflowId]
      modifies store, events, checkpoints, ids, compiler
      ensures compiler.cache == old(compiler.cache) && provider.definitions == old(provider.definitions)
      ensures Sane(Stored()) && Hosted(Stored(), s.run.runId)
      ensures ViewOf(Stored(), s.run.runId) == Obey(env, config, wf, v, Command.ResumeRun(withPayload))
      ensures Beside(old(Stored()), Stored(), s.run.runId, s.run.threadId)
      ensures s.run.runId in store.runs && (reply == Returned(store.runs[s.run.runId]) || reply == Escaped)
    {
      hide Beside, Sane, Hosted, ViewOf, SnapshotOf, Honest, WellCompiled, RunInv, Solid, Stands, Apply, Fitting,
           Commit, Loop, Decidable, ResumePatch, ResumeKinds, Obey, Filed, Compile, AllCompare, IsLatest;
      ghost var w, run := Stored(), s.run.runId;
      var p, kinds := BuildResumePatch(s, withPayload);
      ResumeObeyed(env, config, wf, v, withPayload);
      InvStands(wf, w, run);
      ResumeFits(wf, w, run, if withPayload then s.runState.pendingInterrupts else []);
      var resumed := CommitPatch(s, p, kinds, v);
      ghost var x := Stored();
      SolidHosted(x, run);
      ResumedFlow(s, p, (s.run.workflowId, s.run.workflowVersion), withPayload);
      var found := provider.GetDefinition(resumed.value.run.workflowId, Some(resumed.value.run.workflowVersion));
      FiledNames(provider.definitions, s.run.workflowId, s.run.workflowVersion);
      var compiled := compiler.Run(found.value.value, true);
      var raised := RunSchedulerLoop(s.run.runId, compiled.value);
      BesideSane(w, x, Stored(), run, s.run.threadId);
      ViewNames(Stored(), run);
      StoredRun(Stored(), run);
      return if raised then Escaped else Returned(store.runs[s.run.runId]);
    }

    /** Cancelling a live run always succeeds and frees its thread; an ended run is left alone. */
    method CancelRun(run: Id) returns (reply: Reply)
      requires Valid()
      modifies this, store, events, checkpoints, ids
      ensures Valid()
      ensures run !in old(store.runs) ==> reply == Rejected(KeyError) && Stored() == old(Stored())
      ensures run in old(store.runs) ==>
        && run in store.runs && reply == Returned(store.runs[run])
        && RunView(run) == Obey(env, config, old(Flow(run)), old(RunView(run)), Command.CancelRun)
        && (if old(store.runs[run].status.Terminal()) then Stored() == old(Stored())
            else store.runs[run].status == RunCancelled && RunView(run).snap.thread.currentRun == None)
        && Beside(old(Stored()), Stored(), run, old(store.runs[run].threadId))
      ensures CheckpointsKept(old(Stored()), Stored())
    {
      hide LedgerInv, Beside, Sane, Hosted, ViewOf, SnapshotOf, Honest, WellCompiled, RunInv, Solid, Stands, Apply, Fitting,
           Commit, FlowsSound, CancelPatch, Obey, CheckpointsKept, Filed, Defined;
      ghost var w := Stored();
      SaneLedger(env, config, ledger, w);
      SameCheckpointsKept(w, w);
      HostedIffStored(env, config, ledger, w, run);
      var got := GetState(run);
      if got.Err? {
        return Rejected(KeyError);
      }
      var s := got.value;
      LedgerKnows(env, config, ledger, w, run);
      ghost var wf, v := Flow(run), RunView(run);
      if s.run.status.Terminal() {
        NotCancelled(env, config, wf, v);
        BesideItself(w, run, w.state.runs[run].threadId);
        return Returned(s.run);
      }
      CancelObeyed(env, config, wf, v);
      CancelFits(wf, w, run);
      var cancelled := CommitPatch(s, CancelPatch(s), [RunAborted], v);
      SolidHosted(Stored(), run);
      StoredRun(Stored(), run);
      ViewNames(Stored(), run);
      CommandKeepsLedger(env, config, ledger, w, Stored(), run, Command.CancelRun);
      ledger := AfterCommand(ledger, Stored(), run, Command.CancelRun);
      return Returned(store.runs[run]);
    }
  }
}
