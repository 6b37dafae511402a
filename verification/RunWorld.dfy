/** All stores together, and the part of them that is one run. */
module RunWorld {
  import opened Common
  import opened Models
  import opened Reducer
  import opened ReducerFacts
  import opened Events
  import opened EventStores
  import opened Emitter
  import opened CheckpointStores
  import opened StateStores
  import opened RunMachine
  import opened RunInvariant

  datatype World = World(state: StateDb, events: EventDb, checkpoints: CheckpointDb, nextId: nat)

  ghost predicate KeysBelow<R>(rows: map<Id, R>, nextId: nat) {
    forall i | i in rows :: i.serial < nextId
  }

  /** The stores are sound and no identifier at or above `nextId` is in use. */
  ghost predicate Sane(w: World) {
    && w.checkpoints.Valid() && IdsUnused(w.events, w.nextId) && KeysBelow(w.checkpoints.checkpoints, w.nextId)
    && StateSane(w.state, w.nextId)
    && (forall q: Id :: q.serial >= w.nextId ==> w.events.Log(q) == [])
    && (forall q: Id :: q.serial >= w.nextId ==> w.checkpoints.IdsOf(q) == [])
  }

  ghost predicate StateSane(db: StateDb, nextId: nat) {
    && KeysBelow(db.threads, nextId) && KeysBelow(db.runs, nextId)
    && KeysBelow(db.artifacts, nextId) && KeysBelow(db.interrupts, nextId)
    && KeysBelow(db.decisions, nextId) && KeysBelow(db.sideEffects, nextId)
    && NodeKeysBelow(db.nodes, nextId) && RecordsKeyed(db) && OwnersBelow(db, nextId)
  }

  lemma StateSaneHigher(db: StateDb, low: nat, high: nat)
    requires StateSane(db, low) && low <= high
    ensures StateSane(db, high)
  {
  }

  ghost predicate NodeKeysBelow(rows: map<(Id, NodeId), NodeState>, nextId: nat) {
    forall k | k in rows :: k.0.serial < nextId
  }

  /** No row belongs to a run that has no identifier yet. */
  ghost predicate OwnersBelow(db: StateDb, nextId: nat) {
    && (forall i | i in db.artifacts :: db.artifacts[i].runId.serial < nextId)
    && (forall i | i in db.interrupts :: db.interrupts[i].runId.serial < nextId)
    && (forall i | i in db.decisions :: db.decisions[i].runId.serial < nextId)
    && (forall i | i in db.sideEffects :: db.sideEffects[i].runId.serial < nextId)
  }

  /** Runs and threads are stored with their states, under their own ids. */
  ghost predicate RecordsKeyed(db: StateDb) {
    && db.runs.Keys == db.runStates.Keys && db.threads.Keys == db.threadStates.Keys
    && (forall r | r in db.runs :: db.runs[r].runId == r)
    && (forall t | t in db.threads :: db.threads[t].threadId == t)
  }

  predicate Hosted(w: World, run: Id) {
    Hosts(w.state, run)
  }

  ghost function ViewOf(w: World, run: Id): View
    requires Sane(w) && Hosted(w, run)
  {
    View(SnapshotOf(w.state, run), w.events.Log(run), w.checkpoints.Saved(run), w.nextId)
  }

  /** A stored run whose records are in order. */
  ghost predicate Solid(w: World, run: Id) {
    && Sane(w) && Hosted(w, run)
    && Coherent(SnapshotOf(w.state, run)) && SnapshotOf(w.state, run).runState.Valid()
    && IdsBelow(SnapshotOf(w.state, run), w.nextId)
  }

  /** Nothing of the other runs has changed but the thread they may share. */
  ghost predicate Beside(before: World, after: World, run: Id, thread: Id) {
    && OthersKept(before.state, after.state, run, thread)
    && (forall q | q != run :: after.events.Log(q) == before.events.Log(q))
    && (before.checkpoints.Valid() && after.checkpoints.Valid() ==>
          forall q | q != run :: after.checkpoints.Saved(q) == before.checkpoints.Saved(q))
    && before.nextId <= after.nextId
  }

  /** No checkpoint of any run has been changed, dropped or moved. */
  ghost predicate CheckpointsKept(w: World, x: World) {
    && w.checkpoints.Valid() && x.checkpoints.Valid()
    && forall q :: w.checkpoints.Saved(q) <= x.checkpoints.Saved(q)
  }

  lemma BesideKeepsCheckpoints(w: World, x: World, run: Id, thread: Id)
    requires Sane(w) && Sane(x) && Beside(w, x, run, thread)
    requires w.checkpoints.Saved(run) <= x.checkpoints.Saved(run)
    ensures CheckpointsKept(w, x)
  {
    hide StateSane, OthersKept;
    forall q ensures w.checkpoints.Saved(q) <= x.checkpoints.Saved(q) {
      assert q != run ==> w.checkpoints.Saved(q) == x.checkpoints.Saved(q);
    }
  }

  lemma SameCheckpointsKept(w: World, x: World)
    requires Sane(w) && x.checkpoints == w.checkpoints
    ensures CheckpointsKept(w, x)
  {
    hide StateSane;
  }

  lemma BesideTwice(a: World, b: World, c: World, run: Id, thread: Id)
    requires Beside(a, b, run, thread) && Beside(b, c, run, thread) && b.checkpoints.Valid()
    ensures Beside(a, c, run, thread)
  {
    OthersKeptTwice(a.state, b.state, c.state, run, thread);
  }

  lemma BesideItself(w: World, run: Id, thread: Id)
    ensures Beside(w, w, run, thread)
  {
  }

  lemma OthersKeptItself(db: StateDb, run: Id, thread: Id)
    ensures OthersKept(db, db, run, thread)
  {
  }

  /* ---- One store at a time ---- */

  lemma StorableAsStored(w: World, run: Id)
    requires Sane(w) && Hosted(w, run) && Coherent(SnapshotOf(w.state, run))
    ensures Storable(w.state, SnapshotOf(w.state, run))
  {
    var s := SnapshotOf(w.state, run);
    forall k | k in w.state.nodes && k.0 == run ensures k.1 in s.nodes {
      assert (run, k.1) in w.state.nodes;
    }
  }

  /** A snapshot with the rows of a stored one can be stored in its place. */
  lemma StorableAgain(w: World, run: Id, t: Snapshot)
    requires Sane(w) && Hosted(w, run) && Coherent(SnapshotOf(w.state, run)) && Coherent(t)
    requires var s := SnapshotOf(w.state, run);
             && t.run.runId == run && t.run.threadId == s.run.threadId
             && t.nodes.Keys == s.nodes.Keys && t.artifacts.Keys == s.artifacts.Keys
             && t.interrupts.Keys == s.interrupts.Keys && t.decisions.Keys == s.decisions.Keys
             && t.sideEffects.Keys == s.sideEffects.Keys
    ensures Storable(w.state, t)
  {
    StorableAsStored(w, run);
  }

  lemma PersistView(w: World, s: Snapshot)
    requires Sane(w) && Storable(w.state, s) && s.runState.Valid() && IdsBelow(s, w.nextId)
    requires s.thread.threadId in w.state.threads
    ensures var x := w.(state := Save(w.state, s));
            && Solid(x, s.run.runId) && Beside(w, x, s.run.runId, s.run.threadId)
            && ViewOf(x, s.run.runId) == View(s, w.events.Log(s.run.runId), w.checkpoints.Saved(s.run.runId), w.nextId)
  {
    hide Storable, SnapshotOf, OthersKept, Coherent;
    SavedReadsBack(w.state, s);
    SaveKeepsOthers(w.state, s);
    PersistSane(w, s);
  }

  lemma UnionBelow<R>(rows: map<Id, R>, table: map<Id, R>, nextId: nat)
    requires KeysBelow(rows, nextId) && KeysBelow(table, nextId)
    ensures KeysBelow(rows + table, nextId)
  {
  }

  lemma PersistSane(w: World, s: Snapshot)
    requires Sane(w) && Storable(w.state, s) && IdsBelow(s, w.nextId) && s.thread.threadId in w.state.threads
    ensures Sane(w.(state := Save(w.state, s))) && Coherent(s)
  {
    hide Owned, KeysBelow, Storable, RecordsKeyed, NodeKeysBelow, OwnersBelow;
    OwnersSaved(w.state, s, w.nextId);
    BelowKeys(s, w.nextId);
    StorableIds(w.state, s);
    UnionBelow(w.state.artifacts, s.artifacts, w.nextId);
    UnionBelow(w.state.interrupts, s.interrupts, w.nextId);
    UnionBelow(w.state.decisions, s.decisions, w.nextId);
    UnionBelow(w.state.sideEffects, s.sideEffects, w.nextId);
    RecordKeysBelow(w, s);
    NodeRowsBelow(w.state.nodes, s.nodes, s.run.runId, w.nextId);
    SaveKeyed(w.state, s);
  }

  lemma OwnersSaved(db: StateDb, s: Snapshot, nextId: nat)
    requires OwnersBelow(db, nextId) && Storable(db, s) && s.run.runId.serial < nextId
    ensures OwnersBelow(Save(db, s), nextId)
  {
    hide Covers, CoversNodes, NodeRows;
  }

  lemma NodeRowsBelow(rows: map<(Id, NodeId), NodeState>, nodes: map<NodeId, NodeState>, run: Id, nextId: nat)
    requires NodeKeysBelow(rows, nextId) && run.serial < nextId
    ensures NodeKeysBelow(rows + NodeRows(run, nodes), nextId)
  {
  }

  lemma SaveKeyed(db: StateDb, s: Snapshot)
    requires RecordsKeyed(db) && s.runState.runId == s.run.runId && s.threadState.threadId == s.thread.threadId
    ensures RecordsKeyed(Save(db, s))
  {
  }

  lemma BelowKeys(s: Snapshot, nextId: nat)
    requires IdsBelow(s, nextId)
    ensures KeysBelow(s.artifacts, nextId) && KeysBelow(s.interrupts, nextId)
    ensures KeysBelow(s.decisions, nextId) && KeysBelow(s.sideEffects, nextId)
  {
  }

  lemma StorableIds(db: StateDb, s: Snapshot)
    requires Storable(db, s)
    ensures Coherent(s) && s.runState.runId == s.run.runId
    ensures s.thread.threadId == s.threadState.threadId == s.runState.threadId == s.run.threadId
  {
  }

  lemma RecordKeysBelow(w: World, s: Snapshot)
    requires KeysBelow(w.state.threads, w.nextId) && KeysBelow(w.state.runs, w.nextId)
    requires s.thread.threadId in w.state.threads && s.run.runId.serial < w.nextId
    ensures KeysBelow(w.state.threads[s.thread.threadId := s.thread], w.nextId)
    ensures KeysBelow(w.state.runs[s.run.runId := s.run], w.nextId)
  {
  }

  lemma EmitView(w: World, x: World, run: Id, kinds: seq<EventKind>)
    requires Solid(w, run) && x == w.(events := x.events, nextId := w.nextId + |kinds|)
    requires IdsUnused(x.events, x.nextId)
    requires x.events.Log(run) == w.events.Log(run)
               + Materialize(Drafts(SnapshotOf(w.state, run), kinds), NextSequence(w.events.Log(run)), w.nextId)
    requires forall q | q != run :: x.events.Log(q) == w.events.Log(q)
    ensures Solid(x, run) && Beside(w, x, run, SnapshotOf(w.state, run).run.threadId)
    ensures ViewOf(x, run) == Emit(ViewOf(w, run), kinds)
  {
    hide Coherent, SnapshotOf, StateSane, OthersKept;
    SnapshotKnown(w, run);
    StateSaneHigher(w.state, w.nextId, x.nextId);
    OthersKeptItself(w.state, run, SnapshotOf(w.state, run).run.threadId);
  }

  lemma HigherIdsView(w: World, run: Id, nextId: nat)
    requires Solid(w, run) && w.nextId <= nextId
    ensures var x := w.(nextId := nextId);
            && Solid(x, run) && Beside(w, x, run, SnapshotOf(w.state, run).run.threadId)
            && ViewOf(x, run) == ViewOf(w, run).(nextId := nextId)
  {
    hide Coherent, SnapshotOf, StateSane, OthersKept;
    StateSaneHigher(w.state, w.nextId, nextId);
    OthersKeptItself(w.state, run, SnapshotOf(w.state, run).run.threadId);
  }

  lemma CreateView(w: World, x: World, run: Id, c: Checkpoint, p: Payload)
    requires Solid(w, run) && c.runId == run && c.checkpointId == Id(w.nextId)
    requires x == w.(checkpoints := Store(w.checkpoints, c, p), nextId := w.nextId + 1)
    ensures Solid(x, run) && Beside(w, x, run, SnapshotOf(w.state, run).run.threadId)
    ensures ViewOf(x, run) == ViewOf(w, run).(saved := ViewOf(w, run).saved + [(c, p)], nextId := w.nextId + 1)
  {
    hide Coherent, SnapshotOf, StateSane, OthersKept;
    SnapshotKnown(w, run);
    StateSaneHigher(w.state, w.nextId, x.nextId);
    OthersKeptItself(w.state, run, SnapshotOf(w.state, run).run.threadId);
    assert c.checkpointId !in w.checkpoints.checkpoints;
    forall q ensures x.checkpoints.Valid()
      && x.checkpoints.Saved(q) == w.checkpoints.Saved(q) + if q == run then [(c, p)] else []
    {
      StoreAdds(w.checkpoints, c, p, q);
    }
    StoreAdds(w.checkpoints, c, p, run);
  }

  /* ---- Stamping the last event and the last checkpoint ---- */

  const NO_NODES: map<NodeId, NodeUpdate> := map[]

  lemma StampApplies(s: Snapshot, p: StatePatch, r: RunState)
    requires p == NO_PATCH.(thread := p.thread, runState := p.runState)
    requires UpdateRunState(s.runState, p.runState) == Ok(r)
    ensures Apply(s, p) == Ok(s.(thread := UpdateThread(s.thread, p.thread), runState := r))
  {
    var s1 := s.(thread := UpdateThread(s.thread, p.thread), runState := r);
    assert ApplyRecords(s, p) == Ok(s1);
    assert ApplyNodeUpdates(s1, NO_NODES).value.nodes == s1.nodes;
    assert ApplyArtifacts(s1, []) == Ok(s1);
    assert ApplyInterrupts(s1, []) == Ok(s1);
    assert ApplyInterruptUpdates(s1, []) == Ok(s1);
    assert Fold(AddDecision, s1, []) == Ok(s1);
  }

  function EventStamp(id: Id): StatePatch {
    NO_PATCH.(runState := NO_RUN_STATE.(lastEvent := Some(id)))
  }

  function CheckpointStamp(id: Id): StatePatch {
    NO_PATCH.(thread := NO_THREAD.(latestCheckpoint := Some(id)))
  }

  lemma EventStampApplies(s: Snapshot, id: Id)
    requires s.runState.Valid()
    ensures Apply(s, EventStamp(id))
            == Ok(s.(runState := s.runState.(lastEvent := Some(id), version := s.runState.version + 1)))
  {
    var r := s.runState.(lastEvent := Some(id), version := s.runState.version + 1);
    assert AmendRunState(s.runState, EventStamp(id).runState) == r;
    StampApplies(s, EventStamp(id), r);
  }

  lemma CheckpointStampApplies(s: Snapshot, id: Id)
    ensures Apply(s, CheckpointStamp(id))
            == Ok(s.(thread := s.thread.(latestCheckpoint := Some(id), version := s.thread.version + 1)))
  {
    StampApplies(s, CheckpointStamp(id), s.runState);
  }

  /** The stamped snapshot takes the place of the stored one. */
  lemma StampedView(w: World, run: Id, t: Snapshot)
    requires Solid(w, run) && t.runState.Valid()
    requires var s := SnapshotOf(w.state, run);
             && t == s.(thread := t.thread, runState := t.runState)
             && t.thread.threadId == s.thread.threadId
             && t.runState.runId == s.runState.runId && t.runState.threadId == s.runState.threadId
    ensures Storable(w.state, t) && Coherent(t)
    ensures var x := w.(state := Save(w.state, t));
            && Solid(x, run) && Beside(w, x, run, SnapshotOf(w.state, run).run.threadId)
            && ViewOf(x, run) == ViewOf(w, run).(snap := t)
  {
    hide SnapshotOf, Storable;
    SnapshotKnown(w, run);
    StorableAgain(w, run, t);
    PersistView(w, t);
  }

  lemma SnapshotKnown(w: World, run: Id)
    requires Solid(w, run)
    ensures var s := SnapshotOf(w.state, run);
            && s.run.runId == run && s.thread.threadId in w.state.threads && s.run.threadId == s.thread.threadId
  {
  }
}
