/** The in-memory state store: nine tables, and the snapshot of a run built from them. */
module StateStores {
  import opened Common
  import opened Models
  import opened ReducerFacts

  datatype StateDb = StateDb(
    threads: map<Id, ThreadRecord>, runs: map<Id, RunRecord>,
    threadStates: map<Id, ThreadState>, runStates: map<Id, RunState>,
    nodes: map<(Id, NodeId), NodeState>, artifacts: map<Id, ArtifactRecord>,
    interrupts: map<Id, InterruptRecord>, decisions: map<Id, PolicyDecision>, sideEffects: map<Id, SideEffect>)

  /* ---- Reading a run ---- */

  function NodesOf(nodes: map<(Id, NodeId), NodeState>, run: Id): map<NodeId, NodeState> {
    map n | n in (set k | k in nodes && k.0 == run :: k.1) :: nodes[(run, n)]
  }

  function RowsOf<R>(rows: map<Id, R>, owner: R -> Id, run: Id): map<Id, R> {
    map i | i in rows && owner(rows[i]) == run :: rows[i]
  }

  function ArtifactRun(a: ArtifactRecord): Id { a.runId }
  function InterruptRun(i: InterruptRecord): Id { i.runId }
  function DecisionRun(d: PolicyDecision): Id { d.runId }
  function SideEffectRun(e: SideEffect): Id { e.runId }

  /** A run is hosted when its record, its state and its thread are stored. */
  predicate Hosts(db: StateDb, run: Id) {
    && run in db.runs && run in db.runStates
    && db.runs[run].threadId in db.threads && db.runs[run].threadId in db.threadStates
  }

  function SnapshotOf(db: StateDb, run: Id): Snapshot
    requires Hosts(db, run)
  {
    Snapshot(db.threads[db.runs[run].threadId], db.runs[run], db.threadStates[db.runs[run].threadId], db.runStates[run],
             NodesOf(db.nodes, run), RowsOf(db.artifacts, ArtifactRun, run), RowsOf(db.interrupts, InterruptRun, run),
             RowsOf(db.decisions, DecisionRun, run), RowsOf(db.sideEffects, SideEffectRun, run))
  }

  /* ---- Saving a snapshot ---- */

  function NodeRows(run: Id, nodes: map<NodeId, NodeState>): map<(Id, NodeId), NodeState> {
    map k | k in (set n | n in nodes :: (run, n)) :: nodes[k.1]
  }

  /** Saving overwrites the rows of the snapshot and removes none. */
  function Save(db: StateDb, s: Snapshot): StateDb {
    StateDb(
      db.threads[s.thread.threadId := s.thread], db.runs[s.run.runId := s.run],
      db.threadStates[s.threadState.threadId := s.threadState], db.runStates[s.runState.runId := s.runState],
      db.nodes + NodeRows(s.run.runId, s.nodes), db.artifacts + s.artifacts,
      db.interrupts + s.interrupts, db.decisions + s.decisions, db.sideEffects + s.sideEffects)
  }

  /** Every stored row of the run is in the table, and no row of the table is another run's. */
  ghost predicate Covers<R(!new)>(rows: map<Id, R>, table: map<Id, R>, owner: R -> Id, run: Id) {
    && (forall i | i in rows && owner(rows[i]) == run :: i in table)
    && (forall i | i in rows && i in table :: owner(rows[i]) == run)
  }

  ghost predicate CoversNodes(rows: map<(Id, NodeId), NodeState>, table: map<NodeId, NodeState>, run: Id) {
    forall k | k in rows && k.0 == run :: k.1 in table
  }

  /** A snapshot that can be saved and read back: its rows agree on their run, cover what the run has
      stored, and use no identifier of another run. */
  ghost predicate Storable(db: StateDb, s: Snapshot) {
    && Coherent(s)
    && (s.run.runId in db.runs ==> db.runs[s.run.runId].threadId == s.run.threadId)
    && CoversNodes(db.nodes, s.nodes, s.run.runId)
    && Covers(db.artifacts, s.artifacts, ArtifactRun, s.run.runId)
    && Covers(db.interrupts, s.interrupts, InterruptRun, s.run.runId)
    && Covers(db.decisions, s.decisions, DecisionRun, s.run.runId)
    && Covers(db.sideEffects, s.sideEffects, SideEffectRun, s.run.runId)
  }

  lemma RowsReadBack<R(!new)>(rows: map<Id, R>, table: map<Id, R>, owner: R -> Id, run: Id, q: Id)
    requires Covers(rows, table, owner, run) && forall i | i in table :: owner(table[i]) == run
    ensures RowsOf(rows + table, owner, q) == if q == run then table else RowsOf(rows, owner, q)
    ensures Covers(rows + table, table, owner, run)
  {
  }

  lemma NodesReadBack(rows: map<(Id, NodeId), NodeState>, table: map<NodeId, NodeState>, run: Id, q: Id)
    requires CoversNodes(rows, table, run)
    ensures NodesOf(rows + NodeRows(run, table), q) == if q == run then table else NodesOf(rows, q)
    ensures CoversNodes(rows + NodeRows(run, table), table, run)
  {
    var all := rows + NodeRows(run, table);
    forall n ensures (q, n) in all <==> if q == run then n in table else (q, n) in rows {
    }
    forall n ensures n in NodesOf(all, q) <==> if q == run then n in table else n in NodesOf(rows, q) {
      assert n in NodesOf(all, q) <==> (q, n) in all;
      assert n in NodesOf(rows, q) <==> (q, n) in rows;
    }
  }

  /** The rows of one run in the five shared tables. */
  ghost predicate SameRows(before: StateDb, after: StateDb, q: Id) {
    && NodesOf(after.nodes, q) == NodesOf(before.nodes, q)
    && RowsOf(after.artifacts, ArtifactRun, q) == RowsOf(before.artifacts, ArtifactRun, q)
    && RowsOf(after.interrupts, InterruptRun, q) == RowsOf(before.interrupts, InterruptRun, q)
    && RowsOf(after.decisions, DecisionRun, q) == RowsOf(before.decisions, DecisionRun, q)
    && RowsOf(after.sideEffects, SideEffectRun, q) == RowsOf(before.sideEffects, SideEffectRun, q)
  }

  lemma TablesReadBack(db: StateDb, s: Snapshot, q: Id)
    requires Storable(db, s)
    ensures var r := Save(db, s);
            && NodesOf(r.nodes, q) == (if q == s.run.runId then s.nodes else NodesOf(db.nodes, q))
            && RowsOf(r.artifacts, ArtifactRun, q)
               == (if q == s.run.runId then s.artifacts else RowsOf(db.artifacts, ArtifactRun, q))
            && RowsOf(r.interrupts, InterruptRun, q)
               == (if q == s.run.runId then s.interrupts else RowsOf(db.interrupts, InterruptRun, q))
            && RowsOf(r.decisions, DecisionRun, q)
               == (if q == s.run.runId then s.decisions else RowsOf(db.decisions, DecisionRun, q))
            && RowsOf(r.sideEffects, SideEffectRun, q)
               == (if q == s.run.runId then s.sideEffects else RowsOf(db.sideEffects, SideEffectRun, q))
            && Storable(r, s)
  {
    hide RowsOf, NodesOf, NodeRows, Covers, CoversNodes;
    var run := s.run.runId;
    NodesReadBack(db.nodes, s.nodes, run, q);
    RowsReadBack(db.artifacts, s.artifacts, ArtifactRun, run, q);
    RowsReadBack(db.interrupts, s.interrupts, InterruptRun, run, q);
    RowsReadBack(db.decisions, s.decisions, DecisionRun, run, q);
    RowsReadBack(db.sideEffects, s.sideEffects, SideEffectRun, run, q);
  }

  /** What was saved is read back. */
  lemma SavedReadsBack(db: StateDb, s: Snapshot)
    requires Storable(db, s)
    ensures Hosts(Save(db, s), s.run.runId) && SnapshotOf(Save(db, s), s.run.runId) == s
    ensures Storable(Save(db, s), s)
  {
    hide RowsOf, NodesOf, NodeRows, Covers, CoversNodes;
    TablesReadBack(db, s, s.run.runId);
  }

  /** The other runs keep their rows; only the thread they may share has changed. */
  ghost predicate OthersKept(before: StateDb, after: StateDb, run: Id, thread: Id) {
    && (forall q | q != run ::
          && (q in after.runs <==> q in before.runs) && (q in after.runs ==> after.runs[q] == before.runs[q])
          && (q in after.runStates <==> q in before.runStates)
          && (q in after.runStates ==> after.runStates[q] == before.runStates[q])
          && SameRows(before, after, q))
    && (forall t | t != thread ::
          && (t in after.threads <==> t in before.threads) && (t in after.threads ==> after.threads[t] == before.threads[t])
          && (t in after.threadStates <==> t in before.threadStates)
          && (t in after.threadStates ==> after.threadStates[t] == before.threadStates[t]))
  }

  lemma SaveKeepsOthers(db: StateDb, s: Snapshot)
    requires Storable(db, s)
    ensures OthersKept(db, Save(db, s), s.run.runId, s.run.threadId)
  {
    hide RowsOf, NodesOf, NodeRows, Covers, CoversNodes;
    forall q | q != s.run.runId ensures SameRows(db, Save(db, s), q) {
      TablesReadBack(db, s, q);
    }
  }

  lemma OthersKeptTwice(a: StateDb, b: StateDb, c: StateDb, run: Id, thread: Id)
    requires OthersKept(a, b, run, thread) && OthersKept(b, c, run, thread)
    ensures OthersKept(a, c, run, thread)
  {
  }

  /* ---- The store ---- */

  class StateStore {
    var threads: map<Id, ThreadRecord>
    var runs: map<Id, RunRecord>
    var threadStates: map<Id, ThreadState>
    var runStates: map<Id, RunState>
    var nodes: map<(Id, NodeId), NodeState>
    var artifacts: map<Id, ArtifactRecord>
    var interrupts: map<Id, InterruptRecord>
    var decisions: map<Id, PolicyDecision>
    var sideEffects: map<Id, SideEffect>

    function Db(): StateDb
      reads this
    {
      StateDb(threads, runs, threadStates, runStates, nodes, artifacts, interrupts, decisions, sideEffects)
    }

    constructor ()
      ensures Db() == StateDb(map[], map[], map[], map[], map[], map[], map[], map[], map[])
    {
      threads, runs, threadStates, runStates := map[], map[], map[], map[];
      nodes, artifacts, interrupts, decisions, sideEffects := map[], map[], map[], map[], map[];
    }

    method SaveThreadRecord(t: ThreadRecord)
      modifies this
      ensures Db() == old(Db()).(threads := old(threads)[t.threadId := t])
    {
      threads := threads[t.threadId := t];
    }

    method SaveRunRecord(r: RunRecord)
      modifies this
      ensures Db() == old(Db()).(runs := old(runs)[r.runId := r])
    {
      runs := runs[r.runId := r];
    }

    method SaveThreadState(t: ThreadState)
      modifies this
      ensures Db() == old(Db()).(threadStates := old(threadStates)[t.threadId := t])
    {
      threadStates := threadStates[t.threadId := t];
    }

    method SaveRunState(r: RunState)
      modifies this
      ensures Db() == old(Db()).(runStates := old(runStates)[r.runId := r])
    {
      runStates := runStates[r.runId := r];
    }

    method SaveNodeState(n: NodeState)
      modifies this
      ensures Db() == old(Db()).(nodes := old(nodes)[(n.runId, n.nodeId) := n])
    {
      nodes := nodes[(n.runId, n.nodeId) := n];
    }

    method SaveArtifact(a: ArtifactRecord)
      modifies this
      ensures Db() == old(Db()).(artifacts := old(artifacts)[a.artifactId := a])
    {
      artifacts := artifacts[a.artifactId := a];
    }

    method SaveInterrupt(i: InterruptRecord)
      modifies this
      ensures Db() == old(Db()).(interrupts := old(interrupts)[i.interruptId := i])
    {
      interrupts := interrupts[i.interruptId := i];
    }

    method SavePolicyDecision(d: PolicyDecision)
      modifies this
      ensures Db() == old(Db()).(decisions := old(decisions)[d.decisionId := d])
    {
      decisions := decisions[d.decisionId := d];
    }

    method SaveSideEffect(e: SideEffect)
      modifies this
      ensures Db() == old(Db()).(sideEffects := old(sideEffects)[e.sideEffectId := e])
    {
      sideEffects := sideEffects[e.sideEffectId := e];
    }

    method BuildSnapshot(run: Id) returns (r: Result<Snapshot, Error>)
      ensures r == if Hosts(Db(), run) then Ok(SnapshotOf(Db(), run)) else Err(KeyError)
    {
      if run !in runs || runs[run].threadId !in threads || run !in runStates || runs[run].threadId !in threadStates {
        return Err(KeyError);
      }
      var thread := runs[run].threadId;
      return Ok(Snapshot(
        threads[thread], runs[run], threadStates[thread], runStates[run],
        NodesOf(nodes, run), RowsOf(artifacts, ArtifactRun, run), RowsOf(interrupts, InterruptRun, run),
        RowsOf(decisions, DecisionRun, run), RowsOf(sideEffects, SideEffectRun, run)));
    }
  }

  /* ---- Persisting a snapshot, row by row ---- */

  ghost predicate RowsSaved<K, V>(before: map<K, V>, now: map<K, V>, table: map<K, V>, todo: set<K>) {
    && now.Keys == before.Keys + (table.Keys - todo)
    && forall k | k in now :: now[k] == if k in table && k !in todo then table[k] else before[k]
  }

  lemma RowSaved<K, V>(before: map<K, V>, now: map<K, V>, table: map<K, V>, todo: set<K>, k: K)
    requires RowsSaved(before, now, table, todo) && k in todo && k in table
    ensures RowsSaved(before, now[k := table[k]], table, todo - {k})
  {
  }

  lemma NoRowSaved<K, V>(before: map<K, V>, table: map<K, V>, todo: set<K>)
    requires table.Keys == todo
    ensures RowsSaved(before, before, table, todo)
  {
  }

  lemma AllRowsSaved<K, V>(before: map<K, V>, now: map<K, V>, table: map<K, V>)
    requires RowsSaved(before, now, table, {})
    ensures now == before + table
  {
  }

  ghost function Keyed(run: Id, nodes: set<NodeId>): set<(Id, NodeId)> {
    set n | n in nodes :: (run, n)
  }

  lemma StillToSave(run: Id, nodes: map<NodeId, NodeState>)
    ensures NodeRows(run, nodes).Keys == Keyed(run, nodes.Keys)
    ensures forall n | n in nodes :: NodeRows(run, nodes)[(run, n)] == nodes[n]
  {
  }

  method PersistNodes(store: StateStore, s: Snapshot)
    requires forall n | n in s.nodes :: s.nodes[n].nodeId == n && s.nodes[n].runId == s.run.runId
    modifies store
    ensures store.Db() == old(store.Db()).(nodes := old(store.nodes) + NodeRows(s.run.runId, s.nodes))
  {
    hide NodeRows, Save, RowsSaved;
    ghost var run := s.run.runId;
    ghost var table := NodeRows(run, s.nodes);
    var todo := s.nodes.Keys;
    StillToSave(run, s.nodes);
    NoRowSaved(store.nodes, table, Keyed(run, todo));
    while todo != {}
      invariant todo <= s.nodes.Keys && store.Db() == old(store.Db()).(nodes := store.nodes)
      invariant RowsSaved(old(store.nodes), store.nodes, table, Keyed(run, todo))
      decreases todo
    {
      var n :| n in todo;
      assert Keyed(run, todo - {n}) == Keyed(run, todo) - {(run, n)};
      RowSaved(old(store.nodes), store.nodes, table, Keyed(run, todo), (run, n));
      store.SaveNodeState(s.nodes[n]);
      todo := todo - {n};
    }
    assert Keyed(run, todo) == {};
    AllRowsSaved(old(store.nodes), store.nodes, table);
  }

  method PersistArtifacts(store: StateStore, s: Snapshot)
    requires forall a | a in s.artifacts :: s.artifacts[a].artifactId == a
    modifies store
    ensures store.Db() == old(store.Db()).(artifacts := old(store.artifacts) + s.artifacts)
  {
    var todo := s.artifacts.Keys;
    while todo != {}
      invariant todo <= s.artifacts.Keys && store.Db() == old(store.Db()).(artifacts := store.artifacts)
      invariant RowsSaved(old(store.artifacts), store.artifacts, s.artifacts, todo)
      decreases todo
    {
      var a :| a in todo;
      store.SaveArtifact(s.artifacts[a]);
      todo := todo - {a};
    }
    AllRowsSaved(old(store.artifacts), store.artifacts, s.artifacts);
  }

  method PersistInterrupts(store: StateStore, s: Snapshot)
    requires forall i | i in s.interrupts :: s.interrupts[i].interruptId == i
    modifies store
    ensures store.Db() == old(store.Db()).(interrupts := old(store.interrupts) + s.interrupts)
  {
    var todo := s.interrupts.Keys;
    while todo != {}
      invariant todo <= s.interrupts.Keys && store.Db() == old(store.Db()).(interrupts := store.interrupts)
      invariant RowsSaved(old(store.interrupts), store.interrupts, s.interrupts, todo)
      decreases todo
    {
      var i :| i in todo;
      store.SaveInterrupt(s.interrupts[i]);
      todo := todo - {i};
    }
    AllRowsSaved(old(store.interrupts), store.interrupts, s.interrupts);
  }

  method PersistDecisions(store: StateStore, s: Snapshot)
    requires forall d | d in s.decisions :: s.decisions[d].decisionId == d
    modifies store
    ensures store.Db() == old(store.Db()).(decisions := old(store.decisions) + s.decisions)
  {
    var todo := s.decisions.Keys;
    while todo != {}
      invariant todo <= s.decisions.Keys && store.Db() == old(store.Db()).(decisions := store.decisions)
      invariant RowsSaved(old(store.decisions), store.decisions, s.decisions, todo)
      decreases todo
    {
      var d :| d in todo;
      store.SavePolicyDecision(s.decisions[d]);
      todo := todo - {d};
    }
    AllRowsSaved(old(store.decisions), store.decisions, s.decisions);
  }

  method PersistSideEffects(store: StateStore, s: Snapshot)
    requires forall e | e in s.sideEffects :: s.sideEffects[e].sideEffectId == e
    modifies store
    ensures store.Db() == old(store.Db()).(sideEffects := old(store.sideEffects) + s.sideEffects)
  {
    var todo := s.sideEffects.Keys;
    while todo != {}
      invariant todo <= s.sideEffects.Keys && store.Db() == old(store.Db()).(sideEffects := store.sideEffects)
      invariant RowsSaved(old(store.sideEffects), store.sideEffects, s.sideEffects, todo)
      decreases todo
    {
      var e :| e in todo;
      store.SaveSideEffect(s.sideEffects[e]);
      todo := todo - {e};
    }
    AllRowsSaved(old(store.sideEffects), store.sideEffects, s.sideEffects);
  }

  /** Every record of the snapshot is saved. */
  method PersistSnapshot(store: StateStore, s: Snapshot)
    requires Coherent(s)
    modifies store
    ensures store.Db() == old(Save(store.Db(), s))
  {
    store.SaveThreadRecord(s.thread);
    store.SaveRunRecord(s.run);
    store.SaveThreadState(s.threadState);
    store.SaveRunState(s.runState);
    PersistNodes(store, s);
    PersistArtifacts(store, s);
    PersistInterrupts(store, s);
    PersistDecisions(store, s);
    PersistSideEffects(store, s);
  }
}
