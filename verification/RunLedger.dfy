/** The whole store as a set of runs: each stored run is a history of its own commands and of what the
    other runs did meanwhile, and no thread has two live runs. */
module RunLedger {
  import opened Common
  import opened Lists
  import opened Models
  import opened Workflow
  import opened Compiler
  import opened ReducerFacts
  import opened Scheduler
  import opened StateStores
  import opened RunMachine
  import opened RunInvariant
  import opened RunLoop
  import opened RunLifecycle
  import opened RunHistory
  import opened RunRecords
  import opened RunThreads
  import opened RunTheorems
  import opened RunWorld

  /** How the runs came about: their compiled workflows by name, what each began with, what each went
      through. */
  datatype Ledger = Ledger(
    flows: map<(Id, Id), Compiled>, starts: map<Id, Start>, commands: map<Id, seq<Command>>)

  ghost predicate FlowsSound(flows: map<(Id, Id), Compiled>) {
    forall k | k in flows :: WellCompiled(flows[k]) && flows[k].workflowId == k.0 && flows[k].version == k.1
  }

  ghost predicate Recorded(ledger: Ledger, w: World, run: Id) {
    && run in ledger.starts && run in ledger.commands && ledger.starts[run].Sound()
    && run in w.state.runs && FlowName(w, run) in ledger.flows
  }

  function FlowName(w: World, run: Id): (Id, Id)
    requires run in w.state.runs
  {
    (w.state.runs[run].workflowId, w.state.runs[run].workflowVersion)
  }

  /** The stored run is the run its history describes. */
  ghost predicate RunFollows(env: Env, config: SchedulerConfig, ledger: Ledger, w: World, run: Id) {
    && Honest(env) && FlowsSound(ledger.flows) && Sane(w) && Hosted(w, run) && Recorded(ledger, w, run)
    && ViewOf(w, run) == RunOf(env, config, ledger.flows[FlowName(w, run)], ledger.starts[run], ledger.commands[run])
  }

  /** The two records of a thread agree, and name only a live run of the thread. */
  ghost predicate ThreadFollows(w: World, t: Id) {
    && t in w.state.threads && t in w.state.threadStates
    && w.state.threads[t].threadId == t && w.state.threadStates[t].threadId == t
    && Unique(w.state.threadStates[t].artifactIds)
    && w.state.threadStates[t].activeRun == w.state.threads[t].currentRun
    && (w.state.threads[t].currentRun.Some? ==>
          var r := w.state.threads[t].currentRun.value;
          r in w.state.runs && w.state.runs[r].threadId == t && !w.state.runs[r].status.Terminal())
  }

  ghost predicate LedgerInv(env: Env, config: SchedulerConfig, ledger: Ledger, w: World) {
    && Honest(env) && FlowsSound(ledger.flows) && Sane(w)
    && (forall r | r in w.state.runs :: RunFollows(env, config, ledger, w, r))
    && (forall t | t in w.state.threads :: ThreadFollows(w, t))
  }

  /* ---- What it says ---- */

  /** In every reachable state: a thread's record and state name the same run, they name one exactly when
      that run is live, and no thread has two live runs. */
  lemma OneLiveRunPerThread(env: Env, config: SchedulerConfig, ledger: Ledger, w: World)
    requires LedgerInv(env, config, ledger, w)
    ensures forall t | t in w.state.threads ::
              && t in w.state.threadStates && w.state.threadStates[t].activeRun == w.state.threads[t].currentRun
    ensures forall r | r in w.state.runs ::
              && w.state.runs[r].threadId in w.state.threads
              && (w.state.threads[w.state.runs[r].threadId].currentRun == Some(r)
                  <==> !w.state.runs[r].status.Terminal())
    ensures forall r, q | r in w.state.runs && q in w.state.runs && w.state.runs[r].threadId == w.state.runs[q].threadId ::
              w.state.runs[r].status.Terminal() || w.state.runs[q].status.Terminal() || r == q
  {
    hide RunFollows, RunInv, Sane, Honest;
    forall r | r in w.state.runs
      ensures && w.state.runs[r].threadId in w.state.threads
              && (w.state.threads[w.state.runs[r].threadId].currentRun == Some(r)
                  <==> !w.state.runs[r].status.Terminal())
    {
      assert RunFollows(env, config, ledger, w, r);
      RunNamed(env, config, ledger, w, r);
    }
  }

  lemma RunNamed(env: Env, config: SchedulerConfig, ledger: Ledger, w: World, r: Id)
    requires RunFollows(env, config, ledger, w, r)
    ensures w.state.runs[r].threadId in w.state.threads
    ensures w.state.threads[w.state.runs[r].threadId].currentRun == Some(r) <==> !w.state.runs[r].status.Terminal()
    ensures w.state.runs[r].runId == r && ViewOf(w, r).Run() == r
    ensures RunInv(ledger.flows[FlowName(w, r)], ViewOf(w, r)) && WellCompiled(ledger.flows[FlowName(w, r)])
  {
    hide RunOf, SnapInv, HistoryOk, IdsBelow, Honest;
    assert RunInv(ledger.flows[FlowName(w, r)], ViewOf(w, r));
    assert ThreadNames(ViewOf(w, r).snap);
  }

  /* ---- Histories by one command more ---- */

  lemma {:induction false} DriveSnoc(env: Env, config: SchedulerConfig, wf: Compiled, v: View, commands: seq<Command>, c: Command)
    requires WellCompiled(wf) && Honest(env) && RunInv(wf, v)
    ensures Drive(env, config, wf, v, commands + [c]) == Obey(env, config, wf, Drive(env, config, wf, v, commands), c)
    decreases |commands|
  {
    hide RunInv, WellCompiled, Honest, Obey;
    if commands == [] {
      assert [] + [c] == [c] && [c][1..] == [];
    } else {
      assert (commands + [c])[0] == commands[0] && (commands + [c])[1..] == commands[1..] + [c];
      DriveSnoc(env, config, wf, Obey(env, config, wf, v, commands[0]), commands[1..], c);
    }
  }

  lemma RunOfSnoc(env: Env, config: SchedulerConfig, wf: Compiled, start: Start, commands: seq<Command>, c: Command)
    requires WellCompiled(wf) && Honest(env) && start.Sound()
    ensures RunOf(env, config, wf, start, commands + [c])
            == Obey(env, config, wf, RunOf(env, config, wf, start, commands), c)
  {
    hide RunInv, WellCompiled, Honest, Obey, Drive, Begin;
    BeginKeeps(wf, env, start.thread, start.threadState, start.nextId);
    DriveSnoc(env, config, wf,
              Loop(env, config, wf, Begin(env, start.thread, start.threadState, wf, start.nextId).view).view, commands, c);
  }

  /** The command that tells a run what others did. */
  function Noticed(w: World, q: Id): Command
    requires Hosted(w, q)
  {
    Others(w.state.threads[w.state.runs[q].threadId], w.state.threadStates[w.state.runs[q].threadId], w.nextId)
  }

  lemma NoticedFollows(env: Env, config: SchedulerConfig, wf: Compiled, w: World, x: World, q: Id)
    requires WellCompiled(wf) && Honest(env) && Sane(w) && Sane(x) && Hosted(w, q) && Hosted(x, q)
    requires RunInv(wf, ViewOf(w, q)) && Elsewhere(ViewOf(w, q), ViewOf(x, q))
    ensures Obey(env, config, wf, ViewOf(w, q), Noticed(x, q)) == ViewOf(x, q)
  {
    hide RunInv, WellCompiled, Honest;
    var v := ViewOf(w, q);
    assert ViewOf(x, q) == Aside(v, ViewOf(x, q).snap.thread, ViewOf(x, q).snap.threadState, x.nextId);
  }

  /** What a change beside a run looks like to it. */
  lemma BesideIsElsewhere(w: World, x: World, q: Id, run: Id, thread: Id)
    requires Sane(w) && Sane(x) && Hosted(w, q) && q != run && Beside(w, x, run, thread)
    requires w.state.runs[q].threadId in x.state.threads && w.state.runs[q].threadId in x.state.threadStates
    requires w.state.runs[q].threadId == thread ==>
      && ViewOf(w, q).snap.run.status.Terminal()
      && var s, t := w.state, x.state;
         && t.threads[thread].threadId == s.threads[thread].threadId
         && t.threadStates[thread].threadId == s.threadStates[thread].threadId
         && s.threads[thread].version <= t.threads[thread].version
         && s.threadStates[thread].version <= t.threadStates[thread].version
         && s.threadStates[thread].artifactIds <= t.threadStates[thread].artifactIds
         && Unique(t.threadStates[thread].artifactIds)
         && t.threadStates[thread].activeRun == t.threads[thread].currentRun
         && t.threads[thread].currentRun != Some(q)
    requires Unique(w.state.threadStates[w.state.runs[q].threadId].artifactIds)
    requires w.state.runs[q].threadId != thread && ViewOf(w, q).snap.run.status.Terminal() ==>
      && w.state.threadStates[w.state.runs[q].threadId].activeRun == w.state.threads[w.state.runs[q].threadId].currentRun
      && w.state.threads[w.state.runs[q].threadId].currentRun != Some(ViewOf(w, q).Run())
    requires ViewOf(w, q).Run() == q
    ensures Hosted(x, q) && FlowName(x, q) == FlowName(w, q) && Elsewhere(ViewOf(w, q), ViewOf(x, q))
  {
    hide NodesOf, RowsOf;
    assert SameRows(w.state, x.state, q);
    assert x.events.Log(q) == w.events.Log(q) && x.checkpoints.Saved(q) == w.checkpoints.Saved(q);
    var v, u := ViewOf(w, q), ViewOf(x, q);
    assert u.snap == v.snap.(thread := u.snap.thread, threadState := u.snap.threadState);
  }

  /* ---- One call later ---- */

  /** Every run but one has noticed what happened. */
  ghost predicate Succeeds(ledger: Ledger, after: Ledger, x: World, run: Id) {
    && after.flows == ledger.flows
    && (forall q | q in ledger.starts && q != run :: q in after.starts && after.starts[q] == ledger.starts[q])
    && (forall q | q in ledger.commands && q != run && Hosted(x, q) ::
          q in after.commands && after.commands[q] == ledger.commands[q] + [Noticed(x, q)])
  }

  /** What one run may do to its thread while the other runs of the thread have ended. */
  ghost predicate HandedOn(w: World, x: World, run: Id, thread: Id) {
    && (forall q | q in w.state.runs && q != run && w.state.runs[q].threadId == thread ::
          w.state.runs[q].status.Terminal())
    && thread in x.state.threads && thread in x.state.threadStates
    && (thread in w.state.threads && thread in w.state.threadStates ==>
          var s, t := w.state, x.state;
          && t.threads[thread].threadId == s.threads[thread].threadId
          && t.threadStates[thread].threadId == s.threadStates[thread].threadId
          && s.threads[thread].version <= t.threads[thread].version
          && s.threadStates[thread].version <= t.threadStates[thread].version
          && s.threadStates[thread].artifactIds <= t.threadStates[thread].artifactIds
          && Unique(t.threadStates[thread].artifactIds)
          && t.threadStates[thread].activeRun == t.threads[thread].currentRun
          && (t.threads[thread].currentRun == None || t.threads[thread].currentRun == Some(run)))
  }

  lemma OtherElsewhere(w: World, x: World, run: Id, thread: Id, q: Id)
    requires Sane(w) && Sane(x) && Hosted(w, q) && q != run && w.state.runs[q].runId == q
    requires ThreadFollows(w, w.state.runs[q].threadId)
    requires w.state.threads[w.state.runs[q].threadId].currentRun == Some(q) <==> !w.state.runs[q].status.Terminal()
    requires Beside(w, x, run, thread) && HandedOn(w, x, run, thread)
    ensures Hosted(x, q) && FlowName(x, q) == FlowName(w, q) && Elsewhere(ViewOf(w, q), ViewOf(x, q))
  {
    hide Elsewhere, Beside, Sane, NodesOf, RowsOf;
    ThreadsKept(w, x, run, thread, w.state.runs[q].threadId);
    BesideIsElsewhere(w, x, q, run, thread);
  }

  lemma NotedFollows(env: Env, config: SchedulerConfig, ledger: Ledger, after: Ledger, w: World, x: World, run: Id, q: Id)
    requires RunFollows(env, config, ledger, w, q) && Sane(x) && q != run && Succeeds(ledger, after, x, run)
    requires Hosted(x, q) && FlowName(x, q) == FlowName(w, q) && Elsewhere(ViewOf(w, q), ViewOf(x, q))
    ensures RunFollows(env, config, after, x, q)
  {
    hide RunOf, RunInv, Sane, Honest, Elsewhere, Obey, WellCompiled;
    var wf := ledger.flows[FlowName(w, q)];
    NoticedFollows(env, config, wf, w, x, q);
    RunOfSnoc(env, config, wf, ledger.starts[q], ledger.commands[q], Noticed(x, q));
  }

  lemma OtherFollows(env: Env, config: SchedulerConfig, ledger: Ledger, after: Ledger, w: World, x: World, run: Id,
                     thread: Id, q: Id)
    requires LedgerInv(env, config, ledger, w) && Sane(x) && q in x.state.runs && q != run
    requires Beside(w, x, run, thread) && HandedOn(w, x, run, thread) && Succeeds(ledger, after, x, run)
    ensures RunFollows(env, config, after, x, q)
  {
    hide RunFollows, RunInv, Sane, Honest, Elsewhere, ThreadFollows, HandedOn, Succeeds;
    assert q in w.state.runs;
    assert RunFollows(env, config, ledger, w, q);
    RunNamed(env, config, ledger, w, q);
    assert ThreadFollows(w, w.state.runs[q].threadId);
    FollowsHosted(env, config, ledger, w, q);
    OtherElsewhere(w, x, run, thread, q);
    NotedFollows(env, config, ledger, after, w, x, run, q);
  }

  lemma FollowsHosted(env: Env, config: SchedulerConfig, ledger: Ledger, w: World, q: Id)
    requires RunFollows(env, config, ledger, w, q)
    ensures Hosted(w, q) && Recorded(ledger, w, q)
  {
  }

  lemma ThreadsKept(w: World, x: World, run: Id, thread: Id, t: Id)
    requires Beside(w, x, run, thread) && HandedOn(w, x, run, thread)
    requires t in w.state.threads && t in w.state.threadStates
    ensures t in x.state.threads && t in x.state.threadStates
    ensures t != thread ==> x.state.threads[t] == w.state.threads[t] && x.state.threadStates[t] == w.state.threadStates[t]
  {
  }

  /** The other threads still name what they named. */
  lemma OtherThreadFollows(env: Env, config: SchedulerConfig, ledger: Ledger, w: World, x: World, run: Id, thread: Id, t: Id)
    requires LedgerInv(env, config, ledger, w) && t in x.state.threads && t != thread
    requires Beside(w, x, run, thread) && HandedOn(w, x, run, thread)
    requires run in w.state.runs ==> w.state.runs[run].threadId == thread
    ensures ThreadFollows(x, t)
  {
    hide Sane, Honest, RunFollows, SameRows;
    assert ThreadFollows(w, t);
  }

  /** All runs and threads, when one run has done something of its own. */
  lemma AllFollow(env: Env, config: SchedulerConfig, ledger: Ledger, after: Ledger, w: World, x: World, run: Id, thread: Id)
    requires LedgerInv(env, config, ledger, w) && Sane(x)
    requires Beside(w, x, run, thread) && HandedOn(w, x, run, thread) && Succeeds(ledger, after, x, run)
    requires run in w.state.runs ==> w.state.runs[run].threadId == thread
    requires run in x.state.runs ==> RunFollows(env, config, after, x, run)
    requires ThreadFollows(x, thread)
    ensures LedgerInv(env, config, after, x)
  {
    hide RunFollows, ThreadFollows, HandedOn, Sane, Honest, LedgerInv, Beside;
    forall r | r in x.state.runs && r != run ensures RunFollows(env, config, after, x, r) {
      OtherFollows(env, config, ledger, after, w, x, run, thread, r);
    }
    forall t | t in x.state.threads && t != thread ensures ThreadFollows(x, t) {
      OtherThreadFollows(env, config, ledger, w, x, run, thread, t);
    }
    SoundAfter(env, config, ledger, w, after, x);
    LedgerOf(env, config, after, x, run, thread);
  }

  lemma SoundAfter(env: Env, config: SchedulerConfig, ledger: Ledger, w: World, after: Ledger, x: World)
    requires LedgerInv(env, config, ledger, w) && after.flows == ledger.flows
    ensures Honest(env) && FlowsSound(after.flows)
  {
  }

  lemma LedgerOf(env: Env, config: SchedulerConfig, ledger: Ledger, x: World, run: Id, thread: Id)
    requires Honest(env) && FlowsSound(ledger.flows) && Sane(x)
    requires forall r | r in x.state.runs && r != run :: RunFollows(env, config, ledger, x, r)
    requires run in x.state.runs ==> RunFollows(env, config, ledger, x, run)
    requires forall t | t in x.state.threads && t != thread :: ThreadFollows(x, t)
    requires ThreadFollows(x, thread)
    ensures LedgerInv(env, config, ledger, x)
  {
    hide RunFollows, ThreadFollows, Sane, Honest, FlowsSound;
  }

  /* ---- A command on a live run ---- */

  lemma ObeyGrows(env: Env, config: SchedulerConfig, wf: Compiled, v: View, c: Command)
    requires WellCompiled(wf) && Honest(env) && RunInv(wf, v)
    ensures Extended(v, Obey(env, config, wf, v, c))
  {
    hide RunInv, WellCompiled, Honest, Obey, Extended;
    HistoryOnlyGrows(env, config, wf, v, [c]);
    assert [c][1..] == [];
    assert Drive(env, config, wf, Obey(env, config, wf, v, c), []) == Obey(env, config, wf, v, c);
  }

  function AfterCommand(ledger: Ledger, x: World, run: Id, c: Command): Ledger {
    ledger.(commands := map q | q in ledger.commands ::
      ledger.commands[q] + if q == run then [c] else if Hosted(x, q) then [Noticed(x, q)] else [])
  }

  /** The thread and names of a run after a command of its own. */
  lemma ObeyKeepsNames(env: Env, config: SchedulerConfig, wf: Compiled, v: View, u: View, c: Command)
    requires WellCompiled(wf) && Honest(env) && RunInv(wf, v) && !c.Others? && u == Obey(env, config, wf, v, c)
    requires !v.snap.run.status.Terminal()
    ensures RunInv(wf, u) && u.Run() == v.Run() && u.snap.run.threadId == v.snap.run.threadId
    ensures u.snap.run.workflowId == v.snap.run.workflowId && u.snap.run.workflowVersion == v.snap.run.workflowVersion
    ensures ThreadMoves(v.snap, u.snap) && Extended(v, u) && Unique(u.snap.threadState.artifactIds)
    ensures u.snap.thread.currentRun == None || u.snap.thread.currentRun == Some(v.Run())
    ensures v.snap.thread.currentRun == Some(v.Run())
    ensures u.snap.threadState.activeRun == u.snap.thread.currentRun
    ensures u.snap.thread.currentRun == Some(u.Run()) <==> !u.snap.run.status.Terminal()
  {
    hide WellCompiled, Honest, Obey, HistoryOk, AttemptsBounded, Trails, IndexesAgree, ListsAgree, Extended;
    ObeyMovesThread(env, config, wf, v, c);
    ObeyGrows(env, config, wf, v, c);
  }

  lemma HandsOn(w: World, x: World, run: Id)
    requires Sane(w) && Sane(x) && Hosted(w, run) && Hosted(x, run)
    requires forall q | q in w.state.runs && q != run && w.state.runs[q].threadId == w.state.runs[run].threadId ::
               w.state.runs[q].status.Terminal()
    requires var v, u := ViewOf(w, run), ViewOf(x, run);
             && u.snap.run.threadId == v.snap.run.threadId
             && ThreadMoves(v.snap, u.snap) && NotOlder(v.snap, u.snap) && Unique(u.snap.threadState.artifactIds)
             && (u.snap.thread.currentRun == None || u.snap.thread.currentRun == Some(run))
             && u.snap.threadState.activeRun == u.snap.thread.currentRun
    ensures HandedOn(w, x, run, w.state.runs[run].threadId)
  {
    hide NodesOf, RowsOf, Sane;
  }

  /** The other runs of a live run's thread have ended. */
  lemma OthersHaveEnded(env: Env, config: SchedulerConfig, ledger: Ledger, w: World, run: Id)
    requires LedgerInv(env, config, ledger, w) && run in w.state.runs && !w.state.runs[run].status.Terminal()
    ensures forall q | q in w.state.runs && q != run && w.state.runs[q].threadId == w.state.runs[run].threadId ::
              w.state.runs[q].status.Terminal()
  {
    OneLiveRunPerThread(env, config, ledger, w);
  }

  lemma CommandFollows(env: Env, config: SchedulerConfig, ledger: Ledger, w: World, x: World, run: Id, c: Command)
    requires RunFollows(env, config, ledger, w, run) && Sane(x) && Hosted(x, run) && FlowName(x, run) == FlowName(w, run)
    requires var wf := ledger.flows[FlowName(w, run)];
             ViewOf(x, run) == Obey(env, config, wf, RunOf(env, config, wf, ledger.starts[run], ledger.commands[run]), c)
    ensures RunFollows(env, config, AfterCommand(ledger, x, run, c), x, run)
    ensures Succeeds(ledger, AfterCommand(ledger, x, run, c), x, run)
  {
    hide RunOf, RunInv, Sane, Honest, Obey, WellCompiled;
    RunOfSnoc(env, config, ledger.flows[FlowName(w, run)], ledger.starts[run], ledger.commands[run], c);
  }

  lemma SameNames(w: World, x: World, run: Id)
    requires Sane(w) && Sane(x) && Hosted(w, run) && Hosted(x, run)
    requires var v, u := ViewOf(w, run), ViewOf(x, run);
             && u.snap.run.threadId == v.snap.run.threadId
             && u.snap.run.workflowId == v.snap.run.workflowId && u.snap.run.workflowVersion == v.snap.run.workflowVersion
    ensures FlowName(x, run) == FlowName(w, run) && x.state.runs[run].threadId == w.state.runs[run].threadId
  {
    hide Sane;
  }

  /** What the view of a run says about the stores. */
  lemma ViewNames(x: World, run: Id)
    requires Sane(x) && Hosted(x, run)
    ensures var u, thread := ViewOf(x, run), x.state.runs[run].threadId;
            && u.snap.run == x.state.runs[run] && u.snap.thread == x.state.threads[thread]
            && u.snap.threadState == x.state.threadStates[thread] && u.Run() == run
            && u.snap.thread.threadId == thread
  {
  }

  lemma ObeyedThreadFollows(x: World, run: Id, wf: Compiled)
    requires Sane(x) && Hosted(x, run) && RunInv(wf, ViewOf(x, run))
    requires var u := ViewOf(x, run); u.snap.thread.currentRun == None || u.snap.thread.currentRun == Some(run)
    ensures ThreadFollows(x, x.state.runs[run].threadId)
  {
    hide HistoryOk, AttemptsBounded, Trails, IndexesAgree, ListsAgree, SnapshotOf;
    ViewNames(x, run);
  }

  lemma CommandKeepsLedger(env: Env, config: SchedulerConfig, ledger: Ledger, w: World, x: World, run: Id, c: Command)
    requires LedgerInv(env, config, ledger, w) && run in w.state.runs && Hosted(w, run) && Sane(x) && Hosted(x, run)
    requires !w.state.runs[run].status.Terminal() && !c.Others?
    requires FlowName(w, run) in ledger.flows && WellCompiled(ledger.flows[FlowName(w, run)])
    requires RunInv(ledger.flows[FlowName(w, run)], ViewOf(w, run))
    requires Beside(w, x, run, w.state.runs[run].threadId)
    requires ViewOf(x, run) == Obey(env, config, ledger.flows[FlowName(w, run)], ViewOf(w, run), c)
    ensures LedgerInv(env, config, AfterCommand(ledger, x, run, c), x) && CheckpointsKept(w, x)
  {
    hide RunFollows, ThreadFollows, HandedOn, Sane, Honest, Beside, Obey, RunInv, WellCompiled, SnapshotOf, Succeeds,
         CheckpointsKept, AfterCommand, LedgerInv, Extended, NotOlder, ThreadMoves;
    var wf := ledger.flows[FlowName(w, run)];
    LedgerParts(env, config, ledger, w, run);
    ViewNames(w, run);
    ViewNames(x, run);
    ObeyKeepsNames(env, config, wf, ViewOf(w, run), ViewOf(x, run), c);
    ExtendedNotOlder(ViewOf(w, run), ViewOf(x, run));
    SameNames(w, x, run);
    OthersHaveEnded(env, config, ledger, w, run);
    HandsOn(w, x, run);
    FollowsView(env, config, ledger, w, run);
    CommandFollows(env, config, ledger, w, x, run, c);
    ObeyedThreadFollows(x, run, wf);
    CommandKeepsCheckpoints(wf, env, config, w, x, run, c);
    AllFollow(env, config, ledger, AfterCommand(ledger, x, run, c), w, x, run, w.state.runs[run].threadId);
  }

  /** A command on a stored run keeps every checkpoint of every run. */
  lemma CommandKeepsCheckpoints(wf: Compiled, env: Env, config: SchedulerConfig, w: World, x: World, run: Id, c: Command)
    requires Sane(w) && Hosted(w, run) && Sane(x) && Hosted(x, run) && Beside(w, x, run, w.state.runs[run].threadId)
    requires WellCompiled(wf) && Honest(env) && RunInv(wf, ViewOf(w, run))
    requires ViewOf(x, run) == Obey(env, config, wf, ViewOf(w, run), c)
    ensures CheckpointsKept(w, x)
  {
    hide RunInv, WellCompiled, Honest, Obey, Sane, Beside, SnapshotOf, NotOlder, Hosted;
    ObeyGrows(env, config, wf, ViewOf(w, run), c);
    SavedOfView(w, run);
    SavedOfView(x, run);
    BesideKeepsCheckpoints(w, x, run, w.state.runs[run].threadId);
  }

  lemma SavedOfView(w: World, run: Id)
    requires Sane(w) && Hosted(w, run)
    ensures w.checkpoints.Valid() && ViewOf(w, run).saved == w.checkpoints.Saved(run) && run in w.state.runs
  {
  }

  lemma StartKeepsCheckpoints(w: World, x: World, thread: Id)
    requires Sane(w) && Sane(x) && Beside(w, x, Id(w.nextId), thread)
    ensures CheckpointsKept(w, x)
  {
    hide StateSane, Beside;
    assert w.checkpoints.IdsOf(Id(w.nextId)) == [];
    BesideKeepsCheckpoints(w, x, Id(w.nextId), thread);
  }

  lemma LedgerParts(env: Env, config: SchedulerConfig, ledger: Ledger, w: World, run: Id)
    requires LedgerInv(env, config, ledger, w) && run in w.state.runs
    ensures Honest(env) && Sane(w) && RunFollows(env, config, ledger, w, run)
  {
  }

  lemma FollowsView(env: Env, config: SchedulerConfig, ledger: Ledger, w: World, run: Id)
    requires RunFollows(env, config, ledger, w, run)
    ensures Hosted(w, run) && Recorded(ledger, w, run) && Sane(w) && Honest(env) && FlowsSound(ledger.flows)
    ensures ViewOf(w, run) == RunOf(env, config, ledger.flows[FlowName(w, run)], ledger.starts[run], ledger.commands[run])
  {
  }

  lemma ExtendedNotOlder(v: View, u: View)
    requires Extended(v, u)
    ensures NotOlder(v.snap, u.snap)
  {
  }

  /* ---- A new run ---- */

  function AfterStart(ledger: Ledger, w: World, x: World, run: Id, thread: Id): Ledger
    requires thread in w.state.threads && thread in w.state.threadStates
  {
    ledger.(
      starts := ledger.starts[run := Start(w.state.threads[thread], w.state.threadStates[thread], w.nextId)],
      commands := (map q | q in ledger.commands ::
        ledger.commands[q] + if q != run && Hosted(x, q) then [Noticed(x, q)] else [])[run := []])
  }

  /** What a run has done to its thread when its first loop ends. */
  ghost predicate TookOver(thread: ThreadRecord, threadState: ThreadState, run: Id, u: View) {
    && u.Run() == run && u.snap.run.threadId == thread.threadId == u.snap.thread.threadId
    && u.snap.threadState.threadId == threadState.threadId
    && thread.version <= u.snap.thread.version && threadState.version <= u.snap.threadState.version
    && threadState.artifactIds <= u.snap.threadState.artifactIds && Unique(u.snap.threadState.artifactIds)
    && (u.snap.thread.currentRun == None || u.snap.thread.currentRun == Some(run))
    && u.snap.threadState.activeRun == u.snap.thread.currentRun
  }

  lemma BeginTakesOver(wf: Compiled, env: Env, thread: ThreadRecord, threadState: ThreadState, nextId: nat)
    requires WellCompiled(wf)
    ensures var b := Begin(env, thread, threadState, wf, nextId).view;
            && b.snap.thread.threadId == thread.threadId && b.snap.threadState.threadId == threadState.threadId
            && b.snap.thread.currentRun == Some(Id(nextId))
            && thread.version <= b.snap.thread.version && threadState.version <= b.snap.threadState.version
            && b.snap.threadState.artifactIds == threadState.artifactIds
  {
    hide WellCompiled;
    var run := Id(nextId);
    var empty := EmptySnapshot(thread, threadState, run, wf);
    BeginApplies(thread, threadState, run, wf);
    CommitStamps(env, View(empty, [], [], nextId + 1), empty, InitialPatch(run, wf), InitialKinds(wf));
  }

  lemma LoopExtends(env: Env, config: SchedulerConfig, wf: Compiled, v: View)
    requires WellCompiled(wf) && Honest(env) && Decidable(wf, v)
    ensures Extended(v, Loop(env, config, wf, v).view)
  {
    hide WellCompiled, Honest, RunInv, NotOlder, CommitsRelate;
    CommitsExtend(env);
    CommitsGiveLoopSteps(env, config, wf, (v: View, w: View) => Extended(v, w));
    LoopRelates(env, config, wf, v, (v: View, w: View) => Extended(v, w));
  }

  lemma StartTakesOver(env: Env, config: SchedulerConfig, wf: Compiled, start: Start, u: View)
    requires WellCompiled(wf) && Honest(env) && start.Sound()
    requires u == RunOf(env, config, wf, start, [])
    ensures TookOver(start.thread, start.threadState, Id(start.nextId), u)
    ensures RunInv(wf, u) && u.snap.run.workflowId == wf.workflowId && u.snap.run.workflowVersion == wf.version
  {
    hide WellCompiled, Honest, Begin, Loop, HistoryOk, AttemptsBounded, Trails, IndexesAgree, ListsAgree;
    BeginKeeps(wf, env, start.thread, start.threadState, start.nextId);
    BeginTakesOver(wf, env, start.thread, start.threadState, start.nextId);
    var b := Begin(env, start.thread, start.threadState, wf, start.nextId).view;
    LoopMovesThread(env, config, wf, b);
    LoopExtends(env, config, wf, b);
  }

  lemma TakesOver(env: Env, config: SchedulerConfig, ledger: Ledger, w: World, x: World, run: Id, thread: Id)
    requires LedgerInv(env, config, ledger, w) && Sane(x) && Hosted(x, run)
    requires thread in w.state.threads && w.state.threads[thread].currentRun == None && x.state.runs[run].threadId == thread
    requires thread in w.state.threadStates
    requires TookOver(w.state.threads[thread], w.state.threadStates[thread], run, ViewOf(x, run))
    ensures HandedOn(w, x, run, thread)
  {
    hide RunFollows, Sane, Honest;
    OneLiveRunPerThread(env, config, ledger, w);
    assert ThreadFollows(w, thread);
    ViewNames(x, run);
  }

  lemma StartSucceeds(ledger: Ledger, w: World, x: World, run: Id, thread: Id)
    requires thread in w.state.threads && thread in w.state.threadStates
    ensures var after := AfterStart(ledger, w, x, run, thread);
            && Succeeds(ledger, after, x, run) && after.flows == ledger.flows
            && run in after.starts && run in after.commands
            && after.starts[run] == Start(w.state.threads[thread], w.state.threadStates[thread], w.nextId)
            && after.commands[run] == []
  {
    hide Hosted;
  }

  lemma StartFollows(env: Env, config: SchedulerConfig, after: Ledger, x: World, run: Id)
    requires Honest(env) && FlowsSound(after.flows) && Sane(x) && Hosted(x, run) && Recorded(after, x, run)
    requires after.commands[run] == []
    requires ViewOf(x, run) == RunOf(env, config, after.flows[FlowName(x, run)], after.starts[run], [])
    ensures RunFollows(env, config, after, x, run)
  {
    hide RunOf, Sane, Honest, WellCompiled, ViewOf;
  }

  lemma StartKeepsLedger(env: Env, config: SchedulerConfig, ledger: Ledger, w: World, x: World, thread: Id, name: (Id, Id))
    requires LedgerInv(env, config, ledger, w) && Sane(x) && Hosted(x, Id(w.nextId)) && Id(w.nextId) !in w.state.runs
    requires thread in w.state.threads && thread in w.state.threadStates && w.state.threads[thread].currentRun == None
    requires name in ledger.flows && WellCompiled(ledger.flows[name])
    requires Start(w.state.threads[thread], w.state.threadStates[thread], w.nextId).Sound()
    requires Beside(w, x, Id(w.nextId), thread)
    requires ViewOf(x, Id(w.nextId))
             == RunOf(env, config, ledger.flows[name],
                      Start(w.state.threads[thread], w.state.threadStates[thread], w.nextId), [])
    ensures LedgerInv(env, config, AfterStart(ledger, w, x, Id(w.nextId), thread), x)
  {
    hide RunFollows, ThreadFollows, HandedOn, Sane, Honest, Beside, RunInv, WellCompiled, SnapshotOf, Succeeds,
         AfterStart, LedgerInv, RunOf, FlowsSound, ViewOf;
    var run := Id(w.nextId);
    var start := Start(w.state.threads[thread], w.state.threadStates[thread], w.nextId);
    SoundAfter(env, config, ledger, w, ledger, x);
    FlowNamed(ledger.flows, name);
    StartTakesOver(env, config, ledger.flows[name], start, ViewOf(x, run));
    ViewNames(x, run);
    KnownThread(env, config, ledger, w, thread);
    TakesOver(env, config, ledger, w, x, run, thread);
    StartSucceeds(ledger, w, x, run, thread);
    StartFollows(env, config, AfterStart(ledger, w, x, run, thread), x, run);
    ObeyedThreadFollows(x, run, ledger.flows[name]);
    AllFollow(env, config, ledger, AfterStart(ledger, w, x, run, thread), w, x, run, thread);
  }

  lemma FlowNamed(flows: map<(Id, Id), Compiled>, name: (Id, Id))
    requires FlowsSound(flows) && name in flows
    ensures (flows[name].workflowId, flows[name].version) == name
  {
  }

  lemma KnownThread(env: Env, config: SchedulerConfig, ledger: Ledger, w: World, thread: Id)
    requires LedgerInv(env, config, ledger, w) && thread in w.state.threads
    ensures thread in w.state.threadStates && w.state.threads[thread].threadId == thread
    ensures w.state.threadStates[thread].threadId == thread && Unique(w.state.threadStates[thread].artifactIds)
  {
    assert ThreadFollows(w, thread);
  }

  /* ---- A new thread, a new workflow ---- */

  function AfterCreate(ledger: Ledger, x: World): Ledger {
    ledger.(commands := map q | q in ledger.commands ::
      ledger.commands[q] + if Hosted(x, q) then [Noticed(x, q)] else [])
  }

  lemma CreateKeepsLedger(env: Env, config: SchedulerConfig, ledger: Ledger, w: World, x: World, thread: Id)
    requires LedgerInv(env, config, ledger, w) && Sane(x)
    requires thread !in w.state.runs && thread !in x.state.runs && thread !in w.state.threads
    requires Beside(w, x, thread, thread) && ThreadFollows(x, thread)
    ensures LedgerInv(env, config, AfterCreate(ledger, x), x)
  {
    hide RunFollows, Sane, Honest, LedgerInv, Beside, ThreadFollows;
    OneLiveRunPerThread(env, config, ledger, w);
    assert Succeeds(ledger, AfterCreate(ledger, x), x, thread);
    NewThreadHandedOn(w, x, thread);
    AllFollow(env, config, ledger, AfterCreate(ledger, x), w, x, thread, thread);
  }

  lemma NewThreadHandedOn(w: World, x: World, thread: Id)
    requires thread !in w.state.threads && ThreadFollows(x, thread)
    requires forall q | q in w.state.runs :: w.state.runs[q].threadId in w.state.threads
    ensures HandedOn(w, x, thread, thread)
  {
  }

  lemma FlowKeepsLedger(env: Env, config: SchedulerConfig, ledger: Ledger, w: World, flows: map<(Id, Id), Compiled>)
    requires LedgerInv(env, config, ledger, w) && FlowsSound(flows) && Extends(ledger.flows, flows)
    ensures LedgerInv(env, config, ledger.(flows := flows), w)
  {
    hide Sane, Honest, WellCompiled, RunOf, ThreadFollows;
    forall r | r in w.state.runs ensures RunFollows(env, config, ledger.(flows := flows), w, r) {
      assert RunFollows(env, config, ledger, w, r);
    }
  }
}
