/** The order in which a dispatched batch starts its nodes, as the log tells it. */
module BatchOrder {
  import opened Common
  import opened Models
  import opened Workflow
  import opened Events
  import opened RunMachine
  import opened RunInvariant
  import opened RunLoop
  import opened RunEffects
  import opened CommandEffects

  /** The nodes whose starts a log tells, in its order. */
  function StartedNodes(kinds: seq<EventKind>): seq<NodeId> {
    if kinds == [] then []
    else (if kinds[0].NodeStarted? then [kinds[0].node] else []) + StartedNodes(kinds[1..])
  }

  lemma {:induction false} StartedNodesAppend(a: seq<EventKind>, b: seq<EventKind>)
    ensures StartedNodes(a + b) == StartedNodes(a) + StartedNodes(b)
    decreases |a|
  {
    if a == [] {
      assert a + b == b;
    } else {
      assert (a + b)[0] == a[0] && (a + b)[1..] == a[1..] + b;
      StartedNodesAppend(a[1..], b);
      var head := if a[0].NodeStarted? then [a[0].node] else [];
      assert StartedNodes(a + b) == head + StartedNodes(a[1..] + b);
      assert (head + StartedNodes(a[1..])) + StartedNodes(b) == head + (StartedNodes(a[1..]) + StartedNodes(b));
    }
  }

  lemma {:induction false} NoneStarted(kinds: seq<EventKind>)
    requires forall k | k in kinds :: !k.NodeStarted?
    ensures StartedNodes(kinds) == []
  {
    if kinds != [] {
      assert kinds[0] in kinds;
      NoneStarted(kinds[1..]);
    }
  }

  function StartsIn(v: View): seq<NodeId> {
    StartedNodes(Kinds(v.log))
  }

  lemma ToldStarts(before: seq<Event>, after: seq<Event>, run: RunRecord, kinds: seq<EventKind>)
    requires Told(before, after, run, kinds)
    ensures StartedNodes(Kinds(after)) == StartedNodes(Kinds(before)) + StartedNodes(kinds)
  {
    assert Kinds(after) == Kinds(before) + kinds;
    StartedNodesAppend(Kinds(before), kinds);
  }

  lemma LeftStarts(env: Env, v: View, t: Snapshot, kinds: seq<EventKind>, w: View)
    requires Left(env, v, t, kinds, w)
    ensures StartsIn(w) == StartsIn(v) + StartedNodes(kinds)
  {
    ToldStarts(v.log, w.log, t.run, kinds);
  }

  lemma FinishStartsNone(wf: Compiled, v: View, n: NodeId, r: NodeResult, w: View)
    requires Finishes(wf, v, n, r, w)
    ensures StartsIn(w) == StartsIn(v)
  {
    hide Delivered, Told;
    var kinds := ToldKinds(n, r);
    NoneStarted(kinds);
    NoneStarted(kinds + [RunFailure(NodeFailure(r.error))]);
    if r.status == Failed {
      ToldStarts(v.log, w.log, v.snap.run, kinds + [RunFailure(NodeFailure(r.error))]);
    } else {
      ToldStarts(v.log, w.log, v.snap.run, kinds);
    }
  }

  lemma ProceedStartsNone(env: Env, wf: Compiled, u: View, n: NodeId, r: Stepped)
    requires Proceeds(env, wf, u, n, r)
    ensures StartsIn(r.view) == StartsIn(u)
  {
    hide Finishes, Told;
    if env.selectsInput(u.snap, n) {
      var o := env.execute(u.snap, n, u.nextId);
      var w :| Meanwhile(u, o, w) && if o.result == None then r == Stepped(w, true)
                                     else !r.raised && Finishes(wf, w, n, o.result.value, r.view);
      NoneStarted(Externals(o.emitted));
      ToldStarts(u.log, w.log, u.snap.run, Externals(o.emitted));
      if o.result.Some? {
        FinishStartsNone(wf, w, n, o.result.value, r.view);
      }
    }
  }

  /** One execution starts its node and no other, or ends the run, or raises. */
  lemma ExecutionStarts(env: Env, wf: Compiled, v: View, n: NodeId, r: Stepped)
    requires Executes(env, wf, v, n, r)
    ensures StartsIn(r.view) == StartsIn(v) + [n] || (StartsIn(r.view) == StartsIn(v)
                                                      && (r.raised || r.view.snap.run.status == RunFailed))
  {
    hide Left, Proceeds, Starts;
    if !env.canExecute(v.snap, n) {
      var t :| Ended(v.snap, RunFailed, Some(ExecutorNotAvailable), t)
               && Left(env, v, t, [RunFailure(ExecutorNotAvailable)], r.view);
      LeftStarts(env, v, t, [RunFailure(ExecutorNotAvailable)], r.view);
      NoneStarted([RunFailure(ExecutorNotAvailable)]);
      LeftStatus(env, v, t, [RunFailure(ExecutorNotAvailable)], r.view);
    } else if env.selectsInput(v.snap, n) {
      var t, u :| Starts(v.snap, n, t) && Left(env, v, t, [NodeStarted(n)], u) && Proceeds(env, wf, u, n, r);
      LeftStarts(env, v, t, [NodeStarted(n)], u);
      assert StartedNodes([NodeStarted(n)][1..]) == [];
      ProceedStartsNone(env, wf, u, n, r);
    }
  }

  lemma LeftStatus(env: Env, v: View, t: Snapshot, kinds: seq<EventKind>, w: View)
    requires Left(env, v, t, kinds, w)
    ensures w.snap.run == t.run
  {
  }

  /** A batch starts its nodes in the order of the dispatch, none twice and none between; it gets to the end
      of the list unless it raises or a failure ends the run. */
  lemma {:induction false} BatchStartsInOrder(wf: Compiled, env: Env, v: View, nodes: seq<NodeId>) returns (k: nat)
    requires Honest(env) && Decidable(wf, v)
    requires v.snap.run.status.Terminal() || AllMayStart(wf, v.snap, nodes)
    ensures var r := RunBatch(env, wf, v, nodes);
            && k <= |nodes| && StartsIn(r.view) == StartsIn(v) + nodes[..k]
            && (k == |nodes| || r.raised || r.view.snap.run.status.Terminal())
    decreases |nodes|
  {
    hide Honest, RunInv, ExecuteNode, Executes, HasTrail, StartedNodes, Kinds;
    k := 0;
    if nodes != [] && !v.snap.run.status.Terminal() {
      assert nodes[0] in nodes;
      BatchStep(wf, env, v, nodes[0]);
      ExecutionDelivers(wf, env, v, nodes[0]);
      var r := ExecuteNode(env, wf, v, nodes[0]);
      ExecutionStarts(env, wf, v, nodes[0], r);
      RestMayStart(wf, v.snap, r.view.snap, nodes);
      if !r.raised {
        k := BatchStartsInOrder(wf, env, r.view, nodes[1..]);
        if StartsIn(r.view) == StartsIn(v) + [nodes[0]] {
          assert nodes[..k + 1] == [nodes[0]] + nodes[1..][..k];
          k := k + 1;
        } else {
          assert RunBatch(env, wf, r.view, nodes[1..]) == Stepped(r.view, false);
          k := 0;
        }
      } else if StartsIn(r.view) == StartsIn(v) + [nodes[0]] {
        k := 1;
        assert nodes[..1] == [nodes[0]];
      }
    }
  }
}
