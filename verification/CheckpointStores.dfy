/** The in-memory checkpoint store. */
module CheckpointStores {
  import opened Common
  import opened Lists
  import opened Models
  import opened Events

  datatype CheckpointDb = CheckpointDb(
    checkpoints: map<Id, Checkpoint>, payloads: map<Id, Payload>, idsByRun: map<Id, seq<Id>>)
  {
    function IdsOf(run: Id): seq<Id> {
      if run in idsByRun then idsByRun[run] else []
    }

    /** Every listed id has its checkpoint and its payload. */
    ghost predicate Valid() {
      && checkpoints.Keys == payloads.Keys
      && forall r, k :: r in idsByRun && 0 <= k < |idsByRun[r]| ==>
           idsByRun[r][k] in checkpoints && checkpoints[idsByRun[r][k]].checkpointId == idsByRun[r][k]
           && checkpoints[idsByRun[r][k]].runId == r
    }

    /** The run's checkpoints with their payloads, in creation order. */
    function Saved(run: Id): (r: seq<(Checkpoint, Payload)>)
      requires Valid()
      ensures |r| == |IdsOf(run)|
    {
      seq(|IdsOf(run)|, k requires 0 <= k < |IdsOf(run)| => (checkpoints[IdsOf(run)[k]], payloads[IdsOf(run)[k]]))
    }
  }

  /** What the store checks: the records of the payload agree on run and thread. */
  predicate Consistent(c: Checkpoint, p: Payload) {
    && c.runId == p.run.runId && c.threadId == p.thread.threadId
    && p.run.threadId == p.thread.threadId
    && p.runState.runId == p.run.runId && p.runState.threadId == p.thread.threadId
    && p.threadState.threadId == p.thread.threadId
    && forall n | n in p.nodes :: p.nodes[n].runId == p.run.runId
  }

  function ThreadIds(p: Payload): set<Id> {
    {p.thread.threadId, p.run.threadId, p.threadState.threadId, p.runState.threadId}
  }

  function RunIds(p: Payload): set<Id> {
    {p.run.runId, p.runState.runId} + set n | n in p.nodes :: p.nodes[n].runId
  }

  /** A payload is consistent when its records name one thread and one run, those of the checkpoint. */
  lemma ConsistentIff(c: Checkpoint, p: Payload)
    ensures Consistent(c, p) <==> ThreadIds(p) == {c.threadId} && RunIds(p) == {c.runId}
  {
    assert p.thread.threadId in ThreadIds(p) && p.run.threadId in ThreadIds(p);
    assert p.threadState.threadId in ThreadIds(p) && p.runState.threadId in ThreadIds(p);
    assert p.run.runId in RunIds(p) && p.runState.runId in RunIds(p);
    assert forall n | n in p.nodes :: p.nodes[n].runId in RunIds(p);
  }

  function Store(db: CheckpointDb, c: Checkpoint, p: Payload): CheckpointDb {
    CheckpointDb(db.checkpoints[c.checkpointId := c], db.payloads[c.checkpointId := p],
                 db.idsByRun[c.runId := db.IdsOf(c.runId) + [c.checkpointId]])
  }

  /** Storing under a new id adds one pair to its run and leaves the other runs alone. */
  lemma StoreAdds(db: CheckpointDb, c: Checkpoint, p: Payload, q: Id)
    requires db.Valid() && c.checkpointId !in db.checkpoints
    ensures Store(db, c, p).Valid()
    ensures Store(db, c, p).Saved(q) == db.Saved(q) + if q == c.runId then [(c, p)] else []
  {
    var r := Store(db, c, p);
    assert r.Saved(q) == db.Saved(q) + if q == c.runId then [(c, p)] else [];
  }

  predicate ByNumberAndTime(a: Checkpoint, b: Checkpoint) {
    a.sequenceNo < b.sequenceNo || (a.sequenceNo == b.sequenceNo && a.createdAt <= b.createdAt)
  }

  function Records(saved: seq<(Checkpoint, Payload)>): (r: seq<Checkpoint>)
    ensures |r| == |saved| && forall k :: 0 <= k < |r| ==> r[k] == saved[k].0
  {
    seq(|saved|, k requires 0 <= k < |saved| => saved[k].0)
  }

  function Listed(saved: seq<(Checkpoint, Payload)>): seq<Checkpoint> {
    Sort(ByNumberAndTime, Records(saved))
  }

  /** When numbers strictly increase in creation order, the listing is in creation order and the latest
      checkpoint is the last one created, whatever the clock said. */
  lemma LatestIsLastCreated(saved: seq<(Checkpoint, Payload)>)
    requires forall i, j :: 0 <= i < j < |saved| ==> saved[i].0.sequenceNo < saved[j].0.sequenceNo
    ensures Listed(saved) == Records(saved)
    ensures saved != [] ==> Listed(saved)[|Listed(saved)| - 1] == saved[|saved| - 1].0
  {
    SortOfSorted(ByNumberAndTime, Records(saved));
  }

  /** The run's listing is in creation order, and each of its checkpoints restores its own payload. */
  ghost predicate RestoresInOrder(db: CheckpointDb, run: Id) {
    && db.Valid()
    && var saved := db.Saved(run);
       && Listed(saved) == Records(saved)
       && (saved != [] ==> Listed(saved)[|Listed(saved)| - 1] == saved[|saved| - 1].0)
       && forall k :: 0 <= k < |saved| ==>
            saved[k].0.checkpointId in db.payloads && db.payloads[saved[k].0.checkpointId] == saved[k].1
  }

  lemma IncreasingRestores(db: CheckpointDb, run: Id)
    requires db.Valid()
    requires var saved := db.Saved(run); forall i, j :: 0 <= i < j < |saved| ==> saved[i].0.sequenceNo < saved[j].0.sequenceNo
    ensures RestoresInOrder(db, run)
  {
    hide Listed;
    LatestIsLastCreated(db.Saved(run));
  }

  /** Otherwise the clock decides: of two checkpoints with one number the later time counts as latest. */
  lemma EqualNumbersFollowTheClock(a: (Checkpoint, Payload), b: (Checkpoint, Payload))
    requires a.0.sequenceNo == b.0.sequenceNo
    ensures Listed([a, b]) == if a.0.createdAt <= b.0.createdAt then [a.0, b.0] else [b.0, a.0]
  {
    var xs := Records([a, b]);
    assert xs == [a.0, b.0] && xs[1..] == [b.0] && [b.0][1..] == [];
    assert Sort(ByNumberAndTime, [b.0]) == Insert(ByNumberAndTime, b.0, Sort(ByNumberAndTime, []));
    assert Sort(ByNumberAndTime, xs) == Insert(ByNumberAndTime, a.0, [b.0]);
    assert Insert(ByNumberAndTime, a.0, []) == [a.0];
  }

  class CheckpointStore {
    var checkpoints: map<Id, Checkpoint>
    var payloads: map<Id, Payload>
    var idsByRun: map<Id, seq<Id>>

    function Db(): CheckpointDb
      reads this
    {
      CheckpointDb(checkpoints, payloads, idsByRun)
    }

    constructor ()
      ensures Db() == CheckpointDb(map[], map[], map[])
    {
      checkpoints, payloads, idsByRun := map[], map[], map[];
    }

    method Create(c: Checkpoint, p: Payload) returns (r: Result<Checkpoint, Error>)
      modifies this
      ensures r == if c.checkpointId !in old(checkpoints) && Consistent(c, p) then Ok(c) else Err(ValueError)
      ensures Db() == if r.Ok? then old(Store(Db(), c, p)) else old(Db())
    {
      if c.checkpointId in checkpoints || !Consistent(c, p) {
        return Err(ValueError);
      }
      checkpoints := checkpoints[c.checkpointId := c];
      payloads := payloads[c.checkpointId := p];
      var ids := if c.runId in idsByRun then idsByRun[c.runId] else [];
      idsByRun := idsByRun[c.runId := ids + [c.checkpointId]];
      return Ok(c);
    }

    method ListForRun(run: Id) returns (r: seq<Checkpoint>)
      requires Db().Valid()
      ensures r == Listed(Db().Saved(run))
    {
      var ids := if run in idsByRun then idsByRun[run] else [];
      var found: seq<Checkpoint> := [];
      for i := 0 to |ids|
        invariant found == Records(Db().Saved(run))[..i]
      {
        found := found + [checkpoints[ids[i]]];
      }
      assert found == Records(Db().Saved(run));
      return Sort(ByNumberAndTime, found);
    }

    method Latest(run: Id) returns (r: Option<Checkpoint>)
      requires Db().Valid()
      ensures r == if Db().Saved(run) == [] then None
                   else Some(Listed(Db().Saved(run))[|Listed(Db().Saved(run))| - 1])
    {
      var all := ListForRun(run);
      SortMembers(ByNumberAndTime, Records(Db().Saved(run)));
      if all == [] {
        return None;
      }
      return Some(all[|all| - 1]);
    }

    /** The payload exactly as it was stored. */
    method Restore(id: Id) returns (r: Result<Payload, Error>)
      ensures r == if id in payloads then Ok(payloads[id]) else Err(KeyError)
    {
      if id !in payloads {
        return Err(KeyError);
      }
      return Ok(payloads[id]);
    }
  }
}
