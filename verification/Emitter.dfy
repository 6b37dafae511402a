/** The event emitter: ids and consecutive numbers for drafts, then one batch append. */
module Emitter {
  import opened Common
  import opened Models
  import opened Events
  import opened EventStores

  /** Hands out identifiers that never repeat. */
  class IdGenerator {
    var next: nat

    constructor ()
      ensures next == 0
    {
      next := 0;
    }

    method New() returns (id: Id)
      modifies this
      ensures id == Id(old(next)) && next == old(next) + 1
    {
      id := Id(next);
      next := next + 1;
    }

    /** Identifiers that others have used in the meantime. */
    method Skip(to: nat)
      requires next <= to
      modifies this
      ensures next == to
    {
      next := to;
    }
  }

  /** Ids at and above `next` are unused. */
  ghost predicate IdsUnused(db: EventDb, next: nat) {
    forall i | i in db.byId :: i.serial < next
  }

  lemma HigherUnused(db: EventDb, low: nat, high: nat)
    requires IdsUnused(db, low) && low <= high
    ensures IdsUnused(db, high)
  {
  }

  /** The run's last number, if any, lies below `sequence`. */
  predicate Below(db: EventDb, run: Id, sequence: nat) {
    db.Log(run) != [] ==> db.Log(run)[|db.Log(run)| - 1].sequenceNo < sequence
  }

  /** Numbered from `sequence` on, every draft exceeds what its own run has stored. */
  predicate NumbersFit(db: EventDb, drafts: seq<EventDraft>, sequence: nat) {
    forall i | 0 <= i < |drafts| && drafts[i].runId.Some? :: Below(db, drafts[i].runId.value, sequence + i)
  }

  lemma NumbersFitStep(db: EventDb, drafts: seq<EventDraft>, e: Event, sequence: nat)
    requires drafts != [] && e.runId == drafts[0].runId && e.sequenceNo == sequence
    ensures NumbersFit(db, drafts, sequence) <==>
              && (drafts[0].runId.Some? ==> Below(db, drafts[0].runId.value, sequence))
              && NumbersFit(Add(db, e), drafts[1..], sequence + 1)
  {
    if NumbersFit(Add(db, e), drafts[1..], sequence + 1) && (drafts[0].runId.Some? ==> Below(db, drafts[0].runId.value, sequence)) {
      forall i | 0 <= i < |drafts| && drafts[i].runId.Some? ensures Below(db, drafts[i].runId.value, sequence + i) {
        if i > 0 {
          assert drafts[i] == drafts[1..][i - 1];
          assert Below(Add(db, e), drafts[i].runId.value, sequence + 1 + (i - 1));
        }
      }
    }
  }

  /** A numbered batch with fresh ids is accepted exactly when its numbers fit. */
  lemma {:induction false} MaterializedFitsIff(db: EventDb, drafts: seq<EventDraft>, sequence: nat, nextId: nat)
    requires IdsUnused(db, nextId)
    ensures FitAll(db, Materialize(drafts, sequence, nextId)) <==> NumbersFit(db, drafts, sequence)
    ensures IdsUnused(AddAll(db, Materialize(drafts, sequence, nextId)), nextId + |drafts|)
    decreases |drafts|
  {
    hide NumbersFit;
    var events := Materialize(drafts, sequence, nextId);
    if drafts == [] {
      NoDraftsFit(db, sequence);
    } else {
      MaterializedFitsIff(Add(db, events[0]), drafts[1..], sequence + 1, nextId + 1);
      NumbersFitStep(db, drafts, events[0], sequence);
      assert Materialize(drafts[1..], sequence + 1, nextId + 1) == events[1..];
      assert events == [events[0]] + events[1..];
    }
  }

  lemma NoDraftsFit(db: EventDb, sequence: nat)
    ensures NumbersFit(db, [], sequence)
  {
  }

  lemma OwnNumbersFit(db: EventDb, run: Id, drafts: seq<EventDraft>)
    requires forall d | d in drafts :: d.runId == Some(run)
    ensures NumbersFit(db, drafts, NextSequence(db.Log(run)))
  {
  }

  lemma {:induction false} OwnEvents(run: Id, events: seq<Event>, q: Id)
    requires forall i :: 0 <= i < |events| ==> events[i].runId == Some(run)
    ensures EventsOf(q, events) == if q == run then events else []
  {
    if events != [] {
      OwnEvents(run, events[1..], q);
      assert events == [events[0]] + events[1..];
    }
  }

  lemma MaterializedLogs(db: EventDb, run: Id, drafts: seq<EventDraft>, nextId: nat)
    requires IdsUnused(db, nextId) && forall d | d in drafts :: d.runId == Some(run)
    ensures var events := Materialize(drafts, NextSequence(db.Log(run)), nextId);
            && FitAll(db, events) && IdsUnused(AddAll(db, events), nextId + |drafts|)
            && AddAll(db, events).Log(run) == db.Log(run) + events
            && forall q | q != run :: AddAll(db, events).Log(q) == db.Log(q)
  {
    var events := Materialize(drafts, NextSequence(db.Log(run)), nextId);
    OwnNumbersFit(db, run, drafts);
    MaterializedFitsIff(db, drafts, NextSequence(db.Log(run)), nextId);
    forall i | 0 <= i < |events| ensures events[i].runId == Some(run) {
      assert drafts[i] in drafts;
    }
    OwnEvents(run, events, run);
    BatchExtendsLogs(db, events, run);
    forall q | q != run ensures AddAll(db, events).Log(q) == db.Log(q) {
      OwnEvents(run, events, q);
      BatchExtendsLogs(db, events, q);
      assert db.Log(q) + [] == db.Log(q);
    }
  }

  class RuntimeEventEmitter {
    const store: EventStore
    const ids: IdGenerator

    constructor (store: EventStore, ids: IdGenerator)
      ensures this.store == store && this.ids == ids
    {
      this.store, this.ids := store, ids;
    }

    /** Thread events belong to no run and carry number zero. */
    method EmitThreadEvent(draft: EventDraft) returns (r: Result<Event, Error>)
      requires IdsUnused(store.Db(), ids.next)
      modifies store, ids
      ensures r.Ok? <==> draft.runId == None
      ensures r.Ok? ==>
        && r.value == Event(Id(old(ids.next)), draft.kind, draft.threadId, None, 0)
        && store.Db() == old(Add(store.Db(), Event(Id(ids.next), draft.kind, draft.threadId, None, 0)))
        && ids.next == old(ids.next) + 1
      ensures r.Err? ==> r.error == ValueError && store.Db() == old(store.Db()) && ids.next == old(ids.next)
      ensures IdsUnused(store.Db(), ids.next)
    {
      if draft.runId.Some? {
        return Err(ValueError);
      }
      var id := ids.New();
      var event := Event(id, draft.kind, draft.threadId, None, 0);
      var error := store.Append(event);
      return Ok(event);
    }

    /** The batch gets the numbers after the last stored one of the run. It is accepted exactly when these
        exceed what the runs of its drafts have stored; drafts of the run itself always are, whoever else
        emits for it. */
    method EmitRunEvents(run: Id, drafts: seq<EventDraft>) returns (r: Result<seq<Event>, Error>)
      requires IdsUnused(store.Db(), ids.next)
      modifies store, ids
      ensures var events := old(Materialize(drafts, NextSequence(store.Db().Log(run)), ids.next));
              && r == (if old(NumbersFit(store.Db(), drafts, NextSequence(store.Db().Log(run)))) then Ok(events) else Err(ValueError))
              && store.Db() == if r.Ok? then AddAll(old(store.Db()), events) else old(store.Db())
      ensures (forall d | d in drafts :: d.runId == Some(run)) ==>
        && r.Ok? && store.Db().Log(run) == old(store.Db().Log(run)) + r.value
        && forall q | q != run :: store.Db().Log(q) == old(store.Db().Log(q))
      ensures ids.next == old(ids.next) + |drafts| && IdsUnused(store.Db(), ids.next)
    {
      hide NumbersFit, IdsUnused, Add, Fits;
      ghost var db, first := store.Db(), ids.next;
      MaterializedFitsIff(db, drafts, NextSequence(db.Log(run)), first);
      ghost var own := forall d | d in drafts :: d.runId == Some(run);
      if own {
        MaterializedLogs(db, run, drafts, first);
      }
      if drafts == [] {
        return Ok([]);
      }
      var sequence := NextSequenceNo(run);
      var events: seq<Event> := [];
      for i := 0 to |drafts|
        invariant ids.next == first + i && store.Db() == db
        invariant events == Materialize(drafts, sequence, first)[..i]
      {
        var id := ids.New();
        events := events + [Event(id, drafts[i].kind, drafts[i].threadId, drafts[i].runId, sequence + i)];
      }
      assert events == Materialize(drafts, sequence, first);
      HigherUnused(db, first, first + |drafts|);
      var error := store.AppendBatch(events);
      return if error == None then Ok(events) else Err(error.value);
    }

    method NextSequenceNo(run: Id) returns (sequence: nat)
      ensures sequence == NextSequence(store.Db().Log(run))
    {
      var latest := store.LatestForRun(run);
      if latest == None {
        return 1;
      }
      return latest.value.sequenceNo + 1;
    }
  }

  /** Numbering is gap-free: events emitted for a run, by any emitter and between any others, keep the
      i-th stored event of every run at number i. */
  lemma EmittedGapFree(db: EventDb, run: Id, drafts: seq<EventDraft>, nextId: nat, q: Id)
    requires IdsUnused(db, nextId) && (forall d | d in drafts :: d.runId == Some(run)) && GapFree(q, db.Log(q))
    ensures var after := AddAll(db, Materialize(drafts, NextSequence(db.Log(run)), nextId)); GapFree(q, after.Log(q))
  {
    MaterializedLogs(db, run, drafts, nextId);
    if q == run {
      MaterializeKeepsGapFree(run, db.Log(run), drafts, nextId);
    }
  }
}
