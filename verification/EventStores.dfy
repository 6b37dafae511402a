/** The in-memory event store: two indexes, single and batch appends, paging. */
module EventStores {
  import opened Common
  import opened Models
  import opened Events

  /* ---- Contents ---- */

  datatype EventDb = EventDb(byId: map<Id, Event>, byRun: map<Id, seq<Event>>) {
    function Log(run: Id): seq<Event> {
      if run in byRun then byRun[run] else []
    }
  }

  /** An event fits when its id is new and its number exceeds the last one of its run. */
  predicate Fits(db: EventDb, e: Event) {
    && e.eventId !in db.byId
    && (e.runId.Some? && db.Log(e.runId.value) != [] ==>
          db.Log(e.runId.value)[|db.Log(e.runId.value)| - 1].sequenceNo < e.sequenceNo)
  }

  function Add(db: EventDb, e: Event): EventDb {
    EventDb(db.byId[e.eventId := e],
            if e.runId.Some? then db.byRun[e.runId.value := db.Log(e.runId.value) + [e]] else db.byRun)
  }

  predicate FitAll(db: EventDb, events: seq<Event>)
    decreases |events|
  {
    events == [] || (Fits(db, events[0]) && FitAll(Add(db, events[0]), events[1..]))
  }

  function AddAll(db: EventDb, events: seq<Event>): EventDb
    decreases |events|
  {
    if events == [] then db else AddAll(Add(db, events[0]), events[1..])
  }

  lemma {:induction false} AddAllSnoc(db: EventDb, events: seq<Event>, e: Event)
    ensures AddAll(db, events + [e]) == Add(AddAll(db, events), e)
    ensures FitAll(db, events + [e]) <==> FitAll(db, events) && Fits(AddAll(db, events), e)
    decreases |events|
  {
    if events == [] {
      assert [e][1..] == [] && FitAll(Add(db, e), []) && AddAll(Add(db, e), []) == Add(db, e);
      assert events + [e] == [e];
    } else {
      assert (events + [e])[0] == events[0] && (events + [e])[1..] == events[1..] + [e];
      AddAllSnoc(Add(db, events[0]), events[1..], e);
    }
  }

  lemma FitPrefix(db: EventDb, events: seq<Event>, i: nat)
    requires i < |events|
    ensures FitAll(db, events[..i + 1]) <==> FitAll(db, events[..i]) && Fits(AddAll(db, events[..i]), events[i])
    ensures AddAll(db, events[..i + 1]) == Add(AddAll(db, events[..i]), events[i])
  {
    assert events[..i + 1] == events[..i] + [events[i]];
    AddAllSnoc(db, events[..i], events[i]);
  }

  lemma {:induction false} FitPrefixes(db: EventDb, events: seq<Event>, i: nat)
    requires i <= |events|
    ensures FitAll(db, events) ==> FitAll(db, events[..i])
    decreases |events| - i
  {
    if i == |events| {
      assert events[..i] == events;
    } else {
      FitPrefixes(db, events, i + 1);
      FitPrefix(db, events, i);
    }
  }

  /* ---- Both indexes tell the same ---- */

  /** Every event of a run is in its list. */
  ghost predicate AllListed(db: EventDb) {
    forall i | i in db.byId && db.byId[i].runId.Some? :: db.byId[i] in db.Log(db.byId[i].runId.value)
  }

  /** Every listed event is indexed and belongs to its run, and numbers increase along a list. */
  ghost predicate ListOk(db: EventDb, run: Id) {
    var log := db.Log(run);
    && (forall k :: 0 <= k < |log| ==>
          log[k].runId == Some(run) && log[k].eventId in db.byId && db.byId[log[k].eventId] == log[k])
    && (forall j, k :: 0 <= j < k < |log| ==> log[j].sequenceNo < log[k].sequenceNo)
  }

  ghost predicate InStep(db: EventDb) {
    AllListed(db) && forall r :: ListOk(db, r)
  }

  lemma AddKeepsListed(db: EventDb, e: Event)
    requires AllListed(db) && Fits(db, e)
    ensures AllListed(Add(db, e))
  {
    var r := Add(db, e);
    forall i | i in r.byId && r.byId[i].runId.Some? ensures r.byId[i] in r.Log(r.byId[i].runId.value) {
      var run := r.byId[i].runId.value;
      if i == e.eventId {
        assert r.Log(run)[|r.Log(run)| - 1] == e;
      } else {
        assert db.byId[i] in db.Log(run);
        assert forall x | x in db.Log(run) :: x in r.Log(run);
      }
    }
  }

  lemma AddKeepsList(db: EventDb, e: Event, run: Id)
    requires ListOk(db, run) && Fits(db, e)
    ensures ListOk(Add(db, e), run)
  {
    var log := Add(db, e).Log(run);
    forall j, k | 0 <= j < k < |log| ensures log[j].sequenceNo < log[k].sequenceNo {
      if k == |db.Log(run)| && j < k - 1 {
        assert db.Log(run)[j].sequenceNo < db.Log(run)[k - 1].sequenceNo;
      }
    }
  }

  lemma {:induction false} AddAllKeepsInStep(db: EventDb, events: seq<Event>)
    requires InStep(db) && FitAll(db, events)
    ensures InStep(AddAll(db, events))
    decreases |events|
  {
    if events != [] {
      AddKeepsListed(db, events[0]);
      forall r ensures ListOk(Add(db, events[0]), r) {
        AddKeepsList(db, events[0], r);
      }
      AddAllKeepsInStep(Add(db, events[0]), events[1..]);
    }
  }

  /** What a single append leaves behind, accepted or not. */
  function AfterAppend(db: EventDb, e: Event): EventDb {
    if Fits(db, e) then Add(db, e)
    else if e.eventId in db.byId then db
    else EventDb(db.byId[e.eventId := e], db.byRun)
  }

  /** A single append keeps the two indexes in step exactly when it is accepted or its id was taken: an
      event refused for its number stays in the id index alone. */
  lemma AppendKeepsInStepIff(db: EventDb, e: Event)
    requires InStep(db)
    ensures InStep(AfterAppend(db, e)) <==> Fits(db, e) || e.eventId in db.byId
  {
    if Fits(db, e) {
      AddKeepsListed(db, e);
      forall r ensures ListOk(Add(db, e), r) {
        AddKeepsList(db, e, r);
      }
    } else if e.eventId !in db.byId {
      var r := AfterAppend(db, e);
      assert ListOk(db, e.runId.value);
      assert e !in db.Log(e.runId.value);
      assert r.byId[e.eventId] == e && r.Log(e.runId.value) == db.Log(e.runId.value);
    }
  }

  /** A batch extends each run's list by the run's own events of the batch, in their order. */
  function EventsOf(run: Id, events: seq<Event>): seq<Event> {
    if events == [] then []
    else (if events[0].runId == Some(run) then [events[0]] else []) + EventsOf(run, events[1..])
  }

  lemma {:induction false} BatchExtendsLogs(db: EventDb, events: seq<Event>, run: Id)
    ensures AddAll(db, events).Log(run) == db.Log(run) + EventsOf(run, events)
    ensures forall i :: i in AddAll(db, events).byId <==> i in db.byId || exists e :: e in events && e.eventId == i
    decreases |events|
  {
    if events == [] {
      assert db.Log(run) + [] == db.Log(run);
    } else {
      var next := Add(db, events[0]);
      BatchExtendsLogs(next, events[1..], run);
      assert forall e :: e in events <==> e == events[0] || e in events[1..];
      assert next.Log(run) == db.Log(run) + if events[0].runId == Some(run) then [events[0]] else [];
    }
  }

  /* ---- Paging ---- */

  /** The events numbered above `after`. */
  function After(log: seq<Event>, after: Option<int>): (r: seq<Event>) {
    if log == [] then []
    else
      (if after == None || log[0].sequenceNo > after.value then [log[0]] else []) + After(log[1..], after)
  }

  lemma AfterStep(log: seq<Event>, after: Option<int>, i: nat, found: seq<Event>)
    requires i < |log|
    ensures found + After(log[i..], after)
            == (if after == None || log[i].sequenceNo > after.value then found + [log[i]] else found)
               + After(log[i + 1..], after)
  {
    assert log[i..][0] == log[i] && log[i..][1..] == log[i + 1..];
    assert found + ([log[i]] + After(log[i + 1..], after)) == (found + [log[i]]) + After(log[i + 1..], after);
    assert found + ([] + After(log[i + 1..], after)) == found + After(log[i + 1..], after);
  }

  lemma AfterLast(log: seq<Event>, after: Option<int>, found: seq<Event>)
    ensures found + After(log[|log|..], after) == found
  {
    assert log[|log|..] == [];
  }

  /** `xs[:limit]`: a negative limit leaves off that many at the end. */
  function Cut<T>(xs: seq<T>, limit: int): seq<T> {
    if limit < 0 then (if -limit <= |xs| then xs[..|xs| + limit] else [])
    else if limit < |xs| then xs[..limit] else xs
  }

  function Page(log: seq<Event>, after: Option<int>, limit: Option<int>): seq<Event> {
    if limit.Some? then Cut(After(log, after), limit.value) else After(log, after)
  }

  lemma {:induction false} AfterSuffix(run: Id, log: seq<Event>, from: nat, k: nat)
    requires GapFree(run, log) && from <= |log|
    ensures After(log[from..], Some(k)) == if k <= from then log[from..] else if k <= |log| then log[k..] else []
    decreases |log| - from
  {
    if from < |log| {
      assert log[from..][0] == log[from] && log[from..][1..] == log[from + 1..];
      AfterSuffix(run, log, from + 1, k);
      assert k <= from ==> [log[from]] + log[from + 1..] == log[from..];
    }
  }

  /** On a gap-free log the page after `k` of size `m` is exactly the positions k+1 to k+m. */
  lemma PageIsPositions(run: Id, log: seq<Event>, k: nat, m: nat)
    requires GapFree(run, log)
    ensures Page(log, Some(k), Some(m))
            == if k >= |log| then [] else if k + m <= |log| then log[k..k + m] else log[k..]
  {
    AfterSuffix(run, log, 0, k);
    assert log[0..] == log;
    if k < |log| && k + m <= |log| {
      assert log[k..][..m] == log[k..k + m];
    }
  }

  /** A negative limit on a gap-free log drops the last events of the stream, not the first. */
  lemma NegativeLimitDropsLast(run: Id, log: seq<Event>, k: nat, m: int)
    requires GapFree(run, log) && m > 0
    ensures Page(log, Some(k), Some(-m)) == if k + m <= |log| then log[k..|log| - m] else []
  {
    AfterSuffix(run, log, 0, k);
    assert log[0..] == log;
    if k + m <= |log| {
      assert log[k..][..|log| - k - m] == log[k..|log| - m];
    }
  }

  /** Reads a log page by page, each page after the last number of the one before. */
  function ReadPages(log: seq<Event>, after: nat, m: nat, pages: nat): seq<Event>
    decreases pages
  {
    if pages == 0 then []
    else
      var page := Page(log, Some(after), Some(m));
      if page == [] then []
      else page + ReadPages(log, page[|page| - 1].sequenceNo, m, pages - 1)
  }

  lemma FirstPage(run: Id, log: seq<Event>, after: nat, m: nat) returns (next: nat)
    requires GapFree(run, log) && m > 0 && after < |log|
    ensures after < next <= |log|
    ensures var page := Page(log, Some(after), Some(m)); page == log[after..next] && page[|page| - 1].sequenceNo == next
  {
    PageIsPositions(run, log, after, m);
    next := if after + m <= |log| then after + m else |log|;
    assert log[after..next][next - after - 1] == log[next - 1];
  }

  /** Consecutive pages of a gap-free log concatenate to the whole stream. */
  lemma {:induction false} PagesConcatenate(run: Id, log: seq<Event>, after: nat, m: nat, pages: nat)
    requires GapFree(run, log) && m > 0 && after <= |log| <= after + pages
    ensures ReadPages(log, after, m, pages) == log[after..]
    decreases pages
  {
    hide Page, GapFree;
    if after == |log| {
      if pages > 0 {
        NoPage(run, log, m);
      }
    } else {
      var next := FirstPage(run, log, after, m);
      PagesConcatenate(run, log, next, m, pages - 1);
      assert log[after..next] + log[next..] == log[after..];
    }
  }

  lemma NoPage(run: Id, log: seq<Event>, m: nat)
    requires GapFree(run, log)
    ensures Page(log, Some(|log|), Some(m)) == []
  {
    PageIsPositions(run, log, |log|, m);
  }

  /* ---- What the checking loop of a batch keeps ---- */

  /** The ids, and the last number of every run, that the appends would leave. */
  ghost predicate Foresees(db: EventDb, seenIds: set<Id>, runPrevious: map<Id, nat>) {
    && seenIds == db.byId.Keys
    && (forall r :: r in runPrevious <==> db.Log(r) != [])
    && (forall r | r in runPrevious :: runPrevious[r] == db.Log(r)[|db.Log(r)| - 1].sequenceNo)
  }

  lemma ForeseesNow(db: EventDb, seenIds: set<Id>, runPrevious: map<Id, nat>)
    requires seenIds == db.byId.Keys
    requires runPrevious == map r | r in db.byRun && db.byRun[r] != [] :: db.byRun[r][|db.byRun[r]| - 1].sequenceNo
    ensures Foresees(db, seenIds, runPrevious)
  {
  }

  lemma NothingFits(db: EventDb, events: seq<Event>)
    ensures FitAll(db, events[..0]) && AddAll(db, events[..0]) == db
  {
  }

  /** The simulated previous number of a run is the real one. */
  lemma ForeseesFits(db: EventDb, seenIds: set<Id>, runPrevious: map<Id, nat>, e: Event)
    requires Foresees(db, seenIds, runPrevious)
    ensures Fits(db, e) <==>
      && e.eventId !in seenIds
      && !(e.runId.Some? && e.runId.value in runPrevious && e.sequenceNo <= runPrevious[e.runId.value])
    ensures Foresees(Add(db, e), seenIds + {e.eventId},
                     if e.runId.Some? then runPrevious[e.runId.value := e.sequenceNo] else runPrevious)
  {
  }

  /* ---- The store ---- */

  class EventStore {
    var eventsById: map<Id, Event>
    var eventsByRun: map<Id, seq<Event>>

    function Db(): EventDb
      reads this
    {
      EventDb(eventsById, eventsByRun)
    }

    constructor ()
      ensures Db() == EventDb(map[], map[])
    {
      eventsById, eventsByRun := map[], map[];
    }

    /** The id index is written before the number is checked: an event with a stale number is refused and
        still found by its id, and no run list has it. */
    method Append(e: Event) returns (error: Option<Error>)
      modifies this
      ensures error == if old(Fits(Db(), e)) then None else Some(ValueError)
      ensures Db() == old(AfterAppend(Db(), e))
    {
      if e.eventId in eventsById {
        return Some(ValueError);
      }
      eventsById := eventsById[e.eventId := e];
      if e.runId.Some? {
        var run := e.runId.value;
        var runEvents := if run in eventsByRun then eventsByRun[run] else [];
        if runEvents != [] && e.sequenceNo <= runEvents[|runEvents| - 1].sequenceNo {
          return Some(ValueError);
        }
        eventsByRun := eventsByRun[run := runEvents + [e]];
      }
      return None;
    }

    /** All or nothing, for batches that mix any runs: the first loop checks every event against the ids
        and numbers the batch would leave, so the second loop cannot be refused. */
    method AppendBatch(events: seq<Event>) returns (error: Option<Error>)
      modifies this
      ensures error == if old(FitAll(Db(), events)) then None else Some(ValueError)
      ensures Db() == if old(FitAll(Db(), events)) then old(AddAll(Db(), events)) else old(Db())
    {
      hide FitAll, AddAll, Fits, Add, Foresees;
      ghost var db := Db();
      var seenIds := eventsById.Keys;
      var runPrevious: map<Id, nat> := map r | r in eventsByRun && eventsByRun[r] != [] ::
        eventsByRun[r][|eventsByRun[r]| - 1].sequenceNo;
      ForeseesNow(db, seenIds, runPrevious);
      NothingFits(db, events);
      for i := 0 to |events|
        invariant Db() == db && FitAll(db, events[..i])
        invariant Foresees(AddAll(db, events[..i]), seenIds, runPrevious)
      {
        var e := events[i];
        FitPrefix(db, events, i);
        FitPrefixes(db, events, i + 1);
        ForeseesFits(AddAll(db, events[..i]), seenIds, runPrevious, e);
        if e.eventId in seenIds {
          return Some(ValueError);
        }
        seenIds := seenIds + {e.eventId};
        if e.runId.Some? {
          if e.runId.value in runPrevious && e.sequenceNo <= runPrevious[e.runId.value] {
            return Some(ValueError);
          }
          runPrevious := runPrevious[e.runId.value := e.sequenceNo];
        }
      }
      assert events[..|events|] == events;
      for i := 0 to |events|
        invariant Db() == AddAll(db, events[..i])
      {
        FitPrefix(db, events, i);
        FitPrefixes(db, events, i + 1);
        var refused := Append(events[i]);
        assert refused == None;
      }
      return None;
    }

    method ListByRun(run: Id, after: Option<int>, limit: Option<int>) returns (r: seq<Event>)
      ensures r == Page(Db().Log(run), after, limit)
    {
      var events := if run in eventsByRun then eventsByRun[run] else [];
      hide After;
      var filtered: seq<Event> := [];
      assert events[0..] == events && [] + After(events, after) == After(events, after);
      for i := 0 to |events|
        invariant filtered + After(events[i..], after) == After(events, after)
      {
        AfterStep(events, after, i, filtered);
        if after == None || events[i].sequenceNo > after.value {
          filtered := filtered + [events[i]];
        }
      }
      AfterLast(events, after, filtered);
      return if limit.Some? then Cut(filtered, limit.value) else filtered;
    }

    method LatestForRun(run: Id) returns (r: Option<Event>)
      ensures r == if Db().Log(run) == [] then None else Some(Db().Log(run)[|Db().Log(run)| - 1])
    {
      if run !in eventsByRun || eventsByRun[run] == [] {
        return None;
      }
      return Some(eventsByRun[run][|eventsByRun[run]| - 1]);
    }
  }
}
