/** Runtime events and checkpoints as stored. */
module Events {
  import opened Common
  import opened Models

  /** `External` stands for the tool and memory events that other emitters add to a run. */
  datatype EventKind =
    | ThreadOpened
    | RunCreated | RunStarted | RunResumed | RunHalted | RunIdle | RunDone | RunFailure(code: FailureCode) | RunAborted
    | NodeReady(node: NodeId) | NodeStarted(node: NodeId) | NodeReported(node: NodeId, status: NodeStatus)
    | InterruptCreated(source: Option<NodeId>, interrupt: Id) | InterruptResolved(interrupt: Id)
    | External

  datatype Event = Event(eventId: Id, kind: EventKind, threadId: Id, runId: Option<Id>, sequenceNo: nat)

  datatype EventDraft = EventDraft(kind: EventKind, threadId: Id, runId: Option<Id>)

  datatype Checkpoint = Checkpoint(
    checkpointId: Id, threadId: Id, runId: Id, sequenceNo: nat, createdAt: int,
    frontier: seq<NodeId>, cursor: Option<Id>)

  datatype Payload = Payload(
    thread: ThreadRecord, run: RunRecord, threadState: ThreadState, runState: RunState,
    nodes: map<NodeId, NodeState>, artifactIds: set<Id>, interruptIds: set<Id>,
    decisionIds: set<Id>, sideEffectIds: set<Id>, lastEvent: Option<Id>)

  /* ---- Numbering ---- */

  function NextSequence(log: seq<Event>): nat {
    if log == [] then 1 else log[|log| - 1].sequenceNo + 1
  }

  function LatestId(log: seq<Event>): Option<Id> {
    if log == [] then None else Some(log[|log| - 1].eventId)
  }

  /** Consecutive numbers and fresh ids for a batch of drafts. */
  function Materialize(drafts: seq<EventDraft>, sequence: nat, nextId: nat): (r: seq<Event>)
    ensures |r| == |drafts|
    ensures forall i :: 0 <= i < |r| ==>
      r[i] == Event(Id(nextId + i), drafts[i].kind, drafts[i].threadId, drafts[i].runId, sequence + i)
  {
    seq(|drafts|, i requires 0 <= i < |drafts| =>
      Event(Id(nextId + i), drafts[i].kind, drafts[i].threadId, drafts[i].runId, sequence + i))
  }

  /** The run's i-th event carries number i, counting from one. */
  ghost predicate GapFree(run: Id, log: seq<Event>) {
    forall i :: 0 <= i < |log| ==> log[i].runId == Some(run) && log[i].sequenceNo == i + 1
  }

  lemma MaterializeKeepsGapFree(run: Id, log: seq<Event>, drafts: seq<EventDraft>, nextId: nat)
    requires GapFree(run, log) && forall d | d in drafts :: d.runId == Some(run)
    ensures GapFree(run, log + Materialize(drafts, NextSequence(log), nextId))
  {
    var added := Materialize(drafts, NextSequence(log), nextId);
    forall i | 0 <= i < |log + added|
      ensures (log + added)[i].runId == Some(run) && (log + added)[i].sequenceNo == i + 1
    {
      if i >= |log| {
        assert (log + added)[i] == added[i - |log|] && drafts[i - |log|] in drafts;
      }
    }
  }

  function PayloadOf(s: Snapshot, lastEvent: Option<Id>): Payload {
    Payload(s.thread, s.run, s.threadState, s.runState, s.nodes, s.artifacts.Keys, s.interrupts.Keys,
            s.decisions.Keys, s.sideEffects.Keys, lastEvent)
  }
}
