/** What the engine decides: which events and commands create an attempt, which end the workflow
    and with what outcome, and which only leave a record. */
module WorkflowDecisions {
  import opened Options
  import opened WorkflowEngine
  import opened WorkflowRuns
  import opened WorkflowBudget
  import opened WorkflowSafety

  /** One more commitment of 10000 micro-USD fits, and the caller may make it. */
  predicate Room(w: Workflow, allowed: bool) {
    NeedsAdmission(w.def) ==> allowed && COMMITMENT * (w.attemptNumber + 1) <= w.def.ceiling.value
  }

  /** Why there is no room. */
  function RoomCode(allowed: bool): string {
    if allowed then EXHAUSTED else REVOKED
  }

  /** A further attempt with the next number and the given identifiers; the workflow goes on. */
  ghost predicate AttemptMade(w: Workflow, x: Workflow, ids: Ids) {
    && x.state == Running && x.outcome == w.outcome && x.error == w.error && x.receipts == w.receipts
    && x.processed == w.processed
    && x.attemptNumber == w.attemptNumber + 1 && x.executionIds == w.executionIds + [ids.executionId]
    && (NeedsAdmission(w.def) ==> ids.commandId in x.admissions && x.admissions[ids.commandId].executionId == ids.executionId)
  }

  ghost predicate CommandFor(c: Command, w: Workflow, ids: Ids) {
    && c.commandId == ids.commandId && c.executionId == ids.executionId && c.attempt == w.attemptNumber + 1
    && (c.admission.Some? <==> NeedsAdmission(w.def))
  }

  /** The workflow is over, for this cause and code, and nothing was attempted or admitted. */
  ghost predicate FailedWith(w: Workflow, x: Workflow, status: Status, cause: Id, code: string) {
    && x.state == Failed && x.outcome == Some(Unsuccessful(status, cause, code)) && x.error == Some(code)
    && x.attemptNumber == w.attemptNumber && x.executionIds == w.executionIds
    && x.initial == w.initial && x.retries == w.retries && x.admissions == w.admissions && x.records == w.records
  }

  lemma CreateDecides(w: Workflow, allowed: bool, ids: Ids)
    requires Inv(w) && w.def.commitment == COMMITMENT
    ensures var (x, made) := CreateSpec(w, allowed, ids);
            if !Room(w, allowed) then x == w && made == Refused(RoomCode(allowed))
            else x == Attempted(w, ids) && made == if CommandValid(w.def) then Made(NewCommand(w, ids)) else Raised
  {
    InvLegible(w);
    CommittedTotal(w);
  }

  /** How a new failure event without a stored retry uses the creation of an attempt. */
  lemma FailureShape(w: Workflow, id: Id, retryable: bool, allowed: bool, ids: Ids)
    requires w.state == Running && id !in w.processed && id !in w.retries
    ensures var x := ConsumeSpec(w, AttemptFailed(id, retryable), allowed, ids);
            var (after, made) := CreateSpec(w, allowed, ids);
            if !(retryable && w.attemptNumber < w.def.maxAttempts) then x == Ended(w, StatusFailed, id, ATTEMPTS_EXHAUSTED)
            else match made
                 case Raised => x == after
                 case Made(command) => x == after.(retries := after.retries[id := command])
                 case Refused(code) => x == Ended(w, StatusRejected, id, code)
  {
  }

  lemma AttemptIsMade(w: Workflow, ids: Ids)
    requires w.state == Running
    ensures AttemptMade(w, Attempted(w, ids), ids) && CommandFor(NewCommand(w, ids), w, ids)
  {
  }

  lemma EndFails(w: Workflow, status: Status, cause: Id, code: string)
    requires status != StatusCancelled
    ensures FailedWith(w, Ended(w, status, cause, code), status, cause, code)
  {
  }

  /** A failure event of a running workflow, new and without a stored retry: another attempt is
      made exactly when the event is retryable, an attempt is left and there is room.  Otherwise
      the workflow fails, for exhausted attempts or for the missing room. */
  lemma FailureDecides(w: Workflow, id: Id, retryable: bool, allowed: bool, ids: Ids)
    requires Reachable(w) && w.state == Running && id !in w.processed && id !in w.retries
    ensures var x := ConsumeSpec(w, AttemptFailed(id, retryable), allowed, ids);
            if !(retryable && w.attemptNumber < w.def.maxAttempts) then FailedWith(w, x, StatusFailed, id, ATTEMPTS_EXHAUSTED)
            else if !Room(w, allowed) then FailedWith(w, x, StatusRejected, id, RoomCode(allowed))
            else
              && AttemptMade(w, x, ids)
              && (CommandValid(w.def) ==> id in x.retries && CommandFor(x.retries[id], w, ids))
  {
    ReachableInv(w);
    CreateDecides(w, allowed, ids);
    FailureShape(w, id, retryable, allowed, ids);
    EndFails(w, StatusFailed, id, ATTEMPTS_EXHAUSTED);
    EndFails(w, StatusRejected, id, RoomCode(allowed));
    AttemptIsMade(w, ids);
  }

  /** A rejection before acceptance fails the workflow with the reported code, and every command
      still in progress is answered with that outcome. */
  lemma RejectionDecides(w: Workflow, id: Id, code: string, allowed: bool, ids: Ids)
    requires Reachable(w) && w.state == Running && id !in w.processed
    ensures var x := ConsumeSpec(w, AttemptRejected(id, code), allowed, ids);
            && FailedWith(w, x, StatusRejected, id, if code == "" then "WORKFLOW_PRE_AI_REJECTED" else code)
            && x.receipts.Keys == w.receipts.Keys
            && (forall c :: c in w.receipts ==>
                  x.receipts[c] == if w.receipts[c].done then w.receipts[c] else Receipt(x.outcome.value, false))
  {
  }

  /** The start handler of a running workflow whose start is still open: the initial attempt is
      made exactly once and only with room; without room the workflow fails and the start is
      answered so. */
  lemma StartDecides(w: Workflow, allowed: bool, ids: Ids)
    requires Reachable(w) && w.state == Running && w.def.startId in w.receipts && !w.receipts[w.def.startId].done
    ensures var x := StartSpec(w, allowed, ids);
            if w.initial.Some? then x == w
            else if !Room(w, allowed) then
              FailedWith(w, x, StatusRejected, w.def.startId, RoomCode(allowed)) && Answers(x, w.def.startId, x.outcome.value)
            else
              && AttemptMade(w, x, ids)
              && (CommandValid(w.def) ==> x.initial.Some? && CommandFor(x.initial.value, w, ids))
  {
    ReachableInv(w);
    CreateDecides(w, allowed, ids);
  }

  /** Once the dispatch has returned, or the workflow has ended, the start is answered with the
      result it holds; and once a delivery has returned, its event is processed. */
  lemma DispatchIsRecorded(w: Workflow, allowed: bool, ids: Ids, id: Id)
    requires w.def.startId in w.receipts
    ensures var result := w.receipts[w.def.startId].result;
            && (w.initial.Some? ==> Answers(StartDispatched(w), w.def.startId, result))
            && (w.outcome.Some? ==> Answers(StartSpec(w, allowed, ids), w.def.startId, result))
    ensures id in w.retries || Terminal(w.state) ==> id in EventDone(w, id).processed
  {
  }

  /** An event that comes after the end is remembered and does nothing else. */
  lemma LateEventIsRemembered(w: Workflow, e: Event, allowed: bool, ids: Ids)
    requires Terminal(w.state)
    ensures ConsumeSpec(w, e, allowed, ids) == w.(processed := w.processed + {e.id})
  {
    assert e.id in w.processed ==> w.processed + {e.id} == w.processed;
  }

  /** A new cancel command: without authority it only leaves its refusal behind, as it does on a
      completed or failed workflow; with authority a running workflow is cancelled for it. */
  lemma CancelDecides(w: Workflow, c: Id, allowed: bool)
    requires Reachable(w) && c !in w.receipts
    ensures var x := CancelSpec(w, c, allowed);
            if !allowed || w.state == Completed || w.state == Failed then
              && x == w.(receipts := x.receipts)
              && Answers(x, c, Unsuccessful(StatusRejected, c, if allowed then ALREADY_TERMINAL else CANCEL_UNAUTHORIZED))
            else
              && x.state == Cancelled && x.outcome.Some? && Answers(x, c, x.outcome.value)
              && x.attemptNumber == w.attemptNumber && x.admissions == w.admissions && x.records == w.records
              && (w.state == Running ==> x.outcome == Some(Unsuccessful(StatusCancelled, c, CANCELLED)) && x.error == Some(CANCELLED))
              && (w.state == Cancelled ==> x.outcome == w.outcome && x.error == w.error)
  {
    ReachableInv(w);
  }
}
