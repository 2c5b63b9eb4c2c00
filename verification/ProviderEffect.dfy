/** The durable provider-effect boundary for one effect key.  Each database transaction of
    `PostgresProviderEffectBoundary.execute` is one atomic step; any number of callers
    interleave their steps and may stop between any two of them. */
module ProviderEffect {
  import opened Options
  import opened Provider

  datatype EffectState = Reserved | Dispatching | Completed | Failed | Ambiguous

  datatype Payload = ResultPayload(result: ProviderResult) | FailurePayload(failure: Failure)

  datatype Row = Row(requestHash: string, effectType: string, state: EffectState,
                     dispatchCount: nat, payload: Option<Payload>)

  datatype Call = Call(requestHash: string, effectType: string)

  /** What a transaction tells its caller: go on, return a result, or raise. */
  datatype Reply =
    | Proceed
    | Return(result: ProviderResult)
    | RaiseFailure(failure: Failure)
    | RaiseConflict
    | RaiseNoInvocation

  const AMBIGUOUS_FAILURE := Failure("AI_PROVIDER_EFFECT_AMBIGUOUS", false, None)

  // ----- the four transactions -----

  function ReserveTx(row: Option<Row>, call: Call, invocationExists: bool): (Option<Row>, Reply) {
    match row
    case Some(r) =>
      if r.requestHash != call.requestHash || r.effectType != call.effectType then (row, RaiseConflict)
      else if r.state == Completed && r.payload.Some? && r.payload.value.ResultPayload? then
        (row, Return(r.payload.value.result))
      else if r.state == Failed && r.payload.Some? && r.payload.value.FailurePayload? then
        (row, RaiseFailure(r.payload.value.failure))
      else if r.state == Dispatching || r.state == Ambiguous then (row, RaiseFailure(AMBIGUOUS_FAILURE))
      else (row, Proceed)
    case None =>
      if !invocationExists then (row, RaiseNoInvocation)
      else (Some(Row(call.requestHash, call.effectType, Reserved, 0, None)), Proceed)
  }

  function DispatchTx(row: Option<Row>): (Option<Row>, Reply) {
    if row.Some? && row.value.state == Reserved then
      (Some(row.value.(state := Dispatching, dispatchCount := 1)), Proceed)
    else if row.Some? && row.value.state == Completed && row.value.payload.Some?
            && row.value.payload.value.ResultPayload? then
      (row, Return(row.value.payload.value.result))
    else (row, RaiseFailure(AMBIGUOUS_FAILURE))
  }

  function FailTx(row: Option<Row>, failure: Failure): Option<Row> {
    if row.Some? && row.value.state == Dispatching then
      Some(row.value.(state := Failed, payload := Some(FailurePayload(failure))))
    else row
  }

  /** The completing update names only the key, not the state. */
  function CompleteTx(row: Option<Row>, result: ProviderResult): Option<Row> {
    if row.Some? then Some(row.value.(state := Completed, payload := Some(ResultPayload(result))))
    else row
  }

  /** The table row for the key, updated in place. */
  class EffectTable {
    var row: Option<Row>

    constructor ()
      ensures row == None
    {
      row := None;
    }

    method Reserve(call: Call, invocationExists: bool) returns (reply: Reply)
      modifies this
      ensures (row, reply) == ReserveTx(old(row), call, invocationExists)
    {
      if row.Some? {
        var r := row.value;
        if r.requestHash != call.requestHash || r.effectType != call.effectType {
          return RaiseConflict;
        }
        if r.state == Completed && r.payload.Some? && r.payload.value.ResultPayload? {
          return Return(r.payload.value.result);
        }
        if r.state == Failed && r.payload.Some? && r.payload.value.FailurePayload? {
          return RaiseFailure(r.payload.value.failure);
        }
        if r.state == Dispatching || r.state == Ambiguous {
          return RaiseFailure(AMBIGUOUS_FAILURE);
        }
        return Proceed;
      }
      if !invocationExists {
        return RaiseNoInvocation;
      }
      row := Some(Row(call.requestHash, call.effectType, Reserved, 0, None));
      return Proceed;
    }

    method Dispatch() returns (reply: Reply)
      modifies this
      ensures (row, reply) == DispatchTx(old(row))
    {
      if row.Some? && row.value.state == Reserved {
        row := Some(row.value.(state := Dispatching));
        row := Some(row.value.(dispatchCount := 1));
        return Proceed;
      }
      if row.Some? && row.value.state == Completed && row.value.payload.Some?
         && row.value.payload.value.ResultPayload? {
        return Return(row.value.payload.value.result);
      }
      return RaiseFailure(AMBIGUOUS_FAILURE);
    }

    method RecordFailure(failure: Failure)
      modifies this
      ensures row == FailTx(old(row), failure)
      ensures old(row).None? || old(row).value.state != Dispatching ==> row == old(row)
      ensures old(row).Some? && old(row).value.state == Dispatching ==> row.Some? && Records(row.value, Breaks(failure))
    {
      if row.Some? && row.value.state == Dispatching {
        row := Some(row.value.(state := Failed));
        row := Some(row.value.(payload := Some(FailurePayload(failure))));
      }
    }

    method RecordResult(result: ProviderResult)
      modifies this
      ensures row == CompleteTx(old(row), result)
      ensures old(row).None? ==> row.None?
      ensures old(row).Some? ==> row.Some? && Records(row.value, Gives(result))
    {
      if row.Some? {
        row := Some(row.value.(state := Completed));
        row := Some(row.value.(payload := Some(ResultPayload(result))));
      }
    }

    /** `execute` from beginning to end with nobody else at the key: the operation is entered
        exactly on a new or merely reserved row of the same request, and its outcome is then what
        the row records.  Otherwise nothing changes, and the caller gets the recorded outcome
        again, or the ambiguity, the conflict or the missing invocation. */
    method Execute(call: Call, invocationExists: bool, operation: Operation) returns (reply: Reply, started: bool)
      modifies this
      ensures started <==>
                if old(row).Some? then old(row).value.state == Reserved && Matches(old(row).value, call) else invocationExists
      ensures !started ==> row == old(row)
      ensures started ==> row.Some? && Matches(row.value, call) && Records(row.value, operation)
      ensures started ==> reply == Replay(operation)
      ensures reply.Return? ==> row.Some? && row.value.state == Completed && row.value.payload == Some(ResultPayload(reply.result))
      ensures old(row).None? && !invocationExists ==> reply == RaiseNoInvocation
      ensures old(row).Some? && !Matches(old(row).value, call) ==> reply == RaiseConflict
      ensures old(row).Some? && Matches(old(row).value, call) ==>
                forall other :: Records(old(row).value, other) ==> reply == Replay(other)
      ensures old(row).Some? && Matches(old(row).value, call) && old(row).value.state in {Dispatching, Ambiguous} ==>
                reply == RaiseFailure(AMBIGUOUS_FAILURE)
    {
      started := false;
      reply := Reserve(call, invocationExists);
      if reply != Proceed {
        return;
      }
      reply := Dispatch();
      if reply != Proceed {
        return;
      }
      started := true;
      match operation {
        case Gives(result) =>
          RecordResult(result);
          reply := Return(result);
        case Breaks(failure) =>
          RecordFailure(failure);
          reply := RaiseFailure(failure);
      }
    }
  }

  /** What the operation body does when it is entered and comes back. */
  datatype Operation = Gives(result: ProviderResult) | Breaks(failure: Failure)

  predicate Matches(r: Row, call: Call) {
    r.requestHash == call.requestHash && r.effectType == call.effectType
  }

  /** What a caller gets for an outcome, when it happens and ever after. */
  function Replay(operation: Operation): Reply {
    match operation
    case Gives(result) => Return(result)
    case Breaks(failure) => RaiseFailure(failure)
  }

  predicate Records(r: Row, operation: Operation) {
    match operation
    case Gives(result) => r.state == Completed && r.payload == Some(ResultPayload(result))
    case Breaks(failure) => r.state == Failed && r.payload == Some(FailurePayload(failure))
  }

  // ----- callers -----

  /** Where one `execute` call stands.  `Dispatched` has committed the dispatching state but
      not yet entered the operation; `GotResult`/`GotFailure` have left it. */
  datatype Phase =
    | Entered
    | AwaitDispatch
    | Dispatched
    | Operating
    | GotResult(result: ProviderResult)
    | GotFailure(failure: Failure)
    | Returned(value: ProviderResult)
    | Raised(why: Reply)
    | Stopped

  datatype Worker = Worker(call: Call, phase: Phase)

  /** `starts` counts entries into the operation body; `produced` is what the body returned and
      `broke` the failure it raised. */
  datatype World = World(row: Option<Row>, workers: map<nat, Worker>, starts: nat,
                         produced: Option<ProviderResult>, broke: Option<Failure>)

  datatype Step =
    | Enter(id: nat, call: Call)
    | DoReserve(id: nat, invocationExists: bool)
    | DoDispatch(id: nat)
    | StartOperation(id: nat)
    | OperationReturns(id: nat, result: ProviderResult)
    | OperationFails(id: nat, failure: Failure)
    | DoRecordFailure(id: nat)
    | DoRecordResult(id: nat)
    | Crash(id: nat)

  const INIT := World(None, map[], 0, None, None)

  function Settle(reply: Reply, next: Phase): Phase {
    match reply
    case Proceed => next
    case Return(r) => Returned(r)
    case _ => Raised(reply)
  }

  function SetPhase(w: World, id: nat, phase: Phase): World
    requires id in w.workers
  {
    w.(workers := w.workers[id := w.workers[id].(phase := phase)])
  }

  /** One step of one caller; a step that is not enabled changes nothing. */
  function Next(w: World, step: Step): World {
    if step.Enter? then
      if step.id in w.workers then w
      else w.(workers := w.workers[step.id := Worker(step.call, Entered)])
    else if step.id !in w.workers then w
    else
      var id := step.id;
      var phase := w.workers[id].phase;
      match step
      case Enter(_, _) => w
      case DoReserve(_, exists_) =>
        if phase.Entered? then
          var (row, reply) := ReserveTx(w.row, w.workers[id].call, exists_);
          SetPhase(w, id, Settle(reply, AwaitDispatch)).(row := row)
        else w
      case DoDispatch(_) =>
        if phase.AwaitDispatch? then
          var (row, reply) := DispatchTx(w.row);
          SetPhase(w, id, Settle(reply, Dispatched)).(row := row)
        else w
      case StartOperation(_) =>
        if phase.Dispatched? then SetPhase(w, id, Operating).(starts := w.starts + 1) else w
      case OperationReturns(_, r) =>
        if phase.Operating? then SetPhase(w, id, GotResult(r)).(produced := Some(r)) else w
      case OperationFails(_, f) =>
        if phase.Operating? then SetPhase(w, id, GotFailure(f)).(broke := Some(f)) else w
      case DoRecordFailure(_) =>
        if phase.GotFailure? then
          SetPhase(w, id, Raised(RaiseFailure(phase.failure))).(row := FailTx(w.row, phase.failure))
        else w
      case DoRecordResult(_) =>
        if phase.GotResult? then
          SetPhase(w, id, Returned(phase.result)).(row := CompleteTx(w.row, phase.result))
        else w
      case Crash(_) =>
        if phase.Returned? || phase.Raised? then w else SetPhase(w, id, Stopped)
  }

  function Run(w: World, steps: seq<Step>): World
    decreases |steps|
  {
    if steps == [] then w else Next(Run(w, steps[..|steps| - 1]), steps[|steps| - 1])
  }

  // ----- the invariant -----

  predicate Active(p: Phase) {
    p.Dispatched? || p.Operating? || p.GotResult? || p.GotFailure?
  }

  ghost predicate RowOk(w: World) {
    match w.row
    case None => w.starts == 0
    case Some(r) =>
      && (r.state == Reserved ==> r.dispatchCount == 0 && r.payload == None && w.starts == 0)
      && (r.state != Reserved ==> r.dispatchCount == 1)
      && (r.state == Dispatching ==> r.payload == None)
      && (r.state == Completed ==> w.produced.Some? && r.payload == Some(ResultPayload(w.produced.value)))
      && (r.state == Failed ==> w.broke.Some? && r.payload == Some(FailurePayload(w.broke.value)))
      && r.state != Ambiguous
  }

  ghost predicate WorkerOk(w: World, id: nat)
    requires id in w.workers
  {
    var c := w.workers[id].call;
    var p := w.workers[id].phase;
    && (p.AwaitDispatch? || Active(p) ==>
          w.row.Some? && c == Call(w.row.value.requestHash, w.row.value.effectType))
    && (Active(p) ==> w.row.value.state == Dispatching)
    && (p.Dispatched? ==> w.starts == 0)
    && (p.GotResult? ==> w.produced == Some(p.result))
    && (p.GotFailure? ==> w.broke == Some(p.failure))
    && (p.Returned? ==> w.row.Some? && w.row.value.state == Completed && w.produced == Some(p.value))
  }

  ghost predicate Inv(w: World) {
    && RowOk(w)
    && w.starts <= 1
    && (forall id :: id in w.workers ==> WorkerOk(w, id))
    && (forall i, j :: i in w.workers && Active(w.workers[i].phase) ==>
          j in w.workers && Active(w.workers[j].phase) ==> i == j)
  }

  lemma NextKeepsRowOk(w: World, step: Step)
    requires Inv(w)
    ensures RowOk(Next(w, step)) && Next(w, step).starts <= 1
  {
    if step.id in w.workers {
      assert WorkerOk(w, step.id);
    }
  }

  lemma NextKeepsWorker(w: World, step: Step, id: nat)
    requires Inv(w) && id in Next(w, step).workers
    ensures WorkerOk(Next(w, step), id)
    ensures id != step.id ==> id in w.workers && Next(w, step).workers[id] == w.workers[id]
  {
    if id in w.workers {
      assert WorkerOk(w, id);
    }
    if step.id in w.workers {
      assert WorkerOk(w, step.id);
    }
  }

  /** A caller that enters the dispatched section finds it empty. */
  lemma NextEntersAlone(w: World, step: Step, i: nat)
    requires Inv(w) && step.id in w.workers && step.id in Next(w, step).workers
    requires Active(Next(w, step).workers[step.id].phase) && i in w.workers && Active(w.workers[i].phase)
    ensures i == step.id
  {
    assert WorkerOk(w, i) && WorkerOk(w, step.id);
  }

  lemma NextKeepsInv(w: World, step: Step)
    requires Inv(w)
    ensures Inv(Next(w, step))
  {
    var v := Next(w, step);
    NextKeepsRowOk(w, step);
    forall id | id in v.workers
      ensures WorkerOk(v, id) && (id != step.id ==> id in w.workers && v.workers[id] == w.workers[id])
    {
      NextKeepsWorker(w, step, id);
    }
    forall i | i in w.workers && Active(w.workers[i].phase) && step.id in v.workers && Active(v.workers[step.id].phase)
      ensures i == step.id
    {
      NextEntersAlone(w, step, i);
    }
  }

  lemma {:induction false} RunKeepsInv(w: World, steps: seq<Step>)
    requires Inv(w)
    ensures Inv(Run(w, steps))
    decreases |steps|
  {
    if steps != [] {
      var front := steps[..|steps| - 1];
      RunKeepsInv(w, front);
      NextKeepsInv(Run(w, front), steps[|steps| - 1]);
    }
  }

  // ----- main results -----

  /** In every run the operation starts at most once, `dispatch_count` is 0 exactly while the
      row is reserved and 1 ever after, and every call that returned normally returned the
      result the operation produced, which is the one recorded in a completed row. */
  lemma AtMostOneOperation(steps: seq<Step>)
    ensures var w := Run(INIT, steps);
            && w.starts <= 1
            && (w.row.Some? ==> w.row.value.dispatchCount == if w.row.value.state == Reserved then 0 else 1)
            && (w.starts == 1 ==> w.row.Some? && w.row.value.dispatchCount == 1)
            && forall id :: id in w.workers && w.workers[id].phase.Returned? ==>
                 && w.row.Some? && w.row.value.state == Completed
                 && w.row.value.payload == Some(ResultPayload(w.workers[id].phase.value))
                 && w.produced == Some(w.workers[id].phase.value)
  {
    RunKeepsInv(INIT, steps);
    var w := Run(INIT, steps);
    forall id | id in w.workers && w.workers[id].phase.Returned?
      ensures w.row.Some? && w.row.value.state == Completed && w.produced == Some(w.workers[id].phase.value)
    {
      assert WorkerOk(w, id);
    }
  }

  predicate Terminal(row: Option<Row>) {
    row.Some? && (row.value.state == Completed || row.value.state == Failed)
  }

  lemma NextKeepsRow(w: World, step: Step)
    requires Inv(w) && Terminal(w.row)
    ensures Next(w, step).row == w.row && Next(w, step).starts == w.starts
  {
    if step.id in w.workers {
      assert WorkerOk(w, step.id);
    }
  }

  /** A recorded outcome is final: no later run changes the row or starts the operation again. */
  lemma {:induction false} OutcomeIsFinal(before: seq<Step>, after: seq<Step>)
    requires Terminal(Run(INIT, before).row)
    ensures Run(INIT, before + after).row == Run(INIT, before).row
    ensures Run(INIT, before + after).starts == Run(INIT, before).starts
    decreases |after|
  {
    if after == [] {
      assert before + after == before;
    } else {
      var front := after[..|after| - 1];
      OutcomeIsFinal(before, front);
      RunKeepsInv(INIT, before + front);
      assert (before + after)[..|before + after| - 1] == before + front;
      NextKeepsRow(Run(INIT, before + front), after[|after| - 1]);
    }
  }

  /** No caller is inside the dispatched section. */
  ghost predicate Orphaned(w: World) {
    && w.row.Some? && w.row.value.state == Dispatching
    && forall id :: id in w.workers ==> !Active(w.workers[id].phase)
  }

  /** Any caller inside the dispatched section may die there and leave it orphaned. */
  lemma DispatcherMayDie(w: World, id: nat)
    requires Inv(w) && id in w.workers && Active(w.workers[id].phase)
    ensures Orphaned(Next(w, Crash(id))) && Next(w, Crash(id)).row == w.row
  {
    assert WorkerOk(w, id);
  }

  lemma OrphanedStays(w: World, step: Step)
    requires Inv(w) && Orphaned(w)
    ensures var v := Next(w, step);
            Orphaned(v) && v.starts == w.starts && v.row == w.row
  {
    if step.id in w.workers {
      assert WorkerOk(w, step.id);
    }
  }

  /** The ambiguity fence: once the only dispatcher has died inside the dispatched section, no
      run ever starts the operation again and no call ever returns a result. */
  lemma {:induction false} AmbiguityIsPermanent(w: World, steps: seq<Step>)
    requires Inv(w) && Orphaned(w)
    ensures var v := Run(w, steps);
            && Orphaned(v) && v.row == w.row && v.starts == w.starts
            && forall id :: id in v.workers ==> !v.workers[id].phase.Returned?
    decreases |steps|
  {
    var v := Run(w, steps);
    if steps != [] {
      var front := steps[..|steps| - 1];
      AmbiguityIsPermanent(w, front);
      RunKeepsInv(w, front);
      OrphanedStays(Run(w, front), steps[|steps| - 1]);
    }
    RunKeepsInv(w, steps);
    forall id | id in v.workers
      ensures !v.workers[id].phase.Returned?
    {
      assert WorkerOk(v, id);
    }
  }

  // ----- replays -----

  /** The operation has come back and its outcome is in the row. */
  ghost predicate Settled(w: World, operation: Operation) {
    && w.row.Some? && Terminal(w.row) && Records(w.row.value, operation)
    && (operation.Gives? ==> w.produced == Some(operation.result))
    && (operation.Breaks? ==> w.broke == Some(operation.failure))
  }

  /** A terminal row holds what the operation body itself returned or raised. */
  lemma TerminalIsSettled(steps: seq<Step>)
    requires Terminal(Run(INIT, steps).row)
    ensures var w := Run(INIT, steps);
            if w.row.value.state == Completed then w.produced.Some? && Settled(w, Gives(w.produced.value))
            else w.broke.Some? && Settled(w, Breaks(w.broke.value))
  {
    RunKeepsInv(INIT, steps);
  }

  /** Where a caller that came after the outcome can stand: it has not looked yet, it stopped, or
      it has its answer, which is the outcome if its request matches and a conflict if not. */
  predicate Answered(w: World, id: nat, operation: Operation)
    requires id in w.workers && w.row.Some?
  {
    var call, phase := w.workers[id].call, w.workers[id].phase;
    || phase.Entered? || phase.Stopped?
    || phase == if !Matches(w.row.value, call) then Raised(RaiseConflict)
                else if operation.Gives? then Returned(operation.result) else Raised(RaiseFailure(operation.failure))
  }

  lemma LookReplays(w: World, id: nat, exists_: bool, operation: Operation)
    requires Settled(w, operation) && id in w.workers && w.workers[id].phase.Entered?
    ensures var v := Next(w, DoReserve(id, exists_));
            && v.row == w.row && id in v.workers && v.workers[id].call == w.workers[id].call
            && Answered(v, id, operation) && (v.workers[id].phase.Returned? || v.workers[id].phase.Raised?)
  {
  }

  lemma AnsweredStays(w: World, step: Step, id: nat, operation: Operation)
    requires Inv(w) && Settled(w, operation) && (id in w.workers ==> Answered(w, id, operation))
    ensures var v := Next(w, step);
            && v.row == w.row && Settled(v, operation)
            && (id in v.workers ==> Answered(v, id, operation))
  {
    NextKeepsRow(w, step);
    if step.id in w.workers {
      assert WorkerOk(w, step.id);
    }
  }

  lemma {:induction false} LateCallersReplay(w: World, steps: seq<Step>, id: nat, operation: Operation)
    requires Inv(w) && Settled(w, operation) && id !in w.workers
    ensures var v := Run(w, steps);
            && v.row == w.row && Settled(v, operation)
            && (id in v.workers ==> Answered(v, id, operation))
    decreases |steps|
  {
    if steps != [] {
      LateCallersReplay(w, steps[..|steps| - 1], id, operation);
      RunKeepsInv(w, steps[..|steps| - 1]);
      AnsweredStays(Run(w, steps[..|steps| - 1]), steps[|steps| - 1], id, operation);
    }
  }

  /** Once the outcome is recorded, every caller that enters later and looks gets it: the produced
      result returned, the raised failure raised again, or a conflict if its request differs.  It
      never gets anything else, and looking is all it takes. */
  lemma OutcomeIsReplayed(before: seq<Step>, after: seq<Step>, id: nat, exists_: bool, operation: Operation)
    requires Settled(Run(INIT, before), operation) && id !in Run(INIT, before).workers
    requires id in Run(Run(INIT, before), after).workers
    ensures var w := Run(Run(INIT, before), after);
            && w.row.Some? && Answered(w, id, operation)
            && (w.workers[id].phase.Entered? ==>
                  var v := Next(w, DoReserve(id, exists_));
                  && id in v.workers && v.row.Some? && Answered(v, id, operation)
                  && (v.workers[id].phase.Returned? || v.workers[id].phase.Raised?))
  {
    RunKeepsInv(INIT, before);
    LateCallersReplay(Run(INIT, before), after, id, operation);
    var w := Run(Run(INIT, before), after);
    if w.workers[id].phase.Entered? {
      LookReplays(w, id, exists_, operation);
    }
  }

  /** A caller that had looked at the reserved row and lost the race to dispatch gets the produced
      result if it is there by then, and the ambiguity if not. */
  lemma LoserAnswers(w: World, id: nat)
    requires Inv(w) && id in w.workers && w.workers[id].phase.AwaitDispatch? && w.row.value.state != Reserved
    ensures var v := Next(w, DoDispatch(id));
            && v.row == w.row && id in v.workers
            && v.workers[id].phase == if w.row.value.state == Completed && w.produced.Some? then Returned(w.produced.value)
                                      else Raised(RaiseFailure(AMBIGUOUS_FAILURE))
  {
    assert WorkerOk(w, id);
  }
}
