/** `ReferenceAIGateway.execute` seen from the durable row: any number of workers load, claim,
    checkpoint, commit, fall into the error or cancellation handler, and release.  Each worker
    presents only the owner it drew and the generation it was granted, may stop anywhere, and
    may fail to see the acknowledgement of a commit that did happen.  A claimed worker that
    gives up (a wait that times out, a handler that is cancelled) still releases its claim. */
module ExecuteWorkers {
  import opened Options
  import opened ExecutionLease

  /** `copy` is the worker's own invocation object.  A settled reply is one the worker
      returns knowing it was committed (or loaded it committed). */
  datatype Phase =
    | Arrived
    | Loaded(copy: Snapshot)
    | Working(copy: Snapshot)
    | Recovering(copy: Snapshot)
    | Committing(copy: Snapshot)
    | Interrupted(copy: Snapshot)
    | Handling(copy: Snapshot)
    | Finalizing(copy: Snapshot)
    | Waiting(held: Option<Snapshot>)
    | Releasing(copy: Snapshot, reply: Option<Response>, settled: bool)
    | Done(reply: Option<Response>, settled: bool)
    | Stopped

  datatype World = World(row: Row, workers: map<Owner, Phase>)

  datatype Step =
    | Arrive(id: Owner)
    | Load(id: Owner)
    | Claim(id: Owner, now: nat, lease: nat)
    | Heartbeat(id: Owner, now: nat, lease: nat)
    | Progress(id: Owner, progress: nat, onError: Response)
    | Decide(id: Owner, response: Response)
    | Commit(id: Owner, acknowledged: bool)
    | Recover(id: Owner)
    | Fail(id: Owner, response: Response)
    | LoseOwnership(id: Owner)
    | StoreIntent(id: Owner, acknowledged: bool)
    | Finalize(id: Owner)
    | WaitForTerminal(id: Owner)
    | ReleaseClaim(id: Owner)
    | GiveUp(id: Owner)
    | Crash(id: Owner)

  const INIT := World(ACCEPTED, map[])

  function Set(w: World, id: Owner, phase: Phase): World {
    w.(workers := w.workers[id := phase])
  }

  /** The handler puts a failure response into both terminal fields of the worker's copy. */
  function Condemn(copy: Snapshot, response: Response): Phase {
    Handling(copy.(terminal := Some(response), intent := Some(response)))
  }

  function AfterClaim(copy: Snapshot, id: Owner, generation: nat): Phase {
    var mine := copy.(owner := Some(id), generation := generation);
    if mine.intent.Some? then Recovering(mine.(terminal := mine.intent)) else Working(mine)
  }

  function Next(w: World, step: Step): World {
    var id := step.id;
    if step.Arrive? then
      if id in w.workers then w else Set(w, id, Arrived)
    else if id !in w.workers then w
    else
      var phase := w.workers[id];
      match step
      case Arrive(_) => w
      case Load(_) =>
        if !phase.Arrived? then w
        else
          var copy := LoadTx(w.row);
          if copy.terminal.Some? then Set(w, id, Done(copy.terminal, true)) else Set(w, id, Loaded(copy))
      case Claim(_, now, lease) =>
        if !phase.Loaded? then w
        else
          var (row, granted) := ClaimTx(w.row, id, now, lease);
          if granted.Some? then Set(w, id, AfterClaim(phase.copy, id, granted.value)).(row := row)
          else Set(w, id, Waiting(None))
      case Heartbeat(_, now, lease) =>
        if Claimed(phase) then w.(row := RenewTx(w.row, id, Copy(phase).generation, now, lease).0) else w
      case Progress(_, progress, onError) =>
        if !phase.Working? then w
        else
          var copy := phase.copy.(progress := progress);
          var (row, updated) := CheckpointTx(w.row, copy);
          Set(w, id, if updated then Working(copy) else Condemn(copy, onError)).(row := row)
      case Decide(_, response) =>
        if phase.Working? then Set(w, id, Committing(phase.copy.(terminal := Some(response)))) else w
      case Commit(_, acknowledged) =>
        if !phase.Committing? then w
        else
          var (row, updated) := CheckpointTx(w.row, phase.copy);
          Set(w, id, if updated && acknowledged then Releasing(phase.copy, phase.copy.terminal, true)
                     else Interrupted(phase.copy)).(row := row)
      case Recover(_) =>
        if !phase.Recovering? then w
        else
          var (row, updated) := CheckpointTx(w.row, phase.copy);
          Set(w, id, if updated then Releasing(phase.copy, phase.copy.terminal, true)
                     else Releasing(phase.copy, None, false)).(row := row)
      case Fail(_, response) =>
        if phase.Working? || phase.Committing? || phase.Interrupted?
        then Set(w, id, Condemn(phase.copy, response)) else w
      case LoseOwnership(_) =>
        if phase.Working? then Set(w, id, Waiting(Some(phase.copy))) else w
      case StoreIntent(_, acknowledged) =>
        if !phase.Handling? then w
        else
          var (row, updated) := IntentTx(w.row, phase.copy);
          Set(w, id, if updated && acknowledged then Finalizing(phase.copy)
                     else Releasing(phase.copy, phase.copy.terminal, false)).(row := row)
      case Finalize(_) =>
        if !phase.Finalizing? then w
        else
          var (row, updated) := CheckpointTx(w.row, phase.copy);
          Set(w, id, Releasing(phase.copy, phase.copy.terminal, updated)).(row := row)
      case WaitForTerminal(_) =>
        if !(phase.Waiting? && w.row.terminal.Some?) then w
        else
          var reply := LoadTx(w.row).terminal;
          if phase.held.Some? then Set(w, id, Releasing(phase.held.value, reply, true))
          else Set(w, id, Done(reply, true))
      case ReleaseClaim(_) =>
        if !phase.Releasing? then w
        else Set(w, id, Done(phase.reply, phase.settled)).(row := ReleaseTx(w.row, id, phase.copy.generation))
      case GiveUp(_) =>
        if Claimed(phase) then Set(w, id, Releasing(Copy(phase), None, false)) else w
      case Crash(_) =>
        if phase.Done? then w else Set(w, id, Stopped)
  }

  predicate Claimed(p: Phase) {
    || p.Working? || p.Recovering? || p.Committing? || p.Interrupted? || p.Handling? || p.Finalizing?
    || p.Releasing? || (p.Waiting? && p.held.Some?)
  }

  function Copy(p: Phase): Snapshot
    requires Claimed(p)
  {
    match p
    case Working(c) => c
    case Recovering(c) => c
    case Committing(c) => c
    case Interrupted(c) => c
    case Handling(c) => c
    case Finalizing(c) => c
    case Waiting(c) => c.value
    case Releasing(c, _, _) => c
  }

  function Run(w: World, steps: seq<Step>): World
    decreases |steps|
  {
    if steps == [] then w else Next(Run(w, steps[..|steps| - 1]), steps[|steps| - 1])
  }

  // ----- invariant -----

  /** The next store operation of the phase is a checkpoint. */
  predicate MayCheckpoint(p: Phase) {
    p.Working? || p.Recovering? || p.Committing? || p.Finalizing?
  }

  ghost predicate RowOk(row: Row) {
    && (row.terminal.Some? ==> row.request == row.terminal.value && row.terminal.value.terminal.Some?)
    && (row.request.intent.Some? ==>
          row.intent.Some? && IntendedResponse(row.intent.value) == row.request.intent)
    && (row.intent.Some? ==> row.intent.value.intent.Some?)
    && (row.terminal.Some? && row.terminal.value.intent.Some? ==>
          row.terminal.value.terminal == row.terminal.value.intent)
    && (row.owner.Some? ==> row.leaseExpires.Some?)
  }

  ghost predicate ReplyOk(row: Row, reply: Option<Response>, settled: bool) {
    settled ==> row.terminal.Some? && reply == row.terminal.value.terminal
  }

  ghost predicate WorkerOk(row: Row, id: Owner, p: Phase) {
    && (Claimed(p) ==>
          && Copy(p).owner == Some(id) && 0 < Copy(p).generation <= row.generation
          && (row.owner == Some(id) ==> row.generation == Copy(p).generation)
          && (row.terminal.Some? && row.owner == Some(id) ==> !MayCheckpoint(p)))
    && (!Claimed(p) ==> row.owner != Some(id) || p.Stopped?)
    && (p.Loaded? ==> p.copy.terminal == None)
    && (p.Loaded? && p.copy.intent.Some? ==>
          row.intent.Some? && IntendedResponse(row.intent.value) == p.copy.intent)
    && (p.Working? ==> p.copy.terminal == None && p.copy.intent == None)
    && (p.Committing? || p.Interrupted? ==> p.copy.terminal.Some? && p.copy.intent == None)
    && (p.Handling? ==> p.copy.intent.Some? && p.copy.terminal == p.copy.intent)
    && (p.Recovering? || p.Finalizing? ==>
          && p.copy.intent.Some? && p.copy.terminal == p.copy.intent
          && row.intent.Some? && IntendedResponse(row.intent.value) == p.copy.intent)
    && (p.Releasing? || p.Done? ==> ReplyOk(row, p.reply, p.settled))
  }

  ghost predicate Inv(w: World) {
    && RowOk(w.row)
    && (forall id :: id in w.workers ==> WorkerOk(w.row, id, w.workers[id]))
    && (w.row.owner.Some? ==> w.row.owner.value in w.workers)
  }

  lemma NextKeepsRowOk(w: World, step: Step)
    requires Inv(w)
    ensures RowOk(Next(w, step).row)
  {
    if step.id in w.workers {
      assert WorkerOk(w.row, step.id, w.workers[step.id]);
    }
  }

  /** Steps that end in a checkpoint, an intent or a release. */
  predicate Writes(step: Step) {
    step.Progress? || step.Commit? || step.Recover? || step.StoreIntent? || step.Finalize? || step.ReleaseClaim?
  }

  lemma WriterStaysOk(w: World, step: Step)
    requires Inv(w) && Writes(step) && step.id in w.workers
    ensures step.id in Next(w, step).workers && WorkerOk(Next(w, step).row, step.id, Next(w, step).workers[step.id])
  {
    assert WorkerOk(w.row, step.id, w.workers[step.id]);
  }

  lemma ReaderStaysOk(w: World, step: Step)
    requires Inv(w) && !Writes(step) && step.id in w.workers
    ensures step.id in Next(w, step).workers && WorkerOk(Next(w, step).row, step.id, Next(w, step).workers[step.id])
  {
    assert WorkerOk(w.row, step.id, w.workers[step.id]);
  }

  lemma NextKeepsActor(w: World, step: Step)
    requires Inv(w)
    ensures var v := Next(w, step);
            step.id in v.workers ==> WorkerOk(v.row, step.id, v.workers[step.id])
  {
    if step.id in w.workers {
      if Writes(step) {
        WriterStaysOk(w, step);
      } else {
        ReaderStaysOk(w, step);
      }
    }
  }

  lemma NextKeepsOthers(w: World, step: Step, id: Owner)
    requires Inv(w) && id in w.workers && id != step.id
    ensures var v := Next(w, step);
            id in v.workers && v.workers[id] == w.workers[id] && WorkerOk(v.row, id, v.workers[id])
  {
    assert WorkerOk(w.row, id, w.workers[id]);
    if step.id in w.workers {
      assert WorkerOk(w.row, step.id, w.workers[step.id]);
    }
  }

  lemma OwnerIsWorker(w: World, step: Step)
    requires Inv(w) && Next(w, step).row.owner.Some?
    ensures Next(w, step).row.owner.value in Next(w, step).workers
  {
  }

  lemma NextKeepsInv(w: World, step: Step)
    requires Inv(w)
    ensures Inv(Next(w, step))
  {
    var v := Next(w, step);
    NextKeepsRowOk(w, step);
    if v.row.owner.Some? {
      OwnerIsWorker(w, step);
    }
    NextKeepsActor(w, step);
    forall id | id in v.workers
      ensures WorkerOk(v.row, id, v.workers[id])
    {
      if id != step.id {
        NobodyElseArrives(w, step, id);
        NextKeepsOthers(w, step, id);
      }
    }
  }

  lemma NobodyElseArrives(w: World, step: Step, id: Owner)
    requires id != step.id && id in Next(w, step).workers
    ensures id in w.workers
  {
  }

  lemma {:induction false} RunKeepsInv(w: World, steps: seq<Step>)
    requires Inv(w)
    ensures Inv(Run(w, steps))
    decreases |steps|
  {
    if steps != [] {
      var front := steps[..|steps| - 1];
      RunKeepsInv(w, front);
      NextKeepsInv(Run(w, front), steps[|steps| - 1]);
    }
  }

  // ----- main results -----

  lemma NextKeepsTerminal(w: World, step: Step)
    requires Inv(w) && w.row.terminal.Some?
    ensures var v := Next(w, step);
            && v.row.terminal == w.row.terminal && v.row.request == w.row.request
            && v.row.intent == w.row.intent && v.row.generation == w.row.generation
            && v.row.leaseExpires in {w.row.leaseExpires, None}
  {
    if step.id in w.workers {
      assert WorkerOk(w.row, step.id, w.workers[step.id]);
    }
  }

  /** Once a terminal payload is committed it never changes, no claim, renewal or terminal
      intent succeeds, and every load returns it, in every continuation of the run: also when
      the committing worker missed the acknowledgement and went through its handler. */
  lemma {:induction false} TerminalIsFinal(before: seq<Step>, after: seq<Step>, id: Owner,
                                           generation: nat, copy: Snapshot, now: nat, lease: nat)
    requires Run(INIT, before).row.terminal.Some?
    ensures var row := Run(INIT, before).row;
            var later := Run(INIT, before + after).row;
            && later.terminal == row.terminal && later.generation == row.generation
            && later.intent == row.intent
            && ClaimTx(later, id, now, lease) == (later, None)
            && RenewTx(later, id, generation, now, lease) == (later, false)
            && IntentTx(later, copy) == (later, false)
            && LoadTx(later).terminal == row.terminal.value.terminal
    decreases |after|
  {
    RunKeepsInv(INIT, before + after);
    if after == [] {
      assert before + after == before;
    } else {
      var front := after[..|after| - 1];
      TerminalIsFinal(before, front, id, generation, copy, now, lease);
      RunKeepsInv(INIT, before + front);
      assert (before + after)[..|before + after| - 1] == before + front;
      NextKeepsTerminal(Run(INIT, before + front), after[|after| - 1]);
    }
  }

  lemma NextKeepsIntent(w: World, step: Step)
    requires w.row.intent.Some?
    ensures Next(w, step).row.intent == w.row.intent
  {
  }

  /** A stored terminal intent is never replaced or removed. */
  lemma {:induction false} IntentIsFinal(before: seq<Step>, after: seq<Step>)
    requires Run(INIT, before).row.intent.Some?
    ensures Run(INIT, before + after).row.intent == Run(INIT, before).row.intent
    decreases |after|
  {
    if after == [] {
      assert before + after == before;
    } else {
      var front := after[..|after| - 1];
      IntentIsFinal(before, front);
      assert (before + after)[..|before + after| - 1] == before + front;
      NextKeepsIntent(Run(INIT, before + front), after[|after| - 1]);
    }
  }

  /** Every settled reply, of whichever worker and at whatever time, is the committed response. */
  lemma SettledRepliesAgree(steps: seq<Step>)
    ensures var w := Run(INIT, steps);
            forall id :: id in w.workers && w.workers[id].Done? && w.workers[id].settled ==>
              w.row.terminal.Some? && w.workers[id].reply == w.row.terminal.value.terminal
  {
    RunKeepsInv(INIT, steps);
    var w := Run(INIT, steps);
    forall id | id in w.workers && w.workers[id].Done? && w.workers[id].settled
      ensures w.row.terminal.Some? && w.workers[id].reply == w.row.terminal.value.terminal
    {
      assert WorkerOk(w.row, id, w.workers[id]);
    }
  }

  /** A committed payload whose worker knew of an intent carries exactly the stored intent's
      response. */
  lemma KnownIntentIsHonoured(steps: seq<Step>)
    ensures var row := Run(INIT, steps).row;
            row.terminal.Some? && row.terminal.value.intent.Some? ==>
              row.intent.Some? && row.terminal.value.terminal == IntendedResponse(row.intent.value)
  {
    RunKeepsInv(INIT, steps);
  }

  // ----- which replies can differ from the committed response -----

  /** The worker may still fall into its handler, or its answer is already another one. */
  predicate MayDiffer(p: Phase, committed: Option<Response>) {
    match p
    case Working(_) => true
    case Committing(_) => true
    case Interrupted(_) => true
    case Handling(copy) => copy.terminal != committed
    case Finalizing(copy) => copy.terminal != committed
    case Releasing(_, reply, _) => reply.Some? && reply != committed
    case Done(reply, _) => reply.Some? && reply != committed
    case _ => false
  }

  /** The committed response. */
  function Committed(w: World): Option<Response>
    requires w.row.terminal.Some?
  {
    w.row.terminal.value.terminal
  }

  ghost predicate AnswersOtherwise(w: World, id: Owner, steps: seq<Step>)
    requires w.row.terminal.Some?
  {
    var v := Run(w, steps);
    id in v.workers && v.workers[id].Done? && v.workers[id].reply.Some? && v.workers[id].reply != Committed(w)
  }

  lemma AgreeingStep(w: World, step: Step, id: Owner)
    requires Inv(w) && w.row.terminal.Some? && id in w.workers && !MayDiffer(w.workers[id], Committed(w))
    ensures id in Next(w, step).workers && !MayDiffer(Next(w, step).workers[id], Committed(w))
  {
    assert WorkerOk(w.row, id, w.workers[id]);
  }

  lemma {:induction false} AgreeingRun(w: World, steps: seq<Step>, id: Owner)
    requires Inv(w) && w.row.terminal.Some? && id in w.workers && !MayDiffer(w.workers[id], Committed(w))
    ensures var v := Run(w, steps);
            && v.row.terminal == w.row.terminal
            && id in v.workers && !MayDiffer(v.workers[id], Committed(w))
    decreases |steps|
  {
    if steps != [] {
      var front := steps[..|steps| - 1];
      AgreeingRun(w, front, id);
      RunKeepsInv(w, front);
      NextKeepsTerminal(Run(w, front), steps[|steps| - 1]);
      AgreeingStep(Run(w, front), steps[|steps| - 1], id);
    }
  }

  lemma Extend(w: World, steps: seq<Step>, step: Step) returns (longer: seq<Step>)
    ensures Run(w, longer) == Next(Run(w, steps), step)
  {
    longer := steps + [step];
    assert longer[..|steps|] == steps;
  }

  /** A worker whose handler has produced its answer brings it to the caller. */
  lemma HandlerAnswers(w: World, steps: seq<Step>, id: Owner) returns (more: seq<Step>)
    requires var v := Run(w, steps);
             && v.row.terminal.Some? && id in v.workers
             && (v.workers[id].Handling? || v.workers[id].Finalizing?) && Copy(v.workers[id]).owner == Some(id)
             && (v.workers[id].Finalizing? ==> !CheckpointTx(v.row, Copy(v.workers[id])).1)
    ensures var v, x := Run(w, steps), Run(w, more);
            && x.row.terminal == v.row.terminal && id in x.workers
            && x.workers[id] == Done(Copy(v.workers[id]).terminal, false)
  {
    var v := Run(w, steps);
    var copy := Copy(v.workers[id]);
    more := Extend(w, steps, if v.workers[id].Handling? then StoreIntent(id, true) else Finalize(id));
    assert Run(w, more).workers[id] == Releasing(copy, copy.terminal, false);
    more := Extend(w, more, ReleaseClaim(id));
  }

  /** Whatever was committed, a worker that can still be cancelled or fail may answer with any
      response its handler makes up: also the worker that committed and missed the
      acknowledgement. */
  lemma CancelledReplyMayDiffer(w: World, id: Owner, r: Response) returns (steps: seq<Step>)
    requires Inv(w) && w.row.terminal.Some? && id in w.workers
    requires var p := w.workers[id]; p.Working? || p.Committing? || p.Interrupted?
    ensures var v := Run(w, steps);
            && v.row.terminal == w.row.terminal && id in v.workers
            && v.workers[id] == Done(Some(r), false)
  {
    assert WorkerOk(w.row, id, w.workers[id]);
    steps := Extend(w, [], Fail(id, r));
    steps := HandlerAnswers(w, steps, id);
  }

  lemma DifferingAnswer(w: World, id: Owner) returns (steps: seq<Step>)
    requires Inv(w) && w.row.terminal.Some? && id in w.workers && MayDiffer(w.workers[id], Committed(w))
    ensures AnswersOtherwise(w, id, steps)
  {
    var p := w.workers[id];
    assert WorkerOk(w.row, id, p);
    if p.Done? {
      steps := [];
    } else if p.Releasing? {
      steps := Extend(w, [], ReleaseClaim(id));
    } else if p.Handling? || p.Finalizing? {
      steps := HandlerAnswers(w, [], id);
    } else {
      steps := CancelledReplyMayDiffer(w, id, Response(Committed(w).value.resultId + 1, false));
    }
  }

  /** After a commit, some continuation lets a worker answer with another response exactly when
      the worker can still fall into its handler or its answer is already another one. */
  lemma ReplyMayDifferIff(w: World, id: Owner)
    requires Inv(w) && w.row.terminal.Some? && id in w.workers
    ensures (exists steps :: AnswersOtherwise(w, id, steps)) <==> MayDiffer(w.workers[id], Committed(w))
  {
    if MayDiffer(w.workers[id], Committed(w)) {
      var steps := DifferingAnswer(w, id);
      assert AnswersOtherwise(w, id, steps);
    } else {
      forall steps
        ensures !AnswersOtherwise(w, id, steps)
      {
        AgreeingRun(w, steps, id);
      }
    }
  }

  // ----- who can override a stored intent -----

  /** The worker knows of no intent and can still commit a response of its own: it can claim,
      or it owns the row and has not decided, or it owns the row and decided otherwise. */
  predicate MayOverride(w: World, id: Owner)
    requires w.row.intent.Some?
  {
    && id in w.workers
    && match w.workers[id]
       case Loaded(copy) => copy.intent.None?
       case Working(_) => w.row.owner == Some(id)
       case Committing(copy) => w.row.owner == Some(id) && copy.terminal != IntendedResponse(w.row.intent.value)
       case _ => false
  }

  ghost predicate NoneOverrides(w: World)
    requires w.row.intent.Some?
  {
    forall id :: id in w.workers ==> !MayOverride(w, id)
  }

  ghost predicate CommitsOtherwise(w: World, steps: seq<Step>)
    requires w.row.intent.Some?
  {
    var v := Run(w, steps);
    v.row.terminal.Some? && Committed(v) != IntendedResponse(w.row.intent.value)
  }

  /** Whoever commits without being able to override commits the intended response. */
  lemma HonestCommit(w: World, step: Step)
    requires Inv(w) && w.row.intent.Some? && w.row.terminal.None? && Next(w, step).row.terminal.Some?
    requires !MayOverride(w, step.id)
    ensures Committed(Next(w, step)) == IntendedResponse(w.row.intent.value)
  {
    assert step.id in w.workers;
    assert WorkerOk(w.row, step.id, w.workers[step.id]);
  }

  /** A step makes nobody able to override: loads see the intent, and only a load leads to a claim. */
  lemma OverrideNotGained(w: World, step: Step, id: Owner)
    requires Inv(w) && w.row.intent.Some? && w.row.terminal.None?
    requires NoneOverrides(w) && Next(w, step).row.intent == w.row.intent
    ensures !MayOverride(Next(w, step), id)
  {
    if id in w.workers {
      assert WorkerOk(w.row, id, w.workers[id]);
      assert !MayOverride(w, id);
    }
    if step.id in w.workers {
      assert WorkerOk(w.row, step.id, w.workers[step.id]);
      assert !MayOverride(w, step.id);
    }
  }

  lemma {:induction false} IntentHonoured(w: World, steps: seq<Step>)
    requires Inv(w) && w.row.intent.Some? && w.row.terminal.None? && NoneOverrides(w)
    ensures var v := Run(w, steps);
            && v.row.intent == w.row.intent
            && if v.row.terminal.Some? then Committed(v) == IntendedResponse(w.row.intent.value) else NoneOverrides(v)
    decreases |steps|
  {
    if steps != [] {
      var step := steps[|steps| - 1];
      var before := Run(w, steps[..|steps| - 1]);
      var v := Next(before, step);
      IntentHonoured(w, steps[..|steps| - 1]);
      RunKeepsInv(w, steps[..|steps| - 1]);
      NextKeepsIntent(before, step);
      if before.row.terminal.Some? {
        NextKeepsTerminal(before, step);
      } else if v.row.terminal.Some? {
        HonestCommit(before, step);
      } else {
        forall id | id in v.workers
          ensures !MayOverride(v, id)
        {
          OverrideNotGained(before, step, id);
        }
      }
    }
  }

  /** A worker that owns the row and has not decided may commit any response. */
  lemma OwnerCommits(w: World, steps: seq<Step>, id: Owner, r: Response) returns (more: seq<Step>)
    requires var v := Run(w, steps);
             && Inv(v) && id in v.workers && v.workers[id].Working? && v.row.owner == Some(id)
    ensures var v, x := Run(w, steps), Run(w, more);
            x.row.intent == v.row.intent && x.row.terminal.Some? && Committed(x) == Some(r)
  {
    var v := Run(w, steps);
    assert WorkerOk(v.row, id, v.workers[id]);
    more := Extend(w, steps, Decide(id, r));
    assert Run(w, more).workers[id] == Committing(v.workers[id].copy.(terminal := Some(r)));
    more := Extend(w, more, Commit(id, true));
  }

  /** Every worker that loaded without an intent and can still claim may commit any response,
      whatever intent has been stored since. */
  lemma UnseenIntentMayBeOverridden(w: World, id: Owner, now: nat, lease: nat, r: Response) returns (steps: seq<Step>)
    requires Inv(w) && id in w.workers && w.workers[id].Loaded? && w.workers[id].copy.intent.None?
    requires Claimable(w.row, id, now)
    ensures var v := Run(w, steps);
            v.row.intent == w.row.intent && v.row.terminal.Some? && Committed(v) == Some(r)
  {
    steps := UnawareClaims(w, id, now, lease);
    steps := OwnerCommits(w, steps, id, r);
  }

  lemma UnawareClaims(w: World, id: Owner, now: nat, lease: nat) returns (steps: seq<Step>)
    requires Inv(w) && id in w.workers && w.workers[id].Loaded? && w.workers[id].copy.intent.None?
    requires Claimable(w.row, id, now)
    ensures var v := Run(w, steps);
            && Inv(v) && v.row.owner == Some(id) && v.row.intent == w.row.intent && v.row.request == w.row.request
            && v.row.terminal == None
            && id in v.workers && v.workers[id].Working? && v.workers[id].copy.progress == w.workers[id].copy.progress
  {
    assert WorkerOk(w.row, id, w.workers[id]);
    steps := Extend(w, [], Step.Claim(id, now, lease));
    NextKeepsInv(w, Step.Claim(id, now, lease));
  }

  lemma OverridingCommit(w: World, id: Owner) returns (steps: seq<Step>)
    requires Inv(w) && w.row.intent.Some? && w.row.terminal.None? && MayOverride(w, id)
    ensures CommitsOtherwise(w, steps)
  {
    var intended := IntendedResponse(w.row.intent.value).value;
    var other := Response(intended.resultId + 1, false);
    assert WorkerOk(w.row, id, w.workers[id]);
    if w.workers[id].Loaded? {
      var now := if w.row.leaseExpires.Some? then w.row.leaseExpires.value else 0;
      steps := UnseenIntentMayBeOverridden(w, id, now, 0, other);
    } else if w.workers[id].Working? {
      steps := OwnerCommits(w, [], id, other);
    } else {
      steps := Extend(w, [], Commit(id, true));
    }
  }

  /** For every state with a stored intent and nothing committed: some continuation commits
      another response if and only if some worker may override the intent. */
  lemma IntentMayBeOverriddenIff(w: World)
    requires Inv(w) && w.row.intent.Some? && w.row.terminal.None?
    ensures (exists steps :: CommitsOtherwise(w, steps)) <==> exists id :: MayOverride(w, id)
  {
    if id :| MayOverride(w, id) {
      var steps := OverridingCommit(w, id);
      assert CommitsOtherwise(w, steps);
    } else {
      assert NoneOverrides(w);
      forall steps
        ensures !CommitsOtherwise(w, steps)
      {
        IntentHonoured(w, steps);
      }
    }
  }

  // ----- what a worker achieves when nothing goes wrong -----

  /** A heartbeat of the owner keeps a loaded worker waiting below its new time and no longer. */
  lemma HeartbeatKeepsOut(w: World, id: Owner, now: nat, lease: nat, j: Owner, t: nat, d: nat)
    requires Inv(w) && w.row.terminal == None && w.row.owner == Some(id) && id in w.workers && Claimed(w.workers[id])
    requires j != id && j in w.workers && w.workers[j].Loaded?
    ensures var v := Next(w, Heartbeat(id, now, lease));
            var x := Next(v, Step.Claim(j, t, d));
            if t < now + lease then x.row == v.row && x.workers == v.workers[j := Waiting(None)]
            else x.row.owner == Some(j) && x.row.generation == w.row.generation + 1 && j in x.workers && Claimed(x.workers[j])
  {
    assert WorkerOk(w.row, id, w.workers[id]);
  }

  /** The owner's decision is committed and answered. */
  lemma DecisionIsAnswered(w: World, id: Owner, r: Response) returns (steps: seq<Step>)
    requires Inv(w) && w.row.owner == Some(id) && id in w.workers && w.workers[id].Working?
    ensures var x := Run(w, steps);
            x.row.terminal.Some? && Committed(x) == Some(r) && x.row.owner == None && id in x.workers
            && x.workers[id] == Done(Some(r), true)
  {
    assert WorkerOk(w.row, id, w.workers[id]);
    var copy := w.workers[id].copy.(terminal := Some(r));
    steps := Extend(w, [], Decide(id, r));
    steps := Extend(w, steps, Commit(id, true));
    assert Run(w, steps).workers[id] == Releasing(copy, Some(r), true);
    steps := Extend(w, steps, ReleaseClaim(id));
  }

  /** The owner's failure is stored as intent, committed and answered, if no intent is in the way. */
  lemma FailureIsAnswered(w: World, id: Owner, r: Response) returns (steps: seq<Step>)
    requires Inv(w) && w.row.owner == Some(id) && id in w.workers && w.workers[id].Working? && w.row.intent == None
    ensures var x := Run(w, steps);
            && x.row.terminal.Some? && Committed(x) == Some(r) && x.row.owner == None
            && x.row.intent.Some? && IntendedResponse(x.row.intent.value) == Some(r)
            && id in x.workers && x.workers[id] == Done(Some(r), true)
  {
    steps := FailureIsIntended(w, id, r);
    var v := Run(w, steps);
    var copy := v.workers[id].copy;
    steps := Extend(w, steps, Finalize(id));
    assert Run(w, steps).workers[id] == Releasing(copy, Some(r), true) && Run(w, steps).row.terminal == Some(copy);
    steps := Extend(w, steps, ReleaseClaim(id));
  }

  lemma FailureIsIntended(w: World, id: Owner, r: Response) returns (steps: seq<Step>)
    requires Inv(w) && w.row.owner == Some(id) && id in w.workers && w.workers[id].Working? && w.row.intent == None
    ensures var v := Run(w, steps);
            && id in v.workers && v.workers[id].Finalizing? && v.row.intent == Some(v.workers[id].copy)
            && v.workers[id].copy.terminal == v.workers[id].copy.intent == Some(r)
            && v.row.owner == Some(id) == v.workers[id].copy.owner && v.row.generation == v.workers[id].copy.generation
  {
    assert WorkerOk(w.row, id, w.workers[id]);
    var copy := w.workers[id].copy.(terminal := Some(r), intent := Some(r));
    steps := Extend(w, [], Fail(id, r));
    assert Run(w, steps).workers[id] == Handling(copy) && Run(w, steps).row == w.row;
    steps := Extend(w, steps, StoreIntent(id, true));
  }

  /** A worker that loaded the stored intent and can claim commits it and answers with it. */
  lemma IntentIsRecovered(w: World, id: Owner, now: nat, lease: nat) returns (steps: seq<Step>)
    requires Inv(w) && id in w.workers && w.workers[id].Loaded? && w.workers[id].copy.intent.Some?
    requires Claimable(w.row, id, now)
    ensures var x := Run(w, steps);
            && w.row.intent.Some? && x.row.terminal.Some? && Committed(x) == IntendedResponse(w.row.intent.value)
            && x.row.owner == None && id in x.workers && x.workers[id] == Done(Committed(x), true)
  {
    assert WorkerOk(w.row, id, w.workers[id]);
    var loaded := w.workers[id].copy;
    var copy := loaded.(owner := Some(id), generation := w.row.generation + 1, terminal := loaded.intent);
    steps := Extend(w, [], Step.Claim(id, now, lease));
    assert Run(w, steps).workers[id] == Recovering(copy);
    steps := Extend(w, steps, Recover(id));
    assert Run(w, steps).workers[id] == Releasing(copy, copy.terminal, true);
    steps := Extend(w, steps, ReleaseClaim(id));
  }

  /** A worker that finds its checkpoint refused falls into its handler; one that learns that it
      lost the row waits instead, and is answered with whatever is committed. */
  lemma LossIsHandled(w: World, id: Owner, progress: nat, r: Response)
    requires Inv(w) && id in w.workers && w.workers[id].Working?
    ensures w.row.owner != Some(id) ==>
              var v := Next(w, Progress(id, progress, r));
              v.row == w.row && v.workers[id].Handling? && v.workers[id].copy.terminal == v.workers[id].copy.intent == Some(r)
    ensures var waiting := Next(w, LoseOwnership(id));
            && waiting.row == w.row && waiting.workers[id] == Waiting(Some(w.workers[id].copy))
            && (w.row.terminal.Some? ==>
                  Next(Next(waiting, WaitForTerminal(id)), ReleaseClaim(id)).workers[id] == Done(Committed(w), true))
  {
    assert WorkerOk(w.row, id, w.workers[id]);
  }

  /** A handler whose intent is refused, or stored without its knowing, answers with its own response
      and leaves the commit to others. */
  lemma HandlerGoesOn(w: World, id: Owner, acknowledged: bool)
    requires Inv(w) && id in w.workers && w.workers[id].Handling?
    ensures var v := Next(w, StoreIntent(id, acknowledged));
            var copy := w.workers[id].copy;
            var stored := w.row.owner == Some(id) && w.row.terminal == None && (w.row.intent == None || w.row.intent == Some(copy));
            && v.row.intent == (if stored then Some(copy) else w.row.intent) && v.row.terminal == w.row.terminal
            && v.workers == w.workers[id := if stored && acknowledged then Finalizing(copy)
                                            else Releasing(copy, copy.terminal, false)]
  {
    assert WorkerOk(w.row, id, w.workers[id]);
  }

  /** Any worker may stop for good at any time, leaving the row as it is; one that gives up still
      releases what it holds. */
  lemma StoppingAndGivingUp(w: World, id: Owner)
    requires Inv(w) && id in w.workers && !w.workers[id].Done?
    ensures Next(w, Crash(id)) == Set(w, id, Stopped)
    ensures Claimed(w.workers[id]) ==>
              var v := Next(Next(w, GiveUp(id)), ReleaseClaim(id));
              && id in v.workers && v.workers[id] == Done(None, false)
              && v.row == if w.row.owner == Some(id) then w.row.(owner := None, leaseExpires := None) else w.row
  {
    assert WorkerOk(w.row, id, w.workers[id]);
  }

  /** After a commit everyone who arrives or waits without a claim is answered with it. */
  lemma CommitIsServed(w: World, id: Owner)
    requires Inv(w) && w.row.terminal.Some? && id in w.workers
    ensures w.workers[id].Arrived? ==> Next(w, Load(id)).workers[id] == Done(Committed(w), true)
    ensures w.workers[id] == Waiting(None) ==> Next(w, WaitForTerminal(id)).workers[id] == Done(Committed(w), true)
    ensures w.workers[id].Loaded? ==> forall now, d :: Next(w, Step.Claim(id, now, d)) == Set(w, id, Waiting(None))
  {
  }

  // ----- progress made since a load -----

  /** Every worker that loaded without an intent and can still claim takes the durable progress
      back to what it loaded, whatever other workers have checkpointed since. */
  lemma StaleProgressReturns(w: World, id: Owner, now: nat, lease: nat, onError: Response) returns (steps: seq<Step>)
    requires Inv(w) && id in w.workers && w.workers[id].Loaded? && w.workers[id].copy.intent.None?
    requires Claimable(w.row, id, now)
    ensures var v := Run(w, steps);
            v.row.terminal == None && v.row.owner == Some(id) && v.row.request.progress == w.workers[id].copy.progress
  {
    var loaded := w.workers[id].copy.progress;
    steps := UnawareClaims(w, id, now, lease);
    var v := Run(w, steps);
    assert WorkerOk(v.row, id, v.workers[id]);
    steps := Extend(w, steps, Progress(id, loaded, onError));
  }

  // ----- both cases are reached -----

  ghost predicate At(steps: seq<Step>, row: Row, id: Owner, phase: Phase) {
    var w := Run(INIT, steps);
    w.row == row && id in w.workers && w.workers[id] == phase
  }

  /** A first worker claims the fresh row. */
  lemma FirstClaim() returns (steps: seq<Step>)
    ensures At(steps, ACCEPTED.(owner := Some(0), leaseExpires := Some(30), generation := 1), 0,
               Working(Snapshot(None, None, Some(0), 1, 0)))
    ensures Run(INIT, steps).workers.Keys == {0}
  {
    steps := Extend(INIT, [], Arrive(0));
    steps := Extend(INIT, steps, Load(0));
    assert At(steps, ACCEPTED, 0, Loaded(Snapshot(None, None, None, 0, 0)));
    steps := Extend(INIT, steps, Step.Claim(0, 0, 30));
  }

  /** A worker commits, misses the acknowledgement, and is still able to fail. */
  lemma LostAcknowledgement(r: Response) returns (steps: seq<Step>)
    ensures var w := Run(INIT, steps);
            && w.row.terminal.Some? && Committed(w) == Some(r)
            && 0 in w.workers && w.workers[0].Interrupted?
  {
    steps := FirstClaim();
    steps := Extend(INIT, steps, Decide(0, r));
    steps := Extend(INIT, steps, Commit(0, false));
  }

  /** The first worker is about to store an intent when the second has loaded the row. */
  lemma LoadBeforeIntent(r: Response) returns (steps: seq<Step>)
    ensures var row := ACCEPTED.(owner := Some(0), leaseExpires := Some(30), generation := 1);
            && At(steps, row, 0, Handling(Snapshot(Some(r), Some(r), Some(0), 1, 0)))
            && At(steps, row, 1, Loaded(Snapshot(None, None, Some(0), 1, 0)))
  {
    steps := FirstClaim();
    var row := Run(INIT, steps).row;
    steps := Extend(INIT, steps, Fail(0, r));
    steps := Extend(INIT, steps, Arrive(1));
    assert At(steps, row, 0, Handling(Snapshot(Some(r), Some(r), Some(0), 1, 0))) && At(steps, row, 1, Arrived);
    steps := Extend(INIT, steps, Load(1));
  }

  /** The first worker stores an intent after the second has loaded the row; when the lease
      runs out the second can claim. */
  lemma IntentBehindLoad(r: Response) returns (steps: seq<Step>)
    ensures var w := Run(INIT, steps);
            && w.row.intent.Some? && IntendedResponse(w.row.intent.value) == Some(r)
            && 1 in w.workers && w.workers[1].Loaded? && w.workers[1].copy.intent.None?
            && Claimable(w.row, 1, 30)
  {
    steps := LoadBeforeIntent(r);
    steps := Extend(INIT, steps, StoreIntent(0, true));
  }

  /** A worker that loaded before any progress can claim after another one has made some. */
  lemma ProgressBehindLoad(progress: nat, onError: Response) returns (steps: seq<Step>)
    ensures var w := Run(INIT, steps);
            && w.row.request.progress == progress && Claimable(w.row, 1, 30)
            && 1 in w.workers && w.workers[1].Loaded? && w.workers[1].copy.intent.None? && w.workers[1].copy.progress == 0
  {
    steps := FirstClaim();
    var row := Run(INIT, steps).row;
    steps := Extend(INIT, steps, Arrive(1));
    assert At(steps, row, 0, Working(Snapshot(None, None, Some(0), 1, 0))) && At(steps, row, 1, Arrived);
    steps := Extend(INIT, steps, Load(1));
    assert At(steps, row, 0, Working(Snapshot(None, None, Some(0), 1, 0)))
        && At(steps, row, 1, Loaded(Snapshot(None, None, Some(0), 1, 0)));
    steps := Extend(INIT, steps, Progress(0, progress, onError));
  }
}
