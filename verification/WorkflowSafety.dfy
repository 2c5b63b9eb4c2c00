/** Safety of whole workflow runs: terminal outcomes and receipts are final, attempts stay
    within the limit, each event pays for at most one retry, and only the newest admission is
    ever authoritative. */
module WorkflowSafety {
  import opened Options
  import opened Finite
  import opened WorkflowEngine
  import opened WorkflowRuns

  // ----- terminal outcomes -----

  lemma TerminalStep(w: Workflow, step: Step)
    requires Inv(w) && Terminal(w.state)
    ensures Bookkeeping(w, Next(w, step))
  {
    InvLegible(w);
    NextCases(w, step);
  }

  lemma {:induction false} TerminalRun(w: Workflow, steps: seq<Step>)
    requires Inv(w) && Terminal(w.state)
    ensures Bookkeeping(w, Run(w, steps))
    decreases |steps|
  {
    if steps != [] {
      var before := Run(w, steps[..|steps| - 1]);
      TerminalRun(w, steps[..|steps| - 1]);
      RunKeepsInv(w, steps[..|steps| - 1]);
      TerminalStep(before, steps[|steps| - 1]);
    }
  }

  /** Once a workflow has ended, no events, redeliveries or cancels change its state, outcome or
      error, number another attempt, or touch an admission. */
  lemma TerminalIsFinal(w: Workflow, steps: seq<Step>)
    requires Reachable(w) && Terminal(w.state)
    ensures var x := Run(w, steps);
            && w.outcome.Some? && x.state == w.state && x.outcome == w.outcome && x.error == w.error
            && x.executionIds == w.executionIds && x.admissions == w.admissions && x.records == w.records
  {
    ReachableInv(w);
    TerminalRun(w, steps);
  }

  // ----- what only grows -----

  ghost predicate Grows(w: Workflow, x: Workflow) {
    && x.def == w.def && w.processed <= x.processed && w.version <= x.version
    && w.executionIds <= x.executionIds
    && (w.initial.Some? ==> x.initial == w.initial)
    && (forall e :: e in w.retries ==> e in x.retries && x.retries[e] == w.retries[e])
    && (forall c :: c in w.admissions ==> c in x.admissions && x.admissions[c] == w.admissions[c])
  }

  lemma AttemptedGrows(w: Workflow, x: Workflow, ids: Ids)
    requires Unused(w, ids) && x == Attempted(w, ids).(initial := x.initial, retries := x.retries)
    requires w.initial.Some? ==> x.initial == w.initial
    requires forall e :: e in w.retries ==> e in x.retries && x.retries[e] == w.retries[e]
    ensures Grows(w, x)
  {
  }

  lemma StartingGrows(w: Workflow, x: Workflow, ids: Ids)
    requires Starting(w, x, ids)
    ensures Grows(w, x)
  {
    AttemptedGrows(w, x, ids);
  }

  lemma RetryingGrows(w: Workflow, x: Workflow, ids: Ids, id: Id)
    requires Retrying(w, x, ids, id)
    ensures Grows(w, x)
  {
    AttemptedGrows(w, x, ids);
  }

  lemma CasesGrow(w: Workflow, x: Workflow, step: Step)
    requires StepCases(w, x, step)
    ensures Grows(w, x)
  {
    match step
    case HandleStart(_, ids) =>
      if Starting(w, x, ids) {
        StartingGrows(w, x, ids);
      }
    case Deliver(AttemptFailed(id, _), _, ids) =>
      if Retrying(w, x, ids, id) {
        RetryingGrows(w, x, ids, id);
      }
    case _ =>
  }

  lemma NextGrows(w: Workflow, step: Step)
    requires Legible(w) && EndOk(w)
    ensures Grows(w, Next(w, step))
  {
    NextCases(w, step);
    CasesGrow(w, Next(w, step), step);
  }

  lemma {:induction false} RunGrows(w: Workflow, steps: seq<Step>)
    requires Inv(w)
    ensures Grows(w, Run(w, steps))
    decreases |steps|
  {
    if steps != [] {
      RunGrows(w, steps[..|steps| - 1]);
      RunKeepsInv(w, steps[..|steps| - 1]);
      InvLegible(Run(w, steps[..|steps| - 1]));
      NextGrows(Run(w, steps[..|steps| - 1]), steps[|steps| - 1]);
    }
  }

  /** A processed event stays processed, and delivering it again changes nothing at all. */
  lemma ProcessedIsNoOp(w: Workflow, steps: seq<Step>, step: Step)
    requires Reachable(w) && step.Deliver? && step.event.id in w.processed
    ensures Next(Run(w, steps), step) == Run(w, steps)
  {
    ReachableInv(w);
    RunGrows(w, steps);
  }

  // ----- receipts -----

  ghost predicate Answers(w: Workflow, c: Id, result: Outcome) {
    c in w.receipts && w.receipts[c] == Receipt(result, true)
  }

  /** Neither creating an attempt nor completing on one touches a receipt. */
  lemma CreateKeepsReceipts(w: Workflow, allowed: bool, ids: Ids)
    ensures CreateSpec(w, allowed, ids).0.receipts == w.receipts
  {
  }

  lemma CompleteKeepsReceipts(w: Workflow, cause: Id, l: Lineage)
    ensures CompleteSpec(w, cause, l).receipts == w.receipts
  {
  }

  lemma StartReceipts(w: Workflow, allowed: bool, ids: Ids, c: Id, result: Outcome)
    requires Answers(w, c, result)
    ensures Answers(StartSpec(w, allowed, ids), c, result)
  {
    CreateKeepsReceipts(w, allowed, ids);
  }

  lemma ConsumeReceipts(w: Workflow, e: Event, allowed: bool, ids: Ids, c: Id, result: Outcome)
    requires Answers(w, c, result)
    ensures Answers(ConsumeSpec(w, e, allowed, ids), c, result)
  {
    match e
    case AttemptSucceeded(id, lineage) => CompleteKeepsReceipts(w, id, lineage);
    case AttemptRejected(_, _) =>
    case AttemptFailed(_, _) => CreateKeepsReceipts(w, allowed, ids);
  }

  lemma ReceiptStep(w: Workflow, step: Step, c: Id, result: Outcome)
    requires Answers(w, c, result)
    ensures Answers(Next(w, step), c, result)
  {
    match step
    case HandleStart(allowed, ids) => StartReceipts(w, allowed, ids, c, result);
    case DispatchReturned =>
    case HandleCancel(_, _) =>
    case Deliver(e, allowed, ids) => ConsumeReceipts(w, e, allowed, ids, c, result);
    case DeliveryReturned(_) =>
  }

  /** A completed command is answered with the same result forever. */
  lemma {:induction false} ReceiptIsFinal(w: Workflow, steps: seq<Step>, c: Id, result: Outcome)
    requires Answers(w, c, result)
    ensures Answers(Run(w, steps), c, result)
    decreases |steps|
  {
    if steps != [] {
      ReceiptIsFinal(w, steps[..|steps| - 1], c, result);
      ReceiptStep(Run(w, steps[..|steps| - 1]), steps[|steps| - 1], c, result);
    }
  }

  /** Cancelling a running workflow answers that command and every later cancel command with
      one and the same result, whatever happens in between. */
  lemma CancelsAgree(w: Workflow, first: Id, steps: seq<Step>, second: Id)
    requires Reachable(w) && w.state == Running && first !in w.receipts
    requires second !in Run(Next(w, HandleCancel(first, true)), steps).receipts
    ensures var x := Next(w, HandleCancel(first, true));
            var z := Next(Run(x, steps), HandleCancel(second, true));
            && x.state == z.state == Cancelled && x.outcome.Some?
            && Answers(z, first, x.outcome.value) && Answers(z, second, x.outcome.value)
  {
    var x := Next(w, HandleCancel(first, true));
    var y := Run(x, steps);
    ReachableInv(w);
    NextKeepsInv(w, HandleCancel(first, true));
    TerminalRun(x, steps);
    assert Answers(x, first, x.outcome.value);
    ReceiptIsFinal(x, steps, first, x.outcome.value);
    ReceiptStep(y, HandleCancel(second, true), first, x.outcome.value);
  }

  // ----- attempts and retry commands -----

  /** Attempts are counted by the distinct execution ids.  When the attempt command is valid,
      each attempt is the initial one or the one retry of one event, and no two commands share
      an attempt; when it is not, no command is ever stored. */
  lemma AttemptsAreCommands(w: Workflow)
    requires Reachable(w)
    ensures w.attemptNumber == |w.executionIds| && Distinct(w.executionIds)
    ensures Stored(w) == if CommandValid(w.def) then w.attemptNumber else 0
    ensures NeedsAdmission(w.def) ==> |w.admissions| == w.attemptNumber
    ensures forall e, f :: e in w.retries && f in w.retries && e != f ==>
              w.retries[e].executionId != w.retries[f].executionId
    ensures forall e :: e in w.retries && w.initial.Some? ==> w.retries[e].executionId != w.initial.value.executionId
  {
    ReachableInv(w);
    assert forall e :: e in w.retries ==> CommandOk(w.def, w.executionIds, w.admissions, w.retries[e]);
  }

  /** However often its event is redelivered and however its dispatch fares, a stored command
      is never replaced. */
  lemma CommandsAreFinal(w: Workflow, steps: seq<Step>)
    requires Reachable(w)
    ensures var x := Run(w, steps);
            && (w.initial.Some? ==> x.initial == w.initial)
            && (forall e :: e in w.retries ==> e in x.retries && x.retries[e] == w.retries[e])
  {
    ReachableInv(w);
    RunGrows(w, steps);
  }

  /** `_resume_start` creates an attempt without looking at the attempt limit. */
  ghost predicate CreatesAtLimit(w: Workflow, step: Step) {
    && step.HandleStart? && Unused(w, step.ids) && w.attemptNumber == w.def.maxAttempts
    && w.def.startId in w.receipts && !w.receipts[w.def.startId].done
    && w.outcome.None? && w.initial.None?
    && (NeedsAdmission(w.def) ==> step.allowed && Affordable(w))
  }

  lemma CreatesIff(w: Workflow, allowed: bool, ids: Ids)
    requires Legible(w) && EndOk(w) && Unused(w, ids) && w.attemptNumber == w.def.maxAttempts
    ensures StartSpec(w, allowed, ids).attemptNumber > w.attemptNumber <==> CreatesAtLimit(w, HandleStart(allowed, ids))
  {
    CreateCases(w, allowed, ids);
  }

  lemma CasesKeepLimit(w: Workflow, x: Workflow, step: Step)
    requires StepCases(w, x, step) && w.attemptNumber <= w.def.maxAttempts
    requires !step.HandleStart? || w.attemptNumber < w.def.maxAttempts
    ensures x.attemptNumber <= w.def.maxAttempts
  {
    match step
    case HandleStart(_, ids) => assert Starting(w, x, ids) ==> x.attemptNumber == w.attemptNumber + 1;
    case Deliver(AttemptFailed(id, _), _, ids) => assert Retrying(w, x, ids, id) ==> w.attemptNumber < w.def.maxAttempts;
    case _ =>
  }

  /** One step keeps the attempt limit exactly when it is not such a creation. */
  lemma StepKeepsLimitIff(w: Workflow, step: Step)
    requires Reachable(w) && w.attemptNumber <= w.def.maxAttempts
    ensures Next(w, step).attemptNumber <= w.def.maxAttempts <==> !CreatesAtLimit(w, step)
  {
    ReachableInv(w);
    InvKeepsLimitIff(w, step);
  }

  lemma InvKeepsLimitIff(w: Workflow, step: Step)
    requires Inv(w) && w.attemptNumber <= w.def.maxAttempts
    ensures Next(w, step).attemptNumber <= w.def.maxAttempts <==> !CreatesAtLimit(w, step)
  {
    InvLegible(w);
    NextCases(w, step);
    if !step.HandleStart? || w.attemptNumber < w.def.maxAttempts {
      CasesKeepLimit(w, Next(w, step), step);
    } else if Unused(w, step.ids) {
      CreatesIff(w, step.allowed, step.ids);
    }
  }

  ghost predicate LimitAt(w: Workflow, steps: seq<Step>, i: nat)
    requires i <= |steps|
  {
    Run(w, steps[..i]).attemptNumber <= w.def.maxAttempts
  }

  ghost predicate CreatesAtLimitAt(w: Workflow, steps: seq<Step>, i: nat)
    requires i < |steps|
  {
    CreatesAtLimit(Run(w, steps[..i]), steps[i])
  }

  lemma LimitNext(w: Workflow, steps: seq<Step>, i: nat)
    requires Inv(w) && i < |steps| && LimitAt(w, steps, i)
    ensures LimitAt(w, steps, i + 1) <==> !CreatesAtLimitAt(w, steps, i)
  {
    assert steps[..i + 1][..i] == steps[..i];
    RunKeepsInv(w, steps[..i]);
    InvKeepsLimitIff(Run(w, steps[..i]), steps[i]);
  }

  lemma {:induction false} LimitUpTo(w: Workflow, steps: seq<Step>, n: nat)
    requires Inv(w) && LimitAt(w, steps, 0) && n <= |steps| && forall i :: 0 <= i < n ==> !CreatesAtLimitAt(w, steps, i)
    ensures LimitAt(w, steps, n)
  {
    if n > 0 {
      LimitUpTo(w, steps, n - 1);
      LimitNext(w, steps, n - 1);
    }
  }

  /** For every run at all, whatever the command and the order of events: the attempt limit is
      kept throughout if and only if no start creates its command at the limit. */
  lemma LimitThroughoutIff(startId: Id, ceiling: Option<string>, hasResult: bool, maxAttempts: int, steps: seq<Step>)
    requires Start(startId, ceiling, hasResult, maxAttempts).Some?
    ensures var w := Start(startId, ceiling, hasResult, maxAttempts).value;
            (forall i :: 0 <= i <= |steps| ==> LimitAt(w, steps, i)) <==>
            (forall i :: 0 <= i < |steps| ==> !CreatesAtLimitAt(w, steps, i))
  {
    var w := Start(startId, ceiling, hasResult, maxAttempts).value;
    NewInv(w.def);
    assert steps[..0] == [];
    assert LimitAt(w, steps, 0);
    if forall i :: 0 <= i < |steps| ==> !CreatesAtLimitAt(w, steps, i) {
      forall n | 0 <= n <= |steps|
        ensures LimitAt(w, steps, n)
      {
        LimitUpTo(w, steps, n);
      }
    }
    if forall i :: 0 <= i <= |steps| ==> LimitAt(w, steps, i) {
      forall i | 0 <= i < |steps|
        ensures !CreatesAtLimitAt(w, steps, i)
      {
        assert LimitAt(w, steps, i) && LimitAt(w, steps, i + 1);
        LimitNext(w, steps, i);
      }
    }
  }

  /** A failure event reports an attempt, so the initial command exists when it arrives. */
  ghost predicate CausalStep(w: Workflow, step: Step) {
    step.Deliver? && step.event.AttemptFailed? ==> w.initial.Some?
  }

  ghost predicate Causal(w: Workflow, steps: seq<Step>)
    decreases |steps|
  {
    steps == [] || (Causal(w, steps[..|steps| - 1]) && CausalStep(Run(w, steps[..|steps| - 1]), steps[|steps| - 1]))
  }

  ghost predicate Within(w: Workflow) {
    w.attemptNumber <= w.def.maxAttempts && (w.initial.None? ==> w.attemptNumber == 0)
  }

  lemma CausalStepKeeps(w: Workflow, step: Step)
    requires Inv(w) && Within(w) && CommandValid(w.def) && w.def.maxAttempts >= 1 && CausalStep(w, step)
    ensures Within(Next(w, step)) && Next(w, step).def == w.def
  {
    InvLegible(w);
    NextCases(w, step);
  }

  lemma {:induction false} CausalRunKeeps(w: Workflow, steps: seq<Step>)
    requires Inv(w) && Within(w) && CommandValid(w.def) && w.def.maxAttempts >= 1 && Causal(w, steps)
    ensures Within(Run(w, steps)) && Run(w, steps).def == w.def
    decreases |steps|
  {
    if steps != [] {
      CausalRunKeeps(w, steps[..|steps| - 1]);
      RunKeepsInv(w, steps[..|steps| - 1]);
      CausalStepKeeps(Run(w, steps[..|steps| - 1]), steps[|steps| - 1]);
    }
  }

  /** With a valid attempt command and failure events that follow their attempt, no run of
      redeliveries, failed dispatches and restarts exceeds the attempt limit. */
  lemma AttemptsWithinLimit(startId: Id, ceiling: Option<string>, hasResult: bool, maxAttempts: int, steps: seq<Step>)
    requires Start(startId, ceiling, hasResult, maxAttempts).Some?
    requires CommandValid(Start(startId, ceiling, hasResult, maxAttempts).value.def)
    requires Causal(Start(startId, ceiling, hasResult, maxAttempts).value, steps)
    ensures var w := Run(Start(startId, ceiling, hasResult, maxAttempts).value, steps);
            w.attemptNumber == |w.executionIds| <= maxAttempts
  {
    var w := Start(startId, ceiling, hasResult, maxAttempts).value;
    NewInv(w.def);
    CausalRunKeeps(w, steps);
    RunKeepsInv(w, steps);
  }

  /** An identifier longer than any in use. */
  function Fill(n: nat): (s: string)
    ensures |s| == n
  {
    seq(n, _ => 'x')
  }

  /** Without a valid command every redelivered start numbers a further attempt: the limit of
      the definition is exceeded by any amount. */
  lemma {:induction false} InvalidCommandIsUnbounded(startId: Id, maxAttempts: nat, n: nat) returns (steps: seq<Step>)
    requires maxAttempts >= 1
    ensures Start(startId, None, true, maxAttempts).Some?
    ensures var w := Run(Start(startId, None, true, maxAttempts).value, steps);
            && w.attemptNumber == n && w.initial.None? && w.retries == map[]
            && w == NewWorkflow(w.def).(attemptNumber := n, executionIds := w.executionIds)
            && w.def == Definition(startId, None, true, maxAttempts, COMMITMENT)
            && forall id :: id in w.executionIds ==> |id| < n
  {
    if n == 0 {
      return [];
    }
    var front := InvalidCommandIsUnbounded(startId, maxAttempts, n - 1);
    var step := HandleStart(true, Ids(Fill(n - 1), "c"));
    steps := front + [step];
    assert steps[..|steps| - 1] == front;
    var before := Run(Start(startId, None, true, maxAttempts).value, front);
    assert Unused(before, step.ids);
    assert Next(before, step) == Attempted(before, step.ids);
  }

  /** Failure events ahead of the initial command, each numbering an attempt. */
  lemma {:induction false} EarlyFailures(startId: Id, maxAttempts: nat, n: nat) returns (steps: seq<Step>)
    requires 1 <= maxAttempts && n <= maxAttempts
    ensures Start(startId, None, false, maxAttempts).Some?
    ensures var w := Run(Start(startId, None, false, maxAttempts).value, steps);
            && w == NewWorkflow(w.def).(attemptNumber := n, executionIds := w.executionIds, retries := w.retries)
            && w.def == Definition(startId, None, false, maxAttempts, COMMITMENT)
            && (forall id :: id in w.executionIds ==> |id| < n) && (forall e :: e in w.retries ==> |e| < n)
  {
    if n == 0 {
      return [];
    }
    var front := EarlyFailures(startId, maxAttempts, n - 1);
    var step := Deliver(AttemptFailed(Fill(n - 1), true), true, Ids(Fill(n - 1), "c"));
    steps := front + [step];
    assert steps[..|steps| - 1] == front;
    var before := Run(Start(startId, None, false, maxAttempts).value, front);
    assert Unused(before, step.ids) && Fill(n - 1) !in before.retries;
    assert Next(before, step) ==
           Attempted(before, step.ids).(retries := before.retries[Fill(n - 1) := NewCommand(before, step.ids)]);
  }

  /** For every attempt limit, failure events ahead of the initial command let the start exceed
      it: a valid command alone does not keep the limit. */
  lemma EarlyFailureExceedsLimit(startId: Id, maxAttempts: nat) returns (steps: seq<Step>)
    requires 1 <= maxAttempts
    ensures Start(startId, None, false, maxAttempts).Some?
    ensures CommandValid(Start(startId, None, false, maxAttempts).value.def)
    ensures Run(Start(startId, None, false, maxAttempts).value, steps).attemptNumber == maxAttempts + 1
  {
    var front := EarlyFailures(startId, maxAttempts, maxAttempts);
    var step := HandleStart(true, Ids(Fill(maxAttempts), "c"));
    steps := front + [step];
    assert steps[..|steps| - 1] == front;
    var before := Run(Start(startId, None, false, maxAttempts).value, front);
    assert Unused(before, step.ids);
    assert Next(before, step) == Attempted(before, step.ids).(initial := Some(NewCommand(before, step.ids)));
  }

  // ----- the authoritative admission -----

  lemma NewestVersion(def: Definition, executionIds: seq<Id>, c: Id, b: Binding)
    requires BindingOk(def, executionIds, c, b) && Distinct(executionIds)
    ensures b.version == |executionIds| <==> b.executionId == executionIds[|executionIds| - 1]
  {
  }

  ghost predicate Placed(w: Workflow, c: Id) {
    && c in w.admissions && c in w.records && RecordOk(w.admissions[c], w.records[c], w.state == Completed)
    && 1 <= w.admissions[c].version <= w.version == |w.executionIds|
    && (w.admissions[c].version == w.version <==>
          w.admissions[c].executionId == w.executionIds[|w.executionIds| - 1])
  }

  lemma AdmissionPlaced(w: Workflow, c: Id)
    requires c in w.admissions && CountsOk(w) && Distinct(w.executionIds)
    requires BindingsOk(w.def, w.executionIds, w.admissions)
    requires RecordsOk(w.admissions, w.records, w.state == Completed)
    ensures Placed(w, c)
  {
    assert c in w.admissions.Keys;
    assert |w.admissions.Keys| > 0;
    assert BindingOk(w.def, w.executionIds, c, w.admissions[c]);
    NewestVersion(w.def, w.executionIds, c, w.admissions[c]);
  }

  lemma AuthoritativePlaced(w: Workflow, dispatch: Option<Ids>, c: Id, execution: Id)
    requires Placed(w, c)
    ensures Authoritative(w, dispatch, c, execution) ==
            if && (dispatch == None || dispatch == Some(Ids(execution, c)))
               && w.admissions[c].executionId == execution == w.executionIds[|w.executionIds| - 1]
               && (w.state == Running || (w.state == Completed && w.records[c].stage == Reconciled))
            then Some(w.admissions[c]) else None
  {
  }

  /** What the lookup returns, without versions: the admission of the latest execution, while
      the workflow runs, or once it completed on that very admission. */
  lemma AuthoritativeIff(w: Workflow, dispatch: Option<Ids>, c: Id, execution: Id)
    requires Reachable(w)
    ensures Authoritative(w, dispatch, c, execution).Some? <==>
            && (dispatch == None || dispatch == Some(Ids(execution, c)))
            && c in w.admissions && c in w.records && w.admissions[c].executionId == execution
            && w.executionIds != [] && execution == w.executionIds[|w.executionIds| - 1]
            && (w.state == Running || (w.state == Completed && w.records[c].stage == Reconciled))
    ensures Authoritative(w, dispatch, c, execution).Some? ==>
              Authoritative(w, dispatch, c, execution).value == w.admissions[c]
  {
    ReachableInv(w);
    if c in w.admissions {
      AdmissionPlaced(w, c);
      AuthoritativePlaced(w, dispatch, c, execution);
    }
  }

  /** At most one binding is authoritative, whoever asks; none after failure or cancellation. */
  lemma AtMostOneAuthoritative(w: Workflow, d1: Option<Ids>, c1: Id, e1: Id, d2: Option<Ids>, c2: Id, e2: Id)
    requires Reachable(w) && Authoritative(w, d1, c1, e1).Some? && Authoritative(w, d2, c2, e2).Some?
    ensures Authoritative(w, d1, c1, e1) == Authoritative(w, d2, c2, e2) && c1 == c2 && e1 == e2
    ensures w.state != Failed && w.state != Cancelled
  {
    ReachableInv(w);
  }

  /** While a governed workflow runs, its latest admission is authoritative. */
  lemma NewestIsAuthoritative(w: Workflow) returns (c: Id)
    requires Reachable(w) && w.state == Running && NeedsAdmission(w.def) && w.attemptNumber > 0
    ensures w.attemptNumber == |w.executionIds|
    ensures Authoritative(w, None, c, w.executionIds[w.attemptNumber - 1]).Some?
  {
    ReachableInv(w);
    c := Newest(w.def, w.executionIds, w.admissions);
    AuthoritativeIff(w, None, c, w.executionIds[w.attemptNumber - 1]);
  }

  /** As many admissions as versions, all different: the highest version is taken. */
  lemma Newest(def: Definition, executionIds: seq<Id>, admissions: map<Id, Binding>) returns (c: Id)
    requires AdmissionsOk(def, executionIds, admissions) && |admissions| == |executionIds| > 0
    ensures c in admissions && admissions[c].version == |executionIds|
    ensures admissions[c].executionId == executionIds[|executionIds| - 1]
  {
    var n := |executionIds|;
    if forall k :: k in admissions ==> admissions[k].version != n {
      VersionsFit(admissions, n - 1) by {
        forall k | k in admissions
          ensures 1 <= admissions[k].version <= n - 1
        {
          assert BindingOk(def, executionIds, k, admissions[k]);
        }
      }
      assert false;
    }
    c :| c in admissions && admissions[c].version == n;
    assert BindingOk(def, executionIds, c, admissions[c]);
  }

  lemma {:induction false} VersionsFit(admissions: map<Id, Binding>, n: nat)
    requires VersionsDistinct(admissions) && forall k :: k in admissions ==> 1 <= admissions[k].version <= n
    ensures |admissions| <= n
  {
    if n == 0 {
      assert admissions == map[];
    } else if k :| k in admissions && admissions[k].version == n {
      VersionsFit(admissions - {k}, n - 1);
      assert |admissions| == |admissions - {k}| + 1;
    } else {
      VersionsFit(admissions, n - 1);
    }
  }

  /** Once a further attempt has been admitted, an earlier admission is never returned again. */
  lemma SupersededForever(w: Workflow, c: Id, steps: seq<Step>, dispatch: Option<Ids>, execution: Id)
    requires Reachable(w) && c in w.admissions && w.admissions[c].version < w.version
    ensures Authoritative(Run(w, steps), dispatch, c, execution).None?
  {
    ReachableInv(w);
    RunGrows(w, steps);
  }

  lemma CreatingVersion(w: Workflow, step: Step)
    requires Legible(w) && EndOk(w) && NeedsAdmission(w.def) && Next(w, step).attemptNumber > w.attemptNumber
    ensures Next(w, step).version == w.version + 1
  {
    NextCases(w, step);
  }

  /** Each admitted attempt supersedes all earlier ones. */
  lemma AdmissionSupersedes(w: Workflow, step: Step, c: Id)
    requires Reachable(w) && NeedsAdmission(w.def) && c in w.admissions
    ensures var x := Next(w, step);
            x.attemptNumber > w.attemptNumber ==>
              x.version == w.version + 1 && c in x.admissions && x.admissions[c].version < x.version
  {
    ReachableInv(w);
    AdmissionPlaced(w, c);
    InvLegible(w);
    NextGrows(w, step);
    if Next(w, step).attemptNumber > w.attemptNumber {
      CreatingVersion(w, step);
    }
  }

  /** A failed or cancelled workflow has no authoritative admission, then or later. */
  lemma NoneAfterFailure(w: Workflow, steps: seq<Step>, dispatch: Option<Ids>, c: Id, execution: Id)
    requires Reachable(w) && (w.state == Failed || w.state == Cancelled)
    ensures Authoritative(Run(w, steps), dispatch, c, execution).None?
  {
    TerminalIsFinal(w, steps);
  }
}
