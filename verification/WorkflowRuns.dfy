/** What every run of the workflow engine keeps: the shape of a step, and the invariant that
    ties attempts, execution ids, admissions, versions and commands together. */
module WorkflowRuns {
  import opened Options
  import opened Amounts
  import opened Finite
  import opened Totals
  import opened WorkflowEngine

  // ----- the shape of a step -----

  ghost predicate Bookkeeping(w: Workflow, x: Workflow) {
    x == w.(processed := x.processed, receipts := x.receipts) && w.processed <= x.processed
  }

  ghost predicate Ending(w: Workflow, x: Workflow) {
    && x == w.(state := x.state, outcome := x.outcome, error := x.error, receipts := x.receipts)
    && w.state == Running && (x.state == Failed || x.state == Cancelled)
    && x.outcome.Some? && x.outcome.value.Unsuccessful? && x.error.Some?
  }

  ghost predicate Completing(w: Workflow, x: Workflow, l: Lineage) {
    && x == w.(state := Completed, outcome := x.outcome, records := x.records)
    && w.state == Running && x.outcome.Some? && x.outcome.value.Success?
    && (x.records == w.records || (Evidenced(w.records, l) && x.records == Reconciliation(w.records, l)))
  }

  ghost predicate Affordable(w: Workflow) {
    NeedsAdmission(w.def) ==> Total(Exposures(w.admissions)) + w.def.commitment <= w.def.ceiling.value
  }

  /** An attempt is numbered and admitted, and its command stored unless validation refuses it. */
  ghost predicate Starting(w: Workflow, x: Workflow, ids: Ids) {
    && w.state == Running && Unused(w, ids) && Affordable(w) && w.initial.None?
    && x == Attempted(w, ids).(initial := if CommandValid(w.def) then Some(NewCommand(w, ids)) else None)
  }

  ghost predicate Retrying(w: Workflow, x: Workflow, ids: Ids, id: Id) {
    && PermitsNewAttempt(w) && Unused(w, ids) && Affordable(w) && id !in w.retries
    && x == Attempted(w, ids).(retries := if CommandValid(w.def) then w.retries[id := NewCommand(w, ids)] else w.retries)
  }

  ghost predicate Creating(w: Workflow, x: Workflow, step: Step) {
    match step
    case HandleStart(_, ids) => Starting(w, x, ids)
    case Deliver(AttemptFailed(id, _), _, ids) => Retrying(w, x, ids, id)
    case _ => false
  }

  // ----- the invariant -----

  /** The committed amount has a decimal string that `scale6` reads back. */
  ghost predicate Payable(def: Definition) {
    0 < def.commitment < 1_000_000_000_000_000_000
  }

  ghost predicate EndOk(w: Workflow) {
    (w.outcome.Some? <==> Terminal(w.state)) && (w.error.Some? <==> w.state == Failed || w.state == Cancelled)
  }

  /** The k-th version belongs to the k-th execution. */
  ghost predicate BindingOk(def: Definition, executionIds: seq<Id>, c: Id, b: Binding) {
    && b.commandId == c && b.amount == Format(def.commitment)
    && 1 <= b.version <= |executionIds| && executionIds[b.version - 1] == b.executionId
  }

  ghost predicate BindingsOk(def: Definition, executionIds: seq<Id>, admissions: map<Id, Binding>) {
    forall c :: c in admissions ==> BindingOk(def, executionIds, c, admissions[c])
  }

  ghost predicate VersionsDistinct(admissions: map<Id, Binding>) {
    forall c, d :: c in admissions && d in admissions && c != d ==> admissions[c].version != admissions[d].version
  }

  ghost predicate WithinCeiling(def: Definition, admissions: map<Id, Binding>) {
    NeedsAdmission(def) ==> Total(Exposures(admissions)) <= def.ceiling.value
  }

  ghost predicate AdmissionsOk(def: Definition, executionIds: seq<Id>, admissions: map<Id, Binding>) {
    BindingsOk(def, executionIds, admissions) && VersionsDistinct(admissions) && WithinCeiling(def, admissions)
  }

  ghost predicate RecordOk(b: Binding, r: Record, completed: bool) {
    && r.version == b.version && r.binding == Some(b) && r.exposure == Some(b.amount)
    && (r.stage == CommittedStage
        || (completed && r.stage == Reconciled && r.settled.Some? && Scale6(r.settled.value).Some?))
  }

  ghost predicate RecordsOk(admissions: map<Id, Binding>, records: map<Id, Record>, completed: bool) {
    && records.Keys == admissions.Keys
    && (forall c :: c in admissions ==> RecordOk(admissions[c], records[c], completed))
  }

  ghost predicate CountsOk(w: Workflow) {
    && w.attemptNumber == |w.executionIds|
    && |w.admissions| == w.version == (if NeedsAdmission(w.def) then w.attemptNumber else 0)
  }

  ghost predicate CommandOk(def: Definition, executionIds: seq<Id>, admissions: map<Id, Binding>, c: Command) {
    && 1 <= c.attempt <= |executionIds| && executionIds[c.attempt - 1] == c.executionId
    && (NeedsAdmission(def) ==> c.commandId in admissions && c.admission == Some(admissions[c.commandId]))
  }

  ghost predicate CommandsOk(def: Definition, executionIds: seq<Id>, admissions: map<Id, Binding>,
                             initial: Option<Command>, retries: map<Id, Command>) {
    && (initial.Some? ==> CommandOk(def, executionIds, admissions, initial.value))
    && (forall e :: e in retries ==> CommandOk(def, executionIds, admissions, retries[e]))
    && (forall e, f :: e in retries && f in retries && e != f ==> retries[e].attempt != retries[f].attempt)
    && (forall e :: e in retries && initial.Some? ==> retries[e].attempt != initial.value.attempt)
  }

  function Stored(w: Workflow): nat {
    |w.retries| + if w.initial.Some? then 1 else 0
  }

  ghost predicate StoredOk(w: Workflow) {
    Stored(w) == if CommandValid(w.def) then w.attemptNumber else 0
  }

  ghost predicate Inv(w: Workflow) {
    && Payable(w.def) && EndOk(w) && CountsOk(w) && StoredOk(w) && Distinct(w.executionIds)
    && AdmissionsOk(w.def, w.executionIds, w.admissions)
    && RecordsOk(w.admissions, w.records, w.state == Completed)
    && CommandsOk(w.def, w.executionIds, w.admissions, w.initial, w.retries)
  }

  // ----- amounts in the admissions -----

  lemma ExposureReads(def: Definition, executionIds: seq<Id>, admissions: map<Id, Binding>)
    requires Payable(def) && AdmissionsOk(def, executionIds, admissions)
    ensures forall c :: c in admissions ==> Scale6(admissions[c].amount) == Some(def.commitment)
  {
    ParseFormatBelow(def.commitment);
    forall c | c in admissions
      ensures Scale6(admissions[c].amount) == Some(def.commitment)
    {
      assert BindingOk(def, executionIds, c, admissions[c]);
    }
  }

  ghost predicate AllReadable(records: map<Id, Record>) {
    forall c :: c in records ==> ReadableRecord(records[c])
  }

  /** No stored amount makes `scale6` raise, before or after a reconciliation. */
  ghost predicate Legible(w: Workflow) {
    Readable(w.admissions) && AllReadable(w.records)
  }

  lemma InvLegible(w: Workflow)
    requires Inv(w)
    ensures Legible(w)
  {
    ExposureReads(w.def, w.executionIds, w.admissions);
    forall c | c in w.records
      ensures ReadableRecord(w.records[c])
    {
      assert RecordOk(w.admissions[c], w.records[c], w.state == Completed);
    }
  }

  lemma ReconciledReadable(records: map<Id, Record>, l: Lineage)
    requires AllReadable(records) && Evidenced(records, l)
    ensures AllReadable(Reconciliation(records, l))
  {
  }

  // ----- every step has one of four shapes -----

  ghost predicate StepCases(w: Workflow, x: Workflow, step: Step) {
    || Bookkeeping(w, x) || Ending(w, x) || Creating(w, x, step)
    || (step.Deliver? && step.event.AttemptSucceeded? && Completing(w, x, step.event.lineage))
  }

  lemma CompleteCases(w: Workflow, cause: Id, l: Lineage)
    requires Legible(w) && w.state == Running
    ensures var x := CompleteSpec(w, cause, l);
            Bookkeeping(w, x) || Ending(w, x) || Completing(w, x, l)
  {
    if Evidenced(w.records, l) {
      ReconciledReadable(w.records, l);
    }
  }

  lemma CreateCases(w: Workflow, allowed: bool, ids: Ids)
    requires Legible(w)
    ensures var (x, made) := CreateSpec(w, allowed, ids);
            if made.Refused? then x == w
            else Affordable(w) && x == Attempted(w, ids)
                 && made == if CommandValid(w.def) then Made(NewCommand(w, ids)) else Raised
  {
  }

  lemma StartCases(w: Workflow, allowed: bool, ids: Ids)
    requires Legible(w) && EndOk(w) && Unused(w, ids)
    ensures var x := StartSpec(w, allowed, ids);
            Bookkeeping(w, x) || Ending(w, x) || Starting(w, x, ids)
  {
    CreateCases(w, allowed, ids);
  }

  lemma FailedCases(w: Workflow, id: Id, retryable: bool, allowed: bool, ids: Ids)
    requires Legible(w) && EndOk(w) && Unused(w, ids)
    ensures var x := ConsumeSpec(w, AttemptFailed(id, retryable), allowed, ids);
            Bookkeeping(w, x) || Ending(w, x) || Retrying(w, x, ids, id)
  {
    CreateCases(w, allowed, ids);
  }

  lemma DeliverCases(w: Workflow, step: Step)
    requires Legible(w) && EndOk(w) && step.Deliver? && Unused(w, step.ids)
    ensures StepCases(w, ConsumeSpec(w, step.event, step.allowed, step.ids), step)
  {
    match step.event
    case AttemptSucceeded(id, lineage) =>
      if w.state == Running {
        CompleteCases(w, id, lineage);
      }
    case AttemptRejected(_, _) =>
    case AttemptFailed(id, retryable) =>
      FailedCases(w, id, retryable, step.allowed, step.ids);
  }

  lemma NextCases(w: Workflow, step: Step)
    requires Legible(w) && EndOk(w)
    ensures StepCases(w, Next(w, step), step)
  {
    if step.HandleStart? && Unused(w, step.ids) {
      StartCases(w, step.allowed, step.ids);
    } else if step.Deliver? && Unused(w, step.ids) {
      DeliverCases(w, step);
    }
  }

  // ----- preservation -----

  lemma EndingKeeps(w: Workflow, x: Workflow)
    requires Inv(w) && (Bookkeeping(w, x) || Ending(w, x))
    ensures Inv(x)
  {
  }

  lemma CompletedRecords(admissions: map<Id, Binding>, records: map<Id, Record>, l: Lineage)
    requires RecordsOk(admissions, records, false)
    ensures RecordsOk(admissions, records, true)
    ensures Evidenced(records, l) ==> RecordsOk(admissions, Reconciliation(records, l), true)
  {
    forall c | c in admissions
      ensures RecordOk(admissions[c], records[c], true)
    {
      assert RecordOk(admissions[c], records[c], false);
    }
  }

  lemma CompletingKeeps(w: Workflow, x: Workflow, l: Lineage)
    requires Inv(w) && Completing(w, x, l)
    ensures Inv(x)
  {
    CompletedRecords(w.admissions, w.records, l);
  }

  lemma ExposureMap(admissions: map<Id, Binding>, c: Id, b: Binding)
    ensures Exposures(admissions[c := b]) == Exposures(admissions)[c := Amount(b.amount)]
  {
  }

  lemma ExposureAdded(admissions: map<Id, Binding>, c: Id, b: Binding)
    requires c !in admissions
    ensures Total(Exposures(admissions[c := b])) == Total(Exposures(admissions)) + Amount(b.amount)
  {
    ExposureMap(admissions, c, b);
    TotalUpdate(Exposures(admissions), c, Amount(b.amount));
  }

  lemma BindingAdded(def: Definition, executionIds: seq<Id>, admissions: map<Id, Binding>, b: Binding)
    requires BindingsOk(def, executionIds, admissions) && VersionsDistinct(admissions) && b.commandId !in admissions
    requires b.version == |executionIds| + 1 && b.amount == Format(def.commitment)
    ensures BindingsOk(def, executionIds + [b.executionId], admissions[b.commandId := b])
    ensures VersionsDistinct(admissions[b.commandId := b])
  {
    forall c | c in admissions
      ensures BindingOk(def, executionIds + [b.executionId], c, admissions[c]) && admissions[c].version < b.version
    {
      assert BindingOk(def, executionIds, c, admissions[c]);
    }
  }

  lemma AttemptedAdmissions(w: Workflow, ids: Ids)
    requires Payable(w.def) && CountsOk(w) && AdmissionsOk(w.def, w.executionIds, w.admissions)
    requires Unused(w, ids) && Affordable(w)
    ensures var x := Attempted(w, ids); AdmissionsOk(x.def, x.executionIds, x.admissions)
  {
    if NeedsAdmission(w.def) {
      ExposureAdded(w.admissions, ids.commandId, NewBinding(w, ids));
      ParseFormatBelow(w.def.commitment);
      BindingAdded(w.def, w.executionIds, w.admissions, NewBinding(w, ids));
    } else {
      assert w.admissions == map[];
    }
  }

  lemma AttemptedRecords(w: Workflow, ids: Ids)
    requires RecordsOk(w.admissions, w.records, false)
    ensures var x := Attempted(w, ids); RecordsOk(x.admissions, x.records, false)
  {
  }

  lemma AttemptedCounts(w: Workflow, ids: Ids)
    requires CountsOk(w) && Unused(w, ids) && Distinct(w.executionIds)
    ensures CountsOk(Attempted(w, ids)) && Distinct(Attempted(w, ids).executionIds)
  {
    var x := Attempted(w, ids);
    if NeedsAdmission(w.def) {
      assert x.admissions.Keys == w.admissions.Keys + {ids.commandId};
      assert |x.admissions| == |x.admissions.Keys| && |w.admissions| == |w.admissions.Keys|;
    }
  }

  lemma CommandGrows(w: Workflow, ids: Ids, c: Command)
    requires CommandOk(w.def, w.executionIds, w.admissions, c) && Unused(w, ids) && |w.executionIds| == w.attemptNumber
    ensures var x := Attempted(w, ids); CommandOk(x.def, x.executionIds, x.admissions, c)
    ensures c.attempt <= w.attemptNumber
  {
  }

  lemma AttemptedCommands(w: Workflow, ids: Ids)
    requires CommandsOk(w.def, w.executionIds, w.admissions, w.initial, w.retries)
    requires Unused(w, ids) && |w.executionIds| == w.attemptNumber
    ensures var x := Attempted(w, ids);
            && CommandsOk(x.def, x.executionIds, x.admissions, w.initial, w.retries)
            && CommandOk(x.def, x.executionIds, x.admissions, NewCommand(w, ids))
    ensures w.initial.Some? ==> w.initial.value.attempt <= w.attemptNumber
    ensures forall e :: e in w.retries ==> w.retries[e].attempt <= w.attemptNumber
  {
    var x := Attempted(w, ids);
    if w.initial.Some? {
      CommandGrows(w, ids, w.initial.value);
    }
    forall e | e in w.retries
      ensures CommandOk(x.def, x.executionIds, x.admissions, w.retries[e]) && w.retries[e].attempt <= w.attemptNumber
    {
      CommandGrows(w, ids, w.retries[e]);
    }
  }

  /** Everything but the stored commands survives a new attempt. */
  lemma AttemptedKeeps(w: Workflow, x: Workflow, ids: Ids)
    requires Inv(w) && w.state == Running && Unused(w, ids) && Affordable(w)
    requires x == Attempted(w, ids).(initial := x.initial, retries := x.retries)
    requires CommandsOk(x.def, x.executionIds, x.admissions, x.initial, x.retries)
    requires Stored(x) == Stored(w) + if CommandValid(w.def) then 1 else 0
    ensures Inv(x)
  {
    AttemptedAdmissions(w, ids);
    AttemptedRecords(w, ids);
    AttemptedCounts(w, ids);
  }

  lemma StartingKeeps(w: Workflow, x: Workflow, ids: Ids)
    requires Inv(w) && Starting(w, x, ids)
    ensures Inv(x)
  {
    AttemptedCommands(w, ids);
    AttemptedKeeps(w, x, ids);
  }

  lemma RetryAdded(def: Definition, executionIds: seq<Id>, admissions: map<Id, Binding>, initial: Option<Command>,
                   retries: map<Id, Command>, id: Id, c: Command)
    requires CommandsOk(def, executionIds, admissions, initial, retries) && id !in retries
    requires CommandOk(def, executionIds, admissions, c)
    requires initial.Some? ==> initial.value.attempt < c.attempt
    requires forall e :: e in retries ==> retries[e].attempt < c.attempt
    ensures CommandsOk(def, executionIds, admissions, initial, retries[id := c])
    ensures |retries[id := c]| == |retries| + 1
  {
    assert retries[id := c].Keys == retries.Keys + {id};
    assert |retries[id := c]| == |retries[id := c].Keys| && |retries| == |retries.Keys|;
  }

  lemma RetryingKeeps(w: Workflow, x: Workflow, ids: Ids, id: Id)
    requires Inv(w) && Retrying(w, x, ids, id)
    ensures Inv(x)
  {
    AttemptedCommands(w, ids);
    if CommandValid(w.def) {
      RetryAdded(x.def, x.executionIds, x.admissions, w.initial, w.retries, id, NewCommand(w, ids));
    }
    AttemptedKeeps(w, x, ids);
  }

  lemma CasesKeepInv(w: Workflow, x: Workflow, step: Step)
    requires Inv(w) && StepCases(w, x, step)
    ensures Inv(x) && x.def == w.def
  {
    if Bookkeeping(w, x) || Ending(w, x) {
      EndingKeeps(w, x);
    } else if step.HandleStart? {
      StartingKeeps(w, x, step.ids);
    } else if step.event.AttemptFailed? {
      RetryingKeeps(w, x, step.ids, step.event.id);
    } else {
      CompletingKeeps(w, x, step.event.lineage);
    }
  }

  lemma NextKeepsInv(w: Workflow, step: Step)
    requires Inv(w)
    ensures Inv(Next(w, step)) && Next(w, step).def == w.def
  {
    InvLegible(w);
    NextCases(w, step);
    CasesKeepInv(w, Next(w, step), step);
  }

  /** The invariant holds from the first stored instance on, whatever steps follow. */
  lemma {:induction false} RunKeepsInv(w: Workflow, steps: seq<Step>)
    requires Inv(w)
    ensures Inv(Run(w, steps)) && Run(w, steps).def == w.def
    decreases |steps|
  {
    if steps != [] {
      RunKeepsInv(w, steps[..|steps| - 1]);
      NextKeepsInv(Run(w, steps[..|steps| - 1]), steps[|steps| - 1]);
    }
  }

  lemma NewInv(def: Definition)
    requires Payable(def)
    ensures Inv(NewWorkflow(def))
  {
  }

  /** A state some accepted StartWorkflow command can lead to. */
  ghost predicate ReachedBy(w: Workflow, startId: Id, ceiling: Option<string>, hasResult: bool, maxAttempts: int,
                            steps: seq<Step>) {
    var started := Start(startId, ceiling, hasResult, maxAttempts);
    started.Some? && w == Run(started.value, steps)
  }

  ghost predicate Reachable(w: Workflow) {
    exists startId, ceiling, hasResult, maxAttempts, steps :: ReachedBy(w, startId, ceiling, hasResult, maxAttempts, steps)
  }

  lemma ReachableInv(w: Workflow)
    requires Reachable(w)
    ensures Inv(w) && w.def.commitment == COMMITMENT && w.def.maxAttempts >= 1
  {
    var startId, ceiling, hasResult, maxAttempts, steps :|
      ReachedBy(w, startId, ceiling, hasResult, maxAttempts, steps);
    var started := Start(startId, ceiling, hasResult, maxAttempts).value;
    NewInv(started.def);
    RunKeepsInv(started, steps);
  }
}
