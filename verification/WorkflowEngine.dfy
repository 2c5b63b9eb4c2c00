/** One workflow instance and the engine's handlers on it: start and its redeliveries, cancel,
    attempt events, attempt creation with its AI budget admission, completion with budget
    reconciliation, and the lookup of the authoritative admission.  A handler that awaits a
    dispatch or a publication is cut there: the part before the await is one step, the
    bookkeeping after it another, so a failed await is the second step never happening. */
module WorkflowEngine {
  import opened Options
  import opened Amounts
  import opened Totals

  type Id = string

  datatype State = Running | Completed | Failed | Cancelled

  datatype Stage =
    | Requested | PendingAdmission | CommittedStage | GatewayAccepted
    | Settling | Reconciled | Released | RejectedStage

  /** The fenced handoff shape; `amount` is the committed exposure as a decimal string. */
  datatype Binding = Binding(commandId: Id, executionId: Id, version: nat, amount: string)

  datatype Record = Record(stage: Stage, version: nat, exposure: Option<string>,
                           binding: Option<Binding>, settled: Option<string>)

  datatype Command = Command(commandId: Id, executionId: Id, attempt: nat, admission: Option<Binding>)

  datatype Budget = Budget(bypassed: bool, committed: string, settled: string, remaining: string)

  datatype Status = StatusRejected | StatusFailed | StatusCancelled

  datatype Outcome =
    | Accepted
    | Success(cause: Id, attempts: nat, executionIds: seq<Id>, budget: Option<Budget>)
    | Unsuccessful(status: Status, cause: Id, code: string)

  datatype Receipt = Receipt(result: Outcome, done: bool)

  /** `ceiling` is present exactly for the approved reference workflow, which alone is governed;
      `commitment` is what one of its attempts commits, in micro-USD. */
  datatype Definition = Definition(startId: Id, ceiling: Option<nat>, hasResult: bool, maxAttempts: nat, commitment: nat)

  datatype Workflow = Workflow(
    def: Definition, state: State, attemptNumber: nat, executionIds: seq<Id>, processed: set<Id>,
    initial: Option<Command>, retries: map<Id, Command>, outcome: Option<Outcome>, error: Option<string>,
    admissions: map<Id, Binding>, records: map<Id, Record>, version: nat, receipts: map<Id, Receipt>)

  /** The approved structured package maximum, in micro-USD. */
  const COMMITMENT := 10_000

  const REVOKED := "WORKFLOW_AI_AUTHORIZATION_REVOKED"
  const EXHAUSTED := "WORKFLOW_AI_BUDGET_EXHAUSTED"
  const ATTEMPTS_EXHAUSTED := "WORKFLOW_ATTEMPTS_EXHAUSTED"
  const CANCELLED := "WORKFLOW_CANCELLED"
  const ALREADY_TERMINAL := "WORKFLOW_ALREADY_TERMINAL"
  const CANCEL_UNAUTHORIZED := "WORKFLOW_CANCEL_UNAUTHORIZED"

  predicate Terminal(s: State) {
    s != Running
  }

  predicate Governed(def: Definition) {
    def.ceiling.Some?
  }

  /** An attempt of this definition commits AI budget. */
  predicate NeedsAdmission(def: Definition) {
    Governed(def) && !def.hasResult
  }

  /** `CommandEnvelope` refuses a result id on anything but a version 2 (governed) command. */
  predicate CommandValid(def: Definition) {
    Governed(def) || !def.hasResult
  }

  /** `_start` after its lookups: a definition needs a positive attempt limit and, if governed,
      a readable ceiling.  The instance is stored Running with an open receipt. */
  function Start(startId: Id, ceiling: Option<string>, hasResult: bool, maxAttempts: int): Option<Workflow> {
    if maxAttempts < 1 || (ceiling.Some? && Scale6(ceiling.value).None?) then None
    else
      var micro := if ceiling.None? then None else Scale6(ceiling.value);
      Some(NewWorkflow(Definition(startId, micro, hasResult, maxAttempts, COMMITMENT)))
  }

  function NewWorkflow(def: Definition): Workflow {
    Workflow(def, Running, 0, [], {}, None, map[], None, None, map[], map[], 0,
             map[def.startId := Receipt(Accepted, false)])
  }

  // ----- attempt creation -----

  datatype Ids = Ids(executionId: Id, commandId: Id)

  /** Refused: the two expected errors.  Raised: any other exception. */
  datatype Creation = Refused(code: string) | Raised | Made(command: Command)

  function Amount(text: string): nat {
    if Scale6(text).Some? then Scale6(text).value else 0
  }

  ghost function Exposures(admissions: map<Id, Binding>): map<Id, nat> {
    map c | c in admissions :: Amount(admissions[c].amount)
  }

  predicate Readable(admissions: map<Id, Binding>) {
    forall c :: c in admissions ==> Scale6(admissions[c].amount).Some?
  }

  function NewBinding(w: Workflow, ids: Ids): Binding {
    Binding(ids.commandId, ids.executionId, w.version + 1, Format(w.def.commitment))
  }

  function NewCommand(w: Workflow, ids: Ids): Command {
    Command(ids.commandId, ids.executionId, w.attemptNumber + 1,
            if NeedsAdmission(w.def) then Some(NewBinding(w, ids)) else None)
  }

  function CommittedRecord(b: Binding): Record {
    Record(CommittedStage, b.version, Some(b.amount), Some(b), None)
  }

  /** The instance after an attempt has been numbered and, if needed, admitted. */
  function Attempted(w: Workflow, ids: Ids): Workflow {
    var counted := w.(attemptNumber := w.attemptNumber + 1, executionIds := w.executionIds + [ids.executionId]);
    if !NeedsAdmission(w.def) then counted
    else
      var b := NewBinding(w, ids);
      counted.(version := w.version + 1,
               admissions := w.admissions[ids.commandId := b],
               records := w.records[ids.commandId := CommittedRecord(b)])
  }

  ghost function CreateSpec(w: Workflow, allowed: bool, ids: Ids): (Workflow, Creation) {
    if NeedsAdmission(w.def) && !allowed then (w, Refused(REVOKED))
    else if NeedsAdmission(w.def) && !Readable(w.admissions) then (w, Raised)
    else if NeedsAdmission(w.def) && Total(Exposures(w.admissions)) + w.def.commitment > w.def.ceiling.value
    then (w, Refused(EXHAUSTED))
    else (Attempted(w, ids), if CommandValid(w.def) then Made(NewCommand(w, ids)) else Raised)
  }

  // ----- terminal transitions -----

  function Ended(w: Workflow, status: Status, cause: Id, code: string): Workflow {
    w.(state := if status == StatusCancelled then Cancelled else Failed,
       outcome := Some(Unsuccessful(status, cause, code)), error := Some(code))
  }

  /** Receipts still in progress take over the outcome. */
  function Answered(receipts: map<Id, Receipt>, result: Outcome): map<Id, Receipt> {
    map c | c in receipts :: if receipts[c].done then receipts[c] else receipts[c].(result := result)
  }

  function RejectionCode(code: string): string {
    if code == "" then "WORKFLOW_PRE_AI_REJECTED" else code
  }

  function RejectedAttempt(w: Workflow, cause: Id, code: string): Workflow {
    var ended := Ended(w, StatusRejected, cause, RejectionCode(code));
    ended.(receipts := Answered(w.receipts, ended.outcome.value))
  }

  function Closed(w: Workflow, c: Id): Workflow
    requires c in w.receipts
  {
    w.(receipts := w.receipts[c := w.receipts[c].(done := true)])
  }

  // ----- budget reconciliation -----

  /** The audit lineage of a success event.  `scoped`: its identities are the instance's;
      `routed`: the value names a known task kind; `matches`: the gateway evidence is present,
      settled and about this invocation; `actual` is its amount. */
  datatype Lineage = Lineage(scoped: bool, routed: bool, avoided: bool, executionId: Id,
                             commandId: Option<Id>, matches: bool, actual: string)

  predicate Open(stage: Stage) {
    stage == CommittedStage || stage == GatewayAccepted || stage == Settling
  }

  predicate ReadableRecord(r: Record) {
    && (r.stage == Reconciled ==> r.settled.Some? && Scale6(r.settled.value).Some?)
    && (Open(r.stage) ==> r.exposure.Some? && Scale6(r.exposure.value).Some?)
  }

  function SettledAmount(r: Record): nat {
    if r.stage == Reconciled && r.settled.Some? then Amount(r.settled.value) else 0
  }

  function CommittedAmount(r: Record): nat {
    if Open(r.stage) && r.exposure.Some? then Amount(r.exposure.value) else 0
  }

  ghost function SettledAmounts(records: map<Id, Record>): map<Id, nat> {
    map c | c in records :: SettledAmount(records[c])
  }

  ghost function CommittedAmounts(records: map<Id, Record>): map<Id, nat> {
    map c | c in records :: CommittedAmount(records[c])
  }

  predicate Evidenced(records: map<Id, Record>, l: Lineage) {
    && l.commandId.Some? && l.commandId.value in records && records[l.commandId.value].binding.Some?
    && l.matches && Scale6(l.actual).Some?
  }

  function Reconciliation(records: map<Id, Record>, l: Lineage): map<Id, Record>
    requires Evidenced(records, l)
  {
    var c := l.commandId.value;
    records[c := records[c].(stage := Reconciled, settled := Some(l.actual))]
  }

  datatype Counts = Counts(settled: nat, committed: nat)

  /** The records afterwards and the counts, or None where the source raises. */
  ghost function ReconcileSpec(records: map<Id, Record>, l: Lineage): (map<Id, Record>, Option<Counts>) {
    if l.avoided then (records, Some(Counts(0, 0)))
    else if !Evidenced(records, l) then (records, None)
    else
      var after := Reconciliation(records, l);
      if forall c :: c in after ==> ReadableRecord(after[c])
      then (after, Some(Counts(Total(SettledAmounts(after)), Total(CommittedAmounts(after))))) else (after, None)
  }

  /** One candidate of the counting loop: what it adds to each sum, or None where the source raises. */
  method CountRecord(r: Record) returns (counts: Option<Counts>)
    ensures counts == if ReadableRecord(r) then Some(Counts(SettledAmount(r), CommittedAmount(r))) else None
  {
    if r.stage == Reconciled {
      if r.settled.None? || Scale6(r.settled.value).None? {
        return None;
      }
      return Some(Counts(Scale6(r.settled.value).value, 0));
    }
    if Open(r.stage) {
      if r.exposure.None? || Scale6(r.exposure.value).None? {
        return None;
      }
      return Some(Counts(0, Scale6(r.exposure.value).value));
    }
    return Some(Counts(0, 0));
  }

  /** `amount or "0"`. */
  function Shown(n: int): string {
    if Format(n) == "" then "0" else Format(n)
  }

  function Evidence(ceiling: nat, avoided: bool, counts: Counts): Budget {
    Budget(avoided, Shown(counts.committed), Shown(counts.settled), Shown(ceiling - (counts.settled + counts.committed)))
  }

  function Succeeded(w: Workflow, cause: Id, budget: Option<Budget>): Workflow {
    w.(state := Completed, outcome := Some(Success(cause, w.attemptNumber, w.executionIds, budget)))
  }

  /** `_complete`. */
  ghost function CompleteSpec(w: Workflow, cause: Id, l: Lineage): Workflow {
    if !l.scoped || l.executionId !in w.executionIds || (Governed(w.def) && !l.routed)
    then Ended(w, StatusFailed, cause, ATTEMPTS_EXHAUSTED)
    else if !Governed(w.def) then Succeeded(w, cause, None)
    else
      var (records, counts) := ReconcileSpec(w.records, l);
      var after := w.(records := records);
      if counts.None? then after
      else Succeeded(after, cause, Some(Evidence(w.def.ceiling.value, l.avoided, counts.value)))
  }

  // ----- handlers -----

  datatype Event =
    | AttemptSucceeded(id: Id, lineage: Lineage)
    | AttemptRejected(id: Id, code: string)
    | AttemptFailed(id: Id, retryable: bool)

  /** `_resume_start` up to the dispatch of the initial attempt. */
  ghost function StartSpec(w: Workflow, allowed: bool, ids: Ids): Workflow {
    var c := w.def.startId;
    if c !in w.receipts || w.receipts[c].done then w
    else if w.outcome.Some? then Closed(w, c)
    else if w.initial.Some? then w
    else
      var (after, made) := CreateSpec(w, allowed, ids);
      match made
      case Raised => after
      case Made(command) => after.(initial := Some(command))
      case Refused(code) =>
        var ended := Ended(w, StatusRejected, c, code);
        ended.(receipts := ended.receipts[c := Receipt(ended.outcome.value, true)])
  }

  /** `complete_command` once the initial dispatch has returned. */
  function StartDispatched(w: Workflow): Workflow {
    if w.def.startId in w.receipts && w.initial.Some? then Closed(w, w.def.startId) else w
  }

  function CancelSpec(w: Workflow, c: Id, allowed: bool): Workflow {
    if c in w.receipts then w
    else if !allowed then
      w.(receipts := w.receipts[c := Receipt(Unsuccessful(StatusRejected, c, CANCEL_UNAUTHORIZED), true)])
    else if w.state == Cancelled && w.outcome.Some? then
      w.(receipts := w.receipts[c := Receipt(w.outcome.value, true)])
    else if w.state == Cancelled then w
    else if Terminal(w.state) then
      w.(receipts := w.receipts[c := Receipt(Unsuccessful(StatusRejected, c, ALREADY_TERMINAL), true)])
    else
      var ended := Ended(w, StatusCancelled, c, CANCELLED);
      ended.(receipts := w.receipts[c := Receipt(ended.outcome.value, true)])
  }

  predicate PermitsNewAttempt(w: Workflow) {
    w.state == Running && w.attemptNumber < w.def.maxAttempts
  }

  /** `consume` up to the dispatch of a retry or the publication of the terminal event. */
  ghost function ConsumeSpec(w: Workflow, e: Event, allowed: bool, ids: Ids): Workflow {
    if e.id in w.processed then w
    else if Terminal(w.state) then w.(processed := w.processed + {e.id})
    else
      match e
      case AttemptSucceeded(id, lineage) => CompleteSpec(w, id, lineage)
      case AttemptRejected(id, code) => RejectedAttempt(w, id, code)
      case AttemptFailed(id, retryable) =>
        if id in w.retries then w
        else if !(PermitsNewAttempt(w) && retryable) then Ended(w, StatusFailed, id, ATTEMPTS_EXHAUSTED)
        else
          var (after, made) := CreateSpec(w, allowed, ids);
          match made
          case Raised => after
          case Made(command) => after.(retries := after.retries[id := command])
          case Refused(code) => Ended(w, StatusRejected, id, code)
  }

  /** The event is remembered once the awaited dispatch or publication has returned. */
  function EventDone(w: Workflow, id: Id): Workflow {
    if Terminal(w.state) || id in w.retries then w.(processed := w.processed + {id}) else w
  }

  /** `authoritative_ai_admission`; `dispatch` is the command being delivered, if any. */
  function Authoritative(w: Workflow, dispatch: Option<Ids>, c: Id, execution: Id): Option<Binding> {
    if dispatch.Some? && dispatch.value != Ids(execution, c) then None
    else if c !in w.admissions || c !in w.records then None
    else
      var binding, record := w.admissions[c], w.records[c];
      var running := w.state == Running && Open(record.stage);
      var replay := w.state == Completed && record.stage == Reconciled;
      if !(running || replay) || binding.version != w.version || record.version != binding.version
         || record.binding != Some(binding) || binding.executionId != execution
      then None else Some(binding)
  }

  // ----- the instance as the engine updates it -----

  class Instance {
    const def: Definition
    var state: State
    var attemptNumber: nat
    var executionIds: seq<Id>
    var processed: set<Id>
    var initial: Option<Command>
    var retries: map<Id, Command>
    var outcome: Option<Outcome>
    var error: Option<string>
    var admissions: map<Id, Binding>
    var records: map<Id, Record>
    var version: nat
    var receipts: map<Id, Receipt>

    ghost function View(): Workflow
      reads this
    {
      Workflow(def, state, attemptNumber, executionIds, processed, initial, retries, outcome, error,
               admissions, records, version, receipts)
    }

    constructor (def: Definition)
      ensures View() == NewWorkflow(def)
    {
      this.def := def;
      state, attemptNumber, executionIds, processed := Running, 0, [], {};
      initial, retries, outcome, error := None, map[], None, None;
      admissions, records, version := map[], map[], 0;
      receipts := map[def.startId := Receipt(Accepted, false)];
    }

    /** The accumulation over `admissions.values()`; None where `scale6` raises. */
    method SumExposures() returns (used: Option<nat>)
      ensures used == if Readable(admissions) then Some(Total(Exposures(admissions))) else None
    {
      var sum, left := 0, admissions.Keys;
      ghost var all := Exposures(admissions);
      TotalOverAll(all);
      assert left == all.Keys;
      while left != {}
        invariant left <= admissions.Keys
        invariant forall c :: c in admissions && c !in left ==> Scale6(admissions[c].amount).Some?
        invariant Total(all) == sum + TotalOver(all, left)
        decreases left
      {
        var c :| c in left;
        TotalOverStep(all, left, c);
        var amount := Scale6(admissions[c].amount);
        if amount.None? {
          return None;
        }
        sum, left := sum + amount.value, left - {c};
      }
      return Some(sum);
    }

    method CreateAttemptCommand(allowed: bool, ids: Ids) returns (made: Creation)
      modifies this
      ensures (View(), made) == CreateSpec(old(View()), allowed, ids)
    {
      var governed := Governed(def);
      if governed && !def.hasResult {
        if !allowed {
          return Refused(REVOKED);
        }
        var used := SumExposures();
        if used.None? {
          return Raised;
        }
        if used.value + def.commitment > def.ceiling.value {
          return Refused(EXHAUSTED);
        }
      }
      var admission := NumberAttempt(ids);
      if !governed && def.hasResult {
        return Raised;
      }
      return Made(Command(ids.commandId, ids.executionId, attemptNumber, admission));
    }

    /** The admission half of `_create_attempt_command`: a new version, and its binding stored as
        admission and as committed record. */
    method AdmitAttempt(ids: Ids) returns (binding: Binding)
      modifies this`version, this`admissions, this`records
      ensures version == old(version) + 1
      ensures binding == Binding(ids.commandId, ids.executionId, version, Format(def.commitment))
      ensures admissions == old(admissions)[ids.commandId := binding]
      ensures records == old(records)[ids.commandId := CommittedRecord(binding)]
    {
      version := version + 1;
      var record := Record(Requested, version, None, None, None);
      record := record.(stage := PendingAdmission);
      binding := Binding(ids.commandId, ids.executionId, version, Format(def.commitment));
      record := record.(stage := CommittedStage, exposure := Some(binding.amount), binding := Some(binding));
      admissions := admissions[ids.commandId := binding];
      records := records[ids.commandId := record];
    }

    /** The counting half, with the admission where one is needed. */
    method NumberAttempt(ids: Ids) returns (admission: Option<Binding>)
      modifies this`attemptNumber, this`executionIds, this`version, this`admissions, this`records
      ensures View() == Attempted(old(View()), ids)
      ensures admission == NewCommand(old(View()), ids).admission
    {
      attemptNumber := attemptNumber + 1;
      executionIds := executionIds + [ids.executionId];
      if !NeedsAdmission(def) {
        return None;
      }
      var binding := AdmitAttempt(ids);
      return Some(binding);
    }

    method End(status: Status, cause: Id, code: string)
      modifies this`state, this`outcome, this`error
      ensures View() == Ended(old(View()), status, cause, code)
    {
      state := if status == StatusCancelled then Cancelled else Failed;
      outcome := Some(Unsuccessful(status, cause, code));
      error := Some(code);
    }

    method ResumeStart(allowed: bool, ids: Ids)
      modifies this
      ensures View() == StartSpec(old(View()), allowed, ids)
    {
      var c := def.startId;
      if c !in receipts || receipts[c].done {
        return;
      }
      if outcome.Some? {
        receipts := receipts[c := receipts[c].(done := true)];
        return;
      }
      if initial.None? {
        var made := CreateAttemptCommand(allowed, ids);
        match made {
          case Raised =>
          case Made(command) => initial := Some(command);
          case Refused(code) =>
            End(StatusRejected, c, code);
            receipts := receipts[c := receipts[c].(result := outcome.value)];
            receipts := receipts[c := receipts[c].(done := true)];
        }
      }
    }

    method Cancel(c: Id, allowed: bool)
      modifies this
      ensures View() == CancelSpec(old(View()), c, allowed)
    {
      if c in receipts {
        return;
      }
      if !allowed {
        receipts := receipts[c := Receipt(Unsuccessful(StatusRejected, c, CANCEL_UNAUTHORIZED), true)];
        return;
      }
      if state == Cancelled {
        if outcome.Some? {
          receipts := receipts[c := Receipt(outcome.value, true)];
        }
        return;
      }
      if state == Completed || state == Failed {
        receipts := receipts[c := Receipt(Unsuccessful(StatusRejected, c, ALREADY_TERMINAL), true)];
        return;
      }
      End(StatusCancelled, c, CANCELLED);
      receipts := receipts[c := Receipt(outcome.value, true)];
    }

    /** The counting loop over `states.values()`; None where the source raises. */
    method CountRecords() returns (counts: Option<Counts>)
      ensures counts == if forall c :: c in records ==> ReadableRecord(records[c])
                        then Some(Counts(Total(SettledAmounts(records)), Total(CommittedAmounts(records)))) else None
    {
      var settled, committed, left := 0, 0, records.Keys;
      ghost var s, m := SettledAmounts(records), CommittedAmounts(records);
      TotalOverAll(s);
      TotalOverAll(m);
      assert left == s.Keys == m.Keys;
      while left != {}
        invariant left <= records.Keys
        invariant forall c :: c in records && c !in left ==> ReadableRecord(records[c])
        invariant Total(s) == settled + TotalOver(s, left)
        invariant Total(m) == committed + TotalOver(m, left)
        decreases left
      {
        var c :| c in left;
        TotalOverStep(s, left, c);
        TotalOverStep(m, left, c);
        var counts := CountRecord(records[c]);
        if counts.None? {
          return None;
        }
        settled, committed := settled + counts.value.settled, committed + counts.value.committed;
        left := left - {c};
      }
      return Some(Counts(settled, committed));
    }

    method ReconcileAdmission(l: Lineage) returns (counts: Option<Counts>)
      modifies this`records
      ensures (records, counts) == ReconcileSpec(old(records), l)
    {
      if l.avoided {
        return Some(Counts(0, 0));
      }
      if l.commandId.None? || l.commandId.value !in records {
        return None;
      }
      var record := records[l.commandId.value];
      if record.binding.None? || !l.matches || Scale6(l.actual).None? {
        return None;
      }
      record := record.(stage := GatewayAccepted);
      record := record.(stage := Settling);
      record := record.(stage := Reconciled);
      record := record.(settled := Some(l.actual));
      records := records[l.commandId.value := record];
      counts := CountRecords();
    }

    method Complete(cause: Id, l: Lineage)
      modifies this
      ensures View() == CompleteSpec(old(View()), cause, l)
    {
      if !l.scoped || l.executionId !in executionIds {
        End(StatusFailed, cause, ATTEMPTS_EXHAUSTED);
        return;
      }
      if Governed(def) && !l.routed {
        End(StatusFailed, cause, ATTEMPTS_EXHAUSTED);
        return;
      }
      var budget := None;
      if def.ceiling.Some? {
        var counts := ReconcileAdmission(l);
        if counts.None? {
          return;
        }
        budget := Some(Evidence(def.ceiling.value, l.avoided, counts.value));
      }
      outcome := Some(Success(cause, attemptNumber, executionIds, budget));
      state := Completed;
    }

    method Consume(e: Event, allowed: bool, ids: Ids)
      modifies this
      ensures View() == ConsumeSpec(old(View()), e, allowed, ids)
    {
      if e.id in processed {
        return;
      }
      if Terminal(state) {
        processed := processed + {e.id};
        return;
      }
      match e {
        case AttemptSucceeded(id, lineage) =>
          Complete(id, lineage);
        case AttemptRejected(id, code) =>
          End(StatusRejected, id, RejectionCode(code));
          receipts := Answered(receipts, outcome.value);
        case AttemptFailed(id, retryable) =>
          if id in retries {
            return;
          }
          if state == Running && attemptNumber < def.maxAttempts && retryable {
            var made := CreateAttemptCommand(allowed, ids);
            match made {
              case Raised =>
              case Made(command) => retries := retries[id := command];
              case Refused(code) => End(StatusRejected, id, code);
            }
          } else {
            End(StatusFailed, id, ATTEMPTS_EXHAUSTED);
          }
      }
    }
  }

  // ----- runs -----

  datatype Step =
    | HandleStart(allowed: bool, ids: Ids)
    | DispatchReturned
    | HandleCancel(commandId: Id, allowed: bool)
    | Deliver(event: Event, allowed: bool, ids: Ids)
    | DeliveryReturned(eventId: Id)

  /** The identifier factory has not handed these out to this workflow before. */
  predicate Unused(w: Workflow, ids: Ids) {
    ids.executionId !in w.executionIds && ids.commandId !in w.admissions
  }

  ghost function Next(w: Workflow, step: Step): Workflow {
    match step
    case HandleStart(allowed, ids) => if Unused(w, ids) then StartSpec(w, allowed, ids) else w
    case DispatchReturned => StartDispatched(w)
    case HandleCancel(c, allowed) => CancelSpec(w, c, allowed)
    case Deliver(e, allowed, ids) => if Unused(w, ids) then ConsumeSpec(w, e, allowed, ids) else w
    case DeliveryReturned(id) => EventDone(w, id)
  }

  /** All steps of one workflow are serialized; a step that cannot happen changes nothing. */
  ghost function Run(w: Workflow, steps: seq<Step>): Workflow
    decreases |steps|
  {
    if steps == [] then w else Next(Run(w, steps[..|steps| - 1]), steps[|steps| - 1])
  }
}
