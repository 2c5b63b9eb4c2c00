/** The attempt loop of `ReferenceAIGateway.execute` with its metered repair loop
    `_validate_and_repair`: which provider calls start, what they are charged, and what the
    loop reports as spent.  Money is a natural number of a small unit. */
module AttemptLoop {
  import opened Options
  import opened Provider

  /** What a model charges for a usage; `Provider.Cost` at fixed prices is one such function. */
  type Pricing = Usage -> nat

  datatype Candidate = Candidate(modelKey: string, prices: Pricing, estimatedCost: nat)

  datatype Request = Request(maxTotalCost: nat, maxOutputTokens: nat, maxProviderAttempts: nat,
                             repairAttempts: nat, structured: bool)

  /** A provider call gives a result, fails, or never comes back to this worker (lost
      ownership, cancellation or any other exception). */
  datatype Outcome = Got(result: ProviderResult) | Broke(failure: Failure) | Lost

  /** Everything the loop asks of its surroundings, by attempt and repair number.  A recorded
      effect is replayed instead of called. */
  datatype Environment = Environment(
    promptTokens: nat -> nat,
    deadlinePassed: nat -> bool,
    cached: nat -> Option<string>,
    recordedPrimary: nat -> Option<ProviderResult>,
    primary: nat -> Outcome,
    recordedRepair: (nat, nat) -> Option<ProviderResult>,
    repair: (nat, nat) -> Outcome,
    validated: string -> Option<string>,
    estimate: string -> nat,
    repairPromptTokens: nat)

  datatype EffectKey = PrimaryKey(number: nat) | RepairKey(number: nat)

  function RepairNumber(attempt: nat, repair: nat): nat {
    attempt * 100 + repair + 1
  }

  /** One provider outcome: its key, the estimate and the budget left when it was admitted, its
      metered cost (0 when it never came back), and whether the provider was really called. */
  datatype Charge = Charge(key: EffectKey, estimate: nat, left: int, cost: nat, called: bool)

  function Metered(charges: seq<Charge>): nat {
    if charges == [] then 0 else Metered(charges[..|charges| - 1]) + charges[|charges| - 1].cost
  }

  lemma {:induction false} MeteredAppend(a: seq<Charge>, b: seq<Charge>)
    ensures Metered(a + b) == Metered(a) + Metered(b)
  {
    if b == [] {
      assert a + b == a;
    } else {
      assert (a + b)[..|a + b| - 1] == a + b[..|b| - 1];
      MeteredAppend(a, b[..|b| - 1]);
    }
  }

  function FailureCost(prices: Pricing, failure: Failure): nat {
    if failure.usage.Some? then prices(failure.usage.value) else 0
  }

  /** The keys one invocation can use under its request limits. */
  ghost predicate KeyInRange(req: Request, key: EffectKey) {
    match key
    case PrimaryKey(n) => 1 <= n <= req.maxProviderAttempts
    case RepairKey(n) => exists k, r :: RepairOf(req, k, r, n)
  }

  ghost predicate RepairOf(req: Request, k: nat, r: nat, n: nat) {
    1 <= k <= req.maxProviderAttempts && r < req.repairAttempts && n == RepairNumber(k, r)
  }

  // ----- repairs -----

  datatype RepairEnd =
    | Accepted(content: string, cost: nat)
    | Rejected(failure: Failure)
    | Abandoned

  datatype Repairs = Repairs(content: string, input: nat, output: nat, cost: nat, charges: seq<Charge>)

  /** One turn of the repair loop: it ends, or leaves the state for the next turn. */
  datatype Turn = End(end: RepairEnd, charges: seq<Charge>) | Again(next: Repairs)

  function RepairTurn(env: Environment, req: Request, prices: Pricing, attempt: nat,
                      remaining: int, turn: nat, st: Repairs): Turn
  {
    var validated := env.validated(st.content);
    if validated.Some? then
      if env.estimate(validated.value) > req.maxOutputTokens
      then End(Rejected(Failure("AI_OUTPUT_LIMIT_EXCEEDED", false, None)), st.charges)
      else End(Accepted(validated.value, st.cost), st.charges)
    else if turn >= req.repairAttempts then
      var used := if st.input > 0 || st.output > 0 then Some(Usage(st.input, st.output, 0, 0)) else None;
      End(Rejected(Failure("AI_INVALID_RESPONSE", false, used)), st.charges)
    else
      var envelope := prices(Usage(env.repairPromptTokens, req.maxOutputTokens, 0, 0));
      var left := remaining - st.cost;
      if envelope > left then End(Rejected(Failure("AI_REPAIR_BUDGET_EXHAUSTED", false, None)), st.charges)
      else
        RepairCall(env, req, prices, attempt, turn, st, envelope, left)
  }

  /** An admitted repair: replayed or called, then metered. */
  function RepairCall(env: Environment, req: Request, prices: Pricing, attempt: nat, turn: nat, st: Repairs,
                      envelope: nat, left: int): Turn
  {
    var key := RepairKey(RepairNumber(attempt, turn));
    var recorded := env.recordedRepair(attempt, turn);
    var outcome := if recorded.Some? then Got(recorded.value) else env.repair(attempt, turn);
    match outcome
    case Lost => End(Abandoned, st.charges + [Charge(key, envelope, left, 0, true)])
    case Broke(f) =>
      End(Rejected(f), st.charges + [Charge(key, envelope, left, FailureCost(prices, f), true)])
    case Got(result) =>
      var usage := UsageOr(result.usage, env.repairPromptTokens, req.maxOutputTokens);
      MeterRepair(req, st, usage, result.content, Charge(key, envelope, left, prices(usage), recorded.None?))
  }

  /** A repair result in hand: over its limits, or the content of the next turn. */
  function MeterRepair(req: Request, st: Repairs, usage: Usage, content: string, charge: Charge): Turn {
    var charges := st.charges + [charge];
    if usage.outputTokens > req.maxOutputTokens
    then End(Rejected(Failure("AI_OUTPUT_LIMIT_EXCEEDED", false, Some(usage))), charges)
    else if charge.cost > charge.left
    then End(Rejected(Failure("AI_REPAIR_BUDGET_EXHAUSTED", false, Some(usage))), charges)
    else Again(Repairs(content, st.input + usage.inputTokens, st.output + usage.outputTokens,
                       st.cost + charge.cost, charges))
  }

  function UsageOr(usage: Option<Usage>, input: nat, output: nat): Usage {
    if usage.Some? then usage.value else Usage(input, output, 0, 0)
  }

  function RepairFrom(env: Environment, req: Request, prices: Pricing, attempt: nat,
                      remaining: int, turn: nat, st: Repairs): (RepairEnd, seq<Charge>)
    requires turn <= req.repairAttempts
    decreases req.repairAttempts - turn
  {
    match RepairTurn(env, req, prices, attempt, remaining, turn, st)
    case End(end, charges) => (end, charges)
    case Again(next) => RepairFrom(env, req, prices, attempt, remaining, turn + 1, next)
  }

  function Repair(env: Environment, req: Request, prices: Pricing, content: string, attempt: nat,
                  remaining: int): (RepairEnd, seq<Charge>)
  {
    if req.structured then
      RepairFrom(env, req, prices, attempt, remaining, 0, Repairs(content, 0, 0, 0, []))
    else if env.estimate(content) > req.maxOutputTokens then
      (Rejected(Failure("AI_OUTPUT_LIMIT_EXCEEDED", false, None)), [])
    else (Accepted(content, 0), [])
  }

  /** The body of the loop in `_validate_and_repair`. */
  method RepairOnce(env: Environment, req: Request, prices: Pricing, attempt: nat, remaining: int, turn: nat, st: Repairs)
    returns (done: Turn)
    requires turn <= req.repairAttempts
    ensures done == RepairTurn(env, req, prices, attempt, remaining, turn, st)
    ensures done.Again? ==> turn < req.repairAttempts
  {
    var validated := env.validated(st.content);
    if validated.Some? {
      if env.estimate(validated.value) > req.maxOutputTokens {
        return End(Rejected(Failure("AI_OUTPUT_LIMIT_EXCEEDED", false, None)), st.charges);
      }
      return End(Accepted(validated.value, st.cost), st.charges);
    }
    if turn >= req.repairAttempts {
      var used := if st.input > 0 || st.output > 0 then Some(Usage(st.input, st.output, 0, 0)) else None;
      return End(Rejected(Failure("AI_INVALID_RESPONSE", false, used)), st.charges);
    }
    var envelope := prices(Usage(env.repairPromptTokens, req.maxOutputTokens, 0, 0));
    var left := remaining - st.cost;
    if envelope > left {
      return End(Rejected(Failure("AI_REPAIR_BUDGET_EXHAUSTED", false, None)), st.charges);
    }
    var key := RepairKey(RepairNumber(attempt, turn));
    var recorded := env.recordedRepair(attempt, turn);
    var outcome := if recorded.Some? then Got(recorded.value) else env.repair(attempt, turn);
    if outcome.Lost? {
      return End(Abandoned, st.charges + [Charge(key, envelope, left, 0, true)]);
    }
    if outcome.Broke? {
      var charges := st.charges + [Charge(key, envelope, left, FailureCost(prices, outcome.failure), true)];
      return End(Rejected(outcome.failure), charges);
    }
    var usage := UsageOr(outcome.result.usage, env.repairPromptTokens, req.maxOutputTokens);
    var cost := prices(usage);
    var charges := st.charges + [Charge(key, envelope, left, cost, recorded.None?)];
    if usage.outputTokens > req.maxOutputTokens {
      return End(Rejected(Failure("AI_OUTPUT_LIMIT_EXCEEDED", false, Some(usage))), charges);
    }
    if cost > left {
      return End(Rejected(Failure("AI_REPAIR_BUDGET_EXHAUSTED", false, Some(usage))), charges);
    }
    return Again(Repairs(outcome.result.content, st.input + usage.inputTokens,
                         st.output + usage.outputTokens, st.cost + cost, charges));
  }

  /** `_validate_and_repair` as the source runs it. */
  method ValidateAndRepair(env: Environment, req: Request, prices: Pricing, content: string,
                           attempt: nat, remaining: int)
    returns (end: RepairEnd, charges: seq<Charge>)
    ensures (end, charges) == Repair(env, req, prices, content, attempt, remaining)
  {
    if !req.structured {
      if env.estimate(content) > req.maxOutputTokens {
        return Rejected(Failure("AI_OUTPUT_LIMIT_EXCEEDED", false, None)), [];
      }
      return Accepted(content, 0), [];
    }
    var st := Repairs(content, 0, 0, 0, []);
    var turn := 0;
    while turn <= req.repairAttempts
      invariant turn <= req.repairAttempts
      invariant Repair(env, req, prices, content, attempt, remaining) ==
                RepairFrom(env, req, prices, attempt, remaining, turn, st)
      decreases req.repairAttempts - turn
    {
      var done := RepairOnce(env, req, prices, attempt, remaining, turn, st);
      if done.End? {
        return done.end, done.charges;
      }
      st := done.next;
      turn := turn + 1;
    }
    assert false;
  }

  // ----- attempts -----

  datatype Ending = Succeeded(content: string, cacheHit: bool) | FailedWith(failure: Failure) | Interrupted

  /** What one attempt leaves: the loop stops, or the next candidate is tried. */
  datatype AttemptEnd = Stop(ending: Ending, spent: nat) | Continue(spent: nat, failure: Failure)

  function AfterFailure(prices: Pricing, failure: Failure, spent: nat): AttemptEnd {
    var total := spent + FailureCost(prices, failure);
    if failure.retryable then Continue(total, failure) else Stop(FailedWith(failure), total)
  }

  function Attempt(env: Environment, req: Request, c: Candidate, k: nat, spent: nat): (AttemptEnd, seq<Charge>) {
    var left := req.maxTotalCost - spent;
    if c.estimatedCost > left then
      (Stop(FailedWith(Failure("AI_FALLBACK_BUDGET_EXHAUSTED", false, None)), spent), [])
    else if env.deadlinePassed(k) then
      (Stop(FailedWith(Failure("AI_PROVIDER_TIMEOUT", false, None)), spent), [])
    else if env.cached(k).Some? then (Stop(Succeeded(env.cached(k).value, true), spent), [])
    else
      var recorded := env.recordedPrimary(k);
      var outcome := if recorded.Some? then Got(recorded.value) else env.primary(k);
      match outcome
      case Lost => (Stop(Interrupted, spent), [Charge(PrimaryKey(k), c.estimatedCost, left, 0, true)])
      case Broke(f) =>
        (AfterFailure(c.prices, f, spent),
         [Charge(PrimaryKey(k), c.estimatedCost, left, FailureCost(c.prices, f), true)])
      case Got(result) => Judge(env, req, c, k, spent, result, recorded.None?)
  }

  /** A provider result in hand: meter it, check it, repair it. */
  function Judge(env: Environment, req: Request, c: Candidate, k: nat, spent: nat,
                 result: ProviderResult, called: bool): (AttemptEnd, seq<Charge>)
  {
    var left := req.maxTotalCost - spent;
    var usage := UsageOr(result.usage, env.promptTokens(k), req.maxOutputTokens);
    var cost := c.prices(usage);
    var charge := Charge(PrimaryKey(k), c.estimatedCost, left, cost, called);
    if usage.outputTokens > req.maxOutputTokens then
      (AfterFailure(c.prices, Failure("AI_OUTPUT_LIMIT_EXCEEDED", false, Some(usage)), spent), [charge])
    else if cost > left then
      (AfterFailure(c.prices, Failure("AI_BUDGET_OVERRUN", false, Some(usage)), spent), [charge])
    else
      var (end, repairs) := Repair(env, req, c.prices, result.content, k, left - cost);
      (AfterRepair(c.prices, end, spent + cost, result.lowConfidence), [charge] + repairs)
  }

  function AfterRepair(prices: Pricing, end: RepairEnd, spent: nat, lowConfidence: bool): AttemptEnd {
    match end
    case Abandoned => Stop(Interrupted, spent)
    case Rejected(f) => AfterFailure(prices, f, spent)
    case Accepted(content, cost) =>
      if lowConfidence then Continue(spent + cost, Failure("AI_LOW_CONFIDENCE", true, None))
      else Stop(Succeeded(content, false), spent + cost)
  }

  /** The second half of the loop body: meter a result, check it, repair it. */
  method JudgeOnce(env: Environment, req: Request, c: Candidate, k: nat, before: nat, result: ProviderResult, called: bool)
    returns (end: AttemptEnd, charges: seq<Charge>)
    ensures (end, charges) == Judge(env, req, c, k, before, result, called)
  {
    var spent := before;
    var left := req.maxTotalCost - spent;
    var usage := UsageOr(result.usage, env.promptTokens(k), req.maxOutputTokens);
    var cost := c.prices(usage);
    charges := [Charge(PrimaryKey(k), c.estimatedCost, left, cost, called)];
    if usage.outputTokens > req.maxOutputTokens {
      return AfterFailure(c.prices, Failure("AI_OUTPUT_LIMIT_EXCEEDED", false, Some(usage)), spent), charges;
    }
    if cost > left {
      return AfterFailure(c.prices, Failure("AI_BUDGET_OVERRUN", false, Some(usage)), spent), charges;
    }
    spent := spent + cost;
    var repaired, repairs := ValidateAndRepair(env, req, c.prices, result.content, k, left - cost);
    charges := charges + repairs;
    match repaired {
      case Abandoned =>
        end := Stop(Interrupted, spent);
      case Rejected(failure) =>
        end := AfterFailure(c.prices, failure, spent);
      case Accepted(content, repairCost) =>
        spent := spent + repairCost;
        if result.lowConfidence {
          end := Continue(spent, Failure("AI_LOW_CONFIDENCE", true, None));
        } else {
          end := Stop(Succeeded(content, false), spent);
        }
    }
  }

  /** The body of the source's loop for one candidate. */
  method AttemptOnce(env: Environment, req: Request, c: Candidate, k: nat, spent: nat)
    returns (end: AttemptEnd, charges: seq<Charge>)
    ensures (end, charges) == Attempt(env, req, c, k, spent)
  {
    var left := req.maxTotalCost - spent;
    if c.estimatedCost > left {
      return Stop(FailedWith(Failure("AI_FALLBACK_BUDGET_EXHAUSTED", false, None)), spent), [];
    }
    if env.deadlinePassed(k) {
      return Stop(FailedWith(Failure("AI_PROVIDER_TIMEOUT", false, None)), spent), [];
    }
    if env.cached(k).Some? {
      return Stop(Succeeded(env.cached(k).value, true), spent), [];
    }
    var recorded := env.recordedPrimary(k);
    var outcome := if recorded.Some? then Got(recorded.value) else env.primary(k);
    match outcome {
      case Lost =>
        end, charges := Stop(Interrupted, spent), [Charge(PrimaryKey(k), c.estimatedCost, left, 0, true)];
      case Broke(failure) =>
        charges := [Charge(PrimaryKey(k), c.estimatedCost, left, FailureCost(c.prices, failure), true)];
        end := AfterFailure(c.prices, failure, spent);
      case Got(result) =>
        end, charges := JudgeOnce(env, req, c, k, spent, result, recorded.None?);
    }
  }

  datatype Execution = Execution(ending: Ending, spent: nat, charges: seq<Charge>)

  /** `candidates[next - 1 : max_provider_attempts]`, enumerated from `next`. */
  function LastAttempt(req: Request, candidates: seq<Candidate>): nat {
    if |candidates| < req.maxProviderAttempts then |candidates| else req.maxProviderAttempts
  }

  function AttemptsFrom(env: Environment, req: Request, candidates: seq<Candidate>, k: nat, spent: nat,
                        last: Option<Failure>, charges: seq<Charge>): Execution
    requires k >= 1
    decreases LastAttempt(req, candidates) + 1 - k
  {
    if k > LastAttempt(req, candidates) then
      Execution(FailedWith(LastFailure(last)), spent, charges)
    else
      var (end, added) := Attempt(env, req, candidates[k - 1], k, spent);
      match end
      case Stop(ending, total) => Execution(ending, total, charges + added)
      case Continue(total, failure) =>
        AttemptsFrom(env, req, candidates, k + 1, total, Some(failure), charges + added)
  }

  function LastFailure(last: Option<Failure>): Failure {
    if last.Some? then last.value else Failure("AI_GATEWAY_FAILURE", false, None)
  }

  lemma NoAttemptLeft(env: Environment, req: Request, candidates: seq<Candidate>, k: nat, spent: nat, last: Option<Failure>,
                      charges: seq<Charge>)
    requires k >= 1 && k > LastAttempt(req, candidates)
    ensures AttemptsFrom(env, req, candidates, k, spent, last, charges) ==
            Execution(FailedWith(LastFailure(last)), spent, charges)
  {
  }

  lemma NextAttempt(env: Environment, req: Request, candidates: seq<Candidate>, k: nat, spent: nat, last: Option<Failure>,
                    charges: seq<Charge>, end: AttemptEnd, added: seq<Charge>)
    requires 1 <= k <= LastAttempt(req, candidates) && (end, added) == Attempt(env, req, candidates[k - 1], k, spent)
    ensures AttemptsFrom(env, req, candidates, k, spent, last, charges) ==
            if end.Stop? then Execution(end.ending, end.spent, charges + added)
            else AttemptsFrom(env, req, candidates, k + 1, end.spent, Some(end.failure), charges + added)
  {
  }

  /** The loop of `execute`, resumed at any attempt with any recovered spend and failure. */
  method Execute(env: Environment, req: Request, candidates: seq<Candidate>, next: nat, recovered: nat,
                 lastFailure: Option<Failure>)
    returns (ending: Ending, spent: nat, charges: seq<Charge>)
    requires next >= 1
    ensures Execution(ending, spent, charges) ==
            AttemptsFrom(env, req, candidates, next, recovered, lastFailure, [])
  {
    ghost var whole := AttemptsFrom(env, req, candidates, next, recovered, lastFailure, []);
    spent := recovered;
    charges := [];
    var last := lastFailure;
    var k := next;
    while k <= |candidates| && k <= req.maxProviderAttempts
      invariant k >= 1 && whole == AttemptsFrom(env, req, candidates, k, spent, last, charges)
      decreases |candidates| - k
    {
      var end, added := AttemptOnce(env, req, candidates[k - 1], k, spent);
      NextAttempt(env, req, candidates, k, spent, last, charges, end, added);
      charges := charges + added;
      spent := end.spent;
      if end.Stop? {
        return end.ending, spent, charges;
      }
      last := Some(end.failure);
      k := k + 1;
    }
    NoAttemptLeft(env, req, candidates, k, spent, last, charges);
    ending := FailedWith(LastFailure(last));
  }
}
