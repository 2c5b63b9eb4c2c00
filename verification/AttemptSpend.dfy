/** What the attempt loop guarantees about money: no call starts beyond the budget left, the
    reported spend of a success stays within the request's limit, and exactly when the metered
    cost of all its calls does too. */
module AttemptSpend {
  import opened Options
  import opened Provider
  import opened AttemptLoop

  ghost predicate Admitted(req: Request, charges: seq<Charge>) {
    forall c :: c in charges ==> c.estimate <= c.left && KeyInRange(req, c.key)
  }

  ghost predicate RepairsOk(req: Request, remaining: int, turn: nat, st: Repairs) {
    && |st.charges| == turn <= req.repairAttempts && Admitted(req, st.charges)
    && st.cost == Metered(st.charges) <= remaining
  }

  ghost predicate RepairEndOk(req: Request, prices: Pricing, remaining: int, end: RepairEnd, charges: seq<Charge>) {
    && Admitted(req, charges) && |charges| <= req.repairAttempts
    && (end.Accepted? ==> end.cost == Metered(charges) <= remaining)
    && (end.Rejected? && end.failure.retryable ==>
          && |charges| > 0 && charges[|charges| - 1].cost == FailureCost(prices, end.failure)
          && Metered(charges[..|charges| - 1]) <= remaining)
  }

  lemma AdmitOne(req: Request, charges: seq<Charge>, c: Charge)
    requires Admitted(req, charges) && c.estimate <= c.left && KeyInRange(req, c.key)
    ensures Admitted(req, charges + [c])
    ensures Metered(charges + [c]) == Metered(charges) + c.cost
  {
    assert (charges + [c])[..|charges|] == charges;
  }

  lemma BrokenRepairFacts(req: Request, prices: Pricing, remaining: int, turn: nat, st: Repairs, charge: Charge, f: Failure)
    requires RepairsOk(req, remaining, turn, st) && turn < req.repairAttempts
    requires charge.estimate <= charge.left && KeyInRange(req, charge.key) && charge.cost == FailureCost(prices, f)
    ensures RepairEndOk(req, prices, remaining, Rejected(f), st.charges + [charge])
  {
    AdmitOne(req, st.charges, charge);
    assert (st.charges + [charge])[..turn] == st.charges;
  }

  /** A turn of the repair loop ends well or leaves a good state. */
  ghost predicate TurnOk(req: Request, prices: Pricing, remaining: int, turn: nat, t: Turn) {
    match t
    case End(end, charges) => RepairEndOk(req, prices, remaining, end, charges)
    case Again(next) => RepairsOk(req, remaining, turn + 1, next)
  }

  lemma MeteredRepairFacts(req: Request, prices: Pricing, remaining: int, turn: nat, st: Repairs, usage: Usage,
                           content: string, charge: Charge)
    requires RepairsOk(req, remaining, turn, st) && turn < req.repairAttempts
    requires charge.estimate <= charge.left == remaining - st.cost && KeyInRange(req, charge.key)
    ensures TurnOk(req, prices, remaining, turn, MeterRepair(req, st, usage, content, charge))
  {
    AdmitOne(req, st.charges, charge);
  }

  lemma RepairCallFacts(env: Environment, req: Request, prices: Pricing, attempt: nat, remaining: int, turn: nat,
                        st: Repairs, envelope: nat)
    requires 1 <= attempt <= req.maxProviderAttempts && RepairsOk(req, remaining, turn, st) && turn < req.repairAttempts
    requires envelope <= remaining - st.cost
    ensures TurnOk(req, prices, remaining, turn,
                   RepairCall(env, req, prices, attempt, turn, st, envelope, remaining - st.cost))
  {
    var left := remaining - st.cost;
    var key := RepairKey(RepairNumber(attempt, turn));
    assert RepairOf(req, attempt, turn, key.number);
    var recorded := env.recordedRepair(attempt, turn);
    var outcome := if recorded.Some? then Got(recorded.value) else env.repair(attempt, turn);
    match outcome
    case Lost =>
      AdmitOne(req, st.charges, Charge(key, envelope, left, 0, true));
    case Broke(f) =>
      BrokenRepairFacts(req, prices, remaining, turn, st, Charge(key, envelope, left, FailureCost(prices, f), true), f);
    case Got(result) =>
      var usage := UsageOr(result.usage, env.repairPromptTokens, req.maxOutputTokens);
      MeteredRepairFacts(req, prices, remaining, turn, st, usage, result.content,
                         Charge(key, envelope, left, prices(usage), recorded.None?));
  }

  lemma UnrepairedFacts(req: Request, prices: Pricing, remaining: int, turn: nat, st: Repairs, end: RepairEnd)
    requires RepairsOk(req, remaining, turn, st)
    requires (end.Accepted? ==> end.cost == st.cost) && (end.Rejected? ==> !end.failure.retryable)
    ensures RepairEndOk(req, prices, remaining, end, st.charges)
  {
  }

  /** A turn makes its call exactly when the content is invalid, a repair is left and its
      estimate fits; otherwise it ends without a charge. */
  lemma TurnShape(env: Environment, req: Request, prices: Pricing, attempt: nat, remaining: int, turn: nat, st: Repairs)
    ensures var t := RepairTurn(env, req, prices, attempt, remaining, turn, st);
            var envelope := prices(Usage(env.repairPromptTokens, req.maxOutputTokens, 0, 0));
            if env.validated(st.content).None? && turn < req.repairAttempts && envelope <= remaining - st.cost
            then t == RepairCall(env, req, prices, attempt, turn, st, envelope, remaining - st.cost)
            else t.End? && t.charges == st.charges && !t.end.Abandoned?
                 && (t.end.Accepted? ==> t.end.cost == st.cost) && (t.end.Rejected? ==> !t.end.failure.retryable)
  {
  }

  lemma RepairTurnFacts(env: Environment, req: Request, prices: Pricing, attempt: nat,
                        remaining: int, turn: nat, st: Repairs)
    requires 1 <= attempt <= req.maxProviderAttempts && RepairsOk(req, remaining, turn, st)
    ensures TurnOk(req, prices, remaining, turn, RepairTurn(env, req, prices, attempt, remaining, turn, st))
  {
    var envelope := prices(Usage(env.repairPromptTokens, req.maxOutputTokens, 0, 0));
    TurnShape(env, req, prices, attempt, remaining, turn, st);
    if env.validated(st.content).None? && turn < req.repairAttempts && envelope <= remaining - st.cost {
      RepairCallFacts(env, req, prices, attempt, remaining, turn, st, envelope);
    } else {
      UnrepairedFacts(req, prices, remaining, turn, st,
                      RepairTurn(env, req, prices, attempt, remaining, turn, st).end);
    }
  }

  lemma {:induction false} RepairFromFacts(env: Environment, req: Request, prices: Pricing, attempt: nat,
                                           remaining: int, turn: nat, st: Repairs)
    requires 1 <= attempt <= req.maxProviderAttempts && RepairsOk(req, remaining, turn, st)
    ensures var (end, charges) := RepairFrom(env, req, prices, attempt, remaining, turn, st);
            RepairEndOk(req, prices, remaining, end, charges)
    decreases req.repairAttempts - turn
  {
    RepairTurnFacts(env, req, prices, attempt, remaining, turn, st);
    match RepairTurn(env, req, prices, attempt, remaining, turn, st)
    case End(end, charges) =>
    case Again(next) =>
      RepairFromFacts(env, req, prices, attempt, remaining, turn + 1, next);
  }

  /** Accepted content costs exactly its repairs, within what remained; a retryable rejection
      is charged in full when at most one repair is allowed or nothing remained. */
  lemma RepairFacts(env: Environment, req: Request, prices: Pricing, content: string, attempt: nat, remaining: int)
    requires 1 <= attempt <= req.maxProviderAttempts && remaining >= 0
    ensures var (end, charges) := Repair(env, req, prices, content, attempt, remaining);
            RepairsSettled(req, prices, remaining, end, charges)
  {
    if req.structured {
      RepairFromFacts(env, req, prices, attempt, remaining, 0, Repairs(content, 0, 0, 0, []));
      var (end, charges) := Repair(env, req, prices, content, attempt, remaining);
      if |charges| == 1 {
        assert charges[..0] == [];
      }
    }
  }

  /** A repair failure that moves on to the next candidate forgets earlier metered repairs only
      if two repairs are allowed, repairs may cost something, and there is a next candidate. */
  predicate ForgetsNoRepair(req: Request) {
    CarriesRepairs(req) || req.maxProviderAttempts <= 1
  }

  predicate CarriesRepairs(req: Request) {
    !req.structured || req.repairAttempts <= 1 || req.maxTotalCost == 0
  }

  ghost predicate ChargedInFull(req: Request, spent: nat, end: AttemptEnd, charges: seq<Charge>) {
    && Admitted(req, charges)
    && (end.Stop? && end.ending.Succeeded? ==>
          end.spent <= req.maxTotalCost && end.spent == spent + Metered(charges))
    && (end.Continue? && CarriesRepairs(req) ==>
          end.spent == spent + Metered(charges))
  }

  lemma AttemptFacts(env: Environment, req: Request, c: Candidate, k: nat, spent: nat)
    requires 1 <= k <= req.maxProviderAttempts
    ensures var (end, charges) := Attempt(env, req, c, k, spent);
            ChargedInFull(req, spent, end, charges)
  {
    var left := req.maxTotalCost - spent;
    var recorded := env.recordedPrimary(k);
    var outcome := if recorded.Some? then Got(recorded.value) else env.primary(k);
    if c.estimatedCost > left {
    } else if outcome.Got? {
      JudgeFacts(env, req, c, k, spent, outcome.result, recorded.None?);
    } else if outcome.Broke? {
      MeteredOne(Charge(PrimaryKey(k), c.estimatedCost, left, FailureCost(c.prices, outcome.failure), true));
    }
  }

  /** What a repair loop, started with this much remaining, hands back to its attempt. */
  ghost predicate RepairsSettled(req: Request, prices: Pricing, remaining: int, end: RepairEnd, repairs: seq<Charge>) {
    && Admitted(req, repairs)
    && (end.Accepted? ==> end.cost == Metered(repairs) <= remaining)
    && (end.Rejected? && end.failure.retryable && (!req.structured || req.repairAttempts <= 1 || remaining == 0) ==>
          Metered(repairs) == FailureCost(prices, end.failure))
  }

  lemma AfterRepairFacts(req: Request, prices: Pricing, end: RepairEnd, repairs: seq<Charge>, spent: nat, charge: Charge,
                         lowConfidence: bool)
    requires charge.cost <= req.maxTotalCost - spent
    requires RepairsSettled(req, prices, req.maxTotalCost - spent - charge.cost, end, repairs)
    requires charge.estimate <= charge.left && KeyInRange(req, charge.key)
    ensures ChargedInFull(req, spent, AfterRepair(prices, end, spent + charge.cost, lowConfidence), [charge] + repairs)
  {
    MeteredOne(charge);
    MeteredAppend([charge], repairs);
  }

  lemma StoppedFacts(req: Request, spent: nat, charge: Charge, failure: Failure, prices: Pricing)
    requires charge.estimate <= charge.left && KeyInRange(req, charge.key) && !failure.retryable
    ensures ChargedInFull(req, spent, AfterFailure(prices, failure, spent), [charge])
  {
  }

  lemma JudgeFacts(env: Environment, req: Request, c: Candidate, k: nat, spent: nat,
                   result: ProviderResult, called: bool)
    requires 1 <= k <= req.maxProviderAttempts && c.estimatedCost <= req.maxTotalCost - spent
    ensures var (end, charges) := Judge(env, req, c, k, spent, result, called);
            ChargedInFull(req, spent, end, charges)
  {
    var left := req.maxTotalCost - spent;
    var usage := UsageOr(result.usage, env.promptTokens(k), req.maxOutputTokens);
    var cost := c.prices(usage);
    var charge := Charge(PrimaryKey(k), c.estimatedCost, left, cost, called);
    if usage.outputTokens <= req.maxOutputTokens && cost <= left {
      RepairFacts(env, req, c.prices, result.content, k, left - cost);
      var (end, repairs) := Repair(env, req, c.prices, result.content, k, left - cost);
      AfterRepairFacts(req, c.prices, end, repairs, spent, charge, result.lowConfidence);
      assert Judge(env, req, c, k, spent, result, called) ==
             (AfterRepair(c.prices, end, spent + cost, result.lowConfidence), [charge] + repairs);
    } else {
      StoppedFacts(req, spent, charge, Failure("AI_OUTPUT_LIMIT_EXCEEDED", false, Some(usage)), c.prices);
      StoppedFacts(req, spent, charge, Failure("AI_BUDGET_OVERRUN", false, Some(usage)), c.prices);
    }
  }

  lemma MeteredOne(c: Charge)
    ensures Metered([c]) == c.cost
  {
    assert [c][..0] == [];
  }

  /** What the rest of the loop owes, from `spent` and `charges` on. */
  ghost predicate LoopOk(req: Request, spent: nat, charges: seq<Charge>, e: Execution) {
    && Admitted(req, e.charges)
    && (e.ending.Succeeded? ==> e.spent <= req.maxTotalCost)
    && (e.ending.Succeeded? && ForgetsNoRepair(req) ==>
          e.spent + Metered(charges) == spent + Metered(e.charges))
  }

  lemma LoopStops(req: Request, spent: nat, charges: seq<Charge>, end: AttemptEnd, added: seq<Charge>)
    requires Admitted(req, charges) && ChargedInFull(req, spent, end, added) && end.Stop?
    ensures LoopOk(req, spent, charges, Execution(end.ending, end.spent, charges + added))
  {
    MeteredAppend(charges, added);
  }

  lemma LoopContinues(req: Request, spent: nat, charges: seq<Charge>, end: AttemptEnd, added: seq<Charge>,
                      e: Execution)
    requires ChargedInFull(req, spent, end, added) && end.Continue?
    requires LoopOk(req, end.spent, charges + added, e)
    requires e.ending.Succeeded? ==> req.maxProviderAttempts >= 2
    ensures LoopOk(req, spent, charges, e)
  {
    MeteredAppend(charges, added);
  }

  lemma {:induction false} AttemptsFacts(env: Environment, req: Request, candidates: seq<Candidate>, k: nat,
                                         spent: nat, last: Option<Failure>, charges: seq<Charge>)
    requires k >= 1 && Admitted(req, charges)
    ensures var e := AttemptsFrom(env, req, candidates, k, spent, last, charges);
            LoopOk(req, spent, charges, e) && (e.ending.Succeeded? ==> k <= req.maxProviderAttempts)
    decreases LastAttempt(req, candidates) + 1 - k
  {
    if k <= LastAttempt(req, candidates) {
      AttemptFacts(env, req, candidates[k - 1], k, spent);
      var (end, added) := Attempt(env, req, candidates[k - 1], k, spent);
      match end
      case Stop(ending, total) =>
        LoopStops(req, spent, charges, end, added);
      case Continue(total, failure) =>
        AttemptsFacts(env, req, candidates, k + 1, total, Some(failure), charges + added);
        LoopContinues(req, spent, charges, end, added,
                      AttemptsFrom(env, req, candidates, k + 1, total, Some(failure), charges + added));
    }
  }

  // ----- main results -----

  /** Whatever spend and failure were recovered, every provider or repair call was admitted with
      an estimate within the budget then left, under one of the request's effect keys, and a
      success reports a total spend within the limit. */
  lemma SuccessWithinLimit(env: Environment, req: Request, candidates: seq<Candidate>, next: nat,
                           recovered: nat, last: Option<Failure>)
    requires next >= 1
    ensures var e := AttemptsFrom(env, req, candidates, next, recovered, last, []);
            && (forall c :: c in e.charges ==> c.estimate <= c.left && KeyInRange(req, c.key))
            && (e.ending.Succeeded? ==> e.spent <= req.maxTotalCost)
  {
    AttemptsFacts(env, req, candidates, next, recovered, last, []);
  }

  /** The metered cost of all calls of a successful execution is the reported one, hence within
      the limit, whenever the request allows one repair, one attempt, plain text only, or no
      cost at all. */
  lemma MeteredWithinLimit(env: Environment, req: Request, candidates: seq<Candidate>, next: nat,
                           recovered: nat, last: Option<Failure>)
    requires next >= 1 && ForgetsNoRepair(req)
    ensures var e := AttemptsFrom(env, req, candidates, next, recovered, last, []);
            e.ending.Succeeded? ==>
              e.spent == recovered + Metered(e.charges) && recovered + Metered(e.charges) <= req.maxTotalCost
  {
    AttemptsFacts(env, req, candidates, next, recovered, last, []);
  }

  /** A worst case for a given limit: the first candidate's second repair fails retryably after
      a first repair that cost the whole limit; the second candidate costs the limit again. */
  function Forgetful(limit: nat): Environment {
    Environment(
      _ => 0, _ => false, _ => None, _ => None,
      k => if k == 1 then Got(ProviderResult("bad", Some(Usage(0, 0, 0, 0)), false))
           else Got(ProviderResult("good", Some(Usage(0, 0, 0, limit)), false)),
      (_, _) => None,
      (_, r) => if r == 0 then Got(ProviderResult("bad", Some(Usage(0, 0, 0, limit)), false))
                else Broke(RATE_LIMITED),
      s => if s == "good" then Some("good") else None,
      _ => 0, 1)
  }

  const RATE_LIMITED := Failure("AI_PROVIDER_RATE_LIMITED", true, None)

  const REASONING_ONLY: Pricing := u => Cost(Prices(0, 0, None, Some(1)), u)

  lemma ReasoningCost(u: Usage)
    ensures REASONING_ONLY(u) == u.reasoningTokens
  {
  }

  lemma ForgetfulRepairs(req: Request)
    requires req.structured && req.repairAttempts >= 2
    ensures var limit := req.maxTotalCost;
            Repair(Forgetful(limit), req, REASONING_ONLY, "bad", 1, limit) ==
              (Rejected(RATE_LIMITED), [Charge(RepairKey(101), 0, limit, limit, true),
                                       Charge(RepairKey(102), 0, 0, 0, true)])
  {
    var limit := req.maxTotalCost;
    var env := Forgetful(limit);
    var first := Charge(RepairKey(101), 0, limit, limit, true);
    var st1 := Repairs("bad", 0, 0, limit, [first]);
    ReasoningCost(Usage(0, 0, 0, limit));
    ReasoningCost(Usage(1, req.maxOutputTokens, 0, 0));
    assert RepairTurn(env, req, REASONING_ONLY, 1, limit, 0, Repairs("bad", 0, 0, 0, [])) == Again(st1);
    assert RepairTurn(env, req, REASONING_ONLY, 1, limit, 1, st1) ==
           End(Rejected(RATE_LIMITED), [first, Charge(RepairKey(102), 0, 0, 0, true)]);
    assert RepairFrom(env, req, REASONING_ONLY, 1, limit, 1, st1) ==
           (Rejected(RATE_LIMITED), [first, Charge(RepairKey(102), 0, 0, 0, true)]);
  }

  lemma ForgetfulAttempts(req: Request)
    requires req.structured && req.repairAttempts >= 2
    ensures var limit := req.maxTotalCost;
            var c := Candidate("model", REASONING_ONLY, 0);
            && Attempt(Forgetful(limit), req, c, 1, 0) ==
                 (Continue(0, RATE_LIMITED), [Charge(PrimaryKey(1), 0, limit, 0, true),
                                             Charge(RepairKey(101), 0, limit, limit, true),
                                             Charge(RepairKey(102), 0, 0, 0, true)])
            && Attempt(Forgetful(limit), req, c, 2, 0) ==
                 (Stop(Succeeded("good", false), limit), [Charge(PrimaryKey(2), 0, limit, limit, true)])
  {
    var limit := req.maxTotalCost;
    var env := Forgetful(limit);
    ForgetfulRepairs(req);
    ReasoningCost(Usage(0, 0, 0, 0));
    ReasoningCost(Usage(0, 0, 0, limit));
    var primary := Charge(PrimaryKey(1), 0, limit, 0, true);
    var first := Charge(RepairKey(101), 0, limit, limit, true);
    var second := Charge(RepairKey(102), 0, 0, 0, true);
    assert [primary] + [first, second] == [primary, first, second];
    assert Repair(env, req, REASONING_ONLY, "good", 2, 0) == (Accepted("good", 0), []);
    var last := Charge(PrimaryKey(2), 0, limit, limit, true);
    assert [last] + [] == [last];
  }

  /** Under every other request there is an execution that succeeds,
      reports a spend within the limit, and whose calls were metered above it. */
  lemma MeteredMayExceedLimit(req: Request) returns (env: Environment, candidates: seq<Candidate>)
    requires !ForgetsNoRepair(req)
    ensures var e := AttemptsFrom(env, req, candidates, 1, 0, None, []);
            && e.ending.Succeeded? && e.spent <= req.maxTotalCost
            && Metered(e.charges) > req.maxTotalCost
  {
    var limit := req.maxTotalCost;
    env := Forgetful(limit);
    var c := Candidate("model", REASONING_ONLY, 0);
    candidates := [c, c];
    ForgetfulAttempts(req);
    var primary := Charge(PrimaryKey(1), 0, limit, 0, true);
    var first := Charge(RepairKey(101), 0, limit, limit, true);
    var used := [primary, first, Charge(RepairKey(102), 0, 0, 0, true)];
    var last := Charge(PrimaryKey(2), 0, limit, limit, true);
    assert [] + used == used;
    assert AttemptsFrom(env, req, candidates, 2, 0, Some(RATE_LIMITED), used) ==
           Execution(Succeeded("good", false), limit, used + [last]);
    MeteredAppend(used, [last]);
    MeteredOne(last);
    assert used[..2] == [primary, first];
    assert [primary, first][..1] == [primary];
    MeteredOne(primary);
  }
}
