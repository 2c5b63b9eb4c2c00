/** What the attempt loop answers with: which text is accepted, by which validation, from which
    provider result, and which results move on to the next candidate. */
module AttemptContent {
  import opened Options
  import opened Provider
  import opened AttemptLoop

  /** The reported usage, or the worst case when none is reported: the whole prompt and as much
      output as allowed. */
  function Assumed(usage: Option<Usage>, promptTokens: nat, outputLimit: nat): Usage {
    match usage
    case Some(reported) => reported
    case None => Usage(promptTokens, outputLimit, 0, 0)
  }

  // ----- the texts of one attempt -----

  /** What repair i of the attempt gives, replayed or called. */
  function RepairResult(env: Environment, attempt: nat, i: nat): Option<ProviderResult> {
    if env.recordedRepair(attempt, i).Some? then env.recordedRepair(attempt, i)
    else if env.repair(attempt, i).Got? then Some(env.repair(attempt, i).result) else None
  }

  /** The provider's own text first, then what each repair gives. */
  function Text(env: Environment, attempt: nat, content: string, i: nat): Option<string> {
    if i == 0 then Some(content)
    else if RepairResult(env, attempt, i - 1).Some? then Some(RepairResult(env, attempt, i - 1).value.content) else None
  }

  predicate Invalid(env: Environment, attempt: nat, content: string, i: nat) {
    Text(env, attempt, content, i).Some? && env.validated(Text(env, attempt, content, i).value).None?
  }

  function RepairUsage(env: Environment, req: Request, attempt: nat, i: nat): Usage {
    if RepairResult(env, attempt, i).Some?
    then Assumed(RepairResult(env, attempt, i).value.usage, env.repairPromptTokens, req.maxOutputTokens)
    else Usage(0, 0, 0, 0)
  }

  /** The cost of the first n repairs. */
  function RepairSpend(env: Environment, req: Request, prices: Pricing, attempt: nat, n: nat): nat {
    if n == 0 then 0
    else RepairSpend(env, req, prices, attempt, n - 1) + prices(RepairUsage(env, req, attempt, n - 1))
  }

  /** The input and output tokens of the first n repairs. */
  function RepairTokens(env: Environment, req: Request, attempt: nat, n: nat): (nat, nat) {
    if n == 0 then (0, 0)
    else
      var (input, output) := RepairTokens(env, req, attempt, n - 1);
      var usage := RepairUsage(env, req, attempt, n - 1);
      (input + usage.inputTokens, output + usage.outputTokens)
  }

  /** Repair i fits what the repairs before it left, before and after the call, and comes back
      within the output limit. */
  predicate Passes(env: Environment, req: Request, prices: Pricing, attempt: nat, remaining: int, i: nat) {
    var left := remaining - RepairSpend(env, req, prices, attempt, i);
    && RepairResult(env, attempt, i).Some?
    && prices(Usage(env.repairPromptTokens, req.maxOutputTokens, 0, 0)) <= left
    && RepairUsage(env, req, attempt, i).outputTokens <= req.maxOutputTokens
    && prices(RepairUsage(env, req, attempt, i)) <= left
  }

  /** The first n texts are invalid and the first n repairs pass. */
  ghost predicate Reaches(env: Environment, req: Request, prices: Pricing, content: string, attempt: nat, remaining: int,
                          n: nat) {
    n <= req.repairAttempts
    && forall i :: 0 <= i < n ==> Invalid(env, attempt, content, i) && Passes(env, req, prices, attempt, remaining, i)
  }

  // ----- which text is accepted -----

  /** The loop stands before turn n with text n in hand. */
  ghost predicate StandsAt(env: Environment, req: Request, prices: Pricing, content: string, attempt: nat, n: nat,
                           st: Repairs) {
    && Text(env, attempt, content, n) == Some(st.content)
    && st.cost == RepairSpend(env, req, prices, attempt, n) && |st.charges| == n
    && st.input == RepairTokens(env, req, attempt, n).0 && st.output == RepairTokens(env, req, attempt, n).1
  }

  /** A turn leads to the next exactly when its text is invalid, a repair is left and it passes. */
  lemma TurnGoesOnIff(env: Environment, req: Request, prices: Pricing, content: string, attempt: nat, remaining: int,
                      n: nat, st: Repairs)
    requires StandsAt(env, req, prices, content, attempt, n, st)
    ensures var t := RepairTurn(env, req, prices, attempt, remaining, n, st);
            && (t.Again? <==> n < req.repairAttempts && Invalid(env, attempt, content, n)
                              && Passes(env, req, prices, attempt, remaining, n))
            && (t.Again? ==> StandsAt(env, req, prices, content, attempt, n + 1, t.next))
  {
  }

  lemma {:induction false} Arrives(env: Environment, req: Request, prices: Pricing, content: string, attempt: nat,
                                   remaining: int, n: nat) returns (st: Repairs)
    requires Reaches(env, req, prices, content, attempt, remaining, n)
    ensures StandsAt(env, req, prices, content, attempt, n, st)
    ensures RepairFrom(env, req, prices, attempt, remaining, 0, Repairs(content, 0, 0, 0, [])) ==
            RepairFrom(env, req, prices, attempt, remaining, n, st)
  {
    if n == 0 {
      st := Repairs(content, 0, 0, 0, []);
    } else {
      var before := Arrives(env, req, prices, content, attempt, remaining, n - 1);
      TurnGoesOnIff(env, req, prices, content, attempt, remaining, n - 1, before);
      assert Invalid(env, attempt, content, n - 1) && Passes(env, req, prices, attempt, remaining, n - 1);
      st := RepairTurn(env, req, prices, attempt, remaining, n - 1, before).next;
    }
  }

  /** Text n is the first one that validates, to `out`, which fits the output limit. */
  ghost predicate Accepts(env: Environment, req: Request, prices: Pricing, content: string, attempt: nat, remaining: int,
                          n: nat, out: string) {
    && Reaches(env, req, prices, content, attempt, remaining, n)
    && Text(env, attempt, content, n).Some? && env.validated(Text(env, attempt, content, n).value) == Some(out)
    && env.estimate(out) <= req.maxOutputTokens
  }

  lemma TurnAccepts(env: Environment, req: Request, prices: Pricing, attempt: nat, remaining: int, n: nat, st: Repairs)
    ensures var t := RepairTurn(env, req, prices, attempt, remaining, n, st);
            t.End? && t.end.Accepted? <==>
              env.validated(st.content).Some? && env.estimate(env.validated(st.content).value) <= req.maxOutputTokens
    ensures var t := RepairTurn(env, req, prices, attempt, remaining, n, st);
            t.End? && t.end.Accepted? ==>
              t.end == Accepted(env.validated(st.content).value, st.cost) && t.charges == st.charges
  {
  }

  lemma {:induction false} AcceptedFrom(env: Environment, req: Request, prices: Pricing, content: string, attempt: nat,
                                        remaining: int, k: nat, st: Repairs) returns (n: nat)
    requires Reaches(env, req, prices, content, attempt, remaining, k) && StandsAt(env, req, prices, content, attempt, k, st)
    requires RepairFrom(env, req, prices, attempt, remaining, k, st).0.Accepted?
    ensures var (end, charges) := RepairFrom(env, req, prices, attempt, remaining, k, st);
            && Accepts(env, req, prices, content, attempt, remaining, n, end.content)
            && end.cost == RepairSpend(env, req, prices, attempt, n) && |charges| == n
    decreases req.repairAttempts - k
  {
    TurnGoesOnIff(env, req, prices, content, attempt, remaining, k, st);
    TurnAccepts(env, req, prices, attempt, remaining, k, st);
    var t := RepairTurn(env, req, prices, attempt, remaining, k, st);
    if t.Again? {
      n := AcceptedFrom(env, req, prices, content, attempt, remaining, k + 1, t.next);
    } else {
      n := k;
    }
  }

  /** A structured answer is accepted exactly when some text of the attempt validates to it within
      the output limit, every text before it is invalid and every repair before it passes; it is
      then charged those repairs and nothing else. */
  lemma AcceptedIff(env: Environment, req: Request, prices: Pricing, content: string, attempt: nat, remaining: int,
                    out: string, cost: nat)
    requires req.structured
    ensures Repair(env, req, prices, content, attempt, remaining).0 == Accepted(out, cost) <==>
              exists n :: Accepts(env, req, prices, content, attempt, remaining, n, out)
                          && cost == RepairSpend(env, req, prices, attempt, n)
  {
    if Repair(env, req, prices, content, attempt, remaining).0 == Accepted(out, cost) {
      var n := AcceptedFrom(env, req, prices, content, attempt, remaining, 0, Repairs(content, 0, 0, 0, []));
    }
    if n :| Accepts(env, req, prices, content, attempt, remaining, n, out)
            && cost == RepairSpend(env, req, prices, attempt, n) {
      var st := Arrives(env, req, prices, content, attempt, remaining, n);
      TurnAccepts(env, req, prices, attempt, remaining, n, st);
    }
  }

  /** When every text is invalid and every repair passes, the answer is refused as invalid and
      reports the tokens of all repairs; when the first valid text is too long, as too long. */
  lemma InvalidIsRefused(env: Environment, req: Request, prices: Pricing, content: string, attempt: nat, remaining: int,
                         n: nat)
    requires req.structured && Reaches(env, req, prices, content, attempt, remaining, n)
    ensures n == req.repairAttempts && Invalid(env, attempt, content, n) ==>
              var end := Repair(env, req, prices, content, attempt, remaining).0;
              var (input, output) := RepairTokens(env, req, attempt, n);
              end == Rejected(Failure("AI_INVALID_RESPONSE", false,
                                      if input + output > 0 then Some(Usage(input, output, 0, 0)) else None))
    ensures forall t :: Text(env, attempt, content, n) == Some(t) && env.validated(t).Some?
                        && env.estimate(env.validated(t).value) > req.maxOutputTokens ==>
              var end := Repair(env, req, prices, content, attempt, remaining).0;
              end.Rejected? && end.failure.code == "AI_OUTPUT_LIMIT_EXCEEDED" && !end.failure.retryable
  {
    var st := Arrives(env, req, prices, content, attempt, remaining, n);
  }

  /** Plain text is accepted as it is exactly when it fits. */
  lemma PlainAcceptedIff(env: Environment, req: Request, prices: Pricing, content: string, attempt: nat, remaining: int)
    requires !req.structured
    ensures var (end, charges) := Repair(env, req, prices, content, attempt, remaining);
            && charges == [] && (end.Accepted? <==> env.estimate(content) <= req.maxOutputTokens)
            && (end.Accepted? ==> end == Accepted(content, 0))
            && (!end.Accepted? ==> end == Rejected(Failure("AI_OUTPUT_LIMIT_EXCEEDED", false, None)))
  {
  }

  // ----- from the repair loop to the answer -----

  /** What the primary call of an attempt gives, replayed or called. */
  function PrimaryResult(env: Environment, k: nat): Option<ProviderResult> {
    if env.recordedPrimary(k).Some? then env.recordedPrimary(k)
    else if env.primary(k).Got? then Some(env.primary(k).result) else None
  }

  /** The answer is a text of attempt k: the first of its texts that validates, or for plain text
      the provider's own, within the output limit. */
  ghost predicate Answers(env: Environment, req: Request, k: nat, raw: string, out: string) {
    && env.estimate(out) <= req.maxOutputTokens
    && if req.structured then exists n :: FirstValid(env, req, k, raw, out, n) else out == raw
  }

  ghost predicate FirstValid(env: Environment, req: Request, k: nat, raw: string, out: string, n: nat) {
    && n <= req.repairAttempts && (forall i :: 0 <= i < n ==> Invalid(env, k, raw, i))
    && Text(env, k, raw, n).Some? && env.validated(Text(env, k, raw, n).value) == Some(out)
  }

  lemma AcceptedAnswers(env: Environment, req: Request, prices: Pricing, raw: string, k: nat, remaining: int)
    requires Repair(env, req, prices, raw, k, remaining).0.Accepted?
    ensures Answers(env, req, k, raw, Repair(env, req, prices, raw, k, remaining).0.content)
  {
    var end := Repair(env, req, prices, raw, k, remaining).0;
    if req.structured {
      AcceptedIff(env, req, prices, raw, k, remaining, end.content, end.cost);
      var n :| Accepts(env, req, prices, raw, k, remaining, n, end.content)
               && end.cost == RepairSpend(env, req, prices, k, n);
      assert FirstValid(env, req, k, raw, end.content, n);
    }
  }

  /** Where a success comes from: the cache at attempt k, or a confident result of its provider. */
  ghost predicate Source(env: Environment, req: Request, k: nat, out: string, cacheHit: bool) {
    if cacheHit then env.cached(k) == Some(out)
    else
      && env.cached(k).None? && PrimaryResult(env, k).Some? && !PrimaryResult(env, k).value.lowConfidence
      && Answers(env, req, k, PrimaryResult(env, k).value.content, out)
  }

  lemma AttemptSource(env: Environment, req: Request, c: Candidate, k: nat, spent: nat)
    ensures var end := Attempt(env, req, c, k, spent).0;
            end.Stop? && end.ending.Succeeded? ==> Source(env, req, k, end.ending.content, end.ending.cacheHit)
  {
    var result := PrimaryResult(env, k);
    if result.Some? {
      var cost := c.prices(Assumed(result.value.usage, env.promptTokens(k), req.maxOutputTokens));
      var remaining := req.maxTotalCost - spent - cost;
      if Repair(env, req, c.prices, result.value.content, k, remaining).0.Accepted? {
        AcceptedAnswers(env, req, c.prices, result.value.content, k, remaining);
      }
    }
  }

  /** Every success answers with cached content or with a text of one of the attempts made that is
      confident, validated where the request is structured, and within the output limit. */
  lemma {:induction false} SuccessIsValidated(env: Environment, req: Request, candidates: seq<Candidate>, k: nat,
                                              spent: nat, last: Option<Failure>, charges: seq<Charge>) returns (at: nat)
    requires k >= 1 && AttemptsFrom(env, req, candidates, k, spent, last, charges).ending.Succeeded?
    ensures var ending := AttemptsFrom(env, req, candidates, k, spent, last, charges).ending;
            k <= at <= LastAttempt(req, candidates) && Source(env, req, at, ending.content, ending.cacheHit)
    decreases LastAttempt(req, candidates) + 1 - k
  {
    var (end, added) := Attempt(env, req, candidates[k - 1], k, spent);
    NextAttempt(env, req, candidates, k, spent, last, charges, end, added);
    AttemptSource(env, req, candidates[k - 1], k, spent);
    if end.Stop? {
      at := k;
    } else {
      at := SuccessIsValidated(env, req, candidates, k + 1, end.spent, Some(end.failure), charges + added);
    }
  }

  // ----- what an attempt decides -----

  /** A provider is asked exactly when the estimate fits, the deadline has not passed and nothing
      is cached; otherwise the loop stops there, in that order, at no cost. */
  lemma ProviderIsAskedIff(env: Environment, req: Request, c: Candidate, k: nat, spent: nat)
    ensures var (end, charges) := Attempt(env, req, c, k, spent);
            var fits := spent + c.estimatedCost <= req.maxTotalCost;
            && (charges != [] <==> fits && !env.deadlinePassed(k) && env.cached(k).None?)
            && (charges != [] ==> charges[0].key == PrimaryKey(k) && charges[0].called == env.recordedPrimary(k).None?)
            && (charges == [] ==>
                  && end.Stop? && end.spent == spent
                  && (!fits <==> end.ending == FailedWith(Failure("AI_FALLBACK_BUDGET_EXHAUSTED", false, None)))
                  && (fits && env.deadlinePassed(k) <==> end.ending == FailedWith(Failure("AI_PROVIDER_TIMEOUT", false, None)))
                  && (fits && !env.deadlinePassed(k) <==> end.ending.Succeeded?))
  {
  }

  /** The attempt gets as far as a result that passes its own limits. */
  ghost predicate Obtains(env: Environment, req: Request, c: Candidate, k: nat, spent: nat, result: ProviderResult,
                          cost: nat) {
    var usage := Assumed(result.usage, env.promptTokens(k), req.maxOutputTokens);
    && spent + c.estimatedCost <= req.maxTotalCost && !env.deadlinePassed(k) && env.cached(k).None?
    && PrimaryResult(env, k) == Some(result) && cost == c.prices(usage)
    && usage.outputTokens <= req.maxOutputTokens && spent + cost <= req.maxTotalCost
  }

  /** An accepted text ends the loop as a success at its full cost if the provider was confident,
      and otherwise moves on to the next candidate as a low-confidence failure, at the same cost. */
  lemma ConfidenceDecides(env: Environment, req: Request, c: Candidate, k: nat, spent: nat, result: ProviderResult,
                          cost: nat, out: string, repairs: nat)
    requires Obtains(env, req, c, k, spent, result, cost)
    requires Repair(env, req, c.prices, result.content, k, req.maxTotalCost - spent - cost).0 == Accepted(out, repairs)
    ensures Attempt(env, req, c, k, spent).0 ==
            if result.lowConfidence then Continue(spent + cost + repairs, Failure("AI_LOW_CONFIDENCE", true, None))
            else Stop(Succeeded(out, false), spent + cost + repairs)
  {
    assert req.maxTotalCost - spent - cost == (req.maxTotalCost - spent) - cost;
  }

  /** A call that never comes back interrupts the loop where it stands: the primary one before
      anything is added, a repair after its primary call was charged. */
  lemma LostCallInterrupts(env: Environment, req: Request, c: Candidate, k: nat, spent: nat)
    requires spent + c.estimatedCost <= req.maxTotalCost && !env.deadlinePassed(k) && env.cached(k).None?
    ensures env.recordedPrimary(k).None? && env.primary(k).Lost? ==>
              Attempt(env, req, c, k, spent).0 == Stop(Interrupted, spent)
    ensures forall result, cost ::
              Obtains(env, req, c, k, spent, result, cost)
              && Repair(env, req, c.prices, result.content, k, req.maxTotalCost - spent - cost).0.Abandoned? ==>
                Attempt(env, req, c, k, spent).0 == Stop(Interrupted, spent + cost)
  {
    forall result, cost | Obtains(env, req, c, k, spent, result, cost)
                          && Repair(env, req, c.prices, result.content, k, req.maxTotalCost - spent - cost).0.Abandoned?
      ensures Attempt(env, req, c, k, spent).0 == Stop(Interrupted, spent + cost)
    {
      assert req.maxTotalCost - spent - cost == (req.maxTotalCost - spent) - cost;
    }
  }

  /** A repair that never comes back abandons the repair loop, one that fails rejects with its own
      failure, and one that does not fit is not made. */
  lemma RepairFailureDecides(env: Environment, req: Request, prices: Pricing, content: string, attempt: nat, remaining: int,
                             n: nat)
    requires req.structured && Reaches(env, req, prices, content, attempt, remaining, n)
    requires n < req.repairAttempts && Invalid(env, attempt, content, n)
    ensures var left := remaining - RepairSpend(env, req, prices, attempt, n);
            var (end, charges) := Repair(env, req, prices, content, attempt, remaining);
            if prices(Usage(env.repairPromptTokens, req.maxOutputTokens, 0, 0)) > left then
              end == Rejected(Failure("AI_REPAIR_BUDGET_EXHAUSTED", false, None)) && |charges| == n
            else if env.recordedRepair(attempt, n).None? && env.repair(attempt, n).Lost? then end == Abandoned && |charges| == n + 1
            else if env.recordedRepair(attempt, n).None? && env.repair(attempt, n).Broke? then
              end == Rejected(env.repair(attempt, n).failure) && |charges| == n + 1
            else
              var usage := RepairUsage(env, req, attempt, n);
              && (usage.outputTokens > req.maxOutputTokens ==>
                    end == Rejected(Failure("AI_OUTPUT_LIMIT_EXCEEDED", false, Some(usage))) && |charges| == n + 1)
              && (usage.outputTokens <= req.maxOutputTokens && prices(usage) > left ==>
                    end == Rejected(Failure("AI_REPAIR_BUDGET_EXHAUSTED", false, Some(usage))) && |charges| == n + 1)
  {
    var st := Arrives(env, req, prices, content, attempt, remaining, n);
  }

  /** A provider failure is charged its reported usage, and tries the next candidate exactly when
      it is retryable. */
  lemma FailureDecides(env: Environment, req: Request, c: Candidate, k: nat, spent: nat, f: Failure)
    requires spent + c.estimatedCost <= req.maxTotalCost && !env.deadlinePassed(k) && env.cached(k).None?
    requires env.recordedPrimary(k).None? && env.primary(k) == Broke(f)
    ensures var end := Attempt(env, req, c, k, spent).0;
            && end.spent == spent + (if f.usage.Some? then c.prices(f.usage.value) else 0)
            && (f.retryable ==> end.Continue? && end.failure == f)
            && (!f.retryable ==> end.Stop? && end.ending == FailedWith(f))
  {
  }

  /** A result over its output limit or over the budget left ends the loop with that failure,
      charged in full. */
  lemma OverrunEnds(env: Environment, req: Request, c: Candidate, k: nat, spent: nat, result: ProviderResult)
    requires spent + c.estimatedCost <= req.maxTotalCost && !env.deadlinePassed(k) && env.cached(k).None?
    requires PrimaryResult(env, k) == Some(result)
    ensures var usage := Assumed(result.usage, env.promptTokens(k), req.maxOutputTokens);
            var long, dear := usage.outputTokens > req.maxOutputTokens, spent + c.prices(usage) > req.maxTotalCost;
            long || dear ==>
              var end := Attempt(env, req, c, k, spent).0;
              && end.Stop? && end.spent == spent + c.prices(usage)
              && end.ending == FailedWith(Failure(if long then "AI_OUTPUT_LIMIT_EXCEEDED" else "AI_BUDGET_OVERRUN",
                                                  false, Some(usage)))
  {
  }

  /** The loop tries every candidate up to the number the request allows, in order, and goes on
      exactly when an attempt does; when none is left it reports the last failure. */
  lemma CandidatesInOrder(env: Environment, req: Request, candidates: seq<Candidate>, k: nat, spent: nat,
                          last: Option<Failure>, charges: seq<Charge>)
    requires k >= 1
    ensures var e := AttemptsFrom(env, req, candidates, k, spent, last, charges);
            if k <= |candidates| && k <= req.maxProviderAttempts then
              var (end, added) := Attempt(env, req, candidates[k - 1], k, spent);
              match end
              case Stop(ending, total) => e.ending == ending && e.spent == total && e.charges == charges + added
              case Continue(total, failure) =>
                e == AttemptsFrom(env, req, candidates, k + 1, total, Some(failure), charges + added)
            else
              && e.spent == spent && e.charges == charges
              && e.ending == FailedWith(if last.Some? then last.value else Failure("AI_GATEWAY_FAILURE", false, None))
  {
  }
}
