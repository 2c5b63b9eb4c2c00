/** The values a provider call exchanges with the Gateway. */
module Provider {
  import opened Options

  datatype Usage = Usage(inputTokens: nat, outputTokens: nat, cachedTokens: nat, reasoningTokens: nat)

  datatype ProviderResult = ProviderResult(content: string, usage: Option<Usage>, lowConfidence: bool)

  datatype Failure = Failure(code: string, retryable: bool, usage: Option<Usage>)

  /** Per-token prices in a small money unit; a missing rate falls back (`rate or default`). */
  datatype Prices = Prices(input: nat, output: nat, cachedInput: Option<nat>, reasoning: Option<nat>)

  function RateOr(rate: Option<nat>, default: nat): nat {
    if rate.Some? && rate.value != 0 then rate.value else default
  }

  /** `ModelCatalogEntry.estimate_cost`; token counts are naturals, so `max(0, cached)` is `cached`. */
  function Cost(p: Prices, u: Usage): nat {
    var cached := if u.inputTokens < u.cachedTokens then u.inputTokens else u.cachedTokens;
    (u.inputTokens - cached) * p.input
    + cached * RateOr(p.cachedInput, p.input)
    + u.outputTokens * p.output
    + u.reasoningTokens * RateOr(p.reasoning, p.output)
  }

  /** Cost by increments, from nothing: an uncached input token costs the input rate; turning it
      into a cached one changes its rate to the cached rate, and cached tokens beyond the input
      are ignored; an output token costs the output rate and a reasoning token its own.  A rate
      that is missing or zero falls back to the input or output rate. */
  lemma CostIncrements(p: Prices, u: Usage)
    ensures Cost(p, Usage(0, 0, 0, 0)) == 0
    ensures u.cachedTokens <= u.inputTokens ==> Cost(p, u.(inputTokens := u.inputTokens + 1)) == Cost(p, u) + p.input
    ensures Cost(p, u.(cachedTokens := u.cachedTokens + 1)) ==
            if u.cachedTokens < u.inputTokens
            then Cost(p, u) - p.input + (if p.cachedInput.Some? && p.cachedInput.value > 0 then p.cachedInput.value else p.input)
            else Cost(p, u)
    ensures Cost(p, u.(outputTokens := u.outputTokens + 1)) == Cost(p, u) + p.output
    ensures Cost(p, u.(reasoningTokens := u.reasoningTokens + 1)) ==
            Cost(p, u) + if p.reasoning.Some? && p.reasoning.value > 0 then p.reasoning.value else p.output
  {
    OneMore(u.inputTokens, p.input);
    OneMore(u.outputTokens, p.output);
    OneMore(u.reasoningTokens, RateOr(p.reasoning, p.output));
    OneMore(u.cachedTokens, RateOr(p.cachedInput, p.input));
    if u.cachedTokens <= u.inputTokens {
      OneMore(u.inputTokens - u.cachedTokens, p.input);
      if u.cachedTokens < u.inputTokens {
        OneMore(u.inputTokens - u.cachedTokens - 1, p.input);
      }
    }
  }

  lemma OneMore(n: nat, rate: nat)
    ensures (n + 1) * rate == n * rate + rate
  {
  }
}
