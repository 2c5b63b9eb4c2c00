/** Usage accounting of one streamed invocation: the event ledger that both Gateway stores
    keep, the two terminal reconciliations, and when the ledger total is the cost of the
    latest provider report. */
module UsageLedger {
  import opened Options
  import opened Provider
  import opened Totals
  import opened Keys
  import Amounts

  /** Ledger entries by event key, and the budget's actual amount. */
  datatype Ledger = Ledger(events: map<string, nat>, actual: Option<nat>)

  const EMPTY := Ledger(map[], None)

  const TERMINAL := "terminal-reconciliation"

  function Excess(amount: nat, base: nat): nat {
    if amount > base then amount - base else 0
  }

  /** `record_usage`: a partial report contributes what it adds to the ledger so far; an event
      key already present is kept. */
  ghost function Record(l: Ledger, key: string, cost: nat, partial: bool): Ledger {
    var added := if partial then Excess(cost, Total(l.events)) else cost;
    var events := if key in l.events then l.events else l.events[key := added];
    Ledger(events, Some(Total(events)))
  }

  /** The in-memory `reconcile` overwrites the actual and leaves the ledger alone. */
  function ReconcileInMemory(l: Ledger, actual: nat): Ledger {
    l.(actual := Some(actual))
  }

  /** The durable `reconcile` appends the difference under the terminal key. */
  ghost function ReconcileDurable(l: Ledger, actual: nat): Ledger {
    var already := if l.actual.Some? then l.actual.value else 0;
    Record(l, TERMINAL, Excess(actual, already), false)
  }

  datatype Report = Report(input: nat, output: nat, cost: nat)

  function StreamKey(input: nat, output: nat): string {
    "stream:1:" + Amounts.Decimal(input) + ":" + Amounts.Decimal(output)
  }

  predicate Decreases(earlier: Report, later: Report) {
    later.input < earlier.input || later.output < earlier.output
  }

  class UsageStore {
    var events: map<string, nat>
    var actual: Option<nat>

    ghost function View(): Ledger
      reads this
    {
      Ledger(events, actual)
    }

    constructor ()
      ensures View() == EMPTY
    {
      events, actual := map[], None;
    }

    method Sum() returns (total: nat)
      ensures total == Total(events)
    {
      var todo := events.Keys;
      total := 0;
      ghost var seen: map<string, nat> := map[];
      while todo != {}
        invariant todo <= events.Keys
        invariant seen == map k | k in events && k !in todo :: events[k]
        invariant total == Total(seen)
        decreases todo
      {
        var k :| k in todo;
        todo := todo - {k};
        TotalUpdate(seen, k, events[k]);
        seen := seen[k := events[k]];
        total := total + events[k];
      }
      assert seen == events;
    }

    method RecordUsage(key: string, cost: nat, partial: bool)
      modifies this
      ensures View() == Record(old(View()), key, cost, partial)
    {
      var added := cost;
      if partial {
        var sofar := Sum();
        added := Excess(cost, sofar);
      }
      if key !in events {
        events := events[key := added];
      }
      var cumulative := Sum();
      actual := Some(cumulative);
    }

    method Reconcile(final: nat)
      modifies this
      ensures View() == ReconcileDurable(old(View()), final)
    {
      var already := if actual.Some? then actual.value else 0;
      RecordUsage(TERMINAL, Excess(final, already), false);
    }

    /** The usage branch of `stream`: record each report, stop at the first one that goes back. */
    method Consume(reports: seq<Report>) returns (n: nat)
      requires View() == EMPTY
      modifies this
      ensures n <= |reports| && Monotone(reports[..n])
      ensures n < |reports| ==> n > 0 && Decreases(reports[n - 1], reports[n])
      ensures View() == Recorded(reports[..n])
    {
      n := 0;
      while n < |reports|
        invariant n <= |reports| && Monotone(reports[..n])
        invariant View() == Recorded(reports[..n])
      {
        var r := reports[n];
        if n > 0 && Decreases(reports[n - 1], r) {
          return;
        }
        RecordUsage(StreamKey(r.input, r.output), r.cost, true);
        NextReport(reports, n);
        n := n + 1;
      }
    }
  }

  ghost predicate Monotone(reports: seq<Report>) {
    forall i, j :: 0 <= i < j < |reports| ==> !Decreases(reports[i], reports[j])
  }

  ghost function Recorded(reports: seq<Report>): Ledger {
    if reports == [] then EMPTY
    else
      var r := reports[|reports| - 1];
      Record(Recorded(reports[..|reports| - 1]), StreamKey(r.input, r.output), r.cost, true)
  }

  lemma NextReport(reports: seq<Report>, n: nat)
    requires n < |reports|
    ensures var r := reports[n];
            Recorded(reports[..n + 1]) == Record(Recorded(reports[..n]), StreamKey(r.input, r.output), r.cost, true)
    ensures Monotone(reports[..n]) && (n > 0 ==> !Decreases(reports[n - 1], reports[n])) ==> Monotone(reports[..n + 1])
  {
    assert reports[..n + 1][..n] == reports[..n];
  }

  // ----- stream keys -----

  lemma StreamKeyInjective(i: nat, o: nat, j: nat, p: nat)
    ensures StreamKey(i, o) == StreamKey(j, p) ==> i == j && o == p
    ensures StreamKey(i, o) != TERMINAL
  {
    var a, b := "stream:1:" + Amounts.Decimal(i), "stream:1:" + Amounts.Decimal(j);
    if StreamKey(i, o) == StreamKey(j, p) {
      KeyEndsInNumber(a, o, b, p);
      assert "stream:1:" == "stream:1" + ":";
      KeyEndsInNumber("stream:1", i, "stream:1", j);
    }
    assert StreamKey(i, o)[0] == 's' && TERMINAL[0] == 't';
  }

  lemma {:induction false} RecordedKeys(reports: seq<Report>, key: string)
    ensures key in Recorded(reports).events <==>
              exists i :: 0 <= i < |reports| && StreamKey(reports[i].input, reports[i].output) == key
    decreases |reports|
  {
    if reports != [] {
      var n := |reports| - 1;
      var front := reports[..n];
      RecordedKeys(front, key);
      if key in Recorded(front).events {
        var i :| 0 <= i < n && StreamKey(front[i].input, front[i].output) == key;
        assert StreamKey(reports[i].input, reports[i].output) == key;
      }
      assert StreamKey(reports[n].input, reports[n].output) == key <==>
             key == StreamKey(reports[n].input, reports[n].output);
      if i :| 0 <= i < |reports| && StreamKey(reports[i].input, reports[i].output) == key {
        if i < n {
          assert StreamKey(front[i].input, front[i].output) == key;
        }
      }
    }
  }

  predicate SamePair(a: Report, b: Report) {
    a.input == b.input && a.output == b.output
  }

  /** The effect of one more report on the total: nothing if it repeats the previous token
      pair, and otherwise the larger of the total and its cost. */
  lemma NextTotal(reports: seq<Report>, n: nat)
    requires Monotone(reports) && n < |reports|
    ensures var before := Total(Recorded(reports[..n]).events);
            var after := Total(Recorded(reports[..n + 1]).events);
            after == if n > 0 && SamePair(reports[n - 1], reports[n]) then before
                     else if reports[n].cost > before then reports[n].cost else before
  {
    var r := reports[n];
    var front := reports[..n];
    assert reports[..n + 1][..n] == front;
    var key := StreamKey(r.input, r.output);
    RecordedKeys(front, key);
    if n > 0 && SamePair(reports[n - 1], r) {
      assert StreamKey(front[n - 1].input, front[n - 1].output) == key;
    }
    if key in Recorded(front).events {
      var i :| 0 <= i < n && StreamKey(front[i].input, front[i].output) == key;
      StreamKeyInjective(front[i].input, front[i].output, r.input, r.output);
      assert !Decreases(reports[n - 1], r);
      assert i < n - 1 ==> !Decreases(reports[i], reports[n - 1]);
      assert SamePair(reports[n - 1], r);
    } else {
      TotalUpdate(Recorded(front).events, key, Excess(r.cost, Total(Recorded(front).events)));
      assert Recorded(front).events - {key} == Recorded(front).events;
    }
  }

  // ----- main results -----

  predicate Follows(a: Report, b: Report) {
    a.cost <= b.cost && (SamePair(a, b) ==> a.cost == b.cost)
  }

  ghost predicate CostsFollow(reports: seq<Report>) {
    forall i, j :: 0 <= i < j < |reports| ==> Follows(reports[i], reports[j])
  }

  ghost predicate FollowsLatest(reports: seq<Report>) {
    forall n :: 0 < n <= |reports| ==> Total(Recorded(reports[..n]).events) == reports[n - 1].cost
  }

  lemma {:induction false} FollowsUpTo(reports: seq<Report>, n: nat)
    requires Monotone(reports) && CostsFollow(reports) && 0 < n <= |reports|
    ensures Total(Recorded(reports[..n]).events) == reports[n - 1].cost
  {
    NextTotal(reports, n - 1);
    if n == 1 {
      assert reports[..0] == [];
    } else {
      FollowsUpTo(reports, n - 1);
      assert Follows(reports[n - 2], reports[n - 1]);
    }
  }

  lemma {:induction false} FollowsAfter(reports: seq<Report>, i: nat, j: nat)
    requires Monotone(reports) && FollowsLatest(reports) && i < j < |reports|
    ensures Follows(reports[i], reports[j])
    decreases j
  {
    NextTotal(reports, j);
    assert Total(Recorded(reports[..j]).events) == reports[j - 1].cost;
    assert Total(Recorded(reports[..j + 1]).events) == reports[j + 1 - 1].cost;
    if i < j - 1 {
      FollowsAfter(reports, i, j - 1);
      assert !Decreases(reports[i], reports[j - 1]) && !Decreases(reports[j - 1], reports[j]);
    }
  }

  /** For a stream whose token counts never go back, the ledger total equals the cost of the
      latest report after every report exactly when costs never fall and a repeated token pair
      repeats its cost. */
  lemma LedgerFollowsLatestIff(reports: seq<Report>)
    requires Monotone(reports)
    ensures FollowsLatest(reports) <==> CostsFollow(reports)
  {
    if CostsFollow(reports) {
      forall n | 0 < n <= |reports|
        ensures Total(Recorded(reports[..n]).events) == reports[n - 1].cost
      {
        FollowsUpTo(reports, n);
      }
    }
    if FollowsLatest(reports) {
      forall i, j | 0 <= i < j < |reports|
        ensures Follows(reports[i], reports[j])
      {
        FollowsAfter(reports, i, j);
      }
    }
  }

  /** Cost as a nondecreasing function of the token pair is one way to meet the condition. */
  lemma PricedStreamFollowsLatest(reports: seq<Report>, price: (nat, nat) -> nat)
    requires Monotone(reports)
    requires forall i :: 0 <= i < |reports| ==> reports[i].cost == price(reports[i].input, reports[i].output)
    requires forall i: nat, o: nat, j: nat, p: nat {:trigger price(i, o), price(j, p)} ::
               i <= j && o <= p ==> price(i, o) <= price(j, p)
    ensures FollowsLatest(reports)
  {
    forall i, j | 0 <= i < j < |reports|
      ensures Follows(reports[i], reports[j])
    {
      assert !Decreases(reports[i], reports[j]);
    }
    LedgerFollowsLatestIff(reports);
  }

  /** The budget's actual is the ledger total, as every ledger built by `Record` has it. */
  ghost predicate Balanced(l: Ledger) {
    if l.actual.Some? then l.actual.value == Total(l.events) else l.events == map[]
  }

  lemma RecordedBalanced(reports: seq<Report>)
    ensures Balanced(Recorded(reports))
    ensures TERMINAL !in Recorded(reports).events
  {
    RecordedKeys(reports, TERMINAL);
    if TERMINAL in Recorded(reports).events {
      var i :| 0 <= i < |reports| && StreamKey(reports[i].input, reports[i].output) == TERMINAL;
      StreamKeyInjective(reports[i].input, reports[i].output, 0, 0);
    }
  }

  /** The two stores end with the same actual exactly when the terminal amount is at least what
      the ledger holds and is the first one, or repeats the ledger total. */
  lemma StoresAgreeIff(l: Ledger, actual: nat)
    requires Balanced(l)
    ensures ReconcileDurable(l, actual).actual == ReconcileInMemory(l, actual).actual <==>
              if TERMINAL in l.events then Total(l.events) == actual else Total(l.events) <= actual
    ensures Balanced(ReconcileDurable(l, actual))
  {
    TotalUpdate(l.events, TERMINAL, Excess(actual, Total(l.events)));
    if TERMINAL !in l.events {
      assert l.events - {TERMINAL} == l.events;
    }
  }

  /** Repeating the terminal reconciliation with the same amount adds nothing. */
  lemma ReconcileTwice(l: Ledger, actual: nat)
    requires Balanced(l)
    ensures ReconcileDurable(ReconcileDurable(l, actual), actual) == ReconcileDurable(l, actual)
  {
  }

  /** Settling the ledger at an amount leaves both stores with exactly that amount. */
  ghost predicate SettlesAt(l: Ledger, final: nat) {
    var durable := ReconcileDurable(l, final);
    && durable.actual == Some(final) && Total(durable.events) == final
    && ReconcileInMemory(l, final).actual == durable.actual
  }

  lemma SettleBalanced(l: Ledger, final: nat)
    requires Balanced(l) && TERMINAL !in l.events && Total(l.events) == final
    ensures SettlesAt(l, final)
  {
    TotalUpdate(l.events, TERMINAL, 0);
    assert l.events - {TERMINAL} == l.events;
  }

  /** A whole stream: after reports that follow their costs, settling the last report's cost
      leaves both stores with exactly that amount, and the ledger sums to it. */
  lemma StreamSettles(reports: seq<Report>)
    requires Monotone(reports) && CostsFollow(reports) && reports != []
    ensures SettlesAt(Recorded(reports), reports[|reports| - 1].cost)
  {
    var l := Recorded(reports);
    assert Balanced(l) && TERMINAL !in l.events by {
      RecordedBalanced(reports);
    }
    assert Total(l.events) == reports[|reports| - 1].cost by {
      FollowsUpTo(reports, |reports|);
      assert reports[..|reports|] == reports;
    }
    SettleBalanced(l, reports[|reports| - 1].cost);
  }

  // ----- catalog prices -----

  /** What the stream records for a sequence of provider usages. */
  function Priced(p: Prices, usages: seq<Usage>): (reports: seq<Report>)
    ensures |reports| == |usages|
    ensures forall i :: 0 <= i < |usages| ==>
              reports[i] == Report(usages[i].inputTokens, usages[i].outputTokens, Cost(p, usages[i]))
  {
    seq(|usages|, i requires 0 <= i < |usages| => Report(usages[i].inputTokens, usages[i].outputTokens, Cost(p, usages[i])))
  }

  /** Every stream whose token counts never go back has a ledger that follows it. */
  ghost predicate AlwaysFollows(p: Prices) {
    forall usages :: Monotone(Priced(p, usages)) ==> FollowsLatest(Priced(p, usages))
  }

  /** Cached input is charged like other input, and reasoning tokens are free. */
  predicate PairPriced(p: Prices) {
    RateOr(p.cachedInput, p.input) == p.input && RateOr(p.reasoning, p.output) == 0
  }

  lemma PairCost(p: Prices, u: Usage)
    requires PairPriced(p)
    ensures Cost(p, u) == u.inputTokens * p.input + u.outputTokens * p.output
  {
    var cached := if u.inputTokens < u.cachedTokens then u.inputTokens else u.cachedTokens;
    assert (u.inputTokens - cached) * p.input + cached * p.input == u.inputTokens * p.input;
  }

  lemma ProductMonotone(a: nat, b: nat, rate: nat)
    requires a <= b
    ensures a * rate <= b * rate
  {
  }

  lemma PairPricedFollows(p: Prices, usages: seq<Usage>)
    requires PairPriced(p) && Monotone(Priced(p, usages))
    ensures FollowsLatest(Priced(p, usages))
  {
    var reports := Priced(p, usages);
    forall i, j | 0 <= i < j < |reports|
      ensures Follows(reports[i], reports[j])
    {
      assert !Decreases(reports[i], reports[j]);
      PairCost(p, usages[i]);
      PairCost(p, usages[j]);
      ProductMonotone(usages[i].inputTokens, usages[j].inputTokens, p.input);
      ProductMonotone(usages[i].outputTokens, usages[j].outputTokens, p.output);
    }
    LedgerFollowsLatestIff(reports);
  }

  /** Two usages with the same token pair, the later one cheaper. */
  lemma FallingPair(p: Prices) returns (usages: seq<Usage>)
    requires !PairPriced(p)
    ensures var reports := Priced(p, usages);
            |reports| == 2 && Monotone(reports) && SamePair(reports[0], reports[1]) && reports[0].cost > reports[1].cost
  {
    usages := if RateOr(p.reasoning, p.output) > 0 then [Usage(0, 0, 0, 1), Usage(0, 0, 0, 0)]
              else if RateOr(p.cachedInput, p.input) < p.input then [Usage(1, 0, 0, 0), Usage(1, 0, 1, 0)]
              else [Usage(1, 0, 1, 0), Usage(1, 0, 0, 0)];
  }

  /** With catalog prices the ledger follows every stream exactly when cost depends on the token
      pair alone: events are keyed by the pair, but cached and reasoning tokens are priced too. */
  lemma PricesFollowIff(p: Prices)
    ensures AlwaysFollows(p) <==> PairPriced(p)
  {
    if PairPriced(p) {
      forall usages | Monotone(Priced(p, usages))
        ensures FollowsLatest(Priced(p, usages))
      {
        PairPricedFollows(p, usages);
      }
    } else {
      var usages := FallingPair(p);
      var reports := Priced(p, usages);
      assert !Follows(reports[0], reports[1]);
      LedgerFollowsLatestIff(reports);
    }
  }

  /** Settling the stream at its last cost leaves both stores with the same actual. */
  ghost predicate StoresAgreeOn(reports: seq<Report>)
    requires reports != []
  {
    var l, last := Recorded(reports), reports[|reports| - 1].cost;
    ReconcileDurable(l, last).actual == ReconcileInMemory(l, last).actual
  }

  ghost predicate StoresAlwaysAgree(p: Prices) {
    forall usages :: usages != [] && Monotone(Priced(p, usages)) ==> StoresAgreeOn(Priced(p, usages))
  }

  lemma FallingPairSplits(reports: seq<Report>)
    requires |reports| == 2 && Monotone(reports) && SamePair(reports[0], reports[1]) && reports[0].cost > reports[1].cost
    ensures !StoresAgreeOn(reports)
  {
    NextTotal(reports, 0);
    NextTotal(reports, 1);
    assert reports[..0] == [] && reports[..2] == reports;
    RecordedBalanced(reports);
    StoresAgreeIff(Recorded(reports), reports[1].cost);
  }

  /** And exactly then do the two stores settle every stream at the same actual. */
  lemma PricesAgreeIff(p: Prices)
    ensures StoresAlwaysAgree(p) <==> PairPriced(p)
  {
    if PairPriced(p) {
      forall usages | usages != [] && Monotone(Priced(p, usages))
        ensures StoresAgreeOn(Priced(p, usages))
      {
        PairPricedFollows(p, usages);
        LedgerFollowsLatestIff(Priced(p, usages));
        StreamSettles(Priced(p, usages));
      }
    } else {
      var usages := FallingPair(p);
      FallingPairSplits(Priced(p, usages));
    }
  }
}
