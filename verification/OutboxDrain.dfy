/** What the outbox's leases are good for and what a drain achieves: who is kept out and until
    when, that an event whose handlers succeed is delivered, and that a failed one is offered
    again. */
module OutboxDrain {
  import opened Options
  import opened Outbox

  ghost function RunFrom(w: World, steps: seq<Step>): World
    decreases |steps|
  {
    if steps == [] then w else Next(RunFrom(w, steps[..|steps| - 1]), steps[|steps| - 1])
  }

  lemma Then(w: World, steps: seq<Step>, step: Step) returns (longer: seq<Step>)
    ensures RunFrom(w, longer) == Next(RunFrom(w, steps), step)
  {
    longer := steps + [step];
    assert longer[..|steps|] == steps;
  }

  // ----- the lease on the event -----

  ghost predicate EventHeld(w: World, id: Relay, until: nat) {
    && w.table.event.Some? && w.table.event.value.deliveredAt == None
    && w.table.event.value.leaseOwner == Some(id) && w.table.event.value.leaseExpires == Some(until)
  }

  /** By its own relay and time the step does not touch that lease. */
  predicate LeavesEvent(step: Step, id: Relay, until: nat) {
    match step
    case Claim(_, now, _) => now <= until
    case Mark(j, _) => j != id
    case Release(j, _, _) => j != id
    case _ => true
  }

  lemma EventHeldStep(w: World, step: Step, id: Relay, until: nat)
    requires EventHeld(w, id, until) && LeavesEvent(step, id, until)
    ensures EventHeld(Next(w, step), id, until)
    ensures Next(w, step).table.event.value.availableAt == w.table.event.value.availableAt
  {
  }

  lemma {:induction false} EventHeldRun(w: World, steps: seq<Step>, id: Relay, until: nat)
    requires EventHeld(w, id, until) && forall k :: 0 <= k < |steps| ==> LeavesEvent(steps[k], id, until)
    ensures EventHeld(RunFrom(w, steps), id, until)
    ensures RunFrom(w, steps).table.event.value.availableAt == w.table.event.value.availableAt
    decreases |steps|
  {
    if steps != [] {
      EventHeldRun(w, steps[..|steps| - 1], id, until);
      EventHeldStep(RunFrom(w, steps[..|steps| - 1]), steps[|steps| - 1], id, until);
    }
  }

  /** A relay has just claimed the event at t for d. */
  ghost predicate Claims(w: World, id: Relay, t: nat, d: nat) {
    && id in w.relays && w.relays[id].Idle?
    && id in Next(w, Step.Claim(id, t, d)).relays && Next(w, Step.Claim(id, t, d)).relays[id].Holding?
  }

  /** Until it marks or releases, every idle relay that claims up to t + d gets nothing; after that
      the first one to claim has the event. */
  lemma EventLeaseExcludes(w: World, id: Relay, t: nat, d: nat, others: seq<Step>, j: Relay, now: nat, lease: nat)
    requires Claims(w, id, t, d) && forall k :: 0 <= k < |others| ==> LeavesEvent(others[k], id, t + d)
    requires var v := RunFrom(Next(w, Step.Claim(id, t, d)), others); j in v.relays && v.relays[j].Idle?
    ensures var v := RunFrom(Next(w, Step.Claim(id, t, d)), others);
            if now <= t + d then Next(v, Step.Claim(j, now, lease)) == v else Claims(v, j, now, lease)
  {
    EventHeldRun(Next(w, Step.Claim(id, t, d)), others, id, t + d);
  }

  // ----- the delay after a release -----

  ghost predicate EventWaits(w: World, until: nat) {
    && w.table.event.Some? && w.table.event.value.deliveredAt == None
    && w.table.event.value.leaseOwner == None && w.table.event.value.leaseExpires == None
    && w.table.event.value.availableAt == until
  }

  lemma EventWaitsStep(w: World, step: Step, until: nat)
    requires EventWaits(w, until) && (step.Claim? ==> step.now < until)
    ensures EventWaits(Next(w, step), until)
  {
  }

  lemma {:induction false} EventWaitsRun(w: World, steps: seq<Step>, until: nat)
    requires EventWaits(w, until) && forall k :: 0 <= k < |steps| && steps[k].Claim? ==> steps[k].now < until
    ensures EventWaits(RunFrom(w, steps), until)
    decreases |steps|
  {
    if steps != [] {
      EventWaitsRun(w, steps[..|steps| - 1], until);
      EventWaitsStep(RunFrom(w, steps[..|steps| - 1]), steps[|steps| - 1], until);
    }
  }

  /** An event released at t with backoff b is offered to nobody below t + b and to the first idle
      relay from then on. */
  lemma BackoffDelays(w: World, id: Relay, until: nat, t: nat, b: nat, others: seq<Step>, j: Relay, now: nat, lease: nat)
    requires EventHeld(w, id, until) && id in w.relays && w.relays[id].Releasing?
    requires forall k :: 0 <= k < |others| && others[k].Claim? ==> others[k].now < t + b
    requires var v := RunFrom(Next(w, Release(id, t, b)), others); j in v.relays && v.relays[j].Idle?
    ensures var v := RunFrom(Next(w, Release(id, t, b)), others);
            if now < t + b then Next(v, Step.Claim(j, now, lease)) == v else Claims(v, j, now, lease)
  {
    EventWaitsRun(Next(w, Release(id, t, b)), others, t + b);
  }

  // ----- the lease on a receipt -----

  ghost predicate ReceiptHeld(w: World, c: string, id: Relay, until: nat) {
    && c in w.table.receipts && w.table.receipts[c].status == Claimed
    && w.table.receipts[c].leaseOwner == Some(id) && w.table.receipts[c].leaseExpires == Some(until)
  }

  predicate LeavesReceipt(step: Step, c: string, id: Relay, until: nat) {
    match step
    case TryReceipt(_, d, now, _) => d != c || now <= until
    case Acknowledge(j) => j != id
    case FailReceipt(j) => j != id
    case _ => true
  }

  lemma ReceiptHeldStep(w: World, step: Step, c: string, id: Relay, until: nat)
    requires ReceiptHeld(w, c, id, until) && LeavesReceipt(step, c, id, until)
    ensures ReceiptHeld(Next(w, step), c, id, until)
  {
  }

  lemma {:induction false} ReceiptHeldRun(w: World, steps: seq<Step>, c: string, id: Relay, until: nat)
    requires ReceiptHeld(w, c, id, until) && forall k :: 0 <= k < |steps| ==> LeavesReceipt(steps[k], c, id, until)
    ensures ReceiptHeld(RunFrom(w, steps), c, id, until)
    decreases |steps|
  {
    if steps != [] {
      ReceiptHeldRun(w, steps[..|steps| - 1], c, id, until);
      ReceiptHeldStep(RunFrom(w, steps[..|steps| - 1]), steps[|steps| - 1], c, id, until);
    }
  }

  /** A relay has just taken the receipt of c at t for d and is about to run its handler. */
  ghost predicate Takes(w: World, id: Relay, c: string, t: nat, d: nat) {
    && id in w.relays && w.relays[id].Draining? && c in w.relays[id].todo
    && id in Next(w, TryReceipt(id, c, t, d)).relays
    && Next(w, TryReceipt(id, c, t, d)).relays[id] == Delivering(c, w.relays[id].todo - {c}, w.relays[id].failures)
  }

  /** Until it acknowledges or fails the receipt, every relay that tries it up to t + d passes on to
      its next consumer; after that the first one to try takes it. */
  lemma ReceiptLeaseExcludes(w: World, id: Relay, c: string, t: nat, d: nat, others: seq<Step>, j: Relay, now: nat, lease: nat)
    requires Takes(w, id, c, t, d) && forall k :: 0 <= k < |others| ==> LeavesReceipt(others[k], c, id, t + d)
    requires var v := RunFrom(Next(w, TryReceipt(id, c, t, d)), others);
             j in v.relays && v.relays[j].Draining? && c in v.relays[j].todo
    ensures var v := RunFrom(Next(w, TryReceipt(id, c, t, d)), others);
            var x := Next(v, TryReceipt(j, c, now, lease));
            if now <= t + d then
              x.table == v.table && x.relays == v.relays[j := Draining(v.relays[j].todo - {c}, v.relays[j].failures)]
            else Takes(v, j, c, now, lease)
  {
    ReceiptHeldRun(Next(w, TryReceipt(id, c, t, d)), others, c, id, t + d);
  }

  // ----- a drain that succeeds -----

  /** Relay `id` has the event and the receipts in `todo` before it; the others are Delivered, and
      those of `todo` are Delivered or free at `now`. */
  ghost predicate DrainingAt(w: World, id: Relay, todo: set<string>, now: nat) {
    && w.table.event.Some? && w.table.event.value.deliveredAt == None && w.table.event.value.leaseOwner == Some(id)
    && |w.table.receipts| == w.table.event.value.requiredCount
    && id in w.relays && w.relays[id] == Draining(todo, 0)
    && forall c :: c in w.table.receipts ==>
         w.table.receipts[c].status == Delivered || (c in todo && LeaseFree(w.table.receipts[c].leaseExpires, now))
  }

  /** One consumer: its receipt is Delivered already, or its handler runs and is acknowledged. */
  lemma ServeOne(w: World, steps: seq<Step>, id: Relay, todo: set<string>, now: nat, lease: nat, c: string)
    returns (more: seq<Step>)
    requires DrainingAt(RunFrom(w, steps), id, todo, now) && c in todo && c in RunFrom(w, steps).table.receipts
    ensures var v, x := RunFrom(w, steps), RunFrom(w, more);
            DrainingAt(x, id, todo - {c}, now) && x.table.receipts.Keys == v.table.receipts.Keys
            && x.table.event == v.table.event
  {
    var v := RunFrom(w, steps);
    more := Then(w, steps, TryReceipt(id, c, now, lease));
    var x := RunFrom(w, more);
    if v.table.receipts[c].status == Delivered {
      assert x == v.(relays := v.relays[id := Draining(todo - {c}, 0)]);
    } else {
      assert x.relays[id] == Delivering(c, todo - {c}, 0);
      assert x.table == v.table.(receipts := v.table.receipts[c := x.table.receipts[c]]);
      more := Then(w, more, HandlerReturns(id));
      assert RunFrom(w, more).table == x.table;
      more := Then(w, more, Acknowledge(id));
      var y := RunFrom(w, more);
      assert y.relays[id] == Draining(todo - {c}, 0);
      assert y.table == v.table.(receipts := v.table.receipts[c := y.table.receipts[c]]) && y.table.receipts[c].status == Delivered;
      ReceiptsCount(v.table.receipts, c, y.table.receipts[c]);
    }
  }

  lemma ReceiptsCount(receipts: map<string, Receipt>, c: string, r: Receipt)
    requires c in receipts
    ensures |receipts[c := r]| == |receipts| && receipts[c := r].Keys == receipts.Keys
  {
    assert receipts[c := r].Keys == receipts.Keys;
    assert |receipts[c := r]| == |receipts[c := r].Keys| && |receipts| == |receipts.Keys|;
  }

  lemma {:induction false} ServeAll(w: World, steps: seq<Step>, id: Relay, todo: set<string>, now: nat, lease: nat)
    returns (more: seq<Step>)
    requires DrainingAt(RunFrom(w, steps), id, todo, now) && todo <= RunFrom(w, steps).table.receipts.Keys
    ensures var v, x := RunFrom(w, steps), RunFrom(w, more);
            DrainingAt(x, id, {}, now) && x.table.receipts.Keys == v.table.receipts.Keys && x.table.event == v.table.event
    decreases todo
  {
    if todo == {} {
      more := steps;
    } else {
      var c :| c in todo;
      more := ServeOne(w, steps, id, todo, now, lease, c);
      more := ServeAll(w, more, id, todo - {c}, now, lease);
    }
  }

  lemma CheckAndMark(w: World, steps: seq<Step>, id: Relay, now: nat) returns (more: seq<Step>)
    requires DrainingAt(RunFrom(w, steps), id, {}, now)
    ensures var v, x := RunFrom(w, steps), RunFrom(w, more);
            && x.table.receipts == v.table.receipts && AllDelivered(x.table)
            && x.table.event.value.deliveredAt == Some(now)
  {
    more := Then(w, steps, Check(id));
    assert RunFrom(w, more).relays[id].Marking? && RunFrom(w, more).table == RunFrom(w, steps).table;
    more := Then(w, more, Mark(id, now));
  }

  /** The event is on offer to an idle relay, with all its receipts, each Delivered or free. */
  ghost predicate OnOffer(w: World, id: Relay, now: nat) {
    && id in w.relays && w.relays[id].Idle?
    && w.table.event.Some? && w.table.event.value.deliveredAt == None && w.table.event.value.availableAt <= now
    && LeaseFree(w.table.event.value.leaseExpires, now) && |w.table.receipts| == w.table.event.value.requiredCount
    && forall c :: c in w.table.receipts ==>
         w.table.receipts[c].status == Delivered || LeaseFree(w.table.receipts[c].leaseExpires, now)
  }

  /** From every such state a drain whose handlers all succeed marks the event delivered, at its
      own time, with every one of its receipts Delivered. */
  lemma DrainDelivers(w: World, id: Relay, now: nat, lease: nat) returns (steps: seq<Step>)
    requires OnOffer(w, id, now)
    ensures var x := RunFrom(w, steps);
            && x.table.receipts.Keys == w.table.receipts.Keys && AllDelivered(x.table)
            && x.table.event.value.deliveredAt == Some(now)
  {
    steps := Then(w, [], Step.Claim(id, now, lease));
    assert RunFrom(w, steps).relays[id].Holding? && RunFrom(w, steps).table.receipts == w.table.receipts;
    steps := Then(w, steps, ReadReceipts(id));
    assert DrainingAt(RunFrom(w, steps), id, w.table.receipts.Keys, now);
    steps := ServeAll(w, steps, id, w.table.receipts.Keys, now, lease);
    steps := CheckAndMark(w, steps, id, now);
  }

  /** Whatever is recorded, for whichever consumers, can be delivered to all of them once it is
      available. */
  lemma RecordedIsDelivered(content: string, consumers: set<string>, at: nat, now: nat, lease: nat)
    returns (steps: seq<Step>)
    requires at <= now
    ensures var x := RunFrom(INIT, steps);
            && x.table.receipts.Keys == consumers && AllDelivered(x.table)
            && x.table.event.value.content == content && x.table.event.value.deliveredAt == Some(now)
  {
    var w := Next(Next(INIT, Record(content, consumers, at)), Start(0));
    assert w.table.receipts.Keys == consumers;
    assert |w.table.receipts| == |w.table.receipts.Keys|;
    assert OnOffer(w, 0, now);
    var drain := DrainDelivers(w, 0, now, lease);
    steps := [Record(content, consumers, at), Start(0)] + drain;
    assert [Record(content, consumers, at), Start(0)][..1] == [Record(content, consumers, at)];
    assert RunFrom(INIT, [Record(content, consumers, at)]) == Next(INIT, Record(content, consumers, at));
    RunJoins(INIT, [Record(content, consumers, at), Start(0)], drain);
    ContentKept(w, drain);
  }

  lemma {:induction false} RunJoins(w: World, a: seq<Step>, b: seq<Step>)
    ensures RunFrom(w, a + b) == RunFrom(RunFrom(w, a), b)
    decreases |b|
  {
    if b == [] {
      assert a + b == a;
    } else {
      assert (a + b)[..|a + b| - 1] == a + b[..|b| - 1];
      RunJoins(w, a, b[..|b| - 1]);
    }
  }

  lemma ContentStep(w: World, step: Step)
    requires w.table.event.Some?
    ensures Next(w, step).table.event.Some? && Next(w, step).table.event.value.content == w.table.event.value.content
  {
  }

  lemma {:induction false} ContentKept(w: World, steps: seq<Step>)
    requires w.table.event.Some?
    ensures RunFrom(w, steps).table.event.Some?
            && RunFrom(w, steps).table.event.value.content == w.table.event.value.content
    decreases |steps|
  {
    if steps != [] {
      ContentKept(w, steps[..|steps| - 1]);
      ContentStep(RunFrom(w, steps[..|steps| - 1]), steps[|steps| - 1]);
    }
  }

  // ----- a drain that fails -----

  /** A handler that raises leaves its receipt failed and free, and its relay, once through its
      consumers, releases the event instead of marking it. */
  lemma FailureIsReleased(w: World, id: Relay, c: string, failures: nat, until: nat)
    requires id in w.relays && w.relays[id] == Delivering(c, {}, failures) && ReceiptHeld(w, c, id, until)
    ensures var x := Next(Next(Next(w, HandlerRaises(id)), FailReceipt(id)), Check(id));
            && id in x.relays && x.relays[id].Releasing? && x.consumed == w.consumed
            && c in x.table.receipts && x.table.receipts[c].status == Failed && x.table.receipts[c].leaseExpires == None
            && x.table.event == w.table.event
  {
  }

  /** A relay through its consumers marks exactly when none of its handlers failed and every
      required receipt is Delivered. */
  lemma CheckDecides(w: World, id: Relay, failures: nat)
    requires id in w.relays && w.relays[id] == Draining({}, failures)
    ensures var x := Next(w, Check(id));
            id in x.relays && x.relays[id] == if failures == 0 && AllDelivered(w.table) then Marking else Releasing
  {
  }

  /** A relay may die anywhere; the table, with its leases, stays as it is. */
  lemma RelayMayDie(w: World, id: Relay)
    requires id in w.relays
    ensures Next(w, Crash(id)) == w.(relays := w.relays[id := Idle])
  {
  }

  // ----- recording -----

  /** The first recording offers the event to nobody before its time and asks every consumer for a
      receipt.  Later ones are refused exactly when they differ in content or in the number of
      consumers, and a repetition changes nothing. */
  lemma RecordDecides(w: World, content: string, consumers: set<string>, at: nat)
    ensures var x := Next(w, Record(content, consumers, at));
            if w.table.event.None? then
              && EventWaits(x, at) && x.table.event.value.content == content && x.table.event.value.requiredCount == |consumers|
              && (w.table.receipts == map[] ==> x.table.receipts.Keys == consumers)
            else
              var known := w.table.event.value;
              && x.table.event == w.table.event
              && (known.content != content || known.requiredCount != |consumers| ==> x == w)
              && (known.content == content && known.requiredCount == |consumers| ==>
                    x.table.receipts.Keys == w.table.receipts.Keys + consumers)
              && (consumers <= w.table.receipts.Keys ==> x == w)
  {
    assert WithReceipts(w.table.receipts, consumers).Keys == w.table.receipts.Keys + consumers;
    if consumers <= w.table.receipts.Keys {
      assert WithReceipts(w.table.receipts, consumers) == w.table.receipts;
    }
  }
}
