/** The transactional outbox for one event: the store's transactions on the event row and its
    per-consumer receipts, and any number of relays draining it, crashing and losing leases. */
module Outbox {
  import opened Options
  import opened Finite

  type Relay = nat

  datatype Status = Pending | Claimed | Failed | Delivered

  datatype Receipt = Receipt(status: Status, leaseOwner: Option<Relay>, leaseExpires: Option<nat>, attempts: nat)

  datatype EventRow = EventRow(content: string, requiredCount: nat, availableAt: nat, leaseOwner: Option<Relay>,
                               leaseExpires: Option<nat>, attempts: nat, deliveredAt: Option<nat>)

  datatype Table = Table(event: Option<EventRow>, receipts: map<string, Receipt>)

  const EMPTY := Table(None, map[])

  // ----- transactions -----

  /** Receipts of the required consumers, keeping those that exist. */
  function WithReceipts(receipts: map<string, Receipt>, consumers: set<string>): map<string, Receipt> {
    map c | c in receipts.Keys + consumers ::
      if c in receipts then receipts[c] else Receipt(Pending, None, None, 0)
  }

  /** Idempotent recording; changed content or a changed number of obligations aborts. */
  function RecordTx(t: Table, content: string, consumers: set<string>, at: nat): (Table, bool) {
    var row := if t.event.Some? then t.event.value
               else EventRow(content, |consumers|, at, None, None, 0, None);
    if row.content != content || row.requiredCount != |consumers| then (t, false)
    else (Table(Some(row), WithReceipts(t.receipts, consumers)), true)
  }

  predicate LeaseFree(expires: Option<nat>, now: nat) {
    expires == None || expires.value < now
  }

  function ClaimTx(t: Table, owner: Relay, now: nat, lease: nat): (Table, bool) {
    if t.event.Some? && t.event.value.deliveredAt == None && t.event.value.availableAt <= now
       && LeaseFree(t.event.value.leaseExpires, now) then
      (t.(event := Some(t.event.value.(leaseOwner := Some(owner), leaseExpires := Some(now + lease),
                                       attempts := t.event.value.attempts + 1))), true)
    else (t, false)
  }

  function ClaimReceiptTx(t: Table, c: string, owner: Relay, now: nat, lease: nat): (Table, bool) {
    if c !in t.receipts || t.receipts[c].status == Delivered then (t, false)
    else if !LeaseFree(t.receipts[c].leaseExpires, now) then (t, false)
    else (t.(receipts := t.receipts[c := Receipt(Claimed, Some(owner), Some(now + lease),
                                                 t.receipts[c].attempts + 1)]), true)
  }

  predicate Holds(t: Table, c: string, owner: Relay) {
    c in t.receipts && t.receipts[c].leaseOwner == Some(owner) && t.receipts[c].status == Claimed
  }

  function CloseReceiptTx(t: Table, c: string, owner: Relay, status: Status): (Table, bool) {
    if Holds(t, c, owner) then
      (t.(receipts := t.receipts[c := t.receipts[c].(status := status, leaseOwner := None, leaseExpires := None)]),
       true)
    else (t, false)
  }

  ghost predicate AllDelivered(t: Table) {
    && t.event.Some?
    && |t.receipts| == t.event.value.requiredCount
    && forall c :: c in t.receipts ==> t.receipts[c].status == Delivered
  }

  function MarkTx(t: Table, owner: Relay, now: nat): (Table, bool) {
    if t.event.Some? && t.event.value.leaseOwner == Some(owner) && t.event.value.deliveredAt == None then
      (t.(event := Some(t.event.value.(deliveredAt := Some(now), leaseOwner := None, leaseExpires := None))), true)
    else (t, false)
  }

  function ReleaseTx(t: Table, owner: Relay, now: nat, backoff: nat): (Table, bool) {
    if t.event.Some? && t.event.value.leaseOwner == Some(owner) && t.event.value.deliveredAt == None then
      (t.(event := Some(t.event.value.(availableAt := now + backoff, leaseOwner := None, leaseExpires := None))),
       true)
    else (t, false)
  }

  lemma OneMoreReceipt(receipts: map<string, Receipt>, done: set<string>, c: string)
    ensures var sofar := WithReceipts(receipts, done);
            WithReceipts(receipts, done + {c}) == if c in sofar then sofar else sofar[c := Receipt(Pending, None, None, 0)]
  {
  }

  /** The receipt loop of `record`. */
  method AddReceipts(receipts: map<string, Receipt>, consumers: set<string>) returns (all: map<string, Receipt>)
    ensures all == WithReceipts(receipts, consumers)
  {
    all := receipts;
    var todo, done := consumers, {};
    assert WithReceipts(receipts, {}) == receipts;
    while todo != {}
      invariant done + todo == consumers && all == WithReceipts(receipts, done)
      decreases todo
    {
      var c :| c in todo;
      OneMoreReceipt(receipts, done, c);
      if c !in all {
        all := all[c := Receipt(Pending, None, None, 0)];
      }
      todo, done := todo - {c}, done + {c};
    }
    assert done == consumers;
  }

  class OutboxStore {
    var table: Table

    constructor ()
      ensures table == EMPTY
    {
      table := EMPTY;
    }

    method Record(content: string, consumers: set<string>, at: nat) returns (ok: bool)
      modifies this
      ensures (table, ok) == RecordTx(old(table), content, consumers, at)
    {
      var row := if table.event.Some? then table.event.value
                 else EventRow(content, |consumers|, at, None, None, 0, None);
      if row.content != content || row.requiredCount != |consumers| {
        return false;
      }
      var receipts := AddReceipts(table.receipts, consumers);
      table := Table(Some(row), receipts);
      return true;
    }

    method Claim(owner: Relay, now: nat, lease: nat) returns (claimed: bool)
      modifies this
      ensures (table, claimed) == ClaimTx(old(table), owner, now, lease)
    {
      if table.event.None? || table.event.value.deliveredAt.Some? || table.event.value.availableAt > now {
        return false;
      }
      var row := table.event.value;
      if row.leaseExpires.Some? && row.leaseExpires.value >= now {
        return false;
      }
      row := row.(leaseOwner := Some(owner), leaseExpires := Some(now + lease));
      row := row.(attempts := row.attempts + 1);
      table := table.(event := Some(row));
      return true;
    }

    method ClaimReceipt(c: string, owner: Relay, now: nat, lease: nat) returns (claimed: bool)
      modifies this
      ensures (table, claimed) == ClaimReceiptTx(old(table), c, owner, now, lease)
    {
      if c !in table.receipts || table.receipts[c].status == Delivered {
        return false;
      }
      var r := table.receipts[c];
      if r.leaseExpires.Some? && r.leaseExpires.value >= now {
        return false;
      }
      r := r.(status := Claimed, leaseOwner := Some(owner));
      r := r.(leaseExpires := Some(now + lease), attempts := r.attempts + 1);
      table := table.(receipts := table.receipts[c := r]);
      return true;
    }

    method AcknowledgeReceipt(c: string, owner: Relay) returns (ok: bool)
      modifies this
      ensures (table, ok) == CloseReceiptTx(old(table), c, owner, Delivered)
    {
      if c !in table.receipts || table.receipts[c].leaseOwner != Some(owner)
         || table.receipts[c].status != Claimed {
        return false;
      }
      var r := table.receipts[c].(status := Delivered);
      table := table.(receipts := table.receipts[c := r.(leaseOwner := None, leaseExpires := None)]);
      return true;
    }

    method FailReceipt(c: string, owner: Relay) returns (ok: bool)
      modifies this
      ensures (table, ok) == CloseReceiptTx(old(table), c, owner, Failed)
    {
      if c !in table.receipts || table.receipts[c].leaseOwner != Some(owner)
         || table.receipts[c].status != Claimed {
        return false;
      }
      var r := table.receipts[c].(status := Failed);
      table := table.(receipts := table.receipts[c := r.(leaseOwner := None, leaseExpires := None)]);
      return true;
    }

    method AllRequiredReceiptsDelivered() returns (all: bool)
      ensures all == AllDelivered(table)
    {
      if table.event.None? {
        return false;
      }
      var incomplete := set c | c in table.receipts && table.receipts[c].status != Delivered;
      all := |table.receipts| == table.event.value.requiredCount && |incomplete| == 0;
      if incomplete != {} {
        var c :| c in incomplete;
        assert table.receipts[c].status != Delivered;
      } else {
        assert forall c :: c in table.receipts && table.receipts[c].status != Delivered ==> c in incomplete;
      }
    }

    method MarkDelivered(owner: Relay, now: nat) returns (ok: bool)
      modifies this
      ensures (table, ok) == MarkTx(old(table), owner, now)
    {
      if table.event.None? || table.event.value.leaseOwner != Some(owner)
         || table.event.value.deliveredAt.Some? {
        return false;
      }
      var row := table.event.value.(deliveredAt := Some(now));
      table := table.(event := Some(row.(leaseOwner := None, leaseExpires := None)));
      return true;
    }

    method ReleaseFailed(owner: Relay, now: nat, backoff: nat) returns (ok: bool)
      modifies this
      ensures (table, ok) == ReleaseTx(old(table), owner, now, backoff)
    {
      if table.event.None? || table.event.value.leaseOwner != Some(owner)
         || table.event.value.deliveredAt.Some? {
        return false;
      }
      var row := table.event.value.(availableAt := now + backoff);
      table := table.(event := Some(row.(leaseOwner := None, leaseExpires := None)));
      return true;
    }
  }

  // ----- relays -----

  /** Where one `drain` stands with this event.  `todo` are consumers not yet tried; the order
      in which they are tried is left open. */
  datatype Phase =
    | Idle
    | Holding
    | Draining(todo: set<string>, failures: nat)
    | Delivering(consumer: string, todo: set<string>, failures: nat)
    | Consumed(consumer: string, todo: set<string>, failures: nat)
    | Refused(consumer: string, todo: set<string>, failures: nat)
    | Marking
    | Releasing

  /** `consumed` records every consumer whose handler completed on the event. */
  datatype World = World(table: Table, relays: map<Relay, Phase>, consumed: set<string>)

  const INIT := World(EMPTY, map[], {})

  datatype Step =
    | Record(content: string, consumers: set<string>, at: nat)
    | Start(id: Relay)
    | Claim(id: Relay, now: nat, lease: nat)
    | ReadReceipts(id: Relay)
    | TryReceipt(id: Relay, consumer: string, now: nat, lease: nat)
    | HandlerReturns(id: Relay)
    | HandlerRaises(id: Relay)
    | Acknowledge(id: Relay)
    | FailReceipt(id: Relay)
    | Check(id: Relay)
    | Mark(id: Relay, now: nat)
    | Release(id: Relay, now: nat, backoff: nat)
    | Crash(id: Relay)

  function Move(w: World, id: Relay, phase: Phase): World {
    w.(relays := w.relays[id := phase])
  }

  ghost function Next(w: World, step: Step): World {
    if step.Record? then w.(table := RecordTx(w.table, step.content, step.consumers, step.at).0)
    else if step.Start? then
      if step.id in w.relays then w else Move(w, step.id, Idle)
    else if step.id !in w.relays then w
    else
      var id := step.id;
      var phase := w.relays[id];
      match step
      case Claim(_, now, lease) =>
        var (table, ok) := ClaimTx(w.table, id, now, lease);
        if phase.Idle? && ok then Move(w, id, Holding).(table := table) else w
      case ReadReceipts(_) =>
        if phase.Holding? then Move(w, id, Draining(w.table.receipts.Keys, 0)) else w
      case TryReceipt(_, c, now, lease) =>
        if !phase.Draining? || c !in phase.todo then w
        else
          var (table, ok) := ClaimReceiptTx(w.table, c, id, now, lease);
          var todo := phase.todo - {c};
          Move(w, id, if ok then Delivering(c, todo, phase.failures) else Draining(todo, phase.failures))
            .(table := table)
      case HandlerReturns(_) =>
        if phase.Delivering? then
          Move(w, id, Consumed(phase.consumer, phase.todo, phase.failures))
            .(consumed := w.consumed + {phase.consumer})
        else w
      case HandlerRaises(_) =>
        if phase.Delivering? then Move(w, id, Refused(phase.consumer, phase.todo, phase.failures)) else w
      case Acknowledge(_) =>
        if phase.Consumed? then
          Move(w, id, Draining(phase.todo, phase.failures))
            .(table := CloseReceiptTx(w.table, phase.consumer, id, Delivered).0)
        else w
      case FailReceipt(_) =>
        if phase.Refused? then
          Move(w, id, Draining(phase.todo, phase.failures + 1))
            .(table := CloseReceiptTx(w.table, phase.consumer, id, Failed).0)
        else w
      case Check(_) =>
        if phase.Draining? && phase.todo == {} then
          Move(w, id, if phase.failures > 0 || !AllDelivered(w.table) then Releasing else Marking)
        else w
      case Mark(_, now) =>
        if phase.Marking? then Move(w, id, Idle).(table := MarkTx(w.table, id, now).0) else w
      case Release(_, now, backoff) =>
        if phase.Releasing? then Move(w, id, Idle).(table := ReleaseTx(w.table, id, now, backoff).0) else w
      case Crash(_) => Move(w, id, Idle)
      case _ => w
  }

  ghost function Run(steps: seq<Step>): World {
    if steps == [] then INIT else Next(Run(steps[..|steps| - 1]), steps[|steps| - 1])
  }

  // ----- what holds for every producer -----

  ghost predicate Inv(w: World) {
    && (forall c :: c in w.table.receipts && w.table.receipts[c].status == Delivered ==> c in w.consumed)
    && (forall id :: id in w.relays && w.relays[id].Consumed? ==> w.relays[id].consumer in w.consumed)
  }

  lemma NextKeepsInv(w: World, step: Step)
    requires Inv(w)
    ensures Inv(Next(w, step))
  {
    var v := Next(w, step);
    if !step.Record? && step.id in w.relays {
      forall id | id in v.relays && v.relays[id].Consumed?
        ensures v.relays[id].consumer in v.consumed
      {
        assert id in w.relays && w.relays[id].Consumed? ==> w.relays[id].consumer in w.consumed;
      }
    }
  }

  lemma {:induction false} RunKeepsInv(steps: seq<Step>)
    ensures Inv(Run(steps))
  {
    if steps != [] {
      RunKeepsInv(steps[..|steps| - 1]);
      NextKeepsInv(Run(steps[..|steps| - 1]), steps[|steps| - 1]);
    }
  }

  /** Every delivered receipt follows a completed consume by that consumer, in every run. */
  lemma DeliveredMeansConsumed(steps: seq<Step>, c: string)
    requires c in Run(steps).table.receipts && Run(steps).table.receipts[c].status == Delivered
    ensures c in Run(steps).consumed
  {
    RunKeepsInv(steps);
  }

  ghost predicate Keeps(a: Table, b: Table) {
    && (forall c :: c in a.receipts ==> c in b.receipts)
    && (forall c :: c in a.receipts && a.receipts[c].status == Delivered ==> b.receipts[c] == a.receipts[c])
    && (a.event.Some? ==> b.event.Some? && b.event.value.requiredCount == a.event.value.requiredCount)
    && (a.event.Some? && a.event.value.deliveredAt.Some? ==> b.event == a.event)
  }

  lemma NextKeeps(w: World, step: Step)
    ensures Keeps(w.table, Next(w, step).table)
  {
  }

  lemma KeepsTransitive(a: Table, b: Table, c: Table)
    requires Keeps(a, b) && Keeps(b, c)
    ensures Keeps(a, c)
  {
  }

  /** Delivered never reverts, neither on a receipt nor on the event, whatever happens later. */
  lemma {:induction false} DeliveredIsFinal(before: seq<Step>, after: seq<Step>)
    ensures Keeps(Run(before).table, Run(before + after).table)
    decreases |after|
  {
    if after == [] {
      assert before + after == before;
    } else {
      var front := after[..|after| - 1];
      DeliveredIsFinal(before, front);
      assert (before + after)[..|before + after| - 1] == before + front;
      NextKeeps(Run(before + front), after[|after| - 1]);
      KeepsTransitive(Run(before).table, Run(before + front).table, Run(before + after).table);
    }
  }

  // ----- what a delivered event means -----

  ghost predicate EventDelivered(w: World) {
    w.table.event.Some? && w.table.event.value.deliveredAt.Some?
  }

  /** The event is delivered, or some relay has checked the receipts and is about to say so. */
  ghost predicate Closing(w: World) {
    EventDelivered(w) || exists id :: id in w.relays && w.relays[id].Marking?
  }

  /** Only a check that succeeded lets a relay mark, and only a marking relay marks. */
  lemma ClosingIsChecked(w: World, step: Step)
    ensures Closing(Next(w, step)) ==> Closing(w) || AllDelivered(w.table)
  {
  }

  /** A required number of consumers, each with a Delivered receipt. */
  ghost predicate Served(t: Table, s: set<string>) {
    && t.event.Some? && |s| == t.event.value.requiredCount
    && forall c :: c in s ==> c in t.receipts && t.receipts[c].status == Delivered
  }

  lemma {:induction false} ClosingIsServed(steps: seq<Step>) returns (s: set<string>)
    ensures Closing(Run(steps)) ==> Served(Run(steps).table, s)
  {
    s := {};
    if steps != [] {
      var before := Run(steps[..|steps| - 1]);
      s := ClosingIsServed(steps[..|steps| - 1]);
      ClosingIsChecked(before, steps[|steps| - 1]);
      NextKeeps(before, steps[|steps| - 1]);
      if !Closing(before) {
        s := before.table.receipts.Keys;
        assert |s| == |before.table.receipts|;
      }
    }
  }

  /** In every run, whatever the producers: a delivered event has its required number of
      Delivered receipts, of consumers that completed their handler on it. */
  lemma DeliveredMeansServed(steps: seq<Step>) returns (s: set<string>)
    ensures EventDelivered(Run(steps)) ==> Served(Run(steps).table, s) && s <= Run(steps).consumed
  {
    s := ClosingIsServed(steps);
    RunKeepsInv(steps);
  }

  // ----- when those are all the receipts -----

  /** A closing event has exactly its required receipts, all of them Delivered. */
  ghost predicate Exact(w: World) {
    Closing(w) ==> AllDelivered(w.table)
  }

  ghost predicate Accepts(w: World, step: Step) {
    step.Record? && RecordTx(w.table, step.content, step.consumers, step.at).1
  }

  /** An accepted recording that names a further consumer after the receipts were checked: the
      obligations are compared by number only. */
  ghost predicate LateObligation(w: World, step: Step) {
    && Accepts(w, step)
    && !(step.consumers <= w.table.receipts.Keys) && Closing(w)
  }

  lemma AllDeliveredStays(a: Table, b: Table)
    requires AllDelivered(a) && Keeps(a, b) && b.receipts.Keys == a.receipts.Keys
    ensures AllDelivered(b)
  {
    assert |a.receipts| == |a.receipts.Keys| && |b.receipts| == |b.receipts.Keys|;
  }

  lemma ReceiptKeys(w: World, step: Step)
    ensures Next(w, step).table.receipts.Keys ==
            if Accepts(w, step)
            then w.table.receipts.Keys + step.consumers else w.table.receipts.Keys
  {
  }

  lemma LateObligationBreaks(w: World, step: Step)
    requires Exact(w) && LateObligation(w, step)
    ensures Closing(Next(w, step)) && !AllDelivered(Next(w, step).table)
  {
    var c :| c in step.consumers && c !in w.table.receipts;
    assert Next(w, step).table.receipts[c].status == Pending;
  }

  /** Exactness survives a step if and only if that step is not a late obligation. */
  lemma ExactStepIff(w: World, step: Step)
    requires Exact(w)
    ensures Exact(Next(w, step)) <==> !LateObligation(w, step)
  {
    if LateObligation(w, step) {
      LateObligationBreaks(w, step);
    } else {
      ClosingIsChecked(w, step);
      NextKeeps(w, step);
      ReceiptKeys(w, step);
      if AllDelivered(w.table) && Closing(Next(w, step)) {
        KeysStay(w, step);
        AllDeliveredStays(w.table, Next(w, step).table);
      }
    }
  }

  lemma KeysStay(w: World, step: Step)
    requires !LateObligation(w, step) && Closing(Next(w, step))
    ensures Next(w, step).table.receipts.Keys == w.table.receipts.Keys
  {
    ReceiptKeys(w, step);
  }

  ghost predicate LateAt(steps: seq<Step>, i: nat)
    requires i < |steps|
  {
    LateObligation(Run(steps[..i]), steps[i])
  }

  ghost predicate ExactAt(steps: seq<Step>, i: nat)
    requires i <= |steps|
  {
    Exact(Run(steps[..i]))
  }

  lemma PrefixStep(steps: seq<Step>, i: nat)
    requires i < |steps|
    ensures Run(steps[..i + 1]) == Next(Run(steps[..i]), steps[i])
  {
    assert steps[..i + 1][..i] == steps[..i];
  }

  lemma ExactNext(steps: seq<Step>, i: nat)
    requires i < |steps| && ExactAt(steps, i)
    ensures ExactAt(steps, i + 1) <==> !LateAt(steps, i)
  {
    PrefixStep(steps, i);
    ExactStepIff(Run(steps[..i]), steps[i]);
  }

  lemma ExactFirst(steps: seq<Step>)
    ensures ExactAt(steps, 0)
  {
    assert steps[..0] == [];
  }

  lemma {:induction false} ExactUpTo(steps: seq<Step>, n: nat)
    requires n <= |steps| && forall i :: 0 <= i < n ==> !LateAt(steps, i)
    ensures ExactAt(steps, n)
  {
    if n == 0 {
      ExactFirst(steps);
    } else {
      ExactUpTo(steps, n - 1);
      ExactNext(steps, n - 1);
    }
  }

  /** A run is exact throughout if and only if no producer adds a consumer late. */
  lemma ExactThroughoutIff(steps: seq<Step>)
    ensures (forall i :: 0 <= i <= |steps| ==> ExactAt(steps, i)) <==> (forall i :: 0 <= i < |steps| ==> !LateAt(steps, i))
  {
    if forall i :: 0 <= i < |steps| ==> !LateAt(steps, i) {
      forall n | 0 <= n <= |steps|
        ensures ExactAt(steps, n)
      {
        ExactUpTo(steps, n);
      }
    }
    if forall i :: 0 <= i <= |steps| ==> ExactAt(steps, i) {
      forall i | 0 <= i < |steps|
        ensures !LateAt(steps, i)
      {
        assert ExactAt(steps, i) && ExactAt(steps, i + 1);
        ExactNext(steps, i);
      }
    }
  }

  /** For any number of relays, crashes and lease expiries, and any recordings but late
      obligations: an event marked delivered has exactly its required receipts, all of them
      Delivered, and each of their consumers has completed its handler on the event. */
  lemma MarkedMeansDelivered(steps: seq<Step>)
    requires forall i :: 0 <= i < |steps| ==> !LateAt(steps, i)
    ensures EventDelivered(Run(steps)) ==>
              AllDelivered(Run(steps).table) && Run(steps).table.receipts.Keys <= Run(steps).consumed
  {
    ExactUpTo(steps, |steps|);
    assert steps[..|steps|] == steps;
    RunKeepsInv(steps);
  }

  // ----- producers that agree -----

  /** Step i, if it is an accepted recording, names these consumers. */
  ghost predicate AgreesAt(steps: seq<Step>, i: nat, consumers: set<string>)
    requires i < |steps|
  {
    Accepts(Run(steps[..i]), steps[i]) ==> steps[i].consumers == consumers
  }

  ghost predicate Agreed(w: World, consumers: set<string>) {
    if w.table.event.Some? then w.table.receipts.Keys == consumers else w.table.receipts == map[]
  }

  lemma EventRecorded(w: World, step: Step)
    ensures Next(w, step).table.event.Some? <==> w.table.event.Some? || Accepts(w, step)
  {
  }

  lemma AgreedStep(w: World, step: Step, consumers: set<string>)
    requires Agreed(w, consumers) && (Accepts(w, step) ==> step.consumers == consumers)
    ensures Agreed(Next(w, step), consumers)
  {
    ReceiptKeys(w, step);
    EventRecorded(w, step);
    assert Next(w, step).table.receipts.Keys == {} ==> Next(w, step).table.receipts == map[];
  }

  lemma {:induction false} AgreedUpTo(steps: seq<Step>, n: nat, consumers: set<string>)
    requires n <= |steps| && forall i :: 0 <= i < |steps| ==> AgreesAt(steps, i, consumers)
    ensures Agreed(Run(steps[..n]), consumers)
  {
    if n == 0 {
      assert steps[..0] == [];
    } else {
      AgreedUpTo(steps, n - 1, consumers);
      PrefixStep(steps, n - 1);
      assert AgreesAt(steps, n - 1, consumers);
      AgreedStep(Run(steps[..n - 1]), steps[n - 1], consumers);
    }
  }

  /** Producers that agree never add a consumer late: it is enough that the accepted recordings
      name one set. */
  lemma AgreementIsEnough(steps: seq<Step>, consumers: set<string>, i: nat)
    requires i < |steps| && forall k :: 0 <= k < |steps| ==> AgreesAt(steps, k, consumers)
    ensures !LateAt(steps, i)
  {
    AgreedUpTo(steps, i, consumers);
    assert AgreesAt(steps, i, consumers);
    var served := ClosingIsServed(steps[..i]);
  }

  lemma Extend(steps: seq<Step>, step: Step) returns (longer: seq<Step>)
    ensures longer == steps + [step]
    ensures Run(longer) == Next(Run(steps), step)
  {
    longer := steps + [step];
    assert longer[..|steps|] == steps;
  }

  const SAMPLE_ROW := EventRow("event", 1, 0, Some(0), Some(30), 1, None)

  ghost predicate SampleAt(steps: seq<Step>, receipt: Receipt, phase: Phase) {
    Run(steps).table == Table(Some(SAMPLE_ROW), map["a" := receipt]) && Run(steps).relays == map[0 := phase]
  }

  /** A relay has claimed an event whose only consumer is "a" and read its receipt. */
  lemma OneConsumerClaimed() returns (steps: seq<Step>)
    ensures SampleAt(steps, Receipt(Pending, None, None, 0), Draining({"a"}, 0))
  {
    var pending := Receipt(Pending, None, None, 0);
    steps := Extend([], Record("event", {"a"}, 0));
    steps := Extend(steps, Start(0));
    steps := Extend(steps, Step.Claim(0, 0, 30));
    assert Run(steps).table.receipts == map["a" := pending];
    assert SampleAt(steps, pending, Holding);
    steps := Extend(steps, ReadReceipts(0));
    assert map["a" := pending].Keys == {"a"};
  }

  /** It has delivered that receipt. */
  lemma OneConsumerConsumed() returns (steps: seq<Step>)
    ensures SampleAt(steps, Receipt(Claimed, Some(0), Some(30), 1), Consumed("a", {}, 0))
  {
    steps := OneConsumerClaimed();
    steps := Extend(steps, TryReceipt(0, "a", 0, 30));
    assert {"a"} - {"a"} == {};
    assert SampleAt(steps, Receipt(Claimed, Some(0), Some(30), 1), Delivering("a", {}, 0));
    steps := Extend(steps, HandlerReturns(0));
  }

  /** It has acknowledged and checked it, and is about to mark. */
  lemma OneConsumerChecked() returns (steps: seq<Step>)
    ensures SampleAt(steps, Receipt(Delivered, None, None, 1), Marking)
  {
    steps := OneConsumerConsumed();
    steps := Extend(steps, Acknowledge(0));
    assert SampleAt(steps, Receipt(Delivered, None, None, 1), Draining({}, 0));
    steps := Extend(steps, Check(0));
  }

  /** More receipts than the event requires. */
  ghost predicate Overfull(t: Table) {
    t.event.Some? && |t.receipts.Keys| > t.event.value.requiredCount
  }

  /** Surplus receipts never go away, so the check can never succeed again. */
  lemma OverfullForever(before: seq<Step>, after: seq<Step>)
    requires Overfull(Run(before).table)
    ensures Overfull(Run(before + after).table) && !AllDelivered(Run(before + after).table)
  {
    DeliveredIsFinal(before, after);
    SubsetSize(Run(before).table.receipts.Keys, Run(before + after).table.receipts.Keys);
  }

  /** Every late obligation that meets a relay about to mark breaks exactness for good: the
      event ends delivered with a receipt that is still pending. */
  lemma LateObligationIsMarked(w: World, id: Relay, step: Step, c: string, now: nat)
    requires Exact(w) && id in w.relays && w.relays[id].Marking? && MarkTx(w.table, id, now).1
    requires Accepts(w, step) && c in step.consumers && c !in w.table.receipts
    ensures var v := Next(Next(w, step), Mark(id, now));
            && EventDelivered(v) && c in v.table.receipts && v.table.receipts[c].status == Pending
            && Overfull(v.table)
  {
    var before, after := w.table.receipts.Keys, Next(w, step).table.receipts.Keys;
    assert AllDelivered(w.table) && |before| == |w.table.receipts|;
    SubsetSize(before + {c}, after);
    assert Next(Next(w, step), Mark(id, now)).table.receipts.Keys == after;
  }

  /** Such a state is reached with one producer naming "a" and another naming "b". */
  lemma DisagreeingProducersBreakIt() returns (steps: seq<Step>)
    ensures EventDelivered(Run(steps)) && Overfull(Run(steps).table)
  {
    var checked := OneConsumerChecked();
    var late := Record("event", {"b"}, 0);
    LateObligationIsMarked(Run(checked), 0, late, "b", 1);
    steps := Extend(checked, late);
    steps := Extend(steps, Mark(0, 1));
  }
}
