/** The durable row of one accepted invocation: execution lease, claim generation, write-once
    terminal intent, terminal payload, and the attempt and usage rows that the same fence
    protects.  Every function is one database transaction of `PostgresAIGatewayStore`. */
module ExecutionLease {
  import opened Options

  type Owner = nat

  datatype Response = Response(resultId: nat, succeeded: bool)

  /** The encoded invocation object.  `progress` stands for the fields that play no part in
      ownership: route, provider sequence, next attempt, cumulative usage and cost. */
  datatype Snapshot = Snapshot(terminal: Option<Response>, intent: Option<Response>,
                               owner: Option<Owner>, generation: nat, progress: nat)

  datatype Attempt = Attempt(effectKey: string, completed: bool, result: Option<nat>)

  datatype Row = Row(owner: Option<Owner>, leaseExpires: Option<nat>, generation: nat,
                     request: Snapshot, terminal: Option<Snapshot>, intent: Option<Snapshot>,
                     attempts: map<nat, Attempt>, ledger: map<string, nat>)

  const ACCEPTED := Row(None, None, 0, Snapshot(None, None, None, 0, 0), None, None, map[], map[])

  // ----- transactions -----

  predicate Holds(row: Row, owner: Owner, generation: nat) {
    row.owner == Some(owner) && row.generation == generation
  }

  /** SQL leaves `lease <= now` unknown, hence not satisfied, when the lease is null. */
  predicate Claimable(row: Row, owner: Owner, now: nat) {
    && row.terminal == None
    && (row.owner == None || row.owner == Some(owner)
        || (row.leaseExpires.Some? && row.leaseExpires.value <= now))
  }

  function ClaimTx(row: Row, owner: Owner, now: nat, lease: nat): (Row, Option<nat>) {
    if Claimable(row, owner, now) then
      (row.(owner := Some(owner), leaseExpires := Some(now + lease), generation := row.generation + 1),
       Some(row.generation + 1))
    else (row, None)
  }

  function ReleaseTx(row: Row, owner: Owner, generation: nat): Row {
    if Holds(row, owner, generation) then row.(owner := None, leaseExpires := None) else row
  }

  function RenewTx(row: Row, owner: Owner, generation: nat, now: nat, lease: nat): (Row, bool) {
    if Holds(row, owner, generation) && row.terminal == None then
      (row.(leaseExpires := Some(now + lease)), true)
    else (row, false)
  }

  /** A null owner in the snapshot compares with IS NULL, as the query builder renders it. */
  function CheckpointTx(row: Row, copy: Snapshot): (Row, bool) {
    if row.owner == copy.owner && row.generation == copy.generation then
      (row.(request := copy, terminal := if copy.terminal.Some? then Some(copy) else None), true)
    else (row, false)
  }

  function IntentTx(row: Row, copy: Snapshot): (Row, bool) {
    if copy.owner == None || copy.generation == 0 then (row, false)
    else if row.owner == copy.owner && row.generation == copy.generation && row.terminal == None
            && (row.intent == None || row.intent == Some(copy)) then
      (row.(request := copy, intent := Some(copy)), true)
    else (row, false)
  }

  /** `load`: the request payload, with terminal and intent taken from their own columns. */
  function LoadTx(row: Row): Snapshot {
    var loaded := row.request.(owner := row.owner, generation := row.generation);
    var cleared := if row.terminal == None then loaded.(terminal := None) else loaded;
    if row.intent.Some? then cleared.(intent := IntendedResponse(row.intent.value)) else cleared
  }

  function IntendedResponse(s: Snapshot): Option<Response> {
    if s.intent.Some? then s.intent else s.terminal
  }

  /** The optional fence of `record_provider_effect` and `record_usage`: checked only when both
      parts of the pair are given. */
  predicate PassesOptional(row: Row, owner: Option<Owner>, generation: Option<nat>) {
    owner.Some? && generation.Some? ==> Holds(row, owner.value, generation.value)
  }

  function ReserveEffectTx(row: Row, owner: Owner, generation: nat, number: nat, key: string): (Row, bool) {
    if !Holds(row, owner, generation) then (row, false)
    else if number in row.attempts then (row, true)
    else (row.(attempts := row.attempts[number := Attempt(key, false, None)]), true)
  }

  function RecordEffectTx(row: Row, owner: Option<Owner>, generation: Option<nat>,
                          number: nat, key: string, result: nat): (Row, bool)
  {
    if !PassesOptional(row, owner, generation) then (row, false)
    else (row.(attempts := row.attempts[number := Attempt(key, true, Some(result))]), true)
  }

  function RecordUsageTx(row: Row, owner: Option<Owner>, generation: Option<nat>,
                         key: string, cost: nat): (Row, bool)
  {
    if !PassesOptional(row, owner, generation) then (row, false)
    else if key in row.ledger then (row, true)
    else (row.(ledger := row.ledger[key := cost]), true)
  }

  // ----- the store -----

  class Store {
    var row: Row

    constructor ()
      ensures row == ACCEPTED
    {
      row := ACCEPTED;
    }

    method ClaimExecution(owner: Owner, now: nat, lease: nat) returns (generation: Option<nat>)
      modifies this
      ensures (row, generation) == ClaimTx(old(row), owner, now, lease)
      ensures generation.Some? ==> forall o, g :: Holds(row, o, g) <==> o == owner && g == generation.value
    {
      if row.terminal.Some? {
        return None;
      }
      if row.owner.Some? && row.owner.value != owner
         && (row.leaseExpires.None? || row.leaseExpires.value > now) {
        return None;
      }
      row := row.(owner := Some(owner), leaseExpires := Some(now + lease));
      row := row.(generation := row.generation + 1);
      return Some(row.generation);
    }

    method ReleaseExecution(owner: Owner, generation: nat)
      modifies this
      ensures row == ReleaseTx(old(row), owner, generation)
    {
      if row.owner == Some(owner) && row.generation == generation {
        row := row.(owner := None, leaseExpires := None);
      }
    }

    method RenewExecution(owner: Owner, generation: nat, now: nat, lease: nat) returns (renewed: bool)
      modifies this
      ensures (row, renewed) == RenewTx(old(row), owner, generation, now, lease)
    {
      if row.terminal.Some? || row.owner != Some(owner) || row.generation != generation {
        return false;
      }
      row := row.(leaseExpires := Some(now + lease));
      return true;
    }

    method Checkpoint(copy: Snapshot) returns (updated: bool)
      modifies this
      ensures (row, updated) == CheckpointTx(old(row), copy)
    {
      if row.owner != copy.owner || row.generation != copy.generation {
        return false;
      }
      row := row.(request := copy);
      row := row.(terminal := if copy.terminal.Some? then Some(copy) else None);
      return true;
    }

    method CheckpointTerminalIntent(copy: Snapshot) returns (updated: bool)
      modifies this
      ensures (row, updated) == IntentTx(old(row), copy)
    {
      if copy.owner == None || copy.generation == 0 {
        return false;
      }
      if row.owner != copy.owner || row.generation != copy.generation || row.terminal.Some? {
        return false;
      }
      if row.intent.Some? && row.intent.value != copy {
        return false;
      }
      row := row.(request := copy);
      row := row.(intent := Some(copy));
      return true;
    }

    method ReserveProviderEffect(owner: Owner, generation: nat, number: nat, key: string) returns (passed: bool)
      modifies this
      ensures (row, passed) == ReserveEffectTx(old(row), owner, generation, number, key)
    {
      if row.owner != Some(owner) || row.generation != generation {
        return false;
      }
      if number !in row.attempts {
        row := row.(attempts := row.attempts[number := Attempt(key, false, None)]);
      }
      return true;
    }

    method RecordProviderEffect(owner: Option<Owner>, generation: Option<nat>, number: nat,
                                key: string, result: nat) returns (passed: bool)
      modifies this
      ensures (row, passed) == RecordEffectTx(old(row), owner, generation, number, key, result)
    {
      if owner.Some? && generation.Some? {
        if row.owner != owner || row.generation != generation.value {
          return false;
        }
      }
      row := row.(attempts := row.attempts[number := Attempt(key, true, Some(result))]);
      return true;
    }

    method RecordUsage(owner: Option<Owner>, generation: Option<nat>, key: string, cost: nat)
      returns (passed: bool)
      modifies this
      ensures (row, passed) == RecordUsageTx(old(row), owner, generation, key, cost)
    {
      if owner.Some? && generation.Some? {
        if row.owner != owner || row.generation != generation.value {
          return false;
        }
      }
      if key !in row.ledger {
        row := row.(ledger := row.ledger[key := cost]);
      }
      return true;
    }
  }

  // ----- runs over arbitrary callers -----

  datatype Step =
    | Claim(owner: Owner, now: nat, lease: nat)
    | Renew(owner: Owner, generation: nat, now: nat, lease: nat)
    | Release(owner: Owner, generation: nat)
    | Checkpoint(copy: Snapshot)
    | Intend(copy: Snapshot)
    | ReserveEffect(owner: Owner, generation: nat, number: nat, key: string)
    | RecordEffect(optOwner: Option<Owner>, optGeneration: Option<nat>, number: nat, key: string, result: nat)
    | RecordUsage(optOwner: Option<Owner>, optGeneration: Option<nat>, key: string, cost: nat)

  function Next(row: Row, step: Step): Row {
    match step
    case Claim(o, now, lease) => ClaimTx(row, o, now, lease).0
    case Renew(o, g, now, lease) => RenewTx(row, o, g, now, lease).0
    case Release(o, g) => ReleaseTx(row, o, g)
    case Checkpoint(copy) => CheckpointTx(row, copy).0
    case Intend(copy) => IntentTx(row, copy).0
    case ReserveEffect(o, g, n, key) => ReserveEffectTx(row, o, g, n, key).0
    case RecordEffect(o, g, n, key, r) => RecordEffectTx(row, o, g, n, key, r).0
    case RecordUsage(o, g, key, cost) => RecordUsageTx(row, o, g, key, cost).0
  }

  function Run(row: Row, steps: seq<Step>): Row
    decreases |steps|
  {
    if steps == [] then row else Next(Run(row, steps[..|steps| - 1]), steps[|steps| - 1])
  }

  /** The generation granted by step i of a run, if that step is a successful claim. */
  function Granted(row: Row, steps: seq<Step>, i: nat): Option<nat>
    requires i < |steps|
  {
    if steps[i].Claim?
    then ClaimTx(Run(row, steps[..i]), steps[i].owner, steps[i].now, steps[i].lease).1
    else None
  }

  lemma {:induction false} GenerationGrows(row: Row, steps: seq<Step>, i: nat)
    requires i <= |steps|
    ensures Run(row, steps[..i]).generation <= Run(row, steps).generation
    decreases |steps|
  {
    if i == |steps| {
      assert steps[..i] == steps;
    } else {
      var front := steps[..|steps| - 1];
      GenerationGrows(row, front, i);
      assert front[..i] == steps[..i];
    }
  }

  /** Granted generations strictly increase along every run. */
  lemma GrantsIncrease(row: Row, steps: seq<Step>, i: nat, j: nat)
    requires i < j < |steps|
    requires Granted(row, steps, i).Some? && Granted(row, steps, j).Some?
    ensures Granted(row, steps, i).value < Granted(row, steps, j).value
  {
    var upTo := steps[..i + 1];
    assert upTo[..i] == steps[..i];
    assert Run(row, upTo) == Next(Run(row, steps[..i]), steps[i]);
    GenerationGrows(row, steps[..j], i + 1);
    assert steps[..j][..i + 1] == upTo;
  }

  /** At any instant one pair at most passes the fence. */
  lemma OnePairHolds(row: Row, o1: Owner, g1: nat, o2: Owner, g2: nat)
    requires Holds(row, o1, g1) && Holds(row, o2, g2)
    ensures o1 == o2 && g1 == g2
  {
  }

  /** What takes a pair's authority away: a later granted claim, or its own release. */
  ghost predicate LostIn(row: Row, steps: seq<Step>, owner: Owner, generation: nat) {
    exists i :: 0 <= i < |steps|
      && (steps[i] == Release(owner, generation) || Granted(row, steps, i).Some?)
  }

  lemma LostInLonger(row: Row, front: seq<Step>, last: Step, owner: Owner, generation: nat)
    ensures LostIn(row, front + [last], owner, generation) <==>
              || LostIn(row, front, owner, generation) || last == Release(owner, generation)
              || (last.Claim? && ClaimTx(Run(row, front), last.owner, last.now, last.lease).1.Some?)
  {
    var steps, n := front + [last], |front|;
    assert steps[..n] == front;
    forall i | 0 <= i < n
      ensures steps[i] == front[i] && Granted(row, steps, i) == Granted(row, front, i)
    {
      assert steps[..i] == front[..i];
    }
    if LostIn(row, front, owner, generation) {
      var i :| 0 <= i < n && (front[i] == Release(owner, generation) || Granted(row, front, i).Some?);
      assert steps[i] == front[i];
    }
    assert steps[n] == last;
  }

  lemma StepHolds(row: Row, step: Step, owner: Owner, generation: nat)
    requires generation <= row.generation
    ensures generation <= Next(row, step).generation
    ensures Holds(Next(row, step), owner, generation) <==>
              && Holds(row, owner, generation) && step != Release(owner, generation)
              && !(step.Claim? && ClaimTx(row, step.owner, step.now, step.lease).1.Some?)
  {
  }

  /** From the moment a pair holds the fence it keeps it exactly until a later claim is granted
      or the pair itself is released; nothing else takes it away or gives it back. */
  lemma {:induction false} HoldsUntilLost(row: Row, steps: seq<Step>, owner: Owner, generation: nat)
    requires Holds(row, owner, generation)
    ensures Holds(Run(row, steps), owner, generation) <==> !LostIn(row, steps, owner, generation)
    ensures generation <= Run(row, steps).generation
    decreases |steps|
  {
    if steps != [] {
      var n := |steps| - 1;
      var front := steps[..n];
      HoldsUntilLost(row, front, owner, generation);
      assert steps == front + [steps[n]];
      LostInLonger(row, front, steps[n], owner, generation);
      StepHolds(Run(row, front), steps[n], owner, generation);
    }
  }

  /** A pair that some earlier claim granted and that no longer holds never holds again. */
  lemma {:induction false} StaleForever(row: Row, steps: seq<Step>, owner: Owner, generation: nat)
    requires generation <= row.generation && !Holds(row, owner, generation)
    ensures !Holds(Run(row, steps), owner, generation)
    ensures generation <= Run(row, steps).generation
    decreases |steps|
  {
    if steps != [] {
      StaleForever(row, steps[..|steps| - 1], owner, generation);
    }
  }

  /** Every fenced write of a pair that does not hold is refused and changes nothing. */
  lemma StaleWritesRefused(row: Row, owner: Owner, generation: nat, copy: Snapshot,
                           number: nat, key: string, value: nat, now: nat, lease: nat)
    requires !Holds(row, owner, generation)
    requires copy.owner == Some(owner) && copy.generation == generation
    ensures CheckpointTx(row, copy) == (row, false)
    ensures IntentTx(row, copy) == (row, false)
    ensures ReserveEffectTx(row, owner, generation, number, key) == (row, false)
    ensures RecordEffectTx(row, Some(owner), Some(generation), number, key, value) == (row, false)
    ensures RecordUsageTx(row, Some(owner), Some(generation), key, value) == (row, false)
    ensures RenewTx(row, owner, generation, now, lease) == (row, false)
    ensures ReleaseTx(row, owner, generation) == row
  {
  }

  /** The three facts together over a whole run: take the pair granted by step i.  If a later
      step of the run grants another claim, then in every continuation the old pair is refused
      by every fenced write. */
  lemma SupersededForever(steps: seq<Step>, i: nat, j: nat, later: seq<Step>, copy: Snapshot,
                          number: nat, key: string, value: nat)
    requires i < j < |steps|
    requires Granted(ACCEPTED, steps, i).Some? && Granted(ACCEPTED, steps, j).Some?
    requires copy.owner == Some(steps[i].owner) && copy.generation == Granted(ACCEPTED, steps, i).value
    ensures var row := Run(ACCEPTED, steps + later);
            && CheckpointTx(row, copy) == (row, false)
            && IntentTx(row, copy) == (row, false)
            && ReserveEffectTx(row, copy.owner.value, copy.generation, number, key) == (row, false)
            && RecordEffectTx(row, copy.owner, Some(copy.generation), number, key, value) == (row, false)
            && RecordUsageTx(row, copy.owner, Some(copy.generation), key, value) == (row, false)
  {
    GrantsIncrease(ACCEPTED, steps, i, j);
    var upTo := steps[..j + 1];
    assert upTo[..j] == steps[..j];
    var row := Run(ACCEPTED, upTo);
    assert row == Next(Run(ACCEPTED, steps[..j]), steps[j]);
    assert !Holds(row, copy.owner.value, copy.generation);
    var rest := steps[j + 1..] + later;
    assert steps + later == upTo + rest;
    RunSplit(ACCEPTED, upTo, rest);
    StaleForever(row, rest, copy.owner.value, copy.generation);
    StaleWritesRefused(Run(row, rest), copy.owner.value, copy.generation, copy, number, key, value, 0, 0);
  }

  lemma {:induction false} RunSplit(row: Row, a: seq<Step>, b: seq<Step>)
    ensures Run(row, a + b) == Run(Run(row, a), b)
    decreases |b|
  {
    if b == [] {
      assert a + b == a;
    } else {
      assert (a + b)[..|a + b| - 1] == a + b[..|b| - 1];
      RunSplit(row, a, b[..|b| - 1]);
    }
  }

  // ----- what a lease is good for -----

  /** Step i gave owner o a lease up to the given time: a granted claim or an effective renewal
      at t with lease d, where t + d is that time. */
  ghost predicate LeasedBy(steps: seq<Step>, i: nat, o: Owner, until: nat)
    requires i < |steps|
  {
    match steps[i]
    case Claim(p, now, lease) => p == o && now + lease == until && Granted(ACCEPTED, steps, i).Some?
    case Renew(p, g, now, lease) =>
      p == o && now + lease == until && RenewTx(Run(ACCEPTED, steps[..i]), p, g, now, lease).1
    case _ => false
  }

  /** Judged by its own owner and time alone, the step neither ends nor moves the lease of o: o
      does not claim, renew or release, and nobody claims once the time is up. */
  predicate Undisturbed(step: Step, o: Owner, until: nat) {
    match step
    case Claim(p, now, _) => p != o && now < until
    case Renew(p, _, _, _) => p != o
    case Release(p, _) => p != o
    case _ => true
  }

  ghost predicate Leased(row: Row, o: Owner, until: nat) {
    row.owner == Some(o) && row.leaseExpires == Some(until)
  }

  lemma UndisturbedStep(row: Row, step: Step, o: Owner, until: nat)
    requires Leased(row, o, until) && Undisturbed(step, o, until)
    ensures Leased(Next(row, step), o, until)
  {
  }

  lemma {:induction false} UndisturbedRun(row: Row, steps: seq<Step>, o: Owner, until: nat)
    requires Leased(row, o, until) && forall k :: 0 <= k < |steps| ==> Undisturbed(steps[k], o, until)
    ensures Leased(Run(row, steps), o, until)
    decreases |steps|
  {
    if steps != [] {
      UndisturbedRun(row, steps[..|steps| - 1], o, until);
      UndisturbedStep(Run(row, steps[..|steps| - 1]), steps[|steps| - 1], o, until);
    }
  }

  lemma LeaseStands(steps: seq<Step>, i: nat, o: Owner, until: nat)
    requires i < |steps| && LeasedBy(steps, i, o, until)
    requires forall k :: i < k < |steps| ==> Undisturbed(steps[k], o, until)
    ensures Leased(Run(ACCEPTED, steps), o, until)
  {
    var upTo, rest := steps[..i + 1], steps[i + 1..];
    assert upTo[..i] == steps[..i];
    assert Run(ACCEPTED, upTo) == Next(Run(ACCEPTED, steps[..i]), steps[i]);
    assert steps == upTo + rest;
    UndisturbedRun(Run(ACCEPTED, upTo), rest, o, until);
    RunSplit(ACCEPTED, upTo, rest);
  }

  /** A lease taken or renewed at t for d keeps every other owner out below t + d and no longer:
      from then on the next claim is granted, under the next generation, unless a terminal
      payload is stored.  Its holder may claim again at any time. */
  lemma LeaseExcludes(steps: seq<Step>, i: nat, o: Owner, until: nat, p: Owner, now: nat, lease: nat)
    requires i < |steps| && LeasedBy(steps, i, o, until)
    requires forall k :: i < k < |steps| ==> Undisturbed(steps[k], o, until)
    ensures var row := Run(ACCEPTED, steps);
            var (after, granted) := ClaimTx(row, p, now, lease);
            if row.terminal.Some? || (p != o && now < until) then after == row && granted == None
            else granted == Some(row.generation + 1) && Holds(after, p, row.generation + 1) && Leased(after, p, now + lease)
  {
    LeaseStands(steps, i, o, until);
  }

  /** Nobody is kept out of a row that was never claimed or whose holder released it. */
  lemma FreeRowIsGranted(row: Row, o: Owner, g: nat, p: Owner, now: nat, lease: nat)
    requires Holds(row, o, g) && row.terminal == None
    ensures ClaimTx(ReleaseTx(row, o, g), p, now, lease).1 == Some(g + 1)
    ensures ClaimTx(ACCEPTED, p, now, lease).1 == Some(1)
  {
  }

  /** The holding pair is let through by every fenced write, and what it wrote is there: a
      checkpoint and a first intent are what the next load returns, a new attempt and a new usage
      event are stored, a recorded result completes its attempt, a renewal moves the lease. */
  lemma HolderWrites(row: Row, o: Owner, g: nat, copy: Snapshot, number: nat, key: string, value: nat, now: nat, lease: nat)
    requires Holds(row, o, g) && g > 0 && row.terminal == None && copy.owner == Some(o) && copy.generation == g
    ensures CheckpointTx(row, copy).1 && (row.intent == None ==> LoadTx(CheckpointTx(row, copy).0) == copy)
    ensures row.intent == None && copy.intent.Some? ==>
              IntentTx(row, copy).1 && LoadTx(IntentTx(row, copy).0) == copy.(terminal := None)
    ensures RenewTx(row, o, g, now, lease).1 && Leased(RenewTx(row, o, g, now, lease).0, o, now + lease)
    ensures var (after, ok) := ReserveEffectTx(row, o, g, number, key);
            ok && number in after.attempts && (number !in row.attempts ==> after.attempts[number] == Attempt(key, false, None))
    ensures var (after, ok) := RecordEffectTx(row, Some(o), Some(g), number, key, value);
            ok && number in after.attempts && after.attempts[number] == Attempt(key, true, Some(value))
    ensures var (after, ok) := RecordUsageTx(row, Some(o), Some(g), key, value);
            ok && key in after.ledger && after.ledger[key] == if key in row.ledger then row.ledger[key] else value
  {
  }

  /** A checkpoint of the holding pair replaces the whole payload: a terminal copy commits itself,
      and one that is not terminal takes a committed payload away again. */
  lemma CheckpointReplaces(row: Row, copy: Snapshot)
    requires copy.owner.Some? && Holds(row, copy.owner.value, copy.generation)
    ensures var (after, ok) := CheckpointTx(row, copy);
            && ok && after.request == copy && (after.terminal.Some? <==> copy.terminal.Some?)
            && (after.terminal.Some? ==> after.terminal.value == copy)
            && after == row.(request := after.request, terminal := after.terminal)
  {
  }

  /** A write that does not present both halves of a pair is not fenced at all. */
  lemma UnfencedWrites(row: Row, o: Option<Owner>, g: Option<nat>, number: nat, key: string, value: nat)
    requires o.None? || g.None?
    ensures RecordEffectTx(row, o, g, number, key, value) ==
            (row.(attempts := row.attempts[number := Attempt(key, true, Some(value))]), true)
    ensures RecordUsageTx(row, o, g, key, value).1 && key in RecordUsageTx(row, o, g, key, value).0.ledger
  {
  }
}
