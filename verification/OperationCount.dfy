/** Provider operations over all restarts and recoveries of one invocation: the effect keys an
    invocation can use, the attempt numbers they carry, and a bound on the operations started
    through the effect boundary. */
module OperationCount {
  import opened Options
  import opened Provider
  import opened AttemptLoop
  import opened AttemptSpend
  import Amounts
  import opened Finite
  import opened Keys
  import Effect = ProviderEffect

  // ----- attempt numbers -----

  /** A primary call of attempt k, or repair r (from 0) of attempt k. */
  datatype Slot = Primary(k: nat) | Repair(k: nat, r: nat)

  predicate Used(attempts: nat, repairs: nat, s: Slot) {
    1 <= s.k <= attempts && (s.Repair? ==> s.r < repairs)
  }

  function Number(s: Slot): nat {
    match s
    case Primary(k) => k
    case Repair(k, r) => RepairNumber(k, r)
  }

  ghost predicate NumbersDistinct(attempts: nat, repairs: nat) {
    forall s, t :: Used(attempts, repairs, s) && Used(attempts, repairs, t) && Number(s) == Number(t) ==> s == t
  }

  /** The attempt numbers written to the attempt table never collide exactly when there are no
      repairs, or at most 100 attempts of at most 100 repairs each (a single attempt may have
      any number of repairs). */
  lemma NumbersDistinctIff(attempts: nat, repairs: nat)
    ensures NumbersDistinct(attempts, repairs) <==>
              attempts == 0 || repairs == 0 || (attempts <= 100 && (repairs <= 100 || attempts == 1))
  {
    if attempts > 100 && repairs > 0 {
      assert Used(attempts, repairs, Primary(101)) && Used(attempts, repairs, Repair(1, 0));
      assert Number(Primary(101)) == Number(Repair(1, 0));
    } else if attempts >= 2 && repairs > 100 {
      assert Used(attempts, repairs, Repair(1, 100)) && Used(attempts, repairs, Repair(2, 0));
      assert Number(Repair(1, 100)) == Number(Repair(2, 0));
    }
  }

  // ----- effect keys as strings -----

  function KeyString(invocation: string, key: EffectKey): string {
    match key
    case PrimaryKey(n) => invocation + ":provider:" + Amounts.Decimal(n)
    case RepairKey(n) => invocation + ":repair:" + Amounts.Decimal(n)
  }

  /** The attempt number read back from an effect key is the one it was made from, and keys of
      one invocation are equal only if kind and number are. */
  lemma KeyStringsAreFaithful(invocation: string, a: EffectKey, b: EffectKey)
    ensures AfterLastColon(KeyString(invocation, a)) == Amounts.Decimal(a.number)
    ensures Amounts.IntOf(Amounts.Decimal(a.number)) == a.number
    ensures KeyString(invocation, a) == KeyString(invocation, b) ==> a == b
  {
    KeyNumber(invocation, a);
    KeyNumber(invocation, b);
    if KeyString(invocation, a) == KeyString(invocation, b) {
      assert Amounts.Decimal(a.number) == Amounts.Decimal(b.number);
      assert a.PrimaryKey? == b.PrimaryKey? by {
        assert |KeyString(invocation, a)| == |KeyString(invocation, b)|;
      }
    }
  }

  lemma KeyNumber(invocation: string, a: EffectKey)
    ensures AfterLastColon(KeyString(invocation, a)) == Amounts.Decimal(a.number)
    ensures Amounts.IntOf(Amounts.Decimal(a.number)) == a.number
  {
    Amounts.IntOfDecimal(a.number);
    var prefix := invocation + if a.PrimaryKey? then ":provider" else ":repair";
    assert KeyString(invocation, a) == prefix + ":" + Amounts.Decimal(a.number);
    AfterColonDigits(prefix, Amounts.Decimal(a.number));
  }

  // ----- all effects of one invocation -----

  datatype KeyedStep = KeyedStep(key: EffectKey, step: Effect.Step)

  /** The effect rows and callers of each key, and the log of operations started. */
  datatype Gateway = Gateway(worlds: map<EffectKey, Effect.World>, started: seq<EffectKey>)

  function WorldOf(g: Gateway, key: EffectKey): Effect.World {
    if key in g.worlds then g.worlds[key] else Effect.INIT
  }

  function Next(g: Gateway, s: KeyedStep): Gateway {
    var before := WorldOf(g, s.key);
    var after := Effect.Next(before, s.step);
    Gateway(g.worlds[s.key := after],
            if after.starts > before.starts then g.started + [s.key] else g.started)
  }

  function Run(steps: seq<KeyedStep>): Gateway {
    if steps == [] then Gateway(map[], []) else Next(Run(steps[..|steps| - 1]), steps[|steps| - 1])
  }

  ghost predicate Inv(g: Gateway) {
    && (forall key :: key in g.worlds ==> Effect.Inv(g.worlds[key]))
    && (forall key :: key in g.started <==> WorldOf(g, key).starts == 1)
    && Distinct(g.started)
  }

  lemma NextKeepsInv(g: Gateway, s: KeyedStep)
    requires Inv(g)
    ensures Inv(Next(g, s))
  {
    var before := WorldOf(g, s.key);
    Effect.NextKeepsInv(before, s.step);
    var h := Next(g, s);
    forall key
      ensures key in h.started <==> WorldOf(h, key).starts == 1
    {
      assert key in g.started <==> WorldOf(g, key).starts == 1;
    }
  }

  lemma {:induction false} RunKeepsInv(steps: seq<KeyedStep>)
    ensures Inv(Run(steps))
    ensures forall key :: key in Run(steps).started ==> exists i :: 0 <= i < |steps| && steps[i].key == key
  {
    if steps != [] {
      var front := steps[..|steps| - 1];
      RunKeepsInv(front);
      NextKeepsInv(Run(front), steps[|steps| - 1]);
      forall key | key in Run(steps).started
        ensures exists i :: 0 <= i < |steps| && steps[i].key == key
      {
        if key in Run(front).started {
          var i :| 0 <= i < |front| && front[i].key == key;
          assert steps[i].key == key;
        } else {
          assert steps[|steps| - 1].key == key;
        }
      }
    }
  }

  // ----- counting -----

  ghost function PrimaryKeys(n: nat): (keys: set<EffectKey>)
    ensures |keys| == n
    ensures forall key :: key in keys <==> key.PrimaryKey? && 1 <= key.number <= n
  {
    if n == 0 then {} else PrimaryKeys(n - 1) + {PrimaryKey(n)}
  }

  ghost function RepairKeys(k: nat, repairs: nat): (keys: set<EffectKey>)
    ensures |keys| <= repairs
    ensures forall r: nat :: r < repairs ==> RepairKey(RepairNumber(k, r)) in keys
  {
    if repairs == 0 then {} else RepairKeys(k, repairs - 1) + {RepairKey(RepairNumber(k, repairs - 1))}
  }

  ghost function AllRepairKeys(attempts: nat, repairs: nat): (keys: set<EffectKey>)
    ensures |keys| <= attempts * repairs
    ensures forall k: nat, r: nat :: 1 <= k <= attempts && r < repairs ==> RepairKey(RepairNumber(k, r)) in keys
  {
    if attempts == 0 then {} else AllRepairKeys(attempts - 1, repairs) + RepairKeys(attempts, repairs)
  }

  lemma KeysCovered(req: Request, key: EffectKey)
    requires KeyInRange(req, key)
    ensures key in PrimaryKeys(req.maxProviderAttempts) + AllRepairKeys(req.maxProviderAttempts, req.repairAttempts)
  {
    if key.RepairKey? {
      var k, r :| RepairOf(req, k, r, key.number);
    }
  }

  lemma Distribute(a: nat, r: nat)
    ensures a + a * r == a * (1 + r)
  {
  }

  /** There are only so many keys in range. */
  lemma KeysBounded(req: Request, keys: seq<EffectKey>)
    requires Distinct(keys) && forall key :: key in keys ==> KeyInRange(req, key)
    ensures |keys| <= req.maxProviderAttempts * (1 + req.repairAttempts)
  {
    var primary := PrimaryKeys(req.maxProviderAttempts);
    var repair := AllRepairKeys(req.maxProviderAttempts, req.repairAttempts);
    forall key | key in keys
      ensures key in primary + repair
    {
      KeysCovered(req, key);
    }
    DistinctWithin(keys, primary + repair);
    UnionSize(primary, repair);
    Distribute(req.maxProviderAttempts, req.repairAttempts);
  }

  /** However often the invocation is restarted and recovered, and however its effect calls
      interleave and crash, at most max_provider_attempts × (1 + repair_attempts) provider
      operations ever start, each under a key of its own. */
  lemma OperationsBounded(req: Request, steps: seq<KeyedStep>)
    requires forall i :: 0 <= i < |steps| ==> KeyInRange(req, steps[i].key)
    ensures Distinct(Run(steps).started)
    ensures |Run(steps).started| <= req.maxProviderAttempts * (1 + req.repairAttempts)
  {
    RunKeepsInv(steps);
    var started := Run(steps).started;
    forall key | key in started
      ensures KeyInRange(req, key)
    {
      var i :| 0 <= i < |steps| && steps[i].key == key;
    }
    KeysBounded(req, started);
  }

  /** One worker's pass through the attempt loop, from wherever the invocation was recovered. */
  datatype Pass = Pass(env: Environment, candidates: seq<Candidate>, next: nat, recovered: nat, last: Option<Failure>)

  function Charges(req: Request, p: Pass): seq<Charge>
    requires p.next >= 1
  {
    AttemptsFrom(p.env, req, p.candidates, p.next, p.recovered, p.last, []).charges
  }

  /** The key belongs to a call that one of the passes makes. */
  ghost predicate Charged(req: Request, passes: seq<Pass>, key: EffectKey) {
    exists p, c :: p in passes && p.next >= 1 && c in Charges(req, p) && c.key == key
  }

  /** For any number of passes of one request, whatever each of them recovers, is offered and
      gets from its providers: however their effect calls interleave and crash, the operations
      started stay within the bound. */
  lemma PassesBounded(req: Request, passes: seq<Pass>, steps: seq<KeyedStep>)
    requires forall i :: 0 <= i < |steps| ==> Charged(req, passes, steps[i].key)
    ensures Distinct(Run(steps).started)
    ensures |Run(steps).started| <= req.maxProviderAttempts * (1 + req.repairAttempts)
  {
    forall i | 0 <= i < |steps|
      ensures KeyInRange(req, steps[i].key)
    {
      assert Charged(req, passes, steps[i].key);
      var p, c :| p in passes && p.next >= 1 && c in Charges(req, p) && c.key == steps[i].key;
      SuccessWithinLimit(p.env, req, p.candidates, p.next, p.recovered, p.last);
    }
    OperationsBounded(req, steps);
  }
}
