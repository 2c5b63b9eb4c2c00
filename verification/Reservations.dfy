/** Budget reservations of the in-memory Gateway store: which runs keep every tenant's and
    workspace's counted reservations within its hard limit. */
module Reservations {
  import opened Options
  import opened Totals

  datatype Reservation = Reservation(tenant: string, workspace: string, amount: nat, state: string,
                                     expiresAt: nat, actual: Option<nat>)

  type Book = map<string, Reservation>

  /** Reservations expire five minutes after admission. */
  const TTL := 300

  predicate Counted(r: Reservation) {
    r.state == "pending" || r.state == "committed" || r.state == "usage_pending"
  }

  /** A scope is a tenant, or one workspace of a tenant. */
  datatype Scope = Tenant(tenant: string) | Workspace(tenant: string, workspace: string)

  predicate InScope(r: Reservation, s: Scope) {
    r.tenant == s.tenant && (s.Workspace? ==> r.workspace == s.workspace)
  }

  ghost function CountedIn(b: Book, s: Scope): map<string, nat> {
    map id | id in b && Counted(b[id]) && InScope(b[id], s) :: b[id].amount
  }

  ghost function Used(b: Book, s: Scope): nat {
    Total(CountedIn(b, s))
  }

  datatype Limits = Limits(tenant: nat, workspace: nat)

  function LimitOf(limits: Limits, s: Scope): nat {
    if s.Tenant? then limits.tenant else limits.workspace
  }

  ghost predicate WithinLimits(b: Book, limits: Limits) {
    forall s :: Used(b, s) <= LimitOf(limits, s)
  }

  // ----- operations -----

  datatype Admission = Reserved(reservation: Reservation) | TenantExceeded | WorkspaceExceeded

  ghost function ReserveSpec(b: Book, limits: Limits, id: string, tenant: string, workspace: string,
                             amount: nat, now: nat): (Book, Admission)
  {
    if id in b then (b, Reserved(b[id]))
    else if Used(b, Tenant(tenant)) + amount > limits.tenant then (b, TenantExceeded)
    else if Used(b, Workspace(tenant, workspace)) + amount > limits.workspace then (b, WorkspaceExceeded)
    else
      var r := Reservation(tenant, workspace, amount, "pending", now + TTL, None);
      (b[id := r], Reserved(r))
  }

  /** `reconcile` (final) and the reservation part of `record_usage`; an unknown id raises. */
  function SettleSpec(b: Book, id: string, actual: nat, final: bool): Book {
    if id in b
    then b[id := b[id].(actual := Some(actual), state := if final then "committed" else "usage_pending")]
    else b
  }

  function ReleaseSpec(b: Book, id: string, state: string): Book {
    if id in b && b[id].state == "pending" then b[id := b[id].(state := state)] else b
  }

  predicate Expired(r: Reservation, now: nat) {
    r.state == "pending" && r.expiresAt <= now
  }

  function ReleaseExpiredSpec(b: Book, now: nat): Book {
    map id | id in b :: if Expired(b[id], now) then b[id].(state := "released") else b[id]
  }

  class ReservationStore {
    var reservations: Book
    const limits: Limits

    /** A missing or zero workspace limit falls back to the tenant limit. */
    constructor (tenantLimit: nat, workspaceLimit: Option<nat>)
      ensures reservations == map[]
      ensures limits.tenant == tenantLimit
      ensures limits.workspace ==
              if workspaceLimit.Some? && workspaceLimit.value > 0 then workspaceLimit.value else tenantLimit
    {
      reservations := map[];
      limits := Limits(tenantLimit, if workspaceLimit.Some? && workspaceLimit.value > 0
                                    then workspaceLimit.value else tenantLimit);
    }

    method SumUsed(s: Scope) returns (used: nat)
      ensures used == Used(reservations, s)
    {
      var b := reservations;
      var todo := b.Keys;
      used := 0;
      ghost var seen: map<string, nat> := map[];
      while todo != {}
        invariant todo <= b.Keys
        invariant seen == map id | id in CountedIn(b, s) && id !in todo :: CountedIn(b, s)[id]
        invariant used == Total(seen)
        decreases todo
      {
        var id :| id in todo;
        todo := todo - {id};
        if Counted(b[id]) && InScope(b[id], s) {
          used := used + b[id].amount;
          TotalUpdate(seen, id, b[id].amount);
          seen := seen[id := b[id].amount];
        }
      }
      assert seen == CountedIn(b, s);
    }

    method Reserve(id: string, tenant: string, workspace: string, amount: nat, now: nat)
      returns (admission: Admission)
      modifies this
      ensures (reservations, admission) ==
              ReserveSpec(old(reservations), limits, id, tenant, workspace, amount, now)
    {
      if id in reservations {
        return Reserved(reservations[id]);
      }
      var tenantUsed := SumUsed(Tenant(tenant));
      var workspaceUsed := SumUsed(Workspace(tenant, workspace));
      if tenantUsed + amount > limits.tenant {
        return TenantExceeded;
      }
      if workspaceUsed + amount > limits.workspace {
        return WorkspaceExceeded;
      }
      var r := Reservation(tenant, workspace, amount, "pending", now + TTL, None);
      reservations := reservations[id := r];
      return Reserved(r);
    }

    method Settle(id: string, actual: nat, final: bool) returns (known: bool)
      modifies this
      ensures known == (id in old(reservations))
      ensures reservations == SettleSpec(old(reservations), id, actual, final)
    {
      if id !in reservations {
        return false;
      }
      var r := reservations[id].(actual := Some(actual));
      r := r.(state := if final then "committed" else "usage_pending");
      reservations := reservations[id := r];
      return true;
    }

    method Release(id: string, state: string)
      modifies this
      ensures reservations == ReleaseSpec(old(reservations), id, state)
    {
      if id in reservations && reservations[id].state == "pending" {
        reservations := reservations[id := reservations[id].(state := state)];
      }
    }

    method ReleaseExpired(now: nat) returns (released: set<string>)
      modifies this
      ensures reservations == ReleaseExpiredSpec(old(reservations), now)
      ensures released == set id | id in old(reservations) && Expired(old(reservations)[id], now)
    {
      var todo := reservations.Keys;
      released := {};
      while todo != {}
        invariant todo <= old(reservations).Keys
        invariant reservations == map id | id in old(reservations) ::
                    if id in todo then old(reservations)[id]
                    else ReleaseExpiredSpec(old(reservations), now)[id]
        invariant released == set id | id in old(reservations) && id !in todo && Expired(old(reservations)[id], now)
        decreases todo
      {
        var id :| id in todo;
        todo := todo - {id};
        if Expired(reservations[id], now) {
          reservations := reservations[id := reservations[id].(state := "released")];
          released := released + {id};
        }
      }
    }
  }

  // ----- what each operation does to a scope's use -----

  lemma CountedUpdate(b: Book, id: string, r: Reservation, s: Scope)
    ensures CountedIn(b[id := r], s) ==
            if Counted(r) && InScope(r, s) then CountedIn(b, s)[id := r.amount] else CountedIn(b, s) - {id}
  {
  }

  lemma UsedUpdate(b: Book, id: string, r: Reservation, s: Scope)
    ensures Used(b[id := r], s) ==
              Used(b, s)
              - (if id in b && Counted(b[id]) && InScope(b[id], s) then b[id].amount else 0)
              + (if Counted(r) && InScope(r, s) then r.amount else 0)
  {
    CountedUpdate(b, id, r, s);
    TotalUpdate(CountedIn(b, s), id, r.amount);
  }

  lemma ReserveKeeps(b: Book, limits: Limits, id: string, tenant: string, workspace: string, amount: nat, now: nat)
    requires WithinLimits(b, limits)
    ensures WithinLimits(ReserveSpec(b, limits, id, tenant, workspace, amount, now).0, limits)
  {
    var after := ReserveSpec(b, limits, id, tenant, workspace, amount, now).0;
    forall s
      ensures Used(after, s) <= LimitOf(limits, s)
    {
      assert Used(b, s) <= LimitOf(limits, s);
      if id !in b {
        UsedUpdate(b, id, Reservation(tenant, workspace, amount, "pending", now + TTL, None), s);
      }
    }
  }

  lemma ReleaseKeeps(b: Book, limits: Limits, id: string, state: string)
    requires WithinLimits(b, limits)
    ensures WithinLimits(ReleaseSpec(b, id, state), limits)
  {
    forall s
      ensures Used(ReleaseSpec(b, id, state), s) <= LimitOf(limits, s)
    {
      assert Used(b, s) <= LimitOf(limits, s);
      if id in b && b[id].state == "pending" {
        UsedUpdate(b, id, b[id].(state := state), s);
      }
    }
  }

  lemma ReleaseExpiredKeeps(b: Book, limits: Limits, now: nat)
    requires WithinLimits(b, limits)
    ensures WithinLimits(ReleaseExpiredSpec(b, now), limits)
  {
    forall s
      ensures Used(ReleaseExpiredSpec(b, now), s) <= LimitOf(limits, s)
    {
      assert Used(b, s) <= LimitOf(limits, s);
      TotalMonotone(CountedIn(ReleaseExpiredSpec(b, now), s), CountedIn(b, s));
    }
  }

  predicate Headroom(limits: Limits, r: Reservation, tenantUsed: nat, workspaceUsed: nat) {
    tenantUsed + r.amount <= limits.tenant && workspaceUsed + r.amount <= limits.workspace
  }

  /** Settling keeps the limits exactly when the reservation is still counted, or there is room
      to count it again: settling a released or expired reservation is what can break them. */
  lemma SettleKeepsIff(b: Book, limits: Limits, id: string, actual: nat, final: bool)
    requires WithinLimits(b, limits) && id in b
    ensures WithinLimits(SettleSpec(b, id, actual, final), limits) <==>
              || Counted(b[id])
              || Headroom(limits, b[id], Used(b, Tenant(b[id].tenant)),
                          Used(b, Workspace(b[id].tenant, b[id].workspace)))
  {
    var r := b[id].(actual := Some(actual), state := if final then "committed" else "usage_pending");
    var after := SettleSpec(b, id, actual, final);
    var tenant, workspace := Tenant(r.tenant), Workspace(r.tenant, r.workspace);
    UsedUpdate(b, id, r, tenant);
    UsedUpdate(b, id, r, workspace);
    if Counted(b[id]) || Headroom(limits, r, Used(b, tenant), Used(b, workspace)) {
      forall s
        ensures Used(after, s) <= LimitOf(limits, s)
      {
        assert Used(b, s) <= LimitOf(limits, s);
        UsedUpdate(b, id, r, s);
      }
    } else {
      assert Used(after, tenant) > LimitOf(limits, tenant) || Used(after, workspace) > LimitOf(limits, workspace);
    }
  }

  // ----- runs -----

  datatype Step =
    | Reserve(id: string, tenant: string, workspace: string, amount: nat, now: nat)
    | Settle(id: string, actual: nat, final: bool)
    | Release(id: string, state: string)
    | ReleaseExpired(now: nat)

  ghost function Next(b: Book, limits: Limits, step: Step): Book {
    match step
    case Reserve(id, t, w, amount, now) => ReserveSpec(b, limits, id, t, w, amount, now).0
    case Settle(id, actual, final) => SettleSpec(b, id, actual, final)
    case Release(id, state) => ReleaseSpec(b, id, state)
    case ReleaseExpired(now) => ReleaseExpiredSpec(b, now)
  }

  ghost function Run(limits: Limits, steps: seq<Step>): Book {
    if steps == [] then map[] else Next(Run(limits, steps[..|steps| - 1]), limits, steps[|steps| - 1])
  }

  /** The step settles a reservation that has stopped counting and no longer fits. */
  ghost predicate OverSettles(b: Book, limits: Limits, step: Step) {
    && step.Settle? && step.id in b && !Counted(b[step.id])
    && !Headroom(limits, b[step.id], Used(b, Tenant(b[step.id].tenant)),
                 Used(b, Workspace(b[step.id].tenant, b[step.id].workspace)))
  }

  /** Every other step keeps every limit, and such a step never does. */
  lemma NextKeepsIff(b: Book, limits: Limits, step: Step)
    requires WithinLimits(b, limits)
    ensures WithinLimits(Next(b, limits, step), limits) <==> !OverSettles(b, limits, step)
  {
    match step
    case Reserve(id, t, w, amount, now) => ReserveKeeps(b, limits, id, t, w, amount, now);
    case Settle(id, actual, final) =>
      if id in b {
        SettleKeepsIff(b, limits, id, actual, final);
      }
    case Release(id, state) => ReleaseKeeps(b, limits, id, state);
    case ReleaseExpired(now) => ReleaseExpiredKeeps(b, limits, now);
  }

  ghost predicate WithinAt(limits: Limits, steps: seq<Step>, i: nat)
    requires i <= |steps|
  {
    WithinLimits(Run(limits, steps[..i]), limits)
  }

  ghost predicate OverSettlesAt(limits: Limits, steps: seq<Step>, i: nat)
    requires i < |steps|
  {
    OverSettles(Run(limits, steps[..i]), limits, steps[i])
  }

  lemma WithinNext(limits: Limits, steps: seq<Step>, i: nat)
    requires i < |steps| && WithinAt(limits, steps, i)
    ensures WithinAt(limits, steps, i + 1) <==> !OverSettlesAt(limits, steps, i)
  {
    assert steps[..i + 1][..i] == steps[..i];
    NextKeepsIff(Run(limits, steps[..i]), limits, steps[i]);
  }

  lemma WithinFirst(limits: Limits, steps: seq<Step>)
    ensures WithinAt(limits, steps, 0)
  {
    assert steps[..0] == [];
    forall s
      ensures Used(map[], s) == 0
    {
      assert CountedIn(map[], s) == map[];
    }
  }

  lemma {:induction false} WithinUpTo(limits: Limits, steps: seq<Step>, n: nat)
    requires n <= |steps| && forall i :: 0 <= i < n ==> !OverSettlesAt(limits, steps, i)
    ensures WithinAt(limits, steps, n)
  {
    if n == 0 {
      WithinFirst(limits, steps);
    } else {
      WithinUpTo(limits, steps, n - 1);
      WithinNext(limits, steps, n - 1);
    }
  }

  /** A run keeps every tenant and every workspace within its limit throughout if and only if
      it never settles a reservation that has stopped counting and no longer fits. */
  lemma RunWithinLimitsIff(limits: Limits, steps: seq<Step>)
    ensures (forall i :: 0 <= i <= |steps| ==> WithinAt(limits, steps, i)) <==>
            (forall i :: 0 <= i < |steps| ==> !OverSettlesAt(limits, steps, i))
  {
    if forall i :: 0 <= i < |steps| ==> !OverSettlesAt(limits, steps, i) {
      forall n | 0 <= n <= |steps|
        ensures WithinAt(limits, steps, n)
      {
        WithinUpTo(limits, steps, n);
      }
    }
    if forall i :: 0 <= i <= |steps| ==> WithinAt(limits, steps, i) {
      forall i | 0 <= i < |steps|
        ensures !OverSettlesAt(limits, steps, i)
      {
        assert WithinAt(limits, steps, i) && WithinAt(limits, steps, i + 1);
        WithinNext(limits, steps, i);
      }
    }
  }

  /** Step i does not settle a reservation that has stopped counting. */
  ghost predicate SettlesCounted(limits: Limits, steps: seq<Step>, i: nat)
    requires i < |steps|
  {
    steps[i].Settle? && steps[i].id in Run(limits, steps[..i]) ==>
      Counted(Run(limits, steps[..i])[steps[i].id])
  }

  /** In particular every run that settles only counted reservations stays within the limits. */
  lemma RunWithinLimits(limits: Limits, steps: seq<Step>)
    requires forall i :: 0 <= i < |steps| ==> SettlesCounted(limits, steps, i)
    ensures WithinLimits(Run(limits, steps), limits)
  {
    forall i | 0 <= i < |steps|
      ensures !OverSettlesAt(limits, steps, i)
    {
      assert SettlesCounted(limits, steps, i);
    }
    WithinUpTo(limits, steps, |steps|);
    assert steps[..|steps|] == steps;
  }

  lemma Extend(limits: Limits, steps: seq<Step>, step: Step) returns (longer: seq<Step>)
    ensures longer == steps + [step]
    ensures Run(limits, longer) == Next(Run(limits, steps), limits, step)
  {
    longer := steps + [step];
    assert longer[..|steps|] == steps;
  }

  /** A reservation expired and its room given to another invocation. */
  lemma RoomReused(limits: Limits, a: Reservation, c: Reservation) returns (steps: seq<Step>)
    requires limits == Limits(100, 100)
    requires a == Reservation("t", "w", 60, "pending", TTL, None) && c == a.(expiresAt := TTL + TTL)
    ensures Run(limits, steps) == map["a" := a.(state := "released")]["c" := c]
  {
    var scope, inner := Tenant("t"), Workspace("t", "w");
    var late := a.(state := "released");
    assert CountedIn(map[], scope) == map[] && CountedIn(map[], inner) == map[];
    steps := Extend(limits, [], Reserve("a", "t", "w", 60, 0));
    assert Run(limits, steps) == map["a" := a];
    steps := Extend(limits, steps, ReleaseExpired(TTL));
    assert Run(limits, steps) == map["a" := late];
    UsedUpdate(map[], "a", late, scope);
    UsedUpdate(map[], "a", late, inner);
    assert map[]["a" := late] == map["a" := late];
    steps := Extend(limits, steps, Reserve("c", "t", "w", 60, TTL));
  }

  /** The case the restriction excludes is reachable: a reservation expires, its room is given
      to another invocation, and then its late usage is settled. */
  lemma LateSettlementExceeds() returns (steps: seq<Step>)
    ensures !WithinLimits(Run(Limits(100, 100), steps), Limits(100, 100))
  {
    var limits, scope := Limits(100, 100), Tenant("t");
    var a := Reservation("t", "w", 60, "pending", TTL, None);
    var late, c := a.(state := "released"), a.(expiresAt := TTL + TTL);
    steps := RoomReused(limits, a, c);
    var b := Run(limits, steps);
    assert CountedIn(map[], scope) == map[];
    UsedUpdate(map[], "a", late, scope);
    UsedUpdate(map["a" := late], "c", c, scope);
    steps := Extend(limits, steps, Settle("a", 60, true));
    UsedUpdate(b, "a", late.(actual := Some(60), state := "committed"), scope);
    assert Used(Run(limits, steps), scope) == 120;
  }

  // ----- what each operation does for its invocation -----

  /** What the invocation's own reservation takes from a scope. */
  function Taken(b: Book, id: string, s: Scope): nat {
    if id in b && Counted(b[id]) && InScope(b[id], s) then b[id].amount else 0
  }

  /** A new reservation is refused exactly when having it would break a limit, the tenant's first;
      a granted one takes its amount from its tenant and its workspace and from nobody else. */
  lemma ReserveDecides(b: Book, limits: Limits, id: string, tenant: string, workspace: string, amount: nat, now: nat)
    requires WithinLimits(b, limits) && id !in b
    ensures var (after, admission) := ReserveSpec(b, limits, id, tenant, workspace, amount, now);
            var wanted := b[id := Reservation(tenant, workspace, amount, "pending", now + 300, None)];
            && (admission.Reserved? <==> WithinLimits(wanted, limits))
            && (admission.TenantExceeded? <==> Used(wanted, Tenant(tenant)) > limits.tenant)
            && (admission.Reserved? ==>
                  && after == wanted && admission.reservation == after[id]
                  && forall s :: Used(after, s) ==
                       Used(b, s) + if s.tenant == tenant && (s.Workspace? ==> s.workspace == workspace) then amount else 0)
            && (!admission.Reserved? ==> after == b)
  {
    var r := Reservation(tenant, workspace, amount, "pending", now + 300, None);
    forall s
      ensures Used(b[id := r], s) == Used(b, s) + if InScope(r, s) then amount else 0
    {
      UsedUpdate(b, id, r, s);
    }
    if Used(b, Tenant(tenant)) + amount <= limits.tenant && Used(b, Workspace(tenant, workspace)) + amount <= limits.workspace {
      forall s
        ensures Used(b[id := r], s) <= LimitOf(limits, s)
      {
        assert Used(b, s) <= LimitOf(limits, s);
        assert InScope(r, s) ==> s == Tenant(tenant) || s == Workspace(tenant, workspace);
      }
    } else {
      assert Used(b[id := r], Tenant(tenant)) > LimitOf(limits, Tenant(tenant))
          || Used(b[id := r], Workspace(tenant, workspace)) > LimitOf(limits, Workspace(tenant, workspace));
    }
  }

  /** A reservation made at t holds its amount against expiry below t + 300 and gives it up from
      then on; a release gives it up at once. */
  lemma PendingLifetime(b: Book, limits: Limits, id: string, tenant: string, workspace: string, amount: nat, t: nat,
                        now: nat, s: Scope)
    requires id !in b && ReserveSpec(b, limits, id, tenant, workspace, amount, t).1.Reserved?
    ensures var held := ReserveSpec(b, limits, id, tenant, workspace, amount, t).0;
            && Taken(held, id, Tenant(tenant)) == amount
            && Taken(ReleaseExpiredSpec(held, now), id, s) == (if now < t + 300 then Taken(held, id, s) else 0)
            && Taken(ReleaseSpec(held, id, "released"), id, s) == 0
  {
  }

  /** A settled reservation, final or not, holds its amount against release and expiry alike, and
      remembers the actual; nobody else's changes. */
  lemma SettledIsKept(b: Book, id: string, actual: nat, final: bool, state: string, now: nat)
    requires id in b
    ensures var kept := SettleSpec(b, id, actual, final);
            && Taken(kept, id, Tenant(b[id].tenant)) == b[id].amount && kept[id].actual == Some(actual)
            && ReleaseSpec(kept, id, state) == kept
            && id in ReleaseExpiredSpec(kept, now) && ReleaseExpiredSpec(kept, now)[id] == kept[id]
            && (forall other :: other != id ==> (other in kept <==> other in b) && (other in b ==> kept[other] == b[other]))
  {
  }
}
