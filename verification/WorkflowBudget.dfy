/** The AI budget of a governed workflow: what is committed never exceeds the ceiling, and a
    completion counts every admission exactly once, as settled or as still committed. */
module WorkflowBudget {
  import opened Options
  import opened Amounts
  import opened Totals
  import opened WorkflowEngine
  import opened WorkflowRuns

  // ----- sums of equal amounts -----

  lemma {:induction false} UniformTotal<T>(m: map<Id, nat>, rows: map<Id, T>)
    requires m.Keys == rows.Keys && forall c :: c in m ==> m[c] == COMMITMENT
    ensures Total(m) == COMMITMENT * |rows|
    decreases |m|
  {
    if m != map[] {
      var c :| c in m;
      TotalRemove(m, c);
      UniformTotal(m - {c}, rows - {c});
      assert |rows| == |rows - {c}| + 1;
    } else {
      assert rows == map[];
    }
  }

  lemma {:induction false} ZeroTotal(m: map<Id, nat>)
    requires forall c :: c in m ==> m[c] == 0
    ensures Total(m) == 0
    decreases |m|
  {
    if m != map[] {
      var c :| c in m;
      TotalRemove(m, c);
      ZeroTotal(m - {c});
    }
  }

  // ----- the committed total -----

  lemma ExposureTotal(admissions: map<Id, Binding>)
    requires forall c :: c in admissions ==> Amount(admissions[c].amount) == COMMITMENT
    ensures Total(Exposures(admissions)) == COMMITMENT * |admissions|
  {
    var exposures := Exposures(admissions);
    assert exposures.Keys == admissions.Keys;
    UniformTotal(exposures, admissions);
  }

  lemma CommittedTotal(w: Workflow)
    requires Inv(w) && w.def.commitment == COMMITMENT
    ensures Total(Exposures(w.admissions)) == COMMITMENT * |w.admissions|
  {
    ExposureReads(w.def, w.executionIds, w.admissions);
    ExposureTotal(w.admissions);
  }

  /** In every reachable state the stored amounts read back as the commitment, and together
      they stay within the envelope's ceiling. */
  lemma CommittedWithinCeiling(w: Workflow)
    requires Reachable(w) && NeedsAdmission(w.def)
    ensures forall c :: c in w.admissions ==> Scale6(w.admissions[c].amount) == Some(COMMITMENT)
    ensures Total(Exposures(w.admissions)) == COMMITMENT * w.attemptNumber <= w.def.ceiling.value
  {
    ReachableInv(w);
    ExposureReads(w.def, w.executionIds, w.admissions);
    CommittedTotal(w);
  }

  // ----- completion -----

  /** What a caller can see before handing over a success event. */
  predicate Acceptable(w: Workflow, l: Lineage) {
    && l.scoped && l.executionId in w.executionIds
    && (Governed(w.def) ==> l.routed && (l.avoided || Reported(w, l)))
  }

  /** The gateway's own settled report about an admission of this workflow, with a readable amount. */
  predicate Reported(w: Workflow, l: Lineage) {
    l.commandId.Some? && l.commandId.value in w.admissions && l.matches && Scale6(l.actual).Some?
  }

  lemma ReportedIsEvidence(w: Workflow, l: Lineage)
    requires RecordsOk(w.admissions, w.records, w.state == Completed)
    ensures Reported(w, l) <==> Evidenced(w.records, l)
  {
    if l.commandId.Some? && l.commandId.value in w.admissions {
      var c := l.commandId.value;
      assert RecordOk(w.admissions[c], w.records[c], w.state == Completed);
    }
  }

  /** The event is about another execution, or names no known task kind. */
  predicate Foreign(w: Workflow, l: Lineage) {
    !l.scoped || l.executionId !in w.executionIds || (Governed(w.def) && !l.routed)
  }

  ghost predicate CompletionOutcome(w: Workflow, x: Workflow, cause: Id, l: Lineage) {
    && (x.state == Completed <==> Acceptable(w, l))
    && (x.state == Failed <==> Foreign(w, l))
    && (x.state == Failed ==>
          x.outcome == Some(Unsuccessful(StatusFailed, cause, ATTEMPTS_EXHAUSTED)) && x.error == Some(ATTEMPTS_EXHAUSTED))
    && (x.state == Completed ==>
          && x.outcome.Some? && x.outcome.value.Success? && x.outcome.value.cause == cause && x.error == w.error
          && x.outcome.value.attempts == w.attemptNumber && x.outcome.value.executionIds == w.executionIds
          && (x.outcome.value.budget.Some? <==> Governed(w.def)))
    && (x.state != Completed && x.state != Failed ==> x == w)
  }

  lemma CompletesLegible(w: Workflow, cause: Id, l: Lineage)
    requires AllReadable(w.records) && w.state == Running && (Reported(w, l) <==> Evidenced(w.records, l))
    ensures CompletionOutcome(w, CompleteSpec(w, cause, l), cause, l)
  {
    if Evidenced(w.records, l) {
      ReconciledReadable(w.records, l);
    }
  }

  /** A success event completes the workflow exactly when it is acceptable and fails it exactly
      when it is foreign; otherwise its gateway evidence is missing and nothing changes. */
  lemma CompletesIff(w: Workflow, cause: Id, l: Lineage)
    requires Reachable(w) && w.state == Running
    ensures CompletionOutcome(w, CompleteSpec(w, cause, l), cause, l)
  {
    ReachableInv(w);
    InvLegible(w);
    ReportedIsEvidence(w, l);
    CompletesLegible(w, cause, l);
  }

  // ----- reconciliation -----

  ghost predicate AllCommitted(admissions: map<Id, Binding>, records: map<Id, Record>) {
    && records.Keys == admissions.Keys
    && forall c :: c in records ==> records[c].stage == CommittedStage && CommittedAmount(records[c]) == COMMITMENT
  }

  lemma RecordOpen(b: Binding, r: Record)
    requires RecordOk(b, r, false) && Scale6(b.amount) == Some(COMMITMENT)
    ensures r.stage == CommittedStage && CommittedAmount(r) == COMMITMENT
  {
  }

  lemma RecordsOpen(w: Workflow)
    requires Inv(w) && w.state == Running && w.def.commitment == COMMITMENT
    ensures AllCommitted(w.admissions, w.records)
  {
    ExposureReads(w.def, w.executionIds, w.admissions);
    forall c | c in w.records
      ensures w.records[c].stage == CommittedStage && CommittedAmount(w.records[c]) == COMMITMENT
    {
      RecordOpen(w.admissions[c], w.records[c]);
    }
  }

  lemma ReconciledMaps(records: map<Id, Record>, l: Lineage)
    requires Evidenced(records, l)
    ensures var c, after := l.commandId.value, Reconciliation(records, l);
            && CommittedAmounts(after) == CommittedAmounts(records)[c := 0]
            && SettledAmounts(after) == SettledAmounts(records)[c := Amount(l.actual)]
  {
  }

  lemma CommittedAfter(admissions: map<Id, Binding>, committed: map<Id, nat>, c: Id)
    requires committed.Keys == admissions.Keys && c in committed
    requires forall k :: k in committed ==> committed[k] == COMMITMENT
    ensures Total(committed[c := 0]) == COMMITMENT * (|admissions| - 1)
  {
    UniformTotal(committed, admissions);
    TotalUpdate(committed, c, 0);
  }

  lemma SettledAfter(settled: map<Id, nat>, c: Id, actual: nat)
    requires c in settled && forall k :: k in settled ==> settled[k] == 0
    ensures Total(settled[c := actual]) == actual
  {
    ZeroTotal(settled);
    TotalUpdate(settled, c, actual);
  }

  lemma ReconciledTotals(admissions: map<Id, Binding>, records: map<Id, Record>, l: Lineage)
    requires AllCommitted(admissions, records) && Evidenced(records, l)
    ensures Total(SettledAmounts(Reconciliation(records, l))) == Amount(l.actual)
    ensures Total(CommittedAmounts(Reconciliation(records, l))) == COMMITMENT * (|admissions| - 1)
  {
    ReconciledMaps(records, l);
    CommittedAfter(admissions, CommittedAmounts(records), l.commandId.value);
    SettledAfter(SettledAmounts(records), l.commandId.value, Amount(l.actual));
  }

  /** The reported admission is settled at the reported amount, every other one is committed. */
  ghost predicate CountedOnce(admissions: map<Id, Binding>, records: map<Id, Record>, l: Lineage) {
    && records.Keys == admissions.Keys && l.commandId.Some?
    && forall c :: c in records ==>
         if c == l.commandId.value
         then records[c].stage == Reconciled && SettledAmount(records[c]) == Amount(l.actual)
         else records[c].stage == CommittedStage && CommittedAmount(records[c]) == COMMITMENT
  }

  lemma ReconciledStages(admissions: map<Id, Binding>, records: map<Id, Record>, l: Lineage)
    requires AllCommitted(admissions, records) && Evidenced(records, l)
    ensures CountedOnce(admissions, Reconciliation(records, l), l)
  {
  }

  /** The shape of an evidenced completion. */
  lemma CompleteEvidenced(w: Workflow, cause: Id, l: Lineage)
    requires AllReadable(w.records) && Governed(w.def) && !l.avoided && Acceptable(w, l) && Evidenced(w.records, l)
    ensures var after := Reconciliation(w.records, l);
            CompleteSpec(w, cause, l) == Succeeded(w.(records := after), cause, Some(Evidence(w.def.ceiling.value, false,
              Counts(Total(SettledAmounts(after)), Total(CommittedAmounts(after))))))
  {
    ReconciledReadable(w.records, l);
  }

  /** The budget left after counting every other admission in full. */
  function Headroom(w: Workflow): int
    requires Governed(w.def)
  {
    w.def.ceiling.value - COMMITMENT * (w.attemptNumber - 1)
  }

  /** Settled plus committed, when one of the admissions is settled at this amount. */
  function CountsWith(w: Workflow, actual: nat): Counts
    requires w.attemptNumber >= 1
  {
    Counts(actual, COMMITMENT * (w.attemptNumber - 1))
  }

  lemma CountedTotals(w: Workflow, l: Lineage)
    requires Inv(w) && w.state == Running && w.def.commitment == COMMITMENT && Evidenced(w.records, l)
    ensures var after := Reconciliation(w.records, l);
            && CountedOnce(w.admissions, after, l) && w.attemptNumber >= 1
            && Counts(Total(SettledAmounts(after)), Total(CommittedAmounts(after))) == CountsWith(w, Amount(l.actual))
  {
    RecordsOpen(w);
    assert l.commandId.value in w.admissions.Keys;
    assert |w.admissions| == |w.admissions.Keys| > 0;
    ReconciledTotals(w.admissions, w.records, l);
    ReconciledStages(w.admissions, w.records, l);
  }

  /** A completion that reports gateway cost settles exactly the reported admission, keeps every
      other one committed, and reports those two sums and what is left of the ceiling. */
  lemma EachAdmissionCountedOnce(w: Workflow, cause: Id, l: Lineage)
    requires Reachable(w) && w.state == Running && Governed(w.def) && !l.avoided && Acceptable(w, l)
    ensures var x := CompleteSpec(w, cause, l);
            && w.attemptNumber >= 1
            && x.admissions == w.admissions && CountedOnce(x.admissions, x.records, l)
            && x.outcome == Some(Success(cause, w.attemptNumber, w.executionIds,
                                         Some(Evidence(w.def.ceiling.value, false, CountsWith(w, Amount(l.actual))))))
  {
    ReachableInv(w);
    InvLegible(w);
    ReportedIsEvidence(w, l);
    CountedTotals(w, l);
    CompleteEvidenced(w, cause, l);
  }

  lemma HeadroomAtLeast(w: Workflow)
    requires Inv(w) && w.def.commitment == COMMITMENT && NeedsAdmission(w.def)
    ensures Headroom(w) >= COMMITMENT
  {
    CommittedTotal(w);
  }

  /** What the completed records add up to stays within the ceiling exactly when the settled
      actual fits the headroom, which is at least the admission's own commitment. */
  lemma RemainingNonnegativeIff(w: Workflow, cause: Id, l: Lineage)
    requires Reachable(w) && w.state == Running && Governed(w.def) && !l.avoided && Acceptable(w, l)
    ensures var x := CompleteSpec(w, cause, l);
            Total(SettledAmounts(x.records)) + Total(CommittedAmounts(x.records)) <= w.def.ceiling.value
            <==> Amount(l.actual) <= Headroom(w)
    ensures Headroom(w) >= COMMITMENT
  {
    ReachableInv(w);
    InvLegible(w);
    ReportedIsEvidence(w, l);
    CountedTotals(w, l);
    CompleteEvidenced(w, cause, l);
    assert |w.admissions.Keys| > 0 by { assert l.commandId.value in w.admissions.Keys; }
    HeadroomAtLeast(w);
  }

  /** The reported settled string is the gateway's own. */
  lemma ShownSettled(actual: string)
    requires Scale6(actual).Some?
    ensures Shown(Amount(actual)) == actual
  {
    FormatParse(actual);
    assert actual != "";
  }

  /** Any other reported string reads back as its amount, if that is positive and below 10^18. */
  lemma ShownReads(n: int)
    ensures 0 < n < 1_000_000_000_000_000_000 ==> Scale6(Shown(n)) == Some(n)
  {
    if 0 < n < 1_000_000_000_000_000_000 {
      ParseFormatBelow(n);
      assert Format(n) != "";
    }
  }

  /** For every amount: the reported string denotes it exactly when it is nonnegative or whole
      dollars.  An overspent budget is otherwise reported too low by twice its remainder. */
  lemma ShownDenotesIff(n: int)
    ensures Denoted(Shown(n)) == Some(Printed(n))
    ensures Denoted(Shown(n)) == Some(n) <==> n >= 0 || n % MICRO == 0
  {
    FormatDenotesIff(n);
  }

  lemma ShownDenotes(n: int)
    ensures Denoted(Shown(n)) == Some(Printed(n))
  {
    ShownDenotesIff(n);
  }

  /** The reported strings, each under its own name: the settled amount, */
  lemma EvidenceOfSettled(ceiling: nat, avoided: bool, counts: Counts)
    ensures Denoted(Evidence(ceiling, avoided, counts).settled) == Some(counts.settled)
  {
    ShownDenotes(counts.settled);
  }

  /** the committed amount, */
  lemma EvidenceOfCommitted(ceiling: nat, avoided: bool, counts: Counts)
    ensures Denoted(Evidence(ceiling, avoided, counts).committed) == Some(counts.committed)
  {
    ShownDenotes(counts.committed);
  }

  /** and what the ceiling leaves after both. */
  lemma EvidenceOfRemaining(ceiling: nat, avoided: bool, counts: Counts, left: int)
    requires left == ceiling - (counts.settled + counts.committed)
    ensures Denoted(Evidence(ceiling, avoided, counts).remaining) == Some(Printed(left))
  {
    ShownDenotes(left);
  }

  lemma CompleteBypassed(w: Workflow, cause: Id, l: Lineage)
    requires Governed(w.def) && l.avoided && Acceptable(w, l)
    ensures CompleteSpec(w, cause, l) ==
            Succeeded(w, cause, Some(Evidence(w.def.ceiling.value, true, Counts(0, 0))))
  {
  }

  lemma CommittedVanishIff(admissions: map<Id, Binding>, records: map<Id, Record>)
    requires AllCommitted(admissions, records)
    ensures Total(CommittedAmounts(records)) == 0 <==> admissions == map[]
  {
    UniformTotal(CommittedAmounts(records), admissions);
  }

  /** A bypassed completion counts nothing, so it accounts for the commitments made exactly
      when there were none. */
  lemma BypassCountsNothing(w: Workflow, cause: Id, l: Lineage)
    requires Reachable(w) && w.state == Running && Governed(w.def) && l.avoided && Acceptable(w, l)
    ensures var x := CompleteSpec(w, cause, l);
            && x.records == w.records
            && x.outcome == Some(Success(cause, w.attemptNumber, w.executionIds,
                                         Some(Evidence(w.def.ceiling.value, true, Counts(0, 0)))))
    ensures Total(CommittedAmounts(w.records)) == 0 <==> w.admissions == map[]
  {
    ReachableInv(w);
    RecordsOpen(w);
    CompleteBypassed(w, cause, l);
    CommittedVanishIff(w.admissions, w.records);
  }

  // ----- findings -----

  /** A governed workflow with its first attempt admitted. */
  lemma FirstAttempt(ceiling: string) returns (w: Workflow)
    requires Scale6(ceiling) == Some(COMMITMENT)
    ensures Reachable(w) && w.state == Running && NeedsAdmission(w.def) && w.def.ceiling == Some(COMMITMENT)
    ensures w.executionIds == ["x"] && w.attemptNumber == 1
    ensures "c" in w.admissions && "c" in w.records && w.records["c"].binding.Some?
  {
    var started := Start("s", Some(ceiling), false, 1).value;
    var step := HandleStart(true, Ids("x", "c"));
    assert Exposures(started.admissions) == map[];
    w := Next(started, step);
    assert w == Attempted(started, step.ids).(initial := Some(NewCommand(started, step.ids)));
    assert [step][..0] == [] && Run(started, [step]) == w;
    assert ReachedBy(w, "s", Some(ceiling), false, 1, [step]);
  }

  lemma OverspendWith(ceiling: string, actual: string) returns (w: Workflow, l: Lineage)
    requires Scale6(ceiling) == Some(COMMITMENT) && Scale6(actual) == Some(COMMITMENT + 1)
    ensures Reachable(w) && w.state == Running && Governed(w.def) && !l.avoided && Acceptable(w, l)
    ensures Headroom(w) - Amount(l.actual) == -1 && l.actual == actual
    ensures CompleteSpec(w, "e", l).state == Completed
  {
    l := Lineage(true, true, false, "x", Some("c"), true, actual);
    w := FirstAttempt(ceiling);
    CompletesIff(w, "e", l);
  }

  /** With a ceiling of one commitment, an attempt settled at 10001 micro-USD completes with the
      remaining budget below zero: the condition on the actual is needed. */
  lemma OverspendIsReachable() returns (w: Workflow, l: Lineage)
    ensures Reachable(w) && w.state == Running && Governed(w.def) && !l.avoided && Acceptable(w, l)
    ensures l.actual == Format(COMMITMENT + 1) && Headroom(w) - Amount(l.actual) == -1
    ensures CompleteSpec(w, "e", l).state == Completed
  {
    ParseFormatBelow(COMMITMENT);
    ParseFormatBelow(COMMITMENT + 1);
    w, l := OverspendWith(Format(COMMITMENT), Format(COMMITMENT + 1));
  }

  /** A governed workflow with a commitment outstanding can complete as bypassed, so the case in
      which the report leaves a commitment out occurs. */
  lemma BypassWithCommitmentIsReachable() returns (w: Workflow, l: Lineage)
    ensures Reachable(w) && w.state == Running && Governed(w.def) && l.avoided && Acceptable(w, l)
    ensures Total(CommittedAmounts(w.records)) > 0
  {
    ParseFormatBelow(COMMITMENT);
    w := FirstAttempt(Format(COMMITMENT));
    l := Lineage(true, true, true, "x", None, false, "");
    BypassCountsNothing(w, "e", l);
  }
}
