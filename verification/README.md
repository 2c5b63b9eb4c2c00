# AI gateway and workflow engine: a verified model

This project models, in Dafny, the durable execution protocol around one AI call and the
workflow state machine that pays for it, and proves safety properties of that model for every
input, every run and every reachable state.

Runs are sequences of labelled steps folded by a total `Next` function: one step is one
database transaction, one handler up to its next await, one provider outcome, or a crash; a
step that cannot happen changes nothing. State that the source updates in place is a class
whose methods are proved equal to specification functions, and the results about whole runs
are proved about those functions.

| module | what it models |
|---|---|
| `Amounts` | `scale6` and the amount formatter, character by character |
| `ProviderEffect` | the effect boundary: reserve, dispatch, operate, record |
| `ExecutionLease`, `ExecuteWorkers` | the invocation row with its lease and fence, and the workers of `execute` racing on it |
| `Provider`, `AttemptLoop`, `AttemptSpend`, `AttemptContent` | prices, the attempt loop with its repair loop, what they spend and what they answer with |
| `Keys`, `OperationCount` | effect keys and attempt numbers, and how many operations can start |
| `Reservations`, `UsageLedger` | budget reservations in memory; usage events, reconciliation and streams |
| `WorkflowEngine`, `WorkflowRuns`, `WorkflowSafety`, `WorkflowBudget`, `WorkflowDecisions` | the engine's handlers on one instance, the invariant of its runs, and the results |
| `VersionFence`, `Outbox`, `OutboxDrain` | optimistic concurrency on snapshots; at-least-once delivery with receipts |
| `ContextAssembly`, `DependencyCycles` | prompt assembly with truncation; cycle detection by depth-first search |
| `Options`, `Finite`, `Totals` | shared values, finite sets and sums over dictionaries |

## Findings

Where the code does not meet an expected property in full, the model keeps the code, shows a
run or an input on which it fails, and proves when it holds:

- A retryable repair failure forgets repairs already metered in that attempt, so a successful
  `execute` can cost more than `max_total_cost` (`MeteredMayExceedLimit`); exactly the requests
  of `MeteredWithinLimit` are safe.
- Settling an expired or released reservation counts it again and can exceed a limit
  (`LateSettlementExceeds`); `RunWithinLimitsIff` says for which runs.
- `_resume_start` creates its attempt without looking at the attempt limit, which is kept by
  exactly the runs of `LimitThroughoutIff`. An attempt command that validation refuses is
  refused after the attempt was numbered, so redelivered starts number attempts without bound
  (`InvalidCommandIsUnbounded`); failure events ahead of the initial command exceed any limit
  by one (`EarlyFailureExceedsLimit`).
- A settled actual above its commitment can make the remaining budget negative
  (`OverspendIsReachable`, `RemainingNonnegativeIff`), and a negative amount that is not whole
  dollars is printed as a string that denotes another amount (`ShownDenotesIff`); a bypassed
  completion counts no commitment (`BypassCountsNothing`,
  `BypassWithCommitmentIsReachable`).
- A worker that can still fail after a commit can answer with another response than the
  committed one (`ReplyMayDifferIff`), and a worker that loaded before an intent was stored can
  commit over it; `IntentMayBeOverriddenIff` says in which states that can happen.
- `execute` resumes from the copy it loaded before its claim, so a worker that claims an expired
  lease takes the durable progress back to what it loaded (`StaleProgressReturns`,
  `ProgressBehindLoad`).
- A repository kept after an aborted flush can always lose an update (`SafeIffDiscarded`).
- Consumer obligations are compared by number only, so a producer can add a consumer after the
  receipts were checked; a delivered event then keeps a surplus receipt for good
  (`ExactThroughoutIff`, `LateObligationIsMarked`, `OverfullForever`).
- Stream usage events are keyed by input and output tokens, but cached and reasoning tokens are
  priced too, so the ledger can fail to follow a stream and the two stores can settle it at
  different actuals, under exactly the prices of `PricesFollowIff` and `PricesAgreeIff`.
- A reported dependency path need not be a cycle: it may be a lead-in followed by one
  (`LeadInIsReported`). `ReportsAreCyclesIff` says for which graphs every report is a cycle.
- Attempt numbers collide beyond 100 attempts or repairs (`NumbersDistinctIff`).

## Model

| member | source | states |
|---|---|---|
| `ProviderEffect.AtMostOneOperation` | adapters/persistence_postgres/src/aieos/adapters/persistence_postgres/ai_gateway.py:99-245 | over every interleaving of callers of one effect key, with a crash possible between any two transactions: the operation body starts at most once, the dispatch count is 0 exactly while the row is reserved and 1 ever after, and every normal return is the one recorded result of a completed row |
| `ProviderEffect.OutcomeIsFinal` | adapters/persistence_postgres/src/aieos/adapters/persistence_postgres/ai_gateway.py:215-245 | once the row is completed or failed, no continuation of the run changes it or starts the operation again |
| `ProviderEffect.AmbiguityIsPermanent` | adapters/persistence_postgres/src/aieos/adapters/persistence_postgres/ai_gateway.py:139-199 | if the only dispatcher is gone while the row is dispatching, no run ever starts the operation again and no call ever returns a result |
| `ProviderEffect.OutcomeIsReplayed` | adapters/persistence_postgres/src/aieos/adapters/persistence_postgres/ai_gateway.py:122-140 | once the outcome is recorded, every caller that enters later and looks gets the produced result, or the raised failure again, or a conflict if its request differs, and never anything else |
| `ProviderEffect.TerminalIsSettled` | adapters/persistence_postgres/src/aieos/adapters/persistence_postgres/ai_gateway.py:200-245 | a terminal row holds what the operation body itself returned or raised |
| `ProviderEffect.LoserAnswers` | adapters/persistence_postgres/src/aieos/adapters/persistence_postgres/ai_gateway.py:188-199 | a caller that lost the race to dispatch gets the result if it is there by then and the ambiguity if not |
| `ProviderEffect.DispatcherMayDie` | adapters/persistence_postgres/src/aieos/adapters/persistence_postgres/ai_gateway.py:168-201 | any caller inside the dispatched section may die there and leave it orphaned |
| `ProviderEffect.RunKeepsInv` | adapters/persistence_postgres/src/aieos/adapters/persistence_postgres/ai_gateway.py:99-245 | the invariant behind these results holds along every run |
| `ProviderEffect.EffectTable.Reserve` | adapters/persistence_postgres/src/aieos/adapters/persistence_postgres/ai_gateway.py:113-164 | the reserve transaction changes the row and answers as specified, including conflicts, replays of recorded outcomes and the missing invocation |
| `ProviderEffect.EffectTable.Dispatch` | adapters/persistence_postgres/src/aieos/adapters/persistence_postgres/ai_gateway.py:168-199 | the dispatch transaction moves a reserved row once and otherwise replays or reports ambiguity |
| `ProviderEffect.EffectTable.RecordFailure` | adapters/persistence_postgres/src/aieos/adapters/persistence_postgres/ai_gateway.py:215-230 | a failure is recorded only over a dispatching row |
| `ProviderEffect.EffectTable.RecordResult` | adapters/persistence_postgres/src/aieos/adapters/persistence_postgres/ai_gateway.py:231-245 | a result completes the row |
| `ProviderEffect.EffectTable.Execute` | adapters/persistence_postgres/src/aieos/adapters/persistence_postgres/ai_gateway.py:99-245 | the four transactions in sequence: the operation is entered exactly on a new or merely reserved row of the same request and its outcome is recorded; otherwise the row is unchanged and the caller gets the recorded outcome again, the ambiguity, the conflict or the missing invocation |
| `ExecutionLease.GrantsIncrease` | adapters/persistence_postgres/src/aieos/adapters/persistence_postgres/ai_gateway.py:337-369 | granted claim generations strictly increase over any run of claims, renewals, releases and fenced writes |
| `ExecutionLease.OnePairHolds` | adapters/persistence_postgres/src/aieos/adapters/persistence_postgres/ai_gateway.py:371-428 | at most one (owner, generation) pair passes the fence at a time |
| `ExecutionLease.HoldsUntilLost` | adapters/persistence_postgres/src/aieos/adapters/persistence_postgres/ai_gateway.py:337-428 | a pair that holds the fence keeps it exactly until a later claim is granted or the pair itself is released |
| `ExecutionLease.StaleForever` | adapters/persistence_postgres/src/aieos/adapters/persistence_postgres/ai_gateway.py:337-428 | a pair that was granted and no longer holds never holds again |
| `ExecutionLease.StaleWritesRefused` | adapters/persistence_postgres/src/aieos/adapters/persistence_postgres/ai_gateway.py:430-498 | every fenced write of a pair that does not hold changes nothing and is refused: checkpoint, terminal intent, effect reservation, effect record, usage, renewal and release |
| `ExecutionLease.SupersededForever` | adapters/persistence_postgres/src/aieos/adapters/persistence_postgres/ai_gateway.py:660-793 | once another claim is granted, every fenced write of the earlier pair is refused in every continuation |
| `ExecutionLease.LeaseExcludes` | adapters/persistence_postgres/src/aieos/adapters/persistence_postgres/ai_gateway.py:337-403 | after a claim or renewal at t for d, and until its owner claims, renews or releases, every claim of another owner below t + d is refused and changes nothing, and from t + d on the next claim is granted unless a terminal payload is stored |
| `ExecutionLease.FreeRowIsGranted` | adapters/persistence_postgres/src/aieos/adapters/persistence_postgres/ai_gateway.py:337-381 | nobody is kept out of a row that was never claimed or was released by its holder |
| `ExecutionLease.HolderWrites` | adapters/persistence_postgres/src/aieos/adapters/persistence_postgres/ai_gateway.py:430-793 | every fenced write of the holding pair goes through, and what it wrote is there for the next load or lookup |
| `ExecutionLease.CheckpointReplaces` | adapters/persistence_postgres/src/aieos/adapters/persistence_postgres/ai_gateway.py:430-467 | a checkpoint of the holding pair replaces the whole payload, and takes a committed one away if its copy is not terminal |
| `ExecutionLease.UnfencedWrites` | adapters/persistence_postgres/src/aieos/adapters/persistence_postgres/ai_gateway.py:708-793 | a result or usage written without both halves of a pair is not fenced |
| `ExecutionLease.Store.ClaimExecution` | adapters/persistence_postgres/src/aieos/adapters/persistence_postgres/ai_gateway.py:337-369 | a claim is granted exactly on a claimable row and bumps the generation |
| `ExecutionLease.Store.ReleaseExecution` | adapters/persistence_postgres/src/aieos/adapters/persistence_postgres/ai_gateway.py:371-381 | release clears the lease of the matching pair only |
| `ExecutionLease.Store.RenewExecution` | adapters/persistence_postgres/src/aieos/adapters/persistence_postgres/ai_gateway.py:383-403 | renewal extends the lease of the matching pair on a row without a terminal payload |
| `ExecutionLease.Store.Checkpoint` | adapters/persistence_postgres/src/aieos/adapters/persistence_postgres/ai_gateway.py:430-467 | a checkpoint stores the snapshot, and the terminal payload if it carries one, only for the holding pair |
| `ExecutionLease.Store.CheckpointTerminalIntent` | adapters/persistence_postgres/src/aieos/adapters/persistence_postgres/ai_gateway.py:469-498 | an intent is stored only if there is none or it is the same one |
| `ExecutionLease.Store.ReserveProviderEffect` | adapters/persistence_postgres/src/aieos/adapters/persistence_postgres/ai_gateway.py:660-706 | an effect is reserved only by the holding pair |
| `ExecutionLease.Store.RecordProviderEffect` | adapters/persistence_postgres/src/aieos/adapters/persistence_postgres/ai_gateway.py:708-765 | an effect result is recorded only by a pair that passes the fence, when one is presented |
| `ExecutionLease.Store.RecordUsage` | adapters/persistence_postgres/src/aieos/adapters/persistence_postgres/ai_gateway.py:767-793 | usage is written only by a pair that passes the fence, when one is presented |
| `ExecuteWorkers.TerminalIsFinal` | packages/ai_gateway/src/aieos/ai_gateway/gateway.py:850-1286 | among workers that present only the pair they were granted, a committed terminal payload never changes, and every later claim, renewal and terminal intent fails, also when the committing worker missed the acknowledgement |
| `ExecuteWorkers.IntentIsFinal` | adapters/persistence_postgres/src/aieos/adapters/persistence_postgres/ai_gateway.py:469-498 | a stored terminal intent is never replaced or removed |
| `ExecuteWorkers.SettledRepliesAgree` | packages/ai_gateway/src/aieos/ai_gateway/gateway.py:850-874 | every reply a worker gives knowing it is committed is the committed response |
| `ExecuteWorkers.KnownIntentIsHonoured` | packages/ai_gateway/src/aieos/ai_gateway/gateway.py:865-874 | a payload committed by a worker that knew of an intent carries that intent's response |
| `ExecuteWorkers.CancelledReplyMayDiffer` | packages/ai_gateway/src/aieos/ai_gateway/gateway.py:1245-1286 | over every committed response, every worker that can still fail or be cancelled may answer with any response its handler makes up, and the commit stays |
| `ExecuteWorkers.ReplyMayDifferIff` | packages/ai_gateway/src/aieos/ai_gateway/gateway.py:850-1286 | after a commit, some continuation lets a worker answer with another response exactly when the worker can still fall into its handler or its answer is already another one |
| `ExecuteWorkers.UnseenIntentMayBeOverridden` | packages/ai_gateway/src/aieos/ai_gateway/gateway.py:851-866 | every worker that loaded without an intent and can still claim may commit any response, while the intent stored since stays |
| `ExecuteWorkers.IntentMayBeOverriddenIff` | packages/ai_gateway/src/aieos/ai_gateway/gateway.py:850-1286 | with an intent stored and nothing committed, some continuation commits another response if and only if some worker loaded without an intent, or owns the row and has not decided, or owns the row and decided otherwise |
| `ExecuteWorkers.IntentHonoured` | packages/ai_gateway/src/aieos/ai_gateway/gateway.py:865-874 | if no worker is in such a position, every continuation that commits commits the intended response |
| `ExecuteWorkers.StaleProgressReturns` | packages/ai_gateway/src/aieos/ai_gateway/gateway.py:851-866 | every worker that loaded without an intent and can still claim takes the durable progress back to what it loaded |
| `ExecuteWorkers.ProgressBehindLoad` | packages/ai_gateway/src/aieos/ai_gateway/gateway.py:851-866 | such a worker is reachable behind any progress of another one |
| `ExecuteWorkers.LostAcknowledgement` | packages/ai_gateway/src/aieos/ai_gateway/gateway.py:1240-1256 | a worker that committed any response and missed the acknowledgement, still able to fail, is reachable |
| `ExecuteWorkers.IntentBehindLoad` | packages/ai_gateway/src/aieos/ai_gateway/gateway.py:851-866 | a worker that loaded before an intent was stored and can claim is reachable |
| `ExecuteWorkers.RunKeepsInv` | packages/ai_gateway/src/aieos/ai_gateway/gateway.py:850-1286 | the invariant behind these results holds along every run |
| `ExecuteWorkers.HeartbeatKeepsOut` | packages/ai_gateway/src/aieos/ai_gateway/gateway.py:763-781 | a heartbeat of the owner keeps a loaded worker waiting below its new time and no longer |
| `ExecuteWorkers.DecisionIsAnswered` | packages/ai_gateway/src/aieos/ai_gateway/gateway.py:1240-1244 | the owner's decision is committed and answered |
| `ExecuteWorkers.FailureIsAnswered` | packages/ai_gateway/src/aieos/ai_gateway/gateway.py:1257-1278 | the owner's failure is stored as intent, committed and answered |
| `ExecuteWorkers.HandlerGoesOn` | packages/ai_gateway/src/aieos/ai_gateway/gateway.py:1245-1278 | a handler whose intent is refused, or stored without its knowing, answers with its own response and leaves the commit to others |
| `ExecuteWorkers.IntentIsRecovered` | packages/ai_gateway/src/aieos/ai_gateway/gateway.py:865-874 | a worker that loaded the stored intent and can claim commits it and answers with it |
| `ExecuteWorkers.LossIsHandled` | packages/ai_gateway/src/aieos/ai_gateway/gateway.py:1257-1278 | a refused checkpoint leads into the handler, and lost ownership to waiting for whatever is committed |
| `ExecuteWorkers.CommitIsServed` | packages/ai_gateway/src/aieos/ai_gateway/gateway.py:851-860 | after a commit everyone who arrives or waits without a claim is answered with it |
| `ExecuteWorkers.StoppingAndGivingUp` | packages/ai_gateway/src/aieos/ai_gateway/gateway.py:1279-1286 | a worker may stop anywhere and leave the row as it is, and one that gives up releases what it holds |
| `AttemptLoop.RepairOnce` | packages/ai_gateway/src/aieos/ai_gateway/gateway.py:1982-2095 | one turn of the repair loop computes the specified turn |
| `AttemptLoop.ValidateAndRepair` | packages/ai_gateway/src/aieos/ai_gateway/gateway.py:1967-2095 | the repair loop computes the specified end and charges |
| `AttemptLoop.JudgeOnce` | packages/ai_gateway/src/aieos/ai_gateway/gateway.py:1066-1223 | metering, checking and repairing a provider result computes the specified end and charges |
| `AttemptLoop.AttemptOnce` | packages/ai_gateway/src/aieos/ai_gateway/gateway.py:940-1244 | the body of the attempt loop computes the specified attempt |
| `AttemptLoop.Execute` | packages/ai_gateway/src/aieos/ai_gateway/gateway.py:927-1244 | the attempt loop, resumed at any attempt with any recovered spend, computes the specified execution |
| `AttemptSpend.RepairFacts` | packages/ai_gateway/src/aieos/ai_gateway/gateway.py:1988-2095 | accepted content is charged exactly its repairs, within what remained; a retryable rejection is charged in full if at most one repair is allowed or nothing remained |
| `AttemptSpend.AttemptFacts` | packages/ai_gateway/src/aieos/ai_gateway/gateway.py:947-1223 | each call is admitted within the budget left; a successful attempt reports everything it metered and stays within the limit |
| `AttemptSpend.SuccessWithinLimit` | packages/ai_gateway/src/aieos/ai_gateway/gateway.py:947-1223 | no provider or repair call starts when its estimate exceeds what remains, and any success reports a spend of at most max_total_cost, for any recovered starting spend |
| `AttemptSpend.MeteredWithinLimit` | packages/ai_gateway/src/aieos/ai_gateway/gateway.py:1066-1125 | if the request is plain text, allows at most one repair or one attempt, or has a zero limit, a success reports exactly the recovered spend plus all metered cost, so the metered cost is within the limit too |
| `AttemptSpend.MeteredMayExceedLimit` | packages/ai_gateway/src/aieos/ai_gateway/gateway.py:1180-1223 | for every other request there is a successful execution whose metered cost exceeds the limit, because a retryable repair failure forgets the repairs metered before it |
| `AttemptContent.AcceptedIff` | packages/ai_gateway/src/aieos/ai_gateway/gateway.py:1986-2095 | a structured answer is accepted exactly when some text of the attempt validates to it within the output limit, every text before it is invalid and every repair before it passes, at the cost of those repairs |
| `AttemptContent.PlainAcceptedIff` | packages/ai_gateway/src/aieos/ai_gateway/gateway.py:1982-1985 | plain text is accepted as it is exactly when it fits |
| `AttemptContent.InvalidIsRefused` | packages/ai_gateway/src/aieos/ai_gateway/gateway.py:1989-2010 | when every text is invalid the answer is refused as invalid with the tokens of all repairs, and a valid text that is too long as too long |
| `AttemptContent.RepairFailureDecides` | packages/ai_gateway/src/aieos/ai_gateway/gateway.py:2011-2095 | a repair that does not fit is not made, one that is lost abandons, one that fails rejects with its own failure, and one over its limits rejects with its usage |
| `AttemptContent.SuccessIsValidated` | packages/ai_gateway/src/aieos/ai_gateway/gateway.py:940-1244 | every success answers with cached content or with a confident text of one of the attempts made, validated where the request is structured and within the output limit |
| `AttemptContent.ProviderIsAskedIff` | packages/ai_gateway/src/aieos/ai_gateway/gateway.py:956-1046 | a provider is asked exactly when its estimate fits, the deadline has not passed and nothing is cached, and otherwise the loop stops at no cost with the reason |
| `AttemptContent.ConfidenceDecides` | packages/ai_gateway/src/aieos/ai_gateway/gateway.py:1109-1180 | an accepted text succeeds at its full cost if the provider was confident, and otherwise moves on to the next candidate at the same cost |
| `AttemptContent.FailureDecides` | packages/ai_gateway/src/aieos/ai_gateway/gateway.py:1180-1223 | a provider failure is charged its reported usage and tries the next candidate exactly when it is retryable |
| `AttemptContent.LostCallInterrupts` | packages/ai_gateway/src/aieos/ai_gateway/gateway.py:1040-1125 | a call that never comes back interrupts the loop where it stands |
| `AttemptContent.OverrunEnds` | packages/ai_gateway/src/aieos/ai_gateway/gateway.py:1066-1110 | a result over its output limit or the budget left ends the loop with that failure, charged in full |
| `AttemptContent.CandidatesInOrder` | packages/ai_gateway/src/aieos/ai_gateway/gateway.py:951-955 | the candidates are tried in order up to the number allowed, and the last failure is reported when none is left |
| `Provider.CostIncrements` | packages/ai_gateway/src/aieos/ai_gateway/gateway.py:193-210 | what each further input, cached, output and reasoning token costs, starting from nothing |
| `OperationCount.OperationsBounded` | packages/ai_gateway/src/aieos/ai_gateway/gateway.py:927-955 | over all restarts, recoveries and interleavings of one invocation at most max_provider_attempts × (1 + repair_attempts) operations start, each under its own key |
| `OperationCount.PassesBounded` | packages/ai_gateway/src/aieos/ai_gateway/gateway.py:927-1244 | the bound holds for the calls of any number of passes through the attempt loop, whatever each recovers, is offered and gets |
| `OperationCount.NumbersDistinctIff` | packages/ai_gateway/src/aieos/ai_gateway/gateway.py:2015-2016 | primary and repair attempt numbers are pairwise distinct exactly when there are no attempts or no repairs, or at most 100 attempts with at most 100 repairs (or a single attempt) |
| `OperationCount.KeyStringsAreFaithful` | adapters/persistence_postgres/src/aieos/adapters/persistence_postgres/ai_gateway.py:721-721 | the number read back from an effect key is the one it was built from, and equal keys have equal kind and number |
| `Reservations.RunWithinLimits` | packages/ai_gateway/src/aieos/ai_gateway/gateway.py:520-586 | in particular every run that settles only counted reservations keeps every tenant and every workspace within its limit |
| `Reservations.RunWithinLimitsIff` | packages/ai_gateway/src/aieos/ai_gateway/gateway.py:520-586 | a run keeps every limit throughout if and only if it never settles a reservation that has stopped counting and no longer fits |
| `Reservations.NextKeepsIff` | packages/ai_gateway/src/aieos/ai_gateway/gateway.py:520-586 | a step keeps every limit exactly when it is not such a settlement |
| `Reservations.SettleKeepsIff` | packages/ai_gateway/src/aieos/ai_gateway/gateway.py:562-577 | settling keeps the limits exactly when the reservation is still counted or there is room to count it again |
| `Reservations.LateSettlementExceeds` | packages/ai_gateway/src/aieos/ai_gateway/gateway.py:562-586 | a run in which settling an expired reservation exceeds the tenant limit |
| `Reservations.ReserveKeeps` | packages/ai_gateway/src/aieos/ai_gateway/gateway.py:520-560 | reserving keeps every limit |
| `Reservations.ReleaseKeeps` | packages/ai_gateway/src/aieos/ai_gateway/gateway.py:705-709 | releasing keeps every limit |
| `Reservations.ReleaseExpiredKeeps` | packages/ai_gateway/src/aieos/ai_gateway/gateway.py:579-586 | expiry keeps every limit |
| `Reservations.ReserveDecides` | packages/ai_gateway/src/aieos/ai_gateway/gateway.py:520-560 | a new reservation is refused exactly when having it would break a limit, the tenant's first, and a granted one takes its amount from its tenant and workspace only |
| `Reservations.PendingLifetime` | packages/ai_gateway/src/aieos/ai_gateway/gateway.py:550-586 | a reservation made at t holds its amount against expiry below t + 300 and gives it up from then on or on release |
| `Reservations.SettledIsKept` | packages/ai_gateway/src/aieos/ai_gateway/gateway.py:562-586 | a settled reservation holds its amount against release and expiry |
| `Reservations.ReservationStore.SumUsed` | packages/ai_gateway/src/aieos/ai_gateway/gateway.py:534-546 | the accumulation loop computes the amount counted in a scope |
| `Reservations.ReservationStore.Reserve` | packages/ai_gateway/src/aieos/ai_gateway/gateway.py:520-560 | reserve is idempotent per invocation and refuses beyond the tenant or workspace limit |
| `Reservations.ReservationStore.Settle` | packages/ai_gateway/src/aieos/ai_gateway/gateway.py:562-577 | settling stores the actual and the new state of a known reservation |
| `Reservations.ReservationStore.Release` | packages/ai_gateway/src/aieos/ai_gateway/gateway.py:705-709 | release changes only a pending reservation |
| `Reservations.ReservationStore.ReleaseExpired` | packages/ai_gateway/src/aieos/ai_gateway/gateway.py:579-586 | the loop releases exactly the expired pending reservations and returns their ids |
| `UsageLedger.LedgerFollowsLatestIff` | packages/ai_gateway/src/aieos/ai_gateway/gateway.py:615-645 | for token counts that never go back, the ledger total equals the latest report's cost after every report exactly when costs never fall and a repeated token pair repeats its cost |
| `UsageLedger.PricedStreamFollowsLatest` | packages/ai_gateway/src/aieos/ai_gateway/gateway.py:1421-1446 | the condition holds when cost is a nondecreasing function of the token pair |
| `UsageLedger.PricesFollowIff` | packages/ai_gateway/src/aieos/ai_gateway/gateway.py:193-210 | with catalog prices the ledger follows every token-monotone stream exactly when cached input is charged like other input and reasoning tokens are free |
| `UsageLedger.PricesAgreeIff` | packages/ai_gateway/src/aieos/ai_gateway/gateway.py:193-210 | with catalog prices the two stores settle every token-monotone stream at the same actual under exactly the same price condition |
| `UsageLedger.NextTotal` | adapters/persistence_postgres/src/aieos/adapters/persistence_postgres/ai_gateway.py:767-853 | one more report adds nothing if it repeats the token pair and otherwise raises the total to its cost if that is higher |
| `UsageLedger.StoresAgreeIff` | adapters/persistence_postgres/src/aieos/adapters/persistence_postgres/ai_gateway.py:569-598 | the in-memory and the durable store end with the same actual exactly when the first terminal amount is at least the ledger total, or a later one repeats it |
| `UsageLedger.ReconcileTwice` | adapters/persistence_postgres/src/aieos/adapters/persistence_postgres/ai_gateway.py:569-598 | repeating the terminal reconciliation adds nothing |
| `UsageLedger.StreamSettles` | packages/ai_gateway/src/aieos/ai_gateway/gateway.py:1421-1446 | settling a stream at its last cost leaves both stores with exactly that amount |
| `UsageLedger.StreamKeyInjective` | packages/ai_gateway/src/aieos/ai_gateway/gateway.py:1430-1446 | stream event keys are distinct for distinct token pairs and never the terminal key |
| `UsageLedger.UsageStore.Sum` | adapters/persistence_postgres/src/aieos/adapters/persistence_postgres/ai_gateway.py:826-832 | the loop computes the ledger total |
| `UsageLedger.UsageStore.RecordUsage` | adapters/persistence_postgres/src/aieos/adapters/persistence_postgres/ai_gateway.py:767-853 | a partial report adds what it exceeds the ledger by, once per event key, and the actual becomes the total |
| `UsageLedger.UsageStore.Reconcile` | adapters/persistence_postgres/src/aieos/adapters/persistence_postgres/ai_gateway.py:569-598 | the durable reconciliation appends the difference under the terminal key |
| `UsageLedger.UsageStore.Consume` | packages/ai_gateway/src/aieos/ai_gateway/gateway.py:1421-1446 | the usage branch of the stream records each report and stops at the first that goes back |
| `Amounts.ParseFormat` | packages/workflow_engine/src/aieos/workflow_engine/governance.py:110-112 | for every positive n the printed amount is canonical, and it is read back as n exactly when it has at most 18 digits |
| `Amounts.ParseFormatBelow` | packages/workflow_engine/src/aieos/workflow_engine/governance.py:18-28 | for every 0 < n < 10^18 the parser accepts the printed amount and returns n |
| `Amounts.FormatParse` | packages/workflow_engine/src/aieos/workflow_engine/governance.py:15-28 | every accepted string has a positive value whose printed form is that string |
| `Amounts.FormatDenotesIff` | packages/workflow_engine/src/aieos/workflow_engine/governance.py:110-112 | for every integer the printed amount denotes it exactly when it is nonnegative or a whole number of dollars, and is otherwise off by twice the remainder |
| `Amounts.Scale6Injective` | packages/workflow_engine/src/aieos/workflow_engine/governance.py:18-28 | distinct accepted strings have distinct values |
| `WorkflowEngine.Instance.constructor` | packages/workflow_engine/src/aieos/workflow_engine/engine.py:503-529 | a started instance is Running, with nothing attempted and an open receipt |
| `WorkflowEngine.Instance.SumExposures` | packages/workflow_engine/src/aieos/workflow_engine/engine.py:686-699 | the loop computes the total of the committed amounts, or raises exactly when one cannot be read |
| `WorkflowEngine.Instance.CreateAttemptCommand` | packages/workflow_engine/src/aieos/workflow_engine/engine.py:651-790 | authorization, budget, numbering, admission and command validation in the source's order, including the mutation that precedes a validation error |
| `WorkflowEngine.Instance.NumberAttempt` | packages/workflow_engine/src/aieos/workflow_engine/engine.py:702-753 | the instance after an attempt: counter, execution id and, where budget is needed, its admission |
| `WorkflowEngine.Instance.AdmitAttempt` | packages/workflow_engine/src/aieos/workflow_engine/engine.py:706-753 | a new version, whose binding is stored both as admission and as committed record |
| `WorkflowEngine.Instance.ResumeStart` | packages/workflow_engine/src/aieos/workflow_engine/engine.py:531-579 | the start handler up to the dispatch, for first delivery and redelivery |
| `WorkflowEngine.Instance.Cancel` | packages/workflow_engine/src/aieos/workflow_engine/engine.py:581-649 | cancellation, its replay and its refusals |
| `WorkflowEngine.Instance.Consume` | packages/workflow_engine/src/aieos/workflow_engine/engine.py:335-402 | the event handler up to the awaited dispatch or publication |
| `WorkflowEngine.Instance.Complete` | packages/workflow_engine/src/aieos/workflow_engine/engine.py:792-902 | completion, failure on foreign lineage, and the budget evidence reported |
| `WorkflowEngine.Instance.ReconcileAdmission` | packages/workflow_engine/src/aieos/workflow_engine/engine.py:904-985 | reconciliation of one admission and the two sums |
| `WorkflowEngine.Instance.CountRecords` | packages/workflow_engine/src/aieos/workflow_engine/engine.py:960-985 | the counting loop computes the settled and committed totals, or raises exactly when an amount cannot be read |
| `WorkflowEngine.CountRecord` | packages/workflow_engine/src/aieos/workflow_engine/engine.py:962-984 | what one admission record adds to the two sums |
| `WorkflowRuns.NextCases` | packages/workflow_engine/src/aieos/workflow_engine/engine.py:335-402 | every step of the engine is bookkeeping, an ending, a completion or one admitted attempt |
| `WorkflowRuns.RunKeepsInv` | packages/workflow_engine/src/aieos/workflow_engine/engine.py:335-790 | attempts, execution ids, admissions, records, versions and stored commands stay tied to each other along every run |
| `WorkflowSafety.TerminalIsFinal` | packages/workflow_engine/src/aieos/workflow_engine/engine.py:335-402 | once a workflow is Completed, Failed or Cancelled, no steps change its state, outcome, error, attempts or admissions |
| `WorkflowSafety.ProcessedIsNoOp` | packages/workflow_engine/src/aieos/workflow_engine/engine.py:354-355 | consuming an already processed event changes nothing, now or later |
| `WorkflowSafety.ReceiptIsFinal` | packages/workflow_engine/src/aieos/workflow_engine/engine.py:292-301 | a completed command is answered with the same result forever |
| `WorkflowSafety.CancelsAgree` | packages/workflow_engine/src/aieos/workflow_engine/engine.py:604-649 | the cancel that ended a workflow and every later cancel are answered with the same result |
| `WorkflowSafety.AttemptsAreCommands` | packages/workflow_engine/src/aieos/workflow_engine/engine.py:377-400 | attempt_number is the number of distinct execution ids; with a valid command each attempt is the initial one or the single retry of one event, and admissions match attempts |
| `WorkflowSafety.CommandsAreFinal` | packages/workflow_engine/src/aieos/workflow_engine/engine.py:536-579 | a stored initial or retry command is never replaced by redelivery or failed dispatch |
| `WorkflowSafety.AttemptsWithinLimit` | packages/workflow_engine/src/aieos/workflow_engine/engine.py:320-333 | attempt_number = number of execution ids ≤ max_attempts over every run with a valid command in which failure events follow their attempt |
| `WorkflowSafety.StepKeepsLimitIff` | packages/workflow_engine/src/aieos/workflow_engine/engine.py:531-541 | a step keeps the limit exactly when it is not a start that creates its command at the limit |
| `WorkflowSafety.LimitThroughoutIff` | packages/workflow_engine/src/aieos/workflow_engine/engine.py:531-541 | for every run at all, the limit is kept throughout if and only if no start creates its command at the limit |
| `WorkflowSafety.InvalidCommandIsUnbounded` | packages/contracts/src/aieos/contracts/commands/models.py:82-87 | with a command that validation refuses, redelivered starts number any number of attempts |
| `WorkflowSafety.EarlyFailureExceedsLimit` | packages/workflow_engine/src/aieos/workflow_engine/engine.py:377-400 | for every attempt limit, failure events ahead of the initial command let a run exceed it although the command is valid |
| `WorkflowSafety.AuthoritativeIff` | packages/workflow_engine/src/aieos/workflow_engine/engine.py:197-241 | the lookup returns a binding exactly for the latest execution's admission, while the workflow runs or after it completed on that admission |
| `WorkflowSafety.AtMostOneAuthoritative` | packages/workflow_engine/src/aieos/workflow_engine/engine.py:197-241 | at most one binding is authoritative, and none in a Failed or Cancelled workflow |
| `WorkflowSafety.NewestIsAuthoritative` | packages/workflow_engine/src/aieos/workflow_engine/engine.py:197-241 | while a governed workflow runs, its latest admission is authoritative |
| `WorkflowSafety.AdmissionSupersedes` | packages/workflow_engine/src/aieos/workflow_engine/engine.py:702-753 | each admitted attempt bumps the version past every earlier admission |
| `WorkflowSafety.SupersededForever` | packages/workflow_engine/src/aieos/workflow_engine/engine.py:197-241 | an earlier attempt's binding is never returned again |
| `WorkflowSafety.NoneAfterFailure` | packages/workflow_engine/src/aieos/workflow_engine/engine.py:197-241 | a failed or cancelled workflow never again has an authoritative binding |
| `WorkflowDecisions.FailureDecides` | packages/workflow_engine/src/aieos/workflow_engine/engine.py:377-402 | a new failure event makes another attempt exactly when it is retryable, an attempt is left and there is authority and budget for it, and otherwise fails the workflow with the cause and code of that reason |
| `WorkflowDecisions.RejectionDecides` | packages/workflow_engine/src/aieos/workflow_engine/engine.py:1007-1037 | a rejection before acceptance fails the workflow with the reported code and answers every command still in progress with that outcome |
| `WorkflowDecisions.StartDecides` | packages/workflow_engine/src/aieos/workflow_engine/engine.py:531-579 | the initial attempt is made exactly once and only with authority and budget, and without them the workflow fails and the start is answered so |
| `WorkflowDecisions.CreateDecides` | packages/workflow_engine/src/aieos/workflow_engine/engine.py:651-701 | an attempt is refused exactly when authority is missing or one more commitment would exceed the ceiling |
| `WorkflowDecisions.DispatchIsRecorded` | packages/workflow_engine/src/aieos/workflow_engine/engine.py:395-402 | a returned dispatch answers the start, and a returned delivery marks its event processed |
| `WorkflowDecisions.LateEventIsRemembered` | packages/workflow_engine/src/aieos/workflow_engine/engine.py:362-368 | an event after the end is remembered and does nothing else |
| `WorkflowDecisions.CancelDecides` | packages/workflow_engine/src/aieos/workflow_engine/engine.py:581-649 | a cancel without authority, or on a completed or failed workflow, only leaves its refusal, and with authority a running workflow is cancelled for it |
| `WorkflowBudget.CommittedWithinCeiling` | packages/workflow_engine/src/aieos/workflow_engine/engine.py:672-701 | in every reachable state of a governed workflow every stored amount reads back as the commitment, and together they are at most the ceiling |
| `WorkflowBudget.CompletesIff` | packages/workflow_engine/src/aieos/workflow_engine/engine.py:792-884 | a success event completes the workflow exactly when its lineage, value and gateway evidence are acceptable, fails it exactly when it is foreign, and otherwise changes nothing |
| `WorkflowBudget.EachAdmissionCountedOnce` | packages/workflow_engine/src/aieos/workflow_engine/engine.py:904-985 | reconciliation settles exactly the reported admission, keeps every other one committed, and reports those two sums and the rest of the ceiling |
| `WorkflowBudget.RemainingNonnegativeIff` | packages/workflow_engine/src/aieos/workflow_engine/engine.py:845-864 | the counted total is within the ceiling exactly when the settled actual fits the headroom, which is at least its commitment |
| `WorkflowBudget.ShownSettled` | packages/workflow_engine/src/aieos/workflow_engine/engine.py:854-858 | the reported settled string is the gateway's own string |
| `WorkflowBudget.ShownReads` | packages/workflow_engine/src/aieos/workflow_engine/engine.py:849-864 | every other reported amount reads back, if positive and below 10^18 |
| `WorkflowBudget.BypassCountsNothing` | packages/workflow_engine/src/aieos/workflow_engine/engine.py:913-914 | a bypassed completion reports nothing settled or committed, which matches the commitments exactly when there are none |
| `WorkflowBudget.BypassWithCommitmentIsReachable` | packages/workflow_engine/src/aieos/workflow_engine/engine.py:913-914 | a bypassed completion with a commitment outstanding is reachable |
| `WorkflowBudget.OverspendIsReachable` | packages/workflow_engine/src/aieos/workflow_engine/engine.py:904-985 | a run with a ceiling of 10000 and an actual of 10001 micro-USD that completes with the remaining budget at −1 |
| `WorkflowBudget.ShownDenotesIff` | packages/workflow_engine/src/aieos/workflow_engine/engine.py:849-864 | for every amount the reported string denotes it exactly when it is nonnegative or whole dollars |
| `WorkflowBudget.EvidenceOfSettled` | packages/workflow_engine/src/aieos/workflow_engine/engine.py:854-884 | the settled string denotes the settled amount |
| `WorkflowBudget.EvidenceOfCommitted` | packages/workflow_engine/src/aieos/workflow_engine/engine.py:849-884 | the committed string denotes the committed amount |
| `WorkflowBudget.EvidenceOfRemaining` | packages/workflow_engine/src/aieos/workflow_engine/engine.py:859-884 | the remaining string denotes what the ceiling leaves after both, as far as it is nonnegative or whole dollars |
| `VersionFence.NoUpdateLost` | adapters/persistence_postgres/src/aieos/adapters/persistence_postgres/runtime.py:386-441 | for every interleaving in which an aborted flush costs the worker its repository, committed versions are 1, 2, 3, … and each snapshot descends from the one just before it |
| `VersionFence.KeptRepositoryLosesUpdate` | adapters/persistence_postgres/src/aieos/adapters/persistence_postgres/runtime.py:459-465 | from every state of a discarding run, keeping a repository across an abort opens a continuation in which everybody else behaves and an update is lost |
| `VersionFence.SafeIffDiscarded` | adapters/persistence_postgres/src/aieos/adapters/persistence_postgres/runtime.py:386-465 | a step leaves every discarding continuation without a lost update if and only if it does not keep a repository across an abort |
| `VersionFence.CommitCarriesChange` | adapters/persistence_postgres/src/aieos/adapters/persistence_postgres/runtime.py:386-441 | a flush either changes nothing durable or commits the payload its worker last set, which every later refresh sees |
| `VersionFence.FreshChangeCommits` | adapters/persistence_postgres/src/aieos/adapters/persistence_postgres/runtime.py:302-441 | a worker that refreshed, set another payload and met no commit commits it as the next version |
| `VersionFence.NextChangeCommits` | adapters/persistence_postgres/src/aieos/adapters/persistence_postgres/runtime.py:459-465 | a worker that committed and completed its checkpoint can commit again without a refresh |
| `VersionFence.FirstInstanceCommits` | adapters/persistence_postgres/src/aieos/adapters/persistence_postgres/runtime.py:386-441 | the first instance becomes version 1 |
| `VersionFence.StaleChangeRefused` | adapters/persistence_postgres/src/aieos/adapters/persistence_postgres/runtime.py:400-441 | a worker whose copy is out of date by any commit is refused and changes nothing |
| `VersionFence.WorkersComeAndGo` | adapters/persistence_postgres/src/aieos/adapters/persistence_postgres/runtime.py:250-272 | a worker starts with no copy and may vanish with it |
| `VersionFence.WorkflowRepository.RefreshWorkflow` | adapters/persistence_postgres/src/aieos/adapters/persistence_postgres/runtime.py:302-318 | refresh replaces the cached instance, version and baseline by the durable row |
| `VersionFence.WorkflowRepository.FlushInTransaction` | adapters/persistence_postgres/src/aieos/adapters/persistence_postgres/runtime.py:386-441 | a dirty instance is written over its expected version only |
| `VersionFence.WorkflowRepository.CheckpointCompleted` | adapters/persistence_postgres/src/aieos/adapters/persistence_postgres/runtime.py:459-465 | flushed versions become the expected ones |
| `Outbox.MarkedMeansDelivered` | adapters/persistence_postgres/src/aieos/adapters/persistence_postgres/outbox.py:149-301 | for any number of relays, crashes and lease expiries, and any recordings but late obligations, an event marked delivered has exactly its required receipts, all Delivered, and all their consumers have completed on it |
| `Outbox.DeliveredMeansServed` | adapters/persistence_postgres/src/aieos/adapters/persistence_postgres/outbox.py:149-301 | in every run, whatever the producers, a delivered event has its required number of Delivered receipts, of consumers that completed on it |
| `Outbox.ExactStepIff` | adapters/persistence_postgres/src/aieos/adapters/persistence_postgres/outbox.py:68-115 | a step keeps a closing event exact if and only if it is not an accepted recording that names a further consumer after the receipts were checked |
| `Outbox.ExactThroughoutIff` | adapters/persistence_postgres/src/aieos/adapters/persistence_postgres/outbox.py:68-115 | a run is exact throughout if and only if no producer adds a consumer late |
| `Outbox.AgreementIsEnough` | adapters/persistence_postgres/src/aieos/adapters/persistence_postgres/outbox.py:68-115 | if the accepted recordings name one set of consumers, none is late |
| `Outbox.DeliveredMeansConsumed` | adapters/persistence_postgres/src/aieos/adapters/persistence_postgres/outbox.py:217-243 | every Delivered receipt follows a completed consume of the event by that consumer |
| `Outbox.DeliveredIsFinal` | adapters/persistence_postgres/src/aieos/adapters/persistence_postgres/outbox.py:149-243 | a Delivered receipt and a delivered event never revert |
| `Outbox.LateObligationIsMarked` | adapters/persistence_postgres/src/aieos/adapters/persistence_postgres/outbox.py:94-169 | every late obligation that meets a relay about to mark leaves a delivered event with a pending receipt and more receipts than required |
| `Outbox.OverfullForever` | adapters/persistence_postgres/src/aieos/adapters/persistence_postgres/outbox.py:272-301 | surplus receipts never go away, so the check never succeeds again |
| `Outbox.DisagreeingProducersBreakIt` | adapters/persistence_postgres/src/aieos/adapters/persistence_postgres/outbox.py:68-115 | such a state is reached by two producers that name different consumers |
| `OutboxDrain.EventLeaseExcludes` | adapters/persistence_postgres/src/aieos/adapters/persistence_postgres/outbox.py:117-147 | an event claimed at t for d is given to nobody else up to t + d and to the first idle relay after that |
| `OutboxDrain.BackoffDelays` | adapters/persistence_postgres/src/aieos/adapters/persistence_postgres/outbox.py:303-327 | an event released at t with backoff b is offered to nobody below t + b and to the first idle relay from then on |
| `OutboxDrain.ReceiptLeaseExcludes` | adapters/persistence_postgres/src/aieos/adapters/persistence_postgres/outbox.py:186-215 | a receipt taken at t for d is passed over by every other relay up to t + d and can be taken after that |
| `OutboxDrain.DrainDelivers` | adapters/persistence_postgres/src/aieos/adapters/persistence_postgres/outbox.py:370-425 | from every state with the event on offer, a drain whose handlers succeed marks it delivered with every receipt Delivered |
| `OutboxDrain.RecordedIsDelivered` | adapters/persistence_postgres/src/aieos/adapters/persistence_postgres/outbox.py:370-425 | whatever is recorded, for whichever consumers, can be delivered to all of them once it is available |
| `OutboxDrain.FailureIsReleased` | adapters/persistence_postgres/src/aieos/adapters/persistence_postgres/outbox.py:245-270 | a handler that raises leaves its receipt failed and free, and its relay releases the event |
| `OutboxDrain.CheckDecides` | adapters/persistence_postgres/src/aieos/adapters/persistence_postgres/outbox.py:400-425 | a relay marks exactly when none of its handlers failed and every required receipt is Delivered |
| `OutboxDrain.RecordDecides` | adapters/persistence_postgres/src/aieos/adapters/persistence_postgres/outbox.py:68-115 | the first recording offers the event from its time on and asks every consumer for a receipt; later ones are refused exactly when content or number of consumers differ |
| `OutboxDrain.RelayMayDie` | adapters/persistence_postgres/src/aieos/adapters/persistence_postgres/outbox.py:370-425 | a relay may die anywhere and leave the table with its leases as it is |
| `Outbox.AddReceipts` | adapters/persistence_postgres/src/aieos/adapters/persistence_postgres/outbox.py:94-115 | the recording loop adds the missing receipts and keeps the others |
| `Outbox.OutboxStore.Record` | adapters/persistence_postgres/src/aieos/adapters/persistence_postgres/outbox.py:68-115 | recording is idempotent and refuses changed content or a changed number of obligations |
| `Outbox.OutboxStore.Claim` | adapters/persistence_postgres/src/aieos/adapters/persistence_postgres/outbox.py:117-147 | an undelivered, available event with no live lease is leased |
| `Outbox.OutboxStore.ClaimReceipt` | adapters/persistence_postgres/src/aieos/adapters/persistence_postgres/outbox.py:186-215 | an undelivered receipt with no live lease is leased |
| `Outbox.OutboxStore.AcknowledgeReceipt` | adapters/persistence_postgres/src/aieos/adapters/persistence_postgres/outbox.py:217-243 | only the lease holder marks its receipt Delivered |
| `Outbox.OutboxStore.FailReceipt` | adapters/persistence_postgres/src/aieos/adapters/persistence_postgres/outbox.py:245-270 | only the lease holder marks its receipt failed |
| `Outbox.OutboxStore.AllRequiredReceiptsDelivered` | adapters/persistence_postgres/src/aieos/adapters/persistence_postgres/outbox.py:272-301 | true exactly if the required number of receipts exists and all are Delivered |
| `Outbox.OutboxStore.MarkDelivered` | adapters/persistence_postgres/src/aieos/adapters/persistence_postgres/outbox.py:149-169 | only the lease holder marks an undelivered event |
| `Outbox.OutboxStore.ReleaseFailed` | adapters/persistence_postgres/src/aieos/adapters/persistence_postgres/outbox.py:303-327 | only the lease holder releases an undelivered event for a later time |
| `ContextAssembly.FailsIffMandatoryOverflow` | packages/ai_gateway/src/aieos/ai_gateway/gateway.py:1762-1780 | assembly fails exactly when the base sections and the deduplicated mandatory items exceed the token limit; otherwise the prompt fits and the mandatory items stand first and whole |
| `ContextAssembly.MandatoryRepresented` | packages/ai_gateway/src/aieos/ai_gateway/gateway.py:1730-1735 | deduplication keeps one item per key and a mandatory one for every mandatory input |
| `ContextAssembly.EntriesAreLongestPrefixes` | packages/ai_gateway/src/aieos/ai_gateway/gateway.py:1765-1777 | every selected entry is a whole item or an optional item cut to its longest fitting prefix |
| `ContextAssembly.EveryItemAccounted` | packages/ai_gateway/src/aieos/ai_gateway/gateway.py:1754-1777 | every considered item is selected whole, or cut to its longest fitting prefix, or not even its first character fits |
| `ContextAssembly.SkippedIff` | packages/ai_gateway/src/aieos/ai_gateway/gateway.py:1751-1761 | stage 0 passes over exactly the optional items less relevant than another optional one |
| `ContextAssembly.StageZeroIsPrefix` | packages/ai_gateway/src/aieos/ai_gateway/gateway.py:1754-1777 | the stage-0 selection is a prefix of the stage-1 selection |
| `ContextAssembly.SortCorrect` | packages/ai_gateway/src/aieos/ai_gateway/gateway.py:1731-1734 | the order is by mandatory, relevance and reference, and keeps exactly the given items |
| `ContextAssembly.SortStable` | packages/ai_gateway/src/aieos/ai_gateway/gateway.py:1731-1734 | items of equal rank keep their order |
| `ContextAssembly.FirstDifferenceDecides` | packages/ai_gateway/src/aieos/ai_gateway/gateway.py:1731-1734 | references compare at their first difference, and a beginning comes before the whole |
| `ContextAssembly.FirstIsKept` | packages/ai_gateway/src/aieos/ai_gateway/gateway.py:1730-1735 | an item whose reference or version differs from those of every item before it is kept |
| `ContextAssembly.RenderJoins` | packages/ai_gateway/src/aieos/ai_gateway/gateway.py:1737-1749 | the prompt is the system line, the task line and one evidence section per item, in order, joined by line breaks |
| `ContextAssembly.EstimateIsLeast` | packages/ai_gateway/src/aieos/ai_gateway/gateway.py:1804-1806 | the estimate is the least positive number of tokens of four octets that holds the text |
| `ContextAssembly.CharBytesByRange` | packages/ai_gateway/src/aieos/ai_gateway/gateway.py:1804-1806 | octets per character by code point range, section 3 of RFC 3629 |
| `ContextAssembly.DedupFacts` | packages/ai_gateway/src/aieos/ai_gateway/gateway.py:1730-1735 | deduplication keeps order, one item per key and a representative no later than any item dropped |
| `ContextAssembly.LongestFit` | packages/ai_gateway/src/aieos/ai_gateway/gateway.py:1768-1777 | the longest fitting prefix, with every longer one not fitting |
| `ContextAssembly.Truncate` | packages/ai_gateway/src/aieos/ai_gateway/gateway.py:1768-1777 | the binary search finds the longest fitting prefix |
| `ContextAssembly.Deduplicate` | packages/ai_gateway/src/aieos/ai_gateway/gateway.py:1730-1735 | the dictionary loop computes the deduplication |
| `ContextAssembly.HighestOptional` | packages/ai_gateway/src/aieos/ai_gateway/gateway.py:1751-1753 | the maximum relevance of the optional items |
| `ContextAssembly.SelectItems` | packages/ai_gateway/src/aieos/ai_gateway/gateway.py:1754-1777 | the selection loop computes the specified selection |
| `ContextAssembly.Assemble` | packages/ai_gateway/src/aieos/ai_gateway/gateway.py:1730-1780 | the assembly computes the specified prompt, token count and selection, or fails |
| `DependencyCycles.CycleChecker.Visit` | tooling/dependency_rules/check_boundaries.py:139-145 | the search terminates and reports exactly the simple continuations of its path that close on themselves |
| `DependencyCycles.CycleChecker.CheckCycles` | tooling/dependency_rules/check_boundaries.py:134-149 | the reports are exactly the closing walks from a package, and there is one if and only if the declared graph has a cycle |
| `DependencyCycles.ReportIsCycle` | tooling/dependency_rules/check_boundaries.py:141-143 | each reported path ends in a real cycle |
| `DependencyCycles.ReportsAreCyclesIff` | tooling/dependency_rules/check_boundaries.py:134-149 | for every graph, all reported paths are cycles if and only if no package outside a simple cycle depends on a node of it |
| `DependencyCycles.SimpleCycleIsReported` | tooling/dependency_rules/check_boundaries.py:139-148 | every cycle without a repeated node is reported as it is |
| `DependencyCycles.LeadInIsReported` | tooling/dependency_rules/check_boundaries.py:139-148 | every package outside a simple cycle that depends on a node of it starts a report that is not a cycle |
| `DependencyCycles.ReportedIffCycle` | tooling/dependency_rules/check_boundaries.py:134-149 | some package has a closing walk if and only if the graph has a cycle |
| `DependencyCycles.TrapCloses` | tooling/dependency_rules/check_boundaries.py:139-145 | from any node of a cycle the search finds a closing walk |

## Left out

- Transactions are atomic steps and row locks are taken as given; SQL, migrations, advisory lock keys and isolation levels are not modelled.
- Steps of one workflow are serialized, as the engine's callers promise; the publication of WorkflowStarted is taken to return before the attempt is created, and a handler is otherwise cut at its awaits.
- Identifiers drawn by the engine are fresh for the workflow; the identifier factory itself is not modelled.
- HTTP provider adapters, the web host, settings, routing, health cooldown, caching and cache keys: a provider call is an outcome that returns, fails with optional usage, or never comes back.
- `ReferenceAIGateway.invoke`'s catch-all writes with a copy loaded before any claim, so it is not one of the workers of `ExecuteWorkers`.
- The tenant limit of the durable `reserve`: its lock covers tenant and workspace together, so the limit is stated for the in-memory store.
- The in-memory claim, renewal and checkpoint operations, which would only repeat the durable ones.
- `_success` formats `actual_cost` by another formatter, which is not part of the round trip.
- SHA-256 digests, JSON encoding and cache identity: a digest stands for the fields it covers, and payloads are compared as values.
- The governed prompt package branch of `_assemble`, and `str.strip`: the model starts from the stripped prompt; characters are Unicode scalar values, so lone surrogates, which UTF-8 refuses, do not occur.
- Money is a natural number of a small unit and token counts are natural, so decimal rounding and negative counts do not occur.
- `_start`'s field checks and scope lookups, command and event envelopes, scope mismatches on events and cancels, decision evidence and observability: field comparisons without a property of their own. `Start` keeps the attempt limit and the ceiling.
- The lineage and gateway evidence of a success event enter as the results of their comparisons; the execution id, command id and amount are modelled as values.
- The Skill Runtime, Manager, event bus and dispatcher are the environment that delivers, repeats, reorders or drops.
- Recovery phases, timestamps kept for information, heartbeat timing and asyncio events.
- The order in which the outbox tries consumers and in which the cycle search visits targets is left open; `check_cycles` also renders, deduplicates and sorts its reports, and reads its graph from TOML files.
- WorkflowSafety.AttemptsWithinLimit: assumes a valid command and failure events that follow their attempt; `LimitThroughoutIff` gives the exact condition for every run.
- Reservations.RunWithinLimits: assumes that only counted reservations are settled; `RunWithinLimitsIff` gives the exact condition.
- VersionFence.NoUpdateLost: assumes that a worker discards its repository after an aborted flush; `SafeIffDiscarded` shows the assumption exact.
- Outbox.MarkedMeansDelivered: excludes late obligations; `ExactThroughoutIff` shows the exclusion exact and `DeliveredMeansServed` says what holds without it.
- `refresh_workflow` also normalizes a stored result, which plays no part in the version fence.
