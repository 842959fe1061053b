# PaySphere: a model of payment settlement and its proofs

PaySphere sits between merchants and a payment gateway. It creates payment intents, places one gateway order for each,
and settles them from facts that reach it in three ways (webhooks, client verification, reconciliation), duplicated and
in any order. This project models the server's settlement code over its PostgreSQL tables and proves what every run
keeps.

| File | What it holds |
|---|---|
| `Lifecycle.dfy` | states, the transition table, gateway status mapping, legal histories |
| `Ledger.dfy` | the payment tables as a value, each query and each transaction as a function on it |
| `Invariants.dfy` | the store invariant (money, audit, orders, attempt numbers, settled attempts), kept by each transaction |
| `Interleaving.dfy` | transactions run statement by statement under row and key locks, refining the one-step transactions |
| `Orchestration.dfy` | whole runs: creations in phases, routed facts, client reports, crashes, lost acknowledgements |
| `RunProperties.dfy` | finality, audit, money, routing and attempts over whole runs, each with its exact condition |
| `LostOrder.dfy` | the run in which a lost acknowledgement undoes a settlement |
| `Conservation.dfy` | sums of transactions against completed intents, per currency |
| `Confluence.dfy` | capture wins: the outcome depends on the set of facts only |
| `Replay.dfy` | re-applied facts are absorbed and can be deleted from any log, and what a FAILED write does to that |
| `Ownership.dfy` | whose attempt row backs a transaction, and when that goes wrong |
| `Webhooks.dfy` | the insert, process, mark protocol with redelivery, crashes and re-runs |
| `Reconciliation.dfy`, `Sweep.dfy` | the verdict over the gateway's payments, the repair, the batch loop and its drain bound |
| `Idempotency.dfy`, `Leases.dfy` | the idempotency-key protocol with racing requests, crashes and a clock |
| `Retry.dfy`, `Latency.dfy` | the backoff loop and its time bound; how long a create request holds its key |
| `PaymentService.dfy`, `Services.dfy`, `IdempotencyStore.dfy` | the same operations as classes that change state statement by statement, proved equal to the functions above |

The classes are the code's own form: fields for the tables, methods for repository calls and service operations, BEGIN,
COMMIT and ROLLBACK, and any write able to throw. Each method's contract equates its effect with a function of `Ledger`,
`Sweep` or `Idempotency`; the theorems are about those functions and about all runs made of them.

## Assumptions

- The gateway issues a fresh order id for each intent and attributes each payment id to exactly one order
  (`Invariants.Env`, `FreshOrders`). Everything the gateway says about a payment names that order; every fact carries a
  payment id.
- A transaction commits wholly or not at all; a statement sees everything committed before it; a lock is held to the
  end of its transaction.
- One monotone clock serves the server and the database.
- The request digest is injective on the canonical fields, and signature checks are opaque truth values. A webhook
  with a valid signature speaks for the gateway.
- Time in `Latency` is real-valued milliseconds; timers fire on time.

## Where the code departs from its documentation, or surprises

- `docs/payment-lifecycle.md:25-31` says a terminal state can never be left. `createPayment` writes FAILED with neither
  lock nor legality check. If a persist attempt commits but its acknowledgement is lost on all three tries, the customer
  can pay meanwhile, and the write then turns a COMPLETED intent FAILED, with its transaction still there
  (`LostOrder.LostAcknowledgementsUndoSettlement`). The model follows the code. What each promise needs is a condition on
  the row this one write finds, intent by intent:

  | promise | holds if and only if the intent's FAILED writes find it | member |
  |---|---|---|
  | a terminal state is never left | never, once it is terminal | `RunProperties.TerminalIsFinal` |
  | its history is a legal path to its status | PENDING | `RunProperties.AuditedIffSpared` |
  | its money is in order all along | not COMPLETED | `RunProperties.PaidIffSpared` |
  | the whole ledger is in order all along | not COMPLETED, for every intent | `RunProperties.LedgerIffSpared` |
  | the whole store invariant | PENDING, for every intent (a guarded run) | `Orchestration.RunsAreSoundIffGuarded` |

  Every run without a lost order is guarded (`Orchestration.NoLostOrderMeansGuarded`). Routing, order rows, attempt
  numbers and the permanence of rows hold of every run.
- `server/src/middleware/idempotency.js:25-26` says a key can only ever produce one outcome. A reclaimed record keeps its
  id, so a slow first claimant and its successor can both complete it (`Leases.OverrunSplitsKey`). A key has one outcome
  in all runs whose requests finish within some time of their grant if and only if the in-progress timeout is at least
  that time (`Leases.OneOutcomeIffTimeoutCovers`). For gateway calls of at most G and units of database work of at most
  D that time is at most 3G + 7D + 1080 ms (`Latency.TimeoutAboveBoundSuffices`).
- A client may report any payment id as failed against any intent, and the attempt row this opens keeps its intent when
  the payment settles another one (`Ownership.ForeignReportMisfiles`). Attempts belong to their own intents exactly in the
  runs without such a report (`Ownership.OwnedIffNoForeignReport`).

## Model

| member | source | states |
|---|---|---|
| Lifecycle.TransitionTable | server/src/domain/paymentTransitions.js:39-78 | the transition graph is acyclic, exactly the terminal states have no way out, and so the separate terminal check rejects nothing the table allows |
| Lifecycle.ChainIsShort | server/src/domain/paymentTransitions.js:39-50 | any legal history has at most six rows |
| Lifecycle.ChainEndsAtTerminal | server/src/domain/paymentTransitions.js:68-78 | a history that has reached a terminal state cannot be continued |
| Ledger.TxTouchesOneIntent | server/src/services/paymentService.js:148-366 | a transaction changes no other intent's row, drops none and adds one only by creating it |
| Ledger.ApplyMoney | server/src/services/paymentService.js:226-286 | money is booked only when the fact advances the intent to success, and then for exactly the intent's own amount and currency |
| Invariants.TxKeepsDbOk | server/src/services/paymentService.js:27-366 | a routed transaction keeps the store invariant if and only if it is not a FAILED write over a row no longer PENDING; the invariant: completed intents and transactions match one to one with equal amount and currency, histories are legal paths ending at the status, one order per intent, attempt numbers 1..n, payment ids unique, settled attempts SUCCEEDED |
| Invariants.LogKeepsDbOk | server/src/services/paymentService.js:66-116 | after any sequence of routed transactions the store is sound if and only if every FAILED write of a failed creation found its row PENDING; a history once broken is never mended |
| Invariants.TxClimbs | server/src/domain/paymentTransitions.js:39-50 | a transaction moves a status up the ladder or leaves it, and never out of a terminal state, except for exactly the FAILED write over a terminal row |
| Invariants.TxKeepsPaid | server/src/services/paymentService.js:226-286 | the money of an intent (one transaction for its own amount exactly if COMPLETED) stays in order under every routed transaction except for exactly a FAILED write over its COMPLETED row |
| Invariants.TxKeepsAudited | server/src/services/paymentService.js:254-298 | an intent's history stays a legal path to its status under every transaction except for exactly a FAILED write over its row no longer PENDING, and then it is broken for good |
| Ledger.AttemptKeepsPlace | server/src/repositories/paymentRepository.js:137-168 | no transaction on any store changes the place, number, intent or payment id of an attempt row |
| Invariants.SettledAttemptStays | server/src/services/paymentService.js:208-266 | the attempt row behind a transaction keeps its status too, wherever the money of its own intent is in order |
| Invariants.FactOnRecord | server/src/services/paymentService.js:208-266 | the attempt on record for a fact says how far it took the intent, or that a capture was for another amount or currency, which changes nothing else; a fact that is late or says nothing leaves everything as it was |
| Invariants.NextNumberIsFree | server/src/repositories/paymentRepository.js:170-176 | the next attempt number is unused, so the (intent, number) constraint is never violated |
| Interleaving.AloneIsAtomic | server/src/services/paymentService.js:194-306 | a transaction run statement by statement with nobody else does what the one-step transaction does, and throws in exactly the same cases |
| Interleaving.ReachAgrees | server/src/repositories/paymentRepository.js:31-37 | the locks a transaction holds determine everything it has read so far, whatever others commit |
| Interleaving.CommitAgrees | server/src/config/database.js:41-53 | what a transaction commits is invisible through any locks it does not hold |
| Interleaving.InterleavingRefinesSerial | server/src/config/database.js:41-53 | however statements interleave, block and roll back, the committed store is the serial outcome of the committed transactions in commit order; a rolled-back one leaves no trace |
| Interleaving.SerialSchedule | server/src/config/database.js:41-53 | conversely every sequence of transactions none of which throws is the commit log of some schedule |
| Interleaving.DisjointOverlap | server/src/config/database.js:41-53 | any two transactions that lock different things can have all their statements run before either commits, and then commit in either order |
| Interleaving.InterleavedStoreIsSoundIff | server/src/services/paymentService.js:66-76 | however routed transactions interleave, the committed store is sound if and only if each FAILED write that committed found its row PENDING |
| Interleaving.InterleavedStoreIsSound | server/src/services/paymentService.js:150-172 | it is enough that each FAILED write finds its row PENDING when it takes the row lock: every store any schedule of routed transactions commits is then sound |
| Orchestration.RunsAreWired | server/src/services/paymentService.js:23-366 | in every run, lost orders included: one order per intent, attempt numbers in order, facts routed and transactions booked to the intent of their order, and an intent without an order row moved by its own creation only |
| Orchestration.GuardedRunsAreSound | server/src/services/paymentService.js:23-366 | in every guarded run, that is one whose FAILED writes find PENDING, the store invariant holds as well |
| Orchestration.RunsAreSoundIffGuarded | server/src/services/paymentService.js:86-116 | after any run the store invariant holds if and only if every unguarded FAILED write in it found its row PENDING |
| Orchestration.GuardedIntentByIntent | server/src/services/paymentService.js:66-116 | a run is guarded if and only if each single intent's FAILED writes found it PENDING |
| Orchestration.NoLostOrderMeansGuarded | server/src/services/paymentService.js:64-116 | a creation none of whose persist attempts committed unnoticed writes FAILED over PENDING, whatever else runs meanwhile |
| Orchestration.OrderRowNeedsCommit | server/src/repositories/paymentRepository.js:67-78 | an intent has an order row only if one of its own persist attempts committed |
| LostOrder.LostAcknowledgementsUndoSettlement | server/src/services/paymentService.js:86-116 | a possible run in which lost acknowledgements turn a COMPLETED intent FAILED beside its transaction |
| RunProperties.LogReplaysRun | server/src/config/database.js:41-53 | from any point of any run on, the store is the serial outcome of the transactions committed since, none of which throws |
| RunProperties.InterleavedRunsAreSound | server/src/config/database.js:41-53 | a statement-level schedule committing a run's transactions commits exactly that run's store, sound if and only if the run is guarded |
| RunProperties.EveryRunHasASchedule | server/src/config/database.js:41-53 | every run has such a schedule, rejected transactions rolled back and out of its log |
| RunProperties.RunsEndAtTheTop | server/src/services/paymentService.js:199-298 | from any point of any run on, an intent ends at the highest ladder value of what reaches it, or EXPIRED if an expiry met it at PROCESSING or below, as long as its own FAILED write does not meet it terminal; no condition on other intents or on routing |
| RunProperties.RunsAgreeOnFacts | server/src/services/paymentService.js:199-298 | two runs that bring an intent the same facts in any order, multiplicity and company leave it with the same status unless one expires it or its own FAILED write meets it terminal |
| RunProperties.AnyTrafficCanArrive | server/src/services/paymentService.js:194-366 | after any run a new intent can be created and then its payments, expiries and reports of anything can commit in any order and repetition; it ends at the highest of what reached it, or EXPIRED |
| RunProperties.CreationFails | server/src/services/paymentService.js:56-116 | a creation whose order is refused or whose one to three persist attempts go unheard can end FAILED, with an order row exactly if one of them committed |
| RunProperties.AuditedIffSpared | server/src/services/paymentService.js:66-116 | after any run an intent's history is a legal path to its status if and only if each FAILED write of its own creation found it PENDING; otherwise it is broken for good |
| RunProperties.AuditTrail | server/src/services/paymentService.js:254-298 | that history has at most six rows, the status is one of five, and at most three commits changed it however many facts arrived |
| RunProperties.TerminalIsFinal | server/src/domain/paymentTransitions.js:68-78 | in any run, a COMPLETED or EXPIRED intent stays so after every later event if and only if none of them is the FAILED write of its own creation |
| RunProperties.FactsAreRouted | server/src/services/webhookService.js:39-62 | in every run, lost orders included, each fact passed on names the one order of its intent, by either lookup, and that mapping never changes later |
| RunProperties.AttemptNumbers | server/src/repositories/paymentRepository.js:137-176 | in every run, lost orders included, attempt numbers are exactly 1..n per intent and payment ids are unique |
| RunProperties.AttemptsKeepTheirPlace | server/src/repositories/paymentRepository.js:137-217 | in every run no later event changes the place, intent, number or payment id of an attempt, nor anything about a transaction |
| RunProperties.SettledHasOneAttempt | server/src/services/paymentService.js:256-286 | a transaction has exactly one attempt row, SUCCEEDED, in every run in which the FAILED write of its own intent never met it COMPLETED |
| RunProperties.SettledAttemptsAreFinal | server/src/services/paymentService.js:208-286 | in the same runs no later event changes the attempt row behind the transaction |
| Conservation.SumTakeOut | server/src/services/paymentService.js:278-286 | a total is any one of its amounts plus the total of the rest |
| Conservation.SumOfPaired | server/src/services/paymentService.js:278-286 | two tables paired one to one with equal amounts have equal sums, in whatever order they are added up |
| Conservation.LedgerBalances | server/src/services/paymentService.js:226-286 | in a store whose ledger is in order the totals of transactions and completed intents agree in every currency |
| RunProperties.PaidIffSpared | server/src/services/paymentService.js:226-286 | the money of an intent is in order all along any run if and only if its own FAILED write never meets it COMPLETED |
| RunProperties.LedgerIffSpared | server/src/services/paymentService.js:86-116 | the whole ledger is in order all along any run if and only if no FAILED write in it meets a COMPLETED row |
| RunProperties.MoneyIsConserved | server/src/services/paymentService.js:226-286 | in every such run completed intents and transactions pair up with equal amount and currency, and per currency the totals agree |
| Confluence.CaptureWins | server/src/services/paymentService.js:199-298 | an intent ends at the highest ladder value among the facts applied to it, a failed creation of its own counting as FAILED, unless an expiry met it at PROCESSING or below: then EXPIRED for good; asked only that its own FAILED write does not meet it terminal |
| Confluence.TopIsMaximum | server/src/domain/gatewayStatusMapping.js:11-15 | that value bounds everything applied and is attained |
| Confluence.TransactionsFollowStatus | server/src/services/paymentService.js:278-298 | an intent has one transaction of its own amount if COMPLETED, else none |
| Confluence.ArrivalOrderIsIrrelevant | server/src/services/paymentService.js:199-298 | two logs with the same set of facts for an intent, in any order and multiplicity, none expiring it and no FAILED write of its own meeting it terminal, give the same status, transaction count and settled amount |
| Replay.StandingIsAbsorbed | server/src/services/paymentService.js:208-222 | in any log, every fact applied to a known intent that no FAILED write has met terminal since would, applied again at the end, add no row and change nothing but an attempt status |
| Replay.AbsorptionLost | server/src/services/paymentService.js:66-116 | such a write undoes the absorption of exactly the captures that settle the intent, and of mismatched captures that left no attempt row |
| Replay.ReplayAfterFailedWriteMatters | server/src/services/paymentService.js:66-116 | for every capture that settles an intent: settled, failed by the FAILED write, and settled again by the same capture applied again |
| Replay.ReplaysCanBeDeleted | server/src/services/paymentService.js:208-222 | deleting from any log all re-applications of facts that still stand in that sense leaves statuses, orders, transactions and history the same, and attempt rows up to their status |
| Replay.DedupKeepsFacts | server/src/services/paymentService.js:208-222 | the shorter log still applies every fact |
| Replay.DedupAppliesOnce | server/src/services/paymentService.js:208-222 | and each once to every intent whose own FAILED write does not meet it terminal |
| Ownership.OwnedIffNoForeignReport | server/src/services/paymentService.js:148-177 | after any log every attempt row belongs to the intent of its payment if and only if no client report in it named another intent's new payment; once lost, never regained |
| Ownership.SettledByOwnAttempt | server/src/repositories/paymentRepository.js:137-168 | without such reports each transaction's attempt belongs to the intent it settled, and says SUCCEEDED unless that intent's FAILED write met it COMPLETED |
| Ownership.ForeignReportMisfiles | server/src/services/paymentService.js:148-177 | reporting a payment under intent b and then capturing it for a settles a on an attempt row of b |
| Webhooks.AtMostOneHandled | server/src/services/webhookService.js:98-110 | of any concurrent deliveries of one event at most one passes the duplicate check, and all others that return say DUPLICATE |
| Webhooks.DeliveryAlone | server/src/services/webhookService.js:98-123 | from any state, a delivery nobody disturbs can run to its reply: DUPLICATE for a known event, its payment applied and PROCESSED for a new one, FAILED if malformed |
| Webhooks.ProcessedMeansSettled | server/src/services/webhookService.js:28-65 | whatever else commits, an event is PROCESSED only if unhandled by type, for an order unknown when looked up, with its fact absorbed, or for an intent its own FAILED write met terminal |
| Webhooks.CrashesAndRerunsAreHarmless | server/src/services/webhookService.js:112-122 | whatever else commits, any schedule of deliveries, crashes and re-runs leaves the store that its log leaves without the re-applications of standing facts, attempt statuses aside |
| Webhooks.CrashedDeliveryIsRerun | server/src/services/webhookService.js:28-65 | a delivery can crash between its COMMIT and its mark, its event run again and end PROCESSED, and the fact applied twice leaves what applying it once does, attempt statuses aside |
| Reconciliation.VerdictByStatus | server/src/services/reconciliationService.js:16-27 | the verdict depends only on which statuses occur in the gateway's list; it names the first payment of its status |
| Reconciliation.OutcomeMeans | server/src/services/reconciliationService.js:36-78 | the answer says what the list shows and what became of the status: a success exactly for a capture, a failure for a failure alone, UNKNOWN for an authorization without capture, expiry or too recent for none of them, `applied` exactly if the status moved, and to which |
| Reconciliation.ReconcileRepairs | server/src/services/reconciliationService.js:46-66 | what is done about the list: the first capture is applied, else nothing with an authorization, else the first failure is applied, else an intent old enough expires |
| Invariants.LatestOrderIsLast | server/src/services/reconciliationService.js:43-44 | the order reconciled against is the last row of the intent |
| Reconciliation.RepairNeverOvertakes | server/src/services/reconciliationService.js:36-58 | for any list of payments a repair never leaves the intent above what applying the whole list would; with matching amounts, equal exactly when there is a capture, a failure without authorization, or nothing new |
| Sweep.NeverTooRecent | server/src/services/reconciliationService.js:59-63 | nothing selected as PENDING is ever too recent to expire, nor anything selected as PROCESSING under a timeout no shorter |
| Sweep.SweepEffect | server/src/services/reconciliationService.js:105-116 | whatever the timeouts, the loop resolves every candidate that is due and changes nobody else's row |
| Sweep.SweepRow | server/src/services/reconciliationService.js:105-116 | the loop does to each candidate's row what reconciling it first would have done |
| Sweep.RoundDrains | server/src/repositories/paymentRepository.js:47-56 | one sweep shrinks the resolvable intents of a status by at least 200 minus the unresolvable ones, or to none |
| Sweep.SweepsDrain | server/src/services/reconciliationService.js:85-120 | ceil(R / (200 - U)) sweeps resolve all R resolvable intents of a status beside U < 200 unresolvable ones |
| Sweep.DrainedSweepIsQuiet | server/src/services/reconciliationService.js:85-120 | after that a sweep changes no status, order, transaction or history row |
| Leases.OneOutcomeIffTimeoutCovers | server/src/middleware/idempotency.js:95-108 | a key produces one outcome, the same payload to the same request, in every run whose owners finish within a given time of their grant, if and only if the in-progress timeout is at least that time |
| Idempotency.TimelyRunsAreExclusive | server/src/middleware/idempotency.js:95-108 | owners that finish within the timeout are never overtaken, and no key has two |
| Idempotency.OneOutcomePerKey | server/src/middleware/idempotency.js:58-118 | in a run in which no reclaim of this key overtakes a running owner, whatever happens under others, it has one running owner, and all its 201 replies, first or replayed, carry the stored payload and go to requests with the record's hash |
| Idempotency.CompletedForGood | server/src/repositories/idempotencyRepository.js:39-53 | in such a run the key's COMPLETED record never changes or disappears |
| Idempotency.AloneIsServed | server/src/middleware/idempotency.js:58-118 | from any state, a request nobody disturbs becomes owner of a new record, is answered with the stored payload if it repeats a completed request and refused if it differs from it, takes over a stale record, and is refused under a live one |
| Idempotency.RepeatGetsFirstAnswer | server/src/middleware/idempotency.js:58-118 | a request under a new key creates and stores its answer, and the same request sent again gets that payload without owning anything, even if the first was not told that it was stored |
| Idempotency.CrashedOwnerIsReplaced | server/src/repositories/idempotencyRepository.js:65-75 | an owner that crashes is replaced by the next request once the timeout has passed, under the same record id |
| Idempotency.ReleasedKeyIsFree | server/src/repositories/idempotencyRepository.js:51-53 | a key released by its owner goes to the next request as a new record |
| Leases.LeaseBounds | server/src/repositories/idempotencyRepository.js:65-75 | n successive grants of a record lie more than the timeout apart, so they span at least n - 1 timeouts, and at most n intents are created under it |
| Leases.LeaseRecordsGrants | server/src/repositories/idempotencyRepository.js:65-75 | the grants and creators counted there are all of them: each event adds exactly the grant or intent it makes |
| Leases.OverrunSplitsKey | server/src/middleware/idempotency.js:95-108 | for every timeout, key, request and two payloads, a run in which a claimant slower than the timeout and its successor answer the one key with both |
| Retry.PermanentIffClientError | server/src/lib/retry.js:37-58 | an unclassified error is permanent exactly for a 4xx status other than 429, whatever its code |
| Retry.RetryWithBackoff | server/src/lib/retry.js:68-102 | attempts run exactly up to the first success or permanent error, at most n; the result is that outcome or the classified nth error; the pauses sum to exactly min(cap, base * 2^(k-1)) * (1 + 0.2 * jitter) over the failed attempts k, and the time to that plus the attempts |
| Retry.PausesBound | server/src/lib/retry.js:94-98 | the pauses sum to at least the capped doubling backoffs and at most 1.2 times them |
| Retry.BackoffsUncapped | server/src/lib/retry.js:94-95 | short of the cap, n backoffs take base * (2^n - 1) |
| Retry.SpendBound | server/src/lib/retry.js:94-98 | n attempts pause at most 1.2 * min(base * (2^(n-1) - 1), (n-1) * cap) in all |
| Latency.HoldingTimeBound | server/src/services/gatewayService.js:18-31 | with gateway calls of at most G and units of work of at most D, claim to complete or release takes at most 3G + 7D + 1080 ms |
| Latency.HoldingTimeIs | server/src/services/paymentService.js:56-124 | that time is the sum of the units of work and the two retried calls, with their pauses, that the request reaches in each case |
| Latency.CreatePayment | server/src/services/paymentService.js:56-124 | succeeds exactly when every stage does, in the time the specification adds up |
| Latency.Create | server/src/controllers/paymentController.js:17-42 | releases after a failed creation, completes after a successful one, and ends within the bound |
| Latency.TimeoutAboveBoundSuffices | server/src/middleware/idempotency.js:95-108 | with an in-progress timeout of at least that bound no key has two owners and every 201 carries the stored payload, given only that the clock does not pass the end of a request's own timeline while the request still runs |
| PaymentService.PaymentStore.InsertOrder | server/src/repositories/paymentRepository.js:67-78 | inserts unless the gateway order id is known, and returns the row that is there |
| PaymentService.PaymentStore.NextAttemptNumber | server/src/repositories/paymentRepository.js:170-176 | one more than every number the intent has |
| PaymentService.PaymentStore.InsertAttempt | server/src/repositories/paymentRepository.js:96-124 | appends unless number or payment id is taken |
| PaymentService.PaymentStore.UpsertAttempt | server/src/repositories/paymentRepository.js:137-168 | a known payment keeps its row and takes the new status; only a clash of numbers fails |
| PaymentService.PaymentStore.InsertTransactionIfAbsent | server/src/repositories/paymentRepository.js:201-217 | a payment is booked once |
| PaymentService.PaymentStore.ApplyGatewayOutcome | server/src/services/paymentService.js:194-306 | whichever statement throws and however the COMMIT ends, the outcome is exactly that of the one-step transaction or none at all, and the result says which errors are possible when |
| PaymentService.PaymentStore.ExpireStalePayment | server/src/services/paymentService.js:349-370 | expires exactly the intents the re-checked status allows, or does nothing, under the same faults |
| PaymentService.PaymentStore.ReportClientFailure | server/src/services/paymentService.js:148-177 | a new payment id, or none, appends one row: this intent's, numbered above all its others, CLIENT_REPORTED; a known id is answered with the attempt of that payment; nothing else changes |
| PaymentService.PaymentStore.VerifyPayment | server/src/services/paymentService.js:315-341 | a fact is applied only if order, signature and gateway agree, and each refusal has exactly its reason and no effect |
| PaymentService.PaymentStore.PersistWithRetry | server/src/services/paymentService.js:86-100 | for an order id not yet stored, the row is there afterwards if and only if some attempt up to the third, with none before it acknowledged or permanent, commits, heard or not; it answers exactly when one is also acknowledged, with the owner of the row that is there |
| PaymentService.PaymentStore.CreatePayment | server/src/services/paymentService.js:23-124 | exactly when the order row, the intent and its FAILED status are there afterwards, told from the opening, the gateway's answer and the persist attempts, whatever throws; without lost acknowledgements a failed creation leaves no order row |
| Services.WebhookService.InsertIfAbsent | server/src/repositories/webhookRepository.js:13-29 | one row per event id |
| Services.WebhookService.ProcessEvent | server/src/services/webhookService.js:28-65 | gets through exactly when nothing it needs throws; then a payment for a known order has had its one-step outcome on the intent the order names, and anything else changes nothing; unknown order or type is IGNORED; an error leaves no trace unless a COMMIT was reported as failed |
| Services.WebhookService.HandleRazorpayWebhook | server/src/services/webhookService.js:73-123 | a bad signature or body and a duplicate change nothing; a well-formed new event without faults is PROCESSED; then a payment for a known order has raised its intent to the higher of its status and the fact's worth, booked exactly a matching capture that settles it, and is absorbed; otherwise the event ends FAILED, or as processing left it if marking throws too |
| Services.FactLands | server/src/services/paymentService.js:194-306 | applying a fact takes the status to the higher of what it was and what the fact is worth, books a transaction in exactly the settling case, and leaves the fact absorbed |
| Services.ReconcileIntent | server/src/services/reconciliationService.js:36-78 | the answer told from the latest order's payments and the intent's status before and after: SUCCESS or FAILED repair, UNKNOWN, too recent, EXPIRED, NO_ORDER or an error in exactly its case, `applied` exactly if the status changed; an error leaves no trace unless a COMMIT was reported as failed |
| Services.RunReconciliationSweep | server/src/services/reconciliationService.js:85-120 | for any timeouts, one report per candidate in order, each meaning of the intent's status before and after the sweep what it says; an error touches only its own candidate; if every turn takes effect the sweep is the round the drain bound is about |
| IdempotencyStore.HashIdentifiesRequests | server/src/middleware/idempotency.js:14-22 | two bodies hash alike exactly when their other fields agree and their currencies are letter by letter the same but for case |
| IdempotencyStore.Records.Claim | server/src/repositories/idempotencyRepository.js:14-29 | wins exactly when the key has no record, else shows the record there when it reads, if it is still there |
| IdempotencyStore.Records.Complete | server/src/repositories/idempotencyRepository.js:39-48 | exactly the rows with the id become COMPLETED with the payload, even one reclaimed or completed meanwhile; keys, ids, hashes and times stay, and so do all other rows |
| IdempotencyStore.Records.Release | server/src/repositories/idempotencyRepository.js:51-53 | exactly the rows without the id remain, unchanged |
| IdempotencyStore.Records.ReclaimStale | server/src/repositories/idempotencyRepository.js:65-75 | takes over exactly a record in progress and stale, keeping its id; it cannot be taken over again at once |
| IdempotencyStore.Records.Middleware | server/src/middleware/idempotency.js:58-118 | whatever other requests do between its statements and whichever of them throws: proceed, replay, conflict, in progress after a lost reclaim race, or an error, each in exactly its case |

## Left out

- Express routing, validation of requests, rate limiting, logging, metrics, the checkout page: no property beyond their bodies.
- Refunds, which are not implemented, and cancellation, which the table allows and no code performs.
- Expiry of completed idempotency records: `expires_at` is written and never read.
- Failure codes, reasons, sources, raw payloads, receipts and customer data on rows: stored and never decided on.
- Currency is taken as already upper-cased when an intent is created; `HashRequest` upper-cases ASCII letters only.
- History in the order `findStateHistory` returns: `created_at` is the transaction's start, so rows can tie or swap. Histories here are in commit order.
- Automatic retry of webhook events: no code calls `findPendingForRetry`, and a redelivered FAILED event is a duplicate. Re-runs are explicit steps and no liveness is claimed.
- The final status IGNORED: `processEvent` sets it and the handler then sets PROCESSED, as modelled.
- The worker's interval, environment parsing and the migration runner.
- Interleaving.InterleavingRefinesSerial: a transaction locks its intent row at its start although `createPayment`'s FAILED write and the opening insert lock at their first statement; foreign-key share locks are not modelled, and neither are deadlocks, which end in a rollback.
- Orders the gateway created whose persist never committed are not tracked: nothing in the store refers to them.
- RunProperties.InterleavedRunsAreSound: relates a statement-level schedule to a run by the transactions both commit; reads outside transactions, such as order lookups, are steps of `Orchestration` only.
- Sweep.SweepsDrain: states the bound for a closed stuck set and a fixed gateway view, with no other traffic and no errors between the sweeps; errors within one sweep are in `Services.RunReconciliationSweep`. The PROCESSING bound takes that timeout to be no shorter than the PENDING one.
- Services.WebhookService.HandleRazorpayWebhook: no other delivery runs between its statements; races and crashes are in `Webhooks`.
- Latency.TimeoutAboveBoundSuffices: a request's own timeline is that of `Latency.Create`; that the protocol's clock keeps to it is a condition on when the clock may tick, not derived from a scheduler.
