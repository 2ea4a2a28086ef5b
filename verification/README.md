# ServiceHub billing and contracts, verified

This project models the money-handling core of the ServiceHub back end and proves what it promises. Each module
follows one part of the program:

- **Payout engine** (`Ledger`, `PayoutJobs`, `Reservation`, `PayoutResults`, `LedgerStore`, `RetryQueue`,
  `ExactlyOnce`, `PayoutRounds`, `PayoutsService`): what is offered for payout, how a job is built, checked,
  reserved, created at PayOS and folded back, and the crash-safe Redis queue that drives it. `Store`, `RedisQueue`,
  `PayOs` and `Service` update their fields in place; every method states its whole effect by the functions of
  `PayoutRounds`, `RetryQueue`, `Reservation` and `PayoutResults`.
- **Money safety** (`MoneyMachine`, `MoneySafety`, `MoneyLimits`, `MoneyMishaps`, `AmountChain`, `RevenueSummary`,
  `PayoutRefinement`): a machine as permissive as retries, crashes and several workers allow; solvency over all its
  runs; the exact edge of every condition it needs, each with a run from an empty ledger that crosses it; and the proof
  that the service's own methods are runs of it.
- **Settlement** (`Outbox`, `Inbox`, `Settlement`, `SettlementSafety`, `SettlementRaces`, `SettlementOnce`,
  `BillingService`): cash, QR links, webhooks, polls, the background worker, contract events and the maintenance
  worker racing over invoices, and what all of them together keep.
- **Both halves of billing** (`PaymentToPayout`, `WholeBilling`, `BillingMishaps`): payments and payouts interleaved
  over one ledger.
- **Reconciliation schedule** (`ReconcileSchedule`): the leased sorted set and the bound on PayOS calls per link.
- **Activation saga** (`Contracts`, `ActivationSaga`, `ContractService`): at-least-once messages between the whole of
  billing and the contracts, with an inbox on both sides and a deduplicating outbox.
- **Restrictions**, **Percentages**, and the **PDF writer** (`PdfText`, `PdfTokens`, `PdfBytes`, `PdfWriter`,
  `PdfReader`).

`Sums` holds the vocabulary of totals and filters the rest is stated in.

## What the strongest claims rest on

`MoneySafety.Solvent` holds of runs in which: no scheduled run allocates an invoice a queued, still unreserved job
claims; PayOS reports truthfully, and a failure or cancellation it has reported is final and stays in later
responses with the amount asked for; the cumulative amount PayOS reports as paid never decreases; run and batch ids
are fresh. PayOS returns the batch it already has for a known idempotency key. `ScheduleSafeExactly`,
`SettleSafeExactly` and `DebitsRiseExactlyOnRevival` are the exact edges of the first three, and `TwoRunsOverdraw`,
`SmallerFigureOverdraws` and `RevivedRowOverdraws` runs from an empty ledger that cross them and lose money.
`RequeueSafeExactly` and `AcknowledgeSafeExactly` are the condition that one worker runs at a time; `OutlivedLock` is
what happens otherwise.

In the settlement histories each handler is one step, and besides, its transactions may run late, after its look at
the invoices is out of date: settling, failing, deleting, prepayments and fines, and both writes of a QR request. Paid
invoices survive exactly as long as no late deletion finds one paid that it had read to be unpaid
(`PaidIsLostExactly`); histories of which this is so are called sparing, and what is said of payments, credits and
messages is proved of all of them. What fails in other ways has its own exact condition: a second successful payment
(`SecondSuccessExactly`, `NobodyPaysTwice`), a pending payment of a paid invoice (`LeftPendingExactly`), messages out
of order (`RepublishOrderedExactly`), a second fine for one case (`TwoFinesExactly`). In a contract's life every
handler that writes without looking again has a late form too. A cash payment's idempotency key is never a PayOS link
id.

Where the code does less than its comments or its design say, the code is kept and the gap is proved: a failed inbox
claim is never retried (`FailedDeliveryIsLast`), a second paid invoice of an unsigned contract is never refunded
(`EclipsedIsNeverRefunded`), a provider can be notified of a payout a later transaction of the same response fails
(`RetractedSuccessIsStillNotified`), a stale revision can be written back (`RefundOvertakesRepublishing`), a paid
invoice can be deleted (`DeletionOvertakesPayment`), a settled payment can be made pending again
(`QrRequestUndoesPayment`), one case can be fined twice (`OneCaseTwoFines`), an invoice to be refunded can be paid out
(`RefundedAndPaidOut`), a contract can become active with its signatures unchecked
(`UpdateDuringApprovalForgetsSignatures`), money that reaches a link after a cash payment is not credited
(`NewsOfAPaidInvoiceIsIgnored`).

## Model

| member | source | states |
|---|---|---|
| `MoneySafety.Solvent` | apps/billing-service/src/payouts/payouts.service.ts:587-641 | In every state any run of settlements, scheduled runs, reservations, creations, results, mark-unknowns, transfers and refusals reaches, what PayOS has moved for an invoice is at most its live payout rows, and those plus every queued unreserved claim are at most its income |
| `MoneySafety.StepKeeps` | apps/billing-service/src/payouts/payouts.service.ts:446-557 | Each step of the engine, repeated and in any order its own sequencing allows, keeps the whole money invariant |
| `MoneyLimits.ScheduleSafeExactly` | apps/billing-service/src/payouts/payouts.service.ts:244-265 | A scheduled run keeps every invoice within its income if and only if no queued job still without reservation claims an invoice the run allocates |
| `MoneyLimits.SecondRunBeforeReservationOverdraws` | apps/billing-service/src/payouts/payouts.service.ts:244-265 | Whatever the ledger and the profiles of either run: a run that dies between queueing and reserving, followed by a second run before the worker reserves, debits every invoice both took from beyond its income |
| `MoneyMishaps.TwoRunsOverdraw` | apps/billing-service/src/payouts/payouts.service.ts:244-265 | From an empty ledger: settle, two runs, then both reservations end with an invoice debited past its income |
| `MoneyMishaps.SmallerFigureOverdraws` | apps/billing-service/src/payments/customer.payments.service.ts:525-547 | From an empty ledger: a smaller figure reported after the reservation ends with an invoice debited past its income |
| `MoneyMishaps.RevivedRowOverdraws` | apps/billing-service/src/payouts/payouts.service.ts:533-553 | From an empty ledger: a failed payout, its invoice reserved again, and a response that leaves the provider out of the first batch end with the invoice debited past its income |
| `MoneyLimits.ScheduledAllOrNothing` | apps/billing-service/src/payouts/payouts.service.ts:617-640 | A run takes all that is left of an invoice or nothing of it |
| `MoneyLimits.SettleSafeExactly` | apps/billing-service/src/payments/customer.payments.service.ts:525-547 | Recording a new cumulative amount keeps an invoice covered if and only if the amount still covers its debits and promises |
| `PayoutRefinement.AttemptRuns` | apps/billing-service/src/payouts/payouts.service.ts:351-409 | One attempt at a payout job, with any mix of failures, is a run of the money machine: reserve, create, then persist or mark unknown, ending in the same ledger and the same PayOS batches |
| `PayoutRefinement.AttemptRefines` | apps/billing-service/src/payouts/payouts.service.ts:136-161 | An attempt at any queued job keeps the service and the money machine in step, requeued job included |
| `PayoutRefinement.RoundStaysSolvent` | apps/billing-service/src/payouts/payouts.service.ts:124-168 | A whole worker round keeps the service in step with a safe machine state: no invoice is debited past its credit afterwards |
| `PayoutRefinement.ScheduledRunRefines` | apps/billing-service/src/payouts/payouts.service.ts:174-268 | A scheduled run with something to pay always gets its reservation and is the machine's schedule and reserve steps |
| `PayoutJobs.GroupingPartitions` | apps/billing-service/src/payouts/payouts.service.ts:643-653 | Grouping by provider splits the offers: distinct providers, each group exactly that provider's offers in order |
| `PayoutJobs.GroupingConserves` | apps/billing-service/src/payouts/payouts.service.ts:643-653 | Grouping exchanges sums: any total over the offers is the total over the groups |
| `PayoutJobs.OffersCovered` | apps/billing-service/src/payouts/payouts.service.ts:617-640 | An invoice is offered at most once over, for exactly its income less its live debits |
| `PayoutJobs.AcceptedItemListsItsInvoices` | apps/billing-service/src/payouts/payouts.service.ts:687-713 | Equal lengths and shares all listed force the shares and the listed invoices to be the same set without repeats |
| `PayoutJobs.BuiltRequestAccepted` | apps/billing-service/src/payouts/payouts.service.ts:190-233 | A built job passes the reservation's checks if and only if no provider to be paid is offered an invoice twice |
| `PayoutJobs.LinesToProvider` | apps/billing-service/src/payouts/payouts.service.ts:740-786 | The lines addressed to a provider add up to its allocation |
| `PayoutJobs.BuiltLinesWithinGroups` | apps/billing-service/src/payouts/payouts.service.ts:190-233 | What a built job takes from an invoice is positive and at most what was offered for it |
| `AmountChain.ScheduledJobIsReservable` | apps/billing-service/src/payouts/payouts.service.ts:681-788 | Every job a scheduled run builds is reservable, and the rows it reserves per provider add up to that provider's instruction |
| `AmountChain.ComparedAmountIsAskedAmount` | apps/billing-service/src/payouts/payouts.service.ts:492-500 | In every reachable state the figure a PayOS response is compared with is the amount PayOS was asked to pay |
| `AmountChain.RetriedJobIsReservable` | apps/billing-service/src/payouts/payouts.service.ts:715-787 | A reserved job that comes round again adds nothing and conflicts with nothing; it is refused if and only if its batch row was re-addressed to a third id |
| `Reservation.ReservationCovers` | apps/billing-service/src/payouts/payouts.service.ts:740-786 | After a reservation every line of the job has its row |
| `Reservation.ReservationIsIdempotent` | apps/billing-service/src/payouts/payouts.service.ts:740-786 | Reserving again at any later time, whatever results came in between, adds no row |
| `Reservation.ReservationNeverConflictsLater` | apps/billing-service/src/payouts/payouts.service.ts:751-766 | A reservation that found no conflict finds none later |
| `Reservation.RetriesReserveOnce` | apps/billing-service/src/payouts/payouts.service.ts:715-787 | Any number of reservations interleaved with results leave the rows of one reservation |
| `Reservation.ReservedRowsMatchItem` | apps/billing-service/src/payouts/payouts.service.ts:740-786 | The rows reserved for a provider sum to the amount of its instruction |
| `PayoutResults.OneStatusPerProvider` | apps/billing-service/src/payouts/payouts.service.ts:464-555 | After results all rows of a batch and provider share one status |
| `PayoutResults.ResponseDecidesRow` | apps/billing-service/src/payouts/payouts.service.ts:480-553 | For every response: a row of the batch gets a status other than UNKNOWN if and only if the last transaction naming its provider has that status and exactly the requested total, so a provider left out, a differing amount and an inconclusive state all give UNKNOWN; nothing but statuses of the batch changes |
| `PayoutResults.PersistIsIdempotent` | apps/billing-service/src/payouts/payouts.service.ts:446-558 | Folding the same response in twice is folding it in once |
| `PayoutResults.NotifiedExactlySucceeded` | apps/billing-service/src/payouts/payouts.service.ts:528-531 | Every provider whose rows end SUCCEEDED is named, and a named provider's rows end SUCCEEDED if and only if no later transaction in the response retracts it |
| `PayoutResults.RetractedSuccessIsStillNotified` | apps/billing-service/src/payouts/payouts.service.ts:480-531 | A response with a success and then a failure for one provider names a provider whose rows end FAILED |
| `PayoutResults.DebitsRiseExactlyOnRevival` | apps/billing-service/src/payouts/payouts.service.ts:446-558 | Results raise some invoice's live debits if and only if they bring a dead row back to life |
| `RetryQueue.NoJobLostOrDoubled` | apps/billing-service/src/payouts/payouts.service.ts:270-348 | Over every run with crashes and recoveries: a job id is in the two lists together, once, exactly while it is accepted and unacknowledged |
| `RetryQueue.RunRefines` | apps/billing-service/src/payouts/payouts.service.ts:270-348 | The two Redis lists and the markers refine a plain book of owed and completed jobs |
| `RetryQueue.RequeueSafeExactly` | apps/billing-service/src/payouts/payouts.service.ts:340-348 | Giving a job back keeps the queue sound if and only if the worker still holds it |
| `RetryQueue.AcknowledgeSafeExactly` | apps/billing-service/src/payouts/payouts.service.ts:323-338 | Acknowledging a job keeps the queue sound if and only if the worker still holds it or nobody owes it any more |
| `RetryQueue.OutlivedLock` | apps/billing-service/src/payouts/payouts.service.ts:323-348 | From an empty queue: a job taken and recovered by a second worker is queued twice when the first returns it, and queued without its marker when the first acknowledges it |
| `RetryQueue.OneNotificationPerBatch` | apps/billing-service/src/payouts/payouts.service.ts:281-287 | However often results come back, one notification job per batch is ever accepted |
| `ExactlyOnce.OneExternalBatchPerJob` | apps/billing-service/src/payouts/payouts.service.ts:377-390 | However its attempts fail, time out, crash and are retried, a job opens at most one PayOS batch and any payout id it carries is that batch's |
| `ExactlyOnce.EachProviderOnce` | apps/billing-service/src/payouts/payouts.service.ts:352-364 | Without crashes, over any number of retries each named provider's notification is acknowledged at most once, and each has acknowledged or is still owed; a call that times out counts as failed and is made again, though it may have arrived |
| `LedgerStore.Store.FindEligibleInvoices` | apps/billing-service/src/payouts/payouts.service.ts:587-641 | The two passes over credits and debits compute, per paid credit, the income less all live debits, when positive and safe |
| `LedgerStore.Store.CheckAllocations` | apps/billing-service/src/payouts/payouts.service.ts:687-713 | The item-by-item checks succeed if and only if every item has a matching allocation of the same sum and invoices |
| `LedgerStore.Store.ReserveAllocation` | apps/billing-service/src/payouts/payouts.service.ts:751-786 | One provider's lines: fails exactly on a conflicting row, otherwise adds exactly the missing rows |
| `LedgerStore.Store.ReserveShare` | apps/billing-service/src/payouts/payouts.service.ts:751-784 | One line: refused exactly when its row is there and disagrees, added exactly when it is not there |
| `LedgerStore.Store.ReserveRows` | apps/billing-service/src/payouts/payouts.service.ts:740-786 | All or nothing over all allocations |
| `LedgerStore.Store.EnsureBatchReservation` | apps/billing-service/src/payouts/payouts.service.ts:681-788 | Succeeds exactly when reservable; then the ledger gains exactly the missing rows, else nothing changes |
| `LedgerStore.Store.PersistPayoutResults` | apps/billing-service/src/payouts/payouts.service.ts:446-558 | The transaction loop and the absent-provider loop leave the ledger the per-provider verdict decides, and return the providers it pays |
| `LedgerStore.Store.MarkBatchUnknown` | apps/billing-service/src/payouts/payouts.service.ts:790-818 | Undecided rows of the batch become UNKNOWN, the batch PROCESSING, nothing else moves |
| `PayoutsService.RedisQueue.EnqueueRetry` | apps/billing-service/src/payouts/payouts.service.ts:270-301 | Accepts a job exactly when its id is neither marked nor done, and then pushes and marks it together |
| `PayoutsService.RedisQueue.DequeueRetry` | apps/billing-service/src/payouts/payouts.service.ts:303-321 | Moves the oldest job to the processing list |
| `PayoutsService.RedisQueue.AcknowledgeRetry` | apps/billing-service/src/payouts/payouts.service.ts:323-338 | Drops the job and its marker, and marks a notification done |
| `PayoutsService.RedisQueue.RequeueRetry` | apps/billing-service/src/payouts/payouts.service.ts:340-349 | Moves the worker's copy back with one more attempt |
| `PayoutsService.RedisQueue.RecoverInFlightJobs` | apps/billing-service/src/payouts/payouts.service.ts:820-830 | Terminates with the processing list empty and placed before the queue in its own order |
| `PayoutsService.NotifyProviders` | apps/billing-service/src/payouts/payouts.service.ts:560-585 | Splits the distinct providers into delivered and failed |
| `PayoutsService.GroupInvoicesByProvider` | apps/billing-service/src/payouts/payouts.service.ts:643-653 | The map-filling loop computes the grouping |
| `PayoutsService.BuildPayoutRequest` | apps/billing-service/src/payouts/payouts.service.ts:190-233 | One pass over the groups builds the job for exactly the providers that can be paid |
| `PayoutsService.Service.RunScheduledPayout` | apps/billing-service/src/payouts/payouts.service.ts:174-268 | Queues exactly the prepared job, then reserves it or leaves it queued unreserved |
| `PayoutsService.Service.ProcessPayout` | apps/billing-service/src/payouts/payouts.service.ts:374-408 | Reserve, create once, fold in: the whole state after each way an attempt can end |
| `PayoutsService.Service.ProcessRetryJob` | apps/billing-service/src/payouts/payouts.service.ts:351-409 | Either kind of job, with the failed subset kept for the retry |
| `PayoutsService.Service.ReconcileProcessingBatches` | apps/billing-service/src/payouts/payouts.service.ts:411-444 | Folds PayOS's answers in over the PROCESSING batches, one after the other |
| `PayoutsService.Service.ProcessRetryQueue` | apps/billing-service/src/payouts/payouts.service.ts:124-168 | A round is recovery, reconciliation, then jobs until one fails; nothing stays in flight and the queue stays conserved |
| `PayoutRounds.OpenedOnlyWhenReserved` | apps/billing-service/src/payouts/payouts.service.ts:374-390 | PayOS is asked to open a batch only when every line of the job is on the ledger |
| `PayoutRounds.FailedAttemptOnlyReserves` | apps/billing-service/src/payouts/payouts.service.ts:374-408 | A failed attempt leaves at most the reservation behind |
| `PayoutRounds.RoundKeepsEveryRow` | apps/billing-service/src/payouts/payouts.service.ts:124-168 | Over a round every ledger row keeps its reference, invoice and amount |
| `RevenueSummary.BalanceIsLedgerSum` | apps/billing-service/src/invoices/invoices.service.ts:65-90 | The balance computed from grouped sums is the sum of what each ledger row does to it |
| `RevenueSummary.BalanceIsPerInvoice` | apps/billing-service/src/invoices/invoices.service.ts:65-90 | It is the sum over the provider's invoices of income less live debits, less refunds |
| `RevenueSummary.BalanceCoversOffers` | apps/billing-service/src/invoices/invoices.service.ts:65-90 | In every reachable state the balance is what is left on the invoices, never negative, and never below what the next run would offer |
| `RevenueSummary.ReservationLowersBalance` | apps/billing-service/src/payouts/payouts.service.ts:740-786 | A reservation lowers each payee's balance by exactly its instruction |
| `RevenueSummary.ResultRestoresExactly` | apps/billing-service/src/invoices/invoices.service.ts:65-90 | A result leaves the balance unchanged unless it is a failure, reversal or cancellation, which restores exactly the reserved amount |
| `ReconcileSchedule.PollingIsBounded` | apps/billing-service/src/payments/customer.payments.service.ts:294-437 | PayOS is asked about one link at most 9 times by a single worker that does not crash, and at most 18 times with any workers, crashes and expiries |
| `ReconcileSchedule.ClaimsAreALeaseApart` | apps/billing-service/src/payments/customer.payments.service.ts:294-315 | Successive claims of a link are at least the 60-second lease apart |
| `ReconcileSchedule.NinePollsHappen` | apps/billing-service/src/payments/customer.payments.service.ts:317-437 | The bound of 9 is met by an unpaid link looked at on time |
| `ReconcileSchedule.PassIsSteps` | apps/billing-service/src/payments/customer.payments.service.ts:317-413 | A worker's pass is the machine's inspect, ask and settle-or-retry steps with at most one PayOS call |
| `ReconcileSchedule.ReconcileWorker.ScheduleReconciliation` | apps/billing-service/src/payments/customer.payments.service.ts:62-84 | Opens a link's 20-minute window with its first check after two minutes |
| `ReconcileSchedule.ReconcileWorker.ClaimDuePaymentLinks` | apps/billing-service/src/payments/customer.payments.service.ts:294-315 | Leases exactly the due links the range query returned |
| `ReconcileSchedule.ReconcileWorker.Reschedule` | apps/billing-service/src/payments/customer.payments.service.ts:415-437 | Puts the link back two minutes ahead, or removes it when that is past the window |
| `ReconcileSchedule.ReconcileWorker.ReconcilePaymentLink` | apps/billing-service/src/payments/customer.payments.service.ts:317-413 | Every branch, old three-day entries included, and whether PayOS was asked |
| `ReconcileSchedule.ReconcileWorker.ProcessDuePaymentLinks` | apps/billing-service/src/payments/customer.payments.service.ts:255-292 | A tick does nothing while one runs, else sees every claimed link through and touches no other |
| `SettlementSafety.StepKeeps` | apps/billing-service/src/payments/customer.payments.service.ts:456-550 | Every handler and every transaction working from an out-of-date look keeps the payment invariant and every paid invoice, a deletion provided that none of its invoices has been paid since it looked |
| `SettlementSafety.EveryPaymentCounts` | apps/billing-service/src/payments/customer.payments.service.ts:456-550 | Over every history: a successful payment means a paid invoice; at most one transfer and one cash payment, one income row and only for a PayOS link, one notification |
| `SettlementSafety.PaymentAnnouncedOnce` | apps/billing-service/src/invoices/invoices.service.ts:279-299 | A paid invoice with a contract has exactly one first-hand payment message, an unpaid one none |
| `SettlementSafety.PaidIsFinal` | apps/billing-service/src/invoices/customer.invoices.service.ts:190-243 | Over histories whose deletions spare what has been paid since they looked: once paid an invoice is never deleted, unpaid or changed but for its revision |
| `SettlementSafety.PaidIsLostExactly` | apps/billing-service/src/invoices/invoices.service.ts:593-606 | Over every history: no step loses a paid invoice if and only if no deletion finds an invoice paid that it had read to be unpaid; nothing else, however late, can lose one |
| `SettlementRaces.DeletionOvertakesPayment` | apps/billing-service/src/invoices/customer.invoices.service.ts:190-211 | From empty books: the unpaid invoice of a contract is read, its payment comes in, and the deletion removes the paid invoice while the money stays on the ledger |
| `SettlementRaces.RevisionsIncrease` | apps/billing-service/src/invoices/billing-maintenance.worker.ts:120-143 | While the maintenance worker writes from current revisions every invoice's messages carry strictly increasing revisions |
| `SettlementRaces.RepublishOrderedExactly` | apps/billing-service/src/invoices/billing-maintenance.worker.ts:120-143 | Its write keeps the messages in order if and only if the revision it read is still current or this very message is out already; and keeps them level with the invoice, too, if and only if in that case the invoice moved by that message alone |
| `SettlementRaces.RefundOvertakesRepublishing` | apps/billing-service/src/invoices/billing-maintenance.worker.ts:120-143 | From empty books: a refund between the worker's look and its write leaves two messages of one invoice at revision 3 |
| `SettlementRaces.SecondSuccessExactly` | apps/billing-service/src/payments/customer.payments.service.ts:463-499 | The settling transaction leaves one successful payment if and only if no other payment of the invoice has succeeded |
| `SettlementRaces.NobodyPaysTwice` | apps/billing-service/src/invoices/invoices.service.ts:239-303 | Over every history whose settling transactions find their invoice unpaid, as their handlers did, no invoice is ever successfully paid twice |
| `SettlementRaces.CashOvertakesSettlement` | apps/billing-service/src/payments/customer.payments.service.ts:133-154 | Cash taken between a handler's look and its transaction gives two successful payments |
| `SettlementRaces.LeftPendingExactly` | apps/billing-service/src/invoices/customer.invoices.service.ts:285-368 | Over every history, whatever runs late in it: a paid invoice never has a pending payment if and only if no QR request's write finds its invoice paid since the request looked |
| `SettlementRaces.NoneLeftPending` | apps/billing-service/src/invoices/invoices.service.ts:250-256 | So as long as none does, no payment of a paid invoice is pending, however it came to be paid |
| `SettlementRaces.QrRequestUndoesPayment` | apps/billing-service/src/invoices/customer.invoices.service.ts:313-368 | From empty books: a payment settled while a QR request waits for PayOS is made pending and loses its date, on a paid invoice whose income is on the ledger |
| `SettlementRaces.QrRequestLinksPaidInvoice` | apps/billing-service/src/invoices/customer.invoices.service.ts:477-510 | From empty books: an invoice paid in cash while a QR request makes its link gets a pending payment |
| `SettlementRaces.TwoFinesExactly` | apps/billing-service/src/invoices/invoices.service.ts:719-727 | Over every history: no two invoices are ever fines for one case prefix if and only if no handler makes one out that found none before and would find one now |
| `SettlementRaces.OneCaseTwoFines` | apps/billing-service/src/invoices/invoices.service.ts:719-727 | From empty books: two handlers that both found none make out two |
| `SettlementOnce.SettledByTheFirst` | apps/billing-service/src/payments/customer.payments.service.ts:103-173 | Any mix of arrivals of the news that a link is paid, by webhook, poll, pass, QR request or stale settling transaction, leaves the books as the first that gets through leaves them alone |
| `SettlementOnce.OrderDoesNotMatter` | apps/billing-service/src/payments/customer.payments.service.ts:475-549 | Two different such mixes end in the same invoice, payments, ledger and messages, with at most one notification each |
| `SettlementOnce.StaleQrRequestUndoes` | apps/billing-service/src/invoices/customer.invoices.service.ts:313-368 | A QR request that asked PayOS before the payment and writes after it undoes the settled payment; whatever news arrives then, the books are settled again if and only if another bare settling transaction is among it |
| `SettlementOnce.NewsOfAPaidInvoiceIsIgnored` | apps/billing-service/src/payments/customer.payments.service.ts:136-139 | Once an invoice is paid, in cash for instance, no handler acts on its link any more: money arriving there is not credited |
| `SettlementOnce.RetriedCashIsOnePayment` | apps/billing-service/src/invoices/invoices.service.ts:230-238 | A cash payment retried under its key is taken once and answered the same |
| `PaymentToPayout.SettlingIsAPayoutSettle` | apps/billing-service/src/payments/customer.payments.service.ts:525-547 | What settling does to the ledger is exactly the payout machine's settle step |
| `PaymentToPayout.SettlementCreditsTheFigure` | apps/billing-service/src/payments/customer.payments.service.ts:523-547 | The first settlement credits the invoice with PayOS's figure |
| `PaymentToPayout.CashIsNeverPaidOut` | apps/billing-service/src/invoices/invoices.service.ts:267-276 | An invoice without a PayOS link has no credit and is never offered for payout |
| `WholeBilling.SoundAndSolvent` | apps/billing-service/src/payments/customer.payments.service.ts:456-550 | However payments, late transactions, deletions, runs, reservations, results and transfers interleave over the one ledger: the payment records stay sound, and what is moved for an invoice stays within its live payout rows and those, with every queued claim, within its income |
| `WholeBilling.PaidOutMeansPaidIn` | apps/billing-service/src/payouts/payouts.service.ts:587-641 | Over the same runs: money goes out for an invoice only if it is paid and was paid through a PayOS link |
| `BillingMishaps.RefundLeavesOffers` | apps/billing-service/src/invoices/invoices.service.ts:647-686 | Requesting a refund changes nothing the payout engine sees: the invoice is offered as before |
| `BillingMishaps.RefundedAndPaidOut` | apps/billing-service/src/payouts/payouts.service.ts:587-641 | From an empty system: an invoice is paid, its refund is requested, and the next run pays its whole amount out |
| `BillingService.Billing.MarkInvoicePaidInTransaction` | apps/billing-service/src/payments/customer.payments.service.ts:456-550 | All five tables after the transaction, and when it reports a transition; the books stay sound, paid invoices stay, messages stay in order, nothing paid becomes pending |
| `BillingService.Billing.HandlePayOsWebhook` | apps/billing-service/src/payments/customer.payments.service.ts:103-173 | Every acknowledged, ignored and settling branch; the books stay sound, paid invoices stay, messages stay in order, nothing paid becomes pending |
| `BillingService.Billing.CheckPaymentStatus` | apps/billing-service/src/payments/customer.payments.service.ts:175-253 | The poll under its cooldown lock; the books stay sound, paid invoices stay, messages stay in order, nothing paid becomes pending |
| `BillingService.Billing.MarkPaymentFailed` | apps/billing-service/src/payments/customer.payments.service.ts:552-564 | A dead link's payment becomes failed, if it belongs to the invoice; the books stay sound |
| `BillingService.Billing.PayInvoice` | apps/billing-service/src/invoices/invoices.service.ts:219-314 | The new books and the answer for every refusal, replay and success; the books stay sound, paid invoices stay, messages stay in order, nothing paid becomes pending |
| `BillingService.Billing.CreateQrCodeWithLock` | apps/billing-service/src/invoices/customer.invoices.service.ts:280-513 | An existing link is settled, revived, kept or refused; a new one is made only for an invoice without payments; the books stay sound, paid invoices stay, messages stay in order, nothing paid becomes pending |
| `BillingService.Billing.MakePendingAgain` | apps/billing-service/src/invoices/customer.invoices.service.ts:361-368 | A QR request's write to the payment it found: the books stay sound, and nothing paid is left pending if and only if the invoice is not paid by then |
| `BillingService.Billing.AddPaymentLink` | apps/billing-service/src/invoices/customer.invoices.service.ts:494-510 | The row of a new link, beside a cash payment if one has come in: the books stay sound, and nothing paid is left pending if and only if the invoice is not paid by then |
| `BillingService.Billing.CreatePrepaymentInvoice` | apps/billing-service/src/invoices/customer.invoices.service.ts:136-188 | Afterwards the contract has an invoice; an existing one is left alone; the books stay sound, paid invoices stay, messages stay in order, nothing paid becomes pending |
| `BillingService.Billing.HandleContractCancelled` | apps/billing-service/src/invoices/invoices.service.ts:593-606 | Deletes exactly the contract's unpaid invoices and their payments; the books stay sound, paid invoices stay, messages stay in order, nothing paid becomes pending |
| `BillingService.Billing.CancelContractPrepaymentInvoice` | apps/billing-service/src/invoices/customer.invoices.service.ts:213-243 | Refused and without effect when one invoice is paid, else no invoice of the contract is left; the books stay sound, paid invoices stay, messages stay in order, nothing paid becomes pending |
| `BillingService.Billing.DeleteInvoices` | apps/billing-service/src/invoices/invoices.service.ts:598-606 | The deleting transaction over ids read before: it keeps the paid invoices if and only if none of the ids has been paid since, and then keeps the books sound |
| `BillingService.Billing.HandleContractActivationFailed` | apps/billing-service/src/invoices/invoices.service.ts:634-686 | The invoice named, or if it is gone the other paid one found: its revision moves on, its successful payments are reversed and the refund is announced |
| `BillingService.Billing.HandleContractActivationFailedEvent` | apps/billing-service/src/invoices/invoices.service.ts:619-693 | Books and inbox after every way a delivery can end; books stay sound, and the two sides of the saga stay in step |
| `BillingService.Billing.HandleViolationFineImposed` | apps/billing-service/src/invoices/invoices.service.ts:719-774 | One fine invoice per case prefix, announced at revision 1; the books stay sound, paid invoices stay, messages stay in order, nothing paid becomes pending |
| `BillingService.Billing.ReconcileStaleInvoices` | apps/billing-service/src/invoices/billing-maintenance.worker.ts:85-156 | A round republishes exactly for the invoices whose contract is still waiting; it keeps the books sound, and keeps the messages in order when what was read is still current |
| `BillingService.RoundKeepsOrder` | apps/billing-service/src/invoices/billing-maintenance.worker.ts:89-147 | A round over invoices read just before keeps the messages' revisions in order |
| `ActivationSaga.QuietMeansAccounted` | apps/contract-service/src/contracts/provider.contracts.service.ts:1589-1712 | Over all runs of both sides with billing going on in between: when everything has been delivered without a fault, every paid invoice with a contract has had its payment message taken in, and right then its contract was found or made active, or a refund stands in billing's outbox for it or for the paid invoice of that contract reported at the same revision |
| `ActivationSaga.OneInvoiceIsSettled` | apps/contract-service/src/contracts/provider.contracts.service.ts:1589-1712 | With one paid invoice to a contract: active when the payment was taken in, or this invoice refunded |
| `ActivationSaga.RefundsAreReported` | apps/billing-service/src/invoices/invoices.service.ts:619-689 | A refund is only ever requested for a paid invoice whose contract was reported for it |
| `ActivationSaga.ReportedInvoiceIsThere` | apps/billing-service/src/invoices/invoices.service.ts:634-647 | Over all runs of both sides: whenever a report is taken in, the invoice it names is there and paid, so the search for another paid one is never needed |
| `ActivationSaga.ReportedExactly` | apps/contract-service/src/contracts/provider.contracts.service.ts:1647-1664 | An unsigned contract's paid invoice is reported if and only if the contract has not yet reported failure at its present revision, or the invoice had its own report |
| `ActivationSaga.EclipsedIsNeverRefunded` | apps/contract-service/src/contracts/provider.contracts.service.ts:1647-1664 | Left unreported it stays without refund as long as the contract is left as it is, whatever is republished, delivered or done in billing |
| `ActivationSaga.SecondInvoiceForgotten` | apps/contract-service/src/contracts/provider.contracts.service.ts:1647-1664 | From empty books: two fines imposed on an active contract and paid after its termination; whenever neither check finds both signatures, as when the signature service does not answer, all messages are delivered and processed, the contract is not active again and the second is never refunded |
| `ActivationSaga.FailedDeliveryIsLast` | libs/common/src/reliability/inbox.service.ts:13-41 | A claimed event whose handler failed or crashed is never handled again, though it is marked for retry |
| `ContractService.ContractStore.HandleInvoicePaidEvent` | apps/contract-service/src/contracts/provider.contracts.service.ts:1593-1712 | Inbox, contract and outbox after every way a delivery can end; the two sides of the saga stay in step |
| `ContractService.ContractStore.PublishLocal` | libs/common/src/reliability/outbox.service.ts:72-120 | Appends a message unless one with its kind, aggregate and revision is there |
| `Contracts.SignaturesHonouredExactly` | apps/contract-service/src/contracts/customer.contracts.service.ts:1105-1240 | Over every life of a contract with handlers writing late: at every moment an active contract has kept the requirement it was activated under and, if it requires signatures, had both verified then, if and only if every late edit of an active contract leaves the requirement and every late activation of a contract that requires signatures had read that it does |
| `Contracts.ActiveMeansSigned` | apps/contract-service/src/contracts/customer.contracts.service.ts:1105-1240 | So under that condition an active contract has been active since a step at which, if it requires signatures, both were verified |
| `Contracts.UpdateDuringApprovalForgetsSignatures` | apps/contract-service/src/contracts/customer.contracts.service.ts:1139-1159 | An edit, however prompt, between an approval's read and its write leaves a contract active and requiring signatures with none ever verified |
| `Contracts.LateUpdateForgetsSignatures` | apps/contract-service/src/contracts/provider.contracts.service.ts:396-403 | So does an edit that checked the status before an approval and writes after it |
| `Contracts.DeadlineAlwaysKnown` | apps/contract-service/src/contracts/customer.contracts.service.ts:1120-1129 | No handler, late or not, leaves a contract waiting for payment without a signing date |
| `ContractService.ContractStore.UpdateContract` | apps/contract-service/src/contracts/provider.contracts.service.ts:254-418 | Edits only drafts and contracts waiting for signature |
| `ContractService.ContractStore.SendContract` | apps/contract-service/src/contracts/provider.contracts.service.ts:446-540 | Sends a draft only with the provider's signature verified where one is required |
| `ContractService.ContractStore.TransitionAfterCustomerApproval` | apps/contract-service/src/contracts/customer.contracts.service.ts:1105-1196 | The next status from prepayment and signatures, and exactly when the answer is done, refused or not found |
| `ContractService.ContractStore.ConfirmContractTerms` | apps/contract-service/src/contracts/customer.contracts.service.ts:997-1011 | Refused where signatures are required |
| `ContractService.ContractStore.ActivateContractAfterPrepayment` | apps/contract-service/src/contracts/customer.contracts.service.ts:1198-1240 | Done exactly when the contract is then active |
| `ContractService.ContractStore.ExpirePendingPrepaymentContracts` | apps/contract-service/src/contracts/customer.contracts.service.ts:1305-1331 | The loop cancels exactly the listed contracts still waiting for payment |
| `Restrictions.OneRestrictionInForce` | apps/contract-service/src/contracts/provider.contracts.service.ts:1251-1357 | Over every run of blocks, terminations and lifts on one clock, each provider and customer have at most one restriction in force at every later moment |
| `Restrictions.LiftFreesExactly` | apps/contract-service/src/contracts/provider.contracts.service.ts:1251-1267 | A lift frees the customer if and only if it ends the one restriction in force |
| `Restrictions.RestrictionStore.BlockCustomer` | apps/contract-service/src/contracts/provider.contracts.service.ts:1269-1357 | Answers, and the one restriction added, exactly when none was in force |
| `Restrictions.RestrictionStore.TerminateWithRestriction` | apps/contract-service/src/violations/violations.service.ts:317-320 | Terminating adds a restriction only where none is in force |
| `Restrictions.RestrictionStore.LiftRestriction` | apps/contract-service/src/contracts/provider.contracts.service.ts:1251-1267 | Ends an open restriction of this provider, or finds none |
| `Percentages.AgingAddsUp` | apps/billing-service/src/invoices/invoices.service.ts:368-383 | The three ages add up to 100, or to 101 if and only if nothing is overdue and both exact percentages lie halfway |
| `Percentages.SharesAddUp` | apps/contract-service/src/contracts/provider.contracts.service.ts:1387-1394 | The three status shares add up to 99, 100 or 101 |
| `Percentages.SharesReachTheBounds` | apps/contract-service/src/contracts/provider.contracts.service.ts:1387-1394 | Both bounds and the 101 of the ages occur |
| `Percentages.PercentIsNearest` | apps/billing-service/src/invoices/invoices.service.ts:381-383 | The rounded percentage is the nearest whole number, halves up |
| `Percentages.GetInvoiceAging` | apps/billing-service/src/invoices/invoices.service.ts:350-394 | The locals hold each status's sum and the percentages are of their whole |
| `Percentages.GetStatusDistribution` | apps/contract-service/src/contracts/provider.contracts.service.ts:1373-1395 | Every contract is counted in exactly one stage |
| `PdfText.ThreeReplacementsAreOnePass` | apps/contract-service/src/contracts/contract-pdf-renderer.service.ts:537-539 | The three sequential replacements are a one-pass escape |
| `PdfText.EscapeRoundTrip` | apps/contract-service/src/contracts/contract-pdf-renderer.service.ts:343 | A reader of literal strings (section 7.3.4.2 of ISO 32000-1) stops at the written parenthesis and returns the text with its ends of line as line feeds: the text itself if and only if it has no carriage return |
| `PdfText.EscapeIsInjective` | apps/contract-service/src/contracts/contract-pdf-renderer.service.ts:537-539 | Different texts without carriage returns are written differently |
| `PdfWriter.ContentLines` | apps/contract-service/src/contracts/contract-pdf-renderer.service.ts:340-369 | A reader of the joined stream finds it whole, paints exactly the contract's texts in order, each as a reader of literal strings recovers it, and finds no other string |
| `PdfTokens.TextAfter` | apps/contract-service/src/contracts/contract-pdf-renderer.service.ts:343 | Whatever text is written between the parentheses, a reader of the stream paints that text next and reads on behind it |
| `PdfWriter.EntryWidthExactly` | apps/contract-service/src/contracts/contract-pdf-renderer.service.ts:395-397 | A cross-reference entry is 20 bytes and parses back to its offset if and only if the offset is below ten to the tenth |
| `PdfWriter.Assemble` | apps/contract-service/src/contracts/contract-pdf-renderer.service.ts:384-405 | Every offset is where its object's bytes start, the table stands where startxref says, its entries at 20-byte steps |
| `PdfWriter.RenderWithBuiltInGenerator` | apps/contract-service/src/contracts/contract-pdf-renderer.service.ts:328-406 | The whole file: the stream paints exactly the contract's texts, the objects are indexed, and right after the length entry come exactly as many stream bytes as it announces |
| `PdfReader.EveryObjectIsFound` | apps/contract-service/src/contracts/contract-pdf-renderer.service.ts:373-405 | From the end of any such file a reader is led through startxref and the table (section 7.5 of ISO 32000-1) to the very bytes of every object |
| `PdfBytes.PaddedParses` | apps/contract-service/src/contracts/contract-pdf-renderer.service.ts:395-397 | A zero-padded number parses back whatever its size and has the width exactly when it fits |

## Left out

- Identifiers are natural numbers; the program only compares them. Amounts are whole numbers of the currency unit;
  Decimal fractions are not modelled, and a non-finite amount is the absent one.
- `PayoutResults.ResponseDecidesRow`: error messages, completion dates and the external transaction id are not part of
  the rows.
- `PayoutsService.Service.ProcessRetryQueue`: the 15-minute lock, malformed JSON in the queue, jobs without their
  request data and the rewriting of instruction descriptions are not modelled; the order of reconciled batches is the
  order of the reports given.
- `RetryQueue.NoJobLostOrDoubled`: markers are taken before they expire (90 and 365 days).
- `PayoutRefinement.RoundStaysSolvent`: a crash inside a round is covered by the machine, not by the method, which runs
  to its end.
- `ReconcileSchedule.ReconcileWorker.ProcessDuePaymentLinks`: links are seen through one after another, not five at a
  time; the link machine covers other interleavings.
- `SettlementSafety.EveryPaymentCounts`: over sparing histories. Invoice items, totals and message payloads are not
  modelled.
- `BillingService.Billing.CreateQrCodeWithLock`: looking at the invoice, asking PayOS and writing are one step of the
  method; taken apart they are the steps `LateRevive`, `LateLink` and `LateSettle` of the histories, and the methods
  `MakePendingAgain` and `AddPaymentLink`.
- `PayoutsService.Service.ReconcileProcessingBatches`: the selection of the ten oldest PROCESSING batches is the
  caller's; the batches asked about are those of the reports given, in their order.
- `BillingService.Billing.PayInvoice`: a cash key equal to a PayOS link id, which the one column would confuse, cannot
  occur in the model.
- `BillingService.Billing.CreatePrepaymentInvoice`: looking for an invoice and making one are one step of the method;
  taken apart they are the step `SettlementSafety.LatePrepayment`, after which a contract may have two.
- `BillingService.Billing.HandleContractCancelled`: reading and deleting are one step of the method; taken apart they
  are `BillingService.Billing.DeleteInvoices` over ids read before. The inbox claim around it is modelled once, for
  failure reports.
- `BillingService.Billing.CancelContractPrepaymentInvoice`: as before, the check and the deletion are one step.
- `BillingService.Billing.DeleteInvoices`: the database clears the invoice column of ledger rows whose invoice goes;
  only a deletion that loses a paid invoice meets such rows, and the model leaves them as they are.
- `BillingService.Billing.HandleContractActivationFailedEvent`: what the search for another paid invoice of the
  contract finds, the newest, is the caller's.
- `BillingService.Billing.HandleViolationFineImposed`: the case prefix is an identifier, compared for equality. Finding
  a fine and making one are one step of the method; taken apart they are the step `SettlementSafety.LateFine`.
- `ExactlyOnce.EachProviderOnce`: whether a call that timed out arrived is not modelled, so a provider may see a
  notification twice.
- `ActivationSaga.QuietMeansAccounted`: the poller's signature check, back-off and dead letters, and the expiry of inbox
  rows, are not modelled; a delivery is any attempt that reaches the consumer.
- `Contracts.ActiveMeansSigned`: the signature service is an answer; which of several contract files is looked at is not
  modelled. That a cancelled or terminated contract stays so is not claimed: a late payment message activates it.
- `ContractService.ContractStore.HandleInvoicePaidEvent`: reading the contract and writing it are one step of a delivery
  in the saga; taken apart they are the act `Contracts.LatePaid`.
- `WholeBilling.SoundAndSolvent`: contracts and the activation saga run beside it, in `ActivationSaga`.
- `Percentages.AgingAddsUp`: over exact amounts, without floating-point rounding of the quotient.
- `PdfWriter.RenderWithBuiltInGenerator`: variable interpolation and the stripping of tone marks come before; PDFKit
  rendering is not modelled; text is a sequence of Unicode scalar values, without lone surrogates.
- Paid-in-full checks: they are disabled in the code, and a link's amount is a constant.
- Notification delivery, sockets, RPC, catalogue search, identity, signing, OCR and the gateways.
