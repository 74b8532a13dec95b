# Puntazo: verified model of billing, loyalty and menus

A Dafny model of the parts of the service where money, balances or stored documents can go wrong,
with proofs of what they promise. `dafny verify dfyconfig.toml` checks everything.

| files | what they model |
|---|---|
| `BranchPayments` | the payments of the provider and the searches that read and refund them |
| `BranchQuotes`, `BranchQuoteEffects` | quoting and confirming the addition of a branch, and what a quote says and opens |
| `BranchSaga`, `BranchReconciler` | the branch operation between database and provider: as a machine that is cut at every provider request, and as the repository method, proved to be that machine |
| `BranchSagaSafety`, `BranchSagaTheorems` | what holds in every reachable state, and the promises that follow |
| `BranchSagaConvergence`, `BranchSagaReturn` | where an operation ends, and that crashes leave no trace |
| `BranchSagaOutcomes` | what one reconcile makes of every state, and a paid addition from beginning to end |
| `BranchSagaLimits` | the promises the operation does not keep, each with its exact condition |
| `Money`, `Calendar` | rounding, decimal notation, billing cycles and proration |
| `Billing`, `BillingLaws`, `BillingEffects`, `BillingRepository` | the subscription row, charges, rewards, credits, price histories and checkout reservations of one brand |
| `BranchActivation` | the row that branch operations and billing share |
| `Loyalty`, `LoyaltyEffects`, `LoyaltyRepository` | previews, movements, reversals, idempotency keys, retention, account deletion, program changes |
| `Menu`, `MenuEffects`, `MenuRepository` | immutable uploads, pointers, signed links and leased deletion |
| `UploadSemaphore`, `CardEvents` | the upload limiter under every interleaving; the card event broker and its streams |

**Form.** Each object or table the source updates in place is a class. Its methods follow the source's
control flow and are proved to leave and answer the value of a specification function (`ensures State() ==
F(old(State()), ...)`); the promises are lemmas about runs of those functions, and the modules named Effects and
Outcomes say, for each function, when it goes through and what it writes. A run is a sequence of whole
transactions where the source locks the rows it reads, and of single provider requests, channel
operations or critical sections where it does not.

**The two worlds of a branch operation.** What a transaction writes appears only with its commit; what the
provider did stays when a reconcile dies. Every request may succeed, be turned down, or be lost with or
without having been applied, and so may the commit. Between the steps owners, rows and plans change,
customers pay, banks settle and return payments. A list of answers that ends early is a crash.

**Assumptions.** Brand and subscription locks make transactions serial. For one of them that is more than the
database gives: internal/repository/subscription.go:115 counts the branches in the statement that waits for the
lock on the brand. Under READ COMMITTED that count is of the moment the statement started, so a branch created
by the transaction it waited for is missing from it, and the reservation is written with too small a quantity.
The clause `count == branches` of `RowAlwaysAdds` rests on this assumption. The deletion of a branch counts the
same way (internal/repository/commercial.go:202); lines 31 to 54 of internal/repository/branch_proration.go count
in a later statement and are not affected. The unique indexes of the migrations hold: one active operation per brand, one operation per quote and per key, one charge per
invoice and per payment, one reversal per movement, one card per customer and brand. A quoted unit price is at
least one cent. The provider gives a payment back whole or not at all when asked to refund it, keeps the amount
and first approval of a payment, and gives each subscription an id of its own. Fields named base,
released, rowTouched, taken, early, log and trace record history; no modelled operation reads them.

## Where the code falls short of its promise

- A refund that took effect before the decision to refund was committed is forgotten when the reconcile dies
  and eligibility returns: the branch is activated and nothing was collected (`EarlyRefundIsForgotten`,
  exact condition in `CompletionKeepsPaymentAsItIs` and `CompletedWasPaid`).
- The comment at internal/repository/branch_reconcile.go:69-71 says that a crash after an external refund is
  recovered. For a payment that does not match the quote the operation then ends FAILED with
  PAYMENT_MISMATCH and not REFUNDED (`CrashChangesTheEndOfAMismatch`).
- Line 200 of that file compares refunds with the quote and not with the payment
  (`PartReturnCountsAsRefund`, exact condition on the state before the call in `RefundedWithMoneyKept`).
- A refund is confirmed by reading the newest payment of the operation. After a newer rejected attempt it is
  never confirmed, although the money is back (`LaterAttemptBlocksTheRefund`, `RefundStaysBlocked`).
- The condition at line 343 of that file never holds: a refund decision is taken only while something is left to refund
  (clause `op.refunded < op.amount` of `Shaped`).
- A worker that dies while it deletes an abandoned menu upload leaves the document DELETE_PENDING without a
  date, and no worker takes it again (exact condition in `TakenAgainExactly`). A put that arrives after the
  cleanup leaves an object that nothing names (`LatePutLeavesAnOrphan`, exact conditions in `OrphanExactly` and
  `OrphanStaysExactly`).
- The renewal-day branch of a quote accepts a stored date later than the anchor day (`AcceptedWhen`).

## Model

| member | source | states |
|---|---|---|
| `BranchPayments.RefundAllIsPrefix` | internal/mercadopago/branch.go:73-95 | Whatever the network does, the refunds of a search that took effect are a prefix of the ones it asked for, each once and whole; success means all of them. |
| `BranchPayments.FindIsSafe` | internal/mercadopago/branch.go:46-103 | A search keeps the book of payments sound and only gives back approved payments of its own reference, never the newest. |
| `BranchPayments.FindAnswers` | internal/mercadopago/branch.go:46-103 | A search answers with a payment of the reference as the provider holds it, says "none" only when there is none, and fails only when a request failed. |
| `BranchPayments.FindKeepsOne` | internal/mercadopago/branch.go:73-103 | After a successful search at most one payment of the reference is approved, and it is the one returned: the newest that was approved before. |
| `BranchPayments.FindRecovers` | internal/mercadopago/branch.go:73-95 | Repeating a search after any interruption ends in the books of one undisturbed search, so no duplicate is refunded twice. |
| `BranchPayments.FindNetIsOnePayment` | internal/mercadopago/branch.go:73-103 | After an undisturbed search the money kept for the reference is what is left of the one returned payment. |
| `BranchPayments.DuplicatesSparePrimary` | internal/mercadopago/branch.go:137-172 | The duplicate sweep never gives the primary payment back; without errors it gives back every other approved one. |
| `BranchPayments.RefundOne` | internal/mercadopago/branch.go:104-132 | A refund of an approved payment gives it back whole or does nothing, and reports success exactly when the answer arrived. |
| `BranchPayments.RefundSucceedsWhen` | internal/mercadopago/branch.go:104-132 | A refund reports success exactly when it was answered and the payment was approved or is back already; any other payment is an error that changes nothing. |
| `BranchPayments.PaymentClient.RefundBranchPayment` | internal/mercadopago/branch.go:104-132 | A payment already given back is not refunded again, an unknown one is an error, and an approved one is given back whole or not at all. |
| `BranchPayments.PaymentClient.CollectApproved` | internal/mercadopago/branch.go:60-75 | The loop over the search result splits it into the approved payments, newest first, and the first other one. |
| `BranchPayments.PaymentClient.FindBranchPayment` | internal/mercadopago/branch.go:46-103 | The loops keep the newest approved payment, refund the others in order until one fails, and answer with the kept one as it is now. |
| `BranchPayments.PaymentClient.ReconcileBranchDuplicatePayments` | internal/mercadopago/branch.go:137-172 | The loop refunds every approved payment but the primary one, until one fails. |
| `BranchQuotes.QuoteIsSound` | internal/service/branch_proration.go:86-109 | A quote raises the monthly amount by one branch without 64-bit overflow, costs at most one unit, needs a payment exactly when it costs something, and expires within ten minutes and before midnight. |
| `BranchQuotes.ConfirmKeeps` | internal/repository/branch_proration.go:79-152 | Confirming keeps: one active operation per brand, no key and no quote opens two operations, every stored quote is sound. |
| `BranchQuotes.MoveOnKeeps` | internal/repository/branch_proration.go:140-145 | Moving an operation on keeps the same, given the unique index on active operations. |
| `BranchQuotes.RunKeeps` | internal/repository/branch_proration.go:55-152 | The same over every run of quotes, confirmations, moves of an operation and changes of the subscription row, the owner and the billing context. |
| `BranchQuotes.OneOperationAtATime` | internal/repository/branch_proration.go:79-152 | In every state a brand reaches from an empty desk at most one operation is active, and neither a key nor a quote has opened two; each is for a stored sound quote. |
| `BranchQuotes.ConfirmIsReplayed` | internal/repository/branch_proration.go:91-102 | Repeating a confirmation opens no second operation, whatever happened since, and answers with the first one exactly while the owner has access and the brand a program and a branch. |
| `BranchQuotes.ConfirmTwice` | internal/repository/branch_proration.go:91-102 | Repeated at once it answers with the same operation and leaves the desk as it is. |
| `BranchQuotes.ConfirmationStartsASaga` | internal/repository/branch_proration.go:104-151 | Every newly confirmed operation is a start of the branch saga, with an unexpired quote for the current subscription. |
| `BranchQuoteEffects.QuoteCoversTheRest` | internal/service/branch_proration.go:22-61 | The days of a quote: counted one by one, so many from today to the end of the cycle, and so many in the cycle. |
| `BranchQuoteEffects.QuotedWhen` | internal/repository/branch_proration.go:31-78 | A quote is given exactly to an owner, for a billable subscription, on dates the calendar accepts, when the new amount fits; a refusal stores nothing and says why. |
| `BranchQuoteEffects.QuoteSays` | internal/service/branch_proration.go:86-109 | The stored quote asks, outside the trial, for the nearest-cent share of one branch for the rest of the cycle, for a payment exactly when that is not nothing, and ends after ten minutes or at midnight. |
| `BranchQuoteEffects.OpenedWhen` | internal/repository/branch_proration.go:79-152 | Under a free key an operation is opened exactly over the member's own unexpired and unused quote of the unchanged subscription, with access and no operation active. |
| `BranchQuoteEffects.OpenedSays` | internal/repository/branch_proration.go:126-145 | It asks for the quoted amount and waits for a payment exactly when the quote needs one. |
| `BranchQuoteEffects.OpeningRefusedBecause` | internal/repository/branch_proration.go:104-147 | The refusals of a confirmation, each exactly when it is the first reason. |
| `BranchQuoteEffects.UsedKeyAnswers` | internal/repository/branch_proration.go:91-102 | A used key answers with its operation for the same quote and with a conflict for another. |
| `BranchQuoteEffects.QuotedAdditionOpens` | internal/service/branch_proration.go:86-131 | A quote confirmed in time with nothing changed opens an operation over the nearest-cent share of the rest of the cycle. |
| `BranchQuotes.BranchDesk.LockBranchBilling` | internal/repository/branch_proration.go:31-54 | Answers with the snapshot of a billable subscription or the right refusal. |
| `BranchQuotes.BranchDesk.SaveBranchQuote` | internal/repository/branch_proration.go:55-78 | Stores the computed quote with the locked snapshot and its actor, or refuses for the first reason (when and what: QuotedWhen, QuoteSays). |
| `BranchQuotes.BranchDesk.ConfirmBranchQuote` | internal/repository/branch_proration.go:79-152 | Opens one operation for an unexpired quote of the unchanged subscription, replays the one of its key, or refuses for the first reason (when and what: OpenedWhen, OpenedSays; over runs: OneOperationAtATime). |
| `BranchReconciler.EachCallSpendsBudget` | internal/repository/branch_reconcile.go:69-72 | A reconcile holds its locks for a bounded number of provider requests. |
| `BranchReconciler.ReconcileEnds` | internal/repository/branch_reconcile.go:69-72 | A reconcile that is answered often enough has released its locks. |
| `BranchReconciler.PerformIsRun` | internal/repository/branch_reconcile.go:72-358 | A reconcile of the repository is a run of the saga machine. |
| `BranchReconciler.BranchRepository.ReconcileBranch` | internal/repository/branch_reconcile.go:72-358 | One reconcile, cut off anywhere or not, leaves exactly what the machine leaves from the committed row. |
| `BranchReconciler.BranchRepository.VerifyPayment` | internal/repository/branch_reconcile.go:161-196 | The search, adoption, mismatch and checkout branches of the payment stage (what comes of them: CheckoutIsCreated, PaymentIsJudged, ApprovedPaymentBuysWhen). |
| `BranchReconciler.BranchRepository.DecideOnPayment` | internal/repository/branch_reconcile.go:197-216 | The decision on a verified payment. |
| `BranchReconciler.BranchRepository.UpdatePlan` | internal/repository/branch_reconcile.go:217-250 | The plan stage: eligibility, committed intent, readback, and where it goes from there. |
| `BranchReconciler.BranchRepository.RaiseAmount` | internal/repository/branch_reconcile.go:250-271 | Raising the amount, with rejection, uncertainty and readback. |
| `BranchReconciler.BranchRepository.RestoreAndRefund` | internal/repository/branch_reconcile.go:308-336 | Restoring the amount before refunding, with its review and retry exits. |
| `BranchReconciler.BranchRepository.SettleRefund` | internal/repository/branch_reconcile.go:337-355 | The refund stage after the amount is back. |
| `BranchReconciler.BranchRepository.SaveOperation` | internal/repository/branch_reconcile.go:141-147 | The commit, its loss, and the unique index that can refuse it. |
| `BranchReconciler.BranchRepository.SweepDuplicatePayments` | internal/repository/branch_reconcile.go:109-125 | The duplicate sweep of a completed operation. |
| `BranchReconciler.BillingProvider.UpdateSubscriptionAmount` | internal/mercadopago/client.go:100-116 | The amount changes when the request is applied, answered or not; an amount below one is refused before it is sent. |
| `BranchSagaSafety.RunKeeps` | internal/repository/branch_reconcile.go:72-358 | From a confirmed quote, after every run with crashes after any request, lost answers, lost commits and outside events, the saga invariant holds. |
| `BranchSagaTheorems.ProviderAmountStaysOnCourse` | internal/repository/branch_reconcile.go:217-271 | The provider charges the snapshot or the quoted amount, the new one only after the intent was committed; nobody else writes it while the operation is active. |
| `BranchSagaTheorems.RestMeansAgreement` | internal/repository/branch_reconcile.go:217-355 | When an operation is over and nobody wrote since, provider, local amount, quantity and number of branches agree. |
| `BranchSagaTheorems.ActivationIsAtomic` | internal/repository/branch_reconcile.go:273-293 | Branch, quantity and amount change together, once, in the commit of COMPLETED, over a row rechecked against the quote, and end equal to what the provider charges. |
| `BranchSagaTheorems.WritesAreCommits` | internal/repository/branch_reconcile.go:141-147 | Only commits write the operation; provider requests do not touch the database. |
| `BranchSagaTheorems.AtMostOneBranch` | internal/repository/branch_reconcile.go:279-292 | An operation inserts one branch if it is COMPLETED and none otherwise. |
| `BranchSagaTheorems.CompletedWasPaid` | internal/repository/branch_reconcile.go:161-216 | A COMPLETED operation rests on an existing payment of the quoted amount approved inside [quote created, expiry), not given back by the operation unless before the decision to refund was committed. |
| `BranchSagaTheorems.RefundedKeepsNothing` | internal/repository/branch_reconcile.go:200-202 | In every reachable REFUNDED state the whole payment was given back, or at least the quoted amount of a larger one; of a payment within the quote nothing was kept. |
| `BranchSagaTheorems.RefundOnlyAfterRestore` | internal/repository/branch_reconcile.go:308-348 | The named payment is refunded at one place only, and only while the provider charges the old amount again. |
| `BranchSagaTheorems.RankNeverRisesOverRuns` | internal/repository/branch_reconcile.go:72-358 | The status rank never rises over any continuation of a run; a final status stays. |
| `BranchSagaConvergence.CleanIsPerform` | internal/repository/branch_reconcile.go:72-358 | The repository with only good answers is the undisturbed reconcile. |
| `BranchSagaConvergence.AdditionGoesThrough` | internal/repository/branch_reconcile.go:161-293 | With everything in place two undisturbed reconciles complete the addition, one when the intent was committed, in exactly the stated world. |
| `BranchSagaConvergence.CrashesLeaveNoTrace` | internal/repository/branch_reconcile.go:69-72 | Attempts that crash after any request, lose answers or lose their commit change nothing about where two undisturbed reconciles end. |
| `BranchSagaReturn.RefundTakesOneReconcile` | internal/repository/branch_reconcile.go:217-355 | With the amount restorable and a single payment, one undisturbed reconcile undoes the operation, also one whose plan change lost its access. |
| `BranchSagaReturn.CrashesLeaveNoTraceOfReturn` | internal/repository/branch_reconcile.go:69-72 | Attempts to refund that were cut off anywhere change nothing about where one undisturbed reconcile ends. |
| `BranchSagaReturn.ReturnKeepsNoMoney` | internal/repository/branch_reconcile.go:296-355 | There the net collected is zero, the old amount is charged and no branch was added. |
| `BranchSagaReturn.ConfirmedFreeAdditionRises` | internal/service/branch_proration.go:86-109 | A free addition meets the conditions of completion from its confirmation on. |
| `BranchSagaReturn.PaidAdditionRises` | internal/repository/branch_reconcile.go:161-216 | A paid one meets them in every reachable state in which the quoted payment is the only one and provider and row are as quoted. |
| `BranchSagaReturn.ReachablePlanRises` | internal/repository/branch_reconcile.go:217-272 | In every reachable PLAN_UPDATING state the conditions of completion come down to what provider and row show and to a single payment. |
| `BranchSagaReturn.ReachableRefundFalls` | internal/repository/branch_reconcile.go:217-336 | In every reachable REFUND_PENDING state, and in every PLAN_UPDATING one whose owner or subscription changed, the conditions of the refund come down to the same. |
| `BranchSagaLimits.PartReturnCountsAsRefund` | internal/repository/branch_reconcile.go:200-202 | Refunds are compared with the quote: an overpaid, partly returned payment ends REFUNDED with money kept. |
| `BranchSagaLimits.RefundedWithMoneyKept` | internal/repository/branch_reconcile.go:197-216 | An operation that turns its only approved payment back ends REFUNDED, with money kept exactly when, before the reconcile, at least the quoted amount of the payment had been returned. |
| `BranchSagaLimits.EarlyRefundIsForgotten` | internal/repository/branch_reconcile.go:217-222 | A refund sent before its decision was committed is forgotten after a crash: the addition still completes, with nothing collected. |
| `BranchSagaLimits.CompletionKeepsPaymentAsItIs` | internal/repository/branch_reconcile.go:217-293 | A completion keeps its money exactly when its payment was still approved in the state it started from. |
| `BranchSagaLimits.CrashChangesTheEndOfAMismatch` | internal/repository/branch_reconcile.go:174-181 | A crash between refund and commit leaves the terminal state unchanged exactly when the payment matches the quote. |
| `BranchSagaLimits.LaterAttemptBlocksTheRefund` | internal/repository/branch_reconcile.go:346-352 | A reconcile confirms the refund exactly when the refunded payment is the newest of the operation, or the newest was returned as much; otherwise it only notes the retry. |
| `BranchSagaLimits.RefundStaysBlocked` | internal/repository/branch_reconcile.go:346-352 | Then any number of further reconciles leaves it REFUND_PENDING with the retry code, although the money is back. |
| `BranchSagaOutcomes.CheckoutIsCreated` | internal/repository/branch_reconcile.go:180-194 | A confirmed paid addition whose owner has access, and nobody paid, is given its checkout by the next reconcile, which changes nothing else. |
| `BranchSagaOutcomes.OneCheckout` | internal/repository/branch_reconcile.go:180-194 | Over every run a checkout is asked for only while the committed operation has none, its quote runs and its account is as quoted. |
| `BranchSagaOutcomes.WaitsForItsPayment` | internal/repository/branch_reconcile.go:203-209 | With a checkout, or without access, an unpaid operation waits as it is until its quote ends. |
| `BranchSagaOutcomes.UnpaidQuoteExpires` | internal/repository/branch_reconcile.go:203-208 | An unpaid quote that ended ends the operation FAILED with QUOTE_EXPIRED. |
| `BranchSagaOutcomes.PaymentIsJudged` | internal/repository/branch_reconcile.go:161-209 | A single payment that is not approved is adopted with its verdict: refused, given back, still open, too late, or a mismatch. |
| `BranchSagaOutcomes.ApprovedPaymentBuysWhen` | internal/repository/branch_reconcile.go:174-216 | A single approved payment commits the operation to the plan change exactly when it is the quoted one, whole, in pesos and in time, for an account that did not change; otherwise it ends REFUNDED. |
| `BranchSagaOutcomes.ApprovedPaymentStartsPlan` | internal/repository/branch_reconcile.go:210-230 | In the first case the next reconcile leaves exactly the adopted payment, the intent and PLAN_UPDATING. |
| `BranchSagaOutcomes.CompletedSweepsDuplicates` | internal/repository/branch_reconcile.go:109-125 | A completed paid operation gives every other approved payment of its reference back and leaves the one it rests on. |
| `BranchSagaOutcomes.StrayPlanNeedsReview` | internal/repository/branch_reconcile.go:236-323 | A plan change or refund that finds the provider subscription changed by somebody else keeps the decision to refund and waits for a review; nothing else moves. |
| `BranchSagaOutcomes.ChangedRowNeedsReview` | internal/repository/branch_reconcile.go:317-320 | So does a refund after a plan change whose subscription row was changed since. |
| `BranchSagaOutcomes.UndatedRowStops` | internal/repository/branch_reconcile.go:314-316 | A row without a renewal date that agrees in everything else makes the reconcile fail and leave everything as it is. |
| `BranchSagaOutcomes.FreeAdditionIsGivenUp` | internal/repository/branch_reconcile.go:334-336 | A free addition that cannot go through is given up once the old amount is charged again. |
| `BranchSagaOutcomes.RejectedRaiseIsUndone` | internal/repository/branch_reconcile.go:244-252 | A raise the provider turns down is undone in the same reconcile: the payment is back whole, the old amount charged, no branch added. |
| `BranchSagaOutcomes.FailedRequestIsNoted` | internal/repository/branch_reconcile.go:161-355 | Every request that got no good answer ends the reconcile at the status it stood at, with the note of where it failed. |
| `BranchSagaOutcomes.UnseenChangeIsNoted` | internal/repository/branch_reconcile.go:256-331 | A change that was answered but does not show when it is read back is tried again. |
| `BranchSagaOutcomes.PaidAdditionGoesThrough` | internal/repository/branch_reconcile.go:72-293 | From the confirmation of a paid addition: one reconcile creates the checkout, the customer pays it, two more complete it with one branch, the new amount and the payment kept. |
| `BranchSagaOutcomes.PaidAdditionHasARun` | internal/repository/branch_reconcile.go:72-293 | So every confirmed paid addition has a run that ends COMPLETED with its payment. |
| `Money.SplitIsExact` | internal/repository/subscription.go:27-37 | The split division equals round-half-up of value times basis points over 10000. |
| `Money.SplitFits` | internal/repository/subscription.go:27-37 | No step of it leaves 64 bits for any nonnegative value and 0..10000 basis points. |
| `Money.DiscountIsNearest` | internal/repository/subscription.go:27-30 | The discounted price is the exact one to the nearest cent, monotone and never above the full price. |
| `Money.RewardIsNearest` | internal/repository/subscription.go:32-37 | The reward is the exact share to the nearest cent for the first charges, zero otherwise. |
| `Money.RewardIsMonotone` | internal/repository/subscription.go:32-37 | The reward is monotone in the collected amount. |
| `Money.RoundTrip` | internal/mercadopago/client.go:43-68 | Reading undoes writing for every amount up to 9223372036854775799 cents, and every larger one is refused. |
| `Money.AcceptsExactlyAmounts` | internal/mercadopago/client.go:43-64 | Among the strings of digits and points exactly those with a small enough whole part and at most two fraction digits are accepted, each with its value. |
| `Calendar.AnchoredMonthActs` | internal/service/branch_proration.go:74-82 | Shifting by n then m is shifting by n + m: no drift after short months. |
| `Calendar.ShiftMonthDrifts` | internal/service/branch_proration.go:73-73 | Without a fixed anchor it is so exactly when the day survives the month between, or the target month is no longer. |
| `Calendar.CycleLength` | internal/service/branch_proration.go:74-82 | Every cycle has 28 to 31 days. |
| `Calendar.CyclesPartitionTime` | internal/service/branch_proration.go:74-82 | Every day lies in exactly one cycle of an anchor. |
| `Calendar.NextDayNumber` | internal/service/branch_proration.go:54-61 | The closed day number counts days one by one over leap years and centuries. |
| `Calendar.CountDays` | internal/service/branch_proration.go:54-61 | The counting loop is the difference of day numbers. |
| `Calendar.AnchoredCalendarProration` | internal/service/branch_proration.go:22-72 | The arithmetic of a quote, with loops and refusals, equals its specification; the last refusal is never reached. |
| `Calendar.QuoteIsFair` | internal/service/branch_proration.go:62-71 | Each accepted quote covers 1 to 28..31 days, and outside the trial costs the nearest-cent share, between nothing and one unit, without 64-bit overflow. |
| `Calendar.AcceptedWhen` | internal/service/branch_proration.go:22-66 | Exactly which dates, anchors and prices are accepted. |
| `Calendar.LaterCostsLess` | internal/service/branch_proration.go:62-71 | A later day of a cycle never costs more. |
| `Calendar.TrialIsOneCycle` | internal/repository/subscription.go:449-456 | The trial end is the anchored month, 28 to 31 days later. |
| `BillingLaws.RowAlwaysAdds` | internal/repository/subscription.go:125-193 | Over every run of all writers: monthly is price times quantity, quantity is the number of branches while not CANCELLED, and the price is discounted exactly while discounted charges are left. |
| `BillingLaws.ChargesAreNumbered` | internal/repository/subscription.go:199-310 | Charges are numbered 1..n, no invoice or payment is charged twice, and only the first charges carry a reward. |
| `BillingLaws.RewardsFollowCharges` | internal/repository/subscription.go:240-251 | A charge stands exactly when its reward is PENDING or SETTLED and is refunded exactly when it is VOID or RECOVERY_DUE; the reward is the exact share. |
| `BillingLaws.RecordedOnce` | internal/repository/subscription.go:234-252 | An invoice that is notified again after it was charged changes nothing. |
| `BillingLaws.NotificationOnce` | internal/repository/subscription.go:382-402 | A subscription notification is applied once: its repetition, after any continuation and with any content, changes nothing. |
| `BillingLaws.PriceChangeOnce` | internal/repository/subscription_prices.go:105-150 | A bulk price change is made once: after any continuation its key answers with it, and refuses any other request. |
| `BillingLaws.CreditOnce` | internal/repository/referral_credit.go:68-75 | A credit is recorded once: after any continuation its key answers with it exactly for the same invoice, payment, amount and settlement, and refuses another. |
| `BillingLaws.CreditWithinPayment` | internal/repository/referral_credit.go:80-99 | Credit allocated to a payment never exceeds it. |
| `BillingLaws.AtMostOneWindow` | internal/repository/subscription.go:264-281 | A moment lies in at most one price window of a subscription and one quantity window of a brand. |
| `BillingLaws.PricesAreContiguous` | internal/repository/subscription_prices.go:316-325 | Price windows of a subscription leave no gap, and the current price starts where the last ends. |
| `BillingLaws.ClaimedAtMostOnce` | internal/repository/subscription.go:353-372 | Each reservation is claimed at most once; CREATING has no provider id, a live state has one. |
| `BillingLaws.OnlyReservingRevives` | internal/repository/subscription.go:382-431 | Only a new reservation, of a CANCELLED row, revives it, changes its reference or changes its provider id. |
| `BillingLaws.PriceKeeps` | internal/repository/subscription.go:283-295 | The price moves to the full one exactly with the charge that uses up the discount. |
| `BillingLaws.RepricedKeeps` | internal/repository/subscription_prices.go:284-326 | A bulk price change closes the old price into a window and keeps every billing invariant. |
| `BillingLaws.CloseKeeps` | internal/repository/account.go:186-215 | Closing an account or deleting a brand keeps them too. |
| `BillingLaws.BranchesKeep` | internal/repository/commercial.go:115-229 | So do branch creation and deletion, which wait for no active subscription. |
| `BillingRepository.Repository.ReserveSubscriptionCheckout` | internal/repository/subscription.go:107-194 | Refuses a closed brand, a brand without branches, a missing price or an amount out of range; returns an open reservation or the same request; otherwise writes one CREATING row (when and what: ReservedWhen, ReservationSays). |
| `BillingRepository.Repository.ClaimSubscriptionProviderCall` | internal/repository/subscription.go:356-359 | The call to the provider is claimed only from an unclaimed CREATING row of that reference, and marks it (over runs: ClaimedAtMostOnce). |
| `BillingRepository.Repository.SaveSubscriptionCheckout` | internal/repository/subscription.go:361-372 | The provider id and state enter a claimed CREATING row of that reference only; anything else is a conflict that changes nothing (over runs: ClaimedAtMostOnce, OnlyReservingRevives). |
| `BillingRepository.Repository.RejectSubscriptionCheckout` | internal/repository/subscription.go:459-462 | Only a CREATING row without a provider id is released, and becomes CANCELLED (over runs: RowAlwaysAdds, OnlyReservingRevives). |
| `BillingRepository.Repository.RecordSubscriptionWebhook` | internal/repository/subscription.go:382-418 | A notification already recorded changes nothing; a new one fills a missing provider id but never replaces one, leaves a cancelled or closed subscription CANCELLED, and is recorded with its change (over runs: NotificationOnce, OnlyReservingRevives). |
| `BillingRepository.Repository.UpdateSubscriptionFromProvider` | internal/repository/subscription.go:420-431 | A readback changes the state of the matching row only, and never revives it (over runs: OnlyReservingRevives). |
| `BillingRepository.Repository.RecordReferralInvoice` | internal/repository/subscription.go:199-310 | Credits of a refunded payment fall due, a known invoice is refunded or ignored, a new one is checked against the current and the historical prices, numbered and rewarded (when and what: ChargedWhen, ChargeWrites, RefundedInvoiceTakesBack; over runs: ChargesAreNumbered, RewardsFollowCharges, RowAlwaysAdds). |
| `BillingRepository.Repository.ReverseReferralPayment` | internal/repository/subscription.go:321-351 | A refunded payment takes its credits, its charge and its reward with it, each once (over runs: RewardsFollowCharges). |
| `BillingRepository.Repository.RecordMerchantCreditAllocation` | internal/repository/referral_credit.go:45-109 | An unfit invoice or payment is refused, a known key answers with its credit or a conflict, a foreign invoice is not found; the loop sums what is allocated in all and to the payment, and a credit beyond either limit or for a used settlement is refused (over runs: CreditWithinPayment, CreditOnce). |
| `BillingRepository.Repository.SettleReferralReward` | internal/repository/backoffice.go:66-83 | Only an owed reward of an influencer is settled (over runs: RewardsFollowCharges). |
| `BillingRepository.Repository.ChangeSubscriptionPrice` | internal/repository/subscription_prices.go:105-183 | A known key answers with its change or a conflict; a change for the expected version raises it by one and leaves one durable item for a live subscription; a stale version changes nothing (over runs: PriceChangeOnce, PricesAreContiguous). |
| `BillingRepository.Repository.ApplySubscriptionPriceChange` | internal/repository/subscription_prices.go:230-327 | One item: skipped when superseded or the subscription changed, failed when the amount is out of range or the provider refused, else applied (when and what: ItemEnds, AppliedPriceHolds). |
| `BillingRepository.Repository.RetrySubscriptionPriceChange` | internal/repository/subscription_prices.go:209-226 | The failed items of a change, and no others, become pending again; without a failed item it is a conflict. |
| `BillingRepository.Repository.CancelSubscription` | internal/repository/branch_cancel.go:8-46 | Only an owner cancels, not while a branch operation or a reservation is open, and a live subscription only after the provider confirmed it; a cancelled one is answered as it is, as the callback at internal/service/subscription.go:316-331 decides (over runs: OnlyReservingRevives). |
| `BillingRepository.Repository.ActivateBranch` | internal/repository/branch_reconcile.go:273-292 | An activation adds one branch to row and shop and keeps the old quantity as a window that starts where the earlier ones end (its guards and row are those of the saga: CompletionIsActivation). |
| `BillingEffects.ChargedWhen` | internal/repository/subscription.go:199-302 | A charge is recorded exactly for a new approved payment over the monthly amount, or over that of a price or quantity window that contains the invoice date; the last discounted one also needs the full price taken and no branch operation. |
| `BillingEffects.ChargeWrites` | internal/repository/subscription.go:286-310 | It writes the amount under the next number, its reward, the notification, and with the last discounted charge the full price; nothing else. |
| `BillingEffects.ChargeRefusedBecause` | internal/repository/subscription.go:206-292 | Why a new approved payment is not recorded: unknown subscription, wrong amount, a branch operation, or the provider. |
| `BillingEffects.RefundedInvoiceTakesBack` | internal/repository/subscription.go:213-251 | A refund takes back the credits of its payment and, when charged, the charge with its reward: owed to void, settled to recovery due. |
| `BillingEffects.RefundedPaymentTakesBack` | internal/repository/subscription.go:321-351 | A refund that names only the payment does the same. |
| `BillingEffects.SettledWhen` | internal/repository/backoffice.go:66-83 | A reward is settled exactly while it is owed, once, and only to an influencer. |
| `BillingEffects.ReservedWhen` | internal/repository/subscription.go:107-175 | When a checkout is reserved, answered with what there is, or refused. |
| `BillingEffects.ReservationSays` | internal/repository/subscription.go:127-193 | The reservation is for the branches there are, at the price of the catalogue before that of the program, discounted while discounted charges are left. |
| `BillingEffects.ClaimedWhen` | internal/repository/subscription.go:356-359 | Exactly one caller of a waiting reservation claims the request. |
| `BillingEffects.SavedWhen` | internal/repository/subscription.go:361-372 | What the provider created is stored exactly in the claimed reservation. |
| `BillingEffects.RejectedWhen` | internal/repository/subscription.go:459-462 | A rejected reservation is released unless the provider had answered it. |
| `BillingEffects.NotifiedWhen` | internal/repository/subscription.go:382-418 | Which row a new notification reaches, and that it takes id and state, believed unless cancelled or closed. |
| `BillingEffects.ReadBackWhen` | internal/repository/subscription.go:420-431 | Which row a readback reaches, and the state it takes. |
| `BillingEffects.CheckoutGoesThrough` | internal/repository/subscription.go:107-418 | Reserved, claimed, created and reported, a subscription is live under its id, and its first invoice is charged. |
| `BillingEffects.CancelledWhen` | internal/repository/branch_cancel.go:8-46 | Who may cancel, when, and what it leaves. |
| `BillingEffects.BranchesChangeWhen` | internal/repository/commercial.go:115-229 | Branches and brand change by hand exactly while there is no subscription; the main and the last branch stay. |
| `BillingEffects.AccountClosesWhen` | internal/repository/account.go:186-215 | Deleting an account closes its brand and cancels the subscription unless a reservation is open. |
| `BillingEffects.CreditedWhen` | internal/repository/referral_credit.go:45-109 | When a credit is recorded, and the row it writes. |
| `BillingEffects.PriceChangedWhen` | internal/repository/subscription_prices.go:105-183 | When a price change is made, and the version, key and item it writes. |
| `BillingEffects.ItemEnds` | internal/repository/subscription_prices.go:230-327 | How a pending item ends: skipped, failed or applied, each exactly when. |
| `BillingEffects.AppliedPriceHolds` | internal/repository/subscription_prices.go:284-326 | An applied item leaves the subscription at its price, and invoices over the old amount issued before are still charged. |
| `BillingEffects.RetriedWhen` | internal/repository/subscription_prices.go:209-226 | A retry makes exactly the failed items pending again and is a conflict without one. |
| `BillingEffects.ActivationKeepsOldInvoices` | internal/repository/branch_reconcile.go:273-292 | A branch that was added leaves invoices over the old amount valid that were issued before it. |
| `BranchActivation.GuardsAgree` | internal/repository/branch_reconcile.go:273-278 | Saga and billing refuse to activate over the same subscription rows. |
| `BranchActivation.CompletionIsActivation` | internal/repository/branch_reconcile.go:273-292 | In every run of the saga the step that adds the branch leaves the shared row, the branches and the pending operations as ActivateBranch of the billing model does, which never refuses it. |
| `Loyalty.BalancesAreSums` | internal/repository/movement.go:188-244 | Every balance is the signed sum of the movements that were not reversed, and never negative, over every run. |
| `Loyalty.BalancesContinue` | internal/repository/movement.go:218-244 | Each movement and reversal starts from the balance the previous one of the card left, and the card stands where the last one left it. |
| `Loyalty.ConfirmedAtMostOnce` | internal/repository/movement.go:116-285 | Over a whole run, with retention and account deletion in any order, no preview yields two movements. |
| `Loyalty.RepeatsAreReplayed` | internal/repository/idempotency.go:19-55 | Repeating a confirmed request moves nothing after any continuation, and returns the stored answer exactly as long as no retention pass for keys that old took its key and neither the actor nor the customer was deleted. |
| `Loyalty.SecondKeyFails` | internal/repository/movement.go:148-156 | A confirmed preview cannot be confirmed with another key, even after its row was deleted. |
| `Loyalty.ReversalUndoes` | internal/repository/movement_reversal.go:60-90 | A reversal takes exactly its movement back out of one card. |
| `Loyalty.ReverseTwice` | internal/repository/movement_reversal.go:44-58 | A movement is reversed once; asking again returns the same reversal. |
| `Loyalty.TypeChangesOnlyWhenEmpty` | internal/repository/commercial.go:256-282 | A program changes its type only when every card of the brand is empty in both columns. |
| `Loyalty.OneUpdatePerVersion` | internal/repository/commercial.go:276-283 | After an update of a program no other update for the same version goes through, in any continuation. |
| `Loyalty.OtherColumnIsEmpty` | internal/repository/movement.go:160-169 | A brand keeps to one program: the other column of every card is zero. |
| `Loyalty.AnonymizeLeavesOthers` | internal/repository/account.go:274-289 | Deleting an account leaves balance and movements of every other card as they were. |
| `Loyalty.RunKeeps` | internal/repository/movement.go:116-285 | All of it is kept by every transaction; in particular every committed key is COMPLETED. |
| `LoyaltyEffects.PreviewGrantedWhen` | internal/repository/movement.go:18-88 | When a preview is granted, and why it is refused otherwise. |
| `LoyaltyEffects.PreviewIsFor` | internal/repository/movement.go:52-103 | A preview is for the points asked for, the price of the benefit, or one stamp; it shows the balance of the active card, lasts five minutes, and names actor, branch, customer and code. |
| `LoyaltyEffects.ConfirmedWhen` | internal/repository/movement.go:116-225 | A movement is confirmed exactly under a free key, on the terms of an unused and unexpired preview, while balance, program, card and price are those it showed. |
| `LoyaltyEffects.RefusedBecause` | internal/repository/movement.go:140-159 | Unknown, other terms, used and expired previews are refused as such. |
| `LoyaltyEffects.TakenKeyAnswers` | internal/repository/idempotency.go:39-54 | What a taken key answers: the stored body, in progress, or a conflict. |
| `LoyaltyEffects.ConfirmMoves` | internal/repository/movement.go:226-285 | A confirmation moves one column of one card by the previewed amount and writes movement, preview and key; every other row stays. |
| `LoyaltyEffects.VisitCounts` | internal/repository/movement.go:18-285 | A preview confirmed within five minutes with nothing changed moves the balance the customer saw by what was asked: one stamp for a visit. |
| `LoyaltyEffects.ReversedWhen` | internal/repository/movement_reversal.go:14-79 | When a movement can be reversed. |
| `LoyaltyEffects.ReversalAnswers` | internal/repository/movement_reversal.go:44-98 | The answer tells the balances before and after, and is stored under the movement. |
| `LoyaltyEffects.RetentionSparesLive` | internal/repository/retention.go:35-36 | Retention never keeps a confirmation from going through that could. |
| `LoyaltyEffects.RetentionDeletes` | internal/repository/retention.go:35-36 | Of its batch it deletes exactly the expired previews and the keys completed before the cutoffs. |
| `LoyaltyEffects.DeletionErases` | internal/repository/account.go:274-289 | No card, movement, reversal or preview of a deleted account is left; cards of closing brands are closed. |
| `LoyaltyEffects.DeletionBlanksKeys` | internal/repository/account.go:277-299 | No key is left in its name, its keys are blank, and no stored answer tells one of its movements. |
| `LoyaltyEffects.DeletionLeaves` | internal/repository/account.go:274-289 | Rows of everybody else stay as they are, but for the cards of closing brands and their unused previews, which end. |
| `LoyaltyEffects.UpdatedWhen` | internal/repository/commercial.go:239-287 | When a program is updated, and what it leaves. |
| `LoyaltyRepository.Repository.CreatePreview` | internal/repository/movement.go:18-103 | A preview shows the balance and the amount of the operation, is refused for the first of the source reasons, and never changes a balance (when and what: PreviewGrantedWhen, PreviewIsFor). |
| `LoyaltyRepository.Repository.ClaimIdempotency` | internal/repository/idempotency.go:19-55 | A free key is claimed, the same request replayed, another actor, operation or fingerprint refused. |
| `LoyaltyRepository.Repository.CheckPreview` | internal/repository/movement.go:140-225 | The first reason, in the source order, not to confirm (when there is none: ConfirmedWhen). |
| `LoyaltyRepository.Repository.ConfirmMovement` | internal/repository/movement.go:116-285 | A claimed request without objection moves the balance by exactly the previewed amount, appends one movement, consumes the preview and completes the key; any other changes nothing (when and what: ConfirmedWhen, ConfirmMoves, VisitCounts; over runs: BalancesAreSums, ConfirmedAtMostOnce, RepeatsAreReplayed). |
| `LoyaltyRepository.Repository.ReverseBrandMovement` | internal/repository/movement_reversal.go:14-98 | The inverse of the movement is applied to the locked balance once; an overdraft, an inactive card or a foreign brand is refused. |
| `LoyaltyRepository.Repository.ApplyRetention` | internal/repository/retention.go:35-36 | Of a batch of previews and keys only those expired and those completed before the cutoffs are deleted (what that costs a repeated request: RepeatsAreReplayed). |
| `LoyaltyRepository.Repository.AnonymizeAccount` | internal/repository/account.go:274-289 | The loop over the ledger sets the rows of one account apart; they go with their cards, reversals and previews, and keys that name them are blanked. |
| `LoyaltyRepository.Repository.UpdateProgram` | internal/repository/commercial.go:239-287 | A change is refused to a member who does not manage the brand, then a change of type for a subscription, a movement or a benefit, then a stale version (over runs: TypeChangesOnlyWhenEmpty, OtherColumnIsEmpty, OneUpdatePerVersion). |
| `Menu.LinkTtl` | internal/service/menu.go:109-112 | A link lives at most five minutes. |
| `Menu.ReadyIsNamedOnce` | internal/repository/menu.go:147-239 | A document is named by a pointer exactly while it is READY, by one pointer only, and its object is stored. |
| `Menu.DeletionIsSafe` | internal/maintenance/worker.go:121-142 | Only the worker removes objects, and only ones that no pointer names and whose links have run out, also when its lease was taken over. |
| `Menu.StaleVersionFails` | internal/repository/menu.go:197-199 | After a change of a menu no other change, activation or reservation with the same version goes through, in any continuation. |
| `Menu.RunKeeps` | internal/repository/menu.go:118-334 | The menu invariant holds after every run. |
| `Menu.ForgottenForever` | internal/repository/menu.go:305-334 | A claimed document without a date and without a worker stays as it is in every continuation and is never claimable again. |
| `Menu.TakenAgainExactly` | internal/repository/menu.go:305-334 | From every reachable state: a document whose worker claimed it and died can be claimed again in some continuation exactly when it had been retired before the claim, and not when it was an abandoned upload. |
| `Menu.OrphanExactly` | internal/service/menu.go:148-153 | A deleted document gets its object back in some continuation exactly while its put is still under way. |
| `Menu.OrphanStaysExactly` | internal/service/menu.go:148-153 | That object is removed again in some continuation exactly when a worker still has to report on the document, and no worker can take it anew. |
| `Menu.LatePutLeavesAnOrphan` | internal/service/menu.go:148-153 | A run from the empty shelf that leaves such an object for ever: upload given up, cleaned up after the grace, put arriving late. |
| `MenuEffects.PublishShowsTheDraft` | internal/repository/menu.go:199-231 | Publishing the draft makes it the public menu, leaves no draft and retires the menu it replaces. |
| `MenuEffects.UnpublishLeavesTheDraft` | internal/repository/menu.go:208-231 | Unpublishing takes the public menu away, retires it and leaves the draft. |
| `MenuEffects.DiscardLeavesThePublished` | internal/repository/menu.go:214-231 | Discarding retires the draft and leaves the public menu. |
| `MenuEffects.ChangedWhen` | internal/repository/menu.go:181-232 | When a menu changes, and what is answered otherwise. |
| `MenuEffects.ReservedWhen` | internal/repository/menu.go:118-139 | When an upload is reserved, and the row it writes. |
| `MenuEffects.ActivatedWhen` | internal/repository/menu.go:147-180 | When an upload becomes the draft, and what happens to the draft it replaces. |
| `MenuEffects.UploadReachesThePublic` | internal/repository/menu.go:118-207 | Reserved, stored, activated and published, a document is the public menu of its branch. |
| `MenuEffects.GivingUpRetires` | internal/repository/menu.go:236-239 | Giving an upload up retires it while it is pending and leaves everything else alone. |
| `MenuEffects.ClosingClears` | migrations/0041_branch_pdf_menus.up.sql:35-54 | Closed branches keep no menu, and all their uploads and menus are retired. |
| `MenuEffects.PublicSeesThePublished` | internal/repository/menu.go:241-281 | The public is given a link to the published document and to no other, for at most five minutes. |
| `MenuEffects.MembersSeeBoth` | internal/service/menu.go:102-132 | A member is given links to draft and published document. |
| `MenuEffects.TakenWhen` | internal/repository/menu.go:306-306 | Which documents the cleanup may take, by their dates and leases. |
| `MenuEffects.LeaseProtects` | internal/repository/menu.go:305-334 | For five minutes after a worker took a document nobody else can take it, in any continuation, until it reported. |
| `MenuEffects.ClaimLeases` | internal/repository/menu.go:305-320 | A claim puts exactly the wanted documents that may be taken under a lease. |
| `MenuEffects.ReportWrites` | internal/repository/menu.go:321-334 | The owner of the lease closes the document, or gives it up for an hour after a failure; any other report changes nothing. |
| `MenuRepository.Repository.ReserveMenuDocument` | internal/repository/menu.go:118-139 | An upload is reserved for the current version of an open branch and is detached (over runs: ReadyIsNamedOnce, StaleVersionFails). |
| `MenuRepository.Repository.ActivateMenuDraft` | internal/repository/menu.go:147-180 | A pending, unleased upload becomes the draft, the version rises by one and the draft it replaces is retired. |
| `MenuRepository.Repository.ChangeMenuPublication` | internal/repository/menu.go:181-232 | Publishing moves the draft, unpublishing and discarding clear a pointer; the document that lost its pointer is retired; a stale version or another document changes nothing (when and what: ChangedWhen, PublishShowsTheDraft, UnpublishLeavesTheDraft, DiscardLeavesThePublished). |
| `MenuRepository.Repository.FailMenuUpload` | internal/repository/menu.go:236-239 | Only a pending upload that no pointer names is retired (over runs: ReadyIsNamedOnce, DeletionIsSafe). |
| `MenuRepository.Repository.RetireMenuDocument` | internal/repository/menu.go:140-143 | A pending or ready document becomes due six minutes later; any other is left alone (over runs: DeletionIsSafe). |
| `MenuRepository.Repository.DueMenuMedia` | internal/repository/menu.go:305-320 | The first due, unleased and unnamed documents in the order of the search are taken, each once, at most the limit; a shorter answer leaves none behind. |
| `MenuRepository.Repository.CompleteMenuMediaDeletion` | internal/repository/menu.go:321-334 | A report is accepted exactly from the owner of the lease, and writes what its outcome says. |
| `MenuRepository.Repository.RunMenuCleanup` | internal/maintenance/worker.go:121-146 | One pass takes the first due documents up to the limit, all of them when they are fewer, deletes and reports them one after the other, and counts exactly the accepted deletions. |
| `UploadSemaphore.QuotasHold` | internal/middleware/upload_semaphore.go:23-50 | Under every interleaving no actor holds more than its limit and all together no more than the global limit. |
| `UploadSemaphore.EntriesAreReferred` | internal/middleware/upload_semaphore.go:33-40 | An actor has a gate in the table exactly while a request refers to it, and all its requests share that gate. |
| `UploadSemaphore.NothingBlocks` | internal/middleware/upload_semaphore.go:41-49 | No release waits for a channel. |
| `UploadSemaphore.AllReturns` | internal/middleware/upload_semaphore.go:57-64 | When everybody released, all counts are zero and the table is empty. |
| `UploadSemaphore.AcquireSucceedsWhen` | internal/middleware/upload_semaphore.go:23-50 | An acquire succeeds exactly when both limits have room; a rejected one leaves everything as it was. |
| `UploadSemaphore.Limiter.Acquire` | internal/middleware/upload_semaphore.go:23-50 | Alone on the object, an acquire is exactly enter, attach and take a slot, or the way back out. |
| `UploadSemaphore.Limiter.Release` | internal/middleware/upload_semaphore.go:48-49 | The closure releases once and is harmless when called again. |
| `UploadSemaphore.Limiter.ReleaseRef` | internal/middleware/upload_semaphore.go:57-64 | The last reference to a gate removes the entry of its actor. |
| `CardEvents.NoLostRefresh` | internal/handler/card_events.go:33-113 | While the listener is connected, a waiting stream without pending news has sent the current revision or its down channel is closed. |
| `CardEvents.BrokerKeepsItsBooks` | internal/cardevents/broker.go:50-115 | The total is the sum of the group sizes within both caps, and no down channel is closed twice. |
| `CardEvents.PublicationsAreCounted` | internal/cardevents/broker.go:82-93 | Each publication reaches every subscription of its customer, as a new or a coalesced event. |
| `CardEvents.AdmittedWhen` | internal/cardevents/broker.go:50-67 | A stream is admitted exactly while the broker listens and both caps have room; a refusal is counted. |
| `CardEvents.OutageEndsAll` | internal/cardevents/broker.go:101-115 | An outage closes the down channel of every registered stream, leaves nobody registered and is counted once. |
| `CardEvents.EveryStreamCatchesUp` | internal/handler/card_events.go:33-113 | From every reachable state, once the notifications under way are delivered, a stream comes to wait with the current revision sent. |
| `CardEvents.CardBroker.SubscribeCustomer` | internal/cardevents/broker.go:50-67 | A subscription is granted exactly when the broker is ready and both caps have room. |
| `CardEvents.CardBroker.UnsubscribeCustomer` | internal/cardevents/broker.go:69-80 | Leaving removes the subscription and an emptied group once; leaving again, or after the broker went down, changes nothing. |
| `CardEvents.CardBroker.PublishTo` | internal/cardevents/broker.go:82-93 | The loop fills the event channel of every subscription of the customer, counting new and coalesced events. |
| `CardEvents.CardBroker.GoDown` | internal/cardevents/broker.go:101-115 | The nested loops close every registered down channel once and forget all subscriptions. |

## Left out

- LaterAttemptBlocksTheRefund: stated for the stage at which the recurring amount is the old one again and no other payment is approved; a second approved payment during the refund is not adopted by the source either, and convergence is claimed for a single payment only.
- EarlyRefundIsForgotten: stated for a loss of the owner's access as the cause; a rejected plan change leads to the same refund.
- AdditionGoesThrough: the provider turns no request down; a rejected plan change is a decision to refund and is covered by the safety results.
- NoLostRefresh: speaks of commits that notify, that is confirmations and reversals; other changes of a card reach the browser when it reconnects.
- AtMostOneWindow: price windows of different subscriptions of one brand may overlap, because a reservation stamps the start of its transaction and not the moment it got its locks.
- ClaimedAtMostOnce: counts claims per reservation; a client that reuses an old key after another one reserves it again.
- ReserveSubscriptionCheckout: the price is one number; which of the two program types it is for, and the trial columns it writes, are not part of the model.
- RecordReferralInvoice: does not state the column with the undiscounted amount, which only reports read.
- ChangeSubscriptionPrice: the cohort is the one brand of the model; items of other brands are independent rows, and the audit row and the previous price it keeps for reports are left out.
- RetrySubscriptionPriceChange: a change is named by the catalogue version it made instead of its key.
- RecordMerchantCreditAllocation: the sum of the rewards earned for the brand is a parameter, because rewards of other brands make it up; keys and settlements are compared within the brand.
- RecordSubscriptionWebhook: provider states outside the four known ones, which are refused before anything is read, are not states of the model.
- ConfirmBranchQuote: whether the brand has an active program and an active branch is one field of the desk, written by transactions that are not modelled.
- ApplyRetention: which of the expired rows fill a batch, and in what order, is left open.
- AnonymizeAccount: keys that carry the e-mail address of the user in scope or answer belong to other operations; the version check of the account is not modelled.
- UpdateProgram: the name of the unit and the active flag of a program are not part of the model.
- Simulated branch operations (`SimulateBranch` and the simulator branches of the reconcile), and the worker that picks operations and spaces their attempts.
- Requests that are still under way at the provider when the next one is made: a request is applied before the next step or never.
- The search limit of one hundred payments, and payments that change between the single reads of one search.
- The part of `PreviewSubscriptionPrice` and the audit rows that write nothing the other operations read; the provider's own amount outside branch operations.
- Trial dates, checkout links, next charge dates and confirmation mails of the subscription row.
- Negative prices and discounts outside 0..9999 basis points, which the tables refuse; `decimalMinor` also accepts a plus sign in front and signs after the point; no JSON number has them there, and what it returns for them is not stated.
- The time zone database: dates enter the calendar already as civil dates of Argentina.
- The idempotency wait of 150 ms: a request with a key whose transaction is still open is one that aborts.
- 64-bit limits of loyalty balances.
- The event loop of a stream is modelled as a machine over its channel operations and not as a loop; heartbeats, the ten minutes' lifetime and the session check only end it.
- Images, outbox, web push, reviews, favourites, staff, campaigns, sessions, authorization and cryptography.
- The contents of menu documents and their file names, and the storage service beyond put, delete and expiry of links.
