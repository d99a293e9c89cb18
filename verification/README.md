# Fee money, the outbox worker, fee schedules and exam roll-ups

A Dafny model of the parts of the school-management backend where a wrong interleaving or
a wrong rounding would cost somebody money, with proofs of what those parts keep.

* **The fee-money protocol** (`Schema`, `Statements`, `FeeProtocol`, `FeeInvariants`,
  `FeeRuns`, `FeeExamples`, `FeeLifecycle`, `Receipts`, `OrderTrail`, `WaivedRows`,
  `PaidOrders`, `PaidAmounts`, `GatewayIds`, `FeePromises`, `FeeService`). Four services and two
  background jobs change `fee_ledger`, `fee_payments`, `fee_payment_items` and the receipt
  counters, and append to `audit_events`. `FeeProtocol` is the state machine: every
  `async with conn.transaction()` body is one step, and `create_payment_order`, which runs
  outside a transaction, is four steps (read, insert payment, insert items, set order id)
  that anything may come between, and that may stop anywhere. `FeeService` writes the
  services out on mutable tables, one SQL statement after the other, and proves that each
  does its step, keeps the invariants and gives its caller what `FeePromises` says. `FeeRuns`
  states what every run keeps, `WaivedRows` when a waived row stays waived, `PaidOrders` what
  became of each row of a paid gateway order, `PaidAmounts` whether a paid row says what was
  paid for it, `GatewayIds` that one gateway payment pays one order.
* **The outbox worker** (`Outbox`, `OutboxInvariants`, `OutboxService`). Every SQL statement
  commits by itself and the process may die between any two. `OutboxService` has the loops
  of `worker/main.py`; a script says how each statement goes (it succeeds, raises, or the
  process dies), and every method is proved to be a run of the statement-level machine.
* **Both together** (`EndToEnd`, `Deliveries`): the fee protocol and the worker interleaved
  over one log, and who has been told what once the worker is through with an event.
* **Fee schedules** (`Pricing`, `LedgerGeneration`, `FetchOrder`, `StudentDiscounts`,
  `DiscountHistory`, `Billing`, `Levies`, `FinanceLinks`): both ledger generators, the
  discount recompute, one-time levies; `Pricing` and `Billing` say in the columns of the
  tables who is billed and what is charged.
* **Exam roll-up** (`ExamRollup`): a subject's mark, computed once in SQL and once in Python.

`dafny verify dfyconfig.toml` checks everything.

## Conventions

Money is counted in paise and percentages in hundredths of a percent, so amounts are exact
up to the roundings the code itself makes. Ledger rows and payments are never deleted by
the protocol, so a row's identifier is its position in its table. `Initiated` is the stored
payment status 'pending', `Settled` the stored ledger status 'paid'. The fields `bin`
(every line item ever deleted) and `itemised` (payments whose line items were inserted) of
`FeeProtocol.Fees`, and `done` and `ran` of `Outbox.Worker`, are history: nothing in the
code reads them and no branch depends on them.

The migrations supply the constraints: line items are unique per (tenant, ledger row) by
migration 032 and per (payment, ledger row) by 011, gateway payment ids by 011; ledger rows are unique per (tenant,
student, head, period year, month or none) by 010, the academic year not being in the key;
notifications are unique per (tenant, recipient, type, ref) by 024. `executemany` is taken
to be all-or-nothing, as it is in the asyncpg versions `requirements.txt` admits. Events
are taken to become visible in id order, which `WHERE id > cursor` relies on.

## Where the code does something else than its comments say

* `money_reconciliation` calls a paid payment whose amount differs from its items a
  violation. A claim or desk collection deletes the items of a still-pending gateway order
  (`parent_payment.py:83-91`, `fee_collection.py:118-126`) and the order can still be paid,
  so the alert fires without any lost guard. It fires exactly when that happened to a line of
  value (`FeeRuns.MismatchIffSuperseded`); its other two queries never find anything
  (`FeeRuns.ReconciliationVerdict`). It does not say what is owed: a row taken from an order
  that was paid all the same has been paid twice if another paid payment settled it
  (`FeeExamples.DeskAndGatewayBothPaid`), and is still owed if none did, as when the claim
  that took it was rejected (`FeeExamples.PaidButStillOwed`). `PaidOrders.RowOfPaidOrder` and
  `PaidOrders.StillOwedIff` give the conditions.
* Reports count `amount_due` of paid rows as collected (`finance.py:666`, `parent.py:350`).
  A discount call between a claim and its approval, or between an order and its webhook,
  rewrites the row but not its line item, so the row then says another amount than was paid
  (`FeeExamples.SettledAtAnotherPrice`; exactly when: `PaidAmounts.SettledAmountIff`).
* A waiver is not final: an order that was pending when the row was waived can still pay it
  (`FeeExamples.WaivedRowGetsPaid`). `WaivedRows.StaysWaivedIff` says exactly when none can.
* `set_student_discounts` says generation prefers a class's own schedule over the
  all-classes one. Generation takes the first its query returned that lets the student in
  (`FetchOrder.PricedByFirstFit`), so recompute, which also ignores the transport and hostel
  filters, chooses another schedule in two ways (`FetchOrder.TwoWaysToDisagree`, and exactly
  in those: `FetchOrder.SameScheduleIff`).
* The lifecycle scan only looks at rows with a due date, and no generator sets one: rows
  created after migration 028's backfill never become due or overdue
  (`FinanceLinks.GeneratedRowsNeverFallDue`). Its header also speaks of due at
  `due_date - GRACE_DAYS` and overdue strictly after the grace days; the code has
  `due_date <= today` and `due_date <= today - GRACE_DAYS`, which the model follows.
* `levy_one_time_fee` calls a levy legitimate when nothing on the head is unpaid this
  academic year. Its plain INSERT hits the unique index, with an error that is not the
  `FinanceError` `levy_fee_group` skips, if the head was paid in the same calendar year, or
  if a row of another academic year but the same calendar year is still open
  (`Levies.LegitimateLevy`; the inputs: `Levies.PaidRowBlocks`, `Levies.OpenRowBlocks`).
  Today its only caller is `levy_fee_group`, and that one's is the enrolment of a student
  just inserted (`api/v1/admissions.py:333-415`), where neither case arises
  (`Levies.NewStudentIsLevied`) and an error would roll back the levies before it.
* A student absent from every component entered so far, but with a component still to be
  entered, is stored as absent and shown as not absent (`ExamRollup.AbsentFlagsAgreeIff`; an input:
  `ExamRollup.AbsentFlagsPart`).

## Model

| member | source | states |
|---|---|---|
| Statements.LengthTestExact | backend/services/parent_payment.py:42-52 | `len(rows) == len(ledger_ids)` accepts exactly the requests whose ids are pairwise distinct and each name a payable row of that tenant and student |
| FeeInvariants.RowsFreed | backend/services/parent_payment.py:54-91 | after the live check and the supersede delete no line item is left on the selected rows, live and dead statuses being all statuses |
| FeeInvariants.HoldSucceeds | backend/services/fee_collection.py:56-130 | the item insert of a claim or a desk collection never trips a UNIQUE constraint, with or without migration 032 |
| FeeInvariants.HoldKeepsOneItemPerRow | backend/services/parent_payment.py:80-95 | a claim or collection keeps one line item per ledger row without help from the guard |
| FeeInvariants.ItemiseKeepsOneItemPerRow | migrations/032_payment_integrity.sql:19-20 | the order's item insert, which makes no live check, keeps one item per row because of the guard |
| FeeInvariants.ClaimKeepsInv | backend/services/parent_payment.py:30-101 | a claim keeps all eight invariants and never ends in a unique violation |
| FeeInvariants.CollectKeepsInv | backend/services/fee_collection.py:27-146 | so does a desk collection |
| FeeInvariants.ApproveKeepsInv | backend/services/parent_payment.py:161-243 | approval keeps the invariants |
| FeeInvariants.RejectKeepsInv | backend/services/parent_payment.py:246-275 | rejection keeps them |
| FeeInvariants.WaiveKeepsInv | backend/services/fee_collection.py:149-216 | a waiver keeps them |
| FeeInvariants.WebhookKeepsInv | backend/services/payment.py:234-359 | a webhook, late, repeated or for a superseded order, keeps them |
| FeeInvariants.SweepKeepsInv | backend/worker/scheduler.py:260-300 | timing out any list of orders keeps them |
| FeeInvariants.OpenKeepsInv | backend/services/payment.py:143-151 | inserting an order's payment row keeps them, at any later moment than its read |
| FeeInvariants.ItemiseKeepsInv | backend/services/payment.py:153-159 | inserting its items, or failing to, keeps them, even if the payment has timed out in between |
| FeeInvariants.LinkKeepsInv | backend/services/payment.py:208-213 | setting its order id keeps them |
| FeeInvariants.RepriceKeepsInv | backend/services/finance.py:380-404 | rewriting amounts of unpaid rows, claimed ones included, keeps them |
| FeeInvariants.StepKeepsInv | backend/services/payment.py:234-359 | every step of the protocol keeps references, one item per row, sound orders, settlement, legal statuses, conservation, gap-free receipts and a truthful journal |
| FeeRuns.PaidExactlyOnce | backend/worker/scheduler.py:185-194 | in every reachable state a row is paid exactly when one item on it belongs to a paid payment; that payment is its payment_id and no second live item exists |
| FeeRuns.ReconciliationVerdict | backend/worker/scheduler.py:159-211 | the double-pay and orphan queries are always empty; the amount query finds exactly the paid payments that had an item of value superseded |
| FeeRuns.AmountsConserved | backend/worker/scheduler.py:177-184 | claimed, approved and desk payments equal the sum of their items; a paid gateway payment equals its items plus what was superseded |
| FeeRuns.MismatchIffSuperseded | backend/worker/scheduler.py:177-184 | the amount query finds a paid payment exactly if, while it was a pending order, a claim or collection was accepted that names a row on which it held a line of value |
| FeeRuns.StatusMoves | backend/services/payment.py:261-271 | one step moves a payment only from pending to paid or failed, or from awaiting verification to paid or rejected, and never changes its amount, owner or given receipt number |
| FeeRuns.Absorbing | backend/worker/scheduler.py:270-290 | over any run a paid, rejected or failed payment stays so, with the same amount, and a paid one with the same receipt number and gateway payment id |
| GatewayIds.IdsUnique | migrations/011_fee_payments.sql:25 | in every reachable state exactly the paid gateway payments carry a gateway payment id, and no two the same |
| GatewayIds.OnePaymentOneOrder | backend/services/payment.py:267-275 | of all the webhooks of a run with one gateway payment id, at most one turns a pending order paid |
| GatewayIds.BookedForGood | backend/services/payment.py:267-275 | an order a webhook has paid carries the gateway payment id it came with, whatever happens later |
| FeeRuns.BoundaryFacts | backend/services/fee_collection.py:183-205 | between transactions no payment is 'processing', no waived row is held by a claim or a paid payment, no payment has both a rejection and a timeout event |
| FeeRuns.GuardIdleInRuns | migrations/032_payment_integrity.sql:1-20 | runs without the order's item insert go exactly the same with and without the guard, so everything above holds for them unguarded |
| FeeRuns.TenantIsolation | backend/services/parent_payment.py:229-235 | what is done for one tenant (its requests, webhooks for its orders, the statements of its orders) changes no row, payment, line item or receipt counter of another, although the UPDATE that settles rows does not name the tenant |
| FeeExamples.DeskAndGatewayBothPaid | backend/services/fee_collection.py:115-130 | for every row and order a run exists in which desk and webhook both take the money and the amount query fires |
| FeeExamples.GuardNeeded | backend/services/payment.py:114-159 | without migration 032 a run exists in which a paid and a claimed payment hold the same row |
| FeeExamples.PaidButStillOwed | backend/services/parent_payment.py:246-275 | for every row and order a run exists in which the order is paid and the row still owed: a claim took it and was rejected |
| FeeExamples.SettledAtAnotherPrice | backend/services/finance.py:380-404 | for every row and price a run exists in which the row is settled and charges that price, while its line item was paid for what it charged before |
| FeeExamples.WaivedRowGetsPaid | backend/services/payment.py:342-350 | a waived row can be paid by an older pending order |
| OrderTrail.ItemStaysIff | backend/services/parent_payment.py:80-91 | in one step a line item goes exactly if an accepted claim or collection takes its row over from a payment that is not live, or its payment is rejected or timed out |
| WaivedRows.StaysWaivedStep | backend/services/payment.py:261-350 | a waived row stays waived in a step exactly unless the step is a webhook that passes its checks for a pending order with a line item on the row |
| WaivedRows.StaysWaivedIff | backend/services/payment.py:114-159 | from any reachable state a waived row stays waived in every continuation exactly if no pending order holds a line item on it and no unfinished order naming it can still insert one, as one of its rows carries an item nothing will ever delete |
| PaidOrders.RowOfPaidOrder | backend/services/payment.py:342-350 | each row a paid order names is settled by that order exactly if no claim or collection was accepted for it while the pending order held it; otherwise it is settled exactly if another paid payment holds it |
| PaidOrders.StillOwedIff | backend/services/parent_payment.py:83-91 | an unwaived row of a paid order is still owed exactly if it was taken and no other paid payment settled it; every payment that took it has then been rejected or awaits verification |
| PaidOrders.TakerEnds | backend/services/fee_collection.py:118-126 | a payment that took a row from a pending order is rejected, or is the one that settled the row, or awaits verification with the row unpaid |
| PaidAmounts.SettledAmountIff | backend/services/finance.py:380-404 | what a settled row charges equals what its line item was paid for exactly if the last repricing of the row since the item's amount was read, if it had one, gave the same amount |
| PaidAmounts.ItemAmountIff | backend/services/payment.py:153-159 | the same for every line item, whose amount was read from its row by the step that inserted its payment or began its order |
| FeeLifecycle.RowLife | backend/worker/scheduler.py:55-84 | one step leaves a due date alone, never makes a row payable again, and moves a payable row only by the scan |
| FeeLifecycle.CatchUp | backend/worker/scheduler.py:47-84 | in any interleaving with scans on non-decreasing days, an unpaid row's status depends only on its due date and the last scan |
| FeeLifecycle.NoDueDateNoScan | backend/worker/scheduler.py:60-78 | without a due date no scan moves a row |
| Receipts.GapFree | backend/services/payment.py:277-288 | each tenant's receipt numbers on paid payments are exactly 1..last_number, each used once |
| Receipts.NumbersDiffer | backend/services/fee_collection.py:88 | different counters print different receipt strings, whatever slug and year |
| Receipts.PrintedForm | backend/services/payment.py:288-288 | the printed number is slug, year and counter with dashes, the year in at least four digits and the counter in six as long as it fits, and its digits read as the counter |
| Receipts.PrintedDistinct | backend/services/parent_payment.py:178-186 | the printed receipt numbers of a tenant's paid payments are pairwise distinct |
| FeeService.FeeOffice.InsertLines | backend/services/parent_payment.py:92-95 | executemany inserts all lines or, if one clashes, none |
| FeeService.FeeOffice.SubmitClaim | backend/services/parent_payment.py:30-101 | the statements, rollback included, do the protocol's claim and keep the invariants; refused, with which answer is said exactly, nothing has changed; otherwise a claim awaiting verification for what the rows charge holds each of them alone, and the event is logged |
| FeeService.FeeOffice.Approve | backend/services/parent_payment.py:161-243 | an awaiting claim gets the tenant's next receipt number and settles exactly the rows it holds; nothing else changes, and the invariants stay |
| FeeService.FeeOffice.Reject | backend/services/parent_payment.py:246-275 | a rejected claim keeps no line item, the rows it held carry none and are payable, other payments keep theirs, and the invariants stay |
| FeeService.FeeOffice.RecordOfflinePayment | backend/services/fee_collection.py:27-146 | the desk collection, which draws its receipt number and inserts the payment as paid first, equals a claim approved on the spot; every answer is said exactly; accepted, exactly the rows named are settled by the new payment, for what they charge, with the next receipt number and a FEE_PAID event |
| FeeService.FeeOffice.WaiveFees | backend/services/fee_collection.py:149-216 | every answer is said exactly; accepted, exactly the rows named become waived, nothing else of theirs changes, and the waiver is logged with their total |
| FeeService.FeeOffice.MarkPaymentSuccess | backend/services/payment.py:234-359 | the webhook transaction, passing through 'processing', does the protocol's webhook; a pending order with the webhook's order id, if no other payment has its gateway payment id, is paid, carries that id, and settles exactly the rows it still holds; anything else changes nothing |
| FeeService.FeeOffice.QuoteOrder | backend/services/payment.py:114-130 | an order goes on exactly with distinct payable rows of the student, held or not, and quotes exactly those |
| FeeService.FeeOffice.OpenOrder | backend/services/payment.py:143-151 | the payment is inserted pending, for the sum of the quotes, with no line item |
| FeeService.FeeOffice.ItemiseOrder | backend/services/payment.py:153-159 | the insert is refused exactly if a row of the order carries a line item already; otherwise the order's lines come in and add up to its amount |
| FeeService.FeeOffice.LinkOrder | backend/services/payment.py:208-213 | the order's payment, and no other, gets the gateway's order id |
| FeeService.FeeOffice.GatewayPaymentSweep | backend/worker/scheduler.py:260-300 | the bulk UPDATE, bulk DELETE and event loop equal timing out the late orders one by one; exactly those fail, exactly their line items go, and no ledger row changes |
| FeeService.FeeOffice.FeeLifecycleAdvance | backend/worker/scheduler.py:55-84 | after the two UPDATEs each pending or due row with a due date has the status the date and the day call for (overdue five days on), and no other row has changed |
| OutboxInvariants.RetryRunsTheHandlerThatFailed | backend/worker/main.py:85-94 | looking a handler up by its name finds that handler, so no dead-letter row is ever written off |
| OutboxInvariants.InsertNotesFacts | migrations/024_worker_spine.sql:71-75 | insert-if-absent keeps keys unique, drops nothing, adds only what was offered and leaves every offered key present |
| OutboxInvariants.ReplayAddsNothing | backend/worker/handlers/fees.py:21-58 | after a crash, offering the same rows again, or any whose keys have been offered before, adds nothing |
| OutboxInvariants.ReplayAddsOnlyNew | backend/worker/handlers/fees.py:36-58 | a replay whose SELECT finds other recipients adds notes for the new ones only |
| OutboxInvariants.WorkKeepsInv | backend/worker/main.py:126-155 | every statement of the worker, and a crash at any point, keeps at-least-once, the dead-letter rows, caused and unique notifications, and never moves the cursor back |
| OutboxInvariants.RetriesEnd | backend/worker/main.py:70-123 | with no new events, over any run, crashes included, at most the sum of (5 - attempts) over the unresolved rows of retries complete, failed or resolved; once that many have, no row is left to retry |
| OutboxInvariants.RetriesBounded | backend/worker/main.py:70-123 | with events still to handle, at most that sum plus four for each handler newly parked |
| OutboxInvariants.BackoffNeverCapped | backend/worker/main.py:110-119 | every back-off scheduled is 60, 120, 240 or 480 seconds and attempts end at 5 |
| OutboxInvariants.ParkedFor30Seconds | backend/worker/main.py:54-68 | a handler that raised is parked with its event and one attempt, due 30 seconds later |
| OutboxService.WorkerProcess.HandleEvent | backend/worker/main.py:141-154 | one event's handlers and the cursor update are a run of the machine; alive, the cursor is past the event |
| OutboxService.WorkerProcess.ProcessBatch | backend/worker/main.py:126-155 | a batch is a run of the machine, whatever fails; alive, the cursor has advanced by the batch size or to the head |
| OutboxService.WorkerProcess.SelectDue | backend/worker/main.py:71-80 | the rows picked are due, distinct, as many as the limit allows, and none left out is due earlier |
| OutboxService.WorkerProcess.CatchUp | backend/worker/main.py:177-180 | with no new events, passes of batch and retries, at whatever times, reach the head unless one dies or fails |
| OutboxService.WorkerProcess.RetryRow | backend/worker/main.py:88-119 | a retried row ends resolved, or with one more attempt and its back-off, or untouched if the process dies |
| OutboxService.WorkerProcess.RetryDlq | backend/worker/main.py:70-123 | the same for all rows selected, the others untouched, as a run of the machine |
| EndToEnd.LiveSound | backend/core/events.py:7-14 | the protocol's and the worker's invariants hold together in every interleaving over one log |
| EndToEnd.EveryEventAccountedFor | backend/worker/main.py:126-155 | every event behind the cursor has, for each handler, been handled to the end or left a dead-letter row; attempts stay within 1..5 and resolved rows were really handled |
| EndToEnd.CursorMonotone | backend/worker/main.py:151-154 | the cursor never decreases |
| EndToEnd.OnePaidEvent | backend/services/payment.py:352-357 | a paid payment has exactly one FEE_PAID event, naming its tenant, student, amount and receipt number; no other payment has one |
| EndToEnd.ReceiptExactlyOnce | backend/worker/handlers/fees.py:21-38 | whatever crashes and replays occur, a payment has at most one FEE_RECEIPT notice, none unless paid, and exactly one once the cursor is past its event with no unresolved dead letter |
| EndToEnd.RejectionNoticeTruthful | backend/worker/handlers/fees.py:81-98 | the two handlers that share the FEE_REJECTED key never meet: the notice is unique and its title fits the payment's status |
| EndToEnd.RejectionDelivered | backend/worker/handlers/fees.py:149-163 | a settled rejection or timeout event has delivered exactly one notice |
| Deliveries.StatementDelivered | backend/worker/main.py:126-155 | once the worker is through with an event, each statement of each of its handlers has run in some action of the run, and every row it offered is there once |
| Deliveries.ClaimNotices | backend/worker/handlers/fees.py:61-78 | for a claim, each accountant found has exactly one notice to verify the payment |
| Deliveries.ReconciliationNotices | backend/worker/handlers/fees.py:40-58 | for a paid payment, each accountant found has exactly one note to reconcile it |
| Deliveries.AbsenceNotices | backend/worker/handlers/attendance.py:20-54 | for marks submitted, corrected or overridden, the parent of each absentee found is told once |
| Deliveries.HomeworkNotices | backend/worker/handlers/homework.py:21-44 | for a classroom post, the parent of each student found is told once |
| Deliveries.ResultsNotices | backend/worker/handlers/exams.py:13-35 | for published results, the parent of each student found is told once |
| Deliveries.AgingNotices | backend/worker/handlers/admissions.py:15-41 | for a stale admission, each principal or vice principal found is told once |
| Deliveries.ReminderNotices | backend/worker/handlers/fees.py:166-190 | for a reminder, the parent of the student, if found, has one notification for that very event |
| Deliveries.EscalationNotices | backend/worker/handlers/fees.py:101-128 | for a stale claim, each accountant found is told once that day |
| Deliveries.PrincipalNotices | backend/worker/handlers/fees.py:130-146 | and so is each principal or vice principal found |
| Pricing.OnePaisa | backend/services/finance.py:286-300 | the SQL recompute gives the generated amount or one paisa more, even when seasonal reduction and discount both round |
| Pricing.OnePaisaExactly | backend/services/finance.py:382-388 | without a reduction they differ exactly on ties above an even paisa |
| Pricing.UndiscountedPrice | backend/services/finance.py:292-300 | without a discount both computations charge the schedule's amount, except in the reduction's month, where they are within half a paisa of the reduced amount |
| Pricing.GeneratedCharges | backend/services/finance.py:286-300 | generation charges the base less the discount, each rounded to the nearest paisa, ties to even, the base being the schedule's amount, reduced in the reduction's month only |
| Pricing.RecomputedCharges | backend/services/finance.py:382-388 | so does the recompute, ties up |
| LedgerGeneration.MonthsExact | backend/services/finance.py:571-590 | the derived months are exactly those from start to end, in order, each once, 12*(ey-sy)+(em-sm)+1 of them |
| LedgerGeneration.DeriveMonthYearPairs | backend/services/finance.py:583-590 | the loop terminates with those months |
| LedgerGeneration.SingleEqualsBulk | backend/services/finance.py:501-551 | whatever order the two schedule queries return, the single-student generator makes exactly the bulk generator's entries for that student, each as often |
| LedgerGeneration.FirstWins | backend/services/finance.py:484-492 | of several entries with one key the first inserted stays |
| LedgerGeneration.Ledger.GenerateLedger | backend/services/finance.py:425-498 | the nested loops insert exactly the entries due; created counts the rows added, skipped the rest |
| LedgerGeneration.Ledger.GenerateForNewStudent | backend/services/finance.py:501-551 | the single-student loop inserts exactly its entries over the year's months and returns their number |
| Billing.BilledIff | backend/services/finance.py:425-498 | for any tables and ledger, a row with a free key is there after generation exactly if its student is enrolled, its period was asked for (a fee charged once in the year of the first month asked), and some schedule of the tenant and year on an active ungrouped head is for the student's class and lets the student in by its filter |
| Billing.CreatedRow | backend/services/finance.py:450-492 | a created row is unpaid, has no due date, and charges the first such schedule fetched less the student's discount |
| Billing.NewStudentBilledIff | backend/services/finance.py:501-551 | the same for the single-student generator, over the months of the academic year, a fee charged once in the year it starts |
| LedgerGeneration.GenerationIdempotent | backend/services/finance.py:554-568 | a second run over the same months creates nothing and changes no row, in whatever order its queries return and whatever discounts have become; keys stay unique |
| LedgerGeneration.NewStudentAfterBulk | backend/services/finance.py:501-551 | after a bulk run the single-student generator adds nothing, in any fetch order and with any discounts |
| StudentDiscounts.DiscountDesk.SetStudentDiscounts | backend/services/finance.py:338-415 | the transaction replaces the student's discounts, reprices, counts the rows and logs the event with heads, percentages and count, or on a repeated or unknown head changes nothing |
| Billing.DiscountCall | backend/services/finance.py:354-415 | each answer exactly; on success the student's rows that are neither paid nor waived and have a schedule charge the class's own, or else the all-classes one, less the call's percentage, no other row changes, and answer and event give the number of those rows and the percentages |
| DiscountHistory.HistoryIndependent | backend/services/finance.py:338-405 | the last accepted call alone decides the student's discounts and what each row it found unpaid charges, whatever payments, waivers, scans, billing and other calls come before, between or after; any other row charges what it did |
| StudentDiscounts.FreshRowWithinAPaisa | backend/services/finance.py:380-404 | repricing a fresh row by the schedule that generated it changes only its amount, by at most one paisa, up |
| FetchOrder.PricedByFirstFit | backend/services/finance.py:425-498 | for any tables, months and ledger, the row created for a free period is priced by the first schedule fetched that fits class and filter; if none fits, no row is created |
| FetchOrder.SameScheduleIff | backend/services/finance.py:338-405 | recompute chooses the schedule that generated the row exactly if the class has none of its own, or its own lets the pupil in and was fetched before any all-classes one that does |
| FetchOrder.RepricingCreatedRow | backend/services/finance.py:380-404 | in that case recompute moves a created row by at most one paisa, up; otherwise it charges the class's own schedule, which is not the one it was generated from |
| FetchOrder.TwoWaysToDisagree | backend/services/finance.py:391-397 | an all-classes schedule fetched first, or a class's own one whose filter shuts the pupil out, makes the two choose differently |
| FinanceLinks.RecomputeIsReprice | backend/services/finance.py:380-404 | setting discounts is a repricing step of the fee protocol |
| FinanceLinks.GenerationIsBilling | backend/services/finance.py:484-492 | generation is a run of billing steps of the fee protocol |
| FinanceLinks.GeneratedRowsNeverFallDue | backend/worker/scheduler.py:60-78 | a generated row is never made due or overdue, in any run |
| Levies.UncaughtIff | backend/services/finance.py:823-852 | a levy ends in the unique violation exactly if it is well posed, nothing on the head is unpaid this academic year, and some row of the student has the head, no month and today's calendar year |
| Levies.LevyAnswers | backend/services/finance.py:790-852 | every answer in the order of the tests; a levy that goes through adds one unpaid row, without month and due date, for the amount asked and this calendar year |
| Levies.LegitimateLevy | backend/services/finance.py:823-841 | a levy the comment calls legitimate goes through unless the head was paid this calendar year or a row of another academic year and this calendar year is open, which exclude each other |
| Levies.GroupDiesIff | backend/services/finance.py:956-994 | levying a group ends in the error exactly if some head would on the ledger as it stood at the start |
| Levies.NewStudentIsLevied | backend/api/v1/admissions.py:404-415 | for a student with no row on any head of the group, as at enrolment, the loop never ends in the error and each leviable head is owed afterwards |
| Levies.GroupOwed | backend/services/finance.py:956-994 | whenever the loop gets through, every head with a positive amount that can be levied is owed |
| Levies.GroupAdds | backend/services/finance.py:983-991 | every row it adds is that of one of the heads, for its amount |
| Levies.LevyFeeGroup | backend/services/finance.py:956-994 | the loop levies the heads in order, skipping those without amount or with a FinanceError |
| Levies.RetryBillsNothing | backend/services/finance.py:964-970 | levying a group again right away goes through and adds nothing |
| ExamRollup.GridRow | backend/services/exam.py:565-592 | the grid's loops compute the share sum over the weight sum and the absent flag |
| ExamRollup.StoredMark | backend/services/exam.py:495-514 | the stored mark is the weighted average, out of 100, over exactly the components that have an entry, to the nearest hundredth, ties up; the flag says whether every entry is an absence; without an entry nothing is stored |
| ExamRollup.UnenteredPlaysNoPart | backend/services/exam.py:510-514 | adding a component without an entry anywhere leaves what is stored |
| ExamRollup.GridMark | backend/services/exam.py:565-583 | the grid's total is the same points over the weights of all components, to the nearest hundredth, ties to even |
| ExamRollup.SameMarkIff | backend/services/exam.py:495-514 | before rounding the stored mark is never below the grid's, and equals it exactly when every component has an entry or nothing above zero was scored |
| ExamRollup.StoredAgainstGrid | backend/services/exam.py:495-514 | with all components entered and one scored, stored exceeds grid by 0 or 0.01; with marks within their maxima both lie in [0, 100] |
| ExamRollup.AbsentFlagsAgreeIff | backend/services/exam.py:508-508 | the two absent flags agree exactly when all components are entered or some entry is not absent, and part only with the stored one set |
| ExamRollup.NothingScored | backend/services/exam.py:583-583 | entries without any score store 0 where the grid shows nothing |

## Left out

- Levies.LevyGroup: keeps the levies made before an error, which the enrolment transaction around it rolls back.
- OutboxService.WorkerProcess.CatchUp: the hourly and daily jobs between passes are outside it (the sweep and the scan are steps of the fee protocol, the others append events or only read); a failed pass ends the run, where the loop waits and starts the next.
- StudentDiscounts.DiscountDesk.SetStudentDiscounts: the reason text and the acting user are not stored.
- DiscountHistory.HistoryIndependent: schedules are fixed during the run; a row billed after the last call is priced by generation (FetchOrder.PricedByFirstFit).
- Row locks and isolation levels: a transaction body is atomic, so races that READ COMMITTED lets in between the statements of two transactions are not modelled; neither are connection failures inside one, which roll it back.
- Gateway HTTP calls, signatures, JWT and tenant middleware: an order id is assigned or not, and a webhook arrives any number of times, with any payment id.
- Receipt, payslip and report-card rendering, CSV and Excel, uploads, routes and the frontend.
- Ages and clocks: which orders are past the time limit, today's date and the retry time are parameters.
- FeeService.FeeOffice.WaiveFees: the reason counts as blank if it holds only ASCII spaces, tabs and line ends; Python's strip also drops other Unicode white space.
- FeeService.FeeOffice.FeeLifecycleAdvance: does not insert the overdue notifications or set reminded_at; newly overdue rows can appear twice in that list, so its count means little.
- FeeService.FeeOffice.MarkPaymentSuccess: NOWAIT lock failure is the same no-op as an unknown order; the payment method and the receipt's text are not stored.
- Outbox.Rows: bodies of notifications, the title of a classroom post and the day counts in titles are not modelled, and the look-ups behind the handlers are left to the recipients a statement finds; the escalation notice carries the day it is run on, so a replay after midnight adds a second one, as in the code.
- ExamRollup.StoredAgainstGrid: sums and quotients are exact; the many-digit intermediate rounding of NUMERIC and Decimal is not modelled, and entries above a component's maximum are refused before this code.
- payment_claim_escalation, admissions_aging: they only append events and set throttle columns.
- The year rollover's carry-forward of fees: it names a fee_schedule_id column that no migration shown creates; to the protocol it is the billing of rows.
- Payroll (net = gross + allowances - deductions, snapshots, finalized runs): each fact follows from one body.
- One-off scripts, which write the tables past the services.
