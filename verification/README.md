# Downgrades, messages and uploads: a verified model

This project models four parts of the repository and proves what they are meant to keep.

**The downgrade and its refund** (`Downgrade*.dfy`, `CancelRefund.dfy`, `BillingHistory.dfy`). One company asks to
leave its paid plan. 48 hours later a job plans a refund over the card payments, cancels at the payment provider,
clears the request and sends the refunds; the provider's updates settle them. `Downgrade` is a step machine in which
every write and every provider call is a step of its own, so that a crash, a renewal, a webhook or an operator's
refund can come between any two. `DowngradeService` is the service with its tables and its loops, and is proved to
end every run where the machine ends it; `DowngradeRuns` says what such a run does to the tables, by what they and the
answers say.

**The message parser** (`MessageLinks.dfy`, `MessageFormat.dfy`, `MessageRules.dfy`, `MessageTheorems.dfy`). WhatsApp text is
split into links and plain text, then parsed into a tree of emphasis, code and fences. The parser with its memo of
failed searches is compared with the one that searches afresh at every opener, and that one with rules over the
positions of the text, which leave every text one tree.

**The WhatsApp client's synchronisation** (`UnreadCounts.dfy`, `ReadMarkers.dfy`, `Resync.dfy`, `ThreadWindow.dfy`,
`ThreadTheorems.dfy`, `ThreadStates.dfy`, `MessageCopies.dfy`). Answers that arrive out of order meet live pushes: unread counts, read
markers, the refetch of the chat list, the window of messages of the open chat, and the later copies of a message. An
asynchronous method is two methods here, up to its request and from its answer on; what it carries across is in the
request.

**The upload queue** (`Attachments.dfy`, `AttachmentLists.dfy`, `AttachmentTheorems.dfy`, `AttachmentRuns.dfy`,
`AttachmentItems.dfy`). Files go up one at a time per chat, a reset abandons what is under way, and object URLs are owned.

Each part has a value with the state, pure functions for the steps, and a class whose methods change their fields as
the source does and are proved to take exactly those steps. The theorems range over all runs of the steps, with every
answer, failure and event in any order.

## What is assumed

- Jobs, requests, withdrawals and refund updates of one company exclude each other (the company lock). Everything
  else may come between any two steps of a job.
- A single write is atomic, and one that throws has had no effect. A provider call that throws may have had its effect.
- The provider answers a repeated refund of one remedy with the refund that it already made; a new refund has a new
  id. That is the provider interface's contract for a reference
  (`backend/src/modules/billing/provider/billing-provider.interface.ts:193-198`). The Paddle adapter keeps it; the
  Stripe adapter passes no reference (`backend/src/modules/billing/provider/stripe-billing.provider.ts:677-714`), so a
  refund repeated there is not covered. Which state the answer shows is not assumed: `AnswersWhatIsShown` and
  `SameAnswer` say so where it is needed.
- An update that names a cancel row names the refund that the provider made for it.
- The provider has no refund basis exactly when the subscription has ended.
- The provider lists each payment of a period once.
- An invoice belongs to one subscription, as the plan's query by period start supposes
  (`backend/src/modules/billing/billing-downgrade.service.ts:583-593`). Only
  `DowngradePlans.RefundsStayWithinThePayment` needs it, and says so.
- The billing customer is not taken away while a request is pending. `DowngradeSafety.MissingCustomerSkipsTheCancel`
  shows why.
- A chat's messages are stored in the order of their ids, and a message is stored before it is pushed. A page is cut
  from the log as it stood at some moment between the request and the answer.
- A timer never fires early.
- A run of uploads ends and unregisters itself in one step. The source unregisters in a `.finally`, one microtask later
  (`frontend/app/services/wa-attachments.js:137-140`); no event of the page comes between.

## Where the promise fails

- **Refund ledger.** The history row is written first and its insert keeps the first row. If the job crashes right
  after it, the refund is approved, and the provider answers the repeat with the current state, as the Paddle adapter
  does (`backend/src/modules/billing/provider/paddle-billing.provider.ts:1015-1025`), the remedy ends approved
  and the history stays pending for good. `DowngradeLedger.StrandedHistoryIsReachable` is such a run.
  `LedgerAgreesExactlyWhenWritesMatch` gives the exact condition over runs, `SendingAgreesExactlyWhenAnswersMatch`
  that of one answer; `LedgerAgreesInEveryRun` holds while answers read as the history row that is there, and
  `RepeatedAnswersAgree` shows that a provider which repeats its first answer is enough.
- **Approved and reversed in either order.** They end in reversed from queued and initiated, but not from failed:
  `DowngradeLedger.ApprovedAndReversedCommute` is an equivalence for the remedy row,
  `HistoryAfterApprovedAndReversed` one for the customer's history, and `ApprovedAndReversedCanDiffer` gives two runs
  that differ in that order alone.
- **Live messages.** The restore of the saved chat reopens it without the check that every other caller makes. When a
  reload of that very chat is under way, the messages parked for it are dropped, and if the new load fails the old
  window comes back without them: `ThreadTheorems.RestoreCanLoseAMessage`. `NoLiveMessageIsLost` says of every run
  that these, and no others, are lost. A message stored before its window was asked for may also stand before that
  window: `DeliveredCanBeOlderThanTheWindow`.
- **Read markers out of order.** Scrolling up asks for an older marker
  (`frontend/app/controllers/whatsapp.js:1133-1163`), and the newest one asked for can then be lost: displaced while it
  waits (`ReadMarkers.OlderMarkerReplacesNewer`), overwritten before its answer although it was asked for last
  (`SkippedMarkerIsOverwritten`), or dropped on a new connection (`ReconnectDropsTheAwaited`).
  `MarkersAreLostExactlyWhenDisplaced` says over every run which markers are lost, `KeptUnlessDisplaced` gives the exact
  condition of one event, and `NewestMarkerIsKept` holds when markers are asked for in increasing order.
- **Edited texts.** A late copy from before an edit does not put the old text back, but it does put the old edit time
  back; the same copy once more then puts the old text back: `MessageCopies.OlderEditTwice`, with the exact conditions
  in `SafeExactlyWithoutLateEdits` and `MergingTwiceIsMergingOnce`.
- **Payment history.** With two different newest events of one invoice and type at the same time, the delivery order
  decides: `BillingHistory.ConvergesExactlyWhenUntied`.

## Model

| member | source | states |
|---|---|---|
| `CancelRefund.ComputedAmountIsExact` | backend/src/modules/billing/cancel-refund.util.ts:43-79 | the time left of the period is unused, all of it before the start and none after the end; the unused share is the exact floor of value times unused over period, zero when unpaid; the amount lies between 0 and the card money and is the uncapped sum where that fits |
| `CancelRefund.AmountFromTheInput` | backend/src/modules/billing/cancel-refund.util.ts:46-78 | from the input alone: nothing for an unpaid period or after its end, the whole held value before its start, in between the floor of the time left over the period; less the next bill, plus a positive credit, between nothing and the card money |
| `CancelRefund.OneUnusedValue` | backend/src/modules/billing/cancel-refund.util.ts:56-60 | the rule leaves one value: the floor is the only number that meets it |
| `CancelRefund.HeldValueOfOne` | backend/src/modules/billing/cancel-refund.util.ts:51-55 | a line is worth quantity times price when both are positive, else nothing |
| `CancelRefund.HeldValueAddsUp` | backend/src/modules/billing/cancel-refund.util.ts:51-55 | the lines of two lists together are worth what they are worth apart |
| `CancelRefund.AmountMovesOneForOne` | backend/src/modules/billing/cancel-refund.util.ts:61-77 | between the caps the amount falls one for one with the next bill and rises one for one with the credit |
| `CancelRefund.LaterNeverRefundsMore` | backend/src/modules/billing/cancel-refund.util.ts:46-62 | executing later never gives a larger amount |
| `CancelRefund.AllocateCancelRefund` | backend/src/modules/billing/cancel-refund.util.ts:82-99 | throws exactly when the amount exceeds what can be refunded; else gives each payment its share |
| `CancelRefund.SharesAddUp` | backend/src/modules/billing/cancel-refund.util.ts:88-94 | the shares total the amount, capped by what the payments can give |
| `CancelRefund.SharesStayRefundable` | backend/src/modules/billing/cancel-refund.util.ts:90-92 | on no invoice do the shares exceed what is refundable on it |
| `CancelRefund.EarlierPaymentsAreExhausted` | backend/src/modules/billing/cancel-refund.util.ts:88-94 | a payment is touched only when every payment before it is used up |
| `DowngradeSafety.SharesArePositive` | backend/src/modules/billing/cancel-refund.util.ts:90-92 | no payment gives an empty share |
| `CancelRefund.PlannedRefundIsPayable` | backend/src/modules/billing/billing-downgrade.service.ts:439-460 | the computed amount over the same payments never makes the allocation throw, and is allocated in full |
| `BillingHistory.BillingHistoryService.RecordPayment` | backend/src/modules/billing/billing-history.service.ts:36-92 | inserts with every column, or replaces a row that is not newer; an event without an invoice changes nothing |
| `BillingHistory.BillingHistoryService.RecordRefund` | backend/src/modules/billing/billing-history.service.ts:95-116 | inserts a refund row once; a repeat keeps the first |
| `BillingHistory.BillingHistoryService.SetRefundStatus` | backend/src/modules/billing/billing-history.service.ts:118-129 | sets the status of the company's own refund row only |
| `BillingHistory.RowIsNewest` | backend/src/modules/billing/billing-history.service.ts:60-73 | after any deliveries each row is that of a newest event of its key, and exactly the delivered keys have rows |
| `BillingHistory.RowsShowTheNewest` | backend/src/modules/billing/billing-history.service.ts:36-92 | after any deliveries there is a row for exactly the invoices and types of the events, and every column of it is that of an event that none of them is newer than |
| `BillingHistory.FirstRefundRowStays` | backend/src/modules/billing/billing-history.service.ts:95-116 | the row that came first stays under its refund, whatever is recorded later |
| `BillingHistory.StatusReachesItsOwnRow` | backend/src/modules/billing/billing-history.service.ts:118-129 | a status changes the status of the company's own refund row and nothing else |
| `BillingHistory.ConvergesExactlyWhenUntied` | backend/src/modules/billing/billing-history.service.ts:60-73 | any order and repetition of a set of events gives the same table if and only if no two newest events of a key would write different rows |
| `BillingHistory.DistinctTimesConverge` | backend/src/modules/billing/billing-history.service.ts:60-73 | distinct times per invoice and type are enough |
| `DowngradeService.BillingDowngradeService.constructor` | backend/src/modules/billing/billing-downgrade.service.ts:120-130 | the service starts in the machine's first state |
| `DowngradeService.BillingDowngradeService.Request` | backend/src/modules/billing/billing-downgrade.service.ts:133-174 | records a request once, answers a repeat with the pending one, refuses while refunds are queued |
| `DowngradeService.BillingDowngradeService.Withdraw` | backend/src/modules/billing/billing-downgrade.service.ts:183-197 | withdraws a pending request, refuses once refunds are queued |
| `DowngradeService.BillingDowngradeService.ExecuteFor` | backend/src/modules/billing/billing-downgrade.service.ts:223-300 | for every sequence of answers the run ends in the state that the step machine reaches with them |
| `DowngradeService.BillingDowngradeService.PlanRefund` | backend/src/modules/billing/billing-downgrade.service.ts:378-429 | checks the subscription and the team, releases a scheduled cancel; comes back with rows, null or an error where the machine does |
| `DowngradeService.BillingDowngradeService.DropRequest` | backend/src/modules/billing/billing-downgrade.service.ts:814-833 | the request is cleared and the run returns; a failed write is a failed planning step |
| `DowngradeService.BillingDowngradeService.PlanPeriod` | backend/src/modules/billing/billing-downgrade.service.ts:409-429 | the basis, then the state of the period: dropped, waiting, or on to the payments |
| `DowngradeService.BillingDowngradeService.CurrentPeriodPaid` | backend/src/modules/billing/billing-downgrade.service.ts:490-531 | paid or unpaid from our rows, else wait, else ask the provider |
| `DowngradeService.BillingDowngradeService.PlanRows` | backend/src/modules/billing/billing-downgrade.service.ts:430-487 | the amount is allocated over the payments and its rows saved together, or nothing is refundable |
| `DowngradeService.BillingDowngradeService.ReplanIfRenewed` | backend/src/modules/billing/billing-downgrade.service.ts:546-573 | rows of an earlier period are failed one by one and the refund is planned again; else they stay; `QueueStaysExactlyForItsPeriod` and `RenewedRunPlansAnew` say which, from the tables and the answer |
| `DowngradeService.BillingDowngradeService.FailStep` | backend/src/modules/billing/billing-downgrade.service.ts:627-669 | counts an attempt below five; the fifth goes on if the provider ended the subscription, else releases rows and request |
| `DowngradeService.BillingDowngradeService.CancelAndSend` | backend/src/modules/billing/billing-downgrade.service.ts:275-297 | cancel, clear the request, then send, in that order |
| `DowngradeService.BillingDowngradeService.SendRefunds` | backend/src/modules/billing/billing-downgrade.service.ts:679-738 | sends every queued row in order, and goes on after a row that fails |
| `DowngradeService.BillingDowngradeService.RecordSent` | backend/src/modules/billing/billing-downgrade.service.ts:695-711 | the history row is written before the remedy row, which moves only while queued |
| `DowngradeService.BillingDowngradeService.RefundFailed` | backend/src/modules/billing/billing-downgrade.service.ts:740-753 | a failed row counts an attempt and is given up at the fifth |
| `DowngradeService.BillingDowngradeService.FindRemedy` | backend/src/modules/billing/billing-downgrade.service.ts:304-313 | finds the row of the refund, else the row that the reference names while it has none; nothing found means there is none |
| `DowngradeService.BillingDowngradeService.Settle` | backend/src/modules/billing/billing-downgrade.service.ts:320-354 | under the lock: moves the row only from the states allowed and keeps the history in step |
| `DowngradeService.BillingDowngradeService.ApplyRefundUpdate` | backend/src/modules/billing/billing-downgrade.service.ts:302-354 | search and locked part together: the row found is settled, or there is none to settle and nothing changes |
| `DowngradeSafety.NextIsSafe` | backend/src/modules/billing/billing-downgrade.service.ts:133-356 | every event keeps the invariant: request, withdraw, each step of a job, crash, webhook, renewal, operator refund |
| `DowngradeSafety.RefundOnlyAfterCancel` | backend/src/modules/billing/billing-downgrade.service.ts:235-297 | in every reachable state refunds were made, are about to be sent, or are queued without a request only for ended subscriptions |
| `DowngradeSafety.OnePlanReachesTheProvider` | backend/src/modules/billing/billing-downgrade.service.ts:546-573 | over every run the rows of at most one plan per subscription reach the provider, within what that plan found refundable on each invoice |
| `DowngradePlans.PlannedPaymentsAreDistinct` | backend/src/modules/billing/billing-downgrade.service.ts:594-613 | merging the provider's payments into ours lists no invoice twice |
| `DowngradePlans.PlanListsWhatIsRefundable` | backend/src/modules/billing/billing-downgrade.service.ts:583-623 | a plan lists exactly the charges since the subscription began that lie in the refund window, and the provider's payments in it that none of these records, each with its live refunds |
| `DowngradePlans.LiveRefundOfOne` | backend/src/modules/billing/live-refunds.util.ts:34-58 | a row counts against its invoice with its amount while it is queued, initiated or approved |
| `DowngradePlans.LiveRefundsAddUp` | backend/src/modules/billing/live-refunds.util.ts:50-58 | the rows of two lists together count what they count apart |
| `DowngradePlans.RefundsStayWithinThePayment` | backend/src/modules/billing/billing-downgrade.service.ts:546-624 | over every run all cancel refunds sent on a payment together total at most its amount less the refunds counted on it at planning, where an invoice belongs to one subscription |
| `DowngradeSafety.SortedNewestFirst` | backend/src/modules/billing/billing-downgrade.service.ts:613 | the payments are a reordering, newest first |
| `DowngradeSafety.RefundableIsAmountLessRefunds` | backend/src/modules/billing/billing-downgrade.service.ts:615-623 | what an invoice can give back is its amount less the counted refunds, never negative |
| `DowngradeSafety.MissingCustomerSkipsTheCancel` | backend/src/modules/billing/billing-downgrade.service.ts:242-252 | without its customer a due request with queued rows is dropped and leaves them queued without a cancel |
| `DowngradePeriods.CancelIsOfTheAnsweredPeriod` | backend/src/modules/billing/billing-downgrade.service.ts:546-573 | over every run, at the cancel of a run that the provider answered last with a period every row it takes there, and so every queued row, is of that period |
| `DowngradePeriods.QueueStaysExactlyForItsPeriod` | backend/src/modules/billing/billing-downgrade.service.ts:554-572 | over every run with rows queued: the answer leaves the queue and all rows as they are if and only if the queue is of its period, else the run begins to fail every queued row |
| `DowngradeRuns.EarlyRunChangesNothing` | backend/src/modules/billing/billing-downgrade.service.ts:232-241 | a run before the request is 48 hours old changes nothing, whatever is queued |
| `DowngradeRuns.NoCustomerDrops` | backend/src/modules/billing/billing-downgrade.service.ts:242-252 | a due request without a billing customer is dropped, and nothing else changes |
| `DowngradeRuns.FreshRunPlans` | backend/src/modules/billing/billing-downgrade.service.ts:255-265 | a due request with no rows queued begins to plan: at the team's count for its own subscription, at the drop for another |
| `DowngradeRuns.QueuedRunAsksForThePeriod` | backend/src/modules/billing/billing-downgrade.service.ts:255-265 | with rows queued it asks the provider for the period they are of |
| `DowngradeRuns.RunWithoutRequestSends` | backend/src/modules/billing/billing-downgrade.service.ts:235-241 | without a request a run sends the whole queue, and plans and cancels nothing |
| `DowngradeRuns.ChangedSubscriptionDrops` | backend/src/modules/billing/billing-downgrade.service.ts:384-397 | a request whose subscription is not the company's any more is dropped, and nothing else changes |
| `DowngradeRuns.GrownTeamDrops` | backend/src/modules/billing/billing-downgrade.service.ts:398-409 | with two active users or more the request is dropped, and nothing else changes |
| `DowngradeRuns.EndedSubscriptionDrops` | backend/src/modules/billing/billing-downgrade.service.ts:410-422 | where the provider has ended the subscription the request is dropped, and nothing else changes |
| `DowngradeRuns.PeriodIs` | backend/src/modules/billing/billing-downgrade.service.ts:490-531 | paid when a charge or a settlement of the period is recorded, else unpaid when a failed payment is or the company is past due, else asked of the provider once 54 hours have passed |
| `DowngradeRuns.UnknownPeriodWaits` | backend/src/modules/billing/billing-downgrade.service.ts:515-531 | without a row that tells, a run before then changes nothing |
| `DowngradeRuns.KnownReadsPayments` | backend/src/modules/billing/billing-downgrade.service.ts:423-438 | the run goes on with the period paid or not as our rows say, or as the provider does where nothing failed; the provider's payments count only where its word decided |
| `DowngradeRuns.PlannedRunComesToTheCancel` | backend/src/modules/billing/billing-downgrade.service.ts:398-486 | the run of a sole user comes to the cancel with new rows behind the old ones, all of the new plan, asking in total for exactly the refund computed from the period, the moment and the payments found |
| `DowngradeRuns.RenewedRunPlansAnew` | backend/src/modules/billing/billing-downgrade.service.ts:554-572 | where the oldest queued row is of another period than the provider answers, every queued row is failed, no other row changes, and planning begins anew |
| `DowngradeRuns.CancelledRunSends` | backend/src/modules/billing/billing-downgrade.service.ts:274-297 | after the cancel the subscription has ended and the request is cleared before any row goes out; rows, history and plans are as before |
| `DowngradeRuns.FailedCancelIsTriedAgain` | backend/src/modules/billing/billing-downgrade.service.ts:275-287 | up to the fourth failed cancel an attempt is counted, and request, rows and history stay |
| `DowngradeRuns.FifthFailureMayHaveCancelled` | backend/src/modules/billing/billing-downgrade.service.ts:646-677 | at the fifth the run goes on to send where the provider has ended the subscription |
| `DowngradeRuns.FifthFailureReleases` | backend/src/modules/billing/billing-downgrade.service.ts:646-668 | otherwise the rows it works on are failed with five attempts, no other row changes, and the request is dropped |
| `DowngradeRuns.FailedPlanningIsTriedAgain` | backend/src/modules/billing/billing-downgrade.service.ts:270-273 | wherever planning fails, up to the fourth time an attempt is counted and nothing else changes |
| `DowngradeRuns.FailedPlanningReleases` | backend/src/modules/billing/billing-downgrade.service.ts:627-668 | the fifth time the rows it works on are failed and the request is dropped |
| `DowngradeRuns.QueueIsOldestFirst` | backend/src/modules/billing/billing-downgrade.service.ts:835-843 | the queue is sent from the oldest row on |
| `DowngradeRuns.QueueIsSent` | backend/src/modules/billing/billing-downgrade.service.ts:679-753 | a sending run goes through the whole queue whatever fails: each row takes the state and the id of its answer or counts an attempt, the fifth being the last; each refund made gets one row in the history, in the state answered; nothing else changes |
| `DowngradeRuns.UpdateSettlesTheRow` | backend/src/modules/billing/billing-downgrade.service.ts:302-354 | an update settles the row exactly when the row's status allows it: row and customer's history take the state, and nothing else changes |
| `DowngradeLedger.LedgerAgreesExactlyWhenWritesMatch` | backend/src/modules/billing/billing-downgrade.service.ts:679-724 | over every run, in each state every cancel row with a refund has its one history row in its own status if and only if each status write of a sent row wrote what that history row showed |
| `DowngradeLedger.LedgerAgreesInEveryRun` | backend/src/modules/billing/billing-downgrade.service.ts:679-724 | while refunds are answered as the history row that is there reads, this holds in every reachable state, and no refund row is an orphan |
| `DowngradeLedger.RepeatedAnswersAgree` | backend/src/modules/billing/billing-downgrade.service.ts:679-724 | so it does while repeated refunds repeat their first answer |
| `DowngradeLedger.SendingAgreesExactlyWhenAnswersMatch` | backend/src/modules/billing/billing-downgrade.service.ts:689-711 | sending a row after a crash ends in agreement if and only if the answer reads as the history row left behind |
| `DowngradeLedger.StrandedHistoryIsReachable` | backend/src/modules/billing/billing-downgrade.service.ts:695-711 | a run whose remedy is approved while its history row stays pending and no update repairs it |
| `DowngradeLedger.ApprovalDoesNotRepair` | backend/src/modules/billing/billing-downgrade.service.ts:86-90 | an approval of an approved remedy changes nothing, its history row included |
| `DowngradeLedger.RepeatedUpdateChangesNothing` | backend/src/modules/billing/billing-downgrade.service.ts:302-356 | a repeated update changes nothing |
| `DowngradeLedger.ApprovedAndReversedCommute` | backend/src/modules/billing/billing-downgrade.service.ts:86-90 | approved and reversed give the same rows in either order if and only if the row had not failed; from queued and initiated both end reversed |
| `DowngradeLedger.HistoryAfterApprovedAndReversed` | backend/src/modules/billing/billing-downgrade.service.ts:335-353 | the history shows the same status in either order if and only if the row had not failed, and is equal to the last field if and only if, besides, no first row was written at two different times |
| `DowngradeLedger.ApprovedAndReversedCanDiffer` | backend/src/modules/billing/billing-downgrade.service.ts:86-90 | two runs alike but for the order of approved and reversed, after a refund made at the provider whose row was given up: one ends rejected in the history, the other approved |
| `DowngradeLedger.FoundRowKeepsItsRefund` | backend/src/modules/billing/billing-downgrade.service.ts:302-333 | over every run, whatever comes between the search and the lock, the row found keeps its cause and amount and never names another refund |
| `DowngradeProgress.StepAdvances` | backend/src/modules/billing/billing-downgrade.service.ts:223-300 | every step of a job brings its end nearer, so every run ends |
| `DowngradeProgress.CompleteIsSafe` | backend/src/modules/billing/billing-downgrade.service.ts:223-300 | a run carried to its end with honest answers keeps the invariant |
| `DowngradeProgress.LateRunSpends` | backend/src/modules/billing/billing-downgrade.service.ts:232-288 | a run that begins 54 hours or more after the pending request clears it or raises its attempts by one, to less than five, whatever it meets |
| `DowngradeProgress.FourLateRunsAtMost` | backend/src/modules/billing/billing-downgrade.service.ts:635-668 | in every reachable state a pending request has seen at most four such runs |
| `DowngradeProgress.SendingRunCounts` | backend/src/modules/billing/billing-downgrade.service.ts:235-241 | a run without a pending request counts as one sending run, whatever it meets |
| `DowngradeProgress.FiveSendingRunsEmptyTheQueue` | backend/src/modules/billing/billing-downgrade.service.ts:740-753 | after five of them no row is queued, and a new request is accepted |
| `MessageLinks.TrimTrailing` | frontend/app/utils/message-links.js:22-41 | the one pass with running counts gives the longest prefix that ends neither in a trailing mark nor in a closing bracket it did not open, counted afresh |
| `MessageLinks.LongestCleanPrefixIsTrim` | frontend/app/utils/message-links.js:20-41 | only one prefix is clean and has no longer clean one |
| `MessageLinks.TrimIsIdempotent` | frontend/app/utils/message-links.js:22-41 | trimming again changes nothing |
| `MessageLinks.MarksByCharacter` | frontend/app/utils/message-links.js:5-18 | the trailing marks by their characters |
| `MessageLinks.TrimmedEnd` | frontend/app/utils/message-links.js:29-39 | what is left ends in no mark, and in a closing bracket only where it has no more of these than opening ones |
| `MessageLinks.TrimmedOff` | frontend/app/utils/message-links.js:29-39 | whatever is trimmed off is a mark, or a closing bracket that the text up to it did not open |
| `MessageLinks.LinksAreTheSafeMatches` | frontend/app/utils/message-links.js:57-75 | a link stands exactly where a match stands whose trimmed text is a safe URL, with that text and URL |
| `MessageLinks.LinksGoRight` | frontend/app/utils/message-links.js:57-75 | the links stand from left to right, none over another |
| `MessageLinks.SplitMessageLinks` | frontend/app/utils/message-links.js:53-78 | the parts concatenate to the text, the links are exactly the safe trimmed matches, in place, and no two parts of plain text stand together |
| `MessageFormat.EmphasisEnd` | frontend/app/utils/message-format.js:78-95 | finds the nearest closer on the line, and looks at no more characters than lie before it; `SearchIsExact` says by positions of the text which one that is |
| `MessageRules.SearchIsExact` | frontend/app/utils/message-format.js:78-95 | by positions of the text: the search finds the shortest stretch of one line between two unlinked markers that hug it and stand at word edges, or there is none before the end |
| `MessageRules.MarkersByCode` | frontend/app/utils/message-format.js:3 | the four markers by their characters |
| `MessageRules.SkippedOpensNothing` | frontend/app/utils/message-format.js:103-129 | no marker and no fence that the parser passes over has anything to close it |
| `MessageFormat.PushPlain` | frontend/app/utils/message-format.js:46-62 | appends the plain stretch with its links |
| `MessageFormat.FailedSearchCarries` | frontend/app/utils/message-format.js:99-125 | after a failed search every later opener of that marker before its end fails too |
| `MessageFormat.FailedFenceCarries` | frontend/app/utils/message-format.js:69-75 | after a failed fence every later fence of the range fails too |
| `MessageFormat.OpenerIsNew` | frontend/app/utils/message-format.js:78-95 | where an active marker has no closer left, no opener of it can succeed, and the same holds inside the node |
| `MessageFormat.StepOnce` | frontend/app/utils/message-format.js:103-131 | one turn with the memo takes the step of the parser without it, and its searches never read what is remembered |
| `MessageFormat.FindFence` | frontend/app/utils/message-format.js:69-75 | the search for a closing fence, with the number of positions that it looks at |
| `MessageFormat.FenceWorkIsLinear` | frontend/app/utils/message-format.js:69-75 | one search from each fence of a text looks at no more than four positions per character all together |
| `MessageFormat.ParseRange` | frontend/app/utils/message-format.js:97-141 | gives exactly the tree of the parser that searches at every opener, while all its searches, for emphasis and for fences, look at a linear number of characters; `OnlyOneTree` and `ParseIsTheOnlyTree` say by positions of the text which tree that is |
| `MessageTheorems.ParseCovers` | frontend/app/utils/message-format.js:97-141 | the nodes cover the range from end to end, each obeying the rules of its kind: text without links that opens nothing, whole links, the shortest emphasis or code, the nearest fence |
| `MessageRules.OnlyOneTree` | frontend/app/utils/message-format.js:97-141 | these rules, which speak of positions of the text alone, leave a range only one tree |
| `MessageTheorems.ParseIsTheOnlyTree` | frontend/app/utils/message-format.js:97-147 | so the parsed tree is the only one that obeys them |
| `MessageTheorems.CoversPrints` | frontend/app/utils/message-format.js:64-67 | such a tree prints back to the text, but for one newline at each inner fence edge |
| `MessageTheorems.CoversKeeps` | frontend/app/utils/message-format.js:25-44 | no link is cut: each lies whole inside one link, code or fence node |
| `MessageTheorems.ParseNestsNoMarkerInItself` | frontend/app/utils/message-format.js:90-92 | no emphasis stands inside itself at any depth |
| `MessageTheorems.DepthIsBounded` | frontend/app/utils/message-format.js:131-135 | so emphasis nests at most three deep |
| `MessageTheorems.IndexLinks` | frontend/app/utils/message-format.js:26-39 | the index leads every character of a link to that link and every other character to none |
| `MessageTheorems.ParseMessageText` | frontend/app/utils/message-format.js:144-147 | for every text: the one tree that obeys the rules, printing back to the text, every link whole, no marker inside itself, depth at most three, and at most 20 characters looked at by searches per character of the text |
| `UnreadCounts.UnreadMap.BeginUnreadSeed` | frontend/app/services/whatsapp.js:127-129 | a ticket carries the next number and the writes so far |
| `UnreadCounts.UnreadMap.SeedUnread` | frontend/app/services/whatsapp.js:132-152 | an older ticket changes nothing; else the list replaces the map but for the chats pushed since |
| `UnreadCounts.ListShowsLastRows` | frontend/app/services/whatsapp.js:136-143 | a list counts a chat as its last row for it does: the count, or nothing unread where it is missing, the last read message and the name |
| `UnreadCounts.UnreadMap.ApplyUnread` | frontend/app/services/whatsapp.js:252-262 | a push sets its chat and keeps its name |
| `UnreadCounts.UnreadMap.ClearUserState` | frontend/app/services/whatsapp.js:400-403 | the map is empty and every ticket so far outdated |
| `UnreadCounts.UnreadIsNewest` | frontend/app/services/whatsapp.js:127-152 | for any arrival order each chat shows the newest count and last read message of all that arrived, a list standing for the time of its ticket and a push for its arrival |
| `UnreadCounts.NameIsFromTheLastListInTime` | frontend/app/services/whatsapp.js:127-152 | for any arrival order each chat shows the name of the last list that was newer than all that had arrived for it before |
| `UnreadCounts.ClearedUserStaysCleared` | frontend/app/services/whatsapp.js:247-250 | no list requested before a clear ever lands |
| `ReadMarkers.ReadMarkerQueue.MarkRead` | frontend/app/services/whatsapp.js:279-284 | a marker already sent is skipped; else it is pending, and goes out unless the throttle runs |
| `ReadMarkers.ReadMarkerQueue.FlushRead` | frontend/app/services/whatsapp.js:286-316 | only while connected, at most once per marker, and then the throttle runs |
| `ReadMarkers.ReadMarkerQueue.OnAck` | frontend/app/services/whatsapp.js:295-305 | an answer ends the wait for its own marker; a refusal lets it be sent again |
| `ReadMarkers.ReadMarkerQueue.RequeueUnackedRead` | frontend/app/services/whatsapp.js:319-329 | unanswered markers wait again, behind newer ones |
| `ReadMarkers.ReadMarkerQueue.OnReady` | frontend/app/services/whatsapp.js:467-471 | every pending marker without a timer is flushed |
| `ReadMarkers.ReadMarkerQueue.StopSocket` | frontend/app/services/whatsapp.js:389-398 | everything that waited is dropped |
| `ReadMarkers.LastMarkerIsKept` | frontend/app/services/whatsapp.js:279-329 | over every run, in whatever order: the last marker of a chat that was not skipped since the last stop is pending, awaits its answer, is confirmed, or was refused since |
| `ReadMarkers.MarkersAreLostExactlyWhenDisplaced` | frontend/app/services/whatsapp.js:279-329 | over every run, in whatever order: a marker asked for since the last stop is pending, awaits its answer, is confirmed or refused if and only if no other marker displaced it without its being asked for or answered later |
| `ReadMarkers.KeptUnlessDisplaced` | frontend/app/services/whatsapp.js:279-329 | one event and one kept marker: it stays kept if and only if it is confirmed or the event does not displace it, a condition on the queue before the event |
| `ReadMarkers.LostInTheEventThatDisplaces` | frontend/app/services/whatsapp.js:279-329 | a marker becomes lost in the very event that displaces it |
| `ReadMarkers.NewestMarkerIsKept` | frontend/app/services/whatsapp.js:279-329 | asked for in increasing order, the newest marker asked for is never lost |
| `ReadMarkers.OneEmitPerWindow` | frontend/app/services/whatsapp.js:309-315 | two emits of a chat without a stop between them are a throttle window apart |
| `ReadMarkers.TimersEndWithTheWindow` | frontend/app/services/whatsapp.js:309-315 | over every run a throttle timer ends one second after an emit of its chat since the last stop, so that none holds a marker back for longer |
| `ReadMarkers.SentMarkerIsNotSentAgain` | frontend/app/services/whatsapp.js:279-305 | over every run a marker that was sent, and since neither refused nor overtaken nor cut off from its answer, is not sent again, however often it is asked for |
| `ReadMarkers.PendingMarkersAreTimed` | frontend/app/services/whatsapp.js:467-471 | from a ready handled while connected to the end of the connection every pending marker has a timer, and goes out when it fires |
| `ReadMarkers.RefusedMarkerIsSentAgain` | frontend/app/services/whatsapp.js:299-305 | after a refusal the same marker waits or goes out again |
| `ReadMarkers.OlderMarkerReplacesNewer` | frontend/app/services/whatsapp.js:282-283 | a run in which an older marker displaces the newest one while it waits |
| `ReadMarkers.SkippedMarkerIsOverwritten` | frontend/app/services/whatsapp.js:281-291 | a run in which the marker asked for last is skipped as sent and overwritten before its answer |
| `ReadMarkers.ReconnectDropsTheAwaited` | frontend/app/services/whatsapp.js:319-329 | a run in which a new connection drops the newest marker for an older one that waits |
| `Resync.Resynchroniser.Resync` | frontend/app/services/whatsapp.js:482-489 | a call starts a fetch or marks one as owed |
| `Resync.Resynchroniser.SeedChats` | frontend/app/services/whatsapp.js:155-159 | chats older than the list on show are dropped, others are taken over |
| `Resync.Resynchroniser.OnChats` | frontend/app/services/whatsapp.js:491-506 | an answer of this generation seeds the chats unless a newer list is on show, frees the place and starts the owed fetch |
| `Resync.Resynchroniser.CloseSocket` | frontend/app/services/whatsapp.js:371-380 | a close begins a generation with nothing under way or owed |
| `Resync.EveryCallIsFollowed` | frontend/app/services/whatsapp.js:482-507 | over every run each call since the last close has a fetch that started at or after it, or one is owed while a fetch is under way |
| `Resync.OwedFetchStarts` | frontend/app/services/whatsapp.js:498-505 | the owed fetch starts with the answer of the one under way, success or failure |
| `Resync.OneFetchPerGeneration` | frontend/app/services/whatsapp.js:483-489 | at most one fetch of a generation is under way |
| `Resync.StaleAnswerChangesNothing` | frontend/app/services/whatsapp.js:492-499 | an answer of an older generation seeds, frees, owes and starts nothing |
| `Resync.ChatsComeFromTheirGeneration` | frontend/app/services/whatsapp.js:487-495 | chats are only taken over in the generation that asked for them |
| `Resync.NewerChatsStay` | frontend/app/services/whatsapp.js:127-159 | over every run no list taken over, by a fetch or by any other load, is older than one taken over before it |
| `Resync.ListsAreDroppedExactlyWhenOutdated` | frontend/app/services/whatsapp.js:127-159 | over every run a list is taken over if and only if no newer one was before it and the user's state was not cleared since its ticket was given out; nothing else is ever taken over |
| `Resync.FetchesNeverOutnumberCalls` | frontend/app/services/whatsapp.js:482-507 | over every run no more fetches started or are owed since the last close than were called for |
| `Resync.ClosingListenerCutsOff` | frontend/app/services/whatsapp.js:491-506 | when a listener of the new chats closes the socket the owed fetch never starts and nothing is under way |
| `ThreadWindow.Threads.BeginWindow` | frontend/app/controllers/whatsapp.js:454-469 | the window on show stays while a new one loads, and nothing is parked yet |
| `ThreadWindow.Threads.OnWindow` | frontend/app/controllers/whatsapp.js:475-497 | the answer to the current request becomes the window, with the parked messages when it reaches the newest; `OlderMessagesCanBeLoaded` and `WindowStandsInOrder` say what it then shows |
| `ThreadWindow.Threads.OnWindowFailed` | frontend/app/controllers/whatsapp.js:498-513 | a failure keeps the window that held messages, and drops one that did not |
| `ThreadWindow.Threads.KeepWindow` | frontend/app/controllers/whatsapp.js:515-529 | the window comes back as it was, with the parked messages when it reached the newest |
| `ThreadWindow.Threads.BeginEdge` | frontend/app/controllers/whatsapp.js:532-544 | an edge page is asked for only on a settled window with more on that side |
| `ThreadWindow.Threads.OnOlder` | frontend/app/controllers/whatsapp.js:561-568 | older rows that are not held yet go in front |
| `ThreadWindow.Threads.OnNewer` | frontend/app/controllers/whatsapp.js:569-583 | newer rows go behind, and the parked messages when they reach the newest |
| `ThreadWindow.Threads.WithPendingLive` | frontend/app/controllers/whatsapp.js:599-610 | the parked messages that are not held go behind, and none stays parked |
| `ThreadWindow.Threads.IngestMessage` | frontend/app/controllers/whatsapp.js:828-861 | a new message is parked during a window or newer load, left to the next page when there is more, else appended |
| `ThreadWindow.Threads.OpenChat` | frontend/app/controllers/whatsapp.js:970-981 | the previous chat's window goes, and nothing stays parked |
| `ThreadWindow.Threads.ReloadWindow` | frontend/app/controllers/whatsapp.js:634-641 | a load under way owes the reload; else it starts when there is a window |
| `ThreadWindow.Threads.PayOwedReload` | frontend/app/controllers/whatsapp.js:656-661 | an owed reload is paid once no window load is under way, and loads where there is a window |
| `ThreadTheorems.NoLiveMessageIsLost` | frontend/app/controllers/whatsapp.js:454-610 | over every interleaving of pushes, loads, failures, reopens and stale answers, a settled window at the newest has lost exactly the messages that a reopen dropped; of the others every one stored and delivered since it was asked for is in it, and one stored earlier is in it, or older than all of it with more to load above |
| `ThreadTheorems.OlderMessagesCanBeLoaded` | frontend/app/controllers/whatsapp.js:475-535 | over every run the window has more to load above it if and only if it does not begin with the chat's first message, and then a settled window may load it |
| `ThreadTheorems.OlderAnswerMovesTheEdge` | frontend/app/controllers/whatsapp.js:553-568 | an answer of older messages moves the upper edge up and brings every one that shows between |
| `ThreadStates.LoadsEnd` | frontend/app/controllers/whatsapp.js:454-597 | over every run a thread that shows a load waits for a request of that kind under way: no load hangs |
| `ThreadStates.AwaitedLoadEnds` | frontend/app/controllers/whatsapp.js:475-597 | the end of that request, whatever it is, ends the load, or leaves no thread if and only if there was nothing to keep |
| `ThreadStates.OnlyTheAwaitedCounts` | frontend/app/controllers/whatsapp.js:449-451 | the end of any other request changes nothing |
| `ThreadStates.FailuresOnShow` | frontend/app/controllers/whatsapp.js:454-597 | which failures a thread shows after any event: an edge failure until that edge or the window loads, a window failure until a window is shown; a failed window load restores what it found |
| `ThreadStates.EdgesLoadExactlyWhenThereIsMore` | frontend/app/controllers/whatsapp.js:532-547 | over every run older messages are asked for if and only if the window does not begin with the chat's first one, newer ones if and only if there are more, and nothing while anything loads |
| `ThreadStates.WindowStandsInOrder` | frontend/app/controllers/whatsapp.js:475-497 | a window shows its rows in the chat's order and behind them what came while it loaded, in the order it came |
| `ThreadStates.OlderGoInFront` | frontend/app/controllers/whatsapp.js:561-568 | older rows go in front in the chat's order, and nothing else moves |
| `ThreadStates.NewerGoBehind` | frontend/app/controllers/whatsapp.js:569-583 | newer rows go behind in the chat's order, and behind them the parked messages at the newest |
| `ThreadStates.KeptWindowStandsInOrder` | frontend/app/controllers/whatsapp.js:515-529 | a window whose load failed keeps its messages and ends, and takes the parked messages at the newest |
| `ThreadStates.PushedGoesBehind` | frontend/app/controllers/whatsapp.js:828-861 | a pushed message goes behind the others, in the window or among the parked ones, never both |
| `ThreadStates.ReloadIsOwedToTheOpenChat` | frontend/app/controllers/whatsapp.js:634-661 | over every run a reload is only ever owed to the chat that is open |
| `ThreadStates.OwedUntilPaid` | frontend/app/controllers/whatsapp.js:634-661 | a reload is owed after an event if and only if it came during a window load, or was owed and is neither paid, nor given up with a load that fails for good, nor the chat left |
| `ThreadStates.PaidReloadStarts` | frontend/app/controllers/whatsapp.js:656-661 | paid, it loads the window again unless there is nothing to reload |
| `ThreadTheorems.GuardedReopensLoseNothing` | frontend/app/controllers/whatsapp.js:634-641 | when no chat is reopened while its window loads, nothing is lost |
| `ThreadTheorems.SuccessfulReopensLoseNothing` | frontend/app/controllers/whatsapp.js:475-497 | when no window load fails after a reopen dropped something, nothing is lost |
| `ThreadTheorems.FailedReopenLosesTheParked` | frontend/app/controllers/whatsapp.js:970-1018 | reopening the open chat with a load that fails loses nothing if and only if no message that the window needs is parked or was dropped before |
| `ThreadTheorems.RestoreCanLoseAMessage` | frontend/app/controllers/whatsapp.js:392-395 | a run in which the restore of the saved chat loses a message |
| `ThreadTheorems.DeliveredCanBeOlderThanTheWindow` | frontend/app/controllers/whatsapp.js:828-861 | a run in which a message pushed while a window is on show is older than all of it |
| `MessageCopies.MergeExisting` | frontend/app/controllers/whatsapp.js:769-793 | field by field a copy takes over, but for an older text; a new id starts the delivery over; null when nothing changes |
| `MessageCopies.EachFieldMerged` | frontend/app/controllers/whatsapp.js:769-793 | what becomes of each field: a retry starts status, time and error code over, else the copy wins where it has the field, but for the text of an older edit |
| `MessageCopies.SafeExactlyWithoutLateEdits` | frontend/app/controllers/whatsapp.js:772-775 | over every run of copies the row stays so that no copy can put an older text back if and only if no copy of an edit from before the text on show is merged |
| `MessageCopies.OldTextCanComeBackExactlyWhenExposed` | frontend/app/controllers/whatsapp.js:772-775 | some copy would put an older text back if and only if the row's edit time is earlier than its text |
| `MessageCopies.TextNeverGoesBack` | frontend/app/controllers/whatsapp.js:772-775 | while no late edit is merged the text is never replaced by that of an earlier edit |
| `MessageCopies.SecondLateEditPutsItsTextBack` | frontend/app/controllers/whatsapp.js:772-781 | a late edit leaves the text on show, and the same copy once more replaces it |
| `MessageCopies.MergingTwiceIsMergingOnce` | frontend/app/controllers/whatsapp.js:769-793 | a copy that comes twice counts once if and only if it is not an older edit with another text |
| `MessageCopies.OlderEditTwice` | frontend/app/controllers/whatsapp.js:772-781 | a run that shows the text of 200, then twice that copy of 100, and shows the text of 100 |
| `Attachments.WaAttachments.SendAll` | frontend/app/services/wa-attachments.js:79-100 | every sendable file leaves the tray, previews get URLs of their own, and the chat has a run |
| `Attachments.WaAttachments.RetryPending` | frontend/app/services/wa-attachments.js:103-112 | a failed item is uploading again, and the chat has a run |
| `Attachments.WaAttachments.RemovePending` | frontend/app/services/wa-attachments.js:115-119 | only a failed item is dropped |
| `Attachments.WaAttachments.Reset` | frontend/app/services/wa-attachments.js:122-132 | a new generation with nothing pending, every URL still held revoked |
| `Attachments.WaAttachments.Run` | frontend/app/services/wa-attachments.js:134-142 | a chat has one run at a time |
| `Attachments.WaAttachments.Drain` | frontend/app/services/wa-attachments.js:144-154 | the next uploading item, or the end; a run unregisters nothing but itself |
| `Attachments.WaAttachments.OnUpload` | frontend/app/services/wa-attachments.js:170-185 | a live item fails or is dropped with its preview handed to the row, then the run goes on; `ListAfterIs` and `FailedUploadStays` say what becomes of the item |
| `Attachments.WaAttachments.DropPending` | frontend/app/services/wa-attachments.js:212-226 | the item goes, and its preview is revoked or becomes the row's placeholder |
| `Attachments.WaAttachments.ReleasePlaceholder` | frontend/app/services/wa-attachments.js:37-42 | a placeholder is revoked once |
| `AttachmentTheorems.PreviewsAreConserved` | frontend/app/services/wa-attachments.js:37-226 | in every reachable state each preview URL is in exactly one of a pending item, a placeholder and the revoked, once, and none is revoked twice |
| `AttachmentItems.ListAfterIs` | frontend/app/services/wa-attachments.js:79-226 | after any event a chat's list is that of the items that stay, in their order and each with what the event does to it, and behind them the files just sent; which items leave and what the others become is said of each event by itself |
| `AttachmentItems.ItemStaysUntilTakenAway` | frontend/app/services/wa-attachments.js:79-185 | over every run an item stays in its chat's list, with its preview, until its own upload is sent, it is removed after it failed, or a reset |
| `AttachmentItems.FailedUploadStays` | frontend/app/services/wa-attachments.js:170-179 | over every run a file whose upload fails is still in its chat's list, as failed |
| `AttachmentItems.RetryUploadsAgain` | frontend/app/services/wa-attachments.js:103-112 | in every reachable state retrying a failed item has it uploading from nothing again, with its preview, in a chat with a run |
| `AttachmentItems.SentFilesJoinTheList` | frontend/app/services/wa-attachments.js:79-98 | a sendable file joins the chat's list in the tray's order, uploading, with a new preview exactly when its kind has one |
| `AttachmentItems.RefusedFilesStay` | frontend/app/services/wa-attachments.js:83 | a refused file stays in the tray, in the tray's order |
| `AttachmentItems.TrayAfterIs` | frontend/app/services/wa-attachments.js:44-76 | a new file is put last under an id of its own, a clear and a reset empty the tray, and nothing else changes it |
| `AttachmentItems.RemovedFileLeavesTheTray` | frontend/app/services/wa-attachments.js:69-71 | removing a file leaves all the others, in their order |
| `AttachmentItems.UploadsBeginInOrder` | frontend/app/services/wa-attachments.js:144-154 | an upload goes on until its own end, and one that begins is of the first item of its chat that is to be uploaded |
| `AttachmentItems.PreviewOfTheSent` | frontend/app/services/wa-attachments.js:212-221 | the row of a sent file shows its preview and gives up the one it showed; without a row the preview is revoked |
| `AttachmentItems.PreviewOfTheRemoved` | frontend/app/services/wa-attachments.js:115-119 | the preview of a removed item is revoked |
| `AttachmentItems.PlaceholdersStay` | frontend/app/services/wa-attachments.js:37-42 | nothing else touches a row's preview but its release and a reset |
| `AttachmentItems.ItemIsInOneChat` | frontend/app/services/wa-attachments.js:187-193 | in every reachable state an id is that of one pending item, in one chat |
| `AttachmentRuns.OneUploadPerChat` | frontend/app/services/wa-attachments.js:134-154 | of one chat and generation at most one upload is under way |
| `AttachmentRuns.WorkHasARun` | frontend/app/services/wa-attachments.js:98-111 | a chat with an uploading item has a registered run that is uploading |
| `AttachmentRuns.AbandonedUploadChangesNothing` | frontend/app/services/wa-attachments.js:122-180 | progress and end of an upload from before a reset change nothing, the newer run's registration included |
| `AttachmentRuns.EveryUploadGetsWorkDone` | frontend/app/services/wa-attachments.js:156-185 | each upload that ends, well or badly, leaves its chat with one uploading item less and the other chats as they were |

## Left out

- Notices, audit writes and logging: best effort, without effect on money or rows.
- SQL and TypeORM: a conditional update is a compare and set on a row, and a query answers with the rows that meet it.
- Several companies, currencies, and the lookup of a remedy's invoice through its history row: one company, one
  currency, and every remedy names its invoice.
- Amounts beyond 2^53 and fractional cents: amounts are whole and exact.
- A write that took effect and still throws: a write that throws has had no effect here.
- The wall clock while refunds are sent: history rows carry the time of the job.
- Regular expressions, Unicode tables and the URL constructor: word characters, spaces, link matches and safe URLs are
  inputs, of which only that a newline is a space and that matches are disjoint and hold no space and no backtick is used.
- ThreadTheorems.NoLiveMessageIsLost: a message pushed before its window was asked for is not among the delivered.
- ThreadWindow.Threads.IngestMessage: a message of the window is its id, so the merge of a later copy into its row is not
  seen there; `MessageCopies` has it for a row by itself. Ids that change when a send is retried and duplicates among
  parked messages are left out: only presence is claimed of a window.
- The second load after a missing anchor starts in the turn of the answer that reports it; nothing comes between.
- Scrolling, reading positions and observers: which load is asked for is an input of the events.
- Socket reopening delays and stored positions: no effect on the states modelled.
- Captions, files, error texts, and the callback for a sent row: no effect on the queue.
- Lead boards, fuzzy matching, permissions and forms: they would only add easy members.
