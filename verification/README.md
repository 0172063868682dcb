# Settlement, ordering and menu: a verified model

A restaurant ordering platform takes orders for many tenants, charges them through a payment gateway,
shows them to the kitchen and reports the sales. This project models the parts of it where several
writers race or where a fast computation stands in for a simple one, and proves what they keep. `dafny
verify dfyconfig.toml` checks everything.

## What is modelled

**Settlement of one order.** Webhook jobs, the PayPay confirm, the 3DS callbacks, the card and
initiation flows, the error handlers with their fallback writes, the kitchen display and the
auto-complete command all write the same payment and order row. `SettlementModels` holds the code as
classes over shared rows; every method is proved equal to a transaction function of `SettlementRows`.
`SettlementFlows` runs the PayPay confirm, the card execution and the 3DS callback from start to end
over the same rows, states what each comes to in rows, and proves each to be a run of the protocol, as
`SettlementInitiations` does for what starts a payment. `SettlementProtocol` lets any number of threads
interleave those transactions: stale reads, clock readings before the lock, gateway replies, event
dispatch and job retries are steps of their own, any transaction may abort, any thread may stop for
ever. A run is any sequence of labels. `SettlementSafety` proves the invariant step by step,
`SettlementTheorems`, `SettlementEvents` and `SettlementCancellations` read the results off it, and
`SettlementWitnesses` contains runs for what does not hold.

**Around it.** `WebhookDelivery` (log key, payment lookup, sequences of deliveries, which failures are
final), `PaymentInitiation`, `Idempotency` (the idempotency-key middleware under concurrent requests),
`CustomerLock` (double-checked locking for gateway customers), `OrderCreation` with `CheckoutRuns`
(retry over random codes, snapshot prices, batch insert, checkouts side by side), `Analytics` and
`Ledger` (sums over a whole platform of settling orders), `Kitchen`.

**Refinements.** `KdsMerge`, `Calendar` with `SalesBuckets`, `Reorder`, `QueryString`,
`MenuAvailability`, `Slug` with `Decimal`: in each, the code as written is proved to be the simple thing
it stands for.

## What turned out false

The code is modelled as it is; where a natural claim fails, a lemma gives the input and another the
exact condition.

- The comment on `markPaymentAndOrderAsFailed` promises that payment and order are reliably brought to
  failure. They agree on all runs if and only if the fallback's payment write fails through the status
  guard only (`AgreementIffFallbackWrites`, `DisagreeingRun`, `MarkedAsFailedAgrees`).
- A captured payment can end Failed (`CapturedYetFailed`): after the capture's transaction the payment
  is Completed if and only if it was before, or still was Processing with its order pending and the
  database did not fail the transaction (`CaptureIsRecordedIff`).
- A completed payment need not be announced (`SilentCompletion`). It is if and only if it was not a
  PayPay confirm's transaction that completed it (`AnnouncedIffNotSilenced`).
- A completed webhook can be lost (`EarlyDeliveryIsLost`): it is refused for good if and only if it
  finds the payment Failed or still Pending (`RefusedForGood`), and repetitions are ignored as
  duplicates (`RepetitionsAreDuplicates`).
- `cancelled_at` may precede `accepted_at` (`CancelledBeforeAccepted`). It cannot if and only if the
  status the cancellation loads is not Paid (`CancellationIsDatedInOrderIff`).
- A kitchen change may announce a status the order has already left (`StaleCancellation`), exactly when
  it is a cancellation from a stale copy (`TruthfulIffCurrent`, `AlwaysTruthfulIff`).
- The clock readings of two executions under one idempotency key may be less than thirty minutes apart
  (`ClockReadingsMayBeClose`), but only if an execution in between gave its record back
  (`ReadingsAreSpaced`); they never are if and only if no execution can do so (`ReadingsSpacedIff`). The
  later record is always created late enough (`ExecutionsAreSpaced`).
- A gateway customer can be created twice. Exactly three faults make that possible: a lapsed lease, an
  insert failing for a reason other than the unique key, and a lost reply (`OneCustomerIff`). The
  comment at app/Services/Fincode/FincodeRequestExecutor.php:124 says that requests are sent again under
  an idempotency key; the creation of a customer has none
  (app/Services/Fincode/FincodeClient.php:241-257).
- Two delta batches can report other new orders than their concatenation
  (`ListedTwiceIsAnnouncedTwice`); `BatchesAnnounceTheSameIff` says when. One poll never lists an order
  twice, so the concatenation is a standard of comparison, not an input that occurs.
- The chart's buckets drop days (`ThursdayStartLosesDays`) exactly from an unaligned start that spans
  more than one bucket (`TilesIffAlignedOrOneBucket`); the dashboard always starts aligned.
- A reorder of an item with the same option twice throws instead of skipping (`DuplicateOptionCrashes`),
  exactly then (`AddedIffAccepted`); orders made from carts have no such item (`CartOrdersNeverCrash`).

## Conventions

A database transaction is one step or one method; a throw inside it puts the stored rows back, while
model objects keep what they hold in memory. Eloquent's `save` writes dirty columns only. Timestamps and
clocks are natural numbers that never decrease. Randomness, clock readings, gateway replies and database
failures are parameters. `hide` statements in proofs only keep definitions out of the solver's sight.

## Model

| member | source | states |
|---|---|---|
| Lifecycle.ReachesIsClosure | app/Enums/OrderStatus.php:24-36 | a status reaches another exactly when a path of permitted order transitions joins them |
| Lifecycle.PathVisitsOnce | app/Enums/OrderStatus.php:24-36 | no path of permitted transitions visits a status twice: an order never returns to a status it left |
| Lifecycle.PaidFamilyPassedPaid | app/Enums/OrderStatus.php:81-90 | an order is in a sales status, Cancelled or Refunded exactly when its path went through Paid |
| Lifecycle.SalesArePaidAndKept | app/Enums/OrderStatus.php:81-90 | an order counts as a sale exactly when its path went through Paid and not through Cancelled |
| Lifecycle.MovesMeaning | app/Enums/OrderStatus.php:24-36 | the order table in words: one step along the line at a time, to Cancelled from whatever is paid and not completed, from there to Refunded, to PaymentFailed from the start only |
| Lifecycle.PaymentMovesMeaning | app/Enums/PaymentStatus.php:19-27 | the payment table in words: whatever is not final can fail, Completed comes from Processing only, Processing from Pending |
| SettlementRows.StaleSave | app/Models/Order.php:134-151 | however old the caller's copy, a transition allowed by the locked row leaves exactly the row that entering the status on the locked row leaves: no column of the stored row is lost, and the old copy stays a predecessor |
| SettlementRows.FullSaveLosesTimestamp | app/Models/Order.php:134-151 | a concrete stale cancellation: the dirty-column save keeps accepted_at, writing the whole copy would lose it |
| SettlementRows.EnterMeaning | app/Models/Order.php:134-191 | entering Paid, Accepted, InProgress, Ready, Completed or Cancelled dates that status and no other; entering any other status dates none |
| SettlementRows.CompleteMeaning | app/Services/Concerns/HandlesFincodePaymentErrors.php:111-119 | on agreeing rows, completing payment and order commits exactly when the payment is Processing and the order PendingPayment, aborts otherwise, and keeps the agreement |
| SettlementRows.FailMeaning | app/Services/Concerns/HandlesFincodePaymentErrors.php:122-130 | failing both commits exactly when the order is PendingPayment, aborts otherwise (a repeated failure aborts on the order although the payment treats it as a no-op), and keeps the agreement |
| SettlementRows.FailBothMeaning | app/Services/Concerns/HandlesFincodePaymentErrors.php:57-66 | the combined failure transaction: fails both when the order is pending, otherwise fails the payment alone unless it is Completed, and then aborts |
| SettlementRows.WebhookCompletedMeaning | app/Services/Webhook/WebhookService.php:118-158 | the completed webhook in all its situations: settles to Paid then Accepted and fires, completes the payment of an order already marked failed, only accepts a Paid order, finds everything done, or aborts |
| SettlementRows.WebhookFailedMeaning | app/Services/Webhook/WebhookService.php:160-193 | the failed webhook always commits; it fails the order exactly when that is pending, the payment unless it is final, and fires exactly when it failed the payment |
| SettlementRows.WebhookRefundedMeaning | app/Services/Webhook/WebhookService.php:195-208 | the refunded webhook moves a Cancelled order to Refunded and touches nothing else |
| SettlementRows.OrderMoveMeaning | app/Services/KdsService.php:45-65 | a kitchen move, or the fallback's order write, through a stale copy behaves as on the locked row and keeps the agreement |
| SettlementRows.PaymentMoveMeaning | app/Models/Payment.php:81-103 | a payment written alone keeps the agreement up to a Failed payment whose order is still pending, and is refused only when the payment is final |
| SettlementModels.Order.TransitionTo | app/Models/Order.php:134-151 | refused exactly when the locked row refuses, and then nothing changes; otherwise the stored row is the dirty-column save of the entered status and the object holds what it entered |
| SettlementModels.Payment.TransitionTo | app/Models/Payment.php:81-103 | the same status is a silent no-op, a forbidden one changes nothing, a permitted one writes the locked row and refreshes the object from it |
| SettlementModels.CompletePaymentWithOrder | app/Services/Concerns/HandlesFincodePaymentErrors.php:111-119 | both rows change as one transaction or neither does, as CompleteMeaning describes or because the database fails, and PaymentCompleted is dispatched once exactly if they did |
| SettlementModels.FailPaymentWithOrder | app/Services/Concerns/HandlesFincodePaymentErrors.php:122-130 | both rows change as one transaction or neither does, as FailMeaning describes or because the database fails, and PaymentFailed is dispatched once exactly if they did |
| SettlementModels.CompleteTogether | app/Services/PayPayPaymentService.php:101-104 | the same transaction without an event, as the PayPay confirm runs it |
| SettlementModels.FailTogether | app/Services/PayPayPaymentService.php:121-124 | the same for the failing one |
| SettlementModels.MarkPaymentAndOrderAsFailed | app/Services/Concerns/HandlesFincodePaymentErrors.php:57-108 | the rows it leaves for every combination of the combined transaction, the payment fallback and the order fallback failing; it dispatches nothing |
| SettlementModels.MarkedAsFailedAgrees | app/Services/Concerns/HandlesFincodePaymentErrors.php:57-108 | without interference the rows agree afterwards if and only if it is not the case that the combined transaction and the payment fallback fail while the order fallback succeeds on a pending order |
| SettlementModels.WebhookService.HandlePaymentCompleted | app/Services/Webhook/WebhookService.php:118-158 | payment, order and log row change together or not at all; the event is dispatched exactly when this transaction completed the payment |
| SettlementModels.WebhookService.AdvanceOrder | app/Services/Webhook/WebhookService.php:136-147 | the order's share: PendingPayment to Paid, then Paid to Accepted, anything else untouched |
| SettlementModels.WebhookService.HandlePaymentFailed | app/Services/Webhook/WebhookService.php:160-193 | neither guard can refuse here: the handler always commits and marks the log, and dispatches exactly when it failed the payment |
| SettlementModels.WebhookService.HandlePaymentRefunded | app/Services/Webhook/WebhookService.php:195-208 | always commits and marks the log; fires nothing |
| SettlementFlows.PayPayPaymentService.Confirm | app/Services/PayPayPaymentService.php:79-136 | rows and events it leaves (no event ever) for every status seen, gateway reply and failing transaction; it answers confirmed exactly for a payment seen Completed or a capture whose transaction goes through, not confirmed exactly for one seen Failed, a pending reply, or a failure whose transaction goes through |
| SettlementFlows.CardPaymentService.ExecuteCardPayment | app/Services/CardPaymentService.php:87-150 | the rows it leaves and the event it dispatches for every status seen, access id, reply and failing transaction: the promotion, the settling one, the three of the error handler; it returns normally exactly when the capture and both transactions go through |
| SettlementFlows.ThreeDsPaymentService.ExecutePaymentAfterAuthentication | app/Services/ThreeDsPaymentService.php:195-243 | the rows the capture step leaves and its event for every reply and failing transaction; it answers authenticated exactly with the completed event, failed exactly with the failed event, and throws otherwise |
| SettlementFlows.ThreeDsPaymentService.Authenticate | app/Services/ThreeDsPaymentService.php:97-193 | the rows and the event the authentication and the result step leave for every reply and every failing write, the save of the gateway columns included, and exactly when each of the four answers is given |
| SettlementFlows.CheckoutOrchestrator.Process3dsCallback | app/Services/Checkout/CheckoutOrchestrator.php:165-197 | the rows and the event a callback leaves for every reply and every failing write, the promotion included; authenticated exactly when the payment is Completed afterwards, failed exactly with the failed event, a challenge exactly when one is asked for |
| SettlementFlows.CallbackMeaning | app/Services/Checkout/CheckoutOrchestrator.php:165-197 | an undisturbed callback on a pending order settles both rows as the gateway said and announces it, waits for a challenge, or fails both silently unless the combined failure transaction fails; when the promotion fails in the database nothing changes, when the save or the settling transaction does the payment stays Processing, the order pending, and nothing is announced |
| SettlementFlows.ConfirmMeaning | app/Services/PayPayPaymentService.php:79-136 | on agreeing rows, through copies however stale: a captured payment is completed and its order paid and dated, one not captured is failed with its order, an error fails what it can, anything else leaves both rows alone |
| SettlementFlows.CardMeaning | app/Services/CardPaymentService.php:87-150 | on agreeing rows: a Pending payment is promoted, then completed with its order when captured, failed with it when not, each with its event; the exact rows for every other case |
| SettlementFlows.MarkedFailedMeaning | app/Services/Concerns/HandlesFincodePaymentErrors.php:57-108 | on agreeing rows the error handler fails a pending order and its payment, each unless its writes fail, otherwise the payment alone unless it is Completed; it announces nothing |
| SettlementFlows.ConfirmIsARun | app/Services/PayPayPaymentService.php:79-136 | whatever the state of the other threads and whichever transactions fail, the confirm run by itself leaves the rows and the outstanding event of some run of a protocol thread in which the gateway has captured exactly if it answered so |
| SettlementFlows.CallbackIsARun | app/Services/Checkout/CheckoutOrchestrator.php:165-197 | the same for the 3DS callback with all its replies and with every failure: promotion, save of the gateway columns, settling transaction, error handler |
| SettlementFlows.CardIsARun | app/Services/CardPaymentService.php:87-150 | the same for the card execution, failures of the promotion and of the settling transaction included |
| SettlementInitiations.PayPayInitiationIsARun | app/Services/PayPayPaymentService.php:30-76 | started alone, a PayPay initiation leaves the gateway columns filled and the payment Processing; an API error fails both rows as far as the writes go |
| SettlementInitiations.CardInitiationIsARun | app/Services/CardPaymentService.php:26-84 | started alone, a card initiation leaves the columns filled and the status as it was; a card of somebody else fails both rows and says so; an API error fails them silently |
| SettlementInitiations.ExecuteIsARun | app/Services/ThreeDsPaymentService.php:25-94 | started alone, the 3DS execution promotes an open payment, leaves a final one alone, and fails both rows when the gateway refuses |
| SettlementSafety.ThreadOkStable | app/Services/PayPayPaymentService.php:79-136 | what a thread knows from a stale read stays true under every committed transaction of any other thread |
| SettlementSafety.KitchenStampLate | app/Services/KdsService.php:45-65 | a clock read before the lock is still not before any timestamp the new one must follow: apart from Cancelled a permitted move means that the copy was fresh |
| SettlementTheorems.LostNeedsFailingWrite | app/Services/Concerns/HandlesFincodePaymentErrors.php:83-95 | a fallback payment write is lost in no run unless such writes can fail by themselves |
| SettlementSafety.ActKeepsInv | app/Services/Concerns/HandlesFincodePaymentErrors.php:57-130 | one thread committing agreeing rows disturbs no other thread's knowledge, no earned event and no timestamp |
| SettlementSafety.StepKeepsInv | app/Services/Checkout/CheckoutOrchestrator.php:102-197 | every step of every writer (webhook job, PayPay confirm, 3DS callbacks, card execution, error handlers with fallbacks, kitchen) keeps the whole invariant |
| SettlementSafety.RunKeepsInv | app/Services/Checkout/CheckoutOrchestrator.php:102-197 | the invariant holds after every run of every interleaving |
| SettlementTheorems.RowsAgree | app/Services/Concerns/HandlesFincodePaymentErrors.php:57-130 | over every interleaving with no fallback payment write lost: payment Completed iff the order is in the paid family, PaymentFailed implies payment Failed, Failed implies PendingPayment or PaymentFailed, active implies PendingPayment, amounts equal, and without a split fallback Failed iff PaymentFailed; with one lost, all of it except that the order may be PaymentFailed whatever its payment |
| SettlementTheorems.AgreementIffFallbackWrites | app/Services/Concerns/HandlesFincodePaymentErrors.php:83-107 | the agreement holds on all runs if and only if the fallback's payment write can fail through the status guard only |
| SettlementTheorems.StrictWithoutAborts | app/Services/Concerns/HandlesFincodePaymentErrors.php:57-130 | on every run in which no transaction is aborted from outside, the full agreement holds at every moment, and payment Failed exactly when the order is PaymentFailed |
| SettlementTheorems.DisagreeingRun | app/Services/Concerns/HandlesFincodePaymentErrors.php:83-107 | the run that breaks it otherwise: order PaymentFailed, payment still Pending |
| SettlementTheorems.SettledForGood | app/Models/Payment.php:81-103 | a Completed or Failed payment keeps its status for ever, whatever fails, including the gateway-column saves through stale objects |
| SettlementTheorems.EventsAtMostOnce | app/Services/Webhook/WebhookService.php:122-191 | over any run, whatever fails, at most one payment event is dispatched in all, and only the one the payment's final status calls for |
| SettlementTheorems.CapturedByAnswer | app/Services/ThreeDsPaymentService.php:217-232 | money is taken on a run only if the gateway has answered captured on it |
| SettlementTheorems.TimestampsFollowPath | app/Models/Order.php:134-191 | over any run, whatever fails, the timestamps set are exactly those of the statuses the order's path passed, ordered along the kitchen line, cancelled_at not before paid_at; paid orders always have paid_at |
| SettlementTheorems.KitchenLineUnbroken | app/Enums/OrderStatus.php:24-36 | each kitchen status on a path directly follows the one before it on the line |
| SettlementEvents.AnnouncedIffNotSilenced | app/Services/PayPayPaymentService.php:99-105 | on every run that ends with a Completed payment and no dispatch outstanding, PaymentCompleted has been dispatched exactly once if and only if no step of the run was a PayPay confirm's transaction finding the payment Processing and the order pending, and not at all if and only if one was |
| SettlementEvents.CompletedIsAnnounced | app/Services/Webhook/WebhookService.php:122-158 | hence on every run in which no PayPay confirm starts, a Completed payment is announced exactly once |
| SettlementEvents.CaptureIsRecordedIff | app/Services/Concerns/HandlesFincodePaymentErrors.php:111-119 | in every reachable state, the transaction of a capture leaves the payment Completed if and only if it was before, or it is Processing with the order pending and the database does not fail the transaction; the order becomes paid under the same condition |
| SettlementCancellations.FreshCancellationIsLatest | app/Services/KdsService.php:45-65 | in every reachable state a cancellation whose loaded status is the stored one is dated at or after every timestamp of the order |
| SettlementCancellations.CancellationIsDatedInOrderIff | app/Services/KdsService.php:45-65 | in every reachable state, a cancellation that loads the order now is dated at or after accepted_at in every continuation in which it commits, if and only if the status it loads is not Paid |
| SettlementWitnesses.CapturedYetFailed | app/Services/ThreeDsPaymentService.php:195-243 | a run in which the gateway answers captured and both rows end failed: a parallel 3DS callback fails the payment before the capture is recorded |
| SettlementWitnesses.CancelledBeforeAccepted | app/Models/Order.php:183-186 | a run that ends with cancelled_at earlier than accepted_at: the clock is read before the lock and Cancelled has several predecessors |
| SettlementWitnesses.SilentCompletion | app/Services/PayPayPaymentService.php:99-105 | a finished run with a Completed payment and no event: the PayPay confirm completes without dispatching and the later webhook has nothing to announce |
| WebhookDelivery.SettledIsAbsorbing | app/Services/Webhook/WebhookService.php:118-208 | once settled by a webhook, no delivery of any kind changes either row |
| WebhookDelivery.VerdictSettles | app/Services/Webhook/WebhookService.php:118-208 | on a Processing payment a completed delivery settles to Accepted, a failed one to PaymentFailed, a refunded one does nothing |
| WebhookDelivery.FirstVerdictDecides | app/Services/Webhook/WebhookService.php:118-208 | any sequence of deliveries, reordered and duplicated at will, leaves exactly the rows that the first completed or failed one alone leaves, timestamps included |
| WebhookDelivery.ExactlyOneNonDuplicate | app/Services/Webhook/WebhookService.php:41-80 | among any number of interleaved requests with one log key, as soon as one is answered there is exactly one owner that is told its delivery is new |
| WebhookDelivery.RepetitionsAreDuplicates | app/Http/Controllers/Webhook/FincodeWebhookController.php:92-108 | once a key has its log row, every later request under it, in every interleaving, is told it is a duplicate and so gets no job |
| WebhookDelivery.DuplicatesHaveAnOriginal | app/Services/Webhook/WebhookService.php:41-80 | a request told that it is a duplicate has a gateway id, and another request under its key has been told that it is new |
| WebhookDelivery.ResolvePaymentFromPayload | app/Services/Webhook/WebhookService.php:233-273 | which payment is found (the first candidate id that hits one of this tenant's payments; its stored id is the text, or reads back as the number, of a candidate), and exactly when the lookup ends as not found or without tenant, with the id the error names |
| WebhookDelivery.ResolutionIsExact | app/Services/Webhook/WebhookService.php:275-298 | two numeric ids that find the same payment are the same number |
| WebhookDelivery.NormalizedNames | app/Services/Webhook/WebhookService.php:287-298 | a non-empty text names itself, an integer the decimal text that reads back as it, anything else nothing |
| WebhookDelivery.RunJob | app/Jobs/ProcessPaymentWebhookJob.php:39-81 | event by event in rows: payment.completed and a PayPay event with CAPTURED end Completed and Accepted with PaymentCompleted; payment.failed and CANCELED, EXPIRED or FAILED end Failed and PaymentFailed with PaymentFailed dispatched; payment.refunded moves only a Cancelled order; everything else is processed without effect; a missing payment is final, a missing tenant or database error retried |
| WebhookDelivery.RefusedForGood | app/Jobs/ProcessPaymentWebhookJob.php:54-71 | a delivery for a known payment is refused for good if and only if it is a completed one that finds the payment Failed or still Pending |
| WebhookDelivery.EarlyDeliveryIsLost | app/Jobs/ProcessPaymentWebhookJob.php:54-71 | a concrete case: a completed delivery on the rows as initiation leaves them is refused for good and changes nothing |
| WebhookDelivery.JobIsARun | app/Jobs/ProcessPaymentWebhookJob.php:28-81 | alone, a job survives up to two database errors and then leaves the rows and the outstanding event of its delivery; after the third it has changed nothing; the job of the protocol does just that |
| PaymentInitiation.PaymentService.Initiate | app/Services/PaymentService.php:29-68 | creates one Pending payment with the order's total and links it, or changes nothing exactly when the order is missing or has a payment that is not final |
| PaymentInitiation.NeverTwoActivePayments | app/Services/PaymentService.php:32-68 | over any run no order has two Pending or Processing payments, and every payment carries its order's total |
| PaymentInitiation.ActiveIsLinked | app/Services/PaymentService.php:56-68 | over any run an active payment is the one its order points to |
| Idempotency.EnsureIdempotencyKey.GetOrCreateRecord | app/Http/Middleware/EnsureIdempotencyKey.php:107-155 | an expired record is dropped, a live one returned, otherwise one is created with its expiry; a failed transaction falls back to what the table holds; other triples untouched |
| Idempotency.EnsureIdempotencyKey.PersistResponse | app/Http/Middleware/EnsureIdempotencyKey.php:157-169 | a 5xx response deletes the request's own record, any other is stored in it; somebody else's record is never touched |
| Idempotency.EnsureIdempotencyKey.Handle | app/Http/Middleware/EnsureIdempotencyKey.php:22-83 | the reply and the table after one undisturbed request, for every header, record, handler result, and a failing transaction: 409 for another hash and for a request still running, the stored response for a finished one |
| Idempotency.StepKeepsInv | app/Http/Middleware/EnsureIdempotencyKey.php:22-169 | every step of every interleaving keeps ownership of the record and the spacing of executions |
| Idempotency.ExecutionsAreSpaced | app/Http/Middleware/EnsureIdempotencyKey.php:48-82 | if an execution returned below 500, or never finished, every later execution under the triple has its record created more than 30 minutes after the clock reading of the first |
| Idempotency.ReadingsAreSpaced | app/Http/Middleware/EnsureIdempotencyKey.php:107-155 | two executions' clock readings are more than 30 minutes apart as long as no execution from the first up to the later one has given its record back |
| Idempotency.ReplayedUntilExpiry | app/Http/Middleware/EnsureIdempotencyKey.php:56-70 | until the record expires every request with the same hash gets the stored status and body and every other 409, also when its own transaction fails |
| Idempotency.AnswersAreFounded | app/Http/Middleware/EnsureIdempotencyKey.php:22-83 | over every run: whoever gets a replay gets status and body of a stored execution of the same hash; a conflict means an execution of another hash, a refusal as running one of the same hash, an own answer the request's own execution |
| Idempotency.ThrownHasACause | app/Http/Middleware/EnsureIdempotencyKey.php:71-80 | no request ends with an exception unless its own handler threw or its own statement failed |
| Idempotency.RunningIsRefused | app/Http/Middleware/EnsureIdempotencyKey.php:56-70 | while a handler runs, every request that finds its record gets 409: as running on the same hash, as a conflict on another; nothing changes |
| Idempotency.FreshRequestRuns | app/Http/Middleware/EnsureIdempotencyKey.php:71-83 | a request that finds no record or an expired one runs its handler and returns its answer, which is stored for thirty minutes if below 500, the record being deleted otherwise |
| Idempotency.ClockReadingsMayBeClose | app/Http/Middleware/EnsureIdempotencyKey.php:107-155 | when one in between has given its record back they need not be: a concrete run of three requests |
| Idempotency.ReadingsSpacedIff | app/Http/Middleware/EnsureIdempotencyKey.php:76-82 | the clock readings of any two executions are more than 30 minutes apart on all runs if and only if no execution gives its record back |
| CustomerLock.CallersAgree | app/Services/FincodeCustomerService.php:33-112 | all callers that succeed return the one stored row, whatever leases lapse |
| CustomerLock.ThrewIffDefeated | app/Services/FincodeCustomerService.php:34-109 | over every run a caller throws exactly if one of its own acts gave up the wait with no row there, was refused by the gateway, was its second unanswered request, or was an insert failing otherwise than on the unique key |
| CustomerLock.NoFaultNoThrow | app/Services/FincodeCustomerService.php:34-109 | a caller whose own acts meet no fault never throws, whatever befalls the others |
| CustomerLock.AsksTwiceAtMost | app/Services/Fincode/FincodeRequestExecutor.php:26-77 | a first unanswered request is repeated, after a second one the caller throws, and nobody asks a third time |
| CustomerLock.ExistingRowIsReturned | app/Services/FincodeCustomerService.php:34-40 | in every reachable state with a row, a caller that starts now returns that row with its first act |
| CustomerLock.AloneReturns | app/Services/FincodeCustomerService.php:34-109 | a caller that meets a free lock and no fault is done in six acts with the stored row, its own if there was none |
| CustomerLock.RowHoldsGivenCustomer | app/Services/FincodeCustomerService.php:60-109 | the stored row always holds a customer the gateway has answered a caller with, and every caller stores the one it was given itself |
| CustomerLock.CreationsAreBounded | app/Services/FincodeCustomerService.php:33-112 | customers existing at the gateway number at most one, plus one per lease lapsed inside the critical section, per insert failing other than on the unique key, and per reply lost after the gateway created one |
| CustomerLock.OneCustomerIff | app/Services/FincodeCustomerService.php:33-112 | at most one customer exists on all runs if and only if leases do not lapse, inserts do not fail and replies do not get lost |
| CustomerLock.RowStopsCreation | app/Services/FincodeCustomerService.php:33-75 | once the row exists it never changes, and over any continuation only callers already about to ask can still create a customer, answered or not |
| CustomerLock.LapseCreatesTwice | app/Services/FincodeCustomerService.php:33-112 | the bound is reached by one lapse |
| CustomerLock.InsertErrorCreatesTwice | app/Services/FincodeCustomerService.php:86-100 | the bound is reached by one failed insert with every lease kept and every reply received |
| CustomerLock.LostReplyCreatesTwice | app/Services/Fincode/FincodeRequestExecutor.php:27-74 | one lost reply does the same: the request is sent again without a key the gateway could recognise it by |
| OrderCreation.RegroupIsExact | app/Services/Checkout/OrderCreationService.php:212-241 | after the flat batch insert, regrouping by order_item_id gives every item its own options, in order, whatever rows the table already holds |
| OrderCreation.SnapshotTotal | app/Services/Checkout/OrderCreationService.php:49-54 | the total computed from the stored rows is the sum of (price + option prices) x quantity, which is the cart's total at the locked prices |
| OrderCreation.LinePrice | app/Models/CartItem.php:72-75 | a single dish costs its price, one more of a line the same again, one more option its price for every piece |
| OrderCreation.OrderCreationService.CreateOrderItems | app/Services/Checkout/OrderCreationService.php:212-254 | appends exactly the item rows and, in one batch, all option rows of the cart |
| CheckoutRuns.NewOrderHoldsCart | app/Services/Checkout/OrderCreationService.php:212-254 | in the tables an attempt leaves, the k-th row of the order is the k-th cart line with the dish's name and price, and its j-th option row is the line's j-th option with that option's own name and price |
| OrderCreation.AttemptFails | app/Services/Checkout/OrderCreationService.php:145-196 | an attempt is refused exactly when an item is gone or not available now, then exactly when an option is gone, then retried exactly when the tenant has that code on that date |
| OrderCreation.OrderCreationService.InsertOrder | app/Services/Checkout/OrderCreationService.php:125-143 | adds one complete order whose total is the cart's |
| OrderCreation.OrderCreationService.TryCreate | app/Services/Checkout/OrderCreationService.php:69-90 | one attempt adds a complete order, or reports a taken code, or throws; in the last two cases every table is as before |
| OrderCreation.OrderCreationService.CreateOrderWithRetry | app/Services/Checkout/OrderCreationService.php:61-111 | at most ten attempts; success uses the first free code drawn, failure leaves all tables alone, and no code is found exactly when the cart is orderable and all ten draws are taken |
| OrderCreation.OrdersStand | app/Services/Checkout/OrderCreationService.php:61-111 | over any run of attempts and menu changes (tenant, date, code) stays unique and every order's total stays what its own rows add up to |
| CheckoutRuns.OneOrderPerCheckout | app/Services/Checkout/OrderCreationService.php:61-111 | over every interleaving of any number of checkouts, attempt by attempt, and of menu changes: every order was made by exactly one checkout and holds that cart whole, line by line and option by option under the names and prices of the menu it was bought at, with its total, tenant, user, date and code; a checkout without an order left none behind and tried at most ten codes, all ten if it found none; codes stay unique and totals stand |
| CheckoutRuns.EndedForGood | app/Services/Checkout/OrderCreationService.php:61-111 | a checkout that has ended stays as it ended in every continuation: no second order, and none after giving up |
| CheckoutRuns.RetryIsARun | app/Services/Checkout/OrderCreationService.php:61-111 | the retry with nobody writing in between, as CreateOrderWithRetry runs it, is one of these runs and comes to what its last attempt comes to |
| OrderCreation.SnapshotIsFrozen | app/Models/OrderItem.php:57-66 | an order created in any run keeps its row and the total of its items through every later run of price changes, removals and orders |
| OrderCreation.CodeStringInjective | app/Services/OrderNumberGenerator.php:37-43 | different codes print differently |
| OrderCreation.CodeReadsBack | app/Services/OrderNumberGenerator.php:37-43 | a code is a capital letter other than I, L and O and three digits that read back as its number |
| OrderCreation.DailyOrdersAreBounded | app/Services/OrderNumberGenerator.php:12-43 | over any run a tenant has at most 23,000 orders on a business date |
| OrderCreation.BusinessDateWindow | app/Services/OrderNumberGenerator.php:22-32 | a business date is exactly the hours from five in the morning to five the next morning |
| Analytics.GroupsAddUp | app/Services/AnalyticsService.php:46-82 | whatever the order of the groups, they add up to the ungrouped sum and count |
| Analytics.SumGroups | app/Services/AnalyticsService.php:58-70 | the loop's totals are those of the groups and its breakdown holds each group and nothing else |
| Analytics.OneSelected | app/Services/AnalyticsService.php:25-45 | an order selected alone counts once with its own total, which with additivity fixes both sums |
| Analytics.DailyAverageRounds | app/Services/AnalyticsService.php:25-45 | the daily average is the total by the count, rounded to the nearest unit with halves up, and zero without orders |
| Analytics.AggregateMonthlySales | app/Services/AnalyticsService.php:46-82 | the month's totals are those of its orders, and its breakdown gives each day what the daily aggregation gives |
| Analytics.DaysSumToRange | app/Services/AnalyticsService.php:25-82 | the daily figures of a range, sales and order counts, sum to the figures of the range |
| Analytics.AggregateHourlyDistribution | app/Services/AnalyticsService.php:133-165 | twenty-four slots, each the figures of its hour, together the sum over the hours |
| Analytics.AtHourMeaning | app/Services/AnalyticsService.php:133-165 | an order is counted in hour h exactly when it is a sale of that tenant and date and its second of payment lies in that hour of the day |
| Analytics.HoursCoverThePaid | app/Services/AnalyticsService.php:133-165 | the sums over the twenty-four hours are the figures of the day's orders with paid_at |
| Analytics.HoursSumToDay | app/Services/AnalyticsService.php:133-165 | the sum over the twenty-four hours is the daily figure, in money and in orders, if and only if the day's sales without paid_at come to nothing |
| Analytics.AggregatePlatformDailySales | app/Services/AnalyticsService.php:170-203 | the platform's totals are those of all tenants' orders, each tenant's share is its own daily figure, and a tenant without a share has none |
| Analytics.Average | app/Services/AnalyticsService.php:25-43 | total divided by count rounded to the nearest unit, halves up, as one inequality that no other number meets; 0 without orders |
| Ledger.EveryOrderIsOk | app/Services/PaymentService.php:32-68 | over any run of the whole platform every order's settlement satisfies the invariant |
| Ledger.LedgerAgrees | app/Services/PaymentService.php:60-62 | in every reachable state completed payments add up to the totals of the orders in a sales status, Cancelled or Refunded, plus what a lost fallback write has stranded: nothing, if such writes fail through the status guard only |
| Ledger.HoursAddUpToDay | app/Services/AnalyticsService.php:133-165 | in every reachable state the 24 hours of a tenant's day add up to its daily figure, in money and in orders, because no sale lacks paid_at |
| Ledger.SalesPlusReturnsAreThePayments | app/Enums/OrderStatus.php:81-90 | in every reachable state the sales figures plus what was cancelled, refunded or stranded are the completed payments |
| KdsMerge.UpsertActiveOrder | resources/js/Hooks/kdsOrderHelpers.ts:72-92 | the map with its found flag and push is: drop an inactive order, replace in place, or append |
| KdsMerge.MergeOrders | resources/js/Hooks/kdsOrderHelpers.ts:43-70 | with distinct ids the merged list is, element order included, the fold of the one-by-one upsert; new orders are exactly the incoming rows neither completed nor cancelled with unknown ids; ids come out distinct |
| KdsMerge.DeleteIsFilter | resources/js/Hooks/kdsOrderHelpers.ts:52-54 | deleting a key from the insertion-ordered map is filtering the list |
| KdsMerge.SetIsUpsert | resources/js/Hooks/kdsOrderHelpers.ts:63-63 | setting a key of the insertion-ordered map is replacing in place or appending |
| KdsMerge.BatchesCompose | resources/js/Hooks/kdsOrderHelpers.ts:43-70 | the list after batch a and then b is the list after a followed by b |
| KdsMerge.BatchesAnnounceTheSameIff | resources/js/Hooks/kdsOrderHelpers.ts:43-70 | two batches report the same new orders as the single one if and only if the first has neither brought nor removed an order that the second lists |
| KdsMerge.ListedTwiceIsAnnouncedTwice | resources/js/Hooks/kdsOrderHelpers.ts:43-70 | a concrete case: one active order in both batches is announced once by the two and twice by their concatenation |
| KdsMerge.MergeKeepsListSound | resources/js/Hooks/kdsOrderHelpers.ts:43-92 | ids stay distinct and every status stays active |
| KdsMerge.LastWordDecides | resources/js/Hooks/kdsOrderHelpers.ts:43-70 | an order is listed afterwards exactly if the batch's last row with its id is active and equal to it, or if it was listed and the batch does not mention it |
| Kitchen.OnlyCancelledSkips | app/Services/KdsService.php:45-65 | a change to any kitchen status but Cancelled finds the loaded row still current |
| Kitchen.TruthfulIffCurrent | app/Services/KdsService.php:45-68 | for every stale copy on which the change is allowed, the previous status announced is the stored one if and only if the copy is current |
| Kitchen.AlwaysTruthfulIff | app/Services/KdsService.php:45-68 | that holds for all copies if and only if the target is not Cancelled |
| Kitchen.StaleCancellation | app/Services/KdsService.php:45-68 | two displays with the same Paid order: it is accepted through one, and the cancellation through the other announces that a Paid order was cancelled |
| Kitchen.KdsService.UpdateOrderStatus | app/Services/KdsService.php:45-85 | changes exactly the status and its timestamp when both the loaded and the stored status allow it, announces once, truthfully unless cancelling; otherwise changes nothing |
| Kitchen.ChangeIsARun | app/Services/KdsService.php:45-65 | run alone, the kitchen thread of the protocol makes exactly the permitted change, dated by the clock |
| Kitchen.SelectOverdue | app/Console/Commands/AutoCompleteReadyOrders.php:21-27 | a fresh object for every order that is Ready with ready_at at or before the threshold, and for no other |
| Kitchen.AutoCompleteReadyOrders.Handle | app/Console/Commands/AutoCompleteReadyOrders.php:37-41 | over a batch loaded as Ready, completes precisely the longest prefix that is still Ready and leaves the first order that is not, and all later ones, untouched |
| Calendar.AddDayCounts | app/Services/Dashboard/SalesDataFormatter.php:79-84 | stepping a day forward counts the day number up by one, across months and leap years |
| Calendar.OrdinalInjective | app/Services/Dashboard/SalesDataFormatter.php:79-84 | no two dates share a day number |
| Calendar.EpochIsThursday | app/Services/Dashboard/SalesDataFormatter.php:64-71 | the weekday computed for 1970-01-01, counting from a Monday in year 1, is Thursday |
| Calendar.EndOfWeekIsSunday | app/Services/Dashboard/SalesDataFormatter.php:66-67 | the end of a week is the first Sunday from the day on, and six days away exactly for Mondays |
| Calendar.AddMonthAdvances | app/Services/Dashboard/SalesDataFormatter.php:54-58 | adding a month with overflow lands as many days into the next month as the start was into its own |
| Calendar.MonthsInClosedForm | app/Services/Dashboard/SalesDataFormatter.php:64-71 | the month lengths the walk uses agree with the closed form for years beginning in March |
| SalesBuckets.LteIsOrdinal | app/Services/Dashboard/SalesDataFormatter.php:44-44 | comparing dates field by field is comparing day numbers |
| SalesBuckets.NextStartsAfterNaturalEnd | app/Services/Dashboard/SalesDataFormatter.php:54-71 | the next bucket starts after this one's week or month, and directly after it if and only if this one is aligned; aligned buckets stay aligned |
| SalesBuckets.LabelNamesDays | app/Services/Dashboard/SalesDataFormatter.php:48-52 | every day of a bucket lies in the month its label names, or in the week whose first shown day its label is |
| SalesBuckets.AlignedSpansTile | app/Services/Dashboard/SalesDataFormatter.php:39-62 | from an aligned start the buckets are consecutive, disjoint and cover exactly the range |
| SalesBuckets.TilesIffAlignedOrOneBucket | app/Services/Dashboard/SalesDataFormatter.php:39-62 | from any start the buckets cover the range if and only if the start is aligned or the range lies in its first week or month |
| SalesBuckets.ThursdayStartLosesDays | app/Services/Dashboard/SalesDataFormatter.php:39-62 | a concrete case: the weekly buckets from Thursday 1 to Thursday 8 January 1970 leave out the 5th to the 7th |
| SalesBuckets.TilesAddUp | app/Services/Dashboard/SalesDataFormatter.php:39-62 | buckets that tile a range add up to its daily figures |
| SalesBuckets.SumDailyStats | app/Services/Dashboard/SalesDataFormatter.php:73-90 | terminates with the day-by-day sum of the range |
| SalesBuckets.FormatDaily | app/Services/Dashboard/SalesDataFormatter.php:20-37 | terminates with one row for each day of the range, in order, with its figures or zeroes |
| SalesBuckets.FormatGrouped | app/Services/Dashboard/SalesDataFormatter.php:39-62 | terminates with one row per bucket, labelled by its start and summing its days |
| SalesBuckets.FetchStartIsAligned | app/Services/TenantDashboardService.php:98-102 | the dashboard fetches from the Monday of the week, or the first of the month, that the asked start lies in |
| SalesBuckets.LabelsDiffer | app/Services/Dashboard/SalesDataFormatter.php:48-52 | no two buckets of a chart share a label |
| SalesBuckets.FetchedSpansTile | app/Services/TenantDashboardService.php:96-107 | the buckets of every chart the dashboard builds are consecutive, disjoint and cover exactly the days from the fetch start to the end |
| SalesBuckets.BuildSalesData | app/Services/TenantDashboardService.php:96-107 | one row for each bucket with its figures and a label that names every day of it, all labels distinct, together totalling the daily figures from the fetch start to the end |
| Reorder.Cart.AddItem | app/Services/Cart/CartItemWriter.php:25-72 | the line is added whole or not at all, exactly when the dish is on sale under the lock, every option is an active one of the dish in the right number and none occurs twice; and exactly which exception is thrown otherwise |
| Reorder.ResolveOptions | app/Services/ReorderService.php:177-216 | returns the past options still offered, or skips exactly when a required group keeps fewer than its minimum |
| Reorder.PreCheckIsNeverStricter | app/Services/ReorderService.php:205-213 | what the pre-check turns away the cart validator would turn away too |
| Reorder.ValidatorOnResolved | app/Services/Cart/CartOptionValidator.php:13-43 | on resolved options the validator accepts if and only if every group keeps between its minimum and maximum, and at least one if required |
| Reorder.ValidatorMeaning | app/Services/Cart/CartOptionValidator.php:13-43 | the validator accepts exactly the options that all belong to the dish, are active wherever it offers them, and number between minimum and maximum, at least one if required, in every group |
| Reorder.ResolvedAreOffered | app/Services/ReorderService.php:192-203 | the surviving options are exactly the past ones that some group of the dish offers as active |
| Reorder.AddedIffAccepted | app/Services/ReorderService.php:84-133 | for one view of the menu an item is added if and only if it exists, is on sale, the validator accepts its resolved options and none occurs twice; it throws exactly when only the last fails |
| Reorder.FateMeaning | app/Services/ReorderService.php:84-133 | for any change of the menu between the check and the lock: exactly when an item is added, throws, or is skipped for each of the five reasons |
| Reorder.DuplicateOptionCrashes | app/Services/ReorderService.php:121-133 | a concrete item with one option twice that the validator accepts and that throws |
| Reorder.DistinctStaysDistinct | app/Services/ReorderService.php:197-203 | options distinct in the past order stay distinct when matched |
| Reorder.CartOrdersNeverCrash | app/Services/ReorderService.php:84-133 | for one view of the menu an item without an option twice, as carts make them, never throws |
| Reorder.ProcessOrderItem | app/Services/ReorderService.php:84-133 | the fate of one item, with its reason, also when the menu changes before the cart writer locks it; the cart grows, exactly when it is added, by one line with the item's dish, quantity and surviving options |
| Reorder.ReorderItems | app/Services/ReorderService.php:49-62 | added and skipped entries partition the items in order; 422 exactly leaves the cart alone with everything skipped; an exception keeps the lines added before it |
| QueryString.SplitTwice | app/Http/Middleware/ValidateThreeDsCallbackSignature.php:63-89 | splitting at '&' and then each piece at both separators is splitting at both at once |
| QueryString.NormalizeQueryString | app/Http/Middleware/ValidateThreeDsCallbackSignature.php:57-93 | the identity without '?', otherwise split at both separators, drop empty pieces, join with '&' |
| QueryString.TokensPreserved | app/Http/Middleware/ValidateThreeDsCallbackSignature.php:57-93 | the sequence of non-empty parameters is unchanged |
| QueryString.NormalizedIsIdempotent | app/Http/Middleware/ValidateThreeDsCallbackSignature.php:57-93 | normalising twice is normalising once, and no '?' is left |
| MenuAvailability.TextOrderIsTimeOrder | app/Models/MenuItem.php:162-171 | comparing H:i:s texts is comparing times of day |
| MenuAvailability.TimeTextReadsBack | app/Models/MenuItem.php:162-163 | the H:i:s text reads back as the time of day |
| MenuAvailability.WindowMeaning | app/Models/MenuItem.php:142-174 | with a serving window an item is available exactly when active, not sold out, on one of its days, and from the window's first second through its last; never if the window would span midnight |
| MenuAvailability.NoWindowMeaning | app/Models/MenuItem.php:142-174 | with an end of the window missing, empty or zero it is available all day on its days |
| MenuAvailability.DayMeaning | app/Models/MenuItem.php:142-147 | the days are those whose flags are set, Sunday being 1 and Saturday 64 |
| MenuAvailability.EntryIsLive | app/Services/PublicMenuService.php:109-125 | an item not marked for recomputation has one verdict at all times, and a recomputed one has the live verdict |
| MenuAvailability.BuildMenuData | app/Services/PublicMenuService.php:43-97 | formats every active item in order and raises the flag exactly when one needs recomputation |
| MenuAvailability.RecalculateAvailability | app/Services/PublicMenuService.php:155-176 | recomputes every marked entry and changes nothing else |
| MenuAvailability.StripInternalFlags | app/Services/PublicMenuService.php:179-189 | keeps every entry in place without its internal flag |
| MenuAvailability.PublicMenuService.GetMenu | app/Services/PublicMenuService.php:23-35 | cached or not, recomputed or skipped, the menu shows for every active item the live verdict at request time on the rows it was built from |
| MenuAvailability.PublicMenuService.InvalidateCache | app/Services/PublicMenuService.php:37-40 | leaves the cache empty, so that the next menu is the live one of the current rows |
| Slug.CandidatesDiffer | app/Services/Menu/CategoryService.php:146-147 | no two candidates are the same string |
| Slug.SomeCandidateIsFree | app/Services/Menu/CategoryService.php:140-148 | if the first n candidates are taken there are at least n rows |
| Slug.GenerateUniqueSlug | app/Services/Menu/CategoryService.php:134-151 | terminates within one probe more than there are rows, with the base (category for an empty or zero slug) if free and otherwise the least free suffix |
| Slug.StoringKeepsSlugsDifferent | app/Services/Menu/CategoryService.php:134-151 | storing the slug found, for a new category or for the one being renamed, keeps the tenant's slugs distinct |
| Decimal.OfNatInjective | app/Services/Menu/CategoryService.php:146-146 | different numbers print differently |
| Decimal.OfIntInjective | app/Services/Webhook/WebhookService.php:287-298 | different integer ids normalise to different strings |
| Decimal.OfIntReadsBack | app/Services/Webhook/WebhookService.php:287-298 | a printed integer has no leading zero and reads back as the number |
| Decimal.OfNatReadsBack | app/Services/Menu/CategoryService.php:146-146 | the same for the suffix of a slug |

## Left out

- The gateway and its HTTP retries: replies are arbitrary choices of captured, pending, failed, error or 3DS result.
- The initiation flows and executePaymentFor3ds are protocol steps only; signed URLs and what card registration stores are not modelled. The gateway columns are one value, and initiatePayPayPayment saves it one step before the promotion instead of in the same transaction.
- The interleavings of the idempotency middleware, the customer lock and the webhook log: state machines over values; the middleware's record operations are also given as methods.
- EnsureIdempotencyKey.Handle: describes one undisturbed request; concurrent ones are covered by the state machine.
- AsksTwiceAtMost: the number of requests is a setting, taken at its default of two.
- Lock order, deadlocks and the database's isolation level: a transaction is atomic.
- BuildSalesData: dates from year 1 on; times of day inside a chart date are dropped.
- Average: exact rational rounding; the floating-point division before it is not modelled.
- AggregateMonthlySales: GROUP BY is what the database promises (one row per key, in any order), not SQL itself; the other statistics queries are not modelled.
- AutoCompleteReadyOrders.Handle: nobody else writes while the batch runs; interference is covered by the kitchen steps of the protocol.
- ReorderItems: the price-change report, the cart formatting and the totals shown are not modelled.
- CreateOrderWithRetry: as a method, nobody else writes between its attempts; attempts of other checkouts in between are covered by CheckoutRuns. The backoff between attempts and the commit of the surrounding cart transaction are not modelled.
- Flows: exceptions other than the gateway's own and database failures (a broken log, a listener that throws) are not modelled.
- The cart writer's update, remove and clear operations and the orchestrator's cart-clearing retry: not modelled. One cart fill can give two orders without an idempotency key, so no such claim is made.
- GetMenu: option groups and display fields of an item are not modelled; the hour of the cache is the `expired` parameter.
- GenerateUniqueSlug: `Str::slug` itself and two requests racing for one slug (the unique key then refuses the second).
- Tenant scope, policies, sessions, signatures, audit rows, logs, mail, translations, React components, polling and DTOs: plumbing.
- `setAsDefault` on saved cards, `BusinessHoursSchedule`, controllers and the KDS polling hook are not part of this model.
