# Order sagas, payments and the idempotency lock

A Dafny model of the parts of a NestJS/Temporal shop that decide whether stock and money add up:
the place-order and cancel-order workflows, the inventory activities they call, charging and refunding
through Stripe, and the Redis store behind idempotent requests. `dafny verify dfyconfig.toml` checks
the whole project with Dafny 4.11.

## How the model is built

- `Inventory` holds the guarded row updates and the transaction that loops one over an order's items;
  `InventoryService` is the service with the four loops, updating its table in place; `Journal` is about
  transactions of several orders in any interleaving.
- `Ledger` puts beside the table what each order holds of it. The source keeps no such record, so
  the table can only be right if it always adds up to these claims.
- `Orders` and `OrderService` are the order rows: created with their total, read back, updated, gated.
- `Payment` has one order's payment row, Stripe's objects and its idempotency keys, and runs any number of
  overlapping charge and refund attempts over them in small steps, each of which may fail before or after
  its effect. `PaymentService` is the two methods as straight-line programs, each proved to be one such
  attempt. `PaymentTables` has the table, the Stripe account and the idempotency keys by their text that all
  orders share, and proves that each order's part of any run is a run of its own.
- `Saga` is one order's two workflows as step machines with the progress flags; `Platform` is the whole
  shop: any number of orders, all their workflow steps, payment attempts and stock adjustments in any
  interleaving. Its invariant is proved for every step; `Guarantees` draws the theorems from it. `Outcomes`
  says exactly which ends an order can still reach, and which facts about it are for good. `CancelGate` says
  exactly when letting a cancel in does harm. `SharedShop` is the shop over the shared payment tables; seen
  order by order it takes the steps of `Platform`.
- `Workflows` has the two workflows as the programs they are, with local variables, flags and a catch
  block, arbitrary actions of everybody else between any two calls, and an arbitrary fate for each call.
  Each is proved to be a run of the step machine, and its answer to be exactly what its calls' fates and
  the state that they found call for.
- `Counterexamples` has reachable states that show where the guarantees stop.
- `Idempotency` is the lock as operations over a key space with a clock: atomic ones, and writes that arrive
  any time after their check. It has the `acquire` retry loop with others acting between SET and GET, and the
  other operations with others between their GET and their write. `IdempotencyStore` is the store, command by
  command.

## What is assumed

`Platform.Fit` collects what no code checks but the guarantees need. Each has a lemma showing what goes
wrong without it.

- No item quantity is negative (`Inventory.NegativeQuantityBreaksClosedForm`). The gateway only checks
  that a quantity is present.
- Whenever the gate of `cancelOrder`, which looks at the status only, lets a cancel in, no workflow of the
  order is running, and the saved payment id is present exactly if the stock was confirmed. Without another
  cancel running, `CancelGate.CancelBreaksIff` is the exact condition under which letting one in goes wrong
  later: beside a live place run whenever its refund can still return, whatever the payment id says, and
  beside a dead one whenever the payment id does not tell the hold and the cancel can get to the stock. With
  another one running, `CancelGate.SecondCancelGivesBackTwice` says what goes wrong. `Counterexamples` has a
  state for each part of the assumption: an unfit payment id (`GateAdmitsUnfitCancel`, `GateAdmitsEmptyOrder`),
  a live place run with a fit one (`GateAdmitsFittingCancelOfLiveRun`) and a running cancel with a fit one
  (`GateAdmitsOverlappingCancels`).
- An inventory activity that reports a failure has rolled back (`Journal.RetriedReserveLeaks`). All other
  activities may fail after taking effect.
- A write to an order row that the workflow has given up on does not land later. A late PAID after SHIPPING,
  say, would let a cancel past the gate of an order that was sold.

Also: order and row ids are positive, because they come from a sequence that starts at 1; each database
transaction is atomic; Stripe decides the first request under a key and replays that reply for good.

## Where the code does less than it says

- A declined card never reaches PLACE_FAILED. The refund of the compensation first repeats the charge
  under the same key, Stripe replays the error, and the compensation stops there with the stock still
  reserved (`Outcomes.CanRollBackIff`, `Counterexamples.DeclinedCardNeverRollsBack`). A refund that Stripe
  has refused blocks it just as permanently.
- CANCELLED can leave the customer charged, then or later: without a saved payment id the cancel workflow
  refunds nothing, and a late attempt may still charge (`Outcomes.CancelledMeans`,
  `Counterexamples.CancelledWithMoneyKept`).
- `cancelOrder` admits orders whose stock is only reserved although their payment id is saved. Cancelling
  one adds stock that was never taken (`Counterexamples.GateAdmitsUnfitCancel`). It also admits an order
  that holds nothing because its creation was never acknowledged; cancelling that one takes another order's
  reservation (`Counterexamples.GateAdmitsEmptyOrder`).
- A lost acknowledgement of the last status write leaves an order SHIPPING with everything returned
  (`Outcomes.LastWriteDecides`, `Counterexamples.ShippingWithEverythingReturned`).
- The idempotency store's comments promise that a stalled owner cannot overwrite a newer lock. It cannot
  exactly while its lease lasts (`Idempotency.FencedIffStillLeased`); past it, it overwrites the lock
  (`Idempotency.StalledCompleteOverwritesNextOwner`) or frees it for a third
  (`Idempotency.StalledReleaseAdmitsThird`). The lock is exclusive exactly when no write comes that late
  (`Idempotency.ExclusiveIffFenced`).

## Model

| member | source | states |
|---|---|---|
| `Inventory.ClosedForm` | apps/inventory-service/src/activity/reserve-inventory.actity.ts:19-43 | a committed transaction covered every product's summed demand and moved each row by it, whatever the signs; without negative quantities it commits exactly when they are covered, and otherwise nothing changes |
| `Inventory.CommitsIffPrefixesCovered` | apps/inventory-service/src/activity/confirm-inventory.activity.ts:19-43 | for quantities of any sign, the transaction commits exactly when each prefix of the items is covered |
| `Inventory.CommitMovesDemand` | apps/inventory-service/src/activity/release-inventory.activity.ts:19-43 | whatever the signs, a committed transaction has moved every row by its whole demand |
| `Inventory.OrderIndependent` | apps/inventory-service/src/activity/reserve-inventory.actity.ts:20-42 | what a committed transaction does is the same for every order of the items; without negative quantities so is whether it commits |
| `Inventory.NegativeQuantityBreaksClosedForm` | apps/api-gateway/src/modules/order/dto/create-order.dto.ts:11-13 | a negative quantity makes a covered list be refused, and the same list reordered commit |
| `Inventory.ReservesIffAvailable` | apps/inventory-service/src/inventory-service.service.ts:61-72 | a reservation commits exactly when what `getAvailableStock` reports suffices line by line; without negative quantities, exactly when it suffices for each product's demand |
| `Inventory.ReserveThenReleaseIsIdentity` | apps/inventory-service/src/activity/release-inventory.activity.ts:19-43 | releasing what was reserved restores the table exactly when the reservation is returnable, for any signs; without negative numbers always |
| `Inventory.ReserveConfirmRestoreIsIdentity` | apps/inventory-service/src/activity/restore-inventory.activity.ts:19-44 | restoring what was reserved and confirmed restores the table, and the confirmation passes exactly when the reservation is returnable |
| `Inventory.TransactionsNeverOversell` | apps/inventory-service/src/activity/reserve-inventory.actity.ts:25-30 | reserving and confirming never turn available stock negative, whatever the signs; no activity does for demands that are not negative, and those keep `0 <= reserved <= stock` |
| `InventoryService.InventoryStore.ReserveInventory` | apps/inventory-service/src/activity/reserve-inventory.actity.ts:16-44 | the loop with rollback is the reserve transaction |
| `InventoryService.InventoryStore.ConfirmInventory` | apps/inventory-service/src/activity/confirm-inventory.activity.ts:16-44 | the loop with rollback is the confirm transaction |
| `InventoryService.InventoryStore.ReleaseInventory` | apps/inventory-service/src/activity/release-inventory.activity.ts:16-44 | the loop with rollback is the release transaction |
| `InventoryService.InventoryStore.RestoreInventory` | apps/inventory-service/src/activity/restore-inventory.activity.ts:16-45 | the loop with rollback is the restore transaction |
| `InventoryService.InventoryStore.AdjustInventory` | apps/inventory-service/src/inventory-service.service.ts:20-45 | succeeds exactly when the product exists and its stock stays non-negative, and then changes that stock only |
| `InventoryService.InventoryStore.GetAvailableStock` | apps/inventory-service/src/inventory-service.service.ts:61-72 | stock less reserved, or 0 where more is reserved than in stock, or that there is no row; the number that decides reservations |
| `Journal.ReleaseCancelsReserve` | apps/inventory-service/src/activity/release-inventory.activity.ts:19-43 | a reservation released after any committed transactions of others leaves exactly what the others did |
| `Journal.RestoreCancelsConfirmedReserve` | apps/inventory-service/src/activity/restore-inventory.activity.ts:19-44 | so does one confirmed and restored, with others before and after the confirmation |
| `Journal.RetriedReserveLeaks` | apps/inventory-service/src/activity/reserve-inventory.actity.ts:16-44 | a reservation repeated after a lost acknowledgement leaves one demand reserved after the release |
| `Ledger.CallKeepsBalance` | apps/inventory-service/src/entity/inventory.entity.ts:19-27 | an activity called for an order with the hold it needs keeps the table equal to the claims |
| `Ledger.AdjustKeepsBalance` | apps/inventory-service/src/inventory-service.service.ts:24-33 | an adjustment moves the stock by exactly its change under the guard, and otherwise nothing; either way the table equals the claims |
| `Ledger.InitializeKeepsBalance` | apps/inventory-service/src/activity/initialize-inventory.activity.ts:14-26 | a new product's row keeps the table equal to the claims |
| `Ledger.OpenKeepsBalance` | apps/order-service/src/activity/create-order.activity.ts:29-46 | a new order claims nothing and leaves every row right; the books stay sound exactly when none of its quantities is negative |
| `Ledger.NeverRefused` | apps/inventory-service/src/activity/confirm-inventory.activity.ts:30-39 | with the table equal to the claims, confirm, release and restore are never refused to an order that holds what it should |
| `Ledger.OwnEffect` | apps/inventory-service/src/entity/inventory.entity.ts:19-27 | each row is what the others make it plus exactly the order's own demand |
| `Ledger.WrongHoldBreaksBalance` | apps/inventory-service/src/activity/restore-inventory.activity.ts:21-31 | a committed call keeps the row right if and only if the order had the hold that the activity is for |
| `Orders.CreatedRoundTrip` | apps/order-service/src/activity/create-order.activity.ts:25-46 | an order is created exactly when all items are priced; its lines are the items at those prices, its total their bill, and they read back as the items |
| `Orders.ListingKeepsDemand` | apps/order-service/src/activity/get-order-items.activity.ts:33-38 | any listing of the stored lines asks for the same units |
| `OrderService.OrderStore.CreateOrder` | apps/order-service/src/activity/create-order.activity.ts:21-50 | appends one PENDING row whose lines have the catalogue's prices and whose total is their bill, or changes nothing |
| `OrderService.OrderStore.GetOrderTotalAmount` | apps/order-service/src/activity/get-order-total-amount.activity.ts:13-25 | the sum of price times quantity over the stored lines, or failure exactly for a missing order |
| `OrderService.OrderStore.GetPaymentId` | apps/order-service/src/activity/get-payment-id.activity.ts:13-25 | the payment id last saved for the order, none if none ever was, or failure exactly for a missing order |
| `OrderService.OrderStore.GetOrderItems` | apps/order-service/src/activity/get-order-items.activity.ts:16-39 | one item per stored line, with its product and quantity |
| `OrderService.OrderStore.SavePaymentId` | apps/order-service/src/activity/save-payment-id.activity.ts:15-27 | fails exactly for a missing order; otherwise changes only that row's payment id |
| `OrderService.OrderStore.UpdateOrderStatus` | apps/order-service/src/activity/update-order-status.activity.ts:15-30 | fails exactly for a missing order; otherwise changes only that row's status |
| `OrderService.OrderStore.CancelOrder` | apps/order-service/src/order-service.service.ts:85-92 | starts a cancel exactly for an existing PENDING or PAID order |
| `Payment.StepKeepsBooks` | apps/payment-service/src/payment-service.service.ts:48-300 | every step of every attempt keeps the books consistent and takes back nothing on record |
| `Payment.MoneyInBooks` | apps/payment-service/src/entity/payment-transaction.entity.ts:15-28 | consistent books have captured the bill once or nothing, and returned it once or nothing |
| `Payment.ChargeExactlyOnce` | apps/payment-service/src/payment-service.service.ts:51-107 | over every run of overlapping attempts at most one intent and one row exist, and all charges that return give the same id for one full capture |
| `Payment.RefundAtMostOnce` | apps/payment-service/src/payment-service.service.ts:159-199 | at most one refund, never more than captured, and a REFUNDED row means that the capture was returned |
| `Payment.RefundReturnedIsFinal` | apps/payment-service/src/payment-service.service.ts:226-285 | once a refund attempt has returned, the net is zero in every continuation and no SUCCESS row exists |
| `Payment.RefundCanReturnIff` | apps/payment-service/src/payment-service.service.ts:226-299 | with any attempts under way, some continuation has a refund that returns if and only if neither key replays a refusal |
| `Payment.SmoothChargeReturnsIff` | apps/payment-service/src/payment-service.service.ts:51-107 | with nothing else going wrong, a charge returns if and only if its key replays no refusal and no unsuccessful intent, and no REFUNDED row exists |
| `Payment.RecordedReturnsAtOnce` | apps/payment-service/src/payment-service.service.ts:51-64 | a charge with a SUCCESS row and a refund with a REFUNDED one return after the lookup alone, whatever Stripe does; a refund with neither row nor amount fails there |
| `Payment.TriedAgainIff` | apps/payment-service/src/payment-service.service.ts:109-154 | a charge is tried again exactly if it did not return and its failure is not a 4xx other than 408 and 429 nor an unsuccessful intent |
| `Payment.PassingFailureThenSmooth` | apps/orchestrator-worker/src/workflows/order/place-order.workflow.ts:48-60 | after a rate limit, timeout, 5xx, open breaker or error without status, a smooth second attempt returns the row's id for one full capture |
| `Payment.HeldChargeIsRejected` | apps/payment-service/src/payment-service.service.ts:88-94 | an unsuccessful intent captures nothing and ends the charge for good |
| `Payment.HeldRefundReturnsNothing` | apps/payment-service/src/payment-service.service.ts:188-195 | an unsuccessful refund returns no money, fails, and stands in the way of every later one |
| `Payment.RefundsAreNeverRejected` | apps/payment-service/src/payment-service.service.ts:202-212 | no failure of a refund is final |
| `Payment.BreakerIsAnswered` | apps/payment-service/src/payment-service.service.ts:109-120 | an open breaker is answered as such, in charge and refund alike, and Stripe has not seen the call |
| `Payment.DeclinedChargeBlocksEveryRefund` | apps/payment-service/src/payment-service.service.ts:289-299 | while the charge key replays an error no refund attempt of any run returns, and nothing is captured |
| `Payment.AmountsStayKnown` | apps/payment-service/src/payment-service.service.ts:213-224 | no attempt fails for a missing amount if refunds without one are only started once a row exists |
| `PaymentTables.KeysNeverMeet` | apps/payment-service/src/payment-service.service.ts:83 | two orders share no key, and no charge key is a refund key, as texts |
| `PaymentTables.FitsIffOwnFits` | apps/payment-service/src/entity/payment-transaction.entity.ts:15-19 | an insert passes both unique columns of the shared table exactly when its own order has no row |
| `PaymentTables.StepIsOwnStep` | apps/payment-service/src/payment-service.service.ts:51-285 | a step for one order on the shared tables is its own step on its part, and leaves every other order's part alone |
| `PaymentTables.BankRunIsOwnRun` | apps/payment-service/src/payment-service.service.ts:48-300 | in every interleaving for any number of orders, each order's books and attempts go through a run of their own |
| `PaymentTables.EveryOrderIsChargedOnce` | apps/payment-service/src/payment-service.service.ts:51-107 | in the shared tables each order is captured its own bill at most once, returned at most that, and every returned charge gives its row's id |
| `PaymentTables.RefundIsFinalAmongAll` | apps/payment-service/src/payment-service.service.ts:226-285 | a returned refund stays final whatever is then done for any order |
| `PaymentTables.PaymentIdsDiffer` | apps/order-service/src/entity/order.entity.ts:35-36 | no two orders' payment rows have the same id |
| `PaymentService.PaymentStore.ChargePayment` | apps/payment-service/src/payment-service.service.ts:48-139 | the method is one charge attempt of the step machine, with the same books and result |
| `PaymentService.PaymentStore.ChargeUnderPolicy` | apps/orchestrator-worker/src/workflows/order/place-order.workflow.ts:48-60 | one to three attempts, of which one that returns or is rejected is the last |
| `PaymentService.PaymentStore.RefundPayment` | apps/payment-service/src/payment-service.service.ts:156-301 | the method is one refund attempt of the step machine, with the same books and result |
| `PaymentService.RefundRecorded` | apps/payment-service/src/payment-service.service.ts:176-212 | the branch with a row is the rest of the attempt from the refund call on |
| `PaymentService.RefundUnrecorded` | apps/payment-service/src/payment-service.service.ts:226-299 | the branch without a row is the rest of the attempt from the probe on |
| `PaymentService.CallIsARun` | apps/payment-service/src/payment-service.service.ts:48-301 | each call of either method is one interleaving of the step machine |
| `Saga.PlaceStepOk` | apps/orchestrator-worker/src/workflows/order/place-order.workflow.ts:111-183 | every step of the place run, forward or compensating, keeps flags, status, money and hold consistent |
| `Saga.CancelStepOk` | apps/orchestrator-worker/src/workflows/order/cancel-order.workflow.ts:57-84 | every step of the cancel run does too |
| `Saga.AccountEventOk` | apps/payment-service/src/payment-service.service.ts:48-301 | so does every payment attempt the workflows start, however late it runs |
| `Platform.StepKeepsInv` | apps/orchestrator-worker/src/workflows/order/place-order.workflow.ts:116-183 | every action of anybody keeps the shop's invariant |
| `Platform.Reachable` | apps/orchestrator-worker/src/workflows/order/place-order.workflow.ts:103-197 | the invariant holds in every state of every interleaving |
| `Guarantees.LedgerAddsUp` | apps/inventory-service/src/inventory-service.service.ts:24-33 | after every run, reserved quantity is the summed demand of the reserved orders; stock is the initial stock plus all adjustments that passed their guard, less the summed demand of the confirmed orders |
| `Guarantees.AdjustmentStep` | apps/inventory-service/src/inventory-service.service.ts:24-40 | one adjustment changes exactly that product's stock, by exactly its change, exactly if the row exists and stays non-negative |
| `Guarantees.InitializationStep` | apps/inventory-service/src/activity/initialize-inventory.activity.ts:14-26 | a first stocking opens the row with that stock; a later one changes nothing |
| `Guarantees.StockNeverBlocksWorkflow` | apps/inventory-service/src/activity/release-inventory.activity.ts:28-39 | wherever a workflow is about to confirm, release or restore, every guard passes; none was ever refused |
| `Guarantees.PlacedEffect` | apps/orchestrator-worker/src/workflows/order/place-order.workflow.ts:139-156 | a successful run took exactly its demand, reserves nothing, was captured once in full, is SHIPPING and has a shipment |
| `Guarantees.PlaceFailedEffect` | apps/orchestrator-worker/src/workflows/order/place-order.workflow.ts:168-183 | a compensated run has no effect on stock, reservations or money and says PLACE_FAILED |
| `Guarantees.EndsAreFinal` | apps/orchestrator-worker/src/workflows/order/place-order.workflow.ts:151-183 | no continuation, late attempt or cancel request moves an ended order's stock or money |
| `Guarantees.PlaceFailedMeansUndone` | apps/orchestrator-worker/src/workflows/order/place-order.workflow.ts:170-182 | PLACE_FAILED implies nothing held and no money kept |
| `Guarantees.ClosedIsFinal` | apps/orchestrator-worker/src/workflows/order/cancel-order.workflow.ts:73-84 | once no workflow of an order is left to act, nothing but late payment attempts and the CANCEL_FAILED write moves it |
| `Guarantees.CancelRefusedAfterEnd` | apps/order-service/src/entity/order.entity.ts:56-58 | a cancel request after a finished place or cancel run changes nothing |
| `Guarantees.CancelUndoesIff` | apps/orchestrator-worker/src/workflows/order/cancel-order.workflow.ts:63-70 | for any listing, the cancel's own inventory call gives back exactly what was taken if and only if a payment id was saved exactly when the stock was confirmed |
| `Guarantees.OrphanIsForGood` | apps/order-service/src/activity/create-order.activity.ts:37-46 | an order whose creation was not acknowledged stays PENDING, empty and uncharged in every continuation |
| `Guarantees.AmountNeverMissing` | apps/payment-service/src/payment-service.service.ts:213-224 | the missing-amount failure is unreachable; a saved payment id implies a row, an attempted charge a known total |
| `Guarantees.StripeAmount` | apps/payment-service/src/payment-service.service.ts:70-71 | charge and probe only ever ask for 100 times the sum over the stored lines |
| `Guarantees.HistoryIsKept` | apps/order-service/src/activity/create-order.activity.ts:29-44 | stored lines and total never change, and the books never lose what is on record |
| `Guarantees.OnlyAdjustmentsOversell` | apps/inventory-service/src/inventory-service.service.ts:24-33 | available stock turns negative only through a downward adjustment of that product |
| `Guarantees.NeverOversold` | apps/inventory-service/src/activity/reserve-inventory.actity.ts:25-30 | with adjustments that respect reservations, `0 <= reserved <= stock` in every state of every run |
| `Outcomes.CanRollBackIff` | apps/orchestrator-worker/src/workflows/order/place-order.workflow.ts:168-183 | at every step of every place run, forward or compensating, some continuation rolls it back completely if and only if neither Stripe key of the order replays a refusal |
| `Outcomes.RefusalIsForGood` | apps/payment-service/src/payment-service.service.ts:229-299 | once a key replays a refusal, no continuation gets past the refund or writes PLACE_FAILED, and the money stays where it is |
| `Outcomes.CanCancelIff` | apps/orchestrator-worker/src/workflows/order/cancel-order.workflow.ts:57-72 | while a cancel is trying, some continuation finishes it if and only if no payment id is saved or the refund was not refused for good |
| `Outcomes.CancelledMeans` | apps/orchestrator-worker/src/workflows/order/cancel-order.workflow.ts:58-72 | a CANCELLED order's stock went back for good; no continuation ever holds its money if and only if it was free, has a payment id, was never charged, is refunded, or its charge was decided against |
| `Outcomes.ShippingMeansSold` | apps/orchestrator-worker/src/workflows/order/place-order.workflow.ts:144-183 | SHIPPING implies a shipment; it keeps implying deducted, captured in full and not refunded if and only if the run succeeded or can return neither stock nor money |
| `Outcomes.LastWriteDecides` | apps/orchestrator-worker/src/workflows/order/place-order.workflow.ts:147-149 | once SHIPPING is written, the order is sold in every continuation if and only if the write was acknowledged |
| `CancelGate.CancelBreaksIff` | apps/order-service/src/order-service.service.ts:85-105 | with no cancel running, letting one in leads some continuation to a refused call or a wrong row if and only if: the place run is live and neither Stripe key replays a refusal, or it is dead, the payment id does not tell the hold, and the refund is no obstacle |
| `CancelGate.SecondCancelGivesBackTwice` | apps/orchestrator-worker/src/workflows/order/cancel-order.workflow.ts:63-70 | while a rightful cancel is trying, the gate is open, and the inventory call made twice is refused or leaves a wrong row |
| `SharedShop.SharedStepIsStep` | apps/payment-service/src/payment-service.service.ts:48-300 | each step of the shop over shared payment tables is, seen order by order, a step of the shop with an account per order |
| `SharedShop.SharedShopIsReached` | apps/payment-service/src/entity/payment-transaction.entity.ts:10-28 | every run over the shared tables is such a run, so every guarantee holds of it |
| `SharedShop.SavedPaymentIdsDiffer` | apps/order-service/src/entity/order.entity.ts:35-36 | no two orders ever save the same payment id, so the unique column refuses none |
| `Counterexamples.ShippingWithEverythingReturned` | apps/orchestrator-worker/src/workflows/order/place-order.workflow.ts:147-183 | a reachable order that says SHIPPING with its stock and money returned |
| `Counterexamples.CancelledWithMoneyKept` | apps/orchestrator-worker/src/workflows/order/cancel-order.workflow.ts:58-72 | a reachable CANCELLED order whose charge was never refunded |
| `Counterexamples.GateAdmitsUnfitCancel` | apps/order-service/src/order-service.service.ts:88-92 | a reachable order past the gate whose cancel would restore stock it never took |
| `Counterexamples.GateAdmitsCancelOfLiveRun` | apps/order-service/src/entity/order.entity.ts:56-58 | the gate also admits an order whose place run is about to confirm, to the same effect |
| `Counterexamples.GateAdmitsSecondCancel` | apps/order-service/src/order-service.service.ts:86-105 | and an order whose first cancel has already given its stock back, so that a second restores it again |
| `Counterexamples.GateAdmitsEmptyOrder` | apps/order-service/src/entity/order.entity.ts:56-58 | and a PENDING order that holds nothing; cancelling it takes another order's reservation, whose confirm and release then fail |
| `Counterexamples.DeclinedCardNeverRollsBack` | apps/payment-service/src/payment-service.service.ts:229-248 | a reachable compensating order with a declined card, its stock reserved, that no continuation rolls back |
| `Counterexamples.GateAdmitsFittingCancelOfLiveRun` | apps/order-service/src/entity/order.entity.ts:56-58 | a reachable order past the gate, its place run live and its payment id telling the hold, whose cancel leads to a wrong row or a refusal |
| `Counterexamples.GateAdmitsOverlappingCancels` | apps/order-service/src/order-service.service.ts:86-105 | a reachable order past the gate with a rightful cancel running; giving its stock back twice leaves 12 units of 10 |
| `Workflows.Deployment.CreateOrder` | apps/orchestrator-worker/src/workflows/order/place-order.workflow.ts:93-101 | up to three attempts without dedupe: one order more than the workflow knows of for every lost acknowledgement, and the id of the last if it was delivered |
| `Workflows.Deployment.Call` | apps/orchestrator-worker/src/workflows/order/place-order.workflow.ts:131-149 | a call with anybody acting before it; it succeeds exactly if it is delivered and, for reserve, the stock covers the order, for charge and refund, an attempt has returned |
| `Workflows.OthersActFreely` | apps/orchestrator-worker/src/workflows/order/place-order.workflow.ts:131-149 | between two calls of a workflow, everything that anybody may do does happen |
| `Workflows.TryPlace` | apps/orchestrator-worker/src/workflows/order/place-order.workflow.ts:130-149 | done if and only if all eight calls were delivered, the reservation was covered and the charge had returned; otherwise it stops at the first that failed, with flags that tell truly how far it got |
| `Workflows.Compensate` | apps/orchestrator-worker/src/workflows/order/place-order.workflow.ts:168-183 | compensates exactly what the flags say; completes if and only if the refund, where due, had returned and the other calls were delivered |
| `Workflows.PlaceOrderWorkflow` | apps/orchestrator-worker/src/workflows/order/place-order.workflow.ts:103-197 | with up to three attempts to create the order: shipped, with 100 times the catalogue bill captured, if and only if all eight calls went well; otherwise it names the first that failed and is rolled back exactly if the compensation's calls went well; each lost creation leaves one empty PENDING order behind |
| `Workflows.TryCancel` | apps/orchestrator-worker/src/workflows/order/cancel-order.workflow.ts:57-72 | goes through if and only if its calls were delivered, the listing is right and a due refund had returned; otherwise leaves the failed status to be written |
| `Workflows.CancelOrderWorkflow` | apps/orchestrator-worker/src/workflows/order/cancel-order.workflow.ts:51-98 | cancelled if and only if the try block went through; otherwise the fate of the last write alone decides between CANCEL_FAILED and no status |
| `Workflows.CancelOrder` | apps/order-service/src/order-service.service.ts:85-105 | refused exactly for missing or non-cancelable orders; otherwise the answer of the workflow, and CANCELLED only after the stock, and for a paid order the money, went back |
| `Idempotency.LockIsExclusive` | libs/common/src/idempotency/redis-idempotency.store.ts:30-161 | until the owner ends it or its lease lapses, and while late writes keep to their writers' leases, nobody else acquires, and others' operations answer false and change nothing |
| `Idempotency.ExclusiveIffFenced` | libs/common/src/idempotency/redis-idempotency.store.ts:85-153 | while the owner keeps its lease, it stays intact at every moment if and only if no late SET, DEL or PEXPIRE with an effect lands outside its writer's lease |
| `Idempotency.TwoAcquisitionsNeedAnEnd` | libs/common/src/idempotency/redis-idempotency.store.ts:41-53 | between two acquisitions of a key the first owner completed, released or lapsed, or a late write landed outside its writer's lease |
| `Idempotency.StoredResponseStays` | libs/common/src/idempotency/redis-idempotency.store.ts:56-66 | until retention lapses and unless a late write changes it, every operation leaves a stored response alone and every look sees it |
| `Idempotency.StoredIffUndisturbed` | libs/common/src/idempotency/redis-idempotency.store.ts:104-153 | a response stays stored until its retention lapses if and only if no late write changes it |
| `Idempotency.CompletedReplays` | libs/common/src/idempotency/redis-idempotency.store.ts:83-116 | once an acquirer's complete returned true, whatever came between its GET and SET, every later look sees that response and the acquirer's fingerprint |
| `Idempotency.AcquireSeesOneInstant` | libs/common/src/idempotency/redis-idempotency.store.ts:33-79 | at most five attempts; each result matches the key at one instant inside the call; the error comes exactly when all five saw the key vanish |
| `Idempotency.AcquireTriesFiveTimes` | libs/common/src/idempotency/redis-idempotency.store.ts:33-79 | a whole call makes one to five attempts, and fails exactly when all five saw the key vanish |
| `Idempotency.AcquireDuringLease` | libs/common/src/idempotency/redis-idempotency.store.ts:66-71 | during a lease the whole loop answers in-flight with the holder's fingerprint |
| `Idempotency.AcquireAfterCompletion` | libs/common/src/idempotency/redis-idempotency.store.ts:60-65 | until retention lapses the whole loop answers completed with the stored response |
| `Idempotency.FencedIffStillLeased` | libs/common/src/idempotency/redis-idempotency.store.ts:177-184 | an owner still holds the key when its write comes if and only if its lease never lapsed |
| `Idempotency.SplitIsLateWrite` | libs/common/src/idempotency/redis-idempotency.store.ts:85-153 | an operation whose check passed is what others did meanwhile followed by its bare write |
| `Idempotency.SplitWithNothingBetween` | libs/common/src/idempotency/redis-idempotency.store.ts:85-153 | with nothing between check and write, each operation is the atomic one, whoever calls it |
| `Idempotency.SplitIsAtomicWithinLease` | libs/common/src/idempotency/redis-idempotency.store.ts:85-153 | within the lease, the GET and the write act as one atomic operation after the others' steps |
| `Idempotency.StalledCompleteOverwritesNextOwner` | libs/common/src/idempotency/redis-idempotency.store.ts:104-115 | past the lease, `complete` overwrites the next owner's lock and answers true |
| `Idempotency.StalledReleaseAdmitsThird` | libs/common/src/idempotency/redis-idempotency.store.ts:119-138 | past the lease, `release` deletes the next owner's lock, and a third acquires during that one's lease |
| `IdempotencyStore.RedisIdempotencyStore.Acquire` | libs/common/src/idempotency/redis-idempotency.store.ts:30-80 | the retry loop is the specified acquire run, with the instants it read |
| `IdempotencyStore.RedisIdempotencyStore.Complete` | libs/common/src/idempotency/redis-idempotency.store.ts:83-116 | GET, others, SET: the split complete |
| `IdempotencyStore.RedisIdempotencyStore.Release` | libs/common/src/idempotency/redis-idempotency.store.ts:119-138 | GET, others, DEL: the split release |
| `IdempotencyStore.RedisIdempotencyStore.Extend` | libs/common/src/idempotency/redis-idempotency.store.ts:141-161 | GET, others, PEXPIRE: the split extend |

## Left out

- Temporal's scheduler: back-off and timeouts, and retry counts other than those of `createOrder`. Payment
  activities may have any number of overlapping attempts. Every other call has one fate that stands for all
  its attempts: those of the order service may be repeated without another effect, and those of the inventory
  service are assumed to have rolled back.
- Shipments: a shipment repeated after a lost acknowledgement inserts one more row than are counted here;
  only whether there is one matters to the claims.
- The circuit breaker: an open one is a call that never reached Stripe.
- Stripe beyond its idempotency keys: key expiry, and an unsettled intent or refund that settles later.
- Missing prices: the source's total becomes NaN and the insert is rejected; here creation fails.
- `cancel_reason`, addresses, e-mails, user ids, tracking codes and all logging: no decision reads them.
- `validateProducts` and `getProductPrices`: their answers are parameters of the place workflow.
- The `updateOrderStatus` RPC of the order service: it sets any status without a check, so no claim about
  statuses holds beside it.
- Splitting an inventory transaction into its row updates: rests on the database's isolation.
- Two cancel workflows of one order at the same time: one order has one cancel run here. What the second
  would do to the stock is in `CancelGate.SecondCancelGivesBackTwice`.
- Platform.StepKeepsInv: for actions that are `Platform.Fit` only, because a negative quantity, or an unfit
  cancel that the gate admits, breaks the invariant (`CancelGate.CancelBreaksIff` says when it does harm).
- Platform.Reachable: for runs of such actions only, for the same reason.
- Workflows.CancelOrder: a request that the gate admits must be fit, for the same reason.
- Starting a workflow failing, and the RPC replies built around it.
- Product, brand, category, tag, user and shipping services, authentication and messaging: no hard state.
