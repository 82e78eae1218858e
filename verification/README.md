# Stock, money and points of the POS backend

This project models the bookkeeping at the centre of the point-of-sale backend and proves what
its ledgers and running totals owe one another.  Services are transactions: each commits wholly
or leaves everything as it was.  CHECK and UNIQUE constraints of the schema are guards that abort
a transaction.  Money is in cents, ids are positions in their tables, clocks, password checks
and OCR results are inputs.

| part | files |
|---|---|
| results, sums, ledgers, order statuses | `Basics`, `Sums`, `RunningLedger`, `OrderWorkflow` |
| stock services as functions on a database value | `StockBooks`, `StockData`, `OrderStock`, `TransferStock`, `PurchaseStock`, `ReturnStock` |
| runs of the stock services: invariant and theorems | `StockRuns`, `StockTheorems` |
| what each service does to every table, told without the functions it is made of | `StockEffects`, `TransferEffects`, `PurchaseEffects`, `SettlementEffects` |
| the stock services as methods that update tables in place, line by line | `StockStore` |
| the same postings as interleaved SQL statements under row locks, cancellations that race, and returns and receipts beside them | `RowLocks`, `RowLockTheorems`, `CancelRace`, `AbsoluteWrites` |
| checkout, payments, refunds, points, slips | `Settlement`, `SettlementRuns`, `SettlementTheorems`, `PaymentBound`, `TillStore` as methods, and `CheckoutRace` for calls that overlap |
| fraud score and the slip decision | `FraudScore` |
| usernames, document numbers, lockout | `Decimal`, `Usernames`, `DocumentNumbers`, `Lockout` |
| the financial report | `GroupBy`, `FinancialReport` |
| redaction of event data | `Redaction` |

The in-place methods (`StockStore.Store`, `TillStore.Register`, `DocumentNumbers.Sequences`,
`Lockout.User`) are proved to leave exactly the state that the functions give, and to leave the
old state when they fail; the theorems are about those functions, over every run, and
`Store.Serve` and `Register.Serve` carry them over to any sequence of calls.

## What the proofs found

- A negative order total makes checkout *raise* the customer's balance when points are redeemed
  (`SettlementTheorems.CheckoutAddsUp`: redeemed is negative exactly then;
  `SettlementTheorems.NegativeTotalRaisesPoints` is such a run).
- Approving a verified slip again after the order was completed and refunded counts the refunded
  money as paid; the bound on `amount_paid` breaks on exactly such steps
  (`PaymentBound.BoundedExactlyWhenCovered`, `PaymentBound.ReapprovalRestoresARefundedPayment`).
- An order settled partly with points can be completed exactly when the payments alone cover its
  total (`SettlementTheorems.CompletesAfterCheckout`, `SettlementTheorems.PartRedeemedStaysIncomplete`).
- A slip always finds its own row in the reference lookup, so `verify_slip` never verifies one and
  never records a payment (`FraudScore.OwnRowIsFound`, `SettlementTheorems.SubmissionsNeverPay`);
  with both a date and a time in the slip it raises a TypeError.
- A transfer receipt is refused for damage without received units in the same line, and for damage
  above the balance that the line leaves (`StockTheorems.ReceiptAcceptedExactly`).
- A purchase order becomes `received` from the lines of the last receipt alone, whatever else is
  open (`StockTheorems.ReceivedMeansNothingOpen`, `StockTheorems.OneItemMarksReceived`); two part deliveries of the last open item in one receipt
  leave it marked partly received with nothing open (`StockTheorems.SplitDeliveryStaysPartly`).
- The idempotency key is unique across organisations although it is looked up within one, and an
  empty key is stored without ever being looked up (`StockTheorems.KeyIsGlobal`,
  `StockTheorems.ForeignKeyRefuses`).
- On PostgreSQL `adjust_inventory` can only add stock: the CHECK on the row its upsert proposes
  refuses every negative adjustment (`ReturnStock.AdjustmentsOnlyAdd`).
- Under interleaving the balance stays right but `quantity_before` may be stale; the movements chain
  exactly when no overtaken transaction commits (`RowLockTheorems.StaleReadBreaksTheChain`,
  `RowLockTheorems.ChainsUnlessOvertakenCommits`).
- Two concurrent cancellations of one order both restore its stock
  (`CancelRace.BothCancel`, `CancelRace.RestoresOnceUnlessOverlapped`).
- Two overlapping checkouts of one order both take payment, and calls that overlap lose updates of
  the points balance (`CheckoutRace.BothCharge`, `CheckoutRace.ChargedOnceUnlessOverlapped`,
  `CheckoutRace.PointsDepartByWhatWasMissed`).
- Returns and transfer receipts write absolute balances, so they lose what others commit to the row
  meanwhile (`AbsoluteWrites.ReturnOverwritesSale`, `AbsoluteWrites.BalancesDepartByWhatWasMissed`).
- A new Google account is refused when the first free username belongs to a deleted user
  (`Usernames.CreateUser`, `Usernames.DeletedNameBlocks`).
- A branch whose code is `PO`, `REC`, `TRF`, `RET` or `REF` prints order numbers that meet the
  numbers of that document (`DocumentNumbers.NumbersMeetAcrossTablesExactly`).

Two places where code and documentation disagree follow the code: transfers use the statuses
`pending` and `completed`, which `app/db/models.py:664` forbids, and the ledger equality of
`PHASE_1_OUTPUT.md:1678` holds for all movements but those of type `damage`.

## Model

| member | source | states |
|---|---|---|
| StockTheorems.LedgerAlwaysAgrees | PHASE_1_OUTPUT.md:1678 | after any run of all stock services each balance is the sum of its non-damage movements and the latest `quantity_after`, is not negative, and the movements chain |
| StockTheorems.StockIsConserved | app/domains/transfers/service.py:118-310 | after any run, stock on hand over all branches plus stock in transit is what sales, adjustments, purchases and returns brought in |
| StockTheorems.TransfersConserve | app/domains/transfers/service.py:18-310 | no transfer step, successful or not, changes stock on hand plus in transit of any product |
| StockTheorems.TransfersStayWithinRequest | app/domains/transfers/service.py:118-310 | after any run received + damaged <= shipped <= requested on every item, and a cancelled transfer shipped nothing |
| StockTheorems.ReceiptAcceptedExactly | app/domains/transfers/service.py:192-291 | a receipt of a shipped transfer is accepted exactly when every line names an item, no item reports more over all lines than was shipped, each damaged line also receives and its damage is at most the balance with the credits up to it, and no missing row is credited twice |
| TransferStock.ReceivesExactlyWhenCovered | app/domains/transfers/service.py:210-283 | the same of the receive loop, from any session |
| StockTheorems.DamageAloneIsRefused | app/domains/transfers/service.py:263-280 | in particular a line of damage with nothing received always fails, whoever asks |
| StockTheorems.OneOrderPerKey | app/domains/orders/service.py:79-85 | after any run two orders never share an idempotency key |
| StockTheorems.OrdersPersist | app/domains/orders/service.py:71-216 | orders keep their place, owner, key and lines through any run and stay cancelled once cancelled |
| StockTheorems.ReplayReturnsTheFirstOrder | app/domains/orders/service.py:79-85 | a request sent again with its key, after any run, returns the first order and changes nothing |
| StockTheorems.KeyIsGlobal | app/db/models.py:866-873 | after any run, a request that would pass without its key fails exactly when another organisation's order carries the key, or any order an empty key, and then by the UNIQUE constraint |
| StockTheorems.ForeignKeyRefuses | app/db/models.py:866-873 | a run of one organisation after which another's valid request with the same key is refused |
| StockTheorems.NeverCancelledTwice | app/domains/orders/service.py:349-401 | after a cancellation no later cancellation of the order succeeds, in any run |
| StockTheorems.OrderMovementsSettle | app/domains/orders/service.py:171-196 | while tracking is not edited, an order's movements for a product sum to minus the tracked quantity, or to 0 once cancelled |
| StockTheorems.CancelUndoesCreate | app/domains/orders/service.py:349-401 | cancelling a just placed order succeeds and restores every balance |
| StockTheorems.ReceiptsAgreeWithOrders | app/domains/purchases/service.py:227-344 | after any run received quantities sum to the receiving lines, received <= ordered, and a draft or cancelled order has no receiving line |
| StockTheorems.LotsAgreeWithReceipts | app/domains/purchases/service.py:264-300 | after any run a lot's quantity is the sum of the receiving lines, and of the purchase movements, that point at it |
| StockTheorems.ReceivedStatusExactly | app/domains/purchases/service.py:332-339 | a receipt marks the order received exactly when each of its lines brings all that was open on its item |
| StockTheorems.ReceivedMeansNothingOpen | app/domains/purchases/service.py:257-339 | a receipt that marks the order received leaves nothing open exactly when it lists every open item |
| StockTheorems.OneItemMarksReceived | app/domains/purchases/service.py:332-339 | a receipt of one line that fills its item is accepted and marks the order received while another item stays open |
| StockTheorems.SplitDeliveryStaysPartly | app/domains/purchases/service.py:332-339 | two deliveries that together fill the last open item are accepted and leave the order marked partly received with nothing open |
| StockTheorems.OpenAfterwards | app/domains/purchases/service.py:258-339 | what is still open on an item after a receipt, listed or not |
| OrderStock.SellsExactlyWhenFillable | app/db/repositories/orders/order_repository.py:98-111 | the guarded decrements of an order all succeed exactly when, per product, the rows hold what all lines together ask |
| OrderStock.SellLinesPosts | app/domains/orders/service.py:171-196 | the item loop's effect is entering one sale movement per tracked line |
| OrderStock.RestoreLinesPosts | app/domains/orders/service.py:365-388 | the restore loop's effect is entering one adjustment movement per tracked line |
| TransferStock.ShipsExactlyWhenCovered | app/domains/transfers/service.py:133-177 | a shipment succeeds exactly when over all its lines no item exceeds its request and no product the source stock |
| TransferStock.ShipAllMoves | app/domains/transfers/service.py:133-177 | shipping moves from the books to transit exactly what it posts |
| TransferStock.ReceiveAllMoves | app/domains/transfers/service.py:208-283 | receiving moves from transit to the books exactly what it posts |
| PurchaseStock.AcceptedExactlyWithinOrder | app/domains/purchases/service.py:258-330 | a receipt passes exactly when every line names an item and no item, over all lines, receives more than is open |
| PurchaseStock.MarkedReceivedExactly | app/domains/purchases/service.py:257-339 | the all-received flag of the loop, as a condition on the lines before it |
| PurchaseStock.StoreAllInStep | app/domains/purchases/service.py:258-330 | items, receiving lines, lots and movements move in step for any line list |
| ReturnStock.ReturnAcceptedExactly | app/domains/returns/service.py:46-111 | a return passes exactly when each line stays within its order item and no missing inventory row is created twice |
| ReturnStock.UpsertsExactly | app/db/repositories/inventory/inventory_repository.py:20-36 | the upsert, which checks the proposed row, then the conflict, then the stored row, passes exactly for amounts that are not negative and adds them |
| ReturnStock.AdjustmentsOnlyAdd | app/domains/inventory/service.py:79-131 | so an adjustment passes exactly when it is positive, for a live, active, tracked product and a known branch, adds itself to the balance, and never ends in the insufficient-stock error |
| ReturnStock.ReturnAllCredits | app/domains/returns/service.py:46-111 | the item loop's effect is the sequence of its restocks |
| StockEffects.OrderIsAsRequested | app/domains/orders/service.py:86-216 | a new order has the request's owner, branch, key and lines, is pending, and its total is the sum of price times quantity less the line discounts and the order discount |
| StockEffects.OrderTakesStock | app/domains/orders/service.py:154-196 | every row of the branch loses what the lines ask of its product when tracked, all other rows keep their balance, and each tracked line is one sale movement of its quantity |
| StockEffects.OrderPlacedExactly | app/domains/orders/service.py:86-216 | a request without a key is placed exactly when the branch is the organisation's, each line is allowed, and the rows of the branch cover all lines together |
| StockEffects.CancellationRestoresStock | app/domains/orders/service.py:349-401 | every row of the order's branch regains what its lines asked of it, one adjustment per tracked line, and of the order only the status changes |
| StockEffects.CancelledExactly | app/domains/orders/service.py:349-401 | an order is cancelled exactly when it is the organisation's, pending, confirmed or preparing, and each tracked product has its row |
| StockEffects.AdjustmentAddsStock | app/domains/inventory/service.py:79-131 | an accepted adjustment adds itself to the one row it names, in one movement |
| StockEffects.ReturnPutsBackStock | app/domains/returns/service.py:79-111 | every row of the branch gains the restocked quantities of its product, one return movement for each restocked line, and nothing else changes |
| StockEffects.ReturnPassesExactly | app/domains/returns/service.py:16-138 | a return passes exactly when order and branch are there, each line names the product and at most the quantity of its order item, and no missing row comes twice |
| StockEffects.ReturningEverythingRefundsThePrice | app/domains/returns/service.py:60-78 | a return of every line in full refunds the sum of price times quantity |
| TransferEffects.DraftIsAsRequested | app/domains/transfers/service.py:18-64 | a transfer is drafted exactly between two different branches of the organisation for known products; source, destination and items are those asked for |
| TransferEffects.StatusIsAllThatChanges | app/domains/transfers/service.py:96-310 | approval and cancellation: when they are accepted, and that they write only the status |
| TransferEffects.ShippedExactly | app/domains/transfers/service.py:118-189 | a transfer ships exactly when it is the organisation's, approved, no item exceeds its request, and the rows of its source branch cover the lines |
| TransferEffects.ShippingTakesFromTheSource | app/domains/transfers/service.py:150-177 | every row of the source branch loses what is shipped of its product and no other row changes; one movement per line, counted on the items, and the transfer is in transit |
| TransferEffects.ReceivingAddsToTheDestination | app/domains/transfers/service.py:227-283 | every row of the destination branch gains what is received of its product and no other row changes; receipts and damage are recorded line by line and counted on the items |
| PurchaseEffects.DraftIsAsRequested | app/domains/purchases/service.py:99-147 | an order is drafted exactly for live products of the organisation, with the items asked for |
| PurchaseEffects.RevisionIsAsRequested | app/domains/purchases/service.py:153-198 | exactly a draft can be revised, for such products, and all its items are replaced by those asked for |
| PurchaseEffects.StatusIsAllThatChanges | app/domains/purchases/service.py:204-365 | approval and cancellation take exactly a draft of the organisation and write only the status |
| PurchaseEffects.ReceiptStoresAtItsBranch | app/domains/purchases/service.py:277-316 | every row and every lot of the receipt's branch gains the quantities delivered of its product and lot number, no other row or lot changes; one movement and one receiving line for each line |
| PurchaseEffects.ReceiptCountsOnItems | app/domains/purchases/service.py:227-344 | each item's received count grows by its lines, and nothing else of the order changes but its status |
| PurchaseEffects.ReceiptAcceptedExactly | app/domains/purchases/service.py:227-344 | a receipt passes exactly when the order is the organisation's and open, the branch exists, and no item receives more than is open over all lines |
| StockRuns.ApplyKeeps | app/domains/orders/service.py:71-401 | every stock service call keeps the invariant that ties balances, movements, orders, transfers, receipts and lots |
| StockRuns.RunKeeps | app/domains/orders/service.py:71-401 | so does every run |
| StockStore.Store.constructor | app/db/models.py:370-400 | a new database has no stock and no movements |
| StockStore.Store.SellLoop | app/domains/orders/service.py:129-196 | the loop over request lines computes the specified books and the subtotal, or fails with no effect |
| StockStore.Store.Admit | app/domains/orders/service.py:86-115 | the checks before any stock is touched |
| StockStore.Store.CreateOrder | app/domains/orders/service.py:71-216 | the whole new state and the id, or the error and the old state |
| StockStore.Store.CancelOrder | app/domains/orders/service.py:349-401 | the whole new state, or the error and the old state |
| StockStore.Store.AdjustInventory | app/domains/inventory/service.py:79-131 | the same for manual adjustments |
| StockStore.Store.CreateReturn | app/domains/returns/service.py:16-138 | the same for returns, with the refund total |
| StockStore.Store.CreateTransfer | app/domains/transfers/service.py:18-64 | the same for drafting a transfer |
| StockStore.Store.ApproveTransfer | app/domains/transfers/service.py:96-115 | the same for approving it |
| StockStore.Store.CancelTransfer | app/domains/transfers/service.py:294-310 | the same for cancelling it |
| StockStore.Store.ShipTransfer | app/domains/transfers/service.py:118-189 | the same for shipping it |
| StockStore.Store.ReceiveTransfer | app/domains/transfers/service.py:192-291 | the same for receiving it, damage included |
| StockStore.Store.CreatePurchase | app/domains/purchases/service.py:153-198 | the same for a purchase order |
| StockStore.Store.UpdatePurchase | app/domains/purchases/service.py:99-147 | the same for editing a draft |
| StockStore.Store.ApprovePurchase | app/domains/purchases/service.py:204-221 | the same for approving it |
| StockStore.Store.CancelPurchase | app/domains/purchases/service.py:350-365 | the same for cancelling it |
| StockStore.Store.StoreLoop | app/domains/purchases/service.py:257-330 | the receive loop computes the specified books, items, lots and flag |
| StockStore.Store.ReceivePurchase | app/domains/purchases/service.py:227-344 | the whole new state, or the error and the old state |
| StockStore.Store.TakeDelivery | app/domains/transfers/service.py:210-283 | one line of a transfer receipt, on the session's copies |
| StockStore.Store.DeductStock | app/db/repositories/orders/order_repository.py:98-111 | one guarded decrement and its movement |
| StockStore.Store.Serve | app/domains/orders/service.py:71-401 | any sequence of calls leaves the store as the run of the specification does, and keeps the invariant |
| RowLocks.InterleavingsKeepTheBooks | app/db/repositories/orders/order_repository.py:97-123 | under any interleaving of statements, commits and aborts, committed balances are non-negative and equal the committed movements |
| RowLocks.CommittedStockIsSafe | app/db/repositories/orders/order_repository.py:97-123 | in particular from an idle database with sound books |
| RowLockTheorems.SoloIsSerial | app/domains/orders/service.py:171-196 | a transaction alone, statement by statement, leaves what the serial model leaves |
| RowLockTheorems.ServiceAloneIsSerial | app/domains/orders/service.py:171-196 | each of the five services, played alone statement by statement, leaves the books of its serial model |
| RowLockTheorems.StaleReadBreaksTheChain | app/db/repositories/orders/order_repository.py:87-111 | a schedule in which `quantity_before` is stale and the movements no longer chain |
| RowLockTheorems.ChainsUnlessOvertakenCommits | app/domains/orders/service.py:171-196 | under any interleaving the movements chain exactly when no transaction commits after one of its UPDATEs worked on another balance than it had read |
| CancelRace.CancellationsAddUp | app/domains/orders/service.py:349-390 | over any interleaving each cancellation of an order that commits restores its whole demand once more |
| CancelRace.RestoresOnceUnlessOverlapped | app/domains/orders/service.py:357-388 | an order's movements end at 0 or below exactly when no cancellation commits that was under way when another one committed |
| CancelRace.OneAtATimeRestoresOnce | app/domains/orders/service.py:357-388 | if no cancellation starts while another is under way, the order is restored at most once whatever else interleaves |
| CancelRace.BothCancel | app/db/repositories/orders/order_repository.py:174-180 | from a run that sells 2 of 5 units, two overlapping cancellations leave 7 on hand and the order's movements at plus 2 |
| AbsoluteWrites.BalancesDepartByWhatWasMissed | app/domains/returns/service.py:79-111 | with returns and transfer receipts interleaved too, balances stay non-negative and depart from their movements by exactly what the write-backs missed of the rows they overwrote |
| AbsoluteWrites.AgreesExactlyWhenNothingIsMissed | app/domains/transfers/service.py:227-261 | so a balance is the sum of its movements exactly when what was missed cancels out |
| AbsoluteWrites.NothingMissed | app/domains/transfers/service.py:227-261 | nothing is missed if every write-back finds the rows as they were loaded |
| AbsoluteWrites.ReturnOverwritesSale | app/domains/returns/service.py:86 | a schedule in which a return undoes a sale: 7 on hand, movements summing to 4 |
| OrderWorkflow.SettledStays | app/domains/orders/service.py:31-42 | no status move leads from a settled status back to a checkoutable one |
| SettlementTheorems.PointsAlwaysAgree | PHASE_1_OUTPUT.md:1680 | after any run each points balance is the sum of its transactions and the latest `points_after`, not negative, and the transactions chain |
| SettlementTheorems.EarnsAtMostOnce | app/domains/slip_verify/service.py:389-415 | after any run an order earned points at most once, by checkout and slips together |
| SettlementTheorems.CheckoutAddsUp | app/domains/orders/service.py:453-551 | paid - change + redeemed is the total, change >= 0, and redeemed + earned is the whole baht of the total, exactly unless the total is negative and nothing was redeemed |
| SettlementTheorems.CheckoutMovesPoints | app/domains/orders/service.py:464-550 | only the order's customer changes: old - redeemed + earned, never negative |
| SettlementTheorems.CompletesAfterCheckout | app/domains/orders/service.py:576-581 | right after checkout an order completes exactly when the payments alone cover the total, that is, when the change covers the redeemed points |
| SettlementTheorems.NegativeTotalRaisesPoints | app/domains/orders/service.py:469-489 | a run after which redeeming one of 10 points leaves 15 |
| SettlementTheorems.PartRedeemedStaysIncomplete | app/domains/orders/service.py:576-581 | a run after which a paid order cannot be completed |
| SettlementTheorems.StatusMoves | app/domains/orders/service.py:591-622 | every settlement step keeps the bill's owner, customer and total and moves its status only along the workflow |
| SettlementTheorems.CompletedWasPaid | app/domains/orders/service.py:567-588 | a step completes an order only if it was fully paid, and moves no money |
| SettlementTheorems.SettledForever | app/domains/orders/service.py:404 | an order once settled stays so in every run |
| SettlementTheorems.NeverChargedTwice | app/domains/orders/service.py:437-446 | after a checkout and any run, another checkout changes nothing |
| SettlementTheorems.CheckedOutAtMostOnce | app/domains/orders/service.py:437-446 | in any run an order has at most one effective checkout |
| CheckoutRace.ChargedOnceUnlessOverlapped | app/domains/orders/service.py:433-446 | with overlapping calls an order is charged at most once exactly when no checkout charges it that was under way when it was charged |
| CheckoutRace.PointsDepartByWhatWasMissed | app/domains/loyalty/service.py:14-117 | with overlapping calls a points balance departs from its transactions by exactly what the finishing calls missed of the balances they overwrote |
| CheckoutRace.PointsAgreeExactlyWhenNothingIsMissed | app/domains/loyalty/service.py:14-117 | so it is their sum exactly when what was missed cancels out |
| CheckoutRace.ChainsUnlessOvertaken | app/domains/orders/service.py:464-550 | the transactions chain exactly when no call finishes on another balance than the one it has read |
| CheckoutRace.CallsFinish | app/domains/orders/service.py:412-564 | a call that was started can always finish |
| CheckoutRace.BothCharge | app/domains/orders/service.py:433-550 | a run and two overlapping checkouts of one order: two payments, a balance of 20, transactions summing to 30 |
| SettlementTheorems.SlipsSettle | app/domains/slip_verify/service.py:348-423 | over any run verified and rejected are absorbing and a slip's payment, once set, stays |
| SettlementTheorems.PaymentsAreNotShared | app/domains/slip_verify/service.py:372-384 | after any run no two slips share a payment |
| SettlementTheorems.ModeratingTwiceIsOnce | app/domains/slip_verify/service.py:348-366 | approving, or rejecting, twice in a row equals once on the whole state |
| SettlementTheorems.ApprovalPays | app/domains/slip_verify/service.py:367-388 | an effective approval leaves paid = total + change with change >= 0, and adds a payment only to a slip without one |
| SettlementTheorems.AutoVerifiedPaysTheTotal | app/domains/slip_verify/service.py:190-202 | a slip the decision verifies adds one payment of exactly the order's total |
| SettlementRuns.ApplyKeeps | app/domains/orders/service.py:412-622 | every settlement call keeps the invariant that ties points, bills, slips, payments and earnings |
| SettlementRuns.RunKeeps | app/domains/orders/service.py:412-622 | so does every run |
| PaymentBound.StepForgets | app/domains/orders/service.py:521-522 | payments and refunds keep `amount_paid` in step with their rows; checkout and first approval let go of exactly what was paid before, re-approval of all but the slip's amount |
| PaymentBound.PaidFollowsItsRows | app/domains/payments/service.py:18-109 | over any run without checkout or approval of an order its `amount_paid` moves by exactly payments less refunds |
| PaymentBound.StepBounded | app/domains/payments/service.py:66-109 | from a state with 0 <= paid <= payments - refunds, a step breaks the bound exactly when it re-approves an uncovered slip |
| PaymentBound.BoundedExactlyWhenCovered | app/domains/payments/service.py:18-109 | over a run the bound holds throughout exactly when every re-approval is covered |
| PaymentBound.RefundsNeverExceedPayments | app/domains/payments/service.py:79-98 | over any run without a re-approval, refunds never exceed payments |
| PaymentBound.UnrefundedIsCovered | app/domains/slip_verify/service.py:367-388 | an order without refunds covers every slip of its own |
| PaymentBound.ReapprovalRestoresARefundedPayment | app/domains/slip_verify/service.py:385 | a run after which an order counts as paid although its only payment was refunded |
| TillStore.Register.Take | app/domains/orders/service.py:499-518 | the payment loop accepts exactly positive amounts, records each, and sums them |
| TillStore.Register.ApplyRedemption | app/domains/orders/service.py:459-492 | the redemption on the session's copies is the specified one |
| TillStore.Register.SettleBill | app/domains/orders/service.py:494-553 | payments, amounts, points earned and status, or the error and the old state |
| TillStore.Register.Checkout | app/domains/orders/service.py:412-564 | the whole new state of a checkout, or the error and the old state |
| TillStore.Register.EarnPoints | app/domains/loyalty/service.py:14-63 | the same for earning points |
| TillStore.Register.RedeemPoints | app/domains/loyalty/service.py:66-117 | the same for redeeming points |
| TillStore.Register.Pay | app/db/repositories/slip_verify/slip_verify_repository.py:133-163 | the payment row and its effect on paid and change |
| TillStore.Register.CreatePayment | app/domains/payments/service.py:18-51 | the same for a payment |
| TillStore.Register.ProcessRefund | app/domains/payments/service.py:66-109 | the same for a refund |
| TillStore.Register.RecordSlip | app/domains/slip_verify/service.py:188-211 | the slip row and, for a verified slip, its payment |
| TillStore.Register.VerifySlip | app/domains/slip_verify/service.py:118-211 | the row's own lookup, the decision on the parsed slip, then its row and payment |
| SettlementTheorems.SubmissionsNeverPay | app/domains/slip_verify/service.py:118-211 | whatever the tables hold, a submission changes no bill, payment or points and records no verified slip |
| TillStore.Register.Moderate | app/domains/slip_verify/service.py:324-426 | approval or rejection: the whole new state, or the error and the old state |
| TillStore.Register.CompleteOrder | app/domains/orders/service.py:567-588 | the same for completion |
| TillStore.Register.UpdateStatus | app/domains/orders/service.py:591-622 | the same for a status update |
| TillStore.Register.CancelOrder | app/domains/orders/service.py:349-390 | the same for the status write of a cancellation |
| TillStore.Register.Serve | app/domains/orders/service.py:412-622 | any sequence of calls leaves the register as the run of the specification does, and keeps the invariant |
| FraudScore.Assess | app/services/fraud_detection.py:60-193 | the signals are exactly the raised ones, each once, with their capped sum and level |
| FraudScore.LevelIsMonotone | app/services/fraud_detection.py:13-25 | more signals never score lower, the level is monotone, the score lies in 0..1 |
| FraudScore.TrustedExactly | app/services/fraud_detection.py:13-25 | trusted exactly with no signal or one of the two mild ones |
| FraudScore.Decide | app/domains/slip_verify/service.py:153-188 | the status of a slip from exactly the raised signals, or the crash on date and time |
| FraudScore.VerifiedMeansComplete | app/domains/slip_verify/service.py:153-202 | a verified slip has amount, reference, sender, receiver and date, and its amount is the total |
| FraudScore.OwnRowIsFound | app/domains/slip_verify/service.py:118-151 | whatever the table holds, the lookup that follows the insert keeps every slip from being verified |
| Usernames.Allocate | app/domains/auth/service.py:317-323 | the first free candidate, after at most one probe more than there are names, within 100 characters |
| Usernames.CreateUser | app/db/models.py:112 | the insert fails exactly when the first candidate free among live users is a deleted user's name |
| Usernames.DeletedNameBlocks | app/domains/auth/service.py:321-323 | names of a live and a deleted user for which the insert fails |
| Usernames.CandidatesDiffer | app/domains/auth/service.py:321-323 | candidates with different suffixes differ |
| Usernames.CandidateFits | app/domains/auth/service.py:323 | a candidate fits the column exactly while its suffix has at most 99 digits |
| DocumentNumbers.ParseOfPrint | app/shared/ordering.py:24-61 | a printed number parses back to prefix, day and sequence, whatever dashes and length |
| DocumentNumbers.PrintOfParse | app/shared/ordering.py:24-61 | what parses is exactly what was printed |
| DocumentNumbers.CountersCount | app/shared/ordering.py:7-21 | a counter grew by exactly the calls that drew from it |
| DocumentNumbers.NumbersNeverRepeat | app/shared/ordering.py:28-61 | over any run on any codes and days no table is given a number twice |
| DocumentNumbers.NumbersMeetAcrossTablesExactly | app/shared/ordering.py:28-61 | numbers of different tables meet exactly for a branch coded like the other prefix |
| DocumentNumbers.Sequences.NextSequence | app/shared/ordering.py:7-21 | the insert-or-increment returns the new value and changes that counter alone |
| DocumentNumbers.Sequences.Generate | app/shared/ordering.py:28-61 | the number and the counters after it, or the error and the old counters |
| Lockout.User.Login | app/domains/auth/service.py:92-112 | outcome and account after a login attempt |
| Lockout.AtMostFiveGuesses | app/domains/auth/service.py:92-105 | in any 30 minutes without a login at most five wrong passwords are checked |
| Lockout.FailuresStayLow | app/domains/auth/service.py:98-105 | the failure count stays between 0 and 4 |
| Lockout.FiveThenRefused | app/domains/auth/service.py:28-29 | five failures at once meet the bound, and the next try is refused exactly while 30 minutes have not passed |
| FinancialReport.GetFinancialReport | app/domains/reports/service.py:216-277 | gross, discounts, tax, refunds and net of the daily rows each sum to the header, and the header to the reported orders and refunds |
| FinancialReport.RefundDaysAreOrderDays | app/db/repositories/reports/report_repository.py:222-244 | the day of every reported refund is a day of some reported order |
| GroupBy.GroupsPartition | app/db/repositories/reports/report_repository.py:194-219 | grouped sums add up to the sum over all rows the filter keeps |
| GroupBy.GroupsAre | app/db/repositories/reports/report_repository.py:194-219 | groups are listed once each, in order, and are those of the kept rows |
| Redaction.RedactExactly | rabbitmq/redaction.py:48-59 | redaction replaces every value under a sensitive key at any depth and changes nothing else |
| Redaction.RedactAlongPaths | rabbitmq/redaction.py:48-59 | below a sensitive key nothing but the marker can be reached; elsewhere every value is redacted in place |
| Redaction.UnchangedExactly | rabbitmq/redaction.py:48-59 | redaction is idempotent and the identity exactly on trees whose sensitive keys hold the marker |
| Redaction.AcceptsAlike | rabbitmq/schemas.py:41-54 | the check depends on nothing under sensitive keys |
| Redaction.MetadataIsData | rabbitmq/schemas.py:82-96 | an accepted event's metadata is its data, and redaction does not make a refused event acceptable |
| SettlementEffects.EarningAddsPoints | app/domains/loyalty/service.py:14-63 | exactly for a customer of the organisation, whose balance becomes old + p with one entry of +p; nothing else changes |
| SettlementEffects.RedeemingTakesPoints | app/domains/loyalty/service.py:66-117 | exactly for a customer of the organisation with at least p points, whose balance becomes old - p with one entry of -p; nothing else changes |
| SettlementEffects.SettledOrderIsNotChargedAgain | app/domains/orders/service.py:433-446 | a keyed checkout of a settled order answers without any change, an unkeyed one or one of a cancelled order is refused |
| SettlementEffects.CheckoutRecords | app/domains/orders/service.py:453-553 | a checkout appends one payment per amount and the points entries of what it redeemed and earned, and touches no other order, refund or slip |
| SettlementEffects.RedeemsWhatFits | app/domains/orders/service.py:469-489 | what is redeemed is what was asked for, or the whole baht of the total if that is less |
| SettlementEffects.PaymentIsAdded | app/domains/payments/service.py:18-51 | exactly for a positive amount on an order that is not cancelled: the payment is recorded and added to what was paid, and an overpayment becomes change |
| SettlementEffects.RefundIsTakenOff | app/domains/payments/service.py:66-109 | exactly for a positive amount of at most what was paid: the refund is recorded and taken off what was paid |
| SettlementEffects.RejectionMarksTheSlip | app/domains/slip_verify/service.py:348-366 | exactly unless the slip is verified or a duplicate, and only its status changes |
| SettlementEffects.ApprovalRecords | app/domains/slip_verify/service.py:367-423 | an effective approval pays the order with the slip's amount, verifies the slip and gives it a payment, and the customer who has not earned on the order earns its whole baht |
| SettlementEffects.ApprovedExactly | app/domains/slip_verify/service.py:324-423 | a slip is approved exactly while pending, in review or verified, its amount covers the order, and the customer who would earn is there |
| SettlementEffects.SubmissionRecords | app/domains/slip_verify/service.py:188-211 | a submission records the slip as judged, with a payment exactly when it was verified |
| SettlementEffects.AdvancingWritesTheStatus | app/domains/orders/service.py:591-622 | a status moves exactly one step along the workflow, to completed only once fully paid, and nothing else changes |
| SettlementEffects.ClosingWritesTheStatus | app/domains/orders/service.py:349-588 | when completion and cancellation are accepted, and that they write only the status |
| FraudScore.LoneSignalLevel | app/services/fraud_detection.py:29-52 | which level each signal has on its own |
| FraudScore.AmountSignals | app/services/fraud_detection.py:60-193 | an amount signal is raised exactly when the slip shows another amount than the total, and which |
| FraudScore.TransactionAge | app/services/fraud_detection.py:60-193 | a transfer is old from the eighth day after its own on and in the future before it |
| Usernames.BaseKeepsTheName | app/domains/auth/service.py:317-318 | a short name is kept, a long one keeps its first 80 characters |
| DocumentNumbers.NumbersCountTheirDocuments | app/shared/ordering.py:28-61 | over any run a number reads back as its generator's prefix, its day, and one more than that generator has printed that day |
| Lockout.LoginForgetsFailures | app/domains/auth/service.py:107-112 | after a login, whatever came before, up to four wrong passwords leave the right one accepted |
| Lockout.LockEndsOnTime | app/domains/auth/service.py:92-105 | tries during a lock do not prolong it: the right password logs in as soon as 30 minutes have passed since the fifth failure |
| FinancialReport.PeriodsAddUp | app/db/repositories/reports/report_repository.py:41-57 | every column of a period is that of its days up to any day plus that of the days after |
| FinancialReport.BranchesAddUp | app/db/repositories/reports/report_repository.py:41-57 | every column without a branch filter is the sum over all branches |
| FinancialReport.OthersDoNotCount | app/db/repositories/reports/report_repository.py:41-57 | orders of other organisations and orders not completed count nothing |
| Redaction.SpellingsAreSensitive | rabbitmq/redaction.py:43-45 | a sensitive key is recognised in any letter case, with dashes for underscores, and between blanks |

## Left out

- `reserved` of an inventory row: no modelled service changes it, so `reserved <= on_hand` is `on_hand >= 0`.
- `lot_id` on ship and transfer items, notes, users, suppliers and times: carried along, no branch depends on them.
- Returns and transfer receipts statement by statement: beside other transactions they load rows one by one and write all of them back at commit; their damage movements, which touch no balance, appear in the serial model only.
- Statuses read by concurrent transactions, but for cancellations and checkouts of one order: transfer and purchase status rows are read serially.
- Overlapping payments, refunds and slip approvals: an overlapping checkout or loyalty call sees order and customer as of its start, and the other settlement services run alone beside it.
- Deadlocks and lock waiting: a statement that would wait is not enabled, and a transaction may abort at any point.
- Orders appear once with their stock (`StockData`) and once with their money (`Settlement`); their statuses follow the same transition table, but the two are separate runs.
- Settlement.ApproveSlip: a bill whose customer row does not exist fails, which the foreign key already excludes.
- Refund rows of returns: only their total is computed; the separate refund service with pending refunds is not modelled.
- Cumulative limits on returns: the code compares each line with its order item alone, so no bound over several returns holds.
- The image, OCR and parsing steps of slip verification: their results are inputs.
- Rounding of floating-point amounts in purchase totals, return refunds and reports: amounts are exact cents.
- Purchase orders in status `submitted`: no service can store it under the status CHECK.
- Purchase order and receiving numbers printed by the purchase service from row counts; the shared generators are modelled.
- The 50-character width of the number columns themselves; the width of `doc_type` is modelled.
- Dictionary keys that are not strings, and duplicate keys, in event data.
- Rolled-back calls of the number generators: they leave no trace, so runs are of committed calls.
- Payment methods in the financial report, other reports, shifts, catalogue, users, roles, coupons, promotions, reviews, settings, addresses, kitchen items and pagination: no shared invariant.
