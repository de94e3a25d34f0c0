# Provena stock and money engine: a verified model

Provena is a marketplace: buyers fill carts, orders split into one sub-order per supplier, and money flows from the
buyer's charge to supplier payouts, with refunds, returns, disputes and courier deliveries working backwards. This
project models the engine behind that (`provena-api/apps`) in Dafny and proves what its parts promise one another.

The model has three connected parts.

**Stock.** `Inventory` is the stock table with its movement log. `StoreState`, `CartOps` and `OrderOps` give the
committed effect of every cart, sweep, checkout and order call on one set of tables; `ShopService` performs the same
calls in place (rows edited in loops, savepoints restored when a call raises) and is proved to commit exactly those
effects. `CartEffects` and `OrderEffects` say when each call succeeds and everything it leaves behind. `CartProofs`,
`OrderProofs` and `StoreRuns` prove the reservation balance, the order status and the stock on hand over every sequence
of calls, the expiry sweep being one transaction an item.

**Pricing.** Integer pence and exact rationals: `Rounding` (half-up for VAT, half-even elsewhere), `Allocation`
(largest remainder, at order and supplier level), `Pricing`, `PayoutSplit`, `Returns` and `CheckoutPreview`.
`Grouping` is the split of lines by supplier. `AllocationOptimality` shows the allocation is the closest possible.

**Protocols.** Each multi-phase call is a small-step system in which any number of callers claim in one transaction,
call a provider outside any transaction, and commit in another. Callers may crash between phases, a provider may fail,
answer with an error after acting, and webhooks may repeat and arrive in any order. The provider runs at most one
operation per idempotency key, for ever. `RefundLedger` is `initiate_refund` with `handle_refund`; `PayoutProtocol` is
`process_payout` with `reverse_payout_for_sub_order`; `ReturnRefund` is `process_return_refund` on top of the whole
refund ledger, restocking through `Inventory`; `Disputes` is `resolve_dispute` on top of the same ledger; `Delivery`
is the courier's booking and status events, with people cancelling or delivering the sub-order by hand meanwhile;
`DiscountUse` is the redemption limit under the code's row lock. `RefundLiberties`, `DisputeLiberties` and
`DeliveryLiberties` say exactly what those systems need of their surroundings. `RefundOutcomes`, `PayoutOutcomes`,
`ReturnOutcomes` and `DisputeOutcomes` say what undisturbed calls achieve, and when they can; `ReturnRetry` and
`DisputeRetry` when an abandoned one can be taken up again. `Runs` is what all of
them share: sequences of steps, and what can be reached. The classes in these modules perform each transaction in
place and are proved to do what the system's steps say.

**Results about code that does less than it says.** Where a promise does not hold of the code, the code is kept as it
is, a run that breaks the promise is given, and the exact condition under which it does hold is proved:

- Refunds can exceed the payment exactly when two live callers may share a key or a provider error may hide a refund;
  webhooks cannot make them. The books are exact in every run exactly when, besides, webhooks carry amounts and report
  only what was refunded by then.
- A payout marked FAILED "so it never is" paid is still paid exactly when a worker is already past its claim
  (or a transfer already went out unheard).
- A paid payout is reversed at most once exactly when every refund of its sub-order asks for the same amount, and
  within its net exactly when the different amounts add up to no more.
- A return is refunded at most once exactly when every caller asks for the same amount: a second caller that joined
  a claim outlives its release by the first, and the two refunds may together exceed the payment.
- A return whose refund went out but whose payout reversal failed can be finished by a retry exactly when the payment
  still takes refunds (and every line has units): once the webhook has reported a full refund, every retry is refused,
  and the return stays REFUNDING with its units never put back. Likewise a dispute whose refund was not filed yet.
- A dispute can be RESOLVED as rejected although its refund went out. From a new dispute this cannot happen exactly
  when there is one resolver at a time, nobody writes over a claim, and an error means nothing was refunded.
- A failed delivery's fee is lost for ever exactly when the row is terminal and no handler can still refund or reopen
  it: a handler that stops after writing FAILED leaves it so.
- The sub-order and the courier's row agree after every run exactly when nobody cancels or delivers by hand while the
  courier has the parcel, no two webhooks are read side by side, and no handler stops between writing DELIVERED and
  delivering; overlapping webhooks agree exactly when their events are compatible.
- A handler that stops there leaves the sub-order DISPATCHED, and its payout unqueued, until a person steps in: the
  delivery is out of the courier's reach exactly when the row is terminal and no handler can still deliver or reopen it.
- A courier job is created once exactly when no booking crashed between the courier's answer and the commit.
- A buyer's return request checks each line on its own, so a repeated line can return more than was ordered.
- `commission_rate or default`: a supplier on a zero rate is charged the default one, so pays nothing exactly when
  that fee rounds to nothing.

Four of these contradict comments in the source: `orders/services.py:571-573` (ignoring a later caller's amount
prevents a second charge for a different value), `orders/services.py:595-597` (a failed reversal re-runs on retry,
the buyer's refund being idempotent too), `payments/services.py:396` (an unpaid payout marked FAILED is never
paid) and `payments/services.py:386-387` (a repeated reversal reuses the same one). The model follows the code.

## Model

| member | source | states |
|---|---|---|
| Inventory.ReplayReconstructs | provena-api/apps/inventory/services.py:30-208 | from the movement rows alone: available is the sum of all but OUTBOUND, reserved is on-hand less available, every row's `quantity_after` is the running available |
| Inventory.CallKeepsExplained | provena-api/apps/inventory/services.py:30-208 | each of the six stock calls, when it commits, leaves every level reconstructible from its log |
| Inventory.CallSucceedsIff | provena-api/apps/inventory/services.py:30-208 | a stock call commits exactly when its quantity is sensible and neither available nor reserved stock would fall below zero |
| Inventory.CallMoves | provena-api/apps/inventory/services.py:30-208 | each call moves its variant's available and on-hand stock by its own gains, adds one row of its kind, and touches no other variant |
| Inventory.Inventory.ReceiveStock | provena-api/apps/inventory/services.py:30-63 | commits the receipt and its movement, or refuses a non-positive quantity and changes nothing |
| Inventory.Inventory.AdjustStock | provena-api/apps/inventory/services.py:66-94 | commits a signed adjustment, or refuses zero and anything that would leave stock negative |
| Inventory.Inventory.ReserveStock | provena-api/apps/inventory/services.py:107-132 | moves units from available to reserved, or refuses when too few are available |
| Inventory.Inventory.ReleaseReservation | provena-api/apps/inventory/services.py:135-157 | moves units back, or refuses when too few are reserved |
| Inventory.Inventory.DispatchStock | provena-api/apps/inventory/services.py:160-184 | takes reserved units out of the warehouse, or refuses when too few are reserved |
| Inventory.Inventory.ReturnStock | provena-api/apps/inventory/services.py:187-208 | puts returned units back on the shelf |
| StoreRuns.ReservedIsAccountedFor | provena-api/apps/marketplace/services.py:47-180 | in every reachable state, reserved stock of each variant is its cart reservations plus its PENDING and CONFIRMED order lines, each cart item holds its own quantity, and each order status is the closed form |
| StoreRuns.StepKeepsInv | provena-api/apps/orders/services.py:69-114 | every cart, sweep, checkout, order and stock call, committed or refused, keeps the balance |
| StoreRuns.NeverOnlyReserved | provena-api/apps/inventory/services.py:145-146 | from the balance, no call of any kind fails with "only N reserved" |
| StoreRuns.OrdersNeverMoveBack | provena-api/apps/orders/services.py:30-48 | over any run an order's status never moves back, and a DELIVERED or CANCELLED order never changes |
| StoreRuns.OnHandThroughTheDoor | provena-api/apps/inventory/services.py:30-208 | after any run from an empty shop, stock on hand is what was received, returned and corrected less what was dispatched: no cart call, checkout, cancellation or sweep makes or loses a unit |
| CartEffects.AddExactly | provena-api/apps/marketplace/services.py:47-72 | adding succeeds exactly for a positive number of available units of an active variant; they leave the available stock, the cart's row has so many more, the whole row is held for thirty minutes from now, and no other row changes |
| CartEffects.UpdateExactly | provena-api/apps/marketplace/services.py:75-100 | an owner's row takes any positive quantity whose growth is available; the difference leaves or returns to the available stock, and the row is held anew |
| CartProofs.UpdateFailsOnlyForStock | provena-api/apps/marketplace/services.py:75-100 | an owner's resize succeeds exactly when the growth is available; shrinking never fails |
| CartEffects.RemoveExactly | provena-api/apps/marketplace/services.py:103-113 | removing succeeds exactly for one's own row: it alone goes, and all its units are available again |
| CartEffects.ClearExactly | provena-api/apps/marketplace/services.py:116-137 | clearing always succeeds: that cart's rows go and no others, and all their units are available again |
| CartEffects.MergeExactly | provena-api/apps/marketplace/services.py:140-180 | merging moves no stock and ends the guest's cart; of each variant the user's cart has what the two had, held anew if any was the guest's; nobody else's rows change |
| CartEffects.SweepItemExactly | provena-api/apps/marketplace/tasks.py:19-49 | one id of a sweep's snapshot: its row goes, and its units are available again, exactly when its hold has lapsed by then |
| CartProofs.SweepDropsExactlyExpired | provena-api/apps/marketplace/tasks.py:10-53 | an undisturbed sweep deletes exactly the expired rows and counts them |
| CartEffects.SweepCounts | provena-api/apps/marketplace/tasks.py:10-53 | however stale the snapshot, the count is the number of rows deleted, and on-hand stock is unchanged |
| CartEffects.SweepExactly | provena-api/apps/marketplace/tasks.py:10-53 | rows whose hold has lapsed go, all others stand, and of each variant exactly the lapsed units are available again |
| CartProofs.HandOverSucceeds | provena-api/apps/orders/services.py:69-114 | a live hold can always be handed to an order, whichever branch applies |
| CartProofs.ConsumeKeeps | provena-api/apps/orders/services.py:69-114 | hand-over, in every branch, leaves exactly the ordered units for the order to account for, or none |
| OrderProofs.ClosedFormIsMinimum | provena-api/apps/orders/services.py:30-48 | what the closed form means: CANCELLED when all are, else the least advanced live status |
| OrderProofs.SyncWritesClosedForm | provena-api/apps/orders/services.py:30-48 | the incremental sync writes the closed form unless that is PENDING, when it leaves the row alone |
| OrderProofs.StatusStaysClosed | provena-api/apps/orders/services.py:30-48 | the `else: return` branch is sound, because no sub-order becomes PENDING again |
| OrderEffects.PlaceExactly | provena-api/apps/orders/services.py:69-317 | a checkout succeeds exactly when accepted, with lines each positive and active, and, variant by variant and however lines repeat one, all the units asked for are available or held live by the buyer's own cart; then exactly those cart rows are gone, available stock falls by the units the holds do not cover or rises by their surplus, and the new order is the buyer's with exactly these lines by supplier |
| OrderEffects.ConfirmExactly | provena-api/apps/orders/services.py:320-329 | confirming takes exactly a PENDING sub-order to CONFIRMED, re-derives the order's status, and moves no stock |
| OrderEffects.DispatchExactly | provena-api/apps/orders/services.py:332-351 | dispatching takes exactly a PENDING or CONFIRMED sub-order to DISPATCHED; its lines leave the warehouse and available stock is as it was |
| OrderEffects.DeliverExactly | provena-api/apps/orders/services.py:363-375 | delivering takes exactly a DISPATCHED sub-order to DELIVERED and moves no stock |
| OrderEffects.CancelSubExactly | provena-api/apps/orders/services.py:414-430 | cancelling a sub-order fails exactly when it is delivered; on-hand stock is unchanged, and the units it had not dispatched are available again |
| OrderEffects.CancelOrderExactly | provena-api/apps/orders/services.py:433-440 | cancelling an order succeeds exactly when no sub-order is delivered; all are CANCELLED, on-hand stock is unchanged, and all units not dispatched yet are available again |
| ShopService.Shop.AddToCart | provena-api/apps/marketplace/services.py:47-72 | in place, commits the specified effect or rolls back |
| ShopService.Shop.UpdateCartItem | provena-api/apps/marketplace/services.py:75-100 | in place, commits the specified effect or rolls back |
| ShopService.Shop.RemoveFromCart | provena-api/apps/marketplace/services.py:103-113 | in place, commits the specified effect or rolls back |
| ShopService.Shop.ClearCart | provena-api/apps/marketplace/services.py:116-137 | the loop over items commits the specified effect or rolls back |
| ShopService.Shop.MergeGuestCart | provena-api/apps/marketplace/services.py:140-180 | the loop over guest rows ends in the specified merge |
| ShopService.Shop.ReleaseExpired | provena-api/apps/marketplace/tasks.py:10-53 | snapshot, re-check, release, delete and count: the loop ends in the specified sweep |
| ShopService.Shop.ConsumeCartReservation | provena-api/apps/orders/services.py:69-114 | in place, every branch of the hand-over |
| ShopService.Shop.PlaceOrder | provena-api/apps/orders/services.py:194-317 | the checkout loop and the split into sub-orders, or a full rollback |
| ShopService.Shop.ConfirmSubOrder | provena-api/apps/orders/services.py:320-329 | in place, status and sync |
| ShopService.Shop.DispatchSubOrder | provena-api/apps/orders/services.py:332-351 | the loop over lines, status and sync, or a rollback |
| ShopService.Shop.DeliverSubOrder | provena-api/apps/orders/services.py:363-375 | in place, status and sync |
| ShopService.Shop.CancelSubOrder | provena-api/apps/orders/services.py:414-430 | the loop over lines, status and sync, or a rollback |
| ShopService.Shop.CancelOrder | provena-api/apps/orders/services.py:433-440 | the loop over sub-orders, or a rollback |
| Grouping.GroupByPartitions | provena-api/apps/orders/services.py:213-232 | splitting lines by supplier puts every line under its own supplier, once, in its original order, suppliers in order of first appearance |
| Grouping.GroupingKeepsSums | provena-api/apps/orders/services.py:213-232 | any weight summed over the suppliers is the weight of all lines |
| Rounding.HalfUpNearest | provena-api/apps/orders/pricing.py:53-58 | VAT rounding lands within half a penny, and a tie goes away from zero |
| Rounding.HalfEvenNearest | provena-api/apps/orders/models.py:247-254 | Decimal's default rounding lands within half a penny, and a tie goes to the even penny |
| Allocation.LeftoverBound | provena-api/apps/orders/pricing.py:31-50 | the pennies left after the floors are non-negative and fewer than the buckets, so the bonus loop stays in range |
| Allocation.AllocateSums | provena-api/apps/orders/pricing.py:31-50 | parts sum exactly to the total, or to zero when there is no weight |
| Allocation.LuckyHasRemainder | provena-api/apps/orders/pricing.py:31-50 | only a bucket whose exact share is not whole gets a bonus penny |
| Allocation.LargestRemainderFirst | provena-api/apps/orders/pricing.py:31-50 | nobody is rounded up while a bucket with a larger fractional part is not, nor, at equal ones, before an earlier bucket |
| Allocation.PartNearShare | provena-api/apps/orders/pricing.py:31-50 | each part is the floor or ceiling of its share, a zero weight gets zero, and no part exceeds its weight when the total does not |
| Allocation.AllocationMonotone | provena-api/apps/orders/pricing.py:31-50 | a smaller weight never gets more than a larger one, nor a later equal one than an earlier |
| Allocation.AllocateLargestRemainder | provena-api/apps/orders/pricing.py:31-50 | the loops over `floors` compute that allocation |
| AllocationOptimality.AllocationIsClosest | provena-api/apps/orders/pricing.py:31-50 | no whole-penny split of the total has a smaller total absolute deviation from the exact shares |
| PricingProofs.DiscountIs | provena-api/apps/orders/models.py:247-254 | a percentage code takes its percentage of the goods to the nearest penny, ties to even, and all of them from 100% on; a fixed code its value, or all the goods if they are worth less |
| PricingProofs.ChargedDiscount | provena-api/apps/orders/pricing.py:94-189 | the whole order's discount is the code's, by its own terms, off the goods of all its items |
| PricingProofs.SubOrderIs | provena-api/apps/orders/pricing.py:94-189 | each sub-order from its own supplier's items: goods, its penny-exact proportion of the order's discount, shipping by quote or the supplier's terms, and their total |
| PricingProofs.LineIs | provena-api/apps/orders/pricing.py:94-189 | each line is the supplier's item at its place and bears its proportion of the sub-order's discount, to the penny |
| Pricing.PriceItems | provena-api/apps/orders/pricing.py:94-189 | the loop over a supplier's lines, with its quantity and VAT totals |
| Pricing.ComputeSubOrder | provena-api/apps/orders/pricing.py:94-189 | one supplier's discount split, shipping and VAT |
| Pricing.AccumulateSubOrders | provena-api/apps/orders/pricing.py:125-187 | the loop over suppliers ends with every supplier priced and the order's totals their sums |
| Pricing.ComputeOrderPricing | provena-api/apps/orders/pricing.py:94-189 | the whole pass, discount split included, equals the order priced supplier by supplier and summed |
| PricingProofs.LineDiscountsCompose | provena-api/apps/orders/pricing.py:115-143 | a sub-order's line discounts sum to its discount and none exceeds its line |
| PricingProofs.DiscountsCompose | provena-api/apps/orders/pricing.py:115-143 | line discounts sum to sub-order discounts, those to the code's discount, and none exceeds the goods it is taken from |
| PricingProofs.OrderTotalReconciles | provena-api/apps/orders/pricing.py:163-189 | total is goods less discount plus shipping, and never below shipping |
| PricingProofs.VatOfComponent | provena-api/apps/orders/pricing.py:53-58 | a component's VAT lies within its gross and is nearest to exact, an odd half penny going up |
| PricingProofs.SubOrderVat | provena-api/apps/orders/pricing.py:133-187 | a sub-order's VAT lies within its total and within half a penny a component of the exact mixed-rate VAT |
| PricingProofs.OrderVatWithinTotal | provena-api/apps/orders/pricing.py:163-189 | an order's VAT lies between nothing and its total |
| CheckoutPreview.BasketTotal | provena-api/apps/orders/services.py:142-191 | the charge in closed form from the basket alone: goods, discount by the code's own terms, shipping by supplier |
| CheckoutPreview.PreviewIsCharge | provena-api/apps/orders/services.py:142-191 | the previewed discount is the discount charged, and the totals differ exactly by what live courier quotes add |
| CheckoutPreview.PermutedBasket | provena-api/apps/orders/services.py:213-260 | any reordering of the lines is the same basket |
| CheckoutPreview.SplitBasket | provena-api/apps/orders/services.py:213-260 | splitting a line is the same basket |
| PayoutSplit.CreatePayouts | provena-api/apps/payments/services.py:247-282 | the loop over sub-orders computes each gross, fee and net |
| PayoutSplit.PayoutIs | provena-api/apps/payments/services.py:247-290 | for every sub-order of a priced order: the fee is the supplier's own commission, or the default where that is zero, on goods less the discount unless the platform funds it, to the nearest penny with ties to even; fee and net make up that base and the shipping a supplier delivers for |
| PayoutSplit.FeeWithinBase | provena-api/apps/payments/services.py:247-282 | a commission of at most 100% takes no more than its base, so the supplier's shipping arrives whole |
| PayoutSplit.ZeroRateIsFreeIff | provena-api/apps/payments/services.py:270-271 | a zero commission rate means no fee exactly when the default rate's fee rounds to nothing |
| PayoutSplit.OrderMoneyConserved | provena-api/apps/payments/services.py:247-282 | fees and nets together are the charge, less platform-kept delivery, plus a platform-funded discount |
| PayoutSplit.OrderFeesWithinBase | provena-api/apps/payments/services.py:247-282 | the bounds hold for every sub-order of a priced order |
| Returns.PartialRefund | provena-api/apps/orders/services.py:512-536 | a partial refund lies within the returned goods' value and is nearest to their discounted one, the discount share being the even one of two as near |
| Returns.WholeRefund | provena-api/apps/orders/services.py:512-527 | a return listing nothing, or goods worth the sub-order's, refunds its whole total |
| Returns.PartialRefundsNearExact | provena-api/apps/orders/services.py:512-536 | any k partial refunds stay within k/2 pence of the exact value of what was returned |
| Returns.PartialRefundsBounded | provena-api/apps/orders/services.py:512-536 | requests whose gross is together at most the goods refund at most the discounted goods and k/2 pence |
| Returns.CreateAdminReturn | provena-api/apps/orders/services.py:631-654 | the loop checks each line against the rows already created in the same request |
| Returns.AdminReturnKeepsWithin | provena-api/apps/orders/services.py:641-653 | an admin refund keeps returned units within the ordered ones, repeated lines included |
| Returns.AdminAcceptsIff | provena-api/apps/orders/services.py:631-655 | the admin path accepts exactly positive selections that fit together, item by item and however often one is repeated, and creates one line for each |
| Returns.DistinctRequestAcceptedIff | provena-api/apps/orders/services.py:444-489 | a buyer's request naming no item twice is accepted exactly when it is positive and keeps returned units within ordered ones |
| Returns.RequestKeepsWithinIff | provena-api/apps/orders/services.py:443-489 | a buyer's accepted request keeps them within exactly when its lines fit together, item by item |
| Returns.RepeatedLineOverReturns | provena-api/apps/orders/services.py:466-482 | one unit ordered, its line sent twice: accepted, and two units count as returned |
| Returns.ReturnsRefundWithinGoods | provena-api/apps/orders/services.py:512-536 | however the items come back, in partial returns that keep within the ordered units, k of them refund at most the discounted goods and k/2 pence |
| RefundLedger.PaymentService.ClaimRefund | provena-api/apps/payments/services.py:146-190 | the claiming transaction: refuse, return early, join, or reserve |
| RefundLedger.PaymentService.ReleaseClaim | provena-api/apps/payments/services.py:213-222 | compensation undoes a reservation only for the caller that made it |
| RefundLedger.PaymentService.CompleteRefund | provena-api/apps/payments/services.py:228-231 | completion records the provider's refund id |
| RefundLedger.PaymentService.HandleRefund | provena-api/apps/payments/services.py:100-131 | the webhook sets refunded, drains pending and marks the payment |
| RefundOutcomes.RefusedIff | provena-api/apps/payments/services.py:146-190 | a call is refused exactly when the payment is not open, nothing positive is asked, the key is another payment's, or a new or failed request needs more than is left; refusals change nothing |
| RefundOutcomes.RepeatReservesNothing | provena-api/apps/payments/services.py:164-190 | repeating a completed refund returns at once and one in flight is joined at its own amount: neither reserves |
| RefundOutcomes.RefundGoesThrough | provena-api/apps/payments/services.py:134-234 | an undisturbed call under a key without a standing refund has the provider refund the key's amount, completes the row with its id, and makes exactly that pending |
| RefundOutcomes.RefusalUndone | provena-api/apps/payments/services.py:205-226 | a refusal by the provider restores payment and provider exactly and leaves a FAILED row to be tried again |
| RefundOutcomes.WebhookIs | provena-api/apps/payments/services.py:100-131 | a webhook's cumulative amount becomes the refunded one, out of what was pending; the payment stays open exactly when it is short of the charge; a repeat changes nothing |
| RefundProofs.StepConsistent | provena-api/apps/payments/services.py:134-234 | every step, whatever webhooks report, keeps rows, callers and provider telling one story: one amount a key, and a recorded or returned refund exists |
| RefundProofs.StepInBoundsIff | provena-api/apps/payments/services.py:109-122 | from a sound ledger, a step keeps refunded and pending non-negative and together within the payment exactly when it is not a webhook reporting more than was charged |
| RefundProofs.StepSound | provena-api/apps/payments/services.py:134-234 | every step that reports no more than the charge keeps the bounds, the stable amounts and the honesty of rows and callers |
| RefundProofs.LedgerAlwaysInBounds | provena-api/apps/payments/services.py:134-234 | for any interleaving, refunded and pending stay non-negative and together within the payment, one amount a key, and success means the refund exists |
| RefundAccounting.StepGuarded | provena-api/apps/payments/services.py:134-234 | with one live caller a key and errors that mean nothing was refunded, every step keeps all promises covered and within the payment, whatever webhooks report |
| RefundAccounting.NeverOverRefunds | provena-api/apps/payments/services.py:134-234 | under those two conditions alone the provider never refunds more than the payment, webhooks that report too much, too little or nothing included |
| RefundAccounting.StepKeepsBooksIff | provena-api/apps/payments/services.py:100-231 | from exact books, for every kind of step, exactly which ones keep them exact |
| RefundAccounting.StepExact | provena-api/apps/payments/services.py:146-231 | every careful step keeps exact books |
| RefundAccounting.AccountingIsExact | provena-api/apps/payments/services.py:146-231 | with honest webhooks as well, refunded plus pending is what was requested and has not failed, FAILED was never executed, and refunded is no more than the provider refunded |
| RefundAccounting.ClampsNeverBite | provena-api/apps/payments/services.py:117-122 | along careful runs no `max(0, ..)` ever changes a value |
| RefundAccounting.WebhookKeepsBooksIff | provena-api/apps/payments/services.py:109-124 | a webhook keeps exact books exactly when it reports no more than is refunded or pending |
| RefundAccounting.ReleaseKeepsBooksIff | provena-api/apps/payments/services.py:213-222 | a release keeps them exactly when its row still counts and its amount is still pending |
| RefundAccounting.CompleteKeepsBooksIff | provena-api/apps/payments/services.py:228-231 | completing a refund keeps exact books exactly when its row had not failed |
| RefundLiberties.SharedKeyRefundsTwice | provena-api/apps/payments/services.py:174-190 | once two live callers may share a key, a run from a new ledger refunds twice the payment |
| RefundLiberties.LostAnswerRefundsTwice | provena-api/apps/payments/services.py:213-226 | once an error may hide a refund, a run from a new ledger refunds twice the payment |
| RefundLiberties.BareWebhookOverstates | provena-api/apps/payments/services.py:112-115 | a webhook without amounts books the whole payment after a refund of one penny |
| RefundLiberties.SharedKeyBreaksBooks | provena-api/apps/payments/services.py:213-231 | with a shared key, a completion after the other caller's release leaves the books wrong |
| RefundLiberties.LostAnswerBreaksBooks | provena-api/apps/payments/services.py:109-124 | with a hidden refund, the provider's own honest webhook leaves the books wrong |
| RefundLiberties.StaysWithinPaymentIff | provena-api/apps/payments/services.py:134-234 | of the four liberties the surroundings can take, every run stays within the payment exactly when keys are not shared and no refund goes unheard |
| RefundLiberties.BooksStayExactIff | provena-api/apps/payments/services.py:100-231 | every run keeps exact books exactly when none of the four liberties is taken |
| PayoutProtocol.PayoutService.StartPayout | provena-api/apps/payments/services.py:299-318 | the claim: pending, stale takeover after ten minutes, or refusal |
| PayoutProtocol.PayoutService.ReturnToPending | provena-api/apps/payments/services.py:320-329 | a supplier not onboarded puts the payout back |
| PayoutProtocol.PayoutService.RecordPaid | provena-api/apps/payments/services.py:352-355 | PAID together with the transfer's id |
| PayoutProtocol.PayoutService.RecordError | provena-api/apps/payments/services.py:357-366 | FAILED unless another worker recorded PAID |
| PayoutProtocol.PayoutService.FailUnpaidPayouts | provena-api/apps/payments/services.py:126-130 | a full refund fails the order's unpaid payouts and no others |
| PayoutProtocol.PayoutService.StartReversal | provena-api/apps/payments/services.py:388-408 | fails the unpaid, and names the transfer and the capped amount of the paid |
| PayoutProtocol.PayoutService.FinishReversing | provena-api/apps/payments/services.py:424-428 | REVERSED only from PAID |
| PayoutProtocol.ReversalAmount | provena-api/apps/payments/services.py:405-407 | a reversal is the net times the ratio to the nearest penny, ties to even, and the whole net from the whole on |
| PayoutOutcomes.StartsIff | provena-api/apps/payments/services.py:299-318 | a worker may start on a payout exactly when it is pending or was started ten minutes ago or more |
| PayoutOutcomes.AloneForTenMinutes | provena-api/apps/payments/services.py:293-318 | in no run within ten minutes of a start does another worker get past the claim, unless the payout is put back for want of onboarding |
| PayoutOutcomes.TakenOverAfterTenMinutes | provena-api/apps/payments/services.py:305-316 | after ten minutes another can |
| PayoutOutcomes.PaidPayout | provena-api/apps/payments/services.py:331-355 | a payment moves exactly the net, once, and leaves the payout PAID with the transfer's id, no other row changing |
| PayoutOutcomes.RefusedPayoutFails | provena-api/apps/payments/services.py:357-366 | a refused payment leaves the payout FAILED unless another worker recorded it PAID, and moves no money |
| PayoutOutcomes.NotOnboardedIsPending | provena-api/apps/payments/services.py:320-329 | a supplier not onboarded leaves the payout pending, to be started at once |
| PayoutOutcomes.FullRefundIs | provena-api/apps/payments/services.py:126-130 | a full refund fails exactly the order's pending and processing payouts |
| PayoutOutcomes.UnpaidIsNotReversed | provena-api/apps/payments/services.py:388-399 | an unpaid payout is failed instead of reversed, a failed or reversed one left alone |
| PayoutOutcomes.PaidIsReversed | provena-api/apps/payments/services.py:400-428 | a paid payout's reversal takes back the refund's share of its net from its own transfer, marks it REVERSED, and changes nothing else |
| PayoutProofs.StepInv | provena-api/apps/payments/services.py:293-377 | every step keeps rows, provider and callers in agreement |
| PayoutProofs.PaidMeansTransferred | provena-api/apps/payments/services.py:293-377 | at most one transfer a payout, for exactly its net; PAID and REVERSED mean it exists with its id recorded; a reversal takes back its key's pence of that transfer |
| PayoutProofs.FailedIsNeverPaidIff | provena-api/apps/payments/services.py:395-399 | a FAILED payout is never transferred in any continuation exactly when it has not been and no worker is past its claim |
| PayoutProofs.FailedPayoutTurnsPaid | provena-api/apps/payments/services.py:350-355 | wherever a payout is FAILED and a worker past its claim, that worker's transfer leaves it PAID |
| PayoutProofs.FailedThenPaidFromNew | provena-api/apps/payments/services.py:126-130 | from an empty world, a claim overtaken by a full refund leaves a FAILED payout never transferred, which the worker then turns PAID |
| PayoutProofs.OneReversalIff | provena-api/apps/payments/services.py:380-428 | a paid payout is reversed at most once in every run exactly when all refunds that reverse anything ask for the same amount |
| PayoutProofs.ReversalsWithinNetIff | provena-api/apps/payments/services.py:403-428 | what is taken back stays within the net in every run exactly when the different amounts that can be asked add up to no more than the net |
| PayoutProofs.ReversedTwiceFromNew | provena-api/apps/payments/services.py:403-428 | from an empty world, a payout is paid and then reversed by any two amounts within its net that its refunds ask for, though together they may exceed it |
| ReturnRefund.ReturnService.BeginRefund | provena-api/apps/orders/services.py:546-577 | the claiming transaction: done, refuse, claim, or join at the stored amount |
| ReturnRefund.ReturnService.ReleaseClaim | provena-api/apps/orders/services.py:587-592 | only the claiming caller lets go, and only while the claim stands |
| ReturnRefund.ReturnService.FinishRefund | provena-api/apps/orders/services.py:604-628 | restocks the returned or all items and marks REFUNDED, once, or rolls back |
| ReturnProofs.RestockedOnceIffRefunded | provena-api/apps/orders/services.py:546-628 | in every interleaving, other stock calls and ledger users included, the movements noted for the return put back, variant by variant, the units of the items it lists, or of the whole sub-order exactly when it lists none, once, if and only if it is REFUNDED, which needs a refund the provider has made; no caller meets a claim without an amount |
| ReturnProofs.RefundedIsFinal | provena-api/apps/orders/services.py:606-609 | REFUNDED never changes again, and the return moves no more stock |
| ReturnProofs.RestockAdds | provena-api/apps/orders/services.py:611-626 | restocking adds each variant's units to what is available, reserves none, and is logged |
| ReturnProofs.RestockFailsIff | provena-api/apps/inventory/services.py:187-208 | it fails exactly on a line without units |
| ReturnProofs.RefundsWithinAsked | provena-api/apps/orders/services.py:569-577 | whatever fails, and whoever else refunds the payment, this return is refunded only amounts someone asked for and the payment can bear, one refund each |
| ReturnProofs.StoredAmountIsRefunded | provena-api/apps/orders/services.py:539-628 | with one amount asked, a REFUNDED return was refunded exactly that by the provider and says so |
| ReturnProofs.OneRefundIff | provena-api/apps/orders/services.py:546-592 | from an unrefunded payment, at most one refund in every run exactly when all callers who ask for an amount the payment can bear ask for the same one; the failing run joins a row inside `initiate_refund` that the first caller then releases, so both go out even when together they exceed the payment |
| ReturnOutcomes.RefundableIff | provena-api/apps/orders/services.py:539-628 | before anyone has tried, a return can end REFUNDED at an amount, by one refund of it, exactly when it is not rejected, the order was paid, the payment can bear the amount, and every line to put back has units |
| ReturnOutcomes.RejectedIsNeverRefunded | provena-api/apps/orders/services.py:502-509 | a return rejected before anyone tried is not REFUNDED in any continuation |
| ReturnOutcomes.RefusedAttemptIsUndone | provena-api/apps/orders/services.py:565-592 | a refund attempt that the provider refuses leaves the return approved as before, nothing reserved and nothing put back, with the amount given, or else due, noted |
| ReturnRetry.RetryFinishesIff | provena-api/apps/orders/services.py:594-628 | refunded but still REFUNDING, with every caller gone: a retry can finish the return, without a second refund, exactly when the payment still takes refunds and every line to put back has units |
| ReturnRetry.FullReturnCanBeAbandoned | provena-api/apps/payments/services.py:148-149 | from any approved return of all that was paid, a run in which the reversal fails and the webhook reports the refund leaves it refunded but never to be marked so or restocked |
| Disputes.DisputeService.ClaimResolution | provena-api/apps/disputes/services.py:163-203 | the claiming transaction: done, refuse, claim, or join at the stored outcome |
| Disputes.DisputeService.ReleaseClaim | provena-api/apps/disputes/services.py:226-233 | only the claiming caller returns a standing claim to ESCALATED |
| Disputes.DisputeService.FinishResolution | provena-api/apps/disputes/services.py:235-292 | files the refund by its id and resolves, once |
| DisputeOutcomes.ClaimIs | provena-api/apps/disputes/services.py:163-203 | on an escalated dispute a claim stores the outcome and its amount, the subtotal for a full refund; it is refused a partial one without amount, and everything on an open, answered or closed dispute |
| DisputeOutcomes.JoinIs | provena-api/apps/disputes/services.py:192-200 | on a claimed dispute a caller takes up the stored outcome and amount, whatever it asked for |
| DisputeOutcomes.ResolvesWithoutRefund | provena-api/apps/disputes/services.py:151-313 | an outcome without refund is resolved at once with neither ledger nor records touched, and the payout released exactly for REJECTED and WITHDRAWN |
| DisputeOutcomes.ResolvesByRefund | provena-api/apps/disputes/services.py:151-313 | a refund outcome can be carried through whenever the payment has that much left: exactly the subtotal or the given pence are refunded, and one new record names the refund |
| DisputeRetry.RetryFilesIff | provena-api/apps/disputes/services.py:192-292 | claimed and refunded but not filed, with every resolver gone: the dispute can be resolved as refunded exactly when the payment still takes refunds |
| DisputeRetry.FullRefundCanGoUnsaid | provena-api/apps/disputes/services.py:203-240 | from any escalated dispute over all that was paid, a resolver that stops before filing and the refund's webhook leave a refund that no resolution will ever state |
| DisputeOutcomes.LetGoIs | provena-api/apps/disputes/services.py:226-233 | after a failed call only the claimant reopens the dispute, and only while its claim stands |
| DisputeOutcomes.PartyStepIs | provena-api/apps/disputes/services.py:85-147 | what replies, escalations, closures and the sweep write |
| DisputeProofs.ResolvedRefundIsFiled | provena-api/apps/disputes/services.py:151-313 | in every interleaving, records made by hand included, at most one refund is filed by resolution, it is the provider's one under the dispute's key, and RESOLVED with a refund outcome has it filed |
| DisputeProofs.CarefulResolutionsAreTruthful | provena-api/apps/disputes/services.py:151-313 | with one resolver at a time, errors that mean nothing was refunded, and an undisturbed claim, RESOLVED says a refund was made exactly when one was |
| DisputeLiberties.AlwaysTruthfulIff | provena-api/apps/disputes/services.py:151-313 | a dispute at rest is truthful in every careful continuation exactly when its refund, if executed, is what its claim or resolution says, or it is closed with no sweep about to reopen it |
| DisputeLiberties.TruthfulInEveryRunIff | provena-api/apps/disputes/services.py:151-313 | from a new dispute, every resolution says a refund was made exactly when one was, if and only if none of six liberties is taken: a second resolver, an escalation, closure or sweep over a claim, a hidden refund, a late exception |
| DisputeLiberties.LibertyDeniesRefund | provena-api/apps/disputes/services.py:151-313 | any one liberty gives a run from a new dispute that ends RESOLVED with outcome REJECTED and its refund out |
| DisputeLiberties.EscalationLosesRefund | provena-api/apps/disputes/views.py:138-153 | wherever a refund is out and nobody is resolving, one more escalation, as the view allows it, leads to a resolution that denies the refund |
| DisputeLiberties.SweepLosesRefund | provena-api/apps/disputes/services.py:116-147 | so does the overdue sweep, which writes ESCALATED over whatever happened since it read |
| DisputeLiberties.UnheardRefundIsLost | provena-api/apps/disputes/services.py:226-233 | so does, for a claimed refund, an error that hides it |
| DisputeLiberties.SecondResolverRefundsAfterRejection | provena-api/apps/disputes/services.py:192-203 | so does a second resolver of a claimed refund, still with the provider when the first lets go |
| DisputeLiberties.ClosureLosesRefund | provena-api/apps/disputes/services.py:316-326 | so does closing over a claim, once a sweep that saw the dispute open reopens it |
| DisputeLiberties.LateRaiseLosesRefund | provena-api/apps/disputes/services.py:226-233 | so does a refund call that raises after the provider has refunded |
| Delivery.CourierDelivery.BookDelivery | provena-api/apps/delivery/services.py:65-94 | books a quote once, or leaves it a quote when the courier fails |
| Delivery.CourierDelivery.HandleStatusEvent | provena-api/apps/delivery/services.py:97-141 | one event run without interruption: ends at a terminal status, delivers, refunds, or records progress |
| Delivery.HandledIs | provena-api/apps/delivery/services.py:114-141 | what such an event leaves: nothing changes at a terminal status, else the new status, and DELIVERED delivers the sub-order only if it is still DISPATCHED |
| Delivery.BookingIs | provena-api/apps/delivery/services.py:65-94 | an uninterrupted booking leaves the row BOOKED with one courier job more |
| DeliveryProofs.BookedOnceIff | provena-api/apps/delivery/services.py:65-94 | the courier has one job for every booking crashed before its commit and one for the row, so one in all exactly when none crashed |
| DeliveryProofs.NeverRefundedIff | provena-api/apps/delivery/services.py:116-136 | wherever a delivery stands, its fee can never be refunded any more exactly when it has not been and, if one is due, the row is terminal and no handler holds a refund, a failure, or progress that would reopen it |
| DeliveryProofs.NeverDeliveredIff | provena-api/apps/delivery/services.py:114-123 | wherever a delivery stands, its sub-order can never be marked delivered without a person's step exactly when it is not delivered, no handler is about to deliver it and, if still out, the row is terminal and no handler would reopen it |
| DeliveryProofs.LostAfterAnyRunIff | provena-api/apps/delivery/services.py:97-141 | both of these at the end of every run from dispatch on |
| DeliveryLiberties.SubAlwaysAgreesIff | provena-api/apps/delivery/services.py:114-123 | between courier calls, sub-order and courier agree at every later quiet moment exactly when they are in step now and, on an open row, none of four liberties is taken, or, on a failed one, nobody delivers by hand what is still out |
| DeliveryLiberties.FeeAlwaysAgreesIff | provena-api/apps/delivery/services.py:125-136 | between courier calls, the fee stays refunded exactly for a failed delivery exactly when it is so now and, if one is due on an open row, no events overlap and no refund is dropped |
| DeliveryLiberties.SubAgreesInEveryRunIff | provena-api/apps/delivery/services.py:97-141 | from dispatch on, sub-order and courier agree after every run exactly when people neither cancel nor deliver by hand, no two events are read side by side, and no handler stops between writing DELIVERED and delivering |
| DeliveryLiberties.FeeAgreesInEveryRunIff | provena-api/apps/delivery/services.py:97-141 | from dispatch on, the fee is refunded exactly for a failed delivery after every run exactly when none is due, or no two events are read side by side and no handler stops or is refused between writing a failure and refunding, whatever people do |
| DeliveryLiberties.LibertyLeadsAstray | provena-api/apps/delivery/services.py:97-141 | what each liberty can end in, in a run from dispatch on: delivered but CANCELLED, failed but marked delivered, delivered but refunded, a delivery never to be recorded, a fee never to be refunded |
| DeliveryLiberties.PersonKeepsStepIff | provena-api/apps/orders/services.py:363-430 | a person cancelling or delivering by hand between courier calls leaves that agreement standing exactly when cancelling after the delivery has failed |
| DeliveryOverlap.OverlapAgreesIff | provena-api/apps/delivery/services.py:107-141 | handlers in flight end in agreement, in every order, exactly when DELIVERED is held only beside DELIVERED and, where a fee is due, failures only beside failures |
| DeliveryOverlap.OverlappingEventsDisagree | provena-api/apps/delivery/services.py:107-141 | for instance, one DELIVERED and one FAILED read on the same parcel can end misrecorded |
| DiscountUse.LimitsAlwaysHold | provena-api/apps/orders/services.py:117-139 | with the row lock held to the end of checkout, redemptions never exceed `max_uses`, a buyer's never `max_uses_per_buyer`, and no checkout redeems twice |
| DiscountUse.CanRedeemIff | provena-api/apps/orders/services.py:117-139 | a waiting checkout can still redeem the code exactly when the code is active and live now or later, its goods reach the minimum spend, and committed redemptions leave room for its buyer, whoever holds the row |
| DiscountUse.PreviewNeverRedeems | provena-api/apps/orders/services.py:177-183 | a preview locks and checks the code, and redeems nothing in any run |

## Left out

- Web, admin, serializers, emails, notifications, WebSocket push, S3, search and the front end: plumbing around the engine.
- Time: timestamps are integers on a monotone clock. Money is integer pence; Decimal's 28-digit context and the width of database columns are not part of this model.
- Row-lock gaps in order transitions: confirm, dispatch, deliver, cancel, approve and reject test the object they were handed without re-reading it; each is one atomic step on the current row here, except that in Delivery the courier's handler delivers by what it read.
- One payment per ledger: rows of other payments appear only as keys that are taken. Key text is a structured value, so its formatting is not modelled.
- RefundProofs.LedgerAlwaysInBounds: assumes no webhook reports more than the charge, which is the provider's promise and not the code's; StepInBoundsIff shows that nothing else can break the bounds.
- ReturnRefund: one return over one ledger; a second return of the same payment is one of the ledger's other users. Two returns with equal amounts share a refund key and hence a refund, which then counts for both. Explicit refund keys never look like default ones. The payout reversal only succeeds or fails here; its phases are in PayoutProtocol.
- Disputes: one dispute over one ledger; messages, attachments and events are not modelled. The recorded dispute amount need not equal the refunded one after a second claim.
- PayoutProtocol: payout records start from `_create_payouts` as PENDING; the supplier's onboarding check is a choice the step makes. Liveness of retries is not stated.
- Delivery: starts at dispatch, with the quote given; the quote's expiry is an input. Delivering the sub-order is one step. The delivered sub-order's payout is in PayoutProtocol.
- DiscountUse: a code's limits, window and active flag are fixed while it is used, and redemptions are not deleted.
- CheckoutPreview.PreviewIsCharge: penny and VAT distribution between lines may differ between preview and checkout and is not compared.
- CartOps: an inactive variant, an unknown item and a foreign owner are refusals without their messages. User deletion, which drops carts without releasing stock, is not a step.
- StoreRuns: stock returned after a delivery is an ordinary stock call there, since returns do not touch reservations.
- Returns: the return window, returnability policy and ownership of lines are checks before the quantities and are inputs.
- Physical stock after admin refunds of undispatched units is not claimed to balance; the source restocks them.
- Address defaults, slugs, lockout, bulk upload, recently viewed and analytics: small and apart from the core.
