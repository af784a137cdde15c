# Reshma-Core: the money-and-stock protocol, verified

This project models the shop backend from cart to refund in Dafny and proves what it keeps: stock, coupon uses and
payments over every interleaving of its services, the arithmetic of an order from coupon to refund, the identity of a
cart line, and two smaller invariants (the wishlist and the request sanitizer).

Every `.dfy` file is listed by `dfyconfig.toml`; `dafny verify dfyconfig.toml` (Dafny 4.11) verifies the whole project.

## How the model is built

- **Documents** are datatypes (`Documents.dfy`), restricted to the fields the services read or write. An order's id is
  its position in the store.
- **The store's operations** (`OrderStore.dfy`) are functions from the store before to the store after. One MongoDB
  transaction or one guarded `findOneAndUpdate` is one function.
- **The services as they are written** — loops over lines, fields assigned in place, a transaction that restores what it
  changed — are classes and methods (`Shop`, `CartService.Cart`, `Wishlist.List`, `Pricing.TaxLines`,
  `Pricing.AssembleOrder`, `Refunds.EstimateRefund`, `Signature.NormalizeAttributes`, `Sanitizer.Sanitize`), each proved
  equal to the function that specifies it. The laws are then proved about those functions.
- **The protocol** (`Protocol.dfy`) is a transition system. A call that awaits between its read and its write is a
  process holding what it read, which may be stale when it writes: the payment handshake, the sweep with its snapshot,
  dispatch around the courier calls, the courier webhook, and the refund around the gateway call. Coupon increments and
  invoice jobs that a winning payment still owes are processes too, and may fail. `Step` is total, so a run is any
  sequence of actions whatsoever. A history per order, which the services do not store, records wins, restorations,
  approvals, withdrawals, refunds, shipments and losses; `HistoryTheorems.dfy` shows that each count is the number of
  steps in which the thing happened. The proof is one inductive invariant (`ProtocolInvariant.dfy`), kept by every step
  (`ProtocolSteps.dfy`, `ProtocolRuns.dfy`); `ProtocolTheorems.dfy`, `PaymentTheorems.dfy`, `SweepTheorems.dfy`,
  `AgeTheorems.dfy`, `ShipmentTheorems.dfy`, `CouponTheorems.dfy` and `ReturnTheorems.dfy` read the results off it.
  `CartRuns.dfy` does the same for the requests that edit a cart.
- **The rules** (`Reference.dfy`) state prices, rates, roundings, splits and coupons as a bookkeeper would, with the
  amounts written out and without any function of the services. `CouponLaws.dfy`, `BillLaws.dfy`, `CartEditLaws.dfy` and
  `ReturnLaws.dfy` prove every outcome of the services against them. `Journey.dfy` is the protocol as a single order
  lives it, written without the services' operations, and proved to be what `Step` does to each order;
  `CauseTheorems.dfy` uses it to trace whatever an order says of itself back to the step of the run that was entitled to
  say it.
- **Money** is counted in paise: a `real` where the code has not rounded yet, an `int` where it has. Rounding is to the
  nearest paisa, halves up, which is what `Math.round` and `toFixed` (sections 21.3.2.28 and 21.1.3.3 of ECMA-262, 14th
  edition) give on exact non-negative values. The code taxes each line on its value after the coupon, the transaction
  value of section 15 of the Central Goods and Services Tax Act, 2017.

## Where the code and its documentation differ

The model follows the code.

- **Shipping tax.** A comment splits a hundred rupees of shipping into 84.74 and 15.26; the code gives 84.75 and 15.25
  (`TaxEngine.ShippingTaxValue`). The tax is extracted as if contained in the charge, and checkout then adds it on top,
  so an order costs 15.25 more than the cart quoted (`CartLaws.QuoteRefinesCheckout`).
- **PREPAID coupons.** They are compared by name with "RAZORPAY" and refused at every checkout
  (`CouponService.CheckoutAcceptsExactly`).
- **Late payments.** The payment updates look only at the payment status, so a payment reported after the sweep reopens
  a cancelled order whose units are back on sale (`CheckoutLaws.LatePaymentReopens`). After an accepted payment
  no sweep puts its units back on any continuation, exactly when none had before it; PENDING, the status the updates
  do not ask for, is enough to know, and after an administrator's edit nothing in the stored document is
  (`PaymentTheorems.PaymentHoldsUnitsIff`, `PaymentTheorems.DocumentCannotTell`).
- **Overlapping sweeps.** The cron's comment says its lock lets only one instance sweep. The lock is never released, it
  expires: two starts are at least a minute apart, sweeps overlap exactly when one outlives the lock and the schedule
  fires again, and a run with the real schedule shows two at work on one order (`SweepTheorems`). Restoration is
  exactly-once because of the guarded update, not because of the lock.
- **Duplicate shipments.** The first firewall of dispatch is said to prevent duplicate shipments and double billing. It
  does once a tracking number is written, for good (`ShipmentTheorems.TrackedOrdersStayClosed`), but the courier calls
  lie between it and the write: two dispatches that both pass it before either writes both ship
  (`ShipmentTheorems.CrossingDispatchesBothShip`). An order is shipped more than once exactly when some shipment was
  recorded over another, and never when no dispatch passes its check while another is in flight
  (`ShipmentTheorems.ShippedTwiceIffDoubled`).
- **Refunds beyond their approval.** Stage 3 reads the return's status before the gateway call and not again in its
  transaction, and arbitration looks at no state at all. Refunds exceed the approvals in force exactly when some commit
  was stale, that is, found the return no longer APPROVED (`ProtocolTheorems.RefundsExceedApprovalsIffStale`); without
  overlapping refunds and without arbitration during a refund none is. A run that leads to such a refund starts from
  `ReturnTheorems.ApprovedReturnIsReachable`.
- **Repeated products in a return.** The quantity guard looks at one requested item at a time, so a request that repeats
  a product passes it (`RefundLaws.RepeatedProductRefundsTwice`). On any order the refund stays within what was paid
  exactly when the discounted worth of what is asked for beyond the order's own value is below the room the rounding
  leaves, at most a paisa (`RefundLaws.RefundWithinPaidIff`); with distinct products it always does.
- **Usage limits.** The limit is a firewall at checkout, but a prepaid order's use is counted when it is paid, so the
  count can pass the limit, exactly when such a use is counted with the limit reached
  (`CouponTheorems.LimitIsPassedIff`).
- **Two lines of one signature.** The request schema admits product ids in capital hexadecimal digits. The cart looks a
  line up by the spelling of the request but stores the id in lower case, so a merge keeps one line per signature
  exactly when no item in a capital spelling comes when its line is there already (`MergeLaws.DistinctLinesKeptIff`).
  The order of a request's items does not matter to a line exactly when it is in the cart already, or every item that
  could open it would leave it the same quantity (`MergeLaws.OrderFreeIff`).
- **Signatures that collide.** Attribute texts may hold bars and keys colons, so different variants can share a line;
  `Signature.CollideIff` says exactly which do.
- **A negative remaining total.** A coupon's rounding exceeds a subtotal of fractional paise exactly when the discount
  before rounding reaches the half paisa above the subtotal's whole part (`CouponService.OvershootsIff`). Checkout
  tolerates that, but the cart page, if it has anything to save, fails its validator (`CartLaws.CartRefusedIff`,
  `CartLaws.RefusedCart`).

## Model

| member | source | states |
|---|---|---|
| `ProtocolTheorems.StockIsConserved` | src/modules/orders/order.service.ts:592-629 | over every run, for every product: shelf stock, plus units in orders the sweep has not put back, less units refunds restocked, is the opening stock, and the shelf is never negative |
| `ProtocolTheorems.StockNeverExceedsInitial` | src/modules/returns/return.service.ts:498-512 | if no payment came after a sweep, each return was approved at most once without overlapping refunds and repeats no product, no unit comes back twice: stock never exceeds the opening stock |
| `ProtocolTheorems.RestorationAndRefundExclude` | src/modules/orders/order.service.ts:608-627 | the sweep restores an order at most once, and an order is both restored and refunded only if it was paid after the sweep |
| `PaymentTheorems.PaymentHoldsUnitsIff` | src/modules/orders/order.service.ts:397-408 | in any reachable state, after an accepted payment no sweep puts the order's units back on any continuation, exactly when none had before; PENDING implies none had |
| `PaymentTheorems.DocumentCannotTell` | src/modules/orders/order.service.ts:491-501 | two reachable shops with the same order documents, one holding the unit and one not: no test of the document decides it |
| `ProtocolTheorems.PaidExactlyOnce` | src/modules/orders/order.service.ts:370-438 | under any interleaving of stale handshakes and repeated webhooks an order is paid at most once, carries payment evidence exactly when paid, and its one invoice job is queued, lost or still owed |
| `CauseTheorems.PaidOrdersWereReported` | src/modules/orders/order.service.ts:370-411 | over every run, whoever sends what: an order is paid only if some step of the run reported its payment with a valid signature, its owner's handshake or the gateway's order.paid event, and payment id and signature on it are that report's |
| `Journey.HandshakePaysIff` | src/modules/orders/order.service.ts:361-411 | an uninterrupted handshake pays exactly the owner's prepaid order with payment pending, validly signed, leaves its evidence and changes nothing else; otherwise the order is untouched |
| `Journey.WebhookPaysIff` | src/modules/orders/order.service.ts:471-501 | the webhook pays exactly on a valid signature and an order.paid event for a prepaid order with payment pending |
| `CauseTheorems.StatusesHaveTheirCause` | src/modules/orders/shiprocket.service.ts:256-321 | over every run, each status an order is in was brought about by a step entitled to it: checkout, a valid report of payment, the sweep, a recorded shipment, a courier with the secret naming that end, the owner's request within the window, a ruling, a refund, or an administrator naming it |
| `HistoryTheorems.HistoryIsTally` | src/modules/orders/order.service.ts:395-627 | each count the theorems speak of (payments, restorations, coupon uses, invoice losses, approvals, rulings, refunds, stale commits, overlaps, shipments) is the number of steps of the run in which it happened |
| `ProtocolTheorems.CouponUsesAreExact` | src/modules/orders/order.service.ts:419-433 | a coupon's counter plus increments owed or lost is its opening count plus its cash orders plus its paid orders |
| `CouponTheorems.LimitIsPassedIff` | src/modules/orders/order.service.ts:419-433 | administrators' edits apart, a step lifts a coupon's count above its limit exactly when it counts a paid order's use with the limit reached; checkout never does |
| `ProtocolTheorems.SweepCancelsOnlyUnpaid` | src/modules/orders/order.service.ts:592-627 | whatever its snapshot, a sweep's write changes an order only from prepaid, unpaid, never restored, to cancelled and restored once |
| `AgeTheorems.SweptOrdersWereOverdue` | src/modules/orders/order.service.ts:577-627 | over every run, however stale the snapshot, an order a sweep put back was placed more than half an hour before |
| `SweepTheorems.StartsAreALockApart` | src/shared/cron/order-recovery.cron.ts:21-25 | whatever runs in between, two sweeps that take effect start at least a minute apart |
| `SweepTheorems.OverlappingSweepsOutlivedTheLock` | src/shared/cron/order-recovery.cron.ts:21-41 | in every reachable state, of two sweeps in flight one had run for a minute when the other started |
| `SweepTheorems.OverlapBeginsIff` | src/shared/cron/order-recovery.cron.ts:17-41 | a step makes two sweeps overlap exactly when it is the schedule firing after the lock lapsed while a sweep still runs |
| `SweepTheorems.SweepsMayOverlap` | src/shared/cron/order-recovery.cron.ts:17-41 | a run from an opening shop, on the real schedule, with two sweeps in flight over one order |
| `ProtocolTheorems.OrdersKeptOverRuns` | src/modules/orders/order.service.ts:238-257 | for the rest of any run an order keeps lines, prices, owner and gateway id, stays paid with its evidence once paid, and never becomes PENDING again |
| `ShipmentTheorems.DispatchedOrdersWerePayable` | src/modules/orders/shiprocket.service.ts:131-236 | in every reachable state an order with a shipment id is cash on delivery or paid, although the check and the write are separated by network calls |
| `ShipmentTheorems.TrackedOrdersStayClosed` | src/modules/orders/shiprocket.service.ts:123-129 | once an order carries a tracking number, no continuation of the run lets a new dispatch past the first firewall |
| `ShipmentTheorems.ShippedTwiceIffDoubled` | src/modules/orders/shiprocket.service.ts:123-236 | in every reachable state an order is shipped more than once exactly when some shipment was recorded over another, and at most once when no dispatch passed its check with another in flight |
| `ShipmentTheorems.CrossingDispatchesBothShip` | src/modules/orders/shiprocket.service.ts:123-236 | from any state in which an order may be dispatched, two dispatches that both pass the check first record two shipments, the second over the first |
| `Journey.DispatchShipsIff` | src/modules/orders/shiprocket.service.ts:110-239 | an uninterrupted dispatch ships exactly an undispatched, payable order for which the courier names airway bill and shipment; bill, courier and shipment id each land in their own field |
| `Journey.MessageMovesIff` | src/modules/orders/shiprocket.service.ts:256-321 | a courier's message moves a tracked order to the end it names exactly when it comes with the secret and names one |
| `CauseTheorems.DispatchTextsHaveTheirSource` | src/modules/orders/shiprocket.service.ts:225-236 | over every run a tracking number, courier name or shipment id is one a recorded shipment gave, the first two possibly an administrator's |
| `ProtocolTheorems.RefundsExceedApprovalsIffStale` | src/modules/returns/return.service.ts:438-512 | in every reachable state refunds plus the approval in force are the approvals granted less those withdrawn plus stale commits; so refunds exceed approvals exactly when a commit was stale, and none is without overlapping refunds and arbitration during a refund |
| `ProtocolTheorems.RefundsAreApproved` | src/modules/returns/return.service.ts:438-512 | only gateway-paid orders are refunded, and no more often than approved plus once for every overlapping refund |
| `ProtocolTheorems.OverlappingRefundsBothCommit` | src/modules/returns/return.service.ts:442-512 | from any refundable state a run of four steps refunds one approval twice, the second time stale, and restocks it twice |
| `Journey.RefundGoesThroughIff` | src/modules/returns/return.service.ts:438-512 | an uninterrupted refund goes through exactly for an approved return of a gateway-paid order; it restocks each product's returned total, closes the return and marks the order RETURNED |
| `ReturnTheorems.EstimatesStayWithinPayment` | src/modules/returns/return.service.ts:98-200 | in every reachable state no stored return promises less than nothing, and one that names each product once promises at most what its order was charged for the goods, which is at most its total |
| `ReturnTheorems.EstimateWithinPayment` | src/modules/returns/return.service.ts:98-163 | that bound for any order the pricing pipeline produced |
| `ReturnTheorems.RefundsStayWithinPayment` | src/modules/returns/return.service.ts:438-512 | in every reachable state the refunds of an order whose return names each product once and was approved once at most, without overlap or stale commit, come to at most its total |
| `ReturnTheorems.ApprovedReturnIsReachable` | src/modules/returns/return.service.ts:438-458 | a run from an opening shop through checkout, payment, delivery, request and approval to a return that can be refunded |
| `ProtocolRuns.StepKeeps` | src/modules/orders/order.service.ts:397-408 | every step of every service and of the environment keeps the invariant behind the theorems above |
| `ProtocolRuns.RunKeeps` | src/modules/orders/order.service.ts:278-280 | every run from a shop before its first order satisfies it; its core is that PENDING implies prepaid, unpaid and never restored |
| `Stock.ReserveExact` | src/modules/orders/order.service.ts:61-81 | the line-by-line guarded decrement succeeds exactly when every product is active and the demand over all its lines fits its stock, and then each product is down by its demand and nothing else changes |
| `Stock.ReservationIgnoresLineOrder` | src/modules/orders/order.service.ts:61-81 | success and resulting stock do not depend on the order of the lines |
| `Stock.RestockExact` | src/modules/orders/order.service.ts:620-627 | the increment loop raises each product by its total over all lines and changes nothing else |
| `Stock.RestockUndoesReserve` | src/modules/orders/order.service.ts:620-627 | restoring what was reserved gives back the same catalogue |
| `BillLaws.CheckoutOutcome` | src/modules/orders/order.service.ts:48-289 | every outcome of checkout: empty cart, goods not on sale or short of stock, coupon gone, coupon not good for these goods, customer or method, unknown tax profile, gateway silent, in this order, each with its error, and a commit exactly when none applies; the negative-total guard never fires |
| `BillLaws.CommittedOrderIsBilled` | src/modules/orders/order.service.ts:57-253 | a committed order bills each cart line at its product's base price less its own percentage, taxed at that product's rate on its value after the coupon, split by the state named; totals are over those lines and the discount is the coupon's worth |
| `CauseTheorems.OrdersAreLiveBills` | src/modules/orders/order.service.ts:57-289 | over every run, each order on file is that bill, at the prices of the moment of its checkout, of the cart it was made from |
| `CheckoutLaws.CheckoutEffect` | src/modules/orders/order.service.ts:238-304 | what a committed checkout does to stock, orders, carts and coupons, and what it leaves alone |
| `CheckoutLaws.CheckoutDiscountFits` | src/modules/orders/order.service.ts:96-138 | an accepted discount is non-negative and fits the live subtotal up to half a paisa |
| `CheckoutLaws.PricesSurviveReservation` | src/modules/orders/order.service.ts:64-94 | lines priced while reserving are priced as before it |
| `CheckoutLaws.SerialSweep` | src/modules/orders/order.service.ts:576-629 | run alone, the sweep cancels exactly the old PENDING orders and puts back exactly their units |
| `CheckoutLaws.SnapshotListsOverdue` | src/modules/orders/order.service.ts:577-582 | the sweep's snapshot lists exactly the orders PENDING for more than half an hour, each once |
| `CheckoutLaws.LatePaymentReopens` | src/modules/orders/order.service.ts:491-501 | a payment after the sweep reopens the order although its units are back on sale |
| `OrderLaws.OnlyFirstPaymentCounts` | src/modules/orders/order.service.ts:395-411 | of any sequence of payment reports of an unpaid order the first alone has an effect: PAID, PROCESSING and its own evidence; a paid order takes none; nothing else is touched |
| `OrderLaws.LastTerminalDecides` | src/modules/orders/shiprocket.service.ts:288-321 | of any stream of courier messages the last terminal one decides: DELIVERED delivers, CANCELED or CANCELLED cancels, either RTO text returns, and without one the order is untouched |
| `OrderLaws.LastEditDecides` | src/modules/orders/order.admin.controller.ts:127-138 | of any sequence of edits the last decides the status and the last non-empty text of each kind stays; lines, prices and payment are out of reach |
| `OrderLaws.LastRulingDecides` | src/modules/returns/return.service.ts:301-351 | of any sequence of rulings, accepted in every state, the last alone decides whether a refund is open, and a single rejection delivers the order again |
| `Shop.Shop.ReserveLines` | src/modules/orders/order.service.ts:57-94 | pass 1 reserves, prices and sums the lines, or reports the first failure with the earlier decrements in place |
| `Shop.Shop.InitializeCheckout` | src/modules/orders/order.service.ts:39-320 | the imperative checkout performs the checkout transaction, and on any error leaves the store as it was |
| `Shop.Shop.PutBack` | src/modules/orders/order.service.ts:620-627 | the increment loop of sweep and refund |
| `Shop.Shop.RecoverAbandonedOrders` | src/modules/orders/order.service.ts:576-629 | the sweep loop, transaction by transaction |
| `Shop.Shop.OpenReturn` | src/modules/returns/return.service.ts:64-218 | stage 1 of a return, with every refusal, the schema's of a negative estimate included |
| `Shop.Shop.FinishRefund` | src/modules/returns/return.service.ts:492-512 | the transaction of stage 3 |
| `TaxEngine.LineTaxWithinHalfPaisa` | src/modules/orders/tax.utils.ts:52-98 | exactly the known profiles are taxed, each at its own rate, apparel at 18% exactly above 2500 rupees a unit; taxable value and tax are within half a paisa of the line's value and of its share |
| `TaxEngine.LineTaxMonotone` | src/modules/orders/tax.utils.ts:52-98 | line tax never falls when the line's value rises, across the 2500 threshold and both roundings |
| `TaxEngine.ShippingTaxValue` | src/modules/orders/tax.utils.ts:105-124 | a hundred rupees of shipping contain 15.25 of tax, and tax and base add up to the charge |
| `TaxEngine.SplitIsExactUpToOddPaisa` | src/modules/orders/tax.utils.ts:130-154 | within the state two equal halves that overshoot by the odd paisa, elsewhere the tax exactly |
| `BillLaws.HomeIff` | src/modules/orders/tax.utils.ts:134-138 | the seller's state is exactly WB, Wb, wB or wb with any white space around it |
| `CouponLaws.AcceptedAtItsWorthIff` | src/modules/coupons/coupon.service.ts:165-259 | a coupon is accepted exactly when active, started, not expired, not used up, met by the goods, for a first order if it says so, and for the method named; it is then worth, to the nearest paisa, the least of what it grants, a non-zero ceiling and the goods |
| `CouponService.CheckoutAcceptsExactly` | src/modules/coupons/coupon.service.ts:224-235 | which of the coupons accepted in the cart are accepted at checkout; PREPAID never is |
| `CouponService.DiscountBounds` | src/modules/coupons/coupon.service.ts:240-259 | the discount lies between nothing and the subtotal up to half a paisa, exactly for whole paise, and under a whole-paise ceiling |
| `CouponService.OvershootsIff` | src/modules/coupons/coupon.service.ts:254-259 | the rounded discount exceeds the subtotal exactly when the discount before rounding reaches half a paisa above the subtotal's whole part, never on whole paise |
| `CouponService.OvershootWitness` | src/modules/coupons/coupon.service.ts:256-259 | the half paisa of overshoot is reached |
| `CouponService.DiscountMonotone` | src/modules/coupons/coupon.service.ts:240-259 | for whole-paise subtotals neither the discount nor what remains to pay falls as the cart grows |
| `Pricing.TaxLines` | src/modules/orders/order.service.ts:140-201 | pass 2 computes every line and all four tax totals, or stops at the first unknown profile |
| `Pricing.AssembleOrder` | src/modules/orders/order.service.ts:140-257 | passes 2 and 3 compute the stored order |
| `PricingLaws.AllocationConserves` | src/modules/orders/order.service.ts:147-151 | line discounts add up to the coupon exactly |
| `PricingLaws.LineStaysWithinItsPrice` | src/modules/orders/order.service.ts:149-151 | no line is discounted below nothing or above its price |
| `PricingLaws.LineTaxOnPostCoupon` | src/modules/orders/order.service.ts:151-159 | dividing by the quantity and multiplying back taxes the line's value after the coupon |
| `PricingLaws.TaxableValuesAddUp` | src/modules/orders/order.service.ts:147-184 | the invoice's taxable values add up to subtotal less discount within half a paisa per line |
| `PricingLaws.LineTaxFallsWithDiscount` | src/modules/orders/order.service.ts:149-167 | a larger coupon never raises the tax of any line |
| `PricingLaws.CouponCostsOnlyFreeShipping` | src/modules/orders/order.service.ts:204-219 | a larger coupon lowers the amount due by at least the difference, or by 115.25 less if it loses free shipping |
| `PricingLaws.CouponCanRaiseTotal` | src/modules/orders/order.service.ts:204-219 | that bound is reached: a paisa of coupon can raise the bill by 115.24 |
| `PricingLaws.TotalIsNeverNegative` | src/modules/orders/order.service.ts:204-226 | with a coupon-service discount assembly fails only on unknown profiles, and the total covers the discounted goods |
| `PricingLaws.ItemsPassTheSchema` | src/modules/orders/order.model.ts:20-35 | no figure of an order line is negative, so the line validators never refuse an order |
| `PricingLaws.InvoiceAddsUp` | src/modules/orders/order.service.ts:204-253 | the stored total is subtotal less discount plus tax plus shipping to the paisa, although both ends are rounded separately |
| `PricingLaws.GstSplitExactUpToOddPaise` | src/modules/orders/order.service.ts:161-217 | within the state both totals agree and exceed the tax by one paisa per odd-paise tax, at most one per line and one for shipping; elsewhere the totals are the tax |
| `ReturnLaws.RequestIsTakenIff` | src/modules/returns/return.service.ts:64-218 | a return is opened exactly for the owner's delivered order, within the window, when every item was sold in that quantity by the first line of its product, still exists and is not innerwear, fragile goods come with a photograph, the estimate is not negative and no return is on file; it then awaits approval, promising the prorated worth, and the order is RETURN_REQUESTED |
| `ReturnLaws.RequestOutcome` | src/modules/returns/return.service.ts:64-236 | every other request is refused with the error of the first condition that fails, the first such item deciding among items |
| `ReturnLaws.RefundIsProrated` | src/modules/returns/return.service.ts:98-163 | the estimate is, to the nearest paisa, the requested units at purchase prices times the share of the order that was paid for |
| `Refunds.EstimateRefund` | src/modules/returns/return.service.ts:98-173 | the guard-and-accumulate loop gives the first error or the prorated refund |
| `RefundLaws.RequestAcceptedIff` | src/modules/returns/return.service.ts:115-173 | a request is accepted exactly when each item was bought in that quantity, still exists, is not innerwear, and fragile goods come with a photograph |
| `RefundLaws.DistinctRequestsStayWithinPurchase` | src/modules/returns/return.service.ts:115-133 | an accepted request that repeats no product asks for no more than was bought |
| `RefundLaws.RequestWorthAtMostOrder` | src/modules/returns/return.service.ts:100-160 | such a request is worth at most the order's raw subtotal |
| `RefundLaws.RawIsSubTotal` | src/modules/returns/return.service.ts:100-103 | the raw subtotal recomputed from the order is the one checkout priced |
| `RefundLaws.RefundNeverExceedsPaid` | src/modules/returns/return.service.ts:98-163 | for an order checkout assembled, a request within the purchase refunds between nothing and the rounded discounted subtotal, which is at most the total paid; returning everything from an order without variants refunds exactly the former |
| `RefundLaws.RefundBounds` | src/modules/returns/return.service.ts:98-163 | the same bound from the stored order alone |
| `RefundLaws.WholeLineRefundMatchesInvoice` | src/modules/returns/return.service.ts:112-163 | returning k whole lines refunds their invoiced taxable values within (k+1)/2 paise |
| `RefundLaws.RefundMonotone` | src/modules/returns/return.service.ts:98-163 | asking for more units never refunds less, whatever the discount, as long as the larger estimate is one the schema admits |
| `RefundLaws.RefundWithinPaidIff` | src/modules/returns/return.service.ts:112-163 | on any order the refund stays within what was paid exactly when the discounted worth of what is asked for beyond the order's value is below the room rounding leaves, at most a paisa; so always when no more is asked for than the order is worth |
| `RefundLaws.RepeatedProductRefundsTwice` | src/modules/returns/return.service.ts:115-133 | naming one bought unit twice passes every guard and refunds it twice |
| `Signature.NormalizeAttributes` | src/modules/cart/cart.service.ts:86-124 | the loop over a Map's or an object's entries |
| `Signature.NormalizeKeeps` | src/modules/cart/cart.service.ts:86-124 | exactly the keys stay that are none of `__proto__`, `constructor` and `prototype`, each with the value of its last entry |
| `Signature.SortedKeysUnique` | src/modules/cart/cart.service.ts:131 | the sorted key list is determined by the key set |
| `Signature.KeysInDictionaryOrder` | src/modules/cart/cart.service.ts:131 | keys are listed each once, in dictionary order of their characters |
| `Signature.SignatureReads` | src/modules/cart/cart.service.ts:126-140 | bars before attributes, a colon between key and value, numbers by their digits, truth values as `true` and `false` |
| `Signature.SignatureIsCanonical` | src/modules/cart/cart.service.ts:86-140 | insertion order, Map, plain object or nothing at all, and prototype keys do not change the signature |
| `Signature.SignatureDecodes` | src/modules/cart/cart.service.ts:126-140 | splitting gives back the product and the attribute texts |
| `Signature.SignatureIdentifies` | src/modules/cart/cart.service.ts:126-140 | for clean attributes two lines share a signature exactly when product and texts agree |
| `Signature.SignatureNamesProduct` | src/modules/cart/cart.service.ts:133-139 | whatever the attributes, equal signatures name the same product |
| `Signature.CollideIff` | src/modules/cart/cart.service.ts:131-139 | for any attributes two variants collide exactly when they are of one product and their sorted segments fall into the same pieces at the bars |
| `Signature.UncleanKeysCollide` | src/modules/cart/cart.service.ts:135-137 | a colon in a key may as well belong to the text: any two such variants have one signature |
| `Signature.BarredTextCollides` | src/modules/cart/cart.service.ts:135-139 | a text with a bar passes for the text and a further attribute |
| `Signature.CollideWithoutBarsIff` | src/modules/cart/cart.service.ts:131-139 | without bars variants collide exactly when their sorted segments are the same list |
| `CartService.FindSignature` | src/modules/cart/cart.service.ts:591-597 | finds a line of that signature, or there is none |
| `CartService.PriceLines` | src/modules/cart/cart.service.ts:253-323 | passes 2 and 3 of the quote |
| `CartService.Cart.LiveSubTotal` | src/modules/cart/cart.service.ts:719-725 | the subtotal of the lines still on sale |
| `CartService.Cart.RecalculateCartTotals` | src/modules/cart/cart.service.ts:709-752 | the coupon is re-priced on the live subtotal or stripped |
| `CartService.Cart.MergeItem` | src/modules/cart/cart.service.ts:576-615 | one turn of the merge loop |
| `CartService.Cart.MergeItems` | src/modules/cart/cart.service.ts:575-616 | the merge loop |
| `CartService.Cart.AddItem` | src/modules/cart/cart.service.ts:330-422 | adding succeeds exactly when the sum fits stock and schema, and is then a one-item merge |
| `CartService.Cart.PurgeInactive` | src/modules/cart/cart.service.ts:201-236 | dead lines are dropped, the others summed |
| `CartService.Cart.GetCart` | src/modules/cart/cart.service.ts:174-324 | the healed cart and its quote, or the validator's refusal |
| `MergeLaws.GuestMergeClosedForm` | src/modules/cart/cart.service.ts:575-616 | every signature's quantity after a merge of any items: unchanged if nothing lands on the line, else the sum of what lands, capped by the stock of the product it names |
| `MergeLaws.GuestMergeKeepsLines` | src/modules/cart/cart.service.ts:575-616 | stored lines keep place, product and attributes |
| `MergeLaws.ListedIff` | src/modules/cart/cart.service.ts:591-615 | a line is there afterwards exactly when it was before or a mergeable item brought it |
| `MergeLaws.DistinctLinesKeptIff` | src/modules/cart/cart.service.ts:586-614 | a merge keeps one line per signature exactly when no item in a capital spelling comes when its line is there already |
| `MergeLaws.OrderFreeIff` | src/modules/cart/cart.service.ts:575-616 | for any request and line, every order of the items leaves the same quantity exactly when the line is in the cart already or every item that could open it would leave it the same quantity |
| `MergeLaws.OrderMattersIff` | src/modules/cart/cart.service.ts:586-614 | of a capital and a plain spelling of a new line the two orders disagree exactly when the plain item leaves stock over |
| `MergeLaws.GuestMergeCommitsIff` | src/modules/cart/cart.service.ts:618-625 | a stored cart takes a merge of any items exactly when every mergeable item asks for at most ten units, together with its line and alone, and the coupon does not overshoot |
| `CartEditLaws.CouponAfterEdit` | src/modules/cart/cart.service.ts:709-752 | a recalculation leaves the lines, and keeps the coupon exactly when it holds for the goods on sale, at its worth; otherwise coupon, discount and total are cleared |
| `CartEditLaws.AddOutcome` | src/modules/cart/cart.service.ts:330-422 | adding raises the first line of the variant, or opens one, exactly when the product is on sale, stocked for the sum, the sum is within ten and the coupon does not overshoot; otherwise the cart stays |
| `CartEditLaws.UpdateOutcome` | src/modules/cart/cart.service.ts:430-487 | an update sets that line to the quantity asked, or one, and touches no other line, exactly when the variant is in the cart, on sale, stocked, within ten and the coupon does not overshoot |
| `CartEditLaws.RemoveOutcome` | src/modules/cart/cart.service.ts:492-519 | a removal drops the product's lines and keeps every other line in order |
| `CartEditLaws.MergeOutcome` | src/modules/cart/cart.service.ts:575-625 | a merge replaces the stored cart by the merged one exactly when every mergeable item stays within ten units and the coupon does not overshoot |
| `CartEditLaws.ApplyOutcome` | src/modules/cart/cart.service.ts:636-681 | a coupon goes on exactly when the cart has lines, the coupon holds for the goods on sale and does not overshoot; lines stay and the discount is its worth |
| `CartEditLaws.EmptyingOutcome` | src/modules/cart/cart.service.ts:524-545 | clearing and ordering leave the empty cart, taking the coupon off keeps the lines |
| `CartEditLaws.ShowOutcome` | src/modules/cart/cart.service.ts:201-251 | showing keeps the lines on sale in order and stores the result exactly when a line went or the discount changed; if that save is refused the page fails and the cart stays |
| `CartEditLaws.PageOutcome` | src/modules/cart/cart.service.ts:201-323 | the page taxes each line on sale by the same rules as an order, on the re-priced coupon, with totals over those lines; it fails exactly on an unknown tax profile |
| `CartLaws.DiscountNeedsCoupon` | src/modules/cart/cart.service.ts:709-752 | a recalculation leaves no discount on a cart without a coupon |
| `CartRuns.EveryStoredCartIsSound` | src/modules/cart/cart.service.ts:330-752 | after any sequence of adding, merging, updating, removing, applying and removing coupons, clearing, showing and ordering, in a changing world, the stored cart passes its schema, carries no discount without a coupon and names products in lower case |
| `CartRuns.EveryStoredCartIsQuoted` | src/modules/cart/cart.service.ts:216-323 | so the cart page and checkout agree, as stated below, on every cart that was ever stored |
| `CartLaws.HealingSettles` | src/modules/cart/cart.service.ts:213-251 | healing is idempotent, keeps the quote, and leaves the coupon stripped or worth what the coupon service says of the live subtotal |
| `CartLaws.HealedIsStorableIff` | src/modules/cart/cart.service.ts:234-251 | a stored cart can be saved healed exactly when its accepted coupon does not overshoot the live subtotal; always on whole paise |
| `CartLaws.RecalculatedIsStorableIff` | src/modules/cart/cart.service.ts:709-752 | the schema admits a recalculated cart exactly when every line is within the cap and the coupon does not overshoot |
| `CartLaws.CartRefusedIff` | src/modules/cart/cart.service.ts:242-251 | the cart page refuses a stored cart exactly when its coupon overshoots and a purge or another discount has to be saved |
| `CartLaws.RefusedCart` | src/modules/cart/cart.service.ts:242-251 | a stored cart that checkout takes and the cart page refuses |
| `CartLaws.PriceFormsAgree` | src/modules/cart/cart.service.ts:722-724 | the two formulas for a line's price agree |
| `CartLaws.QuoteRefinesCheckout` | src/modules/cart/cart.service.ts:216-323 | when checkout takes a stored cart the cart page shows the same taxable values, rates, line taxes and shipping, the order costing more by exactly the tax contained in shipping; it refuses instead exactly when it has a new discount to save that overshoots |
| `CartLaws.PriceRefinesCheckout` | src/modules/cart/cart.service.ts:253-315 | the price the cart works out agrees with the order in the same way for any cart checkout takes |
| `Wishlist.List.GetWishlist` | src/modules/wishlists/wishlist.service.ts:67-107 | live entries are shown, deactivated ones purged, deleted ones left |
| `Wishlist.List.AddItem` | src/modules/wishlists/wishlist.service.ts:119-173 | a serial addition, with both refusals |
| `Wishlist.HealingKeepsWhatIsShown` | src/modules/wishlists/wishlist.service.ts:93-99 | a purge hides nothing shown and leaves nothing to purge |
| `Wishlist.ShownPicks` | src/modules/wishlists/wishlist.service.ts:72-92 | shown are exactly the entries whose product exists and is active, in order |
| `Wishlist.PurgePicks` | src/modules/wishlists/wishlist.service.ts:93-99 | a read purges exactly the deactivated products and keeps the rest in order |
| `Wishlist.AdderStartsIff` | src/modules/wishlists/wishlist.service.ts:119-150 | an addition gets past its check exactly for an active product, and with a list at hand only below a hundred entries that do not hold it |
| `Wishlist.EditedList` | src/modules/wishlists/wishlist.service.ts:180-216 | a removed product is gone and every other entry stays in order; clearing empties the list |
| `Wishlist.StepKeeps` | src/modules/wishlists/wishlist.service.ts:131-171 | every concurrent step keeps the list distinct and within the limit |
| `Wishlist.CapacityUnderConcurrency` | src/modules/wishlists/wishlist.service.ts:131-171 | over every run no product is listed twice, and length plus adders in flight is at most 99 plus the most adders ever in flight, so at most 100 when additions are serial |
| `Wishlist.PeakIsMostInFlight` | src/modules/wishlists/wishlist.service.ts:131-171 | the peak in that bound is the most adders in flight after any step of the run |
| `Wishlist.CapacityBoundIsReached` | src/modules/wishlists/wishlist.service.ts:131-171 | for every number of adders that bound is attained |
| `Sanitizer.Sanitize` | src/shared/utils/sanitizer.ts:23-69 | the recursive loops over slots and fields compute the cleaned tree |
| `Sanitizer.SanitizeSlots` | src/shared/utils/sanitizer.ts:30-35 | array slots are reassigned one by one |
| `Sanitizer.SanitizeFields` | src/shared/utils/sanitizer.ts:38-66 | fields are deleted or reassigned one by one |
| `Sanitizer.KeepsExactlyCleanPaths` | src/shared/utils/sanitizer.ts:23-69 | a path survives exactly when no key on it is prohibited, starts with `$` or contains a dot, and ends in the cleaned form of its end |
| `Sanitizer.LeavesAndLengths` | src/shared/utils/sanitizer.ts:30-35 | surviving leaves are unchanged and arrays keep their lengths |
| `Sanitizer.IdentityExactlyOnClean` | src/shared/utils/sanitizer.ts:23-69 | the result is clean, the trees left alone are exactly the clean ones, and a second pass does nothing |

## Left out

- HTTP controllers, routes, request schemas, logging, audit logs, notifications, job workers, caches and document
  rendering: plumbing around libraries. Enqueuing an invoice job is modelled, its work is not.
- Signature and secret verification: booleans carried by the actions.
- Floating-point error and the `Number.EPSILON` nudge: arithmetic is exact.
- Clocks and the seven-day return window: inputs of the operations that read them.
- Administrators editing `currentStock` or `usedCount`, creating and deleting products, creating coupons, and deleting
  accounts' orders: outside both ledgers. Edits of price, discount, activity and coupon terms are steps of the protocol.
- Looking orders up by gateway id, tracking number or return id: an action names the order by position, and a return is
  found under its order, which the unique index on `Return.order` allows.
- Fields carried through unread: names, SKUs, images, HSN codes, addresses, the attributes copied to an order line,
  rejection reasons, return notes.
- Mongoose's second `populate` with a narrower field list while healing a cart, and the validators of unmodified
  fields: library behaviour. `Storable` is the schema's quantity cap and lower bounds.
- The wishlist takes product ids as stored; an id in capital letters only skips the early return, and the guarded push
  is then without effect.
- Sanitize: trees are values and slots are fields of a sequence, so aliasing between parts of one body, which JSON
  parsing does not produce, is not modelled.
- The order of code points in key sorting stands for the order of UTF-16 code units.
