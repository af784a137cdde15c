/** The services as they run: documents updated in place, loops over lines, and a transaction that restores what it
    had changed when it aborts. Each method is proved against the store operation it performs. */
module Shop {
  import opened Wrappers
  import opened Documents
  import opened Stock
  import opened OrderStore
  import Refunds
  import Pricing

  class Shop {
    var products: Catalogue
    var coupons: map<CouponId, Coupon>
    var carts: map<UserId, CartDoc>
    var orders: seq<Order>
    var rmas: map<nat, Return>

    function View(): Store
      reads this
    {
      Store(products, coupons, carts, orders, rmas)
    }

    constructor (s: Store)
      ensures View() == s
    {
      products, coupons, carts, orders, rmas := s.products, s.coupons, s.carts, s.orders, s.rmas;
    }

    /** Pass 1 of checkout: decrement line by line and price each line from the document the update returned. When a
        line cannot be reserved the earlier decrements are still in place, for the caller to roll back. */
    method ReserveLines(items: seq<CartItem>) returns (reserved: bool, lines: seq<Pricing.Line>, subTotal: real)
      modifies this`products
      ensures reserved <==> Reserve(old(products), CartParcels(items)).Some?
      ensures reserved ==>
        && Reserve(old(products), CartParcels(items)) == Some(products)
        && (forall i :: 0 <= i < |items| ==> items[i].product in products)
        && lines == LinesFor(products, items)
        && subTotal == Pricing.SubTotal(lines)
    {
      lines, subTotal := [], 0.0;
      var i := 0;
      while i < |items|
        invariant 0 <= i <= |items|
        invariant Reserve(old(products), CartParcels(items)[..i]) == Some(products)
        invariant forall k :: 0 <= k < i ==> items[k].product in products
        invariant lines == LinesFor(products, items[..i])
        invariant subTotal == Pricing.SubTotal(lines)
      {
        var item := items[i];
        var parcel := Parcel(item.product, item.quantity);
        assert CartParcels(items)[..i + 1][..i] == CartParcels(items)[..i];
        assert CartParcels(items)[..i + 1][i] == parcel;
        if !CanTake(products, parcel) {
          ReserveStaysNone(old(products), CartParcels(items), i + 1);
          reserved := false;
          return;
        }
        LinesStep(products, items, i);
        products := AddStock(products, item.product, 0 - item.quantity);
        var line := LineFor(products, item);
        Pricing.SubTotalAppend(lines, line);
        subTotal := subTotal + Pricing.PreCoupon(line);
        lines := lines + [line];
        i := i + 1;
      }
      assert CartParcels(items)[..i] == CartParcels(items);
      assert items[..i] == items;
      reserved := true;
    }

    /** Coupon and passes 2 and 3 on the reserved lines. */
    method PriceReserved(
      cart: CartDoc, lines: seq<Pricing.Line>, subTotal: real, user: UserId, state: string, payment: PaymentMethod,
      now: int)
      returns (r: Result<Pricing.Assembled, AppError>)
      requires subTotal == Pricing.SubTotal(lines)
      ensures var discount := CheckoutDiscount(View(), cart.appliedCoupon, subTotal, user, payment, now);
        r == if discount.Failure? then Failure(discount.error)
             else Pricing.Assemble(lines, discount.value, cart.appliedCoupon, state)
    {
      var discount := CheckoutDiscount(View(), cart.appliedCoupon, subTotal, user, payment, now);
      if discount.Failure? {
        return Failure(discount.error);
      }
      r := Pricing.AssembleOrder(lines, discount.value, cart.appliedCoupon, state);
    }

    /** `initializeCheckout`: on any error the store is left exactly as it was. */
    method InitializeCheckout(user: UserId, state: string, payment: PaymentMethod, now: int, gateway: Option<string>)
      returns (r: Result<nat, AppError>)
      modifies this
      ensures var spec := Checkout(old(View()), user, state, payment, now, gateway);
        match r
        case Success(id) => spec == Success(View()) && id == |old(orders)|
        case Failure(e) => spec == Failure(e) && View() == old(View())
    {
      if user !in carts || carts[user].items == [] {
        return Failure(EmptyCart);
      }
      var cart := carts[user];
      var session := products;
      var reserved, lines, subTotal := ReserveLines(cart.items);
      if !reserved {
        products := session;
        return Failure(OutOfStock);
      }
      var assembled := PriceReserved(cart, lines, subTotal, user, state, payment, now);
      if assembled.Failure? {
        products := session;
        return Failure(assembled.error);
      }
      if payment == RAZORPAY && gateway.None? {
        products := session;
        return Failure(GatewayUnavailable);
      }
      orders := orders + [NewOrder(user, assembled.value, payment, now, gateway)];
      if payment == COD {
        coupons := CountUse(coupons, cart.appliedCoupon);
      }
      carts := carts[user := EMPTY_CART];
      r := Success(|orders| - 1);
    }

    /** The guarded update shared by the handshake and the webhook. */
    method MarkPaid(i: nat, paymentId: string, signature: Option<string>) returns (won: bool)
      requires i < |orders|
      modifies this`orders
      ensures won <==> Pay(old(View()), i, paymentId, signature).Some?
      ensures View() == if won then Pay(old(View()), i, paymentId, signature).value else old(View())
      ensures TouchesOnly(old(View()), View(), i) && orders[i].paymentStatus != PaymentPending
    {
      won := orders[i].paymentStatus == PaymentPending;
      if won {
        var kept := if signature.Some? then signature else orders[i].gatewaySignature;
        orders := orders[i := orders[i].(paymentStatus := Paid, orderStatus := Processing,
                                         gatewayPaymentId := Some(paymentId), gatewaySignature := kept)];
      }
    }

    /** The increment loop shared by the sweep and the refund's bulk write. */
    method PutBack(parcels: seq<Parcel>)
      modifies this`products
      ensures products == Restock(old(products), parcels)
    {
      var i := 0;
      while i < |parcels|
        invariant 0 <= i <= |parcels|
        invariant products == Restock(old(products), parcels[..i])
      {
        assert parcels[..i + 1][..i] == parcels[..i];
        products := AddStock(products, parcels[i].product, parcels[i].quantity);
        i := i + 1;
      }
      assert parcels[..i] == parcels;
    }

    /** `recoverAbandonedOrders` run without interference: snapshot, then one transaction per order. */
    method RecoverAbandonedOrders(now: int)
      modifies this`orders, this`products
      ensures View() == SweepAll(old(View()), Snapshot(old(orders), now))
    {
      var abandoned := Snapshot(orders, now);
      var k := 0;
      while k < |abandoned|
        invariant 0 <= k <= |abandoned|
        invariant forall j :: 0 <= j < |abandoned| ==> abandoned[j] < |orders|
        invariant |orders| == |old(orders)|
        invariant View() == SweepAll(old(View()), abandoned[..k])
      {
        var i := abandoned[k];
        assert abandoned[..k + 1][..k] == abandoned[..k];
        if orders[i].orderStatus == Pending {
          orders := orders[i := orders[i].(orderStatus := Cancelled)];
          PutBack(OrderParcels(orders[i].items));
        }
        k := k + 1;
      }
      assert abandoned[..k] == abandoned;
    }

    /** `dispatchOrder` after the courier answered: absent identifiers leave the order untouched. */
    method FinishDispatch(i: nat, awb: string, courier: string, shipment: string) returns (dispatched: bool)
      requires i < |orders|
      modifies this`orders
      ensures dispatched <==> awb != "" && shipment != ""
      ensures View() == if dispatched then RecordDispatch(old(View()), i, awb, courier, shipment) else old(View())
      ensures TouchesOnly(old(View()), View(), i) && (dispatched ==> !CanDispatch(orders[i]))
    {
      dispatched := awb != "" && shipment != "";
      if dispatched {
        orders := orders[i := orders[i].(orderStatus := Shipped, trackingNumber := Some(awb),
                                         courierName := Some(courier), shiprocketShipmentId := Some(shipment))];
      }
    }

    /** Shiprocket's webhook for an order found by its tracking number, when nothing comes between its read and its
        save. */
    method CourierWebhook(i: nat, current: string)
      requires i < |orders|
      modifies this`orders
      ensures View() == SetStatus(old(View()), i, CourierStatus(old(orders[i].orderStatus), current))
      ensures TouchesOnly(old(View()), View(), i)
    {
      var newOrderStatus := CourierStatus(orders[i].orderStatus, current);
      if newOrderStatus != orders[i].orderStatus {
        orders := orders[i := orders[i].(orderStatus := newOrderStatus)];
      } else {
        assert orders[i := orders[i].(orderStatus := newOrderStatus)] == orders;
      }
    }

    /** `updateOrderStatus`: the payload is built field by field and written without looking at the order. The request
        schema does not admit PENDING. */
    method UpdateOrderStatus(i: nat, status: OrderStatus, tracking: Option<string>, courier: Option<string>)
      requires i < |orders| && status != Pending
      modifies this`orders
      ensures View() == AdminUpdate(old(View()), i, status, tracking, courier)
      ensures TouchesOnly(old(View()), View(), i) && orders[i].orderStatus != Pending
    {
      var o := orders[i].(orderStatus := status);
      if Truthy(tracking) {
        o := o.(trackingNumber := tracking);
      }
      if Truthy(courier) {
        o := o.(courierName := courier);
      }
      orders := orders[i := o];
    }

    /** Stage 2 of a return: whatever state it is in. */
    method Arbitrate(i: nat, approve: bool) returns (r: Option<AppError>)
      modifies this`orders, this`rmas
      ensures var spec := ArbitrateReturn(old(View()), i, approve);
        match r
        case None => spec == Success(View())
        case Some(e) => spec == Failure(e) && View() == old(View())
    {
      if i !in rmas || i >= |orders| {
        return Some(NotFound);
      }
      if approve {
        rmas := rmas[i := rmas[i].(status := Approved)];
      } else {
        rmas := rmas[i := rmas[i].(status := Rejected)];
        orders := orders[i := orders[i].(orderStatus := Delivered)];
      }
      r := None;
    }

    /** Stage 1 of a return. */
    method OpenReturn(i: nat, user: UserId, windowOpen: bool, request: seq<ReturnItem>, images: nat)
      returns (r: Result<int, AppError>)
      modifies this`orders, this`rmas
      ensures var spec := InitiateReturn(old(View()), i, user, windowOpen, request, images);
        match r
        case Success(refund) => spec == Success(View()) && rmas[i].refundAmountEstimate == refund
        case Failure(e) => spec == Failure(e) && View() == old(View())
    {
      if i >= |orders| || orders[i].user != user {
        return Failure(NotFound);
      }
      var o := orders[i];
      if o.orderStatus != Delivered {
        return Failure(WrongState);
      }
      if !windowOpen {
        return Failure(ReturnWindowClosed);
      }
      var estimate := Refunds.EstimateRefund(products, o.items, o.pricing.discountAmount, request, images);
      if estimate.Failure? {
        return Failure(estimate.error);
      }
      if estimate.value < 0 {
        return Failure(SchemaViolation);
      }
      if i in rmas {
        return Failure(DuplicateReturn);
      }
      rmas := rmas[i := Return(request, PendingApproval, estimate.value)];
      orders := orders[i := o.(orderStatus := ReturnRequested)];
      r := Success(estimate.value);
    }

    /** Stage 3 after the gateway accepted the refund. */
    method FinishRefund(i: nat, writesStatus: bool)
      requires i < |orders| && i in rmas
      modifies this`products, this`orders, this`rmas
      ensures View() == CommitRefund(old(View()), i, writesStatus)
    {
      PutBack(ReturnParcels(rmas[i].items));
      rmas := rmas[i := rmas[i].(status := Refunded)];
      if writesStatus {
        orders := orders[i := orders[i].(orderStatus := Returned)];
      }
    }
  }

  /** Taking stock changes no price, so the lines priced so far stay as they are. */
  lemma LinesStep(ps: Catalogue, items: seq<CartItem>, i: nat)
    requires i < |items| && forall k :: 0 <= k <= i ==> items[k].product in ps
    ensures var after := AddStock(ps, items[i].product, 0 - items[i].quantity);
      LinesFor(after, items[..i + 1]) == LinesFor(ps, items[..i]) + [LineFor(after, items[i])]
  {
    var after := AddStock(ps, items[i].product, 0 - items[i].quantity);
    forall k | 0 <= k < i
      ensures LineFor(after, items[k]) == LineFor(ps, items[k])
    {
    }
  }

  lemma {:induction false} ReserveStaysNone(ps: Catalogue, parcels: seq<Parcel>, i: nat)
    requires i <= |parcels| && Reserve(ps, parcels[..i]).None?
    ensures Reserve(ps, parcels).None?
  {
    if i < |parcels| {
      var front := parcels[..|parcels| - 1];
      assert front[..i] == parcels[..i];
      ReserveStaysNone(ps, front, i);
    } else {
      assert parcels[..i] == parcels;
    }
  }
}
