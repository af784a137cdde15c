/** What one committed checkout, one sweep and one late payment do to the store. */
module CheckoutLaws {
  import opened Wrappers
  import opened Documents
  import opened Stock
  import opened OrderStore
  import Pricing
  import PricingLaws
  import CouponService

  /** Reserving changes no price, so the lines can be priced from the catalogue before it. */
  lemma PricesSurviveReservation(ps: Catalogue, items: seq<CartItem>)
    requires Reserve(ps, CartParcels(items)).Some?
    ensures forall i :: 0 <= i < |items| ==>
      items[i].product in ps && items[i].product in Reserve(ps, CartParcels(items)).value
    ensures LinesFor(Reserve(ps, CartParcels(items)).value, items) == LinesFor(ps, items)
  {
    ReservedCovers(ps, items);
    ReserveExact(ps, CartParcels(items));
    var after := Reserve(ps, CartParcels(items)).value;
    forall i | 0 <= i < |items|
      ensures items[i].product in ps && LineFor(after, items[i]) == LineFor(ps, items[i])
    {
      assert items[i].product in after;
    }
  }

  /** Checkout commits exactly when the whole cart fits the stock, the coupon (if any) is accepted on the live
      subtotal, every tax profile is known, and the gateway answers a prepaid order. Nothing else can stop it: the
      guard against a negative total is dead code. */
  lemma CheckoutSucceedsIff(
    s: Store, user: UserId, state: string, payment: PaymentMethod, now: int, gateway: Option<string>)
    ensures Checkout(s, user, state, payment, now, gateway).Success?
       <==> && user in s.carts && s.carts[user].items != []
            && Fits(s.products, CartParcels(s.carts[user].items))
            && (forall i :: 0 <= i < |s.carts[user].items| ==> s.carts[user].items[i].product in s.products)
            && var lines := LinesFor(s.products, s.carts[user].items);
               && CheckoutDiscount(s, s.carts[user].appliedCoupon, Pricing.SubTotal(lines), user, payment, now).Success?
               && Pricing.Taxable(lines)
               && (payment == COD || gateway.Some?)
  {
    if user in s.carts && s.carts[user].items != [] {
      ReserveExact(s.products, CartParcels(s.carts[user].items));
      if Fits(s.products, CartParcels(s.carts[user].items)) {
        PricesSurviveReservation(s.products, s.carts[user].items);
        var lines := LinesFor(s.products, s.carts[user].items);
        AssemblySucceedsIff(s, s.carts[user].appliedCoupon, lines, user, state, payment, now);
      }
    }
  }

  lemma AssemblySucceedsIff(
    s: Store, applied: Option<CouponId>, lines: seq<Pricing.Line>, user: UserId, state: string,
    payment: PaymentMethod, now: int)
    ensures var discount := CheckoutDiscount(s, applied, Pricing.SubTotal(lines), user, payment, now);
      discount.Success? ==>
        (Pricing.Assemble(lines, discount.value, applied, state).Success? <==> Pricing.Taxable(lines))
  {
    var discount := CheckoutDiscount(s, applied, Pricing.SubTotal(lines), user, payment, now);
    if discount.Success? {
      CheckoutDiscountFits(s, applied, lines, user, payment, now);
      PricingLaws.TotalIsNeverNegative(lines, discount.value, applied, state);
    }
  }

  /** Whatever discount checkout accepts is non-negative and fits the subtotal up to half a paisa. */
  lemma CheckoutDiscountFits(
    s: Store, applied: Option<CouponId>, lines: seq<Pricing.Line>, user: UserId, payment: PaymentMethod, now: int)
    requires CheckoutDiscount(s, applied, Pricing.SubTotal(lines), user, payment, now).Success?
    ensures PricingLaws.CouponDiscount(
              lines, CheckoutDiscount(s, applied, Pricing.SubTotal(lines), user, payment, now).value)
  {
    SubTotalNonNegative(lines);
    if applied.Some? {
      CouponService.DiscountBounds(s.coupons[applied.value], Pricing.SubTotal(lines));
    }
  }

  lemma {:induction false} SubTotalNonNegative(lines: seq<Pricing.Line>)
    ensures 0.0 <= Pricing.SubTotal(lines)
  {
    if lines == [] {
    } else {
      var front, last := lines[..|lines| - 1], lines[|lines| - 1];
      assert lines == front + [last];
      SubTotalNonNegative(front);
      Pricing.SubTotalAppend(front, last);
    }
  }

  /** A committed checkout takes the cart's units and nothing else, records them on one new PENDING-or-PROCESSING
      order priced by the pipeline, empties that cart, and counts a coupon use only for cash on delivery. */
  lemma CheckoutEffect(s: Store, user: UserId, state: string, payment: PaymentMethod, now: int, gateway: Option<string>)
    requires Checkout(s, user, state, payment, now, gateway).Success?
    ensures var after := Checkout(s, user, state, payment, now, gateway).value;
      var cart := s.carts[user];
      var order := after.orders[|s.orders|];
      && after.products == Shifted(s.products, CartParcels(cart.items), Take)
      && after.orders == s.orders + [order]
      && after.rmas == s.rmas
      && after.carts == s.carts[user := CartDoc([], None, 0, 0.0)]
      && after.coupons == (if payment == COD then CountUse(s.coupons, cart.appliedCoupon) else s.coupons)
      && OrderParcels(order.items) == CartParcels(cart.items)
      && Fits(s.products, CartParcels(cart.items))
      && order.pricing.appliedCoupon == cart.appliedCoupon
      && (cart.appliedCoupon.Some? ==> cart.appliedCoupon.value in s.coupons)
      && order.user == user && order.createdAt == now
      && order.paymentMethod == payment && order.paymentStatus == PaymentPending
      && order.orderStatus == (if payment == COD then Processing else Pending)
      && order.gatewayOrderId.Some? == (payment == RAZORPAY)
      && order.gatewayPaymentId.None? && order.shiprocketShipmentId.None? && order.trackingNumber.None?
  {
    var cart := s.carts[user];
    ReserveExact(s.products, CartParcels(cart.items));
    PricesSurviveReservation(s.products, cart.items);
    var order := Checkout(s, user, state, payment, now, gateway).value.orders[|s.orders|];
    assert OrderParcels(order.items) == CartParcels(cart.items);
  }

  /** PENDING for more than half an hour. */
  predicate Overdue(o: Order, now: int) {
    o.orderStatus.Pending? && o.createdAt + 1800 < now
  }

  /** The units of all the orders a sweep puts back. */
  function OverdueParcels(orders: seq<Order>, now: int): seq<Parcel> {
    if orders == [] then []
    else
      var last := orders[|orders| - 1];
      OverdueParcels(orders[..|orders| - 1], now) + if Overdue(last, now) then OrderParcels(last.items) else []
  }

  /** Run alone, the sweep cancels every order that has been PENDING for more than half an hour, touches no other order,
      and puts back exactly the units of the orders it cancelled. */
  lemma SerialSweep(s: Store, now: int)
    ensures var after := SweepAll(s, Snapshot(s.orders, now));
      && |after.orders| == |s.orders|
      && (forall i :: 0 <= i < |s.orders| ==>
            after.orders[i]
              == if Overdue(s.orders[i], now) then s.orders[i].(orderStatus := Cancelled) else s.orders[i])
      && after == s.(orders := after.orders, products := Shifted(s.products, OverdueParcels(s.orders, now), PutBack))
  {
    SweepPrefix(s, now, |s.orders|);
    assert s.orders[..|s.orders|] == s.orders;
    RestockExact(s.products, OverdueParcels(s.orders, now));
  }

  /** The first n orders as the sweep leaves them, the rest as they were. */
  function CancelledUpTo(orders: seq<Order>, now: int, n: nat): seq<Order> {
    seq(|orders|, i requires 0 <= i < |orders| =>
      if i < n && Overdue(orders[i], now) then orders[i].(orderStatus := Cancelled) else orders[i])
  }

  function SweptUpTo(s: Store, now: int, n: nat): Store
    requires n <= |s.orders|
  {
    s.(orders := CancelledUpTo(s.orders, now, n), products := Restock(s.products, OverdueParcels(s.orders[..n], now)))
  }

  lemma {:induction false} SweepPrefix(s: Store, now: int, n: nat)
    requires n <= |s.orders|
    ensures SweepAll(s, Snapshot(s.orders[..n], now)) == SweptUpTo(s, now, n)
  {
    if n == 0 {
      assert CancelledUpTo(s.orders, now, 0) == s.orders;
    } else {
      SweepPrefix(s, now, n - 1);
      SweepNext(s, now, n - 1);
    }
  }

  lemma SweepNext(s: Store, now: int, i: nat)
    requires i < |s.orders| && SweepAll(s, Snapshot(s.orders[..i], now)) == SweptUpTo(s, now, i)
    ensures SweepAll(s, Snapshot(s.orders[..i + 1], now)) == SweptUpTo(s, now, i + 1)
  {
    assert s.orders[..i + 1] == s.orders[..i] + [s.orders[i]];
    SnapshotAppend(s.orders[..i], s.orders[i], now);
    SweptStep(s, now, i);
    if Overdue(s.orders[i], now) {
      SweepAppend(s, Snapshot(s.orders[..i], now), i);
    }
  }

  /** The snapshot lists exactly the overdue orders, each once, in order. */
  lemma {:induction false} SnapshotListsOverdue(orders: seq<Order>, now: int)
    ensures forall k :: k in Snapshot(orders, now) <==> 0 <= k < |orders| && Overdue(orders[k], now)
    ensures forall i, j :: 0 <= i < j < |Snapshot(orders, now)| ==> Snapshot(orders, now)[i] < Snapshot(orders, now)[j]
  {
    if orders == [] {
    } else {
      var n := |orders| - 1;
      SnapshotListsOverdue(orders[..n], now);
    }
  }

  lemma SweptStep(s: Store, now: int, i: nat)
    requires i < |s.orders|
    ensures var after := CancelAbandoned(SweptUpTo(s, now, i), i);
      if Overdue(s.orders[i], now) then after == Some(SweptUpTo(s, now, i + 1))
      else SweptUpTo(s, now, i + 1) == SweptUpTo(s, now, i)
  {
    assert s.orders[..i + 1] == s.orders[..i] + [s.orders[i]];
    OverdueParcelsAppend(s.orders[..i], s.orders[i], now);
    if Overdue(s.orders[i], now) {
      CancelStep(s, now, i, OverdueParcels(s.orders[..i], now));
    } else {
      assert CancelledUpTo(s.orders, now, i + 1) == CancelledUpTo(s.orders, now, i);
    }
  }

  lemma CancelStep(s: Store, now: int, i: nat, parcels: seq<Parcel>)
    requires i < |s.orders| && Overdue(s.orders[i], now)
    ensures var before := s.(orders := CancelledUpTo(s.orders, now, i), products := Restock(s.products, parcels));
      CancelAbandoned(before, i)
        == Some(s.(orders := CancelledUpTo(s.orders, now, i + 1),
                   products := Restock(s.products, parcels + OrderParcels(s.orders[i].items))))
  {
    RestockConcat(s.products, parcels, OrderParcels(s.orders[i].items));
    assert CancelledUpTo(s.orders, now, i + 1)
        == CancelledUpTo(s.orders, now, i)[i := s.orders[i].(orderStatus := Cancelled)];
  }

  lemma SnapshotAppend(front: seq<Order>, o: Order, now: int)
    ensures Snapshot(front + [o], now)
         == if Overdue(o, now) then Snapshot(front, now) + [|front|] else Snapshot(front, now)
  {
    assert (front + [o])[..|front|] == front;
  }

  lemma OverdueParcelsAppend(front: seq<Order>, o: Order, now: int)
    ensures OverdueParcels(front + [o], now)
         == if Overdue(o, now) then OverdueParcels(front, now) + OrderParcels(o.items)
            else OverdueParcels(front, now)
  {
    assert (front + [o])[..|front|] == front;
  }

  lemma SweepAppend(s: Store, pending: seq<nat>, i: nat)
    requires i < |s.orders| && forall k :: 0 <= k < |pending| ==> pending[k] < |s.orders|
    ensures var before := SweepAll(s, pending);
      var after := CancelAbandoned(before, i);
      SweepAll(s, pending + [i]) == if after.Some? then after.value else before
  {
    assert (pending + [i])[..|pending|] == pending;
  }

  lemma {:induction false} RestockConcat(ps: Catalogue, a: seq<Parcel>, b: seq<Parcel>)
    ensures Restock(ps, a + b) == Restock(Restock(ps, a), b)
  {
    if b == [] {
      assert a + b == a;
    } else {
      var front := b[..|b| - 1];
      RestockConcat(ps, a, front);
      assert (a + b)[..|a + b| - 1] == a + front;
    }
  }

  /** The payment updates look only at the payment status. A payment reported after the sweep cancelled its order
      therefore reopens it as PROCESSING although its units are back on sale. */
  lemma LatePaymentReopens(s: Store, i: nat, paymentId: string, signature: Option<string>)
    requires i < |s.orders|
    ensures s.orders[i].orderStatus == Pending && s.orders[i].paymentStatus == PaymentPending ==>
      var swept := CancelAbandoned(s, i);
      var paid := Pay(swept.value, i, paymentId, signature);
      && swept.Some? && paid.Some?
      && paid.value.orders[i].orderStatus == Processing && paid.value.orders[i].paymentStatus == Paid
      && paid.value.products == Shifted(s.products, OrderParcels(s.orders[i].items), PutBack)
  {
    RestockExact(s.products, OrderParcels(s.orders[i].items));
  }
}
