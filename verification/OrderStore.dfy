/** The shared store and its atomic operations: every function below is one MongoDB transaction or one guarded
    update, as a function from the store before to the store after. */
module OrderStore {
  import opened Wrappers
  import opened Documents
  import opened Stock
  import Refunds
  import Pricing
  import CouponService

  /** An order's id is its position; a return (RMA) is stored under its order's id, which the unique index on
      `Return.order` allows. */
  datatype Store = Store(
    products: Catalogue,
    coupons: map<CouponId, Coupon>,
    carts: map<UserId, CartDoc>,
    orders: seq<Order>,
    rmas: map<nat, Return>)
  {
    function WithOrder(i: nat, o: Order): Store
      requires i < |orders|
    {
      this.(orders := orders[i := o])
    }
  }

  // ----- what may happen to an order

  /** Lines, prices and owner are for good; PAID is for good together with its evidence; PENDING is never re-entered; a
      tracking number is never lost; and the only change of payment status is from PENDING to PAID. */
  predicate OrderKept(before: Order, after: Order) {
    && after.items == before.items && after.pricing == before.pricing && after.user == before.user
    && after.paymentMethod == before.paymentMethod && after.gatewayOrderId == before.gatewayOrderId
    && after.createdAt == before.createdAt
    && (before.paymentStatus == Paid ==>
          && after.paymentStatus == Paid && after.gatewayPaymentId == before.gatewayPaymentId
          && after.gatewaySignature == before.gatewaySignature)
    && (after.orderStatus == Pending ==> before.orderStatus == Pending)
    && (Truthy(before.trackingNumber) ==> Truthy(after.trackingNumber))
    && (after.paymentStatus != before.paymentStatus ==>
          before.paymentStatus == PaymentPending && after.paymentStatus == Paid)
  }

  /** Everything but order i and, for arbitration, its return is as it was; order i keeps what is for good. */
  ghost predicate TouchesOnly(before: Store, after: Store, i: nat)
    requires i < |before.orders|
  {
    && |after.orders| == |before.orders| && OrderKept(before.orders[i], after.orders[i])
    && (forall k :: 0 <= k < |before.orders| && k != i ==> after.orders[k] == before.orders[k])
    && (forall k :: k in before.rmas && k != i ==> k in after.rmas && after.rmas[k] == before.rmas[k])
    && after.rmas.Keys == before.rmas.Keys
    && after.products == before.products && after.coupons == before.coupons && after.carts == before.carts
  }

  // ----- checkout

  function LineFor(ps: Catalogue, item: CartItem): Pricing.Line
    requires item.product in ps
  {
    var product := ps[item.product];
    Pricing.Line(item.product, item.quantity, product.ActivePrice(), product.taxProfile)
  }

  function LinesFor(ps: Catalogue, items: seq<CartItem>): seq<Pricing.Line>
    requires forall i :: 0 <= i < |items| ==> items[i].product in ps
  {
    seq(|items|, i requires 0 <= i < |items| => LineFor(ps, items[i]))
  }

  function PreviousOrders(orders: seq<Order>, user: UserId): nat {
    if orders == [] then 0
    else PreviousOrders(orders[..|orders| - 1], user) + if orders[|orders| - 1].user == user then 1 else 0
  }

  /** The coupon is re-read and re-validated against the live subtotal and the chosen payment method. */
  function CheckoutDiscount(
    s: Store, applied: Option<CouponId>, subTotal: real, user: UserId, payment: PaymentMethod, now: int)
    : Result<int, AppError>
  {
    if applied.None? then Success(0)
    else if applied.value !in s.coupons then Failure(CouponStale)
    else
      var c := s.coupons[applied.value];
      if !c.isActive || now > c.expiryDate || c.usedCount >= c.usageLimit then Failure(CouponStale)
      else CouponService.ValidateAndCalculateDiscount(c, subTotal, PreviousOrders(s.orders, user), Some(payment), now)
  }

  /** A gateway order carries the id Razorpay gave it; a cash order starts in PROCESSING. */
  function NewOrder(
    user: UserId, a: Pricing.Assembled, payment: PaymentMethod, now: int, gatewayOrderId: Option<string>)
    : Order
  {
    Order(user, a.items, a.pricing, payment, PaymentPending, if payment == COD then Processing else Pending, now,
          if payment == COD then None else gatewayOrderId, None, None, None, None, None)
  }

  function CountUse(coupons: map<CouponId, Coupon>, c: Option<CouponId>): map<CouponId, Coupon> {
    if c.Some? && c.value in coupons
    then coupons[c.value := coupons[c.value].(usedCount := coupons[c.value].usedCount + 1)]
    else coupons
  }

  /** `initializeCheckout`: `gateway` is Razorpay's reply, absent when the call fails and the transaction aborts. */
  function Checkout(s: Store, user: UserId, state: string, payment: PaymentMethod, now: int, gateway: Option<string>)
    : Result<Store, AppError>
  {
    if user !in s.carts || s.carts[user].items == [] then Failure(EmptyCart)
    else
      var cart := s.carts[user];
      var reserved := Reserve(s.products, CartParcels(cart.items));
      if reserved.None? then Failure(OutOfStock)
      else
        ReservedCovers(s.products, cart.items);
        var lines := LinesFor(reserved.value, cart.items);
        var discount := CheckoutDiscount(s, cart.appliedCoupon, Pricing.SubTotal(lines), user, payment, now);
        if discount.Failure? then Failure(discount.error)
        else
          var assembled := Pricing.Assemble(lines, discount.value, cart.appliedCoupon, state);
          if assembled.Failure? then Failure(assembled.error)
          else if payment == RAZORPAY && gateway.None? then Failure(GatewayUnavailable)
          else
            var coupons := if payment == COD then CountUse(s.coupons, cart.appliedCoupon) else s.coupons;
            var order := NewOrder(user, assembled.value, payment, now, gateway);
            Success(Store(reserved.value, coupons, s.carts[user := EMPTY_CART], s.orders + [order], s.rmas))
  }

  lemma ReservedCovers(ps: Catalogue, items: seq<CartItem>)
    requires Reserve(ps, CartParcels(items)).Some?
    ensures forall i :: 0 <= i < |items| ==> items[i].product in Reserve(ps, CartParcels(items)).value
  {
    ReserveExact(ps, CartParcels(items));
    forall i | 0 <= i < |items|
      ensures items[i].product in ps
    {
      assert CartParcels(items)[i].product == items[i].product;
    }
  }

  // ----- payment

  /** The guarded update of the handshake and of the webhook: it matches only while the payment is PENDING. The
      webhook carries no signature and leaves the stored one alone. */
  function Pay(s: Store, i: nat, paymentId: string, signature: Option<string>): Option<Store>
    requires i < |s.orders|
  {
    if s.orders[i].paymentStatus != PaymentPending then None
    else Some(s.WithOrder(i, PaidOrder(s.orders[i], paymentId, signature)))
  }

  function PaidOrder(o: Order, paymentId: string, signature: Option<string>): Order {
    o.(paymentStatus := Paid,
       orderStatus := Processing,
       gatewayPaymentId := Some(paymentId),
       gatewaySignature := if signature.Some? then signature else o.gatewaySignature)
  }

  // ----- abandoned orders

  /** One transaction of the sweep: cancel if still PENDING, and put the units back. */
  function CancelAbandoned(s: Store, i: nat): Option<Store>
    requires i < |s.orders|
  {
    var o := s.orders[i];
    if o.orderStatus != Pending then None
    else
      Some(s.WithOrder(i, o.(orderStatus := Cancelled)).(products := Restock(s.products, OrderParcels(o.items))))
  }

  /** Thirty minutes, in seconds. */
  const ABANDON_AFTER := 1800

  predicate Abandoned(o: Order, now: int) {
    o.orderStatus == Pending && o.createdAt < now - ABANDON_AFTER
  }

  /** The positions the sweep reads before it starts writing. */
  function Snapshot(orders: seq<Order>, now: int): (r: seq<nat>)
    ensures forall k :: 0 <= k < |r| ==> r[k] < |orders|
  {
    if orders == [] then []
    else
      var last := |orders| - 1;
      Snapshot(orders[..last], now) + if Abandoned(orders[last], now) then [last] else []
  }

  /** The sweep's transactions one after the other; a transaction that finds its order no longer PENDING aborts. */
  function SweepAll(s: Store, pending: seq<nat>): (r: Store)
    requires forall k :: 0 <= k < |pending| ==> pending[k] < |s.orders|
    ensures |r.orders| == |s.orders|
  {
    if pending == [] then s
    else
      var before := SweepAll(s, pending[..|pending| - 1]);
      var after := CancelAbandoned(before, pending[|pending| - 1]);
      if after.Some? then after.value else before
  }

  // ----- logistics

  predicate Truthy(text: Option<string>) {
    text.Some? && text.value != ""
  }

  /** The two firewalls in front of the courier calls. */
  predicate CanDispatch(o: Order) {
    && !Truthy(o.trackingNumber) && o.orderStatus != Shipped
    && !(o.paymentMethod == RAZORPAY && o.paymentStatus != Paid)
  }

  function RecordDispatch(s: Store, i: nat, awb: string, courier: string, shipment: string): Store
    requires i < |s.orders|
  {
    s.WithOrder(i, DispatchedOrder(s.orders[i], awb, courier, shipment))
  }

  function DispatchedOrder(o: Order, awb: string, courier: string, shipment: string): Order {
    o.(orderStatus := Shipped,
       trackingNumber := Some(awb),
       courierName := Some(courier),
       shiprocketShipmentId := Some(shipment))
  }

  /** The order status a courier status maps to; `current` is already upper case. Other texts change nothing. */
  function CourierStatus(status: OrderStatus, current: string): (r: OrderStatus)
    ensures r != status ==> r == Delivered || r == Cancelled || r == Returned
  {
    if current == "DELIVERED" then Delivered
    else if current == "CANCELED" || current == "CANCELLED" then Cancelled
    else if current == "RTO DELIVERED" || current == "RTO ACKNOWLEDGED" then Returned
    else status
  }

  function SetStatus(s: Store, i: nat, status: OrderStatus): Store
    requires i < |s.orders|
  {
    s.WithOrder(i, s.orders[i].(orderStatus := status))
  }

  /** `updateOrderStatus`: unguarded, and empty fields are not written. */
  function AdminUpdate(s: Store, i: nat, status: OrderStatus, tracking: Option<string>, courier: Option<string>): Store
    requires i < |s.orders|
  {
    var o := s.orders[i];
    s.WithOrder(i, o.(
      orderStatus := status,
      trackingNumber := if Truthy(tracking) then tracking else o.trackingNumber,
      courierName := if Truthy(courier) then courier else o.courierName))
  }

  // ----- returns

  /** Stage 1. The schema refuses a negative estimate; the unique index on the order makes a second return of it a
      conflict. */
  function InitiateReturn(s: Store, i: nat, user: UserId, windowOpen: bool, request: seq<ReturnItem>, images: nat)
    : Result<Store, AppError>
  {
    if i >= |s.orders| || s.orders[i].user != user then Failure(NotFound)
    else if s.orders[i].orderStatus != Delivered then Failure(WrongState)
    else if !windowOpen then Failure(ReturnWindowClosed)
    else
      var o := s.orders[i];
      var estimate := Refunds.Estimate(s.products, o.items, o.pricing.discountAmount, request, images);
      if estimate.Failure? then Failure(estimate.error)
      else if estimate.value < 0 then Failure(SchemaViolation)
      else if i in s.rmas then Failure(DuplicateReturn)
      else Success(SetStatus(s, i, ReturnRequested).(
                     rmas := s.rmas[i := Return(request, PendingApproval, estimate.value)]))
  }

  /** Stage 2, without any check of the return's current state. */
  function ArbitrateReturn(s: Store, i: nat, approve: bool): Result<Store, AppError> {
    if i !in s.rmas || i >= |s.orders| then Failure(NotFound)
    else if approve then Success(s.(rmas := s.rmas[i := s.rmas[i].(status := Approved)]))
    else Success(SetStatus(s, i, Delivered).(rmas := s.rmas[i := s.rmas[i].(status := Rejected)]))
  }

  /** The reads in front of the gateway call of stage 3. */
  predicate CanRefund(s: Store, i: nat) {
    && i < |s.orders| && i in s.rmas
    && s.rmas[i].status == Approved
    && s.orders[i].gatewayPaymentId.Some?
  }

  /** The transaction after the gateway call. The order's status is written unless the document loaded before the
      call already said RETURNED. */
  function CommitRefund(s: Store, i: nat, writesStatus: bool): Store
    requires i < |s.orders| && i in s.rmas
  {
    var r := s.rmas[i];
    var o := s.orders[i];
    Store(
      Restock(s.products, ReturnParcels(r.items)), s.coupons, s.carts,
      if writesStatus then s.orders[i := o.(orderStatus := Returned)] else s.orders,
      s.rmas[i := r.(status := Refunded)])
  }
}
