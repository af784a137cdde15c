/** What the estimates stored with returns are worth, over every run. */
module ReturnTheorems {
  import opened Wrappers
  import opened Money
  import opened Documents
  import opened Stock
  import opened OrderStore
  import opened Protocol
  import opened ProtocolInvariant
  import opened ProtocolRuns
  import opened ProtocolTheorems
  import opened SweepTheorems
  import opened CheckoutLaws
  import opened PricingLaws
  import opened RefundLaws
  import Pricing
  import Refunds

  /** The order is what the pricing pipeline made of these lines. */
  predicate BilledAs(o: Order, ls: seq<Pricing.Line>, state: string) {
    && CouponDiscount(ls, o.pricing.discountAmount)
    && Pricing.Assemble(ls, o.pricing.discountAmount, o.pricing.appliedCoupon, state)
         == Success(Pricing.Assembled(o.items, o.pricing))
  }

  ghost predicate Billed(o: Order) {
    exists ls, state :: BilledAs(o, ls, state)
  }

  /** The return asks for goods the order sold, and its estimate is the prorated refund for them. */
  predicate Estimated(o: Order, r: Return) {
    && EachPurchased(o.items, r.items)
    && r.refundAmountEstimate == Refunds.Refund(o.items, o.pricing.discountAmount, r.items)
    && 0 <= r.refundAmountEstimate
  }

  ghost predicate MoneyInv(s: Store) {
    && (forall i :: 0 <= i < |s.orders| ==> Billed(s.orders[i]))
    && (forall i :: i in s.rmas ==> i < |s.orders| && Estimated(s.orders[i], s.rmas[i]))
  }

  /** An estimate made of a billed order lies between nothing and what was charged for the goods, and that is within
      what was paid, as long as the request names each product once. */
  lemma EstimateWithinPayment(o: Order, r: Return)
    requires Billed(o) && Estimated(o, r) && DistinctProducts(r.items)
    ensures 0 <= r.refundAmountEstimate <= o.pricing.subTotal - o.pricing.discountAmount <= o.pricing.totalAmount
  {
    var ls, state :| BilledAs(o, ls, state);
    forall p
      ensures Demand(ReturnParcels(r.items), p) <= Bought(o.items, p)
    {
      PurchasedDemand(o.items, r.items, p);
    }
    RefundNeverExceedsPaid(ls, o.pricing.discountAmount, o.pricing.appliedCoupon, state, r.items);
    RoundShift(Pricing.SubTotal(ls), 0 - o.pricing.discountAmount);
  }

  // ----- every order is billed, every return estimated

  lemma CheckoutBills(s: Store, user: UserId, state: string, payment: PaymentMethod, now: int, gateway: Option<string>)
    requires Checkout(s, user, state, payment, now, gateway).Success?
    ensures var after := Checkout(s, user, state, payment, now, gateway).value;
      |after.orders| == |s.orders| + 1 && Billed(after.orders[|s.orders|])
  {
    var cart := s.carts[user];
    PricesSurviveReservation(s.products, cart.items);
    var lines := LinesFor(s.products, cart.items);
    CheckoutDiscountFits(s, cart.appliedCoupon, lines, user, payment, now);
    assert BilledAs(Checkout(s, user, state, payment, now, gateway).value.orders[|s.orders|], lines, state);
  }

  /** A step leaves a return's items and estimate alone, or has just opened it. */
  predicate ReturnsKept(s: Store, t: Store, a: Action) {
    forall i :: i in t.rmas ==>
      || (i in s.rmas && t.rmas[i].items == s.rmas[i].items
          && t.rmas[i].refundAmountEstimate == s.rmas[i].refundAmountEstimate)
      || (a.ReturnRequest? && a.order == i && i < |s.orders| && Estimated(s.orders[i], t.rmas[i]))
  }

  lemma RequestOpensEstimated(s: State, a: Action)
    requires a.ReturnRequest?
    ensures ReturnsKept(s.store, DoReturnRequest(s, a).store, a)
  {
    var i := a.order;
    if DoReturnRequest(s, a) != s {
      AcceptedIsPurchased(s.store.products, s.store.orders[i].items, a.items);
    }
  }

  lemma TurnKeepsReturns(s: State, a: Action)
    requires a.Continue?
    ensures ReturnsKept(s.store, DoContinue(s, a).store, a)
  {
    if a.process.Refunding? {
      RefundKeepsReturns(s, a);
    } else {
      TurnKeepsShape(s, a);
    }
  }

  lemma PayKeepsShape(s: State, i: nat, paymentId: string, signature: Option<string>)
    requires i < |s.store.orders| && i < |s.history|
    ensures var t := DoPay(s, i, paymentId, signature);
      |t.store.orders| == |s.store.orders| && t.store.rmas == s.store.rmas
  {
  }

  lemma CancelKeepsShape(s: State, i: nat)
    requires i < |s.store.orders| && i < |s.history|
    ensures DoCancel(s, i).store.rmas == s.store.rmas && |DoCancel(s, i).store.orders| == |s.store.orders|
  {
  }

  /** No turn of a call in flight adds an order, and only a refund's writes returns. */
  lemma TurnKeepsShape(s: State, a: Action)
    requires a.Continue?
    ensures |DoContinue(s, a).store.orders| == |s.store.orders|
    ensures !a.process.Refunding? ==> DoContinue(s, a).store.rmas == s.store.rmas
  {
    match a.process
    case HandshakeRead(_, _, _) => HandshakeKeepsShape(s, a);
    case Sweeping(_, _) => SweepKeepsShape(s, a);
    case Refunding(_, _) => RefundAddsNone(s, a);
    case OweCoupon(_) => CouponKeepsShape(s, a);
    case OweInvoice(_) => InvoiceKeepsShape(s, a);
    case _ => LogisticsKeepShape(s, a);
  }

  lemma HandshakeKeepsShape(s: State, a: Action)
    requires a.Continue? && a.process.HandshakeRead?
    ensures |DoContinue(s, a).store.orders| == |s.store.orders| && DoContinue(s, a).store.rmas == s.store.rmas
  {
    var p := a.process;
    if p in s.procs && p.order < |s.store.orders| && p.order < |s.history| {
      PayKeepsShape(Finish(s, p), p.order, p.paymentId, Some(p.signature));
    }
  }

  lemma SweepKeepsShape(s: State, a: Action)
    requires a.Continue? && a.process.Sweeping?
    ensures |DoContinue(s, a).store.orders| == |s.store.orders| && DoContinue(s, a).store.rmas == s.store.rmas
  {
    var p := a.process;
    if p in s.procs && p.pending != [] && p.pending[0] < |s.store.orders| && p.pending[0] < |s.history| {
      CancelKeepsShape(Replace(s, p, Sweeping(p.pending[1..], p.started)), p.pending[0]);
    }
  }

  lemma RefundAddsNone(s: State, a: Action)
    requires a.Continue? && a.process.Refunding?
    ensures |DoContinue(s, a).store.orders| == |s.store.orders|
  {
  }

  lemma CouponKeepsShape(s: State, a: Action)
    requires a.Continue? && a.process.OweCoupon?
    ensures DoContinue(s, a).store.orders == s.store.orders && DoContinue(s, a).store.rmas == s.store.rmas
  {
  }

  lemma InvoiceKeepsShape(s: State, a: Action)
    requires a.Continue? && a.process.OweInvoice?
    ensures DoContinue(s, a).store.orders == s.store.orders && DoContinue(s, a).store.rmas == s.store.rmas
  {
  }

  lemma LogisticsKeepShape(s: State, a: Action)
    requires a.Continue? && (a.process.Dispatching? || a.process.CourierWriting?)
    ensures |DoContinue(s, a).store.orders| == |s.store.orders| && DoContinue(s, a).store.rmas == s.store.rmas
  {
  }

  lemma RefundKeepsReturns(s: State, a: Action)
    requires a.Continue? && a.process.Refunding?
    ensures ReturnsKept(s.store, DoContinue(s, a).store, a)
  {
  }

  lemma CheckoutKeepsReturns(s: State, a: Action)
    requires a.CheckoutTx?
    ensures ReturnsKept(s.store, DoCheckout(s, a).store, a)
  {
    var r := Checkout(s.store, a.user, a.shipTo, a.payment, s.clock, a.gateway);
    if r.Success? {
      CheckoutEffect(s.store, a.user, a.shipTo, a.payment, s.clock, a.gateway);
    }
  }

  lemma ArbitrateKeepsReturns(s: State, a: Action)
    requires a.Arbitrate?
    ensures ReturnsKept(s.store, DoArbitrate(s, a).store, a)
  {
  }

  lemma OthersKeepReturns(s: State, a: Action)
    requires !a.CheckoutTx? && !a.ReturnRequest? && !a.Continue? && !a.Arbitrate?
    ensures Step(s, a).store.rmas == s.store.rmas
  {
  }

  lemma StepKeepsReturns(s: State, a: Action)
    ensures ReturnsKept(s.store, Step(s, a).store, a)
  {
    match a
    case CheckoutTx(_, _, _, _) => CheckoutKeepsReturns(s, a);
    case ReturnRequest(_, _, _, _, _) => RequestOpensEstimated(s, a);
    case Continue(_, _, _, _, _) => TurnKeepsReturns(s, a);
    case Arbitrate(_, _) => ArbitrateKeepsReturns(s, a);
    case _ => OthersKeepReturns(s, a);
  }

  lemma KeptIsBilled(before: Order, after: Order)
    requires Billed(before) && OrderKept(before, after)
    ensures Billed(after)
  {
    var ls, state :| BilledAs(before, ls, state);
    assert BilledAs(after, ls, state);
  }

  lemma OrdersStayBilled(s: State, t: State)
    requires MoneyInv(s.store) && OrdersKept(s, t)
    requires forall i :: |s.store.orders| <= i < |t.store.orders| ==> Billed(t.store.orders[i])
    ensures forall i :: 0 <= i < |t.store.orders| ==> Billed(t.store.orders[i])
  {
    forall i | 0 <= i < |t.store.orders|
      ensures Billed(t.store.orders[i])
    {
      if i < |s.store.orders| {
        KeptIsBilled(s.store.orders[i], t.store.orders[i]);
      }
    }
  }

  /** Only checkout adds an order, one at a time, and bills it. */
  lemma NewIsBilled(s: State, a: Action)
    ensures var t := Step(s, a);
      forall i :: |s.store.orders| <= i < |t.store.orders| ==> Billed(t.store.orders[i])
  {
    match a
    case CheckoutTx(_, _, _, _) => CheckoutAddsBilled(s, a);
    case Continue(_, _, _, _, _) => TurnKeepsShape(s, a);
    case RazorpayWebhook(_, _, _, _) =>
    case _ => OthersAddNone(s, a);
  }

  lemma CheckoutAddsBilled(s: State, a: Action)
    requires a.CheckoutTx?
    ensures var t := DoCheckout(s, a);
      forall i :: |s.store.orders| <= i < |t.store.orders| ==> Billed(t.store.orders[i])
  {
    if Checkout(s.store, a.user, a.shipTo, a.payment, s.clock, a.gateway).Success? {
      CheckoutBills(s.store, a.user, a.shipTo, a.payment, s.clock, a.gateway);
    }
  }

  lemma OthersAddNone(s: State, a: Action)
    requires !a.CheckoutTx? && !a.Continue? && !a.RazorpayWebhook?
    ensures |Step(s, a).store.orders| == |s.store.orders|
  {
  }

  lemma MoneyStep(s: State, init: State, a: Action)
    requires Inv(s, init) && MoneyInv(s.store)
    ensures MoneyInv(Step(s, a).store)
  {
    StepKeepsOrders(s, init, a);
    NewIsBilled(s, a);
    OrdersStayBilled(s, Step(s, a));
    StepKeepsReturns(s, a);
    KeptReturnsAreEstimated(s, Step(s, a), a);
  }

  lemma KeptReturnsAreEstimated(s: State, t: State, a: Action)
    requires MoneyInv(s.store) && ReturnsKept(s.store, t.store, a) && OrdersKept(s, t)
    ensures forall i :: i in t.store.rmas ==>
      i < |t.store.orders| && Estimated(t.store.orders[i], t.store.rmas[i])
  {
    forall i | i in t.store.rmas
      ensures i < |t.store.orders| && Estimated(t.store.orders[i], t.store.rmas[i])
    {
      assert i < |s.store.orders|;
      assert OrderKept(s.store.orders[i], t.store.orders[i]);
    }
  }

  lemma {:induction false} RunKeepsMoney(init: State, actions: seq<Action>)
    requires Initial(init)
    ensures MoneyInv(Run(init, actions).store)
  {
    if actions == [] {
    } else {
      var front, last := actions[..|actions| - 1], actions[|actions| - 1];
      RunKeepsMoney(init, front);
      RunKeeps(init, front);
      MoneyStep(Run(init, front), init, last);
      assert actions == front + [last];
      RunAppend(init, front, last);
    }
  }

  /** In every reachable state no return promises less than nothing, and one that names each product once promises at
      most what its order was charged for the goods, which is at most what it was charged. */
  lemma EstimatesStayWithinPayment(init: State, s: State, i: nat)
    requires Reachable(init, s) && i in s.store.rmas
    ensures i < |s.store.orders| && 0 <= s.store.rmas[i].refundAmountEstimate
    ensures DistinctProducts(s.store.rmas[i].items) ==>
      var p := s.store.orders[i].pricing;
      s.store.rmas[i].refundAmountEstimate <= p.subTotal - p.discountAmount <= p.totalAmount
  {
    var actions :| Run(init, actions) == s;
    RunKeepsMoney(init, actions);
    if DistinctProducts(s.store.rmas[i].items) {
      EstimateWithinPayment(s.store.orders[i], s.store.rmas[i]);
    }
  }

  /** Nor do the refunds of one order come to more than it was charged, when its return names each product once and was
      approved once at most, without overlap or without a stale commit. */
  lemma RefundsStayWithinPayment(init: State, s: State, i: nat)
    requires Reachable(init, s) && i in s.store.rmas && i < |s.history| && i < |s.store.orders|
    requires Aligned(s) && ApprovedOnce(s, i)
    ensures s.history[i].refunds * s.store.rmas[i].refundAmountEstimate <= s.store.orders[i].pricing.totalAmount
  {
    EstimatesStayWithinPayment(init, s, i);
    RefundsExceedApprovalsIffStale(init, s, i);
    RefundsAreApproved(init, s, i);
    assert s.history[i].refunds == 0 || s.history[i].refunds == 1;
  }

  // ----- a run that gets there

  /** The customer of the opening shop pays, gets the goods, asks to return them and is granted it. */
  lemma ApprovedReturnIsReachable() returns (s: State)
    ensures Reachable(OpeningShop(), s) && Aligned(s) && CanRefund(s.store, 0) && InFlight(s.procs, 0) == 0
  {
    var init := OpeningShop();
    s := OrderIsPlaced();
    s := PaidAndDelivered(init, s);
    var request := [ReturnItem("p", 1)];
    RequestIsAccepted(init, s, request);
    s := RequestedAndApproved(init, s, request);
  }

  lemma RequestedAndApproved(init: State, delivered: State, request: seq<ReturnItem>) returns (s: State)
    requires Reachable(init, delivered) && Aligned(delivered) && |delivered.store.orders| == 1
    requires InitiateReturn(delivered.store, 0, "u", true, request, 0).Success?
    requires delivered.store.orders[0].gatewayPaymentId.Some? && delivered.procs == multiset{OweCoupon(0)}
    ensures Reachable(init, s) && Aligned(s) && CanRefund(s.store, 0) && InFlight(s.procs, 0) == 0
  {
    s := ReachableStep(init, delivered, ReturnRequest(0, "u", true, request, 0));
    s := Granted(init, s);
  }

  lemma Granted(init: State, s: State) returns (t: State)
    requires Reachable(init, s) && Aligned(s) && |s.store.orders| == 1 && 0 in s.store.rmas
    requires s.store.orders[0].gatewayPaymentId.Some? && InFlight(s.procs, 0) == 0
    ensures Reachable(init, t) && Aligned(t) && CanRefund(t.store, 0) && InFlight(t.procs, 0) == 0
  {
    t := ReachableStep(init, s, Arbitrate(0, true));
  }

  lemma PaidAndDelivered(init: State, placed: State) returns (s: State)
    requires Reachable(init, placed) && Aligned(placed) && |placed.store.orders| == 1 && placed.procs == multiset{}
    requires placed.store.orders[0].paymentStatus == PaymentPending && placed.store.orders[0].gatewayOrderId.Some?
    ensures Reachable(init, s) && Aligned(s) && |s.store.orders| == 1 && s.procs == multiset{OweCoupon(0)}
    ensures s.store.products == placed.store.products && s.store.rmas == placed.store.rmas
    ensures var o, was := s.store.orders[0], placed.store.orders[0];
      && o.orderStatus == Delivered && o.gatewayPaymentId.Some? && o.items == was.items && o.user == was.user
      && o.pricing == was.pricing
  {
    s := ReachableStep(init, placed, RazorpayWebhook(0, true, "order.paid", "pay"));
    s := ReachableStep(init, s, AdminEdit(0, Delivered, None, None));
  }

  lemma RequestIsAccepted(init: State, s: State, request: seq<ReturnItem>)
    requires Reachable(init, s) && |s.store.orders| == 1 && request == [ReturnItem("p", 1)]
    requires OrderParcels(s.store.orders[0].items) == [Parcel("p", 1)] && s.store.orders[0].orderStatus == Delivered
    requires s.store.orders[0].user == "u" && s.store.rmas == map[] && "p" in s.store.products
    requires s.store.products["p"].itemType == Bangle && !s.store.products["p"].isFragile
    ensures InitiateReturn(s.store, 0, "u", true, request, 0).Success?
  {
    var o := s.store.orders[0];
    assert |o.items| == 1 && OrderParcels(o.items)[0] == Parcel("p", 1);
    RequestAcceptedIff(s.store.products, o.items, o.pricing.discountAmount, request, 0);
    AcceptedEstimate(init, s, request);
  }

  /** Whatever is accepted of an order on file is worth no less than nothing, when it names each product once. */
  lemma AcceptedEstimate(init: State, s: State, request: seq<ReturnItem>)
    requires Reachable(init, s) && |s.store.orders| == 1 && DistinctProducts(request)
    requires var o := s.store.orders[0];
      Refunds.Estimate(s.store.products, o.items, o.pricing.discountAmount, request, 0).Success?
    ensures var o := s.store.orders[0];
      0 <= Refunds.Estimate(s.store.products, o.items, o.pricing.discountAmount, request, 0).value
  {
    var o := s.store.orders[0];
    var actions :| Run(init, actions) == s;
    RunKeepsMoney(init, actions);
    var ls, state :| BilledAs(o, ls, state);
    DistinctRequestsStayWithinPurchase(s.store.products, o.items, request);
    RefundNeverExceedsPaid(ls, o.pricing.discountAmount, o.pricing.appliedCoupon, state, request);
  }
}
