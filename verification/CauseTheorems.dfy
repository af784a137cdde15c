/** Over every run: whatever an order says of itself was brought about by a step entitled to it. */
module CauseTheorems {
  import opened Wrappers
  import opened Documents
  import opened OrderStore
  import opened Protocol
  import opened ProtocolInvariant
  import opened ProtocolRuns
  import opened ProtocolTheorems
  import opened Journey
  import opened ReturnTheorems
  import CheckoutLaws
  import opened Reference
  import opened BillLaws

  // ----- steps entitled to it

  /** A report of order i's payment, with a valid signature: its owner's handshake, or the gateway's order.paid event.
      */
  predicate IsReport(a: Action, i: nat, owner: UserId) {
    || (a.HandshakeLookup? && a.order == i && a.user == owner && a.signatureValid)
    || (a.RazorpayWebhook? && a.order == i && a.signatureValid && a.event == "order.paid")
  }

  /** The report the order's evidence of payment was taken from. */
  predicate IsEvidence(a: Action, i: nat, o: Order) {
    && IsReport(a, i, o.user)
    && o.gatewayPaymentId == Some(a.paymentId)
    && o.gatewaySignature == if a.HandshakeLookup? then Some(a.signature) else None
  }

  /** A courier's message about order i, with the shared secret. */
  predicate IsCourier(a: Action, i: nat, texts: set<string>) {
    a.CourierWebhook? && a.order == i && a.secretValid && a.current in texts
  }

  predicate IsEdit(a: Action, i: nat, status: OrderStatus) {
    a.AdminEdit? && a.order == i && a.status == status
  }

  /** The write that records order i's shipment. */
  predicate IsShipment(a: Action, i: nat) {
    a.Continue? && a.process == Dispatching(i) && a.ok && a.awb != "" && a.shipment != ""
  }

  /** What can have brought order i to its status. */
  predicate IsCause(a: Action, i: nat, o: Order) {
    IsEdit(a, i, o.orderStatus)
    || match o.orderStatus
       case Pending => a.CheckoutTx? && a.user == o.user && a.payment.RAZORPAY?
       case Processing => (a.CheckoutTx? && a.user == o.user && a.payment.COD?) || IsReport(a, i, o.user)
       case Shipped => IsShipment(a, i)
       case Delivered => IsCourier(a, i, {"DELIVERED"}) || (a.Arbitrate? && a.order == i && !a.approve)
       case Cancelled =>
         || IsCourier(a, i, {"CANCELED", "CANCELLED"})
         || (a.Continue? && a.process.Sweeping? && a.process.pending != [] && a.process.pending[0] == i && a.ok)
       case ReturnRequested => a.ReturnRequest? && a.order == i && a.user == o.user && a.windowOpen
       case Returned =>
         || IsCourier(a, i, {"RTO DELIVERED", "RTO ACKNOWLEDGED"})
         || (a.Continue? && a.process == Refunding(i, true) && a.ok)
  }

  datatype Aspect = Status | Payment | Tracking | Courier | Shipment

  /** There is something to explain. */
  predicate Has(o: Order, aspect: Aspect) {
    match aspect
    case Status => true
    case Payment => o.paymentStatus.Paid?
    case Tracking => o.trackingNumber.Some?
    case Courier => o.courierName.Some?
    case Shipment => o.shiprocketShipmentId.Some?
  }

  predicate Explains(a: Action, i: nat, o: Order, aspect: Aspect) {
    match aspect
    case Status => IsCause(a, i, o)
    case Payment => IsEvidence(a, i, o)
    case Tracking =>
      || (IsShipment(a, i) && o.trackingNumber == Some(a.awb))
      || (a.AdminEdit? && a.order == i && a.tracking != Some("") && o.trackingNumber == a.tracking)
    case Courier =>
      || (IsShipment(a, i) && o.courierName == Some(a.courierName))
      || (a.AdminEdit? && a.order == i && a.courier != Some("") && o.courierName == a.courier)
    case Shipment => IsShipment(a, i) && o.shiprocketShipmentId == Some(a.shipment)
  }

  /** The request a call in flight goes back to. */
  predicate Started(a: Action, p: Process, orders: seq<Order>) {
    match p
    case HandshakeRead(i, paymentId, signature) =>
      i < |orders| && a == HandshakeLookup(i, orders[i].user, true, paymentId, signature)
    case CourierWriting(i, status) =>
      a.CourierWebhook? && a.order == i && a.secretValid && EndOfJourney(a.current) == Some(status)
    case Dispatching(i) => a == DispatchCheck(i)
    case Refunding(i, _) => a == RefundCheck(i)
    case _ => true
  }

  // ----- one step

  predicate SameAspect(o: Order, t: Order, aspect: Aspect) {
    && o.user == t.user
    && match aspect
       case Status => o.orderStatus == t.orderStatus
       case Payment =>
         && o.paymentStatus == t.paymentStatus && o.gatewayPaymentId == t.gatewayPaymentId
         && o.gatewaySignature == t.gatewaySignature
       case Tracking => o.trackingNumber == t.trackingNumber
       case Courier => o.courierName == t.courierName
       case Shipment => o.shiprocketShipmentId == t.shiprocketShipmentId
  }

  lemma SameExplains(a: Action, i: nat, o: Order, t: Order, aspect: Aspect)
    requires SameAspect(o, t, aspect)
    ensures Has(o, aspect) == Has(t, aspect) && Explains(a, i, o, aspect) == Explains(a, i, t, aspect)
  {
  }

  /** A step that changes an aspect explains it, or ends a call whose request does. */
  lemma ChangeIsExplained(s: State, a: Action, i: nat, cause: Action, aspect: Aspect)
    requires Aligned(s) && i < |s.history| && (s.store.orders[i].paymentStatus.Paid? || NoEvidence(s.store.orders[i]))
    requires a.Continue? && a.process in s.procs ==> Started(cause, a.process, s.store.orders)
    ensures var o, t := s.store.orders[i], After(s, a, i, Opens(s.store, a));
      || SameAspect(o, t, aspect) || Explains(a, i, t, aspect)
      || (a.Continue? && a.process in s.procs && Explains(cause, i, t, aspect))
  {
    match a
    case Continue(p, _, _, _, _) => if p in s.procs { TurnIsExplained(s, a, i, cause, aspect); }
    case _ => RequestIsExplained(s, a, i, aspect);
  }

  lemma RequestIsExplained(s: State, a: Action, i: nat, aspect: Aspect)
    requires i < |s.store.orders| && (s.store.orders[i].paymentStatus.Paid? || NoEvidence(s.store.orders[i]))
    requires !a.Continue?
    ensures var o, t := s.store.orders[i], After(s, a, i, Opens(s.store, a));
      SameAspect(o, t, aspect) || Explains(a, i, t, aspect)
  {
  }

  predicate NoEvidence(o: Order) {
    !o.paymentStatus.Paid? && o.gatewayPaymentId.None? && o.gatewaySignature.None?
  }

  lemma TurnIsExplained(s: State, a: Action, i: nat, cause: Action, aspect: Aspect)
    requires i < |s.store.orders| && a.Continue? && a.process in s.procs
    requires s.store.orders[i].paymentStatus.Paid? || NoEvidence(s.store.orders[i])
    requires Started(cause, a.process, s.store.orders)
    ensures var o, t := s.store.orders[i], AfterTurn(s.store.orders[i], a, i, i in s.store.rmas);
      SameAspect(o, t, aspect) || Explains(a, i, t, aspect) || Explains(cause, i, t, aspect)
  {
  }

  lemma NoEvidenceTillPaid(s: State, a: Action, i: nat)
    requires i < |s.store.orders| && (s.store.orders[i].paymentStatus.Paid? || NoEvidence(s.store.orders[i]))
    ensures var t := After(s, a, i, Opens(s.store, a));
      (t.paymentStatus.Paid? || NoEvidence(t)) && t.user == s.store.orders[i].user
  {
  }

  /** A call that a step starts goes back to that step. */
  lemma NewCallsStarted(s: State, a: Action, p: Process)
    requires p in Step(s, a).procs && p !in s.procs
    ensures Started(a, p, s.store.orders)
  {
    match a
    case Continue(_, _, _, _, _) => TurnsStartDebts(s, a, p);
    case RazorpayWebhook(_, _, _, _) => DebtsStarted(s, a, p);
    case CheckoutTx(_, _, _, _) => DebtsStarted(s, a, p);
    case CourierWebhook(_, _, _) => CourierCallStarted(s, a, p);
    case _ => RequestsStarted(s, a, p);
  }

  lemma DebtsStarted(s: State, a: Action, p: Process)
    requires (a.RazorpayWebhook? || a.CheckoutTx?) && p in Step(s, a).procs && p !in s.procs
    ensures p.OweCoupon? || p.OweInvoice?
  {
  }

  lemma RequestsStarted(s: State, a: Action, p: Process)
    requires !a.Continue? && !a.RazorpayWebhook? && !a.CheckoutTx? && !a.CourierWebhook?
    requires p in Step(s, a).procs && p !in s.procs
    ensures Started(a, p, s.store.orders)
  {
  }

  lemma CourierCallStarted(s: State, a: Action, p: Process)
    requires a.CourierWebhook? && p in DoCourierWebhook(s, a).procs && p !in s.procs
    ensures Started(a, p, s.store.orders)
  {
    MessageMeans(s.store.orders[a.order].orderStatus, a.current);
  }

  /** A turn starts nothing but another turn of the same sweep, or what a won payment owes. */
  lemma TurnsStartDebts(s: State, a: Action, p: Process)
    requires a.Continue? && p in DoContinue(s, a).procs && p !in s.procs
    ensures p.Sweeping? || p.OweCoupon? || p.OweInvoice?
  {
  }

  // ----- every run

  ghost predicate IsExplained(actions: seq<Action>, i: nat, o: Order, aspect: Aspect) {
    exists k :: 0 <= k < |actions| && Explains(actions[k], i, o, aspect)
  }

  ghost predicate WasStarted(actions: seq<Action>, p: Process, orders: seq<Order>) {
    exists k :: 0 <= k < |actions| && Started(actions[k], p, orders)
  }

  ghost predicate OrderAttested(actions: seq<Action>, i: nat, o: Order) {
    && (o.paymentStatus.Paid? || NoEvidence(o))
    && forall aspect :: Has(o, aspect) ==> IsExplained(actions, i, o, aspect)
  }

  ghost predicate Attested(actions: seq<Action>, s: State) {
    && Aligned(s)
    && (forall i :: 0 <= i < |s.store.orders| ==> OrderAttested(actions, i, s.store.orders[i]))
    && (forall p :: p in s.procs && !p.Sweeping? ==> WasStarted(actions, p, s.store.orders))
  }

  lemma CallsStayAttested(actions: seq<Action>, s: State, a: Action)
    requires Attested(actions, s) && Aligned(Step(s, a))
    ensures var t := Step(s, a);
      forall p :: p in t.procs && !p.Sweeping? ==> WasStarted(actions + [a], p, t.store.orders)
  {
    var t, all := Step(s, a), actions + [a];
    assert all[|actions|] == a;
    forall p | p in t.procs && !p.Sweeping?
      ensures WasStarted(all, p, t.store.orders)
    {
      OwnersStay(s, a);
      if p in s.procs {
        var k :| 0 <= k < |actions| && Started(actions[k], p, s.store.orders);
        assert Started(all[k], p, t.store.orders);
      } else {
        NewCallsStarted(s, a, p);
        assert Started(all[|actions|], p, t.store.orders);
      }
    }
  }

  lemma OwnersStay(s: State, a: Action)
    requires Aligned(s)
    ensures |s.store.orders| <= |Step(s, a).store.orders|
    ensures forall i :: 0 <= i < |s.store.orders| ==> Step(s, a).store.orders[i].user == s.store.orders[i].user
  {
    forall i | 0 <= i < |s.store.orders|
      ensures i < |Step(s, a).store.orders| && Step(s, a).store.orders[i].user == s.store.orders[i].user
    {
      StepOnOrder(s, a, i);
      OwnerStays(s, a, i);
    }
    if s.store.orders != [] {
      StepOnOrder(s, a, 0);
    }
  }

  lemma OwnerStays(s: State, a: Action, i: nat)
    requires i < |s.store.orders|
    ensures After(s, a, i, Opens(s.store, a)).user == s.store.orders[i].user
  {
  }

  lemma OrderStaysAttested(actions: seq<Action>, s: State, a: Action, i: nat)
    requires Attested(actions, s) && i < |s.store.orders|
    ensures i < |Step(s, a).store.orders| && OrderAttested(actions + [a], i, Step(s, a).store.orders[i])
  {
    var o, t, all := s.store.orders[i], After(s, a, i, Opens(s.store, a)), actions + [a];
    StepOnOrder(s, a, i);
    NoEvidenceTillPaid(s, a, i);
    forall aspect | Has(t, aspect)
      ensures IsExplained(all, i, t, aspect)
    {
      AspectStaysExplained(actions, s, a, i, aspect);
    }
  }

  lemma AspectStaysExplained(actions: seq<Action>, s: State, a: Action, i: nat, aspect: Aspect)
    requires Attested(actions, s) && i < |s.store.orders| && Has(After(s, a, i, Opens(s.store, a)), aspect)
    ensures IsExplained(actions + [a], i, After(s, a, i, Opens(s.store, a)), aspect)
  {
    var o, t, all := s.store.orders[i], After(s, a, i, Opens(s.store, a)), actions + [a];
    assert all[|actions|] == a;
    var cause, n := a, |actions|;
    if a.Continue? && a.process in s.procs && !a.process.Sweeping? {
      n :| 0 <= n < |actions| && Started(actions[n], a.process, s.store.orders);
      cause := actions[n];
    }
    assert all[n] == cause;
    ChangeIsExplained(s, a, i, cause, aspect);
    if SameAspect(o, t, aspect) {
      SameExplains(a, i, o, t, aspect);
      var k :| 0 <= k < |actions| && Explains(actions[k], i, o, aspect);
      SameExplains(all[k], i, o, t, aspect);
    }
  }

  lemma NewOrderAttested(actions: seq<Action>, s: State, a: Action, i: nat)
    requires Aligned(s) && |s.store.orders| <= i < |Step(s, a).store.orders|
    ensures a.CheckoutTx? && OrderAttested(actions + [a], i, Step(s, a).store.orders[i])
  {
    OnlyCheckoutAdds(s, a);
    var all := actions + [a];
    assert all[|actions|] == a;
    var o := PlacedBy(s, a);
    assert Explains(all[|actions|], i, o, Status);
  }

  lemma OnlyCheckoutAdds(s: State, a: Action)
    requires Aligned(s) && |s.store.orders| < |Step(s, a).store.orders|
    ensures a.CheckoutTx? && |Step(s, a).store.orders| == |s.store.orders| + 1
    ensures Checkout(s.store, a.user, a.shipTo, a.payment, s.clock, a.gateway).Success?
  {
    match a
    case CheckoutTx(_, _, _, _) =>
      if Checkout(s.store, a.user, a.shipTo, a.payment, s.clock, a.gateway).Success? {
        CheckoutLaws.CheckoutEffect(s.store, a.user, a.shipTo, a.payment, s.clock, a.gateway);
      }
    case _ => OthersAddNone(s, a);
  }

  lemma OthersAddNone(s: State, a: Action)
    requires Aligned(s) && !a.CheckoutTx?
    ensures |Step(s, a).store.orders| == |s.store.orders|
  {
    match a
    case Continue(_, _, _, _, _) => TurnKeepsShape(s, a);
    case RazorpayWebhook(_, _, _, _) =>
    case _ => ReturnTheorems.OthersAddNone(s, a);
  }

  /** The order a committed checkout puts on file. */
  lemma PlacedBy(s: State, a: Action) returns (o: Order)
    requires Aligned(s) && a.CheckoutTx?
    requires Checkout(s.store, a.user, a.shipTo, a.payment, s.clock, a.gateway).Success?
    ensures Step(s, a).store.orders == s.store.orders + [o]
    ensures o == Order(a.user, o.items, o.pricing, a.payment, PaymentPending,
                       if a.payment.COD? then Processing else Pending, s.clock,
                       if a.payment.COD? then None else a.gateway, None, None, None, None, None)
  {
    CheckoutLaws.CheckoutEffect(s.store, a.user, a.shipTo, a.payment, s.clock, a.gateway);
    var taxes :=
      BillLaws.CommittedOrderIsBilled(s.store, a.user, a.shipTo, a.payment, s.clock, a.gateway);
    o := Step(s, a).store.orders[|s.store.orders|];
  }

  lemma {:induction false} RunIsAttested(init: State, actions: seq<Action>)
    requires Initial(init)
    ensures Attested(actions, Run(init, actions))
  {
    if actions == [] {
      RunNone(init);
    } else {
      var front, last := actions[..|actions| - 1], actions[|actions| - 1];
      RunIsAttested(init, front);
      RunKeeps(init, actions);
      assert actions == front + [last];
      RunAppend(init, front, last);
      StepStaysAttested(front, Run(init, front), last);
    }
  }

  lemma StepStaysAttested(actions: seq<Action>, s: State, a: Action)
    requires Attested(actions, s) && Aligned(Step(s, a))
    ensures Attested(actions + [a], Step(s, a))
  {
    CallsStayAttested(actions, s, a);
    forall i | 0 <= i < |Step(s, a).store.orders|
      ensures OrderAttested(actions + [a], i, Step(s, a).store.orders[i])
    {
      if i < |s.store.orders| {
        OrderStaysAttested(actions, s, a, i);
      } else {
        NewOrderAttested(actions, s, a, i);
      }
    }
  }

  // ----- what it comes to

  /** However handshakes and webhooks interleave, whoever sends them: an order is paid only if some step of the run
      reported its payment with a valid signature, as its owner or by the gateway's event, and the evidence it carries
      is what that step reported. */
  lemma PaidOrdersWereReported(init: State, actions: seq<Action>, i: nat) returns (k: nat)
    requires Initial(init) && i < |Run(init, actions).store.orders|
    requires Run(init, actions).store.orders[i].paymentStatus.Paid?
    ensures k < |actions|
    ensures var o := Run(init, actions).store.orders[i];
      match actions[k]
      case HandshakeLookup(order, user, signatureValid, paymentId, signature) =>
        && order == i && user == o.user && signatureValid
        && o.gatewayPaymentId == Some(paymentId) && o.gatewaySignature == Some(signature)
      case RazorpayWebhook(order, signatureValid, event, paymentId) =>
        && order == i && signatureValid && event == "order.paid"
        && o.gatewayPaymentId == Some(paymentId) && o.gatewaySignature == None
      case _ => false
  {
    RunIsAttested(init, actions);
    var o := Run(init, actions).store.orders[i];
    assert Has(o, Payment);
    k :| 0 <= k < |actions| && Explains(actions[k], i, o, Payment);
  }

  /** Every status an order is ever in was brought about by a step entitled to it: a courier with the shared secret
      naming that end, the owner within the window, a valid report of payment, the sweep, a recorded shipment, a ruling,
      a refund, or an administrator naming the status. */
  lemma StatusesHaveTheirCause(init: State, actions: seq<Action>, i: nat) returns (k: nat)
    requires Initial(init) && i < |Run(init, actions).store.orders|
    ensures k < |actions| && IsCause(actions[k], i, Run(init, actions).store.orders[i])
  {
    RunIsAttested(init, actions);
    var o := Run(init, actions).store.orders[i];
    assert Has(o, Status);
    k :| 0 <= k < |actions| && Explains(actions[k], i, o, Status);
  }

  /** A tracking number, courier's name or shipment id is the one a recorded shipment gave it, and the first two may be
      an administrator's. */
  lemma DispatchTextsHaveTheirSource(init: State, actions: seq<Action>, i: nat, aspect: Aspect) returns (k: nat)
    requires Initial(init) && i < |Run(init, actions).store.orders|
    requires aspect.Tracking? || aspect.Courier? || aspect.Shipment?
    requires Has(Run(init, actions).store.orders[i], aspect)
    ensures k < |actions| && Explains(actions[k], i, Run(init, actions).store.orders[i], aspect)
  {
    RunIsAttested(init, actions);
    var o := Run(init, actions).store.orders[i];
    k :| 0 <= k < |actions| && Explains(actions[k], i, o, aspect);
  }

  /** Every order on file is, to the paisa, the bill of its cart at the prices of the moment it was placed. */
  lemma {:induction false} OrdersAreLiveBills(init: State, actions: seq<Action>, i: nat)
    returns (k: nat, taxes: seq<int>)
    requires Initial(init) && i < |Run(init, actions).store.orders|
    ensures k < |actions|
    ensures IsPlacing(Run(init, actions[..k]), actions[k], i, taxes, Run(init, actions).store.orders[i])
  {
    var front, last := actions[..|actions| - 1], actions[|actions| - 1];
    assert actions == front + [last];
    var s := Run(init, front);
    RunAppend(init, front, last);
    RunKeeps(init, front);
    if i < |s.store.orders| {
      k, taxes := OrdersAreLiveBills(init, front, i);
      assert front[..k] == actions[..k];
      StepKeepsOrders(s, init, last);
      PlacingStays(Run(init, actions[..k]), actions[k], i, taxes, s.store.orders[i], Step(s, last).store.orders[i]);
    } else {
      OnlyCheckoutAdds(s, last);
      taxes := BillLaws.CommittedOrderIsBilled(s.store, last.user, last.shipTo, last.payment, s.clock, last.gateway);
      k := |front|;
      assert actions[..k] == front;
      var o := PlacedBy(s, last);
    }
  }

  /** Order i was made by this checkout in this state: the bill of the user's cart, with the discount its coupon was
      worth then, shipped to where the checkout said. */
  ghost predicate IsPlacing(s: State, a: Action, i: nat, taxes: seq<int>, o: Order) {
    && a.CheckoutTx? && i == |s.store.orders| && a.user in s.store.carts
    && var cart := s.store.carts[a.user];
       && IsBill(s.store.products, cart.items, a.shipTo, o.items, taxes, o.pricing)
       && o.pricing.appliedCoupon == cart.appliedCoupon
       && (match cart.appliedCoupon
           case None => o.pricing.discountAmount == 0
           case Some(c) =>
             && c in s.store.coupons
             && IsDiscount(s.store.coupons[c], LiveWorth(s.store.products, cart.items), o.pricing.discountAmount))
       && o.user == a.user && o.paymentMethod == a.payment && o.createdAt == s.clock
       && o.gatewayOrderId == if a.payment.COD? then None else a.gateway
  }

  lemma PlacingStays(s: State, a: Action, i: nat, taxes: seq<int>, o: Order, t: Order)
    requires IsPlacing(s, a, i, taxes, o) && OrderKept(o, t)
    ensures IsPlacing(s, a, i, taxes, t)
  {
  }
}
