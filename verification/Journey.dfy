/** The protocol as one order lives it: what each step makes of it, written without the services' operations. */
module Journey {
  import opened Wrappers
  import opened Documents
  import opened Stock
  import opened OrderStore
  import opened Protocol
  import opened ProtocolInvariant
  import opened ProtocolRuns
  import CheckoutLaws
  import ReturnLaws

  function NonEmpty(text: Option<string>, otherwise: Option<string>): Option<string> {
    match text
    case None => otherwise
    case Some(t) => if |t| == 0 then otherwise else text
  }

  /** The status a courier's text stands for, if it is one that ends the journey. */
  function EndOfJourney(text: string): Option<OrderStatus> {
    if text == "DELIVERED" then Some(Delivered)
    else if text in {"CANCELED", "CANCELLED"} then Some(Cancelled)
    else if text in {"RTO DELIVERED", "RTO ACKNOWLEDGED"} then Some(Returned)
    else None
  }

  /** The order once this payment is accepted. */
  function AsPaid(o: Order, paymentId: string, signature: Option<string>): Order {
    Order(o.user, o.items, o.pricing, o.paymentMethod, Paid, Processing, o.createdAt, o.gatewayOrderId, Some(paymentId),
          if signature.Some? then signature else o.gatewaySignature, o.trackingNumber, o.courierName,
          o.shiprocketShipmentId)
  }

  /** The order once it is handed to the courier. */
  function AsShipped(o: Order, awb: string, courier: string, shipment: string): Order {
    Order(o.user, o.items, o.pricing, o.paymentMethod, o.paymentStatus, Shipped, o.createdAt, o.gatewayOrderId,
          o.gatewayPaymentId, o.gatewaySignature, Some(awb), Some(courier), Some(shipment))
  }

  /** What a call's next write makes of order i. */
  function AfterTurn(o: Order, a: Action, i: nat, onFile: bool): Order
    requires a.Continue?
  {
    match a.process
    case HandshakeRead(k, paymentId, signature) =>
      if k == i && a.ok && o.paymentStatus.PaymentPending? then AsPaid(o, paymentId, Some(signature)) else o
    case Sweeping(pending, _) =>
      if |pending| != 0 && pending[0] == i && a.ok && o.orderStatus.Pending? then o.(orderStatus := Cancelled) else o
    case Dispatching(k) =>
      if k == i && a.ok && |a.awb| != 0 && |a.shipment| != 0 then AsShipped(o, a.awb, a.courierName, a.shipment) else o
    case CourierWriting(k, status) => if k == i then o.(orderStatus := status) else o
    case Refunding(k, writes) => if k == i && a.ok && onFile && writes then o.(orderStatus := Returned) else o
    case _ => o
  }

  /** What a step makes of order i; `opens` says that the return it asks for is taken. */
  function After(s: State, a: Action, i: nat, opens: bool): Order
    requires i < |s.store.orders|
  {
    var o := s.store.orders[i];
    match a
    case RazorpayWebhook(k, signatureValid, event, paymentId) =>
      if k == i && signatureValid && event == "order.paid" && o.gatewayOrderId.Some? && o.paymentStatus.PaymentPending?
      then AsPaid(o, paymentId, None) else o
    case AdminEdit(k, status, tracking, courier) =>
      if k == i && !status.Pending?
      then o.(orderStatus := status, trackingNumber := NonEmpty(tracking, o.trackingNumber),
              courierName := NonEmpty(courier, o.courierName))
      else o
    case ReturnRequest(k, _, _, _, _) => if k == i && opens then o.(orderStatus := ReturnRequested) else o
    case Arbitrate(k, approve) => if k == i && i in s.store.rmas && !approve then o.(orderStatus := Delivered) else o
    case Continue(p, _, _, _, _) => if p in s.procs then AfterTurn(o, a, i, i in s.store.rmas) else o
    case _ => o
  }

  predicate Opens(s: Store, a: Action) {
    a.ReturnRequest? && InitiateReturn(s, a.order, a.user, a.windowOpen, a.items, a.images).Success?
  }

  /** That is what the protocol does to every order. */
  lemma StepOnOrder(s: State, a: Action, i: nat)
    requires Aligned(s) && i < |s.history|
    ensures var t := Step(s, a);
      |s.store.orders| <= |t.store.orders| && t.store.orders[i] == After(s, a, i, Opens(s.store, a))
  {
    match a
    case CheckoutTx(_, _, _, _) => CheckoutOnOrder(s, a, i);
    case Continue(p, _, _, _, _) => if p in s.procs { TurnOnOrder(s, a, i); }
    case RazorpayWebhook(_, _, _, _) => WebhookOnOrder(s, a, i);
    case AdminEdit(_, _, _, _) => AdminOnOrder(s, a, i);
    case ReturnRequest(_, _, _, _, _) => RequestOnOrder(s, a, i);
    case Arbitrate(_, _) => RulingOnOrder(s, a, i);
    case _ => OthersOnOrder(s, a);
  }

  lemma CheckoutOnOrder(s: State, a: Action, i: nat)
    requires a.CheckoutTx? && i < |s.store.orders|
    ensures |s.store.orders| <= |DoCheckout(s, a).store.orders|
    ensures DoCheckout(s, a).store.orders[i] == s.store.orders[i]
  {
    var r := Checkout(s.store, a.user, a.shipTo, a.payment, s.clock, a.gateway);
    if r.Success? {
      CheckoutLaws.CheckoutEffect(s.store, a.user, a.shipTo, a.payment, s.clock, a.gateway);
    }
  }

  lemma PayOnOrder(s: State, k: nat, paymentId: string, signature: Option<string>, i: nat)
    requires Aligned(s) && k < |s.history| && i < |s.history|
    ensures var t, o := DoPay(s, k, paymentId, signature), s.store.orders[i];
      && |t.store.orders| == |s.store.orders|
      && t.store.orders[i]
           == if k == i && o.paymentStatus.PaymentPending? then AsPaid(o, paymentId, signature) else o
  {
  }

  lemma WebhookOnOrder(s: State, a: Action, i: nat)
    requires Aligned(s) && a.RazorpayWebhook? && i < |s.history|
    ensures |DoWebhook(s, a).store.orders| == |s.store.orders|
    ensures DoWebhook(s, a).store.orders[i] == After(s, a, i, false)
  {
    if a.order < |s.history| {
      PayOnOrder(s, a.order, a.paymentId, None, i);
    }
  }

  lemma AdminOnOrder(s: State, a: Action, i: nat)
    requires a.AdminEdit? && i < |s.store.orders|
    ensures |DoAdminEdit(s, a).store.orders| == |s.store.orders|
    ensures DoAdminEdit(s, a).store.orders[i] == After(s, a, i, false)
  {
  }

  lemma RequestOnOrder(s: State, a: Action, i: nat)
    requires a.ReturnRequest? && i < |s.store.orders|
    ensures |DoReturnRequest(s, a).store.orders| == |s.store.orders|
    ensures DoReturnRequest(s, a).store.orders[i] == After(s, a, i, Opens(s.store, a))
  {
  }

  lemma RulingOnOrder(s: State, a: Action, i: nat)
    requires Aligned(s) && a.Arbitrate? && i < |s.store.orders|
    ensures |DoArbitrate(s, a).store.orders| == |s.store.orders|
    ensures DoArbitrate(s, a).store.orders[i] == After(s, a, i, false)
  {
  }

  /** The other requests, apart from checkout, write to no order. */
  lemma OthersOnOrder(s: State, a: Action)
    requires !a.CheckoutTx? && !a.Continue? && !a.RazorpayWebhook? && !a.AdminEdit?
    requires !a.ReturnRequest? && !a.Arbitrate?
    ensures Step(s, a).store.orders == s.store.orders
  {
  }

  lemma CancelOnOrder(s: State, k: nat, i: nat)
    requires Aligned(s) && k < |s.history| && i < |s.history|
    ensures var t, o := DoCancel(s, k), s.store.orders[i];
      && |t.store.orders| == |s.store.orders|
      && t.store.orders[i] == if k == i && o.orderStatus.Pending? then o.(orderStatus := Cancelled) else o
  {
  }

  lemma TurnOnOrder(s: State, a: Action, i: nat)
    requires Aligned(s) && i < |s.history| && a.Continue? && a.process in s.procs
    ensures |DoContinue(s, a).store.orders| == |s.store.orders|
    ensures DoContinue(s, a).store.orders[i] == AfterTurn(s.store.orders[i], a, i, i in s.store.rmas)
  {
    var p := a.process;
    match p
    case HandshakeRead(_, _, _) => HandshakeOnOrder(s, a, i);
    case Sweeping(_, _) => SweepOnOrder(s, a, i);
    case Dispatching(_) => DispatchOnOrder(s, a, i);
    case CourierWriting(_, _) => CourierOnOrder(s, a, i);
    case Refunding(_, _) => RefundOnOrder(s, a, i);
    case _ => DebtOnOrder(s, a);
  }

  lemma DebtOnOrder(s: State, a: Action)
    requires a.Continue? && (a.process.OweCoupon? || a.process.OweInvoice?)
    ensures DoContinue(s, a).store.orders == s.store.orders
  {
  }

  lemma HandshakeOnOrder(s: State, a: Action, i: nat)
    requires Aligned(s) && i < |s.history| && a.Continue? && a.process.HandshakeRead? && a.process in s.procs
    ensures |DoContinue(s, a).store.orders| == |s.store.orders|
    ensures DoContinue(s, a).store.orders[i] == AfterTurn(s.store.orders[i], a, i, i in s.store.rmas)
  {
    var p := a.process;
    if p.order < |s.history| {
      PayOnOrder(Finish(s, p), p.order, p.paymentId, Some(p.signature), i);
    }
  }

  lemma SweepOnOrder(s: State, a: Action, i: nat)
    requires Aligned(s) && i < |s.history| && a.Continue? && a.process.Sweeping? && a.process in s.procs
    ensures |DoContinue(s, a).store.orders| == |s.store.orders|
    ensures DoContinue(s, a).store.orders[i] == AfterTurn(s.store.orders[i], a, i, i in s.store.rmas)
  {
    var pending, started := a.process.pending, a.process.started;
    if pending != [] && pending[0] < |s.history| {
      CancelOnOrder(Replace(s, a.process, Sweeping(pending[1..], started)), pending[0], i);
    }
  }

  lemma CourierOnOrder(s: State, a: Action, i: nat)
    requires i < |s.store.orders| && a.Continue? && a.process.CourierWriting? && a.process in s.procs
    ensures |DoContinue(s, a).store.orders| == |s.store.orders|
    ensures DoContinue(s, a).store.orders[i] == AfterTurn(s.store.orders[i], a, i, i in s.store.rmas)
  {
  }

  lemma DispatchOnOrder(s: State, a: Action, i: nat)
    requires Aligned(s) && i < |s.history| && a.Continue? && a.process.Dispatching? && a.process in s.procs
    ensures |DoContinue(s, a).store.orders| == |s.store.orders|
    ensures DoContinue(s, a).store.orders[i] == AfterTurn(s.store.orders[i], a, i, i in s.store.rmas)
  {
  }

  lemma RefundOnOrder(s: State, a: Action, i: nat)
    requires Aligned(s) && i < |s.history| && a.Continue? && a.process.Refunding? && a.process in s.procs
    ensures |DoContinue(s, a).store.orders| == |s.store.orders|
    ensures DoContinue(s, a).store.orders[i] == AfterTurn(s.store.orders[i], a, i, i in s.store.rmas)
  {
  }

  // ----- whole calls, from their first read to their last write

  /** The calls after a request that starts this one if it may. */
  function Joined(procs: multiset<Process>, p: Process, admitted: bool): multiset<Process> {
    procs + if admitted then multiset{p} else multiset{}
  }

  lemma LookupJoins(s: State, a: Action)
    requires a.HandshakeLookup? && a.order < |s.store.orders|
    ensures var o, t := s.store.orders[a.order], Step(s, a);
      && t.store == s.store && t.history == s.history
      && t.procs == Joined(s.procs, HandshakeRead(a.order, a.paymentId, a.signature),
                           o.gatewayOrderId.Some? && o.user == a.user && !o.paymentStatus.Paid? && a.signatureValid)
  {
  }

  /** Not dispatched yet, and paid or to be paid on delivery. */
  predicate MayShip(o: Order) {
    && (o.trackingNumber.None? || |o.trackingNumber.value| == 0) && !o.orderStatus.Shipped?
    && (o.paymentMethod.COD? || o.paymentStatus.Paid?)
  }

  lemma CheckJoins(s: State, i: nat)
    requires Aligned(s) && i < |s.history|
    ensures var o, t := s.store.orders[i], Step(s, DispatchCheck(i));
      && t.store == s.store && Aligned(t)
      && t.procs == Joined(s.procs, Dispatching(i), MayShip(o))
  {
  }

  lemma MessageJoins(s: State, a: Action)
    requires a.CourierWebhook? && a.order < |s.store.orders|
    ensures var o, t, end := s.store.orders[a.order], Step(s, a), EndOfJourney(a.current);
      && t.store == s.store && t.history == s.history
      && t.procs == if end.None? then s.procs else
           Joined(s.procs, CourierWriting(a.order, end.value),
                  a.secretValid && o.trackingNumber.Some? && o.orderStatus != end.value)
  {
    MessageMeans(s.store.orders[a.order].orderStatus, a.current);
  }

  /** A message makes of a status what it stands for, and nothing if it does not end the journey. */
  lemma MessageMeans(status: OrderStatus, text: string)
    ensures CourierStatus(status, text) == match EndOfJourney(text) case Some(end) => end case None => status
  {
  }

  lemma RefundJoins(s: State, i: nat)
    requires Aligned(s) && i < |s.history|
    ensures var o, t := s.store.orders[i], Step(s, RefundCheck(i));
      && t.store == s.store && Aligned(t) && |t.history| == |s.history|
      && t.procs == Joined(s.procs, Refunding(i, !o.orderStatus.Returned?),
                           i in s.store.rmas && s.store.rmas[i].status.Approved? && o.gatewayPaymentId.Some?)
  {
  }

  /** A request and then the turn of the call it may have started. */
  lemma CallOnOrder(s: State, request: Action, turn: Action, i: nat)
    requires Aligned(s) && i < |s.history| && turn.Continue? && turn.process !in s.procs
    requires var t := Step(s, request);
      && Aligned(t) && |t.history| == |s.history| && t.store == s.store
    ensures var t, u := Step(s, request), Run(s, [request, turn]);
      && i < |u.store.orders|
      && u.store.orders[i]
        == if turn.process in t.procs then AfterTurn(s.store.orders[i], turn, i, i in s.store.rmas)
           else s.store.orders[i]
  {
    RunOfTwo(s, request, turn);
    StepOnOrder(Step(s, request), turn, i);
  }

  /** An uninterrupted handshake pays the order exactly when it is the owner's, validly signed, of a prepaid order whose
      payment is pending, and then leaves its evidence; otherwise the order is untouched. */
  lemma HandshakePaysIff(s: State, i: nat, user: UserId, signatureValid: bool, paymentId: string, signature: string)
    requires Aligned(s) && i < |s.history| && HandshakeRead(i, paymentId, signature) !in s.procs
    ensures var o := s.store.orders[i];
      var t := Run(s, [HandshakeLookup(i, user, signatureValid, paymentId, signature),
                       Continue(HandshakeRead(i, paymentId, signature), true, "", "", "")]);
      && i < |t.store.orders|
      && t.store.orders[i]
        == if && signatureValid && user == o.user && o.gatewayOrderId.Some? && o.paymentStatus.PaymentPending?
           then AsPaid(o, paymentId, Some(signature)) else o
  {
    var lookup := HandshakeLookup(i, user, signatureValid, paymentId, signature);
    LookupJoins(s, lookup);
    CallOnOrder(s, lookup, Continue(HandshakeRead(i, paymentId, signature), true, "", "", ""), i);
  }

  /** The gateway's event pays the order exactly when it is validly signed, is order.paid, and names a prepaid order
      whose payment is pending. */
  lemma WebhookPaysIff(s: State, i: nat, signatureValid: bool, event: string, paymentId: string)
    requires Aligned(s) && i < |s.history|
    ensures var o, t := s.store.orders[i], Step(s, RazorpayWebhook(i, signatureValid, event, paymentId));
      && i < |t.store.orders|
      && t.store.orders[i]
           == if signatureValid && event == "order.paid" && o.gatewayOrderId.Some? && o.paymentStatus.PaymentPending?
              then AsPaid(o, paymentId, None) else o
  {
    StepOnOrder(s, RazorpayWebhook(i, signatureValid, event, paymentId), i);
  }

  /** An uninterrupted dispatch ships the order exactly when it carries no tracking number, is not SHIPPED, is cash on
      delivery or paid, and the courier names an airway bill and a shipment; each text then stands in its own field. */
  lemma DispatchShipsIff(s: State, i: nat, awb: string, courier: string, shipment: string)
    requires Aligned(s) && i < |s.history| && Dispatching(i) !in s.procs
    ensures var o := s.store.orders[i];
      var t := Run(s, [DispatchCheck(i), Continue(Dispatching(i), true, awb, courier, shipment)]);
      && i < |t.store.orders|
      && t.store.orders[i]
        == if MayShip(o) && |awb| != 0 && |shipment| != 0 then AsShipped(o, awb, courier, shipment) else o
  {
    CheckJoins(s, i);
    CallOnOrder(s, DispatchCheck(i), Continue(Dispatching(i), true, awb, courier, shipment), i);
  }

  /** A courier's message moves a tracked order to the end it names, exactly when it comes with the shared secret and
      names one. */
  lemma MessageMovesIff(s: State, i: nat, secretValid: bool, text: string, end: OrderStatus)
    requires Aligned(s) && i < |s.history| && CourierWriting(i, end) !in s.procs
    ensures var o := s.store.orders[i];
      var t := Run(s, [CourierWebhook(i, secretValid, text), Continue(CourierWriting(i, end), true, "", "", "")]);
      && i < |t.store.orders|
      && t.store.orders[i]
        == if secretValid && o.trackingNumber.Some? && EndOfJourney(text) == Some(end)
           then o.(orderStatus := end) else o
  {
    MessageJoins(s, CourierWebhook(i, secretValid, text));
    CallOnOrder(s, CourierWebhook(i, secretValid, text), Continue(CourierWriting(i, end), true, "", "", ""), i);
  }

  /** An uninterrupted refund goes through exactly when the return is approved and the order carries a gateway payment:
      it puts the returned units back, closes the return and marks the order. */
  lemma RefundGoesThroughIff(s: State, i: nat)
    requires Aligned(s) && i < |s.history| && InFlight(s.procs, i) == 0
    ensures var o := s.store.orders[i];
      var t := Run(s, [RefundCheck(i), Continue(Refunding(i, !o.orderStatus.Returned?), true, "", "", "")]);
      t.store
        == if i in s.store.rmas && s.store.rmas[i].status.Approved? && o.gatewayPaymentId.Some? then
             s.store.(
               products := Shifted(s.store.products, ReturnParcels(s.store.rmas[i].items), PutBack),
               orders := s.store.orders[i := o.(orderStatus := Returned)],
               rmas := s.store.rmas[i := s.store.rmas[i].(status := Refunded)])
           else s.store
  {
    var o := s.store.orders[i];
    var turn := Continue(Refunding(i, !o.orderStatus.Returned?), true, "", "", "");
    RefundJoins(s, i);
    RunOfTwo(s, RefundCheck(i), turn);
    var t := Step(s, RefundCheck(i));
    if turn.process in t.procs {
      RestockExact(s.store.products, ReturnParcels(s.store.rmas[i].items));
      RefundWrites(t, turn);
    }
  }

  lemma RefundWrites(s: State, a: Action)
    requires Aligned(s) && a.Continue? && a.process.Refunding? && a.process in s.procs && a.ok
    requires var i := a.process.order;
      && i < |s.history| && i in s.store.rmas
      && a.process.writesStatus == !s.store.orders[i].orderStatus.Returned?
    ensures var i := a.process.order;
      Step(s, a).store
        == s.store.(
             products := Restock(s.store.products, ReturnParcels(s.store.rmas[i].items)),
             orders := s.store.orders[i := s.store.orders[i].(orderStatus := Returned)],
             rmas := s.store.rmas[i := s.store.rmas[i].(status := Refunded)])
  {
    var i := a.process.order;
    assert s.store.orders[i := s.store.orders[i]] == s.store.orders;
  }

  /** A customer's request opens a return, as `ReturnLaws.RequestIsTakenIff` says of it, or changes nothing. */
  lemma RequestOpensIff(s: State, i: nat, user: UserId, windowOpen: bool, request: seq<ReturnItem>, images: nat)
    returns (lines: seq<nat>)
    requires Aligned(s)
    ensures i < |s.history| && ReturnLaws.AllReturnable(s.store.products, s.store.orders[i].items, request) ==>
      ReturnLaws.AreFirstLines(s.store.orders[i].items, request, lines)
    ensures var t := Step(s, ReturnRequest(i, user, windowOpen, request, images));
      if && i < |s.history| && s.store.orders[i].user == user && s.store.orders[i].orderStatus.Delivered? && windowOpen
         && ReturnLaws.AllReturnable(s.store.products, s.store.orders[i].items, request)
         && (ReturnLaws.SomeFragile(s.store.products, request) ==> 0 < images)
         && -0.5 <= ReturnLaws.Promised(s.store.orders[i], request, lines)
         && i !in s.store.rmas
      then ReturnLaws.IsOpened(s.store, i, request, lines, t.store) && t == s.(store := t.store)
      else t == s
  {
    lines := ReturnLaws.RequestIsTakenIff(s.store, i, user, windowOpen, request, images);
  }

  /** A ruling on a return on file is recorded whatever its state; a rejection delivers the order again. */
  lemma RulingIsRecorded(s: State, i: nat, approve: bool)
    requires Aligned(s) && i < |s.history|
    ensures Step(s, Arbitrate(i, approve)).store
         == if i !in s.store.rmas then s.store
            else
              s.store.(
                rmas := s.store.rmas[i := s.store.rmas[i].(status := if approve then Approved else Rejected)],
                orders := if approve then s.store.orders
                          else s.store.orders[i := s.store.orders[i].(orderStatus := Delivered)])
  {
  }

  /** A checkout commits its transaction as a whole, or changes nothing. */
  lemma CheckoutCommits(s: State, a: Action)
    requires a.CheckoutTx?
    ensures var r, t := Checkout(s.store, a.user, a.shipTo, a.payment, s.clock, a.gateway), Step(s, a);
      if r.Success? then t.store == r.value && |t.history| == |s.history| + 1 else t == s
  {
  }

  // ----- the surroundings

  /** Carts are edited freely, products in everything but their stock, coupons in everything but their count; time
      passes. None of it touches an order, a return or a call in flight. */
  lemma SurroundingsMove(
    s: State, user: UserId, cart: CartDoc, p: ProductId, d: Product, c: CouponId, e: Coupon, n: nat)
    ensures Step(s, EditCart(user, cart)) == s.(store := s.store.(carts := s.store.carts[user := cart]))
    ensures p in s.store.products ==>
      Step(s, EditProduct(p, d.(currentStock := s.store.products[p].currentStock))).store
        == s.store.(products := s.store.products[p := d.(currentStock := s.store.products[p].currentStock)])
    ensures c in s.store.coupons ==>
      Step(s, EditCoupon(c, e.(usedCount := s.store.coupons[c].usedCount))).store
        == s.store.(coupons := s.store.coupons[c := e.(usedCount := s.store.coupons[c].usedCount)])
    ensures Step(s, Tick(n)) == s.(clock := s.clock + n)
  {
  }
}
