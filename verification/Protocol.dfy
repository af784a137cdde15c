/** The order protocol as a transition system. A step is one transaction or one guarded update; a service call that
    awaits between its read and its write is a process, and what it read may be stale when it writes. `Step` is total:
    a step whose guard fails changes nothing, so a run is any sequence of steps at all. */
module Protocol {
  import opened Wrappers
  import opened Documents
  import opened OrderStore

  /** What a call in progress does next, and what it remembers from its reads. */
  datatype Process =
    | HandshakeRead(order: nat, paymentId: string, signature: string)  // found unpaid; guarded update next
    | OweCoupon(order: nat)                                             // won the payment; coupon increment next
    | OweInvoice(order: nat)                                            // invoice job next
    | Sweeping(pending: seq<nat>, started: nat)                         // lock and snapshot taken; one transaction each
    | Dispatching(order: nat)                                           // guards passed; courier calls, then the write
    | CourierWriting(order: nat, status: OrderStatus)                   // mapped status; save next
    | Refunding(order: nat, writesStatus: bool)                         // found APPROVED; gateway, then transaction

  /** What has happened to an order; the services do not store it. */
  datatype History = History(
    wins: nat,        // transitions from PENDING to PAID
    restored: nat,    // times the sweep put the order's units back
    latePaid: bool,   // a payment was accepted after that
    settled: nat,     // coupon uses accounted for
    lost: nat,        // coupon increments that failed and were only logged
    jobsLost: nat,    // invoice jobs that could not be enqueued
    approvals: nat,   // times its return was approved
    granted: nat,     // of these, the approvals that found it not yet APPROVED
    withdrawn: nat,   // rejections that found it APPROVED
    refunds: nat,     // times its return was refunded
    stale: nat,       // of these, the refunds that found it not APPROVED when they committed
    overlaps: nat,    // refunds started while another refund of it was in flight
    rulings: nat,     // arbitrations while a refund of it was in flight
    shipments: nat,   // times a shipment was recorded
    doubled: nat,     // of these, the ones recorded over another
    crossings: nat)   // dispatch checks passed while another dispatch of it was in flight

  const FRESH := History(0, 0, false, 0, 0, 0, 0, 0, 0, 0, 0, 0, 0, 0, 0, 0)

  datatype State = State(
    store: Store,
    history: seq<History>,
    procs: multiset<Process>,
    jobs: multiset<nat>,      // invoice jobs enqueued, by order
    clock: nat,               // seconds
    lockUntil: nat)           // the sweep's Redis lock expires at this time

  datatype Action =
    | CheckoutTx(user: UserId, shipTo: string, payment: PaymentMethod, gateway: Option<string>)
    | HandshakeLookup(order: nat, user: UserId, signatureValid: bool, paymentId: string, signature: string)
    | RazorpayWebhook(order: nat, signatureValid: bool, event: string, paymentId: string)
    | SweepStart
    | DispatchCheck(order: nat)
    | CourierWebhook(order: nat, secretValid: bool, current: string)
    | AdminEdit(order: nat, status: OrderStatus, tracking: Option<string>, courier: Option<string>)
    | ReturnRequest(order: nat, user: UserId, windowOpen: bool, items: seq<ReturnItem>, images: nat)
    | Arbitrate(order: nat, approve: bool)
    | RefundCheck(order: nat)
    | Continue(process: Process, ok: bool, awb: string, courierName: string, shipment: string)
    | EditCart(user: UserId, cart: CartDoc)
    | EditProduct(product: ProductId, newProduct: Product)
    | EditCoupon(coupon: CouponId, newCoupon: Coupon)
    | Tick(seconds: nat)

  /** `set(lockKey, "locked", { EX: 60, NX: true })`; the lock is never released, it only expires. */
  const LOCK_SECONDS := 60

  function Spawn(s: State, p: Process): State {
    s.(procs := s.procs + multiset{p})
  }

  function Finish(s: State, p: Process): State {
    s.(procs := s.procs - multiset{p})
  }

  function Replace(s: State, p: Process, q: Process): State {
    s.(procs := s.procs - multiset{p} + multiset{q})
  }

  function InFlight(procs: multiset<Process>, i: nat): nat {
    procs[Refunding(i, true)] + procs[Refunding(i, false)]
  }

  function DoCheckout(s: State, a: Action): State
    requires a.CheckoutTx?
  {
    var r := Checkout(s.store, a.user, a.shipTo, a.payment, s.clock, a.gateway);
    if r.Failure? then s
    else
      var i := |s.store.orders|;
      var h := FRESH.(settled := if a.payment == COD then 1 else 0);
      var recorded := s.(store := r.value, history := s.history + [h]);
      if a.payment == COD then Spawn(recorded, OweInvoice(i)) else recorded
  }

  /** The winner of the guarded update goes on to the coupon and the invoice; the loser stops. */
  function DoPay(s: State, i: nat, paymentId: string, signature: Option<string>): State
    requires i < |s.store.orders| && i < |s.history|
  {
    var paid := Pay(s.store, i, paymentId, signature);
    if paid.None? then s
    else
      var h := s.history[i];
      Spawn(s.(store := paid.value,
               history := s.history[i := h.(wins := h.wins + 1, latePaid := h.latePaid || h.restored > 0)]),
            OweCoupon(i))
  }

  function DoHandshakeLookup(s: State, a: Action): State
    requires a.HandshakeLookup?
  {
    if a.order >= |s.store.orders| then s
    else
      var o := s.store.orders[a.order];
      if o.gatewayOrderId.None? || o.user != a.user then s
      else if o.paymentStatus == Paid || !a.signatureValid then s
      else Spawn(s, HandshakeRead(a.order, a.paymentId, a.signature))
  }

  function DoWebhook(s: State, a: Action): State
    requires a.RazorpayWebhook?
  {
    if a.order >= |s.store.orders| || a.order >= |s.history| then s
    else if !a.signatureValid || a.event != "order.paid" || s.store.orders[a.order].gatewayOrderId.None? then s
    else DoPay(s, a.order, a.paymentId, None)
  }

  function DoSweepStart(s: State): State {
    if s.clock < s.lockUntil then s
    else Spawn(s.(lockUntil := s.clock + LOCK_SECONDS), Sweeping(Snapshot(s.store.orders, s.clock), s.clock))
  }

  function DoDispatchCheck(s: State, a: Action): State
    requires a.DispatchCheck?
  {
    var i := a.order;
    if i >= |s.store.orders| || i >= |s.history| || !CanDispatch(s.store.orders[i]) then s
    else
      var h := s.history[i];
      var crossing := s.procs[Dispatching(i)] > 0;
      Spawn(s.(history := s.history[i := h.(crossings := h.crossings + if crossing then 1 else 0)]), Dispatching(i))
  }

  /** The write after the courier calls: nothing is asked of the order any more. */
  function DoShip(s: State, i: nat, awb: string, courier: string, shipment: string): State
    requires i < |s.store.orders| && i < |s.history|
  {
    var h := s.history[i];
    var again := s.store.orders[i].shiprocketShipmentId.Some?;
    s.(store := RecordDispatch(s.store, i, awb, courier, shipment),
       history := s.history[i := h.(shipments := h.shipments + 1, doubled := h.doubled + if again then 1 else 0)])
  }

  function DoCourierWebhook(s: State, a: Action): State
    requires a.CourierWebhook?
  {
    if a.order >= |s.store.orders| || !a.secretValid || s.store.orders[a.order].trackingNumber.None? then s
    else
      var status := s.store.orders[a.order].orderStatus;
      var mapped := CourierStatus(status, a.current);
      if mapped == status then s else Spawn(s, CourierWriting(a.order, mapped))
  }

  /** PENDING is not among the statuses the request schema admits. */
  function DoAdminEdit(s: State, a: Action): State
    requires a.AdminEdit?
  {
    if a.order >= |s.store.orders| || a.status == Pending then s
    else s.(store := AdminUpdate(s.store, a.order, a.status, a.tracking, a.courier))
  }

  function DoReturnRequest(s: State, a: Action): State
    requires a.ReturnRequest?
  {
    var r := InitiateReturn(s.store, a.order, a.user, a.windowOpen, a.items, a.images);
    if r.Failure? then s else s.(store := r.value)
  }

  function DoArbitrate(s: State, a: Action): State
    requires a.Arbitrate?
  {
    var r := ArbitrateReturn(s.store, a.order, a.approve);
    if r.Failure? || a.order >= |s.history| then s
    else
      s.(store := r.value,
         history := s.history[a.order := Ruled(s.history[a.order], a.approve, s.store.rmas[a.order].status == Approved,
                                               InFlight(s.procs, a.order) > 0)])
  }

  /** One arbitration; `standing` says that it finds an approval in force, `underway` that a refund is in flight. */
  function Ruled(h: History, approve: bool, standing: bool, underway: bool): History {
    h.(approvals := h.approvals + if approve then 1 else 0,
       granted := h.granted + if approve && !standing then 1 else 0,
       withdrawn := h.withdrawn + if !approve && standing then 1 else 0,
       rulings := h.rulings + if underway then 1 else 0)
  }

  function DoRefundCheck(s: State, a: Action): State
    requires a.RefundCheck?
  {
    if !CanRefund(s.store, a.order) || a.order >= |s.history| then s
    else
      var h := s.history[a.order];
      var overlapping := InFlight(s.procs, a.order) > 0;
      Spawn(s.(history := s.history[a.order := h.(overlaps := h.overlaps + if overlapping then 1 else 0)]),
            Refunding(a.order, s.store.orders[a.order].orderStatus != Returned))
  }

  function DoCancel(s: State, i: nat): State
    requires i < |s.store.orders| && i < |s.history|
  {
    var cancelled := CancelAbandoned(s.store, i);
    if cancelled.None? then s
    else
      var h := s.history[i];
      s.(store := cancelled.value, history := s.history[i := h.(restored := h.restored + 1)])
  }

  function DoRefund(s: State, i: nat, writesStatus: bool): State
    requires i < |s.store.orders| && i < |s.history| && i in s.store.rmas
  {
    var h := s.history[i];
    var standing := s.store.rmas[i].status == Approved;
    s.(store := CommitRefund(s.store, i, writesStatus),
       history := s.history[i := h.(refunds := h.refunds + 1, stale := h.stale + if standing then 0 else 1)])
  }

  /** The next write of a process; `ok` is false when its update, gateway call or transaction fails. */
  function DoContinue(s: State, a: Action): State
    requires a.Continue?
  {
    var p := a.process;
    if p !in s.procs then s
    else
      match p
      case HandshakeRead(i, paymentId, signature) =>
        if i < |s.store.orders| && i < |s.history| && a.ok then DoPay(Finish(s, p), i, paymentId, Some(signature))
        else Finish(s, p)
      case OweCoupon(i) =>
        if i < |s.store.orders| && i < |s.history| then
          var coupon := s.store.orders[i].pricing.appliedCoupon;
          var h := s.history[i];
          var counted := coupon.None? || a.ok;
          var coupons := if counted then CountUse(s.store.coupons, coupon) else s.store.coupons;
          var after := if counted then h.(settled := h.settled + 1) else h.(lost := h.lost + 1);
          Replace(s.(store := s.store.(coupons := coupons), history := s.history[i := after]), p, OweInvoice(i))
        else s
      case OweInvoice(i) =>
        if i < |s.history| then
          var h := s.history[i];
          Finish(if a.ok then s.(jobs := s.jobs + multiset{i})
                 else s.(history := s.history[i := h.(jobsLost := h.jobsLost + 1)]), p)
        else s
      case Sweeping(pending, started) =>
        if pending == [] then Finish(s, p)
        else
          var i := pending[0];
          var next := Replace(s, p, Sweeping(pending[1..], started));
          if i < |s.store.orders| && i < |s.history| && a.ok then DoCancel(next, i) else next
      case Dispatching(i) =>
        var done := Finish(s, p);
        if i < |s.store.orders| && i < |s.history| && a.ok && a.awb != "" && a.shipment != ""
        then DoShip(done, i, a.awb, a.courierName, a.shipment)
        else done
      case CourierWriting(i, status) =>
        if i < |s.store.orders| then Finish(s, p).(store := SetStatus(s.store, i, status)) else Finish(s, p)
      case Refunding(i, writesStatus) =>
        var done := Finish(s, p);
        if i < |s.store.orders| && i < |s.history| && i in s.store.rmas && a.ok then DoRefund(done, i, writesStatus)
        else done
  }

  /** Customers edit carts; administrators edit products and coupons, but not the counts the services keep. */
  function DoEdit(s: State, a: Action): State
    requires a.EditCart? || a.EditProduct? || a.EditCoupon?
  {
    match a
    case EditCart(user, cart) => s.(store := s.store.(carts := s.store.carts[user := cart]))
    case EditProduct(p, d) =>
      if p in s.store.products && d.currentStock == s.store.products[p].currentStock
      then s.(store := s.store.(products := s.store.products[p := d]))
      else s
    case EditCoupon(c, d) =>
      if c in s.store.coupons && d.usedCount == s.store.coupons[c].usedCount
      then s.(store := s.store.(coupons := s.store.coupons[c := d]))
      else s
  }

  function Step(s: State, a: Action): State {
    match a
    case CheckoutTx(_, _, _, _) => DoCheckout(s, a)
    case HandshakeLookup(_, _, _, _, _) => DoHandshakeLookup(s, a)
    case RazorpayWebhook(_, _, _, _) => DoWebhook(s, a)
    case SweepStart => DoSweepStart(s)
    case DispatchCheck(_) => DoDispatchCheck(s, a)
    case CourierWebhook(_, _, _) => DoCourierWebhook(s, a)
    case AdminEdit(_, _, _, _) => DoAdminEdit(s, a)
    case ReturnRequest(_, _, _, _, _) => DoReturnRequest(s, a)
    case Arbitrate(_, _) => DoArbitrate(s, a)
    case RefundCheck(_) => DoRefundCheck(s, a)
    case Continue(_, _, _, _, _) => DoContinue(s, a)
    case EditCart(_, _) => DoEdit(s, a)
    case EditProduct(_, _) => DoEdit(s, a)
    case EditCoupon(_, _) => DoEdit(s, a)
    case Tick(seconds) => s.(clock := s.clock + seconds)
  }

  /** A run from any state: the steps in order. */
  function Run(s: State, actions: seq<Action>): State
    decreases |actions|, 1
  {
    if actions == [] then s else LastStep(s, actions)
  }

  function LastStep(s: State, actions: seq<Action>): State
    requires actions != []
    decreases |actions|, 0
  {
    Step(Run(s, actions[..|actions| - 1]), actions[|actions| - 1])
  }

  /** A shop before its first order. */
  predicate Initial(s: State) {
    && s.store.orders == [] && s.store.rmas == map[] && s.history == []
    && s.procs == multiset{} && s.jobs == multiset{} && s.lockUntil <= s.clock + LOCK_SECONDS
    && forall p :: p in s.store.products ==> 0 <= s.store.products[p].currentStock
  }

  /** Some run from an opening shop leads here. */
  ghost predicate Reachable(init: State, s: State) {
    Initial(init) && exists actions :: Run(init, actions) == s
  }
}
