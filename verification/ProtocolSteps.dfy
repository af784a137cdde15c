/** Every step keeps the invariant. Each lemma names the facts of the one order its step concerns, shows them sound,
    and leaves the rest to the local-step rules. */
module ProtocolSteps {
  import opened Wrappers
  import opened Documents
  import opened Stock
  import opened OrderStore
  import opened Protocol
  import opened ProtocolInvariant
  import RefundLaws

  lemma SoundAt(s: State, init: State, i: nat)
    requires Inv(s, init) && i < |s.history|
    ensures Sound(FactsOf(s, i), s.store.products.Keys)
  {
    assert AllFacts(s)[i] == FactsOf(s, i);
  }

  // ----- calls that end, and calls that begin

  /** A call that owes nothing may end at any point. */
  lemma DropStep(s: State, init: State, p: Process)
    requires Inv(s, init) && p in s.procs && !p.OweCoupon? && !p.OweInvoice?
    ensures Inv(Finish(s, p), init)
  {
    DropReferenced(s, p);
    if p.Dispatching? || p.Refunding? {
      DropLocal(s, init, p);
    } else {
      QuietDropFrame(s, p);
      QuietStep(s, Finish(s, p), init);
    }
  }

  lemma QuietDropFrame(s: State, p: Process)
    requires Aligned(s) && (p.HandshakeRead? || p.Sweeping? || p.CourierWriting?)
    ensures AllFacts(Finish(s, p)) == AllFacts(s)
  {
  }

  lemma DropReferenced(s: State, p: Process)
    requires Aligned(s) && Referenced(s)
    ensures Referenced(Finish(s, p))
  {
  }

  lemma DropLocal(s: State, init: State, p: Process)
    requires Inv(s, init) && p in s.procs && (p.Dispatching? || p.Refunding?)
    requires Referenced(Finish(s, p))
    ensures Inv(Finish(s, p), init)
  {
    var i := p.order;
    SoundAt(s, init, i);
    DropFrame(s, p);
    CalmStep(s, Finish(s, p), init, i, FactsAfterDrop(FactsOf(s, i), p));
  }

  function FactsAfterDrop(f: Facts, p: Process): Facts {
    if p.Dispatching? then f.(dispatching := if f.dispatching > 0 then f.dispatching - 1 else 0)
    else f.(refunding := if f.refunding > 0 then f.refunding - 1 else 0)
  }

  lemma DropFrame(s: State, p: Process)
    requires Aligned(s) && p in s.procs && (p.Dispatching? || p.Refunding?) && p.order < |s.history|
    ensures AllFacts(Finish(s, p)) == AllFacts(s)[p.order := FactsAfterDrop(FactsOf(s, p.order), p)]
  {
    OneOrderChanged(s, Finish(s, p), p.order, FactsAfterDrop(FactsOf(s, p.order), p));
  }

  lemma QuietSpawn(s: State, init: State, p: Process)
    requires Inv(s, init)
    requires p.HandshakeRead? || p.CourierWriting? || p.Sweeping?
    requires WellFormed(p, |s.history|) && Prepaid(p, s.store.orders)
    ensures Inv(Spawn(s, p), init)
  {
    QuietFrame(s, p);
    QuietStep(s, Spawn(s, p), init);
  }

  lemma QuietFrame(s: State, p: Process)
    requires Aligned(s) && Referenced(s)
    requires p.HandshakeRead? || p.CourierWriting? || p.Sweeping?
    requires WellFormed(p, |s.history|) && Prepaid(p, s.store.orders)
    ensures AllFacts(Spawn(s, p)) == AllFacts(s) && Referenced(Spawn(s, p))
  {
  }

  // ----- payment, coupon use, invoice

  function FactsAfterPay(f: Facts, paymentId: string, signature: Option<string>): Facts {
    var h := f.history;
    f.(order := PaidOrder(f.order, paymentId, signature),
       history := h.(wins := h.wins + 1, latePaid := h.latePaid || h.restored > 0),
       oweCoupon := f.oweCoupon + 1)
  }

  lemma PaySound(f: Facts, keys: set<ProductId>, paymentId: string, signature: Option<string>)
    requires Sound(f, keys) && f.order.paymentStatus == PaymentPending && f.order.gatewayOrderId.Some?
    ensures Sound(FactsAfterPay(f, paymentId, signature), keys)
    ensures SameLedger(f, FactsAfterPay(f, paymentId, signature))
  {
  }

  lemma PayStep(s: State, init: State, i: nat, paymentId: string, signature: Option<string>)
    requires Inv(s, init) && i < |s.history| && s.store.orders[i].gatewayOrderId.Some?
    ensures Inv(DoPay(s, i, paymentId, signature), init)
  {
    if s.store.orders[i].paymentStatus == PaymentPending {
      var t := DoPay(s, i, paymentId, signature);
      SoundAt(s, init, i);
      PaySound(FactsOf(s, i), s.store.products.Keys, paymentId, signature);
      PayFrame(s, i, paymentId, signature);
      SpawnReferenced(s, t, OweCoupon(i), i);
      CalmStep(s, t, init, i, FactsAfterPay(FactsOf(s, i), paymentId, signature));
    }
  }

  lemma PayFrame(s: State, i: nat, paymentId: string, signature: Option<string>)
    requires Aligned(s) && i < |s.history| && s.store.orders[i].paymentStatus == PaymentPending
    ensures var t := DoPay(s, i, paymentId, signature);
      && Aligned(t) && |t.history| == |s.history|
      && AllFacts(t) == AllFacts(s)[i := FactsAfterPay(FactsOf(s, i), paymentId, signature)]
  {
    OneOrderChanged(s, DoPay(s, i, paymentId, signature), i, FactsAfterPay(FactsOf(s, i), paymentId, signature));
  }

  /** A process that starts while one order is rewritten without touching its gateway id. */
  lemma SpawnReferenced(s: State, t: State, p: Process, i: nat)
    requires Aligned(s) && Aligned(t) && Referenced(s) && i < |s.history| && |t.history| == |s.history|
    requires t.procs <= s.procs + multiset{p} && WellFormed(p, |s.history|) && !p.HandshakeRead?
    requires t.store.orders[i].gatewayOrderId == s.store.orders[i].gatewayOrderId
    requires t.store.orders == s.store.orders[i := t.store.orders[i]]
    requires t.store.rmas.Keys <= s.store.rmas.Keys + {i}
    requires forall j :: j in t.jobs ==> j in s.jobs || j == i
    ensures Referenced(t)
  {
    forall q | q in t.procs
      ensures WellFormed(q, |t.history|) && Prepaid(q, t.store.orders)
    {
      assert q in s.procs || q == p;
    }
    forall j | j in t.store.rmas
      ensures j < |t.history|
    {
      assert j in t.store.rmas.Keys;
    }
  }

  function FactsAfterCoupon(f: Facts, counted: bool): Facts {
    var h := f.history;
    f.(history := if counted then h.(settled := h.settled + 1) else h.(lost := h.lost + 1),
       oweCoupon := if f.oweCoupon > 0 then f.oweCoupon - 1 else 0,
       oweInvoice := f.oweInvoice + 1)
  }

  lemma CouponStep(s: State, init: State, a: Action)
    requires Inv(s, init) && a.Continue? && a.process.OweCoupon? && a.process in s.procs
    ensures Inv(DoContinue(s, a), init)
  {
    var t, g := CouponEffect(s, init, a);
    LocalStep(s, t, init, a.process.order, g);
  }

  /** What settling a coupon use does, in the terms of the local-step rule. */
  lemma CouponEffect(s: State, init: State, a: Action) returns (t: State, g: Facts)
    requires Inv(s, init) && a.Continue? && a.process.OweCoupon? && a.process in s.procs
    ensures t == DoContinue(s, a)
    ensures var i := a.process.order;
      && i < |s.history| && SameShape(s, t) && AllFacts(t) == AllFacts(s)[i := g] && Referenced(t)
      && Sound(g, s.store.products.Keys)
      && StockMoves(s, t, FactsOf(s, i), g) && CountMoves(s, t, FactsOf(s, i), g)
  {
    var i := a.process.order;
    var f := FactsOf(s, i);
    var counted := f.order.pricing.appliedCoupon.None? || a.ok;
    t, g := DoContinue(s, a), FactsAfterCoupon(f, counted);
    SoundAt(s, init, i);
    CouponFrame(s, a);
    CouponSound(f, s.store.products.Keys, counted);
    CouponReferenced(s, a);
    CouponMoves(s, a);
  }

  lemma CouponSound(f: Facts, keys: set<ProductId>, counted: bool)
    requires Sound(f, keys) && f.oweCoupon > 0
    ensures Sound(FactsAfterCoupon(f, counted), keys)
  {
  }

  lemma CouponReferenced(s: State, a: Action)
    requires Aligned(s) && Referenced(s) && a.Continue? && a.process.OweCoupon? && a.process in s.procs
    ensures Aligned(DoContinue(s, a)) && Referenced(DoContinue(s, a))
  {
    SpawnReferenced(s, DoContinue(s, a), OweInvoice(a.process.order), a.process.order);
  }

  lemma CouponMoves(s: State, a: Action)
    requires Aligned(s) && a.Continue? && a.process.OweCoupon? && a.process in s.procs && a.process.order < |s.history|
    requires forall p :: p in s.store.products ==> 0 <= s.store.products[p].currentStock
    ensures var f := FactsOf(s, a.process.order);
      var g := FactsAfterCoupon(f, f.order.pricing.appliedCoupon.None? || a.ok);
      var t := DoContinue(s, a);
      SameShape(s, t) && StockMoves(s, t, f, g) && CountMoves(s, t, f, g)
  {
    var f := FactsOf(s, a.process.order);
    var g := FactsAfterCoupon(f, f.order.pricing.appliedCoupon.None? || a.ok);
    CountUseMoves(s, DoContinue(s, a), f, g);
  }

  lemma CouponFrame(s: State, a: Action)
    requires Aligned(s) && a.Continue? && a.process.OweCoupon? && a.process in s.procs && a.process.order < |s.history|
    ensures var i := a.process.order;
      var f := FactsOf(s, i);
      var t := DoContinue(s, a);
      && Aligned(t) && |t.history| == |s.history|
      && AllFacts(t) == AllFacts(s)[i := FactsAfterCoupon(f, f.order.pricing.appliedCoupon.None? || a.ok)]
  {
    var i := a.process.order;
    var f := FactsOf(s, i);
    OneOrderChanged(s, DoContinue(s, a), i, FactsAfterCoupon(f, f.order.pricing.appliedCoupon.None? || a.ok));
  }

  /** The counter moves exactly when the order's own use is settled, and only for the order's coupon. */
  lemma CountUseMoves(s: State, t: State, f: Facts, g: Facts)
    requires Aligned(s) && Aligned(t) && |t.history| == |s.history| && t.store.products == s.store.products
    requires g.order == f.order && g.rma == f.rma && g.history.restored == f.history.restored
    requires g.history.refunds == f.history.refunds
    requires t.store.coupons == (if g.history.settled == f.history.settled + 1
                                 then CountUse(s.store.coupons, f.order.pricing.appliedCoupon) else s.store.coupons)
    requires g.history.settled == f.history.settled || g.history.settled == f.history.settled + 1
    requires forall p :: p in s.store.products ==> 0 <= s.store.products[p].currentStock
    ensures SameShape(s, t) && StockMoves(s, t, f, g) && CountMoves(s, t, f, g)
  {
  }

  function FactsAfterInvoice(f: Facts, ok: bool): Facts {
    var h := f.history;
    f.(history := if ok then h else h.(jobsLost := h.jobsLost + 1),
       jobs := if ok then f.jobs + 1 else f.jobs,
       oweInvoice := if f.oweInvoice > 0 then f.oweInvoice - 1 else 0)
  }

  lemma InvoiceStep(s: State, init: State, a: Action)
    requires Inv(s, init) && a.Continue? && a.process.OweInvoice? && a.process in s.procs
    ensures Inv(DoContinue(s, a), init)
  {
    var i := a.process.order;
    var t := DoContinue(s, a);
    SoundAt(s, init, i);
    InvoiceFrame(s, a);
    SpawnReferenced(s, t, OweInvoice(i), i);
    CalmStep(s, t, init, i, FactsAfterInvoice(FactsOf(s, i), a.ok));
  }

  lemma InvoiceFrame(s: State, a: Action)
    requires Aligned(s) && a.Continue? && a.process.OweInvoice? && a.process in s.procs && a.process.order < |s.history|
    ensures var i := a.process.order;
      var t := DoContinue(s, a);
      && Aligned(t) && |t.history| == |s.history|
      && AllFacts(t) == AllFacts(s)[i := FactsAfterInvoice(FactsOf(s, i), a.ok)]
  {
    OneOrderChanged(s, DoContinue(s, a), a.process.order, FactsAfterInvoice(FactsOf(s, a.process.order), a.ok));
  }

  // ----- the sweep

  lemma SweepStep(s: State, init: State, a: Action)
    requires Inv(s, init) && a.Continue? && a.process.Sweeping? && a.process in s.procs
    ensures Inv(DoContinue(s, a), init)
  {
    var pending := a.process.pending;
    DropStep(s, init, a.process);
    if pending != [] {
      var dropped := Finish(s, a.process);
      QuietSpawn(dropped, init, Sweeping(pending[1..], a.process.started));
      var next := Spawn(dropped, Sweeping(pending[1..], a.process.started));
      assert next == Replace(s, a.process, Sweeping(pending[1..], a.process.started));
      if pending[0] < |s.store.orders| && a.ok {
        CancelKeeps(next, init, pending[0]);
      }
    }
  }

  function FactsAfterCancel(f: Facts): Facts {
    f.(order := f.order.(orderStatus := Cancelled), history := f.history.(restored := f.history.restored + 1))
  }

  lemma CancelKeeps(s: State, init: State, i: nat)
    requires Inv(s, init) && i < |s.history|
    ensures Inv(DoCancel(s, i), init)
  {
    if CancelAbandoned(s.store, i).Some? {
      SoundAt(s, init, i);
      CancelFrame(s, i);
      CancelSound(FactsOf(s, i), s.store.products.Keys);
      RestockStep(s, DoCancel(s, i), init, i, FactsAfterCancel(FactsOf(s, i)), OrderParcels(s.store.orders[i].items));
    }
  }

  lemma CancelFrame(s: State, i: nat)
    requires Aligned(s) && Referenced(s) && i < |s.history| && CancelAbandoned(s.store, i).Some?
    ensures var t := DoCancel(s, i);
      && Aligned(t) && |t.history| == |s.history| && Referenced(t)
      && AllFacts(t) == AllFacts(s)[i := FactsAfterCancel(FactsOf(s, i))]
  {
    OneOrderChanged(s, DoCancel(s, i), i, FactsAfterCancel(FactsOf(s, i)));
    SpawnReferenced(s, DoCancel(s, i), Sweeping([], 0), i);
  }

  lemma CancelSound(f: Facts, keys: set<ProductId>)
    requires Sound(f, keys) && f.order.orderStatus == Pending
    ensures Sound(FactsAfterCancel(f), keys)
    ensures HeldDrops(f, FactsAfterCancel(f), OrderParcels(f.order.items))
  {
  }

  /** A local step that puts parcels back. */
  lemma RestockStep(s: State, t: State, init: State, i: nat, g: Facts, parcels: seq<Parcel>)
    requires Inv(s, init) && i < |s.history|
    requires Aligned(t) && |t.history| == |s.history| && AllFacts(t) == AllFacts(s)[i := g] && Referenced(t)
    requires t.store.products == Restock(s.store.products, parcels) && t.store.coupons == s.store.coupons
    requires Sound(g, s.store.products.Keys)
    requires HeldDrops(FactsOf(s, i), g, parcels)
    requires FactsOf(s, i).order.pricing == g.order.pricing && FactsOf(s, i).history.settled == g.history.settled
    ensures Inv(t, init)
  {
    RestockMoves(s, t, parcels, FactsOf(s, i), g);
    LocalStep(s, t, init, i, g);
  }

  /** Putting parcels back moves stock exactly as an order's share of the ledger goes down by them. */
  lemma RestockMoves(s: State, t: State, parcels: seq<Parcel>, f: Facts, g: Facts)
    requires Aligned(s) && Aligned(t) && |t.history| == |s.history| && t.store.coupons == s.store.coupons
    requires t.store.products == Restock(s.store.products, parcels)
    requires forall p :: p in s.store.products ==> 0 <= s.store.products[p].currentStock
    requires HeldDrops(f, g, parcels)
    requires f.order.pricing == g.order.pricing && f.history.settled == g.history.settled
    ensures SameShape(s, t) && StockMoves(s, t, f, g) && CountMoves(s, t, f, g)
  {
    RestockExact(s.store.products, parcels);
  }

  // ----- logistics

  lemma DispatchStart(s: State, init: State, i: nat)
    requires Inv(s, init) && i < |s.history| && CanDispatch(s.store.orders[i])
    ensures Inv(DoDispatchCheck(s, DispatchCheck(i)), init)
  {
    var t := DoDispatchCheck(s, DispatchCheck(i));
    SoundAt(s, init, i);
    DispatchFrame(s, i);
    SpawnReferenced(s, t, Dispatching(i), i);
    CalmStep(s, t, init, i, FactsAfterCheck(FactsOf(s, i)));
  }

  function FactsAfterCheck(f: Facts): Facts {
    var h := f.history;
    f.(dispatching := f.dispatching + 1, history := h.(crossings := h.crossings + if f.dispatching > 0 then 1 else 0))
  }

  lemma DispatchFrame(s: State, i: nat)
    requires Aligned(s) && i < |s.history| && CanDispatch(s.store.orders[i])
    ensures var t := DoDispatchCheck(s, DispatchCheck(i));
      && Aligned(t) && |t.history| == |s.history|
      && AllFacts(t) == AllFacts(s)[i := FactsAfterCheck(FactsOf(s, i))]
  {
    OneOrderChanged(s, DoDispatchCheck(s, DispatchCheck(i)), i, FactsAfterCheck(FactsOf(s, i)));
  }

  lemma DispatchStep(s: State, init: State, a: Action)
    requires Inv(s, init) && a.Continue? && a.process.Dispatching? && a.process in s.procs
    ensures Inv(DoContinue(s, a), init)
  {
    if a.ok && a.awb != "" && a.shipment != "" {
      ShipKeeps(s, init, a);
    } else {
      DropStep(s, init, a.process);
    }
  }

  function FactsAfterShip(f: Facts, a: Action): Facts
    requires a.Continue?
  {
    var h := f.history;
    var again := if f.order.shiprocketShipmentId.Some? then 1 else 0;
    f.(order := DispatchedOrder(f.order, a.awb, a.courierName, a.shipment),
       history := h.(shipments := h.shipments + 1, doubled := h.doubled + again),
       dispatching := if f.dispatching > 0 then f.dispatching - 1 else 0)
  }

  predicate Ships(s: State, a: Action) {
    a.Continue? && a.process.Dispatching? && a.process in s.procs && a.ok && a.awb != "" && a.shipment != ""
  }

  lemma ShipKeeps(s: State, init: State, a: Action)
    requires Inv(s, init) && Ships(s, a)
    ensures Inv(DoContinue(s, a), init)
  {
    var i := a.process.order;
    SoundAt(s, init, i);
    ShipFrame(s, a);
    ShipSound(FactsOf(s, i), s.store.products.Keys, a);
    SpawnReferenced(s, DoContinue(s, a), Sweeping([], 0), i);
    CalmStep(s, DoContinue(s, a), init, i, FactsAfterShip(FactsOf(s, i), a));
  }

  lemma ShipFrame(s: State, a: Action)
    requires Aligned(s) && Ships(s, a) && a.process.order < |s.history|
    ensures var i, t := a.process.order, DoContinue(s, a);
      && Aligned(t) && |t.history| == |s.history|
      && AllFacts(t) == AllFacts(s)[i := FactsAfterShip(FactsOf(s, i), a)]
  {
    OneOrderChanged(s, DoContinue(s, a), a.process.order, FactsAfterShip(FactsOf(s, a.process.order), a));
  }

  lemma ShipSound(f: Facts, keys: set<ProductId>, a: Action)
    requires Sound(f, keys) && f.dispatching > 0 && a.Continue? && a.awb != ""
    ensures Sound(FactsAfterShip(f, a), keys) && SameLedger(f, FactsAfterShip(f, a))
  {
  }

  /** Rewriting an order's status and logistics fields disturbs nothing, as long as the status is not PENDING, the
      shipment stays, and the tracking number is not lost. */
  lemma OrderRewrite(s: State, t: State, init: State, i: nat, o: Order)
    requires Inv(s, init) && i < |s.history|
    requires t == s.(store := s.store.WithOrder(i, o))
    requires o == s.store.orders[i].(
                    orderStatus := o.orderStatus, trackingNumber := o.trackingNumber,
                    courierName := o.courierName)
    requires o.orderStatus != Pending
    requires o.shiprocketShipmentId == s.store.orders[i].shiprocketShipmentId
    requires Truthy(s.store.orders[i].trackingNumber) ==> Truthy(o.trackingNumber)
    ensures Inv(t, init)
  {
    var g := FactsOf(s, i).(order := o);
    SoundAt(s, init, i);
    OneOrderChanged(s, t, i, g);
    SpawnReferenced(s, t, Sweeping([], 0), i);
    CalmStep(s, t, init, i, g);
  }

  // ----- returns

  lemma ReturnRequestStep(s: State, init: State, a: Action)
    requires Inv(s, init) && a.ReturnRequest?
    ensures Inv(DoReturnRequest(s, a), init)
  {
    var i := a.order;
    var t := DoReturnRequest(s, a);
    if t != s {
      var f := FactsOf(s, i);
      var g := f.(order := f.order.(orderStatus := ReturnRequested), rma := Some(t.store.rmas[i]));
      SoundAt(s, init, i);
      RefundLaws.AcceptedIsPurchased(s.store.products, f.order.items, a.items);
      OneOrderChanged(s, t, i, g);
      SpawnReferenced(s, t, Sweeping([], 0), i);
      CalmStep(s, t, init, i, g);
    }
  }

  lemma ArbitrateStep(s: State, init: State, a: Action)
    requires Inv(s, init) && a.Arbitrate?
    ensures Inv(DoArbitrate(s, a), init)
  {
    var i := a.order;
    var t := DoArbitrate(s, a);
    if i in s.store.rmas {
      SoundAt(s, init, i);
      ArbitrateFrame(s, a);
      SpawnReferenced(s, t, Sweeping([], 0), i);
      CalmStep(s, t, init, i, FactsAfterRuling(FactsOf(s, i), a.approve));
    }
  }

  function FactsAfterRuling(f: Facts, approve: bool): Facts
    requires f.rma.Some?
  {
    var h := Ruled(f.history, approve, Standing(f), f.refunding > 0);
    if approve
    then f.(rma := Some(f.rma.value.(status := Approved)), history := h)
    else f.(rma := Some(f.rma.value.(status := Rejected)), history := h, order := f.order.(orderStatus := Delivered))
  }

  lemma ArbitrateFrame(s: State, a: Action)
    requires Aligned(s) && Referenced(s) && a.Arbitrate? && a.order in s.store.rmas
    ensures var t := DoArbitrate(s, a);
      && Aligned(t) && |t.history| == |s.history|
      && AllFacts(t) == AllFacts(s)[a.order := FactsAfterRuling(FactsOf(s, a.order), a.approve)]
  {
    OneOrderChanged(s, DoArbitrate(s, a), a.order, FactsAfterRuling(FactsOf(s, a.order), a.approve));
  }

  lemma RefundStart(s: State, init: State, a: Action)
    requires Inv(s, init) && a.RefundCheck?
    ensures Inv(DoRefundCheck(s, a), init)
  {
    var i := a.order;
    var t := DoRefundCheck(s, a);
    if CanRefund(s.store, i) {
      SoundAt(s, init, i);
      RefundStartFrame(s, a);
      SpawnReferenced(s, t, Refunding(i, s.store.orders[i].orderStatus != Returned), i);
      CalmStep(s, t, init, i, FactsAfterRefundStart(FactsOf(s, i)));
    }
  }

  function FactsAfterRefundStart(f: Facts): Facts {
    var h := f.history;
    f.(refunding := f.refunding + 1, history := h.(overlaps := h.overlaps + if f.refunding > 0 then 1 else 0))
  }

  lemma RefundStartFrame(s: State, a: Action)
    requires Aligned(s) && a.RefundCheck? && CanRefund(s.store, a.order)
    ensures var t := DoRefundCheck(s, a);
      && Aligned(t) && |t.history| == |s.history|
      && AllFacts(t) == AllFacts(s)[a.order := FactsAfterRefundStart(FactsOf(s, a.order))]
  {
    OneOrderChanged(s, DoRefundCheck(s, a), a.order, FactsAfterRefundStart(FactsOf(s, a.order)));
  }

  function FactsAfterRefund(f: Facts, writesStatus: bool): Facts
    requires f.rma.Some?
  {
    f.(order := if writesStatus then f.order.(orderStatus := Returned) else f.order,
       rma := Some(f.rma.value.(status := Refunded)),
       history := f.history.(refunds := f.history.refunds + 1,
                             stale := f.history.stale + if Standing(f) then 0 else 1),
       refunding := if f.refunding > 0 then f.refunding - 1 else 0)
  }

  lemma RefundStep(s: State, init: State, a: Action)
    requires Inv(s, init) && a.Continue? && a.process.Refunding? && a.process in s.procs
    ensures Inv(DoContinue(s, a), init)
  {
    var i := a.process.order;
    if i in s.store.rmas && a.ok {
      RefundKeeps(s, init, a);
    } else {
      DropStep(s, init, a.process);
    }
  }

  lemma RefundKeeps(s: State, init: State, a: Action)
    requires Inv(s, init) && a.Continue? && a.process.Refunding? && a.process in s.procs
    requires a.process.order in s.store.rmas && a.ok
    ensures Inv(DoContinue(s, a), init)
  {
    var i := a.process.order;
    var t, g, parcels := RefundEffect(s, init, a);
    RestockStep(s, t, init, i, g, parcels);
  }

  /** What the refund's transaction does, in the terms of the local-step rule. */
  lemma RefundEffect(s: State, init: State, a: Action) returns (t: State, g: Facts, parcels: seq<Parcel>)
    requires Inv(s, init) && a.Continue? && a.process.Refunding? && a.process in s.procs
    requires a.process.order in s.store.rmas && a.ok
    ensures t == DoContinue(s, a)
    ensures var i := a.process.order;
      && i < |s.history| && Aligned(t) && |t.history| == |s.history|
      && AllFacts(t) == AllFacts(s)[i := g] && Referenced(t)
      && t.store.products == Restock(s.store.products, parcels) && t.store.coupons == s.store.coupons
      && Sound(g, s.store.products.Keys) && HeldDrops(FactsOf(s, i), g, parcels)
      && FactsOf(s, i).order.pricing == g.order.pricing && FactsOf(s, i).history.settled == g.history.settled
  {
    var i := a.process.order;
    t, g := DoContinue(s, a), FactsAfterRefund(FactsOf(s, i), a.process.writesStatus);
    parcels := ReturnParcels(s.store.rmas[i].items);
    SoundAt(s, init, i);
    RefundSound(FactsOf(s, i), s.store.products.Keys, a.process.writesStatus);
    RefundFrame(s, a);
  }

  lemma RefundFrame(s: State, a: Action)
    requires Aligned(s) && Referenced(s) && a.Continue? && a.process.Refunding? && a.process in s.procs
    requires a.process.order in s.store.rmas && a.ok
    ensures var i := a.process.order;
      var t := DoContinue(s, a);
      && i < |s.history| && Aligned(t) && |t.history| == |s.history| && Referenced(t)
      && AllFacts(t) == AllFacts(s)[i := FactsAfterRefund(FactsOf(s, i), a.process.writesStatus)]
  {
    RefundFacts(s, a);
    SpawnReferenced(s, DoContinue(s, a), Sweeping([], 0), a.process.order);
  }

  lemma RefundFacts(s: State, a: Action)
    requires Aligned(s) && a.Continue? && a.process.Refunding? && a.process in s.procs
    requires a.process.order < |s.history| && a.process.order in s.store.rmas && a.ok
    ensures var i := a.process.order;
      var t := DoContinue(s, a);
      && Aligned(t) && |t.history| == |s.history|
      && AllFacts(t) == AllFacts(s)[i := FactsAfterRefund(FactsOf(s, i), a.process.writesStatus)]
  {
    var i := a.process.order;
    OneOrderChanged(s, DoContinue(s, a), i, FactsAfterRefund(FactsOf(s, i), a.process.writesStatus));
  }

  lemma RefundSound(f: Facts, keys: set<ProductId>, writesStatus: bool)
    requires Sound(f, keys) && f.rma.Some? && f.refunding > 0
    ensures var g := FactsAfterRefund(f, writesStatus);
      Sound(g, keys) && HeldDrops(f, g, ReturnParcels(f.rma.value.items))
  {
    var g := FactsAfterRefund(f, writesStatus);
    forall p
      ensures Held(g, p) == Held(f, p) - Demand(ReturnParcels(f.rma.value.items), p)
    {
      var n, u := f.history.refunds, ReturnedUnits(f, p);
      assert (n + 1) * u == n * u + u;
    }
  }

  // ----- dispatch on the process

  lemma ContinueStep(s: State, init: State, a: Action)
    requires Inv(s, init) && a.Continue? && a.process in s.procs
    ensures Inv(DoContinue(s, a), init)
  {
    var p := a.process;
    match p
    case HandshakeRead(i, paymentId, signature) =>
      DropStep(s, init, p);
      PayStep(Finish(s, p), init, i, paymentId, Some(signature));
    case OweCoupon(_) => CouponStep(s, init, a);
    case OweInvoice(_) => InvoiceStep(s, init, a);
    case Sweeping(_, _) => SweepStep(s, init, a);
    case Dispatching(_) => DispatchStep(s, init, a);
    case CourierWriting(i, status) =>
      DropStep(s, init, p);
      OrderRewrite(Finish(s, p), DoContinue(s, a), init, i, s.store.orders[i].(orderStatus := status));
    case Refunding(_, _) => RefundStep(s, init, a);
  }
}
