/** The inductive invariant of the order protocol, one predicate per order plus the two ledgers. */
module ProtocolInvariant {
  import opened Wrappers
  import opened Sums
  import opened Documents
  import opened Stock
  import opened OrderStore
  import opened Protocol
  import RefundLaws

  /** Everything in a state that concerns one order. */
  datatype Facts = Facts(
    order: Order,
    history: History,
    rma: Option<Return>,
    oweCoupon: nat,
    oweInvoice: nat,
    dispatching: nat,
    refunding: nat,
    jobs: nat)

  predicate Aligned(s: State) {
    |s.history| == |s.store.orders|
  }

  function FactsOf(s: State, i: nat): Facts
    requires Aligned(s) && i < |s.history|
  {
    Facts(s.store.orders[i], s.history[i],
          if i in s.store.rmas then Some(s.store.rmas[i]) else None,
          s.procs[OweCoupon(i)], s.procs[OweInvoice(i)], s.procs[Dispatching(i)], InFlight(s.procs, i), s.jobs[i])
  }

  function AllFacts(s: State): seq<Facts>
    requires Aligned(s)
  {
    seq(|s.history|, i requires 0 <= i < |s.history| => FactsOf(s, i))
  }

  /** Paid, or to be paid on delivery. */
  predicate Payable(o: Order) {
    o.paymentMethod == COD || o.paymentStatus == Paid
  }

  function Due(o: Order): nat {
    if Payable(o) then 1 else 0
  }

  predicate PaymentFacts(f: Facts) {
    var o, h := f.order, f.history;
    && (o.orderStatus == Pending ==>
          o.paymentMethod == RAZORPAY && o.paymentStatus == PaymentPending && h.restored == 0)
    && (o.paymentMethod == COD ==> o.gatewayOrderId.None? && o.paymentStatus == PaymentPending)
    && (o.paymentStatus == PaymentPending || o.paymentStatus == Paid)
    && (o.gatewayPaymentId.Some? <==> o.paymentStatus == Paid)
    && h.wins == (if o.paymentStatus == Paid then 1 else 0)
    && h.restored <= 1
    && (h.latePaid <==> h.restored > 0 && o.paymentStatus == Paid)
  }

  predicate UseFacts(f: Facts) {
    var o, h := f.order, f.history;
    && h.settled + h.lost + f.oweCoupon == Due(o)
    && f.jobs + h.jobsLost + f.oweInvoice + f.oweCoupon == Due(o)
    && (o.shiprocketShipmentId.Some? || f.dispatching > 0 ==> Payable(o))
  }

  function Approval(f: Facts): nat {
    if f.refunding > 0 || Standing(f) then 1 else 0
  }

  predicate ReturnFacts(f: Facts) {
    var o, h := f.order, f.history;
    && (f.rma.None? ==> h.refunds == 0 && h.approvals == 0 && h.overlaps == 0 && f.refunding == 0)
    && (h.refunds > 0 || f.refunding > 0 ==> o.paymentStatus == Paid)
    && h.refunds + Approval(f) + (if f.refunding > 0 then f.refunding - 1 else 0) <= h.approvals + h.overlaps
    && (f.rma.Some? ==> RefundLaws.EachPurchased(o.items, f.rma.value.items))
  }

  /** An approval in force. */
  predicate Standing(f: Facts) {
    f.rma.Some? && f.rma.value.status == Approved
  }

  /** Every approval granted stands, was withdrawn or was spent by a refund; only a stale refund spends none. */
  predicate ApprovalFacts(f: Facts) {
    var h := f.history;
    && h.refunds + (if Standing(f) then 1 else 0) + h.withdrawn == h.granted + h.stale
    && h.granted <= h.approvals
    && (h.overlaps == 0 && h.rulings == 0 ==> h.stale == 0 && f.refunding <= if Standing(f) then 1 else 0)
  }

  /** A recorded shipment comes with a tracking number, which bars further dispatch checks; so a second one was past its
      check already. */
  predicate ShipmentFacts(f: Facts) {
    var o, h := f.order, f.history;
    && h.shipments == (if o.shiprocketShipmentId.Some? then 1 else 0) + h.doubled
    && (o.shiprocketShipmentId.Some? ==> Truthy(o.trackingNumber))
    && (h.shipments > 0 ==> o.shiprocketShipmentId.Some?)
    && (h.crossings == 0 ==> h.doubled == 0 && f.dispatching <= if o.shiprocketShipmentId.Some? then 0 else 1)
  }

  predicate Known(keys: set<ProductId>, parcels: seq<Parcel>) {
    forall k :: 0 <= k < |parcels| ==> parcels[k].product in keys
  }

  predicate Sound(f: Facts, keys: set<ProductId>) {
    PaymentFacts(f) && UseFacts(f) && ReturnFacts(f) && ApprovalFacts(f) && ShipmentFacts(f)
    && Known(keys, OrderParcels(f.order.items))
  }

  predicate WellFormed(p: Process, orders: nat) {
    match p
    case Sweeping(_, _) => true
    case CourierWriting(i, status) => i < orders && status != Pending
    case HandshakeRead(i, _, _) => i < orders
    case OweCoupon(i) => i < orders
    case OweInvoice(i) => i < orders
    case Dispatching(i) => i < orders
    case Refunding(i, _) => i < orders
  }

  /** The handshake only ever reads orders that carry a gateway id, that is, prepaid ones. */
  predicate Prepaid(p: Process, orders: seq<Order>) {
    p.HandshakeRead? && p.order < |orders| ==> orders[p.order].gatewayOrderId.Some?
  }

  // ----- the ledgers

  function UnitsOf(items: seq<OrderItem>, p: ProductId): nat {
    Demand(OrderParcels(items), p)
  }

  function ReturnedUnits(f: Facts, p: ProductId): nat {
    if f.rma.Some? then Demand(ReturnParcels(f.rma.value.items), p) else 0
  }

  /** Units of a product that an order still keeps off the shelf: what it took, unless the sweep put it back, less
      what its refunds restocked. */
  function Held(f: Facts, p: ProductId): int {
    (if f.history.restored > 0 then 0 else UnitsOf(f.order.items, p)) - f.history.refunds * ReturnedUnits(f, p)
  }

  /** An order's share of the ledger goes down by these parcels. */
  ghost predicate HeldDrops(f: Facts, g: Facts, parcels: seq<Parcel>) {
    forall p :: Held(g, p) == Held(f, p) - Demand(parcels, p)
  }

  function HeldBy(fs: seq<Facts>, p: ProductId): seq<int> {
    seq(|fs|, i requires 0 <= i < |fs| => Held(fs[i], p))
  }

  /** Coupon uses an order has been counted for. */
  function Used(f: Facts, c: CouponId): int {
    if f.order.pricing.appliedCoupon == Some(c) then f.history.settled else 0
  }

  function UsedBy(fs: seq<Facts>, c: CouponId): seq<int> {
    seq(|fs|, i requires 0 <= i < |fs| => Used(fs[i], c))
  }

  predicate StockLedger(s: State, init: State)
    requires Aligned(s)
  {
    && s.store.products.Keys == init.store.products.Keys
    && forall p :: p in s.store.products ==>
         && 0 <= s.store.products[p].currentStock
         && s.store.products[p].currentStock + Sum(HeldBy(AllFacts(s), p)) == init.store.products[p].currentStock
  }

  predicate CouponLedger(s: State, init: State)
    requires Aligned(s)
  {
    && s.store.coupons.Keys == init.store.coupons.Keys
    && forall c :: c in s.store.coupons ==>
         s.store.coupons[c].usedCount == init.store.coupons[c].usedCount + Sum(UsedBy(AllFacts(s), c))
  }

  predicate AllSound(fs: seq<Facts>, keys: set<ProductId>) {
    forall i :: 0 <= i < |fs| ==> Sound(fs[i], keys)
  }

  /** Nothing refers to an order that does not exist. */
  ghost predicate Referenced(s: State)
    requires Aligned(s)
  {
    && (forall i :: i in s.store.rmas ==> i < |s.history|)
    && (forall i :: i in s.jobs ==> i < |s.history|)
    && (forall p :: p in s.procs ==> WellFormed(p, |s.history|) && Prepaid(p, s.store.orders))
  }

  ghost predicate Inv(s: State, init: State) {
    && Aligned(s)
    && AllSound(AllFacts(s), s.store.products.Keys)
    && Referenced(s)
    && StockLedger(s, init)
    && CouponLedger(s, init)
  }

  /** A step that changes only what concerns order i, and moves stock and coupon counts by what order i's share of
      them changes, keeps the invariant. */
  lemma LocalStep(s: State, t: State, init: State, i: nat, f: Facts)
    requires Inv(s, init)
    requires SameShape(s, t) && i < |s.history| && AllFacts(t) == AllFacts(s)[i := f]
    requires Sound(f, s.store.products.Keys)
    requires Referenced(t)
    requires StockMoves(s, t, FactsOf(s, i), f) && CountMoves(s, t, FactsOf(s, i), f)
    ensures Inv(t, init)
  {
    assert AllFacts(s)[i] == FactsOf(s, i);
    forall p | p in s.store.products
      ensures t.store.products[p].currentStock + Sum(HeldBy(AllFacts(t), p)) == init.store.products[p].currentStock
    {
      HeldShifts(AllFacts(s), i, f, p);
    }
    forall c | c in s.store.coupons
      ensures t.store.coupons[c].usedCount == init.store.coupons[c].usedCount + Sum(UsedBy(AllFacts(t), c))
    {
      UsedShifts(AllFacts(s), i, f, c);
    }
  }

  predicate SameShape(s: State, t: State) {
    && Aligned(s) && Aligned(t) && |t.history| == |s.history|
    && t.store.products.Keys == s.store.products.Keys
    && t.store.coupons.Keys == s.store.coupons.Keys
  }

  predicate StockMoves(s: State, t: State, before: Facts, after: Facts)
    requires SameShape(s, t)
  {
    forall p :: p in s.store.products ==>
      && 0 <= t.store.products[p].currentStock
      && t.store.products[p].currentStock + Held(after, p) == s.store.products[p].currentStock + Held(before, p)
  }

  predicate CountMoves(s: State, t: State, before: Facts, after: Facts)
    requires SameShape(s, t)
  {
    forall c :: c in s.store.coupons ==>
      t.store.coupons[c].usedCount - Used(after, c) == s.store.coupons[c].usedCount - Used(before, c)
  }

  /** Both ledgers see only these parts of an order's facts. */
  predicate SameLedger(f: Facts, g: Facts) {
    && f.order.items == g.order.items && f.order.pricing == g.order.pricing
    && f.history.restored == g.history.restored && f.history.refunds == g.history.refunds
    && f.history.settled == g.history.settled
    && ((f.rma.None? && g.rma.Some? && g.history.refunds == 0)
        || (f.rma.None? && g.rma.None?)
        || (f.rma.Some? && g.rma.Some? && f.rma.value.items == g.rma.value.items))
  }

  /** The common case of a local step: no stock and no coupon count moves. */
  lemma CalmStep(s: State, t: State, init: State, i: nat, f: Facts)
    requires Inv(s, init)
    requires Aligned(t) && |t.history| == |s.history| && i < |s.history| && AllFacts(t) == AllFacts(s)[i := f]
    requires t.store.products == s.store.products && t.store.coupons == s.store.coupons
    requires Sound(f, s.store.products.Keys) && SameLedger(FactsOf(s, i), f)
    requires Referenced(t)
    ensures Inv(t, init)
  {
    CalmLedgers(s, t, FactsOf(s, i), f);
    LocalStep(s, t, init, i, f);
  }

  lemma CalmLedgers(s: State, t: State, f: Facts, g: Facts)
    requires Aligned(s) && Aligned(t) && |t.history| == |s.history| && SameLedger(f, g)
    requires t.store.products == s.store.products && t.store.coupons == s.store.coupons
    requires forall p :: p in s.store.products ==> 0 <= s.store.products[p].currentStock
    ensures SameShape(s, t) && StockMoves(s, t, f, g) && CountMoves(s, t, f, g)
  {
  }

  lemma HeldShifts(fs: seq<Facts>, i: nat, f: Facts, p: ProductId)
    requires i < |fs|
    ensures Sum(HeldBy(fs[i := f], p)) == Sum(HeldBy(fs, p)) - Held(fs[i], p) + Held(f, p)
  {
    assert HeldBy(fs[i := f], p) == HeldBy(fs, p)[i := Held(f, p)];
    SumUpdate(HeldBy(fs, p), i, Held(f, p));
  }

  lemma UsedShifts(fs: seq<Facts>, i: nat, f: Facts, c: CouponId)
    requires i < |fs|
    ensures Sum(UsedBy(fs[i := f], c)) == Sum(UsedBy(fs, c)) - Used(fs[i], c) + Used(f, c)
  {
    assert UsedBy(fs[i := f], c) == UsedBy(fs, c)[i := Used(f, c)];
    SumUpdate(UsedBy(fs, c), i, Used(f, c));
  }

  /** A step that changes nothing any order's facts see keeps the invariant. */
  lemma QuietStep(s: State, t: State, init: State)
    requires Inv(s, init)
    requires SameShape(s, t) && AllFacts(t) == AllFacts(s)
    requires Referenced(t)
    requires forall p :: p in s.store.products ==>
      t.store.products[p].currentStock == s.store.products[p].currentStock
    requires forall c :: c in s.store.coupons ==> t.store.coupons[c].usedCount == s.store.coupons[c].usedCount
    ensures Inv(t, init)
  {
  }

  /** Facts of one order replaced, the others as they were. */
  lemma OneOrderChanged(s: State, t: State, i: nat, f: Facts)
    requires Aligned(s) && Aligned(t) && |t.history| == |s.history| && i < |s.history|
    requires FactsOf(t, i) == f
    requires forall j :: 0 <= j < |s.history| && j != i ==> FactsOf(t, j) == FactsOf(s, j)
    ensures AllFacts(t) == AllFacts(s)[i := f]
  {
  }
}
