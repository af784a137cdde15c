/** What holds in every state any run reaches from a shop before its first order. */
module ProtocolTheorems {
  import opened Wrappers
  import opened Sums
  import opened Documents
  import opened Stock
  import opened OrderStore
  import opened Protocol
  import opened ProtocolInvariant
  import opened ProtocolSteps
  import opened ProtocolRuns
  import opened Journey
  import RefundLaws

  // ----- stock

  /** Units of p in the orders the sweep has not put back. */
  function Outstanding(s: State, p: ProductId): seq<int>
    requires Aligned(s)
  {
    seq(|s.history|, i requires 0 <= i < |s.history| =>
      if s.history[i].restored > 0 then 0 else UnitsOf(s.store.orders[i].items, p))
  }

  /** Units of p put back by refunds. */
  function Restocked(s: State, p: ProductId): seq<int>
    requires Aligned(s)
  {
    seq(|s.history|, i requires 0 <= i < |s.history| => s.history[i].refunds * ReturnedUnits(FactsOf(s, i), p))
  }

  /** Stock is conserved: what is on the shelf, plus what orders still hold, less what refunds brought back, is what
      the shop opened with, and the shelf is never below zero. */
  lemma StockIsConserved(init: State, s: State, p: ProductId)
    requires Reachable(init, s) && p in init.store.products
    ensures Aligned(s) && p in s.store.products && 0 <= s.store.products[p].currentStock
    ensures s.store.products[p].currentStock + Sum(Outstanding(s, p)) - Sum(Restocked(s, p))
         == init.store.products[p].currentStock
  {
    ReachableInv(init, s);
    assert p in s.store.products.Keys;
    SumDifference(Outstanding(s, p), Restocked(s, p), HeldBy(AllFacts(s), p));
  }

  /** No payment came after the sweep, and the return was approved once at most. */
  ghost predicate PutBackOnce(s: State, i: nat)
    requires Aligned(s) && i < |s.history|
  {
    !s.history[i].latePaid && ApprovedOnce(s, i)
  }

  /** The return was approved at most once, names each product once, and was refunded without overlap or without a stale
      commit. */
  ghost predicate ApprovedOnce(s: State, i: nat)
    requires Aligned(s) && i < |s.history|
  {
    var h := s.history[i];
    && h.approvals <= 1 && (h.overlaps == 0 || h.stale == 0)
    && (i in s.store.rmas ==> RefundLaws.DistinctProducts(s.store.rmas[i].items))
  }

  /** Then no unit comes back twice: stock never exceeds what the shop opened with. */
  lemma StockNeverExceedsInitial(init: State, s: State, p: ProductId)
    requires Reachable(init, s) && p in init.store.products
    requires Aligned(s) && forall i :: 0 <= i < |s.history| ==> PutBackOnce(s, i)
    ensures p in s.store.products && s.store.products[p].currentStock <= init.store.products[p].currentStock
  {
    ReachableInv(init, s);
    assert p in s.store.products.Keys;
    var held := HeldBy(AllFacts(s), p);
    forall i | 0 <= i < |held|
      ensures 0 <= held[i]
    {
      HeldNonNegative(s, init, i, p);
    }
    NonNegativeSum(held);
  }

  lemma {:induction false} NonNegativeSum(s: seq<int>)
    requires forall i :: 0 <= i < |s| ==> 0 <= s[i]
    ensures 0 <= Sum(s)
  {
    if s == [] {
    } else {
      NonNegativeSum(s[..|s| - 1]);
    }
  }

  lemma HeldNonNegative(s: State, init: State, i: nat, p: ProductId)
    requires Inv(s, init) && i < |s.history| && PutBackOnce(s, i)
    ensures 0 <= Held(FactsOf(s, i), p)
  {
    SoundAt(s, init, i);
    SoundHeldNonNegative(FactsOf(s, i), s.store.products.Keys, p);
  }

  lemma SoundHeldNonNegative(f: Facts, keys: set<ProductId>, p: ProductId)
    requires Sound(f, keys)
    requires !f.history.latePaid && f.history.approvals <= 1 && (f.history.overlaps == 0 || f.history.stale == 0)
    requires f.rma.Some? ==> RefundLaws.DistinctProducts(f.rma.value.items)
    ensures 0 <= Held(f, p)
  {
    if f.history.refunds > 0 {
      RefundLaws.PurchasedDemand(f.order.items, f.rma.value.items, p);
      BoughtWithinUnits(f.order.items, p);
      assert f.history.refunds == 1 && f.history.restored == 0;
    }
  }

  lemma {:induction false} BoughtWithinUnits(items: seq<OrderItem>, p: ProductId)
    ensures RefundLaws.Bought(items, p) <= UnitsOf(items, p)
  {
    if items == [] {
    } else {
      var tail := items[1..];
      assert items == [items[0]] + tail;
      BoughtWithinUnits(tail, p);
      assert OrderParcels(items) == [OrderParcels(items)[0]] + OrderParcels(tail);
      DemandConcat([OrderParcels(items)[0]], OrderParcels(tail), p);
      assert [OrderParcels(items)[0]][..0] == [];
    }
  }

  /** The sweep and a refund put back units of the same order only if it was paid after the sweep cancelled it. */
  lemma RestorationAndRefundExclude(init: State, s: State, i: nat)
    requires Reachable(init, s) && i < |s.history|
    ensures var h := s.history[i];
      h.restored <= 1 && (h.restored > 0 && h.refunds > 0 ==> h.latePaid)
  {
    ReachableInv(init, s);
    SoundAt(s, init, i);
  }

  // ----- what a step may do to an order

  /** `OrderStore.OrderKept` for every order there is. */
  predicate OrdersKept(s: State, t: State) {
    |s.store.orders| <= |t.store.orders|
    && forall i :: 0 <= i < |s.store.orders| ==> OrderKept(s.store.orders[i], t.store.orders[i])
  }

  /** What a step makes of an order keeps what is for good. */
  lemma AfterIsKept(s: State, a: Action, i: nat)
    requires i < |s.store.orders|
    requires a.Continue? && a.process in s.procs && a.process.CourierWriting? ==> !a.process.status.Pending?
    ensures OrderKept(s.store.orders[i], After(s, a, i, Opens(s.store, a)))
  {
  }

  lemma StepKeepsOrders(s: State, init: State, a: Action)
    requires Inv(s, init)
    ensures OrdersKept(s, Step(s, a))
  {
    forall i | 0 <= i < |s.store.orders|
      ensures i < |Step(s, a).store.orders| && OrderKept(s.store.orders[i], Step(s, a).store.orders[i])
    {
      StepOnOrder(s, a, i);
      AfterIsKept(s, a, i);
    }
    if s.store.orders != [] {
      StepOnOrder(s, a, 0);
    }
  }

  /** Over the rest of any run an order keeps its lines and prices, stays paid once paid, and never becomes PENDING
      again. */
  lemma {:induction false} OrdersKeptOverRuns(init: State, actions: seq<Action>, more: seq<Action>)
    requires Initial(init)
    ensures OrdersKept(Run(init, actions), Run(init, actions + more))
  {
    if more == [] {
      assert actions + more == actions;
    } else {
      var front, last := more[..|more| - 1], more[|more| - 1];
      OrdersKeptOverRuns(init, actions, front);
      var s := NextKeepsOrders(init, actions + front, last);
      assert actions + more == (actions + front) + [last];
      OrdersKeptTransitive(Run(init, actions), s, Run(init, actions + more));
    }
  }

  lemma NextKeepsOrders(init: State, actions: seq<Action>, a: Action) returns (s: State)
    requires Initial(init)
    ensures s == Run(init, actions) && OrdersKept(s, Run(init, actions + [a]))
  {
    s := Run(init, actions);
    RunKeeps(init, actions);
    RunAppend(init, actions, a);
    StepKeepsOrders(s, init, a);
  }

  lemma OrdersKeptTransitive(s: State, t: State, u: State)
    requires OrdersKept(s, t) && OrdersKept(t, u)
    ensures OrdersKept(s, u)
  {
    forall i | 0 <= i < |s.store.orders|
      ensures OrderKept(s.store.orders[i], u.store.orders[i])
    {
      assert OrderKept(s.store.orders[i], t.store.orders[i]) && OrderKept(t.store.orders[i], u.store.orders[i]);
    }
  }

  // ----- payment, coupons, invoices

  /** Whatever handshakes and webhooks interleave, an order is paid at most once, and its evidence of payment is there
      exactly when it is paid; its one invoice job is queued, lost, or still owed. */
  lemma PaidExactlyOnce(init: State, s: State, i: nat)
    requires Reachable(init, s) && i < |s.history|
    ensures Aligned(s)
    ensures var o := s.store.orders[i];
      && s.history[i].wins == (if o.paymentStatus == Paid then 1 else 0)
      && (o.gatewayPaymentId.Some? <==> o.paymentStatus == Paid)
      && s.jobs[i] + s.history[i].jobsLost + s.procs[OweInvoice(i)] + s.procs[OweCoupon(i)] == Due(o) <= 1
  {
    ReachableInv(init, s);
    SoundAt(s, init, i);
  }

  /** Uses of coupon c that are owed by a winning call or were lost by a failed increment. */
  function UnsettledUses(s: State, c: CouponId): seq<int>
    requires Aligned(s)
  {
    seq(|s.history|, i requires 0 <= i < |s.history| =>
      if s.store.orders[i].pricing.appliedCoupon == Some(c) then s.procs[OweCoupon(i)] + s.history[i].lost else 0)
  }

  /** One for every cash order and every paid order that carries coupon c. */
  function DueUses(s: State, c: CouponId): seq<int>
    requires Aligned(s)
  {
    seq(|s.history|, i requires 0 <= i < |s.history| =>
      if s.store.orders[i].pricing.appliedCoupon == Some(c) then Due(s.store.orders[i]) else 0)
  }

  /** A coupon's counter, with the increments still owed or lost, is where it started plus its cash orders and its paid
      orders: no use is counted twice and none is forgotten. */
  lemma CouponUsesAreExact(init: State, s: State, c: CouponId)
    requires Reachable(init, s) && c in init.store.coupons
    ensures Aligned(s) && c in s.store.coupons
    ensures s.store.coupons[c].usedCount + Sum(UnsettledUses(s, c))
         == init.store.coupons[c].usedCount + Sum(DueUses(s, c))
  {
    ReachableInv(init, s);
    assert c in s.store.coupons.Keys;
    var due, unsettled, used := DueUses(s, c), UnsettledUses(s, c), UsedBy(AllFacts(s), c);
    forall i | 0 <= i < |s.history|
      ensures used[i] == due[i] - unsettled[i]
    {
      SoundAt(s, init, i);
    }
    SumDifference(due, unsettled, used);
  }

  // ----- the sweep

  /** A sweep's transaction changes an order only from prepaid, unpaid and never put back, and then it is cancelled and
      put back once, however old the snapshot and however many sweeps overlap. */
  lemma SweepCancelsOnlyUnpaid(init: State, s: State, a: Action, i: nat)
    requires Reachable(init, s) && a.Continue? && a.process.Sweeping? && i < |s.history|
    ensures var t := Step(s, a);
      && Aligned(s) && Aligned(t) && i < |t.history|
      && ((t.store.orders[i] == s.store.orders[i] && t.history[i].restored == s.history[i].restored)
          || (&& s.store.orders[i].paymentMethod == RAZORPAY && s.store.orders[i].paymentStatus == PaymentPending
              && t.store.orders[i] == s.store.orders[i].(orderStatus := Cancelled)
              && s.history[i].restored == 0 && t.history[i].restored == 1))
  {
    ReachableInv(init, s);
    SoundAt(s, init, i);
    SweepOnlyCancels(s, a, i);
  }

  lemma SweepOnlyCancels(s: State, a: Action, i: nat)
    requires Aligned(s) && a.Continue? && a.process.Sweeping? && i < |s.history|
    ensures var t := Step(s, a);
      && Aligned(t) && i < |t.history|
      && ((t.store.orders[i] == s.store.orders[i] && t.history[i] == s.history[i])
          || (&& s.store.orders[i].orderStatus == Pending
              && t.store.orders[i] == s.store.orders[i].(orderStatus := Cancelled)
              && t.history[i].restored == s.history[i].restored + 1))
  {
    var pending := a.process.pending;
    if a.process in s.procs && pending != [] && pending[0] < |s.history| && a.ok {
      CancelOnly(Replace(s, a.process, Sweeping(pending[1..], a.process.started)), pending[0], i);
    }
  }

  lemma CancelOnly(s: State, k: nat, i: nat)
    requires Aligned(s) && k < |s.history| && i < |s.history|
    ensures var t := DoCancel(s, k);
      && Aligned(t) && |t.history| == |s.history|
      && ((t.store.orders[i] == s.store.orders[i] && t.history[i] == s.history[i])
          || (&& s.store.orders[i].orderStatus == Pending
              && t.store.orders[i] == s.store.orders[i].(orderStatus := Cancelled)
              && t.history[i].restored == s.history[i].restored + 1))
  {
  }

  // ----- returns

  /** Only gateway-paid orders are ever refunded, and a return is refunded no more often than it was approved, plus
      once for every refund started while another refund of it was in flight. */
  lemma RefundsAreApproved(init: State, s: State, i: nat)
    requires Reachable(init, s) && i < |s.history|
    ensures Aligned(s)
    ensures var h := s.history[i];
      var approved := if i in s.store.rmas && s.store.rmas[i].status == Approved then 1 else 0;
      && h.refunds + approved <= h.approvals + h.overlaps
      && (h.refunds > 0 ==> s.store.orders[i].paymentStatus == Paid)
  {
    ReachableInv(init, s);
    SoundAt(s, init, i);
  }

  /** The exact ledger. Every refund spends an approval that was granted and not withdrawn, unless it was stale: its
      transaction found the return no longer APPROVED and did not look. So refunds go beyond the approvals in force
      exactly when some commit was stale; without overlapping refunds and without arbitration during a refund none
      is. */
  lemma RefundsExceedApprovalsIffStale(init: State, s: State, i: nat)
    requires Reachable(init, s) && i < |s.history|
    ensures Aligned(s)
    ensures var h := s.history[i];
      var standing := if i in s.store.rmas && s.store.rmas[i].status == Approved then 1 else 0;
      && h.refunds + standing == h.granted - h.withdrawn + h.stale
      && (h.refunds + standing > h.granted - h.withdrawn <==> h.stale > 0)
      && h.granted <= h.approvals
      && (h.overlaps == 0 && h.rulings == 0 ==> h.stale == 0)
  {
    ReachableInv(init, s);
    SoundAt(s, init, i);
  }

  /** Overlap does make commits stale: the status is read before the gateway call and not again, so two refunds of one
      approval both go through when the second starts before the first commits. */
  lemma OverlappingRefundsBothCommit(s: State, i: nat)
    requires Aligned(s) && CanRefund(s.store, i) && InFlight(s.procs, i) == 0
    ensures var writes := s.store.orders[i].orderStatus != Returned;
      var commit := Continue(Refunding(i, writes), true, "", "", "");
      var t := Run(s, [RefundCheck(i), RefundCheck(i), commit, commit]);
      && Aligned(t) && i < |t.history|
      && t.history[i].refunds == s.history[i].refunds + 2
      && t.history[i].approvals == s.history[i].approvals && t.history[i].stale == s.history[i].stale + 1
      && t.store.products == Restock(Restock(s.store.products, ReturnParcels(s.store.rmas[i].items)),
                                     ReturnParcels(s.store.rmas[i].items))
  {
    var writes := s.store.orders[i].orderStatus != Returned;
    var commit := Continue(Refunding(i, writes), true, "", "", "");
    var s1 := Step(s, RefundCheck(i));
    var s2 := Step(s1, RefundCheck(i));
    SecondRefundStarts(s, i, writes);
    CommitGoesThrough(s2, i, writes);
    var s3 := Step(s2, commit);
    CommitGoesThrough(s3, i, writes);
    RunOfFour(s, RefundCheck(i), RefundCheck(i), commit, commit);
  }

  lemma SecondRefundStarts(s: State, i: nat, writes: bool)
    requires Aligned(s) && CanRefund(s.store, i) && writes == (s.store.orders[i].orderStatus != Returned)
    ensures var t := Step(Step(s, RefundCheck(i)), RefundCheck(i));
      && t.store == s.store && Aligned(t) && t.procs == s.procs + multiset{Refunding(i, writes), Refunding(i, writes)}
      && t.history[i].refunds == s.history[i].refunds && t.history[i].approvals == s.history[i].approvals
      && t.history[i].stale == s.history[i].stale
  {
  }

  lemma CommitGoesThrough(s: State, i: nat, writes: bool)
    requires Aligned(s) && i < |s.history| && i in s.store.rmas && Refunding(i, writes) in s.procs
    ensures var t := Step(s, Continue(Refunding(i, writes), true, "", "", ""));
      && Aligned(t) && |t.history| == |s.history| && i in t.store.rmas
      && t.procs == s.procs - multiset{Refunding(i, writes)}
      && t.store.products == Restock(s.store.products, ReturnParcels(s.store.rmas[i].items))
      && t.store.rmas[i].items == s.store.rmas[i].items && t.store.rmas[i].status == Refunded
      && t.history[i].refunds == s.history[i].refunds + 1 && t.history[i].approvals == s.history[i].approvals
      && t.history[i].stale == s.history[i].stale + (if s.store.rmas[i].status == Approved then 0 else 1)
  {
  }
}
