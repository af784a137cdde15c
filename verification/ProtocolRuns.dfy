/** The invariant over every run, and what it means for stock, payments, coupons, dispatch and returns. */
module ProtocolRuns {
  import opened Wrappers
  import opened Sums
  import opened Documents
  import opened Stock
  import opened OrderStore
  import opened Protocol
  import opened ProtocolInvariant
  import opened ProtocolSteps
  import opened CheckoutLaws

  // ----- the step that creates an order

  function FactsOfNew(o: Order): Facts {
    var cash := if o.paymentMethod == COD then 1 else 0;
    Facts(o, FRESH.(settled := cash), None, 0, cash, 0, 0, 0)
  }

  lemma AppendStep(s: State, t: State, init: State, f: Facts)
    requires Inv(s, init)
    requires Aligned(t) && |t.history| == |s.history| + 1 && AllFacts(t) == AllFacts(s) + [f]
    requires t.store.products.Keys == s.store.products.Keys && t.store.coupons.Keys == s.store.coupons.Keys
    requires Sound(f, s.store.products.Keys) && Referenced(t)
    requires forall p :: p in s.store.products ==>
      && 0 <= t.store.products[p].currentStock
      && t.store.products[p].currentStock + Held(f, p) == s.store.products[p].currentStock
    requires forall c :: c in s.store.coupons ==>
      t.store.coupons[c].usedCount == s.store.coupons[c].usedCount + Used(f, c)
    ensures Inv(t, init)
  {
    forall p | p in s.store.products
      ensures t.store.products[p].currentStock + Sum(HeldBy(AllFacts(t), p)) == init.store.products[p].currentStock
    {
      HeldGrows(AllFacts(s), f, p);
    }
    forall c | c in s.store.coupons
      ensures t.store.coupons[c].usedCount == init.store.coupons[c].usedCount + Sum(UsedBy(AllFacts(t), c))
    {
      UsedGrows(AllFacts(s), f, c);
    }
  }

  lemma HeldGrows(fs: seq<Facts>, f: Facts, p: ProductId)
    ensures Sum(HeldBy(fs + [f], p)) == Sum(HeldBy(fs, p)) + Held(f, p)
  {
    assert HeldBy(fs + [f], p) == HeldBy(fs, p) + [Held(f, p)];
    SumAppend(HeldBy(fs, p), Held(f, p));
  }

  lemma UsedGrows(fs: seq<Facts>, f: Facts, c: CouponId)
    ensures Sum(UsedBy(fs + [f], c)) == Sum(UsedBy(fs, c)) + Used(f, c)
  {
    assert UsedBy(fs + [f], c) == UsedBy(fs, c) + [Used(f, c)];
    SumAppend(UsedBy(fs, c), Used(f, c));
  }

  lemma CheckoutKeeps(s: State, init: State, a: Action)
    requires Inv(s, init) && a.CheckoutTx?
    ensures Inv(DoCheckout(s, a), init)
  {
    if Checkout(s.store, a.user, a.shipTo, a.payment, s.clock, a.gateway).Success? {
      var t, f := CheckoutAppends(s, init, a);
      AppendStep(s, t, init, f);
    }
  }

  /** What a committed checkout does, in the terms of the appending rule. */
  lemma CheckoutAppends(s: State, init: State, a: Action) returns (t: State, f: Facts)
    requires Inv(s, init) && a.CheckoutTx?
    requires Checkout(s.store, a.user, a.shipTo, a.payment, s.clock, a.gateway).Success?
    ensures t == DoCheckout(s, a)
    ensures Aligned(t) && |t.history| == |s.history| + 1 && AllFacts(t) == AllFacts(s) + [f] && Referenced(t)
    ensures t.store.products.Keys == s.store.products.Keys && t.store.coupons.Keys == s.store.coupons.Keys
    ensures Sound(f, s.store.products.Keys)
    ensures forall p :: p in s.store.products ==>
      && 0 <= t.store.products[p].currentStock
      && t.store.products[p].currentStock + Held(f, p) == s.store.products[p].currentStock
    ensures forall c :: c in s.store.coupons ==>
      t.store.coupons[c].usedCount == s.store.coupons[c].usedCount + Used(f, c)
  {
    CheckoutEffect(s.store, a.user, a.shipTo, a.payment, s.clock, a.gateway);
    t := DoCheckout(s, a);
    f := FactsOfNew(t.store.orders[|s.history|]);
    CheckoutFrame(s, t, f.order);
    CheckoutMoves(s, t, f, CartParcels(s.store.carts[a.user].items));
  }

  lemma CheckoutFrame(s: State, t: State, o: Order)
    requires Aligned(s) && Referenced(s) && Aligned(t)
    requires t.store.orders == s.store.orders + [o] && t.store.rmas == s.store.rmas && t.jobs == s.jobs
    requires t.history == s.history + [FactsOfNew(o).history]
    requires t.procs == if o.paymentMethod == COD then s.procs + multiset{OweInvoice(|s.history|)} else s.procs
    ensures AllFacts(t) == AllFacts(s) + [FactsOfNew(o)]
    ensures Referenced(t)
  {
    var n := |s.history|;
    NothingYet(s, n);
    assert FactsOf(t, n) == FactsOfNew(o);
    forall i | 0 <= i < n
      ensures FactsOf(t, i) == FactsOf(s, i)
    {
    }
    forall q | q in t.procs
      ensures WellFormed(q, |t.history|) && Prepaid(q, t.store.orders)
    {
      assert q in s.procs || q == OweInvoice(n);
    }
  }

  /** No process, return or job mentions an order that does not exist yet. */
  lemma NothingYet(s: State, n: nat)
    requires Aligned(s) && Referenced(s) && |s.history| <= n
    ensures n !in s.store.rmas && s.jobs[n] == 0
    ensures s.procs[OweCoupon(n)] == 0 && s.procs[OweInvoice(n)] == 0 && s.procs[Dispatching(n)] == 0
    ensures InFlight(s.procs, n) == 0
  {
    assert OweCoupon(n) !in s.procs && OweInvoice(n) !in s.procs && Dispatching(n) !in s.procs;
    assert Refunding(n, true) !in s.procs && Refunding(n, false) !in s.procs;
  }

  lemma CheckoutMoves(s: State, t: State, f: Facts, parcels: seq<Parcel>)
    requires t.store.products == Shifted(s.store.products, parcels, Take) && Fits(s.store.products, parcels)
    requires OrderParcels(f.order.items) == parcels && f == FactsOfNew(f.order)
    requires forall p :: p in s.store.products ==> 0 <= s.store.products[p].currentStock
    requires f.order.pricing.appliedCoupon.Some? ==> f.order.pricing.appliedCoupon.value in s.store.coupons
    requires t.store.coupons == (if f.order.paymentMethod == COD
                                 then CountUse(s.store.coupons, f.order.pricing.appliedCoupon)
                                 else s.store.coupons)
    ensures Known(s.store.products.Keys, parcels)
    ensures t.store.products.Keys == s.store.products.Keys && t.store.coupons.Keys == s.store.coupons.Keys
    ensures forall p :: p in s.store.products ==>
      && 0 <= t.store.products[p].currentStock
      && t.store.products[p].currentStock + Held(f, p) == s.store.products[p].currentStock
    ensures forall c :: c in s.store.coupons ==>
      t.store.coupons[c].usedCount == s.store.coupons[c].usedCount + Used(f, c)
  {
    forall p | p in s.store.products
      ensures Demand(parcels, p) <= s.store.products[p].currentStock
    {
      DemandFits(s.store.products, parcels, p);
    }
  }

  lemma DemandFits(ps: Catalogue, parcels: seq<Parcel>, p: ProductId)
    requires Fits(ps, parcels) && p in ps && 0 <= ps[p].currentStock
    ensures Demand(parcels, p) <= ps[p].currentStock
  {
    if Demand(parcels, p) > 0 {
      var k := SomeParcel(parcels, p);
    }
  }

  lemma {:induction false} SomeParcel(parcels: seq<Parcel>, p: ProductId) returns (k: nat)
    requires Demand(parcels, p) > 0
    ensures k < |parcels| && parcels[k].product == p
  {
    var n := |parcels| - 1;
    if parcels[n].product == p {
      k := n;
    } else {
      k := SomeParcel(parcels[..n], p);
    }
  }

  // ----- every step, every run

  lemma LookupStep(s: State, init: State, a: Action)
    requires Inv(s, init) && a.HandshakeLookup?
    ensures Inv(DoHandshakeLookup(s, a), init)
  {
    if DoHandshakeLookup(s, a) != s {
      QuietSpawn(s, init, HandshakeRead(a.order, a.paymentId, a.signature));
    }
  }

  lemma WebhookStep(s: State, init: State, a: Action)
    requires Inv(s, init) && a.RazorpayWebhook?
    ensures Inv(DoWebhook(s, a), init)
  {
    if DoWebhook(s, a) != s {
      PayStep(s, init, a.order, a.paymentId, None);
    }
  }

  lemma SweepStartStep(s: State, init: State)
    requires Inv(s, init)
    ensures Inv(DoSweepStart(s), init)
  {
    if s.clock >= s.lockUntil {
      var locked := LockStep(s, init, s.clock + LOCK_SECONDS);
      var p := Sweeping(Snapshot(s.store.orders, s.clock), s.clock);
      assert DoSweepStart(s) == Spawn(locked, p);
      QuietSpawn(locked, init, p);
    }
  }

  lemma LockStep(s: State, init: State, until: nat) returns (locked: State)
    requires Inv(s, init)
    ensures locked == s.(lockUntil := until) && Inv(locked, init)
  {
    locked := s.(lockUntil := until);
    EnvironmentKeeps(s, locked, init);
  }

  lemma CourierStep(s: State, init: State, a: Action)
    requires Inv(s, init) && a.CourierWebhook?
    ensures Inv(DoCourierWebhook(s, a), init)
  {
    if DoCourierWebhook(s, a) != s {
      QuietSpawn(s, init, CourierWriting(a.order, CourierStatus(s.store.orders[a.order].orderStatus, a.current)));
    }
  }

  lemma AdminStep(s: State, init: State, a: Action)
    requires Inv(s, init) && a.AdminEdit?
    ensures Inv(DoAdminEdit(s, a), init)
  {
    var i := a.order;
    if i < |s.store.orders| && a.status != Pending {
      OrderRewrite(s, DoAdminEdit(s, a), init, i, AdminUpdate(s.store, i, a.status, a.tracking, a.courier).orders[i]);
    }
  }

  lemma DispatchCheckStep(s: State, init: State, a: Action)
    requires Inv(s, init) && a.DispatchCheck?
    ensures Inv(Step(s, a), init)
  {
    if a.order < |s.store.orders| && CanDispatch(s.store.orders[a.order]) {
      DispatchStart(s, init, a.order);
    }
  }

  lemma StepKeeps(s: State, init: State, a: Action)
    requires Inv(s, init)
    ensures Inv(Step(s, a), init)
  {
    match a
    case CheckoutTx(_, _, _, _) => CheckoutKeeps(s, init, a);
    case HandshakeLookup(_, _, _, _, _) => LookupStep(s, init, a);
    case RazorpayWebhook(_, _, _, _) => WebhookStep(s, init, a);
    case SweepStart => SweepStartStep(s, init);
    case DispatchCheck(_) => DispatchCheckStep(s, init, a);
    case CourierWebhook(_, _, _) => CourierStep(s, init, a);
    case AdminEdit(_, _, _, _) => AdminStep(s, init, a);
    case ReturnRequest(_, _, _, _, _) => ReturnRequestStep(s, init, a);
    case Arbitrate(_, _) => ArbitrateStep(s, init, a);
    case RefundCheck(_) => RefundStart(s, init, a);
    case Continue(p, _, _, _, _) => if p in s.procs { ContinueStep(s, init, a); }
    case _ => EnvironmentStep(s, init, a);
  }

  lemma EnvironmentStep(s: State, init: State, a: Action)
    requires Inv(s, init) && (a.EditCart? || a.EditProduct? || a.EditCoupon? || a.Tick?)
    ensures Inv(Step(s, a), init)
  {
    if a.Tick? {
      TickStep(s, init, a);
    } else {
      EditStep(s, init, a);
      assert Step(s, a) == DoEdit(s, a);
    }
  }

  lemma TickStep(s: State, init: State, a: Action)
    requires Inv(s, init) && a.Tick?
    ensures Inv(Step(s, a), init)
  {
    EnvironmentKeeps(s, Step(s, a), init);
  }

  lemma EditStep(s: State, init: State, a: Action)
    requires Inv(s, init) && (a.EditCart? || a.EditProduct? || a.EditCoupon?)
    ensures Inv(DoEdit(s, a), init)
  {
    match a
    case EditCart(_, _) => EditCartStep(s, init, a);
    case EditProduct(_, _) => EditProductStep(s, init, a);
    case EditCoupon(_, _) => EditCouponStep(s, init, a);
  }

  lemma EditCartStep(s: State, init: State, a: Action)
    requires Inv(s, init) && a.EditCart?
    ensures Inv(DoEdit(s, a), init)
  {
    EnvironmentKeeps(s, DoEdit(s, a), init);
  }

  lemma EditProductStep(s: State, init: State, a: Action)
    requires Inv(s, init) && a.EditProduct?
    ensures Inv(DoEdit(s, a), init)
  {
    EnvironmentKeeps(s, DoEdit(s, a), init);
  }

  lemma EditCouponStep(s: State, init: State, a: Action)
    requires Inv(s, init) && a.EditCoupon?
    ensures Inv(DoEdit(s, a), init)
  {
    EnvironmentKeeps(s, DoEdit(s, a), init);
  }

  lemma EnvironmentKeeps(s: State, t: State, init: State)
    requires Inv(s, init)
    requires t.history == s.history && t.procs == s.procs && t.jobs == s.jobs
    requires t.store.orders == s.store.orders && t.store.rmas == s.store.rmas
    requires t.store.products.Keys == s.store.products.Keys && t.store.coupons.Keys == s.store.coupons.Keys
    requires forall p :: p in s.store.products ==>
      t.store.products[p].currentStock == s.store.products[p].currentStock
    requires forall c :: c in s.store.coupons ==> t.store.coupons[c].usedCount == s.store.coupons[c].usedCount
    ensures Inv(t, init)
  {
    assert AllFacts(t) == AllFacts(s);
    QuietStep(s, t, init);
  }

  lemma InitialInv(init: State)
    requires Initial(init)
    ensures Inv(init, init)
  {
    forall p
      ensures HeldBy(AllFacts(init), p) == []
    {
    }
    forall c
      ensures UsedBy(AllFacts(init), c) == []
    {
    }
  }

  lemma {:induction false} RunKeeps(init: State, actions: seq<Action>)
    requires Initial(init)
    ensures Inv(Run(init, actions), init)
  {
    if actions == [] {
      InitialInv(init);
    } else {
      var front, last := actions[..|actions| - 1], actions[|actions| - 1];
      RunKeeps(init, front);
      NextKeeps(init, front, last);
      assert actions == front + [last];
    }
  }

  lemma NextKeeps(init: State, actions: seq<Action>, a: Action)
    requires Inv(Run(init, actions), init)
    ensures Inv(Run(init, actions + [a]), init)
  {
    RunAppend(init, actions, a);
    StepKeeps(Run(init, actions), init, a);
  }

  lemma RunNone(s: State)
    ensures Run(s, []) == s
  {
  }

  lemma RunAppend(s: State, actions: seq<Action>, a: Action)
    ensures Run(s, actions + [a]) == Step(Run(s, actions), a)
  {
    assert (actions + [a])[..|actions|] == actions;
    assert Run(s, actions + [a]) == LastStep(s, actions + [a]);
  }

  lemma RunOfTwo(s: State, a: Action, b: Action)
    ensures Run(s, [a, b]) == Step(Step(s, a), b)
  {
    RunAppend(s, [], a);
    RunAppend(s, [a], b);
    assert [] + [a] == [a] && [a] + [b] == [a, b];
  }

  lemma RunOfFour(s: State, a: Action, b: Action, c: Action, d: Action)
    ensures Run(s, [a, b, c, d]) == Step(Step(Step(Step(s, a), b), c), d)
  {
    RunOfTwo(s, a, b);
    RunAppend(s, [a, b], c);
    RunAppend(s, [a, b, c], d);
    assert [a, b] + [c] == [a, b, c] && [a, b, c] + [d] == [a, b, c, d];
  }

  lemma ReachableInv(init: State, s: State)
    requires Reachable(init, s)
    ensures Inv(s, init)
  {
    var actions :| Run(init, actions) == s;
    RunKeeps(init, actions);
  }
}
