/** The usage limit of a coupon: looked at during checkout, counted then for cash and at payment otherwise. */
module CouponTheorems {
  import opened Wrappers
  import opened Documents
  import opened OrderStore
  import opened Protocol
  import opened CheckoutLaws

  /** The turn of a winning payment that counts a use of c. */
  predicate CountsUse(s: State, a: Action, c: CouponId) {
    && a.Continue? && a.process.OweCoupon? && a.process in s.procs && a.ok
    && a.process.order < |s.store.orders| && a.process.order < |s.history|
    && s.store.orders[a.process.order].pricing.appliedCoupon == Some(c)
  }

  /** The count of c rises, and above its limit. */
  predicate PassesLimit(before: map<CouponId, Coupon>, after: map<CouponId, Coupon>, c: CouponId)
    requires c in before
  {
    && c in after && before[c].usedCount < after[c].usedCount
    && after[c].usageLimit < after[c].usedCount
  }

  /** Administrators' edits apart, the one way a count comes to stand above its limit is a paid order's use being
      counted when the limit is reached already; a cash order's never is. */
  lemma LimitIsPassedIff(s: State, a: Action, c: CouponId)
    requires c in s.store.coupons && !a.EditCoupon?
    ensures PassesLimit(s.store.coupons, Step(s, a).store.coupons, c)
       <==> CountsUse(s, a, c) && s.store.coupons[c].usageLimit <= s.store.coupons[c].usedCount
  {
    match a
    case CheckoutTx(_, _, _, _) => CheckoutStaysWithin(s, a, c);
    case Continue(_, _, _, _, _) => TurnPassesIff(s, a, c);
    case RazorpayWebhook(_, _, _, _) => WebhookCountsNothing(s, a);
    case _ => OthersCountNothing(s, a);
  }

  lemma CheckoutStaysWithin(s: State, a: Action, c: CouponId)
    requires a.CheckoutTx? && c in s.store.coupons
    ensures !PassesLimit(s.store.coupons, DoCheckout(s, a).store.coupons, c)
  {
    if Checkout(s.store, a.user, a.shipTo, a.payment, s.clock, a.gateway).Success? {
      CheckoutAsksTheLimit(s.store, a.user, a.shipTo, a.payment, s.clock, a.gateway);
    }
  }

  /** Checkout counts at most the cart's own coupon, and has found it below its limit. */
  lemma CheckoutAsksTheLimit(
    s: Store, user: UserId, state: string, payment: PaymentMethod, now: int, gateway: Option<string>)
    requires Checkout(s, user, state, payment, now, gateway).Success?
    ensures var after, applied := Checkout(s, user, state, payment, now, gateway).value, s.carts[user].appliedCoupon;
      && (after.coupons == s.coupons || after.coupons == CountUse(s.coupons, applied))
      && (applied.Some? && applied.value in s.coupons ==>
            s.coupons[applied.value].usedCount < s.coupons[applied.value].usageLimit)
  {
    CheckoutEffect(s, user, state, payment, now, gateway);
  }

  lemma WebhookCountsNothing(s: State, a: Action)
    requires a.RazorpayWebhook?
    ensures DoWebhook(s, a).store.coupons == s.store.coupons
  {
  }

  lemma OthersCountNothing(s: State, a: Action)
    requires !a.CheckoutTx? && !a.Continue? && !a.RazorpayWebhook? && !a.EditCoupon?
    ensures Step(s, a).store.coupons == s.store.coupons
  {
  }

  lemma TurnPassesIff(s: State, a: Action, c: CouponId)
    requires a.Continue? && c in s.store.coupons
    ensures PassesLimit(s.store.coupons, DoContinue(s, a).store.coupons, c)
       <==> CountsUse(s, a, c) && s.store.coupons[c].usageLimit <= s.store.coupons[c].usedCount
  {
    if !a.process.OweCoupon? {
      OtherTurnsCountNothing(s, a);
    }
  }

  lemma OtherTurnsCountNothing(s: State, a: Action)
    requires a.Continue? && !a.process.OweCoupon?
    ensures DoContinue(s, a).store.coupons == s.store.coupons
  {
    match a.process
    case HandshakeRead(_, _, _) => HandshakeCountsNothing(s, a);
    case Sweeping(_, _) => SweepCountsNothing(s, a);
    case Dispatching(_) => LogisticsCountNothing(s, a);
    case CourierWriting(_, _) => LogisticsCountNothing(s, a);
    case _ => EndsCountNothing(s, a);
  }

  lemma HandshakeCountsNothing(s: State, a: Action)
    requires a.Continue? && a.process.HandshakeRead?
    ensures DoContinue(s, a).store.coupons == s.store.coupons
  {
    var p := a.process;
    if p in s.procs && p.order < |s.store.orders| && p.order < |s.history| {
      PayCountsNothing(Finish(s, p), p.order, p.paymentId, Some(p.signature));
    }
  }

  lemma PayCountsNothing(s: State, i: nat, paymentId: string, signature: Option<string>)
    requires i < |s.store.orders| && i < |s.history|
    ensures DoPay(s, i, paymentId, signature).store.coupons == s.store.coupons
  {
  }

  lemma SweepCountsNothing(s: State, a: Action)
    requires a.Continue? && a.process.Sweeping?
    ensures DoContinue(s, a).store.coupons == s.store.coupons
  {
  }

  lemma LogisticsCountNothing(s: State, a: Action)
    requires a.Continue? && (a.process.Dispatching? || a.process.CourierWriting?)
    ensures DoContinue(s, a).store.coupons == s.store.coupons
  {
  }

  lemma EndsCountNothing(s: State, a: Action)
    requires a.Continue? && (a.process.OweInvoice? || a.process.Refunding?)
    ensures DoContinue(s, a).store.coupons == s.store.coupons
  {
  }
}
