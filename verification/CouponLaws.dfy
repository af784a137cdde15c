/** What a coupon is good for, measured against the rules (src/modules/coupons/coupon.service.ts). */
module CouponLaws {
  import opened Wrappers
  import opened Documents
  import opened Reference
  import CouponService

  /** A coupon is accepted exactly when it holds, and is then worth the least of what it grants, its ceiling and the
      goods, to the nearest paisa. */
  lemma AcceptedAtItsWorthIff(
    c: Coupon, worth: real, previousOrders: nat, payment: Option<PaymentMethod>, now: int)
    ensures var r := CouponService.ValidateAndCalculateDiscount(c, worth, previousOrders, payment, now);
      && (r.Success? <==> CouponHolds(c, worth, previousOrders == 0, payment, now))
      && (r.Success? ==> IsDiscount(c, worth, r.value))
      && (r.Failure? ==> r.error == CouponInvalid)
  {
    assert "PREPAID"[0] != "RAZORPAY"[0] && "PREPAID"[0] != "COD"[0] && "COD"[0] != "RAZORPAY"[0];
    DiscountIsLeast(c, worth);
  }

  lemma DiscountIsLeast(c: Coupon, worth: real)
    ensures IsDiscount(c, worth, CouponService.Discount(c, worth))
  {
    var raw := CouponService.RawDiscount(c, worth);
    PercentForms(worth, c.discountValue);
    assert IsLeast(raw, DiscountCaps(c, worth));
    assert Nearest(CouponService.Discount(c, worth), raw);
  }

  lemma PercentForms(x: real, percent: real)
    ensures CouponService.PercentOf(x, percent) == x * percent / 100.0
  {
  }
}
