/** The firewalls and the arithmetic of a coupon (src/modules/coupons/coupon.service.ts). */
module CouponService {
  import opened Wrappers
  import opened Money
  import opened Documents
  import TaxEngine

  function Min(x: real, y: real): real {
    if x <= y then x else y
  }

  /** The discount before rounding: flat, or a percentage under a ceiling, and never above the subtotal. */
  function RawDiscount(c: Coupon, subtotal: real): real {
    Capped(c, PercentOf(subtotal, c.discountValue), subtotal)
  }

  function PercentOf(x: real, percent: real): real {
    x * (percent / 100.0)
  }

  /** A ceiling of zero is falsy in the source and counts as no ceiling. */
  function Capped(c: Coupon, percentage: real, subtotal: real): real {
    var calculated :=
      match c.discountType
      case FLAT => c.discountValue
      case PERCENTAGE =>
        if c.maxDiscountAmount.Some? && c.maxDiscountAmount.value != 0.0
        then Min(percentage, c.maxDiscountAmount.value)
        else percentage;
    Min(calculated, subtotal)
  }

  function Discount(c: Coupon, subtotal: real): int {
    Round(RawDiscount(c, subtotal))
  }

  predicate RestrictionAllows(c: Coupon, payment: Option<PaymentMethod>) {
    payment.Some? && c.paymentMethodRestriction != ANY ==> payment.value.Name() == c.paymentMethodRestriction.Name()
  }

  /** The six guards in the order of the source, then the discount. `previousOrders` is the count of the user's
      orders; no payment method is passed while the customer is still in the cart. */
  function ValidateAndCalculateDiscount(
    c: Coupon, subtotal: real, previousOrders: nat, payment: Option<PaymentMethod>, now: int): Result<int, AppError>
  {
    if !c.isActive then Failure(CouponInvalid)
    else if c.startDate > now then Failure(CouponInvalid)
    else if c.expiryDate < now then Failure(CouponInvalid)
    else if c.usedCount >= c.usageLimit then Failure(CouponInvalid)
    else if subtotal < c.minCartValue then Failure(CouponInvalid)
    else if c.isFirstOrderOnly && previousOrders > 0 then Failure(CouponInvalid)
    else if !RestrictionAllows(c, payment) then Failure(CouponInvalid)
    else Success(Discount(c, subtotal))
  }

  /** Naming a payment method narrows the accepted coupons to those for any method and those for cash on delivery
      paid in cash. In particular a PREPAID coupon is refused at every checkout: its name is compared with
      "RAZORPAY", contrary to the coupon module's documentation. */
  lemma CheckoutAcceptsExactly(c: Coupon, subtotal: real, previousOrders: nat, payment: PaymentMethod, now: int)
    ensures ValidateAndCalculateDiscount(c, subtotal, previousOrders, Some(payment), now).Success?
       <==> && ValidateAndCalculateDiscount(c, subtotal, previousOrders, None, now).Success?
            && (c.paymentMethodRestriction == ANY || (c.paymentMethodRestriction == COD_ONLY && payment == COD))
  {
    assert "PREPAID"[0] != "RAZORPAY"[0] && "PREPAID"[0] != "COD"[0] && "COD"[0] != "RAZORPAY"[0];
  }

  /** The discount stays between nothing and the subtotal, up to the half paisa the rounding may add, and a ceiling
      of whole paise survives the rounding. */
  lemma DiscountBounds(c: Coupon, subtotal: real)
    requires 0.0 <= subtotal
    ensures 0 <= Discount(c, subtotal)
    ensures Discount(c, subtotal) as real <= subtotal + 0.5
    ensures IsWhole(subtotal) ==> Discount(c, subtotal) as real <= subtotal
    ensures c.discountType == PERCENTAGE && c.maxDiscountAmount.Some? && c.maxDiscountAmount.value != 0.0
              && IsWhole(c.maxDiscountAmount.value)
        ==> Discount(c, subtotal) as real <= c.maxDiscountAmount.value
  {
    var raw := RawDiscount(c, subtotal);
    RawDiscountRange(c, subtotal);
    RoundNonNegative(raw);
    if IsWhole(subtotal) {
      RoundMonotone(raw, subtotal);
      RoundWhole(subtotal.Floor);
    }
    if c.discountType == PERCENTAGE && c.maxDiscountAmount.Some? && IsWhole(c.maxDiscountAmount.value)
      && c.maxDiscountAmount.value != 0.0
    {
      RoundMonotone(raw, c.maxDiscountAmount.value);
      RoundWhole(c.maxDiscountAmount.value.Floor);
    }
  }

  lemma RawDiscountRange(c: Coupon, subtotal: real)
    requires 0.0 <= subtotal
    ensures 0.0 <= RawDiscount(c, subtotal) <= subtotal
  {
    TaxEngine.MulMonotone(0.0, c.discountValue / 100.0, subtotal);
  }

  /** The subtotal has a fraction of half a paisa or more, and the discount reaches up to that half. */
  predicate Overshoots(c: Coupon, subtotal: real) {
    subtotal.Floor as real + 0.5 <= RawDiscount(c, subtotal)
  }

  /** Exactly then the rounding lifts the discount above the subtotal. */
  lemma OvershootsIff(c: Coupon, subtotal: real)
    requires 0.0 <= subtotal
    ensures Discount(c, subtotal) as real > subtotal <==> Overshoots(c, subtotal)
    ensures IsWhole(subtotal) ==> !Overshoots(c, subtotal)
  {
    var raw, floor := RawDiscount(c, subtotal), subtotal.Floor;
    RawDiscountRange(c, subtotal);
    if Overshoots(c, subtotal) {
      RoundUnique(floor as real + 0.5, floor + 1);
      RoundMonotone(floor as real + 0.5, raw);
    } else if floor as real <= raw {
      RoundUnique(raw, floor);
    } else {
      RoundWhole(floor);
      RoundMonotone(raw, floor as real);
    }
  }

  /** Half a paisa of overshoot does happen when the subtotal is not whole paise. */
  lemma OvershootWitness(c: Coupon)
    requires c.discountType == FLAT && 1.0 <= c.discountValue
    ensures Discount(c, 0.5) as real == 0.5 + 0.5
  {
    RoundUnique(0.5, 1);
  }

  /** As a cart of whole paise grows, neither the discount nor what remains to pay falls. This holds for every
      coupon, even a percentage above one hundred. */
  lemma DiscountMonotone(c: Coupon, small: real, large: real)
    requires 0.0 <= small <= large && IsWhole(small) && IsWhole(large)
    ensures Discount(c, small) <= Discount(c, large)
    ensures small - Discount(c, small) as real <= large - Discount(c, large) as real
  {
    RawDiscountLipschitz(c, small, large);
    var step := large.Floor - small.Floor;
    var d := RawDiscount(c, small);
    RoundMonotone(d, RawDiscount(c, large));
    RoundMonotone(RawDiscount(c, large), d + step as real);
    RoundShift(d, step);
  }

  /** One more paisa in the cart is worth at most one more paisa of discount. */
  lemma RawDiscountLipschitz(c: Coupon, small: real, large: real)
    requires 0.0 <= small <= large
    ensures RawDiscount(c, small) <= RawDiscount(c, large) <= RawDiscount(c, small) + (large - small)
  {
    PercentStep(small, large, c.discountValue);
  }

  lemma PercentStep(small: real, large: real, percent: real)
    requires 0.0 <= small <= large && 0.0 <= percent
    ensures PercentOf(small, percent) <= PercentOf(large, percent)
    ensures percent <= 100.0 ==> PercentOf(large, percent) - PercentOf(small, percent) <= large - small
    ensures 100.0 <= percent ==> small <= PercentOf(small, percent) && large <= PercentOf(large, percent)
  {
    var f := percent / 100.0;
    var lo, hi := ScaledStep(small, large, f);
    assert PercentOf(small, percent) == lo && PercentOf(large, percent) == hi;
  }

  lemma ScaledStep(small: real, large: real, f: real) returns (lo: real, hi: real)
    requires 0.0 <= small <= large && 0.0 <= f
    ensures lo == small * f && hi == large * f
    ensures lo <= hi
    ensures f <= 1.0 ==> hi - lo <= large - small
    ensures 1.0 <= f ==> small <= lo && large <= hi
  {
    lo, hi := small * f, large * f;
    var step := large - small;
    assert hi == lo + step * f;
    TaxEngine.MulMonotone(0.0, f, step);
    if f <= 1.0 {
      TaxEngine.MulMonotone(f, 1.0, step);
    } else {
      TaxEngine.MulMonotone(1.0, f, small);
      TaxEngine.MulMonotone(1.0, f, large);
    }
  }
}
