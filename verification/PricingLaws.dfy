/** What the pricing pipeline guarantees about any order it produces. */
module PricingLaws {
  import opened Wrappers
  import opened Money
  import opened Sums
  import opened TaxEngine
  import opened Documents
  import opened Pricing

  function ItemDiscounts(ls: seq<Line>, discount: int): seq<real> {
    seq(|ls|, i requires 0 <= i < |ls| => ItemDiscount(ls[i], SubTotal(ls), discount))
  }

  function PostCoupons(ls: seq<Line>, discount: int): seq<real> {
    seq(|ls|, i requires 0 <= i < |ls| => PostCoupon(ls[i], SubTotal(ls), discount))
  }

  /** What `CouponService.DiscountBounds` gives about a discount computed on this subtotal. */
  predicate CouponDiscount(ls: seq<Line>, discount: int) {
    0 <= discount && discount as real <= SubTotal(ls) + 0.5
  }

  /** The line discounts add up to the coupon, to the last fraction of a paisa. */
  lemma AllocationConserves(ls: seq<Line>, discount: int)
    requires SubTotal(ls) > 0.0 || discount == 0
    ensures SumReal(ItemDiscounts(ls, discount)) == discount as real
  {
    if SubTotal(ls) > 0.0 {
      SharesSum(PreCoupons(ls), ItemDiscounts(ls, discount), discount as real, SubTotal(ls));
      WeightedAll(discount as real, SubTotal(ls));
    } else {
      NothingAddsUp(ItemDiscounts(ls, discount));
    }
  }

  /** A part of d, by weight. */
  function Weighted(d: real, value: real, total: real): real
    requires total != 0.0
  {
    d * (value / total)
  }

  lemma WeightedSum(d: real, x: real, y: real, total: real)
    requires total != 0.0
    ensures Weighted(d, x + y, total) == Weighted(d, x, total) + Weighted(d, y, total)
  {
    assert (x + y) / total == x / total + y / total;
  }

  lemma WeightedAll(d: real, total: real)
    requires total != 0.0
    ensures Weighted(d, total, total) == d && Weighted(d, 0.0, total) == 0.0
  {
  }

  lemma {:induction false} SharesSum(values: seq<real>, shares: seq<real>, d: real, total: real)
    requires total != 0.0 && |shares| == |values|
    requires forall i :: 0 <= i < |values| ==> shares[i] == Weighted(d, values[i], total)
    ensures SumReal(shares) == Weighted(d, SumReal(values), total)
  {
    if values == [] {
      WeightedAll(d, total);
    } else {
      var n := |values| - 1;
      SharesSum(values[..n], shares[..n], d, total);
      WeightedSum(d, SumReal(values[..n]), values[n], total);
    }
  }

  lemma {:induction false} NothingAddsUp(s: seq<real>)
    requires forall i :: 0 <= i < |s| ==> s[i] == 0.0
    ensures SumReal(s) == 0.0
  {
    if s == [] {
    } else {
      NothingAddsUp(s[..|s| - 1]);
    }
  }

  lemma Reassociate(d: real, x: real, s: real)
    requires s > 0.0
    ensures d * (x / s) == d / s * x
  {
  }

  lemma QuotientTimes(x: real, y: real)
    requires y != 0.0
    ensures x / y * y == x
  {
  }

  lemma QuotientBounds(x: real, s: real)
    requires 0.0 <= x <= s && 0.0 < s
    ensures 0.0 <= x / s <= 1.0
  {
  }

  /** No line weighs more than the cart. */
  lemma WeightBounds(ls: seq<Line>, i: nat)
    requires i < |ls|
    ensures 0.0 <= PreCoupon(ls[i]) <= SubTotal(ls)
    ensures 0.0 <= Weight(ls[i], SubTotal(ls)) <= 1.0
  {
    TermWithinSum(PreCoupons(ls), i);
    if SubTotal(ls) > 0.0 {
      QuotientBounds(PreCoupon(ls[i]), SubTotal(ls));
    }
  }

  lemma {:induction false} TermWithinSum(s: seq<real>, i: nat)
    requires forall j :: 0 <= j < |s| ==> 0.0 <= s[j]
    requires i < |s|
    ensures s[i] <= SumReal(s)
  {
    var front := s[..|s| - 1];
    if i < |front| {
      TermWithinSum(front, i);
    } else {
      SumRealMonotone(seq(|front|, _ => 0.0), front);
      NothingAddsUp(seq(|front|, _ => 0.0));
    }
  }

  /** With a discount that fits the cart no line is discounted below nothing or above its price. */
  lemma LineStaysWithinItsPrice(ls: seq<Line>, i: nat, discount: int)
    requires i < |ls|
    requires 0 <= discount && discount as real <= SubTotal(ls)
    ensures 0.0 <= PostCoupon(ls[i], SubTotal(ls), discount) <= PreCoupon(ls[i])
  {
    if SubTotal(ls) > 0.0 {
      var share := ShareWithin(discount as real, PreCoupon(ls[i]), SubTotal(ls));
      assert ItemDiscount(ls[i], SubTotal(ls), discount) == share;
    } else {
      WeightBounds(ls, i);
    }
  }

  lemma ShareWithin(discount: real, value: real, total: real) returns (share: real)
    requires 0.0 <= discount <= total && 0.0 < total && 0.0 <= value
    ensures share == discount * (value / total)
    ensures 0.0 <= share <= value
  {
    share := discount * (value / total);
    Reassociate(discount, value, total);
    QuotientBounds(discount, total);
    MulMonotone(discount / total, 1.0, value);
    MulMonotone(0.0, discount / total, value);
  }

  /** The tax engine's `unit * quantity` is the line's value after the coupon. */
  lemma LineTaxOnPostCoupon(l: Line, subTotal: real, discount: int)
    requires !l.profile.Unrecognized?
    ensures LineTax(l, subTotal, discount)
         == TaxOnLine(l.profile, DiscountedUnitPrice(l, subTotal, discount), PostCoupon(l, subTotal, discount))
  {
    UnitsMakeTheLine(PostCoupon(l, subTotal, discount), l.quantity);
  }

  lemma UnitsMakeTheLine(value: real, quantity: Units)
    ensures Extension(PerUnit(value, quantity), quantity) == value
  {
    QuotientTimes(value, quantity as real);
  }

  /** The rounded taxable values on the invoice add up to the discounted subtotal within half a paisa per line. */
  lemma TaxableValuesAddUp(ls: seq<Line>, discount: int, state: string)
    requires Taxable(ls)
    requires SubTotal(ls) > 0.0 || discount == 0
    ensures var items := ItemsFor(ls, SubTotal(ls), discount, state);
      var net := SubTotal(ls) - discount as real;
      net - |ls| as real / 2.0 <= Sum(TaxableValues(items)) as real <= net + |ls| as real / 2.0
  {
    var subTotal := SubTotal(ls);
    var values := TaxableValues(ItemsFor(ls, subTotal, discount, state));
    var posts := PostCoupons(ls, discount);
    forall i | 0 <= i < |ls|
      ensures values[i] as real - 0.5 <= posts[i] <= values[i] as real + 0.5
    {
      LineTaxOnPostCoupon(ls[i], subTotal, discount);
    }
    SumRounded(posts, values);
    PostCouponsAddUp(ls, discount);
  }

  lemma PostCouponsAddUp(ls: seq<Line>, discount: int)
    requires SubTotal(ls) > 0.0 || discount == 0
    ensures SumReal(PostCoupons(ls, discount)) == SubTotal(ls) - discount as real
  {
    SumRealDifference(PreCoupons(ls), ItemDiscounts(ls, discount), PostCoupons(ls, discount));
    AllocationConserves(ls, discount);
  }

  /** A line taxed after the larger of two discounts is taxed no more, and never less than nothing. */
  lemma LineTaxFallsWithDiscount(ls: seq<Line>, i: nat, small: int, large: int)
    requires Taxable(ls) && i < |ls|
    requires 0 <= small <= large && CouponDiscount(ls, large)
    ensures 0 <= LineTax(ls[i], SubTotal(ls), large).totalTax <= LineTax(ls[i], SubTotal(ls), small).totalTax
  {
    var l, subTotal := ls[i], SubTotal(ls);
    LineTaxOnPostCoupon(l, subTotal, small);
    LineTaxOnPostCoupon(l, subTotal, large);
    var post1, post2 := PostCoupon(l, subTotal, small), PostCoupon(l, subTotal, large);
    PostCouponFalls(ls, i, small, large);
    DiscountShareAboveHalfPaisa(ls, i, large);
    PerUnitMonotone(post2, post1, l.quantity);
    var unit1, unit2 := DiscountedUnitPrice(l, subTotal, small), DiscountedUnitPrice(l, subTotal, large);
    LineTaxMonotone(l.profile, unit2, unit1, post2, post1);
  }

  lemma PostCouponFalls(ls: seq<Line>, i: nat, small: int, large: int)
    requires i < |ls| && 0 <= small <= large
    ensures PostCoupon(ls[i], SubTotal(ls), large) <= PostCoupon(ls[i], SubTotal(ls), small)
  {
    WeightBounds(ls, i);
    MulMonotone(small as real, large as real, Weight(ls[i], SubTotal(ls)));
  }

  lemma PerUnitMonotone(small: real, large: real, quantity: Units)
    requires small <= large
    ensures PerUnit(small, quantity) <= PerUnit(large, quantity)
  {
    DivMonotone(small, large, quantity as real);
  }

  lemma DivMonotone(x: real, y: real, k: real)
    requires x <= y && 0.0 < k
    ensures x / k <= y / k
  {
  }

  lemma DiscountShareAboveHalfPaisa(ls: seq<Line>, i: nat, discount: int)
    requires i < |ls| && CouponDiscount(ls, discount)
    ensures -0.5 <= PostCoupon(ls[i], SubTotal(ls), discount)
  {
    var subTotal, l := SubTotal(ls), ls[i];
    var w := Weight(l, subTotal);
    WeightBounds(ls, i);
    if subTotal > 0.0 {
      var share := discount as real * w;
      assert share <= (subTotal + 0.5) * w by {
        MulMonotone(discount as real, subTotal + 0.5, w);
      }
      assert (subTotal + 0.5) * w == PreCoupon(l) + 0.5 * w by {
        QuotientTimes(PreCoupon(l), subTotal);
      }
    }
  }

  function TotalAmount(ls: seq<Line>, discount: int): int
    requires Taxable(ls)
  {
    Round(AmountDue(ls, discount))
  }

  /** A larger coupon lowers the amount due by at least the difference, unless it drops the cart out of free
      shipping, and then it costs at most the 115.25 of shipping with its tax. */
  lemma CouponCostsOnlyFreeShipping(ls: seq<Line>, small: int, large: int)
    requires Taxable(ls)
    requires 0 <= small <= large && CouponDiscount(ls, large)
    ensures var lost := SubTotal(ls) - small as real > 200000.0 >= SubTotal(ls) - large as real;
      TotalAmount(ls, large) <= TotalAmount(ls, small) - (large - small) + if lost then 11525 else 0
  {
    var subTotal := SubTotal(ls);
    var tax1, tax2 := LineTaxes(ls, subTotal, small), LineTaxes(ls, subTotal, large);
    forall i | 0 <= i < |ls|
      ensures tax2[i] <= tax1[i]
    {
      LineTaxFallsWithDiscount(ls, i, small, large);
    }
    SumMonotone(tax2, tax1);
    ShippingTaxValue(0);
    ShippingTaxValue(10000);
    var lost := subTotal - small as real > FREE_SHIPPING_ABOVE >= subTotal - large as real;
    var step := (if lost then 11525 else 0) - (large - small);
    assert AmountDue(ls, large) <= AmountDue(ls, small) + step as real;
    RoundMonotone(AmountDue(ls, large), AmountDue(ls, small) + step as real);
    RoundShift(AmountDue(ls, small), step);
  }

  lemma {:induction false} SumMonotone(s: seq<int>, t: seq<int>)
    requires |s| == |t|
    requires forall i :: 0 <= i < |s| ==> s[i] <= t[i]
    ensures Sum(s) <= Sum(t)
  {
    if s == [] {
    } else {
      SumMonotone(s[..|s| - 1], t[..|t| - 1]);
    }
  }

  /** The bound is reached: one paisa of discount on an exempt cart of 2000.01 rupees raises the bill by 115.24. */
  lemma CouponCanRaiseTotal(product: ProductId)
    ensures var ls := [Line(product, 1, 200001.0, LacJewellery)];
      Taxable(ls) && CouponDiscount(ls, 1) && TotalAmount(ls, 1) == TotalAmount(ls, 0) - 1 + 11525
  {
    var l := Line(product, 1, 200001.0, LacJewellery);
    var ls := [l];
    assert PreCoupons(ls) == [200001.0];
    assert SumReal([200001.0]) == SumReal([]) + 200001.0;
    forall d: int
      ensures LineTaxes(ls, 200001.0, d) == [0]
    {
      RoundUnique(0.0, 0);
    }
    assert Sum([0]) == Sum([]) + 0;
    ShippingTaxValue(0);
    ShippingTaxValue(10000);
    RoundWhole(200001);
    RoundWhole(211525);
  }

  /** The guard against a negative total never fires for a discount the coupon service computed. */
  lemma TotalIsNeverNegative(ls: seq<Line>, discount: int, coupon: Option<CouponId>, state: string)
    requires CouponDiscount(ls, discount)
    ensures Assemble(ls, discount, coupon, state).Success? <==> Taxable(ls)
    ensures Taxable(ls) ==> 0 <= Round(SubTotal(ls) - discount as real) <= TotalAmount(ls, discount)
  {
    if Taxable(ls) {
      var net := SubTotal(ls) - discount as real;
      var taxes := LineTaxes(ls, SubTotal(ls), discount);
      forall i | 0 <= i < |ls|
        ensures 0 <= taxes[i]
      {
        LineTaxFallsWithDiscount(ls, i, discount, discount);
      }
      SumMonotone(seq(|ls|, _ => 0), taxes);
      SumBounds(seq(|ls|, _ => 0), 0, 0);
      ShippingTaxValue(0);
      ShippingTaxValue(10000);
      RoundNonNegative(net);
      RoundMonotone(net, AmountDue(ls, discount));
    }
  }

  /** Every figure of an order line is one the schema admits: none is negative. */
  lemma ItemsPassTheSchema(ls: seq<Line>, discount: int, state: string, i: nat)
    requires Taxable(ls) && CouponDiscount(ls, discount) && i < |ls|
    ensures var item := ItemsFor(ls, SubTotal(ls), discount, state)[i];
      && 1 <= item.quantity && 0.0 <= item.priceAtPurchase && 0 <= item.taxableValue && 0 <= item.gstRate
      && 0 <= item.cgst && 0 <= item.sgst && 0 <= item.igst
  {
    var tax := LineTax(ls[i], SubTotal(ls), discount);
    LineTaxOnPostCoupon(ls[i], SubTotal(ls), discount);
    DiscountShareAboveHalfPaisa(ls, i, discount);
    RoundNonNegative(PostCoupon(ls[i], SubTotal(ls), discount));
    LineTaxFallsWithDiscount(ls, i, discount, discount);
    SplitIsExactUpToOddPaisa(tax.totalTax, state);
  }

  /** The stored figures add up to the paisa although subtotal and total are rounded separately, and the charge for
      shipping is the one the discounted subtotal calls for. */
  lemma InvoiceAddsUp(ls: seq<Line>, discount: int, coupon: Option<CouponId>, state: string)
    requires Assemble(ls, discount, coupon, state).Success?
    ensures var p := Assemble(ls, discount, coupon, state).value.pricing;
      && p.totalAmount == p.subTotal - p.discountAmount + p.totalTax + p.shippingCost
      && p.subTotal as real - 0.5 <= SubTotal(ls) < p.subTotal as real + 0.5
      && p.discountAmount == discount
      && p.shippingTax == (if p.shippingCost == 0 then 0 else 1525)
      && (p.shippingCost == if SubTotal(ls) - discount as real > 200000.0 then 0 else 10000)
  {
    var shipping := ShippingCost(SubTotal(ls) - discount as real);
    ShippingTaxValue(shipping);
    var tax := Sum(LineTaxes(ls, SubTotal(ls), discount)) + CalculateShippingTax(shipping).totalTax;
    var step := tax + shipping - discount;
    assert AmountDue(ls, discount) == SubTotal(ls) + step as real;
    RoundShift(SubTotal(ls), step);
  }

  /** How many of the taxes are an odd number of paise. */
  function OddCount(taxes: seq<int>): nat {
    if taxes == [] then 0 else OddCount(taxes[..|taxes| - 1]) + taxes[|taxes| - 1] % 2
  }

  /** Inside the seller's state the two halves are equal and overshoot the tax by one paisa per odd-paise tax, at
      most one per line and one for shipping; outside it the integrated tax is the tax exactly. */
  lemma GstSplitExactUpToOddPaise(ls: seq<Line>, discount: int, coupon: Option<CouponId>, state: string)
    requires Assemble(ls, discount, coupon, state).Success?
    ensures var p := Assemble(ls, discount, coupon, state).value.pricing;
      var odd := OddCount(LineTaxes(ls, SubTotal(ls), discount)) + p.shippingTax % 2;
      if IsBusinessState(state) then
        && p.totalCgst == p.totalSgst
        && p.totalCgst + p.totalSgst == p.totalTax + odd
        && odd <= |ls| + 1
        && p.totalIgst == 0
      else
        p.totalIgst == p.totalTax && p.totalCgst == 0 && p.totalSgst == 0
  {
    var subTotal := SubTotal(ls);
    var p := Assemble(ls, discount, coupon, state).value.pricing;
    SplitSums(ls, subTotal, discount, state);
    SplitIsExactUpToOddPaisa(p.shippingTax, state);
  }

  lemma {:induction false} SplitSums(ls: seq<Line>, subTotal: real, discount: int, state: string)
    requires Taxable(ls)
    ensures var t := LineTotalsOf(ls, subTotal, discount, state);
      var odd := OddCount(LineTaxes(ls, subTotal, discount));
      odd <= |ls|
      && if IsBusinessState(state)
         then t.cgst == t.sgst && t.cgst + t.sgst == t.tax + odd && t.igst == 0
         else t.igst == t.tax && t.cgst == 0 && t.sgst == 0
  {
    if ls == [] {
    } else {
      var n := |ls| - 1;
      var l := ls[n];
      assert ls == ls[..n] + [l];
      SplitSums(ls[..n], subTotal, discount, state);
      LineTotalsAppend(ls[..n], l, subTotal, discount, state);
      var taxes := LineTaxes(ls, subTotal, discount);
      assert taxes[..n] == LineTaxes(ls[..n], subTotal, discount);
      SplitIsExactUpToOddPaisa(taxes[n], state);
    }
  }
}
