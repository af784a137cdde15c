/** What healing and quoting guarantee about any cart. */
module CartLaws {
  import opened Wrappers
  import opened Money
  import opened Documents
  import opened Stock
  import opened CartService
  import opened TaxEngine
  import OrderStore
  import CheckoutLaws
  import Sums
  import Pricing
  import Coupons = CouponService

  // ----- healing

  /** No coupon means no discount: true of a new cart and kept by every operation. */
  predicate Consistent(doc: CartDoc) {
    doc.appliedCoupon.None? ==> doc.discountAmount == 0
  }

  /** Every operation ends in a recalculation, after whatever it did to the lines; checkout leaves the empty cart. */
  lemma DiscountNeedsCoupon(doc: CartDoc, items: seq<CartItem>, w: World)
    requires Consistent(doc)
    ensures Consistent(Recalculate(doc.(items := items), w)) && Consistent(EMPTY_CART)
  {
  }

  /** Healing keeps only live lines, leaves the coupon either stripped or worth exactly what the coupon service says
      of the live subtotal, and has nothing left to do a second time. */
  lemma HealingSettles(doc: CartDoc, w: World)
    requires Consistent(doc)
    ensures var healed := Healed(doc, w);
      && Consistent(healed)
      && Healed(healed, w) == healed && !NeedsSave(healed, w)
      && QuoteFor(healed, w) == QuoteFor(doc, w)
      && (healed.appliedCoupon.Some? ==>
            var subTotal := Pricing.SubTotal(ActiveLines(doc.items, w.products));
            && healed.appliedCoupon.value in w.coupons
            && Coupons.ValidateAndCalculateDiscount(
                 w.coupons[healed.appliedCoupon.value], subTotal, w.previousOrders, None, w.now)
                 == Success(healed.discountAmount)
            && healed.totalAfterDiscount == subTotal - healed.discountAmount as real)
  {
    ActiveItemsStable(doc.items, w.products);
  }

  lemma {:induction false} ActiveItemsStable(items: seq<CartItem>, ps: Catalogue)
    ensures ActiveItems(ActiveItems(items, ps), ps) == ActiveItems(items, ps)
  {
    if items == [] {
    } else {
      var front, last := items[..|items| - 1], items[|items| - 1];
      ActiveItemsStable(front, ps);
      if OnSale(ps, last) {
        var kept := ActiveItems(front, ps);
        assert (kept + [last])[..|kept|] == kept;
      } else {
        assert ActiveItems(items, ps) == ActiveItems(front, ps);
      }
    }
  }

  lemma {:induction false} AllActive(items: seq<CartItem>, ps: Catalogue)
    requires forall i :: 0 <= i < |items| ==> OnSale(ps, items[i])
    ensures ActiveItems(items, ps) == items
  {
    if items == [] {
    } else {
      AllActive(items[..|items| - 1], ps);
    }
  }

  lemma {:induction false} ActiveItemsCome(items: seq<CartItem>, ps: Catalogue, item: CartItem)
    requires item in ActiveItems(items, ps)
    ensures item in items
  {
    if items == [] {
    } else {
      var last := items[|items| - 1];
      if item in ActiveItems(items[..|items| - 1], ps) {
        ActiveItemsCome(items[..|items| - 1], ps, item);
      }
    }
  }

  /** The cart's coupon is accepted on these lines. */
  predicate CouponAccepted(doc: CartDoc, w: World) {
    && doc.appliedCoupon.Some? && doc.appliedCoupon.value in w.coupons
    && Coupons.ValidateAndCalculateDiscount(
         w.coupons[doc.appliedCoupon.value], Pricing.SubTotal(ActiveLines(doc.items, w.products)), w.previousOrders,
         None, w.now).Success?
  }

  /** It is, and its rounding will exceed a live subtotal of fractional paise. */
  predicate Overshot(doc: CartDoc, w: World) {
    CouponAccepted(doc, w)
    && Coupons.Overshoots(w.coupons[doc.appliedCoupon.value], Pricing.SubTotal(ActiveLines(doc.items, w.products)))
  }

  predicate WithinLineCap(items: seq<CartItem>) {
    forall i :: 0 <= i < |items| ==> items[i].quantity <= 10
  }

  /** The schema admits a recalculated cart exactly when every line is within the cap and the coupon does not
      overshoot, both of which can be seen beforehand. */
  lemma RecalculatedIsStorableIff(doc: CartDoc, w: World)
    requires 0 <= doc.discountAmount && 0.0 <= doc.totalAfterDiscount
    ensures Storable(Recalculate(doc, w)) <==> WithinLineCap(doc.items) && !Overshot(doc, w)
  {
    var lines := ActiveLines(doc.items, w.products);
    if CouponAccepted(doc, w) {
      var c := w.coupons[doc.appliedCoupon.value];
      CheckoutLaws.SubTotalNonNegative(lines);
      Coupons.DiscountBounds(c, Pricing.SubTotal(lines));
      Coupons.OvershootsIff(c, Pricing.SubTotal(lines));
      assert Recalculate(doc, w).discountAmount == Coupons.Discount(c, Pricing.SubTotal(lines));
    }
  }

  /** A stored cart, healed, can be saved exactly when its coupon does not overshoot the live subtotal; on whole paise
      it never does. */
  lemma HealedIsStorableIff(doc: CartDoc, w: World)
    requires Storable(doc)
    ensures Storable(Healed(doc, w)) <==> !Overshot(doc, w)
    ensures IsWhole(Pricing.SubTotal(ActiveLines(doc.items, w.products))) ==> Storable(Healed(doc, w))
  {
    var live := doc.(items := ActiveItems(doc.items, w.products));
    HealedQuantities(doc, w);
    ActiveItemsStable(doc.items, w.products);
    RecalculatedIsStorableIff(live, w);
    var lines := ActiveLines(doc.items, w.products);
    CheckoutLaws.SubTotalNonNegative(lines);
    if CouponAccepted(doc, w) {
      Coupons.OvershootsIff(w.coupons[doc.appliedCoupon.value], Pricing.SubTotal(lines));
    }
  }

  lemma HealedQuantities(doc: CartDoc, w: World)
    requires Storable(doc)
    ensures WithinLineCap(ActiveItems(doc.items, w.products))
  {
    var items := ActiveItems(doc.items, w.products);
    forall i | 0 <= i < |items|
      ensures items[i].quantity <= 10
    {
      ActiveItemsCome(doc.items, w.products, items[i]);
    }
  }

  /** `getCart` refuses a stored cart exactly when its coupon overshoots and there is something to save: a line to
      purge, or a discount other than the stored one. */
  lemma CartRefusedIff(doc: CartDoc, w: World)
    requires Storable(doc)
    ensures CartReply(doc, w) == Failure(SchemaViolation)
       <==> && Overshot(doc, w)
            && (ActiveItems(doc.items, w.products) != doc.items
                || Coupons.Discount(w.coupons[doc.appliedCoupon.value],
                                    Pricing.SubTotal(ActiveLines(doc.items, w.products))) != doc.discountAmount)
  {
    HealedIsStorableIff(doc, w);
    ActiveItemsStable(doc.items, w.products);
    if Overshot(doc, w) {
      assert Healed(doc, w).discountAmount
          == Coupons.Discount(w.coupons[doc.appliedCoupon.value], Pricing.SubTotal(ActiveLines(doc.items, w.products)));
    }
  }

  /** The two ways the cart computes a line's price give the same amount. */
  lemma PriceFormsAgree(product: Product, quantity: nat)
    ensures quantity as real * (product.basePrice * (1.0 - product.discount / 100.0))
         == Times(product.ActivePrice(), quantity)
  {
    TimesIsProduct(product.ActivePrice(), quantity);
    var f := product.discount / 100.0;
    assert product.basePrice * (1.0 - f) == product.basePrice - product.basePrice * f;
  }

  // ----- the cart's quote against the order

  /** What the cart service reads when it prices this user's cart at this moment. */
  function WorldOf(s: OrderStore.Store, user: UserId, now: int): World {
    World(s.products, s.coupons, OrderStore.PreviousOrders(s.orders, user), now)
  }

  /** The cart's price and the order, side by side: the same discount, the same taxable value, rate and tax on every
      line, the same shipping; the order's total is higher by the tax contained in shipping, 15.25 or nothing. */
  predicate PricedAlike(q: Quote, order: Order, state: string) {
    && |q.lines| == |order.items|
    && (forall i :: 0 <= i < |q.lines| ==> SameTax(q.lines[i], order.items[i], state))
    && q.estimatedShipping == order.pricing.shippingCost && q.shippingTax == order.pricing.shippingTax
    && order.pricing.totalTax == q.totalTax + q.shippingTax
    && order.pricing.totalAmount == q.grandTotal + q.shippingTax
    && q.shippingTax == (if q.estimatedShipping == 0 then 0 else 1525)
  }

  /** When checkout takes a stored cart, the cart page shows that cart at the order's price, unless it has a new
      discount to save that overshoots: that save is refused although checkout goes through. */
  lemma QuoteRefinesCheckout(
    s: OrderStore.Store, user: UserId, state: string, payment: PaymentMethod, now: int, gateway: Option<string>)
    requires OrderStore.Checkout(s, user, state, payment, now, gateway).Success?
    requires Consistent(s.carts[user]) && Storable(s.carts[user])
    ensures var order := OrderStore.Checkout(s, user, state, payment, now, gateway).value.orders[|s.orders|];
      var doc, w := s.carts[user], WorldOf(s, user, now);
      if Overshot(doc, w) && order.pricing.discountAmount != doc.discountAmount then
        CartReply(doc, w) == Failure(SchemaViolation)
      else
        CartReply(doc, w).Success? && PricedAlike(CartReply(doc, w).value, order, state)
  {
    PriceRefinesCheckout(s, user, state, payment, now, gateway);
    HealedIsStorableIff(s.carts[user], WorldOf(s, user, now));
  }

  /** The price the cart works out, whether or not the page comes to show it. */
  lemma PriceRefinesCheckout(
    s: OrderStore.Store, user: UserId, state: string, payment: PaymentMethod, now: int, gateway: Option<string>)
    requires OrderStore.Checkout(s, user, state, payment, now, gateway).Success?
    requires Consistent(s.carts[user])
    ensures var order := OrderStore.Checkout(s, user, state, payment, now, gateway).value.orders[|s.orders|];
      var doc, w := s.carts[user], WorldOf(s, user, now);
      && ActiveItems(doc.items, w.products) == doc.items
      && Healed(doc, w).items == doc.items && Healed(doc, w).discountAmount == order.pricing.discountAmount
      && QuoteFor(doc, w).Success? && PricedAlike(QuoteFor(doc, w).value, order, state)
  {
    var doc := s.carts[user];
    CheckoutLaws.PricesSurviveReservation(s.products, doc.items);
    ReservedAreActive(s.products, doc.items);
    AllActive(doc.items, s.products);
    var lines := OrderStore.LinesFor(s.products, doc.items);
    var discount :=
      OrderStore.CheckoutDiscount(s, doc.appliedCoupon, Pricing.SubTotal(lines), user, payment, now).value;
    SameDiscount(s, user, payment, now, lines);
    SameLines(lines, discount, state);
    QuoteAgainstOrder(lines, discount, doc.appliedCoupon, state);
  }

  /** Such a cart: 5.005 rupees of goods under a coupon of 20 rupees, whose stored discount is from before the price
      fell. Checkout takes the order; the cart page fails. */
  lemma RefusedCart() returns (s: OrderStore.Store)
    ensures "u" in s.carts && Storable(s.carts["u"]) && Consistent(s.carts["u"])
    ensures OrderStore.Checkout(s, "u", "", COD, 0, None).Success?
    ensures CartReply(s.carts["u"], WorldOf(s, "u", 0)) == Failure(SchemaViolation)
  {
    var product := Product(1001.0, 50.0, 1, true, LacJewellery, Bangle, false);
    var coupon := Coupon(FLAT, 2000.0, None, 0.0, 0, 1, 1, 0, true, false, ANY);
    var doc := CartDoc([CartItem("p", 1, map[])], Some("c"), 2000, 0.0);
    s := OrderStore.Store(map["p" := product], map["c" := coupon], map["u" := doc], [], map[]);
    var w := WorldOf(s, "u", 0);
    OneLine(s.products, doc.items[0], 500.5);
    RoundUnique(500.5, 501);
    assert Coupons.Discount(coupon, 500.5) == 501;
    assert (500.5).Floor == 500;
    assert Overshot(doc, w);
    CartRefusedIff(doc, w);
    CheckoutGoesThrough(s, 500.5);
  }

  lemma OneLine(ps: Catalogue, item: CartItem, value: real)
    requires item.product in ps && ps[item.product].isActive && item.quantity == 1
    requires ps[item.product].ActivePrice() == value
    ensures ActiveItems([item], ps) == [item]
    ensures OrderStore.LinesFor(ps, [item]) == [OrderStore.LineFor(ps, item)]
    ensures Pricing.SubTotal(OrderStore.LinesFor(ps, [item])) == value
  {
    var line := OrderStore.LineFor(ps, item);
    assert [item][..0] == [];
    assert Pricing.PreCoupons([line]) == [] + [Pricing.PreCoupon(line)];
    Sums.SumRealAppend([], Pricing.PreCoupon(line));
    assert Times(value, 1) == Times(value, 0) + value;
  }

  lemma CheckoutGoesThrough(s: OrderStore.Store, subTotal: real)
    requires "u" in s.carts && |s.carts["u"].items| == 1
    requires var item := s.carts["u"].items[0];
      && item.product in s.products && s.products[item.product].isActive
      && item.quantity <= s.products[item.product].currentStock
      && !s.products[item.product].taxProfile.Unrecognized?
      && Pricing.SubTotal(OrderStore.LinesFor(s.products, [item])) == subTotal
    requires OrderStore.CheckoutDiscount(s, s.carts["u"].appliedCoupon, subTotal, "u", COD, 0).Success?
    ensures OrderStore.Checkout(s, "u", "", COD, 0, None).Success?
  {
    var items := s.carts["u"].items;
    var parcel := Parcel(items[0].product, items[0].quantity);
    assert items == [items[0]];
    assert CartParcels(items) == [] + [parcel];
    DemandAppend([], parcel, parcel.product);
    assert Fits(s.products, CartParcels(items));
    assert OrderStore.LinesFor(s.products, items) == OrderStore.LinesFor(s.products, [items[0]]);
    assert Pricing.Taxable(OrderStore.LinesFor(s.products, items));
    CheckoutLaws.CheckoutSucceedsIff(s, "u", "", COD, 0, None);
  }

  predicate SameTax(t: TaxResult, item: OrderItem, state: string) {
    && t.taxableValue == item.taxableValue && t.gstRate == item.gstRate
    && SplitTaxByState(t.totalTax, state) == TaxSplit(item.cgst, item.sgst, item.igst)
  }

  lemma ReservedAreActive(ps: Catalogue, items: seq<CartItem>)
    requires Reserve(ps, CartParcels(items)).Some?
    ensures forall i :: 0 <= i < |items| ==> OnSale(ps, items[i])
  {
    ReserveExact(ps, CartParcels(items));
    forall i | 0 <= i < |items|
      ensures OnSale(ps, items[i])
    {
      assert CartParcels(items)[i].product == items[i].product;
    }
  }

  /** The cart accepts any coupon checkout accepts, at the same value. */
  lemma SameDiscount(s: OrderStore.Store, user: UserId, payment: PaymentMethod, now: int, lines: seq<Pricing.Line>)
    requires user in s.carts && Consistent(s.carts[user])
    requires ActiveItems(s.carts[user].items, s.products) == s.carts[user].items
    requires lines == ActiveLines(s.carts[user].items, s.products)
    requires OrderStore.CheckoutDiscount(
               s, s.carts[user].appliedCoupon, Pricing.SubTotal(lines), user, payment, now).Success?
    ensures var doc := s.carts[user];
      var healed := Healed(doc, WorldOf(s, user, now));
      var discount :=
        OrderStore.CheckoutDiscount(s, doc.appliedCoupon, Pricing.SubTotal(lines), user, payment, now).value;
      && healed.items == doc.items && healed.appliedCoupon == doc.appliedCoupon && healed.discountAmount == discount
      && (doc.appliedCoupon.Some? ==> healed.totalAfterDiscount == Pricing.SubTotal(lines) - discount as real)
  {
    var doc := s.carts[user];
    if doc.appliedCoupon.Some? {
      Coupons.CheckoutAcceptsExactly(s.coupons[doc.appliedCoupon.value], Pricing.SubTotal(lines),
                                     OrderStore.PreviousOrders(s.orders, user), payment, now);
    }
  }

  lemma SameLines(lines: seq<Pricing.Line>, discount: int, state: string)
    requires Pricing.Taxable(lines)
    ensures var taxes := LineTaxResults(lines, Pricing.SubTotal(lines), discount);
      var items := Pricing.ItemsFor(lines, Pricing.SubTotal(lines), discount, state);
      |taxes| == |items| && forall i :: 0 <= i < |taxes| ==> SameTax(taxes[i], items[i], state)
  {
  }

  lemma QuoteAgainstOrder(lines: seq<Pricing.Line>, discount: int, coupon: Option<CouponId>, state: string)
    requires Pricing.Assemble(lines, discount, coupon, state).Success?
    ensures var p := Pricing.Assemble(lines, discount, coupon, state).value.pricing;
      var quote := QuoteOf(lines, discount, Pricing.SubTotal(lines) - discount as real);
      && quote.Success?
      && quote.value.estimatedShipping == p.shippingCost && quote.value.shippingTax == p.shippingTax
      && p.totalTax == quote.value.totalTax + quote.value.shippingTax
      && p.totalAmount == quote.value.grandTotal + quote.value.shippingTax
      && quote.value.shippingTax == (if quote.value.estimatedShipping == 0 then 0 else 1525)
  {
    var after := Pricing.SubTotal(lines) - discount as real;
    var shipping := Pricing.ShippingCost(after);
    var tax := Sums.Sum(Pricing.LineTaxes(lines, Pricing.SubTotal(lines), discount));
    var shippingTax := CalculateShippingTax(shipping).totalTax;
    ShippingTaxValue(shipping);
    assert Pricing.AmountDue(lines, discount) == (after + tax as real + shipping as real) + shippingTax as real;
    RoundShift(after + tax as real + shipping as real, shippingTax);
  }
}
