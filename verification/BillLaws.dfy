/** What an order and a cart page bill, measured against the rules (src/modules/orders/order.service.ts). */
module BillLaws {
  import opened Wrappers
  import opened Money
  import opened Sums
  import opened Documents
  import opened Reference
  import opened TaxEngine
  import opened Assembly = Pricing
  import opened PricingLaws
  import opened Stock
  import opened CartService
  import opened CartLaws
  import OrderStore
  import CheckoutLaws
  import CouponLaws

  // ----- the seller's state

  lemma SpacesAreBlanks(c: char)
    ensures IsSpace(c) <==> c in BLANKS
  {
  }

  lemma {:induction false} TrimmedStart(s: string) returns (i: nat)
    ensures i <= |s| && TrimStart(s) == s[i..] && Blank(s[..i])
    ensures i < |s| ==> s[i] !in BLANKS
  {
    if s == [] {
      i := 0;
    } else {
      SpacesAreBlanks(s[0]);
      if IsSpace(s[0]) {
        i := TrimmedStart(s[1..]);
        i := i + 1;
        assert s[..i] == [s[0]] + s[1..][..i - 1];
      } else {
        i := 0;
      }
    }
  }

  lemma {:induction false} TrimmedEnd(s: string) returns (n: nat)
    ensures n <= |s| && TrimEnd(s) == s[..n] && Blank(s[n..])
    ensures 0 < n ==> s[n - 1] !in BLANKS
  {
    if s == [] {
      n := 0;
    } else {
      var last := |s| - 1;
      SpacesAreBlanks(s[last]);
      if IsSpace(s[last]) {
        n := TrimmedEnd(s[..last]);
        assert s[n..] == s[..last][n..] + [s[last]];
      } else {
        n := |s|;
      }
    }
  }

  /** Exactly the texts WB, Wb, wB and wb, with any blanks around them, name the seller's state. */
  lemma HomeIff(state: string)
    ensures IsBusinessState(state) <==> IsHome(state)
  {
    var i := TrimmedStart(state);
    var rest := state[i..];
    var n := TrimmedEnd(rest);
    assert IsBusinessState(state) <==> n == 2 && rest[0] in "Ww" && rest[1] in "Bb";
    if IsBusinessState(state) {
      assert state[..i] + rest == state && rest[2..] == state[i + 2..];
      assert HomeAt(state, i);
    }
    if j :| HomeAt(state, j) {
      OnlyHome(state, j, i, n);
    }
  }

  lemma OnlyHome(state: string, j: nat, i: nat, n: nat)
    requires HomeAt(state, j)
    requires i <= |state| && Blank(state[..i]) && (i < |state| ==> state[i] !in BLANKS)
    requires n <= |state| - i && Blank(state[i..][n..]) && (0 < n ==> state[i..][n - 1] !in BLANKS)
    ensures i == j && n == 2
  {
    assert state[j] !in BLANKS && state[j + 1] !in BLANKS;
    BlankStretch(state, 0, i);
    BlankStretch(state, 0, j);
    BlankStretch(state, j + 2, |state|);
    assert state[i..][n..] == state[i + n..];
    BlankStretch(state, i + n, |state|);
  }

  lemma BlankStretch(s: string, lo: nat, hi: nat)
    requires lo <= hi <= |s| && (Blank(s[lo..hi]) || (hi == |s| && Blank(s[lo..])))
    ensures forall k :: lo <= k < hi ==> s[k] in BLANKS
  {
    forall k | lo <= k < hi
      ensures s[k] in BLANKS
    {
      assert s[lo..hi][k - lo] == s[k];
      assert hi == |s| ==> s[lo..][k - lo] == s[k];
    }
  }

  lemma SplitByState(tax: int, state: string)
    ensures var s := SplitTaxByState(tax, state); IsSplit(tax, state, s.cgst, s.sgst, s.igst)
  {
    HomeIff(state);
    SplitIsExactUpToOddPaisa(tax, state);
  }

  // ----- one line

  lemma SellingPriceIs(p: Product)
    ensures p.ActivePrice() == SellingPrice(p)
  {
  }

  lemma LineIsGross(ps: map<ProductId, Product>, item: CartItem)
    requires item.product in ps
    ensures PreCoupon(OrderStore.LineFor(ps, item)) == Gross(ps[item.product], item.quantity)
  {
    TimesIsProduct(ps[item.product].ActivePrice(), item.quantity);
    SellingPriceIs(ps[item.product]);
  }

  lemma LineIsNet(ps: map<ProductId, Product>, item: CartItem, worth: real, discount: int)
    requires item.product in ps
    ensures PostCoupon(OrderStore.LineFor(ps, item), worth, discount)
         == Net(ps[item.product], item.quantity, worth, discount)
  {
    LineIsGross(ps, item);
    if worth > 0.0 {
      ShareForms(discount as real, Gross(ps[item.product], item.quantity), worth);
    }
  }

  lemma ShareForms(d: real, x: real, s: real)
    requires s > 0.0
    ensures d * (x / s) == d * x / s
  {
  }

  lemma TaxForms(value: real, rate: real)
    ensures Part(value, rate / 100.0) == value * rate / 100.0
  {
  }

  /** Every line is taxed at its own product's rate, on what it is worth after the coupon. */
  lemma LineIsTaxed(ps: map<ProductId, Product>, item: CartItem, worth: real, discount: int)
    requires item.product in ps && !ps[item.product].taxProfile.Unrecognized?
    ensures var t := LineTax(OrderStore.LineFor(ps, item), worth, discount);
      IsTaxed(ps[item.product], item.quantity, worth, discount, t.taxableValue, t.gstRate, t.totalTax)
  {
    var line := OrderStore.LineFor(ps, item);
    var t := LineTax(line, worth, discount);
    LineTaxOnPostCoupon(line, worth, discount);
    LineIsNet(ps, item, worth, discount);
    TaxForms(t.taxableValue as real, t.gstRate as real);
  }

  // ----- a whole order

  /** One line of the order, made of one line of the cart. */
  ghost predicate IsBilledLine(
    ps: Catalogue, item: CartItem, worth: real, discount: int, state: string, billed: OrderItem, tax: int)
  {
    && item.product in ps
    && billed.product == item.product && billed.quantity == item.quantity
    && billed.priceAtPurchase == SellingPrice(ps[item.product])
    && IsTaxed(ps[item.product], item.quantity, worth, discount, billed.taxableValue, billed.gstRate, tax)
    && IsSplit(tax, state, billed.cgst, billed.sgst, billed.igst)
  }

  /** The order's totals over its lines, their taxes and the charge for shipping. */
  ghost predicate IsTotalled(
    worth: real, state: string, billed: seq<OrderItem>, taxes: seq<int>, p: Documents.Pricing)
  {
    && Nearest(p.subTotal, worth)
    && p.shippingCost == (if worth - p.discountAmount as real > 200000.0 then 0 else 10000)
    && p.shippingTax == (if p.shippingCost == 0 then 0 else 1525)
    && p.totalTax == Sum(taxes) + p.shippingTax
    && IsSplit(p.shippingTax, state, p.totalCgst - Sum(Cgsts(billed)), p.totalSgst - Sum(Sgsts(billed)),
               p.totalIgst - Sum(Igsts(billed)))
    && Nearest(p.totalAmount, worth - p.discountAmount as real + (p.totalTax + p.shippingCost) as real)
  }

  /** The bill of these cart lines at these prices. */
  ghost predicate IsBill(
    ps: Catalogue, items: seq<CartItem>, state: string, billed: seq<OrderItem>, taxes: seq<int>, p: Documents.Pricing)
  {
    var worth := LiveWorth(ps, items);
    && |billed| == |items| == |taxes|
    && (forall k :: 0 <= k < |items| ==>
          IsBilledLine(ps, items[k], worth, p.discountAmount, state, billed[k], taxes[k]))
    && IsTotalled(worth, state, billed, taxes, p)
  }

  lemma {:induction false} WorthOfActive(ps: Catalogue, items: seq<CartItem>)
    ensures SubTotal(ActiveLines(items, ps)) == LiveWorth(ps, items)
  {
    if items == [] {
    } else {
      var n := |items| - 1;
      WorthOfActive(ps, items[..n]);
      ActiveStep(items, ps, n);
      assert items[..n + 1] == items;
      if OnSale(ps, items[n]) {
        LineIsGross(ps, items[n]);
      }
    }
  }

  lemma WorthOfAll(ps: Catalogue, items: seq<CartItem>)
    requires forall k :: 0 <= k < |items| ==> items[k].product in ps && OnShelf(ps, items[k].product)
    ensures SubTotal(OrderStore.LinesFor(ps, items)) == LiveWorth(ps, items)
  {
    AllActive(items, ps);
    WorthOfActive(ps, items);
  }

  lemma AssembledIsBill(ps: Catalogue, items: seq<CartItem>, discount: int, coupon: Option<CouponId>, state: string)
    requires forall k :: 0 <= k < |items| ==> items[k].product in ps && OnShelf(ps, items[k].product)
    requires Assemble(OrderStore.LinesFor(ps, items), discount, coupon, state).Success?
    ensures var lines := OrderStore.LinesFor(ps, items);
      var order := Assemble(lines, discount, coupon, state).value;
      IsBill(ps, items, state, order.items, LineTaxes(lines, LiveWorth(ps, items), discount), order.pricing)
  {
    var lines, worth := OrderStore.LinesFor(ps, items), LiveWorth(ps, items);
    var order := Assemble(lines, discount, coupon, state).value;
    var taxes := LineTaxes(lines, worth, discount);
    WorthOfAll(ps, items);
    forall k | 0 <= k < |items|
      ensures IsBilledLine(ps, items[k], worth, discount, state, order.items[k], taxes[k])
    {
      assert !lines[k].profile.Unrecognized?;
      LineIsTaxed(ps, items[k], worth, discount);
      SellingPriceIs(ps[items[k].product]);
      SplitByState(taxes[k], state);
    }
    AssembledIsTotalled(lines, discount, coupon, state);
  }

  lemma AssembledIsTotalled(lines: seq<Line>, discount: int, coupon: Option<CouponId>, state: string)
    requires Assemble(lines, discount, coupon, state).Success?
    ensures var order := Assemble(lines, discount, coupon, state).value;
      IsTotalled(SubTotal(lines), state, order.items, LineTaxes(lines, SubTotal(lines), discount), order.pricing)
  {
    var p := Assemble(lines, discount, coupon, state).value.pricing;
    InvoiceAddsUp(lines, discount, coupon, state);
    SplitByState(p.shippingTax, state);
  }

  // ----- checkout

  /** No order on file is this user's. */
  predicate FirstOrder(orders: seq<Order>, user: UserId) {
    forall i :: 0 <= i < |orders| ==> orders[i].user != user
  }

  lemma {:induction false} CountsOrders(orders: seq<Order>, user: UserId)
    ensures OrderStore.PreviousOrders(orders, user) == 0 <==> FirstOrder(orders, user)
  {
    if orders == [] {
    } else {
      var n := |orders| - 1;
      CountsOrders(orders[..n], user);
      assert orders == orders[..n] + [orders[n]];
    }
  }

  predicate Available(ps: Catalogue, items: seq<CartItem>) {
    forall k :: 0 <= k < |items| ==>
      var p := items[k].product;
      OnShelf(ps, p) && Demand(CartParcels(items), p) <= ps[p].currentStock
  }

  predicate CouponStands(c: Coupon, now: int) {
    c.isActive && now <= c.expiryDate && c.usedCount < c.usageLimit
  }

  /** Every outcome of checkout: the first of these that fails names the error, and it commits if none does. */
  lemma CheckoutOutcome(
    s: OrderStore.Store, user: UserId, state: string, payment: PaymentMethod, now: int, gateway: Option<string>)
    ensures var r := OrderStore.Checkout(s, user, state, payment, now, gateway);
      if user !in s.carts || |s.carts[user].items| == 0 then r == Failure(EmptyCart)
      else
        var cart := s.carts[user];
        var applied, worth := cart.appliedCoupon, LiveWorth(s.products, cart.items);
        if !Available(s.products, cart.items) then r == Failure(OutOfStock)
        else if applied.Some? && !(applied.value in s.coupons && CouponStands(s.coupons[applied.value], now)) then
          r == Failure(CouponStale)
        else if applied.Some?
             && !CouponHolds(s.coupons[applied.value], worth, FirstOrder(s.orders, user), Some(payment), now) then
          r == Failure(CouponInvalid)
        else if !ProfilesKnown(s.products, cart.items) then r == Failure(UnrecognizedTaxProfile)
        else if payment == RAZORPAY && gateway.None? then r == Failure(GatewayUnavailable)
        else r.Success?
  {
    if user in s.carts && s.carts[user].items != [] {
      var cart := s.carts[user];
      AvailableFits(s.products, cart.items);
      ReserveExact(s.products, CartParcels(cart.items));
      if Available(s.products, cart.items) {
        OnceReserved(s, user, state, payment, now, gateway);
        WorthOfAll(s.products, cart.items);
        CouponAtCheckout(s, cart.appliedCoupon, LiveWorth(s.products, cart.items), user, payment, now);
        TaxableIff(s.products, cart.items);
      }
    }
  }

  /** With the goods reserved, coupon, profiles and gateway decide, in this order. */
  lemma OnceReserved(
    s: OrderStore.Store, user: UserId, state: string, payment: PaymentMethod, now: int, gateway: Option<string>)
    requires user in s.carts && s.carts[user].items != [] && Available(s.products, s.carts[user].items)
    ensures forall k :: 0 <= k < |s.carts[user].items| ==> s.carts[user].items[k].product in s.products
    ensures var r, cart := OrderStore.Checkout(s, user, state, payment, now, gateway), s.carts[user];
      var lines := OrderStore.LinesFor(s.products, cart.items);
      var discount := OrderStore.CheckoutDiscount(s, cart.appliedCoupon, SubTotal(lines), user, payment, now);
      if discount.Failure? then r == Failure(discount.error)
      else if !Taxable(lines) then r == Failure(UnrecognizedTaxProfile)
      else if payment == RAZORPAY && gateway.None? then r == Failure(GatewayUnavailable)
      else r.Success?
  {
    var cart := s.carts[user];
    AvailableFits(s.products, cart.items);
    ReserveExact(s.products, CartParcels(cart.items));
    CheckoutLaws.PricesSurviveReservation(s.products, cart.items);
    CheckoutLaws.AssemblySucceedsIff(
      s, cart.appliedCoupon, OrderStore.LinesFor(s.products, cart.items), user, state, payment, now);
  }

  /** Every product named has a profile the tax rules know. */
  predicate ProfilesKnown(ps: Catalogue, items: seq<CartItem>) {
    forall k :: 0 <= k < |items| ==> items[k].product in ps && !ps[items[k].product].taxProfile.Unrecognized?
  }

  lemma TaxableIff(ps: Catalogue, items: seq<CartItem>)
    requires forall k :: 0 <= k < |items| ==> items[k].product in ps
    ensures Taxable(OrderStore.LinesFor(ps, items)) <==> ProfilesKnown(ps, items)
  {
    var lines := OrderStore.LinesFor(ps, items);
    forall k | 0 <= k < |items|
      ensures lines[k].profile == ps[items[k].product].taxProfile
    {
    }
  }

  lemma AvailableFits(ps: Catalogue, items: seq<CartItem>)
    ensures Available(ps, items) <==> Fits(ps, CartParcels(items))
  {
    var parcels := CartParcels(items);
    assert forall k :: 0 <= k < |items| ==> parcels[k].product == items[k].product;
    if Available(ps, items) {
      forall i | 0 <= i < |parcels|
        ensures var p := parcels[i].product; p in ps && ps[p].isActive && Demand(parcels, p) <= ps[p].currentStock
      {
        assert OnShelf(ps, items[i].product);
      }
    }
  }

  lemma CouponAtCheckout(
    s: OrderStore.Store, applied: Option<CouponId>, worth: real, user: UserId, payment: PaymentMethod, now: int)
    ensures var r := OrderStore.CheckoutDiscount(s, applied, worth, user, payment, now);
      if applied.None? then r == Success(0)
      else if !(applied.value in s.coupons && CouponStands(s.coupons[applied.value], now)) then
        r == Failure(CouponStale)
      else if !CouponHolds(s.coupons[applied.value], worth, FirstOrder(s.orders, user), Some(payment), now) then
        r == Failure(CouponInvalid)
      else r.Success? && IsDiscount(s.coupons[applied.value], worth, r.value)
  {
    CountsOrders(s.orders, user);
    if applied.Some? && applied.value in s.coupons {
      CouponLaws.AcceptedAtItsWorthIff(
        s.coupons[applied.value], worth, OrderStore.PreviousOrders(s.orders, user), Some(payment), now);
    }
  }

  /** A committed order is the bill, at this moment's prices, of the cart it was made of; its discount is what the
      coupon is worth of those goods, and it starts without evidence of payment or dispatch. */
  lemma CommittedOrderIsBilled(
    s: OrderStore.Store, user: UserId, state: string, payment: PaymentMethod, now: int, gateway: Option<string>)
    returns (taxes: seq<int>)
    requires OrderStore.Checkout(s, user, state, payment, now, gateway).Success?
    ensures user in s.carts
    ensures var order := OrderStore.Checkout(s, user, state, payment, now, gateway).value.orders[|s.orders|];
      var cart := s.carts[user];
      && IsBill(s.products, cart.items, state, order.items, taxes, order.pricing)
      && order.pricing.appliedCoupon == cart.appliedCoupon
      && (match cart.appliedCoupon
          case None => order.pricing.discountAmount == 0
          case Some(c) =>
            && c in s.coupons
            && IsDiscount(s.coupons[c], LiveWorth(s.products, cart.items), order.pricing.discountAmount))
      && order == Order(user, order.items, order.pricing, payment, PaymentPending,
                        if payment == COD then Processing else Pending, now,
                        if payment == COD then None else gateway, None, None, None, None, None)
  {
    taxes := CommittedBill(s, user, state, payment, now, gateway);
    var cart := s.carts[user];
    CouponAtCheckout(s, cart.appliedCoupon, LiveWorth(s.products, cart.items), user, payment, now);
  }

  lemma CommittedBill(
    s: OrderStore.Store, user: UserId, state: string, payment: PaymentMethod, now: int, gateway: Option<string>)
    returns (taxes: seq<int>)
    requires OrderStore.Checkout(s, user, state, payment, now, gateway).Success?
    ensures user in s.carts
    ensures var order := OrderStore.Checkout(s, user, state, payment, now, gateway).value.orders[|s.orders|];
      && IsBill(s.products, s.carts[user].items, state, order.items, taxes, order.pricing)
      && order.pricing.appliedCoupon == s.carts[user].appliedCoupon
      && OrderStore.CheckoutDiscount(
           s, s.carts[user].appliedCoupon, LiveWorth(s.products, s.carts[user].items), user, payment, now)
           == Success(order.pricing.discountAmount)
  {
    var cart := s.carts[user];
    CheckoutOutcome(s, user, state, payment, now, gateway);
    CheckoutLaws.PricesSurviveReservation(s.products, cart.items);
    var worth := LiveWorth(s.products, cart.items);
    var lines := OrderStore.LinesFor(s.products, cart.items);
    WorthOfAll(s.products, cart.items);
    var discount := OrderStore.CheckoutDiscount(s, cart.appliedCoupon, worth, user, payment, now).value;
    AssembledIsBill(s.products, cart.items, discount, cart.appliedCoupon, state);
    taxes := LineTaxes(lines, worth, discount);
  }
}
