/** Passes 2 and 3 of checkout: the coupon is spread over the lines by weight, each line is taxed on what is left of
    it, and shipping is added (src/modules/orders/order.service.ts). */
module Pricing {
  import opened Wrappers
  import opened Money
  import opened Sums
  import opened TaxEngine
  import opened Documents

  /** A reserved cart line with the price and tax profile read from its product. */
  datatype Line = Line(product: ProductId, quantity: Units, price: Amount, profile: TaxProfile)

  datatype Assembled = Assembled(items: seq<OrderItem>, pricing: Pricing)

  /** 2000 rupees: strictly above it shipping is free. */
  const FREE_SHIPPING_ABOVE := 200000.0

  function PreCoupon(l: Line): (r: real)
    ensures 0.0 <= r
  {
    TimesNonNegative(l.price, l.quantity);
    Times(l.price, l.quantity)
  }

  function PreCoupons(ls: seq<Line>): seq<real> {
    seq(|ls|, i requires 0 <= i < |ls| => PreCoupon(ls[i]))
  }

  function SubTotal(ls: seq<Line>): real {
    SumReal(PreCoupons(ls))
  }

  lemma SubTotalAppend(ls: seq<Line>, l: Line)
    ensures SubTotal(ls + [l]) == SubTotal(ls) + PreCoupon(l)
  {
    assert PreCoupons(ls + [l]) == PreCoupons(ls) + [PreCoupon(l)];
    SumRealAppend(PreCoupons(ls), PreCoupon(l));
  }

  function Weight(l: Line, subTotal: real): real {
    if subTotal > 0.0 then PreCoupon(l) / subTotal else 0.0
  }

  function ItemDiscount(l: Line, subTotal: real, discount: int): real {
    discount as real * Weight(l, subTotal)
  }

  function PostCoupon(l: Line, subTotal: real, discount: int): real {
    PreCoupon(l) - ItemDiscount(l, subTotal, discount)
  }

  function PerUnit(value: real, quantity: Units): real {
    value / quantity as real
  }

  function DiscountedUnitPrice(l: Line, subTotal: real, discount: int): real {
    PerUnit(PostCoupon(l, subTotal, discount), l.quantity)
  }

  predicate Taxable(ls: seq<Line>) {
    forall i :: 0 <= i < |ls| ==> !ls[i].profile.Unrecognized?
  }

  function LineTax(l: Line, subTotal: real, discount: int): TaxResult
    requires !l.profile.Unrecognized?
  {
    CalculateLineItemTax(l.profile, DiscountedUnitPrice(l, subTotal, discount), l.quantity).value
  }

  function ItemFor(l: Line, subTotal: real, discount: int, state: string): OrderItem
    requires !l.profile.Unrecognized?
  {
    var tax := LineTax(l, subTotal, discount);
    var split := SplitTaxByState(tax.totalTax, state);
    OrderItem(l.product, l.quantity, l.price, tax.taxableValue, tax.gstRate, split.cgst, split.sgst, split.igst)
  }

  function ItemsFor(ls: seq<Line>, subTotal: real, discount: int, state: string): seq<OrderItem>
    requires Taxable(ls)
  {
    seq(|ls|, i requires 0 <= i < |ls| => ItemFor(ls[i], subTotal, discount, state))
  }

  function LineTaxes(ls: seq<Line>, subTotal: real, discount: int): seq<int>
    requires Taxable(ls)
  {
    seq(|ls|, i requires 0 <= i < |ls| => LineTax(ls[i], subTotal, discount).totalTax)
  }

  function Cgsts(items: seq<OrderItem>): seq<int> {
    seq(|items|, i requires 0 <= i < |items| => items[i].cgst)
  }

  function Sgsts(items: seq<OrderItem>): seq<int> {
    seq(|items|, i requires 0 <= i < |items| => items[i].sgst)
  }

  function Igsts(items: seq<OrderItem>): seq<int> {
    seq(|items|, i requires 0 <= i < |items| => items[i].igst)
  }

  function TaxableValues(items: seq<OrderItem>): seq<int> {
    seq(|items|, i requires 0 <= i < |items| => items[i].taxableValue)
  }

  function ShippingCost(totalAfterDiscount: real): int {
    if totalAfterDiscount > FREE_SHIPPING_ABOVE then 0 else SHIPPING_CHARGE
  }

  /** The amount due before its last rounding: goods after discount, tax on every line, shipping, and the tax that
      shipping contains charged once more on top. */
  function AmountDue(ls: seq<Line>, discount: int): real
    requires Taxable(ls)
  {
    var subTotal := SubTotal(ls);
    var shipping := ShippingCost(subTotal - discount as real);
    subTotal - discount as real
      + (Sum(LineTaxes(ls, subTotal, discount)) + CalculateShippingTax(shipping).totalTax) as real
      + shipping as real
  }

  /** The order's lines and totals, or the error checkout halts with. */
  function Assemble(ls: seq<Line>, discount: int, coupon: Option<CouponId>, state: string)
    : Result<Assembled, AppError>
  {
    if !Taxable(ls) then
      Failure(UnrecognizedTaxProfile)
    else if AmountDue(ls, discount) < 0.0 then
      Failure(NegativeTotal)
    else
      var subTotal := SubTotal(ls);
      var items := ItemsFor(ls, subTotal, discount, state);
      var shipping := ShippingCost(subTotal - discount as real);
      var shippingTax := CalculateShippingTax(shipping).totalTax;
      var shippingSplit := SplitTaxByState(shippingTax, state);
      Success(Assembled(items, Pricing(
        Round(subTotal),
        discount,
        coupon,
        Sum(LineTaxes(ls, subTotal, discount)) + shippingTax,
        Sum(Cgsts(items)) + shippingSplit.cgst,
        Sum(Sgsts(items)) + shippingSplit.sgst,
        Sum(Igsts(items)) + shippingSplit.igst,
        shipping,
        shippingTax,
        Round(AmountDue(ls, discount)))))
  }

  datatype LineTotals = LineTotals(items: seq<OrderItem>, tax: int, cgst: int, sgst: int, igst: int)

  function LineTotalsOf(ls: seq<Line>, subTotal: real, discount: int, state: string): LineTotals
    requires Taxable(ls)
  {
    var items := ItemsFor(ls, subTotal, discount, state);
    LineTotals(items, Sum(LineTaxes(ls, subTotal, discount)), Sum(Cgsts(items)), Sum(Sgsts(items)), Sum(Igsts(items)))
  }

  /** Pass 2: one accumulator per total; the first unrecognised profile halts checkout. */
  method TaxLines(ls: seq<Line>, subTotal: real, discount: int, state: string) returns (r: Result<LineTotals, AppError>)
    ensures r == if Taxable(ls) then Success(LineTotalsOf(ls, subTotal, discount, state))
                 else Failure(UnrecognizedTaxProfile)
  {
    var items: seq<OrderItem> := [];
    var totalTax, totalCgst, totalSgst, totalIgst := 0, 0, 0, 0;
    var i := 0;
    while i < |ls|
      invariant 0 <= i <= |ls|
      invariant Taxable(ls[..i])
      invariant LineTotals(items, totalTax, totalCgst, totalSgst, totalIgst)
             == LineTotalsOf(ls[..i], subTotal, discount, state)
    {
      var line := ls[i];
      var unitPrice := DiscountedUnitPrice(line, subTotal, discount);
      var taxResult := CalculateLineItemTax(line.profile, unitPrice, line.quantity);
      if taxResult.Failure? {
        return Failure(taxResult.error);
      }
      var tax := taxResult.value;
      var split := SplitTaxByState(tax.totalTax, state);
      var item := OrderItem(line.product, line.quantity, line.price, tax.taxableValue, tax.gstRate,
                            split.cgst, split.sgst, split.igst);

      assert ls[..i + 1] == ls[..i] + [line];
      LineTotalsAppend(ls[..i], line, subTotal, discount, state);

      totalTax := totalTax + tax.totalTax;
      totalCgst := totalCgst + split.cgst;
      totalSgst := totalSgst + split.sgst;
      totalIgst := totalIgst + split.igst;
      items := items + [item];
      i := i + 1;
    }
    assert ls[..i] == ls;
    r := Success(LineTotals(items, totalTax, totalCgst, totalSgst, totalIgst));
  }

  /** Passes 2 and 3 in order, down to the guard against a negative total. */
  method AssembleOrder(ls: seq<Line>, discount: int, coupon: Option<CouponId>, state: string)
    returns (r: Result<Assembled, AppError>)
    ensures r == Assemble(ls, discount, coupon, state)
  {
    var subTotal := SubTotal(ls);
    var taxed := TaxLines(ls, subTotal, discount, state);
    if taxed.Failure? {
      return Failure(taxed.error);
    }
    var LineTotals(items, totalTax, totalCgst, totalSgst, totalIgst) := taxed.value;

    var totalAfterDiscount := subTotal - discount as real;
    var shippingCost := if totalAfterDiscount > FREE_SHIPPING_ABOVE then 0 else SHIPPING_CHARGE;
    var shippingTax := CalculateShippingTax(shippingCost).totalTax;
    var shippingSplit := SplitTaxByState(shippingTax, state);
    totalTax := totalTax + shippingTax;
    totalCgst := totalCgst + shippingSplit.cgst;
    totalSgst := totalSgst + shippingSplit.sgst;
    totalIgst := totalIgst + shippingSplit.igst;

    var totalAmount := totalAfterDiscount + totalTax as real + shippingCost as real;
    if totalAmount < 0.0 {
      return Failure(NegativeTotal);
    }
    r := Success(Assembled(items, Pricing(Round(subTotal), discount, coupon, totalTax, totalCgst, totalSgst, totalIgst,
                                          shippingCost, shippingTax, Round(totalAmount))));
  }

  lemma LineTotalsAppend(ls: seq<Line>, l: Line, subTotal: real, discount: int, state: string)
    requires Taxable(ls) && !l.profile.Unrecognized?
    ensures Taxable(ls + [l])
    ensures var before := LineTotalsOf(ls, subTotal, discount, state);
      var item := ItemFor(l, subTotal, discount, state);
      LineTotalsOf(ls + [l], subTotal, discount, state)
        == LineTotals(before.items + [item], before.tax + LineTax(l, subTotal, discount).totalTax,
                      before.cgst + item.cgst, before.sgst + item.sgst, before.igst + item.igst)
  {
    var item := ItemFor(l, subTotal, discount, state);
    var items := ItemsFor(ls, subTotal, discount, state);
    var tax := LineTax(l, subTotal, discount).totalTax;
    assert ItemsFor(ls + [l], subTotal, discount, state) == items + [item];
    assert LineTaxes(ls + [l], subTotal, discount) == LineTaxes(ls, subTotal, discount) + [tax];
    SumAppend(LineTaxes(ls, subTotal, discount), tax);
    ItemSumsAppend(items, item);
  }

  lemma ItemSumsAppend(items: seq<OrderItem>, item: OrderItem)
    ensures Sum(Cgsts(items + [item])) == Sum(Cgsts(items)) + item.cgst
    ensures Sum(Sgsts(items + [item])) == Sum(Sgsts(items)) + item.sgst
    ensures Sum(Igsts(items + [item])) == Sum(Igsts(items)) + item.igst
  {
    assert Cgsts(items + [item]) == Cgsts(items) + [item.cgst];
    assert Sgsts(items + [item]) == Sgsts(items) + [item.sgst];
    assert Igsts(items + [item]) == Igsts(items) + [item.igst];
    SumAppend(Cgsts(items), item.cgst);
    SumAppend(Sgsts(items), item.sgst);
    SumAppend(Igsts(items), item.igst);
  }
}
