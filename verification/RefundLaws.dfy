/** What a refund is worth against what was paid and invoiced. */
module RefundLaws {
  import opened Wrappers
  import opened Money
  import opened Sums
  import opened TaxEngine
  import opened Documents
  import opened Stock
  import opened Pricing
  import opened PricingLaws
  import opened Refunds

  /** Units of a product that the order's first line for it sold, the most one request may name. */
  function Bought(items: seq<OrderItem>, p: ProductId): nat {
    var line := FindLine(items, p);
    if line.Some? then line.value.quantity else 0
  }

  predicate DistinctProducts(request: seq<ReturnItem>) {
    forall i, j :: 0 <= i < j < |request| ==> request[i].product != request[j].product
  }

  /** Summed over the request, no product is asked for beyond what was bought. */
  ghost predicate WithinPurchase(items: seq<OrderItem>, request: seq<ReturnItem>) {
    forall p :: Demand(ReturnParcels(request), p) <= Bought(items, p)
  }

  /** The per-item guard gives that as soon as the request names each product once. */
  lemma DistinctRequestsStayWithinPurchase(ps: Catalogue, items: seq<OrderItem>, request: seq<ReturnItem>)
    requires FirstError(ps, items, request).None? && DistinctProducts(request)
    ensures WithinPurchase(items, request)
  {
    AcceptedIsPurchased(ps, items, request);
    forall p
      ensures Demand(ReturnParcels(request), p) <= Bought(items, p)
    {
      PurchasedDemand(items, request, p);
    }
  }

  /** A request is accepted exactly when every item passes every guard, and fragile goods come with a photograph; the
      first item that fails decides the error. */
  lemma RequestAcceptedIff(ps: Catalogue, items: seq<OrderItem>, discount: int, request: seq<ReturnItem>, images: nat)
    ensures Estimate(ps, items, discount, request, images).Success?
       <==> forall k :: 0 <= k < |request| ==>
              var line := FindLine(items, request[k].product);
              && line.Some? && request[k].quantity <= line.value.quantity
              && request[k].product in ps && ps[request[k].product].itemType != Innerwear
              && (ps[request[k].product].isFragile ==> 0 < images)
  {
    NoErrorIff(ps, items, request);
  }

  lemma {:induction false} NoErrorIff(ps: Catalogue, items: seq<OrderItem>, request: seq<ReturnItem>)
    ensures FirstError(ps, items, request).None?
       <==> forall k :: 0 <= k < |request| ==> CheckItem(ps, items, request[k]).None?
  {
    if request == [] {
    } else {
      var n := |request| - 1;
      NoErrorIff(ps, items, request[..n]);
      if CheckItem(ps, items, request[n]).None? && FirstError(ps, items, request[..n]).None? {
        forall k | 0 <= k < |request|
          ensures CheckItem(ps, items, request[k]).None?
        {
          assert k < n ==> request[..n][k] == request[k];
        }
      } else if FirstError(ps, items, request[..n]).Some? {
        var k :| 0 <= k < n && CheckItem(ps, items, request[..n][k]).Some?;
        assert request[..n][k] == request[k];
      }
    }
  }

  /** Every requested item was bought, in at least that quantity. */
  predicate EachPurchased(items: seq<OrderItem>, request: seq<ReturnItem>) {
    forall k :: 0 <= k < |request| ==>
      var line := FindLine(items, request[k].product);
      line.Some? && request[k].quantity <= line.value.quantity
  }

  lemma {:induction false} AcceptedIsPurchased(ps: Catalogue, items: seq<OrderItem>, request: seq<ReturnItem>)
    requires FirstError(ps, items, request).None?
    ensures EachPurchased(items, request)
  {
    if request == [] {
    } else {
      AcceptedIsPurchased(ps, items, request[..|request| - 1]);
    }
  }

  lemma {:induction false} PurchasedDemand(items: seq<OrderItem>, request: seq<ReturnItem>, p: ProductId)
    requires EachPurchased(items, request) && DistinctProducts(request)
    ensures Demand(ReturnParcels(request), p) <= Bought(items, p)
    ensures (forall i :: 0 <= i < |request| ==> request[i].product != p) ==> Demand(ReturnParcels(request), p) == 0
  {
    if request == [] {
    } else {
      var n := |request| - 1;
      assert ReturnParcels(request)[..n] == ReturnParcels(request[..n]);
      PurchasedDemand(items, request[..n], p);
    }
  }

  function RequestedTotal(items: seq<OrderItem>, request: seq<ReturnItem>): real {
    SumReal(RequestedValues(items, request))
  }

  lemma SharesFactor(items: seq<OrderItem>, ratio: real, request: seq<ReturnItem>)
    ensures SumReal(RefundShares(items, ratio, request)) == Part(RequestedTotal(items, request), ratio)
  {
    SumRealScale(RequestedValues(items, request), RefundShares(items, ratio, request), ratio);
  }

  lemma RequestAppend(items: seq<OrderItem>, front: seq<ReturnItem>, last: ReturnItem)
    ensures RequestedTotal(items, front + [last]) == RequestedTotal(items, front) + Requested(items, last)
  {
    assert RequestedValues(items, front + [last]) == RequestedValues(items, front) + [Requested(items, last)];
    SumRealAppend(RequestedValues(items, front), Requested(items, last));
  }

  lemma ReturnDemandAppend(front: seq<ReturnItem>, last: ReturnItem, p: ProductId)
    ensures Demand(ReturnParcels(front + [last]), p)
         == Demand(ReturnParcels(front), p) + if last.product == p then last.quantity else 0
  {
    var parcel := Parcel(last.product, last.quantity);
    assert ReturnParcels(front + [last]) == ReturnParcels(front) + [parcel];
    DemandAppend(ReturnParcels(front), parcel, p);
  }

  /** The part of a request that concerns other products. */
  function Others(request: seq<ReturnItem>, p: ProductId): seq<ReturnItem> {
    if request == [] then []
    else
      var rest := Others(request[..|request| - 1], p);
      var last := request[|request| - 1];
      if last.product == p then rest else rest + [last]
  }

  lemma {:induction false} OthersDemand(request: seq<ReturnItem>, p: ProductId, q: ProductId)
    ensures Demand(ReturnParcels(Others(request, p)), q) == if q == p then 0 else Demand(ReturnParcels(request), q)
  {
    if request == [] {
    } else {
      var front, last := request[..|request| - 1], request[|request| - 1];
      assert request == front + [last];
      OthersDemand(front, p, q);
      ReturnDemandAppend(front, last, q);
      ReturnDemandAppend(Others(front, p), last, q);
    }
  }

  /** A request splits into the units of the first line's product and a request on the remaining lines. */
  lemma {:induction false} RequestedSplit(head: OrderItem, tail: seq<OrderItem>, request: seq<ReturnItem>)
    ensures RequestedTotal([head] + tail, request)
         == Times(head.priceAtPurchase, Demand(ReturnParcels(request), head.product))
            + RequestedTotal(tail, Others(request, head.product))
  {
    if request == [] {
    } else {
      var p := head.product;
      var front, last := request[..|request| - 1], request[|request| - 1];
      assert request == front + [last];
      RequestedSplit(head, tail, front);
      RequestAppend([head] + tail, front, last);
      ReturnDemandAppend(front, last, p);
      FindInCons(head, tail, last.product);
      if last.product == p {
        TimesAdd(head.priceAtPurchase, Demand(ReturnParcels(front), p), last.quantity);
      } else {
        RequestAppend(tail, Others(front, p), last);
      }
    }
  }

  lemma FindInCons(head: OrderItem, tail: seq<OrderItem>, p: ProductId)
    ensures FindLine([head] + tail, p) == if head.product == p then Some(head) else FindLine(tail, p)
  {
    assert ([head] + tail)[1..] == tail;
  }

  lemma RawSplit(head: OrderItem, tail: seq<OrderItem>)
    ensures Raw([head] + tail) == LineValue(head) + Raw(tail)
  {
    var values := seq(|tail|, i requires 0 <= i < |tail| => LineValue(tail[i]));
    var all := seq(|tail| + 1, i requires 0 <= i < |tail| + 1 => LineValue(([head] + tail)[i]));
    assert all == [LineValue(head)] + values;
    SumRealCons(LineValue(head), values);
  }

  lemma {:induction false} SumRealCons(x: real, s: seq<real>)
    ensures SumReal([x] + s) == x + SumReal(s)
  {
    if s == [] {
      assert [x] + s == [x];
      assert [x][..0] == [];
    } else {
      SumRealCons(x, s[..|s| - 1]);
      assert ([x] + s)[..|s|] == [x] + s[..|s| - 1];
    }
  }

  predicate DistinctLines(items: seq<OrderItem>) {
    forall i, j :: 0 <= i < j < |items| ==> items[i].product != items[j].product
  }

  ghost predicate AsksForEverything(items: seq<OrderItem>, request: seq<ReturnItem>) {
    forall p :: Demand(ReturnParcels(request), p) == Bought(items, p)
  }

  /** A request within the purchase is worth at most the order, and exactly the order when it asks for all of it and
      no product has two lines. */
  lemma {:induction false} RequestWorthAtMostOrder(items: seq<OrderItem>, request: seq<ReturnItem>)
    requires WithinPurchase(items, request)
    ensures 0.0 <= RequestedTotal(items, request) <= Raw(items)
    ensures DistinctLines(items) && AsksForEverything(items, request) ==> RequestedTotal(items, request) == Raw(items)
  {
    if items == [] {
      NothingAddsUp(RequestedValues(items, request));
    } else {
      var head, tail := items[0], items[1..];
      var rest := Others(request, head.product);
      assert items == [head] + tail;
      RequestedSplit(head, tail, request);
      RawSplit(head, tail);
      RestWithinPurchase(head, tail, request);
      RequestWorthAtMostOrder(tail, rest);
      var asked := Demand(ReturnParcels(request), head.product);
      HeadWorth(head, asked);
    }
  }

  lemma HeadWorth(head: OrderItem, asked: nat)
    requires asked <= head.quantity
    ensures 0.0 <= Times(head.priceAtPurchase, asked) <= LineValue(head)
    ensures asked == head.quantity ==> Times(head.priceAtPurchase, asked) == LineValue(head)
  {
    TimesMonotone(head.priceAtPurchase, asked, head.quantity);
  }

  lemma RestWithinPurchase(head: OrderItem, tail: seq<OrderItem>, request: seq<ReturnItem>)
    requires WithinPurchase([head] + tail, request)
    ensures Demand(ReturnParcels(request), head.product) <= head.quantity
    ensures WithinPurchase(tail, Others(request, head.product))
    ensures DistinctLines([head] + tail) && AsksForEverything([head] + tail, request)
        ==> && Demand(ReturnParcels(request), head.product) == head.quantity
            && DistinctLines(tail) && AsksForEverything(tail, Others(request, head.product))
  {
    var items, p := [head] + tail, head.product;
    FindInCons(head, tail, p);
    forall q
      ensures q != p ==> Bought(items, q) == Bought(tail, q)
      ensures Demand(ReturnParcels(Others(request, p)), q) == if q == p then 0 else Demand(ReturnParcels(request), q)
    {
      FindInCons(head, tail, q);
      OthersDemand(request, p, q);
    }
    if DistinctLines(items) {
      forall i | 0 <= i < |tail|
        ensures tail[i].product != p
      {
        assert items[i + 1] == tail[i] && items[0] == head;
      }
      forall i, j | 0 <= i < j < |tail|
        ensures tail[i].product != tail[j].product
      {
        assert items[i + 1] == tail[i] && items[j + 1] == tail[j];
      }
    }
  }

  /** Raw value times the paid share is what the order cost before tax and shipping. */
  lemma PaidShare(raw: real, discount: int)
    requires raw > 0.0 || (raw == 0.0 && discount == 0)
    ensures DiscountRatio(raw, discount) * raw == raw - discount as real
  {
    if raw > 0.0 {
      QuotientTimes(raw - discount as real, raw);
    }
  }

  /** The refund lies between nothing and the discounted value of the goods, which is itself at most what was
      charged; returning everything from an order without variants refunds exactly the discounted value. */
  lemma RefundNeverExceedsPaid(
    ls: seq<Line>, discount: int, coupon: Option<CouponId>, state: string, request: seq<ReturnItem>)
    requires CouponDiscount(ls, discount)
    requires Assemble(ls, discount, coupon, state).Success?
    requires WithinPurchase(Assemble(ls, discount, coupon, state).value.items, request)
    ensures var order := Assemble(ls, discount, coupon, state).value;
      var paid := Round(SubTotal(ls) - discount as real);
      && 0 <= Refund(order.items, discount, request) <= paid <= order.pricing.totalAmount
      && (DistinctLines(order.items) && AsksForEverything(order.items, request)
          ==> Refund(order.items, discount, request) == paid)
  {
    var items := Assemble(ls, discount, coupon, state).value.items;
    RawIsSubTotal(ls, discount, state);
    NothingCostsNothing(ls, discount);
    RefundBounds(items, discount, request);
    TotalIsNeverNegative(ls, discount, coupon, state);
  }

  lemma RefundBounds(items: seq<OrderItem>, discount: int, request: seq<ReturnItem>)
    requires Raw(items) > 0.0 || (Raw(items) == 0.0 && discount == 0)
    requires 0 <= discount && discount as real <= Raw(items) + 0.5
    requires WithinPurchase(items, request)
    ensures 0 <= Refund(items, discount, request) <= Round(Raw(items) - discount as real)
    ensures DistinctLines(items) && AsksForEverything(items, request)
        ==> Refund(items, discount, request) == Round(Raw(items) - discount as real)
  {
    RequestWorthAtMostOrder(items, request);
    SharesFactor(items, DiscountRatio(Raw(items), discount), request);
    RoundedShare(Raw(items), discount, RequestedTotal(items, request));
  }

  lemma NothingCostsNothing(ls: seq<Line>, discount: int)
    requires CouponDiscount(ls, discount)
    ensures SubTotal(ls) > 0.0 || (SubTotal(ls) == 0.0 && discount == 0)
  {
    var zeros := seq(|ls|, _ => 0.0);
    SumRealMonotone(zeros, PreCoupons(ls));
    NothingAddsUp(zeros);
    assert SubTotal(ls) == 0.0 ==> discount as real <= 0.5;
  }

  lemma RoundedShare(raw: real, discount: int, worth: real)
    requires raw > 0.0 || (raw == 0.0 && discount == 0)
    requires 0 <= discount && discount as real <= raw + 0.5
    requires 0.0 <= worth <= raw
    ensures var ratio := DiscountRatio(raw, discount);
      && 0 <= Round(Part(worth, ratio)) <= Round(raw - discount as real)
      && (worth == raw ==> Round(Part(worth, ratio)) == Round(raw - discount as real))
  {
    var ratio := DiscountRatio(raw, discount);
    PaidShare(raw, discount);
    if 0.0 <= ratio {
      var refund, net := PartScales(worth, raw, ratio);
      RoundedBetween(refund, net);
    } else {
      var refund, net := PartShrinks(worth, raw, ratio);
      RoundedBetween(refund, net);
    }
  }

  lemma RoundedBetween(refund: real, net: real)
    requires -0.5 <= net
    requires 0.0 <= refund <= net || net <= refund <= 0.0
    ensures 0 <= Round(refund) <= Round(net)
  {
    RoundNonNegative(net);
    RoundNonNegative(refund);
    if refund <= net {
      RoundMonotone(refund, net);
    } else {
      RoundMonotone(refund, 0.0);
      RoundWhole(0);
    }
  }

  /** The return recomputes the very subtotal checkout discounted. */
  lemma RawIsSubTotal(ls: seq<Line>, discount: int, state: string)
    requires Taxable(ls)
    ensures Raw(ItemsFor(ls, SubTotal(ls), discount, state)) == SubTotal(ls)
  {
    var items := ItemsFor(ls, SubTotal(ls), discount, state);
    var values := seq(|items|, i requires 0 <= i < |items| => LineValue(items[i]));
    forall i | 0 <= i < |ls|
      ensures values[i] == PreCoupons(ls)[i]
    {
      assert items[i].priceAtPurchase == ls[i].price && items[i].quantity == ls[i].quantity;
    }
    assert values == PreCoupons(ls);
  }

  /** A line's paid share is its value after the coupon. */
  lemma ShareIsPostCoupon(ls: seq<Line>, i: nat, discount: int)
    requires i < |ls|
    ensures Part(PreCoupon(ls[i]), DiscountRatio(SubTotal(ls), discount)) == PostCoupon(ls[i], SubTotal(ls), discount)
  {
    if SubTotal(ls) > 0.0 {
      ProportionalPart(PreCoupon(ls[i]), SubTotal(ls), discount as real);
    }
  }

  lemma ProportionalPart(x: real, s: real, d: real)
    requires s > 0.0
    ensures x * ((s - d) / s) == x - d * (x / s)
  {
    QuotientTimes(s - d, s);
    QuotientTimes(x, s);
    CrossMultiply(x, s, d, (s - d) / s, x / s);
  }

  lemma CrossMultiply(x: real, s: real, d: real, ratio: real, weight: real)
    requires ratio * s == s - d && weight * s == x
    ensures x * ratio == x - d * weight
  {
    assert x * ratio == weight * (ratio * s);
    assert weight * (s - d) == weight * s - weight * d;
  }

  function WholeLines(items: seq<OrderItem>, chosen: seq<nat>): seq<ReturnItem>
    requires forall j :: 0 <= j < |chosen| ==> chosen[j] < |items|
  {
    seq(|chosen|, j requires 0 <= j < |chosen| => ReturnItem(items[chosen[j]].product, items[chosen[j]].quantity))
  }

  function InvoicedValues(items: seq<OrderItem>, chosen: seq<nat>): seq<int>
    requires forall j :: 0 <= j < |chosen| ==> chosen[j] < |items|
  {
    seq(|chosen|, j requires 0 <= j < |chosen| => items[chosen[j]].taxableValue)
  }

  /** Returning k whole lines refunds their taxable values on the invoice, to within (k + 1) / 2 paise. */
  lemma WholeLineRefundMatchesInvoice(ls: seq<Line>, discount: int, state: string, chosen: seq<nat>)
    requires Taxable(ls)
    requires forall j :: 0 <= j < |chosen| ==> chosen[j] < |ls|
    requires var items := ItemsFor(ls, SubTotal(ls), discount, state);
      forall j :: 0 <= j < |chosen| ==> FindLine(items, items[chosen[j]].product) == Some(items[chosen[j]])
    ensures var items := ItemsFor(ls, SubTotal(ls), discount, state);
      var gap := Refund(items, discount, WholeLines(items, chosen)) - Sum(InvoicedValues(items, chosen));
      -(|chosen| + 1) <= 2 * gap <= |chosen| + 1
  {
    var items := ItemsFor(ls, SubTotal(ls), discount, state);
    var ratio := DiscountRatio(SubTotal(ls), discount);
    RawIsSubTotal(ls, discount, state);
    var shares := RefundShares(items, ratio, WholeLines(items, chosen));
    var values := InvoicedValues(items, chosen);
    forall j | 0 <= j < |chosen|
      ensures values[j] as real - 0.5 <= shares[j] <= values[j] as real + 0.5
    {
      WholeLineShare(ls, discount, state, chosen[j]);
    }
    SumRounded(shares, values);
    HalfPaiseGap(SumReal(shares), Sum(values), |chosen|);
  }

  lemma WholeLineShare(ls: seq<Line>, discount: int, state: string, i: nat)
    requires Taxable(ls) && i < |ls|
    requires var items := ItemsFor(ls, SubTotal(ls), discount, state);
      FindLine(items, items[i].product) == Some(items[i])
    ensures var item := ItemFor(ls[i], SubTotal(ls), discount, state);
      var items := ItemsFor(ls, SubTotal(ls), discount, state);
      var share := Share(items, DiscountRatio(SubTotal(ls), discount), ReturnItem(item.product, item.quantity));
      item.taxableValue as real - 0.5 <= share <= item.taxableValue as real + 0.5
  {
    var items := ItemsFor(ls, SubTotal(ls), discount, state);
    var r := ReturnItem(items[i].product, items[i].quantity);
    TaxableIsRoundedPost(ls[i], SubTotal(ls), discount, state);
    ShareIsPostCoupon(ls, i, discount);
    ShareNearRounded(items, DiscountRatio(SubTotal(ls), discount), r, PreCoupon(ls[i]),
                     PostCoupon(ls[i], SubTotal(ls), discount));
  }

  lemma ShareNearRounded(items: seq<OrderItem>, ratio: real, r: ReturnItem, pre: real, post: real)
    requires Requested(items, r) == pre && Part(pre, ratio) == post
    ensures Round(post) as real - 0.5 <= Share(items, ratio, r) <= Round(post) as real + 0.5
  {
  }

  lemma TaxableIsRoundedPost(l: Line, subTotal: real, discount: int, state: string)
    requires !l.profile.Unrecognized?
    ensures ItemFor(l, subTotal, discount, state).taxableValue == Round(PostCoupon(l, subTotal, discount))
    ensures ItemFor(l, subTotal, discount, state).product == l.product
    ensures LineValue(ItemFor(l, subTotal, discount, state)) == PreCoupon(l)
  {
    LineTaxOnPostCoupon(l, subTotal, discount);
  }

  lemma HalfPaiseGap(x: real, n: int, k: nat)
    requires n as real - k as real / 2.0 <= x <= n as real + k as real / 2.0
    ensures -(k + 1) <= 2 * (Round(x) - n) <= k + 1
  {
    var gap := 2 * (Round(x) - n);
    assert gap as real <= k as real + 1.0 && -(k as real) - 1.0 <= gap as real;
  }

  /** Asking for more units of the same products never refunds less, whatever the discount, as long as the larger
      estimate is one the schema admits; with a discount within the goods' value every estimate is. */
  lemma RefundMonotone(items: seq<OrderItem>, discount: int, less: seq<ReturnItem>, more: seq<ReturnItem>)
    requires |less| == |more|
    requires forall i :: 0 <= i < |less| ==>
      less[i].product == more[i].product && less[i].quantity <= more[i].quantity
    ensures discount as real <= Raw(items) || 0 <= Refund(items, discount, more) ==>
      Refund(items, discount, less) <= Refund(items, discount, more)
    ensures discount as real <= Raw(items) ==> 0 <= Refund(items, discount, less)
  {
    var ratio := DiscountRatio(Raw(items), discount);
    if discount as real <= Raw(items) {
      RatioNonNegative(Raw(items), discount);
    }
    RequestedMonotone(items, less, more);
    RefundIsRoundedPart(items, discount, less);
    RefundIsRoundedPart(items, discount, more);
    RoundedPartsOrdered(RequestedTotal(items, less), RequestedTotal(items, more), ratio);
  }

  lemma RefundIsRoundedPart(items: seq<OrderItem>, discount: int, request: seq<ReturnItem>)
    ensures Refund(items, discount, request)
         == Round(Part(RequestedTotal(items, request), DiscountRatio(Raw(items), discount)))
  {
    SharesFactor(items, DiscountRatio(Raw(items), discount), request);
  }

  lemma RoundedPartsOrdered(less: real, more: real, ratio: real)
    requires 0.0 <= less <= more
    ensures 0.0 <= ratio || 0 <= Round(Part(more, ratio)) ==> Round(Part(less, ratio)) <= Round(Part(more, ratio))
    ensures 0.0 <= ratio ==> 0 <= Round(Part(less, ratio))
  {
    if 0.0 <= ratio {
      var small, large := PartScales(less, more, ratio);
      RoundNonNegative(small);
      RoundMonotone(small, large);
    } else {
      var small, large := PartShrinks(less, more, ratio);
      RoundMonotone(large, small);
      RoundMonotone(small, 0.0);
      RoundWhole(0);
    }
  }

  lemma RatioNonNegative(raw: real, discount: int)
    requires discount as real <= raw
    ensures 0.0 <= DiscountRatio(raw, discount)
  {
    if raw > 0.0 {
      DivMonotone(0.0, raw - discount as real, raw);
    }
  }

  lemma {:induction false} RequestedNonNegative(items: seq<OrderItem>, request: seq<ReturnItem>)
    ensures 0.0 <= RequestedTotal(items, request)
  {
    if request == [] {
    } else {
      var front, last := request[..|request| - 1], request[|request| - 1];
      RequestedNonNegative(items, front);
      assert request == front + [last];
      RequestAppend(items, front, last);
      var line := FindLine(items, last.product);
      if line.Some? {
        TimesNonNegative(line.value.priceAtPurchase, last.quantity);
      }
    }
  }

  lemma RequestedMonotone(items: seq<OrderItem>, less: seq<ReturnItem>, more: seq<ReturnItem>)
    requires |less| == |more|
    requires forall i :: 0 <= i < |less| ==>
      less[i].product == more[i].product && less[i].quantity <= more[i].quantity
    ensures 0.0 <= RequestedTotal(items, less) <= RequestedTotal(items, more)
  {
    RequestedNonNegative(items, less);
    forall i | 0 <= i < |less|
      ensures Requested(items, less[i]) <= Requested(items, more[i])
    {
      var line := FindLine(items, less[i].product);
      if line.Some? {
        TimesMonotone(line.value.priceAtPurchase, less[i].quantity, more[i].quantity);
      }
    }
    SumRealMonotone(RequestedValues(items, less), RequestedValues(items, more));
  }

  lemma PartScales(less: real, more: real, ratio: real) returns (small: real, large: real)
    requires 0.0 <= less <= more && 0.0 <= ratio
    ensures small == Part(less, ratio) && large == Part(more, ratio)
    ensures 0.0 <= small <= large
  {
    small, large := Part(less, ratio), Part(more, ratio);
    MulMonotone(0.0, less, ratio);
    MulMonotone(less, more, ratio);
  }

  lemma PartShrinks(less: real, more: real, ratio: real) returns (small: real, large: real)
    requires 0.0 <= less <= more && ratio < 0.0
    ensures small == Part(less, ratio) && large == Part(more, ratio)
    ensures large <= small <= 0.0
  {
    small, large := Part(less, ratio), Part(more, ratio);
    MulMonotone(0.0, less, -ratio);
    MulMonotone(less, more, -ratio);
    assert less * -ratio == -small && more * -ratio == -large;
  }

  /** What the rounding of the sum paid leaves above it: more than nothing, and at most a paisa. */
  function Room(items: seq<OrderItem>, discount: int): (r: real)
    ensures 0.0 < r <= 1.0
  {
    var net := Raw(items) - discount as real;
    Round(net) as real + 0.5 - net
  }

  /** The guard compares each requested item with the purchase on its own, so a request may repeat a product and be
      worth more than the order. On any order the refund stays within what was paid exactly when the discounted worth
      of what is asked for beyond the order's own value is below that room. So it does whenever no more is asked for
      than the order is worth, and never when the excess comes to a paisa. */
  lemma RefundWithinPaidIff(items: seq<OrderItem>, discount: int, request: seq<ReturnItem>)
    requires Raw(items) > 0.0 || (Raw(items) == 0.0 && discount == 0)
    ensures var excess := Part(RequestedTotal(items, request) - Raw(items), DiscountRatio(Raw(items), discount));
      && (Refund(items, discount, request) <= Round(Raw(items) - discount as real) <==> excess < Room(items, discount))
      && (discount as real <= Raw(items) && RequestedTotal(items, request) <= Raw(items) ==> excess <= 0.0)
  {
    RefundIsRoundedPart(items, discount, request);
    PaidShare(Raw(items), discount);
    if discount as real <= Raw(items) {
      RatioNonNegative(Raw(items), discount);
    }
    var net := Raw(items) - discount as real;
    var refund := ExcessOverNet(RequestedTotal(items, request), Raw(items), DiscountRatio(Raw(items), discount), net);
    RoundAtMostIff(refund, Round(net));
  }

  lemma ExcessOverNet(worth: real, raw: real, ratio: real, net: real) returns (refund: real)
    requires ratio * raw == net
    ensures refund == Part(worth, ratio) && refund == Part(worth - raw, ratio) + net
    ensures 0.0 <= ratio && worth <= raw ==> Part(worth - raw, ratio) <= 0.0
  {
    refund := Part(worth, ratio);
    Distributes(worth, raw, ratio);
    if 0.0 <= ratio && worth <= raw {
      MulMonotone(worth, raw, ratio);
    }
  }

  lemma Distributes(x: real, y: real, k: real)
    ensures (x - y) * k == x * k - y * k
  {
  }

  lemma RoundAtMostIff(x: real, n: int)
    ensures Round(x) <= n <==> x < n as real + 0.5
  {
    assert n < Round(x) ==> n as real + 1.0 <= Round(x) as real;
    assert Round(x) <= n ==> Round(x) as real <= n as real;
  }

  /** On an order of one line worth at least a paisa a unit that comes to counting units. */
  lemma SingleLineRefundWithinPaidIff(item: OrderItem, discount: int, request: seq<ReturnItem>)
    requires 0 <= discount && discount as real <= Raw([item]) && 0.0 < Raw([item])
    requires 1.0 <= Part(item.priceAtPurchase, DiscountRatio(Raw([item]), discount))
    requires forall i :: 0 <= i < |request| ==> request[i].product == item.product
    ensures Refund([item], discount, request) <= Round(Raw([item]) - discount as real)
       <==> Demand(ReturnParcels(request), item.product) <= item.quantity
  {
    var asked, ratio := Demand(ReturnParcels(request), item.product), DiscountRatio(Raw([item]), discount);
    SingleLineValues(item, request);
    RefundWithinPaidIff([item], discount, request);
    if asked <= item.quantity {
      TimesMonotone(item.priceAtPurchase, asked, item.quantity);
    } else {
      TimesAdd(item.priceAtPurchase, item.quantity, asked - item.quantity);
      NetOfUnits(ratio, item.priceAtPurchase, asked - item.quantity);
      OneUnit(Part(item.priceAtPurchase, ratio), asked - item.quantity);
    }
  }

  lemma OneUnit(net: real, units: nat)
    requires 0.0 <= net && 1 <= units
    ensures net <= Times(net, units)
  {
    assert Times(net, 1) == Times(net, 0) + net;
    TimesMonotone(net, 1, units);
  }

  lemma SingleLineValues(item: OrderItem, request: seq<ReturnItem>)
    requires forall i :: 0 <= i < |request| ==> request[i].product == item.product
    ensures Raw([item]) == Times(item.priceAtPurchase, item.quantity)
    ensures RequestedTotal([item], request) == Times(item.priceAtPurchase, Demand(ReturnParcels(request), item.product))
  {
    assert [item] == [item] + [];
    RequestedSplit(item, [], request);
    NothingAddsUp(RequestedValues([], Others(request, item.product)));
    RawSplit(item, []);
    assert Raw([]) == 0.0;
  }

  lemma {:induction false} NetOfUnits(ratio: real, price: real, units: nat)
    ensures Part(Times(price, units), ratio) == Times(Part(price, ratio), units)
  {
    if units == 0 {
    } else {
      NetOfUnits(ratio, price, units - 1);
      assert ratio * (Times(price, units - 1) + price) == ratio * Times(price, units - 1) + ratio * price;
    }
  }

  /** Naming the one unit bought twice passes every guard and refunds it twice. */
  lemma RepeatedProductRefundsTwice(ps: Catalogue, p: ProductId, images: nat)
    requires p in ps && ps[p].itemType != Innerwear && 0 < images
    ensures var items := [OrderItem(p, 1, 100.0, 100, 0, 0, 0, 0)];
      var request := [ReturnItem(p, 1), ReturnItem(p, 1)];
      Raw(items) == 100.0 && Estimate(ps, items, 0, request, images) == Success(200)
  {
    var item := OrderItem(p, 1, 100.0, 100, 0, 0, 0, 0);
    var r := ReturnItem(p, 1);
    UnitWorth(item, r);
    TwicePasses(ps, item, r);
    SharesAppend([item], 1.0, [], r);
    SharesAppend([item], 1.0, [r], r);
    assert [] + [r] == [r] && [r] + [r] == [r, r];
    assert RefundShares([item], 1.0, []) == [];
    RoundWhole(200);
  }

  lemma UnitWorth(item: OrderItem, r: ReturnItem)
    requires item.priceAtPurchase == 100.0 && item.quantity == 1 && r == ReturnItem(item.product, 1)
    ensures Raw([item]) == 100.0 && Share([item], 1.0, r) == 100.0
  {
    assert [item] == [item] + [];
    RawSplit(item, []);
    assert Raw([]) == 0.0;
    assert Times(100.0, 1) == Times(100.0, 0) + 100.0;
  }

  lemma TwicePasses(ps: Catalogue, item: OrderItem, r: ReturnItem)
    requires item.product in ps && ps[item.product].itemType != Innerwear && r == ReturnItem(item.product, 1)
    ensures FirstError(ps, [item], [r, r]).None?
  {
    assert CheckItem(ps, [item], r).None?;
    assert [r, r][..1] == [r] && [r][..0] == [];
    assert FirstError(ps, [item], [r]).None?;
  }
}
