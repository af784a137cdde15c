/** Stage 1 of a return: which requests are accepted, and the prorated refund
    (src/modules/returns/return.service.ts). */
module Refunds {
  import opened Wrappers
  import opened Money
  import opened Sums
  import opened Documents
  import opened Stock

  /** `order.items.find`: the first line of the product, so only that variant of it. */
  function FindLine(items: seq<OrderItem>, p: ProductId): (r: Option<OrderItem>)
    ensures r.Some? ==> r.value in items && r.value.product == p
    ensures r.None? ==> forall i :: 0 <= i < |items| ==> items[i].product != p
  {
    if items == [] then None
    else if items[0].product == p then Some(items[0])
    else FindLine(items[1..], p)
  }

  function LineValue(item: OrderItem): real {
    Times(item.priceAtPurchase, item.quantity)
  }

  /** `rawSubtotal`: the order at purchase prices, before the coupon. */
  function Raw(items: seq<OrderItem>): real {
    SumReal(seq(|items|, i requires 0 <= i < |items| => LineValue(items[i])))
  }

  /** The share of the raw subtotal that was paid for. */
  function DiscountRatio(raw: real, discount: int): real {
    if raw > 0.0 then (raw - discount as real) / raw else 1.0
  }

  /** A requested return at purchase price; a product that was not bought is worth nothing. */
  function Requested(items: seq<OrderItem>, r: ReturnItem): real {
    var line := FindLine(items, r.product);
    if line.Some? then Times(line.value.priceAtPurchase, r.quantity) else 0.0
  }

  function RequestedValues(items: seq<OrderItem>, request: seq<ReturnItem>): seq<real> {
    seq(|request|, i requires 0 <= i < |request| => Requested(items, request[i]))
  }

  function Share(items: seq<OrderItem>, ratio: real, r: ReturnItem): real {
    Part(Requested(items, r), ratio)
  }

  function RefundShares(items: seq<OrderItem>, ratio: real, request: seq<ReturnItem>): seq<real> {
    seq(|request|, i requires 0 <= i < |request| => Share(items, ratio, request[i]))
  }

  function Refund(items: seq<OrderItem>, discount: int, request: seq<ReturnItem>): int {
    Round(SumReal(RefundShares(items, DiscountRatio(Raw(items), discount), request)))
  }

  /** The guards on one requested item, in the order of the source. */
  function CheckItem(ps: Catalogue, items: seq<OrderItem>, r: ReturnItem): Option<AppError> {
    var line := FindLine(items, r.product);
    if line.None? then Some(NotPurchased)
    else if r.quantity > line.value.quantity then Some(QuantityTooLarge)
    else if r.product !in ps then Some(NotFound)
    else if ps[r.product].itemType == Innerwear then Some(HygienePolicy)
    else None
  }

  function FirstError(ps: Catalogue, items: seq<OrderItem>, request: seq<ReturnItem>): Option<AppError> {
    if request == [] then None
    else
      var earlier := FirstError(ps, items, request[..|request| - 1]);
      if earlier.Some? then earlier else CheckItem(ps, items, request[|request| - 1])
  }

  predicate NeedsProof(ps: Catalogue, request: seq<ReturnItem>) {
    exists i :: 0 <= i < |request| && request[i].product in ps && ps[request[i].product].isFragile
  }

  function Estimate(ps: Catalogue, items: seq<OrderItem>, discount: int, request: seq<ReturnItem>, images: nat)
    : Result<int, AppError>
  {
    var error := FirstError(ps, items, request);
    if error.Some? then Failure(error.value)
    else if NeedsProof(ps, request) && images == 0 then Failure(ProofRequired)
    else Success(Refund(items, discount, request))
  }

  /** The loop of stage 1: guard, accumulate, and round once at the end. */
  method EstimateRefund(ps: Catalogue, items: seq<OrderItem>, discount: int, request: seq<ReturnItem>, images: nat)
    returns (r: Result<int, AppError>)
    ensures r == Estimate(ps, items, discount, request, images)
  {
    var discountRatio := DiscountRatio(Raw(items), discount);
    var estimatedRefund := 0.0;
    var requiresPhotographicProof := false;
    var i := 0;
    while i < |request|
      invariant 0 <= i <= |request|
      invariant FirstError(ps, items, request[..i]).None?
      invariant estimatedRefund == SumReal(RefundShares(items, discountRatio, request[..i]))
      invariant requiresPhotographicProof <==> NeedsProof(ps, request[..i])
    {
      var item := request[i];
      assert request[..i + 1] == request[..i] + [item];
      assert request[..i + 1][..i] == request[..i];
      var error := CheckItem(ps, items, item);
      if error.Some? {
        FirstErrorStays(ps, items, request, i + 1);
        return Failure(error.value);
      }
      if ps[item.product].isFragile {
        requiresPhotographicProof := true;
        assert request[..i + 1][i] == item;
      }
      SharesAppend(items, discountRatio, request[..i], item);
      estimatedRefund := estimatedRefund + Share(items, discountRatio, item);
      NeedsProofAppend(ps, request[..i], item);
      i := i + 1;
    }
    assert request[..i] == request;
    if requiresPhotographicProof && images == 0 {
      return Failure(ProofRequired);
    }
    r := Success(Round(estimatedRefund));
  }

  lemma SharesAppend(items: seq<OrderItem>, ratio: real, request: seq<ReturnItem>, item: ReturnItem)
    ensures SumReal(RefundShares(items, ratio, request + [item]))
         == SumReal(RefundShares(items, ratio, request)) + Share(items, ratio, item)
  {
    var share := Share(items, ratio, item);
    assert RefundShares(items, ratio, request + [item]) == RefundShares(items, ratio, request) + [share];
    SumRealAppend(RefundShares(items, ratio, request), share);
  }

  lemma NeedsProofAppend(ps: Catalogue, request: seq<ReturnItem>, item: ReturnItem)
    ensures NeedsProof(ps, request + [item])
       <==> NeedsProof(ps, request) || (item.product in ps && ps[item.product].isFragile)
  {
    var all := request + [item];
    if NeedsProof(ps, request) {
      var i :| 0 <= i < |request| && request[i].product in ps && ps[request[i].product].isFragile;
      assert all[i] == request[i];
    }
    assert all[|request|] == item;
  }

  lemma {:induction false} FirstErrorStays(ps: Catalogue, items: seq<OrderItem>, request: seq<ReturnItem>, i: nat)
    requires i <= |request| && FirstError(ps, items, request[..i]).Some?
    ensures FirstError(ps, items, request) == FirstError(ps, items, request[..i])
  {
    if i < |request| {
      var front := request[..|request| - 1];
      assert front[..i] == request[..i];
      FirstErrorStays(ps, items, front, i);
    } else {
      assert request[..i] == request;
    }
  }
}
