/** Which return requests are taken, what they promise, and why the others are refused
    (src/modules/returns/return.service.ts). */
module ReturnLaws {
  import opened Wrappers
  import opened Money
  import opened Sums
  import opened Documents
  import opened Stock
  import opened OrderStore
  import opened Refunds
  import opened Reference
  import RefundLaws

  // ----- the items

  /** The order's first line of a product, the one a request is compared with. */
  predicate IsFirstLine(items: seq<OrderItem>, p: ProductId, j: nat) {
    && j < |items| && items[j].product == p
    && forall h :: 0 <= h < j ==> items[h].product != p
  }

  lemma {:induction false} FoundLineIsFirst(items: seq<OrderItem>, p: ProductId) returns (j: nat)
    ensures FindLine(items, p).Some? ==> IsFirstLine(items, p, j) && FindLine(items, p) == Some(items[j])
  {
    if items == [] || items[0].product == p {
      j := 0;
    } else {
      var k := FoundLineIsFirst(items[1..], p);
      j := k + 1;
    }
  }

  lemma FirstLineIsFound(items: seq<OrderItem>, p: ProductId, j: nat)
    requires IsFirstLine(items, p, j)
    ensures FindLine(items, p) == Some(items[j])
  {
    var k := FoundLineIsFirst(items, p);
    assert j < k || k < j || j == k;
  }

  /** The order's first line of that product sold at least that many. */
  ghost predicate IsSold(items: seq<OrderItem>, r: ReturnItem) {
    exists j: nat :: IsFirstLine(items, r.product, j) && r.quantity <= items[j].quantity
  }

  ghost predicate IsReturnable(ps: Catalogue, items: seq<OrderItem>, r: ReturnItem) {
    IsSold(items, r) && r.product in ps && !ps[r.product].itemType.Innerwear?
  }

  /** Why an item is refused. */
  ghost predicate IsRefusal(ps: Catalogue, items: seq<OrderItem>, r: ReturnItem, e: AppError) {
    if forall j :: 0 <= j < |items| ==> items[j].product != r.product then e == NotPurchased
    else if !IsSold(items, r) then e == QuantityTooLarge
    else if r.product !in ps then e == NotFound
    else ps[r.product].itemType.Innerwear? && e == HygienePolicy
  }

  lemma ItemOutcome(ps: Catalogue, items: seq<OrderItem>, r: ReturnItem)
    ensures match CheckItem(ps, items, r)
      case None => IsReturnable(ps, items, r)
      case Some(e) => !IsReturnable(ps, items, r) && IsRefusal(ps, items, r, e)
  {
    var j := FoundLineIsFirst(items, r.product);
    if k: nat :| IsFirstLine(items, r.product, k) && r.quantity <= items[k].quantity {
      FirstLineIsFound(items, r.product, k);
    }
  }

  /** The first item that cannot be returned decides the error. */
  lemma {:induction false} FirstRefusalDecides(ps: Catalogue, items: seq<OrderItem>, request: seq<ReturnItem>)
    returns (k: nat)
    ensures k <= |request| && forall h :: 0 <= h < k ==> IsReturnable(ps, items, request[h])
    ensures match FirstError(ps, items, request)
      case None => k == |request|
      case Some(e) =>
        k < |request| && !IsReturnable(ps, items, request[k]) && IsRefusal(ps, items, request[k], e)
  {
    if request == [] {
      k := 0;
    } else {
      var n := |request| - 1;
      k := FirstRefusalDecides(ps, items, request[..n]);
      assert forall h :: 0 <= h < n ==> request[..n][h] == request[h];
      if k == n {
        ItemOutcome(ps, items, request[n]);
        k := if FirstError(ps, items, request).None? then n + 1 else n;
      }
    }
  }

  // ----- the estimate

  /** The goods at purchase prices. */
  function PurchaseWorth(items: seq<OrderItem>): real {
    if items == [] then 0.0
    else
      var last := items[|items| - 1];
      PurchaseWorth(items[..|items| - 1]) + last.priceAtPurchase * last.quantity as real
  }

  /** What the request asks for at the prices of the lines it is compared with. */
  function AskedWorth(items: seq<OrderItem>, request: seq<ReturnItem>, lines: seq<nat>): real
    requires |lines| == |request| && forall k :: 0 <= k < |lines| ==> lines[k] < |items|
  {
    if request == [] then 0.0
    else
      var n := |request| - 1;
      AskedWorth(items, request[..n], lines[..n]) + items[lines[n]].priceAtPurchase * request[n].quantity as real
  }

  predicate AreFirstLines(items: seq<OrderItem>, request: seq<ReturnItem>, lines: seq<nat>) {
    |lines| == |request| && forall k :: 0 <= k < |lines| ==> IsFirstLine(items, request[k].product, lines[k])
  }

  lemma {:induction false} RawIsPurchaseWorth(items: seq<OrderItem>)
    ensures Raw(items) == PurchaseWorth(items)
  {
    var values := seq(|items|, i requires 0 <= i < |items| => LineValue(items[i]));
    if items == [] {
      assert values == [];
    } else {
      var n := |items| - 1;
      var front := seq(n, i requires 0 <= i < n => LineValue(items[..n][i]));
      RawIsPurchaseWorth(items[..n]);
      assert values == front + [LineValue(items[n])];
      SumRealAppend(front, LineValue(items[n]));
      TimesIsProduct(items[n].priceAtPurchase, items[n].quantity);
    }
  }

  lemma {:induction false} RequestedIsAskedWorth(items: seq<OrderItem>, request: seq<ReturnItem>, lines: seq<nat>)
    requires AreFirstLines(items, request, lines)
    ensures RefundLaws.RequestedTotal(items, request) == AskedWorth(items, request, lines)
  {
    if request == [] {
    } else {
      var n := |request| - 1;
      assert request == request[..n] + [request[n]];
      RequestedIsAskedWorth(items, request[..n], lines[..n]);
      RefundLaws.RequestAppend(items, request[..n], request[n]);
      FirstLineIsFound(items, request[n].product, lines[n]);
      TimesIsProduct(items[lines[n]].priceAtPurchase, request[n].quantity);
    }
  }

  /** The asked-for goods less their share of the coupon. */
  function Prorated(asked: real, all: real, discount: int): real {
    if all > 0.0 then asked * (all - discount as real) / all else asked
  }

  /** The estimate is that, to the nearest paisa. */
  lemma RefundIsProrated(items: seq<OrderItem>, discount: int, request: seq<ReturnItem>, lines: seq<nat>)
    requires AreFirstLines(items, request, lines)
    ensures Nearest(Refund(items, discount, request),
                    Prorated(AskedWorth(items, request, lines), PurchaseWorth(items), discount))
  {
    RawIsPurchaseWorth(items);
    RequestedIsAskedWorth(items, request, lines);
    RefundLaws.RefundIsRoundedPart(items, discount, request);
    ProratedForms(AskedWorth(items, request, lines), PurchaseWorth(items), discount);
  }

  lemma ProratedForms(asked: real, all: real, discount: int)
    ensures Part(asked, DiscountRatio(all, discount)) == Prorated(asked, all, discount)
  {
    if all > 0.0 {
      Quotients(asked, all - discount as real, all);
    }
  }

  lemma Quotients(x: real, y: real, z: real)
    requires z != 0.0
    ensures x * (y / z) == x * y / z
  {
  }

  lemma {:induction false} FirstLinesOf(ps: Catalogue, items: seq<OrderItem>, request: seq<ReturnItem>)
    returns (lines: seq<nat>)
    requires forall k :: 0 <= k < |request| ==> IsReturnable(ps, items, request[k])
    ensures AreFirstLines(items, request, lines)
  {
    if request == [] {
      lines := [];
    } else {
      var n := |request| - 1;
      var front := FirstLinesOf(ps, items, request[..n]);
      assert IsSold(items, request[n]);
      var j: nat :| IsFirstLine(items, request[n].product, j) && request[n].quantity <= items[j].quantity;
      lines := front + [j];
    }
  }

  // ----- the request

  ghost predicate AllReturnable(ps: Catalogue, items: seq<OrderItem>, request: seq<ReturnItem>) {
    forall k :: 0 <= k < |request| ==> IsReturnable(ps, items, request[k])
  }

  predicate SomeFragile(ps: Catalogue, request: seq<ReturnItem>) {
    exists k :: 0 <= k < |request| && request[k].product in ps && ps[request[k].product].isFragile
  }

  /** What the return of these lines is worth. */
  function Promised(o: Order, request: seq<ReturnItem>, lines: seq<nat>): real
    requires AreFirstLines(o.items, request, lines)
  {
    Prorated(AskedWorth(o.items, request, lines), PurchaseWorth(o.items), o.pricing.discountAmount)
  }

  /** A return awaiting approval is on file, promising that worth, and the order is marked. */
  ghost predicate IsOpened(s: Store, i: nat, request: seq<ReturnItem>, lines: seq<nat>, after: Store)
    requires i < |s.orders| && AreFirstLines(s.orders[i].items, request, lines)
  {
    exists estimate ::
      && Nearest(estimate, Promised(s.orders[i], request, lines))
      && after == s.(orders := s.orders[i := s.orders[i].(orderStatus := ReturnRequested)],
                     rmas := s.rmas[i := Return(request, PendingApproval, estimate)])
  }

  /** Every outcome of a request: the first of these that fails names the error, and it is taken if none does. `lines`
      are the order lines its items are compared with, as far as they can go back. */
  lemma RequestOutcome(s: Store, i: nat, user: UserId, windowOpen: bool, request: seq<ReturnItem>, images: nat)
    returns (lines: seq<nat>)
    ensures var r := InitiateReturn(s, i, user, windowOpen, request, images);
      if i >= |s.orders| || s.orders[i].user != user then r == Failure(NotFound)
      else
        var o := s.orders[i];
        if !o.orderStatus.Delivered? then r == Failure(WrongState)
        else if !windowOpen then r == Failure(ReturnWindowClosed)
        else if !AllReturnable(s.products, o.items, request) then
          r.Failure? && IsFirstRefusal(s.products, o.items, request, |lines|, r.error)
        else if SomeFragile(s.products, request) && images == 0 then r == Failure(ProofRequired)
        else
          && AreFirstLines(o.items, request, lines)
          && if Promised(o, request, lines) < -0.5 then r == Failure(SchemaViolation)
             else if i in s.rmas then r == Failure(DuplicateReturn)
             else r.Success? && IsOpened(s, i, request, lines, r.value)
  {
    lines := [];
    if i < |s.orders| {
      var o := s.orders[i];
      var k := FirstRefusalDecides(s.products, o.items, request);
      lines := FirstLinesOf(s.products, o.items, request[..k]);
      if AllReturnable(s.products, o.items, request) {
        assert request[..k] == request;
        RefundIsProrated(o.items, o.pricing.discountAmount, request, lines);
        assert Nearest(Refund(o.items, o.pricing.discountAmount, request), Promised(o, request, lines));
      }
    }
  }

  ghost predicate IsFirstRefusal(ps: Catalogue, items: seq<OrderItem>, request: seq<ReturnItem>, k: nat, e: AppError) {
    && k < |request| && IsRefusal(ps, items, request[k], e)
    && forall h :: 0 <= h < k ==> IsReturnable(ps, items, request[h])
  }

  /** The one request that is taken: its owner's, of a delivered order, within the window, of goods that can go back,
      with a photograph of fragile ones, promising no less than nothing, and with no return on file. */
  lemma RequestIsTakenIff(s: Store, i: nat, user: UserId, windowOpen: bool, request: seq<ReturnItem>, images: nat)
    returns (lines: seq<nat>)
    ensures i < |s.orders| && AllReturnable(s.products, s.orders[i].items, request) ==>
      AreFirstLines(s.orders[i].items, request, lines)
    ensures var r := InitiateReturn(s, i, user, windowOpen, request, images);
      && (r.Success? <==>
            && i < |s.orders| && s.orders[i].user == user && s.orders[i].orderStatus.Delivered? && windowOpen
            && AllReturnable(s.products, s.orders[i].items, request)
            && (SomeFragile(s.products, request) ==> 0 < images)
            && -0.5 <= Promised(s.orders[i], request, lines)
            && i !in s.rmas)
      && (r.Success? ==> IsOpened(s, i, request, lines, r.value))
  {
    lines := RequestOutcome(s, i, user, windowOpen, request, images);
    if i < |s.orders| && AllReturnable(s.products, s.orders[i].items, request) {
      lines := FirstLinesOf(s.products, s.orders[i].items, request);
      RefundIsProrated(s.orders[i].items, s.orders[i].pricing.discountAmount, request, lines);
      NothingRefused(s.products, s.orders[i].items, request);
    }
  }

  lemma NothingRefused(ps: Catalogue, items: seq<OrderItem>, request: seq<ReturnItem>)
    requires AllReturnable(ps, items, request)
    ensures FirstError(ps, items, request).None?
  {
    var k := FirstRefusalDecides(ps, items, request);
  }
}
