/** What each request leaves of a stored cart (src/modules/cart/cart.service.ts). */
module CartEditLaws {
  import opened Wrappers
  import opened Documents
  import opened Stock
  import opened Reference
  import opened CartService
  import opened CartLaws
  import opened MergeLaws
  import opened BillLaws
  import opened CartRuns
  import opened Sums
  import CheckoutLaws
  import OrderStore
  import TaxEngine
  import CouponLaws
  import Coupons = CouponService
  import Pricing
  import Signature

  // ----- the coupon after any edit

  /** The cart's coupon holds for the goods on sale in it. */
  predicate CouponKept(doc: CartDoc, w: World) {
    && doc.appliedCoupon.Some? && doc.appliedCoupon.value in w.coupons
    && CouponHolds(w.coupons[doc.appliedCoupon.value], LiveWorth(w.products, doc.items), w.previousOrders == 0, None,
                   w.now)
  }

  /** It holds, and its rounding takes off more than the goods are worth. */
  ghost predicate OverDiscounted(doc: CartDoc, w: World) {
    CouponKept(doc, w)
    && var worth := LiveWorth(w.products, doc.items);
       exists d :: IsDiscount(w.coupons[doc.appliedCoupon.value], worth, d) && d as real > worth
  }

  /** A recalculation leaves the lines alone; it keeps the coupon exactly when it holds, at its worth, and otherwise
      takes coupon and discount away. */
  lemma CouponAfterEdit(doc: CartDoc, w: World)
    ensures var r, worth := Recalculate(doc, w), LiveWorth(w.products, doc.items);
      if doc.appliedCoupon.None? then r == doc
      else if CouponKept(doc, w) then
        && r == CartDoc(doc.items, doc.appliedCoupon, r.discountAmount, worth - r.discountAmount as real)
        && IsDiscount(w.coupons[doc.appliedCoupon.value], worth, r.discountAmount)
      else r == CartDoc(doc.items, None, 0, 0.0)
  {
    WorthOfActive(w.products, doc.items);
    if doc.appliedCoupon.Some? && doc.appliedCoupon.value in w.coupons {
      CouponLaws.AcceptedAtItsWorthIff(
        w.coupons[doc.appliedCoupon.value], LiveWorth(w.products, doc.items), w.previousOrders, None, w.now);
    }
  }

  lemma OneDiscount(c: Coupon, worth: real, d: int, e: int)
    requires IsDiscount(c, worth, d) && IsDiscount(c, worth, e)
    ensures d == e
  {
    var x :| IsLeast(x, DiscountCaps(c, worth)) && Nearest(d, x);
    var y :| IsLeast(y, DiscountCaps(c, worth)) && Nearest(e, y);
    assert x == y;
  }

  lemma OvershotIff(doc: CartDoc, w: World)
    ensures Overshot(doc, w) <==> OverDiscounted(doc, w)
  {
    WorthOfActive(w.products, doc.items);
    if doc.appliedCoupon.Some? && doc.appliedCoupon.value in w.coupons {
      var c, worth := w.coupons[doc.appliedCoupon.value], LiveWorth(w.products, doc.items);
      CheckoutLaws.SubTotalNonNegative(ActiveLines(doc.items, w.products));
      CouponLaws.AcceptedAtItsWorthIff(c, worth, w.previousOrders, None, w.now);
      CouponLaws.DiscountIsLeast(c, worth);
      Coupons.OvershootsIff(c, worth);
      if d :| IsDiscount(c, worth, d) && d as real > worth {
        OneDiscount(c, worth, d, Coupons.Discount(c, worth));
      }
    }
  }

  /** The edit is kept exactly when every line is within ten units and the coupon does not take off more than the goods
      are worth. */
  lemma EditIsKeptIff(doc: CartDoc, items: seq<CartItem>, w: World)
    requires Storable(doc)
    ensures var next := doc.(items := items);
      Commit(doc, Recalculate(next, w))
        == if (forall i :: 0 <= i < |items| ==> items[i].quantity <= 10) && !OverDiscounted(next, w)
           then Recalculate(next, w) else doc
  {
    RecalculatedIsStorableIff(doc.(items := items), w);
    OvershotIff(doc.(items := items), w);
  }

  // ----- lines

  /** The first line of a signature. */
  predicate IsFirstLine(items: seq<CartItem>, signature: string, k: nat) {
    && k < |items| && SignatureOfLine(items[k]) == signature
    && forall j :: 0 <= j < k ==> SignatureOfLine(items[j]) != signature
  }

  lemma {:induction false} FoundFirst(items: seq<CartItem>, signature: string, i: nat)
    requires i <= |items| && forall j :: 0 <= j < i ==> SignatureOfLine(items[j]) != signature
    ensures FindFrom(items, signature, i).Some? ==> IsFirstLine(items, signature, FindFrom(items, signature, i).value)
    decreases |items| - i
  {
    if i == |items| {
    } else if SignatureOfLine(items[i]) != signature {
      FoundFirst(items, signature, i + 1);
    }
  }

  /** An update takes effect exactly when the cart has a line of that variant, the product is on sale and stocked for
      what is asked, and the cart stays storable. It then sets that line's quantity, to one if none was given, and
      touches no other line. */
  lemma UpdateOutcome(doc: CartDoc, e: LineEdit, w: World) returns (line: Option<nat>)
    requires Storable(doc)
    ensures match line
      case None =>
        && (forall k :: 0 <= k < |doc.items| ==> SignatureOfLine(doc.items[k]) != e.Signature())
        && Serve(doc, Update(e), w) == doc
      case Some(k) =>
        var p, asked := LowerCase(e.productId), if e.quantity.Some? then e.quantity.value else 0;
        var wanted: Units := if e.quantity.Some? then e.quantity.value else 1;
        && IsFirstLine(doc.items, e.Signature(), k)
        && var item := doc.items[k].(quantity := wanted);
           var next := doc.(items := doc.items[k := item]);
           Serve(doc, Update(e), w)
             == if && OnShelf(w.products, p) && asked <= w.products[p].currentStock && wanted <= 10
                   && !OverDiscounted(next, w)
                then Recalculate(next, w) else doc
  {
    line := FindSignature(doc.items, e.Signature());
    FoundFirst(doc.items, e.Signature(), 0);
    if line.Some? {
      var item := doc.items[line.value].(quantity := if e.quantity.Some? then e.quantity.value else 1);
      var items := doc.items[line.value := item];
      EditIsKeptIff(doc, items, w);
      assert items[line.value] == item;
      assert (forall i :: 0 <= i < |items| ==> items[i].quantity <= 10) <==> item.quantity <= 10;
    }
  }

  lemma {:induction false} WithoutPicks(items: seq<CartItem>, productId: string) returns (places: seq<nat>)
    ensures Picks(items, Without(items, productId), places)
    ensures forall k :: k in places <==> 0 <= k < |items| && items[k].product != productId
  {
    if items == [] {
      places := [];
    } else {
      var n := |items| - 1;
      places := WithoutPicks(items[..n], productId);
      assert items == items[..n] + [items[n]];
      places := PicksNext(items[..n], items[n], Without(items[..n], productId), places, items[n].product != productId);
    }
  }

  /** A removal drops the lines of that product and keeps every other line, in order, unless the cart it leaves cannot
      be stored. */
  lemma RemoveOutcome(doc: CartDoc, productId: string, w: World) returns (kept: seq<CartItem>, places: seq<nat>)
    requires Storable(doc)
    ensures Picks(doc.items, kept, places)
    ensures forall k :: k in places <==> 0 <= k < |doc.items| && doc.items[k].product != productId
    ensures var next := doc.(items := kept);
      Serve(doc, Remove(productId), w) == if OverDiscounted(next, w) then doc else Recalculate(next, w)
  {
    kept := Without(doc.items, productId);
    places := WithoutPicks(doc.items, productId);
    EditIsKeptIff(doc, kept, w);
  }

  /** A coupon goes on the cart exactly when there is something in it, the coupon exists and holds, and it does not take
      off more than the goods are worth; the lines stay. */
  lemma ApplyOutcome(doc: CartDoc, c: CouponId, w: World)
    requires Storable(doc)
    ensures var next, r := doc.(appliedCoupon := Some(c)), Serve(doc, Apply(c), w);
      if |doc.items| != 0 && CouponKept(next, w) && !OverDiscounted(next, w) then
        var worth := LiveWorth(w.products, doc.items);
        && r == CartDoc(doc.items, Some(c), r.discountAmount, worth - r.discountAmount as real)
        && IsDiscount(w.coupons[c], worth, r.discountAmount)
      else r == doc
  {
    var next := doc.(appliedCoupon := Some(c));
    RecalculatedIsStorableIff(next, w);
    OvershotIff(next, w);
    CouponAfterEdit(next, w);
    WorthOfActive(w.products, doc.items);
    if c in w.coupons {
      var worth := LiveWorth(w.products, doc.items);
      CouponLaws.AcceptedAtItsWorthIff(w.coupons[c], worth, w.previousOrders, None, w.now);
      var r := Coupons.ValidateAndCalculateDiscount(w.coupons[c], worth, w.previousOrders, None, w.now);
      if doc.items != [] && CouponKept(next, w) {
        assert WithCoupon(doc, c, w).value
            == CartDoc(doc.items, Some(c), r.value, worth - r.value as real) == Recalculate(next, w);
      }
    }
  }

  /** Why a coupon does not go on, in the order the reasons are looked at. */
  lemma ApplyRefusals(doc: CartDoc, c: CouponId, w: World)
    ensures var r := WithCoupon(doc, c, w);
      if |doc.items| == 0 then r == Failure(EmptyCart)
      else if c !in w.coupons then r == Failure(NotFound)
      else if !CouponKept(doc.(appliedCoupon := Some(c)), w) then r == Failure(CouponInvalid)
      else r.Success?
  {
    WorthOfActive(w.products, doc.items);
    if c in w.coupons {
      CouponLaws.AcceptedAtItsWorthIff(w.coupons[c], LiveWorth(w.products, doc.items), w.previousOrders, None, w.now);
    }
  }

  /** Adding takes effect exactly when the product is on sale and stocked for what the variant's line would then hold,
      and the cart stays storable. It raises that line, or opens one. */
  lemma AddOutcome(doc: CartDoc, g: GuestItem, w: World) returns (line: Option<nat>)
    requires Storable(doc)
    ensures match line
      case None => forall k :: 0 <= k < |doc.items| ==> SignatureOfLine(doc.items[k]) != SignatureOfGuest(g)
      case Some(k) => IsFirstLine(doc.items, SignatureOfGuest(g), k)
    ensures var p, held := LowerCase(g.productId), if line.Some? then doc.items[line.value].quantity else 0;
      var next := doc.(items := Raised(doc.items, line, g));
      Serve(doc, Add(g), w)
        == if && OnShelf(w.products, p) && held + g.quantity <= w.products[p].currentStock
              && held + g.quantity <= 10 && !OverDiscounted(next, w)
           then Recalculate(next, w) else doc
  {
    line := FindSignature(doc.items, SignatureOfGuest(g));
    FoundFirst(doc.items, SignatureOfGuest(g), 0);
    if CanAdd(doc, g, w) {
      AddedLine(doc.items, g, w.products);
      EditIsKeptIff(doc, MergeOne(doc.items, w.products, g), w);
    }
  }

  /** Merging one item that fits the stock raises its line, or opens one. */
  lemma AddedLine(items: seq<CartItem>, g: GuestItem, ps: Catalogue)
    requires Mergeable(ps, g)
    requires LineQuantity(items, SignatureOfGuest(g)) + g.quantity <= ps[g.Product()].currentStock
    ensures MergeOne(items, ps, g) == Raised(items, FindSignature(items, SignatureOfGuest(g)), g)
    ensures WithinLineCap(items) ==>
      (WithinLineCap(MergeOne(items, ps, g)) <==> LineQuantity(items, SignatureOfGuest(g)) + g.quantity <= 10)
  {
    CapOfRaised(items, FindSignature(items, SignatureOfGuest(g)), g);
  }

  /** The lines with the item's units on this line, or on a line of their own. */
  function Raised(items: seq<CartItem>, line: Option<nat>, g: GuestItem): seq<CartItem>
    requires line.Some? ==> line.value < |items|
  {
    match line
    case Some(k) => items[k := items[k].(quantity := items[k].quantity + g.quantity)]
    case None => items + [CartItem(LowerCase(g.productId), g.quantity, Signature.Normalize(g.attributes))]
  }

  lemma CapOfRaised(items: seq<CartItem>, line: Option<nat>, g: GuestItem)
    requires line.Some? ==> line.value < |items|
    ensures WithinLineCap(items) ==>
      (WithinLineCap(Raised(items, line, g))
       <==> (if line.Some? then items[line.value].quantity else 0) + g.quantity <= 10)
  {
    var k := if line.Some? then line.value else |items|;
    assert Raised(items, line, g)[k].quantity == (if line.Some? then items[line.value].quantity else 0) + g.quantity;
  }

  /** A merge takes effect exactly when every item that can be merged asks for at most ten units, with its line and
      alone, and the cart stays storable. */
  lemma MergeOutcome(doc: CartDoc, guests: seq<GuestItem>, w: World)
    requires Storable(doc) && StoredIds(doc.items) && RequestIds(guests)
    ensures var next := doc.(items := MergeAll(doc.items, w.products, guests));
      Serve(doc, Merge(guests), w)
        == if RequestWithinCap(doc.items, w.products, guests) && !OverDiscounted(next, w)
           then Recalculate(next, w) else doc
  {
    GuestMergeCommitsIff(doc, w, guests);
    OvershotIff(doc.(items := MergeAll(doc.items, w.products, guests)), w);
  }

  /** The hexadecimal digits in capitals become small, and nothing else changes. */
  lemma LowerCaseIs(text: string, i: nat)
    requires i < |text|
    ensures |LowerCase(text)| == |text|
    ensures LowerCase(text)[i] ==
      match text[i]
      case 'A' => 'a'
      case 'B' => 'b'
      case 'C' => 'c'
      case 'D' => 'd'
      case 'E' => 'e'
      case 'F' => 'f'
      case c => c
  {
  }

  // ----- showing the cart

  lemma {:induction false} ActivePicks(items: seq<CartItem>, ps: Catalogue) returns (places: seq<nat>)
    ensures Picks(items, ActiveItems(items, ps), places)
    ensures forall k :: k in places <==> 0 <= k < |items| && OnShelf(ps, items[k].product)
  {
    if items == [] {
      places := [];
    } else {
      var n := |items| - 1;
      places := ActivePicks(items[..n], ps);
      assert items == items[..n] + [items[n]];
      places := PicksNext(items[..n], items[n], ActiveItems(items[..n], ps), places, OnShelf(ps, items[n].product));
    }
  }

  /** Showing a cart keeps the lines on sale, in order, and re-prices its coupon. The result is stored exactly when a
      line was dropped or the discount changed; when it would then be refused, the page fails and the cart stays. */
  lemma ShowOutcome(doc: CartDoc, w: World) returns (kept: seq<CartItem>, places: seq<nat>)
    requires Storable(doc)
    ensures Picks(doc.items, kept, places)
    ensures forall k :: k in places <==> 0 <= k < |doc.items| && OnShelf(w.products, doc.items[k].product)
    ensures var next := doc.(items := kept);
      IsShown(doc, w, Recalculate(next, w), OverDiscounted(next, w))
  {
    kept := ActiveItems(doc.items, w.products);
    places := ActivePicks(doc.items, w.products);
    HealedIsKeptIff(doc, w);
    ShownByCase(doc, w);
  }

  /** What is stored and answered, given the healed cart and whether it would be refused. */
  predicate IsShown(doc: CartDoc, w: World, healed: CartDoc, refused: bool) {
    if healed.items == doc.items && healed.discountAmount == doc.discountAmount then
      Serve(doc, Show, w) == doc && CartReply(doc, w) == QuoteFor(doc, w)
    else if refused then
      Serve(doc, Show, w) == doc && CartReply(doc, w) == Failure(SchemaViolation)
    else
      Serve(doc, Show, w) == healed && CartReply(doc, w) == QuoteFor(doc, w)
  }

  lemma ShownByCase(doc: CartDoc, w: World)
    ensures IsShown(doc, w, Healed(doc, w), !Storable(Healed(doc, w)))
  {
    assert Healed(doc, w).items == ActiveItems(doc.items, w.products);
  }

  lemma HealedIsKeptIff(doc: CartDoc, w: World)
    requires Storable(doc)
    ensures Storable(Healed(doc, w)) <==> !OverDiscounted(doc.(items := ActiveItems(doc.items, w.products)), w)
  {
    var next := doc.(items := ActiveItems(doc.items, w.products));
    HealedQuantities(doc, w);
    RecalculatedIsStorableIff(next, w);
    OvershotIff(next, w);
  }

  predicate IsQuotedLine(ps: Catalogue, item: CartItem, worth: real, discount: int, t: TaxEngine.TaxResult) {
    && item.product in ps
    && IsTaxed(ps[item.product], item.quantity, worth, discount, t.taxableValue, t.gstRate, t.totalTax)
  }

  predicate IsQuotedTotal(worth: real, discount: int, q: Quote) {
    && q.totalTax == Sum(seq(|q.lines|, j requires 0 <= j < |q.lines| => q.lines[j].totalTax))
    && q.estimatedShipping == (if worth - discount as real > 200000.0 then 0 else 10000)
    && q.shippingTax == (if q.estimatedShipping == 0 then 0 else 1525)
    && Nearest(q.grandTotal, worth - discount as real + (q.totalTax + q.estimatedShipping) as real)
  }

  /** The quote for these lines under this discount. */
  predicate IsQuote(ps: Catalogue, items: seq<CartItem>, discount: int, q: Quote) {
    && |q.lines| == |items|
    && (forall j :: 0 <= j < |items| ==> IsQuotedLine(ps, items[j], LiveWorth(ps, items), discount, q.lines[j]))
    && IsQuotedTotal(LiveWorth(ps, items), discount, q)
  }

  /** The page prices the lines on sale, in order, under the re-priced coupon: every line is taxed by the rules and the
      totals are over those lines. It fails exactly for an unknown tax profile. */
  lemma PageOutcome(doc: CartDoc, w: World) returns (kept: seq<CartItem>, places: seq<nat>)
    requires Consistent(doc)
    ensures Picks(doc.items, kept, places)
    ensures forall k :: k in places <==> 0 <= k < |doc.items| && OnShelf(w.products, doc.items[k].product)
    ensures IsPage(w, kept, Recalculate(doc.(items := kept), w).discountAmount, QuoteFor(doc, w))
  {
    kept := ActiveItems(doc.items, w.products);
    places := ActivePicks(doc.items, w.products);
    PageOfActive(doc, w);
  }

  predicate IsPage(w: World, kept: seq<CartItem>, discount: int, r: Result<Quote, AppError>) {
    if ProfilesKnown(w.products, kept) then r.Success? && IsQuote(w.products, kept, discount, r.value)
    else r == Failure(UnrecognizedTaxProfile)
  }

  lemma PageOfActive(doc: CartDoc, w: World)
    requires Consistent(doc)
    ensures IsPage(w, ActiveItems(doc.items, w.products), Healed(doc, w).discountAmount, QuoteFor(doc, w))
  {
    RestIsDue(doc, w);
    PageOfLines(w, ActiveItems(doc.items, w.products), Healed(doc, w).discountAmount);
  }

  lemma PageOfLines(w: World, kept: seq<CartItem>, discount: int)
    requires forall k :: 0 <= k < |kept| ==> kept[k].product in w.products && OnShelf(w.products, kept[k].product)
    ensures var lines := OrderStore.LinesFor(w.products, kept);
      IsPage(w, kept, discount, QuoteOf(lines, discount, LiveWorth(w.products, kept) - discount as real))
  {
    TaxableIff(w.products, kept);
    if Pricing.Taxable(OrderStore.LinesFor(w.products, kept)) {
      QuoteIsBilled(w.products, kept, discount);
    }
  }

  /** With a coupon or without one, what the page prices on is the goods on sale less the discount. */
  lemma RestIsDue(doc: CartDoc, w: World)
    requires Consistent(doc)
    ensures var kept, healed := ActiveItems(doc.items, w.products), Healed(doc, w);
      (if healed.appliedCoupon.Some? then healed.totalAfterDiscount
       else Pricing.SubTotal(OrderStore.LinesFor(w.products, kept)))
        == LiveWorth(w.products, kept) - healed.discountAmount as real
  {
    var kept := ActiveItems(doc.items, w.products);
    WorthOfAll(w.products, kept);
    CouponAfterEdit(doc.(items := kept), w);
  }

  lemma QuoteIsBilled(ps: Catalogue, items: seq<CartItem>, discount: int)
    requires forall k :: 0 <= k < |items| ==> items[k].product in ps && OnShelf(ps, items[k].product)
    requires Pricing.Taxable(OrderStore.LinesFor(ps, items))
    ensures var r := QuoteOf(OrderStore.LinesFor(ps, items), discount, LiveWorth(ps, items) - discount as real);
      r.Success? && IsQuote(ps, items, discount, r.value)
  {
    var lines, worth := OrderStore.LinesFor(ps, items), LiveWorth(ps, items);
    WorthOfAll(ps, items);
    var q := QuoteOf(lines, discount, worth - discount as real).value;
    assert |q.lines| == |items|;
    forall j | 0 <= j < |items|
      ensures IsQuotedLine(ps, items[j], worth, discount, q.lines[j])
    {
      LineIsQuoted(ps, items, discount, j);
    }
    QuoteIsTotalled(lines, discount);
  }

  lemma LineIsQuoted(ps: Catalogue, items: seq<CartItem>, discount: int, j: nat)
    requires forall k :: 0 <= k < |items| ==> items[k].product in ps
    requires j < |items| && Pricing.Taxable(OrderStore.LinesFor(ps, items))
    ensures IsQuotedLine(ps, items[j], LiveWorth(ps, items), discount,
                         Pricing.LineTax(OrderStore.LinesFor(ps, items)[j], LiveWorth(ps, items), discount))
  {
    assert !OrderStore.LinesFor(ps, items)[j].profile.Unrecognized?;
    LineIsTaxed(ps, items[j], LiveWorth(ps, items), discount);
  }

  lemma QuoteIsTotalled(lines: seq<Pricing.Line>, discount: int)
    requires Pricing.Taxable(lines)
    ensures var worth := Pricing.SubTotal(lines);
      IsQuotedTotal(worth, discount, QuoteOf(lines, discount, worth - discount as real).value)
  {
    var worth := Pricing.SubTotal(lines);
    var q := QuoteOf(lines, discount, worth - discount as real).value;
    assert seq(|q.lines|, j requires 0 <= j < |q.lines| => q.lines[j].totalTax)
        == Pricing.LineTaxes(lines, worth, discount);
    TaxEngine.ShippingTaxValue(q.estimatedShipping);
  }

  // ----- emptying

  /** Clearing and ordering leave the empty cart; taking the coupon off leaves the lines. */
  lemma EmptyingOutcome(doc: CartDoc, w: World)
    ensures Serve(doc, Clear, w) == Serve(doc, Request.Order, w) == CartDoc([], None, 0, 0.0)
    ensures Serve(doc, RemoveCoupon, w) == CartDoc(doc.items, None, 0, 0.0)
  {
  }
}
