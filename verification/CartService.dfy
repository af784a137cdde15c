/** The cart document and the operations that edit and price it (src/modules/cart/cart.service.ts). The catalogue, the
    coupons, the user's order count and the clock are read, not written. */
module CartService {
  import opened Wrappers
  import opened Money
  import opened Documents
  import opened Signature
  import opened Stock
  import OrderStore
  import Pricing
  import TaxEngine
  import Coupons = CouponService
  import Sums

  /** What the surrounding database says while an operation runs. */
  datatype World = World(products: Catalogue, coupons: map<CouponId, Coupon>, previousOrders: nat, now: int)

  /** `productId` is the text of the request: 24 hexadecimal digits in either case. */
  datatype GuestItem = GuestItem(productId: string, quantity: Units, attributes: Attributes)
  {
    /** `new ObjectId(text)`: stored ids, and everything printed from them, are in lower case. */
    function Product(): ProductId {
      LowerCase(productId)
    }
  }

  function LowerCase(text: string): (r: string)
    ensures |r| == |text|
  {
    seq(|text|, i requires 0 <= i < |text| => if 'A' <= text[i] <= 'F' then text[i] - 'A' + 'a' else text[i])
  }

  const MAX_LINE := 10

  function SignatureOfLine(item: CartItem): string {
    SignatureOf(item.product, item.attributes)
  }

  /** The signature looked for: it carries the id as the request spells it. */
  function SignatureOfGuest(g: GuestItem): string {
    ItemSignature(g.productId, g.attributes)
  }

  /** `findIndex` by signature. */
  function FindSignature(items: seq<CartItem>, signature: string): (r: Option<nat>)
    ensures r.Some? ==> r.value < |items| && SignatureOfLine(items[r.value]) == signature
    ensures r.None? ==> forall i :: 0 <= i < |items| ==> SignatureOfLine(items[i]) != signature
  {
    FindFrom(items, signature, 0)
  }

  function FindFrom(items: seq<CartItem>, signature: string, i: nat): (r: Option<nat>)
    requires i <= |items|
    ensures r.Some? ==> i <= r.value < |items| && SignatureOfLine(items[r.value]) == signature
    ensures r.None? ==> forall k :: i <= k < |items| ==> SignatureOfLine(items[k]) != signature
    decreases |items| - i
  {
    if i == |items| then None
    else if SignatureOfLine(items[i]) == signature then Some(i)
    else FindFrom(items, signature, i + 1)
  }

  function Min(a: int, b: int): int {
    if a <= b then a else b
  }

  // ----- guest merge

  predicate Mergeable(ps: Catalogue, g: GuestItem) {
    g.Product() in ps && ps[g.Product()].isActive && 1 <= ps[g.Product()].currentStock
  }

  function MergeOne(items: seq<CartItem>, ps: Catalogue, g: GuestItem): seq<CartItem> {
    if !Mergeable(ps, g) then items
    else
      var stock := ps[g.Product()].currentStock;
      match FindSignature(items, SignatureOfGuest(g))
      case Some(k) => items[k := items[k].(quantity := Min(items[k].quantity + g.quantity, stock))]
      case None => items + [CartItem(g.Product(), Min(g.quantity, stock), Normalize(g.attributes))]
  }

  function MergeAll(items: seq<CartItem>, ps: Catalogue, guests: seq<GuestItem>): seq<CartItem> {
    if guests == [] then items
    else MergeOne(MergeAll(items, ps, guests[..|guests| - 1]), ps, guests[|guests| - 1])
  }

  lemma MergeAllStep(items: seq<CartItem>, ps: Catalogue, guests: seq<GuestItem>, i: nat)
    requires i < |guests|
    ensures MergeAll(items, ps, guests[..i + 1]) == MergeOne(MergeAll(items, ps, guests[..i]), ps, guests[i])
  {
    assert guests[..i + 1][..i] == guests[..i];
  }

  /** The validators that run when the cart is saved. */
  predicate Storable(doc: CartDoc) {
    && (forall i :: 0 <= i < |doc.items| ==> doc.items[i].quantity <= MAX_LINE)
    && 0 <= doc.discountAmount && 0.0 <= doc.totalAfterDiscount
  }

  // ----- coupon on the cart

  predicate OnSale(ps: Catalogue, item: CartItem) {
    item.product in ps && ps[item.product].isActive
  }

  /** The lines whose product exists and is on sale, in cart order. */
  function ActiveItems(items: seq<CartItem>, ps: Catalogue): (r: seq<CartItem>)
    ensures forall i :: 0 <= i < |r| ==> OnSale(ps, r[i])
  {
    if items == [] then []
    else
      var last := items[|items| - 1];
      ActiveItems(items[..|items| - 1], ps) + if OnSale(ps, last) then [last] else []
  }

  function ActiveLines(items: seq<CartItem>, ps: Catalogue): seq<Pricing.Line> {
    OrderStore.LinesFor(ps, ActiveItems(items, ps))
  }

  function StripCoupon(doc: CartDoc): CartDoc {
    doc.(appliedCoupon := None, discountAmount := 0, totalAfterDiscount := 0.0)
  }

  /** `recalculateCartTotals`: re-price the coupon on the live subtotal, or strip it. */
  function Recalculate(doc: CartDoc, w: World): CartDoc {
    if doc.appliedCoupon.None? then doc
    else
      var subTotal := Pricing.SubTotal(ActiveLines(doc.items, w.products));
      if doc.appliedCoupon.value !in w.coupons then StripCoupon(doc)
      else
        var c := w.coupons[doc.appliedCoupon.value];
        if subTotal < c.minCartValue || !c.isActive then StripCoupon(doc)
        else
          var result := Coupons.ValidateAndCalculateDiscount(c, subTotal, w.previousOrders, None, w.now);
          if result.Failure? then StripCoupon(doc)
          else doc.(discountAmount := result.value, totalAfterDiscount := subTotal - result.value as real)
  }

  // ----- the edits, as the stored document before and after

  /** A save the validators refuse leaves the stored document as it was. */
  function Commit(doc: CartDoc, next: CartDoc): CartDoc {
    if Storable(next) then next else doc
  }

  predicate CanAdd(doc: CartDoc, g: GuestItem, w: World) {
    && Mergeable(w.products, g)
    && LineQuantity(doc.items, SignatureOfGuest(g)) + g.quantity <= w.products[g.Product()].currentStock
  }

  function AfterAdd(doc: CartDoc, g: GuestItem, w: World): CartDoc {
    if CanAdd(doc, g, w) then Commit(doc, Recalculate(doc.(items := MergeOne(doc.items, w.products, g)), w)) else doc
  }

  function AfterMerge(doc: CartDoc, guests: seq<GuestItem>, w: World): CartDoc {
    Commit(doc, Recalculate(doc.(items := MergeAll(doc.items, w.products, guests)), w))
  }

  /** A request to change a line; the quantity may be left out. */
  datatype LineEdit = LineEdit(productId: string, quantity: Option<Units>, attributes: Attributes)
  {
    function Signature(): string {
      ItemSignature(productId, attributes)
    }
  }

  /** Asked of the product before the quantity is set; a quantity left out asks for nothing and sets one. */
  predicate InventoryAllows(ps: Catalogue, e: LineEdit) {
    var p := LowerCase(e.productId);
    && p in ps && ps[p].isActive
    && (if e.quantity.Some? then e.quantity.value else 0) <= ps[p].currentStock
  }

  function AfterUpdate(doc: CartDoc, e: LineEdit, w: World): CartDoc {
    var line := FindSignature(doc.items, e.Signature());
    if line.None? || !InventoryAllows(w.products, e) then doc
    else
      var item := doc.items[line.value].(quantity := if e.quantity.Some? then e.quantity.value else 1);
      Commit(doc, Recalculate(doc.(items := doc.items[line.value := item]), w))
  }

  /** The lines of other products, going by the spelling of the request. */
  function Without(items: seq<CartItem>, productId: string): (r: seq<CartItem>)
    ensures forall i :: 0 <= i < |r| ==> r[i] in items && r[i].product != productId
  {
    if items == [] then []
    else
      var last := items[|items| - 1];
      Without(items[..|items| - 1], productId) + if last.product != productId then [last] else []
  }

  function AfterRemove(doc: CartDoc, productId: string, w: World): CartDoc {
    Commit(doc, Recalculate(doc.(items := Without(doc.items, productId)), w))
  }

  /** The coupon priced on the live subtotal, if it is accepted and there is something in the cart. */
  function WithCoupon(doc: CartDoc, c: CouponId, w: World): Result<CartDoc, AppError> {
    if doc.items == [] then Failure(EmptyCart)
    else if c !in w.coupons then Failure(NotFound)
    else
      var subTotal := Pricing.SubTotal(ActiveLines(doc.items, w.products));
      var result := Coupons.ValidateAndCalculateDiscount(w.coupons[c], subTotal, w.previousOrders, None, w.now);
      if result.Failure? then Failure(result.error)
      else
        Success(doc.(appliedCoupon := Some(c), discountAmount := result.value,
                     totalAfterDiscount := subTotal - result.value as real))
  }

  function AfterApply(doc: CartDoc, c: CouponId, w: World): CartDoc {
    var next := WithCoupon(doc, c, w);
    if next.Success? then Commit(doc, next.value) else doc
  }

  // ----- quote

  datatype Quote = Quote(
    lines: seq<TaxEngine.TaxResult>,
    totalTax: int,
    estimatedShipping: int,
    shippingTax: int,
    grandTotal: int)

  function LineTaxResults(ls: seq<Pricing.Line>, subTotal: real, discount: int): seq<TaxEngine.TaxResult>
    requires Pricing.Taxable(ls)
  {
    seq(|ls|, i requires 0 <= i < |ls| => Pricing.LineTax(ls[i], subTotal, discount))
  }

  function QuoteOf(ls: seq<Pricing.Line>, discount: int, totalAfterDiscount: real): Result<Quote, AppError> {
    if !Pricing.Taxable(ls) then Failure(UnrecognizedTaxProfile)
    else
      var subTotal := Pricing.SubTotal(ls);
      var totalTax := Sums.Sum(Pricing.LineTaxes(ls, subTotal, discount));
      var shipping := Pricing.ShippingCost(totalAfterDiscount);
      Success(Quote(
        LineTaxResults(ls, subTotal, discount),
        totalTax,
        shipping,
        TaxEngine.CalculateShippingTax(shipping).totalTax,
        Round(totalAfterDiscount + totalTax as real + shipping as real)))
  }

  /** The document `getCart` leaves in memory: inactive lines purged, the coupon re-evaluated. */
  function Healed(doc: CartDoc, w: World): CartDoc {
    Recalculate(doc.(items := ActiveItems(doc.items, w.products)), w)
  }

  /** The purge removed a line, or the coupon is worth something else now. */
  predicate NeedsSave(doc: CartDoc, w: World) {
    || ActiveItems(doc.items, w.products) != doc.items
    || Healed(doc, w).discountAmount != doc.discountAmount
  }

  /** The price shown in the cart. */
  function QuoteFor(doc: CartDoc, w: World): Result<Quote, AppError> {
    var healed := Healed(doc, w);
    var lines := OrderStore.LinesFor(w.products, ActiveItems(doc.items, w.products));
    var after := if healed.appliedCoupon.Some? then healed.totalAfterDiscount else Pricing.SubTotal(lines);
    QuoteOf(lines, healed.discountAmount, after)
  }

  /** What `getCart` leaves stored. */
  function AfterShow(doc: CartDoc, w: World): CartDoc {
    if NeedsSave(doc, w) then Commit(doc, Healed(doc, w)) else doc
  }

  /** What `getCart` answers: the quote, unless the save it needs is refused. */
  function CartReply(doc: CartDoc, w: World): Result<Quote, AppError> {
    if NeedsSave(doc, w) && !Storable(Healed(doc, w)) then Failure(SchemaViolation) else QuoteFor(doc, w)
  }

  /** Passes 2 and 3 of `getCart`. */
  method PriceLines(lines: seq<Pricing.Line>, subTotal: real, discount: int, totalAfterDiscount: real)
    returns (quote: Result<Quote, AppError>)
    requires subTotal == Pricing.SubTotal(lines)
    ensures quote == QuoteOf(lines, discount, totalAfterDiscount)
  {
    var taxed := Pricing.TaxLines(lines, subTotal, discount, "");
    if taxed.Failure? {
      return Failure(taxed.error);
    }
    var shipping := if totalAfterDiscount > Pricing.FREE_SHIPPING_ABOVE then 0 else TaxEngine.SHIPPING_CHARGE;
    var shippingTax := TaxEngine.CalculateShippingTax(shipping).totalTax;
    var grandTotal := Round(totalAfterDiscount + taxed.value.tax as real + shipping as real);
    quote := Success(Quote(
      LineTaxResults(lines, subTotal, discount), taxed.value.tax, shipping, shippingTax, grandTotal));
  }

  // ----- the operations on the loaded document

  class Cart {
    var items: seq<CartItem>
    var appliedCoupon: Option<CouponId>
    var discountAmount: int
    var totalAfterDiscount: real

    function Doc(): CartDoc
      reads this
    {
      CartDoc(items, appliedCoupon, discountAmount, totalAfterDiscount)
    }

    constructor (doc: CartDoc)
      ensures Doc() == doc
    {
      items, appliedCoupon := doc.items, doc.appliedCoupon;
      discountAmount, totalAfterDiscount := doc.discountAmount, doc.totalAfterDiscount;
    }

    method Restore(doc: CartDoc)
      modifies this
      ensures Doc() == doc
    {
      items, appliedCoupon := doc.items, doc.appliedCoupon;
      discountAmount, totalAfterDiscount := doc.discountAmount, doc.totalAfterDiscount;
    }

    /** The reduce over the populated lines. */
    method LiveSubTotal(ps: Catalogue) returns (subTotal: real)
      ensures subTotal == Pricing.SubTotal(ActiveLines(items, ps))
    {
      subTotal := 0.0;
      var i := 0;
      while i < |items|
        invariant 0 <= i <= |items|
        invariant subTotal == Pricing.SubTotal(ActiveLines(items[..i], ps))
      {
        ActiveStep(items, ps, i);
        if OnSale(ps, items[i]) {
          subTotal := subTotal + Pricing.PreCoupon(OrderStore.LineFor(ps, items[i]));
        }
        i := i + 1;
      }
      assert items[..i] == items;
    }

    method RecalculateCartTotals(w: World)
      modifies this`appliedCoupon, this`discountAmount, this`totalAfterDiscount
      ensures Doc() == Recalculate(old(Doc()), w)
    {
      if appliedCoupon.None? {
        return;
      }
      var subTotal := LiveSubTotal(w.products);
      var coupon := if appliedCoupon.value in w.coupons then Some(w.coupons[appliedCoupon.value]) else None;
      if coupon.None? || subTotal < coupon.value.minCartValue || !coupon.value.isActive {
        appliedCoupon, discountAmount, totalAfterDiscount := None, 0, 0.0;
      } else {
        var result := Coupons.ValidateAndCalculateDiscount(coupon.value, subTotal, w.previousOrders, None, w.now);
        if result.Success? {
          discountAmount, totalAfterDiscount := result.value, subTotal - result.value as real;
        } else {
          appliedCoupon, discountAmount, totalAfterDiscount := None, 0, 0.0;
        }
      }
    }

    /** One turn of the merge loop. */
    method MergeItem(g: GuestItem, ps: Catalogue)
      modifies this`items
      ensures items == MergeOne(old(items), ps, g)
    {
      if !Mergeable(ps, g) {
        return;
      }
      var stock := ps[g.Product()].currentStock;
      var existing := FindSignature(items, SignatureOfGuest(g));
      if existing.Some? {
        var k := existing.value;
        items := items[k := items[k].(quantity := Min(items[k].quantity + g.quantity, stock))];
      } else {
        var attributes := NormalizeAttributes(g.attributes);
        items := items + [CartItem(g.Product(), Min(g.quantity, stock), attributes)];
      }
    }

    /** The merge loop. */
    method MergeItems(guests: seq<GuestItem>, ps: Catalogue)
      modifies this`items
      ensures items == MergeAll(old(items), ps, guests)
    {
      var i := 0;
      while i < |guests|
        invariant 0 <= i <= |guests|
        invariant items == MergeAll(old(items), ps, guests[..i])
      {
        var g := guests[i];
        MergeAllStep(old(items), ps, guests, i);
        MergeItem(g, ps);
        i := i + 1;
      }
      assert guests[..i] == guests;
    }

    /** The merge loop, then the coupon, then the validators; a violation rolls everything back. */
    method MergeGuestCart(guests: seq<GuestItem>, w: World) returns (committed: bool)
      modifies this
      ensures var merged := Recalculate(old(Doc()).(items := MergeAll(old(items), w.products, guests)), w);
        && (committed <==> Storable(merged))
        && Doc() == AfterMerge(old(Doc()), guests, w)
    {
      var session := Doc();
      MergeItems(guests, w.products);
      RecalculateCartTotals(w);
      committed := Storable(Doc());
      if !committed {
        Restore(session);
      }
    }

    /** Raise the line of this signature, or append one. */
    method AddLine(g: GuestItem, stock: int) returns (fits: bool)
      modifies this`items
      ensures g.quantity <= stock ==> (fits <==> LineQuantity(old(items), SignatureOfGuest(g)) + g.quantity <= stock)
      ensures !fits ==> items == old(items)
      ensures fits && g.quantity <= stock ==>
        forall ps: Catalogue :: Mergeable(ps, g) && ps[g.Product()].currentStock == stock ==>
          items == MergeOne(old(items), ps, g)
    {
      var existing := FindSignature(items, SignatureOfGuest(g));
      if existing.Some? {
        var k := existing.value;
        if items[k].quantity + g.quantity > stock {
          return false;
        }
        items := items[k := items[k].(quantity := items[k].quantity + g.quantity)];
      } else {
        var attributes := NormalizeAttributes(g.attributes);
        items := items + [CartItem(g.Product(), g.quantity, attributes)];
      }
      fits := true;
    }

    /** Add one line, refusing rather than capping at the stock. */
    method AddItem(g: GuestItem, w: World) returns (r: Option<AppError>)
      modifies this
      ensures r.Some? ==> Doc() == old(Doc())
      ensures r.None? ==>
        && Mergeable(w.products, g)
        && Doc() == Recalculate(old(Doc()).(items := MergeOne(old(items), w.products, g)), w)
        && Storable(Doc())
      ensures r.None? <==>
        && CanAdd(old(Doc()), g, w)
        && Storable(Recalculate(old(Doc()).(items := MergeOne(old(items), w.products, g)), w))
      ensures Doc() == AfterAdd(old(Doc()), g, w)
      ensures r == Some(NotFound) <==> !(g.Product() in w.products && w.products[g.Product()].isActive)
      ensures r == Some(SchemaViolation) ==> CanAdd(old(Doc()), g, w)
      ensures r.Some? ==> r.value in {NotFound, StockLimit, SchemaViolation}
      ensures r == Some(StockLimit) ==> !CanAdd(old(Doc()), g, w)
    {
      if g.Product() !in w.products || !w.products[g.Product()].isActive {
        return Some(NotFound);
      }
      var stock := w.products[g.Product()].currentStock;
      if stock < g.quantity {
        return Some(StockLimit);
      }
      var session := Doc();
      var fits := AddLine(g, stock);
      if !fits {
        return Some(StockLimit);
      }
      assert Doc() == session.(items := MergeOne(session.items, w.products, g));
      RecalculateCartTotals(w);
      if !Storable(Doc()) {
        Restore(session);
        return Some(SchemaViolation);
      }
      r := None;
    }

    /** Set the quantity of one line. */
    method UpdateItemQuantity(e: LineEdit, w: World) returns (r: Option<AppError>)
      modifies this
      ensures Doc() == AfterUpdate(old(Doc()), e, w)
      ensures r.Some? ==> Doc() == old(Doc())
      ensures r == Some(NotFound) <==> FindSignature(old(items), e.Signature()).None?
      ensures r == Some(StockLimit) <==>
        FindSignature(old(items), e.Signature()).Some? && !InventoryAllows(w.products, e)
      ensures r.Some? ==> r.value in {NotFound, StockLimit, SchemaViolation}
    {
      var found := FindSignature(items, e.Signature());
      if found.None? {
        return Some(NotFound);
      }
      if !InventoryAllows(w.products, e) {
        return Some(StockLimit);
      }
      var session := Doc();
      var k := found.value;
      items := items[k := items[k].(quantity := if e.quantity.Some? then e.quantity.value else 1)];
      RecalculateCartTotals(w);
      if !Storable(Doc()) {
        Restore(session);
        return Some(SchemaViolation);
      }
      r := None;
    }

    /** Drop every line of a product. */
    method RemoveProduct(productId: string, w: World) returns (removed: bool)
      modifies this
      ensures Doc() == AfterRemove(old(Doc()), productId, w)
      ensures removed <==> Storable(Recalculate(old(Doc()).(items := Without(old(items), productId)), w))
      ensures !removed ==> Doc() == old(Doc())
    {
      var session := Doc();
      items := Without(items, productId);
      RecalculateCartTotals(w);
      removed := Storable(Doc());
      if !removed {
        Restore(session);
      }
    }

    /** Put a coupon on the cart. */
    method ApplyCoupon(c: CouponId, w: World) returns (r: Option<AppError>)
      modifies this
      ensures Doc() == AfterApply(old(Doc()), c, w)
      ensures r.Some? ==> Doc() == old(Doc())
      ensures match WithCoupon(old(Doc()), c, w)
        case Failure(e) => r == Some(e)
        case Success(next) => r == if Storable(next) then None else Some(SchemaViolation)
    {
      if items == [] {
        return Some(EmptyCart);
      }
      if c !in w.coupons {
        return Some(NotFound);
      }
      var session := Doc();
      var subTotal := LiveSubTotal(w.products);
      var result := Coupons.ValidateAndCalculateDiscount(w.coupons[c], subTotal, w.previousOrders, None, w.now);
      if result.Failure? {
        return Some(result.error);
      }
      appliedCoupon, discountAmount, totalAfterDiscount := Some(c), result.value, subTotal - result.value as real;
      if !Storable(Doc()) {
        Restore(session);
        return Some(SchemaViolation);
      }
      r := None;
    }

    /** Pass 1 of `getCart`: drop the lines whose product is gone or off sale, and price the others. */
    method PurgeInactive(ps: Catalogue) returns (needsHeal: bool, subTotal: real)
      modifies this`items
      ensures items == ActiveItems(old(items), ps)
      ensures needsHeal <==> items != old(items)
      ensures subTotal == Pricing.SubTotal(OrderStore.LinesFor(ps, items))
    {
      var validItems: seq<CartItem> := [];
      subTotal, needsHeal := 0.0, false;
      var i := 0;
      while i < |items|
        invariant 0 <= i <= |items|
        invariant items == old(items)
        invariant validItems == ActiveItems(items[..i], ps)
        invariant subTotal == Pricing.SubTotal(ActiveLines(items[..i], ps))
        invariant needsHeal <==> |validItems| < i
      {
        ActiveStep(items, ps, i);
        ActiveShrinks(items[..i], ps);
        if OnSale(ps, items[i]) {
          subTotal := subTotal + Pricing.PreCoupon(OrderStore.LineFor(ps, items[i]));
          validItems := validItems + [items[i]];
        } else {
          needsHeal := true;
        }
        i := i + 1;
      }
      assert items[..i] == items;
      ActiveShrinks(items, ps);
      if needsHeal {
        items := validItems;
      }
    }

    /** `getCart`: purge, re-evaluate the coupon, tax every line, add shipping. A purge or a changed discount is saved,
        and a save that the validators refuse fails the request. */
    method GetCart(w: World) returns (quote: Result<Quote, AppError>)
      modifies this
      ensures Doc() == Healed(old(Doc()), w)
      ensures quote == CartReply(old(Doc()), w)
    {
      var needsHeal, subTotal := PurgeInactive(w.products);
      var lines := OrderStore.LinesFor(w.products, items);
      var originalDiscount := discountAmount;
      if appliedCoupon.Some? {
        RecalculateCartTotals(w);
      }
      if (needsHeal || discountAmount != originalDiscount) && !Storable(Doc()) {
        return Failure(SchemaViolation);
      }
      var after := if appliedCoupon.Some? then totalAfterDiscount else subTotal;
      quote := PriceLines(lines, subTotal, discountAmount, after);
    }
  }

  /** The quantity of the line with this signature, 0 when there is none. */
  function LineQuantity(items: seq<CartItem>, signature: string): nat {
    match FindSignature(items, signature)
    case Some(k) => items[k].quantity
    case None => 0
  }

  /** Purging shortens the list, or leaves it as it is. */
  lemma {:induction false} ActiveShrinks(items: seq<CartItem>, ps: Catalogue)
    ensures |ActiveItems(items, ps)| <= |items|
    ensures |ActiveItems(items, ps)| == |items| ==> ActiveItems(items, ps) == items
  {
    if items == [] {
    } else {
      ActiveShrinks(items[..|items| - 1], ps);
    }
  }

  lemma ActiveStep(items: seq<CartItem>, ps: Catalogue, i: nat)
    requires i < |items|
    ensures var active := OnSale(ps, items[i]);
      && ActiveItems(items[..i + 1], ps) == ActiveItems(items[..i], ps) + (if active then [items[i]] else [])
      && ActiveLines(items[..i + 1], ps)
           == ActiveLines(items[..i], ps) + (if active then [OrderStore.LineFor(ps, items[i])] else [])
      && Pricing.SubTotal(ActiveLines(items[..i + 1], ps))
           == Pricing.SubTotal(ActiveLines(items[..i], ps))
              + (if active then Pricing.PreCoupon(OrderStore.LineFor(ps, items[i])) else 0.0)
  {
    assert items[..i + 1][..i] == items[..i];
    if OnSale(ps, items[i]) {
      Pricing.SubTotalAppend(ActiveLines(items[..i], ps), OrderStore.LineFor(ps, items[i]));
    } else {
      assert ActiveItems(items[..i + 1], ps) == ActiveItems(items[..i], ps);
    }
  }
}
