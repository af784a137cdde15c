/** What every cart the services ever store is like. */
module CartRuns {
  import opened Wrappers
  import opened Documents
  import opened CartService
  import opened CartLaws
  import opened MergeLaws
  import OrderStore

  /** A request that edits, shows or empties a user's cart; `Order` is the checkout that took it. */
  datatype Request =
    | Add(item: GuestItem)
    | Merge(guests: seq<GuestItem>)
    | Update(edit: LineEdit)
    | Remove(productId: string)
    | Apply(coupon: CouponId)
    | RemoveCoupon
    | Clear
    | Show
    | Order

  /** The stored cart after one request, in the world it meets. */
  function Serve(doc: CartDoc, r: Request, w: World): CartDoc {
    match r
    case Add(g) => AfterAdd(doc, g, w)
    case Merge(guests) => AfterMerge(doc, guests, w)
    case Update(e) => AfterUpdate(doc, e, w)
    case Remove(p) => AfterRemove(doc, p, w)
    case Apply(c) => AfterApply(doc, c, w)
    case RemoveCoupon => StripCoupon(doc)
    case Clear => EMPTY_CART
    case Show => AfterShow(doc, w)
    case Order => EMPTY_CART
  }

  /** A new cart and then any requests, prices, stock and coupons changing in between. */
  function ServeAll(requests: seq<(Request, World)>): CartDoc {
    if requests == [] then EMPTY_CART
    else
      var (r, w) := requests[|requests| - 1];
      Serve(ServeAll(requests[..|requests| - 1]), r, w)
  }

  /** The schema of the requests admits only hexadecimal ids. */
  predicate HexRequest(r: Request) {
    match r
    case Add(g) => '|' !in g.productId
    case Merge(guests) => RequestIds(guests)
    case _ => true
  }

  predicate Sound(doc: CartDoc) {
    Storable(doc) && Consistent(doc) && StoredIds(doc.items)
  }

  /** Every cart any requests lead to passes the schema, carries no discount without a coupon, and names its products in
      lower case. */
  lemma {:induction false} EveryStoredCartIsSound(requests: seq<(Request, World)>)
    requires forall k :: 0 <= k < |requests| ==> HexRequest(requests[k].0)
    ensures Sound(ServeAll(requests))
  {
    if requests == [] {
    } else {
      var n := |requests| - 1;
      EveryStoredCartIsSound(requests[..n]);
      ServeKeepsSound(ServeAll(requests[..n]), requests[n].0, requests[n].1);
    }
  }

  lemma ServeKeepsSound(doc: CartDoc, r: Request, w: World)
    requires Sound(doc) && HexRequest(r)
    ensures Sound(Serve(doc, r, w))
  {
    match r
    case Add(g) => AddKeepsSound(doc, g, w);
    case Merge(guests) => MergeKeepsSound(doc, guests, w);
    case Update(e) => UpdateKeepsSound(doc, e, w);
    case Remove(p) => RemoveKeepsSound(doc, p, w);
    case Apply(c) =>
    case RemoveCoupon =>
    case Clear =>
    case Show => ShowKeepsSound(doc, w);
    case Order =>
  }

  lemma AddKeepsSound(doc: CartDoc, g: GuestItem, w: World)
    requires Sound(doc) && '|' !in g.productId
    ensures Sound(AfterAdd(doc, g, w))
  {
    MergeOneLine(doc.items, w.products, g, "");
    DiscountNeedsCoupon(doc, MergeOne(doc.items, w.products, g), w);
  }

  lemma MergeKeepsSound(doc: CartDoc, guests: seq<GuestItem>, w: World)
    requires Sound(doc) && RequestIds(guests)
    ensures Sound(AfterMerge(doc, guests, w))
  {
    GuestMergeClosedForm(doc.items, w.products, guests, "");
    DiscountNeedsCoupon(doc, MergeAll(doc.items, w.products, guests), w);
  }

  lemma UpdateKeepsSound(doc: CartDoc, e: LineEdit, w: World)
    requires Sound(doc)
    ensures Sound(AfterUpdate(doc, e, w))
  {
    var line := FindSignature(doc.items, e.Signature());
    if line.Some? {
      var item := doc.items[line.value].(quantity := if e.quantity.Some? then e.quantity.value else 1);
      DiscountNeedsCoupon(doc, doc.items[line.value := item], w);
    }
  }

  lemma RemoveKeepsSound(doc: CartDoc, productId: string, w: World)
    requires Sound(doc)
    ensures Sound(AfterRemove(doc, productId, w))
  {
    DiscountNeedsCoupon(doc, Without(doc.items, productId), w);
  }

  lemma ShowKeepsSound(doc: CartDoc, w: World)
    requires Sound(doc)
    ensures Sound(AfterShow(doc, w))
  {
    var kept := ActiveItems(doc.items, w.products);
    forall i | 0 <= i < |kept|
      ensures kept[i] in doc.items
    {
      ActiveItemsCome(doc.items, w.products, kept[i]);
    }
    DiscountNeedsCoupon(doc, kept, w);
  }

  /** So the cart page and checkout agree as `QuoteRefinesCheckout` says for every cart that was ever stored. */
  lemma EveryStoredCartIsQuoted(
    requests: seq<(Request, World)>, s: OrderStore.Store, user: UserId, state: string, payment: PaymentMethod, now: int,
    gateway: Option<string>)
    requires forall k :: 0 <= k < |requests| ==> HexRequest(requests[k].0)
    requires user in s.carts && s.carts[user] == ServeAll(requests)
    requires OrderStore.Checkout(s, user, state, payment, now, gateway).Success?
    ensures var order := OrderStore.Checkout(s, user, state, payment, now, gateway).value.orders[|s.orders|];
      var doc, w := s.carts[user], WorldOf(s, user, now);
      if Overshot(doc, w) && order.pricing.discountAmount != doc.discountAmount then
        CartReply(doc, w) == Failure(SchemaViolation)
      else
        CartReply(doc, w).Success? && PricedAlike(CartReply(doc, w).value, order, state)
  {
    EveryStoredCartIsSound(requests);
    QuoteRefinesCheckout(s, user, state, payment, now, gateway);
  }
}
