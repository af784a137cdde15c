/** The rules of price, tax and discount as a bookkeeper would state them, for the services to be measured against.
    Nothing here uses a function of theirs. */
module Reference {
  import opened Wrappers
  import opened Documents
  import opened TaxEngine

  /** The whole number of paise nearest to an amount, halves going up. */
  predicate Nearest(n: int, x: real) {
    n as real - 0.5 <= x < n as real + 0.5
  }

  // ----- goods

  /** What one unit sells for: the base price less the product's own percentage. */
  function SellingPrice(p: Product): real {
    p.basePrice * (100.0 - p.discount) / 100.0
  }

  function Gross(p: Product, quantity: int): real {
    SellingPrice(p) * quantity as real
  }

  predicate OnShelf(ps: map<ProductId, Product>, p: ProductId) {
    p in ps && ps[p].isActive
  }

  /** What the goods on sale among these lines come to. */
  function LiveWorth(ps: map<ProductId, Product>, items: seq<CartItem>): real {
    if items == [] then 0.0
    else
      var last := items[|items| - 1];
      LiveWorth(ps, items[..|items| - 1])
        + if OnShelf(ps, last.product) then Gross(ps[last.product], last.quantity) else 0.0
  }

  // ----- coupons

  /** Whether the coupon is good for goods of this worth; no method is named while the customer is still in the cart. */
  predicate CouponHolds(c: Coupon, worth: real, firstOrder: bool, payment: Option<PaymentMethod>, now: int) {
    && c.isActive && c.startDate <= now <= c.expiryDate && c.usedCount < c.usageLimit
    && c.minCartValue <= worth
    && (c.isFirstOrderOnly ==> firstOrder)
    && (payment.None? || c.paymentMethodRestriction.ANY?
        || (c.paymentMethodRestriction.COD_ONLY? && payment.value.COD?))
  }

  /** The amounts a discount may not exceed. */
  function DiscountCaps(c: Coupon, worth: real): set<real> {
    match c.discountType
    case FLAT => {c.discountValue, worth}
    case PERCENTAGE =>
      {worth * c.discountValue / 100.0, worth}
        + if c.maxDiscountAmount.Some? && c.maxDiscountAmount.value != 0.0 then {c.maxDiscountAmount.value} else {}
  }

  predicate IsLeast(x: real, xs: set<real>) {
    x in xs && forall y :: y in xs ==> x <= y
  }

  /** The discount is the least of them, to the nearest paisa. */
  ghost predicate IsDiscount(c: Coupon, worth: real, discount: int) {
    exists x :: IsLeast(x, DiscountCaps(c, worth)) && Nearest(discount, x)
  }

  // ----- tax

  /** The rate in per cent; apparel leaves the lower bracket above 2500 rupees a unit. */
  predicate IsRate(profile: TaxProfile, unitPrice: real, rate: int) {
    match profile
    case ImitationJewellery => rate == 3
    case LacJewellery => rate == 0
    case UnstitchedFabric => rate == 5
    case StitchedApparel => rate == if unitPrice <= 250000.0 then 5 else 18
    case GeneralAccessory => rate == 18
    case Footwear => rate == 12
    case Unrecognized(_) => false
  }

  /** What a line is worth after its share of the coupon. */
  function Net(p: Product, quantity: int, worth: real, discount: int): real {
    Gross(p, quantity) - if worth > 0.0 then discount as real * Gross(p, quantity) / worth else 0.0
  }

  /** Value, rate and tax of a line, out of goods of this worth under this discount. */
  predicate IsTaxed(p: Product, quantity: int, worth: real, discount: int, value: int, rate: int, tax: int)
    requires quantity != 0
  {
    && Nearest(value, Net(p, quantity, worth, discount))
    && IsRate(p.taxProfile, Net(p, quantity, worth, discount) / quantity as real, rate)
    && Nearest(tax, value as real * rate as real / 100.0)
  }

  /** White space as section 22.1.3.32 of ECMA-262, 14th edition, trims it. */
  const BLANKS: set<char> := {
    ' ', '\t', '\n', '\r', '\U{B}', '\U{C}', '\U{A0}', '\U{1680}', '\U{2000}', '\U{2001}', '\U{2002}', '\U{2003}',
    '\U{2004}', '\U{2005}', '\U{2006}', '\U{2007}', '\U{2008}', '\U{2009}', '\U{200A}', '\U{2028}', '\U{2029}',
    '\U{202F}', '\U{205F}', '\U{3000}', '\U{FEFF}'}

  predicate Blank(text: string) {
    forall i :: 0 <= i < |text| ==> text[i] in BLANKS
  }

  /** The seller's state: WB in either case, with nothing but blanks around it. */
  ghost predicate IsHome(state: string) {
    exists i :: HomeAt(state, i)
  }

  predicate HomeAt(state: string, i: nat) {
    && i + 1 < |state| && state[i] in {'W', 'w'} && state[i + 1] in {'B', 'b'}
    && Blank(state[..i]) && Blank(state[i + 2..])
  }

  /** The tax in two equal halves at home, an odd paisa counted in both, and in one piece elsewhere. */
  ghost predicate IsSplit(tax: int, state: string, cgst: int, sgst: int, igst: int) {
    if IsHome(state) then cgst == sgst && cgst + sgst == tax + tax % 2 && igst == 0
    else cgst == 0 && sgst == 0 && igst == tax
  }

  // ----- picking from a list

  /** `kept` is what stands at these places of `all`, in the same order. */
  ghost predicate Picks<T>(all: seq<T>, kept: seq<T>, places: seq<nat>) {
    && |places| == |kept|
    && (forall j :: 0 <= j < |places| ==> places[j] < |all| && kept[j] == all[places[j]])
    && (forall i, j :: 0 <= i < j < |places| ==> places[i] < places[j])
  }

  /** One more element, kept or dropped. */
  lemma PicksNext<T>(front: seq<T>, last: T, kept: seq<T>, places: seq<nat>, keep: bool) returns (next: seq<nat>)
    requires Picks(front, kept, places)
    ensures next == places + if keep then [|front|] else []
    ensures Picks(front + [last], kept + if keep then [last] else [], next)
  {
    next := places + if keep then [|front|] else [];
  }
}
