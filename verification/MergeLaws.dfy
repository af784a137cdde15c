/** What merging a guest's items does to a cart, whatever the items (src/modules/cart/cart.service.ts). A request may
    spell product ids in either case; the cart looks a line up by that spelling and stores the id in lower case. */
module MergeLaws {
  import opened Wrappers
  import opened Documents
  import opened Signature
  import opened Stock
  import opened Sums
  import opened CartService
  import opened CartLaws

  predicate DistinctLines(items: seq<CartItem>) {
    forall i, j :: 0 <= i < j < |items| ==> SignatureOfLine(items[i]) != SignatureOfLine(items[j])
  }

  /** Ids of stored lines are printed in lower case. */
  predicate StoredIds(items: seq<CartItem>) {
    forall i :: 0 <= i < |items| ==> LowerCase(items[i].product) == items[i].product && '|' !in items[i].product
  }

  /** Ids of the request are hexadecimal, so hold no bar. */
  predicate RequestIds(guests: seq<GuestItem>) {
    forall k :: 0 <= k < |guests| ==> '|' !in guests[k].productId
  }

  /** The request spells the id as the database prints it. */
  predicate PlainId(g: GuestItem) {
    g.productId == g.Product()
  }

  /** The signature of the line the item is stored as. */
  function StoredSignature(g: GuestItem): string {
    SignatureOf(g.Product(), Normalize(g.attributes))
  }

  predicate Brings(ps: Catalogue, g: GuestItem, signature: string) {
    Mergeable(ps, g) && StoredSignature(g) == signature
  }

  predicate Listed(items: seq<CartItem>, signature: string) {
    FindSignature(items, signature).Some?
  }

  /** The stock of the product a signature names. */
  function StockNamed(ps: Catalogue, signature: string): int {
    var p := Split(signature)[0];
    if p in ps then ps[p].currentStock else 0
  }

  /** The line's quantity after the merge: an untouched line keeps its own, a touched one gets the sum, capped by the
      stock. */
  function MergedQuantity(ps: Catalogue, before: nat, added: nat, signature: string): int {
    if added == 0 then before else Min(before + added, StockNamed(ps, signature))
  }

  // ----- one guest item

  lemma LowerCaseTwice(text: string)
    ensures LowerCase(LowerCase(text)) == LowerCase(text)
    ensures '|' !in text ==> '|' !in LowerCase(text)
  {
  }

  /** An item spelled in capitals finds no stored line. */
  lemma CapitalsFindNothing(items: seq<CartItem>, g: GuestItem)
    requires StoredIds(items) && '|' !in g.productId && !PlainId(g)
    ensures FindSignature(items, SignatureOfGuest(g)).None?
  {
    match FindSignature(items, SignatureOfGuest(g))
    case None =>
    case Some(k) =>
      SignatureNamesProduct(items[k].product, items[k].attributes, g.productId, Normalize(g.attributes));
  }

  /** What one item does to the line of a signature, and to the list of lines. */
  lemma MergeOneLine(items: seq<CartItem>, ps: Catalogue, g: GuestItem, signature: string)
    requires StoredIds(items) && '|' !in g.productId
    ensures var merged := MergeOne(items, ps, g);
      && StoredIds(merged)
      && (Listed(merged, signature) <==> Listed(items, signature) || Brings(ps, g, signature))
      && LineQuantity(merged, signature)
           == if Brings(ps, g, signature) && (PlainId(g) || !Listed(items, signature))
              then Min(LineQuantity(items, signature) + g.quantity, ps[g.Product()].currentStock)
              else LineQuantity(items, signature)
  {
    if Mergeable(ps, g) {
      var merged := MergeOne(items, ps, g);
      LowerCaseTwice(g.productId);
      if !PlainId(g) {
        CapitalsFindNothing(items, g);
      }
      match FindSignature(items, SignatureOfGuest(g))
      case Some(k) =>
        SameSignatures(items, merged, signature, 0);
      case None =>
        FindAppended(items, merged[|items|], signature, 0);
    }
  }

  lemma {:induction false} SameSignatures(a: seq<CartItem>, b: seq<CartItem>, signature: string, i: nat)
    requires |a| == |b| && i <= |a|
    requires forall k :: 0 <= k < |a| ==> SignatureOfLine(a[k]) == SignatureOfLine(b[k])
    ensures FindFrom(a, signature, i) == FindFrom(b, signature, i)
    decreases |a| - i
  {
    if i == |a| {
    } else {
      SameSignatures(a, b, signature, i + 1);
    }
  }

  lemma {:induction false} FindAppended(items: seq<CartItem>, item: CartItem, signature: string, i: nat)
    requires i <= |items|
    ensures FindFrom(items + [item], signature, i)
         == if FindFrom(items, signature, i).Some? then FindFrom(items, signature, i)
            else if SignatureOfLine(item) == signature then Some(|items|)
            else None
    decreases |items| - i
  {
    if i == |items| {
    } else {
      FindAppended(items, item, signature, i + 1);
    }
  }

  // ----- the closed form

  /** The units of the request that reach the first line of a signature: all that come spelled as stored, and those of
      a capital spelling only when they open the line. */
  function Landing(items: seq<CartItem>, ps: Catalogue, guests: seq<GuestItem>, signature: string): nat {
    if guests == [] then 0
    else
      var front, g := guests[..|guests| - 1], guests[|guests| - 1];
      var landed := Landing(items, ps, front, signature);
      if Brings(ps, g, signature) && (PlainId(g) || (!Listed(items, signature) && landed == 0))
      then landed + g.quantity else landed
  }

  /** After any merge, the quantity under any signature: what was there, if nothing landed, else the sum capped by the
      stock of the product the signature names. */
  lemma {:induction false} GuestMergeClosedForm(
    items: seq<CartItem>, ps: Catalogue, guests: seq<GuestItem>, signature: string)
    requires StoredIds(items) && RequestIds(guests)
    ensures LineQuantity(MergeAll(items, ps, guests), signature)
         == MergedQuantity(ps, LineQuantity(items, signature), Landing(items, ps, guests, signature), signature)
    ensures StoredIds(MergeAll(items, ps, guests))
    ensures Listed(MergeAll(items, ps, guests), signature)
       <==> Listed(items, signature) || 0 < Landing(items, ps, guests, signature)
  {
    if guests == [] {
    } else {
      var front, g := guests[..|guests| - 1], guests[|guests| - 1];
      var before := MergeAll(items, ps, front);
      GuestMergeClosedForm(items, ps, front, signature);
      MergeOneLine(before, ps, g, signature);
      LowerCaseTwice(g.productId);
      FirstPart(g.Product(), Normalize(g.attributes));
    }
  }

  predicate Brought(ps: Catalogue, guests: seq<GuestItem>, signature: string) {
    exists k :: 0 <= k < |guests| && Brings(ps, guests[k], signature)
  }

  /** A line is there afterwards exactly when it was before or some mergeable item brought it. */
  lemma ListedIff(items: seq<CartItem>, ps: Catalogue, guests: seq<GuestItem>, signature: string)
    requires StoredIds(items) && RequestIds(guests)
    ensures StoredIds(MergeAll(items, ps, guests))
    ensures Listed(MergeAll(items, ps, guests), signature)
       <==> Listed(items, signature) || Brought(ps, guests, signature)
  {
    GuestMergeClosedForm(items, ps, guests, signature);
    if 0 < Landing(items, ps, guests, signature) {
      var k := SomeLanded(items, ps, guests, signature);
    }
    if k :| 0 <= k < |guests| && Brings(ps, guests[k], signature) {
      BroughtLands(items, ps, guests, signature, k);
    }
  }

  lemma {:induction false} BroughtLands(
    items: seq<CartItem>, ps: Catalogue, guests: seq<GuestItem>, signature: string, k: nat)
    requires k < |guests| && Brings(ps, guests[k], signature)
    ensures Listed(items, signature) || 0 < Landing(items, ps, guests, signature)
  {
    if k < |guests| - 1 {
      BroughtLands(items, ps, guests[..|guests| - 1], signature, k);
    }
  }

  lemma {:induction false} SomeLanded(items: seq<CartItem>, ps: Catalogue, guests: seq<GuestItem>, signature: string)
    returns (k: nat)
    requires 0 < Landing(items, ps, guests, signature)
    ensures k < |guests| && Brings(ps, guests[k], signature)
  {
    var n := |guests| - 1;
    if Brings(ps, guests[n], signature) {
      k := n;
    } else {
      k := SomeLanded(items, ps, guests[..n], signature);
    }
  }

  /** The stored lines keep their place, product and attributes. */
  lemma {:induction false} GuestMergeKeepsLines(items: seq<CartItem>, ps: Catalogue, guests: seq<GuestItem>)
    ensures var merged := MergeAll(items, ps, guests);
      |items| <= |merged| && forall i :: 0 <= i < |items| ==>
        merged[i].product == items[i].product && merged[i].attributes == items[i].attributes
  {
    if guests == [] {
    } else {
      GuestMergeKeepsLines(items, ps, guests[..|guests| - 1]);
    }
  }

  // ----- one line per signature

  /** No item in a capital spelling comes when its line is there already. */
  predicate NoLateCapitals(items: seq<CartItem>, ps: Catalogue, guests: seq<GuestItem>) {
    forall k :: 0 <= k < |guests| ==> NotLate(items, ps, guests, k)
  }

  predicate NotLate(items: seq<CartItem>, ps: Catalogue, guests: seq<GuestItem>, k: nat)
    requires k < |guests|
  {
    Mergeable(ps, guests[k]) && !PlainId(guests[k]) ==>
      && !Listed(items, StoredSignature(guests[k]))
      && forall j :: 0 <= j < k ==> !Brings(ps, guests[j], StoredSignature(guests[k]))
  }

  /** A merge of any list keeps one line per signature exactly when no item in a capital spelling comes when its line is
      there already; in particular whenever every id is spelled as stored. */
  lemma {:induction false} DistinctLinesKeptIff(items: seq<CartItem>, ps: Catalogue, guests: seq<GuestItem>)
    requires DistinctLines(items) && StoredIds(items) && RequestIds(guests)
    ensures DistinctLines(MergeAll(items, ps, guests)) <==> NoLateCapitals(items, ps, guests)
  {
    if guests == [] {
    } else {
      var n := |guests| - 1;
      DistinctLinesKeptIff(items, ps, guests[..n]);
      LateByPrefix(items, ps, guests);
      LateIfListed(items, ps, guests);
      MergeOneDistinctIff(MergeAll(items, ps, guests[..n]), ps, guests[n]);
    }
  }

  lemma LateIfListed(items: seq<CartItem>, ps: Catalogue, guests: seq<GuestItem>)
    requires guests != [] && StoredIds(items) && RequestIds(guests)
    ensures var n := |guests| - 1;
      var before, g := MergeAll(items, ps, guests[..n]), guests[n];
      && StoredIds(before)
      && (NotLate(items, ps, guests, n) <==> !(Mergeable(ps, g) && !PlainId(g) && Listed(before, StoredSignature(g))))
  {
    var n := |guests| - 1;
    var signature := StoredSignature(guests[n]);
    ListedIff(items, ps, guests[..n], signature);
    if j :| 0 <= j < n && Brings(ps, guests[j], signature) {
      assert Brings(ps, guests[..n][j], signature);
    }
  }

  lemma LateByPrefix(items: seq<CartItem>, ps: Catalogue, guests: seq<GuestItem>)
    requires guests != []
    ensures var n := |guests| - 1;
      NoLateCapitals(items, ps, guests) <==> NoLateCapitals(items, ps, guests[..n]) && NotLate(items, ps, guests, n)
  {
    var n := |guests| - 1;
    forall k | 0 <= k < n
      ensures NotLate(items, ps, guests[..n], k) <==> NotLate(items, ps, guests, k)
    {
      assert forall j :: 0 <= j <= k ==> guests[..n][j] == guests[j];
    }
    if NoLateCapitals(items, ps, guests) {
      forall k | 0 <= k < n
        ensures NotLate(items, ps, guests[..n], k)
      {
        assert NotLate(items, ps, guests, k);
      }
    }
    if NoLateCapitals(items, ps, guests[..n]) {
      forall k | 0 <= k < n
        ensures NotLate(items, ps, guests, k)
      {
        assert NotLate(items, ps, guests[..n], k);
      }
    }
  }

  lemma MergeOneDistinctIff(items: seq<CartItem>, ps: Catalogue, g: GuestItem)
    requires StoredIds(items) && '|' !in g.productId
    ensures DistinctLines(MergeOne(items, ps, g))
       <==> DistinctLines(items) && !(Mergeable(ps, g) && !PlainId(g) && Listed(items, StoredSignature(g)))
  {
    if Mergeable(ps, g) {
      var merged := MergeOne(items, ps, g);
      if !PlainId(g) {
        CapitalsFindNothing(items, g);
      }
      match FindSignature(items, SignatureOfGuest(g))
      case Some(k) => SameSignaturesDistinct(items, merged);
      case None => AppendedDistinctIff(items, merged[|items|]);
    }
  }

  lemma SameSignaturesDistinct(a: seq<CartItem>, b: seq<CartItem>)
    requires |a| == |b| && forall k :: 0 <= k < |a| ==> SignatureOfLine(a[k]) == SignatureOfLine(b[k])
    ensures DistinctLines(a) <==> DistinctLines(b)
  {
  }

  lemma AppendedDistinctIff(items: seq<CartItem>, item: CartItem)
    ensures DistinctLines(items + [item]) <==> DistinctLines(items) && !Listed(items, SignatureOfLine(item))
  {
    var all := items + [item];
    if DistinctLines(all) {
      forall i, j | 0 <= i < j < |items|
        ensures SignatureOfLine(items[i]) != SignatureOfLine(items[j])
      {
        assert all[i] == items[i] && all[j] == items[j];
      }
      forall i | 0 <= i < |items|
        ensures SignatureOfLine(items[i]) != SignatureOfLine(item)
      {
        assert all[i] == items[i] && all[|items|] == item;
      }
    }
  }

  // ----- when the order of the items matters

  function Weight(ps: Catalogue, signature: string): GuestItem -> nat {
    (g: GuestItem) => if Brings(ps, g, signature) && PlainId(g) then g.quantity else 0
  }

  /** The units the request brings a line in the stored spelling. */
  function PlainUnits(ps: Catalogue, guests: seq<GuestItem>, signature: string): nat {
    Total(guests, Weight(ps, signature))
  }

  /** The first item of the request that brings the line. */
  function FirstBringer(ps: Catalogue, guests: seq<GuestItem>, signature: string): (r: Option<GuestItem>)
    ensures r.Some? ==> r.value in guests && Brings(ps, r.value, signature)
    ensures r.None? ==> forall k :: 0 <= k < |guests| ==> !Brings(ps, guests[k], signature)
  {
    if guests == [] then None
    else if Brings(ps, guests[0], signature) then Some(guests[0])
    else FirstBringer(ps, guests[1..], signature)
  }

  /** What an item adds by opening the line: its own units, if its spelling would keep them off otherwise. */
  function Opening(g: GuestItem): nat {
    if PlainId(g) then 0 else g.quantity
  }

  /** What lands on a line that is there already is what comes in the stored spelling; on a line not yet there, the
      opening item adds its own. */
  lemma {:induction false} LandingByFirst(
    items: seq<CartItem>, ps: Catalogue, guests: seq<GuestItem>, signature: string)
    ensures var first := FirstBringer(ps, guests, signature);
      Landing(items, ps, guests, signature)
        == PlainUnits(ps, guests, signature)
           + if Listed(items, signature) || first.None? then 0 else Opening(first.value)
  {
    if guests == [] {
    } else {
      var n := |guests| - 1;
      LandingByFirst(items, ps, guests[..n], signature);
      assert guests == guests[..n] + [guests[n]];
      FirstAppended(ps, guests[..n], guests[n], signature);
      PlainUnitsOfNone(ps, guests[..n], signature);
      BringersLand(items, ps, guests[..n], signature);
    }
  }

  lemma {:induction false} FirstAppended(ps: Catalogue, guests: seq<GuestItem>, g: GuestItem, signature: string)
    ensures FirstBringer(ps, guests + [g], signature)
         == if FirstBringer(ps, guests, signature).Some? then FirstBringer(ps, guests, signature)
            else if Brings(ps, g, signature) then Some(g) else None
  {
    if guests == [] {
      assert ([] + [g])[1..] == [];
    } else {
      assert (guests + [g])[1..] == guests[1..] + [g];
      FirstAppended(ps, guests[1..], g, signature);
    }
  }

  lemma {:induction false} PlainUnitsOfNone(ps: Catalogue, guests: seq<GuestItem>, signature: string)
    ensures FirstBringer(ps, guests, signature).None? ==> PlainUnits(ps, guests, signature) == 0
  {
    if guests == [] {
    } else {
      var n := |guests| - 1;
      assert guests == guests[..n] + [guests[n]];
      FirstAppended(ps, guests[..n], guests[n], signature);
      PlainUnitsOfNone(ps, guests[..n], signature);
    }
  }

  lemma BringersLand(items: seq<CartItem>, ps: Catalogue, guests: seq<GuestItem>, signature: string)
    ensures FirstBringer(ps, guests, signature).Some? && !Listed(items, signature) ==>
      0 < Landing(items, ps, guests, signature)
  {
    var first := FirstBringer(ps, guests, signature);
    if first.Some? {
      var k :| 0 <= k < |guests| && guests[k] == first.value;
      BroughtLands(items, ps, guests, signature, k);
    }
  }

  /** The quantity a new line ends with when this item opens it. */
  function Opened(ps: Catalogue, guests: seq<GuestItem>, g: GuestItem, signature: string): int {
    Min(PlainUnits(ps, guests, signature) + Opening(g), StockNamed(ps, signature))
  }

  lemma NewLineQuantity(items: seq<CartItem>, ps: Catalogue, guests: seq<GuestItem>, signature: string)
    requires StoredIds(items) && RequestIds(guests) && !Listed(items, signature)
    ensures var first := FirstBringer(ps, guests, signature);
      LineQuantity(MergeAll(items, ps, guests), signature)
        == if first.None? then 0 else Opened(ps, guests, first.value, signature)
  {
    GuestMergeClosedForm(items, ps, guests, signature);
    LandingByFirst(items, ps, guests, signature);
    PlainUnitsOfNone(ps, guests, signature);
    BringersLand(items, ps, guests, signature);
  }

  /** Every order of the request leaves the line the same quantity. */
  ghost predicate OrderFree(items: seq<CartItem>, ps: Catalogue, guests: seq<GuestItem>, signature: string) {
    forall other :: multiset(other) == multiset(guests) ==>
      LineQuantity(MergeAll(items, ps, other), signature) == LineQuantity(MergeAll(items, ps, guests), signature)
  }

  /** Whichever item opens the line, it ends with the same quantity. */
  predicate SameOpening(ps: Catalogue, guests: seq<GuestItem>, signature: string) {
    forall j, k ::
      0 <= j < |guests| && 0 <= k < |guests| && Brings(ps, guests[j], signature) && Brings(ps, guests[k], signature) ==>
        Opened(ps, guests, guests[j], signature) == Opened(ps, guests, guests[k], signature)
  }

  /** The order of a request's items does not matter to a line exactly when the line is in the cart already, or every
      item that could open it would leave it the same quantity: the units in the stored spelling, together with the
      opening item's own if it is spelled in capitals, capped by the stock. */
  lemma OrderFreeIff(items: seq<CartItem>, ps: Catalogue, guests: seq<GuestItem>, signature: string)
    requires StoredIds(items) && RequestIds(guests)
    ensures OrderFree(items, ps, guests, signature) <==> Listed(items, signature) || SameOpening(ps, guests, signature)
  {
    if Listed(items, signature) || SameOpening(ps, guests, signature) {
      forall other | multiset(other) == multiset(guests)
        ensures LineQuantity(MergeAll(items, ps, other), signature)
             == LineQuantity(MergeAll(items, ps, guests), signature)
      {
        SameInOtherOrder(items, ps, guests, other, signature);
      }
    }
    if OrderFree(items, ps, guests, signature) && !Listed(items, signature) {
      forall k | 0 <= k < |guests| && Brings(ps, guests[k], signature)
        ensures Opened(ps, guests, guests[k], signature) == LineQuantity(MergeAll(items, ps, guests), signature)
      {
        var other := OpenedBy(items, ps, guests, k, signature);
      }
    }
  }

  lemma RequestIdsPermuted(a: seq<GuestItem>, b: seq<GuestItem>)
    requires RequestIds(a) && multiset(a) == multiset(b)
    ensures RequestIds(b)
  {
    forall k | 0 <= k < |b|
      ensures '|' !in b[k].productId
    {
      assert b[k] in multiset(b);
      assert b[k] in a;
    }
  }

  lemma SameInOtherOrder(
    items: seq<CartItem>, ps: Catalogue, guests: seq<GuestItem>, other: seq<GuestItem>, signature: string)
    requires StoredIds(items) && RequestIds(guests) && multiset(other) == multiset(guests)
    requires Listed(items, signature) || SameOpening(ps, guests, signature)
    ensures LineQuantity(MergeAll(items, ps, other), signature) == LineQuantity(MergeAll(items, ps, guests), signature)
  {
    RequestIdsPermuted(guests, other);
    TotalPermutation(other, guests, Weight(ps, signature));
    if Listed(items, signature) {
      GuestMergeClosedForm(items, ps, guests, signature);
      GuestMergeClosedForm(items, ps, other, signature);
      LandingByFirst(items, ps, guests, signature);
      LandingByFirst(items, ps, other, signature);
    } else {
      NewLineQuantity(items, ps, guests, signature);
      NewLineQuantity(items, ps, other, signature);
      FirstsOpenAlike(ps, guests, other, signature);
    }
  }

  lemma FirstsOpenAlike(ps: Catalogue, guests: seq<GuestItem>, other: seq<GuestItem>, signature: string)
    requires multiset(other) == multiset(guests) && SameOpening(ps, guests, signature)
    ensures var f, g := FirstBringer(ps, guests, signature), FirstBringer(ps, other, signature);
      (f.Some? <==> g.Some?)
      && (f.Some? ==> Opened(ps, guests, f.value, signature) == Opened(ps, guests, g.value, signature))
  {
    var f, g := FirstBringer(ps, guests, signature), FirstBringer(ps, other, signature);
    if f.Some? {
      assert f.value in multiset(other);
      var k :| 0 <= k < |other| && other[k] == f.value;
    }
    if g.Some? {
      assert g.value in multiset(guests);
      var k :| 0 <= k < |guests| && guests[k] == g.value;
    }
  }

  /** Any item that brings the line opens it in some order of the request. */
  lemma OpenedBy(items: seq<CartItem>, ps: Catalogue, guests: seq<GuestItem>, k: nat, signature: string)
    returns (other: seq<GuestItem>)
    requires StoredIds(items) && RequestIds(guests) && !Listed(items, signature)
    requires k < |guests| && Brings(ps, guests[k], signature)
    ensures multiset(other) == multiset(guests)
    ensures LineQuantity(MergeAll(items, ps, other), signature) == Opened(ps, guests, guests[k], signature)
  {
    other := MoveToFront(guests, k);
    RequestIdsPermuted(guests, other);
    TotalPermutation(other, guests, Weight(ps, signature));
    NewLineQuantity(items, ps, other, signature);
    assert FirstBringer(ps, other, signature) == Some(guests[k]);
  }

  /** For a capital and a plain spelling of a new line that comes to this: the two orders disagree exactly when the
      plain item alone leaves stock over. */
  lemma OrderMattersIff(items: seq<CartItem>, ps: Catalogue, capital: GuestItem, plain: GuestItem)
    requires StoredIds(items) && RequestIds([capital, plain])
    requires !PlainId(capital) && PlainId(plain)
    requires Mergeable(ps, capital) && Brings(ps, plain, StoredSignature(capital))
    requires !Listed(items, StoredSignature(capital))
    ensures LineQuantity(MergeAll(items, ps, [capital, plain]), StoredSignature(capital))
              != LineQuantity(MergeAll(items, ps, [plain, capital]), StoredSignature(capital))
       <==> plain.quantity < ps[plain.Product()].currentStock
    ensures OrderFree(items, ps, [capital, plain], StoredSignature(capital))
       <==> ps[plain.Product()].currentStock <= plain.quantity
  {
    var guests, turned, signature := [capital, plain], [plain, capital], StoredSignature(capital);
    PlainOfTwo(ps, capital, plain, signature);
    LowerCaseTwice(plain.productId);
    FirstPart(plain.Product(), Normalize(plain.attributes));
    NewLineQuantity(items, ps, guests, signature);
    NewLineQuantity(items, ps, turned, signature);
    OrderFreeIff(items, ps, guests, signature);
    assert guests[0] == capital && guests[1] == plain;
    assert Opened(ps, guests, plain, signature) == Opened(ps, guests, capital, signature)
      <==> StockNamed(ps, signature) <= plain.quantity;
  }

  lemma PlainOfTwo(ps: Catalogue, capital: GuestItem, plain: GuestItem, signature: string)
    requires !PlainId(capital) && PlainId(plain) && Brings(ps, plain, signature)
    ensures PlainUnits(ps, [capital, plain], signature) == plain.quantity
    ensures PlainUnits(ps, [plain, capital], signature) == plain.quantity
  {
    assert [capital, plain][..1] == [capital] && [capital][..0] == [];
    assert [plain, capital][..1] == [plain] && [plain][..0] == [];
    assert Total([capital], Weight(ps, signature)) == 0;
    assert Total([plain], Weight(ps, signature)) == plain.quantity;
  }

  // ----- when the merge commits

  /** The quantity the merge asks of the line an item goes to. */
  function Asked(items: seq<CartItem>, ps: Catalogue, guests: seq<GuestItem>, g: GuestItem): int {
    var signature := StoredSignature(g);
    MergedQuantity(ps, LineQuantity(items, signature), Landing(items, ps, guests, signature), signature)
  }

  /** The quantity a mergeable item has on a line of its own. */
  function Alone(ps: Catalogue, g: GuestItem): int
    requires Mergeable(ps, g)
  {
    Min(g.quantity, ps[g.Product()].currentStock)
  }

  /** Every mergeable item asks for a line within the cap, and would be within it alone. */
  predicate RequestWithinCap(items: seq<CartItem>, ps: Catalogue, guests: seq<GuestItem>) {
    forall k :: 0 <= k < |guests| && Mergeable(ps, guests[k]) ==>
      Asked(items, ps, guests, guests[k]) <= 10 && Alone(ps, guests[k]) <= 10
  }

  /** A stored cart takes a merge exactly when every mergeable item asks for at most ten units, together with its line
      and alone, and the coupon does not overshoot the subtotal of the merged lines. */
  lemma GuestMergeCommitsIff(doc: CartDoc, w: World, guests: seq<GuestItem>)
    requires Storable(doc) && StoredIds(doc.items) && RequestIds(guests)
    ensures var merged := doc.(items := MergeAll(doc.items, w.products, guests));
      Storable(Recalculate(merged, w)) <==> RequestWithinCap(doc.items, w.products, guests) && !Overshot(merged, w)
  {
    var merged := MergeAll(doc.items, w.products, guests);
    RecalculatedIsStorableIff(doc.(items := merged), w);
    if WithinLineCap(merged) {
      forall k | 0 <= k < |guests| && Mergeable(w.products, guests[k])
        ensures Asked(doc.items, w.products, guests, guests[k]) <= 10 && Alone(w.products, guests[k]) <= 10
      {
        GuestMergeClosedForm(doc.items, w.products, guests, StoredSignature(guests[k]));
        var i := LineOf(doc.items, w.products, guests, k);
      }
    }
    if RequestWithinCap(doc.items, w.products, guests) {
      forall i | 0 <= i < |merged|
        ensures merged[i].quantity <= 10
      {
        LineWithinCap(doc.items, w.products, guests, i);
      }
    }
  }

  /** Every mergeable item ends on a line that holds at least what it has alone. */
  lemma {:induction false} LineOf(items: seq<CartItem>, ps: Catalogue, guests: seq<GuestItem>, k: nat) returns (i: nat)
    requires StoredIds(items) && RequestIds(guests) && k < |guests| && Mergeable(ps, guests[k])
    ensures var merged := MergeAll(items, ps, guests);
      && i < |merged| && SignatureOfLine(merged[i]) == StoredSignature(guests[k])
      && Alone(ps, guests[k]) <= merged[i].quantity
  {
    var n := |guests| - 1;
    var g := guests[n];
    var before := MergeAll(items, ps, guests[..n]);
    GuestMergeClosedForm(items, ps, guests[..n], StoredSignature(g));
    if k < n {
      i := LineOf(items, ps, guests[..n], k);
      LineStaysAbove(before, ps, g, i, guests[k]);
    } else {
      i := OwnLine(before, ps, g);
    }
  }

  lemma LineStaysAbove(items: seq<CartItem>, ps: Catalogue, g: GuestItem, i: nat, h: GuestItem)
    requires StoredIds(items) && '|' !in g.productId && '|' !in h.productId && Mergeable(ps, h) && i < |items|
    requires SignatureOfLine(items[i]) == StoredSignature(h) && Alone(ps, h) <= items[i].quantity
    ensures var merged := MergeOne(items, ps, g);
      && i < |merged| && SignatureOfLine(merged[i]) == StoredSignature(h) && Alone(ps, h) <= merged[i].quantity
  {
    LineOnlyCapped(items, ps, g, i);
    LowerCaseTwice(h.productId);
    SignatureNamesProduct(items[i].product, items[i].attributes, h.Product(), Normalize(h.attributes));
  }

  /** One item leaves a line alone or raises it, up to the stock. */
  lemma LineOnlyCapped(items: seq<CartItem>, ps: Catalogue, g: GuestItem, i: nat)
    requires StoredIds(items) && '|' !in g.productId && i < |items|
    ensures var merged := MergeOne(items, ps, g);
      && i < |merged| && SignatureOfLine(merged[i]) == SignatureOfLine(items[i])
      && (merged[i].quantity == items[i].quantity
          || (items[i].product in ps
              && merged[i].quantity == Min(items[i].quantity + g.quantity, ps[items[i].product].currentStock)))
  {
    if Mergeable(ps, g) {
      if !PlainId(g) {
        CapitalsFindNothing(items, g);
      }
      match FindSignature(items, SignatureOfGuest(g))
      case None =>
      case Some(k) =>
        SignatureNamesProduct(items[k].product, items[k].attributes, g.productId, Normalize(g.attributes));
    }
  }

  lemma OwnLine(items: seq<CartItem>, ps: Catalogue, g: GuestItem) returns (i: nat)
    requires StoredIds(items) && '|' !in g.productId && Mergeable(ps, g)
    ensures var merged := MergeOne(items, ps, g);
      && i < |merged| && SignatureOfLine(merged[i]) == StoredSignature(g) && Alone(ps, g) <= merged[i].quantity
  {
    if !PlainId(g) {
      CapitalsFindNothing(items, g);
    }
    match FindSignature(items, SignatureOfGuest(g))
    case None => i := |items|;
    case Some(k) => i := k;
  }

  /** A merged line is the first of its signature, or a stored line as it was, or one that a single item has alone. */
  predicate Accounted(items: seq<CartItem>, lines: seq<CartItem>, ps: Catalogue, guests: seq<GuestItem>, i: nat)
    requires i < |lines|
  {
    || FindSignature(lines, SignatureOfLine(lines[i])) == Some(i)
    || (i < |items| && lines[i] == items[i])
    || exists k :: 0 <= k < |guests| && IsAlone(ps, guests[k], lines[i].quantity)
  }

  predicate IsAlone(ps: Catalogue, g: GuestItem, quantity: int) {
    Mergeable(ps, g) && quantity == Alone(ps, g)
  }

  lemma {:induction false} LinesAccounted(items: seq<CartItem>, ps: Catalogue, guests: seq<GuestItem>, i: nat)
    requires StoredIds(items) && RequestIds(guests) && i < |MergeAll(items, ps, guests)|
    ensures Accounted(items, MergeAll(items, ps, guests), ps, guests, i)
  {
    if guests == [] {
    } else {
      var n := |guests| - 1;
      var before := MergeAll(items, ps, guests[..n]);
      if i < |before| {
        LinesAccounted(items, ps, guests[..n], i);
        GuestMergeClosedForm(items, ps, guests[..n], "");
        StaysAccounted(items, before, ps, guests, i);
      } else {
        assert IsAlone(ps, guests[n], MergeAll(items, ps, guests)[i].quantity);
      }
    }
  }

  lemma StaysAccounted(items: seq<CartItem>, before: seq<CartItem>, ps: Catalogue, guests: seq<GuestItem>, i: nat)
    requires guests != [] && StoredIds(before) && RequestIds(guests) && i < |before|
    requires Accounted(items, before, ps, guests[..|guests| - 1], i)
    ensures i < |MergeOne(before, ps, guests[|guests| - 1])|
    ensures Accounted(items, MergeOne(before, ps, guests[|guests| - 1]), ps, guests, i)
  {
    var n := |guests| - 1;
    var g := guests[n];
    var after := MergeOne(before, ps, g);
    var signature := SignatureOfLine(before[i]);
    LineOnlyCapped(before, ps, g, i);
    if FindSignature(before, signature) == Some(i) {
      FirstStaysFirst(before, ps, g, i);
    } else {
      OnlyFirstMoves(before, ps, g, i);
      if k :| 0 <= k < n && IsAlone(ps, guests[..n][k], before[i].quantity) {
        assert IsAlone(ps, guests[k], after[i].quantity);
      }
    }
  }

  lemma FirstStaysFirst(items: seq<CartItem>, ps: Catalogue, g: GuestItem, i: nat)
    requires i < |items| && FindSignature(items, SignatureOfLine(items[i])) == Some(i)
    ensures var merged := MergeOne(items, ps, g);
      i < |merged| && FindSignature(merged, SignatureOfLine(merged[i])) == Some(i)
  {
    if Mergeable(ps, g) {
      var merged := MergeOne(items, ps, g);
      match FindSignature(items, SignatureOfGuest(g))
      case Some(_) => SameSignatures(items, merged, SignatureOfLine(items[i]), 0);
      case None => FindAppended(items, merged[|items|], SignatureOfLine(items[i]), 0);
    }
  }

  lemma OnlyFirstMoves(items: seq<CartItem>, ps: Catalogue, g: GuestItem, i: nat)
    requires i < |items| && FindSignature(items, SignatureOfLine(items[i])) != Some(i)
    ensures i < |MergeOne(items, ps, g)| && MergeOne(items, ps, g)[i] == items[i]
  {
  }

  lemma LineWithinCap(items: seq<CartItem>, ps: Catalogue, guests: seq<GuestItem>, i: nat)
    requires StoredIds(items) && RequestIds(guests) && WithinLineCap(items)
    requires i < |MergeAll(items, ps, guests)| && RequestWithinCap(items, ps, guests)
    ensures MergeAll(items, ps, guests)[i].quantity <= 10
  {
    var merged := MergeAll(items, ps, guests);
    var signature := SignatureOfLine(merged[i]);
    LinesAccounted(items, ps, guests, i);
    if FindSignature(merged, signature) == Some(i) {
      GuestMergeClosedForm(items, ps, guests, signature);
      if 0 < Landing(items, ps, guests, signature) {
        var k := SomeLanded(items, ps, guests, signature);
      }
    }
  }
}
