/** Taking stock out of the catalogue and putting it back: the guarded decrement loop of checkout and the increment
    loops of the abandoned-order sweep and of the refund. */
module Stock {
  import opened Wrappers
  import opened Documents
  import opened Sums

  type Catalogue = map<ProductId, Product>

  /** A quantity of one product, as a cart line, an order line or a return line names it. */
  datatype Parcel = Parcel(product: ProductId, quantity: Units)

  function CartParcels(items: seq<CartItem>): seq<Parcel> {
    seq(|items|, i requires 0 <= i < |items| => Parcel(items[i].product, items[i].quantity))
  }

  function OrderParcels(items: seq<OrderItem>): seq<Parcel> {
    seq(|items|, i requires 0 <= i < |items| => Parcel(items[i].product, items[i].quantity))
  }

  function ReturnParcels(items: seq<ReturnItem>): seq<Parcel> {
    seq(|items|, i requires 0 <= i < |items| => Parcel(items[i].product, items[i].quantity))
  }

  /** The units of one product over all the parcels that name it. */
  function Demand(parcels: seq<Parcel>, p: ProductId): nat {
    if parcels == [] then 0
    else
      var last := parcels[|parcels| - 1];
      Demand(parcels[..|parcels| - 1], p) + if last.product == p then last.quantity else 0
  }

  lemma DemandAppend(parcels: seq<Parcel>, parcel: Parcel, p: ProductId)
    ensures Demand(parcels + [parcel], p) == Demand(parcels, p) + if parcel.product == p then parcel.quantity else 0
  {
    assert (parcels + [parcel])[..|parcels|] == parcels;
  }

  predicate CanTake(ps: Catalogue, parcel: Parcel) {
    && parcel.product in ps
    && parcel.quantity <= ps[parcel.product].currentStock
    && ps[parcel.product].isActive
  }

  function AddStock(ps: Catalogue, p: ProductId, units: int): Catalogue {
    if p in ps then ps[p := ps[p].(currentStock := ps[p].currentStock + units)] else ps
  }

  /** One guarded `findOneAndUpdate` per parcel, in order, giving up at the first that matches nothing. */
  function Reserve(ps: Catalogue, parcels: seq<Parcel>): Option<Catalogue> {
    if parcels == [] then Some(ps)
    else
      var last := parcels[|parcels| - 1];
      match Reserve(ps, parcels[..|parcels| - 1])
      case None => None
      case Some(m) => if CanTake(m, last) then Some(AddStock(m, last.product, 0 - last.quantity)) else None
  }

  /** One increment per parcel; a product that is gone is skipped. */
  function Restock(ps: Catalogue, parcels: seq<Parcel>): Catalogue {
    if parcels == [] then ps
    else
      var last := parcels[|parcels| - 1];
      AddStock(Restock(ps, parcels[..|parcels| - 1]), last.product, last.quantity)
  }

  /** Every product named is on sale and has the total demanded of it, over all the lines naming it. */
  predicate Fits(ps: Catalogue, parcels: seq<Parcel>) {
    forall i :: 0 <= i < |parcels| ==>
      var p := parcels[i].product;
      p in ps && ps[p].isActive && Demand(parcels, p) <= ps[p].currentStock
  }

  datatype Direction = Take | PutBack
  {
    function Signed(units: nat): int {
      if Take? then 0 - units else units
    }
  }

  /** Every product moved by its total over all the parcels, in closed form. */
  function Shifted(ps: Catalogue, parcels: seq<Parcel>, dir: Direction): Catalogue {
    map p | p in ps :: ps[p].(currentStock := ps[p].currentStock + dir.Signed(Demand(parcels, p)))
  }

  /** The line-by-line loop succeeds exactly when the total demand fits, and then every product is down by its
      total demand and by nothing else. */
  lemma {:induction false} ReserveExact(ps: Catalogue, parcels: seq<Parcel>)
    ensures Reserve(ps, parcels) == if Fits(ps, parcels) then Some(Shifted(ps, parcels, Take)) else None
  {
    if parcels == [] {
      assert Shifted(ps, parcels, Take) == ps;
    } else {
      var front, last := parcels[..|parcels| - 1], parcels[|parcels| - 1];
      assert parcels == front + [last];
      ReserveExact(ps, front);
      if Fits(ps, front) && CanTake(Shifted(ps, front, Take), last) {
        FitsAppend(ps, front, last);
        ShiftAppend(ps, front, last, Take);
      } else if Fits(ps, parcels) {
        FitsFront(ps, front, last);
      }
    }
  }

  lemma ShiftAppend(ps: Catalogue, front: seq<Parcel>, last: Parcel, dir: Direction)
    ensures AddStock(Shifted(ps, front, dir), last.product, dir.Signed(last.quantity))
         == Shifted(ps, front + [last], dir)
  {
    forall p
      ensures Demand(front + [last], p) == Demand(front, p) + if last.product == p then last.quantity else 0
    {
      DemandAppend(front, last, p);
    }
  }

  lemma FitsAppend(ps: Catalogue, front: seq<Parcel>, last: Parcel)
    requires Fits(ps, front) && CanTake(Shifted(ps, front, Take), last)
    ensures Fits(ps, front + [last])
  {
    forall i | 0 <= i < |front| + 1
      ensures var p := (front + [last])[i].product;
        p in ps && ps[p].isActive && Demand(front + [last], p) <= ps[p].currentStock
    {
      var p := (front + [last])[i].product;
      DemandAppend(front, last, p);
      if i < |front| {
        assert front[i].product == p;
      }
    }
  }

  lemma FitsFront(ps: Catalogue, front: seq<Parcel>, last: Parcel)
    requires Fits(ps, front + [last])
    ensures Fits(ps, front) && CanTake(Shifted(ps, front, Take), last)
  {
    var parcels := front + [last];
    forall i | 0 <= i < |front|
      ensures var p := front[i].product; p in ps && ps[p].isActive && Demand(front, p) <= ps[p].currentStock
    {
      assert parcels[i] == front[i];
      DemandAppend(front, last, front[i].product);
    }
    assert parcels[|front|] == last;
    DemandAppend(front, last, last.product);
  }

  lemma {:induction false} RestockExact(ps: Catalogue, parcels: seq<Parcel>)
    ensures Restock(ps, parcels) == Shifted(ps, parcels, PutBack)
  {
    if parcels == [] {
      assert Shifted(ps, parcels, PutBack) == ps;
    } else {
      var front, last := parcels[..|parcels| - 1], parcels[|parcels| - 1];
      assert parcels == front + [last];
      RestockExact(ps, front);
      ShiftAppend(ps, front, last, PutBack);
    }
  }

  function OfProduct(p: ProductId): Parcel -> nat {
    (parcel: Parcel) => if parcel.product == p then parcel.quantity else 0
  }

  lemma {:induction false} DemandIsTotal(parcels: seq<Parcel>, p: ProductId)
    ensures Demand(parcels, p) == Total(parcels, OfProduct(p))
  {
    if parcels == [] {
    } else {
      DemandIsTotal(parcels[..|parcels| - 1], p);
    }
  }

  /** Demand does not see the order of the lines. */
  lemma DemandPermutation(a: seq<Parcel>, b: seq<Parcel>, p: ProductId)
    requires multiset(a) == multiset(b)
    ensures Demand(a, p) == Demand(b, p)
  {
    DemandIsTotal(a, p);
    DemandIsTotal(b, p);
    TotalPermutation(a, b, OfProduct(p));
  }

  lemma DemandConcat(a: seq<Parcel>, b: seq<Parcel>, p: ProductId)
    ensures Demand(a + b, p) == Demand(a, p) + Demand(b, p)
  {
    DemandIsTotal(a, p);
    DemandIsTotal(b, p);
    DemandIsTotal(a + b, p);
    TotalConcat(a, b, OfProduct(p));
  }

  /** Whether a cart can be reserved and what stock it leaves do not depend on the order of its lines. */
  lemma ReservationIgnoresLineOrder(ps: Catalogue, a: seq<Parcel>, b: seq<Parcel>)
    requires multiset(a) == multiset(b)
    ensures Reserve(ps, a) == Reserve(ps, b)
  {
    ReserveExact(ps, a);
    ReserveExact(ps, b);
    forall p
      ensures Demand(a, p) == Demand(b, p)
    {
      DemandPermutation(a, b, p);
    }
    assert Shifted(ps, a, Take) == Shifted(ps, b, Take);
    if Fits(ps, a) {
      FitsPermutation(ps, a, b);
    } else if Fits(ps, b) {
      FitsPermutation(ps, b, a);
    }
  }

  lemma FitsPermutation(ps: Catalogue, a: seq<Parcel>, b: seq<Parcel>)
    requires multiset(a) == multiset(b) && Fits(ps, a)
    ensures Fits(ps, b)
  {
    forall i | 0 <= i < |b|
      ensures var p := b[i].product; p in ps && ps[p].isActive && Demand(b, p) <= ps[p].currentStock
    {
      assert b[i] in multiset(a);
      var j :| 0 <= j < |a| && a[j] == b[i];
      DemandPermutation(a, b, b[i].product);
    }
  }

  /** Reserving and then restoring the same parcels is the identity on the catalogue. */
  lemma RestockUndoesReserve(ps: Catalogue, parcels: seq<Parcel>)
    requires Reserve(ps, parcels).Some?
    ensures Restock(Reserve(ps, parcels).value, parcels) == ps
  {
    ReserveExact(ps, parcels);
    var m := Reserve(ps, parcels).value;
    RestockExact(m, parcels);
    assert Shifted(m, parcels, PutBack) == ps;
  }
}
