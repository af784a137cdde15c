/** What repeated, reordered and contradictory requests about one order come to (src/modules/orders,
    src/modules/returns). */
module OrderLaws {
  import opened Wrappers
  import opened Documents
  import opened OrderStore

  lemma Overwrite(orders: seq<Order>, i: nat, first: Order, second: Order)
    requires i < |orders|
    ensures orders[i := first][i := second] == orders[i := second]
    ensures first == orders[i] ==> orders[i := first] == orders
  {
  }

  // ----- payment reports

  datatype Report = Report(paymentId: string, signature: Option<string>)

  /** Handshakes and webhooks for one order, one guarded update after the other. */
  function PayAll(s: Store, i: nat, reports: seq<Report>): (r: Store)
    requires i < |s.orders|
    ensures |r.orders| == |s.orders|
  {
    if reports == [] then s
    else
      var before, last := PayAll(s, i, reports[..|reports| - 1]), reports[|reports| - 1];
      var paid := Pay(before, i, last.paymentId, last.signature);
      if paid.Some? then paid.value else before
  }

  /** However many reports of its payment reach an unpaid order, the first alone has an effect, and its evidence is what
      the order carries; a paid order takes none. Nothing but this order changes. */
  lemma {:induction false} OnlyFirstPaymentCounts(s: Store, i: nat, reports: seq<Report>)
    requires i < |s.orders|
    ensures PayAll(s, i, reports)
         == if reports == [] || s.orders[i].paymentStatus != PaymentPending then s
            else
              var o, first := s.orders[i], reports[0];
              s.(orders := s.orders[i := o.(
                paymentStatus := Paid, orderStatus := Processing, gatewayPaymentId := Some(first.paymentId),
                gatewaySignature := if first.signature.Some? then first.signature else o.gatewaySignature)])
    ensures TouchesOnly(s, PayAll(s, i, reports), i) && PayAll(s, i, reports).rmas == s.rmas
  {
    if reports == [] {
    } else {
      OnlyFirstPaymentCounts(s, i, reports[..|reports| - 1]);
    }
  }

  // ----- courier statuses

  /** Courier messages for one order, in the order they arrive. */
  function TrackAll(s: Store, i: nat, messages: seq<string>): (r: Store)
    requires i < |s.orders|
    ensures |r.orders| == |s.orders|
  {
    if messages == [] then s
    else
      var before := TrackAll(s, i, messages[..|messages| - 1]);
      SetStatus(before, i, CourierStatus(before.orders[i].orderStatus, messages[|messages| - 1]))
  }

  predicate Terminal(message: string) {
    message in {"DELIVERED", "CANCELED", "CANCELLED", "RTO DELIVERED", "RTO ACKNOWLEDGED"}
  }

  /** The last message that names an end of the journey. */
  function LastTerminal(messages: seq<string>): (r: Option<string>)
    ensures r.Some? ==> Terminal(r.value)
  {
    if messages == [] then None
    else if Terminal(messages[|messages| - 1]) then Some(messages[|messages| - 1])
    else LastTerminal(messages[..|messages| - 1])
  }

  /** The store with nothing changed but the status of order i. */
  function Moved(s: Store, i: nat, status: OrderStatus): Store
    requires i < |s.orders|
  {
    s.(orders := s.orders[i := s.orders[i].(orderStatus := status)])
  }

  /** Of any stream of messages, repeated or reordered, the last terminal one decides: DELIVERED delivers the order,
      either spelling of CANCELLED cancels it, and either return to origin returns it. Without one the order is
      untouched. */
  lemma LastTerminalDecides(s: Store, i: nat, messages: seq<string>)
    requires i < |s.orders|
    ensures var last, after := LastTerminal(messages), TrackAll(s, i, messages);
      && (last == Some("DELIVERED") ==> after == Moved(s, i, Delivered))
      && (last == Some("CANCELED") || last == Some("CANCELLED") ==> after == Moved(s, i, Cancelled))
      && (last == Some("RTO DELIVERED") || last == Some("RTO ACKNOWLEDGED") ==> after == Moved(s, i, Returned))
      && (last.None? ==> after == s)
    ensures TouchesOnly(s, TrackAll(s, i, messages), i) && TrackAll(s, i, messages).rmas == s.rmas
  {
    LastEndStays(s, i, messages);
    var status := s.orders[i].orderStatus;
    assert CourierStatus(status, "RTO DELIVERED") == Returned == CourierStatus(status, "RTO ACKNOWLEDGED");
    assert CourierStatus(status, "CANCELED") == Cancelled == CourierStatus(status, "CANCELLED");
  }

  lemma {:induction false} LastEndStays(s: Store, i: nat, messages: seq<string>)
    requires i < |s.orders|
    ensures TrackAll(s, i, messages) == Tracked(s, i, LastTerminal(messages))
    ensures TouchesOnly(s, TrackAll(s, i, messages), i) && TrackAll(s, i, messages).rmas == s.rmas
  {
    if messages == [] {
    } else {
      var front := messages[..|messages| - 1];
      LastEndStays(s, i, front);
      MessageAfter(s, i, LastTerminal(front), messages[|messages| - 1]);
    }
    StatusTouchesOnly(s, i, LastTerminal(messages));
  }

  function Tracked(s: Store, i: nat, message: Option<string>): (r: Store)
    requires i < |s.orders|
    ensures |r.orders| == |s.orders|
  {
    if message.None? then s else SetStatus(s, i, CourierStatus(s.orders[i].orderStatus, message.value))
  }

  lemma MessageAfter(s: Store, i: nat, earlier: Option<string>, message: string)
    requires i < |s.orders| && (earlier.Some? ==> Terminal(earlier.value))
    ensures var before := Tracked(s, i, earlier);
      SetStatus(before, i, CourierStatus(before.orders[i].orderStatus, message))
        == if Terminal(message) then Tracked(s, i, Some(message)) else before
  {
    var before := Tracked(s, i, earlier);
    assert before.orders[i := before.orders[i]] == before.orders;
    var status := CourierStatus(before.orders[i].orderStatus, message);
    Overwrite(s.orders, i, before.orders[i], before.orders[i].(orderStatus := status));
  }

  lemma StatusTouchesOnly(s: Store, i: nat, message: Option<string>)
    requires i < |s.orders|
    ensures TouchesOnly(s, Tracked(s, i, message), i) && Tracked(s, i, message).rmas == s.rmas
  {
  }

  // ----- administrative edits

  datatype Edit = Edit(status: OrderStatus, tracking: Option<string>, courier: Option<string>)

  function EditAll(s: Store, i: nat, edits: seq<Edit>): (r: Store)
    requires i < |s.orders|
    ensures |r.orders| == |s.orders|
  {
    if edits == [] then s
    else
      var before, last := EditAll(s, i, edits[..|edits| - 1]), edits[|edits| - 1];
      AdminUpdate(before, i, last.status, last.tracking, last.courier)
  }

  /** The last text that is not empty, or else what there was. */
  function LastText(texts: seq<Option<string>>, otherwise: Option<string>): Option<string> {
    if texts == [] then otherwise
    else if Truthy(texts[|texts| - 1]) then texts[|texts| - 1]
    else LastText(texts[..|texts| - 1], otherwise)
  }

  function Trackings(edits: seq<Edit>): seq<Option<string>> {
    seq(|edits|, k requires 0 <= k < |edits| => edits[k].tracking)
  }

  function Couriers(edits: seq<Edit>): seq<Option<string>> {
    seq(|edits|, k requires 0 <= k < |edits| => edits[k].courier)
  }

  /** Of any number of edits the last decides the status and the last text of each kind that is not empty stays; lines,
      prices and payment are out of reach, and so is PENDING. */
  lemma {:induction false} LastEditDecides(s: Store, i: nat, edits: seq<Edit>)
    requires i < |s.orders| && forall k :: 0 <= k < |edits| ==> edits[k].status != Pending
    ensures EditAll(s, i, edits) == s.WithOrder(i, Edited(s.orders[i], edits))
    ensures TouchesOnly(s, EditAll(s, i, edits), i) && EditAll(s, i, edits).rmas == s.rmas
  {
    if edits == [] {
      assert s.orders[i := s.orders[i]] == s.orders;
    } else {
      var n := |edits| - 1;
      LastEditDecides(s, i, edits[..n]);
      EditAfter(s.orders[i], edits);
      Overwrite(s.orders, i, Edited(s.orders[i], edits[..n]), Edited(s.orders[i], edits));
    }
    EditTouchesOnly(s, i, edits);
  }

  /** The order as the edits leave it. */
  function Edited(o: Order, edits: seq<Edit>): Order {
    o.(orderStatus := if edits == [] then o.orderStatus else edits[|edits| - 1].status,
       trackingNumber := LastText(Trackings(edits), o.trackingNumber),
       courierName := LastText(Couriers(edits), o.courierName))
  }

  lemma EditAfter(o: Order, edits: seq<Edit>)
    requires edits != []
    ensures var n := |edits| - 1;
      var before, last := Edited(o, edits[..n]), edits[n];
      Edited(o, edits) == before.(
        orderStatus := last.status,
        trackingNumber := if Truthy(last.tracking) then last.tracking else before.trackingNumber,
        courierName := if Truthy(last.courier) then last.courier else before.courierName)
  {
    var n := |edits| - 1;
    assert Trackings(edits)[..n] == Trackings(edits[..n]) && Couriers(edits)[..n] == Couriers(edits[..n]);
  }

  lemma EditTouchesOnly(s: Store, i: nat, edits: seq<Edit>)
    requires i < |s.orders| && forall k :: 0 <= k < |edits| ==> edits[k].status != Pending
    ensures var after := s.WithOrder(i, Edited(s.orders[i], edits)); TouchesOnly(s, after, i) && after.rmas == s.rmas
  {
    LastTextTruthy(Trackings(edits), s.orders[i].trackingNumber);
  }

  lemma {:induction false} LastTextTruthy(texts: seq<Option<string>>, otherwise: Option<string>)
    ensures Truthy(otherwise) ==> Truthy(LastText(texts, otherwise))
  {
    if texts == [] {
    } else {
      LastTextTruthy(texts[..|texts| - 1], otherwise);
    }
  }

  // ----- rulings on a return

  function RuleAll(s: Store, i: nat, rulings: seq<bool>): (r: Store)
    requires i < |s.orders| && i in s.rmas
    ensures |r.orders| == |s.orders| && i in r.rmas
  {
    if rulings == [] then s
    else ArbitrateReturn(RuleAll(s, i, rulings[..|rulings| - 1]), i, rulings[|rulings| - 1]).value
  }

  /** Arbitration takes any number of rulings in any state. The last one alone decides whether the return can be
      refunded; a single rejection among them delivers the order again, and nothing else about it changes. */
  lemma {:induction false} LastRulingDecides(s: Store, i: nat, rulings: seq<bool>)
    requires i < |s.orders| && i in s.rmas && rulings != []
    ensures RuleAll(s, i, rulings) == AfterRulings(s, i, rulings[|rulings| - 1], false in rulings)
    ensures CanRefund(RuleAll(s, i, rulings), i) <==> rulings[|rulings| - 1] && s.orders[i].gatewayPaymentId.Some?
    ensures TouchesOnly(s, RuleAll(s, i, rulings), i)
  {
    var n := |rulings| - 1;
    if n > 0 {
      LastRulingDecides(s, i, rulings[..n]);
      assert rulings == rulings[..n] + [rulings[n]];
      RulingAfter(s, i, rulings[n - 1], false in rulings[..n], rulings[n]);
    } else {
      assert rulings[..n] == [];
    }
    RulingTouchesOnly(s, i, rulings[n], false in rulings);
  }

  /** The store when the last ruling was `last` and some ruling, perhaps, a rejection. */
  function AfterRulings(s: Store, i: nat, last: bool, rejected: bool): Store
    requires i < |s.orders| && i in s.rmas
  {
    s.(rmas := s.rmas[i := s.rmas[i].(status := if last then Approved else Rejected)],
       orders := if rejected then s.orders[i := s.orders[i].(orderStatus := Delivered)] else s.orders)
  }

  lemma RulingAfter(s: Store, i: nat, last: bool, rejected: bool, next: bool)
    requires i < |s.orders| && i in s.rmas
    ensures ArbitrateReturn(AfterRulings(s, i, last, rejected), i, next)
         == Success(AfterRulings(s, i, next, rejected || !next))
  {
    var before := AfterRulings(s, i, last, rejected);
    Overwrite(s.orders, i, before.orders[i], before.orders[i].(orderStatus := Delivered));
    assert s.orders[i := s.orders[i].(orderStatus := Delivered)]
        == before.orders[i := before.orders[i].(orderStatus := Delivered)];
    var ruled := s.rmas[i].(status := if next then Approved else Rejected);
    assert before.rmas[i := ruled] == s.rmas[i := ruled];
  }

  lemma RulingTouchesOnly(s: Store, i: nat, last: bool, rejected: bool)
    requires i < |s.orders| && i in s.rmas
    ensures TouchesOnly(s, AfterRulings(s, i, last, rejected), i)
    ensures CanRefund(AfterRulings(s, i, last, rejected), i) <==> last && s.orders[i].gatewayPaymentId.Some?
  {
  }
}
