/** What the two firewalls of dispatch come to when the courier calls stand between them and the write
    (src/modules/orders/shiprocket.service.ts). */
module ShipmentTheorems {
  import opened Wrappers
  import opened OrderStore
  import opened Protocol
  import opened ProtocolInvariant
  import opened ProtocolSteps
  import opened ProtocolRuns
  import opened ProtocolTheorems

  /** Whatever was handed to the courier was payable: the check before the network calls still holds at the write. */
  lemma DispatchedOrdersWerePayable(init: State, s: State, i: nat)
    requires Reachable(init, s) && i < |s.history|
    ensures Aligned(s) && (s.store.orders[i].shiprocketShipmentId.Some? ==> Payable(s.store.orders[i]))
  {
    ReachableInv(init, s);
    SoundAt(s, init, i);
  }

  /** Once an order carries a tracking number, no continuation of the run lets a new dispatch past the first
      firewall. */
  lemma TrackedOrdersStayClosed(init: State, actions: seq<Action>, more: seq<Action>, i: nat)
    requires Initial(init) && i < |Run(init, actions).store.orders|
    requires Truthy(Run(init, actions).store.orders[i].trackingNumber)
    ensures var u := Run(init, actions + more);
      && i < |u.store.orders| && !CanDispatch(u.store.orders[i])
      && Step(u, DispatchCheck(i)) == u
  {
    OrdersKeptOverRuns(init, actions, more);
    var s, u := Run(init, actions), Run(init, actions + more);
    assert OrderKept(s.store.orders[i], u.store.orders[i]);
  }

  /** An order is shipped more than once exactly when some shipment was recorded over another, by a dispatch that had
      passed its check before the other one wrote; when no dispatch passes its check while another is in flight, none
      is. */
  lemma ShippedTwiceIffDoubled(init: State, s: State, i: nat)
    requires Reachable(init, s) && i < |s.history|
    ensures Aligned(s)
    ensures var h, recorded := s.history[i], s.store.orders[i].shiprocketShipmentId.Some?;
      && h.shipments == (if recorded then 1 else 0) + h.doubled
      && (1 < h.shipments <==> 0 < h.doubled)
      && (h.crossings == 0 ==> h.shipments <= 1)
      && (recorded ==> Step(s, DispatchCheck(i)) == s)
  {
    ReachableInv(init, s);
    SoundAt(s, init, i);
  }

  function Ship(i: nat, awb: string, courier: string, shipment: string): Action {
    Continue(Dispatching(i), true, awb, courier, shipment)
  }

  /** And that happens: from any state in which an order may be dispatched, two calls that both pass the check before
      either writes record two shipments, the second over the first. */
  lemma CrossingDispatchesBothShip(
    s: State, i: nat, first: string, second: string, courier: string, box: string, otherBox: string)
    requires Aligned(s) && i < |s.history| && CanDispatch(s.store.orders[i])
    requires first != "" && second != "" && box != "" && otherBox != ""
    ensures var t := Run(s, [DispatchCheck(i), DispatchCheck(i), Ship(i, first, courier, box),
                             Ship(i, second, courier, otherBox)]);
      && Aligned(t) && i < |t.history|
      && t.history[i].shipments == s.history[i].shipments + 2 && t.history[i].doubled > s.history[i].doubled
      && t.store.orders[i].trackingNumber == Some(second) && t.store.orders[i].courierName == Some(courier)
      && t.store.orders[i].shiprocketShipmentId == Some(otherBox)
  {
    var s1 := CheckPasses(s, i);
    var s2 := CheckPasses(s1, i);
    var s3 := ShipGoesThrough(s2, i, first, courier, box);
    var s4 := ShipGoesThrough(s3, i, second, courier, otherBox);
    RunOfFour(
      s, DispatchCheck(i), DispatchCheck(i), Ship(i, first, courier, box), Ship(i, second, courier, otherBox));
  }

  lemma CheckPasses(s: State, i: nat) returns (t: State)
    requires Aligned(s) && i < |s.history| && CanDispatch(s.store.orders[i])
    ensures t == Step(s, DispatchCheck(i)) && Aligned(t) && t.store == s.store && i < |t.history|
    ensures t.procs == s.procs + multiset{Dispatching(i)}
    ensures t.history[i].shipments == s.history[i].shipments && t.history[i].doubled == s.history[i].doubled
  {
    t := DoDispatchCheck(s, DispatchCheck(i));
  }

  lemma ShipGoesThrough(s: State, i: nat, awb: string, courier: string, shipment: string) returns (t: State)
    requires Aligned(s) && i < |s.history| && Dispatching(i) in s.procs && awb != "" && shipment != ""
    ensures t == Step(s, Ship(i, awb, courier, shipment)) && Aligned(t) && i < |t.history|
    ensures t.procs == s.procs - multiset{Dispatching(i)}
    ensures t.store.orders[i] == DispatchedOrder(s.store.orders[i], awb, courier, shipment)
    ensures t.history[i].shipments == s.history[i].shipments + 1
    ensures var again := if s.store.orders[i].shiprocketShipmentId.Some? then 1 else 0;
      t.history[i].doubled == s.history[i].doubled + again
  {
    t := DoContinue(s, Ship(i, awb, courier, shipment));
  }
}
