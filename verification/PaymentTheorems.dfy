/** What a payment accepted at a given moment means for the stock its order holds. */
module PaymentTheorems {
  import opened Wrappers
  import opened Documents
  import opened OrderStore
  import opened Protocol
  import opened ProtocolInvariant
  import opened ProtocolSteps
  import opened ProtocolRuns
  import opened ProtocolTheorems
  import opened SweepTheorems
  import opened HistoryTheorems

  /** Only a PENDING order is ever restored. */
  lemma StepRestoresPending(s: State, init: State, a: Action, i: nat)
    requires Inv(s, init) && i < |s.history| && s.store.orders[i].orderStatus != Pending
    ensures var t := Step(s, a);
      i < |t.history| && t.history[i].restored == s.history[i].restored
  {
    SoundAt(s, init, i);
    StepCounts(s, a, i, Restored);
  }

  // ----- a payment and the units

  /** On no continuation are the order's units put back by the sweep. */
  ghost predicate HoldsForGood(s: State, i: nat) {
    forall more :: i < |Run(s, more).history| && Run(s, more).history[i].restored == 0
  }

  lemma {:induction false} PaidIsNeverSwept(s: State, init: State, i: nat, more: seq<Action>)
    requires Inv(s, init) && i < |s.history|
    requires s.store.orders[i].paymentStatus == Paid && s.history[i].restored == 0
    ensures var u := Run(s, more);
      && Inv(u, init) && i < |u.history|
      && u.store.orders[i].paymentStatus == Paid && u.history[i].restored == 0
  {
    if more == [] {
    } else {
      var front, last := more[..|more| - 1], more[|more| - 1];
      PaidIsNeverSwept(s, init, i, front);
      PaidStaysUnswept(Run(s, front), init, i, last);
      assert more == front + [last];
      RunAppend(s, front, last);
    }
  }

  lemma PaidStaysUnswept(s: State, init: State, i: nat, a: Action)
    requires Inv(s, init) && i < |s.history|
    requires s.store.orders[i].paymentStatus == Paid && s.history[i].restored == 0
    ensures var u := Step(s, a);
      && Inv(u, init) && i < |u.history|
      && u.store.orders[i].paymentStatus == Paid && u.history[i].restored == 0
  {
    SoundAt(s, init, i);
    StepKeeps(s, init, a);
    StepRestoresPending(s, init, a, i);
    StepKeepsOrders(s, init, a);
    assert OrderKept(s.store.orders[i], Step(s, a).store.orders[i]);
  }

  /** After an accepted payment no sweep puts the order's units back on any continuation, exactly when none had before;
      the status PENDING, which the payment updates do not ask for, would be enough to know. */
  lemma PaymentHoldsUnitsIff(init: State, s: State, i: nat, paymentId: string, signature: Option<string>)
    requires Reachable(init, s) && i < |s.store.orders| && i < |s.history|
    requires s.store.orders[i].paymentStatus == PaymentPending && s.store.orders[i].gatewayOrderId.Some?
    ensures HoldsForGood(DoPay(s, i, paymentId, signature), i) <==> s.history[i].restored == 0
    ensures s.store.orders[i].orderStatus == Pending ==> s.history[i].restored == 0
  {
    ReachableInv(init, s);
    SoundAt(s, init, i);
    var t := DoPay(s, i, paymentId, signature);
    PayStep(s, init, i, paymentId, signature);
    RunNone(t);
    if s.history[i].restored == 0 {
      forall more
        ensures i < |Run(t, more).history| && Run(t, more).history[i].restored == 0
      {
        PaidIsNeverSwept(t, init, i, more);
      }
    }
  }

  // ----- the stored document cannot tell

  /** Two reachable shops whose orders are the same documents: in one an administrator cancelled the order and it still
      holds its unit, in the other the sweep did and the unit is back on sale. No test of the document can decide
      whether to accept the payment. */
  lemma DocumentCannotTell() returns (kept: State, swept: State)
    ensures Reachable(OpeningShop(), kept) && Reachable(OpeningShop(), swept)
    ensures kept.store.orders == swept.store.orders && |kept.store.orders| == 1 == |kept.history| == |swept.history|
    ensures kept.store.orders[0].paymentStatus == PaymentPending
    ensures kept.history[0].restored == 0 && swept.history[0].restored == 1
  {
    var init := OpeningShop();
    var s := SweepsMayOverlap();
    kept := ReachableStep(init, s, AdminEdit(0, Cancelled, None, None));
    swept := ReachableStep(init, s, Continue(Sweeping([0], 1801), true, "", "", ""));
    AdminCancels(s);
    SweepCancels(s, [0], 1801);
    assert s.store.orders == [s.store.orders[0]];
  }

  lemma AdminCancels(s: State)
    requires Aligned(s) && |s.store.orders| == 1
    ensures var t := Step(s, AdminEdit(0, Cancelled, None, None));
      t.history == s.history && t.store.orders == [s.store.orders[0].(orderStatus := Cancelled)]
  {
    assert s.store.orders == [s.store.orders[0]];
  }

  lemma SweepCancels(s: State, pending: seq<nat>, started: nat)
    requires Aligned(s) && |s.store.orders| == 1 && s.store.orders[0].orderStatus == Pending
    requires Sweeping(pending, started) in s.procs && pending != [] && pending[0] == 0
    ensures var t := Step(s, Continue(Sweeping(pending, started), true, "", "", ""));
      && t.store.orders == [s.store.orders[0].(orderStatus := Cancelled)]
      && |t.history| == 1 && t.history[0].restored == s.history[0].restored + 1
  {
    assert s.store.orders == [s.store.orders[0]];
  }
}
