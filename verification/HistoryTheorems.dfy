/** The history kept beside the orders is an honest record: each count is the number of steps of the run in which the
    thing it counts took place. */
module HistoryTheorems {
  import opened Wrappers
  import opened Documents
  import opened OrderStore
  import opened Protocol
  import opened ProtocolInvariant
  import opened ProtocolSteps
  import opened ProtocolRuns
  import opened Journey
  import CauseTheorems

  datatype Event =
    | Won | Restored | Settled | Lost | JobLost | Approval | Grant | Withdrawal | Ruling | Refund | StaleRefund
    | Overlap | Shipping | Doubling | Crossing

  function Count(h: History, e: Event): nat {
    match e
    case Won => h.wins
    case Restored => h.restored
    case Settled => h.settled
    case Lost => h.lost
    case JobLost => h.jobsLost
    case Approval => h.approvals
    case Grant => h.granted
    case Withdrawal => h.withdrawn
    case Ruling => h.rulings
    case Refund => h.refunds
    case StaleRefund => h.stale
    case Overlap => h.overlaps
    case Shipping => h.shipments
    case Doubling => h.doubled
    case Crossing => h.crossings
  }

  predicate RefundGoing(s: State, i: nat) {
    Refunding(i, true) in s.procs || Refunding(i, false) in s.procs
  }

  /** A call in flight makes its write. */
  predicate Writes(s: State, a: Action) {
    a.Continue? && a.process in s.procs && a.ok
  }

  predicate Rules(s: State, a: Action, i: nat) {
    a.Arbitrate? && a.order == i && i in s.store.rmas
  }

  predicate Refunds(s: State, a: Action, i: nat) {
    Writes(s, a) && a.process.Refunding? && a.process.order == i && i in s.store.rmas
  }

  predicate Ships(s: State, a: Action, i: nat) {
    Writes(s, a) && a.process == Dispatching(i) && a.awb != "" && a.shipment != ""
  }

  predicate UsesNoCoupon(s: State, i: nat) {
    i < |s.store.orders| && s.store.orders[i].pricing.appliedCoupon.None?
  }

  /** What step a does to order i, in the state it meets. */
  predicate Happens(s: State, a: Action, i: nat, e: Event) {
    match e
    case Won =>
      i < |s.store.orders| && !s.store.orders[i].paymentStatus.Paid?
      && i < |Step(s, a).store.orders| && Step(s, a).store.orders[i].paymentStatus.Paid?
    case Restored =>
      && Writes(s, a) && a.process.Sweeping? && a.process.pending != [] && a.process.pending[0] == i
      && i < |s.store.orders| && s.store.orders[i].orderStatus.Pending?
    case Settled =>
      || (a.CheckoutTx? && a.payment.COD? && i == |s.store.orders| && i < |Step(s, a).store.orders|)
      || (a.Continue? && a.process in s.procs && a.process == OweCoupon(i) && (a.ok || UsesNoCoupon(s, i)))
    case Lost => a.Continue? && a.process in s.procs && a.process == OweCoupon(i) && !a.ok && !UsesNoCoupon(s, i)
    case JobLost => a.Continue? && a.process in s.procs && a.process == OweInvoice(i) && !a.ok
    case Approval => Rules(s, a, i) && a.approve
    case Grant => Rules(s, a, i) && a.approve && !s.store.rmas[i].status.Approved?
    case Withdrawal => Rules(s, a, i) && !a.approve && s.store.rmas[i].status.Approved?
    case Ruling => Rules(s, a, i) && RefundGoing(s, i)
    case Refund => Refunds(s, a, i)
    case StaleRefund => Refunds(s, a, i) && !s.store.rmas[i].status.Approved?
    case Overlap =>
      && a == RefundCheck(i) && i < |s.store.orders| && i in s.store.rmas && s.store.rmas[i].status.Approved?
      && s.store.orders[i].gatewayPaymentId.Some? && RefundGoing(s, i)
    case Shipping => Ships(s, a, i)
    case Doubling => Ships(s, a, i) && i < |s.store.orders| && s.store.orders[i].shiprocketShipmentId.Some?
    case Crossing =>
      a == DispatchCheck(i) && i < |s.store.orders| && MayShip(s.store.orders[i]) && Dispatching(i) in s.procs
  }

  /** One step counts what happens in it, once. */
  predicate Counted(s: State, a: Action, i: nat, e: Event)
    requires i < |s.history|
  {
    && i < |Step(s, a).history|
    && Count(Step(s, a).history[i], e) == Count(s.history[i], e) + if Happens(s, a, i, e) then 1 else 0
  }

  lemma StepCounts(s: State, a: Action, i: nat, e: Event)
    requires Aligned(s) && Referenced(s) && i < |s.history|
    requires s.store.orders[i].paymentStatus.PaymentPending? || s.store.orders[i].paymentStatus.Paid?
    ensures Counted(s, a, i, e)
  {
    match a
    case CheckoutTx(_, _, _, _) => CheckoutCounts(s, a, i, e);
    case Continue(p, _, _, _, _) => TurnCounts(s, a, i, e);
    case RazorpayWebhook(_, _, _, _) => WebhookCounts(s, a, i, e);
    case Arbitrate(_, _) => RulingCounts(s, a, i, e);
    case RefundCheck(_) => RefundCheckCounts(s, a, i, e);
    case DispatchCheck(_) => DispatchCheckCounts(s, a, i, e);
    case _ => OthersCount(s, a, i, e);
  }

  lemma CheckoutCounts(s: State, a: Action, i: nat, e: Event)
    requires Aligned(s) && i < |s.history| && a.CheckoutTx?
    ensures Counted(s, a, i, e)
  {
    CheckoutOnOrder(s, a, i);
    CheckoutHistory(s, a);
  }

  lemma CheckoutHistory(s: State, a: Action)
    requires a.CheckoutTx?
    ensures |s.history| <= |DoCheckout(s, a).history| && DoCheckout(s, a).history[..|s.history|] == s.history
  {
  }

  lemma WebhookCounts(s: State, a: Action, i: nat, e: Event)
    requires Aligned(s) && i < |s.history| && a.RazorpayWebhook?
    requires s.store.orders[i].paymentStatus.PaymentPending? || s.store.orders[i].paymentStatus.Paid?
    ensures Counted(s, a, i, e)
  {
  }

  lemma RulingCounts(s: State, a: Action, i: nat, e: Event)
    requires Aligned(s) && Referenced(s) && i < |s.history| && a.Arbitrate?
    ensures Counted(s, a, i, e)
  {
  }

  lemma RefundCheckCounts(s: State, a: Action, i: nat, e: Event)
    requires Aligned(s) && i < |s.history| && a.RefundCheck?
    ensures Counted(s, a, i, e)
  {
  }

  lemma DispatchCheckCounts(s: State, a: Action, i: nat, e: Event)
    requires Aligned(s) && i < |s.history| && a.DispatchCheck?
    ensures Counted(s, a, i, e)
  {
  }

  lemma OthersCount(s: State, a: Action, i: nat, e: Event)
    requires Aligned(s) && i < |s.history|
    requires !a.CheckoutTx? && !a.Continue? && !a.RazorpayWebhook? && !a.Arbitrate? && !a.RefundCheck?
    requires !a.DispatchCheck?
    ensures Counted(s, a, i, e)
  {
    StepOnOrder(s, a, i);
    OthersWriteNoHistory(s, a);
  }

  lemma OthersWriteNoHistory(s: State, a: Action)
    requires !a.CheckoutTx? && !a.Continue? && !a.RazorpayWebhook? && !a.Arbitrate? && !a.RefundCheck?
    requires !a.DispatchCheck?
    ensures Step(s, a).history == s.history
  {
  }

  lemma TurnCounts(s: State, a: Action, i: nat, e: Event)
    requires Aligned(s) && Referenced(s) && i < |s.history| && a.Continue?
    requires s.store.orders[i].paymentStatus.PaymentPending? || s.store.orders[i].paymentStatus.Paid?
    ensures Counted(s, a, i, e)
  {
    if a.process in s.procs {
      match a.process
      case HandshakeRead(_, _, _) => HandshakeCounts(s, a, i, e);
      case OweCoupon(_) => CouponCounts(s, a, i, e);
      case OweInvoice(_) => InvoiceCounts(s, a, i, e);
      case Sweeping(_, _) => SweepCounts(s, a, i, e);
      case Dispatching(_) => ShipCounts(s, a, i, e);
      case CourierWriting(_, _) => CourierCounts(s, a, i, e);
      case Refunding(_, _) => RefundCounts(s, a, i, e);
    }
  }

  lemma HandshakeCounts(s: State, a: Action, i: nat, e: Event)
    requires Aligned(s) && i < |s.history| && a.Continue? && a.process.HandshakeRead? && a.process in s.procs
    requires s.store.orders[i].paymentStatus.PaymentPending? || s.store.orders[i].paymentStatus.Paid?
    ensures Counted(s, a, i, e)
  {
    if e.Won? {
      HandshakeWins(s, a, i);
    } else {
      HandshakeOnlyWins(s, a, i, e);
    }
  }

  lemma HandshakeOnlyWins(s: State, a: Action, i: nat, e: Event)
    requires Aligned(s) && i < |s.history| && a.Continue? && a.process.HandshakeRead? && a.process in s.procs
    requires !e.Won?
    ensures !Happens(s, a, i, e) && i < |DoContinue(s, a).history|
    ensures Count(DoContinue(s, a).history[i], e) == Count(s.history[i], e)
  {
    HandshakeHistory(s, a);
  }

  lemma HandshakeWins(s: State, a: Action, i: nat)
    requires Aligned(s) && i < |s.history| && a.Continue? && a.process.HandshakeRead? && a.process in s.procs
    requires s.store.orders[i].paymentStatus.PaymentPending? || s.store.orders[i].paymentStatus.Paid?
    ensures var won := a.process.order == i && a.ok && s.store.orders[i].paymentStatus.PaymentPending?;
      && Happens(s, a, i, Won) == won
      && i < |DoContinue(s, a).history|
      && DoContinue(s, a).history[i].wins == s.history[i].wins + if won then 1 else 0
  {
    HandshakeOnOrder(s, a, i);
    HandshakeHistory(s, a);
  }

  lemma PayHistory(s: State, k: nat, paymentId: string, signature: Option<string>)
    requires Aligned(s) && k < |s.history|
    ensures var h := s.history[k];
      DoPay(s, k, paymentId, signature).history
        == if !s.store.orders[k].paymentStatus.PaymentPending? then s.history
           else s.history[k := h.(wins := h.wins + 1, latePaid := h.latePaid || h.restored > 0)]
  {
  }

  lemma HandshakeHistory(s: State, a: Action)
    requires Aligned(s) && a.Continue? && a.process.HandshakeRead? && a.process in s.procs
    ensures var k := a.process.order;
      DoContinue(s, a).history
        == if k >= |s.history| || !a.ok || !s.store.orders[k].paymentStatus.PaymentPending? then s.history
           else
             var h := s.history[k];
             s.history[k := h.(wins := h.wins + 1, latePaid := h.latePaid || h.restored > 0)]
  {
    var p := a.process;
    if p.order < |s.history| {
      PayHistory(Finish(s, p), p.order, p.paymentId, Some(p.signature));
    }
  }

  lemma CouponCounts(s: State, a: Action, i: nat, e: Event)
    requires Aligned(s) && i < |s.history| && a.Continue? && a.process.OweCoupon? && a.process in s.procs
    ensures Counted(s, a, i, e)
  {
    DebtOnOrder(s, a);
    CouponHistory(s, a);
  }

  lemma CouponHistory(s: State, a: Action)
    requires Aligned(s) && a.Continue? && a.process.OweCoupon? && a.process in s.procs
    ensures var k := a.process.order;
      DoContinue(s, a).history
        == if k >= |s.history| then s.history
           else
             var h := s.history[k];
             s.history[k := if UsesNoCoupon(s, k) || a.ok then h.(settled := h.settled + 1)
                            else h.(lost := h.lost + 1)]
  {
  }

  lemma InvoiceCounts(s: State, a: Action, i: nat, e: Event)
    requires Aligned(s) && i < |s.history| && a.Continue? && a.process.OweInvoice? && a.process in s.procs
    ensures Counted(s, a, i, e)
  {
    DebtOnOrder(s, a);
    InvoiceHistory(s, a);
  }

  lemma InvoiceHistory(s: State, a: Action)
    requires a.Continue? && a.process.OweInvoice? && a.process in s.procs
    ensures var k := a.process.order;
      DoContinue(s, a).history
        == if k >= |s.history| || a.ok then s.history
           else s.history[k := s.history[k].(jobsLost := s.history[k].jobsLost + 1)]
  {
  }

  lemma SweepCounts(s: State, a: Action, i: nat, e: Event)
    requires Aligned(s) && i < |s.history| && a.Continue? && a.process.Sweeping? && a.process in s.procs
    ensures Counted(s, a, i, e)
  {
    SweepOnOrder(s, a, i);
    SweepHistory(s, a);
  }

  lemma SweepHistory(s: State, a: Action)
    requires Aligned(s) && a.Continue? && a.process.Sweeping? && a.process in s.procs
    ensures var pending := a.process.pending;
      DoContinue(s, a).history
        == if pending == [] || pending[0] >= |s.history| || !a.ok || !s.store.orders[pending[0]].orderStatus.Pending?
           then s.history
           else s.history[pending[0] := s.history[pending[0]].(restored := s.history[pending[0]].restored + 1)]
  {
    var pending := a.process.pending;
    if pending != [] && pending[0] < |s.history| {
      CancelHistory(Replace(s, a.process, Sweeping(pending[1..], a.process.started)), pending[0]);
    }
  }

  lemma CancelHistory(s: State, k: nat)
    requires Aligned(s) && k < |s.history|
    ensures DoCancel(s, k).history
         == if !s.store.orders[k].orderStatus.Pending? then s.history
            else s.history[k := s.history[k].(restored := s.history[k].restored + 1)]
  {
  }

  lemma ShipCounts(s: State, a: Action, i: nat, e: Event)
    requires Aligned(s) && i < |s.history| && a.Continue? && a.process.Dispatching? && a.process in s.procs
    ensures Counted(s, a, i, e)
  {
  }

  lemma CourierCounts(s: State, a: Action, i: nat, e: Event)
    requires Aligned(s) && i < |s.history| && a.Continue? && a.process.CourierWriting? && a.process in s.procs
    ensures Counted(s, a, i, e)
  {
  }

  lemma RefundCounts(s: State, a: Action, i: nat, e: Event)
    requires Aligned(s) && i < |s.history| && a.Continue? && a.process.Refunding? && a.process in s.procs
    ensures Counted(s, a, i, e)
  {
  }

  // ----- orders to come

  /** Nothing happens to an order that is not on file, but that checkout puts it there. */
  lemma NothingBefore(s: State, a: Action, i: nat, e: Event)
    requires Aligned(s) && Referenced(s) && Aligned(Step(s, a)) && |s.history| <= i
    ensures i < |Step(s, a).history| ==> Count(Step(s, a).history[i], e) == if Happens(s, a, i, e) then 1 else 0
    ensures |Step(s, a).history| <= i ==> !Happens(s, a, i, e)
  {
    if a.CheckoutTx? {
      PlacingCounts(s, a, i, e);
    } else {
      CauseTheorems.OthersAddNone(s, a);
      NoneOnFile(s, a, i, e);
    }
  }

  lemma PlacingCounts(s: State, a: Action, i: nat, e: Event)
    requires a.CheckoutTx? && Aligned(s) && Aligned(DoCheckout(s, a)) && |s.history| <= i
    ensures var t := DoCheckout(s, a);
      && (i < |t.history| ==> Count(t.history[i], e) == if Happens(s, a, i, e) then 1 else 0)
      && (|t.history| <= i ==> !Happens(s, a, i, e))
  {
  }

  lemma NoneOnFile(s: State, a: Action, i: nat, e: Event)
    requires Aligned(s) && Referenced(s) && |s.history| <= i && !a.CheckoutTx?
    ensures !Happens(s, a, i, e)
  {
    if a.Continue? && a.process in s.procs {
      assert WellFormed(a.process, |s.history|);
    }
  }

  // ----- every run

  /** In how many steps of the run it happened to order i. */
  function Tally(init: State, actions: seq<Action>, i: nat, e: Event): nat {
    if actions == [] then 0
    else
      var front, last := actions[..|actions| - 1], actions[|actions| - 1];
      Tally(init, front, i, e) + if Happens(Run(init, front), last, i, e) then 1 else 0
  }

  /** How often the history says it did. */
  function Recorded(s: State, i: nat, e: Event): nat {
    if i < |s.history| then Count(s.history[i], e) else 0
  }

  /** The history is an honest record. */
  lemma {:induction false} HistoryIsTally(init: State, actions: seq<Action>, i: nat, e: Event)
    requires Initial(init)
    ensures Recorded(Run(init, actions), i, e) == Tally(init, actions, i, e)
  {
    if actions == [] {
      RunNone(init);
      assert init.history == [];
    } else {
      var front, last := actions[..|actions| - 1], actions[|actions| - 1];
      HistoryIsTally(init, front, i, e);
      assert actions == front + [last];
      NextIsTally(init, front, last, i, e);
    }
  }

  lemma NextIsTally(init: State, actions: seq<Action>, a: Action, i: nat, e: Event)
    requires Initial(init)
    ensures Recorded(Run(init, actions + [a]), i, e)
         == Recorded(Run(init, actions), i, e) + if Happens(Run(init, actions), a, i, e) then 1 else 0
  {
    RunKeeps(init, actions);
    RunKeeps(init, actions + [a]);
    RunAppend(init, actions, a);
    StepIsRecorded(init, Run(init, actions), a, i, e);
  }

  lemma StepIsRecorded(init: State, s: State, a: Action, i: nat, e: Event)
    requires Inv(s, init) && Inv(Step(s, a), init)
    ensures Recorded(Step(s, a), i, e) == Recorded(s, i, e) + if Happens(s, a, i, e) then 1 else 0
  {
    if i < |s.history| {
      SoundAt(s, init, i);
      StepCounts(s, a, i, e);
    } else {
      NothingBefore(s, a, i, e);
    }
  }
}
