/** When sweeps of abandoned orders overlap: the Redis lock is taken for a minute and never released
    (src/shared/cron/order-recovery.cron.ts). */
module SweepTheorems {
  import opened Wrappers
  import opened Documents
  import opened TaxEngine
  import opened Stock
  import opened OrderStore
  import opened Protocol
  import opened ProtocolInvariant
  import opened ProtocolRuns
  import opened CheckoutLaws

  // ----- what a step does to sweeps and to the lock

  /** Apart from SweepStart and a sweep's own turns, a step leaves every sweep where it is. */
  lemma SweepsUntouched(s: State, a: Action, p: Process)
    requires p.Sweeping? && !a.SweepStart? && !(a.Continue? && a.process.Sweeping?)
    ensures Step(s, a).procs[p] == s.procs[p]
  {
    match a
    case Continue(_, _, _, _, _) => OtherTurns(s, a, p);
    case RazorpayWebhook(_, _, _, _) =>
    case CheckoutTx(_, _, _, _) =>
    case _ =>
  }

  lemma OtherTurns(s: State, a: Action, p: Process)
    requires p.Sweeping? && a.Continue? && !a.process.Sweeping?
    ensures DoContinue(s, a).procs[p] == s.procs[p]
  {
  }

  /** A sweep's turn replaces it by what it has left, or ends it. */
  lemma OwnTurn(s: State, a: Action)
    requires a.Continue? && a.process.Sweeping? && a.process in s.procs
    ensures var rest := if a.process.pending == [] then multiset{}
                        else multiset{Sweeping(a.process.pending[1..], a.process.started)};
      DoContinue(s, a).procs == s.procs - multiset{a.process} + rest
  {
  }

  lemma LockUntouched(s: State, a: Action)
    ensures s.clock <= Step(s, a).clock
    ensures Step(s, a).lockUntil != s.lockUntil ==> a.SweepStart? && s.lockUntil <= s.clock
    ensures !a.Tick? ==> Step(s, a).clock == s.clock
  {
    match a
    case Continue(_, _, _, _, _) => TurnKeepsLock(s, a);
    case RazorpayWebhook(_, _, _, _) =>
    case CheckoutTx(_, _, _, _) =>
    case SweepStart =>
    case _ => RequestsKeepLock(s, a);
  }

  lemma RequestsKeepLock(s: State, a: Action)
    requires !a.Continue? && !a.RazorpayWebhook? && !a.CheckoutTx? && !a.SweepStart?
    ensures Step(s, a).lockUntil == s.lockUntil && s.clock <= Step(s, a).clock
    ensures !a.Tick? ==> Step(s, a).clock == s.clock
  {
  }

  lemma TurnKeepsLock(s: State, a: Action)
    requires a.Continue?
    ensures DoContinue(s, a).clock == s.clock && DoContinue(s, a).lockUntil == s.lockUntil
  {
  }

  /** A scheduled sweep starts exactly when the lock has lapsed, and then holds it for a minute. */
  lemma SweepStartsIff(s: State)
    ensures Step(s, SweepStart) != s <==> s.lockUntil <= s.clock
    ensures s.lockUntil <= s.clock ==>
      Step(s, SweepStart)
        == s.(lockUntil := s.clock + LOCK_SECONDS,
              procs := s.procs + multiset{Sweeping(Snapshot(s.store.orders, s.clock), s.clock)})
  {
    assert Step(s, SweepStart) == DoSweepStart(s);
    if s.lockUntil <= s.clock {
      assert DoSweepStart(s).lockUntil == s.clock + LOCK_SECONDS;
    }
  }

  // ----- two starts are a minute apart

  /** Time goes on, and until the lock of s lapses it stays. */
  predicate LockStays(s: State, t: State) {
    s.clock <= t.clock && (t.clock < s.lockUntil ==> t.lockUntil == s.lockUntil)
  }

  lemma LockStaysStep(s: State, t: State, a: Action)
    requires LockStays(s, t)
    ensures LockStays(s, Step(t, a))
  {
    LockUntouched(t, a);
  }

  lemma {:induction false} LockHolds(s: State, actions: seq<Action>)
    ensures LockStays(s, Run(s, actions))
  {
    if actions == [] {
      RunNone(s);
    } else {
      var front, last := actions[..|actions| - 1], actions[|actions| - 1];
      LockHolds(s, front);
      LockStaysNext(s, front, last);
      assert actions == front + [last];
    }
  }

  lemma LockStaysNext(s: State, actions: seq<Action>, a: Action)
    requires LockStays(s, Run(s, actions))
    ensures LockStays(s, Run(s, actions + [a]))
  {
    RunAppend(s, actions, a);
    LockStaysStep(s, Run(s, actions), a);
  }

  /** Whatever happens in between, if a sweep starts and later another starts, a minute has passed. */
  lemma StartsAreALockApart(s: State, between: seq<Action>)
    requires s.lockUntil <= s.clock
    ensures var u := Run(Step(s, SweepStart), between);
      u.lockUntil <= u.clock ==> s.clock + 60 <= u.clock
  {
    SweepStartsIff(s);
    LockHolds(Step(s, SweepStart), between);
  }

  predicate Apart(p: Process, q: Process)
    requires p.Sweeping? && q.Sweeping?
  {
    p.started + 60 <= q.started || q.started + 60 <= p.started
  }

  /** Sweeps in flight each started under their own lock. */
  ghost predicate LockInv(s: State) {
    s.lockUntil <= s.clock + LOCK_SECONDS && SweepsApart(s.procs, s.lockUntil)
  }

  ghost predicate SweepsApart(procs: multiset<Process>, until: nat) {
    && (forall p :: p in procs && p.Sweeping? ==> p.started + LOCK_SECONDS <= until && procs[p] == 1)
    && (forall p, q :: p in procs && q in procs && p.Sweeping? && q.Sweeping? && p != q ==> Apart(p, q))
  }

  lemma EndKeepsApart(procs: multiset<Process>, until: nat, p: Process)
    requires SweepsApart(procs, until)
    ensures SweepsApart(procs - multiset{p}, until)
  {
  }

  lemma TurnKeepsApart(procs: multiset<Process>, until: nat, p: Process)
    requires SweepsApart(procs, until) && p in procs && p.Sweeping? && p.pending != []
    ensures SweepsApart(procs - multiset{p} + multiset{Sweeping(p.pending[1..], p.started)}, until)
  {
    var rest, others := Sweeping(p.pending[1..], p.started), procs - multiset{p};
    assert rest !in procs;
    assert p !in others;
    forall q | q in others + multiset{rest} && q.Sweeping?
      ensures q == rest || (q in procs && q != p)
    {
    }
  }

  lemma LockStepKeeps(s: State, a: Action)
    requires LockInv(s)
    ensures LockInv(Step(s, a))
  {
    LockUntouched(s, a);
    if a.SweepStart? {
      StartKeepsLock(s);
    } else if a.Continue? && a.process.Sweeping? {
      TurnKeepsLockInv(s, a);
    } else {
      forall p: Process | p.Sweeping?
        ensures Step(s, a).procs[p] == s.procs[p]
      {
        SweepsUntouched(s, a, p);
      }
      SameSweeps(s, Step(s, a));
    }
  }

  lemma SameSweeps(s: State, t: State)
    requires LockInv(s) && t.lockUntil == s.lockUntil && s.clock <= t.clock
    requires forall p: Process :: p.Sweeping? ==> t.procs[p] == s.procs[p]
    ensures LockInv(t)
  {
    forall p | p in t.procs && p.Sweeping?
      ensures p in s.procs && t.procs[p] == 1
    {
      assert t.procs[p] == s.procs[p];
    }
  }

  lemma StartKeepsLock(s: State)
    requires LockInv(s)
    ensures LockInv(Step(s, SweepStart))
  {
    SweepStartsIff(s);
    if s.lockUntil <= s.clock {
      var t, newest := Step(s, SweepStart), Sweeping(Snapshot(s.store.orders, s.clock), s.clock);
      assert newest !in s.procs;
      forall p | p in t.procs && p.Sweeping?
        ensures p == newest || p in s.procs
      {
      }
    }
  }

  lemma TurnKeepsLockInv(s: State, a: Action)
    requires LockInv(s) && a.Continue? && a.process.Sweeping?
    ensures LockInv(Step(s, a))
  {
    var p := a.process;
    if p in s.procs {
      OwnTurn(s, a);
      TurnKeepsLock(s, a);
      if p.pending == [] {
        EndKeepsApart(s.procs, s.lockUntil, p);
        assert s.procs - multiset{p} + multiset{} == s.procs - multiset{p};
      } else {
        TurnKeepsApart(s.procs, s.lockUntil, p);
      }
    }
  }

  lemma {:induction false} RunKeepsLock(init: State, actions: seq<Action>)
    requires Initial(init)
    ensures LockInv(Run(init, actions))
  {
    if actions == [] {
      RunNone(init);
      LockAtOpening(init);
    } else {
      var front, last := actions[..|actions| - 1], actions[|actions| - 1];
      RunKeepsLock(init, front);
      NextKeepsLock(init, front, last);
      assert actions == front + [last];
    }
  }

  lemma LockAtOpening(init: State)
    requires Initial(init)
    ensures LockInv(init)
  {
  }

  lemma NextKeepsLock(init: State, actions: seq<Action>, a: Action)
    requires LockInv(Run(init, actions))
    ensures LockInv(Run(init, actions + [a]))
  {
    RunAppend(init, actions, a);
    LockStepKeeps(Run(init, actions), a);
  }

  /** In every reachable state, of two sweeps in flight one had been running for at least a minute when the other
      started. So sweeps that finish within the minute never overlap. */
  lemma OverlappingSweepsOutlivedTheLock(init: State, s: State, p: Process, q: Process)
    requires Reachable(init, s) && p.Sweeping? && q.Sweeping? && multiset{p, q} <= s.procs
    ensures Apart(p, q) && p.started <= s.clock && q.started <= s.clock
  {
    var actions :| Run(init, actions) == s;
    RunKeepsLock(init, actions);
    assert multiset{p, q}[p] <= s.procs[p] && multiset{p, q}[q] <= s.procs[q];
  }

  // ----- how an overlap begins

  ghost predicate SweepRunning(s: State) {
    exists p :: p in s.procs && p.Sweeping?
  }

  /** At most one sweep is in flight. */
  ghost predicate Alone(s: State) {
    && (forall p :: p in s.procs && p.Sweeping? ==> s.procs[p] == 1)
    && (forall p, q :: p in s.procs && q in s.procs && p.Sweeping? && q.Sweeping? ==> p == q)
  }

  /** The one way two sweeps come to overlap: a sweep is still running when the lock has lapsed and the schedule fires
      again. */
  lemma OverlapBeginsIff(s: State, a: Action)
    requires Alone(s)
    ensures !Alone(Step(s, a)) <==> a.SweepStart? && s.lockUntil <= s.clock && SweepRunning(s)
  {
    if a.SweepStart? {
      StartOverlapsIff(s);
    } else if a.Continue? && a.process.Sweeping? {
      TurnStaysAlone(s, a);
    } else {
      forall p: Process | p.Sweeping?
        ensures Step(s, a).procs[p] == s.procs[p]
      {
        SweepsUntouched(s, a, p);
      }
      SameSweepsAlone(s, Step(s, a));
    }
  }

  lemma SameSweepsAlone(s: State, t: State)
    requires Alone(s) && forall p: Process :: p.Sweeping? ==> t.procs[p] == s.procs[p]
    ensures Alone(t)
  {
    forall p | p in t.procs && p.Sweeping?
      ensures p in s.procs && t.procs[p] == 1
    {
      assert t.procs[p] == s.procs[p];
    }
  }

  lemma StartOverlapsIff(s: State)
    requires Alone(s)
    ensures !Alone(Step(s, SweepStart)) <==> s.lockUntil <= s.clock && SweepRunning(s)
  {
    SweepStartsIff(s);
    if s.lockUntil <= s.clock {
      var t, newest := Step(s, SweepStart), Sweeping(Snapshot(s.store.orders, s.clock), s.clock);
      assert newest in t.procs;
      if SweepRunning(s) {
        var p :| p in s.procs && p.Sweeping?;
        assert p in t.procs;
        assert p == newest ==> t.procs[newest] == 2;
      } else {
        forall p | p in t.procs && p.Sweeping?
          ensures p == newest && t.procs[p] == 1
        {
          assert p !in s.procs;
        }
      }
    }
  }

  lemma TurnStaysAlone(s: State, a: Action)
    requires Alone(s) && a.Continue? && a.process.Sweeping?
    ensures Alone(Step(s, a))
  {
    var t, p := Step(s, a), a.process;
    if p in s.procs {
      OwnTurn(s, a);
      forall q | q in t.procs && q.Sweeping?
        ensures p.pending != [] && q == Sweeping(p.pending[1..], p.started) && t.procs[q] == 1
      {
        assert s.procs[p] == 1;
        assert q != p ==> q !in s.procs;
      }
    }
  }

  // ----- a run in which they do

  /** A shop with one product, one unit of it, and a customer about to buy it. */
  function OpeningShop(): State {
    State(
      Store(
        map["p" := Product(100.0, 0.0, 1, true, LacJewellery, Bangle, false)],
        map[],
        map["u" := CartDoc([CartItem("p", 1, map[])], None, 0, 0.0)],
        [],
        map[]),
      [], multiset{}, multiset{}, 0, 0)
  }

  lemma ReachableStep(init: State, s: State, a: Action) returns (t: State)
    requires Reachable(init, s)
    ensures t == Step(s, a) && Reachable(init, t)
  {
    var actions :| Run(init, actions) == s;
    t := Step(s, a);
    RunAppend(init, actions, a);
    assert Run(init, actions + [a]) == t;
  }

  /** The order is placed and never paid. */
  lemma OrderIsPlaced() returns (s: State)
    ensures Reachable(OpeningShop(), s) && Aligned(s) && |s.store.orders| == 1 && s.history == [FRESH]
    ensures var o := s.store.orders[0];
      && o.orderStatus == Pending && o.createdAt == 0 && o.paymentStatus == PaymentPending && o.gatewayOrderId.Some?
    ensures var o := s.store.orders[0];
      o.user == "u" && o.pricing.discountAmount == 0 && OrderParcels(o.items) == [Parcel("p", 1)]
    ensures s.store.rmas == map[] && "p" in s.store.products
    ensures var product := s.store.products["p"]; product.itemType == Bangle && !product.isFragile
    ensures s.procs == multiset{} && s.clock == 0 && s.lockUntil == 0
  {
    var init := OpeningShop();
    RunNone(init);
    PlacingSucceeds();
    s := ReachableStep(init, init, CheckoutTx("u", "", RAZORPAY, Some("g")));
    CheckoutEffect(init.store, "u", "", RAZORPAY, 0, Some("g"));
  }

  lemma PlacingSucceeds()
    ensures Checkout(OpeningShop().store, "u", "", RAZORPAY, 0, Some("g")).Success?
  {
    var store := OpeningShop().store;
    var items := store.carts["u"].items;
    assert CartParcels(items) == [Parcel("p", 1)];
    assert [Parcel("p", 1)][..0] == [];
    assert Fits(store.products, CartParcels(items));
    CheckoutSucceedsIff(store, "u", "", RAZORPAY, 0, Some("g"));
  }

  /** A sweep that finds the order after half an hour, and another from the next quarter of an hour's schedule, in
      flight together over the same order. */
  lemma SweepsMayOverlap() returns (s: State)
    ensures Reachable(OpeningShop(), s) && Aligned(s) && |s.store.orders| == 1 && s.history == [FRESH]
    ensures s.store.orders[0].orderStatus == Pending && s.store.orders[0].paymentStatus == PaymentPending
    ensures s.procs == multiset{Sweeping([0], 1801), Sweeping([0], 1801 + 900)}
    ensures !Alone(s)
  {
    var init := OpeningShop();
    s := OrderIsPlaced();
    s := TimePasses(init, s, 1801);
    s := SweepFinds(init, s);
    s := TimePasses(init, s, 900);
    s := SweepFinds(init, s);
    assert Sweeping([0], 1801) in s.procs && Sweeping([0], 1801 + 900) in s.procs;
  }

  lemma TimePasses(init: State, s: State, seconds: nat) returns (t: State)
    requires Reachable(init, s)
    ensures Reachable(init, t) && t == s.(clock := s.clock + seconds)
  {
    t := ReachableStep(init, s, Tick(seconds));
  }

  lemma SweepFinds(init: State, s: State) returns (t: State)
    requires Reachable(init, s) && s.lockUntil <= s.clock
    requires |s.store.orders| == 1 && Abandoned(s.store.orders[0], s.clock)
    ensures Reachable(init, t)
    ensures t == s.(lockUntil := s.clock + LOCK_SECONDS, procs := s.procs + multiset{Sweeping([0], s.clock)})
  {
    t := ReachableStep(init, s, SweepStart);
    SweepStartsIff(s);
    assert s.store.orders[..0] == [];
    assert Snapshot(s.store.orders, s.clock) == [0];
  }
}
