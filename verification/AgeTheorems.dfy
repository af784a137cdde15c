/** How old the orders are that a sweep touches, however stale its snapshot. */
module AgeTheorems {
  import opened Documents
  import opened OrderStore
  import opened Protocol
  import opened ProtocolInvariant
  import opened ProtocolRuns
  import opened SweepTheorems
  import opened ProtocolSteps
  import opened HistoryTheorems
  import opened CheckoutLaws
  import opened Journey

  /** Placed more than half an hour ago. */
  predicate IsOld(s: State, i: nat) {
    i < |s.store.orders| && s.store.orders[i].createdAt + 1800 < s.clock
  }

  ghost predicate OldPending(s: State, p: Process) {
    p.Sweeping? ==> forall k :: 0 <= k < |p.pending| ==> IsOld(s, p.pending[k])
  }

  /** Every sweep in flight is after old orders, and only old orders were ever put back. */
  ghost predicate AgesInv(s: State) {
    && Aligned(s)
    && (forall p :: p in s.procs ==> OldPending(s, p))
    && (forall i :: 0 <= i < |s.history| && s.history[i].restored > 0 ==> IsOld(s, i))
  }

  lemma OldStays(s: State, a: Action, i: nat)
    requires Aligned(s) && IsOld(s, i)
    ensures IsOld(Step(s, a), i)
  {
    StepOnOrder(s, a, i);
    PlacedOnce(s, a, i);
    LockUntouched(s, a);
  }

  lemma PlacedOnce(s: State, a: Action, i: nat)
    requires i < |s.store.orders|
    ensures After(s, a, i, Opens(s.store, a)).createdAt == s.store.orders[i].createdAt
  {
  }

  lemma SweepsStayOld(s: State, a: Action, p: Process)
    requires AgesInv(s) && p in Step(s, a).procs
    ensures OldPending(Step(s, a), p)
  {
    var t := Step(s, a);
    if p in s.procs {
      OldPendingStays(s, a, p);
    } else if p.Sweeping? && a.SweepStart? {
      SweepStartsIff(s);
      SnapshotListsOverdue(s.store.orders, s.clock);
    } else if p.Sweeping? && a.Continue? && a.process.Sweeping? {
      TailStaysOld(s, a, p);
    } else if p.Sweeping? {
      SweepsUntouched(s, a, p);
    }
  }

  lemma OldPendingStays(s: State, a: Action, p: Process)
    requires Aligned(s) && OldPending(s, p)
    ensures OldPending(Step(s, a), p)
  {
    if p.Sweeping? {
      forall k | 0 <= k < |p.pending|
        ensures IsOld(Step(s, a), p.pending[k])
      {
        OldStays(s, a, p.pending[k]);
      }
    }
  }

  lemma TailStaysOld(s: State, a: Action, p: Process)
    requires AgesInv(s) && a.Continue? && a.process.Sweeping? && p.Sweeping?
    requires p in Step(s, a).procs && p !in s.procs
    ensures OldPending(Step(s, a), p)
  {
    if a.process in s.procs {
      OwnTurn(s, a);
      OldPendingStays(s, a, a.process);
      assert p.pending == a.process.pending[1..];
    }
  }

  lemma AgesStep(s: State, init: State, a: Action)
    requires AgesInv(s) && Inv(s, init) && Aligned(Step(s, a))
    ensures AgesInv(Step(s, a))
  {
    var t := Step(s, a);
    forall p | p in t.procs
      ensures OldPending(t, p)
    {
      SweepsStayOld(s, a, p);
    }
    forall i | 0 <= i < |t.history| && t.history[i].restored > 0
      ensures IsOld(t, i)
    {
      RestoredStaysOld(s, init, a, i);
    }
  }

  lemma RestoredStaysOld(s: State, init: State, a: Action, i: nat)
    requires AgesInv(s) && Inv(s, init) && Aligned(Step(s, a))
    requires i < |Step(s, a).history| && Step(s, a).history[i].restored > 0
    ensures IsOld(Step(s, a), i)
  {
    if i < |s.history| {
      SoundAt(s, init, i);
      StepCounts(s, a, i, Restored);
      if a.Continue? && a.process in s.procs && s.history[i].restored == 0 {
        assert OldPending(s, a.process);
        assert IsOld(s, a.process.pending[0]);
      }
      OldStays(s, a, i);
    } else {
      NothingBefore(s, a, i, Restored);
    }
  }

  /** Whatever runs in between its read and its write, a sweep puts back only orders placed more than half an hour
      before. */
  lemma {:induction false} SweptOrdersWereOverdue(init: State, actions: seq<Action>)
    requires Initial(init)
    ensures var s := Run(init, actions);
      && |s.history| == |s.store.orders|
      && forall i :: 0 <= i < |s.history| && s.history[i].restored > 0 ==> s.store.orders[i].createdAt + 1800 < s.clock
    ensures AgesInv(Run(init, actions))
  {
    if actions == [] {
      RunNone(init);
    } else {
      var front, last := actions[..|actions| - 1], actions[|actions| - 1];
      SweptOrdersWereOverdue(init, front);
      RunKeeps(init, front);
      RunKeeps(init, actions);
      assert actions == front + [last];
      RunAppend(init, front, last);
      AgesStep(Run(init, front), init, last);
    }
  }
}
