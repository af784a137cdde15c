/** A user's wishlist: a capacity check followed, later, by a guarded `$push`, with removals and self-healing going on
    at the same time (src/modules/wishlists/wishlist.service.ts). */
module Wishlist {
  import opened Wrappers
  import opened Documents
  import opened Stock
  import opened Reference

  const CAPACITY := 100

  /** `$pull` of every entry whose product is listed. */
  function Pull(items: seq<ProductId>, dead: set<ProductId>): (r: seq<ProductId>)
    ensures |r| <= |items|
  {
    if items == [] then []
    else
      var last := items[|items| - 1];
      Pull(items[..|items| - 1], dead) + if last in dead then [] else [last]
  }

  /** The `$push` whose filter demands that the product is not there yet. */
  function Push(doc: Option<seq<ProductId>>, p: ProductId): Option<seq<ProductId>> {
    if doc.Some? && p !in doc.value then Some(doc.value + [p]) else doc
  }

  predicate Distinct(items: seq<ProductId>) {
    forall i, j :: 0 <= i < j < |items| ==> items[i] != items[j]
  }

  // ----- the service run without interference

  predicate Live(ps: Catalogue, p: ProductId) {
    p in ps && ps[p].isActive
  }

  predicate Inactive(ps: Catalogue, p: ProductId) {
    p in ps && !ps[p].isActive
  }

  /** The entries shown: those whose product exists and is active. */
  function Shown(items: seq<ProductId>, ps: Catalogue): seq<ProductId> {
    if items == [] then []
    else
      var last := items[|items| - 1];
      Shown(items[..|items| - 1], ps) + if Live(ps, last) then [last] else []
  }

  /** The entries to purge: a product deleted outright cannot be named any more and stays. */
  function Ghosts(items: seq<ProductId>, ps: Catalogue): set<ProductId> {
    set p | p in items && Inactive(ps, p)
  }

  class List {
    var doc: Option<seq<ProductId>>

    constructor (d: Option<seq<ProductId>>)
      ensures doc == d
    {
      doc := d;
    }

    method GetWishlist(ps: Catalogue) returns (shown: seq<ProductId>)
      modifies this
      ensures shown == if old(doc).Some? then Shown(old(doc).value, ps) else []
      ensures doc == if old(doc).Some? then Some(Pull(old(doc).value, Ghosts(old(doc).value, ps))) else None
    {
      shown := [];
      if doc.None? {
        return;
      }
      var items := doc.value;
      var deadProductIds: set<ProductId> := {};
      var i := 0;
      while i < |items|
        invariant 0 <= i <= |items|
        invariant doc == old(doc)
        invariant shown == Shown(items[..i], ps)
        invariant deadProductIds == Ghosts(items[..i], ps)
      {
        assert items[..i + 1] == items[..i] + [items[i]];
        assert items[..i + 1][..i] == items[..i];
        if items[i] in ps {
          if !ps[items[i]].isActive {
            deadProductIds := deadProductIds + {items[i]};
          } else {
            shown := shown + [items[i]];
          }
        }
        i := i + 1;
      }
      assert items[..i] == items;
      if deadProductIds != {} {
        doc := Some(Pull(items, deadProductIds));
      } else {
        PullNothing(items);
      }
    }

    /** The capacity is checked before the product is looked for, so a full list refuses even a product it holds. */
    method AddItem(p: ProductId, ps: Catalogue) returns (r: Result<seq<ProductId>, AppError>)
      modifies this
      ensures var before := if old(doc).Some? then old(doc).value else [];
        if !Live(ps, p) then r == Failure(NotFound) && doc == old(doc)
        else if 100 <= |before| then r == Failure(CapacityReached) && doc == old(doc)
        else
          var after := if p in before then before else before + [p];
          r == Success(Shown(after, ps)) && doc == Some(Pull(after, Ghosts(after, ps)))
    {
      if p !in ps || !ps[p].isActive {
        return Failure(NotFound);
      }
      if doc.Some? {
        if |doc.value| >= CAPACITY {
          return Failure(CapacityReached);
        }
        if p in doc.value {
          var shown := GetWishlist(ps);
          return Success(shown);
        }
      } else {
        doc := Some([]);
      }
      doc := Push(doc, p);
      var shown := GetWishlist(ps);
      r := Success(shown);
    }
  }

  lemma {:induction false} PullNothing(items: seq<ProductId>)
    ensures Pull(items, {}) == items
  {
    if items == [] {
    } else {
      PullNothing(items[..|items| - 1]);
    }
  }

  /** A purge hides nothing that was shown and has nothing left to purge. */
  lemma {:induction false} HealingKeepsWhatIsShown(items: seq<ProductId>, ps: Catalogue, dead: set<ProductId>)
    requires forall p :: p in dead ==> Inactive(ps, p)
    requires forall p :: p in items && Inactive(ps, p) ==> p in dead
    ensures Shown(Pull(items, dead), ps) == Shown(items, ps)
    ensures Ghosts(Pull(items, dead), ps) == {}
  {
    if items == [] {
    } else {
      var front, last := items[..|items| - 1], items[|items| - 1];
      HealingKeepsWhatIsShown(front, ps, dead);
      var kept := Pull(front, dead);
      if last in dead {
        assert Pull(items, dead) == kept;
        assert Shown(items, ps) == Shown(front, ps);
      } else {
        assert Pull(items, dead) == kept + [last];
        assert (kept + [last])[..|kept|] == kept;
        forall p | p in kept + [last]
          ensures !Inactive(ps, p)
        {
          assert p in kept ==> p !in Ghosts(kept, ps);
        }
      }
    }
  }

  /** Shown are exactly the entries whose product exists and is active, in the list's order. */
  lemma {:induction false} ShownPicks(items: seq<ProductId>, ps: Catalogue) returns (places: seq<nat>)
    ensures Picks(items, Shown(items, ps), places)
    ensures forall k :: k in places <==> 0 <= k < |items| && items[k] in ps && ps[items[k]].isActive
  {
    if items == [] {
      places := [];
    } else {
      var n := |items| - 1;
      places := ShownPicks(items[..n], ps);
      assert items == items[..n] + [items[n]];
      places := PicksNext(items[..n], items[n], Shown(items[..n], ps), places, Live(ps, items[n]));
    }
  }

  /** A pull drops exactly the entries it names and keeps the others in order. */
  lemma {:induction false} PullPicks(items: seq<ProductId>, dead: set<ProductId>) returns (places: seq<nat>)
    ensures Picks(items, Pull(items, dead), places)
    ensures forall k :: k in places <==> 0 <= k < |items| && items[k] !in dead
  {
    if items == [] {
      places := [];
    } else {
      var n := |items| - 1;
      places := PullPicks(items[..n], dead);
      assert items == items[..n] + [items[n]];
      places := PicksNext(items[..n], items[n], Pull(items[..n], dead), places, items[n] !in dead);
    }
  }

  /** Reading a list purges exactly the products switched off; those deleted outright are hidden but stay. */
  lemma PurgePicks(items: seq<ProductId>, ps: Catalogue) returns (places: seq<nat>)
    ensures Picks(items, Pull(items, Ghosts(items, ps)), places)
    ensures forall k :: k in places <==> 0 <= k < |items| && (items[k] in ps ==> ps[items[k]].isActive)
  {
    places := PullPicks(items, Ghosts(items, ps));
  }

  // ----- many requests at once

  /** A call between its capacity check and its push; one that found no list creates it first. */
  datatype Adder = Creating(product: ProductId) | Pushing(product: ProductId)

  /** `peak` is the largest number of adders there has been in flight; the service does not store it. */
  datatype State = State(doc: Option<seq<ProductId>>, adders: multiset<Adder>, peak: nat)

  datatype Action =
    | AddCheck(product: ProductId, active: bool)
    | Create(adder: Adder)
    | AddPush(adder: Adder)
    | Crash(adder: Adder)
    | RemoveItem(product: ProductId)
    | Heal(dead: set<ProductId>)
    | Clear
    | DeleteAccount

  function Start(s: State, a: Adder): State {
    var adders := s.adders + multiset{a};
    s.(adders := adders, peak := if s.peak < |adders| then |adders| else s.peak)
  }

  function Step(s: State, a: Action): State {
    match a
    case AddCheck(p, active) =>
      if !active then s
      else if s.doc.None? then Start(s, Creating(p))
      else if |s.doc.value| >= CAPACITY || p in s.doc.value then s
      else Start(s, Pushing(p))
    case Create(adder) =>
      if adder in s.adders && adder.Creating?
      then s.(adders := s.adders - multiset{adder} + multiset{Pushing(adder.product)},
              doc := if s.doc.None? then Some([]) else s.doc)
      else s
    case AddPush(adder) =>
      if adder in s.adders && adder.Pushing?
      then s.(adders := s.adders - multiset{adder}, doc := Push(s.doc, adder.product))
      else s
    case Crash(adder) => s.(adders := s.adders - multiset{adder})
    case RemoveItem(p) => if s.doc.Some? then s.(doc := Some(Pull(s.doc.value, {p}))) else s
    case Heal(dead) => if s.doc.Some? then s.(doc := Some(Pull(s.doc.value, dead))) else s
    case Clear => if s.doc.Some? then s.(doc := Some([])) else s
    case DeleteAccount => s.(doc := None)
  }

  function Run(s: State, actions: seq<Action>): State {
    if actions == [] then s else Step(Run(s, actions[..|actions| - 1]), actions[|actions| - 1])
  }

  function Length(s: State): nat {
    if s.doc.Some? then |s.doc.value| else 0
  }

  /** The most a list can hold when at most this many adders were ever in flight together. */
  function Limit(peak: nat): nat {
    CAPACITY - 1 + if peak == 0 then 1 else peak
  }

  predicate Inv(s: State) {
    && (s.doc.Some? ==> Distinct(s.doc.value))
    && |s.adders| <= s.peak
    && Length(s) + |s.adders| <= Limit(s.peak)
  }

  predicate Initial(s: State) {
    && s.adders == multiset{} && s.peak == 0
    && (s.doc.Some? ==> Distinct(s.doc.value) && |s.doc.value| <= CAPACITY)
  }

  lemma {:induction false} PullKeepsDistinct(items: seq<ProductId>, dead: set<ProductId>)
    requires Distinct(items)
    ensures Distinct(Pull(items, dead))
    ensures forall p :: p in Pull(items, dead) <==> p in items && p !in dead
  {
    if items == [] {
    } else {
      var front, last := items[..|items| - 1], items[|items| - 1];
      PullKeepsDistinct(front, dead);
      assert last !in front;
      assert items == front + [last];
    }
  }

  lemma StepKeeps(s: State, a: Action)
    requires Inv(s)
    ensures Inv(Step(s, a))
  {
    if s.doc.Some? {
      if a.RemoveItem? {
        PullKeepsDistinct(s.doc.value, {a.product});
      } else if a.Heal? {
        PullKeepsDistinct(s.doc.value, a.dead);
      }
    }
  }

  /** Over every run with any number of adders, removals, purges and deletions going on at once, no product is listed
      twice, and the list with the adders on their way never exceeds 99 plus the most adders ever in flight. */
  lemma {:induction false} CapacityUnderConcurrency(init: State, actions: seq<Action>)
    requires Initial(init)
    ensures var s := Run(init, actions);
      && (s.doc.Some? ==> Distinct(s.doc.value))
      && Length(s) + |s.adders| <= 99 + (if s.peak == 0 then 1 else s.peak)
      && (s.peak <= 1 ==> Length(s) <= 100)
      && Inv(s)
  {
    if actions == [] {
    } else {
      CapacityUnderConcurrency(init, actions[..|actions| - 1]);
      StepKeeps(Run(init, actions[..|actions| - 1]), actions[|actions| - 1]);
    }
  }

  // ----- what single steps do to a list

  /** A call gets past its check exactly for an active product, and with a list at hand only if that has room and does
      not hold the product. */
  lemma AdderStartsIff(s: State, p: ProductId, active: bool)
    ensures var t, a := Step(s, AddCheck(p, active)), if s.doc.None? then Creating(p) else Pushing(p);
      && t.doc == s.doc
      && t.adders == if active && (s.doc.None? || (|s.doc.value| < 100 && p !in s.doc.value))
                     then s.adders + multiset{a} else s.adders
  {
  }

  /** A push appends the product unless it is there by now, and finds nothing to write to when the list is gone;
      creating makes a list only if there is none; a call that fails leaves the list alone. */
  lemma AdderLands(s: State, p: ProductId)
    ensures Pushing(p) in s.adders ==>
      var t := Step(s, AddPush(Pushing(p)));
      && t.doc == (if s.doc.None? || p in s.doc.value then s.doc else Some(s.doc.value + [p]))
      && t.adders == s.adders - multiset{Pushing(p)}
    ensures Creating(p) in s.adders ==>
      var t := Step(s, Create(Creating(p)));
      && t.doc == (if s.doc.None? then Some([]) else s.doc)
      && t.adders == s.adders - multiset{Creating(p)} + multiset{Pushing(p)}
    ensures var t := Step(s, Crash(Pushing(p)));
      t.doc == s.doc && t.adders == s.adders - multiset{Pushing(p)}
  {
  }

  /** The adders in flight after the first j steps. */
  function InFlightAt(init: State, actions: seq<Action>, j: nat): nat
    requires j <= |actions|
  {
    |Run(init, actions[..j]).adders|
  }

  lemma InFlightBefore(init: State, actions: seq<Action>, a: Action, j: nat)
    requires j <= |actions|
    ensures InFlightAt(init, actions + [a], j) == InFlightAt(init, actions, j)
  {
    assert (actions + [a])[..j] == actions[..j];
  }

  lemma InFlightLast(init: State, actions: seq<Action>)
    ensures InFlightAt(init, actions, |actions|) == |Run(init, actions).adders|
  {
    assert actions[..|actions|] == actions;
  }

  /** The peak is what was in flight after k steps, and never was there more. */
  predicate IsPeak(init: State, actions: seq<Action>, k: nat) {
    && k <= |actions| && InFlightAt(init, actions, k) == Run(init, actions).peak
    && forall j :: 0 <= j <= |actions| ==> InFlightAt(init, actions, j) <= Run(init, actions).peak
  }

  lemma {:induction false} PeakIsMostInFlight(init: State, actions: seq<Action>) returns (k: nat)
    requires Initial(init)
    ensures IsPeak(init, actions, k)
  {
    if actions == [] {
      k := 0;
    } else {
      var front, last := actions[..|actions| - 1], actions[|actions| - 1];
      k := PeakIsMostInFlight(init, front);
      k := PeakNext(init, front, last, k);
      assert front + [last] == actions;
    }
  }

  lemma PeakNext(init: State, actions: seq<Action>, a: Action, k: nat) returns (next: nat)
    requires IsPeak(init, actions, k)
    ensures IsPeak(init, actions + [a], next)
  {
    var all := actions + [a];
    InFlightLast(init, actions);
    NextInFlight(init, actions, a);
    next := if Run(init, all).peak == Run(init, actions).peak then k else |all|;
    BoundNext(init, actions, a, Run(init, all).peak);
    InFlightBefore(init, actions, a, k);
  }

  lemma BoundNext(init: State, actions: seq<Action>, a: Action, bound: nat)
    requires forall j :: 0 <= j <= |actions| ==> InFlightAt(init, actions, j) <= bound
    requires InFlightAt(init, actions + [a], |actions| + 1) <= bound
    ensures forall j :: 0 <= j <= |actions| + 1 ==> InFlightAt(init, actions + [a], j) <= bound
  {
    forall j | 0 <= j <= |actions|
      ensures InFlightAt(init, actions + [a], j) == InFlightAt(init, actions, j)
    {
      InFlightBefore(init, actions, a, j);
    }
  }

  /** A step lifts the peak to what is in flight after it, if that is more. */
  lemma NextInFlight(init: State, actions: seq<Action>, a: Action)
    requires |Run(init, actions).adders| <= Run(init, actions).peak
    ensures var all := actions + [a];
      var now, peak := InFlightAt(init, all, |all|), Run(init, actions).peak;
      Run(init, all).peak == if peak < now then now else peak
  {
    InFlightLast(init, actions);
    InFlightLast(init, actions + [a]);
    RunAppend(init, actions, a);
    PeakRises(Run(init, actions), a);
  }

  lemma PeakRises(s: State, a: Action)
    ensures var t := Step(s, a);
      |s.adders| <= s.peak ==> t.peak == if s.peak < |t.adders| then |t.adders| else s.peak
  {
  }

  /** A removed product is gone and every other entry stays, in order; a healed list loses just what the heal names;
      clearing empties the list and deleting the account removes it. */
  lemma EditedList(s: State, p: ProductId, dead: set<ProductId>) returns (kept: seq<nat>, healed: seq<nat>)
    requires s.doc.Some?
    ensures var t := Step(s, RemoveItem(p));
      t.doc.Some? && p !in t.doc.value && Picks(s.doc.value, t.doc.value, kept)
    ensures forall k :: k in kept <==> 0 <= k < |s.doc.value| && s.doc.value[k] != p
    ensures var t := Step(s, Heal(dead));
      t.doc.Some? && Picks(s.doc.value, t.doc.value, healed)
    ensures forall k :: k in healed <==> 0 <= k < |s.doc.value| && s.doc.value[k] !in dead
    ensures Step(s, Clear).doc == Some([]) && Step(s, DeleteAccount).doc == None
  {
    kept := PullPicks(s.doc.value, {p});
    healed := PullPicks(s.doc.value, dead);
    forall j | 0 <= j < |kept|
      ensures Pull(s.doc.value, {p})[j] != p
    {
      assert kept[j] in kept;
    }
  }

  // ----- the bound is reached

  function Checks(ps: seq<ProductId>): seq<Action> {
    seq(|ps|, i requires 0 <= i < |ps| => AddCheck(ps[i], true))
  }

  function Pushes(ps: seq<ProductId>): seq<Action> {
    seq(|ps|, i requires 0 <= i < |ps| => AddPush(Pushing(ps[i])))
  }

  function Waiting(ps: seq<ProductId>): multiset<Adder> {
    multiset(seq(|ps|, i requires 0 <= i < |ps| => Pushing(ps[i])))
  }

  lemma RunAppend(s: State, actions: seq<Action>, a: Action)
    ensures Run(s, actions + [a]) == Step(Run(s, actions), a)
  {
    assert (actions + [a])[..|actions|] == actions;
  }

  lemma WaitingAppend(ps: seq<ProductId>, p: ProductId)
    ensures Waiting(ps + [p]) == Waiting(ps) + multiset{Pushing(p)}
    ensures |Waiting(ps)| == |ps|
  {
    var w := seq(|ps|, i requires 0 <= i < |ps| => Pushing(ps[i]));
    assert seq(|ps + [p]|, i requires 0 <= i < |ps + [p]| => Pushing((ps + [p])[i])) == w + [Pushing(p)];
  }

  lemma {:induction false} AllChecksPass(items: seq<ProductId>, ps: seq<ProductId>)
    requires |items| < CAPACITY && forall i :: 0 <= i < |ps| ==> ps[i] !in items
    ensures Run(State(Some(items), multiset{}, 0), Checks(ps)) == State(Some(items), Waiting(ps), |ps|)
  {
    var s := State(Some(items), multiset{}, 0);
    if ps == [] {
      assert Waiting(ps) == multiset{};
    } else {
      var front, last := ps[..|ps| - 1], ps[|ps| - 1];
      assert ps == front + [last];
      AllChecksPass(items, front);
      assert Checks(ps) == Checks(front) + [AddCheck(last, true)];
      RunAppend(s, Checks(front), AddCheck(last, true));
      CheckPasses(items, front, last);
    }
  }

  lemma CheckPasses(items: seq<ProductId>, ps: seq<ProductId>, p: ProductId)
    requires |items| < CAPACITY && p !in items
    ensures Step(State(Some(items), Waiting(ps), |ps|), AddCheck(p, true))
         == State(Some(items), Waiting(ps + [p]), |ps| + 1)
  {
    WaitingAppend(ps, p);
    WaitingAppend(ps + [p], p);
  }

  lemma {:induction false} AllPushesLand(items: seq<ProductId>, ps: seq<ProductId>, peak: nat, n: nat)
    requires Distinct(items + ps) && n <= |ps|
    ensures Run(State(Some(items), Waiting(ps), peak), Pushes(ps)[..n])
         == State(Some(items + ps[..n]), Waiting(ps[n..]), peak)
  {
    var s := State(Some(items), Waiting(ps), peak);
    if n == 0 {
      assert ps[n..] == ps && items + ps[..n] == items && Pushes(ps)[..n] == [];
    } else {
      AllPushesLand(items, ps, peak, n - 1);
      PushesNext(ps, n - 1);
      RunAppend(s, Pushes(ps)[..n - 1], AddPush(Pushing(ps[n - 1])));
      PushLands(items, ps, peak, n - 1);
    }
  }

  lemma PushesNext(ps: seq<ProductId>, i: nat)
    requires i < |ps|
    ensures Pushes(ps)[..i + 1] == Pushes(ps)[..i] + [AddPush(Pushing(ps[i]))]
  {
  }

  lemma PushLands(items: seq<ProductId>, ps: seq<ProductId>, peak: nat, i: nat)
    requires Distinct(items + ps) && i < |ps|
    ensures Step(State(Some(items + ps[..i]), Waiting(ps[i..]), peak), AddPush(Pushing(ps[i])))
         == State(Some(items + ps[..i + 1]), Waiting(ps[i + 1..]), peak)
  {
    WaitingDrop(ps, i);
    assert Waiting(ps[i..]) - multiset{Pushing(ps[i])} == Waiting(ps[i + 1..]);
    NotYetListed(items, ps, i);
    assert items + ps[..i + 1] == items + ps[..i] + [ps[i]];
  }

  lemma NotYetListed(items: seq<ProductId>, ps: seq<ProductId>, i: nat)
    requires Distinct(items + ps) && i < |ps|
    ensures ps[i] !in items + ps[..i]
  {
    forall k | 0 <= k < |items| + i
      ensures (items + ps[..i])[k] != ps[i]
    {
      assert (items + ps)[k] != (items + ps)[|items| + i];
    }
  }

  lemma WaitingDrop(ps: seq<ProductId>, i: nat)
    requires i < |ps|
    ensures Waiting(ps[i..]) == multiset{Pushing(ps[i])} + Waiting(ps[i + 1..])
  {
    var tail := seq(|ps[i + 1..]|, k requires 0 <= k < |ps[i + 1..]| => Pushing(ps[i + 1..][k]));
    assert seq(|ps[i..]|, k requires 0 <= k < |ps[i..]| => Pushing(ps[i..][k])) == [Pushing(ps[i])] + tail;
  }

  lemma {:induction false} RunConcat(s: State, a: seq<Action>, b: seq<Action>)
    ensures Run(s, a + b) == Run(Run(s, a), b)
  {
    if b == [] {
      assert a + b == a;
    } else {
      assert (a + b)[..|a + b| - 1] == a + b[..|b| - 1];
      RunConcat(s, a, b[..|b| - 1]);
    }
  }

  /** The bound cannot be lowered: if K calls check a list of 99 before any of them pushes, all K land. */
  lemma CapacityBoundIsReached(items: seq<ProductId>, ps: seq<ProductId>)
    requires |items| == 99 && ps != [] && Distinct(items + ps)
    ensures var s := Run(State(Some(items), multiset{}, 0), Checks(ps) + Pushes(ps));
      s == State(Some(items + ps), multiset{}, |ps|) && Length(s) == 99 + s.peak
  {
    var start := State(Some(items), multiset{}, 0);
    forall i | 0 <= i < |ps|
      ensures ps[i] !in items
    {
      assert (items + ps)[|items| + i] == ps[i];
      assert forall k :: 0 <= k < |items| ==> (items + ps)[k] == items[k];
    }
    AllChecksPass(items, ps);
    AllPushesLand(items, ps, |ps|, |ps|);
    assert Pushes(ps)[..|ps|] == Pushes(ps) && ps[..|ps|] == ps && Waiting(ps[|ps|..]) == multiset{};
    RunConcat(start, Checks(ps), Pushes(ps));
  }
}
