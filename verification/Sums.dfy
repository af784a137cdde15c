/** Sums over sequences, taken from the left as the loops of the services accumulate them. */
module Sums {

  function Sum(s: seq<int>): (r: int) {
    if s == [] then 0 else Sum(s[..|s| - 1]) + s[|s| - 1]
  }

  lemma SumAppend(s: seq<int>, x: int)
    ensures Sum(s + [x]) == Sum(s) + x
  {
    assert (s + [x])[..|s|] == s;
  }

  lemma SumConcat(a: seq<int>, b: seq<int>)
    ensures Sum(a + b) == Sum(a) + Sum(b)
  {
    if b == [] {
      assert a + b == a;
    } else {
      var front := b[..|b| - 1];
      SumConcat(a, front);
      assert (a + b)[..|a + b| - 1] == a + front;
    }
  }

  lemma {:induction false} SumUpdate(s: seq<int>, i: nat, x: int)
    requires i < |s|
    ensures Sum(s[i := x]) == Sum(s) - s[i] + x
  {
    var t := s[i := x];
    var n := |s| - 1;
    if i == n {
      assert t[..n] == s[..n];
    } else {
      assert t[..n] == s[..n][i := x];
      SumUpdate(s[..n], i, x);
    }
  }

  lemma {:induction false} SumBounds(s: seq<int>, lo: int, hi: int)
    requires forall i :: 0 <= i < |s| ==> lo <= s[i] <= hi
    ensures lo * |s| <= Sum(s) <= hi * |s|
  {
    if s == [] {
    } else {
      var front := s[..|s| - 1];
      SumBounds(front, lo, hi);
      assert lo * |s| == lo * |front| + lo;
      assert hi * |s| == hi * |front| + hi;
    }
  }

  function SumReal(s: seq<real>): (r: real) {
    if s == [] then 0.0 else SumReal(s[..|s| - 1]) + s[|s| - 1]
  }

  lemma SumRealAppend(s: seq<real>, x: real)
    ensures SumReal(s + [x]) == SumReal(s) + x
  {
    assert (s + [x])[..|s|] == s;
  }

  lemma {:induction false} SumRealScale(s: seq<real>, t: seq<real>, k: real)
    requires |s| == |t|
    requires forall i :: 0 <= i < |s| ==> t[i] == k * s[i]
    ensures SumReal(t) == k * SumReal(s)
  {
    if s == [] {
    } else {
      var n := |s| - 1;
      SumRealScale(s[..n], t[..n], k);
      assert k * (SumReal(s[..n]) + s[n]) == k * SumReal(s[..n]) + k * s[n];
    }
  }

  lemma {:induction false} SumRealMonotone(s: seq<real>, t: seq<real>)
    requires |s| == |t|
    requires forall i :: 0 <= i < |s| ==> s[i] <= t[i]
    ensures SumReal(s) <= SumReal(t)
  {
    if s == [] {
    } else {
      SumRealMonotone(s[..|s| - 1], t[..|t| - 1]);
    }
  }

  /** Rounding every term moves the sum by at most half a paisa per term. */
  lemma {:induction false} SumRounded(s: seq<real>, t: seq<int>)
    requires |s| == |t|
    requires forall i :: 0 <= i < |s| ==> t[i] as real - 0.5 <= s[i] <= t[i] as real + 0.5
    ensures Sum(t) as real - |s| as real / 2.0 <= SumReal(s) <= Sum(t) as real + |s| as real / 2.0
  {
    if s == [] {
    } else {
      var n := |s| - 1;
      SumRounded(s[..n], t[..n]);
      assert Sum(t) as real == Sum(t[..n]) as real + t[n] as real;
      assert |s| as real / 2.0 == n as real / 2.0 + 0.5;
    }
  }

  // ----- differences, term by term

  lemma {:induction false} SumDifference(a: seq<int>, b: seq<int>, c: seq<int>)
    requires |a| == |b| == |c|
    requires forall i :: 0 <= i < |a| ==> c[i] == a[i] - b[i]
    ensures Sum(c) == Sum(a) - Sum(b)
  {
    if a == [] {
    } else {
      var n := |a| - 1;
      SumDifference(a[..n], b[..n], c[..n]);
    }
  }

  lemma {:induction false} SumRealDifference(a: seq<real>, b: seq<real>, c: seq<real>)
    requires |a| == |b| == |c|
    requires forall i :: 0 <= i < |a| ==> c[i] == a[i] - b[i]
    ensures SumReal(c) == SumReal(a) - SumReal(b)
  {
    if a == [] {
    } else {
      var n := |a| - 1;
      SumRealDifference(a[..n], b[..n], c[..n]);
    }
  }

  // ----- totals that do not see the order

  /** What a measure comes to over a sequence of anything. */
  function Total<T>(s: seq<T>, measure: T -> nat): nat {
    if s == [] then 0 else Total(s[..|s| - 1], measure) + measure(s[|s| - 1])
  }

  lemma {:induction false} TotalConcat<T>(a: seq<T>, b: seq<T>, measure: T -> nat)
    ensures Total(a + b, measure) == Total(a, measure) + Total(b, measure)
  {
    if b == [] {
      assert a + b == a;
    } else {
      TotalConcat(a, b[..|b| - 1], measure);
      assert (a + b)[..|a + b| - 1] == a + b[..|b| - 1];
    }
  }

  lemma TotalRemove<T>(s: seq<T>, j: nat, measure: T -> nat)
    requires j < |s|
    ensures Total(s, measure) == Total(s[..j] + s[j + 1..], measure) + measure(s[j])
  {
    var front, back := s[..j], s[j + 1..];
    assert s[..j + 1] == front + [s[j]];
    assert s[..j + 1] + back == s;
    TotalConcat(s[..j + 1], back, measure);
    TotalAppend(front, s[j], measure);
    TotalConcat(front, back, measure);
  }

  lemma TotalAppend<T>(s: seq<T>, x: T, measure: T -> nat)
    ensures Total(s + [x], measure) == Total(s, measure) + measure(x)
  {
    assert (s + [x])[..|s|] == s;
  }

  lemma {:induction false} TotalPermutation<T>(a: seq<T>, b: seq<T>, measure: T -> nat)
    requires multiset(a) == multiset(b)
    ensures Total(a, measure) == Total(b, measure)
  {
    if a == [] {
      assert b == [] by {
        assert |multiset(b)| == 0;
      }
    } else {
      var j := MatchLast(a, b);
      TotalPermutation(a[..|a| - 1], b[..j] + b[j + 1..], measure);
      TotalRemove(b, j, measure);
    }
  }

  /** The last element of one sequence, found in a permutation of it, and what the two have left. */
  lemma MatchLast<T>(a: seq<T>, b: seq<T>) returns (j: nat)
    requires a != [] && multiset(a) == multiset(b)
    ensures j < |b| && b[j] == a[|a| - 1]
    ensures multiset(a[..|a| - 1]) == multiset(b[..j] + b[j + 1..])
  {
    var n := |a| - 1;
    assert a[n] in multiset(b);
    j :| 0 <= j < |b| && b[j] == a[n];
    MultisetRemove(a, n);
    assert a[..n] == a[..n] + a[n + 1..];
    MultisetRemove(b, j);
  }

  lemma MultisetRemove<T>(s: seq<T>, j: nat)
    requires j < |s|
    ensures multiset(s[..j] + s[j + 1..]) == multiset(s) - multiset{s[j]}
  {
    assert s == s[..j] + [s[j]] + s[j + 1..];
  }

  /** Any element can be moved to the front. */
  lemma MoveToFront<T>(s: seq<T>, j: nat) returns (t: seq<T>)
    requires j < |s|
    ensures t != [] && t[0] == s[j] && multiset(t) == multiset(s)
  {
    t := [s[j]] + (s[..j] + s[j + 1..]);
    MultisetRemove(s, j);
  }
}
