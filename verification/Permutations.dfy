/** Injective sequences over an initial segment of the naturals: the pigeonhole principle and
    the invariance of a sum under reordering.  Both are used by the optimality proof of the
    assignment solver. */
module Permutations {

  ghost predicate Distinct<T(!new)>(s: seq<T>) {
    forall a, b :: 0 <= a < b < |s| ==> s[a] != s[b]
  }

  /** `q` maps the rows 0..n-1 one to one onto the columns 0..n-1. */
  ghost predicate IsPermutation(q: seq<nat>, n: nat) {
    && |q| == n
    && (forall k :: 0 <= k < n ==> q[k] < n)
    && Distinct(q)
  }

  function Sum(s: seq<real>): real {
    if s == [] then 0.0 else s[0] + Sum(s[1..])
  }

  lemma SumOfEmpty(s: seq<real>)
    requires s == []
    ensures Sum(s) == 0.0
  {
  }

  function Without<T>(s: seq<T>, k: nat): (r: seq<T>)
    requires k < |s|
  {
    s[..k] + s[k + 1..]
  }

  lemma WithoutKeepsDistinct<T(!new)>(s: seq<T>, k: nat)
    requires k < |s| && Distinct(s)
    ensures Distinct(Without(s, k))
    ensures forall j :: 0 <= j < |s| - 1 ==> Without(s, k)[j] != s[k]
  {
  }

  lemma {:induction false} SumWithout(s: seq<real>, k: nat)
    requires k < |s|
    ensures Sum(s) == s[k] + Sum(Without(s, k))
  {
    if k == 0 {
      assert Without(s, 0) == s[1..];
    } else {
      SumWithout(s[1..], k - 1);
      assert Without(s, k)[1..] == Without(s[1..], k - 1);
    }
  }

  /** n + 1 distinct naturals cannot all be below n. */
  lemma {:induction false} Pigeonhole(q: seq<nat>, n: nat)
    requires Distinct(q)
    requires forall k :: 0 <= k < |q| ==> q[k] < n
    ensures |q| <= n
    decreases n
  {
    if q != [] {
      assert q[0] < n;
      if k :| 0 <= k < |q| && q[k] == n - 1 {
        WithoutKeepsDistinct(q, k);
        Pigeonhole(Without(q, k), n - 1);
      } else {
        Pigeonhole(q, n - 1);
      }
    }
  }

  /** A permutation takes every value. */
  lemma PermutationHits(q: seq<nat>, n: nat, j: nat) returns (k: nat)
    requires j < n && IsPermutation(q, n)
    ensures k < n && q[k] == j
  {
    if forall i :: 0 <= i < n ==> q[i] != j {
      Pigeonhole(seq(n, i requires 0 <= i < n => if q[i] > j then q[i] - 1 else q[i]), n - 1);
    }
    k :| 0 <= k < n && q[k] == j;
  }

  /** The values of `f` at the positions listed in `q`. */
  function Gather(f: seq<real>, q: seq<nat>): (r: seq<real>)
    requires forall k :: 0 <= k < |q| ==> q[k] < |f|
  {
    seq(|q|, k requires 0 <= k < |q| => f[q[k]])
  }

  /** Summing in the order of a permutation gives the plain sum. */
  lemma {:induction false} SumOverPermutation(f: seq<real>, q: seq<nat>)
    requires IsPermutation(q, |f|)
    ensures Sum(Gather(f, q)) == Sum(f)
    decreases |f|
  {
    if |f| > 0 {
      var n := |f|;
      var k := PermutationHits(q, n, n - 1);
      WithoutKeepsDistinct(q, k);
      var rest := Without(q, k);
      var g := f[..n - 1];
      SumOverPermutation(g, rest);
      SumWithout(f, n - 1);
      assert Without(f, n - 1) == g;
      SumWithout(Gather(f, q), k);
      assert Without(Gather(f, q), k) == Gather(g, rest);
    }
  }

  /** Every position left out by q holds 0. */
  ghost predicate ZeroOutside(f: seq<real>, q: seq<nat>) {
    forall i :: 0 <= i < |f| ==> f[i] == 0.0 || i in q
  }

  lemma ZeroOutsideWithout(f: seq<real>, q: seq<nat>, k: nat)
    requires |f| > 0 && k < |q| && q[k] == |f| - 1 && ZeroOutside(f, q)
    ensures ZeroOutside(f[..|f| - 1], Without(q, k))
  {
    forall i | 0 <= i < |f| - 1 ensures f[i] == 0.0 || i in Without(q, k) {
      if i in q {
        var j :| 0 <= j < |q| && q[j] == i;
        assert Without(q, k)[if j < k then j else j - 1] == i;
      }
    }
  }

  /** Summing non-positive values over some of the positions gives at least the plain sum, and exactly that if
      the values left out are 0. */
  lemma {:induction false} SumOverInjection(f: seq<real>, q: seq<nat>)
    requires Distinct(q) && (forall k :: 0 <= k < |q| ==> q[k] < |f|) && forall i :: 0 <= i < |f| ==> f[i] <= 0.0
    ensures Sum(f) <= Sum(Gather(f, q))
    ensures ZeroOutside(f, q) ==> Sum(f) == Sum(Gather(f, q))
    decreases |f|
  {
    hide ZeroOutside;
    if |f| == 0 {
      Pigeonhole(q, 0);
    } else {
      var n := |f|;
      var g := f[..n - 1];
      SumWithout(f, n - 1);
      assert Without(f, n - 1) == g;
      if k :| 0 <= k < |q| && q[k] == n - 1 {
        WithoutKeepsDistinct(q, k);
        var rest := Without(q, k);
        SumOverInjection(g, rest);
        SumWithout(Gather(f, q), k);
        assert Without(Gather(f, q), k) == Gather(g, rest);
        if ZeroOutside(f, q) {
          ZeroOutsideWithout(f, q, k);
        }
      } else {
        SumOverInjection(g, q);
        assert Gather(f, q) == Gather(g, q);
        ZeroOutsideLast(f, q);
      }
    }
  }

  lemma ZeroOutsideLast(f: seq<real>, q: seq<nat>)
    requires |f| > 0 && |f| - 1 !in q
    ensures ZeroOutside(f, q) ==> f[|f| - 1] == 0.0 && ZeroOutside(f[..|f| - 1], q)
  {
  }

  lemma {:induction false} SumAdd(a: seq<real>, b: seq<real>, c: seq<real>)
    requires |a| == |b| == |c|
    requires forall k :: 0 <= k < |a| ==> c[k] == a[k] + b[k]
    ensures Sum(c) == Sum(a) + Sum(b)
  {
    if a != [] {
      SumAdd(a[1..], b[1..], c[1..]);
    }
  }

  lemma {:induction false} SumMonotone(a: seq<real>, b: seq<real>)
    requires |a| == |b|
    requires forall k :: 0 <= k < |a| ==> a[k] <= b[k]
    ensures Sum(a) <= Sum(b)
  {
    if a != [] {
      SumMonotone(a[1..], b[1..]);
    }
  }

  lemma {:induction false} SumAppend(s: seq<real>, x: real)
    ensures Sum(s + [x]) == Sum(s) + x
  {
    if s != [] {
      SumAppend(s[1..], x);
      assert (s + [x])[1..] == s[1..] + [x];
    }
  }
}
