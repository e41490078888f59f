/** What every step of the solver keeps, for every square matrix of non-negative entries, forbidden
    or not: partial matching, feasible duals, and `way` chains that end at column 0.  Hence the solver
    terminates and its result is a permutation. */
module HungarianSafety {
  import opened Permutations
  import opened Hungarian

  // ------------------------------------------------------------------------- the matching

  ghost predicate InjectiveExcept(n: nat, p: seq<nat>, h: nat)
    requires |p| == n + 1
  {
    forall a, b :: 0 <= a < b <= n && a != h && b != h && p[a] != 0 ==> p[a] != p[b]
  }

  ghost predicate Placed(n: nat, p: seq<nat>, h: nat, r: nat)
    requires |p| == n + 1
  {
    exists a :: 0 <= a <= n && a != h && p[a] == r
  }

  /** While walking back, the content of column j0 is about to be overwritten. */
  ghost function Hole(n: nat, s: State): nat {
    if s.flipping then s.j0 else n + 1
  }

  /** Apart from the hole, `p` holds each of the rows 1..row exactly once. */
  ghost predicate Matching(n: nat, s: State)
    requires Shape(n, s)
  {
    && (forall j :: 0 <= j <= n ==> s.p[j] <= s.row)
    && InjectiveExcept(n, s.p, Hole(n, s))
    && (forall r :: 1 <= r <= s.row ==> Placed(n, s.p, Hole(n, s), r))
    && (!s.flipping ==> s.p[0] == s.row >= 1)
  }

  // ---------------------------------------------------------------------------- the duals

  ghost predicate Feasible(cost: Matrix, n: nat, s: State)
    requires Square(cost, n) && Shape(n, s)
  {
    && (forall r, c :: 1 <= r <= n && 1 <= c <= n ==> Slack(cost, n, s.u, s.v, r, c) >= 0.0)
    && (forall r :: 1 <= r <= n ==> s.u[r] >= 0.0)
    && (forall c :: 1 <= c <= n ==> s.v[c] <= 0.0)
    && (forall r :: s.row < r <= n ==> s.u[r] == 0.0)
  }

  // --------------------------------------------------------------------- the back-pointers

  /** A rank that falls along `way` : every chain of back-pointers ends at column 0. */
  ghost predicate Ranked(n: nat, way: seq<nat>, rank: seq<nat>) {
    && |way| == |rank| == n + 1
    && (forall j :: 0 <= j <= n ==> way[j] <= n)
    && (forall j :: 1 <= j <= n ==> rank[way[j]] < rank[j])
  }

  // --------------------------------------------------------------------------- the search

  ghost predicate Tree(cost: Matrix, n: nat, s: State)
    requires Square(cost, n) && Shape(n, s) && s.p[0] >= 1
  {
    && (forall j :: 0 <= j <= n && s.used[j] ==> s.p[j] != 0)
    && (forall c :: 1 <= c <= n && !s.used[c] ==> s.minVal[c] >= 0.0)
    && (forall k, c :: 0 <= k <= n && s.used[k] && 1 <= c <= n && !s.used[c] ==>
          s.minVal[c] <= Slack(cost, n, s.u, s.v, s.p[k], c))
  }

  /** The value that an untouched `minVal` has come down to: u[row] is the sum of the deltas. */
  ghost function Cap(n: nat, inf: real, s: State): real
    requires Shape(n, s) && s.row <= n
  {
    inf - s.u[s.row]
  }

  /** Column k was last reached from a column of the current tree. */
  ghost predicate Linked(n: nat, s: State, k: nat)
    requires Shape(n, s) && k <= n
  {
    s.used[s.way[k]]
  }

  /** Live columns below the cap were reached from the tree; the tree is closed under `way`. */
  ghost predicate Fresh(n: nat, inf: real, s: State)
    requires Shape(n, s)
  {
    && (forall k {:trigger Linked(n, s, k)} :: 1 <= k <= n && s.used[k] ==> Linked(n, s, k))
    && (forall c :: 1 <= c <= n && !s.used[c] ==> s.minVal[c] <= Cap(n, inf, s))
    && (forall c {:trigger Linked(n, s, c)} :: 1 <= c <= n && !s.used[c] && s.minVal[c] < Cap(n, inf, s) ==>
         Linked(n, s, c))
  }

  /** The search ran out of edges below the sentinel: from here on columns are taken in order. */
  ghost predicate Dead(n: nat, s: State)
    requires Shape(n, s)
  {
    forall c :: 1 <= c <= n && !s.used[c] ==> s.minVal[c] == 0.0
  }

  ghost predicate Searching(cost: Matrix, n: nat, inf: real, s: State)
    requires Square(cost, n) && Shape(n, s) && s.p[0] >= 1
  {
    && Tree(cost, n, s)
    && (s.used[0] || s.j0 == 0)
    && (|| (Fresh(n, inf, s) && !s.used[s.j0] && (s.j0 >= 1 ==> Linked(n, s, s.j0)))
        || (Dead(n, s) && (s.used[s.j0] ==> s.j0 == 0)))
  }

  ghost predicate Safe(cost: Matrix, n: nat, inf: real, s: State, rank: seq<nat>)
    requires Square(cost, n)
  {
    && Shape(n, s)
    && Matching(n, s)
    && Feasible(cost, n, s)
    && Ranked(n, s.way, rank)
    && (!s.flipping ==> Searching(cost, n, inf, s))
  }

  // -------------------------------------------------------------------------- the dual step

  ghost predicate InTree(p: seq<nat>, used: seq<bool>, k: nat, r: nat)
    requires |p| == |used| && k <= |p|
  {
    exists j :: 0 <= j < k && used[j] && p[j] == r
  }

  lemma {:induction false} RaisedAt(u: seq<real>, p: seq<nat>, used: seq<bool>, delta: real, k: nat, r: nat)
    requires |p| == |used| && k <= |p| && r < |u|
    requires forall j :: 0 <= j < |p| ==> p[j] < |u|
    requires forall a, b :: 0 <= a < b < k && used[a] && used[b] ==> p[a] != p[b]
    ensures Raised(u, p, used, delta, k)[r] == if InTree(p, used, k, r) then u[r] + delta else u[r]
  {
    if k > 0 {
      RaisedAt(u, p, used, delta, k - 1, r);
      assert InTree(p, used, k, r) == (InTree(p, used, k - 1, r) || (used[k - 1] && p[k - 1] == r));
    }
  }

  /** As long as a row is being inserted, some column is free, hence live. */
  lemma FreeColumn(n: nat, s: State) returns (c: nat)
    requires Shape(n, s) && Matching(n, s) && !s.flipping
    ensures 1 <= c <= n && s.p[c] == 0
  {
    if forall j :: 1 <= j <= n ==> s.p[j] != 0 {
      var q: seq<nat> := seq(n + 1, j requires 0 <= j <= n => if s.p[j] > 0 then s.p[j] - 1 else 0);
      Pigeonhole(q, n);
    }
    c :| 1 <= c <= n && s.p[c] == 0;
  }

  // ------------------------------------------------------------- a round of the search is safe

  lemma RelaxedTree(cost: Matrix, n: nat, s: State)
    requires Square(cost, n) && Shape(n, s) && s.p[0] >= 1 && Tree(cost, n, s) && !s.flipping
    requires Feasible(cost, n, s)
    ensures Tree(cost, n, Relaxed(cost, n, s))
  {
    var t := Relaxed(cost, n, s);
    forall k, c | 0 <= k <= n && t.used[k] && 1 <= c <= n && !t.used[c]
      ensures t.minVal[c] <= Slack(cost, n, t.u, t.v, t.p[k], c)
    {
      assert !s.used[c] && c != s.j0;
      if k != s.j0 { assert s.used[k]; }
    }
  }

  lemma RelaxedFresh(cost: Matrix, n: nat, inf: real, s: State)
    requires Square(cost, n) && Shape(n, s) && !s.flipping
    requires Fresh(n, inf, s) && !s.used[s.j0] && (s.j0 >= 1 ==> Linked(n, s, s.j0))
    ensures Fresh(n, inf, Relaxed(cost, n, s))
  {
    var t := Relaxed(cost, n, s);
    forall k | 1 <= k <= n && t.used[k] ensures Linked(n, t, k) {
      assert Linked(n, s, k);
    }
    forall c | 1 <= c <= n && !t.used[c] && t.minVal[c] < Cap(n, inf, t) ensures Linked(n, t, c) {
      assert t.way[c] == s.j0 || Linked(n, s, c);
    }
  }

  /** Once dead, no column improves any more, so stale back-pointers stay as they are. */
  lemma RelaxedDead(cost: Matrix, n: nat, s: State)
    requires Square(cost, n) && Shape(n, s) && !s.flipping && Feasible(cost, n, s) && Dead(n, s)
    ensures Dead(n, Relaxed(cost, n, s)) && Relaxed(cost, n, s).way == s.way
  {
    var t := Relaxed(cost, n, s);
    forall c | 0 <= c <= n ensures t.way[c] == s.way[c] && t.minVal[c] == s.minVal[c] {
      if c >= 1 && !s.used[c] {
        assert Slack(cost, n, s.u, s.v, s.p[s.j0], c) >= 0.0;
      }
    }
  }

  lemma RelaxedSearch(cost: Matrix, n: nat, inf: real, s: State, rank: seq<nat>)
    requires Square(cost, n) && Safe(cost, n, inf, s, rank) && !s.flipping
    ensures Tree(cost, n, Relaxed(cost, n, s))
    ensures Fresh(n, inf, s) && !s.used[s.j0] && (s.j0 >= 1 ==> Linked(n, s, s.j0)) ==>
            Fresh(n, inf, Relaxed(cost, n, s))
    ensures Dead(n, s) ==> Dead(n, Relaxed(cost, n, s)) && Relaxed(cost, n, s).way == s.way
  {
    RelaxedTree(cost, n, s);
    if Dead(n, s) {
      RelaxedDead(cost, n, s);
    }
    if Fresh(n, inf, s) && !s.used[s.j0] && (s.j0 >= 1 ==> Linked(n, s, s.j0)) {
      RelaxedFresh(cost, n, inf, s);
    }
  }

  lemma RelaxedRank(cost: Matrix, n: nat, inf: real, s: State, rank: seq<nat>) returns (rank': seq<nat>)
    requires Square(cost, n) && Safe(cost, n, inf, s, rank) && !s.flipping
    ensures Ranked(n, Relaxed(cost, n, s).way, rank')
  {
    var t := Relaxed(cost, n, s);
    if Dead(n, s) {
      RelaxedSearch(cost, n, inf, s, rank);
      rank' := rank;
    } else {
      rank' := seq(n + 1, j requires 0 <= j <= n => if t.used[j] then rank[j] else rank[j] + rank[s.j0] + 1);
      forall j | 1 <= j <= n ensures rank'[t.way[j]] < rank'[j] {
        assert t.used[j] ==> Linked(n, s, j);
      }
    }
  }

  /** The dual step raises exactly the rows of the tree. */
  lemma ShiftedRows(n: nat, t: State, delta: real, j1: nat)
    requires Shape(n, t) && j1 <= n && Matching(n, t) && !t.flipping
    requires forall j :: 0 <= j <= n && t.used[j] ==> t.p[j] != 0
    ensures forall r :: 0 <= r <= n ==>
      Shifted(n, t, delta, j1).u[r] == if InTree(t.p, t.used, n + 1, r) then t.u[r] + delta else t.u[r]
    ensures forall k :: 0 <= k <= n && t.used[k] ==> Shifted(n, t, delta, j1).u[t.p[k]] == t.u[t.p[k]] + delta
  {
    var w := Shifted(n, t, delta, j1);
    forall r | 0 <= r <= n
      ensures w.u[r] == if InTree(t.p, t.used, n + 1, r) then t.u[r] + delta else t.u[r]
    {
      RaisedAt(t.u, t.p, t.used, delta, n + 1, r);
    }
    forall k | 0 <= k <= n && t.used[k] ensures w.u[t.p[k]] == t.u[t.p[k]] + delta {
      assert InTree(t.p, t.used, n + 1, t.p[k]);
    }
  }

  /** The dual step keeps feasibility: it is bounded by the slack of every edge leaving the tree. */
  lemma ShiftedSlack(cost: Matrix, n: nat, t: State, delta: real, j1: nat, r: nat, c: nat)
    requires Square(cost, n) && Shape(n, t) && j1 <= n
    requires Matching(n, t) && Feasible(cost, n, t) && !t.flipping && Tree(cost, n, t)
    requires delta >= 0.0 && forall c :: 1 <= c <= n && !t.used[c] ==> delta <= t.minVal[c]
    requires 1 <= r <= n && 1 <= c <= n
    ensures var w := Shifted(n, t, delta, j1); Slack(cost, n, w.u, w.v, r, c) >= 0.0
  {
    var w := Shifted(n, t, delta, j1);
    RaisedAt(t.u, t.p, t.used, delta, n + 1, r);
    assert Slack(cost, n, t.u, t.v, r, c) >= 0.0;
    if InTree(t.p, t.used, n + 1, r) && !t.used[c] {
      var j :| 0 <= j <= n && t.used[j] && t.p[j] == r;
      assert t.minVal[c] <= Slack(cost, n, t.u, t.v, t.p[j], c);
    }
  }

  lemma ShiftedFeasible(cost: Matrix, n: nat, t: State, delta: real, j1: nat)
    requires Square(cost, n) && Shape(n, t) && j1 <= n
    requires Matching(n, t) && Feasible(cost, n, t) && !t.flipping && Tree(cost, n, t)
    requires delta >= 0.0 && forall c :: 1 <= c <= n && !t.used[c] ==> delta <= t.minVal[c]
    ensures Feasible(cost, n, Shifted(n, t, delta, j1))
  {
    var w := Shifted(n, t, delta, j1);
    ShiftedRows(n, t, delta, j1);
    forall r, c | 1 <= r <= n && 1 <= c <= n ensures Slack(cost, n, w.u, w.v, r, c) >= 0.0 {
      ShiftedSlack(cost, n, t, delta, j1, r, c);
    }
  }

  lemma ShiftedTree(cost: Matrix, n: nat, t: State, delta: real, j1: nat)
    requires Square(cost, n) && Shape(n, t) && j1 <= n
    requires Matching(n, t) && !t.flipping && Tree(cost, n, t)
    requires forall c :: 1 <= c <= n && !t.used[c] ==> delta <= t.minVal[c]
    ensures Tree(cost, n, Shifted(n, t, delta, j1))
  {
    var w := Shifted(n, t, delta, j1);
    ShiftedRows(n, t, delta, j1);
    forall k, c | 0 <= k <= n && w.used[k] && 1 <= c <= n && !w.used[c]
      ensures w.minVal[c] <= Slack(cost, n, w.u, w.v, w.p[k], c)
    {
      assert t.minVal[c] <= Slack(cost, n, t.u, t.v, t.p[k], c);
      assert w.u[t.p[k]] == t.u[t.p[k]] + delta;
    }
  }

  lemma ShiftedCap(cost: Matrix, n: nat, inf: real, t: State, delta: real, j1: nat)
    requires Square(cost, n) && Shape(n, t) && j1 <= n && !t.flipping && t.used[0]
    requires Matching(n, t) && Tree(cost, n, t)
    ensures Cap(n, inf, Shifted(n, t, delta, j1)) == Cap(n, inf, t) - delta
  {
    ShiftedRows(n, t, delta, j1);
    assert Shifted(n, t, delta, j1).u[t.p[0]] == t.u[t.p[0]] + delta;
  }

  lemma ShiftedFresh(cost: Matrix, n: nat, inf: real, t: State, delta: real, j1: nat)
    requires Square(cost, n) && Shape(n, t) && j1 <= n && !t.flipping && t.used[0]
    requires Matching(n, t) && Tree(cost, n, t) && Fresh(n, inf, t)
    ensures Fresh(n, inf, Shifted(n, t, delta, j1))
  {
    var w := Shifted(n, t, delta, j1);
    ShiftedCap(cost, n, inf, t, delta, j1);
    forall k | 1 <= k <= n && w.used[k] ensures Linked(n, w, k) {
      assert Linked(n, t, k);
    }
    forall c | 1 <= c <= n && !w.used[c] && w.minVal[c] < Cap(n, inf, w) ensures Linked(n, w, c) {
      assert Linked(n, t, c);
    }
  }

  /** The next column is reached from the tree, unless the dual step used up the whole cap. */
  lemma ShiftedMode(cost: Matrix, n: nat, inf: real, t: State)
    requires Square(cost, n) && Shape(n, t) && inf > 0.0
    requires Matching(n, t) && Feasible(cost, n, t) && !t.flipping && Tree(cost, n, t) && t.used[0]
    requires Fresh(n, inf, t) || Dead(n, t)
    ensures var (delta, j1) := Least(t.minVal, t.used, inf, n);
            var w := Shifted(n, t, delta, j1);
            || (j1 >= 1 && Fresh(n, inf, w) && !w.used[j1] && Linked(n, w, j1))
            || (Dead(n, w) && (w.used[j1] ==> j1 == 0))
    ensures Least(t.minVal, t.used, inf, n).0 >= 0.0
  {
    var (delta, j1) := Least(t.minVal, t.used, inf, n);
    var w := Shifted(n, t, delta, j1);
    assert t.u[t.row] >= 0.0;
    if Dead(n, t) {
      var c := FreeColumn(n, t);
      assert !t.used[c];
      assert delta == 0.0;
      assert Dead(n, w);
    } else if j1 == 0 || delta >= Cap(n, inf, t) {
      forall c | 1 <= c <= n && !w.used[c] ensures w.minVal[c] == 0.0 {
        assert delta <= t.minVal[c] <= Cap(n, inf, t) <= inf;
      }
      assert Dead(n, w);
    } else {
      ShiftedFresh(cost, n, inf, t, delta, j1);
      assert Linked(n, t, j1);
    }
  }

  // ------------------------------------------------------------------- every step is safe

  lemma ShiftedMatching(n: nat, t: State, delta: real, j1: nat)
    requires Shape(n, t) && j1 <= n && !t.flipping && Matching(n, t)
    ensures Matching(n, Shifted(n, t, delta, j1))
  {
    var w := Shifted(n, t, delta, j1);
    forall r | 1 <= r <= w.row ensures Placed(n, w.p, Hole(n, w), r) {
      assert Placed(n, t.p, Hole(n, t), r);
      var a :| 0 <= a <= n && t.p[a] == r;
      assert w.p[a] == r && a != Hole(n, w);
    }
  }

  lemma ScanKeepsSafe(cost: Matrix, n: nat, inf: real, s: State, rank: seq<nat>) returns (rank': seq<nat>)
    requires Square(cost, n) && inf > 0.0 && Safe(cost, n, inf, s, rank) && !s.flipping
    ensures Safe(cost, n, inf, Scan(cost, n, inf, s), rank')
  {
    var t := Relaxed(cost, n, s);
    RelaxedSearch(cost, n, inf, s, rank);
    rank' := RelaxedRank(cost, n, inf, s, rank);
    RelaxedStepSafe(cost, n, inf, t, rank');
  }

  lemma RelaxedStepSafe(cost: Matrix, n: nat, inf: real, t: State, rank': seq<nat>)
    requires Square(cost, n) && Shape(n, t) && inf > 0.0 && !t.flipping && t.used[0]
    requires Matching(n, t) && Feasible(cost, n, t) && Tree(cost, n, t) && Ranked(n, t.way, rank')
    requires Fresh(n, inf, t) || Dead(n, t)
    ensures var (delta, j1) := Least(t.minVal, t.used, inf, n); Safe(cost, n, inf, Shifted(n, t, delta, j1), rank')
  {
    var (delta, j1) := Least(t.minVal, t.used, inf, n);
    ShiftedMode(cost, n, inf, t);
    ShiftedFeasible(cost, n, t, delta, j1);
    ShiftedTree(cost, n, t, delta, j1);
    ShiftedMatching(n, t, delta, j1);
  }

  lemma FlipKeepsSafe(cost: Matrix, n: nat, inf: real, s: State, rank: seq<nat>)
    requires Square(cost, n) && Safe(cost, n, inf, s, rank) && s.flipping && s.j0 != 0
    ensures Safe(cost, n, inf, Flip(n, s), rank)
  {
    var t := Flip(n, s);
    forall r | 1 <= r <= t.row ensures Placed(n, t.p, Hole(n, t), r) {
      assert Placed(n, s.p, s.j0, r);
      var a :| 0 <= a <= n && a != s.j0 && s.p[a] == r;
      var b := if a == s.way[s.j0] then s.j0 else a;
      assert t.p[b] == r && b != Hole(n, t);
    }
  }

  lemma NextRowKeepsSafe(cost: Matrix, n: nat, inf: real, s: State, rank: seq<nat>)
    requires Square(cost, n) && inf > 0.0 && Safe(cost, n, inf, s, rank)
    requires s.flipping && s.j0 == 0 && s.row < n
    ensures Safe(cost, n, inf, NextRow(n, inf, s), rank)
  {
    var t := NextRow(n, inf, s);
    forall r | 1 <= r <= t.row ensures Placed(n, t.p, Hole(n, t), r) {
      if r == t.row {
        assert t.p[0] == r;
      } else {
        assert Placed(n, s.p, 0, r);
        var a :| 0 <= a <= n && a != 0 && s.p[a] == r;
        assert t.p[a] == r;
      }
    }
    assert Fresh(n, inf, t);
  }

  ghost function StartRank(n: nat): seq<nat> {
    seq(n + 1, j => if j == 0 then 0 else 1)
  }

  lemma StartIsSafe(cost: Matrix, n: nat, inf: real)
    requires Square(cost, n) && NonNegative(cost, n)
    ensures Safe(cost, n, inf, Start(n), StartRank(n))
  {
  }

  // ----------------------------------------------------------------------------- termination

  function Unused(used: seq<bool>): nat {
    if used == [] then 0 else (if used[0] then 0 else 1) + Unused(used[1..])
  }

  lemma {:induction false} MarkingUses(used: seq<bool>, j: nat)
    requires j < |used|
    ensures used[j] ==> used[j := true] == used
    ensures !used[j] ==> Unused(used[j := true]) == Unused(used) - 1
  {
    if j > 0 {
      MarkingUses(used[1..], j - 1);
      assert used[j := true][1..] == used[1..][j - 1 := true];
    } else {
      assert used[0 := true][1..] == used[1..];
    }
  }

  /** Rounds left: a round marks a column, or (once the sentinel was hit) picks one to mark. */
  function Rounds(used: seq<bool>, j0: nat): nat
    requires j0 < |used|
  {
    2 * Unused(used) + (if used[j0] then 1 else 0)
  }

  /** Every search makes progress, with or without forbidden entries. */
  lemma ScanDecreases(cost: Matrix, n: nat, inf: real, s: State, rank: seq<nat>)
    requires Square(cost, n) && inf > 0.0 && Safe(cost, n, inf, s, rank) && !s.flipping
    ensures Rounds(Scan(cost, n, inf, s).used, Scan(cost, n, inf, s).j0) < Rounds(s.used, s.j0)
  {
    MarkingUses(s.used, s.j0);
    if s.used[s.j0] {
      var t := Relaxed(cost, n, s);
      RelaxedSearch(cost, n, inf, s, rank);
      var c := FreeColumn(n, s);
      assert !t.used[c] && t.minVal[c] == 0.0;
    }
  }
}
