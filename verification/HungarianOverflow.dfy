/** More rows than real columns: the first m rows can all be placed on the first m columns, and every entry of
    the other columns is forbidden.  Once the first m rows are in, every later row only takes a blank column:
    blank columns are never reached from the tree, so walking back from one displaces nobody. */
module HungarianOverflow {
  import opened Permutations
  import opened Hungarian
  import opened HungarianSafety
  import opened HungarianOptimality
  import opened HungarianRuns
  import opened HungarianPlacement

  ghost predicate CorePlaced(n: nat, m: nat, s: State, r: nat)
    requires Shape(n, s) && m <= n
  {
    exists c :: 1 <= c <= m && s.p[c] == r
  }

  /** The first m columns hold the first m rows, along tight edges. */
  ghost predicate Core(cost: Matrix, n: nat, m: nat, C: real, s: State)
    requires Square(cost, n) && Shape(n, s) && m <= n
  {
    && (forall c :: 1 <= c <= m ==>
          1 <= s.p[c] <= m && Slack(cost, n, s.u, s.v, s.p[c], c) == 0.0 && cost[s.p[c] - 1][c - 1] <= C)
    && (forall r :: 1 <= r <= m ==> CorePlaced(n, m, s, r))
  }

  /** The tree is tight and near, and the blank columns are untouched. */
  ghost predicate Snug(cost: Matrix, n: nat, inf: real, m: nat, C: real, s: State)
    requires Square(cost, n) && Shape(n, s)
  {
    && TightTree(cost, n, inf, s) && Heading(n, s) && Near(n, s, C)
    && (forall c :: m < c <= n ==> !s.used[c] && s.minVal[c] == Cap(n, inf, s))
  }

  ghost predicate Overflow(cost: Matrix, n: nat, inf: real, m: nat, C: real, s: State)
    requires Square(cost, n) && Shape(n, s) && m <= n
  {
    && Core(cost, n, m, C, s)
    && (forall c :: m < c <= n ==> s.way[c] == 0)
    && (s.flipping ==> s.j0 == 0 || s.j0 > m)
    && (!s.flipping ==> Dead(n, s) || Snug(cost, n, inf, m, C, s))
  }

  // ----------------------------------------------------------------------- a round of the search

  lemma ShiftedCore(cost: Matrix, n: nat, m: nat, C: real, t: State, delta: real, j1: nat)
    requires Square(cost, n) && Shape(n, t) && m <= n && j1 <= n && !t.flipping
    requires Matching(n, t) && Tree(cost, n, t) && Core(cost, n, m, C, t)
    ensures Core(cost, n, m, C, Shifted(n, t, delta, j1))
    ensures Shifted(n, t, delta, j1).flipping ==> j1 > m
  {
    var w := Shifted(n, t, delta, j1);
    forall c | 1 <= c <= m ensures Slack(cost, n, w.u, w.v, w.p[c], c) == 0.0 {
      ShiftedEdge(cost, n, t, delta, j1, c);
    }
    forall r | 1 <= r <= m ensures CorePlaced(n, m, w, r) {
      assert CorePlaced(n, m, t, r);
    }
  }

  /** A dead search goes on at no cost. */
  lemma DeadRound(cost: Matrix, n: nat, inf: real, t: State)
    requires Square(cost, n) && Shape(n, t) && !t.flipping && inf > 0.0
    requires Matching(n, t) && Tree(cost, n, t) && Dead(n, t)
    ensures var (delta, j1) := Least(t.minVal, t.used, inf, n);
            delta == 0.0 && 1 <= j1 && Dead(n, Shifted(n, t, delta, j1))
  {
    var c := FreeColumn(n, t);
    assert !t.used[c];
  }

  /** A search that uses up the cap is dead. */
  lemma CapUsedUp(cost: Matrix, n: nat, inf: real, t: State)
    requires Square(cost, n) && Shape(n, t) && !t.flipping && Matching(n, t) && Feasible(cost, n, t)
    requires Fresh(n, inf, t) && !StaysBelowCap(n, inf, t)
    ensures var (delta, j1) := Least(t.minVal, t.used, inf, n); Dead(n, Shifted(n, t, delta, j1))
  {
    assert t.u[t.row] >= 0.0;
  }

  lemma SnugRound(cost: Matrix, n: nat, inf: real, m: nat, C: real, t: State)
    requires Square(cost, n) && NonNegative(cost, n) && Shape(n, t) && !t.flipping && t.used[0] && m <= n
    requires Matching(n, t) && Tree(cost, n, t) && TightTree(cost, n, inf, t) && Core(cost, n, m, C, t)
    requires StaysBelowCap(n, inf, t) && Within(n, t, Scaled(Marked(t.used) - 1, C))
    requires forall c :: m < c <= n ==> !t.used[c] && t.minVal[c] == Cap(n, inf, t)
    ensures var (delta, j1) := Least(t.minVal, t.used, inf, n); Snug(cost, n, inf, m, C, Shifted(n, t, delta, j1))
  {
    var (delta, j1) := Least(t.minVal, t.used, inf, n);
    assert 1 <= j1 <= m && Linked(n, t, j1);
    hide Marked, Scaled, Near, Within, Tree, Matching, NonNegative, CorePlaced;
    RoundKeepsNear(cost, n, inf, C, t, delta, j1);
    ShiftedTightTree(cost, n, inf, t, delta, j1);
  }

  lemma RelaxedSnug(cost: Matrix, n: nat, inf: real, m: nat, C: real, s: State, rank: seq<nat>)
    requires Square(cost, n) && Bivalued(cost, n, inf, C) && Blank(cost, n, m, inf) && m <= n
    requires Safe(cost, n, inf, s, rank) && !s.flipping && Snug(cost, n, inf, m, C, s)
    ensures var t := Relaxed(cost, n, s);
            && t.used[0] && Tree(cost, n, t) && TightTree(cost, n, inf, t)
            && Within(n, t, Scaled(Marked(t.used) - 1, C))
            && forall c :: m < c <= n ==> t.way[c] == s.way[c] && !t.used[c] && t.minVal[c] == Cap(n, inf, t)
  {
    hide Marked, Scaled, Near, Bivalued, Blank, Within, Ranked;
    RelaxedSearch(cost, n, inf, s, rank);
    RelaxedTight(cost, n, inf, s);
    BlankWays(cost, n, inf, m, C, s);
    RelaxedWithin(cost, n, s, C);
    MarkedBelow(n, s.used, s.j0);
  }

  lemma OverflowScan(cost: Matrix, n: nat, inf: real, m: nat, C: real, s: State, rank: seq<nat>)
    requires Square(cost, n) && Bivalued(cost, n, inf, C) && Blank(cost, n, m, inf) && m <= n
    requires Safe(cost, n, inf, s, rank) && !s.flipping && Overflow(cost, n, inf, m, C, s)
    ensures Overflow(cost, n, inf, m, C, Scan(cost, n, inf, s))
  {
    hide Marked, Scaled, Near, Bivalued, Blank, Within, Ranked, Fresh, TightTree, CorePlaced, StaysBelowCap,
      NonNegative, Matching, Feasible, Core, Tree, Least;
    BivaluedFacts(cost, n, inf, C);
    var t := Relaxed(cost, n, s);
    var (delta, j1) := Least(t.minVal, t.used, inf, n);
    RelaxedSearch(cost, n, inf, s, rank);
    RelaxedCore(cost, n, m, C, s);
    RelaxedFrame(cost, n, s);
    ShiftedCore(cost, n, m, C, t, delta, j1);
    if Dead(n, s) {
      DeadRound(cost, n, inf, t);
    } else {
      RelaxedSnug(cost, n, inf, m, C, s, rank);
      SnugToNext(cost, n, inf, m, C, t);
    }
  }

  lemma RelaxedFrame(cost: Matrix, n: nat, s: State)
    requires Square(cost, n) && Shape(n, s) && !s.flipping && Matching(n, s) && Feasible(cost, n, s)
    ensures Matching(n, Relaxed(cost, n, s)) && Feasible(cost, n, Relaxed(cost, n, s)) &&
            Relaxed(cost, n, s).used[0] == (s.used[0] || s.j0 == 0)
  {
  }

  lemma RelaxedCore(cost: Matrix, n: nat, m: nat, C: real, s: State)
    requires Square(cost, n) && Shape(n, s) && m <= n && !s.flipping && Core(cost, n, m, C, s)
    ensures Core(cost, n, m, C, Relaxed(cost, n, s))
  {
    var t := Relaxed(cost, n, s);
    forall r | 1 <= r <= m ensures CorePlaced(n, m, t, r) {
      assert CorePlaced(n, m, s, r);
    }
  }

  lemma SnugToNext(cost: Matrix, n: nat, inf: real, m: nat, C: real, t: State)
    requires Square(cost, n) && NonNegative(cost, n) && Shape(n, t) && !t.flipping && t.used[0] && m <= n
    requires Matching(n, t) && Feasible(cost, n, t) && Tree(cost, n, t) && TightTree(cost, n, inf, t)
    requires Core(cost, n, m, C, t)
    requires Within(n, t, Scaled(Marked(t.used) - 1, C))
    requires forall c :: m < c <= n ==> !t.used[c] && t.minVal[c] == Cap(n, inf, t)
    ensures var (delta, j1) := Least(t.minVal, t.used, inf, n);
            var w := Shifted(n, t, delta, j1);
            Dead(n, w) || Snug(cost, n, inf, m, C, w)
  {
    hide Marked, Scaled, Within, Snug, Tree, Core, Shifted, Least;
    if StaysBelowCap(n, inf, t) {
      SnugRound(cost, n, inf, m, C, t);
    } else {
      CapUsedUp(cost, n, inf, t);
    }
  }

  // ------------------------------------------------------------------------- the other steps

  lemma OverflowFlip(cost: Matrix, n: nat, inf: real, m: nat, C: real, s: State)
    requires Square(cost, n) && Shape(n, s) && m <= n && s.flipping && s.j0 != 0 && Overflow(cost, n, inf, m, C, s)
    ensures Overflow(cost, n, inf, m, C, Flip(n, s))
  {
    var t := Flip(n, s);
    forall r | 1 <= r <= m ensures CorePlaced(n, m, t, r) {
      assert CorePlaced(n, m, s, r);
      var c :| 1 <= c <= m && s.p[c] == r;
      assert t.p[c] == r;
    }
  }

  lemma OverflowNextRow(cost: Matrix, n: nat, inf: real, m: nat, C: real, s: State, rank: seq<nat>)
    requires Square(cost, n) && m <= n && inf > 0.0 && C >= 0.0
    requires Safe(cost, n, inf, s, rank) && s.flipping && s.j0 == 0 && s.row < n && Overflow(cost, n, inf, m, C, s)
    ensures Overflow(cost, n, inf, m, C, NextRow(n, inf, s))
  {
    hide Marked, Ranked, Searching;
    var t := NextRow(n, inf, s);
    forall r | 1 <= r <= m ensures CorePlaced(n, m, t, r) {
      assert CorePlaced(n, m, s, r);
      var c :| 1 <= c <= m && s.p[c] == r;
      assert t.p[c] == r;
    }
    NothingMarked(n + 1);
    forall k | 0 <= k <= n && (t.used[k] || k == t.j0) ensures NearAt(n, t, C, k) {
      assert k == 0 && t.p[0] == t.row && Scaled(0, C) == 0.0;
    }
  }

  lemma OverflowStep(cost: Matrix, n: nat, inf: real, m: nat, C: real, s: State, rank: seq<nat>)
    returns (rank': seq<nat>)
    requires Square(cost, n) && Bivalued(cost, n, inf, C) && Blank(cost, n, m, inf) && m <= n
    requires Safe(cost, n, inf, s, rank) && Overflow(cost, n, inf, m, C, s)
    ensures var t := Step(cost, n, inf, s); Safe(cost, n, inf, t, rank') && Overflow(cost, n, inf, m, C, t)
  {
    BivaluedFacts(cost, n, inf, C);
    CPositive(cost, n, inf, C);
    hide Bivalued, Blank, Overflow, NonNegative, Matching, Feasible, Ranked, Searching, Scan, Flip, NextRow;
    if !s.flipping {
      OverflowScan(cost, n, inf, m, C, s, rank);
    } else if s.j0 != 0 {
      OverflowFlip(cost, n, inf, m, C, s);
    } else if s.row < n {
      OverflowNextRow(cost, n, inf, m, C, s, rank);
    }
    rank' := StepKeeps(cost, n, inf, s, rank);
  }

  // ----------------------------------------------------------------- the first m rows are in

  lemma CostsBelowForbidden(cost: Matrix, n: nat, inf: real, C: real)
    requires Square(cost, n) && Bivalued(cost, n, inf, C) && n > 0
    ensures C < 2.0 * inf
  {
    ScaledMonotone(1, n, C);
  }

  /** The first m rows sit in the first m columns. */
  lemma SeatedInside(cost: Matrix, n: nat, inf: real, m: nat, C: real, s: State, rank: seq<nat>, r: nat)
    requires Square(cost, n) && Bivalued(cost, n, inf, C) && Blank(cost, n, m, inf) && m <= n
    requires Safe(cost, n, inf, s, rank) && TightEdges(cost, n, s) && Lean(n, inf, m, C, s)
    requires s.flipping && s.j0 == 0 && s.row == m && 1 <= r <= m
    ensures CorePlaced(n, m, s, r)
  {
    assert Placed(n, s.p, 0, r);
    var a :| 0 <= a <= n && a != 0 && s.p[a] == r;
    TightIsFinite(cost, n, inf, C, s, r, a);
    CostsBelowForbidden(cost, n, inf, C);
  }

  ghost function Seat(n: nat, m: nat, s: State, r: nat): (c: nat)
    requires Shape(n, s) && m <= n && CorePlaced(n, m, s, r)
    ensures c < m && s.p[c + 1] == r
  {
    var c :| 1 <= c <= m && s.p[c] == r;
    c - 1
  }

  lemma AllSeatsTaken(n: nat, m: nat, s: State, c: nat)
    requires Shape(n, s) && m <= n && 1 <= c <= m && (forall r :: 1 <= r <= m ==> CorePlaced(n, m, s, r))
    ensures 1 <= s.p[c] <= m
  {
    var g := seq(m, i requires 0 <= i < m => Seat(n, m, s, i + 1));
    forall a, b | 0 <= a < b < m ensures g[a] != g[b] {
      assert s.p[g[a] + 1] == a + 1 && s.p[g[b] + 1] == b + 1;
    }
    var i := PermutationHits(g, m, c - 1);
    assert s.p[g[i] + 1] == i + 1;
  }

  lemma Entry(cost: Matrix, n: nat, inf: real, m: nat, C: real, s: State, rank: seq<nat>)
    requires Square(cost, n) && Bivalued(cost, n, inf, C) && Blank(cost, n, m, inf) && m <= n
    requires Safe(cost, n, inf, s, rank) && Tight(cost, n, inf, s, rank) && Lean(n, inf, m, C, s)
    requires s.flipping && s.j0 == 0 && s.row == m
    ensures Overflow(cost, n, inf, m, C, s)
  {
    hide Ranked, Searching, TightTree, TightPath, Bivalued, CorePlaced;
    forall r | 1 <= r <= m ensures CorePlaced(n, m, s, r) {
      SeatedInside(cost, n, inf, m, C, s, rank, r);
    }
    forall c | 1 <= c <= m
      ensures 1 <= s.p[c] <= m && Slack(cost, n, s.u, s.v, s.p[c], c) == 0.0 && cost[s.p[c] - 1][c - 1] <= C
    {
      AllSeatsTaken(n, m, s, c);
      TightIsFinite(cost, n, inf, C, s, s.p[c], c);
    }
  }

  ghost predicate FirstRowsIn(m: nat, s: State) {
    s.row >= m && (s.row == m ==> s.flipping && s.j0 == 0)
  }

  lemma {:induction false} OverflowRuns(cost: Matrix, n: nat, inf: real, m: nat, C: real, q: seq<nat>, k: nat)
    returns (rank: seq<nat>)
    requires Square(cost, n) && Bivalued(cost, n, inf, C) && Blank(cost, n, m, inf) && Places(cost, n, C, q) && |q| == m
    requires m <= n && FirstRowsIn(m, Run(cost, n, inf, k))
    ensures var s := Run(cost, n, inf, k); Safe(cost, n, inf, s, rank) && Overflow(cost, n, inf, m, C, s)
  {
    hide Bivalued, Blank, Places, Safe, Tight, Lean, Overflow, Run, Step;
    if Run(cost, n, inf, k).row == m {
      rank := PlacedRuns(cost, n, inf, m, C, q, k);
      Entry(cost, n, inf, m, C, Run(cost, n, inf, k), rank);
    } else {
      StartHasNoRows(cost, n, inf);
      RunStep(cost, n, inf, k - 1);
      RowsGrow(cost, n, inf, Run(cost, n, inf, k - 1));
      var previous := OverflowRuns(cost, n, inf, m, C, q, k - 1);
      rank := OverflowStep(cost, n, inf, m, C, Run(cost, n, inf, k - 1), previous);
    }
  }

  lemma StartHasNoRows(cost: Matrix, n: nat, inf: real)
    requires Square(cost, n)
    ensures Run(cost, n, inf, 0).row == 0
  {
  }

  // ------------------------------------------------------------------------------- the result

  /** The first m rows get the first m columns, each at C or less and all together as cheaply as any placement of
      theirs; no later row gets one. */
  ghost predicate ServesFirst(cost: Matrix, n: nat, m: nat, C: real, result: seq<nat>)
    requires Square(cost, n) && m <= n
  {
    && IsPermutation(result, n) && IsPermutation(result[..m], m)
    && (forall i :: 0 <= i < n ==> (result[i] < m <==> i < m))
    && (forall i :: 0 <= i < m ==> cost[i][result[i]] <= C)
    && forall w :: IsPermutation(w, m) ==> TotalCost(cost[..m], result[..m]) <= TotalCost(cost[..m], w)
  }

  /** If the first m rows can be placed and only the first m columns are open, then those rows get those
      columns, as cheaply as any placement of theirs, and every later row gets a blank column. */
  lemma FirstRowsServed(cost: Matrix, n: nat, inf: real, m: nat, C: real, q: seq<nat>, k: nat)
    requires Square(cost, n) && Bivalued(cost, n, inf, C) && Blank(cost, n, m, inf) && Places(cost, n, C, q) && |q| == m
    requires m <= n && Halted(n, Run(cost, n, inf, k))
    ensures ServesFirst(cost, n, m, C, Result(n, Run(cost, n, inf, k)))
  {
    hide Run, Bivalued, Blank, Places, Ranked, Searching;
    var s := Run(cost, n, inf, k);
    var rank := OverflowRuns(cost, n, inf, m, C, q, k);
    CoreResult(cost, n, inf, m, C, s, rank);
    var result := Result(n, s);
    StrongDuality(cost, n, m, s, result[..m]);
    forall w | IsPermutation(w, m) ensures TotalCost(cost[..m], result[..m]) <= TotalCost(cost[..m], w) {
      WeakDuality(cost, n, m, s, w);
    }
  }

  lemma CoreResult(cost: Matrix, n: nat, inf: real, m: nat, C: real, s: State, rank: seq<nat>)
    requires Square(cost, n) && m <= n && Safe(cost, n, inf, s, rank) && Halted(n, s) && Core(cost, n, m, C, s)
    ensures var result := Result(n, s);
            && IsPermutation(result, n) && IsPermutation(result[..m], m)
            && (forall i :: 0 <= i < n ==> (result[i] < m <==> i < m))
            && forall i :: 0 <= i < m ==>
                 Slack(cost, n, s.u, s.v, i + 1, result[i] + 1) == 0.0 && cost[i][result[i]] <= C
  {
    hide Ranked, Searching, Feasible;
    HaltedIsPermutation(cost, n, inf, s, rank);
    var result := Result(n, s);
    forall i | 0 <= i < n ensures result[i] < m <==> i < m {
      assert s.p[result[i] + 1] == i + 1;
      if i < m {
        assert CorePlaced(n, m, s, i + 1);
        var c :| 1 <= c <= m && s.p[c] == i + 1;
        assert c == result[i] + 1;
      }
    }
  }
}
