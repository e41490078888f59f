/** Optimality with forbidden entries.  As long as the rows started so far can all be placed on entries that
    are not forbidden, no search runs into the sentinel: the argument follows the trail that such a placement
    and the current matching make up together.  Potentials stay so small that a forbidden entry is never even
    relaxed. */
module HungarianPlacement {
  import opened Permutations
  import opened Hungarian
  import opened HungarianSafety
  import opened HungarianOptimality
  import opened HungarianRuns

  function Scaled(k: int, C: real): real { k as real * C }

  lemma ScaledNext(k: int, C: real)
    ensures Scaled(k + 1, C) == Scaled(k, C) + C
  {
  }

  lemma ScaledMonotone(j: int, k: int, C: real)
    requires 0 <= j <= k && C >= 0.0
    ensures 0.0 <= Scaled(j, C) <= Scaled(k, C)
  {
    assert (k - j) as real * C >= 0.0 && j as real * C >= 0.0;
    assert (k - j) as real * C == k as real * C - j as real * C;
  }

  /** Every entry is a cost of at most C or forbidden, and n costs together stay below the sentinel. */
  ghost predicate Bivalued(cost: Matrix, n: nat, inf: real, C: real)
    requires Square(cost, n)
  {
    && C >= 0.0 && Scaled(n, C) < inf
    && forall r, c :: 0 <= r < n && 0 <= c < n ==> 0.0 <= cost[r][c] <= C || cost[r][c] >= 2.0 * inf
  }

  /** q places the first |q| rows in different columns, on entries that are not forbidden. */
  ghost predicate Places(cost: Matrix, n: nat, C: real, q: seq<nat>)
    requires Square(cost, n)
  {
    && |q| <= n && Distinct(q)
    && forall r :: 0 <= r < |q| ==> q[r] < n && cost[r][q[r]] <= C
  }

  lemma BivaluedFacts(cost: Matrix, n: nat, inf: real, C: real)
    requires Square(cost, n) && Bivalued(cost, n, inf, C)
    ensures inf > 0.0 && NonNegative(cost, n)
  {
    ScaledMonotone(0, n, C);
  }

  // ------------------------------------------------------------------------------------ trails

  /** The column that q gives to row r (both 1-based). */
  function Col(q: seq<nat>, r: nat): nat
    requires 1 <= r <= |q|
  {
    q[r - 1] + 1
  }

  /** Rows linked by q and the matching in turn, from the row being inserted: the next row holds the column
      that q gives to the one before. */
  ghost predicate Trail(n: nat, t: State, q: seq<nat>, rs: seq<nat>)
    requires Shape(n, t) && (forall r :: 0 <= r < |q| ==> q[r] < n)
  {
    && rs != [] && rs[0] == t.row && Distinct(rs)
    && (forall j :: 0 <= j < |rs| ==> 1 <= rs[j] <= t.row && rs[j] <= |q|)
    && (forall j :: 1 <= j < |rs| ==> t.p[Col(q, rs[j - 1])] == rs[j])
  }

  lemma TrailGrows(n: nat, t: State, q: seq<nat>, rs: seq<nat>)
    requires Shape(n, t) && Matching(n, t) && !t.flipping && t.row <= |q|
    requires Distinct(q) && forall r :: 0 <= r < |q| ==> q[r] < n
    requires Trail(n, t, q, rs) && t.p[Col(q, rs[|rs| - 1])] != 0
    ensures Trail(n, t, q, rs + [t.p[Col(q, rs[|rs| - 1])]])
  {
    var last := rs[|rs| - 1];
    var c := Col(q, last);
    forall j | 0 <= j < |rs| ensures rs[j] != t.p[c] {
      if j > 0 {
        assert rs[j - 1] != last && Col(q, rs[j - 1]) != c;
      }
    }
  }

  lemma TrailShort(n: nat, t: State, q: seq<nat>, rs: seq<nat>)
    requires Shape(n, t) && (forall r :: 0 <= r < |q| ==> q[r] < n) && Trail(n, t, q, rs)
    ensures |rs| <= t.row
  {
    Pigeonhole(seq(|rs|, j requires 0 <= j < |rs| => rs[j] - 1), t.row);
  }

  /** What the trail needs to know of the state. */
  ghost predicate TrailState(cost: Matrix, n: nat, C: real, t: State, q: seq<nat>)
    requires Square(cost, n)
  {
    && Shape(n, t) && Matching(n, t) && !t.flipping && t.row <= |q| && Places(cost, n, C, q)
    && Feasible(cost, n, t) && TightEdges(cost, n, t) && C >= 0.0 && NonNegative(cost, n)
  }

  /** The potential of a column at the end of a trail is bounded by the length the trail can still grow. */
  lemma {:induction false} ColumnDual(cost: Matrix, n: nat, C: real, t: State, q: seq<nat>, rs: seq<nat>)
    requires Square(cost, n) && TrailState(cost, n, C, t, q) && Trail(n, t, q, rs)
    ensures |rs| <= t.row && -t.v[Col(q, rs[|rs| - 1])] <= Scaled(t.row - |rs|, C)
    decreases t.row - |rs|
  {
    TrailShort(n, t, q, rs);
    var c := Col(q, rs[|rs| - 1]);
    if t.p[c] == 0 {
      ScaledMonotone(0, t.row - |rs|, C);
    } else {
      var r := t.p[c];
      TrailGrows(n, t, q, rs);
      TrailShort(n, t, q, rs + [r]);
      ColumnDual(cost, n, C, t, q, rs + [r]);
      ScaledNext(t.row - |rs| - 1, C);
      assert Slack(cost, n, t.u, t.v, r, Col(q, r)) >= 0.0;
      assert Slack(cost, n, t.u, t.v, r, c) == 0.0;
      assert cost[r - 1][c - 1] >= 0.0 && cost[r - 1][Col(q, r) - 1] <= C;
    }
  }

  /** From the row being inserted the trail leaves the search tree along an entry that is not forbidden. */
  lemma {:induction false} Escape(cost: Matrix, n: nat, C: real, t: State, q: seq<nat>, rs: seq<nat>, k: nat)
    returns (c: nat)
    requires Square(cost, n) && TrailState(cost, n, C, t, q) && Tree(cost, n, t) && Trail(n, t, q, rs)
    requires k <= n && t.used[k] && t.p[k] == rs[|rs| - 1]
    requires t.u[t.row] <= t.u[rs[|rs| - 1]] + Scaled(|rs| - 1, C)
    ensures 1 <= c <= n && !t.used[c] && t.minVal[c] + t.u[t.row] <= Scaled(t.row, C)
    decreases t.row - |rs|
  {
    TrailShort(n, t, q, rs);
    var last := rs[|rs| - 1];
    c := Col(q, last);
    assert Slack(cost, n, t.u, t.v, last, c) >= 0.0 && cost[last - 1][c - 1] <= C;
    ScaledNext(|rs| - 1, C);
    if t.used[c] {
      var r := t.p[c];
      assert Slack(cost, n, t.u, t.v, r, c) == 0.0 && cost[r - 1][c - 1] >= 0.0;
      TrailGrows(n, t, q, rs);
      TrailShort(n, t, q, rs + [r]);
      c := Escape(cost, n, C, t, q, rs + [r], c);
    } else {
      ColumnDual(cost, n, C, t, q, rs);
      ScaledSum(|rs|, t.row - |rs|, C);
      assert t.minVal[c] <= Slack(cost, n, t.u, t.v, t.p[k], c);
    }
  }

  lemma ScaledSum(j: int, k: int, C: real)
    ensures Scaled(j, C) + Scaled(k, C) == Scaled(j + k, C)
  {
  }

  /** As long as the rows started so far can be placed, the dual step does not use up the cap. */
  lemma PlacementStays(cost: Matrix, n: nat, inf: real, C: real, t: State, q: seq<nat>)
    requires Square(cost, n) && Bivalued(cost, n, inf, C) && TrailState(cost, n, C, t, q)
    requires Tree(cost, n, t) && t.used[0]
    ensures StaysBelowCap(n, inf, t)
  {
    assert Trail(n, t, q, [t.row]);
    var c := Escape(cost, n, C, t, q, [t.row], 0);
    ScaledMonotone(t.row, n, C);
    assert t.u[t.row] >= 0.0;
  }

  // ------------------------------------------------------------------- potentials stay small

  /** The row in column k lies at most one cost per marked column above the row being inserted. */
  ghost predicate NearAt(n: nat, s: State, C: real, k: nat)
    requires Shape(n, s) && k <= n
  {
    s.u[s.p[k]] <= s.u[s.row] + Scaled(Marked(s.used), C)
  }

  ghost predicate Near(n: nat, s: State, C: real)
    requires Shape(n, s)
  {
    forall k {:trigger NearAt(n, s, C, k)} :: 0 <= k <= n && (s.used[k] || k == s.j0) ==> NearAt(n, s, C, k)
  }

  lemma MarkedBelow(n: nat, used: seq<bool>, j: nat)
    requires |used| == n + 1 && j <= n && !used[j]
    ensures Marked(used) <= n && Marked(used[j := true]) == Marked(used) + 1
  {
    MarkingUses(used, j);
  }

  lemma {:induction false} MarkedNonNegative(used: seq<bool>)
    ensures Marked(used) >= 0
  {
    if used != [] {
      MarkedNonNegative(used[1..]);
    }
  }

  /** While the tree is tight no column is reached over a forbidden entry. */
  lemma ForbiddenStays(cost: Matrix, n: nat, inf: real, C: real, s: State, c: nat)
    requires Square(cost, n) && Bivalued(cost, n, inf, C) && Shape(n, s) && !s.flipping && Feasible(cost, n, s)
    requires Fresh(n, inf, s) && Heading(n, s) && Near(n, s, C)
    requires 1 <= c <= n && cost[s.p[s.j0] - 1][c - 1] >= 2.0 * inf
    ensures Relaxed(cost, n, s).way[c] == s.way[c] && Relaxed(cost, n, s).minVal[c] == s.minVal[c]
  {
    MarkedBelow(n, s.used, s.j0);
    MarkedNonNegative(s.used);
    ScaledMonotone(Marked(s.used), n, C);
    assert NearAt(n, s, C, s.j0);
  }

  /** No row of the tree lies more than `bound` above the row being inserted. */
  ghost predicate Within(n: nat, t: State, bound: real)
    requires Shape(n, t)
  {
    forall k :: 0 <= k <= n && t.used[k] ==> t.u[t.p[k]] <= t.u[t.row] + bound
  }

  lemma RelaxedWithin(cost: Matrix, n: nat, s: State, C: real)
    requires Square(cost, n) && Shape(n, s) && !s.flipping && Near(n, s, C)
    ensures Within(n, Relaxed(cost, n, s), Scaled(Marked(s.used), C))
  {
    hide Marked, Scaled;
    var t := Relaxed(cost, n, s);
    forall k | 0 <= k <= n && t.used[k] ensures t.u[t.p[k]] <= t.u[t.row] + Scaled(Marked(s.used), C) {
      assert NearAt(n, s, C, k);
    }
  }

  /** The dual step raises all of them together. */
  lemma ShiftedWithin(n: nat, t: State, delta: real, j1: nat, bound: real)
    requires Shape(n, t) && j1 <= n && Matching(n, t) && !t.flipping && t.used[0] && Within(n, t, bound)
    requires forall j :: 0 <= j <= n && t.used[j] ==> t.p[j] != 0
    ensures Within(n, Shifted(n, t, delta, j1), bound)
  {
    ShiftedRows(n, t, delta, j1);
  }

  /** The rows on the two tight edges at the next column differ in potential by the difference in cost. */
  lemma HeadGap(cost: Matrix, n: nat, t: State, delta: real, j1: nat)
    requires Square(cost, n) && Shape(n, t) && !t.flipping && Matching(n, t) && Tree(cost, n, t) && 1 <= j1 <= n
    requires !t.used[j1] && t.minVal[j1] == delta && Linked(n, t, j1) && LiveTight(cost, n, t, j1)
    requires t.p[j1] != 0 && Slack(cost, n, t.u, t.v, t.p[j1], j1) == 0.0
    ensures var w, i := Shifted(n, t, delta, j1), t.p[t.way[j1]];
            1 <= i && w.u[w.p[j1]] == w.u[i] + cost[t.p[j1] - 1][j1 - 1] - cost[i - 1][j1 - 1]
  {
    ShiftedLive(cost, n, t, delta, j1, j1);
    ShiftedEdge(cost, n, t, delta, j1, j1);
  }

  /** The next column is near, too, if it is held along an entry of at most C. */
  lemma HeadWithin(cost: Matrix, n: nat, t: State, delta: real, j1: nat, C: real, bound: real)
    requires Square(cost, n) && NonNegative(cost, n) && Shape(n, t) && !t.flipping && t.used[0]
    requires Matching(n, t) && Tree(cost, n, t) && 1 <= j1 <= n && Within(n, t, bound)
    requires !t.used[j1] && t.minVal[j1] == delta && Linked(n, t, j1) && LiveTight(cost, n, t, j1)
    requires t.p[j1] != 0 && Slack(cost, n, t.u, t.v, t.p[j1], j1) == 0.0 && cost[t.p[j1] - 1][j1 - 1] <= C
    ensures var w := Shifted(n, t, delta, j1); w.u[w.p[j1]] <= w.u[w.row] + bound + C && C >= 0.0
  {
    var i := t.way[j1];
    assert cost[t.p[j1] - 1][j1 - 1] >= 0.0 && cost[t.p[i] - 1][j1 - 1] >= 0.0;
    HeadGap(cost, n, t, delta, j1);
    ShiftedWithin(n, t, delta, j1, bound);
  }

  /** A round keeps the whole tree near, the next column included. */
  lemma RoundKeepsNear(cost: Matrix, n: nat, inf: real, C: real, t: State, delta: real, j1: nat)
    requires Square(cost, n) && NonNegative(cost, n) && Shape(n, t) && !t.flipping && t.used[0]
    requires Matching(n, t) && Tree(cost, n, t) && TightTree(cost, n, inf, t) && StaysBelowCap(n, inf, t)
    requires (delta, j1) == Least(t.minVal, t.used, inf, n) && Within(n, t, Scaled(Marked(t.used) - 1, C))
    requires t.p[j1] != 0 && cost[t.p[j1] - 1][j1 - 1] <= C && Slack(cost, n, t.u, t.v, t.p[j1], j1) == 0.0
    ensures Near(n, Shifted(n, t, delta, j1), C)
  {
    assert Linked(n, t, j1) && LiveTight(cost, n, t, j1) && !t.used[j1] && t.minVal[j1] == delta;
    hide Marked, Scaled, Fresh, TightTree, Feasible, Tree, Matching, Linked, LiveTight, NonNegative, Least,
      StaysBelowCap, Within;
    var w, bound := Shifted(n, t, delta, j1), Scaled(Marked(t.used) - 1, C);
    TreeHoldsRows(cost, n, t);
    ShiftedWithin(n, t, delta, j1, bound);
    HeadWithin(cost, n, t, delta, j1, C, bound);
    ScaledNext(Marked(t.used) - 1, C);
    WithinIsNear(n, w, C, bound);
  }

  lemma WithinIsNear(n: nat, w: State, C: real, bound: real)
    requires Shape(n, w) && Within(n, w, bound) && C >= 0.0 && Scaled(Marked(w.used), C) == bound + C
    requires w.u[w.p[w.j0]] <= w.u[w.row] + bound + C
    ensures Near(n, w, C)
  {
    hide Marked, Scaled;
    forall k | 0 <= k <= n && (w.used[k] || k == w.j0) ensures NearAt(n, w, C, k) {
    }
  }

  lemma TreeHoldsRows(cost: Matrix, n: nat, t: State)
    requires Square(cost, n) && Shape(n, t) && t.p[0] >= 1 && Tree(cost, n, t)
    ensures forall j :: 0 <= j <= n && t.used[j] ==> t.p[j] != 0
  {
  }

  // -------------------------------------------------------------- rows that can all be placed

  /** Every entry of the columns after the first m is forbidden. */
  ghost predicate Blank(cost: Matrix, n: nat, m: nat, inf: real)
    requires Square(cost, n)
  {
    forall r, c :: 0 <= r < n && m <= c < n ==> cost[r][c] >= 2.0 * inf
  }

  /** Potentials too small for a forbidden edge to be tight, blank columns never reached, a near tree. */
  ghost predicate Lean(n: nat, inf: real, m: nat, C: real, s: State)
    requires Shape(n, s)
  {
    && (forall r :: 1 <= r <= n ==> s.u[r] < 2.0 * inf)
    && (forall c :: m < c <= n ==> s.way[c] == 0)
    && (!s.flipping ==> Near(n, s, C))
  }

  /** So every tight edge is an entry of at most C. */
  lemma TightIsFinite(cost: Matrix, n: nat, inf: real, C: real, s: State, r: nat, c: nat)
    requires Square(cost, n) && Bivalued(cost, n, inf, C) && Shape(n, s) && Feasible(cost, n, s)
    requires 1 <= r <= n && 1 <= c <= n && s.u[r] < 2.0 * inf && Slack(cost, n, s.u, s.v, r, c) == 0.0
    ensures cost[r - 1][c - 1] <= C
  {
    assert s.v[c] <= 0.0;
  }

  lemma SmallRows(cost: Matrix, n: nat, inf: real, C: real, t: State, delta: real, j1: nat)
    requires Square(cost, n) && Bivalued(cost, n, inf, C) && Shape(n, t) && !t.flipping && t.used[0] && t.p[0] == t.row
    requires Matching(n, t) && Tree(cost, n, t) && 1 <= j1 <= n && delta < Cap(n, inf, t)
    requires Marked(t.used) <= n + 1 && Within(n, t, Scaled(Marked(t.used) - 1, C)) && Marked(t.used) >= 1
    requires forall r :: 1 <= r <= n ==> t.u[r] < 2.0 * inf
    ensures forall r :: 1 <= r <= n ==> Shifted(n, t, delta, j1).u[r] < 2.0 * inf
  {
    hide Marked, Scaled;
    var w, bound := Shifted(n, t, delta, j1), Scaled(Marked(t.used) - 1, C);
    ScaledMonotone(Marked(t.used) - 1, n, C);
    ShiftedCap(cost, n, inf, t, delta, j1);
    ShiftedRows(n, t, delta, j1);
    ShiftedWithin(n, t, delta, j1, bound);
    forall r | 1 <= r <= n ensures w.u[r] < 2.0 * inf {
      if InTree(t.p, t.used, n + 1, r) {
        var k :| 0 <= k <= n && t.used[k] && t.p[k] == r;
        assert w.u[w.p[k]] <= w.u[w.row] + bound;
      }
    }
  }

  lemma PlacementStaysRelaxed(cost: Matrix, n: nat, inf: real, C: real, q: seq<nat>, s: State, rank: seq<nat>)
    requires Square(cost, n) && Bivalued(cost, n, inf, C) && Places(cost, n, C, q)
    requires Safe(cost, n, inf, s, rank) && Tight(cost, n, inf, s, rank) && !s.flipping && s.row <= |q|
    ensures var t := Relaxed(cost, n, s);
            t.used[0] && Tree(cost, n, t) && TightTree(cost, n, inf, t) && StaysBelowCap(n, inf, t)
  {
    BivaluedFacts(cost, n, inf, C);
    RelaxedSearch(cost, n, inf, s, rank);
    RelaxedTight(cost, n, inf, s);
    PlacementStays(cost, n, inf, C, Relaxed(cost, n, s), q);
  }

  lemma BlankWays(cost: Matrix, n: nat, inf: real, m: nat, C: real, s: State)
    requires Square(cost, n) && Bivalued(cost, n, inf, C) && Blank(cost, n, m, inf)
    requires Shape(n, s) && !s.flipping && Feasible(cost, n, s) && Fresh(n, inf, s) && Heading(n, s) && Near(n, s, C)
    ensures forall c :: m < c <= n ==>
      Relaxed(cost, n, s).way[c] == s.way[c] && Relaxed(cost, n, s).minVal[c] == s.minVal[c]
  {
    hide Near, Relaxed, Bivalued;
    forall c | m < c <= n
      ensures Relaxed(cost, n, s).way[c] == s.way[c] && Relaxed(cost, n, s).minVal[c] == s.minVal[c]
    {
      ForbiddenStays(cost, n, inf, C, s, c);
    }
  }

  /** A round of the search for a row that can be placed together with those before it. */
  lemma LeanScan(cost: Matrix, n: nat, inf: real, m: nat, C: real, q: seq<nat>, s: State, rank: seq<nat>)
    requires Square(cost, n) && Bivalued(cost, n, inf, C) && Blank(cost, n, m, inf) && Places(cost, n, C, q)
    requires Safe(cost, n, inf, s, rank) && Tight(cost, n, inf, s, rank) && Lean(n, inf, m, C, s)
    requires !s.flipping && s.row <= |q|
    ensures StaysBelowCap(n, inf, Relaxed(cost, n, s))
    ensures Lean(n, inf, m, C, Scan(cost, n, inf, s))
  {
    hide Marked, Scaled, Ranked, TightPath, Near, Bivalued, Blank, Places, Searching, Tree, Fresh, Within,
      StaysBelowCap;
    var t := Relaxed(cost, n, s);
    PlacementStaysRelaxed(cost, n, inf, C, q, s, rank);
    BlankWays(cost, n, inf, m, C, s);
    MarkedBelow(n, s.used, s.j0);
    MarkedNonNegative(s.used);
    RelaxedWithin(cost, n, s, C);
    LeanRound(cost, n, inf, C, t);
  }

  lemma LeanRound(cost: Matrix, n: nat, inf: real, C: real, t: State)
    requires Square(cost, n) && Bivalued(cost, n, inf, C) && Shape(n, t) && !t.flipping && t.used[0]
    requires Matching(n, t) && Tree(cost, n, t) && TightTree(cost, n, inf, t) && StaysBelowCap(n, inf, t)
    requires TightEdges(cost, n, t) && Feasible(cost, n, t)
    requires 1 <= Marked(t.used) <= n + 1 && Within(n, t, Scaled(Marked(t.used) - 1, C))
    requires forall r :: 1 <= r <= n ==> t.u[r] < 2.0 * inf
    ensures var (delta, j1) := Least(t.minVal, t.used, inf, n);
            var w := Shifted(n, t, delta, j1);
            && (forall r :: 1 <= r <= n ==> w.u[r] < 2.0 * inf)
            && (!w.flipping ==> Near(n, w, C))
  {
    hide Marked, Scaled, Near, Fresh, TightTree, Within;
    var (delta, j1) := Least(t.minVal, t.used, inf, n);
    BivaluedFacts(cost, n, inf, C);
    SmallRows(cost, n, inf, C, t, delta, j1);
    if t.p[j1] != 0 {
      TightIsFinite(cost, n, inf, C, t, t.p[j1], j1);
      RoundKeepsNear(cost, n, inf, C, t, delta, j1);
    }
  }

  /** The other two kinds of step. */
  lemma LeanFlip(cost: Matrix, n: nat, inf: real, m: nat, C: real, s: State)
    requires Square(cost, n) && Shape(n, s) && s.flipping && Lean(n, inf, m, C, s)
    requires C >= 0.0 && inf > 0.0
    ensures Lean(n, inf, m, C, Step(cost, n, inf, s))
  {
    if s.j0 == 0 && s.row < n {
      var t := NextRow(n, inf, s);
      NothingMarked(n + 1);
      hide Marked;
      forall k | 0 <= k <= n && (t.used[k] || k == t.j0) ensures NearAt(n, t, C, k) {
        assert k == 0 && t.p[0] == t.row && Scaled(0, C) == 0.0;
      }
    }
  }

  /** Every state up to the insertion of row |q| keeps all three invariants. */
  lemma {:induction false} PlacedRuns(cost: Matrix, n: nat, inf: real, m: nat, C: real, q: seq<nat>, k: nat)
    returns (rank: seq<nat>)
    requires Square(cost, n) && Bivalued(cost, n, inf, C) && Blank(cost, n, m, inf) && Places(cost, n, C, q)
    requires Run(cost, n, inf, k).row <= |q|
    ensures var s := Run(cost, n, inf, k);
            Safe(cost, n, inf, s, rank) && Tight(cost, n, inf, s, rank) && Lean(n, inf, m, C, s)
  {
    hide Bivalued, Blank, Places, Tight, Safe, Lean, Run, Step;
    if k == 0 {
      rank := PlacedStart(cost, n, inf, m, C);
    } else {
      var s := Run(cost, n, inf, k - 1);
      RunStep(cost, n, inf, k - 1);
      RowsGrow(cost, n, inf, s);
      var previous := PlacedRuns(cost, n, inf, m, C, q, k - 1);
      rank := PlacedStep(cost, n, inf, m, C, q, s, previous);
    }
  }

  lemma PlacedStart(cost: Matrix, n: nat, inf: real, m: nat, C: real) returns (rank: seq<nat>)
    requires Square(cost, n) && Bivalued(cost, n, inf, C)
    ensures var s := Run(cost, n, inf, 0);
            Safe(cost, n, inf, s, rank) && Tight(cost, n, inf, s, rank) && Lean(n, inf, m, C, s)
  {
    rank := StartRank(n);
    BivaluedFacts(cost, n, inf, C);
    StartIsSafe(cost, n, inf);
    StartIsTight(cost, n, inf);
  }

  lemma RowsGrow(cost: Matrix, n: nat, inf: real, s: State)
    requires Square(cost, n) && Shape(n, s)
    ensures s.row <= Step(cost, n, inf, s).row <= s.row + 1
    ensures Step(cost, n, inf, s).row == s.row || (s.flipping && s.j0 == 0 && !Step(cost, n, inf, s).flipping)
  {
  }

  lemma PlacedStep(cost: Matrix, n: nat, inf: real, m: nat, C: real, q: seq<nat>, s: State, rank: seq<nat>)
    returns (rank': seq<nat>)
    requires Square(cost, n) && Bivalued(cost, n, inf, C) && Blank(cost, n, m, inf) && Places(cost, n, C, q)
    requires Safe(cost, n, inf, s, rank) && Tight(cost, n, inf, s, rank) && Lean(n, inf, m, C, s) && s.row <= |q|
    ensures var t := Step(cost, n, inf, s);
            Safe(cost, n, inf, t, rank') && Tight(cost, n, inf, t, rank') && Lean(n, inf, m, C, t)
  {
    BivaluedFacts(cost, n, inf, C);
    CPositive(cost, n, inf, C);
    StepSearches(cost, n, inf, s);
    hide Bivalued, Blank, Places, NonNegative, Tight, Matching, Feasible, Ranked, Searching, Scan, Lean, Step,
      StaysBelowCap;
    if !s.flipping {
      LeanScan(cost, n, inf, m, C, q, s, rank);
    } else {
      LeanFlip(cost, n, inf, m, C, s);
    }
    rank' := StepKeeps(cost, n, inf, s, rank);
  }

  lemma StepSearches(cost: Matrix, n: nat, inf: real, s: State)
    requires Square(cost, n) && Shape(n, s)
    ensures !s.flipping ==> Step(cost, n, inf, s) == Scan(cost, n, inf, s)
  {
  }

  lemma CPositive(cost: Matrix, n: nat, inf: real, C: real)
    requires Square(cost, n) && Bivalued(cost, n, inf, C)
    ensures C >= 0.0
  {
  }

  /** If all rows can be placed at once, the result is cheapest, and the potentials prove it. */
  lemma PlacedRunIsCheapest(cost: Matrix, n: nat, inf: real, C: real, q: seq<nat>, k: nat)
    requires Square(cost, n) && Bivalued(cost, n, inf, C) && Places(cost, n, C, q) && |q| == n
    requires Halted(n, Run(cost, n, inf, k))
    ensures var s := Run(cost, n, inf, k);
            && IsPermutation(Result(n, s), n)
            && TotalCost(cost, Result(n, s)) == Sum(s.u[1..]) + Sum(s.v[1..])
            && forall q' :: IsPermutation(q', n) ==> TotalCost(cost, Result(n, s)) <= TotalCost(cost, q')
  {
    var rank := PlacedRuns(cost, n, inf, n, C, q, k);
    hide Run, Lean, Bivalued, Places;
    HaltedIsOptimal(cost, n, inf, Run(cost, n, inf, k), rank);
  }

  /** Some complete assignment avoids every forbidden entry. */
  ghost predicate Placeable(cost: Matrix, n: nat, inf: real)
    requires Square(cost, n)
  {
    exists C: real, q: seq<nat> :: Bivalued(cost, n, inf, C) && Places(cost, n, C, q) && |q| == n
  }

  lemma PlaceableRunIsCheapest(cost: Matrix, n: nat, inf: real, k: nat)
    requires Square(cost, n) && Placeable(cost, n, inf) && Halted(n, Run(cost, n, inf, k))
    ensures IsPermutation(Result(n, Run(cost, n, inf, k)), n)
    ensures forall q :: IsPermutation(q, n) ==> TotalCost(cost, Result(n, Run(cost, n, inf, k))) <= TotalCost(cost, q)
  {
    var C: real, q: seq<nat> :| Bivalued(cost, n, inf, C) && Places(cost, n, C, q) && |q| == n;
    hide Run, Bivalued, Places, TotalCost;
    PlacedRunIsCheapest(cost, n, inf, C, q, k);
  }

  // ---------------------------------------------------------------- the rows so far, over all columns

  /** seat[r] is the column of row r (both 0-based), for each of the rows started. */
  ghost predicate Seats(n: nat, s: State, seat: seq<nat>)
    requires Shape(n, s)
  {
    |seat| == s.row && forall r :: 0 <= r < |seat| ==> seat[r] < n && s.p[seat[r] + 1] == r + 1
  }

  lemma SeatsOf(n: nat, s: State) returns (seat: seq<nat>)
    requires Shape(n, s) && Matching(n, s) && s.flipping && s.j0 == 0
    ensures Seats(n, s, seat) && Distinct(seat)
    ensures forall c :: 1 <= c <= n && s.p[c] != 0 ==> c - 1 in seat
  {
    seat := SeatsUpTo(n, s, s.row);
    forall c | 1 <= c <= n && s.p[c] != 0 ensures c - 1 in seat {
      assert s.p[seat[s.p[c] - 1] + 1] == s.p[c];
    }
  }

  lemma {:induction false} SeatsUpTo(n: nat, s: State, k: nat) returns (seat: seq<nat>)
    requires Shape(n, s) && Matching(n, s) && s.flipping && s.j0 == 0 && k <= s.row
    ensures |seat| == k && Distinct(seat) && forall r :: 0 <= r < k ==> seat[r] < n && s.p[seat[r] + 1] == r + 1
  {
    seat := [];
    if k > 0 {
      var before := SeatsUpTo(n, s, k - 1);
      assert Placed(n, s.p, 0, k);
      var a :| 0 <= a <= n && a != 0 && s.p[a] == k;
      seat := before + [a - 1];
    }
  }

  /** Different columns for the first |w| rows. */
  ghost predicate OnColumns(n: nat, w: seq<nat>) {
    |w| <= n && Distinct(w) && forall r :: 0 <= r < |w| ==> w[r] < n
  }

  ghost function RowsCost(cost: Matrix, n: nat, w: seq<nat>): real
    requires Square(cost, n) && OnColumns(n, w)
  {
    TotalCost(cost[..|w|], w)
  }

  /** The potentials of the rows and of all columns bound what the rows can cost on any columns. */
  lemma RowsBound(cost: Matrix, n: nat, s: State, w: seq<nat>)
    requires Square(cost, n) && Shape(n, s) && Feasible(cost, n, s) && OnColumns(n, w)
    ensures Sum(s.u[1..|w| + 1]) + Sum(s.v[1..]) <= RowsCost(cost, n, w)
  {
    var m := |w|;
    var u, v := s.u[1..m + 1], s.v[1..];
    SumOverInjection(v, w);
    var both := seq(m, k requires 0 <= k < m => u[k] + Gather(v, w)[k]);
    SumAdd(u, Gather(v, w), both);
    forall k | 0 <= k < m ensures both[k] <= Picked(cost[..m], w)[k] {
      assert Slack(cost, n, s.u, s.v, k + 1, w[k] + 1) >= 0.0;
    }
    SumMonotone(both, Picked(cost[..m], w));
  }

  /** With tight edges and free columns at 0 the rows started so far meet that bound. */
  lemma SeatsMeetBound(cost: Matrix, n: nat, s: State, seat: seq<nat>)
    requires Square(cost, n) && Shape(n, s) && Feasible(cost, n, s) && TightEdges(cost, n, s)
    requires s.flipping && s.j0 == 0 && Seats(n, s, seat) && OnColumns(n, seat)
    requires forall c :: 1 <= c <= n && s.p[c] != 0 ==> c - 1 in seat
    ensures Sum(s.u[1..|seat| + 1]) + Sum(s.v[1..]) == RowsCost(cost, n, seat)
  {
    var m := |seat|;
    var u, v := s.u[1..m + 1], s.v[1..];
    forall i | 0 <= i < |v| ensures v[i] <= 0.0 && (v[i] == 0.0 || i in seat) {
      assert s.p[i + 1] != 0 ==> i + 1 - 1 in seat;
    }
    SumOverInjection(v, seat);
    forall k | 0 <= k < m ensures Picked(cost[..m], seat)[k] == u[k] + Gather(v, seat)[k] {
      assert Slack(cost, n, s.u, s.v, s.p[seat[k] + 1], seat[k] + 1) == 0.0;
    }
    SumAdd(u, Gather(v, seat), Picked(cost[..m], seat));
  }

  /** So whatever the number of columns: when the last row that can be placed is in, the rows so far sit at the
      least total among all columns.  Only later rows can spoil that. */
  lemma PlacedRowsAreCheapest(cost: Matrix, n: nat, inf: real, C: real, q: seq<nat>, k: nat) returns (seat: seq<nat>)
    requires Square(cost, n) && Bivalued(cost, n, inf, C) && Places(cost, n, C, q)
    requires RowsIn(|q|, Run(cost, n, inf, k))
    ensures Seats(n, Run(cost, n, inf, k), seat) && OnColumns(n, seat) && |seat| == |q|
    ensures forall w: seq<nat> :: OnColumns(n, w) && |w| == |q| ==> RowsCost(cost, n, seat) <= RowsCost(cost, n, w)
  {
    hide Run, Bivalued, Places, Blank, RowsCost, OnColumns;
    seat := RowsSeated(cost, n, inf, C, q, k);
    forall w: seq<nat> | OnColumns(n, w) && |w| == |q| ensures RowsCost(cost, n, seat) <= RowsCost(cost, n, w) {
      RowsLowerBound(cost, n, inf, C, q, k, w);
    }
  }

  /** The first m rows are in, and row m + 1 has not been started. */
  ghost predicate RowsIn(m: nat, s: State) { s.row == m && s.flipping && s.j0 == 0 }

  lemma RowsSeated(cost: Matrix, n: nat, inf: real, C: real, q: seq<nat>, k: nat) returns (seat: seq<nat>)
    requires Square(cost, n) && Bivalued(cost, n, inf, C) && Places(cost, n, C, q)
    requires RowsIn(|q|, Run(cost, n, inf, k))
    ensures var s := Run(cost, n, inf, k);
            && Seats(n, s, seat) && OnColumns(n, seat) && |seat| == |q|
            && Sum(s.u[1..|q| + 1]) + Sum(s.v[1..]) == RowsCost(cost, n, seat)
  {
    NothingBlank(cost, n, inf);
    var rank := PlacedRuns(cost, n, inf, n, C, q, k);
    hide Run, Lean, Bivalued, Places, Blank, RowsCost, Ranked, Searching;
    var s := Run(cost, n, inf, k);
    seat := SeatsOf(n, s);
    SeatsMeetBound(cost, n, s, seat);
  }

  lemma RowsLowerBound(cost: Matrix, n: nat, inf: real, C: real, q: seq<nat>, k: nat, w: seq<nat>)
    requires Square(cost, n) && Bivalued(cost, n, inf, C) && Places(cost, n, C, q)
    requires RowsIn(|q|, Run(cost, n, inf, k)) && OnColumns(n, w) && |w| == |q|
    ensures var s := Run(cost, n, inf, k); Sum(s.u[1..|q| + 1]) + Sum(s.v[1..]) <= RowsCost(cost, n, w)
  {
    NothingBlank(cost, n, inf);
    var rank := PlacedRuns(cost, n, inf, n, C, q, k);
    hide Run, Lean, Bivalued, Places, Blank, RowsCost, Ranked, Searching, Matching, Feasible, OnColumns;
    RowsBound(cost, n, Run(cost, n, inf, k), w);
  }

  lemma NothingBlank(cost: Matrix, n: nat, inf: real)
    requires Square(cost, n)
    ensures Blank(cost, n, n, inf)
  {
  }
}
