/** What the solver returns: always a permutation, and a cheapest one as soon as every entry lies
    below the sentinel.  The final potentials are the certificate (linear-programming duality). */
module HungarianOptimality {
  import opened Permutations
  import opened Hungarian
  import opened HungarianSafety

  // ------------------------------------------------------------------ reading off the result

  /** result[p[j]-1] = j-1 for the columns j <= k that hold a row. */
  function Extracted(n: nat, p: seq<nat>, k: nat): (result: seq<nat>)
    requires |p| == n + 1 && k <= n
    requires forall j :: 0 <= j <= n ==> p[j] <= n
    ensures |result| == n
  {
    if k == 0 then seq(n, i => 0)
    else
      var result := Extracted(n, p, k - 1);
      if p[k] != 0 then result[p[k] - 1 := k - 1] else result
  }

  lemma {:induction false} ExtractedAt(n: nat, p: seq<nat>, k: nat, c: nat)
    requires |p| == n + 1 && k <= n
    requires forall j :: 0 <= j <= n ==> p[j] <= n
    requires InjectiveExcept(n, p, 0)
    requires 1 <= c <= k && p[c] != 0
    ensures Extracted(n, p, k)[p[c] - 1] == c - 1
  {
    if c < k {
      ExtractedAt(n, p, k - 1, c);
    }
  }

  ghost function Result(n: nat, s: State): (result: seq<nat>)
    requires Shape(n, s)
  {
    Extracted(n, s.p, n)
  }

  /** Whatever the (non-negative) entries, a finished run holds every row in a column of its own. */
  lemma HaltedIsPermutation(cost: Matrix, n: nat, inf: real, s: State, rank: seq<nat>)
    requires Square(cost, n) && Safe(cost, n, inf, s, rank) && Halted(n, s)
    ensures IsPermutation(Result(n, s), n)
    ensures forall k :: 0 <= k < n ==> s.p[Result(n, s)[k] + 1] == k + 1
  {
    var result := Result(n, s);
    forall k | 0 <= k < n ensures result[k] < n && s.p[result[k] + 1] == k + 1 {
      assert Placed(n, s.p, 0, k + 1);
      var c :| 0 <= c <= n && c != 0 && s.p[c] == k + 1;
      ExtractedAt(n, s.p, n, c);
    }
    forall a, b | 0 <= a < b < n ensures result[a] != result[b] {
      assert s.p[result[a] + 1] == a + 1 && s.p[result[b] + 1] == b + 1;
    }
  }

  // ------------------------------------------------------------------- complementary slackness

  ghost predicate TightEdges(cost: Matrix, n: nat, s: State)
    requires Square(cost, n) && Shape(n, s)
  {
    && (forall c :: 1 <= c <= n && c != Hole(n, s) && s.p[c] != 0 ==> Slack(cost, n, s.u, s.v, s.p[c], c) == 0.0)
    && (forall c :: 1 <= c <= n && c != Hole(n, s) && s.p[c] == 0 ==> s.v[c] == 0.0)
  }

  /** The edge from the row in column way[c] to column c. */
  ghost predicate TightLink(cost: Matrix, n: nat, s: State, c: nat)
    requires Square(cost, n) && Shape(n, s) && 1 <= c <= n
  {
    Linked(n, s, c) && s.p[s.way[c]] >= 1 && Slack(cost, n, s.u, s.v, s.p[s.way[c]], c) == 0.0
  }

  /** A live column below the cap is tight towards the row that reached it last. */
  ghost predicate LiveTight(cost: Matrix, n: nat, s: State, c: nat)
    requires Square(cost, n) && Shape(n, s) && 1 <= c <= n
  {
    s.p[s.way[c]] >= 1 && s.minVal[c] == Slack(cost, n, s.u, s.v, s.p[s.way[c]], c)
  }

  ghost predicate TightTree(cost: Matrix, n: nat, inf: real, s: State)
    requires Square(cost, n) && Shape(n, s)
  {
    && Fresh(n, inf, s) && Cap(n, inf, s) > 0.0
    && (forall k {:trigger TightLink(cost, n, s, k)} :: 1 <= k <= n && s.used[k] ==> TightLink(cost, n, s, k))
    && (forall c {:trigger LiveTight(cost, n, s, c)} :: 1 <= c <= n && !s.used[c] && s.minVal[c] < Cap(n, inf, s) ==>
          LiveTight(cost, n, s, c))
  }

  /** The links that the walk back from j0 is still going to use. */
  ghost predicate TightPath(cost: Matrix, n: nat, s: State, rank: seq<nat>)
    requires Square(cost, n) && Shape(n, s) && |rank| == n + 1
  {
    forall k {:trigger TightLink(cost, n, s, k)} ::
      1 <= k <= n && (k == s.j0 || (s.used[k] && rank[k] < rank[s.j0])) ==> TightLink(cost, n, s, k)
  }

  /** The search is about to mark column j0, reached along a tight edge. */
  ghost predicate Heading(n: nat, s: State)
    requires Shape(n, s)
  {
    !s.used[s.j0] && (s.j0 >= 1 ==> Linked(n, s, s.j0) && s.minVal[s.j0] == 0.0)
  }

  ghost predicate Tight(cost: Matrix, n: nat, inf: real, s: State, rank: seq<nat>)
    requires Square(cost, n) && Shape(n, s) && |rank| == n + 1
  {
    && TightEdges(cost, n, s)
    && (!s.flipping ==> TightTree(cost, n, inf, s) && Heading(n, s))
    && (s.flipping ==> TightPath(cost, n, s, rank))
  }

  /** The next dual step does not use up the cap, and it is due to some column. */
  ghost predicate StaysBelowCap(n: nat, inf: real, t: State)
    requires Shape(n, t)
  {
    var (delta, j1) := Least(t.minVal, t.used, inf, n);
    j1 >= 1 && delta < Cap(n, inf, t)
  }

  /** A free column costs less than the sentinel, so the dual step never uses up the cap. */
  lemma DeltaBelowCap(cost: Matrix, n: nat, inf: real, t: State)
    requires Square(cost, n) && BelowSentinel(cost, n, inf) && inf > 0.0
    requires Shape(n, t) && Matching(n, t) && Feasible(cost, n, t) && !t.flipping && Tree(cost, n, t) && t.used[0]
    requires TightEdges(cost, n, t)
    ensures StaysBelowCap(n, inf, t)
  {
    var c := FreeColumn(n, t);
    assert t.minVal[c] <= Slack(cost, n, t.u, t.v, t.p[0], c);
    assert cost[t.row - 1][c - 1] < inf;
    assert t.u[t.row] >= 0.0;
  }

  lemma RelaxedLive(cost: Matrix, n: nat, s: State, c: nat)
    requires Square(cost, n) && Shape(n, s) && !s.flipping && 1 <= c <= n && c != s.j0 && !s.used[c]
    ensures LiveTight(cost, n, Relaxed(cost, n, s), c) ||
            (Relaxed(cost, n, s).minVal[c] == s.minVal[c] && Relaxed(cost, n, s).way[c] == s.way[c])
  {
  }

  lemma RelaxedTight(cost: Matrix, n: nat, inf: real, s: State)
    requires Square(cost, n) && Shape(n, s) && !s.flipping
    requires TightTree(cost, n, inf, s) && Heading(n, s)
    ensures TightTree(cost, n, inf, Relaxed(cost, n, s))
  {
    RelaxedFresh(cost, n, inf, s);
    var t := Relaxed(cost, n, s);
    forall k | 1 <= k <= n && t.used[k] ensures TightLink(cost, n, t, k) {
      if s.used[k] {
        assert TightLink(cost, n, s, k);
      } else {
        assert k == s.j0 && LiveTight(cost, n, s, k);
      }
    }
    forall c | 1 <= c <= n && !t.used[c] && t.minVal[c] < Cap(n, inf, t) ensures LiveTight(cost, n, t, c) {
      RelaxedLive(cost, n, s, c);
      assert s.minVal[c] < Cap(n, inf, s) ==> LiveTight(cost, n, s, c);
    }
  }

  /** The dual step keeps a tight edge between a row and the column that holds it. */
  lemma ShiftedEdge(cost: Matrix, n: nat, t: State, delta: real, j1: nat, c: nat)
    requires Square(cost, n) && Shape(n, t) && j1 <= n && !t.flipping && 1 <= c <= n
    requires Matching(n, t) && Tree(cost, n, t) && t.p[c] != 0 && Slack(cost, n, t.u, t.v, t.p[c], c) == 0.0
    ensures var w := Shifted(n, t, delta, j1); Slack(cost, n, w.u, w.v, w.p[c], c) == 0.0
  {
    ShiftedRows(n, t, delta, j1);
    if !t.used[c] {
      assert !InTree(t.p, t.used, n + 1, t.p[c]);
    }
  }

  lemma ShiftedEdges(cost: Matrix, n: nat, t: State, delta: real, j1: nat)
    requires Square(cost, n) && Shape(n, t) && 1 <= j1 <= n && !t.flipping
    requires Matching(n, t) && Tree(cost, n, t) && TightEdges(cost, n, t)
    ensures TightEdges(cost, n, Shifted(n, t, delta, j1))
  {
    var w := Shifted(n, t, delta, j1);
    forall c | 1 <= c <= n && w.p[c] != 0 ensures Slack(cost, n, w.u, w.v, w.p[c], c) == 0.0 {
      ShiftedEdge(cost, n, t, delta, j1, c);
    }
  }

  /** How the dual step changes an edge from a row of the tree (the row in the used column a). */
  lemma ShiftedTreeEdge(cost: Matrix, n: nat, t: State, delta: real, j1: nat, a: nat, c: nat)
    requires Square(cost, n) && Shape(n, t) && j1 <= n && !t.flipping
    requires Matching(n, t) && Tree(cost, n, t) && a <= n && t.used[a] && 1 <= c <= n
    ensures var w := Shifted(n, t, delta, j1);
            Slack(cost, n, w.u, w.v, t.p[a], c) ==
            Slack(cost, n, t.u, t.v, t.p[a], c) - (if t.used[c] then 0.0 else delta)
  {
    ShiftedRows(n, t, delta, j1);
  }

  lemma ShiftedLink(cost: Matrix, n: nat, t: State, delta: real, j1: nat, k: nat)
    requires Square(cost, n) && Shape(n, t) && j1 <= n && !t.flipping
    requires Matching(n, t) && Tree(cost, n, t) && 1 <= k <= n && t.used[k] && TightLink(cost, n, t, k)
    ensures TightLink(cost, n, Shifted(n, t, delta, j1), k)
  {
    ShiftedTreeEdge(cost, n, t, delta, j1, t.way[k], k);
  }

  lemma ShiftedLive(cost: Matrix, n: nat, t: State, delta: real, j1: nat, c: nat)
    requires Square(cost, n) && Shape(n, t) && j1 <= n && !t.flipping
    requires Matching(n, t) && Tree(cost, n, t) && 1 <= c <= n && !t.used[c] && Linked(n, t, c)
    requires LiveTight(cost, n, t, c)
    ensures LiveTight(cost, n, Shifted(n, t, delta, j1), c)
  {
    ShiftedTreeEdge(cost, n, t, delta, j1, t.way[c], c);
  }

  lemma ShiftedTightTree(cost: Matrix, n: nat, inf: real, t: State, delta: real, j1: nat)
    requires Square(cost, n) && Shape(n, t) && 1 <= j1 <= n && !t.flipping && t.used[0]
    requires Matching(n, t) && Tree(cost, n, t) && TightTree(cost, n, inf, t) && delta < Cap(n, inf, t)
    ensures TightTree(cost, n, inf, Shifted(n, t, delta, j1))
    ensures Cap(n, inf, Shifted(n, t, delta, j1)) == Cap(n, inf, t) - delta
  {
    var w := Shifted(n, t, delta, j1);
    ShiftedCap(cost, n, inf, t, delta, j1);
    ShiftedFresh(cost, n, inf, t, delta, j1);
    forall k | 1 <= k <= n && w.used[k] ensures TightLink(cost, n, w, k) {
      ShiftedLink(cost, n, t, delta, j1, k);
    }
    forall c | 1 <= c <= n && !w.used[c] && w.minVal[c] < Cap(n, inf, w)
      ensures LiveTight(cost, n, w, c)
    {
      assert t.minVal[c] < Cap(n, inf, t) && Linked(n, t, c) && LiveTight(cost, n, t, c);
      ShiftedLive(cost, n, t, delta, j1, c);
    }
  }

  lemma ScanKeepsTight(cost: Matrix, n: nat, inf: real, s: State, rank: seq<nat>, rank': seq<nat>)
    requires Square(cost, n) && inf > 0.0 && |rank'| == n + 1
    requires Safe(cost, n, inf, s, rank) && Tight(cost, n, inf, s, rank) && !s.flipping
    requires StaysBelowCap(n, inf, Relaxed(cost, n, s))
    ensures Tight(cost, n, inf, Scan(cost, n, inf, s), rank')
  {
    var t := Relaxed(cost, n, s);
    assert TightTree(cost, n, inf, t) && TightEdges(cost, n, t) && Tree(cost, n, t) by {
      RelaxedSearch(cost, n, inf, s, rank);
      RelaxedTight(cost, n, inf, s);
    }
    RelaxedStepTight(cost, n, inf, t, rank');
  }

  lemma RelaxedStepTight(cost: Matrix, n: nat, inf: real, t: State, rank': seq<nat>)
    requires Square(cost, n) && inf > 0.0 && |rank'| == n + 1
    requires Shape(n, t) && Matching(n, t) && Feasible(cost, n, t) && !t.flipping && t.used[0]
    requires Tree(cost, n, t) && TightTree(cost, n, inf, t) && TightEdges(cost, n, t) && StaysBelowCap(n, inf, t)
    ensures var (delta, j1) := Least(t.minVal, t.used, inf, n); Tight(cost, n, inf, Shifted(n, t, delta, j1), rank')
  {
    var (delta, j1) := Least(t.minVal, t.used, inf, n);
    var w := Shifted(n, t, delta, j1);
    assert TightTree(cost, n, inf, w) && Cap(n, inf, w) == Cap(n, inf, t) - delta by {
      ShiftedTightTree(cost, n, inf, t, delta, j1);
    }
    assert w.minVal[j1] == 0.0 < Cap(n, inf, w) && !w.used[j1];
    ShiftedEdges(cost, n, t, delta, j1);
    if w.flipping {
      assert LiveTight(cost, n, w, j1) && Linked(n, w, j1);
    }
  }

  lemma BelowSentinelStays(cost: Matrix, n: nat, inf: real, s: State, rank: seq<nat>)
    requires Square(cost, n) && BelowSentinel(cost, n, inf) && inf > 0.0 && !s.flipping
    requires Safe(cost, n, inf, s, rank) && TightEdges(cost, n, s)
    ensures StaysBelowCap(n, inf, Relaxed(cost, n, s))
  {
    RelaxedSearch(cost, n, inf, s, rank);
    DeltaBelowCap(cost, n, inf, Relaxed(cost, n, s));
  }

  lemma FlipKeepsTight(cost: Matrix, n: nat, inf: real, s: State, rank: seq<nat>)
    requires Square(cost, n) && Safe(cost, n, inf, s, rank) && Tight(cost, n, inf, s, rank)
    requires s.flipping && s.j0 != 0
    ensures Tight(cost, n, inf, Flip(n, s), rank)
  {
    var t := Flip(n, s);
    assert TightLink(cost, n, s, s.j0);
    forall k | 1 <= k <= n && (k == t.j0 || (t.used[k] && rank[k] < rank[t.j0])) ensures TightLink(cost, n, t, k) {
      assert TightLink(cost, n, s, k);
    }
  }

  lemma NextRowKeepsTight(cost: Matrix, n: nat, inf: real, s: State, rank: seq<nat>)
    requires Square(cost, n) && inf > 0.0 && Safe(cost, n, inf, s, rank) && Tight(cost, n, inf, s, rank)
    requires s.flipping && s.j0 == 0 && s.row < n
    ensures Tight(cost, n, inf, NextRow(n, inf, s), rank)
  {
  }

  // --------------------------------------------------------------- the range of the potentials

  ghost predicate CostsWithin(cost: Matrix, n: nat, C: real)
    requires Square(cost, n)
  {
    forall r, c :: 0 <= r < n && 0 <= c < n ==> 0.0 <= cost[r][c] <= C
  }

  ghost predicate DualsWithin(n: nat, s: State, C: real)
    requires Shape(n, s)
  {
    && (forall r :: 1 <= r <= n ==> 0.0 <= s.u[r] <= C)
    && (forall c :: 1 <= c <= n ==> -C <= s.v[c] <= 0.0)
  }

  /** The potentials stay within the range of the costs as long as one column f has potential 0. */
  lemma ZeroColumnBounds(cost: Matrix, n: nat, s: State, C: real, f: nat)
    requires Square(cost, n) && CostsWithin(cost, n, C) && Shape(n, s) && Feasible(cost, n, s) && TightEdges(cost, n, s)
    requires 1 <= f <= n && s.v[f] == 0.0 && (s.flipping ==> s.j0 == f)
    ensures DualsWithin(n, s, C)
  {
    forall r | 1 <= r <= n ensures s.u[r] <= C {
      assert Slack(cost, n, s.u, s.v, r, f) >= 0.0;
      assert cost[r - 1][f - 1] <= C;
    }
    forall c | 1 <= c <= n ensures -C <= s.v[c] {
      if c != f && s.p[c] != 0 {
        assert Slack(cost, n, s.u, s.v, s.p[c], c) == 0.0;
        assert 0.0 <= cost[s.p[c] - 1][c - 1];
      } else {
        assert 0.0 <= cost[0][f - 1] <= C;
      }
    }
  }

  /** The column a round ends in is free, or some other column still is: either has potential 0. */
  lemma ScanKeepsDualsWithin(cost: Matrix, n: nat, inf: real, s: State, rank: seq<nat>, rank': seq<nat>, C: real)
    requires Square(cost, n) && BelowSentinel(cost, n, inf) && CostsWithin(cost, n, C) && inf > 0.0 && !s.flipping
    requires Safe(cost, n, inf, s, rank) && Tight(cost, n, inf, s, rank)
    requires var w := Scan(cost, n, inf, s); Safe(cost, n, inf, w, rank') && Tight(cost, n, inf, w, rank')
    ensures DualsWithin(n, Scan(cost, n, inf, s), C)
  {
    hide Ranked, Searching, TightTree, TightPath, DualsWithin, Feasible, TightEdges;
    var w := Scan(cost, n, inf, s);
    if w.flipping {
      RoundEndsFree(cost, n, inf, s, rank);
      ZeroColumnBounds(cost, n, w, C, w.j0);
    } else {
      var f := FreeColumn(n, w);
      FreeIsZero(cost, n, w, f);
      ZeroColumnBounds(cost, n, w, C, f);
    }
  }

  lemma FreeIsZero(cost: Matrix, n: nat, s: State, c: nat)
    requires Square(cost, n) && Shape(n, s) && TightEdges(cost, n, s) && !s.flipping && 1 <= c <= n && s.p[c] == 0
    ensures s.v[c] == 0.0
  {
  }

  lemma RoundEndsFree(cost: Matrix, n: nat, inf: real, s: State, rank: seq<nat>)
    requires Square(cost, n) && BelowSentinel(cost, n, inf) && inf > 0.0 && !s.flipping
    requires Safe(cost, n, inf, s, rank) && Tight(cost, n, inf, s, rank)
    ensures var w := Scan(cost, n, inf, s); w.flipping ==> 1 <= w.j0 && w.v[w.j0] == 0.0
  {
    hide Ranked, TightPath, BelowSentinel;
    var t := Relaxed(cost, n, s);
    RelaxedSearch(cost, n, inf, s, rank);
    RelaxedTight(cost, n, inf, s);
    DeltaBelowCap(cost, n, inf, t);
    var (delta, j1) := Least(t.minVal, t.used, inf, n);
    assert !t.used[j1];
    if s.p[j1] == 0 {
      FreeIsZero(cost, n, s, j1);
    }
  }

  // ------------------------------------------------------------------- how long a search takes

  /** The rows held by the used columns j < k, numbered from 0. */
  function UsedRows(p: seq<nat>, used: seq<bool>, k: nat): (rows: seq<nat>)
    requires |p| == |used| && k <= |p|
  {
    if k == 0 then []
    else if used[k - 1] && p[k - 1] > 0 then UsedRows(p, used, k - 1) + [p[k - 1] - 1]
    else UsedRows(p, used, k - 1)
  }

  lemma {:induction false} UsedRowsDistinct(n: nat, p: seq<nat>, used: seq<bool>, row: nat, k: nat)
    requires |p| == |used| == n + 1 && k <= n + 1 && InjectiveExcept(n, p, n + 1)
    requires forall j :: 0 <= j <= n ==> p[j] <= row && (used[j] ==> p[j] > 0)
    ensures Distinct(UsedRows(p, used, k))
    ensures forall i :: 0 <= i < |UsedRows(p, used, k)| ==> UsedRows(p, used, k)[i] < row
    ensures forall i :: 0 <= i < |UsedRows(p, used, k)| ==>
            exists j :: 0 <= j < k && p[j] == UsedRows(p, used, k)[i] + 1
    ensures |UsedRows(p, used, k)| + Unused(used[..k]) == k
  {
    if k > 0 {
      UsedRowsDistinct(n, p, used, row, k - 1);
      UnusedAppend(used[..k - 1], used[k - 1]);
      assert used[..k] == used[..k - 1] + [used[k - 1]];
    }
  }

  lemma {:induction false} UnusedAppend(used: seq<bool>, mark: bool)
    ensures Unused(used + [mark]) == Unused(used) + if mark then 0 else 1
  {
    if used != [] {
      UnusedAppend(used[1..], mark);
      assert (used + [mark])[1..] == used[1..] + [mark];
    } else {
      assert used + [mark] == [mark];
    }
  }

  /** Columns marked so far. */
  function Marked(used: seq<bool>): int { |used| - Unused(used) }

  /** Marked columns hold different rows. */
  lemma MarkedRows(n: nat, p: seq<nat>, used: seq<bool>, row: nat)
    requires |p| == |used| == n + 1 && InjectiveExcept(n, p, n + 1)
    requires forall j :: 0 <= j <= n ==> p[j] <= row && (used[j] ==> p[j] > 0)
    ensures Marked(used) <= row
  {
    UsedRowsDistinct(n, p, used, row, n + 1);
    assert used[..n + 1] == used;
    Pigeonhole(UsedRows(p, used, n + 1), row);
  }

  /** Before a round fewer columns are marked than rows have been started, and the round marks one more:
      the marked columns and the one about to be marked hold different rows. */
  lemma MarksOneOfTheRows(cost: Matrix, n: nat, inf: real, s: State, rank: seq<nat>)
    requires Square(cost, n) && inf > 0.0 && !s.flipping
    requires Safe(cost, n, inf, s, rank) && Heading(n, s)
    ensures Marked(s.used) < s.row
    ensures Marked(Scan(cost, n, inf, s).used) == Marked(s.used) + 1
  {
    hide Ranked, Feasible, Fresh, Dead, Least, Raised;
    MarkingUses(s.used, s.j0);
    MarkedRows(n, s.p, s.used[s.j0 := true], s.row);
  }

  // ----------------------------------------------------------------------------- optimality

  function Picked(cost: Matrix, q: seq<nat>): (r: seq<real>)
    requires |q| == |cost| && forall k :: 0 <= k < |q| ==> q[k] < |cost[k]|
  {
    seq(|q|, k requires 0 <= k < |q| => cost[k][q[k]])
  }

  function TotalCost(cost: Matrix, q: seq<nat>): real
    requires |q| == |cost| && forall k :: 0 <= k < |q| ==> q[k] < |cost[k]|
  {
    Sum(Picked(cost, q))
  }

  /** Feasible potentials bound the cost of every assignment of the first m rows to the first m columns. */
  lemma WeakDuality(cost: Matrix, n: nat, m: nat, s: State, q: seq<nat>)
    requires Square(cost, n) && Shape(n, s) && Feasible(cost, n, s) && m <= n && IsPermutation(q, m)
    ensures Sum(s.u[1..m + 1]) + Sum(s.v[1..m + 1]) <= TotalCost(cost[..m], q)
  {
    var u, v := s.u[1..m + 1], s.v[1..m + 1];
    SumOverPermutation(v, q);
    var both := seq(m, k requires 0 <= k < m => u[k] + Gather(v, q)[k]);
    SumAdd(u, Gather(v, q), both);
    forall k | 0 <= k < m ensures both[k] <= Picked(cost[..m], q)[k] {
      assert Slack(cost, n, s.u, s.v, k + 1, q[k] + 1) >= 0.0;
    }
    SumMonotone(both, Picked(cost[..m], q));
  }

  /** An assignment along tight edges meets that bound. */
  lemma StrongDuality(cost: Matrix, n: nat, m: nat, s: State, q: seq<nat>)
    requires Square(cost, n) && Shape(n, s) && m <= n && IsPermutation(q, m)
    requires forall k :: 0 <= k < m ==> Slack(cost, n, s.u, s.v, k + 1, q[k] + 1) == 0.0
    ensures TotalCost(cost[..m], q) == Sum(s.u[1..m + 1]) + Sum(s.v[1..m + 1])
  {
    var u, v := s.u[1..m + 1], s.v[1..m + 1];
    SumOverPermutation(v, q);
    forall k | 0 <= k < m ensures Picked(cost[..m], q)[k] == u[k] + Gather(v, q)[k] {
      assert Slack(cost, n, s.u, s.v, k + 1, q[k] + 1) == 0.0;
    }
    SumAdd(u, Gather(v, q), Picked(cost[..m], q));
  }

  /** The run's own assignment uses tight edges only, so it is cheapest. */
  lemma HaltedIsOptimal(cost: Matrix, n: nat, inf: real, s: State, rank: seq<nat>)
    requires Square(cost, n) && Safe(cost, n, inf, s, rank) && Halted(n, s) && TightEdges(cost, n, s)
    ensures IsPermutation(Result(n, s), n)
    ensures TotalCost(cost, Result(n, s)) == Sum(s.u[1..]) + Sum(s.v[1..])
    ensures forall q :: IsPermutation(q, n) ==> TotalCost(cost, Result(n, s)) <= TotalCost(cost, q)
  {
    HaltedIsPermutation(cost, n, inf, s, rank);
    var q := Result(n, s);
    forall k | 0 <= k < n ensures Slack(cost, n, s.u, s.v, k + 1, q[k] + 1) == 0.0 {
      assert s.p[q[k] + 1] == k + 1;
    }
    assert cost[..n] == cost && s.u[1..n + 1] == s.u[1..] && s.v[1..n + 1] == s.v[1..];
    StrongDuality(cost, n, n, s, q);
    forall q' | IsPermutation(q', n) ensures TotalCost(cost, q) <= TotalCost(cost, q') {
      WeakDuality(cost, n, n, s, q');
    }
  }
}
