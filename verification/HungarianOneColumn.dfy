/** One open column: the first row takes it, along a forbidden entry if need be, and keeps it. */
module HungarianOneColumn {
  import opened Permutations
  import opened Hungarian
  import opened HungarianSafety
  import opened HungarianOptimality
  import opened HungarianRuns
  import opened HungarianPlacement
  import opened HungarianOverflow
  import opened HungarianSpare

  /** Row 1 holds column 1 over a forbidden entry; their potentials add up to the sentinel. */
  ghost predicate Squats(n: nat, inf: real, s: State)
    requires Shape(n, s) && n >= 1
  {
    && s.row >= 1 && s.p[1] == 1 && s.u[1] + s.v[1] == inf
    && (forall c :: 1 < c <= n ==> s.way[c] == 0)
    && (s.flipping ==> s.j0 == 0 || s.j0 > 1)
  }

  /** The search for a later row has reached column 1 along a tight edge, and nothing else. */
  ghost predicate AtSquatter(cost: Matrix, n: nat, inf: real, s: State)
    requires Square(cost, n) && Shape(n, s) && n >= 1
  {
    && s.j0 == 1 && 1 < s.row <= n && Slack(cost, n, s.u, s.v, s.row, 1) == 0.0
    && (forall c :: 0 <= c <= n ==> (s.used[c] <==> c == 0))
    && (forall c :: 1 < c <= n ==> s.minVal[c] == Cap(n, inf, s))
  }

  ghost predicate Squatted(cost: Matrix, n: nat, inf: real, s: State)
    requires Square(cost, n) && Shape(n, s) && n >= 1
  {
    && Squats(n, inf, s)
    && (!s.flipping ==> s.row > 1 && (Dead(n, s) || AtStart(n, inf, s) || AtSquatter(cost, n, inf, s)))
  }

  // -------------------------------------------------------------------------------- later rows

  lemma SquattedDead(cost: Matrix, n: nat, inf: real, s: State, rank: seq<nat>)
    requires Square(cost, n) && n >= 1 && inf > 0.0 && Safe(cost, n, inf, s, rank) && !s.flipping
    requires Squatted(cost, n, inf, s) && Dead(n, s)
    ensures Squatted(cost, n, inf, Scan(cost, n, inf, s))
  {
    hide Ranked, Searching, Feasible, Scan, AtStart, AtSquatter, Dead;
    DeadScan(cost, n, inf, s, rank);
  }

  /** The first round either reaches column 1 or finds nothing. */
  lemma SquattedStart(cost: Matrix, n: nat, inf: real, s: State, rank: seq<nat>)
    requires Square(cost, n) && n >= 1 && Blank(cost, n, 1, inf) && inf > 0.0
    requires Safe(cost, n, inf, s, rank) && !s.flipping && Squatted(cost, n, inf, s) && AtStart(n, inf, s)
    ensures Squatted(cost, n, inf, Scan(cost, n, inf, s))
  {
    hide Ranked, Searching, Fresh;
    var t, i := Relaxed(cost, n, s), s.row;
    var first := Slack(cost, n, s.u, s.v, i, 1);
    assert first >= 0.0;
    forall c | 1 < c <= n ensures t.minVal[c] == inf && t.way[c] == 0 {
      assert cost[i - 1][c - 1] >= 2.0 * inf && s.v[c] <= 0.0;
    }
    if first < inf {
      LeastIsFirst(t.minVal, t.used, inf, n, 1);
      RowRaised(n, t, first, 1);
    } else {
      LeastOfEqual(t.minVal, t.used, inf, n);
      RowRaised(n, t, inf, 0);
    }
  }

  /** From column 1 every blank column is at least as far away as what is left of the sentinel. */
  lemma BlankSlack(cost: Matrix, n: nat, inf: real, s: State, c: nat)
    requires Square(cost, n) && n >= 1 && NonNegative(cost, n) && Shape(n, s) && Feasible(cost, n, s)
    requires Squats(n, inf, s) && AtSquatter(cost, n, inf, s) && 1 < c <= n && cost[0][c - 1] >= 2.0 * inf
    ensures Slack(cost, n, s.u, s.v, 1, c) >= Cap(n, inf, s)
  {
    assert cost[s.row - 1][0] >= 0.0;
  }

  lemma SquattedReached(cost: Matrix, n: nat, inf: real, s: State, rank: seq<nat>)
    requires Square(cost, n) && n >= 1 && NonNegative(cost, n) && Blank(cost, n, 1, inf) && inf > 0.0
    requires Safe(cost, n, inf, s, rank) && !s.flipping && Squatted(cost, n, inf, s) && AtSquatter(cost, n, inf, s)
    ensures Squatted(cost, n, inf, Scan(cost, n, inf, s))
  {
    hide Ranked, Searching, Fresh;
    var t := Relaxed(cost, n, s);
    forall c | 1 < c <= n ensures t.minVal[c] == Cap(n, inf, s) && t.way[c] == 0 {
      BlankSlack(cost, n, inf, s, c);
    }
    assert s.u[s.row] >= 0.0;
    var (delta, j1) := Least(t.minVal, t.used, inf, n);
    BothRaised(n, t, delta, j1);
    var f := FreeColumn(n, s);
    assert !t.used[f] && t.minVal[f] == Cap(n, inf, s);
    assert delta == Cap(n, inf, s);
  }

  lemma BothRaised(n: nat, t: State, delta: real, j1: nat)
    requires Shape(n, t) && n >= 1 && j1 <= n && Matching(n, t) && !t.flipping && t.p[1] == 1
    requires forall c :: 0 <= c <= n ==> (t.used[c] <==> c <= 1)
    ensures var w := Shifted(n, t, delta, j1); w.u[1] == t.u[1] + delta && w.v[1] == t.v[1] - delta
  {
    ShiftedRows(n, t, delta, j1);
    assert t.used[1];
  }

  lemma SquattedStep(cost: Matrix, n: nat, inf: real, s: State, rank: seq<nat>) returns (rank': seq<nat>)
    requires Square(cost, n) && n >= 1 && NonNegative(cost, n) && Blank(cost, n, 1, inf) && inf > 0.0
    requires Safe(cost, n, inf, s, rank) && Squatted(cost, n, inf, s)
    ensures var t := Step(cost, n, inf, s); Safe(cost, n, inf, t, rank') && Squatted(cost, n, inf, t)
  {
    hide Ranked, Searching, Feasible, Matching, Scan, Blank, NonNegative, Dead, AtSquatter;
    rank' := StepKeeps(cost, n, inf, s, rank);
    if !s.flipping {
      if Dead(n, s) {
        SquattedDead(cost, n, inf, s, rank);
      } else if AtStart(n, inf, s) {
        SquattedStart(cost, n, inf, s, rank);
      } else {
        SquattedReached(cost, n, inf, s, rank);
      }
    } else if s.j0 == 0 && s.row < n {
      NextRowStarts(cost, n, inf, s, rank);
    }
  }

  // --------------------------------------------------------------------------------- the first row

  /** A first row without any entry below the sentinel dies at once and takes the first column. */
  lemma FirstRowSquats(cost: Matrix, n: nat, inf: real, s: State, rank: seq<nat>, rank': seq<nat>)
    requires Square(cost, n) && n >= 1 && inf > 0.0 && s == NextRow(n, inf, Start(n)) && ForbiddenRow(cost, n, inf, 1)
    requires Safe(cost, n, inf, s, rank) && Safe(cost, n, inf, Scan(cost, n, inf, s), rank')
    ensures var d := Scan(cost, n, inf, s);
            && !d.flipping && Scan(cost, n, inf, d).flipping && Scan(cost, n, inf, d).j0 != 0
            && Squatted(cost, n, inf, Flip(n, Scan(cost, n, inf, d)))
  {
    hide Ranked, Searching, Feasible, Scan, Dead;
    FirstRowStarts(cost, n, inf, s);
    StartScan(cost, n, inf, s, rank);
    DeadScan(cost, n, inf, Scan(cost, n, inf, s), rank');
  }

  lemma FirstRowStarts(cost: Matrix, n: nat, inf: real, s: State)
    requires Square(cost, n) && n >= 1 && s == NextRow(n, inf, Start(n))
    ensures AtStart(n, inf, s) && s.row == 1 && !s.flipping
    ensures forall c :: 1 <= c <= n ==> s.p[c] == 0 && s.way[c] == 0 && s.v[c] == 0.0
  {
  }

  lemma AfterFour(cost: Matrix, n: nat, inf: real)
    requires Square(cost, n) && n >= 1 && NonNegative(cost, n) && inf > 0.0 && ForbiddenRow(cost, n, inf, 1)
    ensures Squatted(cost, n, inf, Run(cost, n, inf, 4))
  {
    hide Run, Safe, Scan, Flip, NextRow, Squatted, NonNegative, ForbiddenRow;
    var rank := RunKeeps(cost, n, inf, 1);
    var rank' := RunKeeps(cost, n, inf, 2);
    StartRuns(cost, n, inf);
    FirstRowStarts(cost, n, inf, Run(cost, n, inf, 1));
    RunStep(cost, n, inf, 1);
    RunStep(cost, n, inf, 2);
    RunStep(cost, n, inf, 3);
    FirstRowSquats(cost, n, inf, Run(cost, n, inf, 1), rank, rank');
  }

  lemma StartRuns(cost: Matrix, n: nat, inf: real)
    requires Square(cost, n) && n >= 1
    ensures Run(cost, n, inf, 1) == NextRow(n, inf, Start(n))
  {
    assert Run(cost, n, inf, 0) == Start(n);
  }

  lemma {:induction false} SquattedRuns(cost: Matrix, n: nat, inf: real, k: nat) returns (rank: seq<nat>)
    requires Square(cost, n) && n >= 1 && NonNegative(cost, n) && Blank(cost, n, 1, inf) && inf > 0.0
    requires ForbiddenRow(cost, n, inf, 1) && k >= 4
    ensures Safe(cost, n, inf, Run(cost, n, inf, k), rank) && Squatted(cost, n, inf, Run(cost, n, inf, k))
  {
    hide Run, Safe, Squatted, Step, NonNegative, Blank, ForbiddenRow;
    if k == 4 {
      rank := RunKeeps(cost, n, inf, 4);
      AfterFour(cost, n, inf);
    } else {
      RunStep(cost, n, inf, k - 1);
      var previous := SquattedRuns(cost, n, inf, k - 1);
      rank := SquattedStep(cost, n, inf, Run(cost, n, inf, k - 1), previous);
    }
  }

  // -------------------------------------------------------------------------------- the result

  lemma SquatterKeeps(cost: Matrix, n: nat, inf: real, k: nat)
    requires Square(cost, n) && n >= 1 && NonNegative(cost, n) && Blank(cost, n, 1, inf) && inf > 0.0
    requires ForbiddenRow(cost, n, inf, 1) && Halted(n, Run(cost, n, inf, k))
    ensures IsPermutation(Result(n, Run(cost, n, inf, k)), n) && Result(n, Run(cost, n, inf, k))[0] == 0
  {
    hide Run, NonNegative, Blank, ForbiddenRow, Ranked, Searching, Feasible;
    var last := if k < 4 then 4 else k;
    HaltedStays(cost, n, inf, k, last);
    var rank := SquattedRuns(cost, n, inf, last);
    var s := Run(cost, n, inf, k);
    HaltedIsPermutation(cost, n, inf, s, rank);
    ExtractedAt(n, s.p, n, 1);
  }

  /** One open column, any number of rows: the first row gets it, whether its entry is forbidden or not and
      whatever the others cost. */
  lemma FirstRowHoldsTheColumn(cost: Matrix, n: nat, inf: real, C: real, k: nat)
    requires Square(cost, n) && n >= 1 && Bivalued(cost, n, inf, C) && Blank(cost, n, 1, inf)
    requires Halted(n, Run(cost, n, inf, k))
    ensures IsPermutation(Result(n, Run(cost, n, inf, k)), n) && Result(n, Run(cost, n, inf, k))[0] == 0
  {
    BivaluedFacts(cost, n, inf, C);
    if cost[0][0] <= C {
      var q: seq<nat> := [0];
      hide Run, Bivalued, Blank;
      FirstRowsServed(cost, n, inf, 1, C, q, k);
    } else {
      assert ForbiddenRow(cost, n, inf, 1);
      SquatterKeeps(cost, n, inf, k);
    }
  }
}
