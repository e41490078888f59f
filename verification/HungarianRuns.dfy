/** The invariants of every run of the solver, and what its finished runs yield. */
module HungarianRuns {
  import opened Permutations
  import opened Hungarian
  import opened HungarianSafety
  import opened HungarianOptimality

  // ------------------------------------------------------------------- invariants of every run

  lemma StartIsTight(cost: Matrix, n: nat, inf: real)
    requires Square(cost, n)
    ensures Tight(cost, n, inf, Start(n), StartRank(n))
  {
  }

  lemma StepKeeps(cost: Matrix, n: nat, inf: real, s: State, rank: seq<nat>) returns (rank': seq<nat>)
    requires Square(cost, n) && inf > 0.0 && Safe(cost, n, inf, s, rank)
    ensures Safe(cost, n, inf, Step(cost, n, inf, s), rank')
    ensures Tight(cost, n, inf, s, rank) && (!s.flipping ==> StaysBelowCap(n, inf, Relaxed(cost, n, s))) ==>
      Tight(cost, n, inf, Step(cost, n, inf, s), rank')
  {
    hide Matching, Feasible, Searching, Tight, NonNegative, StaysBelowCap;
    rank' := rank;
    if !s.flipping {
      rank' := ScanKeepsSafe(cost, n, inf, s, rank);
      if Tight(cost, n, inf, s, rank) && StaysBelowCap(n, inf, Relaxed(cost, n, s)) {
        ScanKeepsTight(cost, n, inf, s, rank, rank');
      }
    } else if s.j0 != 0 {
      FlipKeepsSafe(cost, n, inf, s, rank);
      if Tight(cost, n, inf, s, rank) {
        FlipKeepsTight(cost, n, inf, s, rank);
      }
    } else if s.row < n {
      NextRowKeepsSafe(cost, n, inf, s, rank);
      if Tight(cost, n, inf, s, rank) {
        NextRowKeepsTight(cost, n, inf, s, rank);
      }
    }
  }

  lemma TightStepKeeps(cost: Matrix, n: nat, inf: real, s: State, rank: seq<nat>) returns (rank': seq<nat>)
    requires Square(cost, n) && BelowSentinel(cost, n, inf) && inf > 0.0
    requires Safe(cost, n, inf, s, rank) && Tight(cost, n, inf, s, rank)
    ensures Safe(cost, n, inf, Step(cost, n, inf, s), rank') && Tight(cost, n, inf, Step(cost, n, inf, s), rank')
  {
    hide Matching, Feasible, Searching, BelowSentinel, Step, Relaxed, Heading, TightTree, TightPath, TightEdges,
      StaysBelowCap;
    if !s.flipping {
      BelowSentinelStays(cost, n, inf, s, rank);
    }
    rank' := StepKeeps(cost, n, inf, s, rank);
  }

  /** Every state of every run is safe, and tight when no entry reaches the sentinel. */
  lemma {:induction false} RunKeeps(cost: Matrix, n: nat, inf: real, k: nat) returns (rank: seq<nat>)
    requires Square(cost, n) && NonNegative(cost, n) && inf > 0.0
    ensures Safe(cost, n, inf, Run(cost, n, inf, k), rank)
    ensures BelowSentinel(cost, n, inf) ==> Tight(cost, n, inf, Run(cost, n, inf, k), rank)
  {
    hide Matching, Feasible, Ranked, Searching, Tight, NonNegative, BelowSentinel, Step;
    if k == 0 {
      rank := StartRank(n);
      StartIsSafe(cost, n, inf);
      StartIsTight(cost, n, inf);
    } else {
      var previous := RunKeeps(cost, n, inf, k - 1);
      var s := Run(cost, n, inf, k - 1);
      if BelowSentinel(cost, n, inf) {
        rank := TightStepKeeps(cost, n, inf, s, previous);
      } else {
        rank := StepKeeps(cost, n, inf, s, previous);
      }
    }
  }

  /** With entries in [0, C] below the sentinel the potentials never leave the range of the costs: in every
      state of every run 0 <= u <= C and -C <= v <= 0. */
  lemma {:induction false} DualsBounded(cost: Matrix, n: nat, inf: real, k: nat, C: real) returns (rank: seq<nat>)
    requires Square(cost, n) && CostsWithin(cost, n, C) && BelowSentinel(cost, n, inf) && inf > 0.0
    ensures DualsWithin(n, Run(cost, n, inf, k), C)
    ensures Safe(cost, n, inf, Run(cost, n, inf, k), rank) && Tight(cost, n, inf, Run(cost, n, inf, k), rank)
  {
    hide Matching, Feasible, Ranked, Searching, Tight, BelowSentinel, Safe, Scan;
    if k == 0 {
      rank := StartRank(n);
      StartIsSafe(cost, n, inf);
      StartIsTight(cost, n, inf);
      assert n > 0 ==> 0.0 <= cost[0][0] <= C;
    } else {
      var s := Run(cost, n, inf, k - 1);
      var previous := DualsBounded(cost, n, inf, k - 1, C);
      rank := TightStepKeeps(cost, n, inf, s, previous);
      if !s.flipping {
        ScanKeepsDualsWithin(cost, n, inf, s, previous, rank, C);
      }
    }
  }

  /** A finished run yields a permutation; it is a cheapest one when no entry reaches the sentinel,
      and the potentials prove it: their sum is its cost and a lower bound for every other. */
  lemma HaltedRun(cost: Matrix, n: nat, inf: real, k: nat)
    requires Square(cost, n) && NonNegative(cost, n) && inf > 0.0
    requires Halted(n, Run(cost, n, inf, k))
    ensures IsPermutation(Result(n, Run(cost, n, inf, k)), n)
    ensures BelowSentinel(cost, n, inf) ==>
      var s := Run(cost, n, inf, k);
      && TotalCost(cost, Result(n, s)) == Sum(s.u[1..]) + Sum(s.v[1..])
      && forall q :: IsPermutation(q, n) ==> TotalCost(cost, Result(n, s)) <= TotalCost(cost, q)
  {
    hide Run, Matching, Feasible, Ranked, Searching, NonNegative, BelowSentinel, TotalCost;
    var s := Run(cost, n, inf, k);
    var rank := RunKeeps(cost, n, inf, k);
    HaltedIsPermutation(cost, n, inf, s, rank);
    if BelowSentinel(cost, n, inf) {
      HaltedIsOptimal(cost, n, inf, s, rank);
    }
  }

  /** `result` is what a finished run of the solver returns. */
  ghost predicate Solves(cost: Matrix, n: nat, inf: real, result: seq<nat>)
    requires Square(cost, n)
  {
    exists k :: Halted(n, Run(cost, n, inf, k)) && result == Result(n, Run(cost, n, inf, k))
  }

  /** Every run halts, whatever the non-negative entries. */
  lemma Halts(cost: Matrix, n: nat, inf: real) returns (k: nat)
    requires Square(cost, n) && NonNegative(cost, n) && inf > 0.0
    ensures Halted(n, Run(cost, n, inf, k))
  {
    var rank := RunKeeps(cost, n, inf, 0);
    k := HaltsFrom(cost, n, inf, 0, rank);
  }

  lemma {:induction false} HaltsFrom(cost: Matrix, n: nat, inf: real, k: nat, rank: seq<nat>) returns (k': nat)
    requires Square(cost, n) && NonNegative(cost, n) && inf > 0.0
    requires Safe(cost, n, inf, Run(cost, n, inf, k), rank)
    ensures Halted(n, Run(cost, n, inf, k'))
    decreases n - Run(cost, n, inf, k).row,
              !Run(cost, n, inf, k).flipping,
              var s := Run(cost, n, inf, k); if s.flipping then rank[s.j0] else Rounds(s.used, s.j0)
  {
    var s := Run(cost, n, inf, k);
    RunStep(cost, n, inf, k);
    hide Matching, Feasible, Searching, NonNegative, Run;
    if Halted(n, s) {
      k' := k;
    } else {
      var rank' := rank;
      if !s.flipping {
        rank' := ScanKeepsSafe(cost, n, inf, s, rank);
        ScanDecreases(cost, n, inf, s, rank);
      } else if s.j0 != 0 {
        FlipKeepsSafe(cost, n, inf, s, rank);
      } else {
        NextRowKeepsSafe(cost, n, inf, s, rank);
      }
      k' := HaltsFrom(cost, n, inf, k + 1, rank');
    }
  }

  lemma RunStep(cost: Matrix, n: nat, inf: real, k: nat)
    requires Square(cost, n)
    ensures Run(cost, n, inf, k + 1) == Step(cost, n, inf, Run(cost, n, inf, k))
  {
  }

  lemma {:induction false} HaltedStays(cost: Matrix, n: nat, inf: real, k: nat, k': nat)
    requires Square(cost, n) && k <= k' && Halted(n, Run(cost, n, inf, k))
    ensures Run(cost, n, inf, k') == Run(cost, n, inf, k)
    decreases k' - k
  {
    if k < k' {
      RunStep(cost, n, inf, k);
      HaltedStays(cost, n, inf, k + 1, k');
    }
  }

  /** The machine is deterministic: all finished runs agree. */
  lemma HaltedUnique(cost: Matrix, n: nat, inf: real, k: nat, k': nat)
    requires Square(cost, n) && Halted(n, Run(cost, n, inf, k)) && Halted(n, Run(cost, n, inf, k'))
    ensures Run(cost, n, inf, k) == Run(cost, n, inf, k')
  {
    if k <= k' { HaltedStays(cost, n, inf, k, k'); } else { HaltedStays(cost, n, inf, k', k); }
  }

  // ------------------------------------------------------------------- how long a search takes

  lemma {:induction false} NothingMarked(n: nat)
    ensures Marked(seq(n, c => false)) == 0
  {
    if n > 0 {
      NothingMarked(n - 1);
      assert seq(n, c => false)[1..] == seq(n - 1, c => false);
    }
  }

  /** Inserting row i takes at most i rounds: once i - 1 rows are in, the next d states belong to the search
      for row i, with d <= i, and the state after them has reached a free column. */
  lemma SearchTakes(cost: Matrix, n: nat, inf: real, k: nat) returns (d: nat)
    requires Square(cost, n) && NonNegative(cost, n) && BelowSentinel(cost, n, inf) && inf > 0.0
    requires var s := Run(cost, n, inf, k); s.flipping && s.j0 == 0 && s.row < n
    ensures var i := Run(cost, n, inf, k).row + 1;
            && 1 <= d <= i
            && (forall j: nat :: k < j <= k + d ==> !Run(cost, n, inf, j).flipping)
            && Run(cost, n, inf, k + d + 1).flipping && Run(cost, n, inf, k + d + 1).row == i
  {
    hide Run, Step, Scan, Flip, Marked, NonNegative, BelowSentinel, Shape;
    SearchStarts(cost, n, inf, k);
    d := RoundsLeft(cost, n, inf, k + 1);
    assert k + 1 + d == k + d + 1;
  }

  lemma SearchStarts(cost: Matrix, n: nat, inf: real, k: nat)
    requires Square(cost, n)
    requires var s := Run(cost, n, inf, k); s.flipping && s.j0 == 0 && s.row < n
    ensures var t := Run(cost, n, inf, k + 1);
            !t.flipping && t.row == Run(cost, n, inf, k).row + 1 && Marked(t.used) == 0
  {
    RunStep(cost, n, inf, k);
    NothingMarked(n + 1);
    hide Run, Marked;
  }

  lemma {:induction false} RoundsLeft(cost: Matrix, n: nat, inf: real, k: nat) returns (d: nat)
    requires Square(cost, n) && NonNegative(cost, n) && BelowSentinel(cost, n, inf) && inf > 0.0
    requires !Run(cost, n, inf, k).flipping
    ensures 1 <= d <= Run(cost, n, inf, k).row - Marked(Run(cost, n, inf, k).used)
    ensures forall j: nat :: k <= j < k + d ==> !Run(cost, n, inf, j).flipping
    ensures Run(cost, n, inf, k + d).flipping && Run(cost, n, inf, k + d).row == Run(cost, n, inf, k).row
    decreases n - Marked(Run(cost, n, inf, k).used)
  {
    hide Run, Marked;
    OneRound(cost, n, inf, k);
    if Run(cost, n, inf, k + 1).flipping {
      d := 1;
    } else {
      var rest := RoundsLeft(cost, n, inf, k + 1);
      d := rest + 1;
    }
  }

  lemma OneRound(cost: Matrix, n: nat, inf: real, k: nat)
    requires Square(cost, n) && NonNegative(cost, n) && BelowSentinel(cost, n, inf) && inf > 0.0
    requires !Run(cost, n, inf, k).flipping
    ensures var s, t := Run(cost, n, inf, k), Run(cost, n, inf, k + 1);
            Marked(s.used) < s.row == t.row <= n && Marked(t.used) == Marked(s.used) + 1
  {
    var rank := RunKeeps(cost, n, inf, k);
    RunStep(cost, n, inf, k);
    hide Run, NonNegative, BelowSentinel, Matching, Feasible, Ranked, Searching, TightTree, TightEdges, Heading,
      Marked;
    MarksOneOfTheRows(cost, n, inf, Run(cost, n, inf, k), rank);
  }
}
