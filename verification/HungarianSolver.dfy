/** The solver itself, on arrays as in internal/algo/hungarian.go. */
module HungarianSolver {
  import opened Permutations
  import opened Hungarian
  import opened HungarianSafety
  import opened HungarianOptimality
  import opened HungarianRuns
  import opened HungarianPlacement

  // ------------------------------------------------------------------------ the loops on arrays

  ghost predicate Holds(s: State, j0: nat, u: array<real>, v: array<real>, p: array<nat>, way: array<nat>)
    reads u, v, p, way
  {
    s.j0 == j0 && s.u == u[..] && s.v == v[..] && s.p == p[..] && s.way == way[..]
  }

  lemma RelaxedAt(cost: Matrix, n: nat, u: seq<real>, v: seq<real>, i0: nat,
                  minVal: seq<real>, used: seq<bool>, way: seq<nat>, j0: nat, c: nat)
    requires Square(cost, n) && |u| == |v| == |minVal| == |used| == |way| == n + 1 && 1 <= i0 <= n && 1 <= c <= n
    ensures var cur := cost[i0 - 1][c - 1] - u[i0] - v[c];
            && RelaxedMin(cost, n, u, v, i0, minVal, used)[c] ==
               (if !used[c] && cur < minVal[c] then cur else minVal[c])
            && RelaxedWay(cost, n, u, v, i0, minVal, used, way, j0)[c] ==
               (if !used[c] && cur < minVal[c] then j0 else way[c])
  {
  }

  /** The first k elements of `a`, then those of `b`. */
  ghost function Spliced<T>(a: seq<T>, b: seq<T>, k: nat): (s: seq<T>)
    requires |a| == |b| && k <= |a|
    ensures |s| == |a|
  {
    a[..k] + b[k..]
  }

  lemma SpliceNext<T>(a: seq<T>, b: seq<T>, k: nat)
    requires |a| == |b| && k < |a|
    ensures Spliced(a, b, k)[k] == b[k]
    ensures Spliced(a, b, k)[k := a[k]] == Spliced(a, b, k + 1)
  {
  }

  lemma RelaxedEnds(cost: Matrix, n: nat, u: seq<real>, v: seq<real>, i0: nat,
                    minVal: seq<real>, used: seq<bool>, way: seq<nat>, j0: nat)
    requires Square(cost, n) && |u| == |v| == |minVal| == |used| == |way| == n + 1 && 1 <= i0 <= n
    ensures |cost| == n && |cost[i0 - 1]| == n
    ensures var m := RelaxedMin(cost, n, u, v, i0, minVal, used);
            Spliced(m, minVal, 1) == minVal && Spliced(m, minVal, n + 1) == m
    ensures var w := RelaxedWay(cost, n, u, v, i0, minVal, used, way, j0);
            Spliced(w, way, 1) == way && Spliced(w, way, n + 1) == w
  {
  }

  lemma LeastNext(minVal: seq<real>, used: seq<bool>, inf: real, k: nat)
    requires |minVal| == |used| && k < |minVal|
    ensures k == 0 ==> Least(minVal, used, inf, k) == (inf, 0)
    ensures k > 0 ==>
      var (delta, j1) := Least(minVal, used, inf, k - 1);
      Least(minVal, used, inf, k) == if !used[k] && minVal[k] < delta then (minVal[k], k) else (delta, j1)
  {
  }

  /** The first inner loop: relax the live columns from row i0 and pick the nearest one. */
  method RelaxColumns(cost: Matrix, n: nat, inf: real, i0: nat, j0: nat, u: array<real>, v: array<real>,
                      way: array<nat>, minVal: array<real>, used: array<bool>)
    returns (delta: real, j1: nat)
    requires Square(cost, n) && 1 <= i0 <= n
    requires u.Length == v.Length == way.Length == minVal.Length == used.Length == n + 1
    requires minVal != u && minVal != v
    modifies way, minVal
    ensures minVal[..] == RelaxedMin(cost, n, u[..], v[..], i0, old(minVal[..]), used[..])
    ensures way[..] == RelaxedWay(cost, n, u[..], v[..], i0, old(minVal[..]), used[..], old(way[..]), j0)
    ensures (delta, j1) == Least(minVal[..], used[..], inf, n)
  {
    hide RelaxedMin, RelaxedWay, Square, Least, Spliced;
    delta := inf;
    j1 := 0;
    ghost var us, vs, marks, min0, way0 := u[..], v[..], used[..], minVal[..], way[..];
    ghost var m := RelaxedMin(cost, n, us, vs, i0, min0, marks);
    ghost var w := RelaxedWay(cost, n, us, vs, i0, min0, marks, way0, j0);
    RelaxedEnds(cost, n, us, vs, i0, min0, marks, way0, j0);
    LeastNext(m, marks, inf, 0);
    for j := 1 to n + 1
      invariant minVal[..] == Spliced(m, min0, j)
      invariant way[..] == Spliced(w, way0, j)
      invariant (delta, j1) == Least(m, marks, inf, j - 1)
    {
      LeastNext(m, marks, inf, j);
      SpliceNext(m, min0, j);
      SpliceNext(w, way0, j);
      RelaxedAt(cost, n, us, vs, i0, min0, marks, way0, j0, j);
      if !used[j] {
        var cur := cost[i0 - 1][j - 1] - u[i0] - v[j];
        if cur < minVal[j] {
          minVal[j] := cur;
          way[j] := j0;
        }
        if minVal[j] < delta {
          delta := minVal[j];
          j1 := j;
        }
      }
    }
    assert us == u[..] && vs == v[..] && marks == used[..];
  }

  lemma ShiftedAt(n: nat, t: State, delta: real, j1: nat)
    requires Shape(n, t) && j1 <= n
    ensures var w := Shifted(n, t, delta, j1);
            && w.u == Raised(t.u, t.p, t.used, delta, n + 1) && Raised(t.u, t.p, t.used, delta, 0) == t.u
            && Spliced(w.v, t.v, 0) == t.v && Spliced(w.v, t.v, n + 1) == w.v
            && Spliced(w.minVal, t.minVal, 0) == t.minVal && Spliced(w.minVal, t.minVal, n + 1) == w.minVal
            && w.v == Shifted(n, t, delta, 0).v && w.minVal == Shifted(n, t, delta, 0).minVal
            && |t.p| == |t.used| == n + 1
  {
  }

  lemma ShiftedNext(n: nat, t: State, delta: real, j: nat)
    requires Shape(n, t) && j <= n
    ensures t.p[j] < |t.u|
    ensures var w := Shifted(n, t, delta, 0);
            && w.v[j] == (if t.used[j] then t.v[j] - delta else t.v[j])
            && w.minVal[j] == (if t.used[j] then t.minVal[j] else t.minVal[j] - delta)
    ensures var r := Raised(t.u, t.p, t.used, delta, j);
            Raised(t.u, t.p, t.used, delta, j + 1) == if t.used[j] then r[t.p[j] := r[t.p[j]] + delta] else r
  {
  }

  /** The second inner loop: the dual update. */
  method ShiftDuals(n: nat, delta: real, u: array<real>, v: array<real>, p: array<nat>,
                    minVal: array<real>, used: array<bool>, ghost t: State)
    requires Shape(n, t)
    requires t.u == u[..] && t.v == v[..] && t.p == p[..] && t.minVal == minVal[..] && t.used == used[..]
    requires u != v && minVal != u && minVal != v
    modifies u, v, minVal
    ensures forall j1 :: 0 <= j1 <= n ==>
      var w := Shifted(n, t, delta, j1); w.u == u[..] && w.v == v[..] && w.minVal == minVal[..]
  {
    hide Shifted, Raised, Spliced;
    ghost var w := Shifted(n, t, delta, 0);
    ShiftedAt(n, t, delta, 0);
    for j := 0 to n + 1
      invariant u[..] == Raised(t.u, t.p, t.used, delta, j)
      invariant v[..] == Spliced(w.v, t.v, j)
      invariant minVal[..] == Spliced(w.minVal, t.minVal, j)
    {
      ShiftedNext(n, t, delta, j);
      SpliceNext(w.v, t.v, j);
      SpliceNext(w.minVal, t.minVal, j);
      if used[j] {
        u[p[j]] := u[p[j]] + delta;
        v[j] := v[j] - delta;
      } else {
        minVal[j] := minVal[j] - delta;
      }
    }
    forall j1 | 0 <= j1 <= n
      ensures var w := Shifted(n, t, delta, j1); w.u == u[..] && w.v == v[..] && w.minVal == minVal[..]
    {
      ShiftedAt(n, t, delta, j1);
    }
  }

  /** The search loop: rounds until a free column is reached. */
  method Search(cost: Matrix, n: nat, inf: real, u: array<real>, v: array<real>, p: array<nat>, way: array<nat>,
                ghost k: nat, ghost rank: seq<nat>)
    returns (j0: nat, ghost k': nat, ghost rank': seq<nat>)
    requires Square(cost, n) && inf > 0.0
    requires u != v && p != way
    requires Safe(cost, n, inf, Run(cost, n, inf, k), rank)
    requires var s := Run(cost, n, inf, k);
             !s.flipping && Holds(s, 0, u, v, p, way) &&
             s.minVal == seq(n + 1, c => inf) && s.used == seq(n + 1, c => false)
    modifies u, v, way
    ensures Safe(cost, n, inf, Run(cost, n, inf, k'), rank')
    ensures var s := Run(cost, n, inf, k');
            s.flipping && Holds(s, j0, u, v, p, way) && s.row == Run(cost, n, inf, k).row
  {
    hide Run, Matching, Feasible, Searching, Ranked, Square, RelaxedMin, RelaxedWay, Least, Raised;
    j0, k', rank' := 0, k, rank;
    var minVal := new real[n + 1](_ => inf);
    var used := new bool[n + 1](_ => false);
    ghost var s := Run(cost, n, inf, k);
    while true
      invariant s == Run(cost, n, inf, k') && Safe(cost, n, inf, s, rank')
      invariant !s.flipping && s.row == Run(cost, n, inf, k).row
      invariant Holds(s, j0, u, v, p, way) && s.minVal == minVal[..] && s.used == used[..]
      decreases Rounds(s.used, j0)
    {
      used[j0] := true;
      var delta, j1 := RelaxColumns(cost, n, inf, p[j0], j0, u, v, way, minVal, used);
      ShiftDuals(n, delta, u, v, p, minVal, used, Relaxed(cost, n, s));
      ScanDecreases(cost, n, inf, s, rank');
      rank' := ScanKeepsSafe(cost, n, inf, s, rank');
      RunStep(cost, n, inf, k');
      s, k' := Scan(cost, n, inf, s), k' + 1;
      j0 := j1;
      if p[j0] == 0 {
        break;
      }
    }
  }

  /** The augmenting walk along the back-pointers. */
  method WalkBack(cost: Matrix, n: nat, inf: real, start: nat, u: array<real>, v: array<real>, p: array<nat>,
                  way: array<nat>, ghost k: nat, ghost rank: seq<nat>)
    returns (ghost k': nat)
    requires Square(cost, n) && p != way
    requires Safe(cost, n, inf, Run(cost, n, inf, k), rank)
    requires Run(cost, n, inf, k).flipping && Holds(Run(cost, n, inf, k), start, u, v, p, way)
    modifies p
    ensures Safe(cost, n, inf, Run(cost, n, inf, k'), rank)
    ensures var s := Run(cost, n, inf, k');
            s.flipping && Holds(s, 0, u, v, p, way) && s.row == Run(cost, n, inf, k).row
  {
    hide Run, Matching, Feasible, Searching;
    var j0 := start;
    k' := k;
    ghost var s := Run(cost, n, inf, k);
    while j0 != 0
      invariant s == Run(cost, n, inf, k') && Safe(cost, n, inf, s, rank)
      invariant s.flipping && s.row == Run(cost, n, inf, k).row && Holds(s, j0, u, v, p, way)
      decreases rank[j0]
    {
      FlipKeepsSafe(cost, n, inf, s, rank);
      RunStep(cost, n, inf, k');
      s, k' := Flip(n, s), k' + 1;
      p[j0] := p[way[j0]];
      j0 := way[j0];
    }
  }

  /** One iteration of the outer loop: row i is inserted. */
  method InsertRow(cost: Matrix, n: nat, inf: real, i: nat, u: array<real>, v: array<real>, p: array<nat>,
                   way: array<nat>, ghost k: nat, ghost rank: seq<nat>)
    returns (ghost k': nat, ghost rank': seq<nat>)
    requires Square(cost, n) && inf > 0.0 && 1 <= i <= n
    requires u != v && p != way
    requires Safe(cost, n, inf, Run(cost, n, inf, k), rank)
    requires var s := Run(cost, n, inf, k); s.flipping && s.row == i - 1 && Holds(s, 0, u, v, p, way)
    modifies u, v, p, way
    ensures Safe(cost, n, inf, Run(cost, n, inf, k'), rank')
    ensures var s := Run(cost, n, inf, k'); s.flipping && s.row == i && Holds(s, 0, u, v, p, way)
  {
    hide Run, Matching, Feasible, Searching, Ranked, Square;
    NextRowKeepsSafe(cost, n, inf, Run(cost, n, inf, k), rank);
    RunStep(cost, n, inf, k);
    p[0] := i;
    var j0;
    j0, k', rank' := Search(cost, n, inf, u, v, p, way, k + 1, rank);
    k' := WalkBack(cost, n, inf, j0, u, v, p, way, k', rank');
  }

  /** hungarianSolve: for every square matrix of non-negative entries the loops terminate with a permutation.
      It is a cheapest one whenever no entry reaches the sentinel, and also with forbidden entries, whenever
      some permutation avoids them. */
  method HungarianSolve(cost: Matrix, n: nat, inf: real) returns (result: seq<nat>)
    requires Square(cost, n) && NonNegative(cost, n) && inf > 0.0
    ensures IsPermutation(result, n)
    ensures BelowSentinel(cost, n, inf) || Placeable(cost, n, inf) ==>
      forall q :: IsPermutation(q, n) ==> TotalCost(cost, result) <= TotalCost(cost, q)
    ensures Solves(cost, n, inf, result)
  {
    ghost var rank := RunKeeps(cost, n, inf, 0);
    ghost var k := 0;
    assert Run(cost, n, inf, 0) == Start(n);
    hide Run, Matching, Feasible, Searching, Ranked, NonNegative, BelowSentinel, TotalCost, Square, Extracted,
      IsPermutation, Placeable;
    var u := new real[n + 1](_ => 0.0);
    var v := new real[n + 1](_ => 0.0);
    var p := new nat[n + 1](_ => 0);
    var way := new nat[n + 1](_ => 0);
    for i := 1 to n + 1
      invariant Safe(cost, n, inf, Run(cost, n, inf, k), rank)
      invariant var s := Run(cost, n, inf, k); s.flipping && s.row == i - 1 && Holds(s, 0, u, v, p, way)
    {
      k, rank := InsertRow(cost, n, inf, i, u, v, p, way, k, rank);
    }
    HaltedRun(cost, n, inf, k);
    if Placeable(cost, n, inf) {
      PlaceableRunIsCheapest(cost, n, inf, k);
    }
    result := ReadOff(n, p);
  }

  /** The closing loop of hungarianSolve. */
  method ReadOff(n: nat, p: array<nat>) returns (result: seq<nat>)
    requires p.Length == n + 1 && forall j :: 0 <= j <= n ==> p[j] <= n
    ensures result == Extracted(n, p[..], n)
  {
    result := seq(n, r => 0);
    for j := 1 to n + 1
      invariant result == Extracted(n, p[..], j - 1)
    {
      if p[j] != 0 {
        result := result[p[j] - 1 := j - 1];
      }
    }
  }
}
