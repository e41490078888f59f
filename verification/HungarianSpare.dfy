/** Fewer rows than columns: the first K rows are talents, every entry of the other rows is forbidden.  A padding
    row finds no edge below the sentinel, takes the first free column, and walks back along whatever
    back-pointer the talents' searches left there, which can push a talent out of its column. */
module HungarianSpare {
  import opened Permutations
  import opened Hungarian
  import opened HungarianSafety
  import opened HungarianOptimality
  import opened HungarianRuns

  /** The entry of row r and column c, both 1-based. */
  ghost function Price(cost: Matrix, n: nat, r: nat, c: nat): real
    requires Square(cost, n) && 1 <= r <= n && 1 <= c <= n
  {
    cost[r - 1][c - 1]
  }

  /** The same, as far as a search sees it. */
  ghost function Capped(cost: Matrix, n: nat, inf: real, r: nat, c: nat): real
    requires Square(cost, n) && 1 <= r <= n && 1 <= c <= n
  {
    if Price(cost, n, r, c) < inf then Price(cost, n, r, c) else inf
  }

  /** Every entry of the rows after the first K is forbidden. */
  ghost predicate PaddedRows(cost: Matrix, n: nat, inf: real, K: nat)
    requires Square(cost, n)
  {
    forall r, c :: K <= r < n && 0 <= c < n ==> cost[r][c] >= 2.0 * inf
  }

  // -------------------------------------------------------------------- the search of a padding row

  /** A search that has not done a round yet. */
  ghost predicate AtStart(n: nat, inf: real, s: State)
    requires Shape(n, s)
  {
    && s.j0 == 0 && s.p[0] == s.row && s.u[s.row] == 0.0
    && (forall c :: 0 <= c <= n ==> !s.used[c] && s.minVal[c] == inf)
  }

  lemma NextRowStarts(cost: Matrix, n: nat, inf: real, s: State, rank: seq<nat>)
    requires Square(cost, n) && Safe(cost, n, inf, s, rank) && s.row < n
    ensures AtStart(n, inf, NextRow(n, inf, s))
  {
  }

  lemma {:induction false} LeastOfEqual(minVal: seq<real>, used: seq<bool>, inf: real, k: nat)
    requires |minVal| == |used| && k < |minVal| && forall c :: 1 <= c <= k ==> minVal[c] == inf
    ensures Least(minVal, used, inf, k) == (inf, 0)
  {
    if k > 0 {
      LeastOfEqual(minVal, used, inf, k - 1);
    }
  }

  /** The first of the least live columns is the one that is picked. */
  lemma {:induction false} LeastIsFirst(minVal: seq<real>, used: seq<bool>, inf: real, k: nat, c: nat)
    requires |minVal| == |used| && 1 <= c <= k < |minVal| && !used[c] && minVal[c] < inf
    requires forall d :: 1 <= d <= k && !used[d] ==> minVal[c] <= minVal[d]
    requires forall d :: 1 <= d < c && !used[d] ==> minVal[c] < minVal[d]
    ensures Least(minVal, used, inf, k) == (minVal[c], c)
  {
    if c < k {
      LeastIsFirst(minVal, used, inf, k - 1, c);
    }
  }

  ghost predicate PadSearch(n: nat, inf: real, s: State)
    requires Shape(n, s)
  {
    Dead(n, s) || AtStart(n, inf, s)
  }

  /** A padding row changes neither back-pointers nor column potentials, and when it stops it has found the
      first free column. */
  lemma PaddingScan(cost: Matrix, n: nat, inf: real, K: nat, s: State, rank: seq<nat>)
    requires Square(cost, n) && PaddedRows(cost, n, inf, K) && inf > 0.0
    requires Safe(cost, n, inf, s, rank) && !s.flipping && s.row > K && PadSearch(n, inf, s)
    ensures var w := Scan(cost, n, inf, s);
            && Dead(n, w) && w.way == s.way && w.p == s.p && w.row == s.row
            && (forall c :: 1 <= c <= n ==> w.v[c] == s.v[c])
            && (w.flipping ==> w.j0 >= 1 && w.p[w.j0] == 0 && forall c :: 1 <= c < w.j0 ==> w.p[c] != 0)
  {
    if Dead(n, s) {
      DeadScan(cost, n, inf, s, rank);
    } else {
      StartScan(cost, n, inf, s, rank);
    }
  }

  lemma DeadScan(cost: Matrix, n: nat, inf: real, s: State, rank: seq<nat>)
    requires Square(cost, n) && inf > 0.0 && Safe(cost, n, inf, s, rank) && !s.flipping && Dead(n, s)
    ensures var w := Scan(cost, n, inf, s);
            && Dead(n, w) && w.way == s.way && w.p == s.p && w.row == s.row
            && (forall r :: 0 <= r <= n ==> w.u[r] == s.u[r])
            && (forall c :: 1 <= c <= n ==> w.v[c] == s.v[c])
            && w.j0 >= 1 && w.flipping == (w.p[w.j0] == 0) && (w.flipping ==> forall c :: 1 <= c < w.j0 ==> w.p[c] != 0)
  {
    hide Ranked, Fresh;
    var t := Relaxed(cost, n, s);
    RelaxedSearch(cost, n, inf, s, rank);
    var f := FreeColumn(n, s);
    assert !t.used[f] && t.minVal[f] == 0.0;
    var j1 := FirstLive(n, t.used, f);
    LeastIsFirst(t.minVal, t.used, inf, n, j1);
    ShiftedRows(n, t, 0.0, j1);
  }

  lemma {:induction false} FirstLive(n: nat, used: seq<bool>, f: nat) returns (j: nat)
    requires |used| == n + 1 && 1 <= f <= n && !used[f]
    ensures 1 <= j <= f && !used[j] && forall c :: 1 <= c < j ==> used[c]
  {
    if g :| 1 <= g < f && !used[g] {
      j := FirstLive(n, used, g);
    } else {
      j := f;
    }
  }

  /** Every entry of row r (1-based) is forbidden. */
  ghost predicate ForbiddenRow(cost: Matrix, n: nat, inf: real, r: nat)
    requires Square(cost, n) && 1 <= r <= n
  {
    forall c :: 1 <= c <= n ==> Price(cost, n, r, c) >= 2.0 * inf
  }

  lemma StartScan(cost: Matrix, n: nat, inf: real, s: State, rank: seq<nat>)
    requires Square(cost, n) && inf > 0.0
    requires Safe(cost, n, inf, s, rank) && !s.flipping && AtStart(n, inf, s) && ForbiddenRow(cost, n, inf, s.row)
    ensures var w := Scan(cost, n, inf, s);
            && Dead(n, w) && w.way == s.way && w.p == s.p && w.row == s.row && !w.flipping && w.j0 == 0
            && w.u[s.row] == inf && (forall c :: 1 <= c <= n ==> w.v[c] == s.v[c])
  {
    hide Ranked, Fresh, Searching;
    var t := Relaxed(cost, n, s);
    forall c | 0 <= c <= n ensures t.minVal[c] == inf && t.way[c] == s.way[c] {
      if c >= 1 {
        assert Price(cost, n, s.row, c) >= 2.0 * inf && s.v[c] <= 0.0;
      }
    }
    LeastOfEqual(t.minVal, t.used, inf, n);
    RowRaised(n, t, inf, 0);
  }

  // -------------------------------------------------------------------- the first round of a talent

  /** Column c is the first of the cheapest columns of row r (both 1-based), and below the sentinel. */
  ghost predicate FirstChoice(cost: Matrix, n: nat, inf: real, r: nat, c: nat)
    requires Square(cost, n) && 1 <= r <= n
  {
    && 1 <= c <= n && Price(cost, n, r, c) < inf
    && (forall d :: 1 <= d <= n ==> Price(cost, n, r, c) <= Price(cost, n, r, d))
    && (forall d :: 1 <= d < c ==> Price(cost, n, r, c) < Price(cost, n, r, d))
  }

  lemma {:induction false} SomeFirstChoice(cost: Matrix, n: nat, r: nat, k: nat) returns (c: nat)
    requires Square(cost, n) && 1 <= r <= n && 1 <= k <= n
    ensures 1 <= c <= k
    ensures forall d :: 1 <= d <= k ==> Price(cost, n, r, c) <= Price(cost, n, r, d)
    ensures forall d :: 1 <= d < c ==> Price(cost, n, r, c) < Price(cost, n, r, d)
  {
    hide Price;
    c := 1;
    if k > 1 {
      c := SomeFirstChoice(cost, n, r, k - 1);
      if Price(cost, n, r, k) < Price(cost, n, r, c) {
        c := k;
      }
    }
  }

  /** Every row with an entry below the sentinel has a first choice. */
  lemma FirstChoiceExists(cost: Matrix, n: nat, inf: real, r: nat, d: nat) returns (c: nat)
    requires Square(cost, n) && 1 <= r <= n && 1 <= d <= n && Price(cost, n, r, d) < inf
    ensures FirstChoice(cost, n, inf, r, c)
  {
    c := SomeFirstChoice(cost, n, r, n);
  }

  ghost predicate FlatColumns(n: nat, s: State)
    requires Shape(n, s)
  {
    forall c :: 1 <= c <= n ==> s.v[c] == 0.0 && s.way[c] == 0
  }

  /** As long as no column has been repriced, the first round of a row goes to its first choice. */
  lemma FirstRound(cost: Matrix, n: nat, inf: real, s: State, rank: seq<nat>, c: nat)
    requires Square(cost, n) && Safe(cost, n, inf, s, rank) && !s.flipping
    requires AtStart(n, inf, s) && FlatColumns(n, s) && FirstChoice(cost, n, inf, s.row, c)
    ensures var w := Scan(cost, n, inf, s);
            && w.j0 == c && w.flipping == (s.p[c] == 0) && w.p == s.p && w.row == s.row && FlatColumns(n, w)
            && (forall r :: 0 <= r <= n ==> w.u[r] == if r == s.row then Price(cost, n, r, c) else s.u[r])
            && (forall d :: 0 <= d <= n ==> (w.used[d] <==> d == 0))
            && (forall d :: 1 <= d <= n ==> w.minVal[d] == Capped(cost, n, inf, s.row, d) - Price(cost, n, s.row, c))
  {
    hide Ranked, Fresh, Searching, Feasible;
    var t := Relaxed(cost, n, s);
    var i := s.row;
    forall d | 1 <= d <= n
      ensures t.way[d] == 0 && t.minVal[d] == Capped(cost, n, inf, i, d)
    {
      assert Slack(cost, n, s.u, s.v, i, d) == Price(cost, n, i, d);
    }
    LeastIsFirst(t.minVal, t.used, inf, n, c);
    RowRaised(n, t, Price(cost, n, i, c), c);
  }

  lemma RowRaised(n: nat, t: State, delta: real, j1: nat)
    requires Shape(n, t) && j1 <= n && Matching(n, t) && !t.flipping
    requires forall d :: 0 <= d <= n ==> (t.used[d] <==> d == 0)
    ensures forall r :: 0 <= r <= n ==> Shifted(n, t, delta, j1).u[r] == if r == t.row then t.u[r] + delta else t.u[r]
  {
    var w := Shifted(n, t, delta, j1);
    ShiftedRows(n, t, delta, j1);
    forall r | 0 <= r <= n ensures w.u[r] == if r == t.row then t.u[r] + delta else t.u[r] {
      if r == t.row {
        assert t.used[0] && t.p[0] == r && InTree(t.p, t.used, n + 1, r);
      } else {
        assert !InTree(t.p, t.used, n + 1, r);
      }
    }
  }

  // ------------------------------------------------------------------------ different first choices

  /** first[r] is the first choice of talent r (0-based row and column); no two talents share it. */
  ghost predicate DifferentChoices(cost: Matrix, n: nat, inf: real, first: seq<nat>)
    requires Square(cost, n)
  {
    && |first| <= n && Distinct(first)
    && forall r :: 0 <= r < |first| ==> FirstChoice(cost, n, inf, r + 1, first[r] + 1)
  }

  /** Talents sit at their first choices only, and no column has been repriced or reached over another. */
  ghost predicate Undisturbed(n: nat, inf: real, first: seq<nat>, s: State)
    requires Shape(n, s)
  {
    && FlatColumns(n, s)
    && (forall c :: 1 <= c <= n && c != Hole(n, s) && 1 <= s.p[c] <= |first| ==> first[s.p[c] - 1] + 1 == c)
    && (s.flipping && s.j0 >= 1 ==> s.p[0] == s.row && (1 <= s.row <= |first| ==> first[s.row - 1] + 1 == s.j0))
    && (s.flipping && s.j0 >= 1 ==> s.p[s.j0] == 0)
    && (!s.flipping ==> if s.row <= |first| then AtStart(n, inf, s) else PadSearch(n, inf, s))
  }

  lemma UndisturbedScan(cost: Matrix, n: nat, inf: real, first: seq<nat>, s: State, rank: seq<nat>)
    requires Square(cost, n) && PaddedRows(cost, n, inf, |first|) && DifferentChoices(cost, n, inf, first) && inf > 0.0
    requires Safe(cost, n, inf, s, rank) && Undisturbed(n, inf, first, s) && !s.flipping
    ensures Undisturbed(n, inf, first, Scan(cost, n, inf, s))
  {
    hide Ranked, Searching, Feasible, PaddedRows, FirstChoice, Scan, AtStart, Dead;
    if s.row <= |first| {
      var c := first[s.row - 1] + 1;
      assert FirstChoice(cost, n, inf, s.row, c);
      ChoiceInRange(cost, n, inf, s.row, c);
      FirstRound(cost, n, inf, s, rank, c);
      assert s.p[c] == 0;
    } else {
      PaddingScan(cost, n, inf, |first|, s, rank);
    }
  }

  lemma ChoiceInRange(cost: Matrix, n: nat, inf: real, r: nat, c: nat)
    requires Square(cost, n) && 1 <= r <= n && FirstChoice(cost, n, inf, r, c)
    ensures 1 <= c <= n
  {
  }

  lemma UndisturbedStep(cost: Matrix, n: nat, inf: real, first: seq<nat>, s: State, rank: seq<nat>)
    returns (rank': seq<nat>)
    requires Square(cost, n) && PaddedRows(cost, n, inf, |first|) && DifferentChoices(cost, n, inf, first) && inf > 0.0
    requires Safe(cost, n, inf, s, rank) && Undisturbed(n, inf, first, s)
    ensures var t := Step(cost, n, inf, s); Safe(cost, n, inf, t, rank') && Undisturbed(n, inf, first, t)
  {
    hide Ranked, Searching, Feasible, PaddedRows, DifferentChoices, Scan, Dead;
    rank' := StepKeeps(cost, n, inf, s, rank);
    if !s.flipping {
      UndisturbedScan(cost, n, inf, first, s, rank);
    } else if s.j0 == 0 && s.row < n {
      NextRowStarts(cost, n, inf, s, rank);
    }
  }

  lemma {:induction false} UndisturbedRuns(cost: Matrix, n: nat, inf: real, first: seq<nat>, k: nat)
    returns (rank: seq<nat>)
    requires Square(cost, n) && NonNegative(cost, n) && PaddedRows(cost, n, inf, |first|)
    requires DifferentChoices(cost, n, inf, first) && inf > 0.0
    ensures Safe(cost, n, inf, Run(cost, n, inf, k), rank) && Undisturbed(n, inf, first, Run(cost, n, inf, k))
  {
    hide Run, Safe, Undisturbed, Step, NonNegative, PaddedRows, DifferentChoices;
    if k == 0 {
      rank := UndisturbedStart(cost, n, inf, first);
    } else {
      RunStep(cost, n, inf, k - 1);
      var previous := UndisturbedRuns(cost, n, inf, first, k - 1);
      rank := UndisturbedStep(cost, n, inf, first, Run(cost, n, inf, k - 1), previous);
    }
  }

  lemma UndisturbedStart(cost: Matrix, n: nat, inf: real, first: seq<nat>) returns (rank: seq<nat>)
    requires Square(cost, n) && NonNegative(cost, n) && inf > 0.0
    ensures Safe(cost, n, inf, Run(cost, n, inf, 0), rank) && Undisturbed(n, inf, first, Run(cost, n, inf, 0))
  {
    rank := StartRank(n);
    StartIsSafe(cost, n, inf);
  }

  /** However many columns are left over: if no two talents have the same first choice, each gets its own. */
  lemma EveryoneGetsTheFirstChoice(cost: Matrix, n: nat, inf: real, first: seq<nat>, k: nat)
    requires Square(cost, n) && NonNegative(cost, n) && PaddedRows(cost, n, inf, |first|)
    requires DifferentChoices(cost, n, inf, first) && inf > 0.0 && Halted(n, Run(cost, n, inf, k))
    ensures IsPermutation(Result(n, Run(cost, n, inf, k)), n)
    ensures Result(n, Run(cost, n, inf, k))[..|first|] == first
  {
    hide Run, Ranked, Searching, Feasible, PaddedRows, FirstChoice;
    var s := Run(cost, n, inf, k);
    var rank := UndisturbedRuns(cost, n, inf, first, k);
    HaltedIsPermutation(cost, n, inf, s, rank);
    forall r | 0 <= r < |first| ensures Result(n, s)[r] == first[r] {
      assert s.p[Result(n, s)[r] + 1] == r + 1;
    }
  }
}
