/** The shortest-augmenting-path solver of internal/algo/hungarian.go as a state machine.

    One `Step` is one round of the search loop, one link of the augmenting walk, or the start of
    the next row.  Columns are numbered 1..n; column 0 is the artificial column that holds the row
    being inserted.  Numbers are exact reals, and the sentinel `inf` is a parameter. */
module Hungarian {
  type Matrix = seq<seq<real>>

  ghost predicate Square(cost: Matrix, n: nat) {
    |cost| == n && forall r :: 0 <= r < n ==> |cost[r]| == n
  }

  ghost predicate NonNegative(cost: Matrix, n: nat)
    requires Square(cost, n)
  {
    forall r, c :: 0 <= r < n && 0 <= c < n ==> 0.0 <= cost[r][c]
  }

  /** No entry reaches the sentinel; in particular none is Forbidden. */
  ghost predicate BelowSentinel(cost: Matrix, n: nat, inf: real)
    requires Square(cost, n)
  {
    forall r, c :: 0 <= r < n && 0 <= c < n ==> cost[r][c] < inf
  }

  datatype State = State(
    row: nat,            // rows 1..row have been started
    flipping: bool,      // false: searching from column j0; true: walking back along `way`
    j0: nat,
    u: seq<real>, v: seq<real>,
    p: seq<nat>, way: seq<nat>,
    minVal: seq<real>, used: seq<bool>)

  ghost predicate Shape(n: nat, s: State) {
    && |s.u| == |s.v| == |s.p| == |s.way| == |s.minVal| == |s.used| == n + 1
    && s.row <= n && s.j0 <= n
    && (forall j :: 0 <= j <= n ==> s.p[j] <= n)
    && (forall j :: 0 <= j <= n ==> s.way[j] <= n)
    && (!s.flipping ==> 1 <= s.p[s.j0])
  }

  /** Reduced cost of row r (1-based) and column c (1-based). */
  ghost function Slack(cost: Matrix, n: nat, u: seq<real>, v: seq<real>, r: nat, c: nat): real
    requires Square(cost, n) && |u| == |v| == n + 1
    requires 1 <= r <= n && 1 <= c <= n
  {
    cost[r - 1][c - 1] - u[r] - v[c]
  }

  // ---------------------------------------------------------------- one round of the search

  /** The live column c is reached more cheaply from row i0 than before. */
  ghost predicate Improves(cost: Matrix, n: nat, u: seq<real>, v: seq<real>, i0: nat,
                           minVal: seq<real>, used: seq<bool>, c: nat)
    requires Square(cost, n) && |u| == |v| == |minVal| == |used| == n + 1 && 1 <= i0 <= n && c <= n
  {
    c >= 1 && !used[c] && Slack(cost, n, u, v, i0, c) < minVal[c]
  }

  ghost function RelaxedMin(cost: Matrix, n: nat, u: seq<real>, v: seq<real>, i0: nat,
                            minVal: seq<real>, used: seq<bool>): (m: seq<real>)
    requires Square(cost, n) && |u| == |v| == |minVal| == |used| == n + 1 && 1 <= i0 <= n
    ensures |m| == n + 1
  {
    seq(n + 1, c requires 0 <= c <= n =>
      if Improves(cost, n, u, v, i0, minVal, used, c) then Slack(cost, n, u, v, i0, c) else minVal[c])
  }

  ghost function RelaxedWay(cost: Matrix, n: nat, u: seq<real>, v: seq<real>, i0: nat,
                            minVal: seq<real>, used: seq<bool>, way: seq<nat>, j0: nat): (w: seq<nat>)
    requires Square(cost, n) && |u| == |v| == |minVal| == |used| == |way| == n + 1 && 1 <= i0 <= n
    ensures |w| == n + 1
  {
    seq(n + 1, c requires 0 <= c <= n => if Improves(cost, n, u, v, i0, minVal, used, c) then j0 else way[c])
  }

  ghost function Relaxed(cost: Matrix, n: nat, s: State): (t: State)
    requires Square(cost, n) && Shape(n, s) && !s.flipping
    ensures Shape(n, t)
  {
    var used := s.used[s.j0 := true];
    var i0 := s.p[s.j0];
    s.(used := used,
       minVal := RelaxedMin(cost, n, s.u, s.v, i0, s.minVal, used),
       way := RelaxedWay(cost, n, s.u, s.v, i0, s.minVal, used, s.way, s.j0))
  }

  /** The smallest live `minVal` among columns 1..k below `inf`, and its first column (0 if none). */
  function Least(minVal: seq<real>, used: seq<bool>, inf: real, k: nat): (r: (real, nat))
    requires |minVal| == |used| && k < |minVal|
    ensures r.1 <= k && r.0 <= inf
    ensures r.1 == 0 ==> r.0 == inf
    ensures r.1 != 0 ==> !used[r.1] && minVal[r.1] == r.0 < inf
    ensures forall c :: 1 <= c <= k && !used[c] ==> r.0 <= minVal[c]
  {
    if k == 0 then (inf, 0)
    else
      var (delta, j1) := Least(minVal, used, inf, k - 1);
      if !used[k] && minVal[k] < delta then (minVal[k], k) else (delta, j1)
  }

  /** u[p[j]] += delta for the used columns j < k. */
  function Raised(u: seq<real>, p: seq<nat>, used: seq<bool>, delta: real, k: nat): (w: seq<real>)
    requires |p| == |used| && k <= |p|
    requires forall j :: 0 <= j < |p| ==> p[j] < |u|
    ensures |w| == |u|
  {
    if k == 0 then u
    else
      var w := Raised(u, p, used, delta, k - 1);
      if used[k - 1] then w[p[k - 1] := w[p[k - 1]] + delta] else w
  }

  /** The dual update by `delta`, then a move to column j1. */
  ghost function Shifted(n: nat, s: State, delta: real, j1: nat): (t: State)
    requires Shape(n, s) && j1 <= n
    ensures Shape(n, t)
  {
    s.(u := Raised(s.u, s.p, s.used, delta, n + 1),
       v := seq(n + 1, c requires 0 <= c <= n => if s.used[c] then s.v[c] - delta else s.v[c]),
       minVal := seq(n + 1, c requires 0 <= c <= n => if s.used[c] then s.minVal[c] else s.minVal[c] - delta),
       j0 := j1,
       flipping := s.p[j1] == 0)
  }

  ghost function Scan(cost: Matrix, n: nat, inf: real, s: State): (t: State)
    requires Square(cost, n) && Shape(n, s) && !s.flipping
    ensures Shape(n, t)
  {
    var t := Relaxed(cost, n, s);
    var (delta, j1) := Least(t.minVal, t.used, inf, n);
    Shifted(n, t, delta, j1)
  }

  // ------------------------------------------------------------- augmentation and next row

  ghost function Flip(n: nat, s: State): (t: State)
    requires Shape(n, s) && s.flipping
    ensures Shape(n, t)
  {
    s.(p := s.p[s.j0 := s.p[s.way[s.j0]]], j0 := s.way[s.j0])
  }

  ghost function NextRow(n: nat, inf: real, s: State): (t: State)
    requires Shape(n, s) && s.row < n
    ensures Shape(n, t)
  {
    s.(row := s.row + 1, flipping := false, j0 := 0, p := s.p[0 := s.row + 1],
       minVal := seq(n + 1, c => inf), used := seq(n + 1, c => false))
  }

  ghost predicate Halted(n: nat, s: State) {
    s.flipping && s.j0 == 0 && s.row == n
  }

  ghost function Step(cost: Matrix, n: nat, inf: real, s: State): (t: State)
    requires Square(cost, n) && Shape(n, s)
    ensures Shape(n, t)
  {
    if !s.flipping then Scan(cost, n, inf, s)
    else if s.j0 != 0 then Flip(n, s)
    else if s.row < n then NextRow(n, inf, s)
    else s
  }

  ghost function Start(n: nat): (s: State)
    ensures Shape(n, s)
  {
    var zeros := seq(n + 1, c => 0.0);
    var none := seq(n + 1, c => 0);
    State(0, true, 0, zeros, zeros, none, none, zeros, seq(n + 1, c => false))
  }

  ghost function Run(cost: Matrix, n: nat, inf: real, k: nat): (s: State)
    requires Square(cost, n)
    ensures Shape(n, s)
  {
    if k == 0 then Start(n) else Step(cost, n, inf, Run(cost, n, inf, k - 1))
  }
}
