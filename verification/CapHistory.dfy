/** What the last ten cycles make of the next configuration: from thresholds on the history to the result. */
module CapHistory {
  import opened Numbers
  import opened Permutations
  import opened Config
  import opened Stec
  import opened CapSuggest

  /** One of the last ten cycles. */
  predicate Lately(history: seq<CycleHistory>, i: int) { 0 <= i < |history| && i >= |history| - 10 }

  /** The first cycle of the newer half of them. */
  function Midway(history: seq<CycleHistory>): int {
    var n := if |history| > 10 then 10 else |history|;
    |history| - n + n / 2
  }

  /** h is cycle i of the history, one of the last ten. */
  predicate IsLate(history: seq<CycleHistory>, i: int, h: CycleHistory) { Lately(history, i) && h == history[i] }

  lemma RecentIs(history: seq<CycleHistory>)
    requires history != []
    ensures var h, d := Recent(history), |history| - |Recent(history)|;
            && d >= 0 && d + |h| / 2 == Midway(history)
            && forall j :: 0 <= j < |h| ==> IsLate(history, d + j, h[j])
  {
  }

  // -------------------------------------------------------------------------------- utilization

  ghost predicate UtilizedBelow(history: seq<CycleHistory>, x: real) {
    forall i :: Lately(history, i) ==> history[i].utilization < x
  }

  ghost predicate UtilizedAbove(history: seq<CycleHistory>, x: real) {
    forall i :: Lately(history, i) ==> history[i].utilization > x
  }

  ghost predicate UtilizedFrom(history: seq<CycleHistory>, x: real) {
    forall i :: Lately(history, i) ==> history[i].utilization >= x
  }

  ghost predicate UtilizedAtMost(history: seq<CycleHistory>, x: real) {
    forall i :: Lately(history, i) ==> history[i].utilization <= x
  }

  lemma LowUtilization(history: seq<CycleHistory>)
    requires history != [] && UtilizedBelow(history, 0.60)
    ensures AnalyzeUtilization(history).direction == Decrease
  {
    hide Mean;
    RecentIs(history);
    MeanAtMost(Utilizations(Recent(history)), 0.60);
  }

  lemma HighUtilization(history: seq<CycleHistory>)
    requires history != [] && UtilizedAbove(history, 0.95)
    ensures AnalyzeUtilization(history).direction == Increase
  {
    hide Mean;
    RecentIs(history);
    MeanAtLeast(Utilizations(Recent(history)), 0.95);
  }

  /** Values whose newer half lies below, or not far below, the older half. */
  lemma Trend(vals: seq<real>, half: nat, x: real)
    requires 0 < half < |vals|
    ensures (forall i, j :: 0 <= i < half <= j < |vals| ==> vals[j] - vals[i] < x) ==>
              Mean(vals[half..]) - Mean(vals[..half]) < x
    ensures (forall i, j :: 0 <= i < half <= j < |vals| ==> vals[j] - vals[i] <= x) ==>
              Mean(vals[half..]) - Mean(vals[..half]) <= x
    ensures (forall i, j :: 0 <= i < half <= j < |vals| ==> vals[j] - vals[i] >= x) ==>
              Mean(vals[half..]) - Mean(vals[..half]) >= x
    ensures (forall i, j :: 0 <= i < half <= j < |vals| ==> vals[j] - vals[i] > x) ==>
              Mean(vals[half..]) - Mean(vals[..half]) > x
  {
    hide Mean;
    var early, late := vals[..half], vals[half..];
    TrendAtMost(early, late, x);
    TrendAtLeast(early, late, x);
    assert forall i :: 0 <= i < |early| ==> early[i] == vals[i];
    assert forall j :: 0 <= j < |late| ==> late[j] == vals[half + j];
  }

  lemma TrendAtMost(early: seq<real>, late: seq<real>, x: real)
    requires early != [] && late != []
    ensures (forall i, j :: 0 <= i < |early| && 0 <= j < |late| ==> late[j] - early[i] <= x) ==>
              Mean(late) - Mean(early) <= x
    ensures (forall i, j :: 0 <= i < |early| && 0 <= j < |late| ==> late[j] - early[i] < x) ==>
              Mean(late) - Mean(early) < x
  {
    hide Mean;
    if forall i, j :: 0 <= i < |early| && 0 <= j < |late| ==> late[j] - early[i] <= x {
      forall i | 0 <= i < |early| ensures Mean(late) <= x + early[i] {
        MeanAtMost(late, x + early[i]);
      }
      MeanAtLeast(early, Mean(late) - x);
    }
    if forall i, j :: 0 <= i < |early| && 0 <= j < |late| ==> late[j] - early[i] < x {
      forall i | 0 <= i < |early| ensures Mean(late) < x + early[i] {
        MeanAtMost(late, x + early[i]);
      }
      MeanAtLeast(early, Mean(late) - x);
    }
  }

  lemma TrendAtLeast(early: seq<real>, late: seq<real>, x: real)
    requires early != [] && late != []
    ensures (forall i, j :: 0 <= i < |early| && 0 <= j < |late| ==> late[j] - early[i] >= x) ==>
              Mean(late) - Mean(early) >= x
    ensures (forall i, j :: 0 <= i < |early| && 0 <= j < |late| ==> late[j] - early[i] > x) ==>
              Mean(late) - Mean(early) > x
  {
    hide Mean;
    if forall i, j :: 0 <= i < |early| && 0 <= j < |late| ==> late[j] - early[i] >= x {
      forall i | 0 <= i < |early| ensures Mean(late) >= x + early[i] {
        MeanAtLeast(late, x + early[i]);
      }
      MeanAtMost(early, Mean(late) - x);
    }
    if forall i, j :: 0 <= i < |early| && 0 <= j < |late| ==> late[j] - early[i] > x {
      forall i | 0 <= i < |early| ensures Mean(late) > x + early[i] {
        MeanAtLeast(late, x + early[i]);
      }
      MeanAtMost(early, Mean(late) - x);
    }
  }

  /** From the older half of the ten cycles to the newer, utilization falls by more than 10 percent, or nowhere by
      that much. */
  ghost predicate UtilizationFalls(history: seq<CycleHistory>) {
    forall i, j :: Lately(history, i) && Lately(history, j) && i < Midway(history) <= j ==>
      history[j].utilization < history[i].utilization - 0.10
  }

  ghost predicate UtilizationHolds(history: seq<CycleHistory>) {
    forall i, j :: Lately(history, i) && Lately(history, j) && i < Midway(history) <= j ==>
      history[j].utilization >= history[i].utilization - 0.10
  }

  lemma UtilizationsInOrder(history: seq<CycleHistory>) returns (d: nat)
    requires |history| >= 2
    ensures var vals := Utilizations(Recent(history));
            && |vals| >= 2 && d + |vals| == |history| && d + |vals| / 2 == Midway(history)
            && forall x :: 0 <= x < |vals| ==> UtilizedAt(history, d + x, vals[x])
  {
    RecentIs(history);
    hide Recent;
    var h := Recent(history);
    d := |history| - |h|;
    forall x | 0 <= x < |h| ensures UtilizedAt(history, d + x, Utilizations(h)[x]) {
      assert IsLate(history, d + x, h[x]);
    }
    RecentSize(history);
  }

  lemma RecentSize(history: seq<CycleHistory>)
    ensures |Recent(history)| == if |history| > 10 then 10 else |history|
  {
  }

  predicate UtilizedAt(history: seq<CycleHistory>, i: int, v: real) {
    Lately(history, i) && v == history[i].utilization
  }

  lemma FallingUtilization(history: seq<CycleHistory>)
    requires |history| >= 2 && UtilizedAtMost(history, 0.95) && UtilizationFalls(history)
    ensures AnalyzeUtilization(history).direction == Decrease
  {
    hide Mean, Utilizations, Recent, Midway;
    var d := UtilizationsInOrder(history);
    var vals := Utilizations(Recent(history));
    MeanAtMost(vals, 0.95);
    Trend(vals, |vals| / 2, -0.10);
  }

  lemma SteadyUtilization(history: seq<CycleHistory>)
    requires |history| >= 2 && UtilizedFrom(history, 0.60) && UtilizedAtMost(history, 0.95) && UtilizationHolds(history)
    ensures AnalyzeUtilization(history).direction == Maintain
  {
    hide Mean, Utilizations, Recent, Midway;
    var d := UtilizationsInOrder(history);
    var vals := Utilizations(Recent(history));
    MeanAtMost(vals, 0.95);
    MeanAtLeast(vals, 0.60);
    Trend(vals, |vals| / 2, -0.10);
  }

  // -------------------------------------------------------------------------------------- waste

  lemma {:induction false} WasteOf(h: seq<CycleHistory>, k: nat, x: nat) returns (i: nat)
    requires k <= |h| && x < |WasteRatios(h, k)|
    ensures i < k && h[i].cycleBudget > 0.0 && WasteRatios(h, k)[x] == h[i].remainder / h[i].cycleBudget
  {
    if h[k - 1].cycleBudget > 0.0 && x == |WasteRatios(h, k)| - 1 {
      i := k - 1;
    } else {
      i := WasteOf(h, k - 1, x);
    }
  }

  lemma {:induction false} SomeWaste(h: seq<CycleHistory>, k: nat, i: nat)
    requires i < k <= |h| && h[i].cycleBudget > 0.0
    ensures WasteRatios(h, k) != []
  {
    if i < k - 1 {
      SomeWaste(h, k - 1, i);
    }
  }

  /** Every ratio belongs to a recent cycle. */
  lemma RecentWaste(history: seq<CycleHistory>, x: nat) returns (i: nat)
    requires history != [] && x < |WasteRatios(Recent(history), |Recent(history)|)|
    ensures Lately(history, i) && history[i].cycleBudget > 0.0
    ensures var r := WasteRatios(Recent(history), |Recent(history)|)[x];
            forall y :: (Times(y, history[i].cycleBudget) < history[i].remainder <==> y < r) &&
                        (history[i].remainder < Times(y, history[i].cycleBudget) <==> r < y)
  {
    hide WasteRatios, Recent;
    RecentIs(history);
    var h := Recent(history);
    var j := WasteOf(h, |h|, x);
    i := |history| - |h| + j;
    var left, budget := history[i].remainder, history[i].cycleBudget;
    forall y
      ensures (Times(y, budget) < left <==> y < left / budget) && (left < Times(y, budget) <==> left / budget < y)
    {
      DivBounds(left, budget, y);
      DivBoundsBelow(left, budget, y);
    }
  }

  /** Some recent cycle had a budget. */
  ghost predicate Budgeted(history: seq<CycleHistory>) {
    exists i :: Lately(history, i) && history[i].cycleBudget > 0.0
  }

  lemma BudgetedHasRatios(history: seq<CycleHistory>)
    requires history != []
    ensures Budgeted(history) ==> WasteRatios(Recent(history), |Recent(history)|) != []
  {
    RecentIs(history);
    var h := Recent(history);
    if i :| Lately(history, i) && history[i].cycleBudget > 0.0 {
      SomeWaste(h, |h|, i - (|history| - |h|));
    }
  }

  /** Every recent cycle with a budget left more, or less, than this part of it. */
  ghost predicate WastesMore(history: seq<CycleHistory>, x: real) {
    forall i :: Lately(history, i) && history[i].cycleBudget > 0.0 ==>
      Times(x, history[i].cycleBudget) < history[i].remainder
  }

  ghost predicate WastesLess(history: seq<CycleHistory>, x: real) {
    forall i :: Lately(history, i) && history[i].cycleBudget > 0.0 ==>
      history[i].remainder < Times(x, history[i].cycleBudget)
  }

  ghost predicate WastesWithin(history: seq<CycleHistory>, low: real, high: real) {
    forall i :: Lately(history, i) && history[i].cycleBudget > 0.0 ==>
      Times(low, history[i].cycleBudget) <= history[i].remainder <= Times(high, history[i].cycleBudget)
  }

  lemma WasteDirection(history: seq<CycleHistory>)
    requires history != []
    ensures Budgeted(history) && WastesMore(history, 0.30) ==> AnalyzeWaste(history).direction == Decrease
    ensures Budgeted(history) && WastesLess(history, 0.05) ==> AnalyzeWaste(history).direction == Increase
    ensures WastesWithin(history, 0.05, 0.30) ==> AnalyzeWaste(history).direction == Maintain
  {
    hide Mean, WasteRatios, Times, Budgeted, Recent;
    BudgetedHasRatios(history);
    var ratios := WasteRatios(Recent(history), |Recent(history)|);
    forall x | 0 <= x < |ratios|
      ensures WastesMore(history, 0.30) ==> 0.30 < ratios[x]
      ensures WastesLess(history, 0.05) ==> ratios[x] < 0.05
      ensures WastesWithin(history, 0.05, 0.30) ==> 0.05 <= ratios[x] <= 0.30
    {
      var i := RecentWaste(history, x);
    }
    if ratios != [] {
      if WastesMore(history, 0.30) { MeanAtLeast(ratios, 0.30); }
      if WastesLess(history, 0.05) { MeanAtMost(ratios, 0.05); }
      if WastesWithin(history, 0.05, 0.30) { MeanAtLeast(ratios, 0.05); MeanAtMost(ratios, 0.30); }
    }
  }

  // ------------------------------------------------------------------------------- unassignment

  lemma {:induction false} RateOf(h: seq<CycleHistory>, k: nat, x: nat) returns (i: nat)
    requires k <= |h| && x < |UnassignedRates(h, k)|
    ensures i < k && h[i].talentCount > 0
    ensures UnassignedRates(h, k)[x] == h[i].unassignedCount as real / h[i].talentCount as real
  {
    if h[k - 1].talentCount > 0 && x == |UnassignedRates(h, k)| - 1 {
      i := k - 1;
    } else {
      i := RateOf(h, k - 1, x);
    }
  }

  /** When every cycle had talents, the rates are in the order of the cycles. */
  lemma {:induction false} AllRates(h: seq<CycleHistory>, k: nat)
    requires k <= |h| && forall i :: 0 <= i < k ==> h[i].talentCount > 0
    ensures |UnassignedRates(h, k)| == k
    ensures forall i :: 0 <= i < k ==>
              UnassignedRates(h, k)[i] == h[i].unassignedCount as real / h[i].talentCount as real
  {
    if k > 0 {
      AllRates(h, k - 1);
    }
  }

  lemma {:induction false} SomeRate(h: seq<CycleHistory>, k: nat, i: nat)
    requires i < k <= |h| && h[i].talentCount > 0
    ensures UnassignedRates(h, k) != []
  {
    if i < k - 1 {
      SomeRate(h, k - 1, i);
    }
  }

  /** The share of a cycle's talents that got no slot. */
  function Idle(h: CycleHistory): real
    requires h.talentCount > 0
  {
    h.unassignedCount as real / h.talentCount as real
  }

  ghost predicate Staffed(history: seq<CycleHistory>) { exists i :: Lately(history, i) && history[i].talentCount > 0 }

  ghost predicate IdleMore(history: seq<CycleHistory>, x: real) {
    forall i :: Lately(history, i) && history[i].talentCount > 0 ==> x < Idle(history[i])
  }

  ghost predicate IdleAtMost(history: seq<CycleHistory>, x: real) {
    forall i :: Lately(history, i) && history[i].talentCount > 0 ==> Idle(history[i]) <= x
  }

  ghost predicate AllStaffed(history: seq<CycleHistory>) {
    forall i :: Lately(history, i) ==> history[i].talentCount > 0
  }

  /** From the older half of the ten cycles to the newer, every rate is higher by more than 5 percent, or none is. */
  ghost predicate IdleRises(history: seq<CycleHistory>)
    requires AllStaffed(history)
  {
    forall i, j :: Lately(history, i) && Lately(history, j) && i < Midway(history) <= j ==>
      Idle(history[j]) > Idle(history[i]) + 0.05
  }

  ghost predicate IdleHolds(history: seq<CycleHistory>)
    requires AllStaffed(history)
  {
    forall i, j :: Lately(history, i) && Lately(history, j) && i < Midway(history) <= j ==>
      Idle(history[j]) <= Idle(history[i]) + 0.05
  }

  lemma RecentRate(history: seq<CycleHistory>, x: nat) returns (i: nat)
    requires history != [] && x < |UnassignedRates(Recent(history), |Recent(history)|)|
    ensures Lately(history, i) && history[i].talentCount > 0
    ensures UnassignedRates(Recent(history), |Recent(history)|)[x] == Idle(history[i])
  {
    hide UnassignedRates, Recent;
    RecentIs(history);
    var h := Recent(history);
    var j := RateOf(h, |h|, x);
    i := |history| - |h| + j;
  }

  lemma StaffedHasRates(history: seq<CycleHistory>)
    requires history != []
    ensures Staffed(history) ==> UnassignedRates(Recent(history), |Recent(history)|) != []
  {
    RecentIs(history);
    var h := Recent(history);
    if i :| Lately(history, i) && history[i].talentCount > 0 {
      SomeRate(h, |h|, i - (|history| - |h|));
    }
  }

  lemma UnassignmentDirection(history: seq<CycleHistory>)
    requires history != []
    ensures Staffed(history) && IdleMore(history, 0.25) ==> AnalyzeUnassignment(history).direction == Decrease
    ensures IdleAtMost(history, 0.10) ==> AnalyzeUnassignment(history).direction == Maintain
  {
    hide Mean, UnassignedRates, Idle, Staffed, Recent;
    StaffedHasRates(history);
    var rates := UnassignedRates(Recent(history), |Recent(history)|);
    forall x | 0 <= x < |rates|
      ensures IdleMore(history, 0.25) ==> 0.25 < rates[x]
      ensures IdleAtMost(history, 0.10) ==> rates[x] <= 0.10
    {
      var i := RecentRate(history, x);
    }
    if rates != [] {
      if IdleMore(history, 0.25) { MeanAtLeast(rates, 0.25); }
      if IdleAtMost(history, 0.10) { MeanAtMost(rates, 0.10); }
    }
  }

  /** When every recent cycle had talents, the rates are those of the cycles, in order. */
  lemma RatesInOrder(history: seq<CycleHistory>) returns (d: nat)
    requires |history| >= 2 && AllStaffed(history)
    ensures var rates := UnassignedRates(Recent(history), |Recent(history)|);
            && |rates| >= 2 && d + |rates| == |history| && d + |rates| / 2 == Midway(history)
            && forall x :: 0 <= x < |rates| ==> IdleAt(history, d + x, rates[x])
  {
    RecentIs(history);
    RecentSize(history);
    hide UnassignedRates, Recent;
    var h := Recent(history);
    d := |history| - |h|;
    assert forall x :: 0 <= x < |h| ==> IsLate(history, d + x, h[x]);
    AllRates(h, |h|);
    var rates := UnassignedRates(h, |h|);
    forall x | 0 <= x < |rates| ensures IdleAt(history, d + x, rates[x]) {
      assert IsLate(history, d + x, h[x]);
    }
  }

  predicate IdleAt(history: seq<CycleHistory>, i: int, v: real) {
    Lately(history, i) && history[i].talentCount > 0 && v == Idle(history[i])
  }

  /** Between 10 and 25 percent the trend decides. */
  lemma UnassignmentTrend(history: seq<CycleHistory>)
    requires |history| >= 2 && AllStaffed(history) && IdleMore(history, 0.10) && IdleAtMost(history, 0.25)
    ensures IdleRises(history) ==> AnalyzeUnassignment(history).direction == Decrease
    ensures IdleHolds(history) ==> AnalyzeUnassignment(history).direction == Maintain
  {
    hide Mean, UnassignedRates, Recent, Lately, Midway, Idle;
    var d := RatesInOrder(history);
    var rates := UnassignedRates(Recent(history), |Recent(history)|);
    MeanAtMost(rates, 0.25);
    MeanAtLeast(rates, 0.10);
    Trend(rates, |rates| / 2, 0.05);
  }

  // -------------------------------------------------------------------------------- performance

  lemma {:induction false} PerformanceOf(h: seq<CycleHistory>, k: nat, x: nat) returns (i: nat)
    requires k <= |h| && x < |Performances(h, k)|
    ensures i < k && h[i].avgPerformance > 0.0 && Performances(h, k)[x] == h[i].avgPerformance
  {
    if h[k - 1].avgPerformance > 0.0 && x == |Performances(h, k)| - 1 {
      i := k - 1;
    } else {
      i := PerformanceOf(h, k - 1, x);
    }
  }

  lemma {:induction false} SomePerformance(h: seq<CycleHistory>, k: nat, i: nat)
    requires i < k <= |h| && h[i].avgPerformance > 0.0
    ensures Performances(h, k) != []
  {
    if i < k - 1 {
      SomePerformance(h, k - 1, i);
    }
  }

  ghost predicate Performed(history: seq<CycleHistory>) {
    exists i :: Lately(history, i) && history[i].avgPerformance > 0.0
  }

  lemma PerformedHasValues(history: seq<CycleHistory>)
    requires history != []
    ensures Performed(history) ==> Performances(Recent(history), |Recent(history)|) != []
  {
    RecentIs(history);
    var h := Recent(history);
    if i :| Lately(history, i) && history[i].avgPerformance > 0.0 {
      SomePerformance(h, |h|, i - (|history| - |h|));
    }
  }

  lemma PerformanceAtLeast(history: seq<CycleHistory>, low: real)
    requires history != []
    requires forall i :: Lately(history, i) && history[i].avgPerformance > 0.0 ==> low <= history[i].avgPerformance
    ensures var perfs := Performances(Recent(history), |Recent(history)|); perfs != [] ==> low <= Mean(perfs)
  {
    hide Mean, Performances;
    RecentIs(history);
    var h := Recent(history);
    var perfs := Performances(h, |h|);
    forall x | 0 <= x < |perfs| ensures low <= perfs[x] {
      var j := PerformanceOf(h, |h|, x);
    }
    if perfs != [] {
      MeanAtLeast(perfs, low);
    }
  }

  lemma PerformanceBelow(history: seq<CycleHistory>, high: real)
    requires history != []
    requires forall i :: Lately(history, i) && history[i].avgPerformance > 0.0 ==> history[i].avgPerformance < high
    ensures var perfs := Performances(Recent(history), |Recent(history)|); perfs != [] ==> Mean(perfs) < high
  {
    hide Mean, Performances;
    RecentIs(history);
    var h := Recent(history);
    var perfs := Performances(h, |h|);
    forall x | 0 <= x < |perfs| ensures perfs[x] < high {
      var j := PerformanceOf(h, |h|, x);
    }
    if perfs != [] {
      MeanAtMost(perfs, high);
    }
  }

  /** Every recent performance that was recorded lies in the given range. */
  ghost predicate PerformsFrom(history: seq<CycleHistory>, low: real) {
    forall i :: Lately(history, i) && history[i].avgPerformance > 0.0 ==> low <= history[i].avgPerformance
  }

  ghost predicate PerformsBelow(history: seq<CycleHistory>, high: real) {
    forall i :: Lately(history, i) && history[i].avgPerformance > 0.0 ==> history[i].avgPerformance < high
  }

  lemma PerformanceDirection(history: seq<CycleHistory>)
    requires history != []
    ensures var d, near := AnalyzePerformance(history).direction, history[|history| - 1].config.scoreCapPct * 0.90;
            && (Performed(history) && PerformsFrom(history, near) ==> d == Increase)
            && (Performed(history) && PerformsBelow(history, near) && PerformsBelow(history, 0.50) ==> d == Decrease)
            && (PerformsFrom(history, 0.50) ==> d != Decrease)
            && (PerformsBelow(history, near) ==> d != Increase)
  {
    hide Mean, Performances, Performed;
    var near := history[|history| - 1].config.scoreCapPct * 0.90;
    PerformedHasValues(history);
    if PerformsFrom(history, near) { PerformanceAtLeast(history, near); }
    if PerformsFrom(history, 0.50) { PerformanceAtLeast(history, 0.50); }
    if PerformsBelow(history, near) { PerformanceBelow(history, near); }
    if PerformsBelow(history, 0.50) { PerformanceBelow(history, 0.50); }
  }

  // ----------------------------------------------------------------------- the next configuration

  /** The result, from the four directions: the clamp only lifts the two percentages to their floors. */
  lemma NextConfig(history: seq<CycleHistory>, nextBudget: real)
    requires Suggested(history, nextBudget).Ok?
    ensures history != [] && Valid(history[|history| - 1].config)
    ensures history[|history| - 1].config.tierIncrement > 0
    ensures var base := history[|history| - 1].config;
            Suggested(history, nextBudget).value.config == Floored(Adjusted(base, Factors(history), nextBudget))
  {
    hide ClampConfig, Confidence, Adjusted, Factors, Valid;
    var base, fs := history[|history| - 1].config, Factors(history);
    AdjustedStaysValid(base, fs, nextBudget);
    ClampFloors(Adjusted(base, fs, nextBudget));
  }

  /** y is the greatest multiple of the increment that 85 percent of the last budget share would fund. */
  ghost predicate Funded(base: CycleConfig, nextBudget: real, y: int) {
    base.tierIncrement > 0 && y % base.tierIncrement == 0 &&
    y as real <= nextBudget * base.budgetSharePct * 0.85 < (y + base.tierIncrement) as real
  }

  lemma FlooredMultiple(limit: real, inc: int, y: int)
    requires inc > 0 && y % inc == 0 && y as real <= limit < (y + inc) as real
    ensures Floor(limit / inc as real) * inc == y
  {
    hide Floor;
    var k := y / inc;
    MultipleOf(y, inc, k);
    RealProduct(k, inc);
    RealProduct(k + 1, inc);
    DivBoundsBelow(limit, inc as real, k as real);
    DivBoundsBelow(limit, inc as real, (k + 1) as real);
    WithinFloor(k, limit / inc as real);
    WithinFloor(k + 1, limit / inc as real);
  }

  lemma FundedCap(base: CycleConfig, nextBudget: real, y: int)
    requires Funded(base, nextBudget, y)
    ensures UtilizationCap(base, nextBudget) == y
  {
    var spend := UsualSpend(base, nextBudget);
    assert y as real <= spend < (y + base.tierIncrement) as real;
    hide Floor, UsualSpend;
    FlooredMultiple(spend, base.tierIncrement, y);
  }

  /** Low or falling utilization over the last ten cycles never raises the tier cap, and lowers it to what 85
      percent of the budget share funds when that lies between the minimum and the cap, or one increment below
      if performance is weak as well. */
  lemma LowUtilizationLowersTheCap(history: seq<CycleHistory>, nextBudget: real, y: int)
    requires Suggested(history, nextBudget).Ok? && Funded(history[|history| - 1].config, nextBudget, y)
    requires UtilizedBelow(history, 0.60) || (UtilizedAtMost(history, 0.95) && UtilizationFalls(history))
    ensures var base, next := history[|history| - 1].config, Suggested(history, nextBudget).value.config;
            && next.maxTierCap <= base.maxTierCap
            && (base.minTier <= y < base.maxTierCap ==> next.maxTierCap <= y < base.maxTierCap)
            && (PerformsFrom(history, 0.50) ==>
                 next.maxTierCap == if base.minTier <= y < base.maxTierCap then y else base.maxTierCap)
  {
    hide AnalyzeUtilization, AnalyzeWaste, AnalyzeUnassignment, AnalyzePerformance, UtilizationCap, Confidence,
      ClampConfig, PerformsFrom, Suggested, Valid, Funded, UtilizedBelow, UtilizedAtMost, UtilizationFalls;
    NextConfig(history, nextBudget);
    FundedCap(history[|history| - 1].config, nextBudget, y);
    PerformanceDirection(history);
    if UtilizedBelow(history, 0.60) {
      LowUtilization(history);
    } else {
      LongEnough(history, nextBudget);
      FallingUtilization(history);
    }
  }

  lemma LongEnough(history: seq<CycleHistory>, nextBudget: real)
    requires Suggested(history, nextBudget).Ok?
    ensures |history| >= 7 && nextBudget > 0.0
  {
  }

  /** High utilization raises it by one increment, unless performance is weak. */
  lemma HighUtilizationRaisesTheCap(history: seq<CycleHistory>, nextBudget: real)
    requires Suggested(history, nextBudget).Ok? && PerformsFrom(history, 0.50)
    requires UtilizedAbove(history, 0.95)
    ensures var base, next := history[|history| - 1].config, Suggested(history, nextBudget).value.config;
            next.maxTierCap == base.maxTierCap + base.tierIncrement
  {
    hide AnalyzeUtilization, AnalyzeWaste, AnalyzeUnassignment, AnalyzePerformance, UtilizationCap, Confidence,
      ClampConfig, PerformsFrom, Suggested, Valid, UtilizedAbove;
    NextConfig(history, nextBudget);
    PerformanceDirection(history);
    HighUtilization(history);
  }

  /** In between, as long as it does not fall by more than 10 percent from the older half of the ten cycles to the
      newer, utilization leaves the cap alone; weak performance then takes one increment off it, if the minimum
      allows. */
  lemma SteadyUtilizationKeepsTheCap(history: seq<CycleHistory>, nextBudget: real)
    requires Suggested(history, nextBudget).Ok?
    requires UtilizedFrom(history, 0.60) && UtilizedAtMost(history, 0.95) && UtilizationHolds(history)
    ensures var base, next := history[|history| - 1].config, Suggested(history, nextBudget).value.config;
            && (PerformsFrom(history, 0.50) ==> next.maxTierCap == base.maxTierCap)
            && (Performed(history) && PerformsBelow(history, 0.50) &&
                PerformsBelow(history, base.scoreCapPct * 0.90) ==>
                 next.maxTierCap == if base.maxTierCap - base.tierIncrement >= next.minTier
                                    then base.maxTierCap - base.tierIncrement else base.maxTierCap)
  {
    hide AnalyzeUtilization, AnalyzeWaste, AnalyzeUnassignment, AnalyzePerformance, UtilizationCap, Confidence,
      ClampConfig, PerformsFrom, PerformsBelow, Performed, Suggested, Valid, UtilizedFrom, UtilizedAtMost,
      UtilizationHolds;
    NextConfig(history, nextBudget);
    PerformanceDirection(history);
    LongEnough(history, nextBudget);
    SteadyUtilization(history);
  }

  /** Every recent cycle with a budget left more than 30 percent of it: the share falls by a tenth, to 5 percent
      at the lowest.  Less than 5 percent: it rises by a twentieth, to 100 at the highest.  In between it stays. */
  lemma WasteMovesTheShare(history: seq<CycleHistory>, nextBudget: real)
    requires Suggested(history, nextBudget).Ok?
    ensures var share := history[|history| - 1].config.budgetSharePct;
            var next := Suggested(history, nextBudget).value.config.budgetSharePct;
            && (Budgeted(history) && WastesMore(history, 0.30) ==> next == Max(0.05, share * 0.90))
            && (Budgeted(history) && WastesLess(history, 0.05) ==> next == Max(0.05, Min(1.0, share * 1.05)))
            && (WastesWithin(history, 0.05, 0.30) ==> next == Max(0.05, share))
  {
    hide AnalyzeUtilization, AnalyzeWaste, AnalyzeUnassignment, AnalyzePerformance, UtilizationCap, Confidence,
      ClampConfig, Budgeted, Suggested, Valid, WastesMore, WastesLess, WastesWithin;
    NextConfig(history, nextBudget);
    WasteDirection(history);
  }

  /** More than a quarter of the talents idle in every recent cycle with talents, or more than a tenth and rising
      by more than 5 percent from the older half to the newer: the minimum tier falls by one increment, if one is
      left.  No more than a tenth, or no such rise: it stays. */
  lemma UnassignmentMovesTheFloor(history: seq<CycleHistory>, nextBudget: real)
    requires Suggested(history, nextBudget).Ok?
    ensures var base, next := history[|history| - 1].config, Suggested(history, nextBudget).value.config.minTier;
            var lowered := if base.minTier > base.tierIncrement then base.minTier - base.tierIncrement
                           else base.minTier;
            && (Staffed(history) && IdleMore(history, 0.25) ==> next == lowered)
            && (IdleAtMost(history, 0.10) ==> next == base.minTier)
            && (AllStaffed(history) && IdleMore(history, 0.10) && IdleAtMost(history, 0.25) ==>
                 (IdleRises(history) ==> next == lowered) && (IdleHolds(history) ==> next == base.minTier))
  {
    hide AnalyzeUtilization, AnalyzeWaste, AnalyzeUnassignment, AnalyzePerformance, UtilizationCap, Confidence,
      ClampConfig, Staffed, Suggested, Valid, IdleMore, IdleAtMost, AllStaffed, IdleRises, IdleHolds;
    NextConfig(history, nextBudget);
    LongEnough(history, nextBudget);
    UnassignmentDirection(history);
    if AllStaffed(history) && IdleMore(history, 0.10) && IdleAtMost(history, 0.25) {
      UnassignmentTrend(history);
    }
  }

  /** Performance from 90 percent of the score cap upward in every recent cycle widens that cap by a quarter, to 10
      at the most; below that it stays. */
  lemma PerformanceWidensTheScoreCap(history: seq<CycleHistory>, nextBudget: real)
    requires Suggested(history, nextBudget).Ok?
    ensures var cap := history[|history| - 1].config.scoreCapPct;
            var next := Suggested(history, nextBudget).value.config.scoreCapPct;
            && (Performed(history) && PerformsFrom(history, cap * 0.90) ==> next == Max(0.5, Min(10.0, cap + 0.25)))
            && (PerformsBelow(history, cap * 0.90) ==> next == Max(0.5, cap))
  {
    hide AnalyzeUtilization, AnalyzeWaste, AnalyzeUnassignment, AnalyzePerformance, UtilizationCap, Confidence,
      ClampConfig, PerformsFrom, PerformsBelow, Performed, Suggested, Valid;
    NextConfig(history, nextBudget);
    PerformanceDirection(history);
  }

  /** The average of the values, or 0 if there are none. */
  ghost predicate Reports(f: Factor, metric: string, vals: seq<real>) {
    f.metric == metric && Times(f.value, |vals| as real) == Sum(vals) && (vals == [] ==> f.value == 0.0)
  }

  lemma ReportsMean(f: Factor, vals: seq<real>)
    requires f.value == Mean(vals)
    ensures Reports(f, f.metric, vals)
  {
    hide Sum, SumTo;
    if vals == [] {
      SumOfEmpty(vals);
    } else {
      MeanIsAverage(vals);
      DivBounds(Sum(vals), |vals| as real, 0.0);
    }
  }

  /** What a suggestion is given, and what it reports: at least seven cycles, a positive budget and a valid last
      configuration; the four averages over the last ten cycles, and a confidence that grows with the number of
      cycles and of factors at rest. */
  lemma SuggestionReports(history: seq<CycleHistory>, nextBudget: real)
    ensures Suggested(history, nextBudget).Ok? <==>
      |history| >= 7 && nextBudget > 0.0 && Valid(history[|history| - 1].config)
    ensures Suggested(history, nextBudget).Ok? ==>
      var s, h := Suggested(history, nextBudget).value, Recent(history);
      var fs := s.factors;
      && s.cyclesUsed == |history| && |fs| == 4
      && Reports(fs[0], "utilization_trend", Utilizations(h)) && Reports(fs[1], "waste_ratio", WasteRatios(h, |h|))
      && Reports(fs[2], "unassignment_rate", UnassignedRates(h, |h|))
      && Reports(fs[3], "performance_distribution", Performances(h, |h|))
      && var more := if |history| > 17 then 10 else |history| - 7;
         var resting := Resting(fs[0]) + Resting(fs[1]) + Resting(fs[2]) + Resting(fs[3]);
         s.confidence == (50 + 3 * more + 5 * resting) as real / 100.0
  {
    hide Confidence, ClampConfig, Adjusted, Mean, Reports, WasteRatios, UnassignedRates, Performances, Recent,
      Utilizations, Valid;
    if Suggested(history, nextBudget).Ok? {
      var fs, h := Factors(history), Recent(history);
      ConfidenceIs(|history|, fs);
      MeanOfNothing();
      ReportsMean(fs[0], Utilizations(h));
      ReportsMean(fs[1], WasteRatios(h, |h|));
      ReportsMean(fs[2], UnassignedRates(h, |h|));
      ReportsMean(fs[3], Performances(h, |h|));
    }
  }

  /** By how much the average of the newer half exceeds that of the older. */
  function Rise(vals: seq<real>, half: nat): real
    requires half <= |vals|
  {
    Mean(vals[half..]) - Mean(vals[..half])
  }

  /** For any history the reported averages decide, together with the trend where one is asked for. */
  lemma AveragesDecide(history: seq<CycleHistory>, nextBudget: real)
    requires Suggested(history, nextBudget).Ok?
    ensures history != [] && |Suggested(history, nextBudget).value.factors| == 4
    ensures var fs, h := Suggested(history, nextBudget).value.factors, Recent(history);
            var usage, rates := Utilizations(h), UnassignedRates(h, |h|);
            var near := history[|history| - 1].config.scoreCapPct * 0.90;
            && (fs[0].direction == Decrease <==>
                 fs[0].value < 0.60 || (fs[0].value <= 0.95 && Rise(usage, |usage| / 2) < -0.10))
            && (fs[0].direction == Increase <==> fs[0].value > 0.95)
            && (fs[1].direction == Decrease <==> fs[1].value > 0.30)
            && (fs[1].direction == Increase <==> WasteRatios(h, |h|) != [] && fs[1].value < 0.05)
            && (fs[2].direction == Decrease <==>
                 fs[2].value > 0.25 ||
                 (|rates| >= 2 && fs[2].value > 0.10 && Rise(rates, |rates| / 2) > 0.05))
            && fs[2].direction != Increase
            && (fs[3].direction == Increase <==> Performances(h, |h|) != [] && fs[3].value >= near)
            && (fs[3].direction == Decrease <==> Performances(h, |h|) != [] && fs[3].value < 0.50 && fs[3].value < near)
  {
    hide Confidence, ClampConfig, Adjusted, Mean, WasteRatios, UnassignedRates, Performances, Recent, Utilizations;
    var h := Recent(history);
    var rates := UnassignedRates(h, |h|);
    if |rates| == 1 {
      SingleRate(rates);
    }
  }

  /** One rate alone never counts as rising beyond 25 percent. */
  lemma SingleRate(rates: seq<real>)
    requires |rates| == 1
    ensures Mean(rates[1..]) - Mean(rates[..1]) == -Mean(rates)
  {
    hide Mean;
    assert rates[..1] == rates && rates[1..] == [];
    MeanOfNothing();
  }

  lemma MeanOfNothing()
    ensures Mean([]) == 0.0
  {
  }

  /** Cycles before the last ten change nothing in the configuration. */
  lemma OlderCyclesDoNotMatter(a: seq<CycleHistory>, b: seq<CycleHistory>, nextBudget: real)
    requires |a| >= 10 && |b| >= 10 && a[|a| - 10..] == b[|b| - 10..]
    ensures Suggested(a, nextBudget).Ok? <==> Suggested(b, nextBudget).Ok?
    ensures Suggested(a, nextBudget).Ok? ==>
              && Suggested(a, nextBudget).value.config == Suggested(b, nextBudget).value.config
              && Suggested(a, nextBudget).value.factors == Suggested(b, nextBudget).value.factors
  {
    hide Confidence, ClampConfig, Adjusted, Mean;
    assert Recent(a) == a[|a| - 10..] && Recent(b) == b[|b| - 10..];
    assert a[|a| - 1] == a[|a| - 10..][9] && b[|b| - 1] == b[|b| - 10..][9];
  }
}
