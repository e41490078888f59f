/** internal/algo/waterfall.go: sharing a cycle budget among tiers in proportion to demand. */
module Waterfall {
  import opened Numbers
  import opened Permutations
  import opened Results
  import opened Config
  import opened Qualifier

  datatype WaterfallInput = WaterfallInput(
    cycleBudget: real, tiers: seq<int>, talentsByTier: map<int, int>, config: CycleConfig)

  datatype TierSlot = TierSlot(tier: int, slotCount: int, budgetShare: real, remainder: real)

  datatype WaterfallOutput = WaterfallOutput(slots: seq<TierSlot>, totalAllocated: real, remainder: real)

  const NOTHING := WaterfallOutput([], 0.0, 0.0)

  // ---------------------------------------------------------------------------- the quantities

  /** The largest part of the budget that one tier may take. */
  function BudgetLimit(budget: real, pct: real): (x: real)
    ensures budget >= 0.0 && pct >= 0.0 ==> x >= 0.0
  {
    if budget >= 0.0 && pct >= 0.0 then MulNonNegative(budget, pct); budget * pct else budget * pct
  }

  function MaxTierValue(w: WaterfallInput): real {
    var byBudget := BudgetLimit(w.cycleBudget, w.config.budgetSharePct);
    if w.config.maxTierCap as real < byBudget then w.config.maxTierCap as real else byBudget
  }

  function TalentCount(w: WaterfallInput, tier: int): int {
    if tier in w.talentsByTier then w.talentsByTier[tier] else 0
  }

  /** The tier takes part in the distribution. */
  predicate Counted(w: WaterfallInput, tier: int) {
    w.config.minTier <= tier && tier as real <= MaxTierValue(w) && TalentCount(w, tier) > 0
  }

  function Demand(w: WaterfallInput, tier: int): real { TalentCount(w, tier) as real * tier as real }

  function TotalDemand(w: WaterfallInput, k: nat): real
    requires k <= |w.tiers|
  {
    if k == 0 then 0.0
    else TotalDemand(w, k - 1) + if Counted(w, w.tiers[k - 1]) then Demand(w, w.tiers[k - 1]) else 0.0
  }

  function ScaleFactor(budget: real, demand: real): real
    requires budget > 0.0
  {
    if demand > budget then budget / demand else 1.0
  }

  /** What a demand d out of `total` is entitled to. */
  function Share(budget: real, total: real, d: real): real
    requires budget > 0.0 && total > 0.0
  {
    d / total * budget * ScaleFactor(budget, total)
  }

  function TierSlotFor(w: WaterfallInput, total: real, tier: int): TierSlot
    requires w.cycleBudget > 0.0 && total > 0.0 && tier > 0
  {
    var share := Share(w.cycleBudget, total, Demand(w, tier));
    var count := Floor(share / tier as real);
    var actual := count as real * tier as real;
    TierSlot(tier, count, actual, share - actual)
  }

  function SlotsFor(w: WaterfallInput, total: real, k: nat): seq<TierSlot>
    requires w.cycleBudget > 0.0 && total > 0.0 && w.config.minTier > 0 && k <= |w.tiers|
  {
    if k == 0 then []
    else if Counted(w, w.tiers[k - 1]) then SlotsFor(w, total, k - 1) + [TierSlotFor(w, total, w.tiers[k - 1])]
    else SlotsFor(w, total, k - 1)
  }

  function AllocatedSum(slots: seq<TierSlot>, k: nat): real
    requires k <= |slots|
  {
    if k == 0 then 0.0 else AllocatedSum(slots, k - 1) + slots[k - 1].budgetShare
  }

  lemma {:induction false} AllocatedAppend(slots: seq<TierSlot>, s: TierSlot, k: nat)
    requires k <= |slots|
    ensures AllocatedSum(slots + [s], k) == AllocatedSum(slots, k)
  {
    if k > 0 {
      AllocatedAppend(slots, s, k - 1);
    }
  }

  lemma DemandPositive(w: WaterfallInput, tier: int)
    requires w.config.minTier > 0 && Counted(w, tier)
    ensures Demand(w, tier) > 0.0
  {
    assert TalentCount(w, tier) as real * tier as real > 0.0;
  }

  lemma {:induction false} TotalDemandSign(w: WaterfallInput, k: nat)
    requires w.config.minTier > 0 && k <= |w.tiers|
    ensures TotalDemand(w, k) >= 0.0
    ensures (exists i :: 0 <= i < k && Counted(w, w.tiers[i])) ==> TotalDemand(w, k) > 0.0
  {
    hide Counted, Demand;
    if k > 0 {
      TotalDemandSign(w, k - 1);
      if Counted(w, w.tiers[k - 1]) {
        DemandPositive(w, w.tiers[k - 1]);
      }
    }
  }

  // -------------------------------------------------------------------------------- the method

  function Distribute(w: WaterfallInput): Result<WaterfallOutput> {
    var invalid := Validate(w.config);
    if invalid.Some? then Err("invalid config")
    else if w.cycleBudget < 0.0 then Err("cycle_budget must be non-negative")
    else if w.cycleBudget == 0.0 || w.tiers == [] then Ok(NOTHING)
    else
      var total := TotalDemand(w, |w.tiers|);
      TotalDemandSign(w, |w.tiers|);
      if total == 0.0 then Ok(NOTHING)
      else
        var slots := SlotsFor(w, total, |w.tiers|);
        var allocatedTotal := AllocatedSum(slots, |slots|);
        Ok(WaterfallOutput(slots, allocatedTotal, w.cycleBudget - allocatedTotal))
  }

  method RunWaterfall(w: WaterfallInput) returns (r: Result<WaterfallOutput>)
    ensures r == Distribute(w)
  {
    hide Counted, Demand, Share, TierSlotFor;
    var invalid := Validate(w.config);
    if invalid.Some? {
      return Err("invalid config");
    }
    if w.cycleBudget < 0.0 {
      return Err("cycle_budget must be non-negative");
    }
    if w.cycleBudget == 0.0 || |w.tiers| == 0 {
      return Ok(NOTHING);
    }
    var demand, totalDemand := CollectDemand(w);
    TotalDemandSign(w, |w.tiers|);
    if totalDemand == 0.0 {
      return Ok(NOTHING);
    }
    var slots: seq<TierSlot>, totalAllocated := [], 0.0;
    for i := 0 to |w.tiers|
      invariant slots == SlotsFor(w, totalDemand, i) && totalAllocated == AllocatedSum(slots, |slots|)
    {
      var tier := w.tiers[i];
      if tier !in demand || demand[tier] == 0.0 {
        if tier in demand {
          DemandPositive(w, tier);
        }
        continue;
      }
      CountedTierPositive(w, tier);
      var slot := TierSlotFor(w, totalDemand, tier);
      AllocatedAppend(slots, slot, |slots|);
      totalAllocated := totalAllocated + slot.budgetShare;
      slots := slots + [slot];
    }
    r := Ok(WaterfallOutput(slots, totalAllocated, w.cycleBudget - totalAllocated));
  }

  lemma CountedTierPositive(w: WaterfallInput, tier: int)
    requires w.config.minTier > 0 && Counted(w, tier)
    ensures tier > 0
  {
  }

  /** The first loop: demand per counted tier, and its total over the tier list. */
  method CollectDemand(w: WaterfallInput) returns (demand: map<int, real>, totalDemand: real)
    requires w.config.minTier > 0
    ensures forall tier :: tier in demand <==> tier in w.tiers && Counted(w, tier)
    ensures forall tier :: tier in demand ==> demand[tier] == Demand(w, tier)
    ensures totalDemand == TotalDemand(w, |w.tiers|)
  {
    hide Demand;
    demand, totalDemand := map[], 0.0;
    var maxTierValue := MaxTierValue(w);
    for i := 0 to |w.tiers|
      invariant forall tier :: tier in demand <==> tier in w.tiers[..i] && Counted(w, tier)
      invariant forall tier :: tier in demand ==> demand[tier] == Demand(w, tier)
      invariant totalDemand == TotalDemand(w, i)
    {
      var tier := w.tiers[i];
      assert w.tiers[..i + 1] == w.tiers[..i] + [tier];
      if tier < w.config.minTier || tier as real > maxTierValue {
        continue;
      }
      var count := TalentCount(w, tier);
      if count <= 0 {
        continue;
      }
      var d := Demand(w, tier);
      demand := demand[tier := d];
      totalDemand := totalDemand + d;
    }
    assert w.tiers[..|w.tiers|] == w.tiers;
  }

  // ------------------------------------------------------------------------------- the promises

  lemma FloorBounds(share: real, tier: int)
    requires share >= 0.0 && tier > 0
    ensures var count := Floor(share / tier as real);
            count >= 0 && 0.0 <= share - count as real * tier as real < tier as real
  {
    var t := tier as real;
    var count := Floor(share / t) as real;
    DivBoundsBelow(share, t, 0.0);
    DivBoundsBelow(share, t, count);
    DivBoundsBelow(share, t, count + 1.0);
    OneMore(count, t);
  }

  lemma OneMore(x: real, t: real)
    ensures (x + 1.0) * t == x * t + t
  {
  }

  lemma ShareFacts(budget: real, total: real, d: real)
    requires budget > 0.0 && total > 0.0 && d >= 0.0
    ensures Share(budget, total, d) >= 0.0
    ensures total <= budget ==> Share(budget, total, d) >= d
    ensures total > budget && d > 0.0 ==> Share(budget, total, d) < d
    ensures Share(budget, total, d) * total == d * (budget * ScaleFactor(budget, total))
  {
    var s := ScaleFactor(budget, total);
    assert s > 0.0 by { if total > budget { DivBoundsBelow(budget, total, 0.0); DivBounds(budget, total, 0.0); } }
    var weight := d / total;
    assert weight * total == d;
    DivBoundsBelow(d, total, 0.0);
    MulNonNegative(weight, budget);
    MulNonNegative(weight * budget, s);
    assert Share(budget, total, d) == weight * budget * s;
    assert weight * budget * s * total == (weight * total) * (budget * s);
    if total <= budget {
      MulMonotone(total, budget, weight);
    } else if d > 0.0 {
      assert s * total == budget;
      assert weight > 0.0 by { DivBounds(d, total, 0.0); }
      SmallerProduct(weight, budget, total, s);
    }
  }

  lemma SmallerProduct(weight: real, budget: real, total: real, s: real)
    requires weight > 0.0 && 0.0 < budget < total && s > 0.0 && s * total == budget
    ensures weight * budget * s < weight * total
  {
    assert s < 1.0 by { if s >= 1.0 { MulMonotone(1.0, s, total); } }
    assert weight * budget < weight * total by { assert weight * (total - budget) > 0.0; }
    assert weight * budget > 0.0;
    assert (weight * budget) * (1.0 - s) > 0.0;
  }

  /** A demand d out of `total` is entitled to its part of the budget, scaled down once more by the budget over
      the total when the total exceeds it. */
  ghost predicate EntitledTo(budget: real, total: real, d: real, share: real) {
    if total <= budget then Times(share, total) == Times(d, budget)
    else Times(Times(share, total), total) == Times(Times(d, budget), budget)
  }

  lemma ShareIs(budget: real, total: real, d: real)
    requires budget > 0.0 && total > 0.0 && d >= 0.0
    ensures EntitledTo(budget, total, d, Share(budget, total, d))
  {
    hide Share;
    ShareFacts(budget, total, d);
    var s, share := ScaleFactor(budget, total), Share(budget, total, d);
    if total > budget {
      assert s * total == budget;
      ScaledTwice(share, total, d, budget, s);
    }
  }

  lemma ScaledTwice(share: real, total: real, d: real, budget: real, s: real)
    requires share * total == d * (budget * s) && s * total == budget
    ensures share * total * total == d * budget * budget
  {
    assert d * (budget * s) * total == d * budget * (s * total);
  }

  /** One tier's row: a whole number of slots whose cost leaves less than one slot over; at least one slot
      per talent when everyone's demand fits the budget, and fewer slots than talents when it does not. */
  lemma TierRow(w: WaterfallInput, total: real, tier: int)
    requires w.cycleBudget > 0.0 && total > 0.0 && w.config.minTier > 0 && Counted(w, tier)
    ensures tier > 0
    ensures var s := TierSlotFor(w, total, tier);
            && s.slotCount >= 0 && s.budgetShare == s.slotCount as real * tier as real
            && s.budgetShare + s.remainder == Share(w.cycleBudget, total, Demand(w, tier))
            && 0.0 <= s.remainder < tier as real
            && (total <= w.cycleBudget ==> s.slotCount >= TalentCount(w, tier))
            && (total > w.cycleBudget ==> s.slotCount < TalentCount(w, tier))
  {
    hide Share;
    DemandPositive(w, tier);
    ShareFacts(w.cycleBudget, total, Demand(w, tier));
    WholeSlots(Share(w.cycleBudget, total, Demand(w, tier)), TalentCount(w, tier), tier);
  }

  /** How many slots a share pays for, against n talents. */
  lemma WholeSlots(share: real, n: int, tier: int)
    requires share >= 0.0 && tier > 0
    ensures var count := Floor(share / tier as real);
            && count >= 0 && 0.0 <= share - count as real * tier as real < tier as real
            && (n as real * tier as real <= share <==> n <= count)
  {
    FloorBounds(share, tier);
    DivBoundsBelow(share, tier as real, n as real);
    WithinFloor(n, share / tier as real);
  }

  /** A whole number of slots, less than one slot left over, and both together what the demand is entitled to. */
  ghost predicate FairRow(w: WaterfallInput, total: real, s: TierSlot) {
    && s.budgetShare == Times(s.slotCount as real, s.tier as real) && 0.0 <= s.remainder < s.tier as real
    && EntitledTo(w.cycleBudget, total, Times(TalentCount(w, s.tier) as real, s.tier as real),
                  s.budgetShare + s.remainder)
  }

  lemma TimesOf(x: real, y: real)
    ensures Times(x, y) == x * y
  {
  }

  lemma DemandTimes(w: WaterfallInput, tier: int)
    ensures Demand(w, tier) == Times(TalentCount(w, tier) as real, tier as real)
  {
  }

  lemma TierSlotTier(w: WaterfallInput, total: real, tier: int)
    requires w.cycleBudget > 0.0 && total > 0.0 && tier > 0
    ensures TierSlotFor(w, total, tier).tier == tier
  {
  }

  lemma RowIsFair(w: WaterfallInput, total: real, tier: int)
    requires w.cycleBudget > 0.0 && total > 0.0 && w.config.minTier > 0 && Counted(w, tier)
    ensures tier > 0 && FairRow(w, total, TierSlotFor(w, total, tier))
  {
    hide Share, Counted, EntitledTo, Times, TalentCount, Demand, TierSlotFor;
    TierRow(w, total, tier);
    TimesOf(TierSlotFor(w, total, tier).slotCount as real, tier as real);
    DemandTimes(w, tier);
    TierSlotTier(w, total, tier);
    DemandPositive(w, tier);
    ShareIs(w.cycleBudget, total, Demand(w, tier));
  }

  lemma {:induction false} RowsWithinShares(w: WaterfallInput, total: real, k: nat)
    requires w.cycleBudget > 0.0 && total > 0.0 && w.config.minTier > 0 && k <= |w.tiers|
    ensures var slots := SlotsFor(w, total, k);
            AllocatedSum(slots, |slots|) * total <=
            TotalDemand(w, k) * (w.cycleBudget * ScaleFactor(w.cycleBudget, total))
  {
    hide Counted, Demand, TierSlotFor, Share, ScaleFactor;
    if k > 0 {
      RowsWithinShares(w, total, k - 1);
      var tier, before := w.tiers[k - 1], SlotsFor(w, total, k - 1);
      if Counted(w, tier) {
        TierRow(w, total, tier);
        DemandPositive(w, tier);
        ShareFacts(w.cycleBudget, total, Demand(w, tier));
        var s := TierSlotFor(w, total, tier);
        AllocatedAppend(before, s, |before|);
        AddRow(AllocatedSum(before, |before|), s.budgetShare, Share(w.cycleBudget, total, Demand(w, tier)), total,
               TotalDemand(w, k - 1), Demand(w, tier), w.cycleBudget * ScaleFactor(w.cycleBudget, total));
      }
    }
  }

  lemma AddRow(sum: real, actual: real, share: real, total: real, demands: real, d: real, c: real)
    requires sum * total <= demands * c && actual <= share && share * total == d * c && total > 0.0
    ensures (sum + actual) * total <= (demands + d) * c
  {
    MulMonotone(actual, share, total);
    assert (sum + actual) * total == sum * total + actual * total;
    assert (demands + d) * c == demands * c + d * c;
  }

  lemma {:induction false} RowsOf(w: WaterfallInput, total: real, k: nat)
    requires w.cycleBudget > 0.0 && total > 0.0 && w.config.minTier > 0 && k <= |w.tiers|
    ensures forall s :: s in SlotsFor(w, total, k) ==>
            Counted(w, s.tier) && s.tier > 0 && s == TierSlotFor(w, total, s.tier)
    ensures forall i :: 0 <= i < k && Counted(w, w.tiers[i]) ==>
      w.tiers[i] > 0 && TierSlotFor(w, total, w.tiers[i]) in SlotsFor(w, total, k)
  {
    hide Demand, Share, MaxTierValue;
    if k > 0 {
      RowsOf(w, total, k - 1);
    }
  }

  // ------------------------------------------------------------------------------ who gets a row

  /** From the configuration and the input alone: the tier has talents and lies between the minimum and both the
      platform's cap and its part of the budget. */
  predicate TakesPart(w: WaterfallInput, tier: int) {
    && tier in w.talentsByTier && w.talentsByTier[tier] > 0
    && w.config.minTier <= tier <= w.config.maxTierCap && tier as real <= Times(w.cycleBudget, w.config.budgetSharePct)
  }

  lemma CountedTakesPart(w: WaterfallInput, tier: int)
    ensures Counted(w, tier) <==> TakesPart(w, tier)
  {
  }

  /** The rows are those of the listed tiers that take part, in the order of the list. */
  ghost predicate RowsAre(w: WaterfallInput, slots: seq<TierSlot>, positions: seq<nat>, k: nat)
    requires k <= |w.tiers|
  {
    && |positions| == |slots|
    && (forall i :: 0 <= i < |slots| ==>
          positions[i] < k && slots[i].tier == w.tiers[positions[i]] && TakesPart(w, slots[i].tier))
    && (forall i, j :: 0 <= i < j < |positions| ==> positions[i] < positions[j])
    && (forall p :: 0 <= p < k && TakesPart(w, w.tiers[p]) ==> Listed(positions, p))
  }

  ghost predicate Listed(positions: seq<nat>, p: nat) { exists i :: 0 <= i < |positions| && positions[i] == p }

  lemma {:induction false} RowPositions(w: WaterfallInput, total: real, k: nat) returns (positions: seq<nat>)
    requires w.cycleBudget > 0.0 && total > 0.0 && w.config.minTier > 0 && k <= |w.tiers|
    ensures RowsAre(w, SlotsFor(w, total, k), positions, k)
  {
    hide Counted, TakesPart, Share, Demand;
    positions := [];
    if k > 0 {
      positions := RowPositions(w, total, k - 1);
      CountedTakesPart(w, w.tiers[k - 1]);
      OneMoreRow(w, SlotsFor(w, total, k - 1), positions, k, total);
      if Counted(w, w.tiers[k - 1]) {
        positions := positions + [k - 1];
      }
    }
  }

  lemma OneMoreRow(w: WaterfallInput, slots: seq<TierSlot>, positions: seq<nat>, k: nat, total: real)
    requires w.cycleBudget > 0.0 && total > 0.0 && w.config.minTier > 0 && 0 < k <= |w.tiers|
    requires RowsAre(w, slots, positions, k - 1)
    ensures var tier := w.tiers[k - 1];
            if TakesPart(w, tier)
            then tier > 0 && RowsAre(w, slots + [TierSlotFor(w, total, tier)], positions + [k - 1], k)
            else RowsAre(w, slots, positions, k)
  {
    hide TierSlotFor;
    var tier := w.tiers[k - 1];
    if TakesPart(w, tier) {
      hide TakesPart;
      TierSlotTier(w, total, tier);
      var next := positions + [k - 1];
      assert next[|positions|] == k - 1;
      forall p: nat | Listed(positions, p) ensures Listed(next, p) {
        var i :| 0 <= i < |positions| && positions[i] == p;
        assert next[i] == p;
      }
    }
  }

  function DemandsOf(w: WaterfallInput, k: nat): (r: seq<real>)
    requires k <= |w.tiers|
  {
    seq(k, i requires 0 <= i < k =>
      if TakesPart(w, w.tiers[i]) then w.talentsByTier[w.tiers[i]] as real * w.tiers[i] as real else 0.0)
  }

  lemma {:induction false} DemandsAreSummed(w: WaterfallInput, k: nat)
    requires k <= |w.tiers|
    ensures TotalDemand(w, k) == Sum(DemandsOf(w, k))
  {
    hide Sum, TakesPart, Counted;
    if k == 0 {
      SumOfEmpty(DemandsOf(w, 0));
    } else {
      DemandsAreSummed(w, k - 1);
      CountedTakesPart(w, w.tiers[k - 1]);
      var d := DemandsOf(w, k)[k - 1];
      assert DemandsOf(w, k) == DemandsOf(w, k - 1) + [d];
      SumAppend(DemandsOf(w, k - 1), d);
      DemandIs(w, w.tiers[k - 1]);
    }
  }

  lemma DemandIs(w: WaterfallInput, tier: int)
    ensures TakesPart(w, tier) ==> Demand(w, tier) == w.talentsByTier[tier] as real * tier as real
  {
  }

  function SharesOf(slots: seq<TierSlot>): (r: seq<real>) {
    seq(|slots|, i requires 0 <= i < |slots| => slots[i].budgetShare)
  }

  lemma {:induction false} SharesAreSummed(slots: seq<TierSlot>, k: nat)
    requires k <= |slots|
    ensures AllocatedSum(slots, k) == Sum(SharesOf(slots[..k]))
  {
    hide Sum;
    if k == 0 {
      SumOfEmpty(SharesOf(slots[..0]));
    } else {
      SharesAreSummed(slots, k - 1);
      assert SharesOf(slots[..k]) == SharesOf(slots[..k - 1]) + [slots[k - 1].budgetShare];
      SumAppend(SharesOf(slots[..k - 1]), slots[k - 1].budgetShare);
    }
  }

  /** The distribution of a positive budget, row by row: one row for every listed tier that takes part; each is
      entitled to its part of the summed demand and gets the whole slots in it; the allocation is their sum. */
  lemma RowByRow(w: WaterfallInput) returns (positions: seq<nat>)
    requires Distribute(w).Ok? && w.cycleBudget > 0.0
    ensures var out, total := Distribute(w).value, Sum(DemandsOf(w, |w.tiers|));
            && RowsAre(w, out.slots, positions, |w.tiers|) && out.totalAllocated == Sum(SharesOf(out.slots))
            && forall s :: s in out.slots ==>
                 FairRow(w, total, s)
  {
    hide Counted, TakesPart, Demand, Share, TierSlotFor, Sum, FairRow, SlotsFor, TotalDemand, RowsAre;
    var total := TotalDemand(w, |w.tiers|);
    TotalDemandSign(w, |w.tiers|);
    DemandsAreSummed(w, |w.tiers|);
    if w.tiers == [] || total == 0.0 {
      NoRows(w);
      SumOfEmpty(SharesOf([]));
      positions := [];
    } else {
      positions := RowPositions(w, total, |w.tiers|);
      var slots := SlotsFor(w, total, |w.tiers|);
      SharesAreSummed(slots, |slots|);
      assert slots[..|slots|] == slots;
      RowsOf(w, total, |w.tiers|);
      forall s | s in slots ensures FairRow(w, total, s) {
        RowIsFair(w, total, s.tier);
      }
    }
  }

  lemma NoRows(w: WaterfallInput)
    requires w.config.minTier > 0 && (w.tiers == [] || TotalDemand(w, |w.tiers|) == 0.0)
    ensures RowsAre(w, [], [], |w.tiers|)
  {
    hide TotalDemand, Counted, TakesPart;
    TotalDemandSign(w, |w.tiers|);
    forall p | 0 <= p < |w.tiers| ensures !TakesPart(w, w.tiers[p]) {
      CountedTakesPart(w, w.tiers[p]);
    }
  }

  // --------------------------------------------------------------------------------- conservation

  /** The whole distribution, for any tier list, duplicates included: when demand exceeds the budget the
      allocation stays within budget squared over demand, otherwise within the budget.  Allocation and
      remainder make up the budget exactly when there is demand (or no budget): without demand the
      remainder is reported as 0. */
  lemma WaterfallConserves(w: WaterfallInput)
    requires Distribute(w).Ok?
    ensures var out, total := Distribute(w).value, TotalDemand(w, |w.tiers|);
            && (total > w.cycleBudget > 0.0 ==> out.totalAllocated * total <= w.cycleBudget * w.cycleBudget)
            && 0.0 <= out.totalAllocated <= w.cycleBudget
            && (out.totalAllocated + out.remainder == w.cycleBudget <==> w.cycleBudget == 0.0 || total > 0.0)
  {
    hide Counted, Demand, Share, TierSlotFor;
    TotalDemandSign(w, |w.tiers|);
    var total, budget := TotalDemand(w, |w.tiers|), w.cycleBudget;
    if budget > 0.0 && total > 0.0 {
      RowsWithinShares(w, total, |w.tiers|);
      AllocatedNonNegative(w, total, |w.tiers|);
      var sum := Distribute(w).value.totalAllocated;
      if total > budget {
        assert budget / total * total == budget;
        assert total * (budget * (budget / total)) == budget * budget by {
          assert budget * (budget / total) * total == budget * (budget / total * total);
        }
        MulMonotone(budget, total, budget);
      } else {
        assert sum * total <= total * budget;
      }
      CancelRight(sum, budget, total);
    }
  }

  lemma CancelRight(a: real, b: real, c: real)
    requires c > 0.0 && a * c <= b * c
    ensures a <= b
  {
    StrictProduct(a, b, c);
  }

  lemma StrictProduct(a: real, b: real, c: real)
    requires c > 0.0
    ensures a > b ==> a * c > b * c
  {
    if a > b {
      assert (a - b) * c > 0.0;
    }
  }

  lemma {:induction false} AllocatedNonNegative(w: WaterfallInput, total: real, k: nat)
    requires w.cycleBudget > 0.0 && total > 0.0 && w.config.minTier > 0 && k <= |w.tiers|
    ensures var slots := SlotsFor(w, total, k); AllocatedSum(slots, |slots|) >= 0.0
  {
    hide Counted, Demand, TierSlotFor, Share;
    if k > 0 {
      AllocatedNonNegative(w, total, k - 1);
      if Counted(w, w.tiers[k - 1]) {
        var before := SlotsFor(w, total, k - 1);
        TierRow(w, total, w.tiers[k - 1]);
        var s := TierSlotFor(w, total, w.tiers[k - 1]);
        MulNonNegative(s.slotCount as real, w.tiers[k - 1] as real);
        AllocatedAppend(before, s, |before|);
      }
    }
  }

  // --------------------------------------------------------------------- bounded demand tiers

  /** The largest multiple of the increment within a share of the budget. */
  function BudgetTier(limit: real, inc: int): (tier: int)
    requires inc > 0
    ensures limit >= 0.0 ==> 0 <= tier && tier as real <= limit
  {
    var k := Floor(limit / inc as real);
    assert limit >= 0.0 ==> 0 <= k * inc && (k * inc) as real <= limit by {
      if limit >= 0.0 { FloorBounds(limit, inc); }
      assert (k * inc) as real == k as real * inc as real;
    }
    k * inc
  }

  /** Rounding towards zero to a multiple of the increment. */
  function TruncTier(tier: int, inc: int): (t: int)
    requires inc > 0
    ensures t % inc == 0
    ensures tier >= 0 ==> t <= tier
  {
    MultipleOf(TruncDiv(tier, inc) * inc, inc, TruncDiv(tier, inc));
    TruncDiv(tier, inc) * inc
  }

  function BoundedDemandTier(pdc: real, cycleLength: int, maxCpa: real, cycleBudget: real, talentMaxTier: int,
                             cfg: CycleConfig): int
  {
    var natural := DemandTier(pdc, cycleLength, maxCpa, cfg.tierIncrement);
    if natural == 0 || cycleBudget <= 0.0 || cfg.tierIncrement <= 0 then 0
    else
      var byBudget := BudgetTier(BudgetLimit(cycleBudget, cfg.budgetSharePct), cfg.tierIncrement);
      var platform := if byBudget < cfg.maxTierCap then byBudget else cfg.maxTierCap;
      var ceiling := if 0 < talentMaxTier < platform then talentMaxTier else platform;
      var upper := TruncTier(ceiling, cfg.tierIncrement);
      if upper < cfg.minTier then 0
      else if natural > upper then upper
      else if natural < cfg.minTier then cfg.minTier
      else natural
  }

  /** A positive bounded tier is one the waterfall can consume: a multiple of the increment between the
      minimum and both the platform cap and the budget share, within the talent's own ceiling. */
  lemma BoundedTierIsConsumable(pdc: real, cycleLength: int, maxCpa: real, w: WaterfallInput, talentMaxTier: int)
    requires Valid(w.config)
    ensures w.config.tierIncrement > 0 && w.config.budgetSharePct > 0.0
    ensures var tier := BoundedDemandTier(pdc, cycleLength, maxCpa, w.cycleBudget, talentMaxTier, w.config);
            tier != 0 ==>
              && tier % w.config.tierIncrement == 0
              && w.config.minTier <= tier && tier as real <= MaxTierValue(w)
              && (talentMaxTier > 0 ==> tier <= talentMaxTier)
  {
    hide DemandTier, BudgetTier, BudgetLimit, TruncTier, Valid, Validate;
    ValidFacts(w.config);
  }

  /** A tier the waterfall can consume for this talent: within the platform's cap, its part of the budget, the
      talent's positive ceiling, and what its output is worth at the maximum cost. */
  ghost predicate Affords(pdc: real, cycleLength: int, maxCpa: real, w: WaterfallInput, talentMaxTier: int, y: int) {
    && y <= w.config.maxTierCap && y as real <= Times(w.cycleBudget, w.config.budgetSharePct)
    && (talentMaxTier > 0 ==> y <= talentMaxTier)
    && y as real <= pdc * cycleLength as real * maxCpa
  }

  /** It is the greatest such tier, or the minimum: every multiple of the increment above the minimum is within it
      exactly when the talent affords it; and there is none exactly when the budget, the caps or the ceiling rule
      out the minimum, or the output is worth less than one increment. */
  lemma BoundedTierIsGreatest(pdc: real, cycleLength: int, maxCpa: real, w: WaterfallInput, talentMaxTier: int, y: int)
    requires Valid(w.config) && pdc > 0.0 && cycleLength > 0 && maxCpa > 0.0
    ensures w.config.tierIncrement > 0
    ensures var tier := BoundedDemandTier(pdc, cycleLength, maxCpa, w.cycleBudget, talentMaxTier, w.config);
            && (y % w.config.tierIncrement == 0 && y > w.config.minTier ==>
                 (y <= tier <==> Affords(pdc, cycleLength, maxCpa, w, talentMaxTier, y)))
            && (tier == 0 <==>
                 !(w.cycleBudget > 0.0 && w.config.minTier as real <= Times(w.cycleBudget, w.config.budgetSharePct)
                   && (talentMaxTier > 0 ==> w.config.minTier <= talentMaxTier)
                   && w.config.tierIncrement as real <= pdc * cycleLength as real * maxCpa))
  {
    hide DemandTier, BudgetTier, TruncTier, Valid, Validate;
    ValidFacts(w.config);
    var inc := w.config.tierIncrement;
    MultipleOf(inc, inc, 1);
    DemandTierIsGreatest(pdc, cycleLength, maxCpa, inc, inc);
    DemandBelowIncrement(pdc, cycleLength, maxCpa, inc);
    if w.cycleBudget <= 0.0 {
      NoBudget(w.cycleBudget, w.config.budgetSharePct);
    } else {
      UpperTier(w, talentMaxTier, w.config.minTier);
      if y % inc == 0 && y > 0 {
        UpperTier(w, talentMaxTier, y);
        DemandTierIsGreatest(pdc, cycleLength, maxCpa, inc, y);
      }
    }
  }

  lemma NoBudget(budget: real, pct: real)
    requires budget <= 0.0 && pct > 0.0
    ensures Times(budget, pct) <= 0.0
  {
    MulNonNegative(-budget, pct);
  }

  lemma DemandBelowIncrement(pdc: real, cycleLength: int, maxCpa: real, inc: int)
    requires inc > 0
    ensures DemandTier(pdc, cycleLength, maxCpa, inc) == 0 <==> DemandTier(pdc, cycleLength, maxCpa, inc) < inc
  {
    hide DemandTier;
    var d := DemandTier(pdc, cycleLength, maxCpa, inc);
    MultipleOf(d, inc, d / inc);
    MulGrows(d / inc, inc);
  }

  /** Rounding the ceiling down keeps every multiple below it. */
  lemma UpperTier(w: WaterfallInput, talentMaxTier: int, y: int)
    requires w.config.tierIncrement > 0 && w.config.maxTierCap > 0 && w.cycleBudget > 0.0
    requires w.config.budgetSharePct > 0.0 && y % w.config.tierIncrement == 0 && y > 0
    ensures var byBudget := BudgetTier(BudgetLimit(w.cycleBudget, w.config.budgetSharePct), w.config.tierIncrement);
            var platform := if byBudget < w.config.maxTierCap then byBudget else w.config.maxTierCap;
            var ceiling := if 0 < talentMaxTier < platform then talentMaxTier else platform;
            y <= TruncTier(ceiling, w.config.tierIncrement) <==>
              && y <= w.config.maxTierCap && y as real <= Times(w.cycleBudget, w.config.budgetSharePct)
              && (talentMaxTier > 0 ==> y <= talentMaxTier)
  {
    hide BudgetTier, TruncTier;
    var inc := w.config.tierIncrement;
    MulNonNegative(w.cycleBudget, w.config.budgetSharePct);
    var byBudget := BudgetTier(BudgetLimit(w.cycleBudget, w.config.budgetSharePct), inc);
    BudgetTierIsGreatest(BudgetLimit(w.cycleBudget, w.config.budgetSharePct), inc, y);
    var platform := if byBudget < w.config.maxTierCap then byBudget else w.config.maxTierCap;
    var ceiling := if 0 < talentMaxTier < platform then talentMaxTier else platform;
    TruncIsGreatest(ceiling, inc, y);
  }

  lemma BudgetTierIs(limit: real, inc: int)
    requires inc > 0
    ensures BudgetTier(limit, inc) == Floor(limit / inc as real) * inc
  {
  }

  lemma BudgetTierIsGreatest(limit: real, inc: int, y: int)
    requires inc > 0 && limit >= 0.0 && y % inc == 0
    ensures y <= BudgetTier(limit, inc) <==> y as real <= limit
  {
    hide BudgetTier, Floor;
    var k, q := Floor(limit / inc as real), y / inc;
    BudgetTierIs(limit, inc);
    MultipleOf(y, inc, q);
    WithinFloor(q, limit / inc as real);
    DivBoundsBelow(limit, inc as real, q as real);
    RealProduct(q, inc);
    if q <= k { IntMulMonotone(q, k, inc); } else { IntMulMonotone(k + 1, q, inc); }
  }

  lemma TruncIsGreatest(ceiling: int, inc: int, y: int)
    requires inc > 0 && ceiling >= 0 && y % inc == 0 && y > 0
    ensures y <= TruncTier(ceiling, inc) <==> y <= ceiling
  {
    assert TruncTier(ceiling, inc) == DownTo(ceiling, inc);
    if y <= ceiling {
      DownToIsGreatest(ceiling, inc, y);
    }
  }

  lemma ValidFacts(c: CycleConfig)
    requires Valid(c)
    ensures c.tierIncrement > 0 && 0 < c.minTier <= c.maxTierCap && c.minTier % c.tierIncrement == 0
    ensures 0.0 < c.budgetSharePct <= 1.0
  {
  }
}
