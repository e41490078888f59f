/** internal/algo/qualifier.go: which talents may take which budget slot, and at what base cost. */
module Qualifier {
  import opened Numbers
  import opened Results

  datatype TalentProfile = TalentProfile(id: string, pdc: real, maxTier: int, cycleLength: int)

  datatype BudgetSlot = BudgetSlot(id: string, tierValue: int, targetCost: real, maxCost: real)

  datatype TierBounds = TierBounds(min: int, max: int)

  datatype QualResult = QualResult(qualified: bool, reason: string, baseDays: real, actual: real)

  function TierBoundsFor(slot: BudgetSlot): (r: Result<TierBounds>)
    ensures r.Ok? <==> slot.maxCost > 0.0 && slot.targetCost > 0.0 && slot.tierValue > 0
    ensures r.Ok? ==> r.value.min >= 1 && r.value.max >= 0
  {
    if slot.maxCost <= 0.0 then Err("max_cost must be positive")
    else if slot.targetCost <= 0.0 then Err("target_cost must be positive")
    else if slot.tierValue <= 0 then Err("tier_value must be positive")
    else
      var low, high := slot.tierValue as real / slot.maxCost, slot.tierValue as real / slot.targetCost;
      assert low > 0.0 && high > 0.0;
      Ok(TierBounds(Ceil(low), Floor(high)))
  }

  /** What n conversions cost. */
  function Spend(perConversion: real, n: int): real { n as real * perConversion }

  /** A slot asks for at least the fewest conversions that use up its tier at the maximum cost, and for at
      most the most conversions that its tier pays for at the target cost. */
  lemma TierBoundsAreTight(slot: BudgetSlot, n: int)
    requires TierBoundsFor(slot).Ok?
    ensures Spend(slot.maxCost, n) >= slot.tierValue as real <==> TierBoundsFor(slot).value.min <= n
    ensures Spend(slot.targetCost, n) <= slot.tierValue as real <==> n <= TierBoundsFor(slot).value.max
  {
    DivBounds(slot.tierValue as real, slot.maxCost, n as real);
    DivBoundsBelow(slot.tierValue as real, slot.targetCost, n as real);
  }

  // -------------------------------------------------------------------- tier ranks by sorting

  function CountBelow(tiers: seq<int>, tier: int): nat {
    if tiers == [] then 0 else (if tiers[0] < tier then 1 else 0) + CountBelow(tiers[1..], tier)
  }

  /** The index a tier gets when the tier list is sorted, or -1. */
  function TierRank(tiers: seq<int>, tier: int): int {
    if tier in tiers then CountBelow(tiers, tier) else -1
  }

  lemma {:induction false} CountBelowConcat(a: seq<int>, b: seq<int>, tier: int)
    ensures CountBelow(a + b, tier) == CountBelow(a, tier) + CountBelow(b, tier)
  {
    if a == [] {
      assert a + b == b;
    } else {
      assert (a + b)[1..] == a[1..] + b;
      CountBelowConcat(a[1..], b, tier);
    }
  }

  lemma SwapKeepsCount(s: seq<int>, j: nat, tier: int)
    requires 0 < j < |s|
    ensures CountBelow(s[j := s[j - 1]][j - 1 := s[j]], tier) == CountBelow(s, tier)
  {
    var t := s[j := s[j - 1]][j - 1 := s[j]];
    var low, high := s[..j - 1], s[j + 1..];
    assert s == low + ([s[j - 1], s[j]] + high);
    assert t == low + ([s[j], s[j - 1]] + high);
    CountBelowConcat(low, [s[j - 1], s[j]] + high, tier);
    CountBelowConcat(low, [s[j], s[j - 1]] + high, tier);
    CountBelowConcat([s[j - 1], s[j]], high, tier);
    CountBelowConcat([s[j], s[j - 1]], high, tier);
  }

  ghost predicate Sorted(s: seq<int>) {
    forall a, b :: 0 <= a < b < |s| ==> s[a] <= s[b]
  }

  /** Same elements as far as ranks can tell. */
  ghost predicate SameRanks(s: seq<int>, tiers: seq<int>) {
    multiset(s) == multiset(tiers) && forall tier :: CountBelow(s, tier) == CountBelow(tiers, tier)
  }

  lemma SameRanksSelf(tiers: seq<int>)
    ensures SameRanks(tiers, tiers)
  {
  }

  /** sortedTiers: an insertion sort by adjacent swaps. */
  method SortedTiers(tiers: seq<int>) returns (result: seq<int>)
    ensures Sorted(result) && SameRanks(result, tiers)
  {
    hide SameRanks;
    var sorted := new int[|tiers|](i requires 0 <= i < |tiers| => tiers[i]);
    assert sorted[..] == tiers;
    SameRanksSelf(tiers);
    var i := 1;
    while i < sorted.Length
      invariant 1 <= i
      invariant forall a, b :: 0 <= a < b < i && b < sorted.Length ==> sorted[a] <= sorted[b]
      invariant SameRanks(sorted[..], tiers)
    {
      var j := i;
      while j > 0 && sorted[j] < sorted[j - 1]
        invariant 0 <= j <= i
        invariant forall a, b :: 0 <= a < b <= i && b != j ==> sorted[a] <= sorted[b]
        invariant SameRanks(sorted[..], tiers)
      {
        SwapAdjacent(sorted, j, tiers);
        j := j - 1;
      }
      i := i + 1;
    }
    result := sorted[..];
  }

  method SwapAdjacent(s: array<int>, j: nat, ghost tiers: seq<int>)
    requires 0 < j < s.Length && SameRanks(s[..], tiers)
    modifies s
    ensures SameRanks(s[..], tiers)
    ensures s[..] == old(s[..])[j := old(s[j - 1])][j - 1 := old(s[j])]
  {
    forall tier ensures CountBelow(s[..][j := s[j - 1]][j - 1 := s[j]], tier) == CountBelow(s[..], tier) {
      SwapKeepsCount(s[..], j, tier);
    }
    s[j], s[j - 1] := s[j - 1], s[j];
    assert s[..] == old(s[..])[j := old(s[j - 1])][j - 1 := old(s[j])];
  }

  lemma {:induction false} CountBelowAll(s: seq<int>, tier: int)
    ensures (forall k :: 0 <= k < |s| ==> s[k] < tier) ==> CountBelow(s, tier) == |s|
    ensures (forall k :: 0 <= k < |s| ==> s[k] >= tier) ==> CountBelow(s, tier) == 0
  {
    if s != [] {
      CountBelowAll(s[1..], tier);
    }
  }

  lemma FirstIndexCounts(sorted: seq<int>, tier: int, i: nat)
    requires Sorted(sorted) && i < |sorted| && sorted[i] == tier && tier !in sorted[..i]
    ensures CountBelow(sorted, tier) == i
  {
    var low, high := sorted[..i], sorted[i..];
    assert sorted == low + high;
    assert forall k :: 0 <= k < |low| ==> low[k] < tier by {
      assert forall k :: 0 <= k < |low| ==> low[k] in low && low[k] == sorted[k] <= sorted[i];
    }
    assert forall k :: 0 <= k < |high| ==> high[k] >= tier by {
      assert forall k :: 0 <= k < |high| ==> high[k] == sorted[i + k];
    }
    hide Sorted, CountBelow;
    CountBelowConcat(low, high, tier);
    CountBelowAll(low, tier);
    CountBelowAll(high, tier);
  }

  lemma FirstIndexIsRank(sorted: seq<int>, tier: int, tiers: seq<int>, i: nat)
    requires Sorted(sorted) && SameRanks(sorted, tiers) && i < |sorted|
    requires sorted[i] == tier && tier !in sorted[..i]
    ensures TierRank(tiers, tier) == i
  {
    hide CountBelow, Sorted;
    FirstIndexCounts(sorted, tier, i);
    assert sorted[i] in multiset(sorted);
  }

  /** tierIndex on the sorted list finds the rank of the tier in the original list. */
  method TierIndex(sorted: seq<int>, tier: int, ghost tiers: seq<int>) returns (index: int)
    requires Sorted(sorted) && SameRanks(sorted, tiers)
    ensures index == TierRank(tiers, tier)
  {
    hide Sorted, SameRanks, CountBelow;
    for i := 0 to |sorted|
      invariant tier !in sorted[..i]
    {
      if sorted[i] == tier {
        FirstIndexIsRank(sorted, tier, tiers, i);
        return i;
      }
    }
    AbsentStaysAbsent(sorted, tier, tiers);
    return -1;
  }

  lemma AbsentStaysAbsent(sorted: seq<int>, tier: int, tiers: seq<int>)
    requires SameRanks(sorted, tiers) && tier !in sorted[..|sorted|]
    ensures tier !in tiers
  {
    assert sorted[..|sorted|] == sorted;
    assert tier !in multiset(sorted);
  }

  // ------------------------------------------------------------------------- qualification

  function Qualify(t: TalentProfile, slot: BudgetSlot, allTiers: seq<int>): Result<QualResult> {
    if t.pdc <= 0.0 then Ok(QualResult(false, "too_weak", 0.0, 0.0))
    else if t.cycleLength <= 0 then Err("invalid cycle_length")
    else if allTiers == [] then Err("all_tiers must not be empty")
    else
      match TierBoundsFor(slot)
      case Err(e) => Err(e)
      case Ok(bounds) =>
        var maxRank, slotRank := TierRank(allTiers, t.maxTier), TierRank(allTiers, slot.tierValue);
        if maxRank >= 0 && slotRank >= 0 && maxRank - slotRank > 1 then
          Ok(QualResult(false, "mobility_blocked", 0.0, 0.0))
        else if t.pdc * t.cycleLength as real < bounds.min as real * 0.80 then
          Ok(QualResult(false, "too_weak", 0.0, 0.0))
        else
          var baseDays := Ceil(bounds.min as real / t.pdc) as real;
          Ok(QualResult(true, "ok", baseDays, baseDays * t.pdc))
  }

  method QualifyTalentForSlot(t: TalentProfile, slot: BudgetSlot, allTiers: seq<int>) returns (r: Result<QualResult>)
    ensures r == Qualify(t, slot, allTiers)
  {
    if t.pdc <= 0.0 {
      return Ok(QualResult(false, "too_weak", 0.0, 0.0));
    }
    if t.cycleLength <= 0 {
      return Err("invalid cycle_length");
    }
    if allTiers == [] {
      return Err("all_tiers must not be empty");
    }
    var boundsOrError := TierBoundsFor(slot);
    if boundsOrError.Err? {
      return Err(boundsOrError.error);
    }
    var bounds := boundsOrError.value;
    var tiers := SortedTiers(allTiers);
    var maxIdx := TierIndex(tiers, t.maxTier, allTiers);
    var slotIdx := TierIndex(tiers, slot.tierValue, allTiers);
    assert maxIdx == TierRank(allTiers, t.maxTier) && slotIdx == TierRank(allTiers, slot.tierValue);
    if maxIdx >= 0 && slotIdx >= 0 && maxIdx - slotIdx > 1 {
      return Ok(QualResult(false, "mobility_blocked", 0.0, 0.0));
    }
    var threshold := bounds.min as real * 0.80;
    var reachable := t.pdc * t.cycleLength as real;
    if reachable < threshold {
      return Ok(QualResult(false, "too_weak", 0.0, 0.0));
    }
    var baseDays := Ceil(bounds.min as real / t.pdc) as real;
    assert Qualify(t, slot, allTiers).value.actual == baseDays * t.pdc;
    r := Ok(QualResult(true, "ok", baseDays, baseDays * t.pdc));
  }

  function Output(pdc: real, days: int): real { days as real * pdc }

  /** Ceil(min / pdc) is the least number of days whose output reaches min. */
  lemma LeastDays(min: real, pdc: real, d: int)
    requires pdc > 0.0
    ensures min <= Output(pdc, d) <==> Ceil(min / pdc) <= d
  {
    DivBounds(min, pdc, d as real);
  }

  lemma DaysRange(min: real, pdc: real, cycleLength: real)
    requires min >= 1.0 && pdc > 0.0 && cycleLength > 0.0 && min * 0.80 <= pdc * cycleLength
    ensures 1 <= Ceil(min / pdc) <= Ceil(1.25 * cycleLength)
    ensures min <= Output(pdc, Ceil(min / pdc))
  {
    LeastDays(min, pdc, 0);
    LeastDays(min, pdc, Ceil(min / pdc));
    assert (1.25 * cycleLength) * pdc == 1.25 * (pdc * cycleLength);
    DivBounds(min, pdc, 1.25 * cycleLength);
  }

  /** A qualified talent gets the least whole number of days in which its daily output covers the
      slot's minimum, and that is at most 25 percent over the cycle, rounded up. */
  lemma BaseDaysAreLeast(t: TalentProfile, slot: BudgetSlot, allTiers: seq<int>)
    requires Qualify(t, slot, allTiers).Ok? && Qualify(t, slot, allTiers).value.qualified
    ensures t.pdc > 0.0 && t.cycleLength > 0 && TierBoundsFor(slot).Ok?
    ensures var q, min := Qualify(t, slot, allTiers).value, TierBoundsFor(slot).value.min;
            && q.baseDays == Ceil(min as real / t.pdc) as real && q.actual == Output(t.pdc, Ceil(min as real / t.pdc))
            && 1.0 <= q.baseDays <= Ceil(1.25 * t.cycleLength as real) as real
            && forall d: int :: min as real <= Output(t.pdc, d) <==> q.baseDays <= d as real
  {
    hide TierRank, TierBoundsFor, Ceil;
    var min := TierBoundsFor(slot).value.min as real;
    DaysRange(min, t.pdc, t.cycleLength as real);
    forall d: int ensures min <= Output(t.pdc, d) <==> Ceil(min / t.pdc) <= d {
      LeastDays(min, t.pdc, d);
    }
  }

  /** How many listed tiers lie from low (included) up to high (excluded). */
  function CountBetween(tiers: seq<int>, low: int, high: int): nat {
    if tiers == [] then 0 else (if low <= tiers[0] < high then 1 else 0) + CountBetween(tiers[1..], low, high)
  }

  lemma {:induction false} RankDistance(tiers: seq<int>, low: int, high: int)
    ensures low <= high ==> CountBelow(tiers, high) - CountBelow(tiers, low) == CountBetween(tiers, low, high)
    ensures low > high ==> CountBelow(tiers, high) <= CountBelow(tiers, low) && CountBetween(tiers, low, high) == 0
  {
    if tiers != [] {
      RankDistance(tiers[1..], low, high);
    }
  }

  /** Who qualifies for a well-formed slot: a talent with some daily output that reaches 80 percent of the
      slot's minimum within the cycle, unless the slot lies too far below the talent's ceiling, that is, two
      or more listed tiers (repetitions counted) lie from the slot's tier up to that ceiling.  A slot above
      the ceiling never blocks. */
  lemma WhoQualifies(t: TalentProfile, slot: BudgetSlot, allTiers: seq<int>)
    requires TierBoundsFor(slot).Ok? && t.cycleLength > 0 && allTiers != []
    ensures Qualify(t, slot, allTiers).Ok?
    ensures Qualify(t, slot, allTiers).value.qualified <==>
      && t.pdc > 0.0 && t.pdc * t.cycleLength as real >= TierBoundsFor(slot).value.min as real * 0.80
      && !(t.maxTier in allTiers && slot.tierValue in allTiers && CountBetween(allTiers, slot.tierValue, t.maxTier) > 1)
  {
    hide TierBoundsFor, CountBelow, CountBetween;
    RankDistance(allTiers, slot.tierValue, t.maxTier);
  }

  // ---------------------------------------------------------------------------- demand tiers

  /** A talent's natural tier: expected output times the maximum cost, rounded down to the increment. */
  function DemandTier(pdc: real, cycleLength: int, maxCpa: real, increment: int): (tier: int)
    ensures tier >= 0
    ensures increment > 0 ==> tier % increment == 0
  {
    if pdc <= 0.0 || cycleLength <= 0 || maxCpa <= 0.0 || increment <= 0 then 0
    else
      var raw := pdc * cycleLength as real * maxCpa;
      assert raw >= 0.0 by {
        MulNonNegative(pdc, cycleLength as real);
        MulNonNegative(pdc * cycleLength as real, maxCpa);
      }
      var steps := Floor(raw / increment as real);
      DivBoundsBelow(raw, increment as real, 0.0);
      assert steps * increment >= 0;
      MultipleOf(steps * increment, increment, steps);
      steps * increment
  }

  /** It is the greatest multiple of the increment that the talent's output is worth at the maximum cost. */
  lemma DemandTierIsGreatest(pdc: real, cycleLength: int, maxCpa: real, increment: int, tier: int)
    requires pdc > 0.0 && cycleLength > 0 && maxCpa > 0.0 && increment > 0 && tier % increment == 0
    ensures tier <= DemandTier(pdc, cycleLength, maxCpa, increment) <==>
            tier as real <= pdc * cycleLength as real * maxCpa
  {
    var raw, k := pdc * cycleLength as real * maxCpa, tier / increment;
    var steps := Floor(raw / increment as real);
    assert DemandTier(pdc, cycleLength, maxCpa, increment) == steps * increment;
    hide DemandTier;
    MultipleOf(tier, increment, k);
    assert tier as real == k as real * increment as real;
    DivBoundsBelow(raw, increment as real, k as real);
    if k <= steps { IntMulMonotone(k, steps, increment); } else { IntMulMonotone(steps + 1, k, increment); }
  }
}
