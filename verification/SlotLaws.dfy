/** What BuildBudgetSlots promises about every slot set it returns. */
module SlotLaws {
  import opened Numbers
  import opened Permutations
  import opened Qualifier
  import opened Slots

  function TierSum(slots: seq<Slot>, k: nat): int
    requires k <= |slots|
  {
    if k == 0 then 0 else TierSum(slots, k - 1) + slots[k - 1].tierValue
  }

  function TiersOf(slots: seq<Slot>): (r: seq<real>) {
    seq(|slots|, i requires 0 <= i < |slots| => slots[i].tierValue as real)
  }

  lemma {:induction false} TiersAreSummed(slots: seq<Slot>, k: nat)
    requires k <= |slots|
    ensures TierSum(slots, k) as real == Sum(TiersOf(slots[..k]))
  {
    hide Sum;
    if k == 0 {
      SumOfEmpty(TiersOf(slots[..0]));
    } else {
      TiersAreSummed(slots, k - 1);
      assert TiersOf(slots[..k]) == TiersOf(slots[..k - 1]) + [slots[k - 1].tierValue as real];
      SumAppend(TiersOf(slots[..k - 1]), slots[k - 1].tierValue as real);
    }
  }

  /** No two slots share tier and index: the table's uniqueness constraint. */
  ghost predicate KeysUnique(slots: seq<Slot>) {
    forall a, b :: 0 <= a < b < |slots| ==>
      slots[a].tierValue != slots[b].tierValue || slots[a].slotIndex != slots[b].slotIndex
  }

  function TierCount(slots: seq<Slot>, tier: int, k: nat): nat
    requires k <= |slots|
  {
    if k == 0 then 0 else TierCount(slots, tier, k - 1) + if slots[k - 1].tierValue == tier then 1 else 0
  }

  /** Every tier that occurs has a slot with index 0. */
  ghost predicate StartsAtZero(slots: seq<Slot>) {
    forall i :: 0 <= i < |slots| ==> HasZero(slots, slots[i].tierValue)
  }

  ghost predicate HasZero(slots: seq<Slot>, tier: int) {
    exists j :: 0 <= j < |slots| && slots[j].tierValue == tier && slots[j].slotIndex == 0
  }

  ghost predicate GrantsOk(active: seq<Talent>, campaign: Campaign, minTier: int, fair: int, g: seq<Grant>, k: nat)
    requires minTier % INCREMENT == 0 && fair % INCREMENT == 0
  {
    && (forall i :: 0 <= i < |g| ==> g[i].owner < k <= |active| && minTier <= g[i].tier <= MAX_INT32)
    && (forall i :: 0 <= i < |g| ==> g[i].tier == Offer(active[g[i].owner], campaign, minTier, fair))
    && (forall i, j :: 0 <= i < j < |g| ==> g[i].owner < g[j].owner)
  }

  lemma {:induction false} GrantsAreOffers(active: seq<Talent>, campaign: Campaign, minTier: int, fair: int,
      capacity: nat, k: nat)
    requires minTier % INCREMENT == 0 && fair % INCREMENT == 0 && k <= |active|
    ensures var g := Grants(active, campaign, minTier, fair, capacity, k);
            g.Some? ==> |g.value| <= capacity && |g.value| <= k && GrantsOk(active, campaign, minTier, fair, g.value, k)
  {
    hide Offer;
    if k > 0 {
      GrantsAreOffers(active, campaign, minTier, fair, capacity, k - 1);
    }
  }

  lemma {:induction false} SumAtMost(slots: seq<Slot>, fair: int, k: nat)
    requires k <= |slots| && forall i :: 0 <= i < |slots| ==> slots[i].tierValue <= fair
    ensures TierSum(slots, k) <= k * fair
  {
    if k > 0 {
      SumAtMost(slots, fair, k - 1);
      assert k * fair == (k - 1) * fair + fair;
    }
  }

  lemma {:induction false} OccurrencesGrow(g: seq<Grant>, tier: int, i: nat, j: nat)
    requires i < j <= |g|
    ensures g[i].tier == tier ==> Occurrences(g, tier, i) < Occurrences(g, tier, j)
    ensures Occurrences(g, tier, i) <= Occurrences(g, tier, j)
  {
    if i < j - 1 {
      OccurrencesGrow(g, tier, i, j - 1);
    }
  }

  lemma NumberedUniquely(g: seq<Grant>)
    ensures KeysUnique(SlotsOf(g))
  {
    var s := SlotsOf(g);
    forall a, b | 0 <= a < b < |s| ensures s[a].tierValue != s[b].tierValue || s[a].slotIndex != s[b].slotIndex {
      OccurrencesGrow(g, g[b].tier, a, b);
    }
  }

  lemma {:induction false} FirstOccurrence(g: seq<Grant>, tier: int, k: nat) returns (i: nat)
    requires k < |g| && g[k].tier == tier
    ensures i < |g| && g[i].tier == tier && Occurrences(g, tier, i) == 0
  {
    if Occurrences(g, tier, k) == 0 {
      i := k;
    } else {
      var j := EarlierOccurrence(g, tier, k);
      i := FirstOccurrence(g, tier, j);
    }
  }

  lemma {:induction false} EarlierOccurrence(g: seq<Grant>, tier: int, k: nat) returns (j: nat)
    requires k <= |g| && Occurrences(g, tier, k) > 0
    ensures j < k && g[j].tier == tier
  {
    if g[k - 1].tier == tier {
      j := k - 1;
    } else {
      j := EarlierOccurrence(g, tier, k - 1);
    }
  }

  lemma {:induction false} CountIsOccurrences(g: seq<Grant>, tier: int, k: nat)
    requires k <= |g|
    ensures TierCount(SlotsOf(g), tier, k) == Occurrences(g, tier, k)
  {
    if k > 0 {
      CountIsOccurrences(g, tier, k - 1);
    }
  }

  /** Indexes of a tier run from 0 up to, but not including, the number of its slots. */
  lemma NumberedFromZero(g: seq<Grant>)
    ensures var s := SlotsOf(g);
            StartsAtZero(s) && forall i :: 0 <= i < |s| ==> 0 <= s[i].slotIndex < TierCount(s, s[i].tierValue, |s|)
  {
    var s := SlotsOf(g);
    forall i | 0 <= i < |s|
      ensures HasZero(s, s[i].tierValue) && 0 <= s[i].slotIndex < TierCount(s, s[i].tierValue, |s|)
    {
      var j := FirstOccurrence(g, g[i].tier, i);
      assert s[j].tierValue == s[i].tierValue && s[j].slotIndex == 0;
      OccurrencesGrow(g, g[i].tier, i, |g|);
      CountIsOccurrences(g, g[i].tier, |g|);
    }
  }

  // ------------------------------------------------------------------------- the tier of a slot

  /** A multiple of the platform's increment. */
  predicate IsTier(y: int) { y % 5000 == 0 }

  /** What the talent's category produces in a cycle is worth a tier of y at the maximum cost. */
  ghost predicate OutputCovers(t: Talent, campaign: Campaign, y: int) {
    var daily := if t.category == "student" then 2.0 else if t.category == "micro" then 5.0
                 else if t.category == "community" then 15.0 else 2.0;
    y as real <= daily * campaign.cycleLength as real * campaign.maxCpa
  }

  /** min is the least tier that funds a conversion at target cost. */
  ghost predicate LeastTier(campaign: Campaign, min: int) {
    IsTier(min) && forall y :: IsTier(y) ==> (campaign.targetCpa <= y as real <==> min <= y)
  }

  /** The whole-naira budget is divided into as many parts as it funds at the least tier, but no more than there
      are talents. */
  ghost predicate Divides(budget: int, min: int, active: nat, parts: nat) {
    0 < parts <= active && parts * min <= budget && (parts == active || budget < (parts + 1) * min)
  }

  /** tier is the greatest that an equal part of the budget, the talent's positive ceiling and its output all
      cover, or the least tier if none above it is. */
  ghost predicate SizedFor(t: Talent, campaign: Campaign, budget: int, min: int, parts: nat, tier: int) {
    && IsTier(tier) && min <= tier
    && forall y :: IsTier(y) && y > min ==>
         (y <= tier <==> y * parts <= budget && (t.maxTier > 0 ==> y <= t.maxTier) && OutputCovers(t, campaign, y))
  }

  lemma MinTierIsLeast(campaign: Campaign)
    requires campaign.targetCpa > 0.0
    ensures LeastTier(campaign, MinTier(campaign))
  {
    var steps := Ceil(campaign.targetCpa / INCREMENT as real);
    forall y | IsTier(y) ensures campaign.targetCpa <= y as real <==> MinTier(campaign) <= y {
      var k := y / INCREMENT;
      MultipleOf(y, INCREMENT, k);
      DivBounds(campaign.targetCpa, INCREMENT as real, k as real);
      assert y as real == k as real * INCREMENT as real;
      assert steps <= k <==> steps * INCREMENT <= k * INCREMENT;
    }
  }

  lemma FairIsShare(budget: int, capacity: nat, y: int)
    requires budget >= 0 && capacity > 0 && IsTier(y)
    ensures y <= FairBudget(budget, capacity) <==> y * capacity <= budget
  {
    var share := budget / capacity;
    assert share * capacity <= budget < (share + 1) * capacity;
    if y <= share {
      DownToIsGreatest(share, INCREMENT, y);
      IntMulMonotone(y, share, capacity);
    } else {
      IntMulMonotone(share + 1, y, capacity);
    }
  }

  lemma DemandCovers(t: Talent, campaign: Campaign, y: int)
    requires campaign.maxCpa > 0.0 && IsTier(y) && y > 0
    ensures y <= DemandTier(CategoryPdc(t.category) as real, campaign.cycleLength, campaign.maxCpa, INCREMENT) <==>
            OutputCovers(t, campaign, y)
  {
    var pdc, days := CategoryPdc(t.category) as real, campaign.cycleLength as real;
    if campaign.cycleLength > 0 {
      DemandTierIsGreatest(pdc, campaign.cycleLength, campaign.maxCpa, INCREMENT, y);
    } else {
      hide DemandTier;
      MulNonNegative(pdc, -days);
      MulNonNegative(pdc * -days, campaign.maxCpa);
      assert pdc * days * campaign.maxCpa == -(pdc * -days * campaign.maxCpa);
      NoDays(pdc, campaign.cycleLength, campaign.maxCpa);
    }
  }

  lemma NoDays(pdc: real, cycleLength: int, maxCpa: real)
    requires cycleLength <= 0
    ensures DemandTier(pdc, cycleLength, maxCpa, INCREMENT) == 0
  {
  }

  lemma OfferIsGreatest(t: Talent, campaign: Campaign, min: int, budget: int, parts: nat)
    requires IsTier(min) && min > 0 && campaign.maxCpa > 0.0 && budget >= 0 && parts > 0
    requires min <= Offer(t, campaign, min, FairBudget(budget, parts))
    ensures SizedFor(t, campaign, budget, min, parts, Offer(t, campaign, min, FairBudget(budget, parts)))
  {
    hide OutputCovers, DemandTier, FairBudget, CategoryPdc;
    var fair := FairBudget(budget, parts);
    forall y | IsTier(y) && y > min
      ensures y <= Offer(t, campaign, min, fair) <==>
              y * parts <= budget && (t.maxTier > 0 ==> y <= t.maxTier) && OutputCovers(t, campaign, y)
    {
      FairIsShare(budget, parts, y);
      DemandCovers(t, campaign, y);
      if y <= t.maxTier {
        DownToIsGreatest(t.maxTier, INCREMENT, y);
      }
    }
  }

  /** The talent's ceiling, if set, leaves room for the least useful tier. */
  predicate Fundable(t: Talent, minTier: int) { t.maxTier <= 0 || t.maxTier >= minTier }

  lemma OfferIsUseful(t: Talent, campaign: Campaign, minTier: int, fair: int)
    requires minTier % INCREMENT == 0 && fair % INCREMENT == 0 && minTier <= fair
    ensures Offer(t, campaign, minTier, fair) >= minTier <==> Fundable(t, minTier)
  {
    if t.maxTier >= minTier {
      DownToIsGreatest(t.maxTier, INCREMENT, minTier);
    }
  }

  lemma FairFundsOne(budget: int, capacity: int, minTier: int)
    requires budget >= 0 && capacity > 0 && minTier % INCREMENT == 0 && capacity * minTier <= budget
    ensures minTier <= FairBudget(budget, capacity)
  {
    var share := budget / capacity;
    assert budget < capacity * (share + 1);
    if share < minTier { IntMulMonotone(share + 1, minTier, capacity); }
    DownToIsGreatest(share, INCREMENT, minTier);
  }

  /** Every successful allocation: the tiers fit the cycle budget, each is a multiple of the increment that
      funds a target-cost conversion, no key is used twice, the indexes of a tier are exactly 0 up to the number
      of its slots, nothing is allocated yet, and each slot belongs to a talent of its own, within that
      talent's positive ceiling. */
  lemma AllocationFits(budget: real, campaign: Campaign, talents: seq<Talent>) returns (owners: seq<nat>)
    requires Build(budget, campaign, talents).Ok?
    ensures var slots, active := Build(budget, campaign, talents).value, Active(talents, |talents|);
            && (slots != [] ==> TierSum(slots, |slots|) as real <= budget)
            && KeysUnique(slots) && StartsAtZero(slots) && |owners| == |slots| <= |active|
            && (forall i :: 0 <= i < |slots| ==>
                  && slots[i].tierValue % INCREMENT == 0 && campaign.targetCpa <= slots[i].tierValue as real
                  && 0 < slots[i].tierValue <= MAX_INT32 && !slots[i].taken)
            && (forall i :: 0 <= i < |slots| ==>
                 0 <= slots[i].slotIndex < TierCount(slots, slots[i].tierValue, |slots|))
            && (forall i :: 0 <= i < |owners| ==> owners[i] < |active|)
            && (forall i, j :: 0 <= i < j < |owners| ==> owners[i] < owners[j])
            && (forall i :: 0 <= i < |owners| ==>
                  active[owners[i]].maxTier > 0 ==> slots[i].tierValue <= active[owners[i]].maxTier)
  {
    hide Offer, Grants, Occurrences, MinTier, Capacity, FairBudget, KeysUnique, GrantsOk, Active, StartsAtZero,
      TierCount;
    var active := Active(talents, |talents|);
    if active == [] {
      NumberedUniquely([]);
      NumberedFromZero([]);
      assert SlotsOf([]) == [];
      return [];
    }
    var whole, minTier := Floor(budget), MinTier(campaign);
    var capacity := Capacity(whole, minTier, |active|);
    var fair := FairBudget(whole, capacity);
    GrantsAreOffers(active, campaign, minTier, fair, capacity, |active|);
    var g := Grants(active, campaign, minTier, fair, capacity, |active|).value;
    NumberedFromZero(g);
    owners := GrantedSlotsFit(active, campaign, minTier, fair, capacity, g);
  }

  lemma GrantedSlotsFit(active: seq<Talent>, campaign: Campaign, minTier: int, fair: int, capacity: nat, g: seq<Grant>)
    returns (owners: seq<nat>)
    requires minTier % INCREMENT == 0 && fair % INCREMENT == 0 && minTier > 0 && fair >= 0
    requires |g| <= capacity && GrantsOk(active, campaign, minTier, fair, g, |active|)
    ensures var slots := SlotsOf(g);
            && TierSum(slots, |slots|) <= capacity * fair
            && KeysUnique(slots) && |owners| == |slots|
            && (forall i :: 0 <= i < |slots| ==>
                  && slots[i].tierValue % INCREMENT == 0 && minTier <= slots[i].tierValue <= MAX_INT32
                  && slots[i].slotIndex >= 0 && !slots[i].taken)
            && (forall i :: 0 <= i < |owners| ==> owners[i] < |active|)
            && (forall i, j :: 0 <= i < j < |owners| ==> owners[i] < owners[j])
            && (forall i :: 0 <= i < |owners| ==>
                  active[owners[i]].maxTier > 0 ==> slots[i].tierValue <= active[owners[i]].maxTier)
  {
    hide Offer, Occurrences, KeysUnique, TierSum;
    NumberedUniquely(g);
    GrantedSum(active, campaign, minTier, fair, capacity, g);
    owners := seq(|g|, i requires 0 <= i < |g| => g[i].owner);
  }

  lemma GrantedSum(active: seq<Talent>, campaign: Campaign, minTier: int, fair: int, capacity: nat, g: seq<Grant>)
    requires minTier % INCREMENT == 0 && fair % INCREMENT == 0 && fair >= 0
    requires |g| <= capacity && GrantsOk(active, campaign, minTier, fair, g, |active|)
    ensures TierSum(SlotsOf(g), |g|) <= capacity * fair
  {
    hide Occurrences, TierSum, Offer;
    forall i | 0 <= i < |g| ensures SlotsOf(g)[i].tierValue <= fair {
      assert g[i].tier == Offer(active[g[i].owner], campaign, minTier, fair);
    }
    SumAtMost(SlotsOf(g), fair, |g|);
    IntMulMonotone(|g|, capacity, fair);
  }

  // ------------------------------------------------------------------ whose slots, and how large

  lemma GrantsSized(active: seq<Talent>, campaign: Campaign, budget: int, min: int, parts: nat, g: seq<Grant>)
    requires IsTier(min) && min > 0 && campaign.maxCpa > 0.0 && budget >= 0 && parts > 0
    requires GrantsOk(active, campaign, min, FairBudget(budget, parts), g, |active|)
    ensures forall i :: 0 <= i < |g| ==> SizedFor(active[g[i].owner], campaign, budget, min, parts, g[i].tier)
  {
    hide Offer, FairBudget, SizedFor;
    forall i | 0 <= i < |g| ensures SizedFor(active[g[i].owner], campaign, budget, min, parts, g[i].tier) {
      OfferIsGreatest(active[g[i].owner], campaign, min, budget, parts);
    }
  }

  ghost predicate Owns(g: seq<Grant>, k: nat) { exists i :: 0 <= i < |g| && g[i].owner == k }

  /** Nobody whose ceiling admits a target-cost conversion is passed over before the slots run out. */
  lemma {:induction false} InOrder(active: seq<Talent>, campaign: Campaign, minTier: int, fair: int,
      capacity: nat, k: nat)
    requires minTier % INCREMENT == 0 && fair % INCREMENT == 0 && minTier <= fair && k <= |active|
    requires Grants(active, campaign, minTier, fair, capacity, k).Some?
    ensures var g := Grants(active, campaign, minTier, fair, capacity, k).value;
            forall j: nat :: j < k && !Owns(g, j) && Fundable(active[j], minTier) ==>
              |g| == capacity && forall i :: 0 <= i < |g| ==> g[i].owner < j
  {
    hide Offer, Fundable;
    if k > 0 {
      InOrder(active, campaign, minTier, fair, capacity, k - 1);
      GrantsAreOffers(active, campaign, minTier, fair, capacity, k - 1);
      OfferIsUseful(active[k - 1], campaign, minTier, fair);
      var before := Grants(active, campaign, minTier, fair, capacity, k - 1).value;
      var g := Grants(active, campaign, minTier, fair, capacity, k).value;
      if g != before {
        assert g[|before|].owner == k - 1;
      }
      forall j: nat | Owns(before, j) ensures Owns(g, j) {
        var i :| 0 <= i < |before| && before[i].owner == j;
        assert g[i] == before[i];
      }
    }
  }

  /** Every successful allocation, slot by slot: the owners are the first talents in the list whose ceiling
      admits the least useful tier, and each gets the greatest tier that its part of the budget, its ceiling and
      its output cover, or else that least tier. */
  lemma TiersAreGreatest(budget: real, campaign: Campaign, talents: seq<Talent>)
    returns (owners: seq<nat>, min: int, parts: nat)
    requires Build(budget, campaign, talents).Ok? && Active(talents, |talents|) != []
    ensures var slots, active := Build(budget, campaign, talents).value, Active(talents, |talents|);
            && LeastTier(campaign, min) && Divides(Floor(budget), min, |active|, parts) && |owners| == |slots|
            && (forall i :: 0 <= i < |owners| ==>
                  && owners[i] < |active| && Fundable(active[owners[i]], min)
                  && SizedFor(active[owners[i]], campaign, Floor(budget), min, parts, slots[i].tierValue))
            && (forall i, j :: 0 <= i < j < |owners| ==> owners[i] < owners[j])
            && (forall k: nat :: k < |active| && k !in owners && Fundable(active[k], min) ==>
                  |owners| == parts && forall i :: 0 <= i < |owners| ==> owners[i] < k)
  {
    hide Offer, Grants, Occurrences, MinTier, Capacity, FairBudget, Active, SizedFor, LeastTier, Fundable, SlotsOf;
    var active, whole := Active(talents, |talents|), Floor(budget);
    min := MinTier(campaign);
    parts := Capacity(whole, min, |active|);
    var fair := FairBudget(whole, parts);
    var g := Grants(active, campaign, min, fair, parts, |active|).value;
    MinTierIsLeast(campaign);
    FairFundsOne(whole, parts, min);
    GrantsAreOffers(active, campaign, min, fair, parts, |active|);
    InOrder(active, campaign, min, fair, parts, |active|);
    GrantsSized(active, campaign, whole, min, parts, g);
    owners := OwnersOf(active, campaign, min, fair, g);
  }

  lemma OwnersOf(active: seq<Talent>, campaign: Campaign, min: int, fair: int, g: seq<Grant>) returns (owners: seq<nat>)
    requires IsTier(min) && IsTier(fair) && min <= fair && GrantsOk(active, campaign, min, fair, g, |active|)
    ensures |owners| == |g| == |SlotsOf(g)|
    ensures forall i :: 0 <= i < |g| ==>
              && owners[i] == g[i].owner < |active| && SlotsOf(g)[i].tierValue == g[i].tier
              && Fundable(active[g[i].owner], min)
    ensures forall i, j :: 0 <= i < j < |owners| ==> owners[i] < owners[j]
    ensures forall k: nat :: Owns(g, k) ==> k in owners
  {
    hide Offer, Fundable;
    owners := seq(|g|, i requires 0 <= i < |g| => g[i].owner);
    forall i | 0 <= i < |g| ensures Fundable(active[g[i].owner], min) {
      OfferIsUseful(active[g[i].owner], campaign, min, fair);
    }
    forall k: nat | Owns(g, k) ensures k in owners {
      var i :| 0 <= i < |g| && g[i].owner == k;
      assert owners[i] == k;
    }
  }

  /** r lists exactly the active ones among the first k talents, in the order of the list. */
  ghost predicate KeepsActive(talents: seq<Talent>, k: nat, r: seq<Talent>, positions: seq<nat>)
    requires k <= |talents|
  {
    && |positions| == |r|
    && (forall i :: 0 <= i < |r| ==>
          positions[i] < k && r[i] == talents[positions[i]] && talents[positions[i]].status == "active")
    && (forall i, j :: 0 <= i < j < |positions| ==> positions[i] < positions[j])
    && (forall p :: 0 <= p < k && talents[p].status == "active" ==> Listed(positions, p))
  }

  ghost predicate Listed(positions: seq<nat>, p: nat) { exists i :: 0 <= i < |positions| && positions[i] == p }

  lemma {:induction false} ActivePositions(talents: seq<Talent>, k: nat) returns (positions: seq<nat>)
    requires k <= |talents|
    ensures KeepsActive(talents, k, Active(talents, k), positions)
  {
    hide KeepsActive;
    positions := [];
    if k == 0 {
      NobodyYet(talents);
    } else {
      positions := ActivePositions(talents, k - 1);
      OneMoreTalent(talents, k, Active(talents, k - 1), positions);
      if talents[k - 1].status == "active" {
        positions := positions + [k - 1];
      }
    }
  }

  lemma NobodyYet(talents: seq<Talent>)
    ensures KeepsActive(talents, 0, [], [])
  {
  }

  lemma OneMoreTalent(talents: seq<Talent>, k: nat, r: seq<Talent>, positions: seq<nat>)
    requires 0 < k <= |talents| && KeepsActive(talents, k - 1, r, positions)
    ensures if talents[k - 1].status == "active" then KeepsActive(talents, k, r + [talents[k - 1]], positions + [k - 1])
            else KeepsActive(talents, k, r, positions)
  {
    if talents[k - 1].status == "active" {
      var next := positions + [k - 1];
      assert next[|positions|] == k - 1;
      forall p: nat | Listed(positions, p) ensures Listed(next, p) {
        var i :| 0 <= i < |positions| && positions[i] == p;
        assert next[i] == p;
      }
    }
  }

  /** When an allocation succeeds, for budgets in the stored range: nobody is active, or the costs per
      conversion are in order and the whole-naira budget funds the least useful tier. */
  lemma WhenSlotsAreBuilt(budget: real, campaign: Campaign, talents: seq<Talent>)
    requires budget <= MAX_INT32 as real
    ensures Build(budget, campaign, talents).Ok? <==>
      || (forall i :: 0 <= i < |talents| ==> talents[i].status != "active")
      || (0.0 < campaign.targetCpa <= campaign.maxCpa && MinTier(campaign) as real <= budget)
  {
    hide Offer, Active, MinTier, FairBudget, Grants;
    var active, whole := Active(talents, |talents|), Floor(budget);
    var positions := ActivePositions(talents, |talents|);
    if active == [] {
      assert forall p: nat :: p < |talents| ==> !Listed(positions, p);
    } else {
      assert talents[positions[0]].status == "active";
      if 0.0 < campaign.targetCpa <= campaign.maxCpa <= campaign.maxCpa && campaign.targetCpa <= budget {
        var min := MinTier(campaign);
        var capacity := Capacity(whole, min, |active|);
        assert capacity == 0 <==> whole < min by { CapacityIsZero(whole, min, |active|); }
        if capacity > 0 {
          SmallBudgetFits(active, campaign, min, whole, capacity, |active|);
        }
      }
    }
  }

  lemma CapacityIsZero(budget: int, minTier: int, active: nat)
    requires budget >= 0 && minTier > 0 && active > 0
    ensures Capacity(budget, minTier, active) == 0 <==> budget < minTier
  {
    var c := Capacity(budget, minTier, active);
    if c >= 1 {
      MulGrows(c, minTier);
    }
  }

  lemma {:induction false} SmallBudgetFits(active: seq<Talent>, campaign: Campaign, minTier: int, budget: int,
      capacity: nat, k: nat)
    requires IsTier(minTier) && 0 <= budget <= MAX_INT32 && capacity > 0 && k <= |active|
    ensures Grants(active, campaign, minTier, FairBudget(budget, capacity), capacity, k).Some?
  {
    hide Offer, FairBudget;
    if k > 0 {
      SmallBudgetFits(active, campaign, minTier, budget, capacity, k - 1);
      var fair := FairBudget(budget, capacity);
      MulGrows(capacity, 1);
      IntMulMonotone(1, capacity, fair);
      assert fair <= budget;
    }
  }

  // ------------------------------------------------------------------------- how many slots

  function FundableCount(active: seq<Talent>, minTier: int, k: nat): (n: nat)
    requires k <= |active|
    ensures n <= k
  {
    if k == 0 then 0 else FundableCount(active, minTier, k - 1) + if Fundable(active[k - 1], minTier) then 1 else 0
  }

  lemma {:induction false} GrantCount(active: seq<Talent>, campaign: Campaign, minTier: int, fair: int,
      capacity: nat, k: nat)
    requires minTier % INCREMENT == 0 && fair % INCREMENT == 0 && minTier <= fair && k <= |active|
    requires Grants(active, campaign, minTier, fair, capacity, k).Some?
    ensures var n := FundableCount(active, minTier, k);
            |Grants(active, campaign, minTier, fair, capacity, k).value| == if n < capacity then n else capacity
  {
    hide Offer, Fundable;
    if k > 0 {
      GrantCount(active, campaign, minTier, fair, capacity, k - 1);
      OfferIsUseful(active[k - 1], campaign, minTier, fair);
    }
  }

  /** No slot is left out: a successful allocation makes one for every active talent whose ceiling admits a
      target-cost conversion, or as many as the whole-naira budget funds, whichever is less. */
  lemma SlotCount(budget: real, campaign: Campaign, talents: seq<Talent>)
    requires Build(budget, campaign, talents).Ok? && Active(talents, |talents|) != []
    ensures campaign.targetCpa > 0.0
    ensures var active, minTier := Active(talents, |talents|), MinTier(campaign);
            var funded, fundable := Floor(budget) / minTier, FundableCount(active, minTier, |active|);
            |Build(budget, campaign, talents).value| == if funded < fundable then funded else fundable
  {
    hide Offer, Grants, Occurrences, MinTier, FairBudget, Active, FundableCount;
    var active, whole, minTier := Active(talents, |talents|), Floor(budget), MinTier(campaign);
    var capacity := Capacity(whole, minTier, |active|);
    FairFundsOne(whole, capacity, minTier);
    GrantCount(active, campaign, minTier, FairBudget(whole, capacity), capacity, |active|);
  }
}
