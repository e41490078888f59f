/** internal/allocation/slots.go: the automatic budget slots of a cycle. */
module Slots {
  import opened Numbers
  import opened Results
  import opened Qualifier
  import Config

  datatype Campaign = Campaign(
    totalBudget: real, remainingBudget: real, targetCpa: real, maxCpa: real, cycleLength: int)

  datatype Talent = Talent(id: string, status: string, category: string, maxTier: int)

  datatype Slot = Slot(tierValue: int, slotIndex: int, taken: bool)

  const MAX_INT32 := 0x7FFF_FFFF

  function ValidateCycle(cycleBudget: real, campaign: Campaign): Option<string> {
    if campaign.targetCpa <= 0.0 || campaign.maxCpa <= 0.0 then Some("invalid_campaign_cpa")
    else if campaign.targetCpa > campaign.maxCpa then Some("target_cpa_exceeds_max_cpa")
    else if cycleBudget < campaign.targetCpa then Some("cycle_budget_below_target_cpa")
    else None
  }

  function CategoryPdc(category: string): int {
    if category == "student" then 2
    else if category == "micro" then 5
    else if category == "community" then 15
    else 2
  }

  const INCREMENT := Config.DEFAULT.tierIncrement

  function Active(talents: seq<Talent>, k: nat): (r: seq<Talent>)
    requires k <= |talents|
    ensures |r| <= k
    ensures forall t :: t in r ==> t in talents && t.status == "active"
  {
    if k == 0 then []
    else if talents[k - 1].status == "active" then Active(talents, k - 1) + [talents[k - 1]]
    else Active(talents, k - 1)
  }

  // ----------------------------------------------------------------------- the sizing of a slot

  /** The least tier that funds one conversion at target cost. */
  function MinTier(campaign: Campaign): (tier: int)
    requires campaign.targetCpa > 0.0
    ensures tier % INCREMENT == 0 && tier > 0 && campaign.targetCpa <= tier as real
  {
    var steps := Ceil(campaign.targetCpa / INCREMENT as real);
    MultipleOf(steps * INCREMENT, INCREMENT, steps);
    steps * INCREMENT
  }

  /** How many slots the cycle can hold. */
  function Capacity(budget: int, minTier: int, active: nat): (c: int)
    requires budget >= 0 && minTier > 0
    ensures 0 <= c <= active && c * minTier <= budget && (c == active || budget < (c + 1) * minTier)
  {
    var c := budget / minTier;
    assert c * minTier <= budget;
    if c > active then
      IntMulMonotone(active, c, minTier);
      active
    else c
  }

  /** The equal share per slot, rounded down to the increment. */
  function FairBudget(budget: int, capacity: int): (fair: int)
    requires budget >= 0 && capacity > 0
    ensures fair % INCREMENT == 0 && 0 <= fair && capacity * fair <= budget
  {
    var share := budget / capacity;
    assert capacity * share <= budget && share >= 0;
    var fair := DownTo(share, INCREMENT);
    DownToIsGreatest(share, INCREMENT, 0);
    IntMulMonotone(fair, share, capacity);
    fair
  }

  /** The tier a talent is offered. */
  function Offer(talent: Talent, campaign: Campaign, minTier: int, fair: int): (tier: int)
    requires minTier % INCREMENT == 0 && fair % INCREMENT == 0
    ensures tier % INCREMENT == 0 && tier <= fair
    ensures talent.maxTier > 0 ==> tier <= talent.maxTier
  {
    var demand := DemandTier(CategoryPdc(talent.category) as real, campaign.cycleLength, campaign.maxCpa, INCREMENT);
    var natural := if demand < minTier then minTier else demand;
    var tier := if natural > fair then fair else natural;
    if talent.maxTier > 0 && tier > talent.maxTier then DownTo(talent.maxTier, INCREMENT) else tier
  }

  // -------------------------------------------------------------------------------- the grants

  /** A granted tier and the position of its owner among the active talents. */
  datatype Grant = Grant(owner: nat, tier: int)

  /** The grants among the first k active talents, or None when a tier leaves the stored range. */
  function Grants(active: seq<Talent>, campaign: Campaign, minTier: int, fair: int, capacity: nat, k: nat)
    : Option<seq<Grant>>
    requires minTier % INCREMENT == 0 && fair % INCREMENT == 0 && k <= |active|
  {
    if k == 0 then Some([])
    else
      var before := Grants(active, campaign, minTier, fair, capacity, k - 1);
      if before.None? || |before.value| == capacity then before
      else
        var tier := Offer(active[k - 1], campaign, minTier, fair);
        if tier > MAX_INT32 then None
        else if tier < minTier then before
        else Some(before.value + [Grant(k - 1, tier)])
  }

  function Occurrences(g: seq<Grant>, tier: int, k: nat): nat
    requires k <= |g|
  {
    if k == 0 then 0 else Occurrences(g, tier, k - 1) + if g[k - 1].tier == tier then 1 else 0
  }

  /** Slots of the same tier are numbered from 0 in order. */
  function SlotsOf(g: seq<Grant>): (s: seq<Slot>) {
    seq(|g|, i requires 0 <= i < |g| => Slot(g[i].tier, Occurrences(g, g[i].tier, i), false))
  }

  function Build(budget: real, campaign: Campaign, talents: seq<Talent>): Result<seq<Slot>> {
    var active := Active(talents, |talents|);
    if active == [] then Ok([])
    else
      match ValidateCycle(budget, campaign)
      case Some(e) => Err(e)
      case None =>
        var whole, minTier := Floor(budget), MinTier(campaign);
        var capacity := Capacity(whole, minTier, |active|);
        if capacity == 0 then Err("cycle_budget_below_target_cpa")
        else
          match Grants(active, campaign, minTier, FairBudget(whole, capacity), capacity, |active|)
          case None => Err("tier_value_exceeds_supported_range")
          case Some(g) => Ok(SlotsOf(g))
  }

  method BuildBudgetSlots(budget: real, campaign: Campaign, talents: seq<Talent>) returns (r: Result<seq<Slot>>)
    ensures r == Build(budget, campaign, talents)
  {
    hide Offer, MinTier, Capacity, FairBudget;
    var active: seq<Talent> := [];
    for i := 0 to |talents|
      invariant active == Active(talents, i)
    {
      if talents[i].status == "active" {
        active := active + [talents[i]];
      }
    }
    if |active| == 0 {
      return Ok([]);
    }
    var invalid := ValidateCycle(budget, campaign);
    if invalid.Some? {
      return Err(invalid.value);
    }
    var minTier := MinTier(campaign);
    var capacity := Capacity(Floor(budget), minTier, |active|);
    if capacity == 0 {
      return Err("cycle_budget_below_target_cpa");
    }
    var fair := FairBudget(Floor(budget), capacity);
    r := GrantSlots(active, campaign, minTier, fair, capacity);
  }

  /** The loop over the active talents. */
  method GrantSlots(active: seq<Talent>, campaign: Campaign, minTier: int, fair: int, capacity: nat)
    returns (r: Result<seq<Slot>>)
    requires minTier % INCREMENT == 0 && fair % INCREMENT == 0 && capacity > 0
    ensures r == match Grants(active, campaign, minTier, fair, capacity, |active|)
                 case None => Err("tier_value_exceeds_supported_range")
                 case Some(g) => Ok(SlotsOf(g))
  {
    hide Offer;
    var slots: seq<Slot> := [];
    var tierIndexes: map<int, int> := map[];
    ghost var g: seq<Grant> := [];
    for i := 0 to |active|
      invariant Grants(active, campaign, minTier, fair, capacity, i) == Some(g)
      invariant slots == SlotsOf(g) && |g| < capacity
      invariant forall tier :: (if tier in tierIndexes then tierIndexes[tier] else 0) == Occurrences(g, tier, |g|)
    {
      var tier := Offer(active[i], campaign, minTier, fair);
      if tier > MAX_INT32 {
        GrantsFinal(active, campaign, minTier, fair, capacity, i + 1, |active|);
        return Err("tier_value_exceeds_supported_range");
      }
      if tier < minTier {
        continue;
      }
      var index := if tier in tierIndexes then tierIndexes[tier] else 0;
      tierIndexes := tierIndexes[tier := index + 1];
      ghost var h := g + [Grant(i, tier)];
      SlotsOfAppend(g, Grant(i, tier));
      OccurrencesAppend(g, Grant(i, tier));
      slots := slots + [Slot(tier, index, false)];
      g := h;
      if |slots| == capacity {
        GrantsFinal(active, campaign, minTier, fair, capacity, i + 1, |active|);
        return Ok(slots);
      }
    }
    r := Ok(slots);
  }

  lemma {:induction false} OccurrencesPrefix(g: seq<Grant>, e: Grant, tier: int, k: nat)
    requires k <= |g|
    ensures Occurrences(g + [e], tier, k) == Occurrences(g, tier, k)
  {
    if k > 0 {
      OccurrencesPrefix(g, e, tier, k - 1);
    }
  }

  lemma OccurrencesAppend(g: seq<Grant>, e: Grant)
    ensures forall tier :: Occurrences(g + [e], tier, |g| + 1) ==
              Occurrences(g, tier, |g|) + if e.tier == tier then 1 else 0
  {
    forall tier
      ensures Occurrences(g + [e], tier, |g| + 1) == Occurrences(g, tier, |g|) + if e.tier == tier then 1 else 0
    {
      OccurrencesPrefix(g, e, tier, |g|);
    }
  }

  lemma SlotAt(g: seq<Grant>, e: Grant, i: nat)
    requires i < |g|
    ensures SlotsOf(g + [e])[i] == SlotsOf(g)[i]
  {
    hide Occurrences;
    assert (g + [e])[i] == g[i];
    OccurrencesPrefix(g, e, g[i].tier, i);
  }

  lemma SlotsOfAppend(g: seq<Grant>, e: Grant)
    ensures SlotsOf(g + [e]) == SlotsOf(g) + [Slot(e.tier, Occurrences(g, e.tier, |g|), false)]
  {
    hide Occurrences;
    OccurrencesPrefix(g, e, e.tier, |g|);
    var last := Slot(e.tier, Occurrences(g, e.tier, |g|), false);
    assert SlotsOf(g + [e])[|g|] == last;
    assert |SlotsOf(g + [e])| == |g| + 1 && |SlotsOf(g)| == |g|;
    hide SlotsOf;
    forall i | 0 <= i < |g| ensures SlotsOf(g + [e])[i] == (SlotsOf(g) + [last])[i] {
      SlotAt(g, e, i);
    }
  }

  /** Once full, or failed, the grants no longer change. */
  lemma {:induction false} GrantsFinal(active: seq<Talent>, campaign: Campaign, minTier: int, fair: int,
      capacity: nat, i: nat, k: nat)
    requires minTier % INCREMENT == 0 && fair % INCREMENT == 0 && i <= k <= |active|
    requires var g := Grants(active, campaign, minTier, fair, capacity, i); g.None? || |g.value| == capacity
    ensures Grants(active, campaign, minTier, fair, capacity, k) == Grants(active, campaign, minTier, fair, capacity, i)
  {
    if i < k {
      GrantsFinal(active, campaign, minTier, fair, capacity, i, k - 1);
    }
  }
}
