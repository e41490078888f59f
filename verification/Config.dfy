/** internal/algo/config.go: the cycle configuration and its admissible tiers. */
module Config {
  import opened Numbers
  import opened Results

  datatype CycleConfig = CycleConfig(
    maxTierCap: int, minTier: int, tierIncrement: int, budgetSharePct: real, scoreCapPct: real)

  const DEFAULT := CycleConfig(55000, 5000, 5000, 0.25, 1.5)

  /** The first complaint, if any. */
  function Validate(c: CycleConfig): Option<string> {
    if c.maxTierCap <= 0 then Some("max_tier_cap must be positive")
    else if c.minTier <= 0 then Some("min_tier must be positive")
    else if c.tierIncrement <= 0 then Some("tier_increment must be positive")
    else if c.minTier > c.maxTierCap then Some("min_tier exceeds max_tier_cap")
    else if c.minTier % c.tierIncrement != 0 then Some("min_tier must be a multiple of tier_increment")
    else if c.maxTierCap % c.tierIncrement != 0 then Some("max_tier_cap must be a multiple of tier_increment")
    else if c.budgetSharePct <= 0.0 || c.budgetSharePct > 1.0 then Some("budget_share_pct must be in (0, 1]")
    else if c.scoreCapPct <= 0.0 || c.scoreCapPct > 10.0 then Some("score_cap_pct must be in (0, 10]")
    else None
  }

  predicate Valid(c: CycleConfig) { Validate(c) == None }

  /** The tiers from minTier up to the cap: exactly the multiples of the increment in that range when the
      configuration is valid. */
  method ValidTiers(cfg: CycleConfig) returns (tiers: seq<int>)
    ensures cfg.tierIncrement <= 0 || cfg.minTier <= 0 || cfg.maxTierCap <= 0 ==> tiers == []
    ensures forall a, b :: 0 <= a < b < |tiers| ==> tiers[a] < tiers[b]
    ensures Valid(cfg) ==>
      forall v :: v in tiers <==> cfg.minTier <= v <= cfg.maxTierCap && v % cfg.tierIncrement == 0
  {
    if cfg.tierIncrement <= 0 || cfg.minTier <= 0 || cfg.maxTierCap <= 0 {
      return [];
    }
    var inc := cfg.tierIncrement;
    tiers := [];
    var v := cfg.minTier;
    while v <= cfg.maxTierCap
      invariant cfg.minTier <= v
      invariant forall a :: 0 <= a < |tiers| ==> cfg.minTier <= tiers[a] < v
      invariant forall a, b :: 0 <= a < b < |tiers| ==> tiers[a] < tiers[b]
      invariant Valid(cfg) ==> v % inc == 0
      invariant Valid(cfg) ==> forall w :: w in tiers <==> cfg.minTier <= w < v && w <= cfg.maxTierCap && w % inc == 0
      decreases cfg.maxTierCap - v
    {
      ghost var before := tiers;
      tiers := tiers + [v];
      if Valid(cfg) {
        forall w ensures w in tiers <==> cfg.minTier <= w < v + inc && w <= cfg.maxTierCap && w % inc == 0 {
          assert w in tiers <==> w in before || w == v;
          NoMultipleBetween(v, w, inc);
        }
        assert (v + inc) % inc == 0 by { NextMultiple(v, inc); }
      }
      v := v + inc;
    }
  }

  lemma NextMultiple(v: int, inc: int)
    requires inc > 0 && v % inc == 0
    ensures (v + inc) % inc == 0
  {
    MultipleOf(inc, inc, 1);
    MultipleSum(v, inc, inc);
  }

  lemma NoMultipleBetween(v: int, w: int, inc: int)
    requires inc > 0 && v % inc == 0
    ensures v < w < v + inc ==> w % inc != 0
  {
    if v < w < v + inc && w % inc == 0 {
      MultipleSum(w, v, inc);
      MultipleOf(w - v, inc, (w - v) / inc);
      SmallMultiple((w - v) / inc, inc);
      assert false;
    }
  }
}
