/** internal/algo/cap_suggest.go: proposing the next cycle's configuration from the history. */
module CapSuggest {
  import opened Numbers
  import opened Results
  import opened Config
  import opened Stec

  const MIN_CYCLES := 7

  datatype CycleHistory = CycleHistory(
    cycleBudget: real, config: CycleConfig, remainder: real, utilization: real, avgPerformance: real,
    talentCount: int, unassignedCount: int)

  datatype Direction = Decrease | Maintain | Increase

  datatype Factor = Factor(metric: string, value: real, direction: Direction)

  datatype Suggestion = Suggestion(config: CycleConfig, confidence: real, factors: seq<Factor>, cyclesUsed: nat)

  // ------------------------------------------------------------------------------ the analyses

  /** The last ten cycles. */
  function Recent(history: seq<CycleHistory>): (r: seq<CycleHistory>)
    ensures |r| <= 10 && |r| <= |history|
    ensures history != [] ==> r != []
  {
    if |history| > 10 then history[|history| - 10..] else history
  }

  function Utilizations(h: seq<CycleHistory>): (r: seq<real>)
    ensures |r| == |h|
  {
    seq(|h|, i requires 0 <= i < |h| => h[i].utilization)
  }

  function AnalyzeUtilization(history: seq<CycleHistory>): Factor {
    var vals := Utilizations(Recent(history));
    var half := |vals| / 2;
    var avg, trend := Mean(vals), Mean(vals[half..]) - Mean(vals[..half]);
    Factor("utilization_trend", avg,
           if avg < 0.60 then Decrease
           else if avg > 0.95 then Increase
           else if trend < -0.10 then Decrease else Maintain)
  }

  function WasteRatios(h: seq<CycleHistory>, k: nat): seq<real>
    requires k <= |h|
  {
    if k == 0 then []
    else if h[k - 1].cycleBudget > 0.0 then WasteRatios(h, k - 1) + [h[k - 1].remainder / h[k - 1].cycleBudget]
    else WasteRatios(h, k - 1)
  }

  function AnalyzeWaste(history: seq<CycleHistory>): Factor {
    var recent := Recent(history);
    var ratios := WasteRatios(recent, |recent|);
    if ratios == [] then Factor("waste_ratio", 0.0, Maintain)
    else
      var avg := Mean(ratios);
      Factor("waste_ratio", avg, if avg > 0.30 then Decrease else if avg < 0.05 then Increase else Maintain)
  }

  function UnassignedRates(h: seq<CycleHistory>, k: nat): seq<real>
    requires k <= |h|
  {
    if k == 0 then []
    else if h[k - 1].talentCount > 0 then
      UnassignedRates(h, k - 1) + [h[k - 1].unassignedCount as real / h[k - 1].talentCount as real]
    else UnassignedRates(h, k - 1)
  }

  function AnalyzeUnassignment(history: seq<CycleHistory>): Factor {
    var recent := Recent(history);
    var rates := UnassignedRates(recent, |recent|);
    if rates == [] then Factor("unassignment_rate", 0.0, Maintain)
    else
      var half := if |rates| / 2 == 0 then 1 else |rates| / 2;
      var avg, rising := Mean(rates), Mean(rates[half..]) - Mean(rates[..half]) > 0.05;
      Factor("unassignment_rate", avg, if avg > 0.25 || (rising && avg > 0.10) then Decrease else Maintain)
  }

  function Performances(h: seq<CycleHistory>, k: nat): seq<real>
    requires k <= |h|
  {
    if k == 0 then []
    else if h[k - 1].avgPerformance > 0.0 then Performances(h, k - 1) + [h[k - 1].avgPerformance]
    else Performances(h, k - 1)
  }

  function AnalyzePerformance(history: seq<CycleHistory>): Factor
    requires history != []
  {
    var recent := Recent(history);
    var perfs := Performances(recent, |recent|);
    if perfs == [] then Factor("performance_distribution", 0.0, Maintain)
    else
      var avg := Mean(perfs);
      Factor("performance_distribution", avg,
             if avg >= history[|history| - 1].config.scoreCapPct * 0.90 then Increase
             else if avg < 0.50 then Decrease else Maintain)
  }

  method CollectWaste(recent: seq<CycleHistory>) returns (ratios: seq<real>)
    ensures ratios == WasteRatios(recent, |recent|)
  {
    ratios := [];
    for i := 0 to |recent|
      invariant ratios == WasteRatios(recent, i)
    {
      if recent[i].cycleBudget > 0.0 {
        ratios := ratios + [recent[i].remainder / recent[i].cycleBudget];
      }
    }
  }

  method CollectRates(recent: seq<CycleHistory>) returns (rates: seq<real>)
    ensures rates == UnassignedRates(recent, |recent|)
  {
    rates := [];
    for i := 0 to |recent|
      invariant rates == UnassignedRates(recent, i)
    {
      if recent[i].talentCount > 0 {
        rates := rates + [recent[i].unassignedCount as real / recent[i].talentCount as real];
      }
    }
  }

  method CollectPerformances(recent: seq<CycleHistory>) returns (perfs: seq<real>)
    ensures perfs == Performances(recent, |recent|)
  {
    perfs := [];
    for i := 0 to |recent|
      invariant perfs == Performances(recent, i)
    {
      if recent[i].avgPerformance > 0.0 {
        perfs := perfs + [recent[i].avgPerformance];
      }
    }
  }

  // --------------------------------------------------------------------------- the adjustments

  /** 85 percent of the budget share. */
  function UsualSpend(cfg: CycleConfig, nextBudget: real): real { nextBudget * cfg.budgetSharePct * 0.85 }

  /** What 85 percent of the budget share would fund, rounded down to the increment. */
  function UtilizationCap(cfg: CycleConfig, nextBudget: real): (cap: int)
    requires cfg.tierIncrement > 0
    ensures cap % cfg.tierIncrement == 0
  {
    var steps := Floor(UsualSpend(cfg, nextBudget) / cfg.tierIncrement as real);
    MultipleOf(steps * cfg.tierIncrement, cfg.tierIncrement, steps);
    steps * cfg.tierIncrement
  }

  function ApplyUtilization(cfg: CycleConfig, f: Factor, nextBudget: real): CycleConfig
    requires cfg.tierIncrement > 0
  {
    match f.direction
    case Decrease =>
      var cap := UtilizationCap(cfg, nextBudget);
      if cfg.minTier <= cap < cfg.maxTierCap then cfg.(maxTierCap := cap) else cfg
    case Increase => cfg.(maxTierCap := cfg.maxTierCap + cfg.tierIncrement)
    case Maintain => cfg
  }

  function ApplyWaste(cfg: CycleConfig, f: Factor): CycleConfig {
    match f.direction
    case Decrease => cfg.(budgetSharePct := Max(0.05, cfg.budgetSharePct * 0.90))
    case Increase => cfg.(budgetSharePct := Min(1.0, cfg.budgetSharePct * 1.05))
    case Maintain => cfg
  }

  function ApplyUnassignment(cfg: CycleConfig, f: Factor): CycleConfig {
    if f.direction == Decrease && cfg.minTier > cfg.tierIncrement then cfg.(minTier := cfg.minTier - cfg.tierIncrement)
    else cfg
  }

  function ApplyPerformance(cfg: CycleConfig, f: Factor): CycleConfig {
    match f.direction
    case Increase => cfg.(scoreCapPct := Min(10.0, cfg.scoreCapPct + 0.25))
    case Decrease =>
      var cap := cfg.maxTierCap - cfg.tierIncrement;
      if cap >= cfg.minTier then cfg.(maxTierCap := cap) else cfg
    case Maintain => cfg
  }

  function RoundToIncrement(val: int, increment: int): (r: int)
    ensures increment > 0 ==> r % increment == 0
    ensures increment > 0 && val >= 0 ==> r <= val < r + increment
    ensures increment > 0 && val % increment == 0 ==> r == val
  {
    if increment <= 0 then val
    else
      var k := TruncDiv(val, increment);
      MultipleOf(k * increment, increment, k);
      TruncExact(val, increment);
      k * increment
  }

  lemma TruncExact(val: int, m: int)
    requires m > 0
    ensures val % m == 0 ==> TruncDiv(val, m) * m == val
  {
    if val % m == 0 {
      MultipleOf(val, m, val / m);
      if val < 0 {
        MultipleOf(-val, m, -(val / m));
        assert (-(val / m)) * m == -val;
      }
    }
  }

  function Clamp(x: real, low: real, high: real): (r: real)
    requires low <= high
    ensures low <= r <= high
    ensures r == x <==> low <= x <= high
  {
    if x < low then low else if x > high then high else x
  }

  function ClampConfig(cfg: CycleConfig): (r: CycleConfig) {
    var minTier := if cfg.minTier < cfg.tierIncrement then cfg.tierIncrement else cfg.minTier;
    var maxTier := if cfg.maxTierCap < minTier then minTier else cfg.maxTierCap;
    var roundedMin := RoundToIncrement(minTier, cfg.tierIncrement);
    var roundedMax := RoundToIncrement(maxTier, cfg.tierIncrement);
    CycleConfig(if roundedMax < roundedMin then roundedMin else roundedMax, roundedMin, cfg.tierIncrement,
                Clamp(cfg.budgetSharePct, 0.05, 1.0), Clamp(cfg.scoreCapPct, 0.5, 10.0))
  }

  // ---------------------------------------------------------------------------- the suggestion

  function MaintainCount(fs: seq<Factor>, k: nat): (c: nat)
    requires k <= |fs|
    ensures c <= k
  {
    if k == 0 then 0 else MaintainCount(fs, k - 1) + if fs[k - 1].direction == Maintain then 1 else 0
  }

  function Confidence(cycles: nat, fs: seq<Factor>): real {
    var base := 0.5 + Min(0.3, (cycles - MIN_CYCLES) as real * 0.03);
    var steady := if fs == [] then base
                  else base + MaintainCount(fs, |fs|) as real / |fs| as real * 0.2;
    Round(Min(steady, 1.0) * 100.0) as real / 100.0
  }

  method ComputeConfidence(cycles: nat, fs: seq<Factor>) returns (c: real)
    ensures c == Confidence(cycles, fs)
  {
    hide Round;
    var base := 0.5 + Min(0.3, (cycles - MIN_CYCLES) as real * 0.03);
    var maintainCount := 0;
    for i := 0 to |fs|
      invariant maintainCount == MaintainCount(fs, i)
    {
      if fs[i].direction == Maintain {
        maintainCount := maintainCount + 1;
      }
    }
    if |fs| > 0 {
      base := base + maintainCount as real / |fs| as real * 0.2;
    }
    if base > 1.0 {
      base := 1.0;
    }
    c := Round(base * 100.0) as real / 100.0;
  }

  function Factors(history: seq<CycleHistory>): (fs: seq<Factor>)
    requires history != []
    ensures |fs| == 4
  {
    [AnalyzeUtilization(history), AnalyzeWaste(history), AnalyzeUnassignment(history), AnalyzePerformance(history)]
  }

  function Adjusted(base: CycleConfig, fs: seq<Factor>, nextBudget: real): CycleConfig
    requires |fs| == 4 && base.tierIncrement > 0
  {
    ApplyPerformance(ApplyUnassignment(ApplyWaste(ApplyUtilization(base, fs[0], nextBudget), fs[1]), fs[2]), fs[3])
  }

  function Suggested(history: seq<CycleHistory>, nextBudget: real): Result<Suggestion> {
    if |history| < MIN_CYCLES then Err("insufficient data")
    else if nextBudget <= 0.0 then Err("next_budget must be positive")
    else if !Valid(history[|history| - 1].config) then Err("last cycle config invalid")
    else
      var fs := Factors(history);
      Ok(Suggestion(ClampConfig(Adjusted(history[|history| - 1].config, fs, nextBudget)),
                    Confidence(|history|, fs), fs, |history|))
  }

  method SuggestConfig(history: seq<CycleHistory>, nextBudget: real) returns (r: Result<Suggestion>)
    ensures r == Suggested(history, nextBudget)
  {
    hide Mean, Confidence, ClampConfig, ApplyUtilization, ApplyWaste, ApplyUnassignment, ApplyPerformance;
    if |history| < MIN_CYCLES {
      return Err("insufficient data");
    }
    if nextBudget <= 0.0 {
      return Err("next_budget must be positive");
    }
    var base := history[|history| - 1].config;
    if Validate(base).Some? {
      return Err("last cycle config invalid");
    }
    var factors := Analyze(history);
    var suggested := ApplyUtilization(base, factors[0], nextBudget);
    suggested := ApplyWaste(suggested, factors[1]);
    suggested := ApplyUnassignment(suggested, factors[2]);
    suggested := ApplyPerformance(suggested, factors[3]);
    suggested := ClampConfig(suggested);
    var confidence := ComputeConfidence(|history|, factors);
    r := Ok(Suggestion(suggested, confidence, factors, |history|));
  }

  /** The four analyses, with their loops. */
  method Analyze(history: seq<CycleHistory>) returns (factors: seq<Factor>)
    requires history != []
    ensures factors == Factors(history)
  {
    hide Mean;
    var recent := Recent(history);
    var ratios := CollectWaste(recent);
    var waste := Factor("waste_ratio", 0.0, Maintain);
    if |ratios| != 0 {
      var avg := ComputeMean(ratios);
      waste := Factor("waste_ratio", avg, if avg > 0.30 then Decrease else if avg < 0.05 then Increase else Maintain);
    }
    var rates := CollectRates(recent);
    var unassigned := Factor("unassignment_rate", 0.0, Maintain);
    if |rates| != 0 {
      var avg := ComputeMean(rates);
      var half := |rates| / 2;
      if half == 0 {
        half := 1;
      }
      var early := ComputeMean(rates[..half]);
      var late := ComputeMean(rates[half..]);
      var trendingUp := late - early > 0.05;
      unassigned := Factor("unassignment_rate", avg,
        if avg > 0.25 || (trendingUp && avg > 0.10) then Decrease else Maintain);
    }
    var perfs := CollectPerformances(recent);
    var performance := Factor("performance_distribution", 0.0, Maintain);
    if |perfs| != 0 {
      var avg := ComputeMean(perfs);
      var nearCap := history[|history| - 1].config.scoreCapPct * 0.90;
      performance := Factor("performance_distribution", avg,
                            if avg >= nearCap then Increase else if avg < 0.50 then Decrease else Maintain);
    }
    factors := [AnalyzeUtilization(history), waste, unassigned, performance];
  }

  // ------------------------------------------------------------------------------ the promises

  /** With a positive increment the clamp always yields a valid configuration. */
  lemma ClampValidates(cfg: CycleConfig)
    requires cfg.tierIncrement > 0
    ensures Valid(ClampConfig(cfg))
    ensures 0.05 <= ClampConfig(cfg).budgetSharePct && 0.5 <= ClampConfig(cfg).scoreCapPct
    ensures ClampConfig(cfg).tierIncrement == cfg.tierIncrement
  {
    var inc := cfg.tierIncrement;
    var minTier := if cfg.minTier < inc then inc else cfg.minTier;
    hide RoundToIncrement;
    assert inc % inc == 0 by { MultipleOf(inc, inc, 1); }
    PositiveRounded(minTier, inc);
  }

  lemma PositiveRounded(val: int, inc: int)
    requires 0 < inc <= val
    ensures RoundToIncrement(val, inc) > 0
  {
  }

  /** It changes nothing exactly on the valid configurations above its two floors; so it is idempotent. */
  lemma ClampFixesExactly(cfg: CycleConfig)
    requires cfg.tierIncrement > 0
    ensures ClampConfig(cfg) == cfg <==> Valid(cfg) && cfg.budgetSharePct >= 0.05 && cfg.scoreCapPct >= 0.5
    ensures ClampConfig(ClampConfig(cfg)) == ClampConfig(cfg)
  {
    hide ClampConfig, Valid;
    ClampValidates(cfg);
    if Valid(cfg) && cfg.budgetSharePct >= 0.05 && cfg.scoreCapPct >= 0.5 {
      FixedWhenValid(cfg);
    }
    FixedWhenValid(ClampConfig(cfg));
  }

  lemma FixedWhenValid(cfg: CycleConfig)
    requires cfg.tierIncrement > 0 && Valid(cfg) && cfg.budgetSharePct >= 0.05 && cfg.scoreCapPct >= 0.5
    ensures ClampConfig(cfg) == cfg
  {
    hide RoundToIncrement;
    AtLeastOneIncrement(cfg.minTier, cfg.tierIncrement);
  }

  lemma AtLeastOneIncrement(x: int, m: int)
    requires m > 0 && x > 0 && x % m == 0
    ensures x >= m
  {
    MultipleOf(x, m, x / m);
    MulGrows(x / m, m);
  }

  function Resting(f: Factor): int { if f.direction == Maintain then 1 else 0 }

  /** Rounding never matters: half, plus 3 percent for every cycle beyond the seventh up to ten of them, plus 5
      percent for each of the four factors at rest. */
  lemma ConfidenceIs(cycles: nat, fs: seq<Factor>)
    requires cycles >= MIN_CYCLES && |fs| == 4
    ensures var more := if cycles - 7 > 10 then 10 else cycles - 7;
            var resting := Resting(fs[0]) + Resting(fs[1]) + Resting(fs[2]) + Resting(fs[3]);
            Confidence(cycles, fs) == (50 + 3 * more + 5 * resting) as real / 100.0
  {
    assert MaintainCount(fs, 0) == 0;
    assert MaintainCount(fs, 2) == MaintainCount(fs, 1) + Resting(fs[1]);
    assert MaintainCount(fs, 3) == MaintainCount(fs, 2) + Resting(fs[2]);
    var more := if cycles - 7 > 10 then 10 else cycles - 7;
    assert Min(0.3, (cycles - MIN_CYCLES) as real * 0.03) == more as real * 0.03;
    RoundInteger(50 + 3 * more + 5 * MaintainCount(fs, 4));
  }

  lemma ConfidenceRange(cycles: nat, fs: seq<Factor>)
    requires cycles >= MIN_CYCLES
    ensures 0.5 <= Confidence(cycles, fs) <= 1.0
  {
    var base := 0.5 + Min(0.3, (cycles - MIN_CYCLES) as real * 0.03);
    if fs != [] {
      DivBoundsBelow(MaintainCount(fs, |fs|) as real, |fs| as real, 0.0);
    }
    var steady := if fs == [] then base else base + MaintainCount(fs, |fs|) as real / |fs| as real * 0.2;
    RoundMonotone(50.0, Min(steady, 1.0) * 100.0);
    RoundMonotone(Min(steady, 1.0) * 100.0, 100.0);
    RoundInteger(50);
    RoundInteger(100);
  }

  lemma AdjustedKeepsIncrement(base: CycleConfig, fs: seq<Factor>, nextBudget: real)
    requires |fs| == 4 && base.tierIncrement > 0
    ensures Adjusted(base, fs, nextBudget).tierIncrement == base.tierIncrement
  {
    hide UtilizationCap;
  }

  /** For every history and budget that SuggestConfig accepts, the suggestion is a valid configuration with
      the same increment, so SuggestConfigWithError has nothing to warn about, and the confidence lies
      between one half and one. */
  lemma SuggestionValidates(history: seq<CycleHistory>, nextBudget: real)
    requires Suggested(history, nextBudget).Ok?
    ensures var s := Suggested(history, nextBudget).value;
            && Validate(s.config) == None
            && s.config.tierIncrement == history[|history| - 1].config.tierIncrement
            && 0.5 <= s.confidence <= 1.0
  {
    hide ClampConfig, Confidence, Adjusted, Factors;
    var base, fs := history[|history| - 1].config, Factors(history);
    AdjustedKeepsIncrement(base, fs, nextBudget);
    ClampValidates(Adjusted(base, fs, nextBudget));
    ConfidenceRange(|history|, fs);
  }

  /** The clamp raises the two percentages of a valid configuration to their floors and leaves the rest. */
  function Floored(base: CycleConfig): CycleConfig {
    base.(budgetSharePct := Max(base.budgetSharePct, 0.05), scoreCapPct := Max(base.scoreCapPct, 0.5))
  }

  lemma ClampFloors(base: CycleConfig)
    requires Valid(base)
    ensures base.tierIncrement > 0 && ClampConfig(base) == Floored(base)
  {
    hide Valid, Validate, ClampConfig;
    ValidParts(base);
    FlooredIsValid(base);
    FixedWhenValid(Floored(base));
    SameClamp(base);
  }

  lemma FlooredIsValid(base: CycleConfig)
    requires Valid(base)
    ensures Valid(Floored(base))
  {
  }

  lemma SameClamp(base: CycleConfig)
    requires base.budgetSharePct <= 1.0 && base.scoreCapPct <= 10.0
    ensures ClampConfig(Floored(base)) == ClampConfig(base)
  {
  }

  /** Utilization steers the tier cap in the direction it reports, once the suggestion is clamped: a decrease
      never raises the cap and never passes the minimum, an increase raises it by one increment. */
  lemma UtilizationSteersTheCap(base: CycleConfig, f: Factor, nextBudget: real)
    requires Valid(base)
    ensures base.tierIncrement > 0
    ensures var cap := ClampConfig(ApplyUtilization(base, f, nextBudget)).maxTierCap;
            && (f.direction == Decrease ==> base.minTier <= cap <= base.maxTierCap)
            && (f.direction == Increase ==> cap == base.maxTierCap + base.tierIncrement)
            && (f.direction == Maintain ==> cap == base.maxTierCap)
  {
    hide Valid, Validate, ClampConfig, UtilizationCap;
    ValidParts(base);
    var inc := base.tierIncrement;
    MultipleOf(inc, inc, 1);
    MultipleSum(base.maxTierCap, inc, inc);
    var adjusted := ApplyUtilization(base, f, nextBudget);
    assert adjusted == base.(maxTierCap := adjusted.maxTierCap);
    CapChangeValid(base, adjusted.maxTierCap);
    ClampFloors(adjusted);
  }

  /** Waste moves the budget share the way it reports, and the move is real until a limit is reached; but a
      decrease raises a share that is valid yet below 0.05, to 0.05.  So a decrease never raises the share
      if and only if the share is at least 0.05. */
  lemma WasteSteersTheShare(base: CycleConfig, f: Factor)
    requires Valid(base)
    ensures var pct := ClampConfig(ApplyWaste(base, f)).budgetSharePct;
            match f.direction
            case Decrease =>
              && (pct <= base.budgetSharePct <==> base.budgetSharePct >= 0.05)
              && (pct == base.budgetSharePct <==> base.budgetSharePct == 0.05)
            case Increase => pct >= base.budgetSharePct && (pct == base.budgetSharePct <==> base.budgetSharePct == 1.0)
            case Maintain => pct == Max(base.budgetSharePct, 0.05)
  {
    ValidParts(base);
    ShareIsClamped(ApplyWaste(base, f));
  }

  lemma ShareIsClamped(cfg: CycleConfig)
    ensures ClampConfig(cfg).budgetSharePct == Clamp(cfg.budgetSharePct, 0.05, 1.0)
  {
  }

  /** A valid configuration that a decrease takes from a share of 1 percent to 5. */
  lemma DecreaseCanRaiseTheShare(f: Factor)
    requires f.direction == Decrease
    ensures var base := DEFAULT.(budgetSharePct := 0.01);
            Valid(base) && ClampConfig(ApplyWaste(base, f)).budgetSharePct == 0.05
  {
    ShareIsClamped(ApplyWaste(DEFAULT.(budgetSharePct := 0.01), f));
  }

  /** Unassigned talents lower the floor by one increment, as long as one increment is left, and leave the
      rest of the configuration alone. */
  lemma UnassignmentLowersTheFloor(base: CycleConfig, f: Factor)
    requires Valid(base)
    ensures ClampConfig(ApplyUnassignment(base, f)) ==
            if f.direction == Decrease && base.minTier != base.tierIncrement
            then ClampConfig(base).(minTier := base.minTier - base.tierIncrement)
            else ClampConfig(base)
  {
    hide ClampConfig;
    ValidParts(base);
    var inc := base.tierIncrement;
    AtLeastOneIncrement(base.minTier, inc);
    MultipleOf(inc, inc, 1);
    MultipleSum(base.minTier, inc, inc);
    ClampFloors(base);
    ClampFloors(ApplyUnassignment(base, f));
  }

  /** Performance at the score cap widens that cap, up to 10; weak performance takes one increment off the
      tier cap, but never below the floor. */
  lemma PerformanceSteersTheCaps(base: CycleConfig, f: Factor)
    requires Valid(base)
    ensures var next := ClampConfig(ApplyPerformance(base, f));
            match f.direction
            case Increase =>
              && next == ClampConfig(base).(scoreCapPct := next.scoreCapPct) &&
                 base.scoreCapPct <= next.scoreCapPct <= 10.0
              && (next.scoreCapPct == base.scoreCapPct <==> base.scoreCapPct == 10.0)
            case Decrease =>
              && next == ClampConfig(base).(maxTierCap := next.maxTierCap) &&
                 base.minTier <= next.maxTierCap <= base.maxTierCap
              && (next.maxTierCap == base.maxTierCap <==> base.maxTierCap == base.minTier)
            case Maintain => next == ClampConfig(base)
  {
    hide ClampConfig;
    ValidParts(base);
    var inc := base.tierIncrement;
    MultipleOf(inc, inc, 1);
    MultipleSum(base.maxTierCap, inc, inc);
    if base.minTier < base.maxTierCap {
      MultipleSum(base.maxTierCap, base.minTier, inc);
      AtLeastOneIncrement(base.maxTierCap - base.minTier, inc);
    }
    ClampFloors(base);
    ClampFloors(ApplyPerformance(base, f));
  }

  /** The four factors together keep the configuration valid, even before the clamp. */
  lemma AdjustedStaysValid(base: CycleConfig, fs: seq<Factor>, nextBudget: real)
    requires Valid(base) && |fs| == 4
    ensures base.tierIncrement > 0 && Valid(Adjusted(base, fs, nextBudget))
  {
    hide ApplyUtilization, ApplyWaste, ApplyUnassignment, ApplyPerformance, Valid;
    ValidParts(base);
    var c1 := ApplyUtilization(base, fs[0], nextBudget);
    UtilizationKeepsValid(base, fs[0], nextBudget);
    var c2 := ApplyWaste(c1, fs[1]);
    WasteKeepsValid(c1, fs[1]);
    UnassignmentKeepsValid(c2, fs[2]);
    PerformanceKeepsValid(ApplyUnassignment(c2, fs[2]), fs[3]);
  }

  lemma UtilizationKeepsValid(base: CycleConfig, f: Factor, nextBudget: real)
    requires Valid(base)
    ensures base.tierIncrement > 0 && Valid(ApplyUtilization(base, f, nextBudget))
  {
    hide Valid, UtilizationCap;
    ValidParts(base);
    MultipleOf(base.tierIncrement, base.tierIncrement, 1);
    MultipleSum(base.maxTierCap, base.tierIncrement, base.tierIncrement);
    CapChangeValid(base, ApplyUtilization(base, f, nextBudget).maxTierCap);
  }

  lemma WasteKeepsValid(base: CycleConfig, f: Factor)
    requires Valid(base)
    ensures Valid(ApplyWaste(base, f))
  {
  }

  lemma UnassignmentKeepsValid(base: CycleConfig, f: Factor)
    requires Valid(base)
    ensures Valid(ApplyUnassignment(base, f))
  {
    MultipleOf(base.tierIncrement, base.tierIncrement, 1);
    MultipleSum(base.minTier, base.tierIncrement, base.tierIncrement);
  }

  lemma PerformanceKeepsValid(base: CycleConfig, f: Factor)
    requires Valid(base)
    ensures Valid(ApplyPerformance(base, f))
  {
    MultipleOf(base.tierIncrement, base.tierIncrement, 1);
    MultipleSum(base.maxTierCap, base.tierIncrement, base.tierIncrement);
  }

  /** What a suggestion changes, over every accepted history.  The tier cap rises by at most one increment, and
      only on high utilization; the minimum falls by one increment or stays; the budget share follows the
      waste, and rises without cause only from below 0.05; the score cap rises by at most a quarter above its
      floor, and only on high performance. */
  lemma SuggestionMoves(history: seq<CycleHistory>, nextBudget: real)
    requires Suggested(history, nextBudget).Ok?
    ensures var base, fs := history[|history| - 1].config, Factors(history);
            var next := Suggested(history, nextBudget).value.config;
            && next.minTier <= next.maxTierCap <= base.maxTierCap + base.tierIncrement
            && (next.maxTierCap > base.maxTierCap ==> fs[0].direction == Increase && fs[3].direction != Decrease)
            && next.minTier == (if fs[2].direction == Decrease && base.minTier != base.tierIncrement
                                then base.minTier - base.tierIncrement else base.minTier)
            && (next.budgetSharePct > base.budgetSharePct ==> fs[1].direction == Increase || base.budgetSharePct < 0.05)
            && (next.budgetSharePct < base.budgetSharePct ==> fs[1].direction == Decrease)
            && base.scoreCapPct <= next.scoreCapPct <= Max(base.scoreCapPct, 0.5) + 0.25
            && (next.scoreCapPct > base.scoreCapPct ==> fs[3].direction == Increase || base.scoreCapPct < 0.5)
  {
    hide ClampConfig, Confidence, Adjusted, Factors, Valid;
    var base, fs := history[|history| - 1].config, Factors(history);
    AdjustedStaysValid(base, fs, nextBudget);
    ClampFloors(Adjusted(base, fs, nextBudget));
    AdjustedMoves(base, fs, nextBudget);
  }

  lemma AdjustedMoves(base: CycleConfig, fs: seq<Factor>, nextBudget: real)
    requires Valid(base) && |fs| == 4
    ensures base.tierIncrement > 0
    ensures var next := Floored(Adjusted(base, fs, nextBudget));
            && next.minTier <= next.maxTierCap <= base.maxTierCap + base.tierIncrement
            && (next.maxTierCap > base.maxTierCap ==> fs[0].direction == Increase && fs[3].direction != Decrease)
            && next.minTier == (if fs[2].direction == Decrease && base.minTier != base.tierIncrement
                                then base.minTier - base.tierIncrement else base.minTier)
            && (next.budgetSharePct > base.budgetSharePct ==> fs[1].direction == Increase || base.budgetSharePct < 0.05)
            && (next.budgetSharePct < base.budgetSharePct ==> fs[1].direction == Decrease)
            && base.scoreCapPct <= next.scoreCapPct <= Max(base.scoreCapPct, 0.5) + 0.25
            && (next.scoreCapPct > base.scoreCapPct ==> fs[3].direction == Increase || base.scoreCapPct < 0.5)
  {
    hide UtilizationCap;
    ValidParts(base);
    AtLeastOneIncrement(base.minTier, base.tierIncrement);
  }

  /** A steady history is left alone: with all four factors at rest the suggestion is the last configuration,
      its percentages raised to their floors if they were below. */
  lemma SteadyHistoryIsKept(history: seq<CycleHistory>, nextBudget: real)
    requires Suggested(history, nextBudget).Ok?
    requires forall i :: 0 <= i < 4 ==> Factors(history)[i].direction == Maintain
    ensures var base := history[|history| - 1].config;
            && Suggested(history, nextBudget).value.config == Floored(base)
            && (Suggested(history, nextBudget).value.config == base <==>
               base.budgetSharePct >= 0.05 && base.scoreCapPct >= 0.5)
  {
    hide ClampConfig, Confidence, Factors, Valid;
    var base, fs := history[|history| - 1].config, Factors(history);
    ValidParts(base);
    assert Adjusted(base, fs, nextBudget) == base;
    ClampFloors(base);
  }

  lemma ValidParts(base: CycleConfig)
    requires Valid(base)
    ensures base.tierIncrement > 0 && 0 < base.minTier <= base.maxTierCap
    ensures base.maxTierCap % base.tierIncrement == 0 && base.minTier % base.tierIncrement == 0
    ensures base.budgetSharePct <= 1.0 && base.scoreCapPct <= 10.0
  {
  }

  lemma CapChangeValid(base: CycleConfig, cap: int)
    requires Valid(base) && base.tierIncrement > 0 && cap >= base.minTier && cap % base.tierIncrement == 0
    ensures Valid(base.(maxTierCap := cap))
  {
  }
}
