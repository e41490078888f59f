/** internal/algo/payout.go: the cycle payout, from conversions and leads to money paid. */
module Payout {
  import opened Numbers
  import opened Money

  datatype Pipeline = DirectTraffic | LeadValidation | OtherPipeline(name: string)

  datatype Destination = Destination(id: string, anchorCost: real, costVariance: real, conversions: real)

  datatype Bonus = Bonus(optionId: string, amount: real, triggerCount: int)

  datatype TalentInput = TalentInput(
    talentId: string, pipeline: Pipeline, allocatedBudget: real,
    destinations: seq<Destination>,
    validLeads: real, anchorLeadCost: real, costVarianceL: real, bonuses: seq<Bonus>, kpbFromPool: bool,
    commissionRate: real, status: string, fallbackFlagged: bool)

  datatype PoolInput = PoolInput(availablePool: real, kpbPool: real)

  datatype TalentResult = TalentResult(
    talentId: string, pipeline: Pipeline, status: string,
    grossBase: real, kpbTotal: real, grossTotal: real,
    costPerUnit: real, capApplied: real, capExceeded: bool, excessForfeited: real,
    commissionAmount: real, eNet: real, scaleFactor: real, finalPayout: real,
    fallbackFlagged: bool, kpbPoolSource: string)

  datatype CycleOutput = CycleOutput(
    results: seq<TalentResult>, totalPaid: real, unspent: real, forfeitsReturned: real,
    unallocatedNext: real, kpbUnspent: real, scaleFactor: real)

  const FORFEIT := "removed_forfeit"

  predicate Forfeits(t: TalentInput) { t.status == FORFEIT }

  function Blank(t: TalentInput): TalentResult {
    TalentResult(t.talentId, t.pipeline, t.status, 0.0, 0.0, 0.0, 0.0, 0.0, false, 0.0, 0.0, 0.0, 0.0, 0.0,
                 t.fallbackFlagged, "")
  }

  // --------------------------------------------------------------------------- traffic pipeline

  function UnitCap(d: Destination): real { d.anchorCost + d.costVariance }

  /** What one destination's conversions are worth at its cap. */
  function Contribution(d: Destination): real { MoneyTimes(d.conversions, UnitCap(d)) }

  function BaseValue(ds: seq<Destination>, k: nat): real
    requires k <= |ds|
  {
    if k == 0 then 0.0 else BaseValue(ds, k - 1) + Contribution(ds[k - 1])
  }

  function TotalConversions(ds: seq<Destination>, k: nat): real
    requires k <= |ds|
  {
    if k == 0 then 0.0 else TotalConversions(ds, k - 1) + ds[k - 1].conversions
  }

  /** The first non-zero unit cap. */
  function FirstCap(ds: seq<Destination>, k: nat): real
    requires k <= |ds|
  {
    if k == 0 then 0.0
    else if FirstCap(ds, k - 1) == 0.0 then UnitCap(ds[k - 1]) else FirstCap(ds, k - 1)
  }

  function Traffic(t: TalentInput, r: TalentResult): TalentResult {
    var n := |t.destinations|;
    var total, cap := TotalConversions(t.destinations, n), FirstCap(t.destinations, n);
    var base := MoneyRound(Min(BaseValue(t.destinations, n), t.allocatedBudget));
    var perConversion := if total > 0.0 then MoneyRound(t.allocatedBudget / total) else 0.0;
    var exceeded := perConversion > cap && cap > 0.0 && total > 0.0;
    var capped := MoneyTimes(total, cap);
    var gross := if exceeded then capped else base;
    r.(grossBase := gross, grossTotal := gross, costPerUnit := perConversion, capApplied := cap,
       capExceeded := exceeded, excessForfeited := if exceeded then Max(MoneyRound(base - capped), 0.0) else 0.0)
  }

  method ComputeTrafficPayout(t: TalentInput, r: TalentResult) returns (out: TalentResult)
    ensures out == Traffic(t, r)
  {
    hide MoneyRound, MoneyTimes;
    var baseValue, totalConversions, capD := 0.0, 0.0, 0.0;
    for i := 0 to |t.destinations|
      invariant baseValue == BaseValue(t.destinations, i)
      invariant totalConversions == TotalConversions(t.destinations, i)
      invariant capD == FirstCap(t.destinations, i)
    {
      var d := t.destinations[i];
      var contribution := MoneyTimes(d.conversions, d.anchorCost + d.costVariance);
      baseValue := baseValue + contribution;
      totalConversions := totalConversions + d.conversions;
      if capD == 0.0 {
        capD := d.anchorCost + d.costVariance;
      }
    }
    var grossBase := baseValue;
    if grossBase > t.allocatedBudget {
      grossBase := t.allocatedBudget;
    }
    grossBase := MoneyRound(grossBase);
    var costPerConversion := 0.0;
    if totalConversions > 0.0 {
      costPerConversion := MoneyRound(t.allocatedBudget / totalConversions);
    }
    var capExceeded, excessForfeited := false, 0.0;
    if costPerConversion > capD && capD > 0.0 && totalConversions > 0.0 {
      capExceeded := true;
      var cappedPayout := MoneyTimes(totalConversions, capD);
      excessForfeited := MoneyRound(grossBase - cappedPayout);
      if excessForfeited < 0.0 {
        excessForfeited := 0.0;
      }
      grossBase := cappedPayout;
    }
    out := r.(grossBase := grossBase, grossTotal := grossBase, costPerUnit := costPerConversion,
              capApplied := capD, capExceeded := capExceeded, excessForfeited := excessForfeited);
  }

  // ------------------------------------------------------------------------------ lead pipeline

  function LeadCap(t: TalentInput): real { t.anchorLeadCost + t.costVarianceL }

  function BonusValue(b: Bonus): real { MoneyTimes(b.triggerCount as real, b.amount) }

  function BonusSum(bs: seq<Bonus>, k: nat): real
    requires k <= |bs|
  {
    if k == 0 then 0.0 else BonusSum(bs, k - 1) + BonusValue(bs[k - 1])
  }

  function LeadBase(t: TalentInput): (r: (real, real, bool, real)) {
    if t.validLeads > 0.0 then
      var perLead := MoneyRound(t.allocatedBudget / t.validLeads);
      if perLead <= LeadCap(t) then (MoneyRound(t.allocatedBudget), perLead, false, 0.0)
      else
        var gross := MoneyTimes(t.validLeads, LeadCap(t));
        (gross, perLead, true, Max(MoneyRound(t.allocatedBudget - gross), 0.0))
    else (0.0, 0.0, false, 0.0)
  }

  /** The bonus total, limited to what the budget leaves unless a separate pool pays it. */
  function LeadBonus(t: TalentInput, grossBase: real): real {
    var sum := BonusSum(t.bonuses, |t.bonuses|);
    MoneyRound(if !t.kpbFromPool && grossBase + sum > t.allocatedBudget
               then Max(MoneyRound(t.allocatedBudget - grossBase), 0.0) else sum)
  }

  function Lead(t: TalentInput, r: TalentResult): TalentResult {
    var (gross, perLead, exceeded, excess) := LeadBase(t);
    var kpb := LeadBonus(t, gross);
    r.(grossBase := gross, kpbTotal := kpb, grossTotal := MoneyRound(gross + kpb), costPerUnit := perLead,
       capApplied := LeadCap(t), capExceeded := exceeded, excessForfeited := excess)
  }

  method ComputeLeadPayout(t: TalentInput, r: TalentResult) returns (out: TalentResult)
    ensures out == Lead(t, r)
  {
    hide MoneyRound, MoneyTimes;
    var capL := LeadCap(t);
    var grossBase, costPerLead, capExceeded, excessForfeited := 0.0, 0.0, false, 0.0;
    if t.validLeads > 0.0 {
      costPerLead := MoneyRound(t.allocatedBudget / t.validLeads);
      if costPerLead <= capL {
        grossBase := MoneyRound(t.allocatedBudget);
      } else {
        capExceeded := true;
        grossBase := MoneyTimes(t.validLeads, capL);
        excessForfeited := MoneyRound(t.allocatedBudget - grossBase);
        if excessForfeited < 0.0 {
          excessForfeited := 0.0;
        }
      }
    }
    var kpbTotal := 0.0;
    for i := 0 to |t.bonuses|
      invariant kpbTotal == BonusSum(t.bonuses, i)
    {
      var k := t.bonuses[i];
      kpbTotal := kpbTotal + MoneyTimes(k.triggerCount as real, k.amount);
    }
    if !t.kpbFromPool {
      var combined := grossBase + kpbTotal;
      if combined > t.allocatedBudget {
        kpbTotal := MoneyRound(t.allocatedBudget - grossBase);
        if kpbTotal < 0.0 {
          kpbTotal := 0.0;
        }
      }
    }
    kpbTotal := MoneyRound(kpbTotal);
    out := r.(grossBase := grossBase, kpbTotal := kpbTotal, grossTotal := MoneyRound(grossBase + kpbTotal),
              costPerUnit := costPerLead, capApplied := capL, capExceeded := capExceeded,
              excessForfeited := excessForfeited);
  }

  // ------------------------------------------------------------------------------ the whole cycle

  function Gross(t: TalentInput): TalentResult {
    match t.pipeline
    case DirectTraffic => Traffic(t, Blank(t))
    case LeadValidation => Lead(t, Blank(t))
    case OtherPipeline(_) => Blank(t)
  }

  /** The result of one talent before pool scaling. */
  function Earned(t: TalentInput): TalentResult {
    if Forfeits(t) then Blank(t)
    else
      var r := Gross(t);
      r.(commissionAmount := MoneyTimes(r.grossTotal, t.commissionRate),
         eNet := MoneyTimes(r.grossTotal, 1.0 - t.commissionRate))
  }

  function PoolSource(t: TalentInput): string {
    if t.pipeline == LeadValidation then (if t.kpbFromPool then "separate_pool" else "allocated_budget") else "n/a"
  }

  function Paid(t: TalentInput, scale: real): TalentResult {
    var r := Earned(t);
    if Forfeits(t) then r
    else r.(scaleFactor := scale, finalPayout := MoneyTimes(r.eNet, scale), kpbPoolSource := PoolSource(t))
  }

  /** Sums over the first k talents. */
  function NetSum(ts: seq<TalentInput>, k: nat): real
    requires k <= |ts|
  {
    if k == 0 then 0.0 else NetSum(ts, k - 1) + Earned(ts[k - 1]).eNet
  }

  function KpbSum(ts: seq<TalentInput>, k: nat): real
    requires k <= |ts|
  {
    if k == 0 then 0.0 else KpbSum(ts, k - 1) + Earned(ts[k - 1]).kpbTotal
  }

  function ForfeitSum(ts: seq<TalentInput>, k: nat): real
    requires k <= |ts|
  {
    if k == 0 then 0.0 else ForfeitSum(ts, k - 1) + if Forfeits(ts[k - 1]) then ts[k - 1].allocatedBudget else 0.0
  }

  function PaidSum(ts: seq<TalentInput>, scale: real, k: nat): real
    requires k <= |ts|
  {
    if k == 0 then 0.0 else PaidSum(ts, scale, k - 1) + Paid(ts[k - 1], scale).finalPayout
  }

  function Scale(ts: seq<TalentInput>, pool: PoolInput): real {
    var net := NetSum(ts, |ts|);
    if net > pool.availablePool && pool.availablePool > 0.0 then pool.availablePool / net else 1.0
  }

  /** The talents that are paid at all. */
  function PaidCount(ts: seq<TalentInput>, k: nat): nat
    requires k <= |ts|
  {
    if k == 0 then 0 else PaidCount(ts, k - 1) + if Forfeits(ts[k - 1]) then 0 else 1
  }

  /** The body of the first loop: pipeline and commission. */
  method PayTalent(t: TalentInput) returns (r: TalentResult)
    requires !Forfeits(t)
    ensures r == Earned(t)
  {
    hide Traffic, Lead, MoneyTimes;
    r := Blank(t);
    match t.pipeline {
      case DirectTraffic => r := ComputeTrafficPayout(t, r);
      case LeadValidation => r := ComputeLeadPayout(t, r);
      case OtherPipeline(_) =>
    }
    r := r.(commissionAmount := MoneyTimes(r.grossTotal, t.commissionRate));
    r := r.(eNet := MoneyTimes(r.grossTotal, 1.0 - t.commissionRate));
  }

  /** The body of the second loop: pool scaling and the audit label. */
  method ScaleTalent(t: TalentInput, earned: TalentResult, scale: real) returns (r: TalentResult)
    requires !Forfeits(t) && earned == Earned(t)
    ensures r == Paid(t, scale)
  {
    hide Earned, MoneyTimes;
    r := earned.(scaleFactor := scale);
    r := r.(finalPayout := MoneyTimes(r.eNet, scale));
    if t.pipeline == LeadValidation {
      r := r.(kpbPoolSource := if t.kpbFromPool then "separate_pool" else "allocated_budget");
    } else {
      r := r.(kpbPoolSource := "n/a");
    }
  }

  /** P.1 to P.6: every talent on its own. */
  method PayTalents(ts: seq<TalentInput>, results: array<TalentResult>)
    returns (totalGrossNet: real, totalKpb: real, forfeitsReturned: real)
    requires results.Length == |ts|
    modifies results
    ensures forall k :: 0 <= k < |ts| ==> results[k] == Earned(ts[k])
    ensures totalGrossNet == NetSum(ts, |ts|) && totalKpb == KpbSum(ts, |ts|) &&
            forfeitsReturned == ForfeitSum(ts, |ts|)
  {
    hide Earned, Paid, Blank, MoneyRound, MoneyTimes;
    totalGrossNet, totalKpb, forfeitsReturned := 0.0, 0.0, 0.0;
    for i := 0 to |ts|
      invariant forall k :: 0 <= k < i ==> results[k] == Earned(ts[k])
      invariant totalGrossNet == NetSum(ts, i) && totalKpb == KpbSum(ts, i) && forfeitsReturned == ForfeitSum(ts, i)
    {
      var t := ts[i];
      StatusKept(t, 1.0);
      if t.status == FORFEIT {
        forfeitsReturned := forfeitsReturned + t.allocatedBudget;
        results[i] := Blank(t);
        continue;
      }
      var r := PayTalent(t);
      totalGrossNet := totalGrossNet + r.eNet;
      totalKpb := totalKpb + r.kpbTotal;
      results[i] := r;
    }
  }

  /** P.7: pool scaling of everybody who is paid. */
  method ScaleTalents(ts: seq<TalentInput>, results: array<TalentResult>, scale: real) returns (totalPaid: real)
    requires results.Length == |ts| && forall k :: 0 <= k < |ts| ==> results[k] == Earned(ts[k])
    modifies results
    ensures forall k :: 0 <= k < |ts| ==> results[k] == Paid(ts[k], scale)
    ensures totalPaid == PaidSum(ts, scale, |ts|)
  {
    hide Earned, Paid, Blank, MoneyRound, MoneyTimes;
    totalPaid := 0.0;
    for i := 0 to |ts|
      invariant forall k :: 0 <= k < i ==> results[k] == Paid(ts[k], scale)
      invariant forall k :: i <= k < |ts| ==> results[k] == Earned(ts[k])
      invariant totalPaid == PaidSum(ts, scale, i)
    {
      StatusKept(ts[i], scale);
      if results[i].status == FORFEIT {
        continue;
      }
      var r := ScaleTalent(ts[i], results[i], scale);
      results[i] := r;
      totalPaid := totalPaid + r.finalPayout;
    }
  }

  /** What a cycle pays: everybody at one scale, and the pool reconciled. */
  ghost predicate Settles(ts: seq<TalentInput>, pool: PoolInput, out: CycleOutput) {
    var scale := Scale(ts, pool);
    && |out.results| == |ts|
    && (forall i :: 0 <= i < |ts| ==> out.results[i] == Paid(ts[i], scale))
    && out.scaleFactor == scale
    && out.totalPaid == MoneyRound(PaidSum(ts, scale, |ts|))
    && out.forfeitsReturned == ForfeitSum(ts, |ts|)
    && out.unspent == MoneyRound(pool.availablePool - PaidSum(ts, scale, |ts|))
    && out.unallocatedNext == MoneyRound(out.unspent + out.forfeitsReturned)
    && out.kpbUnspent == Max(MoneyRound(pool.kpbPool - KpbSum(ts, |ts|)), 0.0)
  }

  method ComputeCyclePayout(ts: seq<TalentInput>, pool: PoolInput) returns (out: CycleOutput)
    ensures Settles(ts, pool, out)
  {
    hide Earned, Paid, Blank, MoneyRound, MoneyTimes;
    var n := |ts|;
    var results := new TalentResult[n](i requires 0 <= i < n => Blank(ts[i]));
    var totalGrossNet, totalKpb, forfeitsReturned := PayTalents(ts, results);
    var scale := 1.0;
    if totalGrossNet > pool.availablePool && pool.availablePool > 0.0 {
      scale := pool.availablePool / totalGrossNet;
    }
    var totalPaid := ScaleTalents(ts, results, scale);
    var unspent := MoneyRound(pool.availablePool - totalPaid);
    var kpbUnspent := MoneyRound(pool.kpbPool - totalKpb);
    if kpbUnspent < 0.0 {
      kpbUnspent := 0.0;
    }
    out := CycleOutput(results[..], MoneyRound(totalPaid), unspent, forfeitsReturned,
                       MoneyRound(unspent + forfeitsReturned), kpbUnspent, scale);
  }

  lemma StatusKept(t: TalentInput, scale: real)
    ensures Earned(t).status == t.status
    ensures Forfeits(t) ==> Earned(t) == Blank(t) == Paid(t, scale)
    ensures Forfeits(t) ==> Earned(t).eNet == 0.0 && Earned(t).kpbTotal == 0.0 && Paid(t, scale).finalPayout == 0.0
  {
  }
}
