/** What the payout promises, for whole counts and whole-kobo amounts: caps, bounds, and conservation. */
module PayoutLaws {
  import opened Numbers
  import opened Permutations
  import opened Money
  import opened Payout

  predicate Amount(x: real) { x >= 0.0 && IsKobo(x) }

  predicate Count(x: real) { x >= 0.0 && IsWhole(x) }

  /** Amounts are whole kobo, counts are whole, and nothing is negative. */
  ghost predicate Wholesome(t: TalentInput) {
    && Amount(t.allocatedBudget) && 0.0 <= t.commissionRate <= 1.0
    && (forall i :: 0 <= i < |t.destinations| ==>
         Count(t.destinations[i].conversions) && Amount(UnitCap(t.destinations[i])))
    && Count(t.validLeads) && Amount(LeadCap(t))
    && (forall i :: 0 <= i < |t.bonuses| ==> Amount(t.bonuses[i].amount) && t.bonuses[i].triggerCount >= 0)
  }

  /** The rounded cost per unit exceeds the cap exactly when the budget is at least half a kobo per unit
      above what the units are worth at the cap. */
  lemma PerUnitAboveCap(budget: real, units: real, cap: real)
    requires units > 0.0 && Amount(cap)
    ensures MoneyRound(budget / units) > cap <==> budget >= units * cap + units * 0.005
  {
    RoundAbove(budget / units, cap);
    DivBoundsBelow(budget, units, cap + 0.005);
    assert (cap + 0.005) * units == units * cap + units * 0.005;
  }

  lemma TimesExact(n: real, x: real)
    requires Count(n) && Amount(x)
    ensures MoneyTimes(n, x) == n * x == Times(n, x) && Amount(MoneyTimes(n, x))
  {
    KoboTimes(n, x);
    KoboIsFixed(n * x);
    MulNonNegative(n, x);
  }

  // ---------------------------------------------------------------------------------- lead caps

  /** Lead pipeline: with at least one lead, payout and forfeit split the budget without remainder, and
      the cap bites exactly when the budget is half a kobo per lead above the leads' worth. */
  lemma LeadSplitsBudget(t: TalentInput)
    requires Wholesome(t) && t.validLeads > 0.0
    ensures var (gross, _, exceeded, excess) := LeadBase(t);
            && gross + excess == t.allocatedBudget && Amount(gross) && Amount(excess)
            && (exceeded <==> t.allocatedBudget >= t.validLeads * LeadCap(t) + t.validLeads * 0.005)
            && gross == if exceeded then t.validLeads * LeadCap(t) else t.allocatedBudget
  {
    hide IsKobo, IsWhole, MoneyRound, MoneyTimes;
    var n, cap, budget := t.validLeads, LeadCap(t), t.allocatedBudget;
    NairaIsFixed(0);
    MulNonNegative(n, 0.005);
    PerUnitAboveCap(budget, n, cap);
    KoboIsFixed(budget);
    TimesExact(n, cap);
    KoboSum(budget, MoneyTimes(n, cap));
    KoboIsFixed(budget - MoneyTimes(n, cap));
  }

  // ------------------------------------------------------------------------------- traffic caps

  lemma ZeroIsWhole()
    ensures IsWhole(0.0)
  {
  }

  lemma {:induction false} DestinationSums(ds: seq<Destination>, k: nat)
    requires k <= |ds| && forall i :: 0 <= i < |ds| ==> Count(ds[i].conversions) && Amount(UnitCap(ds[i]))
    ensures Amount(BaseValue(ds, k)) && Count(TotalConversions(ds, k)) && Amount(FirstCap(ds, k))
  {
    hide IsKobo, IsWhole, MoneyRound, MoneyTimes, UnitCap;
    NairaIsFixed(0);
    if k == 0 {
      ZeroIsWhole();
    } else {
      DestinationSums(ds, k - 1);
      WholeSum(TotalConversions(ds, k - 1), ds[k - 1].conversions);
      var d := ds[k - 1];
      TimesExact(d.conversions, UnitCap(d));
      KoboSum(BaseValue(ds, k - 1), MoneyTimes(d.conversions, UnitCap(d)));
    }
  }

  /** Traffic pipeline, any destination list: the payout stays within the budget; when the cap branch is
      taken it pays every conversion at the first destination's cap, whatever the others are worth. */
  lemma TrafficBounds(t: TalentInput, r: TalentResult)
    requires Wholesome(t)
    ensures var out, n := Traffic(t, r), |t.destinations|;
            var total, cap := TotalConversions(t.destinations, n), FirstCap(t.destinations, n);
            && 0.0 <= out.grossBase <= t.allocatedBudget && IsKobo(out.grossBase) && out.grossTotal == out.grossBase
            && (out.capExceeded <==> total > 0.0 && cap > 0.0 && t.allocatedBudget >= total * cap + total * 0.005)
            && out.grossBase ==
               if out.capExceeded then total * cap else Min(BaseValue(t.destinations, n), t.allocatedBudget)
  {
    hide IsKobo, IsWhole, MoneyRound;
    var ds, n := t.destinations, |t.destinations|;
    DestinationSums(ds, n);
    var total, cap, budget := TotalConversions(ds, n), FirstCap(ds, n), t.allocatedBudget;
    KoboIsFixed(Min(BaseValue(ds, n), budget));
    TimesExact(total, cap);
    if total > 0.0 {
      PerUnitAboveCap(budget, total, cap);
    }
  }

  function UnitCaps(ds: seq<Destination>): (r: seq<real>) {
    seq(|ds|, i requires 0 <= i < |ds| => ds[i].anchorCost + ds[i].costVariance)
  }

  function Conversions(ds: seq<Destination>): (r: seq<real>) {
    seq(|ds|, i requires 0 <= i < |ds| => ds[i].conversions)
  }

  function Worths(ds: seq<Destination>): (r: seq<real>) {
    seq(|ds|, i requires 0 <= i < |ds| => Times(ds[i].conversions, ds[i].anchorCost + ds[i].costVariance))
  }

  /** cap is the first of the caps that is not 0, or 0 if they all are. */
  ghost predicate FirstNonZero(caps: seq<real>, cap: real) {
    if forall i :: 0 <= i < |caps| ==> caps[i] == 0.0 then cap == 0.0
    else exists i :: 0 <= i < |caps| && caps[i] == cap != 0.0 && forall j :: 0 <= j < i ==> caps[j] == 0.0
  }

  /** The loop over the destinations: what all conversions are worth at their own caps, how many there are, and
      the first cap that is not 0. */
  lemma {:induction false} DestinationTotals(ds: seq<Destination>, k: nat)
    requires k <= |ds| && forall i :: 0 <= i < |ds| ==> Count(ds[i].conversions) && Amount(UnitCap(ds[i]))
    ensures BaseValue(ds, k) == Sum(Worths(ds)[..k]) && TotalConversions(ds, k) == Sum(Conversions(ds)[..k])
    ensures FirstNonZero(UnitCaps(ds)[..k], FirstCap(ds, k))
  {
    hide IsKobo, IsWhole, MoneyRound, MoneyTimes, Sum;
    if k == 0 {
      SumOfEmpty(Worths(ds)[..0]);
      SumOfEmpty(Conversions(ds)[..0]);
    } else {
      DestinationTotals(ds, k - 1);
      TimesExact(ds[k - 1].conversions, UnitCap(ds[k - 1]));
      hide Times;
      assert Worths(ds)[..k] == Worths(ds)[..k - 1] + [Worths(ds)[k - 1]];
      assert Conversions(ds)[..k] == Conversions(ds)[..k - 1] + [Conversions(ds)[k - 1]];
      SumAppend(Worths(ds)[..k - 1], Worths(ds)[k - 1]);
      SumAppend(Conversions(ds)[..k - 1], Conversions(ds)[k - 1]);
      NextCap(UnitCaps(ds), k, FirstCap(ds, k - 1));
    }
  }

  lemma NextCap(caps: seq<real>, k: nat, cap: real)
    requires 0 < k <= |caps| && FirstNonZero(caps[..k - 1], cap)
    ensures FirstNonZero(caps[..k], if cap == 0.0 then caps[k - 1] else cap)
  {
    var now, next := caps[..k - 1], caps[..k];
    assert forall i :: 0 <= i < k - 1 ==> next[i] == now[i];
    if cap != 0.0 {
      var i :| 0 <= i < |now| && now[i] == cap && forall j :: 0 <= j < i ==> now[j] == 0.0;
      assert next[i] == cap;
    } else if caps[k - 1] != 0.0 {
      assert next[k - 1] == caps[k - 1];
    }
  }

  /** The record of a traffic talent, from its destinations: it is paid what the conversions are worth, within
      the budget, unless the budget per conversion, rounded, exceeds the first cap; then every conversion is
      paid at that cap, and what that saves is forfeited. */
  lemma TrafficRecord(t: TalentInput, r: TalentResult)
    requires Wholesome(t)
    ensures var out := Traffic(t, r);
            var worth, total := Sum(Worths(t.destinations)), Sum(Conversions(t.destinations));
            var base, budget := Min(worth, t.allocatedBudget), t.allocatedBudget;
            && FirstNonZero(UnitCaps(t.destinations), out.capApplied)
            && (out.capExceeded <==>
                 total > 0.0 && out.capApplied > 0.0 && budget >= total * out.capApplied + total * 0.005)
            && out.grossBase == (if out.capExceeded then total * out.capApplied else base)
            && out.excessForfeited == (if out.capExceeded then Max(base - total * out.capApplied, 0.0) else 0.0)
            && (if total > 0.0 then budget / total - 0.005 <= out.costPerUnit <= budget / total + 0.005
                else out.costPerUnit == 0.0)
  {
    hide IsKobo, IsWhole, MoneyRound, Sum, BaseValue, TotalConversions, FirstCap, Worths, Conversions, UnitCaps,
      FirstNonZero;
    var ds, n := t.destinations, |t.destinations|;
    DestinationTotals(ds, n);
    WholeLists(ds);
    DestinationSums(ds, n);
    TrafficBounds(t, r);
    var total, cap, base := TotalConversions(ds, n), FirstCap(ds, n), Min(BaseValue(ds, n), t.allocatedBudget);
    KoboIsFixed(base);
    TimesExact(total, cap);
    KoboSum(base, MoneyTimes(total, cap));
    KoboIsFixed(base - MoneyTimes(total, cap));
    if total > 0.0 {
      RoundsToKobo(t.allocatedBudget / total);
    }
  }

  lemma WholeLists(ds: seq<Destination>)
    ensures Worths(ds)[..|ds|] == Worths(ds) && Conversions(ds)[..|ds|] == Conversions(ds)
    ensures UnitCaps(ds)[..|ds|] == UnitCaps(ds)
  {
  }

  /** With a single destination the cap branch never changes anything: the talent gets the conversions at
      the cap, limited by the budget, and forfeits nothing. */
  lemma SingleDestination(t: TalentInput, r: TalentResult)
    requires Wholesome(t) && |t.destinations| == 1
    ensures var d := t.destinations[0];
            && Traffic(t, r).grossBase == Min(d.conversions * UnitCap(d), t.allocatedBudget)
            && Traffic(t, r).excessForfeited == 0.0
  {
    hide IsKobo, IsWhole, MoneyRound, MoneyTimes, UnitCap;
    var d := t.destinations[0];
    var worth := MoneyTimes(d.conversions, UnitCap(d));
    TrafficBounds(t, r);
    TimesExact(d.conversions, UnitCap(d));
    assert BaseValue(t.destinations, 0) == 0.0 && TotalConversions(t.destinations, 0) == 0.0 &&
      FirstCap(t.destinations, 0) == 0.0;
    assert BaseValue(t.destinations, 1) == worth;
    assert TotalConversions(t.destinations, 1) == d.conversions && FirstCap(t.destinations, 1) == UnitCap(d);
    var base := Min(worth, t.allocatedBudget);
    assert base == worth || base == t.allocatedBudget;
    KoboIsFixed(base);
    NairaIsFixed(0);
    RoundBelow(base - worth, 0.0);
    if Traffic(t, r).capExceeded {
      MulNonNegative(d.conversions, 0.005);
    }
  }

  /** With several destinations it can pay more than the conversions are worth: ten conversions at 1 naira
      each are paid 100 because the first destination, without conversions, has a cap of 10. */
  lemma CapBranchCanOverpay(t: TalentInput, r: TalentResult)
    requires t.destinations == [Destination("dear", 10.0, 0.0, 0.0), Destination("cheap", 1.0, 0.0, 10.0)]
    requires t.allocatedBudget == 1000.0
    ensures BaseValue(t.destinations, 2) == 10.0
    ensures Traffic(t, r).grossBase == 100.0
  {
    hide MoneyRound;
    var ds := t.destinations;
    NairaIsFixed(0);
    NairaIsFixed(10);
    NairaIsFixed(100);
    assert BaseValue(ds, 0) == 0.0 && TotalConversions(ds, 0) == 0.0 && FirstCap(ds, 0) == 0.0;
    assert MoneyTimes(0.0, 10.0) == 0.0 && MoneyTimes(10.0, 1.0) == 10.0;
    assert BaseValue(ds, 1) == 0.0 && TotalConversions(ds, 1) == 0.0 && FirstCap(ds, 1) == 10.0;
    assert BaseValue(ds, 2) == 10.0 && TotalConversions(ds, 2) == 10.0 && FirstCap(ds, 2) == 10.0;
    assert MoneyRound(1000.0 / 10.0) == 100.0 && MoneyTimes(10.0, 10.0) == 100.0;
  }

  /** Exactly when that happens: the cap branch is taken and the first destination's cap, applied to all
      conversions, comes to more than the conversions are worth at their own caps. */
  lemma OverpaysExactly(t: TalentInput, r: TalentResult)
    requires Wholesome(t)
    ensures var n := |t.destinations|;
            var total, cap := TotalConversions(t.destinations, n), FirstCap(t.destinations, n);
            Traffic(t, r).grossBase > BaseValue(t.destinations, n) <==>
              total * cap > BaseValue(t.destinations, n) && t.allocatedBudget >= total * cap + total * 0.005
  {
    hide IsKobo, IsWhole, MoneyRound, Traffic;
    var ds, n := t.destinations, |t.destinations|;
    TrafficBounds(t, r);
    DestinationSums(ds, n);
    var total, cap := TotalConversions(ds, n), FirstCap(ds, n);
    assert total == 0.0 || cap == 0.0 ==> total * cap == 0.0;
  }

  // ------------------------------------------------------------------------- one talent's chain

  lemma {:induction false} BonusSums(bs: seq<Bonus>, k: nat)
    requires k <= |bs| && forall i :: 0 <= i < |bs| ==> Amount(bs[i].amount) && bs[i].triggerCount >= 0
    ensures Amount(BonusSum(bs, k))
  {
    hide IsKobo, IsWhole, MoneyRound, MoneyTimes;
    NairaIsFixed(0);
    if k > 0 {
      BonusSums(bs, k - 1);
      IntIsWhole(bs[k - 1].triggerCount);
      TimesExact(bs[k - 1].triggerCount as real, bs[k - 1].amount);
      KoboSum(BonusSum(bs, k - 1), BonusValue(bs[k - 1]));
    }
  }

  function BonusWorths(bs: seq<Bonus>): (r: seq<real>) {
    seq(|bs|, i requires 0 <= i < |bs| => Times(bs[i].triggerCount as real, bs[i].amount))
  }

  /** What the bonuses come to: each amount as often as it was triggered. */
  lemma {:induction false} BonusTotals(bs: seq<Bonus>, k: nat)
    requires k <= |bs| && forall i :: 0 <= i < |bs| ==> Amount(bs[i].amount) && bs[i].triggerCount >= 0
    ensures BonusSum(bs, k) == Sum(BonusWorths(bs[..k]))
  {
    hide IsKobo, IsWhole, MoneyRound, MoneyTimes, Sum;
    if k == 0 {
      SumOfEmpty(BonusWorths(bs[..0]));
    } else {
      BonusTotals(bs, k - 1);
      IntIsWhole(bs[k - 1].triggerCount);
      TimesExact(bs[k - 1].triggerCount as real, bs[k - 1].amount);
      var before, next := BonusWorths(bs[..k - 1]), Times(bs[k - 1].triggerCount as real, bs[k - 1].amount);
      assert BonusWorths(bs[..k]) == before + [next];
      SumAppend(before, next);
    }
  }

  lemma IntIsWhole(n: int)
    ensures IsWhole(n as real)
  {
  }

  /** Bonuses are paid in full, or as far as the budget goes when no separate pool pays them. */
  lemma LeadBonuses(t: TalentInput, r: TalentResult)
    requires Wholesome(t)
    ensures var out := Lead(t, r);
            && 0.0 <= out.grossBase <= t.allocatedBudget && IsKobo(out.grossBase)
            && Amount(out.kpbTotal) && Amount(out.grossTotal) && out.grossTotal == out.grossBase + out.kpbTotal
            && out.kpbTotal == (var sum := BonusSum(t.bonuses, |t.bonuses|);
                                if t.kpbFromPool then sum else Min(sum, t.allocatedBudget - out.grossBase))
            && (!t.kpbFromPool ==> out.grossTotal <= t.allocatedBudget)
  {
    hide IsKobo, IsWhole, MoneyRound, MoneyTimes;
    NairaIsFixed(0);
    if t.validLeads > 0.0 {
      LeadSplitsBudget(t);
    }
    BonusSums(t.bonuses, |t.bonuses|);
    var gross, sum := LeadBase(t).0, BonusSum(t.bonuses, |t.bonuses|);
    KoboSum(t.allocatedBudget, gross);
    KoboIsFixed(t.allocatedBudget - gross);
    KoboIsFixed(sum);
    KoboSum(gross, LeadBonus(t, gross));
    KoboIsFixed(gross + LeadBonus(t, gross));
  }

  /** The record of a lead talent: it is paid its budget for any number of leads, unless the budget per lead,
      rounded, exceeds the cap; then the leads are paid at the cap and the rest of the budget is forfeited.  Bonuses
      come on top, out of what the budget leaves unless a separate pool pays them. */
  lemma LeadRecord(t: TalentInput, r: TalentResult)
    requires Wholesome(t)
    ensures var out, leads, budget := Lead(t, r), t.validLeads, t.allocatedBudget;
            var cap, bonus := t.anchorLeadCost + t.costVarianceL, Sum(BonusWorths(t.bonuses));
            && out.capApplied == cap
            && (out.capExceeded <==> leads > 0.0 && budget >= leads * cap + leads * 0.005)
            && out.grossBase ==
               (if leads == 0.0 then 0.0 else if out.capExceeded then leads * cap else budget)
            && out.excessForfeited == (if out.capExceeded then budget - leads * cap else 0.0)
            && out.kpbTotal == (if t.kpbFromPool then bonus else Min(bonus, budget - out.grossBase))
            && out.grossTotal == out.grossBase + out.kpbTotal
            && (if leads > 0.0 then budget / leads - 0.005 <= out.costPerUnit <= budget / leads + 0.005
                else out.costPerUnit == 0.0)
  {
    hide IsKobo, IsWhole, MoneyRound, MoneyTimes, Sum, BonusSum;
    if t.validLeads > 0.0 {
      LeadSplitsBudget(t);
      RoundsToKobo(t.allocatedBudget / t.validLeads);
    }
    LeadBonuses(t, r);
    BonusTotals(t.bonuses, |t.bonuses|);
    assert t.bonuses[..|t.bonuses|] == t.bonuses;
  }

  predicate BonusesWithinBudget(t: TalentInput) {
    t.pipeline == LeadValidation ==> !t.kpbFromPool
  }

  lemma GrossBounds(t: TalentInput)
    requires Wholesome(t)
    ensures Amount(Gross(t).grossTotal) && Amount(Gross(t).kpbTotal)
    ensures BonusesWithinBudget(t) ==> Gross(t).grossTotal <= t.allocatedBudget
  {
    hide IsKobo, IsWhole, MoneyRound, MoneyTimes, Traffic, Lead;
    NairaIsFixed(0);
    match t.pipeline
    case DirectTraffic =>
      TrafficBounds(t, Blank(t));
      TrafficKpb(t, Blank(t));
    case LeadValidation => LeadBonuses(t, Blank(t));
    case OtherPipeline(_) =>
  }

  lemma TrafficKpb(t: TalentInput, r: TalentResult)
    ensures Traffic(t, r).kpbTotal == r.kpbTotal
  {
  }

  /** A whole-kobo amount times a fraction. */
  lemma FractionBounds(x: real, f: real)
    requires Amount(x) && 0.0 <= f <= 1.0
    ensures 0.0 <= MoneyTimes(x, f) <= x && IsKobo(MoneyTimes(x, f))
  {
    hide IsKobo;
    MulNonNegative(x, f);
    MulMonotone(f, 1.0, x);
    RoundsToKobo(x * f);
    RoundBelow(x * f, x);
  }

  /** The commission falls exactly halfway between two kobo. */
  predicate HalfKobo(gross: real, rate: real) {
    var exact := gross * rate * 100.0;
    exact - exact.Floor as real == 0.5
  }

  /** The two sides of the commission add up to the gross, or to one kobo more exactly when the
      commission falls halfway between two kobo. */
  lemma CommissionSplits(gross: real, rate: real)
    requires Amount(gross) && 0.0 <= rate <= 1.0
    ensures MoneyTimes(gross, rate) + MoneyTimes(gross, 1.0 - rate) ==
            gross + (if HalfKobo(gross, rate) then 0.01 else 0.0)
  {
    hide Round;
    var k, x := Kobo(gross), gross * rate * 100.0;
    MulNonNegative(gross, rate);
    MulMonotone(rate, 1.0, gross);
    assert gross * (1.0 - rate) * 100.0 == k as real - x;
    TimesIs(gross, rate, x);
    TimesIs(gross, 1.0 - rate, k as real - x);
    SplitRounding(k, x);
  }

  lemma RoundedTimes(x: real, y: real)
    ensures MoneyTimes(x, y) - 0.005 <= Times(x, y) <= MoneyTimes(x, y) + 0.005
  {
    RoundsToKobo(x * y);
  }

  lemma TimesIs(a: real, b: real, z: real)
    requires a * b * 100.0 == z
    ensures MoneyTimes(a, b) == Round(z) as real / 100.0
  {
  }

  /** For every paid talent, whatever the destinations, leads, bonuses and pool: nothing negative, and
      payout at most net, net at most gross, gross at most the allocated budget. */
  lemma PayoutChain(t: TalentInput, scale: real)
    requires Wholesome(t) && !Forfeits(t) && 0.0 <= scale <= 1.0
    ensures var r := Paid(t, scale);
            && 0.0 <= r.finalPayout <= r.eNet <= r.grossTotal
            && (BonusesWithinBudget(t) ==> r.grossTotal <= t.allocatedBudget)
            && IsKobo(r.finalPayout) && IsKobo(r.eNet) && IsKobo(r.grossTotal)
            && r.commissionAmount + r.eNet ==
               r.grossTotal + (if HalfKobo(r.grossTotal, t.commissionRate) then 0.01 else 0.0)
            && r.eNet - 0.005 <= Times(r.grossTotal, 1.0 - t.commissionRate) <= r.eNet + 0.005
            && r.finalPayout - 0.005 <= Times(r.eNet, scale) <= r.finalPayout + 0.005
  {
    hide IsKobo, IsWhole, MoneyRound, MoneyTimes, Gross, HalfKobo, Times;
    var g := Gross(t);
    GrossBounds(t);
    FractionBounds(g.grossTotal, 1.0 - t.commissionRate);
    CommissionSplits(g.grossTotal, t.commissionRate);
    FractionBounds(Earned(t).eNet, scale);
    RoundedTimes(g.grossTotal, 1.0 - t.commissionRate);
    RoundedTimes(Earned(t).eNet, scale);
  }

  /** Scaling never reorders two talents. */
  lemma ScalingKeepsOrder(a: TalentInput, b: TalentInput, scale: real)
    requires !Forfeits(a) && !Forfeits(b) && scale >= 0.0 && Earned(a).eNet <= Earned(b).eNet
    ensures Paid(a, scale).finalPayout <= Paid(b, scale).finalPayout
  {
    hide Earned, MoneyTimes;
    TimesKeepsOrder(Earned(a).eNet, Earned(b).eNet, scale);
  }

  lemma TimesKeepsOrder(x: real, y: real, scale: real)
    requires x <= y && scale >= 0.0
    ensures MoneyTimes(x, scale) <= MoneyTimes(y, scale)
  {
    MulMonotone(x, y, scale);
    RoundKeepsOrder(x * scale, y * scale);
  }

  // -------------------------------------------------------------------------------- the whole pool

  ghost predicate AllWholesome(ts: seq<TalentInput>) {
    forall i :: 0 <= i < |ts| ==> Wholesome(ts[i])
  }

  /** One talent's part in the sums. */
  lemma OnePart(t: TalentInput, scale: real)
    requires Wholesome(t) && 0.0 <= scale <= 1.0
    ensures Amount(Earned(t).eNet) && Amount(Paid(t, scale).finalPayout)
    ensures Forfeits(t) ==> Earned(t).eNet == 0.0 && Paid(t, scale).finalPayout == 0.0
    ensures !Forfeits(t) ==>
      scale * Earned(t).eNet - 0.005 <= Paid(t, scale).finalPayout <= scale * Earned(t).eNet + 0.005
    ensures scale == 1.0 ==> Paid(t, scale).finalPayout == Earned(t).eNet
  {
    hide IsKobo, IsWhole, MoneyRound, MoneyTimes, Gross;
    NairaIsFixed(0);
    if !Forfeits(t) {
      PayoutChain(t, scale);
      ShareError(Earned(t).eNet, scale);
    }
  }

  lemma ShareError(net: real, scale: real)
    requires Amount(net)
    ensures scale * net - 0.005 <= MoneyTimes(net, scale) <= scale * net + 0.005
    ensures scale == 1.0 ==> MoneyTimes(net, scale) == net
  {
    RoundsToKobo(net * scale);
    KoboIsFixed(net);
  }

  lemma {:induction false} SumsAreAmounts(ts: seq<TalentInput>, scale: real, k: nat)
    requires AllWholesome(ts) && k <= |ts| && 0.0 <= scale <= 1.0
    ensures Amount(NetSum(ts, k)) && Amount(PaidSum(ts, scale, k)) && Amount(ForfeitSum(ts, k))
    ensures scale == 1.0 ==> PaidSum(ts, scale, k) == NetSum(ts, k)
  {
    hide IsKobo, Earned, Paid;
    NairaIsFixed(0);
    if k > 0 {
      SumsAreAmounts(ts, scale, k - 1);
      var t := ts[k - 1];
      OnePart(t, scale);
      KoboSum(ForfeitSum(ts, k - 1), if Forfeits(t) then t.allocatedBudget else 0.0);
      KoboSum(NetSum(ts, k - 1), Earned(t).eNet);
      KoboSum(PaidSum(ts, scale, k - 1), Paid(t, scale).finalPayout);
    }
  }

  lemma {:induction false} PaidIsCloseToShare(ts: seq<TalentInput>, scale: real, k: nat)
    requires AllWholesome(ts) && k <= |ts| && 0.0 <= scale <= 1.0
    ensures scale * NetSum(ts, k) - 0.005 * PaidCount(ts, k) as real <= PaidSum(ts, scale, k)
    ensures PaidSum(ts, scale, k) <= scale * NetSum(ts, k) + 0.005 * PaidCount(ts, k) as real
  {
    hide IsKobo, Earned, Paid, Wholesome;
    if k > 0 {
      PaidIsCloseToShare(ts, scale, k - 1);
      var net := Earned(ts[k - 1]).eNet;
      OnePart(ts[k - 1], scale);
      assert scale * (NetSum(ts, k - 1) + net) == scale * NetSum(ts, k - 1) + scale * net;
    }
  }

  lemma ScaleRange(ts: seq<TalentInput>, pool: PoolInput)
    requires AllWholesome(ts)
    ensures 0.0 <= Scale(ts, pool) <= 1.0
    ensures pool.availablePool > 0.0 ==> Scale(ts, pool) * NetSum(ts, |ts|) == Min(pool.availablePool, NetSum(ts, |ts|))
    ensures Scale(ts, pool) == 1.0 <==> NetSum(ts, |ts|) <= pool.availablePool || pool.availablePool <= 0.0
  {
    hide Earned, NetSum;
    var net, p := NetSum(ts, |ts|), pool.availablePool;
    if net > p && p > 0.0 {
      Ratio(p, net);
    }
  }

  lemma Ratio(p: real, net: real)
    requires net > p > 0.0
    ensures 0.0 < p / net < 1.0 && p / net * net == p
  {
    DivBoundsBelow(p, net, 1.0);
    DivBounds(p, net, 0.0);
  }

  /** Rounding changes none of the sums: they are whole kobo. */
  lemma SettledSums(ts: seq<TalentInput>, pool: PoolInput, out: CycleOutput)
    requires AllWholesome(ts) && IsKobo(pool.availablePool) && Settles(ts, pool, out)
    ensures var paid := PaidSum(ts, Scale(ts, pool), |ts|);
            && out.totalPaid == paid && out.forfeitsReturned == ForfeitSum(ts, |ts|)
            && out.unallocatedNext == pool.availablePool - paid + out.forfeitsReturned
  {
    hide IsKobo, IsWhole, MoneyRound, MoneyTimes, Earned, Paid, Scale, NetSum, PaidSum, ForfeitSum, PaidCount,
      Wholesome;
    var n, scale := |ts|, Scale(ts, pool);
    ScaleRange(ts, pool);
    SumsAreAmounts(ts, scale, n);
    var paid, p, f := PaidSum(ts, scale, n), pool.availablePool, ForfeitSum(ts, n);
    KoboIsFixed(paid);
    KoboSum(p, paid);
    KoboIsFixed(p - paid);
    KoboSum(p - paid, f);
    KoboIsFixed(p - paid + f);
  }

  /** Every settled cycle conserves money, for whole-kobo inputs: what is paid and what rolls over
      add up to the pool and the forfeits; the total paid is the pool or the net demand, whichever is
      less, up to half a kobo per paid talent, and exactly the demand when nobody is scaled. */
  lemma PoolIsConserved(ts: seq<TalentInput>, pool: PoolInput, out: CycleOutput)
    requires AllWholesome(ts) && IsKobo(pool.availablePool) && Settles(ts, pool, out)
    ensures out.totalPaid + out.unallocatedNext == pool.availablePool + out.forfeitsReturned
    ensures var target := Min(pool.availablePool, NetSum(ts, |ts|));
            pool.availablePool > 0.0 ==>
              -0.005 * PaidCount(ts, |ts|) as real <= out.totalPaid - target <= 0.005 * PaidCount(ts, |ts|) as real
    ensures NetSum(ts, |ts|) <= pool.availablePool || pool.availablePool <= 0.0 ==> out.totalPaid == NetSum(ts, |ts|)
  {
    hide IsKobo, Settles, Earned, Paid, Scale, NetSum, PaidSum, ForfeitSum, PaidCount, Wholesome;
    var n, scale := |ts|, Scale(ts, pool);
    ScaleRange(ts, pool);
    SettledSums(ts, pool, out);
    SumsAreAmounts(ts, scale, n);
    PaidIsCloseToShare(ts, scale, n);
  }

  // ------------------------------------------------------------------------------ overdrawn pools

  /** Every talent is owed one kobo. */
  ghost predicate OneKoboEach(ts: seq<TalentInput>) {
    forall i :: 0 <= i < |ts| ==> !Forfeits(ts[i]) && Earned(ts[i]).eNet == 0.01
  }

  lemma {:induction false} OneKoboSums(ts: seq<TalentInput>, scale: real, k: nat)
    requires OneKoboEach(ts) && k <= |ts| && 0.5 <= scale <= 1.0
    ensures NetSum(ts, k) == k as real / 100.0 && PaidSum(ts, scale, k) == k as real / 100.0
  {
    hide Earned, MoneyTimes;
    if k > 0 {
      OneKoboSums(ts, scale, k - 1);
      OneKoboRoundsUp(scale);
    }
  }

  lemma OneKoboRoundsUp(scale: real)
    requires 0.5 <= scale <= 1.0
    ensures MoneyTimes(0.01, scale) == 0.01
  {
    assert 0.01 * scale * 100.0 == scale;
    assert Round(scale) == 1;
  }

  /** The half kobo per talent is real: n talents owed one kobo each, from a pool of k kobo with n/2 <= k < n,
      are all paid in full, n kobo in all.  With k = n/2 the pool is overdrawn by half a kobo per talent. */
  lemma RoundingOverdrawsThePool(ts: seq<TalentInput>, k: nat, pool: PoolInput, out: CycleOutput)
    requires OneKoboEach(ts) && |ts| <= 2 * k && k < |ts| && pool.availablePool == k as real / 100.0
    requires Settles(ts, pool, out)
    ensures out.totalPaid == |ts| as real / 100.0 > pool.availablePool
    ensures |ts| == 2 * k ==> out.totalPaid - pool.availablePool == 0.005 * PaidCount(ts, |ts|) as real
  {
    hide Earned, Paid, MoneyRound, NetSum, PaidSum, Scale, Settles, OneKoboEach, IsKobo, PaidCount;
    var n := |ts|;
    OneKoboSums(ts, 1.0, n);
    ScaleOfHalf(ts, k, pool);
    OneKoboSums(ts, Scale(ts, pool), n);
    SettledTotal(ts, pool, out);
    KoboCount(n);
    AllPaid(ts, n);
  }

  lemma KoboCount(n: nat)
    ensures MoneyRound(n as real / 100.0) == n as real / 100.0
  {
    WholeKobo(n as real / 100.0, n);
    KoboIsFixed(n as real / 100.0);
  }

  lemma SettledTotal(ts: seq<TalentInput>, pool: PoolInput, out: CycleOutput)
    requires Settles(ts, pool, out)
    ensures out.totalPaid == MoneyRound(PaidSum(ts, Scale(ts, pool), |ts|))
  {
  }

  lemma ScaleOfHalf(ts: seq<TalentInput>, k: nat, pool: PoolInput)
    requires |ts| <= 2 * k && k < |ts| && pool.availablePool == k as real / 100.0
    requires NetSum(ts, |ts|) == |ts| as real / 100.0
    ensures 0.5 <= Scale(ts, pool) <= 1.0
  {
    hide NetSum;
    Half(k, |ts|);
  }

  lemma Half(k: nat, n: nat)
    requires n <= 2 * k && k < n
    ensures var pool, net := k as real / 100.0, n as real / 100.0; net > 0.0 && 0.5 <= pool / net <= 1.0
  {
    var pool, net := k as real / 100.0, n as real / 100.0;
    assert 0.5 * net <= pool <= 1.0 * net;
    DivBoundsBelow(pool, net, 0.5);
    DivBounds(pool, net, 1.0);
  }

  lemma {:induction false} AllPaid(ts: seq<TalentInput>, k: nat)
    requires OneKoboEach(ts) && k <= |ts|
    ensures PaidCount(ts, k) == k
  {
    hide Earned;
    if k > 0 {
      AllPaid(ts, k - 1);
    }
  }

  /** A single paid talent never overdraws a pool: scaling pays it exactly what there is. */
  lemma OnePaidTalentFits(ts: seq<TalentInput>, pool: PoolInput, out: CycleOutput)
    requires AllWholesome(ts) && Amount(pool.availablePool) && pool.availablePool > 0.0 && Settles(ts, pool, out)
    requires PaidCount(ts, |ts|) == 1
    ensures out.totalPaid == Min(pool.availablePool, NetSum(ts, |ts|))
  {
    hide IsKobo, IsWhole, MoneyRound, MoneyTimes, Earned, Paid, Scale, NetSum, PaidSum, ForfeitSum, PaidCount,
      AllWholesome, Settles;
    var n, scale := |ts|, Scale(ts, pool);
    SettledTotal(ts, pool, out);
    ScaleRange(ts, pool);
    OneShare(ts, scale, n);
    assert PaidSum(ts, scale, n) == MoneyTimes(NetSum(ts, n), scale);
    SumsAreAmounts(ts, scale, n);
    ExactShare(NetSum(ts, n), scale, pool.availablePool);
  }

  lemma ExactShare(net: real, scale: real, p: real)
    requires IsKobo(net) && IsKobo(p) && scale * net == Min(p, net)
    ensures MoneyRound(MoneyTimes(net, scale)) == Min(p, net)
  {
    hide MoneyRound, IsKobo;
    assert net * scale == scale * net;
    KoboIsFixed(Min(p, net));
  }

  lemma {:induction false} OneShare(ts: seq<TalentInput>, scale: real, k: nat)
    requires AllWholesome(ts) && k <= |ts| && 0.0 <= scale <= 1.0 && PaidCount(ts, k) <= 1
    ensures PaidCount(ts, k) == 0 ==> NetSum(ts, k) == 0.0 && PaidSum(ts, scale, k) == 0.0
    ensures PaidCount(ts, k) == 1 ==> PaidSum(ts, scale, k) == MoneyTimes(NetSum(ts, k), scale)
  {
    hide Earned, MoneyTimes, Wholesome;
    if k > 0 {
      OneShare(ts, scale, k - 1);
      StatusKept(ts[k - 1], scale);
    }
  }

  /** Such talents exist: a lead worth one kobo. */
  lemma OneKobo(t: TalentInput)
    requires t.pipeline == LeadValidation && t.allocatedBudget == 0.01 && t.validLeads == 1.0 && LeadCap(t) == 1.0
    requires t.bonuses == [] && !t.kpbFromPool && t.commissionRate == 0.0 && !Forfeits(t)
    ensures Earned(t).eNet == 0.01
  {
    assert MoneyRound(0.01) == 0.01 && MoneyRound(0.01 / 1.0) == 0.01 && MoneyRound(0.0) == 0.0;
    assert LeadBase(t).0 == 0.01;
    assert BonusSum(t.bonuses, 0) == 0.0;
    assert Lead(t, Blank(t)).grossTotal == 0.01;
    assert MoneyTimes(0.01, 1.0) == 0.01;
  }

  lemma OneNaira(t: TalentInput)
    requires t.anchorLeadCost == 1.0 && t.costVarianceL == 0.0
    ensures LeadCap(t) == 1.0
  {
  }

  /** Two of them share a pool of one kobo. */
  lemma RoundingCanOverdrawThePool(out: CycleOutput)
    requires var t := TalentInput("a", LeadValidation, 0.01, [], 1.0, 1.0, 0.0, [], false, 0.0, "active", false);
             Settles([t, t.(talentId := "b")], PoolInput(0.01, 0.0), out)
    ensures out.totalPaid == 0.02
  {
    var t := TalentInput("a", LeadValidation, 0.01, [], 1.0, 1.0, 0.0, [], false, 0.0, "active", false);
    hide Earned, Settles, LeadCap, PaidCount;
    assert LeadCap(t) == 1.0 && LeadCap(t.(talentId := "b")) == 1.0 by { OneNaira(t); OneNaira(t.(talentId := "b")); }
    OneKobo(t);
    OneKobo(t.(talentId := "b"));
    RoundingOverdrawsThePool([t, t.(talentId := "b")], 1, PoolInput(0.01, 0.0), out);
  }
}
