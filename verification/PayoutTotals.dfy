/** Where a cycle's totals come from: the talents' own results, and the budgets of those who forfeit. */
module PayoutTotals {
  import opened Permutations
  import opened Money
  import opened Payout

  // ----------------------------------------------------------------------- totals from the results

  function Nets(rs: seq<TalentResult>): (r: seq<real>) { seq(|rs|, i requires 0 <= i < |rs| => rs[i].eNet) }

  function Kpbs(rs: seq<TalentResult>): (r: seq<real>) { seq(|rs|, i requires 0 <= i < |rs| => rs[i].kpbTotal) }

  function Payouts(rs: seq<TalentResult>): (r: seq<real>) { seq(|rs|, i requires 0 <= i < |rs| => rs[i].finalPayout) }

  /** What each talent gives back: the whole allocated budget, or nothing. */
  function Returns(ts: seq<TalentInput>): (r: seq<real>) {
    seq(|ts|, i requires 0 <= i < |ts| => if ts[i].status == "removed_forfeit" then ts[i].allocatedBudget else 0.0)
  }

  function Results(ts: seq<TalentInput>, scale: real): (r: seq<TalentResult>) {
    seq(|ts|, i requires 0 <= i < |ts| => Paid(ts[i], scale))
  }

  lemma {:induction false} SumsOfResults(ts: seq<TalentInput>, scale: real, k: nat)
    requires k <= |ts|
    ensures var rs := Results(ts, scale)[..k];
            && NetSum(ts, k) == Sum(Nets(rs)) && KpbSum(ts, k) == Sum(Kpbs(rs))
            && PaidSum(ts, scale, k) == Sum(Payouts(rs))
    ensures ForfeitSum(ts, k) == Sum(Returns(ts)[..k])
  {
    hide Earned, Paid, Sum;
    if k == 0 {
      SumsOfNothing(Results(ts, scale)[..0], Returns(ts)[..0]);
    } else {
      SumsOfResults(ts, scale, k - 1);
      var before, r := Results(ts, scale)[..k - 1], Paid(ts[k - 1], scale);
      assert Results(ts, scale)[..k] == before + [r];
      OneMoreResult(before, r);
      assert Returns(ts)[..k] == Returns(ts)[..k - 1] + [Returns(ts)[k - 1]];
      SumAppend(Returns(ts)[..k - 1], Returns(ts)[k - 1]);
      PaidKeepsEarned(ts[k - 1], scale);
    }
  }

  lemma SumsOfNothing(rs: seq<TalentResult>, back: seq<real>)
    requires rs == [] && back == []
    ensures Sum(Nets(rs)) == Sum(Kpbs(rs)) == Sum(Payouts(rs)) == Sum(back) == 0.0
  {
  }

  lemma OneMoreResult(rs: seq<TalentResult>, r: TalentResult)
    ensures Sum(Nets(rs + [r])) == Sum(Nets(rs)) + r.eNet && Sum(Kpbs(rs + [r])) == Sum(Kpbs(rs)) + r.kpbTotal
    ensures Sum(Payouts(rs + [r])) == Sum(Payouts(rs)) + r.finalPayout
  {
    hide Sum;
    assert Nets(rs + [r]) == Nets(rs) + [r.eNet];
    assert Kpbs(rs + [r]) == Kpbs(rs) + [r.kpbTotal];
    assert Payouts(rs + [r]) == Payouts(rs) + [r.finalPayout];
    SumAppend(Nets(rs), r.eNet);
    SumAppend(Kpbs(rs), r.kpbTotal);
    SumAppend(Payouts(rs), r.finalPayout);
  }

  lemma PaidKeepsEarned(t: TalentInput, scale: real)
    ensures Paid(t, scale).eNet == Earned(t).eNet && Paid(t, scale).kpbTotal == Earned(t).kpbTotal
  {
  }

  /** A settled cycle's figures follow from the records it returns: the scale is what the pool covers of the
      sum of the nets, what is paid is the sum of the payouts, both pools are drawn down by what the records
      say, and what comes back is the budgets of those who forfeit. */
  lemma TotalsAddUp(ts: seq<TalentInput>, pool: PoolInput, out: CycleOutput)
    requires Settles(ts, pool, out)
    ensures var net, paid := Sum(Nets(out.results)), Sum(Payouts(out.results));
            && out.scaleFactor == (if net > pool.availablePool > 0.0 then pool.availablePool / net else 1.0)
            && out.totalPaid == MoneyRound(paid) && out.unspent == MoneyRound(pool.availablePool - paid)
    ensures var left := MoneyRound(pool.kpbPool - Sum(Kpbs(out.results)));
            out.kpbUnspent == if left < 0.0 then 0.0 else left
    ensures out.forfeitsReturned == Sum(Returns(ts))
    ensures out.unallocatedNext == MoneyRound(out.unspent + out.forfeitsReturned)
  {
    hide Paid, MoneyRound, NetSum, KpbSum, PaidSum, ForfeitSum, Sum, Nets, Kpbs, Payouts, Returns;
    var n, scale := |ts|, out.scaleFactor;
    SumsOfResults(ts, scale, n);
    assert Results(ts, scale)[..n] == Results(ts, scale) == out.results;
    assert Returns(ts)[..n] == Returns(ts) by { ReturnsSize(ts); }
  }

  lemma ReturnsSize(ts: seq<TalentInput>)
    ensures |Returns(ts)| == |ts|
  {
  }

  /** Every record carries its talent's identity and says who was scaled and where bonuses came from. */
  lemma RecordsNameTheirTalents(ts: seq<TalentInput>, pool: PoolInput, out: CycleOutput, i: nat)
    requires Settles(ts, pool, out) && i < |ts|
    ensures |out.results| == |ts|
    ensures var t, r := ts[i], out.results[i];
            && r.talentId == t.talentId && r.pipeline == t.pipeline && r.status == t.status
            && r.fallbackFlagged == t.fallbackFlagged
            && r.scaleFactor == (if t.status == "removed_forfeit" then 0.0 else out.scaleFactor)
            && (t.status != "removed_forfeit" ==>
                  r.kpbPoolSource == if !t.pipeline.LeadValidation? then "n/a"
                                     else if t.kpbFromPool then "separate_pool" else "allocated_budget")
  {
    hide Scale, MoneyRound, MoneyTimes;
  }

  /** A talent of any other pipeline is recorded, and earns nothing. */
  lemma OtherPipelinesEarnNothing(t: TalentInput, scale: real)
    requires t.pipeline.OtherPipeline?
    ensures var r := Paid(t, scale);
            && r.grossBase == 0.0 && r.kpbTotal == 0.0 && r.grossTotal == 0.0 && r.excessForfeited == 0.0
            && r.commissionAmount == 0.0 && r.eNet == 0.0 && r.finalPayout == 0.0
  {
    NairaIsFixed(0);
  }

  // ------------------------------------------------------------------------------ who forfeits

  /** A talent who forfeits is recorded with nothing paid, wherever it stands in the list; nobody else's record,
      nor the scale, nor what is paid and unspent, depends on it; and exactly its allocated budget comes back,
      which, in whole kobo, is what rolls over in addition. */
  lemma ForfeitsComeBack(ts: seq<TalentInput>, pool: PoolInput, out: CycleOutput, out': CycleOutput, p: nat)
    requires p < |ts| && ts[p].status == "removed_forfeit"
    requires Settles(ts, pool, out') && Settles(Without(ts, p), pool, out)
    ensures |out'.results| == |ts| && Without(out'.results, p) == out.results
    ensures out'.results[p].finalPayout == 0.0 && out'.results[p].eNet == 0.0
    ensures out'.scaleFactor == out.scaleFactor && out'.totalPaid == out.totalPaid
    ensures out'.unspent == out.unspent && out'.kpbUnspent == out.kpbUnspent
    ensures out'.forfeitsReturned == out.forfeitsReturned + ts[p].allocatedBudget
    ensures IsKobo(out.forfeitsReturned) && IsKobo(ts[p].allocatedBudget) ==>
              out'.unallocatedNext == out.unallocatedNext + ts[p].allocatedBudget
  {
    hide Paid, MoneyRound, Sum, IsKobo, Settles, Nets, Kpbs, Payouts, Returns;
    var rest := Without(ts, p);
    TotalsAddUp(ts, pool, out');
    TotalsAddUp(rest, pool, out);
    SameScale(ts, pool, out, out', p);
    SameRecords(ts, pool, out, out', p);
    DropsOut(out'.results, p);
    ReturnsWithout(ts, p);
    SumWithout(Returns(ts), p);
    RolledOver(pool.availablePool - Sum(Payouts(out.results)), out.forfeitsReturned, ts[p].allocatedBudget);
  }

  lemma SettledRecords(ts: seq<TalentInput>, pool: PoolInput, out: CycleOutput)
    requires Settles(ts, pool, out)
    ensures |out.results| == |ts|
    ensures forall i :: 0 <= i < |ts| ==> out.results[i] == Paid(ts[i], out.scaleFactor)
  {
  }

  /** Nets do not depend on the scale, so the scale does not depend on who forfeits. */
  lemma SameScale(ts: seq<TalentInput>, pool: PoolInput, out: CycleOutput, out': CycleOutput, p: nat)
    requires p < |ts| && ts[p].status == FORFEIT
    requires Settles(ts, pool, out') && Settles(Without(ts, p), pool, out)
    ensures Sum(Nets(out'.results)) == Sum(Nets(out.results)) && out'.scaleFactor == out.scaleFactor
  {
    hide Paid, Sum, Settles;
    var rest := Without(ts, p);
    TotalsAddUp(ts, pool, out');
    TotalsAddUp(rest, pool, out);
    SettledRecords(ts, pool, out');
    SettledRecords(rest, pool, out);
    StatusKept(ts[p], out'.scaleFactor);
    forall i | 0 <= i < |ts| ensures out'.results[i].eNet == Earned(ts[i]).eNet {
      PaidKeepsEarned(ts[i], out'.scaleFactor);
    }
    forall i | 0 <= i < |rest| ensures out.results[i].eNet == Earned(rest[i]).eNet {
      PaidKeepsEarned(rest[i], out.scaleFactor);
    }
    assert Without(Nets(out'.results), p) == Nets(out.results);
    SumWithout(Nets(out'.results), p);
  }

  lemma SameRecords(ts: seq<TalentInput>, pool: PoolInput, out: CycleOutput, out': CycleOutput, p: nat)
    requires p < |ts| && ts[p].status == FORFEIT && out'.scaleFactor == out.scaleFactor
    requires Settles(ts, pool, out') && Settles(Without(ts, p), pool, out)
    ensures |out'.results| == |ts| && Without(out'.results, p) == out.results
    ensures var r := out'.results[p]; r.eNet == 0.0 && r.kpbTotal == 0.0 && r.finalPayout == 0.0
  {
    hide Paid, Settles;
    SettledRecords(ts, pool, out');
    SettledRecords(Without(ts, p), pool, out);
    StatusKept(ts[p], out.scaleFactor);
  }

  /** Leaving out a record of nothing leaves the sums as they are. */
  lemma DropsOut(rs: seq<TalentResult>, p: nat)
    requires p < |rs| && rs[p].kpbTotal == 0.0 && rs[p].finalPayout == 0.0
    ensures Sum(Kpbs(Without(rs, p))) == Sum(Kpbs(rs)) && Sum(Payouts(Without(rs, p))) == Sum(Payouts(rs))
  {
    hide Sum;
    assert Kpbs(Without(rs, p)) == Without(Kpbs(rs), p) && Payouts(Without(rs, p)) == Without(Payouts(rs), p);
    SumWithout(Kpbs(rs), p);
    SumWithout(Payouts(rs), p);
  }

  lemma ReturnsWithout(ts: seq<TalentInput>, p: nat)
    requires p < |ts|
    ensures |Returns(ts)| == |ts| && Returns(Without(ts, p)) == Without(Returns(ts), p)
    ensures Returns(ts)[p] == if ts[p].status == "removed_forfeit" then ts[p].allocatedBudget else 0.0
  {
  }

  lemma RolledOver(x: real, f: real, b: real)
    ensures IsKobo(f) && IsKobo(b) ==> MoneyRound(MoneyRound(x) + (f + b)) == MoneyRound(MoneyRound(x) + f) + b
  {
    if IsKobo(f) && IsKobo(b) {
      hide IsKobo, MoneyRound;
      RoundsToKobo(x);
      var y := MoneyRound(x);
      KoboSum(y, f);
      KoboSum(y + f, b);
      KoboIsFixed(y + f);
      KoboIsFixed(y + f + b);
      assert y + (f + b) == y + f + b;
    }
  }

  /** Where nobody forfeits nothing comes back. */
  lemma NobodyForfeits(ts: seq<TalentInput>, pool: PoolInput, out: CycleOutput)
    requires Settles(ts, pool, out) && forall i :: 0 <= i < |ts| ==> ts[i].status != "removed_forfeit"
    ensures out.forfeitsReturned == 0.0 && out.unallocatedNext == out.unspent
  {
    hide Paid, MoneyRound, Settles, IsKobo;
    TotalsAddUp(ts, pool, out);
    SumOfZeros(Returns(ts));
    RoundsToKobo(pool.availablePool - Sum(Payouts(out.results)));
    KoboIsFixed(out.unspent);
  }

  lemma {:induction false} SumOfZeros(s: seq<real>)
    requires forall i :: 0 <= i < |s| ==> s[i] == 0.0
    ensures Sum(s) == 0.0
  {
    if s != [] {
      SumOfZeros(s[1..]);
    }
  }
}
