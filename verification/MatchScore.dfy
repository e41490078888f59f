/** internal/algo/match_score.go: the match score and the cost multiplier derived from it. */
module MatchScore {
  import opened Numbers

  datatype MatchDimensions = MatchDimensions(dm: real, gp: real, oh: real)

  datatype MatchScoreResult = MatchScoreResult(dimensions: MatchDimensions, msT: real, rankScore: real)

  const DEFAULT_ALPHA := 0.20

  const NEUTRAL := MatchScoreResult(MatchDimensions(0.0, 0.0, 0.0), 0.0, 0.0)

  function ComputeMatchScore(d: MatchDimensions): (r: MatchScoreResult)
    ensures 0.0 <= r.msT <= 1.0
    ensures 0.0 <= d.dm <= 1.0 && 0.0 <= d.gp <= 1.0 && 0.0 <= d.oh <= 1.0 ==> 3.0 * r.msT == d.dm + d.gp + d.oh
  {
    var ms := Min(Max((d.dm + d.gp + d.oh) / 3.0, 0.0), 1.0);
    MatchScoreResult(d, ms, ms)
  }

  /** The weight factor, clamped to [0, 0.40]. */
  function ClampAlpha(alpha: real): (a: real)
    ensures 0.0 <= a <= 0.40
  {
    Min(Max(alpha, 0.0), 0.40)
  }

  function MatchAdjustment(msT: real, alpha: real): (adj: real)
    ensures 0.60 <= adj
    ensures msT >= 0.0 ==> adj <= 1.0
  {
    assert msT >= 0.0 ==> msT * ClampAlpha(alpha) >= 0.0 by {
      if msT >= 0.0 { MulNonNegative(msT, ClampAlpha(alpha)); }
    }
    Max(1.0 - msT * ClampAlpha(alpha), 0.60)
  }

  /** For the scores ComputeMatchScore produces the 0.60 floor never bites, and a better match never
      costs more. */
  lemma BetterMatchCostsLess(ms: real, ms': real, alpha: real)
    requires 0.0 <= ms <= ms' <= 1.0
    ensures MatchAdjustment(ms', alpha) <= MatchAdjustment(ms, alpha)
    ensures MatchAdjustment(ms, alpha) == 1.0 - ms * ClampAlpha(alpha)
  {
    var a := ClampAlpha(alpha);
    hide ClampAlpha;
    MulMonotone(ms, ms', a);
    MulMonotone(ms', 1.0, a);
  }
}
