/** Solve and ComputeCij of internal/algo/hungarian.go: from talents and slots to assignments. */
module AssignmentSolver {
  import opened Numbers
  import opened Results
  import opened Permutations
  import opened Qualifier
  import opened MatchScore
  import opened Hungarian
  import opened HungarianOptimality
  import opened HungarianRuns
  import opened HungarianPlacement
  import opened HungarianOverflow
  import opened HungarianSolver

  // math.MaxFloat64 is (2^53 - 1) * 2^971.
  const FORBIDDEN: real :=
    179769313486231570814527423731704356798070567525844996598917476803157260780028538760589558632766878171540458953514382464234321326889464182768467546703537516986049910576551282076245490090389328944075868508455133942304583236903222948165808559332123348274797826204144723168738177180919299881250404026184124858368.0

  const SENTINEL: real := FORBIDDEN / 2.0

  const MAX_MATRIX_SIZE := 10000

  // ------------------------------------------------------------------------------- pair costs

  predicate Eligible(t: TalentProfile, slot: BudgetSlot, allTiers: seq<int>) {
    var q := Qualify(t, slot, allTiers);
    q.Ok? && q.value.qualified && TierBoundsFor(slot).Ok? && TierBoundsFor(slot).value.max > 0
  }

  function PenaltyDays(max: int, actual: real): int
    requires max > 0
  {
    Floor(Max((max as real - actual) / max as real, 0.0) / 0.10)
  }

  function ComputeCij(t: TalentProfile, slot: BudgetSlot, allTiers: seq<int>, ms: MatchScoreResult, alpha: real): real {
    var q := Qualify(t, slot, allTiers);
    if q.Err? || !q.value.qualified then FORBIDDEN
    else
      var bounds := TierBoundsFor(slot);
      if bounds.Err? || bounds.value.max <= 0 then FORBIDDEN
      else
        var baseCost := q.value.baseDays + PenaltyDays(bounds.value.max, q.value.actual) as real;
        Times(baseCost, MatchAdjustment(ms.msT, if alpha <= 0.0 then DEFAULT_ALPHA else alpha))
  }

  lemma PenaltyAtMostNine(max: int, actual: real)
    requires max > 0 && actual > 0.0
    ensures 0 <= PenaltyDays(max, actual) <= 9
  {
    DivBounds(max as real - actual, max as real, 1.0);
    assert (max as real - actual) / max as real != 1.0;
  }

  lemma AdjustedCost(base: real, adj: real)
    requires base >= 1.0 && 0.6 <= adj
    ensures 0.6 <= Times(base, adj)
    ensures adj <= 1.0 ==> Times(base, adj) <= base
  {
    MulMonotone(1.0, base, adj);
    if adj <= 1.0 {
      MulMonotone(adj, 1.0, base);
    }
  }

  /** Every eligible pair costs between 0.6 days and the cycle length plus 25 percent, rounded up, plus nine. */
  lemma CostBounds(t: TalentProfile, slot: BudgetSlot, allTiers: seq<int>, ms: MatchScoreResult, alpha: real)
    requires Eligible(t, slot, allTiers)
    ensures t.cycleLength > 0
    ensures 0.6 <= ComputeCij(t, slot, allTiers, ms, alpha)
    ensures ms.msT >= 0.0 ==>
              ComputeCij(t, slot, allTiers, ms, alpha) <= Ceil(1.25 * t.cycleLength as real) as real + 9.0
  {
    hide Qualify, TierBoundsFor, PenaltyDays, MatchAdjustment, Times, Ceil;
    BaseDaysAreLeast(t, slot, allTiers);
    var q, bounds := Qualify(t, slot, allTiers).value, TierBoundsFor(slot).value;
    PenaltyAtMostNine(bounds.max, q.actual);
    var base := q.baseDays + PenaltyDays(bounds.max, q.actual) as real;
    var adj := MatchAdjustment(ms.msT, if alpha <= 0.0 then DEFAULT_ALPHA else alpha);
    AdjustedCost(base, adj);
    assert ComputeCij(t, slot, allTiers, ms, alpha) == Times(base, adj);
  }

  /** A pair is priced exactly when the daily output, cycle length, tier list and slot are positive, the slot's
      tier pays for a conversion at the target cost, the talent reaches 80 percent of the slot's minimum within
      the cycle, and its ceiling is not two or more listed tiers above the slot's. */
  lemma WhoIsEligible(t: TalentProfile, slot: BudgetSlot, allTiers: seq<int>)
    ensures Eligible(t, slot, allTiers) <==>
      && t.pdc > 0.0 && t.cycleLength > 0 && allTiers != []
      && slot.maxCost > 0.0 && 0.0 < slot.targetCost <= slot.tierValue as real
      && t.pdc * t.cycleLength as real >= Ceil(slot.tierValue as real / slot.maxCost) as real * 0.80
      && !(t.maxTier in allTiers && slot.tierValue in allTiers && CountBetween(allTiers, slot.tierValue, t.maxTier) > 1)
  {
    if TierBoundsFor(slot).Ok? {
      TierBoundsAreTight(slot, 1);
      if t.cycleLength > 0 && allTiers != [] {
        WhoQualifies(t, slot, allTiers);
      }
    }
  }

  /** The tenths of the most the slot asks for that a talent with this output falls short of, whole ones only. */
  ghost predicate Shortfall(max: int, actual: real, tenths: int) {
    if actual >= max as real then tenths == 0
    else tenths as real * max as real <= 10.0 * (max as real - actual) < (tenths + 1) as real * max as real
  }

  lemma PenaltyIsShortfall(max: int, actual: real)
    requires max > 0
    ensures Shortfall(max, actual, PenaltyDays(max, actual))
  {
    var most, p := max as real, PenaltyDays(max, actual);
    var lack := (most - actual) / most;
    DivBounds(most - actual, most, 0.0);
    if actual < most {
      DivBoundsBelow(most - actual, most, p as real / 10.0);
      DivBoundsBelow(most - actual, most, (p + 1) as real / 10.0);
      assert p as real / 10.0 * most == p as real * most / 10.0;
      assert (p + 1) as real / 10.0 * most == (p + 1) as real * most / 10.0;
    }
  }

  lemma PriceParts(t: TalentProfile, slot: BudgetSlot, allTiers: seq<int>, ms: MatchScoreResult, alpha: real)
    returns (days: int, penalty: int)
    requires Eligible(t, slot, allTiers)
    ensures TierBoundsFor(slot).Ok?
    ensures forall d: int :: TierBoundsFor(slot).value.min as real <= Output(t.pdc, d) <==> days <= d
    ensures Shortfall(TierBoundsFor(slot).value.max, Output(t.pdc, days), penalty)
    ensures ComputeCij(t, slot, allTiers, ms, alpha) ==
            Times((days + penalty) as real, MatchAdjustment(ms.msT, if alpha <= 0.0 then DEFAULT_ALPHA else alpha))
  {
    hide Qualify, TierBoundsFor, PenaltyDays, MatchAdjustment, Times, Ceil, Output, Shortfall;
    BaseDaysAreLeast(t, slot, allTiers);
    var q, bounds := Qualify(t, slot, allTiers).value, TierBoundsFor(slot).value;
    days, penalty := Ceil(bounds.min as real / t.pdc), PenaltyDays(bounds.max, q.actual);
    PenaltyIsShortfall(bounds.max, q.actual);
  }

  lemma IneligibleIsForbidden(t: TalentProfile, slot: BudgetSlot, allTiers: seq<int>, ms: MatchScoreResult, alpha: real)
    requires !Eligible(t, slot, allTiers)
    ensures ComputeCij(t, slot, allTiers, ms, alpha) == FORBIDDEN
  {
  }

  lemma CostNonNegative(t: TalentProfile, slot: BudgetSlot, allTiers: seq<int>, ms: MatchScoreResult, alpha: real)
    ensures ComputeCij(t, slot, allTiers, ms, alpha) >= 0.0
  {
    if Eligible(t, slot, allTiers) {
      CostBounds(t, slot, allTiers, ms, alpha);
    } else {
      IneligibleIsForbidden(t, slot, allTiers, ms, alpha);
    }
  }

  // ------------------------------------------------------------------------------ the matrix

  datatype AssignmentInput = AssignmentInput(
    talents: seq<TalentProfile>, slots: seq<BudgetSlot>, allTiers: seq<int>,
    matchScores: map<string, MatchScoreResult>, alpha: real)

  datatype Assignment = Assignment(talentId: string, slotId: string, cost: real)

  datatype AssignmentOutput = AssignmentOutput(assignments: seq<Assignment>, totalCost: real, unassigned: seq<string>)

  function ScoreOf(input: AssignmentInput, id: string): MatchScoreResult {
    if id in input.matchScores then input.matchScores[id] else NEUTRAL
  }

  function PairCost(input: AssignmentInput, i: nat, j: nat): real
    requires i < |input.talents| && j < |input.slots|
  {
    ComputeCij(input.talents[i], input.slots[j], input.allTiers, ScoreOf(input, input.talents[i].id), input.alpha)
  }

  /** What a pair costs: the least whole days in which the talent reaches the slot's minimum, and a day for every
      full tenth by which its output in those days falls short of the maximum; the sum is lowered by the talent's
      match score (none counts as 0) times the weight, but not below 60 percent. */
  lemma PairPrice(input: AssignmentInput, i: nat, j: nat) returns (days: int, penalty: int)
    requires i < |input.talents| && j < |input.slots|
    requires Eligible(input.talents[i], input.slots[j], input.allTiers)
    ensures TierBoundsFor(input.slots[j]).Ok?
    ensures var min, pdc := TierBoundsFor(input.slots[j]).value.min, input.talents[i].pdc;
            forall d: int :: min as real <= Output(pdc, d) <==> days <= d
    ensures Shortfall(TierBoundsFor(input.slots[j]).value.max, Output(input.talents[i].pdc, days), penalty)
    ensures var id, alpha := input.talents[i].id, input.alpha;
            var score := if id in input.matchScores then input.matchScores[id].msT else 0.0;
            var factor := 1.0 - score * (if alpha <= 0.0 then 0.20 else if alpha > 0.40 then 0.40 else alpha);
            PairCost(input, i, j) == (days + penalty) as real * (if factor < 0.60 then 0.60 else factor)
  {
    hide ComputeCij, Eligible, TierBoundsFor, Output, Shortfall;
    var t := input.talents[i];
    days, penalty := PriceParts(t, input.slots[j], input.allTiers, ScoreOf(input, t.id), input.alpha);
  }

  /** The square cost matrix, padded with Forbidden. */
  function CostMatrix(input: AssignmentInput, size: nat): (cost: Matrix) {
    seq(size, i requires 0 <= i < size => seq(size, j requires 0 <= j < size =>
      if i < |input.talents| && j < |input.slots| then PairCost(input, i, j) else FORBIDDEN))
  }

  lemma CostMatrixShape(input: AssignmentInput, size: nat)
    ensures Square(CostMatrix(input, size), size)
    ensures NonNegative(CostMatrix(input, size), size)
  {
    var cost := CostMatrix(input, size);
    forall i, j | 0 <= i < size && 0 <= j < size ensures 0.0 <= cost[i][j] {
      if i < |input.talents| && j < |input.slots| {
        CostNonNegative(input.talents[i], input.slots[j], input.allTiers, ScoreOf(input, input.talents[i].id),
          input.alpha);
      }
    }
  }

  method BuildMatrix(input: AssignmentInput, size: nat) returns (cost: Matrix)
    requires |input.talents| <= size && |input.slots| <= size
    ensures cost == CostMatrix(input, size)
  {
    hide ComputeCij;
    cost := seq(size, i => seq(size, j => FORBIDDEN));
    ghost var target := CostMatrix(input, size);
    for i := 0 to |input.talents|
      invariant |cost| == size
      invariant forall r :: 0 <= r < i ==> cost[r] == target[r]
      invariant forall r :: i <= r < size ==> cost[r] == seq(size, j => FORBIDDEN)
    {
      var t := input.talents[i];
      var ms := NEUTRAL;
      if t.id in input.matchScores {
        ms := input.matchScores[t.id];
      }
      var row := cost[i];
      for j := 0 to |input.slots|
        invariant |row| == size
        invariant forall c :: 0 <= c < j ==> row[c] == PairCost(input, i, c)
        invariant forall c :: j <= c < size ==> row[c] == FORBIDDEN
      {
        row := row[j := ComputeCij(t, input.slots[j], input.allTiers, ms, input.alpha)];
      }
      assert row == target[i];
      cost := cost[i := row];
    }
    forall r | |input.talents| <= r < size ensures cost[r] == target[r] {
      assert target[r] == seq(size, j => FORBIDDEN);
    }
    assert cost == target;
  }

  // ---------------------------------------------------------------------------- the extraction

  predicate Takes(input: AssignmentInput, cost: Matrix, vec: seq<nat>, i: nat)
    requires i < |vec| && |vec| == |cost| && (forall k :: 0 <= k < |vec| ==> |cost[k]| == |cost| && vec[k] < |cost|)
  {
    vec[i] < |input.slots| && cost[i][vec[i]] < FORBIDDEN
  }

  predicate Extractable(input: AssignmentInput, cost: Matrix, vec: seq<nat>) {
    && |vec| == |cost| && |input.talents| <= |vec|
    && (forall k :: 0 <= k < |vec| ==> |cost[k]| == |cost| && vec[k] < |cost|)
  }

  /** What the first k talents are given. */
  function Given(input: AssignmentInput, cost: Matrix, vec: seq<nat>, k: nat): (r: seq<Assignment>)
    requires Extractable(input, cost, vec) && k <= |input.talents|
  {
    if k == 0 then []
    else if Takes(input, cost, vec, k - 1) then
      Given(input, cost, vec, k - 1) +
      [Assignment(input.talents[k - 1].id, input.slots[vec[k - 1]].id, cost[k - 1][vec[k - 1]])]
    else Given(input, cost, vec, k - 1)
  }

  /** The talents among the first k that the solver paired with a forbidden slot. */
  function Rejected(input: AssignmentInput, cost: Matrix, vec: seq<nat>, k: nat): (r: seq<string>)
    requires Extractable(input, cost, vec) && k <= |input.talents|
  {
    if k == 0 then []
    else if vec[k - 1] < |input.slots| && !Takes(input, cost, vec, k - 1) then
      Rejected(input, cost, vec, k - 1) + [input.talents[k - 1].id]
    else Rejected(input, cost, vec, k - 1)
  }

  /** The talents among the first k that the solver paired with a padding column. */
  function Padded(input: AssignmentInput, cost: Matrix, vec: seq<nat>, k: nat): (r: seq<string>)
    requires Extractable(input, cost, vec) && k <= |input.talents|
  {
    if k == 0 then []
    else if vec[k - 1] >= |input.slots| then Padded(input, cost, vec, k - 1) + [input.talents[k - 1].id]
    else Padded(input, cost, vec, k - 1)
  }

  function TalentIds(a: seq<Assignment>): (r: seq<string>) {
    seq(|a|, k requires 0 <= k < |a| => a[k].talentId)
  }

  function SlotIds(a: seq<Assignment>): (r: seq<string>) {
    seq(|a|, k requires 0 <= k < |a| => a[k].slotId)
  }

  function Costs(a: seq<Assignment>): (r: seq<real>) {
    seq(|a|, k requires 0 <= k < |a| => a[k].cost)
  }

  function Ids(input: AssignmentInput): (r: seq<string>) {
    seq(|input.talents|, k requires 0 <= k < |input.talents| => input.talents[k].id)
  }

  /** The k-th talent goes to exactly one of the three lists. */
  lemma OneOfThree(input: AssignmentInput, cost: Matrix, vec: seq<nat>, k: nat)
    requires Extractable(input, cost, vec) && 0 < k <= |input.talents|
    ensures var id := Ids(input)[k - 1];
            var given, given' := TalentIds(Given(input, cost, vec, k - 1)), TalentIds(Given(input, cost, vec, k));
            var rejected, rejected' := Rejected(input, cost, vec, k - 1), Rejected(input, cost, vec, k);
            var padded, padded' := Padded(input, cost, vec, k - 1), Padded(input, cost, vec, k);
            || (given' == given + [id] && rejected' == rejected && padded' == padded)
            || (given' == given && rejected' == rejected + [id] && padded' == padded)
            || (given' == given && rejected' == rejected && padded' == padded + [id])
  {
    hide ComputeCij;
    if Takes(input, cost, vec, k - 1) {
      assert TalentIds(Given(input, cost, vec, k)) == TalentIds(Given(input, cost, vec, k - 1)) + [Ids(input)[k - 1]];
    }
  }

  /** The three lists make up the fourth, with multiplicity. */
  ghost predicate MakeUp(a: seq<string>, b: seq<string>, c: seq<string>, all: seq<string>) {
    multiset(a) + multiset(b) + multiset(c) == multiset(all)
  }

  lemma MakeUpOneMore(a: seq<string>, b: seq<string>, c: seq<string>, all: seq<string>, x: string)
    requires MakeUp(a, b, c, all)
    ensures MakeUp(a + [x], b, c, all + [x]) && MakeUp(a, b + [x], c, all + [x]) && MakeUp(a, b, c + [x], all + [x])
  {
  }

  lemma IdsUpTo(input: AssignmentInput, k: nat)
    requires 0 < k <= |input.talents|
    ensures |Ids(input)| == |input.talents| && Ids(input)[..k] == Ids(input)[..k - 1] + [Ids(input)[k - 1]]
  {
  }

  lemma {:induction false} EachTalentOnce(input: AssignmentInput, cost: Matrix, vec: seq<nat>, k: nat)
    requires Extractable(input, cost, vec) && k <= |input.talents|
    ensures MakeUp(TalentIds(Given(input, cost, vec, k)), Rejected(input, cost, vec, k), Padded(input, cost, vec, k),
            Ids(input)[..k])
  {
    if k == 0 {
      assert Ids(input)[..0] == [];
    } else {
      hide Given, Rejected, Padded, TalentIds, Extractable, MakeUp, Ids;
      EachTalentOnce(input, cost, vec, k - 1);
      OneOfThree(input, cost, vec, k);
      IdsUpTo(input, k);
      MakeUpOneMore(TalentIds(Given(input, cost, vec, k - 1)), Rejected(input, cost, vec, k - 1),
                    Padded(input, cost, vec, k - 1), Ids(input)[..k - 1], Ids(input)[k - 1]);
    }
  }

  lemma {:induction false} RejectedIds(input: AssignmentInput, cost: Matrix, vec: seq<nat>, k: nat, i: nat)
    requires Extractable(input, cost, vec) && k <= |input.talents| && i < |input.talents| && Distinct(Ids(input))
    ensures input.talents[i].id in Rejected(input, cost, vec, k) <==>
            i < k && vec[i] < |input.slots| && !Takes(input, cost, vec, i)
  {
    if k > 0 {
      RejectedIds(input, cost, vec, k - 1, i);
      assert Ids(input)[i] == Ids(input)[k - 1] <==> i == k - 1;
    }
  }

  lemma {:induction false} PaddedIds(input: AssignmentInput, cost: Matrix, vec: seq<nat>, k: nat, i: nat)
    requires Extractable(input, cost, vec) && k <= |input.talents| && i < |input.talents| && Distinct(Ids(input))
    ensures input.talents[i].id in Padded(input, cost, vec, k) <==> i < k && vec[i] >= |input.slots|
  {
    if k > 0 {
      PaddedIds(input, cost, vec, k - 1, i);
      assert Ids(input)[i] == Ids(input)[k - 1] <==> i == k - 1;
    }
  }

  /** A slot is given away at most once when the solver's vector is injective. */
  lemma {:induction false} SlotsDistinct(input: AssignmentInput, cost: Matrix, vec: seq<nat>, k: nat)
    requires Extractable(input, cost, vec) && k <= |input.talents| && Distinct(vec)
    requires forall a, b :: 0 <= a < b < |input.slots| ==> input.slots[a].id != input.slots[b].id
    ensures Distinct(SlotIds(Given(input, cost, vec, k)))
    ensures forall a :: 0 <= a < |Given(input, cost, vec, k)| ==>
      exists i :: 0 <= i < k && vec[i] < |input.slots| && Given(input, cost, vec, k)[a].slotId == input.slots[vec[i]].id
  {
    if k > 0 {
      SlotsDistinct(input, cost, vec, k - 1);
      if Takes(input, cost, vec, k - 1) {
        var before, id := Given(input, cost, vec, k - 1), input.slots[vec[k - 1]].id;
        forall a | 0 <= a < |before| ensures before[a].slotId != id {
          var i :| 0 <= i < k - 1 && vec[i] < |input.slots| && before[a].slotId == input.slots[vec[i]].id;
          assert vec[i] != vec[k - 1];
        }
        assert SlotIds(Given(input, cost, vec, k)) == SlotIds(before) + [id];
      }
    }
  }

  lemma {:induction false} GivenCosts(input: AssignmentInput, cost: Matrix, vec: seq<nat>, k: nat)
    requires Extractable(input, cost, vec) && k <= |input.talents|
    ensures forall a :: 0 <= a < |Given(input, cost, vec, k)| ==> Given(input, cost, vec, k)[a].cost < FORBIDDEN
    ensures (forall i :: 0 <= i < k ==> Takes(input, cost, vec, i)) ==>
      Costs(Given(input, cost, vec, k)) == seq(k, i requires 0 <= i < k => cost[i][vec[i]])
  {
    if k > 0 {
      GivenCosts(input, cost, vec, k - 1);
      if Takes(input, cost, vec, k - 1) {
        assert Costs(Given(input, cost, vec, k)) == Costs(Given(input, cost, vec, k - 1)) + [cost[k - 1][vec[k - 1]]];
      }
    }
  }

  /** An assignment names a talent and a slot of the input, at that talent's entry for that slot. */
  ghost predicate Names(input: AssignmentInput, cost: Matrix, vec: seq<nat>, a: Assignment, i: nat)
    requires Extractable(input, cost, vec)
  {
    && i < |input.talents| && Takes(input, cost, vec, i)
    && a == Assignment(input.talents[i].id, input.slots[vec[i]].id, cost[i][vec[i]])
  }

  lemma {:induction false} GivenNames(input: AssignmentInput, cost: Matrix, vec: seq<nat>, k: nat, x: nat)
    returns (i: nat)
    requires Extractable(input, cost, vec) && k <= |input.talents| && x < |Given(input, cost, vec, k)|
    ensures Names(input, cost, vec, Given(input, cost, vec, k)[x], i)
  {
    if Takes(input, cost, vec, k - 1) && x == |Given(input, cost, vec, k)| - 1 {
      i := k - 1;
    } else {
      i := GivenNames(input, cost, vec, k - 1, x);
    }
  }

  /** The first closing loop of Solve: the vector, row by row. */
  method ReadVector(input: AssignmentInput, cost: Matrix, vec: seq<nat>)
    returns (assignments: seq<Assignment>, total: real, unassigned: seq<string>, placed: set<nat>)
    requires Extractable(input, cost, vec)
    ensures assignments == Given(input, cost, vec, |input.talents|) && total == Sum(Costs(assignments))
    ensures unassigned == Rejected(input, cost, vec, |input.talents|)
    ensures forall r: nat :: r in placed <==> r < |input.talents| && Takes(input, cost, vec, r)
  {
    hide ComputeCij;
    var n, m := |input.talents|, |input.slots|;
    assignments, total, unassigned, placed := [], 0.0, [], {};
    for i := 0 to |vec|
      invariant var k := if i <= n then i else n;
        && assignments == Given(input, cost, vec, k) && total == Sum(Costs(assignments))
        && unassigned == Rejected(input, cost, vec, k)
        && forall r: nat :: r in placed <==> r < k && Takes(input, cost, vec, r)
    {
      var j := vec[i];
      if i >= n || j >= m {
        continue;
      }
      var c := cost[i][j];
      if c >= FORBIDDEN {
        unassigned := unassigned + [input.talents[i].id];
        continue;
      }
      CostsAppend(assignments, Assignment(input.talents[i].id, input.slots[j].id, c));
      assignments := assignments + [Assignment(input.talents[i].id, input.slots[j].id, c)];
      total := total + c;
      placed := placed + {i};
    }
  }

  lemma CostsAppend(assignments: seq<Assignment>, a: Assignment)
    ensures Sum(Costs(assignments + [a])) == Sum(Costs(assignments)) + a.cost
  {
    SumAppend(Costs(assignments), a.cost);
    assert Costs(assignments + [a]) == Costs(assignments) + [a.cost];
  }

  /** The second: everybody who is neither placed nor listed yet. */
  method ListUnplaced(input: AssignmentInput, cost: Matrix, vec: seq<nat>, rejected: seq<string>, placed: set<nat>)
    returns (unassigned: seq<string>)
    requires Extractable(input, cost, vec) && rejected == Rejected(input, cost, vec, |input.talents|)
    requires forall r: nat :: r in placed <==> r < |input.talents| && Takes(input, cost, vec, r)
    ensures Distinct(Ids(input)) ==> unassigned == rejected + Padded(input, cost, vec, |input.talents|)
  {
    hide Rejected, Distinct;
    unassigned := rejected;
    for i := 0 to |input.talents|
      invariant Distinct(Ids(input)) ==> unassigned == rejected + Padded(input, cost, vec, i)
    {
      if i !in placed {
        var found := input.talents[i].id in unassigned;
        if Distinct(Ids(input)) {
          RejectedIds(input, cost, vec, |input.talents|, i);
          PaddedIds(input, cost, vec, i, i);
        }
        if !found {
          unassigned := unassigned + [input.talents[i].id];
        }
      }
    }
  }

  method Extract(input: AssignmentInput, cost: Matrix, vec: seq<nat>) returns (out: AssignmentOutput)
    requires Extractable(input, cost, vec)
    ensures out.assignments == Given(input, cost, vec, |input.talents|)
    ensures out.totalCost == Sum(Costs(out.assignments))
    ensures Distinct(Ids(input)) ==>
      out.unassigned == Rejected(input, cost, vec, |input.talents|) + Padded(input, cost, vec, |input.talents|)
  {
    hide Given, Rejected, Padded, Sum, Costs, Distinct, Takes;
    var assignments, total, rejected, placed := ReadVector(input, cost, vec);
    var unassigned := ListUnplaced(input, cost, vec, rejected, placed);
    out := AssignmentOutput(assignments, total, unassigned);
  }

  // --------------------------------------------------------------------------------------- Solve

  const MAX_INT64 := 0x7FFF_FFFF_FFFF_FFFF

  /** What an eligible pair can cost at most. */
  const COST_LIMIT: real := Ceil(1.25 * MAX_INT64 as real) as real + 9.0

  /** Cycle lengths are 64-bit, and scores are as ComputeMatchScore produces them. */
  ghost predicate Realistic(input: AssignmentInput) {
    forall i :: 0 <= i < |input.talents| ==>
      input.talents[i].cycleLength <= MAX_INT64 && ScoreOf(input, input.talents[i].id).msT >= 0.0
  }

  lemma CeilMonotone(x: real, y: real)
    requires x <= y
    ensures Ceil(x) <= Ceil(y)
  {
  }

  lemma PairCostBounds(input: AssignmentInput, i: nat, j: nat)
    requires Realistic(input) && i < |input.talents| && j < |input.slots|
    ensures if Eligible(input.talents[i], input.slots[j], input.allTiers)
            then 0.0 <= PairCost(input, i, j) <= COST_LIMIT
            else PairCost(input, i, j) == FORBIDDEN
  {
    hide ComputeCij, Eligible, Ceil;
    var t, slot, ms := input.talents[i], input.slots[j], ScoreOf(input, input.talents[i].id);
    if Eligible(t, slot, input.allTiers) {
      CostBounds(t, slot, input.allTiers, ms, input.alpha);
      CeilMonotone(1.25 * t.cycleLength as real, 1.25 * MAX_INT64 as real);
    } else {
      IneligibleIsForbidden(t, slot, input.allTiers, ms, input.alpha);
    }
  }

  lemma LimitsFit(size: nat)
    requires size <= MAX_MATRIX_SIZE
    ensures 0.0 <= COST_LIMIT && Scaled(size, COST_LIMIT) < SENTINEL && COST_LIMIT < FORBIDDEN
  {
    assert COST_LIMIT < 12000000000000000000.0;
    ScaledMonotone(size, MAX_MATRIX_SIZE, COST_LIMIT);
    assert Scaled(MAX_MATRIX_SIZE, COST_LIMIT) == 10000.0 * COST_LIMIT;
  }

  /** The cost bound discharges the solver's condition: every entry is a small cost or Forbidden, and the
      columns after the slots are Forbidden altogether. */
  lemma MatrixIsBivalued(input: AssignmentInput, size: nat)
    requires Realistic(input) && size <= MAX_MATRIX_SIZE
    ensures var cost := CostMatrix(input, size);
            && Square(cost, size) && Bivalued(cost, size, SENTINEL, COST_LIMIT)
            && Blank(cost, size, |input.slots|, SENTINEL)
  {
    hide ComputeCij, Eligible, PairCost, Scaled;
    CostMatrixShape(input, size);
    LimitsFit(size);
    var cost := CostMatrix(input, size);
    forall i, j | 0 <= i < size && 0 <= j < size
      ensures 0.0 <= cost[i][j] <= COST_LIMIT || cost[i][j] >= 2.0 * SENTINEL
    {
      if i < |input.talents| && j < |input.slots| {
        PairCostBounds(input, i, j);
      }
    }
  }

  // -------------------------------------------------------------------------------- placements

  /** The assignment of talent i to slot j, at what the pair costs. */
  function Pair(input: AssignmentInput, i: nat, j: nat): Assignment
    requires i < |input.talents| && j < |input.slots|
  {
    Assignment(input.talents[i].id, input.slots[j].id, PairCost(input, i, j))
  }

  /** w gives each of the first |w| talents a slot of its own that it is eligible for. */
  ghost predicate Placement(input: AssignmentInput, w: seq<nat>) {
    && |w| <= |input.talents| && Distinct(w)
    && forall i :: 0 <= i < |w| ==>
         w[i] < |input.slots| && Eligible(input.talents[i], input.slots[w[i]], input.allTiers)
  }

  ghost function PlacementCost(input: AssignmentInput, w: seq<nat>): real
    requires Placement(input, w)
  {
    Sum(seq(|w|, i requires 0 <= i < |w| => PairCost(input, i, w[i])))
  }

  /** The assignments that a placement stands for. */
  ghost function Assigned(input: AssignmentInput, w: seq<nat>): (r: seq<Assignment>)
    requires Placement(input, w)
  {
    seq(|w|, i requires 0 <= i < |w| => Pair(input, i, w[i]))
  }

  lemma PlacementInMatrix(input: AssignmentInput, size: nat, w: seq<nat>)
    requires Realistic(input) && |input.talents| <= size && |input.slots| <= size <= MAX_MATRIX_SIZE
    requires Placement(input, w)
    ensures var cost := CostMatrix(input, size);
            && Square(cost, size) && Places(cost, size, COST_LIMIT, w)
            && TotalCost(cost[..|w|], w) == PlacementCost(input, w)
  {
    hide ComputeCij, Eligible, PairCost;
    CostMatrixShape(input, size);
    var cost := CostMatrix(input, size);
    forall i | 0 <= i < |w| ensures cost[i][w[i]] == PairCost(input, i, w[i]) <= COST_LIMIT {
      PairCostBounds(input, i, w[i]);
    }
    assert Picked(cost[..|w|], w) == seq(|w|, i requires 0 <= i < |w| => PairCost(input, i, w[i]));
  }

  /** There are no more slots than talents, and the talents listed first could fill them all. */
  ghost predicate FirstPlaceable(input: AssignmentInput) {
    |input.slots| <= |input.talents| && exists w: seq<nat> :: Placement(input, w) && |w| == |input.slots|
  }

  /** The matrix Solve hands to the solver. */
  function Padding(input: AssignmentInput): Matrix {
    CostMatrix(input, if |input.slots| > |input.talents| then |input.slots| else |input.talents|)
  }

  ghost predicate SolvedBy(input: AssignmentInput, vec: seq<nat>) {
    var cost := Padding(input);
    Square(cost, |cost|) && Solves(cost, |cost|, SENTINEL, vec) && Extractable(input, cost, vec) &&
      IsPermutation(vec, |cost|)
  }

  /** Every assignment is an eligible pair of the input at its own price. */
  ghost predicate Paired(input: AssignmentInput, assignments: seq<Assignment>) {
    forall a :: 0 <= a < |assignments| ==> IsPair(input, assignments[a])
  }

  ghost predicate IsPair(input: AssignmentInput, a: Assignment) {
    exists i: nat, j: nat ::
      && i < |input.talents| && j < |input.slots| && a == Pair(input, i, j)
      && Eligible(input.talents[i], input.slots[j], input.allTiers)
  }

  /** What every successful call returns, whatever the numbers of talents and slots: the total is the sum
      of the costs, every assignment is an eligible pair at its own price, each talent appears exactly once, and no
      slot twice. */
  ghost predicate Sound(input: AssignmentInput, out: AssignmentOutput) {
    && out.totalCost == Sum(Costs(out.assignments))
    && (forall a :: 0 <= a < |out.assignments| ==> out.assignments[a].cost < FORBIDDEN)
    && Paired(input, out.assignments)
    && (Distinct(Ids(input)) ==>
          multiset(TalentIds(out.assignments)) + multiset(out.unassigned) == multiset(Ids(input)))
    && (DistinctSlots(input) ==> Distinct(SlotIds(out.assignments)))
  }

  ghost predicate DistinctSlots(input: AssignmentInput) {
    forall a, b :: 0 <= a < b < |input.slots| ==> input.slots[a].id != input.slots[b].id
  }

  /** The assignments are read off a result of the solver on the padded matrix. */
  ghost predicate FromSolver(input: AssignmentInput, out: AssignmentOutput) {
    exists vec :: SolvedBy(input, vec) && out.assignments == Given(input, Padding(input), vec, |input.talents|)
  }

  /** Everyone is placed, at a total no other one-to-one placement undercuts. */
  ghost predicate Cheapest(input: AssignmentInput, out: AssignmentOutput) {
    var n := |input.talents|;
    && |out.assignments| == n
    && Square(CostMatrix(input, n), n)
    && forall q :: IsPermutation(q, n) ==> out.totalCost <= TotalCost(CostMatrix(input, n), q)
  }

  /** The talents listed first fill the slots, as cheaply as they can among themselves; the rest get nothing. */
  ghost predicate FirstServed(input: AssignmentInput, out: AssignmentOutput) {
    var m := |input.slots|;
    && m <= |input.talents| && TalentIds(out.assignments) == Ids(input)[..m]
    && (exists w: seq<nat> :: Placement(input, w) && |w| == m &&
         out.assignments == Assigned(input, w) && out.totalCost == PlacementCost(input, w))
    && (forall w: seq<nat> :: Placement(input, w) && |w| == m ==> out.totalCost <= PlacementCost(input, w))
    && (Distinct(Ids(input)) ==> multiset(out.unassigned) == multiset(Ids(input)[m..]))
  }

  /** With at least as many talents as slots: if the talents listed first could fill the slots, they do, at the
      least cost; and with equal numbers everyone is placed if and only if that is possible at all. */
  ghost predicate Served(input: AssignmentInput, out: AssignmentOutput) {
    && (FirstPlaceable(input) ==> FirstServed(input, out))
    && (|input.talents| == |input.slots| ==>
          && (|out.assignments| == |input.talents| <==> FirstPlaceable(input))
          && (FirstPlaceable(input) ==> Cheapest(input, out)))
  }

  // ------------------------------------------------------------------------------- the theorems

  lemma {:induction false} GivenPrefix(input: AssignmentInput, cost: Matrix, vec: seq<nat>, m: nat, k: nat)
    requires Extractable(input, cost, vec) && m <= |input.talents| && k <= |input.talents|
    requires forall i :: 0 <= i < k ==> (Takes(input, cost, vec, i) <==> i < m)
    ensures TalentIds(Given(input, cost, vec, k)) == Ids(input)[..if k < m then k else m]
    ensures k > m ==> Given(input, cost, vec, k) == Given(input, cost, vec, m)
  {
    if k > 0 {
      GivenPrefix(input, cost, vec, m, k - 1);
    }
  }

  lemma {:induction false} GivenAll(input: AssignmentInput, cost: Matrix, vec: seq<nat>, k: nat)
    requires Extractable(input, cost, vec) && k <= |input.talents|
    ensures |Given(input, cost, vec, k)| <= k
    ensures |Given(input, cost, vec, k)| == k ==> forall i :: 0 <= i < k ==> Takes(input, cost, vec, i)
  {
    if k > 0 {
      GivenAll(input, cost, vec, k - 1);
    }
  }

  /** If exactly the first m talents take their slots, these are the assignments, in order. */
  lemma {:induction false} GivenIsAssigned(input: AssignmentInput, size: nat, vec: seq<nat>, m: nat, k: nat)
    requires Extractable(input, CostMatrix(input, size), vec) && m <= |input.talents| && k <= |input.talents|
    requires forall i :: 0 <= i < k ==> (Takes(input, CostMatrix(input, size), vec, i) <==> i < m)
    requires Placement(input, vec[..m])
    ensures Given(input, CostMatrix(input, size), vec, k) == Assigned(input, vec[..m])[..if k < m then k else m]
  {
    hide Eligible, PairCost, Placement, Assigned, CostMatrix, Takes;
    AssignedSize(input, vec[..m]);
    if k == 0 {
    } else {
      GivenIsAssigned(input, size, vec, m, k - 1);
      if k <= m {
        AssignedNext(input, size, vec, m, k);
      }
    }
  }

  lemma AssignedSize(input: AssignmentInput, w: seq<nat>)
    requires Placement(input, w)
    ensures |w| <= |input.talents| && |Assigned(input, w)| == |w| && Assigned(input, w)[..|w|] == Assigned(input, w)
  {
  }

  lemma AssignedNext(input: AssignmentInput, size: nat, vec: seq<nat>, m: nat, k: nat)
    requires Extractable(input, CostMatrix(input, size), vec) && 0 < k <= m <= |input.talents|
    requires Placement(input, vec[..m])
    ensures vec[k - 1] < |input.slots| && |Assigned(input, vec[..m])| == m
    ensures Assigned(input, vec[..m])[..k] == Assigned(input, vec[..m])[..k - 1] +
            [Assignment(input.talents[k - 1].id, input.slots[vec[k - 1]].id,
                        CostMatrix(input, size)[k - 1][vec[k - 1]])]
  {
    hide Eligible, PairCost, Distinct;
    assert vec[..m][k - 1] == vec[k - 1];
  }

  lemma TakenIsEligible(input: AssignmentInput, size: nat, vec: seq<nat>, i: nat)
    requires Extractable(input, CostMatrix(input, size), vec) && i < |input.talents|
    requires Takes(input, CostMatrix(input, size), vec, i)
    ensures vec[i] < |input.slots| && Eligible(input.talents[i], input.slots[vec[i]], input.allTiers)
  {
    var t, j := input.talents[i], vec[i];
    if !Eligible(t, input.slots[j], input.allTiers) {
      IneligibleIsForbidden(t, input.slots[j], input.allTiers, ScoreOf(input, t.id), input.alpha);
    }
  }

  lemma VectorIsPlacement(input: AssignmentInput, size: nat, vec: seq<nat>, m: nat)
    requires Extractable(input, CostMatrix(input, size), vec) && m <= |input.talents| && Distinct(vec)
    requires forall i :: 0 <= i < m ==> Takes(input, CostMatrix(input, size), vec, i)
    ensures Placement(input, vec[..m])
  {
    hide ComputeCij, Eligible, PairCost, CostMatrix, Takes;
    forall i | 0 <= i < m
      ensures vec[i] < |input.slots| && Eligible(input.talents[i], input.slots[vec[i]], input.allTiers)
    {
      TakenIsEligible(input, size, vec, i);
    }
  }

  /** A vector that takes the first m talents, read as a placement. */
  lemma VectorPlacement(input: AssignmentInput, size: nat, cost: Matrix, vec: seq<nat>, m: nat)
    requires cost == CostMatrix(input, size) && Extractable(input, cost, vec) && m <= |input.talents| && Distinct(vec)
    requires forall i :: 0 <= i < |input.talents| ==> (Takes(input, cost, vec, i) <==> i < m)
    ensures Placement(input, vec[..m])
    ensures var given := Given(input, cost, vec, |input.talents|);
            && TalentIds(given) == Ids(input)[..m] && Sum(Costs(given)) == PlacementCost(input, vec[..m])
            && given == Assigned(input, vec[..m])
  {
    hide ComputeCij, Eligible, PairCost, Given, Takes, Placement, Assigned;
    VectorIsPlacement(input, size, vec, m);
    GivenPrefix(input, cost, vec, m, |input.talents|);
    GivenCosts(input, cost, vec, m);
    SamePrices(input, size, vec, m);
    GivenIsAssigned(input, size, vec, m, |input.talents|);
    AssignedSize(input, vec[..m]);
  }

  lemma SamePrices(input: AssignmentInput, size: nat, vec: seq<nat>, m: nat)
    requires Extractable(input, CostMatrix(input, size), vec) && m <= |input.talents| && Placement(input, vec[..m])
    ensures seq(m, i requires 0 <= i < m => CostMatrix(input, size)[i][vec[i]]) ==
            seq(m, i requires 0 <= i < m => PairCost(input, i, vec[..m][i]))
  {
    hide Eligible, PairCost;
    forall i | 0 <= i < m ensures CostMatrix(input, size)[i][vec[i]] == PairCost(input, i, vec[..m][i]) {
      assert vec[..m][i] < |input.slots|;
    }
  }

  /** What the solver does when the talents listed first can fill the slots, in terms of the matrix. */
  lemma SolvedMatrix(input: AssignmentInput, vec: seq<nat>)
    requires SolvedBy(input, vec) && Realistic(input) && FirstPlaceable(input) && |input.talents| <= MAX_MATRIX_SIZE
    ensures var cost, n, m := Padding(input), |input.talents|, |input.slots|;
            Square(cost, n) && m <= n && ServesFirst(cost, n, m, COST_LIMIT, vec)
  {
    var n, m, cost := |input.talents|, |input.slots|, Padding(input);
    var q: seq<nat> :| Placement(input, q) && |q| == m;
    hide ComputeCij, PairCost, TotalCost, Run, Bivalued, Blank, Places, PlacementCost, Eligible, Given, Placement,
      Distinct, CostMatrix, Realistic, FirstPlaceable;
    MatrixIsBivalued(input, n);
    PlacementInMatrix(input, n, q);
    var k :| Halted(n, Run(cost, n, SENTINEL, k)) && vec == HungarianOptimality.Result(n, Run(cost, n, SENTINEL, k));
    FirstRowsServed(cost, n, SENTINEL, m, COST_LIMIT, q, k);
  }

  /** The same in terms of talents and slots. */
  lemma VectorServes(input: AssignmentInput, vec: seq<nat>)
    requires SolvedBy(input, vec) && Realistic(input) && FirstPlaceable(input) && |input.talents| <= MAX_MATRIX_SIZE
    ensures var m := |input.slots|;
            && (forall i :: 0 <= i < |input.talents| ==> (Takes(input, Padding(input), vec, i) <==> i < m))
            && Placement(input, vec[..m])
            && forall w: seq<nat> :: Placement(input, w) && |w| == m ==>
                 PlacementCost(input, vec[..m]) <= PlacementCost(input, w)
  {
    var n, m := |input.talents|, |input.slots|;
    hide ComputeCij, PairCost, TotalCost, Solves, PlacementCost, Eligible, Given, Placement, CostMatrix, Distinct,
      Realistic;
    SolvedMatrix(input, vec);
    LimitsFit(n);
    VectorPlacement(input, n, Padding(input), vec, m);
    PlacementInMatrix(input, n, vec[..m]);
    forall w: seq<nat> | Placement(input, w) && |w| == m
      ensures PlacementCost(input, vec[..m]) <= PlacementCost(input, w)
    {
      PlacementInMatrix(input, n, w);
      PlacementIsPermutation(input, w);
    }
  }

  lemma PlacementIsPermutation(input: AssignmentInput, w: seq<nat>)
    requires Placement(input, w) && |w| == |input.slots|
    ensures IsPermutation(w, |w|)
  {
  }

  lemma PlacementSize(input: AssignmentInput, w: seq<nat>)
    requires Placement(input, w)
    ensures |w| <= |input.talents|
  {
  }

  lemma CancelLeft(a: multiset<string>, b: multiset<string>, c: multiset<string>)
    requires a + b == a + c
    ensures b == c
  {
    forall x ensures b[x] == c[x] {
      assert (a + b)[x] == (a + c)[x];
    }
  }

  lemma FirstServedFrom(input: AssignmentInput, out: AssignmentOutput, w: seq<nat>)
    requires Sound(input, out) && Placement(input, w) && |w| == |input.slots|
    requires TalentIds(out.assignments) == Ids(input)[..|w|] && Sum(Costs(out.assignments)) == PlacementCost(input, w)
    requires out.assignments == Assigned(input, w)
    requires forall w': seq<nat> :: Placement(input, w') && |w'| == |w| ==>
             PlacementCost(input, w) <= PlacementCost(input, w')
    ensures FirstServed(input, out) && out.totalCost == PlacementCost(input, w)
  {
    hide Eligible, PairCost, Sum, DistinctSlots, PlacementCost, Distinct, Placement, Assigned, Paired;
    PlacementSize(input, w);
    assert Ids(input) == Ids(input)[..|w|] + Ids(input)[|w|..];
    if Distinct(Ids(input)) {
      CancelLeft(multiset(TalentIds(out.assignments)), multiset(out.unassigned), multiset(Ids(input)[|w|..]));
    }
  }

  /** With equal numbers a placement of everyone is what the solver needs. */
  lemma CheapestVector(input: AssignmentInput, vec: seq<nat>)
    requires SolvedBy(input, vec) && Realistic(input) && FirstPlaceable(input)
    requires |input.talents| == |input.slots| <= MAX_MATRIX_SIZE
    ensures var cost := Padding(input);
            Square(cost, |vec|) && forall q :: IsPermutation(q, |vec|) ==> TotalCost(cost, vec) <= TotalCost(cost, q)
  {
    var n, cost := |input.talents|, Padding(input);
    var q: seq<nat> :| Placement(input, q) && |q| == n;
    hide ComputeCij, PairCost, TotalCost, Run, Bivalued, Blank, Places, PlacementCost, Eligible, FirstPlaceable,
      Distinct, CostMatrix, Placement, Realistic;
    MatrixIsBivalued(input, n);
    PlacementInMatrix(input, n, q);
    var k :| Halted(n, Run(cost, n, SENTINEL, k)) && vec == HungarianOptimality.Result(n, Run(cost, n, SENTINEL, k));
    assert Placeable(cost, n, SENTINEL);
    PlaceableRunIsCheapest(cost, n, SENTINEL, k);
  }

  lemma CheapestFrom(input: AssignmentInput, out: AssignmentOutput, vec: seq<nat>)
    requires SolvedBy(input, vec) && Realistic(input) && FirstPlaceable(input) && FirstServed(input, out)
    requires |input.talents| == |input.slots| <= MAX_MATRIX_SIZE && Placement(input, vec)
    requires out.totalCost == PlacementCost(input, vec)
    ensures Cheapest(input, out)
  {
    hide ComputeCij, PairCost, TotalCost, PlacementCost, Eligible, FirstPlaceable, Distinct, Solves, Realistic;
    CheapestVector(input, vec);
    PlacementInMatrix(input, |input.talents|, vec);
    assert Padding(input)[..|vec|] == Padding(input);
    assert |TalentIds(out.assignments)| == |out.assignments|;
  }

  lemma AllPlacedIsPlacement(input: AssignmentInput, out: AssignmentOutput, vec: seq<nat>)
    requires SolvedBy(input, vec) && out.assignments == Given(input, Padding(input), vec, |input.talents|)
    requires |input.talents| == |input.slots| == |out.assignments|
    ensures FirstPlaceable(input)
  {
    hide ComputeCij, PairCost, Eligible, Given, Solves;
    var n := |input.talents|;
    GivenAll(input, Padding(input), vec, n);
    VectorPlacement(input, n, Padding(input), vec, n);
    assert vec[..n] == vec;
  }

  /** The promises about who is placed, from how the output was read off. */
  lemma ServedProof(input: AssignmentInput, out: AssignmentOutput)
    requires Sound(input, out) && FromSolver(input, out) && Realistic(input)
    requires |input.talents| <= MAX_MATRIX_SIZE && |input.slots| <= MAX_MATRIX_SIZE
    ensures Served(input, out)
  {
    var vec :| SolvedBy(input, vec) && out.assignments == Given(input, Padding(input), vec, |input.talents|);
    hide Sound, FromSolver, SolvedBy, Realistic, Given, Placement, PlacementCost, Cheapest, Padding, Assigned;
    if FirstPlaceable(input) {
      VectorServes(input, vec);
      VectorGives(input, vec);
      SoundTotal(input, out);
      FirstServedFrom(input, out, vec[..|input.slots|]);
      if |input.talents| == |input.slots| {
        FullVector(input, vec);
        CheapestFrom(input, out, vec);
      }
    } else if |input.talents| == |input.slots| == |out.assignments| {
      AllPlacedIsPlacement(input, out, vec);
    }
  }

  lemma VectorGives(input: AssignmentInput, vec: seq<nat>)
    requires SolvedBy(input, vec) && Realistic(input) && FirstPlaceable(input) && |input.talents| <= MAX_MATRIX_SIZE
    ensures var m, given := |input.slots|, Given(input, Padding(input), vec, |input.talents|);
            && m <= |vec| && m <= |input.talents| && Placement(input, vec[..m])
            && TalentIds(given) == Ids(input)[..m] && Sum(Costs(given)) == PlacementCost(input, vec[..m])
            && given == Assigned(input, vec[..m])
  {
    hide ComputeCij, PairCost, Eligible, Given, Solves, PlacementCost, Sum, Placement, Distinct, Assigned;
    VectorServes(input, vec);
    VectorPlacement(input, |input.talents|, Padding(input), vec, |input.slots|);
  }

  lemma SoundTotal(input: AssignmentInput, out: AssignmentOutput)
    requires Sound(input, out)
    ensures out.totalCost == Sum(Costs(out.assignments))
  {
  }

  lemma FullVector(input: AssignmentInput, vec: seq<nat>)
    requires SolvedBy(input, vec) && Realistic(input) && FirstPlaceable(input)
    requires |input.talents| == |input.slots| <= MAX_MATRIX_SIZE
    ensures vec[..|input.slots|] == vec && Placement(input, vec)
  {
    hide Placement, PlacementCost, Given, ComputeCij, Eligible, Solves, FirstPlaceable;
    VectorServes(input, vec);
  }

  // --------------------------------------------------------------------------------------- Solve

  /** The part of Solve after the input checks. */
  method SolvePadded(input: AssignmentInput, size: nat) returns (out: AssignmentOutput)
    requires size == (if |input.slots| > |input.talents| then |input.slots| else |input.talents|) <= MAX_MATRIX_SIZE
    ensures Sound(input, out) && FromSolver(input, out)
    ensures Realistic(input) ==> Served(input, out)
  {
    hide ComputeCij, Eligible, TotalCost, Solves, Given, Rejected, Padded, BelowSentinel, Placeable, Realistic,
      CostMatrix, Distinct, DistinctSlots, Served, Paired;
    var cost := BuildMatrix(input, size);
    CostMatrixShape(input, size);
    var vec := HungarianSolve(cost, size, SENTINEL);
    out := Extract(input, cost, vec);
    ExtractionFacts(input, cost, vec, out);
    GivenIsPaired(input, size, vec, out.assignments);
    assert SolvedBy(input, vec);
    if Realistic(input) {
      ServedProof(input, out);
    }
  }

  /** Solve, for every input: which inputs are errors; soundness of every other answer; and who is placed, at
      what cost, when there are at least as many talents as slots. */
  method Solve(input: AssignmentInput) returns (r: Result<AssignmentOutput>)
    ensures r.Err? <==>
      var n, m := |input.talents|, |input.slots|;
      (n != 0 || m != 0) && (n == 0 || m == 0 || input.allTiers == [] || n > 10000 || m > 10000)
    ensures r.Ok? ==> Sound(input, r.value)
    ensures r.Ok? && input.talents != [] ==> FromSolver(input, r.value)
    ensures r.Ok? && Realistic(input) ==> Served(input, r.value)
  {
    hide Sound, FromSolver, Served, Realistic;
    var n, m := |input.talents|, |input.slots|;
    if n == 0 && m == 0 {
      NothingToSolve(input);
      return Ok(AssignmentOutput([], 0.0, []));
    }
    if n == 0 {
      return Err("no talents provided");
    }
    if m == 0 {
      return Err("no slots provided");
    }
    if input.allTiers == [] {
      return Err("all_tiers must not be empty");
    }
    var size := n;
    if m > size {
      size := m;
    }
    if size > MAX_MATRIX_SIZE {
      return Err("matrix size exceeds maximum");
    }
    var out := SolvePadded(input, size);
    r := Ok(out);
  }

  lemma NamedPair(input: AssignmentInput, size: nat, vec: seq<nat>, a: Assignment, i: nat)
    requires Extractable(input, CostMatrix(input, size), vec) && Names(input, CostMatrix(input, size), vec, a, i)
    ensures IsPair(input, a)
  {
    hide Eligible, PairCost;
    TakenIsEligible(input, size, vec, i);
    assert a == Pair(input, i, vec[i]);
  }

  lemma GivenIsPaired(input: AssignmentInput, size: nat, vec: seq<nat>, assignments: seq<Assignment>)
    requires Extractable(input, CostMatrix(input, size), vec)
    requires assignments == Given(input, CostMatrix(input, size), vec, |input.talents|)
    ensures Paired(input, assignments)
  {
    hide Eligible, PairCost, Given, IsPair;
    forall a | 0 <= a < |assignments| ensures IsPair(input, assignments[a]) {
      var i := GivenNames(input, CostMatrix(input, size), vec, |input.talents|, a);
      NamedPair(input, size, vec, assignments[a], i);
    }
  }

  lemma NothingToSolve(input: AssignmentInput)
    requires input.talents == [] && input.slots == []
    ensures Sound(input, AssignmentOutput([], 0.0, [])) && Served(input, AssignmentOutput([], 0.0, []))
  {
    assert Ids(input) == [] && Costs([]) == [] && TalentIds([]) == [] && SlotIds([]) == [];
    CostMatrixShape(input, 0);
    TotalOfNothing(CostMatrix(input, 0));
    var w: seq<nat> := [];
    assert Placement(input, w) && PlacementCost(input, w) == 0.0 && Assigned(input, w) == [];
    assert forall w': seq<nat> :: |w'| == 0 ==> w' == w;
  }

  lemma TotalOfNothing(cost: Matrix)
    requires cost == []
    ensures forall q :: IsPermutation(q, 0) ==> TotalCost(cost, q) == 0.0
  {
  }

  lemma ExtractionFacts(input: AssignmentInput, cost: Matrix, vec: seq<nat>, out: AssignmentOutput)
    requires Extractable(input, cost, vec) && Distinct(vec)
    requires out.assignments == Given(input, cost, vec, |input.talents|)
    requires Distinct(Ids(input)) ==>
      out.unassigned == Rejected(input, cost, vec, |input.talents|) + Padded(input, cost, vec, |input.talents|)
    ensures forall a :: 0 <= a < |out.assignments| ==> out.assignments[a].cost < FORBIDDEN
    ensures Distinct(Ids(input)) ==>
              multiset(TalentIds(out.assignments)) + multiset(out.unassigned) == multiset(Ids(input))
    ensures DistinctSlots(input) ==> Distinct(SlotIds(out.assignments))
  {
    var n := |input.talents|;
    GivenCosts(input, cost, vec, n);
    EachTalentOnce(input, cost, vec, n);
    assert Ids(input)[..n] == Ids(input);
    if DistinctSlots(input) {
      SlotsDistinct(input, cost, vec, n);
    }
  }
}
