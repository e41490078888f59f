/** What Solve achieves, and misses, when talents and slots differ in number: exact conditions on its own input. */
module SolverLaws {
  import opened Numbers
  import opened Results
  import opened Permutations
  import opened Qualifier
  import opened MatchScore
  import opened Hungarian
  import HungarianOptimality
  import opened HungarianRuns
  import opened HungarianPlacement
  import opened HungarianOneColumn
  import opened HungarianSpare
  import opened HungarianContested
  import opened AssignmentSolver

  // ------------------------------------------------------------------------- more talents than slots

  /** t gives every slot an eligible talent, no talent twice. */
  ghost predicate Filling(input: AssignmentInput, t: seq<nat>) {
    && |t| == |input.slots| && Distinct(t)
    && forall j :: 0 <= j < |t| ==>
         t[j] < |input.talents| && Eligible(input.talents[t[j]], input.slots[j], input.allTiers)
  }

  ghost function FillingCost(input: AssignmentInput, t: seq<nat>): real
    requires Filling(input, t)
  {
    Sum(seq(|t|, j requires 0 <= j < |t| => PairCost(input, t[j], j)))
  }

  /** No way to fill all the slots is cheaper. */
  ghost predicate CheapestFilling(input: AssignmentInput, out: AssignmentOutput) {
    forall t: seq<nat> :: Filling(input, t) ==> out.totalCost <= FillingCost(input, t)
  }

  /** If the talents listed first can fill the slots, the result is the cheapest filling if and only if no choice
      of talents is cheaper than every placement of those first ones. */
  lemma FirstServedExactly(input: AssignmentInput, out: AssignmentOutput)
    requires Served(input, out) && FirstPlaceable(input)
    ensures CheapestFilling(input, out) <==>
      forall t: seq<nat> :: Filling(input, t) ==>
        exists w: seq<nat> :: Placement(input, w) && |w| == |input.slots| &&
          PlacementCost(input, w) <= FillingCost(input, t)
  {
    hide Placement, PlacementCost, Filling, FillingCost;
  }

  lemma VectorOf(input: AssignmentInput, out: AssignmentOutput) returns (vec: seq<nat>)
    requires FromSolver(input, out)
    ensures SolvedBy(input, vec) && out.assignments == Given(input, Padding(input), vec, |input.talents|)
    ensures Extractable(input, Padding(input), vec) && |input.talents| <= |vec|
  {
    vec :| SolvedBy(input, vec) && out.assignments == Given(input, Padding(input), vec, |input.talents|);
  }

  ghost predicate OneSlot(input: AssignmentInput) {
    |input.slots| == 1 && 0 < |input.talents| <= MAX_MATRIX_SIZE && Realistic(input)
  }

  ghost predicate FirstEligible(input: AssignmentInput)
    requires input.talents != [] && input.slots != []
  {
    Eligible(input.talents[0], input.slots[0], input.allTiers)
  }

  /** The solver gives its one open column to the first row. */
  lemma OneSlotVector(input: AssignmentInput, vec: seq<nat>)
    requires OneSlot(input) && SolvedBy(input, vec)
    ensures |vec| == |input.talents| && Distinct(vec) && vec[0] == 0
  {
    hide ComputeCij, Eligible, PairCost, CostMatrix, Run, Bivalued, Blank, Realistic, Halted, Distinct;
    var n, cost := |input.talents|, Padding(input);
    MatrixIsBivalued(input, n);
    var k :| Halted(n, Run(cost, n, SENTINEL, k)) && vec == HungarianOptimality.Result(n, Run(cost, n, SENTINEL, k));
    FirstRowHoldsTheColumn(cost, n, SENTINEL, COST_LIMIT, k);
  }

  /** So the first talent takes the slot if it is eligible, and nobody does if it is not. */
  lemma OneSlotTakes(input: AssignmentInput, vec: seq<nat>, i: nat)
    requires OneSlot(input) && SolvedBy(input, vec) && i < |input.talents|
    ensures Takes(input, Padding(input), vec, i) <==> i == 0 && FirstEligible(input)
  {
    hide ComputeCij, Eligible, PairCost, Solves;
    OneSlotVector(input, vec);
    LimitsFit(1);
    PairCostBounds(input, 0, 0);
    assert i != 0 ==> vec[i] != vec[0];
  }

  /** One slot, any number of talents: the slot is filled if and only if the talent listed first is eligible,
      and then by that talent. */
  lemma OneSlotGoesToTheFirst(input: AssignmentInput, out: AssignmentOutput)
    requires OneSlot(input) && Sound(input, out) && FromSolver(input, out)
    ensures TalentIds(out.assignments) == if FirstEligible(input) then [input.talents[0].id] else []
    ensures out.totalCost == if FirstEligible(input) then PairCost(input, 0, 0) else 0.0
  {
    hide ComputeCij, Eligible, PairCost, SolvedBy, Given, Sound, Realistic, FromSolver, Sum, FirstEligible,
      PlacementCost, Takes, Distinct;
    var vec := VectorOf(input, out);
    var n, m := |input.talents|, if FirstEligible(input) then 1 else 0;
    forall i: nat | i < n ensures Takes(input, Padding(input), vec, i) <==> i < m {
      OneSlotTakes(input, vec, i);
    }
    OneSlotVector(input, vec);
    SoundTotal(input, out);
    VectorPlacement(input, n, Padding(input), vec, m);
    OneSlotTotal(input, vec[..m]);
  }

  /** So it is filled as cheaply as possible if and only if the first talent is eligible and no other eligible
      talent is cheaper. */
  lemma OneSlotExactly(input: AssignmentInput, out: AssignmentOutput)
    requires OneSlot(input) && Sound(input, out) && FromSolver(input, out)
    ensures |out.assignments| == 1 && CheapestFilling(input, out) <==>
      && FirstEligible(input)
      && forall i :: 0 <= i < |input.talents| && Eligible(input.talents[i], input.slots[0], input.allTiers) ==>
           PairCost(input, 0, 0) <= PairCost(input, i, 0)
  {
    hide ComputeCij, Eligible, PairCost, Sound, Realistic, FromSolver, Filling, FillingCost;
    OneSlotGoesToTheFirst(input, out);
    assert |TalentIds(out.assignments)| == |out.assignments|;
    forall i: nat | i < |input.talents| && Eligible(input.talents[i], input.slots[0], input.allTiers)
      ensures Filling(input, [i]) && FillingCost(input, [i]) == PairCost(input, i, 0)
    {
      OneFilling(input, i);
    }
    forall t: seq<nat> | Filling(input, t)
      ensures |t| == 1 && t[0] < |input.talents| && Eligible(input.talents[t[0]], input.slots[0], input.allTiers)
      ensures t == [t[0]]
    {
      FillingOfOne(input, t);
    }
  }

  lemma FillingOfOne(input: AssignmentInput, t: seq<nat>)
    requires |input.slots| == 1 && Filling(input, t)
    ensures |t| == 1 && t[0] < |input.talents| && Eligible(input.talents[t[0]], input.slots[0], input.allTiers)
    ensures t == [t[0]]
  {
  }

  lemma OneSlotTotal(input: AssignmentInput, w: seq<nat>)
    requires |input.slots| == 1 && Placement(input, w) && |w| <= 1
    ensures PlacementCost(input, w) == if |w| == 1 then PairCost(input, 0, 0) else 0.0
  {
    hide Eligible, PairCost;
    if |w| == 1 {
      assert w == [0];
      OnePair(input);
    }
  }

  lemma SumOfOne(x: real)
    ensures Sum([x]) == x
  {
    assert [x][1..] == [];
  }

  lemma OnePair(input: AssignmentInput)
    requires |input.slots| == 1 && Placement(input, [0])
    ensures PlacementCost(input, [0]) == PairCost(input, 0, 0)
  {
    hide Eligible, PairCost;
    assert seq(1, i requires 0 <= i < 1 => PairCost(input, i, [0][i])) == [PairCost(input, 0, 0)];
    SumOfOne(PairCost(input, 0, 0));
  }

  lemma OneFilling(input: AssignmentInput, i: nat)
    requires |input.slots| == 1 && i < |input.talents| && Eligible(input.talents[i], input.slots[0], input.allTiers)
    ensures Filling(input, [i]) && FillingCost(input, [i]) == PairCost(input, i, 0)
  {
    hide Eligible, PairCost;
    assert seq(1, j requires 0 <= j < 1 => PairCost(input, [i][j], j)) == [PairCost(input, i, 0)];
    SumOfOne(PairCost(input, i, 0));
  }

  // ------------------------------------------------------------------------ as many slots, or spare ones

  /** Everyone is placed, and no placement of everyone is cheaper. */
  ghost predicate CheapestPlacement(input: AssignmentInput, out: AssignmentOutput) {
    && |out.assignments| == |input.talents|
    && forall w: seq<nat> :: Placement(input, w) && |w| == |input.talents| ==> out.totalCost <= PlacementCost(input, w)
  }

  /** Slot j is the first of the cheapest slots that talent i is eligible for. */
  ghost predicate FirstSlot(input: AssignmentInput, i: nat, j: nat) {
    && i < |input.talents| && j < |input.slots| && Eligible(input.talents[i], input.slots[j], input.allTiers)
    && forall k :: 0 <= k < |input.slots| && Eligible(input.talents[i], input.slots[k], input.allTiers) ==>
         PairCost(input, i, j) <= PairCost(input, i, k) && (k < j ==> PairCost(input, i, j) < PairCost(input, i, k))
  }

  ghost predicate Sized(input: AssignmentInput) {
    input.talents != [] && |input.talents| <= |input.slots| <= MAX_MATRIX_SIZE
  }

  lemma SparePadding(input: AssignmentInput)
    requires Realistic(input) && Sized(input)
    ensures var cost, m := Padding(input), |input.slots|;
            Square(cost, m) && NonNegative(cost, m) && PaddedRows(cost, m, SENTINEL, |input.talents|)
  {
    hide PairCost;
    CostMatrixShape(input, |input.slots|);
  }

  lemma SizesOf(input: AssignmentInput)
    requires Sized(input)
    ensures 0 < |input.talents| <= |input.slots| == |Padding(input)|
    ensures 0.0 <= COST_LIMIT < 2.0 * COST_LIMIT + 1.0 <= SENTINEL && FORBIDDEN == 2.0 * SENTINEL
  {
    LimitsFit(2);
  }

  /** The columns a talent is not eligible for are the forbidden ones. */
  lemma SlotPrice(input: AssignmentInput, cost: Matrix, m: nat, i: nat, d: nat)
    requires Realistic(input) && Sized(input) && cost == Padding(input) && m == |input.slots|
    requires i < |input.talents| && 1 <= d <= m
    ensures Square(cost, m) && Price(cost, m, i + 1, d) == PairCost(input, i, d - 1)
    ensures if Eligible(input.talents[i], input.slots[d - 1], input.allTiers)
            then 0.0 <= PairCost(input, i, d - 1) <= COST_LIMIT
            else PairCost(input, i, d - 1) == FORBIDDEN
    ensures Price(cost, m, i + 1, d) < SENTINEL <==> Eligible(input.talents[i], input.slots[d - 1], input.allTiers)
  {
    hide ComputeCij, Eligible, PairCost;
    SizesOf(input);
    CostMatrixShape(input, m);
    PairCostBounds(input, i, d - 1);
  }

  lemma FirstSlotIsChoice(input: AssignmentInput, i: nat, j: nat)
    requires Realistic(input) && Sized(input) && FirstSlot(input, i, j)
    ensures Square(Padding(input), |input.slots|)
    ensures FirstChoice(Padding(input), |input.slots|, SENTINEL, i + 1, j + 1)
  {
    hide ComputeCij, Eligible, PairCost, Padding, Realistic, Price, Sized;
    var cost, m := Padding(input), |input.slots|;
    SizesOf(input);
    SlotPrice(input, cost, m, i, j + 1);
    var r, c := i + 1, j + 1;
    forall d: nat | 1 <= d <= m
      ensures Price(cost, m, r, c) <= Price(cost, m, r, d) && (d < c ==> Price(cost, m, r, c) < Price(cost, m, r, d))
    {
      SlotPrice(input, cost, m, i, d);
    }
  }

  lemma TakesItsPlace(input: AssignmentInput, vec: seq<nat>, w: seq<nat>, i: nat)
    requires Realistic(input) && Sized(input) && Extractable(input, Padding(input), vec)
    requires Placement(input, w) && |w| == |input.talents| && vec[..|w|] == w && i < |w|
    ensures Takes(input, Padding(input), vec, i)
  {
    hide ComputeCij, Eligible, PairCost, Realistic;
    assert vec[i] == w[i];
    SizesOf(input);
    SlotPrice(input, Padding(input), |input.slots|, i, w[i] + 1);
  }

  /** A vector that starts with a placement of everyone is read off as that placement. */
  lemma ReadsAs(input: AssignmentInput, out: AssignmentOutput, vec: seq<nat>, w: seq<nat>)
    requires Realistic(input) && Sized(input) && Sound(input, out) && SolvedBy(input, vec)
    requires out.assignments == Given(input, Padding(input), vec, |input.talents|)
    requires Placement(input, w) && |w| == |input.talents| && vec[..|w|] == w
    ensures TalentIds(out.assignments) == Ids(input) && out.totalCost == PlacementCost(input, w)
  {
    hide ComputeCij, Eligible, PairCost, Given, Solves, Distinct, PlacementCost, Realistic, Takes, Sound, Assigned;
    SoundTotal(input, out);
    var n, m, cost := |input.talents|, |input.slots|, Padding(input);
    SizesOf(input);
    forall i | 0 <= i < n ensures Takes(input, cost, vec, i) {
      TakesItsPlace(input, vec, w, i);
    }
    VectorPlacement(input, m, cost, vec, n);
    assert Ids(input)[..n] == Ids(input);
  }

  ghost predicate FirstSlots(input: AssignmentInput, first: seq<nat>) {
    |first| == |input.talents| && Distinct(first) && forall i :: 0 <= i < |first| ==> FirstSlot(input, i, first[i])
  }

  lemma FirstSlotsAreChoices(input: AssignmentInput, first: seq<nat>)
    requires Realistic(input) && Sized(input) && FirstSlots(input, first)
    ensures Square(Padding(input), |input.slots|)
    ensures DifferentChoices(Padding(input), |input.slots|, SENTINEL, first)
  {
    hide ComputeCij, Eligible, PairCost, FirstSlot, FirstChoice, Padding;
    SizesOf(input);
    SparePadding(input);
    forall i | 0 <= i < |first| ensures FirstChoice(Padding(input), |input.slots|, SENTINEL, i + 1, first[i] + 1) {
      FirstSlotIsChoice(input, i, first[i]);
    }
  }

  lemma FirstSlotsPlace(input: AssignmentInput, first: seq<nat>)
    requires FirstSlots(input, first)
    ensures Placement(input, first)
  {
  }

  lemma VectorIsFirst(input: AssignmentInput, first: seq<nat>, vec: seq<nat>)
    requires Realistic(input) && Sized(input) && FirstSlots(input, first) && SolvedBy(input, vec)
    ensures |first| <= |vec| && vec[..|first|] == first
  {
    hide ComputeCij, Eligible, PairCost, FirstSlots, Padding, PaddedRows, NonNegative, Run, DifferentChoices, Halted,
      Distinct;
    var cost, m := Padding(input), |input.slots|;
    SizesOf(input);
    SparePadding(input);
    FirstSlotsAreChoices(input, first);
    FirstSlotsSize(input, first);
    var k :| Halted(m, Run(cost, m, SENTINEL, k)) && vec == HungarianOptimality.Result(m, Run(cost, m, SENTINEL, k));
    EveryoneGetsTheFirstChoice(cost, m, SENTINEL, first, k);
  }

  lemma FirstSlotsSize(input: AssignmentInput, first: seq<nat>)
    requires FirstSlots(input, first)
    ensures |first| == |input.talents|
  {
  }

  /** Any number of spare slots: if the talents' first cheapest slots are all different, each talent gets its
      own, so no placement is cheaper. */
  lemma DifferentFirstSlots(input: AssignmentInput, out: AssignmentOutput, first: seq<nat>)
    requires Realistic(input) && Sized(input) && Sound(input, out) && FromSolver(input, out) && FirstSlots(input, first)
    ensures Placement(input, first) && TalentIds(out.assignments) == Ids(input)
    ensures out.totalCost == PlacementCost(input, first)
    ensures CheapestPlacement(input, out)
  {
    hide Realistic, Sized, Sound, FromSolver, SolvedBy, FirstSlots, Given, Placement, PlacementCost, Padding;
    var vec := VectorOf(input, out);
    FirstSlotsSize(input, first);
    FirstSlotsPlace(input, first);
    VectorIsFirst(input, first, vec);
    ReadsAs(input, out, vec, first);
    assert |TalentIds(out.assignments)| == |out.assignments|;
    forall w: seq<nat> | Placement(input, w) && |w| == |first|
      ensures PlacementCost(input, first) <= PlacementCost(input, w)
    {
      FirstSlotsBound(input, first, w);
    }
  }

  lemma FirstSlotsBound(input: AssignmentInput, first: seq<nat>, w: seq<nat>)
    requires Placement(input, first) && Placement(input, w) && |w| == |first| && FirstSlots(input, first)
    ensures PlacementCost(input, first) <= PlacementCost(input, w)
  {
    hide Eligible, PairCost;
    SumMonotone(seq(|w|, i requires 0 <= i < |w| => PairCost(input, i, first[i])),
                seq(|w|, i requires 0 <= i < |w| => PairCost(input, i, w[i])));
  }

  // -------------------------------------------------------------------------------- two talents

  /** Two talents and at least two slots; any pair may be ineligible. */
  ghost predicate TwoOnly(input: AssignmentInput) {
    Realistic(input) && Sized(input) && |input.talents| == 2
  }

  /** Both talents could be placed. */
  ghost predicate BothPlaceable(input: AssignmentInput) {
    exists w: seq<nat> :: Placement(input, w) && |w| == 2
  }

  lemma TwoPrices(input: AssignmentInput, cost: Matrix, i: nat, d: nat)
    requires TwoOnly(input) && cost == Padding(input) && i < 2 && 1 <= d <= |input.slots|
    ensures Square(cost, |input.slots|) && Price(cost, |input.slots|, i + 1, d) == PairCost(input, i, d - 1)
    ensures if Eligible(input.talents[i], input.slots[d - 1], input.allTiers)
            then 0.0 <= PairCost(input, i, d - 1) <= COST_LIMIT
            else PairCost(input, i, d - 1) == FORBIDDEN
    ensures Price(cost, |input.slots|, i + 1, d) < SENTINEL <==>
            Eligible(input.talents[i], input.slots[d - 1], input.allTiers)
  {
    hide Eligible, PairCost, Padding, Price, Realistic, Sized;
    SizesOf(input);
    SlotPrice(input, cost, |input.slots|, i, d);
  }

  lemma TwoSizes(input: AssignmentInput)
    requires TwoOnly(input)
    ensures |input.talents| == 2 <= |input.slots| == |Padding(input)|
    ensures 0.0 <= COST_LIMIT && 2.0 * COST_LIMIT < SENTINEL && FORBIDDEN == 2.0 * SENTINEL
  {
    hide Padding, Realistic;
    SizesOf(input);
  }

  lemma TwoCost(input: AssignmentInput, w: seq<nat>)
    requires Placement(input, w) && |w| == 2
    ensures PlacementCost(input, w) == PairCost(input, 0, w[0]) + PairCost(input, 1, w[1])
  {
    hide Eligible, PairCost;
    var prices := [PairCost(input, 0, w[0]), PairCost(input, 1, w[1])];
    assert seq(2, i requires 0 <= i < 2 => PairCost(input, i, w[i])) == prices;
    SumOfPair(prices[0], prices[1]);
  }

  lemma SumOfPair(x: real, y: real)
    ensures Sum([x, y]) == x + y
  {
    assert [x, y][1..] == [y];
    SumOfOne(y);
  }

  lemma PlacementRange(input: AssignmentInput, w: seq<nat>)
    requires Placement(input, w) && |w| == 2
    ensures |input.talents| >= 2 && w[0] < |input.slots| && w[1] < |input.slots| && w[0] != w[1]
    ensures Eligible(input.talents[0], input.slots[w[0]], input.allTiers)
    ensures Eligible(input.talents[1], input.slots[w[1]], input.allTiers)
  {
  }

  lemma PairPlaces(input: AssignmentInput, x: nat, y: nat)
    requires |input.talents| == 2 && x < |input.slots| && y < |input.slots| && x != y
    ensures Placement(input, [x, y]) <==>
      && Eligible(input.talents[0], input.slots[x], input.allTiers)
      && Eligible(input.talents[1], input.slots[y], input.allTiers)
  {
    hide Eligible;
    if Placement(input, [x, y]) {
      PlacementRange(input, [x, y]);
    }
  }

  /** Both talents are assigned exactly when the solver's vector gives each a slot it is eligible for. */
  lemma TwoRead(input: AssignmentInput, out: AssignmentOutput, vec: seq<nat>)
    requires TwoOnly(input) && Sound(input, out) && SolvedBy(input, vec)
    requires out.assignments == Given(input, Padding(input), vec, 2)
    ensures vec[0] < |input.slots| && vec[1] < |input.slots| && vec[0] != vec[1]
    ensures |out.assignments| == 2 <==> Placement(input, [vec[0], vec[1]])
    ensures |out.assignments| == 2 ==> out.totalCost == PairCost(input, 0, vec[0]) + PairCost(input, 1, vec[1])
  {
    hide ComputeCij, Eligible, PairCost, Given, Solves, PlacementCost, Realistic, Sound, Takes;
    var m := |input.slots|;
    assert vec[..2] == [vec[0], vec[1]];
    if |out.assignments| == 2 {
      GivenAll(input, Padding(input), vec, 2);
      VectorIsPlacement(input, m, vec, 2);
    }
    if Placement(input, [vec[0], vec[1]]) {
      ReadsAs(input, out, vec, vec[..2]);
      TwoCost(input, vec[..2]);
      assert |TalentIds(out.assignments)| == |out.assignments|;
    }
  }

  /** When both talents can be placed, the cheapest placements are the cheapest pairs of different columns. */
  lemma TwoCheapest(input: AssignmentInput, out: AssignmentOutput, cost: Matrix, m: nat, x: nat, y: nat)
    requires TwoOnly(input) && BothPlaceable(input) && cost == Padding(input) && m == |input.slots| >= 2
    requires Square(cost, m)
    requires x < m && y < m && x != y && (|out.assignments| == 2 <==> Placement(input, [x, y]))
    requires |out.assignments| == 2 ==> out.totalCost == PairCost(input, 0, x) + PairCost(input, 1, y)
    ensures CheapestPlacement(input, out) <==> PairCheapest(cost, m, x + 1, y + 1)
  {
    hide PairCost, TwoOnly, Padding, Placement, PlacementCost, Price, BothPlaceable, PairCheapest;
    TwoSizes(input);
    if CheapestPlacement(input, out) {
      CheapestIsPair(input, out, cost, m, x, y);
    }
    if PairCheapest(cost, m, x + 1, y + 1) {
      PairIsCheapest(input, out, cost, m, x, y);
    }
  }

  /** What two different columns cost together: the placement's cost, or more than any placement if one of the
      pairs is ineligible. */
  lemma PairSum(input: AssignmentInput, cost: Matrix, m: nat, x: nat, y: nat)
    requires TwoOnly(input) && cost == Padding(input) && m == |input.slots| >= 2 && x < m && y < m && x != y
    ensures Square(cost, m)
    ensures var sum := Price(cost, m, 1, x + 1) + Price(cost, m, 2, y + 1);
            && sum == PairCost(input, 0, x) + PairCost(input, 1, y)
            && if Placement(input, [x, y]) then PlacementCost(input, [x, y]) == sum <= 2.0 * COST_LIMIT
               else sum > 2.0 * COST_LIMIT
  {
    hide ComputeCij, Eligible, PairCost, Realistic, TwoOnly, Padding, Placement, PlacementCost, Price;
    TwoSizes(input);
    TwoPrices(input, cost, 0, x + 1);
    TwoPrices(input, cost, 1, y + 1);
    PairPlaces(input, x, y);
    if Placement(input, [x, y]) {
      TwoCost(input, [x, y]);
    }
  }

  lemma CheapestIsPair(input: AssignmentInput, out: AssignmentOutput, cost: Matrix, m: nat, x: nat, y: nat)
    requires TwoOnly(input) && cost == Padding(input) && m == |input.slots| >= 2 && Square(cost, m)
    requires x < m && y < m && x != y && Placement(input, [x, y])
    requires out.totalCost == PairCost(input, 0, x) + PairCost(input, 1, y) && CheapestPlacement(input, out)
    ensures PairCheapest(cost, m, x + 1, y + 1)
  {
    hide PairCost, TwoOnly, Padding, Placement, PlacementCost, Price;
    TwoSizes(input);
    PairSum(input, cost, m, x, y);
    forall x': nat, y': nat | 1 <= x' <= m && 1 <= y' <= m && x' != y'
      ensures Price(cost, m, 1, x + 1) + Price(cost, m, 2, y + 1) <= Price(cost, m, 1, x') + Price(cost, m, 2, y')
    {
      PairSum(input, cost, m, x' - 1, y' - 1);
      assert |[x' - 1, y' - 1]| == 2;
    }
  }

  lemma PairIsCheapest(input: AssignmentInput, out: AssignmentOutput, cost: Matrix, m: nat, x: nat, y: nat)
    requires TwoOnly(input) && BothPlaceable(input)
    requires cost == Padding(input) && m == |input.slots| >= 2 && Square(cost, m)
    requires x < m && y < m && x != y && (|out.assignments| == 2 <==> Placement(input, [x, y]))
    requires |out.assignments| == 2 ==> out.totalCost == PairCost(input, 0, x) + PairCost(input, 1, y)
    requires PairCheapest(cost, m, x + 1, y + 1)
    ensures CheapestPlacement(input, out)
  {
    hide PairCost, TwoOnly, Padding, Placement, PlacementCost, Price, PairCheapest;
    TwoSizes(input);
    PairSum(input, cost, m, x, y);
    var w0: seq<nat> :| Placement(input, w0) && |w0| == 2;
    PairAtMost(input, cost, m, x, y, w0);
    forall w: seq<nat> | Placement(input, w) && |w| == 2 ensures out.totalCost <= PlacementCost(input, w) {
      PairAtMost(input, cost, m, x, y, w);
    }
  }

  lemma PairAtMost(input: AssignmentInput, cost: Matrix, m: nat, x: nat, y: nat, w: seq<nat>)
    requires TwoOnly(input) && cost == Padding(input) && m == |input.slots| >= 2 && Square(cost, m) && x < m && y < m
    requires PairCheapest(cost, m, x + 1, y + 1) && Placement(input, w) && |w| == 2
    ensures Price(cost, m, 1, x + 1) + Price(cost, m, 2, y + 1) <= PlacementCost(input, w) <= 2.0 * COST_LIMIT
  {
    hide PairCost, Eligible, TwoOnly, Padding, Placement, PlacementCost, Price;
    PlacementRange(input, w);
    assert w == [w[0], w[1]];
    PairSum(input, cost, m, w[0], w[1]);
  }

  /** Where the slot left over is dear: there is none, or it costs the holder of the shared slot no more. */
  ghost predicate Harmless(cost: Matrix, m: nat, c: nat, e: nat, f: nat)
    requires Square(cost, m) && m >= 2 && 1 <= c <= m && f <= m
  {
    f == 0 || Price(cost, m, Holder(cost, m, SENTINEL, c, e), f) == Price(cost, m, Holder(cost, m, SENTINEL, c, e), c)
  }

  /** Two talents with the same first slot c, any number of slots (columns are numbered from 1), any pair but these
      ineligible: e is the slot one of them goes on to, f the first slot left over that was reached over c, or 0.
      The result is cheapest if and only if there is no such f, or f costs the holder of c no more than c. */
  lemma SharedFirstSlot(input: AssignmentInput, out: AssignmentOutput, cost: Matrix, m: nat, c: nat, e: nat, f: nat)
    requires m == |input.slots| && cost == Padding(input) && Square(cost, m) && m >= 2 && 1 <= c <= m && f <= m
    requires TwoOnly(input) && BothPlaceable(input) && Sound(input, out) && FromSolver(input, out)
    requires Contest(cost, m, SENTINEL, COST_LIMIT, c, e, f)
    ensures CheapestPlacement(input, out) <==> Harmless(cost, m, c, e, f)
  {
    hide ComputeCij, Eligible, PairCost, Run, Padding, Given, Sound, Price, Contest, Realistic, Halted, PairCheapest,
      CheapestPlacement, TwoOnly, Holder, FromSolver, IsPermutation, BothPlaceable, Placement;
    TwoSizes(input);
    var vec := VectorOf(input, out);
    var k :| Halted(m, Run(cost, m, SENTINEL, k)) && vec == HungarianOptimality.Result(m, Run(cost, m, SENTINEL, k));
    TwoRead(input, out, vec);
    TwoCheapest(input, out, cost, m, vec[0], vec[1]);
    CheapestExactly(cost, m, SENTINEL, COST_LIMIT, c, e, f, k);
  }

  /** The two talents' first choices, and their contest if they share one. */
  ghost predicate Choices(cost: Matrix, m: nat, x: nat, y: nat, e: nat, f: nat)
    requires Square(cost, m) && m >= 2
  {
    && FirstChoice(cost, m, SENTINEL, 1, x) && FirstChoice(cost, m, SENTINEL, 2, y)
    && (x == y ==> Contest(cost, m, SENTINEL, COST_LIMIT, x, e, f) && f <= m)
  }

  /** So for two talents and any number of slots the condition is complete: the result is a cheapest placement of
      both if and only if both can be placed, and their first slots differ or the slot left over is harmless. */
  lemma TwoTalentsExactly(input: AssignmentInput, out: AssignmentOutput, cost: Matrix, m: nat)
    returns (x: nat, y: nat, e: nat, f: nat)
    requires m == |input.slots| && cost == Padding(input) && Square(cost, m) && m >= 2
    requires TwoOnly(input) && Sound(input, out) && FromSolver(input, out)
    ensures BothPlaceable(input) ==> Choices(cost, m, x, y, e, f)
    ensures CheapestPlacement(input, out) <==> BothPlaceable(input) && (x != y || Harmless(cost, m, x, e, f))
  {
    hide Padding, Sound, Realistic, TwoOnly, FromSolver, Contest, FirstChoice, Harmless, BothPlaceable,
      CheapestPlacement;
    x, y, e, f := 1, 1, 0, 0;
    if BothPlaceable(input) {
      x, y, e, f := TwoChoices(input, cost, m);
      if x == y {
        SharedFirstSlot(input, out, cost, m, x, e, f);
      } else {
        TwoDifferent(input, out, cost, m, x, y);
      }
    } else {
      NotPlaceable(input, out);
    }
  }

  lemma NotPlaceable(input: AssignmentInput, out: AssignmentOutput)
    requires TwoOnly(input) && Sound(input, out) && FromSolver(input, out) && !BothPlaceable(input)
    ensures !CheapestPlacement(input, out)
  {
    hide SolvedBy, Given, Placement, PlacementCost, Sound, Padding, Realistic;
    var vec := VectorOf(input, out);
    TwoRead(input, out, vec);
    var w := [vec[0], vec[1]];
    assert !(Placement(input, w) && |w| == 2);
  }

  lemma TwoChoices(input: AssignmentInput, cost: Matrix, m: nat) returns (x: nat, y: nat, e: nat, f: nat)
    requires m == |input.slots| && cost == Padding(input) && Square(cost, m) && m >= 2
    requires TwoOnly(input) && BothPlaceable(input)
    ensures Choices(cost, m, x, y, e, f) && 1 <= x <= m && 1 <= y <= m && f <= m
  {
    hide Padding, Realistic, FirstChoice, Bivalued, Contest, PaddedRows, Price, Placement, Sized;
    var w: seq<nat> :| Placement(input, w) && |w| == 2;
    SparePadding(input);
    TwoBivalued(input, cost, m);
    PlacedPrices(input, cost, m, w);
    x := FirstChoiceExists(cost, m, SENTINEL, 1, w[0] + 1);
    y := FirstChoiceExists(cost, m, SENTINEL, 2, w[1] + 1);
    ChoiceInRange(cost, m, SENTINEL, 1, x);
    ChoiceInRange(cost, m, SENTINEL, 2, y);
    e, f := 0, 0;
    if x == y {
      var d := if w[0] + 1 != x then w[0] + 1 else w[1] + 1;
      e, f := ContestExists(cost, m, SENTINEL, COST_LIMIT, x, d);
      ContestFacts(cost, m, SENTINEL, COST_LIMIT, x, e, f);
    }
  }

  lemma PlacedPrices(input: AssignmentInput, cost: Matrix, m: nat, w: seq<nat>)
    requires m == |input.slots| && cost == Padding(input) && Square(cost, m) && m >= 2
    requires TwoOnly(input) && Placement(input, w) && |w| == 2
    ensures w[0] < m && w[1] < m && w[0] != w[1]
    ensures Price(cost, m, 1, w[0] + 1) < SENTINEL && Price(cost, m, 2, w[1] + 1) < SENTINEL
  {
    hide Eligible, PairCost, Padding, Realistic, Price, Placement, TwoOnly;
    PlacementRange(input, w);
    TwoPrices(input, cost, 0, w[0] + 1);
    TwoPrices(input, cost, 1, w[1] + 1);
  }

  lemma TwoBivalued(input: AssignmentInput, cost: Matrix, m: nat)
    requires TwoOnly(input) && m == |input.slots| && cost == Padding(input) && Square(cost, m)
    ensures Bivalued(cost, m, SENTINEL, COST_LIMIT)
  {
    hide Bivalued, Blank;
    MatrixIsBivalued(input, m);
  }

  lemma ChoiceIsFirstSlot(input: AssignmentInput, cost: Matrix, m: nat, i: nat, c: nat)
    requires TwoOnly(input) && m == |input.slots| && cost == Padding(input) && Square(cost, m) && i < 2
    requires FirstChoice(cost, m, SENTINEL, i + 1, c)
    ensures c >= 1 && FirstSlot(input, i, c - 1)
  {
    hide PairCost, Padding, Realistic, Price, Eligible;
    TwoPrices(input, cost, i, c);
    forall k: nat | k < m
      ensures PairCost(input, i, c - 1) <= PairCost(input, i, k) &&
              (k < c - 1 ==> PairCost(input, i, c - 1) < PairCost(input, i, k))
    {
      TwoPrices(input, cost, i, k + 1);
    }
  }

  lemma TwoDifferent(input: AssignmentInput, out: AssignmentOutput, cost: Matrix, m: nat, x: nat, y: nat)
    requires TwoOnly(input) && Sound(input, out) && FromSolver(input, out) && x != y
    requires m == |input.slots| && cost == Padding(input) && Square(cost, m) && m >= 2
    requires FirstChoice(cost, m, SENTINEL, 1, x) && FirstChoice(cost, m, SENTINEL, 2, y)
    ensures CheapestPlacement(input, out)
  {
    hide FirstSlot, FirstChoice, Padding, Sound, FromSolver, Eligible, PairCost, Realistic, CheapestPlacement;
    ChoiceIsFirstSlot(input, cost, m, 0, x);
    ChoiceIsFirstSlot(input, cost, m, 1, y);
    assert FirstSlots(input, [x - 1, y - 1]);
    DifferentFirstSlots(input, out, [x - 1, y - 1]);
  }

  // ------------------------------------------------------------------------- a concrete loss

  const QUICK := TalentProfile("quick", 3.0, 0, 10)
  const SLOW := TalentProfile("slow", 2.0, 0, 10)

  function Plain(id: string, tier: int): BudgetSlot { BudgetSlot(id, tier, 5000.0, 5000.0) }

  /** Two talents and three slots that need 1, 6 and 12 conversions. */
  const SPARE := AssignmentInput(
    [QUICK, SLOW], [Plain("a", 5000), Plain("b", 30000), Plain("c", 60000)], [1], map[], 0.0)

  lemma WholeFloor(k: int)
    ensures Floor(k as real) == k && Ceil(k as real) == k
  {
  }

  lemma PlainBounds(tier: int, k: int)
    requires tier == 5000 * k && k >= 1
    ensures TierBoundsFor(Plain("x", tier)) == Ok(TierBounds(k, k))
  {
    assert tier as real / 5000.0 == k as real;
    WholeFloor(k);
  }

  /** A talent that needs `days` days and then covers the k conversions costs just those days. */
  lemma PlainCost(t: TalentProfile, id: string, k: int, days: int)
    requires t.pdc > 0.0 && t.maxTier == 0 && t.cycleLength == 10 && k >= 1 && t.pdc * 10.0 >= k as real * 0.80
    requires (days - 1) as real * t.pdc < k as real <= days as real * t.pdc
    ensures Eligible(t, Plain(id, 5000 * k), [1])
    ensures ComputeCij(t, Plain(id, 5000 * k), [1], NEUTRAL, 0.0) == days as real
  {
    var slot := Plain(id, 5000 * k);
    PlainBounds(5000 * k, k);
    assert TierBoundsFor(slot) == Ok(TierBounds(k, k));
    LeastDays(k as real, t.pdc, days);
    LeastDays(k as real, t.pdc, days - 1);
    assert Ceil(k as real / t.pdc) == days;
    WhoQualifies(t, slot, [1]);
    var actual := days as real * t.pdc;
    assert Qualify(t, slot, [1]).value == QualResult(true, "ok", days as real, actual);
    CoveredPenalty(k, actual);
    assert MatchAdjustment(0.0, DEFAULT_ALPHA) == 1.0;
  }

  lemma CoveredPenalty(max: int, actual: real)
    requires max > 0 && actual >= max as real
    ensures PenaltyDays(max, actual) == 0
  {
    DivBounds(max as real - actual, max as real, 0.0);
  }

  lemma SpareCosts()
    ensures TwoOnly(SPARE)
    ensures forall i, j {:trigger PairCost(SPARE, i, j)} :: 0 <= i < 2 && 0 <= j < 3 ==>
              Eligible(SPARE.talents[i], SPARE.slots[j], SPARE.allTiers)
    ensures PairCost(SPARE, 0, 0) == 1.0 && PairCost(SPARE, 0, 1) == 2.0 && PairCost(SPARE, 0, 2) == 4.0
    ensures PairCost(SPARE, 1, 0) == 1.0 && PairCost(SPARE, 1, 1) == 3.0 && PairCost(SPARE, 1, 2) == 6.0
  {
    hide ComputeCij, Eligible;
    PlainCost(QUICK, "a", 1, 1);
    PlainCost(QUICK, "b", 6, 2);
    PlainCost(QUICK, "c", 12, 4);
    PlainCost(SLOW, "a", 1, 1);
    PlainCost(SLOW, "b", 6, 3);
    PlainCost(SLOW, "c", 12, 6);
  }

  lemma SparePrices()
    ensures var cost := Padding(SPARE);
            && Square(cost, 3) && Bivalued(cost, 3, SENTINEL, COST_LIMIT) && PaddedRows(cost, 3, SENTINEL, 2)
            && SENTINEL > 1000.0
            && Price(cost, 3, 1, 1) == 1.0 && Price(cost, 3, 1, 2) == 2.0 && Price(cost, 3, 1, 3) == 4.0
            && Price(cost, 3, 2, 1) == 1.0 && Price(cost, 3, 2, 2) == 3.0 && Price(cost, 3, 2, 3) == 6.0
  {
    hide ComputeCij, Eligible, PairCost, Padding, Price, NonNegative, PaddedRows, Bivalued;
    var cost := Padding(SPARE);
    SpareCosts();
    SparePadding(SPARE);
    TwoBivalued(SPARE, cost, 3);
    TwoPrices(SPARE, cost, 0, 1);
    TwoPrices(SPARE, cost, 0, 2);
    TwoPrices(SPARE, cost, 0, 3);
    TwoPrices(SPARE, cost, 1, 1);
    TwoPrices(SPARE, cost, 1, 2);
    TwoPrices(SPARE, cost, 1, 3);
  }

  /** Both talents prefer the first column; the first talent goes on to the second, and the third was reached
      over the first. */
  lemma SpareContest(cost: Matrix, inf: real, C: real)
    requires Square(cost, 3) && Bivalued(cost, 3, inf, C) && PaddedRows(cost, 3, inf, 2) && inf > 1000.0
    requires Price(cost, 3, 1, 1) == 1.0 && Price(cost, 3, 1, 2) == 2.0 && Price(cost, 3, 1, 3) == 4.0
    requires Price(cost, 3, 2, 1) == 1.0 && Price(cost, 3, 2, 2) == 3.0 && Price(cost, 3, 2, 3) == 6.0
    ensures Contest(cost, 3, inf, C, 1, 2, 3) && Mover(cost, 3, inf, 1, 2) == 1
  {
    hide Bivalued, PaddedRows, Price;
    assert Through(cost, 3, inf, 1, 2) && Through(cost, 3, inf, 1, 3);
  }

  lemma SpareVector(vec: seq<nat>)
    requires SolvedBy(SPARE, vec)
    ensures |vec| == 3 && vec[0] == 1 && vec[1] == 2
  {
    hide ComputeCij, Eligible, PairCost, Run, Padding, Price, Bivalued, PaddedRows, Contest, Mover, Halted;
    var cost := Padding(SPARE);
    SparePrices();
    SpareContest(cost, SENTINEL, COST_LIMIT);
    var k :| Halted(3, Run(cost, 3, SENTINEL, k)) && vec == HungarianOptimality.Result(3, Run(cost, 3, SENTINEL, k));
    TwoTalents(cost, 3, SENTINEL, COST_LIMIT, 1, 2, 3, k);
  }

  /** With a spare slot Solve can miss the optimum although every pair is eligible: here it costs 8 days, the
      best placement 3.  The second talent is pushed from the first slot to the third. */
  lemma SpareSlotsAreNotOptimal(out: AssignmentOutput)
    requires Sound(SPARE, out) && FromSolver(SPARE, out)
    ensures out.totalCost == 8.0
    ensures Placement(SPARE, [1, 0]) && PlacementCost(SPARE, [1, 0]) == 3.0
  {
    hide ComputeCij, Eligible, PairCost, SolvedBy, Padding, Given, Sound, TwoOnly, Placement, PlacementCost;
    SpareCosts();
    var vec := VectorOf(SPARE, out);
    SpareVector(vec);
    TwoRead(SPARE, out, vec);
    PairPlaces(SPARE, 1, 2);
    PairPlaces(SPARE, 1, 0);
    TwoCost(SPARE, [1, 0]);
  }

  const IDLE := TalentProfile("idle", 0.0, 0, 10)

  /** A talent without output is listed before one that could take the only slot. */
  const LEFT_OUT := AssignmentInput([IDLE, QUICK], [Plain("a", 5000)], [1], map[], 0.0)

  /** With one slot Solve can leave it empty although an eligible talent is there: the first one listed is not. */
  lemma EligibleTalentLeftOut(out: AssignmentOutput)
    requires Sound(LEFT_OUT, out) && FromSolver(LEFT_OUT, out)
    ensures out.assignments == []
    ensures Filling(LEFT_OUT, [1]) && FillingCost(LEFT_OUT, [1]) == 1.0
  {
    hide ComputeCij, Eligible, Sound, FromSolver, CheapestFilling, Filling, FillingCost;
    PlainCost(QUICK, "a", 1, 1);
    OneFilling(LEFT_OUT, 1);
    IdleIsIneligible(Plain("a", 5000));
    OneSlotGoesToTheFirst(LEFT_OUT, out);
    assert |TalentIds(out.assignments)| == |out.assignments|;
  }

  lemma IdleIsIneligible(slot: BudgetSlot)
    ensures !Eligible(IDLE, slot, [1])
  {
    hide TierBoundsFor;
    if TierBoundsFor(slot).Ok? {
      WhoQualifies(IDLE, slot, [1]);
    }
  }
}
