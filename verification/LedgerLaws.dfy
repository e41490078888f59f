/** What every run of the campaign ledger keeps. */
module LedgerLaws {
  import opened Permutations
  import opened Slots
  import opened SlotLaws
  import opened Ledger

  ghost predicate CyclesOk(cycles: seq<Cycle>) {
    && (forall i :: 0 <= i < |cycles| ==> cycles[i].id != "" && cycles[i].budget > 0.0)
    && (forall i, j :: 0 <= i < j < |cycles| ==> cycles[i].id != cycles[j].id)
  }

  function Budgets(cycles: seq<Cycle>): real { BudgetSum(cycles, "", |cycles|) }

  /** Cycle budgets together stay within the campaign budget. */
  ghost predicate BookOk(b: Book) {
    CyclesOk(b.cycles) && (b.cycles != [] ==> Budgets(b.cycles) <= Base(b.campaign))
  }

  ghost predicate KeysOk(slots: seq<Slot>) {
    && KeysUnique(slots) && StartsAtZero(slots)
    && forall i :: 0 <= i < |slots| ==> slots[i].tierValue > 0 && slots[i].slotIndex >= 0
  }

  ghost predicate Fits(c: Cycle) { TierSum(c.slots, |c.slots|) as real <= c.budget }

  ghost predicate AllKeysOk(b: Book) { forall i :: 0 <= i < |b.cycles| ==> KeysOk(b.cycles[i].slots) }

  ghost predicate AllFit(b: Book) { forall i :: 0 <= i < |b.cycles| ==> Fits(b.cycles[i]) }

  // -------------------------------------------------------------------------- sums of budgets

  function BudgetsOf(cycles: seq<Cycle>): (r: seq<real>) {
    seq(|cycles|, i requires 0 <= i < |cycles| => cycles[i].budget)
  }

  lemma {:induction false} BudgetsAreSummed(cycles: seq<Cycle>, k: nat)
    requires k <= |cycles| && forall i :: 0 <= i < |cycles| ==> cycles[i].id != ""
    ensures BudgetSum(cycles, "", k) == Sum(BudgetsOf(cycles[..k]))
  {
    hide Sum;
    if k == 0 {
      SumOfEmpty(BudgetsOf(cycles[..0]));
    } else {
      BudgetsAreSummed(cycles, k - 1);
      assert BudgetsOf(cycles[..k]) == BudgetsOf(cycles[..k - 1]) + [cycles[k - 1].budget];
      SumAppend(BudgetsOf(cycles[..k - 1]), cycles[k - 1].budget);
    }
  }

  lemma {:induction false} SumExcept(cycles: seq<Cycle>, i: nat, k: nat)
    requires CyclesOk(cycles) && i < |cycles| && k <= |cycles|
    ensures BudgetSum(cycles, cycles[i].id, k) == BudgetSum(cycles, "", k) - if i < k then cycles[i].budget else 0.0
  {
    if k > 0 {
      SumExcept(cycles, i, k - 1);
      assert cycles[k - 1].id == cycles[i].id <==> k - 1 == i;
    }
  }

  lemma {:induction false} SumUpdated(cycles: seq<Cycle>, i: nat, c: Cycle, k: nat)
    requires i < |cycles| && k <= |cycles| && cycles[i].id != "" && c.id == cycles[i].id
    ensures BudgetSum(cycles[i := c], "", k) ==
            BudgetSum(cycles, "", k) + if i < k then c.budget - cycles[i].budget else 0.0
  {
    if k > 0 {
      SumUpdated(cycles, i, c, k - 1);
    }
  }

  lemma {:induction false} SumPrefix(cycles: seq<Cycle>, c: Cycle, k: nat)
    requires k <= |cycles|
    ensures BudgetSum(cycles + [c], "", k) == BudgetSum(cycles, "", k)
  {
    if k > 0 {
      SumPrefix(cycles, c, k - 1);
    }
  }

  // ------------------------------------------------------------------------------- CreateCycle

  function NewId(requested: string, generated: Uuid): Uuid { if requested == "" then generated else requested }

  /** CreateCycle either changes nothing or adds one fresh, validated cycle. */
  lemma CreateShape(b: Book, requested: string, generated: Uuid, budget: real, talents: seq<Talent>)
    ensures var id, after := NewId(requested, generated), AfterCreate(b, requested, generated, budget, talents).0;
            after == b ||
            (&& Find(b.cycles, id) == |b.cycles|
             && 0.0 < budget <= Remaining(b.campaign, b.cycles, "")
             && after == b.(cycles := b.cycles + [Cycle(id, budget, false, NewSlots(budget, b.campaign, talents))]))
  {
    hide Build, Remaining;
  }

  function NewSlots(budget: real, campaign: Campaign, talents: seq<Talent>): seq<Slot> {
    var r := Build(budget, campaign, talents);
    if r.Ok? then r.value else []
  }

  lemma NewSlotsOk(budget: real, campaign: Campaign, talents: seq<Talent>)
    requires budget > 0.0
    ensures KeysOk(NewSlots(budget, campaign, talents))
    ensures var s := NewSlots(budget, campaign, talents); TierSum(s, |s|) as real <= budget
  {
    hide Build;
    if Build(budget, campaign, talents).Ok? {
      var _ := AllocationFits(budget, campaign, talents);
    }
  }

  lemma CreateKeepsBook(b: Book, requested: string, generated: Uuid, budget: real, talents: seq<Talent>)
    requires BookOk(b)
    ensures BookOk(AfterCreate(b, requested, generated, budget, talents).0)
  {
    hide AfterCreate, NewSlots;
    CreateShape(b, requested, generated, budget, talents);
    if AfterCreate(b, requested, generated, budget, talents).0 != b {
      SumPrefix(b.cycles, Cycle(NewId(requested, generated), budget, false, NewSlots(budget, b.campaign, talents)),
        |b.cycles|);
    }
  }

  lemma CreateKeepsSlots(b: Book, requested: string, generated: Uuid, budget: real, talents: seq<Talent>)
    requires AllKeysOk(b)
    ensures AllKeysOk(AfterCreate(b, requested, generated, budget, talents).0)
    ensures AllFit(b) ==> AllFit(AfterCreate(b, requested, generated, budget, talents).0)
  {
    hide AfterCreate, NewSlots, KeysOk;
    CreateShape(b, requested, generated, budget, talents);
    if AfterCreate(b, requested, generated, budget, talents).0 != b {
      NewSlotsOk(budget, b.campaign, talents);
    }
  }

  /** The budget is at least both costs per conversion and in the stored range. */
  predicate BudgetInRange(campaign: Campaign, budget: real) {
    0.0 < budget <= 999_999_999_999.99 && campaign.targetCpa <= budget && campaign.maxCpa <= budget
  }

  /** When a cycle is created: its budget is in range and fits what the others leave of the campaign, the costs
      per conversion are in order, its identifier is new, and slots can be built. */
  lemma WhenCreated(b: Book, requested: string, generated: Uuid, budget: real, talents: seq<Talent>)
    requires BookOk(b)
    ensures AfterCreate(b, requested, generated, budget, talents).1.None? <==>
      && BudgetInRange(b.campaign, budget)
      && Sum(BudgetsOf(b.cycles)) + budget <=
         (if b.campaign.totalBudget > 0.0 then b.campaign.totalBudget else b.campaign.remainingBudget)
      && 0.0 < b.campaign.targetCpa <= b.campaign.maxCpa
      && (forall i :: 0 <= i < |b.cycles| ==>
            b.cycles[i].id != (if requested == "" then generated else requested))
      && Build(budget, b.campaign, talents).Ok?
  {
    hide Build, BudgetSum, Sum;
    BudgetsAreSummed(b.cycles, |b.cycles|);
    assert b.cycles[..|b.cycles|] == b.cycles;
  }

  // -------------------------------------------------------------------------------- PatchCycle

  /** When a cycle's budget is changed, to the new one and nothing else: the cycle exists, the budget is in range,
      and with the other cycles' it fits the campaign. */
  lemma WhenPatched(b: Book, id: string, budget: real)
    requires BookOk(b)
    ensures var i := Find(b.cycles, id);
            var (after, error) := AfterPatch(b, id, budget);
            && (error.None? <==>
                 && (exists j :: 0 <= j < |b.cycles| && b.cycles[j].id == id) && BudgetInRange(b.campaign, budget)
                 && i < |b.cycles| && Budgets(b.cycles) - b.cycles[i].budget + budget <= Base(b.campaign))
            && after == (if error.None? then b.(cycles := b.cycles[i := b.cycles[i].(budget := budget)]) else b)
  {
    hide BudgetSum;
    var i := Find(b.cycles, id);
    if i < |b.cycles| {
      SumExcept(b.cycles, i, |b.cycles|);
    }
  }

  lemma PatchKeepsBook(b: Book, id: string, budget: real)
    requires BookOk(b)
    ensures BookOk(AfterPatch(b, id, budget).0)
  {
    var i := Find(b.cycles, id);
    var after := AfterPatch(b, id, budget).0;
    if after != b {
      var c := b.cycles[i].(budget := budget);
      SumExcept(b.cycles, i, |b.cycles|);
      SumUpdated(b.cycles, i, c, |b.cycles|);
    }
  }

  /** A budget patch keeps every key; it keeps the slots within their budgets exactly when the new budget
      covers the slots the cycle already has. */
  lemma PatchExactly(b: Book, id: string, budget: real)
    requires AllKeysOk(b)
    ensures AllKeysOk(AfterPatch(b, id, budget).0)
    ensures AllFit(b) && AfterPatch(b, id, budget).1.None? ==>
      var slots := b.cycles[Find(b.cycles, id)].slots;
      Find(b.cycles, id) < |b.cycles| &&
        (AllFit(AfterPatch(b, id, budget).0) <==> TierSum(slots, |slots|) as real <= budget)
    ensures AfterPatch(b, id, budget).1.Some? ==> AfterPatch(b, id, budget).0 == b
  {
    var i := Find(b.cycles, id);
    var after := AfterPatch(b, id, budget);
    if after.1.None? {
      assert after.0.cycles[i] == b.cycles[i].(budget := budget);
      assert Fits(after.0.cycles[i]) <==> TierSum(b.cycles[i].slots, |b.cycles[i].slots|) as real <= budget;
    }
  }

  // ---------------------------------------------------------------------------------- AddHuman

  lemma {:induction false} TierSumPrefix(slots: seq<Slot>, slot: Slot, k: nat)
    requires k <= |slots|
    ensures TierSum(slots + [slot], k) == TierSum(slots, k)
  {
    if k > 0 {
      TierSumPrefix(slots, slot, k - 1);
    }
  }

  lemma {:induction false} TierSumTaken(slots: seq<Slot>, p: nat, k: nat)
    requires p < |slots| && k <= |slots|
    ensures TierSum(slots[p := slots[p].(taken := true)], k) == TierSum(slots, k)
  {
    if k > 0 {
      TierSumTaken(slots, p, k - 1);
    }
  }

  /** The slots of the cycle that AddHuman touches: the sum grows only by a slot that fits the budget, and a
      new slot gets a key of its own. */
  lemma NewSlotFits(slots: seq<Slot>, budget: real, tier: int, slot: Slot)
    requires KeysOk(slots) && tier > 0 && Pick(slots, budget, tier).Created?
    requires slot == Pick(slots, budget, tier).slot.(taken := slot.taken)
    ensures KeysOk(slots + [slot]) && TierSum(slots + [slot], |slots| + 1) as real <= budget
  {
    TierSumPrefix(slots, slot, |slots|);
    var m := MaxIndex(slots, tier, |slots|);
    assert slot.slotIndex == m + 1 && slot.tierValue == tier;
    NewSlotStarts(slots, tier, slot);
  }

  lemma {:induction false} UnusedTier(slots: seq<Slot>, tier: int, k: nat)
    requires k <= |slots| && forall i :: 0 <= i < k ==> slots[i].tierValue != tier
    ensures MaxIndex(slots, tier, k) == -1
  {
    if k > 0 {
      UnusedTier(slots, tier, k - 1);
    }
  }

  lemma NewSlotStarts(slots: seq<Slot>, tier: int, slot: Slot)
    requires StartsAtZero(slots) && slot.tierValue == tier && slot.slotIndex == MaxIndex(slots, tier, |slots|) + 1
    ensures StartsAtZero(slots + [slot])
  {
    var next := slots + [slot];
    if forall i :: 0 <= i < |slots| ==> slots[i].tierValue != tier {
      UnusedTier(slots, tier, |slots|);
    }
    forall i | 0 <= i < |next| ensures HasZero(next, next[i].tierValue) {
      if k :| 0 <= k < |slots| && slots[k].tierValue == next[i].tierValue {
        assert HasZero(slots, slots[k].tierValue);
        var j :| 0 <= j < |slots| && slots[j].tierValue == slots[k].tierValue && slots[j].slotIndex == 0;
        assert next[j] == slots[j];
      } else {
        assert next[|slots|].slotIndex == 0;
      }
    }
  }

  lemma TakenKeepsKeys(slots: seq<Slot>, p: nat)
    requires KeysOk(slots) && p < |slots|
    ensures KeysOk(slots[p := slots[p].(taken := true)])
  {
    var next := slots[p := slots[p].(taken := true)];
    forall i | 0 <= i < |next| ensures HasZero(next, next[i].tierValue) {
      assert HasZero(slots, slots[i].tierValue);
      var j :| 0 <= j < |slots| && slots[j].tierValue == slots[i].tierValue && slots[j].slotIndex == 0;
      assert next[j].tierValue == slots[j].tierValue && next[j].slotIndex == 0;
    }
  }

  lemma AddHumanKeepsSlots(b: Book, id: string, effectiveTier: int, rest: Rest)
    requires AllKeysOk(b)
    ensures AllKeysOk(AfterAddHuman(b, id, effectiveTier, rest).0)
    ensures AllFit(b) ==> AllFit(AfterAddHuman(b, id, effectiveTier, rest).0)
  {
    hide KeysOk;
    var i := Find(b.cycles, id);
    var tier := NormalizeEffectiveTier(effectiveTier);
    if tier.Ok? && i < |b.cycles| {
      var slots, budget := b.cycles[i].slots, b.cycles[i].budget;
      match Pick(slots, budget, tier.value)
      case NoSlot =>
      case Existing(p) =>
        TakenKeepsKeys(slots, p);
        TierSumTaken(slots, p, |slots|);
      case Created(slot) =>
        NewSlotFits(slots, budget, tier.value, slot.(taken := !rest.FailsBeforeTaking?));
    }
  }

  lemma AddHumanKeepsBook(b: Book, id: string, effectiveTier: int, rest: Rest)
    requires BookOk(b)
    ensures BookOk(AfterAddHuman(b, id, effectiveTier, rest).0)
  {
    var i := Find(b.cycles, id);
    var after := AfterAddHuman(b, id, effectiveTier, rest).0;
    if after != b {
      assert after.cycles == b.cycles[i := after.cycles[i]];
      SumUpdated(b.cycles, i, after.cycles[i], |b.cycles|);
    }
  }

  // -------------------------------------------------------------------------------------- runs

  datatype Op =
    | Create(requested: string, generated: Uuid, budget: real, talents: seq<Talent>)
    | Patch(id: string, budget: real)
    | Add(id: string, effectiveTier: int, rest: Rest)

  function After(b: Book, op: Op): Book {
    match op
    case Create(requested, generated, budget, talents) => AfterCreate(b, requested, generated, budget, talents).0
    case Patch(id, budget) => AfterPatch(b, id, budget).0
    case Add(id, tier, rest) => AfterAddHuman(b, id, tier, rest).0
  }

  function Run(b: Book, ops: seq<Op>): Book
    decreases |ops|
  {
    if ops == [] then b else Run(After(b, ops[0]), ops[1..])
  }

  /** No accepted budget patch goes below what the cycle's slots already take. */
  predicate PatchesCover(b: Book, ops: seq<Op>)
    decreases |ops|
  {
    ops == [] ||
    ((ops[0].Patch? && AfterPatch(b, ops[0].id, ops[0].budget).1.None? ==>
       var i := Find(b.cycles, ops[0].id);
       i < |b.cycles| ==> TierSum(b.cycles[i].slots, |b.cycles[i].slots|) as real <= ops[0].budget) &&
     PatchesCover(After(b, ops[0]), ops[1..]))
  }

  lemma StepKeeps(b: Book, op: Op)
    requires BookOk(b) && AllKeysOk(b)
    ensures BookOk(After(b, op)) && AllKeysOk(After(b, op))
    ensures After(b, op).campaign == b.campaign
    ensures AllFit(b) && PatchesCover(b, [op]) ==> AllFit(After(b, op))
  {
    hide BookOk, AllKeysOk, AllFit, AfterCreate, AfterPatch, AfterAddHuman;
    match op
    case Create(requested, generated, budget, talents) =>
      CreateKeepsBook(b, requested, generated, budget, talents);
      CreateKeepsSlots(b, requested, generated, budget, talents);
      CampaignKept(b, op);
    case Patch(id, budget) =>
      PatchKeepsBook(b, id, budget);
      PatchExactly(b, id, budget);
      CampaignKept(b, op);
    case Add(id, tier, rest) =>
      AddHumanKeepsBook(b, id, tier, rest);
      AddHumanKeepsSlots(b, id, tier, rest);
      CampaignKept(b, op);
  }

  lemma CampaignKept(b: Book, op: Op)
    ensures After(b, op).campaign == b.campaign
  {
  }

  lemma {:induction false} RunKeeps(b: Book, ops: seq<Op>)
    requires BookOk(b) && AllKeysOk(b)
    ensures BookOk(Run(b, ops)) && AllKeysOk(Run(b, ops)) && Run(b, ops).campaign == b.campaign
    ensures AllFit(b) && PatchesCover(b, ops) ==> AllFit(Run(b, ops))
    decreases |ops|
  {
    hide BookOk, AllKeysOk, AllFit, After;
    if ops != [] {
      StepKeeps(b, ops[0]);
      RunKeeps(After(b, ops[0]), ops[1..]);
      assert PatchesCover(b, ops) ==> PatchesCover(b, [ops[0]]);
    }
  }

  function SlotTotal(cycles: seq<Cycle>, k: nat): int
    requires k <= |cycles|
  {
    if k == 0 then 0 else SlotTotal(cycles, k - 1) + TierSum(cycles[k - 1].slots, |cycles[k - 1].slots|)
  }

  lemma {:induction false} SlotTotalFits(cycles: seq<Cycle>, k: nat)
    requires k <= |cycles| && CyclesOk(cycles) && forall i :: 0 <= i < |cycles| ==> Fits(cycles[i])
    ensures SlotTotal(cycles, k) as real <= BudgetSum(cycles, "", k)
  {
    if k > 0 {
      SlotTotalFits(cycles, k - 1);
      assert Fits(cycles[k - 1]);
    }
  }

  /** From an empty campaign, whatever is created, patched and added: cycle budgets together stay within
      the campaign budget and slot keys stay unique. */
  lemma BudgetsFitOverEveryRun(campaign: Campaign, ops: seq<Op>)
    ensures var b := Run(Book(campaign, []), ops);
            && (b.cycles != [] ==> Budgets(b.cycles) <= Base(campaign))
            && AllKeysOk(b)
  {
    RunKeeps(Book(campaign, []), ops);
  }

  /** If moreover no patch undercuts slots already granted, every cycle's slots fit its budget, so all the
      slots of the campaign together fit the campaign budget. */
  lemma SlotsFitOverEveryRun(campaign: Campaign, ops: seq<Op>)
    requires PatchesCover(Book(campaign, []), ops)
    ensures var b := Run(Book(campaign, []), ops);
            && (forall i :: 0 <= i < |b.cycles| ==>
                 TierSum(b.cycles[i].slots, |b.cycles[i].slots|) as real <= b.cycles[i].budget)
            && (b.cycles != [] ==> SlotTotal(b.cycles, |b.cycles|) as real <= Base(campaign))
  {
    RunKeeps(Book(campaign, []), ops);
    var b := Run(Book(campaign, []), ops);
    assert forall i :: 0 <= i < |b.cycles| ==> Fits(b.cycles[i]);
    SlotTotalFits(b.cycles, |b.cycles|);
  }

  // ---------------------------------------------------------------------- rebuilding a slot set

  ghost predicate ShareTier(a: seq<Slot>, b: seq<Slot>) {
    exists i, j :: 0 <= i < |a| && 0 <= j < |b| && a[i].tierValue == b[j].tierValue
  }

  lemma AppendedKeys(a: seq<Slot>, b: seq<Slot>)
    requires KeysUnique(a) && StartsAtZero(a) && KeysUnique(b) && StartsAtZero(b)
    ensures KeysUnique(a + b) <==> !ShareTier(a, b)
  {
    var both := a + b;
    if ShareTier(a, b) {
      var i, j :| 0 <= i < |a| && 0 <= j < |b| && a[i].tierValue == b[j].tierValue;
      assert HasZero(a, a[i].tierValue) && HasZero(b, b[j].tierValue);
      var k :| 0 <= k < |a| && a[k].tierValue == a[i].tierValue && a[k].slotIndex == 0;
      var l :| 0 <= l < |b| && b[l].tierValue == a[i].tierValue && b[l].slotIndex == 0;
      assert both[k] == a[k] && both[|a| + l] == b[l];
    } else {
      forall i, j | 0 <= i < j < |both|
        ensures both[i].tierValue != both[j].tierValue || both[i].slotIndex != both[j].slotIndex
      {
        if j < |a| {
          assert both[i] == a[i] && both[j] == a[j];
        } else if i >= |a| {
          assert both[i] == b[i - |a|] && both[j] == b[j - |a|];
        } else {
          assert both[i] == a[i] && both[j] == b[j - |a|];
        }
      }
    }
  }

  /** The solver may append a freshly built slot set to what a cycle already has.  Over every run of the ledger
      that breaks the unique key exactly when the new set shares a tier with the old slots. */
  lemma RebuiltSlotsCollide(campaign: Campaign, ops: seq<Op>, i: nat, talents: seq<Talent>)
    requires var b := Run(Book(campaign, []), ops); i < |b.cycles| && Build(b.cycles[i].budget, campaign, talents).Ok?
    ensures var c := Run(Book(campaign, []), ops).cycles[i];
            var rebuilt := Build(c.budget, campaign, talents).value;
            !KeysUnique(c.slots + rebuilt) <==> ShareTier(c.slots, rebuilt)
  {
    hide Run, Build, KeysUnique, StartsAtZero, ShareTier, BookOk;
    EmptyBook(campaign);
    RunKeeps(Book(campaign, []), ops);
    var c := Run(Book(campaign, []), ops).cycles[i];
    assert KeysOk(c.slots);
    var _ := AllocationFits(c.budget, campaign, talents);
    AppendedKeys(c.slots, Build(c.budget, campaign, talents).value);
  }

  lemma EmptyBook(campaign: Campaign)
    ensures BookOk(Book(campaign, [])) && AllKeysOk(Book(campaign, []))
  {
  }
}
