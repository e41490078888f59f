/** The campaign ledger: cycle budgets (internal/src/campaign/service.go, validation.go) and the slots that
    manual assignments take from them (internal/src/assignment/service.go). */
module Ledger {
  import opened Numbers
  import opened Results
  import opened Slots
  import opened SlotLaws

  datatype Cycle = Cycle(id: string, budget: real, closed: bool, slots: seq<Slot>)

  datatype Book = Book(campaign: Campaign, cycles: seq<Cycle>)

  const MAX_STORED_MONEY := 999_999_999_999.99

  /** A generated identifier. */
  type Uuid = s: string | s != "" witness "u"

  // ------------------------------------------------------------------------- budget validation

  /** What the cycles may share: the total budget, or the stored remainder when no total is set. */
  function Base(campaign: Campaign): real {
    if campaign.totalBudget <= 0.0 then campaign.remainingBudget else campaign.totalBudget
  }

  /** Budgets of the first k cycles, leaving out the one called `except`. */
  function BudgetSum(cycles: seq<Cycle>, except: string, k: nat): real
    requires k <= |cycles|
  {
    if k == 0 then 0.0
    else BudgetSum(cycles, except, k - 1) + if cycles[k - 1].id != except then cycles[k - 1].budget else 0.0
  }

  function Remaining(campaign: Campaign, cycles: seq<Cycle>, except: string): real {
    Max(Base(campaign) - BudgetSum(cycles, except, |cycles|), 0.0)
  }

  method RemainingCycleBudget(campaign: Campaign, cycles: seq<Cycle>, except: string) returns (total: real)
    ensures total == Remaining(campaign, cycles, except)
  {
    total := campaign.totalBudget;
    if total <= 0.0 {
      total := campaign.remainingBudget;
    }
    for i := 0 to |cycles|
      invariant total == Base(campaign) - BudgetSum(cycles, except, i)
    {
      if cycles[i].id != except {
        total := total - cycles[i].budget;
      }
    }
    if total < 0.0 {
      total := 0.0;
    }
  }

  function ValidateCycleBudget(campaign: Campaign, remaining: real, budget: real): Option<string> {
    if budget <= 0.0 then Some("cycle_budget_required")
    else if budget > MAX_STORED_MONEY then Some("cycle_budget_exceeds_supported_range")
    else if budget < campaign.targetCpa then Some("cycle_budget_below_target_cpa")
    else if budget < campaign.maxCpa then Some("cycle_budget_below_max_cpa")
    else if budget > remaining then Some("cycle_budget_exceeds_remaining_campaign_budget")
    else None
  }

  // ------------------------------------------------------------------------------ slot picking

  function NormalizeEffectiveTier(tier: int): (r: Result<int>)
    ensures r.Ok? ==> IsTier(r.value) && 5000 <= r.value <= 55000 && r.value <= tier
    ensures r.Ok? ==> forall y :: IsTier(y) && y <= tier && y <= 55000 ==> y <= r.value
    ensures r.Ok? <==> 5000 <= tier <= 0x7FFF_FFFF
  {
    if tier <= 0 || tier > MAX_INT32 then Err("tier_value_exceeds_supported_range")
    else
      var rounded := DownTo(tier, INCREMENT);
      assert forall y :: IsTier(y) && y <= tier ==> y <= rounded by {
        forall y | IsTier(y) && y <= tier ensures y <= rounded { DownToIsGreatest(tier, INCREMENT, y); }
      }
      if rounded < Config.DEFAULT.minTier then Err("tier_value_exceeds_supported_range")
      else Ok(if rounded > Config.DEFAULT.maxTierCap then Config.DEFAULT.maxTierCap else rounded)
  }

  datatype Choice = Existing(position: nat) | Created(slot: Slot) | NoSlot

  /** The largest index used by a tier among the first k slots, or -1. */
  function MaxIndex(slots: seq<Slot>, tier: int, k: nat): (m: int)
    requires k <= |slots|
    ensures m >= -1
    ensures forall i :: 0 <= i < k && slots[i].tierValue == tier ==> slots[i].slotIndex <= m
    ensures m != -1 ==> exists i :: 0 <= i < k && slots[i].tierValue == tier && slots[i].slotIndex == m
  {
    if k == 0 then -1
    else
      var m := MaxIndex(slots, tier, k - 1);
      if slots[k - 1].tierValue == tier && slots[k - 1].slotIndex > m then slots[k - 1].slotIndex else m
  }

  /** The first free slot among the first k, of the given tier or of any; |slots| if there is none. */
  function FirstFree(slots: seq<Slot>, tier: Option<int>, k: nat): (i: nat)
    requires k <= |slots|
    ensures i < k || i == |slots|
    ensures i < k ==> !slots[i].taken && (tier.Some? ==> slots[i].tierValue == tier.value)
    ensures forall j :: 0 <= j < k && j < i ==> slots[j].taken || (tier.Some? && slots[j].tierValue != tier.value)
  {
    if k == 0 then |slots|
    else
      var i := FirstFree(slots, tier, k - 1);
      if i < |slots| then i
      else if !slots[k - 1].taken && (tier.Some? ==> slots[k - 1].tierValue == tier.value) then k - 1
      else |slots|
  }

  /** Slot i is free, and of the given tier if one is given. */
  predicate IsFree(slots: seq<Slot>, tier: Option<int>, i: nat)
    requires i < |slots|
  {
    !slots[i].taken && (tier.Some? ==> slots[i].tierValue == tier.value)
  }

  /** The first free slot of the tier; else a new one, with the tier's next index, if the budget allows; else the
      first free slot; and nothing only if none of these exists. */
  function Pick(slots: seq<Slot>, budget: real, tier: int): (c: Choice)
    ensures c.Existing? ==>
              && c.position < |slots| && !slots[c.position].taken
              && (slots[c.position].tierValue == tier ==>
                   forall i: nat :: i < c.position ==> !IsFree(slots, Some(tier), i))
              && (slots[c.position].tierValue != tier ==> forall i: nat :: i < c.position ==> !IsFree(slots, None, i))
    ensures (c.Existing? && slots[c.position].tierValue != tier) || c.NoSlot? ==>
      (TierSum(slots, |slots|) + tier) as real > budget
    ensures c.Created? || (c.Existing? && slots[c.position].tierValue != tier) || c.NoSlot? ==>
      forall i :: 0 <= i < |slots| ==> !IsFree(slots, Some(tier), i)
    ensures c.Created? ==>
              && c.slot.tierValue == tier && !c.slot.taken && (TierSum(slots, |slots|) + tier) as real <= budget
              && (forall i :: 0 <= i < |slots| && slots[i].tierValue == tier ==> slots[i].slotIndex < c.slot.slotIndex)
              && (c.slot.slotIndex != 0 ==> exists i ::
                   0 <= i < |slots| && slots[i].tierValue == tier && slots[i].slotIndex == c.slot.slotIndex - 1)
    ensures c.NoSlot? ==> forall i :: 0 <= i < |slots| ==> slots[i].taken
  {
    var n := |slots|;
    var exact, any := FirstFree(slots, Some(tier), n), FirstFree(slots, None, n);
    if exact < n then Existing(exact)
    else if (TierSum(slots, n) + tier) as real <= budget then Created(Slot(tier, MaxIndex(slots, tier, n) + 1, false))
    else if any < n then Existing(any)
    else NoSlot
  }

  method PickOrCreateSlot(slots: seq<Slot>, budget: real, tier: int) returns (choice: Choice)
    ensures choice == Pick(slots, budget, tier)
  {
    var n := |slots|;
    var used, maxIndexForTier := 0, -1;
    var exact, fallback := n, n;
    for i := 0 to n
      invariant used == TierSum(slots, i) && maxIndexForTier == MaxIndex(slots, tier, i)
      invariant exact == FirstFree(slots, Some(tier), i)
      invariant exact == n ==> fallback == FirstFree(slots, None, i)
    {
      var sl := slots[i];
      used := used + sl.tierValue;
      if sl.tierValue == tier && sl.slotIndex > maxIndexForTier {
        maxIndexForTier := sl.slotIndex;
      }
      if sl.taken {
        continue;
      }
      if sl.tierValue == tier && exact == n {
        exact := i;
        continue;
      }
      if fallback == n {
        fallback := i;
      }
    }
    if exact != n {
      return Existing(exact);
    }
    if (used + tier) as real <= budget {
      return Created(Slot(tier, maxIndexForTier + 1, false));
    }
    if fallback != n {
      return Existing(fallback);
    }
    return NoSlot;
  }

  // -------------------------------------------------------------------------------- operations

  function Find(cycles: seq<Cycle>, id: string): (i: nat)
    ensures i <= |cycles|
    ensures i < |cycles| ==> cycles[i].id == id
    ensures i == |cycles| ==> forall j :: 0 <= j < |cycles| ==> cycles[j].id != id
  {
    if cycles == [] then 0 else if cycles[0].id == id then 0 else 1 + Find(cycles[1..], id)
  }

  /** CreateCycle: a missing id is generated, a used one is refused by the table.  The cycle is stored before its
      slots are built, so it stays when building them fails. */
  function AfterCreate(b: Book, requested: string, generated: Uuid, budget: real, talents: seq<Talent>)
    : (Book, Option<string>)
  {
    var id := if requested == "" then generated else requested;
    var invalid := ValidateCycleBudget(b.campaign, Remaining(b.campaign, b.cycles, ""), budget);
    if invalid.Some? then (b, invalid)
    else
      var unfunded := ValidateCycle(budget, b.campaign);
      if unfunded.Some? then (b, unfunded)
      else if Find(b.cycles, id) < |b.cycles| then (b, Some("conflict"))
      else
        match Build(budget, b.campaign, talents)
        case Err(e) => (b.(cycles := b.cycles + [Cycle(id, budget, false, [])]), Some(e))
        case Ok(slots) => (b.(cycles := b.cycles + [Cycle(id, budget, false, slots)]), None)
  }

  /** The budget part of PatchCycle. */
  function AfterPatch(b: Book, id: string, budget: real): (Book, Option<string>) {
    var i := Find(b.cycles, id);
    if i == |b.cycles| then (b, Some("not_found"))
    else
      var invalid := ValidateCycleBudget(b.campaign, Remaining(b.campaign, b.cycles, id), budget);
      if invalid.Some? then (b, invalid)
      else (b.(cycles := b.cycles[i := b.cycles[i].(budget := budget)]), None)
  }

  function WithSlots(b: Book, i: nat, slots: seq<Slot>): Book
    requires i < |b.cycles|
  {
    b.(cycles := b.cycles[i := b.cycles[i].(slots := slots)])
  }

  /** How the rest of AddHuman goes once a slot is chosen: scoring, storing the assignment, taking the slot,
      and creating its tracking link are separate writes. */
  datatype Rest = Completes | FailsBeforeTaking | FailsAfterTaking

  function Outcome(rest: Rest): Option<string> { if rest.Completes? then None else Some("later") }

  /** The slot steps of AddHuman; what was written stays when a later step fails. */
  function AfterAddHuman(b: Book, id: string, effectiveTier: int, rest: Rest): (Book, Option<string>) {
    var tier := NormalizeEffectiveTier(effectiveTier);
    var i := Find(b.cycles, id);
    if tier.Err? then (b, Some(tier.error))
    else if i == |b.cycles| then (b, Some("not_found"))
    else if b.cycles[i].closed then (b, Some("cycle_closed"))
    else
      var slots, taken := b.cycles[i].slots, !rest.FailsBeforeTaking?;
      match Pick(slots, b.cycles[i].budget, tier.value)
      case NoSlot => (b, Some("no_budget_slot"))
      case Existing(p) => (if taken then WithSlots(b, i, slots[p := slots[p].(taken := true)]) else b, Outcome(rest))
      case Created(slot) => (WithSlots(b, i, slots + [slot.(taken := taken)]), Outcome(rest))
  }

  class CampaignStore {
    const campaign: Campaign
    var cycles: seq<Cycle>

    constructor (campaign: Campaign)
      ensures State() == Book(campaign, [])
    {
      this.campaign, cycles := campaign, [];
    }

    function State(): Book
      reads this
    {
      Book(campaign, cycles)
    }

    method CreateCycle(requested: string, generated: Uuid, budget: real, talents: seq<Talent>)
      returns (error: Option<string>)
      modifies this
      ensures (State(), error) == AfterCreate(old(State()), requested, generated, budget, talents)
    {
      var remaining := RemainingCycleBudget(campaign, cycles, "");
      error := ValidateCycleBudget(campaign, remaining, budget);
      if error.Some? {
        return;
      }
      var id := requested;
      if id == "" {
        id := generated;
      }
      error := ValidateCycle(budget, campaign);
      if error.Some? {
        return;
      }
      if Find(cycles, id) < |cycles| {
        return Some("conflict");
      }
      cycles := cycles + [Cycle(id, budget, false, [])];
      var built := BuildBudgetSlots(budget, campaign, talents);
      if built.Err? {
        return Some(built.error);
      }
      cycles := cycles[|cycles| - 1 := cycles[|cycles| - 1].(slots := built.value)];
      assert cycles == old(cycles) + [Cycle(id, budget, false, built.value)];
      error := None;
    }

    method PatchCycle(id: string, budget: real) returns (error: Option<string>)
      modifies this
      ensures (State(), error) == AfterPatch(old(State()), id, budget)
    {
      var i := Find(cycles, id);
      if i == |cycles| {
        return Some("not_found");
      }
      var remaining := RemainingCycleBudget(campaign, cycles, id);
      error := ValidateCycleBudget(campaign, remaining, budget);
      if error.Some? {
        return;
      }
      cycles := cycles[i := cycles[i].(budget := budget)];
    }

    method AddHuman(id: string, effectiveTier: int, rest: Rest) returns (error: Option<string>)
      modifies this
      ensures (State(), error) == AfterAddHuman(old(State()), id, effectiveTier, rest)
    {
      var tier := NormalizeEffectiveTier(effectiveTier);
      if tier.Err? {
        return Some(tier.error);
      }
      var i := Find(cycles, id);
      if i == |cycles| {
        return Some("not_found");
      }
      if cycles[i].closed {
        return Some("cycle_closed");
      }
      var slots := cycles[i].slots;
      var choice := PickOrCreateSlot(slots, cycles[i].budget, tier.value);
      var position := |slots|;
      match choice {
        case NoSlot => return Some("no_budget_slot");
        case Existing(p) => position := p;
        case Created(slot) =>
          slots := slots + [slot];
          cycles := cycles[i := cycles[i].(slots := slots)];
      }
      if rest.FailsBeforeTaking? {
        return Outcome(rest);
      }
      ghost var before := old(cycles[i].slots);
      assert choice.Created? ==>
          slots[position := slots[position].(taken := true)] == before + [choice.slot.(taken := true)];
      slots := slots[position := slots[position].(taken := true)];
      cycles := cycles[i := cycles[i].(slots := slots)];
      assert cycles == old(cycles)[i := old(cycles[i]).(slots := slots)];
      error := Outcome(rest);
    }
  }
}
