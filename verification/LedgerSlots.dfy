/** Who holds which slot: what AddHuman takes, and that over any run no slot is given to two talents. */
module LedgerSlots {
  import opened Results
  import opened Slots
  import opened SlotLaws
  import opened Ledger
  import opened LedgerLaws

  // ------------------------------------------------------------------------------ taking one slot

  /** Between two books, slot p of cycle i is taken; it was free, or not there, before. */
  ghost predicate TakesPlace(b: Book, after: Book, i: nat, p: nat) {
    && i < |b.cycles| && i < |after.cycles| && p < |after.cycles[i].slots| && after.cycles[i].slots[p].taken
    && (p < |b.cycles[i].slots| ==> !b.cycles[i].slots[p].taken)
  }

  /** Nothing else changes: slot p of cycle i keeps its tier and index or is added at the end. */
  ghost predicate OnlyPlace(b: Book, after: Book, i: nat, p: nat)
    requires TakesPlace(b, after, i, p)
  {
    var before, next := b.cycles[i].slots, after.cycles[i].slots;
    && after.campaign == b.campaign && after.cycles == b.cycles[i := b.cycles[i].(slots := next)]
    && (if p < |before| then next == before[p := before[p].(taken := true)] else next == before + [next[p]])
  }

  /** An Add that got as far as taking a slot, judged by what the caller sees. */
  predicate TookOne(b: Book, op: Op) {
    && op.Add? && !op.rest.FailsBeforeTaking?
    && AfterAddHuman(b, op.id, op.effectiveTier, op.rest).1 == (if op.rest.Completes? then None else Some("later"))
  }

  /** The cycle can give out a slot: there is a free one, or a new one of the tier fits the budget. */
  predicate HasRoom(c: Cycle, tier: int) {
    (exists p :: 0 <= p < |c.slots| && !c.slots[p].taken) || (TierSum(c.slots, |c.slots|) + tier) as real <= c.budget
  }

  /** When a call takes a slot: the tier is in the stored range and at least the minimum, the cycle exists and is
      open, it has room, and nothing fails before the slot is taken. */
  lemma WhenOneIsTaken(b: Book, op: Op)
    requires op.Add?
    ensures TookOne(b, op) <==>
      var i := Find(b.cycles, op.id);
      && !op.rest.FailsBeforeTaking? && NormalizeEffectiveTier(op.effectiveTier).Ok?
      && i < |b.cycles| && !b.cycles[i].closed && HasRoom(b.cycles[i], NormalizeEffectiveTier(op.effectiveTier).value)
  {
    hide TierSum;
    var i, tier := Find(b.cycles, op.id), NormalizeEffectiveTier(op.effectiveTier);
    if tier.Ok? && i < |b.cycles| {
      var c := Pick(b.cycles[i].slots, b.cycles[i].budget, tier.value);
      assert c.Existing? ==> !b.cycles[i].slots[c.position].taken;
    }
  }

  /** Such a call takes exactly one slot of its cycle, which was free or absent before, and changes nothing else.
      The slot is of the normalized tier whenever one of that tier is free or a new one fits; a new slot is made
      only when none of that tier is free. */
  lemma OneIsTaken(b: Book, op: Op) returns (i: nat, p: nat)
    requires TookOne(b, op)
    ensures TakesPlace(b, After(b, op), i, p) && OnlyPlace(b, After(b, op), i, p) && b.cycles[i].id == op.id
    ensures NormalizeEffectiveTier(op.effectiveTier).Ok?
    ensures var c, tier := b.cycles[i], NormalizeEffectiveTier(op.effectiveTier).value;
            var free := exists q :: 0 <= q < |c.slots| && IsFree(c.slots, Some(tier), q);
            && (free || (TierSum(c.slots, |c.slots|) + tier) as real <= c.budget ==>
                  After(b, op).cycles[i].slots[p].tierValue == tier)
            && (free ==> p < |c.slots|)
  {
    hide TierSum;
    i := Find(b.cycles, op.id);
    var slots, tier := b.cycles[i].slots, NormalizeEffectiveTier(op.effectiveTier).value;
    var c := Pick(slots, b.cycles[i].budget, tier);
    p := if c.Existing? then c.position else |slots|;
  }

  /** A call that takes none changes nothing, except that a slot made for it stays, free, when it fails before
      taking it. */
  lemma NoneIsTaken(b: Book, op: Op)
    requires op.Add? && !TookOne(b, op)
    ensures AfterAddHuman(b, op.id, op.effectiveTier, op.rest).1.Some?
    ensures After(b, op) == b ||
            (&& op.rest.FailsBeforeTaking?
             && exists i: nat, slot: Slot ::
                  i < |b.cycles| && !slot.taken && After(b, op) == WithSlots(b, i, b.cycles[i].slots + [slot]))
  {
    hide Pick, TierSum;
    var i, tier := Find(b.cycles, op.id), NormalizeEffectiveTier(op.effectiveTier);
    if tier.Ok? && i < |b.cycles| && !b.cycles[i].closed {
      var c := Pick(b.cycles[i].slots, b.cycles[i].budget, tier.value);
      if c.Created? {
        assert After(b, op) == WithSlots(b, i, b.cycles[i].slots + [c.slot.(taken := false)]);
      }
    }
  }

  // ----------------------------------------------------------------------------- counting slots

  function TakenIn(slots: seq<Slot>, k: nat): nat
    requires k <= |slots|
  {
    if k == 0 then 0 else TakenIn(slots, k - 1) + if slots[k - 1].taken then 1 else 0
  }

  function TakenTotal(cycles: seq<Cycle>, k: nat): nat
    requires k <= |cycles|
  {
    if k == 0 then 0 else TakenTotal(cycles, k - 1) + TakenIn(cycles[k - 1].slots, |cycles[k - 1].slots|)
  }

  function Taken(b: Book): nat { TakenTotal(b.cycles, |b.cycles|) }

  lemma {:induction false} TakenInPrefix(slots: seq<Slot>, slot: Slot, k: nat)
    requires k <= |slots|
    ensures TakenIn(slots + [slot], k) == TakenIn(slots, k)
  {
    if k > 0 {
      TakenInPrefix(slots, slot, k - 1);
    }
  }

  lemma {:induction false} TakenInUpdated(slots: seq<Slot>, p: nat, k: nat)
    requires p < |slots| && !slots[p].taken && k <= |slots|
    ensures TakenIn(slots[p := slots[p].(taken := true)], k) == TakenIn(slots, k) + if p < k then 1 else 0
  {
    if k > 0 {
      TakenInUpdated(slots, p, k - 1);
    }
  }

  lemma {:induction false} TakenTotalUpdated(cycles: seq<Cycle>, i: nat, c: Cycle, k: nat)
    requires i < |cycles| && k <= |cycles|
    ensures TakenTotal(cycles[i := c], k) + (if i < k then TakenIn(cycles[i].slots, |cycles[i].slots|) else 0) ==
            TakenTotal(cycles, k) + (if i < k then TakenIn(c.slots, |c.slots|) else 0)
  {
    hide TakenIn;
    if k > 0 {
      TakenTotalUpdated(cycles, i, c, k - 1);
    }
  }

  lemma {:induction false} TakenTotalPrefix(cycles: seq<Cycle>, c: Cycle, k: nat)
    requires k <= |cycles|
    ensures TakenTotal(cycles + [c], k) == TakenTotal(cycles, k)
  {
    hide TakenIn;
    if k > 0 {
      TakenTotalPrefix(cycles, c, k - 1);
    }
  }

  lemma {:induction false} NoneTaken(slots: seq<Slot>, k: nat)
    requires k <= |slots| && forall i :: 0 <= i < |slots| ==> !slots[i].taken
    ensures TakenIn(slots, k) == 0
  {
    if k > 0 {
      NoneTaken(slots, k - 1);
    }
  }

  // -------------------------------------------------------------------------------- every step

  /** Cycles and slots stay where they are; a taken slot stays taken. */
  ghost predicate Grows(b: Book, after: Book) {
    && |b.cycles| <= |after.cycles|
    && forall i :: 0 <= i < |b.cycles| ==> CycleGrows(b.cycles[i], after.cycles[i])
  }

  ghost predicate CycleGrows(c: Cycle, after: Cycle) {
    && after.id == c.id && |c.slots| <= |after.slots|
    && forall p :: 0 <= p < |c.slots| ==>
         && after.slots[p].tierValue == c.slots[p].tierValue && after.slots[p].slotIndex == c.slots[p].slotIndex
         && (c.slots[p].taken ==> after.slots[p].taken)
  }

  lemma GrowsTransitive(a: Book, b: Book, c: Book)
    requires Grows(a, b) && Grows(b, c)
    ensures Grows(a, c)
  {
    forall i | 0 <= i < |a.cycles| ensures CycleGrows(a.cycles[i], c.cycles[i]) {
      assert CycleGrows(a.cycles[i], b.cycles[i]) && CycleGrows(b.cycles[i], c.cycles[i]);
    }
  }

  lemma NewSlotsFree(budget: real, campaign: Campaign, talents: seq<Talent>)
    ensures var s := NewSlots(budget, campaign, talents); forall i :: 0 <= i < |s| ==> !s[i].taken
  {
    hide Build;
    if Build(budget, campaign, talents).Ok? {
      var _ := AllocationFits(budget, campaign, talents);
    }
  }

  lemma CreateCounts(b: Book, requested: string, generated: Uuid, budget: real, talents: seq<Talent>)
    ensures var after := AfterCreate(b, requested, generated, budget, talents).0;
            Grows(b, after) && Taken(after) == Taken(b)
  {
    hide AfterCreate, NewSlots, TakenIn;
    CreateShape(b, requested, generated, budget, talents);
    var after := AfterCreate(b, requested, generated, budget, talents).0;
    if after != b {
      var s := NewSlots(budget, b.campaign, talents);
      var c := Cycle(NewId(requested, generated), budget, false, s);
      NewSlotsFree(budget, b.campaign, talents);
      NoneTaken(s, |s|);
      TakenTotalPrefix(b.cycles, c, |b.cycles|);
    }
  }

  lemma PatchCounts(b: Book, id: string, budget: real)
    ensures var after := AfterPatch(b, id, budget).0; Grows(b, after) && Taken(after) == Taken(b)
  {
    hide TakenIn;
    var i, after := Find(b.cycles, id), AfterPatch(b, id, budget).0;
    if i < |b.cycles| {
      TakenTotalUpdated(b.cycles, i, b.cycles[i].(budget := budget), |b.cycles|);
    }
  }

  lemma SlotsReplaced(b: Book, i: nat, slots: seq<Slot>)
    requires i < |b.cycles|
    ensures Taken(WithSlots(b, i, slots)) + TakenIn(b.cycles[i].slots, |b.cycles[i].slots|) ==
            Taken(b) + TakenIn(slots, |slots|)
  {
    hide TakenIn;
    TakenTotalUpdated(b.cycles, i, b.cycles[i].(slots := slots), |b.cycles|);
  }

  lemma AddCounts(b: Book, op: Op)
    requires op.Add?
    ensures Grows(b, After(b, op)) && Taken(After(b, op)) == Taken(b) + if TookOne(b, op) then 1 else 0
  {
    hide TierSum, Pick, Taken;
    var i, tier := Find(b.cycles, op.id), NormalizeEffectiveTier(op.effectiveTier);
    if tier.Ok? && i < |b.cycles| && !b.cycles[i].closed {
      var slots, taken := b.cycles[i].slots, !op.rest.FailsBeforeTaking?;
      match Pick(slots, b.cycles[i].budget, tier.value)
      case NoSlot =>
      case Existing(p) =>
        TakenInUpdated(slots, p, |slots|);
        SlotsReplaced(b, i, slots[p := slots[p].(taken := true)]);
      case Created(slot) =>
        TakenInPrefix(slots, slot.(taken := taken), |slots|);
        SlotsReplaced(b, i, slots + [slot.(taken := taken)]);
    }
  }

  lemma StepCounts(b: Book, op: Op)
    ensures Grows(b, After(b, op)) && Taken(After(b, op)) == Taken(b) + if TookOne(b, op) then 1 else 0
  {
    hide AfterCreate, AfterPatch, AfterAddHuman, Taken, Grows;
    match op
    case Create(requested, generated, budget, talents) => CreateCounts(b, requested, generated, budget, talents);
    case Patch(id, budget) => PatchCounts(b, id, budget);
    case Add(_, _, _) => AddCounts(b, op);
  }

  // --------------------------------------------------------------------------------- every run

  /** How many calls of a run took a slot. */
  function Takings(b: Book, ops: seq<Op>): nat
    decreases |ops|
  {
    if ops == [] then 0 else (if TookOne(b, ops[0]) then 1 else 0) + Takings(After(b, ops[0]), ops[1..])
  }

  /** Over every run a taken slot stays taken, and the taken slots are as many as the calls that took one. */
  lemma {:induction false} RunCounts(b: Book, ops: seq<Op>)
    ensures Grows(b, Run(b, ops)) && Taken(Run(b, ops)) == Taken(b) + Takings(b, ops)
    decreases |ops|
  {
    hide Taken, After, TookOne;
    if ops == [] {
      GrowsItself(b);
    } else {
      StepCounts(b, ops[0]);
      RunCounts(After(b, ops[0]), ops[1..]);
      GrowsTransitive(b, After(b, ops[0]), Run(b, ops));
    }
  }

  lemma GrowsItself(b: Book)
    ensures Grows(b, b)
  {
  }

  lemma {:induction false} RunSplits(b: Book, ops: seq<Op>, k: nat)
    requires k <= |ops|
    ensures Run(b, ops) == Run(Run(b, ops[..k]), ops[k..])
    decreases |ops|
  {
    hide After;
    if k == 0 {
      assert ops[..0] == [] && ops[0..] == ops;
    } else {
      RunSplits(After(b, ops[0]), ops[1..], k - 1);
      assert ops[..k][1..] == ops[1..][..k - 1] && ops[..k][0] == ops[0] && ops[1..][k - 1..] == ops[k..];
    }
  }

  /** So no slot is given twice: what one call of a run takes, no later call of it takes again. */
  lemma NoSlotIsTakenTwice(b: Book, ops: seq<Op>, m: nat, n: nat, i: nat, p: nat)
    requires m < n < |ops| && TakesPlace(Run(b, ops[..m]), Run(b, ops[..m + 1]), i, p)
    ensures !TakesPlace(Run(b, ops[..n]), Run(b, ops[..n + 1]), i, p)
  {
    hide Run;
    var first := ops[..n];
    RunSplits(b, first, m + 1);
    assert first[..m + 1] == ops[..m + 1];
    RunCounts(Run(b, ops[..m + 1]), first[m + 1..]);
    assert CycleGrows(Run(b, ops[..m + 1]).cycles[i], Run(b, first).cycles[i]);
  }
}
