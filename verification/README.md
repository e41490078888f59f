# Verification of the allocation and payout core

A Dafny model of the number-crunching core of the talent backend, and of the two small stateful
protocols around it, with proofs of what they promise. `dafny verify dfyconfig.toml` checks it all.

Numbers that Go keeps in `float64` are exact reals here; money is rounded to whole kobo where the code
rounds it. Go's truncating division, the 32-bit tier limit and `MaxFloat64` as the Forbidden cost are
written out.

## The assignment solver

`Hungarian` states the shortest-augmenting-path solver as a state machine whose step is one round of the
search, one link of the walk back, or the start of a row. `HungarianSafety`, `HungarianOptimality` and
`HungarianRuns` prove what every step and every run keeps, `HungarianSolver` proves the loops on arrays
against the machine, and `AssignmentSolver` wraps them as `Solve` does, from tier qualification
(`Qualifier`) and match scores (`MatchScore`) to assignments.

What a pair costs is proved from the input (`PairPrice`), and every assignment names a pair at that
price.

Termination with a permutation holds for every square matrix of non-negative entries, although a search
that is stuck among forbidden entries follows stale back-pointers. The cost of the result is another
matter, and this is what is proved of it:

- No entry reaches the sentinel (half of `MaxFloat64`): cheapest, with the final potentials as certificate.
- Forbidden entries, but some permutation avoids them (`HungarianPlacement`): cheapest as well. So with
  equal numbers `Solve` places everyone if and only if that is possible, at the least total.
- More talents than slots (`HungarianOverflow`): if the talents listed first can fill the slots they do, as
  cheaply as they can among themselves, and nobody else gets one, however cheap.
- One slot (`HungarianOneColumn`): it goes to the first talent or to nobody. An ineligible first talent
  blocks it for all the others (`SolverLaws`).
- Spare slots (`HungarianSpare`, `HungarianContested`): once the talents are in, they sit at the least total
  (`HungarianPlacement`), but the padding rows then follow back-pointers that the searches left behind.
  Talents whose first cheapest slots differ keep them. For two talents, eligible or not, the exact
  condition is given (`SolverLaws`), with an input on which `Solve` costs 8 days instead of 3.

## The audit chain

`AuditChain` interleaves any number of recorders that read the tip without a lock, hash an entry against
it and append it only if the tip has not moved. `AuditRecorder` has the store and the retry loop as
classes. The hash and the signature are parameters; that a hexadecimal hash is neither empty nor 64
zeros, and where needed that it has no collisions, are assumptions of the lemmas.

## The cycle payout

`Payout` has both pipelines, commission, pool scaling and reconciliation; `PayoutLaws` proves bounds,
conservation and rounding errors for whole counts and whole-kobo amounts, `PayoutTotals` that every
total follows from the records and that forfeited budgets come back without touching anybody else. Some
promises one might expect fail: a pool of 0 is not scaled to, so everybody is paid in full
(`PoolIsConserved`); with several destinations the traffic cap branch can pay more than the conversions
are worth (`CapBranchCanOverpay`, and exactly when in `OverpaysExactly`), and rounding can overdraw a
scaled pool by up to half a kobo per talent (`RoundingOverdrawsThePool`).

## Budget slots and the campaign ledger

`Slots` and `SlotLaws` cover the slot allocator, `Ledger` and `LedgerLaws` the store that `CreateCycle`,
`PatchCycle` and `AddHuman` work on, and what every run of the three keeps; `LedgerSlots` adds who holds
which slot, and that no slot is taken twice. A budget patch below the slots already granted is accepted
by the code; `PatchExactly` states that slots stay within budgets exactly when it does not happen.

## Waterfall, learning and tuning

`Waterfall` shares a budget among tiers; without demand the code reports a remainder of 0, so
conservation holds exactly when there is demand or no budget. `Learning` and `Stec` are the long-term
and short-term estimates, shown to be the same discounted average. A single day of output is always
classified as a collapse (`SingleDayCollapses`); `StecReadings` has the other readings off the raw
outputs. `Config` and `CapSuggest` are the cycle configuration and the suggestion pipeline, whose output
always validates; `CapHistory` leads from the last ten cycles to the next configuration. A reported
decrease of the budget share raises a share below 0.05 (`WasteSteersTheShare`).

`Numbers`, `Permutations`, `Money` and `Results` hold what the others share.

## Model

| member | source | states |
|---|---|---|
| HungarianSolver.HungarianSolve | internal/algo/hungarian.go:149-208 | On arrays, for every square matrix of non-negative entries, forbidden ones included: the loops terminate with a permutation, the one the state machine returns; it costs no more than any other when no entry reaches the sentinel, and also with forbidden entries, whenever some permutation avoids them and the other entries are so small that n of them stay below the sentinel |
| HungarianRuns.Halts | internal/algo/hungarian.go:156-199 | Every run halts, whatever the non-negative entries |
| HungarianRuns.HaltedRun | internal/algo/hungarian.go:149-208 | A finished run yields a permutation; below the sentinel the sum of the final potentials equals its cost and no permutation is cheaper |
| HungarianRuns.HaltedUnique | internal/algo/hungarian.go:149-208 | The machine is deterministic: all finished runs of an input agree |
| HungarianRuns.StepKeeps | internal/algo/hungarian.go:164-198 | One search round, link of the walk back or start of a row keeps the safety invariant, and the tightness invariant as long as the dual step stays below what is left of the sentinel |
| HungarianRuns.RunKeeps | internal/algo/hungarian.go:156-199 | The first holds in every state of every run, both below the sentinel |
| HungarianRuns.DualsBounded | internal/algo/hungarian.go:151-199 | With entries in [0, C] below the sentinel, 0 <= u <= C and -C <= v <= 0 in every state of every run |
| HungarianRuns.SearchTakes | internal/algo/hungarian.go:164-194 | Over every run below the sentinel the search for row i takes at least one and at most i rounds |
| HungarianSolver.RelaxColumns | internal/algo/hungarian.go:167-181 | The relaxation loop leaves in min_val and way the pointwise cheaper of old and new, and picks the first live column of least min_val |
| HungarianSolver.ShiftDuals | internal/algo/hungarian.go:182-189 | The dual loop raises the rows and lowers the columns of the search tree by delta, and lowers min_val elsewhere |
| HungarianSolver.Search | internal/algo/hungarian.go:158-194 | The search loop ends in a free column with all invariants kept and no row started or lost |
| HungarianSolver.WalkBack | internal/algo/hungarian.go:195-198 | The walk along way ends at column 0 with every started row back in a column |
| HungarianSolver.InsertRow | internal/algo/hungarian.go:157-198 | One outer iteration extends the matching by exactly its row |
| HungarianSolver.ReadOff | internal/algo/hungarian.go:201-207 | The closing loop inverts p |
| HungarianSafety.ScanKeepsSafe | internal/algo/hungarian.go:164-194 | A search round keeps: partial matching, u[i]+v[j] <= cost, u >= 0, v <= 0, and back-pointer chains that end at column 0, even for forbidden entries and stale back-pointers |
| HungarianSafety.FlipKeepsSafe | internal/algo/hungarian.go:195-198 | A link of the walk back keeps every row placed once |
| HungarianSafety.NextRowKeepsSafe | internal/algo/hungarian.go:156-163 | Starting a row keeps the invariant |
| HungarianSafety.ScanDecreases | internal/algo/hungarian.go:164-194 | Every round makes progress, also after the search has run out of edges below the sentinel and picks used columns |
| HungarianSafety.FreeColumn | internal/algo/hungarian.go:191-193 | While a row is being inserted some column is free |
| HungarianSafety.RelaxedDead | internal/algo/hungarian.go:170-175 | Once a search is stuck no column improves any more, so stale back-pointers stay as they are |
| HungarianSafety.ShiftedRows | internal/algo/hungarian.go:182-185 | u[p[j]] += delta over the used columns raises each row of the tree exactly once and no other |
| HungarianSafety.ShiftedFeasible | internal/algo/hungarian.go:182-189 | The dual update keeps every reduced cost non-negative |
| HungarianOptimality.ScanKeepsTight | internal/algo/hungarian.go:164-194 | A round that stays below the sentinel keeps matched edges tight, free columns at v = 0 and back-pointers on tight edges, and reaches a live column |
| HungarianOptimality.FlipKeepsTight | internal/algo/hungarian.go:195-198 | The walk back moves rows along tight edges only |
| HungarianOptimality.NextRowKeepsTight | internal/algo/hungarian.go:156-163 | Starting a row keeps complementary slackness |
| HungarianOptimality.DeltaBelowCap | internal/algo/hungarian.go:150-181 | When no entry reaches the sentinel, no dual step uses up what is left of it, so no search gets stuck |
| HungarianOptimality.ScanKeepsDualsWithin | internal/algo/hungarian.go:164-194 | With entries in [0, C], 0 <= u <= C and -C <= v <= 0 after every search round, the last of a row included |
| HungarianOptimality.MarksOneOfTheRows | internal/algo/hungarian.go:164-194 | Before a round strictly fewer columns are marked than rows have been started, and the round marks one more |
| HungarianOptimality.WeakDuality | internal/algo/hungarian.go:149-208 | Feasible potentials of m rows and columns sum to a lower bound on the cost of every assignment between them |
| HungarianOptimality.StrongDuality | internal/algo/hungarian.go:149-208 | An assignment along tight edges costs exactly that sum |
| HungarianOptimality.HaltedIsPermutation | internal/algo/hungarian.go:201-207 | Reading off a finished safe state gives a permutation, the inverse of p |
| HungarianOptimality.HaltedIsOptimal | internal/algo/hungarian.go:149-208 | A finished safe state with tight matched edges is a minimum, with its potentials as certificate |
| HungarianPlacement.Escape | internal/algo/hungarian.go:164-181 | If the rows started so far can all be placed on entries that are not forbidden, such an entry leaves the search tree, and together with the matching it bounds the next dual step |
| HungarianPlacement.PlacementStays | internal/algo/hungarian.go:164-181 | So no dual step uses up what is left of the sentinel, although there are forbidden entries |
| HungarianPlacement.ForbiddenStays | internal/algo/hungarian.go:170-175 | While the tree is tight a forbidden entry is never relaxed |
| HungarianPlacement.LeanScan | internal/algo/hungarian.go:164-194 | A round keeps the potentials so small that no forbidden edge becomes tight |
| HungarianPlacement.PlacedRuns | internal/algo/hungarian.go:156-199 | All invariants hold in every state up to the insertion of the last row that can be placed with those before it |
| HungarianPlacement.PlacedRunIsCheapest | internal/algo/hungarian.go:149-208 | Entries in [0, C] or forbidden, n C below the sentinel, some permutation without a forbidden entry: the result is cheapest, and the potentials prove it |
| HungarianPlacement.PlacedRowsAreCheapest | internal/algo/hungarian.go:156-199 | As many rows as can be placed, any number of columns: when the last of them is in, they sit at the least total among all columns, so only later rows can spoil it |
| HungarianOverflow.OverflowScan | internal/algo/hungarian.go:164-194 | More rows than open columns: a later row's search keeps the first rows where they are and reaches no blank column from the tree, stuck or not |
| HungarianOverflow.OverflowRuns | internal/algo/hungarian.go:156-199 | So in every later state the open columns hold the first rows, along tight edges |
| HungarianOverflow.FirstRowsServed | internal/algo/hungarian.go:149-208 | If the first m rows can be placed and only m columns are open, those rows get them at the least total of all their placements, and no later row gets one |
| HungarianOneColumn.BlankSlack | internal/algo/hungarian.go:167-175 | One open column, held by the first row over a forbidden entry: from there every other column is at least as far as what is left of the sentinel |
| HungarianOneColumn.SquattedRuns | internal/algo/hungarian.go:156-199 | So it is never displaced: in every state after its insertion it holds the column, and no back-pointer of another column leads to it |
| HungarianOneColumn.FirstRowHoldsTheColumn | internal/algo/hungarian.go:149-208 | One open column, any number of rows: the first row gets it, forbidden or not, whatever the others cost |
| HungarianSpare.PaddingScan | internal/algo/hungarian.go:164-194 | The search of a padding row changes no back-pointer and no column potential and ends in the first free column |
| HungarianSpare.FirstRound | internal/algo/hungarian.go:164-190 | The first round of a row goes to the first of its cheapest columns as long as no column has been repriced |
| HungarianSpare.EveryoneGetsTheFirstChoice | internal/algo/hungarian.go:149-208 | Any number of spare columns: rows whose first choices all differ get exactly those |
| HungarianContested.SecondRound | internal/algo/hungarian.go:164-194 | When two rows share their first choice the second search relaxes every other column from both, forbidden entries counting as never reached, and goes on to the cheapest |
| HungarianContested.TwoTalents | internal/algo/hungarian.go:149-208 | Where two rows with the same first choice end up, for any number of columns and any other entries forbidden, as long as one of the rows has a second column: one goes on to the second choice; the other keeps the first unless a column left over was reached over it, and is then pushed to the first such column, even a forbidden one |
| HungarianContested.CheapestExactly | internal/algo/hungarian.go:149-208 | That is cheapest if and only if there is no such column, or it costs the holder no more |
| AssignmentSolver.Solve | internal/algo/hungarian.go:60-147 | Exactly which inputs are errors. For every other input: the total is the sum of the costs, every assignment is an eligible talent and slot of the input at that pair's own price (PairPrice), each talent appears once across assignments and unassigned (distinct ids), no slot twice. With no more slots than talents: if the talents listed first can fill the slots they do, each in the slot of one cheapest placement, and the others are left out; with equal numbers everyone is placed if and only if a complete eligible placement exists, and then at the least total (64-bit cycle lengths, non-negative scores) |
| AssignmentSolver.SolvePadded | internal/algo/hungarian.go:85-146 | The same for the part after the input checks, read off a solver result on the padded matrix |
| AssignmentSolver.BuildMatrix | internal/algo/hungarian.go:85-107 | The matrix holds the pair costs, Forbidden elsewhere |
| AssignmentSolver.ReadVector | internal/algo/hungarian.go:113-129 | The first closing loop gives the assignments, their total, the rejected talents and the set of placed ones |
| AssignmentSolver.ListUnplaced | internal/algo/hungarian.go:131-144 | The second adds exactly the talents on padding columns |
| AssignmentSolver.Extract | internal/algo/hungarian.go:109-144 | Both together |
| AssignmentSolver.EachTalentOnce | internal/algo/hungarian.go:113-144 | Assigned, rejected and padded talents make up the talent list, with multiplicity, for any in-range vector |
| AssignmentSolver.SlotsDistinct | internal/algo/hungarian.go:113-129 | No slot is assigned twice when the vector is injective |
| AssignmentSolver.GivenCosts | internal/algo/hungarian.go:117-127 | No assignment is Forbidden |
| AssignmentSolver.CostBounds | internal/algo/hungarian.go:36-58 | An eligible pair costs at least 0.6 and, with a non-negative match score, at most ceil(1.25 cycle length) + 9 |
| AssignmentSolver.WhoIsEligible | internal/algo/hungarian.go:36-44 | Which pairs are priced at all, from the input: positive output, cycle, tiers and slot; a tier that pays for a conversion at the target cost; 80 percent of the minimum within the cycle; mobility not blocking |
| AssignmentSolver.PairPrice | internal/algo/hungarian.go:36-58 | What a pair costs: the least whole days in which the output reaches the slot's minimum, plus one for every full tenth of the maximum that the output of those days falls short, times 1 - score x weight, not below 0.60; the weight is 0.20 for alpha up to 0 and at most 0.40, a missing score is 0 |
| AssignmentSolver.MatrixIsBivalued | internal/algo/hungarian.go:36-58 | That bound discharges the solver's condition for every matrix Solve can build: each entry is a small cost or Forbidden, and size times the cost stays below the sentinel |
| AssignmentSolver.VectorServes | internal/algo/hungarian.go:109-129 | If the talents listed first can fill the slots, exactly they are taken, at the least total of all their placements |
| AssignmentSolver.ServedProof | internal/algo/hungarian.go:60-147 | Every output read off the solver keeps the promises about who is placed |
| SolverLaws.FirstServedExactly | internal/algo/hungarian.go:60-147 | More talents than slots: the result is the cheapest way to fill the slots if and only if no choice of talents is cheaper than every placement of those listed first |
| SolverLaws.OneSlotGoesToTheFirst | internal/algo/hungarian.go:60-147 | One slot, any number of talents: the first talent listed gets it if eligible; if not, nobody does, whoever else is eligible |
| SolverLaws.OneSlotExactly | internal/algo/hungarian.go:60-147 | So the slot is filled, as cheaply as possible, if and only if the first talent is eligible and no other eligible talent is cheaper |
| SolverLaws.DifferentFirstSlots | internal/algo/hungarian.go:60-147 | Any number of spare slots: talents whose first cheapest slots all differ get those, so no placement is cheaper |
| SolverLaws.SharedFirstSlot | internal/algo/hungarian.go:60-147 | Two talents with the same first slot that can both be placed, any other pair possibly ineligible: cheapest if and only if no slot left over was reached over the shared one, or the first such slot costs its holder no more |
| SolverLaws.TwoTalentsExactly | internal/algo/hungarian.go:60-147 | Two talents, any number of slots, any pair possibly ineligible: the result is a cheapest placement of both if and only if both can be placed, and their first slots differ or one of those two cases holds |
| SolverLaws.SpareSlotsAreNotOptimal | internal/algo/hungarian.go:60-147 | Limit: two talents and three slots, every pair eligible, at costs (1, 2, 4) and (1, 3, 6): Solve's total is 8, a placement costs 3 |
| SolverLaws.EligibleTalentLeftOut | internal/algo/hungarian.go:60-147 | Limit: a talent without output listed before an eligible one, one slot: Solve assigns nobody, though the slot could be filled at a cost of 1 |
| Qualifier.TierBoundsAreTight | internal/algo/qualifier.go:35-49 | Min is the fewest conversions that use up the tier at maximum cost, Max the most it pays for at target cost |
| Qualifier.SortedTiers | internal/algo/qualifier.go:142-151 | The in-place insertion sort returns a sorted permutation, so ranks are unchanged |
| Qualifier.TierIndex | internal/algo/qualifier.go:153-160 | The scan over the sorted list returns the number of smaller tiers, or -1 |
| Qualifier.QualifyTalentForSlot | internal/algo/qualifier.go:103-140 | The method with sort and scans computes the rank-based verdict, errors included |
| Qualifier.WhoQualifies | internal/algo/qualifier.go:122-139 | A talent qualifies if and only if it reaches 80 percent of the minimum within the cycle and mobility does not block, which takes all of: its ceiling is listed, the slot's tier is listed, and more than one listed tier lies from the slot's tier up to below the ceiling; so an unlisted tier or a slot above the ceiling never blocks |
| Qualifier.BaseDaysAreLeast | internal/algo/qualifier.go:130-139 | Base_days is the least whole number of days that covers the minimum, between 1 and ceil(1.25 cycle length) |
| Qualifier.DemandTierIsGreatest | internal/algo/qualifier.go:53-62 | The demand tier is the greatest multiple of the increment worth the expected output at maximum cost |
| MatchScore.ComputeMatchScore | internal/algo/match_score.go:27-40 | The score is in [0, 1], and the plain average when the dimensions are |
| MatchScore.MatchAdjustment | internal/algo/match_score.go:46-58 | At least 0.60, and at most 1 for non-negative scores |
| MatchScore.BetterMatchCostsLess | internal/algo/match_score.go:46-58 | A better match never costs more, and the 0.60 floor never bites for scores in [0, 1] |
| AuditChain.EveryRunKeepsTheChain | internal/audit/recorder.go:56-155 | Over every interleaving of recorders the log is one chain that only grows: entry k has number k+1 and its predecessor's hash, and the tip is the last entry |
| AuditChain.NextKeepsInv | internal/store/postgres/store.go:1696-1748 | Every single event (begin, tip read, guarded append, database failure) keeps the system invariant |
| AuditChain.AppendIffUnmoved | internal/store/postgres/store.go:1714-1716 | An entry prepared on a tip read without a lock is appended if and only if nothing was committed since |
| AuditChain.ReadBuildsOnTip | internal/audit/recorder.go:75-121 | Reading the tip builds an entry with the caller's body on the log as it stands, and disturbs nothing else |
| AuditChain.AppendCommitsExactly | internal/store/postgres/store.go:1696-1748 | An append with a working database commits if and only if nothing was committed since the tip was read; else the call reads again, or gives up after its third attempt; only the end of the log and the call itself change |
| AuditChain.UndisturbedCallCommits | internal/audit/recorder.go:56-155 | A call that nobody comes between commits its own entry, and nothing else, at the first attempt |
| AuditChain.MissingPlaceIsFilled | internal/store/postgres/store.go:1708-1716 | An entry without predecessor and number always goes through, at the end of the chain |
| AuditChain.RecordOutcome | internal/audit/recorder.go:56-73 | Over every run from the empty chain: success is exactly one entry of this call's; any failure is none; giving up on audit_chain_mismatch means at least three entries of other calls committed meanwhile |
| AuditChain.TipDeterminesChain | internal/audit/recorder.go:106-121 | With a collision-free hash two well-formed chains have the same tip hash if and only if they are equal entry for entry |
| AuditChain.TamperingShowsInEveryLaterHash | internal/audit/recorder.go:106-121 | Two chains that differ in the payload of entry k differ in every hash from k on |
| AuditRecorder.ChainStore.GetAuditChainTip | internal/store/postgres/store.go:1686-1692 | Reads the tip |
| AuditRecorder.ChainStore.AppendAuditLog | internal/store/postgres/store.go:1696-1748 | Compare-and-append: tip and log advance together on a match, and stay on a mismatch or database error |
| AuditRecorder.Recorder.AppendOnce | internal/audit/recorder.go:75-155 | One attempt, with others committing between its read and its append |
| AuditRecorder.Recorder.Record | internal/audit/recorder.go:56-73 | The three-attempt loop changes the store as the attempt-by-attempt function says |
| AuditRecorder.RecordedExactly | internal/audit/recorder.go:56-73 | Record gives up on a mismatch if and only if others committed during each attempt; otherwise the first uncrowded attempt decides; the log grows by the others' entries and, on success only, by this call's entry, which comes last |
| AuditRecorder.RivalsExtend | internal/audit/recorder.go:75-155 | What others commit meanwhile extends a well-formed chain, one entry each |
| Money.RoundsToKobo | internal/algo/payout.go:9-11 | Whole kobo, at most half a kobo away, never negative from a non-negative amount |
| Money.RoundAbove | internal/algo/payout.go:9-11 | Rounding exceeds a whole-kobo amount if and only if the value is at least half a kobo above it |
| Money.SplitRounding | internal/algo/payout.go:9-11 | Rounding both parts of a split amount gives the amount, or one unit more exactly on a half |
| Payout.ComputeTrafficPayout | internal/algo/payout.go:203-249 | The loop and branches compute the traffic result, field by field |
| Payout.ComputeLeadPayout | internal/algo/payout.go:253-301 | The loop and branches compute the lead result, field by field |
| Payout.PayTalent | internal/algo/payout.go:138-148 | Pipeline, then commission, for one talent |
| Payout.PayTalents | internal/algo/payout.go:121-153 | Results before scaling, and the net, bonus and forfeit totals |
| Payout.ScaleTalents | internal/algo/payout.go:161-180 | Scaled results in place, and their total; forfeited talents untouched |
| Payout.ComputeCyclePayout | internal/algo/payout.go:115-199 | The whole output settles the cycle: per-talent results at one scale, and the reconciled totals |
| PayoutLaws.LeadSplitsBudget | internal/algo/payout.go:261-273 | With at least one lead, payout and forfeit add up to the allocated budget; the cap bites if and only if the budget is half a kobo per lead above the leads' worth |
| PayoutLaws.LeadBonuses | internal/algo/payout.go:275-300 | Bonuses are paid in full from a separate pool, else as far as the budget goes; gross is base plus bonuses, within the budget unless a pool pays |
| PayoutLaws.LeadRecord | internal/algo/payout.go:253-301 | Every figure of a lead talent's record from its input: the budget for any number of leads, or the leads at the cap and the rest forfeited, when the budget is half a kobo per lead above the leads' worth; bonuses as often as triggered, out of what the budget leaves or in full |
| PayoutLaws.TrafficBounds | internal/algo/payout.go:203-249 | For any destination list the payout is whole kobo within [0, budget], and exactly when and what the cap branch pays |
| PayoutLaws.DestinationTotals | internal/algo/payout.go:204-215 | The loop over the destinations: conversions at each one's own cap, their number, and the first cap that is not 0 |
| PayoutLaws.TrafficRecord | internal/algo/payout.go:203-249 | Every figure of a traffic talent's record from its destinations: their worth within the budget, or all conversions at the first cap with the saving forfeited, exactly when the budget is half a kobo per conversion above that |
| PayoutLaws.SingleDestination | internal/algo/payout.go:230-240 | With one destination the payout is min(conversions x cap, budget) with nothing forfeited: the cap branch changes nothing |
| PayoutLaws.CapBranchCanOverpay | internal/algo/payout.go:212-239 | Limit: with two destinations ten conversions worth 10 are paid 100 |
| PayoutLaws.OverpaysExactly | internal/algo/payout.go:212-239 | More than the conversions' worth is paid if and only if the first cap applied to all of them exceeds it and the budget is half a kobo per conversion above that |
| PayoutLaws.GrossBounds | internal/algo/payout.go:138-144 | Gross is a non-negative whole-kobo amount, within the budget unless a separate pool pays bonuses, for every pipeline |
| PayoutLaws.CommissionSplits | internal/algo/payout.go:147-148 | Commission and net add up to gross, or to one kobo more if and only if the commission falls on half a kobo |
| PayoutLaws.PayoutChain | internal/algo/payout.go:147-168 | 0 <= payout <= net <= gross <= budget, in whole kobo, for every paid talent; the net is within half a kobo of the gross less commission, the payout within half a kobo of the scaled net |
| PayoutLaws.ScalingKeepsOrder | internal/algo/payout.go:155-168 | Scaling never reorders two talents |
| PayoutLaws.PaidIsCloseToShare | internal/algo/payout.go:161-168 | The sum paid is within half a kobo per paid talent of the scaled net |
| PayoutLaws.PoolIsConserved | internal/algo/payout.go:155-188 | Total_paid + Unallocated_next = Available_pool + Forfeits_returned; Total_paid is within half a kobo per paid talent of min(pool, net), and exactly the net when unscaled, which includes a pool of 0 or less |
| PayoutTotals.TotalsAddUp | internal/algo/payout.go:155-198 | Every total follows from the records returned: the scale is what the pool covers of their nets, Total_paid and both unspent pools are drawn down by their payouts and bonuses, and Forfeits_returned is the sum of the forfeited budgets |
| PayoutTotals.ForfeitsComeBack | internal/algo/payout.go:130-136 | A talent who forfeits is paid nothing wherever it stands in the list, leaves every other record, the scale and both pools as they are, and returns exactly its allocated budget, which is what rolls over in addition |
| PayoutTotals.NobodyForfeits | internal/algo/payout.go:130-136 | Without such a talent nothing comes back |
| PayoutTotals.RecordsNameTheirTalents | internal/algo/payout.go:121-180 | Each record carries its talent's identity, scale and bonus source |
| PayoutTotals.OtherPipelinesEarnNothing | internal/algo/payout.go:138-148 | A talent of an unknown pipeline is recorded and earns nothing |
| PayoutLaws.RoundingCanOverdrawThePool | internal/algo/payout.go:157-168 | Limit: two talents owed a kobo each are both paid from a pool of one kobo |
| PayoutLaws.RoundingOverdrawsThePool | internal/algo/payout.go:157-168 | Limit, as a family: n talents owed one kobo each, from a pool of k kobo with n/2 <= k < n, are all paid in full; at k = n/2 that is half a kobo per talent over |
| PayoutLaws.OnePaidTalentFits | internal/algo/payout.go:157-168 | A single paid talent never overdraws: it gets the lesser of pool and net exactly |
| Slots.BuildBudgetSlots | internal/allocation/slots.go:29-93 | The method with its filter, guards and loop computes the specified slots or error |
| Slots.GrantSlots | internal/allocation/slots.go:55-92 | The loop with its index map numbers each tier's slots from 0 and stops when full or out of range |
| Slots.MinTier | internal/allocation/slots.go:45 | A positive multiple of the increment that funds a target-cost conversion |
| Slots.Capacity | internal/allocation/slots.go:46-52 | As many slots as the budget funds at the least tier, but at most one per active talent |
| Slots.FairBudget | internal/allocation/slots.go:53 | A multiple of the increment whose equal shares fit the budget |
| Slots.Offer | internal/allocation/slots.go:58-73 | A multiple of the increment within the fair share and the talent's positive ceiling |
| SlotLaws.AllocationFits | internal/allocation/slots.go:29-93 | Every successful allocation: tiers sum to at most the budget; each is a multiple of the increment, at least Target_cpa, within its owner's ceiling; keys are unique; the indexes of a tier are exactly 0 up to the number of its slots; each slot has an active talent of its own |
| SlotLaws.TiersAreGreatest | internal/allocation/slots.go:45-91 | Every slot of a successful allocation: its tier is the greatest multiple of the increment that an equal part of the budget, the owner's ceiling and its output (2, 5 or 15 conversions a day by category) all cover, or else the least tier that funds a conversion; the owners are the first talents whose ceiling admits that least tier |
| SlotLaws.OfferIsGreatest | internal/allocation/slots.go:58-73 | The same of one talent's offer |
| SlotLaws.MinTierIsLeast | internal/allocation/slots.go:45 | The least tier is the smallest multiple of the increment that funds a target-cost conversion |
| SlotLaws.ActivePositions | internal/allocation/slots.go:32-37 | The filter keeps exactly the active talents, in order |
| SlotLaws.WhenSlotsAreBuilt | internal/allocation/slots.go:31-48 | Exactly when an allocation succeeds, for budgets in the 32-bit range |
| SlotLaws.SlotCount | internal/allocation/slots.go:46-91 | The number of slots is exactly the lesser of the talents whose ceiling admits a conversion and the slots the budget funds |
| SlotLaws.NumberedUniquely | internal/allocation/slots.go:80-87 | No two slots share tier and index |
| SlotLaws.NumberedFromZero | internal/allocation/slots.go:56-87 | The indexes of a tier run from 0 up to, but not including, the number of its slots |
| Ledger.RemainingCycleBudget | internal/src/campaign/validation.go:85-99 | The loop computes total (or stored remainder) less the other cycles' budgets, not below 0 |
| Ledger.NormalizeEffectiveTier | internal/src/assignment/service.go:607-620 | Accepts exactly the tiers from 5000 to the 32-bit limit; the result is the greatest multiple of 5000 within both the input and 55000 |
| Ledger.Pick | internal/src/assignment/service.go:644-662 | The first free slot of the tier; else a new one, with the tier's next index, if it fits the budget; else the first free slot of any tier; failure only when nothing is free and nothing fits |
| Ledger.PickOrCreateSlot | internal/src/assignment/service.go:622-663 | The scan with its four running variables makes that choice |
| Ledger.CampaignStore.CreateCycle | internal/src/campaign/service.go:264-312 | The new book and error for every input; a missing id is generated; the cycle stays without slots when building them fails |
| Ledger.CampaignStore.PatchCycle | internal/src/campaign/service.go:349-376 | The new book and error of a budget patch |
| Ledger.CampaignStore.AddHuman | internal/src/assignment/service.go:332-389 | The new slots and error, with failures before and after the slot is taken |
| LedgerLaws.CreateKeepsBook | internal/src/campaign/service.go:264-312 | Keeps cycle budgets within the campaign budget |
| LedgerLaws.CreateKeepsSlots | internal/src/campaign/service.go:305-312 | Keeps slot keys unique and slots within their cycle's budget |
| LedgerLaws.WhenCreated | internal/src/campaign/service.go:264-312 | Exactly when a cycle is created: budget in range, within what the sum of the others leaves of the campaign, costs per conversion in order, identifier new, slots buildable |
| LedgerLaws.PatchKeepsBook | internal/src/campaign/service.go:349-376 | Keeps cycle budgets within the campaign budget, the patched cycle counted at its new budget |
| LedgerLaws.WhenPatched | internal/src/campaign/service.go:349-376 | Exactly when a budget is changed, and that nothing else is |
| LedgerLaws.PatchExactly | internal/src/campaign/service.go:349-376 | An accepted patch keeps slots within budgets if and only if the new budget covers the cycle's slots; a refused one changes nothing |
| LedgerLaws.AddHumanKeepsSlots | internal/src/assignment/service.go:365-389 | Keeps keys unique and each cycle's slots within its budget, failed calls included |
| LedgerLaws.AddHumanKeepsBook | internal/src/assignment/service.go:332-389 | Keeps the cycle budgets |
| LedgerSlots.WhenOneIsTaken | internal/src/assignment/service.go:332-389 | Exactly when a call takes a slot: tier in range, cycle there and open, a free slot or room for a new one, and no failure before |
| LedgerSlots.OneIsTaken | internal/src/assignment/service.go:442-449 | Such a call takes exactly one slot of its cycle, free or absent before, and changes nothing else; it is of the normalized tier whenever one of that tier is free or a new one fits, and new only if none of that tier is free |
| LedgerSlots.NoneIsTaken | internal/src/assignment/service.go:365-389 | Any other call reports an error and takes none; at most a slot made for it stays, free |
| LedgerSlots.RunCounts | internal/src/assignment/service.go:332-449 | Over every run slots stay where they are, taken slots stay taken, and there are as many as calls that took one |
| LedgerSlots.NoSlotIsTakenTwice | internal/src/assignment/service.go:332-449 | So no two calls of a run take the same slot |
| LedgerLaws.RunKeeps | internal/src/campaign/service.go:251-383 | Over any sequence of CreateCycle, PatchCycle and AddHuman from any good book: budgets stay within the campaign's and keys unique; slots fit their cycles if they did at the start and every accepted patch covers the slots granted |
| LedgerLaws.BudgetsFitOverEveryRun | internal/src/campaign/validation.go:66-99 | From an empty campaign, after any run: cycle budgets sum to at most the campaign budget, and slot keys are unique |
| LedgerLaws.SlotsFitOverEveryRun | internal/src/assignment/service.go:622-663 | If no accepted patch goes below the slots already granted, every cycle's slots fit its budget and all slots together fit the campaign budget |
| LedgerLaws.RebuiltSlotsCollide | internal/src/assignment/service.go:83-96 | Limit: over every run, appending a freshly built set to the slots a cycle has breaks the unique key if and only if the two share a tier |
| Waterfall.CollectDemand | internal/algo/waterfall.go:44-58 | The first loop: the demand map holds exactly the counted tiers, the total adds each occurrence |
| Waterfall.RunWaterfall | internal/algo/waterfall.go:28-96 | The method with both loops computes the specified distribution or error |
| Waterfall.TierRow | internal/algo/waterfall.go:77-88 | Each row leaves less than one slot over; at least a slot per talent when demand fits the budget, strictly fewer when it does not |
| Waterfall.RowsWithinShares | internal/algo/waterfall.go:72-89 | The rows together stay within their shares of the scaled budget |
| Waterfall.RowsOf | internal/algo/waterfall.go:72-89 | Every counted tier has its row, and every row is of a counted tier |
| Waterfall.RowByRow | internal/algo/waterfall.go:39-95 | From the configuration and the input alone: one row, in order, for every listed tier that has talents and lies between the minimum and both the platform cap and the budget share; each is entitled to its part of the summed demand (scaled twice when demand exceeds the budget) and gets the whole slots in it; the allocation is their sum |
| Waterfall.WaterfallConserves | internal/algo/waterfall.go:64-95 | 0 <= allocated <= budget, allocated x demand <= budget x budget when demand exceeds it, and allocated + remainder = budget if and only if there is demand or no budget |
| Waterfall.BoundedTierIsConsumable | internal/algo/qualifier.go:67-101 | A positive bounded tier is a multiple of the increment that the waterfall counts, within the talent's ceiling |
| Waterfall.BoundedTierIsGreatest | internal/algo/qualifier.go:67-101 | It is the greatest multiple of the increment that cap, budget share, ceiling and expected output allow, or the minimum; and 0 exactly when they rule out the minimum or the output is worth less than one increment |
| Learning.LearnedClosedForm | internal/algo/ltl_bayesian.go:37-38 | After any number of days alpha and beta equal their geometric closed forms |
| Learning.GeometricSum | internal/algo/ltl_bayesian.go:38 | The discount weights sum to (1 - d^n) / (1 - d) |
| Learning.BetaBounds | internal/algo/ltl_bayesian.go:37-41 | From BootstrapBaseline, 1 <= beta <= 1 / (1 - delta), with the exact value |
| Learning.LambdaStaysInRange | internal/algo/ltl_bayesian.go:37-41 | The estimate never leaves the range of the median and the observed outputs |
| Learning.Cycle1Pdc | internal/algo/ltl_bayesian.go:77-89 | Within [0, market cap], and lambda itself when that is in range |
| Learning.CycleNPdc | internal/algo/ltl_bayesian.go:92-103 | Agrees with the first-cycle rule on the short-term estimate |
| Stec.ComputeMean | internal/algo/stec.go:118-127 | The loop computes the mean, 0 for no values |
| Stec.ComputeStdDev | internal/algo/stec.go:129-138 | The loop computes the root of the mean square deviation |
| Stec.ComputeWeightedMean | internal/algo/stec.go:140-150 | The loop computes the weighted mean, 0 without weight |
| Stec.ComputeWeightedStdDev | internal/algo/stec.go:152-162 | The loop computes the root of the weighted variance |
| Stec.ComputeStec | internal/algo/stec.go:31-98 | The method with its loops computes the specified score or error |
| Stec.ClassifyPattern | internal/algo/stec.go:100-116 | Which readings are a collapse, a burnout, volatile or stable, independent of the order of the tests, and the discount of each |
| Stec.BatchIsFold | internal/algo/stec.go:78-83 | Folding UpdateBaseline over the outputs from an empty baseline gives the batch weighted mean |
| Stec.WeightedMeanWithin | internal/algo/stec.go:140-150 | The weighted mean lies between the least and the greatest output |
| Stec.RecommendationIsSafe | internal/algo/stec.go:83-88 | PDC_next is never negative; for a non-negative risk factor at most the weighted mean and the best day; a steady talent is recommended exactly its output |
| StecReadings.ReadingsAre | internal/algo/stec.go:46-75 | The readings from the raw outputs: Mu_ur is the mean output over the allocation, Sigma_ur the root mean square deviation, ZDR counts the days at or below a tenth of the allocation, REL compares the halves' averages and does not depend on the allocation |
| StecReadings.RecommendationIs | internal/algo/stec.go:78-91 | PDC_next is the average weighted by the discount per day of age, less z weighted standard deviations, not below 0 |
| Stec.SingleDayCollapses | internal/algo/stec.go:57-76 | Limit: one day of output is always classified as a collapse |
| Config.ValidTiers | internal/algo/config.go:56-65 | Ascending; for a valid configuration exactly the multiples of the increment between minimum and cap |
| CapSuggest.Analyze | internal/algo/cap_suggest.go:58-75 | The four analyses with their loops, over the last ten cycles |
| CapSuggest.ComputeConfidence | internal/algo/cap_suggest.go:408-429 | The counting loop computes the confidence |
| CapSuggest.SuggestConfig | internal/algo/cap_suggest.go:41-86 | The pipeline of analyses and adjustments computes the specified suggestion or error |
| CapSuggest.RoundToIncrement | internal/algo/cap_suggest.go:401-406 | A multiple of the increment; the value itself if it is one, the next lower one for other non-negative values |
| CapSuggest.ClampValidates | internal/algo/cap_suggest.go:374-399 | With a positive increment the clamped configuration always passes Validate |
| CapSuggest.ClampFixesExactly | internal/algo/cap_suggest.go:374-399 | The clamp changes nothing if and only if the configuration is valid and above its two floors; it is idempotent |
| CapSuggest.ConfidenceRange | internal/algo/cap_suggest.go:408-429 | Confidence lies in [0.5, 1] |
| CapSuggest.ConfidenceIs | internal/algo/cap_suggest.go:408-429 | Rounding never matters: 50 percent, plus 3 per cycle beyond the seventh up to ten, plus 5 per factor at rest |
| CapHistory.SuggestionReports | internal/algo/cap_suggest.go:41-86 | When a suggestion is made, and what it reports: the four averages over the last ten cycles, the confidence and the number of cycles |
| CapHistory.AveragesDecide | internal/algo/cap_suggest.go:88-326 | For any history, exactly when each factor reports a decrease or an increase: the thresholds on the averages, the trend between the halves, and the lists that are empty |
| CapHistory.LowUtilizationLowersTheCap | internal/algo/cap_suggest.go:88-144 | Every utilization of the last ten cycles below 0.60, or none above 0.95 and the newer half more than 0.10 below the older: the tier cap never rises, and falls to what 85 percent of the share funds if that lies between minimum and cap (or below, for weak performance) |
| CapHistory.HighUtilizationRaisesTheCap | internal/algo/cap_suggest.go:88-144 | Every utilization above 0.95 and no performance below 0.50: the cap rises by one increment |
| CapHistory.SteadyUtilizationKeepsTheCap | internal/algo/cap_suggest.go:88-144 | Every utilization in [0.60, 0.95] without such a fall: the cap stays; performance below 0.50 and below 90 percent of the score cap takes one increment off, if the minimum allows |
| CapHistory.WasteMovesTheShare | internal/algo/cap_suggest.go:146-198 | Every budgeted cycle wastes more than 30 percent: the share falls by a tenth, not below 0.05; less than 5: it rises by a twentieth, not above 1; in between: it stays |
| CapHistory.UnassignmentMovesTheFloor | internal/algo/cap_suggest.go:200-267 | Every rate above 0.25, or in (0.10, 0.25] and rising by more than 0.05 from the older half to the newer: the minimum tier falls by one increment if one is left; rates up to 0.10, or without such a rise: it stays |
| CapHistory.PerformanceWidensTheScoreCap | internal/algo/cap_suggest.go:269-326 | Every performance from 90 percent of the score cap upward: that cap widens by 0.25, up to 10; below: it stays |
| CapHistory.OlderCyclesDoNotMatter | internal/algo/cap_suggest.go:88-93 | Two histories with the same last ten cycles get the same configuration and factors |
| CapSuggest.SuggestionValidates | internal/algo/cap_suggest.go:431-442 | For every accepted history and budget the suggestion validates, so SuggestConfigWithError never warns |
| CapSuggest.UtilizationSteersTheCap | internal/algo/cap_suggest.go:328-340 | After clamping, a decrease never raises the tier cap, an increase raises it by one increment |
| CapSuggest.WasteSteersTheShare | internal/algo/cap_suggest.go:342-350 | After clamping, the budget share moves as reported, strictly unless at its limit, with one exception: a decrease never raises the share if and only if the share is at least 0.05 |
| CapSuggest.DecreaseCanRaiseTheShare | internal/algo/cap_suggest.go:342-350 | Limit: a valid configuration with a share of 1 percent, decreased to 5 |
| CapSuggest.UnassignmentLowersTheFloor | internal/algo/cap_suggest.go:352-359 | After clamping, a decrease lowers the minimum tier by one increment if more than one is left, and nothing else changes |
| CapSuggest.PerformanceSteersTheCaps | internal/algo/cap_suggest.go:361-372 | After clamping, an increase widens the score cap up to 10, a decrease lowers the tier cap but not below the minimum tier |
| CapSuggest.SuggestionMoves | internal/algo/cap_suggest.go:41-86 | Over every accepted history: the tier cap rises by at most one increment and only on high utilization, the minimum tier falls by one increment exactly on unassignment, shares and score cap move only for their cause or up to their floors |
| CapSuggest.SteadyHistoryIsKept | internal/algo/cap_suggest.go:41-86 | With all four factors at rest the suggestion is the last configuration, its two percentages raised to their floors; unchanged if and only if they are above |

## Left out

- Floating point: rounding of `float64`, NaN, infinities and the checks for them, overflow, and the absorption of small costs next to Forbidden; all arithmetic is on exact reals.
- AssignmentSolver.Solve: does not promise that an eligible talent is placed while slots stay empty, because the code does not do it: a search that is stuck takes columns in order, whatever they cost. With one slot exactly what happens is proved (`EligibleTalentLeftOut` is an input); with several slots, when the talents listed first cannot fill them, or with as many slots or more when not everybody can be placed, fewer talents than possible can be assigned, and nothing is said about how many or at what cost.
- SolverLaws.DifferentFirstSlots: with spare slots and three or more talents that compete for a slot, the outcome depends on the back-pointers every search leaves behind; the exact condition is given for two talents only. What holds for any number is that the talents sit at the least total before the padding rows are inserted (`PlacedRowsAreCheapest`).
- SlotLaws.WhenSlotsAreBuilt: for budgets beyond the 32-bit range an offered tier can exceed the stored range; which budgets that hits is not stated.
- PayoutLaws.RoundingOverdrawsThePool: pools other than this family can be overdrawn too; in general the half-kobo bounds of `PoolIsConserved` hold, with equality to the net without scaling.
- PayoutLaws.PayoutChain: assumes, like the other laws of single records, whole counts, whole-kobo amounts and a commission rate in [0, 1]; the code does not check them.
- The cost matrix is an immutable sequence of rows, filled row by row; the solver's working vectors are arrays.
- SHA-256, HMAC (section 2 of RFC 2104), JSON, UUIDs and clocks: parameters or fresh names. The archive location of an audit entry, which is not hashed, is not part of this model.
- The fallback to genesis when the tip read itself fails, `Verify` (which does not recompute hashes), and the unchained `WriteAuditLog`.
- Slot identifiers: slots are known by position, tier and index. The table's unique key on tier and index is a property to keep, not a guard.
- The repeated slot generation of `RunSolver` as a ledger operation: it may break budgets and keys (`RebuiltSlotsCollide`).
- Sums of Effective_tier: a manual assignment may fall back to a slot of another tier, so they need not fit the budget.
- Scoring, storing the assignment and the tracking link inside `AddHuman`: one parameter says whether and where they fail. Lookups of the talent and of an earlier assignment, which refuse before any slot is touched, are not modelled.
- Failures of the campaign database, changes of a campaign's budget, and changes of a cycle's status between operations.
- `validateCampaign`: independent field checks.
- `math.Sqrt` is any function that returns the non-negative root; `math.Pow` with a whole exponent is repeated multiplication.
- The four configuration analyses keep metric, value and direction; their reasoning texts, `explainUnassigned` and `buildRelationshipTag` are report text.
- `UpdateSigmaHist` and breakout detection: a mean and a chain of thresholds.
- HTTP handlers, middleware, authentication, mail, media, websockets, generated queries, admin, brand and talent views.
