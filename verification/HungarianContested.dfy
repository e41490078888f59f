/** Two talents with the same first choice and any number of columns: where each of them ends up, and exactly
    when that is cheapest. */
module HungarianContested {
  import opened Permutations
  import opened Hungarian
  import opened HungarianSafety
  import opened HungarianOptimality
  import opened HungarianRuns
  import opened HungarianPlacement
  import opened HungarianSpare

  /** Going on to column d is possible for the first talent, who holds the contested column c, and costs it less
      than it would cost the second. */
  ghost predicate Through(cost: Matrix, n: nat, inf: real, c: nat, d: nat)
    requires Square(cost, n) && n >= 2 && 1 <= c <= n
  {
    && 1 <= d <= n && d != c && Price(cost, n, 1, d) < inf
    && Price(cost, n, 1, d) - Price(cost, n, 1, c) < Price(cost, n, 2, d) - Price(cost, n, 2, c)
  }

  /** What it costs, over both first choices, that somebody goes on to column d. */
  ghost function Gap(cost: Matrix, n: nat, inf: real, c: nat, d: nat): real
    requires Square(cost, n) && n >= 2 && 1 <= c <= n && 1 <= d <= n
  {
    if Through(cost, n, inf, c, d) then Price(cost, n, 1, d) - Price(cost, n, 1, c)
    else Price(cost, n, 2, d) - Price(cost, n, 2, c)
  }

  /** The first of the cheapest columns to go on to. */
  ghost predicate SecondChoice(cost: Matrix, n: nat, inf: real, c: nat, e: nat)
    requires Square(cost, n) && n >= 2 && 1 <= c <= n
  {
    && 1 <= e <= n && e != c
    && (forall d :: 1 <= d <= n && d != c ==> Gap(cost, n, inf, c, e) <= Gap(cost, n, inf, c, d))
    && (forall d :: 1 <= d < e && d != c ==> Gap(cost, n, inf, c, e) < Gap(cost, n, inf, c, d))
  }

  /** A column left over by both talents that was reached over the contested one. */
  ghost predicate Lure(cost: Matrix, n: nat, inf: real, c: nat, e: nat, d: nat)
    requires Square(cost, n) && n >= 2 && 1 <= c <= n
  {
    d != e && Through(cost, n, inf, c, d)
  }

  /** f is the first such column, or 0 if there is none. */
  ghost predicate FirstLure(cost: Matrix, n: nat, inf: real, c: nat, e: nat, f: nat)
    requires Square(cost, n) && n >= 2 && 1 <= c <= n
  {
    && (f != 0 ==> Lure(cost, n, inf, c, e, f))
    && (forall d: nat {:trigger Lure(cost, n, inf, c, e, d)} :: Lure(cost, n, inf, c, e, d) ==> 1 <= f <= d)
  }

  /** Two talents with the same first choice c, and some other column for one of them; e is the second choice, f
      the first lure.  Any of their other entries may be forbidden. */
  ghost predicate Contest(cost: Matrix, n: nat, inf: real, C: real, c: nat, e: nat, f: nat)
    requires Square(cost, n)
  {
    && n >= 2 && Bivalued(cost, n, inf, C) && PaddedRows(cost, n, inf, 2)
    && FirstChoice(cost, n, inf, 1, c) && FirstChoice(cost, n, inf, 2, c)
    && SecondChoice(cost, n, inf, c, e) && FirstLure(cost, n, inf, c, e, f)
    && (Price(cost, n, 1, e) < inf || Price(cost, n, 2, e) < inf)
  }

  /** What a search compares: prices are small or forbidden. */
  lemma Prices(cost: Matrix, n: nat, inf: real, C: real, r: nat, d: nat)
    requires Square(cost, n) && n >= 2 && Bivalued(cost, n, inf, C) && 1 <= r <= n && 1 <= d <= n
    ensures C >= 0.0 && 2.0 * C < inf
    ensures 0.0 <= Price(cost, n, r, d) &&
            if Price(cost, n, r, d) < inf then Price(cost, n, r, d) <= C else Price(cost, n, r, d) >= 2.0 * inf
  {
    ScaledMonotone(2, n, C);
  }

  /** The second choice is not forbidden to the talent that goes on to it. */
  lemma SecondIsSmall(cost: Matrix, n: nat, inf: real, C: real, c: nat, e: nat, f: nat)
    requires Square(cost, n) && Contest(cost, n, inf, C, c, e, f)
    ensures Gap(cost, n, inf, c, e) <= C && Price(cost, n, Mover(cost, n, inf, c, e), e) < inf
  {
    Prices(cost, n, inf, C, 1, e);
    Prices(cost, n, inf, C, 2, e);
    Prices(cost, n, inf, C, 1, c);
    Prices(cost, n, inf, C, 2, c);
  }

  /** The talent that goes on, and the one that holds the contested column. */
  ghost function Mover(cost: Matrix, n: nat, inf: real, c: nat, e: nat): nat
    requires Square(cost, n) && n >= 2 && 1 <= c <= n
  {
    if Through(cost, n, inf, c, e) then 1 else 2
  }

  ghost function Holder(cost: Matrix, n: nat, inf: real, c: nat, e: nat): nat
    requires Square(cost, n) && n >= 2 && 1 <= c <= n
  {
    3 - Mover(cost, n, inf, c, e)
  }

  // ------------------------------------------------------------------------- the two talents' searches

  /** The arithmetic of a column relaxed twice: two entries x and y, reached from a and b. */
  lemma RelaxedTwiceBy(x: real, y: real, a: real, b: real, C: real, inf: real)
    requires 0.0 <= a <= C && 0.0 <= b <= C && 2.0 * C < inf
    requires (if x < inf then 0.0 <= x <= C else x >= 2.0 * inf) && if y < inf then 0.0 <= y <= C else y >= 2.0 * inf
    ensures var slack, min := x - a, (if y < inf then y else inf) - b;
            var through := x < inf && x - a < y - b;
            var gap, left := if through then x - a else y - b, if slack < min then slack else min;
            (through <==> slack < min) && if gap <= C then left == gap else left > C
  {
  }

  /** What is left of a live column after it was relaxed from the first talent as well. */
  lemma RelaxedTwice(cost: Matrix, n: nat, inf: real, C: real, c: nat, e: nat, f: nat, d: nat)
    requires Square(cost, n) && Contest(cost, n, inf, C, c, e, f) && 1 <= d <= n && d != c
    ensures var slack := Price(cost, n, 1, d) - Price(cost, n, 1, c);
            var min := Capped(cost, n, inf, 2, d) - Price(cost, n, 2, c);
            && (Through(cost, n, inf, c, d) <==> slack < min)
            && Gap(cost, n, inf, c, e) <= (if slack < min then slack else min)
            && (d < e ==> Gap(cost, n, inf, c, e) < if slack < min then slack else min)
            && (d == e ==> Gap(cost, n, inf, c, e) == if slack < min then slack else min)
  {
    hide Price, Bivalued, PaddedRows, FirstLure;
    SecondIsSmall(cost, n, inf, C, c, e, f);
    Prices(cost, n, inf, C, 1, d);
    Prices(cost, n, inf, C, 2, d);
    Prices(cost, n, inf, C, 1, c);
    Prices(cost, n, inf, C, 2, c);
    assert Gap(cost, n, inf, c, e) <= Gap(cost, n, inf, c, d);
    RelaxedTwiceBy(Price(cost, n, 1, d), Price(cost, n, 2, d), Price(cost, n, 1, c), Price(cost, n, 2, c), C, inf);
  }

  /** Every live column is relaxed from the first talent, who holds the contested column. */
  lemma SecondRound(cost: Matrix, n: nat, inf: real, C: real, s: State, rank: seq<nat>, c: nat, e: nat, f: nat)
    requires Square(cost, n) && Contest(cost, n, inf, C, c, e, f) && Safe(cost, n, inf, s, rank) && !s.flipping
    requires s.j0 == c && s.p[c] == 1 && s.u[1] == Price(cost, n, 1, c) && FlatColumns(n, s)
    requires forall d :: 0 <= d <= n ==> (s.used[d] <==> d == 0)
    requires forall d :: 1 <= d <= n ==> s.minVal[d] == Capped(cost, n, inf, 2, d) - Price(cost, n, 2, c)
    requires forall d :: 1 <= d <= n && d != c ==> s.p[d] == 0
    ensures var w := Scan(cost, n, inf, s);
            && w.flipping && w.j0 == e && w.p == s.p && w.row == s.row
            && forall d :: 1 <= d <= n ==> w.way[d] == if Through(cost, n, inf, c, d) then c else 0
  {
    ContestFacts(cost, n, inf, C, c, e, f);
    SecondIsSmall(cost, n, inf, C, c, e, f);
    hide Ranked, Fresh, Searching, Feasible, Matching, Contest, Gap, Through, Capped;
    var t := Relaxed(cost, n, s);
    forall d | 1 <= d <= n && d != c
      ensures t.way[d] == (if Through(cost, n, inf, c, d) then c else 0)
      ensures Gap(cost, n, inf, c, e) <= t.minVal[d] && (d < e ==> Gap(cost, n, inf, c, e) < t.minVal[d])
      ensures d == e ==> Gap(cost, n, inf, c, e) == t.minVal[d]
    {
      RelaxedTwice(cost, n, inf, C, c, e, f, d);
      assert Slack(cost, n, s.u, s.v, 1, d) == Price(cost, n, 1, d) - Price(cost, n, 1, c);
    }
    NotThrough(cost, n, inf, c);
    LeastIsFirst(t.minVal, t.used, inf, n, e);
  }

  lemma NotThrough(cost: Matrix, n: nat, inf: real, c: nat)
    requires Square(cost, n) && n >= 2 && 1 <= c <= n
    ensures !Through(cost, n, inf, c, c)
  {
  }

  /** Both talents are in. */
  ghost predicate Settled(cost: Matrix, n: nat, inf: real, c: nat, e: nat, s: State)
    requires Square(cost, n) && n >= 2 && 1 <= c <= n
  {
    && Shape(n, s) && s.flipping && s.j0 == 0 && s.row == 2 && 1 <= e <= n && e != c
    && s.p[e] == Mover(cost, n, inf, c, e) && s.p[c] == Holder(cost, n, inf, c, e)
    && (forall d :: 1 <= d <= n && d != c && d != e ==> s.p[d] == 0)
    && (forall d :: 1 <= d <= n ==> s.way[d] == if Through(cost, n, inf, c, d) then c else 0)
  }

  /** The first talent holds the contested column, and nothing else has happened. */
  ghost predicate FirstIn(cost: Matrix, n: nat, c: nat, s: State)
    requires Square(cost, n) && n >= 2 && 1 <= c <= n
  {
    && Shape(n, s) && s.flipping && s.j0 == 0 && s.row == 1 && FlatColumns(n, s)
    && s.p[c] == 1 && s.u[1] == Price(cost, n, 1, c) && forall d :: 1 <= d <= n && d != c ==> s.p[d] == 0
  }

  /** The second talent has just reached the contested column. */
  ghost predicate Meets(cost: Matrix, n: nat, inf: real, c: nat, s: State)
    requires Square(cost, n) && n >= 2 && 1 <= c <= n
  {
    && Shape(n, s) && !s.flipping && s.row == 2 && s.p[0] == 2 && s.j0 == c && FlatColumns(n, s)
    && s.p[c] == 1 && s.u[1] == Price(cost, n, 1, c)
    && (forall d :: 0 <= d <= n ==> (s.used[d] <==> d == 0))
    && (forall d :: 1 <= d <= n ==> s.minVal[d] == Capped(cost, n, inf, 2, d) - Price(cost, n, 2, c))
    && (forall d :: 1 <= d <= n && d != c ==> s.p[d] == 0)
  }

  /** The first talent's search takes one round and a walk of one link. */
  lemma FirstSearch(cost: Matrix, n: nat, inf: real, c: nat, s: State, rank: seq<nat>)
    requires Square(cost, n) && n >= 2 && 1 <= c <= n && FirstChoice(cost, n, inf, 1, c)
    requires s == NextRow(n, inf, Start(n)) && Safe(cost, n, inf, s, rank)
    ensures var w := Scan(cost, n, inf, s); w.flipping && w.j0 != 0 && FirstIn(cost, n, c, Flip(n, w))
  {
    hide Ranked, Searching, Feasible, Matching, Scan, FirstChoice;
    StartIsFlat(cost, n, inf, s);
    FirstRound(cost, n, inf, s, rank, c);
  }

  lemma StartIsFlat(cost: Matrix, n: nat, inf: real, s: State)
    requires Square(cost, n) && n >= 1 && s == NextRow(n, inf, Start(n))
    ensures AtStart(n, inf, s) && FlatColumns(n, s) && s.row == 1 && !s.flipping
    ensures forall d :: 1 <= d <= n ==> s.p[d] == 0
  {
  }

  /** The second talent's search reaches the contested column first. */
  lemma SecondSearch(cost: Matrix, n: nat, inf: real, C: real, c: nat, e: nat, f: nat, s: State, rank: seq<nat>,
      rank': seq<nat>)
    requires Square(cost, n) && Contest(cost, n, inf, C, c, e, f) && FirstIn(cost, n, c, s)
    requires Safe(cost, n, inf, s, rank) && Safe(cost, n, inf, NextRow(n, inf, s), rank')
    ensures Meets(cost, n, inf, c, Scan(cost, n, inf, NextRow(n, inf, s)))
  {
    hide Ranked, Searching, Feasible, Matching, Scan, FirstChoice, SecondChoice, FirstLure, NonNegative, PaddedRows;
    NextRowStarts(cost, n, inf, s, rank);
    FirstRound(cost, n, inf, NextRow(n, inf, s), rank', c);
    ChoiceInRange(cost, n, inf, 1, c);
  }

  /** Then one more round, and a walk of one link or two. */
  lemma SecondWalk(cost: Matrix, n: nat, inf: real, C: real, c: nat, e: nat, f: nat, s: State, rank: seq<nat>)
    requires Square(cost, n) && Contest(cost, n, inf, C, c, e, f) && Meets(cost, n, inf, c, s)
    requires Safe(cost, n, inf, s, rank)
    ensures var w := Scan(cost, n, inf, s);
            w.flipping && w.j0 != 0 &&
            if Through(cost, n, inf, c, e) then Flip(n, w).j0 != 0 && Settled(cost, n, inf, c, e, Flip(n, Flip(n, w)))
            else Settled(cost, n, inf, c, e, Flip(n, w))
  {
    hide Ranked, Searching, Feasible, Matching, Scan, FirstChoice, FirstLure, NonNegative, PaddedRows;
    SecondRound(cost, n, inf, C, s, rank, c, e, f);
  }

  lemma AfterThree(cost: Matrix, n: nat, inf: real, c: nat)
    requires Square(cost, n) && n >= 2 && NonNegative(cost, n) && inf > 0.0 && 1 <= c <= n
    requires FirstChoice(cost, n, inf, 1, c)
    ensures FirstIn(cost, n, c, Run(cost, n, inf, 3))
  {
    hide Run, Safe, Scan, Flip, NextRow, FirstIn, NonNegative, FirstChoice;
    var rank := RunKeeps(cost, n, inf, 1);
    FirstStates(cost, n, inf);
    StartIsFlat(cost, n, inf, Run(cost, n, inf, 1));
    FirstSearch(cost, n, inf, c, Run(cost, n, inf, 1), rank);
    RunStep(cost, n, inf, 1);
    RunStep(cost, n, inf, 2);
  }

  lemma AfterFive(cost: Matrix, n: nat, inf: real, C: real, c: nat, e: nat, f: nat)
    requires Square(cost, n) && Contest(cost, n, inf, C, c, e, f)
    ensures n >= 2 && 1 <= c <= n && Meets(cost, n, inf, c, Run(cost, n, inf, 5))
  {
    ContestFacts(cost, n, inf, C, c, e, f);
    ContestChoice(cost, n, inf, C, c, e, f);
    hide Run, Safe, Scan, Flip, Contest, Meets, NonNegative, FirstChoice;
    AfterThree(cost, n, inf, c);
    var rank3 := RunKeeps(cost, n, inf, 3);
    var rank4 := RunKeeps(cost, n, inf, 4);
    RunStep(cost, n, inf, 3);
    RunStep(cost, n, inf, 4);
    FirstInGoesOn(cost, n, inf, c, Run(cost, n, inf, 3));
    SecondSearch(cost, n, inf, C, c, e, f, Run(cost, n, inf, 3), rank3, rank4);
  }

  lemma ContestChoice(cost: Matrix, n: nat, inf: real, C: real, c: nat, e: nat, f: nat)
    requires Square(cost, n) && Contest(cost, n, inf, C, c, e, f)
    ensures FirstChoice(cost, n, inf, 1, c)
  {
  }

  lemma FirstInGoesOn(cost: Matrix, n: nat, inf: real, c: nat, s: State)
    requires Square(cost, n) && n >= 2 && 1 <= c <= n && FirstIn(cost, n, c, s)
    ensures Step(cost, n, inf, s) == NextRow(n, inf, s)
    ensures Step(cost, n, inf, NextRow(n, inf, s)) == Scan(cost, n, inf, NextRow(n, inf, s))
  {
  }

  lemma BothTalentsIn(cost: Matrix, n: nat, inf: real, C: real, c: nat, e: nat, f: nat) returns (k: nat)
    requires Square(cost, n) && Contest(cost, n, inf, C, c, e, f)
    ensures Settled(cost, n, inf, c, e, Run(cost, n, inf, k))
  {
    ContestFacts(cost, n, inf, C, c, e, f);
    hide Run, Safe, Scan, Flip, NextRow, Contest, Settled, Through, NonNegative;
    AfterFive(cost, n, inf, C, c, e, f);
    var rank := RunKeeps(cost, n, inf, 5);
    SecondWalk(cost, n, inf, C, c, e, f, Run(cost, n, inf, 5), rank);
    RunStep(cost, n, inf, 5);
    RunStep(cost, n, inf, 6);
    RunStep(cost, n, inf, 7);
    k := if Through(cost, n, inf, c, e) then 8 else 7;
  }

  lemma FirstStates(cost: Matrix, n: nat, inf: real)
    requires Square(cost, n) && n >= 1
    ensures Run(cost, n, inf, 1) == NextRow(n, inf, Start(n))
  {
    assert Run(cost, n, inf, 0) == Start(n);
  }

  // ------------------------------------------------------------------------------ the padding rows

  /** Nobody has taken a lure, or the first one has cost the holder the contested column. */
  ghost predicate HolderSomewhere(cost: Matrix, n: nat, inf: real, c: nat, e: nat, f: nat, s: State)
    requires Square(cost, n) && n >= 2 && 1 <= c <= n && Shape(n, s)
  {
    || (&& s.p[c] == Holder(cost, n, inf, c, e) && (s.flipping ==> s.j0 != c)
        && (forall d: nat {:trigger Lure(cost, n, inf, c, e, d)} :: Lure(cost, n, inf, c, e, d) ==> s.p[d] == 0))
    || (1 <= f <= n && s.p[f] == Holder(cost, n, inf, c, e) && (s.flipping ==> s.j0 != f))
  }

  /** What the padding rows keep: the mover's column, the back-pointers, the holder's whereabouts, and that
      columns are taken in order. */
  ghost predicate Seated(cost: Matrix, n: nat, inf: real, c: nat, e: nat, f: nat, s: State)
    requires Square(cost, n) && n >= 2 && 1 <= c <= n && Shape(n, s)
  {
    && s.row >= 2 && 1 <= e <= n && e != c && s.p[e] == Mover(cost, n, inf, c, e)
    && (forall d :: 1 <= d <= n ==> s.way[d] == if Through(cost, n, inf, c, d) then c else 0)
    && HolderSomewhere(cost, n, inf, c, e, f, s)
    && (s.flipping ==> s.j0 == 0 || s.j0 == c || (s.p[s.j0] == 0 && forall d :: 1 <= d < s.j0 ==> s.p[d] != 0))
    && (s.flipping ==> s.j0 != e)
    && (!s.flipping ==> s.row > 2 && PadSearch(n, inf, s))
  }

  lemma SeatedScan(cost: Matrix, n: nat, inf: real, C: real, c: nat, e: nat, f: nat, s: State, rank: seq<nat>)
    requires Square(cost, n) && Contest(cost, n, inf, C, c, e, f) && Safe(cost, n, inf, s, rank) && !s.flipping
    requires Seated(cost, n, inf, c, e, f, s)
    ensures Seated(cost, n, inf, c, e, f, Scan(cost, n, inf, s))
  {
    hide Ranked, Searching, Feasible, Matching, Scan, FirstChoice, SecondChoice, FirstLure, NonNegative, PaddedRows,
      AtStart, Dead, Lure, Through;
    PaddingScan(cost, n, inf, 2, s, rank);
  }

  lemma SeatedFlip(cost: Matrix, n: nat, inf: real, C: real, c: nat, e: nat, f: nat, s: State)
    requires Square(cost, n) && Contest(cost, n, inf, C, c, e, f) && Shape(n, s) && s.flipping && s.j0 != 0
    requires Seated(cost, n, inf, c, e, f, s)
    ensures Seated(cost, n, inf, c, e, f, Flip(n, s))
  {
    hide SecondChoice, NonNegative, PaddedRows, FirstChoice;
    ChoiceInRange(cost, n, inf, 1, c);
    if s.j0 != c && Through(cost, n, inf, c, s.j0) {
      assert Lure(cost, n, inf, c, e, s.j0);
    }
  }

  lemma SeatedStep(cost: Matrix, n: nat, inf: real, C: real, c: nat, e: nat, f: nat, s: State, rank: seq<nat>)
    returns (rank': seq<nat>)
    requires Square(cost, n) && Contest(cost, n, inf, C, c, e, f) && Safe(cost, n, inf, s, rank)
    requires Seated(cost, n, inf, c, e, f, s)
    ensures var t := Step(cost, n, inf, s); Safe(cost, n, inf, t, rank') && Seated(cost, n, inf, c, e, f, t)
  {
    hide Ranked, Searching, Feasible, Matching, Scan, Flip, FirstChoice, SecondChoice, FirstLure, NonNegative,
      PaddedRows, AtStart, Dead, Lure, Through;
    ContestFacts(cost, n, inf, C, c, e, f);
    rank' := StepKeeps(cost, n, inf, s, rank);
    if !s.flipping {
      SeatedScan(cost, n, inf, C, c, e, f, s, rank);
    } else if s.j0 != 0 {
      SeatedFlip(cost, n, inf, C, c, e, f, s);
    } else if s.row < n {
      NextRowStarts(cost, n, inf, s, rank);
      LuresAreColumns(cost, n, inf, c, e);
    }
  }

  lemma LuresAreColumns(cost: Matrix, n: nat, inf: real, c: nat, e: nat)
    requires Square(cost, n) && n >= 2 && 1 <= c <= n
    ensures forall d: nat {:trigger Lure(cost, n, inf, c, e, d)} :: Lure(cost, n, inf, c, e, d) ==> 1 <= d <= n
  {
  }

  lemma {:induction false} SeatedRuns(cost: Matrix, n: nat, inf: real, C: real, c: nat, e: nat, f: nat, k0: nat, k: nat)
    returns (rank: seq<nat>)
    requires Square(cost, n) && Contest(cost, n, inf, C, c, e, f)
    requires Settled(cost, n, inf, c, e, Run(cost, n, inf, k0)) && k0 <= k
    ensures Safe(cost, n, inf, Run(cost, n, inf, k), rank) && Seated(cost, n, inf, c, e, f, Run(cost, n, inf, k))
  {
    hide Run, Safe, Seated, Step, Contest, Settled;
    ContestFacts(cost, n, inf, C, c, e, f);
    if k == k0 {
      rank := RunKeeps(cost, n, inf, k);
      SettledIsSeated(cost, n, inf, C, c, e, f, Run(cost, n, inf, k));
    } else {
      RunStep(cost, n, inf, k - 1);
      var previous := SeatedRuns(cost, n, inf, C, c, e, f, k0, k - 1);
      rank := SeatedStep(cost, n, inf, C, c, e, f, Run(cost, n, inf, k - 1), previous);
    }
  }

  lemma ContestFacts(cost: Matrix, n: nat, inf: real, C: real, c: nat, e: nat, f: nat)
    requires Square(cost, n) && Contest(cost, n, inf, C, c, e, f)
    ensures n >= 2 && NonNegative(cost, n) && inf > 0.0 && C < inf && PaddedRows(cost, n, inf, 2)
    ensures 1 <= c <= n && 1 <= e <= n && e != c && f <= n
  {
    BivaluedFacts(cost, n, inf, C);
    ScaledMonotone(1, n, C);
  }

  lemma SettledIsSeated(cost: Matrix, n: nat, inf: real, C: real, c: nat, e: nat, f: nat, s: State)
    requires Square(cost, n) && Contest(cost, n, inf, C, c, e, f) && Settled(cost, n, inf, c, e, s)
    ensures Seated(cost, n, inf, c, e, f, s)
  {
  }

  /** Where the two talents end up: one goes on to the second choice; the other keeps the contested column
      unless a column left over was reached over it: then it is pushed to the first such column. */
  lemma TwoTalents(cost: Matrix, n: nat, inf: real, C: real, c: nat, e: nat, f: nat, k: nat)
    requires Square(cost, n) && Contest(cost, n, inf, C, c, e, f) && Halted(n, Run(cost, n, inf, k))
    ensures 1 <= c <= n && 1 <= e <= n && f <= n
    ensures var result := Result(n, Run(cost, n, inf, k));
            && IsPermutation(result, n)
            && result[Mover(cost, n, inf, c, e) - 1] == e - 1
            && result[Holder(cost, n, inf, c, e) - 1] == (if f == 0 then c else f) - 1
  {
    hide Run, Safe, Seated, Contest, Settled, Result, Mover, Holder;
    ContestFacts(cost, n, inf, C, c, e, f);
    var k0 := BothTalentsIn(cost, n, inf, C, c, e, f);
    var last := if k < k0 then k0 else k;
    HaltedStays(cost, n, inf, k, last);
    var rank := SeatedRuns(cost, n, inf, C, c, e, f, k0, last);
    FinalSeats(cost, n, inf, C, c, e, f, Run(cost, n, inf, k), rank);
  }

  lemma FinalSeats(cost: Matrix, n: nat, inf: real, C: real, c: nat, e: nat, f: nat, s: State, rank: seq<nat>)
    requires Square(cost, n) && Contest(cost, n, inf, C, c, e, f) && Safe(cost, n, inf, s, rank) && Halted(n, s)
    requires Seated(cost, n, inf, c, e, f, s)
    ensures 1 <= c <= n && 1 <= e <= n && f <= n
    ensures var result := Result(n, s);
            && IsPermutation(result, n)
            && result[Mover(cost, n, inf, c, e) - 1] == e - 1
            && result[Holder(cost, n, inf, c, e) - 1] == (if f == 0 then c else f) - 1
  {
    ContestFacts(cost, n, inf, C, c, e, f);
    HaltedIsPermutation(cost, n, inf, s, rank);
    hide FirstChoice, SecondChoice, NonNegative, PaddedRows, PadSearch, Ranked, Searching, Feasible, Through, Result,
      IsPermutation;
    var seat := if f == 0 then c else f;
    ColumnTaken(n, s, seat);
    assert s.p[seat] == Holder(cost, n, inf, c, e);
    HoldsResult(n, s, e);
    HoldsResult(n, s, seat);
  }

  lemma ColumnTaken(n: nat, s: State, c: nat)
    requires Shape(n, s) && 1 <= c <= n && IsPermutation(Result(n, s), n)
    requires forall k :: 0 <= k < n ==> s.p[Result(n, s)[k] + 1] == k + 1
    ensures s.p[c] != 0
  {
    var k := PermutationHits(Result(n, s), n, c - 1);
    assert s.p[Result(n, s)[k] + 1] == k + 1;
  }

  lemma HoldsResult(n: nat, s: State, c: nat)
    requires Shape(n, s) && 1 <= c <= n && s.p[c] != 0 && InjectiveExcept(n, s.p, 0)
    ensures Result(n, s)[s.p[c] - 1] == c - 1
  {
    ExtractedAt(n, s.p, n, c);
  }

  // ------------------------------------------------------------------------- when that is cheapest

  /** No pair of different columns is cheaper for the two talents. */
  ghost predicate PairCheapest(cost: Matrix, n: nat, x: nat, y: nat)
    requires Square(cost, n) && n >= 2 && 1 <= x <= n && 1 <= y <= n
  {
    forall x': nat, y': nat :: 1 <= x' <= n && 1 <= y' <= n && x' != y' ==>
      Price(cost, n, 1, x) + Price(cost, n, 2, y) <= Price(cost, n, 1, x') + Price(cost, n, 2, y')
  }

  /** The cheapest pair: both first choices, and the cheapest way for one of them to go on. */
  lemma PairBound(cost: Matrix, n: nat, inf: real, C: real, c: nat, e: nat, f: nat, x: nat, y: nat)
    requires Square(cost, n) && Contest(cost, n, inf, C, c, e, f) && 1 <= x <= n && 1 <= y <= n && x != y
    ensures Price(cost, n, 1, c) + Price(cost, n, 2, c) + Gap(cost, n, inf, c, e) <=
            Price(cost, n, 1, x) + Price(cost, n, 2, y)
  {
    hide Price, Bivalued, PaddedRows, FirstLure;
    SecondIsSmall(cost, n, inf, C, c, e, f);
    Prices(cost, n, inf, C, 1, x);
    Prices(cost, n, inf, C, 2, y);
    Prices(cost, n, inf, C, 1, c);
    Prices(cost, n, inf, C, 2, c);
    if x != c {
      assert Gap(cost, n, inf, c, e) <= Gap(cost, n, inf, c, x) && Price(cost, n, 2, c) <= Price(cost, n, 2, y);
    } else {
      assert Gap(cost, n, inf, c, e) <= Gap(cost, n, inf, c, y);
    }
  }

  /** The result is cheapest for the two talents if and only if no column left over was reached over the
      contested one, or the first such column costs the holder no more than the contested one. */
  lemma CheapestExactly(cost: Matrix, n: nat, inf: real, C: real, c: nat, e: nat, f: nat, k: nat)
    requires Square(cost, n) && Contest(cost, n, inf, C, c, e, f) && Halted(n, Run(cost, n, inf, k))
    ensures 1 <= c <= n && f <= n && IsPermutation(Result(n, Run(cost, n, inf, k)), n)
    ensures var result := Result(n, Run(cost, n, inf, k));
            var h := Holder(cost, n, inf, c, e);
            PairCheapest(cost, n, result[0] + 1, result[1] + 1) <==>
              f == 0 || Price(cost, n, h, f) == Price(cost, n, h, c)
  {
    hide Run, Result, Contest, PairCheapest, Price, Halted;
    ContestFacts(cost, n, inf, C, c, e, f);
    TwoTalents(cost, n, inf, C, c, e, f, k);
    var result := Result(n, Run(cost, n, inf, k));
    PairExactly(cost, n, inf, C, c, e, f, result[0] + 1, result[1] + 1);
  }

  lemma PairExactly(cost: Matrix, n: nat, inf: real, C: real, c: nat, e: nat, f: nat, x: nat, y: nat)
    requires Square(cost, n) && Contest(cost, n, inf, C, c, e, f) && 1 <= x <= n && 1 <= y <= n
    requires if Mover(cost, n, inf, c, e) == 1 then x == e && y == (if f == 0 then c else f)
             else y == e && x == if f == 0 then c else f
    ensures 1 <= c <= n && f <= n
    ensures var h := Holder(cost, n, inf, c, e);
            PairCheapest(cost, n, x, y) <==> f == 0 || Price(cost, n, h, f) == Price(cost, n, h, c)
  {
    var h := Holder(cost, n, inf, c, e);
    var best := Price(cost, n, 1, c) + Price(cost, n, 2, c) + Gap(cost, n, inf, c, e);
    var x0, y0 := if h == 2 then e else c, if h == 2 then c else e;
    assert Price(cost, n, 1, x0) + Price(cost, n, 2, y0) == best;
    HolderPays(cost, n, inf, C, c, e, f, h);
    assert Price(cost, n, 1, x) + Price(cost, n, 2, y) ==
      if f == 0 then best else best - Price(cost, n, h, c) + Price(cost, n, h, f);
    hide Contest, Price, Gap, Holder, Mover;
    if f == 0 || Price(cost, n, h, f) == Price(cost, n, h, c) {
      forall x': nat, y': nat | 1 <= x' <= n && 1 <= y' <= n && x' != y'
        ensures Price(cost, n, 1, x) + Price(cost, n, 2, y) <= Price(cost, n, 1, x') + Price(cost, n, 2, y')
      {
        PairBound(cost, n, inf, C, c, e, f, x', y');
      }
    } else {
      assert Price(cost, n, 1, x) + Price(cost, n, 2, y) > Price(cost, n, 1, x0) + Price(cost, n, 2, y0);
    }
  }

  lemma HolderPays(cost: Matrix, n: nat, inf: real, C: real, c: nat, e: nat, f: nat, h: nat)
    requires Square(cost, n) && Contest(cost, n, inf, C, c, e, f) && 1 <= h <= 2
    ensures 1 <= c <= n && 1 <= e <= n && e != c && f <= n
    ensures f != 0 ==> Price(cost, n, h, c) <= Price(cost, n, h, f)
  {
  }

  // ------------------------------------------------------------- the contest is always well defined

  lemma {:induction false} FirstSecondChoice(cost: Matrix, n: nat, inf: real, c: nat, k: nat) returns (e: nat)
    requires Square(cost, n) && n >= 2 && 1 <= c <= n && (if c == 1 then 2 else 1) <= k <= n
    ensures 1 <= e <= k && e != c
    ensures forall d :: 1 <= d <= k && d != c ==> Gap(cost, n, inf, c, e) <= Gap(cost, n, inf, c, d)
    ensures forall d :: 1 <= d < e && d != c ==> Gap(cost, n, inf, c, e) < Gap(cost, n, inf, c, d)
  {
    hide Gap;
    if k == 1 || (k == 2 && c == 1) {
      e := k;
    } else {
      e := FirstSecondChoice(cost, n, inf, c, k - 1);
      if k != c && Gap(cost, n, inf, c, k) < Gap(cost, n, inf, c, e) {
        e := k;
      }
    }
  }

  lemma {:induction false} SomeFirstLure(cost: Matrix, n: nat, inf: real, c: nat, e: nat, k: nat) returns (f: nat)
    requires Square(cost, n) && n >= 2 && 1 <= c <= n && k <= n
    ensures f <= k && (f != 0 ==> Lure(cost, n, inf, c, e, f))
    ensures forall d: nat {:trigger Lure(cost, n, inf, c, e, d)} :: d <= k && Lure(cost, n, inf, c, e, d) ==>
            1 <= f <= d
  {
    if k == 0 {
      f := 0;
    } else {
      f := SomeFirstLure(cost, n, inf, c, e, k - 1);
      if f == 0 && Lure(cost, n, inf, c, e, k) {
        f := k;
      }
    }
  }

  /** Two talents that share their first choice, one of which could go to column d instead, always have a second
      choice, and a first lure or none. */
  lemma ContestExists(cost: Matrix, n: nat, inf: real, C: real, c: nat, d: nat) returns (e: nat, f: nat)
    requires Square(cost, n) && n >= 2 && Bivalued(cost, n, inf, C) && PaddedRows(cost, n, inf, 2)
    requires FirstChoice(cost, n, inf, 1, c) && FirstChoice(cost, n, inf, 2, c)
    requires 1 <= d <= n && d != c && (Price(cost, n, 1, d) < inf || Price(cost, n, 2, d) < inf)
    ensures Contest(cost, n, inf, C, c, e, f)
  {
    hide Price, Bivalued, PaddedRows;
    e := FirstSecondChoice(cost, n, inf, c, n);
    f := SomeFirstLure(cost, n, inf, c, e, n);
    LuresAreColumns(cost, n, inf, c, e);
    Prices(cost, n, inf, C, 1, c);
    Prices(cost, n, inf, C, 2, c);
    Prices(cost, n, inf, C, 1, d);
    Prices(cost, n, inf, C, 2, d);
    Prices(cost, n, inf, C, 1, e);
    Prices(cost, n, inf, C, 2, e);
    assert Gap(cost, n, inf, c, e) <= Gap(cost, n, inf, c, d);
  }
}
