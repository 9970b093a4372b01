/** How the money in the middle splits into a main pot and side pots. */
module Pots {
  import opened Wrappers
  import opened Indexes
  import opened Players
  import opened Tables
  import opened Accessors
  import opened Betting

  datatype Pot = Pot(amt: int, contributors: set<nat>)

  function WagerAt(t: Table): nat -> int {
    (i: nat) => if i < |t.players| then t.players[i].wagers else 0
  }

  function DeadAt(t: Table): nat -> int {
    (i: nat) => if i < |t.players| then t.players[i].dead else 0
  }

  function Actives(t: Table): seq<nat>
    requires t.numSeats > 0
  {
    ActivePlayers(t, StartPos(t))
  }

  function MaxOf(s: seq<nat>, f: nat -> int): int {
    if s == [] then 0 else var m := MaxOf(s[1..], f); if f(s[0]) > m then f(s[0]) else m
  }

  lemma {:induction false} MaxOfBounds(s: seq<nat>, f: nat -> int)
    ensures 0 <= MaxOf(s, f)
    ensures forall i :: i in s ==> f(i) <= MaxOf(s, f)
    ensures MaxOf(s, f) > 0 ==> exists i :: i in s && f(i) == MaxOf(s, f)
  {
    if s != [] {
      MaxOfBounds(s[1..], f);
      if MaxOf(s, f) > 0 && f(s[0]) <= MaxOf(s[1..], f) {
        var i :| i in s[1..] && f(i) == MaxOf(s[1..], f);
        assert i in s;
      }
    }
  }

  /** The largest wager of an active player. */
  function TopWager(t: Table): int
    requires t.numSeats > 0
  {
    MaxOf(Actives(t), WagerAt(t))
  }

  /** Still in, out of chips, with something wagered but less than somebody else. */
  function MemberAt(t: Table): nat -> bool
    requires t.numSeats > 0
  {
    var top := TopWager(t);
    (i: nat) => i < |t.players| && t.players[i].wagers > 0 && t.players[i].stack == 0 &&
      t.players[i].last != Some(ActFold) && t.players[i].last != Some(ActSitIn) && t.players[i].wagers < top
  }

  /** sidepot_members, in the order sidepot_summary sorts them. */
  function SidepotMembers(t: Table): seq<nat>
    requires t.numSeats > 0
  {
    SortBy(Filter(ActivePlayers(t, 0), MemberAt(t)), WagerAt(t))
  }

  // The specification: one pot per distinct all-in amount, and one above them all

  /** What each player has between lo and hi. */
  function SliceAt(t: Table, lo: int, hi: int): nat -> int {
    (i: nat) => Min(WagerAt(t)(i), hi) - Min(WagerAt(t)(i), lo)
  }

  function Layer(t: Table, lo: int, hi: int): int
    requires t.numSeats > 0
  {
    SumOf(Actives(t), SliceAt(t, lo, hi))
  }

  function Above(t: Table, s: seq<nat>, lo: int): set<nat> {
    set i | i in s && WagerAt(t)(i) > lo
  }

  function Contributors(t: Table, lo: int): set<nat>
    requires t.numSeats > 0
  {
    Above(t, Actives(t), lo)
  }

  function DeadMoney(t: Table): int
    requires t.numSeats > 0
  {
    SumOf(Actives(t), DeadAt(t))
  }

  function LastOf(levels: seq<int>): int {
    if levels == [] then 0 else levels[|levels| - 1]
  }

  /** The distinct positive values among the first k of an ascending list. */
  function Levels(amounts: seq<int>, k: nat): seq<int>
    requires k <= |amounts|
  {
    if k == 0 then []
    else
      var levels := Levels(amounts, k - 1);
      if amounts[k - 1] > LastOf(levels) then levels + [amounts[k - 1]] else levels
  }

  /** The all-in amounts, in the order sidepot_summary meets them. */
  function Amounts(t: Table): seq<int>
    requires t.numSeats > 0
  {
    seq(|SidepotMembers(t)|, k requires 0 <= k < |SidepotMembers(t)| => WagerAt(t)(SidepotMembers(t)[k]))
  }

  function PotsUpTo(t: Table, levels: seq<int>): seq<Pot>
    requires t.numSeats > 0
  {
    if levels == [] then []
    else
      var n := |levels| - 1;
      var lo := LastOf(levels[..n]);
      var dead := if n == 0 then DeadMoney(t) else 0;
      PotsUpTo(t, levels[..n]) + [Pot(dead + Layer(t, lo, levels[n]), Contributors(t, lo))]
  }

  function AllLevels(t: Table): seq<int>
    requires t.numSeats > 0
  {
    Levels(Amounts(t), |Amounts(t)|)
  }

  /** The pot above the last all-in amount. */
  function TopPot(t: Table): Pot
    requires t.numSeats > 0
  {
    var levels := AllLevels(t);
    var dead := if levels == [] then DeadMoney(t) else 0;
    Pot(dead + Layer(t, LastOf(levels), TopWager(t)), Contributors(t, LastOf(levels)))
  }

  function SidePots(t: Table): seq<Pot>
    requires t.numSeats > 0
  {
    PotsUpTo(t, AllLevels(t)) + if TopPot(t).amt != 0 then [TopPot(t)] else []
  }

  // The loop

  /** The inner loop: what the active players have between two all-in amounts. */
  method CollectLayer(t: Table, actives: seq<nat>, lo: int, hi: int) returns (amt: int, contributors: set<nat>)
    requires lo < hi
    ensures amt == SumOf(actives, SliceAt(t, lo, hi))
    ensures contributors == Above(t, actives, lo)
  {
    amt, contributors := 0, {};
    var k := 0;
    while k < |actives|
      invariant 0 <= k <= |actives|
      invariant amt == SumOf(actives[..k], SliceAt(t, lo, hi))
      invariant contributors == Above(t, actives[..k], lo)
    {
      var w := WagerAt(t)(actives[k]);
      assert actives[..k + 1] == actives[..k] + [actives[k]];
      SumOfSnoc(actives[..k], actives[k], SliceAt(t, lo, hi));
      if lo < w < hi {
        amt := amt + (w - lo);
        contributors := contributors + {actives[k]};
      } else if hi <= w {
        amt := amt + (hi - lo);
        contributors := contributors + {actives[k]};
      }
      k := k + 1;
    }
    assert actives[..k] == actives;
  }

  function RestAt(t: Table, lo: int): nat -> int {
    (i: nat) => if WagerAt(t)(i) > lo then WagerAt(t)(i) - lo else 0
  }

  lemma RestIsLayer(t: Table, lo: int)
    requires t.numSeats > 0
    ensures SumOf(Actives(t), RestAt(t, lo)) == Layer(t, lo, TopWager(t))
  {
    MaxOfBounds(Actives(t), WagerAt(t));
    SumOfSame(Actives(t), RestAt(t, lo), SliceAt(t, lo, TopWager(t)));
  }

  lemma {:induction false} PotsNext(t: Table, levels: seq<int>, w: int, sidepot: int, amt: int, contributors: set<nat>)
    requires t.numSeats > 0 && sidepot == if levels == [] then DeadMoney(t) else 0
    requires amt == Layer(t, LastOf(levels), w) && contributors == Contributors(t, LastOf(levels))
    ensures PotsUpTo(t, levels + [w]) == PotsUpTo(t, levels) + [Pot(sidepot + amt, contributors)]
  {
    var all := levels + [w];
    assert all != [] && all[..|all| - 1] == levels && all[|all| - 1] == w;
  }

  lemma {:induction false} LevelsNext(amounts: seq<int>, k: nat)
    requires k < |amounts|
    ensures
      var levels := Levels(amounts, k);
      Levels(amounts, k + 1) == if amounts[k] > LastOf(levels) then levels + [amounts[k]] else levels
  {
  }

  /** The outer loop, with the money that has not gone into a pot yet. */
  method CollectPots(t: Table, amounts: seq<int>) returns (pots: seq<Pot>, last: int, sidepot: int)
    requires t.numSeats > 0
    ensures
      var levels := Levels(amounts, |amounts|);
      pots == PotsUpTo(t, levels) && last == LastOf(levels) && sidepot == if levels == [] then DeadMoney(t) else 0
  {
    pots, last, sidepot := [], 0, DeadMoney(t);
    ghost var levels := [];
    var k := 0;
    while k < |amounts|
      invariant 0 <= k <= |amounts|
      invariant levels == Levels(amounts, k)
      invariant pots == PotsUpTo(t, levels) && last == LastOf(levels)
      invariant sidepot == if levels == [] then DeadMoney(t) else 0
    {
      LevelsNext(amounts, k);
      var allin := amounts[k];
      if allin > last {
        var amt, contributors := CollectLayer(t, Actives(t), last, allin);
        PotsNext(t, levels, allin, sidepot, amt, contributors);
        pots := pots + [Pot(sidepot + amt, contributors)];
        last, sidepot := allin, 0;
        levels := levels + [allin];
      }
      k := k + 1;
    }
  }

  /** sidepot_summary */
  method SidepotSummary(t: Table) returns (pots: seq<Pot>)
    requires t.numSeats > 0
    ensures pots == SidePots(t)
  {
    var last, sidepot;
    pots, last, sidepot := CollectPots(t, Amounts(t));
    RestIsLayer(t, last);
    var lastPot := sidepot + SumOf(Actives(t), RestAt(t, last));
    if lastPot != 0 {
      pots := pots + [Pot(lastPot, Contributors(t, last))];
    }
  }

  // What the pots come to

  function SumPots(pots: seq<Pot>): int {
    if pots == [] then 0 else SumPots(pots[..|pots| - 1]) + pots[|pots| - 1].amt
  }

  /** The pots that a player can win from. */
  function SumContaining(pots: seq<Pot>, i: nat): int {
    if pots == [] then 0
    else
      var n := |pots| - 1;
      SumContaining(pots[..n], i) + if i in pots[n].contributors then pots[n].amt else 0
  }

  function ContributedAt(t: Table): nat -> int {
    (i: nat) => WagerAt(t)(i) + DeadAt(t)(i)
  }

  /** current_pot */
  function CurrentPot(t: Table): int
    requires t.numSeats > 0
  {
    SumOf(Actives(t), ContributedAt(t))
  }

  lemma {:induction false} SumOfPlus(s: seq<nat>, f: nat -> int, g: nat -> int, h: nat -> int)
    requires forall i :: i in s ==> f(i) + g(i) == h(i)
    ensures SumOf(s, f) + SumOf(s, g) == SumOf(s, h)
  {
    if s != [] {
      SumOfPlus(s[1..], f, g, h);
    }
  }

  lemma LayersAdd(t: Table, a: int, b: int, c: int)
    requires t.numSeats > 0
    ensures Layer(t, a, b) + Layer(t, b, c) == Layer(t, a, c)
  {
    SumOfPlus(Actives(t), SliceAt(t, a, b), SliceAt(t, b, c), SliceAt(t, a, c));
  }

  lemma {:induction false} PotsUpToSum(t: Table, levels: seq<int>)
    requires t.numSeats > 0
    ensures SumPots(PotsUpTo(t, levels)) == (if levels == [] then 0 else DeadMoney(t)) + Layer(t, 0, LastOf(levels))
    decreases |levels|
  {
    if levels == [] {
      LayersAdd(t, 0, 0, 0);
    } else {
      var n := |levels| - 1;
      PotsUpToSum(t, levels[..n]);
      LayersAdd(t, 0, LastOf(levels[..n]), levels[n]);
      assert PotsUpTo(t, levels)[..|PotsUpTo(t, levels)| - 1] == PotsUpTo(t, levels[..n]);
    }
  }

  lemma LayerToTop(t: Table)
    requires t.numSeats > 0 && forall i :: i in Actives(t) ==> 0 <= WagerAt(t)(i)
    ensures DeadMoney(t) + Layer(t, 0, TopWager(t)) == CurrentPot(t)
  {
    MaxOfBounds(Actives(t), WagerAt(t));
    SumOfPlus(Actives(t), DeadAt(t), SliceAt(t, 0, TopWager(t)), ContributedAt(t));
  }

  /** The pots hold exactly the money in the middle. */
  lemma PotsAddUp(t: Table)
    requires t.numSeats > 0 && forall i :: i in Actives(t) ==> 0 <= WagerAt(t)(i)
    ensures SumPots(SidePots(t)) == CurrentPot(t)
  {
    var levels := AllLevels(t);
    var lower := PotsUpTo(t, levels);
    PotsUpToSum(t, levels);
    LayersAdd(t, 0, LastOf(levels), TopWager(t));
    LayerToTop(t);
    if TopPot(t).amt != 0 {
      assert (lower + [TopPot(t)])[..|lower|] == lower;
    } else {
      assert SidePots(t) == lower;
    }
  }

  // The all-in amounts

  ghost predicate Increasing(levels: seq<int>) {
    && (forall x :: 0 <= x < |levels| ==> 0 < levels[x])
    && forall x, y :: 0 <= x < y < |levels| ==> levels[x] < levels[y]
  }

  lemma {:induction false} LevelsAre(amounts: seq<int>, k: nat)
    requires k <= |amounts|
    requires forall j :: 0 <= j < |amounts| ==> 0 < amounts[j]
    requires forall i, j :: 0 <= i < j < |amounts| ==> amounts[i] <= amounts[j]
    ensures Increasing(Levels(amounts, k))
    ensures k > 0 ==> LastOf(Levels(amounts, k)) == amounts[k - 1]
    ensures forall j :: 0 <= j < k ==> amounts[j] in Levels(amounts, k)
    ensures forall x :: x in Levels(amounts, k) ==> x in amounts
    decreases k
  {
    if k > 0 {
      LevelsAre(amounts, k - 1);
    }
  }

  lemma MembersAre(t: Table)
    requires Seating(t)
    ensures SortedBy(SidepotMembers(t), WagerAt(t))
    ensures forall i :: i in SidepotMembers(t) <==> i in Actives(t) && MemberAt(t)(i)
  {
    var members := Filter(ActivePlayers(t, 0), MemberAt(t));
    SortBySorted(members, WagerAt(t));
    SortByPermutes(members, WagerAt(t));
    ActivePlayersComplete(t, 0);
    ActivePlayersComplete(t, StartPos(t));
  }

  lemma AmountsAre(t: Table)
    requires Seating(t)
    ensures forall j :: 0 <= j < |Amounts(t)| ==> 0 < Amounts(t)[j]
    ensures forall i, j :: 0 <= i < j < |Amounts(t)| ==> Amounts(t)[i] <= Amounts(t)[j]
  {
    MembersAre(t);
    forall j | 0 <= j < |Amounts(t)| ensures 0 < Amounts(t)[j] {
      assert SidepotMembers(t)[j] in SidepotMembers(t);
    }
  }

  lemma AllLevelsIncrease(t: Table)
    requires Seating(t)
    ensures Increasing(AllLevels(t))
  {
    AmountsAre(t);
    LevelsAre(Amounts(t), |Amounts(t)|);
  }

  /** A member's wager is a level. */
  lemma MemberHasLevel(t: Table, i: nat)
    requires Seating(t) && i in Actives(t) && MemberAt(t)(i)
    ensures WagerAt(t)(i) in AllLevels(t)
  {
    AmountsAre(t);
    MembersAre(t);
    LevelsAre(Amounts(t), |Amounts(t)|);
    var j :| 0 <= j < |SidepotMembers(t)| && SidepotMembers(t)[j] == i;
    assert Amounts(t)[j] == WagerAt(t)(i);
  }

  /** A level is a member's wager. */
  lemma LevelHasMember(t: Table, x: nat) returns (i: nat)
    requires Seating(t) && x < |AllLevels(t)|
    ensures i in Actives(t) && MemberAt(t)(i) && WagerAt(t)(i) == AllLevels(t)[x]
  {
    AmountsAre(t);
    MembersAre(t);
    LevelsAre(Amounts(t), |Amounts(t)|);
    assert AllLevels(t)[x] in AllLevels(t);
    var j :| 0 <= j < |Amounts(t)| && Amounts(t)[j] == AllLevels(t)[x];
    i := SidepotMembers(t)[j];
    assert i in SidepotMembers(t);
  }

  // Who contributes to which pot

  lemma {:induction false} PotAt(t: Table, levels: seq<int>, x: nat)
    requires t.numSeats > 0 && x < |levels|
    ensures |PotsUpTo(t, levels)| == |levels|
    ensures PotsUpTo(t, levels)[x].contributors == Contributors(t, LastOf(levels[..x]))
    decreases |levels|
  {
    var n := |levels| - 1;
    if n > 0 {
      PotAt(t, levels[..n], if x < n then x else 0);
    }
    assert x < n ==> levels[..n][..x] == levels[..x];
  }

  /** The amount above which a player contributes to pot x. */
  function Floor(t: Table, x: nat): int
    requires t.numSeats > 0 && x <= |AllLevels(t)|
  {
    LastOf(AllLevels(t)[..x])
  }

  lemma PotFloor(t: Table, x: nat)
    requires t.numSeats > 0 && x < |SidePots(t)|
    ensures |AllLevels(t)| <= |SidePots(t)| <= |AllLevels(t)| + 1
    ensures SidePots(t)[x].contributors == Contributors(t, Floor(t, x))
  {
    var levels := AllLevels(t);
    AsManyPots(t, levels);
    LowerOrTop(PotsUpTo(t, levels), TopPot(t), x);
    if x < |levels| {
      PotAt(t, levels, x);
    } else {
      assert levels[..x] == levels;
    }
  }

  lemma AsManyPots(t: Table, levels: seq<int>)
    requires t.numSeats > 0
    ensures |PotsUpTo(t, levels)| == |levels|
  {
    if levels != [] {
      PotAt(t, levels, 0);
    }
  }

  lemma LowerOrTop(pots: seq<Pot>, top: Pot, x: nat)
    requires x < |pots + if top.amt != 0 then [top] else []|
    ensures (pots + if top.amt != 0 then [top] else [])[x] == if x < |pots| then pots[x] else top
  {
  }

  lemma ContributorsShrink(t: Table, lo: int, hi: int, i: nat)
    requires t.numSeats > 0 && lo <= hi && i in Actives(t) && lo < WagerAt(t)(i) <= hi
    ensures Contributors(t, hi) < Contributors(t, lo)
  {
    assert i in Contributors(t, lo) && i !in Contributors(t, hi);
  }

  lemma FloorsIncrease(t: Table, x: nat, y: nat)
    requires Seating(t) && x < y <= |AllLevels(t)|
    ensures Floor(t, x) < AllLevels(t)[x] <= Floor(t, y)
  {
    AllLevelsIncrease(t);
    assert Floor(t, y) == AllLevels(t)[y - 1];
  }

  /** Each pot is contested by strictly fewer players than the one before. */
  lemma PotsNest(t: Table, x: nat, y: nat)
    requires Seating(t) && x < y < |SidePots(t)|
    ensures SidePots(t)[y].contributors < SidePots(t)[x].contributors
  {
    PotFloor(t, x);
    PotFloor(t, y);
    FloorsIncrease(t, x, y);
    var i := LevelHasMember(t, x);
    ContributorsShrink(t, Floor(t, x), Floor(t, y), i);
  }

  // What an all-in player can win

  function CapAt(t: Table, cap: int): nat -> int {
    (i: nat) => Min(WagerAt(t)(i), cap)
  }

  lemma {:induction false} ContainingNext(t: Table, levels: seq<int>, i: nat)
    requires t.numSeats > 0 && levels != [] && i in Actives(t)
    ensures
      var n := |levels| - 1;
      var lo := LastOf(levels[..n]);
      SumContaining(PotsUpTo(t, levels), i) == SumContaining(PotsUpTo(t, levels[..n]), i) +
        if WagerAt(t)(i) > lo then (if n == 0 then DeadMoney(t) else 0) + Layer(t, lo, levels[n]) else 0
  {
    var n := |levels| - 1;
    var lower := PotsUpTo(t, levels[..n]);
    assert PotsUpTo(t, levels)[..|lower|] == lower;
  }

  /** Everything below the smaller of w and the last level, with the dead money. */
  function UpTo(t: Table, levels: seq<int>, w: int): int
    requires t.numSeats > 0
  {
    (if levels == [] then 0 else DeadMoney(t)) + Layer(t, 0, Min(w, LastOf(levels)))
  }

  lemma ReachesBelow(levels: seq<int>, w: int)
    requires Increasing(levels) && levels != [] && (w in levels || LastOf(levels) <= w)
    ensures
      var lo := LastOf(levels[..|levels| - 1]);
      lo < LastOf(levels) && (w in levels[..|levels| - 1] || lo <= w) && (w <= lo || LastOf(levels) <= w)
  {
    var n := |levels| - 1;
    assert levels == levels[..n] + [levels[n]];
    assert forall x :: x in levels[..n] ==> x <= LastOf(levels[..n]);
  }

  lemma UpToNext(t: Table, levels: seq<int>, w: int)
    requires t.numSeats > 0 && Increasing(levels) && levels != [] && 0 < w
    requires w in levels || LastOf(levels) <= w
    ensures
      var n := |levels| - 1;
      var lo := LastOf(levels[..n]);
      UpTo(t, levels, w) == UpTo(t, levels[..n], w) +
        if w > lo then (if n == 0 then DeadMoney(t) else 0) + Layer(t, lo, levels[n]) else 0
  {
    var n := |levels| - 1;
    ReachesBelow(levels, w);
    LayersAdd(t, 0, LastOf(levels[..n]), levels[n]);
  }

  lemma {:induction false} ContainingUpTo(t: Table, levels: seq<int>, i: nat)
    requires t.numSeats > 0 && Increasing(levels) && i in Actives(t) && 0 < WagerAt(t)(i)
    requires WagerAt(t)(i) in levels || LastOf(levels) <= WagerAt(t)(i)
    ensures SumContaining(PotsUpTo(t, levels), i) == UpTo(t, levels, WagerAt(t)(i))
    decreases |levels|
  {
    if levels == [] {
      LayersAdd(t, 0, 0, 0);
    } else {
      ContainingNext(t, levels, i);
      UpToNext(t, levels, WagerAt(t)(i));
      ReachesBelow(levels, WagerAt(t)(i));
      ContainingUpTo(t, levels[..|levels| - 1], i);
    }
  }

  lemma {:induction false} SidePotsContaining(t: Table, i: nat)
    requires t.numSeats > 0
    ensures SumContaining(SidePots(t), i) == SumContaining(PotsUpTo(t, AllLevels(t)), i) +
      if i in TopPot(t).contributors then TopPot(t).amt else 0
  {
    var lower := PotsUpTo(t, AllLevels(t));
    if TopPot(t).amt != 0 {
      assert (lower + [TopPot(t)])[..|lower|] == lower;
    } else {
      assert SidePots(t) == lower;
    }
  }

  lemma CapIsLayer(t: Table, cap: int)
    requires t.numSeats > 0 && 0 <= cap && forall i :: i in Actives(t) ==> 0 <= WagerAt(t)(i)
    ensures Layer(t, 0, cap) == SumOf(Actives(t), CapAt(t, cap))
  {
    SumOfSame(Actives(t), SliceAt(t, 0, cap), CapAt(t, cap));
  }

  lemma LastLevelBelow(t: Table, i: nat)
    requires Seating(t) && i in Actives(t) && WagerAt(t)(i) == TopWager(t)
    ensures LastOf(AllLevels(t)) <= WagerAt(t)(i)
  {
    MaxOfBounds(Actives(t), WagerAt(t));
    if AllLevels(t) != [] {
      var j := LevelHasMember(t, |AllLevels(t)| - 1);
    }
  }

  lemma LevelIsAtMostLast(levels: seq<int>, w: int)
    requires Increasing(levels) && w in levels
    ensures levels != [] && w <= LastOf(levels)
  {
  }

  /** The pots an all-in player shares in hold the dead money and each wager up to the player's own. */
  lemma {:induction false} AllInPotsAreCapped(t: Table, i: nat)
    requires Seating(t) && forall j :: j in Actives(t) ==> 0 <= WagerAt(t)(j)
    requires i in Actives(t) && 0 < WagerAt(t)(i) && (MemberAt(t)(i) || WagerAt(t)(i) == TopWager(t))
    ensures SumContaining(SidePots(t), i) == DeadMoney(t) + SumOf(Actives(t), CapAt(t, WagerAt(t)(i)))
  {
    var levels := AllLevels(t);
    var w := WagerAt(t)(i);
    AllLevelsIncrease(t);
    if MemberAt(t)(i) {
      MemberHasLevel(t, i);
      LevelIsAtMostLast(levels, w);
    } else {
      LastLevelBelow(t, i);
      LayersAdd(t, 0, LastOf(levels), w);
    }
    ContainingUpTo(t, levels, i);
    SidePotsContaining(t, i);
    CapIsLayer(t, w);
    LayersAdd(t, w, w, w);
    assert i in TopPot(t).contributors <==> w > LastOf(levels);
  }

  // No pot is negative

  lemma {:induction false} SumOfNonNegative(s: seq<nat>, f: nat -> int)
    requires forall i :: i in s ==> 0 <= f(i)
    ensures 0 <= SumOf(s, f)
  {
    if s != [] {
      SumOfNonNegative(s[1..], f);
    }
  }

  lemma LayerNonNegative(t: Table, lo: int, hi: int)
    requires t.numSeats > 0 && lo <= hi
    ensures 0 <= Layer(t, lo, hi)
  {
    forall i: nat ensures 0 <= SliceAt(t, lo, hi)(i) {
      assert Min(WagerAt(t)(i), lo) <= Min(WagerAt(t)(i), hi);
    }
    SumOfNonNegative(Actives(t), SliceAt(t, lo, hi));
  }

  lemma {:induction false} PotsUpToNonNegative(t: Table, levels: seq<int>)
    requires t.numSeats > 0 && Increasing(levels) && 0 <= DeadMoney(t)
    ensures forall x :: 0 <= x < |PotsUpTo(t, levels)| ==> 0 <= PotsUpTo(t, levels)[x].amt
    decreases |levels|
  {
    if levels != [] {
      var n := |levels| - 1;
      PotsUpToNonNegative(t, levels[..n]);
      LayerNonNegative(t, LastOf(levels[..n]), levels[n]);
    }
  }

  lemma LastBelowTop(t: Table)
    requires Seating(t)
    ensures TopWager(t) >= 0 && LastOf(AllLevels(t)) >= 0
    ensures AllLevels(t) != [] ==> LastOf(AllLevels(t)) < TopWager(t)
  {
    MaxOfBounds(Actives(t), WagerAt(t));
    AllLevelsIncrease(t);
    if AllLevels(t) != [] {
      var j := LevelHasMember(t, |AllLevels(t)| - 1);
    }
  }

  lemma PotsNonNegative(t: Table)
    requires Seating(t) && forall i :: i in Actives(t) ==> 0 <= DeadAt(t)(i)
    ensures forall x :: 0 <= x < |SidePots(t)| ==> 0 <= SidePots(t)[x].amt
  {
    AllLevelsIncrease(t);
    SumOfNonNegative(Actives(t), DeadAt(t));
    PotsUpToNonNegative(t, AllLevels(t));
    LastBelowTop(t);
    LayerNonNegative(t, LastOf(AllLevels(t)), TopWager(t));
    forall x: nat | x < |SidePots(t)| ensures 0 <= SidePots(t)[x].amt {
      LowerOrTop(PotsUpTo(t, AllLevels(t)), TopPot(t), x);
    }
  }
}
