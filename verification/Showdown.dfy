/** Who wins which pot, and how a hand is settled. */
module Showdown {
  import opened Wrappers
  import opened Indexes
  import opened Players
  import opened Tables
  import opened Accessors
  import opened Betting
  import opened BettingSteps
  import opened Requests
  import opened Streets
  import opened Hands
  import opened Pots

  datatype Award = Award(player: nat, amt: int)

  // Winners

  ghost predicate IsBest(rank: nat -> int, players: seq<nat>, i: nat) {
    i in players && forall j :: j in players ==> rank(j) <= rank(i)
  }

  /** Pops players off the end while they rank as high as the first one popped. */
  method TakeBest(rank: nat -> int, sorted: seq<nat>) returns (won: seq<nat>, k: nat)
    requires Distinct(sorted) && sorted != []
    ensures k < |sorted| && Distinct(won) && forall i :: i in won <==> i in sorted[k..]
    ensures forall j :: k <= j < |sorted| ==> rank(sorted[j]) == rank(sorted[|sorted| - 1])
    ensures k > 0 ==> rank(sorted[k - 1]) != rank(sorted[|sorted| - 1])
  {
    var losers := sorted[..|sorted| - 1];
    var best := sorted[|sorted| - 1];
    won := [best];
    while losers != [] && rank(losers[|losers| - 1]) == rank(best)
      invariant |losers| < |sorted| && losers == sorted[..|losers|]
      invariant Distinct(won) && forall i :: i in won <==> i in sorted[|losers|..]
      invariant forall j :: |losers| <= j < |sorted| ==> rank(sorted[j]) == rank(best)
    {
      var n := |losers| - 1;
      assert sorted[n..] == [sorted[n]] + sorted[n + 1..] && sorted[n] !in sorted[n + 1..];
      won := won + [losers[n]];
      losers := losers[..n];
    }
    k := |losers|;
  }

  /** winners: the players are sorted by hand rank and the best are taken off the end. */
  method Winners(rank: nat -> int, players: seq<nat>) returns (r: Result<seq<nat>, Error>)
    requires Distinct(players)
    ensures r.Failure? <==> players == []
    ensures r.Failure? ==> r.error == NoWinner
    ensures r.Success? ==> Distinct(r.value)
    ensures r.Success? ==> forall i :: i in r.value <==> IsBest(rank, players, i)
  {
    var sorted := SortBy(players, rank);
    SortBySorted(players, rank);
    SortByPermutes(players, rank);
    SortByDistinct(players, rank);
    if sorted == [] {
      return Failure(NoWinner);
    }
    var won, k := TakeBest(rank, sorted);
    BestAreLast(rank, players, sorted, k);
    r := Success(won);
  }

  lemma BestAreLast(rank: nat -> int, players: seq<nat>, sorted: seq<nat>, k: nat)
    requires SortedBy(sorted, rank) && k < |sorted| && forall j :: j in sorted <==> j in players
    requires forall j :: k <= j < |sorted| ==> rank(sorted[j]) == rank(sorted[|sorted| - 1])
    requires k > 0 ==> rank(sorted[k - 1]) != rank(sorted[|sorted| - 1])
    ensures forall i :: i in sorted[k..] <==> IsBest(rank, players, i)
  {
    var last := |sorted| - 1;
    forall i ensures i in sorted[k..] <==> IsBest(rank, players, i) {
      if i in sorted[k..] {
        assert i in sorted && rank(i) == rank(sorted[last]);
      }
      if IsBest(rank, players, i) {
        assert sorted[last] in players && i in sorted;
        var j :| 0 <= j < |sorted| && sorted[j] == i;
        assert k > 0 ==> rank(sorted[k - 1]) < rank(sorted[last]);
        assert j >= k && sorted[k..][j - k] == i;
      }
    }
  }

  // One pot

  function ContributedTo(contributors: set<nat>): nat -> bool {
    (i: nat) => i in contributors
  }

  function BestAt(rank: nat -> int, players: seq<nat>): nat -> bool {
    (i: nat) => i in players && forall k :: 0 <= k < |players| ==> rank(players[k]) <= rank(i)
  }

  /** Those still in who contributed to the pot, in showdown order. */
  function Contenders(order: seq<nat>, pot: Pot): seq<nat> {
    Filter(order, ContributedTo(pot.contributors))
  }

  /** The best of them. */
  function PotWinners(order: seq<nat>, pot: Pot, rank: nat -> int): seq<nat> {
    Filter(order, BestAt(rank, Contenders(order, pot)))
  }

  /** In order, each gets the same, and the first few one smallest chip more. */
  function Shares(winners: seq<nat>, each: int, extra: int): seq<Award> {
    if winners == [] then []
    else
      var n := |winners| - 1;
      Shares(winners[..n], each, extra) + [Award(winners[n], if n < extra then each + 1 else each)]
  }

  function PotAwards(order: seq<nat>, pot: Pot, rank: nat -> int): Result<seq<Award>, Error> {
    var winners := PotWinners(order, pot, rank);
    if winners == [] then Failure(NoWinner)
    else Success(Shares(winners, pot.amt / |winners|, pot.amt % |winners|))
  }

  lemma BestAtIs(rank: nat -> int, players: seq<nat>)
    ensures forall i :: BestAt(rank, players)(i) <==> IsBest(rank, players, i)
  {
    assert forall k :: 0 <= k < |players| ==> players[k] in players;
  }

  lemma SameMembers(s: seq<nat>, r: seq<nat>)
    requires Distinct(s) && Distinct(r) && forall i :: i in s <==> i in r
    ensures |s| == |r|
  {
    SumOfPermuted(s, r, OneOf);
    SumOfOnes'(s);
    SumOfOnes'(r);
  }

  function OneOf(i: nat): int { 1 }

  lemma {:induction false} SumOfOnes'(s: seq<nat>)
    ensures SumOf(s, OneOf) == |s|
  {
    if s != [] {
      SumOfOnes'(s[1..]);
    }
  }

  lemma PotWinnersAre(order: seq<nat>, pot: Pot, rank: nat -> int)
    ensures forall i :: i in PotWinners(order, pot, rank) <==> IsBest(rank, Contenders(order, pot), i)
    ensures Distinct(order) ==> Distinct(PotWinners(order, pot, rank))
  {
    BestAtIs(rank, Contenders(order, pot));
    if Distinct(order) {
      FilterDistinct(order, BestAt(rank, Contenders(order, pot)));
    }
  }

  /** A pot finds a winner exactly when somebody still in contributed to it. */
  lemma PotIsContested(order: seq<nat>, pot: Pot, rank: nat -> int)
    ensures PotWinners(order, pot, rank) == [] <==> Contenders(order, pot) == []
  {
    var contenders := Contenders(order, pot);
    var winners := PotWinners(order, pot, rank);
    PotWinnersAre(order, pot, rank);
    if contenders != [] {
      SomeBest(rank, contenders);
      var i :| IsBest(rank, contenders, i);
      assert i in winners;
    }
    if winners != [] {
      assert winners[0] in winners;
      assert IsBest(rank, contenders, winners[0]);
    }
  }

  lemma Remainder(amt: int, n: int)
    requires n > 0
    ensures amt - amt / n * n == amt % n
  {
  }

  lemma SameWinners(order: seq<nat>, pot: Pot, rank: nat -> int, toPay: seq<nat>)
    requires Distinct(order) && Distinct(toPay)
    requires forall i :: i in toPay <==> IsBest(rank, Contenders(order, pot), i)
    ensures |toPay| == |PotWinners(order, pot, rank)|
    ensures forall i :: i in toPay <==> BestAt(rank, Contenders(order, pot))(i)
  {
    PotWinnersAre(order, pot, rank);
    BestAtIs(rank, Contenders(order, pot));
    SameMembers(toPay, PotWinners(order, pot, rank));
  }

  /** showdown_winnings_for_pot: shares go out in showdown order, the odd chips to the first. */
  method ShowdownWinningsForPot(order: seq<nat>, pot: Pot, rank: nat -> int) returns (r: Result<seq<Award>, Error>)
    requires Distinct(order)
    ensures r == PotAwards(order, pot, rank)
  {
    var contenders := Contenders(order, pot);
    FilterDistinct(order, ContributedTo(pot.contributors));
    PotIsContested(order, pot, rank);
    var toPay := Winners(rank, contenders);
    if toPay.Failure? {
      return Failure(NoWinner);
    }
    SameWinners(order, pot, rank, toPay.value);
    var n := |toPay.value|;
    Remainder(pot.amt, n);
    var awards := PayInOrder(order, toPay.value, pot.amt / n, pot.amt - pot.amt / n * n, BestAt(rank, contenders));
    r := Success(awards);
  }

  lemma {:induction false} SomeBest(rank: nat -> int, players: seq<nat>)
    requires players != []
    ensures exists i :: IsBest(rank, players, i)
  {
    if |players| == 1 {
      assert IsBest(rank, players, players[0]);
    } else {
      SomeBest(rank, players[1..]);
      var i :| IsBest(rank, players[1..], i);
      var best := if rank(i) < rank(players[0]) then players[0] else i;
      assert IsBest(rank, players, best);
    }
  }

  method PayInOrder(order: seq<nat>, toPay: seq<nat>, each: int, extra: int, ghost wins: nat -> bool)
      returns (awards: seq<Award>)
    requires forall i :: i in order ==> (i in toPay <==> wins(i))
    ensures awards == Shares(Filter(order, wins), each, extra)
  {
    awards := [];
    var paid := 0;
    var k := 0;
    while k < |order|
      invariant 0 <= k <= |order|
      invariant paid == |Filter(order[..k], wins)|
      invariant awards == Shares(Filter(order[..k], wins), each, extra)
    {
      assert order[..k + 1] == order[..k] + [order[k]];
      FilterAppend(order[..k], [order[k]], wins);
      assert Filter([order[k]], wins) == if wins(order[k]) then [order[k]] else [];
      if order[k] in toPay {
        SharesNext(Filter(order[..k], wins), order[k], each, extra);
        awards := awards + [Award(order[k], if paid < extra then each + 1 else each)];
        paid := paid + 1;
      } else {
        assert Filter(order[..k + 1], wins) == Filter(order[..k], wins);
      }
      k := k + 1;
    }
    assert order[..k] == order;
  }

  lemma {:induction false} SharesNext(winners: seq<nat>, i: nat, each: int, extra: int)
    ensures Shares(winners + [i], each, extra)
         == Shares(winners, each, extra) + [Award(i, if |winners| < extra then each + 1 else each)]
  {
    assert (winners + [i])[..|winners|] == winners;
  }

  // Fairness within a pot

  function SumAwards(awards: seq<Award>): int {
    if awards == [] then 0 else SumAwards(awards[..|awards| - 1]) + awards[|awards| - 1].amt
  }

  /** What one player gets out of a list of awards. */
  function AwardedTo(awards: seq<Award>, i: nat): int {
    if awards == [] then 0
    else
      var n := |awards| - 1;
      AwardedTo(awards[..n], i) + if awards[n].player == i then awards[n].amt else 0
  }

  lemma {:induction false} SharesAre(winners: seq<nat>, each: int, extra: int)
    ensures |Shares(winners, each, extra)| == |winners|
    ensures forall k :: 0 <= k < |winners| ==>
      Shares(winners, each, extra)[k] == Award(winners[k], if k < extra then each + 1 else each)
    decreases |winners|
  {
    if winners != [] {
      SharesAre(winners[..|winners| - 1], each, extra);
    }
  }

  lemma OneMoreShare(each: int, n: int)
    ensures each * (n + 1) == each * n + each
  {
  }

  lemma {:induction false} SharesSum(winners: seq<nat>, each: int, extra: int)
    requires 0 <= extra
    ensures SumAwards(Shares(winners, each, extra)) == each * |winners| + Min(extra, |winners|)
    decreases |winners|
  {
    if winners != [] {
      var n := |winners| - 1;
      SharesSum(winners[..n], each, extra);
      assert Shares(winners, each, extra)[..|Shares(winners, each, extra)| - 1] == Shares(winners[..n], each, extra);
      OneMoreShare(each, n);
    }
  }

  lemma PotSum(order: seq<nat>, pot: Pot, rank: nat -> int)
    requires PotAwards(order, pot, rank).Success?
    ensures SumAwards(PotAwards(order, pot, rank).value) == pot.amt
  {
    var winners := PotWinners(order, pot, rank);
    SharesSum(winners, pot.amt / |winners|, pot.amt % |winners|);
    Remainder(pot.amt, |winners|);
  }

  lemma QuotientNonNegative(amt: int, n: int)
    requires 0 <= amt && 0 < n
    ensures 0 <= amt / n
  {
  }

  lemma {:induction false} SharesNonNegative(winners: seq<nat>, each: int, extra: int)
    requires 0 <= each
    ensures forall k :: 0 <= k < |Shares(winners, each, extra)| ==> 0 <= Shares(winners, each, extra)[k].amt
  {
    SharesAre(winners, each, extra);
  }

  lemma PotShares(order: seq<nat>, pot: Pot, rank: nat -> int)
    requires PotAwards(order, pot, rank).Success? && 0 <= pot.amt
    ensures forall k :: 0 <= k < |PotAwards(order, pot, rank).value| ==> 0 <= PotAwards(order, pot, rank).value[k].amt
  {
    var winners := PotWinners(order, pot, rank);
    QuotientNonNegative(pot.amt, |winners|);
    SharesNonNegative(winners, pot.amt / |winners|, pot.amt % |winners|);
  }

  /**
   * A contested pot goes to exactly the best of those still in who contributed, in shares that add
   * up to the pot, never grow along the showdown order and differ by at most one smallest chip.
   */
  lemma PotIsFair(order: seq<nat>, pot: Pot, rank: nat -> int)
    requires Distinct(order) && PotAwards(order, pot, rank).Success?
    ensures
      var awards := PotAwards(order, pot, rank).value;
      var winners := PotWinners(order, pot, rank);
      && SumAwards(awards) == pot.amt
      && |awards| == |winners| && Distinct(winners)
      && (forall k :: 0 <= k < |awards| ==> awards[k].player == winners[k])
      && (forall i :: i in winners <==> IsBest(rank, Contenders(order, pot), i))
      && (forall j, k :: 0 <= j < k < |awards| ==> awards[k].amt <= awards[j].amt <= awards[k].amt + 1)
  {
    var winners := PotWinners(order, pot, rank);
    PotWinnersAre(order, pot, rank);
    PotSum(order, pot, rank);
    SharesAre(winners, pot.amt / |winners|, pot.amt % |winners|);
  }

  // All pots

  function ShowdownAwards(order: seq<nat>, pots: seq<Pot>, rank: nat -> int): Result<seq<Award>, Error>
    decreases |pots|
  {
    if pots == [] then Success([])
    else
      var n := |pots| - 1;
      var lower :- ShowdownAwards(order, pots[..n], rank);
      var awards :- PotAwards(order, pots[n], rank);
      Success(lower + awards)
  }

  function SoleAwards(winner: nat, pots: seq<Pot>): seq<Award> {
    if pots == [] then []
    else SoleAwards(winner, pots[..|pots| - 1]) + [Award(winner, pots[|pots| - 1].amt)]
  }

  /** wins_and_losses */
  function AwardsFor(t: Table, rank: nat -> int): Result<seq<Award>, Error>
    requires t.numSeats > 0
  {
    var players := ActingOrder(t);
    if |players| == 1 then Success(SoleAwards(players[0], SidePots(t)))
    else ShowdownAwards(players, SidePots(t), rank)
  }

  lemma {:induction false} SumAwardsAppend(a: seq<Award>, b: seq<Award>)
    ensures SumAwards(a + b) == SumAwards(a) + SumAwards(b)
    decreases |b|
  {
    if b == [] {
      assert a + b == a;
    } else {
      var n := |b| - 1;
      assert (a + b)[..|a + b| - 1] == a + b[..n];
      SumAwardsAppend(a, b[..n]);
    }
  }

  lemma {:induction false} SoleAwardsSum(winner: nat, pots: seq<Pot>)
    ensures SumAwards(SoleAwards(winner, pots)) == SumPots(pots)
    ensures forall k :: 0 <= k < |SoleAwards(winner, pots)| ==> SoleAwards(winner, pots)[k].player == winner
    decreases |pots|
  {
    if pots != [] {
      var n := |pots| - 1;
      SoleAwardsSum(winner, pots[..n]);
      assert SoleAwards(winner, pots)[..|SoleAwards(winner, pots)| - 1] == SoleAwards(winner, pots[..n]);
    }
  }

  ghost predicate Contested(order: seq<nat>, pots: seq<Pot>) {
    forall x :: 0 <= x < |pots| ==> Contenders(order, pots[x]) != []
  }

  lemma ContestedSplit(order: seq<nat>, pots: seq<Pot>)
    requires pots != []
    ensures Contested(order, pots) <==>
      Contested(order, pots[..|pots| - 1]) && Contenders(order, pots[|pots| - 1]) != []
  {
    var n := |pots| - 1;
    assert forall x :: 0 <= x < n ==> pots[..n][x] == pots[x];
  }

  /** The showdown pays out exactly when every pot is contested. */
  lemma {:induction false} ShowdownNeedsContest(order: seq<nat>, pots: seq<Pot>, rank: nat -> int)
    ensures ShowdownAwards(order, pots, rank).Success? <==> Contested(order, pots)
    ensures ShowdownAwards(order, pots, rank).Failure? ==> ShowdownAwards(order, pots, rank).error == NoWinner
    decreases |pots|
  {
    if pots != [] {
      ShowdownNeedsContest(order, pots[..|pots| - 1], rank);
      PotIsContested(order, pots[|pots| - 1], rank);
      ContestedSplit(order, pots);
    }
  }

  lemma {:induction false} ShowdownAwardsSum(order: seq<nat>, pots: seq<Pot>, rank: nat -> int)
    requires ShowdownAwards(order, pots, rank).Success?
    ensures SumAwards(ShowdownAwards(order, pots, rank).value) == SumPots(pots)
    decreases |pots|
  {
    if pots != [] {
      var n := |pots| - 1;
      ShowdownAwardsSum(order, pots[..n], rank);
      PotSum(order, pots[n], rank);
      SumAwardsAppend(ShowdownAwards(order, pots[..n], rank).value, PotAwards(order, pots[n], rank).value);
    }
  }

  lemma PotPlayers(order: seq<nat>, pot: Pot, rank: nat -> int)
    requires PotAwards(order, pot, rank).Success?
    ensures forall k :: 0 <= k < |PotAwards(order, pot, rank).value| ==>
      PotAwards(order, pot, rank).value[k].player in order &&
      PotAwards(order, pot, rank).value[k].player in pot.contributors
  {
    var winners := PotWinners(order, pot, rank);
    SharesAre(winners, pot.amt / |winners|, pot.amt % |winners|);
    forall k | 0 <= k < |winners| ensures winners[k] in order && winners[k] in pot.contributors {
      assert winners[k] in winners;
      assert winners[k] in Contenders(order, pot);
    }
  }

  lemma {:induction false} ShowdownPaysOrder(order: seq<nat>, pots: seq<Pot>, rank: nat -> int)
    requires ShowdownAwards(order, pots, rank).Success?
    ensures forall k :: 0 <= k < |ShowdownAwards(order, pots, rank).value| ==>
      ShowdownAwards(order, pots, rank).value[k].player in order
    decreases |pots|
  {
    if pots != [] {
      var n := |pots| - 1;
      ShowdownPaysOrder(order, pots[..n], rank);
      PotPlayers(order, pots[n], rank);
    }
  }

  // The cap

  lemma {:induction false} AwardedToAppend(a: seq<Award>, b: seq<Award>, i: nat)
    ensures AwardedTo(a + b, i) == AwardedTo(a, i) + AwardedTo(b, i)
    decreases |b|
  {
    if b == [] {
      assert a + b == a;
    } else {
      var n := |b| - 1;
      assert (a + b)[..|a + b| - 1] == a + b[..n];
      AwardedToAppend(a, b[..n], i);
    }
  }

  lemma {:induction false} AwardedWithin(awards: seq<Award>, i: nat)
    requires forall k :: 0 <= k < |awards| ==> 0 <= awards[k].amt
    ensures 0 <= AwardedTo(awards, i) <= SumAwards(awards)
    ensures (forall k :: 0 <= k < |awards| ==> awards[k].player != i) ==> AwardedTo(awards, i) == 0
    decreases |awards|
  {
    if awards != [] {
      AwardedWithin(awards[..|awards| - 1], i);
    }
  }

  lemma {:induction false} PotPaysContributors(order: seq<nat>, pot: Pot, rank: nat -> int, i: nat)
    requires PotAwards(order, pot, rank).Success? && 0 <= pot.amt
    ensures AwardedTo(PotAwards(order, pot, rank).value, i) <= if i in pot.contributors then pot.amt else 0
  {
    PotSum(order, pot, rank);
    PotShares(order, pot, rank);
    PotPlayers(order, pot, rank);
    AwardedWithin(PotAwards(order, pot, rank).value, i);
  }

  /** Nobody wins more than the pots they contributed to hold. */
  lemma {:induction false} WinsAreCapped(order: seq<nat>, pots: seq<Pot>, rank: nat -> int, i: nat)
    requires ShowdownAwards(order, pots, rank).Success?
    requires forall x :: 0 <= x < |pots| ==> 0 <= pots[x].amt
    ensures AwardedTo(ShowdownAwards(order, pots, rank).value, i) <= SumContaining(pots, i)
    decreases |pots|
  {
    if pots != [] {
      var n := |pots| - 1;
      WinsAreCapped(order, pots[..n], rank, i);
      PotPaysContributors(order, pots[n], rank, i);
      AwardedToAppend(ShowdownAwards(order, pots[..n], rank).value, PotAwards(order, pots[n], rank).value, i);
    }
  }
}
