/** A hand dealt from one deck: every card is in one place, and a showdown pays those nobody beats. */
module FairShowdown {
  import opened Wrappers
  import opened Indexes
  import opened Players
  import opened Tables
  import opened Accessors
  import opened Betting
  import opened BettingSteps
  import opened Streets
  import opened Hands
  import opened Play
  import opened Pots
  import opened Showdown
  import opened Settlement
  import opened Endings
  import opened Cards
  import opened Rankings
  import opened BestHands
  import opened Openings
  import opened WholeHands

  // Every card is in one place

  /** No card is twice in the deck, on the board or in hands. */
  ghost predicate OneDeck(t: Table) {
    forall c :: CardsOf(t)[c] <= 1
  }

  lemma {:induction false} HeldBoth(ps: seq<PlayerState>, i: nat, j: nat)
    requires i < |ps| && j < |ps| && i != j
    ensures multiset(ps[i].cards) + multiset(ps[j].cards) <= Held(ps)
  {
    var rest := ps[i := ps[i].(cards := [])];
    HeldWithout(ps, i);
    HeldWithout(rest, j);
    assert rest[j] == ps[j];
  }

  lemma {:induction false} OnceEachDiffers(s: seq<Card>)
    requires forall c :: multiset(s)[c] <= 1
    ensures Different(s)
  {
    forall j, k | 0 <= j < k < |s| ensures s[j] != s[k] {
      assert s == s[..j] + [s[j]] + s[j + 1..k] + [s[k]] + s[k + 1..];
      assert multiset(s)[s[j]] <= 1;
    }
  }

  /** The deck, the board and two hands share no card. */
  lemma InOnePlace(t: Table, i: nat, j: nat)
    requires OneDeck(t) && i < |t.players| && j < |t.players| && i != j
    ensures Different(t.deck + t.board + t.players[i].cards + t.players[j].cards)
  {
    HeldBoth(t.players, i, j);
    var all := t.deck + t.board + t.players[i].cards + t.players[j].cards;
    assert multiset(all) ==
      multiset(t.deck) + multiset(t.board) + (multiset(t.players[i].cards) + multiset(t.players[j].cards));
    forall c ensures multiset(all)[c] <= 1 {
      assert CardsOf(t)[c] <= 1;
    }
    OnceEachDiffers(all);
  }

  /** What a hand is ranked by has no card twice. */
  lemma SevenDiffer(t: Table, i: nat)
    requires OneDeck(t) && i < |t.players|
    ensures Different(t.players[i].cards + t.board)
  {
    HeldWithout(t.players, i);
    var all := t.players[i].cards + t.board;
    assert multiset(all) == multiset(t.players[i].cards) + multiset(t.board);
    forall c ensures multiset(all)[c] <= 1 {
      assert CardsOf(t)[c] <= 1;
    }
    OnceEachDiffers(all);
  }

  lemma FewerIsOneDeck(t: Table, w: Table)
    requires Ready(t) && multiset(t.deck) == multiset(FullDeck()) && CardsOf(w) <= CardsOf(t)
    ensures OneDeck(w)
  {
    IdleHoldNothing(t);
    forall c ensures CardsOf(w)[c] <= 1 {
      EachCardOnce(c);
      assert CardsOf(w)[c] <= CardsOf(t)[c];
    }
  }

  lemma FewerIsOne(w: Table, r: Table)
    requires OneDeck(w) && CardsOf(r) <= CardsOf(w)
    ensures OneDeck(r)
  {
    forall c ensures CardsOf(r)[c] <= 1 {
      assert CardsOf(r)[c] <= CardsOf(w)[c];
    }
  }

  /** Whatever is played, a hand dealt from a full deck has no card twice. */
  lemma PlayedOneDeck(t: Table, inputs: seq<Input>)
    requires Ready(t) && BlindsCovered(t) && multiset(t.deck) == multiset(FullDeck())
    ensures OneDeck(Played(t, inputs))
  {
    PlayedKeepsGame(t, inputs);
    FewerIsOneDeck(t, Played(t, inputs));
  }

  lemma ReturnKeepsCards(t: Table)
    requires HandInv(t)
    ensures AfterReturn(t).board == t.board && CardsOf(AfterReturn(t)) == CardsOf(t)
  {
    ReturnUncalledIsExact(t);
    ReturnedKeepsCards(t, AfterReturn(t));
  }

  lemma ReturnedKeepsCards(t: Table, r: Table)
    requires Returned(t, r)
    ensures r.board == t.board && CardsOf(r) == CardsOf(t)
  {
    forall i: nat | i < |t.players| ensures r.players[i].cards == t.players[i].cards {
      ReturnedIs(t, r, i);
    }
    HeldSame(t.players, r.players);
  }

  // Hands against hands

  /** Five of a player's own cards and the board's. */
  ghost predicate FiveOf(t: Table, i: nat, h: seq<Card>) {
    i < |t.players| && |h| == 5 && multiset(h) <= multiset(t.players[i].cards + t.board)
  }

  ghost predicate AsGood(g: seq<Card>, h: seq<Card>) {
    AHand(g) && AHand(h) && HandKey(h) <= HandKey(g)
  }

  /** Whatever five j shows, i has five as good. */
  ghost predicate Matches(t: Table, i: nat, j: nat) {
    forall h :: FiveOf(t, j, h) ==> exists g :: FiveOf(t, i, g) && AsGood(g, h)
  }

  lemma BestFive(t: Table, i: nat) returns (best: seq<Card>)
    requires OneDeck(t) && |t.board| == 5 && i < |t.players|
    ensures FiveOf(t, i, best) && AHand(best) && HandRank(t)(i) == HandKey(best)
    ensures forall h :: FiveOf(t, i, h) ==> AsGood(best, h)
  {
    SevenDiffer(t, i);
    best := RankIsBest(t, i, t.board);
    forall h | FiveOf(t, i, h) ensures AsGood(best, h) {
      var again := RankIsBest(t, i, h);
    }
  }

  /** Ranks compare as the hands do, whichever five each player shows. */
  lemma RankOrders(t: Table, i: nat, j: nat)
    requires OneDeck(t) && |t.board| == 5 && i < |t.players| && j < |t.players|
    ensures Matches(t, i, j) <==> HandRank(t)(j) <= HandRank(t)(i)
  {
    var a := BestFive(t, i);
    var b := BestFive(t, j);
    if Matches(t, i, j) {
      var g :| FiveOf(t, i, g) && AsGood(g, b);
      assert AsGood(a, g);
    }
    if HandRank(t)(j) <= HandRank(t)(i) {
      forall h | FiveOf(t, j, h) ensures exists g :: FiveOf(t, i, g) && AsGood(g, h) {
        assert AsGood(b, h);
        assert FiveOf(t, i, a) && AsGood(a, h);
      }
    }
  }

  // Pots

  /** A player still in who contributed to the pot, and whom nobody of that kind beats. */
  ghost predicate Unbeaten(t: Table, pot: Pot, i: nat)
    requires t.numSeats > 0
  {
    i in Contenders(ActingOrder(t), pot) && forall j :: j in Contenders(ActingOrder(t), pot) ==> Matches(t, i, j)
  }

  ghost function UnbeatenAt(t: Table, pot: Pot): nat -> bool
    requires t.numSeats > 0
  {
    (i: nat) => t.numSeats > 0 && Unbeaten(t, pot, i)
  }

  /** They are, in showdown order, the winners by rank. */
  lemma WinnersAreUnbeaten(t: Table, pot: Pot)
    requires OneDeck(t) && |t.board| == 5 && t.numSeats > 0
    ensures PotWinners(ActingOrder(t), pot, HandRank(t)) == Filter(ActingOrder(t), UnbeatenAt(t, pot))
  {
    var order := ActingOrder(t);
    var contenders := Contenders(order, pot);
    forall i | i in order ensures BestAt(HandRank(t), contenders)(i) == UnbeatenAt(t, pot)(i) {
      BestAtIs(HandRank(t), contenders);
      forall j | j in contenders ensures Matches(t, i, j) <==> HandRank(t)(j) <= HandRank(t)(i) {
        RankOrders(t, i, j);
      }
    }
    SameFilter(order, BestAt(HandRank(t), contenders), UnbeatenAt(t, pot));
  }

  /** The hand that a player shows: the best five of their cards and the board's. */
  function Shown(t: Table, i: nat): Result<seq<Card>, HandError>
    requires i < |t.players|
  {
    BestOf(t.players[i].cards + t.board)
  }

  lemma ShownIsRanked(t: Table, i: nat)
    requires OneDeck(t) && |t.board| == 5 && i < |t.players|
    ensures Shown(t, i).Success? && AHand(Shown(t, i).value) && HandRank(t)(i) == HandKey(Shown(t, i).value)
  {
    SevenDiffer(t, i);
    BestDominates(t.players[i].cards + t.board, t.board);
  }

  /**
   * Whoever splits a pot shows the same hand: the same ranks equally often, and both flushes or
   * neither, so that the two are encoded and named alike.
   */
  lemma SplitWithSameHand(t: Table, pot: Pot, i: nat, j: nat)
    requires OneDeck(t) && |t.board| == 5 && t.numSeats > 0
    requires i in PotWinners(ActingOrder(t), pot, HandRank(t)) && j in PotWinners(ActingOrder(t), pot, HandRank(t))
    ensures i < |t.players| && j < |t.players| && Shown(t, i).Success? && Shown(t, j).Success?
    ensures SameCounts(Shown(t, i).value, Shown(t, j).value) && Flush(Shown(t, i).value) == Flush(Shown(t, j).value)
    ensures Encoding(Shown(t, i).value) == Encoding(Shown(t, j).value)
  {
    var contenders := Contenders(ActingOrder(t), pot);
    PotWinnersAre(ActingOrder(t), pot, HandRank(t));
    assert IsBest(HandRank(t), contenders, i) && IsBest(HandRank(t), contenders, j);
    ShownIsRanked(t, i);
    ShownIsRanked(t, j);
    TiesAreEqualHands(Shown(t, i).value, Shown(t, j).value);
    EncodingOfCounts(Shown(t, i).value, Shown(t, j).value);
  }

  /** An even share of the pot for whoever is unbeaten, and an odd chip for the first of them. */
  ghost function ShareOf(t: Table, pot: Pot, i: nat): int
    requires t.numSeats > 0
  {
    var best := Filter(ActingOrder(t), UnbeatenAt(t, pot));
    if i !in best then 0
    else pot.amt / |best| + if IndexOf(best, i) < pot.amt % |best| then 1 else 0
  }

  ghost function FairShare(t: Table, pots: seq<Pot>, i: nat): int
    requires t.numSeats > 0
  {
    if pots == [] then 0 else FairShare(t, pots[..|pots| - 1], i) + ShareOf(t, pots[|pots| - 1], i)
  }

  lemma {:induction false} IndexInFront(s: seq<nat>, i: nat)
    requires Distinct(s) && s != [] && i in s
    ensures i == s[|s| - 1] ==> IndexOf(s, i) == |s| - 1
    ensures i != s[|s| - 1] ==> i in s[..|s| - 1] && IndexOf(s, i) == IndexOf(s[..|s| - 1], i)
  {
    var n := |s| - 1;
    IndexOfAt(s, IndexOf(s, i));
    if i == s[n] {
      IndexOfAt(s, n);
    } else {
      var k := IndexOf(s, i);
      assert s[..n][k] == i;
      IndexOfAt(s[..n], k);
    }
  }

  lemma {:induction false} ShareAwarded(winners: seq<nat>, each: int, extra: int, i: nat)
    requires Distinct(winners)
    ensures AwardedTo(Shares(winners, each, extra), i)
         == if i in winners then each + (if IndexOf(winners, i) < extra then 1 else 0) else 0
    decreases |winners|
  {
    if winners != [] {
      var n := |winners| - 1;
      ShareAwarded(winners[..n], each, extra, i);
      assert Shares(winners, each, extra)[..|Shares(winners, each, extra)| - 1] == Shares(winners[..n], each, extra);
      assert winners == winners[..n] + [winners[n]];
      if i in winners {
        IndexInFront(winners, i);
      }
      assert winners[n] !in winners[..n];
    }
  }

  lemma {:induction false} PotPaysUnbeaten(t: Table, pot: Pot, i: nat)
    requires Seating(t) && OneDeck(t) && |t.board| == 5
    requires PotAwards(ActingOrder(t), pot, HandRank(t)).Success?
    ensures AwardedTo(PotAwards(ActingOrder(t), pot, HandRank(t)).value, i) == ShareOf(t, pot, i)
  {
    var winners := PotWinners(ActingOrder(t), pot, HandRank(t));
    ActingOrderComplete(t);
    PotWinnersAre(ActingOrder(t), pot, HandRank(t));
    WinnersAreUnbeaten(t, pot);
    ShareAwarded(winners, pot.amt / |winners|, pot.amt % |winners|, i);
  }

  lemma {:induction false} PotsPayUnbeaten(t: Table, pots: seq<Pot>, i: nat)
    requires Seating(t) && OneDeck(t) && |t.board| == 5
    requires ShowdownAwards(ActingOrder(t), pots, HandRank(t)).Success?
    ensures AwardedTo(ShowdownAwards(ActingOrder(t), pots, HandRank(t)).value, i) == FairShare(t, pots, i)
    decreases |pots|
  {
    if pots != [] {
      var n := |pots| - 1;
      PotsPayUnbeaten(t, pots[..n], i);
      PotPaysUnbeaten(t, pots[n], i);
      AwardedToAppend(ShowdownAwards(ActingOrder(t), pots[..n], HandRank(t)).value,
                      PotAwards(ActingOrder(t), pots[n], HandRank(t)).value, i);
    }
  }

  /** end_hand, with the hands ranked as they are at the showdown. */
  function EndRanked(t: Table): Result<Table, Error>
    requires t.numSeats > 0
  {
    EndHand(t, HandRank(AfterReturn(t)))
  }

  /**
   * A hand dealt from a full deck and played to a showdown: each pot is shared evenly by those who
   * contributed, are still in, and whom nobody else still in for it beats with any five cards.
   */
  lemma {:induction false} ShowdownPaysBest(t: Table, inputs: seq<Input>, w: Table, i: nat)
    requires Ready(t) && BlindsCovered(t) && multiset(t.deck) == multiset(FullDeck())
    requires w == Played(t, inputs) && |w.board| == 5 && EndRanked(w).Success?
    requires AfterReturn(w).numSeats > 0 && |ActingOrder(AfterReturn(w))| != 1 && i < |w.players|
    ensures i < |EndRanked(w).value.players| && i < |AfterReturn(w).players|
    ensures EndRanked(w).value.players[i].stack
         == AfterReturn(w).players[i].stack + FairShare(AfterReturn(w), SidePots(AfterReturn(w)), i)
  {
    PlayedOneDeck(t, inputs);
    ReturnKeepsCards(w);
    ReturnKeepsTable(w);
    var r := AfterReturn(w);
    FewerIsOne(w, r);
    EndHandIsExact(w, HandRank(r));
    PotsPayUnbeaten(r, SidePots(r), i);
  }
}
