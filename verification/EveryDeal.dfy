/** What holds of every hand, whether or not its blinds cover everybody who may raise. */
module EveryDeal {
  import opened Wrappers
  import opened Players
  import opened Tables
  import opened Accessors
  import opened Betting
  import opened Streets
  import opened Hands
  import opened Pots
  import opened Showdown
  import opened Settlement
  import opened Endings
  import opened Cards
  import opened Deals
  import opened Openings
  import opened FreePlay
  import opened WholeHands
  import opened BestHands
  import opened FairShowdown

  /** The blinds are posted and the cards dealt, and the moves, one accepted after the other, lead to w. */
  ghost predicate PlaysTo(t: Table, moves: seq<Move>, w: Table) {
    Ready(t) && PostAndDeal(t).Success? && Leads(PostAndDeal(t).value, moves, w)
  }

  lemma DealtOutIsIdle(t: Table)
    requires Ready(t)
    ensures PostAndDeal(t).Success? && OutIsIdle(PostAndDeal(t).value)
  {
    var u := DealIsFresh(t);
    forall i | 0 <= i < |u.players| && !u.players[i].Active() ensures !u.players[i].HasInHandState() {
      assert FreshlyDealt(t.players[i], u.players[i]) && Idle(t.players[i]);
    }
  }

  /** At any point who is out has nothing in, and the chips and the cards are those there were. */
  lemma PlayIsClosed(t: Table, moves: seq<Move>, w: Table)
    requires PlaysTo(t, moves, w)
    ensures OutIsIdle(w) && Total(w) == Sum(t.players, StackOf) && CardsOf(w) <= CardsOf(t)
  {
    var u := PostAndDeal(t).value;
    DealtOutIsIdle(t);
    DealKeepsGame(t);
    IdleTotal(t);
    PlayKeepsOut(u, moves, w);
    PlayKeepsChips(u, moves, w);
    PlayKeepsCards(u, moves, w);
  }

  /** Whatever the deal and the play, a hand that is paid out leaves all chips in stacks and none elsewhere. */
  lemma PaidHandConservesChips(t: Table, moves: seq<Move>, w: Table, rank: nat -> int, u: Table)
    requires PlaysTo(t, moves, w) && Seating(w) && EndHand(w, rank) == Success(u)
    ensures Sum(u.players, StackOf) == Sum(t.players, StackOf) && Cleared(u)
  {
    PlayIsClosed(t, moves, w);
    PayoutKeepsChips(w, rank, u);
  }

  /** From a full deck no card is ever twice in deck, board and hands. */
  lemma AlwaysOneDeck(t: Table, moves: seq<Move>, w: Table)
    requires PlaysTo(t, moves, w) && multiset(t.deck) == multiset(FullDeck())
    ensures OneDeck(w)
  {
    PlayIsClosed(t, moves, w);
    FewerIsOneDeck(t, w);
  }

  /** Every pot goes to those whom nobody else still in for it beats with any five cards, in even shares. */
  lemma {:induction false} BestIsAlwaysPaid(t: Table, moves: seq<Move>, w: Table, u: Table, i: nat)
    requires PlaysTo(t, moves, w) && multiset(t.deck) == multiset(FullDeck())
    requires Seating(w) && |w.board| == 5 && EndRanked(w) == Success(u)
    requires AfterReturn(w).numSeats > 0 && |ActingOrder(AfterReturn(w))| != 1 && i < |w.players|
    ensures i < |u.players| && i < |AfterReturn(w).players|
    ensures u.players[i].stack
         == AfterReturn(w).players[i].stack + FairShare(AfterReturn(w), SidePots(AfterReturn(w)), i)
  {
    AlwaysOneDeck(t, moves, w);
    PlayIsClosed(t, moves, w);
    var r := ReturnKeepsAll(w);
    FewerIsOne(w, r);
    PayoutKeepsChips(w, HandRank(r), u);
    PotsPayUnbeaten(r, SidePots(r), i);
  }
}
