/** A deal whose big blind is too short, with nobody on the small blind: the minimum raise falls short. */
module ShortDeal {
  import opened Wrappers
  import opened Players
  import opened Tables
  import opened Accessors
  import opened Betting
  import opened Cards
  import opened Places
  import opened Deals
  import opened Openings
  import opened Play
  import opened ShortBlinds

  /**
   * Seat 3, on the small blind, is empty. The big blind on seat 4 has 3 chips left, and seat 0 owes a
   * big blind of 10 and has the chips to post it.
   */
  function ShortBlind(): Table {
    Table(5, 5, 10, 100, 1000, Some(2), Some(3), Some(4), FullDeck(), [],
          [Place(0, 100, true), Place(1, 100, false), Place(2, 100, false), Place(4, 3, false)])
  }

  lemma Holders(t: Table)
    requires t == ShortBlind()
    ensures SeatHolder(t, t.bbPos) == Some(3) && SeatHolder(t, t.sbPos) == None
  {
    assert FindAt(t.players, 4, true, 3) == Some(3);
    assert FindAt(t.players, 3, true, 3) == None;
  }

  lemma ShortBlindReady()
    ensures Ready(ShortBlind())
  {
    var t := ShortBlind();
    WholeDeck();
    PlaceIsSettled(0, 100, true, 5);
    PlaceIsSettled(1, 100, false, 5);
    PlaceIsSettled(2, 100, false, 5);
    PlaceIsSettled(4, 3, false, 5);
    SettledIsReady(t, 3);
  }

  lemma ShortBlindPosts(t: Table)
    requires t == ShortBlind()
    ensures PostedAt(t, 0).uncollected == 10 && PostedAt(t, 1).uncollected == 0 && PostedAt(t, 2).uncollected == 0
    ensures PostedAt(t, 3).uncollected == 3 && TopPost(t) == 10
    ensures PostedAt(t, 0).stack == 90 && PostedAt(t, 1).stack == 100
  {
    Holders(t);
    assert Counted(PlayersPosted(t)[0], false);
    MaxIs(PlayersPosted(t), false, 10);
  }

  lemma ShortBlindUncovered()
    ensures !BlindsCovered(ShortBlind())
  {
    var t := ShortBlind();
    Holders(t);
    ShortBlindPosts(t);
    assert MayRaise(t, 1);
    forall p: nat ensures !CoversFor(t, p, 1) {
      assert p == 0 || p == 1 || p == 2 || p == 3 || p >= 4;
    }
  }

  /** From this deal a run of limps leads to an offer to raise to less than the bet to call. */
  lemma ShortBlindMinRaise() returns (inputs: seq<Input>, w: Table)
    ensures Ready(ShortBlind()) && PostAndDeal(ShortBlind()).Success?
    ensures PlayedTo(PostAndDeal(ShortBlind()).value, inputs, w) && FallsShort(w)
  {
    ShortBlindReady();
    ShortBlindUncovered();
    inputs, w := UncoveredDealIsShort(ShortBlind());
  }
}
