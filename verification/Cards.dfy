/** The deck: all 52 cards, shuffled by popping cards in any order. */
module Cards {
  import opened Wrappers
  import opened Players

  function InSuit(s: Suit, n: nat): (r: seq<Card>)
    requires n <= 13
    ensures |r| == n
  {
    if n == 0 then [] else InSuit(s, n - 1) + [Card(n - 1, s)]
  }

  /** So many ranks of so many suits, suit by suit. */
  function Suits(n: nat, ranks: nat): seq<Card>
    requires n <= 4 && ranks <= 13
  {
    if n == 0 then [] else Suits(n - 1, ranks) + InSuit(n - 1, ranks)
  }

  const RANKS := "23456789TJQKA"

  const SUITS := "cdhs"

  /** Every card. */
  function FullDeck(): seq<Card> {
    Suits(|SUITS|, |RANKS|)
  }

  lemma {:induction false} InSuitOnce(s: Suit, n: nat, c: Card)
    requires n <= 13
    ensures multiset(InSuit(s, n))[c] == if c.suit == s && c.rank < n then 1 else 0
    decreases n
  {
    if n > 0 {
      InSuitOnce(s, n - 1, c);
    }
  }

  lemma {:induction false} SuitsOnce(n: nat, ranks: nat, c: Card)
    requires n <= 4 && ranks <= 13
    ensures multiset(Suits(n, ranks))[c] == if c.suit < n && c.rank < ranks then 1 else 0
    decreases n
  {
    if n > 0 {
      SuitsOnce(n - 1, ranks, c);
      InSuitOnce(n - 1, ranks, c);
    }
  }

  /** The full deck has each card once. */
  lemma EachCardOnce(c: Card)
    ensures multiset(FullDeck())[c] == 1
  {
    SuitsOnce(|SUITS|, |RANKS|, c);
  }

  class Deck {
    var cards: seq<Card>

    /** A new deck of all cards, shuffled */
    constructor ()
      ensures multiset(cards) == multiset(FullDeck())
    {
      cards := FullDeck();
      new;
      Shuffle();
    }

    constructor Of(cards: seq<Card>)
      ensures this.cards == cards
    {
      this.cards := cards;
    }

    /** shuffle: pops a random card until none is left */
    method Shuffle()
      modifies this
      ensures multiset(cards) == old(multiset(cards))
    {
      var shuffled: seq<Card> := [];
      while cards != []
        invariant multiset(cards) + multiset(shuffled) == old(multiset(cards))
        decreases |cards|
      {
        var k :| 0 <= k < |cards|;
        assert cards == cards[..k] + [cards[k]] + cards[k + 1..];
        shuffled := shuffled + [cards[k]];
        cards := cards[..k] + cards[k + 1..];
      }
      cards := shuffled;
    }

    /** deal: the top card; an empty deck raises */
    method Deal() returns (r: Result<Card, Error>)
      modifies this
      ensures r.Failure? <==> old(cards) == []
      ensures r.Failure? ==> r.error == OutOfCards && cards == old(cards)
      ensures r.Success? ==> old(cards) == [r.value] + cards
    {
      if cards == [] {
        return Failure(OutOfCards);
      }
      r := Success(cards[0]);
      cards := cards[1..];
    }

    /** cards_to_deal and on_pop_cards: the first n cards of the deck */
    method DealMany(n: nat) returns (r: Result<seq<Card>, Error>)
      modifies this
      ensures r.Success? <==> n <= |old(cards)|
      ensures r.Success? ==> r.value == old(cards[..n]) && cards == old(cards[n..])
    {
      var dealt: seq<Card> := [];
      var k := 0;
      while k < n
        invariant 0 <= k <= n && |dealt| == k && dealt + cards == old(cards)
      {
        var card := Deal();
        if card.Failure? {
          return Failure(OutOfCards);
        }
        dealt := dealt + [card.value];
        k := k + 1;
      }
      r := Success(dealt);
    }
  }
}
