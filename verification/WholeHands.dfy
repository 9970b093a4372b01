/** A hand from the blinds to the payout. */
module WholeHands {
  import opened Wrappers
  import opened Players
  import opened Tables
  import opened Accessors
  import opened Betting
  import opened Streets
  import opened Hands
  import opened Play
  import opened Pots
  import opened Showdown
  import opened Settlement
  import opened Endings
  import opened Deals
  import opened Openings

  // No award takes chips away

  ghost predicate NoneNegative(awards: seq<Award>) {
    forall k :: 0 <= k < |awards| ==> 0 <= awards[k].amt
  }

  lemma {:induction false} ShowdownNonNegative(order: seq<nat>, pots: seq<Pot>, rank: nat -> int)
    requires ShowdownAwards(order, pots, rank).Success? && forall x :: 0 <= x < |pots| ==> 0 <= pots[x].amt
    ensures NoneNegative(ShowdownAwards(order, pots, rank).value)
    decreases |pots|
  {
    if pots != [] {
      var n := |pots| - 1;
      ShowdownNonNegative(order, pots[..n], rank);
      PotShares(order, pots[n], rank);
    }
  }

  lemma {:induction false} SoleNonNegative(winner: nat, pots: seq<Pot>)
    requires forall x :: 0 <= x < |pots| ==> 0 <= pots[x].amt
    ensures NoneNegative(SoleAwards(winner, pots))
    decreases |pots|
  {
    if pots != [] {
      SoleNonNegative(winner, pots[..|pots| - 1]);
    }
  }

  lemma AwardsNonNegative(r: Table, rank: nat -> int)
    requires Seating(r) && EveryPlayer(r) && AwardsFor(r, rank).Success?
    ensures NoneNegative(AwardsFor(r, rank).value)
  {
    NoNegativeWagers(r);
    PotsNonNegative(r);
    if |ActingOrder(r)| == 1 {
      SoleNonNegative(ActingOrder(r)[0], SidePots(r));
    } else {
      ShowdownNonNegative(ActingOrder(r), SidePots(r), rank);
    }
  }

  lemma NobodyPaysIn(r: Table, u: Table, awards: seq<Award>)
    requires EveryPlayer(r) && Settled(r, u, awards) && NoneNegative(awards)
    ensures forall i :: 0 <= i < |u.players| ==> 0 <= u.players[i].stack
  {
    forall i: nat | i < |u.players| ensures 0 <= u.players[i].stack {
      AwardedWithin(awards, i);
      assert Sane(r.players[i]);
    }
  }

  // From the blinds to the payout

  /** The table once blinds are posted, cards dealt, and the given inputs played. */
  function Played(t: Table, inputs: seq<Input>): (w: Table)
    requires Ready(t) && BlindsCovered(t)
    ensures HandInv(w)
  {
    DealStartsHand(t);
    Run(Step(PostAndDeal(t).value).value, inputs)
  }

  /** The chips that newcomers bring in the course of it. */
  function Newcomers(t: Table, inputs: seq<Input>): int
    requires Ready(t) && BlindsCovered(t)
  {
    DealStartsHand(t);
    Arrivals(Step(PostAndDeal(t).value).value, inputs)
  }

  /**
   * In play, chips stay in stacks, wagers and dead money, and newcomers' chips come on top; cards stay
   * in the deck, on the board and in hands.
   */
  lemma PlayedKeepsGame(t: Table, inputs: seq<Input>)
    requires Ready(t) && BlindsCovered(t)
    ensures Later(t, Played(t, inputs)) && Total(Played(t, inputs)) == Total(t) + Newcomers(t, inputs)
  {
    DealStartsHand(t);
    DealKeepsGame(t);
    var u := PostAndDeal(t).value;
    var v := Step(u).value;
    RunKeepsGame(v, inputs);
    LaterTransitive(t, u, v);
    LaterTransitive(t, v, Run(v, inputs));
  }

  lemma IdleTotal(t: Table)
    requires AllIdle(t)
    ensures Total(t) == Sum(t.players, StackOf)
  {
    forall i | 0 <= i < |t.players| ensures ChipsOf(t.players[i]) == StackOf(t.players[i]) {
      assert Idle(t.players[i]);
    }
    SumEqual(t.players, ChipsOf, StackOf);
  }

  lemma {:induction false} SumEqual(ps: seq<PlayerState>, f: PlayerState -> int, g: PlayerState -> int)
    requires forall i :: 0 <= i < |ps| ==> f(ps[i]) == g(ps[i])
    ensures Sum(ps, f) == Sum(ps, g)
  {
    SumBounds(ps, f, g);
    SumBounds(ps, g, f);
  }

  /**
   * Whatever is played, a hand that pays out leaves as many chips in stacks as there were before
   * the blinds and as newcomers brought, no stack negative, and nothing of the hand on the table.
   */
  lemma HandConservesChips(t: Table, inputs: seq<Input>, rank: nat -> int)
    requires Ready(t) && BlindsCovered(t)
    ensures
      var w := Played(t, inputs);
      w.numSeats > 0 && AfterReturn(w).numSeats > 0 &&
      (EndHand(w, rank).Success? <==> Payable(AfterReturn(w))) &&
      (EndHand(w, rank).Success? ==>
        var u := EndHand(w, rank).value;
        && Sum(u.players, StackOf) == Sum(t.players, StackOf) + Newcomers(t, inputs) && Cleared(u)
        && forall i :: 0 <= i < |u.players| ==> 0 <= u.players[i].stack)
  {
    var w := Played(t, inputs);
    PlayedKeepsGame(t, inputs);
    IdleTotal(t);
    EndHandIsExact(w, rank);
    ReturnKeepsTable(w);
    if EndHand(w, rank).Success? {
      AwardsNonNegative(AfterReturn(w), rank);
      NobodyPaysIn(AfterReturn(w), EndHand(w, rank).value, AwardsFor(AfterReturn(w), rank).value);
    }
  }
}
