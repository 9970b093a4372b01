/** Hand after hand: no chip is lost or made between the buy-ins. */
module Sessions {
  import opened Wrappers
  import opened Players
  import opened Tables
  import opened Accessors
  import opened Betting
  import opened BettingSteps
  import opened Streets
  import opened Hands
  import opened Play
  import opened Pots
  import opened Showdown
  import opened Settlement
  import opened Endings
  import opened Deals
  import opened Cards
  import opened Openings
  import opened WholeHands
  import opened BestHands
  import opened FairShowdown
  import opened Rebuys
  import opened BetweenHands

  // From hand to hand

  lemma PaidIsIdle(p: PlayerState, amt: int)
    requires Sane(p) && PresetsOk(p) && 0 <= p.stack + amt
    ensures
      var q := p.(stack := p.stack + amt);
      Idle(if q.Active() then Effect(q, Reset).value else q)
  {
  }

  ghost predicate PaidRow(p: PlayerState, q: PlayerState) {
    Idle(q) && q.seated == p.seated && q.position == p.position && q.playing == p.playing
  }

  lemma PaidRows(r: Table, awards: seq<Award>, paid: Table, u: Table)
    requires EveryPlayer(r) && AllPresetsOk(r) && NoneNegative(awards) && Paid(r, paid, awards)
    requires u == paid.(players := u.players) && |u.players| == |paid.players|
    requires forall k: nat :: k < |paid.players| ==>
      u.players[k] == if paid.players[k].Active() then Effect(paid.players[k], Reset).value else paid.players[k]
    ensures forall i: nat :: i < |r.players| ==> PaidRow(r.players[i], u.players[i])
  {
    forall i: nat | i < |r.players| ensures PaidRow(r.players[i], u.players[i]) {
      AwardedWithin(awards, i);
      assert Sane(r.players[i]) && PresetsOk(r.players[i]);
      PaidIsIdle(r.players[i], AwardedTo(awards, i));
    }
  }

  lemma RowsSeated(r: Table, u: Table)
    requires Seating(r) && u == r.(players := u.players) && |u.players| == |r.players|
    requires forall i: nat :: i < |r.players| ==> PaidRow(r.players[i], u.players[i])
    ensures Seating(u) && AllIdle(u)
  {
    forall i: nat | i < |r.players|
      ensures Idle(u.players[i]) && u.players[i].seated == r.players[i].seated
      ensures u.players[i].position == r.players[i].position && u.players[i].playing == r.players[i].playing
    {
      assert PaidRow(r.players[i], u.players[i]);
    }
  }

  /** Paid out, a table is one to start the next hand from. */
  lemma PayOutLeaves(r: Table, awards: seq<Award>, u: Table)
    requires Seating(r) && EveryPlayer(r) && AllPresetsOk(r) && NoneNegative(awards)
    requires forall k :: 0 <= k < |awards| ==> awards[k].player < |r.players|
    requires PayOut(r, awards) == Success(u)
    ensures u == r.(players := u.players) && Seating(u) && AllIdle(u)
  {
    var paid := AwardsFire(r, awards);
    PaidKeepsSeats(r, paid, awards);
    var v := ResetsFire(paid);
    PaidRows(r, awards, paid, v);
    RowsSeated(r, v);
  }

  lemma ReturnedPresets(t: Table, r: Table)
    requires AllPresetsOk(t) && EveryPlayer(t) && TopShared(t, Carried) && Returned(t, r)
    ensures r == t.(players := r.players) && AllPresetsOk(r)
  {
    forall i: nat | i < |r.players| ensures PresetsOk(r.players[i]) {
      ReturnedIs(t, r, i);
      assert PresetsOk(t.players[i]);
      if r != t {
        var m: nat :| SoleHolder(t, m) && r == With(t, m, Refunded(t, m));
        RefundWithinStreet(t, m);
      }
    }
  }

  lemma EndLeaves(w: Table, u: Table)
    requires HandInv(w) && EndRanked(w) == Success(u)
    ensures u == w.(players := u.players) && Seating(u) && AllIdle(u)
  {
    ReturnUncalledIsExact(w);
    ReturnKeepsTable(w);
    var r := AfterReturn(w);
    ReturnedPresets(w, r);
    var rank := HandRank(r);
    AwardsGoToPlayers(r, rank);
    AwardsNonNegative(r, rank);
    PayOutLeaves(r, AwardsFor(r, rank).value, u);
  }

  /** One hand of a session: how it is set up, and what is asked during it. */
  datatype HandPlayed = HandPlayed(setup: Setup, inputs: seq<Input>)

  /** The table that is dealt from, if there is one. */
  ghost function Dealable(t: Table, h: HandPlayed): Option<Table> {
    if multiset(h.setup.deck) != multiset(FullDeck()) then None
    else
      match NextHand(t, h.setup)
      case Failure(_) => None
      case Success(dealt) => dealt
  }

  lemma DealableIsReady(t: Table, h: HandPlayed)
    requires Between(t) && Dealable(t, h).Some?
    ensures
      var dealt := Dealable(t, h).value;
      && Ready(dealt) && Rules(dealt) && BlindsSet(dealt) && dealt.btnPos.Some?
      && Total(dealt) == Total(t) + BoughtInAll(t, h.setup.autos, h.setup.paid)
  {
    NextHandReady(t, h.setup, Dealable(t, h).value);
  }

  /** None when there is no next hand, when it stops somewhere, or when its blinds do not cover it. */
  ghost function OneHand(t: Table, h: HandPlayed): Option<Table>
    requires Between(t)
  {
    match Dealable(t, h)
    case None => None
    case Some(dealt) =>
      DealableIsReady(t, h);
      if BlindsCovered(dealt) then HandEnd(Played(dealt, h.inputs)) else None
  }

  /** end_hand, once nobody has to act and no street is left. */
  function HandEnd(w: Table): Option<Table>
    requires w.numSeats > 0
  {
    if NextToAct(w).Some? || !HandOver(w) then None
    else match EndRanked(w) case Failure(_) => None case Success(u) => Some(u)
  }

  /** The chips bought before the hand, and those that newcomers bring during it. */
  ghost function BroughtBy(t: Table, h: HandPlayed): int
    requires Between(t) && OneHand(t, h).Some?
  {
    DealableIsReady(t, h);
    BoughtInAll(t, h.setup.autos, h.setup.paid) + Newcomers(Dealable(t, h).value, h.inputs)
  }

  lemma HandEndsBetween(dealt: Table, inputs: seq<Input>, u: Table)
    requires Ready(dealt) && Rules(dealt) && BlindsCovered(dealt) && BlindsSet(dealt) && dealt.btnPos.Some?
    requires EndRanked(Played(dealt, inputs)) == Success(u)
    ensures Between(u) && Total(u) == Total(dealt) + Newcomers(dealt, inputs)
  {
    var w := Played(dealt, inputs);
    PlayedKeepsGame(dealt, inputs);
    EndLeaves(w, u);
    HandConservesChips(dealt, inputs, HandRank(AfterReturn(w)));
    IdleTotal(dealt);
    IdleTotal(u);
  }

  lemma OneHandKeeps(t: Table, h: HandPlayed)
    requires Between(t) && OneHand(t, h).Some?
    ensures Between(OneHand(t, h).value) && Total(OneHand(t, h).value) == Total(t) + BroughtBy(t, h)
  {
    DealableIsReady(t, h);
    HandEndsBetween(Dealable(t, h).value, h.inputs, OneHand(t, h).value);
  }

  /** The table after as many of the hands as are played to their end. */
  ghost function Session(t: Table, hands: seq<HandPlayed>): Table
    requires Between(t)
    decreases |hands|
  {
    if hands == [] || OneHand(t, hands[0]).None? then t
    else
      OneHandKeeps(t, hands[0]);
      Session(OneHand(t, hands[0]).value, hands[1..])
  }

  /** The chips brought to the table in the course of them. */
  ghost function BroughtInAll(t: Table, hands: seq<HandPlayed>): int
    requires Between(t)
    decreases |hands|
  {
    if hands == [] || OneHand(t, hands[0]).None? then 0
    else
      OneHandKeeps(t, hands[0]);
      BroughtBy(t, hands[0]) + BroughtInAll(OneHand(t, hands[0]).value, hands[1..])
  }

  lemma SessionGoesOn(t: Table, hands: seq<HandPlayed>) returns (u: Table)
    requires Between(t) && hands != [] && OneHand(t, hands[0]).Some?
    ensures Between(u) && Session(t, hands) == Session(u, hands[1..])
    ensures
      Sum(u.players, StackOf) + BroughtInAll(u, hands[1..]) == Sum(t.players, StackOf) + BroughtInAll(t, hands)
  {
    u := OneHand(t, hands[0]).value;
    OneHandKeeps(t, hands[0]);
    IdleTotal(t);
    IdleTotal(u);
  }

  /**
   * Over any number of hands, whatever is asked during them and whoever comes and goes, the stacks
   * add up to what they were and to what was bought, none is negative, and nothing of a hand is left.
   */
  lemma {:induction false} SessionConservesChips(t: Table, hands: seq<HandPlayed>)
    requires Between(t)
    ensures Between(Session(t, hands))
    ensures Sum(Session(t, hands).players, StackOf) == Sum(t.players, StackOf) + BroughtInAll(t, hands)
    decreases |hands|
  {
    if hands != [] && OneHand(t, hands[0]).Some? {
      var u := SessionGoesOn(t, hands);
      SessionConservesChips(u, hands[1..]);
    }
  }
}
