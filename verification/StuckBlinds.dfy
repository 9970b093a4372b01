/** Between two hands the blinds can get stuck, once only two are left and one sits in between them. */
module StuckBlinds {
  import opened Wrappers
  import opened Indexes
  import opened Players
  import opened Tables
  import opened Accessors
  import opened Betting
  import opened Hands
  import opened Cards
  import opened Rings
  import opened Blinds
  import opened Deals
  import opened Sitting
  import opened BlindSitting
  import opened Openings
  import opened Rebuys
  import opened BetweenHands

  /**
   * The big blind was on seat 0, and the small blind, on seat 2, asked to sit out. Seat 3 waits for the
   * blinds, and seat 1 for the next hand.
   */
  function TwoLeft(): Table {
    Table(4, 5, 10, 100, 1000, Some(2), Some(2), Some(0), [], [], [
      SeatRow(0, SittingIn, 100), SeatRow(1, SitInPending, 100),
      SeatRow(2, SitOutPending, 100), SeatRow(3, SitInAtBlindsPending, 100)])
  }

  /** Four players in their states, each on the seat of their number. */
  ghost predicate Four(t: Table, a: PlayingState, b: PlayingState, c: PlayingState, d: PlayingState) {
    && t.numSeats == 4 && |t.players| == 4 && t.bb == 10 && t.sb == 5
    && OnSeat(t.players[0], 0, a) && OnSeat(t.players[1], 1, b)
    && OnSeat(t.players[2], 2, c) && OnSeat(t.players[3], 3, d)
  }

  ghost predicate OnSeat(p: PlayerState, pos: nat, s: PlayingState) {
    p.seated && p.position == Some(pos) && p.playing == Some(s) && p.stack >= 100
  }

  lemma {:induction false} SeatIs(t: Table, k: nat)
    requires |t.players| == 4 && k < 4
    requires forall i: nat :: i < 4 ==> t.players[i].position == Some(i) && t.players[i].seated
    ensures FindAt(t.players, k, false) == Some(k) && (ActiveSeat(t)(k) <==> t.players[k].Active())
  {
    assert At(t.players[k], k, false);
    if t.players[k].Active() {
      assert At(t.players[k], k, true);
    }
  }

  lemma SeatsAre(t: Table, a: PlayingState, b: PlayingState, c: PlayingState, d: PlayingState)
    requires Four(t, a, b, c, d)
    ensures FindAt(t.players, 0, false) == Some(0) && FindAt(t.players, 1, false) == Some(1)
    ensures FindAt(t.players, 2, false) == Some(2) && FindAt(t.players, 3, false) == Some(3)
    ensures forall k: nat :: k < 4 ==> (ActiveSeat(t)(k) <==> t.players[k].Active())
  {
    forall k: nat | k < 4
      ensures FindAt(t.players, k, false) == Some(k) && (ActiveSeat(t)(k) <==> t.players[k].Active())
    {
      SeatIs(t, k);
    }
  }

  lemma NewRowIsIdle(pos: nat, s: PlayingState, stack: nat)
    ensures Idle(SeatRow(pos, s, stack))
  {
  }

  lemma TwoLeftPlaced(t: Table)
    requires Four(t, SittingIn, SitInPending, SitOutPending, SitInAtBlindsPending)
    ensures Placed(t, 2, 0)
  {
    SeatsAre(t, SittingIn, SitInPending, SitOutPending, SitInAtBlindsPending);
  }

  lemma TwoLeftIsBetween()
    ensures Between(TwoLeft()) && Placed(TwoLeft(), 2, 0)
    ensures Four(TwoLeft(), SittingIn, SitInPending, SitOutPending, SitInAtBlindsPending)
  {
    NewRowIsIdle(0, SittingIn, 100);
    NewRowIsIdle(1, SitInPending, 100);
    NewRowIsIdle(2, SitOutPending, 100);
    NewRowIsIdle(3, SitInAtBlindsPending, 100);
    TwoLeftPlaced(TwoLeft());
  }

  lemma RebuysKeepFour(t: Table, autos: map<nat, int>, paid: set<nat>, u: Table)
    requires Four(t, SittingIn, SitInPending, SitOutPending, SitInAtBlindsPending) && HasBought(t, autos, paid, u)
    ensures Four(u, SittingIn, SitInPending, SitOutPending, SitInAtBlindsPending)
  {
    forall i: nat | i < 4 ensures u.players[i].stack >= t.players[i].stack {
      CheckedIsLegal(t, t.players[i], AutoOf(autos, i));
    }
  }

  /** Seat 2 goes out; the others stay as they are. */
  lemma OneDeparts(t: Table, u: Table)
    requires Four(t, SittingIn, SitInPending, SitOutPending, SitInAtBlindsPending) && AllDeparted(t, u)
    ensures Four(u, SittingIn, SitInPending, SittingOut, SitInAtBlindsPending)
  {
    assert Departed(t.players[0], u.players[0]) && Departed(t.players[1], u.players[1]);
    assert Departed(t.players[2], u.players[2]) && Departed(t.players[3], u.players[3]);
  }

  // Seat 3 is the one whom the walk from the big blind reaches

  lemma {:induction false} WalkTo(t: Table)
    requires Four(t, SittingIn, SitInPending, SittingOut, SitInAtBlindsPending)
    ensures Reached(t, 0) == [3]
  {
    SeatsAre(t, SittingIn, SitInPending, SittingOut, SitInAtBlindsPending);
    assert Reached(t, 0, 3) == [3];
    assert Reached(t, 0, 2) == Reached(t, 0, 3);
    assert Reached(t, 0, 1) == Reached(t, 0, 2);
  }

  lemma OneSitsIn(t: Table, u: Table)
    requires Four(t, SittingIn, SitInPending, SittingOut, SitInAtBlindsPending) && Switched(t, 0, u)
    ensures Four(u, SittingIn, SitInPending, SittingOut, SittingIn)
  {
    WalkTo(t);
    assert 3 in Reached(t, 0) && Switch(t.players[3], u.players[3]);
  }

  lemma ResetKeepsFour(t: Table, u: Table)
    requires Four(t, SittingIn, SitInPending, SittingOut, SittingIn) && AllInPlace(t, u)
    requires u == t.(players := u.players, deck := u.deck, board := u.board)
    ensures Four(u, SittingIn, SitInPending, SittingOut, SittingIn)
  {
    assert SamePlace(t.players[0], u.players[0]) && SamePlace(t.players[1], u.players[1]);
    assert SamePlace(t.players[2], u.players[2]) && SamePlace(t.players[3], u.players[3]);
  }

  /** Seats 0 and 1 can play. */
  lemma Enough(t: Table, c: PlayingState, d: PlayingState)
    requires Four(t, SittingIn, SitInPending, c, d)
    ensures EnoughPlayersToPlay(t)
  {
    var rest := t.players[0 := t.players[0].(seated := false)];
    SumUpdate(t.players, 0, t.players[0].(seated := false), PlayOne(t));
    SumUpdate(rest, 1, rest[1].(seated := false), PlayOne(t));
    SumNonNegative(rest[1 := rest[1].(seated := false)], PlayOne(t));
  }

  /** Two are in, one of them between the old blinds, and seat 1 takes the big blind. */
  lemma TwoInStuck(t: Table)
    requires Four(t, SittingIn, SitInPending, SittingOut, SittingIn)
    requires t.btnPos == Some(2) && t.sbPos == Some(2) && t.bbPos == Some(0)
    ensures !Placed(t, 2, 0) && !StartsAnew(t) && Rotation(t, 2, 0) == Failure(RotatedBack)
  {
    SeatsAre(t, SittingIn, SitInPending, SittingOut, SittingIn);
    assert Ahead(4, 2, 1) == 3;
    CountFour(ActiveSeat(t));
    ButtonRotatesBack(t);
  }

  ghost predicate OldBlinds(t: Table) {
    t.btnPos == Some(2) && t.sbPos == Some(2) && t.bbPos == Some(0)
  }

  lemma ThreeStay(t: Table) returns (left: Table)
    requires Between(t) && Four(t, SittingIn, SitInPending, SitOutPending, SitInAtBlindsPending) && OldBlinds(t)
    ensures FireAll(t, Departures(t)) == Success(left) && Settling(left) && OldBlinds(left)
    ensures Four(left, SittingIn, SitInPending, SittingOut, SitInAtBlindsPending)
  {
    left := DeparturesSettle(t);
    OneDeparts(t, left);
  }

  lemma ThirdSits(t: Table) returns (sat: Table)
    requires Settling(t) && Four(t, SittingIn, SitInPending, SittingOut, SitInAtBlindsPending) && OldBlinds(t)
    ensures FireAll(t, Sitters(t)) == Success(sat) && Settling(sat) && OldBlinds(sat)
    ensures Four(sat, SittingIn, SitInPending, SittingOut, SittingIn)
  {
    sat := SittersSettle(t);
    OneSitsIn(t, sat);
  }

  lemma PreparedIsStuck(t: Table) returns (clear: Table)
    requires Between(t) && Four(t, SittingIn, SitInPending, SitOutPending, SitInAtBlindsPending) && OldBlinds(t)
    ensures Prepared(t) == Success(Some(clear)) && Four(clear, SittingIn, SitInPending, SittingOut, SittingIn)
    ensures OldBlinds(clear)
  {
    var left := ThreeStay(t);
    Enough(left, SittingOut, SitInAtBlindsPending);
    var sat := ThirdSits(left);
    Enough(sat, SittingOut, SittingIn);
    clear := ClearEventsClear(sat);
    ResetKeepsFour(sat, clear);
    PreparedBy(t, left, sat, clear);
  }

  /**
   * From a table with the blinds placed: the small blind leaves, seat 3 sits in between the blinds, and
   * the button search of the next hand meets the big blind.
   */
  lemma NextHandGetsStuck(s: Setup)
    requires multiset(s.deck) == multiset(FullDeck())
    ensures Between(TwoLeft()) && Placed(TwoLeft(), 2, 0) && NextHand(TwoLeft(), s) == Failure(RotatedBack)
  {
    var t := TwoLeft();
    TwoLeftIsBetween();
    var bought := RebuysGoThrough(t, s.autos, s.paid);
    RebuysKeepFour(t, s.autos, s.paid, bought);
    RebuysKeepPlaces(t, s.autos, s.paid, bought);
    var clear := PreparedIsStuck(bought);
    TwoInStuck(clear);
  }
}
