/** end_hand from any dealt hand: when it pays, what it pays, and when it raises. */
module Endings {
  import opened Wrappers
  import opened Indexes
  import opened Players
  import opened Tables
  import opened Accessors
  import opened Betting
  import opened BettingSteps
  import opened Streets
  import opened Hands
  import opened Pots
  import opened Showdown
  import opened Settlement

  // Uncalled bets back

  /** The table that end_hand settles. */
  function AfterReturn(t: Table): Table {
    match FireAll(t, ReturnUncalled(t))
    case Success(r) => r
    case Failure(_) => t
  }

  lemma ReturnedKeepsTable(t: Table, r: Table)
    requires Seating(t) && Returned(t, r)
    ensures Seating(r) && Total(r) == Total(t) && |r.players| == |t.players|
    ensures forall i :: 0 <= i < |t.players| ==> r.players[i].Live() == t.players[i].Live()
  {
    if r != t {
      var m: nat :| SoleHolder(t, m) && r == With(t, m, Refunded(t, m));
      RefundKeepsTable(t, m);
    }
  }

  lemma RefundKeepsTable(t: Table, m: nat)
    requires Seating(t) && m < |t.players|
    ensures
      var r := With(t, m, Refunded(t, m));
      && Seating(r) && Total(r) == Total(t)
      && forall i :: 0 <= i < |t.players| ==> r.players[i].Live() == t.players[i].Live()
  {
    SumUpdate(t.players, m, Refunded(t, m), ChipsOf);
  }

  lemma {:induction false} ReturnKeepsTable(t: Table)
    requires HandInv(t)
    ensures FireAll(t, ReturnUncalled(t)) == Success(AfterReturn(t))
    ensures
      var r := AfterReturn(t);
      && Seating(r) && EveryPlayer(r) && TopShared(r, WagersOf) && Total(r) == Total(t) && |r.players| == |t.players|
      && forall i :: 0 <= i < |t.players| ==> r.players[i].Live() == t.players[i].Live()
  {
    ReturnUncalledIsExact(t);
    ReturnedKeepsTable(t, AfterReturn(t));
  }

  // When the hand is paid out

  /**
   * end_hand raises only for want of a winner, never because the wins do not add up; when it pays,
   * all chips that were in the hand are in stacks again, and nothing of the hand is left.
   */
  lemma EndHandIsExact(t: Table, rank: nat -> int)
    requires HandInv(t)
    ensures AfterReturn(t).numSeats > 0
    ensures EndHand(t, rank).Success? <==> Payable(AfterReturn(t))
    ensures EndHand(t, rank).Failure? ==> EndHand(t, rank).error == NoWinner
    ensures EndHand(t, rank).Success? ==>
      var u := EndHand(t, rank).value;
      var awards := AwardsFor(AfterReturn(t), rank);
      awards.Success? && Settled(AfterReturn(t), u, awards.value) && Sum(u.players, StackOf) == Total(t)
  {
    ReturnKeepsTable(t);
    SettleIsExact(AfterReturn(t), rank);
  }

  lemma AllInIsMember(r: Table, i: nat)
    requires Seating(r) && EveryPlayer(r) && i < |r.players| && r.players[i].Live()
    requires r.players[i].stack == 0 && r.players[i].wagers > 0
    ensures i in Actives(r) && (MemberAt(r)(i) || WagerAt(r)(i) == TopWager(r))
  {
    ActivePlayersComplete(r, StartPos(r));
    MaxOfBounds(Actives(r), WagerAt(r));
    assert DealtOrFolded(r.players[i]);
  }

  /** The dead money, and each wager up to the player's own. */
  function CapOf(r: Table, i: nat): int
    requires r.numSeats > 0
  {
    DeadMoney(r) + SumOf(Actives(r), CapAt(r, WagerAt(r)(i)))
  }

  lemma {:induction false} AwardIsCapped(r: Table, rank: nat -> int, i: nat)
    requires Seating(r) && EveryPlayer(r) && i < |r.players| && r.players[i].Live()
    requires r.players[i].stack == 0 && r.players[i].wagers > 0
    requires |ActingOrder(r)| != 1 && AwardsFor(r, rank).Success?
    ensures AwardedTo(AwardsFor(r, rank).value, i) <= CapOf(r, i)
  {
    NoNegativeWagers(r);
    PotsNonNegative(r);
    AllInIsMember(r, i);
    AllInPotsAreCapped(r, i);
    WinsAreCapped(ActingOrder(r), SidePots(r), rank, i);
  }

  /** An all-in player at a showdown wins at most the dead money and each wager up to their own. */
  lemma AllInWinIsCapped(t: Table, rank: nat -> int, i: nat)
    requires HandInv(t) && AfterReturn(t).numSeats > 0 && EndHand(t, rank).Success?
    requires |ActingOrder(AfterReturn(t))| != 1
    requires i < |AfterReturn(t).players| && AfterReturn(t).players[i].Live()
    requires AfterReturn(t).players[i].stack == 0 && AfterReturn(t).players[i].wagers > 0
    ensures i < |EndHand(t, rank).value.players|
    ensures EndHand(t, rank).value.players[i].stack <= CapOf(AfterReturn(t), i)
  {
    EndHandIsExact(t, rank);
    ReturnKeepsTable(t);
    AwardIsCapped(AfterReturn(t), rank, i);
  }

  lemma LiveTopIsContested(r: Table, i: nat)
    requires Seating(r) && i < |r.players| && r.players[i].Live() && 0 < r.players[i].wagers
    requires forall j :: 0 <= j < |r.players| ==> r.players[j].wagers <= r.players[i].wagers
    ensures TopIsContested(r)
  {
    ActivePlayersComplete(r, StartPos(r));
    MaxOfBounds(Actives(r), WagerAt(r));
    assert WagerAt(r)(i) == r.players[i].wagers && TopWager(r) <= r.players[i].wagers by {
      if TopWager(r) > 0 {
        var k :| k in Actives(r) && WagerAt(r)(k) == TopWager(r);
      }
    }
    assert Tops(r, i);
  }

  /** When nobody has more in than somebody still in has, the hand is paid. */
  lemma LiveTopIsPaid(t: Table, rank: nat -> int, i: nat)
    requires HandInv(t) && i < |AfterReturn(t).players| && AfterReturn(t).players[i].Live()
    requires 0 < AfterReturn(t).players[i].wagers
    requires forall j :: 0 <= j < |AfterReturn(t).players| ==>
      AfterReturn(t).players[j].wagers <= AfterReturn(t).players[i].wagers
    ensures EndHand(t, rank).Success?
  {
    EndHandIsExact(t, rank);
    ReturnKeepsTable(t);
    LiveTopIsContested(AfterReturn(t), i);
  }
}
