/** Small tables to deal from: every player sits in on a seat of their own. */
module Places {
  import opened Wrappers
  import opened Players
  import opened Tables
  import opened Accessors
  import opened Betting
  import opened Cards
  import opened Deals
  import opened Openings

  function Place(pos: nat, stack: int, owesBb: bool): PlayerState {
    SeatRow(pos, SittingIn, stack).(owesBb := owesBb)
  }

  lemma WholeDeck()
    ensures |FullDeck()| == 52
  {
    assert Suits(4, 13) == Suits(3, 13) + InSuit(3, 13);
    assert Suits(3, 13) == Suits(2, 13) + InSuit(2, 13);
    assert Suits(2, 13) == Suits(1, 13) + InSuit(1, 13);
  }

  lemma {:induction false} FewAround(t: Table, seat: nat, count: nat)
    requires t.numSeats > 0
    ensures |ActiveFrom(t, seat, count)| <= count
    decreases count
  {
    if count > 0 {
      FewAround(t, seat + 1, count - 1);
    }
  }

  lemma {:induction false} ManyActive(ps: seq<PlayerState>)
    requires forall i :: 0 <= i < |ps| ==> ps[i].Active()
    ensures Sum(ps, ActiveOne) == |ps|
    decreases |ps|
  {
    if ps != [] {
      ManyActive(ps[..|ps| - 1]);
    }
  }

  ghost predicate SatDown(p: PlayerState, n: nat) {
    p.seated && p.playing == Some(SittingIn) && p.position.Some? && p.position.value < n && Idle(p)
  }

  lemma PlaceIsSettled(pos: nat, stack: int, owesBb: bool, n: nat)
    requires 0 <= stack && pos < n
    ensures SatDown(Place(pos, stack, owesBb), n) && Place(pos, stack, owesBb).position == Some(pos)
  {
  }

  /** Enough players with chips, each on a seat of their own, and a whole deck. */
  lemma SettledIsReady(t: Table, b: nat)
    requires 2 <= t.numSeats <= 23 && 0 < t.bb && 0 <= t.sb && 0 <= t.minBuyin && t.board == [] && |t.deck| == 52
    requires 2 <= |t.players| && forall i :: 0 <= i < |t.players| ==> SatDown(t.players[i], t.numSeats)
    requires forall i, j :: 0 <= i < j < |t.players| ==> t.players[i].position != t.players[j].position
    requires b < |t.players| && t.players[b].position == t.bbPos
    ensures Ready(t)
  {
    FewAround(t, StartPos(t), t.numSeats);
    ManyActive(t.players);
    assert IsBb(t, b);
  }
}
