/** The two kinds of hands that find no winner for their last pot, and why no later street helps. */
module Unpaid {
  import opened Wrappers
  import opened Indexes
  import opened Players
  import opened Tables
  import opened Accessors
  import opened Betting
  import opened BettingSteps
  import opened Streets
  import opened Hands
  import opened Play
  import opened Pots
  import opened Showdown
  import opened Settlement
  import opened Endings

  lemma TwoLive(t: Table, i: nat, j: nat)
    requires Seating(t) && i < j < |t.players| && t.players[i].Live() && t.players[j].Live()
    ensures |ActingOrder(t)| != 1
  {
    ActingOrderComplete(t);
    assert i in ActingOrder(t) && j in ActingOrder(t);
  }

  /** A pot on top that nobody still in has a share of is not paid. */
  lemma UnsharedIsUnpaid(t: Table, rank: nat -> int, i: nat, j: nat)
    requires HandInv(t) && TopShared(t, WagersOf)
    requires i < j < |t.players| && t.players[i].Live() && t.players[j].Live()
    requires CurrentPot(t) != 0 && !TopIsContested(t)
    ensures EndHand(t, rank) == Failure(NoWinner)
  {
    SharedLeavesNothing(t);
    EndHandIsExact(t, rank);
    TwoLive(t, i, j);
  }

  /** i is all in for less than w. */
  ghost predicate AllInBelow(p: PlayerState, w: int) {
    0 < p.wagers < w && p.stack == 0 && p.last != Some(ActFold) && p.last != Some(ActSitIn)
  }

  lemma NobodyTops(t: Table, w: int)
    requires t.numSeats > 0 && w <= TopWager(t)
    requires forall i :: 0 <= i < |t.players| && t.players[i].Live() ==> AllInBelow(t.players[i], w)
    ensures !TopIsContested(t)
  {
    forall i: nat | i < |t.players| && t.players[i].Live() ensures !Tops(t, i) {
      assert MemberAt(t)(i);
    }
  }

  /** The whole family: two players share the top, and everybody still in is all in for less. */
  lemma AllInBelowIsUnpaid(t: Table, rank: nat -> int, i: nat, j: nat, k: nat, l: nat)
    requires HandInv(t) && TopPair(t, WagersOf, k, l)
    requires i < j < |t.players| && t.players[i].Live() && t.players[j].Live()
    requires forall i :: 0 <= i < |t.players| && t.players[i].Live() ==> AllInBelow(t.players[i], t.players[k].wagers)
    ensures EndHand(t, rank) == Failure(NoWinner)
  {
    Positive(t, k);
    TopIs(t, k);
    NobodyTops(t, t.players[k].wagers);
    UnsharedIsUnpaid(t, rank, i, j);
  }

  /** The other family: two are still in, nobody has a wager left, and all there is to win is dead money. */
  lemma DeadIsUnpaid(t: Table, rank: nat -> int, i: nat, j: nat, k: nat)
    requires HandInv(t) && forall i :: 0 <= i < |t.players| ==> t.players[i].wagers == 0
    requires i < j < |t.players| && t.players[i].Live() && t.players[j].Live()
    requires k < |t.players| && t.players[k].Active() && t.players[k].dead > 0
    ensures EndHand(t, rank) == Failure(NoWinner)
  {
    assert TopPair(t, WagersOf, i, j);
    assert Sane(t.players[k]);
    Positive(t, k);
    UnsharedIsUnpaid(t, rank, i, j);
  }

  lemma Positive(t: Table, i: nat)
    requires Seating(t) && EveryPlayer(t) && i < |t.players| && t.players[i].Active()
    requires t.players[i].wagers + t.players[i].dead > 0
    ensures CurrentPot(t) > 0
  {
    NoNegativeWagers(t);
    ActivePlayersComplete(t, StartPos(t));
    SumOfAtLeast(Actives(t), ContributedAt(t), i);
  }

  lemma TopIs(t: Table, i: nat)
    requires Seating(t) && i < |t.players| && t.players[i].Active()
    ensures t.players[i].wagers <= TopWager(t)
  {
    ActivePlayersComplete(t, StartPos(t));
    MaxOfBounds(Actives(t), WagerAt(t));
    assert WagerAt(t)(i) <= TopWager(t);
  }

  // Later streets

  ghost predicate BothLive(t: Table, i: nat, j: nat) {
    i < j < |t.players| && t.players[i].Live() && t.players[j].Live()
  }

  /** k and l share the top, and everybody still in, i and j among them, is all in for less. */
  ghost predicate Outbid(t: Table, i: nat, j: nat, k: nat, l: nat) {
    && BothLive(t, i, j) && TopPair(t, WagersOf, k, l)
    && forall x :: 0 <= x < |t.players| && t.players[x].Live() ==> AllInBelow(t.players[x], t.players[k].wagers)
  }

  lemma NobodyActs(t: Table)
    requires Seating(t) && forall x :: 0 <= x < |t.players| && t.players[x].Live() ==> t.players[x].stack == 0
    ensures NextToAct(t) == None
  {
    FilterNone(ActingOrder(t), ChipsAt(t));
  }

  lemma NobodyIsSole(t: Table, m: nat)
    requires TopShared(t, WagersOf)
    ensures !SoleHolder(t, m)
  {
    var k: nat, l: nat :| TopPair(t, WagersOf, k, l);
    var x := if m == k then l else k;
    assert WagersOf(t.players[x]) == WagersOf(t.players[k]);
    if m < |t.players| {
      assert WagersOf(t.players[m]) <= WagersOf(t.players[k]);
    }
  }

  lemma SharedIsKept(t: Table, r: Table)
    requires TopShared(t, WagersOf) && Returned(t, r)
    ensures r == t
  {
    forall m ensures !SoleHolder(t, m) {
      NobodyIsSole(t, m);
    }
  }

  lemma CollectedStays(p: PlayerState, q: PlayerState, w: int)
    requires Collected(p, q)
    ensures q.Live() == p.Live() && q.Active() == p.Active()
    ensures q.wagers == p.wagers && q.stack == p.stack && q.dead == p.dead
    ensures p.Active() && AllInBelow(p, w) ==> AllInBelow(q, w)
  {
  }

  lemma StillOutbid(t: Table, u: Table, i: nat, j: nat, k: nat, l: nat)
    requires Outbid(t, i, j, k, l) && |u.players| == |t.players|
    requires forall x: nat :: x < |t.players| ==> Collected(t.players[x], u.players[x])
    ensures Outbid(u, i, j, k, l)
  {
    forall x: nat | x < |t.players|
      ensures u.players[x].Live() == t.players[x].Live() && u.players[x].Active() == t.players[x].Active()
      ensures u.players[x].wagers == t.players[x].wagers
      ensures t.players[x].Live() ==> AllInBelow(u.players[x], t.players[k].wagers)
    {
      CollectedStays(t.players[x], u.players[x], t.players[k].wagers);
    }
    assert TopPair(u, WagersOf, k, l);
  }

  lemma OutbidStreet(t: Table, i: nat, j: nat, k: nat, l: nat) returns (u: Table)
    requires HandInv(t) && Outbid(t, i, j, k, l) && !HandOver(t) && NextToAct(t) == None
    ensures DealStreet(t, StreetCards(t)) == Success(u) && Outbid(u, i, j, k, l)
  {
    var r: Table;
    r, u := StreetDealt(t, StreetCards(t));
    SharedIsKept(t, r);
    StillOutbid(t, u, i, j, k, l);
  }

  /** The streets still to come change nothing: the hand ends without a winner for the top pot. */
  lemma OutbidIsUnpaid(t: Table, rank: nat -> int, i: nat, j: nat, k: nat, l: nat)
    requires HandInv(t) && Outbid(t, i, j, k, l)
    ensures EndHand(Last(t), rank) == Failure(NoWinner)
    decreases Measure(t)
  {
    NobodyActs(t);
    if HandOver(t) {
      StepStops(t);
      AllInBelowIsUnpaid(t, rank, i, j, k, l);
    } else {
      var v := StepDealsStreet(t);
      var u := OutbidStreet(t, i, j, k, l);
      OutbidIsUnpaid(u, rank, i, j, k, l);
    }
  }

  // Dead money only

  /** One player may have chips, nobody has anything to call, and k has dead money in. */
  ghost predicate DeadOnly(t: Table, i: nat, j: nat, k: nat) {
    && BothLive(t, i, j) && k < |t.players| && t.players[k].Active() && t.players[k].dead > 0
    && (forall x :: 0 <= x < |t.players| ==> t.players[x].wagers == 0)
    && forall x :: 0 <= x < |t.players| && t.players[x].Live() && x != i ==> t.players[x].stack == 0
  }

  lemma NobodyBets(t: Table, i: nat)
    requires Seating(t) && EveryPlayer(t)
    requires forall x :: 0 <= x < |t.players| && t.players[x].Live() && x != i ==> t.players[x].stack == 0
    requires LastRaiseSize(t) == 0
    ensures NextToAct(t) == None
  {
    ActingOrderComplete(t);
    var order := ActingOrder(t);
    var chips := Filter(order, ChipsAt(t));
    FilterDistinct(order, ChipsAt(t));
    if |chips| >= 2 {
      TwoDiffer(chips);
    }
  }

  lemma NothingWagered(t: Table)
    requires EveryPlayer(t) && forall x :: 0 <= x < |t.players| ==> t.players[x].wagers == 0
    ensures LastRaiseSize(t) == 0
  {
    forall x | 0 <= x < |t.players| ensures t.players[x].uncollected == 0 {
      assert Sane(t.players[x]);
    }
    MaxIs(t.players, false, 0);
  }

  /** One player may have chips and a wager, and k has dead money in. */
  ghost predicate OneBettor(t: Table, i: nat, j: nat, k: nat) {
    && BothLive(t, i, j) && k < |t.players| && t.players[k].Active() && t.players[k].dead > 0
    && (forall x :: 0 <= x < |t.players| && x != i ==> t.players[x].wagers == 0)
    && forall x :: 0 <= x < |t.players| && t.players[x].Live() && x != i ==> t.players[x].stack == 0
  }

  /** The next street, when the only wager is one player's own and goes back, or there is none. */
  lemma DeadStreet(t: Table, i: nat, j: nat, k: nat) returns (u: Table)
    requires HandInv(t) && OneBettor(t, i, j, k) && !HandOver(t)
    ensures DealStreet(t, StreetCards(t)) == Success(u) && DeadOnly(u, i, j, k)
  {
    var r: Table;
    r, u := StreetDealt(t, StreetCards(t));
    SoleGoesBack(t, r, i);
    forall x: nat | x < |t.players| ensures StaysDead(t.players[x], u.players[x], x == i) {
      assert Collected(r.players[x], u.players[x]);
      CollectedStays(r.players[x], u.players[x], 0);
    }
    DeadStays(t, u, i, j, k);
  }

  /** Nothing wagered any more; only the bettor's stack may have changed. */
  ghost predicate StaysDead(p: PlayerState, q: PlayerState, bettor: bool) {
    && q.Live() == p.Live() && q.Active() == p.Active() && q.wagers == 0 && q.dead == p.dead
    && (!bettor ==> q.stack == p.stack)
  }

  lemma DeadStays(t: Table, u: Table, i: nat, j: nat, k: nat)
    requires OneBettor(t, i, j, k) && |u.players| == |t.players|
    requires forall x: nat :: x < |t.players| ==> StaysDead(t.players[x], u.players[x], x == i)
    ensures DeadOnly(u, i, j, k)
  {
    assert StaysDead(t.players[i], u.players[i], true) && StaysDead(t.players[j], u.players[j], j == i);
    assert StaysDead(t.players[k], u.players[k], k == i);
  }

  lemma SoleGoesBack(t: Table, r: Table, i: nat)
    requires EveryPlayer(t) && Returned(t, r) && TopShared(r, WagersOf) && i < |t.players|
    requires forall x :: 0 <= x < |t.players| && x != i ==> t.players[x].wagers == 0
    ensures |r.players| == |t.players|
    ensures forall x :: 0 <= x < |t.players| ==>
      r.players[x].wagers == 0 && r.players[x].dead == t.players[x].dead
      && r.players[x].Live() == t.players[x].Live() && r.players[x].Active() == t.players[x].Active()
      && (x != i ==> r.players[x].stack == t.players[x].stack)
  {
    if r == t {
      SharedIsNothing(t, i);
    } else {
      var m: nat :| SoleHolder(t, m) && r == With(t, m, Refunded(t, m));
      SoleTakesBack(t, i, m);
    }
  }

  /** With two sharing the top there is no wager at all. */
  lemma SharedIsNothing(t: Table, i: nat)
    requires EveryPlayer(t) && TopShared(t, WagersOf) && i < |t.players|
    requires forall x :: 0 <= x < |t.players| && x != i ==> t.players[x].wagers == 0
    ensures t.players[i].wagers == 0
  {
    var k: nat, l: nat :| TopPair(t, WagersOf, k, l);
    assert Sane(t.players[i]);
  }

  /** Otherwise the one with a wager gets all of it back. */
  lemma SoleTakesBack(t: Table, i: nat, m: nat)
    requires EveryPlayer(t) && SoleHolder(t, m) && i < |t.players|
    requires forall x :: 0 <= x < |t.players| && x != i ==> t.players[x].wagers == 0
    ensures Refund(t, m) == t.players[m].wagers && (m != i ==> t.players[i].wagers == 0 && Refund(t, m) == 0)
  {
    assert Sane(t.players[i]) && Sane(t.players[m]);
    if LargestWager(t.players, m) > 0 {
      var x := LargestAttained(t.players, m);
    }
  }

  lemma DeadOnlyIsUnpaid(t: Table, rank: nat -> int, i: nat, j: nat, k: nat)
    requires HandInv(t) && DeadOnly(t, i, j, k)
    ensures EndHand(Last(t), rank) == Failure(NoWinner)
    decreases Measure(t)
  {
    NothingWagered(t);
    NobodyBets(t, i);
    if HandOver(t) {
      StepStops(t);
      DeadIsUnpaid(t, rank, i, j, k);
    } else {
      var v := StepDealsStreet(t);
      var u := DeadStreet(t, i, j, k);
      DeadOnlyIsUnpaid(u, rank, i, j, k);
    }
  }
}
