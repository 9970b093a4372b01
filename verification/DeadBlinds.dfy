/** A small blind owed from one hand to the next, and the hand after which only its dead money is left. */
module DeadBlinds {
  import opened Wrappers
  import opened Indexes
  import opened Players
  import opened Tables
  import opened Accessors
  import opened Betting
  import opened BettingSteps
  import opened Requests
  import opened OutOfTurn
  import opened Streets
  import opened Hands
  import opened Play
  import opened Pots
  import opened Showdown
  import opened Settlement
  import opened Rings
  import opened Blinds
  import opened Debts
  import opened Cards
  import opened Deals
  import opened Openings
  import opened BlindCover
  import opened Sitting
  import opened BlindSitting
  import opened Joining
  import opened Rebuys
  import opened BetweenHands
  import opened Unpaid
  import opened UnpaidDeals
  import opened WholeHands

  // The hand before

  /**
   * Seat 2 owes a small blind, and seat 3 has no chips, for the buy-in was not paid; both wait to sit in.
   * The big blind, on seat 0, leaves, so that nobody is on the small blind next.
   */
  function Owing(): Table {
    Table(6, 5, 10, 100, 1000, Some(4), Some(5), Some(0), [], [], [
      SeatRow(1, SittingIn, 100), SeatRow(4, SittingIn, 100), SeatRow(5, SittingIn, 100),
      SeatRow(2, SitInPending, 100).(owesSb := true), SeatRow(3, SitInPending, 0).(owesBb := true),
      SeatRow(0, LeaveSeatPending, 100)])
  }

  /** Somebody who joins to sit in, and whose buy-in fails after the seat is taken, waits without chips. */
  lemma UnpaidJoinWaits(t: Table, i: nat, j: Join) returns (u: Table)
    requires Seating(t) && EveryPlayer(t) && MayJoin(t, i, j) && j.how == WhenReady && !j.paid
    ensures JoinTable(t, i, j) == Success(u) && |u.players| == |t.players|
    ensures u.players[i].playing == Some(SitInPending) && u.players[i].stack == 0 && u.players[i].owesBb
  {
    JoinFires(t, i, j);
    u := With(t, i, Arrived(t, t.players[i], j));
  }

  ghost predicate InSeat(p: PlayerState, pos: nat, s: PlayingState, stack: int, owesBb: bool, owesSb: bool) {
    && p.seated && p.position == Some(pos) && p.playing == Some(s) && p.stack == stack
    && p.owesBb == owesBb && p.owesSb == owesSb
  }

  /** Three sit in, the fourth owes a small blind, the fifth has no chips, and the sixth is gone. */
  ghost predicate Six(t: Table, s: PlayingState) {
    && t.numSeats == 6 && t.sb == 5 && t.bb == 10 && |t.players| == 6
    && InSeat(t.players[0], 1, SittingIn, 100, false, false) && InSeat(t.players[1], 4, SittingIn, 100, false, false)
    && InSeat(t.players[2], 5, SittingIn, 100, false, false)
    && InSeat(t.players[3], 2, s, 100, false, true) && InSeat(t.players[4], 3, s, 0, true, false)
    && t.players[5].position == Some(0) && !t.players[5].seated
  }

  ghost predicate BlindsAt(t: Table, btn: nat, sb: nat, bb: nat) {
    t.btnPos == Some(btn) && t.sbPos == Some(sb) && t.bbPos == Some(bb)
  }

  ghost predicate NothingPends(t: Table) {
    forall i :: 0 <= i < |t.players| ==> t.players[i].pendingRebuy == 0
  }

  lemma OwingIsBetween()
    ensures Between(Owing()) && Placed(Owing(), 5, 0) && NothingPends(Owing())
  {
    OwingSeats();
    OwingIdles();
    assert Gap(6, 5, 0) == 1;
  }

  lemma OwingSeats()
    ensures Seating(Owing())
  {
  }

  lemma OwingIdles()
    ensures AllIdle(Owing()) && NothingPends(Owing())
  {
  }

  lemma NothingBought(t: Table, autos: map<nat, int>, paid: set<nat>, u: Table)
    requires autos == map[] && HasBought(t, autos, paid, u) && NothingPends(t)
    ensures u == t
  {
    forall i: nat | i < |t.players| ensures u.players[i] == t.players[i] {
      assert BoughtBy(t, autos, paid, i) == 0;
    }
    assert u.players == t.players;
  }

  lemma OneLeaves(t: Table, u: Table)
    requires t == Owing() && AllDeparted(t, u)
    ensures Six(u, SitInPending) && !u.players[0].sitOutAtBlinds
  {
    assert Departed(t.players[0], u.players[0]) && Departed(t.players[1], u.players[1]);
    assert Departed(t.players[2], u.players[2]) && Departed(t.players[3], u.players[3]);
    assert Departed(t.players[4], u.players[4]) && Departed(t.players[5], u.players[5]);
  }

  lemma SeatOf(t: Table, i: nat)
    requires Seating(t) && i < |t.players| && t.players[i].seated
    ensures FindAt(t.players, t.players[i].position.value, false) == Some(i)
    ensures ActiveSeat(t)(t.players[i].position.value) <==> t.players[i].Active()
  {
    FoundAt(t, i, false);
    if t.players[i].Active() {
      FoundAt(t, i, true);
    }
  }

  lemma SixSeats(t: Table)
    requires Seating(t) && Six(t, SitInPending)
    ensures FindAt(t.players, 1, false) == Some(0)
    ensures !ActiveSeat(t)(0) && ActiveSeat(t)(1) && ActiveSeat(t)(4) && ActiveSeat(t)(5)
  {
    SeatOf(t, 0);
    SeatOf(t, 1);
    SeatOf(t, 2);
  }

  lemma {:induction false} CountSix(p: nat -> bool)
    requires p(1) && p(4) && p(5)
    ensures CountOf(6, p) >= 3
  {
    assert CountOf(6, p) == CountOf(5, p) + 1;
    assert CountOf(5, p) == CountOf(4, p) + 1;
    CountFour(p);
  }

  lemma {:induction false} NobodyWalks(t: Table)
    requires Seating(t) && Six(t, SitInPending) && !t.players[0].sitOutAtBlinds
    ensures Reached(t, 0) == []
  {
    SixSeats(t);
    assert Ahead(6, 0, 1) == 1;
  }

  lemma EnoughSit(t: Table)
    requires Six(t, SitInPending)
    ensures EnoughPlayersToPlay(t)
  {
    var rest := t.players[0 := t.players[0].(seated := false)];
    SumUpdate(t.players, 0, t.players[0].(seated := false), PlayOne(t));
    SumUpdate(rest, 1, rest[1].(seated := false), PlayOne(t));
    SumNonNegative(rest[1 := rest[1].(seated := false)], PlayOne(t));
  }

  lemma SixStay(t: Table, u: Table)
    requires Six(t, SitInPending) && SameBank(t, u) && AllInPlace(t, u)
    ensures Six(u, SitInPending)
  {
    assert SamePlace(t.players[0], u.players[0]) && SamePlace(t.players[1], u.players[1]);
    assert SamePlace(t.players[2], u.players[2]) && SamePlace(t.players[3], u.players[3]);
    assert SamePlace(t.players[4], u.players[4]) && SamePlace(t.players[5], u.players[5]);
  }

  lemma OwingLeft() returns (left: Table)
    ensures FireAll(Owing(), Departures(Owing())) == Success(left) && Settling(left) && Six(left, SitInPending)
    ensures !left.players[0].sitOutAtBlinds && BlindsAt(left, 4, 5, 0)
  {
    OwingIsBetween();
    left := DeparturesSettle(Owing());
    OneLeaves(Owing(), left);
  }

  lemma {:induction false} NobodySits(t: Table)
    requires Settling(t) && Six(t, SitInPending) && !t.players[0].sitOutAtBlinds && BlindsAt(t, 4, 5, 0)
    ensures FireAll(t, Sitters(t)) == Success(t)
  {
    NobodyWalks(t);
  }

  lemma OwingPrepared() returns (clear: Table)
    ensures Prepared(Owing()) == Success(Some(clear)) && Clear(clear)
    ensures Six(clear, SitInPending) && BlindsAt(clear, 4, 5, 0)
  {
    OwingIsBetween();
    var left := OwingLeft();
    EnoughSit(left);
    NobodySits(left);
    clear := ClearEventsClear(left);
    SixStay(left, clear);
    PreparedBy(Owing(), left, left, clear);
  }

  // The blinds move on

  lemma OwingRotates(t: Table, tooLong: set<nat>)
    requires Seating(t) && Six(t, SitInPending)
    ensures Rotation(t, 5, 0) == Success(Positions(5, 0, 1)) && RotationEvents(t, 5, 0, 1, tooLong) == []
    ensures CountOf(6, InAt(t, 1)) != 2 && CountOf(6, ActiveSeat(t)) >= 3
  {
    SixSeats(t);
    ScanIs(6, 0, 1, 1, ReadySeat(t));
    assert Ahead(6, 5, 1) == 0 && Ahead(6, 0, 1) == 1;
    ScanIs(6, 5, 1, 1, SbStop(t, 1));
    CountSix(ActiveSeat(t));
    CountSix(InAt(t, 1));
    assert Button(t, 0, 1) == Success(5);
  }

  lemma {:induction false} WaiterSitsIn(p: PlayerState, pos: nat, stack: int, owesBb: bool, owesSb: bool)
    requires InSeat(p, pos, SitInPending, stack, owesBb, owesSb)
    ensures EffectAll(p, [SitIn(true), Reset]).Success?
    ensures InSeat(EffectAll(p, [SitIn(true), Reset]).value, pos, SittingIn, stack, owesBb, owesSb)
  {
    var q := Effect(p, SitIn(true)).value;
    EffectTwo(p, SitIn(true), q, Reset, Effect(q, Reset));
  }

  /** When everybody who waits is outside the stretch from the button to the big blind, all of them sit in. */
  lemma AllSitIn(t: Table, btn: nat, bb: nat) returns (s: seq<nat>)
    requires Seating(t) && btn < t.numSeats && bb < t.numSeats && CountOf(t.numSeats, InAt(t, bb)) != 2
    requires forall i: nat :: PendingIn(t)(i) ==>
      t.players[i].seated && Gap(t.numSeats, btn, t.players[i].position.value) >= Gap(t.numSeats, btn, bb)
    ensures s == Filter(SeatedFrom(t, 0), NewcomerIn(t, btn, bb)) && Distinct(s) && Indexing(t, s)
    ensures forall i: nat :: i in s <==> PendingIn(t)(i)
  {
    s := Filter(SeatedFrom(t, 0), NewcomerIn(t, btn, bb));
    SeatedAmong(t, NewcomerIn(t, btn, bb));
    forall i: nat ensures i in s <==> PendingIn(t)(i) {
      if PendingIn(t)(i) {
        NewcomerIs(t, btn, bb, i);
      }
    }
  }

  lemma TwoWait(t: Table)
    requires Seating(t) && Six(t, SitInPending)
    ensures forall i: nat :: PendingIn(t)(i) <==> i == 3 || i == 4
  {
  }

  lemma OwingJoins(t: Table, btn: nat, bb: nat) returns (u: Table)
    requires Seating(t) && Six(t, SitInPending) && btn < 6 && bb < 6 && CountOf(t.numSeats, InAt(t, bb)) != 2
    requires Gap(6, btn, bb) <= Gap(6, btn, 2) && Gap(6, btn, bb) <= Gap(6, btn, 3)
    ensures FireAll(t, SitInNewcomers(t, btn, bb)) == Success(u) && u == t.(players := u.players) && Six(u, SittingIn)
  {
    TwoWait(t);
    var s := AllSitIn(t, btn, bb);
    WaiterSitsIn(t.players[3], 2, 100, false, true);
    WaiterSitsIn(t.players[4], 3, 0, true, false);
    u := FireLists(t, s, (i: nat) => [SitIn(true), Reset]);
    BothSatIn(t, u);
  }

  lemma BothSatIn(t: Table, u: Table)
    requires Six(t, SitInPending) && u == t.(players := u.players) && |u.players| == 6
    requires forall k: nat :: k < 6 && k != 3 && k != 4 ==> u.players[k] == t.players[k]
    requires InSeat(u.players[3], 2, SittingIn, 100, false, true) && InSeat(u.players[4], 3, SittingIn, 0, true, false)
    ensures Six(u, SittingIn)
  {
  }

  lemma {:induction false} NoneFirst(t: Table, a: seq<Event>, b: seq<Event>)
    requires a == []
    ensures FireAll(t, a + b) == FireAll(t, b)
  {
    assert a + b == b;
  }

  lemma OwingMoves(t: Table, btn: nat, tooLong: set<nat>) returns (u: Table)
    requires Clear(t) && Six(t, SitInPending) && BlindsAt(t, 4, 5, 0)
    ensures BlindsMoved(t, btn, tooLong) == Success(u) && Six(u, SittingIn) && BlindsAt(u, 5, 0, 1)
  {
    var p := Positions(5, 0, 1);
    OwingRotates(t, tooLong);
    var v := OwingJoins(t, p.btn, p.bb);
    NoneFirst(t, RotationEvents(t, 5, 0, p.bb, tooLong), SitInNewcomers(t, p.btn, p.bb));
    MovedBy(t, btn, tooLong, p, v);
    u := v.(btnPos := Some(p.btn), sbPos := Some(p.sb), bbPos := Some(p.bb));
  }

  /** A table to deal from, with nobody on the small blind. */
  ghost predicate Owed(t: Table) {
    Ready(t) && Six(t, SittingIn) && BlindsAt(t, 5, 0, 1)
  }

  lemma OwingShuffled(s: Setup) returns (u: Table)
    ensures AfterRebuys(Owing(), s.btn, s.tooLong, s.deck) == Success(Some(u))
    ensures Six(u, SittingIn) && BlindsAt(u, 5, 0, 1)
  {
    var clear := OwingPrepared();
    var v := OwingMoves(clear, s.btn, s.tooLong);
    DealtBy(Owing(), clear, v, s.btn, s.tooLong, s.deck);
    u := v.(deck := s.deck);
  }

  lemma NobodyBuys(t: Table, autos: map<nat, int>, paid: set<nat>)
    requires AllIdle(t) && NothingPends(t) && autos == map[]
    ensures Rebought(t, autos, paid) == Success(t)
  {
    var bought := RebuysGoThrough(t, autos, paid);
    NothingBought(t, autos, paid, bought);
  }

  lemma OwingNext(t: Table, s: Setup) returns (u: Table)
    requires t == Owing() && s.autos == map[]
    ensures NextHand(t, s) == Success(Some(u)) && Six(u, SittingIn) && BlindsAt(u, 5, 0, 1)
  {
    OwingIsBetween();
    NobodyBuys(t, s.autos, s.paid);
    BoughtThen(t, s, t);
    u := OwingShuffled(s);
  }

  /** Whatever the shuffle and whoever has been out for too long, the next hand lets both in. */
  lemma NextHandOwes(s: Setup) returns (u: Table)
    requires multiset(s.deck) == multiset(FullDeck()) && s.autos == map[]
    ensures Between(Owing()) && Placed(Owing(), 5, 0) && NextHand(Owing(), s) == Success(Some(u)) && Owed(u)
  {
    OwingIsBetween();
    u := OwingNext(Owing(), s);
    NextHandReady(Owing(), s, u);
  }

  // The deal

  lemma OwedHolders(t: Table)
    requires Seating(t) && Six(t, SittingIn) && BlindsAt(t, 5, 0, 1)
    ensures SeatHolder(t, t.bbPos) == Some(0) && SeatHolder(t, t.sbPos) == None
  {
    FoundAt(t, 0, true);
  }

  lemma OwedPosts(t: Table, i: nat)
    requires Owed(t) && i < 5
    ensures i == 0 ==> Posts(t, i, 90, 10, Some(ActPost))
    ensures i == 1 || i == 2 ==> Posts(t, i, 100, 0, None)
    ensures i == 3 ==> Posts(t, i, 95, 0, None)
    ensures i == 4 ==> Posts(t, i, 0, 0, Some(ActPost))
  {
    OwedHolders(t);
    assert Idle(t.players[i]);
  }

  /** The sixth is out of the hand. */
  ghost predicate FiveIn(t: Table) {
    && t.numSeats == 6 && t.bbPos == Some(1) && t.board == [] && |t.players| == 6
    && !t.players[5].Live() && t.players[5].wagers == 0
  }

  ghost predicate OutOfIt(p: PlayerState) {
    !p.Live() && p.wagers == 0
  }

  /** The big blind's is the only bet, and so many have folded: the debtor first, then the other two. */
  ghost predicate Folded(t: Table, n: nat) {
    && FiveIn(t) && Row(t.players[0], 1, 90, 10, Some(ActPost)) && Row(t.players[4], 3, 0, 0, Some(ActPost))
    && t.players[3].Active() && t.players[3].dead == 5
    && (if n > 0 then OutOfIt(t.players[3]) else Row(t.players[3], 2, 95, 0, None))
    && (if n > 1 then OutOfIt(t.players[1]) else Row(t.players[1], 4, 100, 0, None))
    && (if n > 2 then OutOfIt(t.players[2]) else Row(t.players[2], 5, 100, 0, None))
  }

  lemma OwedRow(t: Table, u: Table, i: nat, pos: nat, stack: int, live: int, last: Option<LastAction>)
    requires i < |t.players| && i < |u.players| && Idle(t.players[i]) && t.players[i].Active()
    requires t.players[i].playing == Some(SittingIn) && t.players[i].position == Some(pos)
    requires SamePost(t, u, i) && FreshlyDealt(t.players[i], u.players[i]) && Posts(t, i, stack, live, last)
    ensures Row(u.players[i], pos, stack, live, last)
    ensures u.players[i].dead == t.players[i].stack - stack - live
  {
    DealtRow(t, u, i);
  }

  lemma OwedRows(t: Table, u: Table)
    requires Owed(t) && SamePosts(t, u) && AllFresh(t, u) && u == t.(players := u.players, deck := u.deck)
    ensures Folded(u, 0)
  {
    forall i: nat | i < 5
      ensures Idle(t.players[i]) && SamePost(t, u, i) && FreshlyDealt(t.players[i], u.players[i])
    {
    }
    OwedPosts(t, 0);
    OwedPosts(t, 1);
    OwedPosts(t, 2);
    OwedPosts(t, 3);
    OwedPosts(t, 4);
    OwedRow(t, u, 0, 1, 90, 10, Some(ActPost));
    OwedRow(t, u, 1, 4, 100, 0, None);
    OwedRow(t, u, 2, 5, 100, 0, None);
    OwedRow(t, u, 3, 2, 95, 0, None);
    OwedRow(t, u, 4, 3, 0, 0, Some(ActPost));
    assert SamePost(t, u, 5) && Idle(t.players[5]);
  }

  lemma OwedCovers(t: Table)
    requires Owed(t)
    ensures BlindsCovered(t)
  {
    assert IsBb(t, 0);
    FullBlindCovers(t, 0);
  }

  lemma DealOwed(t: Table) returns (u: Table)
    requires Owed(t)
    ensures BlindsCovered(t) && PostAndDeal(t) == Success(u) && HandInv(u) && Folded(u, 0)
  {
    OwedCovers(t);
    DealStartsHand(t);
    u := DealIsFresh(t);
    DealtPosts(t, u);
    OwedRows(t, u);
  }

  // The hand

  /** Who folds when so many have folded. */
  function Folder(n: nat): nat {
    if n == 0 then 3 else if n == 1 then 1 else 2
  }

  lemma FolderIsNext(t: Table, n: nat)
    requires HandInv(t) && Folded(t, n) && n < 3
    ensures NextToAct(t) == Some(Folder(n))
  {
    SomethingBet(t, 0);
    NextIs(t, Folder(n), 0);
  }

  lemma FolderIsIn(t: Table, n: nat)
    requires Folded(t, n) && n < 3
    ensures Folder(n) < |t.players| && t.players[Folder(n)].Active()
  {
  }

  lemma OneMoreFolded(t: Table, n: nat, u: Table)
    requires Folded(t, n) && n < 3
    requires u == With(t, Folder(n), Unpreset(t.players[Folder(n)].(last := Some(ActFold), cards := [])))
    ensures Folded(u, n + 1)
  {
  }

  lemma FolderFolds(t: Table, n: nat) returns (u: Table)
    requires HandInv(t) && Folded(t, n) && n < 3
    ensures Dispatch(t, Folder(n), ReqFold(false)) == Success(u) && HandInv(u) && Folded(u, n + 1)
  {
    FolderIsNext(t, n);
    FolderIsIn(t, n);
    u := FoldsNext(t, Folder(n));
    OneMoreFolded(t, n, u);
    DispatchKeepsHand(t, Folder(n), ReqFold(false));
  }

  lemma OnlyBet(t: Table)
    requires EveryPlayer(t) && Folded(t, 3)
    ensures LastRaiseSize(t) == 10
  {
    assert Sane(t.players[1]) && Sane(t.players[2]) && Sane(t.players[3]) && Sane(t.players[5]);
    assert Counted(t.players[0], false);
    MaxIs(t.players, false, 10);
  }

  lemma BbIsNext(t: Table)
    requires HandInv(t) && Folded(t, 3)
    ensures NextToAct(t) == Some(0)
  {
    SomethingBet(t, 0);
    NextIs(t, 0, 4);
  }

  /** The big blind has checked, and nobody else is left but the one without chips. */
  ghost predicate BbChecked(t: Table) {
    && FiveIn(t) && t.players[0].Live() && t.players[0].last == Some(ActCheck)
    && OutOfIt(t.players[1]) && OutOfIt(t.players[2]) && OutOfIt(t.players[3])
    && Row(t.players[4], 3, 0, 0, Some(ActPost)) && t.players[3].Active() && t.players[3].dead == 5
  }

  lemma BbHasChecked(t: Table, u: Table)
    requires Folded(t, 3) && u == With(t, 0, Unpreset(t.players[0].(last := Some(ActCheck))))
    ensures BbChecked(u)
  {
  }

  lemma NobodyOwes(t: Table, x: nat)
    requires x < 6 && BbChecked(t) && NobodyRaised(t)
    ensures !Owes(t, x)
  {
  }

  lemma CheckersRaisedNothing(t: Table)
    requires BbChecked(t)
    ensures NobodyRaised(t)
  {
  }

  /** Then nobody is to act. */
  lemma NobodyElseActs(t: Table)
    requires Seating(t) && EveryPlayer(t) && RaisersLead(t) && BbChecked(t)
    ensures NextToAct(t) == None
  {
    CheckersRaisedNothing(t);
    if NextToAct(t).Some? {
      var x := NextToAct(t).value;
      NextOwes(t, x);
      NobodyOwes(t, x);
    }
  }

  /** Two are left, and all that is not the first one's is dead money. */
  ghost predicate DeadLeft(t: Table) {
    && BbChecked(t) && t.numSeats > 0 && NextToAct(t) == None
  }

  lemma BbChecks(t: Table) returns (u: Table)
    requires HandInv(t) && Folded(t, 3)
    ensures Dispatch(t, 0, ReqCheck) == Success(u) && HandInv(u) && DeadLeft(u)
  {
    BbIsNext(t);
    OnlyBet(t);
    u := ChecksNext(t, 0);
    BbHasChecked(t, u);
    DispatchKeepsHand(t, 0, ReqCheck);
    NobodyElseActs(u);
  }

  /** The folds that are left, and the check. */
  function FoldsAndCheck(n: nat): seq<Input>
    decreases 3 - n
  {
    if n < 3 then [Input(Folder(n), ReqFold(false))] + FoldsAndCheck(n + 1) else [Input(0, ReqCheck)] + []
  }

  lemma {:induction false} OwedRuns(t: Table, n: nat) returns (u: Table)
    requires HandInv(t) && Folded(t, n) && n <= 3
    ensures HandInv(u) && DeadLeft(u) && Run(t, FoldsAndCheck(n)) == Last(u)
    decreases 3 - n
  {
    if n == 3 {
      u := BbChecks(t);
      RunOn(t, 0, ReqCheck, [], u);
    } else {
      var v := FolderFolds(t, n);
      var next := SomebodyDecides(v, n + 1);
      RunWaits(t, Folder(n), ReqFold(false), FoldsAndCheck(n + 1), v, next);
      u := OwedRuns(v, n + 1);
    }
  }

  lemma SomebodyDecides(t: Table, n: nat) returns (i: nat)
    requires HandInv(t) && Folded(t, n) && n <= 3
    ensures NextToAct(t) == Some(i) && i < |t.players| && t.players[i].playing == Some(SittingIn)
    ensures !t.players[i].presetCheckfold && !t.players[i].presetCheck && t.players[i].presetCall == 0
  {
    i := if n == 3 then 0 else Folder(n);
    if n == 3 {
      BbIsNext(t);
    } else {
      FolderIsNext(t, n);
    }
    Undecided(t, n, i);
  }

  lemma Undecided(t: Table, n: nat, i: nat)
    requires Folded(t, n) && n <= 3 && i == if n == 3 then 0 else Folder(n)
    ensures i < |t.players| && t.players[i].playing == Some(SittingIn)
    ensures !t.players[i].presetCheckfold && !t.players[i].presetCheck && t.players[i].presetCall == 0
  {
  }

  lemma OneBets(t: Table)
    requires BbChecked(t)
    ensures OneBettor(t, 0, 4, 3) && t.board == []
  {
  }

  lemma FlopIsDead(t: Table) returns (u: Table)
    requires HandInv(t) && DeadLeft(t)
    ensures !HandOver(t) && DealStreet(t, StreetCards(t)) == Success(u) && DeadOnly(u, 0, 4, 3)
  {
    OneBets(t);
    TwoLive(t, 0, 4);
    u := DeadStreet(t, 0, 4, 3);
  }

  /** The big blind's bet goes back with the flop, and there is nothing left but the dead money. */
  lemma DeadFlop(t: Table, rank: nat -> int)
    requires HandInv(t) && DeadLeft(t)
    ensures EndHand(Last(t), rank) == Failure(NoWinner)
  {
    var u := FlopIsDead(t);
    var v := StepDealsStreet(t);
    DeadOnlyIsUnpaid(u, rank, 0, 4, 3);
  }

  lemma OwedEnds(t: Table, rank: nat -> int)
    requires HandInv(t) && Folded(t, 0)
    ensures EndHand(Run(Last(t), FoldsAndCheck(0)), rank) == Failure(NoWinner)
  {
    var i := SomebodyDecides(t, 0);
    Waits(t, i);
    var u := OwedRuns(t, 0);
    DeadFlop(u, rank);
  }

  /**
   * From one hand to the end of the next: the last two in are somebody without chips and a big blind who
   * took the bet back, and end_hand finds no winner for the dead blind of a player who folded.
   */
  lemma DeadMoneyUnpaid(s: Setup, rank: nat -> int) returns (dealt: Table)
    requires multiset(s.deck) == multiset(FullDeck()) && s.autos == map[]
    ensures Between(Owing()) && Placed(Owing(), 5, 0) && NextHand(Owing(), s) == Success(Some(dealt))
    ensures Ready(dealt) && BlindsCovered(dealt)
    ensures EndHand(Played(dealt, FoldsAndCheck(0)), rank) == Failure(NoWinner)
  {
    dealt := NextHandOwes(s);
    var t := DealOwed(dealt);
    OwedEnds(t, rank);
  }
}
