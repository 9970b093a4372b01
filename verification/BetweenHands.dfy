/** From one hand to the next: departures, rebuys, sitting in and out, and the blinds moving on. */
module BetweenHands {
  import opened Wrappers
  import opened Indexes
  import opened Players
  import opened Tables
  import opened Accessors
  import opened Betting
  import opened BettingSteps
  import opened Streets
  import opened Hands
  import opened Settlement
  import opened Rings
  import opened Blinds
  import opened Debts
  import opened Deals
  import opened Sitting
  import opened BlindSitting
  import opened NewRounds
  import opened Joining
  import opened Rebuys
  import opened Cards
  import opened Places
  import opened Openings

  // Between two hands

  /** A table before prepare_hand; on the first hand, or with a locked button, no blinds are set. */
  ghost predicate Between(t: Table) {
    && Seating(t) && AllIdle(t) && t.numSeats <= 23 && 0 < t.bb && 0 <= t.sb && 0 <= t.minBuyin
    && (t.bbPos.Some? ==> t.bbPos.value < t.numSeats && t.sbPos.Some? && t.sbPos.value < t.numSeats && t.btnPos.Some?)
  }

  predicate IsNewRound(t: Table) {
    t.btnPos.None? || t.bbPos.None?
  }

  /** reset_for_new_hand */
  function ClearEvents(t: Table): seq<Event>
    requires t.numSeats > 0
  {
    EventEach(Everybody(t), Reset) + [OnTable(ResetTable)]
  }

  function Sitters(t: Table): seq<Event>
    requires t.numSeats > 0
  {
    if IsNewRound(t) || t.bbPos.value >= t.numSeats then [] else SitByBlinds(t, t.bbPos.value)
  }

  /** What players who can play still have in, unless they have just sat in. */
  function DirtyOne(t: Table): PlayerState -> int {
    (p: PlayerState) => if p.seated && CanPlay(t, p) && p.last != Some(ActSitIn) then p.wagers else 0
  }

  /** The rest of prepare_hand, but for timebanks; None when there are not enough players. */
  function Prepared(t: Table): Result<Option<Table>, Error>
    requires t.numSeats > 0
  {
    if Sum(t.players, DirtyOne(t)) != 0 then Failure(ImpossibleGameState) else PreparedClean(t)
  }

  function PreparedClean(t: Table): Result<Option<Table>, Error>
    requires t.numSeats > 0
  {
    var left :- FireAll(t, Departures(t));
    if left.numSeats == 0 || !EnoughPlayersToPlay(left) then Success(None)
    else
      var sat :- FireAll(left, Sitters(left));
      if sat.numSeats == 0 || !EnoughPlayersToPlay(sat) then Success(None)
      else
        var clear :- FireAll(sat, ClearEvents(sat));
        Success(Some(clear))
  }

  /** At most one is in, though more can play. */
  predicate StartsAnew(t: Table) {
    IsNewRound(t) || CountOf(t.numSeats, ActiveSeat(t)) <= 1
  }

  function FromButton(t: Table, btn: nat): Result<Table, Error> {
    match LockedPositions(t, btn)
    case Failure(error) => Failure(error)
    case Success(p) =>
      if p.btn < t.numSeats && p.bb < t.numSeats then FireAll(t, StartRound(t, IsNewRound(t), p))
      else Failure(ImpossibleGameState)
  }

  function ByRotation(t: Table, sb: nat, bb: nat, tooLong: set<nat>): Result<Table, Error>
    requires sb < t.numSeats && bb < t.numSeats
  {
    match Rotation(t, sb, bb)
    case Failure(error) => Failure(error)
    case Success(p) =>
      if p.btn < t.numSeats && p.bb < t.numSeats then FireAll(t, BlindsRotate(t, sb, bb, p, tooLong))
      else Failure(ImpossibleGameState)
  }

  predicate BlindsSet(t: Table) {
    t.sbPos.Some? && t.bbPos.Some? && t.sbPos.value < t.numSeats && t.bbPos.value < t.numSeats
  }

  /**
   * sit_in_pending_and_move_blinds: by rotation, or from a button, which is the locked one, that of the
   * only player in, or drawn.
   */
  function BlindsMoved(t: Table, btn: nat, tooLong: set<nat>): Result<Table, Error>
    requires t.numSeats > 0
  {
    if StartsAnew(t) then FromButton(t, btn)
    else if BlindsSet(t) then ByRotation(t, t.sbPos.value, t.bbPos.value, tooLong)
    else Failure(ImpossibleGameState)
  }

  lemma {:induction false} MovedBy(t: Table, btn: nat, tooLong: set<nat>, p: Positions, v: Table)
    requires !StartsAnew(t) && BlindsSet(t) && p.btn < t.numSeats && p.bb < t.numSeats
    requires Rotation(t, t.sbPos.value, t.bbPos.value) == Success(p)
    requires
      FireAll(t, RotationEvents(t, t.sbPos.value, t.bbPos.value, p.bb, tooLong) + SitInNewcomers(t, p.btn, p.bb))
        == Success(v)
    ensures BlindsMoved(t, btn, tooLong) == Success(v.(btnPos := Some(p.btn), sbPos := Some(p.sb), bbPos := Some(p.bb)))
  {
    var events := RotationEvents(t, t.sbPos.value, t.bbPos.value, p.bb, tooLong) + SitInNewcomers(t, p.btn, p.bb);
    var e := OnTable(SetBlindPos(Some(p.btn), Some(p.sb), Some(p.bb)));
    FireAppend(t, events, [e]);
    FireOne(v, e);
  }

  /**
   * What comes from outside between two hands: auto-rebuys, rebuys that the bank lets through, the
   * button if it is drawn, who has been out for too long, and the deck.
   */
  datatype Setup = Setup(autos: map<nat, int>, paid: set<nat>, btn: nat, tooLong: set<nat>, deck: seq<Card>)

  /** setup_hand up to the deal: None when there are not enough players. */
  function NextHand(t: Table, s: Setup): Result<Option<Table>, Error> {
    match Rebought(t, s.autos, s.paid)
    case Failure(error) => Failure(error)
    case Success(bought) =>
      if bought.numSeats == 0 then Failure(ImpossibleGameState) else AfterRebuys(bought, s.btn, s.tooLong, s.deck)
  }

  lemma BoughtThen(t: Table, s: Setup, bought: Table)
    requires Rebought(t, s.autos, s.paid) == Success(bought) && bought.numSeats > 0
    ensures NextHand(t, s) == AfterRebuys(bought, s.btn, s.tooLong, s.deck)
  {
  }

  function AfterRebuys(t: Table, btn: nat, tooLong: set<nat>, deck: seq<Card>): Result<Option<Table>, Error>
    requires t.numSeats > 0
  {
    match Prepared(t)
    case Failure(error) => Failure(error)
    case Success(None) => Success(None)
    case Success(Some(clear)) =>
      if clear.numSeats == 0 then Failure(ImpossibleGameState)
      else
        var moved :- BlindsMoved(clear, btn, tooLong);
        var shuffled :- FireAll(moved, [OnTable(Shuffle(deck))]);
        Success(Some(shuffled))
  }

  lemma DealtBy(t: Table, clear: Table, v: Table, btn: nat, tooLong: set<nat>, deck: seq<Card>)
    requires t.numSeats > 0 && clear.numSeats > 0 && Prepared(t) == Success(Some(clear))
    requires BlindsMoved(clear, btn, tooLong) == Success(v)
    ensures AfterRebuys(t, btn, tooLong, deck) == Success(Some(v.(deck := deck)))
  {
    FireOne(v, OnTable(Shuffle(deck)));
  }

  // Each stage

  lemma DepartedIdle(t: Table, u: Table)
    requires AllIdle(t) && AllDeparted(t, u)
    ensures forall i :: 0 <= i < |u.players| ==>
      Idle(u.players[i]) && (u.players[i].Active() ==> u.players[i].playing == Some(SittingIn))
  {
    forall i | 0 <= i < |u.players|
      ensures Idle(u.players[i]) && (u.players[i].Active() ==> u.players[i].playing == Some(SittingIn))
    {
      assert Departed(t.players[i], u.players[i]) && Idle(t.players[i]);
    }
  }

  /** Stacks, and players in only if sitting in; who is out has nothing on the table. */
  ghost predicate Settling(t: Table) {
    && Seating(t) && forall i :: 0 <= i < |t.players| ==>
         && 0 <= t.players[i].stack && 0 <= t.players[i].pendingRebuy
         && (!t.players[i].Active() ==> Idle(t.players[i]))
         && (t.players[i].Active() ==> t.players[i].playing == Some(SittingIn))
  }

  /** The same table and stacks. */
  ghost predicate SameBank(t: Table, u: Table) {
    && u == t.(players := u.players, deck := u.deck, board := u.board) && |u.players| == |t.players|
    && forall i :: 0 <= i < |t.players| ==> u.players[i].stack == t.players[i].stack
  }

  lemma DeparturesSettle(t: Table) returns (u: Table)
    requires Between(t)
    ensures FireAll(t, Departures(t)) == Success(u) && Settling(u) && SameBank(t, u) && AllDeparted(t, u)
  {
    u := DeparturesGoThrough(t);
    DepartedSeating(t, u);
    DepartedIdle(t, u);
    forall i | 0 <= i < |t.players| ensures u.players[i].stack == t.players[i].stack {
      assert Departed(t.players[i], u.players[i]);
    }
  }

  lemma SwitchedSettles(t: Table, bb: nat, u: Table)
    requires Settling(t) && bb < t.numSeats && Switched(t, bb, u)
    ensures Settling(u) && SameBank(t, u)
  {
    SwitchedSeating(t, bb, u);
    forall i | 0 <= i < |t.players|
      ensures u.players[i].stack == t.players[i].stack && u.players[i].pendingRebuy == t.players[i].pendingRebuy
      ensures !u.players[i].Active() ==> Idle(u.players[i])
      ensures u.players[i].Active() ==> u.players[i].playing == Some(SittingIn)
    {
      assert i in Reached(t, bb) ==> Switch(t.players[i], u.players[i]);
    }
  }

  lemma SittersSettle(t: Table) returns (u: Table)
    requires Settling(t) && (t.bbPos.Some? ==> t.bbPos.value < t.numSeats)
    ensures FireAll(t, Sitters(t)) == Success(u) && Settling(u) && SameBank(t, u)
    ensures IsNewRound(t) ==> u == t
    ensures !IsNewRound(t) ==> Switched(t, t.bbPos.value, u)
  {
    if IsNewRound(t) {
      u := t;
    } else {
      u := SitByBlindsGoesThrough(t, t.bbPos.value);
      SwitchedSettles(t, t.bbPos.value, u);
    }
  }

  /** A table cleared for the next hand. */
  ghost predicate Clear(t: Table) {
    && Seating(t) && AllIdle(t) && t.board == []
    && forall i :: 0 <= i < |t.players| && t.players[i].Active() ==> t.players[i].playing == Some(SittingIn)
  }

  lemma ClearEventsClear(t: Table) returns (u: Table)
    requires Settling(t)
    ensures FireAll(t, ClearEvents(t)) == Success(u) && Clear(u) && SameBank(t, u) && AllInPlace(t, u)
  {
    u := ResetClearsTable(t);
    InPlaceSits(t, u);
  }

  lemma InPlaceSits(t: Table, u: Table)
    requires AllInPlace(t, u) && Settling(t)
    ensures forall i :: 0 <= i < |t.players| ==>
      u.players[i].stack == t.players[i].stack && (u.players[i].Active() ==> u.players[i].playing == Some(SittingIn))
  {
    forall i | 0 <= i < |t.players|
      ensures u.players[i].stack == t.players[i].stack && u.players[i].Active() == t.players[i].Active()
      ensures u.players[i].playing == t.players[i].playing
    {
      assert SamePlace(t.players[i], u.players[i]);
    }
  }

  lemma BankTwice(t: Table, v: Table, u: Table)
    requires SameBank(t, v) && SameBank(v, u)
    ensures SameBank(t, u)
  {
  }

  lemma NothingDirty(t: Table)
    requires AllIdle(t)
    ensures Sum(t.players, DirtyOne(t)) == 0
  {
    forall i: nat | i < |t.players| ensures DirtyOne(t)(t.players[i]) == 0 {
      assert Idle(t.players[i]);
    }
    SumOfZeros(t.players, DirtyOne(t));
  }

  lemma {:induction false} SumOfZeros(ps: seq<PlayerState>, f: PlayerState -> int)
    requires forall i: nat :: i < |ps| ==> f(ps[i]) == 0
    ensures Sum(ps, f) == 0
    decreases |ps|
  {
    if ps != [] {
      SumOfZeros(ps[..|ps| - 1], f);
    }
  }

  lemma {:induction false} PreparedBy(t: Table, left: Table, sat: Table, clear: Table)
    requires t.numSeats > 0 && left.numSeats > 0 && sat.numSeats > 0 && AllIdle(t)
    requires FireAll(t, Departures(t)) == Success(left) && FireAll(left, Sitters(left)) == Success(sat)
    requires FireAll(sat, ClearEvents(sat)) == Success(clear)
    ensures
      Prepared(t) == Success(if EnoughPlayersToPlay(left) && EnoughPlayersToPlay(sat) then Some(clear) else None)
  {
    NothingDirty(t);
  }

  /** No event of prepare_hand is refused, and no wager is left over. */
  lemma PreparedIsClear(t: Table)
    requires Between(t)
    ensures Prepared(t).Success?
    ensures Prepared(t).value.Some? ==> Clear(Prepared(t).value.value) && SameBank(t, Prepared(t).value.value)
  {
    var a := DeparturesSettle(t);
    var b := SittersSettle(a);
    var c := ClearEventsClear(b);
    PreparedBy(t, a, b, c);
    BankTwice(t, a, b);
    BankTwice(t, b, c);
  }

  // Ready to deal

  lemma {:induction false} TwoInSum(ps: seq<PlayerState>, i: nat, j: nat)
    requires i < |ps| && j < |ps| && i != j && ps[i].Active() && ps[j].Active()
    ensures Sum(ps, ActiveOne) >= 2
  {
    var out := ps[i].(seated := false);
    SumUpdate(ps, i, out, ActiveOne);
    var rest := ps[i := out];
    SumUpdate(rest, j, rest[j].(seated := false), ActiveOne);
    SumNonNegative(rest[j := rest[j].(seated := false)], ActiveOne);
  }

  lemma TwoSeatsInSum(t: Table)
    requires Seating(t) && CountOf(t.numSeats, ActiveSeat(t)) >= 2
    ensures Sum(t.players, ActiveOne) >= 2
  {
    var x := SecondSeat(t.numSeats, ActiveSeat(t), 0);
    var y := SecondSeat(t.numSeats, ActiveSeat(t), x);
    TwoInSum(t.players, FindAt(t.players, x, true).value, FindAt(t.players, y, true).value);
  }

  /** Only the cards are missing. */
  ghost predicate NeedsCards(t: Table) {
    && Clear(t) && HasBb(t) && t.numSeats <= 23 && 0 < t.bb && 0 <= t.sb && 0 <= t.minBuyin
    && Sum(t.players, ActiveOne) >= 2
    && t.btnPos.Some? && t.sbPos.Some? && t.sbPos.value < t.numSeats
  }

  lemma {:induction false} ShuffledIsReady(t: Table, deck: seq<Card>)
    requires NeedsCards(t) && |deck| == 52
    ensures FireAll(t, [OnTable(Shuffle(deck))]) == Success(t.(deck := deck)) && Ready(t.(deck := deck))
  {
    var u := t.(deck := deck);
    FireOne(t, OnTable(Shuffle(deck)));
    var b: nat :| IsBb(t, b);
    assert IsBb(u, b);
    FewAround(u, StartPos(u), u.numSeats);
  }

  // By rotation

  lemma {:induction false} ButtonInRange(t: Table, sb: nat, bb: nat, d: nat)
    requires sb < t.numSeats && 1 <= d
    ensures Button(t, sb, bb, d).Success? ==> Button(t, sb, bb, d).value < t.numSeats
    decreases t.numSeats + 1 - d
  {
    if d <= t.numSeats {
      ButtonInRange(t, sb, bb, d + 1);
    }
  }

  lemma RotationInRange(t: Table, sb: nat, bb: nat)
    requires Seating(t) && sb < t.numSeats && bb < t.numSeats && CountOf(t.numSeats, ActiveSeat(t)) >= 2
    requires Rotation(t, sb, bb).Success?
    ensures
      var p := Rotation(t, sb, bb).value;
      && p.btn < t.numSeats && p.sb < t.numSeats && p.bb < t.numSeats && ReadySeat(t)(p.bb)
      && (CountOf(t.numSeats, InAt(t, p.bb)) == 2 ==> ActiveSeat(t)(p.bb))
  {
    NextBbFollows(t, bb);
    var next := NextBb(t, bb).value;
    var nextSb := NextSb(t, sb, next);
    if CountOf(t.numSeats, InAt(t, next)) == 2 {
      HeadsUpMoves(t, nextSb, next);
    } else {
      ButtonInRange(t, nextSb, next, 1);
    }
  }

  lemma InOrDebited(p: PlayerState, q: PlayerState)
    requires Idle(p) && (p.Active() ==> p.playing == Some(SittingIn)) && (SatIn(p, q) || Debited(p, q))
    ensures Idle(q) && (q.Active() ==> q.playing == Some(SittingIn)) && q.stack == p.stack
    ensures p.Active() ==> q.Active()
  {
  }

  lemma JoinedIsClear(t: Table, btn: nat, bb: nat, u: Table)
    requires Clear(t) && btn < t.numSeats && bb < t.numSeats && Joined(t, btn, bb, u)
    ensures Clear(u) && SameBank(t, u)
    ensures Sum(t.players, ActiveOne) >= 2 ==> Sum(u.players, ActiveOne) >= 2
  {
    JoinedSeating(t, btn, bb, u);
    forall i: nat | i < |t.players|
      ensures Idle(u.players[i]) && (u.players[i].Active() ==> u.players[i].playing == Some(SittingIn))
      ensures u.players[i].stack == t.players[i].stack
    {
      JoinedPlace(t, btn, bb, u, i);
      InOrDebited(t.players[i], u.players[i]);
    }
    if Sum(t.players, ActiveOne) >= 2 {
      var i, j := TwoActive(t.players);
      TwoInSum(u.players, i, j);
    }
  }

  ghost predicate Rules(t: Table) {
    t.numSeats <= 23 && 0 < t.bb && 0 <= t.sb && 0 <= t.minBuyin
  }

  lemma RotatedNeedsCards(t: Table, sb: nat, bb: nat, p: Positions, tooLong: set<nat>) returns (u: Table)
    requires Clear(t) && Rules(t) && sb < t.numSeats && bb < t.numSeats && CountOf(t.numSeats, ActiveSeat(t)) >= 2
    requires Rotation(t, sb, bb) == Success(p) && p.btn < t.numSeats && p.bb < t.numSeats
    ensures FireAll(t, BlindsRotate(t, sb, bb, p, tooLong)) == Success(u) && NeedsCards(u)
    ensures u.bbPos == Some(p.bb) && u.sbPos == Some(p.sb) && Total(u) == Total(t)
  {
    RotationInRange(t, sb, bb);
    var v := RotateSits(t, sb, bb, p, tooLong);
    TwoSeatsInSum(t);
    JoinedIsClear(t, p.btn, p.bb, v);
    BbSitsIn(t, p.btn, p.bb, v);
    u := SetPositions(t, v, RotationEvents(t, sb, bb, p.bb, tooLong) + SitInNewcomers(t, p.btn, p.bb), p);
    BankTotal(t, v);
  }

  lemma BankTotal(t: Table, u: Table)
    requires AllIdle(t) && AllIdle(u) && SameBank(t, u)
    ensures Total(u) == Total(t)
  {
    forall i | 0 <= i < |t.players| ensures ChipsOf(u.players[i]) == ChipsOf(t.players[i]) {
      assert Idle(t.players[i]) && Idle(u.players[i]);
    }
    SumSame(t.players, u.players, ChipsOf);
  }

  // From a button

  lemma LockedInRange(t: Table, btn: nat)
    requires LockedPositions(t, btn).Success?
    ensures btn < t.numSeats && PlaySeat(t)(btn) && CountOf(t.numSeats, PlaySeat(t)) >= 2
  {
    SeatsCounted(t.numSeats, 0, PlaySeat(t));
    var seats := SeatsFrom(t.numSeats, 0, PlaySeat(t));
    assert btn in seats;
  }

  lemma StartedIsClear(t: Table, newRound: bool, p: Positions, u: Table)
    requires Clear(t) && p.btn < t.numSeats && p.bb < t.numSeats
    requires SitsIn(t, Either(NewIn(t), QueuedIn(t, newRound, p)), u) && Seating(u)
    ensures Clear(u) && SameBank(t, u)
  {
    forall i: nat | i < |t.players|
      ensures Idle(u.players[i]) && (u.players[i].Active() ==> u.players[i].playing == Some(SittingIn))
      ensures u.players[i].stack == t.players[i].stack
    {
      assert SatIn(t.players[i], u.players[i]) || Debited(t.players[i], u.players[i]);
      InOrDebited(t.players[i], u.players[i]);
    }
  }

  /** Whoever can play is in. */
  lemma PlaySeatIsActive(t: Table, newRound: bool, p: Positions, u: Table, pos: nat)
    requires Seating(t) && p.btn < t.numSeats && p.bb < t.numSeats && PlaySeat(t)(pos)
    requires SitsIn(t, Either(NewIn(t), QueuedIn(t, newRound, p)), u) && Seating(u)
    ensures ActiveSeat(u)(pos)
  {
    var i := FindAt(t.players, pos, false).value;
    SittingKeepsSeating(t, Either(NewIn(t), QueuedIn(t, newRound, p)), u);
    RoundActive(t, newRound, p, u, i);
    SeatActive(t, u, i);
  }

  /** At least the button and the big blind are in. */
  lemma StartedHasTwo(t: Table, newRound: bool, p: Positions, v: Table)
    requires Seating(t) && p.btn < t.numSeats && p.bb < t.numSeats && p.btn != p.bb
    requires PlaySeat(t)(p.btn) && PlaySeat(t)(p.bb)
    requires SitsIn(t, Either(NewIn(t), QueuedIn(t, newRound, p)), v) && Seating(v)
    ensures ActiveSeat(v)(p.bb) && Sum(v.players, ActiveOne) >= 2
  {
    PlaySeatIsActive(t, newRound, p, v, p.bb);
    PlaySeatIsActive(t, newRound, p, v, p.btn);
    TwoInSum(v.players, FindAt(v.players, p.bb, true).value, FindAt(v.players, p.btn, true).value);
  }

  lemma LockedAre(t: Table, btn: nat, p: Positions)
    requires LockedPositions(t, btn) == Success(p)
    ensures p.btn < t.numSeats && p.sb < t.numSeats && p.bb < t.numSeats && p.btn != p.bb
    ensures PlaySeat(t)(p.btn) && PlaySeat(t)(p.bb)
  {
    LockedInRange(t, btn);
    LockedPositionsFollow(t, btn);
  }

  lemma ClearNeedsCards(v: Table, p: Positions)
    requires Clear(v) && Rules(v) && ActiveSeat(v)(p.bb) && Sum(v.players, ActiveOne) >= 2 && p.sb < v.numSeats
    ensures NeedsCards(v.(btnPos := Some(p.btn), sbPos := Some(p.sb), bbPos := Some(p.bb)))
  {
    var u := v.(btnPos := Some(p.btn), sbPos := Some(p.sb), bbPos := Some(p.bb));
    assert FindAt(u.players, p.bb, true) == FindAt(v.players, p.bb, true);
    HasBigBlind(u, p.bb);
  }

  lemma StartedNeedsCards(t: Table, newRound: bool, btn: nat, p: Positions) returns (u: Table)
    requires Clear(t) && Rules(t) && LockedPositions(t, btn) == Success(p)
    ensures p.btn < t.numSeats && p.bb < t.numSeats
    ensures FireAll(t, StartRound(t, newRound, p)) == Success(u) && NeedsCards(u) && Total(u) == Total(t)
  {
    LockedAre(t, btn, p);
    var v := RoundSitsIn(t, newRound, p);
    StartedIsClear(t, newRound, p, v);
    StartedHasTwo(t, newRound, p, v);
    ClearNeedsCards(v, p);
    u := v.(btnPos := Some(p.btn), sbPos := Some(p.sb), bbPos := Some(p.bb));
    BankTotal(t, v);
  }

  // The next hand

  lemma FromButtonNeedsCards(t: Table, btn: nat)
    requires Clear(t) && Rules(t)
    ensures FromButton(t, btn).Failure? <==> LockedPositions(t, btn).Failure?
    ensures FromButton(t, btn).Success? ==>
      NeedsCards(FromButton(t, btn).value) && Total(FromButton(t, btn).value) == Total(t)
  {
    if LockedPositions(t, btn).Success? {
      var u := StartedNeedsCards(t, IsNewRound(t), btn, LockedPositions(t, btn).value);
    }
  }

  lemma ByRotationNeedsCards(t: Table, sb: nat, bb: nat, tooLong: set<nat>)
    requires Clear(t) && Rules(t) && sb < t.numSeats && bb < t.numSeats && CountOf(t.numSeats, ActiveSeat(t)) >= 2
    ensures ByRotation(t, sb, bb, tooLong).Failure? <==> Rotation(t, sb, bb).Failure?
    ensures ByRotation(t, sb, bb, tooLong).Success? ==>
      NeedsCards(ByRotation(t, sb, bb, tooLong).value) && Total(ByRotation(t, sb, bb, tooLong).value) == Total(t)
  {
    if Rotation(t, sb, bb).Success? {
      RotationInRange(t, sb, bb);
      var u := RotatedNeedsCards(t, sb, bb, Rotation(t, sb, bb).value, tooLong);
    }
  }

  /** Where the blinds cannot be moved. */
  predicate BlindsStuck(t: Table, btn: nat)
    requires t.numSeats > 0 && (!IsNewRound(t) ==> BlindsSet(t))
  {
    if StartsAnew(t) then LockedPositions(t, btn).Failure?
    else Rotation(t, t.sbPos.value, t.bbPos.value).Failure?
  }

  lemma MovedNeedsCards(t: Table, btn: nat, tooLong: set<nat>)
    requires Clear(t) && Rules(t) && (!IsNewRound(t) ==> BlindsSet(t))
    ensures BlindsMoved(t, btn, tooLong).Failure? <==> BlindsStuck(t, btn)
    ensures BlindsMoved(t, btn, tooLong).Success? ==>
      NeedsCards(BlindsMoved(t, btn, tooLong).value) && Total(BlindsMoved(t, btn, tooLong).value) == Total(t)
  {
    if StartsAnew(t) {
      FromButtonNeedsCards(t, btn);
    } else {
      ByRotationNeedsCards(t, t.sbPos.value, t.bbPos.value, tooLong);
    }
  }

  lemma WholeIs52(deck: seq<Card>)
    requires multiset(deck) == multiset(FullDeck())
    ensures |deck| == 52
  {
    WholeDeck();
    assert |deck| == |multiset(deck)| == |multiset(FullDeck())| == |FullDeck()|;
  }

  /** What is dealt from: the table with the same chips, and the deck. */
  ghost predicate ReadyFrom(t: Table, deck: seq<Card>, u: Table) {
    Ready(u) && u.deck == deck && Total(u) == Total(t) && Rules(u) && BlindsSet(u) && u.btnPos.Some?
  }

  lemma AfterRebuysIsReady(t: Table, btn: nat, tooLong: set<nat>, deck: seq<Card>)
    requires Between(t) && multiset(deck) == multiset(FullDeck())
    ensures Prepared(t).Success?
    ensures Prepared(t).value.Some? ==>
      var clear := Prepared(t).value.value;
      && clear.numSeats > 0 && (!IsNewRound(clear) ==> BlindsSet(clear))
      && (AfterRebuys(t, btn, tooLong, deck).Failure? <==> BlindsStuck(clear, btn))
    ensures Prepared(t).value.None? ==> AfterRebuys(t, btn, tooLong, deck) == Success(None)
    ensures AfterRebuys(t, btn, tooLong, deck).Success? && Prepared(t).value.Some? ==>
      && AfterRebuys(t, btn, tooLong, deck).value.Some?
      && ReadyFrom(t, deck, AfterRebuys(t, btn, tooLong, deck).value.value)
  {
    PreparedIsClear(t);
    WholeIs52(deck);
    if Prepared(t).value.Some? {
      var clear := Prepared(t).value.value;
      BankTotal(t, clear);
      MovedNeedsCards(clear, btn, tooLong);
      if BlindsMoved(clear, btn, tooLong).Success? {
        ShuffledIsReady(BlindsMoved(clear, btn, tooLong).value, deck);
      }
    }
  }

  lemma RebuysStayBetween(t: Table, autos: map<nat, int>, paid: set<nat>) returns (u: Table)
    requires Between(t)
    ensures Rebought(t, autos, paid) == Success(u) && Between(u) && Total(u) == Total(t) + BoughtInAll(t, autos, paid)
    ensures forall sb, bb :: Placed(t, sb, bb) ==> Placed(u, sb, bb)
    ensures u.btnPos == t.btnPos && u.sbPos == t.sbPos && u.bbPos == t.bbPos
  {
    u := RebuysGoThrough(t, autos, paid);
    RebuysKeepPlaces(t, autos, paid, u);
    BoughtBetween(t, autos, paid, u);
    forall sb, bb | Placed(t, sb, bb) ensures Placed(u, sb, bb) {
      PlacesKeepPlaced(t, u, sb, bb);
    }
  }

  lemma BoughtBetween(t: Table, autos: map<nat, int>, paid: set<nat>, u: Table)
    requires Between(t) && HasBought(t, autos, paid, u) && Seating(u) && AllIdle(u)
    ensures Between(u)
  {
  }

  lemma PlacesKeepPlaced(t: Table, u: Table, sb: nat, bb: nat)
    requires Seating(t) && u.numSeats == t.numSeats && |u.players| == |t.players| && Placed(t, sb, bb)
    requires forall i :: 0 <= i < |t.players| ==> u.players[i].position == t.players[i].position
    requires forall i :: 0 <= i < |t.players| ==> u.players[i].Active() == t.players[i].Active()
    ensures Placed(u, sb, bb)
  {
    FewerBetween(t, u, sb, bb);
  }

  /**
   * Between hands no rebuy, sitting in or out, blind or debt is refused; a new hand raises only where
   * the blinds cannot be moved, and otherwise finds a table ready to deal from, with as many chips as
   * there were and as were bought.
   */
  lemma NextHandIsReady(t: Table, s: Setup) returns (bought: Table)
    requires Between(t) && multiset(s.deck) == multiset(FullDeck())
    ensures Rebought(t, s.autos, s.paid) == Success(bought) && Between(bought)
    ensures Total(bought) == Total(t) + BoughtInAll(t, s.autos, s.paid)
    ensures Prepared(bought).Success?
    ensures Prepared(bought).value.Some? ==>
      var clear := Prepared(bought).value.value;
      && clear.numSeats > 0 && (!IsNewRound(clear) ==> BlindsSet(clear))
      && (NextHand(t, s).Failure? <==> BlindsStuck(clear, s.btn))
    ensures Prepared(bought).value.None? ==> NextHand(t, s) == Success(None)
    ensures NextHand(t, s).Success? && Prepared(bought).value.Some? ==>
      NextHand(t, s).value.Some? && ReadyFrom(bought, s.deck, NextHand(t, s).value.value)
  {
    bought := RebuysStayBetween(t, s.autos, s.paid);
    AfterRebuysIsReady(bought, s.btn, s.tooLong, s.deck);
  }

  lemma NextHandReady(t: Table, s: Setup, u: Table)
    requires Between(t) && multiset(s.deck) == multiset(FullDeck()) && NextHand(t, s) == Success(Some(u))
    ensures Ready(u) && Rules(u) && BlindsSet(u) && u.btnPos.Some?
    ensures Total(u) == Total(t) + BoughtInAll(t, s.autos, s.paid)
  {
    var bought := NextHandIsReady(t, s);
  }

  // When the blinds do move on

  lemma SameActiveSeats(t: Table, u: Table)
    requires AllInPlace(t, u) && u.numSeats == t.numSeats
    ensures forall pos: nat :: ActiveSeat(u)(pos) == ActiveSeat(t)(pos)
  {
    forall i | 0 <= i < |t.players|
      ensures u.players[i].Active() == t.players[i].Active() && u.players[i].position == t.players[i].position
    {
      assert SamePlace(t.players[i], u.players[i]);
    }
    forall pos: nat ensures ActiveSeat(u)(pos) == ActiveSeat(t)(pos) {
      FindAtSame(t, u, pos, 0);
    }
  }

  lemma ClearKeepsPlaced(t: Table, u: Table, sb: nat, bb: nat)
    requires AllInPlace(t, u) && u.numSeats == t.numSeats
    ensures Placed(t, sb, bb) ==> Placed(u, sb, bb)
    ensures CountOf(u.numSeats, ActiveSeat(u)) == CountOf(t.numSeats, ActiveSeat(t))
  {
    SameActiveSeats(t, u);
    CountSame(t.numSeats, ActiveSeat(u), ActiveSeat(t));
  }

  /** Whoever goes and comes, nobody ends up active between the blinds unless only two are left. */
  lemma PreparedPlaced(t: Table, sb: nat, bb: nat) returns (clear: Table)
    requires Between(t) && t.btnPos.Some? && t.sbPos == Some(sb) && t.bbPos == Some(bb) && Placed(t, sb, bb)
    requires Prepared(t).Success? && Prepared(t).value.Some?
    ensures Prepared(t).value == Some(clear) && Clear(clear) && SameBank(t, clear)
    ensures Placed(clear, sb, bb) || CountOf(clear.numSeats, ActiveSeat(clear)) <= 2
  {
    var a := DeparturesSettle(t);
    DepartedBetween(t, a, sb, bb);
    var b := SittersSettle(a);
    SitByBlindsKeepsBlinds(a, sb, bb, b);
    clear := ClearEventsClear(b);
    ClearKeepsPlaced(b, clear, sb, bb);
    BankTwice(t, a, b);
    BankTwice(t, b, clear);
  }

  lemma ClearOutIsIdle(t: Table)
    requires Clear(t)
    ensures OutIsIdle(t)
  {
    forall i | 0 <= i < |t.players| && !t.players[i].Active() ensures !t.players[i].HasInHandState() {
      assert Idle(t.players[i]);
    }
  }

  lemma ByRotationPlaced(t: Table, sb: nat, bb: nat, tooLong: set<nat>)
    requires Clear(t) && Placed(t, sb, bb) && CountOf(t.numSeats, ActiveSeat(t)) >= 2
    ensures ByRotation(t, sb, bb, tooLong).Success?
    ensures
      var u := ByRotation(t, sb, bb, tooLong).value;
      u.sbPos.Some? && u.bbPos.Some? && Placed(u, u.sbPos.value, u.bbPos.value)
  {
    ClearOutIsIdle(t);
    var p, u := BlindsMoveOn(t, sb, bb, tooLong);
  }

  /**
   * With the blinds placed and three or more still in, the next hand does not raise, and again nobody
   * is active between the blinds.
   */
  lemma NextHandGoesThrough(t: Table, sb: nat, bb: nat, s: Setup) returns (bought: Table)
    requires Between(t) && multiset(s.deck) == multiset(FullDeck())
    requires t.btnPos.Some? && t.sbPos == Some(sb) && t.bbPos == Some(bb) && Placed(t, sb, bb)
    ensures Rebought(t, s.autos, s.paid) == Success(bought) && Between(bought) && Prepared(bought).Success?
    ensures Prepared(bought).value.Some? && ThreeIn(Prepared(bought).value.value) ==>
      && NextHand(t, s).Success? && NextHand(t, s).value.Some? && BlindsPlaced(NextHand(t, s).value.value)
  {
    bought := RebuysStayBetween(t, s.autos, s.paid);
    PreparedIsClear(bought);
    if Prepared(bought).value.Some? && ThreeIn(Prepared(bought).value.value) {
      AfterRebuysGoesThrough(bought, sb, bb, s.btn, s.tooLong, s.deck);
    }
  }

  ghost predicate ThreeIn(t: Table) {
    CountOf(t.numSeats, ActiveSeat(t)) > 2
  }

  ghost predicate BlindsPlaced(t: Table) {
    t.sbPos.Some? && t.bbPos.Some? && Placed(t, t.sbPos.value, t.bbPos.value)
  }

  lemma MovedPlaced(t: Table, sb: nat, bb: nat, btn: nat, tooLong: set<nat>) returns (u: Table)
    requires Clear(t) && Placed(t, sb, bb) && ThreeIn(t) && t.btnPos.Some? && t.sbPos == Some(sb) && t.bbPos == Some(bb)
    ensures BlindsMoved(t, btn, tooLong) == Success(u) && BlindsPlaced(u)
  {
    ByRotationPlaced(t, sb, bb, tooLong);
    u := ByRotation(t, sb, bb, tooLong).value;
  }

  lemma AfterRebuysGoesThrough(t: Table, sb: nat, bb: nat, btn: nat, tooLong: set<nat>, deck: seq<Card>)
    requires Between(t) && t.btnPos.Some? && t.sbPos == Some(sb) && t.bbPos == Some(bb) && Placed(t, sb, bb)
    requires Prepared(t).Success? && Prepared(t).value.Some? && ThreeIn(Prepared(t).value.value)
    ensures AfterRebuys(t, btn, tooLong, deck).Success? && AfterRebuys(t, btn, tooLong, deck).value.Some?
    ensures BlindsPlaced(AfterRebuys(t, btn, tooLong, deck).value.value)
  {
    var clear := PreparedPlaced(t, sb, bb);
    var u := MovedPlaced(clear, sb, bb, btn, tooLong);
    DealtBy(t, clear, u, btn, tooLong, deck);
    ShuffledPlaced(u, deck, u.sbPos.value, u.bbPos.value);
  }

  lemma ShuffledPlaced(u: Table, deck: seq<Card>, sb: nat, bb: nat)
    requires Placed(u, sb, bb)
    ensures Placed(u.(deck := deck), sb, bb)
  {
    forall pos: nat ensures ActiveSeat(u.(deck := deck))(pos) == ActiveSeat(u)(pos) {
    }
  }
}
