/** join_table: a newcomer takes a seat, says when to sit in, and buys in, whatever hand is going on. */
module Joining {
  import opened Wrappers
  import opened Players
  import opened Tables
  import opened Accessors
  import opened Betting
  import opened BettingSteps
  import opened Requests
  import opened OutOfTurn
  import opened Streets
  import opened Hands
  import opened Deals

  /** What the user's settings say about sitting in. */
  datatype SitBehaviour = AtBlinds | WhenReady | NotYet

  /**
   * A seat, an amount to buy in for, the user's auto-rebuy, and what the bank answers: whether the
   * auto-rebuy is covered, whether the buy-in is, and whether it still is when it is carried out.
   */
  datatype Join = Join(pos: nat, amt: int, rebuy: int, how: SitBehaviour, rebuyCovered: bool, covered: bool, paid: bool)

  function SittingBehaviour(how: SitBehaviour): seq<PlayerEvent> {
    match how
    case AtBlinds => [SitInAtBlinds(true)]
    case WhenReady => [SitIn(false)]
    case NotYet => []
  }

  /** At least the auto-rebuy when it is legal and covered, and at least the table's minimum otherwise. */
  function BuyinAmt(t: Table, j: Join): int {
    var least := if t.minBuyin <= j.rebuy <= t.maxBuyin && 0 < j.rebuy && j.rebuyCovered then j.rebuy else t.minBuyin;
    if j.amt == 0 || j.amt < least then least else j.amt
  }

  /** _dispatch_join_table_buyin up to the buy-in: who has chips from before buys in for no less. */
  function BuyinEvents(p: PlayerState, amt: int): seq<PlayerEvent> {
    if p.stack != 0 then [UpdateStack(true), Buy(if p.stack > amt then p.stack else amt)] else [Buy(amt)]
  }

  /** rebuy_updates_for_player */
  function RebuyUpdate(p: PlayerState, paid: bool): seq<PlayerEvent> {
    if p.pendingRebuy == 0 then []
    else if paid then [UpdateStack(false)]
    else [Buy(-p.pendingRebuy)]
  }

  /** join_table, for somebody who has a row at the table */
  function JoinTable(t: Table, i: nat, j: Join): Result<Table, Error> {
    if i >= |t.players| || t.players[i].seated then Failure(InvalidAction)
    else if j.pos >= t.numSeats || FindAt(t.players, j.pos, false).Some? then Failure(InvalidAction)
    else if !j.covered then Failure(InvalidAction)
    else
      var seated :- FireAll(t, EventsOn(i, [TakeSeat(j.pos)] + SittingBehaviour(j.how)));
      if i >= |seated.players| then Failure(ImpossibleGameState)
      else
        var bought :- FireAll(seated, EventsOn(i, BuyinEvents(seated.players[i], BuyinAmt(t, j))));
        if i >= |bought.players| then Failure(ImpossibleGameState)
        else FireAll(bought, EventsOn(i, RebuyUpdate(bought.players[i], j.paid)))
  }

  // What becomes of the newcomer

  function BehavesAs(how: SitBehaviour): PlayingState {
    match how
    case AtBlinds => SitInAtBlindsPending
    case WhenReady => SitInPending
    case NotYet => SittingOut
  }

  function SatAt(p: PlayerState, j: Join): PlayerState {
    p.(owesBb := true, seated := true, position := Some(j.pos), playing := Some(BehavesAs(j.how)))
  }

  lemma {:induction false} SeatEffects(p: PlayerState, j: Join)
    requires !p.seated && p.playing.None?
    ensures EffectAll(p, [TakeSeat(j.pos)] + SittingBehaviour(j.how)) == Success(SatAt(p, j))
  {
    var q := p.(owesBb := true, seated := true, position := Some(j.pos), playing := Some(SittingOut));
    match j.how
    case AtBlinds =>
      assert [TakeSeat(j.pos)] + [SitInAtBlinds(true)] == [TakeSeat(j.pos), SitInAtBlinds(true)];
      EffectTwo(p, TakeSeat(j.pos), q, SitInAtBlinds(true), Success(SatAt(p, j)));
    case WhenReady =>
      assert [TakeSeat(j.pos)] + [SitIn(false)] == [TakeSeat(j.pos), SitIn(false)];
      EffectTwo(p, TakeSeat(j.pos), q, SitIn(false), Success(SatAt(p, j)));
    case NotYet =>
      assert [TakeSeat(j.pos)] + [] == [TakeSeat(j.pos)];
      EffectOne(p, TakeSeat(j.pos));
  }

  /** The rebuy that is pending after the buy-in. */
  function Pending(p: PlayerState, amt: int): int {
    if p.stack == 0 then p.pendingRebuy + amt else if p.stack > amt then p.stack else amt
  }

  lemma {:induction false} BuyinEffects(p: PlayerState, amt: int)
    requires !p.HasInHandState()
    ensures EffectAll(p, BuyinEvents(p, amt)) == Success(p.(stack := 0, pendingRebuy := Pending(p, amt)))
  {
    if p.stack != 0 {
      var most := if p.stack > amt then p.stack else amt;
      EffectTwo(p, UpdateStack(true), p.(stack := 0, pendingRebuy := 0), Buy(most),
                Success(p.(stack := 0, pendingRebuy := most)));
    } else {
      EffectOne(p, Buy(amt));
    }
  }

  lemma {:induction false} RebuyEffects(p: PlayerState, paid: bool)
    requires !p.HasInHandState()
    ensures EffectAll(p, RebuyUpdate(p, paid)) ==
      Success(p.(stack := if paid then p.stack + p.pendingRebuy else p.stack, pendingRebuy := 0))
  {
    if p.pendingRebuy != 0 {
      EffectOne(p, if paid then UpdateStack(false) else Buy(-p.pendingRebuy));
    }
  }

  /** The newcomer once the buy-in is settled. */
  function Arrived(t: Table, p: PlayerState, j: Join): PlayerState {
    SatAt(p, j).(stack := if j.paid then Pending(p, BuyinAmt(t, j)) else 0, pendingRebuy := 0)
  }

  lemma WithTwice(t: Table, i: nat, p: PlayerState, q: PlayerState)
    requires i < |t.players|
    ensures With(With(t, i, p), i, q) == With(t, i, q)
  {
  }

  /** The seat can be had and the buy-in is covered. */
  predicate MayJoin(t: Table, i: nat, j: Join) {
    && i < |t.players| && !t.players[i].seated && j.pos < t.numSeats && FindAt(t.players, j.pos, false).None?
    && j.covered
  }

  lemma JoinRefused(t: Table, i: nat, j: Join)
    requires !MayJoin(t, i, j)
    ensures JoinTable(t, i, j) == Failure(InvalidAction)
  {
  }

  lemma {:induction false} JoinInStages(t: Table, i: nat, j: Join, a: Table, b: Table, c: Table)
    requires MayJoin(t, i, j) && i < |a.players| && i < |b.players|
    requires FireAll(t, EventsOn(i, [TakeSeat(j.pos)] + SittingBehaviour(j.how))) == Success(a)
    requires FireAll(a, EventsOn(i, BuyinEvents(a.players[i], BuyinAmt(t, j)))) == Success(b)
    requires FireAll(b, EventsOn(i, RebuyUpdate(b.players[i], j.paid))) == Success(c)
    ensures JoinTable(t, i, j) == Success(c)
  {
  }

  lemma {:induction false} SeatStage(t: Table, i: nat, j: Join)
    requires i < |t.players| && !t.players[i].seated && t.players[i].playing.None?
    ensures FireAll(t, EventsOn(i, [TakeSeat(j.pos)] + SittingBehaviour(j.how)))
         == Success(With(t, i, SatAt(t.players[i], j)))
  {
    SeatEffects(t.players[i], j);
    FireOn(t, i, [TakeSeat(j.pos)] + SittingBehaviour(j.how));
  }

  lemma {:induction false} BuyinStage(t: Table, i: nat, amt: int)
    requires i < |t.players| && !t.players[i].HasInHandState()
    ensures FireAll(t, EventsOn(i, BuyinEvents(t.players[i], amt)))
         == Success(With(t, i, t.players[i].(stack := 0, pendingRebuy := Pending(t.players[i], amt))))
  {
    BuyinEffects(t.players[i], amt);
    FireOn(t, i, BuyinEvents(t.players[i], amt));
  }

  lemma {:induction false} RebuyStage(t: Table, i: nat, paid: bool)
    requires i < |t.players| && !t.players[i].HasInHandState()
    ensures
      var p := t.players[i];
      FireAll(t, EventsOn(i, RebuyUpdate(p, paid)))
        == Success(With(t, i, p.(stack := if paid then p.stack + p.pendingRebuy else p.stack, pendingRebuy := 0)))
  {
    RebuyEffects(t.players[i], paid);
    FireOn(t, i, RebuyUpdate(t.players[i], paid));
  }

  /** join_table is refused for a bad seat or for want of funds, and raises nothing else. */
  lemma JoinFires(t: Table, i: nat, j: Join)
    requires Seating(t) && EveryPlayer(t)
    ensures JoinTable(t, i, j) ==
      if MayJoin(t, i, j) then Success(With(t, i, Arrived(t, t.players[i], j))) else Failure(InvalidAction)
  {
    if MayJoin(t, i, j) {
      var p := t.players[i];
      var q := SatAt(p, j);
      var b := q.(stack := 0, pendingRebuy := Pending(p, BuyinAmt(t, j)));
      assert Sane(p);
      SeatStage(t, i, j);
      BuyinStage(With(t, i, q), i, BuyinAmt(t, j));
      WithTwice(t, i, q, b);
      RebuyStage(With(t, i, b), i, j.paid);
      WithTwice(t, i, b, Arrived(t, p, j));
      JoinInStages(t, i, j, With(t, i, q), With(t, i, b), With(t, i, Arrived(t, p, j)));
    } else {
      JoinRefused(t, i, j);
    }
  }

  // What becomes of the hand

  lemma JoinedIsOut(t: Table, p: PlayerState, j: Join)
    requires !p.seated && Sane(p) && PresetsOk(p) && 0 <= t.minBuyin
    ensures SameHand(p, Arrived(t, p, j)) && PresetsOk(Arrived(t, p, j))
    ensures Arrived(t, p, j).seated && Arrived(t, p, j).position == Some(j.pos) && Arrived(t, p, j).playing.Some?
  {
  }

  lemma NewSeat(t: Table, i: nat, q: PlayerState)
    requires Seating(t) && i < |t.players| && q.seated && q.playing.Some? && q.position.Some?
    requires q.position.value < t.numSeats && FindAt(t.players, q.position.value, false).None?
    ensures Seating(With(t, i, q))
  {
  }

  /** What a newcomer brings to the table: the chips bought, less those of an earlier stack. */
  function Brings(t: Table, i: nat, j: Join): int
    requires i < |t.players|
  {
    Arrived(t, t.players[i], j).stack - t.players[i].stack
  }

  /**
   * Somebody who joins the table in a dealt hand leaves the hand, the turn and the measure as they
   * were, and the chips in all grow by what they bring.
   */
  lemma JoinKeepsHand(t: Table, i: nat, j: Join)
    requires HandInv(t) && JoinTable(t, i, j).Success?
    ensures i < |t.players|
    ensures
      var u := JoinTable(t, i, j).value;
      && HandInv(u) && Later(t, u) && Total(u) == Total(t) + Brings(t, i, j) && Measure(u) == Measure(t)
      && NextToAct(u) == NextToAct(t)
  {
    JoinFires(t, i, j);
    var p := t.players[i];
    var q := Arrived(t, p, j);
    var u := With(t, i, q);
    assert Sane(p) && PresetsOk(p);
    JoinedIsOut(t, p, j);
    NewSeat(t, i, q);
    WithSameHands(t, i, q);
    WithKeepsPresets(t, i, q);
    SameHandsKeepHand(t, u);
    SameHandsKeepGame(t, u);
    SameHandsKeepMeasure(t, u);
    SameTurn(t, u);
    SumUpdate(t.players, i, q, ChipsOf);
  }
}
