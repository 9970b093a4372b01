/** The controller of a cash table: what it dispatches on its players and its table, step by step. */
module Controller {
  import opened Wrappers
  import opened Indexes
  import opened Players
  import opened Tables
  import opened Accessors
  import opened Requests
  import opened OutOfTurn
  import opened Streets
  import opened Hands
  import opened Play
  import opened Pots
  import opened Showdown
  import opened Settlement
  import opened Deals
  import opened Betting
  import opened Endings
  import opened Engine

  function StatesOf(players: seq<Player>): (r: seq<PlayerState>)
    reads players
    ensures |r| == |players| && forall i :: 0 <= i < |players| ==> r[i] == players[i].State()
  {
    seq(|players|, i requires 0 <= i < |players| reads players => players[i].State())
  }

  /** One round of step takes t to u: it stops there, or goes on from u. */
  ghost predicate StepsTo(t: Table, u: Table, done: bool)
    requires HandInv(t)
  {
    if done then u == Last(t) else HandInv(u) && Last(u) == Last(t) && 0 <= Measure(u) < Measure(t)
  }

  class HoldemController {
    const table: PokerTable
    const players: seq<Player>

    ghost predicate Valid() {
      forall i, j :: 0 <= i < j < |players| ==> players[i] != players[j]
    }

    /** The state of the table and all its players. */
    function View(): Table
      reads table, players
    {
      table.With(StatesOf(players))
    }

    constructor (table: PokerTable, players: seq<Player>)
      requires forall i, j :: 0 <= i < j < |players| ==> players[i] != players[j]
      ensures Valid() && this.table == table && this.players == players
    {
      this.table := table;
      this.players := players;
    }

    method DispatchOne(e: Event) returns (r: Result<(), Error>)
      requires Valid()
      modifies table, players
      ensures r.Success? <==> Fire(old(View()), e).Success?
      ensures r.Success? ==> View() == Fire(old(View()), e).value
      ensures r.Failure? ==> r.error == Fire(old(View()), e).error && View() == old(View())
    {
      match e
      case OnTable(te) =>
        r := table.Dispatch(te, StatesOf(players));
      case OnPlayer(i, pe) =>
        if i >= |players| {
          return Failure(Rejected);
        }
        DispatchedEffect(players[i].State(), pe);
        r := players[i].Dispatch(pe);
        if r.Success? {
          assert StatesOf(players) == old(StatesOf(players))[i := players[i].State()];
        }
    }

    /** internal_dispatch: the events in order, up to the first that raises */
    method InternalDispatch(events: seq<Event>) returns (r: Result<(), Error>)
      requires Valid()
      modifies table, players
      ensures r.Success? <==> FireAll(old(View()), events).Success?
      ensures r.Success? ==> View() == FireAll(old(View()), events).value
      ensures r.Failure? ==> r.error == FireAll(old(View()), events).error && View() == FireUntil(old(View()), events)
    {
      var k := 0;
      while k < |events|
        invariant 0 <= k <= |events|
        invariant FireAll(old(View()), events) == FireAll(View(), events[k..])
        invariant FireUntil(old(View()), events) == FireUntil(View(), events[k..])
      {
        assert events[k..][1..] == events[k + 1..];
        r := DispatchOne(events[k]);
        if r.Failure? {
          assert events[k..][0] == events[k];
          return;
        }
        k := k + 1;
      }
      r := Success(());
    }

    /** player_dispatch: a request is refused or carried out */
    method PlayerDispatch(i: nat, req: Request) returns (r: Result<(), Error>)
      requires Valid() && Seating(View())
      modifies table, players
      ensures r.Success? <==> Requests.PlayerDispatch(old(View()), i, req).Success?
      ensures r.Success? ==> View() == Requests.PlayerDispatch(old(View()), i, req).value
      ensures r.Failure? ==> r.error == Requests.PlayerDispatch(old(View()), i, req).error
      ensures r.Failure? && HandInv(old(View())) ==> View() == old(View())
    {
      var t := View();
      if i >= |players| {
        return Failure(Rejected);
      }
      if !IsAvailable(t, i, req.Kind()) {
        return Failure(Rejected);
      }
      var events := EventsFor(t, i, req);
      if events.Failure? {
        return Failure(events.error);
      }
      if HandInv(t) {
        EventsSucceed(t, i, req);
      }
      r := InternalDispatch(events.value);
    }

    /** deal_flop, deal_turn and deal_river */
    method DealToBoard(n: nat) returns (r: Result<(), Error>)
      requires Valid() && View().numSeats > 0
      modifies table, players
      ensures r.Success? <==> DealStreet(old(View()), n).Success?
      ensures r.Success? ==> View() == DealStreet(old(View()), n).value
      ensures r.Failure? ==> r.error == DealStreet(old(View()), n).error
    {
      var t := View();
      if n > |t.deck| {
        return Failure(OutOfCards);
      }
      r := InternalDispatch(StreetEvents(t, n));
    }

    /** With nobody to act: the hand is over, or the next street is dealt. */
    method DealNextStreet() returns (done: bool)
      requires Valid() && HandInv(View()) && NextToAct(View()) == None
      modifies table, players
      ensures StepsTo(old(View()), View(), done)
    {
      done := HandOver(View());
      if done {
        StepStops(View());
      } else {
        ghost var u := StepDealsStreet(View());
        var r := DealToBoard(if |View().board| == 0 then 3 else 1);
      }
    }

    /** With somebody to act: they have to decide, or their preset action is played. */
    method PlayPreset(i: nat) returns (done: bool)
      requires Valid() && HandInv(View()) && NextToAct(View()) == Some(i)
      modifies table, players
      ensures StepsTo(old(View()), View(), done)
    {
      NextActs(View(), i);
      var preset := PresetAction(View(), i);
      done := preset.None?;
      if done {
        StepWaits(View(), i);
      } else {
        ghost var u := StepPlaysPreset(View(), i);
        var r := PlayerDispatch(i, preset.value);
      }
    }

    /** One round of step. */
    method Advance() returns (done: bool)
      requires Valid() && HandInv(View())
      modifies table, players
      ensures StepsTo(old(View()), View(), done)
    {
      var t := View();
      var next := FindNextToAct(t);
      if next.None? {
        done := DealNextStreet();
      } else {
        done := PlayPreset(next.value);
      }
    }

    /** step(end_hand_stop=True): deals streets and plays presets until somebody has to decide or the hand is over */
    method StepOn()
      requires Valid() && HandInv(View())
      modifies table, players
      ensures View() == old(Last(View()))
      decreases Measure(View())
    {
      var done := Advance();
      if !done {
        StepOn();
      }
    }

    /** post_and_deal */
    method PostAndDealHands() returns (r: Result<(), Error>)
      requires Valid() && View().numSeats > 0
      modifies table, players
      ensures r.Success? <==> PostAndDeal(old(View())).Success?
      ensures r.Success? ==> View() == PostAndDeal(old(View())).value
      ensures r.Failure? ==> r.error == PostAndDeal(old(View())).error
    {
      var t := View();
      if SeatHolder(t, t.bbPos).None? {
        return Failure(ImpossibleGameState);
      }
      if 2 * |DealOrder(t)| > |t.deck| {
        return Failure(OutOfCards);
      }
      var posts := BlindEvents(t);
      r := InternalDispatch(posts + DealHands(t));
    }

    /** The WINs, then the RESETs. */
    method PayAndReset(awards: seq<Award>) returns (r: Result<(), Error>)
      requires Valid() && View().numSeats > 0
      modifies table, players
      ensures r.Success? <==> PayOut(old(View()), awards).Success?
      ensures r.Success? ==> View() == PayOut(old(View()), awards).value
      ensures r.Failure? ==> r.error == PayOut(old(View()), awards).error
    {
      r := InternalDispatch(AwardEvents(awards));
      if r.Success? {
        r := InternalDispatch(EventEach(Everybody(View()), Reset));
      }
    }

    method SettleUp(rank: nat -> int) returns (r: Result<(), Error>)
      requires Valid() && Seating(View())
      modifies table, players
      ensures r.Success? <==> Settle(old(View()), rank).Success?
      ensures r.Success? ==> View() == Settle(old(View()), rank).value
      ensures r.Failure? ==> r.error == Settle(old(View()), rank).error
    {
      var awards := WinsAndLosses(View(), rank);
      if awards.Failure? {
        return Failure(awards.error);
      }
      var sum := AddUp(awards.value);
      if sum != CurrentPot(View()) {
        return Failure(WinsDoNotAddUp);
      }
      r := PayAndReset(awards.value);
    }

    /** end_hand */
    method EndTheHand(rank: nat -> int) returns (r: Result<(), Error>)
      requires Valid() && HandInv(View())
      modifies table, players
      ensures r.Success? <==> EndHand(old(View()), rank).Success?
      ensures r.Success? ==> View() == EndHand(old(View()), rank).value
      ensures r.Failure? ==> r.error == EndHand(old(View()), rank).error
    {
      ReturnKeepsTable(View());
      r := InternalDispatch(ReturnUncalled(View()));
      r := SettleUp(rank);
    }
  }

  method AddUp(awards: seq<Award>) returns (sum: int)
    ensures sum == SumAwards(awards)
  {
    sum := 0;
    var k := 0;
    while k < |awards|
      invariant 0 <= k <= |awards| && sum == SumAwards(awards[..k])
    {
      assert awards[..k + 1][..k] == awards[..k];
      sum := sum + awards[k].amt;
      k := k + 1;
    }
    assert awards[..k] == awards;
  }

  /** wins_and_losses: the only player left takes every pot, or each pot is shown down */
  method WinsAndLosses(t: Table, rank: nat -> int) returns (r: Result<seq<Award>, Error>)
    requires Seating(t)
    ensures r == AwardsFor(t, rank)
  {
    var order := ActingOrder(t);
    var pots := SidepotSummary(t);
    ActingOrderComplete(t);
    if |order| == 1 {
      var awards := TakeAll(order[0], pots);
      r := Success(awards);
    } else {
      r := ShowDown(order, pots, rank);
    }
  }

  /** no_showdown_wins_and_losses */
  method TakeAll(winner: nat, pots: seq<Pot>) returns (awards: seq<Award>)
    ensures awards == SoleAwards(winner, pots)
  {
    awards := [];
    var k := 0;
    while k < |pots|
      invariant 0 <= k <= |pots| && awards == SoleAwards(winner, pots[..k])
    {
      assert pots[..k + 1][..k] == pots[..k];
      awards := awards + [Award(winner, pots[k].amt)];
      k := k + 1;
    }
    assert pots[..k] == pots;
  }

  /** showdown_wins_and_losses */
  method ShowDown(order: seq<nat>, pots: seq<Pot>, rank: nat -> int) returns (r: Result<seq<Award>, Error>)
    requires Distinct(order)
    ensures r == ShowdownAwards(order, pots, rank)
  {
    var awards: seq<Award> := [];
    var k := 0;
    while k < |pots|
      invariant 0 <= k <= |pots| && ShowdownAwards(order, pots[..k], rank) == Success(awards)
    {
      assert pots[..k + 1][..k] == pots[..k];
      var won := ShowdownWinningsForPot(order, pots[k], rank);
      if won.Failure? {
        FailedPot(order, pots, rank, k);
        return Failure(won.error);
      }
      awards := awards + won.value;
      k := k + 1;
    }
    assert pots[..k] == pots;
    r := Success(awards);
  }

  lemma {:induction false} FailedPot(order: seq<nat>, pots: seq<Pot>, rank: nat -> int, k: nat)
    requires k < |pots| && PotAwards(order, pots[k], rank).Failure?
    ensures ShowdownAwards(order, pots, rank) == Failure(NoWinner)
    ensures PotAwards(order, pots[k], rank) == Failure(NoWinner)
  {
    ShowdownNeedsContest(order, pots, rank);
    PotIsContested(order, pots[k], rank);
  }
}
