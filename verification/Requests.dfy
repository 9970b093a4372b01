/** The player API of the controller: which requests are accepted and the events they become. */
module Requests {
  import opened Wrappers
  import opened Players
  import opened Tables
  import opened Accessors
  import opened Betting
  import opened BettingSteps

  /** A player's request; hasBalance is what the bank answers when it is asked. */
  datatype Request =
    | ReqBet(amt: int)
    | ReqRaiseTo(amt: int)
    | ReqCall
    | ReqCheck
    | ReqFold(sitOut: bool)
    | ReqBuy(amt: int, hasBalance: bool)
    | ReqTakeSeat(pos: nat, hasBalance: bool)
    | ReqLeaveSeat
    | ReqSitIn
    | ReqSitOut
    | ReqSitInAtBlinds(setTo: bool)
    | ReqSitOutAtBlinds(setTo: bool)
    | ReqPresetCheckfold(setTo: bool)
    | ReqPresetCheck(setTo: bool)
    | ReqPresetCall(setToAmt: int)
  {
    function Kind(): ActionKind {
      match this
      case ReqBet(_) => KBet
      case ReqRaiseTo(_) => KRaiseTo
      case ReqCall => KCall
      case ReqCheck => KCheck
      case ReqFold(_) => KFold
      case ReqBuy(_, _) => KBuy
      case ReqTakeSeat(_, _) => KTakeSeat
      case ReqLeaveSeat => KLeaveSeat
      case ReqSitIn => KSitIn
      case ReqSitOut => KSitOut
      case ReqSitInAtBlinds(_) => KSitInAtBlinds
      case ReqSitOutAtBlinds(_) => KSitOutAtBlinds
      case ReqPresetCheckfold(_) => KPresetCheckfold
      case ReqPresetCheck(_) => KPresetCheck
      case ReqPresetCall(_) => KPresetCall
    }

    predicate Betting() {
      ReqBet? || ReqRaiseTo? || ReqCall? || ReqCheck? || ReqFold?
    }
  }

  type Events = Result<seq<Event>, Error>

  function BetEvents(t: Table, i: nat, amt: int): Events
    requires i < |t.players|
  {
    var p := t.players[i];
    if amt > p.stack || (amt < t.bb && amt != p.stack) then Failure(InvalidAction)
    else Success([OnPlayer(i, Bet(amt))])
  }

  function RaiseToEvents(t: Table, i: nat, amt: int): Events
    requires t.numSeats > 0 && i < |t.players|
  {
    var p := t.players[i];
    var least :- MinBetAmt(t);
    if amt > p.StackAvailable() || (amt < least && amt != p.StackAvailable()) then Failure(InvalidAction)
    else Success([OnPlayer(i, RaiseTo(amt))])
  }

  predicate LegalBuyin(t: Table, p: PlayerState, amt: int) {
    t.minBuyin <= amt + p.stack + p.pendingRebuy <= t.maxBuyin && amt > 0
  }

  function TakeSeatEvents(t: Table, i: nat, pos: nat, hasBalance: bool): Events
    requires i < |t.players|
  {
    var p := t.players[i];
    if p.seated then
      if p.playing != Some(LeaveSeatPending) then Failure(InvalidAction)
      else Success([OnPlayer(i, TakeSeat(pos))])
    else if pos >= t.numSeats || FindAt(t.players, pos, true).Some? || !hasBalance then Failure(InvalidAction)
    else Success([OnPlayer(i, TakeSeat(pos))])
  }

  function SitInAtBlindsEvents(t: Table, i: nat, setTo: bool): Events
    requires i < |t.players|
  {
    var s := t.players[i].playing;
    if s == Some(SitInAtBlindsPending) then
      if setTo then Failure(InvalidAction) else Success([OnPlayer(i, SitInAtBlinds(setTo))])
    else if s == Some(SittingOut) || s == Some(SitInPending) || s == Some(LeaveSeatPending) then
      if setTo then Success([OnPlayer(i, SitInAtBlinds(setTo))]) else Failure(InvalidAction)
    else Failure(InvalidAction)
  }

  /** The controller method named by the request. */
  function EventsFor(t: Table, i: nat, req: Request): Events
    requires t.numSeats > 0 && i < |t.players|
  {
    var p := t.players[i];
    match req
    case ReqBet(amt) => BetEvents(t, i, amt)
    case ReqRaiseTo(amt) => RaiseToEvents(t, i, amt)
    case ReqCall => Success([OnPlayer(i, Call(CallAmt(t, p)))])
    case ReqCheck => Success([OnPlayer(i, Check)])
    case ReqFold(sitOut) =>
      if sitOut then Success([OnPlayer(i, Fold), OnPlayer(i, SitOut(false))])
      else Success([OnPlayer(i, Fold)])
    case ReqBuy(amt, hasBalance) =>
      if LegalBuyin(t, p, amt) && hasBalance then Success([OnPlayer(i, Buy(amt))]) else Success([])
    case ReqTakeSeat(pos, hasBalance) => TakeSeatEvents(t, i, pos, hasBalance)
    case ReqLeaveSeat =>
      if !p.seated then Failure(InvalidAction)
      else Success([OnPlayer(i, LeaveSeat(p.SittingOutNow()))])
    case ReqSitIn =>
      if p.stack < MinAmtToPlay(t, p) then Failure(InvalidAction) else Success([OnPlayer(i, SitIn(false))])
    case ReqSitOut => Success([OnPlayer(i, SitOut(false))])
    case ReqSitInAtBlinds(setTo) => SitInAtBlindsEvents(t, i, setTo)
    case ReqSitOutAtBlinds(setTo) =>
      if InActiveState(p) then Success([OnPlayer(i, SitOutAtBlinds(setTo))]) else Failure(InvalidAction)
    case ReqPresetCheckfold(setTo) => Success([OnPlayer(i, PresetCheckfold(setTo))])
    case ReqPresetCheck(setTo) => Success([OnPlayer(i, PresetCheck(setTo))])
    case ReqPresetCall(amt) =>
      if amt != CallAmt(t, p) && amt != 0 then Failure(Rejected) else Success([OnPlayer(i, PresetCall(amt))])
  }

  /** player_dispatch: refused unless the request is among the available actions. */
  function PlayerDispatch(t: Table, i: nat, req: Request): Result<Table, Error>
    requires Seating(t)
  {
    if i >= |t.players| || !IsAvailable(t, i, req.Kind()) then Failure(Rejected)
    else
      var events :- EventsFor(t, i, req);
      FireAll(t, events)
  }

  // What accepted betting requests do

  lemma {:induction false} FirePlayer(t: Table, i: nat, e: PlayerEvent)
    requires i < |t.players|
    ensures Effect(t.players[i], e).Failure? ==> FireAll(t, [OnPlayer(i, e)]) == Failure(Effect(t.players[i], e).error)
    ensures Effect(t.players[i], e).Success? ==>
      FireAll(t, [OnPlayer(i, e)]) == Success(With(t, i, Effect(t.players[i], e).value))
  {
    FireOne(t, OnPlayer(i, e));
    DispatchedEffect(t.players[i], e);
  }

  lemma CallMatches(t: Table, i: nat)
    requires EveryPlayer(t) && Owes(t, i)
    ensures Effect(t.players[i], Call(CallAmt(t, t.players[i]))).Success?
    ensures MatchesBet(t, t.players[i], Effect(t.players[i], Call(CallAmt(t, t.players[i]))).value)
  {
    MaxBounds(t.players, true);
    assert Sane(t.players[i]);
  }

  lemma CheckMatches(t: Table, i: nat)
    requires EveryPlayer(t) && Owes(t, i) && LastRaiseSize(t) <= t.players[i].uncollected
    ensures MatchesBet(t, t.players[i], Effect(t.players[i], Check).value)
  {
    MaxBounds(t.players, true);
    MaxLiveAtMost(t);
    assert Sane(t.players[i]);
  }

  lemma BetLeads(t: Table, i: nat, amt: int)
    requires EveryPlayer(t) && Owes(t, i) && LastRaiseSize(t) == 0 && 0 < t.bb
    requires BetEvents(t, i, amt).Success?
    ensures Effect(t.players[i], Bet(amt)).Success?
    ensures TakesLead(t, t.players[i], Effect(t.players[i], Bet(amt)).value)
  {
    MaxBounds(t.players, false);
    assert Sane(t.players[i]);
  }

  lemma RaiseLeads(t: Table, i: nat, amt: int)
    requires EveryPlayer(t) && Owes(t, i) && LastRaiseSize(t) > 0
    requires t.players[i].StackAvailable() > LastRaiseSize(t)
    requires t.numSeats > 0 && MinBetAmt(t).Success? && MinBetAmt(t).value >= LastRaiseSize(t)
    requires RaiseToEvents(t, i, amt).Success?
    ensures Effect(t.players[i], RaiseTo(amt)).Success?
    ensures TakesLead(t, t.players[i], Effect(t.players[i], RaiseTo(amt)).value)
  {
    MaxBounds(t.players, false);
    assert Sane(t.players[i]);
  }

  function BettingEvent(t: Table, i: nat, req: Request): PlayerEvent
    requires i < |t.players| && req.Betting()
  {
    match req
    case ReqBet(amt) => Bet(amt)
    case ReqRaiseTo(amt) => RaiseTo(amt)
    case ReqCall => Call(CallAmt(t, t.players[i]))
    case ReqCheck => Check
    case ReqFold(_) => Fold
  }

  /** What the turn allows and the controller method accepts is one of the three moves of the betting round. */
  lemma TurnActs(t: Table, i: nat, req: Request)
    requires EveryPlayer(t) && Owes(t, i) && 0 < t.bb && t.numSeats > 0
    requires req.Betting() && IsTurnAction(t, i, req.Kind()) && EventsFor(t, i, req).Success?
    requires IsTurnAction(t, i, KRaiseTo) ==> MinBetAmt(t).Success? && MinBetAmt(t).value >= LastRaiseSize(t)
    ensures Effect(t.players[i], BettingEvent(t, i, req)).Success?
    ensures Acts(t, i, Effect(t.players[i], BettingEvent(t, i, req)).value)
  {
    match req
    case ReqBet(amt) => BetLeads(t, i, amt);
    case ReqRaiseTo(amt) => RaiseLeads(t, i, amt);
    case ReqCall => CallMatches(t, i);
    case ReqCheck => CheckMatches(t, i);
    case ReqFold(_) => assert Sane(t.players[i]);
  }

  /** An accepted betting request comes from the player whose turn it is and is one of those moves. */
  lemma RequestActs(t: Table, i: nat, req: Request)
    requires BettingInv(t) && i < |t.players| && req.Betting() && IsAvailable(t, i, req.Kind())
    requires EventsFor(t, i, req).Success?
    ensures NextToAct(t) == Some(i)
    ensures Effect(t.players[i], BettingEvent(t, i, req)).Success?
    ensures Acts(t, i, Effect(t.players[i], BettingEvent(t, i, req)).value)
  {
    TurnKindNeedsTurn(t, i, req.Kind());
    NextOwes(t, i);
    if IsTurnAction(t, i, KRaiseTo) {
      MinRaiseReachesLargestBet(t, i);
    }
    TurnActs(t, i, req);
  }
}
