/** Requests that may come at any time touch neither the betting nor the turn. */
module OutOfTurn {
  import opened Wrappers
  import opened Indexes
  import opened Players
  import opened Tables
  import opened Accessors
  import opened Betting
  import opened BettingSteps
  import opened Requests

  /** Equal in everything that the betting looks at; of somebody who is out, not in the stack. */
  ghost predicate SameHand(p: PlayerState, q: PlayerState) {
    && (if p.Active() then q.stack == p.stack else 0 <= p.stack ==> 0 <= q.stack)
    && q.wagers == p.wagers && q.uncollected == p.uncollected && q.dead == p.dead
    && q.cards == p.cards && q.last == p.last
    && q.Active() == p.Active()
    && (p.Active() ==> q.position == p.position && q.playing.Some? == p.playing.Some?)
  }

  ghost predicate SameHands(t: Table, u: Table) {
    && u == t.(players := u.players) && |u.players| == |t.players|
    && forall i :: 0 <= i < |t.players| ==> SameHand(t.players[i], u.players[i])
  }

  ghost predicate SameStacks(t: Table, u: Table) {
    |u.players| == |t.players| && forall i :: 0 <= i < |t.players| ==> u.players[i].stack == t.players[i].stack
  }

  // The invariant

  lemma {:induction false} SameMax(ps: seq<PlayerState>, qs: seq<PlayerState>, liveOnly: bool)
    requires |ps| == |qs| && forall i :: 0 <= i < |ps| ==> SameHand(ps[i], qs[i])
    ensures MaxUncollected(ps, liveOnly) == MaxUncollected(qs, liveOnly)
    decreases |ps|
  {
    if ps != [] {
      SameMax(ps[..|ps| - 1], qs[..|ps| - 1], liveOnly);
    }
  }

  lemma SamePlayers(t: Table, u: Table)
    requires SameHands(t, u)
    ensures EveryPlayer(t) ==> EveryPlayer(u)
    ensures SomebodyLive(t) ==> SomebodyLive(u)
    ensures Leveled(t) ==> Leveled(u)
    ensures NothingCarried(t) ==> NothingCarried(u)
    ensures NobodyRaised(t) <==> NobodyRaised(u)
    ensures NobodyToAct(t) ==> NobodyToAct(u)
  {
    assert forall i :: 0 <= i < |t.players| ==> t.players[i].Live() == u.players[i].Live();
    forall i | EveryPlayer(t) && 0 <= i < |u.players| ensures Sane(u.players[i]) && DealtOrFolded(u.players[i]) {
      assert Sane(t.players[i]) && DealtOrFolded(t.players[i]);
    }
    if SomebodyLive(t) {
      var i :| 0 <= i < |t.players| && t.players[i].Live();
      assert u.players[i].Live();
    }
  }

  lemma SameLead(t: Table, u: Table, a: LastAction)
    requires SameHands(t, u) && LedBy(t, a)
    ensures LedBy(u, a)
  {
    SameMax(t.players, u.players, false);
    var l: nat :| IsLead(t, l, a);
    assert IsLead(u, l, a);
  }

  lemma SameRaisers(t: Table, u: Table)
    requires SameHands(t, u) && RaisersLead(t)
    ensures RaisersLead(u)
  {
    SameMax(t.players, u.players, false);
    assert forall i :: 0 <= i < |t.players| ==> t.players[i].Live() == u.players[i].Live();
    if LedBy(t, ActRaiseTo) { SameLead(t, u, ActRaiseTo); }
    if LedBy(t, ActBet) { SameLead(t, u, ActBet); }
  }

  lemma SameMatched(t: Table, u: Table)
    requires SameHands(t, u) && Matched(t)
    ensures Matched(u)
  {
    SameMax(t.players, u.players, true);
    assert forall i :: 0 <= i < |t.players| ==> t.players[i].Live() == u.players[i].Live();
  }

  lemma SameBb(t: Table, u: Table, b: nat)
    requires SameHands(t, u)
    ensures IsBb(u, b) <==> IsBb(t, b)
  {
  }

  lemma PostStillCovers(t: Table, u: Table, i: nat)
    requires SameHands(t, u) && CanRaise(u, i) && PostsCover(t)
    ensures exists p: nat :: PostStands(u, p, i)
  {
    SameMax(t.players, u.players, false);
    assert SameHand(t.players[i], u.players[i]);
    assert CanRaise(t, i);
    var p: nat :| PostStands(t, p, i);
    assert SameHand(t.players[p], u.players[p]);
    assert ActsAt(u, i) == ActsAt(t, i) && ActsAt(u, p) == ActsAt(t, p);
    assert PostStands(u, p, i);
  }

  lemma SamePreflop(t: Table, u: Table)
    requires SameHands(t, u) && Preflop(t)
    ensures Preflop(u)
  {
    SamePlayers(t, u);
    if NobodyRaised(t) {
      forall i: nat | CanRaise(u, i) ensures exists p: nat :: PostStands(u, p, i) {
        PostStillCovers(t, u, i);
      }
    }
  }

  lemma SameHandsKeepInvariant(t: Table, u: Table)
    requires BettingInv(t) && SameHands(t, u) && Seating(u)
    ensures BettingInv(u)
  {
    SamePlayers(t, u);
    SameBets(t, u);
    SameTable(t, u);
  }

  lemma SameBets(t: Table, u: Table)
    requires SameHands(t, u) && RaisersLead(t)
    ensures RaisersLead(u) && LastRaiseSize(u) == LastRaiseSize(t) && (NobodyRaised(u) <==> NobodyRaised(t))
    ensures Matched(t) ==> Matched(u)
    ensures Preflop(t) ==> Preflop(u)
  {
    SamePlayers(t, u);
    SameRaisers(t, u);
    if Matched(t) { SameMatched(t, u); }
    if Preflop(t) { SamePreflop(t, u); }
    SameMax(t.players, u.players, false);
  }

  lemma SameTable(t: Table, u: Table)
    requires SameHands(t, u) && HasBb(t)
    ensures HasBb(u) && Sum(u.players, ActiveOne) == Sum(t.players, ActiveOne)
  {
    SumSame(t.players, u.players, ActiveOne);
    var b :| IsBb(t, b);
    SameBb(t, u, b);
  }

  // The turn

  lemma {:induction false} SameFirst(s: seq<nat>, f: nat -> bool, g: nat -> bool)
    requires forall i :: i in s ==> f(i) == g(i)
    ensures First(s, f) == First(s, g)
  {
    if s != [] {
      SameFirst(s[1..], f, g);
    }
  }

  lemma {:induction false} SameLastRaiser(t: Table, u: Table, order: seq<nat>)
    requires SameHands(t, u) && Indexing(t, order)
    ensures LastRaiser(t, order) == LastRaiser(u, order)
    decreases |order|
  {
    if order != [] {
      SameLastRaiser(t, u, order[..|order| - 1]);
    }
  }

  lemma SameStart(t: Table, u: Table)
    requires SameHands(t, u) && t.numSeats > 0
    requires !IsPredeal(t) && !IsPredeal(u) && EnoughPlayersToPlay(t) && EnoughPlayersToPlay(u)
    requires Sum(t.players, ActiveOne) == Sum(u.players, ActiveOne)
    ensures StartPos(t) == StartPos(u)
  {
  }

  lemma SameActingOrder(t: Table, u: Table)
    requires SameHands(t, u) && t.numSeats > 0 && StartPos(t) == StartPos(u)
    ensures ActingOrder(t) == ActingOrder(u)
  {
    ActiveFromSame(t, u, StartPos(t), t.numSeats);
    SameFilter(ActivePlayers(t, StartPos(t)), LiveAt(t), LiveAt(u));
  }

  lemma SameNextAmong(t: Table, u: Table, order: seq<nat>)
    requires SameHands(t, u) && Indexing(t, order) && !IsPredeal(t) && !IsPredeal(u)
    requires forall i: nat :: i in order ==> i < |t.players| && t.players[i].Live()
    requires LastRaiseSize(t) == LastRaiseSize(u)
    ensures NextAmong(t, order) == NextAmong(u, order)
  {
    SameFilter(order, ChipsAt(t), ChipsAt(u));
    SameFirst(order, UnactedAt(t), UnactedAt(u));
    SameLastRaiser(t, u, order);
    var r := LastRaiser(t, order);
    if r.Some? {
      SameFirst(Rotated(order, IndexOf(order, r.value)),
                BehindAt(t, t.players[r.value].uncollected), BehindAt(u, u.players[r.value].uncollected));
    }
  }

  lemma CanBeActed(t: Table)
    requires BettingInv(t)
    ensures Seating(t) && !IsPredeal(t) && EnoughPlayersToPlay(t)
  {
    NotPredeal(t);
    EnoughPlayers(t);
  }

  lemma SameTurn(t: Table, u: Table)
    requires BettingInv(t) && SameHands(t, u) && Seating(u)
    ensures NextToAct(u) == NextToAct(t)
  {
    SameHandsKeepInvariant(t, u);
    CanBeActed(t);
    CanBeActed(u);
    SameTurnAmong(t, u);
  }

  lemma SameTurnAmong(t: Table, u: Table)
    requires SameHands(t, u) && Seating(t) && Seating(u)
    requires !IsPredeal(t) && !IsPredeal(u) && EnoughPlayersToPlay(t) && EnoughPlayersToPlay(u)
    ensures NextToAct(u) == NextToAct(t)
  {
    SumSame(t.players, u.players, ActiveOne);
    SameMax(t.players, u.players, false);
    SameStart(t, u);
    SameActingOrder(t, u);
    ActingOrderComplete(t);
    SameNextAmong(t, u, ActingOrder(t));
  }

  // The requests

  /** The event of an accepted request that is not a betting one. */
  function OtherEvent(t: Table, i: nat, req: Request): PlayerEvent
    requires i < |t.players| && !req.Betting()
  {
    match req
    case ReqBuy(amt, _) => Buy(amt)
    case ReqTakeSeat(pos, _) => TakeSeat(pos)
    case ReqLeaveSeat => LeaveSeat(t.players[i].SittingOutNow())
    case ReqSitIn => SitIn(false)
    case ReqSitOut => SitOut(false)
    case ReqSitInAtBlinds(setTo) => SitInAtBlinds(setTo)
    case ReqSitOutAtBlinds(setTo) => SitOutAtBlinds(setTo)
    case ReqPresetCheckfold(setTo) => PresetCheckfold(setTo)
    case ReqPresetCheck(setTo) => PresetCheck(setTo)
    case ReqPresetCall(amt) => PresetCall(amt)
  }

  ghost predicate SeatKept(p: PlayerState, q: PlayerState) {
    if q.seated then p.seated && q.position == p.position && q.playing.Some?
    else q.playing.None?
  }

  lemma SeatKeptKeepsSeating(t: Table, i: nat, q: PlayerState)
    requires Seating(t) && i < |t.players| && SeatKept(t.players[i], q)
    ensures Seating(With(t, i, q))
  {
  }

  ghost predicate Harmless(p: PlayerState, r: Result<PlayerState, Error>) {
    r.Success? && SameHand(p, r.value) && SeatKept(p, r.value) && r.value.stack == p.stack
  }

  ghost predicate NothingOut(p: PlayerState) {
    !p.Active() ==> !p.HasInHandState()
  }

  /** Toggling, with the player's state among those the action is offered in. */
  lemma ToggleHarmless(t: Table, i: nat, req: Request)
    requires i < |t.players| && t.players[i].seated && t.players[i].playing.Some? && NothingOut(t.players[i])
    requires req.ReqSitIn? || req.ReqSitOut? || req.ReqSitInAtBlinds? || req.ReqSitOutAtBlinds? || req.ReqTakeSeat?
    requires IsSittingToggle(t, t.players[i], req.Kind()) && TogglePasses(t, i, req)
    ensures Harmless(t.players[i], Effect(t.players[i], OtherEvent(t, i, req)))
  {
    var p := t.players[i];
    if req.ReqSitIn? {
      SitInHarmless(t, p);
    } else if req.ReqSitOut? {
      SitOutHarmless(t, p);
    } else if req.ReqSitInAtBlinds? {
      SitInAtBlindsHarmless(t, p, req.setTo);
    }
  }

  /** Who may ask to sit in, to sit out, or to sit in at the blinds. */
  lemma ToggleStates(t: Table, p: PlayerState)
    requires p.seated && p.playing.Some?
    ensures IsSittingToggle(t, p, KSitIn) ==>
      p.playing == Some(SittingOut) || p.playing == Some(SitInAtBlindsPending) || p.playing == Some(SitOutPending)
    ensures IsSittingToggle(t, p, KSitOut) ==>
      p.playing == Some(SittingIn) || p.playing == Some(SitInPending) || p.playing == Some(SitOutPending)
    ensures IsSittingToggle(t, p, KSitInAtBlinds) ==>
      p.playing == Some(SittingOut) || p.playing == Some(SitInAtBlindsPending) || p.playing == Some(SitInPending)
  {
    match p.playing.value
    case SittingIn =>
    case SittingOut =>
    case SitInPending =>
    case SitOutPending =>
    case SitInAtBlindsPending =>
    case LeaveSeatPending =>
  }

  lemma SitInHarmless(t: Table, p: PlayerState)
    requires p.seated && p.playing.Some? && NothingOut(p) && IsSittingToggle(t, p, KSitIn)
    ensures Harmless(p, Effect(p, SitIn(false)))
  {
    ToggleStates(t, p);
  }

  lemma SitOutHarmless(t: Table, p: PlayerState)
    requires p.seated && p.playing.Some? && NothingOut(p) && IsSittingToggle(t, p, KSitOut)
    ensures Harmless(p, Effect(p, SitOut(false)))
  {
    ToggleStates(t, p);
  }

  lemma SitInAtBlindsHarmless(t: Table, p: PlayerState, setTo: bool)
    requires p.seated && p.playing.Some? && NothingOut(p) && IsSittingToggle(t, p, KSitInAtBlinds)
    ensures Harmless(p, Effect(p, SitInAtBlinds(setTo)))
  {
    ToggleStates(t, p);
  }

  /** What the controller methods behind the toggles check. */
  ghost predicate TogglePasses(t: Table, i: nat, req: Request)
    requires i < |t.players|
  {
    match req
    case ReqTakeSeat(pos, hasBalance) => TakeSeatEvents(t, i, pos, hasBalance).Success?
    case ReqSitInAtBlinds(setTo) => SitInAtBlindsEvents(t, i, setTo).Success?
    case ReqSitOutAtBlinds(setTo) => InActiveState(t.players[i])
    case _ => true
  }

  lemma LeaveHarmless(t: Table, i: nat)
    requires i < |t.players| && t.players[i].seated && t.players[i].playing.Some? && NothingOut(t.players[i])
    ensures Harmless(t.players[i], Effect(t.players[i], OtherEvent(t, i, ReqLeaveSeat)))
  {
  }

  lemma PresetHarmless(t: Table, i: nat, req: Request)
    requires i < |t.players| && t.players[i].seated && t.players[i].playing.Some?
    requires req.ReqPresetCheckfold? || req.ReqPresetCheck? || req.ReqPresetCall? || req.ReqBuy?
    ensures Harmless(t.players[i], Effect(t.players[i], OtherEvent(t, i, req)))
  {
  }

  /** Taking a seat from outside. */
  lemma {:induction false} JoinKeepsSeating(t: Table, i: nat, pos: nat, q: PlayerState)
    requires Seating(t) && i < |t.players| && !t.players[i].seated && pos < t.numSeats
    requires Effect(t.players[i], TakeSeat(pos)) == Success(q)
    ensures Seating(With(t, i, q)) <==> FindAt(t.players, pos, false).None?
    ensures OutIsIdle(t) ==> SameHand(t.players[i], q) && q.stack == t.players[i].stack
  {
    var u := With(t, i, q);
    var f := FindAt(t.players, pos, false);
    if f.Some? {
      var j := f.value;
      assert u.players[j].seated && u.players[i].seated && u.players[j].position == u.players[i].position;
    }
    assert !t.players[i].Active();
  }

  /** Somebody who comes to the table names a seat that nobody holds. */
  predicate NamesFreeSeat(t: Table, i: nat, req: Request)
    requires i < |t.players|
  {
    req.ReqTakeSeat? && !t.players[i].seated ==> FindAt(t.players, req.pos, false).None?
  }

  lemma OtherHarmless(t: Table, i: nat, req: Request)
    requires Seating(t) && OutIsIdle(t) && i < |t.players| && t.players[i].seated
    requires !req.Betting() && IsAvailable(t, i, req.Kind()) && TogglePasses(t, i, req)
    ensures Harmless(t.players[i], Effect(t.players[i], OtherEvent(t, i, req)))
  {
    assert NothingOut(t.players[i]);
    if req.ReqLeaveSeat? {
      LeaveHarmless(t, i);
    } else if req.ReqPresetCheckfold? || req.ReqPresetCheck? || req.ReqPresetCall? || req.ReqBuy? {
      PresetHarmless(t, i, req);
    } else {
      NotOffered(t, i, req.Kind());
      ToggleHarmless(t, i, req);
    }
  }

  predicate IsToggleKind(k: ActionKind) {
    k == KSitIn || k == KSitOut || k == KSitInAtBlinds || k == KSitOutAtBlinds || k == KTakeSeat
  }

  lemma ToggleIsNoMove(t: Table, i: nat, k: ActionKind)
    requires i < |t.players| && IsToggleKind(k)
    ensures !IsTurnAction(t, i, k)
  {
  }

  lemma ToggleIsNoPreset(t: Table, p: PlayerState, k: ActionKind)
    requires IsToggleKind(k)
    ensures !IsPresetAction(t, p, k)
  {
  }

  /** A toggle is offered as a toggle or not at all. */
  lemma NotOffered(t: Table, i: nat, k: ActionKind)
    requires t.numSeats > 0 && i < |t.players| && t.players[i].seated && IsAvailable(t, i, k) && IsToggleKind(k)
    ensures IsSittingToggle(t, t.players[i], k)
  {
    ToggleIsNoMove(t, i, k);
    ToggleIsNoPreset(t, t.players[i], k);
  }

  lemma EventsAreOther(t: Table, i: nat, req: Request)
    requires t.numSeats > 0 && i < |t.players| && !req.Betting() && EventsFor(t, i, req).Success?
    ensures TogglePasses(t, i, req)
    ensures EventsFor(t, i, req).value == [OnPlayer(i, OtherEvent(t, i, req))]
         || (req.ReqBuy? && EventsFor(t, i, req).value == [])
    ensures req.ReqBuy? && EventsFor(t, i, req).value != [] ==> 0 < req.amt
    ensures req.ReqTakeSeat? && !t.players[i].seated ==> req.pos < t.numSeats
  {
  }

  lemma WithSameHands(t: Table, i: nat, q: PlayerState)
    requires i < |t.players| && SameHand(t.players[i], q)
    ensures SameHands(t, With(t, i, q))
    ensures q.stack == t.players[i].stack ==> SameStacks(t, With(t, i, q))
  {
  }

  /**
   * Whatever is accepted out of turn raises no exception and leaves the hand as it was; the seats stay
   * in order unless somebody who comes to the table names a seat that is held.
   */
  lemma {:induction false} OtherRequest(t: Table, i: nat, req: Request)
    requires Seating(t) && OutIsIdle(t) && i < |t.players|
    requires !req.Betting() && IsAvailable(t, i, req.Kind())
    requires EventsFor(t, i, req).Success?
    ensures
      var r := FireAll(t, EventsFor(t, i, req).value);
      r.Success? && SameHands(t, r.value) && SameStacks(t, r.value) && (Seating(r.value) <==> NamesFreeSeat(t, i, req))
  {
    EventsAreOther(t, i, req);
    if EventsFor(t, i, req).value != [] {
      var r := Effect(t.players[i], OtherEvent(t, i, req));
      FirePlayer(t, i, OtherEvent(t, i, req));
      if t.players[i].seated {
        OtherHarmless(t, i, req);
        SeatKeptKeepsSeating(t, i, r.value);
      } else {
        JoinKeepsSeating(t, i, req.pos, r.value);
      }
      WithSameHands(t, i, r.value);
    }
  }

  /** take_seat looks for active players only, so a seat whose holder sits out can be taken as well. */
  lemma {:induction false} TakenSeatAccepted(t: Table, i: nat, pos: nat)
    requires Seating(t) && OutIsIdle(t) && i < |t.players| && !t.players[i].seated && pos < t.numSeats
    requires FindAt(t.players, pos, false).Some? && FindAt(t.players, pos, true).None?
    ensures
      var r := PlayerDispatch(t, i, ReqTakeSeat(pos, true));
      r.Success? && SameHands(t, r.value) && SameStacks(t, r.value) && !Seating(r.value)
  {
    var req := ReqTakeSeat(pos, true);
    assert IsAvailable(t, i, KTakeSeat);
    assert EventsFor(t, i, req).Success?;
    OtherRequest(t, i, req);
  }

  /** Two at one seat: seat 1 is held by somebody sitting out, and a newcomer asks for it. */
  lemma SeatTakenTwice(t: Table)
    requires t == Table(3, 5, 10, 100, 1000, None, None, None, [], [],
      [SeatRow(1, SittingOut, 100), SeatRow(0, SittingOut, 100).(seated := false, playing := None)])
    ensures Seating(t) && PlayerDispatch(t, 1, ReqTakeSeat(1, true)).Success?
    ensures !Seating(PlayerDispatch(t, 1, ReqTakeSeat(1, true)).value)
  {
    assert At(t.players[0], 1, false);
    assert FindAt(t.players, 1, true, 1) == None;
    TakenSeatAccepted(t, 1, 1);
  }
}
