/** A player's row, its event handlers and the class they are dispatched on (core/poker/models.py). */
module Players {
  import opened Wrappers

  type Rank = r: nat | r < 13
  type Suit = s: nat | s < 4
  datatype Card = Card(rank: Rank, suit: Suit)

  /** The playing states of a cash game. */
  datatype PlayingState =
    | SittingIn
    | SittingOut
    | SitInPending
    | SitOutPending
    | SitInAtBlindsPending
    | LeaveSeatPending

  /** The events that a player's last_action can hold. */
  datatype LastAction = ActPost | ActBet | ActRaiseTo | ActCall | ActCheck | ActFold | ActSitIn

  datatype Error =
    | WagerMoreThanStack
    | StillInHand
    | AlreadySeated
    | CannotSitIn
    | Rejected
    | InvalidAction
    | NoWinner
    | WinsDoNotAddUp
    | ImpossibleGameState
    | RotatedBack
    | OutOfCards

  /**
   * Chips are counted in units of the table's smallest chip. A preset call that is null and one
   * that is zero are told apart nowhere, so both are 0 here.
   */
  datatype PlayerState = PlayerState(
    position: Option<nat>,
    seated: bool,
    playing: Option<PlayingState>,
    sitOutAtBlinds: bool,
    stack: int,
    wagers: int,
    uncollected: int,
    dead: int,
    cards: seq<Card>,
    last: Option<LastAction>,
    owesSb: bool,
    owesBb: bool,
    pendingRebuy: int,
    presetCheckfold: bool,
    presetCheck: bool,
    presetCall: int
  ) {
    predicate SittingOutNow() {
      playing == Some(SitInAtBlindsPending) || playing == Some(SittingOut) || playing == Some(SitInPending)
    }

    predicate Active() {
      seated && !SittingOutNow()
    }

    /** Active and holding cards: what filter_nonactors keeps of the active players. */
    predicate Live() {
      Active() && playing.Some? && cards != []
    }

    function StackAvailable(): int {
      stack + uncollected
    }

    predicate HasInHandState() {
      cards != [] || wagers != 0 || dead != 0 || uncollected != 0
    }
  }

  /** One (attribute, value) pair of a change list. */
  datatype Change =
    | SetPosition(p: Option<nat>)
    | SetSeated(b: bool)
    | SetPlaying(s: Option<PlayingState>)
    | SetSitOutAtBlinds(b: bool)
    | SetStack(n: int)
    | SetWagers(n: int)
    | SetUncollected(n: int)
    | SetDead(n: int)
    | SetCards(cs: seq<Card>)
    | SetLast(a: Option<LastAction>)
    | SetOwesSb(b: bool)
    | SetOwesBb(b: bool)
    | SetPendingRebuy(n: int)
    | SetPresetCheckfold(b: bool)
    | SetPresetCheck(b: bool)
    | SetPresetCall(n: int)

  function Apply(p: PlayerState, c: Change): PlayerState {
    match c
    case SetPosition(x) => p.(position := x)
    case SetSeated(b) => p.(seated := b)
    case SetPlaying(s) => p.(playing := s)
    case SetSitOutAtBlinds(b) => p.(sitOutAtBlinds := b)
    case SetStack(n) => p.(stack := n)
    case SetWagers(n) => p.(wagers := n)
    case SetUncollected(n) => p.(uncollected := n)
    case SetDead(n) => p.(dead := n)
    case SetCards(cs) => p.(cards := cs)
    case SetLast(a) => p.(last := a)
    case SetOwesSb(b) => p.(owesSb := b)
    case SetOwesBb(b) => p.(owesBb := b)
    case SetPendingRebuy(n) => p.(pendingRebuy := n)
    case SetPresetCheckfold(b) => p.(presetCheckfold := b)
    case SetPresetCheck(b) => p.(presetCheck := b)
    case SetPresetCall(n) => p.(presetCall := n)
  }

  function ApplyAll(p: PlayerState, changes: seq<Change>): PlayerState
    decreases |changes|
  {
    if changes == [] then p else ApplyAll(Apply(p, changes[0]), changes[1..])
  }

  datatype PlayerEvent =
    | Post(amt: int)
    | PostDead(amt: int)
    | Bet(amt: int)
    | RaiseTo(amt: int)
    | Call(amt: int)
    | Check
    | Fold
    | Deal(card: Card)
    | NewStreet
    | Reset
    | ReturnChips(amt: int)
    | Win(amt: int)
    | Buy(amt: int)
    | UpdateStack(resetStack: bool)
    | TakeSeat(pos: nat)
    | LeaveSeat(immediate: bool)
    | SitIn(immediate: bool)
    | SitOut(immediate: bool)
    | SitInAtBlinds(setTo: bool)
    | SitOutAtBlinds(setTo: bool)
    | OweSb(owes: bool)
    | OweBb(owes: bool)
    | PresetCheckfold(setTo: bool)
    | PresetCheck(setTo: bool)
    | PresetCall(amt: int)

  type Changes = Result<seq<Change>, Error>

  // Event helpers

  function When(b: bool, c: Change): seq<Change> {
    if b then [c] else []
  }

  /** Only the presets that are set produce a change. */
  function ClearPresets(p: PlayerState): seq<Change> {
    When(p.presetCheckfold, SetPresetCheckfold(false)) +
    When(p.presetCheck, SetPresetCheck(false)) +
    When(p.presetCall != 0, SetPresetCall(0))
  }

  predicate ActedThisStreet(p: PlayerState) {
    p.last == Some(ActCall) || p.last == Some(ActRaiseTo) || p.last == Some(ActBet) || p.last == Some(ActCheck)
  }

  function ClearActiveLastActions(p: PlayerState): seq<Change> {
    When(ActedThisStreet(p), SetLast(None))
  }

  // Handlers

  function OnPost(p: PlayerState, amt: int): Changes {
    if amt > p.stack then Failure(WagerMoreThanStack)
    else Success([
      SetWagers(p.wagers + amt),
      SetStack(p.stack - amt),
      SetUncollected(p.uncollected + amt),
      SetLast(Some(ActPost))])
  }

  function OnPostDead(p: PlayerState, amt: int): Changes {
    if amt > p.stack then Failure(WagerMoreThanStack)
    else Success([SetDead(p.dead + amt), SetStack(p.stack - amt)])
  }

  function OnBet(p: PlayerState, amt: int): Changes {
    if amt > p.stack then Failure(WagerMoreThanStack)
    else Success([
      SetUncollected(amt),
      SetWagers(p.wagers + amt),
      SetStack(p.stack - amt),
      SetLast(Some(ActBet))] + ClearPresets(p))
  }

  function OnCall(p: PlayerState, amt: int): Changes {
    var owed := amt - p.uncollected;
    var adjusted := if owed >= p.stack then p.stack else owed;
    Success([
      SetWagers(p.wagers + adjusted),
      SetStack(p.stack - adjusted),
      SetUncollected(amt),
      SetLast(Some(ActCall))] + ClearPresets(p))
  }

  function OnRaiseTo(p: PlayerState, amt: int): Changes {
    var diff := amt - p.uncollected;
    if diff > p.stack then Failure(WagerMoreThanStack)
    else Success([
      SetWagers(p.wagers + diff),
      SetStack(p.stack - diff),
      SetUncollected(amt),
      SetLast(Some(ActRaiseTo))] + ClearPresets(p))
  }

  function OnFold(p: PlayerState): Changes {
    Success([SetLast(Some(ActFold)), SetCards([])] + ClearPresets(p))
  }

  function OnCheck(p: PlayerState): Changes {
    Success([SetLast(Some(ActCheck))] + ClearPresets(p))
  }

  function OnDeal(p: PlayerState, card: Card): Changes {
    Success([SetCards(p.cards + [card])])
  }

  function OnNewStreet(p: PlayerState): Changes {
    Success([SetUncollected(0)] + ClearPresets(p) + ClearActiveLastActions(p))
  }

  function OnReset(p: PlayerState): Changes {
    Success([SetCards([]), SetWagers(0), SetDead(0), SetUncollected(0), SetLast(None)] + ClearPresets(p))
  }

  function OnReturnChips(p: PlayerState, amt: int): Changes {
    Success([
      SetUncollected(p.uncollected - amt),
      SetWagers(p.wagers - amt),
      SetStack(p.stack + amt)])
  }

  /** A rebuy reaches the stack, or the stack is given up for one. */
  function OnUpdateStack(p: PlayerState, resetStack: bool): Changes {
    Success([
      SetStack(if resetStack then 0 else p.stack + p.pendingRebuy),
      SetPendingRebuy(0),
      SetWagers(0),
      SetUncollected(0)])
  }

  function OnTakeSeat(p: PlayerState, pos: nat): Changes {
    if p.playing == Some(LeaveSeatPending) then Success([SetPlaying(Some(SittingIn))])
    else if p.seated then Failure(AlreadySeated)
    else Success([
      SetOwesBb(true),
      SetSeated(true),
      SetPosition(Some(pos)),
      SetPlaying(if p.playing.None? then Some(SittingOut) else p.playing)])
  }

  function OnLeaveSeat(p: PlayerState, immediate: bool): Changes {
    if immediate then
      if p.HasInHandState() then Failure(StillInHand)
      else Success([SetSeated(false), SetPlaying(None)])
    else Success(
      When(p.sitOutAtBlinds, SetSitOutAtBlinds(false)) + [SetPlaying(Some(LeaveSeatPending))])
  }

  function OnSitIn(p: PlayerState, immediate: bool): Changes {
    if immediate then Success([SetLast(Some(ActSitIn)), SetPlaying(Some(SittingIn))])
    else if p.playing == Some(SitOutPending) then Success([SetPlaying(Some(SittingIn))])
    else if p.playing == Some(SitInAtBlindsPending) || p.playing == Some(SittingOut) then
      Success([SetPlaying(Some(SitInPending))])
    else Failure(CannotSitIn)
  }

  function OnSitOut(p: PlayerState, immediate: bool): Changes {
    if immediate || p.playing == Some(SitInPending) then
      if p.HasInHandState() then Failure(StillInHand)
      else Success(
        When(p.sitOutAtBlinds, SetSitOutAtBlinds(false)) + [SetPlaying(Some(SittingOut))])
    else Success(
      When(p.sitOutAtBlinds, SetSitOutAtBlinds(false)) + [SetPlaying(Some(SitOutPending))])
  }

  function OnSitInAtBlinds(p: PlayerState, setTo: bool): Changes {
    Success([SetPlaying(if setTo then Some(SitInAtBlindsPending) else Some(SittingOut))])
  }

  /** Setting sit_out_at_blinds cancels a pending sit-out or departure. */
  predicate CancelsPending(p: PlayerState) {
    p.playing == Some(SitOutPending) || p.playing == Some(LeaveSeatPending)
  }

  function OnSitOutAtBlinds(p: PlayerState, setTo: bool): Changes {
    Success(
      When(CancelsPending(p), SetPlaying(Some(SittingIn))) +
      [SetSitOutAtBlinds(setTo)])
  }

  /** The handler that an event names. */
  function Handle(p: PlayerState, e: PlayerEvent): Changes {
    match e
    case Post(amt) => OnPost(p, amt)
    case PostDead(amt) => OnPostDead(p, amt)
    case Bet(amt) => OnBet(p, amt)
    case RaiseTo(amt) => OnRaiseTo(p, amt)
    case Call(amt) => OnCall(p, amt)
    case Check => OnCheck(p)
    case Fold => OnFold(p)
    case Deal(card) => OnDeal(p, card)
    case NewStreet => OnNewStreet(p)
    case Reset => OnReset(p)
    case ReturnChips(amt) => OnReturnChips(p, amt)
    case Win(amt) => Success([SetStack(p.stack + amt)])
    case Buy(amt) => Success([SetPendingRebuy(p.pendingRebuy + amt)])
    case UpdateStack(resetStack) => OnUpdateStack(p, resetStack)
    case TakeSeat(pos) => OnTakeSeat(p, pos)
    case LeaveSeat(immediate) => OnLeaveSeat(p, immediate)
    case SitIn(immediate) => OnSitIn(p, immediate)
    case SitOut(immediate) => OnSitOut(p, immediate)
    case SitInAtBlinds(setTo) => OnSitInAtBlinds(p, setTo)
    case SitOutAtBlinds(setTo) => OnSitOutAtBlinds(p, setTo)
    case OweSb(owes) => Success([SetOwesSb(owes)])
    case OweBb(owes) => Success([SetOwesBb(owes)])
    case PresetCheckfold(setTo) => Success(ClearPresets(p) + [SetPresetCheckfold(setTo)])
    case PresetCheck(setTo) => Success(ClearPresets(p) + [SetPresetCheck(setTo)])
    case PresetCall(amt) => Success(ClearPresets(p) + [SetPresetCall(amt)])
  }

  /** What one dispatched event makes of a player. */
  function Dispatched(p: PlayerState, e: PlayerEvent): Result<PlayerState, Error> {
    var changes :- Handle(p, e);
    Success(ApplyAll(p, changes))
  }

  // What the change lists amount to

  lemma {:induction false} ApplyCons(p: PlayerState, c: Change, rest: seq<Change>)
    ensures ApplyAll(p, [c] + rest) == ApplyAll(Apply(p, c), rest)
  {
    assert ([c] + rest)[1..] == rest;
  }

  lemma {:induction false} ApplyAppend(p: PlayerState, a: seq<Change>, b: seq<Change>)
    ensures ApplyAll(p, a + b) == ApplyAll(ApplyAll(p, a), b)
    decreases |a|
  {
    if a == [] {
      assert a + b == b;
    } else {
      assert (a + b)[1..] == a[1..] + b;
      ApplyAppend(Apply(p, a[0]), a[1..], b);
    }
  }

  function Unpreset(p: PlayerState): PlayerState {
    p.(presetCheckfold := false, presetCheck := false, presetCall := 0)
  }

  lemma {:induction false} ApplyWhen(p: PlayerState, b: bool, c: Change)
    ensures ApplyAll(p, When(b, c)) == if b then Apply(p, c) else p
  {
    assert [c][1..] == [];
  }

  lemma {:induction false} ApplyClearPresets(p: PlayerState, q: PlayerState)
    requires q.presetCheckfold == p.presetCheckfold && q.presetCheck == p.presetCheck && q.presetCall == p.presetCall
    ensures ApplyAll(q, ClearPresets(p)) == Unpreset(q)
  {
    var a := When(p.presetCheckfold, SetPresetCheckfold(false));
    var b := When(p.presetCheck, SetPresetCheck(false));
    var c := When(p.presetCall != 0, SetPresetCall(0));
    ApplyAppend(q, a + b, c);
    ApplyAppend(q, a, b);
    ApplyWhen(q, p.presetCheckfold, SetPresetCheckfold(false));
    var qa := ApplyAll(q, a);
    ApplyWhen(qa, p.presetCheck, SetPresetCheck(false));
    var qb := ApplyAll(qa, b);
    ApplyWhen(qb, p.presetCall != 0, SetPresetCall(0));
  }

  /** The update each event stands for, with every new value read from the row as it was. */
  function Effect(p: PlayerState, e: PlayerEvent): Result<PlayerState, Error> {
    match e
    case Post(amt) =>
      if amt > p.stack then Failure(WagerMoreThanStack)
      else Success(p.(
        stack := p.stack - amt, wagers := p.wagers + amt, uncollected := p.uncollected + amt, last := Some(ActPost)))
    case PostDead(amt) =>
      if amt > p.stack then Failure(WagerMoreThanStack)
      else Success(p.(stack := p.stack - amt, dead := p.dead + amt))
    case Bet(amt) =>
      if amt > p.stack then Failure(WagerMoreThanStack)
      else Success(Unpreset(p.(
        stack := p.stack - amt, wagers := p.wagers + amt, uncollected := amt, last := Some(ActBet))))
    case RaiseTo(amt) =>
      var diff := amt - p.uncollected;
      if diff > p.stack then Failure(WagerMoreThanStack)
      else Success(Unpreset(p.(
        stack := p.stack - diff, wagers := p.wagers + diff, uncollected := amt, last := Some(ActRaiseTo))))
    case Call(amt) =>
      var paid := if amt - p.uncollected >= p.stack then p.stack else amt - p.uncollected;
      Success(Unpreset(p.(
        stack := p.stack - paid, wagers := p.wagers + paid, uncollected := amt, last := Some(ActCall))))
    case Check => Success(Unpreset(p.(last := Some(ActCheck))))
    case Fold => Success(Unpreset(p.(last := Some(ActFold), cards := [])))
    case Deal(card) => Success(p.(cards := p.cards + [card]))
    case NewStreet =>
      Success(Unpreset(p.(uncollected := 0, last := if ActedThisStreet(p) then None else p.last)))
    case Reset =>
      Success(Unpreset(p.(cards := [], wagers := 0, dead := 0, uncollected := 0, last := None)))
    case ReturnChips(amt) =>
      Success(p.(stack := p.stack + amt, wagers := p.wagers - amt, uncollected := p.uncollected - amt))
    case Win(amt) => Success(p.(stack := p.stack + amt))
    case Buy(amt) => Success(p.(pendingRebuy := p.pendingRebuy + amt))
    case UpdateStack(resetStack) =>
      Success(p.(stack := if resetStack then 0 else p.stack + p.pendingRebuy, pendingRebuy := 0,
                 wagers := 0, uncollected := 0))
    case TakeSeat(pos) =>
      if p.playing == Some(LeaveSeatPending) then Success(p.(playing := Some(SittingIn)))
      else if p.seated then Failure(AlreadySeated)
      else Success(p.(owesBb := true, seated := true, position := Some(pos),
                      playing := if p.playing.None? then Some(SittingOut) else p.playing))
    case LeaveSeat(immediate) =>
      if !immediate then Success(p.(playing := Some(LeaveSeatPending), sitOutAtBlinds := false))
      else if p.HasInHandState() then Failure(StillInHand)
      else Success(p.(seated := false, playing := None))
    case SitIn(immediate) =>
      if immediate then Success(p.(last := Some(ActSitIn), playing := Some(SittingIn)))
      else if p.playing == Some(SitOutPending) then Success(p.(playing := Some(SittingIn)))
      else if p.playing == Some(SitInAtBlindsPending) || p.playing == Some(SittingOut) then
        Success(p.(playing := Some(SitInPending)))
      else Failure(CannotSitIn)
    case SitOut(immediate) =>
      if !immediate && p.playing != Some(SitInPending) then
        Success(p.(playing := Some(SitOutPending), sitOutAtBlinds := false))
      else if p.HasInHandState() then Failure(StillInHand)
      else Success(p.(playing := Some(SittingOut), sitOutAtBlinds := false))
    case SitInAtBlinds(setTo) =>
      Success(p.(playing := if setTo then Some(SitInAtBlindsPending) else Some(SittingOut)))
    case SitOutAtBlinds(setTo) =>
      Success(p.(playing := if CancelsPending(p) then Some(SittingIn) else p.playing, sitOutAtBlinds := setTo))
    case OweSb(owes) => Success(p.(owesSb := owes))
    case OweBb(owes) => Success(p.(owesBb := owes))
    case PresetCheckfold(setTo) => Success(Unpreset(p).(presetCheckfold := setTo))
    case PresetCheck(setTo) => Success(Unpreset(p).(presetCheck := setTo))
    case PresetCall(amt) => Success(Unpreset(p).(presetCall := amt))
  }

  lemma {:induction false} ApplyTwo(p: PlayerState, a: Change, b: Change)
    ensures ApplyAll(p, [a, b]) == Apply(Apply(p, a), b)
  {
    assert [a, b] == [a] + [b];
    ApplyCons(p, a, [b]);
    ApplyCons(Apply(p, a), b, []);
  }

  lemma {:induction false} ApplyFour(p: PlayerState, a: Change, b: Change, c: Change, d: Change)
    ensures ApplyAll(p, [a, b, c, d]) == Apply(Apply(Apply(Apply(p, a), b), c), d)
  {
    assert [a, b, c, d] == [a, b] + [c, d];
    ApplyAppend(p, [a, b], [c, d]);
    ApplyTwo(p, a, b);
    ApplyTwo(Apply(Apply(p, a), b), c, d);
  }

  predicate SamePresets(p: PlayerState, q: PlayerState) {
    q.presetCheckfold == p.presetCheckfold && q.presetCheck == p.presetCheck && q.presetCall == p.presetCall
  }

  lemma {:induction false} ApplyThenClear(p: PlayerState, cs: seq<Change>)
    requires SamePresets(p, ApplyAll(p, cs))
    ensures ApplyAll(p, cs + ClearPresets(p)) == Unpreset(ApplyAll(p, cs))
  {
    ApplyAppend(p, cs, ClearPresets(p));
    ApplyClearPresets(p, ApplyAll(p, cs));
  }

  lemma PostEffect(p: PlayerState, amt: int)
    ensures Dispatched(p, Post(amt)) == Effect(p, Post(amt))
  {
    var a, b, c, d :=
      SetWagers(p.wagers + amt), SetStack(p.stack - amt), SetUncollected(p.uncollected + amt), SetLast(Some(ActPost));
    ApplyFour(p, a, b, c, d);
  }

  lemma BetEffect(p: PlayerState, amt: int)
    ensures Dispatched(p, Bet(amt)) == Effect(p, Bet(amt))
  {
    var a, b, c, d :=
      SetUncollected(amt), SetWagers(p.wagers + amt), SetStack(p.stack - amt), SetLast(Some(ActBet));
    ApplyFour(p, a, b, c, d);
    ApplyThenClear(p, [a, b, c, d]);
  }

  lemma RaiseToEffect(p: PlayerState, amt: int)
    ensures Dispatched(p, RaiseTo(amt)) == Effect(p, RaiseTo(amt))
  {
    var diff := amt - p.uncollected;
    var a, b, c, d :=
      SetWagers(p.wagers + diff), SetStack(p.stack - diff), SetUncollected(amt), SetLast(Some(ActRaiseTo));
    ApplyFour(p, a, b, c, d);
    ApplyThenClear(p, [a, b, c, d]);
  }

  lemma CallEffect(p: PlayerState, amt: int)
    ensures Dispatched(p, Call(amt)) == Effect(p, Call(amt))
  {
    var paid := if amt - p.uncollected >= p.stack then p.stack else amt - p.uncollected;
    var a, b, c, d :=
      SetWagers(p.wagers + paid), SetStack(p.stack - paid), SetUncollected(amt), SetLast(Some(ActCall));
    ApplyFour(p, a, b, c, d);
    ApplyThenClear(p, [a, b, c, d]);
  }

  lemma CheckEffect(p: PlayerState)
    ensures Dispatched(p, Check) == Effect(p, Check)
  {
    ApplyWhen(p, true, SetLast(Some(ActCheck)));
    ApplyThenClear(p, [SetLast(Some(ActCheck))]);
  }

  lemma FoldEffect(p: PlayerState)
    ensures Dispatched(p, Fold) == Effect(p, Fold)
  {
    ApplyTwo(p, SetLast(Some(ActFold)), SetCards([]));
    ApplyThenClear(p, [SetLast(Some(ActFold)), SetCards([])]);
  }

  lemma NewStreetEffect(p: PlayerState)
    ensures Dispatched(p, NewStreet) == Effect(p, NewStreet)
  {
    var collected := p.(uncollected := 0);
    ApplyWhen(p, true, SetUncollected(0));
    ApplyThenClear(p, [SetUncollected(0)]);
    ApplyAppend(p, [SetUncollected(0)] + ClearPresets(p), ClearActiveLastActions(p));
    ApplyWhen(Unpreset(collected), ActedThisStreet(p), SetLast(None));
  }

  lemma {:induction false} ApplyFive(p: PlayerState, a: Change, b: Change, c: Change, d: Change, e: Change)
    ensures ApplyAll(p, [a, b, c, d, e]) == Apply(Apply(Apply(Apply(Apply(p, a), b), c), d), e)
  {
    assert [a, b, c, d, e] == [a] + [b, c, d, e];
    ApplyCons(p, a, [b, c, d, e]);
    ApplyFour(Apply(p, a), b, c, d, e);
  }

  lemma ResetEffect(p: PlayerState)
    ensures Dispatched(p, Reset) == Effect(p, Reset)
  {
    var a, b, c, d, f := SetCards([]), SetWagers(0), SetDead(0), SetUncollected(0), SetLast(None);
    ApplyFive(p, a, b, c, d, f);
    ApplyThenClear(p, [a, b, c, d, f]);
  }

  lemma {:induction false} ApplyLeaving(p: PlayerState, s: Option<PlayingState>)
    ensures ApplyAll(p, When(p.sitOutAtBlinds, SetSitOutAtBlinds(false)) + [SetPlaying(s)])
         == p.(sitOutAtBlinds := false, playing := s)
  {
    ApplyAppend(p, When(p.sitOutAtBlinds, SetSitOutAtBlinds(false)), [SetPlaying(s)]);
    ApplyWhen(p, p.sitOutAtBlinds, SetSitOutAtBlinds(false));
    ApplyWhen(p.(sitOutAtBlinds := false), true, SetPlaying(s));
  }

  lemma TakeSeatEffect(p: PlayerState, pos: nat)
    ensures Dispatched(p, TakeSeat(pos)) == Effect(p, TakeSeat(pos))
  {
    ApplyWhen(p, true, SetPlaying(Some(SittingIn)));
    ApplyFour(p, SetOwesBb(true), SetSeated(true), SetPosition(Some(pos)),
              SetPlaying(if p.playing.None? then Some(SittingOut) else p.playing));
  }

  lemma LeaveSeatEffect(p: PlayerState, immediate: bool)
    ensures Dispatched(p, LeaveSeat(immediate)) == Effect(p, LeaveSeat(immediate))
  {
    ApplyTwo(p, SetSeated(false), SetPlaying(None));
    ApplyLeaving(p, Some(LeaveSeatPending));
  }

  lemma SitInEffect(p: PlayerState, immediate: bool)
    ensures Dispatched(p, SitIn(immediate)) == Effect(p, SitIn(immediate))
  {
    ApplyTwo(p, SetLast(Some(ActSitIn)), SetPlaying(Some(SittingIn)));
    ApplyWhen(p, true, SetPlaying(Some(SittingIn)));
    ApplyWhen(p, true, SetPlaying(Some(SitInPending)));
  }

  lemma SitOutEffect(p: PlayerState, immediate: bool)
    ensures Dispatched(p, SitOut(immediate)) == Effect(p, SitOut(immediate))
  {
    ApplyLeaving(p, Some(SittingOut));
    ApplyLeaving(p, Some(SitOutPending));
  }

  lemma SitOutAtBlindsEffect(p: PlayerState, setTo: bool)
    ensures Dispatched(p, SitOutAtBlinds(setTo)) == Effect(p, SitOutAtBlinds(setTo))
  {
    var q := if CancelsPending(p) then p.(playing := Some(SittingIn)) else p;
    ApplyAppend(p, When(CancelsPending(p), SetPlaying(Some(SittingIn))), [SetSitOutAtBlinds(setTo)]);
    ApplyWhen(p, CancelsPending(p), SetPlaying(Some(SittingIn)));
    ApplyWhen(q, true, SetSitOutAtBlinds(setTo));
  }

  lemma ReturnChipsEffect(p: PlayerState, amt: int)
    ensures Dispatched(p, ReturnChips(amt)) == Effect(p, ReturnChips(amt))
  {
    var a, b, c := SetUncollected(p.uncollected - amt), SetWagers(p.wagers - amt), SetStack(p.stack + amt);
    assert [a, b, c] == [a, b] + [c];
    ApplyAppend(p, [a, b], [c]);
    ApplyTwo(p, a, b);
    ApplyWhen(p.(uncollected := p.uncollected - amt, wagers := p.wagers - amt), true, c);
  }

  lemma {:induction false} ClearThenSet(p: PlayerState, c: Change)
    ensures ApplyAll(p, ClearPresets(p) + [c]) == Apply(Unpreset(p), c)
  {
    ApplyAppend(p, ClearPresets(p), [c]);
    ApplyClearPresets(p, p);
    ApplyWhen(Unpreset(p), true, c);
  }

  lemma PresetCheckfoldEffect(p: PlayerState, setTo: bool)
    ensures Dispatched(p, PresetCheckfold(setTo)) == Effect(p, PresetCheckfold(setTo))
  {
    ClearThenSet(p, SetPresetCheckfold(setTo));
  }

  lemma PresetCheckEffect(p: PlayerState, setTo: bool)
    ensures Dispatched(p, PresetCheck(setTo)) == Effect(p, PresetCheck(setTo))
  {
    ClearThenSet(p, SetPresetCheck(setTo));
  }

  lemma PresetCallEffect(p: PlayerState, amt: int)
    ensures Dispatched(p, PresetCall(amt)) == Effect(p, PresetCall(amt))
  {
    ClearThenSet(p, SetPresetCall(amt));
  }

  lemma SingleChangeEffect(p: PlayerState, e: PlayerEvent)
    requires e.Deal? || e.Win? || e.Buy? || e.OweSb? || e.OweBb? || e.SitInAtBlinds?
    ensures Dispatched(p, e) == Effect(p, e)
  {
    match Handle(p, e)
    case Success(changes) => ApplyWhen(p, true, changes[0]);
  }

  lemma PostDeadEffect(p: PlayerState, amt: int)
    ensures Dispatched(p, PostDead(amt)) == Effect(p, PostDead(amt))
  {
    ApplyTwo(p, SetDead(p.dead + amt), SetStack(p.stack - amt));
  }

  lemma UpdateStackEffect(p: PlayerState, resetStack: bool)
    ensures Dispatched(p, UpdateStack(resetStack)) == Effect(p, UpdateStack(resetStack))
  {
    ApplyFour(p, SetStack(if resetStack then 0 else p.stack + p.pendingRebuy), SetPendingRebuy(0), SetWagers(0),
              SetUncollected(0));
  }

  /** Assigning the changes one by one has the effect of assigning them all at once. */
  lemma DispatchedEffect(p: PlayerState, e: PlayerEvent)
    ensures Dispatched(p, e) == Effect(p, e)
  {
    match e
    case Post(amt) => PostEffect(p, amt);
    case Bet(amt) => BetEffect(p, amt);
    case RaiseTo(amt) => RaiseToEffect(p, amt);
    case Call(amt) => CallEffect(p, amt);
    case Check => CheckEffect(p);
    case Fold => FoldEffect(p);
    case NewStreet => NewStreetEffect(p);
    case Reset => ResetEffect(p);
    case TakeSeat(pos) => TakeSeatEffect(p, pos);
    case LeaveSeat(immediate) => LeaveSeatEffect(p, immediate);
    case SitIn(immediate) => SitInEffect(p, immediate);
    case SitOut(immediate) => SitOutEffect(p, immediate);
    case SitOutAtBlinds(setTo) => SitOutAtBlindsEffect(p, setTo);
    case ReturnChips(amt) => ReturnChipsEffect(p, amt);
    case PostDead(amt) => PostDeadEffect(p, amt);
    case UpdateStack(resetStack) => UpdateStackEffect(p, resetStack);
    case PresetCheckfold(setTo) => PresetCheckfoldEffect(p, setTo);
    case PresetCheck(setTo) => PresetCheckEffect(p, setTo);
    case PresetCall(amt) => PresetCallEffect(p, amt);
    case _ => SingleChangeEffect(p, e);
  }

  /** A player at a seat with chips and nothing on the table. */
  function SeatRow(pos: nat, state: PlayingState, stack: int): PlayerState {
    PlayerState(Some(pos), true, Some(state), false, stack, 0, 0, 0, [], None, false, false, 0, false, false, 0)
  }
}
