/** One hand from the deal to its last action: what every step keeps, and why it ends. */
module Hands {
  import opened Wrappers
  import opened Indexes
  import opened Players
  import opened Tables
  import opened Accessors
  import opened Betting
  import opened BettingSteps
  import opened Requests
  import opened OutOfTurn
  import opened Streets

  // The invariant of a dealt hand

  /** At most one preset is set, a preset call is more than the player already has in, and no rebuy is negative. */
  ghost predicate PresetsOk(p: PlayerState) {
    && 0 <= p.pendingRebuy
    && !(p.presetCheckfold && p.presetCheck)
    && (p.presetCall != 0 ==> !p.presetCheckfold && !p.presetCheck && p.presetCall > p.uncollected)
  }

  ghost predicate NoPresets(p: PlayerState) {
    !p.presetCheckfold && !p.presetCheck && p.presetCall == 0
  }

  ghost predicate AllPresetsOk(t: Table) {
    forall i :: 0 <= i < |t.players| ==> PresetsOk(t.players[i])
  }

  /** The board is that of a street, and the deck can finish it. */
  predicate BoardOk(t: Table) {
    (|t.board| == 0 || |t.board| == 3 || |t.board| == 4 || |t.board| == 5) && |t.deck| + |t.board| >= 5
  }

  ghost predicate HandInv(t: Table) {
    BettingInv(t) && TopShared(t, Carried) && AllPresetsOk(t) && BoardOk(t)
  }

  // What a hand conserves

  function ChipsOf(p: PlayerState): int {
    p.stack + p.wagers + p.dead
  }

  function Total(t: Table): int {
    Sum(t.players, ChipsOf)
  }

  ghost function Held(ps: seq<PlayerState>): multiset<Card> {
    if ps == [] then multiset{} else Held(ps[..|ps| - 1]) + multiset(ps[|ps| - 1].cards)
  }

  /** Every card that is in the deck, on the board or in somebody's hand. */
  ghost function CardsOf(t: Table): multiset<Card> {
    multiset(t.deck) + multiset(t.board) + Held(t.players)
  }

  lemma AddToBoth(a: multiset<Card>, b: multiset<Card>, c: multiset<Card>, d: multiset<Card>, e: multiset<Card>)
    requires a + b == c + d
    ensures (a + e) + b == (c + e) + d
  {
    assert (a + e) + b == (a + b) + e;
    assert (c + e) + d == (c + d) + e;
  }

  lemma {:induction false} HeldUpdate(ps: seq<PlayerState>, i: nat, p: PlayerState)
    requires i < |ps|
    ensures Held(ps[i := p]) + multiset(ps[i].cards) == Held(ps) + multiset(p.cards)
    decreases |ps|
  {
    var n := |ps| - 1;
    if i < n {
      assert ps[i := p][..n] == ps[..n][i := p] && ps[i := p][n] == ps[n] && ps[..n][i] == ps[i];
      HeldUpdate(ps[..n], i, p);
      AddToBoth(Held(ps[..n][i := p]), multiset(ps[i].cards), Held(ps[..n]), multiset(p.cards), multiset(ps[n].cards));
    } else {
      assert ps[i := p][..n] == ps[..n];
    }
  }

  lemma HeldWithout(ps: seq<PlayerState>, i: nat)
    requires i < |ps|
    ensures Held(ps) == Held(ps[i := ps[i].(cards := [])]) + multiset(ps[i].cards)
  {
    HeldUpdate(ps, i, ps[i].(cards := []));
    var none: seq<Card> := [];
    assert multiset(none) == multiset{};
  }

  lemma {:induction false} HeldSame(ps: seq<PlayerState>, qs: seq<PlayerState>)
    requires |ps| == |qs| && forall i :: 0 <= i < |ps| ==> ps[i].cards == qs[i].cards
    ensures Held(ps) == Held(qs)
    decreases |ps|
  {
    if ps != [] {
      HeldSame(ps[..|ps| - 1], qs[..|ps| - 1]);
    }
  }

  /** u is a later moment of t's hand: no new cards, and the same players in it. */
  ghost predicate Later(t: Table, u: Table) {
    && u.numSeats == t.numSeats && u.sb == t.sb && u.bb == t.bb && u.bbPos == t.bbPos && u.sbPos == t.sbPos
    && u.btnPos == t.btnPos
    && CardsOf(u) <= CardsOf(t)
    && |u.players| == |t.players|
    && forall i :: 0 <= i < |t.players| ==> u.players[i].Active() == t.players[i].Active()
  }

  /** And with the same chips in all. */
  ghost predicate SameGame(t: Table, u: Table) {
    Later(t, u) && Total(u) == Total(t)
  }

  // The measure

  function StackOf(p: PlayerState): int { p.stack }

  /** Chips of those who are in. */
  function InPlay(p: PlayerState): int { if p.Active() then ChipsOf(p) else 0 }

  function StackInPlay(p: PlayerState): int { if p.Active() then p.stack else 0 }

  function ChipsInPlay(t: Table): int {
    Sum(t.players, InPlay)
  }

  function UnactedOne(p: PlayerState): int { if p.Live() && HasNotActed(p) then 1 else 0 }

  function One(p: PlayerState): int { 1 }

  lemma {:induction false} SumOfOnes(ps: seq<PlayerState>)
    ensures Sum(ps, One) == |ps|
    decreases |ps|
  {
    if ps != [] {
      SumOfOnes(ps[..|ps| - 1]);
    }
  }

  function Ranked(streets: int, total: int, chips: int, live: int, unacted: int, n: int): int {
    ((streets * (total + 1) + chips) * n + live) * n + unacted
  }

  /** Streets left, chips in stacks of those who are in, players holding cards, players yet to act: in that order. */
  function Measure(t: Table): int {
    Ranked(5 - |t.board|, ChipsInPlay(t), Sum(t.players, StackInPlay), Sum(t.players, LiveOne),
           Sum(t.players, UnactedOne), |t.players| + 1)
  }

  lemma MeasureParts(t: Table)
    requires EveryPlayer(t)
    ensures 0 <= Sum(t.players, StackInPlay) <= ChipsInPlay(t)
    ensures 0 <= Sum(t.players, LiveOne) <= |t.players|
    ensures 0 <= Sum(t.players, UnactedOne) <= |t.players|
  {
    assert forall i :: 0 <= i < |t.players| ==> Sane(t.players[i]);
    SumNonNegative(t.players, StackInPlay);
    SumBounds(t.players, StackInPlay, InPlay);
    SumNonNegative(t.players, LiveOne);
    SumBounds(t.players, LiveOne, One);
    SumNonNegative(t.players, UnactedOne);
    SumBounds(t.players, UnactedOne, One);
    SumOfOnes(t.players);
  }

  lemma DigitsOrder(a: int, b: int, c: int, a': int, b': int, c': int, n: int)
    requires 0 <= b < n && 0 <= c < n && 0 <= b' < n && 0 <= c' < n
    requires a' < a || (a' == a && (b' < b || (b' == b && c' < c)))
    ensures (a' * n + b') * n + c' < (a * n + b) * n + c
  {
    if a' < a {
      MulMonotone(a' + 1, a, n);
      assert (a' + 1) * n == a' * n + n;
      MulMonotone(a' * n + b' + 1, a * n + b, n);
      assert (a' * n + b' + 1) * n == (a' * n + b') * n + n;
    } else if b' < b {
      MulMonotone(a' * n + b' + 1, a * n + b, n);
      assert (a' * n + b' + 1) * n == (a' * n + b') * n + n;
    }
  }

  lemma RankedNonNegative(streets: int, total: int, chips: int, live: int, unacted: int, n: nat)
    requires 0 <= streets && 0 <= total && 0 <= chips && 0 <= live && 0 <= unacted
    ensures 0 <= Ranked(streets, total, chips, live, unacted, n)
  {
    MulMonotone(0, streets, total + 1);
    MulMonotone(0, streets * (total + 1) + chips, n);
    MulMonotone(0, (streets * (total + 1) + chips) * n + live, n);
  }

  lemma MeasureNonNegative(t: Table)
    requires EveryPlayer(t) && |t.board| <= 5
    ensures 0 <= Measure(t)
  {
    MeasureParts(t);
    RankedNonNegative(5 - |t.board|, ChipsInPlay(t), Sum(t.players, StackInPlay), Sum(t.players, LiveOne),
                      Sum(t.players, UnactedOne), |t.players| + 1);
  }

  lemma FewerStreets(s: int, s': int, total: int, chips: int, chips': int)
    requires s' < s && 0 <= chips && 0 <= chips' <= total
    ensures s' * (total + 1) + chips' < s * (total + 1) + chips
  {
    MulMonotone(s' + 1, s, total + 1);
    assert (s' + 1) * (total + 1) == s' * (total + 1) + (total + 1);
  }

  lemma RankedDrops(s: int, s': int, total: int, chips: int, chips': int, live: int, live': int, unacted: int,
                    unacted': int, n: nat)
    requires 0 <= chips && 0 <= chips' <= total
    requires 0 <= live < n && 0 <= live' < n && 0 <= unacted < n && 0 <= unacted' < n
    requires
      || s' < s
      || (s' == s && (chips' < chips || (chips' == chips && (live' < live || (live' == live && unacted' < unacted)))))
    ensures Ranked(s', total, chips', live', unacted', n) < Ranked(s, total, chips, live, unacted, n)
  {
    if s' < s {
      FewerStreets(s, s', total, chips, chips');
    }
    DigitsOrder(s * (total + 1) + chips, live, unacted, s' * (total + 1) + chips', live', unacted', n);
  }

  lemma MeasureDrops(t: Table, u: Table)
    requires EveryPlayer(t) && EveryPlayer(u) && |u.players| == |t.players| && ChipsInPlay(u) == ChipsInPlay(t)
    requires
      || |u.board| > |t.board|
      || (u.board == t.board && Sum(u.players, StackInPlay) < Sum(t.players, StackInPlay))
      || (u.board == t.board && Sum(u.players, StackInPlay) == Sum(t.players, StackInPlay) &&
          (Sum(u.players, LiveOne) < Sum(t.players, LiveOne) ||
           (Sum(u.players, LiveOne) == Sum(t.players, LiveOne) &&
            Sum(u.players, UnactedOne) < Sum(t.players, UnactedOne))))
    ensures Measure(u) < Measure(t)
  {
    MeasureParts(t);
    MeasureParts(u);
    RankedDrops(5 - |t.board|, 5 - |u.board|, ChipsInPlay(t), Sum(t.players, StackInPlay), Sum(u.players, StackInPlay),
                Sum(t.players, LiveOne), Sum(u.players, LiveOne),
                Sum(t.players, UnactedOne), Sum(u.players, UnactedOne), |t.players| + 1);
  }

  // Betting actions

  lemma FewerHeld(ps: seq<PlayerState>, i: nat, q: PlayerState)
    requires i < |ps| && (q.cards == ps[i].cards || q.cards == [])
    ensures Held(ps[i := q]) <= Held(ps)
  {
    HeldUpdate(ps, i, q);
    assert multiset(q.cards) <= multiset(ps[i].cards);
    var more := Held(ps[i := q]) + multiset(ps[i].cards);
    assert forall c :: more[c] == Held(ps)[c] + multiset(q.cards)[c];
  }

  lemma ActKeepsGame(t: Table, i: nat, q: PlayerState)
    requires i < |t.players| && Acts(t, i, q)
    ensures SameGame(t, With(t, i, q))
  {
    ActKeepsChips(t, i, q);
    UpdateKeepsGame(t, i, q);
  }

  lemma UpdateKeepsGame(t: Table, i: nat, q: PlayerState)
    requires i < |t.players| && ChipsOf(q) == ChipsOf(t.players[i]) && q.Active() == t.players[i].Active()
    requires q.cards == t.players[i].cards || q.cards == []
    ensures SameGame(t, With(t, i, q))
  {
    SumUpdate(t.players, i, q, ChipsOf);
    FewerCards(t, i, q);
  }

  lemma FewerCards(t: Table, i: nat, q: PlayerState)
    requires i < |t.players| && (q.cards == t.players[i].cards || q.cards == [])
    ensures CardsOf(With(t, i, q)) <= CardsOf(t)
  {
    FewerHeld(t.players, i, q);
  }

  lemma ActKeepsChips(t: Table, i: nat, q: PlayerState)
    requires i < |t.players| && Acts(t, i, q)
    ensures ChipsOf(q) == ChipsOf(t.players[i]) && q.Active() == t.players[i].Active()
    ensures q.cards == t.players[i].cards || q.cards == []
  {
  }

  lemma ActKeepsTop(t: Table, i: nat, q: PlayerState)
    requires i < |t.players| && Acts(t, i, q) && TopShared(t, Carried)
    ensures TopShared(With(t, i, q), Carried)
  {
    var j: nat, k: nat :| TopPair(t, Carried, j, k);
    assert TopPair(With(t, i, q), Carried, j, k);
  }

  lemma LeaderIsLive(t: Table)
    requires EveryPlayer(t) && RaisersLead(t) && !NobodyRaised(t)
    ensures MaxUncollected(t.players, true) == LastRaiseSize(t)
  {
    var a := if LedBy(t, ActRaiseTo) then ActRaiseTo else ActBet;
    var l: nat :| IsLead(t, l, a);
    MaxBounds(t.players, true);
    MaxLiveAtMost(t);
  }

  /** A move that costs nothing is the player's first of the round. */
  lemma OwesAtSameStack(t: Table, i: nat, q: PlayerState)
    requires EveryPlayer(t) && RaisersLead(t) && Owes(t, i)
    requires MatchesBet(t, t.players[i], q) || TakesLead(t, t.players[i], q)
    requires q.stack == t.players[i].stack
    ensures HasNotActed(t.players[i])
  {
    if !HasNotActed(t.players[i]) {
      LeaderIsLive(t);
    }
  }

  lemma ActDropsMeasure(t: Table, i: nat, q: PlayerState)
    requires EveryPlayer(t) && RaisersLead(t) && Owes(t, i) && Acts(t, i, q)
    ensures Measure(With(t, i, q)) < Measure(t)
  {
    var p := t.players[i];
    PlayersKept(t, i, q);
    SumUpdate(t.players, i, q, InPlay);
    SumUpdate(t.players, i, q, StackInPlay);
    SumUpdate(t.players, i, q, LiveOne);
    SumUpdate(t.players, i, q, UnactedOne);
    if q.stack == p.stack && !Folds(p, q) {
      OwesAtSameStack(t, i, q);
    }
    MeasureDrops(t, With(t, i, q));
  }

  // Accepted requests

  lemma SameHandsKeepMeasure(t: Table, u: Table)
    requires SameHands(t, u)
    ensures Measure(u) == Measure(t)
  {
    assert forall i :: 0 <= i < |t.players| ==> t.players[i].Live() == u.players[i].Live();
    SumSame(t.players, u.players, InPlay);
    SumSame(t.players, u.players, StackInPlay);
    SumSame(t.players, u.players, LiveOne);
    SumSame(t.players, u.players, UnactedOne);
  }

  lemma SameHandsKeepGame(t: Table, u: Table)
    requires SameHands(t, u)
    ensures Later(t, u) && (SameStacks(t, u) ==> SameGame(t, u))
  {
    HeldSame(t.players, u.players);
    if SameStacks(t, u) {
      SumSame(t.players, u.players, ChipsOf);
    }
  }

  lemma SameHandsKeepTop(t: Table, u: Table)
    requires SameHands(t, u) && TopShared(t, Carried)
    ensures TopShared(u, Carried)
  {
    var i: nat, j: nat :| TopPair(t, Carried, i, j);
    assert TopPair(u, Carried, i, j);
  }

  lemma SameHandsKeepHand(t: Table, u: Table)
    requires HandInv(t) && SameHands(t, u) && Seating(u) && AllPresetsOk(u)
    ensures HandInv(u)
  {
    SameHandsKeepInvariant(t, u);
    SameHandsKeepTop(t, u);
  }

  lemma SeatKeepsPresets(p: PlayerState, e: PlayerEvent)
    requires PresetsOk(p) && (e.TakeSeat? || e.LeaveSeat? || e.SitInAtBlinds? || e.SitOutAtBlinds?)
    requires Effect(p, e).Success?
    ensures PresetsOk(Effect(p, e).value)
  {
    match e
    case TakeSeat(_) =>
    case LeaveSeat(_) =>
    case SitInAtBlinds(_) =>
    case SitOutAtBlinds(_) =>
  }

  lemma SitInKeepsPresets(p: PlayerState, immediate: bool)
    requires PresetsOk(p) && Effect(p, SitIn(immediate)).Success?
    ensures PresetsOk(Effect(p, SitIn(immediate)).value)
  {
  }

  lemma SitOutKeepsPresets(p: PlayerState, immediate: bool)
    requires PresetsOk(p) && Effect(p, SitOut(immediate)).Success?
    ensures PresetsOk(Effect(p, SitOut(immediate)).value)
  {
  }

  lemma OtherKeepsPresets(t: Table, i: nat, req: Request)
    requires i < |t.players| && PresetsOk(t.players[i]) && !req.Betting()
    requires req.ReqPresetCall? && req.setToAmt != 0 ==> req.setToAmt > t.players[i].uncollected
    requires req.ReqBuy? ==> 0 <= req.amt
    requires Effect(t.players[i], OtherEvent(t, i, req)).Success?
    ensures PresetsOk(Effect(t.players[i], OtherEvent(t, i, req)).value)
  {
    var e := OtherEvent(t, i, req);
    if e.TakeSeat? || e.LeaveSeat? || e.SitInAtBlinds? || e.SitOutAtBlinds? {
      SeatKeepsPresets(t.players[i], e);
    } else if e.SitIn? {
      SitInKeepsPresets(t.players[i], e.immediate);
    } else if e.SitOut? {
      SitOutKeepsPresets(t.players[i], e.immediate);
    }
  }

  /** Calling in advance is no sitting toggle and no move on turn. */
  lemma PresetCallIsPreset(t: Table, i: nat)
    requires t.numSeats > 0 && i < |t.players|
    ensures !IsSittingToggle(t, t.players[i], KPresetCall) && !IsTurnAction(t, i, KPresetCall)
  {
  }

  lemma PresetCallOffered(t: Table, i: nat)
    requires t.numSeats > 0 && i < |t.players| && IsAvailable(t, i, KPresetCall)
    ensures CallDiff(t, t.players[i]) > 0
  {
    PresetCallIsPreset(t, i);
  }

  lemma PresetCallAbove(t: Table, i: nat, req: Request)
    requires t.numSeats > 0 && i < |t.players| && req.ReqPresetCall?
    requires IsAvailable(t, i, KPresetCall) && EventsFor(t, i, req).Success?
    ensures req.setToAmt != 0 ==> req.setToAmt > t.players[i].uncollected
  {
    PresetCallOffered(t, i);
  }

  lemma {:induction false} OtherKeepsAllPresets(t: Table, i: nat, req: Request)
    requires t.numSeats > 0 && i < |t.players| && AllPresetsOk(t) && !req.Betting()
    requires IsAvailable(t, i, req.Kind()) && EventsFor(t, i, req).Success?
    requires FireAll(t, EventsFor(t, i, req).value).Success?
    ensures AllPresetsOk(FireAll(t, EventsFor(t, i, req).value).value)
  {
    EventsAreOther(t, i, req);
    if req.ReqPresetCall? {
      PresetCallAbove(t, i, req);
    }
    if EventsFor(t, i, req).value != [] {
      FirePlayer(t, i, OtherEvent(t, i, req));
      OtherKeepsPresets(t, i, req);
    }
  }

  /** Out of turn: nothing is raised, and unless a seat is taken twice the hand and the turn are as they were. */
  lemma {:induction false} OtherKeepsHand(t: Table, i: nat, req: Request)
    requires HandInv(t) && i < |t.players| && !req.Betting()
    requires IsAvailable(t, i, req.Kind()) && EventsFor(t, i, req).Success?
    ensures FireAll(t, EventsFor(t, i, req).value).Success?
    ensures
      var u := FireAll(t, EventsFor(t, i, req).value).value;
      && (HandInv(u) <==> NamesFreeSeat(t, i, req)) && SameGame(t, u) && Measure(u) == Measure(t)
      && (HandInv(u) ==> NextToAct(u) == NextToAct(t))
  {
    EveryoneOutIsIdle(t);
    OtherRequest(t, i, req);
    var u := FireAll(t, EventsFor(t, i, req).value).value;
    OtherKeepsAllPresets(t, i, req);
    SameHandsKeepGame(t, u);
    SameHandsKeepMeasure(t, u);
    if NamesFreeSeat(t, i, req) {
      SameHandsKeepHand(t, u);
      SameTurn(t, u);
    }
  }

  lemma MoveClearsPresets(t: Table, i: nat, req: Request)
    requires i < |t.players| && PresetsOk(t.players[i]) && req.Betting()
    requires Effect(t.players[i], BettingEvent(t, i, req)).Success?
    ensures PresetsOk(Effect(t.players[i], BettingEvent(t, i, req)).value)
  {
  }

  lemma WithKeepsPresets(t: Table, i: nat, q: PlayerState)
    requires i < |t.players| && AllPresetsOk(t) && PresetsOk(q)
    ensures AllPresetsOk(With(t, i, q))
  {
  }

  lemma MoveKeepsInvariant(t: Table, i: nat, q: PlayerState)
    requires HandInv(t) && i < |t.players| && NextToAct(t) == Some(i) && Acts(t, i, q) && PresetsOk(q)
    ensures HandInv(With(t, i, q))
  {
    assert BettingInv(With(t, i, q)) by { ActionKeepsInvariant(t, i, q); }
    assert TopShared(With(t, i, q), Carried) by { ActKeepsTop(t, i, q); }
    assert AllPresetsOk(With(t, i, q)) by { WithKeepsPresets(t, i, q); }
  }

  lemma MoveDropsMeasure(t: Table, i: nat, q: PlayerState)
    requires Seating(t) && EveryPlayer(t) && RaisersLead(t) && i < |t.players| && NextToAct(t) == Some(i)
    requires Acts(t, i, q)
    ensures SameGame(t, With(t, i, q)) && Measure(With(t, i, q)) < Measure(t)
    ensures q.Active()
  {
    NextOwes(t, i);
    ActKeepsGame(t, i, q);
    ActDropsMeasure(t, i, q);
  }

  /** The hand goes on, with the same chips and cards and less left to do. */
  ghost predicate Onward(t: Table, u: Table) {
    HandInv(u) && SameGame(t, u) && Measure(u) < Measure(t)
  }

  lemma MoveKeepsHand(t: Table, i: nat, req: Request) returns (v: Table)
    requires HandInv(t) && i < |t.players| && req.Betting()
    requires IsAvailable(t, i, req.Kind()) && EventsFor(t, i, req).Success?
    ensures FireAll(t, [OnPlayer(i, BettingEvent(t, i, req))]) == Success(v) && Onward(t, v)
    ensures i < |v.players| && v.players[i].Active()
  {
    RequestActs(t, i, req);
    var q := Effect(t.players[i], BettingEvent(t, i, req)).value;
    v := With(t, i, q);
    FirePlayer(t, i, BettingEvent(t, i, req));
    assert PresetsOk(q) by { MoveClearsPresets(t, i, req); }
    MoveKeepsInvariant(t, i, q);
    MoveDropsMeasure(t, i, q);
  }

  lemma {:induction false} SitOutAfterFold(t: Table, i: nat)
    requires HandInv(t) && i < |t.players| && t.players[i].Active()
    ensures FireAll(t, [OnPlayer(i, SitOut(false))]).Success?
    ensures
      var u := FireAll(t, [OnPlayer(i, SitOut(false))]).value;
      HandInv(u) && SameGame(t, u) && Measure(u) == Measure(t)
  {
    FirePlayer(t, i, SitOut(false));
    var q := SitOutSameHand(t.players[i]);
    WithSameHands(t, i, q);
    SameHandsKeepGame(t, With(t, i, q));
    SameHandsKeepMeasure(t, With(t, i, q));
    assert HandInv(With(t, i, q)) by {
      SeatKeptKeepsSeating(t, i, q);
      SameHandsKeepHand(t, With(t, i, q));
    }
  }

  lemma SitOutSameHand(p: PlayerState) returns (q: PlayerState)
    requires p.Active() && p.playing.Some?
    ensures Effect(p, SitOut(false)) == Success(q) && SameHand(p, q) && SeatKept(p, q) && q.stack == p.stack
    ensures PresetsOk(p) ==> PresetsOk(q)
  {
    ActiveStates(p);
    q := Effect(p, SitOut(false)).value;
  }

  lemma BettingEventsAre(t: Table, i: nat, req: Request)
    requires t.numSeats > 0 && i < |t.players| && req.Betting() && EventsFor(t, i, req).Success?
    ensures EventsFor(t, i, req).value == [OnPlayer(i, BettingEvent(t, i, req))] +
      if req.ReqFold? && req.sitOut then [OnPlayer(i, SitOut(false))] else []
  {
  }

  lemma LaterTransitive(t: Table, u: Table, v: Table)
    requires Later(t, u) && Later(u, v)
    ensures Later(t, v)
  {
  }

  lemma SameGameTransitive(t: Table, u: Table, v: Table)
    requires SameGame(t, u) && SameGame(u, v)
    ensures SameGame(t, v)
  {
  }

  lemma ThenSitOut(t: Table, v: Table, i: nat, e: PlayerEvent) returns (u: Table)
    requires FireAll(t, [OnPlayer(i, e)]) == Success(v) && Onward(t, v)
    requires i < |v.players| && v.players[i].Active()
    ensures FireAll(t, [OnPlayer(i, e)] + [OnPlayer(i, SitOut(false))]) == Success(u) && Onward(t, u)
  {
    FireAppend(t, [OnPlayer(i, e)], [OnPlayer(i, SitOut(false))]);
    SitOutAfterFold(v, i);
    u := FireAll(v, [OnPlayer(i, SitOut(false))]).value;
    SameGameTransitive(t, v, u);
  }

  /** On turn: nothing is raised, the invariant holds again and the measure drops. */
  lemma BettingKeepsHand(t: Table, i: nat, req: Request, events: seq<Event>) returns (u: Table)
    requires HandInv(t) && i < |t.players| && req.Betting()
    requires IsAvailable(t, i, req.Kind()) && EventsFor(t, i, req) == Success(events)
    ensures FireAll(t, events) == Success(u) && Onward(t, u)
  {
    var e := BettingEvent(t, i, req);
    u := MoveKeepsHand(t, i, req);
    BettingEventsAre(t, i, req);
    if req.ReqFold? && req.sitOut {
      u := ThenSitOut(t, u, i, e);
    } else {
      assert [OnPlayer(i, e)] + [] == [OnPlayer(i, e)];
    }
  }

  // The next street

  /** What the refund leaves alone. */
  lemma ReturnedIs(t: Table, r: Table, k: nat)
    requires Returned(t, r) && k < |t.players|
    ensures k < |r.players|
    ensures var p, q := t.players[k], r.players[k];
      && q == p.(stack := q.stack, wagers := q.wagers, uncollected := q.uncollected)
      && q.stack + q.wagers == p.stack + p.wagers && Carried(q) == Carried(p)
  {
  }

  lemma TurnedSeats(t: Table, r: Table, u: Table)
    requires Seating(t) && Turned(t, r, u)
    ensures Seating(u) && SameSeats(t, u) && Sum(u.players, ActiveOne) == Sum(t.players, ActiveOne)
    ensures forall b :: IsBb(u, b) <==> IsBb(t, b)
    ensures SomebodyLive(t) ==> SomebodyLive(u)
  {
    TurnedStay(t, r, u);
    StayersSeats(t, u);
    SumSame(t.players, u.players, ActiveOne);
    if SomebodyLive(t) {
      var i :| 0 <= i < |t.players| && t.players[i].Live();
      assert StaysPut(t.players[i], u.players[i]);
    }
  }

  ghost predicate StaysPut(p: PlayerState, q: PlayerState) {
    q.position == p.position && q.seated == p.seated && q.playing == p.playing && q.cards == p.cards
  }

  ghost predicate AllStayPut(t: Table, u: Table) {
    && u == t.(players := u.players) && |u.players| == |t.players|
    && forall k: nat :: k < |t.players| ==> StaysPut(t.players[k], u.players[k])
  }

  lemma TurnedStay(t: Table, r: Table, u: Table)
    requires Turned(t, r, u)
    ensures AllStayPut(t, u)
  {
    forall k: nat | k < |t.players| ensures StaysPut(t.players[k], u.players[k]) {
      ReturnedIs(t, r, k);
      assert Collected(r.players[k], u.players[k]);
    }
  }

  lemma StayersSeats(t: Table, u: Table)
    requires Seating(t) && AllStayPut(t, u)
    ensures Seating(u) && SameSeats(t, u)
    ensures forall b :: IsBb(u, b) <==> IsBb(t, b)
  {
    assert forall k: nat :: k < |t.players| ==> StaysPut(t.players[k], u.players[k]);
  }

  lemma TurnedPlayers(t: Table, r: Table, u: Table)
    requires Turned(t, r, u)
    ensures EveryPlayer(u)
  {
    forall k: nat | k < |u.players| ensures Sane(u.players[k]) && DealtOrFolded(u.players[k]) {
      assert Collected(r.players[k], u.players[k]);
      assert Sane(r.players[k]) && DealtOrFolded(r.players[k]);
    }
  }

  /** With the bets closed, nobody live has more in than somebody live with chips. */
  lemma ClosedLevels(t: Table, r: Table, i: nat, j: nat)
    requires EveryPlayer(t) && Leveled(t) && Closed(t) && Returned(t, r)
    requires i < |t.players| && j < |t.players| && t.players[i].Live() && t.players[j].Live()
    requires |r.players| == |t.players| && r.players[j].stack > 0
    ensures r.players[i].wagers <= r.players[j].wagers
  {
    MaxBounds(t.players, true);
    LargestBounds(t.players, j);
    if r != t {
      var m: nat :| SoleHolder(t, m) && r == With(t, m, Refunded(t, m));
      if m == i {
        LargestBounds(t.players, i);
      }
    }
  }

  lemma TurnedLevels(t: Table, r: Table, u: Table)
    requires EveryPlayer(t) && Leveled(t) && Closed(t) && Turned(t, r, u)
    ensures Leveled(u)
  {
    forall i: nat, j: nat | i < |u.players| && j < |u.players| && u.players[i].Live() && Contender(u.players[j])
      ensures Carried(u.players[i]) <= Carried(u.players[j])
    {
      ReturnedIs(t, r, i);
      ReturnedIs(t, r, j);
      assert Collected(r.players[i], u.players[i]) && Collected(r.players[j], u.players[j]);
      ClosedLevels(t, r, i, j);
    }
  }

  lemma NothingElseLeft(p: PlayerState)
    requires !ActedThisStreet(p) && p.last != Some(ActFold) && p.last != Some(ActSitIn)
    ensures HasNotActed(p)
  {
    if p.last.Some? {
      match p.last.value
      case ActPost =>
      case ActBet =>
      case ActRaiseTo =>
      case ActCall =>
      case ActCheck =>
      case ActFold =>
      case ActSitIn =>
    }
  }

  lemma TurnedQuiet(t: Table, r: Table, u: Table)
    requires Turned(t, r, u)
    ensures NobodyRaised(u) && RaisersLead(u) && Matched(u) && LastRaiseSize(u) == 0
  {
    forall k: nat | k < |u.players| && u.players[k].Active()
      ensures u.players[k].uncollected == 0 && !ActedThisStreet(u.players[k])
    {
      assert Collected(r.players[k], u.players[k]);
    }
    MaxIs(u.players, false, 0);
    TurnedPlayers(t, r, u);
    forall k: nat | k < |u.players| && u.players[k].Live() ensures HasNotActed(u.players[k]) {
      assert DealtOrFolded(u.players[k]);
      NothingElseLeft(u.players[k]);
    }
  }

  lemma TurnedTop(t: Table, r: Table, u: Table)
    requires Turned(t, r, u)
    ensures TopShared(u, Carried)
  {
    var i: nat, j: nat :| TopPair(r, WagersOf, i, j);
    assert forall k :: 0 <= k < |u.players| ==> Collected(r.players[k], u.players[k]);
    assert TopPair(u, Carried, i, j);
  }

  lemma TurnedPresets(t: Table, r: Table, u: Table)
    requires EveryPlayer(t) && AllPresetsOk(t) && Turned(t, r, u)
    ensures AllPresetsOk(u)
  {
    forall k: nat | k < |u.players| ensures PresetsOk(u.players[k]) {
      ReturnedIs(t, r, k);
      assert Collected(r.players[k], u.players[k]);
      assert PresetsOk(t.players[k]) && Sane(t.players[k]);
    }
  }

  lemma TurnedGame(t: Table, r: Table, u: Table)
    requires Turned(t, r, u)
    ensures Total(u) == Total(t) && ChipsInPlay(u) == ChipsInPlay(t) && Held(u.players) == Held(t.players)
  {
    forall k: nat | k < |u.players|
      ensures ChipsOf(t.players[k]) == ChipsOf(u.players[k]) && t.players[k].cards == u.players[k].cards
      ensures InPlay(t.players[k]) == InPlay(u.players[k])
    {
      ReturnedIs(t, r, k);
      assert Collected(r.players[k], u.players[k]);
    }
    SumSame(t.players, u.players, ChipsOf);
    SumSame(t.players, u.players, InPlay);
    HeldSame(t.players, u.players);
  }

  lemma TurnKeepsPlaces(t: Table, r: Table, v: Table, u: Table)
    requires Seating(t) && HasBb(t) && SomebodyLive(t) && Turned(t, r, v)
    requires u == v.(board := u.board, deck := u.deck)
    ensures Seating(u) && HasBb(u) && SomebodyLive(u) && Sum(u.players, ActiveOne) == Sum(t.players, ActiveOne)
  {
    TurnedSeats(t, r, v);
    SameButCards(v, u);
    var b: nat :| IsBb(t, b);
    assert IsBb(u, b);
    var i :| 0 <= i < |v.players| && v.players[i].Live();
    assert u.players[i].Live();
  }

  lemma TurnKeepsBets(t: Table, r: Table, v: Table, u: Table)
    requires EveryPlayer(t) && Leveled(t) && Closed(t) && Turned(t, r, v)
    requires u == v.(board := u.board, deck := u.deck)
    ensures EveryPlayer(u) && Leveled(u) && RaisersLead(u) && Matched(u) && LastRaiseSize(u) == 0
  {
    TurnedPlayers(t, r, v);
    TurnedLevels(t, r, v);
    TurnedQuiet(t, r, v);
    SameButCards(v, u);
  }

  lemma TurnKeepsInvariant(t: Table, r: Table, v: Table, u: Table)
    requires BettingInv(t) && Closed(t) && Turned(t, r, v)
    requires u == v.(board := u.board, deck := u.deck) && u.board != []
    ensures BettingInv(u)
  {
    TurnKeepsPlaces(t, r, v, u);
    TurnKeepsBets(t, r, v, u);
  }

  /** Most of the invariant does not look at the deck and the board. */
  lemma SameButCards(v: Table, u: Table)
    requires u == v.(board := u.board, deck := u.deck)
    ensures Seating(v) ==> Seating(u)
    ensures EveryPlayer(v) ==> EveryPlayer(u)
    ensures Leveled(v) ==> Leveled(u)
    ensures NobodyRaised(v) ==> NobodyRaised(u) && (RaisersLead(v) ==> RaisersLead(u))
    ensures Matched(v) ==> Matched(u)
    ensures TopShared(v, Carried) ==> TopShared(u, Carried)
    ensures AllPresetsOk(v) ==> AllPresetsOk(u)
  {
    if TopShared(v, Carried) {
      var i: nat, j: nat :| TopPair(v, Carried, i, j);
      assert TopPair(u, Carried, i, j);
    }
  }

  lemma CardsMoved(t: Table, u: Table, n: nat)
    requires n <= |t.deck| && u.deck == t.deck[n..] && u.board == t.board + t.deck[..n]
    requires Held(u.players) == Held(t.players)
    ensures CardsOf(u) == CardsOf(t)
  {
    assert t.deck == t.deck[..n] + t.deck[n..];
  }

  /** The cards for the next street. */
  function StreetCards(t: Table): nat {
    if |t.board| == 0 then 3 else 1
  }

  predicate HandOver(t: Table)
    requires t.numSeats > 0
  {
    |ActingOrder(t)| == 1 || |t.board| == 5
  }

  lemma SomebodyInOrder(t: Table)
    requires Seating(t) && SomebodyLive(t)
    ensures |ActingOrder(t)| >= 1
  {
    ActingOrderComplete(t);
    var i: nat :| i < |t.players| && t.players[i].Live();
    assert i in ActingOrder(t);
  }

  lemma TurnKeepsHand(t: Table, r: Table, v: Table, u: Table)
    requires HandInv(t) && Closed(t) && Turned(t, r, v)
    requires u == v.(board := u.board, deck := u.deck) && u.board != [] && BoardOk(u)
    ensures HandInv(u)
  {
    TurnKeepsInvariant(t, r, v, u);
    TurnedTop(t, r, v);
    TurnedPresets(t, r, v);
    SameButCards(v, u);
  }

  lemma TurnKeepsGame(t: Table, r: Table, v: Table, u: Table, n: nat)
    requires Seating(t) && Turned(t, r, v) && n <= |t.deck|
    requires u == v.(board := t.board + t.deck[..n], deck := t.deck[n..])
    ensures SameGame(t, u) && CardsOf(u) == CardsOf(t) && ChipsInPlay(u) == ChipsInPlay(t)
  {
    TurnedGame(t, r, v);
    CardsMoved(t, u, n);
    TurnedSeats(t, r, v);
  }

  /** Dealing the next street keeps the invariant, the chips and the cards. */
  lemma StreetKeepsHand(t: Table) returns (u: Table)
    requires HandInv(t) && NextToAct(t) == None && !HandOver(t)
    ensures DealStreet(t, StreetCards(t)) == Success(u)
    ensures HandInv(u) && SameGame(t, u) && CardsOf(u) == CardsOf(t) && |u.board| > |t.board|
    ensures Measure(u) < Measure(t)
  {
    SomebodyInOrder(t);
    NoneOwedIsClosed(t);
    var n := StreetCards(t);
    var r: Table;
    r, u := StreetDealt(t, n);
    var v := u.(board := t.board, deck := t.deck);
    TurnKeepsHand(t, r, v, u);
    TurnKeepsGame(t, r, v, u, n);
    MeasureDrops(t, u);
  }
}
