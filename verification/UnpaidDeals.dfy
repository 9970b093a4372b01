/** Requests one after the other, and two posters who fold to a hand that finds no winner. */
module UnpaidDeals {
  import opened Wrappers
  import opened Indexes
  import opened Players
  import opened Tables
  import opened Accessors
  import opened Betting
  import opened BettingSteps
  import opened Requests
  import opened OutOfTurn
  import opened Streets
  import opened Hands
  import opened Play
  import opened Pots
  import opened Showdown
  import opened Settlement
  import opened Cards
  import opened Deals
  import opened Openings
  import opened BlindCover
  import opened Places
  import opened Unpaid
  import opened WholeHands

  // One request after the other

  lemma FirstBehindBb(t: Table, i: nat, j: nat)
    requires i < |t.players| && t.players[i].Live() && UnactedAt(t)(i)
    requires j < |t.players| && t.players[j].Live() && UnactedAt(t)(j) && ActsAt(t, j) <= ActsAt(t, i)
    requires forall k: nat :: k < |t.players| && k != i && t.players[k].Live() && UnactedAt(t)(k) ==>
      ActsAt(t, i) < ActsAt(t, k)
    ensures j == i
  {
  }

  /** Whoever has not acted and sits first behind the big blind is next. */
  lemma NextIs(t: Table, i: nat, x: nat)
    requires HandInv(t) && t.board == [] && LastRaiseSize(t) > 0
    requires i < |t.players| && t.players[i].Live() && UnactedAt(t)(i)
    requires x < |t.players| && t.players[x].Live() && x != i
    requires forall k: nat :: k < |t.players| && k != i && t.players[k].Live() && UnactedAt(t)(k) ==>
      ActsAt(t, i) < ActsAt(t, k)
    ensures NextToAct(t) == Some(i)
  {
    ActingOrderComplete(t);
    NotPredeal(t);
    SomebodyUnacted(t, ActingOrder(t), i, x);
    var j := NextToAct(t).value;
    NextComesFirst(t, j, i);
    FirstBehindBb(t, i, j);
  }

  lemma FoldsNext(t: Table, i: nat) returns (u: Table)
    requires Seating(t) && NextToAct(t) == Some(i) && i < |t.players| && t.players[i].Active()
    ensures Dispatch(t, i, ReqFold(false)) == Success(u)
    ensures u == With(t, i, Unpreset(t.players[i].(last := Some(ActFold), cards := [])))
  {
    MayFold(t, i);
    u := TurnFires(t, i, ReqFold(false), Unpreset(t.players[i].(last := Some(ActFold), cards := [])));
  }

  lemma MayFold(t: Table, i: nat)
    requires t.numSeats > 0 && i < |t.players|
    ensures IsTurnAction(t, i, KFold) && EventsFor(t, i, ReqFold(false)).Success?
    ensures
      Effect(t.players[i], BettingEvent(t, i, ReqFold(false)))
        == Success(Unpreset(t.players[i].(last := Some(ActFold), cards := [])))
  {
  }

  lemma MayCheck(t: Table, i: nat)
    requires t.numSeats > 0 && i < |t.players| && LastRaiseSize(t) <= t.players[i].uncollected
    ensures IsTurnAction(t, i, KCheck) && EventsFor(t, i, ReqCheck).Success?
    ensures
      Effect(t.players[i], BettingEvent(t, i, ReqCheck)) == Success(Unpreset(t.players[i].(last := Some(ActCheck))))
  {
  }

  lemma ChecksNext(t: Table, i: nat) returns (u: Table)
    requires Seating(t) && NextToAct(t) == Some(i) && i < |t.players| && t.players[i].Active()
    requires LastRaiseSize(t) <= t.players[i].uncollected
    ensures Dispatch(t, i, ReqCheck) == Success(u)
    ensures u == With(t, i, Unpreset(t.players[i].(last := Some(ActCheck))))
  {
    MayCheck(t, i);
    u := TurnFires(t, i, ReqCheck, Unpreset(t.players[i].(last := Some(ActCheck))));
  }

  /** A player who called with everything. */
  function CalledAllIn(p: PlayerState): PlayerState {
    Unpreset(p.(stack := 0, wagers := p.wagers + p.stack, uncollected := p.StackAvailable(), last := Some(ActCall)))
  }

  lemma AllInCall(p: PlayerState)
    requires 0 < p.stack
    ensures Effect(p, Call(p.StackAvailable())) == Success(CalledAllIn(p))
  {
  }

  lemma CallsAllIn(t: Table, i: nat, x: nat) returns (u: Table)
    requires Seating(t) && NextToAct(t) == Some(i) && i < |t.players| && t.players[i].Active() && 0 < t.players[i].stack
    requires x < |t.players| && t.players[x].Live() && t.players[x].uncollected >= t.players[i].StackAvailable()
    ensures Dispatch(t, i, ReqCall) == Success(u) && u == With(t, i, CalledAllIn(t.players[i]))
  {
    CallTakesAll(t, i, x);
    AllInCall(t.players[i]);
    u := TurnFires(t, i, ReqCall, CalledAllIn(t.players[i]));
  }

  lemma CallTakesAll(t: Table, i: nat, x: nat)
    requires i < |t.players| && 0 < t.players[i].stack && t.numSeats > 0
    requires x < |t.players| && t.players[x].Live() && t.players[x].uncollected >= t.players[i].StackAvailable()
    ensures CallAmt(t, t.players[i]) == t.players[i].StackAvailable() && IsTurnAction(t, i, KCall)
  {
    MaxBounds(t.players, true);
    MaxLiveAtMost(t);
  }

  /** One accepted input of a run. */
  lemma {:induction false} RunOn(t: Table, i: nat, req: Request, rest: seq<Input>, u: Table)
    requires HandInv(t) && Dispatch(t, i, req) == Success(u) && HandInv(u)
    ensures Run(t, [Input(i, req)] + rest) == Run(Last(u), rest)
  {
    assert ([Input(i, req)] + rest)[1..] == rest;
    RunNext(t, [Input(i, req)] + rest, u);
  }

  lemma Waits(t: Table, i: nat)
    requires HandInv(t) && NextToAct(t) == Some(i) && i < |t.players| && t.players[i].playing == Some(SittingIn)
    requires !t.players[i].presetCheckfold && !t.players[i].presetCheck && t.players[i].presetCall == 0
    ensures Last(t) == t
  {
    NoPresetAction(t, i);
    StepWaits(t, i);
  }

  lemma NoPresetAction(t: Table, i: nat)
    requires t.numSeats > 0 && i < |t.players| && t.players[i].playing == Some(SittingIn)
    requires !t.players[i].presetCheckfold && !t.players[i].presetCheck && t.players[i].presetCall == 0
    ensures PresetAction(t, i).None?
  {
  }

  // Rows of a dealt table

  /** In the hand with these chips, this bet and this last action. */
  ghost predicate Row(p: PlayerState, pos: nat, stack: int, bet: int, last: Option<LastAction>) {
    && p.Live() && p.position == Some(pos) && p.playing == Some(SittingIn)
    && p.stack == stack && p.uncollected == bet && p.wagers == bet && p.last == last
    && !p.presetCheckfold && !p.presetCheck && p.presetCall == 0
  }

  lemma DealtRow(t: Table, u: Table, i: nat)
    requires i < |t.players| && i < |u.players| && t.players[i].Active() && t.players[i].playing == Some(SittingIn)
    requires t.players[i].position.Some? && SamePost(t, u, i) && FreshlyDealt(t.players[i], u.players[i])
    ensures
      var p := PostedAt(t, i);
      Row(u.players[i], t.players[i].position.value, p.stack, p.uncollected, p.last)
    ensures u.players[i].dead == ChipsOf(t.players[i]) - u.players[i].stack - u.players[i].wagers
  {
  }

  lemma SomethingBet(t: Table, x: nat)
    requires x < |t.players| && t.players[x].Active() && t.players[x].uncollected > 0
    ensures LastRaiseSize(t) > 0
  {
    MaxBounds(t.players, false);
  }

  // Two posters fold behind shorter all-ins

  /** The small blind and seat 3 have 4 chips each; seat 2 owes a big blind. */
  function ShortCallers(): Table {
    Table(4, 5, 10, 100, 1000, Some(3), Some(0), Some(1), FullDeck(), [],
          [Place(0, 4, false), Place(1, 100, false), Place(2, 100, true), Place(3, 4, false)])
  }

  lemma CallersHolders(t: Table)
    requires t == ShortCallers()
    ensures SeatHolder(t, t.bbPos) == Some(1) && SeatHolder(t, t.sbPos) == Some(0)
  {
    assert FindAt(t.players, 1, true, 1) == Some(1);
  }

  lemma CallersReady()
    ensures Ready(ShortCallers()) && BlindsCovered(ShortCallers())
  {
    var t := ShortCallers();
    WholeDeck();
    PlaceIsSettled(0, 4, false, 4);
    PlaceIsSettled(1, 100, false, 4);
    PlaceIsSettled(2, 100, true, 4);
    PlaceIsSettled(3, 4, false, 4);
    SettledIsReady(t, 1);
    FullBlindCovers(t, 1);
  }

  /** What a player posts who owes at most a big blind. */
  lemma PlacePosts(t: Table, i: nat, pos: nat, stack: int, owesBb: bool, live: int)
    requires i < |t.players| && t.players[i] == Place(pos, stack, owesBb) && !(owesBb && HoldsSb(t, i))
    requires live == if HoldsBb(t, i) || owesBb then Min(stack, t.bb) else if HoldsSb(t, i) then Min(stack, t.sb) else 0
    ensures PostedAt(t, i).stack == stack - live && PostedAt(t, i).uncollected == live
    ensures PostedAt(t, i).last == if HoldsBb(t, i) || owesBb || HoldsSb(t, i) then Some(ActPost) else None
  {
  }

  /** What a dealt player starts with. */
  ghost predicate Posts(t: Table, i: nat, stack: int, live: int, last: Option<LastAction>)
    requires i < |t.players|
  {
    PostedAt(t, i).stack == stack && PostedAt(t, i).uncollected == live && PostedAt(t, i).last == last
  }

  lemma CallerPosts(t: Table, i: nat)
    requires t == ShortCallers() && i < 4
    ensures i == 0 ==> Posts(t, i, 0, 4, Some(ActPost))
    ensures i == 1 || i == 2 ==> Posts(t, i, 90, 10, Some(ActPost))
    ensures i == 3 ==> Posts(t, i, 4, 0, None)
  {
    CallersHolders(t);
    var stack := if i == 0 || i == 3 then 4 else 100;
    PlacePosts(t, i, i, stack, i == 2, if i == 0 then 4 else if i == 3 then 0 else 10);
  }

  ghost predicate FourSeats(t: Table) {
    t.numSeats == 4 && t.bbPos == Some(1) && t.board == [] && |t.players| == 4
  }

  ghost predicate CallersDealt(t: Table) {
    && FourSeats(t) && Row(t.players[0], 0, 0, 4, Some(ActPost)) && Row(t.players[1], 1, 90, 10, Some(ActPost))
    && Row(t.players[2], 2, 90, 10, Some(ActPost)) && Row(t.players[3], 3, 4, 0, None)
  }

  lemma DealCallers() returns (u: Table)
    ensures Ready(ShortCallers()) && BlindsCovered(ShortCallers()) && PostAndDeal(ShortCallers()) == Success(u)
    ensures HandInv(u) && CallersDealt(u)
  {
    var t := ShortCallers();
    CallersReady();
    DealStartsHand(t);
    u := DealIsFresh(t);
    DealtPosts(t, u);
    CallersRows(t, u);
  }

  lemma RowFrom(t: Table, u: Table, i: nat, pos: nat, stack: int, live: int, last: Option<LastAction>)
    requires SamePosts(t, u) && AllFresh(t, u) && i < |t.players| && Posts(t, i, stack, live, last)
    requires t.players[i].Active() && t.players[i].playing == Some(SittingIn) && t.players[i].position == Some(pos)
    ensures Row(u.players[i], pos, stack, live, last)
  {
    assert SamePost(t, u, i) && FreshlyDealt(t.players[i], u.players[i]);
    DealtRow(t, u, i);
  }

  lemma CallersRows(t: Table, u: Table)
    requires t == ShortCallers() && SamePosts(t, u) && AllFresh(t, u) && u == t.(players := u.players, deck := u.deck)
    ensures CallersDealt(u)
  {
    assert Row(u.players[0], 0, 0, 4, Some(ActPost)) by {
      CallerPosts(t, 0);
      RowFrom(t, u, 0, 0, 0, 4, Some(ActPost));
    }
    assert Row(u.players[1], 1, 90, 10, Some(ActPost)) by {
      CallerPosts(t, 1);
      RowFrom(t, u, 1, 1, 90, 10, Some(ActPost));
    }
    assert Row(u.players[2], 2, 90, 10, Some(ActPost)) by {
      CallerPosts(t, 2);
      RowFrom(t, u, 2, 2, 90, 10, Some(ActPost));
    }
    assert Row(u.players[3], 3, 4, 0, None) by {
      CallerPosts(t, 3);
      RowFrom(t, u, 3, 3, 4, 0, None);
    }
  }

  /** Seat 2 folds its post. */
  lemma PosterFolds(t: Table) returns (u: Table)
    requires HandInv(t) && CallersDealt(t)
    ensures NextToAct(t) == Some(2) && Dispatch(t, 2, ReqFold(false)) == Success(u)
    ensures FourSeats(u) && u.players == t.players[2 := u.players[2]]
    ensures !u.players[2].Live() && u.players[2].Active() && u.players[2].wagers == 10
  {
    SomethingBet(t, 1);
    NextIs(t, 2, 1);
    u := FoldsNext(t, 2);
  }

  /** Seat 3 calls with all it has. */
  lemma ShortCalls(t: Table) returns (u: Table)
    requires HandInv(t) && FourSeats(t) && Row(t.players[0], 0, 0, 4, Some(ActPost))
    requires Row(t.players[1], 1, 90, 10, Some(ActPost)) && Row(t.players[3], 3, 4, 0, None)
    requires !t.players[2].Live()
    ensures NextToAct(t) == Some(3) && Dispatch(t, 3, ReqCall) == Success(u)
    ensures FourSeats(u) && u.players == t.players[3 := u.players[3]] && Row(u.players[3], 3, 0, 4, Some(ActCall))
  {
    ThirdIsNext(t);
    u := CallsAllIn(t, 3, 1);
  }

  lemma ThirdIsNext(t: Table)
    requires HandInv(t) && FourSeats(t) && Row(t.players[0], 0, 0, 4, Some(ActPost))
    requires Row(t.players[1], 1, 90, 10, Some(ActPost)) && Row(t.players[3], 3, 4, 0, None)
    requires !t.players[2].Live()
    ensures NextToAct(t) == Some(3)
  {
    SomethingBet(t, 1);
    NextIs(t, 3, 1);
  }

  /** The big blind folds. */
  lemma BbFolds(t: Table) returns (u: Table)
    requires HandInv(t) && FourSeats(t) && Row(t.players[0], 0, 0, 4, Some(ActPost))
    requires Row(t.players[1], 1, 90, 10, Some(ActPost)) && Row(t.players[3], 3, 0, 4, Some(ActCall))
    requires !t.players[2].Live()
    ensures NextToAct(t) == Some(1) && Dispatch(t, 1, ReqFold(false)) == Success(u)
    ensures FourSeats(u) && u.players == t.players[1 := u.players[1]]
    ensures !u.players[1].Live() && u.players[1].Active() && u.players[1].wagers == 10
  {
    SomethingBet(t, 1);
    NextIs(t, 1, 0);
    u := FoldsNext(t, 1);
  }

  /** One accepted request after which somebody has to decide. */
  lemma {:induction false} RunWaits(t: Table, i: nat, req: Request, rest: seq<Input>, u: Table, j: nat)
    requires HandInv(t) && Dispatch(t, i, req) == Success(u) && HandInv(u)
    requires NextToAct(u) == Some(j) && j < |u.players| && u.players[j].playing == Some(SittingIn)
    requires !u.players[j].presetCheckfold && !u.players[j].presetCheck && u.players[j].presetCall == 0
    ensures Run(t, [Input(i, req)] + rest) == Run(u, rest)
  {
    RunOn(t, i, req, rest, u);
    Waits(u, j);
  }

  function FoldCallFold(): seq<Input> {
    [Input(2, ReqFold(false))] + ([Input(3, ReqCall)] + ([Input(1, ReqFold(false))] + []))
  }

  lemma CallersFold(t: Table) returns (u: Table)
    requires HandInv(t) && CallersDealt(t)
    ensures NextToAct(t) == Some(2) && Dispatch(t, 2, ReqFold(false)) == Success(u) && HandInv(u)
    ensures FourSeats(u) && u.players == t.players[2 := u.players[2]]
    ensures !u.players[2].Live() && u.players[2].Active() && u.players[2].wagers == 10
  {
    u := PosterFolds(t);
    DispatchKeepsHand(t, 2, ReqFold(false));
  }

  /** The last two requests. */
  lemma CallersEnd(t: Table) returns (u: Table)
    requires HandInv(t) && FourSeats(t) && Row(t.players[0], 0, 0, 4, Some(ActPost))
    requires Row(t.players[1], 1, 90, 10, Some(ActPost)) && Row(t.players[3], 3, 4, 0, None)
    requires !t.players[2].Live() && t.players[2].Active() && t.players[2].wagers == 10
    ensures NextToAct(t) == Some(3) && HandInv(u) && Outbid(u, 0, 3, 1, 2)
    ensures Run(t, [Input(3, ReqCall)] + ([Input(1, ReqFold(false))] + [])) == Last(u)
  {
    var v := CallerCalls(t);
    u := BbEnds(v);
    RunWaits(t, 3, ReqCall, [Input(1, ReqFold(false))] + [], v, 1);
    RunOn(v, 1, ReqFold(false), [], u);
  }

  lemma CallerCalls(t: Table) returns (u: Table)
    requires HandInv(t) && FourSeats(t) && Row(t.players[0], 0, 0, 4, Some(ActPost))
    requires Row(t.players[1], 1, 90, 10, Some(ActPost)) && Row(t.players[3], 3, 4, 0, None)
    requires !t.players[2].Live() && t.players[2].Active() && t.players[2].wagers == 10
    ensures NextToAct(t) == Some(3) && Dispatch(t, 3, ReqCall) == Success(u) && HandInv(u) && FoldLeft(u)
  {
    u := ShortCalls(t);
    DispatchKeepsHand(t, 3, ReqCall);
  }

  /** Only the big blind is left to act. */
  ghost predicate FoldLeft(t: Table) {
    && FourSeats(t) && Row(t.players[0], 0, 0, 4, Some(ActPost)) && Row(t.players[1], 1, 90, 10, Some(ActPost))
    && !t.players[2].Live() && t.players[2].Active() && t.players[2].wagers == 10
    && Row(t.players[3], 3, 0, 4, Some(ActCall))
  }

  lemma BbEnds(t: Table) returns (u: Table)
    requires HandInv(t) && FoldLeft(t)
    ensures NextToAct(t) == Some(1) && Dispatch(t, 1, ReqFold(false)) == Success(u) && HandInv(u)
    ensures Outbid(u, 0, 3, 1, 2)
  {
    u := BbFolds(t);
    DispatchKeepsHand(t, 1, ReqFold(false));
    BbLeavesOutbid(t, u);
  }

  lemma BbLeavesOutbid(t: Table, u: Table)
    requires FoldLeft(t) && FourSeats(u) && u.players == t.players[1 := u.players[1]]
    requires !u.players[1].Live() && u.players[1].Active() && u.players[1].wagers == 10
    ensures Outbid(u, 0, 3, 1, 2)
  {
    BothOutbid(u);
  }

  lemma BothOutbid(t: Table)
    requires FourSeats(t) && Row(t.players[0], 0, 0, 4, Some(ActPost)) && Row(t.players[3], 3, 0, 4, Some(ActCall))
    requires !t.players[1].Live() && t.players[1].Active() && t.players[1].wagers == 10
    requires !t.players[2].Live() && t.players[2].Active() && t.players[2].wagers == 10
    ensures Outbid(t, 0, 3, 1, 2)
  {
    assert TopPair(t, WagersOf, 1, 2);
  }

  /**
   * From a deal, two players who posted 10 fold behind two who are all in for 4: end_hand finds no
   * winner for what the two put in on top.
   */
  lemma FoldedPostersUnpaid(rank: nat -> int)
    ensures Ready(ShortCallers()) && BlindsCovered(ShortCallers())
    ensures EndHand(Played(ShortCallers(), FoldCallFold()), rank) == Failure(NoWinner)
  {
    var t := DealCallers();
    var v := CallersFold(t);
    var u := CallersEnd(v);
    Waits(t, 2);
    RunWaits(t, 2, ReqFold(false), [Input(3, ReqCall)] + ([Input(1, ReqFold(false))] + []), v, 3);
    OutbidIsUnpaid(u, rank, 0, 3, 1, 2);
  }
}
