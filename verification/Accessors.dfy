/** What the table's state says about the hand (core/poker/accessors.py). */
module Accessors {
  import opened Wrappers
  import opened Indexes
  import opened Players
  import opened Tables

  // Sums and maxima over the players

  function Sum(ps: seq<PlayerState>, f: PlayerState -> int): int {
    if ps == [] then 0 else Sum(ps[..|ps| - 1], f) + f(ps[|ps| - 1])
  }

  lemma {:induction false} SumUpdate(ps: seq<PlayerState>, i: nat, p: PlayerState, f: PlayerState -> int)
    requires i < |ps|
    ensures Sum(ps[i := p], f) == Sum(ps, f) - f(ps[i]) + f(p)
    decreases |ps|
  {
    var n := |ps| - 1;
    if i < n {
      assert ps[i := p][..n] == ps[..n][i := p];
      SumUpdate(ps[..n], i, p, f);
    } else {
      assert ps[i := p][..n] == ps[..n];
    }
  }

  lemma {:induction false} SumBounds(ps: seq<PlayerState>, f: PlayerState -> int, g: PlayerState -> int)
    requires forall i :: 0 <= i < |ps| ==> f(ps[i]) <= g(ps[i])
    ensures Sum(ps, f) <= Sum(ps, g)
    decreases |ps|
  {
    if ps != [] {
      SumBounds(ps[..|ps| - 1], f, g);
    }
  }

  lemma {:induction false} SumSame(ps: seq<PlayerState>, qs: seq<PlayerState>, f: PlayerState -> int)
    requires |ps| == |qs| && forall i :: 0 <= i < |ps| ==> f(ps[i]) == f(qs[i])
    ensures Sum(ps, f) == Sum(qs, f)
    decreases |ps|
  {
    if ps != [] {
      SumSame(ps[..|ps| - 1], qs[..|ps| - 1], f);
    }
  }

  lemma {:induction false} SumNonNegative(ps: seq<PlayerState>, f: PlayerState -> int)
    requires forall i :: 0 <= i < |ps| ==> 0 <= f(ps[i])
    ensures 0 <= Sum(ps, f)
    ensures forall i :: 0 <= i < |ps| ==> f(ps[i]) <= Sum(ps, f)
    decreases |ps|
  {
    if ps != [] {
      var n := |ps| - 1;
      SumNonNegative(ps[..n], f);
      forall i | 0 <= i < |ps| ensures f(ps[i]) <= Sum(ps, f) {
        if i < n { assert ps[..n][i] == ps[i]; }
      }
    }
  }

  predicate Counted(p: PlayerState, liveOnly: bool) {
    if liveOnly then p.Live() else p.Active()
  }

  /** The largest uncollected bet, 0 if nobody has one. */
  function MaxUncollected(ps: seq<PlayerState>, liveOnly: bool): (m: int)
    ensures 0 <= m
  {
    if ps == [] then 0
    else
      var n := |ps| - 1;
      var m := MaxUncollected(ps[..n], liveOnly);
      if Counted(ps[n], liveOnly) && ps[n].uncollected > m then ps[n].uncollected else m
  }

  lemma {:induction false} MaxBounds(ps: seq<PlayerState>, liveOnly: bool)
    ensures forall i :: 0 <= i < |ps| && Counted(ps[i], liveOnly) ==> ps[i].uncollected <= MaxUncollected(ps, liveOnly)
    decreases |ps|
  {
    if ps != [] {
      var n := |ps| - 1;
      MaxBounds(ps[..n], liveOnly);
      assert forall i :: 0 <= i < n ==> ps[..n][i] == ps[i];
    }
  }

  lemma {:induction false} MaxAttained(ps: seq<PlayerState>, liveOnly: bool) returns (i: nat)
    requires MaxUncollected(ps, liveOnly) > 0
    ensures i < |ps| && Counted(ps[i], liveOnly) && ps[i].uncollected == MaxUncollected(ps, liveOnly)
    decreases |ps|
  {
    var n := |ps| - 1;
    if Counted(ps[n], liveOnly) && ps[n].uncollected > MaxUncollected(ps[..n], liveOnly) {
      i := n;
    } else {
      i := MaxAttained(ps[..n], liveOnly);
    }
  }

  /** m is the maximum when it bounds every counted bet and is attained, or is 0. */
  lemma {:induction false} MaxIs(ps: seq<PlayerState>, liveOnly: bool, m: int)
    requires forall i :: 0 <= i < |ps| && Counted(ps[i], liveOnly) ==> ps[i].uncollected <= m
    requires m == 0 || exists i :: 0 <= i < |ps| && Counted(ps[i], liveOnly) && ps[i].uncollected == m
    requires 0 <= m
    ensures MaxUncollected(ps, liveOnly) == m
  {
    MaxBounds(ps, liveOnly);
    if MaxUncollected(ps, liveOnly) > 0 {
      var i := MaxAttained(ps, liveOnly);
    }
  }

  function ActiveOne(p: PlayerState): int { if p.Active() then 1 else 0 }

  function LiveOne(p: PlayerState): int { if p.Live() then 1 else 0 }

  /** last_raise_size */
  function LastRaiseSize(t: Table): int {
    MaxUncollected(t.players, false)
  }

  // Whether the game can go on

  function MinAmtToPlay(t: Table, p: PlayerState): int {
    t.bb + if p.owesSb then t.sb else 0
  }

  predicate InActiveState(p: PlayerState) {
    p.playing == Some(SittingIn) || p.playing == Some(SitOutPending) || p.playing == Some(LeaveSeatPending)
  }

  predicate CanPlay(t: Table, p: PlayerState) {
    || InActiveState(p)
    || (p.stack >= MinAmtToPlay(t, p) &&
        (p.playing == Some(SitInAtBlindsPending) || p.playing == Some(SitInPending)))
  }

  function PlayOne(t: Table): PlayerState -> int {
    (p: PlayerState) => if p.seated && CanPlay(t, p) then 1 else 0
  }

  predicate EnoughPlayersToPlay(t: Table) {
    Sum(t.players, PlayOne(t)) > 1
  }

  /** Nobody holds cards, or somebody who has not folded is still short of hole cards. */
  predicate IsPredeal(t: Table) {
    || (forall i :: 0 <= i < |t.players| ==> t.players[i].cards == [])
    || exists i :: 0 <= i < |t.players| && StillUndealt(t.players[i])
  }

  predicate StillUndealt(p: PlayerState) {
    p.seated && InActiveState(p) &&
    p.last != Some(ActFold) && |p.cards| < 2
  }

  // Whose turn it is

  function FirstToActPos(t: Table): Option<nat>
    requires t.numSeats > 0
  {
    var actives := Sum(t.players, ActiveOne);
    if actives == 0 || !EnoughPlayersToPlay(t) then None
    else if IsPredeal(t) then (if actives > 2 then t.sbPos else t.bbPos)
    else if t.board == [] && t.bbPos.Some? then Some((t.bbPos.value + 1) % t.numSeats)
    else if actives > 2 then t.sbPos
    else t.bbPos
  }

  function StartPos(t: Table): nat
    requires t.numSeats > 0
  {
    match FirstToActPos(t) case Some(pos) => pos case None => 0
  }

  function LiveAt(t: Table): nat -> bool {
    (i: nat) => i < |t.players| && t.players[i].Live()
  }

  function ChipsAt(t: Table): nat -> bool {
    (i: nat) => i < |t.players| && t.players[i].stack > 0
  }

  predicate HasNotActed(p: PlayerState) {
    p.last == None || p.last == Some(ActPost)
  }

  predicate Raised(p: PlayerState) {
    p.last == Some(ActBet) || p.last == Some(ActRaiseTo)
  }

  function UnactedAt(t: Table): nat -> bool {
    (i: nat) => i < |t.players| && t.players[i].stack > 0 && HasNotActed(t.players[i])
  }

  function BehindAt(t: Table, amt: int): nat -> bool {
    (i: nat) => i < |t.players| && t.players[i].stack > 0 && t.players[i].uncollected < amt
  }

  /** showdown_players: everyone still holding cards, in acting order. */
  function ActingOrder(t: Table): (r: seq<nat>)
    requires t.numSeats > 0
    ensures Indexing(t, r)
    ensures forall i: nat :: i in r ==> i < |t.players| && t.players[i].Live()
  {
    var r := Filter(ActivePlayers(t, StartPos(t)), LiveAt(t));
    assert forall k :: 0 <= k < |r| ==> r[k] in r;
    r
  }

  predicate Indexing(t: Table, s: seq<nat>) {
    forall k :: 0 <= k < |s| ==> s[k] < |t.players|
  }

  /** The first of those with the largest bet or raise. */
  function LastRaiser(t: Table, order: seq<nat>): (r: Option<nat>)
    requires Indexing(t, order)
    ensures r.Some? ==> r.value in order && Raised(t.players[r.value])
    ensures r.Some? ==> forall i :: i in order && Raised(t.players[i]) ==>
      t.players[i].uncollected <= t.players[r.value].uncollected
    ensures r.None? ==> forall i :: i in order ==> !Raised(t.players[i])
  {
    if order == [] then None
    else
      var n := |order| - 1;
      assert order == order[..n] + [order[n]];
      var r := LastRaiser(t, order[..n]);
      var p := t.players[order[n]];
      if Raised(p) && (r.None? || p.uncollected > t.players[r.value].uncollected) then Some(order[n]) else r
  }

  function NextToAct(t: Table): Option<nat>
    requires t.numSeats > 0
  {
    NextAmong(t, ActingOrder(t))
  }

  function NextAmong(t: Table, players: seq<nat>): Option<nat>
    requires Indexing(t, players)
  {
    var chips := Filter(players, ChipsAt(t));
    if |players| < 2 || |chips| == 0 || IsPredeal(t) || (|chips| == 1 && LastRaiseSize(t) == 0) then None
    else
      match First(players, UnactedAt(t))
      case Some(i) => Some(i)
      case None =>
        match LastRaiser(t, players)
        case None => None
        case Some(r) => First(Rotated(players, IndexOf(players, r)), BehindAt(t, t.players[r].uncollected))
  }

  lemma {:induction false} LastRaiserNext(t: Table, order: seq<nat>, k: nat)
    requires Indexing(t, order) && k < |order|
    ensures
      var r, p := LastRaiser(t, order[..k]), t.players[order[k]];
      LastRaiser(t, order[..k + 1]) ==
        if Raised(p) && (r.None? || p.uncollected > t.players[r.value].uncollected) then Some(order[k]) else r
  {
    assert order[..k + 1][..k] == order[..k];
  }

  /** The loop of next_to_act, which looks for the last raiser until it meets somebody who has not acted. */
  method ScanOrder(t: Table, players: seq<nat>) returns (unacted: Option<nat>, raiser: Option<nat>)
    requires Indexing(t, players)
    ensures unacted == First(players, UnactedAt(t))
    ensures unacted.None? ==> raiser == LastRaiser(t, players)
  {
    raiser := None;
    var k := 0;
    while k < |players|
      invariant 0 <= k <= |players|
      invariant forall j :: 0 <= j < k ==> !UnactedAt(t)(players[j])
      invariant raiser == LastRaiser(t, players[..k])
    {
      LastRaiserNext(t, players, k);
      var p := t.players[players[k]];
      if p.stack > 0 && HasNotActed(p) {
        FirstSkips(players, UnactedAt(t), k);
        return Some(players[k]), raiser;
      } else if Raised(p) {
        if raiser.None? || p.uncollected > t.players[raiser.value].uncollected {
          raiser := Some(players[k]);
        }
      }
      k := k + 1;
    }
    assert players[..k] == players && players[k..] == [];
    FirstSkips(players, UnactedAt(t), k);
    unacted := None;
  }

  /** next_to_act */
  method FindNextToAct(t: Table) returns (r: Option<nat>)
    requires t.numSeats > 0
    ensures r == NextToAct(t)
  {
    var players := ActingOrder(t);
    if |players| < 2 {
      return None;
    }
    var chips := Filter(players, ChipsAt(t));
    if |chips| == 0 || IsPredeal(t) {
      return None;
    }
    if |chips| == 1 && LastRaiseSize(t) == 0 {
      return None;
    }
    var unacted, raiser := ScanOrder(t, players);
    if unacted.Some? {
      return unacted;
    }
    if raiser.Some? {
      var order := Rotated(players, IndexOf(players, raiser.value));
      assert forall k :: 0 <= k < |order| ==> order[k] in order;
      r := FindBehind(t, order, t.players[raiser.value].uncollected);
    } else {
      r := None;
    }
  }

  method FindBehind(t: Table, order: seq<nat>, amt: int) returns (r: Option<nat>)
    requires Indexing(t, order)
    ensures r == First(order, BehindAt(t, amt))
  {
    var k := 0;
    while k < |order|
      invariant 0 <= k <= |order|
      invariant forall j :: 0 <= j < k ==> !BehindAt(t, amt)(order[j])
    {
      var p := t.players[order[k]];
      if p.stack > 0 && p.uncollected < amt {
        FirstSkips(order, BehindAt(t, amt), k);
        return Some(order[k]);
      }
      k := k + 1;
    }
    FirstSkips(order, BehindAt(t, amt), k);
    r := None;
  }

  // Bet sizes

  /** call_amt(player): everything uncollected that the player has to match, or all they have. */
  function CallAmt(t: Table, p: PlayerState): int {
    var amt := MaxUncollected(t.players, true);
    if amt <= p.StackAvailable() then amt else p.StackAvailable()
  }

  /** call_amt(player, diff=True) */
  function CallDiff(t: Table, p: PlayerState): int {
    CallAmt(t, p) - p.uncollected
  }

  function ActionOrder(p: PlayerState): int {
    match p.last
    case Some(ActRaiseTo) => 0
    case Some(ActBet) => 1
    case Some(ActPost) => 2
    case _ => 999
  }

  function ByWagers(t: Table): nat -> int {
    (i: nat) => if i < |t.players| then -t.players[i].wagers else 0
  }

  function ByAction(t: Table): nat -> int {
    (i: nat) => if i < |t.players| then ActionOrder(t.players[i]) else 0
  }

  /** The active players, largest wagers first, then stably by kind of last action. */
  function RaiseOrder(t: Table): seq<nat>
    requires t.numSeats > 0
  {
    SortBy(SortBy(ActivePlayers(t, StartPos(t)), ByWagers(t)), ByAction(t))
  }

  lemma RaiseOrderMembers(t: Table)
    requires t.numSeats > 0
    ensures forall i :: i in RaiseOrder(t) <==> i in ActivePlayers(t, StartPos(t))
    ensures Indexing(t, RaiseOrder(t))
  {
    var players := ActivePlayers(t, StartPos(t));
    SortByPermutes(players, ByWagers(t));
    SortByPermutes(SortBy(players, ByWagers(t)), ByAction(t));
    assert forall k :: 0 <= k < |RaiseOrder(t)| ==> RaiseOrder(t)[k] in RaiseOrder(t);
  }

  function MinBetAmt(t: Table): Result<int, Error>
    requires t.numSeats > 0
  {
    RaiseOrderMembers(t);
    MinBetFrom(t, RaiseOrder(t))
  }

  function MinBetFrom(t: Table, players: seq<nat>): Result<int, Error>
    requires Indexing(t, players)
  {
    if players == [] then Success(t.bb)
    else
      var p := t.players[players[0]];
      match p.last
      case Some(ActBet) => Success(2 * p.uncollected)
      case Some(ActPost) => Success(2 * p.uncollected)
      case Some(ActRaiseTo) =>
        if |players| < 2 then Failure(ImpossibleGameState)
        else Success(p.uncollected + p.uncollected - t.players[players[1]].uncollected)
      case _ => Success(t.bb)
  }

  // What a player may do

  datatype ActionKind =
    | KBet | KRaiseTo | KCall | KCheck | KFold
    | KBuy | KTakeSeat | KLeaveSeat | KSitIn | KSitOut | KSitInAtBlinds | KSitOutAtBlinds
    | KPresetCheckfold | KPresetCheck | KPresetCall

  predicate IsAllIn(p: PlayerState) {
    p.stack == 0 && p.cards != []
  }

  predicate EveryoneElseAllIn(t: Table, i: nat) {
    forall j :: 0 <= j < |t.players| && j != i && t.players[j].Live() ==> IsAllIn(t.players[j])
  }

  predicate WillActThisRound(t: Table, p: PlayerState) {
    p.cards != [] && p.last != Some(ActSitIn) && p.last != Some(ActFold) && !IsAllIn(p) &&
    (CallDiff(t, p) > 0 || p.last == Some(ActPost))
  }

  /** k is among _sitting_toggle_actions(player). */
  predicate IsSittingToggle(t: Table, p: PlayerState, k: ActionKind) {
    if p.playing == Some(LeaveSeatPending) then k == KTakeSeat || k == KSitOutAtBlinds
    else if p.playing == Some(SittingOut) then
      p.stack >= MinAmtToPlay(t, p) && (k == KSitIn || k == KSitInAtBlinds)
    else if p.playing == Some(SitInAtBlindsPending) then k == KSitInAtBlinds || k == KSitIn
    else if p.playing == Some(SitInPending) then k == KSitInAtBlinds || k == KSitOut
    else if !EnoughPlayersToPlay(t) then k == KSitOut
    else if p.playing == Some(SitOutPending) then k == KSitIn || k == KSitOutAtBlinds
    else k == KSitOutAtBlinds || k == KSitOut
  }

  /** k is among the presets open to a player who will still act this round. */
  predicate IsPresetAction(t: Table, p: PlayerState, k: ActionKind) {
    WillActThisRound(t, p) &&
    (k == KPresetCheckfold || k == if CallDiff(t, p) > 0 then KPresetCall else KPresetCheck)
  }

  /** k is among the moves of the player whose turn it is. */
  predicate IsTurnAction(t: Table, i: nat, k: ActionKind)
    requires i < |t.players|
  {
    var p := t.players[i];
    var raise := LastRaiseSize(t);
    || k == KFold
    || k == (if raise > p.uncollected then KCall else KCheck)
    || (p.StackAvailable() > raise && !EveryoneElseAllIn(t, i) && k == if raise == 0 then KBet else KRaiseTo)
  }

  /** k is among available_actions(player). */
  predicate IsAvailable(t: Table, i: nat, k: ActionKind)
    requires t.numSeats > 0 && i < |t.players|
  {
    var p := t.players[i];
    if !p.seated then k == KTakeSeat
    else
      || k == KLeaveSeat
      || (k == KBuy && p.stack + p.pendingRebuy < t.maxBuyin)
      || IsSittingToggle(t, p, k)
      || (!p.SittingOutNow() && if NextToAct(t) == Some(i) then IsTurnAction(t, i, k) else IsPresetAction(t, p, k))
  }

  predicate IsTurnKind(k: ActionKind) {
    k == KBet || k == KRaiseTo || k == KCall || k == KCheck || k == KFold
  }

  lemma TurnKindNotPreset(t: Table, p: PlayerState, k: ActionKind)
    requires IsTurnKind(k)
    ensures !IsPresetAction(t, p, k) && !IsSittingToggle(t, p, k)
  {
  }

  lemma TurnKindNeedsTurn(t: Table, i: nat, k: ActionKind)
    requires t.numSeats > 0 && i < |t.players| && IsTurnKind(k) && IsAvailable(t, i, k)
    ensures NextToAct(t) == Some(i) && IsTurnAction(t, i, k)
  {
    TurnKindNotPreset(t, t.players[i], k);
  }
}
