/** The minimum raise over the blinds: when it can fall short of the bet to call, and when it never does. */
module ShortBlinds {
  import opened Wrappers
  import opened Indexes
  import opened Players
  import opened Tables
  import opened Accessors
  import opened Betting
  import opened BettingSteps
  import opened Requests
  import opened OutOfTurn
  import opened Hands
  import opened Play
  import opened Deals
  import opened Openings

  ghost predicate BlindsOnly(t: Table) {
    Seating(t) && EveryPlayer(t) && NothingCarried(t) && NobodyRaised(t)
  }

  lemma HeadIsPoster(t: Table, b: nat) returns (h: nat)
    requires BlindsOnly(t) && Poster(t, b)
    ensures |RaiseOrder(t)| > 0 && h == RaiseOrder(t)[0] && Poster(t, h)
    ensures t.players[h].uncollected >= t.players[b].uncollected
  {
    RaiseOrderHead(t, b);
    h := RaiseOrder(t)[0];
    assert DealtOrFolded(t.players[h]);
    assert Carried(t.players[b]) == 0 && Carried(t.players[h]) == 0;
  }

  lemma PostedHeadSets(t: Table, h: nat)
    requires t.numSeats > 0 && |RaiseOrder(t)| > 0 && h == RaiseOrder(t)[0] && Poster(t, h)
    ensures MinBetAmt(t) == Success(2 * t.players[h].uncollected)
  {
    RaiseOrderMembers(t);
  }

  ghost predicate LargestPost(t: Table, h: nat) {
    Poster(t, h) && forall i: nat :: Poster(t, i) ==> t.players[i].uncollected <= t.players[h].uncollected
  }

  /** While nobody has raised, the minimum is twice the largest post whose player has not moved since. */
  lemma MinBetOverPosts(t: Table, b: nat) returns (h: nat)
    requires BlindsOnly(t) && Poster(t, b)
    ensures LargestPost(t, h) && MinBetAmt(t) == Success(2 * t.players[h].uncollected)
  {
    h := HeadIsPoster(t, b);
    forall i: nat | Poster(t, i) ensures t.players[i].uncollected <= t.players[h].uncollected {
      var h' := HeadIsPoster(t, i);
    }
    PostedHeadSets(t, h);
  }

  /** So it reaches the largest bet exactly when some such post is at least half of that bet. */
  lemma MinBetReachesBlinds(t: Table, b: nat)
    requires BlindsOnly(t) && Poster(t, b)
    ensures MinBetAmt(t).Success?
    ensures MinBetAmt(t).value >= LastRaiseSize(t) <==>
      exists i: nat :: Poster(t, i) && 2 * t.players[i].uncollected >= LastRaiseSize(t)
  {
    var h := MinBetOverPosts(t, b);
  }

  // Falling short

  /** A raise is offered, and it may be to less than the bet to call. */
  ghost predicate FallsShort(t: Table) {
    exists i: nat :: i < |t.players| && ShortFor(t, i)
  }

  ghost predicate ShortFor(t: Table, i: nat)
    requires i < |t.players|
  {
    && t.numSeats > 0 && NextToAct(t) == Some(i) && IsTurnAction(t, i, KRaiseTo)
    && MinBetAmt(t).Success? && MinBetAmt(t).value < LastRaiseSize(t)
  }

  /** Somebody has to decide. */
  ghost predicate Decides(t: Table) {
    t.numSeats > 0 && exists i: nat :: i < |t.players| && NextToAct(t) == Some(i) && PresetAction(t, i).None?
  }

  /** From t the inputs are accepted one after the other, with nothing for step to do in between, and lead to u. */
  ghost predicate PlayedTo(t: Table, inputs: seq<Input>, u: Table)
    decreases |inputs|
  {
    if inputs == [] then u == t
    else
      Seating(t) &&
      match Answered(t, inputs[0])
      case Failure(_) => false
      case Success(next) => Decides(next) && PlayedTo(next, inputs[1..], u)
  }

  /** In the hand invariant no raise is offered to less than the bet to call. */
  lemma NeverShort(t: Table)
    requires HandInv(t)
    ensures !FallsShort(t)
  {
    forall i: nat | i < |t.players| ensures !ShortFor(t, i) {
      if NextToAct(t) == Some(i) && IsTurnAction(t, i, KRaiseTo) {
        MinRaiseReachesLargestBet(t, i);
      }
    }
  }

  lemma {:induction false} PlayedKeepsHand(t: Table, inputs: seq<Input>, u: Table)
    requires HandInv(t) && PlayedTo(t, inputs, u)
    ensures HandInv(u)
    decreases |inputs|
  {
    if inputs != [] {
      AnsweredKeepsHand(t, inputs[0], Answered(t, inputs[0]).value);
      PlayedKeepsHand(Answered(t, inputs[0]).value, inputs[1..], u);
    }
  }

  // Calling down to a player

  /** Before the flop, with nobody raised, folded or holding a preset. */
  ghost predicate Limped(t: Table) {
    && Seating(t) && EveryPlayer(t) && HasBb(t) && SomebodyLive(t) && Sum(t.players, ActiveOne) >= 2
    && NobodyRaised(t) && RaisersLead(t) && NothingCarried(t) && t.board == []
    && forall i :: 0 <= i < |t.players| && t.players[i].Active() ==> t.players[i].Live() && NoPreset(t.players[i])
  }

  ghost predicate NoPreset(p: PlayerState) {
    !p.presetCheckfold && !p.presetCheck && p.presetCall == 0 && p.playing != Some(LeaveSeatPending)
  }

  /** i to act among others: somebody is to act. */
  lemma SomebodyActs(t: Table, i: nat) returns (j: nat)
    requires Limped(t) && CanRaise(t, i) && LastRaiseSize(t) > 0
    ensures j < |t.players| && NextToAct(t) == Some(j) && UnactedAt(t)(j) && t.players[j].Live()
    ensures ActsAt(t, j) <= ActsAt(t, i)
  {
    var a, b := TwoActive(t.players);
    ActingOrderComplete(t);
    NotPredeal(t);
    var order := ActingOrder(t);
    assert i in order && a in order && b in order;
    SomebodyUnacted(t, order, i, if a == i then b else a);
    j := First(order, UnactedAt(t)).value;
    NextComesFirst(t, j, i);
  }

  /** A call, or a check when there is nothing to call. */
  function Limp(t: Table, j: nat): Request
    requires j < |t.players|
  {
    if LastRaiseSize(t) > t.players[j].uncollected then ReqCall else ReqCheck
  }

  lemma LimpTurn(t: Table, j: nat)
    requires t.numSeats > 0 && j < |t.players|
    ensures IsTurnAction(t, j, Limp(t, j).Kind()) && EventsFor(t, j, Limp(t, j)).Success?
    ensures Limp(t, j).Betting() && !Limp(t, j).ReqFold?
  {
  }

  lemma LimpEffect(t: Table, j: nat) returns (q: PlayerState)
    requires EveryPlayer(t) && Owes(t, j) && NoPreset(t.players[j])
    ensures Effect(t.players[j], BettingEvent(t, j, Limp(t, j))) == Success(q)
    ensures MatchesBet(t, t.players[j], q) && NoPreset(q)
  {
    if LastRaiseSize(t) > t.players[j].uncollected {
      CallMatches(t, j);
    } else {
      CheckMatches(t, j);
    }
    q := Effect(t.players[j], BettingEvent(t, j, Limp(t, j))).value;
  }

  lemma LimpMatches(t: Table, j: nat) returns (q: PlayerState)
    requires Limped(t) && j < |t.players| && NextToAct(t) == Some(j) && t.players[j].Live()
    ensures Dispatch(t, j, Limp(t, j)) == Success(With(t, j, q))
    ensures Owes(t, j) && MatchesBet(t, t.players[j], q) && NoPreset(q)
  {
    NextOwes(t, j);
    q := LimpEffect(t, j);
    LimpTurn(t, j);
    var u := TurnFires(t, j, Limp(t, j), q);
  }

  lemma LimpKeeps(t: Table, j: nat, q: PlayerState)
    requires Limped(t) && Owes(t, j) && MatchesBet(t, t.players[j], q) && NoPreset(q)
    ensures Limped(With(t, j, q)) && LastRaiseSize(With(t, j, q)) == LastRaiseSize(t)
  {
    var u := With(t, j, q);
    SeatsKept(t, j, q);
    ActivesKept(t, j, q);
    PlayersKept(t, j, q);
    MatchKeepsMax(t, j, q, false);
    RaisersKept(t, j, q);
    CarryKept(t, j, q);
    var b: nat :| IsBb(t, b);
    assert IsBb(u, b);
    assert u.players[j].Live();
  }

  /** k limped before i's turn, without paying anything if nobody had more in. */
  ghost predicate LimpedBefore(t: Table, u: Table, k: nat, i: nat)
    requires k < |t.players| && k < |u.players|
  {
    var p, q := t.players[k], u.players[k];
    && k != i && ActsAt(t, k) <= ActsAt(t, i) && (q.last == Some(ActCheck) || q.last == Some(ActCall))
    && q.Live() && q.position == p.position
    && (p.uncollected == LastRaiseSize(t) ==> q.stack == p.stack)
  }

  ghost predicate LimpedTo(t: Table, u: Table, i: nat) {
    && u == t.(players := u.players) && |u.players| == |t.players| && LastRaiseSize(u) == LastRaiseSize(t)
    && forall k: nat :: k < |t.players| ==> u.players[k] == t.players[k] || LimpedBefore(t, u, k, i)
  }

  lemma LimpedOn(t: Table, u: Table, i: nat, j: nat, q: PlayerState)
    requires LimpedTo(t, u, i) && j < |u.players| && j != i && Limped(u)
    requires Owes(u, j) && HasNotActed(u.players[j]) && MatchesBet(u, u.players[j], q)
    requires ActsAt(u, j) <= ActsAt(u, i) && i < |u.players|
    requires LastRaiseSize(With(u, j, q)) == LastRaiseSize(t)
    ensures LimpedTo(t, With(u, j, q), i)
  {
    var w := With(u, j, q);
    assert u.players[j] == t.players[j];
    assert ActsAt(u, j) == ActsAt(t, j);
    assert ActsAt(u, i) == ActsAt(t, i);
    if t.players[j].uncollected == LastRaiseSize(t) {
      MaxLiveAtMost(u);
    }
    forall k: nat | k < |t.players| ensures w.players[k] == t.players[k] || LimpedBefore(t, w, k, i) {
      assert u.players[k] == t.players[k] || LimpedBefore(t, u, k, i);
    }
  }

  lemma StillToAct(t: Table, i: nat, j: nat, q: PlayerState)
    requires CanRaise(t, i) && j < |t.players| && j != i && LastRaiseSize(With(t, j, q)) == LastRaiseSize(t)
    ensures CanRaise(With(t, j, q), i)
  {
  }

  lemma FewerUnacted(t: Table, j: nat, q: PlayerState)
    requires Owes(t, j) && HasNotActed(t.players[j]) && MatchesBet(t, t.players[j], q)
    ensures Sum(With(t, j, q).players, UnactedOne) < Sum(t.players, UnactedOne)
    ensures 0 <= Sum(With(t, j, q).players, UnactedOne)
  {
    SumUpdate(t.players, j, q, UnactedOne);
    SumNonNegative(With(t, j, q).players, UnactedOne);
  }

  lemma NextDecides(t: Table, i: nat)
    requires Limped(t) && CanRaise(t, i) && LastRaiseSize(t) > 0
    ensures Decides(t)
  {
    var j := SomebodyActs(t, i);
    assert PresetAction(t, j).None?;
  }

  lemma {:induction false} PlayedOn(u: Table, j: nat, req: Request, next: Table, rest: seq<Input>, w: Table)
    requires Seating(u) && Dispatch(u, j, req) == Success(next) && Decides(next) && PlayedTo(next, rest, w)
    ensures PlayedTo(u, [Input(j, req)] + rest, w)
  {
    assert ([Input(j, req)] + rest)[1..] == rest;
  }

  lemma LimpOnce(t: Table, u: Table, i: nat, j: nat) returns (next: Table)
    requires Limped(u) && LimpedTo(t, u, i) && CanRaise(u, i) && LastRaiseSize(u) > 0 && j != i
    requires j < |u.players| && NextToAct(u) == Some(j) && UnactedAt(u)(j) && u.players[j].Live()
    requires ActsAt(u, j) <= ActsAt(u, i)
    ensures Dispatch(u, j, Limp(u, j)) == Success(next) && Decides(next)
    ensures Limped(next) && LimpedTo(t, next, i) && CanRaise(next, i) && LastRaiseSize(next) == LastRaiseSize(u)
    ensures 0 <= Sum(next.players, UnactedOne) < Sum(u.players, UnactedOne)
  {
    var q := LimpMatches(u, j);
    next := With(u, j, q);
    LimpKeeps(u, j, q);
    LimpedOn(t, u, i, j, q);
    StillToAct(u, i, j, q);
    FewerUnacted(u, j, q);
    NextDecides(next, i);
  }

  /** Everybody before i limps, until it is i's turn. */
  lemma LimpDown(t: Table, u: Table, i: nat) returns (inputs: seq<Input>, w: Table)
    requires Limped(u) && LimpedTo(t, u, i) && CanRaise(u, i) && LastRaiseSize(u) > 0
    ensures PlayedTo(u, inputs, w) && Limped(w) && LimpedTo(t, w, i) && CanRaise(w, i) && NextToAct(w) == Some(i)
    decreases Sum(u.players, UnactedOne)
  {
    var j := SomebodyActs(u, i);
    if j == i {
      inputs, w := [], u;
    } else {
      var next := LimpOnce(t, u, i, j);
      var rest;
      rest, w := LimpDown(t, next, i);
      inputs := [Input(j, Limp(u, j))] + rest;
      PlayedOn(u, j, Limp(u, j), next, rest, w);
    }
  }

  // Short exactly when the blinds do not cover

  /** Whoever still has a post standing at i's turn acts no earlier. */
  lemma StandingPost(t: Table, w: Table, i: nat, h: nat)
    requires Limped(w) && LimpedTo(t, w, i) && NextToAct(w) == Some(i) && CanRaise(w, i) && Poster(w, h)
    ensures h < |t.players| && w.players[h] == t.players[h]
    ensures t.players[h].stack == 0 || ActsAt(t, i) <= ActsAt(t, h)
  {
    assert w.players[h] == t.players[h] || LimpedBefore(t, w, h, i);
    assert Sane(w.players[h]);
    if w.players[h].stack > 0 {
      NextComesFirst(w, i, h);
      SamePlaceInTurn(t, w, i, h);
      SamePlaceInTurn(t, w, i, i);
    }
  }

  lemma SamePlaceInTurn(t: Table, w: Table, i: nat, h: nat)
    requires LimpedTo(t, w, i) && h < |t.players|
    ensures ActsAt(w, h) == ActsAt(t, h)
  {
    assert w.players[h] == t.players[h] || LimpedBefore(t, w, h, i);
  }

  /** The big blind's post stands until everybody else has acted. */
  lemma BbStands(t: Table, w: Table, i: nat, b: nat)
    requires Limped(t) && Limped(w) && LimpedTo(t, w, i) && i < |t.players| && t.players[i].seated
    requires IsBb(t, b) && Poster(t, b)
    ensures Poster(w, b)
  {
    if w.players[b] != t.players[b] {
      assert LimpedBefore(t, w, b, i);
      BbComesLast(t, b, i);
      OneAtEach(t, b, i);
    }
  }

  lemma NotAllIn(t: Table, i: nat, x: nat)
    requires i < |t.players| && x < |t.players| && x != i && t.players[x].Live() && t.players[x].stack > 0
    requires CanRaise(t, i) && LastRaiseSize(t) > 0
    ensures IsTurnAction(t, i, KRaiseTo)
  {
    assert !IsAllIn(t.players[x]);
  }

  /** The largest poster, who covers nobody behind, still has chips at i's turn. */
  lemma LargestHasChips(t: Table, w: Table, i: nat, x: nat)
    requires LimpedTo(t, w, i) && Limped(t) && x < |t.players| && t.players[x].Active() && Poster(t, x)
    requires t.players[x].uncollected == LastRaiseSize(t) && !PostStands(t, x, i)
    ensures x < |w.players| && x != i && w.players[x].Live() && w.players[x].stack > 0
  {
    assert Sane(t.players[x]);
    assert w.players[x] == t.players[x] || LimpedBefore(t, w, x, i);
  }

  /** Without a standing post of at least half, the minimum falls short at i's turn. */
  lemma MinShortAt(t: Table, w: Table, i: nat, b: nat)
    requires Limped(t) && Limped(w) && LimpedTo(t, w, i) && CanRaise(w, i) && NextToAct(w) == Some(i)
    requires IsBb(t, b) && Poster(t, b) && forall p: nat :: !PostStands(t, p, i)
    ensures MinBetAmt(w).Success? && MinBetAmt(w).value < LastRaiseSize(w)
  {
    BbStands(t, w, i, b);
    var h := MinBetOverPosts(w, b);
    StandingPost(t, w, i, h);
    assert !PostStands(t, h, i);
  }

  ghost predicate BetsArePosts(t: Table) {
    forall k: nat :: k < |t.players| && t.players[k].Active() && t.players[k].uncollected > 0 ==> Poster(t, k)
  }

  lemma SomeBet(t: Table, i: nat, b: nat) returns (x: nat)
    requires Limped(t) && CanRaise(t, i) && (forall p: nat :: !PostStands(t, p, i)) && BetsArePosts(t)
    requires IsBb(t, b) && Poster(t, b)
    ensures LastRaiseSize(t) > 0 && Poster(t, x) && t.players[x].uncollected == LastRaiseSize(t)
  {
    BbComesLast(t, b, i);
    assert !PostStands(t, b, i);
    assert Sane(t.players[b]);
    x := MaxAttained(t.players, false);
  }

  /** A player whom no post covers is offered too small a raise, once everybody before has limped. */
  lemma UncoveredFallsShort(t: Table, i: nat, b: nat) returns (inputs: seq<Input>, w: Table)
    requires Limped(t) && CanRaise(t, i) && (forall p: nat :: !PostStands(t, p, i)) && BetsArePosts(t)
    requires IsBb(t, b) && Poster(t, b)
    ensures PlayedTo(t, inputs, w) && FallsShort(w)
  {
    var x := SomeBet(t, i, b);
    inputs, w := LimpDown(t, t, i);
    MinShortAt(t, w, i, b);
    LargestHasChips(t, w, i, x);
    NotAllIn(w, i, x);
    assert ShortFor(w, i);
  }

  // From the deal

  lemma PostsOnlyBets(t: Table, p: PlayerState, holdsBb: bool, holdsSb: bool)
    requires Idle(p) && p.Active()
    ensures Posted(t, p, holdsBb, holdsSb).uncollected > 0 || holdsBb ==>
      Posted(t, p, holdsBb, holdsSb).last == Some(ActPost)
  {
  }

  lemma DealtBets(t: Table, u: Table)
    requires DealtFrom(t, u) && Seating(t)
    ensures BetsArePosts(u)
    ensures forall b: nat :: IsBb(t, b) ==> IsBb(u, b) && Poster(u, b)
  {
    forall k: nat | k < |u.players| && t.players[k].Active()
      ensures u.players[k].Active() && u.players[k].position == t.players[k].position
      ensures u.players[k].uncollected > 0 || IsBb(t, k) ==> Poster(u, k)
    {
      assert SamePost(t, u, k) && Idle(t.players[k]);
      HolderIs(t, k);
      PostedKeepsSeat(t, t.players[k], HoldsBb(t, k), HoldsSb(t, k));
      PostsOnlyBets(t, t.players[k], HoldsBb(t, k), HoldsSb(t, k));
    }
    forall k: nat | k < |u.players| && !t.players[k].Active() ensures !u.players[k].Active() {
      assert SamePost(t, u, k);
    }
  }

  lemma DealtPresets(t: Table, u: Table, k: nat)
    requires Ready(t) && AllFresh(t, u) && k < |u.players| && u.players[k].Active()
    ensures NoPreset(u.players[k])
  {
    assert FreshlyDealt(t.players[k], u.players[k]);
  }

  lemma DealtIsLimped(t: Table) returns (u: Table)
    requires Ready(t)
    ensures PostAndDeal(t) == Success(u) && DealtFrom(t, u) && Limped(u)
  {
    u := DealtHand(t);
    var v := DealIsFresh(t);
    forall k: nat | k < |u.players| && u.players[k].Active() ensures NoPreset(u.players[k]) {
      DealtPresets(t, u, k);
    }
  }

  /** Whatever is accepted before step has anything to do, no raise is offered to less than the bet to call. */
  ghost predicate NeverFallsShort(t: Table) {
    forall inputs, w :: PlayedTo(t, inputs, w) ==> !FallsShort(w)
  }

  lemma CoveredIsNeverShort(t: Table)
    requires HandInv(t)
    ensures NeverFallsShort(t)
  {
    forall inputs, w | PlayedTo(t, inputs, w) ensures !FallsShort(w) {
      PlayedKeepsHand(t, inputs, w);
      NeverShort(w);
    }
  }

  /** When the blinds do not cover everybody, limping down to whom they do not cover shows it. */
  lemma UncoveredDealIsShort(t: Table) returns (inputs: seq<Input>, w: Table)
    requires Ready(t) && !BlindsCovered(t)
    ensures PostAndDeal(t).Success? && PlayedTo(PostAndDeal(t).value, inputs, w) && FallsShort(w)
  {
    var u := DealtIsLimped(t);
    CoveredIsDealt(t, u);
    var i: nat :| CanRaise(u, i) && !exists p: nat :: PostStands(u, p, i);
    var b: nat :| IsBb(t, b);
    DealtBets(t, u);
    inputs, w := UncoveredFallsShort(u, i, b);
  }

  /**
   * After the deal no raise is ever offered to less than the bet to call if and only if the blinds
   * cover everybody who may raise.
   */
  lemma MinRaiseExact(t: Table)
    requires Ready(t)
    ensures PostAndDeal(t).Success? && (BlindsCovered(t) <==> NeverFallsShort(PostAndDeal(t).value))
  {
    if BlindsCovered(t) {
      DealStartsHand(t);
      CoveredIsNeverShort(PostAndDeal(t).value);
    } else {
      var inputs, w := UncoveredDealIsShort(t);
    }
  }
}
