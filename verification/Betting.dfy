/** The invariant of a dealt hand, and what next_to_act and min_bet_amt mean under it. */
module Betting {
  import opened Wrappers
  import opened Indexes
  import opened Players
  import opened Tables
  import opened Accessors
  import opened Rings

  // The invariant

  /** No amount is negative, and a player who is not active has nothing in the hand. */
  ghost predicate Sane(p: PlayerState) {
    && 0 <= p.stack && 0 <= p.uncollected <= p.wagers && 0 <= p.dead
    && (!p.Active() ==> !p.HasInHandState())
  }

  /** An active player holds two cards, or has folded. */
  ghost predicate DealtOrFolded(p: PlayerState) {
    p.Active() ==>
      || (|p.cards| == 2 && p.last != Some(ActFold) && p.last != Some(ActSitIn))
      || (p.cards == [] && p.last == Some(ActFold))
  }

  ghost predicate EveryPlayer(t: Table) {
    forall i :: 0 <= i < |t.players| ==> Sane(t.players[i]) && DealtOrFolded(t.players[i])
  }

  /** Nobody who is out has anything in a hand. */
  ghost predicate OutIsIdle(t: Table) {
    forall i :: 0 <= i < |t.players| && !t.players[i].Active() ==> !t.players[i].HasInHandState()
  }

  lemma EveryoneOutIsIdle(t: Table)
    requires EveryPlayer(t)
    ensures OutIsIdle(t)
  {
    forall i | 0 <= i < |t.players| && !t.players[i].Active() ensures !t.players[i].HasInHandState() {
      assert Sane(t.players[i]);
    }
  }

  /** Wagers carried over from earlier streets. */
  function Carried(p: PlayerState): int {
    p.wagers - p.uncollected
  }

  /** Live with chips left, or the author of a bet or raise. */
  ghost predicate Contender(p: PlayerState) {
    p.Live() && (p.stack > 0 || Raised(p))
  }

  /** Nobody live carried over more than a contender did. */
  ghost predicate Leveled(t: Table) {
    forall i, j :: 0 <= i < |t.players| && 0 <= j < |t.players| && t.players[i].Live() && Contender(t.players[j]) ==>
      Carried(t.players[i]) <= Carried(t.players[j])
  }

  ghost predicate NothingCarried(t: Table) {
    forall i :: 0 <= i < |t.players| && t.players[i].Active() ==> Carried(t.players[i]) == 0
  }

  ghost predicate IsLead(t: Table, i: nat, a: LastAction) {
    i < |t.players| && t.players[i].Live() && t.players[i].last == Some(a) &&
    t.players[i].uncollected == LastRaiseSize(t)
  }

  ghost predicate LedBy(t: Table, a: LastAction) {
    exists i :: IsLead(t, i, a)
  }

  /** The largest uncollected bet belongs to a raiser, or to a bettor when nobody has raised. */
  ghost predicate RaisersLead(t: Table) {
    && (forall i :: 0 <= i < |t.players| && t.players[i].Live() && Raised(t.players[i]) ==> LastRaiseSize(t) > 0)
    && (forall i :: 0 <= i < |t.players| && t.players[i].Live() && t.players[i].last == Some(ActRaiseTo) ==>
          LedBy(t, ActRaiseTo))
    && (forall i :: 0 <= i < |t.players| && t.players[i].Live() && t.players[i].last == Some(ActBet) ==>
          LedBy(t, ActRaiseTo) || LedBy(t, ActBet))
  }

  ghost predicate NobodyRaised(t: Table) {
    forall i :: 0 <= i < |t.players| && t.players[i].Live() ==> !Raised(t.players[i])
  }

  ghost predicate NobodyToAct(t: Table) {
    forall i :: 0 <= i < |t.players| && t.players[i].Live() && t.players[i].stack > 0 ==> !HasNotActed(t.players[i])
  }

  /** Whoever has acted and has chips left matches the largest live bet. */
  ghost predicate Matched(t: Table) {
    forall i :: 0 <= i < |t.players| && t.players[i].Live() && t.players[i].stack > 0 && !HasNotActed(t.players[i]) ==>
      t.players[i].uncollected == MaxUncollected(t.players, true)
  }

  ghost predicate IsBb(t: Table, b: nat) {
    b < |t.players| && t.players[b].Active() && t.bbPos.Some? && t.players[b].position == t.bbPos
  }

  ghost predicate HasBb(t: Table) {
    exists b :: IsBb(t, b)
  }

  /** How many seats after the first to act before the flop, the one behind the big blind. */
  function ActsAt(t: Table, i: nat): nat {
    if i < |t.players| && t.bbPos.Some? && t.bbPos.value < t.numSeats
       && t.players[i].position.Some? && t.players[i].position.value < t.numSeats
    then Gap(t.numSeats, Ahead(t.numSeats, t.bbPos.value, 1), t.players[i].position.value)
    else 0
  }

  ghost predicate Poster(t: Table, p: nat) {
    p < |t.players| && t.players[p].Active() && t.players[p].last == Some(ActPost)
  }

  /** p's post is at least half of the largest bet and will still stand when it is i's turn. */
  ghost predicate PostStands(t: Table, p: nat, i: nat) {
    && Poster(t, p) && LastRaiseSize(t) <= 2 * t.players[p].uncollected
    && (t.players[p].stack == 0 || ActsAt(t, i) <= ActsAt(t, p))
  }

  /** i has yet to act and could raise. */
  ghost predicate CanRaise(t: Table, i: nat) {
    && i < |t.players| && t.players[i].Live() && t.players[i].stack > 0 && HasNotActed(t.players[i])
    && t.players[i].StackAvailable() > LastRaiseSize(t)
  }

  /** Whoever could still raise will find half of the largest bet posted. */
  ghost predicate PostsCover(t: Table) {
    forall i: nat :: CanRaise(t, i) ==> exists p: nat :: PostStands(t, p, i)
  }

  ghost predicate Preflop(t: Table) {
    NothingCarried(t) && (NobodyRaised(t) ==> PostsCover(t))
  }

  ghost predicate SomebodyLive(t: Table) {
    exists i :: 0 <= i < |t.players| && t.players[i].Live()
  }

  ghost predicate BettingInv(t: Table) {
    && Seating(t) && EveryPlayer(t) && HasBb(t)
    && 0 < t.bb && 0 <= t.sb && 0 <= t.minBuyin
    && Sum(t.players, ActiveOne) >= 2 && SomebodyLive(t)
    && Leveled(t) && RaisersLead(t)
    && (NobodyRaised(t) ==> Matched(t))
    && (t.board == [] ==> Preflop(t))
    && (t.board != [] && NobodyRaised(t) ==> LastRaiseSize(t) == 0)
  }

  // Who acts

  lemma ActingOrderComplete(t: Table)
    requires Seating(t)
    ensures Distinct(ActingOrder(t))
    ensures forall i: nat :: i in ActingOrder(t) <==> i < |t.players| && t.players[i].Live()
  {
    ActivePlayersComplete(t, StartPos(t));
    FilterDistinct(ActivePlayers(t, StartPos(t)), LiveAt(t));
  }

  lemma NotPredeal(t: Table)
    requires Seating(t) && EveryPlayer(t) && SomebodyLive(t)
    ensures !IsPredeal(t)
  {
    forall i | 0 <= i < |t.players| ensures !StillUndealt(t.players[i]) {
      assert DealtOrFolded(t.players[i]);
    }
  }

  lemma ActiveStates(p: PlayerState)
    requires p.Active() && p.playing.Some?
    ensures InActiveState(p)
  {
    match p.playing.value
    case SittingIn =>
    case SittingOut =>
    case SitInPending =>
    case SitOutPending =>
    case SitInAtBlindsPending =>
    case LeaveSeatPending =>
  }

  lemma EnoughPlayers(t: Table)
    requires Seating(t) && Sum(t.players, ActiveOne) >= 2
    ensures EnoughPlayersToPlay(t)
  {
    forall i | 0 <= i < |t.players| ensures ActiveOne(t.players[i]) <= PlayOne(t)(t.players[i]) {
      if t.players[i].Active() {
        ActiveStates(t.players[i]);
      }
    }
    SumBounds(t.players, ActiveOne, PlayOne(t));
  }

  /** Before the flop the first seat to act is the one after the big blind. */
  lemma PreflopStart(t: Table)
    requires Seating(t) && EveryPlayer(t) && SomebodyLive(t) && Sum(t.players, ActiveOne) >= 2
    requires t.board == [] && t.bbPos.Some?
    ensures StartPos(t) == (t.bbPos.value + 1) % t.numSeats
  {
    NotPredeal(t);
    EnoughPlayers(t);
  }

  /** With somebody else in and something bet, a player who has not acted is not the only one asked. */
  lemma {:induction false} SomebodyUnacted(t: Table, order: seq<nat>, i: nat, x: nat)
    requires Indexing(t, order) && i in order && x in order && x != i && !IsPredeal(t) && LastRaiseSize(t) > 0
    requires i < |t.players| && UnactedAt(t)(i) && ChipsAt(t)(i)
    ensures NextAmong(t, order).Some? && First(order, UnactedAt(t)) == NextAmong(t, order)
  {
    assert i in Filter(order, ChipsAt(t));
  }

  /** Seats are listed in the order they come round in. */
  lemma {:induction false} ActiveFromInOrder(t: Table, start: nat, k: nat, count: nat)
    requires Seating(t) && start < t.numSeats && k + count <= t.numSeats
    ensures forall i: nat :: i in ActiveFrom(t, start + k, count) ==> k <= GapFrom(t, start)(i)
    ensures SortedBy(ActiveFrom(t, start + k, count), GapFrom(t, start))
    decreases count
  {
    if count > 0 {
      ActiveFromInOrder(t, start, k + 1, count - 1);
      FoundAtGap(t, start, k);
      InFrontInOrder(FindAt(t.players, (start + k) % t.numSeats, true), ActiveFrom(t, start + (k + 1), count - 1),
                     ActiveFrom(t, start + k, count), GapFrom(t, start), k);
    }
  }

  lemma FoundAtGap(t: Table, start: nat, k: nat)
    requires Seating(t) && start < t.numSeats && k < t.numSeats
    ensures
      var found := FindAt(t.players, (start + k) % t.numSeats, true);
      found.Some? ==> GapFrom(t, start)(found.value) == k
  {
    SeatIsAhead(t.numSeats, start, k);
  }

  lemma InFrontInOrder(found: Option<nat>, rest: seq<nat>, all: seq<nat>, key: nat -> int, least: int)
    requires all == (match found case None => [] case Some(i) => [i]) + rest
    requires found.Some? ==> key(found.value) == least
    requires SortedBy(rest, key) && forall j :: j in rest ==> least < key(j)
    ensures SortedBy(all, key) && forall j :: j in all ==> least <= key(j)
  {
    assert forall j :: 0 <= j < |rest| ==> rest[j] in rest;
  }

  function GapFrom(t: Table, start: nat): nat -> int {
    (i: nat) =>
      if i < |t.players| && start < t.numSeats
         && t.players[i].position.Some? && t.players[i].position.value < t.numSeats
      then Gap(t.numSeats, start, t.players[i].position.value) else 0
  }

  lemma SeatIsAhead(n: nat, start: nat, k: nat)
    requires start < n && k < n
    ensures (start + k) % n < n && Gap(n, start, (start + k) % n) == k
  {
    if start + k >= n {
      ModOf(1, n, start + k - n);
    }
  }

  lemma {:induction false} FilterInOrder(s: seq<nat>, keep: nat -> bool, key: nat -> int)
    requires SortedBy(s, key)
    ensures SortedBy(Filter(s, keep), key)
  {
    if s != [] {
      FilterInOrder(s[1..], keep, key);
      var rest := Filter(s[1..], keep);
      forall j | 0 <= j < |rest| ensures key(s[0]) <= key(rest[j]) {
        assert rest[j] in s[1..];
      }
    }
  }

  lemma {:induction false} FirstComesFirst(s: seq<nat>, f: nat -> bool, key: nat -> int, i: nat)
    requires SortedBy(s, key) && i in s && f(i)
    ensures First(s, f).Some? && key(First(s, f).value) <= key(i)
  {
    if !f(s[0]) {
      FirstComesFirst(s[1..], f, key, i);
    }
  }

  lemma ActingOrderInOrder(t: Table, start: nat)
    requires Seating(t) && start == StartPos(t) && start < t.numSeats
    ensures SortedBy(ActingOrder(t), GapFrom(t, start))
  {
    ActiveFromInOrder(t, start, 0, t.numSeats);
    FilterInOrder(ActivePlayers(t, start), LiveAt(t), GapFrom(t, start));
  }

  lemma UnactedIsNext(t: Table, j: nat, i: nat)
    requires Seating(t) && NextToAct(t) == Some(j) && i in ActingOrder(t) && UnactedAt(t)(i)
    ensures First(ActingOrder(t), UnactedAt(t)) == Some(j)
  {
  }

  lemma PreflopStartIsAhead(t: Table)
    requires Seating(t) && EveryPlayer(t) && HasBb(t) && SomebodyLive(t) && Sum(t.players, ActiveOne) >= 2
    requires t.board == []
    ensures t.bbPos.Some? && t.bbPos.value < t.numSeats && StartPos(t) == Ahead(t.numSeats, t.bbPos.value, 1)
  {
    PreflopStart(t);
    ModNext(t.numSeats, t.bbPos.value);
  }

  lemma NextInTurn(t: Table, start: nat, j: nat, i: nat)
    requires Seating(t) && start == StartPos(t) && start < t.numSeats && NextToAct(t) == Some(j)
    requires i < |t.players| && t.players[i].Live() && UnactedAt(t)(i)
    ensures j < |t.players| && UnactedAt(t)(j) && GapFrom(t, start)(j) <= GapFrom(t, start)(i)
  {
    ActingOrderInOrder(t, start);
    assert i in ActingOrder(t) by { ActingOrderComplete(t); }
    UnactedIsNext(t, j, i);
    FirstComesFirst(ActingOrder(t), UnactedAt(t), GapFrom(t, start), i);
  }

  /** Before the flop, of all who have not acted the one to act sits first behind the big blind. */
  lemma NextComesFirst(t: Table, j: nat, i: nat)
    requires Seating(t) && EveryPlayer(t) && HasBb(t) && SomebodyLive(t) && Sum(t.players, ActiveOne) >= 2
    requires t.board == [] && NextToAct(t) == Some(j)
    requires i < |t.players| && t.players[i].Live() && UnactedAt(t)(i)
    ensures j < |t.players| && UnactedAt(t)(j) && ActsAt(t, j) <= ActsAt(t, i)
  {
    PreflopStartIsAhead(t);
    NextInTurn(t, StartPos(t), j, i);
    TurnIsGap(t, StartPos(t), i);
    TurnIsGap(t, StartPos(t), j);
  }

  lemma TurnIsGap(t: Table, start: nat, i: nat)
    requires t.bbPos.Some? && t.bbPos.value < t.numSeats && start == Ahead(t.numSeats, t.bbPos.value, 1)
    ensures GapFrom(t, start)(i) == ActsAt(t, i)
  {
  }

  /** Nobody else sits as far behind the big blind. */
  lemma OneAtEach(t: Table, i: nat, j: nat)
    requires Seating(t) && HasBb(t) && i < |t.players| && j < |t.players|
    requires t.players[i].seated && t.players[j].seated && ActsAt(t, i) == ActsAt(t, j)
    ensures i == j
  {
  }

  /** The big blind sits farthest. */
  lemma BbComesLast(t: Table, b: nat, i: nat)
    requires Seating(t) && IsBb(t, b) && i < |t.players| && t.players[i].seated
    ensures ActsAt(t, i) <= ActsAt(t, b)
  {
  }

  /** What makes it a player's turn. */
  ghost predicate Owes(t: Table, i: nat) {
    && i < |t.players| && t.players[i].Live() && t.players[i].stack > 0
    && (HasNotActed(t.players[i]) ||
        (!NobodyRaised(t) && t.players[i].uncollected < LastRaiseSize(t)))
  }

  lemma {:induction false} LeadIsMax(t: Table, order: seq<nat>)
    requires Seating(t) && RaisersLead(t) && order == ActingOrder(t)
    ensures LastRaiser(t, order).None? <==> NobodyRaised(t)
    ensures LastRaiser(t, order).Some? ==>
      t.players[LastRaiser(t, order).value].uncollected == LastRaiseSize(t) > 0
  {
    ActingOrderComplete(t);
    var r := LastRaiser(t, order);
    if r.Some? {
      assert t.players[r.value].Live();
      assert LedBy(t, ActRaiseTo) || LedBy(t, ActBet);
      var a := if LedBy(t, ActRaiseTo) then ActRaiseTo else ActBet;
      var l: nat :| IsLead(t, l, a);
      assert l in order;
      MaxBounds(t.players, false);
    }
  }

  /** next_to_act returns a live player with chips who owes an action. */
  lemma NextOwes(t: Table, i: nat)
    requires Seating(t) && RaisersLead(t) && NextToAct(t) == Some(i)
    ensures Owes(t, i)
  {
    LeadIsMax(t, ActingOrder(t));
    assert i in ActingOrder(t);
  }

  /** And then somebody else is live too. */
  lemma NextNotAlone(t: Table, i: nat)
    requires Seating(t) && NextToAct(t) == Some(i)
    ensures exists j :: 0 <= j < |t.players| && j != i && t.players[j].Live()
  {
    var order := ActingOrder(t);
    ActingOrderComplete(t);
    assert order[0] in order && order[1] in order && order[0] != order[1];
    var j := if order[0] == i then order[1] else order[0];
    assert t.players[j].Live();
  }

  /** Everybody live with chips has put in as much as anybody live. */
  ghost predicate Closed(t: Table) {
    forall i :: 0 <= i < |t.players| && t.players[i].Live() && t.players[i].stack > 0 ==>
      t.players[i].uncollected == MaxUncollected(t.players, true)
  }

  /** When no action is owed and at least two are live, the bets are closed. */
  lemma NoneOwedIsClosed(t: Table)
    requires BettingInv(t) && NextToAct(t) == None && |ActingOrder(t)| >= 2
    ensures Closed(t)
  {
    NotPredeal(t);
    if LastRaiseSize(t) == 0 {
      AllZeroIsClosed(t);
    } else if |Filter(ActingOrder(t), ChipsAt(t))| == 0 {
      NobodyHasChips(t);
    } else {
      LeadIsMax(t, ActingOrder(t));
      if LastRaiser(t, ActingOrder(t)).Some? {
        NobodyBehind(t, ActingOrder(t));
      } else {
        NobodyUnacted(t, ActingOrder(t));
        MatchedIsClosed(t);
      }
    }
  }

  lemma AllZeroIsClosed(t: Table)
    requires EveryPlayer(t) && LastRaiseSize(t) == 0
    ensures Closed(t)
  {
    MaxBounds(t.players, false);
    MaxLiveAtMost(t);
    forall i | 0 <= i < |t.players| && t.players[i].Live() ensures t.players[i].uncollected == 0 {
      assert Sane(t.players[i]);
    }
  }

  lemma NobodyHasChips(t: Table)
    requires Seating(t) && |Filter(ActingOrder(t), ChipsAt(t))| == 0
    ensures Closed(t)
  {
    ActingOrderComplete(t);
    forall i: nat | i < |t.players| && t.players[i].Live() ensures t.players[i].stack <= 0 {
      assert i in ActingOrder(t) && i !in Filter(ActingOrder(t), ChipsAt(t));
    }
  }

  lemma MatchedIsClosed(t: Table)
    requires Matched(t) && NobodyToAct(t)
    ensures Closed(t)
  {
  }

  lemma MaxLiveAtMost(t: Table)
    ensures MaxUncollected(t.players, true) <= LastRaiseSize(t)
  {
    MaxBounds(t.players, false);
    if MaxUncollected(t.players, true) > 0 {
      var i := MaxAttained(t.players, true);
    }
  }

  lemma {:induction false} NobodyUnacted(t: Table, order: seq<nat>)
    requires Seating(t) && order == ActingOrder(t) && First(order, UnactedAt(t)).None?
    ensures NobodyToAct(t)
  {
    ActingOrderComplete(t);
    forall i: nat | i < |t.players| && t.players[i].Live() && t.players[i].stack > 0
      ensures !HasNotActed(t.players[i])
    {
      assert i in order && !UnactedAt(t)(i);
    }
  }

  lemma {:induction false} NobodyBehind(t: Table, order: seq<nat>)
    requires Seating(t) && RaisersLead(t) && order == ActingOrder(t) && LastRaiser(t, order).Some?
    requires
      var r := LastRaiser(t, order).value;
      First(Rotated(order, IndexOf(order, r)), BehindAt(t, t.players[r].uncollected)).None?
    ensures Closed(t)
  {
    var r := LastRaiser(t, order).value;
    LeadIsMax(t, order);
    RaiserIsMaxLive(t, order, r);
    forall i: nat | i < |t.players| && t.players[i].Live() && t.players[i].stack > 0
      ensures t.players[i].uncollected == t.players[r].uncollected
    {
      NotBehind(t, order, r, i);
    }
  }

  lemma RaiserIsMaxLive(t: Table, order: seq<nat>, r: nat)
    requires Seating(t) && order == ActingOrder(t) && r in order && t.players[r].uncollected == LastRaiseSize(t)
    ensures t.players[r].uncollected == MaxUncollected(t.players, true)
  {
    MaxBounds(t.players, true);
    MaxLiveAtMost(t);
  }

  lemma {:induction false} NotBehind(t: Table, order: seq<nat>, r: nat, i: nat)
    requires Seating(t) && order == ActingOrder(t) && r in order && t.players[r].uncollected == LastRaiseSize(t)
    requires First(Rotated(order, IndexOf(order, r)), BehindAt(t, t.players[r].uncollected)).None?
    requires i < |t.players| && t.players[i].Live() && t.players[i].stack > 0
    ensures t.players[i].uncollected == t.players[r].uncollected
  {
    ActingOrderComplete(t);
    assert i in Rotated(order, IndexOf(order, r));
    assert !BehindAt(t, t.players[r].uncollected)(i);
    MaxBounds(t.players, false);
  }

  /** When the big blind is the first who has not acted, everybody else with chips has. */
  lemma BbIsLastUnacted(t: Table, b: nat)
    requires BettingInv(t) && t.board == [] && IsBb(t, b)
    requires NextToAct(t) == Some(b) && HasNotActed(t.players[b])
    ensures forall i :: 0 <= i < |t.players| && i != b && t.players[i].Live() && t.players[i].stack > 0 ==>
      !HasNotActed(t.players[i])
  {
    forall i: nat | i < |t.players| && i != b && t.players[i].Live() && t.players[i].stack > 0
      ensures !HasNotActed(t.players[i])
    {
      if HasNotActed(t.players[i]) {
        NextComesFirst(t, b, i);
        BbComesLast(t, b, i);
        OneAtEach(t, i, b);
      }
    }
  }

  // The minimum raise

  lemma RaiseOrderSorted(t: Table)
    requires Seating(t)
    ensures SortedByBoth(RaiseOrder(t), ByAction(t), ByWagers(t))
  {
    var players := ActivePlayers(t, StartPos(t));
    RaiseOrderMembers(t);
    SortBySorted(players, ByWagers(t));
    SortByStable(SortBy(players, ByWagers(t)), ByAction(t), ByWagers(t));
  }

  /** The head of the raise order: the strongest kind of action, and the largest wagers among those. */
  lemma RaiseOrderHead(t: Table, i: nat)
    requires Seating(t) && i < |t.players| && t.players[i].Active()
    ensures |RaiseOrder(t)| > 0 && RaiseOrder(t)[0] < |t.players|
    ensures
      var p := t.players[RaiseOrder(t)[0]];
      p.Active() && ActionOrder(p) <= ActionOrder(t.players[i]) &&
      (ActionOrder(p) == ActionOrder(t.players[i]) ==> p.wagers >= t.players[i].wagers)
  {
    ActivePlayersComplete(t, StartPos(t));
    RaiseOrderSorted(t);
    RaiseOrderMembers(t);
    var r := RaiseOrder(t);
    assert i in r;
    var k :| 0 <= k < |r| && r[k] == i;
    assert r[0] in r;
    if k > 0 {
      assert ByAction(t)(r[0]) < ByAction(t)(r[k]) ||
        (ByAction(t)(r[0]) == ByAction(t)(r[k]) && ByWagers(t)(r[0]) <= ByWagers(t)(r[k]));
    }
  }

  lemma RaiseOrderOnce(t: Table)
    requires Seating(t)
    ensures Distinct(RaiseOrder(t))
  {
    var players := ActivePlayers(t, StartPos(t));
    ActivePlayersComplete(t, StartPos(t));
    SortByDistinct(players, ByWagers(t));
    SortByDistinct(SortBy(players, ByWagers(t)), ByAction(t));
  }

  /** Anybody but the head comes after the second. */
  lemma RaiseOrderSecond(t: Table, i: nat)
    requires Seating(t) && |RaiseOrder(t)| >= 2 && i < |t.players| && t.players[i].Active() && i != RaiseOrder(t)[0]
    ensures RaiseOrder(t)[1] < |t.players| && RaiseOrder(t)[1] != RaiseOrder(t)[0]
    ensures
      var p := t.players[RaiseOrder(t)[1]];
      p.Active() && ActionOrder(p) <= ActionOrder(t.players[i]) &&
      (ActionOrder(p) == ActionOrder(t.players[i]) ==> p.wagers >= t.players[i].wagers)
  {
    ActivePlayersComplete(t, StartPos(t));
    RaiseOrderSorted(t);
    RaiseOrderMembers(t);
    RaiseOrderOnce(t);
    var r := RaiseOrder(t);
    assert i in r;
    var k :| 0 <= k < |r| && r[k] == i;
    assert r[1] in r;
    if k > 1 {
      assert ByAction(t)(r[1]) < ByAction(t)(r[k]) ||
        (ByAction(t)(r[1]) == ByAction(t)(r[k]) && ByWagers(t)(r[1]) <= ByWagers(t)(r[k]));
    }
  }

  lemma LongRaiseOrder(t: Table, i: nat, j: nat)
    requires Seating(t) && i < |t.players| && j < |t.players| && i != j
    requires t.players[i].Active() && t.players[j].Active()
    ensures |RaiseOrder(t)| >= 2
    ensures RaiseOrder(t)[1] < |t.players| && t.players[RaiseOrder(t)[1]].Active()
  {
    ActivePlayersComplete(t, StartPos(t));
    RaiseOrderMembers(t);
    var r := RaiseOrder(t);
    assert i in r && j in r;
    var k :| 0 <= k < |r| && r[k] == i;
    var l :| 0 <= l < |r| && r[l] == j;
    assert r[1] in r;
  }

  /** The author of the leading kind of action with the largest wagers has the largest uncollected bet. */
  lemma HeadLeads(t: Table, a: LastAction)
    requires Seating(t) && EveryPlayer(t) && Leveled(t) && RaisersLead(t)
    requires LedBy(t, a) && (a == ActRaiseTo || (a == ActBet && !LedBy(t, ActRaiseTo)))
    ensures |RaiseOrder(t)| > 0 && RaiseOrder(t)[0] < |t.players|
    ensures t.players[RaiseOrder(t)[0]].last == Some(a)
    ensures t.players[RaiseOrder(t)[0]].uncollected == LastRaiseSize(t)
  {
    var l: nat :| IsLead(t, l, a);
    RaiseOrderHead(t, l);
    var h := RaiseOrder(t)[0];
    var p := t.players[h];
    assert DealtOrFolded(p) && p.Live() && Raised(p);
    MaxBounds(t.players, false);
    assert Carried(p) <= Carried(t.players[l]) && Carried(t.players[l]) <= Carried(p);
  }

  lemma PosterHead(t: Table, p: nat)
    requires Seating(t) && EveryPlayer(t) && NothingCarried(t) && NobodyRaised(t) && Poster(t, p)
    ensures |RaiseOrder(t)| > 0 && Poster(t, RaiseOrder(t)[0])
    ensures t.players[RaiseOrder(t)[0]].uncollected >= t.players[p].uncollected
  {
    RaiseOrderHead(t, p);
    var h := t.players[RaiseOrder(t)[0]];
    assert DealtOrFolded(h);
    assert Carried(h) == 0 && Carried(t.players[p]) == 0;
  }

  lemma TwoInRaiseOrder(t: Table, i: nat)
    requires Seating(t) && NextToAct(t) == Some(i)
    ensures |RaiseOrder(t)| >= 2
    ensures RaiseOrder(t)[1] < |t.players| && t.players[RaiseOrder(t)[1]].Active()
  {
    NextNotAlone(t, i);
    var j :| 0 <= j < |t.players| && j != i && t.players[j].Live();
    assert i in ActingOrder(t);
    LongRaiseOrder(t, i, j);
  }

  /** After a bet the minimum is twice that bet. */
  lemma MinRaiseAfterBet(t: Table)
    requires Seating(t) && EveryPlayer(t) && Leveled(t) && RaisersLead(t)
    requires LedBy(t, ActBet) && !LedBy(t, ActRaiseTo)
    ensures MinBetAmt(t) == Success(2 * LastRaiseSize(t))
  {
    HeadLeads(t, ActBet);
    RaiseOrderMembers(t);
  }

  /** After a raise the minimum exceeds it by as much as it exceeds the bet of the next in the raise order. */
  lemma MinRaiseAfterRaise(t: Table) returns (h: nat, s: nat)
    requires Seating(t) && EveryPlayer(t) && Leveled(t) && RaisersLead(t) && LedBy(t, ActRaiseTo)
    requires |RaiseOrder(t)| >= 2
    ensures h == RaiseOrder(t)[0] < |t.players| && s == RaiseOrder(t)[1] < |t.players| && h != s
    ensures t.players[h].last == Some(ActRaiseTo) && t.players[h].uncollected == LastRaiseSize(t)
    ensures MinBetAmt(t) == Success(LastRaiseSize(t) + (LastRaiseSize(t) - t.players[s].uncollected))
  {
    HeadLeads(t, ActRaiseTo);
    RaiseOrderMembers(t);
    RaiseOrderOnce(t);
    h, s := RaiseOrder(t)[0], RaiseOrder(t)[1];
    MinBetAboveTwo(t, RaiseOrder(t));
  }

  lemma MinBetAboveTwo(t: Table, players: seq<nat>)
    requires Indexing(t, players) && |players| >= 2 && t.players[players[0]].last == Some(ActRaiseTo)
    ensures
      var top, next := t.players[players[0]].uncollected, t.players[players[1]].uncollected;
      MinBetFrom(t, players) == Success(top + (top - next))
  {
  }

  lemma MinAboveLead(t: Table, a: LastAction)
    requires Seating(t) && EveryPlayer(t) && Leveled(t) && RaisersLead(t) && |RaiseOrder(t)| >= 2
    requires RaiseOrder(t)[1] < |t.players| && t.players[RaiseOrder(t)[1]].Active()
    requires LedBy(t, a) && (a == ActRaiseTo || (a == ActBet && !LedBy(t, ActRaiseTo)))
    ensures MinBetAmt(t).Success? && MinBetAmt(t).value >= LastRaiseSize(t)
  {
    HeadLeads(t, a);
    RaiseOrderMembers(t);
    assert t.players[RaiseOrder(t)[1]].uncollected <= LastRaiseSize(t) by {
      MaxBounds(t.players, false);
    }
  }

  lemma MinAbovePost(t: Table, p: nat)
    requires Seating(t) && EveryPlayer(t) && NothingCarried(t) && NobodyRaised(t) && Poster(t, p)
    requires LastRaiseSize(t) <= 2 * t.players[p].uncollected
    ensures MinBetAmt(t).Success? && MinBetAmt(t).value >= LastRaiseSize(t)
  {
    PosterHead(t, p);
    RaiseOrderMembers(t);
  }

  lemma MinBetExists(t: Table, i: nat)
    requires Seating(t) && NextToAct(t) == Some(i)
    ensures MinBetAmt(t).Success?
  {
    TwoInRaiseOrder(t, i);
    RaiseOrderMembers(t);
  }

  /** Whenever a raise is offered, min_bet_amt is at least the largest bet. */
  lemma MinRaiseReachesLargestBet(t: Table, i: nat)
    requires BettingInv(t) && NextToAct(t) == Some(i)
    requires i < |t.players| && IsTurnAction(t, i, KRaiseTo)
    ensures MinBetAmt(t).Success? && MinBetAmt(t).value >= LastRaiseSize(t)
  {
    TwoInRaiseOrder(t, i);
    if LedBy(t, ActRaiseTo) {
      MinAboveLead(t, ActRaiseTo);
    } else if LedBy(t, ActBet) {
      MinAboveLead(t, ActBet);
    } else {
      MinAboveSomePost(t, i);
    }
  }

  lemma MinAboveSomePost(t: Table, i: nat)
    requires BettingInv(t) && NextToAct(t) == Some(i) && !LedBy(t, ActRaiseTo) && !LedBy(t, ActBet)
    requires i < |t.players| && IsTurnAction(t, i, KRaiseTo)
    requires t.numSeats > 0 && |RaiseOrder(t)| >= 2
    ensures MinBetAmt(t).Success? && MinBetAmt(t).value >= LastRaiseSize(t)
  {
    NextOwes(t, i);
    assert NobodyRaised(t) && CanRaise(t, i);
    var p: nat :| PostStands(t, p, i);
    MinAbovePost(t, p);
  }
}
