/** The end of a hand: uncalled bets back, pots paid, and everything reset. */
module Settlement {
  import opened Wrappers
  import opened Indexes
  import opened Players
  import opened Tables
  import opened Accessors
  import opened Betting
  import opened BettingSteps
  import opened Requests
  import opened OutOfTurn
  import opened Streets
  import opened Hands
  import opened Pots
  import opened Showdown

  function AwardEvents(awards: seq<Award>): seq<Event> {
    if awards == [] then []
    else AwardEvents(awards[..|awards| - 1]) + [OnPlayer(awards[|awards| - 1].player, Win(awards[|awards| - 1].amt))]
  }

  function Everybody(t: Table): seq<nat>
    requires t.numSeats > 0
  {
    ActivePlayers(t, StartPos(t))
  }

  /** end_hand */
  function EndHand(t: Table, rank: nat -> int): Result<Table, Error>
    requires t.numSeats > 0
  {
    match FireAll(t, ReturnUncalled(t))
    case Failure(error) => Failure(error)
    case Success(r) => if r.numSeats > 0 then Settle(r, rank) else Failure(ImpossibleGameState)
  }

  /** The rest of end_hand, once uncalled bets are back. */
  function Settle(t: Table, rank: nat -> int): Result<Table, Error>
    requires t.numSeats > 0
  {
    match AwardsFor(t, rank)
    case Failure(error) => Failure(error)
    case Success(awards) =>
      if SumAwards(awards) != CurrentPot(t) then Failure(WinsDoNotAddUp) else PayOut(t, awards)
  }

  /** The WIN events, then a RESET for every active player. */
  function PayOut(t: Table, awards: seq<Award>): Result<Table, Error> {
    match FireAll(t, AwardEvents(awards))
    case Failure(error) => Failure(error)
    case Success(paid) =>
      if paid.numSeats > 0 then FireAll(paid, EventEach(Everybody(paid), Reset)) else Failure(ImpossibleGameState)
  }

  // Which pots are contested

  /** Somebody still in has more in than every all-in player who is short of the top. */
  ghost predicate TopIsContested(t: Table)
    requires t.numSeats > 0
  {
    exists i :: 0 <= i < |t.players| && t.players[i].Live() && Tops(t, i)
  }

  ghost predicate Tops(t: Table, i: nat)
    requires t.numSeats > 0 && i < |t.players|
  {
    && 0 < t.players[i].wagers
    && forall j: nat :: j < |t.players| && t.players[j].Active() && MemberAt(t)(j) ==>
         t.players[j].wagers < t.players[i].wagers
  }

  /** That is, more than the last of the all-in amounts. */
  lemma TopsIsAboveLevels(t: Table, i: nat)
    requires Seating(t) && i < |t.players|
    ensures Tops(t, i) <==> t.players[i].wagers > LastOf(AllLevels(t))
  {
    LevelsBound(t);
    if AllLevels(t) != [] {
      var j := LastLevelHeld(t);
    }
  }

  lemma LastLevelHeld(t: Table) returns (j: nat)
    requires Seating(t) && AllLevels(t) != []
    ensures j < |t.players| && t.players[j].Active() && MemberAt(t)(j) && t.players[j].wagers == LastOf(AllLevels(t))
    ensures t.players[j].wagers > 0
  {
    ActivePlayersComplete(t, StartPos(t));
    j := LevelHasMember(t, |AllLevels(t)| - 1);
  }

  lemma LevelsBound(t: Table)
    requires Seating(t)
    ensures forall j: nat :: j < |t.players| && t.players[j].Active() && MemberAt(t)(j) ==>
      t.players[j].wagers <= LastOf(AllLevels(t))
  {
    AllLevelsIncrease(t);
    ActivePlayersComplete(t, StartPos(t));
    forall j: nat | j < |t.players| && t.players[j].Active() && MemberAt(t)(j)
      ensures t.players[j].wagers <= LastOf(AllLevels(t))
    {
      MemberHasLevel(t, j);
      LevelIsAtMostLast(AllLevels(t), t.players[j].wagers);
    }
  }

  lemma ContestedBy(t: Table, pot: Pot, i: nat)
    requires Seating(t) && i < |t.players| && t.players[i].Live() && i in pot.contributors
    ensures Contenders(ActingOrder(t), pot) != []
  {
    ActingOrderComplete(t);
    assert i in Contenders(ActingOrder(t), pot);
  }

  /** A side pot is contested by the player whose all-in it is. */
  lemma LowerPotContested(t: Table, x: nat)
    requires Seating(t) && EveryPlayer(t) && x < |AllLevels(t)| && x < |SidePots(t)|
    ensures Contenders(ActingOrder(t), SidePots(t)[x]) != []
  {
    var i := LevelHasMember(t, x);
    ActivePlayersComplete(t, StartPos(t));
    assert DealtOrFolded(t.players[i]);
    PotFloor(t, x);
    AllLevelsIncrease(t);
    assert Floor(t, x) < AllLevels(t)[x];
    ContestedBy(t, SidePots(t)[x], i);
  }

  lemma TopPotContested(t: Table)
    requires Seating(t)
    ensures Contenders(ActingOrder(t), TopPot(t)) != [] <==> TopIsContested(t)
  {
    ActingOrderComplete(t);
    ActivePlayersComplete(t, StartPos(t));
    var contenders := Contenders(ActingOrder(t), TopPot(t));
    if contenders != [] {
      assert contenders[0] in contenders;
      assert t.players[contenders[0]].Live();
      TopsIsAboveLevels(t, contenders[0]);
    }
    if TopIsContested(t) {
      var i: nat :| i < |t.players| && t.players[i].Live() && Tops(t, i);
      TopsIsAboveLevels(t, i);
      ContestedBy(t, TopPot(t), i);
    }
  }

  /** All pots are contested exactly when the pot on top is, or is empty. */
  lemma AllContested(t: Table)
    requires Seating(t) && EveryPlayer(t)
    ensures Contested(ActingOrder(t), SidePots(t)) <==> (CurrentPot(t) == 0 || TopIsContested(t))
  {
    var pots := SidePots(t);
    var n := |AllLevels(t)|;
    TopPotContested(t);
    TopPotEmpty(t);
    PotsLength(t);
    forall x: nat | x < n ensures Contenders(ActingOrder(t), pots[x]) != [] {
      LowerPotContested(t, x);
    }
    if TopPot(t).amt != 0 {
      assert pots[n] == TopPot(t);
    }
  }

  lemma {:induction false} PotsLength(t: Table)
    requires t.numSeats > 0
    ensures |PotsUpTo(t, AllLevels(t))| == |AllLevels(t)|
    ensures |SidePots(t)| == |AllLevels(t)| + if TopPot(t).amt != 0 then 1 else 0
  {
    AsManyPots(t, AllLevels(t));
  }

  // When there is nothing to win

  lemma {:induction false} SumOfAtLeast(s: seq<nat>, f: nat -> int, i: nat)
    requires i in s && forall j :: j in s ==> 0 <= f(j)
    ensures f(i) <= SumOf(s, f)
  {
    SumOfNonNegative(s[1..], f);
    if i != s[0] {
      SumOfAtLeast(s[1..], f, i);
    }
  }

  lemma NoNegativeWagers(t: Table)
    requires Seating(t) && EveryPlayer(t)
    ensures forall i :: i in Actives(t) ==> 0 <= WagerAt(t)(i) && 0 <= DeadAt(t)(i)
  {
    forall i | i in Actives(t) ensures 0 <= WagerAt(t)(i) && 0 <= DeadAt(t)(i) {
      assert Sane(t.players[i]);
    }
  }

  lemma SlicePositive(t: Table, lo: int, hi: int, i: nat)
    requires t.numSeats > 0 && i in Actives(t) && lo < hi <= WagerAt(t)(i)
    ensures Layer(t, lo, hi) > 0
  {
    forall j | j in Actives(t) ensures 0 <= SliceAt(t, lo, hi)(j) {
      assert Min(WagerAt(t)(j), lo) <= Min(WagerAt(t)(j), hi);
    }
    SumOfAtLeast(Actives(t), SliceAt(t, lo, hi), i);
  }

  lemma TopLayerPositive(t: Table, lo: int)
    requires t.numSeats > 0 && lo < TopWager(t) && 0 < TopWager(t)
    ensures Layer(t, lo, TopWager(t)) > 0
  {
    MaxOfBounds(Actives(t), WagerAt(t));
    var i :| i in Actives(t) && WagerAt(t)(i) == TopWager(t);
    SlicePositive(t, lo, TopWager(t), i);
  }

  /** The pot on top is empty only when there is nothing in the middle. */
  lemma TopPotEmpty(t: Table)
    requires Seating(t) && EveryPlayer(t)
    ensures TopPot(t).amt == 0 <==> CurrentPot(t) == 0
  {
    NoNegativeWagers(t);
    LayerToTop(t);
    SumOfNonNegative(Actives(t), DeadAt(t));
    LastBelowTop(t);
    if TopWager(t) > 0 {
      TopLayerPositive(t, 0);
      TopLayerPositive(t, LastOf(AllLevels(t)));
    }
  }

  // Chips

  function CommittedOf(p: PlayerState): int { p.wagers + p.dead }

  lemma {:induction false} SumOverBelow(t: Table, n: nat)
    requires n <= |t.players|
    ensures SumOf(Below(n), ContributedAt(t)) == Sum(t.players[..n], CommittedOf)
    decreases n
  {
    if n > 0 {
      SumOverBelow(t, n - 1);
      assert Below(n) == Below(n - 1) + [n - 1];
      SumOfSnoc(Below(n - 1), n - 1, ContributedAt(t));
      assert t.players[..n][..n - 1] == t.players[..n - 1] && t.players[..n][n - 1] == t.players[n - 1];
      assert WagerAt(t)(n - 1) == t.players[n - 1].wagers && DeadAt(t)(n - 1) == t.players[n - 1].dead;
    }
  }

  function ActiveAt(t: Table): nat -> bool {
    (i: nat) => i < |t.players| && t.players[i].Active()
  }

  lemma ActivesAre(t: Table)
    requires Seating(t)
    ensures SumOf(Actives(t), ContributedAt(t)) == SumOf(Filter(Below(|t.players|), ActiveAt(t)), ContributedAt(t))
  {
    var all := Below(|t.players|);
    ActivePlayersComplete(t, StartPos(t));
    FilterDistinct(all, ActiveAt(t));
    forall i: nat ensures i in Actives(t) <==> i in Filter(all, ActiveAt(t)) {
      if i < |t.players| {
        assert all[i] in all;
      }
    }
    SumOfPermuted(Actives(t), Filter(all, ActiveAt(t)), ContributedAt(t));
  }

  /** The money in the middle is everybody's wagers and dead money. */
  lemma CurrentPotIsCommitted(t: Table)
    requires Seating(t) && OutIsIdle(t)
    ensures CurrentPot(t) == Sum(t.players, CommittedOf)
  {
    var all := Below(|t.players|);
    ActivesAre(t);
    forall i | i in all && !ActiveAt(t)(i) ensures ContributedAt(t)(i) == 0 {
      var p := t.players[i];
      assert !p.Active() && !p.HasInHandState();
      assert WagerAt(t)(i) == p.wagers && DeadAt(t)(i) == p.dead;
    }
    SumOfFiltered(all, ActiveAt(t), ContributedAt(t));
    SumOverBelow(t, |t.players|);
    assert t.players[..|t.players|] == t.players;
  }

  lemma {:induction false} SumAdds(ps: seq<PlayerState>)
    ensures Sum(ps, StackOf) + Sum(ps, CommittedOf) == Sum(ps, ChipsOf)
    decreases |ps|
  {
    if ps != [] {
      SumAdds(ps[..|ps| - 1]);
    }
  }

  // Paying out

  /** u is t with the awards added to the stacks. */
  ghost predicate Paid(t: Table, u: Table, awards: seq<Award>) {
    && u == t.(players := u.players) && |u.players| == |t.players|
    && forall i: nat :: i < |t.players| ==>
         u.players[i] == t.players[i].(stack := t.players[i].stack + AwardedTo(awards, i))
  }

  lemma PaidNext(t: Table, v: Table, awards: seq<Award>, a: Award)
    requires Paid(t, v, awards) && a.player < |t.players|
    ensures Paid(t, With(v, a.player, v.players[a.player].(stack := v.players[a.player].stack + a.amt)), awards + [a])
  {
    forall i ensures AwardedTo(awards + [a], i) == AwardedTo(awards, i) + if a.player == i then a.amt else 0 {
      assert (awards + [a])[..|awards|] == awards;
    }
  }

  lemma AwardFires(t: Table, i: nat, amt: int) returns (u: Table)
    requires i < |t.players|
    ensures FireAll(t, [OnPlayer(i, Win(amt))]) == Success(u)
    ensures u == With(t, i, t.players[i].(stack := t.players[i].stack + amt))
    ensures Sum(u.players, StackOf) == Sum(t.players, StackOf) + amt
  {
    var q := t.players[i].(stack := t.players[i].stack + amt);
    FirePlayer(t, i, Win(amt));
    SumUpdate(t.players, i, q, StackOf);
    u := With(t, i, q);
  }

  lemma {:induction false} AwardsFire(t: Table, awards: seq<Award>) returns (u: Table)
    requires forall k :: 0 <= k < |awards| ==> awards[k].player < |t.players|
    ensures FireAll(t, AwardEvents(awards)) == Success(u) && Paid(t, u, awards)
    ensures Sum(u.players, StackOf) == Sum(t.players, StackOf) + SumAwards(awards)
    decreases |awards|
  {
    if awards == [] {
      u := t;
    } else {
      var n := |awards| - 1;
      var v := AwardsFire(t, awards[..n]);
      u := AwardFiresNext(t, v, awards[..n], awards[n]);
      assert awards == awards[..n] + [awards[n]];
    }
  }

  lemma {:induction false} AwardFiresNext(t: Table, v: Table, awards: seq<Award>, a: Award) returns (u: Table)
    requires FireAll(t, AwardEvents(awards)) == Success(v) && Paid(t, v, awards) && a.player < |t.players|
    ensures FireAll(t, AwardEvents(awards + [a])) == Success(u) && Paid(t, u, awards + [a])
    ensures Sum(u.players, StackOf) == Sum(v.players, StackOf) + a.amt
  {
    assert (awards + [a])[..|awards|] == awards;
    FireAppend(t, AwardEvents(awards), [OnPlayer(a.player, Win(a.amt))]);
    PaidNext(t, v, awards, a);
    u := AwardFires(v, a.player, a.amt);
  }

  /** Nothing of the hand is left at anybody's place. */
  ghost predicate Cleared(t: Table) {
    forall i :: 0 <= i < |t.players| ==> !t.players[i].HasInHandState()
  }

  /** The RESETs, player by player. */
  lemma ResetsFire(t: Table) returns (u: Table)
    requires Seating(t)
    ensures FireAll(t, EventEach(Everybody(t), Reset)) == Success(u)
    ensures u == t.(players := u.players) && |u.players| == |t.players|
    ensures forall k: nat :: k < |t.players| ==>
      u.players[k] == if t.players[k].Active() then Effect(t.players[k], Reset).value else t.players[k]
  {
    ActivePlayersComplete(t, StartPos(t));
    var s := Everybody(t);
    assert forall k :: 0 <= k < |s| ==> s[k] in s;
    u := FireEach(t, s, Reset);
    forall k: nat | k < |t.players|
      ensures u.players[k] == if t.players[k].Active() then Effect(t.players[k], Reset).value else t.players[k]
    {
      assert Got(t.players[k], u.players[k], Reset, k in s);
    }
  }

  lemma ResetLeaves(p: PlayerState)
    ensures !Effect(p, Reset).value.HasInHandState() && Effect(p, Reset).value.stack == p.stack
  {
  }

  lemma ResetsClear(t: Table) returns (u: Table)
    requires Seating(t) && OutIsIdle(t)
    ensures FireAll(t, EventEach(Everybody(t), Reset)) == Success(u)
    ensures Cleared(u) && |u.players| == |t.players|
    ensures forall i :: 0 <= i < |t.players| ==> u.players[i].stack == t.players[i].stack
  {
    u := ResetsFire(t);
    forall i: nat | i < |t.players|
      ensures !u.players[i].HasInHandState() && u.players[i].stack == t.players[i].stack
    {
      ResetLeaves(t.players[i]);
    }
  }

  lemma PaidKeepsSeats(t: Table, u: Table, awards: seq<Award>)
    requires Seating(t) && OutIsIdle(t) && Paid(t, u, awards)
    ensures Seating(u) && OutIsIdle(u)
  {
    forall i: nat | i < |u.players| && !u.players[i].Active() ensures !u.players[i].HasInHandState() {
      assert !t.players[i].Active();
    }
  }

  // Settlement

  /** One player left, nothing to win, or a pot on top that somebody still in has a share of. */
  ghost predicate Payable(t: Table)
    requires t.numSeats > 0
  {
    |ActingOrder(t)| == 1 || CurrentPot(t) == 0 || TopIsContested(t)
  }

  /** What is awarded is what is in the middle; only an uncontested pot can keep that from happening. */
  lemma AwardsAreExact(t: Table, rank: nat -> int)
    requires Seating(t) && EveryPlayer(t)
    ensures AwardsFor(t, rank).Success? <==> Payable(t)
    ensures AwardsFor(t, rank).Failure? ==> AwardsFor(t, rank).error == NoWinner
    ensures AwardsFor(t, rank).Success? ==> SumAwards(AwardsFor(t, rank).value) == CurrentPot(t)
  {
    NoNegativeWagers(t);
    PotsAddUp(t);
    if |ActingOrder(t)| == 1 {
      SoleAwardsSum(ActingOrder(t)[0], SidePots(t));
    } else {
      ShowdownNeedsContest(ActingOrder(t), SidePots(t), rank);
      AllContested(t);
      if AwardsFor(t, rank).Success? {
        ShowdownAwardsSum(ActingOrder(t), SidePots(t), rank);
      }
    }
  }

  lemma AwardsGoToPlayers(t: Table, rank: nat -> int)
    requires Seating(t) && AwardsFor(t, rank).Success?
    ensures forall k :: 0 <= k < |AwardsFor(t, rank).value| ==> AwardsFor(t, rank).value[k].player < |t.players|
  {
    var order := ActingOrder(t);
    if |order| == 1 {
      SoleAwardsSum(order[0], SidePots(t));
      assert order[0] in order;
    } else {
      ShowdownPaysOrder(order, SidePots(t), rank);
    }
  }

  lemma {:induction false} PayOutSettles(t: Table, awards: seq<Award>)
    requires Seating(t) && OutIsIdle(t) && SumAwards(awards) == CurrentPot(t)
    requires forall k :: 0 <= k < |awards| ==> awards[k].player < |t.players|
    ensures PayOut(t, awards).Success? && Settled(t, PayOut(t, awards).value, awards)
  {
    var paid := AwardsFire(t, awards);
    PaidKeepsSeats(t, paid, awards);
    var u := ResetsClear(paid);
    CurrentPotIsCommitted(t);
    SumAdds(t.players);
    SumSame(paid.players, u.players, StackOf);
  }

  /** Settling pays every chip in the middle into the stacks and clears the table. */
  lemma SettleIsExact(t: Table, rank: nat -> int)
    requires Seating(t) && EveryPlayer(t)
    ensures Settle(t, rank).Success? <==> Payable(t)
    ensures Settle(t, rank).Failure? ==> Settle(t, rank).error == NoWinner
    ensures Settle(t, rank).Success? ==>
      AwardsFor(t, rank).Success? && Settled(t, Settle(t, rank).value, AwardsFor(t, rank).value)
  {
    AwardsAreExact(t, rank);
    if AwardsFor(t, rank).Success? {
      AwardsGoToPlayers(t, rank);
      EveryoneOutIsIdle(t);
      PayOutSettles(t, AwardsFor(t, rank).value);
    }
  }

  /** The hand is over: all chips are in stacks, each stack grown by its awards, and nothing is left in play. */
  ghost predicate Settled(t: Table, u: Table, awards: seq<Award>) {
    && |u.players| == |t.players|
    && Cleared(u) && Sum(u.players, StackOf) == Total(t)
    && forall i: nat :: i < |t.players| ==>
         u.players[i].stack == t.players[i].stack + AwardedTo(awards, i)
  }
}
