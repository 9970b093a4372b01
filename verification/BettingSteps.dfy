/** Every accepted betting action keeps the invariant of a dealt hand. */
module BettingSteps {
  import opened Wrappers
  import opened Indexes
  import opened Players
  import opened Tables
  import opened Accessors
  import opened Betting

  function With(t: Table, i: nat, p: PlayerState): Table
    requires i < |t.players|
  {
    t.(players := t.players[i := p])
  }

  /** The same seat, playing state, carried wagers and chips in all, and still nothing negative. */
  ghost predicate ActedFrom(p: PlayerState, q: PlayerState) {
    && q.position == p.position && q.seated == p.seated && q.playing == p.playing
    && Carried(q) == Carried(p) && q.dead == p.dead && q.stack + q.wagers == p.stack + p.wagers
    && p.uncollected <= q.uncollected && 0 <= q.stack
  }

  /** A check, or a call of the largest live bet for as much as the player has. */
  ghost predicate MatchesBet(t: Table, p: PlayerState, q: PlayerState) {
    && ActedFrom(p, q) && q.cards == p.cards
    && (q.last == Some(ActCheck) || q.last == Some(ActCall))
    && q.uncollected <= MaxUncollected(t.players, true)
    && (q.stack > 0 ==> q.uncollected == MaxUncollected(t.players, true))
  }

  ghost predicate Folds(p: PlayerState, q: PlayerState) {
    && ActedFrom(p, q) && q.uncollected == p.uncollected
    && q.cards == [] && q.last == Some(ActFold)
  }

  /** A bet where there was none, or a raise to at least the largest bet. */
  ghost predicate TakesLead(t: Table, p: PlayerState, q: PlayerState) {
    && ActedFrom(p, q) && q.cards == p.cards
    && (q.last == Some(ActRaiseTo) || (q.last == Some(ActBet) && LastRaiseSize(t) == 0))
    && q.uncollected >= LastRaiseSize(t) && q.uncollected > 0
  }

  ghost predicate Acts(t: Table, i: nat, q: PlayerState)
    requires i < |t.players|
  {
    MatchesBet(t, t.players[i], q) || Folds(t.players[i], q) || TakesLead(t, t.players[i], q)
  }

  // The conjuncts that no action can disturb

  lemma SeatsKept(t: Table, i: nat, q: PlayerState)
    requires Seating(t) && i < |t.players| && ActedFrom(t.players[i], q)
    ensures Seating(With(t, i, q)) && SameSeats(t, With(t, i, q))
  {
  }

  lemma ActivesKept(t: Table, i: nat, q: PlayerState)
    requires i < |t.players| && ActedFrom(t.players[i], q)
    ensures Sum(With(t, i, q).players, ActiveOne) == Sum(t.players, ActiveOne)
    ensures forall b :: IsBb(With(t, i, q), b) <==> IsBb(t, b)
  {
    SumUpdate(t.players, i, q, ActiveOne);
  }

  lemma PlayersKept(t: Table, i: nat, q: PlayerState)
    requires EveryPlayer(t) && Owes(t, i) && Acts(t, i, q)
    ensures EveryPlayer(With(t, i, q))
  {
    assert Sane(t.players[i]) && DealtOrFolded(t.players[i]);
    assert Sane(q) && DealtOrFolded(q);
  }

  lemma LevelKept(t: Table, i: nat, q: PlayerState)
    requires Leveled(t) && Owes(t, i) && Acts(t, i, q)
    ensures Leveled(With(t, i, q))
  {
    assert Contender(t.players[i]);
  }

  lemma CarryKept(t: Table, i: nat, q: PlayerState)
    requires NothingCarried(t) && Owes(t, i) && Acts(t, i, q)
    ensures NothingCarried(With(t, i, q))
  {
  }

  // Maxima

  lemma {:induction false} MatchKeepsMax(t: Table, i: nat, q: PlayerState, liveOnly: bool)
    requires EveryPlayer(t) && Owes(t, i) && MatchesBet(t, t.players[i], q)
    ensures MaxUncollected(With(t, i, q).players, liveOnly) == MaxUncollected(t.players, liveOnly)
  {
    var ps, qs := t.players, With(t, i, q).players;
    MaxBounds(ps, liveOnly);
    MaxLiveAtMost(t);
    var m := MaxUncollected(ps, liveOnly);
    if m > 0 {
      var j := MaxAttained(ps, liveOnly);
      assert Counted(qs[j], liveOnly) && qs[j].uncollected == m;
    }
    MaxIs(qs, liveOnly, m);
  }

  lemma FoldKeepsMax(t: Table, i: nat, q: PlayerState)
    requires EveryPlayer(t) && Owes(t, i) && Folds(t.players[i], q)
    ensures LastRaiseSize(With(t, i, q)) == LastRaiseSize(t)
    ensures MaxUncollected(With(t, i, q).players, true) <= MaxUncollected(t.players, true)
  {
    var ps, qs := t.players, With(t, i, q).players;
    MaxBounds(ps, false);
    MaxBounds(ps, true);
    if LastRaiseSize(t) > 0 {
      var j := MaxAttained(ps, false);
      assert Counted(qs[j], false) && qs[j].uncollected == LastRaiseSize(t);
    }
    MaxIs(qs, false, LastRaiseSize(t));
    if MaxUncollected(qs, true) > 0 {
      var j := MaxAttained(qs, true);
      assert Counted(ps[j], true);
    }
  }

  lemma LeadSetsMax(t: Table, i: nat, q: PlayerState)
    requires EveryPlayer(t) && Owes(t, i) && TakesLead(t, t.players[i], q)
    ensures LastRaiseSize(With(t, i, q)) == q.uncollected
  {
    var qs := With(t, i, q).players;
    MaxBounds(t.players, false);
    assert Counted(qs[i], false) && qs[i].uncollected == q.uncollected;
    MaxIs(qs, false, q.uncollected);
  }

  // Raisers

  /** Whoever has the turn does not lead. */
  lemma OwingIsNotLead(t: Table, i: nat, a: LastAction)
    requires Owes(t, i) && (a == ActRaiseTo || a == ActBet)
    ensures !IsLead(t, i, a)
  {
  }

  lemma LeadsKept(t: Table, i: nat, q: PlayerState, a: LastAction)
    requires Owes(t, i) && (a == ActRaiseTo || a == ActBet) && LedBy(t, a)
    requires LastRaiseSize(With(t, i, q)) == LastRaiseSize(t)
    ensures LedBy(With(t, i, q), a)
  {
    var l: nat :| IsLead(t, l, a);
    OwingIsNotLead(t, i, a);
    assert IsLead(With(t, i, q), l, a);
  }

  lemma RaisersKept(t: Table, i: nat, q: PlayerState)
    requires RaisersLead(t) && Owes(t, i) && (MatchesBet(t, t.players[i], q) || Folds(t.players[i], q))
    requires LastRaiseSize(With(t, i, q)) == LastRaiseSize(t)
    ensures RaisersLead(With(t, i, q))
    ensures NobodyRaised(With(t, i, q)) <==> NobodyRaised(t)
  {
    var u := With(t, i, q);
    if LedBy(t, ActRaiseTo) { LeadsKept(t, i, q, ActRaiseTo); }
    if LedBy(t, ActBet) { LeadsKept(t, i, q, ActBet); }
    assert forall j :: 0 <= j < |u.players| && j != i ==> u.players[j] == t.players[j];
    assert !Raised(q);
  }

  lemma NewLeader(t: Table, i: nat, q: PlayerState)
    requires EveryPlayer(t) && RaisersLead(t) && Owes(t, i) && TakesLead(t, t.players[i], q)
    ensures RaisersLead(With(t, i, q)) && !NobodyRaised(With(t, i, q))
  {
    var u := With(t, i, q);
    LeadSetsMax(t, i, q);
    assert u.players[i].Live() && Raised(u.players[i]);
    if q.last == Some(ActRaiseTo) {
      assert IsLead(u, i, ActRaiseTo);
    } else {
      assert IsLead(u, i, ActBet);
      assert forall j :: 0 <= j < |u.players| && j != i ==> u.players[j] == t.players[j];
    }
  }

  // Without a raise

  lemma MatchedKept(t: Table, i: nat, q: PlayerState)
    requires EveryPlayer(t) && Matched(t) && Owes(t, i) && (MatchesBet(t, t.players[i], q) || Folds(t.players[i], q))
    ensures Matched(With(t, i, q))
  {
    if MatchesBet(t, t.players[i], q) {
      MatchKeepsMax(t, i, q, true);
    } else {
      FoldKeepsMax(t, i, q);
      MaxBounds(With(t, i, q).players, true);
    }
  }

  /** A post stands for the others until its owner acts, who then was the first to act. */
  lemma PostKept(t: Table, i: nat, q: PlayerState, j: nat)
    requires BettingInv(t) && t.board == [] && NextToAct(t) == Some(i) && Owes(t, i) && NobodyRaised(t) && PostsCover(t)
    requires ActedFrom(t.players[i], q) && LastRaiseSize(With(t, i, q)) == LastRaiseSize(t)
    requires j != i && CanRaise(With(t, i, q), j)
    ensures exists p: nat :: PostStands(With(t, i, q), p, j)
  {
    assert CanRaise(t, j);
    var p: nat :| PostStands(t, p, j);
    NextComesFirst(t, i, j);
    if p == i {
      OneAtEach(t, i, j);
    }
    StillStands(t, i, q, p, j);
  }

  lemma StillStands(t: Table, i: nat, q: PlayerState, p: nat, j: nat)
    requires PostStands(t, p, j) && i < |t.players| && p != i && j < |t.players| && j != i
    requires LastRaiseSize(With(t, i, q)) == LastRaiseSize(t)
    ensures PostStands(With(t, i, q), p, j)
  {
  }

  lemma PreflopKept(t: Table, i: nat, q: PlayerState)
    requires BettingInv(t) && t.board == [] && NextToAct(t) == Some(i) && Owes(t, i)
    requires MatchesBet(t, t.players[i], q) || Folds(t.players[i], q)
    requires LastRaiseSize(With(t, i, q)) == LastRaiseSize(t)
    requires NobodyRaised(With(t, i, q)) <==> NobodyRaised(t)
    ensures Preflop(With(t, i, q))
  {
    CarryKept(t, i, q);
    if NobodyRaised(t) {
      forall j: nat | CanRaise(With(t, i, q), j) ensures exists p: nat :: PostStands(With(t, i, q), p, j) {
        PostKept(t, i, q, j);
      }
    }
  }

  lemma PreflopRaised(t: Table, i: nat, q: PlayerState)
    requires Preflop(t) && Owes(t, i) && TakesLead(t, t.players[i], q)
    requires !NobodyRaised(With(t, i, q))
    ensures Preflop(With(t, i, q))
  {
    CarryKept(t, i, q);
  }

  lemma SomebodyLeft(t: Table, i: nat, q: PlayerState)
    requires Seating(t) && NextToAct(t) == Some(i) && i < |t.players|
    ensures SomebodyLive(With(t, i, q))
  {
    NextNotAlone(t, i);
    var j :| 0 <= j < |t.players| && j != i && t.players[j].Live();
    assert With(t, i, q).players[j].Live();
  }

  /** The player whose turn it is checks, calls, folds, bets or raises: the invariant holds again. */
  lemma ActionKeepsInvariant(t: Table, i: nat, q: PlayerState)
    requires BettingInv(t) && NextToAct(t) == Some(i) && i < |t.players| && Acts(t, i, q)
    ensures BettingInv(With(t, i, q))
  {
    NextOwes(t, i);
    SeatsKept(t, i, q);
    ActivesKept(t, i, q);
    PlayersKept(t, i, q);
    LevelKept(t, i, q);
    SomebodyLeft(t, i, q);
    if TakesLead(t, t.players[i], q) {
      NewLeader(t, i, q);
      if t.board == [] {
        PreflopRaised(t, i, q);
      }
    } else {
      if MatchesBet(t, t.players[i], q) {
        MatchKeepsMax(t, i, q, false);
      } else {
        FoldKeepsMax(t, i, q);
      }
      RaisersKept(t, i, q);
      if NobodyRaised(t) {
        MatchedKept(t, i, q);
      }
      if t.board == [] {
        PreflopKept(t, i, q);
      }
    }
    var b :| IsBb(t, b);
    assert IsBb(With(t, i, q), b);
  }
}
