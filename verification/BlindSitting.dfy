/** Players who asked to sit in or out when the big blind reaches them, and the blinds moving on. */
module BlindSitting {
  import opened Wrappers
  import opened Indexes
  import opened Players
  import opened Tables
  import opened Accessors
  import opened Betting
  import opened Requests
  import opened BettingSteps
  import opened Rings
  import opened Blinds
  import opened Hands
  import opened Deals
  import opened Debts
  import opened Sitting

  /**
   * set_sitting_given_blinds: from the seat after the big blind, sit out those who asked for it,
   * up to the first who stays or is waiting for the blind.
   */
  function Reached(t: Table, bb: nat, d: nat := 1): (r: seq<nat>)
    requires bb < t.numSeats && d <= t.numSeats
    ensures forall i: nat :: i in r ==> i < |t.players| && t.players[i].seated
    decreases t.numSeats - d
  {
    if d == t.numSeats then []
    else
      match FindAt(t.players, Ahead(t.numSeats, bb, d), false)
      case None => Reached(t, bb, d + 1)
      case Some(i) =>
        var p := t.players[i];
        if p.SittingOutNow() then
          (if p.playing == Some(SitInAtBlindsPending) then [i] else Reached(t, bb, d + 1))
        else if p.sitOutAtBlinds then [i] + Reached(t, bb, d + 1)
        else []
  }

  function SitAt(t: Table): nat -> seq<PlayerEvent> {
    (i: nat) =>
      if i < |t.players| && t.players[i].SittingOutNow() then [Reset, SitIn(true)] else [Reset, SitOut(true)]
  }

  function SitByBlinds(t: Table, bb: nat): seq<Event>
    requires bb < t.numSeats && 1 <= t.numSeats
  {
    EventLists(Reached(t, bb), SitAt(t))
  }

  /** The last distance the walk looks at. */
  function WalkEnd(t: Table, bb: nat, d: nat := 1): (e: nat)
    requires bb < t.numSeats && d <= t.numSeats
    ensures d <= e <= t.numSeats
    decreases t.numSeats - d
  {
    if d == t.numSeats then d
    else
      match FindAt(t.players, Ahead(t.numSeats, bb, d), false)
      case None => WalkEnd(t, bb, d + 1)
      case Some(i) =>
        var p := t.players[i];
        if p.SittingOutNow() then
          (if p.playing == Some(SitInAtBlindsPending) then d else WalkEnd(t, bb, d + 1))
        else if p.sitOutAtBlinds then WalkEnd(t, bb, d + 1)
        else d
  }

  function GapTo(t: Table, bb: nat, i: nat): nat
    requires Seating(t) && bb < t.numSeats && i < |t.players| && t.players[i].seated
  {
    Gap(t.numSeats, bb, t.players[i].position.value)
  }

  lemma {:induction false} ReachedAhead(t: Table, bb: nat, d: nat)
    requires Seating(t) && bb < t.numSeats && 1 <= d <= t.numSeats
    ensures forall i: nat :: i in Reached(t, bb, d) ==> d <= GapTo(t, bb, i)
    decreases t.numSeats - d
  {
    if d < t.numSeats {
      ReachedAhead(t, bb, d + 1);
    }
  }

  lemma {:induction false} ReachedOnce(t: Table, bb: nat, d: nat)
    requires Seating(t) && bb < t.numSeats && 1 <= d <= t.numSeats
    ensures Distinct(Reached(t, bb, d))
    decreases t.numSeats - d
  {
    if d < t.numSeats {
      ReachedOnce(t, bb, d + 1);
      ReachedAhead(t, bb, d + 1);
      var found := FindAt(t.players, Ahead(t.numSeats, bb, d), false);
      assert found.Some? ==> GapTo(t, bb, found.value) == d;
    }
  }

  /** An active player short of the end, or at the end one who waits for the blind. */
  predicate WalkReaches(t: Table, bb: nat, end: nat, i: nat)
    requires Seating(t) && bb < t.numSeats && i < |t.players| && t.players[i].seated
  {
    || (t.players[i].Active() && GapTo(t, bb, i) < end)
    || (t.players[i].playing == Some(SitInAtBlindsPending) && GapTo(t, bb, i) == end)
  }

  /** Who is reached: the active players short of the end, and at the end whoever waits for the blind. */
  lemma {:induction false} ReachedAre(t: Table, bb: nat, d: nat, i: nat)
    requires Seating(t) && bb < t.numSeats && 1 <= d <= t.numSeats
    requires i < |t.players| && t.players[i].seated && d <= GapTo(t, bb, i)
    ensures i in Reached(t, bb, d) <==> WalkReaches(t, bb, WalkEnd(t, bb, d), i)
    decreases t.numSeats - d
  {
    if d < t.numSeats {
      ReachedAhead(t, bb, d + 1);
      if GapTo(t, bb, i) == d {
        FoundAt(t, i, false);
      } else {
        ReachedAre(t, bb, d + 1, i);
      }
    }
  }

  /** Everybody reached switches between in and out, with nothing in a hand; nobody else changes. */
  ghost predicate Switched(t: Table, bb: nat, u: Table)
    requires bb < t.numSeats && 1 <= t.numSeats
  {
    && u == t.(players := u.players) && |u.players| == |t.players|
    && forall i: nat :: i < |t.players| ==>
         if i in Reached(t, bb) then Switch(t.players[i], u.players[i]) else u.players[i] == t.players[i]
  }

  ghost predicate Switch(p: PlayerState, q: PlayerState) {
    && q.stack == p.stack && q.position == p.position && q.seated == p.seated && !q.HasInHandState() && NoPresets(q)
    && q.pendingRebuy == p.pendingRebuy
    && q.playing == Some(if p.SittingOutNow() then SittingIn else SittingOut)
  }

  /** No such sit-out is refused. */
  lemma SitByBlindsGoesThrough(t: Table, bb: nat) returns (u: Table)
    requires Seating(t) && bb < t.numSeats
    ensures FireAll(t, SitByBlinds(t, bb)) == Success(u) && Switched(t, bb, u)
  {
    var s := Reached(t, bb);
    ReachedOnce(t, bb, 1);
    assert forall k :: 0 <= k < |s| ==> s[k] in s;
    forall i: nat | i < |t.players|
      ensures EffectAll(t.players[i], SitAt(t)(i)).Success?
      ensures i in s ==> Switch(t.players[i], EffectAll(t.players[i], SitAt(t)(i)).value)
    {
      ResetThenSits(t.players[i], if t.players[i].SittingOutNow() then SitIn(true) else SitOut(true));
    }
    u := FireLists(t, s, SitAt(t));
  }

  lemma SwitchedSeating(t: Table, bb: nat, u: Table)
    requires Seating(t) && bb < t.numSeats && Switched(t, bb, u)
    ensures Seating(u)
    ensures forall i :: 0 <= i < |t.players| ==>
      u.players[i].position == t.players[i].position && u.players[i].seated == t.players[i].seated
  {
  }

  /** Afterwards nobody is active between the big blind and where the walk ended. */
  lemma {:induction false} SwitchedActive(t: Table, bb: nat, u: Table, i: nat)
    requires Seating(t) && bb < t.numSeats && Switched(t, bb, u) && i < |t.players| && t.players[i].seated
    requires t.players[i].position != Some(bb)
    ensures u.players[i].Active() <==>
      || (t.players[i].Active() && GapTo(t, bb, i) >= WalkEnd(t, bb))
      || (t.players[i].playing == Some(SitInAtBlindsPending) && GapTo(t, bb, i) == WalkEnd(t, bb))
  {
    ReachedAre(t, bb, 1, i);
  }

  /** Whoever is first after the big blind now did not ask to sit out there. */
  lemma {:induction false} EndStays(t: Table, bb: nat, d: nat, i: nat)
    requires Seating(t) && bb < t.numSeats && 1 <= d <= t.numSeats
    requires i < |t.players| && t.players[i].seated && GapTo(t, bb, i) == WalkEnd(t, bb, d)
    ensures t.players[i].Active() ==> !t.players[i].sitOutAtBlinds
    decreases t.numSeats - d
  {
    if d < t.numSeats && d < WalkEnd(t, bb, d) {
      EndStays(t, bb, d + 1, i);
    } else if d < t.numSeats {
      FoundAt(t, i, false);
    }
  }

  // Blinds stay placed

  lemma FartherInArc(n: nat, sb: nat, bb: nat, x: nat, y: nat)
    requires sb < n && bb < n && x < n && y < n && sb != bb && 0 < Gap(n, sb, x) < Gap(n, sb, bb)
    ensures Gap(n, bb, y) > Gap(n, bb, x) ==>
      0 < Gap(n, sb, y) < Gap(n, sb, bb) && y == Ahead(n, sb, Gap(n, sb, y))
    ensures Gap(n, bb, y) == Gap(n, bb, x) ==> y == x
  {
  }

  lemma NewBetween(t: Table, sb: nat, bb: nat, u: Table, i: nat, j: nat)
    requires Seating(t) && Placed(t, sb, bb) && Switched(t, bb, u)
    requires i < |t.players| && u.players[i].Active() && !t.players[i].Active() && t.players[i].seated
    requires 0 < Gap(t.numSeats, sb, t.players[i].position.value) < Gap(t.numSeats, sb, bb)
    requires j < |t.players| && u.players[j].Active() && t.players[j].seated && j != i
    ensures t.players[j].position == Some(bb)
  {
    if t.players[j].position != Some(bb) {
      SwitchedActive(t, bb, u, i);
      SwitchedActive(t, bb, u, j);
      if t.players[j].Active() {
        FoundAt(t, j, true);
        FartherInArc(t.numSeats, sb, bb, t.players[i].position.value, t.players[j].position.value);
      }
    }
  }

  /** Unless only two are left, nobody sits in between the blinds. */
  lemma SitByBlindsKeepsBlinds(t: Table, sb: nat, bb: nat, u: Table)
    requires Seating(t) && Placed(t, sb, bb) && Switched(t, bb, u)
    ensures Placed(u, sb, bb) || CountOf(u.numSeats, ActiveSeat(u)) <= 2
  {
    SwitchedSeating(t, bb, u);
    var n := t.numSeats;
    if d: nat :| 0 < d < Gap(n, sb, bb) && ActiveSeat(u)(Ahead(n, sb, d)) {
      var x := Ahead(n, sb, d);
      var i := FindAt(u.players, x, true).value;
      if t.players[i].Active() {
        FoundAt(t, i, true);
      }
      forall y: nat | y < n && ActiveSeat(u)(y) ensures y == x || y == bb {
        var j := FindAt(u.players, y, true).value;
        if j != i {
          NewBetween(t, sb, bb, u, i, j);
        }
      }
      AtMostTwo(n, ActiveSeat(u), x, bb);
    }
  }

  // Moving the blinds

  lemma HasBigBlind(u: Table, bb: nat)
    requires Seating(u) && ActiveSeat(u)(bb) && u.bbPos == Some(bb)
    ensures HasBb(u)
  {
    assert IsBb(u, FindAt(u.players, bb, true).value);
  }

  /** sit_in_pending_and_move_blinds, when the blinds rotate */
  function BlindsRotate(t: Table, sb: nat, bb: nat, p: Positions, tooLong: set<nat>): seq<Event>
    requires sb < t.numSeats && bb < t.numSeats && p.btn < t.numSeats && p.bb < t.numSeats
  {
    RotationEvents(t, sb, bb, p.bb, tooLong) + SitInNewcomers(t, p.btn, p.bb) +
      [OnTable(SetBlindPos(Some(p.btn), Some(p.sb), Some(p.bb)))]
  }

  /** The blinds move on, newcomers sit in, and there is somebody to post the big blind. */
  lemma BlindsMoveOn(t: Table, sb: nat, bb: nat, tooLong: set<nat>) returns (p: Positions, u: Table)
    requires Seating(t) && OutIsIdle(t) && Placed(t, sb, bb) && CountOf(t.numSeats, ActiveSeat(t)) >= 2
    ensures Rotation(t, sb, bb) == Success(p) && Moved(t, sb, bb, p) && p.btn < t.numSeats
    ensures FireAll(t, BlindsRotate(t, sb, bb, p, tooLong)) == Success(u)
    ensures Seating(u) && HasBb(u) && Placed(u, p.sb, p.bb)
    ensures u.btnPos == Some(p.btn) && u.sbPos == Some(p.sb) && u.bbPos == Some(p.bb)
  {
    RotationMoves(t, sb, bb);
    p := Rotation(t, sb, bb).value;
    var v := RotateSits(t, sb, bb, p, tooLong);
    JoinedSeating(t, p.btn, p.bb, v);
    JoinedKeepsBlinds(t, p.btn, p.sb, p.bb, v);
    u := SetPositions(t, v, RotationEvents(t, sb, bb, p.bb, tooLong) + SitInNewcomers(t, p.btn, p.bb), p);
  }

  lemma RotateSits(t: Table, sb: nat, bb: nat, p: Positions, tooLong: set<nat>) returns (v: Table)
    requires Seating(t) && OutIsIdle(t) && sb < t.numSeats && bb < t.numSeats && p.btn < t.numSeats && p.bb < t.numSeats
    ensures FireAll(t, RotationEvents(t, sb, bb, p.bb, tooLong) + SitInNewcomers(t, p.btn, p.bb)) == Success(v)
    ensures Joined(t, p.btn, p.bb, v)
  {
    var w := RotationEventsFire(t, sb, bb, p.bb, tooLong);
    v := NewcomersSitIn(t, p.btn, p.bb, RotationEvents(t, sb, bb, p.bb, tooLong), w);
  }

  lemma SetPositions(t: Table, v: Table, events: seq<Event>, p: Positions) returns (u: Table)
    requires FireAll(t, events) == Success(v) && Seating(v) && ActiveSeat(v)(p.bb)
    ensures FireAll(t, events + [OnTable(SetBlindPos(Some(p.btn), Some(p.sb), Some(p.bb)))]) == Success(u)
    ensures u == v.(btnPos := Some(p.btn), sbPos := Some(p.sb), bbPos := Some(p.bb))
    ensures Seating(u) && HasBb(u) && (Placed(v, p.sb, p.bb) ==> Placed(u, p.sb, p.bb))
  {
    var e := OnTable(SetBlindPos(Some(p.btn), Some(p.sb), Some(p.bb)));
    FireAppend(t, events, [e]);
    FireOne(v, e);
    u := v.(btnPos := Some(p.btn), sbPos := Some(p.sb), bbPos := Some(p.bb));
    assert Seating(u);
    HasBigBlind(u, p.bb);
  }

  // And when two are left

  lemma {:induction false} CountFour(p: nat -> bool)
    ensures CountOf(4, p) == (if p(0) then 1 else 0) + (if p(1) then 1 else 0) + (if p(2) then 1 else 0)
                           + (if p(3) then 1 else 0)
  {
    assert CountOf(2, p) == CountOf(1, p) + if p(1) then 1 else 0;
    assert CountOf(1, p) == CountOf(0, p) + if p(0) then 1 else 0;
  }

  /** Somebody active between the blinds, two active in all and a newcomer: the button meets the big blind. */
  lemma ButtonRotatesBack(t: Table)
    requires t.numSeats == 4 && ActiveSeat(t)(0) && !ActiveSeat(t)(1) && !ActiveSeat(t)(2) && ActiveSeat(t)(3)
    requires ReadySeat(t)(1)
    ensures Rotation(t, 2, 0) == Failure(RotatedBack)
  {
    assert Ahead(4, 2, 1) == 3;
    ScanIs(4, 0, 1, 1, ReadySeat(t));
    ScanIs(4, 2, 1, 1, SbStop(t, 1));
    CountFour(InAt(t, 1));
    assert Button(t, 3, 1, 2) == Failure(RotatedBack);
  }
}
