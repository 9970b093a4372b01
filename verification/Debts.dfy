/** What the players at skipped seats come to owe, and who is bumped from there. */
module Debts {
  import opened Wrappers
  import opened Indexes
  import opened Players
  import opened Tables
  import opened Accessors
  import opened Betting
  import opened BettingSteps
  import opened Requests
  import opened OutOfTurn
  import opened Streets
  import opened Rings
  import opened Blinds

  /** Everybody with that position, seated or not. */
  function AllAt(ps: seq<PlayerState>, pos: nat, k: nat := 0): (r: seq<nat>)
    requires k <= |ps|
    ensures forall i: nat :: i in r <==> k <= i < |ps| && ps[i].position == Some(pos)
    decreases |ps| - k
  {
    if k == |ps| then []
    else (if ps[k].position == Some(pos) then [k] else []) + AllAt(ps, pos, k + 1)
  }

  function OwesNoBb(t: Table): nat -> bool {
    (i: nat) => i < |t.players| && !t.players[i].owesBb
  }

  function OwesNothing(t: Table): nat -> bool {
    (i: nat) => i < |t.players| && !t.players[i].owesBb && !t.players[i].owesSb
  }

  /** bb_owers_from_positions */
  function BbOwers(t: Table, positions: seq<nat>): seq<Event> {
    if positions == [] then []
    else EventEach(Filter(AllAt(t.players, positions[0]), OwesNoBb(t)), OweBb(true)) + BbOwers(t, positions[1..])
  }

  /** sb_owers_from_positions */
  function SbOwers(t: Table, positions: seq<nat>, skippedBb: seq<nat>): seq<Event> {
    if positions == [] then []
    else
      (if positions[0] in skippedBb then []
       else EventEach(Filter(AllAt(t.players, positions[0]), OwesNothing(t)), OweSb(true)))
      + SbOwers(t, positions[1..], skippedBb)
  }

  /** Whoever is out and has been for too many orbits is bumped from a skipped seat. */
  function Bumps(t: Table, positions: seq<nat>, tooLong: set<nat>): seq<Event> {
    if positions == [] then []
    else Bumps(t, positions[..|positions| - 1], tooLong) + BumpAt(t, positions[|positions| - 1], tooLong)
  }

  function BumpAt(t: Table, pos: nat, tooLong: set<nat>): seq<Event> {
    match FindAt(t.players, pos, false)
    case None => []
    case Some(i) => if i in tooLong && !t.players[i].Active() then [OnPlayer(i, LeaveSeat(true))] else []
  }

  /** orbit_bumps_for_skipped_positions, but for the orbits it counts */
  method OrbitBumps(t: Table, positions: seq<nat>, tooLong: set<nat>) returns (events: seq<Event>)
    ensures events == Bumps(t, positions, tooLong)
  {
    events := [];
    var k := 0;
    while k < |positions|
      invariant 0 <= k <= |positions| && events == Bumps(t, positions[..k], tooLong)
    {
      assert positions[..k + 1][..k] == positions[..k];
      var found := FindAt(t.players, positions[k], false);
      if found.Some? && found.value in tooLong && !t.players[found.value].Active() {
        events := events + [OnPlayer(found.value, LeaveSeat(true))];
      }
      k := k + 1;
    }
    assert positions[..k] == positions;
  }

  // The rotation with its events

  function SkippedBb(t: Table, bb: nat): seq<nat>
    requires bb < t.numSeats
  {
    Skipped(t.numSeats, bb, Scan(t.numSeats, bb, 1, ReadySeat(t)))
  }

  function SkippedSb(t: Table, sb: nat, nextBb: nat): seq<nat>
    requires sb < t.numSeats
  {
    Skipped(t.numSeats, sb, Scan(t.numSeats, sb, 1, SbStop(t, nextBb)))
  }

  /** What the rotation fires before anybody sits in. */
  function RotationEvents(t: Table, sb: nat, bb: nat, nextBb: nat, tooLong: set<nat>): seq<Event>
    requires sb < t.numSeats && bb < t.numSeats
  {
    BbOwers(t, SkippedBb(t, bb)) + Bumps(t, SkippedBb(t, bb), tooLong) +
      SbOwers(t, SkippedSb(t, sb, nextBb), SkippedBb(t, bb))
  }

  /** standard_blind_rotation */
  method StandardBlindRotation(t: Table, sb: nat, bb: nat, tooLong: set<nat>)
      returns (events: seq<Event>, r: Result<Positions, Error>)
    requires sb < t.numSeats && bb < t.numSeats && 2 <= t.numSeats
    ensures r == Rotation(t, sb, bb)
    ensures r.Success? ==> events == RotationEvents(t, sb, bb, r.value.bb, tooLong)
  {
    events := [];
    var nextBb, skippedBb := FindNextBb(t, bb);
    if nextBb.Failure? {
      return [], Failure(nextBb.error);
    }
    events := BbOwers(t, skippedBb);
    var bumps := OrbitBumps(t, skippedBb, tooLong);
    events := events + bumps;
    var nextSb, skippedSb := FindNextSb(t, sb, nextBb.value);
    events := events + SbOwers(t, skippedSb, skippedBb);
    var pair := FindBtnSb(t, nextSb, nextBb.value);
    r := match pair
      case Failure(error) => Failure(error)
      case Success(p) => Success(Positions(p.0, p.1, nextBb.value));
  }

  function OwesSbAt(t: Table): nat -> bool {
    (i: nat) => i < |t.players| && t.players[i].owesSb
  }

  /** Owes a big blind and can play, or cannot and does not. */
  function BbChangesAt(t: Table, canPlay: bool): nat -> bool {
    (i: nat) => i < |t.players| && CanPlay(t, t.players[i]) == canPlay && t.players[i].owesBb == canPlay
  }

  /** new_hand_blinds_owed: a new game forgives small blinds, and big blinds of those who can play. */
  function NewGameOwed(t: Table): seq<Event> {
    EventEach(SeatedWhere(t, OwesSbAt(t)), OweSb(false)) +
    EventEach(SeatedWhere(t, BbChangesAt(t, true)), OweBb(false)) +
    EventEach(SeatedWhere(t, BbChangesAt(t, false)), OweBb(true))
  }

  /** seated_players, from the given seat on */
  function SeatedFrom(t: Table, seat: nat): (r: seq<nat>)
    requires seat <= t.numSeats
    ensures forall i: nat :: i in r ==> i < |t.players| && t.players[i].seated
    decreases t.numSeats - seat
  {
    if seat == t.numSeats then []
    else
      (match FindAt(t.players, seat, false)
       case None => []
       case Some(i) => [i]) + SeatedFrom(t, seat + 1)
  }

  function SeatedWhere(t: Table, keep: nat -> bool): (r: seq<nat>)
    ensures forall i: nat :: i in r ==> i < |t.players|
  {
    Filter(SeatedFrom(t, 0), keep)
  }

  // They go through, and change nobody who is in

  /** As before but for what is owed. */
  ghost predicate Owing(p: PlayerState, q: PlayerState) {
    q == p.(owesBb := q.owesBb, owesSb := q.owesSb)
  }

  /** Or gone, without having been in. */
  ghost predicate Debited(p: PlayerState, q: PlayerState) {
    || Owing(p, q)
    || (!p.Active() && p.playing != Some(SitInPending) &&
        q == p.(owesBb := q.owesBb, owesSb := q.owesSb, seated := false, playing := None))
  }

  ghost predicate AllOwing(t: Table, u: Table) {
    && u == t.(players := u.players) && |u.players| == |t.players|
    && forall i :: 0 <= i < |t.players| ==> Owing(t.players[i], u.players[i])
  }

  ghost predicate AllDebited(t: Table, u: Table) {
    && u == t.(players := u.players) && |u.players| == |t.players|
    && forall i :: 0 <= i < |t.players| ==> Debited(t.players[i], u.players[i])
  }

  ghost predicate Quiet(t: Table, e: Event) {
    && e.OnPlayer? && e.i < |t.players|
    && (e.pe.OweBb? || e.pe.OweSb? ||
        (e.pe == LeaveSeat(true) && !t.players[e.i].Active() && t.players[e.i].playing != Some(SitInPending)
         && !t.players[e.i].HasInHandState()))
  }

  ghost predicate AllQuiet(t: Table, events: seq<Event>) {
    forall k :: 0 <= k < |events| ==> Quiet(t, events[k])
  }

  lemma QuietOnce(t: Table, e: Event) returns (u: Table)
    requires Quiet(t, e)
    ensures FireAll(t, [e]) == Success(u) && AllDebited(t, u)
  {
    FirePlayer(t, e.i, e.pe);
    u := FireAll(t, [e]).value;
  }

  lemma StaysQuiet(t: Table, u: Table, events: seq<Event>)
    requires AllDebited(t, u) && AllQuiet(t, events)
    ensures AllQuiet(u, events)
  {
    forall k | 0 <= k < |events| ensures Quiet(u, events[k]) {
      assert Quiet(t, events[k]) && Debited(t.players[events[k].i], u.players[events[k].i]);
    }
  }

  lemma DebitedTwice(t: Table, v: Table, u: Table)
    requires AllDebited(t, v) && AllDebited(v, u)
    ensures AllDebited(t, u)
  {
    forall i | 0 <= i < |t.players| ensures Debited(t.players[i], u.players[i]) {
      assert Debited(t.players[i], v.players[i]) && Debited(v.players[i], u.players[i]);
    }
  }

  lemma {:induction false} QuietFire(t: Table, events: seq<Event>) returns (u: Table)
    requires AllQuiet(t, events)
    ensures FireAll(t, events) == Success(u) && AllDebited(t, u)
    decreases |events|
  {
    if events == [] {
      u := t;
    } else {
      assert Quiet(t, events[0]);
      var v := QuietOnce(t, events[0]);
      assert AllQuiet(t, events[1..]);
      StaysQuiet(t, v, events[1..]);
      u := QuietFire(v, events[1..]);
      assert events == [events[0]] + events[1..];
      FireAppend(t, [events[0]], events[1..]);
      DebitedTwice(t, v, u);
    }
  }

  lemma QuietAppend(t: Table, a: seq<Event>, b: seq<Event>)
    requires AllQuiet(t, a) && AllQuiet(t, b)
    ensures AllQuiet(t, a + b)
  {
  }

  lemma {:induction false} OweIsQuiet(t: Table, s: seq<nat>, e: PlayerEvent)
    requires Indexing(t, s) && (e.OweBb? || e.OweSb?)
    ensures AllQuiet(t, EventEach(s, e))
  {
    if s != [] {
      OweIsQuiet(t, s[1..], e);
      QuietAppend(t, [OnPlayer(s[0], e)], EventEach(s[1..], e));
    }
  }

  lemma MembersIndex(t: Table, s: seq<nat>)
    requires forall i :: i in s ==> i < |t.players|
    ensures Indexing(t, s)
  {
    assert forall k :: 0 <= k < |s| ==> s[k] in s;
  }

  lemma {:induction false} BbOwersQuiet(t: Table, positions: seq<nat>)
    ensures AllQuiet(t, BbOwers(t, positions))
  {
    if positions != [] {
      var s := Filter(AllAt(t.players, positions[0]), OwesNoBb(t));
      MembersIndex(t, s);
      OweIsQuiet(t, s, OweBb(true));
      BbOwersQuiet(t, positions[1..]);
      QuietAppend(t, EventEach(s, OweBb(true)), BbOwers(t, positions[1..]));
    }
  }

  lemma {:induction false} SbOwersQuiet(t: Table, positions: seq<nat>, skippedBb: seq<nat>)
    ensures AllQuiet(t, SbOwers(t, positions, skippedBb))
  {
    if positions != [] {
      var s := Filter(AllAt(t.players, positions[0]), OwesNothing(t));
      MembersIndex(t, s);
      OweIsQuiet(t, s, OweSb(true));
      SbOwersQuiet(t, positions[1..], skippedBb);
      QuietAppend(t, EventEach(s, OweSb(true)), SbOwers(t, positions[1..], skippedBb));
    }
  }

  ghost predicate NobodyReadyAt(t: Table, positions: seq<nat>) {
    forall k :: 0 <= k < |positions| ==> !ReadySeat(t)(positions[k])
  }

  lemma {:induction false} BumpsQuiet(t: Table, positions: seq<nat>, tooLong: set<nat>)
    requires OutIsIdle(t) && NobodyReadyAt(t, positions)
    ensures AllQuiet(t, Bumps(t, positions, tooLong))
    decreases |positions|
  {
    if positions != [] {
      var n := |positions| - 1;
      BumpsQuiet(t, positions[..n], tooLong);
      assert !ReadySeat(t)(positions[n]);
      QuietAppend(t, Bumps(t, positions[..n], tooLong), BumpAt(t, positions[n], tooLong));
    }
  }

  lemma {:induction false} SkippedAre(n: nat, from: nat, d: nat)
    requires from < n && 0 < d <= n
    ensures |Skipped(n, from, d)| == d - 1
    ensures forall k :: 0 <= k < d - 1 ==> Skipped(n, from, d)[k] == Ahead(n, from, k + 1)
    decreases d
  {
    if d > 1 {
      SkippedAre(n, from, d - 1);
    }
  }

  lemma RotationEventsQuiet(t: Table, sb: nat, bb: nat, nextBb: nat, tooLong: set<nat>)
    requires sb < t.numSeats && bb < t.numSeats && OutIsIdle(t)
    ensures AllQuiet(t, RotationEvents(t, sb, bb, nextBb, tooLong))
  {
    var skipped := SkippedBb(t, bb);
    SkippedAre(t.numSeats, bb, Scan(t.numSeats, bb, 1, ReadySeat(t)));
    BbOwersQuiet(t, skipped);
    BumpsQuiet(t, skipped, tooLong);
    SbOwersQuiet(t, SkippedSb(t, sb, nextBb), skipped);
    QuietAppend(t, BbOwers(t, skipped), Bumps(t, skipped, tooLong));
    QuietAppend(t, BbOwers(t, skipped) + Bumps(t, skipped, tooLong), SbOwers(t, SkippedSb(t, sb, nextBb), skipped));
  }

  /** The rotation's own events never raise. */
  lemma RotationEventsFire(t: Table, sb: nat, bb: nat, nextBb: nat, tooLong: set<nat>) returns (u: Table)
    requires sb < t.numSeats && bb < t.numSeats && OutIsIdle(t)
    ensures FireAll(t, RotationEvents(t, sb, bb, nextBb, tooLong)) == Success(u) && AllDebited(t, u)
  {
    RotationEventsQuiet(t, sb, bb, nextBb, tooLong);
    u := QuietFire(t, RotationEvents(t, sb, bb, nextBb, tooLong));
  }

  ghost predicate SetsDebt(t: Table, e: Event) {
    e.OnPlayer? && e.i < |t.players| && (e.pe.OweBb? || e.pe.OweSb?)
  }

  ghost predicate AllSetDebts(t: Table, events: seq<Event>) {
    forall k :: 0 <= k < |events| ==> SetsDebt(t, events[k])
  }

  lemma OwesOnce(t: Table, e: Event) returns (u: Table)
    requires SetsDebt(t, e)
    ensures FireAll(t, [e]) == Success(u) && AllOwing(t, u)
  {
    FirePlayer(t, e.i, e.pe);
    u := FireAll(t, [e]).value;
  }

  lemma OwingTwice(t: Table, v: Table, u: Table)
    requires AllOwing(t, v) && AllOwing(v, u)
    ensures AllOwing(t, u)
  {
    forall i | 0 <= i < |t.players| ensures Owing(t.players[i], u.players[i]) {
      assert Owing(t.players[i], v.players[i]) && Owing(v.players[i], u.players[i]);
    }
  }

  lemma {:induction false} OweFire(t: Table, events: seq<Event>) returns (u: Table)
    requires AllSetDebts(t, events)
    ensures FireAll(t, events) == Success(u) && AllOwing(t, u)
    decreases |events|
  {
    if events == [] {
      u := t;
    } else {
      assert SetsDebt(t, events[0]);
      var v := OwesOnce(t, events[0]);
      assert AllSetDebts(v, events[1..]);
      u := OweFire(v, events[1..]);
      assert events == [events[0]] + events[1..];
      FireAppend(t, [events[0]], events[1..]);
      OwingTwice(t, v, u);
    }
  }

  lemma {:induction false} EachOwes(t: Table, s: seq<nat>, e: PlayerEvent)
    requires (forall i: nat :: i in s ==> i < |t.players|) && (e.OweBb? || e.OweSb?)
    ensures AllSetDebts(t, EventEach(s, e))
  {
    if s != [] {
      assert s[0] in s && forall i: nat :: i in s[1..] ==> i in s;
      EachOwes(t, s[1..], e);
      assert SetsDebt(t, OnPlayer(s[0], e));
    }
  }

  /** The debts of a new game change nothing else. */
  lemma NewGameOwedFires(t: Table) returns (u: Table)
    ensures FireAll(t, NewGameOwed(t)) == Success(u) && AllOwing(t, u)
  {
    EachOwes(t, SeatedWhere(t, OwesSbAt(t)), OweSb(false));
    EachOwes(t, SeatedWhere(t, BbChangesAt(t, true)), OweBb(false));
    EachOwes(t, SeatedWhere(t, BbChangesAt(t, false)), OweBb(true));
    u := OweFire(t, NewGameOwed(t));
  }

  lemma DebitedSeating(t: Table, u: Table)
    requires Seating(t) && AllDebited(t, u)
    ensures Seating(u)
  {
    forall i | 0 <= i < |t.players|
      ensures u.players[i].position == t.players[i].position && (u.players[i].seated ==> t.players[i].seated)
      ensures u.players[i].seated ==> u.players[i].playing == t.players[i].playing
      ensures !u.players[i].seated ==> u.players[i].playing.None?
    {
      assert Debited(t.players[i], u.players[i]);
    }
  }

  // Who owes what afterwards

  ghost predicate NothingForgiven(events: seq<Event>) {
    forall k :: 0 <= k < |events| && events[k].OnPlayer? ==>
      events[k].pe != OweBb(false) && events[k].pe != OweSb(false)
  }

  lemma DebtEffect(p: PlayerState, e: PlayerEvent)
    requires e == OweBb(true) || e == OweSb(true) || e == LeaveSeat(true)
    ensures
      var r := Effect(p, e);
      r.Success? ==>
        (r.value.owesBb <==> p.owesBb || e == OweBb(true)) && (r.value.owesSb <==> p.owesSb || e == OweSb(true))
  {
    match e
    case OweBb(_) =>
    case OweSb(_) =>
    case LeaveSeat(_) =>
  }

  lemma {:induction false} OneDebt(t: Table, e: Event, u: Table, i: nat)
    requires Quiet(t, e) && e.pe != OweBb(false) && e.pe != OweSb(false) && FireAll(t, [e]) == Success(u)
    requires i < |t.players| && AllDebited(t, u)
    ensures u.players[i].owesBb <==> t.players[i].owesBb || e == OnPlayer(i, OweBb(true))
    ensures u.players[i].owesSb <==> t.players[i].owesSb || e == OnPlayer(i, OweSb(true))
  {
    FirePlayer(t, e.i, e.pe);
    DebtEffect(t.players[e.i], e.pe);
  }

  /** A debt is there before, or comes up on the way. */
  ghost predicate DebtsOf(t: Table, events: seq<Event>, u: Table, i: nat) {
    && i < |t.players| && i < |u.players|
    && (u.players[i].owesBb <==> t.players[i].owesBb || OnPlayer(i, OweBb(true)) in events)
    && (u.players[i].owesSb <==> t.players[i].owesSb || OnPlayer(i, OweSb(true)) in events)
  }

  lemma DebtsInFront(t: Table, e: Event, v: Table, rest: seq<Event>, u: Table, i: nat)
    requires DebtsOf(t, [e], v, i) && DebtsOf(v, rest, u, i)
    ensures DebtsOf(t, [e] + rest, u, i)
  {
  }

  lemma {:induction false} DebtsAddUp(t: Table, events: seq<Event>, u: Table, i: nat)
    requires AllQuiet(t, events) && NothingForgiven(events) && i < |t.players| && FireAll(t, events) == Success(u)
    ensures DebtsOf(t, events, u, i)
    decreases |events|
  {
    if events != [] {
      assert Quiet(t, events[0]);
      var v := QuietOnce(t, events[0]);
      OneDebt(t, events[0], v, i);
      assert events == [events[0]] + events[1..];
      FireAppend(t, [events[0]], events[1..]);
      assert AllQuiet(t, events[1..]);
      StaysQuiet(t, v, events[1..]);
      DebtsAddUp(v, events[1..], u, i);
      DebtsInFront(t, events[0], v, events[1..], u, i);
    }
  }

  lemma {:induction false} EachMembers(s: seq<nat>, e: PlayerEvent, f: Event)
    ensures f in EventEach(s, e) <==> f.OnPlayer? && f.i in s && f.pe == e
  {
    if s != [] {
      EachMembers(s[1..], e, f);
    }
  }

  lemma {:induction false} BbOwersAre(t: Table, positions: seq<nat>, i: nat)
    requires i < |t.players|
    ensures OnPlayer(i, OweBb(true)) in BbOwers(t, positions) <==>
      t.players[i].position.Some? && t.players[i].position.value in positions && !t.players[i].owesBb
    ensures OnPlayer(i, OweSb(true)) !in BbOwers(t, positions)
    ensures NothingForgiven(BbOwers(t, positions))
  {
    if positions != [] {
      BbOwersAre(t, positions[1..], i);
      var s := Filter(AllAt(t.players, positions[0]), OwesNoBb(t));
      EachMembers(s, OweBb(true), OnPlayer(i, OweBb(true)));
      EachMembers(s, OweBb(true), OnPlayer(i, OweSb(true)));
      EachForgives(s, OweBb(true));
    }
  }

  lemma {:induction false} EachForgives(s: seq<nat>, e: PlayerEvent)
    requires e == OweBb(true) || e == OweSb(true)
    ensures NothingForgiven(EventEach(s, e))
  {
    if s != [] {
      EachForgives(s[1..], e);
    }
  }

  lemma {:induction false} SbOwersAre(t: Table, positions: seq<nat>, skippedBb: seq<nat>, i: nat)
    requires i < |t.players|
    ensures OnPlayer(i, OweSb(true)) in SbOwers(t, positions, skippedBb) <==>
      && t.players[i].position.Some? && t.players[i].position.value in positions
      && t.players[i].position.value !in skippedBb && !t.players[i].owesBb && !t.players[i].owesSb
    ensures OnPlayer(i, OweBb(true)) !in SbOwers(t, positions, skippedBb)
    ensures NothingForgiven(SbOwers(t, positions, skippedBb))
  {
    if positions != [] {
      SbOwersAre(t, positions[1..], skippedBb, i);
      var s := Filter(AllAt(t.players, positions[0]), OwesNothing(t));
      EachMembers(s, OweSb(true), OnPlayer(i, OweBb(true)));
      EachMembers(s, OweSb(true), OnPlayer(i, OweSb(true)));
      EachForgives(s, OweSb(true));
    }
  }

  lemma {:induction false} BumpsOweNothing(t: Table, positions: seq<nat>, tooLong: set<nat>, i: nat)
    ensures OnPlayer(i, OweSb(true)) !in Bumps(t, positions, tooLong)
    ensures OnPlayer(i, OweBb(true)) !in Bumps(t, positions, tooLong)
    ensures NothingForgiven(Bumps(t, positions, tooLong))
    decreases |positions|
  {
    if positions != [] {
      BumpsOweNothing(t, positions[..|positions| - 1], tooLong, i);
    }
  }

  lemma {:induction false} SkippedBetween(n: nat, from: nat, d: nat, pos: nat)
    requires from < n && 0 < d <= n && pos < n
    ensures pos in Skipped(n, from, d) <==> 0 < Gap(n, from, pos) < d
  {
    SkippedAre(n, from, d);
    if 0 < Gap(n, from, pos) < d {
      assert Skipped(n, from, d)[Gap(n, from, pos) - 1] == pos;
    }
  }

  /** The seats strictly between the old big blind and the new. */
  lemma SkippedBbAre(t: Table, bb: nat, nextBb: nat, pos: nat)
    requires bb < t.numSeats && NextBb(t, bb) == Success(nextBb) && pos < t.numSeats && nextBb < t.numSeats
    ensures pos in SkippedBb(t, bb) <==> 0 < Gap(t.numSeats, bb, pos) < Gap(t.numSeats, bb, nextBb)
  {
    SkippedBetween(t.numSeats, bb, Scan(t.numSeats, bb, 1, ReadySeat(t)), pos);
  }

  ghost predicate Skips(positions: seq<nat>, p: PlayerState) {
    p.position.Some? && p.position.value in positions
  }

  lemma ThreeLists(a: seq<Event>, b: seq<Event>, c: seq<Event>, e: Event)
    requires NothingForgiven(a) && NothingForgiven(b) && NothingForgiven(c)
    ensures NothingForgiven(a + b + c) && (e in a + b + c <==> e in a || e in b || e in c)
  {
  }

  lemma {:induction false} RotationDebts(t: Table, sb: nat, bb: nat, nextBb: nat, tooLong: set<nat>, i: nat)
    requires sb < t.numSeats && bb < t.numSeats && i < |t.players|
    ensures NothingForgiven(RotationEvents(t, sb, bb, nextBb, tooLong))
    ensures OnPlayer(i, OweBb(true)) in RotationEvents(t, sb, bb, nextBb, tooLong) <==>
      OnPlayer(i, OweBb(true)) in BbOwers(t, SkippedBb(t, bb))
    ensures OnPlayer(i, OweSb(true)) in RotationEvents(t, sb, bb, nextBb, tooLong) <==>
      OnPlayer(i, OweSb(true)) in SbOwers(t, SkippedSb(t, sb, nextBb), SkippedBb(t, bb))
  {
    var skipped, skippedSb := SkippedBb(t, bb), SkippedSb(t, sb, nextBb);
    var a, b, c := BbOwers(t, skipped), Bumps(t, skipped, tooLong), SbOwers(t, skippedSb, skipped);
    BbOwersAre(t, skipped, i);
    BumpsOweNothing(t, skipped, tooLong, i);
    SbOwersAre(t, skippedSb, skipped, i);
    ThreeLists(a, b, c, OnPlayer(i, OweBb(true)));
    ThreeLists(a, b, c, OnPlayer(i, OweSb(true)));
  }

  /**
   * The seats that the big blind skips come to owe a big blind; those that only the small blind skips
   * owe a small blind, unless they owe a big blind anyway. Nobody else comes to owe anything.
   */
  lemma {:induction false} SkippedOwe(t: Table, sb: nat, bb: nat, nextBb: nat, tooLong: set<nat>, u: Table, i: nat)
    requires sb < t.numSeats && bb < t.numSeats && OutIsIdle(t) && i < |t.players|
    requires FireAll(t, RotationEvents(t, sb, bb, nextBb, tooLong)) == Success(u)
    ensures |u.players| == |t.players|
    ensures
      var p, q := t.players[i], u.players[i];
      var onlySb := Skips(SkippedSb(t, sb, nextBb), p) && !Skips(SkippedBb(t, bb), p);
      && (q.owesBb <==> p.owesBb || Skips(SkippedBb(t, bb), p))
      && (q.owesSb <==> p.owesSb || (onlySb && !p.owesBb))
  {
    RotationEventsQuiet(t, sb, bb, nextBb, tooLong);
    RotationDebts(t, sb, bb, nextBb, tooLong, i);
    BbOwersAre(t, SkippedBb(t, bb), i);
    SbOwersAre(t, SkippedSb(t, sb, nextBb), SkippedBb(t, bb), i);
    var v := QuietFire(t, RotationEvents(t, sb, bb, nextBb, tooLong));
    DebtsAddUp(t, RotationEvents(t, sb, bb, nextBb, tooLong), u, i);
  }
}
