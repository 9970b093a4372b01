/** Players coming and going between hands: nobody is ever refused for having something in a hand. */
module Sitting {
  import opened Wrappers
  import opened Indexes
  import opened Players
  import opened Tables
  import opened Accessors
  import opened Betting
  import opened Streets
  import opened Hands
  import opened Rings
  import opened Blinds
  import opened Deals
  import opened Debts

  // Queued departures

  /** What queued_sitouts_and_boot_empty_stacks fires for one active player. */
  function DepartureOf(p: PlayerState): seq<PlayerEvent> {
    if p.playing == Some(SitOutPending) then [Reset, SitOut(true)]
    else if p.playing == Some(LeaveSeatPending) then [Reset, LeaveSeat(true)]
    else if p.stack == 0 then [Reset, SitOut(true)]
    else []
  }

  function DepartureAt(t: Table): nat -> seq<PlayerEvent> {
    (i: nat) => if i < |t.players| then DepartureOf(t.players[i]) else []
  }

  function Departures(t: Table): seq<Event>
    requires t.numSeats > 0
  {
    EventLists(ActivePlayers(t, StartPos(t)), DepartureAt(t))
  }

  /** queued_sitouts_and_boot_empty_stacks */
  method QueueDepartures(t: Table) returns (events: seq<Event>)
    requires t.numSeats > 0
    ensures events == Departures(t)
  {
    var players := ActivePlayers(t, StartPos(t));
    events := [];
    var k := 0;
    while k < |players|
      invariant 0 <= k <= |players|
      invariant events == EventLists(players[..k], DepartureAt(t))
    {
      assert players[k] in players;
      EventListsNext(players, k, DepartureAt(t));
      var i, p := players[k], t.players[players[k]];
      if p.playing == Some(SitOutPending) {
        events := events + EventsOn(i, [Reset, SitOut(true)]);
      } else if p.playing == Some(LeaveSeatPending) {
        events := events + EventsOn(i, [Reset, LeaveSeat(true)]);
      } else if p.stack == 0 {
        events := events + EventsOn(i, [Reset, SitOut(true)]);
      }
      k := k + 1;
    }
    assert players[..k] == players;
  }

  /** After a RESET any of the three sitting events goes through. */
  lemma {:induction false} ResetThenSits(p: PlayerState, e: PlayerEvent)
    requires e == SitOut(true) || e == LeaveSeat(true) || e == SitIn(true)
    ensures EffectAll(p, [Reset, e]).Success?
    ensures
      var q := EffectAll(p, [Reset, e]).value;
      && q.stack == p.stack && q.position == p.position && !q.HasInHandState() && NoPresets(q)
      && q.pendingRebuy == p.pendingRebuy
      && q.seated == (p.seated && e != LeaveSeat(true))
      && q.playing == if e == SitOut(true) then Some(SittingOut) else if e == SitIn(true) then Some(SittingIn) else None
  {
    var q := Effect(p, Reset).value;
    EffectTwo(p, Reset, q, e, Effect(q, e));
  }

  predicate Leaves(p: PlayerState) {
    p.Active() && (p.playing != Some(SittingIn) || p.stack == 0)
  }

  /** Out, with nothing left in a hand; gone altogether if that was asked for. */
  ghost predicate WentOut(p: PlayerState, q: PlayerState) {
    && !q.HasInHandState() && NoPresets(q) && q.pendingRebuy == p.pendingRebuy
    && if p.playing == Some(LeaveSeatPending) then !q.seated && q.playing.None?
       else q.seated == p.seated && q.playing == Some(SittingOut)
  }

  /** A player before and after the departures: who stays, or is out already, is as before. */
  ghost predicate Departed(p: PlayerState, q: PlayerState) {
    q.stack == p.stack && q.position == p.position && if Leaves(p) then WentOut(p, q) else q == p
  }

  lemma {:induction false} DepartureDeparts(p: PlayerState)
    requires p.seated && p.playing.Some?
    ensures EffectAll(p, if p.Active() then DepartureOf(p) else []).Success?
    ensures Departed(p, EffectAll(p, if p.Active() then DepartureOf(p) else []).value)
  {
    if p.Active() && DepartureOf(p) != [] {
      ResetThenSits(p, if p.playing == Some(LeaveSeatPending) then LeaveSeat(true) else SitOut(true));
    } else if p.Active() {
      ActiveStates(p);
    }
  }

  ghost predicate AllDeparted(t: Table, u: Table) {
    && u == t.(players := u.players) && |u.players| == |t.players|
    && forall i :: 0 <= i < |t.players| ==> Departed(t.players[i], u.players[i])
  }

  /** No departure is refused; who stays is sitting in with chips, and no stack changes. */
  lemma DeparturesGoThrough(t: Table) returns (u: Table)
    requires Seating(t)
    ensures FireAll(t, Departures(t)) == Success(u) && AllDeparted(t, u)
  {
    var s := ActivePlayers(t, StartPos(t));
    ActivePlayersComplete(t, StartPos(t));
    assert forall k :: 0 <= k < |s| ==> s[k] in s;
    forall i: nat | i in s && i < |t.players| ensures EffectAll(t.players[i], DepartureAt(t)(i)).Success? {
      DepartureDeparts(t.players[i]);
    }
    u := FireLists(t, s, DepartureAt(t));
    forall i: nat | i < |t.players| ensures Departed(t.players[i], u.players[i]) {
      if t.players[i].seated {
        DepartureDeparts(t.players[i]);
      }
    }
  }

  lemma DepartedSeating(t: Table, u: Table)
    requires Seating(t) && AllDeparted(t, u)
    ensures Seating(u)
  {
    forall i: nat | i < |u.players| ensures u.players[i].seated ==> t.players[i].seated && u.players[i].playing.Some? {
      assert Departed(t.players[i], u.players[i]);
    }
    forall i: nat | i < |u.players| ensures !u.players[i].seated ==> u.players[i].playing.None? {
      assert Departed(t.players[i], u.players[i]);
    }
    forall i: nat | i < |u.players| ensures u.players[i].position == t.players[i].position {
      assert Departed(t.players[i], u.players[i]);
    }
  }

  /** With fewer active players, there is still nobody active between two seats. */
  lemma FewerBetween(t: Table, u: Table, from: nat, to: nat)
    requires Seating(t) && u.numSeats == t.numSeats && |u.players| == |t.players|
    requires forall i :: 0 <= i < |u.players| && u.players[i].Active() ==>
      t.players[i].Active() && t.players[i].position == u.players[i].position
    requires from < t.numSeats && to < t.numSeats && NoneBetween(t.numSeats, from, to, ActiveSeat(t))
    ensures NoneBetween(u.numSeats, from, to, ActiveSeat(u))
  {
    var n := t.numSeats;
    forall d: nat | 0 < d < Gap(n, from, to) ensures !ActiveSeat(u)(Ahead(n, from, d)) {
      var found := FindAt(u.players, Ahead(n, from, d), true);
      if found.Some? {
        FoundAt(t, found.value, true);
      }
    }
  }

  lemma DepartedBetween(t: Table, u: Table, sb: nat, bb: nat)
    requires Seating(t) && AllDeparted(t, u) && Placed(t, sb, bb)
    ensures Placed(u, sb, bb)
  {
    forall i: nat | i < |u.players| && u.players[i].Active()
      ensures t.players[i].Active() && t.players[i].position == u.players[i].position
    {
      assert Departed(t.players[i], u.players[i]);
    }
    FewerBetween(t, u, sb, bb);
  }

  // Newcomers

  lemma {:induction false} SeatedFromHas(t: Table, seat: nat)
    requires Seating(t) && seat <= t.numSeats
    ensures forall i: nat :: i in SeatedFrom(t, seat) <==>
      i < |t.players| && t.players[i].seated && t.players[i].position.value >= seat
    decreases t.numSeats - seat
  {
    if seat < t.numSeats {
      SeatedFromHas(t, seat + 1);
      forall i: nat | i < |t.players| && t.players[i].seated && t.players[i].position.value == seat
        ensures FindAt(t.players, seat, false) == Some(i)
      {
        FoundAt(t, i, false);
      }
    }
  }

  lemma {:induction false} SeatedFromOnce(t: Table, seat: nat)
    requires Seating(t) && seat <= t.numSeats
    ensures Distinct(SeatedFrom(t, seat))
    decreases t.numSeats - seat
  {
    if seat < t.numSeats {
      SeatedFromOnce(t, seat + 1);
      SeatedFromHas(t, seat + 1);
    }
  }

  lemma {:induction false} SeatedFromIs(t: Table)
    requires Seating(t)
    ensures Distinct(SeatedFrom(t, 0))
    ensures forall i: nat :: i in SeatedFrom(t, 0) <==> i < |t.players| && t.players[i].seated
  {
    SeatedFromOnce(t, 0);
    SeatedFromHas(t, 0);
  }

  /** The waiting players on the first d seats from the button. */
  function Waiting(t: Table, btn: nat, d: nat): (r: seq<nat>)
    requires btn < t.numSeats && d <= t.numSeats
    ensures forall i: nat :: i in r ==> i < |t.players| && t.players[i].playing == Some(SitInPending)
    decreases d
  {
    if d == 0 then []
    else
      var pos := Ahead(t.numSeats, btn, d - 1);
      Waiting(t, btn, d - 1) +
      match FindAt(t.players, pos, false)
      case None => []
      case Some(i) => if t.players[i].playing == Some(SitInPending) then [i] else []
  }

  /** must_wait_to_sit_in_players, its loop from the button up to the big blind */
  method MustWait(t: Table, btn: nat, bb: nat) returns (players: seq<nat>)
    requires btn < t.numSeats && bb < t.numSeats
    ensures players == Waiting(t, btn, Gap(t.numSeats, btn, bb))
  {
    var n := t.numSeats;
    players := [];
    var pos := btn;
    ghost var d := 0;
    while pos != bb
      invariant 0 <= d <= Gap(n, btn, bb) && pos == Ahead(n, btn, d)
      invariant players == Waiting(t, btn, d)
      decreases Gap(n, btn, bb) - d
    {
      var found := FindAt(t.players, pos, false);
      if found.Some? && t.players[found.value].playing == Some(SitInPending) {
        players := players + [found.value];
      }
      ModNext(n, pos);
      pos := (pos + 1) % n;
      d := d + 1;
    }
  }

  lemma {:induction false} WaitingAre(t: Table, btn: nat, d: nat)
    requires Seating(t) && btn < t.numSeats && d <= t.numSeats
    ensures forall i: nat :: i < |t.players| && t.players[i].seated && t.players[i].playing == Some(SitInPending) ==>
      (i in Waiting(t, btn, d) <==> Gap(t.numSeats, btn, t.players[i].position.value) < d)
    decreases d
  {
    if d > 0 {
      WaitingAre(t, btn, d - 1);
      var pos := Ahead(t.numSeats, btn, d - 1);
      forall i: nat | i < |t.players| && t.players[i].seated && t.players[i].playing == Some(SitInPending)
        ensures i in Waiting(t, btn, d) <==> Gap(t.numSeats, btn, t.players[i].position.value) < d
      {
        FoundAt(t, i, false);
        assert t.players[i].position.value == pos <==> Gap(t.numSeats, btn, t.players[i].position.value) == d - 1;
      }
    }
  }

  function PendingIn(t: Table): nat -> bool {
    (i: nat) => i < |t.players| && t.players[i].playing == Some(SitInPending)
  }

  /** Heads up everybody waits; otherwise those between the button and the big blind do. */
  function MustWaitFor(t: Table, btn: nat, bb: nat): seq<nat>
    requires btn < t.numSeats && bb < t.numSeats
  {
    if CountOf(t.numSeats, InAt(t, bb)) == 2 then Filter(SeatedFrom(t, 0), PendingIn(t))
    else Waiting(t, btn, Gap(t.numSeats, btn, bb))
  }

  function NewcomerIn(t: Table, btn: nat, bb: nat): nat -> bool
    requires btn < t.numSeats && bb < t.numSeats
  {
    var wait := MustWaitFor(t, btn, bb);
    (i: nat) => PendingIn(t)(i) && i !in wait
  }

  /** reset_sit_in_pending_players */
  function SitInNewcomers(t: Table, btn: nat, bb: nat): seq<Event>
    requires btn < t.numSeats && bb < t.numSeats
  {
    EventLists(Filter(SeatedFrom(t, 0), NewcomerIn(t, btn, bb)), (i: nat) => [SitIn(true), Reset])
  }

  /** Outside the button-to-big-blind stretch, unless heads up. */
  lemma NewcomerIs(t: Table, btn: nat, bb: nat, i: nat)
    requires Seating(t) && btn < t.numSeats && bb < t.numSeats && i < |t.players| && t.players[i].seated
    ensures NewcomerIn(t, btn, bb)(i) <==>
      && PendingIn(t)(i) && CountOf(t.numSeats, InAt(t, bb)) != 2
      && Gap(t.numSeats, btn, t.players[i].position.value) >= Gap(t.numSeats, btn, bb)
  {
    SeatedFromIs(t);
    WaitingAre(t, btn, Gap(t.numSeats, btn, bb));
    assert NewcomerIn(t, btn, bb)(i) <==> PendingIn(t)(i) && i !in MustWaitFor(t, btn, bb);
  }

  lemma GapWithin(n: nat, btn: nat, sb: nat, bb: nat, d: nat)
    requires btn < n && sb < n && bb < n && 0 < d < Gap(n, sb, bb) && Gap(n, btn, sb) + Gap(n, sb, bb) < n
    ensures Gap(n, btn, Ahead(n, sb, d)) < Gap(n, btn, bb)
  {
  }

  lemma {:induction false} SitInResets(p: PlayerState)
    ensures EffectAll(p, [SitIn(true), Reset]).Success?
    ensures
      var q := EffectAll(p, [SitIn(true), Reset]).value;
      && q.position == p.position && q.seated == p.seated && q.playing == Some(SittingIn)
      && q.stack == p.stack && q.last.None? && !q.HasInHandState() && NoPresets(q)
      && q.pendingRebuy == p.pendingRebuy
  {
    var q := Effect(p, SitIn(true)).value;
    EffectTwo(p, SitIn(true), q, Reset, Effect(q, Reset));
  }

  ghost predicate SatIn(p: PlayerState, q: PlayerState) {
    && q.position == p.position && q.seated == p.seated && q.playing == Some(SittingIn)
    && q.stack == p.stack && q.last.None? && !q.HasInHandState() && NoPresets(q)
      && q.pendingRebuy == p.pendingRebuy
  }

  /** These sit in; everybody else is as before, but for what they owe. */
  ghost predicate SitsIn(t: Table, who: nat -> bool, u: Table) {
    && u == t.(players := u.players) && |u.players| == |t.players|
    && forall i: nat :: i < |t.players| ==>
         if t.players[i].seated && who(i) then SatIn(t.players[i], u.players[i]) else Owing(t.players[i], u.players[i])
  }

  lemma TheseSitIn(t: Table, s: seq<nat>, who: nat -> bool) returns (u: Table)
    requires Seating(t) && Distinct(s) && Indexing(t, s)
    requires forall i: nat :: i < |t.players| ==> (i in s <==> t.players[i].seated && who(i))
    ensures FireAll(t, EventLists(s, (i: nat) => [SitIn(true), Reset])) == Success(u) && SitsIn(t, who, u)
  {
    forall i: nat | i < |t.players|
      ensures EffectAll(t.players[i], [SitIn(true), Reset]).Success?
      ensures SatIn(t.players[i], EffectAll(t.players[i], [SitIn(true), Reset]).value)
    {
      SitInResets(t.players[i]);
    }
    u := FireLists(t, s, (i: nat) => [SitIn(true), Reset]);
  }

  lemma {:induction false} SeatedAmong(t: Table, who: nat -> bool)
    requires Seating(t)
    ensures Distinct(Filter(SeatedFrom(t, 0), who)) && Indexing(t, Filter(SeatedFrom(t, 0), who))
    ensures forall i: nat :: i < |t.players| ==> (i in Filter(SeatedFrom(t, 0), who) <==> t.players[i].seated && who(i))
  {
    SeatedFromIs(t);
    FilterDistinct(SeatedFrom(t, 0), who);
    var s := Filter(SeatedFrom(t, 0), who);
    assert forall k :: 0 <= k < |s| ==> s[k] in s;
  }

  /** Who is new sits in; everybody else is as before, or is out and owes or leaves. */
  ghost predicate Joined(t: Table, btn: nat, bb: nat, u: Table)
    requires btn < t.numSeats && bb < t.numSeats
  {
    && u == t.(players := u.players) && |u.players| == |t.players|
    && forall i: nat :: i < |t.players| ==>
         if t.players[i].seated && NewcomerIn(t, btn, bb)(i) then SatIn(t.players[i], u.players[i])
         else Debited(t.players[i], u.players[i])
  }

  lemma DebitedThenIn(t: Table, v: Table, who: nat -> bool, u: Table, i: nat)
    requires AllDebited(t, v) && SitsIn(v, who, u) && i < |t.players|
    requires who(i) ==> t.players[i].playing == Some(SitInPending)
    ensures if t.players[i].seated && who(i) then SatIn(t.players[i], u.players[i])
            else Debited(t.players[i], u.players[i])
  {
    assert Debited(t.players[i], v.players[i]);
  }

  lemma {:induction false} NewcomersAmong(t: Table, btn: nat, bb: nat, v: Table)
    requires Seating(t) && btn < t.numSeats && bb < t.numSeats && AllDebited(t, v)
    ensures
      var s := Filter(SeatedFrom(t, 0), NewcomerIn(t, btn, bb));
      Distinct(s) && Indexing(v, s) && forall i: nat :: i < |v.players| ==>
        (i in s <==> v.players[i].seated && NewcomerIn(t, btn, bb)(i))
  {
    SeatedAmong(t, NewcomerIn(t, btn, bb));
    forall i: nat | i < |t.players| && NewcomerIn(t, btn, bb)(i) ensures v.players[i].seated == t.players[i].seated {
      assert Debited(t.players[i], v.players[i]) && PendingIn(t)(i);
    }
  }

  /** Newcomers sit in after the given events, which leave alone everybody who is in. */
  lemma NewcomersSitIn(t: Table, btn: nat, bb: nat, events: seq<Event>, v: Table) returns (u: Table)
    requires Seating(t) && btn < t.numSeats && bb < t.numSeats && FireAll(t, events) == Success(v) && AllDebited(t, v)
    ensures FireAll(t, events + SitInNewcomers(t, btn, bb)) == Success(u) && Joined(t, btn, bb, u)
  {
    DebitedSeating(t, v);
    NewcomersAmong(t, btn, bb, v);
    u := TheseSitIn(v, Filter(SeatedFrom(t, 0), NewcomerIn(t, btn, bb)), NewcomerIn(t, btn, bb));
    FireAppend(t, events, SitInNewcomers(t, btn, bb));
    forall i: nat | i < |t.players|
      ensures if t.players[i].seated && NewcomerIn(t, btn, bb)(i) then SatIn(t.players[i], u.players[i])
              else Debited(t.players[i], u.players[i])
    {
      assert NewcomerIn(t, btn, bb)(i) ==> PendingIn(t)(i);
      DebitedThenIn(t, v, NewcomerIn(t, btn, bb), u, i);
    }
  }

  lemma JoinedSeating(t: Table, btn: nat, bb: nat, u: Table)
    requires Seating(t) && btn < t.numSeats && bb < t.numSeats && Joined(t, btn, bb, u)
    ensures Seating(u)
    ensures forall i :: 0 <= i < |t.players| ==> u.players[i].position == t.players[i].position
    ensures forall i :: 0 <= i < |t.players| && t.players[i].Active() ==> u.players[i].Active()
  {
    forall i: nat | i < |t.players|
      ensures u.players[i].position == t.players[i].position && (u.players[i].seated ==> t.players[i].seated)
      ensures t.players[i].Active() ==> u.players[i].Active()
      ensures t.players[i].seated && t.players[i].playing.Some? && u.players[i].seated ==> u.players[i].playing.Some?
      ensures (t.players[i].playing.Some? ==> t.players[i].seated) && !u.players[i].seated ==>
        u.players[i].playing.None?
    {
      JoinedPlace(t, btn, bb, u, i);
    }
  }

  lemma JoinedPlace(t: Table, btn: nat, bb: nat, u: Table, i: nat)
    requires btn < t.numSeats && bb < t.numSeats && Joined(t, btn, bb, u) && i < |t.players|
    ensures SatIn(t.players[i], u.players[i]) || Debited(t.players[i], u.players[i])
    ensures SatIn(t.players[i], u.players[i]) && !Debited(t.players[i], u.players[i]) ==> t.players[i].seated
  {
  }

  /** A newcomer takes no seat between the blinds. */
  lemma NewcomerIsOutside(t: Table, btn: nat, sb: nat, bb: nat, i: nat, d: nat)
    requires Seating(t) && Placed(t, sb, bb) && btn < t.numSeats
    requires CountOf(t.numSeats, InAt(t, bb)) != 2 ==> ButtonPlaced(t, btn, sb, bb)
    requires i < |t.players| && t.players[i].seated && NewcomerIn(t, btn, bb)(i)
    requires 0 < d < Gap(t.numSeats, sb, bb)
    ensures t.players[i].position != Some(Ahead(t.numSeats, sb, d))
  {
    NewcomerIs(t, btn, bb, i);
    GapWithin(t.numSeats, btn, sb, bb, d);
  }

  /** After the newcomers sit in, the blinds are still placed, and the big blind is there to be posted. */
  lemma JoinedKeepsBlinds(t: Table, btn: nat, sb: nat, bb: nat, u: Table)
    requires Seating(t) && Placed(t, sb, bb) && btn < t.numSeats && ReadySeat(t)(bb) && Joined(t, btn, bb, u)
    requires CountOf(t.numSeats, InAt(t, bb)) == 2 ==> ActiveSeat(t)(bb)
    requires CountOf(t.numSeats, InAt(t, bb)) != 2 ==> ButtonPlaced(t, btn, sb, bb)
    ensures Placed(u, sb, bb) && ActiveSeat(u)(bb)
  {
    JoinedSeating(t, btn, bb, u);
    forall d: nat | 0 < d < Gap(t.numSeats, sb, bb) ensures !ActiveSeat(u)(Ahead(t.numSeats, sb, d)) {
      var found := FindAt(u.players, Ahead(t.numSeats, sb, d), true);
      if found.Some? {
        NobodyJoinsBetween(t, btn, sb, bb, u, found.value, d);
      }
    }
    BbSitsIn(t, btn, bb, u);
  }

  lemma NobodyJoinsBetween(t: Table, btn: nat, sb: nat, bb: nat, u: Table, i: nat, d: nat)
    requires Seating(t) && Placed(t, sb, bb) && btn < t.numSeats && Joined(t, btn, bb, u)
    requires CountOf(t.numSeats, InAt(t, bb)) != 2 ==> ButtonPlaced(t, btn, sb, bb)
    requires i < |u.players| && u.players[i].Active() && 0 < d < Gap(t.numSeats, sb, bb)
    ensures u.players[i].position != Some(Ahead(t.numSeats, sb, d))
  {
    if t.players[i].seated && NewcomerIn(t, btn, bb)(i) {
      NewcomerIsOutside(t, btn, sb, bb, i, d);
    } else {
      assert Debited(t.players[i], u.players[i]);
      FoundAt(t, i, true);
    }
  }

  lemma BbSitsIn(t: Table, btn: nat, bb: nat, u: Table)
    requires Seating(t) && Seating(u) && btn < t.numSeats && bb < t.numSeats && ReadySeat(t)(bb)
    requires Joined(t, btn, bb, u)
    requires CountOf(t.numSeats, InAt(t, bb)) == 2 ==> ActiveSeat(t)(bb)
    ensures ActiveSeat(u)(bb)
  {
    var i := FindAt(t.players, bb, false).value;
    if !t.players[i].Active() {
      assert CountOf(t.numSeats, InAt(t, bb)) != 2 by {
        if ActiveSeat(t)(bb) {
          FoundAt(t, FindAt(t.players, bb, true).value, false);
        }
      }
      NewcomerIs(t, btn, bb, i);
    }
    assert u.players[i].Active() && u.players[i].position == Some(bb);
    FoundAt(u, i, true);
  }
}
